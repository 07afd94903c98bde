/**
 * The Swiss Ephemeris calculation-flag word and the pure effect of every
 * setter the Ephemeris class applies to it.
 *
 * The word is modelled as the set of flags that are on: `f + {b}` is
 * `iflag |= b` and `f - {b}` is `iflag &= ~b`.  Each setter function states
 * its effect as "the flags of this group become exactly X, no flag outside
 * the group changes".  The last part of the module is the reference
 * definition of a frame/zodiac/representation combination: the word is
 * computed from scratch (`Compose`), and `ApplyMode`, the clear-then-set
 * sequence of setters, is proved to produce exactly that word from any word.
 */
module SweFlags {

  /** The SEFLG_* flags the Ephemeris class sets, clears or reports. */
  datatype Flag =
    | FlgJplEph | FlgSwiEph | FlgMosEph
    | FlgHelCtr | FlgTruePos | FlgSpeed
    | FlgEquatorial | FlgXyz | FlgRadians
    | FlgTopoCtr | FlgSidereal

  type Flags = set<Flag>

  // The ayanamsa `setSiderealZodiac` selects (SE_SIDM_LAHIRI).
  const SidmLahiri: int := 1

  /** The flags the reference-frame setters touch. */
  const FrameGroup: Flags := {FlgHelCtr, FlgTopoCtr}
  /** The flags `__clearCoordinateSystemFlags` clears. */
  const CoordinateGroup: Flags := {FlgEquatorial, FlgXyz, FlgRadians}
  /** Every flag one block of `getPlanetaryInfo` may change. */
  const ModeGroup: Flags := FrameGroup + {FlgSidereal} + CoordinateGroup

  /** The word `initialize` leaves behind. */
  const InitialFlags: Flags := {FlgSwiEph, FlgSpeed, FlgTruePos}

  // ---------------------------------------------------------------------
  // Single-flag toggles: zodiac and true/apparent positions.

  function WithSidereal(f: Flags): (r: Flags)
    ensures FlgSidereal in r
    ensures r - {FlgSidereal} == f - {FlgSidereal}
  {
    f + {FlgSidereal}
  }

  function WithTropical(f: Flags): (r: Flags)
    ensures FlgSidereal !in r
    ensures r - {FlgSidereal} == f - {FlgSidereal}
  {
    f - {FlgSidereal}
  }

  function WithTruePositions(f: Flags): (r: Flags)
    ensures FlgTruePos in r
    ensures r - {FlgTruePos} == f - {FlgTruePos}
  {
    f + {FlgTruePos}
  }

  function WithApparentPositions(f: Flags): (r: Flags)
    ensures FlgTruePos !in r
    ensures r - {FlgTruePos} == f - {FlgTruePos}
  {
    f - {FlgTruePos}
  }

  // ---------------------------------------------------------------------
  // Coordinate representation.

  /** `__clearCoordinateSystemFlags`, which is also the ecliptical setter. */
  function CoordinatesCleared(f: Flags): (r: Flags)
    ensures r * CoordinateGroup == {}
    ensures r - CoordinateGroup == f - CoordinateGroup
  {
    f - {FlgEquatorial} - {FlgXyz} - {FlgRadians}
  }

  function WithEquatorial(f: Flags): (r: Flags)
    ensures r * CoordinateGroup == {FlgEquatorial}
    ensures r - CoordinateGroup == f - CoordinateGroup
  {
    CoordinatesCleared(f) + {FlgEquatorial}
  }

  function WithRectangular(f: Flags): (r: Flags)
    ensures r * CoordinateGroup == {FlgXyz}
    ensures r - CoordinateGroup == f - CoordinateGroup
  {
    CoordinatesCleared(f) + {FlgXyz}
  }

  /** Selecting radians also drops EQUATORIAL and XYZ. */
  function WithRadians(f: Flags): (r: Flags)
    ensures r * CoordinateGroup == {FlgRadians}
    ensures r - CoordinateGroup == f - CoordinateGroup
  {
    CoordinatesCleared(f) + {FlgRadians}
  }

  /** Unlike the setters above, this one leaves EQUATORIAL and XYZ alone. */
  function WithoutRadians(f: Flags): (r: Flags)
    ensures FlgRadians !in r
    ensures r - {FlgRadians} == f - {FlgRadians}
  {
    f - {FlgRadians}
  }

  // ---------------------------------------------------------------------
  // Reference frame.

  function AsHeliocentric(f: Flags): (r: Flags)
    ensures r * FrameGroup == {FlgHelCtr}
    ensures r - FrameGroup == f - FrameGroup
  {
    f - {FlgTopoCtr} + {FlgHelCtr}
  }

  function AsGeocentric(f: Flags): (r: Flags)
    ensures r * FrameGroup == {}
    ensures r - FrameGroup == f - FrameGroup
  {
    f - {FlgHelCtr} - {FlgTopoCtr}
  }

  function AsTopocentric(f: Flags): (r: Flags)
    ensures r * FrameGroup == {FlgTopoCtr}
    ensures r - FrameGroup == f - FrameGroup
  {
    f - {FlgHelCtr} + {FlgTopoCtr}
  }

  // ---------------------------------------------------------------------
  // Combinations of frame, zodiac and representation.

  datatype Frame = Geocentric | Topocentric | Heliocentric
  datatype Zodiac = Tropical | Sidereal
  datatype Representation = Ecliptical | Equatorial | Rectangular
  datatype Mode = Mode(frame: Frame, zodiac: Zodiac, repr: Representation)

  function FrameFlags(fr: Frame): Flags {
    match fr
    case Geocentric => {}
    case Topocentric => {FlgTopoCtr}
    case Heliocentric => {FlgHelCtr}
  }

  function ZodiacFlags(z: Zodiac): Flags {
    match z
    case Tropical => {}
    case Sidereal => {FlgSidereal}
  }

  function RepresentationFlags(rep: Representation): Flags {
    match rep
    case Ecliptical => {}
    case Equatorial => {FlgEquatorial}
    case Rectangular => {FlgXyz}
  }

  /** The flags of the mode group that select combination `m`. */
  function ModeFlags(m: Mode): (r: Flags)
    ensures r <= ModeGroup
    ensures FlgRadians !in r
    ensures FlgHelCtr in r <==> m.frame == Heliocentric
    ensures FlgTopoCtr in r <==> m.frame == Topocentric
    ensures FlgSidereal in r <==> m.zodiac == Sidereal
    ensures FlgEquatorial in r <==> m.repr == Equatorial
    ensures FlgXyz in r <==> m.repr == Rectangular
  {
    FrameFlags(m.frame) + ZodiacFlags(m.zodiac) + RepresentationFlags(m.repr)
  }

  /**
   * The word for combination `m`, computed from scratch: the flags of
   * `entry` outside the mode group, plus exactly the flags that select `m`.
   */
  function Compose(entry: Flags, m: Mode): (r: Flags)
    ensures r - ModeGroup == entry - ModeGroup
    ensures r * ModeGroup == ModeFlags(m)
  {
    (entry - ModeGroup) + ModeFlags(m)
  }

  /** The frame setter of a block: exactly the frame's flags among HELCTR and TOPOCTR. */
  function SetFrame(f: Flags, fr: Frame): (r: Flags)
    ensures r * FrameGroup == FrameFlags(fr)
    ensures r - FrameGroup == f - FrameGroup
  {
    match fr
    case Geocentric => AsGeocentric(f)
    case Topocentric => AsTopocentric(f)
    case Heliocentric => AsHeliocentric(f)
  }

  /** The zodiac setter of a block: SIDEREAL on exactly for the sidereal zodiac. */
  function SetZodiac(f: Flags, z: Zodiac): (r: Flags)
    ensures r * {FlgSidereal} == ZodiacFlags(z)
    ensures r - {FlgSidereal} == f - {FlgSidereal}
  {
    match z
    case Tropical => WithTropical(f)
    case Sidereal => WithSidereal(f)
  }

  /** The coordinate setter of a block: exactly the representation's coordinate flag, RADIANS off. */
  function SetRepresentation(f: Flags, rep: Representation): (r: Flags)
    ensures r * CoordinateGroup == RepresentationFlags(rep)
    ensures r - CoordinateGroup == f - CoordinateGroup
  {
    match rep
    case Ecliptical => CoordinatesCleared(f)
    case Equatorial => WithEquatorial(f)
    case Rectangular => WithRectangular(f)
  }

  /**
   * One block of `getPlanetaryInfo`: set the frame, then the zodiac, then the
   * representation.  Whatever the register held before, the block leaves the
   * word `Compose` computes from scratch: the clear-then-set order of the
   * setters leaves no flag of an earlier combination behind.
   */
  function ApplyMode(f: Flags, m: Mode): (r: Flags)
    ensures r == Compose(f, m)
  {
    SetRepresentation(SetZodiac(SetFrame(f, m.frame), m.zodiac), m.repr)
  }

  // ---------------------------------------------------------------------
  // Properties of the setters.

  /** The toggles are idempotent: applying one twice is applying it once. */
  lemma TogglesIdempotent(f: Flags)
    ensures WithSidereal(WithSidereal(f)) == WithSidereal(f)
    ensures WithTropical(WithTropical(f)) == WithTropical(f)
    ensures WithTruePositions(WithTruePositions(f)) == WithTruePositions(f)
    ensures WithApparentPositions(WithApparentPositions(f)) == WithApparentPositions(f)
  {
  }

  /** After any frame setter, HELCTR and TOPOCTR are never both on. */
  lemma FramesExclusive(f: Flags)
    ensures FlgHelCtr !in AsGeocentric(f) && FlgTopoCtr !in AsGeocentric(f)
    ensures FlgHelCtr in AsHeliocentric(f) && FlgTopoCtr !in AsHeliocentric(f)
    ensures FlgTopoCtr in AsTopocentric(f) && FlgHelCtr !in AsTopocentric(f)
  {
  }

  /** Composing over a word composed for another combination forgets that combination. */
  lemma ComposeForgetsPrevious(entry: Flags, m: Mode, n: Mode)
    ensures Compose(Compose(entry, m), n) == Compose(entry, n)
  {
  }
}
