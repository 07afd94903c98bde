/**
 * The result record of `getPlanetaryInfo` and the reference definition of
 * what it holds.
 *
 * `calc_ut` is the native Swiss Ephemeris calculation: given a day number,
 * a body and a flag word it returns six reals whose meaning depends on the
 * coordinate flags.  It is passed in as a function together with the other
 * native collaborators (`Engine`).  `PlanetaryInfoOf` states, from scratch,
 * which flag word each of the 18 calls receives and which tuple slot ends up
 * under which key; the imperative `Ephemeris.GetPlanetaryInfo` is proved to
 * return exactly this value.
 */
module Planetary {
  import opened Wrappers
  import opened SweFlags
  import opened TimeCodec
  import opened BodyCatalog

  /** The six values `calc_ut` returns, named as the source unpacks them. */
  datatype Sextuple = Sextuple(arg1: real, arg2: real, arg3: real, arg4: real, arg5: real, arg6: real)

  /** The native collaborators `getPlanetaryInfo` reaches. */
  datatype Engine = Engine(
    calcUt: (real, int, Flags) -> Sextuple,
    planetName: NativeName,
    toUtc: ToUtc,
    utcToJd: UtcToJd)

  /**
   * One request to `calc_ut`: its three arguments, and the ayanamsa the
   * native library last received from `set_sid_mode` (None if never).
   */
  datatype Request = Request(jd: real, planet: int, flag: Flags, ayanamsa: Option<int>)

  /**
   * The string keys of the innermost dict, one constructor each:
   * 'longitude', 'latitude', 'distance', 'longitude_speed', 'latitude_speed',
   * 'distance_speed', 'rectascension', 'declination', 'rectascension_speed',
   * 'declination_speed', 'X', 'Y', 'Z', 'dX', 'dY', 'dZ'.
   */
  datatype Key =
    | Longitude | Latitude | Distance | LongitudeSpeed | LatitudeSpeed | DistanceSpeed
    | Rectascension | Declination | RectascensionSpeed | DeclinationSpeed
    | X | Y | Z | DX | DY | DZ

  /** The innermost dict, e.g. `p.geocentric['tropical']`. */
  type Fields = map<Key, real>
  /** A frame attribute, e.g. `p.geocentric`; the keys 'tropical' and 'sidereal' are the zodiacs. */
  type FrameDict = map<Zodiac, Fields>

  /** `PlanetaryInfo`: built once by its constructor, never updated. */
  datatype PlanetaryInfo = PlanetaryInfo(
    name: string,
    id: int,
    dt: DateTime,
    julianDay: real,
    geocentric: Option<FrameDict>,
    topocentric: Option<FrameDict>,
    heliocentric: Option<FrameDict>)

  // ---------------------------------------------------------------------
  // The 18 combinations, in the order the source visits them.

  const Frames: seq<Frame> := [Geocentric, Topocentric, Heliocentric]
  const Zodiacs: seq<Zodiac> := [Tropical, Sidereal]
  const Representations: seq<Representation> := [Ecliptical, Equatorial, Rectangular]

  /**
   * The 18 combinations in call order: three nested loops, frame outermost,
   * then zodiac, then representation.
   */
  function ModeAt(k: nat): (m: Mode)
    requires k < 18
    ensures 6 * FrameIndex(m.frame) + 3 * ZodiacIndex(m.zodiac) + RepresentationIndex(m.repr) == k
  {
    Mode(Frames[k / 6], Zodiacs[k / 3 % 2], Representations[k % 3])
  }

  function FrameIndex(fr: Frame): (i: nat)
    ensures i < 3 && Frames[i] == fr
  {
    match fr
    case Geocentric => 0
    case Topocentric => 1
    case Heliocentric => 2
  }

  function ZodiacIndex(z: Zodiac): (i: nat)
    ensures i < 2 && Zodiacs[i] == z
  {
    match z
    case Tropical => 0
    case Sidereal => 1
  }

  function RepresentationIndex(rep: Representation): (i: nat)
    ensures i < 3 && Representations[i] == rep
  {
    match rep
    case Ecliptical => 0
    case Equatorial => 1
    case Rectangular => 2
  }

  /** The position of a combination in the call sequence. */
  function ModeIndex(m: Mode): (k: nat)
    ensures k < 18 && ModeAt(k) == m
  {
    6 * FrameIndex(m.frame) + 3 * ZodiacIndex(m.zodiac) + RepresentationIndex(m.repr)
  }

  /** The order in which the blocks of `getPlanetaryInfo` appear in the source. */
  lemma ModesInSourceOrder()
    ensures ModeAt(0) == Mode(Geocentric, Tropical, Ecliptical)
    ensures ModeAt(1) == Mode(Geocentric, Tropical, Equatorial)
    ensures ModeAt(2) == Mode(Geocentric, Tropical, Rectangular)
    ensures ModeAt(3) == Mode(Geocentric, Sidereal, Ecliptical)
    ensures ModeAt(4) == Mode(Geocentric, Sidereal, Equatorial)
    ensures ModeAt(5) == Mode(Geocentric, Sidereal, Rectangular)
    ensures ModeAt(6) == Mode(Topocentric, Tropical, Ecliptical)
    ensures ModeAt(7) == Mode(Topocentric, Tropical, Equatorial)
    ensures ModeAt(8) == Mode(Topocentric, Tropical, Rectangular)
    ensures ModeAt(9) == Mode(Topocentric, Sidereal, Ecliptical)
    ensures ModeAt(10) == Mode(Topocentric, Sidereal, Equatorial)
    ensures ModeAt(11) == Mode(Topocentric, Sidereal, Rectangular)
    ensures ModeAt(12) == Mode(Heliocentric, Tropical, Ecliptical)
    ensures ModeAt(13) == Mode(Heliocentric, Tropical, Equatorial)
    ensures ModeAt(14) == Mode(Heliocentric, Tropical, Rectangular)
    ensures ModeAt(15) == Mode(Heliocentric, Sidereal, Ecliptical)
    ensures ModeAt(16) == Mode(Heliocentric, Sidereal, Equatorial)
    ensures ModeAt(17) == Mode(Heliocentric, Sidereal, Rectangular)
  {
  }

  /**
   * Every combination is visited (`ModeIndex` finds its call), and exactly
   * once: two different calls never share a combination.
   */
  lemma ModesVisitEachOnce()
    ensures forall k :: 0 <= k < 18 ==> ModeIndex(ModeAt(k)) == k
    ensures forall j, k :: 0 <= j < 18 && 0 <= k < 18 && ModeAt(j) == ModeAt(k) ==> j == k
  {
    forall k | 0 <= k < 18
      ensures ModeIndex(ModeAt(k)) == k
    {
      var q, h, r := k / 6, k / 3 % 2, k % 3;
      assert FrameIndex(Frames[q]) == q;
      assert ZodiacIndex(Zodiacs[h]) == h;
      assert RepresentationIndex(Representations[r]) == r;
      assert 6 * q + 3 * h + r == k;
    }
    forall j, k | 0 <= j < 18 && 0 <= k < 18 && ModeAt(j) == ModeAt(k)
      ensures j == k
    {
      assert ModeIndex(ModeAt(j)) == j;
    }
  }

  // ---------------------------------------------------------------------
  // The flag words of the 18 calls.

  /**
   * The ayanamsa in force at the k-th call, given the one in force on entry:
   * the first sidereal block (the fourth call) selects Lahiri, and nothing
   * selects another one afterwards.
   */
  function AyanamsaAt(entryMode: Option<int>, k: nat): (a: Option<int>)
    ensures k < 18 && ModeAt(k).zodiac == Sidereal ==> a == Some(SidmLahiri)
    ensures k < 3 ==> a == entryMode
    ensures k >= 3 ==> a == Some(SidmLahiri)
  {
    if k < 3 then entryMode else Some(SidmLahiri)
  }

  /** The request the k-th call sends, given the word and the ayanamsa on entry. */
  function RequestAt(jd: real, planet: int, entry: Flags, entryMode: Option<int>, k: nat): (r: Request)
    requires k < 18
    ensures r.jd == jd && r.planet == planet
    ensures r.flag - ModeGroup == entry - ModeGroup && r.flag * ModeGroup == ModeFlags(ModeAt(k))
    ensures FlgSidereal in r.flag ==> r.ayanamsa == Some(SidmLahiri)
  {
    Request(jd, planet, Compose(entry, ModeAt(k)), AyanamsaAt(entryMode, k))
  }

  /** The first n requests `getPlanetaryInfo` sends, in order. */
  function RequestsBefore(jd: real, planet: int, entry: Flags, entryMode: Option<int>, n: nat): (r: seq<Request>)
    requires n <= 18
    ensures |r| == n
  {
    if n == 0 then []
    else RequestsBefore(jd, planet, entry, entryMode, n - 1) + [RequestAt(jd, planet, entry, entryMode, n - 1)]
  }

  /** All the requests `getPlanetaryInfo` sends: one per block, 18 in all. */
  function Requests(jd: real, planet: int, entry: Flags, entryMode: Option<int>): (r: seq<Request>)
    ensures |r| == 18
  {
    RequestsBefore(jd, planet, entry, entryMode, 18)
  }

  /** The k-th of the first n requests is made for the k-th combination. */
  lemma {:induction false} RequestsBeforeInOrder(jd: real, planet: int, entry: Flags, entryMode: Option<int>, n: nat, k: nat)
    requires k < n <= 18
    ensures RequestsBefore(jd, planet, entry, entryMode, n)[k] == RequestAt(jd, planet, entry, entryMode, k)
  {
    if k < n - 1 {
      RequestsBeforeInOrder(jd, planet, entry, entryMode, n - 1, k);
    }
  }

  /** The k-th request is made for the k-th combination, under the ayanamsa then in force. */
  lemma RequestsInOrder(jd: real, planet: int, entry: Flags, entryMode: Option<int>, k: nat)
    requires k < 18
    ensures Requests(jd, planet, entry, entryMode)[k]
      == Request(jd, planet, Compose(entry, ModeAt(k)), AyanamsaAt(entryMode, k))
  {
    RequestsBeforeInOrder(jd, planet, entry, entryMode, 18, k);
  }

  /** The position of the first call of the section for frame `fr` and zodiac `z`. */
  function SectionStart(fr: Frame, z: Zodiac): nat {
    match fr
    case Geocentric => if z == Tropical then 0 else 3
    case Topocentric => if z == Tropical then 6 else 9
    case Heliocentric => if z == Tropical then 12 else 15
  }

  /**
   * Within a section the representation varies fastest: the section's three
   * calls are consecutive and start at `SectionStart`, and a section lies
   * wholly before or wholly after the first sidereal block.
   */
  lemma SectionModes(fr: Frame, z: Zodiac)
    ensures var k := SectionStart(fr, z);
      && k + 3 <= 18
      && (k == 0 || k >= 3)
      && (z == Sidereal ==> k >= 3)
      && ModeAt(k) == Mode(fr, z, Ecliptical)
      && ModeAt(k + 1) == Mode(fr, z, Equatorial)
      && ModeAt(k + 2) == Mode(fr, z, Rectangular)
  {
  }

  /**
   * The three calls of a section run under one ayanamsa, Lahiri's in a
   * sidereal section.
   */
  lemma SectionAyanamsa(fr: Frame, z: Zodiac, entryMode: Option<int>)
    ensures var k := SectionStart(fr, z);
      && AyanamsaAt(entryMode, k + 1) == AyanamsaAt(entryMode, k)
      && AyanamsaAt(entryMode, k + 2) == AyanamsaAt(entryMode, k)
      && (z == Sidereal ==> AyanamsaAt(entryMode, k) == Some(SidmLahiri))
  {
  }

  /** The sidereal section of a frame follows its tropical one. */
  lemma SectionsAdjacent(fr: Frame)
    ensures SectionStart(fr, Sidereal) == SectionStart(fr, Tropical) + 3
    ensures SectionStart(fr, Sidereal) + 3 <= 18
  {
  }

  /** The run grows by one request per block. */
  lemma RequestsBeforeStep(jd: real, planet: int, entry: Flags, entryMode: Option<int>, n: nat, m: Mode)
    requires n < 18 && ModeAt(n) == m
    ensures RequestsBefore(jd, planet, entry, entryMode, n + 1)
      == RequestsBefore(jd, planet, entry, entryMode, n) + [Request(jd, planet, Compose(entry, m), AyanamsaAt(entryMode, n))]
  {
  }

  /**
   * The k-th call carries the flags of `entry` outside the mode group
   * unchanged, never RADIANS, and exactly the frame, zodiac and
   * representation flags of the k-th combination of the nested loops.  Every
   * sidereal call is made under the Lahiri ayanamsa; the three calls before
   * the first sidereal one keep the ayanamsa in force on entry.
   */
  lemma RequestFlags(jd: real, planet: int, entry: Flags, entryMode: Option<int>, k: nat)
    requires k < 18
    ensures var rq := Requests(jd, planet, entry, entryMode)[k];
      var f := rq.flag;
      && f - ModeGroup == entry - ModeGroup
      && FlgRadians !in f
      && (FlgHelCtr in f <==> k / 6 == 2)
      && (FlgTopoCtr in f <==> k / 6 == 1)
      && (FlgSidereal in f <==> k / 3 % 2 == 1)
      && (FlgEquatorial in f <==> k % 3 == 1)
      && (FlgXyz in f <==> k % 3 == 2)
      && (FlgSidereal in f ==> rq.ayanamsa == Some(SidmLahiri))
      && (k < 3 ==> rq.ayanamsa == entryMode)
  {
    RequestsInOrder(jd, planet, entry, entryMode, k);
  }

  /** The word the register holds when `getPlanetaryInfo` returns. */
  lemma FinalFlags(entry: Flags)
    ensures var f := Compose(entry, Mode(Heliocentric, Sidereal, Rectangular));
      && f - ModeGroup == entry - ModeGroup
      && FlgHelCtr in f && FlgSidereal in f && FlgXyz in f
      && FlgTopoCtr !in f && FlgEquatorial !in f && FlgRadians !in f
  {
  }

  // ---------------------------------------------------------------------
  // The innermost dict.

  const FieldKeys: set<Key> := {
    Longitude, Latitude, Distance, LongitudeSpeed, LatitudeSpeed, DistanceSpeed,
    Rectascension, Declination, RectascensionSpeed, DeclinationSpeed,
    X, Y, Z, DX, DY, DZ}

  /** The dict has sixteen distinct keys. */
  lemma FieldKeysCount()
    ensures |FieldKeys| == 16
  {
  }

  /**
   * The dict literal of the source, key for key: 'distance' and
   * 'distance_speed' are listed twice, each time with the same local.
   */
  function CoordinateDict(
    longitude: real, latitude: real, distance: real,
    longitudeSpeed: real, latitudeSpeed: real, distanceSpeed: real,
    rectascension: real, declination: real,
    rectascensionSpeed: real, declinationSpeed: real,
    x: real, y: real, z: real, dx: real, dy: real, dz: real): (d: Fields)
    ensures d.Keys == FieldKeys
    ensures && d[Longitude] == longitude && d[Latitude] == latitude && d[Distance] == distance
            && d[LongitudeSpeed] == longitudeSpeed && d[LatitudeSpeed] == latitudeSpeed
            && d[DistanceSpeed] == distanceSpeed
    ensures && d[Rectascension] == rectascension && d[Declination] == declination
            && d[RectascensionSpeed] == rectascensionSpeed && d[DeclinationSpeed] == declinationSpeed
    ensures && d[X] == x && d[Y] == y && d[Z] == z && d[DX] == dx && d[DY] == dy && d[DZ] == dz
  {
    map[
      Longitude := longitude,
      Latitude := latitude,
      Distance := distance,
      LongitudeSpeed := longitudeSpeed,
      LatitudeSpeed := latitudeSpeed,
      DistanceSpeed := distanceSpeed,
      Rectascension := rectascension,
      Declination := declination,
      Distance := distance,
      RectascensionSpeed := rectascensionSpeed,
      DeclinationSpeed := declinationSpeed,
      DistanceSpeed := distanceSpeed,
      X := x,
      Y := y,
      Z := z,
      DX := dx,
      DY := dy,
      DZ := dz]
  }

  /**
   * The dict one frame/zodiac pair ends up with, from the results of its
   * ecliptical, equatorial and rectangular calls.  The locals `distance` and
   * `distance_speed` are assigned by the ecliptical block and reassigned by
   * the equatorial block before the dict is built, so they hold the
   * equatorial values.
   */
  function SubDict(ecl: Sextuple, equ: Sextuple, rect: Sextuple): (d: Fields)
    ensures d.Keys == FieldKeys
    ensures && d[Longitude] == ecl.arg1 && d[Latitude] == ecl.arg2
            && d[LongitudeSpeed] == ecl.arg4 && d[LatitudeSpeed] == ecl.arg5
    ensures && d[Rectascension] == equ.arg1 && d[Declination] == equ.arg2
            && d[RectascensionSpeed] == equ.arg4 && d[DeclinationSpeed] == equ.arg5
            && d[Distance] == equ.arg3 && d[DistanceSpeed] == equ.arg6
    ensures && d[X] == rect.arg1 && d[Y] == rect.arg2 && d[Z] == rect.arg3
            && d[DX] == rect.arg4 && d[DY] == rect.arg5 && d[DZ] == rect.arg6
  {
    CoordinateDict(
      ecl.arg1, ecl.arg2, equ.arg3, ecl.arg4, ecl.arg5, equ.arg6,
      equ.arg1, equ.arg2, equ.arg4, equ.arg5,
      rect.arg1, rect.arg2, rect.arg3, rect.arg4, rect.arg5, rect.arg6)
  }

  /** The distance values of the ecliptical call are discarded. */
  lemma EclipticalDistanceDiscarded(ecl: Sextuple, equ: Sextuple, rect: Sextuple, distance: real, distanceSpeed: real)
    ensures SubDict(ecl.(arg3 := distance, arg6 := distanceSpeed), equ, rect) == SubDict(ecl, equ, rect)
  {
  }

  // ---------------------------------------------------------------------
  // The whole record.

  function FrameAttribute(info: PlanetaryInfo, fr: Frame): Option<FrameDict> {
    match fr
    case Geocentric => info.geocentric
    case Topocentric => info.topocentric
    case Heliocentric => info.heliocentric
  }

  /** The result of the call made for combination `m`. */
  function Output(engine: Engine, jd: real, planet: int, entry: Flags, m: Mode): Sextuple {
    engine.calcUt(jd, planet, Compose(entry, m))
  }

  /**
   * One sub-dict: every entry comes from the `calc_ut` call made with the
   * word of this frame and zodiac and the representation the key belongs to.
   */
  function ZodiacDictOf(engine: Engine, jd: real, planet: int, entry: Flags, fr: Frame, z: Zodiac): (d: Fields)
    ensures var ecl := engine.calcUt(jd, planet, Compose(entry, Mode(fr, z, Ecliptical)));
      && d.Keys == FieldKeys
      && d[Longitude] == ecl.arg1 && d[Latitude] == ecl.arg2
      && d[LongitudeSpeed] == ecl.arg4 && d[LatitudeSpeed] == ecl.arg5
    ensures var equ := engine.calcUt(jd, planet, Compose(entry, Mode(fr, z, Equatorial)));
      && d[Rectascension] == equ.arg1 && d[Declination] == equ.arg2
      && d[RectascensionSpeed] == equ.arg4 && d[DeclinationSpeed] == equ.arg5
      && d[Distance] == equ.arg3 && d[DistanceSpeed] == equ.arg6
    ensures var rect := engine.calcUt(jd, planet, Compose(entry, Mode(fr, z, Rectangular)));
      && d[X] == rect.arg1 && d[Y] == rect.arg2 && d[Z] == rect.arg3
      && d[DX] == rect.arg4 && d[DY] == rect.arg5 && d[DZ] == rect.arg6
  {
    SubDict(
      Output(engine, jd, planet, entry, Mode(fr, z, Ecliptical)),
      Output(engine, jd, planet, entry, Mode(fr, z, Equatorial)),
      Output(engine, jd, planet, entry, Mode(fr, z, Rectangular)))
  }

  /**
   * The sixteen locals of a section, gathered as the source gathers them,
   * give the sub-dict of that section.
   */
  lemma SectionDict(engine: Engine, jd: real, planet: int, entry: Flags, fr: Frame, z: Zodiac,
                    ecl: Sextuple, equ: Sextuple, rect: Sextuple)
    requires ecl == Output(engine, jd, planet, entry, Mode(fr, z, Ecliptical))
    requires equ == Output(engine, jd, planet, entry, Mode(fr, z, Equatorial))
    requires rect == Output(engine, jd, planet, entry, Mode(fr, z, Rectangular))
    ensures CoordinateDict(
      ecl.arg1, ecl.arg2, equ.arg3, ecl.arg4, ecl.arg5, equ.arg6,
      equ.arg1, equ.arg2, equ.arg4, equ.arg5,
      rect.arg1, rect.arg2, rect.arg3, rect.arg4, rect.arg5, rect.arg6)
      == ZodiacDictOf(engine, jd, planet, entry, fr, z)
  {
  }

  /** The dict `{'tropical': tropical, 'sidereal': sidereal}`. */
  function ZodiacPair(tropical: Fields, sidereal: Fields): (r: FrameDict)
    ensures r.Keys == {Tropical, Sidereal}
    ensures r[Tropical] == tropical && r[Sidereal] == sidereal
  {
    map[Tropical := tropical, Sidereal := sidereal]
  }

  /**
   * One frame attribute: the keys 'tropical' and 'sidereal', and nothing
   * else, each holding the sub-dict of exactly that frame and zodiac.
   */
  function FrameDictOf(engine: Engine, jd: real, planet: int, entry: Flags, fr: Frame): (r: FrameDict)
    ensures r.Keys == {Tropical, Sidereal}
    ensures r[Tropical] == ZodiacDictOf(engine, jd, planet, entry, fr, Tropical)
    ensures r[Sidereal] == ZodiacDictOf(engine, jd, planet, entry, fr, Sidereal)
  {
    ZodiacPair(ZodiacDictOf(engine, jd, planet, entry, fr, Tropical),
               ZodiacDictOf(engine, jd, planet, entry, fr, Sidereal))
  }

  /**
   * What `getPlanetaryInfo(planet, dt)` returns when the register held
   * `entry` on entry: the ValueError of `datetimeToJulianDay`, or the record.
   */
  function PlanetaryInfoOf(engine: Engine, planet: int, dt: DateTime, entry: Flags): (r: Result<PlanetaryInfo, TimeError>)
    ensures r.Failure? <==> dt.tzinfo.None?
    ensures r.Failure? ==> r.error == TzInfoMissing
    ensures r.Success? ==>
      && r.value.name == GetPlanetNameForId(engine.planetName, planet)
      && r.value.id == planet
      && r.value.dt == dt
      && r.value.julianDay == DatetimeToJulianDay(dt, engine.toUtc, engine.utcToJd).value
      && r.value.geocentric.Some? && r.value.topocentric.Some? && r.value.heliocentric.Some?
  {
    var planetName := GetPlanetNameForId(engine.planetName, planet);
    var jd :- DatetimeToJulianDay(dt, engine.toUtc, engine.utcToJd);
    Success(PlanetaryInfo(planetName, planet, dt, jd,
      Some(FrameDictOf(engine, jd, planet, entry, Geocentric)),
      Some(FrameDictOf(engine, jd, planet, entry, Topocentric)),
      Some(FrameDictOf(engine, jd, planet, entry, Heliocentric))))
  }

  /** Each frame attribute of the record is the frame dict of that frame. */
  lemma RecordFrames(engine: Engine, planet: int, dt: DateTime, entry: Flags, fr: Frame)
    requires dt.tzinfo.Some?
    ensures var info := PlanetaryInfoOf(engine, planet, dt, entry).value;
      FrameAttribute(info, fr) == Some(FrameDictOf(engine, info.julianDay, planet, entry, fr))
  {
  }

  /**
   * Every one of the six sub-dicts is present, is the sub-dict built from
   * the calls of its own frame and zodiac, and has the sixteen keys.
   */
  lemma RecordIsComplete(engine: Engine, planet: int, dt: DateTime, entry: Flags, fr: Frame, z: Zodiac)
    requires dt.tzinfo.Some?
    ensures var info := PlanetaryInfoOf(engine, planet, dt, entry).value;
      && FrameAttribute(info, fr).Some?
      && FrameAttribute(info, fr).value.Keys == {Tropical, Sidereal}
      && FrameAttribute(info, fr).value[z] == ZodiacDictOf(engine, info.julianDay, planet, entry, fr, z)
      && FrameAttribute(info, fr).value[z].Keys == FieldKeys
      && |FrameAttribute(info, fr).value[z]| == 16
  {
    RecordFrames(engine, planet, dt, entry, fr);
    FieldKeysCount();
  }
}
