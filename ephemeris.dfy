/**
 * The `Ephemeris` class of the price-charting tool: the calculation-flag
 * register `iflag` that every client shares, its setters, the `calc_ut`
 * wrapper and `getPlanetaryInfo`.
 *
 * In the source the register is a class attribute updated by static
 * methods; here it is a field of one object whose methods say, each, what
 * the register holds afterwards.  The native library is `engine`.  Two ghost
 * fields record what the native library is told: the sidereal mode chosen by
 * `set_sid_mode` and every request sent to `calc_ut`.
 */
module Ephemeris {
  import opened Wrappers
  import opened SweFlags
  import opened TimeCodec
  import opened BodyCatalog
  import opened Planetary

  class Ephemeris {
    /** The native Swiss Ephemeris functions this class calls. */
    const engine: Engine
    /** The word passed to `calc_ut`; starts at 0. */
    var iflag: Flags
    /** The ayanamsa last given to `swe.set_sid_mode`, if any. */
    ghost var siderealMode: Option<int>
    /** Every request sent to `calc_ut`, oldest first. */
    ghost var calls: seq<Request>

    /**
     * SIDEREAL is only ever switched on together with the Lahiri ayanamsa,
     * so a sidereal request always uses that ayanamsa.
     */
    ghost predicate Valid()
      reads this
    {
      FlgSidereal in iflag ==> siderealMode == Some(SidmLahiri)
    }

    constructor (engine: Engine)
      ensures Valid()
      ensures this.engine == engine
      ensures iflag == {} && siderealMode == None && calls == []
    {
      this.engine := engine;
      iflag := {};
      siderealMode := None;
      calls := [];
    }

    /** `initialize()`: the register is reset and then holds SWIEPH, SPEED and TRUEPOS. */
    method Initialize()
      requires Valid()
      modifies this`iflag
      ensures Valid()
      ensures iflag == InitialFlags
    {
      iflag := {};
      iflag := iflag + {FlgSwiEph};
      iflag := iflag + {FlgSpeed};
      SetTruePlanetaryPositions();
    }

    /** `setSiderealZodiac()`: SIDEREAL on, and the Lahiri ayanamsa selected. */
    method SetSiderealZodiac()
      requires Valid()
      modifies this`iflag, this`siderealMode
      ensures Valid()
      ensures iflag == WithSidereal(old(iflag))
      ensures siderealMode == Some(SidmLahiri)
    {
      iflag := iflag + {FlgSidereal};
      siderealMode := Some(SidmLahiri);
    }

    /** `setTropicalZodiac()`: SIDEREAL off; the ayanamsa is left as it was. */
    method SetTropicalZodiac()
      requires Valid()
      modifies this`iflag
      ensures Valid()
      ensures iflag == WithTropical(old(iflag))
    {
      iflag := iflag - {FlgSidereal};
    }

    /** `setTruePlanetaryPositions()`: TRUEPOS on. */
    method SetTruePlanetaryPositions()
      requires Valid()
      modifies this`iflag
      ensures Valid()
      ensures iflag == WithTruePositions(old(iflag))
    {
      iflag := iflag + {FlgTruePos};
    }

    /** `setApparentPlanetaryPositions()`: TRUEPOS off. */
    method SetApparentPlanetaryPositions()
      requires Valid()
      modifies this`iflag
      ensures Valid()
      ensures iflag == WithApparentPositions(old(iflag))
    {
      iflag := iflag - {FlgTruePos};
    }

    /** `__clearCoordinateSystemFlags()`: EQUATORIAL, XYZ and RADIANS off. */
    method ClearCoordinateSystemFlags()
      requires Valid()
      modifies this`iflag
      ensures Valid()
      ensures iflag == CoordinatesCleared(old(iflag))
    {
      iflag := iflag - {FlgEquatorial};
      iflag := iflag - {FlgXyz};
      iflag := iflag - {FlgRadians};
    }

    /** `setEclipticalCoordinateSystemFlag()`: ecliptical is the cleared state. */
    method SetEclipticalCoordinateSystemFlag()
      requires Valid()
      modifies this`iflag
      ensures Valid()
      ensures iflag == CoordinatesCleared(old(iflag))
    {
      ClearCoordinateSystemFlags();
    }

    /** `setEquatorialCoordinateSystemFlag()`. */
    method SetEquatorialCoordinateSystemFlag()
      requires Valid()
      modifies this`iflag
      ensures Valid()
      ensures iflag == WithEquatorial(old(iflag))
    {
      ClearCoordinateSystemFlags();
      iflag := iflag + {FlgEquatorial};
    }

    /** `setRectangularCoordinateSystemFlag()`. */
    method SetRectangularCoordinateSystemFlag()
      requires Valid()
      modifies this`iflag
      ensures Valid()
      ensures iflag == WithRectangular(old(iflag))
    {
      ClearCoordinateSystemFlags();
      iflag := iflag + {FlgXyz};
    }

    /** `setRadiansCoordinateSystemFlag()`: clears EQUATORIAL and XYZ too. */
    method SetRadiansCoordinateSystemFlag()
      requires Valid()
      modifies this`iflag
      ensures Valid()
      ensures iflag == WithRadians(old(iflag))
    {
      ClearCoordinateSystemFlags();
      iflag := iflag + {FlgRadians};
    }

    /** `unsetRadiansCoordinateSystemFlag()`: RADIANS off, nothing else. */
    method UnsetRadiansCoordinateSystemFlag()
      requires Valid()
      modifies this`iflag
      ensures Valid()
      ensures iflag == WithoutRadians(old(iflag))
    {
      iflag := iflag - {FlgRadians};
    }

    /** `setHeliocentricCalculations()`. */
    method SetHeliocentricCalculations()
      requires Valid()
      modifies this`iflag
      ensures Valid()
      ensures iflag == AsHeliocentric(old(iflag))
    {
      iflag := iflag - {FlgTopoCtr};
      iflag := iflag + {FlgHelCtr};
    }

    /** `setGeocentricCalculations()`. */
    method SetGeocentricCalculations()
      requires Valid()
      modifies this`iflag
      ensures Valid()
      ensures iflag == AsGeocentric(old(iflag))
    {
      iflag := iflag - {FlgHelCtr};
      iflag := iflag - {FlgTopoCtr};
    }

    /** `setTopocentricCalculations()`. */
    method SetTopocentricCalculations()
      requires Valid()
      modifies this`iflag
      ensures Valid()
      ensures iflag == AsTopocentric(old(iflag))
    {
      iflag := iflag - {FlgHelCtr};
      iflag := iflag + {FlgTopoCtr};
    }

    /**
     * `calc_ut(jd, planet, flag=FLG_SWIEPH+FLG_SPEED)`: the native result for
     * exactly the given arguments, and the request is logged together with
     * the ayanamsa then in force; called with the register, a sidereal
     * request is under Lahiri by the class invariant.  The register
     * is not consulted: callers pass it explicitly.
     */
    method CalcUt(jd: real, planet: int, flag: Flags := {FlgSwiEph, FlgSpeed}) returns (r: Sextuple)
      modifies this`calls
      ensures r == engine.calcUt(jd, planet, flag)
      ensures calls == old(calls) + [Request(jd, planet, flag, siderealMode)]
      ensures Valid() && flag == iflag && FlgSidereal in flag ==> calls[|calls| - 1].ayanamsa == Some(SidmLahiri)
    {
      r := engine.calcUt(jd, planet, flag);
      calls := calls + [Request(jd, planet, flag, siderealMode)];
    }

    /** The frame setter of a block. */
    method ApplyFrame(fr: Frame)
      requires Valid()
      modifies this`iflag
      ensures Valid()
      ensures iflag == SetFrame(old(iflag), fr)
    {
      match fr {
        case Geocentric => SetGeocentricCalculations();
        case Topocentric => SetTopocentricCalculations();
        case Heliocentric => SetHeliocentricCalculations();
      }
    }

    /** The zodiac setter of a block; only the sidereal one touches the ayanamsa. */
    method ApplyZodiac(z: Zodiac)
      requires Valid()
      modifies this`iflag, this`siderealMode
      ensures Valid()
      ensures iflag == SetZodiac(old(iflag), z)
      ensures z == Sidereal ==> siderealMode == Some(SidmLahiri)
      ensures z == Tropical ==> siderealMode == old(siderealMode)
    {
      match z {
        case Tropical => SetTropicalZodiac();
        case Sidereal => SetSiderealZodiac();
      }
    }

    /** The coordinate setter of a block. */
    method ApplyRepresentation(rep: Representation)
      requires Valid()
      modifies this`iflag
      ensures Valid()
      ensures iflag == SetRepresentation(old(iflag), rep)
    {
      match rep {
        case Ecliptical => SetEclipticalCoordinateSystemFlag();
        case Equatorial => SetEquatorialCoordinateSystemFlag();
        case Rectangular => SetRectangularCoordinateSystemFlag();
      }
    }

    /**
     * One block of `getPlanetaryInfo`: the frame setter, then the zodiac
     * setter, then the coordinate setter of combination `m`, then `calc_ut`
     * with the register.  `entry` is the word on entry to `getPlanetaryInfo`:
     * the block sends the word `Compose` builds from it, whatever earlier
     * blocks left in the mode group.
     */
    method CalcUtFor(jd: real, planet: int, m: Mode, ghost entry: Flags) returns (r: Sextuple)
      requires Valid()
      requires iflag - ModeGroup == entry - ModeGroup
      modifies this`iflag, this`siderealMode, this`calls
      ensures Valid()
      ensures iflag == Compose(entry, m)
      ensures r == Output(engine, jd, planet, entry, m)
      ensures calls == old(calls) + [Request(jd, planet, Compose(entry, m), siderealMode)]
      ensures m.zodiac == Sidereal ==> siderealMode == Some(SidmLahiri)
      ensures m.zodiac == Tropical ==> siderealMode == old(siderealMode)
    {
      ghost var before := iflag;
      ApplyFrame(m.frame);
      ApplyZodiac(m.zodiac);
      ApplyRepresentation(m.repr);
      assert Compose(before, m) == Compose(entry, m);
      r := CalcUt(jd, planet, iflag);
    }

    /**
     * The block of `getPlanetaryInfo` that makes the k-th call: given the
     * word and the ayanamsa on entry (`entry`, `entryMode`), it extends the
     * run of the first k requests by the k-th one.
     */
    method CalcBlock(jd: real, planet: int, m: Mode,
                     ghost k: nat, ghost entry: Flags, ghost entryMode: Option<int>, ghost start: seq<Request>)
        returns (r: Sextuple)
      requires Valid()
      requires k < 18 && ModeAt(k) == m
      requires iflag - ModeGroup == entry - ModeGroup
      requires calls == start + RequestsBefore(jd, planet, entry, entryMode, k)
      requires m.zodiac == Tropical ==> siderealMode == AyanamsaAt(entryMode, k)
      requires m.zodiac == Sidereal ==> k >= 3
      modifies this`iflag, this`siderealMode, this`calls
      ensures Valid()
      ensures iflag == Compose(entry, m)
      ensures r == Output(engine, jd, planet, entry, m)
      ensures calls == start + RequestsBefore(jd, planet, entry, entryMode, k + 1)
      ensures m.zodiac == Sidereal ==> siderealMode == Some(SidmLahiri)
      ensures m.zodiac == Tropical ==> siderealMode == old(siderealMode)
    {
      r := CalcUtFor(jd, planet, m, entry);
      RequestsBeforeStep(jd, planet, entry, entryMode, k, m);
    }

    /**
     * One section of `getPlanetaryInfo`: the ecliptical, equatorial and
     * rectangular blocks of frame `fr` and zodiac `z`, unpacked into the
     * sixteen locals and gathered into the sub-dict.  The section continues
     * the run of requests where the previous one stopped.
     */
    method CalcZodiacDict(jd: real, planet: int, fr: Frame, z: Zodiac,
                          ghost entry: Flags, ghost entryMode: Option<int>, ghost start: seq<Request>)
        returns (d: Fields)
      requires Valid()
      requires iflag - ModeGroup == entry - ModeGroup
      requires calls == start + RequestsBefore(jd, planet, entry, entryMode, SectionStart(fr, z))
      requires z == Tropical ==> siderealMode == AyanamsaAt(entryMode, SectionStart(fr, z))
      modifies this`iflag, this`siderealMode, this`calls
      ensures Valid()
      ensures d == ZodiacDictOf(engine, jd, planet, entry, fr, z)
      ensures iflag == Compose(entry, Mode(fr, z, Rectangular))
      ensures calls == start + RequestsBefore(jd, planet, entry, entryMode, SectionStart(fr, z) + 3)
      ensures z == Sidereal ==> siderealMode == Some(SidmLahiri)
      ensures z == Tropical ==> siderealMode == old(siderealMode)
    {
      ghost var k := SectionStart(fr, z);
      SectionModes(fr, z);
      SectionAyanamsa(fr, z, entryMode);
      var arg: Sextuple;
      var longitude: real, latitude: real, distance: real;
      var longitudeSpeed: real, latitudeSpeed: real, distanceSpeed: real;
      var rectascension: real, declination: real;
      var rectascensionSpeed: real, declinationSpeed: real;
      var x: real, y: real, z': real, dx: real, dy: real, dz: real;

      arg := CalcBlock(jd, planet, Mode(fr, z, Ecliptical), k, entry, entryMode, start);
      ghost var ecl := arg;
      longitude, latitude, distance, longitudeSpeed, latitudeSpeed, distanceSpeed := arg.arg1, arg.arg2, arg.arg3, arg.arg4, arg.arg5, arg.arg6;

      arg := CalcBlock(jd, planet, Mode(fr, z, Equatorial), k + 1, entry, entryMode, start);
      ghost var equ := arg;
      rectascension, declination, distance, rectascensionSpeed, declinationSpeed, distanceSpeed := arg.arg1, arg.arg2, arg.arg3, arg.arg4, arg.arg5, arg.arg6;

      arg := CalcBlock(jd, planet, Mode(fr, z, Rectangular), k + 2, entry, entryMode, start);
      x, y, z', dx, dy, dz := arg.arg1, arg.arg2, arg.arg3, arg.arg4, arg.arg5, arg.arg6;

      d := CoordinateDict(
        longitude, latitude, distance, longitudeSpeed, latitudeSpeed, distanceSpeed,
        rectascension, declination, rectascensionSpeed, declinationSpeed,
        x, y, z', dx, dy, dz);
      SectionDict(engine, jd, planet, entry, fr, z, ecl, equ, arg);
    }

    /**
     * The two sections of frame `fr` in `getPlanetaryInfo`: tropical, then
     * sidereal.  The source writes the six sections out one after the other;
     * this groups them by frame, the order of the calls being unchanged.
     */
    method CalcFrameDicts(jd: real, planet: int, fr: Frame,
                          ghost entry: Flags, ghost entryMode: Option<int>, ghost start: seq<Request>)
        returns (tropicalDict: Fields, siderealDict: Fields)
      requires Valid()
      requires iflag - ModeGroup == entry - ModeGroup
      requires calls == start + RequestsBefore(jd, planet, entry, entryMode, SectionStart(fr, Tropical))
      requires siderealMode == AyanamsaAt(entryMode, SectionStart(fr, Tropical))
      modifies this`iflag, this`siderealMode, this`calls
      ensures Valid()
      ensures tropicalDict == ZodiacDictOf(engine, jd, planet, entry, fr, Tropical)
      ensures siderealDict == ZodiacDictOf(engine, jd, planet, entry, fr, Sidereal)
      ensures iflag == Compose(entry, Mode(fr, Sidereal, Rectangular))
      ensures calls == start + RequestsBefore(jd, planet, entry, entryMode, SectionStart(fr, Sidereal) + 3)
      ensures siderealMode == Some(SidmLahiri)
    {
      tropicalDict := CalcZodiacDict(jd, planet, fr, Tropical, entry, entryMode, start);
      SectionsAdjacent(fr);
      siderealDict := CalcZodiacDict(jd, planet, fr, Sidereal, entry, entryMode, start);
    }

    /**
     * `getPlanetaryInfo(planet, dt)`.  It returns the record
     * `PlanetaryInfoOf` describes for the word the register held on entry;
     * on success it has sent exactly the 18 requests of `Requests`, in order
     * and each under the ayanamsa `Requests` names for it,
     * and leaves the register at the heliocentric, sidereal, rectangular
     * word; on the ValueError nothing has been changed.
     */
    method GetPlanetaryInfo(planet: int, dt: DateTime) returns (r: Result<PlanetaryInfo, TimeError>)
      requires Valid()
      modifies this`iflag, this`siderealMode, this`calls
      ensures Valid()
      ensures r == PlanetaryInfoOf(engine, planet, dt, old(iflag))
      ensures r.Failure? ==> iflag == old(iflag) && siderealMode == old(siderealMode) && calls == old(calls)
      ensures r.Success? ==>
        && iflag == Compose(old(iflag), Mode(Heliocentric, Sidereal, Rectangular))
        && siderealMode == Some(SidmLahiri)
        && calls == old(calls) + Requests(r.value.julianDay, planet, old(iflag), old(siderealMode))
    {
      var planetName := GetPlanetNameForId(engine.planetName, planet);
      var jd :- DatetimeToJulianDay(dt, engine.toUtc, engine.utcToJd);
      ghost var entry, entryMode, start := iflag, siderealMode, calls;
      assert calls == start + RequestsBefore(jd, planet, entry, entryMode, 0);

      var geocentricTropicalDict, geocentricSiderealDict := CalcFrameDicts(jd, planet, Geocentric, entry, entryMode, start);
      var topocentricTropicalDict, topocentricSiderealDict := CalcFrameDicts(jd, planet, Topocentric, entry, entryMode, start);
      var heliocentricTropicalDict, heliocentricSiderealDict := CalcFrameDicts(jd, planet, Heliocentric, entry, entryMode, start);

      var geocentricDict := map[Tropical := geocentricTropicalDict, Sidereal := geocentricSiderealDict];
      var topocentricDict := map[Tropical := topocentricTropicalDict, Sidereal := topocentricSiderealDict];
      var heliocentricDict := map[Tropical := heliocentricTropicalDict, Sidereal := heliocentricSiderealDict];
      r := Success(PlanetaryInfo(planetName, planet, dt, jd,
        Some(geocentricDict), Some(topocentricDict), Some(heliocentricDict)));
    }
  }
}
