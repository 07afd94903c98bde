# Ephemeris core of the price-charting tool, in Dafny

This project models `src/ephemeris.py`, the layer between the price-charting
tool and the Swiss Ephemeris. It covers three parts.

- **The calculation-flag register.** `Ephemeris.iflag` is the one flag word
  shared by every client. The static setters change it: the reference frame
  (geo-, topo-, heliocentric), the zodiac (tropical, sidereal), the
  coordinate representation (ecliptical, equatorial, rectangular, radians),
  and true or apparent positions. `initialize` resets it. The word is modelled
  as the set of flags that are on (`SweFlags.Flags`). Every setter is a pure
  function whose contract says which flags of its group are on afterwards and
  that no flag outside the group changes. The class `Ephemeris.Ephemeris`
  holds the register as a field. Its setter methods are proved to leave
  exactly that function of the old word.
- **`getPlanetaryInfo`.** It runs 18 blocks, one per frame × zodiac ×
  representation combination. Each block runs three setters and then one
  call to `calc_ut`. The six results of each call are unpacked into sixteen
  locals and gathered into nested dicts, and the record is a `PlanetaryInfo`.
  `Planetary.PlanetaryInfoOf` defines that record from scratch.
  `Planetary.Requests` defines the exact list of requests, in order. The
  imperative `Ephemeris.Ephemeris.GetPlanetaryInfo` is proved to return that
  record and to send exactly those requests. It is also proved to leave the
  register at the heliocentric, sidereal, rectangular word.
- **Helpers.** These are the renaming table of `getPlanetNameForId`, the
  tzinfo check and field selection of `datetimeToJulianDay`, and the split of
  a real second into whole seconds and microseconds in `julianDayToDatetime`,
  including the error path when the microseconds round up to 1000000.

The native library is a set of function-valued parameters, gathered in
`Planetary.Engine` and the `TimeCodec` function types. It provides
`calc_ut`, `get_planet_name`, `utc_to_jd` and `jdut1_to_utc`, and pytz's
`astimezone`/`normalize`. It is never interpreted. Two ghost fields of the
class record what the native library is told:
- `siderealMode` holds the ayanamsa given to `set_sid_mode`;
- `calls` holds every `calc_ut` request.

The class invariant `Valid` says that SIDEREAL is only ever on together with
the Lahiri ayanamsa. Every method preserves it. `CalcUt` relies on it: called
with the register, a sidereal request is logged under Lahiri. Within
`getPlanetaryInfo` the same fact is proved from the call order, by
`AyanamsaAt` and `RequestFlags`.

The source writes the 18 blocks out one after another. The model keeps that
order:
- `CalcUtFor` is one block, and `CalcBlock` is that block seen as the k-th
  of the run of requests;
- `CalcZodiacDict` is one section, that is three blocks, the sixteen locals
  and one dict literal;
- `CalcFrameDicts` is the two sections of one frame;
- `GetPlanetaryInfo` runs the three frames and then builds the three frame
  dicts and the record, as the source does.

Modules: `Wrappers` holds Option and Result. `SweFlags` holds the flag word
and the setters. `TimeCodec` holds the datetime/Julian Day conversions.
`BodyCatalog` holds planet names. `Planetary` holds the record and its
reference definition. `Ephemeris` holds the class.

The datatype `Planetary.PlanetaryInfo` models the class `PlanetaryInfo` and
its constructor (src/ephemeris.py:162-187): the seven attributes, set once and
never updated. The three frame dicts are optional because the constructor's
default for each is None.

Two points are left as the code has them:
- The innermost dict has 16 distinct keys. The class docstring
  (src/ephemeris.py:45-62) lists 18 lines per sub-dict, with `distance` and
  `distance_speed` each appearing twice. The dict literal lists them twice
  as well, but a Python dict keeps one entry per key, and both times the
  value is the local the equatorial call last assigned.
- `getPlanetNameForId` does no check of the id. It returns whatever
  `get_planet_name` returns (line 426), after the renaming table.

## Model

| member | source | states |
|---|---|---|
| SweFlags.WithSidereal | src/ephemeris.py:447-466 | SIDEREAL is on afterwards; no other flag changes |
| SweFlags.WithTropical | src/ephemeris.py:468-482 | SIDEREAL is off afterwards; no other flag changes |
| SweFlags.WithTruePositions | src/ephemeris.py:484-495 | TRUEPOS is on afterwards; no other flag changes |
| SweFlags.WithApparentPositions | src/ephemeris.py:497-507 | TRUEPOS is off afterwards; no other flag changes |
| SweFlags.CoordinatesCleared | src/ephemeris.py:511-521 | EQUATORIAL, XYZ and RADIANS are all off; no flag outside those three changes |
| SweFlags.WithEquatorial | src/ephemeris.py:546-563 | of EQUATORIAL, XYZ and RADIANS exactly EQUATORIAL is on (RADIANS is silently cleared); nothing else changes |
| SweFlags.WithRectangular | src/ephemeris.py:566-582 | of the three coordinate flags exactly XYZ is on; nothing else changes |
| SweFlags.WithRadians | src/ephemeris.py:585-590 | of the three coordinate flags exactly RADIANS is on; nothing else changes |
| SweFlags.WithoutRadians | src/ephemeris.py:593-600 | RADIANS is off; no other flag changes |
| SweFlags.AsHeliocentric | src/ephemeris.py:603-608 | of HELCTR and TOPOCTR exactly HELCTR is on; no other flag changes |
| SweFlags.AsGeocentric | src/ephemeris.py:611-616 | HELCTR and TOPOCTR are both off; no other flag changes |
| SweFlags.AsTopocentric | src/ephemeris.py:619-624 | of HELCTR and TOPOCTR exactly TOPOCTR is on; no other flag changes |
| SweFlags.ModeFlags | src/ephemeris.py:783-788 | the mode-group flags of a combination: never RADIANS; HELCTR, TOPOCTR, SIDEREAL, EQUATORIAL, XYZ each on exactly for its frame, zodiac or representation |
| SweFlags.Compose | src/ephemeris.py:783-788 | the word a block sends: the entry word outside the mode group, and exactly the combination's flags inside it |
| SweFlags.TogglesIdempotent | src/ephemeris.py:447-507 | applying the sidereal, tropical, true or apparent setter twice is the same as applying it once |
| SweFlags.FramesExclusive | src/ephemeris.py:603-624 | after any frame setter HELCTR and TOPOCTR are never both on, with the on/off pattern of each frame |
| SweFlags.SetFrame | src/ephemeris.py:784 | the frame setter of a block: of HELCTR and TOPOCTR exactly the frame's flags are on; no other flag changes |
| SweFlags.SetZodiac | src/ephemeris.py:785 | the zodiac setter of a block: SIDEREAL is on exactly for the sidereal zodiac; no other flag changes |
| SweFlags.SetRepresentation | src/ephemeris.py:786 | the coordinate setter of a block: of EQUATORIAL, XYZ and RADIANS exactly the representation's flags are on; no other flag changes |
| SweFlags.ApplyMode | src/ephemeris.py:784-786 | the frame, zodiac and coordinate setters of a block, from any word, give exactly the `Compose` word: nothing of an earlier block is left behind |
| SweFlags.ComposeForgetsPrevious | src/ephemeris.py:783-1110 | composing a combination over the word of another combination forgets the other |
| TimeCodec.DaysInMonth | src/ephemeris.py:404-405 | the day bound the datetime constructor checks: 28 to 31; 29 exactly in February of a Gregorian leap year, 28 in any other February, 30 exactly in April, June, September and November |
| TimeCodec.ValidCivil | src/ephemeris.py:404-405 | the fields the datetime constructor accepts: month 1 to 12, day 1 to 31, the 29th of February only in a leap year, the 31st only in a 31-day month |
| TimeCodec.NewDateTime | src/ephemeris.py:404-405 | the datetime constructor succeeds exactly when every field is in range, and keeps the fields; an out-of-range microsecond is reported as such |
| TimeCodec.DatetimeToJulianDay | src/ephemeris.py:325-369 | fails with the tzinfo ValueError exactly when `tzinfo` is None; otherwise the UT day number of the UTC fields year..second |
| TimeCodec.JulianDayIgnoresMicroseconds | src/ephemeris.py:355-361 | two datetimes that differ only in microseconds give the same day number |
| TimeCodec.TruncateTowardZero | src/ephemeris.py:396 | `int(x)`: the integer between 0 and x that is less than one away from x |
| TimeCodec.RoundHalfEven | src/ephemeris.py:397 | `round(x)`: within one half of x, and even on a tie |
| TimeCodec.SplitSeconds | src/ephemeris.py:396-397 | whole seconds are `int(secs)`; whole seconds plus microseconds lie within 0.5 µs of secs; microseconds are in [0, 1000000] for secs ≥ 0 and reach 1000000 exactly when the fraction is at least 0.9999995 |
| TimeCodec.ReadingToCivil | src/ephemeris.py:396-405 | the UTC civil time built from a reading: year to minute as read, and the whole second within one second of the reading's second, toward zero |
| TimeCodec.JulianDayToDatetime | src/ephemeris.py:373-413 | succeeds exactly when the UTC reading gives valid datetime fields; then the time is the zone conversion of those fields, the microseconds are those of the split, and tzinfo is the requested zone, UTC by default |
| TimeCodec.MicrosecondRoundUpFails | src/ephemeris.py:396-405 | a fraction of a second of at least 0.9999995 rounds to 1000000 microseconds and the conversion fails |
| TimeCodec.ConversionPrecision | src/ephemeris.py:387-405 | after a successful conversion the reading's second lay in [-0.0000005, 59.9999995), and the UTC seconds and microseconds are within 0.5 µs of it |
| TimeCodec.DatetimeRoundTrip | src/ephemeris.py:325-413 | datetime to day number and back: the same datetime in its own zone, with its microseconds dropped, whenever the timezone conversions are inverse on it and `jdut1_to_utc` reads back the UTC fields `utc_to_jd` was given |
| TimeCodec.JulianDayRoundTrip | src/ephemeris.py:325-413 | day number to datetime and back: the day number of the reading with its second truncated, whenever the conversion succeeds and the timezone conversions are inverse on its UTC time |
| BodyCatalog.CleanUpName | src/ephemeris.py:428-441 | the six short names map to their long names; every other name is returned unchanged |
| BodyCatalog.GetPlanetNameForId | src/ephemeris.py:417-443 | the native name of the id with the long-name table applied, and unchanged when it is not in the table |
| BodyCatalog.LongNamesAreNotRenamed | src/ephemeris.py:428-441 | no long name is itself a name that gets renamed |
| BodyCatalog.CleanUpIdempotent | src/ephemeris.py:428-441 | renaming twice is renaming once |
| Planetary.ModeAt | src/ephemeris.py:783-1110 | the combination of the k-th block: the frame changes every six calls, the zodiac every three, the representation every call |
| Planetary.ModeIndex | src/ephemeris.py:783-1110 | every combination has a position below 18 whose block makes exactly that combination |
| Planetary.ModesInSourceOrder | src/ephemeris.py:783-1110 | the 18 blocks, one by one, in source order: geocentric, topocentric, heliocentric; within each tropical, sidereal; within each ecliptical, equatorial, rectangular |
| Planetary.ModesVisitEachOnce | src/ephemeris.py:783-1110 | every combination is made by exactly one block |
| Planetary.AyanamsaAt | src/ephemeris.py:447-466 | the ayanamsa in force at the k-th call: the one on entry for the first three calls, and Lahiri from the first sidereal call on, since `set_sid_mode` (line 464) selects only Lahiri |
| Planetary.RequestAt | src/ephemeris.py:783-1110 | the k-th call's request: the day and body given, the entry word outside the mode group and exactly the k-th combination's flags inside it, and Lahiri whenever SIDEREAL is on |
| Planetary.RequestsBefore | src/ephemeris.py:783-1110 | the first n requests of the run, n in number, each one appended by its own block |
| Planetary.Requests | src/ephemeris.py:783-1110 | the whole run: one request per block, 18 in all |
| Planetary.SectionModes | src/ephemeris.py:783-840 | a section's ecliptical, equatorial and rectangular blocks are consecutive, starting at the section's position, and a sidereal section comes after the first three calls |
| Planetary.SectionAyanamsa | src/ephemeris.py:783-840 | the three calls of a section run under one ayanamsa, Lahiri's in a sidereal section |
| Planetary.SectionsAdjacent | src/ephemeris.py:783-899 | the sidereal section of a frame starts where its tropical section ends |
| Planetary.RequestsBeforeStep | src/ephemeris.py:783-794 | a block extends the run of the first n requests by the n-th one |
| Planetary.RequestsBeforeInOrder | src/ephemeris.py:783-1110 | the k-th of the first n requests carries the `Compose` word of the k-th combination and the ayanamsa then in force |
| Planetary.RequestsInOrder | src/ephemeris.py:783-1110 | the k-th of the 18 requests carries the `Compose` word of the k-th combination and the ayanamsa then in force |
| Planetary.RequestFlags | src/ephemeris.py:783-1110 | the k-th call keeps the entry word outside the mode group, never has RADIANS on, and has HELCTR, TOPOCTR, SIDEREAL, EQUATORIAL, XYZ on exactly as its frame, zodiac and representation demand; a sidereal call is made under the Lahiri ayanamsa, and the first three calls under the ayanamsa in force on entry |
| Planetary.FinalFlags | src/ephemeris.py:1105-1110 | on return the register has HELCTR, SIDEREAL and XYZ on and TOPOCTR, EQUATORIAL and RADIANS off, the rest as on entry |
| Planetary.FieldKeysCount | src/ephemeris.py:822-840 | the sub-dict has 16 distinct keys |
| Planetary.CoordinateDict | src/ephemeris.py:822-840 | the dict literal of a section: exactly the 16 keys, each holding its own local, the repeated `distance` and `distance_speed` keeping one entry each |
| Planetary.SubDict | src/ephemeris.py:783-840 | longitude, latitude and their speeds come from slots 1, 2, 4, 5 of the ecliptical call; rectascension, declination and their speeds from the equatorial call; distance and distance_speed from slots 3 and 6 of the equatorial call; X..dZ from the rectangular call; the keys are exactly the 16 |
| Planetary.EclipticalDistanceDiscarded | src/ephemeris.py:790-806 | the ecliptical call's distance and distance speed have no effect on the sub-dict |
| Planetary.PlanetaryInfoOf | src/ephemeris.py:776-1163 | the ValueError exactly when `tzinfo` is None; otherwise name from `getPlanetNameForId`, id the planet, dt unchanged, julianDay from `datetimeToJulianDay`, all three frame attributes present |
| Planetary.ZodiacDictOf | src/ephemeris.py:783-840 | one sub-dict: the 16 keys, each entry taken from the `calc_ut` call made with the `Compose` word of its frame, zodiac and the representation the key belongs to |
| Planetary.SectionDict | src/ephemeris.py:783-840 | the sixteen locals of a section, gathered as the source gathers them, give `ZodiacDictOf` of that section |
| Planetary.ZodiacPair | src/ephemeris.py:1139-1149 | a frame dict literal: exactly the keys 'tropical' and 'sidereal', each holding the dict given for it |
| Planetary.FrameDictOf | src/ephemeris.py:1139-1148 | a frame dict has exactly the keys 'tropical' and 'sidereal', each holding `ZodiacDictOf` of that frame and zodiac |
| Planetary.RecordFrames | src/ephemeris.py:1139-1158 | each frame attribute of the record holds the frame dict of that frame |
| Planetary.RecordIsComplete | src/ephemeris.py:776-1163 | every one of the six sub-dicts of the record is present, is `ZodiacDictOf` of its own frame and zodiac, and has the 16 keys |
| Ephemeris.Ephemeris.constructor | src/ephemeris.py:258 | the register starts at 0 (no flag on); nothing has been sent to the native library |
| Ephemeris.Ephemeris.Initialize | src/ephemeris.py:261-285 | whatever the old word, the register is exactly SWIEPH, SPEED, TRUEPOS |
| Ephemeris.Ephemeris.SetSiderealZodiac | src/ephemeris.py:447-466 | the register is `WithSidereal` of the old word and the Lahiri ayanamsa is selected |
| Ephemeris.Ephemeris.SetTropicalZodiac | src/ephemeris.py:468-482 | the register is `WithTropical` of the old word |
| Ephemeris.Ephemeris.SetTruePlanetaryPositions | src/ephemeris.py:484-495 | the register is `WithTruePositions` of the old word |
| Ephemeris.Ephemeris.SetApparentPlanetaryPositions | src/ephemeris.py:497-507 | the register is `WithApparentPositions` of the old word |
| Ephemeris.Ephemeris.ClearCoordinateSystemFlags | src/ephemeris.py:511-521 | the register is `CoordinatesCleared` of the old word |
| Ephemeris.Ephemeris.SetEclipticalCoordinateSystemFlag | src/ephemeris.py:524-543 | the register is `CoordinatesCleared` of the old word |
| Ephemeris.Ephemeris.SetEquatorialCoordinateSystemFlag | src/ephemeris.py:546-563 | the register is `WithEquatorial` of the old word |
| Ephemeris.Ephemeris.SetRectangularCoordinateSystemFlag | src/ephemeris.py:566-582 | the register is `WithRectangular` of the old word |
| Ephemeris.Ephemeris.SetRadiansCoordinateSystemFlag | src/ephemeris.py:585-590 | the register is `WithRadians` of the old word |
| Ephemeris.Ephemeris.UnsetRadiansCoordinateSystemFlag | src/ephemeris.py:593-600 | the register is `WithoutRadians` of the old word |
| Ephemeris.Ephemeris.SetHeliocentricCalculations | src/ephemeris.py:603-608 | the register is `AsHeliocentric` of the old word |
| Ephemeris.Ephemeris.SetGeocentricCalculations | src/ephemeris.py:611-616 | the register is `AsGeocentric` of the old word |
| Ephemeris.Ephemeris.SetTopocentricCalculations | src/ephemeris.py:619-624 | the register is `AsTopocentric` of the old word |
| Ephemeris.Ephemeris.CalcUt | src/ephemeris.py:627-656 | returns the native result for exactly the given day, body and flag word (default SWIEPH+SPEED), and that one request is sent, under the ayanamsa then in force; with the register as the word, a sidereal request is under Lahiri |
| Ephemeris.Ephemeris.ApplyFrame | src/ephemeris.py:784 | the register is `SetFrame` of the old word |
| Ephemeris.Ephemeris.ApplyZodiac | src/ephemeris.py:785 | the register is `SetZodiac` of the old word; the sidereal setter selects Lahiri, the tropical one leaves the ayanamsa alone |
| Ephemeris.Ephemeris.ApplyRepresentation | src/ephemeris.py:786 | the register is `SetRepresentation` of the old word |
| Ephemeris.Ephemeris.CalcUtFor | src/ephemeris.py:783-794 | one block: the register becomes the `Compose` word of the combination whatever earlier blocks left, the call is made with it under the ayanamsa the zodiac setter left, and its result is returned |
| Ephemeris.Ephemeris.CalcBlock | src/ephemeris.py:783-794 | the k-th block extends the run of the first k `Requests` by the k-th one |
| Ephemeris.Ephemeris.CalcZodiacDict | src/ephemeris.py:783-840 | one section returns the sub-dict `ZodiacDictOf` defines, and the run of requests grows by that section's three requests |
| Ephemeris.Ephemeris.CalcFrameDicts | src/ephemeris.py:783-899 | the tropical and sidereal sections of one frame, in that order, with their sub-dicts |
| Ephemeris.Ephemeris.GetPlanetaryInfo | src/ephemeris.py:757-1163 | returns exactly `PlanetaryInfoOf` for the entry word; on success it has sent exactly the 18 `Requests` in order, each under the ayanamsa then in force, the register ends at the heliocentric, sidereal, rectangular word and Lahiri is selected; on the ValueError nothing has changed |

## Left out

- The Swiss Ephemeris itself is not modelled. That covers `calc_ut`, `utc_to_jd`, `jdut1_to_utc`, `get_planet_name`, `set_sid_mode`, `set_ephe_path`, `set_topo` and `close`. They are foreign calls: the model passes them in as functions and treats them as total. Errors they raise are not modelled.
- `Ephemeris.Ephemeris.Initialize`: does not model the `set_ephe_path` call (line 270), which is a foreign call with no effect on the register.
- `closeEphemeris` (lines 288-299) is not modelled: it only calls `swe.close`.
- `setGeographicPosition` (lines 302-321) is not modelled: it only forwards to `set_topo`. As written it passes the latitude twice, as longitude and as latitude (line 319). That looks unintended, but the effect lies inside the foreign library.
- pytz's `astimezone`/`normalize` are not modelled. They are timezone-database behaviour and appear as uninterpreted functions on whole-second civil time. Their offsets are whole minutes, so the microsecond field passes through unchanged.
- Logging is left out: `Ephemeris.log`, `__logDebugCalcUTInfo` (lines 659-755) and the debug lines. `Ephemeris.Ephemeris.CalcUt` and `Ephemeris.Ephemeris.GetPlanetaryInfo` model a logger set below DEBUG. At DEBUG level `calc_ut` also calls `__logDebugCalcUTInfo` (line 648). That helper evaluates `julianDayToDatetime(jd)` (line 676) and `getPlanetNameForId(planet)` (line 679) as format arguments. So every `calc_ut`, and with it `getPlanetaryInfo`, can then raise the microsecond ValueError that `TimeCodec.MicrosecondRoundUpFails` describes. The model does not capture that failure path.
- `Planetary.Engine`: the native `calc_ut` result is modelled as a function of the day, body and flag word only. In the native library it also depends on the ayanamsa last given to `set_sid_mode` and on the observer position last given to `set_topo`. Inside `getPlanetaryInfo` the ayanamsa makes no difference: `Planetary.RequestFlags` shows that every sidereal call runs under Lahiri. A direct `CalcUt` with SIDEREAL on before any `SetSiderealZodiac` does not have that guarantee. There the model gives the same value as under Lahiri, and the native library need not. The ayanamsa is recorded in the request log, not in the result.
- `PlanetaryInfo.toString` and `__str__` (lines 190-212) are left out: they are strftime formatting only.
- The 18 one-line `get…PlanetaryInfo` wrappers (lines 1168-1454) are left out. Each forwards a constant body id to `getPlanetaryInfo`.
- The `__main__` demonstration block of src/ephemeris.py is left out.
- src/main.py is left out. It is application start-up and option parsing.
- misc/PriceChartDocumentScripts/customScripts/newAndFullMoons.py is not part of this model. It is a charting script built on the GUI layer.
- Floating-point arithmetic is not modelled: day numbers, seconds and coordinates are reals. Where Python's `int()` and `round()` matter, they are written out on reals, as truncation toward zero and round-half-even.
- `setTropicalZodiac` has no `@staticmethod` decorator in the source. Called on the class, as every caller does, it behaves like the others, so the model treats it the same.
- The flag constants are modelled as distinct members of a set, not as their numeric bit values. The source only ever combines them with `|=`, `&= ~` and `+` of distinct bits, so their values do not matter.
