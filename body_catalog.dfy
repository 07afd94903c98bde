/**
 * Planet names (`getPlanetNameForId`): the Swiss Ephemeris name of a body,
 * with six lunar node/apogee/perigee names replaced by longer ones.
 */
module BodyCatalog {

  /** `swe.get_planet_name`, a native lookup whose table is not modelled. */
  type NativeName = int -> string

  /** The six names the source renames, each to its long form. */
  const LongNames: map<string, string> := map[
    "mean Node" := "Mean North Node",
    "true Node" := "True North Node",
    "mean Apogee" := "Mean Lunar Apogee",
    "osc. Apogee" := "Osculating Lunar Apogee",
    "intp. Apogee" := "Interpolated Lunar Apogee",
    "intp. Perigee" := "Interpolated Lunar Perigee"]

  /** The if/elif cleanup of a native name. */
  function CleanUpName(planetName: string): (r: string)
    ensures planetName in LongNames ==> r == LongNames[planetName]
    ensures planetName !in LongNames ==> r == planetName
  {
    if planetName == "mean Node" then "Mean North Node"
    else if planetName == "true Node" then "True North Node"
    else if planetName == "mean Apogee" then "Mean Lunar Apogee"
    else if planetName == "osc. Apogee" then "Osculating Lunar Apogee"
    else if planetName == "intp. Apogee" then "Interpolated Lunar Apogee"
    else if planetName == "intp. Perigee" then "Interpolated Lunar Perigee"
    else planetName
  }

  function GetPlanetNameForId(nativeName: NativeName, planetId: int): (r: string)
    ensures nativeName(planetId) in LongNames ==> r == LongNames[nativeName(planetId)]
    ensures nativeName(planetId) !in LongNames ==> r == nativeName(planetId)
  {
    CleanUpName(nativeName(planetId))
  }

  /** No long name is itself one of the renamed names. */
  lemma LongNamesAreNotRenamed()
    ensures forall n :: n in LongNames.Values ==> n !in LongNames
  {
  }

  /** Cleaning up a cleaned-up name changes nothing. */
  lemma CleanUpIdempotent(planetName: string)
    ensures CleanUpName(CleanUpName(planetName)) == CleanUpName(planetName)
  {
  }
}
