/** The five per-source converters. Each multiplies the magnitude by a
    hand-typed factor chosen by the target unit and labels the product with
    the target's full name; converting to the source's own unit returns the
    magnitude untouched. The displayed string is modelled as its two parts. */
module Converters {
  import opened Units
  import Reference

  /** A converted measurement: the number and the unit word after it. */
  datatype Reading = Reading(magnitude: real, word: string)

  /** Worst relative error of any typed factor against the exact table
      (feet to miles: 0.0001893939 against 1/5280). */
  const LiteralTolerance: real := 0.00000021

  /** The (source, target) pairs whose typed factor is exact: the identity,
      the metric pair, every imperial factor into a metric unit, yards into
      feet, and everything out of miles. */
  predicate ExactLiteral(from: Unit, to: Unit) {
    || from == to
    || from == Miles
    || (from in {Feet, Yards} && to in {Meters, Kilometers})
    || (from, to) in {(Meters, Kilometers), (Kilometers, Meters), (Yards, Feet)}
  }

  /** A reading of `v` in `from` agrees with the exact table: exactly where
      the typed factor is exact, and within `LiteralTolerance` everywhere. */
  predicate Faithful(r: Reading, v: real, from: Unit, to: Unit) {
    && (ExactLiteral(from, to) ==> r.magnitude == Reference.Convert(v, from, to))
    && Reference.Near(r.magnitude, Reference.Convert(v, from, to), LiteralTolerance)
  }

  function ConvertMeters(meters: real, to: Unit): (r: Reading)
    ensures r.word == Name(to)
    ensures to == Meters ==> r.magnitude == meters
  {
    match to
    case Meters => Reading(meters, "meters")
    case Kilometers => Reading(meters * 0.001, "kilometers")
    case Feet => Reading(meters * 3.280839895, "feet")
    case Yards => Reading(meters * 1.0936132983, "yards")
    case Miles => Reading(meters * 0.0006213712, "miles")
  }

  function ConvertKilometers(kilometers: real, to: Unit): (r: Reading)
    ensures r.word == Name(to)
    ensures to == Kilometers ==> r.magnitude == kilometers
  {
    match to
    case Meters => Reading(kilometers * 1000.0, "meters")
    case Kilometers => Reading(kilometers, "kilometers")
    case Feet => Reading(kilometers * 3280.839895, "feet")
    case Yards => Reading(kilometers * 1093.6132983, "yards")
    case Miles => Reading(kilometers * 0.6213711922, "miles")
  }

  function ConvertFeet(feet: real, to: Unit): (r: Reading)
    ensures r.word == Name(to)
    ensures to == Feet ==> r.magnitude == feet
  {
    match to
    case Meters => Reading(feet * 0.3048, "meters")
    case Kilometers => Reading(feet * 0.0003048, "kilometers")
    case Feet => Reading(feet, "feet")
    case Yards => Reading(feet * 0.3333333333, "yards")
    case Miles => Reading(feet * 0.0001893939, "miles")
  }

  function ConvertYards(yards: real, to: Unit): (r: Reading)
    ensures r.word == Name(to)
    ensures to == Yards ==> r.magnitude == yards
  {
    match to
    case Meters => Reading(yards * 0.9144, "meters")
    case Kilometers => Reading(yards * 0.0009144, "kilometers")
    case Feet => Reading(yards * 3.0, "feet")
    case Yards => Reading(yards, "yards")
    case Miles => Reading(yards * 0.0005681818, "miles")
  }

  function ConvertMiles(miles: real, to: Unit): (r: Reading)
    ensures r.word == Name(to)
    ensures to == Miles ==> r.magnitude == miles
  {
    match to
    case Meters => Reading(miles * 1609.344, "meters")
    case Kilometers => Reading(miles * 1.609344, "kilometers")
    case Feet => Reading(miles * 5280.0, "feet")
    case Yards => Reading(miles * 1760.0, "yards")
    case Miles => Reading(miles, "miles")
  }

  lemma ConvertMetersFaithful(v: real, to: Unit)
    ensures Faithful(ConvertMeters(v, to), v, Meters, to)
  {
  }

  lemma ConvertKilometersFaithful(v: real, to: Unit)
    ensures Faithful(ConvertKilometers(v, to), v, Kilometers, to)
  {
  }

  lemma ConvertFeetFaithful(v: real, to: Unit)
    ensures Faithful(ConvertFeet(v, to), v, Feet, to)
  {
  }

  lemma ConvertYardsFaithful(v: real, to: Unit)
    ensures Faithful(ConvertYards(v, to), v, Yards, to)
  {
  }

  lemma ConvertMilesFaithful(v: real, to: Unit)
    ensures Faithful(ConvertMiles(v, to), v, Miles, to)
  {
  }
}
