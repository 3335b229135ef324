/** The screen's state and the value it displays. The displayed value picks
    a converter by the source unit; as written, the meters case calls the
    miles converter. Both that dispatch and the corrected one are modelled,
    and the rest of the model builds on the corrected one. */
module ContentView {
  import opened Units
  import opened Converters
  import Reference

  /** The state the form edits: the typed magnitude and the two picked units. */
  datatype Screen = Screen(initialValue: real, initialUnit: Unit, convertedUnit: Unit)

  /** The form as it first appears: 0, from feet, to meters. */
  const DefaultScreen: Screen := Screen(0.0, Feet, Meters)

  /** The displayed value with the dispatch exactly as written: the meters
      case goes to the miles converter. */
  function ConvertedValueAsWritten(s: Screen): (r: Reading)
    ensures r.word == Name(s.convertedUnit)
    ensures s.initialUnit == s.convertedUnit && s.initialUnit != Meters ==> r.magnitude == s.initialValue
  {
    match s.initialUnit
    case Meters => ConvertMiles(s.initialValue, s.convertedUnit)
    case Kilometers => ConvertKilometers(s.initialValue, s.convertedUnit)
    case Feet => ConvertFeet(s.initialValue, s.convertedUnit)
    case Yards => ConvertYards(s.initialValue, s.convertedUnit)
    case Miles => ConvertMiles(s.initialValue, s.convertedUnit)
  }

  /** The displayed value with each source unit sent to its own converter. */
  function ConvertedValue(s: Screen): (r: Reading)
    ensures r.word == Name(s.convertedUnit)
    ensures s.initialUnit == s.convertedUnit ==> r.magnitude == s.initialValue
  {
    match s.initialUnit
    case Meters => ConvertMeters(s.initialValue, s.convertedUnit)
    case Kilometers => ConvertKilometers(s.initialValue, s.convertedUnit)
    case Feet => ConvertFeet(s.initialValue, s.convertedUnit)
    case Yards => ConvertYards(s.initialValue, s.convertedUnit)
    case Miles => ConvertMiles(s.initialValue, s.convertedUnit)
  }

  /** Every displayed value agrees with the exact table, exactly on the
      pairs with an exact typed factor. */
  lemma ConvertedValueFaithful(s: Screen)
    ensures Faithful(ConvertedValue(s), s.initialValue, s.initialUnit, s.convertedUnit)
  {
    // The per-source calls only keep the solver fast; each converter's
    // lemma states the same fact for its own source unit.
    var v, to := s.initialValue, s.convertedUnit;
    match s.initialUnit
    case Meters => ConvertMetersFaithful(v, to);
    case Kilometers => ConvertKilometersFaithful(v, to);
    case Feet => ConvertFeetFaithful(v, to);
    case Yards => ConvertYardsFaithful(v, to);
    case Miles => ConvertMilesFaithful(v, to);
  }

  /** The written dispatch differs from the corrected one only on a meters
      source: the other four sources reach the converter of their own name. */
  lemma AsWrittenDiffersOnlyOnMeters(s: Screen)
    ensures s.initialUnit != Meters ==> ConvertedValueAsWritten(s) == ConvertedValue(s)
    ensures s.initialUnit == Meters ==>
      ConvertedValueAsWritten(s) == ConvertMiles(s.initialValue, s.convertedUnit)
  {
  }

  /** Converting a unit to itself shows the typed value unchanged exactly
      when the source is not meters or the value is zero: a meters-to-meters
      conversion of `v` shows 1609.344 * `v` meters. */
  lemma AsWrittenIdentityIff(v: real, u: Unit)
    ensures ConvertedValueAsWritten(Screen(v, u, u)).magnitude == v <==> (u != Meters || v == 0.0)
    ensures ConvertedValueAsWritten(Screen(v, Meters, Meters)) == Reading(v * 1609.344, "meters")
  {
  }

  /** A concrete witness: one meter converted to meters reads 1609.344 meters,
      while the corrected dispatch reads 1 meter. */
  lemma OneMeterToMeters()
    ensures ConvertedValueAsWritten(Screen(1.0, Meters, Meters)) == Reading(1609.344, "meters")
    ensures ConvertedValue(Screen(1.0, Meters, Meters)) == Reading(1.0, "meters")
  {
  }

  /** The form first shows 0 meters, under either dispatch. */
  lemma DefaultScreenShowsZeroMeters()
    ensures ConvertedValueAsWritten(DefaultScreen) == Reading(0.0, "meters")
    ensures ConvertedValue(DefaultScreen) == Reading(0.0, "meters")
  {
  }
}
