/** What the typed factor table, read through the corrected dispatch, does
    and does not guarantee: linearity, which factors are exact, how far round
    trips and detours through a third unit drift, and which chains of factors
    agree exactly. */
module Consistency {
  import opened Units
  import opened Converters
  import opened ContentView
  import opened Reference

  /** Worst drift of a there-and-back conversion (feet and miles). */
  const RoundTripTolerance: real := 0.00000021

  /** Worst drift of a detour through a third unit against the direct factor. */
  const CompositionTolerance: real := 0.00000023

  /** The typed factor from `from` to `to`: what one `from` is shown as. */
  function SourceFactor(from: Unit, to: Unit): real {
    ConvertedValue(Screen(1.0, from, to)).magnitude
  }

  /** The magnitude the screen shows for `v` in `from` converted to `to`. */
  function Shown(v: real, from: Unit, to: Unit): real {
    ConvertedValue(Screen(v, from, to)).magnitude
  }

  /** Every conversion is a multiplication by a positive constant. */
  lemma Linear(v: real, from: Unit, to: Unit)
    ensures Shown(v, from, to) == v * SourceFactor(from, to)
    ensures SourceFactor(from, to) > 0.0
  {
  }

  /** Scaling the input scales the output; zero shows zero; the sign is kept,
      so negative magnitudes convert without clamping. */
  lemma Scale(k: real, v: real, from: Unit, to: Unit)
    ensures Shown(k * v, from, to) == k * Shown(v, from, to)
    ensures Shown(0.0, from, to) == 0.0
    ensures Shown(-v, from, to) == -Shown(v, from, to)
    ensures v < 0.0 <==> Shown(v, from, to) < 0.0
    ensures v > 0.0 <==> Shown(v, from, to) > 0.0
  {
    // The split by unit pair only keeps the solver fast: in each arm the
    // factor is a literal, so the arithmetic is linear.
    match from {
      case Meters => match to { case Meters => case Kilometers => case Feet => case Yards => case Miles => }
      case Kilometers => match to { case Meters => case Kilometers => case Feet => case Yards => case Miles => }
      case Feet => match to { case Meters => case Kilometers => case Feet => case Yards => case Miles => }
      case Yards => match to { case Meters => case Kilometers => case Feet => case Yards => case Miles => }
      case Miles => match to { case Meters => case Kilometers => case Feet => case Yards => case Miles => }
    }
  }

  /** A typed factor equals the exact one precisely on the pairs
      `ExactLiteral` lists. */
  lemma ExactLiteralIff(from: Unit, to: Unit)
    ensures SourceFactor(from, to) == ExactFactor(from, to) <==> ExactLiteral(from, to)
  {
  }

  /** Exact factors compose exactly: whenever both legs of a chain are exact,
      so is the direct factor, and the product of the legs equals it. */
  lemma ExactChain(a: Unit, b: Unit, c: Unit)
    requires ExactLiteral(a, b) && ExactLiteral(b, c)
    ensures ExactLiteral(a, c)
    ensures SourceFactor(a, b) * SourceFactor(b, c) == SourceFactor(a, c)
  {
    ExactLiteralIff(a, b);
    ExactLiteralIff(b, c);
    ExactLiteralIff(a, c);
    ExactFactorComposes(a, b, c);
  }

  /** The imperial factors are mutually consistent in exact arithmetic:
      3 * 0.3048 = 0.9144 and 5280 * 0.3048 = 1760 * 0.9144 = 1609.344; the
      metric pair are reciprocals, and feet to kilometres is feet to metres
      times 0.001. */
  lemma TypedChainsAgree()
    ensures SourceFactor(Yards, Feet) * SourceFactor(Feet, Meters) == SourceFactor(Yards, Meters)
    ensures SourceFactor(Miles, Feet) * SourceFactor(Feet, Meters) == SourceFactor(Miles, Meters)
    ensures SourceFactor(Miles, Yards) * SourceFactor(Yards, Meters) == SourceFactor(Miles, Meters)
    ensures SourceFactor(Meters, Kilometers) * SourceFactor(Kilometers, Meters) == 1.0
    ensures SourceFactor(Feet, Meters) * SourceFactor(Meters, Kilometers) == SourceFactor(Feet, Kilometers)
  {
    ExactChain(Yards, Feet, Meters);
    ExactChain(Miles, Feet, Meters);
    ExactChain(Miles, Yards, Meters);
    ExactChain(Meters, Kilometers, Meters);
    ExactChain(Feet, Meters, Kilometers);
  }

  /** Multiplying both sides of a relative bound by the same value keeps it. */
  lemma NearScales(v: real, x: real, y: real, tol: real)
    requires tol >= 0.0 && Near(x, y, tol)
    ensures Near(v * x, v * y, tol)
  {
    assert v * x - v * y == v * (x - y);
    if v < 0.0 {
      assert Abs(v * (x - y)) == -v * Abs(x - y);
      assert Abs(v * y) == -v * Abs(y);
    } else {
      assert Abs(v * (x - y)) == v * Abs(x - y);
      assert Abs(v * y) == v * Abs(y);
    }
  }

  /** Round trip at the level of factors. */
  lemma FactorRoundTrip(a: Unit, b: Unit)
    ensures Near(SourceFactor(a, b) * SourceFactor(b, a), 1.0, RoundTripTolerance)
  {
  }

  /** Converting there and back returns the input within
      `RoundTripTolerance` of it, for every pair of units and every value. */
  lemma RoundTripBound(v: real, a: Unit, b: Unit)
    ensures Near(Shown(Shown(v, a, b), b, a), v, RoundTripTolerance)
  {
    var w := Shown(v, a, b);
    Linear(v, a, b);
    Linear(w, b, a);
    FactorRoundTrip(a, b);
    NearChain(v, SourceFactor(a, b), SourceFactor(b, a), 1.0,
              w, Shown(w, b, a), v, RoundTripTolerance);
  }

  /** A round trip is exact only for the identity and the metric pair. */
  lemma RoundTripExactIff(a: Unit, b: Unit)
    ensures SourceFactor(a, b) * SourceFactor(b, a) == 1.0 <==>
      (a == b || (a, b) in {(Meters, Kilometers), (Kilometers, Meters)})
  {
  }

  /** Feet to yards (0.3333333333) and back (3) loses exactly one part in
      ten billion. */
  lemma FeetYardsRoundTrip(v: real)
    ensures Shown(Shown(v, Feet, Yards), Yards, Feet) == 0.9999999999 * v
    ensures Near(Shown(Shown(v, Feet, Yards), Yards, Feet), v, 0.0000000001)
    ensures v != 0.0 ==> Shown(Shown(v, Feet, Yards), Yards, Feet) != v
  {
  }

  /** Pairs of miles with meters, feet or yards. */
  predicate MilesWithShortUnit(a: Unit, b: Unit) {
    || (a == Miles && b in {Meters, Feet, Yards})
    || (b == Miles && a in {Meters, Feet, Yards})
  }

  /** A one-part-per-billion round-trip bound holds for exactly the pairs
      that do not couple miles with meters, feet or yards. */
  lemma NanoRoundTripIff(a: Unit, b: Unit)
    ensures Near(SourceFactor(a, b) * SourceFactor(b, a), 1.0, 0.000000001) <==> !MilesWithShortUnit(a, b)
  {
  }

  /** A detour through any third unit agrees with the direct factor. */
  lemma FactorComposition(a: Unit, b: Unit, c: Unit)
    ensures Near(SourceFactor(a, b) * SourceFactor(b, c), SourceFactor(a, c), CompositionTolerance)
  {
  }

  /** A relative bound between factors carries over to a value multiplied
      by them: `x` is `v` times `f1` then `f2`, and `y` is `v` times `f3`. */
  lemma NearChain(v: real, f1: real, f2: real, f3: real, w: real, x: real, y: real, tol: real)
    requires tol >= 0.0 && Near(f1 * f2, f3, tol)
    requires w == v * f1 && x == w * f2 && y == v * f3
    ensures Near(x, y, tol)
  {
    NearScales(v, f1 * f2, f3, tol);
    assert x == v * (f1 * f2);
  }

  /** Converting through an intermediate unit agrees with converting
      directly, within `CompositionTolerance`. */
  lemma CompositionBound(v: real, a: Unit, b: Unit, c: Unit)
    ensures Near(Shown(Shown(v, a, b), b, c), Shown(v, a, c), CompositionTolerance)
  {
    var w := Shown(v, a, b);
    Linear(v, a, b);
    Linear(w, b, c);
    Linear(v, a, c);
    FactorComposition(a, b, c);
    NearChain(v, SourceFactor(a, b), SourceFactor(b, c), SourceFactor(a, c),
              w, Shown(w, b, c), Shown(v, a, c), CompositionTolerance);
  }
}
