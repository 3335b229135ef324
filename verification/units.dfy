/** The five length units offered by the converter, with the short raw codes
    the enum carries and the full names that label a converted value. */
module Units {

  datatype Option<+T> = None | Some(value: T)

  /** One case per length unit, in declaration order. */
  datatype Unit = Meters | Kilometers | Feet | Yards | Miles

  /** The raw code each case is declared with: a one- or two-letter
      abbreviation that starts with the initial of the unit's full name. */
  function RawValue(u: Unit): (code: string)
    ensures 1 <= |code| <= 2
    ensures code[0] == Name(u)[0]
  {
    match u
    case Meters => "m"
    case Kilometers => "km"
    case Feet => "ft"
    case Yards => "yd"
    case Miles => "mi"
  }

  /** The full unit word appended to a converted value: the plural name,
      always longer than any raw code. */
  function Name(u: Unit): (word: string)
    ensures |word| >= 4
  {
    match u
    case Meters => "meters"
    case Kilometers => "kilometers"
    case Feet => "feet"
    case Yards => "yards"
    case Miles => "miles"
  }

  /** Position of a case in the enum declaration. */
  function Ordinal(u: Unit): (n: nat)
    ensures n < 5
  {
    match u
    case Meters => 0
    case Kilometers => 1
    case Feet => 2
    case Yards => 3
    case Miles => 4
  }

  /** Every case, each exactly once, in declaration order. */
  function AllValues(): (all: seq<Unit>)
    ensures |all| == 5
    ensures forall u :: all[Ordinal(u)] == u
    ensures forall i :: 0 <= i < |all| ==> Ordinal(all[i]) == i
  {
    [Meters, Kilometers, Feet, Yards, Miles]
  }

  /** Each case has its own raw code. */
  lemma RawValuesDistinct(u: Unit, w: Unit)
    ensures RawValue(u) == RawValue(w) <==> u == w
  {
  }

  /** Each case has its own full name, and no full name is a raw code. */
  lemma NamesDistinct(u: Unit, w: Unit)
    ensures Name(u) == Name(w) <==> u == w
    ensures Name(u) != RawValue(w)
  {
  }

  /** The failable initializer a string-backed enum gets: the case whose raw
      code is `code`, found by walking the case list. */
  method FromRawValue(code: string) returns (r: Option<Unit>)
    ensures forall u :: r == Some(u) <==> RawValue(u) == code
  {
    var all := AllValues();
    var i := 0;
    while i < |all|
      invariant 0 <= i <= |all|
      invariant forall j :: 0 <= j < i ==> RawValue(all[j]) != code
    {
      if RawValue(all[i]) == code {
        forall u | RawValue(u) == code
          ensures u == all[i]
        {
          RawValuesDistinct(u, all[i]);
        }
        return Some(all[i]);
      }
      i := i + 1;
    }
    forall u
      ensures RawValue(u) != code
    {
      assert all[Ordinal(u)] == u;
    }
    return None;
  }
}
