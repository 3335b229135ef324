/** An independent, exact conversion table: every unit is measured in metres
    by the international yard and pound agreement of 1959 (1 yd = 0.9144 m,
    1 ft = 1/3 yd, 1 mi = 1760 yd), and every pairwise factor is derived from
    that single base instead of being typed in. */
module Reference {
  import opened Units

  /** Length of one `u` in metres. */
  function MetersPer(u: Unit): (m: real)
    ensures m > 0.0
  {
    match u
    case Meters => 1.0
    case Kilometers => 1000.0
    case Feet => 0.3048
    case Yards => 0.9144
    case Miles => 1609.344
  }

  /** How many `to` make one `from`. */
  function ExactFactor(from: Unit, to: Unit): (f: real)
    ensures f > 0.0
  {
    MetersPer(from) / MetersPer(to)
  }

  /** `v` in `from` expressed in `to`, exactly. */
  function Convert(v: real, from: Unit, to: Unit): real {
    v * ExactFactor(from, to)
  }

  function Abs(x: real): real {
    if x < 0.0 then -x else x
  }

  /** `x` differs from `y` by at most the fraction `tol` of `y`. */
  predicate Near(x: real, y: real, tol: real) {
    Abs(x - y) <= tol * Abs(y)
  }

  /** Dividing through an intermediate positive quantity cancels it:
      `p`, `q` and `r` are the quotients x/y, y/z and x/z. */
  lemma DivisionChain(x: real, y: real, z: real, p: real, q: real, r: real)
    requires y > 0.0 && z > 0.0
    requires p == x / y && q == y / z && r == x / z
    ensures p * q == r
  {
    assert p * y == x;
    assert q * z == y;
    assert (p * q) * z == p * y;
  }

  /** The derived table is consistent by construction: going through any
      intermediate unit is the same as going directly. */
  lemma ExactFactorComposes(a: Unit, b: Unit, c: Unit)
    ensures ExactFactor(a, b) * ExactFactor(b, c) == ExactFactor(a, c)
  {
    DivisionChain(MetersPer(a), MetersPer(b), MetersPer(c),
                  ExactFactor(a, b), ExactFactor(b, c), ExactFactor(a, c));
  }
}
