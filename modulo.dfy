/** JavaScript's remainder operator on exact reals, the floored modulus, and the
    facts that connect them. Both angle normalisers are written on top of these. */
module Modulo {

  /** The integer part of x, rounded toward zero (the quotient JavaScript's `%` uses). */
  function Trunc(x: real): (n: int)
    ensures 0.0 <= x ==> n as real <= x < n as real + 1.0
    ensures x < 0.0 ==> n as real - 1.0 < x <= n as real
  {
    if 0.0 <= x then x.Floor else -((-x).Floor)
  }

  /** The floored modulus: v minus the largest multiple of r not above v. */
  function FloorMod(v: real, r: real): (m: real)
    requires 0.0 < r
    ensures 0.0 <= m < r
  {
    var n := (v / r).Floor;
    var t := v / r - (n as real);
    ScaledFraction(r, t);
    assert v - r * (n as real) == r * t;
    v - r * (n as real)
  }

  /** JavaScript's `a % b` for a positive divisor: the remainder has the sign of a. */
  function JsRemainder(a: real, b: real): (t: real)
    requires 0.0 < b
    ensures 0.0 <= a ==> t == FloorMod(a, b)
    ensures a < 0.0 ==> t == -FloorMod(-a, b)
    ensures -b < t < b
  {
    assert a < 0.0 ==> (-a) / b == -(a / b);
    a - b * (Trunc(a / b) as real)
  }

  /** r * t stays in [0, r) when t is a fraction in [0, 1). */
  lemma ScaledFraction(r: real, t: real)
    requires 0.0 < r && 0.0 <= t < 1.0
    ensures 0.0 <= r * t < r
  {
  }

  /** r * t is at least r when t is at least 1. */
  lemma AtLeastPeriod(r: real, t: real)
    requires 0.0 < r && 1.0 <= t
    ensures r <= r * t
  {
  }

  /** A value in [0, r) is a fraction in [0, 1) of r. */
  lemma FractionOfPeriod(m: real, r: real)
    requires 0.0 < r && 0.0 <= m < r
    ensures 0.0 <= m / r < 1.0
  {
    var t := m / r;
    assert r * t == m;
    if 1.0 <= t {
      AtLeastPeriod(r, t);
    }
  }

  /** FloorMod is characterised by its range: any m in [0, r) that differs from v
      by a whole multiple of r is FloorMod(v, r). */
  lemma {:induction false} FloorModUnique(v: real, r: real, q: int, m: real)
    requires 0.0 < r && 0.0 <= m < r
    requires v == r * (q as real) + m
    ensures FloorMod(v, r) == m
  {
    FractionOfPeriod(m, r);
    assert v / r == (q as real) + m / r;
    assert (v / r).Floor == q;
  }

  /** FloorMod is r-periodic: shifting by any whole number of periods changes nothing. */
  lemma {:induction false} FloorModPeriodic(v: real, r: real, k: int)
    requires 0.0 < r
    ensures FloorMod(v + r * (k as real), r) == FloorMod(v, r)
  {
    FloorModShift(v, v + r * (k as real), r, k);
  }

  /** FloorModPeriodic, for a shifted value the caller already has as a term. */
  lemma {:induction false} FloorModShift(v: real, w: real, r: real, k: int)
    requires 0.0 < r
    requires w == v + r * (k as real)
    ensures FloorMod(w, r) == FloorMod(v, r)
  {
    var q := (v / r).Floor;
    assert v == r * (q as real) + FloorMod(v, r);
    assert w == r * ((q + k) as real) + FloorMod(v, r);
    FloorModUnique(w, r, q + k, FloorMod(v, r));
  }

  /** The JavaScript idiom `((v % r) + r) % r` computes the floored modulus. */
  lemma {:induction false} JsModIsFloorMod(v: real, r: real)
    requires 0.0 < r
    ensures JsRemainder(JsRemainder(v, r) + r, r) == FloorMod(v, r)
  {
    var k := Trunc(v / r);
    var q := (v / r).Floor;
    var u := JsRemainder(v, r) + r;
    assert u == r * ((q + 1 - k) as real) + FloorMod(v, r);
    FloorModUnique(u, r, q + 1 - k, FloorMod(v, r));
  }
}
