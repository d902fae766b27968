/** Values with a standard deviation (the `ufloat`s of the Python code), with
    independent first-order error propagation, and a square root given as a
    parameter that obeys the square-root law. */
module Uncertain {

  /** A nominal value `v` and its standard deviation `e`. */
  datatype UFloat = UFloat(v: real, e: real)

  const Zero := UFloat(0.0, 0.0)

  /** `sqrt` is the non-negative square root on the non-negative reals. */
  ghost predicate IsSqrt(sqrt: real -> real)
  {
    forall x :: x >= 0.0 ==> sqrt(x) >= 0.0 && sqrt(x) * sqrt(x) == x
  }

  /** Python truth value of a `ufloat`: false exactly for 0 ± 0. */
  predicate Truthy(u: UFloat)
  {
    u.v != 0.0 || u.e != 0.0
  }

  function Max(a: real, b: real): (r: real)
    ensures r >= a && r >= b && (r == a || r == b)
  {
    if a >= b then a else b
  }

  function Abs(a: real): (r: real)
    ensures r >= 0.0 && (r == a || r == -a)
  {
    if a >= 0.0 then a else -a
  }

  /** The sum of the nominal values. */
  function SumV(xs: seq<UFloat>): real
  {
    if xs == [] then 0.0 else SumV(xs[..|xs| - 1]) + xs[|xs| - 1].v
  }

  /** The sum of the squared standard deviations. */
  function SumVar(xs: seq<UFloat>): (r: real)
    ensures r >= 0.0
  {
    if xs == [] then 0.0 else SumVar(xs[..|xs| - 1]) + xs[|xs| - 1].e * xs[|xs| - 1].e
  }

  /** Python's `sum(xs)` over independent `ufloat`s. */
  function Sum(sqrt: real -> real, xs: seq<UFloat>): (r: UFloat)
    requires IsSqrt(sqrt)
    ensures r.v == SumV(xs)
    ensures r.e >= 0.0 && r.e * r.e == SumVar(xs)
  {
    UFloat(SumV(xs), sqrt(SumVar(xs)))
  }

  /** `a / b` for independent `ufloat`s; Python raises ZeroDivisionError when `b`'s
      nominal value is 0, so callers test for that first. */
  function Div(sqrt: real -> real, a: UFloat, b: UFloat): (r: UFloat)
    requires IsSqrt(sqrt)
    requires b.v != 0.0
    ensures r.v * b.v == a.v
    ensures r.e >= 0.0
  {
    var da := a.e / b.v;
    var db := a.v * b.e / (b.v * b.v);
    UFloat(a.v / b.v, sqrt(da * da + db * db))
  }

  /** `a * k` for an exact factor `k`. */
  function Scale(a: UFloat, k: real): (r: UFloat)
    ensures r.v == a.v * k
    ensures a.e >= 0.0 ==> r.e >= 0.0
  {
    UFloat(a.v * k, a.e * Abs(k))
  }

  /** A product with a positive factor has the sign of the other factor. */
  lemma MulSign(a: real, b: real)
    requires b > 0.0
    ensures a <= 0.0 ==> a * b <= 0.0
  {
  }

  /** Multiplying a non-negative number by a factor of at least 1 does not decrease it. */
  lemma MulAtLeastOne(e: real, s: real)
    requires s >= 1.0
    ensures e >= 0.0 ==> e * s >= e
  {
    var d := s - 1.0;
    assert e >= 0.0 ==> e * d >= 0.0;
    assert e * s == e + e * d;
  }

  /** A product of positive numbers is positive. */
  lemma MulPositive(a: real, b: real)
    requires a > 0.0 && b > 0.0
    ensures a * b > 0.0
  {
  }

  /** A square is non-negative, and positive away from zero. */
  lemma Square(d: real)
    ensures d * d >= 0.0
    ensures d != 0.0 ==> d * d > 0.0
  {
    if d < 0.0 {
      var m := -d;
      MulPositive(m, m);
      assert d * d == m * m;
    } else if d > 0.0 {
      MulPositive(d, d);
    }
  }

  /** The square root of a number above 1 is above 1. */
  lemma SqrtAboveOne(sqrt: real -> real, x: real)
    requires IsSqrt(sqrt)
    requires x > 1.0
    ensures sqrt(x) > 1.0
  {
    var s := sqrt(x);
    var a := s - 1.0;
    var b := s + 1.0;
    MulSign(a, b);
    assert a * b == s * s - 1.0;
    assert a * b > 0.0;
  }

  /** The square root is determined by the square-root law. */
  lemma SqrtOfSquare(sqrt: real -> real, a: real)
    requires IsSqrt(sqrt)
    requires a >= 0.0
    ensures sqrt(a * a) == a
  {
    var s := sqrt(a * a);
    var p := s - a;
    var q := s + a;
    assert p * q == s * s - a * a;
    assert p * q == 0.0;
  }
}
