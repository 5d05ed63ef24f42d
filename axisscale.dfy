/**
 * `nice_ceiling`, the helper that picks the top of every chart's y-axis: the
 * smallest number of the form 1, 2, 5 or 10 times a power of ten that is not
 * below its argument, and 0 for an argument that is not positive.
 */
module AxisScale {
  /** 10^e for any integer exponent. */
  function Pow10(e: int): (p: real)
    ensures p > 0.0
    decreases if e >= 0 then e else -e
  {
    if e == 0 then 1.0 else if e > 0 then 10.0 * Pow10(e - 1) else Pow10(e + 1) / 10.0
  }

  lemma Pow10Succ(e: int)
    ensures Pow10(e + 1) == 10.0 * Pow10(e)
  {
  }

  /** Powers of ten grow with the exponent. */
  lemma {:induction false} Pow10Le(a: int, b: int)
    requires a <= b
    ensures Pow10(a) <= Pow10(b)
    decreases b - a
  {
    if a < b {
      Pow10Succ(a);
      Pow10Le(a + 1, b);
    }
  }

  lemma Pow10Lt(a: int, b: int)
    requires a < b
    ensures Pow10(a) < Pow10(b)
  {
    Pow10Succ(a);
    Pow10Le(a + 1, b);
  }

  /** The exponent order can be read back from the order of the powers. */
  lemma Pow10Reflects(a: int, b: int)
    ensures Pow10(a) < Pow10(b) ==> a < b
  {
    if b <= a {
      Pow10Le(b, a);
    }
  }

  /** floor(log10(x)) for x > 0: the exponent e with 10^e <= x < 10^(e+1). */
  function Log10Floor(x: real): (e: int)
    requires x > 0.0
    ensures Pow10(e) <= x < Pow10(e + 1)
    decreases (if x < 1.0 then 1 else 0), (if x >= 1.0 then x.Floor else (1.0 / x).Floor)
  {
    if x >= 10.0 then
      assert (x / 10.0).Floor < x.Floor by {
        assert (x / 10.0).Floor as real <= x / 10.0 <= x - 9.0;
        assert x - 1.0 < x.Floor as real;
      }
      var e := Log10Floor(x / 10.0);
      Pow10Succ(e);
      Pow10Succ(e + 1);
      e + 1
    else if x >= 1.0 then
      0
    else
      assert x * 10.0 < 1.0 ==> (1.0 / (x * 10.0)).Floor < (1.0 / x).Floor by {
        if x * 10.0 < 1.0 {
          var y := 1.0 / x;
          assert y > 10.0;
          assert 1.0 / (x * 10.0) == y / 10.0;
          assert (y / 10.0).Floor as real <= y / 10.0 <= y - 9.0;
          assert y - 1.0 < y.Floor as real;
        }
      }
      var e := Log10Floor(x * 10.0);
      Pow10Succ(e - 1);
      e - 1
  }

  /** The exponent is the only one that brackets x. */
  lemma Log10FloorUnique(x: real, e: int)
    requires x > 0.0
    requires Pow10(e) <= x < Pow10(e + 1)
    ensures e == Log10Floor(x)
  {
    var e0 := Log10Floor(x);
    Pow10Reflects(e, e0 + 1);
    Pow10Reflects(e0, e + 1);
  }

  /** m x 10^e. */
  function Scaled(m: real, e: int): real
  {
    m * Pow10(e)
  }

  /** x over the power of ten below it, a number in [1, 10). */
  function Mantissa(x: real): (m: real)
    requires x > 0.0
    ensures 1.0 <= m < 10.0
    ensures Scaled(m, Log10Floor(x)) == x
  {
    var e := Log10Floor(x);
    var m := x / Pow10(e);
    DivScaled(x, e);
    Pow10Succ(e);
    ScaledReflects(1.0, m, e);
    ScaledReflectsStrict(m, 10.0, e);
    m
  }

  lemma DivScaled(x: real, e: int)
    ensures Scaled(x / Pow10(e), e) == x
  {
  }

  /** The mantissas the helper rounds to. */
  predicate NiceMantissa(c: real) {
    c == 1.0 || c == 2.0 || c == 5.0 || c == 10.0
  }

  /** The first of 1, 2, 5, 10 that is not below `base`. */
  function NiceStep(base: real): (c: real)
    ensures NiceMantissa(c)
    ensures base <= 10.0 ==> base <= c
  {
    if base <= 1.0 then 1.0
    else if base <= 2.0 then 2.0
    else if base <= 5.0 then 5.0
    else 10.0
  }

  /** No mantissa at or above `base` is below the one `NiceStep` picks. */
  lemma NiceStepLeast(base: real, c: real)
    requires NiceMantissa(c) && base <= c
    ensures NiceStep(base) <= c
  {
  }

  lemma ScaledLe(a: real, b: real, e: int)
    requires a <= b
    ensures Scaled(a, e) <= Scaled(b, e)
  {
  }

  lemma ScaledReflects(a: real, b: real, e: int)
    requires Scaled(a, e) <= Scaled(b, e)
    ensures a <= b
  {
  }

  lemma ScaledReflectsStrict(a: real, b: real, e: int)
    requires Scaled(a, e) < Scaled(b, e)
    ensures a < b
  {
  }

  /** `nice_ceiling(x)`: 0 when x <= 0, never below x otherwise. */
  function NiceCeiling(x: real): (r: real)
    ensures x <= 0.0 ==> r == 0.0
    ensures x > 0.0 ==> x <= r
  {
    if x <= 0.0 then 0.0
    else
      var m := Mantissa(x);
      ScaledLe(m, NiceStep(m), Log10Floor(x));
      Scaled(NiceStep(m), Log10Floor(x))
  }

  /** For x > 0 the result is a mantissa in {1, 2, 5, 10} times the power of ten e
      with 10^e <= x < 10^(e+1). */
  lemma NiceCeilingShape(x: real)
    requires x > 0.0
    ensures var e, c := Log10Floor(x), NiceStep(Mantissa(x));
      && Pow10(e) <= x < Pow10(e + 1)
      && NiceMantissa(c)
      && NiceCeiling(x) == Scaled(c, e)
  {
  }

  /** The result is the least nice number not below x: every c x 10^f with a mantissa
      c in {1, 2, 5, 10} and c x 10^f >= x is at least `NiceCeiling(x)`. */
  lemma NiceCeilingLeast(x: real, c: real, f: int)
    requires x > 0.0 && NiceMantissa(c) && x <= Scaled(c, f)
    ensures NiceCeiling(x) <= Scaled(c, f)
  {
    var e := Log10Floor(x);
    var m := Mantissa(x);
    assert NiceCeiling(x) == Scaled(NiceStep(m), e);
    if f == e {
      SameExponent(m, c, e);
    } else if f > e {
      HigherExponent(NiceStep(m), c, e, f);
    } else {
      LowerExponent(m, c, e, f);
    }
  }

  /** Rounding at the exponent of x: the picked mantissa is the least one at or above
      the mantissa of x. */
  lemma SameExponent(m: real, c: real, e: int)
    requires NiceMantissa(c) && Scaled(m, e) <= Scaled(c, e)
    ensures Scaled(NiceStep(m), e) <= Scaled(c, e)
  {
    ScaledReflects(m, c, e);
    NiceStepLeast(m, c);
    ScaledLe(NiceStep(m), c, e);
  }

  /** Every nice number at a higher exponent is at least 10 times the power at x's exponent. */
  lemma HigherExponent(n: real, c: real, e: int, f: int)
    requires NiceMantissa(n) && NiceMantissa(c) && e < f
    ensures Scaled(n, e) <= Scaled(c, f)
  {
    Pow10Succ(e);
    Pow10Le(e + 1, f);
    var p, q := Pow10(e), Pow10(f);
    assert n * p <= 10.0 * p;
    assert q <= c * q;
  }

  /** A nice number at a lower exponent is at most the power of ten below x, so it can
      bound x only when x is that power itself, which `NiceStep` keeps. */
  lemma LowerExponent(m: real, c: real, e: int, f: int)
    requires NiceMantissa(c) && f < e
    requires 1.0 <= m && Scaled(m, e) <= Scaled(c, f)
    ensures Scaled(NiceStep(m), e) <= Scaled(c, f)
  {
    NiceBelowNextPower(c, f, e);
    assert Scaled(1.0, e) == Pow10(e);
    ScaledReflects(m, 1.0, e);
  }

  /** c x 10^f with c <= 10 is at most 10^e for every exponent e above f. */
  lemma NiceBelowNextPower(c: real, f: int, e: int)
    requires NiceMantissa(c) && f < e
    ensures Scaled(c, f) <= Pow10(e)
  {
    Pow10Succ(f);
    Pow10Le(f + 1, e);
    ScaledLe(c, 10.0, f);
  }

  /** A larger argument never gets a lower axis top. */
  lemma NiceCeilingMonotone(x: real, y: real)
    requires x <= y
    ensures NiceCeiling(x) <= NiceCeiling(y)
  {
    if x > 0.0 {
      NiceCeilingShape(y);
      NiceCeilingLeast(x, NiceStep(Mantissa(y)), Log10Floor(y));
    }
  }

  /** Rounding an already nice number changes nothing. */
  lemma NiceCeilingIdempotent(x: real)
    ensures NiceCeiling(NiceCeiling(x)) == NiceCeiling(x)
  {
    if x > 0.0 {
      NiceCeilingShape(x);
      NiceCeilingLeast(NiceCeiling(x), NiceStep(Mantissa(x)), Log10Floor(x));
    }
  }

  /** The values the helper gives for 0, 1, 120 and 4500. */
  lemma NiceCeilingExamples()
    ensures NiceCeiling(0.0) == 0.0
    ensures NiceCeiling(1.0) == 1.0
    ensures NiceCeiling(120.0) == 200.0
    ensures NiceCeiling(4500.0) == 5000.0
  {
    assert Pow10(1) == 10.0 && Pow10(2) == 100.0 && Pow10(3) == 1000.0 && Pow10(4) == 10000.0;
    Log10FloorUnique(1.0, 0);
    Log10FloorUnique(120.0, 2);
    Log10FloorUnique(4500.0, 3);
  }
}
