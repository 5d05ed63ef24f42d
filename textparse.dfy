/**
 * The two pieces of Python string handling the insulation tags go through:
 * `str.split("-")` and `float(...)` applied to one field of the split.
 */
module TextParse {
  import opened Wrappers

  // ---------------------------------------------------------------------------
  // str.split(sep)
  // ---------------------------------------------------------------------------

  /** The fields of `s` between occurrences of `sep`, as Python's `s.split(sep)`. */
  function Split(s: string, sep: char): (parts: seq<string>)
    ensures |parts| >= 1
    ensures |parts| == 1 <==> sep !in s
    decreases |s|
  {
    if |s| == 0 then [""]
    else if s[0] == sep then [""] + Split(s[1..], sep)
    else
      var rest := Split(s[1..], sep);
      [[s[0]] + rest[0]] + rest[1..]
  }

  /** The text of `s` before the first `sep` (all of `s` when there is none). */
  function UpTo(s: string, sep: char): (p: string)
    ensures sep !in p
    ensures p <= s
    ensures |p| < |s| ==> s[|p|] == sep
    ensures sep in s <==> |p| < |s|
    decreases |s|
  {
    if |s| == 0 || s[0] == sep then "" else [s[0]] + UpTo(s[1..], sep)
  }

  /** The fields joined back with the separator between them, as `sep.join(parts)`. */
  function Join(parts: seq<string>, sep: char): string
    decreases |parts|
  {
    if |parts| == 0 then "" else if |parts| == 1 then parts[0] else parts[0] + [sep] + Join(parts[1..], sep)
  }

  /** Joining the fields of a split with the same separator gives the text back, so
      the split loses no character. */
  lemma {:induction false} JoinSplit(s: string, sep: char)
    ensures Join(Split(s, sep), sep) == s
    decreases |s|
  {
    if |s| > 0 {
      JoinSplit(s[1..], sep);
      var rest := Split(s[1..], sep);
      if s[0] == sep {
        assert ([""] + rest)[1..] == rest;
        assert s == [sep] + s[1..];
      } else {
        var parts := [[s[0]] + rest[0]] + rest[1..];
        assert parts[1..] == rest[1..];
        if |rest| == 1 {
          assert s == [s[0]] + s[1..];
        } else {
          assert Join(rest, sep) == rest[0] + [sep] + Join(rest[1..], sep);
          assert s == [s[0]] + s[1..];
        }
      }
    }
  }

  /** Splitting a text that starts with a separator-free field `p`, then `sep`,
      gives `p` followed by the fields of the rest. */
  lemma {:induction false} SplitAfterField(p: string, sep: char, t: string)
    requires sep !in p
    ensures Split(p + [sep] + t, sep) == [p] + Split(t, sep)
    decreases |p|
  {
    if |p| == 0 {
      assert p + [sep] + t == [sep] + t;
      assert ([sep] + t)[1..] == t;
    } else {
      var s := p + [sep] + t;
      assert s[0] == p[0] && s[1..] == p[1..] + [sep] + t;
      SplitAfterField(p[1..], sep, t);
      assert [p[0]] + p[1..] == p;
    }
  }

  /** A text without the separator is its own first field. */
  lemma {:induction false} UpToWhole(s: string, sep: char)
    requires sep !in s
    ensures UpTo(s, sep) == s
    decreases |s|
  {
    if |s| > 0 {
      assert sep !in s[1..] by { assert forall i :: 0 <= i < |s| - 1 ==> s[1..][i] == s[i + 1]; }
      UpToWhole(s[1..], sep);
    }
  }

  /** The first field of a split is the text before the first separator. */
  lemma {:induction false} SplitFirstField(s: string, sep: char)
    ensures Split(s, sep)[0] == UpTo(s, sep)
    decreases |s|
  {
    if |s| > 0 && s[0] != sep {
      SplitFirstField(s[1..], sep);
    }
  }

  // ---------------------------------------------------------------------------
  // float(text) for the decimal forms the tags use
  // ---------------------------------------------------------------------------

  predicate IsDigit(c: char) { '0' <= c <= '9' }

  predicate AllDigits(s: string) { forall i :: 0 <= i < |s| ==> IsDigit(s[i]) }

  function DigitValue(c: char): (d: nat)
    requires IsDigit(c)
    ensures d <= 9
  {
    (c as int) - ('0' as int)
  }

  /** The number a string of decimal digits denotes (0 for the empty string). */
  function DigitsValue(s: string): nat
    requires AllDigits(s)
    decreases |s|
  {
    if |s| == 0 then 0 else DigitsValue(s[..|s| - 1]) * 10 + DigitValue(s[|s| - 1])
  }

  /** 10^n as a natural number. */
  function TenTo(n: nat): (r: nat)
    ensures r >= 1
  {
    if n == 0 then 1 else 10 * TenTo(n - 1)
  }

  /** Index of the first '.' in `s`, if any. */
  function FindDot(s: string): (k: Option<nat>)
    ensures k.Some? ==> k.value < |s| && s[k.value] == '.' && '.' !in s[..k.value]
    ensures k.None? <==> '.' !in s
  {
    var p := UpTo(s, '.');
    if |p| < |s| then Some(|p|) else None
  }

  /** `float(s)` for texts of the form `digits`, `digits.digits`, `digits.` or `.digits`;
      `None` where Python raises ValueError for these shapes (the empty text, "12a",
      "1.2.3", "."). */
  function ParseDecimal(s: string): (r: Option<real>)
    ensures r.Some? ==> r.value >= 0.0
    ensures r.Some? && '.' !in s ==> AllDigits(s) && r.value == DigitsValue(s) as real
    ensures AllDigits(s) && |s| > 0 ==> r.Some?
    ensures r.Some? && FindDot(s).Some? ==>
      var k := FindDot(s).value;
      AllDigits(s[..k] + s[k + 1..]) &&
      Shifted(r.value, |s[k + 1..]|) == DigitsValue(s[..k] + s[k + 1..]) as real
  {
    match FindDot(s)
    case None =>
      if |s| > 0 && AllDigits(s) then Some(DigitsValue(s) as real) else None
    case Some(k) =>
      var whole, frac := s[..k], s[k + 1..];
      if (|whole| > 0 || |frac| > 0) && AllDigits(whole) && AllDigits(frac)
      then Some(PointValue(whole, frac))
      else None
  }

  /** The number written `whole.frac`: the whole part plus the fraction digits over
      10^(their count). */
  function PointValue(whole: string, frac: string): (v: real)
    requires AllDigits(whole) && AllDigits(frac)
    ensures v >= 0.0
    ensures AllDigits(whole + frac)
    ensures Shifted(v, |frac|) == DigitsValue(whole + frac) as real
  {
    DigitsValueAppend(whole, frac);
    var v := DigitsValue(whole) as real + DigitsValue(frac) as real / TenTo(|frac|) as real;
    ShiftFraction(v, DigitsValue(whole), DigitsValue(frac), |frac|, DigitsValue(whole + frac));
    v
  }

  /** The digits of `a` followed by those of `b` denote a x 10^|b| + b. */
  lemma {:induction false} DigitsValueAppend(a: string, b: string)
    requires AllDigits(a) && AllDigits(b)
    ensures AllDigits(a + b)
    ensures DigitsValue(a + b) == DigitsValue(a) * TenTo(|b|) + DigitsValue(b)
    decreases |b|
  {
    assert forall i :: 0 <= i < |a + b| ==> IsDigit((a + b)[i]) by {
      forall i | 0 <= i < |a + b| ensures IsDigit((a + b)[i]) {
        if i < |a| { assert (a + b)[i] == a[i]; } else { assert (a + b)[i] == b[i - |a|]; }
      }
    }
    if |b| == 0 {
      assert a + b == a;
    } else {
      var init, last := b[..|b| - 1], b[|b| - 1];
      assert (a + b)[..|a + b| - 1] == a + init && (a + b)[|a + b| - 1] == last;
      assert AllDigits(init) by { assert forall i :: 0 <= i < |init| ==> init[i] == b[i]; }
      DigitsValueAppend(a, init);
      assert DigitsValue(a + b) == DigitsValue(a + init) * 10 + DigitValue(last);
      Regroup(DigitsValue(a), TenTo(|init|), DigitsValue(init), DigitValue(last));
    }
  }

  lemma Regroup(a: int, t: int, i: int, d: int)
    ensures (a * t + i) * 10 + d == a * (10 * t) + (i * 10 + d)
  {
  }

  /** Moving the decimal point: (w + f / t) x t is the number w x t + f. */
  lemma ShiftFraction(v: real, w: nat, f: nat, n: nat, d: nat)
    requires d == w * TenTo(n) + f && v == w as real + f as real / TenTo(n) as real
    ensures v >= 0.0 && Shifted(v, n) == d as real
  {
    var t := TenTo(n);
    assert (w * t) as real == w as real * t as real;
  }

  /** v x 10^n: `v` with its decimal point moved n places to the right. */
  function Shifted(v: real, n: nat): real
  {
    v * TenTo(n) as real
  }

  /** A whole part and a fraction part of digits, not both empty, around one point
      parse to the number whose digits are both parts in turn, over 10^(fraction digits). */
  lemma ParseDecimalDotted(whole: string, frac: string)
    requires AllDigits(whole) && AllDigits(frac) && |whole| + |frac| > 0
    ensures ParseDecimal(whole + "." + frac).Some?
    ensures Shifted(ParseDecimal(whole + "." + frac).value, |frac|) == DigitsValue(whole + frac) as real
  {
    var s := whole + "." + frac;
    assert '.' !in whole by { assert forall i :: 0 <= i < |whole| ==> IsDigit(whole[i]); }
    UpToField(whole, '.', frac);
    assert FindDot(s) == Some(|whole|);
    assert s[..|whole|] == whole && s[|whole| + 1..] == frac;
    assert ParseDecimal(s) == Some(PointValue(whole, frac));
  }

  /** `float` on a thickness field with a decimal point. */
  lemma ParseDecimalAccepts()
    ensures ParseDecimal("12.5") == Some(12.5)
  {
    DigitsOfExample();
    assert FindDot("12.5") == Some(2) && "12.5"[..2] == "12" && "12.5"[3..] == "5";
    assert TenTo(1) == 10;
  }

  lemma DigitsOfExample()
    ensures AllDigits("12") && DigitsValue("12") == 12
    ensures AllDigits("5") && DigitsValue("5") == 5
  {
    assert "12"[..1] == "1";
  }

  /** `float` on a field with an empty whole part or an empty fraction. */
  lemma ParseDecimalBareParts()
    ensures ParseDecimal(".5") == Some(0.5)
    ensures ParseDecimal("3.") == Some(3.0)
  {
    assert DigitsValue("") == 0 && DigitsValue("5") == 5 && DigitsValue("3") == 3;
    assert TenTo(0) == 1 && TenTo(1) == 10;
    assert FindDot(".5") == Some(0) && ".5"[..0] == "" && ".5"[1..] == "5";
    assert PointValue("", "5") == 0.5;
    assert FindDot("3.") == Some(1) && "3."[..1] == "3" && "3."[2..] == "";
    assert PointValue("3", "") == 3.0;
  }

  /** The fields `float` rejects: empty, a lone point, two points, a letter. */
  lemma ParseDecimalRejects()
    ensures ParseDecimal("") == None
    ensures ParseDecimal(".") == None
    ensures ParseDecimal("1.2.3") == None
    ensures ParseDecimal("12a") == None
  {
    assert FindDot("1.2.3") == Some(1) && !IsDigit("1.2.3"[2..][1]);
    assert !IsDigit("12a"[2]);
  }

  /** The text before the first separator of `p + sep + t`, with `p` separator-free, is `p`. */
  lemma {:induction false} UpToField(p: string, sep: char, t: string)
    requires sep !in p
    ensures UpTo(p + [sep] + t, sep) == p
    decreases |p|
  {
    var s := p + [sep] + t;
    if |p| > 0 {
      assert s[0] == p[0] && s[1..] == p[1..] + [sep] + t;
      UpToField(p[1..], sep, t);
      assert [p[0]] + p[1..] == p;
    }
  }

  // ---------------------------------------------------------------------------
  // Decimal rendering of a natural number, the inverse of DigitsValue
  // ---------------------------------------------------------------------------

  function DigitChar(d: nat): (c: char)
    requires d <= 9
    ensures IsDigit(c) && DigitValue(c) == d
  {
    ('0' as int + d) as char
  }

  /** The decimal digits of `n` without leading zeros (`"0"` for zero). */
  function DecimalString(n: nat): (s: string)
    ensures |s| > 0 && AllDigits(s)
    decreases n
  {
    if n < 10 then [DigitChar(n)] else DecimalString(n / 10) + [DigitChar(n % 10)]
  }

  lemma {:induction false} DecimalStringValue(n: nat)
    ensures DigitsValue(DecimalString(n)) == n
    decreases n
  {
    var s := DecimalString(n);
    if n >= 10 {
      DecimalStringValue(n / 10);
      assert s[..|s| - 1] == DecimalString(n / 10);
    }
  }

  /** Parsing the decimal rendering of `n` gives back `n`. */
  lemma ParseDecimalString(n: nat)
    ensures '.' !in DecimalString(n)
    ensures ParseDecimal(DecimalString(n)) == Some(n as real)
  {
    var s := DecimalString(n);
    assert forall i :: 0 <= i < |s| ==> s[i] != '.' by {
      forall i | 0 <= i < |s| ensures s[i] != '.' { assert IsDigit(s[i]); }
    }
    DecimalStringValue(n);
  }
}
