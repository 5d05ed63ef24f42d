/**
 * The 20-year series behind the cumulative chart and the CSV export: a yearly
 * series that repeats the annual saving (`np.full_like`) and its running total
 * (`np.cumsum`), each filled into an array by a loop.
 */
module Series {
  /** Length of the horizon: the years 1..20. */
  const Years: nat := 20

  /** The total of a sequence, adding from the front as a running sum does. */
  function Sum(xs: seq<real>): real
    decreases |xs|
  {
    if |xs| == 0 then 0.0 else Sum(xs[..|xs| - 1]) + xs[|xs| - 1]
  }

  /** A sequence whose every entry is `v` totals its length times `v`. */
  lemma {:induction false} SumOfConstant(xs: seq<real>, v: real)
    requires forall i :: 0 <= i < |xs| ==> xs[i] == v
    ensures Sum(xs) == |xs| as real * v
    decreases |xs|
  {
    if |xs| > 0 {
      var init := xs[..|xs| - 1];
      assert forall i :: 0 <= i < |init| ==> init[i] == v;
      SumOfConstant(init, v);
      assert Sum(xs) == (|xs| - 1) as real * v + v;
    }
  }

  /** `np.full_like`: `n` copies of `v`. */
  method FullLike(n: nat, v: real) returns (s: seq<real>)
    ensures |s| == n
    ensures forall i :: 0 <= i < n ==> s[i] == v
  {
    var a := new real[n];
    var k := 0;
    while k < n
      invariant 0 <= k <= n
      invariant forall i :: 0 <= i < k ==> a[i] == v
    {
      a[k] := v;
      k := k + 1;
    }
    s := a[..];
  }

  /** `np.cumsum`: entry `i` of the result is the total of the first `i + 1` entries. */
  method CumSum(xs: seq<real>) returns (c: seq<real>)
    ensures |c| == |xs|
    ensures forall i :: 0 <= i < |xs| ==> c[i] == Sum(xs[..i + 1])
  {
    var a := new real[|xs|];
    var acc := 0.0;
    var k := 0;
    while k < |xs|
      invariant 0 <= k <= |xs|
      invariant acc == Sum(xs[..k])
      invariant forall i :: 0 <= i < k ==> a[i] == Sum(xs[..i + 1])
    {
      assert xs[..k + 1][..k] == xs[..k];
      acc := acc + xs[k];
      a[k] := acc;
      k := k + 1;
    }
    c := a[..];
  }

  /** A running total of a constant series grows by the constant each year. */
  lemma CumulativeOfConstant(xs: seq<real>, v: real, i: nat)
    requires forall j :: 0 <= j < |xs| ==> xs[j] == v
    requires i < |xs|
    ensures Sum(xs[..i + 1]) == (i + 1) as real * v
  {
    var p := xs[..i + 1];
    assert forall j :: 0 <= j < |p| ==> p[j] == v;
    SumOfConstant(p, v);
  }

  /** Differencing a running total gives the series back: each entry of the series
      is its running total minus the one before. */
  lemma CumulativeDifferences(xs: seq<real>, i: nat)
    requires i < |xs|
    ensures Sum(xs[..i + 1]) - Sum(xs[..i]) == xs[i]
  {
    assert xs[..i + 1][..i] == xs[..i];
  }

  /** The figure the CSV export takes from a cumulative series: its last entry (`[-1]`). */
  function LastEntry(cum: seq<real>): (r: real)
    requires |cum| > 0
    ensures r in cum
  {
    cum[|cum| - 1]
  }

  /** The last entry of a running total is the total of the whole series. */
  lemma LastRunningTotal(xs: seq<real>, c: seq<real>)
    requires |xs| > 0 && |c| == |xs|
    requires forall i :: 0 <= i < |xs| ==> c[i] == Sum(xs[..i + 1])
    ensures LastEntry(c) == Sum(xs)
  {
    assert xs[..|xs|] == xs;
  }

  /** The four series of the chart for an annual energy and cost saving: the yearly
      values repeat the annual saving, entry i of each cumulative series is (i + 1)
      times it, and the exported 20-year totals are 20 times it. */
  method TwentyYearSeries(kwhSaved: real, plnSaved: real)
    returns (kwhYearly: seq<real>, plnYearly: seq<real>, kwhCum: seq<real>, plnCum: seq<real>)
    ensures |kwhYearly| == Years && |plnYearly| == Years
    ensures forall i :: 0 <= i < Years ==> kwhYearly[i] == kwhSaved
    ensures forall i :: 0 <= i < Years ==> plnYearly[i] == plnSaved
    ensures |kwhCum| == Years && |plnCum| == Years
    ensures forall i :: 0 <= i < Years ==> kwhCum[i] == (i + 1) as real * kwhSaved
    ensures forall i :: 0 <= i < Years ==> plnCum[i] == (i + 1) as real * plnSaved
    ensures LastEntry(kwhCum) == 20.0 * kwhSaved && LastEntry(plnCum) == 20.0 * plnSaved
  {
    kwhYearly := FullLike(Years, kwhSaved);
    plnYearly := FullLike(Years, plnSaved);
    kwhCum := CumSum(kwhYearly);
    plnCum := CumSum(plnYearly);
    forall i | 0 <= i < Years
      ensures kwhCum[i] == (i + 1) as real * kwhSaved
      ensures plnCum[i] == (i + 1) as real * plnSaved
    {
      CumulativeOfConstant(kwhYearly, kwhSaved, i);
      CumulativeOfConstant(plnYearly, plnSaved, i);
    }
  }
}
