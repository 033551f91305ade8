/** Trailing-window indicators: the simple moving averages of `add_mas` and the
    rolling minimum behind the support level. A rolling value is `None` until
    the window is full, as pandas leaves it NaN. */
module Indicators {
  import opened Wrappers
  import opened Series

  /** Sum of a sequence, accumulated from the front. */
  function Sum(s: seq<real>): real
  {
    if |s| == 0 then 0.0 else Sum(s[..|s| - 1]) + s[|s| - 1]
  }

  /** Arithmetic mean of a non-empty sequence. */
  function Mean(s: seq<real>): real
    requires |s| > 0
  {
    Sum(s) / (|s| as real)
  }

  /** The trailing `k`-bar mean at every index: undefined for the first `k - 1`
      indices, otherwise the mean of the `k` values ending at (and including) it. */
  function RollingMean(c: seq<real>, k: nat): (ma: seq<Option<real>>)
    requires k >= 1
    ensures |ma| == |c|
  {
    seq(|c|, i requires 0 <= i < |c| => if i + 1 < k then None else Some(Mean(c[i + 1 - k..i + 1])))
  }

  /** The trailing `w`-bar minimum at every index, undefined until the window is full. */
  function RollingMin(s: seq<real>, w: nat): (mins: seq<Option<real>>)
    requires w >= 1
    ensures |mins| == |s|
  {
    seq(|s|, i requires 0 <= i < |s| => if i + 1 < w then None else Some(Min(s[i + 1 - w..i + 1])))
  }

  /** `xs[xs == xs]`: the defined values of a rolling series, in order. */
  function DefinedValues(xs: seq<Option<real>>): (vs: seq<real>)
    ensures |vs| == 0 <==> forall i :: 0 <= i < |xs| ==> xs[i].None?
    ensures |xs| > 0 && xs[|xs| - 1].Some? ==> |vs| > 0 && vs[|vs| - 1] == xs[|xs| - 1].value
    ensures forall v :: v in vs ==> Some(v) in xs
    decreases |xs|
  {
    if |xs| == 0 then []
    else
      var init := xs[..|xs| - 1];
      var before := DefinedValues(init);
      assert forall i :: 0 <= i < |init| ==> init[i] == xs[i];
      assert forall v :: Some(v) in init ==> Some(v) in xs;
      before + (if xs[|xs| - 1].Some? then [xs[|xs| - 1].value] else [])
  }

  /** The filter works piece by piece: the defined values of a concatenation
      are those of the first part followed by those of the second. With
      `DefinedValues([Some(v)]) == [v]` and `DefinedValues([None]) == []` this
      says the result is the defined values in their original order. */
  lemma {:induction false} DefinedValuesAppend(xs: seq<Option<real>>, ys: seq<Option<real>>)
    ensures DefinedValues(xs + ys) == DefinedValues(xs) + DefinedValues(ys)
    decreases |ys|
  {
    if |ys| == 0 {
      assert xs + ys == xs;
    } else {
      var ys' := ys[..|ys| - 1];
      var tail := if ys[|ys| - 1].Some? then [ys[|ys| - 1].value] else [];
      assert (xs + ys)[..|xs + ys| - 1] == xs + ys';
      assert (xs + ys)[|xs + ys| - 1] == ys[|ys| - 1];
      assert DefinedValues(xs + ys) == DefinedValues(xs + ys') + tail;
      assert DefinedValues(ys) == DefinedValues(ys') + tail;
      DefinedValuesAppend(xs, ys');
    }
  }

  /** Every defined value of the series survives the filter. */
  lemma {:induction false} DefinedValuesKeepsDefined(xs: seq<Option<real>>)
    ensures forall i :: 0 <= i < |xs| && xs[i].Some? ==> xs[i].value in DefinedValues(xs)
    decreases |xs|
  {
    if |xs| > 0 {
      var init := xs[..|xs| - 1];
      DefinedValuesKeepsDefined(init);
      assert forall i :: 0 <= i < |init| ==> init[i] == xs[i];
    }
  }

  lemma {:induction false} SumDropFirst(s: seq<real>)
    requires |s| > 0
    ensures Sum(s) == s[0] + Sum(s[1..])
    decreases |s|
  {
    if |s| > 1 {
      SumDropFirst(s[..|s| - 1]);
      assert s[..|s| - 1][1..] == s[1..][..|s[1..]| - 1];
    }
  }

  lemma SumExtend(c: seq<real>, a: nat, b: nat)
    requires a <= b < |c|
    ensures Sum(c[a..b + 1]) == Sum(c[a..b]) + c[b]
  {
    assert c[a..b + 1][..b - a] == c[a..b];
  }

  lemma SumShrink(c: seq<real>, a: nat, b: nat)
    requires a < b <= |c|
    ensures Sum(c[a..b]) == c[a] + Sum(c[a + 1..b])
  {
    SumDropFirst(c[a..b]);
    assert c[a..b][1..] == c[a + 1..b];
  }

  /** A sum of values that are all at least `lo` is at least `|s| * lo`. */
  lemma {:induction false} SumAtLeast(s: seq<real>, lo: real)
    requires forall i :: 0 <= i < |s| ==> lo <= s[i]
    ensures (|s| as real) * lo <= Sum(s)
    decreases |s|
  {
    if |s| > 0 {
      SumAtLeast(s[..|s| - 1], lo);
    }
  }

  /** A sum of values that are all at most `hi` is at most `|s| * hi`. */
  lemma {:induction false} SumAtMost(s: seq<real>, hi: real)
    requires forall i :: 0 <= i < |s| ==> s[i] <= hi
    ensures Sum(s) <= (|s| as real) * hi
    decreases |s|
  {
    if |s| > 0 {
      SumAtMost(s[..|s| - 1], hi);
    }
  }

  /** The mean lies between the smallest and the largest value it averages. */
  lemma MeanWithinRange(s: seq<real>)
    requires |s| > 0
    ensures Min(s) <= Mean(s) <= Max(s)
  {
    MeanBetween(s, Min(s), Max(s));
  }

  /** A mean of values inside [lo, hi] is inside [lo, hi]. */
  lemma MeanBetween(s: seq<real>, lo: real, hi: real)
    requires |s| > 0
    requires forall i :: 0 <= i < |s| ==> lo <= s[i] <= hi
    ensures lo <= Mean(s) <= hi
  {
    SumAtLeast(s, lo);
    SumAtMost(s, hi);
    QuotientBetween(Sum(s), |s| as real, lo, hi);
  }

  lemma QuotientBetween(a: real, n: real, lo: real, hi: real)
    requires n > 0.0 && n * lo <= a <= n * hi
    ensures lo <= a / n <= hi
  {
  }

  /** Before the window is full the moving average is undefined, never a
      fabricated number; from then on it is defined. */
  lemma RollingMeanWarmUp(c: seq<real>, k: nat)
    requires k >= 1
    ensures forall i :: 0 <= i < |c| ==> (RollingMean(c, k)[i].None? <==> i < k - 1)
    ensures |c| < k ==> forall i :: 0 <= i < |c| ==> RollingMean(c, k)[i].None?
  {
  }

  /** A defined moving average lies between the smallest and largest close of
      its window. */
  lemma RollingMeanBounded(c: seq<real>, k: nat, i: nat)
    requires k >= 1 && k - 1 <= i < |c|
    ensures RollingMean(c, k)[i].Some?
    ensures Min(c[i + 1 - k..i + 1]) <= RollingMean(c, k)[i].value <= Max(c[i + 1 - k..i + 1])
  {
    MeanWithinRange(c[i + 1 - k..i + 1]);
  }

  /** First index of the running window after `i` values have been read. */
  function WindowStart(i: nat, k: nat): nat
  {
    if i < k then 0 else i - k
  }

  /** The entry of `RollingMean` at `i`, written with the window's sum. */
  lemma RollingMeanAt(c: seq<real>, k: nat, i: nat)
    requires k >= 1 && i < |c|
    ensures RollingMean(c, k)[i] == if i + 1 < k then None else Some(Sum(c[i + 1 - k..i + 1]) / (k as real))
  {
  }

  /** Moving the running window on by one value keeps its sum right. */
  lemma WindowSumStep(c: seq<real>, k: nat, i: nat, sum: real)
    requires k >= 1 && i < |c|
    requires sum == Sum(c[WindowStart(i, k)..i])
    ensures (if i >= k then sum + c[i] - c[i - k] else sum + c[i]) == Sum(c[WindowStart(i + 1, k)..i + 1])
  {
    SumExtend(c, WindowStart(i, k), i);
    if i >= k {
      SumShrink(c, i - k, i + 1);
    }
  }

  /** One step of the scan: appending the mean of the window that ends at
      `i` extends the prefix of `RollingMean` by one entry. */
  lemma ScanStep(c: seq<real>, k: nat, i: nat, ma: seq<Option<real>>, sum: real)
    requires k >= 1 && i < |c|
    requires ma == RollingMean(c, k)[..i]
    requires sum == Sum(c[WindowStart(i + 1, k)..i + 1])
    ensures ma + [if i + 1 < k then None else Some(sum / (k as real))] == RollingMean(c, k)[..i + 1]
  {
    var expected := RollingMean(c, k);
    RollingMeanAt(c, k, i);
    assert expected[..i + 1] == expected[..i] + [expected[i]];
  }

  /** Computes the trailing `k`-bar means in one pass, keeping a running sum
      of the current window. */
  method RollingMeanScan(c: seq<real>, k: nat) returns (ma: seq<Option<real>>)
    requires k >= 1
    ensures ma == RollingMean(c, k)
  {
    ma := [];
    var sum := 0.0;
    var i := 0;
    while i < |c|
      invariant 0 <= i <= |c|
      invariant ma == RollingMean(c, k)[..i]
      invariant sum == Sum(c[WindowStart(i, k)..i])
    {
      WindowSumStep(c, k, i, sum);
      sum := sum + c[i];
      if i >= k {
        sum := sum - c[i - k];
      }
      ScanStep(c, k, i, ma, sum);
      if i + 1 < k {
        ma := ma + [None];
      } else {
        ma := ma + [Some(sum / (k as real))];
      }
      i := i + 1;
    }
    assert RollingMean(c, k)[..|c|] == RollingMean(c, k);
  }

  /** `add_mas`: the 7-, 25- and 99-bar simple moving averages of the closes. */
  method AddMas(bars: seq<Bar>) returns (ma7: seq<Option<real>>, ma25: seq<Option<real>>, ma99: seq<Option<real>>)
    ensures ma7 == RollingMean(Closes(bars), 7)
    ensures ma25 == RollingMean(Closes(bars), 25)
    ensures ma99 == RollingMean(Closes(bars), 99)
  {
    var closes := Closes(bars);
    ma7 := RollingMeanScan(closes, 7);
    ma25 := RollingMeanScan(closes, 25);
    ma99 := RollingMeanScan(closes, 99);
  }
}
