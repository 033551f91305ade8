/** Price series: daily bars, the exceptions a symbol's processing can raise,
    Python's negative-index slicing, and the extrema of a slice. */
module Series {
  import opened Wrappers

  /** One daily candle as delivered by the market-data provider. */
  datatype Bar = Bar(timestamp: int, open: real, high: real, low: real, close: real, volume: real)

  /** The exceptions raised while one symbol is processed. */
  datatype Error =
    | FetchFailed(reason: string)  // the kline request or its decoding failed
    | IndexOutOfRange              // positional access past either end of a series
    | EmptyArgument                // the built-in min() applied to an empty slice

  /** The bar's open and close lie inside its high-low range. */
  predicate WellFormed(b: Bar) {
    b.low <= b.open <= b.high && b.low <= b.close <= b.high
  }

  /** Every bar of the series has low <= high. */
  predicate RangesOrdered(bars: seq<Bar>) {
    forall i :: 0 <= i < |bars| ==> bars[i].low <= bars[i].high
  }

  function Closes(bars: seq<Bar>): (r: seq<real>)
    ensures |r| == |bars|
    ensures forall i :: 0 <= i < |bars| ==> r[i] == bars[i].close
  {
    seq(|bars|, i requires 0 <= i < |bars| => bars[i].close)
  }

  function Highs(bars: seq<Bar>): (r: seq<real>)
    ensures |r| == |bars|
    ensures forall i :: 0 <= i < |bars| ==> r[i] == bars[i].high
  {
    seq(|bars|, i requires 0 <= i < |bars| => bars[i].high)
  }

  function Lows(bars: seq<Bar>): (r: seq<real>)
    ensures |r| == |bars|
    ensures forall i :: 0 <= i < |bars| ==> r[i] == bars[i].low
  {
    seq(|bars|, i requires 0 <= i < |bars| => bars[i].low)
  }

  /** The position a Python slice bound `k` denotes in a sequence of length `n`:
      negative bounds count from the end, and out-of-range bounds are clamped. */
  function SliceIndex(n: nat, k: int): (r: nat)
    ensures r <= n
    ensures k < 0 && n + k >= 0 ==> r == n + k
    ensures 0 <= k <= n ==> r == k
  {
    if k < 0 then (if n + k < 0 then 0 else n + k)
    else if k > n then n
    else k
  }

  /** Python's `s[a:b]`: empty whenever the normalised start is not before the stop. */
  function Slice<T>(s: seq<T>, a: int, b: int): (r: seq<T>)
    ensures SliceIndex(|s|, a) < SliceIndex(|s|, b) ==> r == s[SliceIndex(|s|, a)..SliceIndex(|s|, b)]
    ensures SliceIndex(|s|, a) >= SliceIndex(|s|, b) ==> r == []
  {
    var i := SliceIndex(|s|, a);
    var j := SliceIndex(|s|, b);
    if i < j then s[i..j] else []
  }

  /** Smallest element of a non-empty sequence. */
  function Min(s: seq<real>): (m: real)
    requires |s| > 0
    ensures exists i :: 0 <= i < |s| && s[i] == m
    ensures forall i :: 0 <= i < |s| ==> m <= s[i]
  {
    if |s| == 1 then s[0]
    else
      var rest := Min(s[1..]);
      if s[0] <= rest then s[0] else rest
  }

  /** Largest element of a non-empty sequence. */
  function Max(s: seq<real>): (m: real)
    requires |s| > 0
    ensures exists i :: 0 <= i < |s| && s[i] == m
    ensures forall i :: 0 <= i < |s| ==> s[i] <= m
  {
    if |s| == 1 then s[0]
    else
      var rest := Max(s[1..]);
      if s[0] >= rest then s[0] else rest
  }

  /** pandas `Series.max()`: NaN (None) on an empty series. */
  function MaxOrNaN(s: seq<real>): (r: Option<real>)
    ensures r.None? <==> |s| == 0
  {
    if |s| == 0 then None else Some(Max(s))
  }

  /** pandas `Series.min()`: NaN (None) on an empty series. */
  function MinOrNaN(s: seq<real>): (r: Option<real>)
    ensures r.None? <==> |s| == 0
  {
    if |s| == 0 then None else Some(Min(s))
  }

  /** A comparison `x > y` where either side may be NaN: false whenever one is. */
  predicate Exceeds(x: Option<real>, y: Option<real>) {
    x.Some? && y.Some? && x.value > y.value
  }

  /** `v` is the largest of `s[a..b]`: attained there and bounding it from above. */
  predicate IsMaxOver(s: seq<real>, a: nat, b: nat, v: real)
    requires a <= b <= |s|
  {
    (exists j :: a <= j < b && s[j] == v) && forall j :: a <= j < b ==> s[j] <= v
  }

  /** `v` is the smallest of `s[a..b]`: attained there and bounding it from below. */
  predicate IsMinOver(s: seq<real>, a: nat, b: nat, v: real)
    requires a <= b <= |s|
  {
    (exists j :: a <= j < b && s[j] == v) && forall j :: a <= j < b ==> v <= s[j]
  }
}
