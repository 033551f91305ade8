/** The pattern detectors: breakout against the prior window's extrema, the
    support level and its pullback band, the candlestick classifier and the
    simplified "Double Bottom" chart pattern. */
module Patterns {
  import opened Wrappers
  import opened Series
  import opened Indicators

  // ---------------------------------------------------------------- breakout

  /** The two breakout flags with the prior extrema they were judged against. */
  datatype Breakout = Breakout(high: bool, low: bool, prevHigh: Option<real>, prevLow: Option<real>)

  /** First position of the prior window `iloc[-window:-1]` in a series of `n` bars. */
  function PriorStart(n: nat, window: nat): nat
  {
    if window == 0 || window >= n then 0 else n - window
  }

  /** pandas `high.iloc[-window:-1].max()`: the highest high of the prior
      window, NaN when that window is empty. */
  function PriorHigh(bars: seq<Bar>, window: nat): (r: Option<real>)
    requires |bars| > 0
    ensures var n, a := |bars|, PriorStart(|bars|, window);
            && (r.Some? <==> a < n - 1)
            && (r.Some? ==> IsMaxOver(Highs(bars), a, n - 1, r.value))
  {
    PriorWindowBounds(|bars|, window);
    var prior := Slice(Highs(bars), -(window as int), -1);
    var r := MaxOrNaN(prior);
    MaxOfSlice(Highs(bars), PriorStart(|bars|, window), |bars| - 1);
    r
  }

  /** pandas `low.iloc[-window:-1].min()`: the lowest low of the prior window,
      NaN when that window is empty. */
  function PriorLow(bars: seq<Bar>, window: nat): (r: Option<real>)
    requires |bars| > 0
    ensures var n, a := |bars|, PriorStart(|bars|, window);
            && (r.Some? <==> a < n - 1)
            && (r.Some? ==> IsMinOver(Lows(bars), a, n - 1, r.value))
  {
    PriorWindowBounds(|bars|, window);
    var prior := Slice(Lows(bars), -(window as int), -1);
    var r := MinOrNaN(prior);
    MinOfSlice(Lows(bars), PriorStart(|bars|, window), |bars| - 1);
    r
  }

  lemma PriorWindowBounds(n: nat, window: nat)
    requires n > 0
    ensures SliceIndex(n, -(window as int)) == PriorStart(n, window)
    ensures SliceIndex(n, -1) == n - 1
  {
  }

  lemma MaxOfSlice(s: seq<real>, a: nat, b: nat)
    requires a <= b <= |s|
    ensures a < b ==> IsMaxOver(s, a, b, Max(s[a..b]))
  {
    if a == b {
      return;
    }
    var m := Max(s[a..b]);
    var i :| 0 <= i < b - a && s[a..b][i] == m;
    assert s[a + i] == m;
    forall j | a <= j < b
      ensures s[j] <= m
    {
      assert s[j] == s[a..b][j - a];
    }
  }

  lemma MinOfSlice(s: seq<real>, a: nat, b: nat)
    requires a <= b <= |s|
    ensures a < b ==> IsMinOver(s, a, b, Min(s[a..b]))
  {
    if a == b {
      return;
    }
    var m := Min(s[a..b]);
    var i :| 0 <= i < b - a && s[a..b][i] == m;
    assert s[a + i] == m;
    forall j | a <= j < b
      ensures m <= s[j]
    {
      assert s[j] == s[a..b][j - a];
    }
  }

  /** `detect_breakout`: the last close against the highest high and lowest low
      of the bars before it inside the window; the last bar is never part of
      the prior window. An empty window leaves both extrema NaN and both flags false. */
  function DetectBreakout(bars: seq<Bar>, window: nat): (r: Result<Breakout, Error>)
    ensures r.Failure? <==> |bars| == 0
    ensures r.Success? ==>
              var n, a := |bars|, PriorStart(|bars|, window);
              && (r.value.prevHigh.Some? <==> a < n - 1)
              && (r.value.prevLow.Some? <==> a < n - 1)
              && (r.value.prevHigh.Some? ==> IsMaxOver(Highs(bars), a, n - 1, r.value.prevHigh.value))
              && (r.value.prevLow.Some? ==> IsMinOver(Lows(bars), a, n - 1, r.value.prevLow.value))
              && (r.value.high <==> r.value.prevHigh.Some? && bars[n - 1].close > r.value.prevHigh.value)
              && (r.value.low <==> r.value.prevLow.Some? && bars[n - 1].close < r.value.prevLow.value)
  {
    if |bars| == 0 then Failure(IndexOutOfRange)
    else
      var prevHigh, prevLow := PriorHigh(bars, window), PriorLow(bars, window);
      var last := Some(bars[|bars| - 1].close);
      Success(Breakout(Exceeds(last, prevHigh), Exceeds(prevLow, last), prevHigh, prevLow))
  }

  /** Whatever the current bar is, the prior extrema stay the same: they are
      computed from the earlier bars only. */
  lemma BreakoutIgnoresCurrentBar(bars: seq<Bar>, other: seq<Bar>, window: nat)
    requires |bars| == |other| > 0
    requires bars[..|bars| - 1] == other[..|other| - 1]
    ensures DetectBreakout(bars, window).value.prevHigh == DetectBreakout(other, window).value.prevHigh
    ensures DetectBreakout(bars, window).value.prevLow == DetectBreakout(other, window).value.prevLow
  {
    var n := |bars|;
    assert forall i :: 0 <= i < n - 1 ==> bars[i] == bars[..n - 1][i] == other[i];
    var a, b := SliceIndex(n, -(window as int)), SliceIndex(n, -1);
    if a < b {
      assert Highs(bars)[a..b] == Highs(other)[a..b];
      assert Lows(bars)[a..b] == Lows(other)[a..b];
    }
  }

  /** When every bar has low <= high, one close cannot break out upwards and
      downwards at once. */
  lemma BreakoutDirectionsExclusive(bars: seq<Bar>, window: nat)
    requires |bars| > 0 && RangesOrdered(bars)
    ensures !(DetectBreakout(bars, window).value.high && DetectBreakout(bars, window).value.low)
  {

  }

  // ------------------------------------------------------- support / pullback

  /** The support level and the pullback band around it. */
  datatype Zone = Zone(support: real, low: real, high: real)

  /** `support_pullback_zone`: the last defined rolling minimum of the lows is the
      support, and the band is 1.5% either side of it. With fewer bars than the
      window, no rolling value is defined and taking the last one raises. */
  function SupportPullbackZone(bars: seq<Bar>, window: nat): (r: Result<Zone, Error>)
    requires window >= 1
    ensures r.Success? <==> |bars| >= window
    ensures r.Success? ==> IsMinOver(Lows(bars), |bars| - window, |bars|, r.value.support)
    ensures r.Success? ==> r.value.low == 0.985 * r.value.support && r.value.high == 1.015 * r.value.support
    ensures r.Success? && r.value.support >= 0.0 ==> r.value.low <= r.value.support <= r.value.high
  {
    var supports := DefinedValues(RollingMin(Lows(bars), window));
    LastSupport(Lows(bars), window);
    if |supports| == 0 then Failure(IndexOutOfRange)
    else
      var s := supports[|supports| - 1];
      Success(Zone(s, s * 0.985, s * 1.015))
  }

  /** The last defined rolling minimum is the smallest of the last `w` values,
      and there is none when fewer than `w` values exist. */
  lemma LastSupport(s: seq<real>, w: nat)
    requires w >= 1
    ensures var vs := DefinedValues(RollingMin(s, w));
            && (|vs| == 0 <==> |s| < w)
            && (|vs| > 0 ==> IsMinOver(s, |s| - w, |s|, vs[|vs| - 1]))
  {
    var xs := RollingMin(s, w);
    if |s| >= w {
      RollingMinAtLast(s, w);
      MinOfSlice(s, |s| - w, |s|);
    } else {
      assert forall i :: 0 <= i < |xs| ==> xs[i].None?;
    }
  }

  lemma RollingMinAtLast(s: seq<real>, w: nat)
    requires 1 <= w <= |s|
    ensures RollingMin(s, w)[|s| - 1] == Some(Min(s[|s| - w..|s|]))
  {
  }

  // ----------------------------------------------------------- candlesticks

  /** The candlestick labels, in the order the classifier tries them. */
  datatype Candle = BullishEngulfing | BearishEngulfing | Doji | Hammer | ShootingStar

  function CandleName(p: Candle): string
  {
    match p
    case BullishEngulfing => "Bullish Engulfing"
    case BearishEngulfing => "Bearish Engulfing"
    case Doji => "Doji"
    case Hammer => "Hammer"
    case ShootingStar => "Shooting Star"
  }

  function Abs(x: real): real
  {
    if x < 0.0 then -x else x
  }

  /** The condition under which a bar shows the pattern `p`. */
  predicate Matches(p: Candle, b: Bar)
  {
    var o, h, l, c := b.open, b.high, b.low, b.close;
    match p
    case BullishEngulfing => c > o && c - o > 2.0 * (o - l)
    case BearishEngulfing => o > c && o - c > 2.0 * (h - o)
    case Doji => Abs(c - o) < 0.002 * o
    case Hammer => c > o && h - c <= 0.1 * (c - o) && o - l >= 2.0 * (h - c)
    case ShootingStar => o > c && o - l <= 0.1 * (o - c) && h - c >= 2.0 * (o - l)
  }

  /** The order in which the patterns are tried. */
  const Priority: seq<Candle> := [BullishEngulfing, BearishEngulfing, Doji, Hammer, ShootingStar]

  /** Position of a pattern in `Priority`. */
  function Rank(p: Candle): (k: nat)
    ensures k < |Priority| && Priority[k] == p
  {
    match p
    case BullishEngulfing => 0
    case BearishEngulfing => 1
    case Doji => 2
    case Hammer => 3
    case ShootingStar => 4
  }

  /** Every pattern occurs in `Priority`, so a bar that matches none of its
      entries matches no pattern at all. */
  lemma PriorityCoversAll(b: Bar)
    ensures (forall j :: 0 <= j < |Priority| ==> !Matches(Priority[j], b)) ==> forall p: Candle :: !Matches(p, b)
  {
    if forall j :: 0 <= j < |Priority| ==> !Matches(Priority[j], b) {
      forall p: Candle
        ensures !Matches(p, b)
      {
        assert Priority[Rank(p)] == p;
      }
    }
  }

  /** The first pattern of `ps` that the bar shows. */
  function FirstMatch(b: Bar, ps: seq<Candle>): (r: Option<Candle>)
    ensures r.Some? ==> exists i :: 0 <= i < |ps| && ps[i] == r.value && Matches(r.value, b)
                                    && forall j :: 0 <= j < i ==> !Matches(ps[j], b)
    ensures r.None? <==> forall j :: 0 <= j < |ps| ==> !Matches(ps[j], b)
  {
    if |ps| == 0 then None
    else if Matches(ps[0], b) then Some(ps[0])
    else
      var r := FirstMatch(b, ps[1..]);
      assert r.Some? ==> exists i :: 1 <= i < |ps| && ps[i] == r.value && Matches(r.value, b)
                                     && forall j :: 0 <= j < i ==> !Matches(ps[j], b);
      r
  }

  /** The label of one bar: the highest-priority pattern it shows, if any. */
  function Classify(b: Bar): (r: Option<Candle>)
    ensures r.Some? ==> Matches(r.value, b)
    ensures r.Some? ==> forall p: Candle :: Rank(p) < Rank(r.value) ==> !Matches(p, b)
    ensures r.None? ==> forall p: Candle :: !Matches(p, b)
    ensures (forall p: Candle :: !Matches(p, b)) ==> r.None?
    ensures r == Some(BullishEngulfing) || r == Some(Hammer) ==> b.close > b.open
    ensures r == Some(BearishEngulfing) || r == Some(ShootingStar) ==> b.open > b.close
  {
    var r := FirstMatch(b, Priority);
    PriorityCoversAll(b);
    assert (forall p: Candle :: !Matches(p, b)) ==> forall j :: 0 <= j < |Priority| ==> !Matches(Priority[j], b);
    r
  }

  /** `detect_candle_pattern`: classifies the second-to-last bar; a series of
      fewer than two bars raises. */
  function CandlePattern(bars: seq<Bar>): (r: Result<Option<Candle>, Error>)
    ensures r.Failure? <==> |bars| < 2
    ensures r.Success? ==> r.value == Classify(bars[|bars| - 2])
  {
    if |bars| < 2 then Failure(IndexOutOfRange) else Success(Classify(bars[|bars| - 2]))
  }

  /** The label depends on the second-to-last bar alone. */
  lemma CandleReadsOnlyPreviousBar(bars: seq<Bar>, other: seq<Bar>)
    requires |bars| >= 2 && |other| >= 2
    requires bars[|bars| - 2] == other[|other| - 2]
    ensures CandlePattern(bars) == CandlePattern(other)
  {
  }

  /** A bar whose low is not above its close is never labelled "Shooting Star":
      its lower shadow measured from the open is at least the whole body. */
  lemma ShootingStarNeedsLowAboveClose(b: Bar)
    requires b.low <= b.close
    ensures Classify(b) != Some(ShootingStar)
  {
    if b.open > b.close {
      assert b.open - b.low >= b.open - b.close > 0.1 * (b.open - b.close);
    }
    assert !Matches(ShootingStar, b);
  }

  // ----------------------------------------------------------- chart pattern

  datatype Chart = DoubleBottom

  function ChartName(p: Chart): string
  {
    match p
    case DoubleBottom => "Double Bottom"
  }

  /** The close `k` bars back from the end: `close[-k]`. */
  function CloseBack(bars: seq<Bar>, k: nat): real
    requires 1 <= k <= |bars|
  {
    bars[|bars| - k].close
  }

  /** `detect_chart_pattern`, with Python's evaluation order: the chained
      comparison stops at its first false link, and `min` of an empty slice raises. */
  function ChartPattern(bars: seq<Bar>): (r: Result<Option<Chart>, Error>)
    ensures r.Failure? <==>
              || |bars| < 2
              || (|bars| == 2 && CloseBack(bars, 1) > CloseBack(bars, 2))
              || (|bars| == 3 && CloseBack(bars, 1) > CloseBack(bars, 2) > CloseBack(bars, 3))
    ensures r == Success(Some(DoubleBottom)) <==>
              && |bars| >= 4
              && CloseBack(bars, 1) > CloseBack(bars, 2) > CloseBack(bars, 3)
              && (|bars| >= 5 ==> CloseBack(bars, 4) <= CloseBack(bars, 5))
              && (|bars| >= 6 ==> CloseBack(bars, 4) <= CloseBack(bars, 6))
  {
    var closes := Slice(Closes(bars), -10, |bars|);
    var m := |closes|;
    LastTenCloses(bars);
    if m < 2 then Failure(IndexOutOfRange)
    else if !(closes[m - 1] > closes[m - 2]) then Success(None)
    else if m < 3 then Failure(IndexOutOfRange)
    else if !(closes[m - 2] > closes[m - 3]) then Success(None)
    else
      var earlier := Slice(closes, -6, -3);
      EarlierWindow(closes);
      if |earlier| == 0 then Failure(EmptyArgument)
      else if Min(earlier) == closes[m - 4] then Success(Some(DoubleBottom))
      else Success(None)
  }

  /** `close.values[-10:]`: the last (up to) ten closes, counted from the end
      exactly as in the whole series. */
  lemma LastTenCloses(bars: seq<Bar>)
    ensures var closes := Slice(Closes(bars), -10, |bars|);
            && |closes| == (if |bars| < 10 then |bars| else 10)
            && forall k :: 1 <= k <= |closes| ==> closes[|closes| - k] == CloseBack(bars, k)
  {
  }

  /** `min(closes[-6:-3]) == closes[-4]`: the slice is empty for three closes,
      and otherwise the test says `closes[-4]` is no larger than the (up to two)
      closes before it. */
  lemma EarlierWindow(closes: seq<real>)
    requires |closes| >= 3
    ensures var e, m := Slice(closes, -6, -3), |closes|;
            && (|e| == 0 <==> m == 3)
            && (|e| > 0 ==> (Min(e) == closes[m - 4] <==>
                              (m >= 5 ==> closes[m - 4] <= closes[m - 5])
                              && (m >= 6 ==> closes[m - 4] <= closes[m - 6])))
  {
    var e, m := Slice(closes, -6, -3), |closes|;
    if m >= 4 {
      var a := if m >= 6 then m - 6 else 0;
      assert e == closes[a..m - 3];
      assert e[|e| - 1] == closes[m - 4];
      if m >= 5 {
        assert closes[m - 5] == e[|e| - 2];
      }
      if m >= 6 {
        assert closes[m - 6] == e[0];
      }
    }
  }

  /** With at least six bars the pattern depends on the last six closes only. */
  lemma ChartReadsLastSixCloses(bars: seq<Bar>, other: seq<Bar>)
    requires |bars| >= 6 && |other| >= 6
    requires forall k :: 1 <= k <= 6 ==> CloseBack(bars, k) == CloseBack(other, k)
    ensures ChartPattern(bars) == ChartPattern(other)
  {
  }
}
