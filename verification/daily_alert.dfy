/** One run of the daily alert job: every listed symbol is evaluated in order,
    its combined signal is compared with the state loaded at the start of the
    run, and the run yields the alert lines, the notification text and the
    state to save. Fetching bars, sending the notification and reading or
    writing the state file happen outside: bars arrive as `fetched`, the state
    as `last`, the formatted time as `stamp`, and "%.2f" formatting as `fmt`. */
module DailyAlert {
  import opened Wrappers
  import opened Series
  import opened Indicators
  import opened Patterns
  import opened Composer
  import opened Tracker

  /** Default window of `detect_breakout`. */
  const BreakoutWindow: nat := 20

  /** Default window of `support_pullback_zone`. */
  const SupportWindow: nat := 20

  /** One entry of the pair list with the bars fetched for it (or the fetch failure). */
  datatype Pair = Pair(symbol: string, fetched: Result<seq<Bar>, Error>)

  /** What one run produces. */
  datatype Report = Report(lines: seq<string>, message: Option<string>, saved: map<string, string>)

  /** `df["MA<k>"].iloc[-1]`: the moving average at the last bar, defined once
      there are `k` closes. */
  function LastMa(closes: seq<real>, k: nat): (r: Option<real>)
    requires |closes| > 0 && k >= 1
    ensures r.Some? <==> |closes| >= k
    ensures |closes| >= k ==> r == Some(Mean(closes[|closes| - k..]))
  {
    RollingMeanWarmUp(closes, k);
    assert |closes| >= k ==> closes[|closes| - k..|closes|] == closes[|closes| - k..];
    RollingMean(closes, k)[|closes| - 1]
  }

  /** The trailing `k`-close mean at the last bar, or NaN before the window is full. */
  function TrailingMean(closes: seq<real>, k: nat): Option<real>
  {
    if |closes| >= k && k >= 1 then Some(Mean(closes[|closes| - k..])) else None
  }

  /** The detector outputs for one symbol, computed in the order the job
      computes them: an empty series fails at the moving-average lookup, and
      fewer bars than the support window fail at the support lookup. */
  function ReadingsOf(bars: seq<Bar>): (r: Result<Readings, Error>)
    ensures r.Failure? <==> |bars| < SupportWindow
    ensures r.Success? ==> r.value.price == bars[|bars| - 1].close
    ensures r.Success? ==> var closes := Closes(bars);
              && r.value.ma7 == TrailingMean(closes, 7)
              && r.value.ma25 == TrailingMean(closes, 25)
              && r.value.ma99 == TrailingMean(closes, 99)
    ensures r.Success? ==> && r.value.breakout == DetectBreakout(bars, BreakoutWindow).value
                           && r.value.zone == SupportPullbackZone(bars, SupportWindow).value
                           && Success(r.value.candle) == CandlePattern(bars)
                           && Success(r.value.chart) == ChartPattern(bars)
  {
    if |bars| == 0 then Failure(IndexOutOfRange)
    else
      match SupportPullbackZone(bars, SupportWindow)
      case Failure(e) => Failure(e)
      case Success(zone) => Success(Assemble(bars, zone))
  }

  /** The readings once the support zone is known; with a full support window
      none of the remaining detectors can raise. */
  function Assemble(bars: seq<Bar>, zone: Zone): (r: Readings)
    requires |bars| >= SupportWindow
    ensures r.price == bars[|bars| - 1].close
    ensures var closes := Closes(bars);
            && r.ma7 == TrailingMean(closes, 7)
            && r.ma25 == TrailingMean(closes, 25)
            && r.ma99 == TrailingMean(closes, 99)
    ensures r.zone == zone
    ensures && r.breakout == DetectBreakout(bars, BreakoutWindow).value
            && Success(r.candle) == CandlePattern(bars)
            && Success(r.chart) == ChartPattern(bars)
  {
    var closes, n := Closes(bars), |bars|;
    var ma7, ma25, ma99 := LastMa(closes, 7), LastMa(closes, 25), LastMa(closes, 99);
    var breakout := DetectBreakout(bars, BreakoutWindow).value;
    var candle := CandlePattern(bars).value;
    var chart := ChartPattern(bars).value;
    Readings(closes[n - 1], ma7, ma25, ma99, breakout, zone, candle, chart)
  }

  /** The combined signal of one symbol, or the exception its processing raised. */
  function Evaluate(fmt: real -> string, fetched: Result<seq<Bar>, Error>): (r: Result<string, Error>)
    ensures r.Failure? <==> fetched.Failure? || |fetched.value| < SupportWindow
    ensures r.Success? ==> r.value == CombinedSignal(fmt, ReadingsOf(fetched.value).value)
  {
    var bars :- fetched;
    var readings :- ReadingsOf(bars);
    Success(CombinedSignal(fmt, readings))
  }

  /** With fewer than 99 bars the 99-bar average is undefined, so the
      uptrend fragment cannot appear. */
  lemma UptrendNeedsNinetyNineBars(bars: seq<Bar>)
    requires SupportWindow <= |bars| < 99
    ensures !MaUptrend(ReadingsOf(bars).value)
  {
  }

  function EvaluateAll(fmt: real -> string, pairs: seq<Pair>): (es: seq<Evaluated>)
    ensures |es| == |pairs|
    ensures forall i :: 0 <= i < |pairs| ==> es[i] == Evaluated(pairs[i].symbol, Evaluate(fmt, pairs[i].fetched))
  {
    seq(|pairs|, i requires 0 <= i < |pairs| => Evaluated(pairs[i].symbol, Evaluate(fmt, pairs[i].fetched)))
  }

  /** The notification: a header with the run's time and one line per alert;
      nothing is sent when there is no alert. */
  function Message(stamp: string, lines: seq<string>): (m: Option<string>)
    ensures m.None? <==> |lines| == 0
    ensures m.Some? ==> var h := Header(stamp);
              && |h| <= |m.value|
              && m.value[..|h|] == h
              && m.value[|h|..] == Join(lines, "\n")
  {
    if |lines| == 0 then None
    else Some(Header(stamp) + Join(lines, "\n"))
  }

  /** The header line with the run's time, followed by a blank line. */
  function Header(stamp: string): string
  {
    "\U{1F4CA} [ALERT - " + stamp + "] \U{1F514}\n" + "\n"
  }

  /** One run of the job over the pair list against the state `last`. */
  function DailyRun(fmt: real -> string, stamp: string, pairs: seq<Pair>, last: map<string, string>): (r: Report)
    ensures r.message.None? <==> |r.lines| == 0
    ensures last.Keys <= r.saved.Keys
  {
    var run := Run(EvaluateAll(fmt, pairs), last);
    Report(run.lines, Message(stamp, run.lines), Saved(last, run.recorded))
  }

  /** The state that reaches the state file. The notification is sent outside
      the per-symbol `try`, so when sending raises (`delivered` is false) the job
      stops before writing and the file keeps the state of the previous run.
      With no alert line nothing is sent and the state is always written. */
  function Written(r: Report, delivered: bool): (s: Option<map<string, string>>)
    ensures s.None? <==> r.message.Some? && !delivered
    ensures s.Some? ==> s.value == r.saved
  {
    if r.message.Some? && !delivered then None else Some(r.saved)
  }

  /** A failed delivery leaves the old state in place, so the next run on the
      same data alerts with the same lines again. */
  lemma FailedDeliveryAlertsAgain(fmt: real -> string, stamp: string, stamp': string, pairs: seq<Pair>, last: map<string, string>)
    requires DailyRun(fmt, stamp, pairs, last).message.Some?
    ensures Written(DailyRun(fmt, stamp, pairs, last), false) == None
    ensures var next := DailyRun(fmt, stamp', pairs, last);
            next.lines == DailyRun(fmt, stamp, pairs, last).lines && next.message.Some?
  {
  }

  /** Entries of one symbol carry the same fetched bars. */
  predicate SameDataPerSymbol(pairs: seq<Pair>)
  {
    forall i, j :: 0 <= i < |pairs| && 0 <= j < |pairs| && pairs[i].symbol == pairs[j].symbol
                   ==> pairs[i].fetched == pairs[j].fetched
  }

  /** Running the job again on the same data, against the state the first run
      saved, sends nothing and saves the same state. */
  lemma RerunSendsNothing(fmt: real -> string, stamp: string, stamp': string, pairs: seq<Pair>, last: map<string, string>)
    requires SameDataPerSymbol(pairs)
    ensures var first := DailyRun(fmt, stamp, pairs, last);
            var second := DailyRun(fmt, stamp', pairs, first.saved);
            second.lines == [] && second.message == None && second.saved == first.saved
  {
    var es := EvaluateAll(fmt, pairs);
    assert Consistent(es);
    RerunIsQuiet(es, last);
  }

  /** Readings with an upward breakout and an uptrend, and nothing else, give
      exactly those two fragments, in that order. */
  lemma BreakoutAndUptrendFragments(r: Readings)
    requires r.breakout.high && !r.breakout.low
    requires !InPullbackZone(r) && MaUptrend(r) && r.candle.None? && r.chart.None?
    ensures Fragments(r) == [BreakoutHighFragment(r.breakout.prevHigh), UptrendFragment]
  {
    assert FragmentsFrom(r, 4) == [] by {
      assert FragmentsFrom(r, 5) == [];
    }
    assert FragmentsFrom(r, 2) == [UptrendFragment] by {
      assert FragmentsFrom(r, 3) == [UptrendFragment];
    }
    assert FragmentsFrom(r, 1) == [UptrendFragment];
  }

  lemma JoinPair(a: string, b: string, sep: string)
    ensures Join([a, b], sep) == a + sep + b
  {
    assert [a, b][1..] == [b];
  }

  /** The text of a breakout-high fragment followed by the uptrend fragment. */
  lemma TwoFragmentText(fmt: real -> string, fs: seq<Fragment>)
    requires fmt(100.0) == "100.00"
    requires fs == [BreakoutHighFragment(Some(100.0)), UptrendFragment]
    ensures Join(RenderAll(fmt, fs), " | ") == "\U{1F680} Breakout High $100.00 | \U{1F7E2} MA Uptrend (MA7>25>99)"
  {
    var high := "\U{1F680} Breakout High $100.00";
    var up := "\U{1F7E2} MA Uptrend (MA7>25>99)";
    var texts := RenderAll(fmt, fs);
    assert texts == [high, up] by {
      assert texts[0] == high;
      assert texts[1] == up;
    }
    JoinPair(high, up, " | ");
    SignalLiteral();
  }

  lemma SignalLiteral()
    ensures "\U{1F680} Breakout High $100.00" + " | " + "\U{1F7E2} MA Uptrend (MA7>25>99)"
            == "\U{1F680} Breakout High $100.00 | \U{1F7E2} MA Uptrend (MA7>25>99)"
  {
  }

  /** The text of such a signal when the prior high formats as "100.00". */
  lemma BreakoutAndUptrendText(fmt: real -> string, r: Readings)
    requires fmt(100.0) == "100.00"
    requires r.breakout == Breakout(true, false, Some(100.0), Some(90.0))
    requires !InPullbackZone(r) && MaUptrend(r) && r.candle.None? && r.chart.None?
    ensures CombinedSignal(fmt, r) == "\U{1F680} Breakout High $100.00 | \U{1F7E2} MA Uptrend (MA7>25>99)"
  {
    BreakoutAndUptrendFragments(r);
    TwoFragmentText(fmt, Fragments(r));
  }
}
