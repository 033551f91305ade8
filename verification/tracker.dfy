/** The signal state tracker: one run folds over the evaluated pair list in
    order, compares each signal with the state loaded at the start of the run,
    collects the alert lines and the newly recorded signals, and overlays them
    on the old state. */
module Tracker {
  import opened Wrappers
  import opened Series

  /** One entry of the pair list after processing: its combined signal, or the
      exception that interrupted it. */
  datatype Evaluated = Evaluated(symbol: string, signal: Result<string, Error>)

  /** What a run has collected so far: `alert_lines` and `NEW_SIGNALS`. */
  datatype RunState = RunState(lines: seq<string>, recorded: map<string, string>)

  /** A non-empty signal that is new for the symbol or differs from its recorded one. */
  predicate ShouldAlert(symbol: string, combined: string, last: map<string, string>)
  {
    combined != "" && (symbol !in last || last[symbol] != combined)
  }

  predicate Alerts(e: Evaluated, last: map<string, string>)
  {
    e.signal.Success? && ShouldAlert(e.symbol, e.signal.value, last)
  }

  function AlertLine(symbol: string, combined: string): string
  {
    symbol + ": " + combined
  }

  /** Processing one entry: an alerting entry adds its line and records its
      signal; a failed, empty or unchanged one leaves everything as it was. */
  function Step(acc: RunState, e: Evaluated, last: map<string, string>): (r: RunState)
    ensures |r.lines| == |acc.lines| + (if Alerts(e, last) then 1 else 0)
    ensures r.lines[..|acc.lines|] == acc.lines
    ensures r.recorded.Keys == acc.recorded.Keys + (if Alerts(e, last) then {e.symbol} else {})
    ensures forall k :: k in acc.recorded && k != e.symbol ==> r.recorded[k] == acc.recorded[k]
  {
    if Alerts(e, last) then
      RunState(acc.lines + [AlertLine(e.symbol, e.signal.value)], acc.recorded[e.symbol := e.signal.value])
    else acc
  }

  /** The loop over the pair list, every entry judged against the run-start state `last`. */
  function Run(es: seq<Evaluated>, last: map<string, string>): (r: RunState)
    ensures |r.lines| <= |es|
    ensures forall k :: k in r.recorded ==> ShouldAlert(k, r.recorded[k], last)
    decreases |es|
  {
    if |es| == 0 then RunState([], map[])
    else Step(Run(es[..|es| - 1], last), es[|es| - 1], last)
  }

  /** `{**LAST_SIGNAL, **NEW_SIGNALS}`: the state written back at the end of a run. */
  function Saved(last: map<string, string>, recorded: map<string, string>): (s: map<string, string>)
    ensures s.Keys == last.Keys + recorded.Keys
    ensures forall k :: k in recorded ==> s[k] == recorded[k]
    ensures forall k :: k in last && k !in recorded ==> s[k] == last[k]
  {
    last + recorded
  }

  /** The alert lines of a list, entry by entry from the front. */
  function AlertLinesOf(es: seq<Evaluated>, last: map<string, string>): seq<string>
  {
    if |es| == 0 then []
    else (if Alerts(es[0], last) then [AlertLine(es[0].symbol, es[0].signal.value)] else [])
         + AlertLinesOf(es[1..], last)
  }

  /** A run over a concatenation is the two runs one after the other: lines
      are concatenated and the later run's records win. */
  lemma {:induction false} RunAppend(a: seq<Evaluated>, b: seq<Evaluated>, last: map<string, string>)
    ensures Run(a + b, last).lines == Run(a, last).lines + Run(b, last).lines
    ensures Run(a + b, last).recorded == Run(a, last).recorded + Run(b, last).recorded
    decreases |b|
  {
    if |b| == 0 {
      assert a + b == a;
    } else {
      var b', e := b[..|b| - 1], b[|b| - 1];
      assert (a + b)[..|a + b| - 1] == a + b';
      assert (a + b)[|a + b| - 1] == e;
      RunAppend(a, b', last);
      StepOverlay(Run(a + b', last), Run(a, last), Run(b', last), e, last);
    }
  }

  /** One step taken after a concatenated state is the step taken after its second part. */
  lemma StepOverlay(whole: RunState, left: RunState, right: RunState, e: Evaluated, last: map<string, string>)
    requires whole.lines == left.lines + right.lines
    requires whole.recorded == left.recorded + right.recorded
    ensures Step(whole, e, last).lines == left.lines + Step(right, e, last).lines
    ensures Step(whole, e, last).recorded == left.recorded + Step(right, e, last).recorded
  {
    if Alerts(e, last) {
      var line := AlertLine(e.symbol, e.signal.value);
      assert whole.lines + [line] == left.lines + (right.lines + [line]);
    }
  }

  /** One line per alerting entry, in the order of the pair list, each reading
      "SYMBOL: signal". */
  lemma {:induction false} RunLinesInOrder(es: seq<Evaluated>, last: map<string, string>)
    ensures Run(es, last).lines == AlertLinesOf(es, last)
    decreases |es|
  {
    if |es| > 0 {
      RunLinesInOrder(es[1..], last);
      assert es == [es[0]] + es[1..];
      RunAppend([es[0]], es[1..], last);
      assert [es[0]][..0] == [];
    }
  }

  /** A symbol is recorded exactly when one of its entries alerts, and it is
      recorded with the signal of the last such entry. */
  lemma RunRecorded(es: seq<Evaluated>, last: map<string, string>)
    ensures forall k :: k in Run(es, last).recorded <==>
                          exists i :: 0 <= i < |es| && Alerts(es[i], last) && es[i].symbol == k
    ensures forall k :: k in Run(es, last).recorded ==>
                          exists i :: 0 <= i < |es| && Alerts(es[i], last) && es[i].symbol == k
                                      && Run(es, last).recorded[k] == es[i].signal.value
                                      && forall j :: i < j < |es| ==> !(Alerts(es[j], last) && es[j].symbol == k)
  {
    RecordedKeys(es, last);
    RecordedValues(es, last);
  }

  lemma {:induction false} RecordedKeys(es: seq<Evaluated>, last: map<string, string>)
    ensures forall k :: k in Run(es, last).recorded <==>
                          exists i :: 0 <= i < |es| && Alerts(es[i], last) && es[i].symbol == k
    decreases |es|
  {
    if |es| > 0 {
      var n := |es|;
      var init := es[..n - 1];
      RecordedKeys(init, last);
      assert forall i :: 0 <= i < n - 1 ==> init[i] == es[i];
      forall k | exists i :: 0 <= i < n && Alerts(es[i], last) && es[i].symbol == k
        ensures k in Run(es, last).recorded
      {
        var i :| 0 <= i < n && Alerts(es[i], last) && es[i].symbol == k;
        if i < n - 1 {
          assert init[i] == es[i];
        }
      }
    }
  }

  lemma {:induction false} RecordedValues(es: seq<Evaluated>, last: map<string, string>)
    ensures forall k :: k in Run(es, last).recorded ==>
                          exists i :: 0 <= i < |es| && Alerts(es[i], last) && es[i].symbol == k
                                      && Run(es, last).recorded[k] == es[i].signal.value
                                      && forall j :: i < j < |es| ==> !(Alerts(es[j], last) && es[j].symbol == k)
    decreases |es|
  {
    if |es| > 0 {
      var n := |es|;
      var init, e := es[..n - 1], es[n - 1];
      RecordedValues(init, last);
      var before, after := Run(init, last).recorded, Run(es, last).recorded;
      forall k | k in after
        ensures exists i :: 0 <= i < n && Alerts(es[i], last) && es[i].symbol == k
                            && after[k] == es[i].signal.value
                            && forall j :: i < j < n ==> !(Alerts(es[j], last) && es[j].symbol == k)
      {
        if Alerts(e, last) && e.symbol == k {
          assert after[k] == e.signal.value;
        } else {
          var i :| 0 <= i < n - 1 && Alerts(init[i], last) && init[i].symbol == k
                   && before[k] == init[i].signal.value
                   && forall j :: i < j < n - 1 ==> !(Alerts(init[j], last) && init[j].symbol == k);
          assert es[i] == init[i];
          assert forall j :: i < j < n - 1 ==> es[j] == init[j];
        }
      }
    }
  }

  /** Every recorded signal is non-empty. */
  lemma RecordedNonEmpty(es: seq<Evaluated>, last: map<string, string>)
    ensures forall k :: k in Run(es, last).recorded ==> Run(es, last).recorded[k] != ""
  {
    RunRecorded(es, last);
  }

  /** The saved state loses no symbol, keeps the old signal of every symbol not
      recorded this run, and contains no empty signal if the old state had none. */
  lemma SavedKeepsState(es: seq<Evaluated>, last: map<string, string>)
    ensures var s := Saved(last, Run(es, last).recorded);
            && last.Keys <= s.Keys
            && (forall k :: k in last && k !in Run(es, last).recorded ==> s[k] == last[k])
            && ((forall k :: k in last ==> last[k] != "") ==> forall k :: k in s ==> s[k] != "")
  {
    RecordedNonEmpty(es, last);
  }

  /** The entries that did not raise, in order. */
  function Succeeded(es: seq<Evaluated>): (r: seq<Evaluated>)
    ensures forall i :: 0 <= i < |r| ==> r[i].signal.Success?
    ensures |r| <= |es|
  {
    if |es| == 0 then []
    else Succeeded(es[..|es| - 1]) + (if es[|es| - 1].signal.Success? then [es[|es| - 1]] else [])
  }

  /** An entry whose processing raised contributes nothing: the run over the
      whole list equals the run over the entries that succeeded. */
  lemma {:induction false} FailuresSkipped(es: seq<Evaluated>, last: map<string, string>)
    ensures Run(es, last) == Run(Succeeded(es), last)
    decreases |es|
  {
    if |es| > 0 {
      var init, e := es[..|es| - 1], es[|es| - 1];
      FailuresSkipped(init, last);
      var ok := Succeeded(init);
      if e.signal.Success? {
        assert Succeeded(es) == ok + [e];
        assert (ok + [e])[..|ok|] == ok;
        assert Run(ok + [e], last) == Step(Run(ok, last), e, last);
      } else {
        assert Succeeded(es) == ok;
      }
    }
  }

  /** Entries of one symbol that completed with a non-empty signal agree on it. */
  predicate Consistent(es: seq<Evaluated>)
  {
    forall i, j :: 0 <= i < |es| && 0 <= j < |es| && es[i].symbol == es[j].symbol
                   && es[i].signal.Success? && es[j].signal.Success?
                   && es[i].signal.value != "" && es[j].signal.value != ""
                   ==> es[i].signal.value == es[j].signal.value
  }

  /** After a run, the saved state holds every non-empty signal the run computed. */
  lemma SavedHoldsSignals(es: seq<Evaluated>, last: map<string, string>)
    requires Consistent(es)
    ensures var s := Saved(last, Run(es, last).recorded);
            forall i :: 0 <= i < |es| && es[i].signal.Success? && es[i].signal.value != "" ==>
                          es[i].symbol in s && s[es[i].symbol] == es[i].signal.value
  {
    var rec := Run(es, last).recorded;
    var s := Saved(last, rec);
    RunRecorded(es, last);
    forall i | 0 <= i < |es| && es[i].signal.Success? && es[i].signal.value != ""
      ensures es[i].symbol in s && s[es[i].symbol] == es[i].signal.value
    {
      var k := es[i].symbol;
      if k in rec {
        var i' :| 0 <= i' < |es| && Alerts(es[i'], last) && es[i'].symbol == k && rec[k] == es[i'].signal.value
                  && forall j :: i' < j < |es| ==> !(Alerts(es[j], last) && es[j].symbol == k);
        assert es[i'].signal.value == es[i].signal.value;
      } else {
        assert !Alerts(es[i], last);
      }
    }
  }

  /** A run in which no entry alerts collects nothing. */
  lemma {:induction false} QuietRun(es: seq<Evaluated>, last: map<string, string>)
    requires forall i :: 0 <= i < |es| ==> !Alerts(es[i], last)
    ensures Run(es, last) == RunState([], map[])
    decreases |es|
  {
    if |es| > 0 {
      QuietRun(es[..|es| - 1], last);
    }
  }

  /** Re-running with the same signals against the saved state alerts nothing
      and leaves the state as it is. */
  lemma RerunIsQuiet(es: seq<Evaluated>, last: map<string, string>)
    requires Consistent(es)
    ensures var s := Saved(last, Run(es, last).recorded);
            && Run(es, s).lines == []
            && Saved(s, Run(es, s).recorded) == s
  {
    var s := Saved(last, Run(es, last).recorded);
    SavedHoldsSignals(es, last);
    QuietRun(es, s);
  }

  /** Each entry is judged against the run-start state, not against what the
      run recorded: a symbol listed twice with two different signals alerts twice. */
  lemma DuplicateSymbolAlertsTwice()
    ensures Run([Evaluated("AAA", Success("x")), Evaluated("AAA", Success("y"))], map[]).lines
            == ["AAA: x", "AAA: y"]
    ensures Run([Evaluated("AAA", Success("x")), Evaluated("AAA", Success("y"))], map[]).recorded
            == map["AAA" := "y"]
  {
    var es := [Evaluated("AAA", Success("x")), Evaluated("AAA", Success("y"))];
    assert es[..1] == [Evaluated("AAA", Success("x"))];
    assert es[..1][..0] == [];
    assert AlertLine("AAA", "x") == "AAA: x";
    assert AlertLine("AAA", "y") == "AAA: y";
  }

  /** A symbol whose signal text is unchanged does not alert and the saved
      state stays as it was; a symbol whose processing raised is skipped; a
      new symbol with an empty signal gets no entry. */
  lemma UnchangedEmptyAndFailedAreSilent(previous: string, e: Error)
    requires previous != ""
    ensures var last := map["AAA" := previous];
            var es := [Evaluated("AAA", Success(previous)), Evaluated("BBB", Success("")), Evaluated("CCC", Failure(e))];
            && Run(es, last).lines == []
            && Saved(last, Run(es, last).recorded) == last
  {
    var last := map["AAA" := previous];
    var es := [Evaluated("AAA", Success(previous)), Evaluated("BBB", Success("")), Evaluated("CCC", Failure(e))];
    QuietRun(es, last);
  }

  /** A changed signal alerts with the line "AAA: <new signal>" and replaces
      the recorded one. */
  lemma ChangedSignalAlerts(previous: string, current: string)
    requires current != "" && current != previous
    ensures var last := map["AAA" := previous];
            var es := [Evaluated("AAA", Success(current))];
            && Run(es, last).lines == ["AAA: " + current]
            && Saved(last, Run(es, last).recorded) == map["AAA" := current]
  {
    var es := [Evaluated("AAA", Success(current))];
    assert es[..0] == [];
    assert Alerts(es[0], map["AAA" := previous]);
    assert AlertLine("AAA", current) == "AAA: " + current;
  }
}
