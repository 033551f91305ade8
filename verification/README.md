# Daily crypto alert: signal detection and change tracking, modelled in Dafny

This project models the decision logic of a daily alert job for a list of trading pairs. For each pair the job fetches
daily candles and runs the pattern detectors:

- a breakout test against the prior window's extrema;
- a support level with a ±1.5% pullback band;
- a five-way candlestick classifier;
- a simplified "Double Bottom" chart test;
- the 7/25/99-bar simple moving averages.

It composes the present fragments into one signal joined with `" | "` and alerts when that signal is non-empty and
differs from the one recorded at the start of the run. It then saves the old state overlaid with the new signals.

Modules, leaf first:

- `Wrappers`: `Option` (pandas NaN) and `Result` (a raised exception).
- `Series`: bars, error kinds, Python slicing with negative and clamped bounds, slice extrema and NaN-aware comparison.
- `Indicators`: sums and means. `RollingMean` is the reference for `rolling(k).mean()`. `RollingMeanScan` and
  `AddMas` compute it with a running window sum. `RollingMin` and `DefinedValues` give the support level.
- `Patterns`: `detect_breakout`, `support_pullback_zone`, `detect_candle_pattern`, `detect_chart_pattern`.
- `Composer`: the fragment list, its rendering and `join`.
- `Tracker`: the alert decision, the run as a fold over the evaluated pair list, and the final overlay.
- `DailyAlert`: per-symbol evaluation in the job's order, one whole run, and the notification text.

Prices are `real`. A value that pandas leaves NaN is `None`, and every comparison with it is false. Several things
come in as parameters:

- the bars fetched for each pair, or the fetch failure;
- the state loaded at the start of the run;
- the run's formatted time;
- the `"%.2f"` number formatting, as a function `fmt: real -> string`.

Behaviour of the code worth knowing:

- The breakout's prior window is `iloc[-window:-1]`. For the default window of 20 that is the 19 bars before the
  current one.
- The chart test raises for 0 or 1 bars. It also raises for 2 or 3 bars when the chained comparison reaches a
  missing close or an empty `min()`.
- Each entry of the pair list is compared with the state loaded at the start of the run. A symbol listed twice can
  therefore alert twice in one run (`Tracker.DuplicateSymbolAlertsTwice`).
- A rerun is quiet only when entries of the same symbol agree on their signal (`Tracker.RerunIsQuiet`).
- The notification is sent outside the per-symbol `try`. If sending raises, the job ends before the state file is
  written, and the next run alerts again (`DailyAlert.Written`, `DailyAlert.FailedDeliveryAlertsAgain`).
- For any bar whose low is not above its close, the "Shooting Star" condition as written cannot hold: the distance
  from open to low is at least the whole body. `Patterns.ShootingStarNeedsLowAboveClose` proves this about the
  code as written.

## Model

| member | source | states |
|---|---|---|
| `Indicators.AddMas` | utils.py:23-27 | MA7, MA25 and MA99 are, at every index, the trailing 7-, 25- and 99-close means of the reference definition |
| `Indicators.RollingMeanScan` | utils.py:24-26 | the one-pass running-sum computation yields, at every index, the trailing k-close mean, or undefined before the window fills |
| `Indicators.RollingMeanWarmUp` | utils.py:24-26 | MA_k at index i is undefined exactly when i < k-1; on a series shorter than k it is undefined everywhere, never a made-up number |
| `Indicators.RollingMeanBounded` | utils.py:24-26 | a defined MA_k at index i lies between the smallest and largest of closes i-k+1..i |
| `Indicators.RollingMean` | utils.py:24-26 | `rolling(k).mean()` gives one value per close; its warm-up and bounds are stated by `RollingMeanWarmUp` and `RollingMeanBounded`, and the one-pass computation is proved equal to it by `RollingMeanScan` |
| `Indicators.RollingMin` | utils.py:39 | `rolling(window).min()` gives one value per low; its last value is the lowest of the last window lows (`Patterns.LastSupport`) |
| `Indicators.DefinedValues` | utils.py:40 | the NaN filter keeps only defined values, is empty exactly when every value is undefined, and ends with the last value when that one is defined |
| `Indicators.DefinedValuesKeepsDefined` | utils.py:40 | every defined value of the series is kept by the filter |
| `Indicators.DefinedValuesAppend` | utils.py:40 | the filter of a concatenation is the filter of the first part followed by that of the second, so the defined values are kept in their order |
| `Series.Slice` | utils.py:31-32 | Python's `iloc[a:b]` and list slicing: negative bounds count from the end, bounds are clamped to the series, and crossed bounds give an empty slice (also used for the closes at utils.py:62-63) |
| `Patterns.PriorHigh` | utils.py:31 | the prior high is NaN exactly when the slice before the current bar is empty; otherwise it is attained in bars n-window..n-2 and bounds their highs |
| `Patterns.PriorLow` | utils.py:32 | the prior low is NaN exactly when that slice is empty; otherwise it is attained in bars n-window..n-2 and bounds their lows |
| `Patterns.DetectBreakout` | utils.py:30-35 | raises only on an empty series; breakout_high iff the last close exceeds a defined prior high, breakout_low iff it is below a defined prior low, with the extrema taken over bars n-window..n-2 |
| `Patterns.BreakoutIgnoresCurrentBar` | utils.py:31-32 | replacing the current bar never changes the prior high or low |
| `Patterns.BreakoutDirectionsExclusive` | utils.py:31-34 | when every bar has low <= high, breakout_high and breakout_low are never both true |
| `Patterns.LastSupport` | utils.py:39-41 | the last defined window-bar rolling minimum of the lows is the lowest of the last window lows, and with fewer bars there is none |
| `Patterns.SupportPullbackZone` | utils.py:38-43 | raises iff there are fewer bars than the window; the support is the lowest low of the last window bars; the band is (0.985·support, 1.015·support) and contains a non-negative support |
| `Patterns.FirstMatch` | utils.py:48-58 | the result is the first pattern in the list that the bar shows, and nothing exactly when it shows none |
| `Patterns.Classify` | utils.py:48-58 | at most one label: the shown pattern of highest priority (Bullish Engulfing, Bearish Engulfing, Doji, Hammer, Shooting Star), none iff no pattern holds; Bullish Engulfing and Hammer only when close > open, Bearish Engulfing and Shooting Star only when open > close |
| `Patterns.CandlePattern` | utils.py:46-47 | raises iff there are fewer than two bars, and otherwise classifies the bar at index -2 |
| `Patterns.CandleReadsOnlyPreviousBar` | utils.py:47 | two series with the same second-to-last bar get the same label |
| `Patterns.ShootingStarNeedsLowAboveClose` | utils.py:56-57 | a bar with low <= close is never labelled Shooting Star |
| `Patterns.EarlierWindow` | utils.py:63 | `min(closes[-6:-3]) == closes[-4]` raises only with three closes, and otherwise holds iff closes[-4] is no larger than closes[-5] and closes[-6] where they exist |
| `Patterns.ChartPattern` | utils.py:61-65 | raises exactly for fewer than 2 bars, or 2 or 3 bars whose chained comparison runs out of data; "Double Bottom" iff c[-1] > c[-2] > c[-3] and c[-4] <= c[-5] and c[-4] <= c[-6] (where present) |
| `Patterns.ChartReadsLastSixCloses` | utils.py:62-63 | with at least six bars, the chart label depends on the last six closes only |
| `Composer.Render` | daily_alert.py:45-55 | every fragment renders to a non-empty text |
| `Composer.Fragments` | daily_alert.py:42-55 | fragments follow the fixed order breakout-high, breakout-low, pullback, MA-uptrend, candle, chart, at most one of each; each is present iff its condition holds (inclusive band for pullback, strict NaN-false chain for MAs) and carries the readings' values |
| `Composer.Join` | daily_alert.py:57 | the joined text has the total length of the parts plus one separator between each pair and starts with the first part; joining nothing gives "" |
| `Composer.JoinAppend` | daily_alert.py:57 | appending a part to a non-empty list appends the separator and then the part, so every part and every separator sits in its place |
| `Composer.JoinEmptyIff` | daily_alert.py:57 | joining non-empty parts gives "" iff there are no parts |
| `Composer.CombinedSignal` | daily_alert.py:42-57 | the combined signal is empty iff no breakout, no pullback, no uptrend, no candle and no chart label |
| `Composer.CombinedLeadsWithFirstFragment` | daily_alert.py:57 | the combined signal starts with the text of its highest-priority fragment |
| `Tracker.ShouldAlert` | daily_alert.py:59-60 | a non-empty signal that is new or differs from the recorded one; its cases are fixed by `Tracker.UnchangedEmptyAndFailedAreSilent` and `Tracker.ChangedSignalAlerts` |
| `Tracker.Step` | daily_alert.py:59-63 | one entry adds exactly one line iff it alerts, never changes earlier lines, records only its own symbol and leaves every other record as it was |
| `Tracker.Run` | daily_alert.py:30-66 | at most one line per entry, and every recorded signal is one that should alert against the run-start state; the ordering and overlay facts are `RunAppend`, `RunLinesInOrder` and `RunRecorded` |
| `Tracker.Saved` | daily_alert.py:76 | the saved state has the old keys plus the new ones; new signals win, and every other old entry is kept |
| `Tracker.RunAppend` | daily_alert.py:30-63 | processing a list in two parts concatenates the alert lines and overlays the second part's records on the first |
| `Tracker.RunLinesInOrder` | daily_alert.py:59-62 | one line "SYMBOL: signal" per alerting entry, in pair-list order |
| `Tracker.RunRecorded` | daily_alert.py:59-63 | a symbol is recorded iff one of its entries has a non-empty signal that is new or differs from the run-start state, and it holds the last such entry's signal |
| `Tracker.RecordedNonEmpty` | daily_alert.py:59-63 | an empty signal is never recorded |
| `Tracker.SavedKeepsState` | daily_alert.py:76 | no key is removed, keys not recorded this run keep their old value, and a state without empty signals stays so |
| `Tracker.FailuresSkipped` | daily_alert.py:65-66 | entries whose processing raised add no line and no record, and processing goes on with the next entry |
| `Tracker.SavedHoldsSignals` | daily_alert.py:59-76 | when entries of a symbol agree, the saved state maps every symbol with a non-empty signal to that signal |
| `Tracker.QuietRun` | daily_alert.py:59-63 | a run in which no entry alerts yields no line and no record |
| `Tracker.RerunIsQuiet` | daily_alert.py:59-76 | rerunning the same signals against the saved state yields no line and leaves the state unchanged |
| `Tracker.DuplicateSymbolAlertsTwice` | daily_alert.py:59-63 | a symbol listed twice with different signals alerts twice; the later signal is recorded |
| `Tracker.UnchangedEmptyAndFailedAreSilent` | daily_alert.py:59-66 | an unchanged signal, a new symbol with an empty signal and a failed symbol give no line, and the state is saved unchanged |
| `Tracker.ChangedSignalAlerts` | daily_alert.py:59-63 | a changed signal gives exactly the line "AAA: <signal>" and replaces the recorded signal |
| `DailyAlert.ReadingsOf` | daily_alert.py:32-40 | a symbol's readings raise iff there are fewer than 20 bars; otherwise the price is the last close, MA7/MA25/MA99 are the trailing 7-, 25- and 99-close means (NaN before the window fills), and breakout, zone, candle and chart are the detectors' results on the bars with window 20, none of which raises |
| `DailyAlert.Assemble` | daily_alert.py:33-40 | with a full support window the breakout, candle and chart lookups cannot raise and give the detectors' results; the price is the last close and the MAs are the trailing means |
| `DailyAlert.LastMa` | daily_alert.py:34 | the moving average read at the last bar is defined iff there are at least k closes, and is then the mean of the last k closes |
| `DailyAlert.EvaluateAll` | daily_alert.py:30-32 | one evaluated entry per pair, in list order, each the symbol with its own processing result |
| `DailyAlert.Evaluate` | daily_alert.py:31-57 | a symbol's processing raises iff its fetch failed or it has fewer than 20 bars; otherwise it yields the combined signal of its readings |
| `DailyAlert.UptrendNeedsNinetyNineBars` | daily_alert.py:34-51 | with fewer than 99 bars MA99 is NaN, so the MA-uptrend fragment never appears |
| `DailyAlert.Message` | daily_alert.py:69-72 | a notification is produced iff there is at least one alert line; after the header with the run's time comes a blank line and then the alert lines joined by newlines |
| `DailyAlert.Written` | daily_alert.py:68-76 | the state reaches the file unless a notification was due and sending it raised; when written it is the merged state |
| `DailyAlert.FailedDeliveryAlertsAgain` | daily_alert.py:68-76 | after a failed delivery nothing is written, so the next run on the same data produces the same alert lines and a message again |
| `DailyAlert.DailyRun` | daily_alert.py:30-76 | a message is sent iff some line was produced, and the saved state keeps every old symbol |
| `DailyAlert.RerunSendsNothing` | daily_alert.py:30-76 | on the same fetched data, a second run against the first run's saved state sends nothing and saves the same state |
| `DailyAlert.BreakoutAndUptrendFragments` | daily_alert.py:44-51 | with only a breakout-high and an uptrend, the fragments are exactly those two, in that order |
| `DailyAlert.BreakoutAndUptrendText` | daily_alert.py:44-57 | with prior high 100.00, that signal reads "🚀 Breakout High $100.00 \| 🟢 MA Uptrend (MA7>25>99)" |

## Left out

- `get_klines` and `send_telegram`: HTTP requests and JSON/DataFrame decoding. The fetched bars (or the failure) are
  an input, and the message is an output.
- Reading `pairs.json` and reading and writing `signal_state.json`: file I/O. The pair list and the state are inputs,
  and the saved state is an output.
- The `config` import, the `datetime.now()` header time and the printed error text. The time is the `stamp` input,
  and an error is only its kind.
- `add_ema200` and `add_macd`: exponentially weighted floating-point recurrences that the alert job never calls.
- `add_rsi`, `add_bollinger_bands` and `add_adx`: not used by the alert job. They rely on divisions that can give
  infinity or NaN and on a sample standard deviation with a square root.
- `add_volume_ma`: not used by the alert job, and the same rolling mean as `Indicators.RollingMean`, applied to volume.
- The exact `"%.2f"` text is the parameter `fmt`. IEEE-754 rounding near comparison boundaries is not modelled,
  because prices are exact reals.
- NaN inside the fetched prices is not modelled: every bar field is a real number.
- Patterns.SupportPullbackZone: requires a window of at least 1, because the job only uses the default of 20 and
  pandas rolling windows of size 0 are not modelled.
- DailyAlert.DailyRun: always returns a merged state, but the job writes it only if sending the notification did not
  raise. `DailyAlert.Written` models that step; `DailyRun` and `RerunSendsNothing` assume the notification was sent.
- Tracker.RerunIsQuiet: requires that entries of one symbol agree on their non-empty signal. The code compares each
  entry with the run-start state, so a symbol listed twice with two different signals alerts again on the rerun.
