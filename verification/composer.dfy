/** The signal composer: one symbol's detector outputs become an ordered list
    of fragments, rendered and joined with " | " into the combined signal. */
module Composer {
  import opened Wrappers
  import opened Series
  import opened Patterns

  /** Everything the composer reads for one symbol. */
  datatype Readings = Readings(
    price: real,
    ma7: Option<real>, ma25: Option<real>, ma99: Option<real>,
    breakout: Breakout,
    zone: Zone,
    candle: Option<Candle>,
    chart: Option<Chart>)

  /** The six kinds of fragment, each carrying what its text shows. */
  datatype Fragment =
    | BreakoutHighFragment(prevHigh: Option<real>)
    | BreakoutLowFragment(prevLow: Option<real>)
    | PullbackFragment(low: real, high: real)
    | UptrendFragment
    | CandleFragment(candle: Candle)
    | ChartFragment(chart: Chart)

  /** The fixed place of each kind of fragment in a signal. */
  function Slot(f: Fragment): nat
  {
    match f
    case BreakoutHighFragment(_) => 0
    case BreakoutLowFragment(_) => 1
    case PullbackFragment(_, _) => 2
    case UptrendFragment => 3
    case CandleFragment(_) => 4
    case ChartFragment(_) => 5
  }

  predicate InPullbackZone(r: Readings)
  {
    r.zone.low <= r.price <= r.zone.high
  }

  /** `ma7 > ma25 > ma99`: a strict chain, false as soon as one average is NaN. */
  predicate MaUptrend(r: Readings)
  {
    Exceeds(r.ma7, r.ma25) && Exceeds(r.ma25, r.ma99)
  }

  /** Whether the readings call for the fragment in slot `k`. */
  predicate Wanted(r: Readings, k: nat)
  {
    match k
    case 0 => r.breakout.high
    case 1 => r.breakout.low
    case 2 => InPullbackZone(r)
    case 3 => MaUptrend(r)
    case 4 => r.candle.Some?
    case 5 => r.chart.Some?
    case _ => false
  }

  /** The fragment is called for by the readings and shows their values. */
  predicate Justified(f: Fragment, r: Readings)
  {
    && Wanted(r, Slot(f))
    && match f
       case BreakoutHighFragment(p) => p == r.breakout.prevHigh
       case BreakoutLowFragment(p) => p == r.breakout.prevLow
       case PullbackFragment(lo, hi) => lo == r.zone.low && hi == r.zone.high
       case UptrendFragment => true
       case CandleFragment(c) => Some(c) == r.candle
       case ChartFragment(c) => Some(c) == r.chart
  }

  /** The fragment for slot `k`, built from the readings. */
  function FragmentFor(r: Readings, k: nat): (f: Fragment)
    requires k < 6 && Wanted(r, k)
    ensures Slot(f) == k && Justified(f, r)
  {
    match k
    case 0 => BreakoutHighFragment(r.breakout.prevHigh)
    case 1 => BreakoutLowFragment(r.breakout.prevLow)
    case 2 => PullbackFragment(r.zone.low, r.zone.high)
    case 3 => UptrendFragment
    case 4 => CandleFragment(r.candle.value)
    case 5 => ChartFragment(r.chart.value)
  }

  /** `fs` lists fragments of slots `k` to 5 in increasing slot order, each
      called for by the readings, and holds every slot from `k` on that the
      readings call for. */
  predicate Arranged(fs: seq<Fragment>, r: Readings, k: nat)
  {
    && (forall i :: 0 <= i < |fs| ==> k <= Slot(fs[i]) && Justified(fs[i], r))
    && (forall i, j :: 0 <= i < j < |fs| ==> Slot(fs[i]) < Slot(fs[j]))
    && (forall m :: k <= m < 6 && Wanted(r, m) ==> exists f :: f in fs && Slot(f) == m)
  }

  /** The fragments of slots `k` to 5: each slot is checked in turn and its
      fragment appended when the readings call for it. */
  function FragmentsFrom(r: Readings, k: nat): (fs: seq<Fragment>)
    requires k <= 6
    ensures Arranged(fs, r, k)
    decreases 6 - k
  {
    if k == 6 then []
    else
      var rest := FragmentsFrom(r, k + 1);
      ArrangedStep(r, k, rest);
      if Wanted(r, k) then [FragmentFor(r, k)] + rest else rest
  }

  lemma ArrangedStep(r: Readings, k: nat, rest: seq<Fragment>)
    requires k < 6 && Arranged(rest, r, k + 1)
    ensures Wanted(r, k) ==> Arranged([FragmentFor(r, k)] + rest, r, k)
    ensures !Wanted(r, k) ==> Arranged(rest, r, k)
  {
    if Wanted(r, k) {
      var fs := [FragmentFor(r, k)] + rest;
      assert forall i :: 0 < i < |fs| ==> fs[i] == rest[i - 1];
    }
  }

  /** `signal_parts`: the fragment list of one symbol. Slots only increase
      along it, every fragment is called for by the readings and shows their
      values, and every slot the readings call for is present. */
  function Fragments(r: Readings): (fs: seq<Fragment>)
    ensures forall i, j :: 0 <= i < j < |fs| ==> Slot(fs[i]) < Slot(fs[j])
    ensures forall i :: 0 <= i < |fs| ==> Justified(fs[i], r)
    ensures forall k :: 0 <= k < 6 && Wanted(r, k) ==> exists f :: f in fs && Slot(f) == k
  {
    FragmentsFrom(r, 0)
  }

  /** Python's `f"{x:.2f}"`: `fmt` renders a number, and NaN renders as "nan". */
  function Price(fmt: real -> string, x: Option<real>): string
  {
    match x
    case Some(v) => fmt(v)
    case None => "nan"
  }

  /** The text of one fragment. */
  function Render(fmt: real -> string, f: Fragment): (t: string)
    ensures |t| > 0
  {
    match f
    case BreakoutHighFragment(p) => "\U{1F680} Breakout High $" + Price(fmt, p)
    case BreakoutLowFragment(p) => "\U{1F53B} Breakout Low $" + Price(fmt, p)
    case PullbackFragment(lo, hi) => "\U{1F4C9} Pullback zone $" + fmt(lo) + "–$" + fmt(hi)
    case UptrendFragment => "\U{1F7E2} MA Uptrend (MA7>25>99)"
    case CandleFragment(c) => "\U{1F56F}️ " + CandleName(c)
    case ChartFragment(c) => "\U{1F4D0} " + ChartName(c)
  }

  function RenderAll(fmt: real -> string, fs: seq<Fragment>): (ts: seq<string>)
    ensures |ts| == |fs|
    ensures forall i :: 0 <= i < |fs| ==> ts[i] == Render(fmt, fs[i])
  {
    seq(|fs|, i requires 0 <= i < |fs| => Render(fmt, fs[i]))
  }

  /** Total length of a list of strings. */
  function TotalLength(parts: seq<string>): nat
  {
    if |parts| == 0 then 0 else |parts[0]| + TotalLength(parts[1..])
  }

  /** Python's `sep.join(parts)`. */
  function Join(parts: seq<string>, sep: string): (r: string)
    ensures |parts| > 0 ==> |r| == TotalLength(parts) + (|parts| - 1) * |sep|
    ensures |parts| > 0 ==> r[..|parts[0]|] == parts[0]
    ensures |parts| == 0 ==> r == ""
  {
    if |parts| == 0 then ""
    else if |parts| == 1 then parts[0]
    else parts[0] + sep + Join(parts[1..], sep)
  }

  /** Joining non-empty parts gives the empty string exactly when there are no parts. */
  lemma JoinEmptyIff(parts: seq<string>, sep: string)
    requires forall i :: 0 <= i < |parts| ==> |parts[i]| > 0
    ensures Join(parts, sep) == "" <==> |parts| == 0
  {
    if |parts| > 0 {
      assert |Join(parts, sep)| >= |parts[0]|;
    }
  }

  /** Appending a part to a non-empty list appends the separator and the part:
      with `Join([p], sep) == p` this fixes every part and every separator in place. */
  lemma {:induction false} JoinAppend(parts: seq<string>, p: string, sep: string)
    requires |parts| > 0
    ensures Join(parts + [p], sep) == Join(parts, sep) + sep + p
    decreases |parts|
  {
    if |parts| == 1 {
      assert (parts + [p])[1..] == [p];
    } else {
      assert (parts + [p])[1..] == parts[1..] + [p];
      JoinAppend(parts[1..], p, sep);
    }
  }

  /** `" | ".join(signal_parts)`: the combined signal of one symbol. */
  function CombinedSignal(fmt: real -> string, r: Readings): (s: string)
    ensures s == "" <==> Quiet(r)
  {
    CombinedEmptyIffQuiet(fmt, r);
    Join(RenderAll(fmt, Fragments(r)), " | ")
  }

  /** No detector fired: no breakout, price outside the band, no uptrend, no labels. */
  predicate Quiet(r: Readings)
  {
    forall k :: 0 <= k < 6 ==> !Wanted(r, k)
  }

  /** The combined signal is empty exactly when no detector fired. */
  lemma CombinedEmptyIffQuiet(fmt: real -> string, r: Readings)
    ensures Join(RenderAll(fmt, Fragments(r)), " | ") == "" <==> Quiet(r)
  {
    var fs := Fragments(r);
    JoinEmptyIff(RenderAll(fmt, fs), " | ");
    if !Quiet(r) {
      var k :| 0 <= k < 6 && Wanted(r, k);
      assert |fs| > 0;
    }
    if |fs| > 0 {
      assert Justified(fs[0], r);
      assert Slot(fs[0]) < 6;
    }
  }

  /** The combined signal begins with its first fragment's text: the
      highest-priority present fragment leads. */
  lemma CombinedLeadsWithFirstFragment(fmt: real -> string, r: Readings)
    requires |Fragments(r)| > 0
    ensures var lead := Render(fmt, Fragments(r)[0]);
            CombinedSignal(fmt, r)[..|lead|] == lead
  {
  }
}
