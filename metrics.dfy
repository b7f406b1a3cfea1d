/** Technical metrics over a candle series (app/process/metrics.py): moving averages, the 52-week
    range, dividend yield, the volume spike, golden and death crosses and the ordered signal list.
    Every metric degrades to None or false on insufficient data instead of failing. */
module Metrics {
  import opened Wrappers
  import opened Numeric
  import opened Models

  /** The candle DataFrame: its rows in ascending time order and which columns it carries. */
  datatype Frame = Frame(rows: seq<Candle>, hasClose: bool, hasHigh: bool, hasLow: bool, hasVolume: bool)

  type Window = w: int | w > 0 witness 1

  /** Configuration defaults: SMA windows, the dividend target and the volume-spike threshold. */
  const SmaWindows: seq<Window> := [20, 50, 200]
  const DividendTargetPct: real := 8.0
  const VolumeSpikeThreshold: real := 1.8

  /** Minimum and maximum candle counts of the 52-week range. */
  const RangeMinCandles: nat := 50
  const RangeMaxCandles: nat := 260
  const VolumeWindow: nat := 20
  const CrossMinCandles: nat := 200

  function Closes(rows: seq<Candle>): (r: seq<real>)
    ensures |r| == |rows| && forall i :: 0 <= i < |rows| ==> r[i] == rows[i].close
  {
    seq(|rows|, i requires 0 <= i < |rows| => rows[i].close)
  }

  function Highs(rows: seq<Candle>): (r: seq<real>)
    ensures |r| == |rows| && forall i :: 0 <= i < |rows| ==> r[i] == rows[i].high
  {
    seq(|rows|, i requires 0 <= i < |rows| => rows[i].high)
  }

  function Lows(rows: seq<Candle>): (r: seq<real>)
    ensures |r| == |rows| && forall i :: 0 <= i < |rows| ==> r[i] == rows[i].low
  {
    seq(|rows|, i requires 0 <= i < |rows| => rows[i].low)
  }

  function Volumes(rows: seq<Candle>): (r: seq<real>)
    ensures |r| == |rows| && forall i :: 0 <= i < |rows| ==> r[i] == rows[i].volume as real
  {
    seq(|rows|, i requires 0 <= i < |rows| => rows[i].volume as real)
  }

  /** The last value of pandas-ta's SMA of the given length: the mean of the trailing w values,
      undefined (None) while fewer than w values exist. */
  function SmaOf(xs: seq<real>, w: Window): (r: Option<real>)
    ensures r.Some? <==> |xs| >= w
    ensures r.Some? ==> r.value == Mean(xs[|xs| - w..])
  {
    if |xs| >= w then Some(Mean(xs[|xs| - w..])) else None
  }

  /** The SMA dictionary entry for one window. */
  function SmaAt(f: Frame, w: Window): Option<real> {
    if f.rows == [] || !f.hasClose then None else SmaOf(Closes(f.rows), w)
  }

  /** `dict.get(key)` on the SMA dictionary. */
  function Lookup(m: map<Window, Option<real>>, w: Window): Option<real> {
    if w in m then m[w] else None
  }

  /** calculate_sma: one entry per configured window. */
  method CalculateSma(f: Frame, windows: seq<Window>) returns (result: map<Window, Option<real>>)
    ensures result.Keys == set w | w in windows
    ensures forall w :: w in result ==> result[w] == SmaAt(f, w)
  {
    if f.rows == [] || !f.hasClose {
      return map w | w in windows :: None;
    }
    var closes := Closes(f.rows);
    result := map[];
    var i := 0;
    while i < |windows|
      invariant 0 <= i <= |windows|
      invariant result.Keys == set w | w in windows[..i]
      invariant forall w :: w in result ==> result[w] == SmaAt(f, w)
    {
      var w := windows[i];
      if |closes| >= w {
        result := result[w := Some(Mean(closes[|closes| - w..]))];
      } else {
        result := result[w := None];
      }
      assert windows[..i + 1] == windows[..i] + [w];
      i := i + 1;
    }
    assert windows[..i] == windows;
  }

  /** A moving average lies between the smallest and the largest value of its window. */
  lemma SmaBetween(xs: seq<real>, w: Window)
    requires |xs| >= w
    ensures MinOf(xs[|xs| - w..]) <= SmaOf(xs, w).value <= MaxOf(xs[|xs| - w..])
  {
    var t := xs[|xs| - w..];
    MeanBounds(t, MinOf(t), MaxOf(t));
  }

  /** SMA_w is absent exactly when there are fewer than w candles or no close column. */
  lemma SmaDefined(f: Frame, w: Window)
    ensures SmaAt(f, w).None? <==> (|f.rows| < w || !f.hasClose)
    ensures SmaAt(f, w).Some? ==> SmaAt(f, w) == SmaOf(Closes(f.rows), w)
  {
  }

  /** With fewer than 20 candles every configured SMA is None (for instance with 10 candles). */
  lemma ShortSeriesHasNoSma(f: Frame, w: Window)
    requires |f.rows| < 20 && w in SmaWindows
    ensures SmaAt(f, w) == None
  {
  }

  datatype Range52 = Range52(high: Option<real>, low: Option<real>, distLowPct: Option<real>, distHighPct: Option<real>)

  /** What the 52-week record says about the recent candles and the current price. */
  predicate RangeFacts(recent: seq<Candle>, price: real, r: Range52)
    requires r.high.Some? && r.low.Some?
  {
    && (forall i :: 0 <= i < |recent| ==> recent[i].high <= r.high.value && r.low.value <= recent[i].low)
    && (exists i :: 0 <= i < |recent| && recent[i].high == r.high.value)
    && (exists i :: 0 <= i < |recent| && recent[i].low == r.low.value)
    && (r.distLowPct.Some? <==> r.low.value > 0.0)
    && (r.distHighPct.Some? <==> price > 0.0)
    && (r.distLowPct.Some? ==> r.distLowPct.value == (price / r.low.value - 1.0) * 100.0)
    && (r.distHighPct.Some? ==> r.distHighPct.value == (r.high.value / price - 1.0) * 100.0)
  }

  /** calculate_52w_range over the most recent 260 candles (at least 50 are needed). */
  function Range52w(f: Frame, price: real): (r: Range52)
    ensures r.high.Some? <==> (f.hasHigh && f.hasLow && |f.rows| >= RangeMinCandles)
    ensures r.high.None? ==> r == Range52(None, None, None, None)
    ensures r.high.Some? ==> r.low.Some? && RangeFacts(Tail(f.rows, RangeMaxCandles), price, r)
  {
    var none := Range52(None, None, None, None);
    if f.rows == [] || !f.hasHigh || !f.hasLow then none
    else
      var recent := Tail(f.rows, RangeMaxCandles);
      if |recent| < RangeMinCandles then none
      else
        var hi := MaxOf(Highs(recent));
        var lo := MinOf(Lows(recent));
        Range52(Some(hi), Some(lo),
                if lo > 0.0 then Some((price / lo - 1.0) * 100.0) else None,
                if price > 0.0 then Some((hi / price - 1.0) * 100.0) else None)
  }

  /** A percentage distance (a / b - 1) * 100 is non-negative when 0 < b <= a. */
  lemma DistanceNonNegative(a: real, b: real)
    requires 0.0 < b <= a
    ensures (a / b - 1.0) * 100.0 >= 0.0
  {
    var q := a / b;
    assert q * b == a;
  }

  /** Both distances are non-negative whenever the price lies inside the range. */
  lemma RangeDistancesNonNegative(f: Frame, price: real)
    requires Range52w(f, price).high.Some?
    requires Range52w(f, price).low.value <= price <= Range52w(f, price).high.value
    ensures Range52w(f, price).distLowPct.Some? ==> Range52w(f, price).distLowPct.value >= 0.0
    ensures Range52w(f, price).distHighPct.Some? ==> Range52w(f, price).distHighPct.value >= 0.0
  {
    var r := Range52w(f, price);
    if r.distLowPct.Some? {
      DistanceNonNegative(price, r.low.value);
    }
    if r.distHighPct.Some? {
      DistanceNonNegative(r.high.value, price);
    }
  }

  /** calculate_dividend_yield: undefined for a non-positive price, else rounded to 2 places. */
  function DividendYield(divTtm: real, price: real): (r: Option<real>)
    ensures r.None? <==> price <= 0.0
    ensures r.Some? ==> -0.005 <= r.value - divTtm / price * 100.0 <= 0.005
  {
    if price <= 0.0 then None else Some(Round2(divTtm / price * 100.0))
  }

  /** 8 of dividends on a price of 100 yield exactly 8.0; 10 on 200 yield 5.0. */
  lemma DividendYieldExamples()
    ensures DividendYield(8.0, 100.0) == Some(8.0)
    ensures DividendYield(10.0, 200.0) == Some(5.0)
    ensures DividendYield(10.0, 0.0) == None
  {
    Round2Exact(800);
    Round2Exact(500);
  }

  /** calculate_volume_spike: the last volume exceeds threshold times the median of the last 20. */
  function VolumeSpike(f: Frame, threshold: real): bool {
    if f.rows == [] || !f.hasVolume || |f.rows| < VolumeWindow then false
    else
      var volumes := Volumes(f.rows);
      var median := Median(Tail(volumes, VolumeWindow));
      var last := volumes[|volumes| - 1];
      if median > 0.0 then last > median * threshold else false
  }

  /** A spike is exactly: a volume column, at least 20 candles, a positive median of the last 20
      volumes and a last volume above threshold times that median; so, for a threshold of at
      least 1, above the median itself. */
  lemma VolumeSpikeMeans(f: Frame, threshold: real)
    ensures VolumeSpike(f, threshold) <==>
      f.hasVolume && |f.rows| >= VolumeWindow
      && Median(Tail(Volumes(f.rows), VolumeWindow)) > 0.0
      && f.rows[|f.rows| - 1].volume as real > Median(Tail(Volumes(f.rows), VolumeWindow)) * threshold
    ensures VolumeSpike(f, threshold) && threshold >= 1.0 ==>
      f.rows[|f.rows| - 1].volume as real > Median(Tail(Volumes(f.rows), VolumeWindow))
  {
    if VolumeSpike(f, threshold) && threshold >= 1.0 {
      var m := Median(Tail(Volumes(f.rows), VolumeWindow));
      assert m * threshold >= m;
    }
  }

  /** A flat volume over the last 20 candles is never a spike for a threshold of at least 1. */
  lemma FlatVolumeNoSpike(f: Frame, threshold: real)
    requires threshold >= 1.0 && |f.rows| >= VolumeWindow
    requires forall i :: |f.rows| - VolumeWindow <= i < |f.rows| ==> f.rows[i].volume == f.rows[|f.rows| - 1].volume
    ensures !VolumeSpike(f, threshold)
  {
    var t := Tail(Volumes(f.rows), VolumeWindow);
    var v := f.rows[|f.rows| - 1].volume as real;
    MedianConstant(t, v);
    if v > 0.0 {
      assert v * threshold >= v;
    }
  }

  /** The cross checks read the close column only when the length and SMA guards pass. */
  predicate CrossReadsClose(f: Frame, sma: map<Window, Option<real>>) {
    f.hasClose || |f.rows| < CrossMinCandles || !Truthy(Lookup(sma, 50)) || !Truthy(Lookup(sma, 200))
  }

  /** The SMAs ending one sample earlier (pandas-ta's `iloc[-2]`); None where undefined. */
  function PrevSma(f: Frame, w: Window): Option<real>
    requires f.hasClose && |f.rows| > 0
  {
    SmaOf(Closes(f.rows)[..|f.rows| - 1], w)
  }

  /** _check_golden_cross: SMA50 was below SMA200 one sample ago and is above it now. An
      undefined (NaN) previous value makes the comparison false. */
  function GoldenCross(f: Frame, sma: map<Window, Option<real>>): bool
    requires CrossReadsClose(f, sma)
  {
    if |f.rows| < CrossMinCandles then false
    else if !Truthy(Lookup(sma, 50)) || !Truthy(Lookup(sma, 200)) then false
    else
      var p50 := PrevSma(f, 50);
      var p200 := PrevSma(f, 200);
      p50.Some? && p200.Some? && p50.value < p200.value
      && Lookup(sma, 50).value > Lookup(sma, 200).value
  }

  /** _check_death_cross: the mirror image of the golden cross. */
  function DeathCross(f: Frame, sma: map<Window, Option<real>>): bool
    requires CrossReadsClose(f, sma)
  {
    if |f.rows| < CrossMinCandles then false
    else if !Truthy(Lookup(sma, 50)) || !Truthy(Lookup(sma, 200)) then false
    else
      var p50 := PrevSma(f, 50);
      var p200 := PrevSma(f, 200);
      p50.Some? && p200.Some? && p50.value > p200.value
      && Lookup(sma, 50).value < Lookup(sma, 200).value
  }

  /** A cross needs both current SMAs and a defined SMA200 one sample earlier, hence at least
      201 candles; the two crosses never fire together. */
  lemma CrossFacts(f: Frame, sma: map<Window, Option<real>>)
    requires CrossReadsClose(f, sma)
    ensures GoldenCross(f, sma) || DeathCross(f, sma) ==>
      f.hasClose && |f.rows| > CrossMinCandles && Truthy(Lookup(sma, 50)) && Truthy(Lookup(sma, 200))
    ensures GoldenCross(f, sma) ==> Lookup(sma, 50).value > Lookup(sma, 200).value
    ensures DeathCross(f, sma) ==> Lookup(sma, 50).value < Lookup(sma, 200).value
    ensures !(GoldenCross(f, sma) && DeathCross(f, sma))
  {
  }

  /** Position of each flag in the fixed output order. */
  function Rank(s: SignalType): nat {
    match s
    case PriceBelowSma200 => 0
    case PriceAboveSma200 => 1
    case Sma50CrossUpSma200 => 2
    case Sma50CrossDownSma200 => 3
    case DyGtTarget => 4
    case VolSpike => 5
    case Near52wLow => 6
    case Near52wHigh => 7
  }

  /** Flags in strictly increasing output order, hence without repetition. */
  predicate Ranked(s: seq<SignalType>) {
    forall i, j :: 0 <= i < j < |s| ==> Rank(s[i]) < Rank(s[j])
  }

  /** One conditional append: [x] when the condition holds, nothing otherwise. */
  function Flag(b: bool, x: SignalType): seq<SignalType> {
    if b then [x] else []
  }

  /** The flag list generate_signals builds from its six conditions, in its order. */
  function Emit(below: bool, above: bool, up: bool, down: bool, dyHigh: bool, spike: bool): seq<SignalType> {
    Flag(below, PriceBelowSma200) + Flag(above, PriceAboveSma200) + Flag(up, Sma50CrossUpSma200)
    + Flag(down, Sma50CrossDownSma200) + Flag(dyHigh, DyGtTarget) + Flag(spike, VolSpike)
  }

  lemma FlagMember(s: seq<SignalType>, b: bool, x: SignalType, e: SignalType)
    ensures e in s + Flag(b, x) <==> e in s || (b && e == x)
  {
  }

  /** A flag is emitted exactly when its own condition holds. */
  lemma {:induction false} EmitMember(below: bool, above: bool, up: bool, down: bool, dyHigh: bool, spike: bool, e: SignalType)
    ensures e in Emit(below, above, up, down, dyHigh, spike) <==>
      (below && e == PriceBelowSma200) || (above && e == PriceAboveSma200) || (up && e == Sma50CrossUpSma200)
      || (down && e == Sma50CrossDownSma200) || (dyHigh && e == DyGtTarget) || (spike && e == VolSpike)
  {
    var s1 := Flag(below, PriceBelowSma200);
    FlagMember(s1, above, PriceAboveSma200, e);
    var s2 := s1 + Flag(above, PriceAboveSma200);
    FlagMember(s2, up, Sma50CrossUpSma200, e);
    var s3 := s2 + Flag(up, Sma50CrossUpSma200);
    FlagMember(s3, down, Sma50CrossDownSma200, e);
    var s4 := s3 + Flag(down, Sma50CrossDownSma200);
    FlagMember(s4, dyHigh, DyGtTarget, e);
    var s5 := s4 + Flag(dyHigh, DyGtTarget);
    FlagMember(s5, spike, VolSpike, e);
  }

  /** Appending a flag that ranks after every flag present keeps the order. */
  lemma RankedAppend(s: seq<SignalType>, b: bool, x: SignalType)
    requires Ranked(s) && forall e :: e in s ==> Rank(e) < Rank(x)
    ensures Ranked(s + Flag(b, x)) && forall e :: e in s + Flag(b, x) ==> Rank(e) <= Rank(x)
  {
    if b {
      forall i, j | 0 <= i < j < |s + [x]| ensures Rank((s + [x])[i]) < Rank((s + [x])[j]) {
        if j == |s| {
          assert (s + [x])[i] in s;
        }
      }
    }
  }

  /** The emitted flags follow the fixed order. */
  lemma {:induction false} EmitRanked(below: bool, above: bool, up: bool, down: bool, dyHigh: bool, spike: bool)
    ensures Ranked(Emit(below, above, up, down, dyHigh, spike))
  {
    var s1 := Flag(below, PriceBelowSma200);
    RankedAppend(s1, above, PriceAboveSma200);
    var s2 := s1 + Flag(above, PriceAboveSma200);
    RankedAppend(s2, up, Sma50CrossUpSma200);
    var s3 := s2 + Flag(up, Sma50CrossUpSma200);
    RankedAppend(s3, down, Sma50CrossDownSma200);
    var s4 := s3 + Flag(down, Sma50CrossDownSma200);
    RankedAppend(s4, dyHigh, DyGtTarget);
    var s5 := s4 + Flag(dyHigh, DyGtTarget);
    RankedAppend(s5, spike, VolSpike);
  }

  /** generate_signals: the flags that fire, each once, in the fixed order. The two 52-week
      flags are declared but never produced. */
  method GenerateSignals(price: real, sma: map<Window, Option<real>>, dy: Option<real>, f: Frame)
    returns (signals: seq<SignalType>)
    requires CrossReadsClose(f, sma)
    ensures PriceBelowSma200 in signals <==> Truthy(Lookup(sma, 200)) && price < Lookup(sma, 200).value
    ensures PriceAboveSma200 in signals <==> Truthy(Lookup(sma, 200)) && price > Lookup(sma, 200).value
    ensures Sma50CrossUpSma200 in signals <==> GoldenCross(f, sma)
    ensures Sma50CrossDownSma200 in signals <==> DeathCross(f, sma)
    ensures DyGtTarget in signals <==> Truthy(dy) && dy.value >= DividendTargetPct
    ensures VolSpike in signals <==> VolumeSpike(f, VolumeSpikeThreshold)
    ensures Near52wLow !in signals && Near52wHigh !in signals
    ensures Ranked(signals)
  {
    var sma200 := Lookup(sma, 200);
    var below := Truthy(sma200) && price < sma200.value;
    var above := Truthy(sma200) && price > sma200.value;
    var up := GoldenCross(f, sma);
    var down := DeathCross(f, sma);
    var dyHigh := Truthy(dy) && dy.value >= DividendTargetPct;
    var spike := VolumeSpike(f, VolumeSpikeThreshold);
    // Each `if condition: signals.append(flag)` of the source is one conditional append.
    signals := Flag(below, PriceBelowSma200);
    signals := signals + Flag(above, PriceAboveSma200);
    signals := signals + Flag(up, Sma50CrossUpSma200);
    signals := signals + Flag(down, Sma50CrossDownSma200);
    signals := signals + Flag(dyHigh, DyGtTarget);
    signals := signals + Flag(spike, VolSpike);
    assert signals == Emit(below, above, up, down, dyHigh, spike);
    EmitRanked(below, above, up, down, dyHigh, spike);
    EmitMember(below, above, up, down, dyHigh, spike, PriceBelowSma200);
    EmitMember(below, above, up, down, dyHigh, spike, PriceAboveSma200);
    EmitMember(below, above, up, down, dyHigh, spike, Sma50CrossUpSma200);
    EmitMember(below, above, up, down, dyHigh, spike, Sma50CrossDownSma200);
    EmitMember(below, above, up, down, dyHigh, spike, DyGtTarget);
    EmitMember(below, above, up, down, dyHigh, spike, VolSpike);
    EmitMember(below, above, up, down, dyHigh, spike, Near52wLow);
    EmitMember(below, above, up, down, dyHigh, spike, Near52wHigh);
  }

  datatype MetricsResult = MetricsResult(
    sma: map<Window, Option<real>>, range: Range52, divTtm: real, dyPct: Option<real>,
    signals: seq<SignalType>)

  /** calculate_all_metrics: every metric of one symbol, combined. */
  method CalculateAllMetrics(f: Frame, price: real, divTtm: real) returns (m: MetricsResult)
    ensures m.sma.Keys == set w | w in SmaWindows
    ensures forall w :: w in m.sma ==> m.sma[w] == SmaAt(f, w)
    ensures m.range == Range52w(f, price)
    ensures m.divTtm == divTtm && m.dyPct == DividendYield(divTtm, price)
    ensures CrossReadsClose(f, m.sma)
    ensures PriceBelowSma200 in m.signals <==> Truthy(Lookup(m.sma, 200)) && price < Lookup(m.sma, 200).value
    ensures PriceAboveSma200 in m.signals <==> Truthy(Lookup(m.sma, 200)) && price > Lookup(m.sma, 200).value
    ensures Sma50CrossUpSma200 in m.signals <==> GoldenCross(f, m.sma)
    ensures Sma50CrossDownSma200 in m.signals <==> DeathCross(f, m.sma)
    ensures DyGtTarget in m.signals <==> Truthy(m.dyPct) && m.dyPct.value >= DividendTargetPct
    ensures VolSpike in m.signals <==> VolumeSpike(f, VolumeSpikeThreshold)
    ensures Near52wLow !in m.signals && Near52wHigh !in m.signals
    ensures Ranked(m.signals)
  {
    var sma := CalculateSma(f, SmaWindows);
    var range := Range52w(f, price);
    var dy := DividendYield(divTtm, price);
    assert !f.hasClose ==> Lookup(sma, 50) == None;
    var signals := GenerateSignals(price, sma, dy, f);
    m := MetricsResult(sma, range, divTtm, dy, signals);
  }
}
