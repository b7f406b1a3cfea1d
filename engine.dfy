/** The rule engine (app/reco/engine.py): an additive score over five groups of rules, then
    first-match thresholds for the action, the confidence and the sizing hint. */
module Engine {
  import opened Wrappers
  import opened Numeric
  import opened RecoModels

  /** pct_diff: the relative difference in percent, 0.0 when it is undefined. */
  function PctDiff(current: Option<real>, reference: Option<real>): (r: real)
    ensures current.None? || reference.None? || reference.value == 0.0 ==> r == 0.0
    ensures current.Some? && reference.Some? && reference.value != 0.0 ==>
              r * reference.value == (current.value - reference.value) * 100.0
  {
    if current.None? || reference.None? || reference.value == 0.0 then 0.0
    else (current.value - reference.value) / reference.value * 100.0
  }

  /** Against a positive reference the difference is negative exactly when current is below it. */
  lemma PctDiffSign(current: real, reference: real)
    requires reference > 0.0
    ensures PctDiff(Some(current), Some(reference)) < 0.0 <==> current < reference
    ensures PctDiff(Some(current), Some(reference)) == 0.0 <==> current == reference
  {
    var d := PctDiff(Some(current), Some(reference));
    assert d * reference == (current - reference) * 100.0;
    if d < 0.0 {
      assert d * reference < 0.0;
    } else if d > 0.0 {
      assert d * reference > 0.0;
    }
  }

  /** What one group of rules contributes: a score change, its reasons and its confidence factors. */
  datatype Part = Part(delta: real, reasons: seq<Reason>, factors: seq<real>)

  const NoPart: Part := Part(0.0, [], [])

  function Combine(a: Part, b: Part): Part {
    Part(a.delta + b.delta, a.reasons + b.reasons, a.factors + b.factors)
  }

  /** Rule group 1: the dividend yield. */
  function DividendPart(t: TickerSnapshot, c: RecoConfig): Part {
    if t.dyPct.None? then NoPart
    else
      var dy := t.dyPct.value;
      if dy >= c.dyBuyMin then
        if dy >= c.dyVeryHigh then Part(2.0, [DividendsAtLeast(dy, c.dyBuyMin), VeryHighDividends(dy)], [1.0, 1.0])
        else Part(1.5, [DividendsAtLeast(dy, c.dyBuyMin)], [1.0])
      else if dy < c.dyBuyMin * 0.5 then Part(-0.5, [LowDividends(dy)], [])
      else NoPart
  }

  /** Rule group 2: the position of the price against SMA200, when both are non-zero. */
  function Sma200Part(t: TickerSnapshot, c: RecoConfig): Part {
    if !Truthy(t.sma200) || t.price == 0.0 then NoPart
    else
      var d := PctDiff(Some(t.price), t.sma200);
      if d <= c.maxDiscountVsSma200 then Part(1.0, [DiscountToSma200(d)], [1.0])
      else if d >= c.minPremiumVsSma200 then Part(-1.0, [PremiumToSma200(d)], [1.0])
      else Part(0.0, [NearSma200(d)], [])
  }

  /** Rule group 3: the 20-day trend. */
  function TrendPart(t: TickerSnapshot, c: RecoConfig): Part {
    if t.trendPct20d.None? then NoPart
    else
      var tr := t.trendPct20d.value;
      if tr >= c.trendUpMin then Part(0.8, [TrendUp(tr)], [1.0])
      else if tr <= c.trendDownMax then Part(-0.8, [TrendDown(tr)], [1.0])
      else NoPart
  }

  /** Rule group 4: where the price sits inside a non-empty 52-week range. */
  function RangePart(t: TickerSnapshot, c: RecoConfig): Part {
    if !Truthy(t.high52w) || !Truthy(t.low52w) || t.price == 0.0 then NoPart
    else
      var range := t.high52w.value - t.low52w.value;
      if range <= 0.0 then NoPart
      else
        var pos := (t.price - t.low52w.value) / range;
        if pos < c.near52wLowThreshold then Part(0.5, [LowerThirdOf52w(pos)], [0.5])
        else if pos > c.near52wHighThreshold then Part(-0.5, [NearTopOf52w(pos)], [0.5])
        else NoPart
  }

  const PositiveSignals: seq<string> := ["PRICE_BELOW_SMA200", "SMA50_CROSS_UP_SMA200", "DY_GT_TARGET", "NEAR_52W_LOW"]
  const NegativeSignals: seq<string> := ["PRICE_ABOVE_SMA200", "SMA50_CROSS_DOWN_SMA200", "NEAR_52W_HIGH"]

  /** Rule group 5, one signal: +0.3 for a listed positive, -0.3 for a listed negative. */
  function SignalPart(s: string): Part {
    if s in PositiveSignals then Part(0.3, [], [0.3])
    else if s in NegativeSignals then Part(-0.3, [], [0.3])
    else NoPart
  }

  /** Rule group 5 over the whole list, one signal after the other. */
  function SignalsPart(ss: seq<string>): Part {
    if ss == [] then NoPart else Combine(SignalsPart(ss[..|ss| - 1]), SignalPart(ss[|ss| - 1]))
  }

  /** All five groups in the order make_reco applies them. */
  function Rules(t: TickerSnapshot, c: RecoConfig): Part {
    Combine(Combine(Combine(Combine(DividendPart(t, c), Sma200Part(t, c)), TrendPart(t, c)), RangePart(t, c)),
            SignalsPart(t.signals))
  }

  function ActionFor(score: real, c: RecoConfig): Action {
    if score >= c.buyScoreCutoff then Buy
    else if score <= c.sellScoreCutoff then Sell
    else Hold
  }

  function ConfidenceFor(confidenceScore: real): Confidence {
    if confidenceScore >= 3.0 then High
    else if confidenceScore >= 1.5 then Medium
    else Low
  }

  const HintDouble: string := "Увеличить позицию до 2× от базовой"
  const HintOneAndHalf: string := "Увеличить позицию до 1.5× от базовой"
  const HintBase: string := "Базовая доля (1×)"
  const HintClose: string := "Закрыть позицию полностью"
  const HintHalf: string := "Сократить позицию на 50%"
  const HintQuarter: string := "Сократить позицию на 25%"

  /** _sizing_hint, evaluated on the unrounded score. */
  function SizingHint(action: Action, t: TickerSnapshot, c: RecoConfig, score: real): (r: Option<string>)
    ensures r.None? <==> action == Hold
    ensures action == Buy ==> r.value in {HintDouble, HintOneAndHalf, HintBase}
    ensures action == Sell ==> r.value in {HintClose, HintHalf, HintQuarter}
  {
    match action
    case Buy =>
      if score >= 4.0 then Some(HintDouble)
      else if Truthy(t.sma200) && t.price != 0.0 && t.price < 0.9 * t.sma200.value
              && Truthy(t.dyPct) && t.dyPct.value >= 12.0 then Some(HintOneAndHalf)
      else Some(HintBase)
    case Sell =>
      if score <= -4.0 then Some(HintClose)
      else if score <= -3.0 then Some(HintHalf)
      else Some(HintQuarter)
    case Hold => None
  }

  /** The recommendation make_reco returns: action, confidence and hint come from the unrounded
      score and only the returned score is rounded to 2 places. */
  function RecoOf(t: TickerSnapshot, c: RecoConfig): Recommendation {
    var p := Rules(t, c);
    var action := ActionFor(p.delta, c);
    Recommendation(action, Round2(p.delta), p.reasons, SizingHint(action, t, c, p.delta), ConfidenceFor(Sum(p.factors)))
  }

  /** The dividend rule: +2.0 (1.5 plus the very-high bonus, only reachable inside that branch),
      +1.5, -0.5 below half the minimum, and nothing in between or without a yield. */
  lemma DividendRule(t: TickerSnapshot, c: RecoConfig)
    ensures t.dyPct.None? ==> DividendPart(t, c) == NoPart
    ensures t.dyPct.Some? ==>
      var dy, p := t.dyPct.value, DividendPart(t, c);
      && (p.delta == 2.0 <==> dy >= c.dyBuyMin && dy >= c.dyVeryHigh)
      && (p.delta == 1.5 <==> dy >= c.dyBuyMin && dy < c.dyVeryHigh)
      && (p.delta == -0.5 <==> dy < c.dyBuyMin && dy < c.dyBuyMin * 0.5)
      && (p.delta == 0.0 <==> c.dyBuyMin * 0.5 <= dy < c.dyBuyMin)
      && (p.delta > 0.0 ==> |p.factors| == |p.reasons|)
  {
  }

  /** The SMA200 rule: with a non-zero SMA200 and price it gives exactly one reason and moves the
      score by +1, -1 or 0 by the discount and premium thresholds; otherwise it does nothing. */
  lemma Sma200Rule(t: TickerSnapshot, c: RecoConfig)
    ensures !Truthy(t.sma200) || t.price == 0.0 ==> Sma200Part(t, c) == NoPart
    ensures Truthy(t.sma200) && t.price != 0.0 ==>
      var d, p := PctDiff(Some(t.price), t.sma200), Sma200Part(t, c);
      && |p.reasons| == 1
      && (p.delta == 1.0 <==> d <= c.maxDiscountVsSma200)
      && (p.delta == -1.0 <==> d > c.maxDiscountVsSma200 && d >= c.minPremiumVsSma200)
      && (p.delta == 0.0 <==> c.maxDiscountVsSma200 < d < c.minPremiumVsSma200)
  {
  }

  /** The 52-week rule only acts on a non-empty range, by +0.5 exactly when the position in the
      range is below the low threshold and by -0.5 exactly when it is not and is above the high
      one. */
  lemma RangeRule(t: TickerSnapshot, c: RecoConfig)
    ensures RangePart(t, c) != NoPart ==>
      Truthy(t.high52w) && Truthy(t.low52w) && t.price != 0.0 && t.high52w.value > t.low52w.value
    ensures RangePart(t, c).delta in {0.5, -0.5, 0.0}
    ensures RangePart(t, c).delta == 0.0 <==> RangePart(t, c) == NoPart
    ensures RangePart(t, c).delta == 0.5 <==>
      Truthy(t.high52w) && Truthy(t.low52w) && t.price != 0.0 && t.high52w.value - t.low52w.value > 0.0
      && (t.price - t.low52w.value) / (t.high52w.value - t.low52w.value) < c.near52wLowThreshold
    ensures RangePart(t, c).delta == -0.5 <==>
      Truthy(t.high52w) && Truthy(t.low52w) && t.price != 0.0 && t.high52w.value - t.low52w.value > 0.0
      && (t.price - t.low52w.value) / (t.high52w.value - t.low52w.value) >= c.near52wLowThreshold
      && (t.price - t.low52w.value) / (t.high52w.value - t.low52w.value) > c.near52wHighThreshold
  {
  }

  /** The signal rule never adds a reason, and each contributing signal adds one factor of 0.3. */
  lemma {:induction false} SignalsRule(ss: seq<string>)
    ensures SignalsPart(ss).reasons == []
    ensures forall k :: 0 <= k < |SignalsPart(ss).factors| ==> SignalsPart(ss).factors[k] == 0.3
    ensures -0.3 * |ss| as real <= SignalsPart(ss).delta <= 0.3 * |ss| as real
  {
    if ss != [] {
      SignalsRule(ss[..|ss| - 1]);
    }
  }

  /** A listed positive signal adds 0.3, a listed negative one subtracts 0.3, and an unlisted
      signal changes neither score nor confidence. */
  lemma SignalAppended(ss: seq<string>, s: string)
    ensures s in PositiveSignals ==> SignalsPart(ss + [s]).delta == SignalsPart(ss).delta + 0.3
    ensures s in NegativeSignals ==> SignalsPart(ss + [s]).delta == SignalsPart(ss).delta - 0.3
    ensures s !in PositiveSignals && s !in NegativeSignals ==> SignalsPart(ss + [s]) == SignalsPart(ss)
  {
    assert (ss + [s])[..|ss|] == ss;
  }

  /** The action follows the thresholds on the unrounded score; HOLD carries no sizing hint. */
  lemma RecoThresholds(t: TickerSnapshot, c: RecoConfig)
    ensures RecoOf(t, c).action == Buy <==> Rules(t, c).delta >= c.buyScoreCutoff
    ensures RecoOf(t, c).action == Sell <==> Rules(t, c).delta < c.buyScoreCutoff && Rules(t, c).delta <= c.sellScoreCutoff
    ensures RecoOf(t, c).action == Hold <==> c.sellScoreCutoff < Rules(t, c).delta < c.buyScoreCutoff
    ensures RecoOf(t, c).confidence == High <==> Sum(Rules(t, c).factors) >= 3.0
    ensures RecoOf(t, c).confidence == Low <==> Sum(Rules(t, c).factors) < 1.5
    ensures RecoOf(t, c).sizingHint.None? <==> RecoOf(t, c).action == Hold
    ensures -0.005 <= RecoOf(t, c).score - Rules(t, c).delta <= 0.005
  {
  }

  /** A sell of at most -4.0 closes the position, between -4.0 and -3.0 halves it, otherwise a
      quarter; a buy of at least 4.0 doubles the base, a weaker one takes 1.5 times the base at a
      discount of more than 10% to a known SMA200 with a dividend yield of at least 12%, and the
      base otherwise. */
  lemma SizingThresholds(t: TickerSnapshot, c: RecoConfig, score: real)
    ensures SizingHint(Sell, t, c, score) == Some(HintClose) <==> score <= -4.0
    ensures SizingHint(Sell, t, c, score) == Some(HintHalf) <==> -4.0 < score <= -3.0
    ensures SizingHint(Sell, t, c, score) == Some(HintQuarter) <==> score > -3.0
    ensures SizingHint(Buy, t, c, score) == Some(HintDouble) <==> score >= 4.0
    ensures SizingHint(Buy, t, c, score) == Some(HintOneAndHalf) <==>
      score < 4.0 && Truthy(t.sma200) && t.price != 0.0 && t.price < 0.9 * t.sma200.value
      && Truthy(t.dyPct) && t.dyPct.value >= 12.0
    ensures SizingHint(Buy, t, c, score) == Some(HintBase) <==>
      score < 4.0 && !(Truthy(t.sma200) && t.price != 0.0 && t.price < 0.9 * t.sma200.value
                       && Truthy(t.dyPct) && t.dyPct.value >= 12.0)
  {
  }

  /** The demonstration snapshot: price 270, SMA200 280, dividend yield 9.5, trend 1.2 and range
      240..320 score 1.5 + 0.8 = 2.3, a BUY with MEDIUM confidence at the base size. */
  lemma DemoSnapshot()
    ensures
      var t := NewSnapshot("SBER", 270.0, None, None, Some(280.0), Some(9.5), Some(1.2), Some(320.0), Some(240.0), None);
      var r := RecoOf(t, DefaultRecoConfig);
      r.score == 2.3 && r.action == Buy && r.confidence == Medium && r.sizingHint == Some(HintBase)
  {
    var t := NewSnapshot("SBER", 270.0, None, None, Some(280.0), Some(9.5), Some(1.2), Some(320.0), Some(240.0), None);
    var c := DefaultRecoConfig;
    assert DividendPart(t, c) == Part(1.5, [DividendsAtLeast(9.5, 8.0)], [1.0]);
    var d := PctDiff(Some(270.0), Some(280.0));
    assert d * 280.0 == -1000.0;
    assert Sma200Part(t, c) == Part(0.0, [NearSma200(d)], []);
    assert TrendPart(t, c) == Part(0.8, [TrendUp(1.2)], [1.0]);
    assert RangePart(t, c) == NoPart;
    assert SignalsPart(t.signals) == NoPart;
    assert Rules(t, c).delta == 2.3;
    assert Rules(t, c).factors == [1.0, 1.0];
    assert Sum([1.0, 1.0]) == 2.0 by {
      assert [1.0, 1.0][..1] == [1.0];
      assert [1.0][..0] == [];
    }
    Round2Exact(230);
  }

  /** make_reco: accumulates the score, the reasons and the confidence factors group by group,
      then derives action, confidence and sizing hint. */
  method MakeReco(t: TickerSnapshot, c: RecoConfig) returns (r: Recommendation)
    ensures r == RecoOf(t, c)
  {
    var score, reasons, factors := 0.0, [], [];
    score, reasons, factors := ApplyDividends(t, c, score, reasons, factors);
    assert [] + DividendPart(t, c).reasons == DividendPart(t, c).reasons;
    assert [] + DividendPart(t, c).factors == DividendPart(t, c).factors;
    assert Part(score, reasons, factors) == DividendPart(t, c);
    score, reasons, factors := ApplySma200(t, c, score, reasons, factors);
    score, reasons, factors := ApplyTrend(t, c, score, reasons, factors);
    score, reasons, factors := ApplyRange(t, c, score, reasons, factors);
    score, reasons, factors := ApplySignals(t, c, score, reasons, factors);
    assert Part(score, reasons, factors) == Rules(t, c);
    var action := ActionFor(score, c);
    var confidence := ConfidenceFor(Sum(factors));
    var sizing := SizingHint(action, t, c, score);
    r := Recommendation(action, Round2(score), reasons, sizing, confidence);
  }

  /** Section 1 of make_reco: dividends. */
  method ApplyDividends(t: TickerSnapshot, c: RecoConfig, score0: real, reasons0: seq<Reason>, factors0: seq<real>)
    returns (score: real, reasons: seq<Reason>, factors: seq<real>)
    ensures Part(score, reasons, factors) == Combine(Part(score0, reasons0, factors0), DividendPart(t, c))
  {
    score, reasons, factors := score0, reasons0, factors0;
    if t.dyPct.Some? {
      var dy := t.dyPct.value;
      if dy >= c.dyBuyMin {
        score := score + 1.5;
        reasons := reasons + [DividendsAtLeast(dy, c.dyBuyMin)];
        factors := factors + [1.0];
        if dy >= c.dyVeryHigh {
          score := score + 0.5;
          reasons := reasons + [VeryHighDividends(dy)];
          factors := factors + [1.0];
        }
      } else if dy < c.dyBuyMin * 0.5 {
        score := score - 0.5;
        reasons := reasons + [LowDividends(dy)];
      }
    }
  }

  /** Section 2 of make_reco: the position against SMA200. */
  method ApplySma200(t: TickerSnapshot, c: RecoConfig, score0: real, reasons0: seq<Reason>, factors0: seq<real>)
    returns (score: real, reasons: seq<Reason>, factors: seq<real>)
    ensures Part(score, reasons, factors) == Combine(Part(score0, reasons0, factors0), Sma200Part(t, c))
  {
    score, reasons, factors := score0, reasons0, factors0;
    if Truthy(t.sma200) && t.price != 0.0 {
      var d := PctDiff(Some(t.price), t.sma200);
      if d <= c.maxDiscountVsSma200 {
        score := score + 1.0;
        reasons := reasons + [DiscountToSma200(d)];
        factors := factors + [1.0];
      } else if d >= c.minPremiumVsSma200 {
        score := score - 1.0;
        reasons := reasons + [PremiumToSma200(d)];
        factors := factors + [1.0];
      } else {
        reasons := reasons + [NearSma200(d)];
      }
    }
  }

  /** Section 3 of make_reco: the short-term trend. */
  method ApplyTrend(t: TickerSnapshot, c: RecoConfig, score0: real, reasons0: seq<Reason>, factors0: seq<real>)
    returns (score: real, reasons: seq<Reason>, factors: seq<real>)
    ensures Part(score, reasons, factors) == Combine(Part(score0, reasons0, factors0), TrendPart(t, c))
  {
    score, reasons, factors := score0, reasons0, factors0;
    if t.trendPct20d.Some? {
      var tr := t.trendPct20d.value;
      if tr >= c.trendUpMin {
        score := score + 0.8;
        reasons := reasons + [TrendUp(tr)];
        factors := factors + [1.0];
      } else if tr <= c.trendDownMax {
        score := score - 0.8;
        reasons := reasons + [TrendDown(tr)];
        factors := factors + [1.0];
      }
    }
  }

  /** Section 4 of make_reco: the position inside the 52-week range. */
  method ApplyRange(t: TickerSnapshot, c: RecoConfig, score0: real, reasons0: seq<Reason>, factors0: seq<real>)
    returns (score: real, reasons: seq<Reason>, factors: seq<real>)
    ensures Part(score, reasons, factors) == Combine(Part(score0, reasons0, factors0), RangePart(t, c))
  {
    score, reasons, factors := score0, reasons0, factors0;
    if Truthy(t.high52w) && Truthy(t.low52w) && t.price != 0.0 {
      var range := t.high52w.value - t.low52w.value;
      if range > 0.0 {
        var pos := (t.price - t.low52w.value) / range;
        if pos < c.near52wLowThreshold {
          score := score + 0.5;
          reasons := reasons + [LowerThirdOf52w(pos)];
          factors := factors + [0.5];
        } else if pos > c.near52wHighThreshold {
          score := score - 0.5;
          reasons := reasons + [NearTopOf52w(pos)];
          factors := factors + [0.5];
        }
      }
    }
  }

  /** Section 5 of make_reco: the technical signals, one after the other. */
  method ApplySignals(t: TickerSnapshot, c: RecoConfig, score0: real, reasons0: seq<Reason>, factors0: seq<real>)
    returns (score: real, reasons: seq<Reason>, factors: seq<real>)
    ensures Part(score, reasons, factors) == Combine(Part(score0, reasons0, factors0), SignalsPart(t.signals))
  {
    score, reasons, factors := score0, reasons0, factors0;
    var i := 0;
    while i < |t.signals|
      invariant 0 <= i <= |t.signals|
      invariant Part(score, reasons, factors) == Combine(Part(score0, reasons0, factors0), SignalsPart(t.signals[..i]))
    {
      var sig := t.signals[i];
      if sig in PositiveSignals {
        score := score + 0.3;
        factors := factors + [0.3];
      } else if sig in NegativeSignals {
        score := score - 0.3;
        factors := factors + [0.3];
      }
      assert t.signals[..i + 1][..i] == t.signals[..i];
      i := i + 1;
    }
    assert t.signals[..i] == t.signals;
  }
}
