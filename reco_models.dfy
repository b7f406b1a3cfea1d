/** Records of the recommendation system (app/reco/models.py): the action and confidence
    enumerations, the ticker snapshot, the recommendation, the rule thresholds with their
    defaults and the personalised action. */
module RecoModels {
  import opened Wrappers

  /** `Action = Literal["BUY", "HOLD", "SELL"]`: no other action exists. */
  datatype Action = Buy | Hold | Sell {
    function Name(): string {
      match this
      case Buy => "BUY"
      case Hold => "HOLD"
      case Sell => "SELL"
    }
  }

  datatype Confidence = Low | Medium | High {
    function Name(): string {
      match this
      case Low => "LOW"
      case Medium => "MEDIUM"
      case High => "HIGH"
    }
  }

  /** Parses an action name; only the three literals are actions. */
  function ParseAction(s: string): (r: Option<Action>)
    ensures r.Some? <==> s in {"BUY", "HOLD", "SELL"}
    ensures r.Some? ==> r.value.Name() == s
  {
    if s == "BUY" then Some(Buy) else if s == "HOLD" then Some(Hold)
    else if s == "SELL" then Some(Sell) else None
  }

  datatype TickerSnapshot = TickerSnapshot(
    symbol: string, price: real,
    sma20: Option<real>, sma50: Option<real>, sma200: Option<real>,
    dyPct: Option<real>, trendPct20d: Option<real>,
    high52w: Option<real>, low52w: Option<real>,
    sector: Option<string>, volAvg20d: Option<real>,
    signals: seq<string>)

  /** The dataclass constructor: omitted optionals are None and `__post_init__` replaces a
      missing signal list by the empty list. */
  function NewSnapshot(symbol: string, price: real, sma20: Option<real>, sma50: Option<real>,
                       sma200: Option<real>, dyPct: Option<real>, trendPct20d: Option<real>,
                       high52w: Option<real>, low52w: Option<real>, signals: Option<seq<string>>)
    : (t: TickerSnapshot)
    ensures t.signals == signals.GetOr([])
    ensures t.symbol == symbol && t.price == price && t.sma200 == sma200 && t.dyPct == dyPct
    ensures t.sma20 == sma20 && t.sma50 == sma50 && t.trendPct20d == trendPct20d
    ensures t.high52w == high52w && t.low52w == low52w
    ensures t.sector.None? && t.volAvg20d.None?
  {
    TickerSnapshot(symbol, price, sma20, sma50, sma200, dyPct, trendPct20d, high52w, low52w,
                   None, None, signals.GetOr([]))
  }

  /** The reasons make_reco gives, with the numbers its messages format. */
  datatype Reason =
    | DividendsAtLeast(dy: real, minimum: real)
    | VeryHighDividends(dy: real)
    | LowDividends(dy: real)
    | DiscountToSma200(diffPct: real)
    | PremiumToSma200(diffPct: real)
    | NearSma200(diffPct: real)
    | TrendUp(trendPct: real)
    | TrendDown(trendPct: real)
    | LowerThirdOf52w(position: real)
    | NearTopOf52w(position: real)

  datatype Recommendation = Recommendation(
    action: Action, score: real, reasons: seq<Reason>, sizingHint: Option<string>,
    confidence: Confidence)

  /** The dataclass defaults: no sizing hint, MEDIUM confidence. */
  function NewRecommendation(action: Action, score: real, reasons: seq<Reason>): (r: Recommendation)
    ensures r.sizingHint.None? && r.confidence == Medium
    ensures r.action == action && r.score == score && r.reasons == reasons
  {
    Recommendation(action, score, reasons, None, Medium)
  }

  datatype RecoConfig = RecoConfig(
    dyBuyMin: real, dyVeryHigh: real,
    maxDiscountVsSma200: real, minPremiumVsSma200: real,
    trendUpMin: real, trendDownMax: real,
    buyScoreCutoff: real, sellScoreCutoff: real,
    near52wLowThreshold: real, near52wHighThreshold: real)

  /** `RecoConfig()` with every threshold at its default. */
  const DefaultRecoConfig: RecoConfig := RecoConfig(8.0, 15.0, -10.0, 10.0, 0.5, -0.5, 2.0, -2.0, 0.3, 0.9)

  datatype PersonalizedAction = PersonalizedAction(
    symbol: string, action: Action, score: real, reasons: seq<Reason>, price: real,
    qtySuggested: int, cashImpact: real, sizingHint: Option<string>,
    currentPosition: Option<int>, currentValue: Option<real>)
}
