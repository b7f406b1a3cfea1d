/** The validated records of app/models.py: the signal enumeration, candles, portfolio positions,
    the portfolio, per-symbol analysis data and the analysis report. Pydantic's field constraints
    become validity predicates and validating constructors that return the error instead of raising. */
module Models {
  import opened Wrappers

  /** Technical signal flags; `Name` is the string value the enumeration serialises to. */
  datatype SignalType =
    | PriceBelowSma200 | PriceAboveSma200 | Sma50CrossUpSma200 | Sma50CrossDownSma200
    | DyGtTarget | VolSpike | Near52wLow | Near52wHigh
  {
    function Name(): string {
      match this
      case PriceBelowSma200 => "PRICE_BELOW_SMA200"
      case PriceAboveSma200 => "PRICE_ABOVE_SMA200"
      case Sma50CrossUpSma200 => "SMA50_CROSS_UP_SMA200"
      case Sma50CrossDownSma200 => "SMA50_CROSS_DOWN_SMA200"
      case DyGtTarget => "DY_GT_TARGET"
      case VolSpike => "VOL_SPIKE"
      case Near52wLow => "NEAR_52W_LOW"
      case Near52wHigh => "NEAR_52W_HIGH"
    }
  }

  /** What pydantic reports: the names of the fields whose constraints failed, or the message
      of a validator that raised ValueError. */
  datatype ValidationError = FieldErrors(fields: seq<string>) | ValueError(message: string)

  /** Timestamps are seconds; the calendar is not modelled. */
  type Timestamp = int

  datatype Candle = Candle(
    open: real, high: real, low: real, close: real, volume: int,
    begin: Timestamp, end: Timestamp, value: Option<real>)

  /** The fields of a candle that violate their `ge=0` constraint, in declaration order. */
  function CandleFieldErrors(c: Candle): (r: seq<string>)
    ensures r == [] <==> (c.open >= 0.0 && c.high >= 0.0 && c.low >= 0.0 && c.close >= 0.0
                          && c.volume >= 0 && (c.value.Some? ==> c.value.value >= 0.0))
  {
    (if c.open < 0.0 then ["open"] else [])
    + (if c.high < 0.0 then ["high"] else [])
    + (if c.low < 0.0 then ["low"] else [])
    + (if c.close < 0.0 then ["close"] else [])
    + (if c.volume < 0 then ["volume"] else [])
    + (if c.value.Some? && c.value.value < 0.0 then ["value"] else [])
  }

  predicate ValidCandle(c: Candle) {
    CandleFieldErrors(c) == [] && c.high >= c.low
  }

  /** Building a Candle: field constraints first, then the `after` model validator on high/low. */
  function ValidateCandle(c: Candle): (r: Result<Candle, ValidationError>)
    ensures r.Ok? <==> ValidCandle(c)
    ensures r.Ok? ==> r.value == c && r.value.high >= r.value.low && r.value.volume >= 0
    ensures CandleFieldErrors(c) == [] && c.high < c.low ==> r == Err(ValueError("High must be >= low"))
    ensures CandleFieldErrors(c) != [] ==> r == Err(FieldErrors(CandleFieldErrors(c)))
  {
    var errs := CandleFieldErrors(c);
    if errs != [] then Err(FieldErrors(errs))
    else if c.high < c.low then Err(ValueError("High must be >= low"))
    else Ok(c)
  }

  datatype PositionType = Stock | Bond | Etf | Fund | Currency

  datatype Position = Position(
    symbol: string, quantity: Option<int>, qty: Option<int>, avgPrice: Option<real>,
    market: string, kind: PositionType, notes: Option<string>, name: Option<string>,
    currentValue: Option<real>)

  function PositionFieldErrors(p: Position): (r: seq<string>)
    ensures r == [] <==> (1 <= |p.symbol| <= 50
                          && (p.quantity.Some? ==> p.quantity.value >= 0)
                          && (p.qty.Some? ==> p.qty.value >= 0)
                          && (p.avgPrice.Some? ==> p.avgPrice.value >= 0.0))
  {
    (if |p.symbol| < 1 || |p.symbol| > 50 then ["symbol"] else [])
    + (if p.quantity.Some? && p.quantity.value < 0 then ["quantity"] else [])
    + (if p.qty.Some? && p.qty.value < 0 then ["qty"] else [])
    + (if p.avgPrice.Some? && p.avgPrice.value < 0.0 then ["avg_price"] else [])
  }

  predicate ValidPosition(p: Position) {
    PositionFieldErrors(p) == []
  }

  /** A position built from the given fields; `market` and `type` take their defaults. */
  function ValidatePosition(symbol: string, quantity: Option<int>, qty: Option<int>, avgPrice: Option<real>,
                            currentValue: Option<real>): (r: Result<Position, ValidationError>)
    ensures r.Ok? <==> (1 <= |symbol| <= 50 && (quantity.Some? ==> quantity.value >= 0)
                        && (qty.Some? ==> qty.value >= 0) && (avgPrice.Some? ==> avgPrice.value >= 0.0))
    ensures r.Ok? ==> ValidPosition(r.value) && r.value.symbol == symbol && r.value.market == "moex"
                      && r.value.kind == Stock && r.value.quantity == quantity && r.value.qty == qty
  {
    var p := Position(symbol, quantity, qty, avgPrice, "moex", Stock, None, None, currentValue);
    var errs := PositionFieldErrors(p);
    if errs == [] then Ok(p) else Err(FieldErrors(errs))
  }

  datatype Portfolio = Portfolio(
    name: Option<string>, currency: string, cash: real, positions: seq<Position>,
    createdAt: Option<Timestamp>, updatedAt: Option<Timestamp>)

  predicate ValidPortfolio(p: Portfolio) {
    p.cash >= 0.0 && forall i :: 0 <= i < |p.positions| ==> ValidPosition(p.positions[i])
  }

  /** A portfolio built from optional cash and positions: cash defaults to 0, currency to RUB. A
      rejection names every failing field, cash before positions. */
  function ValidatePortfolio(cash: Option<real>, positions: seq<Position>): (r: Result<Portfolio, ValidationError>)
    ensures r.Ok? <==> (cash.GetOr(0.0) >= 0.0 && forall i :: 0 <= i < |positions| ==> ValidPosition(positions[i]))
    ensures r.Ok? ==> ValidPortfolio(r.value) && r.value.cash == cash.GetOr(0.0)
                      && r.value.currency == "RUB" && r.value.positions == positions
    ensures cash == None && positions == [] ==> r.Ok? && r.value.cash == 0.0
    ensures r.Ok? && cash.Some? ==> r.value.cash == cash.value
    ensures r.Err? ==> r.error.FieldErrors? && r.error.fields != []
                       && ("cash" in r.error.fields <==> cash.GetOr(0.0) < 0.0)
                       && ("positions" in r.error.fields <==> exists i :: 0 <= i < |positions| && !ValidPosition(positions[i]))
  {
    var p := Portfolio(None, "RUB", cash.GetOr(0.0), positions, None, None);
    if ValidPortfolio(p) then Ok(p)
    else
      var badPositions := exists i :: 0 <= i < |positions| && !ValidPosition(positions[i]);
      Err(FieldErrors((if p.cash < 0.0 then ["cash"] else []) + (if badPositions then ["positions"] else [])))
  }

  datatype SymbolMeta = SymbolMeta(board: Option<string>, error: Option<string>, updatedAt: Option<Timestamp>)

  datatype SymbolData = SymbolData(
    price: Option<real>, lot: Option<int>, divTtm: Option<real>, dyPct: Option<real>,
    sma20: Option<real>, sma50: Option<real>, sma200: Option<real>,
    high52w: Option<real>, low52w: Option<real>,
    dist52wLowPct: Option<real>, dist52wHighPct: Option<real>,
    signals: seq<SignalType>, meta: SymbolMeta)

  /** Every numeric field of the entry is unset. */
  predicate NoMetrics(d: SymbolData) {
    d.price == None && d.lot == None && d.divTtm == None && d.dyPct == None
    && d.sma20 == None && d.sma50 == None && d.sma200 == None
    && d.high52w == None && d.low52w == None && d.dist52wLowPct == None && d.dist52wHighPct == None
  }

  /** `SymbolData()` with every field left to its default. */
  function DefaultSymbolData(): (d: SymbolData)
    ensures NoMetrics(d) && d.signals == []
    ensures d.meta.board == None && d.meta.error == None && d.meta.updatedAt == None
  {
    SymbolData(None, None, None, None, None, None, None, None, None, None, None, [],
               SymbolMeta(None, None, None))
  }

  /** The report's `by_symbol` dictionary, as (key, value) pairs in insertion order. The type
      admits a repeated key, which a dict cannot hold; every report GenerateReport builds has
      distinct keys, and the members that need that say so with NoDup(Keys(...)). */
  type BySymbol = seq<(string, SymbolData)>

  datatype AnalysisReport = AnalysisReport(generatedAt: Timestamp, universe: seq<string>, bySymbol: BySymbol)

  /** Building an AnalysisReport: the universe validator rejects an empty list. */
  function ValidateReport(generatedAt: Timestamp, universe: seq<string>, bySymbol: BySymbol)
    : (r: Result<AnalysisReport, ValidationError>)
    ensures r.Err? <==> universe == []
    ensures r.Err? ==> r.error == ValueError("Universe cannot be empty")
    ensures r.Ok? ==> r.value == AnalysisReport(generatedAt, universe, bySymbol)
  {
    if universe == [] then Err(ValueError("Universe cannot be empty"))
    else Ok(AnalysisReport(generatedAt, universe, bySymbol))
  }
}
