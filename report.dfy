/** The analysis report (app/process/report.py): the universe of tickers (configured ones first,
    then new portfolio tickers), one SymbolData per ticker with failures recorded in its meta, the
    report record, and the summary counts. The MOEX client and the portfolio file are inputs. */
module Report {
  import opened Wrappers
  import opened Seqs
  import opened Text
  import opened Numeric
  import opened Models
  import opened Metrics

  // ---------------------------------------------------------------------------------------------
  // Portfolio tickers


  /** `symbol.rstrip('@')`. */
  function CleanSymbol(symbol: Option<string>): string {
    if symbol.Some? then RStripChar(symbol.value, '@') else ""
  }

  /** _load_portfolio_tickers on the `symbol` of every position of the file, or None when the file
      is missing or cannot be read (both give []). */
  function PortfolioTickers(file: Option<seq<Option<string>>>): seq<string> {
    if file.None? then [] else FilterMap(file.value, NonEmpty, CleanSymbol)
  }

  method LoadPortfolioTickers(file: Option<seq<Option<string>>>) returns (tickers: seq<string>)
    ensures tickers == PortfolioTickers(file)
  {
    tickers := [];
    if file.None? {
      return;
    }
    var positions := file.value;
    var i := 0;
    while i < |positions|
      invariant 0 <= i <= |positions|
      invariant tickers == FilterMap(positions[..i], NonEmpty, CleanSymbol)
    {
      FilterMapStep(positions, i, NonEmpty, CleanSymbol);
      var symbol := positions[i];
      if symbol.Some? && symbol.value != "" {
        tickers := tickers + [RStripChar(symbol.value, '@')];
      }
      i := i + 1;
    }
    assert positions[..i] == positions;
  }

  /** A ticker comes from a position with a non-empty symbol, trailing '@' removed; every such
      position gives one. */
  lemma PortfolioTickersMembers(file: Option<seq<Option<string>>>, t: string)
    ensures file.None? ==> PortfolioTickers(file) == []
    ensures file.Some? ==>
              (t in PortfolioTickers(file) <==>
               exists i :: 0 <= i < |file.value| && NonEmpty(file.value[i]) && t == RStripChar(file.value[i].value, '@'))
  {
    if file.Some? {
      FilterMapMembers(file.value, NonEmpty, CleanSymbol, t);
    }
  }

  /** "TGLD@" becomes "TGLD"; a symbol made only of '@' passes the emptiness test and becomes "". */
  lemma CleanSymbolExamples()
    ensures PortfolioTickers(Some([Some("TGLD@"), None, Some(""), Some("SBER")])) == ["TGLD", "SBER"]
    ensures PortfolioTickers(Some([Some("@@")])) == [""]
  {
    assert RStripChar("TGLD@", '@') == "TGLD" by {
      assert "TGLD@"[..4] == "TGLD";
    }
    assert RStripChar("@@", '@') == "" by {
      assert "@@"[..1] == "@";
      assert "@"[..0] == "";
    }
    var a: seq<Option<string>> := [Some("TGLD@"), None, Some(""), Some("SBER")];
    FilterMapStep(a, 0, NonEmpty, CleanSymbol);
    FilterMapStep(a, 1, NonEmpty, CleanSymbol);
    FilterMapStep(a, 2, NonEmpty, CleanSymbol);
    FilterMapStep(a, 3, NonEmpty, CleanSymbol);
    assert a[..4] == a;
    var b: seq<Option<string>> := [Some("@@")];
    FilterMapStep(b, 0, NonEmpty, CleanSymbol);
    assert b[..1] == b;
  }

  // ---------------------------------------------------------------------------------------------
  // The combined universe

  predicate NoDup<T(==)>(s: seq<T>) {
    forall i, j :: 0 <= i < j < |s| ==> s[i] != s[j]
  }

  function Elems<T(==)>(s: seq<T>): set<T> {
    set x | x in s
  }

  /** The loop `for t in xs: if t not in seen: combined.append(t); seen.add(t)` started from `acc`. */
  function AddUnseen(acc: seq<string>, xs: seq<string>): seq<string> {
    if xs == [] then acc
    else
      var r := AddUnseen(acc, xs[..|xs| - 1]);
      if xs[|xs| - 1] in r then r else r + [xs[|xs| - 1]]
  }

  /** What was there stays in front; new tickers are appended once each. */
  lemma {:induction false} AddUnseenFacts(acc: seq<string>, xs: seq<string>)
    requires NoDup(acc)
    ensures NoDup(AddUnseen(acc, xs))
    ensures |acc| <= |AddUnseen(acc, xs)| && AddUnseen(acc, xs)[..|acc|] == acc
  {
    if xs != [] {
      AddUnseenFacts(acc, xs[..|xs| - 1]);
      var r := AddUnseen(acc, xs[..|xs| - 1]);
      if xs[|xs| - 1] !in r {
        assert (r + [xs[|xs| - 1]])[..|acc|] == r[..|acc|];
      }
    }
  }

  /** A ticker ends up in the result exactly when it was there or is one of `xs`. */
  lemma {:induction false} AddUnseenMembers(acc: seq<string>, xs: seq<string>, t: string)
    ensures t in AddUnseen(acc, xs) <==> t in acc || t in xs
  {
    if xs != [] {
      var init := xs[..|xs| - 1];
      AddUnseenMembers(acc, init, t);
      assert xs == init + [xs[|xs| - 1]];
    }
  }

  /** Input without repetitions is kept as it is. */
  lemma {:induction false} AddUnseenDistinct(acc: seq<string>, xs: seq<string>)
    requires NoDup(acc + xs)
    ensures AddUnseen(acc, xs) == acc + xs
  {
    if xs != [] {
      var init := xs[..|xs| - 1];
      assert acc + xs == (acc + init) + [xs[|xs| - 1]];
      assert NoDup(acc + init) by {
        forall i, j | 0 <= i < j < |acc + init| ensures (acc + init)[i] != (acc + init)[j] {
          assert (acc + init)[i] == (acc + xs)[i] && (acc + init)[j] == (acc + xs)[j];
        }
      }
      AddUnseenDistinct(acc, init);
      assert xs[|xs| - 1] == (acc + xs)[|acc + xs| - 1];
      forall k | 0 <= k < |acc + init| ensures (acc + init)[k] != xs[|xs| - 1] {
        assert (acc + xs)[k] == (acc + init)[k];
      }
    }
  }

  /** _get_combined_universe on the configured and the portfolio tickers. */
  function Universe(config: seq<string>, portfolio: seq<string>): seq<string> {
    AddUnseen(AddUnseen([], config), portfolio)
  }

  /** The universe has no duplicates, lists the configured tickers first (in order of first
      occurrence, so exactly `config` when it has none), and then only portfolio tickers that are
      not configured. */
  lemma UniverseOrder(config: seq<string>, portfolio: seq<string>)
    ensures NoDup(Universe(config, portfolio))
    ensures var head := AddUnseen([], config);
            |head| <= |Universe(config, portfolio)| && Universe(config, portfolio)[..|head|] == head
    ensures NoDup(config) ==> |config| <= |Universe(config, portfolio)| && Universe(config, portfolio)[..|config|] == config
    ensures forall k :: |AddUnseen([], config)| <= k < |Universe(config, portfolio)| ==>
              Universe(config, portfolio)[k] !in config && Universe(config, portfolio)[k] in portfolio
  {
    var head := AddUnseen([], config);
    var u := Universe(config, portfolio);
    AddUnseenFacts([], config);
    AddUnseenFacts(head, portfolio);
    if NoDup(config) {
      assert [] + config == config;
      AddUnseenDistinct([], config);
    }
    forall k | |head| <= k < |u| ensures u[k] !in config && u[k] in portfolio {
      forall m | 0 <= m < |head| ensures head[m] != u[k] {
        assert u[m] == head[m];
      }
      AddUnseenMembers([], config, u[k]);
      AddUnseenMembers(head, portfolio, u[k]);
    }
  }

  /** Every configured and every portfolio ticker is in the universe, and nothing else. */
  lemma UniverseMembers(config: seq<string>, portfolio: seq<string>, t: string)
    ensures t in Universe(config, portfolio) <==> t in config || t in portfolio
  {
    AddUnseenMembers([], config, t);
    AddUnseenMembers(AddUnseen([], config), portfolio, t);
  }

  method CombinedUniverse(config: seq<string>, portfolio: seq<string>) returns (combined: seq<string>)
    ensures combined == Universe(config, portfolio)
  {
    var seen: set<string> := {};
    combined := [];
    var i := 0;
    while i < |config|
      invariant 0 <= i <= |config|
      invariant combined == AddUnseen([], config[..i]) && seen == Elems(combined)
    {
      assert config[..i + 1][..i] == config[..i];
      var t := config[i];
      if t !in seen {
        combined := combined + [t];
        seen := seen + {t};
      }
      i := i + 1;
    }
    assert config[..i] == config;
    var j := 0;
    while j < |portfolio|
      invariant 0 <= j <= |portfolio|
      invariant combined == AddUnseen(AddUnseen([], config), portfolio[..j]) && seen == Elems(combined)
    {
      assert portfolio[..j + 1][..j] == portfolio[..j];
      var t := portfolio[j];
      if t !in seen {
        combined := combined + [t];
        seen := seen + {t};
      }
      j := j + 1;
    }
    assert portfolio[..j] == portfolio;
  }

  // ---------------------------------------------------------------------------------------------
  // One symbol

  datatype Quote = Quote(price: real, lot: int, board: string)

  /** What the MOEX client returned for one symbol: the quote, the dividends of the last twelve
      months and the candles, or the message of the exception that one of the calls raised. */
  datatype Fetched = Fetched(quote: Quote, divTtm: real, candles: Frame) | FetchFailed(message: string)

  /** The SMA dictionary of an entry, as the signal checks read it. */
  function SmaTable(d: SymbolData): map<Window, Option<real>> {
    map[20 := d.sma20, 50 := d.sma50, 200 := d.sma200]
  }

  /** What _process_symbol builds from a fetch at time `now`: an entry with every metric unset,
      no signals and the message in meta.error after a failure; otherwise the quote, the metrics
      and meta with the board, no error and the update time. */
  predicate ProcessedFrom(f: Fetched, now: Timestamp, d: SymbolData) {
    match f
    case FetchFailed(msg) => NoMetrics(d) && d.signals == [] && d.meta == SymbolMeta(None, Some(msg), None)
    case Fetched(q, div, fr) =>
      && d.price == Some(q.price) && d.lot == Some(q.lot) && d.divTtm == Some(div)
      && d.dyPct == DividendYield(div, q.price)
      && d.sma20 == SmaAt(fr, 20) && d.sma50 == SmaAt(fr, 50) && d.sma200 == SmaAt(fr, 200)
      && Range52(d.high52w, d.low52w, d.dist52wLowPct, d.dist52wHighPct) == Range52w(fr, q.price)
      && CrossReadsClose(fr, SmaTable(d))
      && (PriceBelowSma200 in d.signals <==> Truthy(d.sma200) && q.price < d.sma200.value)
      && (PriceAboveSma200 in d.signals <==> Truthy(d.sma200) && q.price > d.sma200.value)
      && (Sma50CrossUpSma200 in d.signals <==> GoldenCross(fr, SmaTable(d)))
      && (Sma50CrossDownSma200 in d.signals <==> DeathCross(fr, SmaTable(d)))
      && (DyGtTarget in d.signals <==> Truthy(d.dyPct) && d.dyPct.value >= DividendTargetPct)
      && (VolSpike in d.signals <==> VolumeSpike(fr, VolumeSpikeThreshold))
      && Near52wLow !in d.signals && Near52wHigh !in d.signals
      && Ranked(d.signals)
      && d.meta == SymbolMeta(Some(q.board), None, Some(now))
  }

  method ProcessSymbol(f: Fetched, now: Timestamp) returns (d: SymbolData)
    ensures ProcessedFrom(f, now, d)
    ensures d.meta.error.None? <==> f.Fetched?
  {
    match f {
      case FetchFailed(msg) =>
        d := SymbolData(None, None, None, None, None, None, None, None, None, None, None, [],
                        SymbolMeta(None, Some(msg), None));
      case Fetched(q, div, fr) =>
        var m := CalculateAllMetrics(fr, q.price, div);
        assert 20 in m.sma && 50 in m.sma && 200 in m.sma;
        d := SymbolData(Some(q.price), Some(q.lot), Some(div), m.dyPct,
                        Lookup(m.sma, 20), Lookup(m.sma, 50), Lookup(m.sma, 200),
                        m.range.high, m.range.low, m.range.distLowPct, m.range.distHighPct,
                        m.signals, SymbolMeta(Some(q.board), None, Some(now)));
        assert Lookup(SmaTable(d), 50) == Lookup(m.sma, 50) && Lookup(SmaTable(d), 200) == Lookup(m.sma, 200);
    }
  }

  // ---------------------------------------------------------------------------------------------
  // The report

  function Keys(d: BySymbol): (r: seq<string>)
    ensures |r| == |d| && forall i :: 0 <= i < |d| ==> r[i] == d[i].0
  {
    seq(|d|, i requires 0 <= i < |d| => d[i].0)
  }

  /** `by_symbol[k] = v`: an existing key keeps its place and takes the new value, a new key is
      appended. */
  function Put(d: BySymbol, k: string, v: SymbolData): (r: BySymbol)
    ensures k in Keys(d) ==> Keys(r) == Keys(d)
    ensures k !in Keys(d) ==> Keys(r) == Keys(d) + [k]
    ensures forall i :: 0 <= i < |r| ==> r[i].1 == (if r[i].0 == k then v else d[i].1)
  {
    if k in Keys(d) then seq(|d|, i requires 0 <= i < |d| => if d[i].0 == k then (k, v) else d[i])
    else d + [(k, v)]
  }

  /** The tickers a report covers. */
  function UniverseOf(config: seq<string>, portfolio: Option<seq<Option<string>>>, includePortfolio: bool): seq<string> {
    if includePortfolio then Universe(config, PortfolioTickers(portfolio)) else config
  }

  /** The universe generate_report works on; with the portfolio it has no duplicates. */
  method ReportUniverse(config: seq<string>, portfolio: Option<seq<Option<string>>>, includePortfolio: bool)
    returns (universe: seq<string>)
    ensures universe == UniverseOf(config, portfolio, includePortfolio)
    ensures includePortfolio ==> AddUnseen([], universe) == universe
  {
    if includePortfolio {
      var tickers := LoadPortfolioTickers(portfolio);
      universe := CombinedUniverse(config, tickers);
      UniverseOrder(config, tickers);
      assert [] + universe == universe;
      AddUnseenDistinct([], universe);
    } else {
      universe := config;
    }
  }

  /** The loop of generate_report: every ticker processed and stored under its name. */
  method BuildBySymbol(universe: seq<string>, fetch: string -> Fetched, now: Timestamp) returns (bySymbol: BySymbol)
    ensures Keys(bySymbol) == AddUnseen([], universe)
    ensures forall i :: 0 <= i < |bySymbol| ==> ProcessedFrom(fetch(bySymbol[i].0), now, bySymbol[i].1)
  {
    bySymbol := [];
    var i := 0;
    while i < |universe|
      invariant 0 <= i <= |universe|
      invariant Keys(bySymbol) == AddUnseen([], universe[..i])
      invariant forall k :: 0 <= k < |bySymbol| ==> ProcessedFrom(fetch(bySymbol[k].0), now, bySymbol[k].1)
    {
      assert universe[..i + 1][..i] == universe[..i];
      var symbol := universe[i];
      var data := ProcessSymbol(fetch(symbol), now);
      bySymbol := Put(bySymbol, symbol, data);
      i := i + 1;
    }
    assert universe[..i] == universe;
  }

  /** generate_report: one entry per distinct ticker, in universe order, each processed from what
      the client returned for it; the report record rejects an empty universe. With the portfolio
      included the universe has no duplicates, so there is exactly one entry per universe ticker. */
  method GenerateReport(config: seq<string>, portfolio: Option<seq<Option<string>>>, includePortfolio: bool,
                        fetch: string -> Fetched, now: Timestamp, generatedAt: Timestamp)
    returns (r: Result<AnalysisReport, ValidationError>)
    ensures r.Err? <==> UniverseOf(config, portfolio, includePortfolio) == []
    ensures r.Err? ==> r.error == ValueError("Universe cannot be empty")
    ensures r.Ok? ==> r.value.universe == UniverseOf(config, portfolio, includePortfolio)
                      && r.value.generatedAt == generatedAt
                      && Keys(r.value.bySymbol) == AddUnseen([], r.value.universe)
                      && forall i :: 0 <= i < |r.value.bySymbol| ==>
                           ProcessedFrom(fetch(r.value.bySymbol[i].0), now, r.value.bySymbol[i].1)
    ensures r.Ok? && includePortfolio ==> Keys(r.value.bySymbol) == r.value.universe
  {
    var universe := ReportUniverse(config, portfolio, includePortfolio);
    var bySymbol := BuildBySymbol(universe, fetch, now);
    r := ValidateReport(generatedAt, universe, bySymbol);
  }

  // ---------------------------------------------------------------------------------------------
  // The summary

  type Entry = (string, SymbolData)

  datatype Summary = Summary(
    totalSymbols: nat, successful: nat, failed: nat, withSignals: nat,
    highDividend: seq<string>, aboveSma200: seq<string>, belowSma200: seq<string>,
    avgDyPct: Option<real>)

  function Symbol(e: Entry): string {
    e.0
  }

  predicate Succeeded(e: Entry) {
    e.1.meta.error.None?
  }

  predicate Failed(e: Entry) {
    e.1.meta.error.Some?
  }

  predicate WithSignals(e: Entry) {
    Succeeded(e) && e.1.signals != []
  }

  /** `data.dy_pct and data.dy_pct >= target` on a successful entry. */
  predicate HighDividend(e: Entry, target: real) {
    Succeeded(e) && Truthy(e.1.dyPct) && e.1.dyPct.value >= target
  }

  predicate HasDy(e: Entry) {
    Succeeded(e) && Truthy(e.1.dyPct)
  }

  function DyOf(e: Entry): real {
    if e.1.dyPct.Some? then e.1.dyPct.value else 0.0
  }

  /** A successful entry whose price and SMA200 are both truthy. */
  predicate Comparable(e: Entry) {
    Succeeded(e) && Truthy(e.1.price) && Truthy(e.1.sma200)
  }

  predicate AboveSma200(e: Entry) {
    Comparable(e) && e.1.price.value > e.1.sma200.value
  }

  predicate BelowSma200(e: Entry) {
    Comparable(e) && !(e.1.price.value > e.1.sma200.value)
  }

  function Count(entries: seq<Entry>, p: Entry -> bool): nat {
    |FilterMap(entries, p, Symbol)|
  }

  /** The truthy yields of the successful entries, in entry order. */
  function DyValues(entries: seq<Entry>): seq<real> {
    FilterMap(entries, HasDy, DyOf)
  }

  /** `round(sum(dy_values) / len(dy_values), 2)`, or None without yields. */
  function AverageDy(entries: seq<Entry>): Option<real> {
    var ys := DyValues(entries);
    if ys == [] then None else Some(Round2(Mean(ys)))
  }

  /** Everything the summary loop accumulates. */
  datatype Tally = Tally(
    successful: nat, failed: nat, withSignals: nat,
    high: seq<string>, above: seq<string>, below: seq<string>, dy: seq<real>)

  function TallyOf(entries: seq<Entry>, target: real): Tally {
    Tally(Count(entries, Succeeded), Count(entries, Failed), Count(entries, WithSignals),
          FilterMap(entries, e => HighDividend(e, target), Symbol),
          FilterMap(entries, AboveSma200, Symbol), FilterMap(entries, BelowSma200, Symbol),
          DyValues(entries))
  }

  /** One iteration of the summary loop. */
  lemma TallyStep(entries: seq<Entry>, i: nat, target: real)
    requires i < |entries|
    ensures var t := TallyOf(entries[..i], target);
            var e := entries[i];
            TallyOf(entries[..i + 1], target)
              == Tally(t.successful + (if Succeeded(e) then 1 else 0),
                       t.failed + (if Failed(e) then 1 else 0),
                       t.withSignals + (if WithSignals(e) then 1 else 0),
                       t.high + (if HighDividend(e, target) then [e.0] else []),
                       t.above + (if AboveSma200(e) then [e.0] else []),
                       t.below + (if BelowSma200(e) then [e.0] else []),
                       t.dy + (if HasDy(e) then [e.1.dyPct.value] else []))
  {
    FilterMapStep(entries, i, Succeeded, Symbol);
    FilterMapStep(entries, i, Failed, Symbol);
    FilterMapStep(entries, i, WithSignals, Symbol);
    FilterMapStep(entries, i, e => HighDividend(e, target), Symbol);
    FilterMapStep(entries, i, AboveSma200, Symbol);
    FilterMapStep(entries, i, BelowSma200, Symbol);
    FilterMapStep(entries, i, HasDy, DyOf);
  }

  /** Every entry is counted once, as a success or as a failure. */
  lemma {:induction false} SuccessesAndFailures(entries: seq<Entry>)
    ensures Count(entries, Succeeded) + Count(entries, Failed) == |entries|
  {
    if entries != [] {
      var n := |entries| - 1;
      SuccessesAndFailures(entries[..n]);
      FilterMapStep(entries, n, Succeeded, Symbol);
      FilterMapStep(entries, n, Failed, Symbol);
      assert entries[..n + 1] == entries;
    }
  }

  /** get_summary on a report and the configured dividend target. */
  method GetSummary(report: AnalysisReport, target: real) returns (s: Summary)
    ensures s.totalSymbols == |report.universe|
    ensures s.successful == Count(report.bySymbol, Succeeded) && s.failed == Count(report.bySymbol, Failed)
    ensures s.successful + s.failed == |report.bySymbol|
    ensures s.withSignals == Count(report.bySymbol, WithSignals)
    ensures s.highDividend == FilterMap(report.bySymbol, e => HighDividend(e, target), Symbol)
    ensures s.aboveSma200 == FilterMap(report.bySymbol, AboveSma200, Symbol)
    ensures s.belowSma200 == FilterMap(report.bySymbol, BelowSma200, Symbol)
    ensures s.avgDyPct == AverageDy(report.bySymbol)
  {
    var entries := report.bySymbol;
    var successful, failed, withSignals := 0, 0, 0;
    var high, above, below: seq<string> := [], [], [];
    var dyValues: seq<real> := [];
    var i := 0;
    while i < |entries|
      invariant 0 <= i <= |entries|
      invariant Tally(successful, failed, withSignals, high, above, below, dyValues) == TallyOf(entries[..i], target)
    {
      TallyStep(entries, i, target);
      var symbol := entries[i].0;
      var data := entries[i].1;
      if data.meta.error.None? {
        successful := successful + 1;
        if data.signals != [] {
          withSignals := withSignals + 1;
        }
        if Truthy(data.dyPct) && data.dyPct.value >= target {
          high := high + [symbol];
        }
        if Truthy(data.dyPct) {
          dyValues := dyValues + [data.dyPct.value];
        }
        if Truthy(data.price) && Truthy(data.sma200) {
          if data.price.value > data.sma200.value {
            above := above + [symbol];
          } else {
            below := below + [symbol];
          }
        }
      } else {
        failed := failed + 1;
      }
      i := i + 1;
    }
    assert entries[..i] == entries;
    SuccessesAndFailures(entries);
    var avg: Option<real> := None;
    if dyValues != [] {
      avg := Some(Round2(Mean(dyValues)));
    }
    s := Summary(|report.universe|, successful, failed, withSignals, high, above, below, avg);
  }

  /** A successful entry with truthy price and SMA200 is listed above SMA200 when the price is
      strictly higher and below otherwise (a tie counts as below), and never in both lists when
      the keys are distinct. */
  lemma AboveOrBelow(entries: seq<Entry>, i: nat)
    requires i < |entries| && Comparable(entries[i])
    requires NoDup(Keys(entries))
    ensures var e := entries[i].1;
            e.price.value > e.sma200.value ==>
              entries[i].0 in FilterMap(entries, AboveSma200, Symbol)
              && entries[i].0 !in FilterMap(entries, BelowSma200, Symbol)
    ensures var e := entries[i].1;
            e.price.value <= e.sma200.value ==>
              entries[i].0 in FilterMap(entries, BelowSma200, Symbol)
              && entries[i].0 !in FilterMap(entries, AboveSma200, Symbol)
  {
    var k := entries[i].0;
    FilterMapMembers(entries, AboveSma200, Symbol, k);
    FilterMapMembers(entries, BelowSma200, Symbol, k);
    forall j | 0 <= j < |entries| && entries[j].0 == k ensures j == i {
      assert Keys(entries)[j] == Keys(entries)[i];
    }
  }

  /** A symbol is listed as high-dividend exactly when some successful entry of it has a truthy
      yield at or above the target. */
  lemma HighDividendMembers(entries: seq<Entry>, target: real, sym: string)
    ensures sym in FilterMap(entries, e => HighDividend(e, target), Symbol) <==>
              exists i :: 0 <= i < |entries| && entries[i].0 == sym && Succeeded(entries[i])
                          && Truthy(entries[i].1.dyPct) && entries[i].1.dyPct.value >= target
  {
    FilterMapMembers(entries, e => HighDividend(e, target), Symbol, sym);
  }

  /** The average yield is None exactly when no successful entry has a truthy yield; otherwise it
      is within rounding of the bounds of those yields. */
  lemma AverageDyBounds(entries: seq<Entry>, lo: real, hi: real)
    requires forall i :: 0 <= i < |entries| && HasDy(entries[i]) ==> lo <= entries[i].1.dyPct.value <= hi
    ensures AverageDy(entries).None? <==> forall i :: 0 <= i < |entries| ==> !HasDy(entries[i])
    ensures AverageDy(entries).Some? ==> lo - 0.005 <= AverageDy(entries).value <= hi + 0.005
  {
    var ys := DyValues(entries);
    FilterMapEmpty(entries, HasDy, DyOf);
    if ys != [] {
      forall k | 0 <= k < |ys| ensures lo <= ys[k] <= hi {
        FilterMapMembers(entries, HasDy, DyOf, ys[k]);
      }
      MeanBounds(ys, lo, hi);
    }
  }
}
