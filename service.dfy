/** The recommendation service (app/reco/service.py): report rows become snapshots, every row
    with a price is scored, filtered by action and minimum score, and the list is ordered BUY
    (best first), then HOLD (best first), then SELL (worst first). */
module Service {
  import opened Wrappers
  import opened Numeric
  import opened Ordering
  import opened RecoModels
  import opened Engine
  import opened Seqs

  /** One `by_symbol` entry of the analysis report as the service reads it; None is a missing
      key. */
  datatype ReportRow = ReportRow(
    price: Option<real>, sma20: Option<real>, sma50: Option<real>, sma200: Option<real>,
    dyPct: Option<real>, high52w: Option<real>, low52w: Option<real>,
    signals: Option<seq<string>>)

  /** build_snapshot: the 20-day trend is the distance of the price from SMA20 in percent, present
      only when both are non-zero; price defaults to 0.0 and signals to []. */
  function BuildSnapshot(symbol: string, d: ReportRow): (t: TickerSnapshot)
    ensures t.trendPct20d.Some? <==> Truthy(d.sma20) && Truthy(d.price)
    ensures t.trendPct20d.Some? ==> t.trendPct20d.value * d.sma20.value == (d.price.value - d.sma20.value) * 100.0
    ensures t.symbol == symbol && t.price == d.price.GetOr(0.0) && t.signals == d.signals.GetOr([])
    ensures t.sma20 == d.sma20 && t.sma50 == d.sma50 && t.sma200 == d.sma200 && t.dyPct == d.dyPct
    ensures t.high52w == d.high52w && t.low52w == d.low52w
  {
    var trend := if Truthy(d.sma20) && Truthy(d.price)
                 then Some((d.price.value - d.sma20.value) / d.sma20.value * 100.0) else None;
    NewSnapshot(symbol, d.price.GetOr(0.0), d.sma20, d.sma50, d.sma200, d.dyPct, trend,
                d.high52w, d.low52w, d.signals)
  }

  /** One element of the returned list. */
  datatype RecoItem = RecoItem(
    symbol: string, price: real, dyPct: Option<real>, action: Action, score: real,
    reasons: seq<Reason>, sizingHint: Option<string>, confidence: Confidence)

  /** The item for a row: make_reco's fields unchanged, with the snapshot's price and yield. */
  function ItemOf(symbol: string, d: ReportRow, c: RecoConfig): RecoItem {
    var t := BuildSnapshot(symbol, d);
    var r := RecoOf(t, c);
    RecoItem(symbol, t.price, t.dyPct, r.action, r.score, r.reasons, r.sizingHint, r.confidence)
  }

  /** The `only` and `min_score` filters; an absent or empty `only` keeps every action. */
  predicate Passes(it: RecoItem, only: Option<seq<string>>, minScore: Option<real>) {
    (only.None? || only.value == [] || it.action.Name() in only.value)
    && (minScore.None? || it.score >= minScore.value)
  }

  /** A row is kept when its price is non-zero and its recommendation passes the filters. */
  predicate Admitted(e: (string, ReportRow), c: RecoConfig, only: Option<seq<string>>, minScore: Option<real>) {
    Truthy(e.1.price) && Passes(ItemOf(e.0, e.1, c), only, minScore)
  }

  /** The items in report order, before sorting. */
  function Collected(rows: seq<(string, ReportRow)>, c: RecoConfig, only: Option<seq<string>>, minScore: Option<real>)
    : seq<RecoItem>
  {
    FilterMap(rows, e => Admitted(e, c, only, minScore), (e: (string, ReportRow)) => ItemOf(e.0, e.1, c))
  }

  /** The sort key: (0, -score) for BUY, (1, -score) for HOLD, (2, score) for SELL. */
  function ServiceKey(it: RecoItem): SortKey {
    match it.action
    case Buy => SortKey(0, -it.score)
    case Hold => SortKey(1, -it.score)
    case Sell => SortKey(2, it.score)
  }

  function ActionRank(a: Action): int {
    match a
    case Buy => 0
    case Hold => 1
    case Sell => 2
  }

  /** The order of the returned list: BUY before HOLD before SELL, BUY and HOLD by
      non-increasing score, SELL by non-decreasing score. */
  predicate ServiceOrdered(s: seq<RecoItem>) {
    forall i, j :: 0 <= i < j < |s| ==>
      && ActionRank(s[i].action) <= ActionRank(s[j].action)
      && (s[i].action == s[j].action && s[i].action != Sell ==> s[i].score >= s[j].score)
      && (s[i].action == Sell && s[j].action == Sell ==> s[i].score <= s[j].score)
  }

  lemma KeySortedIsOrdered(s: seq<RecoItem>)
    requires SortedBy(s, ServiceKey)
    ensures ServiceOrdered(s)
  {
    forall i, j | 0 <= i < j < |s|
      ensures ActionRank(s[i].action) <= ActionRank(s[j].action)
    {
      assert KeyLe(ServiceKey(s[i]), ServiceKey(s[j]));
    }
  }

  /** get_recommendations over a given report. */
  method GetRecommendations(rows: seq<(string, ReportRow)>, c: RecoConfig, only: Option<seq<string>>,
                            minScore: Option<real>) returns (result: seq<RecoItem>)
    ensures result == StableSort(Collected(rows, c, only, minScore), ServiceKey)
  {
    var recommendations: seq<RecoItem> := [];
    var i := 0;
    while i < |rows|
      invariant 0 <= i <= |rows|
      invariant recommendations == Collected(rows[..i], c, only, minScore)
    {
      var (symbol, data) := rows[i];
      assert rows[..i + 1] == rows[..i] + [rows[i]];
      FilterMapAppend(rows[..i], rows[i], e => Admitted(e, c, only, minScore),
                      (e: (string, ReportRow)) => ItemOf(e.0, e.1, c));
      if Truthy(data.price) {
        var snapshot := BuildSnapshot(symbol, data);
        var reco := MakeReco(snapshot, c);
        var item := RecoItem(symbol, snapshot.price, snapshot.dyPct, reco.action, reco.score,
                             reco.reasons, reco.sizingHint, reco.confidence);
        if (only.None? || only.value == [] || reco.action.Name() in only.value)
           && (minScore.None? || reco.score >= minScore.value) {
          recommendations := recommendations + [item];
        }
      }
      i := i + 1;
    }
    assert rows[..i] == rows;
    result := StableSort(recommendations, ServiceKey);
  }

  /** What the returned list promises: ordered by action and score, equal keys in report order,
      and an item is present exactly when an admitted row produces it. */
  lemma RecommendationsSpec(rows: seq<(string, ReportRow)>, c: RecoConfig, only: Option<seq<string>>,
                            minScore: Option<real>, x: RecoItem, k: SortKey)
    ensures ServiceOrdered(StableSort(Collected(rows, c, only, minScore), ServiceKey))
    ensures WithKey(StableSort(Collected(rows, c, only, minScore), ServiceKey), ServiceKey, k)
         == WithKey(Collected(rows, c, only, minScore), ServiceKey, k)
    ensures x in StableSort(Collected(rows, c, only, minScore), ServiceKey) <==>
      exists i :: 0 <= i < |rows| && Admitted(rows[i], c, only, minScore) && x == ItemOf(rows[i].0, rows[i].1, c)
  {
    var s := Collected(rows, c, only, minScore);
    StableSortSorted(s, ServiceKey);
    KeySortedIsOrdered(StableSort(s, ServiceKey));
    StableSortStable(s, ServiceKey, k);
    FilterMapMembers(rows, e => Admitted(e, c, only, minScore), (e: (string, ReportRow)) => ItemOf(e.0, e.1, c), x);
    assert x in multiset(StableSort(s, ServiceKey)) <==> x in multiset(s);
  }

  /** The items of one action, in list order. */
  function OfAction(s: seq<RecoItem>, a: Action): (r: seq<RecoItem>)
    ensures |r| <= |s|
    ensures forall k :: 0 <= k < |r| ==> r[k].action == a && r[k] in s
  {
    if s == [] then []
    else OfAction(s[..|s| - 1], a) + (if s[|s| - 1].action == a then [s[|s| - 1]] else [])
  }

  /** The filter is complete: every item of that action is kept, as often as it occurs. */
  lemma {:induction false} OfActionComplete(s: seq<RecoItem>, a: Action)
    ensures forall x :: x in s && x.action == a ==> x in OfAction(s, a)
    ensures forall x: RecoItem :: x.action == a ==> multiset(OfAction(s, a))[x] == multiset(s)[x]
    decreases |s|
  {
    if s != [] {
      OfActionComplete(s[..|s| - 1], a);
      assert s == s[..|s| - 1] + [s[|s| - 1]];
    }
  }

  /** The filter keeps the order: the items of one action of a concatenation are those of the
      first part followed by those of the second. */
  lemma {:induction false} OfActionAppend(s: seq<RecoItem>, t: seq<RecoItem>, a: Action)
    ensures OfAction(s + t, a) == OfAction(s, a) + OfAction(t, a)
    decreases |t|
  {
    if t == [] {
      assert s + t == s;
    } else {
      var t', x := t[..|t| - 1], t[|t| - 1];
      var last := if x.action == a then [x] else [];
      assert (s + t)[..|s + t| - 1] == s + t';
      assert (s + t)[|s + t| - 1] == x;
      assert OfAction(s + t, a) == OfAction(s + t', a) + last;
      assert OfAction(t, a) == OfAction(t', a) + last;
      OfActionAppend(s, t', a);
    }
  }

  datatype RecoSummary = RecoSummary(
    total: nat, buyCount: nat, holdCount: nat, sellCount: nat,
    topBuys: seq<RecoItem>, topSells: seq<RecoItem>)

  function SummaryOf(all: seq<RecoItem>): RecoSummary {
    RecoSummary(|all|, |OfAction(all, Buy)|, |OfAction(all, Hold)|, |OfAction(all, Sell)|,
                Take(OfAction(all, Buy), 3), Take(OfAction(all, Sell), 3))
  }

  /** Every item has one of the three actions, so the counts add up to the total. */
  lemma {:induction false} ActionCountsAddUp(s: seq<RecoItem>)
    ensures |OfAction(s, Buy)| + |OfAction(s, Hold)| + |OfAction(s, Sell)| == |s|
  {
    if s != [] {
      ActionCountsAddUp(s[..|s| - 1]);
    }
  }

  /** get_recommendations_summary over the unfiltered list. */
  method GetRecommendationsSummary(rows: seq<(string, ReportRow)>, c: RecoConfig) returns (s: RecoSummary)
    ensures s == SummaryOf(StableSort(Collected(rows, c, None, None), ServiceKey))
    ensures var all := StableSort(Collected(rows, c, None, None), ServiceKey);
            s.total == |all| && s.buyCount == |OfAction(all, Buy)| && s.sellCount == |OfAction(all, Sell)|
            && s.topBuys == Take(OfAction(all, Buy), 3) && s.topSells == Take(OfAction(all, Sell), 3)
    ensures s.buyCount + s.holdCount + s.sellCount == s.total
    ensures |s.topBuys| <= 3 && |s.topSells| <= 3
    ensures forall k :: 0 <= k < |s.topBuys| ==> s.topBuys[k].action == Buy
    ensures forall k :: 0 <= k < |s.topSells| ==> s.topSells[k].action == Sell
  {
    var all := GetRecommendations(rows, c, None, None);
    ActionCountsAddUp(all);
    s := SummaryOf(all);
  }
}
