/** The event-signal generator (app/predictor/signals.py): the collected items are analysed by
    keywords, optionally refined by the LLM, summarised, and the summary decides a signal level by
    first-matching rules. The clock, the history file and the log are left out; the history is the
    list the file holds, passed in and returned. */
module Signals {
  import opened Wrappers
  import opened Seqs
  import opened Ordering
  import opened Collector
  import opened Analyzer
  import opened LlmAnalyzer

  datatype SignalLevel = NegativeSignal | HighSignal | MediumSignal | LowSignal {
    function Name(): string {
      match this
      case NegativeSignal => "NEGATIVE_SIGNAL"
      case HighSignal => "HIGH_PROBABILITY"
      case MediumSignal => "MEDIUM_PROBABILITY"
      case LowSignal => "LOW"
    }
  }

  /** _calculate_signal_level: the first rule that holds, in order. */
  function LevelOf(st: Stats): (l: SignalLevel)
    ensures l == NegativeSignal <==> st.negative >= 3
    ensures l == HighSignal <==> st.negative < 3 && st.high >= 2 && st.avgScore > 0.4
    ensures l == MediumSignal <==>
              st.negative < 3 && !(st.high >= 2 && st.avgScore > 0.4)
              && ((st.high >= 1 && st.medium >= 2) || (st.medium >= 4 && st.avgScore > 0.3)
                  || (st.relevant >= 5 && st.avgScore > 0.2))
    ensures l == LowSignal <==>
              st.negative < 3 && !(st.high >= 2 && st.avgScore > 0.4)
              && !(st.high >= 1 && st.medium >= 2) && !(st.medium >= 4 && st.avgScore > 0.3)
              && !(st.relevant >= 5 && st.avgScore > 0.2)
  {
    if st.negative >= 3 then NegativeSignal
    else if st.high >= 2 && st.avgScore > 0.4 then HighSignal
    else if (st.high >= 1 && st.medium >= 2) || (st.medium >= 4 && st.avgScore > 0.3) then MediumSignal
    else if st.relevant >= 5 && st.avgScore > 0.2 then MediumSignal
    else LowSignal
  }

  /** The statistics of no items (every key at its default of 0) give LOW. */
  lemma EmptyStatsLow()
    ensures LevelOf(StatsOf([])) == LowSignal
  {
  }

  /** Three negative analyses give NEGATIVE_SIGNAL, whatever else they hold. */
  lemma NegativeBatch(x: Analysis, y: Analysis, z: Analysis)
    requires x.category == Negative && y.category == Negative && z.category == Negative
    ensures LevelOf(StatsOf([x, y, z])) == NegativeSignal
  {
    var xs := [x, y, z];
    assert xs[..2] == [x, y] && [x, y][..1] == [x] && [x][..0] == [];
    assert CountCategory([x], Negative) == 1;
    assert CountCategory([x, y], Negative) == 2;
    assert CountCategory(xs, Negative) == 3;
  }

  /** A count of at least three negatives wins over every positive rule. */
  lemma NegativeWins(xs: seq<Analysis>)
    requires CountCategory(xs, Negative) >= 3
    ensures LevelOf(StatsOf(xs)) == NegativeSignal
  {
  }

  /** _generate_reason, with the numbers kept as values (their text formatting is left out). */
  datatype Reason =
    | HighReason(high: int, avgScore: real, keywords: seq<string>)
    | MediumReason(medium: int, relevant: int, avgScore: real)
    | NegativeReason(negative: int)
    | Insufficient
    | NoData

  const NoDataText: string := "Нет данных для анализа"
  const InsufficientText: string := "Недостаточно данных для формирования значимого сигнала"

  /** The fixed texts of the two reasons that carry no numbers. */
  function FixedText(r: Reason): Option<string> {
    match r
    case Insufficient => Some(InsufficientText)
    case NoData => Some(NoDataText)
    case _ => None
  }

  /** The keywords of the top items, item by item. */
  function TopKeywords(top: seq<Analysis>): seq<string> {
    ConcatMap(top, (a: Analysis) => a.matchedKeywords)
  }

  function KeywordSet(top: seq<Analysis>): set<string> {
    set k | k in TopKeywords(top)
  }

  /** `order` lists the set s once each: how Python iterates a set. */
  ghost predicate Enumerates(order: seq<string>, s: set<string>) {
    (forall i, j :: 0 <= i < j < |order| ==> order[i] != order[j]) && (forall k :: k in order <==> k in s)
  }

  /** The reason for a level; `order` is the iteration order of the keyword set. */
  function ReasonOf(level: SignalLevel, st: Stats, order: seq<string>): (r: Reason)
    ensures level == HighSignal ==> r.HighReason? && r.high == st.high && r.avgScore == st.avgScore
    ensures level == MediumSignal ==> r == MediumReason(st.medium, st.relevant, st.avgScore)
    ensures level == NegativeSignal ==> r == NegativeReason(st.negative)
    ensures level == LowSignal ==> r == Insufficient
  {
    match level
    case HighSignal => HighReason(st.high, st.avgScore, Take(order, 5))
    case MediumSignal => MediumReason(st.medium, st.relevant, st.avgScore)
    case NegativeSignal => NegativeReason(st.negative)
    case LowSignal => Insufficient
  }

  /** The HIGH reason lists at most five distinct keywords, each matched by a top item, and all
      of them when there are at most five. */
  lemma ReasonKeywords(st: Stats, top: seq<Analysis>, order: seq<string>)
    requires Enumerates(order, KeywordSet(top))
    ensures var kws := ReasonOf(HighSignal, st, order).keywords;
            |kws| <= 5
            && (forall i, j :: 0 <= i < j < |kws| ==> kws[i] != kws[j])
            && (forall k :: k in kws ==> exists i :: 0 <= i < |top| && k in top[i].matchedKeywords)
            && (|KeywordSet(top)| <= 5 ==> forall k :: k in KeywordSet(top) ==> k in kws)
  {
    var kws := Take(order, 5);
    forall k | k in kws
      ensures exists i :: 0 <= i < |top| && k in top[i].matchedKeywords
    {
      var idx :| 0 <= idx < |kws| && kws[idx] == k;
      assert order[idx] == k;
      assert k in KeywordSet(top);
      assert k in TopKeywords(top);
      ConcatMapMembers(top, (a: Analysis) => a.matchedKeywords, k);
    }
    if |KeywordSet(top)| <= 5 {
      DistinctCard(order, KeywordSet(top));
    }
  }

  /** A list of distinct elements that enumerates s is as long as s. */
  lemma {:induction false} DistinctCard(order: seq<string>, s: set<string>)
    requires Enumerates(order, s)
    ensures |order| == |s|
    decreases |order|
  {
    if order != [] {
      var last := order[|order| - 1];
      var init := order[..|order| - 1];
      assert forall k :: k in init <==> k in s - {last} by {
        forall k | k in init
          ensures k != last
        {
          var i :| 0 <= i < |init| && init[i] == k;
          assert order[i] == k;
        }
        assert forall k :: k in s - {last} ==> k in order;
        forall k | k in s - {last}
          ensures k in init
        {
          var i :| 0 <= i < |order| && order[i] == k;
          assert i < |order| - 1;
          assert init[i] == k;
        }
      }
      assert forall i, j :: 0 <= i < j < |init| ==> init[i] != init[j] by {
        forall i, j | 0 <= i < j < |init|
          ensures init[i] != init[j]
        {
          assert init[i] == order[i] && init[j] == order[j];
        }
      }
      DistinctCard(init, s - {last});
    }
  }

  /** _save_to_history on the stored list: append, then keep the last 100. */
  function AppendCapped<T>(history: seq<T>, x: T): (r: seq<T>)
    ensures |r| <= 100 && r != [] && r[|r| - 1] == x
    ensures |r| == (if |history| + 1 < 100 then |history| + 1 else 100)
    ensures r == (history + [x])[|history| + 1 - |r|..]
  {
    var h := history + [x];
    if |h| <= 100 then h else h[|h| - 100..]
  }

  /** The result of generate_signal. The early answer for no items has stats {} and
      llm_used = false and no top items or companies; the others have no llm_used key. */
  datatype SignalResult = SignalResult(
    level: SignalLevel, reason: Reason, stats: Option<Stats>, topItems: Option<seq<Analysis>>,
    companies: Option<seq<string>>, llmUsed: Option<bool>)

  const NoDataSignal: SignalResult := SignalResult(LowSignal, NoData, None, None, None, Some(false))

  /** The signal for a non-empty list of analyses: every field is derived from the list. */
  function SignalOf(analyzed: seq<Analysis>, targets: Option<seq<string>>,
                    keywordOrder: set<string> -> seq<string>): (r: SignalResult)
    ensures r.stats == Some(StatsOf(analyzed)) && r.level == LevelOf(StatsOf(analyzed))
    ensures r.topItems == Some(Take(analyzed, 5))
    ensures r.companies == Some(if targets.Some? then targets.value else [])
    ensures r.llmUsed.None?
  {
    var st := StatsOf(analyzed);
    var level := LevelOf(st);
    var top := Take(analyzed, 5);
    SignalResult(level, ReasonOf(level, st, keywordOrder(KeywordSet(top))), Some(st), Some(top),
                 Some(if targets.Some? then targets.value else []), None)
  }

  /** The vacancy queries: the targets, when there are any and vacancies are enabled. */
  function VacancyQueries(targets: Option<seq<string>>, useVacancies: bool): Option<seq<string>> {
    if targets.Some? && targets.value != [] && useVacancies then targets else None
  }

  /** The items in collection order and the keyword analyses in their sorted order are paired by
      position: with an irrelevant item first and a relevant one second, pair 0 holds the first
      item and the analysis of the second. */
  lemma PairingMismatch(a: NewsAnalyzer, x: Item, y: Item, targets: Option<seq<string>>)
    requires !Analyze(a, x, targets).isRelevant && Analyze(a, y, targets).isRelevant
    ensures var sorted := Batch(a, [x, y], targets);
            |sorted| == 2 && sorted[0].item == y && sorted[1].item == x
  {
    var ax, ay := Analyze(a, x, targets), Analyze(a, y, targets);
    assert AnalyzeAll(a, [x, y], targets) == [ax, ay];
    RelevantFirst(ax, ay);
  }

  /** Sorting an irrelevant analysis followed by a relevant one swaps them. */
  lemma RelevantFirst(ax: Analysis, ay: Analysis)
    requires !ax.isRelevant && ay.isRelevant
    ensures StableSort([ax, ay], BatchKey) == [ay, ax]
  {
    assert [ax, ay][1..] == [ay];
    assert [ay][1..] == [];
    assert StableSort([ay], BatchKey) == [ay];
    assert !KeyLe(BatchKey(ax), BatchKey(ay));
    assert InsertBy(ax, [ay], BatchKey) == [ay] + InsertBy(ax, [], BatchKey);
  }

  class EventSignalGenerator {
    var collector: NewsCollector
    var analyzer: NewsAnalyzer
    var llmAnalyzer: LLMNewsAnalyzer?
    var useVacancies: bool
    var llmWarmup: bool

    /** The generator of a configuration: its collector and keyword analyzer, and an LLM
        analyzer when the LLM is enabled. */
    constructor (sources: seq<string>, cacheTtl: int, positive: seq<string>, negative: seq<string>,
                 llmEnabled: bool, llmUseFor: string, llmThreshold: real, llmTimeout: int,
                 useVacancies: bool, llmWarmup: bool)
      ensures fresh(collector) && collector.sources == sources && collector.cacheTtl == cacheTtl
      ensures collector.cache == map[]
      ensures analyzer == NewAnalyzer(positive, negative)
      ensures llmEnabled <==> llmAnalyzer != null
      ensures llmAnalyzer != null ==> fresh(llmAnalyzer) && !llmAnalyzer.isAvailable
                                      && llmAnalyzer.useLlmFor == llmUseFor
                                      && llmAnalyzer.confidenceThreshold == llmThreshold
                                      && llmAnalyzer.timeout == llmTimeout
      ensures this.useVacancies == useVacancies && this.llmWarmup == llmWarmup
    {
      collector := new NewsCollector(sources, cacheTtl);
      analyzer := NewAnalyzer(positive, negative);
      if llmEnabled {
        llmAnalyzer := new LLMNewsAnalyzer(llmUseFor, llmThreshold, llmTimeout);
      } else {
        llmAnalyzer := null;
      }
      this.useVacancies := useVacancies;
      this.llmWarmup := llmWarmup;
    }

    /** The analyses the summary is built from: the LLM batch when the LLM analyzer exists and is
        available, otherwise the keyword batch. */
    function Analyzed(items: seq<Item>, targets: Option<seq<string>>,
                      provider: (string, Option<string>) -> ProviderOutcome,
                      crashed: int -> Option<string>): seq<Analysis>
      reads this, llmAnalyzer
    {
      var keyword := Batch(analyzer, items, targets);
      if llmAnalyzer != null && llmAnalyzer.isAvailable
      then llmAnalyzer.BatchResults(items, keyword, targets, provider, crashed)
      else keyword
    }

    /** generate_signal. The inputs stand for what the call observes: the provider's
        availability, the two clock readings of the collector, the fetched sources,
        the LLM's answers, and the set iteration order; `history` is the stored list. */
    method GenerateSignal(targets: Option<seq<string>>, saveHistory: bool, history: seq<SignalResult>,
                          available: bool, checkTime: real, storeTime: real,
                          rss: string -> Option<seq<XmlItem>>, vacancies: string -> Option<seq<Vacancy>>,
                          provider: (string, Option<string>) -> ProviderOutcome,
                          crashed: int -> Option<string>, keywordOrder: set<string> -> seq<string>)
      returns (result: SignalResult, newHistory: seq<SignalResult>)
      modifies collector, llmAnalyzer
      ensures llmAnalyzer != null ==> llmAnalyzer.isAvailable == available
      ensures llmAnalyzer != null ==>
                llmAnalyzer.useLlmFor == old(llmAnalyzer.useLlmFor)
                && llmAnalyzer.confidenceThreshold == old(llmAnalyzer.confidenceThreshold)
                && llmAnalyzer.timeout == old(llmAnalyzer.timeout)
      ensures collector.sources == old(collector.sources) && collector.cacheTtl == old(collector.cacheTtl)
      ensures old(collector.IsCacheValid(CacheKey, checkTime)) ==> collector.cache == old(collector.cache)
      ensures !old(collector.IsCacheValid(CacheKey, checkTime)) ==>
                collector.cache == old(collector.cache)[CacheKey := (storeTime, Collected(collector.sources, rss, VacancyQueries(targets, useVacancies), vacancies))]
      ensures var items := if old(collector.IsCacheValid(CacheKey, checkTime)) then old(collector.cache)[CacheKey].1
                           else Collected(collector.sources, rss, VacancyQueries(targets, useVacancies), vacancies);
              (items == [] ==> result == NoDataSignal && newHistory == history)
              && (items != [] ==>
                    result == SignalOf(Analyzed(items, targets, provider, crashed), targets, keywordOrder)
                    && newHistory == (if saveHistory then AppendCapped(history, result) else history))
    {
      if llmAnalyzer != null {
        var _ := llmAnalyzer.Initialize(available);
      }
      var queries := VacancyQueries(targets, useVacancies);
      var items := collector.CollectAll(checkTime, storeTime, rss, queries, vacancies);
      if items == [] {
        return NoDataSignal, history;
      }
      var keyword := AnalyzeBatch(analyzer, items, targets);
      var analyzed := keyword;
      if llmAnalyzer != null && llmAnalyzer.isAvailable {
        analyzed := llmAnalyzer.AnalyzeBatch(items, keyword, targets, provider, crashed);
      }
      var stats := GetSummaryStats(analyzed);
      var level := LevelOf(stats);
      var top := Take(analyzed, 5);
      var reason := ReasonOf(level, stats, keywordOrder(KeywordSet(top)));
      result := SignalResult(level, reason, Some(stats), Some(top),
                             Some(if targets.Some? then targets.value else []), None);
      newHistory := history;
      if saveHistory {
        newHistory := AppendCapped(history, result);
      }
    }
  }
}
