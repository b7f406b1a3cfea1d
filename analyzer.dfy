/** Keyword analysis of collected items (app/predictor/analyzer.py): every configured keyword
    found in the lower-cased text adds (positive) or subtracts (negative) its weight, 2 for the
    strong words and 1 otherwise; the sum is divided by 5 and clamped to [-1, 1]; the score
    picks a category; target companies are found as whole words. */
module Analyzer {
  import opened Wrappers
  import opened Text
  import opened Ordering
  import opened Seqs
  import opened Collector

  /** Words that weigh 2 among the positive keywords. */
  const StrongPositive: seq<string> := [
    "запуск", "запущен", "открыт", "открытие", "новый продукт", "расширение", "рост", "прибыль",
    "успешно", "лидер", "инновация"]

  /** Words that weigh 2 among the negative keywords. */
  const StrongNegative: seq<string> := [
    "санкции", "убытки", "падение", "кризис", "расследование", "приостановка", "закрыт",
    "банкротство", "штраф", "скандал"]

  /** The default keyword lists of the predictor configuration. */
  const DefaultPositiveKeywords: seq<string> := [
    "запуск", "запущен", "фьючерс", "опцион", "новая секция", "развитие продукта", "тестирование",
    "лицензия", "расширение торгов", "API", "инновация", "партнёрство", "открытие", "прибыль",
    "рост", "успешно", "одобрен"]
  const DefaultNegativeKeywords: seq<string> := [
    "расследование", "приостановка", "санкции", "убытки", "падение", "кризис", "банкротство",
    "штраф", "скандал", "закрыт", "отменён"]

  /** The analyzer's state: the keyword lists, lower-cased once at construction. */
  datatype NewsAnalyzer = NewsAnalyzer(positiveKeywords: seq<string>, negativeKeywords: seq<string>)

  /** NewsAnalyzer(positive, negative). */
  function NewAnalyzer(positive: seq<string>, negative: seq<string>): (a: NewsAnalyzer)
    ensures |a.positiveKeywords| == |positive| && |a.negativeKeywords| == |negative|
    ensures forall i :: 0 <= i < |positive| ==> a.positiveKeywords[i] == Lower(positive[i])
    ensures forall i :: 0 <= i < |negative| ==> a.negativeKeywords[i] == Lower(negative[i])
  {
    NewsAnalyzer(seq(|positive|, i requires 0 <= i < |positive| => Lower(positive[i])),
                 seq(|negative|, i requires 0 <= i < |negative| => Lower(negative[i])))
  }

  function Weight(kw: string, strong: seq<string>): real {
    if kw in strong then 2.0 else 1.0
  }

  /** The summed weight of the keywords found in t; each keyword counts once. */
  function Hits(kws: seq<string>, strong: seq<string>, t: string): real
    decreases |kws|
  {
    if kws == [] then 0.0
    else Hits(kws[..|kws| - 1], strong, t)
         + (if Contains(t, kws[|kws| - 1]) then Weight(kws[|kws| - 1], strong) else 0.0)
  }

  /** The keywords found in t, tagged with a sign, in list order. */
  function Tagged(kws: seq<string>, t: string, sign: string): seq<string> {
    FilterMap(kws, (kw: string) => Contains(t, kw), (kw: string) => sign + kw)
  }

  /** The unnormalised score of lower-cased text t. */
  function RawScore(a: NewsAnalyzer, t: string): real {
    Hits(a.positiveKeywords, StrongPositive, t) - Hits(a.negativeKeywords, StrongNegative, t)
  }

  /** The matched keywords of lower-cased text t: "+kw" for positive, then "-kw" for negative. */
  function Matched(a: NewsAnalyzer, t: string): seq<string> {
    Tagged(a.positiveKeywords, t, "+") + Tagged(a.negativeKeywords, t, "-")
  }

  /** Division by 5, clamped to [-1, 1]; 0 stays 0. */
  function Normalize(raw: real): (s: real)
    ensures -1.0 <= s <= 1.0
    ensures (s > 0.0 <==> raw > 0.0) && (s < 0.0 <==> raw < 0.0)
    ensures -5.0 <= raw <= 5.0 ==> s * 5.0 == raw
  {
    if raw > 0.0 then (if raw / 5.0 < 1.0 then raw / 5.0 else 1.0)
    else if raw < 0.0 then (if raw / 5.0 > -1.0 then raw / 5.0 else -1.0)
    else raw
  }

  /** The (score, matched keywords) pair of _calculate_keyword_score. */
  function KeywordScore(a: NewsAnalyzer, text: string): (real, seq<string>) {
    var t := Lower(text);
    (Normalize(RawScore(a, t)), Matched(a, t))
  }

  /** _calculate_keyword_score: two passes over the keyword lists. */
  method CalculateKeywordScore(a: NewsAnalyzer, text: string) returns (score: real, matched: seq<string>)
    ensures (score, matched) == KeywordScore(a, text)
  {
    var t := Lower(text);
    var raw := 0.0;
    matched := [];
    var pos := a.positiveKeywords;
    var i := 0;
    while i < |pos|
      invariant 0 <= i <= |pos|
      invariant raw == Hits(pos[..i], StrongPositive, t)
      invariant matched == Tagged(pos[..i], t, "+")
    {
      HitsStep(pos, i, StrongPositive, t);
      TaggedStep(pos, i, t, "+");
      if Contains(t, pos[i]) {
        raw := raw + Weight(pos[i], StrongPositive);
        matched := matched + ["+" + pos[i]];
      }
      i := i + 1;
    }
    assert pos[..i] == pos;
    var neg := a.negativeKeywords;
    var positives := matched;
    var j := 0;
    while j < |neg|
      invariant 0 <= j <= |neg|
      invariant raw == Hits(pos, StrongPositive, t) - Hits(neg[..j], StrongNegative, t)
      invariant matched == positives + Tagged(neg[..j], t, "-")
    {
      HitsStep(neg, j, StrongNegative, t);
      TaggedStep(neg, j, t, "-");
      if Contains(t, neg[j]) {
        raw := raw - Weight(neg[j], StrongNegative);
        matched := matched + ["-" + neg[j]];
      }
      j := j + 1;
    }
    assert neg[..j] == neg;
    score := Normalize(raw);
  }

  lemma HitsStep(kws: seq<string>, i: nat, strong: seq<string>, t: string)
    requires i < |kws|
    ensures Hits(kws[..i + 1], strong, t)
            == Hits(kws[..i], strong, t) + (if Contains(t, kws[i]) then Weight(kws[i], strong) else 0.0)
  {
    assert kws[..i + 1][..i] == kws[..i];
  }

  lemma TaggedStep(kws: seq<string>, i: nat, t: string, sign: string)
    requires i < |kws|
    ensures Tagged(kws[..i + 1], t, sign) == Tagged(kws[..i], t, sign) + (if Contains(t, kws[i]) then [sign + kws[i]] else [])
  {
    assert kws[..i + 1] == kws[..i] + [kws[i]];
    FilterMapAppend(kws[..i], kws[i], (kw: string) => Contains(t, kw), (kw: string) => sign + kw);
  }

  /** When no keyword occurs, nothing is matched and the score is exactly 0. */
  lemma {:induction false} HitsNone(kws: seq<string>, strong: seq<string>, t: string)
    requires forall i :: 0 <= i < |kws| ==> !Contains(t, kws[i])
    ensures Hits(kws, strong, t) == 0.0
    decreases |kws|
  {
    if kws != [] {
      var init := kws[..|kws| - 1];
      assert forall i :: 0 <= i < |init| ==> init[i] == kws[i];
      HitsNone(init, strong, t);
    }
  }

  /** The summed weight lies between 0 and twice the number of keywords. */
  lemma {:induction false} HitsBounds(kws: seq<string>, strong: seq<string>, t: string)
    ensures 0.0 <= Hits(kws, strong, t) <= 2.0 * |kws| as real
    decreases |kws|
  {
    if kws != [] {
      HitsBounds(kws[..|kws| - 1], strong, t);
    }
  }

  /** The matched list is empty exactly when no keyword occurs in the text. */
  lemma TaggedEmpty(kws: seq<string>, t: string, sign: string)
    ensures Tagged(kws, t, sign) == [] <==> forall i :: 0 <= i < |kws| ==> !Contains(t, kws[i])
  {
    FilterMapEmpty(kws, (kw: string) => Contains(t, kw), (kw: string) => sign + kw);
  }

  /** Nothing matched gives a score of exactly 0. */
  lemma NoMatchScoresZero(a: NewsAnalyzer, text: string)
    requires KeywordScore(a, text).1 == []
    ensures KeywordScore(a, text).0 == 0.0
  {
    var t := Lower(text);
    assert Tagged(a.positiveKeywords, t, "+") == [] && Tagged(a.negativeKeywords, t, "-") == [];
    TaggedEmpty(a.positiveKeywords, t, "+");
    TaggedEmpty(a.negativeKeywords, t, "-");
    HitsNone(a.positiveKeywords, StrongPositive, t);
    HitsNone(a.negativeKeywords, StrongNegative, t);
  }

  datatype Category = HighProbability | MediumProbability | Negative | Neutral {
    function Name(): string {
      match this
      case HighProbability => "HIGH_PROBABILITY"
      case MediumProbability => "MEDIUM_PROBABILITY"
      case Negative => "NEGATIVE"
      case Neutral => "NEUTRAL"
    }
  }

  /** The category thresholds, shared by the keyword and the hybrid analysis. */
  function CategoryOf(score: real): (c: Category)
    ensures c == HighProbability <==> score >= 0.6
    ensures c == MediumProbability <==> 0.2 <= score < 0.6
    ensures c == Negative <==> score <= -0.4
    ensures c == Neutral <==> -0.4 < score < 0.2
  {
    if score >= 0.6 then HighProbability
    else if score >= 0.2 then MediumProbability
    else if score <= -0.4 then Negative
    else Neutral
  }

  /** The companies of the list that occur as whole words in the lower-cased text, in list
      order and with their own spelling. */
  function Mentions(text: string, companies: seq<string>): seq<string> {
    FilterMap(companies, (c: string) => Mentioned(text, c), (c: string) => c)
  }

  /** The company occurs as a whole word, case-insensitively. */
  predicate Mentioned(text: string, c: string) {
    WholeWordIn(Lower(text), Lower(c))
  }

  /** _detect_company_mentions. */
  method DetectCompanyMentions(text: string, companies: seq<string>) returns (mentioned: seq<string>)
    ensures mentioned == Mentions(text, companies)
  {
    var t := Lower(text);
    mentioned := [];
    var i := 0;
    while i < |companies|
      invariant 0 <= i <= |companies|
      invariant mentioned == Mentions(text, companies[..i])
    {
      FilterMapAppend(companies[..i], companies[i], (c: string) => Mentioned(text, c), (c: string) => c);
      assert companies[..i + 1] == companies[..i] + [companies[i]];
      if Mentioned(text, companies[i]) {
        mentioned := mentioned + [companies[i]];
      }
      i := i + 1;
    }
    assert companies[..i] == companies;
  }

  /** A company is reported exactly when it is in the list and occurs as a whole word. */
  lemma MentionsMembers(text: string, companies: seq<string>, c: string)
    ensures c in Mentions(text, companies) <==> c in companies && Mentioned(text, c)
  {
    FilterMapMembers(companies, (c: string) => Mentioned(text, c), (c: string) => c, c);
  }

  /** The fields the hybrid analysis adds. */
  datatype LlmDetails = LlmDetails(llmScore: real, llmSentiment: string, llmConfidence: string,
                                   llmReasoning: string, analysisMethod: string)

  /** An analysed item: the item's own fields, the analysis fields, and the keys the LLM analysis
      may add (None when absent; `llmError` may hold Python's None, the inner None). */
  datatype Analysis = Analysis(
    item: Item, score: real, category: Category, matchedKeywords: seq<string>,
    mentionedCompanies: seq<string>, isRelevant: bool,
    llmUsed: Option<bool>, llmError: Option<Option<string>>, llm: Option<LlmDetails>)

  /** How an f-string shows a possibly-None string. */
  function Shown(s: Option<string>): string {
    if s.Some? then s.value else "None"
  }

  /** The analysed text: title, a space, description. */
  function ItemText(it: Item): string {
    Shown(it.title) + " " + Shown(it.description)
  }

  /** analyze_item. Companies are searched only when the target list is non-empty. */
  function Analyze(a: NewsAnalyzer, it: Item, targets: Option<seq<string>>): (r: Analysis)
    ensures r.item == it && r.llmUsed.None? && r.llmError.None? && r.llm.None?
    ensures -1.0 <= r.score <= 1.0 && r.category == CategoryOf(r.score)
    ensures r.isRelevant <==> r.mentionedCompanies != [] || r.matchedKeywords != []
    ensures (targets.None? || targets.value == []) ==> r.mentionedCompanies == []
  {
    var text := ItemText(it);
    var ks := KeywordScore(a, text);
    var mentioned := if targets.Some? && targets.value != [] then Mentions(text, targets.value) else [];
    Analysis(it, ks.0, CategoryOf(ks.0), ks.1, mentioned, |mentioned| > 0 || |ks.1| > 0, None, None, None)
  }

  /** Relevance in terms of the text: some target company occurs as a whole word, or some
      keyword occurs. */
  lemma RelevantIff(a: NewsAnalyzer, it: Item, targets: Option<seq<string>>)
    ensures var t := Lower(ItemText(it));
            Analyze(a, it, targets).isRelevant <==>
              (targets.Some? && exists c :: c in targets.value && Mentioned(ItemText(it), c))
              || (exists i :: 0 <= i < |a.positiveKeywords| && Contains(t, a.positiveKeywords[i]))
              || (exists i :: 0 <= i < |a.negativeKeywords| && Contains(t, a.negativeKeywords[i]))
  {
    var t := Lower(ItemText(it));
    TaggedEmpty(a.positiveKeywords, t, "+");
    TaggedEmpty(a.negativeKeywords, t, "-");
    if targets.Some? && targets.value != [] {
      MentionsEmpty(ItemText(it), targets.value);
    }
  }

  /** No company is reported exactly when none occurs. */
  lemma MentionsEmpty(text: string, cs: seq<string>)
    ensures Mentions(text, cs) != [] <==> exists c :: c in cs && Mentioned(text, c)
  {
    FilterMapEmpty(cs, (c: string) => Mentioned(text, c), (c: string) => c);
    if exists c :: c in cs && Mentioned(text, c) {
      var c :| c in cs && Mentioned(text, c);
      var i :| 0 <= i < |cs| && cs[i] == c;
    }
  }

  /** analyze_item as a method over the two helper methods. */
  method AnalyzeItem(a: NewsAnalyzer, it: Item, targets: Option<seq<string>>) returns (r: Analysis)
    ensures r == Analyze(a, it, targets)
  {
    var text := ItemText(it);
    var score, keywords := CalculateKeywordScore(a, text);
    var mentioned: seq<string> := [];
    if targets.Some? && targets.value != [] {
      mentioned := DetectCompanyMentions(text, targets.value);
    }
    r := Analysis(it, score, CategoryOf(score), keywords, mentioned, |mentioned| > 0 || |keywords| > 0, None, None, None);
  }

  /** The batch order: relevant items first, then by score from high to low; Python's
      `sort(key=(is_relevant, score), reverse=True)` as an ascending stable sort. */
  function BatchKey(x: Analysis): SortKey {
    SortKey(if x.isRelevant then 0 else 1, -x.score)
  }

  /** The analyses of the items in input order. */
  function AnalyzeAll(a: NewsAnalyzer, items: seq<Item>, targets: Option<seq<string>>): (r: seq<Analysis>)
    ensures |r| == |items| && forall i :: 0 <= i < |r| ==> r[i] == Analyze(a, items[i], targets)
  {
    seq(|items|, i requires 0 <= i < |items| => Analyze(a, items[i], targets))
  }

  /** analyze_batch: every item analysed, then sorted by BatchKey. */
  function Batch(a: NewsAnalyzer, items: seq<Item>, targets: Option<seq<string>>): seq<Analysis> {
    StableSort(AnalyzeAll(a, items, targets), BatchKey)
  }

  /** The loop of analyze_batch: every item analysed, in input order. */
  method AnalyzeEach(a: NewsAnalyzer, items: seq<Item>, targets: Option<seq<string>>) returns (analyzed: seq<Analysis>)
    ensures analyzed == AnalyzeAll(a, items, targets)
  {
    analyzed := [];
    var i := 0;
    while i < |items|
      invariant 0 <= i <= |items|
      invariant |analyzed| == i
      invariant forall k :: 0 <= k < i ==> analyzed[k] == Analyze(a, items[k], targets)
    {
      var r := AnalyzeItem(a, items[i], targets);
      analyzed := analyzed + [r];
      i := i + 1;
    }
  }

  method AnalyzeBatch(a: NewsAnalyzer, items: seq<Item>, targets: Option<seq<string>>) returns (analyzed: seq<Analysis>)
    ensures analyzed == Batch(a, items, targets)
  {
    var each := AnalyzeEach(a, items, targets);
    analyzed := StableSort(each, BatchKey);
  }

  /** The batch is a reordering of the analyses: relevant before irrelevant, scores
      non-increasing within each group, and items with equal keys in input order. */
  lemma BatchOrdered(a: NewsAnalyzer, items: seq<Item>, targets: Option<seq<string>>, k: SortKey)
    ensures var b := Batch(a, items, targets);
            multiset(b) == multiset(AnalyzeAll(a, items, targets))
            && (forall i, j :: 0 <= i < j < |b| ==>
                  (b[i].isRelevant || !b[j].isRelevant)
                  && (b[i].isRelevant == b[j].isRelevant ==> b[i].score >= b[j].score))
            && WithKey(b, BatchKey, k) == WithKey(AnalyzeAll(a, items, targets), BatchKey, k)
  {
    var s := AnalyzeAll(a, items, targets);
    StableSortSorted(s, BatchKey);
    StableSortStable(s, BatchKey, k);
    var b := Batch(a, items, targets);
    forall i, j | 0 <= i < j < |b|
      ensures (b[i].isRelevant || !b[j].isRelevant)
              && (b[i].isRelevant == b[j].isRelevant ==> b[i].score >= b[j].score)
    {
      assert KeyLe(BatchKey(b[i]), BatchKey(b[j]));
    }
  }

  /** get_summary_stats. */
  datatype Stats = Stats(total: int, high: int, medium: int, negative: int, neutral: int,
                         relevant: int, avgScore: real)

  function CountCategory(xs: seq<Analysis>, c: Category): nat
    decreases |xs|
  {
    if xs == [] then 0 else CountCategory(xs[..|xs| - 1], c) + (if xs[|xs| - 1].category == c then 1 else 0)
  }

  function CountRelevant(xs: seq<Analysis>): nat
    decreases |xs|
  {
    if xs == [] then 0 else CountRelevant(xs[..|xs| - 1]) + (if xs[|xs| - 1].isRelevant then 1 else 0)
  }

  function SumScores(xs: seq<Analysis>): real
    decreases |xs|
  {
    if xs == [] then 0.0 else SumScores(xs[..|xs| - 1]) + xs[|xs| - 1].score
  }

  function StatsOf(xs: seq<Analysis>): Stats {
    if xs == [] then Stats(0, 0, 0, 0, 0, 0, 0.0)
    else Stats(|xs|, CountCategory(xs, HighProbability), CountCategory(xs, MediumProbability),
               CountCategory(xs, Negative), CountCategory(xs, Neutral), CountRelevant(xs),
               SumScores(xs) / |xs| as real)
  }

  method GetSummaryStats(xs: seq<Analysis>) returns (stats: Stats)
    ensures stats == StatsOf(xs)
  {
    if xs == [] {
      return Stats(0, 0, 0, 0, 0, 0, 0.0);
    }
    var high, medium, negative, neutral, relevant := 0, 0, 0, 0, 0;
    var total := 0.0;
    var i := 0;
    while i < |xs|
      invariant 0 <= i <= |xs|
      invariant high == CountCategory(xs[..i], HighProbability) && medium == CountCategory(xs[..i], MediumProbability)
      invariant negative == CountCategory(xs[..i], Negative) && neutral == CountCategory(xs[..i], Neutral)
      invariant relevant == CountRelevant(xs[..i]) && total == SumScores(xs[..i])
    {
      assert xs[..i + 1][..i] == xs[..i];
      match xs[i].category {
        case HighProbability => high := high + 1;
        case MediumProbability => medium := medium + 1;
        case Negative => negative := negative + 1;
        case Neutral => neutral := neutral + 1;
      }
      if xs[i].isRelevant {
        relevant := relevant + 1;
      }
      total := total + xs[i].score;
      i := i + 1;
    }
    assert xs[..i] == xs;
    stats := Stats(|xs|, high, medium, negative, neutral, relevant, total / |xs| as real);
  }

  /** The four category counts add up to the total, and at most every item is relevant. */
  lemma {:induction false} CountsAddUp(xs: seq<Analysis>)
    ensures CountCategory(xs, HighProbability) + CountCategory(xs, MediumProbability)
            + CountCategory(xs, Negative) + CountCategory(xs, Neutral) == |xs|
    ensures CountRelevant(xs) <= |xs|
    decreases |xs|
  {
    if xs != [] {
      CountsAddUp(xs[..|xs| - 1]);
    }
  }

  /** The summary of a batch: the totals agree with the batch, and the average lies within the
      score range when every score does. */
  lemma StatsFacts(xs: seq<Analysis>)
    ensures var st := StatsOf(xs);
            st.total == |xs| && st.high + st.medium + st.negative + st.neutral == st.total
            && st.relevant <= st.total
            && ((forall i :: 0 <= i < |xs| ==> -1.0 <= xs[i].score <= 1.0) ==> -1.0 <= st.avgScore <= 1.0)
  {
    CountsAddUp(xs);
    if xs != [] {
      SumScoresBounds(xs);
      if forall i :: 0 <= i < |xs| ==> -1.0 <= xs[i].score <= 1.0 {
        RatioBounds(SumScores(xs), |xs| as real);
      }
    }
  }

  lemma RatioBounds(x: real, n: real)
    requires n > 0.0 && -n <= x <= n
    ensures -1.0 <= x / n <= 1.0
  {
    assert (x / n) * n == x;
  }

  lemma {:induction false} SumScoresBounds(xs: seq<Analysis>)
    ensures (forall i :: 0 <= i < |xs| ==> -1.0 <= xs[i].score <= 1.0) ==>
              -(|xs| as real) <= SumScores(xs) <= |xs| as real
    decreases |xs|
  {
    if xs != [] {
      var init := xs[..|xs| - 1];
      assert forall i :: 0 <= i < |init| ==> init[i] == xs[i];
      SumScoresBounds(init);
    }
  }
}
