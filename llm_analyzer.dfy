/** The hybrid analysis (app/predictor/llm_analyzer.py): when the policy asks for it, the item's
    text is sent to an LLM provider and its score is blended with the keyword score; on any
    failure the keyword analysis is kept. The provider is an input of the model: a function from
    the text and the company to what the call produced. */
module LlmAnalyzer {
  import opened Wrappers
  import opened Text
  import opened Collector
  import opened Analyzer
  import opened LlmProvider

  /** What awaiting the provider produced: a response, or an exception with its message. */
  datatype ProviderOutcome = Responded(response: LLMResponse) | Raised(message: string)

  const Hybrid: string := "hybrid"

  /** The text sent to the provider: "title. description", stripped. */
  function LlmText(it: Item): string {
    Strip(Shown(it.title) + ". " + Shown(it.description))
  }

  /** The text always holds the '.', so the guard against an empty text never fires. */
  lemma LlmTextNonEmpty(it: Item)
    ensures LlmText(it) != []
  {
    var raw := Shown(it.title) + ". " + Shown(it.description);
    assert raw[|Shown(it.title)|] == '.';
    StripKeeps(raw, |Shown(it.title)|);
  }

  /** The 30/70 blend of keyword and LLM scores. */
  function Blend(keyword: real, llm: real): (s: real)
    ensures -1.0 <= keyword <= 1.0 && -1.0 <= llm <= 1.0 ==> -1.0 <= s <= 1.0
    ensures keyword == llm ==> s == keyword
  {
    keyword * 0.3 + llm * 0.7
  }

  /** A keyword score of 0.4 and an LLM score of 0.8 give 0.68, a high probability. */
  lemma BlendExample()
    ensures Blend(0.4, 0.8) == 0.68 && CategoryOf(Blend(0.4, 0.8)) == HighProbability
  {
  }

  /** The keyword analysis marked as not using the LLM. */
  function KeywordOnly(a: Analysis): (r: Analysis)
    ensures r.llmUsed == Some(false) && r.llmError == a.llmError && r.llm == a.llm
    ensures r.score == a.score && r.category == a.category && r.item == a.item
  {
    a.(llmUsed := Some(false))
  }

  /** The keyword analysis marked as not using the LLM, with the error that prevented it. */
  function KeywordWithError(a: Analysis, error: Option<string>): (r: Analysis)
    ensures r.llmUsed == Some(false) && r.llmError == Some(error) && r.llm == a.llm
    ensures r.score == a.score && r.category == a.category && r.item == a.item
  {
    a.(llmUsed := Some(false), llmError := Some(error))
  }

  /** The keyword analysis updated by a successful response. */
  function Hybridized(a: Analysis, resp: LLMResponse): (r: Analysis)
    ensures r.score == Blend(a.score, resp.score) && r.category == CategoryOf(r.score)
    ensures r.llmUsed == Some(true) && r.llmError == a.llmError
    ensures r.llm == Some(LlmDetails(resp.score, resp.sentiment, resp.confidence, resp.reasoning, Hybrid))
    ensures r.item == a.item && r.matchedKeywords == a.matchedKeywords
            && r.mentionedCompanies == a.mentionedCompanies && r.isRelevant == a.isRelevant
  {
    var combined := Blend(a.score, resp.score);
    a.(score := combined, category := CategoryOf(combined), llmUsed := Some(true),
       llm := Some(LlmDetails(resp.score, resp.sentiment, resp.confidence, resp.reasoning, Hybrid)))
  }

  class LLMNewsAnalyzer {
    var useLlmFor: string
    var confidenceThreshold: real
    var timeout: int
    var isAvailable: bool

    constructor (useLlmFor: string, confidenceThreshold: real, timeout: int)
      ensures this.useLlmFor == useLlmFor && this.confidenceThreshold == confidenceThreshold
      ensures this.timeout == timeout && !isAvailable
    {
      this.useLlmFor := useLlmFor;
      this.confidenceThreshold := confidenceThreshold;
      this.timeout := timeout;
      isAvailable := false;
    }

    /** initialize: the availability is the provider's answer. The warm-up request, made only
        when available and asked for, can only log a warning, so it has no part in the model. */
    method Initialize(available: bool) returns (ok: bool)
      modifies this
      ensures isAvailable == available && ok == available
      ensures useLlmFor == old(useLlmFor) && confidenceThreshold == old(confidenceThreshold)
      ensures timeout == old(timeout)
    {
      isAvailable := available;
      ok := isAvailable;
    }

    /** should_use_llm. */
    predicate ShouldUseLlm(score: real, isRelevant: bool)
      reads this
      ensures ShouldUseLlm(score, isRelevant) <==>
                isAvailable && (useLlmFor == "all" || (useLlmFor == "relevant_only" && isRelevant)
                                || (useLlmFor == "uncertain" && -confidenceThreshold < score < confidenceThreshold))
    {
      if !isAvailable then false
      else if useLlmFor == "all" then true
      else if useLlmFor == "relevant_only" then isRelevant
      else if useLlmFor == "uncertain" then (if score < 0.0 then -score else score) < confidenceThreshold
      else false
    }

    /** analyze_item: the keyword analysis, merged with the provider's answer when the policy
        asks for one. */
    function AnalyzeItem(it: Item, a: Analysis, company: Option<string>,
                         provider: (string, Option<string>) -> ProviderOutcome): (r: Analysis)
      reads this
      ensures !ShouldUseLlm(a.score, a.isRelevant) ==> r == KeywordOnly(a)
      ensures ShouldUseLlm(a.score, a.isRelevant) && LlmText(it) == [] ==> r == KeywordOnly(a)
      ensures ShouldUseLlm(a.score, a.isRelevant) && LlmText(it) != [] ==>
                match provider(LlmText(it), company)
                case Raised(m) => r == KeywordWithError(a, Some(m))
                case Responded(resp) =>
                  if resp.success then r == Hybridized(a, resp) else r == KeywordWithError(a, resp.error)
    {
      if !ShouldUseLlm(a.score, a.isRelevant) then KeywordOnly(a)
      else
        var text := LlmText(it);
        if text == [] then KeywordOnly(a)
        else
          match provider(text, company)
          case Raised(m) => KeywordWithError(a, Some(m))
          case Responded(resp) =>
            if !resp.success then KeywordWithError(a, resp.error)
            else Hybridized(a, resp)
    }

    /** Whenever the LLM is not used, every keyword field of the analysis is kept. */
    lemma FallbackKeepsKeywords(it: Item, a: Analysis, company: Option<string>,
                                provider: (string, Option<string>) -> ProviderOutcome)
      ensures var r := AnalyzeItem(it, a, company, provider);
              r.llmUsed == Some(false) ==>
                r.(llmUsed := a.llmUsed, llmError := a.llmError) == a
    {
      LlmTextNonEmpty(it);
    }

    /** The hybrid result of the documented example. */
    lemma HybridExample(it: Item, a: Analysis, company: Option<string>,
                        provider: (string, Option<string>) -> ProviderOutcome)
      requires isAvailable && useLlmFor == "all" && a.score == 0.4
      requires provider(LlmText(it), company).Responded?
      requires provider(LlmText(it), company).response.success
      requires provider(LlmText(it), company).response.score == 0.8
      ensures AnalyzeItem(it, a, company, provider).score == 0.68
      ensures AnalyzeItem(it, a, company, provider).category == HighProbability
      ensures AnalyzeItem(it, a, company, provider).llmUsed == Some(true)
    {
      LlmTextNonEmpty(it);
      BlendExample();
    }

    /** One result of analyze_batch: the pair's analysis, or the keyword analysis with the
        exception's message when its task raised. */
    function BatchEntry(items: seq<Item>, analyses: seq<Analysis>, i: int, company: Option<string>,
                        provider: (string, Option<string>) -> ProviderOutcome,
                        crashed: int -> Option<string>): Analysis
      requires 0 <= i < |items| && i < |analyses|
      reads this
    {
      if crashed(i).Some? then KeywordWithError(analyses[i], crashed(i))
      else AnalyzeItem(items[i], analyses[i], company, provider)
    }

    /** What analyze_batch returns. `crashed(i)` is the message of an exception that escaped
        task i (None when the task completed). */
    function BatchResults(items: seq<Item>, analyses: seq<Analysis>, companies: Option<seq<string>>,
                          provider: (string, Option<string>) -> ProviderOutcome,
                          crashed: int -> Option<string>): (r: seq<Analysis>)
      reads this
      ensures !isAvailable ==> |r| == |analyses|
      ensures isAvailable ==> |r| == (if |items| < |analyses| then |items| else |analyses|)
    {
      if !isAvailable then seq(|analyses|, i requires 0 <= i < |analyses| => KeywordOnly(analyses[i]))
      else
        var company := if companies.Some? && companies.value != [] then Some(companies.value[0]) else None;
        var n := if |items| < |analyses| then |items| else |analyses|;
        seq(n, i requires 0 <= i < n reads this => BatchEntry(items, analyses, i, company, provider, crashed))
    }

    /** Without the LLM every analysis comes back, in order, unchanged but for llm_used = false;
        with it, result i belongs to pair i: the LLM analysis of items[i] merged into analyses[i],
        or analyses[i] with the error when that task raised. */
    lemma BatchPairs(items: seq<Item>, analyses: seq<Analysis>, companies: Option<seq<string>>,
                     provider: (string, Option<string>) -> ProviderOutcome, crashed: int -> Option<string>)
      ensures var r := BatchResults(items, analyses, companies, provider, crashed);
              (!isAvailable ==> forall i :: 0 <= i < |r| ==>
                                  r[i].llmUsed == Some(false) && r[i].(llmUsed := analyses[i].llmUsed) == analyses[i])
              && (isAvailable ==> forall i :: 0 <= i < |r| ==>
                   (crashed(i).Some? ==> r[i] == KeywordWithError(analyses[i], crashed(i)))
                   && (crashed(i).None? ==>
                         r[i] == AnalyzeItem(items[i], analyses[i],
                                             if companies.Some? && companies.value != [] then Some(companies.value[0]) else None,
                                             provider)))
    {
      var r := BatchResults(items, analyses, companies, provider, crashed);
      if !isAvailable {
        forall i | 0 <= i < |r|
          ensures r[i].llmUsed == Some(false) && r[i].(llmUsed := analyses[i].llmUsed) == analyses[i]
        {
          assert r[i] == KeywordOnly(analyses[i]);
        }
      } else {
        var company := if companies.Some? && companies.value != [] then Some(companies.value[0]) else None;
        forall i | 0 <= i < |r|
          ensures r[i] == BatchEntry(items, analyses, i, company, provider, crashed)
        {
        }
      }
    }

    /** analyze_batch, processing the pairs in order (the groups of three keep the order). */
    method AnalyzeBatch(items: seq<Item>, analyses: seq<Analysis>, companies: Option<seq<string>>,
                        provider: (string, Option<string>) -> ProviderOutcome,
                        crashed: int -> Option<string>)
      returns (results: seq<Analysis>)
      ensures results == BatchResults(items, analyses, companies, provider, crashed)
    {
      if !isAvailable {
        results := [];
        var k := 0;
        while k < |analyses|
          invariant 0 <= k <= |analyses| && |results| == k
          invariant forall i :: 0 <= i < k ==> results[i] == KeywordOnly(analyses[i])
        {
          results := results + [KeywordOnly(analyses[k])];
          k := k + 1;
        }
        return;
      }
      var company := if companies.Some? && companies.value != [] then Some(companies.value[0]) else None;
      var n := if |items| < |analyses| then |items| else |analyses|;
      results := [];
      var i := 0;
      while i < n
        invariant 0 <= i <= n && |results| == i
        invariant forall j :: 0 <= j < i ==> results[j] == BatchEntry(items, analyses, j, company, provider, crashed)
      {
        var outcome := crashed(i);
        if outcome.Some? {
          var idx := |results|;
          if idx < |analyses| {
            results := results + [KeywordWithError(analyses[idx], outcome)];
          }
        } else {
          results := results + [AnalyzeItem(items[i], analyses[i], company, provider)];
        }
        i := i + 1;
      }
    }
  }
}
