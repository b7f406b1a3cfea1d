/** The provider-independent half of an LLM provider (app/predictor/llm_provider.py): the
    response record, the sentiment prompt, and the extraction of the JSON answer from the model's
    text. Decoding the JSON itself is an input of the model. */
module LlmProvider {
  import opened Wrappers
  import opened Text

  /** LLMResponse; a response is successful and carries no error unless stated. */
  datatype LLMResponse = LLMResponse(sentiment: string, score: real, confidence: string, reasoning: string,
                                     success: bool := true, error: Option<string> := None)

  /** A response built from the four analysis fields alone is a success without an error. */
  lemma ResponseDefaults(sentiment: string, score: real, confidence: string, reasoning: string)
    ensures var r := LLMResponse(sentiment, score, confidence, reasoning);
            r.success && r.error.None? && r.sentiment == sentiment && r.score == score
  {
  }

  const PromptIntro: string := "Проанализируй тональность финансовой новости"
  const CompanyIntro: string := " о компании '"

  /** The fixed instructions that follow the quoted news text. */
  const PromptTail: string :=
    "\n\nОпредели:\n1. Тональность: positive/neutral/negative\n2. Уверенность: high/medium/low\n"
    + "3. Балл от -1.0 (крайне негативно) до +1.0 (крайне позитивно)\n4. Краткое обоснование (1 предложение)\n\n"
    + "Учитывай:\n- Завуалированные формулировки (например, \"пересматривает стратегию\" = проблемы)\n"
    + "- Контекст для финансовых рынков\n- Возможное влияние на цену акций\n\n"
    + "Ответь СТРОГО в формате JSON:\n{\n  \"sentiment\": \"positive\",\n  \"confidence\": \"high\",\n"
    + "  \"score\": 0.7,\n  \"reasoning\": \"Запуск нового продукта - позитивный сигнал для роста\"\n}\n\nJSON:"


  function CompanyContext(company: Option<string>): string {
    if NonEmpty(company) then CompanyIntro + company.value + "'" else ""
  }

  /** The news text as the prompt embeds it. */
  function Quoted(text: string): string {
    "Новость: \"" + text + "\""
  }

  /** The prompt around a given block of instructions. */
  function PromptWith(text: string, company: Option<string>, tail: string): string {
    PromptIntro + CompanyContext(company) + ".\n\n" + Quoted(text) + tail
  }

  /** _build_sentiment_prompt. */
  function BuildSentimentPrompt(text: string, company: Option<string>): (p: string)
    ensures StartsWith(p, PromptIntro)
    ensures NonEmpty(company) <==> StartsWith(p, PromptIntro + CompanyIntro)
    ensures NonEmpty(company) ==> StartsWith(p, PromptIntro + CompanyIntro + company.value + "'")
    ensures Contains(p, Quoted(text))
  {
    PromptQuotes(text, company, PromptTail);
    if NonEmpty(company) then
      PromptNamesCompany(text, company, PromptTail);
      PrefixOfConcat(PromptIntro, CompanyIntro);
      PrefixOfConcat(PromptIntro + CompanyIntro, company.value + "'");
      assert PromptIntro + CompanyIntro + company.value + "'" == (PromptIntro + CompanyIntro) + (company.value + "'");
      StartsWithTrans(PromptWith(text, company, PromptTail), PromptIntro + CompanyIntro + company.value + "'", PromptIntro + CompanyIntro);
      StartsWithTrans(PromptWith(text, company, PromptTail), PromptIntro + CompanyIntro, PromptIntro);
      PromptWith(text, company, PromptTail)
    else
      PromptOmitsCompany(text, company, PromptTail);
      PromptWith(text, company, PromptTail)
  }

  lemma PromptQuotes(text: string, company: Option<string>, tail: string)
    ensures Contains(PromptWith(text, company, tail), Quoted(text))
  {
    var head := PromptIntro + CompanyContext(company) + ".\n\n";
    var p := head + Quoted(text) + tail;
    assert p[|head|..|head| + |Quoted(text)|] == Quoted(text);
    assert OccursAt(p, Quoted(text), |head|);
  }

  lemma PromptNamesCompany(text: string, company: Option<string>, tail: string)
    requires NonEmpty(company)
    ensures StartsWith(PromptWith(text, company, tail), PromptIntro + CompanyIntro + company.value + "'")
  {
    var p := PromptWith(text, company, tail);
    var q := PromptIntro + CompanyIntro + company.value + "'";
    assert p == q + (".\n\n" + Quoted(text) + tail);
    assert p[..|q|] == q;
  }

  lemma PromptOmitsCompany(text: string, company: Option<string>, tail: string)
    requires !NonEmpty(company)
    ensures StartsWith(PromptWith(text, company, tail), PromptIntro)
    ensures !StartsWith(PromptWith(text, company, tail), PromptIntro + CompanyIntro)
  {
    var p := PromptWith(text, company, tail);
    assert p == PromptIntro + (".\n\n" + Quoted(text) + tail);
    assert p[..|PromptIntro|] == PromptIntro;
    assert p[|PromptIntro|] == '.';
    assert (PromptIntro + CompanyIntro)[|PromptIntro|] == ' ';
  }

  const JsonFence: string := "```json"
  const Fence: string := "```"

  /** Where the fenced part starts: after the first "```json" if there is one, else after the
      first "```", else nowhere. */
  function OpenFence(s: string): (st: Option<nat>)
    ensures Contains(s, JsonFence) ==> st == Some(Find(s, JsonFence) + 7)
    ensures !Contains(s, JsonFence) && Contains(s, Fence) ==> st == Some(Find(s, Fence) + 3)
    ensures !Contains(s, JsonFence) && !Contains(s, Fence) ==> st.None?
  {
    if Contains(s, JsonFence) then Some(Find(s, JsonFence) + 7)
    else if Contains(s, Fence) then Some(Find(s, Fence) + 3)
    else None
  }

  /** The text between the opening fence and the next "```", stripped, as written: when no
      closing fence follows, `find` gives -1 and the slice drops the last character. */
  function UnfenceAsWritten(s: string): string {
    match OpenFence(s)
    case None => s
    case Some(st) => Strip(Slice(s, st, FindFrom(s, Fence, st)))
  }

  /** The same, taking the rest of the text when no closing fence follows. */
  function Unfence(s: string): string {
    match OpenFence(s)
    case None => s
    case Some(st) =>
      var e := FindFrom(s, Fence, st);
      Strip(if e == -1 then Slice(s, st, |s|) else Slice(s, st, e))
  }

  /** A ```json block closed by a fence yields its stripped content. */
  lemma UnfenceJsonBlock(body: string, rest: string)
    requires '`' !in body
    ensures Unfence(JsonFence + body + Fence + rest) == Strip(body)
    ensures UnfenceAsWritten(JsonFence + body + Fence + rest) == Strip(body)
  {
    var s := JsonFence + body + Fence + rest;
    assert OccursAt(s, JsonFence, 0) by { assert s[..7] == JsonFence; }
    ContainsAt(s, JsonFence, 0);
    assert OpenFence(s) == Some(7);
    ClosingFence(s, 7, body);
  }

  /** The closing fence found after a fence-free body. */
  lemma ClosingFence(s: string, st: nat, body: string)
    requires '`' !in body && st + |body| + 3 <= |s|
    requires s[st..st + |body|] == body && s[st + |body|..st + |body| + 3] == Fence
    ensures FindFrom(s, Fence, st) == st + |body|
    ensures Slice(s, st, st + |body|) == body
  {
    var e := st + |body|;
    forall j | st <= j < e
      ensures !OccursAt(s, Fence, j)
    {
      assert s[j] == body[j - st];
      assert s[j] != '`';
      if j + 3 <= |s| {
        assert s[j..j + 3][0] == s[j];
      }
    }
    FindFromAt(s, Fence, st, e);
  }

  /** A plain ``` block (no ```json anywhere) closed by a fence yields its stripped content. */
  lemma UnfencePlainBlock(body: string, rest: string)
    requires '`' !in body && !Contains(Fence + body + Fence + rest, JsonFence)
    ensures Unfence(Fence + body + Fence + rest) == Strip(body)
  {
    var s := Fence + body + Fence + rest;
    assert OccursAt(s, Fence, 0) by { assert s[..3] == Fence; }
    ContainsAt(s, Fence, 0);
    assert OpenFence(s) == Some(3);
    ClosingFence(s, 3, body);
  }

  /** An opening ```json fence that is never closed: the text as written loses its last
      character, the corrected extraction keeps the whole rest. */
  lemma UnclosedJsonFence(body: string)
    requires '`' !in body && body != []
    ensures UnfenceAsWritten(JsonFence + body) == Strip(body[..|body| - 1])
    ensures Unfence(JsonFence + body) == Strip(body)
  {
    var s := JsonFence + body;
    assert OccursAt(s, JsonFence, 0) by { assert s[..7] == JsonFence; }
    ContainsAt(s, JsonFence, 0);
    assert OpenFence(s) == Some(7);
    assert forall j :: 7 <= j < |s| ==> s[j] == body[j - 7];
    FindFromNone(s, Fence, 7);
    assert Slice(s, 7, -1) == body[..|body| - 1] by { assert s[7..|s| - 1] == body[..|body| - 1]; }
    assert Slice(s, 7, |s|) == body by { assert s[7..] == body; }
  }

  /** The discrepancy: an answer that is a ```json fence followed by a JSON object whose only
      '}' is its last character, with no closing fence (the smallest is "```json{}"), fails as
      written: the slice up to index -1 drops the closing brace. */
  lemma UnclosedFenceLosesBrace(body: string, decode: string -> Result<Decoded, string>)
    requires |body| >= 2 && '`' !in body && body[0] == '{' && body[|body| - 1] == '}'
    requires '}' !in body[..|body| - 1] && !IsSpace(body[|body| - 2])
    ensures ParseLlmResponseAsWritten(JsonFence + body, decode) == Failure("JSON not found in response")
  {
    UnclosedFenceText(body);
    var u := UnfenceAsWritten(Strip(JsonFence + body));
    assert u == body[..|body| - 1];
    CandidateOutcome(u, decode);
  }

  /** The corrected parse of the same answer hands the whole object to the decoder, so it
      succeeds exactly when the object decodes with a usable score. */
  lemma UnclosedFenceParsed(body: string, decode: string -> Result<Decoded, string>)
    requires |body| >= 2 && '`' !in body && body[0] == '{' && body[|body| - 1] == '}'
    requires !IsSpace(body[|body| - 2])
    ensures ParseLlmResponse(JsonFence + body, decode) == FromCandidate(body, decode)
    ensures Candidate(body) == Ok(body)
    ensures ParseLlmResponse(JsonFence + body, decode).success <==>
              decode(body).Ok? && !decode(body).value.score.BadScore?
  {
    UnclosedFenceText(body);
    CandidateWhole(body);
    CandidateOutcome(body, decode);
  }

  /** Text that starts with '{' and ends with '}' is its own candidate. */
  lemma CandidateWhole(s: string)
    requires s != [] && s[0] == '{' && s[|s| - 1] == '}'
    ensures Candidate(s) == Ok(s)
  {
    assert Find(s, "{") == 0 by { assert OccursAt(s, "{", 0); }
    assert RFindChar(s, '}') == |s| - 1;
    assert Slice(s, 0, |s|) == s;
  }

  /** An unclosed ```json fence around text without surrounding whitespace. */
  lemma UnclosedFenceText(body: string)
    requires '`' !in body && |body| >= 2
    requires !IsSpace(body[0]) && !IsSpace(body[|body| - 1]) && !IsSpace(body[|body| - 2])
    ensures UnfenceAsWritten(Strip(JsonFence + body)) == body[..|body| - 1]
    ensures Unfence(Strip(JsonFence + body)) == body
  {
    var text := JsonFence + body;
    assert text[0] == '`' && text[|text| - 1] == body[|body| - 1];
    StripNoSpace(text);
    UnclosedJsonFence(body);
    StripNoSpace(body[..|body| - 1]);
    StripNoSpace(body);
  }

  /** Text without a fence is used as it is. */
  lemma UnfenceNoFence(s: string)
    requires !Contains(s, Fence)
    ensures Unfence(s) == s && UnfenceAsWritten(s) == s
  {
    if Contains(s, JsonFence) {
      var i :| 0 <= i <= |s| && OccursAt(s, JsonFence, i);
      assert s[i..i + 3] == s[i..i + 7][..3] == Fence;
      assert OccursAt(s, Fence, i);
    }
  }

  /** The JSON candidate: from the first '{' to the last '}' inclusive; an error when either is
      missing. The slice is empty when the last '}' precedes the first '{'. */
  function Candidate(s: string): (r: Result<string, string>)
    ensures r.Err? <==> '{' !in s || '}' !in s
    ensures r.Err? ==> r.error == "JSON not found in response"
    ensures r.Ok? ==> r.value == [] || (r.value[0] == '{' && r.value[|r.value| - 1] == '}')
  {
    ContainsChar(s, '{');
    var startIdx := Find(s, "{");
    var endIdx := RFindChar(s, '}') + 1;
    if startIdx == -1 || endIdx == 0 then Err("JSON not found in response")
    else
      assert s[startIdx..startIdx + 1] == "{";
      Ok(Slice(s, startIdx, endIdx))
  }

  /** A non-empty candidate spans from the first '{' of the text to its last '}'. */
  lemma CandidateSpan(s: string)
    requires Candidate(s).Ok? && Candidate(s).value != []
    ensures var v := Candidate(s).value;
            exists i :: OccursAt(s, v, i) && '{' !in s[..i] && '}' !in s[i + |v|..]
  {
    var startIdx := Find(s, "{");
    var endIdx := RFindChar(s, '}') + 1;
    assert s[startIdx..startIdx + 1] == "{";
    FirstChar(s, '{', startIdx);
    var v := Slice(s, startIdx, endIdx);
    assert OccursAt(s, v, startIdx);
  }

  /** A decoded score: absent, converted by float(), or rejected by float(). */
  datatype ScoreField = NoScore | Score(x: real) | BadScore(message: string)

  /** What json.loads produced, keyed by the four names; None for an absent text key. A JSON null
      or a non-string value under a text key has no form here: a decoder gives it as absent. */
  datatype Decoded = Decoded(sentiment: Option<string>, score: ScoreField, confidence: Option<string>,
                             reasoning: Option<string>)

  const ParseErrorReasoning: string := "Ошибка парсинга ответа"

  /** The response of any parse failure. */
  function Failure(message: string): (r: LLMResponse)
    ensures !r.success && r.error == Some(message)
    ensures r.sentiment == "neutral" && r.score == 0.0 && r.confidence == "low"
  {
    LLMResponse("neutral", 0.0, "low", ParseErrorReasoning, false, Some(message))
  }

  /** The response for extracted text s: decoding errors and unconvertible scores fail. */
  function FromCandidate(s: string, decode: string -> Result<Decoded, string>): (r: LLMResponse)
    ensures r.success <==> r.error.None?
    ensures !r.success ==> r == Failure(r.error.value)
  {
    match Candidate(s)
    case Err(e) => Failure(e)
    case Ok(json) =>
      match decode(json)
      case Err(e) => Failure(e)
      case Ok(d) =>
        match d.score
        case BadScore(e) => Failure(e)
        case NoScore => Answer(d, 0.0)
        case Score(x) => Answer(d, x)
  }

  /** A successful response: the decoded text fields or their defaults, and the score. */
  function Answer(d: Decoded, score: real): LLMResponse {
    LLMResponse(d.sentiment.GetOr("neutral"), score, d.confidence.GetOr("medium"), d.reasoning.GetOr(""), true)
  }

  /** _parse_llm_response as written. */
  function ParseLlmResponseAsWritten(text: string, decode: string -> Result<Decoded, string>): LLMResponse {
    FromCandidate(UnfenceAsWritten(Strip(text)), decode)
  }

  /** _parse_llm_response with an unclosed fence taken to the end of the text. */
  function ParseLlmResponse(text: string, decode: string -> Result<Decoded, string>): LLMResponse {
    FromCandidate(Unfence(Strip(text)), decode)
  }

  /** Success exactly when a candidate is found, decodes, and its score converts; the missing
      keys then take their defaults. */
  lemma CandidateOutcome(s: string, decode: string -> Result<Decoded, string>)
    ensures var r := FromCandidate(s, decode);
            (r.success <==> '{' in s && '}' in s && decode(Candidate(s).value).Ok?
                            && !decode(Candidate(s).value).value.score.BadScore?)
            && (r.success ==>
                  var d := decode(Candidate(s).value).value;
                  r.sentiment == d.sentiment.GetOr("neutral") && r.confidence == d.confidence.GetOr("medium")
                  && r.reasoning == d.reasoning.GetOr("")
                  && r.score == (if d.score.Score? then d.score.x else 0.0))
            && (('{' !in s || '}' !in s) ==> r == Failure("JSON not found in response"))
  {
  }

  /** The same for the parse of a whole answer: it is decided by the text left after the
      fences are removed. */
  lemma ParseOutcome(text: string, decode: string -> Result<Decoded, string>)
    ensures var s := Unfence(Strip(text));
            var r := ParseLlmResponse(text, decode);
            (r.success <==> '{' in s && '}' in s && decode(Candidate(s).value).Ok?
                            && !decode(Candidate(s).value).value.score.BadScore?)
            && (('{' !in s || '}' !in s) ==> r == Failure("JSON not found in response"))
  {
    CandidateOutcome(Unfence(Strip(text)), decode);
  }

  /** With every key absent, the defaults are neutral, 0.0, medium and an empty reasoning. */
  lemma ParseDefaults(s: string, decode: string -> Result<Decoded, string>)
    requires '{' in s && '}' in s && decode(Candidate(s).value) == Ok(Decoded(None, NoScore, None, None))
    ensures FromCandidate(s, decode) == LLMResponse("neutral", 0.0, "medium", "", true, None)
  {
  }

  /** An answer that is exactly a JSON object decodes that object. */
  lemma ParsePlainObject(text: string, decode: string -> Result<Decoded, string>)
    requires text != [] && text[0] == '{' && text[|text| - 1] == '}' && !Contains(text, Fence)
    ensures ParseLlmResponse(text, decode) == FromCandidate(text, decode)
    ensures Candidate(text) == Ok(text)
  {
    assert !IsSpace(text[0]);
    StripNoSpace(text);
    UnfenceNoFence(text);
    CandidateWhole(text);
  }
}
