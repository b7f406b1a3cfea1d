# MOEX analytics pipeline — a verified model

The modelled system analyses Moscow Exchange shares. Its core is a deterministic pipeline:

- **Technical metrics** over a daily candle series (`app/process/metrics.py`):
  - simple moving averages over 20, 50 and 200 candles;
  - the 52-week high and low, and the distances from them;
  - the dividend yield;
  - the volume-spike rule;
  - golden and death crosses;
  - the ordered list of signal flags.
- **Report assembly** (`app/process/report.py`):
  - the de-duplicated universe of configured and portfolio tickers;
  - one entry per symbol, where a symbol that fails to load keeps an error entry;
  - the report summary.
- **Record validation** (`app/models.py`): candles, positions, portfolios, symbol entries and the report.
- **Recommendations** (`app/reco`):
  - an additive scoring engine with thresholds for action, confidence and sizing hint;
  - the service that filters and orders BUY > HOLD > SELL;
  - personalisation, which turns each recommendation into a share quantity for a given portfolio.
- **Event-signal predictor** (`app/predictor`):
  - keyword scoring and whole-word company detection;
  - batch sorting and summary statistics;
  - the policy for using the LLM, the 0.3/0.7 blend and the fallback markers;
  - extraction of the JSON payload from an LLM answer;
  - the news collector with its TTL cache;
  - the aggregation into a signal level, with a history capped at 100 entries.

Each core source file is one Dafny module. Shared definitions live in five more:

- `Wrappers`: Option and Result.
- `Text`: find, slice, strip and lowercase on `seq<char>`.
- `Numeric`: sum, mean, max and min, round to 2 places, sort and median over `real`.
- `Ordering`: a stable insertion sort on a lexicographic key, standing in for Python's stable `sort`.
- `Seqs`: filter-map, concat-map and take.

The model takes the same form as the source:

- Code that loops and mutates becomes a `method` with loop invariants. Each method is proved equal to a specification function, and the properties are lemmas about that function. Examples: `CalculateSma`, `GenerateSignals`, `MakeReco`, `GetRecommendations`, `GetPersonalizedActions`, `CalculateKeywordScore`, `AnalyzeBatch`, `GetSummaryStats`, `CombinedUniverse`, `GetSummary`.
- Objects whose fields the source updates are classes:
  - `NewsCollector`, with its cache;
  - `LLMNewsAnalyzer`, with its `isAvailable` flag;
  - `EventSignalGenerator`.
- Everything else is functions over datatypes.

External effects are inputs:

- Market data goes to `ProcessSymbol` as a `Fetched` value: quote, dividends and candles, or a failure message.
- Each RSS and vacancy fetch is an `Option` of the parsed answer, where None means the source failed.
- The LLM provider is a function from prompt text and company to a response, or to a raised exception.
- JSON decoding is a function.
- Clock readings are explicit parameters.

One quirk of the code is modelled as written. The signal generator calls the LLM batch analysis with two lists:

- the items, in collection order;
- the keyword analyses, already sorted by relevance and score.

The LLM batch analysis then pairs the two lists purely by position. `Signals.PairingMismatch` shows that an irrelevant item followed by a relevant one ends up with the item and the analysis swapped.

## Model

| member | source | states |
|---|---|---|
| Models.CandleFieldErrors | app/models.py:61-70 | no field error exactly when open, high, low, close, volume and (when present) value are all ≥ 0 |
| Models.ValidateCandle | app/models.py:61-77 | accepted iff every field constraint holds and high ≥ low; field errors come first and otherwise the error is "High must be >= low"; an accepted candle is returned unchanged |
| Models.PositionFieldErrors | app/models.py:89-99 | no field error exactly when the symbol has 1 to 50 characters and quantity, qty and avg_price are non-negative when given |
| Models.ValidatePosition | app/models.py:89-99 | accepted iff those constraints hold; the result keeps symbol, quantity and qty, with market "moex" and type stock |
| Models.ValidatePortfolio | app/models.py:111-118 | accepted iff cash (default 0) is ≥ 0 and every position is valid; an omitted cash gives 0; a rejection names cash iff it is negative and positions iff one is invalid |
| Models.DefaultSymbolData | app/models.py:22-43 | a default entry has every metric None, no signals and an empty meta |
| Models.ValidateReport | app/models.py:46-58 | rejected with "Universe cannot be empty" iff the universe is empty, otherwise the report holds the given fields |
| Metrics.SmaOf | app/process/metrics.py:37-46 | the SMA over w values is defined iff there are at least w values, and then it is the mean of the last w |
| Metrics.CalculateSma | app/process/metrics.py:19-48 | the result has exactly the requested windows as keys, each mapped to the trailing SMA of the closes (None with no data or no close column) |
| Metrics.SmaBetween | app/process/metrics.py:37-46 | a defined SMA lies between the minimum and maximum of its window |
| Metrics.SmaDefined | app/process/metrics.py:31-46 | SMA_w is None iff there are fewer than w candles or no close column, else it is the SMA of the closes |
| Metrics.ShortSeriesHasNoSma | app/process/metrics.py:37-46 | with fewer than 20 candles every configured window gives None |
| Metrics.Range52w | app/process/metrics.py:50-95 | the range is computed iff the high and low columns exist and at least 50 candles are present; otherwise all four fields are None; when computed, the high is the maximum high and the low the minimum low of the last ≤260 candles, and each distance is None when its divisor is ≤ 0 |
| Metrics.RangeDistancesNonNegative | app/process/metrics.py:82-86 | both distances are ≥ 0 whenever low ≤ price ≤ high |
| Metrics.DividendYield | app/process/metrics.py:97-112 | None iff price ≤ 0, otherwise within 0.005 of dividends/price·100 |
| Metrics.DividendYieldExamples | app/process/metrics.py:108-112 | 8/100 gives 8.0, 10/200 gives 5.0, a zero price gives None |
| Metrics.VolumeSpikeMeans | app/process/metrics.py:114-138 | a spike fires iff there is a volume column, at least 20 candles, a positive median of the last 20 volumes and a last volume above threshold times that median; with a threshold of at least 1 the last volume is then above the median |
| Metrics.FlatVolumeNoSpike | app/process/metrics.py:125-138 | twenty equal volumes never spike |
| Metrics.CrossFacts | app/process/metrics.py:187-246 | either cross needs more than 200 candles (with exactly 200 the previous SMA200 is undefined) and truthy SMA50 and SMA200; a golden cross has SMA50 > SMA200, a death cross has SMA50 < SMA200, and the two never hold together |
| Metrics.EmitMember | app/process/metrics.py:159-185 | a flag is in the list iff its condition holds |
| Metrics.EmitRanked | app/process/metrics.py:159-185 | the flags appear in the fixed order BELOW, ABOVE, golden, death, DY_GT_TARGET, VOL_SPIKE |
| Metrics.GenerateSignals | app/process/metrics.py:140-185 | each flag is present iff its condition holds (BELOW/ABOVE need a truthy SMA200 and a strict comparison, DY_GT_TARGET a truthy yield ≥ 8.0), the 52-week flags are never emitted, and the list is in the fixed order |
| Metrics.CalculateAllMetrics | app/process/metrics.py:248-289 | SMAs for 20/50/200, the 52-week range and the dividend yield as their definitions give them; the signals hold BELOW/ABOVE_SMA200 iff the SMA200 is truthy and the price is below/above it, the golden/death cross iff it happened, DY_GT_TARGET iff the yield is truthy and at least the target, VOL_SPIKE iff the volume spike fires, never a 52-week flag, in rank order |
| RecoModels.ParseAction | app/reco/models.py:7 | an action exists exactly for "BUY", "HOLD" and "SELL", and its name round-trips |
| RecoModels.NewSnapshot | app/reco/models.py:10-28 | omitted signals become [], symbol, price, the three SMAs, yield, trend and 52-week high/low are stored as given, sector and 20-day volume default to None |
| RecoModels.NewRecommendation | app/reco/models.py:31-38 | sizing hint defaults to None and confidence to MEDIUM |
| Engine.PctDiff | app/reco/engine.py:7-11 | 0 when either side is None or the reference is 0, otherwise (c − r)/r·100 |
| Engine.PctDiffSign | app/reco/engine.py:7-11 | for a positive reference the difference is negative iff current < reference and zero iff they are equal |
| Engine.DividendRule | app/reco/engine.py:29-42 | +2.0 at ≥ dy_very_high, +1.5 at ≥ dy_buy_min below that, −0.5 below half of dy_buy_min, nothing in between |
| Engine.Sma200Rule | app/reco/engine.py:44-58 | with a truthy SMA200 and non-zero price exactly one reason, with +1.0 when the discount is at or beyond the maximum, −1.0 at or above the premium, 0 in between; otherwise no contribution |
| Engine.RangeRule | app/reco/engine.py:71-84 | the rule adds +0.5 iff high, low and price are truthy, the range is positive and the position in it is below the low threshold; −0.5 iff the same hold but the position is not below the low threshold and is above the high one; nothing otherwise |
| Engine.SignalsRule | app/reco/engine.py:86-106 | signals add no reasons, each confidence factor is 0.3 and the score change is bounded by 0.3 per signal |
| Engine.SignalAppended | app/reco/engine.py:86-106 | a listed positive signal adds 0.3, a listed negative one subtracts 0.3, any other signal changes nothing |
| Engine.RecoThresholds | app/reco/engine.py:108-134 | BUY iff score ≥ buy cutoff, SELL iff below it and ≤ sell cutoff, HOLD in between; HIGH iff factors sum ≥ 3.0, LOW iff < 1.5; no hint iff HOLD; the returned score is the 2-place rounding |
| Engine.SizingHint | app/reco/engine.py:137-164 | no hint iff HOLD; BUY picks 2×/1.5×/1× hints, SELL full/50%/25% |
| Engine.SizingThresholds | app/reco/engine.py:137-164 | the sell hint is "close" iff score ≤ −4, half iff −4 < score ≤ −3, a quarter iff score > −3; the buy hint is double iff score ≥ 4, 1.5× iff score < 4 with a truthy SMA200, a non-zero price below 0.9·SMA200 and a truthy yield of at least 12, and the base otherwise |
| Engine.DemoSnapshot | app/reco/engine.py:14-134 | the demo snapshot (price 270, SMA200 280, yield 9.5, trend 1.2, range 240–320) gives score 2.3, BUY, MEDIUM and the base hint |
| Engine.MakeReco | app/reco/engine.py:14-134 | the step-by-step accumulation equals the rule-by-rule specification |
| Engine.ApplyDividends | app/reco/engine.py:29-42 | the dividend step adds exactly the dividend part |
| Engine.ApplySma200 | app/reco/engine.py:44-58 | the SMA200 step adds exactly the SMA200 part |
| Engine.ApplyTrend | app/reco/engine.py:60-69 | the trend step adds exactly the trend part |
| Engine.ApplyRange | app/reco/engine.py:71-84 | the 52-week step adds exactly the range part |
| Engine.ApplySignals | app/reco/engine.py:86-106 | the signal loop adds exactly the signals part |
| Service.BuildSnapshot | app/reco/service.py:37-64 | the trend is present iff SMA20 and price are truthy and is then the percentage distance; price defaults to 0 and signals to [] |
| Service.GetRecommendations | app/reco/service.py:67-134 | the result is the stable sort, by the service key, of the admitted rows' items in report order |
| Service.KeySortedIsOrdered | app/reco/service.py:122-131 | ordering by the key means BUY first by descending score, HOLD next by descending score, SELL last by ascending score |
| Service.RecommendationsSpec | app/reco/service.py:87-131 | the output is in that order, keeps report order among equal keys, and holds exactly the items of rows with a truthy price that pass the action and minimum-score filters |
| Service.OfAction | app/reco/service.py:146-152 | the selection holds only items of the given action taken from the list |
| Service.OfActionComplete | app/reco/service.py:146-152 | every item of the given action is selected, as many times as it occurs in the list |
| Service.OfActionAppend | app/reco/service.py:146-152 | the selection keeps list order: selecting from a concatenation selects from each part in turn |
| Service.ActionCountsAddUp | app/reco/service.py:144-148 | BUY, HOLD and SELL counts add up to the total |
| Service.GetRecommendationsSummary | app/reco/service.py:137-163 | the total is the number of recommendations, the BUY and SELL counts the sizes of their selections, the counts add up to the total, and the top buys/sells are the first at most 3 items of that action in list order |
| Personalize.PortfolioValue | app/reco/personalize.py:36-51 | the total raises iff the cash or some position value is a JSON null; otherwise, with non-negative position values, it is at least the cash |
| Personalize.PositionsValueFacts | app/reco/personalize.py:46-51 | the sum of position values raises iff some value is null, and non-negative values sum to a non-negative value |
| Personalize.PortfolioValueAppend | app/reco/personalize.py:46-51 | the total grows by exactly the appended position's value (0 when missing), or raises when that value is null |
| Personalize.PositionsMap | app/reco/personalize.py:71-74 | a symbol is a key iff some position carries it |
| Personalize.PositionsMapLastWins | app/reco/personalize.py:71-74 | a repeated symbol maps to its last position |
| Personalize.BuyBudget | app/reco/personalize.py:97-107 | the budget never exceeds cash and is cash or 1×, 1.5× or 2× the base target |
| Personalize.BuyBudgetOfHints | app/reco/personalize.py:97-107 | the 2× hint gives min(2·base, cash), the other increase hint min(1.5·base, cash), the base hint min(base, cash) |
| Personalize.BuyQty | app/reco/personalize.py:109-110 | the quantity is the floor: its cost fits the budget and one more share would not |
| Personalize.FloorDivBounds | app/reco/personalize.py:109 | floor(budget/price) shares cost at most the budget and less than budget + price |
| Personalize.SellQty | app/reco/personalize.py:112-119 | 1 ≤ quantity ≤ holding, and the full holding for the "close" hint |
| Personalize.SellQtyOfHints | app/reco/personalize.py:112-119 | close sells all, 50% sells max(1, h div 2), 25% sells max(1, h div 4) |
| Personalize.RunAppend | app/reco/personalize.py:78-137 | one more recommendation either skips, appends one entry, or makes the whole run fail |
| Personalize.GetPersonalizedActions | app/reco/personalize.py:54-144 | the loop computes the specification's action list, which is empty when the portfolio total raises; no returned BUY costs more than the cash and no returned SELL exceeds the holding |
| Personalize.RunBounds | app/reco/personalize.py:78-137 | in every completed run each BUY buys at least one share and costs at most the cash, and each SELL sells between one share and the non-null holding |
| Personalize.PersonalizedBounds | app/reco/personalize.py:54-144 | the returned list never proposes a BUY costing more than the portfolio cash nor a SELL larger than the holding |
| Personalize.RunFailStays | app/reco/personalize.py:78-144 | once one recommendation raises, the whole result is the empty list |
| Personalize.BuyWithinCash | app/reco/personalize.py:97-110 | an emitted BUY buys at least one share, costs no more than cash and has cash impact −cost |
| Personalize.SellWithinHolding | app/reco/personalize.py:112-121 | an emitted SELL needs a non-null positive holding, sells 1 to holding shares and has cash impact +cost |
| Personalize.HoldReported | app/reco/personalize.py:94-95 | HOLD with a price and a non-null position value is reported with quantity 0 and zero impact |
| Personalize.NoPriceSkipped | app/reco/personalize.py:83-84 | a recommendation with no positive price is skipped |
| Personalize.BuysNotCumulative | app/reco/personalize.py:97-110 | two identical BUYs are each sized against the full cash |
| Personalize.Holding | app/reco/personalize.py:90-91 | the holding is qty when that is a non-zero number, otherwise quantity; it is null iff qty is not a non-zero number and quantity is null |
| Personalize.NullValueGivesNothing | app/reco/personalize.py:61-144 | a position whose current_value is null makes the whole result the empty list |
| Personalize.NullHoldingSellFails | app/reco/personalize.py:112-144 | a SELL of a held symbol whose qty-or-quantity is null raises, so the run fails |
| Personalize.NullValueExample | app/reco/personalize.py:36-144 | 1000 in cash, a SBER position of 10 with a null current_value and one HOLD give the empty list |
| Analyzer.NewAnalyzer | app/predictor/analyzer.py:15-17 | keywords are stored lowercased, in order |
| Analyzer.CalculateKeywordScore | app/predictor/analyzer.py:32-63 | the loops compute the specification's score and tagged keyword list |
| Analyzer.HitsNone | app/predictor/analyzer.py:44-55 | no keyword contained gives a raw contribution of 0 |
| Analyzer.HitsBounds | app/predictor/analyzer.py:44-55 | the raw keyword score of a keyword list lies between 0 and twice its length |
| Analyzer.TaggedEmpty | app/predictor/analyzer.py:44-55 | the tagged list is empty iff no keyword occurs in the text |
| Analyzer.Normalize | app/predictor/analyzer.py:57-61 | the score lies in [−1, 1], keeps the raw sign, and equals raw/5 inside ±5 |
| Analyzer.NoMatchScoresZero | app/predictor/analyzer.py:57-63 | no matched keyword gives score exactly 0 |
| Analyzer.CategoryOf | app/predictor/analyzer.py:95-102 | ≥ 0.6 HIGH_PROBABILITY, [0.2, 0.6) MEDIUM_PROBABILITY, ≤ −0.4 NEGATIVE, else NEUTRAL |
| Analyzer.DetectCompanyMentions | app/predictor/analyzer.py:65-76 | the loop computes the in-order list of mentioned companies |
| Analyzer.MentionsMembers | app/predictor/analyzer.py:65-76 | a company is returned iff it is a target found as a whole word, case-insensitively |
| Analyzer.MentionsEmpty | app/predictor/analyzer.py:65-76 | the list is non-empty iff some target is mentioned |
| Analyzer.Analyze | app/predictor/analyzer.py:78-116 | score in [−1, 1] with its category, relevance iff a mention or a keyword match, item passed through, no mentions without targets |
| Analyzer.RelevantIff | app/predictor/analyzer.py:105-115 | relevant iff a target is mentioned or some positive or negative keyword occurs in the lowercased text |
| Analyzer.AnalyzeItem | app/predictor/analyzer.py:78-116 | the method computes the specification's analysis |
| Analyzer.AnalyzeAll | app/predictor/analyzer.py:125-133 | one analysis per item, in order |
| Analyzer.AnalyzeEach | app/predictor/analyzer.py:125-133 | the loop builds exactly that list |
| Analyzer.AnalyzeBatch | app/predictor/analyzer.py:118-139 | the batch is the stable sort of the analyses |
| Analyzer.BatchOrdered | app/predictor/analyzer.py:118-139 | the batch is a permutation of the analyses, relevant before irrelevant, then by non-increasing score, with equal keys in original order |
| Analyzer.GetSummaryStats | app/predictor/analyzer.py:141-173 | the counting loop computes the specification's statistics |
| Analyzer.CountsAddUp | app/predictor/analyzer.py:148-169 | the four category counts add up to the total, and relevant ≤ total |
| Analyzer.StatsFacts | app/predictor/analyzer.py:141-173 | total is the length, counts add up, and the average score of scores in [−1, 1] lies in [−1, 1] |
| Analyzer.SumScoresBounds | app/predictor/analyzer.py:161-171 | n scores in [−1, 1] sum to a value in [−n, n] |
| LlmProvider.ResponseDefaults | app/predictor/llm_provider.py:13-21 | a response defaults to success with no error |
| LlmProvider.BuildSentimentPrompt | app/predictor/llm_provider.py:62-89 | the prompt has the company clause, naming the company, iff the company is truthy, and always quotes the text |
| LlmProvider.PromptQuotes | app/predictor/llm_provider.py:66-68 | the text appears in quotes |
| LlmProvider.PromptNamesCompany | app/predictor/llm_provider.py:64-66 | a truthy company is named right after the introduction |
| LlmProvider.PromptOmitsCompany | app/predictor/llm_provider.py:64-66 | otherwise there is no company clause |
| LlmProvider.OpenFence | app/predictor/llm_provider.py:100-107 | the body starts after the first json fence (three backticks and "json") if there is one, else after the first plain fence of three backticks, else there is no fence |
| LlmProvider.UnfenceJsonBlock | app/predictor/llm_provider.py:100-103 | a closed json fence yields its stripped body |
| LlmProvider.ClosingFence | app/predictor/llm_provider.py:102-103 | the closing fence is found right after a fence-free body |
| LlmProvider.UnfencePlainBlock | app/predictor/llm_provider.py:104-107 | a closed plain fence yields its stripped body |
| LlmProvider.UnclosedJsonFence | app/predictor/llm_provider.py:100-103 | without a closing fence the code keeps all but the last character; the corrected version keeps the whole rest |
| LlmProvider.UnclosedFenceText | app/predictor/llm_provider.py:97-103 | the same, after the outer strip |
| LlmProvider.UnclosedFenceLosesBrace | app/predictor/llm_provider.py:91-116 | as written, an unclosed json fence around an object whose only "}" is the last character fails with "JSON not found in response" |
| LlmProvider.UnclosedFenceParsed | app/predictor/llm_provider.py:91-125 | corrected, the same input parses the whole object, and succeeds iff it decodes with a valid score |
| LlmProvider.UnfenceNoFence | app/predictor/llm_provider.py:99-107 | text without a fence is left unchanged |
| LlmProvider.Candidate | app/predictor/llm_provider.py:109-116 | fails iff "{" or "}" is missing, otherwise a span starting with "{" and ending with "}" |
| LlmProvider.CandidateSpan | app/predictor/llm_provider.py:110-116 | the span occurs in the text with no "{" before it and no "}" after it |
| LlmProvider.CandidateWhole | app/predictor/llm_provider.py:110-116 | a text that starts with "{" and ends with "}" is its own candidate |
| LlmProvider.Failure | app/predictor/llm_provider.py:127-138 | a failure is neutral, score 0, confidence low, unsuccessful, with its message |
| LlmProvider.FromCandidate | app/predictor/llm_provider.py:109-138 | success iff no error; every failure has the failure shape |
| LlmProvider.CandidateOutcome | app/predictor/llm_provider.py:109-138 | success iff both braces exist and the candidate decodes with a valid score; then missing keys default to neutral, 0.0, medium and "" |
| LlmProvider.ParseOutcome | app/predictor/llm_provider.py:91-138 | the same for a whole answer after stripping and unfencing |
| LlmProvider.ParseDefaults | app/predictor/llm_provider.py:119-125 | an empty object gives neutral, 0.0, medium, "" and success |
| LlmProvider.ParsePlainObject | app/predictor/llm_provider.py:91-125 | an unfenced answer that is one object is parsed as a whole |
| LlmAnalyzer.LlmTextNonEmpty | app/predictor/llm_analyzer.py:124-131 | the text sent to the LLM is never empty, so the empty-text guard never fires |
| LlmAnalyzer.Blend | app/predictor/llm_analyzer.py:151 | the blend of two scores in [−1, 1] stays in [−1, 1], and equal scores blend to themselves |
| LlmAnalyzer.BlendExample | app/predictor/llm_analyzer.py:151-161 | 0.4 and 0.8 blend to 0.68, which is HIGH_PROBABILITY |
| LlmAnalyzer.KeywordOnly | app/predictor/llm_analyzer.py:116-121 | the keyword analysis unchanged, with llm_used false |
| LlmAnalyzer.KeywordWithError | app/predictor/llm_analyzer.py:141-147 | the keyword analysis unchanged, with llm_used false and the error |
| LlmAnalyzer.Hybridized | app/predictor/llm_analyzer.py:149-173 | blended score with its re-derived category, llm_used true, hybrid method, LLM details, keyword fields kept |
| LlmAnalyzer.LLMNewsAnalyzer.constructor | app/predictor/llm_analyzer.py:17-38 | settings stored, not yet available |
| LlmAnalyzer.LLMNewsAnalyzer.Initialize | app/predictor/llm_analyzer.py:40-61 | availability becomes the provider's answer and the policy, threshold and timeout are unchanged; the warm-up request only logs |
| LlmAnalyzer.LLMNewsAnalyzer.ShouldUseLlm | app/predictor/llm_analyzer.py:63-93 | false when unavailable; "all" true, "relevant_only" the relevance, "uncertain" a score strictly inside ±threshold, anything else false |
| LlmAnalyzer.LLMNewsAnalyzer.AnalyzeItem | app/predictor/llm_analyzer.py:95-181 | keyword-only when not used; on a raise or an unsuccessful response the keyword result with the error; on success the hybrid |
| LlmAnalyzer.LLMNewsAnalyzer.FallbackKeepsKeywords | app/predictor/llm_analyzer.py:116-147 | whenever the LLM is not used, every other field equals the keyword analysis |
| LlmAnalyzer.LLMNewsAnalyzer.HybridExample | app/predictor/llm_analyzer.py:149-173 | keyword 0.4 with a successful LLM 0.8 gives 0.68, HIGH_PROBABILITY, llm_used |
| LlmAnalyzer.LLMNewsAnalyzer.BatchResults | app/predictor/llm_analyzer.py:183-245 | unavailable: as many results as analyses; available: min(items, analyses) results |
| LlmAnalyzer.LLMNewsAnalyzer.BatchPairs | app/predictor/llm_analyzer.py:200-237 | unavailable: each analysis with llm_used false; available: result i comes from item i and analysis i, or falls back to analysis i with the error when that call crashed |
| LlmAnalyzer.LLMNewsAnalyzer.AnalyzeBatch | app/predictor/llm_analyzer.py:183-245 | the batching loop computes those results |
| Signals.LevelOf | app/predictor/signals.py:44-73 | the first-match rules: NEGATIVE ≥ 3; else HIGH ≥ 2 with average > 0.4; else one of the three medium conditions; else LOW, each stated as an iff |
| Signals.EmptyStatsLow | app/predictor/signals.py:54-73 | empty statistics give LOW |
| Signals.NegativeWins | app/predictor/signals.py:61-62 | three or more negatives give NEGATIVE_SIGNAL whatever else holds |
| Signals.NegativeBatch | app/predictor/signals.py:61-62 | a batch of three negative analyses gives NEGATIVE_SIGNAL |
| Signals.ReasonOf | app/predictor/signals.py:180-208 | one fixed reason form per level, carrying the counts of that level |
| Signals.ReasonKeywords | app/predictor/signals.py:182-191 | the HIGH reason lists at most 5 distinct keywords, all from the top items, and all of them when there are at most 5 |
| Signals.AppendCapped | app/predictor/signals.py:87-91 | the new history is the last ≤ 100 of old + [new], ending with the new signal |
| Signals.SignalOf | app/predictor/signals.py:155-171 | the level, the statistics, the first ≤ 5 analyses as top items, the companies or [] |
| Signals.RelevantFirst | app/predictor/analyzer.py:136 | sorting puts a relevant analysis before an irrelevant one |
| Signals.PairingMismatch | app/predictor/signals.py:142-151 | an irrelevant item followed by a relevant one comes out of the keyword batch in swapped order, so position pairing mismatches them |
| Signals.EventSignalGenerator.constructor | app/predictor/signals.py:22-42 | a fresh collector with the sources, TTL and an empty cache, the analyzer over the keywords, and an LLM analyzer iff enabled, unavailable, with the configured policy, threshold and timeout |
| Signals.EventSignalGenerator.GenerateSignal | app/predictor/signals.py:102-178 | the items are the cache hit or a fresh collection; no items give the no-data signal and leave the history; otherwise the signal of the (LLM-refined when available) analyses, appended to the capped history when saving; the collector's cache is unchanged on a hit and holds the fresh collection with its store time on a miss; the LLM analyzer's availability is the provider's and its policy, threshold and timeout are unchanged |
| Collector.RssItem | app/predictor/collector.py:44-50 | an empty title becomes "", a missing description or date element "", source the URL, no employer |
| Collector.FetchRssMembers | app/predictor/collector.py:27-60 | a failed feed gives nothing; otherwise exactly the items with a title, mapped |
| Collector.VacancyItem | app/predictor/collector.py:80-87 | name, requirement, employer and date with "" for missing keys, source "hh.ru" |
| Collector.FetchVacancies | app/predictor/collector.py:62-94 | a failed search gives nothing; otherwise one item per vacancy, in order |
| Collector.CollectedMembers | app/predictor/collector.py:122-145 | an item is collected iff some feed or some vacancy query returned it |
| Collector.NewsCollector.constructor | app/predictor/collector.py:21-25 | sources and TTL stored, empty cache |
| Collector.NewsCollector.CollectAll | app/predictor/collector.py:104-151 | a fresh cache entry (strictly younger than the TTL) is returned and the cache is left alone; otherwise the feeds in source order followed by the vacancy results in query order, stored under "all_news" with the store time |
| Report.LoadPortfolioTickers | app/process/report.py:25-60 | the loop computes the specification's ticker list |
| Report.PortfolioTickersMembers | app/process/report.py:45-51 | no file gives []; otherwise a ticker is returned iff some non-empty symbol cleans to it |
| Report.CleanSymbolExamples | app/process/report.py:45-51 | "TGLD@", a missing and an empty symbol and "SBER" give ["TGLD", "SBER"]; "@@" cleans to "" |
| Report.AddUnseenFacts | app/process/report.py:76-92 | adding unseen tickers keeps the list duplicate-free and keeps the starting list as a prefix |
| Report.AddUnseenMembers | app/process/report.py:76-92 | a ticker ends up in the list iff it was there or was added |
| Report.AddUnseenDistinct | app/process/report.py:76-92 | distinct new tickers are appended as they come |
| Report.UniverseOrder | app/process/report.py:62-92 | the universe is duplicate-free, begins with the de-duplicated config tickers (the config itself when it has no duplicates), and what follows comes from the portfolio and not from the config |
| Report.UniverseMembers | app/process/report.py:62-92 | a ticker is in the universe iff it is in the config or the portfolio |
| Report.CombinedUniverse | app/process/report.py:62-92 | the two loops compute that universe |
| Report.ProcessSymbol | app/process/report.py:94-165 | a failed fetch gives an entry with every metric None, no signals and the error message; a fetched quote gives the price, lot, dividend, yield, SMAs, range, board and update time, and signals that hold each flag iff its condition on those values holds (as for the metrics), never a 52-week flag, in rank order; the error is absent iff the fetch succeeded |
| Report.Keys | app/process/report.py:188-192 | the keys of the entries, in order |
| Report.Put | app/process/report.py:189-192 | dict assignment: an existing key keeps its place, a new key is appended, only that key's value changes |
| Report.ReportUniverse | app/process/report.py:180-186 | the configured universe, or the combined one when the portfolio is included, which is then duplicate-free |
| Report.BuildBySymbol | app/process/report.py:188-192 | one entry per distinct symbol in universe order, each processed from its own fetch |
| Report.GenerateReport | app/process/report.py:167-204 | rejected with "Universe cannot be empty" iff the universe is empty; otherwise the universe, the time and one processed entry per symbol, exactly one per universe symbol when the portfolio is combined |
| Report.TallyStep | app/process/report.py:299-319 | one more entry increments exactly the counters its state calls for |
| Report.SuccessesAndFailures | app/process/report.py:299-319 | successful + failed = number of entries |
| Report.GetSummary | app/process/report.py:276-325 | total = universe length; each counter and list is the count or selection of its predicate; average dividend yield as specified |
| Report.AboveOrBelow | app/process/report.py:312-317 | with truthy price and SMA200 a symbol is above iff price > SMA200, and below otherwise (equality included), never both |
| Report.HighDividendMembers | app/process/report.py:303-307 | a symbol is high-dividend iff its successful entry has a truthy yield ≥ target |
| Report.AverageDyBounds | app/process/report.py:309-323 | None iff no entry has a truthy yield; otherwise within the range of the yields, up to rounding |
| Text.RStripChar | app/process/report.py:50 | removes exactly the trailing run of the character |
| Text.FindFrom | app/predictor/llm_provider.py:102 | the first occurrence at or after the start, or −1 when there is none |
| Text.RFindChar | app/predictor/llm_provider.py:111 | the last occurrence of a character, or −1 |
| Text.Lower | app/predictor/analyzer.py:39 | character-wise lowercasing of Latin and Cyrillic letters |
| Numeric.Round2 | app/process/metrics.py:112 | rounding to 2 places moves a value by at most 0.005 |
| Numeric.Tail | app/process/metrics.py:73 | the last ≤ k elements |
| Numeric.MaxOf | app/process/metrics.py:79 | an element that bounds all others from above |
| Numeric.MinOf | app/process/metrics.py:80 | an element that bounds all others from below |
| Numeric.MedianConstant | app/process/metrics.py:129-132 | the median of equal values is that value |
| Ordering.StableSortSorted | app/predictor/analyzer.py:136 | the stable sort is ordered by its key |
| Ordering.StableSortStable | app/reco/service.py:131 | the stable sort keeps the input order among equal keys |

## Left out

- Network, files and scheduling are not modelled: the MOEX client, the RSS and hh.ru HTTP calls, the report and history files, the scheduler, the web API and the UI. Their results are inputs, and `AppendCapped` is the history as a pure sequence operation.
- Concurrency is not modelled: `asyncio.gather`, the batches of 3 in the LLM batch analysis and the per-call timeouts. Calls are sequential, and each call's outcome is an input (`provider`, `crashed`).
- `json.loads` and the LLM provider are abstract functions. The provider's availability check is a parameter. The warm-up request is not modelled: its only effect is a logged warning.
- Floating point is not modelled. Prices are `real`. `Round2` is exact 2-place round-half-even on reals, not binary-float `round`.
- Number formatting inside reason strings is not modelled: reasons are datatypes carrying their numbers.
- Python set order in the HIGH signal reason is not modelled. It is a `keywordOrder` parameter, an arbitrary function from the keyword set to a list. `Signals.ReasonKeywords` states the reason's keywords for an order that enumerates the set, as Python's iteration does; `GenerateSignal` itself places no requirement on the parameter.
- LlmProvider.FromCandidate: a JSON null or a non-string value under `sentiment`, `confidence` or `reasoning` is decoded as a missing key and so takes the default. Python's `data.get` returns the null or the value, and the response carries it unchanged.
- Analyzer.DetectCompanyMentions: the word boundary is Python's `\b` restricted to `Text.IsWordChar`, which is ASCII letters, digits and `_` plus the Russian alphabet with Ё/ё. Python's `\w` also counts every other Unicode letter and digit (Ukrainian ї, accented Latin letters, non-ASCII digits), so "сбер" inside "сберї" is a mention here but not in the source. Full Unicode character classes are not modelled.
- Text.IsWordChar: covers only the characters listed in the previous line, not Python's full Unicode `\w`.
- Lowercasing covers ASCII and the basic Cyrillic alphabet (with Ё). Other Unicode case mappings are not modelled.
- Clock readings are parameters. All symbols of one report share one update timestamp, and the cache check and the cache store each take their own time.
- Report.ProcessSymbol: an exception raised inside metric calculation after a successful fetch is not modelled; only a failed fetch produces the error entry.
- Service.GetRecommendations: the per-symbol exception handler is not modelled, because the modelled scoring is total and never raises.
- The `sync_quantity` validator of `Position` is not modelled: whether it runs depends on pydantic field-order rules.
- A vacancy whose `snippet` or `employer` is JSON null is not modelled. There the source raises, and that search contributes nothing. A missing `snippet` or `employer` is modelled, and gives "".
- Logging is not modelled. Neither are `generate_and_save` in `app/process/report.py`, which writes the report files, the configuration-loading wrapper `generate_event_signals` in `app/predictor/signals.py`, or `get_provider_info` in `app/predictor/llm_analyzer.py`.
- Configuration loading is not modelled. Defaults are constants: SMA windows 20/50/200, dividend target 8.0, volume threshold 1.8, cache TTL 3600, the `RecoConfig` defaults and the history cap of 100.
- pandas semantics are not modelled. The SMA is the trailing mean, and a previous SMA that cannot be computed means "no cross".

## Findings

| source | as written | input that shows it | evidently intended | confidence | as-written member | corrected member |
|---|---|---|---|---|---|---|
| app/predictor/llm_provider.py:100-103 | when the json fence (three backticks and "json") has no closing fence, find returns −1 and the slice from the body start to −1 drops the last character of the answer | a json fence followed by "{}" and nothing else: the closing brace is lost and parsing fails with "JSON not found in response" | without a closing fence, parse the rest of the answer | not executed | LlmProvider.UnclosedFenceLosesBrace | LlmProvider.UnclosedFenceParsed |
