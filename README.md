# Multi-provider LLM sentiment analyser — a verified model of its decision logic

The repository analyses financial news with several LLM providers. This project models the
parts of it that decide things, leaving out the network calls:

- **The price catalogue.** It has ordered per-provider tables. A model name is matched
  case-insensitively by substring, each provider has a default entry, and DeepSeek has a
  separate cache-hit input price.
- **The cost-aware router.** Tokens are estimated from the word count and the cost is tokens
  times price. `choose_provider` applies, in order, a sensitivity override, a budget filter
  and a latency bonus, then takes the stable minimum, and falls back to `stub`.
- **The two provider adapters (Anthropic and DeepSeek).** The modelled logic covers:
  - model and price resolution at construction;
  - Anthropic's three-style call ladder;
  - reply-text extraction;
  - JSON recovery: the whole text, else the span from the first `{` to the last `}`;
  - usage, cost and the result envelope, including how an exception becomes an
    `ok: False` result.
- **The keyword scorer of the news pipeline.**
- **The key-status map and the routing stub of the orchestrator.**

Each SDK call is a function parameter from request to outcome: a response with its latency,
or a raised exception. `json.loads` is a function parameter from string to JSON value or
exception. The process environment is a `map<string, string>`. Prices and costs are exact
`real`s.

Modules (one file each):

- `Wrappers`: `Option` and `Result`.
- `Builtins`: the Python built-ins the code relies on — `str.lower`, substring `in`, and the
  word count of `str.split()`.
- `Pricing`: `src/benchmarking/pricing.py`.
- `Router`: `src/orchestrator/router.py`.
- `JsonRecovery`: the parse fallback both adapters share.
- `Envelope`: what the adapters share — the instructions, call outcomes, usage, cost and the
  result dict.
- `Anthropic`: `src/clients/anthropic_client.py`.
- `DeepSeek`: `src/clients/deepseek_client.py`.
- `Base`: `src/clients/base.py`.
- `MultiModel`: `src/orchestrator/multimodel_analyzer.py`.
- `NewsAnalyzer`: `src/pipelines/news_analyzer.py`.

Some source objects only set their fields in `__init__` and never change them afterwards:
the two clients, the multi-model analyser and the news analyser. They are modelled as
datatypes built by a `New…` function. The loops that build a value step by step are
verified methods, each proved equal to the function that specifies it:

- the scoring, sort-and-pick and sensitivity loops of `choose_provider`;
- the `text += t` loop of the Anthropic adapter.

## Model

| member | source | states |
|---|---|---|
| Builtins.LowerIdempotent | src/benchmarking/pricing.py:19 | lower-casing an already lower-cased name changes nothing |
| Builtins.WordCount | src/orchestrator/router.py:6 | `len(text.split())`, never more than the length; `WordCountZero`, `WordCountOneWord` and `WordCountJoin` together fix its value on every string |
| Builtins.WordCountOneWord | src/orchestrator/router.py:6 | a non-empty run of non-whitespace characters is exactly one word |
| Builtins.WordCountZero | src/orchestrator/router.py:6 | `len(s.split())` is 0 exactly when every character is whitespace, and never exceeds the length |
| Builtins.WordCountJoin | src/orchestrator/router.py:6 | splitting two texts joined by whitespace gives the sum of their word counts (words never merge across the separator) |
| Pricing.FirstMatchIndex | src/benchmarking/pricing.py:20-23 | the index returned is the first table entry, in declaration order, whose key occurs in the name; absent only when no key occurs |
| Pricing.MatchPrice | src/benchmarking/pricing.py:18-23 | present exactly when some key occurs in the lower-cased name (`None` read as ""), and then it is the price of the first such entry |
| Pricing.PriceFor | src/benchmarking/pricing.py:25-36 | a price exists exactly when the lower-cased provider is openai, anthropic or deepseek; `MatchedModelUsesEntry` and `UnmatchedModelUsesDefault` fix which price it is |
| Pricing.MatchPriceOfFirstMatch | src/benchmarking/pricing.py:18-23 | when entry `i` is the first key occurring in the lower-cased name, the lookup returns entry `i`'s price |
| Pricing.MatchedModelUsesEntry | src/benchmarking/pricing.py:25-35 | a model whose name first matches entry `i` of its own provider's table is priced at that entry, for DeepSeek with the input price the cache flag selects |
| Pricing.DatedSonnetPricedAsSonnet | src/benchmarking/pricing.py:7-31 | claude-3-5-sonnet-20241022 under anthropic costs 3.00/15.00 per million, since the haiku key ahead of it cannot match |
| Pricing.UnmatchedModelUsesDefault | src/benchmarking/pricing.py:27-35 | a model matching no key of its own provider's table gets gpt-4o-mini, claude-3-5-haiku or the deepseek-chat prices (the cache-hit input price when asked for), whatever the other tables hold |
| Pricing.DeepSeekCacheRule | src/benchmarking/pricing.py:32-35 | a DeepSeek price always exists; its input is the cache-hit price only when `cache_hit` is set and the entry has one; its output ignores the flag |
| Pricing.ReasonerIgnoresCacheHit | src/benchmarking/pricing.py:12-15 | deepseek-reasoner costs 0.55/2.19 per million whatever `cache_hit` says |
| Pricing.PricesPositive | src/benchmarking/pricing.py:1-16 | every price the catalogue returns has strictly positive input and output prices |
| Pricing.DeepSeekEntryPositive | src/benchmarking/pricing.py:12-15 | the DeepSeek entry a lookup resolves to has positive miss, hit and output prices |
| Pricing.AnySpellingOfKeyMatches | src/benchmarking/pricing.py:19-21 | a model name holding a table key in any letter case, upper-case letters included, is priced from that table |
| Pricing.DeepSeekInput | src/benchmarking/pricing.py:34 | defines the DeepSeek input price: the cache-miss price unless the flag is set and the entry has a cache-hit price; `DeepSeekCacheRule` and `DefaultModelCachePricing` prove how `price_for` uses it |
| Pricing.TablePositive | src/benchmarking/pricing.py:18-23 | a lookup in a table of positive prices returns a positive price |
| Pricing.Cost | src/orchestrator/router.py:11 | defines `in_tokens * p["in"] + out_tokens * p["out"]`, zero for no tokens and non-negative at non-negative prices; `CostLinear`, `CostMonotone` and `CostSign` prove its properties |
| Pricing.CostLinear | src/orchestrator/router.py:11 | the cost formula is linear in the two token counts with the prices as coefficients |
| Pricing.CostMonotone | src/orchestrator/router.py:11 | at a positive price the cost never decreases when either token count grows |
| Pricing.CostSign | src/orchestrator/router.py:11 | at a positive price the cost is non-negative for non-negative counts, and positive from one input token on |
| Pricing.PriceForCaseInsensitive | src/benchmarking/pricing.py:19-26 | lower-casing the provider or the model name first yields the same price |
| Router.EstimateTokens | src/orchestrator/router.py:4-6 | the estimate is at least 1 and is the floor of 1.3 times the word count when that is at least 1 |
| Router.SingleWordEstimate | src/orchestrator/router.py:4-6 | a single word is estimated at one token |
| Router.EstimateTokensMonotone | src/orchestrator/router.py:4-6 | more words never give fewer estimated tokens |
| Router.EstimateTokensGrow | src/orchestrator/router.py:4-6 | appending text after whitespace never lowers the estimate |
| Router.EstimateCost | src/orchestrator/router.py:8-11 | absent exactly when `price_for` is; otherwise `in*p.in + out*p.out`, non-negative, and positive when at least one input token |
| Router.EstimateCostMonotone | src/orchestrator/router.py:8-11 | the estimate grows with both token counts |
| Router.CandidateCost | src/orchestrator/router.py:32 | the scored cost is the estimate whenever the estimate exists and is non-zero, and the 1e9 sentinel when it is absent or the falsy 0.0 |
| Router.LatencyBonus | src/orchestrator/router.py:35-37 | defines the bonus: -0.00003 for openai, -0.00002 for anthropic, nothing for any other name; `DecideIsStableArgmin` and `FiftyWordsGoToDeepSeek` show its effect on the winner |
| Router.KeepWithin | src/orchestrator/router.py:33-34 | defines the budget filter: it keeps only candidates within budget and keeps all of them when no budget is given; `SourcesSorted`, `SourcesSound` and `SourcesComplete` prove it keeps exactly those, in order |
| Router.Sources | src/orchestrator/router.py:31-34 | each kept score comes from a position of the candidate list |
| Router.SourcesSorted | src/orchestrator/router.py:31-38 | the budget filter keeps candidates in their original order |
| Router.SourcesSound | src/orchestrator/router.py:33-34 | every kept candidate is within budget and equal to the candidate it came from |
| Router.SourcesComplete | src/orchestrator/router.py:33-34 | every candidate within budget is kept |
| Router.KeepWithinStep | src/orchestrator/router.py:31-38 | one more loop iteration appends the next candidate exactly when it is within budget |
| Router.FirstKeptMinimum | src/orchestrator/router.py:31-44 | filtering by budget and then taking the stable-sort winner picks a candidate within budget of least adjusted cost, earliest on ties |
| Router.FirstMinIndex | src/orchestrator/router.py:43-44 | the index is a minimum of the adjusted cost with no earlier entry as cheap (what a stable sort puts first) |
| Router.FirstMinUnique | src/orchestrator/router.py:43-44 | there is only one such index, so the stable-sort winner is determined |
| Router.FindProvider | src/orchestrator/router.py:23-24 | the first entry whose provider is exactly "anthropic", or none |
| Router.Decide | src/orchestrator/router.py:13-45 | the function model of `choose_provider`: no model exactly for the stub decision, and anthropic with reason "sensitive->anthropic" under the override; `SensitiveOverride`, `StubIffNothingWithinBudget` and `DecideIsStableArgmin` characterise it fully |
| Router.SensitiveOverride | src/orchestrator/router.py:22-27 | with `sensitive` and an anthropic entry, the first such entry wins with reason "sensitive->anthropic", whatever the budget or target |
| Router.StubIffNothingWithinBudget | src/orchestrator/router.py:29-41 | without the override, the result is the stub decision exactly when no available pair is within budget (including an empty list) |
| Router.KeepWithinEmpty | src/orchestrator/router.py:33-40 | the filtered list is empty exactly when no candidate is within budget |
| Router.DecideIsStableArgmin | src/orchestrator/router.py:35-45 | otherwise the winner is an available pair within budget minimising cost plus latency bonus, earliest on ties, reported with its unadjusted cost and reason `target` |
| Router.ZeroBudgetMeansStub | src/orchestrator/router.py:32-41 | with a zero budget and no override the decision is always stub |
| Router.FiftyWordsGoToDeepSeek | src/orchestrator/router.py:29-45 | fifty words between gpt-4o-mini and deepseek-chat go to deepseek-chat, reported at 0.00014955 USD (65 input and 120 output tokens) |
| Router.ScoreCandidates | src/orchestrator/router.py:29-38 | the loop builds exactly the budget-filtered list of `(cost + bonus, prov, model, cost)` tuples, in order |
| Router.FirstMinimum | src/orchestrator/router.py:43-44 | the loop returns the first index of minimal adjusted cost |
| Router.ChooseProvider | src/orchestrator/router.py:13-45 | the decision equals the specification `Decide`, about which the lemmas above are proved |
| JsonRecovery.FirstIndexOf | src/clients/anthropic_client.py:89 | the first position of the character, or none when it does not occur |
| JsonRecovery.LastIndexOf | src/clients/anthropic_client.py:89 | the last position of the character, or none when it does not occur |
| JsonRecovery.BraceBounds | src/clients/anthropic_client.py:89 | the bounds run from the first `{` to the last `}` after it; present exactly when such a pair exists |
| JsonRecovery.BraceSpan | src/clients/anthropic_client.py:89-90 | the span `\{.*\}` with DOTALL matches exists exactly when a `{` precedes some `}`, starts with `{`, ends with `}` and is a substring |
| JsonRecovery.BraceSpanOfEmbedded | src/clients/anthropic_client.py:89 | an object wrapped in prose without `{` before it and without `}` after it is exactly the span |
| JsonRecovery.Recover | src/clients/anthropic_client.py:85-90 | no value without error exactly when the text is not JSON and has no span; an error only from parsing the span; a value comes from the whole text or the span |
| JsonRecovery.RecoverWholeOrEmbedded | src/clients/deepseek_client.py:46-52 | a reply that is a JSON document, or an object wrapped in brace-free prose, yields that document |
| Envelope.ErrorResult | src/clients/anthropic_client.py:114-115 | the `except` envelope is never ok and carries the provider, the model, the exception's message and its type name; both adapters build it on every exception (`OtherErrorFailsAtOnce`, `EmptyChoicesFail`) |
| Envelope.UsageCost | src/clients/anthropic_client.py:100-102 | a cost exists exactly when a price and both counts are present, and equals `prompt*in + completion*out` |
| Envelope.UsageCostSign | src/clients/deepseek_client.py:59-61 | at a positive price the reported cost is non-negative, and positive from one prompt token on |
| Base.EnvKeysStatus | src/clients/base.py:7-10 | exactly the three key names, in order, each "set" or "missing", "set" exactly when the variable is defined and non-empty |
| Base.EnvKeysStatusReadsOnlyKeys | src/clients/base.py:9-10 | two environments agreeing on the three variables give the same map |
| Base.EnvKeysStatusDistinct | src/clients/base.py:9-10 | the map's keys are distinct |
| Anthropic.NewAnthropicClient | src/clients/anthropic_client.py:8-12 | the model is the non-empty argument, else ANTHROPIC_MODEL, else the default; its Anthropic price always exists |
| Anthropic.DefaultModelPricedAsHaiku | src/clients/anthropic_client.py:10-12 | the default model claude-3-5-haiku-latest is priced with the claude-3-5-haiku entry |
| Anthropic.Merged | src/clients/anthropic_client.py:39 | the merged message starts with the instructions and holds the user text, recoverable, between the header and the closing fence |
| Anthropic.MergedInjective | src/clients/anthropic_client.py:39 | different texts give different merged messages |
| Anthropic.RequestFor | src/clients/anthropic_client.py:25-58 | every style uses the client's model, max_tokens 200 and temperature 0; only style 1 sends `system`, only style 2 a plain string |
| Anthropic.CallLadder | src/clients/anthropic_client.py:63-73 | styles are tried in order; style 2 only after a style-1 TypeError, style 3 only after a style-2 error; the outcome is the last style's |
| Anthropic.JoinBlocks | src/clients/anthropic_client.py:78-80 | defines the joined text of the blocks' truthy texts, in order, at least as long as any one of them; `JoinBlocksAppend`, `JoinBlocksEmpty` and `JoinBlocksContains` prove its properties |
| Anthropic.JoinBlocksAppend | src/clients/anthropic_client.py:78-80 | joining the blocks of a concatenation concatenates the joined texts |
| Anthropic.JoinBlocksEmpty | src/clients/anthropic_client.py:78-81 | the joined text is empty exactly when no block has a non-empty text |
| Anthropic.JoinBlocksContains | src/clients/anthropic_client.py:78-80 | every non-empty block text occurs in the joined text |
| Anthropic.ResponseText | src/clients/anthropic_client.py:76-82 | the joined block texts when non-empty, otherwise `message.content or ""` when there is a message, otherwise "" |
| Anthropic.ExtractText | src/clients/anthropic_client.py:76-82 | the extraction loop computes exactly `ResponseText` |
| Anthropic.UsageOf | src/clients/anthropic_client.py:93-98 | `{}` without usage; otherwise the counts as reported and a total equal to their sum with missing counts as 0 |
| Anthropic.UsageTotalBounds | src/clients/anthropic_client.py:97 | the total is at least each reported count and their sum when both are reported |
| Anthropic.Analyze | src/clients/anthropic_client.py:60-115 | key missing exactly when no key; ok exactly when the ladder returned and recovery did not raise; success carries text, recovered JSON, latency, usage, cost; failure carries the ladder's or the span parse's error |
| Anthropic.AnalyzeWithoutKeyCallsNothing | src/clients/anthropic_client.py:61-62 | without a key the result does not depend on the SDK or the parser |
| Anthropic.TypeErrorFallsBackToMergedString | src/clients/anthropic_client.py:65-70 | a style-1 TypeError followed by a style-2 reply uses that reply and never sends style 3 |
| Anthropic.OtherErrorFailsAtOnce | src/clients/anthropic_client.py:114-115 | any other style-1 error becomes `ok: False` carrying its message and type name |
| Anthropic.AnalyzeRecoversReplyObject | src/clients/anthropic_client.py:76-113 | a one-block reply holding a JSON object, possibly wrapped in brace-free prose, succeeds with that object, the usage and its cost |
| Anthropic.CostReportedIffBothCounts | src/clients/anthropic_client.py:100-102 | for a client built from the environment a success reports a non-negative cost exactly when both counts are reported |
| DeepSeek.CacheHitFlag | src/clients/deepseek_client.py:13-15 | cache-hit pricing exactly when the lower-cased variable is 1, true or yes; unset means miss |
| DeepSeek.CacheHitFlagIgnoresCase | src/clients/deepseek_client.py:15 | spellings differing only in letter case give the same flag |
| DeepSeek.NewDeepSeekClient | src/clients/deepseek_client.py:9-15 | the model is the non-empty argument, else DEEPSEEK_MODEL, else deepseek-chat; the price under the flag always exists |
| DeepSeek.DefaultModelCachePricing | src/clients/deepseek_client.py:11-15 | the default model pays 0.07 per million input tokens with the flag and 0.27 without, 1.10 for output either way |
| DeepSeek.UserMessages | src/clients/deepseek_client.py:17-25 | exactly two messages, system with the instructions then user with the text between `---` fences |
| DeepSeek.UserMessagesInjective | src/clients/deepseek_client.py:24 | different texts give different messages |
| DeepSeek.RequestFor | src/clients/deepseek_client.py:27-36 | the request carries the client's model, the two messages, temperature 0, max_tokens 200 and the JSON response format |
| DeepSeek.ReplyText | src/clients/deepseek_client.py:45 | an IndexError exactly when there are no choices; otherwise the first choice's content or "" |
| DeepSeek.UsageOf | src/clients/deepseek_client.py:53-58 | `{}` without usage; otherwise the three counts copied, the total not recomputed |
| DeepSeek.UsageTotalIsCopied | src/clients/deepseek_client.py:57 | a reported total that disagrees with its parts is passed on unchanged |
| DeepSeek.Analyze | src/clients/deepseek_client.py:40-75 | key missing exactly when no key; ok exactly when the call returned, a choice exists and recovery did not raise; every exception becomes a failure with its message and type |
| DeepSeek.EmptyChoicesFail | src/clients/deepseek_client.py:45 | a reply without choices fails with IndexError "list index out of range" |
| DeepSeek.AnalyzeRecoversReplyObject | src/clients/deepseek_client.py:44-72 | a first choice holding a JSON object, possibly in brace-free prose, succeeds with that object, the copied usage and its cost |
| DeepSeek.CostReportedIffBothCounts | src/clients/deepseek_client.py:59-61 | for a client built from the environment a success reports a non-negative cost exactly when both counts are reported |
| MultiModel.NewMultiModelAnalyzer | src/orchestrator/multimodel_analyzer.py:6-8 | the captured map has the three key names in order, "set" exactly for the defined non-empty ones |
| MultiModel.AvailableProviders | src/orchestrator/multimodel_analyzer.py:11 | exactly the keys whose status is "set", no more entries than the map |
| MultiModel.AvailableProvidersAppend | src/orchestrator/multimodel_analyzer.py:11 | the filter keeps the map's order (it distributes over concatenation) |
| MultiModel.AvailableFromEnv | src/orchestrator/multimodel_analyzer.py:8-11 | a name is available exactly when it is one of the three key names and its variable is defined and non-empty |
| MultiModel.AnalyzeWithRouting | src/orchestrator/multimodel_analyzer.py:10-19 | always ok with the stub result; query, task type (default "news") and the captured map echoed; available names are those marked "set" |
| NewsAnalyzer.Hits | src/pipelines/news_analyzer.py:12 | the presence count is at most the number of keywords |
| NewsAnalyzer.HitsZeroIff | src/pipelines/news_analyzer.py:12 | no hit exactly when no keyword occurs, all hits exactly when every keyword occurs |
| NewsAnalyzer.HitsMonotone | src/pipelines/news_analyzer.py:12 | a text containing another hits at least as many keywords |
| NewsAnalyzer.RuleScore | src/pipelines/news_analyzer.py:9-12 | positive hits minus negative hits in the lower-cased text, between -8 and 8 |
| NewsAnalyzer.RuleScoreBounds | src/pipelines/news_analyzer.py:10-12 | the score lies in [-8, 8] |
| NewsAnalyzer.RuleScoreIgnoresCase | src/pipelines/news_analyzer.py:9 | a text and its lower-cased form score the same |
| NewsAnalyzer.Label | src/pipelines/news_analyzer.py:13-15 | "bullish" exactly for a positive score, "bearish" for a negative one, "neutral" for zero |
| NewsAnalyzer.BeatsCountsTwice | src/pipelines/news_analyzer.py:10-12 | a text containing "beats" hits both "beat" and "beats" |
| NewsAnalyzer.MissesCountsTwice | src/pipelines/news_analyzer.py:11-12 | a text containing "misses" hits both "miss" and "misses" |
| NewsAnalyzer.ContainsAcrossSpace | src/pipelines/news_analyzer.py:12 | a space-free keyword found in two texts joined by a space lies within one of them |
| NewsAnalyzer.HitsOfRepeat | src/pipelines/news_analyzer.py:12 | a keyword list without spaces hits the same keywords in a text repeated after a space |
| NewsAnalyzer.LowerRepeat | src/pipelines/news_analyzer.py:9 | lower-casing a repeated text repeats the lower-cased text |
| NewsAnalyzer.RuleScoreOfRepeat | src/pipelines/news_analyzer.py:10-12 | repeating a headline does not change its score: each keyword counts once |
| NewsAnalyzer.NewFinancialNewsAnalyzer | src/pipelines/news_analyzer.py:5-6 | the analyser holds the routing stub built from the environment |
| NewsAnalyzer.AnalyzeSentiment | src/pipelines/news_analyzer.py:8-17 | the result holds the rule score, the label matching its sign, and the routing envelope for the original text with task type "news" |
| NewsAnalyzer.BeatsAloneIsBullish | src/pipelines/news_analyzer.py:9-17 | a text with "beats" and no negative keyword is bullish with a score of at least 2 |

## Left out

- Network calls, SDK client construction and `asyncio.to_thread` are not modelled. Each call
  is a function parameter whose outcome is either a response with its latency or a raised
  exception.
- Latency measurement with `time.perf_counter` is not modelled. The latency is part of the
  call outcome.
- tenacity retry and backoff are not modelled (`src/clients/anthropic_client.py:23-24`,
  `src/clients/deepseek_client.py:27`). The outcome parameter stands for the result after
  retries.
  - The DeepSeek retry has no exception filter, so every error is retried.
  - With default settings tenacity raises `RetryError`, not the original `TypeError`, once
    attempts run out. Whether the style-2 and style-3 fallbacks can fire therefore depends
    on the library.
  - The ladder is modelled as `analyze` writes it, over abstract outcomes.
- `round(…, 1)` and `round(…, 6)` of latency and cost are omitted. Costs and latencies are
  exact reals and are reported unrounded.
- Floating point in general is not modelled: prices are exact rationals. `int(n * 1.3)` is
  taken as the floor of `13n/10`. The two agree except at very large counts, around 10^15
  words, where the float product can round up to the next integer.
- Router.EstimateTokens: the estimate truncates as the code does. It is a floor, not a
  ceiling.
- Builtins.Lower: `str.lower` is modelled on ASCII letters only. Other characters are kept as
  they are.
- `str.split()` uses Python's `isspace` set, listed by code point.
- `json.loads` is a function parameter. The JSON grammar itself is not modelled.
- The regular expression `\{.*\}` with DOTALL is modelled as the span from the first `{` to
  the last `}` after it, which is what a greedy match finds.
- The responses' attribute probing (`hasattr`, `getattr` with defaults) is modelled as
  optional typed fields. A missing attribute and a `None` value are the same case.
  Non-string `text` values and non-numeric counts are not modelled.
- Anthropic.ResponseText: a response whose `content` attribute exists but is `None` is
  treated as having no content. The source iterates over it, raises `TypeError`, and returns
  `ok: False` (`src/clients/anthropic_client.py:76-77`, `:114-115`). The model does not
  capture that error path: its `Response(None, …)` goes on to the `message` fallback.
- Environment access: `os.getenv` reads a map passed in. `load_dotenv(".env")` is not
  modelled; the map stands for the environment after loading.
- The `LLMClient` protocol declares only a signature and is not modelled.
- Router.ZeroBudgetMeansStub: it requires a non-negative output-token count. A negative
  count could make a cost zero or negative, and the code does not exclude one.
- The RAG index (`src/pipelines/rag_index.py`), the Streamlit UI (`src/ui/app.py`) and the
  benchmark driver (`src/benchmarking/benchmark.py`) are foreign I/O and are not part of
  this model.
- The repository has no code for `auto`, explicit-name or `stub` routing, ensemble
  aggregation or an OpenAI client, so none is modelled.
