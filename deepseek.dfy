/** The DeepSeek adapter: model, cache-hit flag and price at construction, the two chat
    messages, and the post-processing of `analyze` (reply text, JSON recovery, usage, cost and
    the envelope). The chat-completion call is a function from request to outcome. */
module DeepSeek {
  import opened Wrappers
  import opened Builtins
  import opened Pricing
  import opened JsonRecovery
  import opened Base
  import opened Envelope

  const Provider: string := "deepseek"
  const DefaultModel: string := "deepseek-chat"
  const KeyMissingMessage: string := "DEEPSEEK_API_KEY missing"
  const MaxTokens: nat := 200

  /** The fields `__init__` sets, with the cache-hit flag it passes to the catalogue. */
  datatype DeepSeekClient = DeepSeekClient(apiKey: Option<string>, model: string, cacheHit: bool, price: Option<Price>)

  /** The spellings of `DEEPSEEK_CACHE_HIT` that ask for cache-hit pricing, once lower-cased. */
  const CacheHitSpellings: set<string> := {"1", "true", "yes"}

  /** `os.getenv("DEEPSEEK_CACHE_HIT", "false").lower() in {"1", "true", "yes"}`. */
  function CacheHitFlag(env: Env): (r: bool)
    ensures "DEEPSEEK_CACHE_HIT" !in env ==> !r
    ensures r <==> "DEEPSEEK_CACHE_HIT" in env && Lower(env["DEEPSEEK_CACHE_HIT"]) in CacheHitSpellings
  {
    Lower(GetEnvOr(env, "DEEPSEEK_CACHE_HIT", "false")) in CacheHitSpellings
  }

  /** The flag ignores letter case: "TRUE" and "Yes" ask for cache-hit pricing too. */
  lemma CacheHitFlagIgnoresCase(env1: Env, env2: Env)
    requires "DEEPSEEK_CACHE_HIT" in env1 && "DEEPSEEK_CACHE_HIT" in env2
    requires Lower(env1["DEEPSEEK_CACHE_HIT"]) == Lower(env2["DEEPSEEK_CACHE_HIT"])
    ensures CacheHitFlag(env1) == CacheHitFlag(env2)
  {
  }

  /** `DeepkSeekClient(model)`: an explicit non-empty model wins, then `DEEPSEEK_MODEL`, then
      "deepseek-chat"; the price is the catalogue's DeepSeek price for that model under the
      cache-hit flag, and always exists. */
  function NewDeepSeekClient(env: Env, model: Option<string> := None): (c: DeepSeekClient)
    ensures c.apiKey == GetEnv(env, "DEEPSEEK_API_KEY")
    ensures Truthy(model) ==> c.model == model.value
    ensures !Truthy(model) && "DEEPSEEK_MODEL" in env ==> c.model == env["DEEPSEEK_MODEL"]
    ensures !Truthy(model) && "DEEPSEEK_MODEL" !in env ==> c.model == DefaultModel
    ensures c.cacheHit == CacheHitFlag(env)
    ensures c.price.Some? && c.price == PriceFor(Provider, Some(c.model), c.cacheHit)
  {
    var m := if Truthy(model) then model.value else GetEnvOr(env, "DEEPSEEK_MODEL", DefaultModel);
    var hit := CacheHitFlag(env);
    DeepSeekClient(GetEnv(env, "DEEPSEEK_API_KEY"), m, hit, PriceFor(Provider, Some(m), hit))
  }

  /** The default model is billed at the cache-hit input price exactly when the flag asks for
      it; its output price does not depend on the flag. */
  lemma DefaultModelCachePricing(env: Env)
    requires "DEEPSEEK_MODEL" !in env
    ensures var c := NewDeepSeekClient(env);
      && c.model == DefaultModel
      && c.price.value.input == (if CacheHitFlag(env) then 0.07 / PerMillion else 0.27 / PerMillion)
      && c.price.value.output == 1.10 / PerMillion
  {
    assert Lower(DefaultModel) == DefaultModel;
    assert OccursAt(DefaultModel, DeepSeekPrices[0].0, 0);
    assert FirstMatchIndex(DeepSeekPrices, DefaultModel) == Some(0);
  }

  /** A chat message. */
  datatype ChatMessage = ChatMessage(role: string, content: string)

  const UserHeader: string := "Analyze the following financial headline or news text:\n---\n"
  const UserFooter: string := "\n---"

  /** `_user_msg(text)`: the instructions as the system message, then the text between
      `---` fence lines as the user message. */
  function UserMessages(text: string): (msgs: seq<ChatMessage>)
    ensures |msgs| == 2
    ensures msgs[0] == ChatMessage("system", Instructions)
    ensures msgs[1].role == "user"
    ensures |msgs[1].content| == |UserHeader| + |text| + |UserFooter|
    ensures msgs[1].content[..|UserHeader|] == UserHeader
    ensures msgs[1].content[|UserHeader|..|msgs[1].content| - |UserFooter|] == text
    ensures msgs[1].content[|msgs[1].content| - |UserFooter|..] == UserFooter
  {
    var user := UserHeader + text + UserFooter;
    assert user[|UserHeader|..|user| - |UserFooter|] == text;
    [ChatMessage("system", Instructions), ChatMessage("user", user)]
  }

  /** Different texts give different messages: the fenced text can be read back. */
  lemma UserMessagesInjective(a: string, b: string)
    requires UserMessages(a) == UserMessages(b)
    ensures a == b
  {
    var u := UserMessages(a)[1].content;
    assert a == u[|UserHeader|..|u| - |UserFooter|];
  }

  /** The arguments of `chat.completions.create`. */
  datatype ChatRequest = ChatRequest(model: string, messages: seq<ChatMessage>, temperature: int,
                                     maxTokens: nat, jsonObject: bool)

  /** The request `_call(_user_msg(prompt))` sends. */
  function RequestFor(c: DeepSeekClient, prompt: string): (r: ChatRequest)
    ensures r.model == c.model && r.temperature == 0 && r.maxTokens == MaxTokens && r.jsonObject
    ensures r.messages == UserMessages(prompt)
  {
    ChatRequest(c.model, UserMessages(prompt), 0, MaxTokens, true)
  }

  /** One choice of the reply: `message.content`, possibly `None`. */
  datatype Choice = Choice(content: Option<string>)

  /** `resp.usage`, whose counts may be missing or `None`. */
  datatype DeepSeekUsage = DeepSeekUsage(promptTokens: Option<nat>, completionTokens: Option<nat>,
                                         totalTokens: Option<nat>)

  datatype Response = Response(choices: seq<Choice>, usage: Option<DeepSeekUsage>)

  /** What `resp.choices[0]` raises on an empty list. */
  const NoChoiceError: PyError := PyError("IndexError", "list index out of range", false)

  /** `resp.choices[0].message.content or ""`. */
  function ReplyText(resp: Response): (r: Result<string, PyError>)
    ensures r.Failure? <==> resp.choices == []
    ensures r.Failure? ==> r.error == NoChoiceError
    ensures r.Success? ==> r.value == resp.choices[0].content.GetOr("")
  {
    if resp.choices == [] then Failure(NoChoiceError) else Success(resp.choices[0].content.GetOr(""))
  }

  /** The `usage` dict: `{}` without usage; otherwise the three reported counts, the total
      copied and not recomputed. */
  function UsageOf(u: Option<DeepSeekUsage>): (r: Usage)
    ensures r.NoUsage? <==> u.None?
    ensures u.Some? ==> r == Usage(u.value.promptTokens, u.value.completionTokens, u.value.totalTokens)
  {
    match u
    case None => NoUsage
    case Some(v) => Usage(v.promptTokens, v.completionTokens, v.totalTokens)
  }

  /** A reported total that disagrees with its parts is passed on as reported. */
  lemma UsageTotalIsCopied()
    ensures var r := UsageOf(Some(DeepSeekUsage(Some(3), Some(4), Some(10))));
      r.total == Some(10) && r.prompt.value + r.completion.value == 7
  {
  }

  /** `analyze(prompt)`: without a key nothing is called; any exception (from the retried call,
      from an empty `choices`, or from parsing an invalid brace span) becomes a failure envelope
      with its message and type name; otherwise the success envelope. */
  function Analyze(c: DeepSeekClient, prompt: string, call: ChatRequest -> CallOutcome<Response>,
                   loads: string -> Result<Json, PyError>): (r: AnalysisResult)
    ensures r.provider == Provider
    ensures r.KeyMissing? <==> !Truthy(c.apiKey)
    ensures r.KeyMissing? ==> r.error == KeyMissingMessage
    ensures !r.KeyMissing? ==> r.model == c.model
    ensures r.Ok() <==>
      && Truthy(c.apiKey)
      && call(RequestFor(c, prompt)).Returned?
      && ReplyText(call(RequestFor(c, prompt)).response).Success?
      && Recover(ReplyText(call(RequestFor(c, prompt)).response).value, loads).Success?
    ensures r.Ok() ==>
      var out := call(RequestFor(c, prompt));
      && r.rawText == ReplyText(out.response).value
      && r.parsed == Recover(r.rawText, loads).value
      && r.latencyMs == out.latencyMs
      && r.usage == UsageOf(out.response.usage)
      && r.costUsd == UsageCost(r.usage, c.price)
    ensures r.Failed? ==>
      var out := call(RequestFor(c, prompt));
      exists e: PyError :: r.error == e.message && r.errorType == e.typeName &&
        (|| out == Raised(e)
         || (out.Returned? && out.response.choices == [] && e == NoChoiceError)
         || (out.Returned? && ReplyText(out.response).Success? && Recover(ReplyText(out.response).value, loads) == Failure(e)))
  {
    if !Truthy(c.apiKey) then
      KeyMissing(Provider, KeyMissingMessage)
    else
      match call(RequestFor(c, prompt))
      case Raised(e) => ErrorResult(Provider, c.model, e)
      case Returned(resp, latency) =>
        match ReplyText(resp)
        case Failure(e) => ErrorResult(Provider, c.model, e)
        case Success(text) =>
          match Recover(text, loads)
          case Failure(e) => ErrorResult(Provider, c.model, e)
          case Success(parsed) =>
            var usage := UsageOf(resp.usage);
            Succeeded(Provider, c.model, text, parsed, usage, latency, UsageCost(usage, c.price))
  }

  /** A reply without choices fails with the `IndexError` of `choices[0]`. */
  lemma EmptyChoicesFail(c: DeepSeekClient, prompt: string, call: ChatRequest -> CallOutcome<Response>,
                         loads: string -> Result<Json, PyError>, u: Option<DeepSeekUsage>, latency: real)
    requires Truthy(c.apiKey)
    requires call(RequestFor(c, prompt)) == Returned(Response([], u), latency)
    ensures Analyze(c, prompt, call, loads) == Failed(Provider, c.model, "list index out of range", "IndexError")
  {
  }

  /** End to end: a reply whose first choice holds a JSON object, possibly wrapped in prose
      without braces, succeeds with that object, the copied usage and its cost. */
  lemma AnalyzeRecoversReplyObject(c: DeepSeekClient, prompt: string, call: ChatRequest -> CallOutcome<Response>,
                                   loads: string -> Result<Json, PyError>,
                                   prefix: string, obj: string, suffix: string, j: Json,
                                   rest: seq<Choice>, u: Option<DeepSeekUsage>, latency: real)
    requires Truthy(c.apiKey)
    requires call(RequestFor(c, prompt)) == Returned(Response([Choice(Some(prefix + obj + suffix))] + rest, u), latency)
    requires loads(obj) == Success(j)
    requires prefix == suffix == "" || (
      && |obj| >= 2 && obj[0] == '{' && obj[|obj| - 1] == '}'
      && (forall k :: 0 <= k < |prefix| ==> prefix[k] != '{')
      && (forall k :: 0 <= k < |suffix| ==> suffix[k] != '}')
      && loads(prefix + obj + suffix).Failure?)
    ensures Analyze(c, prompt, call, loads) ==
      Succeeded(Provider, c.model, prefix + obj + suffix, Some(j), UsageOf(u), latency, UsageCost(UsageOf(u), c.price))
  {
    RecoverWholeOrEmbedded(prefix, obj, suffix, j, loads);
  }

  /** With a client built from the environment, a successful reply reports a cost exactly when
      both the prompt and the completion counts are reported. */
  lemma CostReportedIffBothCounts(env: Env, model: Option<string>, prompt: string,
                                  call: ChatRequest -> CallOutcome<Response>, loads: string -> Result<Json, PyError>)
    requires Analyze(NewDeepSeekClient(env, model), prompt, call, loads).Ok()
    ensures var r := Analyze(NewDeepSeekClient(env, model), prompt, call, loads);
      && (r.costUsd.Some? <==> r.usage.Usage? && r.usage.prompt.Some? && r.usage.completion.Some?)
      && (r.costUsd.Some? ==> r.costUsd.value >= 0.0)
  {
    var c := NewDeepSeekClient(env, model);
    PricesPositive(Provider, Some(c.model), c.cacheHit);
    UsageCostSign(Analyze(c, prompt, call, loads).usage, c.price);
  }
}
