/** The Anthropic adapter: model and price resolution at construction, the three-style call
    ladder, text extraction from the response blocks, JSON recovery, usage and cost, and the
    result envelope of `analyze`. The SDK call is a function from request to outcome. */
module Anthropic {
  import opened Wrappers
  import opened Builtins
  import opened Pricing
  import opened JsonRecovery
  import opened Base
  import opened Envelope

  const Provider: string := "anthropic"
  const DefaultModel: string := "claude-3-5-haiku-latest"
  const KeyMissingMessage: string := "ANTHROPIC_API_KEY missing"
  const MaxTokens: nat := 200

  /** The fields `__init__` sets: the key, the resolved model name and its price. */
  datatype AnthropicClient = AnthropicClient(apiKey: Option<string>, model: string, price: Option<Price>)

  /** `AnthropicClient(model)`: an explicit non-empty model wins, then `ANTHROPIC_MODEL`
      (even when set to the empty string), then the default; the price is the catalogue's
      Anthropic price for that model, which always exists. */
  function NewAnthropicClient(env: Env, model: Option<string> := None): (c: AnthropicClient)
    ensures c.apiKey == GetEnv(env, "ANTHROPIC_API_KEY")
    ensures Truthy(model) ==> c.model == model.value
    ensures !Truthy(model) && "ANTHROPIC_MODEL" in env ==> c.model == env["ANTHROPIC_MODEL"]
    ensures !Truthy(model) && "ANTHROPIC_MODEL" !in env ==> c.model == DefaultModel
    ensures c.price.Some? && c.price == PriceFor(Provider, Some(c.model))
  {
    var m := if Truthy(model) then model.value else GetEnvOr(env, "ANTHROPIC_MODEL", DefaultModel);
    AnthropicClient(GetEnv(env, "ANTHROPIC_API_KEY"), m, PriceFor(Provider, Some(m)))
  }

  /** With neither an explicit model nor `ANTHROPIC_MODEL`, the client runs
      "claude-3-5-haiku-latest" and prices it with the `claude-3-5-haiku` entry. */
  lemma DefaultModelPricedAsHaiku(env: Env)
    requires "ANTHROPIC_MODEL" !in env
    ensures NewAnthropicClient(env).model == DefaultModel
    ensures NewAnthropicClient(env).price == Some(ClaudeHaiku)
  {
    assert Lower(DefaultModel) == DefaultModel;
    assert OccursAt(DefaultModel, AnthropicPrices[0].0, 0);
    assert FirstMatchIndex(AnthropicPrices, DefaultModel) == Some(0);
  }

  /** The three request shapes the ladder tries, in order. */
  datatype Style = SystemAndBlocks | MergedString | MergedBlocks

  /** The user message content: a plain string or a list of text blocks. */
  datatype Content = TextContent(text: string) | Blocks(texts: seq<string>)

  /** The arguments of `messages.create`. */
  datatype Request = Request(model: string, system: Option<string>, maxTokens: nat,
                             temperature: int, content: Content)

  const MergedHeader: string := "\n\nAnalyze this financial text strictly as JSON:\n---\n"
  const MergedFooter: string := "\n---"

  /** The instructions and the text in one string, for the styles without `system`; the user
      text sits between the header and the closing fence and can be read back. */
  function Merged(userText: string): (r: string)
    ensures |r| == |Instructions| + |MergedHeader| + |userText| + |MergedFooter|
    ensures r[..|Instructions|] == Instructions
    ensures r[|Instructions| + |MergedHeader|..|r| - |MergedFooter|] == userText
    ensures r[|r| - |MergedFooter|..] == MergedFooter
  {
    var r := Instructions + MergedHeader + userText + MergedFooter;
    assert r[..|Instructions|] == Instructions;
    assert r[|Instructions| + |MergedHeader|..|r| - |MergedFooter|] == userText;
    r
  }

  /** Different texts give different merged messages. */
  lemma MergedInjective(a: string, b: string)
    requires Merged(a) == Merged(b)
    ensures a == b
  {
    var ma := Merged(a);
    assert a == ma[|Instructions| + |MergedHeader|..|ma| - |MergedFooter|];
  }

  /** The request of `_call_styleN`: the same model, `max_tokens=200` and `temperature=0`
      in every style; only style 1 uses `system`, only style 2 sends a plain string. */
  function RequestFor(c: AnthropicClient, style: Style, userText: string): (r: Request)
    ensures r.model == c.model && r.maxTokens == MaxTokens && r.temperature == 0
    ensures r.system.Some? <==> style == SystemAndBlocks
    ensures r.content.TextContent? <==> style == MergedString
    ensures style == SystemAndBlocks ==> r.system == Some(Instructions) && r.content == Blocks([userText])
    ensures style == MergedString ==> r.content == TextContent(Merged(userText))
    ensures style == MergedBlocks ==> r.content == Blocks([Merged(userText)])
  {
    match style
    case SystemAndBlocks => Request(c.model, Some(Instructions), MaxTokens, 0, Blocks([userText]))
    case MergedString => Request(c.model, None, MaxTokens, 0, TextContent(Merged(userText)))
    case MergedBlocks => Request(c.model, None, MaxTokens, 0, Blocks([Merged(userText)]))
  }

  /** A text block of the response: its `text` attribute, if any. */
  datatype Block = Block(text: Option<string>)

  /** `resp.message`, whose `content` may be missing or `None`. */
  datatype MessageField = MessageField(content: Option<string>)

  /** `resp.usage`, whose counts may be missing or `None`. */
  datatype AnthropicUsage = AnthropicUsage(inputTokens: Option<nat>, outputTokens: Option<nat>)

  /** The SDK response, whose attributes are each present or not. */
  datatype Response = Response(content: Option<seq<Block>>, message: Option<MessageField>,
                               usage: Option<AnthropicUsage>)

  /** The styles tried and the outcome of the last one. */
  datatype LadderRun = LadderRun(tried: seq<Style>, outcome: CallOutcome<Response>)

  const Ladder: seq<Style> := [SystemAndBlocks, MergedString, MergedBlocks]

  /** The nested `try` of `analyze`: style 1; style 2 only when style 1 raised a `TypeError`;
      style 3 only when style 2 raised anything. The outcome is that of the last style tried. */
  function CallLadder(c: AnthropicClient, prompt: string, call: Request -> CallOutcome<Response>): (run: LadderRun)
    ensures 1 <= |run.tried| <= 3 && run.tried == Ladder[..|run.tried|]
    ensures run.outcome == call(RequestFor(c, run.tried[|run.tried| - 1], prompt))
    ensures |run.tried| >= 2 <==>
      call(RequestFor(c, SystemAndBlocks, prompt)).Raised? && call(RequestFor(c, SystemAndBlocks, prompt)).error.isTypeError
    ensures |run.tried| == 3 <==> |run.tried| >= 2 && call(RequestFor(c, MergedString, prompt)).Raised?
    ensures run.outcome.Raised? ==> |run.tried| == 3 || !run.outcome.error.isTypeError
  {
    var first := call(RequestFor(c, SystemAndBlocks, prompt));
    if first.Raised? && first.error.isTypeError then
      var second := call(RequestFor(c, MergedString, prompt));
      if second.Raised? then
        LadderRun(Ladder, call(RequestFor(c, MergedBlocks, prompt)))
      else
        LadderRun(Ladder[..2], second)
    else
      LadderRun(Ladder[..1], first)
  }

  /** What one block adds to the text: its `text` when that is truthy. */
  function BlockText(b: Block): string {
    if Truthy(b.text) then b.text.value else ""
  }

  /** The concatenation, in order, of the blocks' non-empty texts. */
  function JoinBlocks(blocks: seq<Block>): (text: string)
    ensures forall k :: 0 <= k < |blocks| ==> |BlockText(blocks[k])| <= |text|
  {
    if blocks == [] then "" else JoinBlocks(blocks[..|blocks| - 1]) + BlockText(blocks[|blocks| - 1])
  }

  /** Joining distributes over concatenation of block lists. */
  lemma {:induction false} JoinBlocksAppend(a: seq<Block>, b: seq<Block>)
    ensures JoinBlocks(a + b) == JoinBlocks(a) + JoinBlocks(b)
    decreases |b|
  {
    if b == [] {
      assert a + b == a;
    } else {
      var b' := b[..|b| - 1];
      var last := BlockText(b[|b| - 1]);
      assert (a + b)[..|a + b| - 1] == a + b' && (a + b)[|a + b| - 1] == b[|b| - 1];
      assert JoinBlocks(a + b) == JoinBlocks(a + b') + last;
      JoinBlocksAppend(a, b');
      assert JoinBlocks(b) == JoinBlocks(b') + last;
    }
  }

  /** The joined text is empty exactly when no block has a non-empty text. */
  lemma {:induction false} JoinBlocksEmpty(blocks: seq<Block>)
    ensures JoinBlocks(blocks) == "" <==> forall k :: 0 <= k < |blocks| ==> !Truthy(blocks[k].text)
    decreases |blocks|
  {
    if blocks != [] {
      var init := blocks[..|blocks| - 1];
      JoinBlocksEmpty(init);
      assert forall k :: 0 <= k < |init| ==> init[k] == blocks[k];
    }
  }

  /** Every non-empty block text occurs in the joined text. */
  lemma {:induction false} JoinBlocksContains(blocks: seq<Block>, k: nat)
    requires k < |blocks| && Truthy(blocks[k].text)
    ensures Contains(JoinBlocks(blocks), blocks[k].text.value)
    decreases |blocks|
  {
    var init := blocks[..|blocks| - 1];
    var whole, front := JoinBlocks(blocks), JoinBlocks(init);
    assert whole == front + BlockText(blocks[|blocks| - 1]);
    if k == |blocks| - 1 {
      assert whole[|front|..|whole|] == blocks[k].text.value;
      ContainsSlice(whole, |front|, |whole|);
    } else {
      assert init[k] == blocks[k];
      JoinBlocksContains(init, k);
      assert whole[..|front|] == front;
      ContainsSlice(whole, 0, |front|);
      ContainsTransitive(whole, front, blocks[k].text.value);
    }
  }

  /** The reply text: the joined block texts when the response has `content`; when that is
      empty, `message.content` (or "") when the response has `message`. */
  function ResponseText(resp: Response): (text: string)
    ensures resp.content.Some? && JoinBlocks(resp.content.value) != "" ==> text == JoinBlocks(resp.content.value)
    ensures (resp.content.None? || JoinBlocks(resp.content.value) == "") && resp.message.Some? ==>
      text == resp.message.value.content.GetOr("")
    ensures (resp.content.None? || JoinBlocks(resp.content.value) == "") && resp.message.None? ==> text == ""
  {
    var joined := if resp.content.Some? then JoinBlocks(resp.content.value) else "";
    if joined == "" && resp.message.Some? then resp.message.value.content.GetOr("") else joined
  }

  /** The extraction loop of `analyze`, appending each truthy block text in turn. */
  method ExtractText(resp: Response) returns (text: string)
    ensures text == ResponseText(resp)
  {
    text := "";
    if resp.content.Some? {
      var blocks := resp.content.value;
      var i := 0;
      while i < |blocks|
        invariant 0 <= i <= |blocks|
        invariant text == JoinBlocks(blocks[..i])
      {
        assert blocks[..i + 1][..i] == blocks[..i];
        var t := blocks[i].text;
        if t.Some? && t.value != "" {
          text := text + t.value;
        }
        i := i + 1;
      }
      assert blocks[..|blocks|] == blocks;
    }
    if text == "" && resp.message.Some? {
      var content := resp.message.value.content;
      text := if content.Some? then content.value else "";
    }
  }

  /** The `usage` dict: `{}` without usage; otherwise the two counts as reported and their sum
      with each missing count taken as 0. */
  function UsageOf(u: Option<AnthropicUsage>): (r: Usage)
    ensures r.NoUsage? <==> u.None?
    ensures u.Some? ==> r.prompt == u.value.inputTokens && r.completion == u.value.outputTokens
    ensures u.Some? ==> r.total.Some? && r.total.value == r.prompt.GetOr(0) + r.completion.GetOr(0)
  {
    match u
    case None => NoUsage
    case Some(v) =>
      Usage(v.inputTokens, v.outputTokens, Some(v.inputTokens.GetOr(0) + v.outputTokens.GetOr(0)))
  }

  /** The reported total is never below either reported count, and is their sum when both
      are there. */
  lemma UsageTotalBounds(u: AnthropicUsage)
    ensures var r := UsageOf(Some(u));
      && (r.prompt.Some? ==> r.prompt.value <= r.total.value)
      && (r.completion.Some? ==> r.completion.value <= r.total.value)
      && (r.prompt.Some? && r.completion.Some? ==> r.total.value == r.prompt.value + r.completion.value)
  {
  }

  /** `analyze(prompt)`. Without a key nothing is called. Otherwise the ladder's exception, or
      the exception of parsing an invalid brace span, becomes a failure envelope carrying its
      message and type name; every other path succeeds with the extracted text, the recovered
      JSON, the usage and its cost. */
  function Analyze(c: AnthropicClient, prompt: string, call: Request -> CallOutcome<Response>,
                   loads: string -> Result<Json, PyError>): (r: AnalysisResult)
    ensures r.provider == Provider
    ensures r.KeyMissing? <==> !Truthy(c.apiKey)
    ensures r.KeyMissing? ==> r.error == KeyMissingMessage
    ensures !r.KeyMissing? ==> r.model == c.model
    ensures r.Ok() <==>
      && Truthy(c.apiKey)
      && CallLadder(c, prompt, call).outcome.Returned?
      && Recover(ResponseText(CallLadder(c, prompt, call).outcome.response), loads).Success?
    ensures r.Ok() ==>
      var out := CallLadder(c, prompt, call).outcome;
      && r.rawText == ResponseText(out.response)
      && r.parsed == Recover(r.rawText, loads).value
      && r.latencyMs == out.latencyMs
      && r.usage == UsageOf(out.response.usage)
      && r.costUsd == UsageCost(r.usage, c.price)
    ensures r.Failed? ==>
      var out := CallLadder(c, prompt, call).outcome;
      exists e: PyError :: r.error == e.message && r.errorType == e.typeName &&
        (|| out == Raised(e)
         || (out.Returned? && Recover(ResponseText(out.response), loads) == Failure(e)))
  {
    if !Truthy(c.apiKey) then
      KeyMissing(Provider, KeyMissingMessage)
    else
      var run := CallLadder(c, prompt, call);
      match run.outcome
      case Raised(e) => ErrorResult(Provider, c.model, e)
      case Returned(resp, latency) =>
        var text := ResponseText(resp);
        match Recover(text, loads)
        case Failure(e) => ErrorResult(Provider, c.model, e)
        case Success(parsed) =>
          var usage := UsageOf(resp.usage);
          Succeeded(Provider, c.model, text, parsed, usage, latency, UsageCost(usage, c.price))
  }

  /** A missing or empty key yields the same envelope whatever the SDK and the parser would
      have done. */
  lemma AnalyzeWithoutKeyCallsNothing(c: AnthropicClient, prompt: string,
                                      call1: Request -> CallOutcome<Response>, call2: Request -> CallOutcome<Response>,
                                      loads1: string -> Result<Json, PyError>, loads2: string -> Result<Json, PyError>)
    requires !Truthy(c.apiKey)
    ensures Analyze(c, prompt, call1, loads1) == Analyze(c, prompt, call2, loads2) == KeyMissing(Provider, KeyMissingMessage)
  {
  }

  /** A style-1 `TypeError` followed by a style-2 reply: the reply of style 2 is what gets
      analysed, and style 3 is never sent. */
  lemma TypeErrorFallsBackToMergedString(c: AnthropicClient, prompt: string,
                                         call: Request -> CallOutcome<Response>, e: PyError, resp: Response, latency: real)
    requires e.isTypeError
    requires call(RequestFor(c, SystemAndBlocks, prompt)) == Raised(e)
    requires call(RequestFor(c, MergedString, prompt)) == Returned(resp, latency)
    ensures CallLadder(c, prompt, call) == LadderRun([SystemAndBlocks, MergedString], Returned(resp, latency))
  {
    assert Ladder[..2] == [SystemAndBlocks, MergedString];
  }

  /** A style-1 error other than `TypeError` ends the call as a failure carrying it. */
  lemma OtherErrorFailsAtOnce(c: AnthropicClient, prompt: string, call: Request -> CallOutcome<Response>,
                              loads: string -> Result<Json, PyError>, e: PyError)
    requires Truthy(c.apiKey)
    requires !e.isTypeError
    requires call(RequestFor(c, SystemAndBlocks, prompt)) == Raised(e)
    ensures Analyze(c, prompt, call, loads) == Failed(Provider, c.model, e.message, e.typeName)
  {
    assert CallLadder(c, prompt, call).outcome == Raised(e);
  }

  /** End to end: when style 1 answers with one block holding a JSON object, possibly wrapped
      in prose without braces, the envelope is a success that carries that object and the
      response's usage priced with the client's price. */
  lemma AnalyzeRecoversReplyObject(c: AnthropicClient, prompt: string, call: Request -> CallOutcome<Response>,
                                   loads: string -> Result<Json, PyError>,
                                   prefix: string, obj: string, suffix: string, j: Json,
                                   u: Option<AnthropicUsage>, latency: real)
    requires Truthy(c.apiKey)
    requires obj != ""
    requires call(RequestFor(c, SystemAndBlocks, prompt)) ==
      Returned(Response(Some([Block(Some(prefix + obj + suffix))]), None, u), latency)
    requires loads(obj) == Success(j)
    requires prefix == suffix == "" || (
      && |obj| >= 2 && obj[0] == '{' && obj[|obj| - 1] == '}'
      && (forall k :: 0 <= k < |prefix| ==> prefix[k] != '{')
      && (forall k :: 0 <= k < |suffix| ==> suffix[k] != '}')
      && loads(prefix + obj + suffix).Failure?)
    ensures Analyze(c, prompt, call, loads) ==
      Succeeded(Provider, c.model, prefix + obj + suffix, Some(j), UsageOf(u), latency, UsageCost(UsageOf(u), c.price))
  {
    var blocks := [Block(Some(prefix + obj + suffix))];
    assert blocks[..0] == [];
    assert JoinBlocks(blocks) == prefix + obj + suffix;
    RecoverWholeOrEmbedded(prefix, obj, suffix, j, loads);
  }

  /** With a client built from the environment, a successful reply reports a non-negative cost
      exactly when both token counts are reported. */
  lemma CostReportedIffBothCounts(env: Env, model: Option<string>, prompt: string,
                                  call: Request -> CallOutcome<Response>, loads: string -> Result<Json, PyError>)
    requires Analyze(NewAnthropicClient(env, model), prompt, call, loads).Ok()
    ensures var r := Analyze(NewAnthropicClient(env, model), prompt, call, loads);
      && (r.costUsd.Some? <==> r.usage.Usage? && r.usage.prompt.Some? && r.usage.completion.Some?)
      && (r.costUsd.Some? ==> r.costUsd.value >= 0.0)
  {
    var c := NewAnthropicClient(env, model);
    PricesPositive(Provider, Some(c.model), false);
    UsageCostSign(Analyze(c, prompt, call, loads).usage, c.price);
  }
}
