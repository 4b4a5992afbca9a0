/** What the provider adapters share: the instruction text, the outcome of an SDK call, the
    usage record, the cost formula applied to real usage, and the result envelope. */
module Envelope {
  import opened Wrappers
  import opened Builtins
  import opened Pricing
  import opened JsonRecovery

  /** The instruction both adapters send ahead of the text to analyse. */
  const Instructions: string :=
    "You are a financial NLP assistant. "
    + "Respond ONLY with a valid JSON object using these fields: "
    + "sentiment (bullish|bearish|neutral), confidence (0..1), "
    + "key_entities (array of strings), impact_score (0..1)."

  /** The outcome of one SDK call: the response with the measured latency, or the exception
      it raised. */
  datatype CallOutcome<R> = Returned(response: R, latencyMs: real) | Raised(error: PyError)

  /** The `usage` dict: `{}` when the response carries no usage, otherwise the prompt,
      completion and total token counts, each possibly `None`. */
  datatype Usage = NoUsage | Usage(prompt: Option<nat>, completion: Option<nat>, total: Option<nat>)

  /** The dict `analyze` returns. `KeyMissing` is `{ok: False, provider, error}`; `Failed`
      adds `model` and `error_type`; `Succeeded` is the `ok: True` envelope. */
  datatype AnalysisResult =
    | KeyMissing(provider: string, error: string)
    | Failed(provider: string, model: string, error: string, errorType: string)
    | Succeeded(provider: string, model: string, rawText: string, parsed: Option<Json>,
                usage: Usage, latencyMs: real, costUsd: Option<real>)
  {
    predicate Ok() {
      Succeeded?
    }
  }

  /** `cost_usd` before rounding: reported only when a price is known and both the prompt and
      the completion counts are present. */
  function UsageCost(usage: Usage, price: Option<Price>): (r: Option<real>)
    ensures r.Some? <==> price.Some? && usage.Usage? && usage.prompt.Some? && usage.completion.Some?
    ensures r.Some? ==> r.value == Cost(price.value, usage.prompt.value, usage.completion.value)
  {
    if price.Some? && usage.Usage? && usage.prompt.Some? && usage.completion.Some? then
      Some(Cost(price.value, usage.prompt.value, usage.completion.value))
    else
      None
  }

  /** With a positive price the reported cost is never negative, and it is positive as soon
      as one prompt token was billed. */
  lemma UsageCostSign(usage: Usage, price: Option<Price>)
    requires price.Some? ==> PositivePrice(price.value)
    ensures UsageCost(usage, price).Some? ==> UsageCost(usage, price).value >= 0.0
    ensures UsageCost(usage, price).Some? && usage.prompt.value >= 1 ==> UsageCost(usage, price).value > 0.0
  {
    if UsageCost(usage, price).Some? {
      CostSign(price.value, usage.prompt.value, usage.completion.value);
    }
  }

  /** The `except Exception as e` envelope. */
  function ErrorResult(provider: string, model: string, e: PyError): (r: AnalysisResult)
    ensures !r.Ok() && r.Failed?
    ensures r.provider == provider && r.model == model
    ensures r.error == e.message && r.errorType == e.typeName
  {
    Failed(provider, model, e.message, e.typeName)
  }
}
