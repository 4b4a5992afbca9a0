/** The price catalogue: USD per token for each provider's models, looked up by
    case-insensitive substring match of the model name against ordered tables. */
module Pricing {
  import opened Wrappers
  import opened Builtins

  /** A resolved price: `{"in": …, "out": …}`, USD per token. */
  datatype Price = Price(input: real, output: real)

  /** A DeepSeek table entry: the cache-miss input price, the cache-hit input price when
      the model has one, and the output price. */
  datatype CachePrice = CachePrice(inMiss: real, inHit: Option<real>, output: real)

  const PerMillion: real := 1000000.0

  const GptFourOMini := Price(0.60 / PerMillion, 2.40 / PerMillion)
  const ClaudeHaiku := Price(0.80 / PerMillion, 4.00 / PerMillion)
  const ClaudeSonnet := Price(3.00 / PerMillion, 15.00 / PerMillion)
  const DeepSeekChat := CachePrice(0.27 / PerMillion, Some(0.07 / PerMillion), 1.10 / PerMillion)
  const DeepSeekReasoner := CachePrice(0.55 / PerMillion, None, 2.19 / PerMillion)

  /** The tables, in declaration order (a Python dict iterates in insertion order). */
  const OpenAIPrices: seq<(string, Price)> := [("gpt-4o-mini", GptFourOMini)]
  const AnthropicPrices: seq<(string, Price)> := [
    ("claude-3-5-haiku", ClaudeHaiku),
    ("claude-3-5-sonnet", ClaudeSonnet),
    ("claude-3-7-sonnet", ClaudeSonnet),
    ("claude-sonnet-4", ClaudeSonnet)
  ]
  const DeepSeekPrices: seq<(string, CachePrice)> := [
    ("deepseek-chat", DeepSeekChat),
    ("deepseek-reasoner", DeepSeekReasoner)
  ]

  /** Entry `i` is the first of `table` whose key is a substring of `m`. */
  predicate IsFirstMatch<V>(table: seq<(string, V)>, m: string, i: int) {
    && 0 <= i < |table|
    && Contains(m, table[i].0)
    && forall k :: 0 <= k < i ==> !Contains(m, table[k].0)
  }

  /** Position of the first entry whose key occurs in `m`, scanning in table order. */
  function FirstMatchIndex<V>(table: seq<(string, V)>, m: string): (r: Option<nat>)
    ensures r.Some? ==> IsFirstMatch(table, m, r.value)
    ensures r.None? ==> forall k :: 0 <= k < |table| ==> !Contains(m, table[k].0)
  {
    if table == [] then None
    else if Contains(m, table[0].0) then Some(0)
    else match FirstMatchIndex(table[1..], m)
      case None => None
      case Some(i) => Some(i + 1)
  }

  /** `_match_price(table, model)`: the price of the first entry, in table order, whose key
      occurs in the lower-cased model name (`None` counts as the empty name); absent when
      no key occurs. */
  function MatchPrice<V>(table: seq<(string, V)>, model: Option<string>): (r: Option<V>)
    ensures r.Some? <==> exists i :: 0 <= i < |table| && Contains(Lower(model.GetOr("")), table[i].0)
    ensures r.Some? ==> exists i :: IsFirstMatch(table, Lower(model.GetOr("")), i) && r.value == table[i].1
  {
    var m := Lower(model.GetOr(""));
    match FirstMatchIndex(table, m)
    case None => None
    case Some(i) => Some(table[i].1)
  }

  /** At most one entry is the first match. */
  lemma FirstMatchUnique<V>(table: seq<(string, V)>, m: string, i: int, j: int)
    requires IsFirstMatch(table, m, i) && IsFirstMatch(table, m, j)
    ensures i == j
  {
  }

  /** When entry `i` is the first match for the lower-cased name, the lookup returns its price. */
  lemma MatchPriceOfFirstMatch<V>(table: seq<(string, V)>, model: Option<string>, i: nat)
    requires IsFirstMatch(table, Lower(model.GetOr("")), i)
    ensures MatchPrice(table, model) == Some(table[i].1)
  {
    var m := Lower(model.GetOr(""));
    assert Contains(m, table[i].0);
    var j :| IsFirstMatch(table, m, j) && MatchPrice(table, model).value == table[j].1;
    FirstMatchUnique(table, m, i, j);
  }

  /** A model whose lower-cased name first matches entry `i` of its provider's table is
      priced at that entry (for DeepSeek, with the input price chosen by the cache flag). */
  lemma MatchedModelUsesEntry(provider: string, model: Option<string>, cacheHit: bool, i: nat)
    ensures Lower(provider) == "openai" && IsFirstMatch(OpenAIPrices, Lower(model.GetOr("")), i) ==>
      PriceFor(provider, model, cacheHit) == Some(OpenAIPrices[i].1)
    ensures Lower(provider) == "anthropic" && IsFirstMatch(AnthropicPrices, Lower(model.GetOr("")), i) ==>
      PriceFor(provider, model, cacheHit) == Some(AnthropicPrices[i].1)
    ensures Lower(provider) == "deepseek" && IsFirstMatch(DeepSeekPrices, Lower(model.GetOr("")), i) ==>
      PriceFor(provider, model, cacheHit) == Some(Price(DeepSeekInput(DeepSeekPrices[i].1, cacheHit), DeepSeekPrices[i].1.output))
  {
    var m := Lower(model.GetOr(""));
    if IsFirstMatch(OpenAIPrices, m, i) {
      MatchPriceOfFirstMatch(OpenAIPrices, model, i);
    }
    if IsFirstMatch(AnthropicPrices, m, i) {
      MatchPriceOfFirstMatch(AnthropicPrices, model, i);
    }
    if IsFirstMatch(DeepSeekPrices, m, i) {
      MatchPriceOfFirstMatch(DeepSeekPrices, model, i);
    }
  }

  /** A dated Sonnet release is priced as Sonnet, 3.00/15.00 per million: its name holds no
      `h`, so the `claude-3-5-haiku` key ahead of it in the table cannot match. */
  lemma DatedSonnetPricedAsSonnet()
    ensures PriceFor("anthropic", Some("claude-3-5-sonnet-20241022")) == Some(ClaudeSonnet)
  {
    var m := "claude-3-5-sonnet-20241022";
    assert Lower(m) == m;
    assert Lower("anthropic") == "anthropic";
    MissingCharNotContained(m, AnthropicPrices[0].0, 'h');
    assert OccursAt(m, AnthropicPrices[1].0, 0);
    assert IsFirstMatch(AnthropicPrices, m, 1);
    MatchedModelUsesEntry("anthropic", Some(m), false, 1);
  }

  /** The key match ignores the case of the model name: a name holding any spelling of a
      key, upper-case letters included, is priced from the table. */
  lemma AnySpellingOfKeyMatches<V>(table: seq<(string, V)>, model: string, spelling: string, i: nat)
    requires i < |table| && Lower(spelling) == table[i].0
    requires Contains(model, spelling)
    ensures MatchPrice(table, Some(model)).Some?
  {
    ContainsLower(model, spelling);
  }

  /** The DeepSeek input price: the cache-hit price only when asked for and available. */
  function DeepSeekInput(d: CachePrice, cacheHit: bool): (r: real)
    ensures r == d.inMiss || (cacheHit && d.inHit == Some(r))
    ensures !cacheHit || d.inHit.None? ==> r == d.inMiss
  {
    if cacheHit && d.inHit.Some? then d.inHit.value else d.inMiss
  }

  /** `price_for(provider, model, cache_hit=…)`. */
  function PriceFor(provider: string, model: Option<string>, cacheHit: bool := false): (r: Option<Price>)
    ensures r.Some? <==> Lower(provider) in {"openai", "anthropic", "deepseek"}
  {
    var p := Lower(provider);
    if p == "openai" then
      Some(MatchPrice(OpenAIPrices, model).GetOr(GptFourOMini))
    else if p == "anthropic" then
      Some(MatchPrice(AnthropicPrices, model).GetOr(ClaudeHaiku))
    else if p == "deepseek" then
      var d := MatchPrice(DeepSeekPrices, model).GetOr(DeepSeekChat);
      Some(Price(DeepSeekInput(d, cacheHit), d.output))
    else
      None
  }

  /** A model that matches no key of its provider's own table is priced at that provider's
      default entry, whatever the other tables hold. */
  lemma UnmatchedModelUsesDefault(provider: string, model: Option<string>, cacheHit: bool)
    ensures Lower(provider) == "openai" && MatchPrice(OpenAIPrices, model).None? ==>
      PriceFor(provider, model, cacheHit) == Some(GptFourOMini)
    ensures Lower(provider) == "anthropic" && MatchPrice(AnthropicPrices, model).None? ==>
      PriceFor(provider, model, cacheHit) == Some(ClaudeHaiku)
    ensures Lower(provider) == "deepseek" && MatchPrice(DeepSeekPrices, model).None? ==>
      PriceFor(provider, model, cacheHit) == Some(Price(if cacheHit then 0.07 / PerMillion else 0.27 / PerMillion, 1.10 / PerMillion))
  {
  }

  /** The DeepSeek input price is the cache-hit price exactly when the cache-hit flag is set
      and the matched entry has one; the output price ignores the flag. */
  lemma DeepSeekCacheRule(model: Option<string>, cacheHit: bool)
    ensures var d := MatchPrice(DeepSeekPrices, model).GetOr(DeepSeekChat);
      && PriceFor("deepseek", model, cacheHit).Some?
      && (PriceFor("deepseek", model, cacheHit).value.input == (if cacheHit && d.inHit.Some? then d.inHit.value else d.inMiss))
      && PriceFor("deepseek", model, cacheHit).value.output == PriceFor("deepseek", model, !cacheHit).value.output
  {
    assert Lower("deepseek") == "deepseek";
  }

  /** `deepseek-reasoner` has no cache-hit price, so the flag does not change its price. */
  lemma ReasonerIgnoresCacheHit(model: Option<string>)
    requires MatchPrice(DeepSeekPrices, model) == Some(DeepSeekReasoner)
    ensures PriceFor("deepseek", model, true) == PriceFor("deepseek", model, false)
    ensures PriceFor("deepseek", model, true) == Some(Price(0.55 / PerMillion, 2.19 / PerMillion))
  {
    assert Lower("deepseek") == "deepseek";
  }

  predicate PositivePrice(p: Price) {
    p.input > 0.0 && p.output > 0.0
  }

  /** Every price the catalogue returns is strictly positive. */
  lemma PricesPositive(provider: string, model: Option<string>, cacheHit: bool)
    requires PriceFor(provider, model, cacheHit).Some?
    ensures PositivePrice(PriceFor(provider, model, cacheHit).value)
  {
    var p := Lower(provider);
    if p == "openai" {
      TablePositive(OpenAIPrices, model);
      assert PriceFor(provider, model, cacheHit).value == MatchPrice(OpenAIPrices, model).GetOr(GptFourOMini);
    } else if p == "anthropic" {
      TablePositive(AnthropicPrices, model);
      assert PriceFor(provider, model, cacheHit).value == MatchPrice(AnthropicPrices, model).GetOr(ClaudeHaiku);
    } else {
      assert p == "deepseek";
      var d := MatchPrice(DeepSeekPrices, model).GetOr(DeepSeekChat);
      DeepSeekEntryPositive(model);
      assert PriceFor(provider, model, cacheHit).value == Price(DeepSeekInput(d, cacheHit), d.output);
    }
  }

  /** The DeepSeek entry a lookup resolves to has positive prices. */
  lemma DeepSeekEntryPositive(model: Option<string>)
    ensures var d := MatchPrice(DeepSeekPrices, model).GetOr(DeepSeekChat);
      d.inMiss > 0.0 && d.output > 0.0 && (d.inHit.Some? ==> d.inHit.value > 0.0)
  {
    var m := MatchPrice(DeepSeekPrices, model);
    if m.Some? {
      var i :| IsFirstMatch(DeepSeekPrices, Lower(model.GetOr("")), i) && m.value == DeepSeekPrices[i].1;
    }
  }

  lemma TablePositive(table: seq<(string, Price)>, model: Option<string>)
    requires forall k :: 0 <= k < |table| ==> PositivePrice(table[k].1)
    ensures MatchPrice(table, model).Some? ==> PositivePrice(MatchPrice(table, model).value)
  {
    if MatchPrice(table, model).Some? {
      var i :| IsFirstMatch(table, Lower(model.GetOr("")), i) && MatchPrice(table, model).value == table[i].1;
    }
  }

  /** `in_tokens * p["in"] + out_tokens * p["out"]`: the price of a call at `p`. */
  function Cost(p: Price, inTokens: int, outTokens: int): (c: real)
    ensures inTokens == 0 && outTokens == 0 ==> c == 0.0
    ensures p.input >= 0.0 && p.output >= 0.0 && inTokens >= 0 && outTokens >= 0 ==> c >= 0.0
  {
    inTokens as real * p.input + outTokens as real * p.output
  }

  /** The cost is linear in the token counts, with the two prices as its coefficients. */
  lemma CostLinear(p: Price, i1: int, o1: int, i2: int, o2: int)
    ensures Cost(p, 1, 0) == p.input && Cost(p, 0, 1) == p.output
    ensures Cost(p, i1 + i2, o1 + o2) == Cost(p, i1, o1) + Cost(p, i2, o2)
  {
    Distributes(i1 as real, i2 as real, p.input);
    Distributes(o1 as real, o2 as real, p.output);
  }

  lemma Distributes(x: real, y: real, a: real)
    ensures (x + y) * a == x * a + y * a
  {
  }

  /** At a positive price, the cost grows with both token counts. */
  lemma CostMonotone(p: Price, i1: int, o1: int, i2: int, o2: int)
    requires PositivePrice(p)
    requires i1 <= i2 && o1 <= o2
    ensures Cost(p, i1, o1) <= Cost(p, i2, o2)
  {
    ScalesUp(i1 as real, i2 as real, p.input);
    ScalesUp(o1 as real, o2 as real, p.output);
  }

  lemma ScalesUp(x: real, y: real, a: real)
    requires x <= y && a > 0.0
    ensures x * a <= y * a
  {
  }

  /** At a positive price, no tokens cost nothing, and at least one input token costs
      something. */
  lemma CostSign(p: Price, inTokens: int, outTokens: int)
    requires PositivePrice(p)
    ensures inTokens >= 0 && outTokens >= 0 ==> Cost(p, inTokens, outTokens) >= 0.0
    ensures inTokens >= 1 && outTokens >= 0 ==> Cost(p, inTokens, outTokens) > 0.0
  {
    if inTokens >= 0 && outTokens >= 0 {
      ScalesUp(0.0, inTokens as real, p.input);
      ScalesUp(0.0, outTokens as real, p.output);
    }
    if inTokens >= 1 && outTokens >= 0 {
      ScalesUp(1.0, inTokens as real, p.input);
    }
  }

  /** Provider and model names are compared case-insensitively: lower-casing either one
      beforehand changes nothing. */
  lemma PriceForCaseInsensitive(provider: string, model: string, cacheHit: bool)
    ensures PriceFor(provider, Some(model), cacheHit) == PriceFor(Lower(provider), Some(Lower(model)), cacheHit)
  {
    LowerIdempotent(provider);
    LowerIdempotent(model);
  }
}
