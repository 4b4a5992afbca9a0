/** The cost-aware router: a token estimate from the word count, a cost estimate from the
    price catalogue, and `choose_provider`, which picks one `(provider, model)` pair from
    the available ones before any call is made. */
module Router {
  import opened Wrappers
  import opened Builtins
  import opened Pricing

  /** `estimate_tokens(text)`: `max(1, int(len(text.split()) * 1.3))`, which on word counts
      is the floor of 13n/10, never below 1. */
  function EstimateTokens(text: string): (r: nat)
    ensures r >= 1
    ensures 13 * WordCount(text) >= 10 ==> 10 * r <= 13 * WordCount(text) < 10 * r + 10
    ensures 13 * WordCount(text) < 10 ==> r == 1
  {
    var n := WordCount(text);
    if 13 * n / 10 < 1 then 1 else 13 * n / 10
  }

  /** A single word is estimated at one token: `int(1 * 1.3)` is 1. */
  lemma SingleWordEstimate(w: string)
    requires w != [] && forall i :: 0 <= i < |w| ==> !IsSpace(w[i])
    ensures EstimateTokens(w) == 1
  {
    WordCountOneWord(w);
  }

  /** More words never give fewer estimated tokens. */
  lemma EstimateTokensMonotone(a: string, b: string)
    requires WordCount(a) <= WordCount(b)
    ensures EstimateTokens(a) <= EstimateTokens(b)
  {
    var na, nb := WordCount(a), WordCount(b);
    assert 13 * na <= 13 * nb;
    DivMonotone(13 * na, 13 * nb);
  }

  lemma DivMonotone(x: nat, y: nat)
    requires x <= y
    ensures x / 10 <= y / 10
  {
  }

  /** Appending more text after a separator never lowers the estimate. */
  lemma EstimateTokensGrow(a: string, sep: char, b: string)
    requires IsSpace(sep)
    ensures EstimateTokens(a) <= EstimateTokens(a + [sep] + b)
  {
    WordCountJoin(a, sep, b);
    EstimateTokensMonotone(a, a + [sep] + b);
  }

  /** `estimate_cost(provider, model, in_tokens, out_tokens, cache_hit=…)`: absent exactly when
      the catalogue has no price; otherwise the cost of the token counts at that price. */
  function EstimateCost(provider: string, model: Option<string>, inTokens: int, outTokens: int,
                        cacheHit: bool := false): (r: Option<real>)
    ensures r.Some? <==> PriceFor(provider, model, cacheHit).Some?
    ensures r.Some? ==> r.value == Cost(PriceFor(provider, model, cacheHit).value, inTokens, outTokens)
    ensures r.Some? && inTokens >= 0 && outTokens >= 0 ==> r.value >= 0.0
    ensures r.Some? && inTokens >= 1 && outTokens >= 0 ==> r.value > 0.0
  {
    match PriceFor(provider, model, cacheHit)
    case None => None
    case Some(p) =>
      PricesPositive(provider, model, cacheHit);
      CostSign(p, inTokens, outTokens);
      Some(Cost(p, inTokens, outTokens))
  }

  /** The estimate grows with both token counts. */
  lemma EstimateCostMonotone(provider: string, model: Option<string>, i1: int, o1: int, i2: int, o2: int, cacheHit: bool)
    requires PriceFor(provider, model, cacheHit).Some?
    requires i1 <= i2 && o1 <= o2
    ensures EstimateCost(provider, model, i1, o1, cacheHit).value <= EstimateCost(provider, model, i2, o2, cacheHit).value
  {
    PricesPositive(provider, model, cacheHit);
    CostMonotone(PriceFor(provider, model, cacheHit).value, i1, o1, i2, o2);
  }

  /** The routing decision `{provider, model, reason, est_cost_usd}`. */
  datatype Decision = Decision(provider: string, model: Option<string>, reason: string, estCostUsd: real)

  /** One entry of `scores`: `(cost + lat_bonus, prov, model, cost)`. */
  datatype Score = Score(adjusted: real, provider: string, model: string, cost: real)

  /** The cost charged to a provider the catalogue cannot price (`1e9`). */
  const Unpriced: real := 1000000000.0

  const StubDecision := Decision("stub", None, "no provider within budget", 0.0)

  /** The latency preference added to the cost before comparison; the provider name is
      compared as given, not lower-cased. */
  function LatencyBonus(provider: string): (bonus: real)
    ensures -0.00003 <= bonus <= 0.0
    ensures bonus != 0.0 <==> provider == "anthropic" || provider == "openai"
  {
    if provider == "anthropic" then -0.00002
    else if provider == "openai" then -0.00003
    else 0.0
  }

  /** `estimate_cost(prov, model, in_tok, expected_out_tokens) or 1e9`: an absent estimate,
      and also an estimate of exactly 0.0 (falsy in Python), becomes the sentinel. */
  function CandidateCost(provider: string, model: string, inTok: int, outTok: int): (r: real)
    ensures var e := EstimateCost(provider, Some(model), inTok, outTok);
      e.Some? && e.value != 0.0 ==> r == e.value
    ensures var e := EstimateCost(provider, Some(model), inTok, outTok);
      e.None? || e == Some(0.0) ==> r == Unpriced
  {
    var c := EstimateCost(provider, Some(model), inTok, outTok);
    if c.None? || c.value == 0.0 then Unpriced else c.value
  }

  /** The budget filter keeps a candidate unless a budget is given and its cost exceeds it. */
  predicate WithinBudget(cost: real, budget: Option<real>) {
    budget.None? || cost <= budget.value
  }

  /** The tuple the scoring loop would append for `entry`: `(cost + lat_bonus, prov, model, cost)`. */
  function ScoreOf(entry: (string, string), inTok: int, outTok: int): Score {
    var cost := CandidateCost(entry.0, entry.1, inTok, outTok);
    Score(cost + LatencyBonus(entry.0), entry.0, entry.1, cost)
  }

  /** Every available pair, scored, in order (before the budget filter). */
  function Candidates(available: seq<(string, string)>, inTok: int, outTok: int): (cands: seq<Score>)
    ensures |cands| == |available|
  {
    seq(|available|, i requires 0 <= i < |available| => ScoreOf(available[i], inTok, outTok))
  }

  /** The budget filter of the scoring loop: the candidates whose cost is within budget,
      in their order. */
  function KeepWithin(cands: seq<Score>, budget: Option<real>): (kept: seq<Score>)
    ensures |kept| <= |cands|
    ensures budget.None? ==> |kept| == |cands|
    ensures forall k :: 0 <= k < |kept| ==> WithinBudget(kept[k].cost, budget)
  {
    if cands == [] then []
    else
      var last := cands[|cands| - 1];
      KeepWithin(cands[..|cands| - 1], budget) + (if WithinBudget(last.cost, budget) then [last] else [])
  }

  /** For each kept candidate, the position it came from. */
  ghost function Sources(cands: seq<Score>, budget: Option<real>): (src: seq<nat>)
    ensures |src| == |KeepWithin(cands, budget)|
    ensures forall k :: 0 <= k < |src| ==> src[k] < |cands|
  {
    if cands == [] then []
    else
      var n := |cands| - 1;
      var src := Sources(cands[..n], budget);
      if WithinBudget(cands[n].cost, budget) then src + [n] else src
  }

  predicate Increasing(s: seq<nat>) {
    forall k1, k2 :: 0 <= k1 < k2 < |s| ==> s[k1] < s[k2]
  }

  /** The filter keeps the candidates' order. */
  lemma {:induction false} SourcesSorted(cands: seq<Score>, budget: Option<real>)
    ensures Increasing(Sources(cands, budget))
  {
    if cands != [] {
      var n := |cands| - 1;
      SourcesSorted(cands[..n], budget);
      var prev := Sources(cands[..n], budget);
      var src := Sources(cands, budget);
      var keep := WithinBudget(cands[n].cost, budget);
      assert src == if keep then prev + [n] else prev;
      forall k1, k2 | 0 <= k1 < k2 < |src|
        ensures src[k1] < src[k2]
      {
        assert src[k1] == prev[k1] && prev[k1] < |cands[..n]|;
        if k2 < |prev| {
          assert src[k2] == prev[k2];
          assert prev[k1] < prev[k2];
        } else {
          assert src[k2] == n;
        }
      }
    }
  }

  /** Every kept candidate is within budget. */
  lemma {:induction false} SourcesSound(cands: seq<Score>, budget: Option<real>)
    ensures var src := Sources(cands, budget);
      forall k :: 0 <= k < |src| ==> WithinBudget(cands[src[k]].cost, budget) && KeepWithin(cands, budget)[k] == cands[src[k]]
  {
    if cands != [] {
      var n := |cands| - 1;
      var prefix := cands[..n];
      SourcesSound(prefix, budget);
      var prev := Sources(prefix, budget);
      var src := Sources(cands, budget);
      var keep := WithinBudget(cands[n].cost, budget);
      assert src == if keep then prev + [n] else prev;
      assert KeepWithin(cands, budget) == KeepWithin(prefix, budget) + (if keep then [cands[n]] else []);
      forall k | 0 <= k < |src|
        ensures WithinBudget(cands[src[k]].cost, budget) && KeepWithin(cands, budget)[k] == cands[src[k]]
      {
        if k < |prev| {
          assert src[k] == prev[k] && prev[k] < |prefix|;
          assert cands[prev[k]] == prefix[prev[k]];
          assert KeepWithin(cands, budget)[k] == KeepWithin(prefix, budget)[k];
        } else {
          assert keep && src[k] == n;
          assert KeepWithin(cands, budget)[k] == cands[n];
        }
      }
    }
  }

  /** Every candidate within budget is kept. */
  lemma {:induction false} SourcesComplete(cands: seq<Score>, budget: Option<real>, j: int)
    requires 0 <= j < |cands| && WithinBudget(cands[j].cost, budget)
    ensures j in Sources(cands, budget)
  {
    var n := |cands| - 1;
    if j < n {
      SourcesComplete(cands[..n], budget, j);
    }
  }

  /** `k` is where a stable sort by adjusted cost would take its first element from: a
      minimum, and no earlier entry is as cheap. */
  predicate IsFirstMin(scores: seq<Score>, k: int) {
    && 0 <= k < |scores|
    && (forall j :: 0 <= j < |scores| ==> scores[k].adjusted <= scores[j].adjusted)
    && (forall j :: 0 <= j < k ==> scores[j].adjusted > scores[k].adjusted)
  }

  function FirstMinIndex(scores: seq<Score>): (k: nat)
    requires scores != []
    ensures IsFirstMin(scores, k)
  {
    if |scores| == 1 then 0
    else
      var k := FirstMinIndex(scores[1..]) + 1;
      if scores[0].adjusted <= scores[k].adjusted then 0 else k
  }

  lemma FirstMinUnique(scores: seq<Score>, k1: int, k2: int)
    requires IsFirstMin(scores, k1) && IsFirstMin(scores, k2)
    ensures k1 == k2
  {
    assert scores[k1].adjusted <= scores[k2].adjusted;
    assert scores[k2].adjusted <= scores[k1].adjusted;
  }

  /** Position of the first entry whose provider is exactly `name`. */
  function FindProvider(available: seq<(string, string)>, name: string): (r: Option<nat>)
    ensures r.Some? ==> r.value < |available| && available[r.value].0 == name
                        && forall k :: 0 <= k < r.value ==> available[k].0 != name
    ensures r.None? ==> forall k :: 0 <= k < |available| ==> available[k].0 != name
  {
    if available == [] then None
    else if available[0].0 == name then Some(0)
    else match FindProvider(available[1..], name)
      case None => None
      case Some(i) => Some(i + 1)
  }

  /** Whether the sensitivity override decides the call. */
  predicate SensitiveApplies(available: seq<(string, string)>, sensitive: bool) {
    sensitive && FindProvider(available, "anthropic").Some?
  }

  /** The `scores` list, before sorting. */
  function Scores(available: seq<(string, string)>, inTok: int, outTok: int, budget: Option<real>): seq<Score> {
    KeepWithin(Candidates(available, inTok, outTok), budget)
  }

  /** The decision `choose_provider` returns, as a function of its inputs. */
  function Decide(text: string, available: seq<(string, string)>, target: string := "cheapest",
                  outTokens: int := 120, sensitive: bool := false, budget: Option<real> := None): (d: Decision)
    ensures d.model.None? <==> d == StubDecision
    ensures SensitiveApplies(available, sensitive) ==> d.provider == "anthropic" && d.reason == "sensitive->anthropic"
    ensures d == StubDecision || d.reason == target || d.reason == "sensitive->anthropic"
  {
    var inTok := EstimateTokens(text);
    if SensitiveApplies(available, sensitive) then
      var model := available[FindProvider(available, "anthropic").value].1;
      Decision("anthropic", Some(model), "sensitive->anthropic",
               EstimateCost("anthropic", Some(model), inTok, outTokens).GetOr(0.0))
    else
      var scores := Scores(available, inTok, outTokens, budget);
      if scores == [] then StubDecision
      else
        var best := scores[FirstMinIndex(scores)];
        Decision(best.provider, Some(best.model), target, best.cost)
  }

  /** With `sensitive` set and an `anthropic` entry available, the first such entry is
      chosen, whatever the budget, the target and the other providers' costs. */
  lemma SensitiveOverride(text: string, available: seq<(string, string)>, target: string, outTokens: int,
                          budget: Option<real>, otherTarget: string, otherBudget: Option<real>, i: nat)
    requires i < |available| && available[i].0 == "anthropic"
    requires forall k :: 0 <= k < i ==> available[k].0 != "anthropic"
    ensures Decide(text, available, target, outTokens, true, budget)
         == Decision("anthropic", Some(available[i].1), "sensitive->anthropic",
                     EstimateCost("anthropic", Some(available[i].1), EstimateTokens(text), outTokens).GetOr(0.0))
    ensures Decide(text, available, target, outTokens, true, budget)
         == Decide(text, available, otherTarget, outTokens, true, otherBudget)
  {
    assert FindProvider(available, "anthropic") == Some(i);
  }

  /** Otherwise the router falls back to `stub` exactly when no available pair is within
      budget (in particular when none is available). */
  lemma StubIffNothingWithinBudget(text: string, available: seq<(string, string)>, target: string,
                                   outTokens: int, sensitive: bool, budget: Option<real>)
    requires !SensitiveApplies(available, sensitive)
    ensures Decide(text, available, target, outTokens, sensitive, budget) == StubDecision
        <==> forall j :: 0 <= j < |available| ==>
               !WithinBudget(CandidateCost(available[j].0, available[j].1, EstimateTokens(text), outTokens), budget)
  {
    var inTok := EstimateTokens(text);
    var cands := Candidates(available, inTok, outTokens);
    KeepWithinEmpty(cands, budget);
    forall j | 0 <= j < |available|
      ensures cands[j].cost == CandidateCost(available[j].0, available[j].1, inTok, outTokens)
    {
    }
  }

  /** The budget filter drops everything exactly when no candidate is within budget. */
  lemma {:induction false} KeepWithinEmpty(cands: seq<Score>, budget: Option<real>)
    ensures KeepWithin(cands, budget) == [] <==> forall j :: 0 <= j < |cands| ==> !WithinBudget(cands[j].cost, budget)
  {
    if cands != [] {
      var n := |cands| - 1;
      KeepWithinEmpty(cands[..n], budget);
      assert forall j :: 0 <= j < n ==> cands[..n][j] == cands[j];
    }
  }

  /** Entry `i` of `available` is what the cost path picks: within budget, of least adjusted
      cost among those within budget, and the earliest of them on a tie. */
  predicate IsStableArgmin(available: seq<(string, string)>, inTok: int, outTok: int, budget: Option<real>, i: int) {
    && 0 <= i < |available|
    && WithinBudget(ScoreOf(available[i], inTok, outTok).cost, budget)
    && (forall j :: 0 <= j < |available| && WithinBudget(ScoreOf(available[j], inTok, outTok).cost, budget) ==>
          ScoreOf(available[i], inTok, outTok).adjusted <= ScoreOf(available[j], inTok, outTok).adjusted)
    && (forall j :: 0 <= j < i && WithinBudget(ScoreOf(available[j], inTok, outTok).cost, budget) ==>
          ScoreOf(available[j], inTok, outTok).adjusted > ScoreOf(available[i], inTok, outTok).adjusted)
  }

  /** Candidate `i` is within budget, of least adjusted cost among those within budget, and
      the earliest of them on a tie. */
  predicate StableArgminOf(cands: seq<Score>, budget: Option<real>, i: int) {
    && 0 <= i < |cands|
    && WithinBudget(cands[i].cost, budget)
    && (forall j :: 0 <= j < |cands| && WithinBudget(cands[j].cost, budget) ==> cands[i].adjusted <= cands[j].adjusted)
    && (forall j :: 0 <= j < i && WithinBudget(cands[j].cost, budget) ==> cands[j].adjusted > cands[i].adjusted)
  }

  /** Filtering by budget and then taking the first minimum picks the stable arg-min of the
      candidates within budget. */
  lemma FirstKeptMinimum(cands: seq<Score>, budget: Option<real>)
    requires KeepWithin(cands, budget) != []
    ensures var scores := KeepWithin(cands, budget);
      exists i :: StableArgminOf(cands, budget, i) && scores[FirstMinIndex(scores)] == cands[i]
  {
    var scores := KeepWithin(cands, budget);
    var src := Sources(cands, budget);
    SourcesSound(cands, budget);
    SourcesSorted(cands, budget);
    var k := FirstMinIndex(scores);
    var i := src[k];
    assert scores[k] == cands[i];
    forall j | 0 <= j < |cands| && WithinBudget(cands[j].cost, budget)
      ensures cands[i].adjusted <= cands[j].adjusted
      ensures j < i ==> cands[j].adjusted > cands[i].adjusted
    {
      SourcesComplete(cands, budget, j);
      var k' :| 0 <= k' < |src| && src[k'] == j;
      assert scores[k'] == cands[j];
      assert scores[k].adjusted <= scores[k'].adjusted;
      if j < i {
        assert k' != k;
        assert !(k < k');
        assert scores[k'].adjusted > scores[k].adjusted;
      }
    }
    assert StableArgminOf(cands, budget, i);
  }

  /** On the cost path the decision is the stable arg-min of cost plus latency bonus over the
      pairs within budget; it reports the winner's unadjusted cost and `target` as reason. */
  lemma DecideIsStableArgmin(text: string, available: seq<(string, string)>, target: string,
                             outTokens: int, sensitive: bool, budget: Option<real>)
    requires !SensitiveApplies(available, sensitive)
    requires Decide(text, available, target, outTokens, sensitive, budget) != StubDecision
    ensures exists i :: (&& IsStableArgmin(available, EstimateTokens(text), outTokens, budget, i)
                         && Decide(text, available, target, outTokens, sensitive, budget)
                            == Decision(available[i].0, Some(available[i].1), target,
                                        CandidateCost(available[i].0, available[i].1, EstimateTokens(text), outTokens)))
  {
    var inTok := EstimateTokens(text);
    var cands := Candidates(available, inTok, outTokens);
    var scores := KeepWithin(cands, budget);
    FirstKeptMinimum(cands, budget);
    var i :| StableArgminOf(cands, budget, i) && scores[FirstMinIndex(scores)] == cands[i];
    assert forall j :: 0 <= j < |available| ==> cands[j] == ScoreOf(available[j], inTok, outTokens);
    assert IsStableArgmin(available, inTok, outTokens, budget, i);
  }

  /** A budget of zero always falls back to `stub` unless the sensitivity override applies:
      with at least one input token and a non-negative output budget every cost is positive. */
  lemma ZeroBudgetMeansStub(text: string, available: seq<(string, string)>, target: string,
                            outTokens: int, sensitive: bool)
    requires outTokens >= 0
    requires !SensitiveApplies(available, sensitive)
    ensures Decide(text, available, target, outTokens, sensitive, Some(0.0)) == StubDecision
  {
    var inTok := EstimateTokens(text);
    forall j | 0 <= j < |available|
      ensures CandidateCost(available[j].0, available[j].1, inTok, outTokens) > 0.0
    {
    }
    StubIffNothingWithinBudget(text, available, target, outTokens, sensitive, Some(0.0));
  }

  /** Fifty words routed between `gpt-4o-mini` and `deepseek-chat` with no budget: 65 input
      and 120 output tokens cost 0.000327 USD at OpenAI (0.000297 after its latency bonus)
      and 0.00014955 USD at DeepSeek, which wins. */
  lemma FiftyWordsGoToDeepSeek(text: string)
    requires WordCount(text) == 50
    ensures Decide(text, [("openai", "gpt-4o-mini"), ("deepseek", "deepseek-chat")])
         == Decision("deepseek", Some("deepseek-chat"), "cheapest", 0.00014955)
  {
    var available := [("openai", "gpt-4o-mini"), ("deepseek", "deepseek-chat")];
    assert EstimateTokens(text) == 65;
    OpenAIExampleCost();
    DeepSeekExampleCost();
    var cands := Candidates(available, 65, 120);
    assert cands[0] == Score(0.000297, "openai", "gpt-4o-mini", 0.000327);
    assert cands[1] == Score(0.00014955, "deepseek", "deepseek-chat", 0.00014955);
    assert KeepWithin(cands, None) == cands by {
      assert cands[..1][..0] == [];
      assert KeepWithin(cands[..1], None) == [cands[0]];
      assert cands[..2 - 1] == cands[..1];
    }
    assert FirstMinIndex(cands) == 1;
  }

  lemma OpenAIExampleCost()
    ensures CandidateCost("openai", "gpt-4o-mini", 65, 120) == 0.000327
  {
    assert Lower("openai") == "openai";
    assert Lower("gpt-4o-mini") == "gpt-4o-mini";
    assert OccursAt("gpt-4o-mini", "gpt-4o-mini", 0);
    assert FirstMatchIndex(OpenAIPrices, "gpt-4o-mini") == Some(0);
    assert PriceFor("openai", Some("gpt-4o-mini")) == Some(GptFourOMini);
  }

  lemma DeepSeekExampleCost()
    ensures CandidateCost("deepseek", "deepseek-chat", 65, 120) == 0.00014955
  {
    assert Lower("deepseek") == "deepseek";
    assert Lower("deepseek-chat") == "deepseek-chat";
    assert OccursAt("deepseek-chat", "deepseek-chat", 0);
    assert FirstMatchIndex(DeepSeekPrices, "deepseek-chat") == Some(0);
    assert PriceFor("deepseek", Some("deepseek-chat")) == Some(Price(0.27 / PerMillion, 1.10 / PerMillion));
  }

  /** The scoring loop of `choose_provider`: each available pair is priced (unpriced pairs at
      the sentinel), dropped when over budget, and otherwise appended with its latency
      bonus. */
  method ScoreCandidates(available: seq<(string, string)>, inTok: int, outTokens: int, budget: Option<real>)
    returns (scores: seq<Score>)
    ensures scores == Scores(available, inTok, outTokens, budget)
  {
    ghost var cands := Candidates(available, inTok, outTokens);
    scores := [];
    for i := 0 to |available|
      invariant scores == KeepWithin(cands[..i], budget)
    {
      KeepWithinStep(cands, i, budget);
      assert cands[i] == ScoreOf(available[i], inTok, outTokens);
      var (prov, model) := available[i];
      var cost := CandidateCost(prov, model, inTok, outTokens);
      if budget.Some? && cost > budget.value {
        continue;
      }
      var latBonus := 0.0;
      if prov == "openai" { latBonus := -0.00003; }
      if prov == "anthropic" { latBonus := -0.00002; }
      scores := scores + [Score(cost + latBonus, prov, model, cost)];
    }
    assert cands[..|available|] == cands;
  }

  /** One more iteration of the scoring loop appends candidate `i` when it is within budget. */
  lemma KeepWithinStep(cands: seq<Score>, i: nat, budget: Option<real>)
    requires i < |cands|
    ensures KeepWithin(cands[..i + 1], budget)
         == KeepWithin(cands[..i], budget) + (if WithinBudget(cands[i].cost, budget) then [cands[i]] else [])
  {
    assert cands[..i + 1][..i] == cands[..i];
  }

  /** `scores.sort(key=lambda x: x[0])` followed by `scores[0]`: Python's sort is stable, so
      the entry it puts first is the first one of minimal adjusted cost. */
  method FirstMinimum(scores: seq<Score>) returns (best: nat)
    requires scores != []
    ensures best == FirstMinIndex(scores)
  {
    best := 0;
    for i := 1 to |scores|
      invariant 0 <= best < i
      invariant forall j :: 0 <= j < i ==> scores[best].adjusted <= scores[j].adjusted
      invariant forall j :: 0 <= j < best ==> scores[j].adjusted > scores[best].adjusted
    {
      if scores[i].adjusted < scores[best].adjusted {
        best := i;
      }
    }
    FirstMinUnique(scores, best, FirstMinIndex(scores));
  }

  /** `choose_provider(text, available, target=…, expected_out_tokens=…, sensitive=…,
      budget_per_call_usd=…)`. */
  method ChooseProvider(text: string, available: seq<(string, string)>, target: string := "cheapest",
                        outTokens: int := 120, sensitive: bool := false, budget: Option<real> := None)
    returns (d: Decision)
    ensures d == Decide(text, available, target, outTokens, sensitive, budget)
  {
    if sensitive {
      for i := 0 to |available|
        invariant forall k :: 0 <= k < i ==> available[k].0 != "anthropic"
      {
        var (prov, model) := available[i];
        if prov == "anthropic" {
          var inTok := EstimateTokens(text);
          var cost := EstimateCost(prov, Some(model), inTok, outTokens);
          assert FindProvider(available, "anthropic") == Some(i);
          return Decision(prov, Some(model), "sensitive->anthropic", cost.GetOr(0.0));
        }
      }
    }
    var inTok := EstimateTokens(text);
    var scores := ScoreCandidates(available, inTok, outTokens, budget);
    if scores == [] {
      return StubDecision;
    }
    var best := FirstMinimum(scores);
    d := Decision(scores[best].provider, Some(scores[best].model), target, scores[best].cost);
  }
}
