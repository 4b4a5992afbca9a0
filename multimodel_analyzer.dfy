/** The orchestrator's routing stub: the key-status map captured at construction and the
    envelope of `analyze_with_routing`, which lists the configured keys and calls nothing. */
module MultiModel {
  import opened Base

  /** The key-status map captured by `__init__`, as an ordered list of pairs. */
  datatype MultiModelAnalyzer = MultiModelAnalyzer(keys: seq<(string, string)>)

  /** `MultiModelAnalyzer()`: `env_keys_status()` of the environment after `.env` is loaded. */
  function NewMultiModelAnalyzer(env: Env): (a: MultiModelAnalyzer)
    ensures |a.keys| == |KeyNames|
    ensures forall i :: 0 <= i < |a.keys| ==> a.keys[i].0 == KeyNames[i]
    ensures forall i :: 0 <= i < |a.keys| ==> (a.keys[i].1 == "set" <==> KeyNames[i] in env && env[KeyNames[i]] != "")
  {
    MultiModelAnalyzer(EnvKeysStatus(env))
  }

  /** `[k for k, v in keys.items() if v == "set"]`. */
  function AvailableProviders(keys: seq<(string, string)>): (r: seq<string>)
    ensures |r| <= |keys|
    ensures forall x :: x in r <==> exists k :: 0 <= k < |keys| && keys[k] == (x, "set")
  {
    if keys == [] then []
    else (if keys[0].1 == "set" then [keys[0].0] else []) + AvailableProviders(keys[1..])
  }

  /** The filter keeps the map's order: filtering a concatenation concatenates the filtered
      parts. */
  lemma {:induction false} AvailableProvidersAppend(a: seq<(string, string)>, b: seq<(string, string)>)
    ensures AvailableProviders(a + b) == AvailableProviders(a) + AvailableProviders(b)
    decreases |a|
  {
    if a == [] {
      assert a + b == b;
    } else {
      var head: seq<string> := if a[0].1 == "set" then [a[0].0] else [];
      assert (a + b)[0] == a[0] && (a + b)[1..] == a[1..] + b;
      assert AvailableProviders(a + b) == head + AvailableProviders(a[1..] + b);
      AvailableProvidersAppend(a[1..], b);
      assert AvailableProviders(a) == head + AvailableProviders(a[1..]);
    }
  }

  /** For a map built from the environment, a key name is available exactly when its
      variable is defined and non-empty. */
  lemma AvailableFromEnv(env: Env, x: string)
    ensures x in AvailableProviders(NewMultiModelAnalyzer(env).keys) <==> x in KeyNames && x in env && env[x] != ""
  {
    var keys := NewMultiModelAnalyzer(env).keys;
    if x in KeyNames && x in env && env[x] != "" {
      var i :| 0 <= i < |KeyNames| && KeyNames[i] == x;
      assert keys[i] == (x, "set");
    }
  }

  const StubResult: string := "stub-only (sin llamadas a modelos a\U{FA}n)"

  /** The dict `analyze_with_routing` returns. */
  datatype RoutingInfo = RoutingInfo(ok: bool, taskType: string, query: string,
                                     availableProviders: seq<string>,
                                     keysStatus: seq<(string, string)>, result: string)

  /** `analyze_with_routing(query, task_type="news")`: always `ok`, echoes its arguments and
      the captured map, lists the available keys and returns the stub result. */
  function AnalyzeWithRouting(a: MultiModelAnalyzer, query: string, taskType: string := "news"): (r: RoutingInfo)
    ensures r.ok && r.result == StubResult
    ensures r.query == query && r.taskType == taskType
    ensures r.keysStatus == a.keys
    ensures forall x :: x in r.availableProviders <==> (x, "set") in a.keys
    ensures forall x :: x in r.availableProviders ==> exists k :: 0 <= k < |a.keys| && a.keys[k].0 == x
  {
    RoutingInfo(true, taskType, query, AvailableProviders(a.keys), a.keys, StubResult)
  }
}
