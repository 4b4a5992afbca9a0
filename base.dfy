/** The process environment as the adapters and the orchestrator read it, and
    `env_keys_status`, the report of which provider keys are configured. */
module Base {
  import opened Wrappers

  /** The environment variables, by name. */
  type Env = map<string, string>

  /** `os.getenv(name)`. */
  function GetEnv(env: Env, name: string): Option<string> {
    if name in env then Some(env[name]) else None
  }

  /** `os.getenv(name, default)`: a variable set to the empty string is returned as is. */
  function GetEnvOr(env: Env, name: string, default: string): string {
    if name in env then env[name] else default
  }

  /** Python truthiness of an optional string: defined and non-empty. */
  predicate Truthy(s: Option<string>) {
    s.Some? && s.value != ""
  }

  const KeyNames: seq<string> := ["OPENAI_API_KEY", "ANTHROPIC_API_KEY", "DEEPSEEK_API_KEY"]

  /** `env_keys_status()`: for each key name, in order, "set" when the variable is defined and
      non-empty and "missing" otherwise. The dict is an ordered list of pairs. */
  function EnvKeysStatus(env: Env): (r: seq<(string, string)>)
    ensures |r| == |KeyNames| && forall i :: 0 <= i < |r| ==> r[i].0 == KeyNames[i]
    ensures forall i :: 0 <= i < |r| ==> r[i].1 == "set" || r[i].1 == "missing"
    ensures forall i :: 0 <= i < |r| ==> (r[i].1 == "set" <==> KeyNames[i] in env && env[KeyNames[i]] != "")
  {
    seq(|KeyNames|, i requires 0 <= i < |KeyNames| => (KeyNames[i], if Truthy(GetEnv(env, KeyNames[i])) then "set" else "missing"))
  }

  /** The report reads nothing but the three key variables. */
  lemma EnvKeysStatusReadsOnlyKeys(env1: Env, env2: Env)
    requires forall i :: 0 <= i < |KeyNames| ==> GetEnv(env1, KeyNames[i]) == GetEnv(env2, KeyNames[i])
    ensures EnvKeysStatus(env1) == EnvKeysStatus(env2)
  {
  }

  /** The report's key names are distinct, as the keys of a dict are. */
  lemma EnvKeysStatusDistinct(env: Env)
    ensures var r := EnvKeysStatus(env);
      forall i, j :: 0 <= i < j < |r| ==> r[i].0 != r[j].0
  {
  }
}
