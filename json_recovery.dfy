/** The tolerant JSON parse both provider adapters apply to a reply: the whole text as JSON,
    else the span that `re.search(r"\{.*\}", text, re.S)` matches. `json.loads` itself is
    taken as given: the model receives it as a function. */
module JsonRecovery {
  import opened Wrappers
  import opened Builtins

  /** A decoded JSON value. */
  datatype Json =
    | JNull
    | JBool(b: bool)
    | JNumber(n: real)
    | JString(s: string)
    | JArray(items: seq<Json>)
    | JObject(members: seq<(string, Json)>)

  /** Position of the first `c` in `s`. */
  function FirstIndexOf(s: string, c: char): (r: Option<nat>)
    ensures r.Some? ==> r.value < |s| && s[r.value] == c && forall k :: 0 <= k < r.value ==> s[k] != c
    ensures r.None? ==> forall k :: 0 <= k < |s| ==> s[k] != c
  {
    if s == [] then None
    else if s[0] == c then Some(0)
    else match FirstIndexOf(s[1..], c)
      case None => None
      case Some(i) => Some(i + 1)
  }

  /** Position of the last `c` in `s`. */
  function LastIndexOf(s: string, c: char): (r: Option<nat>)
    ensures r.Some? ==> r.value < |s| && s[r.value] == c && forall k :: r.value < k < |s| ==> s[k] != c
    ensures r.None? ==> forall k :: 0 <= k < |s| ==> s[k] != c
  {
    if s == [] then None
    else if s[|s| - 1] == c then Some(|s| - 1)
    else LastIndexOf(s[..|s| - 1], c)
  }

  /** Whether `text` has a `{` somewhere before a `}`. */
  predicate HasBracePair(text: string) {
    exists i, j :: 0 <= i < j < |text| && text[i] == '{' && text[j] == '}'
  }

  /** The bounds `[lo, hi)` of the match of `\{.*\}` with DOTALL: the leftmost `{` that has a
      `}` after it, extended greedily to the last `}`. */
  function BraceBounds(text: string): (r: Option<(nat, nat)>)
    ensures r.Some? ==> var (lo, hi) := r.value;
      && lo + 1 < hi <= |text| && text[lo] == '{' && text[hi - 1] == '}'
      && (forall k :: 0 <= k < lo ==> text[k] != '{')
      && (forall k :: hi <= k < |text| ==> text[k] != '}')
    ensures r.Some? <==> HasBracePair(text)
  {
    match (FirstIndexOf(text, '{'), LastIndexOf(text, '}'))
    case (Some(lo), Some(last)) =>
      if lo < last then Some((lo, last + 1)) else None
    case _ => None
  }

  /** `m.group(0)` when the search matches. */
  function BraceSpan(text: string): (r: Option<string>)
    ensures r.Some? <==> HasBracePair(text)
    ensures r.Some? ==> |r.value| >= 2 && r.value[0] == '{' && r.value[|r.value| - 1] == '}' && Contains(text, r.value)
  {
    var b := BraceBounds(text);
    if b.None? then None
    else
      var lo, hi := b.value.0, b.value.1;
      ContainsSlice(text, lo, hi);
      Some(text[lo..hi])
  }

  /** Prose that opens no brace before an object and closes none after it leaves the
      object as the matched span. */
  lemma BraceSpanOfEmbedded(prefix: string, obj: string, suffix: string)
    requires |obj| >= 2 && obj[0] == '{' && obj[|obj| - 1] == '}'
    requires forall k :: 0 <= k < |prefix| ==> prefix[k] != '{'
    requires forall k :: 0 <= k < |suffix| ==> suffix[k] != '}'
    ensures BraceSpan(prefix + obj + suffix) == Some(obj)
  {
    var text := prefix + obj + suffix;
    var lo, hi := |prefix|, |prefix| + |obj|;
    assert text[lo] == '{' && text[hi - 1] == '}';
    assert HasBracePair(text);
    forall k | 0 <= k < lo
      ensures text[k] != '{'
    {
      assert text[k] == prefix[k];
    }
    forall k | hi <= k < |text|
      ensures text[k] != '}'
    {
      assert text[k] == suffix[k - hi];
    }
    assert BraceBounds(text) == Some((lo, hi));
    assert text[lo..hi] == obj;
  }

  /** The `parsed` value of a reply, or the exception that the second `json.loads` raised:
      the whole text when it is valid JSON; otherwise the brace span, when there is one
      (its parse error propagates); otherwise nothing. */
  function Recover(text: string, loads: string -> Result<Json, PyError>): (r: Result<Option<Json>, PyError>)
    ensures r == Success(None) <==> loads(text).Failure? && !HasBracePair(text)
    ensures r.Failure? ==> loads(text).Failure? && BraceSpan(text).Some? && loads(BraceSpan(text).value) == Failure(r.error)
    ensures r.Success? && r.value.Some? ==>
      || loads(text) == Success(r.value.value)
      || (loads(text).Failure? && BraceSpan(text).Some? && loads(BraceSpan(text).value) == Success(r.value.value))
  {
    match loads(text)
    case Success(j) => Success(Some(j))
    case Failure(_) =>
      match BraceSpan(text)
      case None => Success(None)
      case Some(span) =>
        match loads(span)
        case Success(j) => Success(Some(j))
        case Failure(e) => Failure(e)
  }

  /** Round trip: a reply that is exactly a JSON document yields that document, and so does
      the same object wrapped in prose that adds no braces around it. */
  lemma RecoverWholeOrEmbedded(prefix: string, obj: string, suffix: string, j: Json,
                               loads: string -> Result<Json, PyError>)
    requires loads(obj) == Success(j)
    requires prefix == suffix == "" || (
      && |obj| >= 2 && obj[0] == '{' && obj[|obj| - 1] == '}'
      && (forall k :: 0 <= k < |prefix| ==> prefix[k] != '{')
      && (forall k :: 0 <= k < |suffix| ==> suffix[k] != '}')
      && loads(prefix + obj + suffix).Failure?)
    ensures Recover(prefix + obj + suffix, loads) == Success(Some(j))
  {
    if prefix == suffix == "" {
      assert prefix + obj + suffix == obj;
    } else {
      BraceSpanOfEmbedded(prefix, obj, suffix);
    }
  }
}
