/** The rule-based sentiment of `FinancialNewsAnalyzer.analyze_sentiment`: how many of the
    positive keywords occur in the lower-cased text, minus how many of the negative ones do,
    turned into a label and returned with the routing stub's envelope. */
module NewsAnalyzer {
  import opened Builtins
  import opened Base
  import opened MultiModel

  const PositiveWords: seq<string> := ["beat", "beats", "growth", "record", "surge", "bullish", "upgrade", "profit"]
  const NegativeWords: seq<string> := ["miss", "misses", "downgrade", "loss", "decline", "bearish", "probe", "fraud"]

  /** `sum(w in t for w in words)`: the number of words that occur in `t`, each counted once
      however often it occurs. */
  function Hits(words: seq<string>, t: string): (r: nat)
    ensures r <= |words|
  {
    if words == [] then 0 else (if Contains(t, words[0]) then 1 else 0) + Hits(words[1..], t)
  }

  /** No hit at all exactly when no word occurs; every word present at all. */
  lemma {:induction false} HitsZeroIff(words: seq<string>, t: string)
    ensures Hits(words, t) == 0 <==> forall k :: 0 <= k < |words| ==> !Contains(t, words[k])
    ensures Hits(words, t) == |words| <==> forall k :: 0 <= k < |words| ==> Contains(t, words[k])
  {
    if words != [] {
      HitsZeroIff(words[1..], t);
      assert forall k :: 1 <= k < |words| ==> words[k] == words[1..][k - 1];
    }
  }

  /** A text that contains another hits at least the same words. */
  lemma {:induction false} HitsMonotone(words: seq<string>, small: string, large: string)
    requires Contains(large, small)
    ensures Hits(words, small) <= Hits(words, large)
  {
    if words != [] {
      if Contains(small, words[0]) {
        ContainsTransitive(large, small, words[0]);
      }
      HitsMonotone(words[1..], small, large);
    }
  }

  /** `score`: positive hits minus negative hits in the lower-cased text. */
  function RuleScore(text: string): (score: int)
    ensures -|NegativeWords| <= score <= |PositiveWords|
    ensures score == Hits(PositiveWords, Lower(text)) - Hits(NegativeWords, Lower(text))
  {
    var t := Lower(text);
    Hits(PositiveWords, t) - Hits(NegativeWords, t)
  }

  /** The score lies in [-8, 8]. */
  lemma RuleScoreBounds(text: string)
    ensures -8 <= RuleScore(text) <= 8
  {
  }

  /** Scoring ignores letter case: a text and its lower-cased form score the same. */
  lemma RuleScoreIgnoresCase(text: string)
    ensures RuleScore(Lower(text)) == RuleScore(text)
  {
    LowerIdempotent(text);
  }

  /** The label: "bullish" for a positive score, "bearish" for a negative one, "neutral"
      otherwise. */
  function Label(score: int): (sentiment: string)
    ensures sentiment == "bullish" <==> score > 0
    ensures sentiment == "bearish" <==> score < 0
    ensures sentiment == "neutral" <==> score == 0
  {
    if score > 0 then "bullish" else if score < 0 then "bearish" else "neutral"
  }

  /** "beats" contains "beat", so a text with "beats" scores both: at least two positive hits. */
  lemma BeatsCountsTwice(text: string)
    requires Contains(Lower(text), "beats")
    ensures Hits(PositiveWords, Lower(text)) >= 2
  {
    var t := Lower(text);
    assert OccursAt("beats", "beat", 0);
    ContainsTransitive(t, "beats", "beat");
    assert Contains(t, PositiveWords[0]) && Contains(t, PositiveWords[1]);
  }

  /** Likewise "misses" contains "miss": at least two negative hits. */
  lemma MissesCountsTwice(text: string)
    requires Contains(Lower(text), "misses")
    ensures Hits(NegativeWords, Lower(text)) >= 2
  {
    var t := Lower(text);
    assert OccursAt("misses", "miss", 0);
    ContainsTransitive(t, "misses", "miss");
    assert Contains(t, NegativeWords[0]) && Contains(t, NegativeWords[1]);
  }

  /** An occurrence of a word without spaces in `a + " " + b` lies within `a` or within `b`. */
  lemma ContainsAcrossSpace(a: string, b: string, w: string)
    requires forall k :: 0 <= k < |w| ==> w[k] != ' '
    requires Contains(a + " " + b, w)
    ensures Contains(a, w) || Contains(b, w)
  {
    var s := a + " " + b;
    var i :| 0 <= i <= |s| && OccursAt(s, w, i);
    if i + |w| <= |a| {
      assert s[i..i + |w|] == a[i..i + |w|];
      assert OccursAt(a, w, i);
    } else {
      assert forall k :: 0 <= k < |w| ==> s[i + k] == w[k] by {
        forall k | 0 <= k < |w| ensures s[i + k] == w[k] {
          assert s[i..i + |w|][k] == w[k];
        }
      }
      assert s[|a|] == ' ';
      assert i > |a|;
      var j := i - |a| - 1;
      assert s[i..i + |w|] == b[j..j + |w|];
      assert OccursAt(b, w, j);
    }
  }

  /** Repeating a keyword does not raise the score: a text repeated after a space hits the
      same keywords as the text itself. */
  lemma {:induction false} HitsOfRepeat(words: seq<string>, t: string)
    requires forall i, k :: 0 <= i < |words| && 0 <= k < |words[i]| ==> words[i][k] != ' '
    ensures Hits(words, t + " " + t) == Hits(words, t)
  {
    if words != [] {
      var w := words[0];
      var tt := t + " " + t;
      if Contains(t, w) {
        var i :| 0 <= i <= |t| && OccursAt(t, w, i);
        assert tt[i..i + |w|] == t[i..i + |w|];
        assert OccursAt(tt, w, i);
      } else if Contains(tt, w) {
        ContainsAcrossSpace(t, t, w);
      }
      HitsOfRepeat(words[1..], t);
    }
  }

  lemma LowerRepeat(text: string)
    ensures Lower(text + " " + text) == Lower(text) + " " + Lower(text)
  {
  }

  /** A headline repeated after a space scores what the headline alone scores. */
  lemma RuleScoreOfRepeat(text: string)
    ensures RuleScore(text + " " + text) == RuleScore(text)
  {
    LowerRepeat(text);
    HitsOfRepeat(PositiveWords, Lower(text));
    HitsOfRepeat(NegativeWords, Lower(text));
  }

  /** The analyser holds the routing stub built at construction. */
  datatype FinancialNewsAnalyzer = FinancialNewsAnalyzer(mm: MultiModelAnalyzer)

  function NewFinancialNewsAnalyzer(env: Env): (a: FinancialNewsAnalyzer)
    ensures a.mm == NewMultiModelAnalyzer(env)
  {
    FinancialNewsAnalyzer(NewMultiModelAnalyzer(env))
  }

  /** The dict `analyze_sentiment` returns. */
  datatype SentimentResult = SentimentResult(sentiment: string, ruleBasedScore: int, routedInfo: RoutingInfo)

  /** `analyze_sentiment(text)`: the label of the rule score, the score itself, and the routing
      envelope for the original (not lower-cased) text with task type "news". */
  function AnalyzeSentiment(a: FinancialNewsAnalyzer, text: string): (r: SentimentResult)
    ensures r.ruleBasedScore == RuleScore(text)
    ensures r.sentiment == "bullish" <==> r.ruleBasedScore > 0
    ensures r.sentiment == "bearish" <==> r.ruleBasedScore < 0
    ensures r.sentiment == "neutral" <==> r.ruleBasedScore == 0
    ensures r.routedInfo.query == text && r.routedInfo.taskType == "news"
    ensures r.routedInfo == AnalyzeWithRouting(a.mm, text, "news")
  {
    var score := RuleScore(text);
    SentimentResult(Label(score), score, AnalyzeWithRouting(a.mm, text, "news"))
  }

  /** A text naming "beats" and no negative keyword reads as bullish. */
  lemma BeatsAloneIsBullish(a: FinancialNewsAnalyzer, text: string)
    requires Contains(Lower(text), "beats")
    requires forall k :: 0 <= k < |NegativeWords| ==> !Contains(Lower(text), NegativeWords[k])
    ensures AnalyzeSentiment(a, text).sentiment == "bullish"
    ensures AnalyzeSentiment(a, text).ruleBasedScore >= 2
  {
    BeatsCountsTwice(text);
    HitsZeroIff(NegativeWords, Lower(text));
  }
}
