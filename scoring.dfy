/**
 Scoring (`check_prediction`): extract and normalize both sides, take the
 early exits for empty payloads and empty tool lists, and otherwise return
 (matched calls + edge rules passed) / (expected calls + number of rules).
 */
module Scoring {
  import opened Wrappers
  import opened Json
  import opened Extraction
  import opened Normalization
  import opened Matching
  import opened Ordering

  /**
   A score as the fraction `passed / total`; `check_prediction` returns its
   value as a float, here as an exact real.
   */
  datatype Score = Score(passed: nat, total: nat) {

    /** The fraction lies in [0, 1]. */
    predicate Valid() {
      0 < total && passed <= total
    }

    /** `passed / total`. */
    function Value(): (r: real)
      requires Valid()
      ensures 0.0 <= r <= 1.0
      ensures r == 1.0 <==> passed == total
      ensures r == 0.0 <==> passed == 0
    {
      passed as real / total as real
    }
  }

  /** The early return `0.0`. */
  const Zero := Score(0, 1)

  /** The early return `1.0`. */
  const Full := Score(1, 1)

  /** The score of two normalized tool lists, after the payload checks. */
  function ScoreTools(predTools: seq<ToolCall>, expTools: seq<ToolCall>): (s: Score)
    ensures s.Valid()
  {
    if expTools == [] then Full
    else if predTools == [] then Zero
    else Score(Matched(predTools, expTools) + EdgesPassed(predTools, EdgeRules), |expTools| + |EdgeRules|)
  }

  /** The score of two extracted payloads: an empty payload on either side scores zero. */
  function ScorePayloads(predJson: map<string, Value>, expJson: map<string, Value>): (s: Score)
    ensures s.Valid()
  {
    if predJson == map[] || expJson == map[] then Zero
    else ScoreTools(ToolList(predJson), ToolList(expJson))
  }

  /** The score `check_prediction` returns. */
  function ScoreOf(pred: Value, expected: Value, parse: Parser): (s: Score)
    ensures s.Valid()
  {
    ScorePayloads(ExtractToolPayload(pred, parse), ExtractToolPayload(expected, parse))
  }

  /**
   The edge-rule loop of `check_prediction`: for each rule, the first index
   of each pattern, and one point when both exist in the right order.
   */
  method CountPassedEdges(predTools: seq<ToolCall>, rules: seq<EdgeRule>) returns (passed: nat)
    ensures passed == EdgesPassed(predTools, rules)
  {
    passed := 0;
    var k := 0;
    while k < |rules|
      invariant 0 <= k <= |rules|
      invariant passed == EdgesPassed(predTools, rules[..k])
    {
      var rule := rules[k];
      var fromI := FirstIndex(predTools, rule.from);
      var toI := FirstIndex(predTools, rule.to);
      assert rules[..k + 1][..k] == rules[..k] && rules[..k + 1][k] == rule;
      if fromI.Some? && toI.Some? && fromI.value < toI.value {
        assert RuleHolds(predTools, rule);
        passed := passed + 1;
      } else {
        assert !RuleHolds(predTools, rule);
      }
      k := k + 1;
    }
    assert rules[..k] == rules;
  }

  /** `check_prediction`: the matching count, then one point per edge rule that holds. */
  method CheckPrediction(pred: Value, expected: Value, parse: Parser) returns (score: real)
    ensures score == ScoreOf(pred, expected, parse).Value()
    ensures 0.0 <= score <= 1.0
  {
    var predJson := ExtractToolPayload(pred, parse);
    var expJson := ExtractToolPayload(expected, parse);
    if predJson == map[] || expJson == map[] {
      return 0.0;
    }
    var predTools := AsToolList(predJson);
    var expTools := AsToolList(expJson);
    if expTools == [] {
      return 1.0;
    }
    if predTools == [] {
      return 0.0;
    }
    var passed := CountMatchingToolCalls(predTools, expTools);
    var totalTests := |expTools|;
    totalTests := totalTests + |EdgeRules|;
    var edges := CountPassedEdges(predTools, EdgeRules);
    passed := passed + edges;
    return Score(passed, totalTests).Value();
  }

  // ---------------------------------------------------------------------
  // Properties of the score
  // ---------------------------------------------------------------------

  /** An ungradable prediction or expectation (empty payload) scores zero. */
  lemma EmptyPayloadScoresZero(pred: Value, expected: Value, parse: Parser)
    requires ExtractToolPayload(pred, parse) == map[] || ExtractToolPayload(expected, parse) == map[]
    ensures ScoreOf(pred, expected, parse).Value() == 0.0
  {
  }

  /** An expectation with no well-formed calls is met by any prediction that has a payload. */
  lemma EmptyExpectedScoresOne(predJson: map<string, Value>, expJson: map<string, Value>)
    requires predJson != map[] && expJson != map[]
    requires ToolList(expJson) == []
    ensures ScorePayloads(predJson, expJson).Value() == 1.0
  {
  }

  /** A prediction with no well-formed calls against a non-empty expectation scores zero. */
  lemma EmptyPredictedScoresZero(predJson: map<string, Value>, expJson: map<string, Value>)
    requires expJson != map[] && ToolList(expJson) != []
    requires ToolList(predJson) == []
    ensures ScorePayloads(predJson, expJson).Value() == 0.0
  {
  }

  /**
   On the graded path (both tool lists non-empty) the score is full exactly
   when every expected call is matched and every edge rule holds, and zero
   exactly when nothing is matched and no rule holds.
   */
  lemma GradedScore(predTools: seq<ToolCall>, expTools: seq<ToolCall>)
    requires predTools != [] && expTools != []
    ensures ScoreTools(predTools, expTools).total == |expTools| + 4
    ensures ScoreTools(predTools, expTools).Value() == 1.0 <==>
              Matched(predTools, expTools) == |expTools| && forall r :: r in EdgeRules ==> RuleHolds(predTools, r)
    ensures ScoreTools(predTools, expTools).Value() == 0.0 <==>
              Matched(predTools, expTools) == 0 && forall r :: r in EdgeRules ==> !RuleHolds(predTools, r)
  {
    EdgesPassedAll(predTools, EdgeRules);
    EdgesPassedNone(predTools, EdgeRules);
  }

  /**
   An expectation scored against itself is full exactly when its own
   trajectory satisfies all four edge rules: matching alone is always full.
   */
  lemma SelfScore(expected: Value, parse: Parser)
    requires ExtractToolPayload(expected, parse) != map[]
    requires ToolList(ExtractToolPayload(expected, parse)) != []
    ensures ScoreOf(expected, expected, parse).Value() == 1.0 <==>
              forall r :: r in EdgeRules ==> RuleHolds(ToolList(ExtractToolPayload(expected, parse)), r)
  {
    var e := ToolList(ExtractToolPayload(expected, parse));
    MatchedSelf(e);
    GradedScore(e, e);
  }

  /**
   A one-call trajectory whose tool name is no step's name scores 1/5
   against itself: one matched call out of 1 + 4 checks.
   */
  lemma SingleCallSelfScore(c: ToolCall, parse: Parser)
    requires forall i :: 0 <= i < |Steps| ==> c.name != Steps[i].name
    ensures ScoreOf(Payload([c]), Payload([c]), parse) == Score(1, 5)
  {
    PayloadTools([c], parse);
    MatchedSelf([c]);
    EdgeRulesChainSteps();
    forall r | r in EdgeRules
      ensures !RuleHolds([c], r)
    {
      var i :| 0 <= i < 4 && r == EdgeRules[i];
      assert !Matches(c, Steps[i]);
    }
    EdgesPassedNone([c], EdgeRules);
  }

  /** A dict holding a tools list scores the same wrapped under a wrapper key as unwrapped. */
  lemma WrappedScoresSame(k: string, inner: map<string, Value>, expected: Value, parse: Parser)
    requires k in WrapperKeys && HasToolList(inner)
    ensures ScoreOf(Object(map[k := Object(inner)]), expected, parse) == ScoreOf(Object(inner), expected, parse)
  {
    WrappedExtractsSame(k, inner, parse);
  }

  /**
   A code or free-form answer, with no tools list in it or under a wrapper
   key, scores zero.
   */
  lemma AnswerResponsesScoreZero(pred: Value, expected: Value, parse: Parser)
    requires pred.Object? && !HasToolList(pred.fields)
    requires forall k :: k in WrapperKeys ==> !WrapsToolList(pred.fields, k)
    requires CodeAnswer(pred) != "" || FreeformAnswer(pred) != ""
    ensures ScoreOf(pred, expected, parse).Value() == 0.0
  {
    AnswerResponsesExtractEmpty(pred, parse);
  }
}
