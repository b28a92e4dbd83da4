/**
 The fixed reference trajectory (`expected`) and the three scenarios the
 validator's own unit tests check against it.
 */
module ReferenceCase {
  import opened Wrappers
  import opened Json
  import opened Extraction
  import opened Normalization
  import opened Matching
  import opened Ordering
  import opened Scoring

  const Email: string := "danielle.johnson@investment.com"

  /** approval_lookup(action = investor_onboarding) */
  const OnboardingApproval := ToolCall("approval_lookup", map[
    "action" := Str("investor_onboarding"),
    "requester_email" := Str(Email)])

  /** create_investor */
  const CreateInvestor := ToolCall("create_investor", map[
    "legal_name" := Str("India Limited"),
    "registration_number" := Int(72212345),
    "source_of_funds" := Str("dividend_income"),
    "contact_email" := Str("india@limited.in"),
    "accreditation_status" := Str("accredited"),
    "compliance_officer_approval" := Bool(true)])

  /** create_new_audit_trail(reference_type = investor) */
  const InvestorAudit := ToolCall("create_new_audit_trail", map[
    "reference_id" := Str("176"),
    "reference_type" := Str("investor"),
    "action" := Str("create"),
    "field_name" := Str("event"),
    "old_value" := Str(""),
    "new_value" := Str("INVESTOR_ONBOARDED")])

  /** approval_lookup(action = portfolio_creation) */
  const PortfolioApproval := ToolCall("approval_lookup", map[
    "action" := Str("portfolio_creation"),
    "requester_email" := Str(Email)])

  /** transfer_to_human */
  const HandOff := ToolCall("transfer_to_human", map[
    "summary" := Str("ERROR_MISSING_REQUIRED_APPROVAL: automatic portfolio creation requires Fund Manager or "
      + "Finance Officer approval; requester danielle.johnson@investment.com is compliance_officer. "
      + "Commitment processing halted for human intervention.")])

  /** The five reference calls, in order. */
  const ExpectedCalls: seq<ToolCall> := [OnboardingApproval, CreateInvestor, InvestorAudit, PortfolioApproval, HandOff]

  /** `expected`: `{"tools": [...]}` with each call written as a name/arguments dict. */
  const Expected: Value := Payload(ExpectedCalls)

  /** The lone wrong call of the full-fail scenario. */
  const ListUsers := ToolCall("list_users", map["username" := Str("WRONG_USERNAME")])

  /** The partial scenario: the reference without `create_new_audit_trail`. */
  const PartialCalls: seq<ToolCall> := [OnboardingApproval, CreateInvestor, PortfolioApproval, HandOff]

  /** The four calls of the partial scenario are the reference without its third call. */
  lemma PartialDropsAudit()
    ensures PartialCalls == ExpectedCalls[..2] + ExpectedCalls[3..]
  {
  }

  /** The trajectory has one call per step, each matching the step at its own position. */
  predicate ReferenceShape(calls: seq<ToolCall>) {
    |calls| == |Steps| && forall i :: 0 <= i < |calls| ==> Matches(calls[i], Steps[i])
  }

  lemma ReferenceHasShape()
    ensures ReferenceShape(ExpectedCalls)
  {
  }

  /** Since no call matches two steps, such a trajectory matches the steps exactly. */
  lemma ShapeMatchesExactly(calls: seq<ToolCall>)
    requires ReferenceShape(calls)
    ensures MatchesExactly(calls, Steps)
  {
    forall i, j | 0 <= i < |calls| && 0 <= j < |Steps| && i != j
      ensures !Matches(calls[i], Steps[j])
    {
      if i < j {
        StepsExclusive(calls[i], i, j);
      } else {
        StepsExclusive(calls[i], j, i);
      }
    }
  }

  /** One point for a rule that holds. */
  function Point(tools: seq<ToolCall>, rule: EdgeRule): nat {
    if RuleHolds(tools, rule) then 1 else 0
  }

  /** The edge count of a four-rule table, rule by rule. */
  lemma EdgesPassedByRule(tools: seq<ToolCall>, rs: seq<EdgeRule>)
    requires |rs| == 4
    ensures EdgesPassed(tools, rs) ==
              Point(tools, rs[0]) + Point(tools, rs[1]) + Point(tools, rs[2]) + Point(tools, rs[3])
  {
    assert EdgesPassed(tools, rs[..1]) == Point(tools, rs[0]) by {
      assert rs[..1][..0] == [];
    }
    assert EdgesPassed(tools, rs[..2]) == EdgesPassed(tools, rs[..1]) + Point(tools, rs[1]) by {
      assert rs[..2][..1] == rs[..1];
    }
    assert EdgesPassed(tools, rs[..3]) == EdgesPassed(tools, rs[..2]) + Point(tools, rs[2]) by {
      assert rs[..3][..2] == rs[..2];
    }
    assert rs[..3] == rs[..|rs| - 1];
  }

  /** Every rule holds on a trajectory of the reference shape. */
  lemma ShapeSatisfiesRules(calls: seq<ToolCall>)
    requires ReferenceShape(calls)
    ensures forall r :: r in EdgeRules ==> RuleHolds(calls, r)
  {
    ShapeMatchesExactly(calls);
    EdgeRulesChainSteps();
    forall i | 0 <= i < 4
      ensures RuleHolds(calls, EdgeRules[i])
    {
      StepOrderHolds(calls, Steps, i, i + 1);
    }
  }

  /** Test 1 (full pass): the reference scored against itself is 1.0. */
  lemma FullPass(parse: Parser)
    ensures ScoreOf(Expected, Expected, parse).Value() == 1.0
  {
    PayloadTools(ExpectedCalls, parse);
    ReferenceHasShape();
    ShapeSatisfiesRules(ExpectedCalls);
    SelfScore(Expected, parse);
  }

  /**
   A single call whose name is no step's name, against a trajectory of the
   reference shape, matches nothing and satisfies no rule: 0 of 9.
   */
  lemma {:induction false} UnrelatedCallScoresZero(c: ToolCall, calls: seq<ToolCall>)
    requires ReferenceShape(calls)
    requires forall i :: 0 <= i < |Steps| ==> c.name != Steps[i].name
    ensures ScoreTools([c], calls) == Score(0, 9)
  {
    assert c !in calls by {
      forall i | 0 <= i < |calls|
        ensures calls[i] != c
      {
        assert calls[i].name == Steps[i].name;
      }
    }
    assert multiset([c]) * multiset(calls) == multiset{} by {
      assert forall x :: (multiset([c]) * multiset(calls))[x] == 0 by {
        assert multiset(calls)[c] == 0;
      }
    }
    MatchedIsIntersection([c], calls);
    EdgeRulesChainSteps();
    forall r | r in EdgeRules
      ensures !RuleHolds([c], r)
    {
      var i :| 0 <= i < 4 && r == EdgeRules[i];
      assert !Matches(c, Steps[i]);
    }
    EdgesPassedNone([c], EdgeRules);
  }

  /** `list_users` is none of the step names. */
  lemma ListUsersUnrelated()
    ensures forall i :: 0 <= i < |Steps| ==> ListUsers.name != Steps[i].name
  {
  }

  /** Test 2 (full fail): a lone `list_users` call scores 0 of 9. */
  lemma FullFail(parse: Parser)
    ensures ScoreOf(Payload([ListUsers]), Expected, parse) == Score(0, 9)
    ensures ScoreOf(Payload([ListUsers]), Expected, parse).Value() == 0.0
  {
    PayloadTools([ListUsers], parse);
    PayloadTools(ExpectedCalls, parse);
    ReferenceHasShape();
    ListUsersUnrelated();
    UnrelatedCallScoresZero(ListUsers, ExpectedCalls);
  }

  /** Every call but the dropped one still finds its match. */
  lemma DroppedCallMatches(calls: seq<ToolCall>, m: nat)
    requires m < |calls|
    ensures Matched(calls[..m] + calls[m + 1..], calls) == |calls| - 1
  {
    var d := RemoveAt(calls, m);
    assert multiset(d) <= multiset(calls) by {
      assert forall x :: multiset(d)[x] <= multiset(calls)[x];
    }
    MatchedSubset(d, calls);
  }

  /**
   Dropping the call at position `m` from a trajectory of the reference
   shape loses the rules that mention that step: one rule at either end of
   the chain, two in the middle.
   */
  lemma DroppedCallEdges(calls: seq<ToolCall>, m: nat)
    requires ReferenceShape(calls) && m < |calls|
    ensures EdgesPassed(calls[..m] + calls[m + 1..], EdgeRules) == if m == 0 || m == 4 then 3 else 2
  {
    var d := calls[..m] + calls[m + 1..];
    ShapeMatchesExactly(calls);
    EdgeRulesChainSteps();
    EdgesPassedByRule(d, EdgeRules);
    DroppedStep(calls, Steps, m, 0, 1);
    DroppedStep(calls, Steps, m, 1, 2);
    DroppedStep(calls, Steps, m, 2, 3);
    DroppedStep(calls, Steps, m, 3, 4);
  }

  /**
   Dropping one call from a trajectory of the reference shape keeps the
   other four matches: 7 of 9 at either end of the chain, 6 of 9 in the middle.
   */
  lemma DroppedCallScore(calls: seq<ToolCall>, m: nat)
    requires ReferenceShape(calls) && m < |calls|
    ensures ScoreTools(calls[..m] + calls[m + 1..], calls) == Score(if m == 0 || m == 4 then 7 else 6, 9)
  {
    DroppedCallMatches(calls, m);
    DroppedCallEdges(calls, m);
  }

  /**
   Test 3 (partial): without `create_new_audit_trail` the score is 6/9,
   strictly between 0 and 1.
   */
  lemma Partial(parse: Parser)
    ensures ScoreOf(Payload(PartialCalls), Expected, parse) == Score(6, 9)
    ensures 0.0 < ScoreOf(Payload(PartialCalls), Expected, parse).Value() < 1.0
  {
    PayloadTools(PartialCalls, parse);
    PayloadTools(ExpectedCalls, parse);
    ReferenceHasShape();
    PartialDropsAudit();
    DroppedCallScore(ExpectedCalls, 2);
  }
}
