/**
 Ordering validation (`_first_index` and the edge-rule table): a rule
 "from before to" holds when both patterns occur in the predicted
 trajectory and the first occurrence of `from` comes strictly before the
 first occurrence of `to`.
 */
module Ordering {
  import opened Wrappers
  import opened Json
  import opened Normalization

  /** The argument predicate `lambda a: a.get(key) == value`, for a string `value`. */
  datatype ArgCheck = ArgEquals(key: string, value: string)

  /** A call pattern: a tool name and an optional argument predicate. */
  datatype Pattern = Pattern(name: string, check: Option<ArgCheck>)

  /** A directed ordering constraint between two call patterns. */
  datatype EdgeRule = EdgeRule(from: Pattern, to: Pattern)

  /** `a.get(key) == value`: an absent key or a non-string value never equals a string. */
  predicate Satisfies(args: map<string, Value>, check: ArgCheck) {
    check.key in args && args[check.key] == Str(check.value)
  }

  /** The call has the pattern's name and, when there is one, meets its argument predicate. */
  predicate Matches(c: ToolCall, p: Pattern) {
    c.name == p.name && (p.check.None? || Satisfies(c.args, p.check.value))
  }

  /** The first index of a call matching `p`, or `None` when no call does. */
  function FirstMatch(tools: seq<ToolCall>, p: Pattern): (r: Option<nat>)
    ensures r.None? <==> forall k :: 0 <= k < |tools| ==> !Matches(tools[k], p)
    ensures r.Some? ==>
              && r.value < |tools|
              && Matches(tools[r.value], p)
              && forall k :: 0 <= k < r.value ==> !Matches(tools[k], p)
  {
    if tools == [] then None
    else if Matches(tools[0], p) then Some(0)
    else
      var r := FirstMatch(tools[1..], p);
      assert forall k :: 1 <= k < |tools| ==> tools[k] == tools[1..][k - 1];
      match r
      case Some(i) => Some(i + 1)
      case None => None
  }

  /** `_first_index`: scan left to right and return at the first match. */
  method FirstIndex(tools: seq<ToolCall>, p: Pattern) returns (r: Option<nat>)
    ensures r == FirstMatch(tools, p)
  {
    var i := 0;
    while i < |tools|
      invariant 0 <= i <= |tools|
      invariant forall k :: 0 <= k < i ==> !Matches(tools[k], p)
    {
      var tool := tools[i];
      if tool.name == p.name {
        var args := tool.args;
        if p.check.None? || (p.check.value.key in args && args[p.check.value.key] == Str(p.check.value.value)) {
          return Some(i);
        }
      }
      i := i + 1;
    }
    return None;
  }

  /** The rule adds one point: both first indices exist and `from`'s is smaller. */
  predicate RuleHolds(tools: seq<ToolCall>, rule: EdgeRule) {
    var i, j := FirstMatch(tools, rule.from), FirstMatch(tools, rule.to);
    i.Some? && j.Some? && i.value < j.value
  }

  /** The number of rules that hold. */
  function EdgesPassed(tools: seq<ToolCall>, rules: seq<EdgeRule>): (n: nat)
    ensures n <= |rules|
  {
    if rules == [] then 0
    else EdgesPassed(tools, rules[..|rules| - 1]) + (if RuleHolds(tools, rules[|rules| - 1]) then 1 else 0)
  }

  /** approval_lookup with `action == "investor_onboarding"`. */
  const OnboardingApprovalStep := Pattern("approval_lookup", Some(ArgEquals("action", "investor_onboarding")))

  /** create_investor, any arguments. */
  const CreateInvestorStep := Pattern("create_investor", None)

  /** create_new_audit_trail with `reference_type == "investor"`. */
  const InvestorAuditStep := Pattern("create_new_audit_trail", Some(ArgEquals("reference_type", "investor")))

  /** approval_lookup with `action == "portfolio_creation"`. */
  const PortfolioApprovalStep := Pattern("approval_lookup", Some(ArgEquals("action", "portfolio_creation")))

  /** transfer_to_human, any arguments. */
  const HandOffStep := Pattern("transfer_to_human", None)

  /** The five patterns the rules mention, in the order the rules chain them. */
  const Steps: seq<Pattern> := [OnboardingApprovalStep, CreateInvestorStep, InvestorAuditStep, PortfolioApprovalStep, HandOffStep]

  /** The four rules of the onboarding scenario, in the order they are checked. */
  const EdgeRules: seq<EdgeRule> := [
    EdgeRule(OnboardingApprovalStep, CreateInvestorStep),
    EdgeRule(CreateInvestorStep, InvestorAuditStep),
    EdgeRule(InvestorAuditStep, PortfolioApprovalStep),
    EdgeRule(PortfolioApprovalStep, HandOffStep)
  ]

  // ---------------------------------------------------------------------
  // Properties of ordering validation
  // ---------------------------------------------------------------------

  /**
   A rule holds exactly when some call matching `from` occurs before every
   call matching `to`, and some call matches `to`.
   */
  lemma RuleHoldsIff(tools: seq<ToolCall>, rule: EdgeRule)
    ensures RuleHolds(tools, rule) <==>
              && (exists j :: 0 <= j < |tools| && Matches(tools[j], rule.to))
              && (exists i :: 0 <= i < |tools| && Matches(tools[i], rule.from) &&
                               forall k :: 0 <= k <= i ==> !Matches(tools[k], rule.to))
  {
    var fi, ti := FirstMatch(tools, rule.from), FirstMatch(tools, rule.to);
    if (exists j :: 0 <= j < |tools| && Matches(tools[j], rule.to)) &&
       (exists i :: 0 <= i < |tools| && Matches(tools[i], rule.from) &&
                    forall k :: 0 <= k <= i ==> !Matches(tools[k], rule.to)) {
      var i :| 0 <= i < |tools| && Matches(tools[i], rule.from) &&
               forall k :: 0 <= k <= i ==> !Matches(tools[k], rule.to);
      assert fi.Some? && fi.value <= i;
      assert ti.Some? && ti.value > i;
    }
    if RuleHolds(tools, rule) {
      assert Matches(tools[ti.value], rule.to);
      assert Matches(tools[fi.value], rule.from);
    }
  }

  /**
   A rule whose `to` call occurs with no `from` call at or before it adds
   nothing: a reversed pair scores zero.
   */
  lemma ReversedRuleFails(tools: seq<ToolCall>, rule: EdgeRule, j: nat)
    requires j < |tools| && Matches(tools[j], rule.to)
    requires forall k :: 0 <= k <= j ==> !Matches(tools[k], rule.from)
    ensures !RuleHolds(tools, rule)
  {
    var fi, ti := FirstMatch(tools, rule.from), FirstMatch(tools, rule.to);
    assert ti.Some? && ti.value <= j;
  }

  /** All rules hold exactly when the count reaches the number of rules. */
  lemma {:induction false} EdgesPassedAll(tools: seq<ToolCall>, rules: seq<EdgeRule>)
    ensures EdgesPassed(tools, rules) == |rules| <==> forall r :: r in rules ==> RuleHolds(tools, r)
  {
    if rules != [] {
      var n := |rules| - 1;
      var front := rules[..n];
      EdgesPassedAll(tools, front);
      assert rules == front + [rules[n]];
    }
  }

  /** No rule holds exactly when the count is zero. */
  lemma {:induction false} EdgesPassedNone(tools: seq<ToolCall>, rules: seq<EdgeRule>)
    ensures EdgesPassed(tools, rules) == 0 <==> forall r :: r in rules ==> !RuleHolds(tools, r)
  {
    if rules != [] {
      var n := |rules| - 1;
      var front := rules[..n];
      EdgesPassedNone(tools, front);
      assert rules == front + [rules[n]];
    }
  }

  // ---------------------------------------------------------------------
  // The rule table chains five steps
  // ---------------------------------------------------------------------

  /** The table chains the steps: rule `i` orders step `i` before step `i + 1`. */
  lemma EdgeRulesChainSteps()
    ensures |EdgeRules| == 4 && |Steps| == 5
    ensures forall i :: 0 <= i < 4 ==> EdgeRules[i] == EdgeRule(Steps[i], Steps[i + 1])
  {
  }

  /** No call matches two different steps: the names differ, or else the checked argument does. */
  lemma StepsExclusive(c: ToolCall, i: nat, j: nat)
    requires i < j < |Steps|
    ensures !(Matches(c, Steps[i]) && Matches(c, Steps[j]))
  {
    assert |"approval_lookup"| == |"create_investor"| && "approval_lookup"[0] != "create_investor"[0];
  }

  /** Each call matches the pattern at its own position and no other. */
  predicate MatchesExactly(calls: seq<ToolCall>, steps: seq<Pattern>) {
    && |calls| == |steps|
    && forall i, j :: 0 <= i < |calls| && 0 <= j < |steps| ==> (Matches(calls[i], steps[j]) <==> i == j)
  }

  /** In a trajectory that matches the steps exactly, each step is first found at its own position. */
  lemma FirstMatchOfStep(calls: seq<ToolCall>, steps: seq<Pattern>, i: nat)
    requires MatchesExactly(calls, steps) && i < |steps|
    ensures FirstMatch(calls, steps[i]) == Some(i)
  {
    assert Matches(calls[i], steps[i]);
  }

  /** In such a trajectory every rule from an earlier step to a later one holds. */
  lemma StepOrderHolds(calls: seq<ToolCall>, steps: seq<Pattern>, i: nat, j: nat)
    requires MatchesExactly(calls, steps) && i < j < |steps|
    ensures RuleHolds(calls, EdgeRule(steps[i], steps[j]))
  {
    FirstMatchOfStep(calls, steps, i);
    FirstMatchOfStep(calls, steps, j);
  }

  /** Where step `x` is first found once the call at `m` is gone. */
  lemma DroppedFirstMatch(calls: seq<ToolCall>, steps: seq<Pattern>, m: nat, d: seq<ToolCall>, x: nat)
    requires MatchesExactly(calls, steps) && m < |calls| && x < |steps|
    requires |d| == |calls| - 1
    requires forall k :: 0 <= k < m ==> d[k] == calls[k]
    requires forall k :: m <= k < |d| ==> d[k] == calls[k + 1]
    ensures FirstMatch(d, steps[x]) == (if x < m then Some(x) else if x == m then None else Some(x - 1))
  {
    forall k | 0 <= k < |d|
      ensures Matches(d[k], steps[x]) <==> (if k < m then k == x else k + 1 == x)
    {
      if k < m {
        assert d[k] == calls[k];
      } else {
        assert d[k] == calls[k + 1];
      }
    }
    if x < m {
      assert Matches(d[x], steps[x]);
    } else if x > m {
      assert Matches(d[x - 1], steps[x]);
    }
  }

  /**
   Dropping the call at position `m` from such a trajectory breaks exactly
   the rules that mention step `m`: the others keep their order.
   */
  lemma DroppedStep(calls: seq<ToolCall>, steps: seq<Pattern>, m: nat, i: nat, j: nat)
    requires MatchesExactly(calls, steps) && m < |calls| && i < j < |steps|
    ensures RuleHolds(calls[..m] + calls[m + 1..], EdgeRule(steps[i], steps[j])) <==> i != m && j != m
  {
    var d := calls[..m] + calls[m + 1..];
    assert forall k :: 0 <= k < m ==> d[k] == calls[k];
    assert forall k :: m <= k < |d| ==> d[k] == calls[k + 1];
    DroppedFirstMatch(calls, steps, m, d, i);
    DroppedFirstMatch(calls, steps, m, d, j);
  }
}
