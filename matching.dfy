/**
 Trajectory matching (`_count_matching_tool_calls`): each expected call, in
 order, consumes the first still-unconsumed predicted call with the same
 name and equal arguments. The count is the size of the multiset
 intersection of the two trajectories.
 */
module Matching {
  import opened Wrappers
  import opened Normalization

  /** The first index of `x` in `s`, or `None` when `x` does not occur. */
  function IndexOf(s: seq<ToolCall>, x: ToolCall): (r: Option<nat>)
    ensures r.None? <==> x !in s
    ensures r.Some? ==> r.value < |s| && s[r.value] == x && forall k :: 0 <= k < r.value ==> s[k] != x
  {
    if s == [] then None
    else if s[0] == x then Some(0)
    else match IndexOf(s[1..], x)
      case Some(i) => Some(i + 1)
      case None => None
  }

  /** `remaining.pop(i)`. */
  function RemoveAt(s: seq<ToolCall>, i: nat): (r: seq<ToolCall>)
    requires i < |s|
    ensures |r| == |s| - 1
    ensures multiset(r) == multiset(s) - multiset{s[i]}
  {
    assert s == s[..i] + [s[i]] + s[i + 1..];
    s[..i] + s[i + 1..]
  }

  /**
   The number of expected calls `exp` that find a match when predicted calls
   are consumed from `remaining` greedily, first match first.
   */
  function Matched(remaining: seq<ToolCall>, exp: seq<ToolCall>): (n: nat)
    ensures n <= |exp| && n <= |remaining|
  {
    if exp == [] then 0
    else match IndexOf(remaining, exp[0])
      case Some(i) => 1 + Matched(RemoveAt(remaining, i), exp[1..])
      case None => Matched(remaining, exp[1..])
  }

  /**
   `_count_matching_tool_calls`: the caller's `predTools` is a value and is
   never changed; only the local copy `remaining` is consumed.
   */
  method CountMatchingToolCalls(predTools: seq<ToolCall>, expTools: seq<ToolCall>) returns (matched: nat)
    ensures matched == Matched(predTools, expTools)
    ensures matched <= |expTools| && matched <= |predTools|
  {
    var remaining := predTools;
    matched := 0;
    var j := 0;
    while j < |expTools|
      invariant 0 <= j <= |expTools|
      invariant matched + Matched(remaining, expTools[j..]) == Matched(predTools, expTools)
    {
      var expTool := expTools[j];
      var matchIdx: Option<nat> := None;
      var i := 0;
      while i < |remaining|
        invariant 0 <= i <= |remaining|
        invariant forall k :: 0 <= k < i ==> remaining[k] != expTool
      {
        if remaining[i].name == expTool.name && remaining[i].args == expTool.args {
          matchIdx := Some(i);
          break;
        }
        i := i + 1;
      }
      assert matchIdx == IndexOf(remaining, expTool);
      assert expTools[j..][1..] == expTools[j + 1..];
      if matchIdx.Some? {
        matched := matched + 1;
        remaining := RemoveAt(remaining, matchIdx.value);
      }
      j := j + 1;
    }
  }

  // ---------------------------------------------------------------------
  // Greedy matching is multiset intersection
  // ---------------------------------------------------------------------

  /** Adding a call that `m` holds adds one to the intersection once it is taken out of `m`. */
  lemma IntersectPresent(m: multiset<ToolCall>, r: multiset<ToolCall>, e: ToolCall)
    requires e in m
    ensures |m * (multiset{e} + r)| == 1 + |(m - multiset{e}) * r|
  {
    var lhs := m * (multiset{e} + r);
    var rhs := (m - multiset{e}) * r + multiset{e};
    assert forall x :: lhs[x] == rhs[x];
    assert lhs == rhs;
  }

  /** Adding a call that `m` lacks leaves the intersection unchanged. */
  lemma IntersectAbsent(m: multiset<ToolCall>, r: multiset<ToolCall>, e: ToolCall)
    requires e !in m
    ensures m * (multiset{e} + r) == m * r
  {
    assert forall x :: (m * (multiset{e} + r))[x] == (m * r)[x];
  }

  /**
   The greedy count equals the size of the multiset intersection: each
   predicted call satisfies at most one expected call, and no match that
   exact equality allows is missed.
   */
  lemma {:induction false} MatchedIsIntersection(remaining: seq<ToolCall>, exp: seq<ToolCall>)
    ensures Matched(remaining, exp) == |multiset(remaining) * multiset(exp)|
  {
    if exp == [] {
      assert multiset(exp) == multiset{};
      assert multiset(remaining) * multiset{} == multiset{};
    } else {
      var e, rest := exp[0], exp[1..];
      assert exp == [e] + rest;
      assert multiset(exp) == multiset{e} + multiset(rest);
      match IndexOf(remaining, e)
      case Some(i) =>
        MatchedIsIntersection(RemoveAt(remaining, i), rest);
        IntersectPresent(multiset(remaining), multiset(rest), e);
      case None =>
        MatchedIsIntersection(remaining, rest);
        IntersectAbsent(multiset(remaining), multiset(rest), e);
    }
  }

  /** Matching does not depend on the order of either trajectory. */
  lemma MatchedOrderInsensitive(p: seq<ToolCall>, p': seq<ToolCall>, e: seq<ToolCall>, e': seq<ToolCall>)
    requires multiset(p) == multiset(p') && multiset(e) == multiset(e')
    ensures Matched(p, e) == Matched(p', e')
  {
    MatchedIsIntersection(p, e);
    MatchedIsIntersection(p', e');
  }

  /** Predicted and expected play symmetric parts in the count. */
  lemma MatchedSymmetric(p: seq<ToolCall>, e: seq<ToolCall>)
    ensures Matched(p, e) == Matched(e, p)
  {
    MatchedIsIntersection(p, e);
    MatchedIsIntersection(e, p);
    assert multiset(p) * multiset(e) == multiset(e) * multiset(p);
  }

  /** A trajectory matched against itself matches every call. */
  lemma MatchedSelf(s: seq<ToolCall>)
    ensures Matched(s, s) == |s|
  {
    MatchedIsIntersection(s, s);
    assert multiset(s) * multiset(s) == multiset(s);
  }

  /** A prediction whose calls all occur in the expectation (counting repeats) is matched in full. */
  lemma MatchedSubset(p: seq<ToolCall>, e: seq<ToolCall>)
    requires multiset(p) <= multiset(e)
    ensures Matched(p, e) == |p|
  {
    MatchedIsIntersection(p, e);
    assert multiset(p) * multiset(e) == multiset(p);
  }
}
