# Trajectory validator for the investor-onboarding scenario

This project models the validator in `validator_fixed.py`. The validator scores a
model's predicted tool-call trajectory against a fixed reference trajectory:
`approval_lookup` (investor onboarding), then `create_investor`, then
`create_new_audit_trail` (investor), then `approval_lookup` (portfolio
creation), then `transfer_to_human`. It works in four stages.

- **Payload extraction** (`extract_tool_payload`) finds the dict that holds
  the `tools` list. It looks at the response itself first, then under the
  wrapper keys `answer`, `output`, `result` and `parsed`, in that order.
  Failing that, it gives up on code answers (`code` / `program`) and
  free-form answers (`model_output` / `answer`). As a last resort it parses a
  braced JSON text under `response`.
- **Normalization** (`_as_tool_list`) keeps the well-formed entries of the
  list, in order. An entry is well formed when it is a dict with a string
  `name` and a dict `arguments`.
- **Matching** (`_count_matching_tool_calls`) walks the expected calls in
  order. Each one consumes the first still-unused predicted call with the
  same name and equal arguments.
- **Ordering** (`_first_index` and the four edge rules) gives one point for
  each rule "A before B" whose first A comes strictly before its first B.

The score (`check_prediction`) is (matched calls + rules passed) /
(expected calls + 4). The early returns are 0 for an empty payload on either
side, 1 for an empty expected list, and 0 for an empty predicted list.

The Dafny modules follow these stages:

- `Json` holds the values the validator inspects.
- `Extraction`, `Normalization`, `Matching`, `Ordering` and `Scoring` hold
  the stages.
- `ReferenceCase` holds the `expected` constant and the file's three unit
  tests.

The pure parts are functions. The source's loops are methods, each proved
equal to the function that specifies it:

- `AsToolList`: the normalization loop.
- `CountMatchingToolCalls`: the nested matching loops.
- `FirstIndex`: the scan for a first match.
- `CountPassedEdges`: the edge-rule loop.
- `CheckPrediction`: the whole validator.

Main results:

- Greedy matching counts exactly the size of the multiset intersection of
  the two trajectories. So the count does not depend on the order of either
  trajectory, and it is symmetric.
- Each edge rule is characterised without first indices.
- The score lies in [0, 1]. When both tool lists are non-empty, it is 1
  exactly when every expected call is matched and every rule holds, and 0
  exactly when nothing is matched and no rule holds. The early returns
  decide the other cases: an empty payload on either side scores 0, an empty
  expected list 1, and an empty predicted list 0.
- The three unit tests are proved on the reference constant: full pass 1.0,
  full fail 0/9, and partial 6/9.
- Dropping any one call of the reference trajectory scores 7/9 when the call
  is at either end and 6/9 when it is in the middle.

## Model

| member | source | states |
|---|---|---|
| Json.Get | validator_fixed.py:67-68 | `d.get(k)` is `Some` exactly when `k` is a key, and then holds `d[k]` |
| Json.AsDict | validator_fixed.py:54-55 | a dict is returned unchanged; any non-empty result is the input dict's own contents |
| Json.HasString | validator_fixed.py:69 | `isinstance(d.get(k), str)`: the key is present and holds a string (also the tests at lines 82, 86, 96, 100 and 126) |
| Extraction.HasToolList | validator_fixed.py:111 | `isinstance(d.get("tools"), list)`: the key is present and holds a list |
| Extraction.WrapsToolList | validator_fixed.py:115-116 | the value under the key is a dict whose own `tools` is a list |
| Extraction.WrapperKeys | validator_fixed.py:114 | the wrapper keys `answer`, `output`, `result`, `parsed`, in probe order |
| Extraction.FirstString | validator_fixed.py:81-89 | a string under the first key wins, even an empty one; else the string under the second key; else "" |
| Extraction.CodeAnswer | validator_fixed.py:78-89 | a string `code` is the answer; a non-empty answer comes from a dict holding a string `code` or `program` |
| Extraction.FreeformAnswer | validator_fixed.py:92-103 | a string `model_output` is the answer; a non-empty answer comes from a dict holding a string `model_output` or `answer` |
| Extraction.IsSpace | validator_fixed.py:127 | the characters Python's `str.isspace` accepts, which `strip()` removes |
| Extraction.TrimStart | validator_fixed.py:127 | the result is a suffix of the input; everything removed is whitespace; the result does not start with whitespace |
| Extraction.TrimEnd | validator_fixed.py:127 | the result is a prefix of the input; everything removed is whitespace; the result does not end with whitespace |
| Extraction.Strip | validator_fixed.py:127 | `strip()` returns a slice of the input with only whitespace on either side, and it neither starts nor ends with whitespace |
| Extraction.IsBraced | validator_fixed.py:128 | the text starts with `{` and ends with `}` |
| Extraction.FirstWrapped | validator_fixed.py:114-117 | `None` exactly when no wrapper key holds a dict with a `tools` list; otherwise the dict under the first such key, in the probe order |
| Extraction.ResponsePayload | validator_fixed.py:125-136 | a non-empty result is the dict that `json.loads` returned for the stripped, braced `response` string |
| Extraction.ExtractToolPayload | validator_fixed.py:106-136 | a non-dict or empty dict gives `{}`; a dict with a `tools` list is returned unchanged |
| Extraction.PayloadProvenance | validator_fixed.py:106-136 | every non-empty payload is the input (holding a `tools` list), a dict under a wrapper key (holding one), or the parse of `response` |
| Extraction.ExtractIdempotent | validator_fixed.py:111-112 | extracting again from a payload that holds a `tools` list gives it back |
| Extraction.WrappedExtractsSame | validator_fixed.py:111-117 | a tools dict wrapped under any wrapper key extracts to the same payload as the unwrapped dict |
| Extraction.AnswerResponsesExtractEmpty | validator_fixed.py:119-123 | with no tools list found directly or under a wrapper, a non-empty code or free-form answer gives `{}` whatever `response` holds |
| Extraction.ResponseParsing | validator_fixed.py:125-136 | past the answer checks: no string `response`, an unbraced text, a parse error or a parsed non-dict all give `{}`; a parsed dict is the payload |
| Extraction.EmptyCodeHidesProgram | validator_fixed.py:81-87 | an empty `code` string shadows a non-empty `program`: the code answer is "" and the payload comes from `response` |
| Normalization.AsToolCall | validator_fixed.py:65-70 | an entry is kept exactly when it is a dict with a string `name` and a dict `arguments`, and keeps those two |
| Normalization.Entry | validator_fixed.py:65-70 | one entry contributes its call when it is well formed, and nothing otherwise |
| Normalization.Normalized | validator_fixed.py:63-71 | normalization never lengthens the list |
| Normalization.ToolList | validator_fixed.py:59-61 | a missing or non-list `tools` gives the empty list |
| Normalization.AsToolList | validator_fixed.py:58-71 | the loop's result is the specification `ToolList` of the payload |
| Normalization.NormalizedConcat | validator_fixed.py:64-70 | normalizing a concatenation concatenates the normalized parts, so order is kept |
| Normalization.NormalizedSound | validator_fixed.py:64-70 | every normalized call comes from a well-formed entry of the input |
| Normalization.NormalizedComplete | validator_fixed.py:64-70 | every well-formed entry of the input appears in the normalized list |
| Normalization.NormalizedKeepsAll | validator_fixed.py:64-70 | nothing is dropped exactly when every entry is well formed |
| Normalization.EncodeAll | validator_fixed.py:65-70 | each call written out as a `{"name", "arguments"}` dict is an entry normalization keeps, and it reads back as that same call |
| Normalization.NormalizeEncoded | validator_fixed.py:63-71 | normalizing a written-out trajectory gives the trajectory back |
| Normalization.PayloadTools | validator_fixed.py:106-112 | a `{"tools": [...]}` payload extracts to itself, and its tool list is the calls it was written from |
| Matching.IndexOf | validator_fixed.py:161-168 | `None` exactly when the call is absent; otherwise the first index holding an equal call |
| Matching.RemoveAt | validator_fixed.py:171 | `pop(i)` shortens the list by one and removes one copy of the popped call from its multiset |
| Matching.Matched | validator_fixed.py:160-171 | the greedy count is at most the length of either list |
| Matching.CountMatchingToolCalls | validator_fixed.py:153-173 | the nested loops compute the greedy count `Matched` of the two lists |
| Matching.MatchedIsIntersection | validator_fixed.py:153-173 | the greedy count equals the size of the multiset intersection of the two trajectories |
| Matching.MatchedOrderInsensitive | validator_fixed.py:153-173 | the count is unchanged by reordering either trajectory |
| Matching.MatchedSymmetric | validator_fixed.py:153-173 | swapping predicted and expected gives the same count |
| Matching.MatchedSelf | validator_fixed.py:153-173 | a trajectory matched against itself matches every call |
| Matching.MatchedSubset | validator_fixed.py:153-173 | a prediction whose calls all occur in the expectation, counting repeats, is matched in full |
| Ordering.Satisfies | validator_fixed.py:200-221 | `a.get(key) == value` for a string value: the key is present and holds exactly that string |
| Ordering.Matches | validator_fixed.py:145-148 | the call has the pattern's name and, when the pattern has a predicate, its arguments satisfy it |
| Ordering.FirstMatch | validator_fixed.py:139-150 | `None` exactly when no call matches the pattern; otherwise the index of a matching call with none before it |
| Ordering.FirstIndex | validator_fixed.py:139-150 | the loop returns `FirstMatch` |
| Ordering.RuleHolds | validator_fixed.py:230-232 | both first indices exist and the `from` index is strictly smaller |
| Ordering.OnboardingApprovalStep | validator_fixed.py:199-200 | `approval_lookup` with `action` equal to `investor_onboarding` |
| Ordering.CreateInvestorStep | validator_fixed.py:201-207 | `create_investor` with no argument predicate |
| Ordering.InvestorAuditStep | validator_fixed.py:208-214 | `create_new_audit_trail` with `reference_type` equal to `investor` |
| Ordering.PortfolioApprovalStep | validator_fixed.py:215-221 | `approval_lookup` with `action` equal to `portfolio_creation` |
| Ordering.HandOffStep | validator_fixed.py:222-223 | `transfer_to_human` with no argument predicate |
| Ordering.Steps | validator_fixed.py:198-224 | the five distinct patterns of the rule table, in the order the rules chain them |
| Ordering.EdgeRules | validator_fixed.py:196-225 | the four rules, in the order checked: onboarding approval before `create_investor`, before the investor audit, before the portfolio approval, before `transfer_to_human` |
| Ordering.EdgesPassed | validator_fixed.py:229-233 | the number of rules passed is at most the number of rules |
| Ordering.RuleHoldsIff | validator_fixed.py:230-232 | a rule holds iff some call matches `to` and some call matching `from` precedes every call matching `to` |
| Ordering.ReversedRuleFails | validator_fixed.py:230-232 | a `to` call with no `from` call at or before it makes the rule fail |
| Ordering.EdgesPassedAll | validator_fixed.py:229-233 | the count equals the number of rules iff every rule holds |
| Ordering.EdgesPassedNone | validator_fixed.py:229-233 | the count is zero iff no rule holds |
| Ordering.EdgeRulesChainSteps | validator_fixed.py:196-225 | the table has four rules, and rule `i` orders step `i` before step `i + 1` of the five reference steps |
| Ordering.StepsExclusive | validator_fixed.py:196-225 | no call matches two different steps: the names differ, and the two `approval_lookup` steps differ in `action` |
| Ordering.FirstMatchOfStep | validator_fixed.py:139-150 | in a trajectory whose calls match the steps one to one, each step is first found at its own position |
| Ordering.StepOrderHolds | validator_fixed.py:229-233 | in such a trajectory every rule from an earlier step to a later step holds |
| Ordering.DroppedFirstMatch | validator_fixed.py:139-150 | once the call at `m` is removed, earlier steps keep their index, step `m` is missing and later steps move down one |
| Ordering.DroppedStep | validator_fixed.py:229-233 | removing the call at `m` breaks exactly the rules that mention step `m` |
| Scoring.Score.Value | validator_fixed.py:235 | `passed / total` lies in [0, 1]; it is 1 iff all checks pass and 0 iff none does |
| Scoring.ScoreTools | validator_fixed.py:187-235 | the score of two normalized lists is a valid fraction |
| Scoring.ScorePayloads | validator_fixed.py:181-191 | the score of two payloads is a valid fraction |
| Scoring.ScoreOf | validator_fixed.py:176-235 | the score of two responses is a valid fraction |
| Scoring.CountPassedEdges | validator_fixed.py:229-233 | the edge loop counts `EdgesPassed` |
| Scoring.CheckPrediction | validator_fixed.py:176-235 | returns the value of `ScoreOf`, which lies in [0, 1] |
| Scoring.EmptyPayloadScoresZero | validator_fixed.py:181-182 | an empty payload on either side scores 0 |
| Scoring.EmptyExpectedScoresOne | validator_fixed.py:181-188 | with both payloads non-empty, an expected payload with no well-formed calls scores 1 |
| Scoring.EmptyPredictedScoresZero | validator_fixed.py:181-191 | a predicted payload with no well-formed calls scores 0 against an expected payload that has some |
| Scoring.GradedScore | validator_fixed.py:193-235 | on the graded path the denominator is `len(exp) + 4`; the score is 1 iff all calls match and all rules hold, 0 iff none does |
| Scoring.SelfScore | validator_fixed.py:176-235 | an expectation scores 1 against itself iff its own trajectory satisfies all four rules |
| Scoring.SingleCallSelfScore | validator_fixed.py:193-235 | a one-call trajectory outside every rule scores 1/5 against itself |
| Scoring.WrappedScoresSame | validator_fixed.py:114-117 | wrapping a tools dict under a wrapper key does not change the score |
| Scoring.AnswerResponsesScoreZero | validator_fixed.py:119-123 | a code or free-form answer with no tools list anywhere scores 0 |
| ReferenceCase.Email | validator_fixed.py:12 | the requester email of both `approval_lookup` calls (also line 41) |
| ReferenceCase.OnboardingApproval | validator_fixed.py:8-14 | the first reference call: `approval_lookup` for `investor_onboarding` by the requester |
| ReferenceCase.CreateInvestor | validator_fixed.py:15-25 | the second reference call: `create_investor` with its six arguments |
| ReferenceCase.InvestorAudit | validator_fixed.py:26-36 | the third reference call: `create_new_audit_trail` for the investor with its six arguments |
| ReferenceCase.PortfolioApproval | validator_fixed.py:37-43 | the fourth reference call: `approval_lookup` for `portfolio_creation` by the requester |
| ReferenceCase.HandOff | validator_fixed.py:44-49 | the fifth reference call: `transfer_to_human` with its summary text |
| ReferenceCase.ExpectedCalls | validator_fixed.py:7-50 | the five reference calls, in order |
| ReferenceCase.Expected | validator_fixed.py:6-51 | `expected`: a dict whose `tools` list writes out the five reference calls as name/arguments dicts |
| ReferenceCase.ListUsers | validator_fixed.py:251-258 | the lone call of the full-fail prediction: `list_users` with `username` `WRONG_USERNAME` |
| ReferenceCase.PartialCalls | validator_fixed.py:263-297 | the four calls of the partial prediction: the reference without `create_new_audit_trail` |
| ReferenceCase.PartialDropsAudit | validator_fixed.py:263-297 | the partial prediction is the reference without its third call |
| ReferenceCase.ReferenceHasShape | validator_fixed.py:6-51 | each reference call matches the step at its own position |
| ReferenceCase.ShapeMatchesExactly | validator_fixed.py:196-225 | a trajectory of the reference shape matches no step except its own |
| ReferenceCase.EdgesPassedByRule | validator_fixed.py:229-233 | a four-rule count is the sum of the four rules' points |
| ReferenceCase.ShapeSatisfiesRules | validator_fixed.py:196-233 | all four rules hold on any trajectory of the reference shape |
| ReferenceCase.FullPass | validator_fixed.py:245-248 | test 1: the reference scored against itself is 1.0 |
| ReferenceCase.UnrelatedCallScoresZero | validator_fixed.py:250-260 | a single call named like no step, against a trajectory of the reference shape, scores 0 of 9 |
| ReferenceCase.ListUsersUnrelated | validator_fixed.py:254 | `list_users` is none of the five step names |
| ReferenceCase.FullFail | validator_fixed.py:250-260 | test 2: the lone `list_users` call scores exactly 0 of 9, so 0.0 |
| ReferenceCase.DroppedCallMatches | validator_fixed.py:153-173 | removing one call leaves every other call matched |
| ReferenceCase.DroppedCallEdges | validator_fixed.py:196-233 | removing step `m` loses one rule at either end of the chain and two in the middle |
| ReferenceCase.DroppedCallScore | validator_fixed.py:262-299 | removing one reference-shaped call scores 7/9 at either end and 6/9 in the middle |
| ReferenceCase.Partial | validator_fixed.py:262-299 | test 3: the prediction without the audit call scores exactly 6/9, strictly between 0 and 1 |

## Left out

- `json.loads` is not modelled. It is the parameter `parse`, which returns
  `None` where the source raises `JSONDecodeError`. Every property holds for
  every parser.
- Python's loose equality is not modelled. The model's `Value` has no
  floats, and its equality is structural, so `True == 1` and `1 == 1.0` do
  not hold as they do in Python. Argument comparison in matching and in the
  edge predicates is otherwise exact, as in the source.
- The `try`/`except` around `check_prediction` (lines 237-239) is not
  modelled, and neither is its `print`. No path of the modelled code raises
  `TypeError`, `KeyError` or `ValueError`: the decode error is handled where
  it occurs, and every lookup is guarded.
- `copy.deepcopy` (lines 157 and 246) is not modelled. Values are immutable
  here, so consuming `remaining` cannot change the caller's list.
- `extract_json_answer` (lines 74-75) is not modelled. It equals
  `_as_dict`, and nothing calls it.
- The test runner (`__run_unittests` as a program and the `__main__` block)
  is not modelled. Its three checks are the lemmas `FullPass`, `FullFail`
  and `Partial`.
- The edge predicates are modelled as data (`ArgEquals(key, value)`), not as
  Python lambdas. The source has five lambdas, three of them distinct (lines
  200, 209, 214, 216 and 221). Each compares one argument with one string.
- The default `{}` of `tool.get("arguments", {})` in `_first_index` is not
  modelled. Normalized calls always carry their arguments, so it is never
  used.
- Scoring.CheckPrediction: returns the exact quotient as a real. The source
  divides in floating point; the early returns 0.0 and 1.0 are exact in
  both.

Two places where the written code is narrower than a plain reading of its
purpose are modelled as written:

- A string under `code`, or under `model_output`, is returned even when it
  is empty. So an empty `code` hides a non-empty `program`, and an empty
  `model_output` hides a non-empty `answer`; extraction then falls through
  to `response`. `EmptyCodeHidesProgram` shows this.
- Scoring an expectation against itself gives 1.0 only when its trajectory
  satisfies all four fixed edge rules (`SelfScore`). Any other non-empty
  trajectory scores below 1 against itself: a single unrelated call scores
  1/5 (`SingleCallSelfScore`). This is inherent in the fixed rule table, not
  a slip.
