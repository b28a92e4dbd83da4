/**
 Payload extraction: from an arbitrary response value, find the dict that
 holds the `tools` list, looking first at the value itself, then under the
 wrapper keys, then at a JSON object embedded as text under `response`.
 Everything here is pure; `json.loads` is the parameter `parse`.
 */
module Extraction {
  import opened Wrappers
  import opened Json

  /** A JSON text parser: `Some(v)` on success, `None` on a decode error. */
  type Parser = string -> Option<Value>

  /** The wrapper keys probed, in this order, for a nested tool payload. */
  const WrapperKeys: seq<string> := ["answer", "output", "result", "parsed"]

  /** `isinstance(d.get("tools"), list)`. */
  predicate HasToolList(d: map<string, Value>) {
    "tools" in d && d["tools"].List?
  }

  /** The value under `k` is a dict whose own `tools` is a list. */
  predicate WrapsToolList(d: map<string, Value>, k: string) {
    k in d && d[k].Object? && HasToolList(d[k].fields)
  }

  // ---------------------------------------------------------------------
  // extract_code_answer and extract_freeform_answer
  // ---------------------------------------------------------------------

  /**
   The first of two keys whose value is a string, or "" when neither is.
   A string under `first` wins even when it is empty.
   */
  function FirstString(d: map<string, Value>, first: string, second: string): (r: string)
    ensures HasString(d, first) ==> r == d[first].s
    ensures !HasString(d, first) && HasString(d, second) ==> r == d[second].s
    ensures !HasString(d, first) && !HasString(d, second) ==> r == ""
  {
    if HasString(d, first) then d[first].s
    else if HasString(d, second) then d[second].s
    else ""
  }

  /** `extract_code_answer`: the `code` string, else the `program` string, else "". */
  function CodeAnswer(pred: Value): (r: string)
    ensures HasString(AsDict(pred), "code") ==> r == AsDict(pred)["code"].s
    ensures r != "" ==>
              pred.Object? && (HasString(pred.fields, "code") || HasString(pred.fields, "program"))
  {
    FirstString(AsDict(pred), "code", "program")
  }

  /** `extract_freeform_answer`: the `model_output` string, else the `answer` string, else "". */
  function FreeformAnswer(pred: Value): (r: string)
    ensures HasString(AsDict(pred), "model_output") ==> r == AsDict(pred)["model_output"].s
    ensures r != "" ==>
              pred.Object? && (HasString(pred.fields, "model_output") || HasString(pred.fields, "answer"))
  {
    FirstString(AsDict(pred), "model_output", "answer")
  }

  // ---------------------------------------------------------------------
  // str.strip() and the brace-shape check
  // ---------------------------------------------------------------------

  /** The characters Python's `str.isspace` accepts, which `str.strip()` removes. */
  predicate IsSpace(c: char) {
    var n := c as int;
    (0x09 <= n <= 0x0D) || (0x1C <= n <= 0x20) || n == 0x85 || n == 0xA0 ||
    n == 0x1680 || (0x2000 <= n <= 0x200A) || n == 0x2028 || n == 0x2029 ||
    n == 0x202F || n == 0x205F || n == 0x3000
  }

  /** Leading whitespace removed: the longest suffix that does not start with a space. */
  function TrimStart(s: string): (r: string)
    ensures |r| <= |s| && r == s[|s| - |r|..]
    ensures forall k :: 0 <= k < |s| - |r| ==> IsSpace(s[k])
    ensures r != [] ==> !IsSpace(r[0])
  {
    if s != [] && IsSpace(s[0]) then TrimStart(s[1..]) else s
  }

  /** Trailing whitespace removed: the longest prefix that does not end with a space. */
  function TrimEnd(s: string): (r: string)
    ensures |r| <= |s| && r == s[..|r|]
    ensures forall k :: |r| <= k < |s| ==> IsSpace(s[k])
    ensures r != [] ==> !IsSpace(r[|r| - 1])
  {
    if s != [] && IsSpace(s[|s| - 1]) then TrimEnd(s[..|s| - 1]) else s
  }

  /** Every character of `t` is whitespace. */
  predicate AllSpace(t: string) {
    forall k :: 0 <= k < |t| ==> IsSpace(t[k])
  }

  /**
   `str.strip()`: the result is a slice of `s` with only whitespace on
   either side of it, and it neither starts nor ends with whitespace.
   */
  function Strip(s: string): (r: string)
    ensures r != [] ==> !IsSpace(r[0]) && !IsSpace(r[|r| - 1])
    ensures exists i :: 0 <= i <= |s| && r <= s[i..] && AllSpace(s[..i]) && AllSpace(s[i + |r|..])
  {
    var t := TrimStart(s);
    var r := TrimEnd(t);
    var i := |s| - |t|;
    assert t == s[i..];
    assert AllSpace(s[..i]);
    assert AllSpace(s[i + |r|..]) by {
      forall k | i + |r| <= k < |s| ensures IsSpace(s[k]) {
        assert s[k] == t[k - i];
      }
    }
    r
  }

  /** `s.startswith("{") and s.endswith("}")`. */
  predicate IsBraced(s: string) {
    |s| > 0 && s[0] == '{' && s[|s| - 1] == '}'
  }

  // ---------------------------------------------------------------------
  // extract_tool_payload
  // ---------------------------------------------------------------------

  /**
   The probe over the wrapper keys: the first key, in the order given,
   whose value is a dict with a `tools` list.
   */
  function FirstWrapped(d: map<string, Value>, keys: seq<string>): (r: Option<map<string, Value>>)
    ensures r.None? <==> forall i :: 0 <= i < |keys| ==> !WrapsToolList(d, keys[i])
    ensures r.Some? ==> HasToolList(r.value)
    ensures r.Some? ==>
              exists i :: 0 <= i < |keys| && WrapsToolList(d, keys[i]) && d[keys[i]] == Object(r.value) &&
                          forall j :: 0 <= j < i ==> !WrapsToolList(d, keys[j])
  {
    if keys == [] then None
    else if WrapsToolList(d, keys[0]) then Some(d[keys[0]].fields)
    else
      var r := FirstWrapped(d, keys[1..]);
      assert forall i :: 1 <= i < |keys| ==> keys[i] == keys[1..][i - 1];
      r
  }

  /**
   The last step of extraction: a `response` string that, stripped, looks
   like a JSON object is parsed; a dict result is the payload, and anything
   else (a parse error, a non-dict, a non-string, an unbraced text) is `{}`.
   */
  function ResponsePayload(d: map<string, Value>, parse: Parser): (r: map<string, Value>)
    ensures r != map[] ==>
              && HasString(d, "response")
              && IsBraced(Strip(d["response"].s))
              && parse(Strip(d["response"].s)) == Some(Object(r))
  {
    if HasString(d, "response") then
      var s := Strip(d["response"].s);
      if IsBraced(s) then
        match parse(s)
        case Some(Object(m)) => m
        case _ => map[]
      else map[]
    else map[]
  }

  /** `extract_tool_payload`. */
  function ExtractToolPayload(obj: Value, parse: Parser): (r: map<string, Value>)
    ensures !obj.Object? || obj.fields == map[] ==> r == map[]
    ensures obj.Object? && HasToolList(obj.fields) ==> r == obj.fields
  {
    var d := AsDict(obj);
    if d == map[] then map[]
    else if HasToolList(d) then d
    else match FirstWrapped(d, WrapperKeys)
      case Some(inner) => inner
      case None =>
        if CodeAnswer(Object(d)) != "" then map[]
        else if FreeformAnswer(Object(d)) != "" then map[]
        else ResponsePayload(d, parse)
  }

  // ---------------------------------------------------------------------
  // Properties of extraction
  // ---------------------------------------------------------------------

  /**
   Every non-empty payload is either a dict holding a `tools` list (the
   input, or the first wrapped dict that has one) or the dict parsed from a
   braced `response` text.
   */
  lemma PayloadProvenance(obj: Value, parse: Parser)
    ensures var r := ExtractToolPayload(obj, parse);
      r != map[] ==>
        && obj.Object?
        && ( || (HasToolList(obj.fields) && r == obj.fields)
             || (HasToolList(r) && exists k :: k in WrapperKeys && k in obj.fields && obj.fields[k] == Object(r))
             || (HasString(obj.fields, "response") && parse(Strip(obj.fields["response"].s)) == Some(Object(r))))
  {
    var r := ExtractToolPayload(obj, parse);
    if r != map[] && obj.Object? && !HasToolList(obj.fields) {
      var w := FirstWrapped(obj.fields, WrapperKeys);
      if w.Some? {
        var i :| 0 <= i < |WrapperKeys| && WrapsToolList(obj.fields, WrapperKeys[i]) &&
          obj.fields[WrapperKeys[i]] == Object(w.value);
        assert WrapperKeys[i] in WrapperKeys;
      }
    }
  }

  /**
   A payload that holds a `tools` list is a fixed point: extracting from it
   again gives it back.
   */
  lemma ExtractIdempotent(obj: Value, parse: Parser)
    requires HasToolList(ExtractToolPayload(obj, parse))
    ensures var r := ExtractToolPayload(obj, parse);
      ExtractToolPayload(Object(r), parse) == r
  {
  }

  /**
   A dict holding a `tools` list, wrapped under any one of the wrapper keys
   (and nothing else), extracts to the same payload as the unwrapped dict.
   */
  lemma {:induction false} WrappedExtractsSame(k: string, inner: map<string, Value>, parse: Parser)
    requires k in WrapperKeys
    requires HasToolList(inner)
    ensures ExtractToolPayload(Object(map[k := Object(inner)]), parse) == inner
    ensures ExtractToolPayload(Object(inner), parse) == inner
  {
    var d := map[k := Object(inner)];
    assert "tools" !in d by {
      assert k != "tools";
    }
    var w := FirstWrapped(d, WrapperKeys);
    assert WrapsToolList(d, k);
    var i :| 0 <= i < |WrapperKeys| && WrapperKeys[i] == k;
    assert w.Some?;
    var j :| 0 <= j < |WrapperKeys| && WrapsToolList(d, WrapperKeys[j]) && d[WrapperKeys[j]] == Object(w.value);
    assert WrapperKeys[j] == k;
  }

  /**
   When no `tools` list is found directly or under a wrapper, a non-empty
   code answer or free-form answer makes the payload empty, whatever the
   `response` key holds.
   */
  lemma AnswerResponsesExtractEmpty(obj: Value, parse: Parser)
    requires obj.Object? && !HasToolList(obj.fields)
    requires forall k :: k in WrapperKeys ==> !WrapsToolList(obj.fields, k)
    requires CodeAnswer(obj) != "" || FreeformAnswer(obj) != ""
    ensures ExtractToolPayload(obj, parse) == map[]
  {
    assert forall i :: 0 <= i < |WrapperKeys| ==> WrapperKeys[i] in WrapperKeys;
  }

  /**
   The `response` text reaches the parser only when its stripped form is
   braced; a parse failure or a parsed non-dict gives the empty payload, and
   a parsed dict is the payload itself.
   */
  lemma ResponseParsing(obj: Value, parse: Parser)
    requires obj.Object? && obj.fields != map[] && !HasToolList(obj.fields)
    requires forall k :: k in WrapperKeys ==> !WrapsToolList(obj.fields, k)
    requires CodeAnswer(obj) == "" && FreeformAnswer(obj) == ""
    ensures var r := ExtractToolPayload(obj, parse);
      && (!HasString(obj.fields, "response") ==> r == map[])
      && (HasString(obj.fields, "response") ==>
            var s := Strip(obj.fields["response"].s);
            && (!IsBraced(s) ==> r == map[])
            && (IsBraced(s) ==> (parse(s).None? || !parse(s).value.Object?) ==> r == map[])
            && (IsBraced(s) && parse(s).Some? && parse(s).value.Object? ==> r == parse(s).value.fields))
  {
    assert forall i :: 0 <= i < |WrapperKeys| ==> WrapperKeys[i] in WrapperKeys;
  }

  /**
   As written, a string under `code` is returned even when it is empty, so an
   empty `code` hides a non-empty `program` and the payload is then taken
   from `response`.
   */
  lemma EmptyCodeHidesProgram(program: string, response: string, m: map<string, Value>, parse: Parser)
    requires program != ""
    requires IsBraced(Strip(response)) && parse(Strip(response)) == Some(Object(m))
    ensures var obj := Object(map["code" := Str(""), "program" := Str(program), "response" := Str(response)]);
      && CodeAnswer(obj) == ""
      && ExtractToolPayload(obj, parse) == m
  {
    var d := map["code" := Str(""), "program" := Str(program), "response" := Str(response)];
    assert HasString(d, "code") && d["code"].s == "";
    assert !HasString(d, "model_output") && !HasString(d, "answer");
    assert forall k :: k in WrapperKeys ==> k !in d;
    ResponseParsing(Object(d), parse);
  }
}
