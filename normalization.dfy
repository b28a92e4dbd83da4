/**
 Tool-list normalization (`_as_tool_list`): keep, in order, the entries of a
 payload's `tools` list that are dicts with a string `name` and a dict
 `arguments`, and drop everything else.
 */
module Normalization {
  import opened Wrappers
  import opened Json
  import opened Extraction

  /** A well-formed tool call: `{"name": name, "arguments": args}`. */
  datatype ToolCall = ToolCall(name: string, args: map<string, Value>)

  /** The entry `v` read as a tool call, or `None` when it is not well formed. */
  function AsToolCall(v: Value): (r: Option<ToolCall>)
    ensures r.Some? <==>
              && v.Object?
              && HasString(v.fields, "name")
              && "arguments" in v.fields && v.fields["arguments"].Object?
    ensures r.Some? ==> r.value.name == v.fields["name"].s && r.value.args == v.fields["arguments"].fields
  {
    if v.Object? && HasString(v.fields, "name") && "arguments" in v.fields && v.fields["arguments"].Object? then
      Some(ToolCall(v.fields["name"].s, v.fields["arguments"].fields))
    else
      None
  }

  /** What one entry contributes to the normalized list. */
  function Entry(v: Value): seq<ToolCall> {
    match AsToolCall(v)
    case Some(c) => [c]
    case None => []
  }

  /** The normalized list of `items`, built the way the loop builds it: left to right. */
  function Normalized(items: seq<Value>): (r: seq<ToolCall>)
    ensures |r| <= |items|
  {
    if items == [] then [] else Normalized(items[..|items| - 1]) + Entry(items[|items| - 1])
  }

  /** The normalized tool list of a payload; `[]` when `tools` is absent or not a list. */
  function ToolList(payload: map<string, Value>): (r: seq<ToolCall>)
    ensures !HasToolList(payload) ==> r == []
    ensures HasToolList(payload) ==> |r| <= |payload["tools"].items|
  {
    if HasToolList(payload) then Normalized(payload["tools"].items) else []
  }

  /** `_as_tool_list`: the loop that appends each well-formed entry to `normalized`. */
  method AsToolList(payload: map<string, Value>) returns (normalized: seq<ToolCall>)
    ensures normalized == ToolList(payload)
  {
    if !("tools" in payload && payload["tools"].List?) {
      return [];
    }
    var tools := payload["tools"].items;
    normalized := [];
    var i := 0;
    while i < |tools|
      invariant 0 <= i <= |tools|
      invariant normalized == Normalized(tools[..i])
    {
      var tool := tools[i];
      assert tools[..i + 1][..i] == tools[..i];
      if tool.Object? {
        var name := Get(tool.fields, "name");
        var arguments := Get(tool.fields, "arguments");
        if name.Some? && name.value.Str? && arguments.Some? && arguments.value.Object? {
          normalized := normalized + [ToolCall(name.value.s, arguments.value.fields)];
        }
      }
      i := i + 1;
    }
    assert tools[..i] == tools;
  }

  // ---------------------------------------------------------------------
  // Properties of normalization
  // ---------------------------------------------------------------------

  /** Normalization distributes over concatenation: it keeps the original order. */
  lemma {:induction false} NormalizedConcat(a: seq<Value>, b: seq<Value>)
    ensures Normalized(a + b) == Normalized(a) + Normalized(b)
  {
    if b == [] {
      assert a + b == a;
    } else {
      var b' := b[..|b| - 1];
      assert (a + b)[..|a + b| - 1] == a + b';
      NormalizedConcat(a, b');
    }
  }

  /** Every normalized call comes from a well-formed entry of the input. */
  lemma {:induction false} NormalizedSound(items: seq<Value>, c: ToolCall)
    requires c in Normalized(items)
    ensures exists k :: 0 <= k < |items| && AsToolCall(items[k]) == Some(c)
  {
    var n := |items| - 1;
    if c in Normalized(items[..n]) {
      NormalizedSound(items[..n], c);
      var k :| 0 <= k < n && AsToolCall(items[..n][k]) == Some(c);
      assert items[..n][k] == items[k];
    } else {
      assert AsToolCall(items[n]) == Some(c);
    }
  }

  /** Every well-formed entry of the input appears in the normalized list. */
  lemma {:induction false} NormalizedComplete(items: seq<Value>, k: nat)
    requires k < |items| && AsToolCall(items[k]).Some?
    ensures AsToolCall(items[k]).value in Normalized(items)
  {
    var n := |items| - 1;
    if k < n {
      assert items[..n][k] == items[k];
      NormalizedComplete(items[..n], k);
    }
  }

  /** Nothing is dropped exactly when every entry is well formed. */
  lemma {:induction false} NormalizedKeepsAll(items: seq<Value>)
    ensures |Normalized(items)| == |items| <==> forall k :: 0 <= k < |items| ==> AsToolCall(items[k]).Some?
  {
    if items != [] {
      var n := |items| - 1;
      NormalizedKeepsAll(items[..n]);
      assert forall k :: 0 <= k < n ==> items[..n][k] == items[k];
    }
  }

  /** The dict a well-formed tool call is written as. */
  function Encode(c: ToolCall): Value {
    Object(map["name" := Str(c.name), "arguments" := Object(c.args)])
  }

  /**
   The list of dicts a trajectory is written as: every entry is well formed
   and reads back as the call it was written from.
   */
  function EncodeAll(calls: seq<ToolCall>): (r: seq<Value>)
    ensures |r| == |calls|
    ensures forall k :: 0 <= k < |calls| ==> AsToolCall(r[k]) == Some(calls[k])
  {
    seq(|calls|, k requires 0 <= k < |calls| => Encode(calls[k]))
  }

  /** Normalizing a written-out trajectory gives the trajectory back. */
  lemma {:induction false} NormalizeEncoded(calls: seq<ToolCall>)
    ensures Normalized(EncodeAll(calls)) == calls
  {
    if calls != [] {
      var n := |calls| - 1;
      assert EncodeAll(calls)[..n] == EncodeAll(calls[..n]);
      NormalizeEncoded(calls[..n]);
      var c := calls[n];
      assert AsToolCall(Encode(c)) == Some(c);
      assert calls[..n] + [c] == calls;
    }
  }

  /** The payload `{"tools": [...]}` holding exactly the given calls. */
  function Payload(calls: seq<ToolCall>): Value {
    Object(map["tools" := List(EncodeAll(calls))])
  }

  /** Extraction and normalization give back the calls a payload was built from. */
  lemma PayloadTools(calls: seq<ToolCall>, parse: Parser)
    ensures ExtractToolPayload(Payload(calls), parse) != map[]
    ensures ToolList(ExtractToolPayload(Payload(calls), parse)) == calls
  {
    NormalizeEncoded(calls);
  }
}
