/** The optional value used where the validator returns `None`. */
module Wrappers {

  datatype Option<+T> = None | Some(value: T)
}

/**
 The JSON-like values the validator inspects: the results of `json.loads` and
 the Python literals it is handed directly (dicts with string keys, lists,
 strings, integers, booleans and `None`).
 */
module Json {
  import opened Wrappers

  datatype Value =
    | Null
    | Bool(b: bool)
    | Int(i: int)
    | Str(s: string)
    | List(items: seq<Value>)
    | Object(fields: map<string, Value>)

  /** `d.get(k)`: the value under `k`, or `None` when the key is absent. */
  function Get(d: map<string, Value>, k: string): (r: Option<Value>)
    ensures r.Some? <==> k in d
    ensures r.Some? ==> r.value == d[k]
  {
    if k in d then Some(d[k]) else None
  }

  /** `isinstance(d.get(k), str)`: the key is present and holds a string. */
  predicate HasString(d: map<string, Value>, k: string) {
    k in d && d[k].Str?
  }

  /**
   `_as_dict`: a dict is kept as it is and every other value becomes the
   empty dict, so a non-empty result is always the input's own contents.
   */
  function AsDict(v: Value): (d: map<string, Value>)
    ensures v.Object? ==> d == v.fields
    ensures d != map[] ==> v == Object(d)
  {
    if v.Object? then v.fields else map[]
  }
}
