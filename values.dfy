// Documents and request values as the services see them after JSON parsing.
// A nested object keeps its keys in order, so `==` on two values is exactly
// "their JSON serialisations are equal".  A stored record (`Doc`) is a map from
// field name to value; a field that is absent plays the part of `undefined`.

module Values {
  import opened Wrappers
  import opened Strings

  datatype Value =
    | Null
    | Bool(b: bool)
    | Num(n: int)
    | Str(s: string)
    | Arr(items: seq<Value>)
    | Obj(entries: seq<(string, Value)>)

  type Doc = map<string, Value>

  /** JavaScript truthiness (NaN is not modelled). */
  predicate Truthy(v: Value)
  {
    match v
    case Null => false
    case Bool(b) => b
    case Num(n) => n != 0
    case Str(s) => s != ""
    case Arr(_) => true
    case Obj(_) => true
  }

  /** `doc[k]` read as a truthy test: an absent field is `undefined`, which is falsy. */
  predicate FieldTruthy(d: Doc, k: string)
  {
    k in d && Truthy(d[k])
  }

  /** `v[k]` on a parsed JSON object; the last occurrence of a key wins, as in `JSON.parse`. */
  function ObjGet(entries: seq<(string, Value)>, k: string): (r: Option<Value>)
    ensures r.Some? <==> exists i :: 0 <= i < |entries| && entries[i].0 == k
  {
    if |entries| == 0 then None
    else if entries[|entries| - 1].0 == k then Some(entries[|entries| - 1].1)
    else ObjGet(entries[..|entries| - 1], k)
  }

  /** A parsed object's fields as a record. */
  function ObjToDoc(entries: seq<(string, Value)>): (d: Doc)
    ensures forall k :: k in d <==> ObjGet(entries, k).Some?
    ensures forall k :: k in d ==> d[k] == ObjGet(entries, k).value
  {
    if |entries| == 0 then map[]
    else ObjToDoc(entries[..|entries| - 1])[entries[|entries| - 1].0 := entries[|entries| - 1].1]
  }

  /** `String(v)` for the values the pages and services convert. */
  function JsString(v: Value): string
  {
    match v
    case Null => "null"
    case Bool(b) => if b then "true" else "false"
    case Num(n) => IntToString(n)
    case Str(s) => s
    case Arr(items) =>
      Join(seq(|items|, i requires 0 <= i < |items| =>
        if items[i].Null? then "" else JsString(items[i])), ",")
    case Obj(_) => "[object Object]"
  }
}
