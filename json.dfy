/** JSON values as the Express handlers and the browser client exchange them.
    A JavaScript plain object is an `Object`: a finite map from property names
    to values. Numbers are modelled as integers only. */
module Json {
  import opened Optional

  datatype Value =
    | Null
    | Bool(b: bool)
    | Num(n: int)
    | Str(s: string)
    | Arr(items: seq<Value>)
    | Obj(fields: map<string, Value>)

  type Object = map<string, Value>

  /** Reading a property of a plain object: `o.key`, `undefined` when absent. */
  function Field(o: Object, key: string): (r: Option<Value>)
    ensures r.Some? <==> key in o
    ensures r.Some? ==> r.value == o[key]
  {
    if key in o then Some(o[key]) else None
  }

  /** Object spread `{ ...a, ...b }`: every property of both, `b` winning on
      the names both have. */
  function Spread(a: Object, b: Object): (r: Object)
    ensures r.Keys == a.Keys + b.Keys
    ensures forall k :: k in b ==> r[k] == b[k]
    ensures forall k :: k in a && k !in b ==> r[k] == a[k]
  {
    a + b
  }
}
