/**
 The JSON objects exchanged as PATCH bodies. Only the two kinds of value the
 bodies carry are modelled: integers and strings.
 */
module Json {
  import opened Optional

  datatype Value = Num(n: int) | Str(s: string)

  type Object = map<string, Value>

  /** `{ name: v }` as `JSON.stringify` writes it: a member whose value is `undefined` is dropped. */
  function Member(name: string, v: Option<Value>): (o: Object)
    ensures name in o <==> v.Some?
    ensures o.Keys <= {name}
    ensures v.Some? ==> o[name] == v.value
  {
    if v.Some? then map[name := v.value] else map[]
  }

  function NumOf(v: Option<int>): Option<Value> {
    if v.Some? then Some(Num(v.value)) else None
  }

  function StrOf(v: Option<string>): Option<Value> {
    if v.Some? then Some(Str(v.value)) else None
  }

  /** Reads an integer member; a missing or non-integer member reads as absent. */
  function NumField(o: Object, name: string): (r: Option<int>)
    ensures r.Some? <==> name in o && o[name].Num?
    ensures r.Some? ==> o[name] == Num(r.value)
  {
    if name in o && o[name].Num? then Some(o[name].n) else None
  }

  /** Reads a string member; a missing or non-string member reads as absent. */
  function StrField(o: Object, name: string): (r: Option<string>)
    ensures r.Some? <==> name in o && o[name].Str?
    ensures r.Some? ==> o[name] == Str(r.value)
  {
    if name in o && o[name].Str? then Some(o[name].s) else None
  }
}
