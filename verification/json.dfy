/** JSON-shaped values with the JavaScript operators the routes and forms use on them:
    truthiness (`!x`), nullish coalescing (`x ?? d`), optional member access (`x?.k`)
    and object spread (`{...x}`). */
module Json {
  import opened Options

  datatype Value = Null | Bool(b: bool) | Num(n: int) | Str(s: string) | Obj(fields: Object)

  /** A JSON object; a key that is not in the map is `undefined`. */
  type Object = map<string, Value>

  /** `o[k]`, with `None` for `undefined`. */
  function Get(o: Object, k: string): (r: Option<Value>)
    ensures r.Some? <==> k in o
    ensures r.Some? ==> r.value == o[k]
  {
    if k in o then Some(o[k]) else None
  }

  /** JavaScript truthiness: `undefined`, `null`, `false`, `0` and `""` are falsy. */
  predicate Truthy(v: Option<Value>)
  {
    match v
    case None => false
    case Some(Null) => false
    case Some(Bool(b)) => b
    case Some(Num(n)) => n != 0
    case Some(Str(s)) => |s| > 0
    case Some(Obj(_)) => true
  }

  /** `undefined` or `null`. */
  predicate Nullish(v: Option<Value>)
  {
    v.None? || v.value.Null?
  }

  /** `v ?? d`: the default replaces only a nullish value. */
  function Coalesce(v: Option<Value>, d: Value): (r: Value)
    ensures Nullish(v) ==> r == d
    ensures !Nullish(v) ==> r == v.value
  {
    if Nullish(v) then d else v.value
  }

  /** `v?.k`: a key of an object; any other value has no own keys. */
  function Member(v: Option<Value>, k: string): (r: Option<Value>)
    ensures r.Some? <==> v.Some? && v.value.Obj? && k in v.value.fields
    ensures r.Some? ==> r.value == v.value.fields[k]
  {
    match v
    case Some(Obj(m)) => Get(m, k)
    case _ => None
  }

  /** The keys `{...v}` copies: those of an object, none for `undefined`, `null`,
      booleans and numbers. */
  function Spread(v: Option<Value>): (r: Object)
    ensures v.Some? && v.value.Obj? ==> r == v.value.fields
    ensures !(v.Some? && v.value.Obj?) ==> r == map[]
  {
    match v
    case Some(Obj(m)) => m
    case _ => map[]
  }

  /** The keys of `o` among `keys`, as `JSON.stringify({k: o.k, ...})` writes them:
      a key whose value is `undefined` is dropped. */
  function Pick(o: Object, keys: set<string>): (r: Object)
    ensures r.Keys == o.Keys * keys
    ensures forall k :: k in r ==> r[k] == o[k]
  {
    map k | k in o.Keys * keys :: o[k]
  }
}
