/**
 * The parsed JSON values that the client keeps in its local slots and that
 * travel in request and response bodies. Objects are flat maps from key to
 * value (the application never nests them), and JavaScript's truthiness,
 * the `a || b` default and the object spread `{ ...a, ...b }` are defined
 * here once.
 */
module Json {
  import opened Wrappers

  datatype Json = JNull | JBool(b: bool) | JNum(n: int) | JStr(s: string)

  /** A JSON object: the `user` blob, a server response, a request body. */
  type Blob = map<string, Json>

  /** JavaScript truthiness of a value; an absent key reads as `undefined`, which is falsy. */
  predicate Truthy(v: Option<Json>) {
    match v
    case None => false
    case Some(JNull) => false
    case Some(JBool(b)) => b
    case Some(JNum(n)) => n != 0
    case Some(JStr(s)) => s != ""
  }

  /** `obj.key`, with `None` for `undefined`. */
  function Get(obj: Blob, key: string): (r: Option<Json>)
    ensures r.Some? <==> key in obj
    ensures r.Some? ==> r.value == obj[key]
  {
    if key in obj then Some(obj[key]) else None
  }

  /** `v || fallback` */
  function Or(v: Option<Json>, fallback: Json): (r: Json)
    ensures Truthy(v) ==> r == v.value
    ensures !Truthy(v) ==> r == fallback
  {
    if Truthy(v) then v.value else fallback
  }

  /** `{ ...base, ...over }`: the right operand wins on shared keys. */
  function Merge(base: Blob, over: Blob): (r: Blob)
    ensures r.Keys == base.Keys + over.Keys
    ensures forall k :: k in over ==> r[k] == over[k]
    ensures forall k :: k in base && k !in over ==> r[k] == base[k]
  {
    base + over
  }

  /**
   * `parseInt(v)` of a value that is already a number: the number itself;
   * anything else is NaN, which `JSON.stringify` writes as `null`.
   */
  function ParseIntJson(v: Json): (r: Json)
    ensures r.JNum? <==> v.JNum?
    ensures r.JNum? ==> r == v
    ensures !r.JNum? ==> r == JNull
  {
    if v.JNum? then v else JNull
  }
}
