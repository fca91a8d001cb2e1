/**
 * JavaScript values as the worker and the front end see them after `JSON.parse`, with the
 * truthiness, `||` and optional-chaining (`?.`) rules both rely on, and the HTTP exchange with an
 * upstream service that `fetch` stands for.
 */
module JsValues {
  import opened Wrappers

  datatype JsValue =
    | Undefined
    | Null
    | Bool(b: bool)
    | Num(n: real)
    | Str(s: string)
    | Arr(items: seq<JsValue>)
    | Obj(fields: map<string, JsValue>)

  /** JavaScript truthiness: `undefined`, `null`, `false`, `0` and `""` are falsy; arrays and objects never are. */
  predicate Truthy(v: JsValue) {
    match v
    case Undefined => false
    case Null => false
    case Bool(b) => b
    case Num(n) => n != 0.0
    case Str(s) => s != ""
    case Arr(_) => true
    case Obj(_) => true
  }

  /** `a || b`: the first operand when it is truthy, else the second. */
  function Or(a: JsValue, b: JsValue): (r: JsValue)
    ensures r == a || r == b
    ensures Truthy(r) <==> Truthy(a) || Truthy(b)
  {
    if Truthy(a) then a else b
  }

  /**
   * `v?.[key]`: a property of an object, or `undefined` when the object lacks it or `v` is not
   * an object. The property names the model reads are not properties of strings or numbers.
   */
  function Get(v: JsValue, key: string): (r: JsValue)
    ensures v.Obj? && key in v.fields ==> r == v.fields[key]
    ensures !v.Obj? || key !in v.fields ==> r == Undefined
  {
    if v.Obj? && key in v.fields then v.fields[key] else Undefined
  }

  /** `v?.[0]`: the first element of an array (or property "0" of an object), else `undefined`. */
  function First(v: JsValue): (r: JsValue)
    ensures v.Arr? && v.items != [] ==> r == v.items[0]
    ensures v.Obj? && "0" in v.fields ==> r == v.fields["0"]
    ensures v.Str? && v.s != [] ==> r == Str([v.s[0]])
    ensures v.Undefined? || v.Null? ==> r == Undefined
  {
    match v
    case Arr(items) => if items != [] then items[0] else Undefined
    case Obj(fields) => if "0" in fields then fields["0"] else Undefined
    case Str(s) => if s != [] then Str([s[0]]) else Undefined
    case _ => Undefined
  }

  /**
   * `v.key` without optional chaining: reading a property of `null` or `undefined` throws a
   * TypeError (None here).
   */
  function Member(v: JsValue, key: string): (r: Option<JsValue>)
    ensures r.None? <==> v.Undefined? || v.Null?
    ensures r.Some? ==> r.value == Get(v, key)
  {
    if v.Undefined? || v.Null? then None else Some(Get(v, key))
  }

  /** An object with one property, `{ key: value }`. */
  function Single(key: string, value: JsValue): JsValue {
    Obj(map[key := value])
  }

  /** A request the code sends with `fetch`: the URL, the headers and the JSON body. */
  datatype Call = Call(url: string, headers: map<string, string>, payload: JsValue)

  /**
   * What `fetch` gives back. `Unreachable` is a rejected fetch (network failure). A reply has
   * `response.ok`, the status, the body read by `response.text()`, and the body read by
   * `response.json()`, None when the body is not JSON (the call throws).
   */
  datatype Upstream =
    | Unreachable
    | Reply(ok: bool, status: int, text: string, json: Option<JsValue>)

  /** The `Content-Type` header every JSON request and response carries. */
  const JsonContentType: map<string, string> := map["Content-Type" := "application/json"]
}
