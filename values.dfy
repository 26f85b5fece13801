/** JavaScript values as the request-lifecycle code sees them.
    Objects are finite maps from property names to values; functions,
    promises and other host objects are opaque tokens. */
module Values {

  datatype Option<+T> = None | Some(value: T)

  datatype Value =
    | Undefined
    | Null
    | Bool(b: bool)
    | Num(n: int)
    | Str(s: string)
    | Symbol(id: nat)                     // `Symbol(n)`: unique per description here
    | List(items: seq<Value>)             // an array
    | Obj(fields: map<string, Value>)     // a plain object
    | Func(name: string)                  // a function or closure, never called by the model
    | Handle(id: nat)                     // an opaque host object such as a promise
    | Err(name: string, message: string)  // an instance of `Error` (or a subclass)
    | Response(ok: bool, body: Value)     // a fetch response whose `json()` yields `body`

  /** The outcome of a synchronous JavaScript call: it returns or it throws. */
  datatype Sync = Returned(value: Value) | Threw(error: Value)

  /** A lifecycle state: the own enumerable fields of the state object. */
  type State = map<string, Value>

  /** JavaScript truthiness (`NaN` is not modelled: numbers are integers). */
  predicate Truthy(v: Value) {
    match v
    case Undefined => false
    case Null => false
    case Bool(b) => b
    case Num(n) => n != 0
    case Str(s) => s != ""
    case _ => true
  }

  /** The string `typeof v` yields. */
  function TypeOf(v: Value): (r: string)
    ensures r == "function" <==> v.Func?
    ensures r == "undefined" <==> v.Undefined?
  {
    match v
    case Undefined => "undefined"
    case Bool(_) => "boolean"
    case Num(_) => "number"
    case Str(_) => "string"
    case Symbol(_) => "symbol"
    case Func(_) => "function"
    case _ => "object"
  }

  /** The own enumerable fields that object spread `{...v}` copies out of `v`.
      Only plain objects contribute fields; `undefined` and `null` contribute none. */
  function Spread(v: Value): (r: map<string, Value>)
    ensures v.Obj? ==> r == v.fields
    ensures !v.Obj? ==> r == map[]
  {
    if v.Obj? then v.fields else map[]
  }

  /** `state[key]`, reading `undefined` for a missing field. */
  function Get(s: State, key: string): (r: Value)
    ensures key in s ==> r == s[key]
    ensures key !in s ==> r.Undefined?
  {
    if key in s then s[key] else Undefined
  }

  /** Whether `state.status === status`. */
  predicate HasStatus(s: State, status: string) {
    Get(s, "status") == Str(status)
  }

  /** `e instanceof Error && e.name === 'AbortError'`. */
  predicate IsAbortError(e: Value) {
    e.Err? && e.name == "AbortError"
  }

  /** The error that src/AbortError.js constructs when an operation is aborted. */
  const AbortErrorValue: Value := Err("AbortError", "The operation was aborted.")

  /** The error raised when a property of `undefined`/`null`, or a missing method, is used. */
  const TypeErrorValue: Value := Err("TypeError", "not an object or not a function")

  /** ASCII lower-casing; for comparing against "get" it agrees with `toLowerCase`,
      because no other character lower-cases to `g`, `e` or `t`. */
  function ToLowerAscii(s: string): (r: string)
    ensures |r| == |s|
    ensures forall i :: 0 <= i < |s| ==> r[i] == LowerChar(s[i])
  {
    if s == [] then [] else [LowerChar(s[0])] + ToLowerAscii(s[1..])
  }

  function LowerChar(c: char): (r: char)
    ensures 'A' <= c <= 'Z' ==> r as int == c as int + 32
    ensures !('A' <= c <= 'Z') ==> r == c
  {
    if 'A' <= c <= 'Z' then (c as int + 32) as char else c
  }
}
