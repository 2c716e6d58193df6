/**
  The JavaScript values the client layer passes around: parsed JSON bodies,
  the envelopes it builds, and the errors it throws.
 */
module Values {
  import opened Text

  datatype Option<+T> = None | Some(value: T)

  /**
    A JavaScript value as far as this layer observes it. Numbers are
    integer-valued. An array carries, beside its elements, the named
    properties a caller attached to it (`items.success = ...`).
   */
  datatype Value =
    | Undefined
    | Null
    | Bool(b: bool)
    | Num(n: int)
    | Str(s: string)
    | Arr(items: seq<Value>, props: map<string, Value>)
    | Obj(fields: map<string, Value>)

  /** What `throw` raises: an `Error` built by the code with a message, an
      engine `TypeError` (a property read on null, a missing method), or the
      `SyntaxError` of `JSON.parse` on text that is not JSON. */
  datatype Thrown = Error(message: string) | TypeError | SyntaxError

  /** The settled outcome of an `async` API function: a value or a rejection. */
  datatype Result<+T> = Ok(value: T) | Err(error: Thrown)

  /** A plain array as JSON parsing or `map` builds it. */
  function Array(items: seq<Value>): Value {
    Arr(items, map[])
  }

  /** JavaScript truthiness: what `if (v)`, `v && ...` and `v || ...` test. */
  predicate Truthy(v: Value) {
    match v
    case Undefined => false
    case Null => false
    case Bool(b) => b
    case Num(n) => n != 0
    case Str(s) => s != ""
    case Arr(_, _) => true
    case Obj(_) => true
  }

  /** `null` or `undefined`: reading a property of it throws a TypeError. */
  predicate Nullish(v: Value) {
    v.Null? || v.Undefined?
  }

  /** The property read `v.k`, `undefined` when there is no such property. */
  function Get(v: Value, k: string): (r: Value)
    ensures v.Obj? && k in v.fields ==> r == v.fields[k]
    ensures v.Arr? && k in v.props ==> r == v.props[k]
    ensures !v.Obj? && !v.Arr? ==> r == Undefined
  {
    match v
    case Obj(fields) => if k in fields then fields[k] else Undefined
    case Arr(_, props) => if k in props then props[k] else Undefined
    case _ => Undefined
  }

  /** `String(v)`, also what a template literal and `localStorage.setItem` make of `v`. */
  function ToText(v: Value): string {
    match v
    case Undefined => "undefined"
    case Null => "null"
    case Bool(b) => if b then "true" else "false"
    case Num(n) => IntToDecimal(n)
    case Str(s) => s
    case Arr(items, _) =>
      Join(seq(|items|, i requires 0 <= i < |items| =>
        if Nullish(items[i]) then "" else ToText(items[i])), ",")
    case Obj(_) => "[object Object]"
  }

  /** `new Error(v)`: no message for `undefined`, otherwise `String(v)`. */
  function ErrorOf(v: Value): (e: Thrown)
    ensures e.Error?
    ensures v.Str? ==> e.message == v.s
    ensures v.Undefined? ==> e.message == ""
  {
    Error(if v.Undefined? then "" else ToText(v))
  }

  /** `v.trim()` on a value already known to be truthy: only strings have the method. */
  function TrimValue(v: Value): (r: Result<string>)
    ensures r.Ok? <==> v.Str?
    ensures r.Ok? ==> r.value == Trim(v.s)
    ensures r.Err? ==> r.error == TypeError
  {
    if v.Str? then Ok(Trim(v.s)) else Err(TypeError)
  }

  /** The test `!v || !v.trim()` written before a request: `Ok(true)` when the
      value is missing or blank, `Ok(false)` for a non-blank string, and the
      TypeError `trim` raises on any other truthy value. */
  function MissingOrBlank(v: Value): (r: Result<bool>)
    ensures !Truthy(v) ==> r == Ok(true)
    ensures Truthy(v) && v.Str? ==> r == Ok(Blank(v.s))
    ensures Truthy(v) && !v.Str? ==> r == Err(TypeError)
  {
    if !Truthy(v) then Ok(true)
    else match TrimValue(v)
      case Ok(t) => Ok(t == "")
      case Err(e) => Err(e)
  }
}
