/**
 * The JavaScript values the server's handlers see: the parsed JSON request
 * body, the parsed query string, `undefined` for a missing property, and the
 * two pieces of JavaScript semantics the handlers rely on — truthiness and
 * property access, which throws a TypeError on `null` and `undefined`.
 */
module Js {

  /** A JSON value after `JSON.parse`, plus `undefined` (what a missing property reads as).
      Numbers are kept as reals: the handlers only ever ask whether one is zero. */
  datatype JsVal =
    | Undefined
    | Null
    | Bool(b: bool)
    | Num(n: real)
    | Str(s: string)
    | Arr(elems: seq<JsVal>)
    | Obj(props: map<string, JsVal>)

  /** `null` and `undefined`: the values on which `v.k` throws and `v?.k` short-circuits. */
  predicate Nullish(v: JsVal) {
    v.Undefined? || v.Null?
  }

  /** JavaScript truthiness, as used by `&&`, `||` and `if`. `NaN` cannot come out of JSON. */
  predicate Truthy(v: JsVal) {
    match v
    case Undefined => false
    case Null => false
    case Bool(b) => b
    case Num(n) => n != 0.0
    case Str(s) => s != ""
    case Arr(_) => true
    case Obj(_) => true
  }

  /** The property names the webhook handler reads (`"0"` being the index of `x[0]`).
      None of them is `length`, an array index other than 0, or a member inherited
      from the prototype of a JSON value, which is what makes `Own` exact for them. */
  const KEYS: set<string> := {"object", "entry", "0", "changes", "value", "messages", "from", "text", "body"}

  type Key = k: string | k in KEYS witness "body"

  /** The value of `v[key]` when `v` is not nullish; `undefined` on a nullish `v`,
      so that a chain of `Own` calls reads like a chain of `?.` accesses. */
  function Own(v: JsVal, key: Key): (r: JsVal)
    ensures Nullish(v) ==> r == Undefined
    ensures v.Obj? ==> (r != Undefined <==> key in v.props && v.props[key] != Undefined)
    ensures v.Arr? ==> (r != Undefined <==> key == "0" && |v.elems| > 0 && v.elems[0] != Undefined)
    ensures v.Str? ==> (r != Undefined <==> key == "0" && v.s != "")
    ensures r != Undefined ==> Truthy(v)
  {
    match v
    case Obj(props) => if key in props then props[key] else Undefined
    case Arr(elems) => if key == "0" && |elems| > 0 then elems[0] else Undefined
    case Str(s) => if key == "0" && |s| > 0 then Str([s[0]]) else Undefined
    case _ => Undefined
  }

  /** How an expression finished: with a value, or by throwing a TypeError. */
  datatype Completion<+T> = Normal(value: T) | Threw {

    predicate IsFailure() {
      Threw?
    }

    function PropagateFailure<U>(): Completion<U>
      requires Threw?
    {
      Threw
    }

    function Extract(): T
      requires Normal?
    {
      value
    }
  }

  /** The JavaScript property access `v.key` (or `v[0]`): throws on a nullish `v`. */
  function Member(v: JsVal, key: Key): Completion<JsVal> {
    if Nullish(v) then Threw else Normal(Own(v, key))
  }

  /** Whether converting `v` to a string (as a template literal `${v}` does) throws a
      TypeError. A JSON object with an own `toString` property has a non-callable
      `toString`, and its inherited `valueOf` returns the object itself, so no primitive
      is found; an array is joined, so it throws when one of its elements does.
      Every other JSON value converts. */
  predicate ToStringThrows(v: JsVal)
    decreases v
  {
    match v
    case Obj(props) => "toString" in props
    case Arr(elems) => exists i :: 0 <= i < |elems| && ToStringThrows(elems[i])
    case _ => false
  }
}
