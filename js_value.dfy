/**
 * The JavaScript values the webhook handler works on: what `JSON.parse` and `express.json()` produce,
 * plus `undefined`, which a property read of a missing key yields and which the normalizer may
 * store in its output object.
 */
module JsValue {

  /**
   * A JavaScript value. An object keeps its own keys in insertion order (`keys`, which is the
   * `Object.keys` order for the non-numeric keys used here) next to its properties (`props`);
   * JSON numbers are modelled as reals.
   */
  datatype Value =
    | Undefined
    | Null
    | Bool(b: bool)
    | Num(n: real)
    | Str(s: string)
    | Arr(elems: seq<Value>)
    | Obj(keys: seq<string>, props: map<string, Value>)

  /** The exceptions the modelled code can raise. */
  datatype Exception = TypeError | SyntaxError

  const EmptyObject: Value := Obj([], map[])
  const EmptyArray: Value := Arr([])

  /** `v === undefined || v === null`: reading a property of such a value throws a TypeError. */
  predicate IsNullish(v: Value)
  {
    v.Undefined? || v.Null?
  }

  /** JavaScript truthiness. `NaN` is falsy too, but JSON cannot produce it. */
  predicate Truthy(v: Value)
  {
    match v
    case Undefined => false
    case Null => false
    case Bool(b) => b
    case Num(n) => n != 0.0
    case Str(s) => s != ""
    case Arr(_) => true
    case Obj(_, _) => true
  }

  /** `x || fallback` */
  function Or(x: Value, fallback: Value): Value
  {
    if Truthy(x) then x else fallback
  }

  /**
   * `v.key` (and `v?.key`) for a value that is not nullish: an object's own property, or
   * `undefined`. None of the keys the core reads is a property of strings, numbers or arrays.
   */
  function Get(v: Value, key: string): Value
  {
    if v.Obj? && key in v.props then v.props[key] else Undefined
  }

  /** Every object lists exactly its own keys, as JavaScript objects do. */
  ghost predicate WellFormed(v: Value)
  {
    match v
    case Arr(elems) => forall i | 0 <= i < |elems| :: WellFormed(elems[i])
    case Obj(keys, props) =>
      && (forall k :: k in keys <==> k in props)
      && (forall k | k in props :: WellFormed(props[k]))
    case _ => true
  }
}
