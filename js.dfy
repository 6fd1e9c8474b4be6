/**
 * The JavaScript values the core reads from configuration and requests.
 * Numbers are integers (fractions, NaN and infinities are not modelled);
 * a function value is represented by an opaque identity.
 */
module Js {
  import opened Wrappers
  import Dict

  datatype Value =
    | Undefined
    | Null
    | Bool(b: bool)
    | Num(n: int)
    | Str(s: string)
    | Arr(items: seq<Value>)
    | Obj(fields: seq<(string, Value)>)
    | Func(fid: nat)

  /** The errors the core can throw. */
  datatype JsError = TypeError | LogicError(message: string) | SyntaxError

  /** JavaScript truthiness (`!!v`). */
  predicate Truthy(v: Value) {
    match v
    case Undefined => false
    case Null => false
    case Bool(b) => b
    case Num(n) => n != 0
    case Str(s) => s != ""
    case _ => true
  }

  /** `v instanceof Object`: arrays, plain objects and functions. */
  predicate IsObject(v: Value) {
    v.Arr? || v.Obj? || v.Func?
  }

  /** The decimal spelling of a natural number, as used for array index keys. */
  function Decimal(n: nat): (s: string)
    ensures |s| >= 1
    decreases n
  {
    if n < 10 then [DigitChar(n)] else Decimal(n / 10) + [DigitChar(n % 10)]
  }

  function DigitChar(d: nat): char
    requires d < 10
  {
    "0123456789"[d]
  }

  /**
   * The enumerable own properties `for (key in v)` visits, in order.
   * A string has none here, although JavaScript visits its indices; the
   * walks that use this function are never given a string.
   */
  function Entries(v: Value): (e: seq<(string, Value)>)
    ensures |e| == if v.Obj? then |v.fields| else if v.Arr? then |v.items| else 0
    ensures forall i | 0 <= i < |e| :: e[i].1 == if v.Obj? then v.fields[i].1 else v.items[i]
  {
    match v
    case Obj(fields) => fields
    case Arr(items) => seq(|items|, i requires 0 <= i < |items| => (Decimal(i), items[i]))
    case _ => []
  }

  /** `v[key]` (also `v.key`): throws a TypeError on `undefined` and `null`. */
  function Prop(v: Value, key: string): (r: Result<Value, JsError>)
    ensures r.Failure? <==> v.Undefined? || v.Null?
    ensures v.Obj? && !Dict.HasKey(v.fields, key) ==> r == Success(Undefined)
  {
    match v
    case Undefined => Failure(TypeError)
    case Null => Failure(TypeError)
    case Obj(fields) => Success(Dict.Get(fields, key).GetOr(Undefined))
    case _ => Success(Undefined)
  }
}
