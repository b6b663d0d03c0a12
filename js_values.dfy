/**
 * The JavaScript values the store handles: what JSON.parse produces, plus
 * `undefined`, which reading a missing property yields.  Numbers are
 * modelled as integers.
 */
module JsValues {

  datatype Value =
    | Undefined
    | Null
    | Bool(b: bool)
    | Num(n: int)
    | Str(s: string)
    | Arr(items: seq<Value>)
    | Obj(fields: map<string, Value>)
  {
    /** `null` or `undefined`: reading a property of it throws a TypeError. */
    predicate IsNullish() {
      Undefined? || Null?
    }

    /** JavaScript truthiness: `undefined`, `null`, `false`, `0` and `''` are falsy. */
    predicate Truthy() {
      match this
      case Undefined => false
      case Null => false
      case Bool(b) => b
      case Num(n) => n != 0
      case Str(s) => s != ""
      case Arr(_) => true
      case Obj(_) => true
    }

    /** Not an array or an object, so `===` compares it by value. */
    predicate IsPrimitive() {
      !Arr? && !Obj?
    }
  }

  /** What JSON.parse does with a text: a value, or a thrown SyntaxError. */
  datatype ParseResult = Malformed | Parsed(value: Value)

  /**
   * `v?.key`: the property `key` of `v`, `undefined` when `v` is nullish or
   * lacks it.  A parsed JSON value has only own properties, and none of the
   * keys the store reads is inherited from a prototype.
   */
  function Get(v: Value, key: string): Value {
    if v.Obj? && key in v.fields then v.fields[key] else Undefined
  }

  /**
   * Whether converting `v` to a primitive throws a TypeError, as `new
   * Date(v)` does.  A parsed object inherits callable `valueOf` and
   * `toString`, but an own `toString` key shadows the inherited one with a
   * non-callable value, and the inherited `valueOf` returns the object
   * itself, so no conversion succeeds.  An array converts through `join`,
   * which converts each element the same way.  Primitives never throw.
   */
  predicate ToPrimitiveThrows(v: Value)
    decreases v
  {
    match v
    case Obj(fields) => "toString" in fields
    case Arr(items) => exists i | 0 <= i < |items| :: ToPrimitiveThrows(items[i])
    case _ => false
  }

  /** `a || b`. */
  function Or(a: Value, b: Value): (r: Value)
    ensures r == a || r == b
    ensures r.Truthy() <==> a.Truthy() || b.Truthy()
    ensures a.Truthy() ==> r == a
    ensures !a.Truthy() ==> r == b
  {
    if a.Truthy() then a else b
  }

  /**
   * `a === b` for two values produced by different JSON.parse calls: such
   * arrays and objects are distinct references and never equal, primitives
   * are compared by value.
   */
  function StrictEquals(a: Value, b: Value): (r: bool)
    ensures r ==> a == b
    ensures r <==> a == b && b.IsPrimitive()
    ensures a.Truthy() != b.Truthy() ==> !r
    ensures !a.IsPrimitive() || !b.IsPrimitive() ==> !r
  {
    a.IsPrimitive() && a == b
  }

  /**
   * `Object.keys(v).length`: the keys of an object, the indices of an array
   * or of a string, none for other primitives (the store never asks it of
   * a nullish value, for which JavaScript throws).
   */
  function KeyCount(v: Value): (n: nat)
    ensures v.Obj? ==> n == |v.fields|
    ensures v.Arr? ==> n == |v.items|
    ensures n > 0 <==> (v.Obj? && v.fields != map[]) || (v.Arr? && v.items != []) || (v.Str? && v.s != "")
  {
    match v
    case Obj(fields) => |fields|
    case Arr(items) => |items|
    case Str(s) => |s|
    case _ => 0
  }
}
