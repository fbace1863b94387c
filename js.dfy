/**
 * The loosely typed JavaScript values that the client passes around:
 * decoded response bodies, query parameter values and request data.
 * `undefined` and `null` are kept apart, numbers are integers (NaN, -0 and
 * fractions play no part in the modelled code), and an object is a map
 * from property names to values.
 */
module Js {
  import opened Wrappers

  datatype JsValue =
    | Undefined
    | Null
    | Bool(b: bool)
    | Num(n: int)
    | Str(s: string)
    | Arr(items: seq<JsValue>)
    | Obj(fields: map<string, JsValue>)

  /** JavaScript truthiness: `undefined`, `null`, `false`, `0` and `''` are falsy. */
  predicate Truthy(v: JsValue)
    ensures Truthy(v) <==> v !in {Undefined, Null, Bool(false), Num(0), Str("")}
  {
    match v
    case Undefined => false
    case Null => false
    case Bool(b) => b
    case Num(n) => n != 0
    case Str(s) => s != ""
    case Arr(_) => true
    case Obj(_) => true
  }

  /** The values on which `??` and `?.` fall through. */
  predicate Nullish(v: JsValue) {
    v.Undefined? || v.Null?
  }

  /** `a || b`: the first operand when it is truthy, else the second. */
  function Or(a: JsValue, b: JsValue): (r: JsValue)
    ensures Truthy(r) <==> Truthy(a) || Truthy(b)
    ensures Truthy(a) ==> r == a
    ensures !Truthy(a) ==> r == b
  {
    if Truthy(a) then a else b
  }

  /** `a ?? b`: the first operand unless it is `null` or `undefined`. */
  function Coalesce(a: JsValue, b: JsValue): (r: JsValue)
    ensures Nullish(r) <==> Nullish(a) && Nullish(b)
    ensures !Nullish(a) ==> r == a
    ensures Nullish(a) ==> r == b
  {
    if Nullish(a) then b else a
  }

  /**
   * `s.length` of a JavaScript string: UTF-16 code units, so a character
   * outside the Basic Multilingual Plane counts twice.
   */
  function Utf16Length(s: string): (n: nat)
    ensures |s| <= n <= 2 * |s|
    ensures |s| == 1 ==> n == (if s[0] as int >= 0x1_0000 then 2 else 1)
  {
    if s == [] then 0
    else (if s[0] as int >= 0x1_0000 then 2 else 1) + Utf16Length(s[1..])
  }

  /** The UTF-16 length of a concatenation is the sum of the parts' lengths. */
  lemma {:induction false} Utf16LengthAppend(a: string, b: string)
    ensures Utf16Length(a + b) == Utf16Length(a) + Utf16Length(b)
  {
    if a == [] {
      assert a + b == b;
    } else {
      assert (a + b)[1..] == a[1..] + b;
      Utf16LengthAppend(a[1..], b);
    }
  }

  /** A string of Basic Multilingual Plane characters has one code unit per character. */
  lemma {:induction false} Utf16LengthBmp(s: string)
    requires forall i :: 0 <= i < |s| ==> s[i] as int < 0x1_0000
    ensures Utf16Length(s) == |s|
  {
    if s != [] {
      Utf16LengthBmp(s[1..]);
    }
  }

  /**
   * Property access `v.key` for the property names the client reads
   * (`content`, `items`, `message`, `length`, ...). A plain object gives its
   * own property, or `undefined` when it lacks it; arrays and strings carry
   * only `length`; numbers and booleans carry none of these names. On `null`
   * and `undefined` JavaScript throws a TypeError, so the receiver must not
   * be nullish; every read in the client is guarded.
   */
  function Get(v: JsValue, key: string): (r: JsValue)
    requires !Nullish(v)
    ensures v.Obj? && key in v.fields ==> r == v.fields[key]
    ensures v.Obj? && key !in v.fields ==> r == Undefined
    ensures v.Arr? ==> r == (if key == "length" then Num(|v.items|) else Undefined)
    ensures v.Str? ==> r == (if key == "length" then Num(Utf16Length(v.s)) else Undefined)
    ensures v.Bool? || v.Num? ==> r == Undefined
  {
    match v
    case Obj(fields) => if key in fields then fields[key] else Undefined
    case Arr(items) => if key == "length" then Num(|items|) else Undefined
    case Str(s) => if key == "length" then Num(Utf16Length(s)) else Undefined
    case Bool(_) => Undefined
    case Num(_) => Undefined
  }

  /**
   * Optional chaining `v?.length`: `undefined` on a nullish receiver,
   * otherwise the `length` property.
   */
  function OptionalLength(v: JsValue): (r: JsValue)
    ensures Nullish(v) ==> r == Undefined
    ensures v.Arr? ==> r == Num(|v.items|)
    ensures v.Str? ==> r == Num(Utf16Length(v.s))
    ensures v.Obj? ==> r == Get(v, "length")
    ensures v.Bool? || v.Num? ==> r == Undefined
  {
    if Nullish(v) then Undefined else Get(v, "length")
  }

  /** The largest integer magnitude a JavaScript number holds exactly. */
  const MaxExactInteger := 0x20_0000_0000_0000

  /**
   * A value JSON can carry unchanged: no `undefined` anywhere inside, and no
   * number beyond 2^53 in magnitude.
   */
  predicate JsonValue(v: JsValue) {
    match v
    case Undefined => false
    case Null => true
    case Bool(_) => true
    case Num(n) => -MaxExactInteger <= n <= MaxExactInteger
    case Str(_) => true
    case Arr(items) => forall i :: 0 <= i < |items| ==> JsonValue(items[i])
    case Obj(fields) => forall k :: k in fields ==> JsonValue(fields[k])
  }

  /**
   * `JSON.parse` and `JSON.stringify`, whose internals are not part of this
   * model: parsing is a partial function (None where it would throw).
   */
  datatype JsonCodec = JsonCodec(parse: string -> Option<JsValue>, stringify: JsValue -> string)

  /**
   * A codec whose parser reads back every JSON value its serialiser writes
   * (values holding `undefined` are changed by `JSON.stringify`, and numbers
   * beyond 2^53 by `JSON.parse`, so they are excluded).
   */
  ghost predicate RoundTrips(codec: JsonCodec) {
    forall v :: JsonValue(v) ==> codec.parse(codec.stringify(v)) == Some(v)
  }
}
