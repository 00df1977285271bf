/**
 * The slice of JavaScript semantics the broker and its clients rely on:
 * JSON-like values carried in events, property reads that yield `undefined`
 * for a missing key, object spread / `Object.assign`, and the string a
 * template literal `${v}` produces for a value.
 */
module Js {

  /** A JavaScript value as it travels through the transport. Objects are
      compared structurally here; the ids, names and numbers the system uses
      as keys are all primitives. */
  datatype Value =
    | Undefined
    | Null
    | Bool(b: bool)
    | Num(n: int)
    | Str(s: string)
    | Obj(fields: map<string, Value>)

  /** `v.key`: the property if `v` is an object that has it, `undefined` otherwise.
      (Reading a property of `undefined` or `null` throws; callers that can
      meet those values test for them first.) */
  function Field(v: Value, key: string): (r: Value)
    ensures r != Undefined ==> v.Obj? && key in v.fields && r == v.fields[key]
  {
    if v.Obj? && key in v.fields then v.fields[key] else Undefined
  }

  /** Reading a property (`data.id`, `data.message_id`, destructuring
      `{ id }`) throws a `TypeError` on exactly these two values. */
  predicate Readable(v: Value)
  {
    !v.Undefined? && !v.Null?
  }

  /** `{ ...target, ...source }` and `Object.assign(target, source)`: every key
      of either object, the source's value winning. */
  function Assign(target: map<string, Value>, source: map<string, Value>): (r: map<string, Value>)
    ensures r.Keys == target.Keys + source.Keys
    ensures forall k :: k in source ==> r[k] == source[k]
    ensures forall k :: k in target && k !in source ==> r[k] == target[k]
  {
    target + source
  }

  predicate IsDigit(c: char) {
    '0' <= c <= '9'
  }

  function Digit(d: nat): (c: char)
    requires d < 10
    ensures IsDigit(c) && c as int - '0' as int == d
  {
    (48 + d) as char
  }

  /** The decimal numeral of a natural number, as `String(n)` writes it. */
  function NatToDecimal(n: nat): (r: string)
    ensures 1 <= |r|
    ensures |r| == 1 <==> n < 10
    ensures forall i :: 0 <= i < |r| ==> IsDigit(r[i])
  {
    if n < 10 then [Digit(n)] else NatToDecimal(n / 10) + [Digit(n % 10)]
  }

  /** Distinct numbers have distinct numerals. */
  lemma {:induction false} NatToDecimalInjective(a: nat, b: nat)
    requires NatToDecimal(a) == NatToDecimal(b)
    ensures a == b
  {
    var s := NatToDecimal(a);
    if a < 10 || b < 10 {
      assert a < 10 && b < 10;
      assert Digit(a) == s[0] == Digit(b);
    } else {
      assert NatToDecimal(a / 10) == s[..|s| - 1] == NatToDecimal(b / 10);
      assert Digit(a % 10) == s[|s| - 1] == Digit(b % 10);
      NatToDecimalInjective(a / 10, b / 10);
    }
  }

  /** The numeral of an integer-valued JavaScript number. */
  function IntToDecimal(i: int): string
  {
    if i < 0 then "-" + NatToDecimal(-i) else NatToDecimal(i)
  }

  lemma IntToDecimalInjective(a: int, b: int)
    requires IntToDecimal(a) == IntToDecimal(b)
    ensures a == b
  {
    assert a < 0 <==> IntToDecimal(a)[0] == '-';
    assert b < 0 <==> IntToDecimal(b)[0] == '-';
    if a < 0 && b < 0 {
      assert NatToDecimal(-a) == IntToDecimal(a)[1..] == NatToDecimal(-b);
      NatToDecimalInjective(-a, -b);
    } else if 0 <= a && 0 <= b {
      NatToDecimalInjective(a, b);
    }
  }

  /** The text `${v}` inserts into a template literal. */
  function ToJsString(v: Value): (s: string)
    ensures v.Str? ==> s == v.s
    ensures v.Num? ==> 1 <= |s| && (s[0] == '-' <==> v.n < 0)
    ensures v.Num? ==> forall i :: 0 < i < |s| ==> IsDigit(s[i])
    ensures v.Num? && 0 <= v.n ==> IsDigit(s[0])
  {
    match v
    case Undefined => "undefined"
    case Null => "null"
    case Bool(b) => if b then "true" else "false"
    case Num(n) => IntToDecimal(n)
    case Str(s) => s
    case Obj(_) => "[object Object]"
  }

  /** How a call ends: it returns a value, or it throws. */
  datatype Completion<T> = Normal(value: T) | Throw(error: Value)

  /** `new Error(message)` as the value that is thrown or rejected with. */
  function ErrorObject(message: string): (e: Value)
    ensures Field(e, "message") == Str(message)
  {
    Obj(map["message" := Str(message)])
  }

  /** The `TypeError` the engine throws when a missing property is called or
      read through (`undefined(...)`, `undefined.of`); its message is the
      engine's and is not modelled. */
  const TypeError: Value := Obj(map["name" := Str("TypeError")])
}
