/**
 * The JavaScript values that flow into class-name helpers, with the two
 * coercions the helpers apply to them: `Boolean(v)` (truthiness) and
 * `String(v)`.
 */
module JsValue {
  import opened JsString

  /**
   * A JavaScript value. Numbers are the integers; objects other than arrays
   * are opaque and told apart by identity only.
   */
  datatype Value =
    | Str(s: string)
    | Num(n: int)
    | Bool(b: bool)
    | Null
    | Undefined
    | Arr(elems: seq<Value>)
    | Obj(id: nat)

  /** A props object: own enumerable properties by name. */
  type Props = map<string, Value>

  /** `props[k]`: a missing property reads as `undefined`. */
  function Get(props: Props, k: string): Value
  {
    if k in props then props[k] else Undefined
  }

  /** `v === null || v === undefined`: the values `??` replaces. */
  predicate IsNullish(v: Value) {
    v.Null? || v.Undefined?
  }

  /** `Boolean(v)`: false exactly for `""`, `0`, `false`, `null` and `undefined`. */
  predicate Truthy(v: Value) {
    match v
    case Str(s) => s != ""
    case Num(n) => n != 0
    case Bool(b) => b
    case Null => false
    case Undefined => false
    case Arr(_) => true
    case Obj(_) => true
  }

  predicate IsDigit(c: char) {
    '0' <= c <= '9'
  }

  predicate AllDigits(s: string) {
    forall i :: 0 <= i < |s| ==> IsDigit(s[i])
  }

  function DigitChar(d: nat): (c: char)
    requires d < 10
    ensures IsDigit(c)
  {
    ('0' as int + d) as char
  }

  /** Decimal notation of a natural number, without leading zeros. */
  function NatToString(n: nat): (r: string)
    ensures r != [] && AllDigits(r)
    ensures |r| > 1 ==> r[0] != '0'
  {
    if n < 10 then [DigitChar(n)] else NatToString(n / 10) + [DigitChar(n % 10)]
  }

  /** The number a string of decimal digits denotes. */
  function DecimalValue(s: string): nat
    requires AllDigits(s)
  {
    if s == [] then 0 else DecimalValue(s[..|s| - 1]) * 10 + (s[|s| - 1] as int - '0' as int)
  }

  /** Reading the decimal notation back gives the number. */
  lemma {:induction false} NatToStringRoundTrip(n: nat)
    ensures DecimalValue(NatToString(n)) == n
  {
    if n >= 10 {
      NatToStringRoundTrip(n / 10);
      var r := NatToString(n);
      assert r[..|r| - 1] == NatToString(n / 10);
    }
  }

  /** `String(n)` for an integer `n`: a minus sign before the magnitude when negative. */
  function IntToString(n: int): (r: string)
  {
    if n < 0 then "-" + NatToString(-n) else NatToString(n)
  }

  /** Decimal notation holds no whitespace and is never empty. */
  lemma IntToStringIsToken(n: int)
    ensures IsToken(IntToString(n))
  {
    var r := IntToString(n);
    forall i | 0 <= i < |r| ensures !IsWs(r[i]) {
      IsWsIsMembership(r[i]);
    }
  }

  /**
   * `String(v)`. An array prints as its elements joined with commas, where
   * `null` and `undefined` elements print as the empty string; any other
   * object prints as `[object Object]`.
   */
  function ToString(v: Value): string
    decreases v, 1
  {
    match v
    case Str(s) => s
    case Num(n) => IntToString(n)
    case Bool(b) => if b then "true" else "false"
    case Null => "null"
    case Undefined => "undefined"
    case Arr(es) => Join(ElementStrings(es), ",")
    case Obj(_) => "[object Object]"
  }

  /** The strings an array's elements contribute to `Array.prototype.join`. */
  function ElementStrings(es: seq<Value>): (r: seq<string>)
    ensures |r| == |es|
    decreases es, 0
  {
    if es == [] then []
    else [if IsNullish(es[0]) then "" else ToString(es[0])] + ElementStrings(es[1..])
  }

  /** A one-element array prints like its element, unless that element is nullish. */
  lemma SingletonArrayString(x: Value)
    ensures ToString(Arr([x])) == if IsNullish(x) then "" else ToString(x)
  {
    assert [x][1..] == [];
  }
}
