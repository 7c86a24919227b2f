/**
 * The JavaScript values the handlers build and inspect, and the few built-in
 * operations on them that the modelled code relies on: truthiness (`x || d`),
 * property reads (`x.k`, `x?.k`), default parameters, `Number#toString` on
 * integers and the global `parseInt` without a radix.
 *
 * Numbers are restricted to integers: no model value is fractional, NaN or
 * infinite (NaN only appears as the `None` result of `ParseInt`).
 */
module Js {
  import opened Wrappers

  datatype JsValue =
    | Undefined
    | Null
    | Bool(b: bool)
    | Num(n: int)
    | Str(s: string)
    | Arr(items: seq<JsValue>)
    | Obj(fields: map<string, JsValue>)
      /** A database identifier (a BSON ObjectId): `typeof` says 'object', and it has no
          `name`, `phone`, `message`, `data` or `error` property. */
    | ObjectId(hex: string)

  const EmptyObject: JsValue := Obj(map[])

  /** `!!v` */
  predicate Truthy(v: JsValue) {
    match v
    case Undefined => false
    case Null => false
    case Bool(b) => b
    case Num(n) => n != 0
    case Str(s) => s != ""
    case _ => true
  }

  /** `typeof v === 'object'` (true for null, arrays, plain objects and ObjectIds). */
  predicate IsObjectType(v: JsValue) {
    v.Null? || v.Arr? || v.Obj? || v.ObjectId?
  }

  /** `v?.k`: the own property k of a plain object, otherwise undefined. */
  function Get(v: JsValue, k: string): JsValue {
    if v.Obj? && k in v.fields then v.fields[k] else Undefined
  }

  /** `a || b` */
  function Or(a: JsValue, b: JsValue): JsValue {
    if Truthy(a) then a else b
  }

  /** The value a parameter with default d receives when the caller passes v. */
  function Default(v: JsValue, d: JsValue): JsValue {
    if v.Undefined? then d else v
  }

  /** `Math.ceil(a / b)` for a positive divisor: the least q with q * b >= a. */
  function CeilDiv(a: int, b: int): (q: int)
    requires b > 0
    ensures q * b >= a && (q - 1) * b < a
    ensures a >= 0 ==> q >= 0
  {
    var m := (-a) / b;
    assert -a == m * b + (-a) % b;
    -m
  }

  // ---------------------------------------------------------------------------
  // Number#toString for integers

  predicate IsDecimalDigit(c: char) {
    '0' <= c <= '9'
  }

  predicate AllDecimalDigits(s: string) {
    forall i :: 0 <= i < |s| ==> IsDecimalDigit(s[i])
  }

  function DigitChar(d: nat): char
    requires d < 10
  {
    ('0' as int + d) as char
  }

  /** The decimal text of n: digits only, no leading zero. */
  function NatToString(n: nat): (s: string)
    ensures |s| >= 1 && AllDecimalDigits(s)
    ensures s[0] == '0' ==> n == 0 && s == "0"
    decreases n
  {
    if n < 10 then [DigitChar(n)] else NatToString(n / 10) + [DigitChar(n % 10)]
  }

  /** `i.toString()` */
  function IntToString(i: int): (s: string)
    ensures |s| >= 1
    ensures i >= 0 ==> AllDecimalDigits(s)
    ensures i < 0 <==> s[0] == '-'
  {
    if i < 0 then "-" + NatToString(-i) else NatToString(i)
  }

  // ---------------------------------------------------------------------------
  // parseInt(s) with no radix argument

  /** The characters parseInt skips before the number: WhiteSpace and LineTerminator of ECMAScript. */
  predicate IsJsSpace(c: char) {
    || c == '\t' || c == '\n' || c == '\U{000B}' || c == '\U{000C}' || c == '\r' || c == ' '
    || c == '\U{00A0}' || c == '\U{1680}' || ('\U{2000}' <= c <= '\U{200A}')
    || c == '\U{2028}' || c == '\U{2029}' || c == '\U{202F}' || c == '\U{205F}'
    || c == '\U{3000}' || c == '\U{FEFF}'
  }

  function TrimStart(s: string): (t: string)
    ensures |t| <= |s| && t == s[|s| - |t|..]
    ensures |t| > 0 ==> !IsJsSpace(t[0])
  {
    if |s| > 0 && IsJsSpace(s[0]) then TrimStart(s[1..]) else s
  }

  /** The value of c as a digit in any radix up to 36; 36 when c is no digit at all. */
  function DigitValue(c: char): (d: nat)
    ensures d <= 36
  {
    if '0' <= c <= '9' then c as int - '0' as int
    else if 'a' <= c <= 'z' then c as int - 'a' as int + 10
    else if 'A' <= c <= 'Z' then c as int - 'A' as int + 10
    else 36
  }

  predicate AllDigitsIn(s: string, radix: nat) {
    forall i :: 0 <= i < |s| ==> DigitValue(s[i]) < radix
  }

  /** The length of the longest prefix of s made of radix digits. */
  function DigitPrefixLength(s: string, radix: nat): (k: nat)
    ensures k <= |s| && AllDigitsIn(s[..k], radix)
    ensures k < |s| ==> DigitValue(s[k]) >= radix
  {
    if |s| == 0 || DigitValue(s[0]) >= radix then 0
    else
      var k := 1 + DigitPrefixLength(s[1..], radix);
      assert s[..k] == [s[0]] + s[1..][..k - 1];
      k
  }

  /** The value of a string of radix digits, most significant first. */
  function DigitsValue(s: string, radix: nat): (v: nat)
    requires AllDigitsIn(s, radix)
  {
    if |s| == 0 then 0
    else DigitsValue(s[..|s| - 1], radix) * radix + DigitValue(s[|s| - 1])
  }

  function ParseDigits(sign: int, u: string, radix: nat): Option<int> {
    var k := DigitPrefixLength(u, radix);
    if k == 0 then None else Some(sign * DigitsValue(u[..k], radix))
  }

  /**
   * `parseInt(s)`: skip leading white space, read an optional sign, then a
   * hexadecimal number after "0x"/"0X" or else a decimal one, stopping at the
   * first character that is not a digit. `None` stands for NaN (no digit read).
   */
  function ParseInt(s: string): (r: Option<int>)
    ensures |TrimStart(s)| == 0 ==> r.None?
    ensures r.Some? && r.value < 0 ==> TrimStart(s)[0] == '-'
  {
    var t := TrimStart(s);
    var sign := if |t| > 0 && t[0] == '-' then -1 else 1;
    var u := if |t| > 0 && (t[0] == '-' || t[0] == '+') then t[1..] else t;
    if |u| >= 2 && u[0] == '0' && (u[1] == 'x' || u[1] == 'X') then ParseDigits(sign, u[2..], 16)
    else ParseDigits(sign, u, 10)
  }

  lemma {:induction false} AllDecimalPrefix(s: string)
    requires AllDecimalDigits(s)
    ensures DigitPrefixLength(s, 10) == |s|
    decreases |s|
  {
    if |s| > 0 {
      AllDecimalPrefix(s[1..]);
    }
  }

  lemma {:induction false} DecimalValue(n: nat)
    ensures AllDigitsIn(NatToString(n), 10)
    ensures DigitsValue(NatToString(n), 10) == n
    decreases n
  {
    var s := NatToString(n);
    if n >= 10 {
      DecimalValue(n / 10);
      assert s[..|s| - 1] == NatToString(n / 10);
    }
  }

  /** Reading the digits of a decimal text gives its number. */
  lemma DigitsOfNat(n: nat)
    ensures ParseDigits(1, NatToString(n), 10) == Some(n)
  {
    var s := NatToString(n);
    AllDecimalPrefix(s);
    DecimalValue(n);
    assert s[..|s|] == s;
  }

  /** parseInt reads back what Number#toString writes, for every natural number. */
  lemma ParseNatToString(n: nat)
    ensures ParseInt(NatToString(n)) == Some(n)
  {
    var s := NatToString(n);
    DecimalText(s);
    DigitsOfNat(n);
  }

  /** A text starting with a digit other than a "0x" prefix is read as decimal, without sign or white space. */
  lemma DecimalText(s: string)
    requires |s| > 0 && IsDecimalDigit(s[0])
    requires s[0] == '0' ==> |s| == 1
    ensures ParseInt(s) == ParseDigits(1, s, 10)
  {
    assert !IsJsSpace(s[0]);
    assert TrimStart(s) == s;
    assert s[0] != '-' && s[0] != '+';
    assert !(|s| >= 2 && s[0] == '0' && (s[1] == 'x' || s[1] == 'X'));
  }

  /** parseInt reads back what Number#toString writes, for every integer. */
  lemma ParseIntToString(i: int)
    ensures ParseInt(IntToString(i)) == Some(i)
  {
    if i >= 0 {
      ParseNatToString(i);
    } else {
      var d := NatToString(-i);
      var s := IntToString(i);
      assert s == "-" + d;
      assert TrimStart(s) == s;
      assert s[1..] == d;
      AllDecimalPrefix(d);
      DecimalValue(-i);
      assert d[..|d|] == d;
    }
  }
}
