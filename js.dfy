/** The JavaScript values the PanStream servers and player handle, and the coercions the code
    applies to them: truthiness and `||`, property reads, `String(x)`, `Number(x)`, `trim()` and
    `toLowerCase()`. Numbers are integral (fractions are not modelled), but NaN is kept, because
    `Number(...)` produces it from malformed upstream fields and it is falsy. */
module Js {

  datatype Option<T> = None | Some(value: T)

  /** How evaluating an expression ends: with a value, or by throwing (a TypeError, a rejected promise). */
  datatype Completion<T> = Normal(value: T) | Thrown

  /** A JavaScript number, restricted to integral values and NaN. */
  datatype JsNum = Int(i: int) | NaN

  datatype Value =
    | Undefined
    | Null
    | Bool(b: bool)
    | Num(n: JsNum)
    | Str(s: string)
    | Arr(items: seq<Value>)
    | Obj(fields: map<string, Value>)

  /** ToBoolean: undefined, null, false, 0, NaN and "" are falsy; everything else is truthy. */
  predicate Truthy(v: Value) {
    match v
    case Undefined => false
    case Null => false
    case Bool(b) => b
    case Num(n) => n.Int? && n.i != 0
    case Str(s) => s != ""
    case Arr(_) => true
    case Obj(_) => true
  }

  /** `a || b` yields its left operand when that is truthy, else its right operand. */
  function Or(a: Value, b: Value): Value {
    if Truthy(a) then a else b
  }

  /** `v?.key`: a missing property, and any property of a primitive, reads as undefined. */
  function Get(v: Value, key: string): Value {
    if v.Obj? && key in v.fields then v.fields[key] else Undefined
  }

  /** `v.key` without optional chaining: reading a property of null or undefined throws. */
  function Member(v: Value, key: string): Completion<Value> {
    if v == Null || v == Undefined then Thrown else Normal(Get(v, key))
  }

  // ---------------------------------------------------------------------------
  // Decimal digits

  predicate IsDigit(c: char) {
    '0' <= c <= '9'
  }

  predicate AllDigits(s: string) {
    forall i :: 0 <= i < |s| ==> IsDigit(s[i])
  }

  function DigitChar(d: nat): (c: char)
    requires d < 10
    ensures IsDigit(c)
  {
    ('0' as int + d) as char
  }

  /** The decimal numeral of `n`, without leading zeros. */
  function NatToString(n: nat): (s: string)
    ensures |s| > 0 && AllDigits(s)
    ensures s[0] == '0' ==> n == 0
  {
    if n < 10 then [DigitChar(n)] else NatToString(n / 10) + [DigitChar(n % 10)]
  }

  /** The value of a string of decimal digits (leading zeros allowed). */
  function DigitsValue(s: string): nat
    requires AllDigits(s)
  {
    if s == [] then 0 else DigitsValue(s[..|s| - 1]) * 10 + (s[|s| - 1] as int - '0' as int)
  }

  /** Reading back a printed natural number gives the number. */
  lemma {:induction false} DigitsValueOfNatToString(n: nat)
    ensures DigitsValue(NatToString(n)) == n
  {
    if n >= 10 {
      var s := NatToString(n);
      assert s[..|s| - 1] == NatToString(n / 10);
      DigitsValueOfNatToString(n / 10);
    }
  }

  function IntToString(i: int): string {
    if i < 0 then "-" + NatToString(-i) else NatToString(i)
  }

  /** `String(n)` for a number. */
  function NumToString(n: JsNum): string {
    match n
    case Int(i) => IntToString(i)
    case NaN => "NaN"
  }

  // ---------------------------------------------------------------------------
  // String(x)

  /** `String(v)`, as also used by template literals. */
  function JsString(v: Value): string
    decreases v, 1, 0
  {
    match v
    case Undefined => "undefined"
    case Null => "null"
    case Bool(b) => if b then "true" else "false"
    case Num(n) => NumToString(n)
    case Str(s) => s
    case Arr(items) => JoinFrom(v, 0)
    case Obj(_) => "[object Object]"
  }

  /** `Array.prototype.join(",")` from index `k` on: null and undefined elements print as "". */
  function JoinFrom(a: Value, k: nat): string
    requires a.Arr? && k <= |a.items|
    decreases a, 0, |a.items| - k
  {
    if k == |a.items| then ""
    else
      var e := a.items[k];
      (if k > 0 then "," else "") + (if e == Null || e == Undefined then "" else JsString(e)) + JoinFrom(a, k + 1)
  }

  // ---------------------------------------------------------------------------
  // trim(), split(",")[0], toLowerCase(), startsWith

  /** The characters `String.prototype.trim` removes: WhiteSpace and LineTerminator. */
  predicate IsSpace(c: char) {
    || c == '\t' || c == '\n' || c == '\U{000B}' || c == '\U{000C}' || c == '\r' || c == ' '
    || c == '\U{00A0}' || c == '\U{1680}' || ('\U{2000}' <= c <= '\U{200A}')
    || c == '\U{2028}' || c == '\U{2029}' || c == '\U{202F}' || c == '\U{205F}'
    || c == '\U{3000}' || c == '\U{FEFF}'
  }

  function TrimStart(s: string): (r: string)
    ensures |r| <= |s| && r == s[|s| - |r|..]
    ensures r == [] || !IsSpace(r[0])
    ensures forall i :: 0 <= i < |s| - |r| ==> IsSpace(s[i])
  {
    if s != [] && IsSpace(s[0]) then TrimStart(s[1..]) else s
  }

  function TrimEnd(s: string): (r: string)
    ensures |r| <= |s| && r == s[..|r|]
    ensures r == [] || !IsSpace(r[|r| - 1])
    ensures forall i :: |r| <= i < |s| ==> IsSpace(s[i])
  {
    if s != [] && IsSpace(s[|s| - 1]) then TrimEnd(s[..|s| - 1]) else s
  }

  /** `s.trim()`: the longest infix of `s` that neither starts nor ends with white space. */
  function Trim(s: string): (r: string)
    ensures |r| <= |s|
    ensures r == [] || (!IsSpace(r[0]) && !IsSpace(r[|r| - 1]))
  {
    TrimEnd(TrimStart(s))
  }

  /** `s.split(sep)[0]` for a one-character separator: everything before the first `sep`. */
  function BeforeFirst(s: string, sep: char): (r: string)
    ensures sep !in r
    ensures r == s || (|r| < |s| && s[|r|] == sep)
    ensures r == s[..|r|]
  {
    if s == [] || s[0] == sep then [] else [s[0]] + BeforeFirst(s[1..], sep)
  }

  function LowerChar(c: char): char {
    if 'A' <= c <= 'Z' then (c as int + 32) as char else c
  }

  /** `s.toLowerCase()` on the ASCII letters. */
  function Lower(s: string): (r: string)
    ensures |r| == |s|
    ensures forall i :: 0 <= i < |s| ==> r[i] == LowerChar(s[i])
  {
    seq(|s|, i requires 0 <= i < |s| => LowerChar(s[i]))
  }

  /** The position of the first ':' in `s`, or |s| when there is none. */
  function FirstColon(s: string): (k: nat)
    ensures k <= |s|
  {
    if s == [] || s[0] == ':' then 0 else 1 + FirstColon(s[1..])
  }

  lemma {:induction false} ColonAfterHead(a: string, x: string)
    requires ':' !in a
    ensures FirstColon(a + ":" + x) == |a|
  {
    if a != [] {
      assert (a + ":" + x)[1..] == a[1..] + ":" + x;
      ColonAfterHead(a[1..], x);
    }
  }

  /** Keys joined with a separator that the heads never contain split back uniquely. */
  lemma {:induction false} SplitAtColon(a: string, x: string, b: string, y: string)
    requires ':' !in a && ':' !in b
    requires a + ":" + x == b + ":" + y
    ensures a == b && x == y
  {
    var s, t := a + ":" + x, b + ":" + y;
    ColonAfterHead(a, x);
    ColonAfterHead(b, y);
    assert a == s[..|a|] && b == t[..|b|];
    assert x == s[|a| + 1..] && y == t[|b| + 1..];
  }

  predicate StartsWith(s: string, prefix: string) {
    |prefix| <= |s| && s[..|prefix|] == prefix
  }

  // ---------------------------------------------------------------------------
  // Number(x)

  /** `Number(s)` for a string: blank is 0, an optionally signed run of decimal digits is its
      value, and everything else is NaN in this model (fractions, exponents, hex, Infinity). */
  function StringToNumber(s: string): (n: JsNum)
    ensures AllDigits(Trim(s)) && Trim(s) != "" ==> n == Int(DigitsValue(Trim(s)))
    ensures Trim(s) == "" ==> n == Int(0)
  {
    var t := Trim(s);
    if t == "" then Int(0)
    else if AllDigits(t) then Int(DigitsValue(t))
    else if |t| > 1 && t[0] == '-' && AllDigits(t[1..]) then Int(-(DigitsValue(t[1..]) as int))
    else if |t| > 1 && t[0] == '+' && AllDigits(t[1..]) then Int(DigitsValue(t[1..]))
    else NaN
  }

  /** `Number(v)`. */
  function ToNumber(v: Value): JsNum {
    match v
    case Undefined => NaN
    case Null => Int(0)
    case Bool(b) => Int(if b then 1 else 0)
    case Num(n) => n
    case Str(s) => StringToNumber(s)
    case Arr(_) => StringToNumber(JsString(v))
    case Obj(_) => NaN
  }

  /** `Number(v || 0)`: a falsy field (missing, null, "", NaN) reads as 0. */
  function NumberOr0(v: Value): (n: JsNum)
    ensures !Truthy(v) ==> n == Int(0)
    ensures v.Num? && Truthy(v) ==> n == v.n
  {
    if Truthy(v) then ToNumber(v) else Int(0)
  }

  /** Printing a number and reading it back gives the number. */
  lemma NumberOfPrintedInt(i: int)
    ensures StringToNumber(IntToString(i)) == Int(i)
  {
    var s := IntToString(i);
    var d := NatToString(if i < 0 then -i else i);
    DigitsValueOfNatToString(if i < 0 then -i else i);
    TrimOfNoSpace(s);
    if i < 0 {
      assert s[1..] == d;
      assert !AllDigits(s) by { assert !IsDigit(s[0]); }
    }
  }

  /** A string that neither starts nor ends with white space is its own trim. */
  lemma TrimOfNoSpace(s: string)
    requires s == [] || (!IsSpace(s[0]) && !IsSpace(s[|s| - 1]))
    ensures Trim(s) == s
  {
  }
}
