/**
 The slice of JavaScript value semantics the publish scripts rely on: the
 values passed as view and transaction arguments, how a template string
 renders them, `Number(...)` on the decimal strings the chain returns, and
 the few string operations (`replace(/^41/, '0x')`, `toLowerCase`, the
 `/^[0-9]+$/` and `/y|Y/` tests) the core performs.
 */
module Js {
  import opened Base

  /** A JavaScript value as the scripts handle it: `undefined`, a string
      (addresses, hashes, big numbers as decimal strings), a number, or an
      array. */
  datatype Value = Undefined | Str(s: string) | Num(n: int) | List(items: seq<Value>)

  /** JavaScript truthiness: `undefined`, `''` and `0` are falsy, every
      array is truthy. */
  predicate Truthy(v: Value) {
    match v
    case Undefined => false
    case Str(s) => s != ""
    case Num(n) => n != 0
    case List(_) => true
  }

  /** `a === b`: primitives compare by value; an array is a fresh object and
      equals nothing the chain answers. */
  predicate StrictEquals(a: Value, b: Value) {
    !a.List? && !b.List? && a == b
  }

  predicate IsDigit(c: char) {
    '0' <= c <= '9'
  }

  predicate AllDigits(s: string) {
    forall i :: 0 <= i < |s| ==> IsDigit(s[i])
  }

  /** The test `/^[0-9]+$/`: a non-empty run of ASCII digits and nothing else. */
  predicate IsDigits(s: string) {
    |s| >= 1 && AllDigits(s)
  }

  function DigitChar(d: nat): (c: char)
    requires d < 10
    ensures IsDigit(c) && c as int - '0' as int == d
  {
    (d + '0' as int) as char
  }

  /** `String(n)` for a non-negative integer below 1e21: its decimal digits,
      most significant first, without leading zeros. */
  function NatString(n: nat): (r: string)
    ensures |r| >= 1 && AllDigits(r)
    ensures r[0] == '0' ==> n == 0
  {
    if n < 10 then [DigitChar(n)] else NatString(n / 10) + [DigitChar(n % 10)]
  }

  function IntString(n: int): string {
    if n < 0 then "-" + NatString(-n) else NatString(n)
  }

  /** The value of a run of digits, read most significant first. */
  function DigitsValue(s: string): nat
    requires AllDigits(s)
  {
    if |s| == 0 then 0
    else DigitsValue(s[..|s| - 1]) * 10 + (s[|s| - 1] as int - '0' as int)
  }

  /** `Number(s)` on the strings a view call answers: the empty string is 0
      and a run of digits is its value; any other form yields None (JavaScript
      would trim blanks or read signs, hex and exponents, which the chain
      never answers). */
  function ParseNumber(s: string): Option<int> {
    if AllDigits(s) then Some(DigitsValue(s)) else None
  }

  /** Reading back what `String(n)` wrote gives `n` again. */
  lemma {:induction false} ParseNatString(n: nat)
    ensures ParseNumber(NatString(n)) == Some(n)
  {
    var s := NatString(n);
    if n >= 10 {
      ParseNatString(n / 10);
      assert s[..|s| - 1] == NatString(n / 10);
      assert s[|s| - 1] as int - '0' as int == n % 10;
      assert DigitsValue(s) == (n / 10) * 10 + n % 10;
    } else {
      assert s[..|s| - 1] == [];
      assert DigitsValue(s) == n;
    }
  }

  /** `String(v)`, which is what `${v}` inserts into a template string: an
      array renders as its elements joined by ',', an `undefined` element as
      the empty string. */
  function ToJsString(v: Value): string
    decreases v
  {
    match v
    case Undefined => "undefined"
    case Str(s) => s
    case Num(n) => IntString(n)
    case List(items) => JoinFirst(v, |items|)
  }

  /** The first `k` elements of the array `v` joined by ',', as
      `Array.prototype.join` renders them. */
  function JoinFirst(v: Value, k: nat): string
    requires v.List? && k <= |v.items|
    decreases v, k
  {
    if k == 0 then ""
    else
      var last := if v.items[k - 1].Undefined? then "" else ToJsString(v.items[k - 1]);
      if k == 1 then last else JoinFirst(v, k - 1) + "," + last
  }

  /** `Number(v)`, None where JavaScript yields NaN. `Number(v.toString())`
      gives the same except on `undefined`, where `toString` throws. */
  function NumberOf(v: Value): Option<int> {
    match v
    case Num(n) => Some(n)
    case Str(s) => ParseNumber(s)
    case List(_) => ParseNumber(ToJsString(v))
    case Undefined => None
  }

  /** `s.replace(/^41/, '0x')`: a leading `41` (the Tron address prefix)
      becomes `0x`; any other string is returned as it is. */
  function ReplaceLeading41(s: string): (r: string)
    ensures |s| >= 2 && s[..2] == "41" ==> r == "0x" + s[2..]
    ensures !(|s| >= 2 && s[..2] == "41") ==> r == s
  {
    if |s| >= 2 && s[0] == '4' && s[1] == '1' then "0x" + s[2..] else s
  }

  function LowerChar(c: char): char {
    if 'A' <= c <= 'Z' then (c as int - 'A' as int + 'a' as int) as char else c
  }

  /** `s.toLowerCase()` on ASCII text. */
  function ToLower(s: string): (r: string)
    ensures |r| == |s|
    ensures forall i :: 0 <= i < |s| ==> r[i] == LowerChar(s[i])
  {
    if |s| == 0 then "" else [LowerChar(s[0])] + ToLower(s[1..])
  }

  /** The test `/y|Y/.test(answer)`, scanning left to right for a `y` or a `Y`. */
  function ContainsYes(answer: string): (r: bool)
    ensures r <==> exists i :: 0 <= i < |answer| && (answer[i] == 'y' || answer[i] == 'Y')
  {
    if |answer| == 0 then false
    else if answer[0] == 'y' || answer[0] == 'Y' then true
    else
      var rest := ContainsYes(answer[1..]);
      assert forall i :: 1 <= i < |answer| ==> answer[i] == answer[1..][i - 1];
      rest
  }
}
