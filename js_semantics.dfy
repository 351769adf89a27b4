/** The small part of JavaScript's value model that the booking and checkout
    code relies on: loosely typed values, `Number(...)` and `parseInt(..., 10)`
    coercions, `Math.round`/`Math.ceil`, `String(n)` for whole numbers and
    `String.prototype.trim`. Finite numbers are exact reals. */
module JsSemantics {

  datatype Option<T> = None | Some(value: T)

  /** A JavaScript number. NaN and the two infinities behave alike everywhere
      this code looks at them, so they share one case. */
  datatype JsNumber = Finite(v: real) | NonFinite

  /** A JavaScript value as it can arrive in a record or a request body.
      Objects and arrays are one opaque case. */
  datatype JsValue = Undefined | Null | Bool(b: bool) | Number(n: JsNumber) | Str(s: string) | Obj

  /** Milliseconds in a day, `1000 * 60 * 60 * 24`. */
  const DAY_MS: int := 86400000

  /** `new Date(s).getTime()` for a date string, given the parser `parse`
      (None for Invalid Date): the empty string is always Invalid Date,
      whatever the parser does with other strings. */
  function DateValue(parse: string -> Option<int>, s: string): Option<int> {
    if s == "" then None else parse(s)
  }

  /* ---------------------------- rounding ---------------------------- */

  /** `Math.round`: the nearest integer, halves rounded up. */
  function Round(x: real): (r: int)
    ensures x - 0.5 < r as real <= x + 0.5
  {
    (x + 0.5).Floor
  }

  /** `Math.ceil`. */
  function Ceil(x: real): (r: int)
    ensures x <= r as real < x + 1.0
  {
    -((-x).Floor)
  }

  /** `Math.trunc`: rounds toward zero. */
  function Trunc(x: real): (r: int)
    ensures 0.0 <= x ==> r as real <= x < r as real + 1.0
    ensures x < 0.0 ==> r as real - 1.0 < x <= r as real
  {
    if x < 0.0 then -((-x).Floor) else x.Floor
  }

  /** `Number.isInteger` on a finite number. */
  predicate IsInteger(x: real) {
    x == x.Floor as real
  }

  function Max(a: int, b: int): int { if a < b then b else a }

  function MaxReal(a: real, b: real): real { if a < b then b else a }

  /* ---------------------------- characters -------------------------- */

  predicate IsDigit(c: char) { '0' <= c <= '9' }

  predicate AllDigits(s: string) {
    forall i :: 0 <= i < |s| ==> IsDigit(s[i])
  }

  function DigitChar(d: nat): (c: char)
    requires d < 10
    ensures IsDigit(c) && c as int - '0' as int == d
  {
    ('0' as int + d) as char
  }

  /** The white space and line terminators that `trim` and `Number` skip. */
  predicate IsJsSpace(c: char) {
    var k := c as int;
    k == 0x09 || k == 0x0A || k == 0x0B || k == 0x0C || k == 0x0D || k == 0x20 ||
    k == 0xA0 || k == 0x1680 || (0x2000 <= k <= 0x200A) || k == 0x2028 || k == 0x2029 ||
    k == 0x202F || k == 0x205F || k == 0x3000 || k == 0xFEFF
  }

  function TrimStart(s: string): (r: string)
    ensures |r| <= |s| && r == s[|s| - |r|..]
    ensures forall i :: 0 <= i < |s| - |r| ==> IsJsSpace(s[i])
    ensures r != [] ==> !IsJsSpace(r[0])
  {
    if s != [] && IsJsSpace(s[0]) then TrimStart(s[1..]) else s
  }

  function TrimEnd(s: string): (r: string)
    ensures |r| <= |s| && r == s[..|r|]
    ensures forall i :: |r| <= i < |s| ==> IsJsSpace(s[i])
    ensures r != [] ==> !IsJsSpace(r[|r| - 1])
  {
    if s != [] && IsJsSpace(s[|s| - 1]) then TrimEnd(s[..|s| - 1]) else s
  }

  /** `String.prototype.trim`. */
  function Trim(s: string): string {
    TrimEnd(TrimStart(s))
  }

  /* ---------------------------- decimal digits ---------------------- */

  /** The value of a run of decimal digits, most significant first. */
  function DigitsValue(s: string): nat
    requires AllDigits(s)
  {
    if s == [] then 0 else 10 * DigitsValue(s[..|s| - 1]) + (s[|s| - 1] as int - '0' as int)
  }

  function Pow10(k: nat): (p: nat)
    ensures p >= 1
  {
    if k == 0 then 1 else 10 * Pow10(k - 1)
  }

  /** Length of the longest prefix of `s` made of decimal digits. */
  function DigitRun(s: string): (k: nat)
    ensures k <= |s| && AllDigits(s[..k])
    ensures k < |s| ==> !IsDigit(s[k])
  {
    if s != [] && IsDigit(s[0]) then
      var k := 1 + DigitRun(s[1..]);
      assert s[..k] == [s[0]] + s[1..][..k - 1];
      k
    else 0
  }

  /** `String(n)` for a whole number that is not negative: no leading zero
      except in "0" itself. */
  function NatToDecimal(n: nat): (s: string)
    ensures |s| > 0 && AllDigits(s)
    ensures s[0] == '0' <==> n == 0
    ensures |s| == 1 || s[0] != '0'
  {
    if n < 10 then [DigitChar(n)] else NatToDecimal(n / 10) + [DigitChar(n % 10)]
  }

  /** `String(n)` for any whole number. */
  function IntToDecimal(i: int): string {
    if i < 0 then "-" + NatToDecimal(-i) else NatToDecimal(i)
  }

  /** Printing a whole number and reading its digits back gives the number. */
  lemma {:induction false} DecimalRoundTrip(n: nat)
    ensures DigitsValue(NatToDecimal(n)) == n
  {
    if n >= 10 {
      DecimalRoundTrip(n / 10);
      var s := NatToDecimal(n);
      assert s[..|s| - 1] == NatToDecimal(n / 10);
    }
  }

  /* ---------------------------- Number(...) ------------------------- */

  /** `Number(s)` after the sign: `Infinity`, `ddd`, `ddd.`, `ddd.ddd` or `.ddd`. */
  function UnsignedDecimal(t: string): JsNumber {
    if t == "Infinity" then NonFinite
    else
      var k := DigitRun(t);
      if k == |t| then
        (if k > 0 then Finite(DigitsValue(t) as real) else NonFinite)
      else if t[k] == '.' && AllDigits(t[k + 1..]) && (k > 0 || k + 1 < |t|) then
        Finite(DigitsValue(t[..k]) as real + DigitsValue(t[k + 1..]) as real / Pow10(|t| - k - 1) as real)
      else NonFinite
  }

  function Negate(n: JsNumber): JsNumber {
    match n
    case Finite(v) => Finite(-v)
    case NonFinite => NonFinite
  }

  /** `Number(s)` for a string in plain decimal notation; the empty or blank
      string is 0, anything else that is not a decimal literal is NaN. */
  function StringToNumber(s: string): JsNumber {
    var t := Trim(s);
    if t == [] then Finite(0.0)
    else if t[0] == '-' then Negate(UnsignedDecimal(t[1..]))
    else if t[0] == '+' then UnsignedDecimal(t[1..])
    else UnsignedDecimal(t)
  }

  /** A whole number printed by `String` is read back by `Number`. */
  lemma DecimalIsNumber(n: nat)
    ensures StringToNumber(NatToDecimal(n)) == Finite(n as real)
  {
    var s := NatToDecimal(n);
    assert Trim(s) == s by {
      assert TrimStart(s) == s by { assert !IsJsSpace(s[0]); }
      assert TrimEnd(s) == s by { assert !IsJsSpace(s[|s| - 1]); }
    }
    assert IsDigit(s[0]);
    assert UnsignedDecimal(s) == Finite(n as real) by {
      assert s != "Infinity" by { assert IsDigit(s[0]); }
      DecimalRoundTrip(n);
      DigitRunAll(s);
    }
  }

  lemma {:induction false} DigitRunAll(s: string)
    requires AllDigits(s)
    ensures DigitRun(s) == |s|
  {
    if s != [] {
      DigitRunAll(s[1..]);
    }
  }

  /** `Number(v)`. Arrays and other objects are taken to be NaN. */
  function ToNumber(v: JsValue): JsNumber {
    match v
    case Undefined => NonFinite
    case Null => Finite(0.0)
    case Bool(b) => Finite(if b then 1.0 else 0.0)
    case Number(n) => n
    case Str(s) => StringToNumber(s)
    case Obj => NonFinite
  }

  /* ---------------------------- parseInt(..., 10) ------------------- */

  /** `parseInt(s, 10)`: leading white space, an optional sign, then the
      longest run of digits; None stands for NaN (no digit at all). */
  function ParseIntString(s: string): Option<int> {
    var t := TrimStart(s);
    var neg := t != [] && t[0] == '-';
    var u := if t != [] && (t[0] == '-' || t[0] == '+') then t[1..] else t;
    var k := DigitRun(u);
    if k == 0 then None
    else
      var d: int := DigitsValue(u[..k]);
      Some(if neg then -d else d)
  }

  /** `parseInt(v, 10)`: the value is first turned into its string. */
  function ParseInt(v: JsValue): Option<int> {
    match v
    case Str(s) => ParseIntString(s)
    case Number(Finite(x)) => Some(Trunc(x))
    case _ => None
  }

  /** The decimal string of a whole number parses back to that number. */
  lemma DecimalParsesBack(n: nat)
    ensures ParseIntString(NatToDecimal(n)) == Some(n)
  {
    var s := NatToDecimal(n);
    assert TrimStart(s) == s by { assert !IsJsSpace(s[0]); }
    DigitRunAll(s);
    assert s[..|s|] == s;
    DecimalRoundTrip(n);
  }
}
