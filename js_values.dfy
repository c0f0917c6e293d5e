/** JavaScript value semantics that the store, the route gate and the pages rely on:
    truthiness of possibly-missing strings and numbers, `String(n)` for integers,
    `Number(s)`, `parseInt(s, 10)`, and the white-space class shared by `\s` and trimming. */
module JsValues {

  datatype Option<+T> = None | Some(value: T)

  /** A JS number that is either an integer or NaN (None). */
  type JsNumber = Option<int>

  /** A string slot that may be null or undefined (None) is truthy exactly when it is non-empty. */
  predicate Truthy(s: Option<string>) {
    s.Some? && s.value != ""
  }

  /** NaN and 0 are the falsy numbers. */
  predicate TruthyNumber(n: JsNumber) {
    n.Some? && n.value != 0
  }

  /** `a || fallback` for a possibly-missing string. */
  function Or(a: Option<string>, fallback: string): string {
    if Truthy(a) then a.value else fallback
  }

  /** The characters matched by `\s` and removed by trimming: WhiteSpace and LineTerminator
      of ECMAScript (tab, line feed, vertical tab, form feed, carriage return, the space
      separators of Unicode, the line and paragraph separators and the byte order mark). */
  predicate IsJsWhitespace(c: char) {
    || (0x09 <= c as int <= 0x0D)
    || c == ' '
    || c as int == 0xA0
    || c as int == 0x1680
    || (0x2000 <= c as int <= 0x200A)
    || c as int == 0x2028
    || c as int == 0x2029
    || c as int == 0x202F
    || c as int == 0x205F
    || c as int == 0x3000
    || c as int == 0xFEFF
  }

  predicate IsDigit(c: char) {
    '0' <= c <= '9'
  }

  predicate AllDigits(s: string) {
    forall i :: 0 <= i < |s| ==> IsDigit(s[i])
  }

  function DigitChar(d: nat): (c: char)
    requires d < 10
    ensures IsDigit(c) && c as int - '0' as int == d
  {
    ('0' as int + d) as char
  }

  function DigitValue(c: char): nat
    requires IsDigit(c)
  {
    c as int - '0' as int
  }

  /** The decimal digits of a natural number, most significant first, without leading zeros. */
  function NatToDigits(n: nat): (s: string)
    ensures |s| > 0 && AllDigits(s)
    ensures |s| > 1 ==> s[0] != '0'
    decreases n
  {
    if n < 10 then [DigitChar(n)] else NatToDigits(n / 10) + [DigitChar(n % 10)]
  }

  /** The value of a string of decimal digits. */
  function DigitsValue(s: string): nat
    requires AllDigits(s)
    decreases |s|
  {
    if s == [] then 0 else DigitsValue(s[..|s| - 1]) * 10 + DigitValue(s[|s| - 1])
  }

  lemma {:induction false} DigitsRoundTrip(n: nat)
    ensures DigitsValue(NatToDigits(n)) == n
  {
    if n >= 10 {
      DigitsRoundTrip(n / 10);
      var s := NatToDigits(n);
      assert s[..|s| - 1] == NatToDigits(n / 10);
    }
  }

  /** `String(n)` for an integer-valued number. */
  function NumberToString(n: int): (s: string)
    ensures |s| > 0
  {
    if n < 0 then "-" + NatToDigits(-n) else NatToDigits(n)
  }

  /** Leading white space removed. */
  function TrimStart(s: string): (r: string)
    ensures |r| <= |s| && r == s[|s| - |r|..]
    ensures r == [] || !IsJsWhitespace(r[0])
    ensures forall i :: 0 <= i < |s| - |r| ==> IsJsWhitespace(s[i])
    decreases |s|
  {
    if s != [] && IsJsWhitespace(s[0]) then TrimStart(s[1..]) else s
  }

  /** Trailing white space removed. */
  function TrimEnd(s: string): (r: string)
    ensures |r| <= |s| && r == s[..|r|]
    ensures r == [] || !IsJsWhitespace(r[|r| - 1])
    ensures forall i :: |r| <= i < |s| ==> IsJsWhitespace(s[i])
    decreases |s|
  {
    if s != [] && IsJsWhitespace(s[|s| - 1]) then TrimEnd(s[..|s| - 1]) else s
  }

  function Trim(s: string): string {
    TrimEnd(TrimStart(s))
  }

  /** `Number(s)` restricted to the integer forms: after trimming, the empty string is 0 and an
      optionally signed run of decimal digits is its value; everything else is NaN here. */
  function ToNumber(s: string): JsNumber {
    var t := Trim(s);
    if t == "" then Some(0)
    else if (t[0] == '-' || t[0] == '+') && |t| > 1 && AllDigits(t[1..]) then
      Some(if t[0] == '-' then 0 - DigitsValue(t[1..]) else DigitsValue(t[1..]) as int)
    else if AllDigits(t) then Some(DigitsValue(t))
    else None
  }

  /** The longest run of decimal digits at the front of `s`. */
  function DigitPrefix(s: string): (r: string)
    ensures AllDigits(r) && |r| <= |s| && r == s[..|r|]
    ensures |r| < |s| ==> !IsDigit(s[|r|])
    decreases |s|
  {
    if s != [] && IsDigit(s[0]) then [s[0]] + DigitPrefix(s[1..]) else []
  }

  /** `parseInt(s, 10)`: leading white space and one sign are skipped, then the longest
      run of digits is read; no digit at all gives NaN. */
  function ParseInt(s: string): JsNumber {
    var t := TrimStart(s);
    var signed := t != [] && (t[0] == '-' || t[0] == '+');
    var body := if signed then t[1..] else t;
    var digits := DigitPrefix(body);
    if digits == [] then None
    else Some(if signed && t[0] == '-' then 0 - DigitsValue(digits) else DigitsValue(digits) as int)
  }

  /** `parseInt` of a missing storage entry reads the string "null", which is NaN. */
  function ParseIntOrNaN(s: Option<string>): JsNumber {
    if s.None? then None else ParseInt(s.value)
  }


  /** `Number(String(n)) === n` for every integer. */
  lemma {:induction false} ToNumberOfString(n: int)
    ensures ToNumber(NumberToString(n)) == Some(n)
  {
    var s := NumberToString(n);
    var d := NatToDigits(if n < 0 then -n else n);
    DigitsRoundTrip(if n < 0 then -n else n);
    assert !IsJsWhitespace(s[0]) && !IsJsWhitespace(s[|s| - 1]);
    assert TrimStart(s) == s;
    assert TrimEnd(s) == s;
    if n < 0 {
      assert s[1..] == d;
    }
  }

  /** `parseInt(String(n), 10) === n` for every integer. */
  lemma {:induction false} ParseIntOfString(n: int)
    ensures ParseInt(NumberToString(n)) == Some(n)
  {
    var s := NumberToString(n);
    var d := NatToDigits(if n < 0 then -n else n);
    DigitsRoundTrip(if n < 0 then -n else n);
    assert !IsJsWhitespace(s[0]);
    assert TrimStart(s) == s;
    AllDigitsPrefix(d);
    if n < 0 {
      assert s[1..] == d;
    }
  }

  /** A string made only of digits is its own digit prefix. */
  lemma {:induction false} AllDigitsPrefix(s: string)
    requires AllDigits(s)
    ensures DigitPrefix(s) == s
    decreases |s|
  {
    if s != [] {
      AllDigitsPrefix(s[1..]);
    }
  }
}
