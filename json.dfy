/** `JSON.stringify({ email })` and `JSON.parse` for the persisted `auth_user` entry.
    Stringify is JSON's own escaping of a string value. Parse recognises the literal `null` and
    the exact shape `{"email":"..."}` with any JSON string body whose `\u` escapes do not name
    surrogates, which includes everything Stringify writes; any other text, even one that
    `JSON.parse` reads as the same object (white space, extra keys, surrogate pairs), is left
    unrecognised. */
module Json {
  import opened JsValues

  /** The value JSON.parse gives back for the `auth_user` entry. */
  datatype UserValue = Null | EmailUser(email: string) | Unrecognised(text: string)

  const EmailPrefix: string := "{\"email\":\""
  const EmailSuffix: string := "\"}"

  function HexDigit(d: nat): (c: char)
    requires d < 16
    ensures HexValue(c) == Some(d)
  {
    if d < 10 then ('0' as int + d) as char else ('a' as int + d - 10) as char
  }

  function HexValue(c: char): Option<nat> {
    if '0' <= c <= '9' then Some(c as int - '0' as int)
    else if 'a' <= c <= 'f' then Some(c as int - 'a' as int + 10)
    else if 'A' <= c <= 'F' then Some(c as int - 'A' as int + 10)
    else None
  }

  /** The value of the four hex digits of a `\uXXXX` escape. */
  function HexQuad(q: string): Option<nat>
    requires |q| == 4
  {
    var a, b, c, d := HexValue(q[0]), HexValue(q[1]), HexValue(q[2]), HexValue(q[3]);
    if a.Some? && b.Some? && c.Some? && d.Some? then
      Some(((a.value * 16 + b.value) * 16 + c.value) * 16 + d.value)
    else None
  }

  /** How JSON.stringify writes one character inside a string literal. */
  function EscapeChar(c: char): string {
    if c == '"' then "\\\""
    else if c == '\\' then "\\\\"
    else if c as int == 0x08 then "\\b"
    else if c as int == 0x0C then "\\f"
    else if c == '\n' then "\\n"
    else if c == '\r' then "\\r"
    else if c == '\t' then "\\t"
    else if c as int < 0x20 then "\\u00" + [HexDigit(c as int / 16), HexDigit(c as int % 16)]
    else [c]
  }

  function Escape(s: string): string
    decreases |s|
  {
    if s == [] then [] else EscapeChar(s[0]) + Escape(s[1..])
  }

  function Prepend(c: char, r: Option<string>): Option<string> {
    if r.Some? then Some([c] + r.value) else None
  }

  /** The characters a JSON string body denotes; None when the body is not valid JSON
      (a bare quote or control character, an unknown escape, a `\u` escape naming a surrogate). */
  function Unescape(s: string): Option<string>
    decreases |s|
  {
    if s == [] then Some([])
    else if s[0] == '"' || s[0] as int < 0x20 then None
    else if s[0] != '\\' then Prepend(s[0], Unescape(s[1..]))
    else if |s| < 2 then None
    else if s[1] == '"' then Prepend('"', Unescape(s[2..]))
    else if s[1] == '\\' then Prepend('\\', Unescape(s[2..]))
    else if s[1] == '/' then Prepend('/', Unescape(s[2..]))
    else if s[1] == 'b' then Prepend(0x08 as char, Unescape(s[2..]))
    else if s[1] == 'f' then Prepend(0x0C as char, Unescape(s[2..]))
    else if s[1] == 'n' then Prepend('\n', Unescape(s[2..]))
    else if s[1] == 'r' then Prepend('\r', Unescape(s[2..]))
    else if s[1] == 't' then Prepend('\t', Unescape(s[2..]))
    else if s[1] == 'u' && |s| >= 6 then
      var v := HexQuad(s[2..6]);
      if v.Some? && (v.value < 0xD800 || 0xE000 <= v.value) then Prepend(v.value as char, Unescape(s[6..]))
      else None
    else None
  }

  /** `JSON.stringify({ email })`. */
  function Stringify(email: string): string {
    EmailPrefix + Escape(email) + EmailSuffix
  }

  /** `JSON.parse` of a storage entry; a missing entry is read as null. */
  function Parse(raw: Option<string>): UserValue {
    if raw.None? || raw.value == "null" then Null
    else
      var s := raw.value;
      if |s| >= |EmailPrefix| + |EmailSuffix| && s[..|EmailPrefix|] == EmailPrefix
         && s[|s| - |EmailSuffix|..] == EmailSuffix
      then
        var body := Unescape(s[|EmailPrefix|..|s| - |EmailSuffix|]);
        if body.Some? then EmailUser(body.value) else Unrecognised(s)
      else Unrecognised(s)
  }

  /** Decoding one escaped character gives the character back, whatever follows it. */
  lemma UnescapeEscapeChar(c: char, rest: string)
    ensures Unescape(EscapeChar(c) + rest) == Prepend(c, Unescape(rest))
  {
    var e := EscapeChar(c) + rest;
    if c as int < 0x20 && c != '\n' && c != '\r' && c != '\t' && c as int != 0x08 && c as int != 0x0C {
      var hi, lo := c as int / 16, c as int % 16;
      assert e[2..6] == ['0', '0', HexDigit(hi), HexDigit(lo)];
      assert e[6..] == rest;
    } else if c == '"' || c == '\\' || c as int < 0x20 {
      assert e[2..] == rest;
    } else {
      assert e[1..] == rest;
    }
  }

  /** Escaping is undone by unescaping. */
  lemma {:induction false} UnescapeEscape(s: string)
    ensures Unescape(Escape(s)) == Some(s)
    decreases |s|
  {
    if s != [] {
      UnescapeEscape(s[1..]);
      UnescapeEscapeChar(s[0], Escape(s[1..]));
      assert [s[0]] + s[1..] == s;
    }
  }

  /** `JSON.parse(JSON.stringify({ email }))` has the same email. */
  lemma ParseStringify(email: string)
    ensures Parse(Some(Stringify(email))) == EmailUser(email)
  {
    var s := Stringify(email);
    assert s[..|EmailPrefix|] == EmailPrefix;
    assert s[|s| - |EmailSuffix|..] == EmailSuffix;
    assert s[|EmailPrefix|..|s| - |EmailSuffix|] == Escape(email);
    assert s != "null" by { assert s[0] == '{'; }
    UnescapeEscape(email);
  }
}
