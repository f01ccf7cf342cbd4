/** The byte-level encodings the auth subsystem's strings pass through:
    UTF-8 (RFC 3629), which is how bcrypt reads a JavaScript string; the
    unpadded base64url alphabet of section 5 of RFC 4648, in which a JSON
    Web Token carries its header and payload; and the string quoting of
    `JSON.stringify`, with which the payload is written. */
module Encoding {

  type Byte = b: int | 0 <= b < 256

  // ---- UTF-8 ----

  /** The number of bytes a UTF-8 sequence has, read from its lead byte. */
  function Utf8Width(lead: Byte): nat {
    if lead < 0x80 then 1 else if lead < 0xE0 then 2 else if lead < 0xF0 then 3 else 4
  }

  predicate IsContinuation(b: Byte) {
    0x80 <= b < 0xC0
  }

  /** The code point a well-formed UTF-8 sequence of one character stands for. */
  function Utf8Value(r: seq<Byte>): int
    requires 1 <= |r| <= 4
  {
    var b: seq<int> := r;
    if |b| == 1 then b[0]
    else if |b| == 2 then (b[0] - 0xC0) * 0x40 + (b[1] - 0x80)
    else if |b| == 3 then ((b[0] - 0xE0) * 0x40 + (b[1] - 0x80)) * 0x40 + (b[2] - 0x80)
    else (((b[0] - 0xF0) * 0x40 + (b[1] - 0x80)) * 0x40 + (b[2] - 0x80)) * 0x40 + (b[3] - 0x80)
  }

  /** The UTF-8 encoding of one code point: one to four bytes, the lead
      byte announcing how many, the others continuation bytes, and the
      bytes decoding back to the code point. */
  function Utf8Char(c: char): (r: seq<Byte>)
    ensures 1 <= |r| <= 4 && |r| == Utf8Width(r[0])
    ensures forall i :: 1 <= i < |r| ==> IsContinuation(r[i])
    ensures Utf8Value(r) == c as int
    ensures c as int < 0x80 <==> |r| == 1
  {
    // the code point's six-bit digits, lowest first: n = ((q3 * 64 + d2) * 64 + d1) * 64 + d0
    var n := c as int;
    var q1, d0 := n / 0x40, n % 0x40;
    var q2, d1 := q1 / 0x40, q1 % 0x40;
    var q3, d2 := q2 / 0x40, q2 % 0x40;
    if n < 0x80 then [n]
    else if n < 0x800 then [0xC0 + q1, 0x80 + d0]
    else if n < 0x1_0000 then [0xE0 + q2, 0x80 + d1, 0x80 + d0]
    else [0xF0 + q3, 0x80 + d2, 0x80 + d1, 0x80 + d0]
  }

  function Utf8(s: string): (r: seq<Byte>)
    ensures |r| >= |s|
    decreases |s|
  {
    if s == [] then [] else Utf8Char(s[0]) + Utf8(s[1..])
  }

  lemma {:induction false} Utf8Append(s: string, t: string)
    ensures Utf8(s + t) == Utf8(s) + Utf8(t)
    decreases |s|
  {
    if s == [] {
      assert s + t == t;
    } else {
      assert (s + t)[0] == s[0] && (s + t)[1..] == s[1..] + t;
      Utf8Append(s[1..], t);
    }
  }

  /** A character's encoding cannot be confused with another's, whatever
      follows either: the lead byte fixes the length and the bytes fix the
      code point. */
  lemma Utf8CharPrefix(c: char, d: char, x: seq<Byte>, y: seq<Byte>)
    requires Utf8Char(c) + x == Utf8Char(d) + y
    ensures c == d && x == y
  {
    var r, q := Utf8Char(c), Utf8Char(d);
    assert r[0] == (r + x)[0] == (q + y)[0] == q[0];
    assert |r| == |q|;
    assert r == (r + x)[..|r|] == (q + y)[..|q|] == q;
    assert x == (r + x)[|r|..] == (q + y)[|q|..] == y;
  }

  /** UTF-8 is injective: different strings have different encodings. */
  lemma {:induction false} Utf8Injective(s: string, t: string)
    requires Utf8(s) == Utf8(t)
    ensures s == t
    decreases |s|
  {
    if s == [] {
      assert |Utf8(t)| == 0;
    } else {
      assert |Utf8(t)| > 0;
      Utf8CharPrefix(s[0], t[0], Utf8(s[1..]), Utf8(t[1..]));
      Utf8Injective(s[1..], t[1..]);
      assert s == [s[0]] + s[1..] && t == [t[0]] + t[1..];
    }
  }

  // ---- base64url ----

  const BASE64URL_ALPHABET := "ABCDEFGHIJKLMNOPQRSTUVWXYZabcdefghijklmnopqrstuvwxyz0123456789-_"

  function Base64Digit(v: int): char
    requires 0 <= v < 64
  {
    BASE64URL_ALPHABET[v]
  }

  /** Unpadded base64url: every three bytes become four characters of six
      bits each, a trailing pair three characters, a trailing byte two. */
  function Base64Url(b: seq<Byte>): (r: string)
    decreases |b|
  {
    if |b| >= 3 then Base64Group(b[0], b[1], b[2]) + Base64Url(b[3..])
    else if |b| == 2 then
      var n := (b[0] as int) * 0x400 + (b[1] as int) * 4;
      var q1 := n / 0x40;
      [Base64Digit(q1 / 0x40), Base64Digit(q1 % 0x40), Base64Digit(n % 0x40)]
    else if |b| == 1 then
      var n := (b[0] as int) * 0x10;
      [Base64Digit(n / 0x40), Base64Digit(n % 0x40)]
    else []
  }

  /** Three bytes, as one 24-bit number, written as four six-bit digits. */
  function Base64Group(b0: Byte, b1: Byte, b2: Byte): (r: string)
    ensures |r| == 4
  {
    var n := (b0 as int) * 0x1_0000 + (b1 as int) * 0x100 + b2 as int;
    var q1 := n / 0x40;
    var q2 := q1 / 0x40;
    [Base64Digit(q2 / 0x40), Base64Digit(q2 % 0x40), Base64Digit(q1 % 0x40), Base64Digit(n % 0x40)]
  }

  /** Whole groups of three bytes are encoded on their own: what follows
      them does not change their four characters each. */
  lemma {:induction false} Base64UrlAppend(x: seq<Byte>, y: seq<Byte>)
    requires |x| % 3 == 0
    ensures Base64Url(x + y) == Base64Url(x) + Base64Url(y)
    ensures |Base64Url(x)| == |x| / 3 * 4
    decreases |x|
  {
    if x == [] {
      assert x + y == y;
    } else {
      assert (x + y)[0] == x[0] && (x + y)[1] == x[1] && (x + y)[2] == x[2];
      assert (x + y)[3..] == x[3..] + y;
      Base64UrlAppend(x[3..], y);
    }
  }

  // ---- JSON strings ----

  function HexDigit(v: int): char
    requires 0 <= v < 16
  {
    "0123456789abcdef"[v]
  }

  /** How `JSON.stringify` writes one character inside a string literal:
      the quote and the backslash escaped, the five short control escapes,
      any other control character as `\u00xx`, everything else as itself. */
  function JsonEscape(c: char): (r: string)
    ensures |r| >= 1
  {
    if c == '"' then "\\\""
    else if c == '\\' then "\\\\"
    else if c == '\U{8}' then "\\b"
    else if c == '\U{C}' then "\\f"
    else if c == '\n' then "\\n"
    else if c == '\r' then "\\r"
    else if c == '\t' then "\\t"
    else if (c as int) < 0x20 then "\\u00" + [HexDigit(c as int / 16), HexDigit(c as int % 16)]
    else [c]
  }

  function JsonEscaped(s: string): (r: string)
    ensures |r| >= |s|
    decreases |s|
  {
    if s == [] then "" else JsonEscape(s[0]) + JsonEscaped(s[1..])
  }

  /** A JSON string literal: the escaped characters between double quotes. */
  function JsonString(s: string): (r: string)
    ensures |r| >= |s| + 2 && r[0] == '"' && r[|r| - 1] == '"'
  {
    "\"" + JsonEscaped(s) + "\""
  }
}
