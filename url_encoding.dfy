/** Percent-encoding as the WHATWG URL standard's
    `application/x-www-form-urlencoded` serializer and ECMAScript's
    `encodeURIComponent` perform it: characters outside a kept set become
    `%XX` for each byte of their UTF-8 encoding, with upper-case hex digits. */
module UrlEncoding {

  /** The UTF-8 bytes of one Unicode scalar value. */
  function Utf8(c: char): (r: seq<nat>)
    ensures 1 <= |r| <= 4
    ensures forall i :: 0 <= i < |r| ==> r[i] < 256
    ensures (c as int < 0x80) == (|r| == 1)
  {
    var n := c as int;
    if n < 0x80 then [n]
    else if n < 0x800 then [0xC0 + n / 64, 0x80 + n % 64]
    else if n < 0x10000 then [0xE0 + n / 4096, 0x80 + (n / 64) % 64, 0x80 + n % 64]
    else [0xF0 + n / 262144, 0x80 + (n / 4096) % 64, 0x80 + (n / 64) % 64, 0x80 + n % 64]
  }

  function HexUpper(d: nat): (c: char)
    requires d < 16
    ensures '0' <= c <= '9' || 'A' <= c <= 'F'
  {
    if d < 10 then (48 + d) as char else (55 + d) as char
  }

  /** `%XX` for one byte. */
  function PercentByte(b: nat): (r: string)
    requires b < 256
    ensures |r| == 3 && r[0] == '%'
  {
    ['%', HexUpper(b / 16), HexUpper(b % 16)]
  }

  function PercentBytes(bs: seq<nat>): (r: string)
    requires forall i :: 0 <= i < |bs| ==> bs[i] < 256
    ensures |r| == 3 * |bs|
    ensures forall i :: 0 <= i < |r| ==> r[i] == '%' || '0' <= r[i] <= '9' || 'A' <= r[i] <= 'F'
  {
    if bs == [] then [] else PercentByte(bs[0]) + PercentBytes(bs[1..])
  }

  predicate IsAsciiAlphanumeric(c: char) {
    'a' <= c <= 'z' || 'A' <= c <= 'Z' || '0' <= c <= '9'
  }

  /** What the form serializer leaves as it is. */
  predicate FormKept(c: char) {
    IsAsciiAlphanumeric(c) || c == '*' || c == '-' || c == '.' || c == '_'
  }

  /** What `encodeURIComponent` leaves as it is. */
  predicate ComponentKept(c: char) {
    IsAsciiAlphanumeric(c) || c == '-' || c == '_' || c == '.' || c == '!' || c == '~'
    || c == '*' || c == '\'' || c == '(' || c == ')'
  }

  /** One character as the form serializer writes it: a space is `+`. */
  function FormChar(c: char): (r: string)
    ensures forall i :: 0 <= i < |r| ==> FormKept(r[i]) || r[i] == '+' || r[i] == '%'
  {
    if FormKept(c) then [c] else if c == ' ' then "+" else PercentBytes(Utf8(c))
  }

  function ComponentChar(c: char): (r: string)
    ensures forall i :: 0 <= i < |r| ==> ComponentKept(r[i]) || r[i] == '%'
  {
    if ComponentKept(c) then [c] else PercentBytes(Utf8(c))
  }

  /** A name or value as `URLSearchParams` serializes it. */
  function FormEncode(s: string): (r: string)
    ensures forall i :: 0 <= i < |r| ==> FormKept(r[i]) || r[i] == '+' || r[i] == '%'
  {
    if s == [] then [] else FormChar(s[0]) + FormEncode(s[1..])
  }

  /** `encodeURIComponent(s)` */
  function EncodeUriComponent(s: string): (r: string)
    ensures forall i :: 0 <= i < |r| ==> ComponentKept(r[i]) || r[i] == '%'
  {
    if s == [] then [] else ComponentChar(s[0]) + EncodeUriComponent(s[1..])
  }

  /** Encoded text never holds the characters that delimit the parts of a
      URL or of a query. */
  lemma FormEncodeDelimiters(s: string)
    ensures '&' !in FormEncode(s) && '=' !in FormEncode(s) && '#' !in FormEncode(s)
  {
  }

  lemma EncodeUriComponentDelimiters(s: string)
    ensures '/' !in EncodeUriComponent(s) && '?' !in EncodeUriComponent(s) && '#' !in EncodeUriComponent(s)
  {
  }

  /** Text made only of kept characters is left as it is. */
  lemma {:induction false} EncodeUriComponentPlain(s: string)
    requires forall i :: 0 <= i < |s| ==> ComponentKept(s[i])
    ensures EncodeUriComponent(s) == s
  {
    if s != [] {
      EncodeUriComponentPlain(s[1..]);
    }
  }

  /** Every character is written independently of the others. */
  lemma {:induction false} EncodeUriComponentAppend(a: string, b: string)
    ensures EncodeUriComponent(a + b) == EncodeUriComponent(a) + EncodeUriComponent(b)
  {
    if a != [] {
      assert (a + b)[0] == a[0] && (a + b)[1..] == a[1..] + b;
      EncodeUriComponentAppend(a[1..], b);
      assert EncodeUriComponent(a + b) == ComponentChar(a[0]) + (EncodeUriComponent(a[1..]) + EncodeUriComponent(b));
    } else {
      assert a + b == b;
    }
  }

  /** A slash is written `%2F`. */
  lemma SlashEncoded()
    ensures EncodeUriComponent("/") == "%2F"
  {
  }
}
