/** Base64 as in section 4 of RFC 4648, for `Buffer.from(text, 'base64')`.

    The encoder writes the standard alphabet with `=` padding. The decoder is
    as lenient as Node's: it also takes the URL-safe letters `-` and `_`,
    skips characters outside the alphabet, stops at the first `=`, and
    decodes a trailing group of two or three characters to one or two bytes.
 */
module Base64 {

  import opened Wrappers

  type Byte = x: int | 0 <= x < 256

  type Sextet = x: int | 0 <= x < 64

  /** The character of a 6-bit value in the standard alphabet. */
  function SextetChar(v: Sextet): char {
    if v < 26 then (65 + v) as char
    else if v < 52 then (97 + v - 26) as char
    else if v < 62 then (48 + v - 52) as char
    else if v == 62 then '+'
    else '/'
  }

  /** The value of a character of either alphabet, if it is one. */
  function SextetValue(c: char): (r: Option<Sextet>)
  {
    if 'A' <= c <= 'Z' then Some(c as int - 65)
    else if 'a' <= c <= 'z' then Some(c as int - 97 + 26)
    else if '0' <= c <= '9' then Some(c as int - 48 + 52)
    else if c == '+' || c == '-' then Some(62)
    else if c == '/' || c == '_' then Some(63)
    else None
  }

  lemma SextetRoundTrip(v: Sextet)
    ensures SextetChar(v) != '='
    ensures SextetValue(SextetChar(v)) == Some(v)
  {
  }

  // The bytes of a group and its sextets

  /** The sextets of one, two or three bytes: four for three bytes, three
      for two, two for one. */
  function GroupSextets(b: seq<Byte>): (s: seq<Sextet>)
    requires 1 <= |b| <= 3
    ensures |s| == |b| + 1
  {
    var b0: Byte := b[0];
    var b1: Byte := if |b| > 1 then b[1] else 0;
    var b2: Byte := if |b| > 2 then b[2] else 0;
    var s: seq<Sextet> := [b0 / 4, (b0 % 4) * 16 + b1 / 16, (b1 % 16) * 4 + b2 / 64, b2 % 64];
    s[..|b| + 1]
  }

  /** The bytes of a group of two to four sextets; the bits left over are
      dropped. */
  function GroupBytes(s: seq<Sextet>): (b: seq<Byte>)
    requires 2 <= |s| <= 4
    ensures |b| == |s| - 1
  {
    var s2: Sextet := if |s| > 2 then s[2] else 0;
    var s3: Sextet := if |s| > 3 then s[3] else 0;
    var b: seq<Byte> := [s[0] * 4 + s[1] / 16, (s[1] % 16) * 16 + s2 / 4, (s2 % 4) * 64 + s3];
    b[..|s| - 1]
  }

  lemma GroupRoundTrip(b: seq<Byte>)
    requires 1 <= |b| <= 3
    ensures GroupBytes(GroupSextets(b)) == b
  {
    var s := GroupSextets(b);
    var r := GroupBytes(s);
    assert r[0] == b[0];
    if |b| > 1 {
      assert r[1] == b[1];
    }
    if |b| > 2 {
      assert r[2] == b[2];
    }
  }

  /** The sextets the encoder writes for `b`: a group per three bytes, a
      shorter group for the rest. */
  function Sextets(b: seq<Byte>): seq<Sextet>
    decreases |b|
  {
    if b == [] then []
    else if |b| <= 3 then GroupSextets(b)
    else GroupSextets(b[..3]) + Sextets(b[3..])
  }

  function Chars(s: seq<Sextet>): (t: string)
    ensures |t| == |s| && forall i :: 0 <= i < |s| ==> t[i] == SextetChar(s[i])
  {
    if s == [] then "" else [SextetChar(s[0])] + Chars(s[1..])
  }

  function Padding(n: nat): string {
    if n % 3 == 1 then "==" else if n % 3 == 2 then "=" else ""
  }

  /** `buffer.toString('base64')` */
  function Encode(b: seq<Byte>): (t: string)
    ensures |t| % 4 == 0
  {
    EncodeLength(b);
    Chars(Sextets(b)) + Padding(|b|)
  }

  lemma {:induction false} EncodeLength(b: seq<Byte>)
    ensures |Sextets(b)| == |b| / 3 * 4 + (if |b| % 3 == 0 then 0 else |b| % 3 + 1)
    decreases |b|
  {
    if |b| > 3 {
      EncodeLength(b[3..]);
    }
  }

  /** The values of the characters before the first `=`, skipping those
      outside the alphabet. */
  function ReadSextets(t: string): seq<Sextet> {
    if t == [] || t[0] == '=' then []
    else match SextetValue(t[0])
      case None => ReadSextets(t[1..])
      case Some(v) => [v] + ReadSextets(t[1..])
  }

  /** Bytes from sextets: three per four, then one or two for a trailing
      two or three; a single trailing sextet gives nothing. */
  function DecodeSextets(s: seq<Sextet>): seq<Byte>
    decreases |s|
  {
    if |s| < 2 then []
    else if |s| <= 4 then GroupBytes(s)
    else GroupBytes(s[..4]) + DecodeSextets(s[4..])
  }

  /** `Buffer.from(text, 'base64')` */
  function Decode(t: string): seq<Byte> {
    DecodeSextets(ReadSextets(t))
  }

  // Decoding what was encoded

  lemma {:induction false} ReadChars(s: seq<Sextet>, pad: string)
    requires pad == [] || pad[0] == '='
    ensures ReadSextets(Chars(s) + pad) == s
  {
    if s == [] {
      assert Chars(s) + pad == pad;
    } else {
      var t := Chars(s) + pad;
      SextetRoundTrip(s[0]);
      assert t[0] == SextetChar(s[0]);
      assert t[1..] == Chars(s[1..]) + pad;
      ReadChars(s[1..], pad);
    }
  }

  lemma {:induction false} DecodeOfSextets(b: seq<Byte>)
    ensures DecodeSextets(Sextets(b)) == b
    decreases |b|
  {
    if b == [] {
    } else if |b| <= 3 {
      GroupRoundTrip(b);
    } else {
      var head := GroupSextets(b[..3]);
      var tail := Sextets(b[3..]);
      var s := head + tail;
      assert s[..4] == head;
      assert s[4..] == tail;
      EncodeLength(b[3..]);
      GroupRoundTrip(b[..3]);
      DecodeOfSextets(b[3..]);
      assert b == b[..3] + b[3..];
    }
  }

  /** Decoding gives back the encoded bytes. */
  lemma DecodeEncode(b: seq<Byte>)
    ensures Decode(Encode(b)) == b
  {
    ReadChars(Sextets(b), Padding(|b|));
    DecodeOfSextets(b);
  }
}
