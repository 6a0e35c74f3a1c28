/** Null-byte sniffing of libraries/binary-utils/src/index.ts: content is taken
    for binary when a zero byte (or, for text, a `'\x00'` code unit) occurs
    among its first `checkLength` elements. Text is a JavaScript string, a
    sequence of UTF-16 code units.
 */
module BinaryUtils {

  import opened Base64

  const DefaultCheckLength := 1000

  /** Where `subarray(0, k)` and `slice(0, k)` end on a sequence of length
      `n`: a negative `k` counts from the end. */
  function SliceEnd(n: nat, k: int): (e: nat)
    ensures e <= n
    ensures k >= 0 ==> e == if k < n then k else n
  {
    if k >= 0 then (if k < n then k else n)
    else if n + k > 0 then n + k else 0
  }

  /** A larger non-negative `checkLength` never ends the sample earlier
      (a negative one counts from the end, so `-1` looks at more than `0`). */
  lemma SliceEndMonotone(n: nat, k: int, k': int)
    requires 0 <= k <= k'
    ensures SliceEnd(n, k) <= SliceEnd(n, k')
  {
  }

  /** The test both functions make: a zero among the first `checkLength`
      elements, bytes for a buffer and code units for a string. */
  function ZeroWithin(content: seq<int>, checkLength: int): (r: bool)
    ensures r <==> exists i :: 0 <= i < SliceEnd(|content|, checkLength) && content[i] == 0
  {
    var sample := content[..SliceEnd(|content|, checkLength)];
    assert forall i :: 0 <= i < |sample| ==> sample[i] == content[i];
    0 in sample
  }

  /** Looking at more never un-finds a zero. */
  lemma ZeroWithinMonotone(content: seq<int>, k: int, k': int)
    requires 0 <= k <= k' && ZeroWithin(content, k)
    ensures ZeroWithin(content, k')
  {
    SliceEndMonotone(|content|, k, k');
  }

  /** `isBinaryBuffer(buffer, checkLength)` */
  function IsBinaryBuffer(buffer: seq<Byte>, checkLength: int): bool {
    ZeroWithin(buffer, checkLength)
  }

  /** A UTF-16 code unit. A JavaScript string is a sequence of these, and
      `length` and `slice` count them. */
  type CodeUnit = x: int | 0 <= x < 0x1_0000

  /** The code units of one Unicode scalar value: one below U+10000, a
      surrogate pair above. Only U+0000 yields a zero unit. */
  function UnitsOf(c: char): (r: seq<CodeUnit>)
    ensures |r| == if c as int < 0x1_0000 then 1 else 2
    ensures 0 in r <==> c == 0 as char
  {
    var n := c as int;
    if n < 0x1_0000 then [n]
    else [0xD800 + (n - 0x1_0000) / 0x400, 0xDC00 + (n - 0x1_0000) % 0x400]
  }

  /** The JavaScript string holding the text `s`. */
  function Utf16(s: string): (units: seq<CodeUnit>)
    ensures |units| >= |s|
  {
    if s == [] then [] else Utf16(s[..|s| - 1]) + UnitsOf(s[|s| - 1])
  }

  lemma {:induction false} Utf16Append(a: string, b: string)
    ensures Utf16(a + b) == Utf16(a) + Utf16(b)
    decreases |b|
  {
    if b == [] {
      assert a + b == a;
    } else {
      var b' := b[..|b| - 1];
      assert (a + b)[..|a + b| - 1] == a + b';
      Utf16Append(a, b');
    }
  }

  /** A zero code unit of a text's string stands exactly where a U+0000
      character of the text begins. */
  lemma {:induction false} ZeroUnitAt(s: string, j: int)
    requires 0 <= j < |Utf16(s)| && Utf16(s)[j] == 0
    ensures exists i :: 0 <= i < |s| && s[i] == 0 as char && |Utf16(s[..i])| == j
    decreases |s|
  {
    var s' := s[..|s| - 1];
    var last := s[|s| - 1];
    if j < |Utf16(s')| {
      ZeroUnitAt(s', j);
      var i :| 0 <= i < |s'| && s'[i] == 0 as char && |Utf16(s'[..i])| == j;
      assert s[..i] == s'[..i];
    } else {
      assert UnitsOf(last)[j - |Utf16(s')|] == 0;
      assert last == 0 as char;
      assert s[..|s| - 1] == s';
    }
  }

  lemma CharUnit(s: string, i: int)
    requires 0 <= i < |s|
    ensures |Utf16(s[..i])| < |Utf16(s)|
    ensures Utf16(s)[|Utf16(s[..i])|] == UnitsOf(s[i])[0]
  {
    assert s == s[..i] + [s[i]] + s[i + 1..];
    Utf16Append(s[..i] + [s[i]], s[i + 1..]);
    Utf16Append(s[..i], [s[i]]);
    assert [s[i]][..0] == [];
  }

  /** `isBinary(content, checkLength)`: `slice` cuts the string after
      `checkLength` code units. */
  function IsBinary(content: seq<CodeUnit>, checkLength: int): bool {
    ZeroWithin(content, checkLength)
  }

  /** For a text: binary exactly when a U+0000 character begins within the
      first `checkLength` code units. */
  lemma IsBinaryOfText(s: string, checkLength: int)
    ensures IsBinary(Utf16(s), checkLength) <==>
      exists i :: 0 <= i < |s| && s[i] == 0 as char && |Utf16(s[..i])| < SliceEnd(|Utf16(s)|, checkLength)
  {
    var e := SliceEnd(|Utf16(s)|, checkLength);
    if IsBinary(Utf16(s), checkLength) {
      var j :| 0 <= j < e && Utf16(s)[j] == 0;
      ZeroUnitAt(s, j);
    }
    if exists i :: 0 <= i < |s| && s[i] == 0 as char && |Utf16(s[..i])| < e {
      var i :| 0 <= i < |s| && s[i] == 0 as char && |Utf16(s[..i])| < e;
      CharUnit(s, i);
    }
  }

  /** Characters above U+FFFF take two code units each. */
  lemma {:induction false} AstralUnits(p: string)
    requires forall i :: 0 <= i < |p| ==> p[i] as int >= 0x1_0000
    ensures |Utf16(p)| == 2 * |p| && 0 !in Utf16(p)
    decreases |p|
  {
    if p != [] {
      AstralUnits(p[..|p| - 1]);
    }
  }

  /** A U+0000 after `n` characters above U+FFFF starts at code unit `2n`,
      so a `checkLength` of up to `2n` does not reach it: 600 emoji and a
      NUL are not binary under the default 1000, although the NUL is the
      601st character. */
  lemma AstralTextHidesNul(p: string, checkLength: int)
    requires forall i :: 0 <= i < |p| ==> p[i] as int >= 0x1_0000
    requires 0 <= checkLength <= 2 * |p|
    ensures !IsBinary(Utf16(p + [0 as char]), checkLength)
  {
    AstralUnits(p);
    Utf16Append(p, [0 as char]);
    assert [0 as char][..0] == [];
    assert Utf16([0 as char]) == [0];
  }

  /** `isBinaryBase64(base64Content, checkLength)` */
  function IsBinaryBase64(base64Content: string, checkLength: int): bool {
    IsBinaryBuffer(Decode(base64Content), checkLength)
  }

  /** A zero byte past the first `checkLength` bytes is not seen. */
  lemma LateZeroUnseen(prefix: seq<Byte>, rest: seq<Byte>)
    requires 0 !in prefix
    ensures !IsBinaryBuffer(prefix + rest, |prefix|)
  {
    assert forall i :: 0 <= i < |prefix| ==> (prefix + rest)[i] == prefix[i];
  }

  /** With the default length: a buffer of 1000 non-zero bytes followed by a
      zero is not reported. */
  lemma DefaultLengthMissesByte1000(prefix: seq<Byte>)
    requires |prefix| == DefaultCheckLength && 0 !in prefix
    ensures !IsBinaryBuffer(prefix + [0], DefaultCheckLength)
    ensures IsBinaryBuffer(prefix + [0], DefaultCheckLength + 1)
  {
    LateZeroUnseen(prefix, [0]);
    assert (prefix + [0])[|prefix|] == 0;
  }

  /** Negative lengths count from the end: `-1` looks at all but the last
      byte, while `0` looks at nothing. */
  lemma NegativeLengthFromEnd(buffer: seq<Byte>)
    requires |buffer| >= 2 && buffer[0] == 0
    ensures IsBinaryBuffer(buffer, -1)
    ensures !IsBinaryBuffer(buffer, 0)
  {
  }

  /** A buffer without a zero byte is never binary. */
  lemma NoZeroNeverBinary(buffer: seq<Byte>, k: int)
    requires 0 !in buffer
    ensures !IsBinaryBuffer(buffer, k)
  {
  }

  /** Sniffing the base64 text of a buffer is sniffing the buffer. */
  lemma IsBinaryBase64OfEncode(buffer: seq<Byte>, k: int)
    ensures IsBinaryBase64(Encode(buffer), k) == IsBinaryBuffer(buffer, k)
  {
    DecodeEncode(buffer);
  }
}
