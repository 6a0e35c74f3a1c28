/** The JavaScript string operations the core relies on: `trim`, `split` with a
    one-character separator, `join`, `startsWith`/`endsWith`, single-character
    replacement and decimal rendering of integers.

    Strings are sequences of characters; a JavaScript string is a sequence of
    UTF-16 code units, which coincides with this model for text in the Basic
    Multilingual Plane.
 */
module Strings {

  import opened Wrappers

  /** JavaScript's WhiteSpace and LineTerminator characters, which `trim` and
      `parseInt` skip. */
  predicate IsJsWhitespace(c: char) {
    var n := c as int;
    n == 0x09 || n == 0x0A || n == 0x0B || n == 0x0C || n == 0x0D || n == 0x20 ||
    n == 0xA0 || n == 0x1680 || (0x2000 <= n <= 0x200A) || n == 0x2028 || n == 0x2029 ||
    n == 0x202F || n == 0x205F || n == 0x3000 || n == 0xFEFF
  }

  predicate AllWhitespace(s: string) {
    forall i :: 0 <= i < |s| ==> IsJsWhitespace(s[i])
  }

  /** Neither the first nor the last character is whitespace. */
  predicate NoOuterWhitespace(s: string) {
    s == [] || (!IsJsWhitespace(s[0]) && !IsJsWhitespace(s[|s| - 1]))
  }

  // Trimming. `trim` keeps the characters between the first and the last
  // non-whitespace character; `trimStart` keeps everything from the first.

  /** The first index at or after `i` whose character is not whitespace, or
      `|s|` when there is none. */
  function SkipFrom(s: string, i: nat): (j: nat)
    requires i <= |s|
    decreases |s| - i
    ensures i <= j <= |s|
    ensures forall k :: i <= k < j ==> IsJsWhitespace(s[k])
    ensures j == |s| || !IsJsWhitespace(s[j])
  {
    if i < |s| && IsJsWhitespace(s[i]) then SkipFrom(s, i + 1) else i
  }

  /** Going down from `j` but not below `lo`, the index just past the last
      character that is not whitespace. */
  function BackFrom(s: string, lo: nat, j: nat): (h: nat)
    requires lo <= j <= |s|
    decreases j - lo
    ensures lo <= h <= j
    ensures forall k :: h <= k < j ==> IsJsWhitespace(s[k])
    ensures h == lo || !IsJsWhitespace(s[h - 1])
  {
    if lo < j && IsJsWhitespace(s[j - 1]) then BackFrom(s, lo, j - 1) else j
  }

  /** Where `trim` starts: past the leading whitespace. */
  function TrimLo(s: string): nat
    ensures TrimLo(s) <= |s|
  {
    SkipFrom(s, 0)
  }

  /** Where `trim` ends: before the trailing whitespace. */
  function TrimHi(s: string): nat
    ensures TrimLo(s) <= TrimHi(s) <= |s|
  {
    BackFrom(s, TrimLo(s), |s|)
  }

  /** `s.trimStart()` */
  function TrimStart(s: string): string {
    s[TrimLo(s)..]
  }

  /** `s.trim()` */
  function Trim(s: string): string {
    s[TrimLo(s)..TrimHi(s)]
  }

  // Properties of trim

  /** Everything `trim` cuts off on either side is whitespace. */
  lemma TrimCutsWhitespace(s: string)
    ensures forall k :: 0 <= k < TrimLo(s) ==> IsJsWhitespace(s[k])
    ensures forall k :: TrimHi(s) <= k < |s| ==> IsJsWhitespace(s[k])
    ensures AllWhitespace(s[..TrimLo(s)]) && AllWhitespace(s[TrimHi(s)..])
  {
    var lo, hi := TrimLo(s), TrimHi(s);
    assert forall k :: 0 <= k < lo ==> s[..lo][k] == s[k];
    assert forall k :: 0 <= k < |s| - hi ==> s[hi..][k] == s[hi + k];
  }

  /** No whitespace is left at either end. */
  lemma TrimNoOuterWhitespace(s: string)
    ensures NoOuterWhitespace(Trim(s))
  {
    var lo, hi := TrimLo(s), TrimHi(s);
    var r := Trim(s);
    if r != [] {
      assert r[0] == s[lo];
      assert r[|r| - 1] == s[hi - 1];
    }
  }

  /** A string without whitespace at either end is left as it is. */
  lemma TrimOfTrimmed(s: string)
    requires NoOuterWhitespace(s)
    ensures Trim(s) == s
  {
    if s != [] {
      assert TrimLo(s) == 0;
      assert BackFrom(s, 0, |s|) == |s|;
    }
  }

  /** `trim` is idempotent. */
  lemma TrimIdempotent(s: string)
    ensures Trim(Trim(s)) == Trim(s)
  {
    TrimNoOuterWhitespace(s);
    TrimOfTrimmed(Trim(s));
  }

  lemma {:induction false} SkipAll(s: string, i: nat)
    requires i <= |s|
    requires forall k :: i <= k < |s| ==> IsJsWhitespace(s[k])
    ensures SkipFrom(s, i) == |s|
    decreases |s| - i
  {
    if i < |s| {
      SkipAll(s, i + 1);
    }
  }

  /** `!s.trim()` holds exactly for strings made only of whitespace. */
  lemma TrimEmptyIff(s: string)
    ensures Trim(s) == [] <==> AllWhitespace(s)
  {
    if AllWhitespace(s) {
      SkipAll(s, 0);
    }
  }

  lemma {:induction false} SkipFromShift(w: string, x: string, i: nat)
    requires i <= |w|
    requires AllWhitespace(w)
    ensures SkipFrom(w + x, i) == |w| + SkipFrom(x, 0)
    decreases |w| - i
  {
    if i < |w| {
      assert (w + x)[i] == w[i];
      SkipFromShift(w, x, i + 1);
    } else {
      SkipFromTail(w, x, 0);
    }
  }

  lemma {:induction false} SkipFromTail(w: string, x: string, j: nat)
    requires j <= |x|
    ensures SkipFrom(w + x, |w| + j) == |w| + SkipFrom(x, j)
    decreases |x| - j
  {
    if j < |x| {
      assert (w + x)[|w| + j] == x[j];
      SkipFromTail(w, x, j + 1);
    }
  }

  /** Leading whitespace does not change what `trimStart` keeps. */
  lemma TrimStartSkipsWhitespace(w: string, x: string)
    requires AllWhitespace(w)
    ensures TrimStart(w + x) == TrimStart(x)
  {
    SkipFromShift(w, x, 0);
    var m := SkipFrom(x, 0);
    assert (w + x)[|w| + m..] == x[m..];
  }

  function StartsWith(s: string, prefix: string): bool {
    |prefix| <= |s| && s[..|prefix|] == prefix
  }

  function EndsWith(s: string, suffix: string): bool {
    |suffix| <= |s| && s[|s| - |suffix|..] == suffix
  }

  function Count(s: string, c: char): nat {
    if s == [] then 0 else (if s[0] == c then 1 else 0) + Count(s[1..], c)
  }

  /** `s.split(c)` for a one-character separator. */
  function Split(s: string, c: char): (r: seq<string>)
    ensures |r| > 0
  {
    if s == [] then [""]
    else
      var rest := Split(s[1..], c);
      if s[0] == c then [""] + rest else [[s[0]] + rest[0]] + rest[1..]
  }

  /** `parts.join(sep)` */
  function Join(parts: seq<string>, sep: string): string {
    if parts == [] then ""
    else if |parts| == 1 then parts[0]
    else parts[0] + sep + Join(parts[1..], sep)
  }

  /** `split` gives one piece more than there are separators, no piece
      contains the separator, and joining the pieces gives the string back. */
  lemma SplitJoin(s: string, c: char)
    ensures |Split(s, c)| == Count(s, c) + 1
    ensures forall k :: 0 <= k < |Split(s, c)| ==> c !in Split(s, c)[k]
    ensures Join(Split(s, c), [c]) == s
  {
    SplitCount(s, c);
    SplitPiecesFree(s, c);
    SplitJoinBack(s, c);
  }

  lemma {:induction false} SplitCount(s: string, c: char)
    ensures |Split(s, c)| == Count(s, c) + 1
  {
    if s != [] {
      SplitCount(s[1..], c);
    }
  }

  lemma {:induction false} SplitPiecesFree(s: string, c: char)
    ensures forall k :: 0 <= k < |Split(s, c)| ==> c !in Split(s, c)[k]
  {
    if s != [] {
      SplitPiecesFree(s[1..], c);
      var rest := Split(s[1..], c);
      var r := Split(s, c);
      if s[0] != c {
        forall k | 0 <= k < |r| ensures c !in r[k] {
          if k > 0 { assert r[k] == rest[k]; }
        }
      }
    }
  }

  lemma {:induction false} SplitJoinBack(s: string, c: char)
    ensures Join(Split(s, c), [c]) == s
  {
    if s != [] {
      SplitJoinBack(s[1..], c);
      var rest := Split(s[1..], c);
      if s[0] == c {
        assert s == [c] + s[1..];
      } else if |rest| == 1 {
        assert s == [s[0]] + rest[0];
      } else {
        var r := Split(s, c);
        assert r[0] == [s[0]] + rest[0];
        assert r[1..] == rest[1..];
        assert Join(rest, [c]) == rest[0] + [c] + Join(rest[1..], [c]);
      }
    }
  }

  /** Text without the separator is one piece ... */
  lemma {:induction false} SplitNoSeparator(a: string, c: char)
    requires c !in a
    ensures Split(a, c) == [a]
  {
    if a != [] {
      SplitNoSeparator(a[1..], c);
      assert a == [a[0]] + a[1..];
    }
  }

  /** ... and a separator after it ends the first piece. */
  lemma {:induction false} SplitAfterPiece(a: string, c: char, t: string)
    requires c !in a
    ensures Split(a + [c] + t, c) == [a] + Split(t, c)
  {
    var s := a + [c] + t;
    if a == [] {
      assert s == [c] + t;
      assert s[1..] == t;
    } else {
      assert s[0] == a[0] && s[1..] == a[1..] + [c] + t;
      SplitAfterPiece(a[1..], c, t);
      assert a == [a[0]] + a[1..];
    }
  }

  /** Splitting undoes joining when no piece holds the separator. */
  lemma {:induction false} JoinSplit(parts: seq<string>, c: char)
    requires parts != []
    requires forall k :: 0 <= k < |parts| ==> c !in parts[k]
    ensures Split(Join(parts, [c]), c) == parts
  {
    if |parts| == 1 {
      SplitNoSeparator(parts[0], c);
    } else {
      JoinSplit(parts[1..], c);
      SplitAfterPiece(parts[0], c, Join(parts[1..], [c]));
      assert parts == [parts[0]] + parts[1..];
    }
  }

  lemma JoinThenFirst(parts: seq<string>, c: char, t: string)
    requires |parts| >= 2
    ensures Join(parts, [c]) + [c] + t == parts[0] + [c] + (Join(parts[1..], [c]) + [c] + t)
  {
    assert Join(parts, [c]) == parts[0] + [c] + Join(parts[1..], [c]);
  }

  lemma SplitJoinedStep(parts: seq<string>, c: char, t: string)
    requires |parts| >= 2 && c !in parts[0]
    requires Split(Join(parts[1..], [c]) + [c] + t, c) == parts[1..] + Split(t, c)
    ensures Split(Join(parts, [c]) + [c] + t, c) == parts + Split(t, c)
  {
    var u := Join(parts[1..], [c]) + [c] + t;
    JoinThenFirst(parts, c, t);
    SplitPieceThen(parts[0], c, u, Join(parts, [c]) + [c] + t, parts[1..] + Split(t, c));
    ConsAppend(parts, Split(t, c));
  }

  lemma ConsAppend<T>(x: seq<T>, tail: seq<T>)
    requires x != []
    ensures [x[0]] + (x[1..] + tail) == x + tail
  {
    assert x == [x[0]] + x[1..];
  }

  lemma SplitPieceThen(a: string, c: char, u: string, whole: string, rest: seq<string>)
    requires c !in a && whole == a + [c] + u && Split(u, c) == rest
    ensures Split(whole, c) == [a] + rest
  {
    SplitAfterPiece(a, c, u);
  }

  /** Pieces joined and followed by more text split back into the pieces
      and the pieces of the rest. */
  lemma {:induction false} SplitJoinedThen(parts: seq<string>, c: char, t: string)
    requires parts != []
    requires forall k :: 0 <= k < |parts| ==> c !in parts[k]
    ensures Split(Join(parts, [c]) + [c] + t, c) == parts + Split(t, c)
  {
    if |parts| == 1 {
      assert c !in parts[0];
      SplitAfterPiece(parts[0], c, t);
    } else {
      var rest := parts[1..];
      assert forall k :: 0 <= k < |rest| ==> c !in rest[k] by {
        forall k | 0 <= k < |rest| ensures c !in rest[k] {
          assert rest[k] == parts[k + 1];
        }
      }
      var u := Join(rest, [c]) + [c] + t;
      SplitJoinedThen(rest, c, t);
      SplitJoinedStep(parts, c, t);
    }
  }

  /** `s.replace(/a/g, b)` for single characters. */
  function ReplaceAll(s: string, a: char, b: char): (r: string)
    ensures |r| == |s|
    ensures forall i :: 0 <= i < |s| ==> r[i] == if s[i] == a then b else s[i]
  {
    if s == [] then [] else [if s[0] == a then b else s[0]] + ReplaceAll(s[1..], a, b)
  }

  lemma {:induction false} ReplaceAllAppend(s: string, t: string, a: char, b: char)
    ensures ReplaceAll(s + t, a, b) == ReplaceAll(s, a, b) + ReplaceAll(t, a, b)
  {
    if s != [] {
      assert (s + t)[1..] == s[1..] + t;
      ReplaceAllAppend(s[1..], t, a, b);
    }
  }

  lemma {:induction false} ReplaceAllAbsent(s: string, a: char, b: char)
    requires a !in s
    ensures ReplaceAll(s, a, b) == s
  {
    if s != [] {
      ReplaceAllAbsent(s[1..], a, b);
    }
  }

  /** `s.replace(a, b)` with a one-character string pattern: only the first
      occurrence is replaced. */
  function ReplaceFirst(s: string, a: char, b: char): (r: string)
    ensures |r| == |s|
  {
    if s == [] then []
    else if s[0] == a then [b] + s[1..]
    else [s[0]] + ReplaceFirst(s[1..], a, b)
  }

  /** With `a` first at position `|u|`, exactly that position changes. */
  lemma {:induction false} ReplaceFirstAt(u: string, a: char, b: char, v: string)
    requires a !in u
    ensures ReplaceFirst(u + [a] + v, a, b) == u + [b] + v
  {
    if u != [] {
      assert (u + [a] + v)[1..] == u[1..] + [a] + v;
      ReplaceFirstAt(u[1..], a, b, v);
    }
  }

  // Decimal digits

  predicate IsDigit(c: char) {
    '0' <= c <= '9'
  }

  predicate AllDigits(s: string) {
    forall i :: 0 <= i < |s| ==> IsDigit(s[i])
  }

  function Digit(d: nat): (c: char)
    requires d < 10
    ensures IsDigit(c)
  {
    (48 + d) as char
  }

  function DigitValue(c: char): nat
    requires IsDigit(c)
  {
    c as int - 48
  }

  /** The number a string of decimal digits denotes. */
  function DecimalValue(s: string): nat
    requires AllDigits(s)
  {
    if s == [] then 0 else DecimalValue(s[..|s| - 1]) * 10 + DigitValue(s[|s| - 1])
  }

  function Pow10(w: nat): (p: nat)
    ensures p >= 1
  {
    if w == 0 then 1 else 10 * Pow10(w - 1)
  }

  /** `n` written with exactly `w` decimal digits, zero-padded on the left:
      the `padStart(w, '0')` rendering used in date strings. */
  function FixedDigits(n: nat, w: nat): (r: string)
    requires n < Pow10(w)
    ensures |r| == w && AllDigits(r)
  {
    if w == 0 then "" else FixedDigits(n / 10, w - 1) + [Digit(n % 10)]
  }

  lemma {:induction false} FixedDigitsValue(n: nat, w: nat)
    requires n < Pow10(w)
    ensures DecimalValue(FixedDigits(n, w)) == n
  {
    if w > 0 {
      var r := FixedDigits(n, w);
      assert r[..|r| - 1] == FixedDigits(n / 10, w - 1);
      FixedDigitsValue(n / 10, w - 1);
    }
  }

  /** `w` digits denote less than `10^w`. */
  lemma {:induction false} DecimalBound(s: string)
    requires AllDigits(s)
    ensures DecimalValue(s) < Pow10(|s|)
  {
    if s != [] {
      DecimalBound(s[..|s| - 1]);
    }
  }

  /** Decimal rendering of a natural number, as `String(n)` gives it. */
  function NatToDecimal(n: nat): (r: string)
    ensures |r| >= 1 && AllDigits(r)
  {
    if n < 10 then [Digit(n)] else NatToDecimal(n / 10) + [Digit(n % 10)]
  }

  lemma {:induction false} NatToDecimalValue(n: nat)
    ensures DecimalValue(NatToDecimal(n)) == n
  {
    if n >= 10 {
      var r := NatToDecimal(n);
      assert r[..|r| - 1] == NatToDecimal(n / 10);
      NatToDecimalValue(n / 10);
    }
  }

  /** Decimal rendering of an integer, as `String(i)` / `${i}` give it. */
  function IntToDecimal(i: int): (r: string)
    ensures |r| >= 1
  {
    if i < 0 then "-" + NatToDecimal(-i) else NatToDecimal(i)
  }

  /** Distinct integers have distinct renderings. */
  lemma IntToDecimalInjective(a: int, b: int)
    requires IntToDecimal(a) == IntToDecimal(b)
    ensures a == b
  {
    assert a < 0 <==> IntToDecimal(a)[0] == '-';
    assert b < 0 <==> IntToDecimal(b)[0] == '-';
    if a < 0 {
      assert NatToDecimal(-a) == IntToDecimal(a)[1..];
      NatToDecimalValue(-a);
      NatToDecimalValue(-b);
    } else {
      NatToDecimalValue(a);
      NatToDecimalValue(b);
    }
  }

  // parseInt(s, 10)

  /** The longest prefix of `s` made of decimal digits. */
  function LeadingDigits(s: string): (r: string)
    ensures |r| <= |s| && r == s[..|r|] && AllDigits(r)
    ensures |r| == |s| || !IsDigit(s[|r|])
  {
    if s != [] && IsDigit(s[0]) then [s[0]] + LeadingDigits(s[1..]) else ""
  }

  /** `parseInt(s, 10)`: leading whitespace is skipped, an optional sign is
      read, then the longest run of decimal digits; `None` stands for `NaN`,
      which results when there is no digit. Whatever follows the digits is
      ignored. */
  function ParseInt(s: string): Option<int> {
    ParseSigned(TrimStart(s))
  }

  /** `parseInt` once the leading whitespace is gone: a `-` negates, a `+`
      is skipped. */
  function ParseSigned(t: string): Option<int> {
    if t != [] && t[0] == '-' then Negate(ParseDigits(t[1..]))
    else if t != [] && t[0] == '+' then ParseDigits(t[1..])
    else ParseDigits(t)
  }

  /** The value of the leading digits of `u`; none without a digit. */
  function ParseDigits(u: string): Option<int> {
    var digits := LeadingDigits(u);
    if digits == [] then None else Some(DecimalValue(digits))
  }

  function Negate(v: Option<int>): Option<int> {
    match v
    case None => None
    case Some(n) => Some(-n)
  }

  lemma {:induction false} LeadingDigitsOfDigits(d: string, tail: string)
    requires AllDigits(d)
    requires tail == [] || !IsDigit(tail[0])
    ensures LeadingDigits(d + tail) == d
  {
    if d != [] {
      assert (d + tail)[1..] == d[1..] + tail;
      LeadingDigitsOfDigits(d[1..], tail);
    }
  }

  /** `parseInt` reads back what `String(i)` wrote, whatever non-digit text
      follows it. */
  lemma ParseIntOfDecimal(i: int, tail: string)
    requires tail == [] || !IsDigit(tail[0])
    ensures ParseInt(IntToDecimal(i) + tail) == Some(i)
  {
    if i < 0 {
      ParseIntOfNegative(-i, tail);
    } else {
      ParseIntOfNatural(i, tail);
    }
  }

  lemma ParseIntOfNegative(n: nat, tail: string)
    requires tail == [] || !IsDigit(tail[0])
    ensures ParseInt("-" + NatToDecimal(n) + tail) == Some(-(n as int))
  {
    ParseIntMinus(NatToDecimal(n), tail);
    ParseDigitsOfNat(n, tail);
  }

  lemma ParseIntMinus(d: string, tail: string)
    ensures ParseInt("-" + d + tail) == Negate(ParseDigits(d + tail))
  {
    var u := d + tail;
    assert "-" + d + tail == "-" + u;
    TrimStartNoop("-" + u);
    ParseSignedMinus(u);
  }

  lemma ParseDigitsOfNat(n: nat, tail: string)
    requires tail == [] || !IsDigit(tail[0])
    ensures ParseDigits(NatToDecimal(n) + tail) == Some(n as int)
  {
    ParseDigitsOfDigits(NatToDecimal(n), tail);
    NatToDecimalValue(n);
  }

  lemma ParseIntOfNatural(n: nat, tail: string)
    requires tail == [] || !IsDigit(tail[0])
    ensures ParseInt(NatToDecimal(n) + tail) == Some(n)
  {
    var d := NatToDecimal(n);
    var u := d + tail;
    assert u[0] == d[0];
    TrimStartNoop(u);
    ParseSignedUnsigned(d, tail);
    NatToDecimalValue(n);
  }

  lemma TrimStartNoop(s: string)
    requires s != [] && (s[0] == '-' || IsDigit(s[0]))
    ensures TrimStart(s) == s
  {
    NotWhitespace(s[0]);
  }

  lemma NotWhitespace(c: char)
    requires c == '-' || IsDigit(c)
    ensures !IsJsWhitespace(c)
  {
  }

  /** A leading `-` negates what the digits after it give. */
  lemma ParseSignedMinus(u: string)
    ensures ParseSigned("-" + u) == Negate(ParseDigits(u))
  {
    assert ("-" + u)[1..] == u;
  }

  lemma ParseDigitsOfDigits(d: string, tail: string)
    requires d != [] && AllDigits(d)
    requires tail == [] || !IsDigit(tail[0])
    ensures ParseDigits(d + tail) == Some(DecimalValue(d) as int)
  {
    LeadingDigitsOfDigits(d, tail);
  }

  lemma ParseSignedUnsigned(d: string, tail: string)
    requires d != [] && AllDigits(d)
    requires tail == [] || !IsDigit(tail[0])
    ensures ParseSigned(d + tail) == Some(DecimalValue(d))
  {
    assert (d + tail)[0] == d[0];
    ParseDigitsOfDigits(d, tail);
  }

  /** Leading whitespace does not change what `parseInt` reads. */
  lemma ParseIntSkipsWhitespace(w: string, x: string)
    requires AllWhitespace(w)
    ensures ParseInt(w + x) == ParseInt(x)
  {
    TrimStartSkipsWhitespace(w, x);
  }

  /** A string whose first non-blank character is not a sign or a digit reads
      as `NaN`. */
  lemma ParseIntNaN(s: string)
    requires var t := TrimStart(s); t == [] || (t[0] != '-' && t[0] != '+' && !IsDigit(t[0]))
    ensures ParseInt(s) == None
  {
  }
}
