/** JSON values and `JSON.stringify` without indentation, as the tools use it to
    produce their textual results.

    Numbers are modelled as integers: every number the core serialises is a
    count, a limit or a line total.
 */
module Json {

  import opened Strings

  datatype Json =
    | JNull
    | JBool(b: bool)
    | JNumber(n: int)
    | JString(s: string)
    | JArray(items: seq<Json>)
    | JObject(fields: seq<Field>)

  /** One `key: value` member of an object, in insertion order. */
  datatype Field = Field(key: string, value: Json)

  /** Lower-case hexadecimal digit, as `JSON.stringify` writes in `\u00xx`. */
  function HexDigit(d: nat): char
    requires d < 16
  {
    if d < 10 then Digit(d) else (87 + d) as char
  }

  predicate IsHexDigit(c: char) {
    IsDigit(c) || 'a' <= c <= 'f'
  }

  function HexValue(c: char): nat
    requires IsHexDigit(c)
  {
    if IsDigit(c) then DigitValue(c) else c as int - 87
  }

  /** How `JSON.stringify` writes one character of a string: the quote and the
      backslash are escaped, the five control characters with short escapes
      use them, the other control characters become `\u00xx`. */
  function EscapeChar(c: char): string {
    var n := c as int;
    if c == '"' then ['\\', '"']
    else if c == '\\' then ['\\', '\\']
    else if n == 0x08 then ['\\', 'b']
    else if n == 0x0C then ['\\', 'f']
    else if n == 0x0A then ['\\', 'n']
    else if n == 0x0D then ['\\', 'r']
    else if n == 0x09 then ['\\', 't']
    else if n < 0x20 then ['\\', 'u', '0', '0', HexDigit(n / 16), HexDigit(n % 16)]
    else [c]
  }

  function Escape(s: string): string {
    if s == [] then [] else EscapeChar(s[0]) + Escape(s[1..])
  }

  /** A string literal as `JSON.stringify` writes it. */
  function Quote(s: string): string {
    "\"" + Escape(s) + "\""
  }

  /** `JSON.stringify(j)` */
  function Stringify(j: Json): string
    decreases j
  {
    match j
    case JNull => "null"
    case JBool(b) => if b then "true" else "false"
    case JNumber(n) => IntToDecimal(n)
    case JString(s) => Quote(s)
    case JArray(items) => "[" + ItemsText(items) + "]"
    case JObject(fields) => "{" + FieldsText(fields) + "}"
  }

  /** The elements of an array, separated by commas. */
  function ItemsText(items: seq<Json>): string
    decreases items
  {
    if items == [] then ""
    else if |items| == 1 then Stringify(items[0])
    else Stringify(items[0]) + "," + ItemsText(items[1..])
  }

  /** The members of an object, separated by commas. */
  function FieldsText(fields: seq<Field>): string
    decreases fields
  {
    if fields == [] then ""
    else
      var f := Quote(fields[0].key) + ":" + Stringify(fields[0].value);
      if |fields| == 1 then f else f + "," + FieldsText(fields[1..])
  }

  /** Reading back the escapes `Escape` writes (what `JSON.parse` does with the
      inside of a string literal). */
  function Unescape(t: string): string
    decreases |t|
  {
    if t == [] then []
    else if t[0] == '\\' && |t| >= 2 then
      var e := t[1];
      if e == 'u' && |t| >= 6 && t[2] == '0' && t[3] == '0' && IsHexDigit(t[4]) && IsHexDigit(t[5]) then
        [(HexValue(t[4]) * 16 + HexValue(t[5])) as char] + Unescape(t[6..])
      else if e == 'b' then [8 as char] + Unescape(t[2..])
      else if e == 'f' then [12 as char] + Unescape(t[2..])
      else if e == 'n' then [10 as char] + Unescape(t[2..])
      else if e == 'r' then [13 as char] + Unescape(t[2..])
      else if e == 't' then [9 as char] + Unescape(t[2..])
      else [e] + Unescape(t[2..])
    else [t[0]] + Unescape(t[1..])
  }

  lemma HexRoundTrip(n: nat)
    requires n < 0x20
    ensures IsHexDigit(HexDigit(n / 16)) && IsHexDigit(HexDigit(n % 16))
    ensures HexValue(HexDigit(n / 16)) * 16 + HexValue(HexDigit(n % 16)) == n
  {
  }

  lemma UnescapeEscapeChar(c: char, rest: string)
    ensures Unescape(EscapeChar(c) + rest) == [c] + Unescape(rest)
  {
    var t := EscapeChar(c) + rest;
    var n := c as int;
    if n < 0x20 && n != 0x08 && n != 0x0C && n != 0x0A && n != 0x0D && n != 0x09 {
      HexRoundTrip(n);
      assert t[6..] == rest;
    } else if |EscapeChar(c)| == 2 {
      assert t[2..] == rest;
    } else {
      assert t[1..] == rest;
    }
  }

  /** Escaping loses nothing: the escapes read back to the original text. */
  lemma {:induction false} UnescapeEscape(s: string)
    ensures Unescape(Escape(s)) == s
  {
    if s != [] {
      UnescapeEscapeChar(s[0], Escape(s[1..]));
      UnescapeEscape(s[1..]);
    }
  }

  lemma EscapeInjective(a: string, b: string)
    requires Escape(a) == Escape(b)
    ensures a == b
  {
    UnescapeEscape(a);
    UnescapeEscape(b);
  }

  /** The text of an object starts with its first key, so objects whose
      first keys start differently are written differently. */
  lemma FirstKeyLetter(fields: seq<Field>)
    requires fields != [] && fields[0].key != [] && 'a' <= fields[0].key[0] <= 'z'
    ensures |Stringify(JObject(fields))| > 2 && Stringify(JObject(fields))[2] == fields[0].key[0]
  {
    var k := fields[0].key;
    assert Escape(k) == EscapeChar(k[0]) + Escape(k[1..]);
    var q := Quote(k);
    assert q[1] == k[0];
    var f := q + ":" + Stringify(fields[0].value);
    assert f[1] == k[0];
    var t := FieldsText(fields);
    assert t[1] == k[0] by {
      if |fields| != 1 {
        assert t == f + "," + FieldsText(fields[1..]);
      }
    }
    assert Stringify(JObject(fields)) == "{" + t + "}";
  }

  /** `JSON.stringify({error: message})`, the result the agent loops give the
      model for a tool call that threw. */
  function ErrorEnvelope(message: string): string {
    Stringify(JObject([Field("error", JString(message))]))
  }

  /** An error envelope is an object, never an array. */
  lemma EnvelopeNotArray(message: string, items: seq<Json>)
    ensures Stringify(JArray(items))[0] == '['
    ensures ErrorEnvelope(message) != Stringify(JArray(items))
  {
    assert ErrorEnvelope(message)[0] == '{';
  }

  /** The envelope written out character by character. */
  lemma ErrorEnvelopeText(message: string)
    ensures ErrorEnvelope(message) == "{\"error\":\"" + Escape(message) + "\"}"
  {
    var e := Escape(message);
    EnvelopeBraces(message);
    ErrorFieldText(message);
    Regroup("{", "\"error\":\"", e, "\"", "}");
    OpenAndClose();
  }

  // The three steps of `ErrorEnvelopeText`, each proved in a context of its
  // own: stated inline, the literal strings make the solver compare them
  // character by character.

  lemma EnvelopeBraces(message: string)
    ensures ErrorEnvelope(message) == "{" + FieldsText([Field("error", JString(message))]) + "}"
  {
  }

  lemma OpenAndClose()
    ensures "{" + "\"error\":\"" == "{\"error\":\""
    ensures "\"" + "}" == "\"}"
  {
  }

  lemma Regroup(a: string, b: string, e: string, c: string, d: string)
    ensures a + (b + e + c) + d == (a + b) + e + (c + d)
  {
  }

  lemma ErrorFieldText(message: string)
    ensures FieldsText([Field("error", JString(message))]) == "\"error\":\"" + Escape(message) + "\""
  {
    QuoteErrorKey();
  }

  lemma QuoteErrorKey()
    ensures Quote("error") == "\"error\""
  {
    EscapePlain("error");
  }

  /** Text without quotes, backslashes or control characters is written as
      it is. */
  lemma {:induction false} EscapePlain(s: string)
    requires forall i :: 0 <= i < |s| ==> s[i] != '"' && s[i] != '\\' && s[i] as int >= 0x20
    ensures Escape(s) == s
  {
    if s != [] {
      EscapePlain(s[1..]);
    }
  }

  /** Different messages give different envelopes. */
  lemma ErrorEnvelopeInjective(a: string, b: string)
    requires ErrorEnvelope(a) == ErrorEnvelope(b)
    ensures a == b
  {
    ErrorEnvelopeText(a);
    ErrorEnvelopeText(b);
    var p := "{\"error\":\"";
    var ea := ErrorEnvelope(a);
    assert Escape(a) == ea[|p|..|ea| - 2];
    assert Escape(b) == ErrorEnvelope(b)[|p|..|ea| - 2];
    EscapeInjective(a, b);
  }
}
