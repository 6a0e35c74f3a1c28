/** Gerrit search queries: the `YYYY-MM-DD HH:MM:SS` timestamps Gerrit's
    `after:` operator takes, and `key:value` terms joined by spaces. */
module GerritQuery {

  import opened Wrappers
  import opened Strings
  import opened Calendar

  /** `date.toISOString().replace('T', ' ').slice(0, 19)` */
  function FormatGerritTimestamp(date: TimeValue): string {
    var s := ReplaceFirst(ToIsoString(date), 'T', ' ');
    s[..if |s| < 19 then |s| else 19]
  }

  lemma NoTInDate(c: DateTime)
    requires Printable(c)
    ensures 'T' !in DateText(c)
  {
    var y, m, d := YearText(c.year), FixedDigits(c.month, 2), FixedDigits(c.day, 2);
    assert forall i :: 0 <= i < |y| ==> y[i] != 'T';
    assert DateText(c) == y + "-" + m + "-" + d;
  }

  lemma GerritText(c: DateTime)
    requires Printable(c) && 0 <= c.year <= 9999
    ensures var s := ReplaceFirst(IsoText(c), 'T', ' ');
      |s| >= 19 && s[..19] == DateText(c) + " " + ClockText(c, ':')
  {
    var d, k := DateText(c), ClockText(c, ':');
    var tail := k + "." + FixedDigits(c.millisecond, 3) + "Z";
    DateTextPieces(c);
    NoTInDate(c);
    assert IsoText(c) == d + ['T'] + tail;
    ReplaceFirstAt(d, 'T', ' ', tail);
    var s := d + [' '] + tail;
    assert s[..19] == d + [' '] + k;
  }

  /** For four-digit years the timestamp is the date, a space and the time
      of day to the second. */
  lemma GerritTimestampText(date: TimeValue)
    requires 0 <= ToDateTime(date).year <= 9999
    ensures FormatGerritTimestamp(date) == DateText(ToDateTime(date)) + " " + ClockText(ToDateTime(date), ':')
  {
    GerritText(ToDateTime(date));
  }

  /** The timestamp loses only the milliseconds: written back in ISO form it
      reads as the time value truncated to the second. */
  lemma GerritTimestampReadBack(date: TimeValue)
    requires 0 <= ToDateTime(date).year <= 9999
    ensures var g := FormatGerritTimestamp(date);
      |g| == 19 && IsoSecondsShape(g[..10] + "T" + g[11..] + "Z")
      && ParseIsoSeconds(g[..10] + "T" + g[11..] + "Z").Some?
      && ParseIsoSeconds(g[..10] + "T" + g[11..] + "Z").value == date - date % MsPerSecond
  {
    var c := ToDateTime(date);
    var g := FormatGerritTimestamp(date);
    GerritTimestampText(date);
    DateTextPieces(c);
    assert g[..10] == DateText(c) && g[11..] == ClockText(c, ':');
    ParseSecondsText(date);
  }

  /** One term: values with a space are quoted. */
  function Term(key: string, value: string): string {
    if ' ' in value then key + ":\"" + value + "\"" else key + ":" + value
  }

  /** The terms of the parameters that have a value, in key order. */
  function Terms(params: seq<(string, Option<string>)>): (r: seq<string>)
    ensures |r| <= |params|
  {
    if params == [] then []
    else
      var rest := Terms(params[1..]);
      match params[0].1
      case None => rest
      case Some(v) => [Term(params[0].0, v)] + rest
  }

  /** `buildGerritQuery(params)`; the entries are in the key order of the
      object. */
  function BuildGerritQuery(params: seq<(string, Option<string>)>): string {
    Join(Terms(params), " ")
  }

  /** Parameters without a value leave no trace. */
  lemma {:induction false} AbsentOmitted(a: seq<(string, Option<string>)>, key: string, b: seq<(string, Option<string>)>)
    ensures Terms(a + [(key, None)] + b) == Terms(a + b)
  {
    if a == [] {
      assert a + [(key, None)] + b == [(key, None)] + b;
      assert ([(key, None)] + b)[1..] == b;
      assert a + b == b;
    } else {
      assert (a + [(key, None)] + b)[1..] == a[1..] + [(key, None)] + b;
      assert (a + b)[1..] == a[1..] + b;
      AbsentOmitted(a[1..], key, b);
    }
  }

  /** With no values the query is empty. */
  lemma {:induction false} NoValuesEmpty(params: seq<(string, Option<string>)>)
    requires forall i :: 0 <= i < |params| ==> params[i].1.None?
    ensures BuildGerritQuery(params) == ""
  {
    if params != [] {
      NoValuesEmpty(params[1..]);
    }
  }

  /** Where a term's value starts: after the first `:`. */
  function ColonIndex(t: string): (i: nat)
    ensures i <= |t|
    ensures ':' !in t[..i]
    ensures i < |t| ==> t[i] == ':'
  {
    if t == [] || t[0] == ':' then 0 else 1 + ColonIndex(t[1..])
  }

  /** Drops the quotes around a value holding a space. */
  function Unquote(s: string): string {
    if |s| >= 2 && s[0] == '"' && s[|s| - 1] == '"' && ' ' in s[1..|s| - 1] then s[1..|s| - 1] else s
  }

  /** Reads a term back into its key and value. */
  function ParseTerm(t: string): (string, string) {
    var i := ColonIndex(t);
    (t[..i], if i < |t| then Unquote(t[i + 1..]) else "")
  }

  lemma {:induction false} ColonIndexAfter(key: string, rest: string)
    requires ':' !in key
    ensures ColonIndex(key + ":" + rest) == |key|
  {
    if key != [] {
      assert (key + ":" + rest)[1..] == key[1..] + ":" + rest;
      ColonIndexAfter(key[1..], rest);
    }
  }

  /** Quoting is undone by reading: a term gives back its key and value
      whenever the key has no colon. */
  lemma TermRoundTrip(key: string, value: string)
    requires ':' !in key
    ensures ParseTerm(Term(key, value)) == (key, value)
  {
    var t := Term(key, value);
    if ' ' in value {
      var q := "\"" + value + "\"";
      assert t == key + ":" + q;
      ColonIndexAfter(key, q);
      assert t[..|key|] == key && t[|key| + 1..] == q;
      assert q[1..|q| - 1] == value;
    } else {
      ColonIndexAfter(key, value);
      assert t[..|key|] == key && t[|key| + 1..] == value;
      if |value| >= 2 {
        assert value[1..|value| - 1] <= value[1..];
        assert ' ' !in value[1..|value| - 1];
      }
    }
  }

  /** Without spaces in keys and values, splitting the query on spaces gives
      back the terms. */
  lemma QuerySplit(params: seq<(string, Option<string>)>)
    requires Terms(params) != []
    requires forall i :: 0 <= i < |params| ==> ' ' !in params[i].0 && (params[i].1.Some? ==> ' ' !in params[i].1.value)
    ensures Split(BuildGerritQuery(params), ' ') == Terms(params)
  {
    TermsWithoutSpaces(params);
    JoinSplit(Terms(params), ' ');
  }

  lemma {:induction false} TermsWithoutSpaces(params: seq<(string, Option<string>)>)
    requires forall i :: 0 <= i < |params| ==> ' ' !in params[i].0 && (params[i].1.Some? ==> ' ' !in params[i].1.value)
    ensures forall k :: 0 <= k < |Terms(params)| ==> ' ' !in Terms(params)[k]
  {
    if params != [] {
      TermsWithoutSpaces(params[1..]);
    }
  }

  /** The examples of the function's documentation. */
  lemma ExampleMerged()
    ensures BuildGerritQuery([("project", Some("chromium/src")), ("status", Some("merged")), ("branch", Some("main"))])
         == "project:chromium/src status:merged branch:main"
  {
    ProjectTerm();
    PlainTerm("status", "merged");
    PlainTerm("branch", "main");
    ThreeTerms("project", "chromium/src", "status", "merged", "branch", "main");
    JoinedMerged();
  }

  lemma JoinedMerged()
    ensures "project:chromium/src" + " " + ("status" + ":" + "merged" + " " + ("branch" + ":" + "main"))
         == "project:chromium/src status:merged branch:main"
  {
  }

  lemma ExampleAfter()
    ensures BuildGerritQuery([("project", Some("chromium/src")), ("after", Some("2025-11-27 08:00:00"))])
         == "project:chromium/src after:\"2025-11-27 08:00:00\""
  {
    ProjectTerm();
    AfterTerm();
    TwoTerms("project", "chromium/src", "after", Some("2025-11-27 08:00:00"));
    JoinedAfter();
  }

  lemma JoinedAfter()
    ensures "project:chromium/src" + " " + ("after" + ":\"" + "2025-11-27 08:00:00" + "\"")
         == "project:chromium/src after:\"2025-11-27 08:00:00\""
  {
  }

  lemma ExampleDir()
    ensures BuildGerritQuery([("project", Some("chromium/src")), ("dir", Some("src/components")), ("file", None)])
         == "project:chromium/src dir:src/components"
  {
    ProjectTerm();
    PlainTerm("dir", "src/components");
    AbsentOmitted([("project", Some("chromium/src")), ("dir", Some("src/components"))], "file", []);
    assert [("project", Some("chromium/src")), ("dir", Some("src/components"))] + [("file", None)] + []
        == [("project", Some("chromium/src")), ("dir", Some("src/components")), ("file", None)];
    TwoTerms("project", "chromium/src", "dir", Some("src/components"));
    JoinedDir();
  }

  lemma JoinedDir()
    ensures "project:chromium/src" + " " + ("dir" + ":" + "src/components") == "project:chromium/src dir:src/components"
  {
  }

  lemma TwoTerms(k1: string, v1: string, k2: string, v2: Option<string>)
    requires v2.Some?
    ensures BuildGerritQuery([(k1, Some(v1)), (k2, v2)]) == Term(k1, v1) + " " + Term(k2, v2.value)
  {
    var ps := [(k1, Some(v1)), (k2, v2)];
    assert ps[1..] == [(k2, v2)];
    assert ps[1..][1..] == [];
    assert Terms(ps[1..]) == [Term(k2, v2.value)];
    var ts := Terms(ps);
    assert ts == [Term(k1, v1), Term(k2, v2.value)];
    assert ts[1..] == [Term(k2, v2.value)];
    assert Join(ts, " ") == ts[0] + " " + Join(ts[1..], " ");
  }

  lemma ThreeTerms(k1: string, v1: string, k2: string, v2: string, k3: string, v3: string)
    ensures BuildGerritQuery([(k1, Some(v1)), (k2, Some(v2)), (k3, Some(v3))])
         == Term(k1, v1) + " " + (Term(k2, v2) + " " + Term(k3, v3))
  {
    var ps := [(k1, Some(v1)), (k2, Some(v2)), (k3, Some(v3))];
    assert ps[1..] == [(k2, Some(v2)), (k3, Some(v3))];
    assert ps[1..][1..] == [(k3, Some(v3))];
    assert ps[1..][1..][1..] == [];
    assert Terms(ps[1..][1..]) == [Term(k3, v3)];
    assert Terms(ps[1..]) == [Term(k2, v2), Term(k3, v3)];
    var ts := Terms(ps);
    assert ts == [Term(k1, v1), Term(k2, v2), Term(k3, v3)];
    assert ts[1..] == [Term(k2, v2), Term(k3, v3)];
    assert ts[1..][1..] == [Term(k3, v3)];
    assert Join(ts[1..], " ") == ts[1] + " " + Join(ts[1..][1..], " ");
    assert Join(ts, " ") == ts[0] + " " + Join(ts[1..], " ");
  }

  lemma PlainTerm(key: string, value: string)
    requires forall i :: 0 <= i < |value| ==> value[i] != ' '
    ensures Term(key, value) == key + ":" + value
  {
  }

  lemma QuotedTerm(key: string, value: string, i: int)
    requires 0 <= i < |value| && value[i] == ' '
    ensures Term(key, value) == key + ":\"" + value + "\""
  {
  }

  lemma ProjectTerm()
    ensures Term("project", "chromium/src") == "project:chromium/src"
  {
    PlainTerm("project", "chromium/src");
  }

  lemma AfterTerm()
    ensures Term("after", "2025-11-27 08:00:00") == "after" + ":\"" + "2025-11-27 08:00:00" + "\""
  {
    QuotedTerm("after", "2025-11-27 08:00:00", 10);
  }
}
