/** Report file names (agents/repo-sentinel/src/helpers/report-utils.ts):
    `YYYY-MM-DDTHH-MM-SSZ-<project>-<branch>-<topic>.md`, the reading back of
    the timestamp, and the newest-first ordering of a report directory.
 */
module ReportUtils {

  import opened Wrappers
  import opened Strings
  import opened Calendar
  import opened Sorting
  import Env

  /** `!s.trim()` */
  predicate Blank(s: string) {
    Trim(s) == []
  }

  // Sanitising, for ASCII text

  /** `toLowerCase` on one ASCII character. */
  function LowerAscii(c: char): char {
    if 'A' <= c <= 'Z' then (c as int + 32) as char else c
  }

  predicate IsSlugChar(c: char) {
    'a' <= c <= 'z' || '0' <= c <= '9' || c == '-'
  }

  /** `s.toLowerCase().replace(/[^a-z0-9-]/g, '-')` */
  function Slug(s: string): (r: string)
    ensures |r| == |s|
    ensures forall i :: 0 <= i < |r| ==> IsSlugChar(r[i])
  {
    seq(|s|, i requires 0 <= i < |s| => if IsSlugChar(LowerAscii(s[i])) then LowerAscii(s[i]) else '-')
  }

  predicate NoDoubleHyphen(s: string) {
    forall i :: 0 <= i < |s| - 1 ==> !(s[i] == '-' && s[i + 1] == '-')
  }

  /** `.replace(/-+/g, '-')`: every run of hyphens becomes one hyphen. */
  function CollapseHyphens(s: string): (r: string)
    ensures |r| <= |s|
    ensures s != [] ==> r != [] && r[0] == s[0]
    ensures NoDoubleHyphen(r)
    ensures forall i :: 0 <= i < |r| ==> r[i] in s
  {
    if |s| < 2 then s
    else if s[0] == '-' && s[1] == '-' then CollapseHyphens(s[1..])
    else [s[0]] + CollapseHyphens(s[1..])
  }

  /** The arrow function `sanitize` of `generateReportFilename`. */
  function Sanitize(s: string): (r: string)
    ensures |r| <= |s|
    ensures forall i :: 0 <= i < |r| ==> IsSlugChar(r[i])
    ensures NoDoubleHyphen(r)
  {
    CollapseHyphens(Slug(s))
  }

  /** The text without its hyphens. */
  function Unhyphenated(s: string): string {
    if s == [] then [] else (if s[0] == '-' then [] else [s[0]]) + Unhyphenated(s[1..])
  }

  /** Collapsing removes hyphens and nothing else. */
  lemma {:induction false} CollapseKeepsOtherChars(s: string)
    ensures Unhyphenated(CollapseHyphens(s)) == Unhyphenated(s)
  {
    if |s| >= 2 {
      CollapseKeepsOtherChars(s[1..]);
      if !(s[0] == '-' && s[1] == '-') {
        assert ([s[0]] + CollapseHyphens(s[1..]))[1..] == CollapseHyphens(s[1..]);
      }
    }
  }

  lemma {:induction false} CollapseNoop(s: string)
    requires NoDoubleHyphen(s)
    ensures CollapseHyphens(s) == s
  {
    if |s| >= 2 {
      CollapseNoop(s[1..]);
      assert s == [s[0]] + s[1..];
    }
  }

  lemma SlugNoop(s: string)
    requires forall i :: 0 <= i < |s| ==> IsSlugChar(s[i])
    ensures Slug(s) == s
  {
  }

  /** Sanitising twice is sanitising once. */
  lemma SanitizeIdempotent(s: string)
    ensures Sanitize(Sanitize(s)) == Sanitize(s)
  {
    var r := Sanitize(s);
    SlugNoop(r);
    CollapseNoop(r);
  }

  /** Text that is already a slug is left alone. */
  lemma SanitizeNoop(s: string)
    requires forall i :: 0 <= i < |s| ==> IsSlugChar(s[i])
    requires NoDoubleHyphen(s)
    ensures Sanitize(s) == s
  {
    SlugNoop(s);
    CollapseNoop(s);
  }

  // The timestamp prefix

  /** `.replace(/\.\d{3}Z$/, 'Z')` */
  function DropMilliseconds(s: string): string {
    if |s| >= 5 && s[|s| - 5] == '.' && AllDigits(s[|s| - 4..|s| - 1]) && s[|s| - 1] == 'Z'
    then s[..|s| - 5] + "Z"
    else s
  }

  /** `date.toISOString().replace(/\.\d{3}Z$/, 'Z').replace(/:/g, '-')` */
  function IsoTimestamp(date: TimeValue): string {
    ReplaceAll(DropMilliseconds(ToIsoString(date)), ':', '-')
  }

  /** The prefix is the date, `T`, the clock with hyphens, and `Z`. */
  lemma IsoTimestampText(date: TimeValue)
    ensures IsoTimestamp(date) == StampText(ToDateTime(date), '-')
  {
    var c := ToDateTime(date);
    DropMillisecondsOfIso(c);
    StampHyphens(c);
  }

  lemma DropMillisecondsOfIso(c: DateTime)
    requires Printable(c)
    ensures DropMilliseconds(IsoText(c)) == DateText(c) + "T" + ClockText(c, ':') + "Z"
  {
    var iso := IsoText(c);
    var ms := FixedDigits(c.millisecond, 3);
    assert iso == (DateText(c) + "T" + ClockText(c, ':')) + "." + ms + "Z";
    assert iso[|iso| - 4..|iso| - 1] == ms;
  }

  lemma StampHyphens(c: DateTime)
    requires Printable(c)
    ensures ReplaceAll(DateText(c) + "T" + ClockText(c, ':') + "Z", ':', '-') == StampText(c, '-')
  {
    var d, k := DateText(c), ClockText(c, ':');
    ReplaceAllAppend(d + "T" + k, "Z", ':', '-');
    ReplaceAllAppend(d + "T", k, ':', '-');
    NoColonInDate(c);
    ReplaceAllAbsent(d + "T", ':', '-');
    ReplaceAllAbsent("Z", ':', '-');
    ClockHyphens(c);
  }

  lemma NoColonInDate(c: DateTime)
    requires Printable(c)
    ensures ':' !in DateText(c) + "T"
  {
    var y, m, d := YearText(c.year), FixedDigits(c.month, 2), FixedDigits(c.day, 2);
    assert forall i :: 0 <= i < |y| ==> y[i] != ':';
    assert DateText(c) + "T" == y + "-" + m + "-" + d + "T";
  }

  lemma ClockHyphens(c: DateTime)
    requires Printable(c)
    ensures ReplaceAll(ClockText(c, ':'), ':', '-') == ClockText(c, '-')
  {
    var h, m, s := FixedDigits(c.hour, 2), FixedDigits(c.minute, 2), FixedDigits(c.second, 2);
    ReplaceAllAppend(h + [':'] + m + [':'], s, ':', '-');
    ReplaceAllAppend(h + [':'] + m, [':'], ':', '-');
    ReplaceAllAppend(h + [':'], m, ':', '-');
    ReplaceAllAppend(h, [':'], ':', '-');
    ReplaceAllAbsent(h, ':', '-');
    ReplaceAllAbsent(m, ':', '-');
    ReplaceAllAbsent(s, ':', '-');
  }

  // Generating and parsing names

  /** `generateReportFilename(project, branch, topic, date)` */
  function GenerateReportFilename(project: string, branch: string, topic: string, date: TimeValue): (r: Outcome<string>)
    ensures r.Threw? <==> Blank(project) || Blank(branch) || Blank(topic)
    ensures Blank(project) ==> r == Threw(ErrorObject("project cannot be empty"))
    ensures !Blank(project) && Blank(branch) ==> r == Threw(ErrorObject("branch cannot be empty"))
    ensures !Blank(project) && !Blank(branch) && Blank(topic) ==> r == Threw(ErrorObject("topic cannot be empty"))
  {
    if Blank(project) then Threw(ErrorObject("project cannot be empty"))
    else if Blank(branch) then Threw(ErrorObject("branch cannot be empty"))
    else if Blank(topic) then Threw(ErrorObject("topic cannot be empty"))
    else Returned(IsoTimestamp(date) + "-" + NameBody(project, branch, topic) + ".md")
  }

  /** `${sanitize(project)}-${sanitize(branch)}-${sanitize(topic)}` */
  function NameBody(project: string, branch: string, topic: string): string {
    Sanitize(project) + "-" + Sanitize(branch) + "-" + Sanitize(topic)
  }

  /** `\d{4}-\d{2}-\d{2}T\d{2}-\d{2}-\d{2}Z` */
  predicate StampShape(s: string) {
    |s| == 20 && AllDigits(s[0..4]) && s[4] == '-' && AllDigits(s[5..7]) && s[7] == '-'
    && AllDigits(s[8..10]) && s[10] == 'T' && AllDigits(s[11..13]) && s[13] == '-'
    && AllDigits(s[14..16]) && s[16] == '-' && AllDigits(s[17..19]) && s[19] == 'Z'
  }

  /** The match of `/^(\d{4}-\d{2}-\d{2}T\d{2}-\d{2}-\d{2}Z)-/`. */
  predicate HasStampPrefix(f: string) {
    |f| >= 21 && StampShape(f[..20]) && f[20] == '-'
  }

  /** A stamp with `T(\d{2})-(\d{2})-(\d{2})Z` rewritten to `T$1:$2:$3Z`. */
  function ColonClock(s: string): (r: string)
    requires StampShape(s)
    ensures IsoSecondsShape(r)
  {
    var r := s[..13] + ":" + s[14..16] + ":" + s[17..20];
    assert r[0..4] == s[0..4] && r[5..7] == s[5..7] && r[8..10] == s[8..10] && r[11..13] == s[11..13];
    assert r[14..16] == s[14..16] && r[17..19] == s[17..19];
    r
  }

  /** `match[1]`, rewritten. */
  function IsoOfStamp(f: string): (s: string)
    requires HasStampPrefix(f)
    ensures IsoSecondsShape(s)
  {
    ColonClock(f[..20])
  }

  /** `parseReportTimestamp(filename)`: `None` is `null`. */
  function ParseReportTimestamp(filename: string): (r: Option<TimeValue>)
    ensures !HasStampPrefix(filename) ==> r == None
    ensures HasStampPrefix(filename) ==> r == ParseIsoSeconds(IsoOfStamp(filename))
  {
    if HasStampPrefix(filename) then ParseIsoSeconds(IsoOfStamp(filename)) else None
  }

  /** A generated name reads back as its date, truncated to the second, for
      every date with a four-digit year. */
  lemma ParseGenerated(project: string, branch: string, topic: string, date: TimeValue)
    requires GenerateReportFilename(project, branch, topic, date).Returned?
    requires 0 <= ToDateTime(date).year <= 9999
    ensures ParseReportTimestamp(GenerateReportFilename(project, branch, topic, date).value).Some?
    ensures ParseReportTimestamp(GenerateReportFilename(project, branch, topic, date).value).value
         == date - date % MsPerSecond
  {
    IsoTimestampText(date);
    StampTextSlices(ToDateTime(date), '-');
    NameStart(IsoTimestamp(date), NameBody(project, branch, topic));
    StampOfGenerated(ToDateTime(date), GenerateReportFilename(project, branch, topic, date).value);
    ParseSecondsText(date);
  }

  /** A name starts with its twenty-character stamp and a hyphen. */
  lemma NameStart(stamp: string, body: string)
    requires |stamp| == 20
    ensures var f := stamp + "-" + body + ".md";
      |f| >= 21 && f[..20] == stamp && f[20] == '-'
  {
  }

  lemma StampOfGenerated(c: DateTime, f: string)
    requires Printable(c) && 0 <= c.year <= 9999
    requires |f| >= 21 && f[..20] == StampText(c, '-') && f[20] == '-'
    ensures HasStampPrefix(f)
    ensures IsoOfStamp(f) == SecondsText(c)
  {
    ColonClockOfStamp(c);
  }

  lemma ColonClockOfStamp(c: DateTime)
    requires Printable(c) && 0 <= c.year <= 9999
    ensures StampShape(StampText(c, '-'))
    ensures ColonClock(StampText(c, '-')) == SecondsText(c)
  {
    StampTextSlices(c, '-');
    var head := DateText(c) + "T" + FixedDigits(c.hour, 2);
    var m, s := FixedDigits(c.minute, 2), FixedDigits(c.second, 2) + "Z";
    StampPieces(c, '-');
    StampPieces(c, ':');
    RegroupClock(head, m, s, '-');
  }

  lemma StampPieces(c: DateTime, sep: char)
    requires Printable(c)
    ensures StampText(c, sep) == (DateText(c) + "T" + FixedDigits(c.hour, 2)) + [sep]
                                 + FixedDigits(c.minute, 2) + [sep] + (FixedDigits(c.second, 2) + "Z")
  {
  }

  lemma RegroupClock(head: string, m: string, s: string, sep: char)
    requires |head| == 13 && |m| == 2 && |s| == 3
    ensures var x := head + [sep] + m + [sep] + s;
      x[..13] + ":" + x[14..16] + ":" + x[17..20] == head + [':'] + m + [':'] + s
  {
    var x := head + [sep] + m + [sep] + s;
    assert x[..13] == head && x[14..16] == m && x[17..20] == s;
  }

  /** The example name the system prompt suggests,
      `2025-11-28-14-30-chromium-src-main.md`, has no timestamp prefix. */
  lemma PromptExampleUnparsed()
    ensures ParseReportTimestamp("2025-11-28-14-30-chromium-src-main.md") == None
  {
    assert "2025-11-28-14-30-chromium-src-main.md"[10] == '-';
  }

  /** Dates outside years 0 to 9999 are written with a sign and six digits,
      so their names never read back. */
  lemma WideYearsUnparsed(project: string, branch: string, topic: string, date: TimeValue)
    requires GenerateReportFilename(project, branch, topic, date).Returned?
    requires !(0 <= ToDateTime(date).year <= 9999)
    ensures ParseReportTimestamp(GenerateReportFilename(project, branch, topic, date).value) == None
  {
    IsoTimestampText(date);
    SignedStamp(ToDateTime(date), GenerateReportFilename(project, branch, topic, date).value);
  }

  lemma SignedStamp(c: DateTime, f: string)
    requires Printable(c) && !(0 <= c.year <= 9999)
    requires f != [] && f[0] == StampText(c, '-')[0]
    ensures !HasStampPrefix(f)
  {
    assert StampText(c, '-')[0] == YearText(c.year)[0];
    if |f| >= 20 {
      assert f[..20][0..4][0] == f[0];
    }
  }

  // Ordering a report directory

  /** The comparator of `getReportFilenames`: parsed timestamps, newest first;
      names without one last. */
  function NameKey(name: string): SortKey {
    match ParseReportTimestamp(name)
    case Some(t) => Timed(t)
    case None => Untimed
  }

  function MarkdownNames(files: seq<string>): (r: seq<string>)
    ensures |r| <= |files|
    ensures forall i :: 0 <= i < |r| ==> EndsWith(r[i], ".md")
    ensures multiset(r) <= multiset(files)
    ensures forall x :: x in files && EndsWith(x, ".md") ==> x in r
  {
    if files == [] then []
    else
      assert files == [files[0]] + files[1..];
      (if EndsWith(files[0], ".md") then [files[0]] else []) + MarkdownNames(files[1..])
  }

  /** The names of a readable report directory: its `.md` names, newest
      first. */
  function SortedReports(files: seq<string>): seq<string> {
    Sort(MarkdownNames(files), NameKey)
  }

  /** `getReportFilenames()`. `readdir` lists a directory, or gives `None`
      when reading it fails. `getReportDir()` is called outside the `try`, so
      an unset `REPORT_DIR` makes the call throw; an unreadable directory
      gives no names. */
  function ReportFilenames(env: Env.Environment, readdir: string -> Option<seq<string>>): (r: Outcome<seq<string>>)
    ensures r.Threw? <==> Env.Unset(env, "REPORT_DIR")
    ensures r.Threw? ==> r.error == Env.NotSetError("REPORT_DIR")
    ensures !Env.Unset(env, "REPORT_DIR") && readdir(env["REPORT_DIR"]).None? ==> r == Returned([])
  {
    match Env.Required(env, "REPORT_DIR")
    case Threw(e) => Threw(e)
    case Returned(reportDir) =>
      match readdir(reportDir)
      case None => Returned([])
      case Some(files) => Returned(SortedReports(files))
  }

  /** For a readable directory: only and every `.md` name, newest timestamp
      first, names without a timestamp after all names with one, ties in
      directory order. */
  lemma ReportFilenamesOrder(env: Env.Environment, readdir: string -> Option<seq<string>>, k: SortKey)
    requires !Env.Unset(env, "REPORT_DIR") && readdir(env["REPORT_DIR"]).Some?
    ensures var files := readdir(env["REPORT_DIR"]).value;
      var r := ReportFilenames(env, readdir);
      && r == Returned(SortedReports(files))
      && multiset(r.value) == multiset(MarkdownNames(files))
      && Sorted(r.value, NameKey)
      && WithKey(r.value, NameKey, k) == WithKey(MarkdownNames(files), NameKey, k)
  {
    var files := readdir(env["REPORT_DIR"]).value;
    SortPermutes(MarkdownNames(files), NameKey);
    SortSorted(MarkdownNames(files), NameKey);
    SortStable(MarkdownNames(files), NameKey, k);
  }

  /** The filter keeps the listing's order: filtering two listings one after
      the other is filtering their concatenation. */
  lemma {:induction false} MarkdownNamesAppend(a: seq<string>, b: seq<string>)
    ensures MarkdownNames(a + b) == MarkdownNames(a) + MarkdownNames(b)
  {
    if a == [] {
      assert a + b == b;
    } else {
      assert (a + b)[1..] == a[1..] + b;
      MarkdownNamesAppend(a[1..], b);
    }
  }

  /** The filter keeps every copy of a `.md` name and no copy of any other. */
  lemma {:induction false} MarkdownNamesCount(files: seq<string>, x: string)
    ensures multiset(MarkdownNames(files))[x] == if EndsWith(x, ".md") then multiset(files)[x] else 0
  {
    if files != [] {
      MarkdownNamesCount(files[1..], x);
      assert files == [files[0]] + files[1..];
    }
  }
}
