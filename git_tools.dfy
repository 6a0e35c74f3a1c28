/** The local git tools: `get_recent_commits`, `search_commits` and
    `list_changed_files`. Each runs `git log` once and turns its output into
    JSON; `execGit` is the parameter `git`, from arguments to the trimmed
    standard output. */
module GitTools {

  import opened Wrappers
  import opened Strings
  import opened Json
  import opened Seqs

  datatype Commit = Commit(hash: string, shortHash: string, author: string, date: string, message: string)

  /** `hash|shortHash|author|date|message` */
  const CommitFormat := "%H|%h|%an|%aI|%s"

  /** `${hours} hours ago`, for whole hours. */
  function Since(hours: int): string {
    IntToDecimal(hours) + " hours ago"
  }

  /** No shell is involved, so the quotes reach git as part of the
      argument. */
  function SinceArg(hours: int): string {
    "--since=\"" + Since(hours) + "\""
  }

  function RecentCommitsArgs(branch: string, hours: int): seq<string> {
    ["log", branch, SinceArg(hours), "--pretty=format:" + CommitFormat]
  }

  function SearchCommitsArgs(query: string, branch: string, hours: int): seq<string> {
    ["log", branch, SinceArg(hours), "--grep=" + query, "--regexp-ignore-case", "--pretty=format:" + CommitFormat]
  }

  function ChangedFilesArgs(branch: string, hours: int): seq<string> {
    ["log", branch, SinceArg(hours), "--name-only", "--pretty=format:"]
  }

  /** A destructured element, `''` when it is missing. */
  function Piece(parts: seq<string>, i: nat): string {
    if i < |parts| then parts[i] else ""
  }

  /** One line of the log: the first five `|`-separated pieces. */
  function ParseCommitLine(line: string): Commit {
    var p := Split(line, '|');
    Commit(Piece(p, 0), Piece(p, 1), Piece(p, 2), Piece(p, 3), Piece(p, 4))
  }

  /** The log's commits, one per line; empty output has none. */
  function ParseLog(output: string): (r: seq<Commit>)
    ensures output != [] ==> |r| == Count(output, '\n') + 1
  {
    if output == [] then []
    else
      var lines := Split(output, '\n');
      SplitJoin(output, '\n');
      seq(|lines|, i requires 0 <= i < |lines| => ParseCommitLine(lines[i]))
  }

  function CommitJson(c: Commit): Json {
    JObject([Field("hash", JString(c.hash)), Field("shortHash", JString(c.shortHash)),
             Field("author", JString(c.author)), Field("date", JString(c.date)),
             Field("message", JString(c.message))])
  }

  function CommitsJson(commits: seq<Commit>): (r: string)
    ensures commits == [] ==> r == "[]"
  {
    var items := seq(|commits|, i requires 0 <= i < |commits| => CommitJson(commits[i]));
    assert commits == [] ==> items == [] && Stringify(JArray(items)) == "[]";
    Stringify(JArray(items))
  }

  /** `get_recent_commits` */
  function GetRecentCommits(branch: string, hours: int, git: seq<string> -> Outcome<string>): (r: Outcome<string>)
    ensures r.Threw? <==> git(RecentCommitsArgs(branch, hours)).Threw?
    ensures git(RecentCommitsArgs(branch, hours)) == Returned("") ==> r == Returned("[]")
  {
    match git(RecentCommitsArgs(branch, hours))
    case Threw(e) => Threw(e)
    case Returned(output) => Returned(CommitsJson(ParseLog(output)))
  }

  /** `search_commits` */
  function SearchCommits(query: string, branch: string, hours: int, git: seq<string> -> Outcome<string>): (r: Outcome<string>)
    ensures r.Threw? <==> git(SearchCommitsArgs(query, branch, hours)).Threw?
    ensures git(SearchCommitsArgs(query, branch, hours)) == Returned("") ==> r == Returned("[]")
  {
    match git(SearchCommitsArgs(query, branch, hours))
    case Threw(e) => Threw(e)
    case Returned(output) => Returned(CommitsJson(ParseLog(output)))
  }

  /** The line of the log that a commit's fields make. */
  function FormatLine(c: Commit): string {
    Join([c.hash, c.shortHash, c.author, c.date, c.message], "|")
  }

  predicate PlainField(s: string) {
    '|' !in s && '\n' !in s
  }

  predicate PlainCommit(c: Commit) {
    PlainField(c.hash) && PlainField(c.shortHash) && PlainField(c.author) && PlainField(c.date) && PlainField(c.message)
  }

  /** Parsing a line undoes writing it, for fields without separators. */
  lemma ParseFormatLine(c: Commit)
    requires PlainCommit(c)
    ensures ParseCommitLine(FormatLine(c)) == c
  {
    var fs := [c.hash, c.shortHash, c.author, c.date, c.message];
    JoinSplit(fs, '|');
  }

  lemma FormatLineNoNewline(c: Commit)
    requires PlainCommit(c)
    ensures '\n' !in FormatLine(c) && FormatLine(c) != []
  {
    var fs := [c.hash, c.shortHash, c.author, c.date, c.message];
    SplitJoin(FormatLine(c), '|');
    JoinSplit(fs, '|');
    assert Count(FormatLine(c), '|') == 4;
    JoinNoChar(fs, '|', '\n');
  }

  lemma {:induction false} JoinNoChar(parts: seq<string>, sep: char, x: char)
    requires sep != x
    requires forall k :: 0 <= k < |parts| ==> x !in parts[k]
    ensures x !in Join(parts, [sep])
  {
    if |parts| > 1 {
      JoinNoChar(parts[1..], sep, x);
    }
  }

  /** The whole log reads back as the commits it was written from, in
      order. */
  lemma ParseLogOfLines(commits: seq<Commit>)
    requires commits != []
    requires forall i :: 0 <= i < |commits| ==> PlainCommit(commits[i])
    ensures ParseLog(Join(seq(|commits|, i requires 0 <= i < |commits| => FormatLine(commits[i])), "\n")) == commits
  {
    var lines := seq(|commits|, i requires 0 <= i < |commits| => FormatLine(commits[i]));
    forall k | 0 <= k < |lines|
      ensures '\n' !in lines[k] && ParseCommitLine(lines[k]) == commits[k]
    {
      FormatLineNoNewline(commits[k]);
      ParseFormatLine(commits[k]);
    }
    JoinSplit(lines, '\n');
    assert lines[0] != [] && Join(lines, "\n")[..|lines[0]|] == lines[0] by {
      FormatLineNoNewline(commits[0]);
      JoinStartsWithFirst(lines, "\n");
    }
  }

  lemma JoinStartsWithFirst(parts: seq<string>, sep: string)
    requires parts != []
    ensures |parts[0]| <= |Join(parts, sep)| && Join(parts, sep)[..|parts[0]|] == parts[0]
  {
  }

  /** Only the first five pieces are kept: a subject containing `|` is cut
      at its first `|` ... */
  lemma SubjectCutAtBar(c: Commit, more: string)
    requires PlainCommit(c)
    ensures ParseCommitLine(FormatLine(c) + "|" + more) == c
  {
    SplitJoinedThen([c.hash, c.shortHash, c.author, c.date, c.message], '|', more);
  }

  /** ... and missing pieces are empty. */
  lemma LineWithoutBars(line: string)
    requires '|' !in line
    ensures ParseCommitLine(line) == Commit(line, "", "", "", "")
  {
    SplitNoSeparator(line, '|');
  }

  /** Empty output gives `[]`. */
  lemma EmptyLogNoCommits(branch: string, query: string, hours: int, git: seq<string> -> Outcome<string>)
    requires git(RecentCommitsArgs(branch, hours)) == Returned("")
    requires git(SearchCommitsArgs(query, branch, hours)) == Returned("")
    ensures GetRecentCommits(branch, hours, git) == Returned("[]")
    ensures SearchCommits(query, branch, hours, git) == Returned("[]")
  {
    assert ParseLog("") == [];
    var none: seq<Commit> := [];
    assert seq(|none|, i requires 0 <= i < |none| => CommitJson(none[i])) == [];
    assert CommitsJson(none) == Stringify(JArray([])) == "[]";
    assert GetRecentCommits(branch, hours, git) == Returned(CommitsJson(ParseLog("")));
  }

  /** The search runs the same command as the recent-commits tool with the
      message filter, case-insensitive, before the format. */
  lemma SearchIsFilteredLog(query: string, branch: string, hours: int)
    ensures SearchCommitsArgs(query, branch, hours)
         == RecentCommitsArgs(branch, hours)[..3] + ["--grep=" + query, "--regexp-ignore-case"] + RecentCommitsArgs(branch, hours)[3..]
  {
  }

  /** The window is the number of hours followed by ` hours ago`. */
  lemma SinceReadsBack(hours: int)
    ensures ParseInt(Since(hours)) == Some(hours)
    ensures EndsWith(Since(hours), " hours ago")
  {
    ParseIntOfDecimal(hours, " hours ago");
  }

  /** `[...new Set(lines.map(trim).filter(nonEmpty))]` */
  function NonBlankLines(lines: seq<string>): (r: seq<string>)
    ensures forall x :: x in r <==> exists i :: 0 <= i < |lines| && Trim(lines[i]) == x && x != ""
  {
    if lines == [] then []
    else
      var rest := NonBlankLines(lines[1..]);
      assert forall i :: 1 <= i < |lines| ==> lines[i] == lines[1..][i - 1];
      assert forall i :: 0 <= i < |lines[1..]| ==> lines[1..][i] == lines[i + 1];
      var t := Trim(lines[0]);
      if t == "" then rest else [t] + rest
  }

  /** The changed paths of the log, each once, in order of first mention. */
  function ChangedFileNames(output: string): seq<string> {
    if output == [] then [] else Dedup(NonBlankLines(Split(output, '\n')))
  }

  /** `list_changed_files` */
  function ListChangedFiles(branch: string, hours: int, git: seq<string> -> Outcome<string>): (r: Outcome<string>)
    ensures r.Threw? <==> git(ChangedFilesArgs(branch, hours)).Threw?
    ensures git(ChangedFilesArgs(branch, hours)) == Returned("") ==> r == Returned("[]")
  {
    match git(ChangedFilesArgs(branch, hours))
    case Threw(e) => Threw(e)
    case Returned(output) =>
      var files := ChangedFileNames(output);
      var items := seq(|files|, i requires 0 <= i < |files| => JString(files[i]));
      assert output == [] ==> items == [] && Stringify(JArray(items)) == "[]";
      Returned(Stringify(JArray(items)))
  }

  /** A path is listed exactly when it is a non-blank trimmed line of the
      log, and no path is listed twice. */
  lemma ChangedFileNamesContents(output: string, x: string)
    ensures x in ChangedFileNames(output) <==>
      exists i :: 0 <= i < |Split(output, '\n')| && Trim(Split(output, '\n')[i]) == x && x != ""
    ensures Distinct(ChangedFileNames(output))
  {
    var lines := Split(output, '\n');
    if output == [] {
      assert ChangedFileNames(output) == [];
      EmptyHasNoLines(x);
    } else {
      var nb := NonBlankLines(lines);
      assert ChangedFileNames(output) == Dedup(nb);
      DedupMembers(nb, x);
      assert x in nb <==> exists i :: 0 <= i < |lines| && Trim(lines[i]) == x && x != "";
    }
  }

  lemma EmptyHasNoLines(x: string)
    ensures !exists i :: 0 <= i < |Split("", '\n')| && Trim(Split("", '\n')[i]) == x && x != ""
  {
    assert Split("", '\n') == [""];
    TrimEmptyIff("");
  }

  lemma DedupMembers(s: seq<string>, x: string)
    ensures x in Dedup(s) <==> x in s
  {
  }

  /** Paths keep the order in which they first occur. */
  lemma ChangedFileNamesOrder(output: string, i: int, j: int)
    requires output != []
    requires 0 <= i < j < |ChangedFileNames(output)|
    ensures var lines := NonBlankLines(Split(output, '\n'));
      FirstIndex(lines, ChangedFileNames(output)[i]) < FirstIndex(lines, ChangedFileNames(output)[j])
  {
    DedupFirstOccurrenceOrder(NonBlankLines(Split(output, '\n')));
  }
}
