/** The `list_reports` tool: the newest reports of the report directory,
    newest first, as a JSON array. */
module ListReports {

  import opened Wrappers
  import opened Strings
  import opened Calendar
  import opened Sorting
  import opened Json
  import Paths
  import ReportUtils
  import Env

  const MaxLimit := 100

  const LimitError := "limit must be between 1 and 100"

  datatype ReportInfo = ReportInfo(filename: string, modifiedAt: TimeValue)

  /** Reports sort by modification time, newest first, ties in listing order. */
  function MtimeKey(r: ReportInfo): SortKey {
    Timed(r.modifiedAt)
  }

  /** The `stat` of every name, in order; names whose `stat` fails are dropped. */
  function Stats(reportDir: string, names: seq<string>, stat: string -> Option<TimeValue>): (r: seq<ReportInfo>)
    ensures forall x :: x in r ==> x.filename in names && stat(Paths.Join(reportDir, x.filename)) == Some(x.modifiedAt)
    ensures forall n :: n in names && stat(Paths.Join(reportDir, n)).Some? ==> ReportInfo(n, stat(Paths.Join(reportDir, n)).value) in r
  {
    if names == [] then []
    else
      var rest := Stats(reportDir, names[1..], stat);
      assert forall n :: n in names ==> n == names[0] || n in names[1..];
      match stat(Paths.Join(reportDir, names[0]))
      case None => rest
      case Some(t) => [ReportInfo(names[0], t)] + rest
  }

  /** Every report that `stat` could read, newest first. */
  function AllReports(reportDir: string, files: seq<string>, stat: string -> Option<TimeValue>): seq<ReportInfo> {
    Sort(Stats(reportDir, ReportUtils.MarkdownNames(files), stat), MtimeKey)
  }

  /** `reports.slice(0, limit)` */
  function Listed(limit: int, reportDir: string, files: seq<string>, stat: string -> Option<TimeValue>): seq<ReportInfo>
    requires 1 <= limit
  {
    var all := AllReports(reportDir, files, stat);
    all[..if limit < |all| then limit else |all|]
  }

  function InfoJson(r: ReportInfo): Json {
    JObject([Field("filename", JString(r.filename)), Field("modifiedAt", JString(ToIsoString(r.modifiedAt)))])
  }

  /** The tool's result. `readdir` lists a directory, or gives `None` when
      reading it fails; `stat` gives the modification time of a path, or
      `None` when `stat` fails. `getReportDir()` is called after the limit
      check and outside the `try`, so an unset `REPORT_DIR` makes the tool
      throw for an accepted limit. */
  function ListReports(limit: int, env: Env.Environment, readdir: string -> Option<seq<string>>,
                       stat: string -> Option<TimeValue>): (r: Outcome<string>)
    ensures r == Returned(ErrorEnvelope(LimitError)) <==> limit < 1 || limit > MaxLimit
    ensures 1 <= limit <= MaxLimit ==> (r.Threw? <==> Env.Unset(env, "REPORT_DIR"))
    ensures r.Threw? ==> r.error == Env.NotSetError("REPORT_DIR")
    ensures 1 <= limit <= MaxLimit && !Env.Unset(env, "REPORT_DIR") && readdir(env["REPORT_DIR"]).None?
      ==> r == Returned("[]")
  {
    if limit < 1 || limit > MaxLimit then Returned(ErrorEnvelope(LimitError))
    else
      match Env.Required(env, "REPORT_DIR")
      case Threw(e) => Threw(e)
      case Returned(reportDir) => Returned(ListingJson(limit, reportDir, readdir(reportDir), stat))
  }

  /** The JSON array for an accepted limit, once the directory is read: never
      the limit error, and `[]` for an unreadable directory. */
  function ListingJson(limit: int, reportDir: string, listing: Option<seq<string>>,
                       stat: string -> Option<TimeValue>): (text: string)
    requires 1 <= limit
    ensures text != ErrorEnvelope(LimitError)
    ensures listing.None? ==> text == "[]"
  {
    var items := match listing
      case None => []
      case Some(files) =>
        var listed := Listed(limit, reportDir, files, stat);
        seq(|listed|, i requires 0 <= i < |listed| => InfoJson(listed[i]));
    var text := Stringify(JArray(items));
    EnvelopeNotArray(LimitError, items);
    text
  }

  /** A limit outside 1..100 is refused before the directory is looked at. */
  lemma LimitRefused(limit: int, env: Env.Environment, readdir: string -> Option<seq<string>>, stat: string -> Option<TimeValue>,
                     env': Env.Environment, readdir': string -> Option<seq<string>>, stat': string -> Option<TimeValue>)
    requires limit < 1 || limit > MaxLimit
    ensures ListReports(limit, env, readdir, stat) == ListReports(limit, env', readdir', stat')
    ensures ListReports(limit, env, readdir, stat) == Returned(ErrorEnvelope(LimitError))
  {
  }

  /** An unreadable directory lists nothing. */
  lemma UnreadableIsEmpty(limit: int, env: Env.Environment, readdir: string -> Option<seq<string>>, stat: string -> Option<TimeValue>)
    requires 1 <= limit <= MaxLimit
    requires !Env.Unset(env, "REPORT_DIR") && readdir(env["REPORT_DIR"]) == None
    ensures ListReports(limit, env, readdir, stat) == Returned("[]")
  {
  }

  /** At most `limit` reports, and fewer only when there are no more. */
  lemma ListedCount(limit: int, reportDir: string, files: seq<string>, stat: string -> Option<TimeValue>)
    requires 1 <= limit
    ensures var n := |Listed(limit, reportDir, files, stat)|;
      n <= limit && (n < limit ==> n == |Stats(reportDir, ReportUtils.MarkdownNames(files), stat)|)
  {
    SortPermutes(Stats(reportDir, ReportUtils.MarkdownNames(files), stat), MtimeKey);
    var s := Stats(reportDir, ReportUtils.MarkdownNames(files), stat);
    assert |multiset(Sort(s, MtimeKey))| == |multiset(s)|;
  }

  /** Every listed report is a `.md` file of the directory with its own
      modification time. */
  lemma ListedEntries(limit: int, reportDir: string, files: seq<string>, stat: string -> Option<TimeValue>, x: ReportInfo)
    requires 1 <= limit
    requires x in Listed(limit, reportDir, files, stat)
    ensures x.filename in files && EndsWith(x.filename, ".md")
    ensures stat(Paths.Join(reportDir, x.filename)) == Some(x.modifiedAt)
  {
    var names := ReportUtils.MarkdownNames(files);
    var s := Stats(reportDir, names, stat);
    SortPermutes(s, MtimeKey);
    assert x in multiset(Sort(s, MtimeKey));
    assert x in s;
    var i :| 0 <= i < |names| && names[i] == x.filename;
    assert x.filename in multiset(files);
  }

  /** The list runs from the newest report to the oldest. */
  lemma ListedNewestFirst(limit: int, reportDir: string, files: seq<string>, stat: string -> Option<TimeValue>, i: int, j: int)
    requires 1 <= limit
    requires 0 <= i < j < |Listed(limit, reportDir, files, stat)|
    ensures Listed(limit, reportDir, files, stat)[i].modifiedAt >= Listed(limit, reportDir, files, stat)[j].modifiedAt
  {
    var all := AllReports(reportDir, files, stat);
    SortSorted(Stats(reportDir, ReportUtils.MarkdownNames(files), stat), MtimeKey);
    assert !Precedes(MtimeKey(all[j]), MtimeKey(all[i]));
  }

  /** No readable report is passed over for an older one: a report that is
      not listed is preceded by `limit` reports at least as new. */
  lemma NewestKept(limit: int, reportDir: string, files: seq<string>, stat: string -> Option<TimeValue>, name: string, t: TimeValue)
    requires 1 <= limit
    requires name in files && EndsWith(name, ".md")
    requires stat(Paths.Join(reportDir, name)) == Some(t)
    ensures var listed := Listed(limit, reportDir, files, stat);
      ReportInfo(name, t) in listed ||
      (|listed| == limit && forall x :: x in listed ==> x.modifiedAt >= t)
  {
    var s := Stats(reportDir, ReportUtils.MarkdownNames(files), stat);
    var all := AllReports(reportDir, files, stat);
    var listed := Listed(limit, reportDir, files, stat);
    SortPermutes(s, MtimeKey);
    SortSorted(s, MtimeKey);
    assert ReportInfo(name, t) in s;
    assert ReportInfo(name, t) in multiset(all);
    var j :| 0 <= j < |all| && all[j] == ReportInfo(name, t);
    if j >= |listed| {
      forall x | x in listed
        ensures x.modifiedAt >= t
      {
        var i :| 0 <= i < |listed| && listed[i] == x;
        assert !Precedes(MtimeKey(all[j]), MtimeKey(all[i]));
      }
    }
  }

  /** Reports with the same modification time keep the order of the listing. */
  lemma TiesKeepListingOrder(reportDir: string, files: seq<string>, stat: string -> Option<TimeValue>, t: TimeValue)
    ensures WithKey(AllReports(reportDir, files, stat), MtimeKey, Timed(t))
         == WithKey(Stats(reportDir, ReportUtils.MarkdownNames(files), stat), MtimeKey, Timed(t))
  {
    SortStable(Stats(reportDir, ReportUtils.MarkdownNames(files), stat), MtimeKey, Timed(t));
  }
}
