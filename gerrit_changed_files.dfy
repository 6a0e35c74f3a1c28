/** The `gerrit_get_changed_files` tool: the files of one revision of a
    change, as a JSON array. */
module GerritChangedFiles {

  import opened Wrappers
  import opened Json
  import opened UrlEncoding
  import GerritFetch

  /** The pseudo-file Gerrit lists for the commit message. */
  const CommitMessage := "/COMMIT_MSG"

  /** One value of the map Gerrit returns; absent members are `None`. */
  datatype FileInfo = FileInfo(status: Option<string>, linesInserted: Option<int>, linesDeleted: Option<int>)

  datatype ChangedFile = ChangedFile(path: string, status: string, insertions: int, deletions: int)

  /** The request path; an absent revision means the current patch set. */
  function FilesPath(changeId: string, revision: Option<string>): string {
    "/changes/" + EncodeUriComponent(changeId) + "/revisions/" + revision.GetOr("current") + "/files/"
  }

  function Flatten(path: string, info: FileInfo): ChangedFile {
    ChangedFile(path, info.status.GetOr("M"), info.linesInserted.GetOr(0), info.linesDeleted.GetOr(0))
  }

  /** The entries of the map, in order, without the commit message. */
  function ChangedFiles(entries: seq<(string, FileInfo)>): (r: seq<ChangedFile>)
    ensures |r| <= |entries|
    ensures forall i :: 0 <= i < |r| ==> r[i].path != CommitMessage
  {
    if entries == [] then []
    else
      var rest := ChangedFiles(entries[1..]);
      if entries[0].0 == CommitMessage then rest else [Flatten(entries[0].0, entries[0].1)] + rest
  }

  function ChangedFileJson(f: ChangedFile): Json {
    JObject([Field("path", JString(f.path)), Field("status", JString(f.status)),
             Field("insertions", JNumber(f.insertions)), Field("deletions", JNumber(f.deletions))])
  }

  /** The tool's result. `fetch` is `gerritFetch` of a URL, already read as
      the map's entries. */
  function GetChangedFiles(host: string, changeId: string, revision: Option<string>,
                           fetch: string -> Outcome<seq<(string, FileInfo)>>): (r: Outcome<string>)
    ensures var url := GerritFetch.UrlText("https://" + host + FilesPath(changeId, revision), []);
      (r.Threw? <==> fetch(url).Threw?) && (fetch(url) == Returned([]) ==> r == Returned("[]"))
  {
    var url := GerritFetch.UrlText("https://" + host + FilesPath(changeId, revision), []);
    match fetch(url)
    case Threw(e) => Threw(e)
    case Returned(entries) =>
      var files := ChangedFiles(entries);
      var items := seq(|files|, i requires 0 <= i < |files| => ChangedFileJson(files[i]));
      assert entries == [] ==> items == [] && Stringify(JArray(items)) == "[]";
      Returned(Stringify(JArray(items)))
  }

  /** Entries that are not the commit message, in order. */
  function Kept(entries: seq<(string, FileInfo)>): (r: seq<(string, FileInfo)>)
    ensures |r| <= |entries|
  {
    if entries == [] then []
    else (if entries[0].0 == CommitMessage then [] else [entries[0]]) + Kept(entries[1..])
  }

  /** Every other entry gives exactly one file, in entry order. */
  lemma {:induction false} OneFilePerEntry(entries: seq<(string, FileInfo)>)
    ensures var kept := Kept(entries);
      ChangedFiles(entries) == seq(|kept|, i requires 0 <= i < |kept| => Flatten(kept[i].0, kept[i].1))
  {
    if entries != [] {
      var rest := entries[1..];
      OneFilePerEntry(rest);
      var k := Kept(rest);
      if entries[0].0 == CommitMessage {
        assert Kept(entries) == k;
      } else {
        assert Kept(entries) == [entries[0]] + k;
      }
    }
  }

  /** What an entry leaves out defaults to `M`, 0 and 0; what it gives is
      kept. */
  lemma FlattenDefaults(path: string, info: FileInfo)
    ensures var f := Flatten(path, info);
      && f.path == path
      && f.status == (if info.status.Some? then info.status.value else "M")
      && f.insertions == (if info.linesInserted.Some? then info.linesInserted.value else 0)
      && f.deletions == (if info.linesDeleted.Some? then info.linesDeleted.value else 0)
  {
  }

  /** The kept entries are exactly those not named `/COMMIT_MSG`. */
  lemma {:induction false} KeptEntries(entries: seq<(string, FileInfo)>, e: (string, FileInfo))
    ensures e in Kept(entries) <==> e in entries && e.0 != CommitMessage
  {
    if entries != [] {
      KeptEntries(entries[1..], e);
      assert e in entries <==> e == entries[0] || e in entries[1..];
    }
  }

  /** Without a revision the current one is asked for. */
  lemma DefaultRevision(changeId: string)
    ensures FilesPath(changeId, None) == FilesPath(changeId, Some("current"))
  {
  }

  /** The change id stays one path segment, whatever it contains. */
  lemma ChangeIdOneSegment(changeId: string)
    ensures var p := FilesPath(changeId, None);
      p[..9] == "/changes/" && p[9..9 + |EncodeUriComponent(changeId)|] == EncodeUriComponent(changeId)
      && '/' !in EncodeUriComponent(changeId)
  {
    EncodeUriComponentDelimiters(changeId);
  }
}
