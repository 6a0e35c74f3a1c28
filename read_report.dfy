/** The `read_report` tool: the contents of one report of the report
    directory. */
module ReadReport {

  import opened Wrappers
  import opened Strings
  import opened Json
  import Paths
  import Env

  const NotMarkdown := "Only .md files can be read"

  /** The JSON the tool returns when reading the file fails. */
  function ReadFailure(safeFilename: string, message: string): string {
    Stringify(JObject([
      Field("error", JString("Failed to read report")),
      Field("filename", JString(safeFilename)),
      Field("details", JString(message))]))
  }

  /** The path the tool reads for a requested name, or `None` when the name
      is refused: only the base name is kept, and it must end in `.md`. */
  function ReadPath(reportDir: string, filename: string): (r: Option<string>)
    ensures r.Some? <==> EndsWith(Paths.Basename(filename), ".md")
    ensures r.Some? ==> r.value == Paths.Join(reportDir, Paths.Basename(filename))
  {
    var safe := Paths.Basename(filename);
    if EndsWith(safe, ".md") then Some(Paths.Join(reportDir, safe)) else None
  }

  /** The tool's result; `read` is `readFile(path, 'utf-8')`. The name is
      checked first; `getReportDir()` comes after that check and outside the
      `try`, so an unset `REPORT_DIR` makes the tool throw for a `.md` name. */
  function ReadReport(env: Env.Environment, filename: string, read: string -> Outcome<string>): (r: Outcome<string>)
    ensures !EndsWith(Paths.Basename(filename), ".md") ==> r == Returned(ErrorEnvelope(NotMarkdown))
    ensures EndsWith(Paths.Basename(filename), ".md") ==> (r.Threw? <==> Env.Unset(env, "REPORT_DIR"))
    ensures r.Threw? ==> r.error == Env.NotSetError("REPORT_DIR")
    ensures EndsWith(Paths.Basename(filename), ".md") && !Env.Unset(env, "REPORT_DIR")
      && read(Paths.Join(env["REPORT_DIR"], Paths.Basename(filename))).Returned?
      ==> r == read(Paths.Join(env["REPORT_DIR"], Paths.Basename(filename)))
  {
    var safe := Paths.Basename(filename);
    if !EndsWith(safe, ".md") then Returned(ErrorEnvelope(NotMarkdown))
    else
      match Env.Required(env, "REPORT_DIR")
      case Threw(e) => Threw(e)
      case Returned(reportDir) =>
        match read(Paths.Join(reportDir, safe))
        case Returned(content) => Returned(content)
        case Threw(e) => Returned(ReadFailure(safe, ErrorText(e)))
  }

  /** Directory components of the request are stripped: the file read is a
      direct child of the report directory, named by a `.md` name. */
  lemma ReadsInsideReportDir(reportDir: string, filename: string)
    requires ReadPath(reportDir, filename).Some?
    ensures exists name ::
      '/' !in name && EndsWith(name, ".md") && ReadPath(reportDir, filename).value == reportDir + "/" + name
  {
    var name := Paths.Basename(filename);
    assert '/' !in name && EndsWith(name, ".md");
  }

  /** `"../../etc/passwd.md"` reads `passwd.md` of the report directory. */
  lemma TraversalStripped(reportDir: string)
    ensures ReadPath(reportDir, "../../etc/passwd.md") == Some(Paths.Join(reportDir, "passwd.md"))
  {
    var name := "passwd.md";
    assert Paths.Join("../../etc", name) == "../../etc/passwd.md";
    assert '/' !in name && name != [];
    Paths.BasenameOfJoin("../../etc", name);
    assert name[|name| - 3..] == ".md";
  }

  /** The result depends on the reader only at the path it reads, and a name
      that is not `.md` is refused without reading at all. */
  lemma OnlyReadsReadPath(env: Env.Environment, filename: string, read: string -> Outcome<string>,
                          read': string -> Outcome<string>)
    requires !Env.Unset(env, "REPORT_DIR") && ReadPath(env["REPORT_DIR"], filename).Some? ==>
      read(ReadPath(env["REPORT_DIR"], filename).value) == read'(ReadPath(env["REPORT_DIR"], filename).value)
    ensures ReadReport(env, filename, read) == ReadReport(env, filename, read')
    ensures !EndsWith(Paths.Basename(filename), ".md") ==>
      forall env' :: ReadReport(env', filename, read) == Returned(ErrorEnvelope(NotMarkdown))
  {
  }

  /** A file that can be read is returned as it is; one that cannot gives
      the failure JSON naming the stripped filename and the error. */
  lemma ReadOutcome(env: Env.Environment, filename: string, read: string -> Outcome<string>)
    requires !Env.Unset(env, "REPORT_DIR") && ReadPath(env["REPORT_DIR"], filename).Some?
    ensures var o := read(ReadPath(env["REPORT_DIR"], filename).value);
      ReadReport(env, filename, read)
        == Returned(if o.Returned? then o.value else ReadFailure(Paths.Basename(filename), ErrorText(o.error)))
  {
  }
}
