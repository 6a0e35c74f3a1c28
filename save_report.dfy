/** The `save_report` tool: writes a new report into the report directory,
    never replacing an existing file. */
module SaveReport {

  import opened Wrappers
  import opened Json
  import Paths
  import Env

  /** The message Node gives when an exclusive (`wx`) open finds the file. */
  function ExistsMessage(path: string): string {
    "EEXIST: file already exists, open '" + path + "'"
  }

  function SaveSuccess(path: string): string {
    Stringify(JObject([Field("success", JBool(true)), Field("filePath", JString(path))]))
  }

  function SaveFailure(path: string, message: string): string {
    Stringify(JObject([
      Field("error", JString("Failed to save report")),
      Field("filePath", JString(path)),
      Field("details", JString(message))]))
  }

  /** The result of one call and the files afterwards. */
  datatype SaveStep = SaveStep(result: Outcome<string>, files: map<string, string>)

  /** One call of the tool on the files `files`. `getReportDir()` comes
      first: an unset `REPORT_DIR` makes the tool throw before anything is
      touched. `mkdirFault` is how creating the directory fails, if it does:
      that error is not caught either. `writeFault` is how writing a new file
      fails, if it does. */
  function SaveSpec(files: map<string, string>, env: Env.Environment, filename: string, content: string,
                    mkdirFault: Option<Thrown>, writeFault: Option<Thrown>): SaveStep
  {
    match Env.Required(env, "REPORT_DIR")
    case Threw(e) => SaveStep(Threw(e), files)
    case Returned(reportDir) => SaveIn(files, reportDir, filename, content, mkdirFault, writeFault)
  }

  /** The call once the report directory is known. */
  function SaveIn(files: map<string, string>, reportDir: string, filename: string, content: string,
                  mkdirFault: Option<Thrown>, writeFault: Option<Thrown>): SaveStep
  {
    var path := Paths.Join(reportDir, filename);
    if mkdirFault.Some? then SaveStep(Threw(mkdirFault.value), files)
    else if path in files then SaveStep(Returned(SaveFailure(path, ExistsMessage(path))), files)
    else if writeFault.Some? then SaveStep(Returned(SaveFailure(path, ErrorText(writeFault.value))), files)
    else SaveStep(Returned(SaveSuccess(path)), files[path := content])
  }

  /** The report directory's files, by path. */
  class ReportFiles {
    var files: map<string, string>

    constructor(initial: map<string, string>)
      ensures files == initial
    {
      files := initial;
    }

    method Save(env: Env.Environment, filename: string, content: string,
                mkdirFault: Option<Thrown>, writeFault: Option<Thrown>) returns (r: Outcome<string>)
      modifies this
      ensures SaveStep(r, files) == SaveSpec(old(files), env, filename, content, mkdirFault, writeFault)
    {
      var reportDir := Env.Required(env, "REPORT_DIR");
      if reportDir.Threw? {
        return Threw(reportDir.error);
      }
      var filePath := Paths.Join(reportDir.value, filename);
      if mkdirFault.Some? {
        return Threw(mkdirFault.value);
      }
      if filePath in files {
        return Returned(SaveFailure(filePath, ExistsMessage(filePath)));
      }
      if writeFault.Some? {
        return Returned(SaveFailure(filePath, ErrorText(writeFault.value)));
      }
      files := files[filePath := content];
      r := Returned(SaveSuccess(filePath));
    }
  }

  /** No existing file is changed or removed, whatever the call does. */
  lemma NeverOverwrites(files: map<string, string>, env: Env.Environment, filename: string, content: string,
                        mkdirFault: Option<Thrown>, writeFault: Option<Thrown>, p: string)
    requires p in files
    ensures var after := SaveSpec(files, env, filename, content, mkdirFault, writeFault).files;
      p in after && after[p] == files[p]
  {
  }

  /** The call succeeds exactly when it adds the one new file holding the
      content, and otherwise leaves the files as they were. */
  lemma SuccessAddsOneFile(files: map<string, string>, env: Env.Environment, filename: string, content: string,
                           mkdirFault: Option<Thrown>, writeFault: Option<Thrown>)
    ensures var step := SaveSpec(files, env, filename, content, mkdirFault, writeFault);
      if !Env.Unset(env, "REPORT_DIR") && step.result == Returned(SaveSuccess(Paths.Join(env["REPORT_DIR"], filename))) then
        var path := Paths.Join(env["REPORT_DIR"], filename);
        path !in files && step.files == files[path := content] && step.files.Keys == files.Keys + {path}
      else step.files == files
  {
    if !Env.Unset(env, "REPORT_DIR") {
      var path := Paths.Join(env["REPORT_DIR"], filename);
      if path in files || mkdirFault.Some? || writeFault.Some? {
        SuccessDiffersFromFailure(path, writeFault);
      }
    }
  }

  /** With `REPORT_DIR` unset the tool throws its error and the files stay
      as they were, whatever `mkdir` and the write would have done. */
  lemma ReportDirUnsetThrows(files: map<string, string>, env: Env.Environment, filename: string, content: string,
                             mkdirFault: Option<Thrown>, writeFault: Option<Thrown>)
    requires Env.Unset(env, "REPORT_DIR")
    ensures SaveSpec(files, env, filename, content, mkdirFault, writeFault)
      == SaveStep(Threw(Env.NotSetError("REPORT_DIR")), files)
  {
  }

  lemma SuccessDiffersFromFailure(path: string, writeFault: Option<Thrown>)
    ensures SaveSuccess(path) != SaveFailure(path, ExistsMessage(path))
    ensures writeFault.Some? ==> SaveSuccess(path) != SaveFailure(path, ErrorText(writeFault.value))
  {
    FirstKeyLetter([Field("success", JBool(true)), Field("filePath", JString(path))]);
    FirstKeyLetter([Field("error", JString("Failed to save report")), Field("filePath", JString(path)),
                    Field("details", JString(ExistsMessage(path)))]);
    if writeFault.Some? {
      FirstKeyLetter([Field("error", JString("Failed to save report")), Field("filePath", JString(path)),
                      Field("details", JString(ErrorText(writeFault.value)))]);
    }
  }

  /** Saving the same name twice keeps the first report and tells the model
      that the file exists; with `REPORT_DIR` unset both calls throw and
      nothing is written. */
  lemma SecondSaveRefused(files: map<string, string>, env: Env.Environment, filename: string, first: string, second: string)
    ensures var step := SaveSpec(files, env, filename, first, None, None);
      var again := SaveSpec(step.files, env, filename, second, None, None);
      again.files == step.files &&
      if Env.Unset(env, "REPORT_DIR") then
        step.files == files && again.result == Threw(Env.NotSetError("REPORT_DIR"))
      else
        var path := Paths.Join(env["REPORT_DIR"], filename);
        path in again.files &&
        again.files[path] == (if path in files then files[path] else first) &&
        again.result == Returned(SaveFailure(path, ExistsMessage(path)))
  {
  }
}
