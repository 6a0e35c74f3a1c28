/** The `get_config` tool of agents/repo-sentinel/src/tools/get-config.ts: the
    configuration assembled from the environment and the GitHub token store,
    written as JSON. The handler ignores its arguments.
 */
module SentinelConfig {

  import opened Wrappers
  import opened Json
  import opened SentinelTypes
  import opened Env

  /** The base members, read in the order `branch`, `checkIntervalHours`,
      `reportDir`, `subPaths`; the first getter that throws decides the
      error. */
  function ReadBase(env: Environment): (r: Outcome<BaseConfig>)
    ensures r.Returned? <==>
      !Unset(env, "BRANCH") && !Unset(env, "CHECK_INTERVAL_HOURS") && !Unset(env, "REPORT_DIR")
    ensures r.Returned? ==> r.value == BaseConfig(env["BRANCH"], GetCheckIntervalHours(env).value,
                                                  env["REPORT_DIR"], GetSubPath(env))
    ensures r.Threw? ==> r.error == NotSetError(
      if Unset(env, "BRANCH") then "BRANCH"
      else if Unset(env, "CHECK_INTERVAL_HOURS") then "CHECK_INTERVAL_HOURS"
      else "REPORT_DIR")
  {
    match Required(env, "BRANCH")
    case Threw(e) => Threw(e)
    case Returned(branch) =>
      match GetCheckIntervalHours(env)
      case Threw(e) => Threw(e)
      case Returned(hours) =>
        match Required(env, "REPORT_DIR")
        case Threw(e) => Threw(e)
        case Returned(reportDir) => Returned(BaseConfig(branch, hours, reportDir, GetSubPath(env)))
  }

  /** The configuration the handler builds; `token` is what
      `GitHubTokenStore.get()` returns. */
  function GetConfig(env: Environment, token: Option<string>): Outcome<Config> {
    match GetRepoProvider(env)
    case Threw(e) => Threw(e)
    case Returned(provider) =>
      match ReadBase(env)
      case Threw(e) => Threw(e)
      case Returned(base) =>
        if provider == GitHub then
          match Required(env, "GITHUB_OWNER")
          case Threw(e) => Threw(e)
          case Returned(owner) =>
            match Required(env, "GITHUB_REPO")
            case Threw(e) => Threw(e)
            case Returned(repo) => Returned(GitHubConfig(base, owner, repo, token))
        else
          match Required(env, "REPO_PATH")
          case Threw(e) => Threw(e)
          case Returned(path) => Returned(LocalConfig(base, path))
  }

  /** The assembly the four-case `Config` type calls for: Gerrit and Azure
      DevOps get their own cases, read from `GERRIT_HOST`/`GERRIT_PROJECT`
      and `ADO_ORGANIZATION`/`ADO_PROJECT`/`ADO_REPOSITORY`, the Azure DevOps
      one carrying what `AdoTokenStore.get()` returns. */
  function GetConfigPerProvider(env: Environment, githubToken: Option<string>, adoToken: Option<string>): (r: Outcome<Config>)
    ensures r.Returned? ==> GetRepoProvider(env).Returned? && r.value.ProviderOf() == GetRepoProvider(env).value
    ensures GetRepoProvider(env).Returned? && GetRepoProvider(env).value in {Local, GitHub} ==>
      r == GetConfig(env, githubToken)
  {
    match GetRepoProvider(env)
    case Threw(e) => Threw(e)
    case Returned(provider) =>
      match ReadBase(env)
      case Threw(e) => Threw(e)
      case Returned(base) =>
        match provider
        case Gerrit =>
          (match Required(env, "GERRIT_HOST")
           case Threw(e) => Threw(e)
           case Returned(host) =>
             match Required(env, "GERRIT_PROJECT")
             case Threw(e) => Threw(e)
             case Returned(project) => Returned(GerritConfig(base, host, project)))
        case Ado =>
          (match Required(env, "ADO_ORGANIZATION")
           case Threw(e) => Threw(e)
           case Returned(org) =>
             match Required(env, "ADO_PROJECT")
             case Threw(e) => Threw(e)
             case Returned(project) =>
               match Required(env, "ADO_REPOSITORY")
               case Threw(e) => Threw(e)
               case Returned(repository) => Returned(AdoConfig(base, org, project, repository, adoToken)))
        case _ => GetConfig(env, githubToken)
  }

  /** The handler's text: `JSON.stringify(config)`. */
  function GetConfigText(env: Environment, token: Option<string>): (r: Outcome<string>)
    ensures r.Returned? <==> GetConfig(env, token).Returned?
    ensures r.Returned? ==> r.value == Stringify(ConfigJson(GetConfig(env, token).value))
    ensures r.Threw? ==> r.error == GetConfig(env, token).error
  {
    match GetConfig(env, token)
    case Threw(e) => Threw(e)
    case Returned(c) => Returned(Stringify(ConfigJson(c)))
  }

  // Properties of get_config

  /** The provider is read first: an invalid provider is the error whatever
      else is missing. */
  lemma InvalidProviderFirst(env: Environment, token: Option<string>)
    requires GetRepoProvider(env).Threw?
    ensures GetConfig(env, token) == Threw(ProviderError)
  {
  }

  /** With `github`, the configuration carries the owner, the repository and
      the stored token, which may be `null`. */
  lemma GitHubConfigFields(env: Environment, token: Option<string>)
    requires GetRepoProvider(env) == Returned(GitHub)
    ensures GetConfig(env, token).Returned? <==>
      ReadBase(env).Returned? && !Unset(env, "GITHUB_OWNER") && !Unset(env, "GITHUB_REPO")
    ensures GetConfig(env, token).Returned? ==>
      GetConfig(env, token) == Returned(GitHubConfig(ReadBase(env).value, env["GITHUB_OWNER"], env["GITHUB_REPO"], token))
  {
  }

  /** Every provider other than `github`, `gerrit` and `ado` included, is
      reported as `local`, and `REPO_PATH` is required for it. */
  lemma OtherProvidersReportLocal(env: Environment, token: Option<string>)
    requires GetRepoProvider(env).Returned? && GetRepoProvider(env).value != GitHub
    ensures GetConfig(env, token).Returned? <==> ReadBase(env).Returned? && !Unset(env, "REPO_PATH")
    ensures GetConfig(env, token).Returned? ==>
      GetConfig(env, token) == Returned(LocalConfig(ReadBase(env).value, env["REPO_PATH"]))
  {
  }

  /** The configuration never names `gerrit` or `ado` as its provider, even
      when `REPO_PROVIDER` does. */
  lemma ProviderCollapsed(env: Environment, token: Option<string>)
    requires GetConfig(env, token).Returned?
    ensures GetConfig(env, token).value.ProviderOf() in {Local, GitHub}
    ensures GetConfig(env, token).value.ProviderOf() == GitHub <==> GetRepoProvider(env) == Returned(GitHub)
  {
  }

  /** The JSON always starts with `provider`, then the base members. */
  lemma ConfigTextStartsWithBase(env: Environment, token: Option<string>)
    requires GetConfig(env, token).Returned?
    ensures var c := GetConfig(env, token).value;
      var j := ConfigJson(c);
      j.fields[0].key == "provider" && j.fields[1].key == "branch" &&
      j.fields[2].key == "checkIntervalHours" && j.fields[3].key == "reportDir" &&
      j.fields[4].key == "subPaths" && j.fields[1..5] == BaseFields(ReadBase(env).value)
  {
    var c := GetConfig(env, token).value;
    var j := ConfigJson(c);
    assert j.fields[1..5][0] == j.fields[1];
    assert j.fields[1..5][3] == j.fields[4];
  }
}
