/** The configuration types of agents/repo-sentinel/src/types.ts and their JSON
    form, as the `get_config` tool writes it.
 */
module SentinelTypes {

  import opened Wrappers
  import opened Json

  /** `RepoProvider` */
  datatype Provider = Local | GitHub | Gerrit | Ado

  /** The string value of a provider. */
  function ProviderName(p: Provider): string {
    match p
    case Local => "local"
    case GitHub => "github"
    case Gerrit => "gerrit"
    case Ado => "ado"
  }

  /** Distinct providers have distinct names. */
  lemma ProviderNameInjective(p: Provider, q: Provider)
    requires ProviderName(p) == ProviderName(q)
    ensures p == q
  {
  }

  /** `BaseConfig`. `checkIntervalHours` is `None` when it is `NaN`. */
  datatype BaseConfig = BaseConfig(
    branch: string,
    checkIntervalHours: Option<int>,
    reportDir: string,
    subPaths: seq<string>)

  /** `Config`: one case per provider; the provider tag is the case. */
  datatype Config =
    | LocalConfig(base: BaseConfig, repoPath: string)
    | GitHubConfig(base: BaseConfig, owner: string, repo: string, token: Option<string>)
    | GerritConfig(base: BaseConfig, host: string, project: string)
    | AdoConfig(base: BaseConfig, organization: string, project: string, repository: string, token: Option<string>)
  {
    function ProviderOf(): Provider {
      match this
      case LocalConfig(_, _) => Local
      case GitHubConfig(_, _, _, _) => GitHub
      case GerritConfig(_, _, _) => Gerrit
      case AdoConfig(_, _, _, _, _) => Ado
    }
  }

  function StringOrNull(s: Option<string>): Json {
    match s
    case None => JNull
    case Some(v) => JString(v)
  }

  /** A number; `JSON.stringify` writes `NaN` as `null`. */
  function NumberOrNull(n: Option<int>): Json {
    match n
    case None => JNull
    case Some(v) => JNumber(v)
  }

  function Strings(items: seq<string>): (j: Json)
    ensures j.JArray? && |j.items| == |items|
    ensures forall i :: 0 <= i < |items| ==> j.items[i] == JString(items[i])
  {
    JArray(seq(|items|, i requires 0 <= i < |items| => JString(items[i])))
  }

  /** The members of `BaseConfig` after `provider`, in declaration order. */
  function BaseFields(b: BaseConfig): seq<Field> {
    [Field("branch", JString(b.branch)),
     Field("checkIntervalHours", NumberOrNull(b.checkIntervalHours)),
     Field("reportDir", JString(b.reportDir)),
     Field("subPaths", Strings(b.subPaths))]
  }

  /** The object `JSON.stringify(config)` writes: `provider` first (a spread
      followed by `provider:` keeps the key's first place), then the base
      members, then the provider's own. */
  function ConfigJson(c: Config): (j: Json)
    ensures j.JObject? && |j.fields| >= 5
    ensures j.fields[0] == Field("provider", JString(ProviderName(c.ProviderOf())))
    ensures j.fields[1..5] == BaseFields(c.base)
  {
    var head := [Field("provider", JString(ProviderName(c.ProviderOf())))] + BaseFields(c.base);
    var own := match c
      case LocalConfig(_, path) => [Field("repoPath", JString(path))]
      case GitHubConfig(_, owner, repo, token) =>
        [Field("owner", JString(owner)), Field("repo", JString(repo)), Field("token", StringOrNull(token))]
      case GerritConfig(_, host, project) =>
        [Field("host", JString(host)), Field("project", JString(project))]
      case AdoConfig(_, org, project, repository, token) =>
        [Field("organization", JString(org)), Field("project", JString(project)),
         Field("repository", JString(repository)), Field("token", StringOrNull(token))];
    JObject(head + own)
  }
}
