/** The environment getters of agents/repo-sentinel/src/helpers/env-helpers.ts
    and of the older src/helpers/env-helpers.ts.

    `process.env` is a map from variable name to value; a variable that is not
    set has no key. The getters test `!value`, which holds for an unset
    variable and for the empty string alike.
 */
module Env {

  import opened Wrappers
  import opened Strings
  import opened SentinelTypes

  type Environment = map<string, string>

  /** `!process.env[name]` */
  predicate Unset(env: Environment, name: string) {
    name !in env || env[name] == ""
  }

  function NotSetError(name: string): Thrown {
    ErrorObject(name + " environment variable is not set")
  }

  /** A required variable: its value when it is set and not empty, and the
      "is not set" error otherwise. Every getter of both files except
      `getOpenAIBaseURL`, `getRepoProvider`, `getSubPath` and
      `getCustomPrompt` is this for one variable name. */
  function Required(env: Environment, name: string): (r: Outcome<string>)
    ensures r.Returned? <==> !Unset(env, name)
    ensures r.Returned? ==> r.value == env[name] && r.value != ""
    ensures r.Threw? ==> r.error == NotSetError(name)
  {
    if Unset(env, name) then Threw(NotSetError(name)) else Returned(env[name])
  }

  /** `getOpenAIBaseURL()`: the value as it is, possibly empty; never
      throws. */
  function GetOpenAIBaseURL(env: Environment): (r: Option<string>)
    ensures r.Some? <==> "OPENAI_BASE_URL" in env
    ensures r.Some? ==> r.value == env["OPENAI_BASE_URL"]
  {
    if "OPENAI_BASE_URL" in env then Some(env["OPENAI_BASE_URL"]) else None
  }

  const ProviderError: Thrown :=
    ErrorObject("REPO_PROVIDER must be \"local\", \"github\", \"gerrit\", or \"ado\"")

  /** The provider a string names, if any. */
  function ProviderNamed(s: string): (r: Option<Provider>)
    ensures r.Some? ==> ProviderName(r.value) == s
  {
    if s == "local" then Some(Local)
    else if s == "github" then Some(GitHub)
    else if s == "gerrit" then Some(Gerrit)
    else if s == "ado" then Some(Ado)
    else None
  }

  lemma ProviderNamedName(p: Provider)
    ensures ProviderNamed(ProviderName(p)) == Some(p)
  {
  }

  /** `getRepoProvider()` */
  function GetRepoProvider(env: Environment): (r: Outcome<Provider>)
    ensures r.Returned? ==> "REPO_PROVIDER" in env && env["REPO_PROVIDER"] == ProviderName(r.value)
    ensures r.Threw? ==> r.error == ProviderError
  {
    if "REPO_PROVIDER" !in env then Threw(ProviderError)
    else match ProviderNamed(env["REPO_PROVIDER"])
      case None => Threw(ProviderError)
      case Some(p) => Returned(p)
  }

  /** `getRepoProvider` accepts exactly the four provider names; an unset
      variable or any other value throws. */
  lemma GetRepoProviderAccepts(env: Environment)
    ensures GetRepoProvider(env).Returned? <==>
      "REPO_PROVIDER" in env && env["REPO_PROVIDER"] in {"local", "github", "gerrit", "ado"}
  {
  }

  /** Setting the variable to a provider's name reads that provider back. */
  lemma GetRepoProviderOfName(env: Environment, p: Provider)
    ensures GetRepoProvider(env["REPO_PROVIDER" := ProviderName(p)]) == Returned(p)
  {
    ProviderNamedName(p);
  }

  /** `getCheckIntervalHours()`: `parseInt(hours, 10)` of a set variable;
      `None` stands for `NaN`. */
  function GetCheckIntervalHours(env: Environment): (r: Outcome<Option<int>>)
    ensures r.Threw? <==> Unset(env, "CHECK_INTERVAL_HOURS")
    ensures r.Threw? ==> r.error == NotSetError("CHECK_INTERVAL_HOURS")
    ensures r.Returned? ==> r.value == ParseInt(env["CHECK_INTERVAL_HOURS"])
  {
    match Required(env, "CHECK_INTERVAL_HOURS")
    case Threw(e) => Threw(e)
    case Returned(hours) => Returned(ParseInt(hours))
  }

  /** The leading integer is read and the rest ignored: `"12h"` gives 12. */
  lemma CheckIntervalLeadingInteger(env: Environment)
    requires "CHECK_INTERVAL_HOURS" in env && env["CHECK_INTERVAL_HOURS"] == "12h"
    ensures GetCheckIntervalHours(env) == Returned(Some(12))
  {
    assert NatToDecimal(12) == "12" by {
      assert NatToDecimal(1) == "1";
    }
    assert IntToDecimal(12) + "h" == "12h";
    ParseIntOfDecimal(12, "h");
  }

  /** A value that does not begin with a sign or a digit gives `NaN`, not an
      error. */
  lemma CheckIntervalNaN(env: Environment)
    requires !Unset(env, "CHECK_INTERVAL_HOURS")
    requires var t := TrimStart(env["CHECK_INTERVAL_HOURS"]);
      t == [] || (t[0] != '-' && t[0] != '+' && !IsDigit(t[0]))
    ensures GetCheckIntervalHours(env) == Returned(None)
  {
    ParseIntNaN(env["CHECK_INTERVAL_HOURS"]);
  }

  /** `value.split(',').map((p) => p.trim())` */
  function TrimmedItems(value: string): (r: seq<string>)
    ensures |r| == |Split(value, ',')|
    ensures forall i :: 0 <= i < |r| ==> r[i] == Trim(Split(value, ',')[i])
  {
    var parts := Split(value, ',');
    seq(|parts|, i requires 0 <= i < |parts| => Trim(parts[i]))
  }

  /** One item per comma plus one, each free of commas and of surrounding
      whitespace; empty items are kept. */
  lemma TrimmedItemsShape(value: string)
    ensures var r := TrimmedItems(value);
      |r| == Count(value, ',') + 1 &&
      forall i :: 0 <= i < |r| ==> ',' !in r[i] && NoOuterWhitespace(r[i])
  {
    var parts := Split(value, ',');
    SplitJoin(value, ',');
    var r := TrimmedItems(value);
    forall i | 0 <= i < |r| ensures ',' !in r[i] && NoOuterWhitespace(r[i]) {
      TrimNoOuterWhitespace(parts[i]);
      TrimIsPart(parts[i], ',');
    }
  }

  /** What `trim` keeps of a text is part of it. */
  lemma TrimIsPart(s: string, c: char)
    requires c !in s
    ensures c !in Trim(s)
  {
    var lo, hi := TrimLo(s), TrimHi(s);
    assert forall k :: 0 <= k < hi - lo ==> Trim(s)[k] == s[lo + k];
  }

  /** `getSubPath()` of the repo-sentinel agent: an unset or empty variable
      gives no sub-paths. */
  function GetSubPath(env: Environment): (r: seq<string>)
    ensures Unset(env, "SUB_PATH") ==> r == []
    ensures !Unset(env, "SUB_PATH") ==> r == TrimmedItems(env["SUB_PATH"])
  {
    if Unset(env, "SUB_PATH") then [] else TrimmedItems(env["SUB_PATH"])
  }

  /** `getSubPath()` of src/helpers/env-helpers.ts: the variable is
      required. */
  function LegacyGetSubPath(env: Environment): (r: Outcome<seq<string>>)
    ensures r.Threw? <==> Unset(env, "SUB_PATH")
    ensures r.Threw? ==> r.error == NotSetError("SUB_PATH")
  {
    match Required(env, "SUB_PATH")
    case Threw(e) => Threw(e)
    case Returned(value) => Returned(TrimmedItems(value))
  }

  /** The two versions agree on a set variable; on an unset one the older
      throws where the newer gives no sub-paths. */
  lemma SubPathVersions(env: Environment)
    ensures !Unset(env, "SUB_PATH") ==> LegacyGetSubPath(env) == Returned(GetSubPath(env))
    ensures Unset(env, "SUB_PATH") ==>
      LegacyGetSubPath(env) == Threw(NotSetError("SUB_PATH")) && GetSubPath(env) == []
  {
  }

  /** `getCustomPrompt()`, with `read` standing for `readFileSync(path,
      'utf-8')`: no prompt without a file name; a failed read is wrapped. */
  function GetCustomPrompt(env: Environment, read: string -> Outcome<string>): (r: Outcome<Option<string>>)
    ensures r == Returned(None) <==> Unset(env, "CUSTOM_PROMPT_FILE")
    ensures r.Returned? && r.value.Some? ==>
      read(env["CUSTOM_PROMPT_FILE"]) == Returned(r.value.value)
    ensures r.Threw? ==> !Unset(env, "CUSTOM_PROMPT_FILE")
    ensures r.Threw? ==>
      var path := env["CUSTOM_PROMPT_FILE"];
      read(path).Threw? && r.error == Wrapped("Failed to read CUSTOM_PROMPT_FILE: " + path, read(path).error)
  {
    if Unset(env, "CUSTOM_PROMPT_FILE") then Returned(None)
    else
      var path := env["CUSTOM_PROMPT_FILE"];
      match read(path)
      case Returned(text) => Returned(Some(text))
      case Threw(e) => Threw(Wrapped("Failed to read CUSTOM_PROMPT_FILE: " + path, e))
  }
}
