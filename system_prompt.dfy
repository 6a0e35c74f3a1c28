/** `createSystemPrompt` of agents/repo-sentinel/src/prompts/system-prompt.ts:
    the main agent's instructions, with a workflow and a note chosen by the
    repository provider and an optional custom section at the end.

    The workflow steps are kept as their texts, numbered when written; the
    provider note is kept as the configuration names it points to. Both give
    back the source's text exactly.
 */
module SystemPrompt {

  import opened Strings
  import opened Markdown
  import opened Json
  import opened Wrappers
  import opened SentinelTypes
  import Env
  import SentinelConfig

  /** The names of the `get_config`, `list_reports`, `read_report` and
      `save_report` definitions, which the prompt refers to. */
  const GetConfigTool := "get_config"
  const ListReportsTool := "list_reports"
  const ReadReportTool := "read_report"
  const SaveReportTool := "save_report"

  /** The steps the workflows are made of. */
  datatype Step =
    | CallGetConfig | CheckStatus | ProjectInfo | RepositoryInfo | FetchRemote
    | RecentCommits | RecentChanges | AnalyzeCommits | AnalyzeChanges | SaveReport

  function StepText(s: Step): string {
    match s
    case CallGetConfig => "Call " + Code(GetConfigTool) + " to get configuration"
    case CheckStatus => "Check repository status"
    case ProjectInfo => "Get project info to verify access"
    case RepositoryInfo => "Get repository info to verify access"
    case FetchRemote => "Fetch latest changes from remote"
    case RecentCommits => "Get recent commits for the configured branch and time window"
    case RecentChanges => "Get recent changes (merged) for the configured branch and time window"
    case AnalyzeCommits => "For each commit: get details, diff, classify, analyze vital commits"
    case AnalyzeChanges => "For each change: get details, diff, classify, analyze vital changes"
    case SaveReport => "Generate and save report using " + Code(SaveReportTool)
  }

  /** The workflow of `getWorkflowSteps`: the local provider (the last
      branch, taken by every value not named before) has one step more,
      fetching from the remote. */
  function Steps(p: Provider): seq<Step> {
    match p
    case GitHub => [CallGetConfig, CheckStatus, RecentCommits, AnalyzeCommits, SaveReport]
    case Gerrit => [CallGetConfig, ProjectInfo, RecentChanges, AnalyzeChanges, SaveReport]
    case Ado => [CallGetConfig, RepositoryInfo, RecentCommits, AnalyzeCommits, SaveReport]
    case Local => [CallGetConfig, CheckStatus, FetchRemote, RecentCommits, AnalyzeCommits, SaveReport]
  }

  function StepTexts(steps: seq<Step>): (r: seq<string>)
    ensures |r| == |steps| && forall i :: 0 <= i < |steps| ==> r[i] == StepText(steps[i])
  {
    if steps == [] then [] else [StepText(steps[0])] + StepTexts(steps[1..])
  }

  /** Each text preceded by its number, counting from `first`. */
  function Numbered(texts: seq<string>, first: nat): (r: seq<string>)
    ensures |r| == |texts|
    ensures forall i :: 0 <= i < |texts| ==> r[i] == IntToDecimal(first + i) + ". " + texts[i]
  {
    if texts == [] then [] else [IntToDecimal(first) + ". " + texts[0]] + Numbered(texts[1..], first + 1)
  }

  /** `getWorkflowSteps(provider)` */
  function WorkflowSteps(p: Provider): string {
    Join(Numbered(StepTexts(Steps(p)), 1), "\n")
  }

  /** The configuration members `getProviderNote` tells the agent to use. */
  function NoteFields(p: Provider): seq<string> {
    match p
    case GitHub => ["owner", "repo", "token"]
    case Gerrit => ["host", "project"]
    case Ado => ["organization", "project", "repository", "token"]
    case Local => ["repoPath"]
  }

  /** The tools the note speaks of. */
  function NoteScope(p: Provider): string {
    match p
    case GitHub => "repository"
    case Gerrit => "Gerrit"
    case Ado => "ADO"
    case Local => "git"
  }

  /** A list of names in English: `a`; `a` and `b`; `a`, `b`, and `c`. */
  function NameList(names: seq<string>): string
    requires names != []
  {
    var n := |names|;
    if n == 1 then Code(names[0])
    else if n == 2 then Concat([Code(names[0]), " and ", Code(names[1])])
    else Concat([Join(Codes(names[..n - 1]), ", "), ", and ", Code(names[n - 1])])
  }

  /** The list shows every name it is given. */
  lemma NameListMentions(names: seq<string>, i: nat)
    requires i < |names|
    ensures Mentions(NameList(names), names[i])
  {
    var n := |names|;
    MentionsCode(names[i]);
    if n == 2 {
      ConcatMentions([Code(names[0]), " and ", Code(names[1])], 2 * i, names[i]);
    } else if n > 2 {
      var head := Join(Codes(names[..n - 1]), ", ");
      if i < n - 1 {
        JoinMentions(names[..n - 1], ", ", i);
        ConcatMentions([head, ", and ", Code(names[n - 1])], 0, names[i]);
      } else {
        ConcatMentions([head, ", and ", Code(names[n - 1])], 2, names[i]);
      }
    }
  }

  function NoteParts(p: Provider): seq<string> {
    ["Use ", NameList(NoteFields(p)), " from config for all ", NoteScope(p), " tools.",
     if p == Gerrit then " No authentication required." else ""]
  }

  /** `getProviderNote(provider)` */
  function ProviderNote(p: Provider): string {
    Concat(NoteParts(p))
  }

  /** The fixed text of the prompt, the parts that depend neither on the
      provider nor on the custom instructions. */
  datatype Prose = Prose(
    intro: string,          // the opening sentence
    hints: string,          // the two lines after the workflow
    guidance: string,       // the sections from "Commit Classification" to "Guidelines"
    historyOpen: string,    // "Historical Context" up to the first tool name
    historyBetween: string, // between the two tool names
    historyClose: string)   // after the second tool name

  function SourceProse(): Prose {
    Prose(
      "You are RepoSentinel, an AI agent that monitors Git repositories and generates detailed reports on code changes.",
      "- If " + Code("subPaths") + " is set, query each path separately\n" +
      "- If no commits found, generate a report stating no changes",
      @"## Commit Classification

- **breaking**: Breaks backward compatibility
- **feature**: New functionality
- **fix**: Bug fixes
- **security**: Security-related changes
- **performance**: Optimizations
- **refactor**: Code restructuring
- **docs**: Documentation
- **test**: Test changes
- **chore**: Build/tooling changes

## Vital Commits

Analyze in detail if:
- Classified as breaking, feature, or security
- Changes more than 5 files or 100+ lines
- Modifies critical files (package.json, configs, APIs, schemas)

## Report Structure

```markdown
# Repository Change Report

**Repository:** [identifier]
**Branch:** [branch]
**Scope:** [sub-paths or ""Full repository""]
**Period:** [start] - [end]
**Generated:** [timestamp]

## Executive Summary
[2-3 sentences highlighting important changes]

## Notable Changes

### Breaking Changes
[List or ""No breaking changes""]

### New Features
[List or ""No new features""]

### Security Updates
[List if any]

## Changes by Path
[If multiple sub-paths, organize by path]

### [Path]

| Hash | Author | Classification | Summary |
|------|--------|----------------|---------|

#### Vital Commit: [hash] - [title]
- **Changes Overview:** [what and why]
- **Key Modifications:** [important files]
- **Impact:** [potential impact]

## Statistics
- Total Commits, Contributors, Files Changed, Lines Added/Removed
```

**Filename format:** `YYYY-MM-DD-HH-MM-<project>-<branch>[-<topic>].md`
- Include date and time (24-hour format)
- Include project name and branch
- If `subPaths` is set, add a short topic summarizing what those paths cover
- Use lowercase and hyphens, no spaces

Examples:
- `2025-11-28-14-30-chromium-src-main.md`
- `2025-11-28-09-15-ai-apps-main-gerrit-tools.md`

## Guidelines

- Focus on ""what"" and ""why"", not ""how""
- Use conventional commit messages to help classify
- Complete the workflow even with no commits
- Do NOT output anything after saving the report

",
      "## Historical Context\n\nIf you need context from previous analyses, you can:\n- Use ",
      " to see past reports\n- Use ",
      " to read specific past reports\n\n" +
      "This is useful for:\n- Tracking recurring issues across reports\n" +
      "- Comparing current changes to historical patterns\n" +
      "- Noting if a commit reverts or relates to previous changes\n")
  }

  /** The parts of the template of `createSystemPrompt` up to the custom
      instructions, filled in with the fixed text `t`, the workflow and the
      provider note. */
  function Template(t: Prose, workflow: string, note: string): seq<string> {
    [t.intro, "\n\n## Workflow\n\n", workflow, "\n\n", t.hints, "\n\n",
     note, "\n\n", t.guidance, t.historyOpen, Code(ListReportsTool), t.historyBetween,
     Code(ReadReportTool), t.historyClose]
  }

  const CustomHeading := "\n## Custom Instructions\n\n"

  /** What `if (customPrompt) prompt += ...` adds: nothing for an absent or
      empty custom prompt. */
  function CustomSection(custom: Option<string>): string {
    if custom.Some? && custom.value != "" then CustomHeading + custom.value + "\n" else ""
  }

  /** The filled-in template followed by the custom section. */
  function PromptText(t: Prose, workflow: string, note: string, custom: Option<string>): string {
    Concat(Template(t, workflow, note)) + CustomSection(custom)
  }

  function PromptWith(t: Prose, p: Provider, custom: Option<string>): string {
    PromptText(t, WorkflowSteps(p), ProviderNote(p), custom)
  }

  /** `createSystemPrompt(provider, customPrompt)`. The properties below
      are proved of `PromptWith` for any fixed text, so they hold of this one
      without its wording entering the proofs. */
  function CreateSystemPrompt(p: Provider, custom: Option<string>): string {
    PromptWith(SourceProse(), p, custom)
  }

  /** `s` is the system prompt for `p` and `custom`. Stated through a
      quantifier so that the prompt's text is unfolded only where a proof
      mentions `CreateSystemPrompt` itself. */
  ghost predicate IsSystemPrompt(s: string, p: Provider, custom: Option<string>) {
    forall q :: q == p ==> s == CreateSystemPrompt(q, custom)
  }

  // Properties of the workflow

  /** Every workflow starts by calling `get_config` and ends by saving the
      report; only the local one fetches from the remote, and it has six
      steps where the others have five. */
  lemma StepsPerProvider(p: Provider)
    ensures |Steps(p)| == (if p == Local then 6 else 5)
    ensures Steps(p)[0] == CallGetConfig
    ensures Steps(p)[|Steps(p)| - 1] == SaveReport
    ensures FetchRemote in Steps(p) <==> p == Local
  {
  }

  /** Steps are numbered from 1, one line each. */
  lemma WorkflowLines(p: Provider)
    ensures var lines := Numbered(StepTexts(Steps(p)), 1);
      WorkflowSteps(p) == Join(lines, "\n") &&
      |lines| == |Steps(p)| &&
      forall i :: 0 <= i < |lines| ==> lines[i] == IntToDecimal(i + 1) + ". " + StepText(Steps(p)[i])
  {
  }

  /** The first and the last step name their tools as code. */
  lemma StepMentions()
    ensures Mentions(StepText(CallGetConfig), GetConfigTool)
    ensures Mentions(StepText(SaveReport), SaveReportTool)
  {
    MentionsInside("Call ", GetConfigTool, " to get configuration");
    MentionsInside("Generate and save report using ", SaveReportTool, "");
    assert StepText(SaveReport) == "Generate and save report using " + Code(SaveReportTool) + "";
  }

  lemma NumberedMentions(texts: seq<string>, first: nat, i: nat, name: string)
    requires i < |texts| && Mentions(texts[i], name)
    ensures Mentions(Numbered(texts, first)[i], name)
  {
    MentionsWithin(texts[i], name, IntToDecimal(first + i) + ". ", "");
    assert Numbered(texts, first)[i] == IntToDecimal(first + i) + ". " + texts[i] + "";
  }

  /** The workflow names `get_config` and `save_report` as code. */
  lemma WorkflowMentionsTools(p: Provider)
    ensures Mentions(WorkflowSteps(p), GetConfigTool)
    ensures Mentions(WorkflowSteps(p), SaveReportTool)
  {
    StepsPerProvider(p);
    StepMentions();
    var texts := StepTexts(Steps(p));
    var n := |texts|;
    NumberedMentions(texts, 1, 0, GetConfigTool);
    NumberedMentions(texts, 1, n - 1, SaveReportTool);
    JoinMentionsPart(Numbered(texts, 1), "\n", 0, GetConfigTool);
    JoinMentionsPart(Numbered(texts, 1), "\n", n - 1, SaveReportTool);
  }

  // Properties of the provider note

  /** The note names each of its configuration members as code. */
  lemma NoteMentionsFields(p: Provider, f: string)
    requires f in NoteFields(p)
    ensures Mentions(ProviderNote(p), f)
  {
    var fields := NoteFields(p);
    var i :| 0 <= i < |fields| && fields[i] == f;
    NameListMentions(fields, i);
    ConcatMentions(NoteParts(p), 1, f);
  }

  /** The member names of a JSON object, in order. */
  function Keys(j: Json): (r: seq<string>)
    requires j.JObject?
    ensures |r| == |j.fields| && forall i :: 0 <= i < |r| ==> r[i] == j.fields[i].key
  {
    seq(|j.fields|, i requires 0 <= i < |j.fields| => j.fields[i].key)
  }

  /** For `github` and `local` every member the note points to is in what
      `get_config` returns. */
  lemma NoteBackedByConfig(env: Env.Environment, token: Option<string>, f: string)
    requires Env.GetRepoProvider(env).Returned? && SentinelConfig.GetConfig(env, token).Returned?
    requires Env.GetRepoProvider(env).value in {GitHub, Local}
    requires f in NoteFields(Env.GetRepoProvider(env).value)
    ensures f in Keys(ConfigJson(SentinelConfig.GetConfig(env, token).value))
  {
    var c := SentinelConfig.GetConfig(env, token).value;
    var keys := Keys(ConfigJson(c));
    if Env.GetRepoProvider(env).value == GitHub {
      assert c.GitHubConfig?;
      assert keys[5] == "owner" && keys[6] == "repo" && keys[7] == "token";
    } else {
      assert c.LocalConfig?;
      assert keys[5] == "repoPath";
    }
  }

  /** For `gerrit` and `ado` the note points to `project`, which
      `get_config` never returns: it reports those providers as local. */
  lemma NoteUnbackedForGerritAndAdo(env: Env.Environment, token: Option<string>)
    requires Env.GetRepoProvider(env).Returned? && SentinelConfig.GetConfig(env, token).Returned?
    requires Env.GetRepoProvider(env).value in {Gerrit, Ado}
    ensures "project" in NoteFields(Env.GetRepoProvider(env).value)
    ensures "project" !in Keys(ConfigJson(SentinelConfig.GetConfig(env, token).value))
  {
    var c := SentinelConfig.GetConfig(env, token).value;
    assert c.LocalConfig?;
    var keys := Keys(ConfigJson(c));
    assert keys == ["provider", "branch", "checkIntervalHours", "reportDir", "subPaths", "repoPath"];
  }

  /** With the four-case assembly, every member the note of any provider
      points to is in the configuration `get_config` returns. */
  lemma NoteBackedByCorrectedConfig(env: Env.Environment, githubToken: Option<string>, adoToken: Option<string>, f: string)
    requires SentinelConfig.GetConfigPerProvider(env, githubToken, adoToken).Returned?
    requires Env.GetRepoProvider(env).Returned? && f in NoteFields(Env.GetRepoProvider(env).value)
    ensures f in Keys(ConfigJson(SentinelConfig.GetConfigPerProvider(env, githubToken, adoToken).value))
  {
    var c := SentinelConfig.GetConfigPerProvider(env, githubToken, adoToken).value;
    var keys := Keys(ConfigJson(c));
    match Env.GetRepoProvider(env).value
    case GitHub =>
      assert c.GitHubConfig?;
      assert keys[5] == "owner" && keys[6] == "repo" && keys[7] == "token";
    case Local =>
      assert c.LocalConfig?;
      assert keys[5] == "repoPath";
    case Gerrit =>
      assert c.GerritConfig?;
      assert keys[5] == "host" && keys[6] == "project";
    case Ado =>
      assert c.AdoConfig?;
      assert keys[5] == "organization" && keys[6] == "project" && keys[7] == "repository" && keys[8] == "token";
  }

  // Properties of the whole prompt

  /** The prompt opens with the agent's introduction. */
  lemma StartsWithIntro(t: Prose, workflow: string, note: string, custom: Option<string>)
    ensures StartsWith(PromptText(t, workflow, note, custom), t.intro)
  {
    ConcatStart(Template(t, workflow, note));
    StartsWithExtend(Concat(Template(t, workflow, note)), CustomSection(custom), t.intro);
  }

  /** Custom instructions come last, after their heading, and only when
      they are present and not empty; the text before them is the same
      whatever they are. */
  lemma CustomInstructionsLast(t: Prose, workflow: string, note: string, custom: Option<string>)
    ensures var base := Concat(Template(t, workflow, note));
      var prompt := PromptText(t, workflow, note, custom);
      StartsWith(prompt, base) &&
      (prompt == base <==> custom.None? || custom.value == "") &&
      (custom.Some? && custom.value != "" ==>
        var start := |base| + |CustomHeading|;
        start < |prompt| &&
        prompt[|base|..start] == CustomHeading &&
        prompt[start..|prompt| - 1] == custom.value &&
        prompt[|prompt| - 1] == '\n')
  {
    var base := Concat(Template(t, workflow, note));
    var prompt := base + CustomSection(custom);
    assert prompt[..|base|] == base;
    if custom.Some? && custom.value != "" {
      var start := |base| + |CustomHeading|;
      assert prompt == base + CustomHeading + custom.value + "\n";
      assert prompt[|base|..start] == CustomHeading;
      assert prompt[start..|prompt| - 1] == custom.value;
    } else {
      assert prompt == base + "";
    }
  }

  /** Whatever a part of the template shows, the prompt shows. */
  lemma TemplateMentions(t: Prose, workflow: string, note: string, custom: Option<string>, i: nat, name: string)
    requires i < |Template(t, workflow, note)| && Mentions(Template(t, workflow, note)[i], name)
    ensures Mentions(PromptText(t, workflow, note, custom), name)
  {
    ConcatMentions(Template(t, workflow, note), i, name);
    MentionsBefore(Concat(Template(t, workflow, note)), CustomSection(custom), name);
  }

  /** The filled-in template names the report tools: `list_reports` and
      `read_report` in its last section, and whatever the workflow names. */
  lemma TemplateMentionsTools(t: Prose, workflow: string, note: string, custom: Option<string>)
    requires Mentions(workflow, GetConfigTool) && Mentions(workflow, SaveReportTool)
    ensures Mentions(PromptText(t, workflow, note, custom), GetConfigTool)
    ensures Mentions(PromptText(t, workflow, note, custom), SaveReportTool)
    ensures Mentions(PromptText(t, workflow, note, custom), ListReportsTool)
    ensures Mentions(PromptText(t, workflow, note, custom), ReadReportTool)
  {
    TemplateMentions(t, workflow, note, custom, 2, GetConfigTool);
    TemplateMentions(t, workflow, note, custom, 2, SaveReportTool);
    MentionsCode(ListReportsTool);
    TemplateMentions(t, workflow, note, custom, 10, ListReportsTool);
    MentionsCode(ReadReportTool);
    TemplateMentions(t, workflow, note, custom, 12, ReadReportTool);
  }

  /** The prompt names `get_config` and `save_report` in its workflow and
      `list_reports` and `read_report` in its last section. */
  lemma MentionsReportTools(t: Prose, p: Provider, custom: Option<string>)
    ensures Mentions(PromptWith(t, p, custom), GetConfigTool)
    ensures Mentions(PromptWith(t, p, custom), SaveReportTool)
    ensures Mentions(PromptWith(t, p, custom), ListReportsTool)
    ensures Mentions(PromptWith(t, p, custom), ReadReportTool)
  {
    var w, n := WorkflowSteps(p), ProviderNote(p);
    WorkflowMentionsTools(p);
    TemplateMentionsTools(t, w, n, custom);
    assert PromptWith(t, p, custom) == PromptText(t, w, n, custom);
  }

  /** The prompt names every configuration member its provider note points
      to. */
  lemma MentionsNoteFields(t: Prose, p: Provider, custom: Option<string>, f: string)
    requires f in NoteFields(p)
    ensures Mentions(PromptWith(t, p, custom), f)
  {
    var w, n := WorkflowSteps(p), ProviderNote(p);
    NoteMentionsFields(p, f);
    TemplateMentionsNote(t, w, n, custom, f);
    assert PromptWith(t, p, custom) == PromptText(t, w, n, custom);
  }

  lemma TemplateMentionsNote(t: Prose, workflow: string, note: string, custom: Option<string>, name: string)
    requires Mentions(note, name)
    ensures Mentions(PromptText(t, workflow, note, custom), name)
  {
    TemplateMentions(t, workflow, note, custom, 6, name);
  }
}
