/** `createCommitAnalyzerSubagentSystemPrompt` and `getToolNames` of
    agents/repo-sentinel/src/prompts/commit-analyzer-subagent-system-prompt.ts:
    the instructions of the sub-agent that analyses one commit, which tell
    it the two tools to call, chosen by provider.
 */
module AnalyzerPrompt {

  import opened Strings
  import opened Markdown
  import opened SentinelTypes

  /** The tool that gives a commit's metadata and changed files, and the one
      that gives its diff. */
  datatype ToolNames = ToolNames(details: string, diff: string)

  /** `getToolNames(provider)`; `local` is the `default` case. */
  function GetToolNames(p: Provider): (names: ToolNames)
    ensures names.details != names.diff
  {
    match p
    case GitHub => ToolNames("github_get_commit_details", "github_get_commit_diff")
    case Ado => ToolNames("ado_get_commit_details", "ado_get_commit_diff")
    case Gerrit => ToolNames("get_change_details", "get_change_diff")
    case Local => ToolNames("get_commit_details", "get_commit_diff")
  }

  /** `getToolNames` with the Gerrit pair under the names the Gerrit tools
      are defined with (`gerrit_get_change_details`, `gerrit_get_change_diff`). */
  function CorrectedToolNames(p: Provider): (names: ToolNames)
    ensures p != Gerrit ==> names == GetToolNames(p)
    ensures p == Gerrit ==> names.details == "gerrit_" + GetToolNames(p).details &&
                            names.diff == "gerrit_" + GetToolNames(p).diff
  {
    if p == Gerrit then ToolNames("gerrit_get_change_details", "gerrit_get_change_diff")
    else GetToolNames(p)
  }

  /** The fixed text around the two tool names. */
  datatype Prose = Prose(
    opening: string,   // up to the first tool name
    between: string,   // between the two tool names
    closing: string)   // after the second tool name

  function SourceProse(): Prose {
    Prose(
      "You are a commit analysis specialist. Your task is to analyze a single commit and provide a structured assessment.\n\n" +
      "## Process\n\n1. First, call ",
      " to get commit metadata and changed files\n2. Then, call ",
      " to get the actual code changes\n" + @"3. Analyze the changes and provide your assessment

## Analysis Guidelines

### Classification
- **breaking**: Changes that break backward compatibility (API changes, removed features, changed behavior)
- **feature**: New functionality or capabilities
- **fix**: Bug fixes, error corrections
- **security**: Security patches, vulnerability fixes, auth changes
- **performance**: Optimizations, speed improvements
- **refactor**: Code restructuring without behavior changes
- **docs**: Documentation only changes
- **test**: Test additions or modifications
- **chore**: Build, tooling, dependency updates

### Impact Assessment
- **critical**: Production-breaking, security vulnerabilities, data loss risk
- **high**: Major feature changes, significant behavior modifications
- **medium**: Notable changes that affect specific functionality
- **low**: Minor improvements, cosmetic changes, internal refactoring

### Key Changes
Focus on the most important modifications:
- API surface changes
- Configuration changes
- Database/schema modifications
- Security-relevant code
- Core business logic

## Output Format

After analyzing, output ONLY a valid JSON object (no markdown, no explanation):

{
  ""commitId"": ""the commit hash"",
  ""classification"": ""primary classification"",
  ""secondaryClassifications"": [""optional"", ""additional""],
  ""summary"": ""One sentence describing what changed and why"",
  ""impact"": {
    ""severity"": ""critical|high|medium|low"",
    ""areas"": [""affected areas or components""],
    ""breakingChanges"": [""list if any breaking changes""],
    ""securityImplications"": [""list if any security concerns""]
  },
  ""keyChanges"": [
    {""file"": ""path/to/file"", ""change"": ""brief description""}
  ],
  ""notes"": ""optional reviewer notes or concerns""
}

Important:
- Be concise but thorough
- Focus on the ""what"" and ""why"", not ""how""
- Identify potential risks or concerns
- Output ONLY the JSON, nothing else")
  }

  /** The template filled in with the fixed text `t` and the tool names. */
  function PromptWith(t: Prose, names: ToolNames): string {
    Concat([t.opening, Code(names.details), t.between, Code(names.diff), t.closing])
  }

  /** `createCommitAnalyzerSubagentSystemPrompt(provider)` */
  function CreateCommitAnalyzerPrompt(p: Provider): string {
    PromptWith(SourceProse(), GetToolNames(p))
  }

  // Properties

  /** Each provider has its own pair of names, and no pair names the same
      tool twice. */
  lemma ToolNamesDistinct(p: Provider, q: Provider)
    ensures GetToolNames(p).details != GetToolNames(p).diff
    ensures p != q ==> GetToolNames(p).details != GetToolNames(q).details
    ensures p != q ==> GetToolNames(p).diff != GetToolNames(q).diff
  {
  }

  /** The two parts of the template that surround its tool names. */
  lemma PromptPieces(t: Prose, names: ToolNames)
    ensures PromptWith(t, names) == t.opening + Code(names.details) + (t.between + Code(names.diff) + t.closing)
    ensures PromptWith(t, names) == (t.opening + Code(names.details) + t.between) + Code(names.diff) + t.closing
  {
    var parts := [t.opening, Code(names.details), t.between, Code(names.diff), t.closing];
    var p4 := parts[4..];
    assert p4 == [t.closing] && p4[1..] == [];
    assert Concat(p4) == t.closing;
    assert parts[3..][1..] == p4;
    assert Concat(parts[3..]) == Code(names.diff) + t.closing;
    assert parts[2..][1..] == parts[3..];
    assert Concat(parts[2..]) == t.between + Code(names.diff) + t.closing;
    assert parts[1..][1..] == parts[2..];
    assert Concat(parts[1..]) == Code(names.details) + (t.between + Code(names.diff) + t.closing);
  }

  /** The sub-agent is told to call the details tool first and the diff
      tool after it: both are shown as code, the details tool earlier. */
  lemma DetailsBeforeDiff(t: Prose, p: Provider)
    ensures var names := GetToolNames(p);
      var prompt := PromptWith(t, names);
      var i := |t.opening|;
      var j := |t.opening| + |Code(names.details)| + |t.between|;
      i < j && MentionsAt(prompt, names.details, i) && MentionsAt(prompt, names.diff, j)
  {
    var names := GetToolNames(p);
    PromptPieces(t, names);
    MentionsInside(t.opening, names.details, t.between + Code(names.diff) + t.closing);
    MentionsInside(t.opening + Code(names.details) + t.between, names.diff, t.closing);
  }
}
