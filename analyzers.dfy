/** The `analyze_commit` tools of agents/repo-sentinel/src/subagent-tools/: each
    handler builds a registry of exactly two provider tools, the commit
    details and the commit diff, and runs the sub-agent with it and with the
    prompt for its provider.

    The two tools and their handlers are parameters; the names their
    definitions carry in tools/github, tools/ado and tools/gerrit are kept
    in `DefinedNames`. The local git tools come from a package that is not
    part of this model, so their names are left open.
 */
module Analyzers {

  import opened Wrappers
  import opened Json
  import opened Chat
  import opened SentinelTypes
  import opened AnalyzerPrompt
  import RegistryModel
  import OpenAISessionRegistry
  import Agent
  import Seqs

  /** The name every analyzer tool is registered under. */
  const AnalyzeCommit := "analyze_commit"

  /** The names in the definitions of the two tools each analyzer registers;
      `None` for the local git tools. */
  function DefinedNames(p: Provider): Option<ToolNames> {
    match p
    case GitHub => Some(ToolNames("github_get_commit_details", "github_get_commit_diff"))
    case Ado => Some(ToolNames("ado_get_commit_details", "ado_get_commit_diff"))
    case Gerrit => Some(ToolNames("gerrit_get_change_details", "gerrit_get_change_diff"))
    case Local => None
  }

  /** `details` and `diff` are the provider's two tools, under the names
      their definitions give them. */
  predicate ProviderTools(p: Provider, details: OpenAITool, diff: OpenAITool) {
    DefinedNames(p).Some? ==>
      RegistryModel.NameOf(details) == DefinedNames(p).value.details &&
      RegistryModel.NameOf(diff) == DefinedNames(p).value.diff
  }

  /** The registry of the sub-agent: `details`, then `diff`. */
  function SubagentRegistry(details: OpenAITool, diff: OpenAITool): RegistryModel.Registry {
    RegistryModel.RegisterEach(RegistryModel.Empty, [details, diff])
  }

  /** `new ToolRegistry()` followed by the two `register` calls. */
  method BuildSubagentRegistry(details: OpenAITool, diff: OpenAITool) returns (registry: OpenAISessionRegistry.ToolRegistry)
    ensures fresh(registry) && registry.Valid()
    ensures registry.State() == SubagentRegistry(details, diff)
  {
    registry := new OpenAISessionRegistry.ToolRegistry();
    registry.Register(details);
    assert [details][..0] == [];
    assert registry.State() == RegistryModel.RegisterEach(RegistryModel.Empty, [details]);
    registry.Register(diff);
    assert [details, diff][..1] == [details];
  }

  /** The sub-agent's run: `runAgent` with the two-tool registry, whose
      final text the handler returns. */
  function SubagentRun(details: OpenAITool, diff: OpenAITool, parse: string -> Outcome<Json>,
                       replies: seq<Completion>): Agent.Run
  {
    Agent.RunSpec(SubagentRegistry(details, diff), parse, replies)
  }

  /** The `analyze_commit` handler of provider `p`: a fresh registry of the
      two tools, then `runAgent` with the provider's analyzer prompt; the
      sub-agent's final text is the tool's result. The user prompt, built
      from the call's arguments, is a parameter. */
  method AnalyzeHandler(p: Provider, details: OpenAITool, diff: OpenAITool, model: string, userPrompt: string,
                        replies: seq<Completion>, parse: string -> Outcome<Json>)
    returns (result: Agent.RunResult)
    ensures result == SubagentRun(details, diff, parse, replies).result
  {
    var registry := BuildSubagentRegistry(details, diff);
    var run := Agent.RunAgent(registry, model, CreateCommitAnalyzerPrompt(p), userPrompt, replies, parse);
    result := run.result;
  }

  // Properties

  /** The sub-agent can call exactly the two tools, listed in registration
      order. */
  lemma SubagentRegistryContents(details: OpenAITool, diff: OpenAITool, name: string)
    requires RegistryModel.NameOf(details) != RegistryModel.NameOf(diff)
    ensures var r := SubagentRegistry(details, diff);
      RegistryModel.Valid(r) &&
      (RegistryModel.Has(r, name) <==> name == RegistryModel.NameOf(details) || name == RegistryModel.NameOf(diff)) &&
      r.order == [RegistryModel.NameOf(details), RegistryModel.NameOf(diff)]
  {
    var ts := [details, diff];
    RegistryModel.EmptyValid();
    RegistryModel.RegisterEachValid(RegistryModel.Empty, ts);
    RegistryModel.RegisterEachHas(ts, name);
    RegistryModel.RegisterEachOrder(ts);
    var names := RegistryModel.Names(ts);
    assert names == [RegistryModel.NameOf(details), RegistryModel.NameOf(diff)];
    assert Seqs.Dedup(names) == names by {
      assert names[..1] == [RegistryModel.NameOf(details)];
    }
  }

  /** No provider's sub-agent can start another analysis: `analyze_commit`
      is not among its tools. */
  lemma NoNestedAnalysis(p: Provider, details: OpenAITool, diff: OpenAITool)
    requires p != Local && ProviderTools(p, details, diff)
    ensures !RegistryModel.Has(SubagentRegistry(details, diff), AnalyzeCommit)
  {
    SubagentRegistryContents(details, diff, AnalyzeCommit);
  }

  /** For GitHub and Azure DevOps the prompt names the two tools the
      sub-agent has. */
  lemma PromptNamesRegistered(p: Provider, details: OpenAITool, diff: OpenAITool)
    requires p in {GitHub, Ado} && ProviderTools(p, details, diff)
    ensures RegistryModel.Has(SubagentRegistry(details, diff), GetToolNames(p).details)
    ensures RegistryModel.Has(SubagentRegistry(details, diff), GetToolNames(p).diff)
  {
    SubagentRegistryContents(details, diff, GetToolNames(p).details);
    SubagentRegistryContents(details, diff, GetToolNames(p).diff);
  }

  /** For Gerrit the prompt names `get_change_details` and
      `get_change_diff`, but the tools are registered as
      `gerrit_get_change_details` and `gerrit_get_change_diff`: neither name
      of the prompt is in the registry. */
  lemma GerritNamesMismatch(details: OpenAITool, diff: OpenAITool)
    requires ProviderTools(Gerrit, details, diff)
    ensures !RegistryModel.Has(SubagentRegistry(details, diff), GetToolNames(Gerrit).details)
    ensures !RegistryModel.Has(SubagentRegistry(details, diff), GetToolNames(Gerrit).diff)
  {
    var names := GetToolNames(Gerrit);
    assert |names.details| < |RegistryModel.NameOf(details)| && |names.details| < |RegistryModel.NameOf(diff)|;
    assert |names.diff| < |RegistryModel.NameOf(details)| && |names.diff| < |RegistryModel.NameOf(diff)|;
    SubagentRegistryContents(details, diff, names.details);
    SubagentRegistryContents(details, diff, names.diff);
  }

  /** So the first call the Gerrit prompt asks for comes back to the model
      as the "Tool not found" error envelope. */
  lemma GerritFirstCallFails(details: OpenAITool, diff: OpenAITool, id: string, args: string,
                             parse: string -> Outcome<Json>)
    requires ProviderTools(Gerrit, details, diff)
    ensures var call := FunctionCall(id, GetToolNames(Gerrit).details, args);
      Agent.CallResult(SubagentRegistry(details, diff), call, parse) ==
      ToolResult(id, ErrorEnvelope("Tool not found: " + GetToolNames(Gerrit).details))
  {
    GerritNamesMismatch(details, diff);
    var reg := SubagentRegistry(details, diff);
    var call := FunctionCall(id, GetToolNames(Gerrit).details, args);
    assert Agent.CallOutcome(reg, call, parse) == Threw(RegistryModel.NotFound(GetToolNames(Gerrit).details));
  }

  /** With the Gerrit names corrected, the prompt of every provider whose
      tools are known names the two tools the sub-agent has. */
  lemma CorrectedPromptNamesRegistered(p: Provider, details: OpenAITool, diff: OpenAITool)
    requires p != Local && ProviderTools(p, details, diff)
    ensures RegistryModel.Has(SubagentRegistry(details, diff), CorrectedToolNames(p).details)
    ensures RegistryModel.Has(SubagentRegistry(details, diff), CorrectedToolNames(p).diff)
  {
    SubagentRegistryContents(details, diff, CorrectedToolNames(p).details);
    SubagentRegistryContents(details, diff, CorrectedToolNames(p).diff);
  }
}
