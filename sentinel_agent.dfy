/** `runAgent` of agents/repo-sentinel/src/agent.ts: the provider read from
    the environment, GitHub authentication, a registry whose tools depend on
    the provider, then the tool loop of libraries/agent/src/agent.ts.

    From the session on the run is that of `Agent.RunAgent`:
    `printContent` hands every `extractContent` item of a reply to
    `logger.assistant` (an `Agent.ContentOut` event), and `collectToolCalls`
    is `extractToolCalls`. After the loop the last reply is printed once
    more. Client options, the user prompt and the device flow enter as
    values: `auth` is what `authenticateWithDeviceFlow` produced.
 */
module SentinelAgent {

  import opened Wrappers
  import opened Json
  import opened Chat
  import opened SentinelTypes
  import opened AgentHelpers
  import RegistryModel
  import OpenAISessionRegistry
  import Agent
  import TokenStores
  import Env
  import SystemPrompt
  import Strings

  /** The tools `createToolRegistry` draws on: the agent's own `get_config`
      and `save_report`, the definition of `get_github_token`, and the
      `allTools` lists of the GitHub, Gerrit and local git packages. */
  datatype Kit = Kit(
    getConfig: OpenAITool,
    saveReport: OpenAITool,
    tokenDefinition: ToolDefinition,
    github: seq<OpenAITool>,
    gerrit: seq<OpenAITool>,
    git: seq<OpenAITool>)

  /** The names the agent's own definitions carry. */
  predicate Named(kit: Kit) {
    RegistryModel.NameOf(kit.getConfig) == "get_config" &&
    RegistryModel.NameOf(kit.saveReport) == "save_report" &&
    kit.tokenDefinition.name == "get_github_token"
  }

  /** `get_github_token`, whose handler hands out what the GitHub token store
      holds when it is called. */
  function TokenToolOf(kit: Kit, stored: Option<string>): OpenAITool {
    OpenAITool(kit.tokenDefinition, args => TokenStores.TokenTool(stored, TokenStores.GitHubTokenMissing))
  }

  function AgentTools(kit: Kit): seq<OpenAITool> {
    [kit.getConfig, kit.saveReport]
  }

  /** The provider's own tools: GitHub adds the token tool and the GitHub
      tools, Gerrit the Gerrit tools, every other provider the local git
      tools. */
  function ProviderTools(p: Provider, kit: Kit, stored: Option<string>): seq<OpenAITool> {
    match p
    case GitHub => [TokenToolOf(kit, stored)] + kit.github
    case Gerrit => kit.gerrit
    case _ => kit.git
  }

  function ToolsFor(p: Provider, kit: Kit, stored: Option<string>): seq<OpenAITool> {
    AgentTools(kit) + ProviderTools(p, kit, stored)
  }

  /** The registry `createToolRegistry(p)` returns. */
  function SentinelRegistry(p: Provider, kit: Kit, stored: Option<string>): RegistryModel.Registry {
    RegistryModel.RegisterEach(RegistryModel.Empty, ToolsFor(p, kit, stored))
  }

  /** One `for (const tool of allTools) registry.register(...)` loop. */
  method RegisterTools(registry: OpenAISessionRegistry.ToolRegistry, ghost done: seq<OpenAITool>, ts: seq<OpenAITool>)
    requires registry.Valid() && registry.State() == RegistryModel.RegisterEach(RegistryModel.Empty, done)
    modifies registry
    ensures registry.Valid()
    ensures registry.State() == RegistryModel.RegisterEach(RegistryModel.Empty, done + ts)
  {
    assert done + ts[..0] == done;
    for i := 0 to |ts|
      invariant registry.Valid()
      invariant registry.State() == RegistryModel.RegisterEach(RegistryModel.Empty, done + ts[..i])
    {
      RegistryModel.RegisterEachSnoc(RegistryModel.Empty, done + ts[..i], ts[i]);
      assert done + ts[..i + 1] == (done + ts[..i]) + [ts[i]];
      registry.Register(ts[i]);
    }
    assert ts[..|ts|] == ts;
  }

  /** `createToolRegistry(provider)`. */
  method CreateToolRegistry(p: Provider, kit: Kit, stored: Option<string>) returns (registry: OpenAISessionRegistry.ToolRegistry)
    ensures fresh(registry) && registry.Valid()
    ensures registry.State() == SentinelRegistry(p, kit, stored)
  {
    registry := new OpenAISessionRegistry.ToolRegistry();
    RegistryModel.RegisterEachSnoc(RegistryModel.Empty, [], kit.getConfig);
    assert [] + [kit.getConfig] == [kit.getConfig];
    registry.Register(kit.getConfig);
    RegistryModel.RegisterEachSnoc(RegistryModel.Empty, [kit.getConfig], kit.saveReport);
    registry.Register(kit.saveReport);
    assert [kit.getConfig] + [kit.saveReport] == AgentTools(kit);
    RegisterProviderTools(registry, p, kit, stored);
  }

  /** The provider-specific half of `createToolRegistry`. */
  method RegisterProviderTools(registry: OpenAISessionRegistry.ToolRegistry, p: Provider, kit: Kit, stored: Option<string>)
    requires registry.Valid() && registry.State() == RegistryModel.RegisterEach(RegistryModel.Empty, AgentTools(kit))
    modifies registry
    ensures registry.Valid()
    ensures registry.State() == SentinelRegistry(p, kit, stored)
  {
    var done := AgentTools(kit);
    if p == GitHub {
      var token := TokenToolOf(kit, stored);
      RegistryModel.RegisterEachSnoc(RegistryModel.Empty, done, token);
      registry.Register(token);
      RegisterTools(registry, done + [token], kit.github);
      assert ProviderTools(p, kit, stored) == [token] + kit.github;
      assert done + [token] + kit.github == done + ([token] + kit.github);
    } else if p == Gerrit {
      RegisterTools(registry, done, kit.gerrit);
      assert ProviderTools(p, kit, stored) == kit.gerrit;
    } else {
      RegisterTools(registry, done, kit.git);
      assert ProviderTools(p, kit, stored) == kit.git;
    }
  }

  const AuthFailed := "GitHub authentication failed"

  /** The last reply printed once more after the loop, when the loop ended
      on a reply that asks for no tool. */
  function FinalPrint(run: Agent.Run, replies: seq<Completion>): (r: Agent.Run)
    ensures r.result == run.result && r.submitted == run.submitted
    ensures exists extra :: r.events == run.events + extra
    ensures !run.result.Completed? ==> r == run
  {
    if run.result.Completed? && |run.submitted| < |replies| then
      run.(events := run.events + Agent.ContentEvents(ExtractContent(replies[|run.submitted|])))
    else
      assert run.events == run.events + [];
      run
  }

  /** The whole of `runAgent(logger)`: its failures in the order the source
      meets them, else the run. `stored` is what the GitHub token store
      held before. */
  function SentinelSpec(env: Env.Environment, read: string -> Outcome<string>, kit: Kit, auth: Outcome<string>,
                        stored: Option<string>, parse: string -> Outcome<Json>, replies: seq<Completion>)
    : (r: Outcome<Agent.Run>)
    ensures Env.GetRepoProvider(env).Threw? ==> r == Threw(Env.ProviderError)
    ensures Env.GetRepoProvider(env) == Returned(GitHub) && auth.Threw? ==> r == Threw(Wrapped(AuthFailed, auth.error))
    ensures r.Returned? ==>
      var p := Env.GetRepoProvider(env).value;
      var token := if p == GitHub then Some(auth.value) else stored;
      !Env.Unset(env, "OPENAI_API_KEY") && !Env.Unset(env, "OPENAI_MODEL") &&
      Env.GetCustomPrompt(env, read).Returned? &&
      r.value == FinalPrint(Agent.RunSpec(SentinelRegistry(p, kit, token), parse, replies), replies)
  {
    match Env.GetRepoProvider(env)
    case Threw(e) => Threw(e)
    case Returned(p) =>
      if p == GitHub && auth.Threw? then Threw(Wrapped(AuthFailed, auth.error))
      else
        var token := if p == GitHub then Some(auth.value) else stored;
        LaunchSpec(env, read, SentinelRegistry(p, kit, token), parse, replies)
  }

  /** What follows the registry: the two required variables, the custom
      prompt, then the run. */
  function LaunchSpec(env: Env.Environment, read: string -> Outcome<string>, reg: RegistryModel.Registry,
                      parse: string -> Outcome<Json>, replies: seq<Completion>)
    : (r: Outcome<Agent.Run>)
    ensures Env.Unset(env, "OPENAI_API_KEY") ==> r == Threw(Env.NotSetError("OPENAI_API_KEY"))
    ensures r.Returned? ==>
      !Env.Unset(env, "OPENAI_API_KEY") && !Env.Unset(env, "OPENAI_MODEL") &&
      Env.GetCustomPrompt(env, read).Returned? &&
      r.value == FinalPrint(Agent.RunSpec(reg, parse, replies), replies)
  {
    match Env.Required(env, "OPENAI_API_KEY")
    case Threw(e) => Threw(e)
    case Returned(_) =>
      match Env.Required(env, "OPENAI_MODEL")
      case Threw(e) => Threw(e)
      case Returned(_) =>
        match Env.GetCustomPrompt(env, read)
        case Threw(e) => Threw(e)
        case Returned(_) => Returned(FinalPrint(Agent.RunSpec(reg, parse, replies), replies))
  }

  /** `createSystemPrompt(provider, getCustomPrompt())` */
  method SessionPrompt(p: Provider, custom: Option<string>) returns (prompt: string)
    ensures SystemPrompt.IsSystemPrompt(prompt, p, custom)
  {
    prompt := SystemPrompt.CreateSystemPrompt(p, custom);
  }

  /** From the session on: the session with the system prompt, the tool
      loop, and the final `printContent()`. */
  method RunSession(registry: OpenAISessionRegistry.ToolRegistry, systemPrompt: string, model: string,
                    userPrompt: string, parse: string -> Outcome<Json>, replies: seq<Completion>)
    returns (run: Agent.Run)
    requires registry.Valid()
    ensures run == FinalPrint(Agent.RunSpec(registry.State(), parse, replies), replies)
  {
    run := Agent.RunAgent(registry, model, systemPrompt, userPrompt, replies, parse);
    if run.result.Completed? && |run.submitted| < |replies| {
      run := run.(events := run.events + Agent.ContentEvents(ExtractContent(replies[|run.submitted|])));
    }
  }

  /** `runAgent(logger)`, with the GitHub token store `store`. */
  method RunSentinel(env: Env.Environment, read: string -> Outcome<string>, kit: Kit, store: TokenStores.TokenStore,
                     auth: Outcome<string>, userPrompt: string, parse: string -> Outcome<Json>, replies: seq<Completion>)
    returns (outcome: Outcome<Agent.Run>)
    modifies store
    ensures outcome == SentinelSpec(env, read, kit, auth, old(store.token), parse, replies)
    ensures Env.GetRepoProvider(env) == Returned(GitHub) && auth.Returned? ==> store.token == Some(auth.value)
    ensures !(Env.GetRepoProvider(env) == Returned(GitHub) && auth.Returned?) ==> store.token == old(store.token)
  {
    var provider := Env.GetRepoProvider(env);
    if provider.Threw? {
      return Threw(provider.error);
    }
    var p := provider.value;
    if p == GitHub {
      if auth.Threw? {
        return Threw(Wrapped(AuthFailed, auth.error));
      }
      store.Set(auth.value);
    }
    var stored := store.Get();
    var registry := CreateToolRegistry(p, kit, stored);
    outcome := Launch(env, read, p, registry, userPrompt, parse, replies);
  }

  /** The rest of `runAgent(logger)` once the registry is built. */
  method Launch(env: Env.Environment, read: string -> Outcome<string>, p: Provider,
                registry: OpenAISessionRegistry.ToolRegistry, userPrompt: string,
                parse: string -> Outcome<Json>, replies: seq<Completion>)
    returns (outcome: Outcome<Agent.Run>)
    requires registry.Valid()
    ensures outcome == LaunchSpec(env, read, registry.State(), parse, replies)
  {
    ghost var reg := registry.State();
    var apiKey := Env.Required(env, "OPENAI_API_KEY");
    if apiKey.Threw? {
      assert LaunchSpec(env, read, reg, parse, replies) == Threw(apiKey.error);
      return Threw(apiKey.error);
    }
    var model := Env.Required(env, "OPENAI_MODEL");
    if model.Threw? {
      assert LaunchSpec(env, read, reg, parse, replies) == Threw(model.error);
      return Threw(model.error);
    }
    var custom := Env.GetCustomPrompt(env, read);
    if custom.Threw? {
      assert LaunchSpec(env, read, reg, parse, replies) == Threw(custom.error);
      return Threw(custom.error);
    }
    ghost var spec := FinalPrint(Agent.RunSpec(reg, parse, replies), replies);
    assert LaunchSpec(env, read, reg, parse, replies) == Returned(spec);
    var systemPrompt := SessionPrompt(p, custom.value);
    var run := RunSession(registry, systemPrompt, model.value, userPrompt, parse, replies);
    assert run == spec;
    outcome := Returned(run);
  }

  // Properties of the registry

  /** Every provider's registry lists `get_config` and then `save_report`
      first. */
  lemma AgentToolsFirst(p: Provider, kit: Kit, stored: Option<string>)
    requires Named(kit)
    ensures var order := SentinelRegistry(p, kit, stored).order;
      |order| >= 2 && order[0] == "get_config" && order[1] == "save_report"
  {
    var a := AgentTools(kit);
    var first := RegistryModel.RegisterEach(RegistryModel.Empty, a);
    RegistryModel.RegisterEachAppend(RegistryModel.Empty, a, ProviderTools(p, kit, stored));
    RegistryModel.RegisterEachExtendsOrder(first, ProviderTools(p, kit, stored));
    RegistryModel.RegisterEachSnoc(RegistryModel.Empty, [], kit.getConfig);
    assert [] + [kit.getConfig] == [kit.getConfig];
    RegistryModel.RegisterEachSnoc(RegistryModel.Empty, [kit.getConfig], kit.saveReport);
    assert [kit.getConfig] + [kit.saveReport] == a;
    assert first.order == ["get_config", "save_report"];
  }

  /** The tools each provider can call: the agent's two, plus the token tool
      and the GitHub tools for GitHub, the Gerrit tools for Gerrit, and the
      local git tools for every other provider, Azure DevOps included. */
  lemma ProviderSelection(p: Provider, kit: Kit, stored: Option<string>, name: string)
    ensures var has := RegistryModel.Has(SentinelRegistry(p, kit, stored), name);
      has <==>
        name == RegistryModel.NameOf(kit.getConfig) || name == RegistryModel.NameOf(kit.saveReport) ||
        (p == GitHub && (name == kit.tokenDefinition.name || name in RegistryModel.Names(kit.github))) ||
        (p == Gerrit && name in RegistryModel.Names(kit.gerrit)) ||
        (p in {Local, Ado} && name in RegistryModel.Names(kit.git))
  {
    var a := AgentTools(kit);
    var b := ProviderTools(p, kit, stored);
    RegistryModel.RegisterEachHas(a + b, name);
    RegistryModel.NamesAppend(a, b);
    if p == GitHub {
      RegistryModel.NamesAppend([TokenToolOf(kit, stored)], kit.github);
    }
  }

  const ListReportsTool := "list_reports"
  const ReadReportTool := "read_report"

  /** The system prompt sends the model to `list_reports` and `read_report`
      for every provider, yet `createToolRegistry` registers neither: unless
      a provider tool happens to bear the name, calling one fails with
      `Tool not found`. */
  lemma ReportToolsUnregistered(p: Provider, kit: Kit, stored: Option<string>, name: string)
    requires Named(kit) && name in {ListReportsTool, ReadReportTool}
    requires name !in RegistryModel.Names(ProviderTools(p, kit, stored))
    ensures !RegistryModel.Has(SentinelRegistry(p, kit, stored), name)
  {
    var a := AgentTools(kit);
    var b := ProviderTools(p, kit, stored);
    RegistryModel.RegisterEachHas(a + b, name);
    RegistryModel.NamesAppend(a, b);
    assert RegistryModel.Names(a) == ["get_config", "save_report"];
  }

  /** `createToolRegistry` with the two report-reading tools registered
      after `save_report`. */
  function CorrectedRegistry(p: Provider, kit: Kit, listReports: OpenAITool, readReport: OpenAITool,
                             stored: Option<string>): RegistryModel.Registry
  {
    RegistryModel.RegisterEach(RegistryModel.Empty,
      AgentTools(kit) + [listReports, readReport] + ProviderTools(p, kit, stored))
  }

  /** In the corrected registry both tools the prompt points to are
      callable, for every provider. */
  lemma CorrectedRegistryHasReportTools(p: Provider, kit: Kit, listReports: OpenAITool, readReport: OpenAITool,
                                        stored: Option<string>)
    requires RegistryModel.NameOf(listReports) == ListReportsTool && RegistryModel.NameOf(readReport) == ReadReportTool
    ensures RegistryModel.Has(CorrectedRegistry(p, kit, listReports, readReport, stored), ListReportsTool)
    ensures RegistryModel.Has(CorrectedRegistry(p, kit, listReports, readReport, stored), ReadReportTool)
  {
    var a := AgentTools(kit) + [listReports, readReport];
    var b := ProviderTools(p, kit, stored);
    RegistryModel.NamesAppend(a, b);
    RegistryModel.NamesAppend(AgentTools(kit), [listReports, readReport]);
    RegistryModel.RegisterEachHas(a + b, ListReportsTool);
    RegistryModel.RegisterEachHas(a + b, ReadReportTool);
    assert RegistryModel.Names(a)[2] == ListReportsTool && RegistryModel.Names(a)[3] == ReadReportTool;
  }

  /** After a successful authentication `get_github_token` hands the model
      the token that was stored, trimmed by `execute`, unless one of the
      GitHub tools reuses its name. */
  lemma TokenHandedOut(kit: Kit, token: string, argsJson: string, parse: string -> Outcome<Json>)
    requires Named(kit) && token != "" && parse(argsJson).Returned?
    requires forall i :: 0 <= i < |kit.github| ==> RegistryModel.NameOf(kit.github[i]) != "get_github_token"
    ensures RegistryModel.Execute(SentinelRegistry(GitHub, kit, Some(token)), "get_github_token", argsJson, parse, true) ==
      Returned(Strings.Trim(token))
  {
    var ts := ToolsFor(GitHub, kit, Some(token));
    forall j | 2 < j < |ts| ensures RegistryModel.NameOf(ts[j]) != RegistryModel.NameOf(ts[2]) {
      assert ts[j] == kit.github[j - 3];
    }
    RegistryModel.LastRegistrationWins(ts, 2);
  }

  // Properties of the run

  lemma {:induction false} ContentsBetweenLast(replies: seq<Completion>, lo: nat, hi: nat)
    requires lo <= hi < |replies|
    decreases hi - lo
    ensures Agent.ContentsBetween(replies, lo, hi + 1) ==
      Agent.ContentsBetween(replies, lo, hi) + ExtractContent(replies[hi])
  {
    if lo < hi {
      ContentsBetweenLast(replies, lo + 1, hi);
    }
  }

  /** The assistant text of a completed run: every reply's contents in
      order, and the last reply's contents a second time. */
  lemma FinalContentTwice(reg: RegistryModel.Registry, parse: string -> Outcome<Json>, replies: seq<Completion>)
    requires Agent.RunSpec(reg, parse, replies).result.Completed?
    ensures var run := FinalPrint(Agent.RunSpec(reg, parse, replies), replies);
      var n := |run.submitted|;
      n < |replies| &&
      Agent.Texts(run.events) ==
        Agent.ContentsBetween(replies, 0, n) + ExtractContent(replies[n]) + ExtractContent(replies[n])
  {
    var run := Agent.RunSpec(reg, parse, replies);
    assert replies != [];
    Agent.ContentCallbacks(reg, parse, replies);
    var n := |run.submitted|;
    var last := ExtractContent(replies[n]);
    ContentsBetweenLast(replies, 0, n);
    Agent.TextsAppend(run.events, Agent.ContentEvents(last));
    Agent.TextsOfContent(last);
  }

  /** Every round pairs each function call of its reply with one result
      carrying the call's id: the tool's output, or `{"error": message}`
      when it threw. */
  lemma RoundsPairIds(reg: RegistryModel.Registry, parse: string -> Outcome<Json>, replies: seq<Completion>, j: nat, i: nat)
    requires j < |FinalPrint(Agent.RunSpec(reg, parse, replies), replies).submitted|
    ensures j < |replies|
    ensures var calls := ExtractToolCalls(replies[j]);
      var results := FinalPrint(Agent.RunSpec(reg, parse, replies), replies).submitted[j];
      |results| == |calls| &&
      (i < |calls| ==>
        var out := Agent.CallOutcome(reg, calls[i], parse);
        results[i].toolCallId == calls[i].id &&
        (out.Returned? ==> results[i].content == out.value) &&
        (out.Threw? ==> results[i].content == ErrorEnvelope(ErrorText(out.error))))
  {
    assert replies != [];
    Agent.SubmittedResults(reg, parse, replies, j);
  }
}
