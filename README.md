# RepoSentinel, modelled in Dafny

RepoSentinel is a command-line agent that watches a source repository. It
hands a chat model a set of tools: commit listing, diffs and configuration
for local Git, GitHub, Gerrit or Azure DevOps, plus tools that save, list
and read Markdown reports. It then drives the model until the model stops
asking for tools. This project models the core of the repository and
proves properties of the model:

- **The agent loops.** The older agent (`src/agent.ts`, with the chat
  session of `src/ai/session.ts`), the library loop `runAgent`
  (`libraries/agent/src/agent.ts`) and the repo-sentinel agent
  (`agents/repo-sentinel/src/agent.ts`). The completion endpoint is a
  sequence of replies given as a parameter. The model proves:
  - one round per tool-requesting reply;
  - every tool-call id answered once, in request order;
  - a throwing tool becomes a `{"error": …}` result and never ends the
    loop;
  - the final text is that of the first reply without tool calls.
- **The tool registries.** Both `ToolRegistry` classes (`src/ai/`, then
  `libraries/openai-session/src/`) are classes over a map model:
  registration order, re-registration, "Tool not found" and trimmed
  results. So are the registry builders of each agent and the
  `analyze_commit` sub-agent tools.
- **The prompts.** The system prompt and the commit-analyzer prompt are
  text templates. The model proves which tool and configuration names
  each one shows.
- **The helpers.**
  - environment variables;
  - the fetch-since timestamp;
  - report file names with their ISO timestamps, including a model of
    ECMAScript's date arithmetic and of V8's reading of
    `YYYY-MM-DDTHH:MM:SSZ`;
  - the report tools over a file map;
  - the token stores;
  - the binary sniffing of `libraries/binary-utils`;
  - the GitHub device-flow poll loop and its `PollInterval`;
  - the Azure DevOps change-type names;
  - the Gerrit URL, query and anti-XSSI helpers;
  - the output parsing of the local Git tools.

Errors are modelled as thrown values (`Wrappers.Outcome`), and each `catch`
is modelled explicitly. `JSON.parse` is a parameter. `JSON.stringify` is
written out where its text matters: the error envelope and the escaping of
strings.

Several lemmas show where the code differs from what its text or its
design says:

- `SentinelConfig.ProviderCollapsed`: `get_config` reports Gerrit and
  Azure DevOps as a local repository.
- `ReportUtils.PromptExampleUnparsed`: the file name the system prompt
  gives as an example does not parse back to a timestamp.
- `SentinelAgent.FinalContentTwice`: the repo-sentinel agent prints the
  last reply's content twice.

Four more are listed under "## Findings", each with a corrected
definition:

- the poll loop's handling of `slow_down`;
- the Gerrit analyzer prompt names tools the Gerrit sub-agent does not
  have;
- the configuration note for Gerrit and Azure DevOps points to members
  `get_config` never returns;
- the system prompt points to `list_reports` and `read_report`, which the
  agent never registers.

Where a general description of the system and the code disagree, the
model follows the code:

- Tool results are submitted in the order of the calls, because
  `Promise.all` keeps order (`Agent.SubmittedResults`,
  `SentinelAgent.RoundsPairIds`).
- A generated report name parses back to its time, to the second, only
  for years 0 through 9999 (`ReportUtils.ParseGenerated`). For wider
  years, `toISOString` writes a signed six-digit year that the name
  pattern does not match (`ReportUtils.WideYearsUnparsed`).

The modules follow the repository's files. `Agent` (agent_loop.dfy) is
`libraries/agent/src/agent.ts`, `LegacyAgent` is `src/agent.ts`,
`SentinelAgent` is `agents/repo-sentinel/src/agent.ts`, and so on. The
modules `Strings`, `Json`, `Seqs`, `Sorting`, `UrlEncoding`, `Calendar`,
`Paths` and `Base64` model the JavaScript built-ins those files rely on:
`trim`, `split`, `parseInt`, `JSON.stringify`, `new Set`, the stable
`Array.prototype.sort`, `encodeURIComponent`, `URLSearchParams`, `Date`,
`path.basename` and Node's base64.

## Model

| member | source | states |
|---|---|---|
| Session.ChooseModelCases | src/ai/session.ts:88 | the model is the option when given, else `OPENAI_MODEL` when set, else `gpt-4` |
| Session.ChooseModel | src/ai/session.ts:88 | `ChooseModelCases` states it: the option when given, else `OPENAI_MODEL` when set, else `gpt-4` |
| Session.InitialHistory | src/ai/session.ts:91-93 | a new history holds one system message exactly when a non-empty system prompt is given, and nothing otherwise |
| Session.NoChoicesNoToolCall | src/ai/session.ts:112-116 | a reply without choices never asks for tool calls |
| Session.RequiresToolCall | src/ai/session.ts:112-116 | the first choice exists and stopped for tool calls; `NoChoicesNoToolCall` states that a reply without choices never asks for tools |
| Session.ReplyMessages | src/ai/session.ts:138-141 | a reply adds its first choice's message to the history when it has a choice, and nothing when it has none |
| Session.ToolMessages | src/ai/session.ts:148-155 | one `tool` message per result, in order, carrying the result's id and content |
| Session.ToolsField | src/ai/session.ts:134 | the request carries `tools` exactly when the list is non-empty, and then the whole list |
| Session.Session.constructor | src/ai/session.ts:87-94 | the model, the tool list and the initial history are set from the options and `OPENAI_MODEL` |
| Session.Session.CurrentRequest | src/ai/session.ts:131-135 | the request sends the model, the whole history and the tools field |
| Session.Session.AddUserMessage | src/ai/session.ts:118-120 | appends one user message and changes nothing else |
| Session.Session.AddAssistantMessage | src/ai/session.ts:122-124 | appends one assistant message and changes nothing else |
| Session.Session.Chat | src/ai/session.ts:126-143 | the request sent is the old history plus the user message; the history grows by the user message and the reply's message; the reply is returned |
| Session.Session.SubmitToolResults | src/ai/session.ts:145-169 | the request sent is the old history plus one tool message per result; the history grows by those and the reply's message |
| Session.Session.GetMessages | src/ai/session.ts:171-173 | returns the history as it is |
| Session.Session.ClearMessages | src/ai/session.ts:175-177 | the history becomes empty, the system message included; model and tools are kept |
| RegistryModel.Names | libraries/openai-session/src/tool-registry.ts:57 | the names of a tool list, one per tool and in order |
| RegistryModel.Definitions | libraries/openai-session/src/tool-registry.ts:80-82 | one definition per registered name, in the order the names were first registered |
| RegistryModel.EmptyValid | libraries/openai-session/src/tool-registry.ts:53-54 | the empty registry keeps both maps on the same keys |
| RegistryModel.RegisterEffect | libraries/openai-session/src/tool-registry.ts:56-60 | after `register` the name maps to the new definition and handler, every other name is unchanged, a new name is listed last and a known one keeps its place |
| RegistryModel.RegisterEachValid | libraries/openai-session/src/tool-registry.ts:62-68 | registering a list keeps both maps on the same keys |
| RegistryModel.RegisterEachHas | libraries/openai-session/src/tool-registry.ts:62-68 | a registry built from a list knows exactly the names of the list |
| RegistryModel.RegisterEachOrder | libraries/openai-session/src/tool-registry.ts:62-68 | a registry built from a list lists each distinct name once, in order of first registration |
| RegistryModel.RegisterEachSnoc | libraries/openai-session/src/tool-registry.ts:62-68 | registering a list and then one more tool is registering the longer list |
| RegistryModel.RegisterEachAppend | libraries/openai-session/src/tool-registry.ts:62-68 | registering two lists one after the other is registering their concatenation |
| RegistryModel.RegisterEachExtendsOrder | libraries/openai-session/src/tool-registry.ts:56-60 | registration never drops or reorders the names already listed |
| RegistryModel.NamesAppend | libraries/openai-session/src/tool-registry.ts:57 | the names of two lists joined are the names of each, joined |
| RegistryModel.DefinitionsCount | libraries/openai-session/src/tool-registry.ts:80-82 | `getToolDefinitions()` has one entry per distinct name registered |
| RegistryModel.LastRegistrationWins | libraries/openai-session/src/tool-registry.ts:56-60 | the handler kept under a name is the one registered last under that name |
| RegistryModel.ExecuteUnknown | libraries/openai-session/src/tool-registry.ts:70-74 | an unknown name fails with `Tool not found: <name>` whatever the arguments |
| RegistryModel.ExecuteKnown | libraries/openai-session/src/tool-registry.ts:70-78 | a known name fails with the parse error, or with the handler's error, or returns the handler's text, trimmed when asked |
| RegistryModel.ExecuteTrimmed | libraries/openai-session/src/tool-registry.ts:76-77 | the library registry never returns text with leading or trailing whitespace |
| OpenAISessionRegistry.ToolRegistry.constructor | libraries/openai-session/src/tool-registry.ts:52-54 | a new registry is empty |
| OpenAISessionRegistry.ToolRegistry.Register | libraries/openai-session/src/tool-registry.ts:56-60 | the new state is `RegistryModel.Register` of the old state and the tool |
| OpenAISessionRegistry.ToolRegistry.RegisterAll | libraries/openai-session/src/tool-registry.ts:62-68 | the new state is the old state with each tool registered in turn |
| OpenAISessionRegistry.ToolRegistry.Execute | libraries/openai-session/src/tool-registry.ts:70-78 | the outcome is `RegistryModel.Execute` with trimming; an unknown name fails with `Tool not found`; any text returned has no outer whitespace |
| OpenAISessionRegistry.ToolRegistry.GetToolDefinitions | libraries/openai-session/src/tool-registry.ts:80-82 | returns the definitions in registration order |
| OpenAISessionRegistry.ToolRegistry.Has | libraries/openai-session/src/tool-registry.ts:84-86 | true exactly when the name is registered |
| AiToolRegistry.ToolRegistry.constructor | src/ai/tool-registry.ts:42-44 | a new registry is empty |
| AiToolRegistry.ToolRegistry.Register | src/ai/tool-registry.ts:46-53 | `register(definition, fn)` has the effect of registering the tool made of the two |
| AiToolRegistry.ToolRegistry.Execute | src/ai/tool-registry.ts:55-62 | the outcome is `RegistryModel.Execute` without trimming; an unknown name fails with `Tool not found`; a known one returns the handler's result on the parsed arguments |
| AiToolRegistry.ToolRegistry.GetToolDefinitions | src/ai/tool-registry.ts:64-66 | returns the definitions in registration order |
| AiToolRegistry.ToolRegistry.Has | src/ai/tool-registry.ts:68-70 | true exactly when the name is registered |
| AgentHelpers.ContentsOf | libraries/agent/src/helpers.ts:9-14 | at most one text per choice, and never an empty one |
| AgentHelpers.ExtractContent | libraries/agent/src/helpers.ts:9-13 | at most one text per choice, and never an empty one |
| AgentHelpers.FunctionCallsOf | libraries/agent/src/helpers.ts:23-26 | a choice's calls, keeping only function calls, none when `tool_calls` is absent |
| AgentHelpers.FilterFunctionCalls | libraries/agent/src/helpers.ts:23-26 | a call is kept exactly when it is a function call, and nothing else is added |
| AgentHelpers.ToolCallsOf | libraries/agent/src/helpers.ts:18-28 | only function calls are extracted |
| AgentHelpers.ExtractToolCalls | libraries/agent/src/helpers.ts:18-28 | only function calls are extracted, and none from a reply without choices |
| AgentHelpers.ContentsOfAppend | libraries/agent/src/helpers.ts:10-13 | texts keep choice order across two runs of choices |
| AgentHelpers.ContentsOfMember | libraries/agent/src/helpers.ts:10-13 | a text is extracted exactly when some choice carries it as non-empty content |
| AgentHelpers.ToolCallsOfAppend | libraries/agent/src/helpers.ts:21-27 | calls keep choice order, then call order within a choice |
| AgentHelpers.NoFunctionCallsContributeNothing | libraries/agent/src/helpers.ts:23-26 | a choice without `tool_calls`, or with only custom calls, contributes no call |
| AgentHelpers.NoFunctionCallsFiltered | libraries/agent/src/helpers.ts:23-26 | a list of custom calls filters to nothing |
| AgentHelpers.ToolCallsOfMember | libraries/agent/src/helpers.ts:21-27 | a call is extracted exactly when it is a function call of some choice |
| Agent.CallResult | libraries/agent/src/agent.ts:94-106 | the result carries the call's id, and the tool's output when it returned, or the `{"error": message}` envelope when it threw |
| Agent.EndEvent | libraries/agent/src/agent.ts:96-102 | `onToolEnd` with the output exactly when the tool returned, otherwise `onToolError` with the error's message |
| Agent.RoundResults | libraries/agent/src/agent.ts:86-108 | one result per call, in call order, each the result of that call |
| Agent.ContentEvents | libraries/agent/src/agent.ts:75-79 | one `onContent` per content item, in order |
| Agent.Rounds | libraries/agent/src/agent.ts:82-110 | one submission per round that asked for tools |
| Agent.RunFromRound | libraries/agent/src/agent.ts:82-118 | a reply that asks for tools, with one more reply to come, fires its round's callbacks, then the next reply's content, and submits its results before the rest of the run |
| Agent.RunAgent | libraries/agent/src/agent.ts:44-124 | the run, callbacks, submissions and result, is the one `RunSpec` describes for the registry's state and the replies received; in each round every `onToolStart` comes before any end or error callback |
| Agent.FirstReplyWithoutTools | libraries/agent/src/agent.ts:72-82 | a first reply that asks for no tool ends the run at once with its texts joined by newlines, submitting nothing |
| Agent.Starts | libraries/agent/src/agent.ts:87-94 | one `onToolStart` per call, in call order, with the call's name, id and arguments |
| Agent.Ends | libraries/agent/src/agent.ts:96-106 | exactly one end or error callback per call, with the call's output or error message |
| Agent.RoundEventsShape | libraries/agent/src/agent.ts:86-108 | every call's start fires before any call's end or error, since each async body runs up to its `await` as `map` reaches it; then each call fires exactly its end or its error |
| Agent.RunFromShape | libraries/agent/src/agent.ts:82-123 | a run submits once per reply that asked for tools before its last one; it completes exactly when its last reply asks for no tool, with that reply's texts joined, and runs out of replies only on the last reply |
| Agent.RunShape | libraries/agent/src/agent.ts:44-124 | the same shape for a whole run, from the first reply |
| Agent.SubmittedResults | libraries/agent/src/agent.ts:83-110 | the `j`-th submission answers reply `j`, which asked for tools, with one result per function call in call order |
| Agent.TextsOfContent | libraries/agent/src/agent.ts:75-79 | the texts reported for a reply are its content items |
| Agent.TextsOfRound | libraries/agent/src/agent.ts:86-108 | a tool round reports no content |
| Agent.ToolRoundSilent | libraries/agent/src/agent.ts:86-108 | the round of `runAgent` reports no content for any reply |
| Agent.RunFromTexts | libraries/agent/src/agent.ts:82-118 | the content reported from reply `k` on is the content of replies `k+1` to the last one |
| Agent.LastRoundTexts | libraries/agent/src/agent.ts:82 | a run that ends at reply `k` reports no further content |
| Agent.ContentCallbacks | libraries/agent/src/agent.ts:75-79 | `onContent` receives every content item of every reply received, in reply order, and no other text |
| Agent.EmptyRoundStillSubmits | libraries/agent/src/agent.ts:82-110 | a reply that asks for tools without any function call still leads to one submission of no results |
| Agent.RunSpec | libraries/agent/src/agent.ts:44-124 | the specification `RunAgent` is proved against; `RunShape`, `SubmittedResults` and `ContentCallbacks` state when it ends, what each submission holds and which texts reach `onContent` |
| LegacyAgent.LegacyTools | src/agent.ts:24-35 | the twelve tools, in the order they are registered |
| LegacyAgent.CreateToolRegistry | src/agent.ts:21-38 | a fresh registry whose state is the twelve tools registered one after another |
| LegacyAgent.FirstContent | src/agent.ts:53-54 | the first choice's content, only when it is non-empty |
| LegacyAgent.LegacyResult | src/agent.ts:73-85 | the result carries the call's id, and the output when the tool returned or the `{"error": message}` envelope when it threw |
| LegacyAgent.RoundSnoc | src/agent.ts:62-87 | the loop over the calls and one more call is the loop over the calls followed by one more pass |
| LegacyAgent.ExecuteCalls | src/agent.ts:59-87 | the results pushed and the lines printed are those of the calls taken one after another, skipping calls that are not function calls |
| LegacyAgent.LegacyRunAgent | src/agent.ts:40-103 | the run, its console lines, submissions and whether it finished, is the one `LegacySpec` describes for the twelve registered tools |
| LegacyAgent.ToolLoop | src/agent.ts:58-102 | the `while` loop and the final print add exactly the lines and submissions of the run from the first reply |
| LegacyAgent.LegacyRegistryOrder | src/agent.ts:21-38 | with distinct names the registry is consistent, lists the twelve names in registration order and offers twelve definitions |
| LegacyAgent.KnownToolsRegistered | src/agent.ts:24-35 | `get_config`, `get_recent_commits`, `search_commits` and `list_changed_files` are registered first, fourth, tenth and eleventh |
| LegacyAgent.FilterSnoc | src/agent.ts:63-65 | one more call adds itself to the function calls exactly when it is one |
| LegacyAgent.SkipsNonFunction | src/agent.ts:63-65 | calls that are not function calls leave no trace in the results or on the console |
| LegacyAgent.RoundPairs | src/agent.ts:62-87 | over function calls, one result per call in call order, each that call's result, and four printed lines per call |
| LegacyAgent.RoundResults | src/agent.ts:59-87 | a round's results are those of the first choice's function calls, in order, each with its own call id |
| LegacyAgent.FirstChoiceOnly | src/agent.ts:53-98 | replies that agree on their first choices give the same run: later choices are never looked at |
| LegacyAgent.FirstChoiceAgrees | src/agent.ts:53-59 | two replies with the same first choice ask for tools alike and give the same calls and content |
| LegacyAgent.FromNext | src/agent.ts:58-96 | a reply that asks for tools, with another to come, prints its round, submits its results, then prints the next reply's content |
| LegacyAgent.FromLast | src/agent.ts:96-102 | on the last reply considered nothing more is submitted; the run finished exactly when it asks for no tool, and then prints the final lines |
| LegacyAgent.LegacyFromShape | src/agent.ts:58-102 | the run from reply `k` ends on reply `k` plus its submissions; it completed exactly when that reply asks for no tool, otherwise ran out of replies on the last one; completed, it ends with the final lines |
| LegacyAgent.FinalOutput | src/agent.ts:40-103 | one submission per reply before the last; the run completed exactly when the last reply asks for no tool, and then its output ends with `Agent completed:` and the final message when there is one |
| LegacyAgent.SequentialRound | src/agent.ts:59-87 | the loop over one reply's calls; `RoundSnoc`, `SkipsNonFunction` and `RoundPairs` state that it takes the calls one by one, skips non-function calls, and gives one result and four lines per function call, in order |
| LegacyAgent.LegacySpec | src/agent.ts:40-103 | the specification `LegacyRunAgent` is proved against; `LegacyFromShape`, `FinalOutput` and `FirstChoiceOnly` state when it completes, its submissions and final lines, and that only first choices matter |
| AnalyzerPrompt.ToolNamesDistinct | agents/repo-sentinel/src/prompts/commit-analyzer-subagent-system-prompt.ts:77-100 | each provider's pair names two different tools, and no two providers share a name |
| AnalyzerPrompt.GetToolNames | agents/repo-sentinel/src/prompts/commit-analyzer-subagent-system-prompt.ts:77-100 | the details tool and the diff tool of a provider are different tools |
| AnalyzerPrompt.PromptPieces | agents/repo-sentinel/src/prompts/commit-analyzer-subagent-system-prompt.ts:14-74 | the prompt is the fixed text with the details tool and then the diff tool inserted as inline code |
| AnalyzerPrompt.DetailsBeforeDiff | agents/repo-sentinel/src/prompts/commit-analyzer-subagent-system-prompt.ts:18-19 | the prompt shows the details tool as code before it shows the diff tool |
| Analyzers.BuildSubagentRegistry | agents/repo-sentinel/src/subagent-tools/github-analyzer.ts:65-67 | a fresh registry holding the details tool and then the diff tool |
| Analyzers.AnalyzeHandler | agents/repo-sentinel/src/subagent-tools/github-analyzer.ts:63-97 | the handler's result is the result of the sub-agent's run with the two-tool registry |
| Analyzers.SubagentRegistryContents | agents/repo-sentinel/src/subagent-tools/github-analyzer.ts:65-67 | the sub-agent can call exactly the two tools, listed details first |
| Analyzers.NoNestedAnalysis | agents/repo-sentinel/src/subagent-tools/github-analyzer.ts:24-28 | no provider's sub-agent has `analyze_commit` among its tools |
| Analyzers.PromptNamesRegistered | agents/repo-sentinel/src/prompts/commit-analyzer-subagent-system-prompt.ts:79-88 | for GitHub and Azure DevOps both tool names the prompt gives are registered |
| AnalyzerPrompt.CorrectedToolNames | agents/repo-sentinel/src/prompts/commit-analyzer-subagent-system-prompt.ts:77-99 | `getToolNames` with the Gerrit names carrying the `gerrit_` prefix of their definitions; every other provider unchanged |
| Analyzers.CorrectedPromptNamesRegistered | agents/repo-sentinel/src/subagent-tools/gerrit-analyzer.ts:53-69 | with the corrected names, both tools the prompt gives are registered for GitHub, Azure DevOps and Gerrit |
| Analyzers.GerritNamesMismatch | agents/repo-sentinel/src/prompts/commit-analyzer-subagent-system-prompt.ts:89-93 | for Gerrit neither name the prompt gives is registered, since the tools are `gerrit_get_change_details` and `gerrit_get_change_diff` |
| Analyzers.GerritFirstCallFails | agents/repo-sentinel/src/subagent-tools/gerrit-analyzer.ts:53-69 | the first call the Gerrit prompt asks for is answered with the `Tool not found` error envelope |
| SentinelAgent.RegisterTools | agents/repo-sentinel/src/agent.ts:35-37 | after the loop the registry holds the tools registered before it followed by each tool of the list, in order |
| SentinelAgent.CreateToolRegistry | agents/repo-sentinel/src/agent.ts:25-49 | a fresh registry holding `get_config`, `save_report`, then the provider's tools |
| SentinelAgent.SentinelRegistry | agents/repo-sentinel/src/agent.ts:25-49 | the registry state `CreateToolRegistry` builds; `AgentToolsFirst` and `ProviderSelection` state its order and exactly which names it can call |
| SentinelAgent.RegisterProviderTools | agents/repo-sentinel/src/agent.ts:32-46 | the token tool and the GitHub tools for GitHub, the Gerrit tools for Gerrit, the local git tools otherwise |
| SentinelAgent.SentinelSpec | agents/repo-sentinel/src/agent.ts:51-138 | an unknown provider fails first, a failed GitHub authentication fails with `GitHub authentication failed` and its cause; a run happens only with both OpenAI variables set and the custom prompt read |
| SentinelAgent.LaunchSpec | agents/repo-sentinel/src/agent.ts:66-76 | a missing `OPENAI_API_KEY` fails before anything else; a run happens only with both variables set and the custom prompt read, and it is the agent's run with the content printed again at the end |
| SentinelAgent.SessionPrompt | agents/repo-sentinel/src/agent.ts:74 | the session's system prompt is the system prompt of the provider with the custom prompt |
| SentinelAgent.RunSession | agents/repo-sentinel/src/agent.ts:71-137 | the run is the agent's run over the registry's state, with the last reply's content printed once more when the loop completed |
| SentinelAgent.FinalPrint | agents/repo-sentinel/src/agent.ts:136-137 | the outcome and the submissions are kept, callbacks are only added after the existing ones, and only to a run that completed |
| SentinelAgent.RunSentinel | agents/repo-sentinel/src/agent.ts:51-138 | the outcome is `SentinelSpec`; the token store holds the token after a successful GitHub authentication and is untouched otherwise |
| SentinelAgent.Launch | agents/repo-sentinel/src/agent.ts:66-138 | the outcome is `LaunchSpec` for the registry's state |
| SentinelAgent.AgentToolsFirst | agents/repo-sentinel/src/agent.ts:29-30 | every provider's registry lists `get_config` and then `save_report` first |
| SentinelAgent.ProviderSelection | agents/repo-sentinel/src/agent.ts:28-46 | a name is callable exactly when it is one of the agent's two tools, or the token tool or a GitHub tool under GitHub, a Gerrit tool under Gerrit, or a local git tool under any other provider, Azure DevOps included |
| SentinelAgent.ReportToolsUnregistered | agents/repo-sentinel/src/agent.ts:25-49 | neither `list_reports` nor `read_report`, which the system prompt sends the model to, is callable unless a provider tool bears the name |
| SentinelAgent.CorrectedRegistryHasReportTools | agents/repo-sentinel/src/prompts/system-prompt.ts:148-152 | with the two report-reading tools registered after `save_report`, both names the prompt gives are callable for every provider |
| SentinelAgent.TokenHandedOut | agents/repo-sentinel/src/tools/get-github-token.ts:21-27 | after authentication `get_github_token` returns the stored token, trimmed |
| SentinelAgent.FinalContentTwice | agents/repo-sentinel/src/agent.ts:133-137 | a completed run prints every reply's content in order, and the last reply's content a second time |
| SentinelAgent.RoundsPairIds | agents/repo-sentinel/src/agent.ts:105-132 | every submission answers each function call of its reply with a result carrying the call's id: the output, or the error envelope |
| SystemPrompt.StepTexts | agents/repo-sentinel/src/prompts/system-prompt.ts:14-40 | one line of text per workflow step, in order |
| SystemPrompt.Numbered | agents/repo-sentinel/src/prompts/system-prompt.ts:14-40 | each step line is preceded by its number, counting up by one |
| SystemPrompt.NameListMentions | agents/repo-sentinel/src/prompts/system-prompt.ts:43-53 | the note's list of members shows every member as code |
| SystemPrompt.StepsPerProvider | agents/repo-sentinel/src/prompts/system-prompt.ts:14-40 | five steps for GitHub, Gerrit and Azure DevOps and six for the local provider, always from `get_config` to saving the report; only the local workflow fetches remote changes |
| SystemPrompt.WorkflowLines | agents/repo-sentinel/src/prompts/system-prompt.ts:14-40 | the workflow is its steps numbered from 1, one per line |
| SystemPrompt.WorkflowMentionsTools | agents/repo-sentinel/src/prompts/system-prompt.ts:16-39 | every provider's workflow names `get_config` and `save_report` as code |
| SystemPrompt.NoteMentionsFields | agents/repo-sentinel/src/prompts/system-prompt.ts:43-53 | the provider note shows every configuration member it tells the agent to use |
| SystemPrompt.NoteBackedByConfig | agents/repo-sentinel/src/prompts/system-prompt.ts:45 | for GitHub and the local provider every member the note points to is a member of what `get_config` returns |
| SentinelConfig.GetConfigPerProvider | agents/repo-sentinel/src/types.ts:23-37 | the configuration is tagged with the provider read; Gerrit and Azure DevOps get their own cases, the other two are as `get_config` builds them |
| SystemPrompt.NoteBackedByCorrectedConfig | agents/repo-sentinel/src/prompts/system-prompt.ts:43-53 | with the four-case configuration, every member any provider's note points to is in what `get_config` returns |
| SystemPrompt.NoteUnbackedForGerritAndAdo | agents/repo-sentinel/src/prompts/system-prompt.ts:47-49 | for Gerrit and Azure DevOps the note points to `project`, which what `get_config` returns never holds |
| SystemPrompt.StartsWithIntro | agents/repo-sentinel/src/prompts/system-prompt.ts:59-62 | the prompt opens with the agent's introduction |
| SystemPrompt.CustomInstructionsLast | agents/repo-sentinel/src/prompts/system-prompt.ts:160-164 | the custom section comes last, after its heading, only for a present non-empty custom prompt; the text before it does not depend on it |
| SystemPrompt.TemplateMentions | agents/repo-sentinel/src/prompts/system-prompt.ts:59-158 | whatever a part of the template shows, the whole prompt shows |
| SystemPrompt.TemplateMentionsTools | agents/repo-sentinel/src/prompts/system-prompt.ts:151-152 | the filled-in template names `list_reports` and `read_report`, and the workflow's tools |
| SystemPrompt.MentionsReportTools | agents/repo-sentinel/src/prompts/system-prompt.ts:55-165 | every provider's prompt names `get_config`, `save_report`, `list_reports` and `read_report` as code |
| SystemPrompt.MentionsNoteFields | agents/repo-sentinel/src/prompts/system-prompt.ts:55-165 | every provider's prompt names every configuration member its note points to |
| SystemPrompt.CreateSystemPrompt | agents/repo-sentinel/src/prompts/system-prompt.ts:55-165 | `StartsWithIntro`, `CustomInstructionsLast`, `MentionsReportTools` and `MentionsNoteFields` state how it opens, where the custom section goes and which tools and members it names |
| SentinelConfig.ReadBase | agents/repo-sentinel/src/tools/get-config.ts:46-52 | the base members are read in order, failing at the first unset one, and otherwise hold the variables' values |
| SentinelConfig.GetConfigText | agents/repo-sentinel/src/tools/get-config.ts:43-73 | the handler returns the JSON text of the configuration, or fails with the configuration's error |
| SentinelConfig.InvalidProviderFirst | agents/repo-sentinel/src/tools/get-config.ts:44 | an invalid provider is the error whatever else is set |
| SentinelConfig.GitHubConfigFields | agents/repo-sentinel/src/tools/get-config.ts:56-63 | with `github`, the configuration needs the base members, the owner and the repository, and carries the stored token |
| SentinelConfig.OtherProvidersReportLocal | agents/repo-sentinel/src/tools/get-config.ts:64-70 | every other provider needs the base members and `REPO_PATH`, and is reported as `local` |
| SentinelConfig.ProviderCollapsed | agents/repo-sentinel/src/tools/get-config.ts:56-70 | the configuration only ever names `github` or `local`, and `github` exactly when that is the provider |
| SentinelConfig.ConfigTextStartsWithBase | agents/repo-sentinel/src/tools/get-config.ts:57-68 | the JSON always starts with `provider`, then the base members in declaration order |
| SentinelConfig.GetConfig | agents/repo-sentinel/src/tools/get-config.ts:43-72 | the configuration `get_config` builds; `InvalidProviderFirst`, `GitHubConfigFields`, `OtherProvidersReportLocal` and `ProviderCollapsed` state its error order and its two cases |
| SentinelTypes.ProviderNameInjective | agents/repo-sentinel/src/types.ts:1 | distinct providers have distinct names |
| SentinelTypes.Strings | agents/repo-sentinel/src/types.ts:8 | a JSON array of the same strings, in order |
| SentinelTypes.ConfigJson | agents/repo-sentinel/src/types.ts:3-33 | an object whose first member is `provider`, then the base members |
| TokenStores.TokenStore.constructor | agents/repo-sentinel/src/stores/github-token-store.ts:2 | the store starts empty |
| TokenStores.TokenStore.Set | agents/repo-sentinel/src/stores/github-token-store.ts:4-6 | the token becomes the one given |
| TokenStores.TokenStore.Get | agents/repo-sentinel/src/stores/github-token-store.ts:8-10 | returns the stored token and changes nothing |
| TokenStores.TokenTool | agents/repo-sentinel/src/tools/get-github-token.ts:21-27 | the tool returns the stored token exactly when one is stored and non-empty, and otherwise fails with the tool's message |
| TokenStores.RunTokenTool | agents/repo-sentinel/src/tools/get-ado-token.ts:21-27 | running the handler against a store gives `TokenTool` of what it holds |
| TokenStores.SetThenRun | agents/repo-sentinel/src/stores/ado-token-store.ts:1-11 | a non-empty token that was set is what the tool hands out |
| Env.Required | agents/repo-sentinel/src/helpers/env-helpers.ts:5-11 | a required variable gives its value exactly when it is set and not empty, and otherwise fails with `<NAME> environment variable is not set` |
| Env.GetOpenAIBaseURL | agents/repo-sentinel/src/helpers/env-helpers.ts:13-15 | the value as it is, possibly empty, present exactly when the variable is set |
| Env.ProviderNamed | agents/repo-sentinel/src/helpers/env-helpers.ts:28-33 | a provider is found only for a string that is its name |
| Env.ProviderNamedName | agents/repo-sentinel/src/helpers/env-helpers.ts:28-33 | each provider's name reads back as that provider |
| Env.GetRepoProvider | agents/repo-sentinel/src/helpers/env-helpers.ts:26-39 | a provider is returned only when the variable holds its name; otherwise the provider error |
| Env.GetRepoProviderAccepts | agents/repo-sentinel/src/helpers/env-helpers.ts:28-37 | exactly the four provider names are accepted; an unset variable is refused |
| Env.GetRepoProviderOfName | agents/repo-sentinel/src/helpers/env-helpers.ts:26-39 | setting the variable to a provider's name reads that provider back |
| Env.GetCheckIntervalHours | agents/repo-sentinel/src/helpers/env-helpers.ts:119-125 | fails exactly when the variable is unset or empty, otherwise gives `parseInt` of its value |
| Env.CheckIntervalLeadingInteger | agents/repo-sentinel/src/helpers/env-helpers.ts:124 | the leading integer is read and the rest ignored: `12h` gives 12 |
| Env.CheckIntervalNaN | agents/repo-sentinel/src/helpers/env-helpers.ts:124 | a value that does not start with a sign or a digit gives `NaN`, not an error |
| Env.TrimmedItems | agents/repo-sentinel/src/helpers/env-helpers.ts:140 | one item per comma-separated piece, each trimmed |
| Env.TrimmedItemsShape | agents/repo-sentinel/src/helpers/env-helpers.ts:140 | one item more than there are commas, none holding a comma or surrounding white space |
| Env.GetSubPath | agents/repo-sentinel/src/helpers/env-helpers.ts:135-141 | an unset or empty variable gives no sub-paths; otherwise its trimmed comma-separated items |
| Env.LegacyGetSubPath | src/helpers/env-helpers.ts:33-39 | the older getter fails on an unset or empty variable and otherwise gives the trimmed items |
| Env.SubPathVersions | src/helpers/env-helpers.ts:33-39 | the two versions agree on a set variable; on an unset one the older fails where the newer gives no sub-paths |
| Env.GetCustomPrompt | agents/repo-sentinel/src/helpers/env-helpers.ts:143-154 | nothing exactly when the variable is unset or empty; otherwise the file's text, or `Failed to read CUSTOM_PROMPT_FILE: <path>` with the read error as cause |
| FetchTimestamp.CalculateFetchSinceTimestamp | agents/repo-sentinel/src/helpers/fetch-timestamp.ts:9-32 | the result is the `REPORT_DIR` error of `getReportFilenames()` when the variable is unset; otherwise the lookback bound's text or the first dated report's, whichever is later, as `FetchSince` states |
| FetchTimestamp.NoTimestampUsesLookback | agents/repo-sentinel/src/helpers/fetch-timestamp.ts:30-31 | with no report or none whose name has a timestamp, the start is the lookback bound |
| FetchTimestamp.NeverBeforeLookback | agents/repo-sentinel/src/helpers/fetch-timestamp.ts:22-25 | the start is never earlier than `maxFetchHours` hours before now |
| FetchTimestamp.LaterReportWins | agents/repo-sentinel/src/helpers/fetch-timestamp.ts:19-26 | the first report with a timestamp decides, and its timestamp is the start when it is later than the bound |
| FetchTimestamp.FirstTimestampAt | agents/repo-sentinel/src/helpers/fetch-timestamp.ts:19-21 | the scan stops at the first report whose name parses |
| FetchTimestamp.InvalidLookbackThrows | agents/repo-sentinel/src/helpers/fetch-timestamp.ts:13-15 | a lookback bound outside the range of dates makes the call throw: `RangeError` once the report names are read, the `REPORT_DIR` error when they cannot be |
| FetchTimestamp.FetchSinceDate | agents/repo-sentinel/src/helpers/fetch-timestamp.ts:13-31 | a date exactly when the lookback bound is a valid date; never before that bound; always either the bound or the first report timestamp |
| FetchTimestamp.FetchSince | agents/repo-sentinel/src/helpers/fetch-timestamp.ts:9-32 | with `REPORT_DIR` unset the call throws `REPORT_DIR environment variable is not set`, whatever the bound; otherwise it throws exactly when the lookback bound is not a valid date, and then with `RangeError: Invalid time value` |
| ReportUtils.Slug | agents/repo-sentinel/src/helpers/report-utils.ts:33-34 | same length, every character a lower-case ASCII letter, a digit or a hyphen |
| ReportUtils.CollapseHyphens | agents/repo-sentinel/src/helpers/report-utils.ts:35 | no longer than its input, keeps the first character, has no two hyphens in a row and only characters of its input |
| ReportUtils.Sanitize | agents/repo-sentinel/src/helpers/report-utils.ts:31-35 | no longer than its input, only slug characters, never two hyphens in a row |
| ReportUtils.CollapseKeepsOtherChars | agents/repo-sentinel/src/helpers/report-utils.ts:35 | collapsing removes hyphens and nothing else |
| ReportUtils.CollapseNoop | agents/repo-sentinel/src/helpers/report-utils.ts:35 | text without a double hyphen is left as it is |
| ReportUtils.SlugNoop | agents/repo-sentinel/src/helpers/report-utils.ts:33-34 | text made of slug characters is left as it is |
| ReportUtils.SanitizeIdempotent | agents/repo-sentinel/src/helpers/report-utils.ts:31-35 | sanitising twice is sanitising once |
| ReportUtils.SanitizeNoop | agents/repo-sentinel/src/helpers/report-utils.ts:31-35 | a text that is already a slug is left alone |
| ReportUtils.IsoTimestampText | agents/repo-sentinel/src/helpers/report-utils.ts:25-28 | the prefix is the date, `T`, the clock with hyphens for colons, and `Z`, without milliseconds |
| ReportUtils.DropMillisecondsOfIso | agents/repo-sentinel/src/helpers/report-utils.ts:27 | dropping the milliseconds of an ISO text leaves the date, `T`, the clock and `Z` |
| ReportUtils.StampHyphens | agents/repo-sentinel/src/helpers/report-utils.ts:28 | replacing the colons changes the clock's separators and nothing else |
| ReportUtils.GenerateReportFilename | agents/repo-sentinel/src/helpers/report-utils.ts:8-38 | fails exactly when the project, the branch or the topic is blank, checked in that order with their own messages; otherwise the stamp, a hyphen, the sanitised parts joined by hyphens, and `.md` |
| ReportUtils.ColonClock | agents/repo-sentinel/src/helpers/report-utils.ts:50-53 | a stamp rewritten with colons in its clock has the shape of an ISO text to the second |
| ReportUtils.ParseReportTimestamp | agents/repo-sentinel/src/helpers/report-utils.ts:45-57 | no date for a name without the stamp prefix; otherwise the date of the stamp with colons, if it is a valid date |
| ReportUtils.ParseGenerated | agents/repo-sentinel/src/helpers/report-utils.ts:8-57 | a generated name, for a year from 0 to 9999, reads back as its date truncated to the second |
| ReportUtils.StampOfGenerated | agents/repo-sentinel/src/helpers/report-utils.ts:46-53 | a name starting with a generated stamp and a hyphen has the prefix, and its ISO text is the date to the second |
| ReportUtils.ColonClockOfStamp | agents/repo-sentinel/src/helpers/report-utils.ts:50-53 | a printed stamp has the stamp shape, and its colon form is its ISO text to the second |
| ReportUtils.PromptExampleUnparsed | agents/repo-sentinel/src/prompts/system-prompt.ts:138 | the file name the system prompt gives as an example has no timestamp `parseReportTimestamp` reads |
| ReportUtils.WideYearsUnparsed | agents/repo-sentinel/src/helpers/report-utils.ts:25-57 | a date outside years 0 to 9999 gives a name whose timestamp cannot be read back |
| ReportUtils.MarkdownNames | agents/repo-sentinel/src/helpers/report-utils.ts:72 | exactly the names that end in `.md`, each from the listing |
| ReportUtils.MarkdownNamesAppend | agents/repo-sentinel/src/helpers/report-utils.ts:72 | the filter keeps the listing's order: filtering two listings in turn is filtering their concatenation |
| ReportUtils.MarkdownNamesCount | agents/repo-sentinel/src/helpers/report-utils.ts:72 | every copy of a `.md` name is kept, and no copy of any other name |
| ReportUtils.ReportFilenamesOrder | agents/repo-sentinel/src/helpers/report-utils.ts:62-83 | for a readable directory: only and every `.md` name, newest timestamp first, names without one last, ties in directory order |
| ReportUtils.ReportFilenames | agents/repo-sentinel/src/helpers/report-utils.ts:62-83 | throws exactly when `REPORT_DIR` is unset or empty, with `REPORT_DIR environment variable is not set`; an unreadable directory gives no names; `ReportFilenamesOrder` states the names of a readable one |
| SaveReport.ReportFiles.constructor | agents/repo-sentinel/src/tools/save-report.ts:41-42 | the directory starts with the given files |
| SaveReport.ReportFiles.Save | agents/repo-sentinel/src/tools/save-report.ts:38-59 | the result and the new files are those of `SaveSpec` on the old files, the `REPORT_DIR` check first |
| SaveReport.NeverOverwrites | agents/repo-sentinel/src/tools/save-report.ts:48-49 | no existing file is changed or removed, whatever the call does |
| SaveReport.SuccessAddsOneFile | agents/repo-sentinel/src/tools/save-report.ts:47-58 | the call reports success exactly when it adds the one new file holding the content; otherwise the files stay as they were |
| SaveReport.SuccessDiffersFromFailure | agents/repo-sentinel/src/tools/save-report.ts:50-57 | the success text is never a failure text |
| SaveReport.SecondSaveRefused | agents/repo-sentinel/src/tools/save-report.ts:41-57 | saving the same name twice keeps the first report and reports that the file exists; with `REPORT_DIR` unset both calls throw and nothing is written |
| SaveReport.ReportDirUnsetThrows | agents/repo-sentinel/src/tools/save-report.ts:41 | with `REPORT_DIR` unset or empty the tool throws `REPORT_DIR environment variable is not set` and the files stay as they were |
| SaveReport.SaveSpec | agents/repo-sentinel/src/tools/save-report.ts:38-59 | the specification `Save` is proved against; `ReportDirUnsetThrows`, `NeverOverwrites`, `SuccessAddsOneFile` and `SecondSaveRefused` state that an unset `REPORT_DIR` throws before anything else, that no existing file changes and that success means exactly one new file holding the content |
| ListReports.Stats | agents/repo-sentinel/src/tools/list-reports.ts:56-71 | every name whose `stat` succeeds, with its modification time, and only those |
| ListReports.LimitRefused | agents/repo-sentinel/src/tools/list-reports.ts:41-43 | a limit outside 1..100 is refused before the directory is read |
| ListReports.UnreadableIsEmpty | agents/repo-sentinel/src/tools/list-reports.ts:45-52 | with `REPORT_DIR` set, an unreadable directory lists nothing |
| ListReports.ListedCount | agents/repo-sentinel/src/tools/list-reports.ts:78 | at most `limit` reports, and fewer only when there are no more |
| ListReports.ListedEntries | agents/repo-sentinel/src/tools/list-reports.ts:54-71 | every listed report is a `.md` file of the directory with its own modification time |
| ListReports.ListedNewestFirst | agents/repo-sentinel/src/tools/list-reports.ts:73-76 | the list runs from the newest report to the oldest |
| ListReports.NewestKept | agents/repo-sentinel/src/tools/list-reports.ts:73-78 | a readable report is listed, or else `limit` reports at least as new are |
| ListReports.TiesKeepListingOrder | agents/repo-sentinel/src/tools/list-reports.ts:73-76 | reports with the same modification time keep the order of the listing |
| ListReports.ListReports | agents/repo-sentinel/src/tools/list-reports.ts:38-79 | the limit error envelope is returned exactly when the limit lies outside 1..100; for an accepted limit the tool throws exactly when `REPORT_DIR` is unset or empty, with `REPORT_DIR environment variable is not set`; otherwise an unreadable directory gives `[]` and a readable one a JSON array of the reports `Listed` keeps (see ListedCount, ListedNewestFirst, NewestKept) |
| ListReports.ListingJson | agents/repo-sentinel/src/tools/list-reports.ts:47-78 | the text for an accepted limit is never the limit error, and is `[]` for an unreadable directory |
| ReadReport.ReadPath | agents/repo-sentinel/src/tools/read-report.ts:32-41 | a path exactly when the base name ends in `.md`, and then the base name joined to the report directory |
| ReadReport.ReadsInsideReportDir | agents/repo-sentinel/src/tools/read-report.ts:32-41 | the file read is always a name without separators directly inside the report directory |
| ReadReport.TraversalStripped | agents/repo-sentinel/src/tools/read-report.ts:33 | `../../etc/passwd.md` reads `passwd.md` of the report directory |
| ReadReport.OnlyReadsReadPath | agents/repo-sentinel/src/tools/read-report.ts:36-45 | the result depends on the reader only at that one path, and a name that is not `.md` is refused without reading and whatever the environment |
| ReadReport.ReadOutcome | agents/repo-sentinel/src/tools/read-report.ts:40-53 | with `REPORT_DIR` set, a readable file is returned as it is; otherwise the failure JSON with the safe name and the message |
| ReadReport.ReadReport | agents/repo-sentinel/src/tools/read-report.ts:31-54 | a name whose base name does not end in `.md` is refused with `Only .md files can be read`; for a `.md` name the tool throws exactly when `REPORT_DIR` is unset or empty, with `REPORT_DIR environment variable is not set`; a readable `.md` file, looked up by its base name directly in the report directory, is returned as it is |
| Paths.StripTrailingSlashes | agents/repo-sentinel/src/tools/read-report.ts:33 | a prefix of the path that does not end in a slash |
| Paths.AfterLastSlash | agents/repo-sentinel/src/tools/read-report.ts:33 | the suffix after the last slash, holding none |
| Paths.Basename | agents/repo-sentinel/src/tools/read-report.ts:33 | the base name holds no separator |
| Paths.BasenameOfJoin | agents/repo-sentinel/src/tools/save-report.ts:42 | the base name of a name joined to a directory is the name |
| Paths.BasenameIdempotent | agents/repo-sentinel/src/tools/read-report.ts:33 | taking the base name twice is taking it once |
| Calendar.TimeClip | agents/repo-sentinel/src/helpers/fetch-timestamp.ts:13 | a millisecond count is a valid date exactly when it lies within 8.64e15 of the epoch, and then is that count |
| Calendar.DayFromYearMonotone | agents/repo-sentinel/src/helpers/report-utils.ts:26 | later years start later, by at least 365 days a year |
| Calendar.YearFromDay | agents/repo-sentinel/src/helpers/report-utils.ts:26 | the year a day number falls in: the day lies between that year's first day and the next year's |
| Calendar.YearBounds | agents/repo-sentinel/src/helpers/report-utils.ts:26 | valid dates fall in years -271821 to 275760 |
| Calendar.DaysInMonth | agents/repo-sentinel/src/helpers/report-utils.ts:26 | every month has 28 to 31 days |
| Calendar.DateOfDay | agents/repo-sentinel/src/helpers/report-utils.ts:26 | the calendar date of a day number: a real day of a real month, at midnight, counting exactly that many days from the epoch |
| Calendar.ToDateTime | agents/repo-sentinel/src/helpers/report-utils.ts:26 | the UTC reading of a time value is printable, in range, a real day, with an hour below 24 |
| Calendar.MakeDateOfReading | agents/repo-sentinel/src/helpers/report-utils.ts:26 | the reading of a time value gives the time value back |
| Calendar.ClockText | agents/repo-sentinel/src/helpers/report-utils.ts:25-28 | the clock is eight characters |
| Calendar.ParseIsoSeconds | agents/repo-sentinel/src/helpers/report-utils.ts:54-56 | a text of the seconds shape is a valid date exactly when its fields are accepted, and then is the time value they make |
| Calendar.FourDigitYearsInRange | agents/repo-sentinel/src/helpers/report-utils.ts:54-56 | dates of years 0 to 9999 are always within the range of time values |
| Calendar.SecondsTextFields | agents/repo-sentinel/src/helpers/report-utils.ts:50-54 | the seconds text of a reading has the shape and spells its fields, down to the second |
| Calendar.ParseSecondsText | agents/repo-sentinel/src/helpers/report-utils.ts:25-56 | printing a time value of a four-digit year to the second and reading it back gives the time value truncated to the second |
| Calendar.WholeSecondAccepted | agents/repo-sentinel/src/helpers/report-utils.ts:54-56 | a real reading without its millisecond is accepted and makes the time value less the millisecond |
| Calendar.ReadingMillisecond | agents/repo-sentinel/src/helpers/report-utils.ts:26-27 | the millisecond of the reading is the time value's remainder by a second |
| Calendar.ToIsoString | agents/repo-sentinel/src/helpers/report-utils.ts:25-26 | `toISOString` of a valid date; `IsoTimestampText` and `ParseSecondsText` state that it is the date, `T`, the clock, the milliseconds and `Z`, and reads back to the second for four-digit years |
| Base64.SextetRoundTrip | libraries/binary-utils/src/index.ts:39 | every 6-bit value has a character other than `=`, which reads back as that value |
| Base64.GroupSextets | libraries/binary-utils/src/index.ts:39 | one sextet more than there are bytes in a group |
| Base64.GroupBytes | libraries/binary-utils/src/index.ts:39 | one byte fewer than there are sextets in a group |
| Base64.GroupRoundTrip | libraries/binary-utils/src/index.ts:39 | the bytes of a group's sextets are the group |
| Base64.Chars | libraries/binary-utils/src/index.ts:39 | one character per sextet, each its alphabet character |
| Base64.Encode | libraries/binary-utils/src/index.ts:39 | the encoding's length is a multiple of four |
| Base64.EncodeLength | libraries/binary-utils/src/index.ts:39 | four sextets per three bytes, and one more than the bytes left over |
| Base64.ReadChars | libraries/binary-utils/src/index.ts:39 | decoding reads back every sextet written before the padding |
| Base64.DecodeOfSextets | libraries/binary-utils/src/index.ts:39 | the bytes of the sextets written for a buffer are the buffer |
| Base64.DecodeEncode | libraries/binary-utils/src/index.ts:39 | decoding the base64 text of a buffer gives the buffer back |
| BinaryUtils.SliceEnd | libraries/binary-utils/src/index.ts:10 | the sample ends within the buffer, at `checkLength` or the end, whichever is first, for a non-negative length |
| BinaryUtils.SliceEndMonotone | libraries/binary-utils/src/index.ts:10 | a larger non-negative length never ends the sample earlier |
| BinaryUtils.ZeroWithin | libraries/binary-utils/src/index.ts:9-12 | a zero lies within the sample exactly when one of the first `checkLength` elements is zero, a negative length counting from the end; the test of both `isBinaryBuffer` and `isBinary` |
| BinaryUtils.IsBinaryBuffer | libraries/binary-utils/src/index.ts:9-12 | `ZeroWithin` of the bytes: binary exactly when a zero byte lies within the sample |
| BinaryUtils.UnitsOf | libraries/binary-utils/src/index.ts:22-23 | a character takes one UTF-16 code unit below U+10000 and two above; only U+0000 yields a zero unit |
| BinaryUtils.IsBinary | libraries/binary-utils/src/index.ts:22-25 | `ZeroWithin` of the code units: binary exactly when a zero code unit lies within the first `checkLength` code units of the string |
| BinaryUtils.ZeroUnitAt | libraries/binary-utils/src/index.ts:22-25 | a zero code unit of a text's string stands exactly where a U+0000 character begins |
| BinaryUtils.IsBinaryOfText | libraries/binary-utils/src/index.ts:22-25 | for a text: binary exactly when a U+0000 character begins within the first `checkLength` code units |
| BinaryUtils.AstralTextHidesNul | libraries/binary-utils/src/index.ts:22-24 | a NUL after `n` characters above U+FFFF starts at code unit `2n` and is missed by any `checkLength` up to `2n`, e.g. 600 emoji and a NUL under the default 1000 |
| BinaryUtils.ZeroWithinMonotone | libraries/binary-utils/src/index.ts:9-12 | looking at more bytes or code units never un-finds a zero |
| BinaryUtils.LateZeroUnseen | libraries/binary-utils/src/index.ts:10-11 | a zero byte past the first `checkLength` bytes is not seen |
| BinaryUtils.DefaultLengthMissesByte1000 | libraries/binary-utils/src/index.ts:9 | with the default length a zero at index 1000 is missed, and found with one more byte |
| BinaryUtils.NegativeLengthFromEnd | libraries/binary-utils/src/index.ts:10 | a negative length counts from the end, and 0 looks at nothing |
| BinaryUtils.NoZeroNeverBinary | libraries/binary-utils/src/index.ts:9-12 | a buffer without a zero byte is never binary |
| BinaryUtils.IsBinaryBase64OfEncode | libraries/binary-utils/src/index.ts:35-41 | sniffing the base64 text of a buffer is sniffing the buffer |
| BinaryUtils.IsBinaryBase64 | libraries/binary-utils/src/index.ts:35-41 | `IsBinaryBase64OfEncode` states it: sniffing the base64 text of a buffer is sniffing the buffer |
| PollIntervals.AfterSlowDownsSum | libraries/github-auth/src/poll-interval.ts:12-14 | after a run of slow-downs the interval is the start plus a thousand times their sum |
| PollIntervals.AfterSlowDownsMonotone | libraries/github-auth/src/poll-interval.ts:12-14 | with non-negative slow-downs the interval never decreases |
| PollIntervals.SlowedDown | libraries/github-auth/src/poll-interval.ts:12-14 | a non-negative slow-down never shortens the interval, and a positive one lengthens it |
| PollIntervals.PollInterval.constructor | libraries/github-auth/src/poll-interval.ts:4-6 | the interval starts at the given seconds in milliseconds |
| PollIntervals.PollInterval.Get | libraries/github-auth/src/poll-interval.ts:8-10 | returns the interval and changes nothing |
| PollIntervals.PollInterval.SlowDown | libraries/github-auth/src/poll-interval.ts:12-14 | the interval grows by the given seconds in milliseconds |
| DeviceFlow.Decide | libraries/github-auth/src/device-flow.ts:69-97 | a token is accepted exactly when the reply is ok and carries one; a non-ok reply fails with `Failed to poll for token: <status>`; polling continues exactly on `authorization_pending` and `slow_down`, slowing down only on the latter |
| DeviceFlow.UnknownErrorCode | libraries/github-auth/src/device-flow.ts:92-95 | any other error code fails with its description, or with `Authorization failed: <code>` when there is none |
| DeviceFlow.ExpiredAndDenied | libraries/github-auth/src/device-flow.ts:88-91 | expiry and denial fail with their own, different messages |
| DeviceFlow.PollForToken | libraries/github-auth/src/device-flow.ts:46-101 | the loop as written ends and sleeps as `PollSpec` describes, with the interval one second over the one given and the deadline `expires_in` seconds after the start |
| DeviceFlow.PollEnds | libraries/github-auth/src/device-flow.ts:53-100 | the run so far ends in a timeout at the deadline, with the token, with the failure, or goes on, according to the reply |
| DeviceFlow.WrittenStep | libraries/github-auth/src/device-flow.ts:53-87 | a pass that goes on sleeps the interval, then 5000 ms more after `slow_down`, and the clock moves by those sleeps and the request's time |
| DeviceFlow.RfcStep | libraries/github-auth/src/device-flow.ts:53-87 | a pass that goes on sleeps the interval, and after `slow_down` the interval itself grows by five seconds |
| DeviceFlow.PollForTokenPerRfc | libraries/github-auth/src/device-flow.ts:84-87 | with the interval kept in a `PollInterval`, the loop ends and sleeps as the persistent-slow-down `PollSpec` describes |
| DeviceFlow.DeadlineReached | libraries/github-auth/src/device-flow.ts:53-100 | once the deadline is reached at the loop test, the call fails with the time-out and sleeps no more |
| DeviceFlow.TokenEndsPolling | libraries/github-auth/src/device-flow.ts:75-77 | a reply carrying `access_token` ends the call with that token at once |
| DeviceFlow.HttpErrorEndsPolling | libraries/github-auth/src/device-flow.ts:69-71 | a non-ok status fails at once with the status text |
| DeviceFlow.WrittenSleeps | libraries/github-auth/src/device-flow.ts:53-87 | as written every request is preceded by a sleep of the interval and the only other sleeps are of 5000 ms: the interval never changes |
| DeviceFlow.RfcSleepsGrow | libraries/github-auth/src/device-flow.ts:84-87 | with the interval kept, the sleeps never shrink and none is shorter than the first |
| DeviceFlow.RfcSlowDownPersists | libraries/github-auth/src/device-flow.ts:84-87 | with the interval kept, every sleep after a `slow_down` is at least five seconds longer than before |
| DeviceFlow.SlowDownForgotten | libraries/github-auth/src/device-flow.ts:84-87 | as written, after `slow_down` and `authorization_pending` the third request comes only 6000 ms after the second |
| DeviceFlow.SlowDownKept | libraries/github-auth/src/device-flow.ts:84-87 | with the interval kept, the same replies space the requests 11000 ms apart after the slow-down |
| DeviceFlow.PollSpec | libraries/github-auth/src/device-flow.ts:46-101 | the specification both loops are proved against; `PollEnds`, `WrittenSleeps`, `RfcSleepsGrow` and the two slow-down lemmas state how it ends and what it sleeps |
| AdoClient.TableNames | tools/ado/src/helpers/client.ts:44-58 | the thirteen names of the table are distinct and hold no parenthesis |
| AdoClient.NamedArePowersOfTwo | tools/ado/src/helpers/client.ts:44-58 | only single flags, powers of two up to 4096, have a name |
| AdoClient.CombinedIsUnknown | tools/ado/src/helpers/client.ts:59 | 0 and combinations of flags are written `unknown(<n>)` |
| AdoClient.ChangeTypeToStringInjective | tools/ado/src/helpers/client.ts:41-60 | no two change types are written the same way |
| AdoClient.UnknownInjective | tools/ado/src/helpers/client.ts:59 | distinct unknown values are written differently |
| AdoClient.ChangeTypeToString | tools/ado/src/helpers/client.ts:41-60 | a value has a table name exactly when its text holds no parenthesis, that is, is not `unknown(<n>)` |
| GerritChangedFiles.ChangedFiles | tools/gerrit/src/get-changed-files.ts:59-66 | at most one file per entry, and never the commit message |
| GerritChangedFiles.Kept | tools/gerrit/src/get-changed-files.ts:60 | the entries other than `/COMMIT_MSG`, in order |
| GerritChangedFiles.OneFilePerEntry | tools/gerrit/src/get-changed-files.ts:59-66 | every entry other than the commit message gives exactly one file, in entry order |
| GerritChangedFiles.FlattenDefaults | tools/gerrit/src/get-changed-files.ts:61-66 | an absent status, insertion count or deletion count defaults to `M`, 0 and 0; present ones are kept |
| GerritChangedFiles.KeptEntries | tools/gerrit/src/get-changed-files.ts:60 | an entry is kept exactly when it is not named `/COMMIT_MSG` |
| GerritChangedFiles.DefaultRevision | tools/gerrit/src/get-changed-files.ts:49 | without a revision the current one is asked for |
| GerritChangedFiles.ChangeIdOneSegment | tools/gerrit/src/get-changed-files.ts:50-54 | the change id stays one path segment, whatever it contains |
| GerritChangedFiles.Flatten | tools/gerrit/src/get-changed-files.ts:61-66 | `FlattenDefaults` states it: the path is kept, and an absent status, insertion count or deletion count becomes `M`, 0 or 0 |
| GerritChangedFiles.GetChangedFiles | tools/gerrit/src/get-changed-files.ts:48-69 | fails exactly when fetching the revision's file map fails, the error not caught; an empty map gives `[]` |
| GerritFetch.StripXssi | tools/gerrit/src/helpers/fetch.ts:12-14 | a body with the prefix loses exactly the prefix; any other body is left as it is |
| GerritFetch.StripPrefixed | tools/gerrit/src/helpers/fetch.ts:12-14 | a prefixed payload comes out as the payload |
| GerritFetch.DoublePrefixKeepsOne | tools/gerrit/src/helpers/fetch.ts:12-14 | only one copy of the prefix is removed |
| GerritFetch.StripChangesIffPrefixed | tools/gerrit/src/helpers/fetch.ts:12-14 | the body changes exactly when it starts with the prefix |
| GerritFetch.NotOkThrows | tools/gerrit/src/helpers/fetch.ts:3-26 | a failed response throws the same API error from both functions, whatever the parser |
| GerritFetch.ApiErrorNamesStatusAndUrl | tools/gerrit/src/helpers/fetch.ts:6-8 | the error names the status code, the status text and the URL |
| GerritFetch.PrefixedBody | tools/gerrit/src/helpers/fetch.ts:10-25 | a prefixed body parses as the payload after the prefix, and the raw fetch keeps the prefix |
| GerritFetch.GerritFetch | tools/gerrit/src/helpers/fetch.ts:3-16 | a response that is not ok throws `Gerrit API error: <status> <statusText> for <url>`; a value is returned only for an ok response, and it is the parse of the body with the anti-XSSI prefix removed |
| GerritFetch.GerritFetchRaw | tools/gerrit/src/helpers/fetch.ts:18-26 | returns exactly for an ok response, and then the body unchanged, prefix included |
| GerritFetch.Expand | tools/gerrit/src/helpers/fetch.ts:36 | one pair per value, in order, each carrying the parameter's name |
| GerritFetch.BuildUrl | tools/gerrit/src/helpers/fetch.ts:28-40 | the URL is `https://`, the host and the path, with every value of every parameter appended in order |
| GerritFetch.PairsAppend | tools/gerrit/src/helpers/fetch.ts:35-37 | parameters contribute their pairs in order |
| GerritFetch.PairsOfOne | tools/gerrit/src/helpers/fetch.ts:36 | one parameter contributes each of its values, repeats included |
| GerritFetch.SerializeSplit | tools/gerrit/src/helpers/fetch.ts:36-39 | splitting the query on `&` gives one piece per appended value, in order |
| GerritFetch.PairTextSplit | tools/gerrit/src/helpers/fetch.ts:36-39 | each piece splits on `=` into the encoded name and the encoded value |
| GerritQuery.GerritTimestampText | tools/gerrit/src/helpers/query.ts:4-6 | for four-digit years the timestamp is the date, a space and the clock, without milliseconds |
| GerritQuery.GerritTimestampReadBack | tools/gerrit/src/helpers/query.ts:4-6 | the timestamp is nineteen characters and, written back in ISO form, reads as the time value truncated to the second |
| GerritQuery.FormatGerritTimestamp | tools/gerrit/src/helpers/query.ts:4-6 | `GerritTimestampText` and `GerritTimestampReadBack` state its result: for years 0 to 9999, the date, a space and the clock, nineteen characters that read back as the time value truncated to the second |
| GerritQuery.Terms | tools/gerrit/src/helpers/query.ts:34-42 | at most one term per parameter |
| GerritQuery.AbsentOmitted | tools/gerrit/src/helpers/query.ts:35 | a parameter without a value leaves no trace |
| GerritQuery.NoValuesEmpty | tools/gerrit/src/helpers/query.ts:33-44 | with no values the query is empty |
| GerritQuery.ColonIndex | tools/gerrit/src/helpers/query.ts:39-41 | the first `:` of a term, or its end |
| GerritQuery.TermRoundTrip | tools/gerrit/src/helpers/query.ts:36-42 | reading a term back gives its key and value, quotes removed |
| GerritQuery.QuerySplit | tools/gerrit/src/helpers/query.ts:43 | with no spaces in keys and values, splitting the query on spaces gives back the terms |
| GerritQuery.TermsWithoutSpaces | tools/gerrit/src/helpers/query.ts:41 | unquoted terms hold no space |
| GerritQuery.ExampleMerged | tools/gerrit/src/helpers/query.ts:22-23 | the first documented example gives `project:chromium/src status:merged branch:main` |
| GerritQuery.ExampleAfter | tools/gerrit/src/helpers/query.ts:26-27 | a value with a space is quoted, as the second documented example shows |
| GerritQuery.ExampleDir | tools/gerrit/src/helpers/query.ts:30-31 | an undefined value is left out, as the third documented example shows |
| GerritQuery.PlainTerm | tools/gerrit/src/helpers/query.ts:41 | a value without a space is written after the key and a colon |
| GerritQuery.QuotedTerm | tools/gerrit/src/helpers/query.ts:38-40 | a value with a space is written in double quotes |
| GerritQuery.BuildGerritQuery | tools/gerrit/src/helpers/query.ts:33-44 | the terms joined by spaces; `QuerySplit` states that splitting the query on spaces gives the terms back, `NoValuesEmpty` that no value gives the empty query, `AbsentOmitted` that a parameter without a value leaves no trace |
| GitTools.ParseLog | src/tools/get-recent-commits.ts:55-68 | one commit per line of non-empty output |
| GitTools.ParseFormatLine | src/tools/get-recent-commits.ts:46-67 | reading a log line undoes writing it, for fields without separators |
| GitTools.ParseLogOfLines | src/tools/get-recent-commits.ts:59-68 | the whole log reads back as the commits it was written from, in order |
| GitTools.SubjectCutAtBar | src/tools/get-recent-commits.ts:60 | only the first five pieces are kept: a subject containing a bar is cut at it |
| GitTools.LineWithoutBars | src/tools/get-recent-commits.ts:60-67 | missing pieces are empty |
| GitTools.EmptyLogNoCommits | src/tools/search-commits.ts:62-64 | empty output gives `[]` from both tools |
| GitTools.SearchIsFilteredLog | src/tools/search-commits.ts:53-60 | the search runs the recent-commits command with the `--grep` and case options added |
| GitTools.SinceReadsBack | src/tools/get-recent-commits.ts:43 | the window is the number of hours followed by ` hours ago` |
| GitTools.NonBlankLines | src/tools/list-changed-files.ts:52-54 | exactly the trimmed lines that are not empty |
| GitTools.ChangedFileNamesContents | src/tools/list-changed-files.ts:45-56 | a path is listed exactly when it is a non-blank trimmed line of the log, and no path twice |
| GitTools.ChangedFileNamesOrder | src/tools/list-changed-files.ts:49-56 | paths keep the order in which they first occur |
| GitTools.GetRecentCommits | src/tools/get-recent-commits.ts:41-71 | fails exactly when `git log` fails, the error not caught; empty output gives `[]` |
| GitTools.SearchCommits | src/tools/search-commits.ts:46-78 | fails exactly when `git log --grep` fails, the error not caught; empty output gives `[]` |
| GitTools.ListChangedFiles | src/tools/list-changed-files.ts:33-59 | fails exactly when `git log --name-only` fails, the error not caught; empty output gives `[]` |
| Json.UnescapeEscape | libraries/agent/src/agent.ts:102-105 | escaping a message for a JSON string loses nothing: the escapes read back to the original text |
| Json.EscapeInjective | libraries/agent/src/agent.ts:102-105 | two different texts never escape to the same JSON string body |
| Json.EscapePlain | agents/repo-sentinel/src/tools/list-reports.ts:42 | a text without quotes, backslashes or control characters is written unchanged |
| Json.ErrorEnvelopeText | agents/repo-sentinel/src/agent.ts:126 | the error envelope is `{"error":"…"}` around the escaped message |
| Json.ErrorEnvelopeInjective | agents/repo-sentinel/src/agent.ts:120-128 | different error messages give different envelopes, so the model can tell the errors apart |
| Json.FirstKeyLetter | agents/repo-sentinel/src/tools/save-report.ts:50 | a serialized object whose first key starts with a lower-case letter shows that letter right after `{"` |
| Json.HexRoundTrip | src/agent.ts:83 | a control character's `\u00XX` digits are hex digits that read back to its code |
| Seqs.FirstIndex | src/tools/list-changed-files.ts:49-56 | the index of the first occurrence: it holds the element and no earlier position does |
| Seqs.Dedup | src/tools/list-changed-files.ts:49-56 | what `new Set` keeps: no element twice, the same elements as the input, never longer |
| Seqs.DedupAppend | libraries/openai-session/src/tool-registry.ts:56-60 | adding a known element changes nothing; a new one goes last |
| Seqs.DedupFirstOccurrenceOrder | src/tools/list-changed-files.ts:49-56 | the kept elements are in the order of their first occurrences |
| Seqs.DedupDistinct | libraries/openai-session/src/tool-registry.ts:56-60 | a list without repeats is kept as it is |
| Seqs.DedupIdempotent | src/tools/list-changed-files.ts:49-56 | removing repeats twice is removing them once |
| Seqs.DedupCardinality | src/tools/list-changed-files.ts:49-56 | the kept list is as long as the set of distinct elements |
| Sorting.PrecedesTotal | agents/repo-sentinel/src/helpers/report-utils.ts:75-82 | the comparator orders any two distinct keys one way and never both ways |
| Sorting.SortSorted | agents/repo-sentinel/src/helpers/report-utils.ts:75-82 | the result is newest first with unparsed names last |
| Sorting.SortPermutes | agents/repo-sentinel/src/helpers/report-utils.ts:75-82 | the result holds the same names as the input, each as often |
| Sorting.SortStable | agents/repo-sentinel/src/tools/list-reports.ts:73-76 | elements with equal keys keep their input order |
| Sorting.UntimedLast | agents/repo-sentinel/src/helpers/report-utils.ts:78-80 | a name without a timestamp comes after every name with one |
| Sorting.InsertPermutes | agents/repo-sentinel/src/helpers/report-utils.ts:75-82 | inserting adds exactly the one element |
| Sorting.InsertSorted | agents/repo-sentinel/src/helpers/report-utils.ts:75-82 | inserting into a sorted list keeps it sorted |
| Strings.TrimCutsWhitespace | agents/repo-sentinel/src/helpers/env-helpers.ts:140 | `trim` removes only whitespace, from both ends |
| Strings.TrimNoOuterWhitespace | agents/repo-sentinel/src/helpers/env-helpers.ts:140 | a trimmed text neither starts nor ends with whitespace |
| Strings.TrimIdempotent | libraries/openai-session/src/tool-registry.ts:77 | trimming twice is trimming once |
| Strings.TrimEmptyIff | agents/repo-sentinel/src/helpers/report-utils.ts:14-22 | a text trims to empty exactly when it is all whitespace |
| Strings.SplitJoin | agents/repo-sentinel/src/helpers/env-helpers.ts:140 | `split` gives one more piece than separators, no piece holds the separator, and joining the pieces gives the text back |
| Strings.JoinSplit | src/tools/get-recent-commits.ts:59-60 | pieces without the separator, joined, split back into the same pieces |
| Strings.SplitNoSeparator | src/tools/get-recent-commits.ts:60 | a text without the separator is one piece |
| Strings.ReplaceAll | agents/repo-sentinel/src/helpers/report-utils.ts:28 | every occurrence of the character, and nothing else, is replaced |
| Strings.ReplaceAllAbsent | agents/repo-sentinel/src/helpers/report-utils.ts:28 | a text without the character is left alone |
| Strings.ReplaceFirstAt | agents/repo-sentinel/src/helpers/report-utils.ts:50-53 | only the first occurrence is replaced |
| Strings.FixedDigitsValue | agents/repo-sentinel/src/helpers/report-utils.ts:25-28 | zero-padded digits read back to the number |
| Strings.NatToDecimalValue | tools/ado/src/helpers/client.ts:59 | the decimal digits of a number read back to it |
| Strings.IntToDecimalInjective | tools/ado/src/helpers/client.ts:59 | different integers are written differently |
| Strings.ParseIntOfDecimal | agents/repo-sentinel/src/helpers/env-helpers.ts:124 | `parseInt` reads a written integer back, whatever non-digit follows |
| Strings.ParseIntSkipsWhitespace | agents/repo-sentinel/src/helpers/env-helpers.ts:124 | leading whitespace does not change what `parseInt` reads |
| Strings.ParseIntNaN | agents/repo-sentinel/src/helpers/env-helpers.ts:124 | a text that does not start with a sign or digit after whitespace reads as NaN |
| UrlEncoding.Utf8 | tools/gerrit/src/get-changed-files.ts:50 | a character is one to four bytes, one exactly when it is ASCII |
| UrlEncoding.PercentBytes | tools/gerrit/src/get-changed-files.ts:50 | each byte becomes three characters: `%` and two upper-case hex digits |
| UrlEncoding.FormEncode | tools/gerrit/src/helpers/fetch.ts:36 | a query value holds only kept characters, `+` and `%` |
| UrlEncoding.FormEncodeDelimiters | tools/gerrit/src/helpers/fetch.ts:36 | an encoded query value never holds `&`, `=` or `#`, so it cannot split the query |
| UrlEncoding.EncodeUriComponent | tools/gerrit/src/get-changed-files.ts:50 | an encoded component holds only unreserved characters and `%` |
| UrlEncoding.EncodeUriComponentDelimiters | tools/gerrit/src/get-changed-files.ts:50 | the encoded id never holds `/`, `?` or `#`, so it stays one path segment |
| UrlEncoding.EncodeUriComponentPlain | tools/gerrit/src/get-changed-files.ts:50 | a text of unreserved characters is left alone |
| UrlEncoding.EncodeUriComponentAppend | tools/gerrit/src/get-changed-files.ts:50 | encoding works character by character |
| UrlEncoding.SlashEncoded | tools/gerrit/src/get-changed-files.ts:50 | `/` is written `%2F` |

## Left out

- The OpenAI endpoint and client creation. Replies come from the sequence `replies`, and a run that needs more replies than it holds ends as `RepliesExhausted` or `PollsExhausted`. This is the model's fuel bound: longer runs are modelled only as far as the replies go. Of `createOpenAIClient`, only the reading of `OPENAI_API_KEY` and `OPENAI_MODEL`, which throws when they are unset, is modelled.
- `JSON.parse` is the parameter `parse`. `JSON.stringify` is written out only for the values the core produces (strings, integers, booleans, null, arrays and objects, without indentation). Floating-point numbers are not modelled, because every number the core writes is an integer.
- `Promise.all` is an order-preserving map. Concurrent tool execution and the interleaving of its side effects are not modelled.
- The `git` subprocess, `readdir`, `stat`, `readFile`, `writeFile` and `mkdir` are parameters, or a map from path to contents. The map is the report directory, with an exclusive-create write. Directories are not kept as state: `mkdir` is a possible fault only.
- `path.join` and `path.basename` are modelled for `/`-separated names, without normalising `.` and `..` segments. `new URL(...)` parsing is not modelled: `buildUrl` is modelled as `https://`, host, path and the serialized query.
- The order of `Object.entries` and `Object.keys` is taken as the order of the fields given. The decoding of Gerrit's JSON into file-info records is a parameter.
- UrlEncoding.Utf8: lone UTF-16 surrogates are not modelled. `encodeURIComponent` throws on them; the model encodes every char as a code point.
- Logging (libraries/logger) and console output, except the callbacks of `runAgent` and the logger calls of the repo-sentinel agent (whose `logger.assistant` prints the last reply twice), and the console lines of the older agent, kept as a sequence of `Line` values.
- Agent.RoundEvents: within a round every start callback is recorded before the end and error callbacks, as in the source, but the end and error callbacks are recorded in call order. In the source they fire in the order the tool calls complete, which depends on the tools' I/O and is not modelled. The same holds for `logger.toolStart`/`toolEnd`/`toolError` in `SentinelAgent.RunSession`.
- libraries/agent/src/agent.ts and agents/repo-sentinel/src/agent.ts use the `Session` of the `@ai/openai-session` library, whose source is not part of this model. Both loops run on the `Session` of src/ai/session.ts, which that library session is taken to behave like.
- `list_reports` takes `limit` as an integer. A fractional limit, which `slice` truncates, is not modelled.
- File modification times are whole milliseconds, the precision of a `Date`.
- The in-place sorts of `getReportFilenames` and `list_reports` are modelled on values: a stable insertion sort over a sequence (`Sorting.Sort`). Sorting in place and aliasing of the sorted array are not captured.
- The local git tools' names and definitions are parameters, because the `@openai-tools/git` package is not part of this model. Of the older agent's twelve tools, four names are known from the sources that are part of this model; the others are parameters.
- Of the older agent's twelve `register` calls (src/agent.ts:24-35), the model registers the list of twelve tools one by one, in the same order.
- The repo-sentinel agent calls the two-argument `register(definition, handler)`. This is modelled as the registration of the bundle `OpenAITool(definition, handler)`.
- `SYSTEM_PROMPT` of src/prompts/system-prompt.ts and the analyzers' user-prompt texts are parameters. The sub-agent's `crypto.randomUUID` is not modelled.
- `requestDeviceCode`, `authenticateWithDeviceFlow` and token storage through keytar are not modelled. The device flow enters the repo-sentinel agent as the value `auth`.
- In `pollForToken`, `fetch` and the clock are not modelled. Each poll is the response received and the milliseconds the request took. `sleep` is recorded as a list of durations.
- The poll interval counts whole seconds. The source keeps it in a double, which is not modelled.
- Calendar.ParseIsoSeconds: only texts of the `YYYY-MM-DDTHH:MM:SSZ` shape are read, which is what `parseReportTimestamp` hands it. The day is checked against 31 only, as V8 does, and February 30 rolls over into March. Other `Date` text formats are not modelled.
- ReportUtils.Sanitize: `toLowerCase` is modelled for ASCII letters only; Unicode case mapping is not modelled.
- ReportUtils.Slug: `toLowerCase` is modelled for ASCII letters only, and its `|r| == |s|` holds of that model only. In JavaScript `İ` lowercases to two characters, and U+212A KELVIN SIGN lowercases to ASCII `k`, which the filter keeps; the model turns it into `-`.
- GitTools.Since: `hours` is taken as an integer. In the source it is a JSON `number` from the model's tool call (src/tools/get-recent-commits.ts:15 and :43, src/tools/search-commits.ts:16 and :48, src/tools/list-changed-files.ts:7 and :35), and a fractional value such as 1.5 makes git run with `--since="1.5 hours ago"`. How JavaScript prints a non-integer number is not modelled.
- GitTools.SinceReadsBack: holds for whole hours only, as GitTools.Since says.
- GitTools.GetRecentCommits: takes whole hours only, as GitTools.Since says.
- GitTools.SearchCommits: takes whole hours only, as GitTools.Since says.
- GitTools.ListChangedFiles: takes whole hours only, as GitTools.Since says.
- FetchTimestamp.MaxLookback: `maxFetchHours` is taken as an integer. In the source it is a `number` (agents/repo-sentinel/src/helpers/fetch-timestamp.ts:10), and a fractional value moves the lookback bound by part of an hour, through a floating-point product and the truncation `new Date` applies. Neither is modelled.
- FetchTimestamp.CalculateFetchSinceTimestamp: its contract covers whole `maxFetchHours` only, as FetchTimestamp.MaxLookback says; so do FetchSince, FetchSinceDate and the lemmas about them.
- The provider tools of tools/github, tools/ado (except `changeTypeToString`) and tools/gerrit (except the changed-files tool and the helpers) only remap SDK or REST responses, and are not modelled. Also not modelled: libraries/ado-auth, the process entry points and the scheduler.
- `getCustomPrompt` reads a file when `CUSTOM_PROMPT_FILE` is set. That read is the parameter `read`.

## Findings

| source | as written | input that shows it | evidently intended | confidence | as-written member | corrected member |
|---|---|---|---|---|---|---|
| libraries/github-auth/src/device-flow.ts:84-87 | on `slow_down`, the loop sleeps an extra 5000 ms once and keeps polling at the old interval | interval 5 s; replies `slow_down`, `authorization_pending`, then a token: the sleeps are 6000, 5000, 6000 and 6000 ms, so the third request follows the second after 6000 ms | the interval grows by 5 s for every later request (section 3.5 of RFC 8628; the code's own comment says to wait longer next time, and `PollInterval.slowDown` exists for it): sleeps 6000, 11000, 11000 | medium, not executed | DeviceFlow.SlowDownForgotten | DeviceFlow.SlowDownKept |
| agents/repo-sentinel/src/prompts/commit-analyzer-subagent-system-prompt.ts:89-93 | the Gerrit sub-agent is told to call `get_change_details` and then `get_change_diff` | the Gerrit `analyze_commit` handler registers `gerrit_get_change_details` and `gerrit_get_change_diff` (agents/repo-sentinel/src/subagent-tools/gerrit-analyzer.ts:54-55); the first call the prompt asks for, `get_change_details`, is answered with `{"error":"Tool not found: get_change_details"}` | the prompt names the two tools the sub-agent has, as it does for GitHub and Azure DevOps | high, not executed | Analyzers.GerritFirstCallFails | Analyzers.CorrectedPromptNamesRegistered |
| agents/repo-sentinel/src/tools/get-config.ts:64-70 | every provider other than `github` is reported as `local` with `repoPath` | provider `gerrit` with `REPO_PATH` set: the JSON has no `host` or `project`, yet the system prompt's Gerrit note (agents/repo-sentinel/src/prompts/system-prompt.ts:47) tells the model to take `host` and `project` from it | one configuration case per provider, as the `Config` type (agents/repo-sentinel/src/types.ts:23-37) declares | medium, not executed | SystemPrompt.NoteUnbackedForGerritAndAdo | SystemPrompt.NoteBackedByCorrectedConfig |
| agents/repo-sentinel/src/agent.ts:25-49 | `createToolRegistry` registers `get_config`, `save_report` and the provider's tools only | any provider whose tools do not include the names: the model follows agents/repo-sentinel/src/prompts/system-prompt.ts:150-152 and calls `list_reports`, which fails with `Tool not found: list_reports` | the report-reading tools the prompt offers are registered | medium, not executed | SentinelAgent.ReportToolsUnregistered | SentinelAgent.CorrectedRegistryHasReportTools |
