/** `runAgent` of src/agent.ts, the older agent: twelve tools registered in a
    fixed order, then a loop that runs the function calls of the first
    choice one after another and prints to the console as it goes.

    The console is the sequence of lines written, `console.log` and
    `console.error` kept apart. `SYSTEM_PROMPT` and the user prompt are
    parameters; the endpoint's replies are `replies`, as for the other
    agents.
 */
module LegacyAgent {

  import opened Wrappers
  import opened Json
  import opened Chat
  import opened AgentHelpers
  import RegistryModel
  import AiToolRegistry
  import Session
  import Seqs

  /** One console line, by what it reports; `Text` is what is written and
      `ToStderr` tells `console.error` from `console.log`. */
  datatype Line =
    | StartLine
    | AssistantLine(afterTools: bool, content: string)
    | CallHeader(name: string)
    | InputLine(arguments: string)
    | OutputLine(output: string)
    | ErrorLine(message: string)
    | EndLine(name: string)
    | CompletedLine
    | FinalMessage(content: string)

  /** The text `console.log` or `console.error` writes for a line. */
  function Text(line: Line): string {
    match line
    case StartLine => "Starting RepoSentinel agent...\n"
    case AssistantLine(afterTools, c) => (if afterTools then "\nAssistant: " else "Assistant: ") + c + "\n"
    case CallHeader(name) => "\n--- Tool Call: " + name + " ---"
    case InputLine(a) => "Input: " + a
    case OutputLine(o) => "Output: " + o
    case ErrorLine(m) => "Error: " + m
    case EndLine(name) => "--- End " + name + " ---\n"
    case CompletedLine => "\nAgent completed:\n"
    case FinalMessage(c) => c
  }

  /** Only a tool's error goes to `console.error`. */
  predicate ToStderr(line: Line) {
    line.ErrorLine?
  }

  /** The twelve tools `createToolRegistry` registers. */
  datatype Kit = Kit(
    getConfig: OpenAITool,
    getRepoStatus: OpenAITool,
    fetchRemote: OpenAITool,
    getRecentCommits: OpenAITool,
    getCommitDetails: OpenAITool,
    getCommitDiff: OpenAITool,
    getFileContent: OpenAITool,
    getFileHistory: OpenAITool,
    getBlame: OpenAITool,
    searchCommits: OpenAITool,
    listChangedFiles: OpenAITool,
    saveReport: OpenAITool)

  /** The tools in registration order. */
  function LegacyTools(kit: Kit): (ts: seq<OpenAITool>)
    ensures |ts| == 12
  {
    [kit.getConfig, kit.getRepoStatus, kit.fetchRemote, kit.getRecentCommits,
     kit.getCommitDetails, kit.getCommitDiff, kit.getFileContent, kit.getFileHistory,
     kit.getBlame, kit.searchCommits, kit.listChangedFiles, kit.saveReport]
  }

  function LegacyRegistry(kit: Kit): RegistryModel.Registry {
    RegistryModel.RegisterEach(RegistryModel.Empty, LegacyTools(kit))
  }

  /** The names of the four tool definitions the model has the source of. */
  predicate KnownNames(kit: Kit) {
    RegistryModel.NameOf(kit.getConfig) == "get_config" &&
    RegistryModel.NameOf(kit.getRecentCommits) == "get_recent_commits" &&
    RegistryModel.NameOf(kit.searchCommits) == "search_commits" &&
    RegistryModel.NameOf(kit.listChangedFiles) == "list_changed_files"
  }

  /** `createToolRegistry()`: the twelve `register(definition, handler)`
      calls of lines 24 to 35, one after another in the order of
      `LegacyTools`. */
  method CreateToolRegistry(kit: Kit) returns (registry: AiToolRegistry.ToolRegistry)
    ensures fresh(registry) && registry.Valid()
    ensures registry.State() == LegacyRegistry(kit)
  {
    registry := new AiToolRegistry.ToolRegistry();
    var ts := LegacyTools(kit);
    assert ts[..0] == [];
    for i := 0 to |ts|
      invariant registry.Valid()
      invariant registry.State() == RegistryModel.RegisterEach(RegistryModel.Empty, ts[..i])
    {
      RegistryModel.RegisterEachSnoc(RegistryModel.Empty, ts[..i], ts[i]);
      assert ts[..i + 1] == ts[..i] + [ts[i]];
      registry.Register(ts[i].definition, ts[i].handler);
    }
    assert ts[..|ts|] == ts;
  }

  // The first choice

  /** `response.choices[0]?.message.tool_calls ?? []` */
  function FirstCalls(reply: Completion): seq<ToolCall> {
    if |reply.choices| == 0 then []
    else reply.choices[0].message.toolCalls.GetOr([])
  }

  /** `response.choices[0]?.message.content`, when it is truthy. */
  function FirstContent(reply: Completion): (r: Option<string>)
    ensures r.Some? ==> r.value != ""
  {
    if |reply.choices| == 0 then None
    else
      var c := reply.choices[0].message.content;
      if c.Some? && c.value != "" then c else None
  }

  /** The console lines for a reply's content: `prefix`, the text, and a
      blank line, when there is text. */
  function ContentLines(afterTools: bool, reply: Completion): seq<Line> {
    match FirstContent(reply)
    case None => []
    case Some(c) => [AssistantLine(afterTools, c)]
  }

  // One round

  /** The outcome of one call through the older registry, which does not
      trim. */
  function LegacyOutcome(reg: RegistryModel.Registry, call: ToolCall, parse: string -> Outcome<Json>): Outcome<string>
    requires call.FunctionCall?
  {
    RegistryModel.Execute(reg, call.name, call.arguments, parse, false)
  }

  /** The result pushed for one function call. */
  function LegacyResult(reg: RegistryModel.Registry, call: ToolCall, parse: string -> Outcome<Json>): (r: ToolResult)
    requires call.FunctionCall?
    ensures r.toolCallId == call.id
    ensures LegacyOutcome(reg, call, parse).Returned? ==> r.content == LegacyOutcome(reg, call, parse).value
    ensures LegacyOutcome(reg, call, parse).Threw? ==>
      r.content == ErrorEnvelope(ErrorText(LegacyOutcome(reg, call, parse).error))
  {
    match LegacyOutcome(reg, call, parse)
    case Returned(output) => ToolResult(call.id, output)
    case Threw(e) => ToolResult(call.id, ErrorEnvelope(ErrorText(e)))
  }

  /** The console lines for one function call: its name and input, then
      its output or its error, then the closing line. */
  function CallLines(reg: RegistryModel.Registry, call: ToolCall, parse: string -> Outcome<Json>): seq<Line>
    requires call.FunctionCall?
  {
    [CallHeader(call.name), InputLine(call.arguments)] +
    (match LegacyOutcome(reg, call, parse)
     case Returned(output) => [OutputLine(output)]
     case Threw(e) => [ErrorLine(ErrorText(e))]) +
    [EndLine(call.name)]
  }

  /** What the `for` loop over the calls has pushed and printed. */
  datatype Round = Round(results: seq<ToolResult>, lines: seq<Line>)

  /** The loop over `calls`, one call after another; a call that is not a
      function call is skipped. */
  function SequentialRound(reg: RegistryModel.Registry, calls: seq<ToolCall>, parse: string -> Outcome<Json>): Round {
    if calls == [] then Round([], [])
    else
      Step(reg, SequentialRound(reg, calls[..|calls| - 1], parse), calls[|calls| - 1], parse)
  }

  /** One pass of the loop: a function call adds its result and its lines. */
  function Step(reg: RegistryModel.Registry, pre: Round, call: ToolCall, parse: string -> Outcome<Json>): Round {
    if !call.FunctionCall? then pre
    else Round(pre.results + [LegacyResult(reg, call, parse)], pre.lines + CallLines(reg, call, parse))
  }

  lemma RoundSnoc(reg: RegistryModel.Registry, calls: seq<ToolCall>, x: ToolCall, parse: string -> Outcome<Json>)
    ensures SequentialRound(reg, calls + [x], parse) == Step(reg, SequentialRound(reg, calls, parse), x, parse)
  {
    assert (calls + [x])[..|calls|] == calls;
  }

  /** The body of `runAgent`'s `while` loop, up to `submitToolResults`: the
      `for` loop over the calls, `execute` awaited for each in turn. */
  method ExecuteCalls(registry: AiToolRegistry.ToolRegistry, calls: seq<ToolCall>, parse: string -> Outcome<Json>)
    returns (results: seq<ToolResult>, lines: seq<Line>)
    ensures Round(results, lines) == SequentialRound(registry.State(), calls, parse)
  {
    results, lines := [], [];
    for i := 0 to |calls|
      invariant Round(results, lines) == SequentialRound(registry.State(), calls[..i], parse)
    {
      assert calls[..i + 1][..i] == calls[..i];
      var call := calls[i];
      if !call.FunctionCall? {
        continue;
      }
      lines := lines + [CallHeader(call.name), InputLine(call.arguments)];
      var outcome := registry.Execute(call.name, call.arguments, parse);
      match outcome {
        case Returned(output) =>
          lines := lines + [OutputLine(output)];
          results := results + [ToolResult(call.id, output)];
        case Threw(e) =>
          lines := lines + [ErrorLine(ErrorText(e))];
          results := results + [ToolResult(call.id, ErrorEnvelope(ErrorText(e)))];
      }
      lines := lines + [EndLine(call.name)];
    }
    assert calls[..|calls|] == calls;
  }

  // The run

  /** A run of the older agent: whether it finished, what it printed, and
      the result lists it submitted. */
  datatype LegacyRun = LegacyRun(completed: bool, lines: seq<Line>, submitted: seq<seq<ToolResult>>)

  /** The lines printed when the loop ends on `reply`. */
  function FinalLines(reply: Completion): seq<Line> {
    match FirstContent(reply)
    case None => []
    case Some(c) => [CompletedLine, FinalMessage(c)]
  }

  /** The run from the moment reply `k` has been received and printed. */
  function LegacyFrom(reg: RegistryModel.Registry, parse: string -> Outcome<Json>, replies: seq<Completion>, k: nat): LegacyRun
    requires k < |replies|
    decreases |replies| - k
  {
    var reply := replies[k];
    if !Session.RequiresToolCall(reply) then LegacyRun(true, FinalLines(reply), [])
    else
      var r := SequentialRound(reg, FirstCalls(reply), parse);
      if k + 1 == |replies| then LegacyRun(false, r.lines, [])
      else
        var rest := LegacyFrom(reg, parse, replies, k + 1);
        LegacyRun(rest.completed, r.lines + ContentLines(true, replies[k + 1]) + rest.lines,
                  [r.results] + rest.submitted)
  }

  /** The whole run: the start line, the first reply's content, then the
      run from it. */
  function LegacySpec(reg: RegistryModel.Registry, parse: string -> Outcome<Json>, replies: seq<Completion>): LegacyRun {
    if replies == [] then LegacyRun(false, [StartLine], [])
    else
      var rest := LegacyFrom(reg, parse, replies, 0);
      LegacyRun(rest.completed, [StartLine] + ContentLines(false, replies[0]) + rest.lines, rest.submitted)
  }

  predicate RunSoFar(reg: RegistryModel.Registry, parse: string -> Outcome<Json>, replies: seq<Completion>, k: nat,
                     lines: seq<Line>, submitted: seq<seq<ToolResult>>, total: LegacyRun)
    requires k < |replies|
  {
    var rest := LegacyFrom(reg, parse, replies, k);
    total == LegacyRun(rest.completed, lines + rest.lines, submitted + rest.submitted)
  }

  lemma RoundStep(reg: RegistryModel.Registry, parse: string -> Outcome<Json>, replies: seq<Completion>, k: nat,
                  lines: seq<Line>, submitted: seq<seq<ToolResult>>, total: LegacyRun)
    requires k + 1 < |replies| && Session.RequiresToolCall(replies[k])
    requires RunSoFar(reg, parse, replies, k, lines, submitted, total)
    ensures var r := SequentialRound(reg, FirstCalls(replies[k]), parse);
      RunSoFar(reg, parse, replies, k + 1, lines + r.lines + ContentLines(true, replies[k + 1]),
               submitted + [r.results], total)
  {
    var r := SequentialRound(reg, FirstCalls(replies[k]), parse);
    var rest := LegacyFrom(reg, parse, replies, k + 1);
    var mid := r.lines + ContentLines(true, replies[k + 1]);
    assert LegacyFrom(reg, parse, replies, k) == LegacyRun(rest.completed, mid + rest.lines, [r.results] + rest.submitted);
    assert lines + (mid + rest.lines) == lines + mid + rest.lines;
    assert submitted + ([r.results] + rest.submitted) == submitted + [r.results] + rest.submitted;
  }

  /** `runAgent()` of src/agent.ts. */
  method LegacyRunAgent(kit: Kit, systemPrompt: string, userPrompt: string, envModel: Option<string>,
                        replies: seq<Completion>, parse: string -> Outcome<Json>)
    returns (run: LegacyRun)
    ensures run == LegacySpec(LegacyRegistry(kit), parse, replies)
  {
    var registry := CreateToolRegistry(kit);
    var defs := registry.GetToolDefinitions();
    var session := new Session.Session(Session.SessionOptions(None, Some(systemPrompt), Some(defs)), envModel);
    var lines := [StartLine];
    if replies == [] {
      return LegacyRun(false, lines, []);
    }
    var response, request := session.Chat(userPrompt, replies[0]);
    lines := lines + ContentLines(false, response);
    run := ToolLoop(registry, session, replies, parse, lines);
  }

  /** The `while` loop of `runAgent()` and the final print, after the first
      reply has been received and `lines` printed. */
  method ToolLoop(registry: AiToolRegistry.ToolRegistry, session: Session.Session, replies: seq<Completion>,
                  parse: string -> Outcome<Json>, lines0: seq<Line>)
    returns (run: LegacyRun)
    requires replies != []
    modifies session
    ensures var rest := LegacyFrom(registry.State(), parse, replies, 0);
      run == LegacyRun(rest.completed, lines0 + rest.lines, rest.submitted)
  {
    var reg := registry.State();
    ghost var rest := LegacyFrom(reg, parse, replies, 0);
    ghost var total := LegacyRun(rest.completed, lines0 + rest.lines, rest.submitted);
    var lines := lines0;
    var response := replies[0];
    var submitted: seq<seq<ToolResult>> := [];
    var k := 0;
    assert [] + rest.submitted == rest.submitted;
    while Session.RequiresToolCall(response)
      invariant 0 <= k < |replies| && response == replies[k]
      invariant registry.State() == reg
      invariant RunSoFar(reg, parse, replies, k, lines, submitted, total)
      decreases |replies| - k
    {
      var results, printed := ExecuteCalls(registry, FirstCalls(response), parse);
      if k + 1 == |replies| {
        return LegacyRun(false, lines + printed, submitted);
      }
      RoundStep(reg, parse, replies, k, lines, submitted, total);
      var request;
      response, request := session.SubmitToolResults(results, replies[k + 1]);
      k := k + 1;
      lines := lines + printed + ContentLines(true, response);
      submitted := submitted + [results];
    }
    run := LegacyRun(true, lines + FinalLines(response), submitted);
  }

  // Properties of the registry

  /** With distinct names, the registry lists the twelve tools in the order
      they were registered, starting with `get_config`, and offers one
      definition per tool. */
  lemma LegacyRegistryOrder(kit: Kit)
    requires Seqs.Distinct(RegistryModel.Names(LegacyTools(kit)))
    ensures var r := LegacyRegistry(kit);
      RegistryModel.Valid(r) && r.order == RegistryModel.Names(LegacyTools(kit)) &&
      |RegistryModel.Definitions(r)| == 12
  {
    RegistryModel.EmptyValid();
    RegistryModel.RegisterEachValid(RegistryModel.Empty, LegacyTools(kit));
    RegistryModel.RegisterEachOrder(LegacyTools(kit));
    Seqs.DedupDistinct(RegistryModel.Names(LegacyTools(kit)));
  }

  /** The four tools whose names are known are registered at places 1, 4,
      10 and 11 of the twelve. */
  lemma KnownToolsRegistered(kit: Kit)
    requires KnownNames(kit) && Seqs.Distinct(RegistryModel.Names(LegacyTools(kit)))
    ensures var order := LegacyRegistry(kit).order;
      |order| == 12 && order[0] == "get_config" && order[3] == "get_recent_commits" &&
      order[9] == "search_commits" && order[10] == "list_changed_files"
  {
    var ts := LegacyTools(kit);
    var names := RegistryModel.Names(ts);
    LegacyRegistryOrder(kit);
    assert ts[0] == kit.getConfig && ts[3] == kit.getRecentCommits;
    assert ts[9] == kit.searchCommits && ts[10] == kit.listChangedFiles;
    assert names[0] == RegistryModel.NameOf(ts[0]) && names[3] == RegistryModel.NameOf(ts[3]);
    assert names[9] == RegistryModel.NameOf(ts[9]) && names[10] == RegistryModel.NameOf(ts[10]);
  }

  // Properties of a round

  lemma {:induction false} FilterSnoc(calls: seq<ToolCall>, x: ToolCall)
    ensures FilterFunctionCalls(calls + [x]) == FilterFunctionCalls(calls) + (if x.FunctionCall? then [x] else [])
    decreases |calls|
  {
    if calls != [] {
      assert (calls + [x])[1..] == calls[1..] + [x];
      FilterSnoc(calls[1..], x);
    } else {
      assert [x][1..] == [];
    }
  }

  /** Calls that are not function calls leave no trace: the round is the one
      over the function calls alone. */
  lemma {:induction false} SkipsNonFunction(reg: RegistryModel.Registry, calls: seq<ToolCall>, parse: string -> Outcome<Json>)
    ensures SequentialRound(reg, calls, parse) == SequentialRound(reg, FilterFunctionCalls(calls), parse)
  {
    if calls != [] {
      var pre := calls[..|calls| - 1];
      var x := calls[|calls| - 1];
      assert calls == pre + [x];
      SkipsNonFunction(reg, pre, parse);
      FilterSnoc(pre, x);
      var f := FilterFunctionCalls(pre);
      RoundSnoc(reg, pre, x, parse);
      if x.FunctionCall? {
        RoundSnoc(reg, f, x, parse);
      } else {
        assert f + [] == f;
      }
    }
  }

  /** Over function calls, the round pushes one result per call, in call
      order, each carrying its call's id, and prints four lines per call. */
  lemma {:induction false} RoundPairs(reg: RegistryModel.Registry, calls: seq<ToolCall>, parse: string -> Outcome<Json>)
    requires forall i :: 0 <= i < |calls| ==> calls[i].FunctionCall?
    ensures var r := SequentialRound(reg, calls, parse);
      |r.results| == |calls| && |r.lines| == 4 * |calls| &&
      forall i :: 0 <= i < |calls| ==> r.results[i] == LegacyResult(reg, calls[i], parse)
  {
    if calls != [] {
      var pre := calls[..|calls| - 1];
      RoundPairs(reg, pre, parse);
      var r := SequentialRound(reg, calls, parse);
      var p := SequentialRound(reg, pre, parse);
      var last := calls[|calls| - 1];
      assert r.results == p.results + [LegacyResult(reg, last, parse)];
      assert |CallLines(reg, last, parse)| == 4;
      forall i | 0 <= i < |calls| ensures r.results[i] == LegacyResult(reg, calls[i], parse) {
        if i < |pre| {
          assert calls[i] == pre[i];
        }
      }
    }
  }

  /** A round's results are the function calls of the first choice, in
      order, each paired with its own id. */
  lemma RoundResults(reg: RegistryModel.Registry, reply: Completion, parse: string -> Outcome<Json>)
    ensures var calls := FilterFunctionCalls(FirstCalls(reply));
      var r := SequentialRound(reg, FirstCalls(reply), parse);
      |r.results| == |calls| &&
      forall i :: 0 <= i < |calls| ==> r.results[i].toolCallId == calls[i].id && r.results[i] == LegacyResult(reg, calls[i], parse)
  {
    SkipsNonFunction(reg, FirstCalls(reply), parse);
    RoundPairs(reg, FilterFunctionCalls(FirstCalls(reply)), parse);
  }

  // Properties of a run

  /** Two replies with the same first choice, or both without choices. */
  predicate SameFirst(a: Completion, b: Completion) {
    (|a.choices| == 0 <==> |b.choices| == 0) &&
    (|a.choices| > 0 ==> a.choices[0] == b.choices[0])
  }

  /** Only the first choice of each reply matters: two lists of replies
      that agree on their first choices give the same run. */
  lemma {:induction false} FirstChoiceOnly(reg: RegistryModel.Registry, parse: string -> Outcome<Json>,
                                           replies: seq<Completion>, others: seq<Completion>, k: nat)
    requires |replies| == |others| && k < |replies|
    requires forall j :: 0 <= j < |replies| ==> SameFirst(replies[j], others[j])
    decreases |replies| - k
    ensures LegacyFrom(reg, parse, replies, k) == LegacyFrom(reg, parse, others, k)
  {
    FirstChoiceAgrees(replies[k], others[k]);
    if Session.RequiresToolCall(replies[k]) && k + 1 < |replies| {
      FirstChoiceOnly(reg, parse, replies, others, k + 1);
      FirstChoiceAgrees(replies[k + 1], others[k + 1]);
    }
  }

  lemma FirstChoiceAgrees(a: Completion, b: Completion)
    requires SameFirst(a, b)
    ensures Session.RequiresToolCall(a) == Session.RequiresToolCall(b)
    ensures FirstCalls(a) == FirstCalls(b) && FirstContent(a) == FirstContent(b)
  {
  }

  /** `a` ends with `b`. */
  predicate EndsWith(a: seq<Line>, b: seq<Line>) {
    |b| <= |a| && a[|a| - |b|..] == b
  }

  lemma EndsWithAfter(a: seq<Line>, b: seq<Line>, tail: seq<Line>)
    requires EndsWith(b, tail)
    ensures EndsWith(a + b, tail)
  {
    assert (a + b)[|a + b| - |tail|..] == b[|b| - |tail|..];
  }

  /** `LegacyFrom` one reply later. */
  lemma FromNext(reg: RegistryModel.Registry, parse: string -> Outcome<Json>, replies: seq<Completion>, k: nat)
    requires k + 1 < |replies| && Session.RequiresToolCall(replies[k])
    ensures var r := SequentialRound(reg, FirstCalls(replies[k]), parse);
      var rest := LegacyFrom(reg, parse, replies, k + 1);
      LegacyFrom(reg, parse, replies, k) ==
        LegacyRun(rest.completed, r.lines + ContentLines(true, replies[k + 1]) + rest.lines, [r.results] + rest.submitted)
  {
  }

  /** `LegacyFrom` on the reply the run ends with. */
  lemma FromLast(reg: RegistryModel.Registry, parse: string -> Outcome<Json>, replies: seq<Completion>, k: nat)
    requires k < |replies| && !(k + 1 < |replies| && Session.RequiresToolCall(replies[k]))
    ensures var run := LegacyFrom(reg, parse, replies, k);
      run.submitted == [] && (run.completed <==> !Session.RequiresToolCall(replies[k])) &&
      (run.completed ==> run.lines == FinalLines(replies[k]))
  {
  }

  /** The end of a run from reply `k`: with `m` the index of the reply it
      ends on, it completed exactly when reply `m` asks for no tool, and
      otherwise ran out of replies; a completed run's last lines are those
      for reply `m`'s content. */
  lemma {:induction false} LegacyFromShape(reg: RegistryModel.Registry, parse: string -> Outcome<Json>, replies: seq<Completion>, k: nat)
    requires k < |replies|
    decreases |replies| - k
    ensures var run := LegacyFrom(reg, parse, replies, k);
      var m := k + |run.submitted|;
      m < |replies| &&
      (run.completed <==> !Session.RequiresToolCall(replies[m])) &&
      (!run.completed ==> m == |replies| - 1) &&
      (run.completed ==> EndsWith(run.lines, FinalLines(replies[m])))
  {
    var run := LegacyFrom(reg, parse, replies, k);
    if !(k + 1 < |replies| && Session.RequiresToolCall(replies[k])) {
      FromLast(reg, parse, replies, k);
      assert run.lines[|run.lines| - |run.lines|..] == run.lines;
    } else {
      LegacyFromShape(reg, parse, replies, k + 1);
      FromNext(reg, parse, replies, k);
      var rest := LegacyFrom(reg, parse, replies, k + 1);
      var r := SequentialRound(reg, FirstCalls(replies[k]), parse);
      var mid := r.lines + ContentLines(true, replies[k + 1]);
      assert run.lines == mid + rest.lines && |run.submitted| == 1 + |rest.submitted|;
      if rest.completed {
        EndsWithAfter(mid, rest.lines, FinalLines(replies[k + 1 + |rest.submitted|]));
      }
    }
  }

  /** A completed run prints "Agent completed" and the final message last,
      exactly when the last reply's first choice has content. */
  lemma FinalOutput(reg: RegistryModel.Registry, parse: string -> Outcome<Json>, replies: seq<Completion>)
    requires replies != []
    ensures var run := LegacySpec(reg, parse, replies);
      var m := |run.submitted|;
      m < |replies| &&
      (run.completed <==> !Session.RequiresToolCall(replies[m])) &&
      (!run.completed ==> m == |replies| - 1) &&
      (run.completed && FirstContent(replies[m]).Some? ==>
        EndsWith(run.lines, [CompletedLine, FinalMessage(FirstContent(replies[m]).value)]))
  {
    LegacyFromShape(reg, parse, replies, 0);
    var rest := LegacyFrom(reg, parse, replies, 0);
    var head := [StartLine] + ContentLines(false, replies[0]);
    assert LegacySpec(reg, parse, replies) == LegacyRun(rest.completed, head + rest.lines, rest.submitted);
    var last := replies[|rest.submitted|];
    if rest.completed {
      EndsWithAfter(head, rest.lines, FinalLines(last));
      if FirstContent(last).Some? {
        assert FinalLines(last) == [CompletedLine, FinalMessage(FirstContent(last).value)];
      }
    }
  }
}
