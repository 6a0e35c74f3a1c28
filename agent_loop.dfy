/** `runAgent` of libraries/agent/src/agent.ts: one chat call, then rounds of
    tool execution as long as the reply asks for tools, then the joined text
    of the last reply.

    The endpoint's replies are the sequence `replies`: `replies[0]` answers
    the first `chat`, `replies[k]` the k-th `submitToolResults`. A run that
    needs more replies than there are ends as `RepliesExhausted`. The
    callbacks are recorded as a sequence of events: in a round, every
    `onToolStart` in call order, then the end and error callbacks, also
    taken in call order.
 */
module Agent {

  import opened Wrappers
  import opened Strings
  import opened Json
  import opened Chat
  import opened AgentHelpers
  import RegistryModel
  import Session
  import OpenAISessionRegistry

  /** Callback invocations: `onToolStart`, `onToolEnd`, `onToolError`,
      `onContent`. */
  datatype Event =
    | ToolStart(name: string, id: string, args: string)
    | ToolEnd(name: string, id: string, result: string)
    | ToolError(name: string, id: string, error: string)
    | ContentOut(text: string)

  datatype RunResult = Completed(content: string) | RepliesExhausted

  /** What a run produces: its result, the callbacks fired, and the result
      lists submitted, one per round. */
  datatype Run = Run(result: RunResult, events: seq<Event>, submitted: seq<seq<ToolResult>>)

  /** The outcome of executing one call through the registry. */
  function CallOutcome(reg: RegistryModel.Registry, call: ToolCall, parse: string -> Outcome<Json>): Outcome<string>
    requires call.FunctionCall?
  {
    RegistryModel.Execute(reg, call.name, call.arguments, parse, true)
  }

  /** The result for one call: the tool's output, or `{"error": message}`
      when execution threw. */
  function CallResult(reg: RegistryModel.Registry, call: ToolCall, parse: string -> Outcome<Json>): (r: ToolResult)
    requires call.FunctionCall?
    ensures r.toolCallId == call.id
    ensures CallOutcome(reg, call, parse).Returned? ==> r.content == CallOutcome(reg, call, parse).value
    ensures CallOutcome(reg, call, parse).Threw? ==>
      r.content == ErrorEnvelope(ErrorText(CallOutcome(reg, call, parse).error))
  {
    match CallOutcome(reg, call, parse)
    case Returned(output) => ToolResult(call.id, output)
    case Threw(e) => ToolResult(call.id, ErrorEnvelope(ErrorText(e)))
  }

  /** `onToolEnd` with the output, or `onToolError` with the message. */
  function EndEvent(reg: RegistryModel.Registry, call: ToolCall, parse: string -> Outcome<Json>): (e: Event)
    requires call.FunctionCall?
    ensures e.ToolEnd? <==> CallOutcome(reg, call, parse).Returned?
    ensures e.ToolEnd? ==> e == ToolEnd(call.name, call.id, CallOutcome(reg, call, parse).value)
    ensures e.ToolError? ==> e == ToolError(call.name, call.id, ErrorText(CallOutcome(reg, call, parse).error))
  {
    match CallOutcome(reg, call, parse)
    case Returned(output) => ToolEnd(call.name, call.id, output)
    case Threw(e) => ToolError(call.name, call.id, ErrorText(e))
  }

  predicate AllFunctionCalls(calls: seq<ToolCall>) {
    forall i :: 0 <= i < |calls| ==> calls[i].FunctionCall?
  }

  /** `Promise.all(toolCalls.map(...))`: one result per call, in call order. */
  function RoundResults(reg: RegistryModel.Registry, calls: seq<ToolCall>, parse: string -> Outcome<Json>): (rs: seq<ToolResult>)
    requires AllFunctionCalls(calls)
    ensures |rs| == |calls|
    ensures forall i :: 0 <= i < |calls| ==> rs[i] == CallResult(reg, calls[i], parse)
  {
    if calls == [] then [] else [CallResult(reg, calls[0], parse)] + RoundResults(reg, calls[1..], parse)
  }

  /** The `onToolStart` callbacks of a round. Each call's async body runs
      up to its first `await` when `map` reaches it, so every start fires,
      in call order, before any call ends. */
  function Starts(calls: seq<ToolCall>): (ev: seq<Event>)
    requires AllFunctionCalls(calls)
    ensures |ev| == |calls|
    ensures forall i :: 0 <= i < |calls| ==> ev[i] == ToolStart(calls[i].name, calls[i].id, calls[i].arguments)
  {
    if calls == [] then [] else [ToolStart(calls[0].name, calls[0].id, calls[0].arguments)] + Starts(calls[1..])
  }

  /** The `onToolEnd`/`onToolError` callbacks of a round, exactly one per
      call, taken in call order (the order in which the calls complete is
      not modelled). */
  function Ends(reg: RegistryModel.Registry, calls: seq<ToolCall>, parse: string -> Outcome<Json>): (ev: seq<Event>)
    requires AllFunctionCalls(calls)
    ensures |ev| == |calls|
    ensures forall i :: 0 <= i < |calls| ==> ev[i] == EndEvent(reg, calls[i], parse)
  {
    if calls == [] then [] else [EndEvent(reg, calls[0], parse)] + Ends(reg, calls[1..], parse)
  }

  /** The callbacks of one round: all starts, then the ends. */
  function RoundEvents(reg: RegistryModel.Registry, calls: seq<ToolCall>, parse: string -> Outcome<Json>): seq<Event>
    requires AllFunctionCalls(calls)
  {
    Starts(calls) + Ends(reg, calls, parse)
  }

  function ContentEvents(texts: seq<string>): (ev: seq<Event>)
    ensures |ev| == |texts| && forall i :: 0 <= i < |texts| ==> ev[i] == ContentOut(texts[i])
  {
    if texts == [] then [] else [ContentOut(texts[0])] + ContentEvents(texts[1..])
  }

  /** What one round does with a reply that asks for tools: the results it
      submits and the callbacks it fires. */
  datatype Round = Round(results: seq<ToolResult>, events: seq<Event>)

  /** The round of `runAgent`: every function call of the reply goes through
      the registry. */
  function ToolRound(reg: RegistryModel.Registry, parse: string -> Outcome<Json>): Completion -> Round {
    reply => Round(RoundResults(reg, ExtractToolCalls(reply), parse), RoundEvents(reg, ExtractToolCalls(reply), parse))
  }

  /** The run from the moment reply `k` has been received and its content
      reported, each round done by `round`. */
  function RunFrom(round: Completion -> Round, replies: seq<Completion>, k: nat): Run
    requires k < |replies|
    decreases |replies| - k
  {
    var reply := replies[k];
    if !Session.RequiresToolCall(reply) then
      Run(Completed(Join(ExtractContent(reply), "\n")), [], [])
    else
      var r := round(reply);
      if k + 1 == |replies| then Run(RepliesExhausted, r.events, [])
      else
        var rest := RunFrom(round, replies, k + 1);
        Run(rest.result, r.events + ContentEvents(ExtractContent(replies[k + 1])) + rest.events, [r.results] + rest.submitted)
  }

  /** The whole run: the first reply's content, then the run from it. */
  function RunWith(round: Completion -> Round, replies: seq<Completion>): Run {
    if replies == [] then Run(RepliesExhausted, [], [])
    else
      var rest := RunFrom(round, replies, 0);
      Run(rest.result, ContentEvents(ExtractContent(replies[0])) + rest.events, rest.submitted)
  }

  /** The run of `runAgent` with the registry `reg`. */
  function RunSpec(reg: RegistryModel.Registry, parse: string -> Outcome<Json>, replies: seq<Completion>): Run {
    RunWith(ToolRound(reg, parse), replies)
  }

  /** The run so far, `events` and `submitted`, followed by the run from
      reply `k`, is the whole run `total`. */
  predicate RunSoFar(round: Completion -> Round, replies: seq<Completion>,
                     k: nat, events: seq<Event>, submitted: seq<seq<ToolResult>>, total: Run)
    requires k < |replies|
  {
    var rest := RunFrom(round, replies, k);
    total == Run(rest.result, events + rest.events, submitted + rest.submitted)
  }

  lemma RoundStep(round: Completion -> Round, replies: seq<Completion>,
                  k: nat, events: seq<Event>, submitted: seq<seq<ToolResult>>, total: Run)
    requires k + 1 < |replies| && Session.RequiresToolCall(replies[k])
    requires RunSoFar(round, replies, k, events, submitted, total)
    ensures var r := round(replies[k]);
      RunSoFar(round, replies, k + 1,
               events + r.events + ContentEvents(ExtractContent(replies[k + 1])),
               submitted + [r.results], total)
  {
    var r := round(replies[k]);
    RunFromRound(round, replies, k);
    var rest := RunFrom(round, replies, k + 1);
    Associate(events, r.events + ContentEvents(ExtractContent(replies[k + 1])), rest.events);
    Associate(submitted, [r.results], rest.submitted);
  }

  /** One round of the run: the round's callbacks, the next reply's
      content, then the rest. */
  lemma RunFromRound(round: Completion -> Round, replies: seq<Completion>, k: nat)
    requires k + 1 < |replies| && Session.RequiresToolCall(replies[k])
    ensures var rest := RunFrom(round, replies, k + 1);
      var r := round(replies[k]);
      RunFrom(round, replies, k) ==
        Run(rest.result, r.events + ContentEvents(ExtractContent(replies[k + 1])) + rest.events,
            [r.results] + rest.submitted)
  {
  }

  lemma ToolRoundOf(reg: RegistryModel.Registry, parse: string -> Outcome<Json>, reply: Completion)
    ensures var calls := ExtractToolCalls(reply);
      ToolRound(reg, parse)(reply) == Round(RoundResults(reg, calls, parse), RoundEvents(reg, calls, parse))
  {
  }

  lemma Associate<T>(a: seq<T>, b: seq<T>, c: seq<T>)
    ensures a + (b + c) == (a + b) + c
  {
  }

  /** `runAgent(options, userPrompt)` with `parse` standing for `JSON.parse`. */
  method RunAgent(registry: OpenAISessionRegistry.ToolRegistry, model: string, systemPrompt: string,
                  userPrompt: string, replies: seq<Completion>, parse: string -> Outcome<Json>)
    returns (run: Run)
    requires registry.Valid()
    ensures run == RunSpec(registry.State(), parse, replies)
  {
    var reg := registry.State();
    var defs := registry.GetToolDefinitions();
    var session := new Session.Session(Session.SessionOptions(Some(model), Some(systemPrompt), Some(defs)), None);
    if replies == [] {
      return Run(RepliesExhausted, [], []);
    }
    ghost var round := ToolRound(reg, parse);
    ghost var total := RunWith(round, replies);
    var response, request := session.Chat(userPrompt, replies[0]);
    var events := ContentEvents(ExtractContent(response));
    var submitted: seq<seq<ToolResult>> := [];
    var k := 0;
    while Session.RequiresToolCall(response)
      invariant 0 <= k < |replies| && response == replies[k]
      invariant RunSoFar(round, replies, k, events, submitted, total)
      decreases |replies| - k
    {
      var calls := ExtractToolCalls(response);
      var results := RoundResults(reg, calls, parse);
      var callbacks := RoundEvents(reg, calls, parse);
      ToolRoundOf(reg, parse, response);
      if k + 1 == |replies| {
        return Run(RepliesExhausted, events + callbacks, submitted);
      }
      RoundStep(round, replies, k, events, submitted, total);
      events := events + callbacks;
      response, request := session.SubmitToolResults(results, replies[k + 1]);
      k := k + 1;
      submitted := submitted + [results];
      events := events + ContentEvents(ExtractContent(response));
    }
    run := Run(Completed(Join(ExtractContent(response), "\n")), events, submitted);
  }

  // Properties of a run

  /** A first reply that asks for no tool ends the run at once: no round
      runs, nothing is submitted, and the result is that reply's text joined
      with newlines. */
  lemma FirstReplyWithoutTools(round: Completion -> Round, replies: seq<Completion>)
    requires replies != [] && !Session.RequiresToolCall(replies[0])
    ensures var run := RunWith(round, replies);
      run.result == Completed(Join(ExtractContent(replies[0]), "\n")) &&
      run.submitted == [] &&
      run.events == ContentEvents(ExtractContent(replies[0]))
  {
  }

  /** Every call's start fires before any call's end or error; then each
      call fires exactly one of its end with the output or its error with
      the message. */
  lemma RoundEventsShape(reg: RegistryModel.Registry, calls: seq<ToolCall>, parse: string -> Outcome<Json>)
    requires AllFunctionCalls(calls)
    ensures var ev := RoundEvents(reg, calls, parse);
      |ev| == 2 * |calls| &&
      (forall i :: 0 <= i < |calls| ==> ev[i] == ToolStart(calls[i].name, calls[i].id, calls[i].arguments)) &&
      (forall i :: 0 <= i < |calls| ==> ev[|calls| + i] == EndEvent(reg, calls[i], parse))
  {
  }

  /** The index of the reply a run from reply `k` ends on. */
  function LastReply(run: Run, k: nat): nat {
    k + |run.submitted|
  }

  /** Replies `k` to `k + n - 1` all asked for tools. */
  predicate AskTools(replies: seq<Completion>, k: nat, n: nat)
    requires k + n <= |replies|
    decreases n
  {
    n == 0 || (Session.RequiresToolCall(replies[k]) && AskTools(replies, k + 1, n - 1))
  }

  /** The results `round` submits for replies `k` to `k + n - 1`, in order. */
  function Rounds(round: Completion -> Round, replies: seq<Completion>, k: nat, n: nat): (r: seq<seq<ToolResult>>)
    requires k + n <= |replies|
    decreases n
    ensures |r| == n
  {
    if n == 0 then [] else [round(replies[k]).results] + Rounds(round, replies, k + 1, n - 1)
  }

  /** The shape of a run from reply `k`: with `m` the index of its last
      reply, every reply from `k` to `m - 1` asked for tools and led to one
      submission of that round's results; the run completed exactly when
      reply `m` asks for no tool, and then its result is `m`'s joined text;
      otherwise the replies ran out. */
  lemma {:induction false} RunFromShape(round: Completion -> Round, replies: seq<Completion>, k: nat)
    requires k < |replies|
    decreases |replies| - k
    ensures var run := RunFrom(round, replies, k);
      LastReply(run, k) < |replies| &&
      AskTools(replies, k, |run.submitted|) &&
      run.submitted == Rounds(round, replies, k, |run.submitted|) &&
      (run.result.Completed? <==> !Session.RequiresToolCall(replies[LastReply(run, k)])) &&
      (run.result.Completed? ==> run.result.content == Join(ExtractContent(replies[LastReply(run, k)]), "\n")) &&
      (run.result.RepliesExhausted? ==> LastReply(run, k) == |replies| - 1)
  {
    if Session.RequiresToolCall(replies[k]) && k + 1 < |replies| {
      RunFromShape(round, replies, k + 1);
      RunFromRound(round, replies, k);
    }
  }

  /** The shape of a whole run: the same, counted from the first reply. */
  lemma RunShape(round: Completion -> Round, replies: seq<Completion>)
    requires replies != []
    ensures var run := RunWith(round, replies);
      LastReply(run, 0) < |replies| &&
      AskTools(replies, 0, |run.submitted|) &&
      run.submitted == Rounds(round, replies, 0, |run.submitted|) &&
      (run.result.Completed? <==> !Session.RequiresToolCall(replies[LastReply(run, 0)])) &&
      (run.result.Completed? ==> run.result.content == Join(ExtractContent(replies[LastReply(run, 0)]), "\n")) &&
      (run.result.RepliesExhausted? ==> LastReply(run, 0) == |replies| - 1)
  {
    RunFromShape(round, replies, 0);
  }

  /** Read pointwise: the `j`-th submission is the round of reply `k + j`. */
  lemma {:induction false} RoundsAt(round: Completion -> Round, replies: seq<Completion>, k: nat, n: nat, j: nat)
    requires k + n <= |replies| && j < n
    decreases n
    ensures Rounds(round, replies, k, n)[j] == round(replies[k + j]).results
  {
    if j > 0 {
      RoundsAt(round, replies, k + 1, n - 1, j - 1);
    }
  }

  /** Every reply from `k` to `k + n - 1` asked for tools. */
  lemma {:induction false} AskToolsAt(replies: seq<Completion>, k: nat, n: nat, j: nat)
    requires k + n <= |replies| && j < n
    requires AskTools(replies, k, n)
    decreases n
    ensures Session.RequiresToolCall(replies[k + j])
  {
    if j > 0 {
      AskToolsAt(replies, k + 1, n - 1, j - 1);
    }
  }

  /** With the registry's round, the `j`-th submission holds one result per
      function call of reply `j`, in call order. */
  lemma SubmittedResults(reg: RegistryModel.Registry, parse: string -> Outcome<Json>, replies: seq<Completion>, j: nat)
    requires replies != [] && j < |RunSpec(reg, parse, replies).submitted|
    ensures j < |replies|
    ensures var calls := ExtractToolCalls(replies[j]);
      var results := RunSpec(reg, parse, replies).submitted[j];
      Session.RequiresToolCall(replies[j]) &&
      |results| == |calls| &&
      forall i :: 0 <= i < |calls| ==> results[i] == CallResult(reg, calls[i], parse)
  {
    var round := ToolRound(reg, parse);
    var run := RunWith(round, replies);
    RunShape(round, replies);
    RoundsAt(round, replies, 0, |run.submitted|, j);
    AskToolsAt(replies, 0, |run.submitted|, j);
  }

  /** The texts passed to `onContent`, in order. */
  function Texts(ev: seq<Event>): seq<string> {
    if ev == [] then []
    else (if ev[0].ContentOut? then [ev[0].text] else []) + Texts(ev[1..])
  }

  lemma {:induction false} TextsAppend(a: seq<Event>, b: seq<Event>)
    ensures Texts(a + b) == Texts(a) + Texts(b)
  {
    if a == [] {
      assert a + b == b;
    } else {
      assert (a + b)[0] == a[0];
      assert (a + b)[1..] == a[1..] + b;
      TextsAppend(a[1..], b);
    }
  }

  lemma {:induction false} TextsOfContent(texts: seq<string>)
    ensures Texts(ContentEvents(texts)) == texts
  {
    if texts != [] {
      TextsOfContent(texts[1..]);
    }
  }

  lemma {:induction false} TextsOfStarts(calls: seq<ToolCall>)
    requires AllFunctionCalls(calls)
    ensures Texts(Starts(calls)) == []
  {
    if calls != [] {
      TextsOfStarts(calls[1..]);
      var ev := Starts(calls);
      assert ev[1..] == Starts(calls[1..]);
    }
  }

  lemma {:induction false} TextsOfEnds(reg: RegistryModel.Registry, calls: seq<ToolCall>, parse: string -> Outcome<Json>)
    requires AllFunctionCalls(calls)
    ensures Texts(Ends(reg, calls, parse)) == []
  {
    if calls != [] {
      TextsOfEnds(reg, calls[1..], parse);
      var ev := Ends(reg, calls, parse);
      assert ev[1..] == Ends(reg, calls[1..], parse);
    }
  }

  lemma TextsOfRound(reg: RegistryModel.Registry, calls: seq<ToolCall>, parse: string -> Outcome<Json>)
    requires AllFunctionCalls(calls)
    ensures Texts(RoundEvents(reg, calls, parse)) == []
  {
    TextsOfStarts(calls);
    TextsOfEnds(reg, calls, parse);
    TextsAppend(Starts(calls), Ends(reg, calls, parse));
  }

  /** A round that reports no content of its own. */
  ghost predicate Silent(round: Completion -> Round) {
    forall reply :: Texts(round(reply).events) == []
  }

  lemma ToolRoundSilent(reg: RegistryModel.Registry, parse: string -> Outcome<Json>)
    ensures Silent(ToolRound(reg, parse))
  {
    forall reply ensures Texts(ToolRound(reg, parse)(reply).events) == [] {
      TextsOfRound(reg, ExtractToolCalls(reply), parse);
    }
  }

  /** The contents of replies `lo` to `hi - 1`, concatenated. */
  function ContentsBetween(replies: seq<Completion>, lo: nat, hi: nat): seq<string>
    requires hi <= |replies|
    decreases hi - lo
  {
    if lo >= hi then [] else ExtractContent(replies[lo]) + ContentsBetween(replies, lo + 1, hi)
  }

  lemma {:induction false} RunFromTexts(round: Completion -> Round, replies: seq<Completion>, k: nat)
    requires k < |replies| && Silent(round)
    decreases |replies| - k
    ensures var run := RunFrom(round, replies, k);
      LastReply(run, k) < |replies| &&
      Texts(run.events) == ContentsBetween(replies, k + 1, LastReply(run, k) + 1)
  {
    LastReplyBound(round, replies, k);
    var run := RunFrom(round, replies, k);
    if !Session.RequiresToolCall(replies[k]) || k + 1 == |replies| {
      LastRoundTexts(round, replies, k);
    } else {
      var r := round(replies[k]);
      RunFromTexts(round, replies, k + 1);
      RunFromRound(round, replies, k);
      var rest := RunFrom(round, replies, k + 1);
      var m := LastReply(rest, k + 1);
      assert LastReply(run, k) == m;
      var events := r.events + ContentEvents(ExtractContent(replies[k + 1])) + rest.events;
      assert run.events == events;
      TextsStep(replies, k, m, r.events, rest.events);
    }
  }

  /** A run that ends at reply `k` reports no further text. */
  lemma LastRoundTexts(round: Completion -> Round, replies: seq<Completion>, k: nat)
    requires k < |replies| && Silent(round)
    requires !Session.RequiresToolCall(replies[k]) || k + 1 == |replies|
    ensures var run := RunFrom(round, replies, k);
      LastReply(run, k) == k && Texts(run.events) == []
  {
  }

  lemma {:induction false} LastReplyBound(round: Completion -> Round, replies: seq<Completion>, k: nat)
    requires k < |replies|
    decreases |replies| - k
    ensures LastReply(RunFrom(round, replies, k), k) < |replies|
  {
    if Session.RequiresToolCall(replies[k]) && k + 1 < |replies| {
      LastReplyBound(round, replies, k + 1);
      RunFromRound(round, replies, k);
    }
  }

  lemma TextsStep(replies: seq<Completion>, k: nat, m: nat, round: seq<Event>, rest: seq<Event>)
    requires k + 1 <= m < |replies|
    requires Texts(round) == []
    requires Texts(rest) == ContentsBetween(replies, k + 1 + 1, m + 1)
    ensures Texts(round + ContentEvents(ExtractContent(replies[k + 1])) + rest) == ContentsBetween(replies, k + 1, m + 1)
  {
    RoundTexts(round, ExtractContent(replies[k + 1]), rest);
  }

  lemma RoundTexts(round: seq<Event>, content: seq<string>, rest: seq<Event>)
    requires Texts(round) == []
    ensures Texts(round + ContentEvents(content) + rest) == content + Texts(rest)
  {
    TextsAppend(round + ContentEvents(content), rest);
    TextsAppend(round, ContentEvents(content));
    TextsOfContent(content);
  }

  /** `onContent` receives every content item of every reply received, in
      reply order and then choice order; the rounds report none. */
  lemma ContentCallbacks(reg: RegistryModel.Registry, parse: string -> Outcome<Json>, replies: seq<Completion>)
    requires replies != []
    ensures var run := RunSpec(reg, parse, replies);
      |run.submitted| < |replies| &&
      Texts(run.events) == ContentsBetween(replies, 0, |run.submitted| + 1)
  {
    var round := ToolRound(reg, parse);
    ToolRoundSilent(reg, parse);
    RunFromTexts(round, replies, 0);
    var rest := RunFrom(round, replies, 0);
    TextsAppend(ContentEvents(ExtractContent(replies[0])), rest.events);
    TextsOfContent(ExtractContent(replies[0]));
  }

  /** A reply that asks for tools without any function call still leads to
      one submission, of no results. */
  lemma EmptyRoundStillSubmits(reg: RegistryModel.Registry, parse: string -> Outcome<Json>, replies: seq<Completion>, k: nat)
    requires k + 1 < |replies| && Session.RequiresToolCall(replies[k]) && ExtractToolCalls(replies[k]) == []
    ensures RunFrom(ToolRound(reg, parse), replies, k).submitted[0] == []
  {
    RunFromRound(ToolRound(reg, parse), replies, k);
  }
}
