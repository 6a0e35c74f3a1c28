/** `extractContent` and `extractToolCalls` (libraries/agent/src/helpers.ts):
    the text and the function tool calls of every choice of a reply, in
    choice order.
 */
module AgentHelpers {

  import opened Wrappers
  import opened Chat

  /** The non-empty contents of `choices`, in order: `map(content)` then
      `filter(!!content)`, which drops null and the empty string. */
  function ContentsOf(choices: seq<Choice>): (r: seq<string>)
    ensures |r| <= |choices|
    ensures forall i :: 0 <= i < |r| ==> r[i] != ""
  {
    if choices == [] then []
    else
      var c := choices[0].message.content;
      (if c.Some? && c.value != "" then [c.value] else []) + ContentsOf(choices[1..])
  }

  /** The function calls among a choice's tool calls; none when the choice
      has no `tool_calls`. */
  function FunctionCallsOf(calls: Option<seq<ToolCall>>): (r: seq<ToolCall>)
    ensures forall i :: 0 <= i < |r| ==> r[i].FunctionCall?
  {
    match calls
    case None => []
    case Some(cs) => FilterFunctionCalls(cs)
  }

  function FilterFunctionCalls(cs: seq<ToolCall>): (r: seq<ToolCall>)
    ensures |r| <= |cs|
    ensures forall i :: 0 <= i < |r| ==> r[i].FunctionCall?
    ensures forall x :: x in r <==> x in cs && x.FunctionCall?
  {
    if cs == [] then []
    else (if cs[0].FunctionCall? then [cs[0]] else []) + FilterFunctionCalls(cs[1..])
  }

  /** `flatMap` over the choices. */
  function ToolCallsOf(choices: seq<Choice>): (r: seq<ToolCall>)
    ensures forall i :: 0 <= i < |r| ==> r[i].FunctionCall?
  {
    if choices == [] then []
    else FunctionCallsOf(choices[0].message.toolCalls) + ToolCallsOf(choices[1..])
  }

  /** `extractContent(response)` */
  function ExtractContent(response: Completion): (r: seq<string>)
    ensures |r| <= |response.choices|
    ensures forall i :: 0 <= i < |r| ==> r[i] != ""
  {
    ContentsOf(response.choices)
  }

  /** `extractToolCalls(response)` */
  function ExtractToolCalls(response: Completion): (r: seq<ToolCall>)
    ensures forall i :: 0 <= i < |r| ==> r[i].FunctionCall?
    ensures response.choices == [] ==> r == []
  {
    ToolCallsOf(response.choices)
  }

  /** Contents keep choice order: the contents of two runs of choices are
      the contents of the first followed by those of the second. */
  lemma {:induction false} ContentsOfAppend(a: seq<Choice>, b: seq<Choice>)
    ensures ContentsOf(a + b) == ContentsOf(a) + ContentsOf(b)
  {
    if a == [] {
      assert a + b == b;
    } else {
      assert (a + b)[0] == a[0];
      assert (a + b)[1..] == a[1..] + b;
      ContentsOfAppend(a[1..], b);
    }
  }

  /** A text is extracted exactly when some choice carries it as non-empty
      content. */
  lemma {:induction false} ContentsOfMember(choices: seq<Choice>, s: string)
    ensures s in ContentsOf(choices) <==>
      s != "" && exists i :: 0 <= i < |choices| && choices[i].message.content == Some(s)
  {
    if choices != [] {
      ContentsOfMember(choices[1..], s);
      if s != "" && choices[0].message.content != Some(s) {
        if exists i :: 0 <= i < |choices| && choices[i].message.content == Some(s) {
          var i :| 0 <= i < |choices| && choices[i].message.content == Some(s);
          assert choices[1..][i - 1] == choices[i];
        }
      }
      if s in ContentsOf(choices[1..]) {
        var i :| 0 <= i < |choices[1..]| && choices[1..][i].message.content == Some(s);
        assert choices[i + 1] == choices[1..][i];
      }
    }
  }

  /** Tool calls keep choice order, then call order within a choice. */
  lemma {:induction false} ToolCallsOfAppend(a: seq<Choice>, b: seq<Choice>)
    ensures ToolCallsOf(a + b) == ToolCallsOf(a) + ToolCallsOf(b)
  {
    if a == [] {
      assert a + b == b;
    } else {
      assert (a + b)[0] == a[0];
      assert (a + b)[1..] == a[1..] + b;
      ToolCallsOfAppend(a[1..], b);
    }
  }

  /** A choice without `tool_calls`, or with only custom calls, contributes
      nothing. */
  lemma NoFunctionCallsContributeNothing(choice: Choice)
    requires choice.message.toolCalls.None? ||
      forall i :: 0 <= i < |choice.message.toolCalls.value| ==> !choice.message.toolCalls.value[i].FunctionCall?
    ensures ToolCallsOf([choice]) == []
  {
    if choice.message.toolCalls.Some? {
      NoFunctionCallsFiltered(choice.message.toolCalls.value);
    }
    assert FunctionCallsOf(choice.message.toolCalls) == [];
    assert [choice][1..] == [];
  }

  lemma {:induction false} NoFunctionCallsFiltered(cs: seq<ToolCall>)
    requires forall i :: 0 <= i < |cs| ==> !cs[i].FunctionCall?
    ensures FilterFunctionCalls(cs) == []
  {
    if cs != [] {
      NoFunctionCallsFiltered(cs[1..]);
    }
  }

  /** `x` is one of the tool calls `choice` carries. */
  predicate Carries(choice: Choice, x: ToolCall) {
    choice.message.toolCalls.Some? && x in choice.message.toolCalls.value
  }

  /** A call is extracted exactly when it is a function call of some
      choice. */
  lemma {:induction false} ToolCallsOfMember(choices: seq<Choice>, x: ToolCall)
    ensures x in ToolCallsOf(choices) <==>
      x.FunctionCall? && exists i :: 0 <= i < |choices| && Carries(choices[i], x)
  {
    if choices != [] {
      ToolCallsOfMember(choices[1..], x);
      if x in ToolCallsOf(choices[1..]) {
        var i :| 0 <= i < |choices[1..]| && Carries(choices[1..][i], x);
        assert choices[i + 1] == choices[1..][i];
      }
      if x.FunctionCall? && !Carries(choices[0], x) {
        if exists i :: 0 <= i < |choices| && Carries(choices[i], x) {
          var i :| 0 <= i < |choices| && Carries(choices[i], x);
          assert choices[1..][i - 1] == choices[i];
        }
      }
    }
  }
}
