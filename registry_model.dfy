/** The value a `ToolRegistry` holds, and what its operations do to it.

    Both registries of the system (libraries/openai-session/src/tool-registry.ts
    and src/ai/tool-registry.ts) keep two JavaScript `Map`s keyed by tool name,
    always set together. A `Map` remembers the order in which keys were first
    inserted and keeps a key's place when it is set again; `order` is that key
    order.
 */
module RegistryModel {

  import opened Wrappers
  import opened Strings
  import opened Seqs
  import opened Json
  import opened Chat

  datatype Registry = Registry(
    order: seq<string>,
    tools: map<string, ToolDefinition>,
    functions: map<string, Handler>)

  const Empty := Registry([], map[], map[])

  /** The two maps have the same keys, and `order` lists each key once. */
  ghost predicate Valid(r: Registry) {
    Distinct(r.order) &&
    (forall n :: n in r.tools <==> n in r.order) &&
    (forall n :: n in r.functions <==> n in r.order)
  }

  function NameOf(tool: OpenAITool): string {
    tool.definition.name
  }

  /** `register(tool)`: both maps are set under the definition's name. */
  function Register(r: Registry, tool: OpenAITool): Registry {
    var name := NameOf(tool);
    Registry(
      if name in r.order then r.order else r.order + [name],
      r.tools[name := tool.definition],
      r.functions[name := tool.handler])
  }

  /** Registering each tool of `ts` in turn, from left to right. */
  function RegisterEach(r: Registry, ts: seq<OpenAITool>): Registry {
    if ts == [] then r else Register(RegisterEach(r, ts[..|ts| - 1]), ts[|ts| - 1])
  }

  function Names(ts: seq<OpenAITool>): (names: seq<string>)
    ensures |names| == |ts| && forall i :: 0 <= i < |ts| ==> names[i] == NameOf(ts[i])
  {
    if ts == [] then [] else Names(ts[..|ts| - 1]) + [NameOf(ts[|ts| - 1])]
  }

  /** `[...this.tools.values()]`: the definitions in key order. */
  function Definitions(r: Registry): (defs: seq<ToolDefinition>)
    requires Valid(r)
    ensures |defs| == |r.order|
    ensures forall i :: 0 <= i < |r.order| ==> defs[i] == r.tools[r.order[i]]
  {
    seq(|r.order|, i requires 0 <= i < |r.order| => r.tools[r.order[i]])
  }

  /** `has(name)` */
  predicate Has(r: Registry, name: string) {
    name in r.functions
  }

  function NotFound(name: string): Thrown {
    ErrorObject("Tool not found: " + name)
  }

  /** `execute(name, argsJson)`: an unknown name fails before the arguments
      are parsed; otherwise the parsed arguments go to the handler, whose
      failure propagates. The library registry trims the handler's text
      (`trimResult`); the older one returns it unchanged. */
  function Execute(r: Registry, name: string, argsJson: string, parse: string -> Outcome<Json>,
                   trimResult: bool): Outcome<string>
  {
    if name !in r.functions then Threw(NotFound(name))
    else match parse(argsJson)
      case Threw(e) => Threw(e)
      case Returned(args) =>
        match r.functions[name](args)
        case Threw(e) => Threw(e)
        case Returned(text) => Returned(if trimResult then Trim(text) else text)
  }

  // Properties of registration

  lemma EmptyValid()
    ensures Valid(Empty)
  {
  }

  /** After `register(tool)` the name is present with the new definition and
      handler, every other name is untouched, and the name keeps its place
      in the order or is appended. */
  lemma RegisterEffect(r: Registry, tool: OpenAITool)
    requires Valid(r)
    ensures var r' := Register(r, tool);
      Valid(r') && Has(r', NameOf(tool)) &&
      r'.tools[NameOf(tool)] == tool.definition &&
      r'.functions[NameOf(tool)] == tool.handler &&
      (forall n :: n != NameOf(tool) ==> (n in r'.tools <==> n in r.tools)) &&
      (forall n :: n != NameOf(tool) && n in r.tools ==> r'.tools[n] == r.tools[n] && r'.functions[n] == r.functions[n]) &&
      r'.order == (if NameOf(tool) in r.order then r.order else r.order + [NameOf(tool)])
  {
    var name := NameOf(tool);
    var r' := Register(r, tool);
    if name !in r.order {
      forall i, j | 0 <= i < j < |r'.order| ensures r'.order[i] != r'.order[j] {
        if j == |r.order| {
          assert r'.order[i] == r.order[i];
        }
      }
    }
  }

  lemma {:induction false} RegisterEachValid(r: Registry, ts: seq<OpenAITool>)
    requires Valid(r)
    ensures Valid(RegisterEach(r, ts))
  {
    if ts != [] {
      RegisterEachValid(r, ts[..|ts| - 1]);
      RegisterEffect(RegisterEach(r, ts[..|ts| - 1]), ts[|ts| - 1]);
    }
  }

  /** A registry built from `ts` has exactly the names of `ts`. */
  lemma {:induction false} RegisterEachHas(ts: seq<OpenAITool>, name: string)
    ensures Has(RegisterEach(Empty, ts), name) <==> name in Names(ts)
    ensures name in RegisterEach(Empty, ts).order <==> name in Names(ts)
  {
    EmptyValid();
    if ts != [] {
      var pre := ts[..|ts| - 1];
      RegisterEachHas(pre, name);
      RegisterEachValid(Empty, pre);
      RegisterEffect(RegisterEach(Empty, pre), ts[|ts| - 1]);
      assert Names(ts) == Names(pre) + [NameOf(ts[|ts| - 1])];
    }
  }

  /** Tools are listed once per distinct name, in order of first
      registration. */
  lemma {:induction false} RegisterEachOrder(ts: seq<OpenAITool>)
    ensures RegisterEach(Empty, ts).order == Dedup(Names(ts))
  {
    if ts != [] {
      var pre := ts[..|ts| - 1];
      var t := ts[|ts| - 1];
      RegisterEachOrder(pre);
      RegisterEachHas(pre, NameOf(t));
      assert Names(ts) == Names(pre) + [NameOf(t)];
      DedupAppend(Names(pre), NameOf(t));
    }
  }

  /** Registering one more tool. */
  lemma RegisterEachSnoc(r: Registry, ts: seq<OpenAITool>, t: OpenAITool)
    ensures RegisterEach(r, ts + [t]) == Register(RegisterEach(r, ts), t)
  {
    assert (ts + [t])[..|ts|] == ts;
  }

  /** Registering `a` and then `b` is registering `a + b`. */
  lemma {:induction false} RegisterEachAppend(r: Registry, a: seq<OpenAITool>, b: seq<OpenAITool>)
    ensures RegisterEach(r, a + b) == RegisterEach(RegisterEach(r, a), b)
  {
    if b == [] {
      assert a + b == a;
    } else {
      RegisterEachAppend(r, a, b[..|b| - 1]);
      assert (a + b)[..|a + b| - 1] == a + b[..|b| - 1];
    }
  }

  /** Registration never reorders or drops names: the earlier order is a
      prefix of the later one. */
  lemma {:induction false} RegisterEachExtendsOrder(r: Registry, ts: seq<OpenAITool>)
    ensures r.order <= RegisterEach(r, ts).order
  {
    if ts != [] {
      RegisterEachExtendsOrder(r, ts[..|ts| - 1]);
    }
  }

  /** The names of `a + b` are those of `a`, then those of `b`. */
  lemma NamesAppend(a: seq<OpenAITool>, b: seq<OpenAITool>)
    ensures Names(a + b) == Names(a) + Names(b)
  {
  }

  /** `getToolDefinitions()` has one entry per distinct name. */
  lemma DefinitionsCount(ts: seq<OpenAITool>)
    ensures Valid(RegisterEach(Empty, ts))
    ensures |Definitions(RegisterEach(Empty, ts))| == |Elements(Names(ts))|
  {
    EmptyValid();
    RegisterEachValid(Empty, ts);
    RegisterEachOrder(ts);
    DedupCardinality(Names(ts));
  }

  /** The entry kept under a name is the one registered last under it. */
  lemma {:induction false} LastRegistrationWins(ts: seq<OpenAITool>, k: nat)
    requires k < |ts|
    requires forall j :: k < j < |ts| ==> NameOf(ts[j]) != NameOf(ts[k])
    ensures var r := RegisterEach(Empty, ts);
      NameOf(ts[k]) in r.tools && r.tools[NameOf(ts[k])] == ts[k].definition &&
      NameOf(ts[k]) in r.functions && r.functions[NameOf(ts[k])] == ts[k].handler
  {
    var pre := ts[..|ts| - 1];
    if k < |ts| - 1 {
      LastRegistrationWins(pre, k);
    }
  }

  // Properties of execution

  /** An unknown name fails with "Tool not found", whatever the arguments,
      the parser or the handlers would do. */
  lemma ExecuteUnknown(r: Registry, name: string, argsJson: string, parse: string -> Outcome<Json>, trimResult: bool)
    requires !Has(r, name)
    ensures Execute(r, name, argsJson, parse, trimResult) == Threw(ErrorObject("Tool not found: " + name))
  {
  }

  /** A registered name runs its handler on the parsed arguments; a parse
      failure or handler failure is passed on unchanged. */
  lemma ExecuteKnown(r: Registry, name: string, argsJson: string, parse: string -> Outcome<Json>, trimResult: bool)
    requires Has(r, name)
    ensures parse(argsJson).Threw? ==> Execute(r, name, argsJson, parse, trimResult) == Threw(parse(argsJson).error)
    ensures parse(argsJson).Returned? && r.functions[name](parse(argsJson).value).Threw? ==>
      Execute(r, name, argsJson, parse, trimResult) == Threw(r.functions[name](parse(argsJson).value).error)
    ensures parse(argsJson).Returned? && r.functions[name](parse(argsJson).value).Returned? ==>
      var text := r.functions[name](parse(argsJson).value).value;
      Execute(r, name, argsJson, parse, trimResult) == Returned(if trimResult then Trim(text) else text)
  {
  }

  /** The library registry never returns text with surrounding whitespace. */
  lemma ExecuteTrimmed(r: Registry, name: string, argsJson: string, parse: string -> Outcome<Json>)
    requires Execute(r, name, argsJson, parse, true).Returned?
    ensures NoOuterWhitespace(Execute(r, name, argsJson, parse, true).value)
  {
    var text := r.functions[name](parse(argsJson).value).value;
    TrimNoOuterWhitespace(text);
  }
}
