/** `ToolRegistry` of libraries/openai-session/src/tool-registry.ts: tools are
    registered as definition-and-handler bundles, and `execute` trims what a
    handler returns.
 */
module OpenAISessionRegistry {

  import opened Wrappers
  import opened Strings
  import opened Json
  import opened Chat
  import RegistryModel

  class ToolRegistry {
    var order: seq<string>
    var tools: map<string, ToolDefinition>
    var functions: map<string, Handler>

    function State(): RegistryModel.Registry
      reads this
    {
      RegistryModel.Registry(order, tools, functions)
    }

    ghost predicate Valid()
      reads this
    {
      RegistryModel.Valid(State())
    }

    constructor ()
      ensures Valid() && State() == RegistryModel.Empty
    {
      order, tools, functions := [], map[], map[];
    }

    /** `register(tool)` */
    method Register(tool: OpenAITool)
      requires Valid()
      modifies this
      ensures Valid()
      ensures State() == RegistryModel.Register(old(State()), tool)
    {
      RegistryModel.RegisterEffect(State(), tool);
      var name := tool.definition.name;
      if name !in order {
        order := order + [name];
      }
      tools := tools[name := tool.definition];
      functions := functions[name := tool.handler];
    }

    /** `registerAll(tools)`: the same as registering each in turn. */
    method RegisterAll(ts: seq<OpenAITool>)
      requires Valid()
      modifies this
      ensures Valid()
      ensures State() == RegistryModel.RegisterEach(old(State()), ts)
    {
      for i := 0 to |ts|
        invariant Valid()
        invariant State() == RegistryModel.RegisterEach(old(State()), ts[..i])
      {
        assert ts[..i + 1][..i] == ts[..i];
        Register(ts[i]);
      }
      assert ts[..|ts|] == ts;
    }

    /** `execute(name, argsJson)`, with `parse` standing for `JSON.parse`.
        It reads the registry and changes nothing. */
    method Execute(name: string, argsJson: string, parse: string -> Outcome<Json>) returns (outcome: Outcome<string>)
      ensures outcome == RegistryModel.Execute(State(), name, argsJson, parse, true)
      ensures name !in functions ==> outcome == Threw(ErrorObject("Tool not found: " + name))
      ensures outcome.Returned? ==> NoOuterWhitespace(outcome.value)
    {
      if name !in functions {
        return Threw(ErrorObject("Tool not found: " + name));
      }
      var fn := functions[name];
      var parsed := parse(argsJson);
      if parsed.Threw? {
        return Threw(parsed.error);
      }
      var result := fn(parsed.value);
      if result.Threw? {
        return Threw(result.error);
      }
      TrimNoOuterWhitespace(result.value);
      outcome := Returned(Trim(result.value));
    }

    /** `getToolDefinitions()`: a fresh list of the definitions in first
        registration order. */
    method GetToolDefinitions() returns (defs: seq<ToolDefinition>)
      requires Valid()
      ensures defs == RegistryModel.Definitions(State())
    {
      var names, definitions := order, tools;
      assert forall i :: 0 <= i < |names| ==> names[i] in definitions;
      defs := seq(|names|, i requires 0 <= i < |names| => definitions[names[i]]);
    }

    /** `has(name)` */
    method Has(name: string) returns (present: bool)
      ensures present <==> RegistryModel.Has(State(), name)
    {
      present := name in functions;
    }
  }
}
