/** The older `ToolRegistry` of src/ai/tool-registry.ts: definition and
    handler are registered as two arguments, and `execute` returns the
    handler's text as it is.
 */
module AiToolRegistry {

  import opened Wrappers
  import opened Json
  import opened Chat
  import RegistryModel

  class ToolRegistry {
    var order: seq<string>
    var tools: map<string, ToolDefinition>
    var functions: map<string, Handler>

    function State(): RegistryModel.Registry
      reads this
    {
      RegistryModel.Registry(order, tools, functions)
    }

    ghost predicate Valid()
      reads this
    {
      RegistryModel.Valid(State())
    }

    constructor ()
      ensures Valid() && State() == RegistryModel.Empty
    {
      order, tools, functions := [], map[], map[];
    }

    /** `register(definition, fn)` */
    method Register(definition: ToolDefinition, fn: Handler)
      requires Valid()
      modifies this
      ensures Valid()
      ensures State() == RegistryModel.Register(old(State()), OpenAITool(definition, fn))
    {
      RegistryModel.RegisterEffect(State(), OpenAITool(definition, fn));
      var name := definition.name;
      if name !in order {
        order := order + [name];
      }
      tools := tools[name := definition];
      functions := functions[name := fn];
    }

    /** `execute(name, argsJson)`: no trimming. */
    method Execute(name: string, argsJson: string, parse: string -> Outcome<Json>) returns (outcome: Outcome<string>)
      ensures outcome == RegistryModel.Execute(State(), name, argsJson, parse, false)
      ensures name !in functions ==> outcome == Threw(ErrorObject("Tool not found: " + name))
      ensures name in functions && parse(argsJson).Returned? ==> outcome == functions[name](parse(argsJson).value)
    {
      if name !in functions {
        return Threw(ErrorObject("Tool not found: " + name));
      }
      var fn := functions[name];
      var parsed := parse(argsJson);
      if parsed.Threw? {
        return Threw(parsed.error);
      }
      outcome := fn(parsed.value);
    }

    /** `getToolDefinitions()` */
    method GetToolDefinitions() returns (defs: seq<ToolDefinition>)
      requires Valid()
      ensures defs == RegistryModel.Definitions(State())
    {
      var names, definitions := order, tools;
      assert forall i :: 0 <= i < |names| ==> names[i] in definitions;
      defs := seq(|names|, i requires 0 <= i < |names| => definitions[names[i]]);
    }

    /** `has(name)` */
    method Has(name: string) returns (present: bool)
      ensures present <==> RegistryModel.Has(State(), name)
    {
      present := name in functions;
    }
  }
}
