/**
 * The tool registry: tools kept by schema name in registration order,
 * listed and advertised to the language model and executed by name.
 */
module Registry {
  import opened Wrappers
  import opened ToolBase
  import opened TimeTools
  import opened Tools

  /**
   * What `execute_tool(name, **params)` does: the call itself may fail to
   * bind (a `TypeError`), the name may be unknown, or the tool runs.
   */
  datatype ExecOutcome = Unbound(message: string) | NotFound(error: string) | Ran(call: Call<ToolData>)

  /**
   * The `TypeError` Python raises when `params` is spread into
   * `execute_tool(self, tool_name, **kwargs)`: a `self` or `tool_name` key
   * clashes with the argument already bound by position.
   */
  function RegistryBindError(params: Params): (r: Option<string>)
    ensures r.None? <==> "self" !in params && "tool_name" !in params
    ensures r.Some? ==>
      ("self" in params && r.value == RegistryClash("self"))
      || ("tool_name" in params && r.value == RegistryClash("tool_name"))
  {
    if "self" in params then Some(RegistryClash("self"))
    else if "tool_name" in params then Some(RegistryClash("tool_name"))
    else None
  }

  function RegistryClash(argument: string): string {
    "ToolRegistry.execute_tool() got multiple values for argument '" + argument + "'"
  }

  /** The tools `_initialize_tools` registers, in its order. */
  const RegisteredKinds: seq<ToolKind> :=
    [CurrentDateTimeTool, CalculateAgeTool, WorkingHoursTool, SearchInternalDocsTool, WebSearchTool]

  /** The next tool to register has a name none of the tools before it has. */
  lemma NextNameIsNew(names: seq<string>, i: nat)
    requires i < |RegisteredKinds| && |names| == i
    requires forall j :: 0 <= j < i ==> names[j] == ToolName(RegisteredKinds[j])
    ensures ToolName(RegisteredKinds[i]) !in names
  {
    forall j | 0 <= j < i
      ensures names[j] != ToolName(RegisteredKinds[i])
    {
      ToolNamesDistinct(RegisteredKinds[j], RegisteredKinds[i]);
    }
  }

  class ToolRegistry {
    /** The dictionary of tools, and its keys in insertion order. */
    var tools: map<string, Tool>
    var names: seq<string>

    /** The key order lists every key once. */
    ghost predicate Consistent()
      reads this
    {
      (forall i, j :: 0 <= i < j < |names| ==> names[i] != names[j])
      && (forall n :: n in tools <==> n in names)
    }

    /**
     * Every registered tool still holds a schema named after its key; this
     * lasts as long as no one replaces a registered tool's schema.
     */
    ghost predicate SchemasIntact()
      reads this, tools.Values
    {
      forall n :: n in tools ==> tools[n].schema.Some? && tools[n].schema.value.name == n
    }

    /**
     * `ToolRegistry()`: registers a new object of each of the five tools,
     * in a fixed order (the five `register_tool` calls are written as one
     * loop over that order).
     */
    constructor()
      ensures Consistent() && SchemasIntact()
      ensures |names| == |RegisteredKinds| && forall i :: 0 <= i < |names| ==> names[i] == ToolName(RegisteredKinds[i])
      ensures forall n :: n in tools ==> fresh(tools[n]) && tools[n].schema == Some(SchemaFor(tools[n].kind))
    {
      tools := map[];
      names := [];
      new;
      for i := 0 to |RegisteredKinds|
        invariant RegisteredFirst(i)
        invariant forall n :: n in tools ==> fresh(tools[n])
      {
        RegisterNext(i);
      }
    }

    /**
     * The registry holds the first `i` tools of the registration order,
     * each under its own name and holding its own schema.
     */
    ghost predicate RegisteredFirst(i: nat)
      reads this, tools.Values
    {
      Consistent() && SchemasIntact()
      && i <= |RegisteredKinds| && |names| == i
      && (forall j :: 0 <= j < i ==> names[j] == ToolName(RegisteredKinds[j]))
      && (forall n :: n in tools ==> tools[n].schema == Some(SchemaFor(tools[n].kind)))
    }

    /** The constructor's `register_tool` call for the `i`-th tool of the registration order. */
    method RegisterNext(i: nat)
      requires i < |RegisteredKinds| && RegisteredFirst(i)
      modifies this
      ensures RegisteredFirst(i + 1)
      ensures forall n :: n in tools ==> (n in old(tools) && tools[n] == old(tools)[n]) || fresh(tools[n])
    {
      NextNameIsNew(names, i);
      var tool := new Tool(RegisteredKinds[i]);
      RegisterTool(tool);
    }

    /**
     * `register_tool`: a tool with a schema is stored under the schema's
     * name, replacing any tool of that name in place; a tool without one is
     * ignored.
     */
    method RegisterTool(tool: Tool)
      requires Consistent()
      modifies this
      ensures Consistent()
      ensures tool.schema.None? ==> tools == old(tools) && names == old(names)
      ensures tool.schema.Some? ==>
        var name := tool.schema.value.name;
        tools == old(tools)[name := tool]
        && names == if name in old(tools) then old(names) else old(names) + [name]
      ensures old(SchemasIntact()) ==> SchemasIntact()
    {
      if tool.schema.Some? {
        var name := tool.schema.value.name;
        if name !in tools {
          names := names + [name];
        }
        tools := tools[name := tool];
      }
    }

    /** `get_tool` */
    function GetTool(name: string): (r: Option<Tool>)
      reads this
      ensures r.Some? <==> name in tools
      ensures r.Some? ==> r.value == tools[name]
    {
      if name in tools then Some(tools[name]) else None
    }

    /** `get_tool_names`: every registered name once, in registration order. */
    function GetToolNames(): (r: seq<string>)
      reads this
      requires Consistent()
      ensures forall n :: n in r <==> n in tools
      ensures forall i, j :: 0 <= i < j < |r| ==> r[i] != r[j]
      ensures r == names
    {
      names
    }

    /** The advertised schemas of the tools named in `ns`, in that order; the first missing schema raises. */
    function SchemasOf(ns: seq<string>): (r: Result<seq<WireSchema>, string>)
      reads this, tools.Values
      requires forall n :: n in ns ==> n in tools
      ensures r.Success? <==> forall i :: 0 <= i < |ns| ==> tools[ns[i]].schema.Some?
      ensures r.Success? ==>
        |r.value| == |ns|
        && forall i :: 0 <= i < |ns| ==> r.value[i] == GetSchema(tools[ns[i]].schema).value
      ensures r.Failure? ==> r.error == SchemaNotDefined
    {
      if |ns| == 0 then Success([])
      else
        match GetSchema(tools[ns[0]].schema)
        case Failure(e) => Failure(e)
        case Success(w) =>
          match SchemasOf(ns[1..])
          case Failure(e) => Failure(e)
          case Success(ws) => Success([w] + ws)
    }

    /** `get_all_schemas`: one advertised schema per tool, in registration order. */
    function GetAllSchemas(): (r: Result<seq<WireSchema>, string>)
      reads this, tools.Values
      requires Consistent()
      ensures SchemasIntact() ==>
        (r.Success? && |r.value| == |names|
         && forall i :: 0 <= i < |names| ==> r.value[i].fn.name == names[i])
    {
      SchemasOf(names)
    }

    /**
     * `execute_tool(name, **params)`: parameters that clash with the
     * method's own arguments raise before anything is looked up; otherwise
     * an unknown name is reported in the result, and a known one runs that
     * tool with its current schema.
     */
    method ExecuteTool(name: string, params: Params, clock: Clock) returns (r: ExecOutcome)
      requires clock.Valid()
      ensures RegistryBindError(params).Some? ==> r == Unbound(RegistryBindError(params).value)
      ensures RegistryBindError(params).None? && name !in tools ==> r == NotFound("Tool '" + name + "' not found")
      ensures RegistryBindError(params).None? && name in tools ==>
        r == Ran(ExecuteSpec(tools[name].kind, tools[name].schema, params, clock))
    {
      var clash := RegistryBindError(params);
      if clash.Some? {
        return Unbound(clash.value);
      }
      var tool := GetTool(name);
      if tool.None? {
        return NotFound("Tool '" + name + "' not found");
      }
      var c := tool.value.Execute(params, clock);
      return Ran(c);
    }

    /** A tool run through the registry answers under the name it was asked for. */
    lemma AnswersUnderRequestedName(name: string, params: Params, clock: Clock)
      requires clock.Valid() && SchemasIntact() && name in tools
      ensures var c := ExecuteSpec(tools[name].kind, tools[name].schema, params, clock);
        c.Returned? ==> c.result.toolName == name
    {
      EnvelopeCarriesSchemaName(tools[name].kind, tools[name].schema, params, clock);
    }
  }
}
