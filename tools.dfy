/**
 * A tool object: which of the five tools it is and its schema, which the
 * object sets up itself and which anyone holding the object may replace.
 * Calling a tool binds the keyword arguments to its `execute` signature
 * and runs the tool's body against the schema it holds at that moment.
 */
module Tools {
  import opened Wrappers
  import opened ToolBase
  import opened TimeTools
  import opened SearchTools

  datatype ToolKind = CurrentDateTimeTool | CalculateAgeTool | WorkingHoursTool | SearchInternalDocsTool | WebSearchTool

  /** The name each tool registers under. */
  function ToolName(kind: ToolKind): string {
    match kind
    case CurrentDateTimeTool => "get_current_datetime"
    case CalculateAgeTool => "calculate_age"
    case WorkingHoursTool => "get_working_hours"
    case SearchInternalDocsTool => "search_internal_docs"
    case WebSearchTool => "web_search"
  }

  /** Different tools register under different names. */
  lemma ToolNamesDistinct(k1: ToolKind, k2: ToolKind)
    ensures k1 != k2 ==> ToolName(k1) != ToolName(k2)
  {
  }

  /** The schema each tool's `_setup_schema` installs. */
  function SchemaFor(kind: ToolKind): (s: ToolSchema)
    ensures s.name == ToolName(kind)
  {
    match kind
    case CurrentDateTimeTool => DateTimeSchema
    case CalculateAgeTool => CalculateAgeSchema
    case WorkingHoursTool => WorkingHoursSchema
    case SearchInternalDocsTool => SearchDocsSchema
    case WebSearchTool => WebSearchSchema
  }

  /** The qualified name of `execute`, as Python's binding errors print it. */
  function ExecuteName(kind: ToolKind): string {
    match kind
    case CurrentDateTimeTool => "GetCurrentDateTimeTool.execute"
    case CalculateAgeTool => "CalculateAgeTool.execute"
    case WorkingHoursTool => "GetWorkingHoursTool.execute"
    case SearchInternalDocsTool => "SearchInternalDocsTool.execute"
    case WebSearchTool => "WebSearchTool.execute"
  }

  /** The parameter of `execute` that has no default. */
  function Positional(kind: ToolKind): Option<string> {
    match kind
    case CurrentDateTimeTool => None
    case CalculateAgeTool => Some("birthdate")
    case WorkingHoursTool => Some("department")
    case SearchInternalDocsTool => Some("query")
    case WebSearchTool => Some("query")
  }

  /** The data a tool returns, whichever tool it is. */
  datatype ToolData =
    | DateTimeOut(dateTime: DateTimeData)
    | AgeOut(age: AgeData)
    | HoursOut(department: Department)
    | DocsOut(docs: SearchData)
    | WebOut(web: WebData)

  function Lift<D>(r: ToolResult<D>, wrap: D -> ToolData): (l: ToolResult<ToolData>)
    ensures l.success == r.success && l.error == r.error && l.toolName == r.toolName
    ensures l.data.Some? <==> r.data.Some?
  {
    ToolResult(r.success, if r.data.Some? then Some(wrap(r.data.value)) else None, r.error, r.toolName)
  }

  /** `await tool.execute(**params)` for a tool of kind `kind` currently holding `schema`. */
  function ExecuteSpec(kind: ToolKind, schema: Option<ToolSchema>, params: Params, clock: Clock): Call<ToolData>
    requires clock.Valid()
  {
    match BindError(ExecuteName(kind), params, Positional(kind))
    case Some(message) => Raised(message)
    case None =>
      match kind
      case CurrentDateTimeTool =>
        Returned(Lift(CurrentDateTime(schema, Arg(params, "timezone", VStr("UTC")), clock), d => DateTimeOut(d)))
      case CalculateAgeTool =>
        Returned(Lift(CalculateAgeResult(schema, params["birthdate"], Arg(params, "reference_date", VNull), clock), d => AgeOut(d)))
      case WorkingHoursTool =>
        Returned(Lift(WorkingHours(schema, params["department"]), d => HoursOut(d)))
      case SearchInternalDocsTool =>
        Returned(Lift(SearchInternalDocs(schema, params["query"], Arg(params, "doc_type", VStr("all")), Arg(params, "limit", VInt(5))),
          d => DocsOut(d)))
      case WebSearchTool =>
        Returned(Lift(WebSearch(schema, params["query"], Arg(params, "source_filter", VStr("all"))), d => WebOut(d)))
  }

  /**
   * For a tool holding its own schema, the signature agrees with the
   * advertised schema: a call raises exactly when it passes `self` or
   * leaves out an advertised required parameter, otherwise the tool
   * returns an envelope under its own name.
   */
  lemma SignatureMatchesSchema(kind: ToolKind, params: Params, clock: Clock)
    requires clock.Valid()
    ensures var c := ExecuteSpec(kind, Some(SchemaFor(kind)), params, clock);
      (c.Raised? <==> "self" in params || exists r :: r in SchemaFor(kind).requiredParams && r !in params)
      && (c.Returned? ==> c.result.toolName == SchemaFor(kind).name)
  {
    BindingMatchesSchema(kind, params);
    RaisesOnlyWhenBinding(kind, Some(SchemaFor(kind)), params, clock);
    EnvelopeCarriesSchemaName(kind, Some(SchemaFor(kind)), params, clock);
  }

  /** Binding fails exactly when `self` is passed or a parameter the schema requires is missing. */
  lemma BindingMatchesSchema(kind: ToolKind, params: Params)
    ensures BindError(ExecuteName(kind), params, Positional(kind)).Some?
      <==> "self" in params || exists r :: r in SchemaFor(kind).requiredParams && r !in params
  {
    RequiredIsPositional(kind);
    if Positional(kind).Some? {
      assert Positional(kind).value in SchemaFor(kind).requiredParams;
    }
  }

  /** Each schema requires exactly the one parameter of `execute` that has no default. */
  lemma RequiredIsPositional(kind: ToolKind)
    ensures SchemaFor(kind).requiredParams == if Positional(kind).Some? then [Positional(kind).value] else []
  {
  }

  /** A call raises exactly when binding the keyword arguments fails; the tool bodies themselves never raise. */
  lemma RaisesOnlyWhenBinding(kind: ToolKind, schema: Option<ToolSchema>, params: Params, clock: Clock)
    requires clock.Valid()
    ensures ExecuteSpec(kind, schema, params, clock).Raised? <==> BindError(ExecuteName(kind), params, Positional(kind)).Some?
  {
  }

  /** Whatever schema a tool holds, its envelope is stamped with that schema's name. */
  lemma EnvelopeCarriesSchemaName(kind: ToolKind, schema: Option<ToolSchema>, params: Params, clock: Clock)
    requires clock.Valid()
    ensures var c := ExecuteSpec(kind, schema, params, clock);
      c.Returned? ==> c.result.toolName == if schema.Some? then schema.value.name else "unknown"
  {
  }

  class Tool {
    const kind: ToolKind
    var schema: Option<ToolSchema>

    /** `BaseTool.__init__`: the schema starts unset and `_setup_schema` fills it in. */
    constructor(kind: ToolKind)
      ensures this.kind == kind && schema == Some(SchemaFor(kind))
      ensures schema.value.name == ToolName(kind)
    {
      this.kind := kind;
      schema := None;
      new;
      SetupSchema();
    }

    /** `_setup_schema` */
    method SetupSchema()
      modifies this
      ensures schema == Some(SchemaFor(kind))
    {
      schema := Some(SchemaFor(kind));
    }

    /** `execute(**params)`, the age tool running its own step-by-step body. */
    method Execute(params: Params, clock: Clock) returns (c: Call<ToolData>)
      requires clock.Valid()
      ensures c == ExecuteSpec(kind, schema, params, clock)
    {
      var bind := BindError(ExecuteName(kind), params, Positional(kind));
      if bind.Some? {
        return Raised(bind.value);
      }
      if kind == CalculateAgeTool {
        var r := ExecuteCalculateAge(schema, params["birthdate"], Arg(params, "reference_date", VNull), clock);
        return Returned(Lift(r, d => AgeOut(d)));
      }
      return ExecuteSpec(kind, schema, params, clock);
    }
  }
}
