/**
 * The common shape of every tool: its schema, the schema as advertised to
 * the language model, the check that required parameters were supplied and
 * the result envelope every tool returns.
 */
module ToolBase {
  import opened Wrappers

  /**
   * A value passed to or returned from a tool. `VOther` stands for any
   * other Python object, known only by its type name and truthiness.
   */
  datatype Value = VNull | VBool(b: bool) | VInt(i: int) | VStr(s: string) | VOther(typeName: string, truthy: bool) {
    predicate Truthy() {
      match this
      case VNull => false
      case VBool(b) => b
      case VInt(i) => i != 0
      case VStr(s) => |s| > 0
      case VOther(_, t) => t
    }

    function TypeName(): string {
      match this
      case VNull => "NoneType"
      case VBool(_) => "bool"
      case VInt(_) => "int"
      case VStr(_) => "str"
      case VOther(n, _) => n
    }
  }

  /** Keyword arguments of a tool call. */
  type Params = map<string, Value>

  datatype ToolCategory = Time | Search | Validation | Hospital | Notification | Medical {
    function Value(): string {
      match this
      case Time => "time"
      case Search => "search"
      case Validation => "validation"
      case Hospital => "hospital"
      case Notification => "notification"
      case Medical => "medical"
    }
  }

  /** One entry of a schema's `parameters` object, under its key `name`. */
  datatype ParamSpec = ParamSpec(name: string, kind: string, description: string, default: Option<Value>)

  datatype ToolSchema = ToolSchema(
    name: string,
    displayName: string,
    description: string,
    category: ToolCategory,
    parameters: seq<ParamSpec>,
    requiredParams: seq<string>,
    returnType: string,
    examples: seq<Params>)

  /** The schema in the function-calling format handed to the language model. */
  datatype WireParameters = WireParameters(kind: string, properties: seq<ParamSpec>, required: seq<string>)
  datatype WireFunction = WireFunction(name: string, description: string, parameters: WireParameters)
  datatype WireSchema = WireSchema(kind: string, fn: WireFunction)

  const SchemaNotDefined := "Schema not defined"

  /** `get_schema`: a tool without a schema raises instead of advertising one. */
  function GetSchema(schema: Option<ToolSchema>): (r: Result<WireSchema, string>)
    ensures r.Failure? <==> schema.None?
    ensures r.Failure? ==> r.error == SchemaNotDefined
    ensures r.Success? ==>
      r.value.kind == "function" && r.value.fn.parameters.kind == "object"
      && r.value.fn.name == schema.value.name
      && r.value.fn.description == schema.value.description
      && r.value.fn.parameters.properties == schema.value.parameters
      && r.value.fn.parameters.required == schema.value.requiredParams
  {
    match schema
    case None => Failure(SchemaNotDefined)
    case Some(s) =>
      Success(WireSchema("function",
        WireFunction(s.name, s.description, WireParameters("object", s.parameters, s.requiredParams))))
  }

  /** The outcome of `validate_params`: a boolean, or the `ValueError` it raises. */
  datatype Validation = Validated(ok: bool) | MissingParameter(message: string)

  /** The first required name, in schema order, that was not supplied. */
  function FirstMissing(required: seq<string>, supplied: set<string>): Option<string> {
    if |required| == 0 then None
    else if required[0] !in supplied then Some(required[0])
    else FirstMissing(required[1..], supplied)
  }

  /**
   * `FirstMissing` finds the earliest required name that is absent, and
   * finds nothing exactly when every required name is present.
   */
  lemma {:induction false} FirstMissingSpec(required: seq<string>, supplied: set<string>)
    ensures FirstMissing(required, supplied).None? <==> forall i :: 0 <= i < |required| ==> required[i] in supplied
    ensures FirstMissing(required, supplied).Some? ==>
      exists i :: 0 <= i < |required| && required[i] == FirstMissing(required, supplied).value
        && required[i] !in supplied && forall j :: 0 <= j < i ==> required[j] in supplied
  {
    if |required| > 0 && required[0] in supplied {
      var rest := required[1..];
      FirstMissingSpec(rest, supplied);
      assert forall i :: 1 <= i < |required| ==> required[i] == rest[i - 1];
      if FirstMissing(rest, supplied).Some? {
        var k :| 0 <= k < |rest| && rest[k] == FirstMissing(rest, supplied).value
          && rest[k] !in supplied && forall j :: 0 <= j < k ==> rest[j] in supplied;
        assert required[k + 1] == rest[k];
      }
    } else if |required| > 0 {
      assert required[0] !in supplied;
    }
  }

  function MissingMessage(name: string): string {
    "Missing required parameter: " + name
  }

  /** What `validate_params` does for a tool whose schema is `schema`. */
  function ValidationOf(schema: Option<ToolSchema>, supplied: set<string>): Validation {
    match schema
    case None => Validated(false)
    case Some(s) =>
      match FirstMissing(s.requiredParams, supplied)
      case Some(name) => MissingParameter(MissingMessage(name))
      case None => Validated(true)
  }

  /**
   * `validate_params`: false without a schema, otherwise the first
   * required name missing from the call is reported, otherwise true.
   */
  method ValidateParams(schema: Option<ToolSchema>, supplied: set<string>) returns (v: Validation)
    ensures v == ValidationOf(schema, supplied)
    ensures v == Validated(true) <==> schema.Some? && forall r :: r in schema.value.requiredParams ==> r in supplied
  {
    if schema.None? {
      return Validated(false);
    }
    var required := schema.value.requiredParams;
    FirstMissingSpec(required, supplied);
    var i := 0;
    while i < |required|
      invariant 0 <= i <= |required|
      invariant forall j :: 0 <= j < i ==> required[j] in supplied
      invariant FirstMissing(required, supplied) == FirstMissing(required[i..], supplied)
    {
      assert required[i..][1..] == required[i + 1..];
      if required[i] !in supplied {
        return MissingParameter(MissingMessage(required[i]));
      }
      i := i + 1;
    }
    return Validated(true);
  }

  /**
   * A call supplying every name the advertised schema lists as required
   * passes validation, and a call that leaves one out is refused.
   */
  lemma AdvertisedRequirementsSuffice(schema: ToolSchema, supplied: set<string>)
    ensures var wire := GetSchema(Some(schema)).value;
      ValidationOf(Some(schema), supplied) == Validated(true)
      <==> forall i :: 0 <= i < |wire.fn.parameters.required| ==> wire.fn.parameters.required[i] in supplied
  {
    var wire := GetSchema(Some(schema)).value;
    assert wire.fn.parameters.required == schema.requiredParams;
    FirstMissingSpec(schema.requiredParams, supplied);
    if ValidationOf(Some(schema), supplied) == Validated(true) {
      assert FirstMissing(schema.requiredParams, supplied).None?;
    }
  }

  /** The dictionary every tool returns. */
  datatype ToolResult<D> = ToolResult(success: bool, data: Option<D>, error: Option<string>, toolName: string)

  /** `format_result`: the envelope carries the tool's schema name, or `unknown` without a schema. */
  function FormatResult<D>(schema: Option<ToolSchema>, success: bool, data: Option<D>, error: Option<string>)
    : (r: ToolResult<D>)
    ensures r.success == success && r.data == data && r.error == error
    ensures schema.Some? ==> r.toolName == schema.value.name
    ensures schema.None? ==> r.toolName == "unknown"
  {
    ToolResult(success, data, error, if schema.Some? then schema.value.name else "unknown")
  }

  function Succeeded<D>(schema: Option<ToolSchema>, data: D): ToolResult<D> {
    FormatResult(schema, true, Some(data), None)
  }

  function Failed<D>(schema: Option<ToolSchema>, message: string): ToolResult<D> {
    FormatResult(schema, false, None, Some(message))
  }

  /** Calling `execute(**params)`: either the argument binding raises `TypeError`, or the tool returns. */
  datatype Call<D> = Raised(message: string) | Returned(result: ToolResult<D>)

  /**
   * The `TypeError` Python raises when binding keyword arguments to
   * `execute(self, <positional>, ...)`: a `self` key clashes with the bound
   * instance, and the one required positional parameter must be present.
   */
  function BindError(qualifiedName: string, params: Params, positional: Option<string>): (r: Option<string>)
    ensures r.None? <==> "self" !in params && (positional.Some? ==> positional.value in params)
  {
    if "self" in params then Some(qualifiedName + "() got multiple values for argument 'self'")
    else if positional.Some? && positional.value !in params then
      Some(qualifiedName + "() missing 1 required positional argument: '" + positional.value + "'")
    else None
  }

  /** A keyword argument, or the parameter's default when the call leaves it out. */
  function Arg(params: Params, name: string, default: Value): Value {
    if name in params then params[name] else default
  }
}
