/**
 * The request and response records of the HTTP API and the closed set of
 * user roles. Field validation done by the schema library is modelled by
 * the `Make…` functions: they apply the defaults and length limits and
 * report every violated field.
 */
module Models {
  import opened Wrappers

  /** The four roles a question can be asked under; `Value` is the wire text. */
  datatype UserRole = Doctor | Receptionist | Billing | General {
    function Value(): string {
      match this
      case Doctor => "doctor"
      case Receptionist => "receptionist"
      case Billing => "billing"
      case General => "general"
    }
  }

  /** Reading a role from its wire text, as `UserRole(s)` does; unknown text is refused. */
  function ParseRole(s: string): (r: Option<UserRole>)
    ensures r.Some? ==> r.value.Value() == s
  {
    if s == "doctor" then Some(Doctor)
    else if s == "receptionist" then Some(Receptionist)
    else if s == "billing" then Some(Billing)
    else if s == "general" then Some(General)
    else None
  }

  /** Every role reads back from its own wire text, so the wire texts are distinct. */
  lemma ParseRoleRoundTrip(r: UserRole)
    ensures ParseRole(r.Value()) == Some(r)
  {
  }

  datatype HealthCheckResponse = HealthCheckResponse(
    status: string, version: string, vectorDbStatus: string, documentCount: int)

  datatype IngestRequest = IngestRequest(forceReindex: bool)

  function MakeIngestRequest(forceReindex: Option<bool>): (r: IngestRequest)
    ensures r.forceReindex <==> forceReindex == Some(true)
  {
    IngestRequest(forceReindex.GetOr(false))
  }

  datatype IngestResponse = IngestResponse(
    success: bool, message: string, documentsProcessed: int, chunksCreated: int, timeTaken: real)

  /** One retrieved chunk as reported to the client; the relevance score is kept in hundredths. */
  datatype DocumentSource = DocumentSource(
    filename: string, chunkIndex: int, relevanceHundredths: int, contentPreview: string)

  datatype QueryRequest = QueryRequest(question: string, userRole: UserRole, includeSources: bool)

  const QuestionMinLength := 3
  const QuestionMaxLength := 500

  /** A field of a request body that failed validation. */
  datatype FieldError = QuestionTooShort | QuestionTooLong | UnknownRole(text: string)

  function QuestionErrors(question: string): seq<FieldError> {
    if |question| < QuestionMinLength then [QuestionTooShort]
    else if |question| > QuestionMaxLength then [QuestionTooLong]
    else []
  }

  function RoleErrors(role: Option<string>): seq<FieldError> {
    if role.Some? && ParseRole(role.value).None? then [UnknownRole(role.value)] else []
  }

  /**
   * Validating a query body: the question must have 3 to 500 characters,
   * the role (default `general`) must be one of the four, and sources are
   * included unless the client says otherwise.
   */
  function MakeQueryRequest(question: string, userRole: Option<string>, includeSources: Option<bool>)
    : (r: Result<QueryRequest, seq<FieldError>>)
    ensures r.Success? <==>
      QuestionMinLength <= |question| <= QuestionMaxLength
      && (userRole.None? || ParseRole(userRole.value).Some?)
    ensures r.Success? ==>
      r.value.question == question
      && (userRole.None? ==> r.value.userRole == General)
      && (userRole.Some? ==> r.value.userRole.Value() == userRole.value)
      && (r.value.includeSources <==> includeSources != Some(false))
    ensures r.Failure? ==>
      (|r.error| > 0
       && (QuestionTooShort in r.error <==> |question| < QuestionMinLength)
       && (QuestionTooLong in r.error <==> |question| > QuestionMaxLength))
  {
    var errors := QuestionErrors(question) + RoleErrors(userRole);
    if |errors| > 0 then Failure(errors)
    else
      var role := if userRole.Some? then ParseRole(userRole.value).value else General;
      Success(QueryRequest(question, role, includeSources.GetOr(true)))
  }

  datatype QueryResponse = QueryResponse(
    question: string, answer: string, sources: seq<DocumentSource>, userRole: string,
    disclaimer: string, processingTime: real, toolsUsed: seq<string>)

  /**
   * Building a query response: `sources` and `tools_used` default to empty
   * lists when left out, every other field is required and kept as given.
   */
  function MakeQueryResponse(question: string, answer: string, sources: Option<seq<DocumentSource>>,
                             userRole: string, disclaimer: string, processingTime: real,
                             toolsUsed: Option<seq<string>>): (r: QueryResponse)
    ensures r.question == question && r.answer == answer && r.userRole == userRole
    ensures r.disclaimer == disclaimer && r.processingTime == processingTime
    ensures sources.None? ==> r.sources == []
    ensures sources.Some? ==> r.sources == sources.value
    ensures toolsUsed.None? ==> r.toolsUsed == []
    ensures toolsUsed.Some? ==> r.toolsUsed == toolsUsed.value
  {
    QueryResponse(question, answer, sources.GetOr([]), userRole, disclaimer, processingTime, toolsUsed.GetOr([]))
  }

  /** An error body: a title, an optional detail (absent by default) and the ISO time of the error. */
  datatype ErrorResponse = ErrorResponse(error: string, detail: Option<string>, timestamp: string)
}
