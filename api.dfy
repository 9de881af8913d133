/**
 * The decisions the HTTP endpoints make: which status a request ends in and
 * what the response body says, given the document count, the outcome of the
 * pipeline the endpoint calls, and the tool registry.
 */
module Api {
  import opened Wrappers
  import opened Models
  import opened ToolBase
  import opened TimeTools
  import opened Tools
  import Config
  import DocumentProcessor
  import Registry

  /** An `HTTPException`: status code and detail text. */
  datatype HttpError = HttpError(statusCode: int, detail: string)

  const BadRequest := 400
  const NotFoundStatus := 404
  const InternalError := 500

  /**
   * The body of the 500 the application-wide handler sends for an
   * exception no endpoint caught: the exception's text is shown only in
   * debug mode. The current time arrives as its ISO text.
   */
  function UnhandledErrorBody(settings: Config.Settings, message: string, now: string): (r: ErrorResponse)
    ensures r.error == "Internal server error" && r.timestamp == now
    ensures settings.debugMode ==> r.detail == Some(message)
    ensures !settings.debugMode ==> r.detail == Some("An error occurred")
  {
    ErrorResponse("Internal server error", if settings.debugMode then Some(message) else Some("An error occurred"), now)
  }

  /** With the default settings an unhandled exception never reveals its text. */
  lemma DefaultErrorBodyHidesMessage(gemini: Option<string>, openai: Option<string>, message: string, now: string)
    ensures UnhandledErrorBody(Config.DefaultSettings(gemini, openai), message, now).detail == Some("An error occurred")
  {
  }

  /** `/health`: the store is "healthy" once it holds a chunk, "empty" before. */
  function HealthCheck(settings: Config.Settings, docCount: nat): (r: HealthCheckResponse)
    ensures r.status == "healthy" && r.version == settings.appVersion && r.documentCount == docCount
    ensures r.vectorDbStatus == (if docCount > 0 then "healthy" else "empty")
  {
    HealthCheckResponse("healthy", settings.appVersion, if docCount > 0 then "healthy" else "empty", docCount)
  }

  const IngestedMessage := "Documents ingested successfully"
  const NothingNewMessage := "No new documents to ingest"

  /**
   * `/ingest`: a normal return is reported as success; a missing directory
   * is a 404, a load error a 400, and anything else a 500.
   */
  function IngestEndpoint(outcome: Result<(nat, nat, real), DocumentProcessor.Fault>)
    : (r: Result<IngestResponse, HttpError>)
    ensures r.Success? <==> outcome.Success?
    ensures r.Success? ==>
      r.value.success && r.value.documentsProcessed == outcome.value.0
      && r.value.chunksCreated == outcome.value.1 && r.value.timeTaken == outcome.value.2
      && r.value.message == (if outcome.value.0 > 0 then IngestedMessage else NothingNewMessage)
    ensures r.Failure? ==>
      (r.error.statusCode == NotFoundStatus <==> outcome.error.kind == DocumentProcessor.FileNotFound)
      && (r.error.statusCode == BadRequest <==> outcome.error.kind == DocumentProcessor.ValueErr)
      && (r.error.statusCode == InternalError <==> outcome.error.kind == DocumentProcessor.RuntimeErr)
    ensures r.Failure? && outcome.error.kind != DocumentProcessor.RuntimeErr ==> r.error.detail == outcome.error.message
    ensures r.Failure? && outcome.error.kind == DocumentProcessor.RuntimeErr ==>
      r.error.detail == "Document ingestion failed: " + outcome.error.message
  {
    match outcome
    case Success((docs, chunks, elapsed)) =>
      Success(IngestResponse(true, if docs > 0 then IngestedMessage else NothingNewMessage, docs, chunks, elapsed))
    case Failure(f) =>
      match f.kind
      case FileNotFound => Failure(HttpError(NotFoundStatus, f.message))
      case ValueErr => Failure(HttpError(BadRequest, f.message))
      case RuntimeErr => Failure(HttpError(InternalError, "Document ingestion failed: " + f.message))
  }

  /**
   * Through the ingestion pipeline: "ingested successfully" is reported
   * exactly when the pipeline wrote to the store, "nothing new" exactly when
   * the re-ingest guard held, and the only failures are 404 and 400 for load
   * errors and 500 for a store that refused the chunks.
   */
  lemma IngestEndpointOnPipeline(forceReindex: bool, existing: Option<nat>, path: string,
                                 dir: DocumentProcessor.DirectoryState,
                                 splitter: seq<DocumentProcessor.Document> -> seq<DocumentProcessor.Document>,
                                 writeFailure: Option<string>, elapsed: real)
    ensures var r := IngestEndpoint(DocumentProcessor.IngestResult(forceReindex, existing, path, dir, splitter,
                                                                   writeFailure, elapsed));
      ((r.Success? && r.value.message == IngestedMessage) <==>
         DocumentProcessor.Writes(forceReindex, existing, path, dir, writeFailure))
      && ((r.Success? && r.value.message == NothingNewMessage) <==>
         DocumentProcessor.Guarded(forceReindex, existing))
      && ((r.Failure? && r.error.statusCode == InternalError) <==>
         (!DocumentProcessor.Guarded(forceReindex, existing)
          && DocumentProcessor.LoadDocuments(path, dir).Success? && writeFailure.Some?))
  {
    var o := DocumentProcessor.IngestResult(forceReindex, existing, path, dir, splitter, writeFailure, elapsed);
    DocumentProcessor.WritesIffDocumentsProcessed(forceReindex, existing, path, dir, splitter, writeFailure, elapsed);
    assert IngestedMessage != NothingNewMessage;
  }

  const NoDocumentsIngested := "No documents ingested. Please call /ingest endpoint first."

  /**
   * `/query`: an empty store is refused with 400 before the engine runs;
   * otherwise the engine's response is returned, and an exception from the
   * engine becomes a 500.
   */
  function QueryEndpoint(docCount: nat, engine: Result<QueryResponse, string>): (r: Result<QueryResponse, HttpError>)
    ensures docCount == 0 ==> r == Failure(HttpError(BadRequest, NoDocumentsIngested))
    ensures docCount > 0 && engine.Success? ==> r == Success(engine.value)
    ensures docCount > 0 && engine.Failure? ==>
      r == Failure(HttpError(InternalError, "Query processing failed: " + engine.error))
  {
    if docCount == 0 then Failure(HttpError(BadRequest, NoDocumentsIngested))
    else if engine.Failure? then Failure(HttpError(InternalError, "Query processing failed: " + engine.error))
    else Success(engine.value)
  }

  /** The engine's outcome does not matter when the store is empty. */
  lemma EngineUnusedWhenEmpty(e1: Result<QueryResponse, string>, e2: Result<QueryResponse, string>)
    ensures QueryEndpoint(0, e1) == QueryEndpoint(0, e2)
  {
  }

  /** The statistics `/stats` reports. */
  datatype Statistics = Statistics(
    totalChunks: nat, chunkSize: int, chunkOverlap: int, embeddingModel: string, chatModel: string,
    retrievalTopK: int, collectionName: string, provider: string)

  const MissingAzureCheck := "'Settings' object has no attribute 'is_azure_configured'"

  /**
   * `/stats`: with a Gemini key the provider is reported as Gemini; without
   * one the handler asks the settings for an Azure check they do not have,
   * and the resulting error is reported as a 500.
   */
  function StatsEndpoint(settings: Config.Settings, docCount: nat): (r: Result<Statistics, HttpError>)
    ensures r.Success? <==> settings.IsGeminiConfigured()
    ensures r.Success? ==>
      r.value.provider == "Gemini (Google AI)" && r.value.totalChunks == docCount
      && r.value.chunkSize == settings.chunkSize && r.value.chunkOverlap == settings.chunkOverlap
      && r.value.retrievalTopK == settings.retrievalTopK
    ensures r.Failure? ==> r.error == HttpError(InternalError, "Failed to get statistics: " + MissingAzureCheck)
  {
    if settings.IsGeminiConfigured() then
      Success(Statistics(docCount, settings.chunkSize, settings.chunkOverlap, settings.embeddingModel,
        settings.chatModel, settings.retrievalTopK, settings.chromaCollectionName, "Gemini (Google AI)"))
    else Failure(HttpError(InternalError, "Failed to get statistics: " + MissingAzureCheck))
  }

  /** The body `/tools` returns. */
  datatype ToolsList = ToolsList(status: string, totalTools: nat, tools: seq<string>, schemas: seq<WireSchema>)

  /** `/tools`: the names, their count and the advertised schemas; a missing schema is a 500. */
  function ToolsListing(names: seq<string>, schemas: Result<seq<WireSchema>, string>): (r: Result<ToolsList, HttpError>)
    ensures r.Success? <==> schemas.Success?
    ensures r.Success? ==>
      r.value.status == "success" && r.value.totalTools == |r.value.tools|
      && r.value.tools == names && r.value.schemas == schemas.value
    ensures r.Failure? ==> r.error == HttpError(InternalError, "Failed to list tools: " + schemas.error)
  {
    if schemas.Failure? then Failure(HttpError(InternalError, "Failed to list tools: " + schemas.error))
    else Success(ToolsList("success", |names|, names, schemas.value))
  }

  /**
   * On a registry whose tools all keep their schemas, the listing succeeds
   * and pairs the i-th name with the i-th schema.
   */
  lemma ToolsListingPairsNames(registry: Registry.ToolRegistry)
    requires registry.Consistent() && registry.SchemasIntact()
    ensures var r := ToolsListing(registry.GetToolNames(), registry.GetAllSchemas());
      r.Success? && |r.value.schemas| == r.value.totalTools
      && forall i :: 0 <= i < r.value.totalTools ==> r.value.schemas[i].fn.name == r.value.tools[i]
  {
  }

  /** The body `/execute-tool` returns: the registry's answer under status "success". */
  datatype ExecuteToolResponse = ExecuteToolResponse(status: string, tool: string, result: Registry.ExecOutcome)

  /** How `/execute-tool` reports what the registry did with the call. */
  function ManualReply(toolName: string, outcome: Registry.ExecOutcome): (r: Result<ExecuteToolResponse, HttpError>)
    ensures r.Failure? <==> outcome.Unbound? || (outcome.Ran? && outcome.call.Raised?)
    ensures r.Success? ==> r.value == ExecuteToolResponse("success", toolName, outcome)
    ensures outcome.Unbound? ==> r == Failure(HttpError(InternalError, "Tool execution failed: " + outcome.message))
    ensures outcome.Ran? && outcome.call.Raised? ==>
      r == Failure(HttpError(InternalError, "Tool execution failed: " + outcome.call.message))
  {
    if outcome.Unbound? then
      Failure(HttpError(InternalError, "Tool execution failed: " + outcome.message))
    else if outcome.Ran? && outcome.call.Raised? then
      Failure(HttpError(InternalError, "Tool execution failed: " + outcome.call.message))
    else Success(ExecuteToolResponse("success", toolName, outcome))
  }

  /**
   * `/execute-tool`: absent (or empty) parameters run the tool with none.
   * Parameters named `self` or `tool_name` cannot be spread into the
   * registry's call and give a 500. Otherwise an unknown name still yields
   * status "success", carrying the registry's not-found result, and only a
   * call the tool cannot bind becomes a 500.
   */
  method ExecuteToolManual(registry: Registry.ToolRegistry, toolName: string, params: Option<Params>, clock: Clock)
    returns (r: Result<ExecuteToolResponse, HttpError>)
    requires clock.Valid()
    ensures Registry.RegistryBindError(params.GetOr(map[])).Some? ==>
      r == Failure(HttpError(InternalError, "Tool execution failed: " + Registry.RegistryBindError(params.GetOr(map[])).value))
    ensures Registry.RegistryBindError(params.GetOr(map[])).None? && toolName !in registry.tools ==>
      r == Success(ExecuteToolResponse("success", toolName, Registry.NotFound("Tool '" + toolName + "' not found")))
    ensures Registry.RegistryBindError(params.GetOr(map[])).None? && toolName in registry.tools ==>
      r == ManualReply(toolName, Registry.Ran(ExecuteSpec(registry.tools[toolName].kind,
                                                          registry.tools[toolName].schema,
                                                          params.GetOr(map[]), clock)))
  {
    var supplied := if params.None? then map[] else params.value;
    var outcome := registry.ExecuteTool(toolName, supplied, clock);
    r := ManualReply(toolName, outcome);
  }
}
