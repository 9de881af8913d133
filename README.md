# Healthcare RAG assistant — a verified model of its decision rules

The assistant answers questions from hospital staff (doctors, receptionists,
billing staff, general users) out of an ingested document collection. A
language model is prompted with a role-specific template, a catalogue of
five hospital tools and the retrieved chunks. Around the external services
(the language model, the embedder, the vector store, the HTTP framework)
sit small deterministic rules. This project models those rules and proves
what they promise:

- the role prompts, the prompt template, and how the tool catalogue is
  spliced into it;
- how the chain's answer is shaped into a response: sources, tools
  mentioned, the error answer and the disclaimer (`RagEngine`);
- the tool framework (`ToolBase`, `Tools`, `Registry`) and the five tools
  (`TimeTools`, `SearchTools`);
- ingestion bookkeeping with the vector store as an object holding its
  chunks (`DocumentProcessor`);
- provider selection and the startup check (`Config`);
- the request and response records (`Models`) and the status and message
  decisions of the endpoints (`Api`);
- the two evaluation scripts' metrics, pass rule and aggregates
  (`RagEvaluation`, `ApiEvaluation`).

`Text` models the Python string operations the code relies on: `lower`,
`strip`, `in`, `replace`, `join`, `rstrip`, path splitting and
`str.split()`. `Wrappers` holds `Option` and `Result`.

External services are parameters of the model:

- the retrieval chain is a function from its input (prompt, question,
  depth, stored chunks) to an outcome;
- the splitter and the embedder are functions;
- the clock is a value holding today's date and the time in every zone
  it knows;
- the engine and the HTTP service seen by the evaluators are functions
  from a question and role to a reply or an error.

Floating-point quantities are modelled exactly:

- rank scores are integer hundredths (`100 - 10 i` for `round(1.0 - 0.1 i, 2)`);
- evaluation ratios are Dafny `real`s.

Where the code and its documentation disagree, the model follows the code
(see the defects listed under "Left out").

## Model

| member | source | states |
|---|---|---|
| Config.DefaultSettings | backend/config.py:17-89 | with no environment but the two keys, the defaults have overlap below chunk size (200 < 1000), a positive retrieval depth and debug off |
| Config.GetLlmConfig | backend/config.py:113-139 | succeeds iff a Gemini or an OpenAI key is present (an empty key counts); Gemini is chosen iff its key is set; the key and chat model come from the chosen provider; otherwise the fixed error |
| Config.GetEmbeddingConfig | backend/config.py:141-167 | succeeds under the same condition, with the embedding model rather than the chat model; otherwise the fixed error |
| Config.ClientsAgree | backend/config.py:113-167 | the chat and embedding configurations succeed together and then name the same provider with the same key |
| Config.Startup | backend/config.py:170-177 | module load succeeds iff one of the keys is present and leaves the settings unchanged |
| Config.StartedImpliesConfigured | backend/config.py:170-177 | after a successful start neither configuration getter fails and the provider is gemini or openai, never azure |
| Models.ParseRole | backend/models.py:12-17 | a role read from text has exactly that text as its value |
| Models.ParseRoleRoundTrip | backend/models.py:12-17 | each of the four roles reads back from its own value, so the values are distinct and the enum is closed |
| Models.MakeIngestRequest | backend/models.py:28-33 | `force_reindex` is true only when the client sends true; the default is false |
| Models.MakeQueryRequest | backend/models.py:52-68 | a body is accepted iff the question has 3 to 500 characters and the role (default general) is one of the four; on acceptance `include_sources` defaults to true; on refusal there is at least one error, and a too-short or too-long question is reported exactly when it is |
| Models.MakeQueryResponse | backend/models.py:83-97 | `sources` and `tools_used` default to empty lists when left out; every other field is kept as given |
| RagEngine.EveryRoleHasItsPrompt | backend/rag_engine.py:32-94 | every role has its own prompt, so the fallback to the general prompt is never taken |
| RagEngine.CreatePromptTemplate | backend/rag_engine.py:152-183 | the template is the role text followed by the context, question and response sections, with input variables exactly `context` and `question` |
| RagEngine.TemplateMarkersInOrder | backend/rag_engine.py:167-183 | the template starts with the role text, and the context, question and response markers occur in that order |
| RagEngine.NumberedSplit | backend/rag_engine.py:292-294 | schema k of the catalogue is listed as line k+1, `k+1. name: description`, between the lines before it and after it |
| RagEngine.BuildToolInfo | backend/rag_engine.py:286-307 | the `+=` loop builds the tool block: empty without schemas, otherwise header, numbered lines in registry order and usage guide |
| RagEngine.SpliceBeforeResponse | backend/rag_engine.py:309-316 | on the role template, the block and a line break go immediately before the response marker and nothing else changes |
| RagEngine.SpliceKeepsToolTemplate | backend/rag_engine.py:311 | a template that already mentions AVAILABLE TOOLS is used unchanged |
| RagEngine.PreparePrompt | backend/rag_engine.py:283-316 | the prompt preparation in `query` yields the role template with the block spliced in, and keeps the two input variables |
| RagEngine.MentionedIff | backend/rag_engine.py:361-372 | a name is reported iff it is a registered name whose lower-case form occurs in the lower-cased answer |
| RagEngine.MentionedDistinct | backend/rag_engine.py:365-370 | the reported names keep registry order, so distinct registered names are reported at most once |
| RagEngine.LiteralMentionReported | backend/rag_engine.py:368-370 | a registered name written verbatim in the answer is always reported |
| RagEngine.ExtractToolsUsed | backend/rag_engine.py:361-372 | the loop returns the registered names the answer mentions, in registry order |
| RagEngine.Preview | backend/rag_engine.py:397-400 | content of at most 200 characters is its own preview; longer content gives its first 200 characters followed by "..." |
| RagEngine.PreviewIgnoresTail | backend/rag_engine.py:397-400 | the preview of long content depends only on its start: appending text never changes it |
| RagEngine.SourceFilename | backend/rag_engine.py:390-393 | a missing source is "unknown"; otherwise the filename is the whole last component of the path: a suffix with no '/' and no '\\', preceded by a separator whenever it is shorter than the path |
| RagEngine.SourceFilenameOfJoin | backend/rag_engine.py:390-393 | a name joined under any directory with either separator is reported as that name |
| RagEngine.RankScoreFalls | backend/rag_engine.py:405 | the score is 1.00 at rank 0, strictly falls with rank, and is negative exactly from rank 11 |
| RagEngine.ShapeSource | backend/rag_engine.py:389-407 | a source entry's filename, chunk index (falling back to the rank), score and preview |
| RagEngine.ProcessSources | backend/rag_engine.py:377-409 | one entry per retrieved chunk, in retrieval order, entry i shaped at rank i |
| RagEngine.AnswerFor | backend/rag_engine.py:328-359 | a raising chain gives the error answer with no sources and no tools; otherwise the answer is the chain's `result` (default ""), the tools are exactly the mentioned registered names, and sources appear only when requested and returned, then one per document in order; question, role value and disclaimer are always echoed |
| RagEngine.QueryResult | backend/rag_engine.py:253-359 | opening the store (:273), asking it for a retriever (:274-276), listing the schemas (:280) and building the chain (:319-325) may each raise, in that order, and the query then fails with the first error; a query fails only then; otherwise the chain runs on the prepared prompt, the question, the configured depth and the store, and its outcome is shaped |
| RagEngine.ShapeAnswer | backend/rag_engine.py:328-359 | the shaping statements of `query` compute `AnswerFor` |
| RagEngine.RunChain | backend/rag_engine.py:327-359 | running the built chain on the question, the store and the configured depth and shaping its outcome gives `AnswerFor` of what the chain returns, including the error answer when it raises |
| RagEngine.RagEngine.constructor | backend/rag_engine.py:100-113 | the engine is attached to the processor's store with the configured retrieval depth |
| RagEngine.RagEngine.Query | backend/rag_engine.py:253-359 | returns `QueryResult` on the given foreign-call errors and on the registry's schemas and names taken before the call; the store is re-attached only once it opened, and the retriever only once it was obtained, so a failed open leaves both fields as they were |
| ToolBase.GetSchema | backend/tools/base_tool.py:44-60 | a missing schema raises; otherwise the wire form has type "function", the schema's name and description, its parameters as `properties` and its required names as `required` under type "object" |
| ToolBase.FirstMissingSpec | backend/tools/base_tool.py:66-69 | the first missing name is absent from the call and every earlier required name is present; there is none iff all required names are present |
| ToolBase.ValidateParams | backend/tools/base_tool.py:62-70 | false without a schema; otherwise the ValueError "Missing required parameter: X" for the first missing X in schema order; otherwise true (key presence only) |
| ToolBase.AdvertisedRequirementsSuffice | backend/tools/base_tool.py:62-70 | a call that supplies every advertised required name passes validation, and one that leaves a name out is refused |
| ToolBase.FormatResult | backend/tools/base_tool.py:72-80 | success, data and error are echoed and the tool name is the schema name, or "unknown" without a schema |
| ToolBase.BindError | backend/tools/base_tool.py:40-42 | binding keyword arguments to `execute` raises a TypeError iff `self` is passed or the positional parameter is missing |
| Tools.ToolNamesDistinct | backend/tools/registry.py:13-19 | the five tools register under five different names |
| Tools.SchemaFor | backend/tools/base_tool.py:35-37 | the schema each tool's `_setup_schema` installs carries the name the tool registers under |
| Tools.SignatureMatchesSchema | backend/tools/base_tool.py:62-70 | for a tool that holds its own schema, a call raises iff it passes `self` or omits an advertised required parameter; otherwise it returns an envelope under its own name |
| Tools.EnvelopeCarriesSchemaName | backend/tools/base_tool.py:72-80 | whatever schema a tool holds, the envelope it returns carries that schema's name |
| Tools.RaisesOnlyWhenBinding | backend/tools/registry.py:45 | a call raises exactly when binding the keyword arguments to `execute` fails; whatever the schema and arguments, the tool bodies themselves return an envelope |
| Tools.BindingMatchesSchema | backend/tools/base_tool.py:62-70 | binding fails exactly when `self` is passed or a parameter the tool's own schema lists as required is missing |
| Tools.Tool.constructor | backend/tools/base_tool.py:30-32 | a new tool holds the schema its `_setup_schema` installs, named as the tool registers |
| Tools.Tool.SetupSchema | backend/tools/base_tool.py:35-37 | `_setup_schema` replaces the schema with the tool's own |
| Tools.Tool.Execute | backend/tools/time_tools.py:111-162 | `execute(**params)` gives the result the tool's specification gives for the schema it currently holds |
| Registry.ToolRegistry.constructor | backend/tools/registry.py:9-19 | exactly five tools are registered, keyed in order get_current_datetime, calculate_age, get_working_hours, search_internal_docs, web_search, each holding its own schema |
| Registry.ToolRegistry.RegisterTool | backend/tools/registry.py:21-25 | a tool with a schema is stored under the schema's name; a new name is appended to the order, and re-registering a name replaces the tool without changing count or order; a tool without a schema changes nothing |
| Registry.ToolRegistry.GetTool | backend/tools/registry.py:27-29 | the registered tool for a known name, None otherwise |
| Registry.ToolRegistry.GetToolNames | backend/tools/registry.py:35-37 | every registered name exactly once, in registration order |
| Registry.ToolRegistry.SchemasOf | backend/tools/registry.py:31-33 | the wire schemas of the given names in order, or the first raise |
| Registry.ToolRegistry.GetAllSchemas | backend/tools/registry.py:31-33 | on an intact registry, one wire schema per name, and the i-th schema's name is the i-th registered name |
| Registry.RegistryBindError | backend/tools/registry.py:39 | spreading the parameters into `execute_tool(self, tool_name, **kwargs)` raises a `TypeError` exactly when they hold a `self` or `tool_name` key, naming a key they hold |
| Registry.ToolRegistry.ExecuteTool | backend/tools/registry.py:39-45 | parameters holding `self` or `tool_name` raise before any lookup; otherwise an unknown name gives the result "Tool '<name>' not found" without raising, and a known one runs that tool with its current schema |
| Registry.ToolRegistry.AnswersUnderRequestedName | backend/tools/registry.py:39-45 | on an intact registry, a tool run by name answers under that name |
| TimeTools.OrdinalOrder | backend/tools/time_tools.py:148 | the day count of valid dates is one-to-one and in calendar order, so the day difference is negative exactly when the birth date is later |
| TimeTools.Weekday | backend/tools/time_tools.py:52-54 | the weekday index lies in 0..6 and indexes the seven day names |
| TimeTools.ParseDate | backend/tools/time_tools.py:116-119 | `strptime("%Y-%m-%d")`, with unpadded and space-padded fields as CPython accepts them; a parsed date always exists in the calendar; the error texts follow CPython 3.12 |
| TimeTools.ParseFormatRoundTrip | backend/tools/time_tools.py:146 | the ISO 8601 text of every valid date (section 4.1.2.2 of ISO 8601:2004, extended calendar-date form) parses back to that date |
| TimeTools.CurrentDateTime | backend/tools/time_tools.py:39-74 | succeeds iff the zone is known; every field then comes from the clock in that zone (the `isoformat()` text, the date, the zero-padded time, the weekday, the Unix time and the hour, minute and second) and the zone name is echoed; an unknown zone fails, because the fallback reads `.utc` from the string parameter |
| TimeTools.ComputeAge | backend/tools/time_tools.py:123-135 | the borrowing steps give the completed years, 12·years + months as the completed months with 0 ≤ months < 12, and days in 0..30 with a fixed 30-day borrow |
| TimeTools.MeasureAge | backend/tools/time_tools.py:123-149 | the age data the tool reports for two valid dates is the age of those dates |
| TimeTools.AgeFacts | backend/tools/time_tools.py:124-148 | years drop by one exactly when the reference month and day come before the birth's; the birthday flag holds iff month and day match, and then months and days are 0; the day count is the signed difference of the dates |
| TimeTools.CalculateAgeResult | backend/tools/time_tools.py:111-162 | succeeds iff the birth date and the reference date (today when falsy) both read, and then reports the age of the two dates; a missing parameter or a badly formatted date (birth or reference) gives "Invalid date format. Use YYYY-MM-DD: …", a date that is not a string gives "Error calculating age: …" with `strptime`'s TypeError text; the texts ("year 0 is out of range", "day is out of range for month", "strptime() argument 1 must be str, not …") are CPython 3.12's |
| TimeTools.NullBirthdateMessage | backend/tools/time_tools.py:116 | a null birth date fails with "Error calculating age: strptime() argument 1 must be str, not None", naming `None` itself rather than its type |
| TimeTools.ExecuteCalculateAge | backend/tools/time_tools.py:111-162 | the step-by-step body computes `CalculateAgeResult` |
| TimeTools.ScheduleShape | backend/tools/time_tools.py:168-202 | the schedule has exactly the five keys in table order; only emergency and icu are round the clock with hours and a note, and the others give weekday, Saturday and Sunday hours |
| TimeTools.WorkingHours | backend/tools/time_tools.py:231-252 | the key is lower-cased and stripped; a known department returns its table entry unchanged; an unknown one fails listing every key in table order |
| TimeTools.WorkingHoursNormalisesKey | backend/tools/time_tools.py:235 | " OPD " finds the out-patient department |
| SearchTools.OfType | backend/tools/search_tools.py:75-76 | the kept hits are exactly those of the requested type, and no more than there were |
| SearchTools.OfTypeKeepsOrder | backend/tools/search_tools.py:75-76 | the kept hits sit at strictly increasing positions of the list, so their order is the list's |
| SearchTools.SlicePrefix | backend/tools/search_tools.py:79 | `xs[:limit]` is a prefix, of length `limit` when 0 ≤ limit ≤ |xs|, counting from the end for a negative limit |
| SearchTools.SearchInternalDocs | backend/tools/search_tools.py:43-94 | the query is echoed, the count equals the number of results, and the results are the type-filtered list cut to the limit |
| SearchTools.FilterCases | backend/tools/search_tools.py:74-76 | "all" keeps the three documents, "policy" the first and third, "procedure" the second, and anything else none |
| SearchTools.SearchResultsOrdered | backend/tools/search_tools.py:50-79 | whatever the filter and limit, the results are a prefix of the filtered list, all of the requested type, with non-increasing relevance |
| SearchTools.SearchDefaults | backend/tools/search_tools.py:43-44 | a call giving only the query returns all three documents |
| SearchTools.WebSearch | backend/tools/search_tools.py:119-154 | always the same two results with total 2; the source filter is ignored |
| DocumentProcessor.LoadDocuments | backend/document_processor.py:87-126 | loading succeeds iff the directory exists and the loader returns at least one document; a missing directory is a FileNotFoundError, a loader failure or an empty load a ValueError |
| DocumentProcessor.Annotate | backend/document_processor.py:154-155 | a visited chunk gets its batch position as index and its own content length as size, and keeps its text and source |
| DocumentProcessor.AnnotatedFacts | backend/document_processor.py:150-158 | the loop keeps the chunk count, and chunk i is the original chunk i annotated at position i |
| DocumentProcessor.AnnotatedIndicesIncrease | backend/document_processor.py:154 | chunk indices across the batch strictly increase and are not reset per document |
| DocumentProcessor.AnnotateChunks | backend/document_processor.py:152-156 | the in-place loop over the chunk array leaves it annotated |
| DocumentProcessor.SplitDocuments | backend/document_processor.py:128-158 | the result is the splitter's chunks annotated by batch position |
| DocumentProcessor.Embedded | backend/document_processor.py:202-206 | the store receives one entry per chunk, in order |
| DocumentProcessor.VectorStore.Count | backend/document_processor.py:237-249 | counting succeeds iff the store does not fail, and then gives the number of stored entries |
| DocumentProcessor.VectorStore.AddDocuments | backend/document_processor.py:202-211 | adding appends every chunk with its vector, or raises and adds nothing |
| DocumentProcessor.IngestResult | backend/document_processor.py:160-222 | a populated collection without `force_reindex` returns (0, existing count, 0.0); otherwise the pipeline reports the document and chunk counts, a load error unchanged or a store error as RuntimeError; zero documents processed iff guarded |
| DocumentProcessor.WritesIffDocumentsProcessed | backend/document_processor.py:179-222 | the store is written exactly when ingestion reports documents processed |
| DocumentProcessor.DocumentProcessor.IngestDocuments | backend/document_processor.py:160-222 | the pipeline returns `IngestResult` on the store's count taken before the call (a failing count ignored); the store gains the embedded chunks (appended, never cleared) exactly when it writes, and is unchanged otherwise |
| DocumentProcessor.DocumentProcessor.GetDocumentCount | backend/document_processor.py:237-249 | the number of stored chunks, or 0 when counting fails |
| Api.UnhandledErrorBody | backend/main.py:53-64 | an uncaught exception gives the title "Internal server error", the time of the error, and the exception's text only in debug mode |
| Api.DefaultErrorBodyHidesMessage | backend/main.py:53-64 | with the default settings the body never reveals the exception's text |
| Api.HealthCheck | backend/main.py:81-100 | status is always "healthy"; the store is "healthy" iff it holds a chunk, else "empty"; the count and version are echoed |
| Api.IngestEndpoint | backend/main.py:104-144 | a normal return is success, with "Documents ingested successfully" iff documents were processed, else "No new documents to ingest"; FileNotFoundError maps to 404, ValueError to 400, any other error to 500 |
| Api.IngestEndpointOnPipeline | backend/main.py:104-144 | on the real pipeline: "ingested" iff the store was written, "nothing new" iff the re-ingest guard held, and a 500 iff a store write failed |
| Api.QueryEndpoint | backend/main.py:148-185 | an empty store is refused with 400 before the engine runs; otherwise the engine's response, or a 500 carrying its error |
| Api.EngineUnusedWhenEmpty | backend/main.py:163-168 | with no documents the engine's behaviour cannot affect the reply |
| Api.StatsEndpoint | backend/main.py:189-218 | succeeds iff Gemini is configured, then reporting the count and chunking settings; otherwise a 500 from the missing Azure check |
| Api.ToolsListing | backend/main.py:222-242 | `total_tools` is the length of the returned names, and the schemas are the registry's; a schema error is a 500 |
| Api.ToolsListingPairsNames | backend/main.py:230-236 | on an intact registry the listing succeeds and pairs the i-th name with the i-th schema |
| Api.ManualReply | backend/main.py:257-270 | a call that fails to bind to the registry or to the tool becomes a 500 "Tool execution failed: <message>"; every other outcome, including not found, is wrapped with status "success" |
| Api.ExecuteToolManual | backend/main.py:245-270 | missing params are treated as {}; params holding `self` or `tool_name` give a 500; otherwise an unknown tool yields "success" with the not-found result and a known tool's result is wrapped |
| RagEvaluation.Filter | tests/rag_evaluation.py:282-285 | a comprehension filter keeps exactly the elements satisfying the test, and is no longer than its input |
| RagEvaluation.FilterKeepsSome | tests/rag_evaluation.py:282-285 | the filter keeps something exactly when some element passes the test |
| RagEvaluation.FilterKeepsOrder | tests/rag_evaluation.py:282-285 | the kept elements keep their relative order |
| RagEvaluation.FilterSplits | tests/rag_evaluation.py:282-285 | filtering by a test and by its negation splits the input, so the two lengths add up |
| RagEvaluation.KeywordsPartition | tests/rag_evaluation.py:279-289 | matched and missing keywords partition the expected ones: matched are exactly those found case-insensitively, missing exactly those not found, and the lengths add up |
| RagEvaluation.CoverageFacts | tests/rag_evaluation.py:287-289 | coverage lies in [0, 1], is 1.0 exactly when every expected keyword matched, and scales back to the matched count |
| RagEvaluation.EvaluateAnswerQuality | tests/rag_evaluation.py:259-308 | the quality record: the matched/missing split, coverage in [0, 1], word and character counts, the source count echoed, and refusal iff some indicator occurs in the lower-cased answer |
| RagEvaluation.CoverageMeansFound | tests/rag_evaluation.py:279-289 | coverage is 1.0 iff every expected keyword is found |
| RagEvaluation.RefusalSurvivesMoreText | tests/rag_evaluation.py:299-305 | a refusal stays a refusal when more text is appended |
| RagEvaluation.PrecisionBounds | tests/rag_evaluation.py:327-335 | precision lies in [0, 1], is 0 with nothing retrieved, is 1 iff something is retrieved and every file is relevant, and is positive iff some file is relevant |
| RagEvaluation.RecallBounds | tests/rag_evaluation.py:337-342 | recall lies in [0, 1], is 1.0 when no files are expected, and is 1 iff every expected name is retrieved |
| RagEvaluation.F1Bounds | tests/rag_evaluation.py:345-348 | F1 lies in [0, 1] and between the smaller and larger of precision and recall, and is 1 iff both are 1 |
| RagEvaluation.FirstRelevant | tests/rag_evaluation.py:352-357 | the position of the first relevant retrieved file: relevant, with none before it; None iff no file is relevant |
| RagEvaluation.MrrBounds | tests/rag_evaluation.py:352-357 | MRR lies in [0, 1], is positive iff some retrieved file is relevant, and is 1 iff the top file is |
| RagEvaluation.RetrievalScoresBounded | tests/rag_evaluation.py:310-362 | all four retrieval scores lie in [0, 1] |
| RagEvaluation.EvaluateRetrievalPerformance | tests/rag_evaluation.py:310-362 | the loop with `break` computes the retrieval record, MRR from the first relevant rank |
| RagEvaluation.SingleTest | tests/rag_evaluation.py:364-457 | an unknown role text or an engine error yields an errored record with its message; otherwise the record holds the engine's answer, the answer quality of that answer and source count, the retrieval scores of the sources' filenames, and passes by the pass rule on those |
| RagEvaluation.PassesIff | tests/rag_evaluation.py:404-415 | a refusal-expected case passes iff the answer is a refusal; any other passes iff at least half of its keywords are found and at least three in ten of its expected files are retrieved |
| RagEvaluation.SingleTestPassRule | tests/rag_evaluation.py:380-415 | an evaluated record passes iff the pass rule, in counts, holds of the engine's answer and source filenames |
| RagEvaluation.PassedMeans | tests/rag_evaluation.py:404-415 | a passed case means: a refusal-expected one refused; any other found at least half of its keywords and, with files expected, retrieved at least one |
| RagEvaluation.NothingExpectedPasses | tests/rag_evaluation.py:404-415 | a non-refusal case expecting no keywords and no files always passes |
| RagEvaluation.RunSingleTest | tests/rag_evaluation.py:364-457 | the try/except body computes `SingleTest` |
| RagEvaluation.Outcomes | tests/rag_evaluation.py:472-487 | one record per case, in order |
| RagEvaluation.TalliesAddUp | tests/rag_evaluation.py:536-552 | the per-category totals sum to the valid results and the per-category passes sum to the passed ones |
| RagEvaluation.Breakdown | tests/rag_evaluation.py:545-552 | each category's pass rate is passed/total, or 0.0 for an empty total |
| RagEvaluation.BreakdownFacts | tests/rag_evaluation.py:546-552 | the breakdown copies each category's total and passes, and when passes never exceed the total every pass rate lies in [0, 1] |
| RagEvaluation.CountTestShape | tests/rag_evaluation.py:538-544 | counting one test keeps the category list duplicate-free with one tally per listed category, passes never above totals, and lists exactly the old categories plus the test's |
| RagEvaluation.AggregateFacts | tests/rag_evaluation.py:489-552 | with a valid result, the metrics count all results, passed ≤ valid ≤ total, the rate lies in [0, 1], and every category has passed ≤ total |
| RagEvaluation.RagEvaluator.constructor | tests/rag_evaluation.py:46-66 | the evaluator starts with its cases, no records and no metrics |
| RagEvaluation.RagEvaluator.RunAllTests | tests/rag_evaluation.py:459-487 | the records of all cases are appended in order, then the metrics are computed |
| RagEvaluation.RagEvaluator.CalculateAggregateMetrics | tests/rag_evaluation.py:489-552 | the metrics become the aggregate of the records and are left unchanged when no record is valid |
| ApiEvaluation.ApiRefusalIsEngineRefusal | tests/api_evaluation.py:215-220 | the API list is the engine list without its last phrase, so an API refusal is an engine refusal |
| ApiEvaluation.RetrievedFiles | tests/api_evaluation.py:231 | one filename per source, "" for a source without one |
| ApiEvaluation.UnnamedSourceRelevance | tests/api_evaluation.py:231-236 | an unnamed source is relevant iff "" is an expected name |
| ApiEvaluation.EvaluateRetrieval | tests/api_evaluation.py:225-258 | precision, recall and F1 are those of the engine-level evaluation on the same filenames, each in [0, 1], with no MRR |
| ApiEvaluation.ApiSingleTest | tests/api_evaluation.py:260-340 | a failed request records its error without a difficulty; otherwise the answer, the answer quality with the API's refusal phrases and the source count (none when absent), the retrieval scores of the reply's sources, and the engine-level pass rule on those |
| ApiEvaluation.PassedRefusalIsEngineRefusal | tests/api_evaluation.py:292-301 | a passing refusal-expected case also counts as a refusal at engine level |
| ApiEvaluation.ApiOutcomes | tests/api_evaluation.py:342-367 | one record per case, in order |
| ApiEvaluation.ApiAggregateFacts | tests/api_evaluation.py:369-380 | with a scored result, the metrics count all results, the passes are at most the scored ones, and the rate lies in [0, 1] and is 1 iff all scored pass |
| ApiEvaluation.ApiEvaluator.constructor | tests/api_evaluation.py:27-45 | the base URL is kept without trailing slashes |
| ApiEvaluation.ApiEvaluator.RunAllTests | tests/api_evaluation.py:342-367 | the records of all cases are appended in order, then the aggregates |
| ApiEvaluation.ApiEvaluator.CalculateAggregates | tests/api_evaluation.py:369-380 | the aggregates are written from the scored results only, and nothing is written when every request failed |
| Text.StripSpec | backend/tools/time_tools.py:235 | `strip()` returns a contiguous piece of its input; everything cut from either side is white space, and the piece neither starts nor ends with white space |
| Text.ContainsLower | tests/rag_evaluation.py:281-282 | lower-casing both sides keeps an occurrence |
| Text.BasenameOfPlain | backend/rag_engine.py:392-393 | a path with no separator is its own last component |
| Text.ReplaceSingleOccurrence | backend/rag_engine.py:312-315 | `replace` on a single occurrence puts the replacement exactly there and changes nothing else |
| Text.RStrip | tests/api_evaluation.py:35 | `rstrip(c)` gives a prefix of its input that does not end in c, having cut only c characters |
| Text.WordCountBounds | tests/rag_evaluation.py:292 | the word count of `split()` is at most the text length, and 0 exactly when the text is all white space |
| Text.ReprOfPlain | backend/tools/time_tools.py:153-156 | the `repr` in a date error shows text without quotes, backslashes or named control characters as itself in single quotes |

## Left out

- The language model, the embedder and the Chroma store are not modelled: they are foreign services. The chain is a function from its input to an outcome, the embedder a function from text to vector, and the store an object holding its entries.
- The text splitter's algorithm is not modelled: it is a library routine. Its output is a function of the documents, and no overlap or reconstruction property is claimed.
- `_initialize_llm` and the chat client are not modelled. The Azure and OpenAI branches read `settings.LLM_MAX_TOKENS`, which the settings do not define (they define `LLM_MAX_OUTPUT_TOKENS`), so those branches raise.
- Api.StatsEndpoint: a `/stats` call without a Gemini key fails on the undefined `is_azure_configured`, and the model keeps that behaviour.
- The global engine instance is commented out in `backend/rag_engine.py`, so the engine evaluation's import of it fails. The model takes the engine as a parameter instead.
- RagEvaluation.RagEvaluator.constructor: the setup also reads the undefined `LLM_MAX_TOKENS` into the result metadata; the metadata, `_verify_setup` and its `input()` prompt are not modelled.
- DocumentProcessor.DocumentProcessor.IngestDocuments: `force_reindex` does not clear the collection, so a forced run appends, as in the code.
- Api.HealthCheck: the 503 branch of `/health` is not modelled, because counting already falls back to 0 and cannot raise there.
- TimeTools.CurrentDateTime: the `isoformat()` text, Unix time and wall-clock fields are supplied by the clock value (how `isoformat()` prints microseconds and the UTC offset is not modelled), and the zone database is a set of names; the failing fallback is kept as written.
- Time, rounding of processing times, `statistics.mean`, the min/max query times, `time.sleep` rate limiting, printing, `save_results` and the HTTP requests of the API evaluation are left out: they are I/O or float timing. `processing_time_seconds` is a parameter.
- The fixed test-case lists of both evaluation scripts are left out: the evaluators take their test cases as a parameter.
- RagEvaluation.SingleTest: the `result["answer"]` key is assumed present, so its KeyError path is not modelled.
- Text.Repr: `repr` is modelled for its choice of quotes and its named escapes (backslash, the quote, `\n`, `\r`, `\t`); the `\x`, `\u` and `\U` escapes of other non-printable characters are not, so messages that echo such input (RagEvaluation.RoleError, TimeTools.NoMatchMessage) show them unescaped.
- Text.LowerChar: lower-casing changes only the ASCII letters A-Z. Python's `str.lower` also lower-cases other letters ("CAFÉ" becomes "café", the Kelvin sign becomes "k"), so keyword, refusal and tool-name matching (RagEvaluation.KeywordFound, RagEvaluation.IsRefusal, RagEngine.Mentioned) can differ from Python on non-ASCII text.
- Text.ContainsLower: holds of this ASCII lower-casing only. Under Python's full `str.lower` an occurrence is not always kept: "Σ" occurs in "ΑΣ", but "ΑΣ".lower() is "ας" with a final sigma, which does not contain "σ".
- TimeTools.WorkingHours: lower-casing is the ASCII one above. The only other characters Python lower-cases into ASCII letters are the Kelvin sign (to "k") and "İ" (to "i" plus a combining dot), and neither can turn a department name into one of the five keys, so the lookup agrees with Python; white space is Python's full `str.isspace` set.
- TimeTools.ParseDate: fields must be ASCII digits. CPython's `%Y`, `%m` and `%d` patterns use `\d` without `re.ASCII`, so they also match other Unicode decimal digits (Arabic-Indic, Devanagari, full-width and so on), which `int()` then reads; such dates are refused here.
- Registry.RegistryBindError: when the parameters hold both `self` and `tool_name`, Python names whichever key comes first in the dictionary; parameters are an unordered map here, so `self` is named.
- RagEvaluation.Breakdown: the per-category rate for an empty category is the integer 0 in the script and the real 0.0 here (no category ever has a zero total).
- The FastAPI application itself is not modelled: CORS, the root endpoint, uvicorn and async scheduling. Tools run sequentially.
- `backend/tools/tool_executor.py` is not part of this model: it is two delegations to the registry.
- Integer widths are not modelled: Python integers are unbounded, and so are Dafny's.
- No chunk-overlap-below-size check exists in the code. Only the defaults are shown to satisfy it (Config.DefaultSettings).
- RagEngine.SpliceBeforeResponse: it assumes the response marker occurs only once in the role template and that no role text mentions the tool marker. Scanning the long literal prompts for this is left out.
- RagEngine.RagEngine.Query: listing the schemas is modelled before reading the tool names, and both are taken from the registry as it is at the call.
- RagEngine.QueryResult: the errors of opening the store, getting its retriever and building the chain (backend/rag_engine.py:273-276 and :319-325) are inputs; what makes Chroma or LangChain raise is not modelled. The same holds for RagEngine.RagEngine.Query.
- TimeTools.ParseDate: the error texts are those of CPython 3.12; other CPython releases word some of these `ValueError` and `TypeError` messages differently.
