/**
 * The query side of the assistant: the role-specific prompt template, the
 * catalogue of tools spliced into it, and the shaping of the chain's answer
 * into a response (sources, tools mentioned, the fixed disclaimer). The
 * language model and the retriever are one opaque function, the chain.
 */
module RagEngine {
  import opened Wrappers
  import opened Text
  import opened Models
  import opened ToolBase
  import Config
  import DocumentProcessor
  import Registry

  const DoctorPrompt := "You are a helpful AI assistant designed for doctors and medical professionals at a hospital.\n\nYour Role:\n- Answer questions about hospital policies, procedures, and patient care guidelines\n- Provide detailed, accurate medical information suitable for healthcare professionals\n- Use ONLY information from the provided context\n\nSAFETY RULES (CRITICAL):\n1. NEVER provide medical diagnosis\n2. NEVER prescribe medications or recommend dosages\n3. NEVER provide treatment recommendations\n4. ONLY use information from the provided context\n5. If information is not in context, state \"I don't have that information in our records\"\n6. For emergencies, direct to call 911\n\nFormat: Be clear, professional, use bullet points when helpful."
  const ReceptionistPrompt := "You are a helpful AI assistant for hospital reception and front-desk staff.\n\nYour Role:\n- Answer questions about admission procedures, visiting hours, appointments\n- Provide clear general hospital information\n- Use ONLY information from the provided context\n\nSAFETY RULES (CRITICAL):\n1. ONLY answer questions based on provided information\n2. Direct medical questions to medical staff\n3. If unsure, say \"I don't have that information, let me connect you with the right department\"\n4. For emergencies, direct to call 911\n\nFormat: Keep responses simple, professional, clear."
  const BillingPrompt := "You are a helpful AI assistant for hospital billing and financial services.\n\nYour Role:\n- Answer questions about billing, insurance, payment options, and financial policies\n- Provide clear information about costs and payment processes\n- Use ONLY information from the provided context\n\nSAFETY RULES (CRITICAL):\n1. ONLY use information from provided context\n2. Don't make financial recommendations\n3. For insurance questions, suggest checking with insurance provider directly\n4. If unsure, say \"Please contact our billing department for clarification\"\n\nFormat: Be precise about financial information, use clear language."
  const GeneralPrompt := "You are a helpful AI assistant for general hospital information.\n\nYour Role:\n- Answer questions about hospital services, policies, and procedures\n- Provide clear, easy-to-understand information for patients and visitors\n- Use ONLY information from the provided context\n\nSAFETY RULES (CRITICAL):\n1. ONLY answer based on provided information\n2. Do NOT provide medical advice\n3. If medical question, suggest consulting healthcare professionals\n4. For emergencies, direct to call 911\n\nFormat: Use simple language, be friendly and professional."

  /** `ROLE_PROMPTS`: the system text for each role. */
  const RolePrompts: map<UserRole, string> :=
    map[Doctor := DoctorPrompt, Receptionist := ReceptionistPrompt, Billing := BillingPrompt, General := GeneralPrompt]

  const Disclaimer := "⚠️ IMPORTANT DISCLAIMER:\nThis information is for general guidance only. For medical advice, diagnosis, or treatment, please consult with qualified healthcare professionals. In case of emergency, call 911 or visit the Emergency Department immediately."

  /** The role text, looked up with the general prompt as the fallback. */
  function RoleContext(role: UserRole): string {
    if role in RolePrompts then RolePrompts[role] else RolePrompts[General]
  }

  /** Every role has an entry of its own, so the fallback is never taken. */
  lemma EveryRoleHasItsPrompt(role: UserRole)
    ensures role in RolePrompts && RoleContext(role) == RolePrompts[role]
    ensures role == Doctor ==> RoleContext(role) == DoctorPrompt
    ensures role == Receptionist ==> RoleContext(role) == ReceptionistPrompt
    ensures role == Billing ==> RoleContext(role) == BillingPrompt
    ensures role == General ==> RoleContext(role) == GeneralPrompt
  {
  }

  const ContextMarker := "===== CONTEXT FROM DOCUMENTS ====="
  const QuestionMarker := "===== USER QUESTION ====="
  const ResponseMarker := "===== RESPONSE ====="
  const ToolsMarker := "AVAILABLE TOOLS"
  const ResponseInstructions :=
    "\nProvide a clear, detailed response based ONLY on the context above.\nInclude relevant details and use bullet points if appropriate.\nDO NOT make up information not in the context."

  datatype PromptTemplate = PromptTemplate(template: string, inputVariables: seq<string>)

  /** The template text before the response marker, for role text `rc`. */
  function TemplateHead(rc: string): string {
    rc + "\n\n" + ContextMarker + "\n{context}\n\n" + QuestionMarker + "\n{question}\n\n"
  }

  /** The whole template text for role text `rc`. */
  function TemplateText(rc: string): string {
    TemplateHead(rc) + ResponseMarker + ResponseInstructions
  }

  /** `_create_prompt_template`: the role's text, then the context, question and response sections. */
  function CreatePromptTemplate(role: UserRole): (r: PromptTemplate)
    ensures r.inputVariables == ["context", "question"]
    ensures r.template == TemplateText(RoleContext(role))
  {
    PromptTemplate(TemplateText(RoleContext(role)), ["context", "question"])
  }

  /**
   * The template starts with the role text and holds the context, question
   * and response markers, in that order.
   */
  lemma TemplateMarkersInOrder(rc: string) returns (c: nat, q: nat, p: nat)
    ensures var t := TemplateText(rc);
      |rc| <= |t| && t[..|rc|] == rc
      && |rc| < c < q < p
      && OccursAt(t, ContextMarker, c) && OccursAt(t, QuestionMarker, q) && OccursAt(t, ResponseMarker, p)
  {
    c, q, p := |rc| + 2, |rc| + 2 + |ContextMarker| + 12, |TemplateHead(rc)|;
    OccursBetween(rc + "\n\n", ContextMarker,
      "\n{context}\n\n" + QuestionMarker + "\n{question}\n\n" + ResponseMarker + ResponseInstructions);
    OccursBetween(rc + "\n\n" + ContextMarker + "\n{context}\n\n", QuestionMarker,
      "\n{question}\n\n" + ResponseMarker + ResponseInstructions);
    OccursBetween(TemplateHead(rc), ResponseMarker, ResponseInstructions);
    OccursBetween("", rc, "\n\n" + ContextMarker + "\n{context}\n\n" + QuestionMarker + "\n{question}\n\n"
      + ResponseMarker + ResponseInstructions);
  }

  /** A piece placed between two others occurs right after the first. */
  lemma OccursBetween(x: string, m: string, y: string)
    ensures OccursAt(x + m + y, m, |x|)
  {
    assert (x + m + y)[|x|..|x| + |m|] == m;
  }

  const ToolsHeader := "\n===== AVAILABLE TOOLS =====\nThe following tools are available to enhance your response:\n    "
  const ToolsFooter := "\nIMPORTANT: If the user asks about:\n- Current time, date, or day → Use get_current_datetime\n- Patient age from birthdate → Use calculate_age\n- Hospital department hours → Use get_working_hours\n- Hospital policies or procedures → Use search_internal_docs\n- Health information from web → Use web_search\n\nWhen you use a tool, mention it in your response like:\n\"Using get_current_datetime to check...\" or \"Searching hospital docs for...\"\n===== END TOOLS =====\n    "

  /** The catalogue line for schema `w` listed at position `n`. */
  function ToolLine(n: nat, w: WireSchema): string {
    NatToString(n) + ". " + w.fn.name + ": " + w.fn.description + "\n"
  }

  /** The catalogue lines for `ws`, numbered from `n` in their order. */
  function Numbered(ws: seq<WireSchema>, n: nat): string
    decreases |ws|
  {
    if |ws| == 0 then "" else ToolLine(n, ws[0]) + Numbered(ws[1..], n + 1)
  }

  /** Appending a schema appends its line, numbered after the others. */
  lemma {:induction false} NumberedSnoc(ws: seq<WireSchema>, w: WireSchema, n: nat)
    ensures Numbered(ws + [w], n) == Numbered(ws, n) + ToolLine(n + |ws|, w)
    decreases |ws|
  {
    if |ws| == 0 {
      assert Numbered([w][1..], n + 1) == "";
    } else {
      assert (ws + [w])[1..] == ws[1..] + [w];
      NumberedSnoc(ws[1..], w, n + 1);
    }
  }

  /** Schema k is listed as line k + n, between the lines before it and the lines after it. */
  lemma {:induction false} NumberedSplit(ws: seq<WireSchema>, k: nat, n: nat)
    requires k < |ws|
    ensures Numbered(ws, n) == Numbered(ws[..k], n) + ToolLine(n + k, ws[k]) + Numbered(ws[k + 1..], n + k + 1)
    decreases k
  {
    if k > 0 {
      var tail := ws[1..];
      NumberedSplit(tail, k - 1, n + 1);
      assert tail[..k - 1] == ws[1..k] && ws[..k][1..] == ws[1..k];
      assert tail[k - 1] == ws[k] && tail[k..] == ws[k + 1..];
      assert ws[..k][0] == ws[0];
      var head, mid, after := ToolLine(n, ws[0]), ToolLine(n + k, ws[k]), Numbered(ws[k + 1..], n + k + 1);
      var before := Numbered(ws[1..k], n + 1);
      assert Numbered(tail, n + 1) == before + mid + after;
      assert Numbered(ws, n) == head + (before + mid + after);
      assert Numbered(ws[..k], n) == head + before;
    }
  }

  /** The tool block: empty without schemas, else header, numbered lines and the usage guide. */
  function ToolInfo(ws: seq<WireSchema>): string {
    if |ws| == 0 then "" else ToolsHeader + Numbered(ws, 1) + ToolsFooter
  }

  /** Building the tool block with `+=` over the schemas. */
  method BuildToolInfo(ws: seq<WireSchema>) returns (info: string)
    ensures info == ToolInfo(ws)
  {
    info := "";
    if |ws| > 0 {
      info := ToolsHeader;
      info := AppendToolLines(info, ws);
      info := info + ToolsFooter;
    }
  }

  /** The `+=` loop over the schemas: one numbered catalogue line per schema, after `start`. */
  method AppendToolLines(start: string, ws: seq<WireSchema>) returns (info: string)
    ensures info == start + Numbered(ws, 1)
  {
    info := start;
    for i := 0 to |ws|
      invariant info == start + Numbered(ws[..i], 1)
    {
      NumberedSnoc(ws[..i], ws[i], 1);
      assert ws[..i + 1] == ws[..i] + [ws[i]];
      info := info + ToolLine(i + 1, ws[i]);
    }
    assert ws[..|ws|] == ws;
  }

  /**
   * The template text once the tool block is in place: a template that
   * already mentions the tools is kept, any other has the block and a line
   * break put in front of every response marker.
   */
  function Spliced(template: string, info: string): string {
    if Contains(template, ToolsMarker) then template
    else ReplaceAll(template, ResponseMarker, info + "\n" + ResponseMarker)
  }

  /** The marker occurs in `t` at `p` and nowhere else. */
  ghost predicate MarkerOnlyAt(t: string, marker: string, p: int) {
    forall i :: i != p ==> !OccursAt(t, marker, i)
  }

  /**
   * With the response marker only at the end of the template head (and no
   * tool block yet), the splice puts the block immediately before the marker
   * and changes nothing else.
   */
  lemma SpliceBeforeResponse(rc: string, info: string)
    requires !Contains(TemplateText(rc), ToolsMarker)
    requires MarkerOnlyAt(TemplateText(rc), ResponseMarker, |TemplateHead(rc)|)
    ensures Spliced(TemplateText(rc), info) == TemplateHead(rc) + info + "\n" + ResponseMarker + ResponseInstructions
  {
    SpliceBeforeMarker(TemplateHead(rc), ResponseMarker, ResponseInstructions, info);
  }

  /** Replacing the one occurrence of `marker` by `info`, a line break and the marker. */
  lemma SpliceBeforeMarker(head: string, marker: string, tail: string, info: string)
    requires |marker| > 0
    requires MarkerOnlyAt(head + marker + tail, marker, |head|)
    ensures ReplaceAll(head + marker + tail, marker, info + "\n" + marker) == head + info + "\n" + marker + tail
  {
    ReplaceSingleOccurrence(head, tail, marker, info + "\n" + marker);
    assert head + (info + "\n" + marker) + tail == head + info + "\n" + marker + tail;
  }

  /** A template that already lists tools is used as it is. */
  lemma SpliceKeepsToolTemplate(template: string, info: string)
    requires Contains(template, ToolsMarker)
    ensures Spliced(template, info) == template
  {
  }

  /** The prompt the chain receives for a role and the advertised schemas. */
  function PreparedPrompt(role: UserRole, ws: seq<WireSchema>): (r: PromptTemplate)
    ensures r.inputVariables == ["context", "question"]
  {
    var t := CreatePromptTemplate(role);
    t.(template := Spliced(t.template, ToolInfo(ws)))
  }

  /** Case-insensitive mention of a tool name in the answer. */
  predicate Mentions(response: string, name: string) {
    Contains(Lower(response), Lower(name))
  }

  /** The names the answer mentions, kept in their order. */
  function Mentioned(names: seq<string>, response: string): seq<string> {
    if |names| == 0 then []
    else
      var last := names[|names| - 1];
      Mentioned(names[..|names| - 1], response) + (if Mentions(response, last) then [last] else [])
  }

  /** A name is reported iff it is a known name the answer mentions. */
  lemma {:induction false} MentionedIff(names: seq<string>, response: string)
    ensures forall n :: n in Mentioned(names, response) <==> n in names && Mentions(response, n)
  {
    if |names| > 0 {
      var init := names[..|names| - 1];
      MentionedIff(init, response);
      assert names == init + [names[|names| - 1]];
    }
  }

  /** No name is listed twice. */
  predicate NoDuplicates(names: seq<string>) {
    forall i, j :: 0 <= i < j < |names| ==> names[i] != names[j]
  }

  /** The reported names come in the given order, so distinct names are reported once each. */
  lemma {:induction false} MentionedDistinct(names: seq<string>, response: string)
    requires NoDuplicates(names)
    ensures NoDuplicates(Mentioned(names, response))
  {
    if |names| > 0 {
      var init := names[..|names| - 1];
      var last := names[|names| - 1];
      MentionedDistinct(init, response);
      MentionedIff(init, response);
      assert last !in init by {
        forall i | 0 <= i < |init| ensures init[i] != last {
          assert init[i] == names[i];
        }
      }
      var r0 := Mentioned(init, response);
      assert last !in r0;
      var r := Mentioned(names, response);
      assert r == r0 + (if Mentions(response, last) then [last] else []);
      forall i, j | 0 <= i < j < |r| ensures r[i] != r[j] {
        if j >= |r0| {
          assert r[j] == last && r[i] == r0[i] && r0[i] in r0;
        } else {
          assert r[j] == r0[j] && r[i] == r0[i];
        }
      }
      assert NoDuplicates(r);
    }
  }

  /** A name written in the answer exactly as registered is always reported. */
  lemma LiteralMentionReported(names: seq<string>, response: string, n: string)
    requires n in names && Contains(response, n)
    ensures n in Mentioned(names, response)
  {
    ContainsLower(response, n);
    MentionedIff(names, response);
  }

  /** `_extract_tools_used`: the registry names the answer mentions, in registry order. */
  method ExtractToolsUsed(names: seq<string>, response: string) returns (used: seq<string>)
    ensures used == Mentioned(names, response)
  {
    used := [];
    for i := 0 to |names|
      invariant used == Mentioned(names[..i], response)
    {
      assert names[..i + 1][..i] == names[..i];
      if Contains(Lower(response), Lower(names[i])) {
        used := used + [names[i]];
      }
    }
    assert names[..|names|] == names;
  }

  const PreviewLength := 200

  /** The first 200 characters of a chunk, with an ellipsis when there is more. */
  function Preview(content: string): (r: string)
    ensures |content| <= PreviewLength ==> r == content
    ensures |content| > PreviewLength ==>
      |r| == PreviewLength + 3 && r[..PreviewLength] == content[..PreviewLength] && r[PreviewLength..] == "..."
  {
    if |content| > PreviewLength then content[..PreviewLength] + "..." else content
  }

  /** The reported file name: the source path's last component, or "unknown". */
  function SourceFilename(source: Option<string>): (r: string)
    ensures source.None? ==> r == "unknown"
    ensures source.Some? ==>
      '/' !in r && '\\' !in r && |r| <= |source.value| && r == source.value[|source.value| - |r|..]
      && (|r| < |source.value| ==>
            source.value[|source.value| - |r| - 1] == '/' || source.value[|source.value| - |r| - 1] == '\\')
  {
    if source.None? then "unknown"
    else if '/' in source.value || '\\' in source.value then Basename(source.value)
    else source.value
  }

  /** The preview depends only on the start of a chunk: text after the 201st character never shows. */
  lemma PreviewIgnoresTail(content: string, tail: string)
    requires |content| > PreviewLength
    ensures Preview(content + tail) == Preview(content)
  {
    assert (content + tail)[..PreviewLength] == content[..PreviewLength];
  }

  /** A file named under a directory is reported by its own name, whatever the directory. */
  lemma {:induction false} SourceFilenameOfJoin(dir: string, sep: char, name: string)
    requires sep == '/' || sep == '\\'
    requires '/' !in name && '\\' !in name
    ensures SourceFilename(Some(dir + [sep] + name)) == name
  {
    var path := dir + [sep] + name;
    var r := SourceFilename(Some(path));
    assert path[|dir|] == sep;
    assert path[|dir| + 1..] == name;
    if |r| != |name| {
      assert false;
    }
    assert r == path[|path| - |name|..];
  }

  /** The relevance of rank i, in hundredths: 1.0 - 0.1 i. */
  function RankScore(i: nat): int {
    100 - 10 * i
  }

  /** Scores start at 1.0, fall with every rank and are negative from rank 11 on. */
  lemma RankScoreFalls(i: nat, j: nat)
    requires i < j
    ensures RankScore(0) == 100 && RankScore(i) > RankScore(j)
    ensures RankScore(j) < 0 <==> j >= 11
  {
  }

  /** The source entry for the chunk retrieved at rank `i`. */
  function ShapeSource(doc: DocumentProcessor.Document, i: nat): (r: DocumentSource)
    ensures r.filename == SourceFilename(doc.metadata.source)
    ensures r.chunkIndex == doc.metadata.chunkIndex.GetOr(i)
    ensures r.relevanceHundredths == RankScore(i)
    ensures r.contentPreview == Preview(doc.pageContent)
  {
    DocumentSource(SourceFilename(doc.metadata.source), doc.metadata.chunkIndex.GetOr(i),
      RankScore(i), Preview(doc.pageContent))
  }

  /** `_process_sources`: one entry per retrieved chunk, in retrieval order. */
  method ProcessSources(docs: seq<DocumentProcessor.Document>) returns (sources: seq<DocumentSource>)
    ensures |sources| == |docs|
    ensures forall i :: 0 <= i < |docs| ==> sources[i] == ShapeSource(docs[i], i)
  {
    sources := [];
    for i := 0 to |docs|
      invariant |sources| == i
      invariant forall j :: 0 <= j < i ==> sources[j] == ShapeSource(docs[j], j)
    {
      sources := sources + [ShapeSource(docs[i], i)];
    }
  }

  /** What the chain is asked: the prompt, the question, the retriever's depth, and the stored chunks. */
  datatype ChainInput = ChainInput(
    prompt: PromptTemplate, query: string, topK: int, returnSourceDocuments: bool,
    store: seq<DocumentProcessor.Entry>)

  /** The chain raises, or returns a dictionary that may lack `result` or `source_documents`. */
  datatype ChainOutcome =
    | ChainRaised(message: string)
    | ChainReturned(result: Option<string>, sourceDocuments: Option<seq<DocumentProcessor.Document>>)

  function ErrorAnswer(message: string): string {
    "❌ Error processing query: " + message
  }

  /** The retriever: a view of a store returning the `k` closest chunks. */
  datatype Retriever = Retriever(store: DocumentProcessor.VectorStore, k: int)

  /** The source entries for the retrieved chunks, in retrieval order. */
  function ShapedSources(docs: seq<DocumentProcessor.Document>): (r: seq<DocumentSource>)
    ensures |r| == |docs|
  {
    seq(|docs|, i requires 0 <= i < |docs| => ShapeSource(docs[i], i))
  }

  /** The response built from the chain's outcome. */
  function AnswerFor(question: string, role: UserRole, includeSources: bool, names: seq<string>,
                     outcome: ChainOutcome, elapsed: real)
    : (r: QueryResponse)
    ensures r.question == question && r.userRole == role.Value()
    ensures r.disclaimer == Disclaimer && r.processingTime == elapsed
    ensures outcome.ChainRaised? ==>
      r.answer == ErrorAnswer(outcome.message) && r.sources == [] && r.toolsUsed == []
    ensures outcome.ChainReturned? ==>
      r.answer == outcome.result.GetOr("")
      && (forall n :: n in r.toolsUsed <==> n in names && Mentions(r.answer, n))
      && (r.sources != [] ==> includeSources && outcome.sourceDocuments.Some?)
      && (includeSources && outcome.sourceDocuments.Some? ==>
            |r.sources| == |outcome.sourceDocuments.value|
            && forall i :: 0 <= i < |r.sources| ==> r.sources[i] == ShapeSource(outcome.sourceDocuments.value[i], i))
  {
    if outcome.ChainRaised? then
      QueryResponse(question, ErrorAnswer(outcome.message), [], role.Value(), Disclaimer, elapsed, [])
    else
      var answer := outcome.result.GetOr("");
      var docs := if includeSources && outcome.sourceDocuments.Some? then outcome.sourceDocuments.value else [];
      MentionedIff(names, answer);
      QueryResponse(question, answer, ShapedSources(docs), role.Value(), Disclaimer, elapsed, Mentioned(names, answer))
  }

  /**
   * The response to a query, given what the foreign calls inside `query` did:
   * opening the store (`openError`), asking it for a retriever
   * (`retrieverError`), listing the schemas (`schemas`) and building the chain
   * (`buildError`) each may raise, in that order, and the first to raise
   * ends the query with its error. Otherwise the chain sees the role's
   * template with the tool block spliced in.
   */
  function QueryResult(question: string, role: UserRole, includeSources: bool,
                       openError: Option<string>, retrieverError: Option<string>,
                       schemas: Result<seq<WireSchema>, string>, buildError: Option<string>,
                       names: seq<string>, chain: ChainInput -> ChainOutcome,
                       store: seq<DocumentProcessor.Entry>, topK: int, elapsed: real)
    : (r: Result<QueryResponse, string>)
    ensures r.Failure? <==> openError.Some? || retrieverError.Some? || schemas.Failure? || buildError.Some?
    ensures openError.Some? ==> r == Failure(openError.value)
    ensures openError.None? && retrieverError.Some? ==> r == Failure(retrieverError.value)
    ensures openError.None? && retrieverError.None? && schemas.Failure? ==> r == Failure(schemas.error)
    ensures openError.None? && retrieverError.None? && schemas.Success? && buildError.Some? ==>
      r == Failure(buildError.value)
    ensures r.Success? ==>
      r.value == AnswerFor(question, role, includeSources, names,
        chain(ChainInput(PreparedPrompt(role, schemas.value), question, topK, includeSources, store)), elapsed)
  {
    if openError.Some? then Failure(openError.value)
    else if retrieverError.Some? then Failure(retrieverError.value)
    else if schemas.Failure? then Failure(schemas.error)
    else if buildError.Some? then Failure(buildError.value)
    else
      Success(AnswerFor(question, role, includeSources, names,
        chain(ChainInput(PreparedPrompt(role, schemas.value), question, topK, includeSources, store)), elapsed))
  }

  /** The prompt preparation inside `query`: the role's template with the tool block spliced in. */
  method PreparePrompt(role: UserRole, ws: seq<WireSchema>) returns (prompt: PromptTemplate)
    ensures prompt == PreparedPrompt(role, ws)
  {
    prompt := CreatePromptTemplate(role);
    var info := BuildToolInfo(ws);
    if !Contains(prompt.template, ToolsMarker) {
      prompt := prompt.(template := ReplaceAll(prompt.template, ResponseMarker, info + "\n" + ResponseMarker));
    }
  }

  /** The result shaping inside `query`, once the chain has run. */
  method ShapeAnswer(question: string, role: UserRole, includeSources: bool, names: seq<string>,
                     outcome: ChainOutcome, elapsed: real)
    returns (response: QueryResponse)
    ensures response == AnswerFor(question, role, includeSources, names, outcome, elapsed)
  {
    if outcome.ChainRaised? {
      return QueryResponse(question, ErrorAnswer(outcome.message), [], role.Value(), Disclaimer, elapsed, []);
    }
    var docs := [];
    if includeSources && outcome.sourceDocuments.Some? {
      docs := outcome.sourceDocuments.value;
    }
    var sources := ProcessSources(docs);
    assert sources == ShapedSources(docs);
    var answer := outcome.result.GetOr("");
    var used := ExtractToolsUsed(names, answer);
    response := QueryResponse(question, answer, sources, role.Value(), Disclaimer, elapsed, used);
  }

  /** Running the built chain on the question and shaping what it returns. */
  method RunChain(question: string, role: UserRole, includeSources: bool, names: seq<string>,
                  prompt: PromptTemplate, chain: ChainInput -> ChainOutcome,
                  store: seq<DocumentProcessor.Entry>, topK: int, elapsed: real)
    returns (response: QueryResponse)
    ensures response == AnswerFor(question, role, includeSources, names,
                                  chain(ChainInput(prompt, question, topK, includeSources, store)), elapsed)
  {
    var outcome := chain(ChainInput(prompt, question, topK, includeSources, store));
    response := ShapeAnswer(question, role, includeSources, names, outcome, elapsed);
  }

  class RagEngine {
    const settings: Config.Settings
    const processor: DocumentProcessor.DocumentProcessor
    var vectorstore: DocumentProcessor.VectorStore
    var retriever: Retriever

    /** Connects to the processor's store with the configured retrieval depth. */
    constructor(settings: Config.Settings, processor: DocumentProcessor.DocumentProcessor)
      ensures this.settings == settings && this.processor == processor
      ensures vectorstore == processor.store && retriever == Retriever(processor.store, settings.retrievalTopK)
    {
      this.settings := settings;
      this.processor := processor;
      vectorstore := processor.store;
      retriever := Retriever(processor.store, settings.retrievalTopK);
    }

    /**
     * `query`: reconnects to the store, lists the tools, prepares the prompt,
     * builds and runs the chain and shapes its answer. A chain that raises
     * while running yields an error answer rather than an exception; opening
     * the store, asking it for a retriever, listing the schemas and building
     * the chain raise to the caller, with the errors given as parameters.
     * The store is re-attached only once it opened, and the retriever only
     * once it was built.
     */
    method Query(question: string, role: UserRole, includeSources: bool, registry: Registry.ToolRegistry,
                 openError: Option<string>, retrieverError: Option<string>, buildError: Option<string>,
                 chain: ChainInput -> ChainOutcome, elapsed: real)
      returns (r: Result<QueryResponse, string>)
      requires registry.Consistent()
      modifies this
      ensures vectorstore == (if openError.Some? then old(vectorstore) else processor.store)
      ensures retriever ==
        (if openError.Some? || retrieverError.Some? then old(retriever)
         else Retriever(processor.store, settings.retrievalTopK))
      ensures r == QueryResult(question, role, includeSources, openError, retrieverError,
                               old(registry.GetAllSchemas()), buildError,
                               old(registry.GetToolNames()), chain, old(processor.store.entries),
                               settings.retrievalTopK, elapsed)
    {
      // Both registry reads are pure; they are taken before the fields change.
      var schemas := registry.GetAllSchemas();
      var names := registry.GetToolNames();
      if openError.Some? {
        return Failure(openError.value);
      }
      vectorstore := processor.store;
      if retrieverError.Some? {
        return Failure(retrieverError.value);
      }
      retriever := Retriever(vectorstore, settings.retrievalTopK);
      if schemas.Failure? {
        return Failure(schemas.error);
      }
      var prompt := PreparePrompt(role, schemas.value);
      if buildError.Some? {
        return Failure(buildError.value);
      }
      var response := RunChain(question, role, includeSources, names, prompt, chain,
                               vectorstore.entries, retriever.k, elapsed);
      r := Success(response);
    }
  }
}
