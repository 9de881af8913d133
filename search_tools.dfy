/**
 * The two search tools. Both answer from fixed result lists: the internal
 * search filters its three documents by type and cuts the list to a limit,
 * the web search always returns its two entries.
 */
module SearchTools {
  import opened Wrappers
  import opened ToolBase

  // ------------------------------------------------ search_internal_docs

  /** One internal document hit; the relevance score is kept in hundredths. */
  datatype DocHit = DocHit(id: string, title: string, docType: string, excerpt: string, relevanceHundredths: int)

  const VisitorPolicy := DocHit("doc_001", "Visitor Policy", "policy",
    "Visiting hours: 10:00-12:00, 16:00-18:00 daily", 95)
  const IcuGuidelines := DocHit("doc_002", "ICU Visiting Guidelines", "procedure",
    "ICU visitors limited to 1 per patient per visit", 87)
  const AdmissionProcedures := DocHit("doc_003", "Admission Procedures", "policy",
    "New admissions: Check-in at Reception, complete forms...", 72)

  const InternalDocs: seq<DocHit> := [VisitorPolicy, IcuGuidelines, AdmissionProcedures]

  const SearchTimeMs := 125

  const SearchDocsSchema := ToolSchema(
    "search_internal_docs", "Search Internal Documents",
    "Search hospital knowledge base, policies, and procedures", Search,
    [ParamSpec("query", "string", "Search query (e.g., 'visiting hours', 'admission process')", None),
     ParamSpec("doc_type", "string", "Document type filter: all, policy, procedure, guideline", None),
     ParamSpec("limit", "integer", "Number of results to return (default: 5)", None)],
    ["query"], "array",
    [map["input" := VOther("dict", true), "output" := VOther("dict", true)]])

  datatype SearchData = SearchData(query: Value, resultsCount: nat, results: seq<DocHit>, searchTimeMs: int)

  /** The hits whose type equals `docType`, in list order; a non-string type matches nothing. */
  function OfType(docs: seq<DocHit>, docType: Value): (r: seq<DocHit>)
    ensures |r| <= |docs|
    ensures forall h :: h in r <==> h in docs && docType == VStr(h.docType)
  {
    if |docs| == 0 then []
    else if docType == VStr(docs[0].docType) then [docs[0]] + OfType(docs[1..], docType)
    else OfType(docs[1..], docType)
  }

  /**
   * `OfType` keeps list order: the kept hits sit at strictly increasing
   * positions of `docs`.
   */
  lemma {:induction false} OfTypeKeepsOrder(docs: seq<DocHit>, docType: Value) returns (idx: seq<nat>)
    ensures |idx| == |OfType(docs, docType)|
    ensures forall k :: 0 <= k < |idx| ==> idx[k] < |docs| && docs[idx[k]] == OfType(docs, docType)[k]
    ensures forall k, l :: 0 <= k < l < |idx| ==> idx[k] < idx[l]
    decreases |docs|
  {
    if |docs| == 0 {
      idx := [];
    } else {
      var rest := OfTypeKeepsOrder(docs[1..], docType);
      var tail := OfType(docs[1..], docType);
      var keep := docType == VStr(docs[0].docType);
      assert OfType(docs, docType) == if keep then [docs[0]] + tail else tail;
      idx := ConsPositions(docs, tail, rest, keep);
    }
  }

  /**
   * Positions of kept elements of `s[1..]`, moved one place to the right,
   * with position 0 in front when the first element is kept too.
   */
  lemma ConsPositions<T>(s: seq<T>, kept: seq<T>, rest: seq<nat>, keepFirst: bool) returns (idx: seq<nat>)
    requires |s| > 0 && |rest| == |kept|
    requires forall k :: 0 <= k < |rest| ==> rest[k] < |s| - 1 && s[1..][rest[k]] == kept[k]
    requires forall k, l :: 0 <= k < l < |rest| ==> rest[k] < rest[l]
    ensures var out := if keepFirst then [s[0]] + kept else kept;
      |idx| == |out|
      && (forall k :: 0 <= k < |idx| ==> idx[k] < |s| && s[idx[k]] == out[k])
      && (forall k, l :: 0 <= k < l < |idx| ==> idx[k] < idx[l])
  {
    var shifted := seq(|rest|, k requires 0 <= k < |rest| => rest[k] + 1);
    forall k | 0 <= k < |shifted|
      ensures shifted[k] < |s| && s[shifted[k]] == kept[k]
    {
      assert s[shifted[k]] == s[1..][rest[k]];
    }
    if keepFirst {
      idx := [0] + shifted;
      var out := [s[0]] + kept;
      forall k | 0 < k < |idx|
        ensures idx[k] < |s| && s[idx[k]] == out[k]
      {
        assert idx[k] == shifted[k - 1] && out[k] == kept[k - 1];
      }
    } else {
      idx := shifted;
    }
  }

  /** The `doc_type` filter: `"all"` keeps every document. */
  function FilterByType(docs: seq<DocHit>, docType: Value): seq<DocHit> {
    if docType != VStr("all") then OfType(docs, docType) else docs
  }

  /** Python's `xs[:limit]` for an integer limit: a negative limit counts from the end. */
  function SlicePrefix<T>(xs: seq<T>, limit: int): (r: seq<T>)
    ensures |r| <= |xs| && r == xs[..|r|]
    ensures limit >= 0 ==> |r| == if limit < |xs| then limit else |xs|
    ensures limit < 0 ==> |r| == if |xs| + limit > 0 then |xs| + limit else 0
  {
    if limit >= 0 then (if limit < |xs| then xs[..limit] else xs)
    else if |xs| + limit > 0 then xs[..|xs| + limit]
    else []
  }

  /**
   * `xs[:limit]` for any limit value: `None` keeps everything, a boolean
   * counts as 0 or 1, and anything else is a `TypeError`.
   */
  function SliceByValue<T>(xs: seq<T>, limit: Value): Option<seq<T>> {
    match limit
    case VNull => Some(xs)
    case VBool(b) => Some(SlicePrefix(xs, if b then 1 else 0))
    case VInt(k) => Some(SlicePrefix(xs, k))
    case _ => None
  }

  const SliceTypeError := "slice indices must be integers or None or have an __index__ method"

  /** `search_internal_docs(query, doc_type="all", limit=5)` */
  function SearchInternalDocs(schema: Option<ToolSchema>, query: Value, docType: Value, limit: Value)
    : (r: ToolResult<SearchData>)
    ensures r.toolName == if schema.Some? then schema.value.name else "unknown"
    ensures r.success <==> ValidationOf(schema, {"query"}).Validated? && SliceByValue(InternalDocs, limit).Some?
    ensures r.success ==>
      r.data.Some? && r.data.value.query == query
      && r.data.value.results == SliceByValue(FilterByType(InternalDocs, docType), limit).value
      && r.data.value.resultsCount == |r.data.value.results|
      && r.data.value.searchTimeMs == SearchTimeMs
    ensures !r.success ==> r.data.None? && r.error.Some?
  {
    match ValidationOf(schema, {"query"})
    case MissingParameter(m) => Failed(schema, "Search failed: " + m)
    case Validated(_) =>
      match SliceByValue(FilterByType(InternalDocs, docType), limit)
      case None => Failed(schema, "Search failed: " + SliceTypeError)
      case Some(results) => Succeeded(schema, SearchData(query, |results|, results, SearchTimeMs))
  }

  /**
   * The filter over the fixed documents, case by case: `"all"` keeps the
   * three, `"policy"` the first and third, `"procedure"` the second, and
   * any other value none.
   */
  lemma FilterCases(docType: Value)
    ensures docType == VStr("all") ==> FilterByType(InternalDocs, docType) == InternalDocs
    ensures docType == VStr("policy") ==> FilterByType(InternalDocs, docType) == [VisitorPolicy, AdmissionProcedures]
    ensures docType == VStr("procedure") ==> FilterByType(InternalDocs, docType) == [IcuGuidelines]
    ensures docType !in {VStr("all"), VStr("policy"), VStr("procedure")} ==> FilterByType(InternalDocs, docType) == []
  {
    var rest1 := InternalDocs[1..];
    var rest2 := rest1[1..];
    assert rest1 == [IcuGuidelines, AdmissionProcedures];
    assert rest2 == [AdmissionProcedures];
    assert rest2[1..] == [];
    var policy := docType == VStr("policy");
    var procedure := docType == VStr("procedure");
    assert OfType(rest2, docType) == if policy then [AdmissionProcedures] else [];
    assert OfType(rest1, docType) == (if procedure then [IcuGuidelines] else []) + OfType(rest2, docType);
    assert OfType(InternalDocs, docType) == (if policy then [VisitorPolicy] else []) + OfType(rest1, docType);
  }

  predicate RelevanceNonIncreasing(hits: seq<DocHit>) {
    forall i, j :: 0 <= i < j < |hits| ==> hits[i].relevanceHundredths >= hits[j].relevanceHundredths
  }

  /**
   * Whatever the type and limit, the results are a prefix of the filtered
   * list, every one has the requested type, and they come most relevant first.
   */
  lemma SearchResultsOrdered(schema: Option<ToolSchema>, query: Value, docType: Value, limit: Value)
    requires SearchInternalDocs(schema, query, docType, limit).success
    ensures var results := SearchInternalDocs(schema, query, docType, limit).data.value.results;
      var filtered := FilterByType(InternalDocs, docType);
      |results| <= |filtered| && results == filtered[..|results|]
      && RelevanceNonIncreasing(results)
      && (docType != VStr("all") ==> forall h :: h in results ==> docType == VStr(h.docType))
  {
    var filtered := FilterByType(InternalDocs, docType);
    var results := SearchInternalDocs(schema, query, docType, limit).data.value.results;
    FilteredOrdered(docType);
    assert results == filtered[..|results|];
    PrefixOrdered(filtered, |results|);
  }

  /** The filtered documents come most relevant first, and a type filter keeps only that type. */
  lemma FilteredOrdered(docType: Value)
    ensures RelevanceNonIncreasing(FilterByType(InternalDocs, docType))
    ensures docType != VStr("all") ==> forall h :: h in FilterByType(InternalDocs, docType) ==> docType == VStr(h.docType)
  {
    FilterCases(docType);
  }

  /** A prefix of a list ordered by relevance is ordered by relevance. */
  lemma PrefixOrdered(hits: seq<DocHit>, k: nat)
    requires k <= |hits| && RelevanceNonIncreasing(hits)
    ensures RelevanceNonIncreasing(hits[..k])
  {
    assert forall i :: 0 <= i < k ==> hits[..k][i] == hits[i];
  }

  /** A call giving only the query returns all three documents. */
  lemma SearchDefaults(query: Value)
    ensures SearchInternalDocs(Some(SearchDocsSchema), query, VStr("all"), VInt(5)).data.value.results == InternalDocs
  {
    assert ValidationOf(Some(SearchDocsSchema), {"query"}) == Validated(true);
  }

  // ---------------------------------------------------------- web_search

  datatype WebHit = WebHit(title: string, url: string, snippet: string, source: string, date: string)

  const WebResults: seq<WebHit> := [
    WebHit("Health Topic Overview", "https://health-resource.com/info",
      "General information about the health topic...", "Medical Database", "2025-11-15"),
    WebHit("Latest Medical Research", "https://research.journal.com/article",
      "Recent findings show...", "Medical Journal", "2025-11-10")
  ]

  const WebSearchSchema := ToolSchema(
    "web_search", "Web Search", "Search external web for health/medical information", Search,
    [ParamSpec("query", "string", "Search query", None),
     ParamSpec("source_filter", "string", "Filter: all, medical, news, research", None)],
    ["query"], "array", [])

  datatype WebData = WebData(query: Value, results: seq<WebHit>, totalResults: nat)

  /** `web_search(query, source_filter="all")`: the filter is accepted and ignored. */
  function WebSearch(schema: Option<ToolSchema>, query: Value, sourceFilter: Value): (r: ToolResult<WebData>)
    ensures r.toolName == if schema.Some? then schema.value.name else "unknown"
    ensures r.success <==> ValidationOf(schema, {"query"}).Validated?
    ensures r.success ==> r.data == Some(WebData(query, WebResults, 2))
    ensures !r.success ==> r.data.None? && r.error.Some?
  {
    match ValidationOf(schema, {"query"})
    case MissingParameter(m) => Failed(schema, "Web search failed: " + m)
    case Validated(_) => Succeeded(schema, WebData(query, WebResults, |WebResults|))
  }
}
