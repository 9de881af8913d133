/**
 * The evaluation run against the HTTP service: the same scoring as the
 * engine-level evaluation, read from the JSON the `/query` endpoint returns,
 * with a shorter list of refusal phrases, no reciprocal rank, and a record
 * without a difficulty for a failed request.
 */
module ApiEvaluation {
  import opened Wrappers
  import opened Text
  import opened RagEvaluation

  /** The refusal phrases of this evaluation: the engine-level list without "healthcare professional". */
  const ApiRefusalIndicators: seq<string> := RefusalIndicators[..8]

  /** An answer this evaluation counts as a refusal, the engine-level evaluation counts as one too. */
  lemma ApiRefusalIsEngineRefusal(answer: string)
    ensures IsRefusal(answer, ApiRefusalIndicators) ==> IsRefusal(answer, RefusalIndicators)
  {
    if IsRefusal(answer, ApiRefusalIndicators) {
      RefusalUnderPrefix(answer, RefusalIndicators, 8);
    }
  }

  /** A source object of the JSON reply; only its optional `filename` key is read. */
  datatype Source = Source(filename: Option<string>)

  /** The JSON reply of `/query`: the answer and the optional `sources` list. */
  datatype Reply = Reply(answer: string, sources: Option<seq<Source>>)

  /** `[s.get("filename", "") for s in sources]` */
  function RetrievedFiles(sources: seq<Source>): (r: seq<string>)
    ensures |r| == |sources|
    ensures forall i :: 0 <= i < |r| ==> r[i] == (if sources[i].filename.Some? then sources[i].filename.value else "")
  {
    seq(|sources|, i requires 0 <= i < |sources| => sources[i].filename.GetOr(""))
  }

  /** A source without a filename is read as "", which only the empty expected name matches. */
  lemma UnnamedSourceRelevance(expected: seq<string>)
    ensures Relevant("", expected) <==> "" in expected
  {
    if Relevant("", expected) {
      var j :| 0 <= j < |expected| && Contains("", expected[j]);
      var k :| 0 <= k <= 0 - |expected[j]| && OccursAt("", expected[j], k);
      assert expected[j] == "";
    }
    if "" in expected {
      var j :| 0 <= j < |expected| && expected[j] == "";
      assert OccursAt("", expected[j], 0);
    }
  }

  /** The retrieval record of one API test: no reciprocal rank. */
  datatype ApiRetrieval = ApiRetrieval(
    precisionAtK: real, recallAtK: real, f1Score: real, retrievedFiles: seq<string>, expectedFiles: seq<string>)

  /**
   * `evaluate_retrieval`: precision, recall and F1 by the same substring rule
   * as the engine-level evaluation, over the filenames read with "" as
   * default; all three lie in [0, 1].
   */
  function EvaluateRetrieval(expected: seq<string>, sources: seq<Source>): (m: ApiRetrieval)
    ensures m.retrievedFiles == RetrievedFiles(sources) && m.expectedFiles == expected
    ensures var e := RetrievalOf(expected, RetrievedFiles(sources));
      m.precisionAtK == e.precisionAtK && m.recallAtK == e.recallAtK && m.f1Score == e.f1Score
    ensures 0.0 <= m.precisionAtK <= 1.0 && 0.0 <= m.recallAtK <= 1.0 && 0.0 <= m.f1Score <= 1.0
  {
    var files := RetrievedFiles(sources);
    var p := Precision(files, expected);
    var r := Recall(files, expected);
    RetrievalScoresBounded(expected, files);
    ApiRetrieval(p, r, F1(p, r), files, expected)
  }

  /** The service, sent a question, a role text and `include_sources`: its reply, or the error the request raised. */
  type Service = (string, string, bool) -> Result<Reply, string>

  /** What an API test records: the scores, or the error of the request (without a difficulty). */
  datatype ApiResult =
    | Scored(testId: string, category: string, difficulty: string, question: string,
             answer: string, passed: bool, quality: Quality, retrieval: ApiRetrieval)
    | Failed(testId: string, category: string, question: string, error: string)
  {
    predicate Passed() {
      Scored? && passed
    }
  }

  predicate IsScored(r: ApiResult) {
    r.Scored?
  }

  predicate IsApiPassed(r: ApiResult) {
    r.Passed()
  }

  /**
   * `run_single_test`: the role text goes to the service unchecked, a
   * missing `sources` key is read as no sources, and the pass rule is the
   * engine-level one.
   */
  function ApiSingleTest(tc: TestCase, service: Service): (r: ApiResult)
    ensures r.testId == tc.id && r.category == tc.category && r.question == tc.question
    ensures r.Scored? <==> service(tc.question, tc.userRole, true).Success?
    ensures r.Failed? ==> r.error == service(tc.question, tc.userRole, true).error
    ensures r.Scored? ==>
      r.difficulty == tc.difficulty
      && r.answer == service(tc.question, tc.userRole, true).value.answer
      && r.passed == Passes(tc.expectRefusal, r.quality, r.retrieval.recallAtK)
      && r.quality.sourcesCount == |service(tc.question, tc.userRole, true).value.sources.GetOr([])|
      && r.quality == EvaluateAnswerQuality(tc.expectedAnswerContains, tc.expectRefusal,
                                            service(tc.question, tc.userRole, true).value.answer,
                                            |service(tc.question, tc.userRole, true).value.sources.GetOr([])|,
                                            ApiRefusalIndicators)
      && r.retrieval == EvaluateRetrieval(tc.expectedSourceFiles, service(tc.question, tc.userRole, true).value.sources.GetOr([]))
  {
    match service(tc.question, tc.userRole, true)
    case Failure(e) => Failed(tc.id, tc.category, tc.question, e)
    case Success(reply) =>
      var sources := reply.sources.GetOr([]);
      var q := EvaluateAnswerQuality(tc.expectedAnswerContains, tc.expectRefusal, reply.answer,
                                     |sources|, ApiRefusalIndicators);
      var m := EvaluateRetrieval(tc.expectedSourceFiles, sources);
      Scored(tc.id, tc.category, tc.difficulty, tc.question, reply.answer,
             Passes(tc.expectRefusal, q, m.recallAtK), q, m)
  }

  /** A refusal-expected case that passes here would also count as a refusal at engine level. */
  lemma PassedRefusalIsEngineRefusal(tc: TestCase, service: Service)
    requires tc.expectRefusal && ApiSingleTest(tc, service).Passed()
    ensures IsRefusal(ApiSingleTest(tc, service).answer, RefusalIndicators)
  {
    ApiRefusalIsEngineRefusal(ApiSingleTest(tc, service).answer);
  }

  /** The records of running `tcs` in order. */
  function ApiOutcomes(tcs: seq<TestCase>, service: Service): (rs: seq<ApiResult>)
    ensures |rs| == |tcs|
    ensures forall i :: 0 <= i < |tcs| ==> rs[i] == ApiSingleTest(tcs[i], service)
  {
    if |tcs| == 0 then []
    else ApiOutcomes(tcs[..|tcs| - 1], service) + [ApiSingleTest(tcs[|tcs| - 1], service)]
  }

  /** The aggregate counts (the means and the query-time extremes are not modelled). */
  datatype ApiAggregate = ApiAggregate(totalTests: nat, passedTests: nat, passRate: real)

  /**
   * `_calculate_aggregates` on `results`, given the metrics already recorded:
   * nothing is written when every result failed.
   */
  function ApiAggregateOf(prev: Option<ApiAggregate>, results: seq<ApiResult>): Option<ApiAggregate> {
    var valid := Filter(results, IsScored);
    if |valid| == 0 then prev
    else
      var passed := |Filter(valid, IsApiPassed)|;
      Some(ApiAggregate(|results|, passed, (passed as real) / (|valid| as real)))
  }

  /**
   * With a scored result among them, the aggregate is written: failed
   * requests never count as passed, the passes are at most the scored
   * results, which are at most all results, and the pass rate lies in [0, 1].
   */
  lemma ApiAggregateFacts(prev: Option<ApiAggregate>, results: seq<ApiResult>)
    requires exists i :: 0 <= i < |results| && results[i].Scored?
    ensures var a := ApiAggregateOf(prev, results);
      a.Some?
      && a.value.totalTests == |results|
      && a.value.passedTests == |Filter(results, IsApiPassed)|
      && a.value.passedTests <= |Filter(results, IsScored)| <= a.value.totalTests
      && 0.0 <= a.value.passRate <= 1.0
      && (a.value.passRate == 1.0 <==> a.value.passedTests == |Filter(results, IsScored)|)
  {
    var valid := Filter(results, IsScored);
    var i :| 0 <= i < |results| && results[i].Scored?;
    assert results[i] in valid;
    FilterNarrows(results, IsScored, IsApiPassed);
    FractionBounds(|Filter(valid, IsApiPassed)|, |valid|);
  }

  /** A base URL with its trailing slashes removed: stripping again changes nothing. */
  lemma BaseUrlNormalised(url: string)
    ensures var b := RStrip(url, '/');
      RStrip(b, '/') == b && b == url[..|b|]
      && (|b| > 0 ==> b[|b| - 1] != '/')
      && forall i :: |b| <= i < |url| ==> url[i] == '/'
  {
  }

  /** The API evaluator: the service address, the delay between requests, the records and the metrics. */
  class ApiEvaluator {
    const baseUrl: string
    const requestDelay: real
    var individualResults: seq<ApiResult>
    var metrics: Option<ApiAggregate>

    /** `APIEvaluator(base_url, request_delay)`: the address is kept without trailing slashes. */
    constructor(baseUrl: string, requestDelay: real)
      ensures this.baseUrl == RStrip(baseUrl, '/') && this.requestDelay == requestDelay
      ensures individualResults == [] && metrics == None
    {
      this.baseUrl := RStrip(baseUrl, '/');
      this.requestDelay := requestDelay;
      individualResults := [];
      metrics := None;
    }

    /** `run_all_tests`: one record per case, appended in order, then the aggregates. */
    method RunAllTests(testCases: seq<TestCase>, service: Service)
      modifies this
      ensures individualResults == old(individualResults) + ApiOutcomes(testCases, service)
      ensures metrics == ApiAggregateOf(old(metrics), individualResults)
    {
      for i := 0 to |testCases|
        invariant metrics == old(metrics)
        invariant individualResults == old(individualResults) + ApiOutcomes(testCases[..i], service)
      {
        var r := ApiSingleTest(testCases[i], service);
        assert testCases[..i + 1][..i] == testCases[..i];
        individualResults := individualResults + [r];
      }
      assert testCases[..|testCases|] == testCases;
      CalculateAggregates();
    }

    /** `_calculate_aggregates` */
    method CalculateAggregates()
      modifies this
      ensures individualResults == old(individualResults)
      ensures metrics == ApiAggregateOf(old(metrics), individualResults)
    {
      var results := individualResults;
      var valid := Filter(results, IsScored);
      if |valid| == 0 {
        return;
      }
      var passed := |Filter(valid, IsApiPassed)|;
      metrics := Some(ApiAggregate(|results|, passed, (passed as real) / (|valid| as real)));
    }
  }
}
