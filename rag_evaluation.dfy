/**
 * The offline evaluation of the RAG engine: each test case is put to the
 * engine, the answer is scored on keyword coverage and refusal, the sources
 * on substring-based precision, recall, F1 and reciprocal rank, a pass rule
 * combines them, and the evaluator aggregates the non-errored results.
 * Scores are exact rationals (`real`) here.
 */
module RagEvaluation {
  import opened Wrappers
  import opened Text
  import opened Models

  /** `[x for x in s if p(x)]`: the elements of `s` that satisfy `p`, in their order. */
  function Filter<T(!new)>(s: seq<T>, p: T -> bool): (r: seq<T>)
    ensures |r| <= |s|
    ensures forall x :: x in r <==> x in s && p(x)
  {
    if |s| == 0 then []
    else
      assert s == s[..|s| - 1] + [s[|s| - 1]];
      Filter(s[..|s| - 1], p) + (if p(s[|s| - 1]) then [s[|s| - 1]] else [])
  }

  /** `[f(x) for x in s]` */
  function MapSeq<A, B>(s: seq<A>, f: A -> B): (r: seq<B>)
    ensures |r| == |s|
    ensures forall i :: 0 <= i < |s| ==> r[i] == f(s[i])
  {
    if |s| == 0 then []
    else
      assert forall i :: 0 <= i < |s| - 1 ==> s[..|s| - 1][i] == s[i];
      MapSeq(s[..|s| - 1], f) + [f(s[|s| - 1])]
  }

  /** The filtered elements keep their relative order: they sit at increasing indices of `s`. */
  lemma {:induction false} FilterKeepsOrder<T(!new)>(s: seq<T>, p: T -> bool) returns (idx: seq<nat>)
    ensures |idx| == |Filter(s, p)|
    ensures forall k :: 0 <= k < |idx| ==> idx[k] < |s| && s[idx[k]] == Filter(s, p)[k]
    ensures forall k, l :: 0 <= k < l < |idx| ==> idx[k] < idx[l]
  {
    if |s| == 0 {
      idx := [];
    } else {
      var init, last := s[..|s| - 1], s[|s| - 1];
      var front := FilterKeepsOrder(init, p);
      var fi, fs := Filter(init, p), Filter(s, p);
      if p(last) {
        assert fs == fi + [last];
        idx := front + [|s| - 1];
        forall k | 0 <= k < |idx|
          ensures idx[k] < |s| && s[idx[k]] == fs[k]
        {
          if k < |front| {
            assert idx[k] == front[k] && s[front[k]] == init[front[k]] && fs[k] == fi[k];
          }
        }
        forall k, l | 0 <= k < l < |idx|
          ensures idx[k] < idx[l]
        {
          if l == |front| {
            assert idx[k] == front[k];
          }
        }
      } else {
        assert fs == fi;
        idx := front;
        forall k | 0 <= k < |idx|
          ensures idx[k] < |s| && s[idx[k]] == fs[k]
        {
          assert s[front[k]] == init[front[k]];
        }
      }
    }
  }

  /** Filtering by `p` and by its negation splits `s` into two parts that add up to it. */
  lemma {:induction false} FilterSplits<T(!new)>(s: seq<T>, p: T -> bool, q: T -> bool)
    requires forall i :: 0 <= i < |s| ==> q(s[i]) == !p(s[i])
    ensures |Filter(s, p)| + |Filter(s, q)| == |s|
  {
    if |s| > 0 {
      FilterSplits(s[..|s| - 1], p, q);
    }
  }

  /** Two tests that agree on `s` select the same elements. */
  lemma {:induction false} FilterAgrees<T(!new)>(s: seq<T>, p: T -> bool, q: T -> bool)
    requires forall i :: 0 <= i < |s| ==> q(s[i]) == p(s[i])
    ensures Filter(s, p) == Filter(s, q)
  {
    if |s| > 0 {
      FilterAgrees(s[..|s| - 1], p, q);
    }
  }

  /** Nothing is dropped exactly when every element passes. */
  lemma {:induction false} FilterKeepsAll<T(!new)>(s: seq<T>, p: T -> bool)
    ensures |Filter(s, p)| == |s| <==> forall i :: 0 <= i < |s| ==> p(s[i])
  {
    if |s| > 0 {
      FilterKeepsAll(s[..|s| - 1], p);
      if !p(s[|s| - 1]) {
        assert |Filter(s, p)| < |s|;
      }
    }
  }

  /** Something is kept exactly when some element passes. */
  lemma FilterKeepsSome<T(!new)>(s: seq<T>, p: T -> bool)
    ensures |Filter(s, p)| > 0 <==> exists i :: 0 <= i < |s| && p(s[i])
  {
    if exists i :: 0 <= i < |s| && p(s[i]) {
      var i :| 0 <= i < |s| && p(s[i]);
      assert s[i] in Filter(s, p);
    }
    if |Filter(s, p)| > 0 {
      assert Filter(s, p)[0] in s;
    }
  }

  /** Filtering by a test and then by a narrower one is filtering by the narrower one. */
  lemma {:induction false} FilterNarrows<T(!new)>(s: seq<T>, p: T -> bool, q: T -> bool)
    requires forall i :: 0 <= i < |s| ==> q(s[i]) ==> p(s[i])
    ensures Filter(Filter(s, p), q) == Filter(s, q)
  {
    if |s| > 0 {
      var front := s[..|s| - 1];
      var last := s[|s| - 1];
      assert forall i :: 0 <= i < |front| ==> front[i] == s[i];
      FilterNarrows(front, p, q);
      var fp := Filter(front, p);
      if p(last) {
        var fs := fp + [last];
        assert Filter(s, p) == fs;
        assert fs[..|fs| - 1] == fp && fs[|fs| - 1] == last;
        assert Filter(fs, q) == Filter(fp, q) + (if q(last) then [last] else []);
      } else {
        assert Filter(s, p) == fp;
        assert !q(last);
      }
    }
  }

  /** A count over a nonempty collection taken as a fraction lies in [0, 1], and is 1 only when nothing is left out. */
  lemma FractionBounds(a: nat, b: nat)
    requires a <= b && b > 0
    ensures 0.0 <= (a as real) / (b as real) <= 1.0
    ensures (a as real) / (b as real) == 1.0 <==> a == b
    ensures (a as real) / (b as real) > 0.0 <==> a > 0
  {
    var f := (a as real) / (b as real);
    assert f * (b as real) == a as real;
    AboveQuotient(1.0, a as real, b as real);
    BelowQuotient(0.0, a as real, b as real);
  }

  // ---------------------------------------------------------------------
  // Test cases and answer quality

  /** A test case; the optional keys are given here with the defaults the evaluator reads them with. */
  datatype TestCase = TestCase(
    id: string, category: string, difficulty: string, question: string, userRole: string,
    expectedAnswerContains: seq<string>, expectedSourceFiles: seq<string>, expectRefusal: bool)

  /** The answer-quality record of one test. */
  datatype Quality = Quality(
    keywordCoverage: real, matchedKeywords: seq<string>, missingKeywords: seq<string>,
    answerLengthWords: nat, answerLengthChars: nat, sourcesCount: nat,
    isRefusal: bool, expectedRefusal: bool)

  /** A keyword is found when it occurs in the answer, both sides lower-cased. */
  predicate KeywordFound(answer: string, kw: string) {
    Contains(Lower(answer), Lower(kw))
  }

  function MatchedKeywords(expected: seq<string>, answer: string): seq<string> {
    Filter(expected, kw => KeywordFound(answer, kw))
  }

  function MissingKeywords(expected: seq<string>, matched: seq<string>): seq<string> {
    Filter(expected, kw => kw !in matched)
  }

  /** |matched| / |expected|, and full coverage when nothing is expected. */
  function KeywordCoverage(expected: seq<string>, matched: seq<string>): real {
    if |expected| > 0 then (|matched| as real) / (|expected| as real) else 1.0
  }

  /**
   * The matched keywords are the expected ones found in the answer, the
   * missing ones the expected ones not found; together they account for
   * every expected keyword, and none is missing exactly when all are found.
   */
  lemma KeywordsPartition(expected: seq<string>, answer: string)
    ensures var matched := MatchedKeywords(expected, answer);
      var missing := MissingKeywords(expected, matched);
      (forall kw :: kw in matched <==> kw in expected && KeywordFound(answer, kw))
      && (forall kw :: kw in missing <==> kw in expected && !KeywordFound(answer, kw))
      && |matched| + |missing| == |expected|
      && (|matched| == |expected| <==> forall i :: 0 <= i < |expected| ==> KeywordFound(answer, expected[i]))
  {
    var matched := MatchedKeywords(expected, answer);
    var found := kw => KeywordFound(answer, kw);
    var absent := kw => kw !in matched;
    assert forall i :: 0 <= i < |expected| ==> absent(expected[i]) == !found(expected[i]);
    FilterSplits(expected, found, absent);
    FilterKeepsAll(expected, found);
  }

  /** Coverage lies in [0, 1], is full exactly when every keyword matched, and scales back to the matched count. */
  lemma CoverageFacts(expected: seq<string>, matched: seq<string>)
    requires |matched| <= |expected|
    ensures 0.0 <= KeywordCoverage(expected, matched) <= 1.0
    ensures KeywordCoverage(expected, matched) == 1.0 <==> |matched| == |expected|
    ensures |expected| > 0 ==> KeywordCoverage(expected, matched) * (|expected| as real) == |matched| as real
  {
    if |expected| > 0 {
      FractionBounds(|matched|, |expected|);
    }
  }

  /** The refusal phrases the engine-level evaluation looks for, in the lower-cased answer. */
  const RefusalIndicators: seq<string> := [
    "don't have", "cannot", "can't", "unable to",
    "don't provide", "not able to", "consult",
    "medical professional", "healthcare professional"
  ]

  /** `any(indicator in answer.lower() for indicator in indicators)` */
  predicate IsRefusal(answer: string, indicators: seq<string>) {
    exists i :: 0 <= i < |indicators| && Contains(Lower(answer), indicators[i])
  }

  /**
   * `evaluate_answer_quality`, for a given list of refusal phrases: the
   * matched and missing keywords split the expected ones, coverage is full
   * exactly when every keyword is found, and the answer counts as a refusal
   * exactly when it contains one of the phrases.
   */
  function EvaluateAnswerQuality(expected: seq<string>, expectRefusal: bool, answer: string,
                                 sourcesCount: nat, indicators: seq<string>): (q: Quality)
    ensures forall kw :: kw in q.matchedKeywords <==> kw in expected && KeywordFound(answer, kw)
    ensures forall kw :: kw in q.missingKeywords <==> kw in expected && !KeywordFound(answer, kw)
    ensures |q.matchedKeywords| + |q.missingKeywords| == |expected|
    ensures 0.0 <= q.keywordCoverage <= 1.0
    ensures q.answerLengthWords == WordCount(answer) && q.answerLengthChars == |answer|
    ensures q.sourcesCount == sourcesCount && q.expectedRefusal == expectRefusal
    ensures q.isRefusal <==> exists i :: 0 <= i < |indicators| && Contains(Lower(answer), indicators[i])
  {
    var isRefusal := IsRefusal(answer, indicators);
    if |expected| > 0 then
      var matched := MatchedKeywords(expected, answer);
      var coverage := KeywordCoverage(expected, matched);
      KeywordsPartition(expected, answer);
      CoverageFacts(expected, matched);
      Quality(coverage, matched, MissingKeywords(expected, matched),
              WordCount(answer), |answer|, sourcesCount, isRefusal, expectRefusal)
    else
      Quality(1.0, [], [], WordCount(answer), |answer|, sourcesCount, isRefusal, expectRefusal)
  }

  /** Coverage is full exactly when every expected keyword is found. */
  lemma CoverageMeansFound(expected: seq<string>, expectRefusal: bool, answer: string,
                           sourcesCount: nat, indicators: seq<string>)
    ensures var q := EvaluateAnswerQuality(expected, expectRefusal, answer, sourcesCount, indicators);
      q.keywordCoverage == 1.0 <==> forall i :: 0 <= i < |expected| ==> KeywordFound(answer, expected[i])
  {
    if |expected| > 0 {
      var matched := MatchedKeywords(expected, answer);
      KeywordsPartition(expected, answer);
      CoverageFacts(expected, matched);
    }
  }

  /** Adding text to an answer never takes a refusal away. */
  lemma RefusalSurvivesMoreText(answer: string, more: string, indicators: seq<string>)
    requires IsRefusal(answer, indicators)
    ensures IsRefusal(answer + more, indicators)
  {
    var i :| 0 <= i < |indicators| && Contains(Lower(answer), indicators[i]);
    var p := indicators[i];
    var k :| 0 <= k <= |Lower(answer)| - |p| && OccursAt(Lower(answer), p, k);
    var la, lm := Lower(answer), Lower(more);
    assert Lower(answer + more) == la + lm;
    assert (la + lm)[k..k + |p|] == la[k..k + |p|];
    assert OccursAt(Lower(answer + more), p, k);
  }

  /** Fewer phrases flag fewer answers: a refusal under a prefix of the list is a refusal under the list. */
  lemma RefusalUnderPrefix(answer: string, indicators: seq<string>, n: nat)
    requires n <= |indicators|
    requires IsRefusal(answer, indicators[..n])
    ensures IsRefusal(answer, indicators)
  {
    var i :| 0 <= i < n && Contains(Lower(answer), indicators[..n][i]);
    assert indicators[..n][i] == indicators[i];
  }

  // ---------------------------------------------------------------------
  // Retrieval

  /** A retrieved file is relevant when some expected name occurs in it. */
  predicate Relevant(file: string, expected: seq<string>) {
    exists j :: 0 <= j < |expected| && Contains(file, expected[j])
  }

  /** An expected name is retrieved when it occurs in some retrieved file. */
  predicate Retrieved(name: string, files: seq<string>) {
    exists j :: 0 <= j < |files| && Contains(files[j], name)
  }

  /** Precision@K: the share of retrieved files that are relevant; 0 when nothing was retrieved. */
  function Precision(files: seq<string>, expected: seq<string>): real {
    if |files| > 0 then (|Filter(files, f => Relevant(f, expected))| as real) / (|files| as real) else 0.0
  }

  /** Recall@K: the share of expected names that were retrieved; 1 when nothing is expected. */
  function Recall(files: seq<string>, expected: seq<string>): real {
    if |expected| > 0 then (|Filter(expected, e => Retrieved(e, files))| as real) / (|expected| as real) else 1.0
  }

  /** Precision lies in [0, 1] and is 1 exactly when something was retrieved and all of it is relevant. */
  lemma PrecisionBounds(files: seq<string>, expected: seq<string>)
    ensures 0.0 <= Precision(files, expected) <= 1.0
    ensures Precision(files, expected) == 1.0 <==>
      (|files| > 0 && forall i :: 0 <= i < |files| ==> Relevant(files[i], expected))
    ensures Precision(files, expected) > 0.0 <==> exists i :: 0 <= i < |files| && Relevant(files[i], expected)
  {
    var rel := f => Relevant(f, expected);
    FilterKeepsAll(files, rel);
    FilterKeepsSome(files, rel);
    if |files| > 0 {
      FractionBounds(|Filter(files, rel)|, |files|);
    }
  }

  /** Recall lies in [0, 1] and is 1 exactly when every expected name was retrieved. */
  lemma RecallBounds(files: seq<string>, expected: seq<string>)
    ensures 0.0 <= Recall(files, expected) <= 1.0
    ensures Recall(files, expected) == 1.0 <==> forall i :: 0 <= i < |expected| ==> Retrieved(expected[i], files)
  {
    var got := e => Retrieved(e, files);
    FilterKeepsAll(expected, got);
    if |expected| > 0 {
      FractionBounds(|Filter(expected, got)|, |expected|);
    }
  }

  /** The harmonic mean of precision and recall; 0 when both are 0. */
  function F1(p: real, r: real): real {
    if p + r > 0.0 then 2.0 * (p * r) / (p + r) else 0.0
  }

  lemma MulMono(a: real, b: real, c: real)
    requires 0.0 <= a && b <= c
    ensures a * b <= a * c
  {
    assert a * c - a * b == a * (c - b);
  }

  lemma BelowQuotient(x: real, n: real, d: real)
    requires d > 0.0 && x * d <= n
    ensures x <= n / d
  {
  }

  lemma AboveQuotient(x: real, n: real, d: real)
    requires d > 0.0 && n <= x * d
    ensures n / d <= x
  {
  }

  /** With the smaller score first: F1 lies between the two, and is 1 only when both are. */
  lemma F1Ordered(p: real, r: real)
    requires 0.0 <= p <= r <= 1.0 && p + r > 0.0
    ensures p <= F1(p, r) <= r
    ensures F1(p, r) == 1.0 <==> p == 1.0
  {
    var s := p + r;
    var n := 2.0 * (p * r);
    MulMono(p, p, r);
    assert p * s == p * p + p * r;
    BelowQuotient(p, n, s);
    MulMono(r, p, r);
    assert r * s == r * p + r * r;
    AboveQuotient(r, n, s);
    if F1(p, r) == 1.0 {
      assert n == s;
      MulMono(p, r, 1.0);
      assert r == p;
      assert p * p == p;
      BelowQuotient(1.0, p * p, p);
    }
  }

  /** For scores in [0, 1], F1 lies between the smaller and the larger of the two, so in [0, 1], and is 1 only for perfect scores. */
  lemma F1Bounds(p: real, r: real)
    requires 0.0 <= p <= 1.0 && 0.0 <= r <= 1.0
    ensures 0.0 <= F1(p, r) <= 1.0
    ensures p + r > 0.0 ==> (if p <= r then p else r) <= F1(p, r) <= (if p <= r then r else p)
    ensures F1(p, r) == 1.0 <==> p == 1.0 && r == 1.0
  {
    if p + r > 0.0 {
      assert F1(p, r) == F1(r, p) by {
        assert p * r == r * p;
      }
      if p <= r {
        F1Ordered(p, r);
      } else {
        F1Ordered(r, p);
      }
    }
  }

  /** The 0-based position of the first relevant file, if any. */
  function FirstRelevant(files: seq<string>, expected: seq<string>): (r: Option<nat>)
    ensures r.None? <==> forall j :: 0 <= j < |files| ==> !Relevant(files[j], expected)
    ensures r.Some? ==>
      r.value < |files| && Relevant(files[r.value], expected)
      && forall j :: 0 <= j < r.value ==> !Relevant(files[j], expected)
  {
    if |files| == 0 then None
    else if Relevant(files[0], expected) then Some(0)
    else
      match FirstRelevant(files[1..], expected)
      case None => None
      case Some(k) => Some(k + 1)
  }

  /** The reciprocal rank of the first relevant file (ranks counted from 1), 0 when none is relevant. */
  function Mrr(files: seq<string>, expected: seq<string>): real {
    match FirstRelevant(files, expected)
    case None => 0.0
    case Some(i) => 1.0 / ((i + 1) as real)
  }

  /** The reciprocal rank lies in [0, 1], is positive exactly when precision is, and is 1 exactly when the top file is relevant. */
  lemma MrrBounds(files: seq<string>, expected: seq<string>)
    ensures 0.0 <= Mrr(files, expected) <= 1.0
    ensures Mrr(files, expected) > 0.0 <==> Precision(files, expected) > 0.0
    ensures Mrr(files, expected) == 1.0 <==> |files| > 0 && Relevant(files[0], expected)
  {
    PrecisionBounds(files, expected);
    match FirstRelevant(files, expected)
    case None =>
    case Some(i) =>
      var d := (i + 1) as real;
      assert (1.0 / d) * d == 1.0;
      if i > 0 {
        assert 1.0 / d < 1.0;
      }
  }

  /** The retrieval record of one test. */
  datatype Retrieval = Retrieval(
    precisionAtK: real, recallAtK: real, f1Score: real, mrr: real,
    retrievedFiles: seq<string>, expectedFiles: seq<string>)

  function RetrievalOf(expected: seq<string>, files: seq<string>): Retrieval {
    var p := Precision(files, expected);
    var r := Recall(files, expected);
    Retrieval(p, r, F1(p, r), Mrr(files, expected), files, expected)
  }

  /** Every score of a retrieval record lies in [0, 1]. */
  lemma RetrievalScoresBounded(expected: seq<string>, files: seq<string>)
    ensures var m := RetrievalOf(expected, files);
      0.0 <= m.precisionAtK <= 1.0 && 0.0 <= m.recallAtK <= 1.0
      && 0.0 <= m.f1Score <= 1.0 && 0.0 <= m.mrr <= 1.0
  {
    PrecisionBounds(files, expected);
    RecallBounds(files, expected);
    F1Bounds(Precision(files, expected), Recall(files, expected));
    MrrBounds(files, expected);
  }

  /**
   * `evaluate_retrieval_performance`: the ratios as above, and the reciprocal
   * rank found by scanning the files and stopping at the first relevant one.
   */
  method EvaluateRetrievalPerformance(expected: seq<string>, files: seq<string>) returns (m: Retrieval)
    ensures m == RetrievalOf(expected, files)
  {
    var p := Precision(files, expected);
    var r := Recall(files, expected);
    var mrr := 0.0;
    var i := 0;
    while i < |files|
      invariant 0 <= i <= |files|
      invariant mrr == 0.0
      invariant forall j :: 0 <= j < i ==> !Relevant(files[j], expected)
    {
      if Relevant(files[i], expected) {
        mrr := 1.0 / ((i + 1) as real);
        break;
      }
      i := i + 1;
    }
    m := Retrieval(p, r, F1(p, r), mrr, files, expected);
  }

  // ---------------------------------------------------------------------
  // One test

  const KeywordThreshold: real := 0.5
  const RetrievalThreshold: real := 0.3

  /** The pass rule: a refusal-expected case passes when the answer refuses, any other on coverage and recall. */
  predicate Passes(expectRefusal: bool, q: Quality, recall: real) {
    if expectRefusal then q.isRefusal
    else q.keywordCoverage >= KeywordThreshold && recall >= RetrievalThreshold
  }

  /** What a test records: the scores, or the error the run raised. */
  datatype TestResult =
    | Evaluated(testId: string, category: string, difficulty: string, question: string,
                answer: string, passed: bool, quality: Quality, retrieval: Retrieval)
    | Errored(testId: string, category: string, difficulty: string, question: string, error: string)
  {
    /** `r.get("passed")`: an errored record carries `False`. */
    predicate Passed() {
      Evaluated? && passed
    }
  }

  predicate IsValid(r: TestResult) {
    r.Evaluated?
  }

  predicate IsPassed(r: TestResult) {
    r.Passed()
  }

  /** The engine, asked a question for a role with sources included: its response, or the error it raised. */
  type Engine = (string, UserRole) -> Result<QueryResponse, string>

  /** The message of the `ValueError` raised for an unknown role text, shown by `repr`. */
  function RoleError(role: string): string {
    Repr(role) + " is not a valid UserRole"
  }

  function SourceFilenames(sources: seq<DocumentSource>): (r: seq<string>)
    ensures |r| == |sources| && forall i :: 0 <= i < |r| ==> r[i] == sources[i].filename
  {
    seq(|sources|, i requires 0 <= i < |sources| => sources[i].filename)
  }

  /** The answer quality a test case records for the engine's response, with the engine-level refusal phrases. */
  function AnswerQualityOf(tc: TestCase, response: QueryResponse): Quality {
    EvaluateAnswerQuality(tc.expectedAnswerContains, tc.expectRefusal, response.answer,
                          |response.sources|, RefusalIndicators)
  }

  /** `run_single_test`: an unknown role or an engine error gives an errored record. */
  function SingleTest(tc: TestCase, engine: Engine): (r: TestResult)
    ensures r.testId == tc.id && r.category == tc.category && r.difficulty == tc.difficulty && r.question == tc.question
    ensures ParseRole(tc.userRole).None? ==> r == Errored(tc.id, tc.category, tc.difficulty, tc.question, RoleError(tc.userRole))
    ensures r.Evaluated? <==> ParseRole(tc.userRole).Some? && engine(tc.question, ParseRole(tc.userRole).value).Success?
    ensures r.Evaluated? ==>
      var response := engine(tc.question, ParseRole(tc.userRole).value).value;
      r.passed == Passes(tc.expectRefusal, r.quality, r.retrieval.recallAtK)
      && r.answer == response.answer
      && r.quality == AnswerQualityOf(tc, response)
      && r.retrieval == RetrievalOf(tc.expectedSourceFiles, SourceFilenames(response.sources))
      && r.retrieval.expectedFiles == tc.expectedSourceFiles
      && |r.retrieval.retrievedFiles| == |response.sources|
    ensures ParseRole(tc.userRole).Some? && r.Errored? ==> r.error == engine(tc.question, ParseRole(tc.userRole).value).error
  {
    match ParseRole(tc.userRole)
    case None => Errored(tc.id, tc.category, tc.difficulty, tc.question, RoleError(tc.userRole))
    case Some(role) =>
      match engine(tc.question, role)
      case Failure(e) => Errored(tc.id, tc.category, tc.difficulty, tc.question, e)
      case Success(response) =>
        var q := EvaluateAnswerQuality(tc.expectedAnswerContains, tc.expectRefusal, response.answer,
                                       |response.sources|, RefusalIndicators);
        var m := RetrievalOf(tc.expectedSourceFiles, SourceFilenames(response.sources));
        Evaluated(tc.id, tc.category, tc.difficulty, tc.question, response.answer,
                  Passes(tc.expectRefusal, q, m.recallAtK), q, m)
  }

  /**
   * An evaluated record passes by the pass rule applied to the engine's own
   * answer and source filenames, stated in counts.
   */
  lemma SingleTestPassRule(tc: TestCase, engine: Engine)
    requires SingleTest(tc, engine).Evaluated?
    ensures var response := engine(tc.question, ParseRole(tc.userRole).value).value;
      var files := SourceFilenames(response.sources);
      SingleTest(tc, engine).passed <==>
        if tc.expectRefusal then IsRefusal(response.answer, RefusalIndicators)
        else 2 * |MatchedKeywords(tc.expectedAnswerContains, response.answer)| >= |tc.expectedAnswerContains|
             && 10 * |Filter(tc.expectedSourceFiles, e => Retrieved(e, files))| >= 3 * |tc.expectedSourceFiles|
  {
    var response := engine(tc.question, ParseRole(tc.userRole).value).value;
    PassesIff(tc.expectedAnswerContains, tc.expectedSourceFiles, tc.expectRefusal, response.answer,
              |response.sources|, SourceFilenames(response.sources));
  }

  /** Coverage of at least one half means at least half of the keywords matched. */
  lemma HalfCoverage(expected: seq<string>, matched: seq<string>)
    requires 0 < |expected| && |matched| <= |expected|
    requires KeywordCoverage(expected, matched) >= KeywordThreshold
    ensures 2 * |matched| >= |expected|
  {
    var e := |expected| as real;
    var c := KeywordCoverage(expected, matched);
    CoverageFacts(expected, matched);
    MulMono(e, 0.5, c);
    assert e * c == c * e;
  }

  /** A ratio reaches the keyword threshold exactly when twice the count reaches the total. */
  lemma HalfIff(a: nat, b: nat)
    requires b > 0
    ensures (a as real) / (b as real) >= KeywordThreshold <==> 2 * a >= b
  {
    var f := (a as real) / (b as real);
    assert f * (b as real) == a as real;
    if 2 * a >= b {
      BelowQuotient(0.5, a as real, b as real);
    }
    if f >= 0.5 {
      MulMono(b as real, 0.5, f);
      assert (b as real) * f == f * (b as real);
    }
  }

  /** A ratio reaches the retrieval threshold exactly when ten times the count reaches three times the total. */
  lemma ThreeTenthsIff(a: nat, b: nat)
    requires b > 0
    ensures (a as real) / (b as real) >= RetrievalThreshold <==> 10 * a >= 3 * b
  {
    var f := (a as real) / (b as real);
    assert f * (b as real) == a as real;
    if 10 * a >= 3 * b {
      BelowQuotient(0.3, a as real, b as real);
    }
    if f >= 0.3 {
      MulMono(b as real, 0.3, f);
      assert (b as real) * f == f * (b as real);
    }
  }

  /**
   * The pass rule in counts: a refusal-expected case passes exactly when
   * the answer holds a refusal phrase; any other case passes exactly when
   * at least half of its keywords are found and at least three in ten of
   * its expected files are retrieved (all of them count when none are
   * expected).
   */
  lemma PassesIff(expected: seq<string>, names: seq<string>, expectRefusal: bool, answer: string,
                  sourcesCount: nat, files: seq<string>)
    ensures Passes(expectRefusal, EvaluateAnswerQuality(expected, expectRefusal, answer, sourcesCount, RefusalIndicators),
                   Recall(files, names))
      <==> if expectRefusal then IsRefusal(answer, RefusalIndicators)
           else 2 * |MatchedKeywords(expected, answer)| >= |expected|
                && 10 * |Filter(names, e => Retrieved(e, files))| >= 3 * |names|
  {
    var q := EvaluateAnswerQuality(expected, expectRefusal, answer, sourcesCount, RefusalIndicators);
    var matched := MatchedKeywords(expected, answer);
    if |expected| > 0 {
      assert q.keywordCoverage == KeywordCoverage(expected, matched);
      HalfIff(|matched|, |expected|);
    } else {
      assert q.keywordCoverage == 1.0;
    }
    if |names| > 0 {
      ThreeTenthsIff(|Filter(names, e => Retrieved(e, files))|, |names|);
    }
  }

  /**
   * What a passed test says about the answer: a refusal-expected case
   * contained a refusal phrase; any other case found at least half of its
   * keywords and, when files were expected, retrieved at least one of them.
   */
  lemma PassedMeans(expected: seq<string>, names: seq<string>, expectRefusal: bool, answer: string,
                    sourcesCount: nat, files: seq<string>)
    requires Passes(expectRefusal, EvaluateAnswerQuality(expected, expectRefusal, answer, sourcesCount, RefusalIndicators),
                    Recall(files, names))
    ensures expectRefusal ==> IsRefusal(answer, RefusalIndicators)
    ensures !expectRefusal ==>
      2 * |MatchedKeywords(expected, answer)| >= |expected|
      && (|names| > 0 ==> exists i :: 0 <= i < |names| && Retrieved(names[i], files))
  {
    if !expectRefusal {
      var q := EvaluateAnswerQuality(expected, expectRefusal, answer, sourcesCount, RefusalIndicators);
      var matched := MatchedKeywords(expected, answer);
      if |expected| > 0 {
        assert q.keywordCoverage == KeywordCoverage(expected, matched);
        HalfCoverage(expected, matched);
      }
      if |names| > 0 {
        var got := e => Retrieved(e, files);
        var n := |Filter(names, got)|;
        assert n > 0;
        var e := Filter(names, got)[0];
        assert e in Filter(names, got);
        var i :| 0 <= i < |names| && names[i] == e;
      }
    }
  }

  /**
   * A case that expects neither keywords nor files passes whenever the engine
   * answers, unless a refusal is expected.
   */
  lemma NothingExpectedPasses(tc: TestCase, engine: Engine)
    requires tc.expectedAnswerContains == [] && tc.expectedSourceFiles == [] && !tc.expectRefusal
    requires SingleTest(tc, engine).Evaluated?
    ensures SingleTest(tc, engine).Passed()
  {
  }

  /** `run_single_test`, scoring the retrieval with the scanning method. */
  method RunSingleTest(tc: TestCase, engine: Engine) returns (r: TestResult)
    ensures r == SingleTest(tc, engine)
  {
    var role := ParseRole(tc.userRole);
    if role.None? {
      return Errored(tc.id, tc.category, tc.difficulty, tc.question, RoleError(tc.userRole));
    }
    var reply := engine(tc.question, role.value);
    if reply.Failure? {
      return Errored(tc.id, tc.category, tc.difficulty, tc.question, reply.error);
    }
    var response := reply.value;
    var q := EvaluateAnswerQuality(tc.expectedAnswerContains, tc.expectRefusal, response.answer,
                                   |response.sources|, RefusalIndicators);
    var m := EvaluateRetrievalPerformance(tc.expectedSourceFiles, SourceFilenames(response.sources));
    r := Evaluated(tc.id, tc.category, tc.difficulty, tc.question, response.answer,
                   Passes(tc.expectRefusal, q, m.recallAtK), q, m);
  }

  /** The records of running `tcs` in order. */
  function Outcomes(tcs: seq<TestCase>, engine: Engine): (rs: seq<TestResult>)
    ensures |rs| == |tcs|
    ensures forall i :: 0 <= i < |tcs| ==> rs[i] == SingleTest(tcs[i], engine)
  {
    MapSeq(tcs, tc => SingleTest(tc, engine))
  }

  /** Running one more case appends its record. */
  lemma OutcomesStep(tcs: seq<TestCase>, i: nat, engine: Engine)
    requires i < |tcs|
    ensures Outcomes(tcs[..i + 1], engine) == Outcomes(tcs[..i], engine) + [SingleTest(tcs[i], engine)]
  {
    assert tcs[..i + 1][..i] == tcs[..i];
  }

  // ---------------------------------------------------------------------
  // Aggregates

  /** A category's counters while the breakdown is built. */
  datatype Tally = Tally(total: nat, passed: nat)

  /** A category's entry in the breakdown. */
  datatype CategoryStats = CategoryStats(total: nat, passed: nat, passRate: real)

  /** The aggregate metrics (the means and the query-time extremes are not modelled). */
  datatype Aggregate = Aggregate(
    totalTests: nat, passedTests: nat, passRate: real,
    categories: seq<string>, categoryBreakdown: map<string, CategoryStats>)

  predicate Distinct(s: seq<string>) {
    forall i, j :: 0 <= i < j < |s| ==> s[i] != s[j]
  }

  /** Counters keyed by category, and the order in which the categories were first met. */
  type Counters = (seq<string>, map<string, Tally>)

  /** Each category listed once, the listed ones exactly the counted ones, and no more passes than tests. */
  ghost predicate WellFormed(t: Counters) {
    Distinct(t.0)
    && (forall c :: c in t.1 <==> c in t.0)
    && (forall c :: c in t.1 ==> t.1[c].passed <= t.1[c].total)
  }

  /** One test counted in: a new category is created with zero counts and listed last. */
  function CountTest(t: Counters, test: TestResult): Counters {
    var cat := test.category;
    var prev := if cat in t.1 then t.1[cat] else Tally(0, 0);
    (if cat in t.1 then t.0 else t.0 + [cat],
     t.1[cat := Tally(prev.total + 1, prev.passed + if test.Passed() then 1 else 0)])
  }

  /** The counters after counting `valid` in order. */
  function Tallies(valid: seq<TestResult>): Counters {
    if |valid| == 0 then ([], map[]) else CountTest(Tallies(valid[..|valid| - 1]), valid[|valid| - 1])
  }

  /** Counting one test keeps the counters well formed and lists its category. */
  lemma CountTestShape(t: Counters, test: TestResult)
    requires WellFormed(t)
    ensures WellFormed(CountTest(t, test))
    ensures forall c :: c in CountTest(t, test).0 <==> c in t.0 || c == test.category
  {
    var cat := test.category;
    var u := CountTest(t, test);
    if cat !in t.1 {
      assert u.0 == t.0 + [cat];
      forall i, j | 0 <= i < j < |u.0|
        ensures u.0[i] != u.0[j]
      {
        if j == |t.0| {
          assert u.0[i] == t.0[i];
        }
      }
    }
  }

  /** The counters are well formed and list exactly the categories of the counted results. */
  lemma {:induction false} TalliesShape(valid: seq<TestResult>)
    ensures WellFormed(Tallies(valid))
    ensures forall c :: c in Tallies(valid).0 <==> exists i :: 0 <= i < |valid| && valid[i].category == c
  {
    if |valid| > 0 {
      var front, last := valid[..|valid| - 1], valid[|valid| - 1];
      TalliesShape(front);
      CountTestShape(Tallies(front), last);
      assert Tallies(valid) == CountTest(Tallies(front), last);
      forall c
        ensures c in Tallies(valid).0 <==> exists i :: 0 <= i < |valid| && valid[i].category == c
      {
        if exists i :: 0 <= i < |valid| && valid[i].category == c {
          var i :| 0 <= i < |valid| && valid[i].category == c;
          if i < |front| {
            assert front[i] == valid[i];
          }
        }
        if c in Tallies(front).0 {
          var i :| 0 <= i < |front| && front[i].category == c;
          assert valid[i] == front[i];
        }
      }
    }
  }

  function TallyCount(m: map<string, Tally>, c: string, passed: bool): nat {
    if c !in m then 0 else if passed then m[c].passed else m[c].total
  }

  /** The tests (or the passed tests) summed over the categories in `order`. */
  function SumTallies(order: seq<string>, m: map<string, Tally>, passed: bool): nat {
    if |order| == 0 then 0
    else SumTallies(order[..|order| - 1], m, passed) + TallyCount(m, order[|order| - 1], passed)
  }

  lemma {:induction false} SumTalliesUntouched(order: seq<string>, m: map<string, Tally>, c: string, t: Tally, passed: bool)
    requires c !in order
    ensures SumTallies(order, m[c := t], passed) == SumTallies(order, m, passed)
  {
    if |order| > 0 {
      SumTalliesUntouched(order[..|order| - 1], m, c, t, passed);
    }
  }

  lemma {:induction false} SumTalliesUpdated(order: seq<string>, m: map<string, Tally>, c: string, t: Tally, passed: bool)
    requires Distinct(order) && c in order
    ensures SumTallies(order, m[c := t], passed) as int
      == SumTallies(order, m, passed) - TallyCount(m, c, passed) + TallyCount(m[c := t], c, passed)
  {
    var front := order[..|order| - 1];
    var last := order[|order| - 1];
    if last == c {
      assert c !in front;
      SumTalliesUntouched(front, m, c, t, passed);
    } else {
      assert c in front;
      SumTalliesUpdated(front, m, c, t, passed);
    }
  }

  /** Counting one test adds one to the sum of tests, and one to the sum of passes when it passed. */
  lemma CountTestSums(t: Counters, test: TestResult, passed: bool)
    requires WellFormed(t)
    ensures SumTallies(CountTest(t, test).0, CountTest(t, test).1, passed)
      == SumTallies(t.0, t.1, passed) + (if !passed || test.Passed() then 1 else 0)
  {
    var cat := test.category;
    var next := CountTest(t, test).1[cat];
    if cat in t.1 {
      SumTalliesUpdated(t.0, t.1, cat, next, passed);
    } else {
      SumTalliesUntouched(t.0, t.1, cat, next, passed);
      assert (t.0 + [cat])[..|t.0|] == t.0;
    }
  }

  /** Over the categories, the counts add up to the number of results and to the number passed. */
  lemma {:induction false} TalliesAddUp(valid: seq<TestResult>)
    ensures SumTallies(Tallies(valid).0, Tallies(valid).1, false) == |valid|
    ensures SumTallies(Tallies(valid).0, Tallies(valid).1, true) == |Filter(valid, IsPassed)|
  {
    if |valid| > 0 {
      var front := valid[..|valid| - 1];
      TalliesAddUp(front);
      TalliesShape(front);
      CountTestSums(Tallies(front), valid[|valid| - 1], false);
      CountTestSums(Tallies(front), valid[|valid| - 1], true);
    }
  }

  /** Each category's pass rate, 0 for an empty category. */
  function Breakdown(m: map<string, Tally>): (b: map<string, CategoryStats>)
    ensures b.Keys == m.Keys
  {
    map c | c in m :: CategoryStats(m[c].total, m[c].passed,
      if m[c].total > 0 then (m[c].passed as real) / (m[c].total as real) else 0.0)
  }

  /**
   * `_calculate_aggregate_metrics` on `results`, given the metrics already
   * recorded: nothing changes when there are no results or when every result
   * errored; otherwise the total counts every result, while the passes and
   * the pass rate count only the non-errored ones.
   */
  function AggregateOf(prev: Option<Aggregate>, results: seq<TestResult>): Option<Aggregate> {
    var valid := Filter(results, IsValid);
    if |results| == 0 || |valid| == 0 then prev
    else
      var t := Tallies(valid);
      var passed := |Filter(valid, IsPassed)|;
      Some(Aggregate(|results|, passed, (passed as real) / (|valid| as real), t.0, Breakdown(t.1)))
  }

  /**
   * When some result is not errored, the aggregate is recorded: at most the
   * non-errored results pass, and those are at most all results; errored
   * results never count as passed; the pass rates lie in [0, 1]; the
   * breakdown lists each category of a non-errored result once, with at most
   * as many passes as tests, and its counts add up to the non-errored
   * results and to the passes.
   */
  lemma AggregateFacts(prev: Option<Aggregate>, results: seq<TestResult>)
    requires exists i :: 0 <= i < |results| && results[i].Evaluated?
    ensures var a := AggregateOf(prev, results);
      var valid := Filter(results, IsValid);
      a.Some?
      && a.value.totalTests == |results|
      && a.value.passedTests == |Filter(results, IsPassed)|
      && a.value.passedTests <= |valid| <= a.value.totalTests
      && 0.0 <= a.value.passRate <= 1.0
      && Distinct(a.value.categories)
      && (forall c :: c in a.value.categoryBreakdown <==> c in a.value.categories)
      && (forall c :: c in a.value.categories <==> exists i :: 0 <= i < |valid| && valid[i].category == c)
      && (forall c :: c in a.value.categoryBreakdown ==>
            a.value.categoryBreakdown[c].passed <= a.value.categoryBreakdown[c].total
            && 0.0 <= a.value.categoryBreakdown[c].passRate <= 1.0)
      && SumTallies(a.value.categories, Tallies(valid).1, false) == |valid|
      && SumTallies(a.value.categories, Tallies(valid).1, true) == a.value.passedTests
      && (forall c :: c in a.value.categoryBreakdown ==>
            a.value.categoryBreakdown[c].total == Tallies(valid).1[c].total
            && a.value.categoryBreakdown[c].passed == Tallies(valid).1[c].passed)
  {
    var valid := Filter(results, IsValid);
    var i :| 0 <= i < |results| && results[i].Evaluated?;
    assert results[i] in valid;
    FilterNarrows(results, IsValid, IsPassed);
    FractionBounds(|Filter(valid, IsPassed)|, |valid|);
    TalliesAddUp(valid);
    TalliesShape(valid);
    BreakdownFacts(Tallies(valid).1);
  }

  /** The breakdown copies each category's counts, and its pass rates lie in [0, 1]. */
  lemma BreakdownFacts(m: map<string, Tally>)
    requires forall c :: c in m ==> m[c].passed <= m[c].total
    ensures forall c :: c in Breakdown(m) ==>
      Breakdown(m)[c].total == m[c].total && Breakdown(m)[c].passed == m[c].passed
      && Breakdown(m)[c].passed <= Breakdown(m)[c].total
      && 0.0 <= Breakdown(m)[c].passRate <= 1.0
  {
    forall c | c in m
      ensures 0.0 <= Breakdown(m)[c].passRate <= 1.0
    {
      if m[c].total > 0 {
        FractionBounds(m[c].passed, m[c].total);
      }
    }
  }

  /** The evaluator: its test cases, the records gathered so far and the aggregate metrics. */
  class RagEvaluator {
    var testCases: seq<TestCase>
    var individualResults: seq<TestResult>
    var metrics: Option<Aggregate>

    /** A fresh evaluator over the given cases, with no records and no metrics yet. */
    constructor(testCases: seq<TestCase>)
      ensures this.testCases == testCases && individualResults == [] && metrics == None
    {
      this.testCases := testCases;
      individualResults := [];
      metrics := None;
    }

    /** `run_all_tests`: one record per case, appended in order, then the aggregates. */
    method RunAllTests(engine: Engine)
      modifies this
      ensures testCases == old(testCases)
      ensures individualResults == old(individualResults) + Outcomes(testCases, engine)
      ensures metrics == AggregateOf(old(metrics), individualResults)
    {
      for i := 0 to |testCases|
        invariant testCases == old(testCases) && metrics == old(metrics)
        invariant individualResults == old(individualResults) + Outcomes(testCases[..i], engine)
      {
        var r := RunSingleTest(testCases[i], engine);
        OutcomesStep(testCases, i, engine);
        individualResults := individualResults + [r];
      }
      assert testCases[..|testCases|] == testCases;
      CalculateAggregateMetrics();
    }

    /** `_calculate_aggregate_metrics`, with the category breakdown counted in one pass. */
    method CalculateAggregateMetrics()
      modifies this
      ensures testCases == old(testCases) && individualResults == old(individualResults)
      ensures metrics == AggregateOf(old(metrics), individualResults)
    {
      var results := individualResults;
      if |results| == 0 {
        return;
      }
      var valid := Filter(results, IsValid);
      if |valid| == 0 {
        return;
      }
      var passed := |Filter(valid, IsPassed)|;
      var order: seq<string> := [];
      var counts: map<string, Tally> := map[];
      for i := 0 to |valid|
        invariant (order, counts) == Tallies(valid[..i])
      {
        var test := valid[i];
        var cat := test.category;
        ghost var before := (order, counts);
        assert valid[..i + 1][..i] == valid[..i];
        assert Tallies(valid[..i + 1]) == CountTest(before, test);
        if cat !in counts {
          counts := counts[cat := Tally(0, 0)];
          order := order + [cat];
        }
        var tally := counts[cat];
        tally := tally.(total := tally.total + 1);
        if test.Passed() {
          tally := tally.(passed := tally.passed + 1);
        }
        counts := counts[cat := tally];
        assert counts == before.1[cat := tally];
      }
      assert valid[..|valid|] == valid;
      metrics := Some(Aggregate(|results|, passed, (passed as real) / (|valid| as real), order, Breakdown(counts)));
    }
  }
}
