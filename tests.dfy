/**
  The screening-questionnaire component (src/components/Tests.tsx): the fixed
  PHQ-9 / GAD-7 catalog, the in-progress answer map, score and severity
  lookup, the completion guard, and the persisted list of results.

  As the source is written, choosing a test and going back leave the answer
  map alone, and both tests use question ids "1" to "3"; the score adds up
  every answer in the map. `StaleAnswersScenario` at the end plays this out.
*/
module Tests {
  import opened Wrappers
  import opened Types
  import opened Storage
  import opened Seqs

  // ---------------------------------------------------------------- catalog

  /** The four choices every question of both tests offers. */
  const FrequencyOptions: seq<AnswerOption> := [
    AnswerOption(0, "Not at all"),
    AnswerOption(1, "Several days"),
    AnswerOption(2, "More than half the days"),
    AnswerOption(3, "Nearly every day")
  ]

  const Phq9: Test := Test(
    "phq9",
    "PHQ-9 Depression Screening",
    "The Patient Health Questionnaire-9 is a widely used screening tool for depression.",
    "5 minutes",
    [
      Question("1", "Little interest or pleasure in doing things", FrequencyOptions),
      Question("2", "Feeling down, depressed, or hopeless", FrequencyOptions),
      Question("3", "Trouble falling or staying asleep, or sleeping too much", FrequencyOptions),
      Question("4", "Feeling tired or having little energy", FrequencyOptions),
      Question("5", "Poor appetite or overeating", FrequencyOptions)
    ],
    [
      Range(0, 4, "Minimal", "Your symptoms suggest minimal depression."),
      Range(5, 9, "Mild", "Your symptoms suggest mild depression."),
      Range(10, 14, "Moderate", "Your symptoms suggest moderate depression."),
      Range(15, 27, "Severe", "Your symptoms suggest severe depression.")
    ])

  const Gad7: Test := Test(
    "gad7",
    "GAD-7 Anxiety Screening",
    "The Generalized Anxiety Disorder-7 is a screening tool for anxiety.",
    "3 minutes",
    [
      Question("1", "Feeling nervous, anxious, or on edge", FrequencyOptions),
      Question("2", "Not being able to stop or control worrying", FrequencyOptions),
      Question("3", "Worrying too much about different things", FrequencyOptions)
    ],
    [
      Range(0, 4, "Minimal", "Your symptoms suggest minimal anxiety."),
      Range(5, 9, "Mild", "Your symptoms suggest mild anxiety."),
      Range(10, 14, "Moderate", "Your symptoms suggest moderate anxiety."),
      Range(15, 21, "Severe", "Your symptoms suggest severe anxiety.")
    ])

  const MentalHealthTests: seq<Test> := [Phq9, Gad7]

  function QuestionIds(test: Test): set<string>
  {
    set q | q in test.questions :: q.id
  }

  // ------------------------------------------------------------------ score

  /** The sum of the answers stored under `keys`. */
  ghost function SumOver(answers: map<string, int>, keys: set<string>): int
    requires keys <= answers.Keys
    decreases keys
  {
    if keys == {} then 0
    else
      var k :| k in keys;
      answers[k] + SumOver(answers, keys - {k})
  }

  /** The sum of every value in the answer map, whichever test it was given for. */
  ghost function Score(answers: map<string, int>): (total: int)
    ensures answers == map[] ==> total == 0
  {
    SumOver(answers, answers.Keys)
  }

  /** The sum does not depend on the order the keys are taken in. */
  lemma {:induction false} SumOverPick(answers: map<string, int>, keys: set<string>, k: string)
    requires keys <= answers.Keys && k in keys
    ensures SumOver(answers, keys) == answers[k] + SumOver(answers, keys - {k})
    decreases keys
  {
    var j :| j in keys && SumOver(answers, keys) == answers[j] + SumOver(answers, keys - {j});
    if j != k {
      SumOverPick(answers, keys - {j}, k);
      SumOverPick(answers, keys - {k}, j);
      assert keys - {j} - {k} == keys - {k} - {j};
    }
  }

  lemma {:induction false} SumOverAgree(a: map<string, int>, b: map<string, int>, keys: set<string>)
    requires keys <= a.Keys && keys <= b.Keys
    requires forall k :: k in keys ==> a[k] == b[k]
    ensures SumOver(a, keys) == SumOver(b, keys)
    decreases keys
  {
    if keys != {} {
      var k :| k in keys;
      SumOverPick(a, keys, k);
      SumOverPick(b, keys, k);
      SumOverAgree(a, b, keys - {k});
    }
  }

  lemma {:induction false} SumOverSplit(answers: map<string, int>, keys: set<string>, part: set<string>)
    requires keys <= answers.Keys && part <= keys
    ensures SumOver(answers, keys) == SumOver(answers, part) + SumOver(answers, keys - part)
    decreases part
  {
    if part == {} {
      assert keys - part == keys;
    } else {
      var k :| k in part;
      SumOverPick(answers, keys, k);
      SumOverPick(answers, part, k);
      SumOverSplit(answers, keys - {k}, part - {k});
      assert (keys - {k}) - (part - {k}) == keys - part;
    }
  }

  /** Recording an answer replaces that question's old value (if any) in the score and leaves the rest. */
  lemma ScoreAfterAnswer(answers: map<string, int>, questionId: string, value: int)
    ensures Score(answers[questionId := value])
         == Score(answers) - (if questionId in answers then answers[questionId] else 0) + value
  {
    var updated := answers[questionId := value];
    var rest := answers.Keys - {questionId};
    SumOverPick(updated, updated.Keys, questionId);
    assert updated.Keys - {questionId} == rest;
    SumOverAgree(updated, answers, rest);
    if questionId in answers {
      SumOverPick(answers, answers.Keys, questionId);
    } else {
      assert answers.Keys == rest;
    }
  }

  /**
    The score of a map is the sum over the keys that belong to a test plus the
    sum over the keys that do not: answers left over from another test count.
  */
  lemma ScoreCountsEveryKey(answers: map<string, int>, test: Test)
    ensures Score(answers)
         == SumOver(answers, answers.Keys * QuestionIds(test)) + SumOver(answers, answers.Keys - QuestionIds(test))
  {
    SumOverSplit(answers, answers.Keys, answers.Keys * QuestionIds(test));
    assert answers.Keys - answers.Keys * QuestionIds(test) == answers.Keys - QuestionIds(test);
  }

  /** With option values 0..3 the score lies between 0 and three times the number of answers. */
  lemma {:induction false} SumOverBounds(answers: map<string, int>, keys: set<string>)
    requires keys <= answers.Keys
    requires forall k :: k in keys ==> 0 <= answers[k] <= 3
    ensures 0 <= SumOver(answers, keys) <= 3 * |keys|
    decreases keys
  {
    if keys != {} {
      var k :| k in keys;
      SumOverPick(answers, keys, k);
      SumOverBounds(answers, keys - {k});
    }
  }

  /** `calculateScore`: folds the values of the answer map into their sum. */
  method CalculateScore(answers: map<string, int>) returns (score: int)
    ensures score == Score(answers)
  {
    score := 0;
    var pending := answers.Keys;
    while pending != {}
      invariant pending <= answers.Keys
      invariant score + SumOver(answers, pending) == Score(answers)
      decreases pending
    {
      var k :| k in pending;
      SumOverPick(answers, pending, k);
      score := score + answers[k];
      pending := pending - {k};
    }
  }

  // --------------------------------------------------------------- severity

  predicate InRange(range: Range, score: int)
  {
    range.min <= score <= range.max
  }

  /**
    The band `getSeverity` picks: the first range, in list order, that holds
    the score; when none does, the first range of the list.
  */
  function SeverityIndex(ranges: seq<Range>, score: int): (i: nat)
    requires |ranges| > 0
    ensures i < |ranges|
    ensures InRange(ranges[i], score) ==> forall j :: 0 <= j < i ==> !InRange(ranges[j], score)
    ensures !InRange(ranges[i], score) ==> i == 0 && forall j :: 0 <= j < |ranges| ==> !InRange(ranges[j], score)
  {
    match FirstIndex(ranges, (range: Range) => InRange(range, score))
    case Some(i) => i
    case None => 0
  }

  /**
    `getSeverity`: one of the test's bands; the first band holding the score
    when one does, and the test's first band when none does.
  */
  function GetSeverity(test: Test, score: int): (band: Range)
    requires |test.ranges| > 0
    ensures band in test.ranges
    ensures (exists j :: 0 <= j < |test.ranges| && InRange(test.ranges[j], score)) ==> InRange(band, score)
    ensures InRange(band, score) ==>
      exists i :: 0 <= i < |test.ranges| && test.ranges[i] == band && forall j :: 0 <= j < i ==> !InRange(test.ranges[j], score)
    ensures (forall j :: 0 <= j < |test.ranges| ==> !InRange(test.ranges[j], score)) ==>
      band == test.ranges[0]
  {
    test.ranges[SeverityIndex(test.ranges, score)]
  }

  /** Bands that are non-empty, in increasing order, each starting right after the previous one ends. */
  ghost predicate Contiguous(ranges: seq<Range>)
  {
    && |ranges| > 0
    && (forall i :: 0 <= i < |ranges| ==> ranges[i].min <= ranges[i].max)
    && (forall i :: 0 < i < |ranges| ==> ranges[i].min == ranges[i - 1].max + 1)
  }

  lemma {:induction false} ContiguousOrdered(ranges: seq<Range>, i: nat, j: nat)
    requires Contiguous(ranges) && i < j < |ranges|
    ensures ranges[i].max < ranges[j].min
    decreases j - i
  {
    if j > i + 1 {
      ContiguousOrdered(ranges, i, j - 1);
    }
  }

  lemma {:induction false} ContiguousCovers(ranges: seq<Range>, score: int, k: nat)
    requires Contiguous(ranges) && k < |ranges| && ranges[0].min <= score <= ranges[k].max
    ensures exists i :: 0 <= i <= k && InRange(ranges[i], score)
    decreases k
  {
    if !InRange(ranges[k], score) {
      ContiguousCovers(ranges, score, k - 1);
    }
  }

  /**
    For contiguous bands, every score from the lowest minimum to the highest
    maximum lies in exactly one band, and that band is the one picked.
  */
  lemma SeverityIsTheOnlyBand(ranges: seq<Range>, score: int)
    requires Contiguous(ranges) && ranges[0].min <= score <= ranges[|ranges| - 1].max
    ensures InRange(ranges[SeverityIndex(ranges, score)], score)
    ensures forall j :: 0 <= j < |ranges| && InRange(ranges[j], score) ==> j == SeverityIndex(ranges, score)
  {
    ContiguousCovers(ranges, score, |ranges| - 1);
    var i := SeverityIndex(ranges, score);
    forall j | 0 <= j < |ranges| && InRange(ranges[j], score)
      ensures j == i
    {
      if i < j {
        ContiguousOrdered(ranges, i, j);
      }
    }
  }

  /** Both catalog tests have contiguous bands: 0 to 27 for PHQ-9, 0 to 21 for GAD-7. */
  lemma CatalogBandsAreContiguous()
    ensures Contiguous(Phq9.ranges) && Phq9.ranges[0].min == 0 && Phq9.ranges[3].max == 27
    ensures Contiguous(Gad7.ranges) && Gad7.ranges[0].min == 0 && Gad7.ranges[3].max == 21
  {
  }

  /** Scores 0, 7 and 20 read as Minimal, Mild and Severe on PHQ-9. */
  lemma Phq9SeverityExamples()
    ensures GetSeverity(Phq9, 0).severity == "Minimal"
    ensures GetSeverity(Phq9, 7).severity == "Mild"
    ensures GetSeverity(Phq9, 20).severity == "Severe"
  {
    assert SeverityIndex(Phq9.ranges, 0) == 0;
    assert SeverityIndex(Phq9.ranges, 7) == 1;
    assert SeverityIndex(Phq9.ranges, 20) == 3;
  }

  /** Scores 0, 7 and 20 read as Minimal, Mild and Severe on GAD-7. */
  lemma Gad7SeverityExamples()
    ensures GetSeverity(Gad7, 0).severity == "Minimal"
    ensures GetSeverity(Gad7, 7).severity == "Mild"
    ensures GetSeverity(Gad7, 20).severity == "Severe"
  {
    assert SeverityIndex(Gad7.ranges, 0) == 0;
    assert SeverityIndex(Gad7.ranges, 7) == 1;
    assert SeverityIndex(Gad7.ranges, 20) == 3;
  }

  /** A score outside every band falls back to the first band, Minimal. */
  lemma OutOfRangeFallsBackToFirst(test: Test, score: int)
    requires test in MentalHealthTests
    requires score < 0 || score > test.ranges[3].max
    ensures GetSeverity(test, score) == test.ranges[0]
    ensures GetSeverity(test, score).severity == "Minimal"
  {
  }

  // ------------------------------------------------------- completion guard

  /**
    The "Complete Test" button is enabled when no question of the test lacks
    an entry in the answer map, that is, when every question id is a key.
  */
  function CanComplete(test: Test, answers: map<string, int>): (enabled: bool)
    ensures enabled <==> QuestionIds(test) <= answers.Keys
  {
    var unanswered := Any(test.questions, (q: Question) => q.id !in answers);
    assert !unanswered ==> QuestionIds(test) <= answers.Keys by {
      if !unanswered {
        forall id | id in QuestionIds(test) ensures id in answers {
          var q :| q in test.questions && q.id == id;
          var i :| 0 <= i < |test.questions| && test.questions[i] == q;
        }
      }
    }
    !unanswered
  }

  /**
    Answers given to PHQ-9 enable "Complete" for GAD-7 at once: GAD-7's
    question ids "1" to "3" are PHQ-9 ids too.
  */
  lemma AnsweredPhq9EnablesGad7(answers: map<string, int>)
    requires CanComplete(Phq9, answers)
    ensures CanComplete(Gad7, answers)
  {
    CatalogQuestionIds();
  }

  /** The question ids of the two tests: GAD-7's are the first three of PHQ-9's. */
  lemma CatalogQuestionIds()
    ensures QuestionIds(Phq9) == {"1", "2", "3", "4", "5"}
    ensures QuestionIds(Gad7) == {"1", "2", "3"}
  {
    var p := Phq9.questions;
    assert p == [p[0], p[1], p[2], p[3], p[4]];
    assert p[0].id == "1" && p[1].id == "2" && p[2].id == "3" && p[3].id == "4" && p[4].id == "5";
    var g := Gad7.questions;
    assert g == [g[0], g[1], g[2]];
    assert g[0].id == "1" && g[1].id == "2" && g[2].id == "3";
  }

  /**
    Every answer map a session can build from the catalog (question ids "1"
    to "5", option values 0 to 3) scores from 0 to 15.
  */
  lemma CatalogScoreRange(answers: map<string, int>)
    requires answers.Keys <= QuestionIds(Phq9)
    requires forall k :: k in answers ==> exists option :: option in FrequencyOptions && option.value == answers[k]
    ensures 0 <= Score(answers) <= 15
  {
    OptionValuesBounded();
    CatalogQuestionIds();
    FiveIdsCount();
    ScoreBoundedByIds(answers, QuestionIds(Phq9));
  }

  lemma OptionValuesBounded()
    ensures forall option :: option in FrequencyOptions ==> 0 <= option.value <= 3
  {
  }

  /** Answers of value 0 to 3 on at most the given ids score between 0 and three per id. */
  lemma ScoreBoundedByIds(answers: map<string, int>, ids: set<string>)
    requires answers.Keys <= ids
    requires forall k :: k in answers ==> 0 <= answers[k] <= 3
    ensures 0 <= Score(answers) <= 3 * |ids|
  {
    SumOverBounds(answers, answers.Keys);
    SubsetCardinality(answers.Keys, ids);
  }

  lemma FiveIdsCount()
    ensures |{"1", "2", "3", "4", "5"}| == 5
  {
    var ids: set<string> := {"1", "2", "3", "4"};
    assert "5" !in ids;
    assert |ids| == 4 by {
      assert "4" !in {"1", "2", "3"};
      assert "3" !in {"1", "2"};
    }
  }

  /** Both catalog tests have a band holding every score from 0 to 15. */
  lemma CatalogBandHolds(test: Test, score: int)
    requires test in MentalHealthTests && 0 <= score <= 15
    ensures InRange(GetSeverity(test, score), score)
  {
    CatalogBandsAreContiguous();
    SeverityIsTheOnlyBand(test.ranges, score);
  }

  /** So the fallback to the first band is never taken in a reachable session. */
  lemma CatalogScoresStayInBands(test: Test, answers: map<string, int>)
    requires test in MentalHealthTests
    requires answers.Keys <= QuestionIds(Phq9)
    requires forall k :: k in answers ==> exists option :: option in FrequencyOptions && option.value == answers[k]
    ensures InRange(GetSeverity(test, Score(answers)), Score(answers))
  {
    CatalogScoreRange(answers);
    CatalogBandHolds(test, Score(answers));
  }

  lemma {:induction false} SubsetCardinality(small: set<string>, large: set<string>)
    requires small <= large
    ensures |small| <= |large|
    decreases large
  {
    if small != {} {
      var k :| k in small;
      SubsetCardinality(small - {k}, large - {k});
    }
  }

  // ---------------------------------------------------------- latest result

  /** `getLatestResult`: the first stored result for the test, which is the newest one since results are prepended. */
  function LatestResult(results: seq<TestResult>, testId: string): (latest: Option<TestResult>)
    ensures latest.None? <==> forall i :: 0 <= i < |results| ==> results[i].testId != testId
    ensures latest.Some? ==> latest.value.testId == testId
    ensures latest.Some? ==> exists i :: 0 <= i < |results| && results[i] == latest.value
                                        && forall j :: 0 <= j < i ==> results[j].testId != testId
  {
    Find(results, (r: TestResult) => r.testId == testId)
  }

  /** After a result is prepended it is the latest for its test, and the latest of every other test is unchanged. */
  lemma LatestAfterPrepend(results: seq<TestResult>, result: TestResult, testId: string)
    ensures LatestResult([result] + results, testId)
         == if result.testId == testId then Some(result) else LatestResult(results, testId)
  {
  }

  // ------------------------------------------------------------ persistence

  /** The initial load: a missing key gives no results. */
  function LoadResults(items: map<string, Value>): (results: seq<TestResult>)
    ensures TestResultsKey !in items ==> results == []
    ensures TestResultsKey in items && items[TestResultsKey].TestResults? ==> results == items[TestResultsKey].results
  {
    if TestResultsKey in items && items[TestResultsKey].TestResults? then items[TestResultsKey].results else []
  }

  /** The result `handleComplete` builds for `test` from the answers given. */
  ghost function CompletedResult(test: Test, answers: map<string, int>, id: string, now: string): (result: TestResult)
    requires |test.ranges| > 0
    ensures result.id == id && result.testId == test.id && result.date == now
    ensures result.answers == answers && result.score == Score(answers)
    ensures result.severity == test.ranges[SeverityIndex(test.ranges, result.score)].severity
  {
    TestResult(id, test.id, now, Score(answers), GetSeverity(test, Score(answers)).severity, answers)
  }

  // ---------------------------------------------------------------- session

  /**
    The state of the Tests component: which test is open (none while browsing
    the catalog), the answers given so far, and the results on record.
  */
  class AssessmentSession {
    var selectedTest: Option<Test>
    var currentAnswers: map<string, int>
    var testResults: seq<TestResult>
    const storage: LocalStorage

    /** The open test comes from the catalog, and the results are what the storage key reloads to. */
    ghost predicate Valid()
      reads this, storage
    {
      && (selectedTest.Some? ==> selectedTest.value in MentalHealthTests)
      && testResults == LoadResults(storage.items)
    }

    /** Mounting the component: nothing selected, no answers, results loaded from storage. */
    constructor (storage: LocalStorage)
      ensures this.storage == storage && Valid()
      ensures selectedTest == None && currentAnswers == map[]
      ensures testResults == LoadResults(storage.items)
    {
      this.storage := storage;
      selectedTest := None;
      currentAnswers := map[];
      testResults := LoadResults(storage.items);
    }

    /** "Take Test": opens the test; answers already in the map stay. */
    method SelectTest(test: Test)
      requires Valid() && test in MentalHealthTests
      modifies this
      ensures Valid()
      ensures selectedTest == Some(test)
      ensures currentAnswers == old(currentAnswers) && testResults == old(testResults)
    {
      selectedTest := Some(test);
    }

    /** "Back to tests": closes the test without saving; the answers stay. */
    method Back()
      requires Valid()
      modifies this
      ensures Valid()
      ensures selectedTest == None
      ensures currentAnswers == old(currentAnswers) && testResults == old(testResults)
    {
      selectedTest := None;
    }

    /** `handleAnswer`: the last answer to a question wins and every other answer is kept. */
    method HandleAnswer(questionId: string, value: int)
      requires Valid()
      modifies this
      ensures Valid()
      ensures currentAnswers == old(currentAnswers)[questionId := value]
      ensures Score(currentAnswers)
           == old(Score(currentAnswers)) - (if questionId in old(currentAnswers) then old(currentAnswers[questionId]) else 0) + value
      ensures selectedTest == old(selectedTest) && testResults == old(testResults)
    {
      ScoreAfterAnswer(currentAnswers, questionId, value);
      currentAnswers := currentAnswers[questionId := value];
    }

    /** Whether "Complete Test" is enabled. */
    function CompleteEnabled(): (enabled: bool)
      reads this
      ensures enabled <==> selectedTest.Some? && QuestionIds(selectedTest.value) <= currentAnswers.Keys
    {
      selectedTest.Some? && CanComplete(selectedTest.value, currentAnswers)
    }

    /**
      `handleComplete`: with no test open it does nothing; otherwise it
      prepends one result (the open test, the score of every answer in the
      map, the band that score falls in, the answers), writes the new list
      to storage, closes the test and clears the answers.
    */
    method HandleComplete(freshId: string, now: string)
      requires Valid()
      modifies this, storage
      ensures Valid()
      ensures old(selectedTest).None? ==> unchanged(this) && unchanged(storage)
      ensures old(selectedTest).Some? ==>
        && testResults == [CompletedResult(old(selectedTest).value, old(currentAnswers), freshId, now)] + old(testResults)
        && storage.items == old(storage.items)[TestResultsKey := TestResults(testResults)]
        && selectedTest == None
        && currentAnswers == map[]
    {
      if selectedTest.None? {
        return;
      }
      var test := selectedTest.value;
      var score := CalculateScore(currentAnswers);
      var band := GetSeverity(test, score);
      var result := TestResult(freshId, test.id, now, score, band.severity, currentAnswers);
      var updated := [result] + testResults;
      testResults := updated;
      storage.SetItem(TestResultsKey, TestResults(updated));
      selectedTest := None;
      currentAnswers := map[];
    }

    /** A click on "Complete Test", which does nothing while the button is disabled. */
    method PressComplete(freshId: string, now: string)
      requires Valid()
      modifies this, storage
      ensures Valid()
      ensures !old(CompleteEnabled()) ==> unchanged(this) && unchanged(storage)
      ensures old(CompleteEnabled()) ==>
        && testResults == [CompletedResult(old(selectedTest).value, old(currentAnswers), freshId, now)] + old(testResults)
        && storage.items == old(storage.items)[TestResultsKey := TestResults(testResults)]
        && selectedTest == None
        && currentAnswers == map[]
    {
      if CompleteEnabled() {
        HandleComplete(freshId, now);
      }
    }
  }

  /** The answer map after answering each PHQ-9 question with 3. */
  lemma AllThreesScore(answers: map<string, int>)
    requires answers == map["1" := 3, "2" := 3, "3" := 3, "4" := 3, "5" := 3]
    ensures Score(answers) == 15
    ensures QuestionIds(Gad7) <= answers.Keys && SumOver(answers, QuestionIds(Gad7)) == 9
  {
    AllThreesTotal(answers);
    CatalogQuestionIds();
    ScoreCountsEveryKey(answers, Gad7);
    assert answers.Keys * QuestionIds(Gad7) == QuestionIds(Gad7);
    assert answers.Keys - QuestionIds(Gad7) == {"4", "5"};
    AllThreesTail(answers);
  }

  lemma AllThreesTotal(answers: map<string, int>)
    requires answers == map["1" := 3, "2" := 3, "3" := 3, "4" := 3, "5" := 3]
    ensures Score(answers) == 15
  {
    var m0: map<string, int> := map[];
    var m1 := m0["1" := 3];
    var m2 := m1["2" := 3];
    var m3 := m2["3" := 3];
    var m4 := m3["4" := 3];
    ScoreAfterAnswer(m0, "1", 3);
    ScoreAfterAnswer(m1, "2", 3);
    ScoreAfterAnswer(m2, "3", 3);
    ScoreAfterAnswer(m3, "4", 3);
    ScoreAfterAnswer(m4, "5", 3);
    assert answers == m4["5" := 3];
  }

  lemma AllThreesTail(answers: map<string, int>)
    requires answers == map["1" := 3, "2" := 3, "3" := 3, "4" := 3, "5" := 3]
    ensures SumOver(answers, {"4", "5"}) == 6
  {
    SumOverPick(answers, {"4", "5"}, "4");
    assert {"4", "5"} - {"4"} == {"5"};
    SumOverPick(answers, {"5"}, "5");
    assert {"5"} - {"5"} == {};
  }

  /**
    Answering all five PHQ-9 questions with 3, going back and opening GAD-7
    lets GAD-7 be completed at once, and records a score of 15 ("Severe"),
    although GAD-7's own three answers add up to 9 ("Mild").
  */
  method StaleAnswersScenario() returns (result: TestResult)
    ensures result.testId == "gad7" && result.score == 15 && result.severity == "Severe"
    ensures QuestionIds(Gad7) <= result.answers.Keys
    ensures SumOver(result.answers, QuestionIds(Gad7)) == 9
    ensures GetSeverity(Gad7, 9).severity == "Mild"
  {
    var storage := new LocalStorage(map[]);
    var session := new AssessmentSession(storage);
    session.SelectTest(Phq9);
    session.HandleAnswer("1", 3);
    session.HandleAnswer("2", 3);
    session.HandleAnswer("3", 3);
    session.HandleAnswer("4", 3);
    session.HandleAnswer("5", 3);
    ghost var answers := session.currentAnswers;
    AllThreesScore(answers);
    session.Back();
    session.SelectTest(Gad7);
    assert session.CompleteEnabled();
    session.PressComplete("result-1", "2024-01-01T00:00:00.000Z");
    result := session.testResults[0];
    GadBands();
  }

  lemma GadBands()
    ensures GetSeverity(Gad7, 15).severity == "Severe"
    ensures GetSeverity(Gad7, 9).severity == "Mild"
  {
  }
}
