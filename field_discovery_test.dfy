/**
 The table-driven test of field discovery: a deterministic stand-in for the
 show-query executor, the four cases, and the loop that runs discovery on
 each case and compares what comes back with what the case expects.
 */
module FieldDiscoveryTest {
  import opened Wrappers
  import opened Idrf
  import opened ClientUtils
  import opened FieldDiscovery

  /** One case: what the executor is primed with, and the columns expected back. */
  datatype TestCaseFD = TestCaseFD(
    showQueryResult: Option<InfluxShowResult>,
    showQueryError: Option<QueryError>,
    expectedResult: seq<ColumnInfo>)

  /** The stand-in executor: it hands back the pair it was built with. */
  datatype MockShowExecutor = MockShowExecutor(resToReturn: Option<InfluxShowResult>, errToReturn: Option<QueryError>) {
    function ExecuteShowQuery(database: string, query: string): ShowOutcome
    {
      ShowOutcome(resToReturn, errToReturn)
    }
  }

  /** The stand-in answers every call with the same pair, whatever the database and query. */
  lemma ExecutorIsDeterministic(mse: MockShowExecutor, database1: string, query1: string, database2: string, query2: string)
    ensures mse.ExecuteShowQuery(database1, query1) == mse.ExecuteShowQuery(database2, query2)
  {
  }

  /**
   Primes the stand-in for a case: a supplied result comes back with a nil
   error (the case's error is then dropped); otherwise a nil result comes
   back with the case's error.
   */
  function MockShowExecutorFD(testCase: TestCaseFD): (mse: MockShowExecutor)
    ensures testCase.showQueryResult.Some? ==>
      forall database, query :: mse.ExecuteShowQuery(database, query) == ShowOutcome(testCase.showQueryResult, None)
    ensures testCase.showQueryResult.None? ==>
      forall database, query :: mse.ExecuteShowQuery(database, query) == ShowOutcome(None, testCase.showQueryError)
    ensures forall database, query ::
      mse.ExecuteShowQuery(database, query).result.None? || mse.ExecuteShowQuery(database, query).err.None?
  {
    if testCase.showQueryResult.Some? then
      MockShowExecutor(testCase.showQueryResult, None)
    else
      MockShowExecutor(None, testCase.showQueryError)
  }

  /** The explorer the test builds for a case, wired to the primed stand-in. */
  function ExplorerFor(testCase: TestCaseFD): (explorer: FieldExplorer)
    ensures forall database, query ::
      explorer.executeShowQuery(database, query) == MockShowExecutorFD(testCase).ExecuteShowQuery(database, query)
  {
    var mse := MockShowExecutorFD(testCase);
    FieldExplorer((database, query) => mse.ExecuteShowQuery(database, query))
  }

  const Database: string := "database"
  const Measure: string := "measure"

  /** The test's four cases, in order. */
  const Cases: seq<TestCaseFD> := [
    TestCaseFD(None, Some(QueryError("error executing query")), []),
    TestCaseFD(Some(InfluxShowResult([])), Some(QueryError("wrong result returned")), []),
    TestCaseFD(Some(InfluxShowResult([["1", "2", "3"]])), Some(QueryError("too many columns")), []),
    TestCaseFD(
      Some(InfluxShowResult([["1", "boolean"], ["2", "float"], ["3", "integer"], ["4", "string"]])),
      None,
      [ColumnInfo("1", IDRFBoolean), ColumnInfo("2", IDRFDouble), ColumnInfo("3", IDRFInteger64), ColumnInfo("4", IDRFString)])
  ]

  /** Two columns agree when their names and their types do. */
  predicate SameColumn(got: ColumnInfo, want: ColumnInfo)
  {
    got.name == want.name && got.dataType == want.dataType
  }

  /**
   What the test accepts of one discovery: an error exactly when the case
   names one, and the expected columns, one for one.
   */
  predicate CasePasses(testCase: TestCaseFD, result: seq<ColumnInfo>, err: Option<DiscoveryError>)
  {
    && (err.Some? <==> testCase.showQueryError.Some?)
    && |testCase.expectedResult| == |result|
    && forall j :: 0 <= j < |result| ==> SameColumn(result[j], testCase.expectedResult[j])
  }

  /** The case passes for the discovery its primed stand-in leads to. */
  predicate CaseHolds(testCase: TestCaseFD)
  {
    var r := Discover(MockShowExecutorFD(testCase).ExecuteShowQuery(Database, Measure));
    if r.Success? then CasePasses(testCase, r.value, None) else CasePasses(testCase, [], Some(r.error))
  }

  /**
   The checks the test makes of one discovery; `reported` counts the failures
   it reports. A result longer than the expected list makes Go index past the
   expected slice and panic. Here that counts as one more report and ends the
   comparison; in Go the panic ends the whole test run, so later cases never
   run (see `RunCases`).
   */
  method CheckCase(testCase: TestCaseFD, result: seq<ColumnInfo>, err: Option<DiscoveryError>) returns (reported: nat)
    ensures reported == 0 <==> CasePasses(testCase, result, err)
  {
    reported := 0;
    if err.Some? && testCase.showQueryError.None? {
      reported := reported + 1;
    } else if err.None? && testCase.showQueryError.Some? {
      reported := reported + 1;
    }
    var expected := testCase.expectedResult;
    if |expected| != |result| {
      reported := reported + 1;
    }
    var index := 0;
    while index < |result|
      invariant 0 <= index <= |result|
      invariant reported == 0 <==>
        && (err.Some? <==> testCase.showQueryError.Some?)
        && |expected| == |result|
        && forall j :: 0 <= j < index ==> SameColumn(result[j], expected[j])
    {
      if index >= |expected| {
        reported := reported + 1;
        break;
      }
      if !SameColumn(result[index], expected[index]) {
        reported := reported + 1;
      }
      index := index + 1;
    }
  }

  /**
   Runs every case in order; `failed` lists the indices of the cases that fail.
   Every case is run, even after one whose result is longer than its expected
   list, where Go would have stopped with a panic.
   */
  method RunCases(cases: seq<TestCaseFD>) returns (failed: seq<nat>)
    ensures forall k :: k in failed ==> k < |cases| && !CaseHolds(cases[k])
    ensures forall k :: 0 <= k < |cases| && !CaseHolds(cases[k]) ==> k in failed
    ensures failed == [] <==> forall k :: 0 <= k < |cases| ==> CaseHolds(cases[k])
  {
    failed := [];
    var i := 0;
    while i < |cases|
      invariant 0 <= i <= |cases|
      invariant forall k :: k in failed ==> k < i && !CaseHolds(cases[k])
      invariant forall k :: 0 <= k < i && !CaseHolds(cases[k]) ==> k in failed
      invariant failed == [] <==> forall k :: 0 <= k < i ==> CaseHolds(cases[k])
    {
      var fieldExplorer := ExplorerFor(cases[i]);
      var result, err := fieldExplorer.DiscoverMeasurementFields(Database, Measure);
      var reported := CheckCase(cases[i], result, err);
      if reported != 0 {
        failed := failed + [i];
      }
      i := i + 1;
    }
  }

  /**
   In the empty-table and three-cell cases the primed stand-in reports no
   error, so the error the test expects has to come from the explorer's own
   checks of the table.
   */
  lemma RejectionsComeFromTheExplorer()
    ensures MockShowExecutorFD(Cases[1]).ExecuteShowQuery(Database, Measure).err.None?
    ensures Discover(MockShowExecutorFD(Cases[1]).ExecuteShowQuery(Database, Measure)) == Failure(EmptyResult)
    ensures MockShowExecutorFD(Cases[2]).ExecuteShowQuery(Database, Measure).err.None?
    ensures Discover(MockShowExecutorFD(Cases[2]).ExecuteShowQuery(Database, Measure)) == Failure(MalformedRow(0, 3))
  {
  }

  /** Every case of the table passes against the discovery contract. */
  lemma AllCasesHold()
    ensures forall k :: 0 <= k < |Cases| ==> CaseHolds(Cases[k])
  {
  }

  /** TestDiscoverMeasurementFields: running the table reports no failing case. */
  method TestDiscoverMeasurementFields() returns (failed: seq<nat>)
    ensures failed == []
  {
    failed := RunCases(Cases);
    AllCasesHold();
  }
}
