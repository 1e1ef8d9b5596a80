/**
 Field discovery for one measurement: the field explorer asks the show-query
 executor for the measurement's field keys, checks the shape of the table it
 gets back, and maps every `[name, type]` row to a column descriptor. Any
 failure is terminal and no partial column list is ever returned.
 */
module FieldDiscovery {
  import opened Wrappers
  import opened Idrf
  import opened ClientUtils

  /** Why a discovery failed. */
  datatype DiscoveryError =
    | QueryFailed(cause: QueryError)                        // the executor's own error, passed on unchanged
    | MissingResult                                         // neither a result nor an error came back
    | EmptyResult                                           // the query succeeded but listed no field
    | MalformedRow(row: nat, cells: nat)                    // a row without exactly two cells
    | UnknownType(row: nat, field: string, typeName: string) // a type string outside the table

  /** The source type strings the store reports, with the canonical type each stands for. */
  const SourceTypes: map<string, DataType> :=
    map["boolean" := IDRFBoolean, "float" := IDRFDouble, "integer" := IDRFInteger64, "string" := IDRFString]

  /** Looks a source type string up in the table; a miss is None. */
  function MapType(typeName: string): (r: Option<DataType>)
    ensures r == Some(IDRFBoolean) <==> typeName == "boolean"
    ensures r == Some(IDRFDouble) <==> typeName == "float"
    ensures r == Some(IDRFInteger64) <==> typeName == "integer"
    ensures r == Some(IDRFString) <==> typeName == "string"
    ensures r.None? <==> typeName !in {"boolean", "float", "integer", "string"}
    ensures r.Some? ==> typeName == TypeName(r.value)
  {
    if typeName in SourceTypes then Some(SourceTypes[typeName]) else None
  }

  /** The one source type string that maps to a canonical type. */
  function TypeName(dataType: DataType): (s: string)
    ensures s in SourceTypes && SourceTypes[s] == dataType
  {
    match dataType
    case IDRFBoolean => "boolean"
    case IDRFDouble => "float"
    case IDRFInteger64 => "integer"
    case IDRFString => "string"
  }

  /** A row discovery accepts: a field name and a known type string. */
  predicate WellFormedRow(row: seq<string>)
  {
    |row| == 2 && row[1] in SourceTypes
  }

  /** The descriptor of an accepted row. */
  function ColumnOf(row: seq<string>): ColumnInfo
    requires WellFormedRow(row)
  {
    ColumnInfo(row[0], SourceTypes[row[1]])
  }

  /** The error that rejected row number `index` produces. */
  function RowFault(row: seq<string>, index: nat): DiscoveryError
  {
    if |row| != 2 then MalformedRow(index, |row|) else UnknownType(index, row[0], row[1])
  }

  /** `e` rejects the table at row `e.row`, the first row of `values[from..]` that is not accepted. */
  predicate RejectsFirstBadRow(values: seq<seq<string>>, from: nat, e: DiscoveryError)
  {
    && (e.MalformedRow? || e.UnknownType?)
    && from <= e.row < |values|
    && !WellFormedRow(values[e.row])
    && e == RowFault(values[e.row], e.row)
    && forall j :: from <= j < e.row ==> WellFormedRow(values[j])
  }

  /**
   The left-to-right mapping pass over rows `from` onwards: it stops at the
   first row that is not accepted, otherwise it yields one descriptor per row
   in row order.
   */
  function ColumnsFrom(values: seq<seq<string>>, from: nat): (r: Result<seq<ColumnInfo>, DiscoveryError>)
    requires from <= |values|
    ensures r.Success? <==> forall j :: from <= j < |values| ==> WellFormedRow(values[j])
    ensures r.Success? ==>
      && |r.value| == |values| - from
      && forall j :: 0 <= j < |r.value| ==> WellFormedRow(values[from + j]) && r.value[j] == ColumnOf(values[from + j])
    ensures r.Failure? ==> RejectsFirstBadRow(values, from, r.error)
    decreases |values| - from
  {
    if from == |values| then
      Success([])
    else if !WellFormedRow(values[from]) then
      Failure(RowFault(values[from], from))
    else
      match ColumnsFrom(values, from + 1)
      case Failure(e) => Failure(e)
      case Success(rest) => Success([ColumnOf(values[from])] + rest)
  }

  /** The table is one discovery accepts: non-empty and every row accepted. */
  predicate AcceptedTable(values: seq<seq<string>>)
  {
    |values| > 0 && forall j :: 0 <= j < |values| ==> WellFormedRow(values[j])
  }

  /**
   What a discovery yields for the pair the executor returned: the executor's
   error first, then a missing or empty result, then the row pass.
   */
  function Discover(shown: ShowOutcome): (r: Result<seq<ColumnInfo>, DiscoveryError>)
    ensures shown.err.Some? ==> r == Failure(QueryFailed(shown.err.value))
    ensures shown.err.None? && shown.result.None? ==> r == Failure(MissingResult)
    ensures shown.err.None? && shown.result.Some? && shown.result.value.values == [] ==> r == Failure(EmptyResult)
    ensures r.Success? <==> shown.err.None? && shown.result.Some? && AcceptedTable(shown.result.value.values)
    ensures r.Success? ==>
      var values := shown.result.value.values;
      && |r.value| == |values|
      && forall j :: 0 <= j < |r.value| ==>
           |values[j]| == 2 && r.value[j].name == values[j][0] && MapType(values[j][1]) == Some(r.value[j].dataType)
    ensures r.Failure? && shown.err.None? && shown.result.Some? && shown.result.value.values != [] ==>
      RejectsFirstBadRow(shown.result.value.values, 0, r.error)
  {
    match shown
    case ShowOutcome(_, Some(e)) => Failure(QueryFailed(e))
    case ShowOutcome(None, None) => Failure(MissingResult)
    case ShowOutcome(Some(res), None) =>
      if |res.values| == 0 then Failure(EmptyResult) else ColumnsFrom(res.values, 0)
  }

  /** The show result a store reports for a measurement whose fields are `columns`. */
  function FieldKeysResult(columns: seq<ColumnInfo>): (res: InfluxShowResult)
    ensures |res.values| == |columns|
    ensures forall j :: 0 <= j < |columns| ==> res.values[j] == [columns[j].name, TypeName(columns[j].dataType)]
  {
    InfluxShowResult(seq(|columns|, j requires 0 <= j < |columns| => [columns[j].name, TypeName(columns[j].dataType)]))
  }

  /** Discovering the fields of any non-empty column list recovers exactly that list. */
  lemma {:induction false} DiscoverRoundTrip(columns: seq<ColumnInfo>)
    requires |columns| > 0
    ensures Discover(ShowOutcome(Some(FieldKeysResult(columns)), None)) == Success(columns)
  {
    var values := FieldKeysResult(columns).values;
    forall j | 0 <= j < |values|
      ensures WellFormedRow(values[j])
    {
    }
    var r := Discover(ShowOutcome(Some(FieldKeysResult(columns)), None));
    assert r.Success?;
    forall j | 0 <= j < |columns|
      ensures r.value[j] == columns[j]
    {
      assert MapType(values[j][1]) == Some(columns[j].dataType);
    }
    assert r.value == columns;
  }

  /** A row with other than two cells rejects the table, however well-formed the rows before it. */
  lemma MalformedRowRejects(values: seq<seq<string>>, k: nat)
    requires k < |values| && |values[k]| != 2
    ensures Discover(ShowOutcome(Some(InfluxShowResult(values)), None)).Failure?
  {
  }

  /** A row whose type string is not in the table rejects the table. */
  lemma UnknownTypeRejects(values: seq<seq<string>>, k: nat)
    requires k < |values| && |values[k]| == 2 && MapType(values[k][1]).None?
    ensures Discover(ShowOutcome(Some(InfluxShowResult(values)), None)).Failure?
  {
  }

  /** The explorer (defaultFieldExplorer), holding the show-query capability it delegates to. */
  datatype FieldExplorer = FieldExplorer(executeShowQuery: ShowQueryFn) {
    /**
     Discovers the fields of `measurement` in `database`, returning Go's pair:
     the columns and a nil error, or no columns and an error. The text of the
     show command is not modelled: the measurement name is passed in its place.
     */
    method DiscoverMeasurementFields(database: string, measurement: string)
      returns (result: seq<ColumnInfo>, err: Option<DiscoveryError>)
      ensures var r := Discover(executeShowQuery(database, measurement));
        && (err.None? <==> r.Success?)
        && (err.None? ==> result == r.value)
        && (err.Some? ==> result == [] && err.value == r.error)
    {
      var shown := executeShowQuery(database, measurement);
      if shown.err.Some? {
        return [], Some(QueryFailed(shown.err.value));
      }
      if shown.result.None? {
        return [], Some(MissingResult);
      }
      var values := shown.result.value.values;
      if |values| == 0 {
        return [], Some(EmptyResult);
      }
      var columns := [];
      var i := 0;
      while i < |values|
        invariant 0 <= i <= |values|
        invariant forall j :: 0 <= j < i ==> WellFormedRow(values[j])
        invariant |columns| == i
        invariant forall j :: 0 <= j < i ==> columns[j] == ColumnOf(values[j])
      {
        var row := values[i];
        if |row| != 2 {
          return [], Some(MalformedRow(i, |row|));
        }
        var dataType := MapType(row[1]);
        if dataType.None? {
          return [], Some(UnknownType(i, row[0], row[1]));
        }
        columns := columns + [ColumnInfo(row[0], dataType.value)];
        i := i + 1;
      }
      return columns, None;
    }
  }
}
