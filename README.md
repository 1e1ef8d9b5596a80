# Field discovery for one measurement (outflux)

This project models how outflux discovers the fields of an InfluxDB measurement.
The field explorer (`defaultFieldExplorer.DiscoverMeasurementFields`) asks a show-query
executor for the measurement's field keys. It gets back either an error or a table of
string rows. The explorer rejects an empty table and any row that does not have exactly
two cells. Otherwise it maps each `[name, type]` row to a column descriptor (`ColumnInfo`)
whose type is one of the four canonical IDRF types. The result is all-or-nothing: either
every column in row order with no error, or an error with no columns.

The explorer's implementation is not part of this model. Its behaviour is the contract
that `TestDiscoverMeasurementFields` in `schemadiscovery/discovery/field_discovery_test.go`
imposes on it. The model also covers the deterministic stand-in executor that test uses,
the four test cases and the test's checking loop. It proves that the modelled explorer
passes every case.

Files:

- `wrappers.dfy`: `Option` (Go's nil pointers and nil errors) and `Result`.
- `idrf.dfy`: the four canonical types and `ColumnInfo`.
- `clientutils.dfy`: the executor's raw answer `InfluxShowResult`, its error `QueryError`,
  the `ShowOutcome` pair of result and error, and the executor capability as a function type.
- `field_discovery.dfy`: the source-type table, the row pass `ColumnsFrom`, the discovery
  specification `Discover`, and the explorer method with its loop.
- `field_discovery_test.dfy`: the stand-in executor, `mockShowExecutorFD`, the four cases,
  the per-case check, the loop over the cases and the lemma that every case passes.

The model separates the error kinds `QueryFailed`, `EmptyResult`, `MalformedRow`, `UnknownType`
and `MissingResult`, so each rejection reason can be stated on its own. The test only checks
whether an error is present, so these kinds are finer than anything the source pins down.

## Model

| member | source | states |
|---|---|---|
| `FieldDiscovery.MapType` | schemadiscovery/discovery/field_discovery_test.go:43-54 | `boolean`, `float`, `integer` and `string` map to IDRFBoolean, IDRFDouble, IDRFInteger64 and IDRFString, each in both directions; every other string maps to nothing; a mapped string is the one `TypeName` gives for its type |
| `FieldDiscovery.TypeName` | schemadiscovery/discovery/field_discovery_test.go:43-54 | every canonical type is the target of a source type string in the table, so the table covers the whole enumeration |
| `FieldDiscovery.ColumnsFrom` | schemadiscovery/discovery/field_discovery_test.go:34-54 | the row pass succeeds exactly when every remaining row has two cells and a known type; on success it gives one column per row, in row order, with the name copied verbatim and the mapped type; on failure the error names the first rejected row and every row before it was accepted |
| `FieldDiscovery.Discover` | schemadiscovery/discovery/field_discovery_test.go:26-56 | an executor error is passed on unchanged whatever result accompanies it; an empty table is an error; success holds exactly when there is no executor error and the table is non-empty with every row accepted; on success the columns match the rows one for one; a rejected non-empty table reports its first bad row |
| `FieldDiscovery.DiscoverRoundTrip` | schemadiscovery/discovery/field_discovery_test.go:42-55 | discovering the show result listing any non-empty column list gives back exactly that list, so the mapping loses nothing |
| `FieldDiscovery.MalformedRowRejects` | schemadiscovery/discovery/field_discovery_test.go:34-40 | a row with other than two cells anywhere in the table makes discovery fail, even when earlier rows are well formed |
| `FieldDiscovery.UnknownTypeRejects` | schemadiscovery/discovery/field_discovery_test.go:43-47 | a two-cell row whose type string is outside the table makes discovery fail (an assumption, see below) |
| `FieldDiscovery.FieldExplorer.DiscoverMeasurementFields` | schemadiscovery/discovery/field_discovery_test.go:59-73 | the Go-style pair it returns agrees with `Discover` on what the executor answered: a nil error exactly on success, then the full column list; otherwise an error and zero columns, never a partial list |
| `FieldDiscoveryTest.MockShowExecutor.ExecuteShowQuery` | schemadiscovery/discovery/field_discovery_test.go:88-92 | hands back the stored result and error whatever database and query it is given; its properties are stated by `ExecutorIsDeterministic` and `MockShowExecutorFD` |
| `FieldDiscoveryTest.ExplorerFor` | schemadiscovery/discovery/field_discovery_test.go:60-62 | the explorer built for a case answers every show query exactly as the stand-in primed for that case does (the `NewUtilsWith` wiring is left out) |
| `FieldDiscoveryTest.ExecutorIsDeterministic` | schemadiscovery/discovery/field_discovery_test.go:88-92 | the stand-in executor returns the same pair on every call, whatever database and query it is given |
| `FieldDiscoveryTest.MockShowExecutorFD` | schemadiscovery/discovery/field_discovery_test.go:94-100 | a case with a result primes the stand-in to return that result with a nil error; a case without one primes it to return a nil result with the case's error; the stand-in never returns both a result and an error |
| `FieldDiscoveryTest.RejectionsComeFromTheExplorer` | schemadiscovery/discovery/field_discovery_test.go:29-40 | in the empty-table and three-cell cases the executor reports no error, and discovery still fails, with an empty-result and a malformed-row error respectively |
| `FieldDiscoveryTest.CheckCase` | schemadiscovery/discovery/field_discovery_test.go:64-79 | the test's checks report nothing exactly when the error is present iff the case expects one, the column counts agree and every column matches the expected one by name and type |
| `FieldDiscoveryTest.RunCases` | schemadiscovery/discovery/field_discovery_test.go:59-80 | running the explorer on each case in turn lists exactly the cases whose discovery fails the test's checks |
| `FieldDiscoveryTest.AllCasesHold` | schemadiscovery/discovery/field_discovery_test.go:26-57 | each of the four cases passes against the discovery contract |
| `FieldDiscoveryTest.TestDiscoverMeasurementFields` | schemadiscovery/discovery/field_discovery_test.go:20-81 | running the whole table reports no failing case |

Discovery is a pure function of what the executor returns. The explorer method's result is
fully determined by `Discover`, so two calls with the same executor answer give the same
columns and the same error.

## Left out

- The network client (`influx.Client`, `clientutils.MockClient`) is not modelled. The client is only passed through to the executor, so the executor capability takes just a database and a query.
- The wiring through `clientutils.NewUtilsWith(nil, ...)` is not modelled. The explorer holds the executor function directly.
- The text of the show-field-keys command is not modelled. The explorer passes the measurement name as the query argument, and the stand-in ignores it.
- Error message texts are not modelled. `QueryError` carries a message that nothing inspects.
- The `testing.T` reporting is reduced to a count of reported failures per case. The check method returns that count.
- `FieldDiscovery.UnknownTypeRejects`: the test never shows a type string outside the four. The model assumes that an unknown type string is a fatal `UnknownType` error; the source does not pin this down.
- `FieldDiscovery.Discover`: an executor that returns neither a result nor an error (a case with neither set) is not exercised. The Go explorer would presumably dereference the nil result. The model reports `MissingResult` instead.
- `FieldDiscoveryTest.RunCases`: it runs every case, also after one whose result is longer than its expected list. In Go that case panics on the index into the expected slice and ends the whole test run, so later cases never run. The test's own four cases never reach that panic, because `AllCasesHold` shows their lengths match.
- The `idrf` package is modelled only as the four enumeration values used and `ColumnInfo`'s two fields.
- Go pointers to `ColumnInfo` are modelled as values. The test compares columns by their fields, never by identity.
