/**
 What the show-query executor hands back (package clientutils): a table of
 string cells, or an error. The network client the real executor talks to is
 not part of this model.
 */
module ClientUtils {
  import opened Wrappers

  /** The raw answer to a show query: rows of string cells. */
  datatype InfluxShowResult = InfluxShowResult(values: seq<seq<string>>)

  /** An error reported by the executor; only its presence matters to discovery. */
  datatype QueryError = QueryError(message: string)

  /**
   The (result, error) pair an executor returns, each half possibly nil, as in
   Go's `(*InfluxShowResult, error)`.
   */
  datatype ShowOutcome = ShowOutcome(result: Option<InfluxShowResult>, err: Option<QueryError>)

  /**
   The show-query capability (showQueryFnAlias without its client argument):
   given a database and a query, the pair the executor returns.
   */
  type ShowQueryFn = (string, string) -> ShowOutcome
}
