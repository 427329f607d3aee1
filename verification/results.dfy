/**
  The record of one repetition and the row it becomes in the `benchmarks` table.
  Clock readings are integers in a common unit (the wall clock at the start of the
  timed phase, and the monotonic clock at its start and end); the duration is
  their difference.
 */
module Results {
  import opened Base

  /** `BenchmarkResult`, field for field and in the same order. */
  datatype BenchmarkResult = BenchmarkResult(
    insertMethod: string,
    logging: string,
    nUsers: int,
    nInitialStats: int,
    nInsertedStats: int,
    duration: int,
    runAt: int)

  /** The clock readings of one timed phase. */
  datatype Sample = Sample(runAt: int, start: int, end: int)

  function MethodName(useCopy: bool): string
  {
    if useCopy then "copy" else "insert"
  }

  function LoggingName(unlogged: bool): string
  {
    if unlogged then "unlogged" else "logged"
  }

  /** The logging selector means unlogged only when it is exactly "unlogged". */
  predicate SelectsUnlogged(selector: string)
  {
    selector == "unlogged"
  }

  /** Categories filled per phase: categories 1-5 before the timed transfer and
      6-10 moved by it, one row per user and category. */
  const CategoriesPerPhase := 5

  /** The result of one repetition of `run_benchmark`: the strategy and logging
      labels, the user count, the initial and inserted row counts (five per user
      each), the monotonic duration and the wall-clock start. */
  function MakeResult(nUsers: int, useCopy: bool, unlogged: bool, s: Sample): (r: BenchmarkResult)
    ensures r.insertMethod == "copy" <==> useCopy
    ensures r.insertMethod == "insert" <==> !useCopy
    ensures r.logging == "unlogged" <==> unlogged
    ensures r.logging == "logged" <==> !unlogged
    ensures r.nUsers == nUsers
    ensures r.nInitialStats == r.nInsertedStats == 5 * nUsers
    ensures r.duration == s.end - s.start && r.runAt == s.runAt
  {
    BenchmarkResult(MethodName(useCopy), LoggingName(unlogged), nUsers,
                    CategoriesPerPhase * nUsers, CategoriesPerPhase * nUsers,
                    s.end - s.start, s.runAt)
  }

  /** The labels of a result identify the strategy and the logging mode it ran with. */
  lemma LabelsIdentifyRun(n1: int, c1: bool, u1: bool, s1: Sample, n2: int, c2: bool, u2: bool, s2: Sample)
    ensures MakeResult(n1, c1, u1, s1).insertMethod == MakeResult(n2, c2, u2, s2).insertMethod <==> c1 == c2
    ensures MakeResult(n1, c1, u1, s1).logging == MakeResult(n2, c2, u2, s2).logging <==> u1 == u2
  {
    assert "copy" != "insert" by { assert "copy"[0] != "insert"[0]; }
    assert "unlogged" != "logged" by { assert "unlogged"[0] != "logged"[0]; }
  }

  // ---------------------------------------------------------------------------
  // The `benchmarks` table.

  /** A value bound to a statement parameter. */
  datatype Value = Text(text: string) | Integer(integer: int) | Seconds(seconds: int) | Timestamp(instant: int)

  datatype ColumnType = TextColumn | IntegerColumn | FloatColumn | TimestampColumn

  /** The columns of `benchmarks` in table order: insert_method, logging, n_users,
      n_initial_stats, n_inserted_stats, duration, run_at. */
  const BenchmarksSchema: seq<ColumnType> :=
    [TextColumn, TextColumn, IntegerColumn, IntegerColumn, IntegerColumn, FloatColumn, TimestampColumn]

  predicate Fits(v: Value, t: ColumnType)
  {
    match t
    case TextColumn => v.Text?
    case IntegerColumn => v.Integer?
    case FloatColumn => v.Seconds?
    case TimestampColumn => v.Timestamp?
  }

  /** A row the positional insert can store: one value per column, each of the column's type. */
  predicate Conforms(row: seq<Value>)
  {
    |row| == |BenchmarksSchema| && forall i :: 0 <= i < |row| ==> Fits(row[i], BenchmarksSchema[i])
  }

  /** `_insert_benchmark_result`: the parameters bound to the positional insert
      into `benchmarks` (seven placeholders, no column list), which are the fields
      of the result in declaration order; they fit the table's columns one for one. */
  function ToRow(r: BenchmarkResult): (row: seq<Value>)
    ensures Conforms(row)
    ensures row[0].text == r.insertMethod && row[1].text == r.logging
    ensures row[2].integer == r.nUsers && row[3].integer == r.nInitialStats && row[4].integer == r.nInsertedStats
    ensures row[5].seconds == r.duration && row[6].instant == r.runAt
  {
    [Text(r.insertMethod), Text(r.logging), Integer(r.nUsers), Integer(r.nInitialStats),
     Integer(r.nInsertedStats), Seconds(r.duration), Timestamp(r.runAt)]
  }

  /** Reading a stored row back as a result; rows that do not fit the table give nothing. */
  function FromRow(row: seq<Value>): (r: Option<BenchmarkResult>)
    ensures r.Some? <==> Conforms(row)
    ensures r.Some? ==> ToRow(r.value) == row
  {
    if Conforms(row) then
      Some(BenchmarkResult(row[0].text, row[1].text, row[2].integer, row[3].integer,
                           row[4].integer, row[5].seconds, row[6].instant))
    else None
  }

  /** A stored result reads back as itself. */
  lemma RowRoundTrip(r: BenchmarkResult)
    ensures FromRow(ToRow(r)) == Some(r)
  {
  }
}
