# pyrtcbench in Dafny

This is a model of the benchmark engine of pyrtcbench, with proofs. pyrtcbench compares two ways of
moving rows into the PostgreSQL table `user_stats`:

- a client-side binary `COPY` round trip: the rows are exported into a temporary file, which is
  rewound and imported again;
- a server-side `INSERT ... SELECT`.

It tries both ways over a matrix of user counts and logging modes.

The model covers these parts:

- **UserCount** (`usercount.dfy`): `_parse_n_users`, built on a model of Python's `int(str)`. That
  model strips white space, accepts an optional sign, and reads ASCII digits with single
  underscores between them.
- **BulkCopy** (`bulkcopy.dfy`): `bulk_read_write`, `_bulk_select` and `_bulk_insert`. The
  temporary file is a byte sequence with a position. `f.write`, `f.seek(0)` and `f.read` are
  modelled. The export and import command texts are built as `_bulk_select` and `_bulk_insert` build them.
- **Bench** (`bench.dfy`): one repetition of `_run_benchmark` over an abstract database. That
  database holds the rows of `user_stats` and `user_stats_staging` and the durability of
  `user_stats`. The server side of the two `COPY` directions is modelled for the two queries the
  benchmark exports. Each step is described both by its effect on the tables and by the driver
  calls it makes (`connection.dfy`).
- **Results** (`results.dfy`): the `BenchmarkResult` record that `run_benchmark` builds, and the
  seven-column row that `_insert_benchmark_result` stores.
- **Schedule** (`schedule.dfy`): the repetition loop of `run_benchmark`, and the product schedule of
  `main`. **RunLabels** (`labels.dfy`) reads a recorded result's labels back to its run.

The following are parameters, not definitions:

- the random-row generator `random_user_stats`;
- the binary `COPY` format, as an encoder and a decoder;
- psycopg2's `mogrify` and `sql.Identifier` quoting;
- the per-repetition schema set-up;
- the clocks.

Where the format is assumed *faithful* (the decoder reads back what the encoder wrote), the
contracts also state the end-to-end outcome.

Behaviours of the code that the model keeps:

- The user-count parser accepts more than a plain integer, optionally followed by `k`:
  - a sign (`-3k` gives -3000 users);
  - white space around a plain integer, and before a count followed by `k`, but not after the
    unit: the last character is checked first, so `"5k "` is rejected;
  - underscores between digits (`1_000`);
  - the Kelvin sign U+212A as the unit, because its `lower()` is `k`;
  - white space between the number and the unit (`"5 k"` gives 5000).
- `INSERT ... SELECT` names the destination table without quoting, while `COPY` quotes it as an
  identifier. The two command texts reflect that.
- Each `run_benchmark` call runs all copy repetitions of a configuration before the insert call
  runs its repetitions, so the results of one configuration come in two blocks of `n_reps`.
- The recorded results stand for the rows `_insert_benchmark_result` inserts into `benchmarks`:
  `Results.ToRow` gives the row, and `Results.FromRow` reads it back unchanged. The model treats
  that insert as always succeeding and does not model when it is committed (see "## Left out").

## Model

| member | source | states |
|---|---|---|
| UserCount.ParseNUsers | pyrtcbench/main.py:216-228 | An integer literal gives its value. Otherwise a last character that lower-cases to `k`, after an integer literal, gives 1000 times that literal; after anything else it is a `ValueError`. Any other last character is a `ValueError`. The result is `IndexError` exactly for the empty string. |
| UserCount.IsThousandsUnit | pyrtcbench/main.py:220-221 | The last characters whose `lower()` is `k`: `k`, `K` and the Kelvin sign. Its use is stated by `UserCount.ParseNUsers` and `UserCount.ThousandsRoundTrip`. |
| UserCount.UnitSuffixIsNotInt | pyrtcbench/main.py:217-221 | A string ending in `k`, `K` or the Kelvin sign is never accepted by `int()`, so the unit branch is reached only through the `ValueError`. |
| UserCount.ParseInt | pyrtcbench/main.py:218 | The model of `int()`. Its contract is stated by `UserCount.ParseIntRoundTrip`, `UserCount.UnitSuffixIsNotInt` and the examples. |
| UserCount.Strip | pyrtcbench/main.py:218 | The text `int()` reads is no longer than its input and neither starts nor ends with white space. |
| UserCount.StripRemovesPadding | pyrtcbench/main.py:218 | `int()` removes only white space: what it reads is a slice of the input with all-white-space parts cut off at either end. |
| UserCount.ParseDigitRun | pyrtcbench/main.py:218 | A digit run with single underscores reads as its base-10 value, and with a leading `-` as the negation of that value. |
| UserCount.ParseIntRoundTrip | pyrtcbench/main.py:218 | `int(str(n)) == n` for every integer n, negative ones included. |
| UserCount.PlainCountRoundTrip | pyrtcbench/main.py:217-218 | Every integer written plainly is accepted as that many users. |
| UserCount.ThousandsRoundTrip | pyrtcbench/main.py:219-222 | Every integer followed by `k`, `K` or the Kelvin sign is accepted as 1000 times that integer. |
| UserCount.PlainExample | pyrtcbench/main.py:216-228 | `"250"` gives 250. |
| UserCount.ThousandsExamples | pyrtcbench/main.py:219-222 | `"2K"` gives 2000 and `"-3k"` gives -3000. |
| UserCount.UnderscoreExample | pyrtcbench/main.py:218 | `" 1_000 "` reads as 1000. |
| UserCount.RejectedExamples | pyrtcbench/main.py:219-226 | `"2m"`, a bare `"k"` and `"5k "` (white space after the unit) are `ValueError`s; `""` is an `IndexError`. |
| BulkCopy.Write | pyrtcbench/bcopy.py:37-38 | A non-empty write places its bytes exactly at the position, advances the position past them and extends the file only as far as needed. An empty write changes nothing. |
| BulkCopy.WriteKeepsOtherBytes | pyrtcbench/bcopy.py:37-38 | A write never shortens the file and leaves every byte outside the written range as it was. |
| BulkCopy.WriteConcat | pyrtcbench/bcopy.py:37-38 | Two writes in a row land as one write of their concatenation. |
| BulkCopy.WriteAllIsWrite | pyrtcbench/bcopy.py:37-38 | Writing the chunks the server sends one after another is writing their concatenation. |
| BulkCopy.Read | pyrtcbench/bcopy.py:53-54 | A read returns the next `size` bytes after the position, or all that remain if fewer, and advances the position past them. |
| BulkCopy.ReadChunks | pyrtcbench/bcopy.py:53-54 | The import's read loop hands over exactly the rest of the file, in order. |
| BulkCopy.ReadChunksBounded | pyrtcbench/bcopy.py:53-54 | No block the read loop hands over is empty or longer than the block size. |
| BulkCopy.FreshRoundTrip | pyrtcbench/bcopy.py:26-29 | Whatever is written into a fresh file is read back, after the rewind, exactly and in order. |
| BulkCopy.ReusedBufferLeaks | pyrtcbench/bcopy.py:26 | For any earlier bytes and any chunks, a file that still holds the earlier bytes, positioned after them, passes them to the import ahead of the new ones. This is the case the fresh file rules out. |
| BulkCopy.Rewind | pyrtcbench/bcopy.py:28 | After the rewind the position is at the start, and the whole file is there to be read. |
| BulkCopy.ExportCommand | pyrtcbench/bcopy.py:33-37 | Builds the export command. Its contract is stated by `BulkCopy.ExportCommandWraps`: the query is wrapped and can be recovered. |
| BulkCopy.ExportCommandWraps | pyrtcbench/bcopy.py:32-37 | The export command is the substituted query wrapped in `copy ( ... ) to stdout with binary`, and the query can be recovered from it. |
| BulkCopy.Join | pyrtcbench/bcopy.py:48 | Joins identifiers with a separator. Its contract is stated by `BulkCopy.JoinSplit`. |
| BulkCopy.JoinSplit | pyrtcbench/bcopy.py:48 | A joined list is the join of any two parts of it with the separator between them, so the elements appear in order, separated by exactly `", "`. |
| BulkCopy.QuoteAll | pyrtcbench/bcopy.py:47-48 | Every column is quoted as an identifier, in the given order. |
| BulkCopy.ImportCommand | pyrtcbench/bcopy.py:43-53 | Builds the import command in both forms. Its contract is stated by `BulkCopy.ImportCommandShape`. |
| BulkCopy.ImportCommandShape | pyrtcbench/bcopy.py:41-53 | Both forms start with `copy` and the quoted table and end with `from stdin with binary`. A `" ("`, the column list and `") "` appear exactly when columns are given; otherwise the command is the short form. |
| BulkCopy.WriteChunks | pyrtcbench/bcopy.py:37-38 | The export's writing loop has the effect of one write of all the chunks' bytes, in the order sent. |
| BulkCopy.ReadBlocks | pyrtcbench/bcopy.py:53-54 | The import's reading loop returns exactly the blocks of the read model and leaves the file at its end. |
| BulkCopy.BulkReadWrite | pyrtcbench/bcopy.py:8-29 | The export runs first and once. A failed export ends the transfer with its error and no import. Otherwise the import runs once, receives exactly the exported bytes in order, and its outcome is the transfer's. |
| Bench.TableNamed | pyrtcbench/main.py:144 | The server resolves exactly the two benchmark table names, each to its own table. |
| Bench.WithRows | pyrtcbench/main.py:144-148 | Refilling one table sets its rows and keeps the other table and the durability. |
| Bench.ArrangeAll | pyrtcbench/bcopy.py:45-48 | An import stores every decoded row, in order, with its fields assigned to the listed columns. |
| Bench.NaturalOrderKeepsRows | pyrtcbench/main.py:158-161 | Naming the three columns in table order stores each row as it came. |
| Bench.ServerCopyOut | pyrtcbench/bcopy.py:38 | The server answers exactly the two exports the benchmark issues. This is stated through the calls and results of `Bench.TruncateAndFill` and `Bench.StagingToUserStats`. |
| Bench.ServerCopyIn | pyrtcbench/bcopy.py:53-54 | A successful import names a benchmark table, keeps the other table and the durability, and only appends to the named table. |
| Bench.CopyInAppends | pyrtcbench/main.py:186-192 | An import into a benchmark table under its three column names appends exactly the decoded rows. It fails with the decoding error when the bytes do not decode. |
| Bench.ColumnMismatchFails | pyrtcbench/bcopy.py:45-54 | An import whose column list does not name the table's three columns fails. |
| Bench.FillEvents | pyrtcbench/main.py:147-148 | The calls of truncate-and-fill. Their order is stated by `Bench.TruncateAndFill`, and `Bench.FillNeverCommits` states that none of them commits. |
| Bench.FillNeverCommits | pyrtcbench/main.py:146-148 | Truncate-and-fill ends with its import and commits nothing itself. |
| Bench.TableFor | pyrtcbench/main.py:144 | Picks `user_stats_staging` for the staging fill and `user_stats` otherwise. The calls and rows it leads to are stated by `Bench.TruncateAndFill`. |
| Bench.TruncateAndFill | pyrtcbench/main.py:131-164 | The calls are the unquoted `truncate`, the export of the generator's rows for the category ids, and the import of exactly those bytes into the quoted table under its three column names. The chosen table ends with exactly the decoded rows, whatever it held; with a faithful format those are the generated rows. Undecodable bytes fail. |
| Bench.SetDurability | pyrtcbench/main.py:81-85 | Changing the durability never fails, keeps every row of both tables, and makes `user_stats` unlogged exactly when asked to. |
| Bench.StagingToUserStats | pyrtcbench/main.py:176-200 | The copy strategy exports the staging query and imports the bytes into `user_stats` under its column names. The insert strategy runs one `INSERT ... SELECT`. Both keep the staging table and append the moved rows after the existing ones. With a faithful format both strategies leave the same tables. |
| Bench.TimedTransferPhase | pyrtcbench/main.py:96-102 | The wall clock and then the monotonic clock are read before the transfer. After a successful transfer come the commit and the second monotonic reading, and nothing earlier commits. A failed transfer neither commits nor reads the clock again. |
| Bench.FillPhase | pyrtcbench/main.py:77-78 | A reset phase holds the fill's calls and is committed exactly when the fill succeeds, which is exactly when the export decodes. |
| Bench.Resets | pyrtcbench/main.py:76-92 | The three resets run in order: categories 1-5 into `user_stats`, the durability change, then categories 6-10 into staging. Each is committed before the next starts. They succeed exactly when both exports decode, and then leave exactly the decoded rows and the chosen durability. |
| Bench.ResetsInOrder | pyrtcbench/main.py:76-92 | The three reset phases are in the fixed order once the first two have committed. |
| Bench.CompleteInOrder | pyrtcbench/main.py:92-102 | The vacuum and the timed phase follow the resets in order once the last reset has committed. |
| Bench.RunRepetition | pyrtcbench/main.py:74-108 | The phases run in the fixed order. Every reset phase that was followed by another had committed. A failure cuts the repetition short, and the phase it failed in commits nothing. The timed phase runs the chosen strategy: the staging export for copy, the `INSERT ... SELECT` otherwise. The vacuum is the autocommit/vacuum/rollback sequence. The clock readings bracket the transfer and its commit. With a faithful format the repetition succeeds and `user_stats` ends with categories 1-5 followed by 6-10, whatever the tables held. |
| Results.SelectsUnlogged | pyrtcbench/main.py:52 | Only the exact selector `unlogged` means unlogged. This is stated by `Schedule.ResultFor`. |
| Results.MakeResult | pyrtcbench/main.py:61-69 | The method is `copy` exactly for the copy strategy and `insert` otherwise. The logging is `unlogged` exactly when unlogged. The user count is kept, both row counts are 5 times it, and the duration is the monotonic difference. |
| Results.LabelsIdentifyRun | pyrtcbench/main.py:61-63 | Two results have the same method label exactly when they used the same strategy, and the same logging label exactly when they used the same logging. |
| Results.ToRow | pyrtcbench/main.py:211-213 | The stored row fits the seven columns of `benchmarks` and carries the result's fields in declaration order. |
| Results.FromRow | pyrtcbench/main.py:13-17 | A row reads back as a result exactly when it fits the table, and storing that result gives the row again. |
| Results.RowRoundTrip | pyrtcbench/main.py:211-213 | Every result reads back from its stored row as itself. |
| Schedule.ResultFor | pyrtcbench/main.py:51-69 | A call records results exactly when its user count parses. Each result carries the parsed count and `5 n` initial and inserted rows. Its method is `copy` exactly for the copy strategy, and its logging is `unlogged` exactly when the selector is the string `unlogged`; any other selector means logged. |
| RunLabels.ResultForOtherLabels | pyrtcbench/main.py:52-63 | A recorded result's method is `insert` exactly for the insert strategy, and its logging is `logged` exactly when the selector is anything but `unlogged`. |
| Schedule.PairRuns | pyrtcbench/main.py:22-26 | Each user count makes two calls per selector, with that user count and that selector. |
| Schedule.PairRunsAt | pyrtcbench/main.py:22-26 | For the j-th selector, the copy call comes first and the insert call immediately after. |
| Schedule.Runs | pyrtcbench/main.py:20-26 | The schedule has 2 x \|user counts\| x \|selectors\| calls, each with a given user count and selector. |
| Schedule.RunsAt | pyrtcbench/main.py:20-26 | The pair of the i-th user count and the j-th selector sits at places 2(i\|selectors\|+j) (copy) and 2(i\|selectors\|+j)+1 (insert): user counts outer, selectors inner. |
| Schedule.RunsPrefix | pyrtcbench/main.py:21-22 | The calls for the first m user counts come before all others, because user counts are the outer loop. |
| Schedule.SingleCellExample | pyrtcbench/main.py:20-69 | One user count `"10"` and the selector `"logged"` make a copy call, then an insert call. Their results record 10 users, 50 initial and 50 inserted rows, logging `logged`, and methods `copy` and `insert`. |
| Schedule.Replicate | pyrtcbench/main.py:59-71 | A successful repetition records the result for its labels, user count and clock readings. With a faithful format it always succeeds. |
| Schedule.Reps | pyrtcbench/main.py:57 | The number of repetitions `range(1, n_reps + 1)` makes. It is stated by `Schedule.Repeat`. |
| Schedule.Repeat | pyrtcbench/main.py:57-71 | Exactly `n_reps` results are recorded unless a repetition fails (none when `n_reps <= 0`). The k-th carries the labels, `5 n` row counts and the k-th clock readings. With a faithful format nothing fails. |
| Schedule.RunBenchmark | pyrtcbench/main.py:29-71 | An unparsable user count fails before any repetition with the parser's error. Otherwise the recorded results are what the parsed count, the strategy and the selector give, one per repetition. With a faithful format and a parsable count, all `n_reps` are recorded. |
| Schedule.RunNext | pyrtcbench/main.py:22-26 | Each call's results follow those of the earlier calls, all `n_reps` unless it fails. |
| Schedule.RunMatrix | pyrtcbench/main.py:20-26 | The calls are a prefix of the schedule, and all of it when nothing fails. The c-th call's results fill places `c·R .. c·R+R-1` and carry its labels. Without failure every call records R results. With a faithful format and parsable user counts nothing fails. |

## Left out

- The psycopg2 connection, SQL execution and transactions are left out because they are foreign
  I/O. A run is described by its driver calls and the table state it leaves. The rollback of a
  failing step is not modelled: a failed step yields its error, not a table state.
- Only the server's half of `COPY` can fail in the model. It fails on an unknown table, a column
  list that does not name the three columns, undecodable bytes, or an export other than the two
  the benchmark issues. Every other step always succeeds in the model, although it can raise in
  the program:
  - the set-up, including `open('setup_bench.sql')`;
  - the `truncate`;
  - the `alter table ... set logged|unlogged`;
  - the `INSERT ... SELECT`;
  - the temporary-file writes;
  - the result insert of `_insert_benchmark_result`.

  The "with a faithful format nothing fails" clauses of `Schedule.Replicate`, `Schedule.Repeat`,
  `Schedule.RunBenchmark`, `Schedule.RunMatrix` and `Bench.RunRepetition` rest on that assumption.
- The commit timing of the result insert is not modelled. The insert at main.py:70-71 is committed
  only by the next repetition's set-up commit, or when the connection block exits normally. If the
  next set-up raises, the previous repetition's row is rolled back. `Schedule.Repeat` still keeps
  that result among the recorded ones.
- Tables are sequences, so the model gives rows an order that SQL tables do not have. "Appended
  after the existing rows" and "categories 1-5 followed by 6-10" describe the model's own
  structure. Only the multiset of rows reflects the database.
- The per-repetition schema set-up is an abstract `setup(db, n_users)` function because it is file
  I/O plus opaque DDL. This covers `setup_bench.sql`, the `set_config` calls, `fill_users` and
  `fill_categories`.
- `vacuum_analyze` appears only as its four driver calls, because the server's maintenance pass is
  opaque. It does not change the modelled tables.
- The clocks (`datetime.utcnow`, `time.monotonic`) are left out because they are clocks. They are
  integer readings supplied per timed phase, and the float duration is their integer difference.
- `Results.MakeResult` does not model the float type of `duration` or the `datetime` type of
  `run_at`, because both are integers here.
- The `DSN` environment variable and the progress `print`s are left out because they are
  environment and console I/O.
- `cli.py` and `setup.py` are left out: they are a command-line wrapper and packaging.
- The `main()` call without arguments at main.py:231-232 is left out because it fails before doing
  anything.
- `int()` accepting non-ASCII decimal digits, and its limit on the number of digits, are left out.
  Only ASCII digits are modelled, and numbers are unbounded.
- The random-row generator, the binary `COPY` format, `mogrify` and `sql.Identifier` quoting are
  abstract parameters, because the library and the server are not part of this model.
- The server answers only the two exports the benchmark issues. Any other export is an error.
- `Bench.RunRepetition` does not restate the calls of the three resets. `Bench.Resets` states them
  (its phases). The body of `Bench.RunRepetition` returns those phases unchanged, but its contract
  does not restate them.
- `Schedule.RunMatrix` states the table length without failure as the number of calls times R.
  With the schedule's length from `Schedule.Runs`, that is 2 x |user counts| x |selectors| x R.
