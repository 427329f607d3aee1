/**
  One repetition of the benchmark over an abstract database holding the two
  statistics tables. A table is the sequence of its `(user_id, category_id, value)`
  rows; the server's random-row generator and the binary COPY format are
  parameters. The server is modelled only as far as the commands the benchmark
  sends it: the two queries it exports and imports into the two tables.
 */
module Bench {
  import opened Base
  import opened Connection
  import opened BulkCopy

  datatype Row = Row(userId: int, categoryId: int, value: int)

  /** Whether `user_stats` is written to the write-ahead log. */
  datatype Durability = Logged | Unlogged

  datatype Table = UserStats | UserStatsStaging

  /** The destination table, the staging table, and the destination's durability.
      A table's rows are kept in the order they were stored; the database itself
      promises only the multiset. */
  datatype Db = Db(userStats: seq<Row>, staging: seq<Row>, durability: Durability)

  function TableName(t: Table): string
  {
    match t
    case UserStats => "user_stats"
    case UserStatsStaging => "user_stats_staging"
  }

  /** How the server resolves a table name. */
  function TableNamed(name: string): (t: Option<Table>)
    ensures t.Some? ==> TableName(t.value) == name
    ensures forall u :: TableName(u) == name ==> t == Some(u)
  {
    if name == "user_stats" then Some(UserStats)
    else if name == "user_stats_staging" then Some(UserStatsStaging)
    else None
  }

  function Other(t: Table): Table
  {
    match t
    case UserStats => UserStatsStaging
    case UserStatsStaging => UserStats
  }

  function Rows(db: Db, t: Table): seq<Row>
  {
    match t
    case UserStats => db.userStats
    case UserStatsStaging => db.staging
  }

  /** `db` with table `t` holding `rows`; the other table and the durability are kept. */
  function WithRows(db: Db, t: Table, rows: seq<Row>): (db': Db)
    ensures Rows(db', t) == rows
    ensures Rows(db', Other(t)) == Rows(db, Other(t))
    ensures db'.durability == db.durability
  {
    match t
    case UserStats => db.(userStats := rows)
    case UserStatsStaging => db.(staging := rows)
  }

  // ---------------------------------------------------------------------------
  // Columns.

  const StatColumns: seq<string> := ["user_id", "category_id", "value"]

  /** A column list the server accepts for three-field binary rows: the three
      columns of the table, each once, in any order. */
  predicate ValidColumns(cols: seq<string>)
  {
    |cols| == 3 && "user_id" in cols && "category_id" in cols && "value" in cols
  }

  function IndexOf(cols: seq<string>, name: string): (k: nat)
    requires name in cols
    ensures k < |cols| && cols[k] == name
    ensures forall j :: 0 <= j < k ==> cols[j] != name
  {
    if cols[0] == name then 0 else 1 + IndexOf(cols[1..], name)
  }

  /** The `k`-th field of a binary row. */
  function Field(r: Row, k: nat): int
    requires k < 3
  {
    if k == 0 then r.userId else if k == 1 then r.categoryId else r.value
  }

  /** The stored row when the fields of `r` are assigned to `cols` in order. */
  function Arrange(cols: seq<string>, r: Row): Row
    requires ValidColumns(cols)
  {
    Row(Field(r, IndexOf(cols, "user_id")), Field(r, IndexOf(cols, "category_id")),
        Field(r, IndexOf(cols, "value")))
  }

  function ArrangeAll(cols: seq<string>, rows: seq<Row>): (out: seq<Row>)
    requires ValidColumns(cols)
    ensures |out| == |rows| && forall i :: 0 <= i < |rows| ==> out[i] == Arrange(cols, rows[i])
  {
    if |rows| == 0 then [] else ArrangeAll(cols, rows[..|rows| - 1]) + [Arrange(cols, rows[|rows| - 1])]
  }

  /** Naming the columns in the table's own order stores every row as it came. */
  lemma NaturalOrderKeepsRows(rows: seq<Row>)
    ensures ValidColumns(StatColumns) && ArrangeAll(StatColumns, rows) == rows
  {
    assert IndexOf(StatColumns, "user_id") == 0;
    assert IndexOf(StatColumns, "category_id") == 1;
    assert IndexOf(StatColumns, "value") == 2;
  }

  // ---------------------------------------------------------------------------
  // The server.

  /** The binary COPY format: rows to the chunks the server sends, bytes back to rows. */
  datatype Codec = Codec(encode: seq<Row> -> seq<seq<byte>>, decode: seq<byte> -> Option<seq<Row>>)

  /** The server reads back what it writes. */
  ghost predicate Faithful(c: Codec)
  {
    forall rows :: c.decode(Flatten(c.encode(rows))) == Some(rows)
  }

  /** What the benchmark relies on from the database and the driver library: the
      server-side `random_user_stats(category_ids)` generator, the COPY format,
      `cursor.mogrify`, `sql.Identifier` quoting, and the schema set-up run before
      each repetition (given the user count). */
  datatype Server = Server(
    randomUserStats: seq<int> -> seq<Row>,
    codec: Codec,
    mogrify: (string, Option<seq<Param>>) -> string,
    quote: string -> string,
    setup: (Db, int) -> Db)

  const RandomStatsQuery := "select user_id, category_id, value from random_user_stats(%s)"
  const StagingQuery :=
    "\n        select\n            user_id, category_id, value\n        from\n            user_stats_staging\n    "

  /** Categories already present before the timed transfer, and the ones it moves. */
  const BaseCategories: seq<int> := [1, 2, 3, 4, 5]
  const NewCategories: seq<int> := [6, 7, 8, 9, 10]

  /** The server's side of `copy (<query>) to stdout with binary` for the two
      queries the benchmark exports: the generator's rows for the given category
      ids, or the staging table. */
  function ServerCopyOut(srv: Server, db: Db, select: SelectSpec): Result<seq<seq<byte>>, string>
  {
    if select.query == RandomStatsQuery && select.params.Some? && |select.params.value| == 1 then
      Success(srv.codec.encode(srv.randomUserStats(select.params.value[0].values)))
    else if select.query == StagingQuery && select.params.None? then
      Success(srv.codec.encode(db.staging))
    else
      Failure("query outside the benchmark")
  }

  /** The server's side of `copy <table> [(<columns>)] from stdin with binary`: the
      decoded rows are appended to the named table, their fields assigned to the
      listed columns in order. An unknown table, a column list that does not name
      the three columns, or undecodable bytes fail and change nothing. */
  function ServerCopyIn(srv: Server, db: Db, insert: InsertSpec, payload: seq<byte>): (r: Result<Db, string>)
    ensures r.Success? ==> TableNamed(insert.table).Some?
    ensures r.Success? ==> var t := TableNamed(insert.table).value;
              Rows(r.value, Other(t)) == Rows(db, Other(t)) && r.value.durability == db.durability
    ensures r.Success? ==> var t := TableNamed(insert.table).value;
              |Rows(r.value, t)| >= |Rows(db, t)| && Rows(r.value, t)[..|Rows(db, t)|] == Rows(db, t)
  {
    match TableNamed(insert.table)
    case None => Failure("relation does not exist")
    case Some(t) =>
      var cols := if insert.columns.Some? then insert.columns.value else StatColumns;
      if !ValidColumns(cols) then Failure("column list does not match the data")
      else
        match srv.codec.decode(payload)
        case None => Failure(MalformedData)
        case Some(rows) =>
          var table := Rows(db, t) + ArrangeAll(cols, rows);
          assert table[..|Rows(db, t)|] == Rows(db, t);
          Success(WithRows(db, t, table))
  }

  const MalformedData := "malformed binary COPY data"

  /** The column-listed import into a benchmark table that both transfers use. */
  function IntoTable(t: Table): InsertSpec
  {
    InsertSpec(TableName(t), Some(StatColumns))
  }

  /** An import into a benchmark table naming its columns in the table's order
      appends the decoded rows unchanged, or fails on undecodable bytes. */
  lemma CopyInAppends(srv: Server, db: Db, t: Table, payload: seq<byte>)
    ensures srv.codec.decode(payload).None? ==> ServerCopyIn(srv, db, IntoTable(t), payload) == Failure(MalformedData)
    ensures srv.codec.decode(payload).Some? ==>
              ServerCopyIn(srv, db, IntoTable(t), payload)
              == Success(WithRows(db, t, Rows(db, t) + srv.codec.decode(payload).value))
  {
    assert TableNamed(TableName(t)) == Some(t);
    if srv.codec.decode(payload).Some? {
      NaturalOrderKeepsRows(srv.codec.decode(payload).value);
    }
  }

  /** An import whose column list does not name the table's three columns fails. */
  lemma ColumnMismatchFails(srv: Server, db: Db, t: Table, cols: seq<string>, payload: seq<byte>)
    requires !ValidColumns(cols)
    ensures ServerCopyIn(srv, db, InsertSpec(TableName(t), Some(cols)), payload).Failure?
  {
    assert TableNamed(TableName(t)) == Some(t);
  }

  function DriverFor(srv: Server): Driver<Db>
  {
    Driver(srv.mogrify, srv.quote,
           (db, select) => ServerCopyOut(srv, db, select),
           (db, insert, payload) => ServerCopyIn(srv, db, insert, payload))
  }

  // ---------------------------------------------------------------------------
  // The steps of a repetition.

  function TableFor(staging: bool): Table
  {
    if staging then UserStatsStaging else UserStats
  }

  /** What the server reads back from the export of `rows`. */
  function Decoded(srv: Server, rows: seq<Row>): Option<seq<Row>>
  {
    srv.codec.decode(Flatten(srv.codec.encode(rows)))
  }

  /** With a faithful format the server decodes exactly the rows it encoded. */
  lemma FaithfulDecodes(srv: Server, rows: seq<Row>)
    requires Faithful(srv.codec)
    ensures Decoded(srv, rows) == Some(rows)
  {
  }

  /** The calls of `truncate_and_insert_random_stats`: the truncate, the export of
      the generator's rows for `categoryIds`, and the import of exactly those bytes
      into the chosen table under its three column names. */
  function FillEvents(srv: Server, staging: bool, categoryIds: seq<int>): seq<Event>
  {
    var name := TableName(TableFor(staging));
    [Execute("truncate table " + name),
     CopyOut(ExportCommand(srv.mogrify(RandomStatsQuery, Some([IntList(categoryIds)])))),
     CopyIn(ImportCommand(srv.quote, name, Some(StatColumns)),
            Flatten(srv.codec.encode(srv.randomUserStats(categoryIds))))]
  }

  /** The fill ends with its import and commits nothing itself. */
  lemma FillNeverCommits(srv: Server, staging: bool, categoryIds: seq<int>)
    ensures Commit !in FillEvents(srv, staging, categoryIds)
    ensures FillEvents(srv, staging, categoryIds)[2].CopyIn?
  {
  }

  /** `truncate_and_insert_random_stats`: empties the chosen table, then bulk-copies
      the generator's rows for `categoryIds` into it through the client buffer.
      The calls do not depend on what the tables held; the chosen table ends with
      exactly the rows the server decodes, whatever it held before, and the other
      table and the durability are untouched. With a faithful format those are
      the generated rows. */
  method TruncateAndFill(srv: Server, db: Db, staging: bool, categoryIds: seq<int>) returns (t: Transfer<Db>)
    ensures t.trace == FillEvents(srv, staging, categoryIds)
    ensures Decoded(srv, srv.randomUserStats(categoryIds)).None? ==> t.result == Failure(MalformedData)
    ensures Decoded(srv, srv.randomUserStats(categoryIds)).Some? ==>
              t.result == Success(WithRows(db, TableFor(staging), Decoded(srv, srv.randomUserStats(categoryIds)).value))
    ensures Faithful(srv.codec) ==>
              t.result == Success(WithRows(db, TableFor(staging), srv.randomUserStats(categoryIds)))
  {
    var table := TableFor(staging);
    var rows := srv.randomUserStats(categoryIds);
    var select := SelectSpec(RandomStatsQuery, Some([IntList(categoryIds)]));
    var truncated := WithRows(db, table, []);
    var drv := DriverFor(srv);
    assert drv.copyOut(truncated, select) == Success(srv.codec.encode(rows));
    var payload := Flatten(srv.codec.encode(rows));
    CopyInAppends(srv, truncated, table, payload);
    assert drv.copyIn(truncated, IntoTable(table), payload) == ServerCopyIn(srv, truncated, IntoTable(table), payload);
    var bulk := BulkReadWrite(drv, truncated, select, IntoTable(table));
    t := Transfer(bulk.result, [Execute("truncate table " + TableName(table))] + bulk.trace);
    if Decoded(srv, rows).Some? {
      var landed := Decoded(srv, rows).value;
      assert [] + landed == landed;
      assert WithRows(truncated, table, landed) == WithRows(db, table, landed);
    }
  }

  /** `alter table user_stats set logged|unlogged`: changes the durability and
      loses no row of either table. */
  function SetDurability(db: Db, unlogged: bool): (t: Transfer<Db>)
    ensures t.result.Success?
    ensures t.result.value.userStats == db.userStats && t.result.value.staging == db.staging
    ensures t.result.value.durability == Unlogged <==> unlogged
  {
    var mode := if unlogged then "unlogged" else "logged";
    Transfer(Success(db.(durability := if unlogged then Unlogged else Logged)),
             [Execute("alter table user_stats set " + mode)])
  }

  const InsertSelectCommand := "insert into user_stats(user_id, category_id, value) " + StagingQuery

  /** `_staging_to_user_stats`: moves the staging rows into `user_stats`, either
      through the client buffer (`useCopy`: export of the staging query, import
      into `user_stats` under its three column names) or by one server-side
      INSERT-SELECT. Either way the staging table is kept and the moved rows are
      appended after the existing ones; with a faithful format both strategies
      leave the same tables. */
  method StagingToUserStats(srv: Server, db: Db, useCopy: bool) returns (t: Transfer<Db>)
    ensures useCopy ==>
              t.trace == [CopyOut(ExportCommand(srv.mogrify(StagingQuery, None))),
                          CopyIn(ImportCommand(srv.quote, "user_stats", Some(StatColumns)),
                                 Flatten(srv.codec.encode(db.staging)))]
    ensures !useCopy ==> t.trace == [Execute(InsertSelectCommand)]
    ensures useCopy && Decoded(srv, db.staging).None? ==> t.result == Failure(MalformedData)
    ensures useCopy && Decoded(srv, db.staging).Some? ==>
              t.result == Success(db.(userStats := db.userStats + Decoded(srv, db.staging).value))
    ensures Faithful(srv.codec) || !useCopy ==>
              t.result == Success(db.(userStats := db.userStats + db.staging))
  {
    if useCopy {
      var select := SelectSpec(StagingQuery, None);
      var drv := DriverFor(srv);
      assert drv.copyOut(db, select) == Success(srv.codec.encode(db.staging));
      var payload := Flatten(srv.codec.encode(db.staging));
      CopyInAppends(srv, db, UserStats, payload);
      assert drv.copyIn(db, IntoTable(UserStats), payload) == ServerCopyIn(srv, db, IntoTable(UserStats), payload);
      t := BulkReadWrite(drv, db, select, IntoTable(UserStats));
    } else {
      t := Transfer(Success(db.(userStats := db.userStats + db.staging)), [Execute(InsertSelectCommand)]);
    }
  }

  /** `vacuum_analyze`: switches to autocommit, vacuums, switches back and rolls back. */
  const ReclaimEvents: seq<Event> := [SetAutocommit(true), Execute("vacuum analyze"), SetAutocommit(false), Rollback]

  // ---------------------------------------------------------------------------
  // A repetition.

  datatype PhaseKind = ResetBase | SetDurabilityMode | ResetStaging | Reclaim | TimedTransfer

  /** The phases of `_run_benchmark`, in the order they must run. */
  const PhaseOrder: seq<PhaseKind> := [ResetBase, SetDurabilityMode, ResetStaging, Reclaim, TimedTransfer]

  datatype Phase = Phase(kind: PhaseKind, events: seq<Event>)

  /** The tables after a repetition (or the error that ended it) and the phases it ran. */
  datatype Repetition = Repetition(result: Result<Db, string>, phases: seq<Phase>)

  /** A phase whose work is committed at its end. */
  predicate Committed(p: Phase)
  {
    |p.events| > 0 && p.events[|p.events| - 1] == Commit
  }

  /** Phases run in the fixed order, possibly cut short, and every reset phase that
      was followed by another phase had committed its work. */
  predicate InOrder(phases: seq<Phase>)
  {
    && 1 <= |phases| <= |PhaseOrder|
    && (forall i :: 0 <= i < |phases| ==> phases[i].kind == PhaseOrder[i])
    && (forall i :: 0 <= i < |phases| - 1 && i < 3 ==> Committed(phases[i]))
  }

  /** The timed phase starts with its wall-clock and monotonic readings. */
  predicate OpensTimer(e: seq<Event>)
  {
    |e| >= 2 && e[..2] == [ReadWallClock, ReadMonotonicClock]
  }

  /** The timed phase ends with the commit and the closing monotonic reading,
      and nothing before them commits. */
  predicate ClosesTimer(e: seq<Event>)
  {
    |e| >= 4 && e[|e| - 2..] == [Commit, ReadMonotonicClock] && Commit !in e[..|e| - 2]
  }

  /** The timed phase: a wall-clock and a monotonic reading, the transfer, and,
      once it succeeded, its commit and the closing monotonic reading; nothing is
      committed before the transfer is complete. */
  method TimedTransferPhase(srv: Server, db: Db, useCopy: bool) returns (t: Transfer<Db>)
    ensures |t.trace| >= 3 && OpensTimer(t.trace)
    ensures t.trace[2] == (if useCopy then CopyOut(ExportCommand(srv.mogrify(StagingQuery, None)))
                           else Execute(InsertSelectCommand))
    ensures t.result.Success? ==> |t.trace| >= 5 && ClosesTimer(t.trace)
    ensures t.result.Failure? ==> Commit !in t.trace && ReadMonotonicClock !in t.trace[2..]
    ensures useCopy && Decoded(srv, db.staging).None? ==> t.result == Failure(MalformedData)
    ensures Faithful(srv.codec) || !useCopy ==>
              t.result == Success(db.(userStats := db.userStats + db.staging))
  {
    var moved := StagingToUserStats(srv, db, useCopy);
    var window := [ReadWallClock, ReadMonotonicClock] + moved.trace;
    assert window[2..] == moved.trace;
    if moved.result.Failure? {
      t := Transfer(moved.result, window);
    } else {
      t := Transfer(moved.result, window + [Commit, ReadMonotonicClock]);
      assert t.trace[..|t.trace| - 2] == window;
    }
  }

  /** The three reset phases are in order once the first two have committed. */
  lemma ResetsInOrder(p1: Phase, p2: Phase, p3: Phase)
    requires p1.kind == ResetBase && p2.kind == SetDurabilityMode && p3.kind == ResetStaging
    requires Committed(p1) && Committed(p2)
    ensures InOrder([p1, p2, p3])
  {
  }

  /** The vacuum and the timed phase follow the resets once the last reset has committed. */
  lemma CompleteInOrder(resets: seq<Phase>, reclaim: Phase, timed: Phase)
    requires InOrder(resets) && |resets| == 3 && Committed(resets[2])
    requires reclaim.kind == Reclaim && timed.kind == TimedTransfer
    ensures InOrder(resets + [reclaim, timed])
    ensures (resets + [reclaim, timed])[2] == resets[2]
    ensures (resets + [reclaim, timed])[3] == reclaim && (resets + [reclaim, timed])[4] == timed
  {
  }

  /** A reset phase: truncate-and-fill, committed when it succeeded. The phase
      holds the fill's calls, whatever the tables held; it succeeds exactly when
      the server decodes the export, and then the table holds the decoded rows. */
  method FillPhase(srv: Server, db: Db, staging: bool, categoryIds: seq<int>, kind: PhaseKind)
    returns (p: Phase, result: Result<Db, string>)
    ensures p.kind == kind
    ensures |p.events| >= 3 && p.events[..3] == FillEvents(srv, staging, categoryIds)
    ensures result.Success? <==> Committed(p)
    ensures result.Failure? ==> Commit !in p.events
    ensures result.Success? <==> Decoded(srv, srv.randomUserStats(categoryIds)).Some?
    ensures result.Success? ==>
              result.value == WithRows(db, TableFor(staging), Decoded(srv, srv.randomUserStats(categoryIds)).value)
  {
    var fill := TruncateAndFill(srv, db, staging, categoryIds);
    FillNeverCommits(srv, staging, categoryIds);
    result := fill.result;
    if result.Failure? {
      p := Phase(kind, fill.trace);
      assert p.events[..3] == fill.trace;
    } else {
      p := Phase(kind, fill.trace + [Commit]);
      assert p.events[..3] == fill.trace;
    }
  }

  /** The three resets: categories 1-5 into `user_stats`, its durability, and
      categories 6-10 into `user_stats_staging`, each committed. Their calls do not
      depend on the prior tables; they succeed exactly when the server decodes
      both exports, and then leave the decoded rows and the chosen durability
      whatever the tables held before. */
  method Resets(srv: Server, db: Db, unlogged: bool) returns (r: Repetition)
    ensures 1 <= |r.phases| <= 3 && InOrder(r.phases)
    ensures |r.phases[0].events| >= 3 && r.phases[0].events[..3] == FillEvents(srv, false, BaseCategories)
    ensures |r.phases| >= 2 ==> r.phases[1].events == SetDurability(db, unlogged).trace + [Commit]
    ensures |r.phases| == 3 ==>
              |r.phases[2].events| >= 3 && r.phases[2].events[..3] == FillEvents(srv, true, NewCategories)
    ensures r.result.Success? ==> |r.phases| == 3 && Committed(r.phases[2])
    ensures r.result.Failure? ==> Commit !in r.phases[|r.phases| - 1].events
    ensures var b := Decoded(srv, srv.randomUserStats(BaseCategories));
            var n := Decoded(srv, srv.randomUserStats(NewCategories));
            && (r.result.Success? <==> b.Some? && n.Some?)
            && (r.result.Success? ==>
                  r.result.value == Db(b.value, n.value, if unlogged then Unlogged else Logged))
  {
    var p1, base := FillPhase(srv, db, false, BaseCategories, ResetBase);
    if base.Failure? {
      assert InOrder([p1]);
      return Repetition(base, [p1]);
    }
    var mode := SetDurability(base.value, unlogged);
    var p2 := Phase(SetDurabilityMode, mode.trace + [Commit]);
    var p3, extra := FillPhase(srv, mode.result.value, true, NewCategories, ResetStaging);
    ResetsInOrder(p1, p2, p3);
    r := Repetition(extra, [p1, p2, p3]);
  }

  /** `_run_benchmark`: fills `user_stats` with categories 1-5, sets its durability,
      fills `user_stats_staging` with categories 6-10, vacuums, and performs the
      timed transfer with the chosen strategy; each of the three resets ends in a
      commit, the vacuum runs outside a transaction, and the clock readings
      bracket the transfer and its commit. A failing step ends the repetition with
      its error after the phases that ran, and the phase it failed in commits
      nothing. Every repetition starts afresh: with a faithful format the outcome
      does not depend on the tables it found, the repetition always succeeds, and
      `user_stats` ends with the rows of categories 1-5 followed by those of 6-10. */
  method RunRepetition(srv: Server, db: Db, useCopy: bool, unlogged: bool) returns (r: Repetition)
    ensures InOrder(r.phases)
    ensures r.result.Success? ==> |r.phases| == |PhaseOrder| && Committed(r.phases[2])
    ensures |r.phases| >= 4 ==> r.phases[3].events == ReclaimEvents
    ensures |r.phases| == 5 ==> OpensTimer(r.phases[4].events)
    ensures |r.phases| == 5 ==>
              |r.phases[4].events| >= 3
              && r.phases[4].events[2] == (if useCopy then CopyOut(ExportCommand(srv.mogrify(StagingQuery, None)))
                                           else Execute(InsertSelectCommand))
    ensures r.result.Failure? ==> Commit !in r.phases[|r.phases| - 1].events
    ensures r.result.Success? ==> ClosesTimer(r.phases[4].events)
    ensures Faithful(srv.codec) ==>
              r.result == Success(Db(srv.randomUserStats(BaseCategories) + srv.randomUserStats(NewCategories),
                                     srv.randomUserStats(NewCategories),
                                     if unlogged then Unlogged else Logged))
  {
    var resets := Resets(srv, db, unlogged);
    if resets.result.Failure? {
      return resets;
    }
    if Faithful(srv.codec) {
      FaithfulDecodes(srv, srv.randomUserStats(BaseCategories));
      FaithfulDecodes(srv, srv.randomUserStats(NewCategories));
    }
    var timed := TimedTransferPhase(srv, resets.result.value, useCopy);
    var reclaim, transfer := Phase(Reclaim, ReclaimEvents), Phase(TimedTransfer, timed.trace);
    CompleteInOrder(resets.phases, reclaim, transfer);
    r := Repetition(timed.result, resets.phases + [reclaim, transfer]);
  }
}
