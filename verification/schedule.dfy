/**
  The benchmark driver: `run_benchmark` runs the repetitions of one configuration
  and records a result for each; `main` runs every configuration of the matrix of
  user counts and logging selectors, the copy strategy first, then the insert
  strategy. The database connection is the `Server` of the repetition model; the
  clock is a parameter giving the readings of the n-th timed phase of the whole
  session.
 */
module Schedule {
  import opened Base
  import opened UserCount
  import opened Bench
  import opened Results

  /** Why a run stopped: its user count did not parse, or a repetition failed. */
  datatype RunError = BadSpecifier(parse: ParseError) | TransferFailed(reason: string)

  /** One `run_benchmark` call: the user-count specifier, the strategy, and the
      logging selector. */
  datatype Run = Run(users: string, useCopy: bool, logging: string)

  /** `range(1, n_reps + 1)` has this many elements. */
  function Reps(nReps: int): nat
  {
    if nReps > 0 then nReps else 0
  }

  /** The result a repetition of `run` records with the given clock readings, if
      the run gets as far as recording one. */
  function ResultFor(run: Run, s: Sample): (r: Option<BenchmarkResult>)
    ensures r.Some? <==> ParseNUsers(run.users).Success?
    ensures r.Some? ==>
              && r.value.nUsers == ParseNUsers(run.users).value
              && r.value.nInitialStats == r.value.nInsertedStats == 5 * r.value.nUsers
              && (r.value.insertMethod == "copy" <==> run.useCopy)
              && (r.value.logging == "unlogged" <==> run.logging == "unlogged")
              && r.value.duration == s.end - s.start && r.value.runAt == s.runAt
  {
    match ParseNUsers(run.users)
    case Success(n) => Some(MakeResult(n, run.useCopy, SelectsUnlogged(run.logging), s))
    case Failure(_) => None
  }


  // ---------------------------------------------------------------------------
  // The schedule.

  /** The calls for one user count: for each logging selector in order, the copy
      strategy and then the insert strategy. */
  function PairRuns(users: string, selectors: seq<string>): (rs: seq<Run>)
    ensures |rs| == 2 * |selectors|
    ensures forall k :: 0 <= k < |rs| ==> rs[k].users == users && rs[k].logging in selectors
  {
    if |selectors| == 0 then []
    else
      var init := selectors[..|selectors| - 1];
      var last := selectors[|selectors| - 1];
      var rs := PairRuns(users, init) + [Run(users, true, last), Run(users, false, last)];
      assert forall k :: 0 <= k < |rs| - 2 ==> rs[k].logging in init;
      rs
  }

  /** The j-th selector's calls sit at places 2j (copy) and 2j + 1 (insert). */
  lemma {:induction false} PairRunsAt(users: string, selectors: seq<string>, j: nat)
    requires j < |selectors|
    ensures PairRuns(users, selectors)[2 * j] == Run(users, true, selectors[j])
    ensures PairRuns(users, selectors)[2 * j + 1] == Run(users, false, selectors[j])
  {
    var n := |selectors|;
    var init := selectors[..n - 1];
    if j < n - 1 {
      PairRunsAt(users, init, j);
    }
  }

  lemma MulStep(a: nat, b: nat)
    ensures (a + 1) * b == a * b + b
  {
  }

  lemma MulMono(a: nat, b: nat, c: nat)
    requires a <= b
    ensures a * c <= b * c
  {
  }

  /** The calls `main` makes: the product of user counts (outer) and logging
      selectors (inner), two calls per pair. */
  function Runs(userCounts: seq<string>, selectors: seq<string>): (rs: seq<Run>)
    ensures |rs| == 2 * (|userCounts| * |selectors|)
    ensures forall k :: 0 <= k < |rs| ==> rs[k].users in userCounts && rs[k].logging in selectors
  {
    if |userCounts| == 0 then []
    else
      var n := |userCounts|;
      var init := Runs(userCounts[..n - 1], selectors);
      var last := PairRuns(userCounts[n - 1], selectors);
      MulStep(n - 1, |selectors|);
      init + last
  }

  /** The calls for the first i + 1 user counts are those for the first i, then
      the i-th user count's pair of calls per selector. */
  lemma RunsStep(userCounts: seq<string>, selectors: seq<string>, i: nat)
    requires i < |userCounts|
    ensures Runs(userCounts[..i + 1], selectors) == Runs(userCounts[..i], selectors) + PairRuns(userCounts[i], selectors)
  {
    var u := userCounts[..i + 1];
    assert u[..|u| - 1] == userCounts[..i];
  }

  /** The calls for the first m user counts come first in the schedule. */
  lemma {:induction false} RunsPrefix(userCounts: seq<string>, selectors: seq<string>, m: nat)
    requires m <= |userCounts|
    ensures Runs(userCounts[..m], selectors) <= Runs(userCounts, selectors)
    decreases |userCounts|
  {
    if m == |userCounts| {
      assert userCounts[..m] == userCounts;
    } else {
      var init := userCounts[..|userCounts| - 1];
      RunsPrefix(init, selectors, m);
      assert init[..m] == userCounts[..m];
    }
  }

  /** Where each call sits in the schedule: the pair of the i-th user count and the
      j-th selector occupies two adjacent places, copy first. */
  lemma RunsAt(userCounts: seq<string>, selectors: seq<string>, i: nat, j: nat)
    requires i < |userCounts| && j < |selectors|
    ensures 2 * (i * |selectors| + j) + 1 < |Runs(userCounts, selectors)|
    ensures Runs(userCounts, selectors)[2 * (i * |selectors| + j)] == Run(userCounts[i], true, selectors[j])
    ensures Runs(userCounts, selectors)[2 * (i * |selectors| + j) + 1] == Run(userCounts[i], false, selectors[j])
  {
    var before, pairs := Runs(userCounts[..i], selectors), PairRuns(userCounts[i], selectors);
    RunsStep(userCounts, selectors, i);
    RunsPrefix(userCounts, selectors, i + 1);
    PairRunsAt(userCounts[i], selectors, j);
    var k := 2 * (i * |selectors| + j);
    assert k == |before| + 2 * j;
    assert (before + pairs)[k] == pairs[2 * j];
    assert (before + pairs)[k + 1] == pairs[2 * j + 1];
  }

  /** The smallest matrix: one user count and one selector make a copy call and
      an insert call, each recording ten users and fifty rows per phase. */
  lemma SingleCellExample(s: Sample)
    ensures Runs(["10"], ["logged"]) == [Run("10", true, "logged"), Run("10", false, "logged")]
    ensures ResultFor(Run("10", true, "logged"), s) == Some(BenchmarkResult("copy", "logged", 10, 50, 50, s.end - s.start, s.runAt))
    ensures ResultFor(Run("10", false, "logged"), s) == Some(BenchmarkResult("insert", "logged", 10, 50, 50, s.end - s.start, s.runAt))
  {
    RunsAt(["10"], ["logged"], 0, 0);
    PlainCountRoundTrip(10);
    assert Show(10) == "10";
  }

  /** The place of the j-th result of the c-th call when every call records `reps`. */
  function Slot(c: nat, j: nat, reps: nat): nat
  {
    c * reps + j
  }

  lemma SlotBefore(c: nat, j: nat, reps: nat, k: nat)
    requires c < k && j < reps
    ensures Slot(c, j, reps) < k * reps
  {
    MulStep(c, reps);
    MulMono(c + 1, k, reps);
  }

  // ---------------------------------------------------------------------------
  // Running.

  /** One replication of `run_benchmark`: the schema set-up for `n` users, the
      repetition, and the result it records, made of the run's labels, the user
      count and the clock readings of its timed phase. With a faithful format it
      always succeeds. */
  method Replicate(srv: Server, db: Db, n: int, useCopy: bool, unlogged: bool, sample: Sample)
    returns (outcome: Result<(Db, BenchmarkResult), string>)
    ensures outcome.Success? ==> outcome.value.1 == MakeResult(n, useCopy, unlogged, sample)
    ensures Faithful(srv.codec) ==> outcome.Success?
  {
    var rep := RunRepetition(srv, srv.setup(db, n), useCopy, unlogged);
    if rep.result.Failure? {
      return Failure(rep.result.error);
    }
    outcome := Success((rep.result.value, MakeResult(n, useCopy, unlogged, sample)));
  }

  /** The repetition loop of `run_benchmark` for a parsed user count: before each
      repetition the schema is set up afresh for `n` users; the k-th repetition
      records the run's labels, `5 n` initial and inserted rows, and the readings
      of the session's `first + k`-th timed phase. A failing repetition ends the
      loop with its error; with a faithful format none fails. */
  method Repeat(srv: Server, db: Db, clock: nat -> Sample, first: nat,
                n: int, useCopy: bool, unlogged: bool, nReps: int)
    returns (stored: seq<BenchmarkResult>, db': Db, err: Option<string>)
    ensures err.None? ==> |stored| == Reps(nReps)
    ensures err.Some? ==> |stored| < Reps(nReps)
    ensures forall k :: 0 <= k < |stored| ==> stored[k] == MakeResult(n, useCopy, unlogged, clock(first + k))
    ensures Faithful(srv.codec) ==> err.None?
  {
    stored, db', err := [], db, None;
    var i := 0;
    while i < Reps(nReps)
      invariant 0 <= i <= Reps(nReps)
      invariant |stored| == i
      invariant forall k :: 0 <= k < i ==> stored[k] == MakeResult(n, useCopy, unlogged, clock(first + k))
    {
      var outcome := Replicate(srv, db', n, useCopy, unlogged, clock(first + i));
      if outcome.Failure? {
        return stored, db', Some(outcome.error);
      }
      stored := stored + [outcome.value.1];
      db' := outcome.value.0;
      i := i + 1;
    }
  }

  /** `run_benchmark`: parses the user count (an unparsable one fails before any
      repetition) and reads the logging selector, then runs the repetitions. The
      k-th result recorded is the one the run's labels and parsed count give with
      the readings of the session's `first + k`-th timed phase; `n_reps`
      repetitions are recorded unless one fails, none when `n_reps <= 0`. With a
      faithful format and a parsable count nothing fails. */
  method RunBenchmark(srv: Server, db: Db, clock: nat -> Sample, first: nat, run: Run, nReps: int)
    returns (stored: seq<BenchmarkResult>, db': Db, err: Option<RunError>)
    ensures ParseNUsers(run.users).Failure? ==>
              stored == [] && err == Some(BadSpecifier(ParseNUsers(run.users).error))
    ensures err.None? ==> |stored| == Reps(nReps)
    ensures |stored| <= Reps(nReps)
    ensures err.Some? && err.value.TransferFailed? ==> |stored| < Reps(nReps)
    ensures forall k :: 0 <= k < |stored| ==> ResultFor(run, clock(first + k)) == Some(stored[k])
    ensures Faithful(srv.codec) && ParseNUsers(run.users).Success? ==> err.None?
  {
    var parsed := ParseNUsers(run.users);
    if parsed.Failure? {
      return [], db, Some(BadSpecifier(parsed.error));
    }
    var unlogged := SelectsUnlogged(run.logging);
    var failure;
    stored, db', failure := Repeat(srv, db, clock, first, parsed.value, run.useCopy, unlogged, nReps);
    err := if failure.Some? then Some(TransferFailed(failure.value)) else None;
  }

  lemma TakeOneMore<T>(s: seq<T>, k: nat)
    requires k < |s|
    ensures s[..k + 1] == s[..k] + [s[k]]
  {
  }

  /** The c-th call's results sit at places `c * reps .. c * reps + reps - 1` and
      are what that call records with the clock readings of their places. */
  predicate Recorded(calls: seq<Run>, stored: seq<BenchmarkResult>, reps: nat, clock: nat -> Sample)
  {
    forall c, j {:trigger Slot(c, j, reps)} ::
      0 <= c < |calls| && 0 <= j < reps && Slot(c, j, reps) < |stored| ==>
        ResultFor(calls[c], clock(Slot(c, j, reps))) == Some(stored[Slot(c, j, reps)])
  }

  /** Appending one call's results after the complete results of the earlier calls. */
  lemma RecordedExtend(calls: seq<Run>, stored: seq<BenchmarkResult>, reps: nat, clock: nat -> Sample,
                       first: nat, run: Run, results: seq<BenchmarkResult>)
    requires Recorded(calls, stored, reps, clock) && first == |stored| == |calls| * reps
    requires forall k :: 0 <= k < |results| ==> ResultFor(run, clock(first + k)) == Some(results[k])
    ensures Recorded(calls + [run], stored + results, reps, clock)
  {
    var calls', stored' := calls + [run], stored + results;
    forall c, j | 0 <= c < |calls'| && 0 <= j < reps && Slot(c, j, reps) < |stored'|
      ensures ResultFor(calls'[c], clock(Slot(c, j, reps))) == Some(stored'[Slot(c, j, reps)])
    {
      if c < |calls| {
        RecordedKept(calls, stored, reps, clock, run, results, c, j);
      } else {
        RecordedAdded(calls, stored, reps, clock, first, run, results, j);
      }
    }
  }

  /** The new call's results sit right after the earlier calls' ones. */
  lemma RecordedAdded(calls: seq<Run>, stored: seq<BenchmarkResult>, reps: nat, clock: nat -> Sample,
                      first: nat, run: Run, results: seq<BenchmarkResult>, j: nat)
    requires first == |stored| == |calls| * reps && first + j < |stored| + |results|
    requires forall k :: 0 <= k < |results| ==> ResultFor(run, clock(first + k)) == Some(results[k])
    ensures ResultFor((calls + [run])[|calls|], clock(Slot(|calls|, j, reps)))
            == Some((stored + results)[Slot(|calls|, j, reps)])
  {
    assert Slot(|calls|, j, reps) == first + j;
    assert (stored + results)[first + j] == results[j];
  }

  /** The results of an earlier call keep their places when another call's follow. */
  lemma RecordedKept(calls: seq<Run>, stored: seq<BenchmarkResult>, reps: nat, clock: nat -> Sample,
                     run: Run, results: seq<BenchmarkResult>, c: nat, j: nat)
    requires Recorded(calls, stored, reps, clock) && |stored| == |calls| * reps
    requires c < |calls| && j < reps
    ensures Slot(c, j, reps) < |stored|
    ensures ResultFor((calls + [run])[c], clock(Slot(c, j, reps))) == Some((stored + results)[Slot(c, j, reps)])
  {
    SlotBefore(c, j, reps, |calls|);
    assert (calls + [run])[c] == calls[c];
    assert (stored + results)[Slot(c, j, reps)] == stored[Slot(c, j, reps)];
  }

  /** One step of `main`: the k-th call of the schedule, after the first k calls
      have recorded all their results. Its results follow theirs; it records all
      `reps` of them unless it fails, and with a faithful format and a parsable
      user count it does not fail. */
  method RunNext(srv: Server, db: Db, clock: nat -> Sample, nReps: int, schedule: seq<Run>, k: nat,
                 calls: seq<Run>, stored: seq<BenchmarkResult>)
    returns (calls': seq<Run>, stored': seq<BenchmarkResult>, db': Db, err: Option<RunError>)
    requires k < |schedule| && calls == schedule[..k] && |stored| == |calls| * Reps(nReps)
    requires Recorded(calls, stored, Reps(nReps), clock)
    ensures calls' == schedule[..k + 1]
    ensures err.None? ==> |stored'| == |calls'| * Reps(nReps)
    ensures (|calls'| - 1) * Reps(nReps) <= |stored'| <= |calls'| * Reps(nReps)
    ensures Recorded(calls', stored', Reps(nReps), clock)
    ensures Faithful(srv.codec) && ParseNUsers(schedule[k].users).Success? ==> err.None?
  {
    var reps := Reps(nReps);
    var run := schedule[k];
    var results;
    results, db', err := RunBenchmark(srv, db, clock, |stored|, run, nReps);
    RecordedExtend(calls, stored, reps, clock, |stored|, run, results);
    TakeOneMore(schedule, k);
    calls', stored' := calls + [run], stored + results;
    OneMoreCall(|calls|, |calls'|, reps, |stored|, |results|);
  }

  /** The table length after one more call has recorded at most `reps` results. */
  lemma OneMoreCall(before: nat, after: nat, reps: nat, done: nat, added: nat)
    requires after == before + 1 && done == before * reps && added <= reps
    ensures (after - 1) * reps <= done + added <= after * reps
    ensures added == reps ==> done + added == after * reps
  {
    MulStep(before, reps);
  }

  /** `main`: runs the schedule in order until a run fails. The calls made are a
      prefix of the schedule, all of it when nothing failed; the c-th call's
      results occupy places `c * R .. c * R + R - 1` of the results table (R the
      repetition count) and carry that call's labels; without failure every call
      records all R of them, so the table holds the schedule's
      |user counts| x |selectors| x 2 calls times R results. With a faithful
      format and parsable user counts nothing fails. */
  method RunMatrix(srv: Server, db: Db, clock: nat -> Sample, nReps: int,
                   userCounts: seq<string>, selectors: seq<string>)
    returns (calls: seq<Run>, stored: seq<BenchmarkResult>, err: Option<RunError>)
    ensures calls <= Runs(userCounts, selectors)
    ensures err.None? ==> calls == Runs(userCounts, selectors)
    ensures err.None? ==> |stored| == |calls| * Reps(nReps)
    ensures err.Some? ==> |calls| > 0 && (|calls| - 1) * Reps(nReps) <= |stored|
    ensures |stored| <= |calls| * Reps(nReps)
    ensures Recorded(calls, stored, Reps(nReps), clock)
    ensures Faithful(srv.codec) && (forall u :: u in userCounts ==> ParseNUsers(u).Success?) ==> err.None?
  {
    var schedule := Runs(userCounts, selectors);
    var state := db;
    calls, stored, err := [], [], None;
    var k := 0;
    while k < |schedule|
      invariant 0 <= k <= |schedule|
      invariant calls == schedule[..k]
      invariant |stored| == |calls| * Reps(nReps)
      invariant Recorded(calls, stored, Reps(nReps), clock)
      invariant err.None?
    {
      assert schedule[k].users in userCounts;
      calls, stored, state, err := RunNext(srv, state, clock, nReps, schedule, k, calls, stored);
      if err.Some? {
        return;
      }
      k := k + 1;
    }
    assert calls == schedule;
  }
}
