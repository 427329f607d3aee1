/**
  The labels a recorded result carries, read the other way round: from the
  `insert` and `logged` labels back to the run's strategy and selector.
 */
module RunLabels {
  import opened UserCount
  import opened Results
  import opened Schedule

  /** The other halves of the labels: a recorded result is an `insert` exactly
      for the insert strategy, and `logged` for every selector but "unlogged". */
  lemma ResultForOtherLabels(run: Run, s: Sample)
    requires ParseNUsers(run.users).Success?
    ensures ResultFor(run, s).value.insertMethod == "insert" <==> !run.useCopy
    ensures ResultFor(run, s).value.logging == "logged" <==> run.logging != "unlogged"
  {
    var n := ParseNUsers(run.users).value;
    LabelsIdentifyRun(n, run.useCopy, SelectsUnlogged(run.logging), s, n, false, false, s);
  }
}
