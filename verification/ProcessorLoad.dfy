/**
 * The load of one processor: its line goroutines over all jobs, those inside the inference call,
 * those that own a semaphore token, and all that have not called wg.Done yet.
 */
module ProcessorLoad {
  import opened Types
  import opened PollingLoop
  import ProcessJob
  import ProcessJobTheorems

  /** How many lines of all jobs together are in the group. */
  function Load(jobs: seq<Job>, g: ProcessJob.Group): nat {
    if jobs == [] then 0
    else Load(jobs[..|jobs| - 1], g) + ProcessJob.Count(jobs[|jobs| - 1].run.lines, g)
  }

  lemma {:induction false} LoadUpdate(jobs: seq<Job>, j: nat, job: Job, g: ProcessJob.Group)
    requires j < |jobs|
    ensures Load(jobs[j := job], g)
            == Load(jobs, g) - ProcessJob.Count(jobs[j].run.lines, g) + ProcessJob.Count(job.run.lines, g)
  {
    var last := |jobs| - 1;
    if j == last {
      assert jobs[j := job][..last] == jobs[..last];
    } else {
      assert jobs[j := job][..last] == jobs[..last][j := job];
      LoadUpdate(jobs[..last], j, job, g);
    }
  }

  lemma {:induction false} LoadSame(jobs: seq<Job>, others: seq<Job>, g: ProcessJob.Group)
    requires |jobs| == |others| && forall j :: 0 <= j < |jobs| ==> jobs[j].run.lines == others[j].run.lines
    ensures Load(jobs, g) == Load(others, g)
  {
    if jobs != [] {
      LoadSame(jobs[..|jobs| - 1], others[..|jobs| - 1], g);
    }
  }

  lemma {:induction false} CallsWithinTokens(jobs: seq<Job>)
    ensures Load(jobs, ProcessJob.Calling) <= Load(jobs, ProcessJob.HoldingToken)
  {
    if jobs != [] {
      CallsWithinTokens(jobs[..|jobs| - 1]);
      ProcessJob.CountMono(jobs[|jobs| - 1].run.lines, ProcessJob.Calling, ProcessJob.HoldingToken);
    }
  }

  // ---------- Token owners, with a live context ----------

  /** Without cancellation a job that is over has no line goroutine left. */
  lemma OverMeansEmpty(run: ProcessJob.State)
    requires ProcessJob.Inv(run) && run.main.IsOver() && !run.cancelled
    ensures ProcessJob.Count(run.lines, ProcessJob.HoldingToken) == 0
  {
    ProcessJob.CountZero(run.lines, ProcessJob.HoldingToken);
    forall i | 0 <= i < |run.lines| ensures !ProcessJob.Is(ProcessJob.HoldingToken, run.lines[i]) {
      assert ProcessJob.LineOk(run, i);
    }
  }

  lemma OneMore(n: nat, k: nat)
    ensures (n + 1) * k == n * k + k
  {
  }

  lemma {:induction false} TokensWithinHolders(s: State, n: nat)
    requires JobsOk(s) && !s.cancelled && n <= |s.jobs|
    ensures Load(s.jobs[..n], ProcessJob.HoldingToken) <= JobsHolding(s.jobs[..n]) * s.limit
  {
    if n > 0 {
      var last := s.jobs[n - 1];
      TokensWithinHolders(s, n - 1);
      assert s.jobs[..n][..n - 1] == s.jobs[..n - 1];
      assert JobOk(s, n - 1);
      if !last.pc.Working? {
        OverMeansEmpty(last.run);
      }
      OneMore(JobsHolding(s.jobs[..n - 1]), s.limit);
    }
  }

  lemma Monotone(a: nat, b: nat, k: nat)
    requires a <= b
    ensures a * k <= b * k
  {
  }

  lemma TokensWithinBound(s: State)
    requires Inv(s) && !s.cancelled
    ensures Load(s.jobs, ProcessJob.HoldingToken) <= s.pool.capacity * s.limit
  {
    assert s.jobs[..|s.jobs|] == s.jobs;
    TokensWithinHolders(s, |s.jobs|);
    Monotone(JobsHolding(s.jobs), s.pool.capacity, s.limit);
  }

  /**
   * As long as the context is not cancelled, the line goroutines that own a semaphore token, over
   * all jobs of the processor, are at most NumWorkers times MaxJobConcurrency.
   */
  lemma LoadBound(workers: nat, limit: nat, s: State)
    requires Reachable(workers, limit, s) && !s.cancelled
    ensures Load(s.jobs, ProcessJob.HoldingToken) <= workers * limit
  {
    ReachableInv(workers, limit, s);
    TokensWithinBound(s);
  }

  // ---------- Inference calls, at any time ----------

  /** Once the context is done no line goroutine enters the inference call. */
  lemma NoNewLineCall(run: ProcessJob.State, i: nat, ok: bool)
    requires ProcessJob.LineEnabled(run, i) && run.cancelled
    ensures ProcessJob.Count(ProcessJob.ApplyLine(run, i, ok).lines, ProcessJob.Calling)
            <= ProcessJob.Count(run.lines, ProcessJob.Calling)
  {
    var next := ProcessJob.ApplyLine(run, i, ok);
    ProcessJob.CountUpdate(run.lines, i, next.lines[i], ProcessJob.Calling);
  }

  /** Handing a line over, dropping it or starting its goroutine is not a call either. */
  lemma HandOverIsNoCall(run: ProcessJob.State, step: ProcessJob.Step)
    requires ProcessJob.LinesInv(run) && ProcessJob.Enabled(run, step)
    requires step.TakeLine? || step.Abort? || step.Spawn?
    ensures ProcessJob.Count(ProcessJob.Apply(run, step).lines, ProcessJob.Calling)
            <= ProcessJob.Count(run.lines, ProcessJob.Calling)
  {
    var i := if step.TakeLine? then run.sent else run.main.line;
    ProcessJob.CountUpdate(run.lines, i, ProcessJob.Apply(run, step).lines[i], ProcessJob.Calling);
  }

  lemma NoNewCall(run: ProcessJob.State, step: ProcessJob.Step)
    requires ProcessJob.LinesInv(run) && ProcessJob.Enabled(run, step) && run.cancelled
    ensures ProcessJob.Count(ProcessJob.Apply(run, step).lines, ProcessJob.Calling)
            <= ProcessJob.Count(run.lines, ProcessJob.Calling)
  {
    match step {
      case Line(i, ok) => NoNewLineCall(run, i, ok);
      case TakeLine => HandOverIsNoCall(run, step);
      case Abort => HandOverIsNoCall(run, step);
      case Spawn => HandOverIsNoCall(run, step);
      case _ =>
    }
  }

  /** A job that moves under a finished context does not add to the calls. */
  lemma JobMoveKeepsCalls(s: State, j: nat, step: ProcessJob.Step)
    requires Inv(s) && Enabled(s, JobMoves(j, step)) && s.cancelled
    ensures Load(Apply(s, JobMoves(j, step)).jobs, ProcessJob.Calling) <= Load(s.jobs, ProcessJob.Calling)
  {
    assert JobOk(s, j);
    NoNewCall(s.jobs[j].run, step);
    LoadUpdate(s.jobs, j, Apply(s, JobMoves(j, step)).jobs[j], ProcessJob.Calling);
  }

  /** A fresh job has no calls. */
  lemma FetchKeepsCalls(s: State, ok: bool, total: nat)
    requires Enabled(s, Fetch(ok, total))
    ensures Load(Apply(s, Fetch(ok, total)).jobs, ProcessJob.Calling) == Load(s.jobs, ProcessJob.Calling)
  {
    if ok {
      var t := Apply(s, Fetch(ok, total));
      assert t.jobs[..|s.jobs|] == s.jobs;
      ProcessJob.CountZero(t.jobs[|s.jobs|].run.lines, ProcessJob.Calling);
    }
  }

  lemma CallsKept(s: State, l: Label)
    requires Inv(s) && Enabled(s, l) && (s.cancelled || l.CancelContext?)
    ensures Load(Apply(s, l).jobs, ProcessJob.Calling) <= Load(s.jobs, ProcessJob.Calling)
  {
    if l.JobMoves? {
      JobMoveKeepsCalls(s, l.j, l.step);
    } else if l.Fetch? {
      FetchKeepsCalls(s, l.ok, l.total);
    } else {
      LoadSame(s.jobs, Apply(s, l).jobs, ProcessJob.Calling);
    }
  }

  lemma {:induction false} RunCalls(s: State, ls: seq<Label>)
    requires Inv(s) && ValidRun(s, ls)
    requires Load(s.jobs, ProcessJob.Calling) <= s.pool.capacity * s.limit
    ensures Load(Exec(s, ls).jobs, ProcessJob.Calling) <= s.pool.capacity * s.limit
    decreases |ls|
  {
    if ls != [] {
      var t := Apply(s, ls[0]);
      StepInv(s, ls[0]);
      if t.cancelled {
        CallsKept(s, ls[0]);
      } else {
        TokensWithinBound(t);
        CallsWithinTokens(t.jobs);
      }
      RunCalls(t, ls[1..]);
    }
  }

  /**
   * In every reachable state, before and after the end of the context, the inference calls in
   * progress over all jobs of the processor are at most NumWorkers times MaxJobConcurrency.
   */
  lemma CallsBound(workers: nat, limit: nat, s: State)
    requires Reachable(workers, limit, s)
    ensures Load(s.jobs, ProcessJob.Calling) <= workers * limit
  {
    var ls :| ValidRun(Init(workers, limit), ls) && Exec(Init(workers, limit), ls) == s;
    InitInv(workers, limit);
    RunCalls(Init(workers, limit), ls);
  }

  // ---------- Token owners, after the end of the context ----------

  /** After the cancellation a job may return although one of its line goroutines has just started. */
  function LeavesOneBehind(limit: nat): ProcessJob.State {
    ProcessJob.State(limit, [ProcessJob.Check, ProcessJob.Abandoned], 2, true, false, ProcessJob.Aborted,
                     1, 1, None, 0, 0, true, [InProgress, Validating])
  }

  /** The job's goroutine for line 0 is started; line 1 is still with the producer. */
  function FirstStarted(limit: nat): ProcessJob.State {
    ProcessJob.State(limit, [ProcessJob.Check, ProcessJob.Unsent], 1, true, false, ProcessJob.Receive,
                     1, 1, None, 0, 0, true, [InProgress, Validating])
  }

  lemma JobStartsFirst(workers: nat, limit: nat, s: State, j: nat)
    requires Reachable(workers, limit, s) && j < |s.jobs| && 1 <= limit
    requires s.jobs[j].run == ProcessJob.Init(limit, 2).(cancelled := true)
    ensures Reachable(workers, limit, WithRun(s, j, FirstStarted(limit)))
  {
    var t := JobGoes(workers, limit, s, j, ProcessJob.SetStatus);
    t := JobGoes(workers, limit, t, j, ProcessJob.SetStatus);
    t := JobGoes(workers, limit, t, j, ProcessJob.TakeLine);
    t := JobGoes(workers, limit, t, j, ProcessJob.TakeToken);
    t := JobGoes(workers, limit, t, j, ProcessJob.Spawn);
    assert t.jobs[j].run.lines == FirstStarted(limit).lines;
    assert t.jobs[j].run == FirstStarted(limit);
    assert t.jobs == WithRun(s, j, FirstStarted(limit)).jobs;
  }

  lemma JobLeavesOneBehind(workers: nat, limit: nat, s: State, j: nat)
    requires Reachable(workers, limit, s) && j < |s.jobs| && 1 <= limit
    requires s.jobs[j].run == ProcessJob.Init(limit, 2).(cancelled := true)
    ensures Reachable(workers, limit, WithRun(s, j, LeavesOneBehind(limit)))
  {
    JobStartsFirst(workers, limit, s, j);
    var t := JobGoes(workers, limit, WithRun(s, j, FirstStarted(limit)), j, ProcessJob.TakeLine);
    t := JobGoes(workers, limit, t, j, ProcessJob.Abort);
    assert t.jobs[j].run.lines == LeavesOneBehind(limit).lines;
    assert t.jobs == WithRun(s, j, LeavesOneBehind(limit)).jobs;
  }

  /** With the context cancelled, one more job is started and leaves one more goroutine behind. */
  lemma OneMoreLeftBehind(workers: nat, limit: nat, s: State) returns (t: State)
    requires Reachable(workers, limit, s) && 1 <= limit
    requires s.cancelled && s.loop.Selecting? && s.pool.ids != [] && s.pool.wg == 0
    ensures Reachable(workers, limit, t)
    ensures t.cancelled && t.loop.Selecting? && t.pool.ids != [] && t.pool.wg == 0
    ensures Load(t.jobs, ProcessJob.HoldingToken) == Load(s.jobs, ProcessJob.HoldingToken) + 1
  {
    ReachableInv(workers, limit, s);
    var j := |s.jobs|;
    t := Go(workers, limit, s, Receive);
    t := Go(workers, limit, t, Dequeue(true));
    t := Go(workers, limit, t, Fetch(true, 2));
    JobLeavesOneBehind(workers, limit, t, j);
    t := WithRun(t, j, LeavesOneBehind(limit));
    t := Go(workers, limit, t, JobEnds(j));
    WorkerIdsConserved(workers, limit, t);
    t := Go(workers, limit, t, JobSend(j));
    assert t.jobs[..j] == s.jobs && t.jobs[j].run == LeavesOneBehind(limit);
    var lines := LeavesOneBehind(limit).lines;
    assert lines[..1] == [ProcessJob.Check] && lines[..1][..0] == [];
    assert ProcessJob.Count(lines[..1], ProcessJob.HoldingToken) == 1;
  }

  lemma {:induction false} LoadGrows(workers: nat, limit: nat, k: nat) returns (s: State)
    requires 1 <= workers && 1 <= limit
    ensures Reachable(workers, limit, s)
    ensures s.cancelled && s.loop.Selecting? && s.pool.ids != [] && s.pool.wg == 0
    ensures Load(s.jobs, ProcessJob.HoldingToken) == k
  {
    if k == 0 {
      s := Init(workers, limit);
      assert ValidRun(s, []) && Exec(s, []) == s;
      s := Go(workers, limit, s, CancelContext);
    } else {
      s := LoadGrows(workers, limit, k - 1);
      s := OneMoreLeftBehind(workers, limit, s);
    }
  }

  ghost predicate LoadAlwaysWithin(workers: nat, limit: nat) {
    forall s :: Reachable(workers, limit, s) ==> Load(s.jobs, ProcessJob.HoldingToken) <= workers * limit
  }

  lemma {:induction false} NoTokensNoLoad(s: State, n: nat)
    requires JobsOk(s) && s.limit == 0 && n <= |s.jobs|
    ensures Load(s.jobs[..n], ProcessJob.HoldingToken) == 0
  {
    if n > 0 {
      NoTokensNoLoad(s, n - 1);
      assert s.jobs[..n][..n - 1] == s.jobs[..n - 1];
      assert JobOk(s, n - 1);
    }
  }

  lemma {:induction false} NoWorkersNoJobs(s: State, ls: seq<Label>)
    requires s.pool.capacity == 0 && s.jobs == [] && s.pool.ids == [] && (s.loop.Selecting? || s.loop.Exited?)
    requires ValidRun(s, ls)
    ensures Exec(s, ls).jobs == []
    decreases |ls|
  {
    if ls != [] {
      NoWorkersNoJobs(Apply(s, ls[0]), ls[1..]);
    }
  }

  /**
   * For token owners the context matters: counting also the states after its cancellation, NumWorkers
   * times MaxJobConcurrency bounds them exactly when one of the two is zero. Otherwise jobs that
   * return on the cancelled context leave line goroutines behind, which own a token until they
   * have looked at the context, while the loop, free to take either branch of its select, goes on
   * dispatching.
   */
  lemma LoadBoundAfterCancelIff(workers: nat, limit: nat)
    ensures LoadAlwaysWithin(workers, limit) <==> workers == 0 || limit == 0
  {
    if workers > 0 && limit > 0 {
      var s := LoadGrows(workers, limit, workers * limit + 1);
    } else {
      forall s | Reachable(workers, limit, s) ensures Load(s.jobs, ProcessJob.HoldingToken) <= workers * limit {
        ReachableInv(workers, limit, s);
        if limit == 0 {
          assert s.jobs[..|s.jobs|] == s.jobs;
          NoTokensNoLoad(s, |s.jobs|);
        } else {
          var ls :| ValidRun(Init(workers, limit), ls) && Exec(Init(workers, limit), ls) == s;
          NoWorkersNoJobs(Init(workers, limit), ls);
        }
      }
    }
  }

  // ---------- All line goroutines, with a live context ----------

  /** `processJob` alone, without a cancellation, is a run of the processor. */
  lemma {:induction false} JobRuns(workers: nat, limit: nat, s: State, j: nat, steps: seq<ProcessJob.Step>)
    requires Reachable(workers, limit, s) && j < |s.jobs|
    requires ProcessJob.ValidRun(s.jobs[j].run, steps) && ProcessJob.Cancel !in steps
    ensures Reachable(workers, limit, WithRun(s, j, ProcessJob.Exec(s.jobs[j].run, steps)))
    decreases |steps|
  {
    var run := s.jobs[j].run;
    if steps == [] {
      assert WithRun(s, j, run).jobs == s.jobs;
    } else {
      assert steps[0] in steps && forall step :: step in steps[1..] ==> step in steps;
      var t := JobGoes(workers, limit, s, j, steps[0]);
      JobRuns(workers, limit, t, j, steps[1..]);
      var end := ProcessJob.Exec(run, steps);
      assert WithRun(t, j, end).jobs == WithRun(s, j, end).jobs;
    }
  }

  lemma {:induction false} LiveRunHasNoCancel(run: ProcessJob.State, steps: seq<ProcessJob.Step>)
    requires ProcessJob.ValidRun(run, steps)
    ensures run.cancelled ==> ProcessJob.Exec(run, steps).cancelled
    ensures !ProcessJob.Exec(run, steps).cancelled ==> ProcessJob.Cancel !in steps
    decreases |steps|
  {
    if steps != [] {
      LiveRunHasNoCancel(ProcessJob.Apply(run, steps[0]), steps[1..]);
      assert steps == [steps[0]] + steps[1..];
    }
  }

  /** A job of the processor can reach whatever `processJob` reaches with a live context. */
  lemma JobReaches(workers: nat, limit: nat, s: State, j: nat, total: nat, run: ProcessJob.State)
    requires Reachable(workers, limit, s) && j < |s.jobs| && s.jobs[j].run == ProcessJob.Init(limit, total)
    requires ProcessJob.Reachable(limit, total, run) && !run.cancelled
    ensures Reachable(workers, limit, WithRun(s, j, run))
  {
    var init := ProcessJob.Init(limit, total);
    var steps :| ProcessJob.ValidRun(init, steps) && ProcessJob.Exec(init, steps) == run;
    LiveRunHasNoCancel(init, steps);
    JobRuns(workers, limit, s, j, steps);
  }

  predicate NoneLaunched(s: State) {
    s.limit == 0 && forall j :: 0 <= j < |s.jobs| ==> ProcessJobTheorems.NoLaunch(s.jobs[j].run)
  }

  lemma {:induction false} NoneLaunchedRun(s: State, ls: seq<Label>)
    requires NoneLaunched(s) && ValidRun(s, ls)
    ensures NoneLaunched(Exec(s, ls))
    decreases |ls|
  {
    if ls != [] {
      NoneLaunchedStep(s, ls[0]);
      NoneLaunchedRun(Apply(s, ls[0]), ls[1..]);
    }
  }

  lemma NoneLaunchedStep(s: State, l: Label)
    requires NoneLaunched(s) && Enabled(s, l)
    ensures NoneLaunched(Apply(s, l))
  {
    if l.JobMoves? {
      var run := s.jobs[l.j].run;
      assert ProcessJobTheorems.NoLaunch(run);
      assert ProcessJobTheorems.NoLaunch(ProcessJob.Apply(run, l.step));
    }
  }

  lemma {:induction false} NoneLaunchedNoneAlive(jobs: seq<Job>)
    requires forall j :: 0 <= j < |jobs| ==> ProcessJobTheorems.NoLaunch(jobs[j].run)
    ensures Load(jobs, ProcessJob.Alive) == 0
  {
    if jobs != [] {
      NoneLaunchedNoneAlive(jobs[..|jobs| - 1]);
      ProcessJob.CountZero(jobs[|jobs| - 1].run.lines, ProcessJob.Alive);
    }
  }

  /** One job all of whose lines are counted while their goroutines still have wg.Done to call. */
  lemma ManyEnding(workers: nat, limit: nat, total: nat) returns (s: State)
    requires 1 <= workers && 1 <= limit
    ensures Reachable(workers, limit, s) && !s.cancelled && Load(s.jobs, ProcessJob.Alive) == total
  {
    var run := ProcessJobTheorems.EndedLines(limit, total, total);
    s := Init(workers, limit);
    assert ValidRun(s, []) && Exec(s, []) == s;
    s := Go(workers, limit, s, Receive);
    s := Go(workers, limit, s, Dequeue(true));
    s := Go(workers, limit, s, Fetch(true, total));
    ProcessJobTheorems.EndedLinesReachable(limit, total, total);
    JobReaches(workers, limit, s, 0, total, run);
    s := WithRun(s, 0, run);
    ProcessJobTheorems.CountEnded(limit, total, total);
    assert s.jobs[..0] == [];
  }

  ghost predicate LiveAliveAlwaysWithin(workers: nat, limit: nat) {
    forall s :: Reachable(workers, limit, s) && !s.cancelled ==> Load(s.jobs, ProcessJob.Alive) <= workers * limit
  }

  /**
   * Counting every line goroutine that has not called wg.Done, the same bound fails even with a
   * live context, unless nothing can ever start: token owners are bounded, goroutines that have
   * returned their token are not.
   */
  lemma AliveLoadWithinIff(workers: nat, limit: nat)
    ensures LiveAliveAlwaysWithin(workers, limit) <==> workers == 0 || limit == 0
  {
    if workers > 0 && limit > 0 {
      var s := ManyEnding(workers, limit, workers * limit + 1);
    } else {
      forall s | Reachable(workers, limit, s) ensures Load(s.jobs, ProcessJob.Alive) == 0 {
        var ls :| ValidRun(Init(workers, limit), ls) && Exec(Init(workers, limit), ls) == s;
        if limit == 0 {
          NoneLaunchedRun(Init(workers, limit), ls);
          NoneLaunchedNoneAlive(s.jobs);
        } else {
          NoWorkersNoJobs(Init(workers, limit), ls);
        }
      }
    }
  }
}
