/**
 * One processor: the polling loop, the pool of worker IDs it receives from, and the job
 * goroutines it starts, each running `processJob`. The context may be cancelled at any moment.
 *
 * The loop takes worker IDs straight from the pool's channel, without the wg.Add(1) of
 * `TryAcquire`, while every `Release` sends the ID back and then calls wg.Done. A wg.Done that
 * takes the counter below zero panics and ends the process; the runs of the model go on past
 * that point, so whatever holds of all of them holds of every real run, which is a prefix.
 */
module PollingLoop {
  import opened Types
  import ProcessJob
  import Pool

  datatype LoopPc =
    | Selecting                        // waiting for a worker ID or the end of the context
    | Dequeuing(wid: int)
    | Fetching(wid: int)
    | Sending(wid: int, idle: bool)    // Release: about to send the ID back
    | Signalling(idle: bool)           // Release: about to call wg.Done
    | Sleeping
    | Exited

  /** A job goroutine; its deferred Release runs when `processJob` is over, panic or not. */
  datatype JobPc = Working(wid: int) | Returning(wid: int) | Closing | Over

  datatype Job = Job(pc: JobPc, run: ProcessJob.State)

  datatype State = State(
    pool: Pool.State,    // its capacity is NumWorkers
    limit: nat,          // MaxJobConcurrency
    loop: LoopPc,
    jobs: seq<Job>,      // every job goroutine ever started
    cancelled: bool)

  function Init(workers: nat, limit: nat): State {
    State(Pool.State(workers, Pool.IdsUpTo(workers), 0), limit, Selecting, [], false)
  }

  datatype Label =
    | Receive
    | Exit
    | Dequeue(found: bool)
    | Fetch(ok: bool, total: nat)
    | LoopSend
    | LoopDone
    | Wake
    | JobMoves(j: nat, step: ProcessJob.Step)
    | JobEnds(j: nat)
    | JobSend(j: nat)
    | JobDone(j: nat)
    | CancelContext

  predicate Enabled(s: State, l: Label) {
    match l
    case Receive => s.loop.Selecting? && s.pool.ids != []
    case Exit => s.cancelled && (s.loop.Selecting? || s.loop.Sleeping?)
    case Dequeue(_) => s.loop.Dequeuing?
    case Fetch(_, _) => s.loop.Fetching?
    case LoopSend => s.loop.Sending? && Pool.HasRoom(s.pool)
    case LoopDone => s.loop.Signalling?
    case Wake => s.loop.Sleeping?
    case JobMoves(j, step) => j < |s.jobs| && !step.Cancel? && ProcessJob.Enabled(s.jobs[j].run, step)
    case JobEnds(j) => j < |s.jobs| && s.jobs[j].pc.Working? && s.jobs[j].run.main.IsOver()
    case JobSend(j) => j < |s.jobs| && s.jobs[j].pc.Returning? && Pool.HasRoom(s.pool)
    case JobDone(j) => j < |s.jobs| && s.jobs[j].pc.Closing?
    case CancelContext => !s.cancelled
  }

  /** Every goroutine of every job sees the same context. */
  function CancelJob(job: Job): Job {
    job.(run := job.run.(cancelled := true))
  }

  function Apply(s: State, l: Label): State
    requires Enabled(s, l)
  {
    match l
    case Receive => s.(loop := Dequeuing(s.pool.ids[0]), pool := Pool.Received(s.pool))
    case Exit => s.(loop := Exited)
    case Dequeue(found) => s.(loop := if found then Fetching(s.loop.wid) else Sending(s.loop.wid, true))
    case Fetch(ok, total) =>
      if ok then
        s.(loop := Selecting,
           jobs := s.jobs + [Job(Working(s.loop.wid),
                                 ProcessJob.Init(s.limit, total).(cancelled := s.cancelled))])
      else s.(loop := Sending(s.loop.wid, false))
    case LoopSend => s.(loop := Signalling(s.loop.idle), pool := Pool.Sent(s.pool, s.loop.wid))
    case LoopDone => s.(loop := if s.loop.idle then Sleeping else Selecting, pool := Pool.Signalled(s.pool))
    case Wake => s.(loop := Selecting)
    case JobMoves(j, step) =>
      s.(jobs := s.jobs[j := s.jobs[j].(run := ProcessJob.Apply(s.jobs[j].run, step))])
    case JobEnds(j) => s.(jobs := s.jobs[j := s.jobs[j].(pc := Returning(s.jobs[j].pc.wid))])
    case JobSend(j) =>
      s.(jobs := s.jobs[j := s.jobs[j].(pc := Closing)], pool := Pool.Sent(s.pool, s.jobs[j].pc.wid))
    case JobDone(j) => s.(jobs := s.jobs[j := s.jobs[j].(pc := Over)], pool := Pool.Signalled(s.pool))
    case CancelContext =>
      s.(cancelled := true, jobs := seq(|s.jobs|, i requires 0 <= i < |s.jobs| => CancelJob(s.jobs[i])))
  }

  ghost predicate ValidRun(s: State, ls: seq<Label>)
    decreases |ls|
  {
    ls == [] || (Enabled(s, ls[0]) && ValidRun(Apply(s, ls[0]), ls[1..]))
  }

  ghost function Exec(s: State, ls: seq<Label>): State
    requires ValidRun(s, ls)
    decreases |ls|
  {
    if ls == [] then s else Exec(Apply(s, ls[0]), ls[1..])
  }

  ghost predicate Reachable(workers: nat, limit: nat, s: State) {
    exists ls :: ValidRun(Init(workers, limit), ls) && Exec(Init(workers, limit), ls) == s
  }

  // ---------- Who has which worker ID ----------

  predicate HoldsId(pc: JobPc) {
    pc.Working? || pc.Returning?
  }

  predicate HasId(pc: JobPc, id: int) {
    HoldsId(pc) && pc.wid == id
  }

  predicate LoopHoldsId(loop: LoopPc) {
    loop.Dequeuing? || loop.Fetching? || loop.Sending?
  }

  predicate LoopHasId(loop: LoopPc, id: int) {
    LoopHoldsId(loop) && loop.wid == id
  }

  function One(b: bool): nat {
    if b then 1 else 0
  }

  /** How many job goroutines hold the worker ID, and how many hold any. */
  function JobsWith(jobs: seq<Job>, id: int): nat {
    if jobs == [] then 0 else JobsWith(jobs[..|jobs| - 1], id) + One(HasId(jobs[|jobs| - 1].pc, id))
  }

  function JobsHolding(jobs: seq<Job>): nat {
    if jobs == [] then 0 else JobsHolding(jobs[..|jobs| - 1]) + One(HoldsId(jobs[|jobs| - 1].pc))
  }

  /** Worker ID `id` is in the channel, with the loop, or with a job goroutine: once if it exists. */
  predicate IdOk(s: State, id: int) {
    multiset(s.pool.ids)[id] + One(LoopHasId(s.loop, id)) + JobsWith(s.jobs, id) == One(1 <= id <= s.pool.capacity)
  }

  ghost predicate IdsOk(s: State) {
    && (forall id {:trigger IdOk(s, id)} :: IdOk(s, id))
    && SizeOk(s)
  }

  lemma {:induction false} JobsUpdate(jobs: seq<Job>, j: nat, job: Job, id: int)
    requires j < |jobs|
    ensures JobsWith(jobs[j := job], id) == JobsWith(jobs, id) - One(HasId(jobs[j].pc, id)) + One(HasId(job.pc, id))
    ensures JobsHolding(jobs[j := job]) == JobsHolding(jobs) - One(HoldsId(jobs[j].pc)) + One(HoldsId(job.pc))
  {
    var last := |jobs| - 1;
    if j == last {
      assert jobs[j := job][..last] == jobs[..last];
    } else {
      assert jobs[j := job][..last] == jobs[..last][j := job];
      JobsUpdate(jobs[..last], j, job, id);
    }
  }

  lemma {:induction false} JobsSame(jobs: seq<Job>, others: seq<Job>, id: int)
    requires |jobs| == |others| && forall j :: 0 <= j < |jobs| ==> jobs[j].pc == others[j].pc
    ensures JobsWith(jobs, id) == JobsWith(others, id) && JobsHolding(jobs) == JobsHolding(others)
  {
    if jobs != [] {
      JobsSame(jobs[..|jobs| - 1], others[..|jobs| - 1], id);
    }
  }

  predicate SizeOk(s: State) {
    |s.pool.ids| + One(LoopHoldsId(s.loop)) + JobsHolding(s.jobs) == s.pool.capacity
  }

  lemma ReceiveIdOk(s: State, id: int)
    requires Enabled(s, Receive) && IdOk(s, id) && SizeOk(s)
    ensures IdOk(Apply(s, Receive), id) && SizeOk(Apply(s, Receive))
  {
    assert s.pool.ids == [s.pool.ids[0]] + Apply(s, Receive).pool.ids;
  }

  lemma FetchIdOk(s: State, ok: bool, total: nat, id: int)
    requires Enabled(s, Fetch(ok, total)) && IdOk(s, id) && SizeOk(s)
    ensures IdOk(Apply(s, Fetch(ok, total)), id) && SizeOk(Apply(s, Fetch(ok, total)))
  {
    if ok { assert Apply(s, Fetch(ok, total)).jobs[..|s.jobs|] == s.jobs; }
  }

  lemma LoopStepIdOk(s: State, l: Label, id: int)
    requires Enabled(s, l) && IdOk(s, id) && SizeOk(s)
    requires !l.JobMoves? && !l.JobEnds? && !l.JobSend? && !l.JobDone? && !l.CancelContext?
    ensures IdOk(Apply(s, l), id) && SizeOk(Apply(s, l))
  {
    match l {
      case Receive => ReceiveIdOk(s, id);
      case Fetch(ok, total) => FetchIdOk(s, ok, total, id);
      case _ =>
    }
  }

  lemma JobStepIdOk(s: State, l: Label, id: int)
    requires Enabled(s, l) && IdOk(s, id) && SizeOk(s)
    requires l.JobMoves? || l.JobEnds? || l.JobSend? || l.JobDone?
    ensures IdOk(Apply(s, l), id) && SizeOk(Apply(s, l))
  {
    JobsUpdate(s.jobs, l.j, Apply(s, l).jobs[l.j], id);
  }

  lemma StepIdOk(s: State, l: Label, id: int)
    requires Enabled(s, l) && IdOk(s, id) && SizeOk(s)
    ensures IdOk(Apply(s, l), id) && SizeOk(Apply(s, l))
  {
    if l.CancelContext? {
      JobsSame(s.jobs, Apply(s, l).jobs, id);
    } else if l.JobMoves? || l.JobEnds? || l.JobSend? || l.JobDone? {
      JobStepIdOk(s, l, id);
    } else {
      LoopStepIdOk(s, l, id);
    }
  }

  lemma StepIdsOk(s: State, l: Label)
    requires IdsOk(s) && Enabled(s, l)
    ensures IdsOk(Apply(s, l))
  {
    forall id ensures IdOk(Apply(s, l), id) {
      assert IdOk(s, id);
      StepIdOk(s, l, id);
    }
    assert IdOk(s, 0);
    StepIdOk(s, l, 0);
  }

  /** A job whose goroutine is past `processJob` has finished it; all jobs share context and limit. */
  predicate JobOk(s: State, j: nat)
    requires j < |s.jobs|
  {
    && ProcessJob.Inv(s.jobs[j].run)
    && s.jobs[j].run.limit == s.limit && s.jobs[j].run.cancelled == s.cancelled
    && (!s.jobs[j].pc.Working? ==> s.jobs[j].run.main.IsOver())
  }

  predicate JobsOk(s: State) {
    forall j {:trigger JobOk(s, j)} :: 0 <= j < |s.jobs| ==> JobOk(s, j)
  }

  lemma CancelKeepsInv(run: ProcessJob.State)
    requires ProcessJob.Inv(run)
    ensures ProcessJob.Inv(run.(cancelled := true))
  {
    if !run.cancelled {
      ProcessJob.StepInv(run, ProcessJob.Cancel);
    }
  }

  lemma OverStays(run: ProcessJob.State, step: ProcessJob.Step)
    requires ProcessJob.Enabled(run, step)
    ensures run.main.IsOver() ==> ProcessJob.Apply(run, step).main.IsOver()
    ensures !step.Cancel? ==> ProcessJob.Apply(run, step).cancelled == run.cancelled
  {
  }

  lemma StepJobOk(s: State, l: Label, j: nat)
    requires JobsOk(s) && Enabled(s, l) && j < |Apply(s, l).jobs|
    ensures JobOk(Apply(s, l), j)
  {
    assert j < |s.jobs| ==> JobOk(s, j);
    match l {
      case Fetch(ok, total) =>
        if j == |s.jobs| {
          ProcessJob.InitInv(s.limit, total);
          if s.cancelled { CancelKeepsInv(ProcessJob.Init(s.limit, total)); }
        }
      case JobMoves(k, step) =>
        if k == j {
          ProcessJob.StepInv(s.jobs[j].run, step);
          OverStays(s.jobs[j].run, step);
        }
      case CancelContext => CancelKeepsInv(s.jobs[j].run);
      case _ =>
    }
  }

  ghost predicate Inv(s: State) {
    IdsOk(s) && JobsOk(s)
  }

  lemma StepInv(s: State, l: Label)
    requires Inv(s) && Enabled(s, l)
    ensures Inv(Apply(s, l))
    ensures Apply(s, l).pool.capacity == s.pool.capacity && Apply(s, l).limit == s.limit
  {
    StepIdsOk(s, l);
    var t := Apply(s, l);
    forall j | 0 <= j < |t.jobs| ensures JobOk(t, j) {
      StepJobOk(s, l, j);
    }
  }

  lemma {:induction false} RunInv(s: State, ls: seq<Label>)
    requires Inv(s) && ValidRun(s, ls)
    ensures Inv(Exec(s, ls)) && Exec(s, ls).pool.capacity == s.pool.capacity && Exec(s, ls).limit == s.limit
    decreases |ls|
  {
    if ls != [] {
      StepInv(s, ls[0]);
      RunInv(Apply(s, ls[0]), ls[1..]);
    }
  }

  lemma ReachableInv(workers: nat, limit: nat, s: State)
    requires Reachable(workers, limit, s)
    ensures Inv(s) && s.pool.capacity == workers && s.limit == limit
  {
    var ls :| ValidRun(Init(workers, limit), ls) && Exec(Init(workers, limit), ls) == s;
    InitInv(workers, limit);
    RunInv(Init(workers, limit), ls);
  }

  // ---------- Worker-ID conservation ----------

  lemma {:induction false} IdsAreDistinct(n: nat, id: int)
    ensures multiset(Pool.IdsUpTo(n))[id] == if 1 <= id <= n then 1 else 0
  {
    if n > 0 {
      assert Pool.IdsUpTo(n) == Pool.IdsUpTo(n - 1) + [n];
      IdsAreDistinct(n - 1, id);
    }
  }

  lemma InitInv(workers: nat, limit: nat)
    ensures Inv(Init(workers, limit))
  {
    forall id ensures IdOk(Init(workers, limit), id) {
      IdsAreDistinct(workers, id);
    }
  }

  lemma {:induction false} JobsWithAt(jobs: seq<Job>, j: nat, id: int)
    requires j < |jobs|
    ensures One(HasId(jobs[j].pc, id)) <= JobsWith(jobs, id)
    ensures One(HoldsId(jobs[j].pc)) <= JobsHolding(jobs)
  {
    if j < |jobs| - 1 {
      JobsWithAt(jobs[..|jobs| - 1], j, id);
    }
  }

  lemma {:induction false} JobsWithTwo(jobs: seq<Job>, i: nat, j: nat, id: int)
    requires i < j < |jobs|
    ensures One(HasId(jobs[i].pc, id)) + One(HasId(jobs[j].pc, id)) <= JobsWith(jobs, id)
  {
    if j < |jobs| - 1 {
      JobsWithTwo(jobs[..|jobs| - 1], i, j, id);
    } else {
      JobsWithAt(jobs[..|jobs| - 1], i, id);
    }
  }

  /**
   * On every path of the loop the IDs 1 to NumWorkers stay partitioned among the channel, the
   * loop and the job goroutines. So no two goroutines share an ID, and whoever is about to send
   * an ID back in `Release` finds room in the channel.
   */
  lemma WorkerIdsConserved(workers: nat, limit: nat, s: State)
    requires Reachable(workers, limit, s)
    ensures forall id :: multiset(s.pool.ids)[id] + One(LoopHasId(s.loop, id)) + JobsWith(s.jobs, id)
                         == One(1 <= id <= workers)
    ensures forall i, j, id :: 0 <= i < j < |s.jobs| && HasId(s.jobs[i].pc, id) ==>
              !HasId(s.jobs[j].pc, id)
    ensures forall j, id :: 0 <= j < |s.jobs| && HasId(s.jobs[j].pc, id) ==> !LoopHasId(s.loop, id) && id !in s.pool.ids
    ensures s.loop.Sending? ==> Enabled(s, LoopSend)
    ensures forall j :: 0 <= j < |s.jobs| && s.jobs[j].pc.Returning? ==> Enabled(s, JobSend(j))
  {
    ReachableInv(workers, limit, s);
    forall id
      ensures multiset(s.pool.ids)[id] + One(LoopHasId(s.loop, id)) + JobsWith(s.jobs, id) == One(1 <= id <= workers)
    {
      assert IdOk(s, id);
    }
    forall i, j, id | 0 <= i < j < |s.jobs| && HasId(s.jobs[i].pc, id) ensures !HasId(s.jobs[j].pc, id) {
      JobsWithTwo(s.jobs, i, j, id);
    }
    forall j, id | 0 <= j < |s.jobs| && HasId(s.jobs[j].pc, id) ensures !LoopHasId(s.loop, id) && id !in s.pool.ids {
      JobsWithAt(s.jobs, j, id);
    }
    forall j | 0 <= j < |s.jobs| && s.jobs[j].pc.Returning? ensures Pool.HasRoom(s.pool) {
      JobsWithAt(s.jobs, j, 0);
    }
  }

  // ---------- Making runs ----------

  lemma {:induction false} RunAppend(s: State, ls: seq<Label>, l: Label)
    requires ValidRun(s, ls) && Enabled(Exec(s, ls), l)
    ensures ValidRun(s, ls + [l]) && Exec(s, ls + [l]) == Apply(Exec(s, ls), l)
    decreases |ls|
  {
    if ls == [] {
      assert (ls + [l])[1..] == [];
    } else {
      assert (ls + [l])[1..] == ls[1..] + [l];
      RunAppend(Apply(s, ls[0]), ls[1..], l);
    }
  }

  lemma Go(workers: nat, limit: nat, s: State, l: Label) returns (t: State)
    requires Reachable(workers, limit, s) && Enabled(s, l)
    ensures t == Apply(s, l) && Reachable(workers, limit, t)
  {
    var ls :| ValidRun(Init(workers, limit), ls) && Exec(Init(workers, limit), ls) == s;
    RunAppend(Init(workers, limit), ls, l);
    t := Apply(s, l);
  }

  function WithRun(s: State, j: nat, run: ProcessJob.State): State
    requires j < |s.jobs|
  {
    s.(jobs := s.jobs[j := s.jobs[j].(run := run)])
  }

  lemma JobGoes(workers: nat, limit: nat, s: State, j: nat, step: ProcessJob.Step) returns (t: State)
    requires Reachable(workers, limit, s) && j < |s.jobs|
    requires ProcessJob.Enabled(s.jobs[j].run, step) && !step.Cancel?
    ensures Reachable(workers, limit, t) && t == WithRun(s, j, ProcessJob.Apply(s.jobs[j].run, step))
  {
    t := Go(workers, limit, s, JobMoves(j, step));
  }

  // ---------- The WaitGroup of the pool ----------

  /** How many times wg.Done was called. */
  function Dones(ls: seq<Label>): nat {
    if ls == [] then 0 else Dones(ls[1..]) + One(ls[0].LoopDone? || ls[0].JobDone?)
  }

  lemma {:induction false} CounterOfRun(s: State, ls: seq<Label>)
    requires ValidRun(s, ls)
    ensures Exec(s, ls).pool.wg == s.pool.wg - Dones(ls)
    decreases |ls|
  {
    if ls != [] {
      CounterOfRun(Apply(s, ls[0]), ls[1..]);
    }
  }

  /**
   * The loop never adds to the counter, so the process lives on exactly as long as no `Release`
   * has completed: its first wg.Done takes the counter below zero.
   */
  lemma FirstReleasePanics(workers: nat, limit: nat, ls: seq<Label>)
    requires ValidRun(Init(workers, limit), ls)
    ensures 0 <= Exec(Init(workers, limit), ls).pool.wg <==> Dones(ls) == 0
    ensures 0 <= Exec(Init(workers, limit), ls).pool.wg ==> Exec(Init(workers, limit), ls).pool.wg == 0
  {
    CounterOfRun(Init(workers, limit), ls);
  }

  /** `Stop` waits for the counter to be zero, which it is while a job is still working. */
  lemma StopDoesNotWait(workers: nat, limit: nat, total: nat) returns (s: State)
    requires 1 <= workers
    ensures Reachable(workers, limit, s)
    ensures s.loop.Exited? && Pool.WaitPasses(s.pool)
    ensures exists j :: 0 <= j < |s.jobs| && s.jobs[j].pc.Working? && !s.jobs[j].run.main.IsOver()
  {
    s := Init(workers, limit);
    assert ValidRun(s, []) && Exec(s, []) == s;
    s := Go(workers, limit, s, Receive);
    s := Go(workers, limit, s, Dequeue(true));
    s := Go(workers, limit, s, Fetch(true, total));
    s := Go(workers, limit, s, CancelContext);
    s := Go(workers, limit, s, Exit);
    assert s.jobs[0].pc.Working?;
  }

  // ---------- When the loop sleeps ----------

  /** Whether the last Dequeue of the run found an entry; `before` is that of the run so far. */
  function LastFound(ls: seq<Label>, before: Option<bool>): Option<bool> {
    if ls == [] then before else LastFound(ls[1..], if ls[0].Dequeue? then Some(ls[0].found) else before)
  }

  predicate Remembers(loop: LoopPc, found: Option<bool>) {
    match loop
    case Fetching(_) => found == Some(true)
    case Sending(_, idle) => found == Some(!idle)
    case Signalling(idle) => found == Some(!idle)
    case Sleeping => found == Some(false)
    case _ => true
  }

  lemma {:induction false} RunRemembers(s: State, ls: seq<Label>, before: Option<bool>)
    requires ValidRun(s, ls) && Remembers(s.loop, before)
    ensures Remembers(Exec(s, ls).loop, LastFound(ls, before))
    decreases |ls|
  {
    if ls != [] {
      RunRemembers(Apply(s, ls[0]), ls[1..], if ls[0].Dequeue? then Some(ls[0].found) else before);
    }
  }

  /**
   * Having released the ID, the loop waits for the poll interval if the queue was empty, and only
   * then; after a failed fetch it goes straight on to the next worker ID.
   */
  lemma SleepsIffQueueWasEmpty(workers: nat, limit: nat, ls: seq<Label>)
    requires ValidRun(Init(workers, limit), ls)
    ensures var s := Exec(Init(workers, limit), ls);
            && (Enabled(s, LoopDone) ==>
                  Apply(s, LoopDone).loop == if LastFound(ls, None) == Some(false) then Sleeping else Selecting)
            && (s.loop.Sleeping? ==> LastFound(ls, None) == Some(false))
            && (s.loop.Fetching? ==> LastFound(ls, None) == Some(true))
  {
    RunRemembers(Init(workers, limit), ls, None);
  }
}
