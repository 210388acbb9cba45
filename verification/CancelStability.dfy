/** When a record that says cancelled is final. */
module CancelStability {
  import opened Types
  import opened QueueSpec
  import opened StoreSpec
  import opened Lifecycle
  import opened LifecycleInvariant
  import opened LifecycleTheorems
  import ProcessJob
  import ProcessJobTheorems

  // ---------- Stability of a direct cancel ----------

  predicate IsCancelled(s: State, id: JobId) {
    id in s.db && s.db[id].StatusOf() == Some(Cancelled)
  }

  /** The record keeps its place and its value in every continuation. */
  ghost predicate Stable(s: State, id: JobId) {
    forall ls :: ValidRun(s, ls) ==> id in Exec(s, ls).db && id in s.db && Exec(s, ls).db[id] == s.db[id]
  }

  /**
   * The runs of the in-memory client, which hands out the stored record itself. There a cancel's
   * UpdateCall is its assignment of the new status, which shows at once; the Update that follows it,
   * like the one of a processor, stores what is stored already.
   */
  predicate InMemory(l: Label) {
    match l
    case RemoveCall(_, _, _, visible) => !visible
    case SendCall(_, _, _, visible) => !visible
    case JobStep(_, step, ok) => step.Update? ==> !ok
    case _ => true
  }

  predicate AllInMemory(ls: seq<Label>) {
    forall l :: l in ls ==> InMemory(l)
  }

  /** The record keeps its place and its value in every continuation of that kind. */
  ghost predicate StableInMemory(s: State, id: JobId) {
    forall ls :: ValidRun(s, ls) && AllInMemory(ls) ==>
      id in Exec(s, ls).db && id in s.db && Exec(s, ls).db[id] == s.db[id]
  }

  /** A cancel of the ID that is past its check of the status and will not write cancelled. */
  predicate Threat(s: State, a: nat, id: JobId) {
    a in s.actors &&
    match s.actors[a]
    case Removing(i, _) => i == id
    case Sending(i, _) => i == id
    case Updating(job) => job.id == id && job.StatusOf() != Some(Cancelled)
    case _ => false
  }

  ghost predicate Calm(s: State, id: JobId) {
    IsCancelled(s, id) && forall a {:trigger Threat(s, a, id)} :: !Threat(s, a, id)
  }

  lemma CancelledPlace(s: State, id: JobId)
    requires Inv(s) && IsCancelled(s, id)
    ensures At(s, id, Withdrawn(s.db[id])) && id !in Ids(s.queue)
  {
    assert IdOk(s, id);
  }

  /** No action changes the record or starts a new threat. */
  lemma NextCalm(s: State, l: Label, id: JobId)
    requires Inv(s) && Calm(s, id) && Enabled(s, l)
    ensures id in Next(s, l).db && Next(s, l).db[id] == s.db[id]
    ensures Calm(Next(s, l), id)
  {
    CancelledPlace(s, id);
    if l.a in s.actors {
      assert ActorOk(s, l.a) && !Threat(s, l.a, id);
      NextRecord(s, l, id);
    }
    forall b ensures !Threat(Next(s, l), b, id) {
      assert !Threat(s, b, id);
      assert b in s.actors ==> ActorOk(s, b);
      NextThreat(s, l, b, id);
    }
  }

  /** The record is there, with the value it has in `s`. */
  predicate Keeps(s: State, t: State, id: JobId) {
    id in s.db && id in t.db && t.db[id] == s.db[id]
  }

  lemma StoreKeeps(s: State, a: nat, ok: bool, id: JobId)
    requires a in s.actors && s.actors[a].Storing? && ActorOk(s, a) && id in s.db
    ensures Keeps(s, AfterStore(s, a, ok), id)
  {
  }

  lemma DeleteKeeps(s: State, a: nat, ok: bool, id: JobId)
    requires a in s.actors && s.actors[a].RollingBack? && ActorOk(s, a) && id in s.db
    requires id in s.place && s.place[id].Withdrawn?
    ensures Keeps(s, AfterDelete(s, a, ok), id)
  {
  }

  lemma WritesKeep(s: State, l: Label, id: JobId)
    requires Enabled(s, l) && (l.UpdateCall? || l.JobStep?) && ActorOk(s, l.a)
    requires IsCancelled(s, id) && At(s, id, Withdrawn(s.db[id])) && !Threat(s, l.a, id)
    ensures Keeps(s, Next(s, l), id)
  {
  }

  lemma MarksKeep(s: State, l: Label, id: JobId)
    requires Enabled(s, l) && (l.RemoveCall? || l.SendCall?) && ActorOk(s, l.a)
    requires IsCancelled(s, id) && !Threat(s, l.a, id)
    ensures Keeps(s, Next(s, l), id)
  {
  }

  lemma NextRecord(s: State, l: Label, id: JobId)
    requires Enabled(s, l) && l.a in s.actors && ActorOk(s, l.a)
    requires IsCancelled(s, id) && At(s, id, Withdrawn(s.db[id])) && !Threat(s, l.a, id)
    ensures Keeps(s, Next(s, l), id)
  {
    match l {
      case StoreCall(a, ok) => StoreKeeps(s, a, ok, id);
      case DeleteCall(a, ok) => DeleteKeeps(s, a, ok, id);
      case RemoveCall(_, _, _, _) => MarksKeep(s, l, id);
      case SendCall(_, _, _, _) => MarksKeep(s, l, id);
      case UpdateCall(_, _) => WritesKeep(s, l, id);
      case JobStep(_, _, _) => WritesKeep(s, l, id);
      case _ =>
    }
  }

  lemma NextThreat(s: State, l: Label, b: nat, id: JobId)
    requires Enabled(s, l) && IsCancelled(s, id) && !Threat(s, b, id)
    requires b in s.actors ==> ActorOk(s, b)
    ensures !Threat(Next(s, l), b, id)
  {
    if b == l.a {
      OwnMoveNoThreat(s, l, id);
    } else if l.FetchCall? && b == l.child {
    } else {
      OthersStay(s, l, b);
    }
  }

  lemma OwnMoveNoThreat(s: State, l: Label, id: JobId)
    requires Enabled(s, l) && IsCancelled(s, id) && !Threat(s, l.a, id)
    requires l.a in s.actors ==> ActorOk(s, l.a)
    ensures !Threat(Next(s, l), l.a, id)
  {
    if ByHandler(l) {
      HandlerNoThreat(s, l, id);
    } else {
      match l {
        case FetchCall(_, _, _, _, _) =>
        case _ =>
      }
    }
  }

  lemma ReadNoThreat(s: State, a: nat, ok: bool, id: JobId)
    requires a in s.actors && s.actors[a].Reading? && IsCancelled(s, id)
    ensures !Threat(AfterRead(s, a, ok), a, id)
  {
  }

  lemma RemoveNoThreat(s: State, a: nat, ok: bool, now: int, visible: bool, id: JobId)
    requires a in s.actors && s.actors[a].Removing? && ActorOk(s, a) && !Threat(s, a, id)
    ensures !Threat(AfterRemove(s, a, ok, now, visible), a, id)
  {
  }

  lemma SendNoThreat(s: State, a: nat, ok: bool, now: int, visible: bool, id: JobId)
    requires a in s.actors && s.actors[a].Sending? && ActorOk(s, a) && !Threat(s, a, id)
    ensures !Threat(AfterSend(s, a, ok, now, visible), a, id)
  {
  }

  lemma HandlerNoThreat(s: State, l: Label, id: JobId)
    requires Enabled(s, l) && ByHandler(l) && IsCancelled(s, id) && !Threat(s, l.a, id)
    requires l.a in s.actors ==> ActorOk(s, l.a)
    ensures !Threat(Next(s, l), l.a, id)
  {
    match l {
      case ReadCall(a, ok) => ReadNoThreat(s, a, ok, id);
      case RemoveCall(a, ok, now, visible) => RemoveNoThreat(s, a, ok, now, visible, id);
      case SendCall(a, ok, now, visible) => SendNoThreat(s, a, ok, now, visible, id);
      case _ =>
    }
  }

  lemma {:induction false} RunCalm(s: State, ls: seq<Label>, id: JobId)
    requires Inv(s) && Calm(s, id) && ValidRun(s, ls)
    ensures id in Exec(s, ls).db && Exec(s, ls).db[id] == s.db[id]
    decreases |ls|
  {
    if ls != [] {
      NextInv(s, ls[0]);
      NextCalm(s, ls[0], id);
      RunCalm(Next(s, ls[0]), ls[1..], id);
    }
  }

  /** A threatening cancel that runs to its end overwrites the record. */
  lemma ThreatOverwrites(s: State, a: nat, id: JobId) returns (ls: seq<Label>)
    requires Inv(s) && IsCancelled(s, id) && Threat(s, a, id)
    ensures ValidRun(s, ls) && id in Exec(s, ls).db && Exec(s, ls).db[id] != s.db[id]
    ensures Exec(s, ls).db[id].StatusOf() != Some(Cancelled)
    ensures AllInMemory(ls)
    decreases if s.actors[a].Removing? then 2 else if s.actors[a].Sending? then 1 else 0
  {
    assert ActorOk(s, a);
    CancelledPlace(s, id);
    var l := if s.actors[a].Removing? then RemoveCall(a, true, 0, false)
             else if s.actors[a].Sending? then SendCall(a, true, 0, false)
             else UpdateCall(a, true);
    PresentIff(s.queue, id);
    if s.actors[a].Updating? {
      ls := [l];
      One(s, l);
    } else {
      NextInv(s, l);
      var rest := ThreatOverwrites(Next(s, l), a, id);
      ls := [l] + rest;
      assert ls[1..] == rest;
    }
  }

  /**
   * Once cancelled is in the database, the record is there unchanged in every continuation
   * exactly when no other cancel of the same ID is past its status check. That is so whether the
   * database hands out copies or, like the in-memory client, the stored record itself.
   */
  lemma CancelledIsStableIff(s: State, id: JobId)
    requires Reachable(s) && IsCancelled(s, id)
    ensures Stable(s, id) <==> forall a :: !Threat(s, a, id)
    ensures StableInMemory(s, id) <==> forall a :: !Threat(s, a, id)
  {
    ReachableInv(s);
    if forall a :: !Threat(s, a, id) {
      forall ls | ValidRun(s, ls) ensures id in Exec(s, ls).db && Exec(s, ls).db[id] == s.db[id] {
        RunCalm(s, ls, id);
      }
    } else {
      var a :| Threat(s, a, id);
      var ls := ThreatOverwrites(s, a, id);
    }
  }

  /** A cancel of the ID between its status check and its end. */
  predicate InFlight(s: State, a: nat, id: JobId) {
    a in s.actors &&
    match s.actors[a]
    case Removing(i, _) => i == id
    case Sending(i, _) => i == id
    case Updating(job) => job.id == id
    case _ => false
  }

  ghost predicate Overlap(s: State, id: JobId) {
    exists a, b :: a != b && InFlight(s, a, id) && InFlight(s, b, id)
  }

  ghost predicate NeverOverlap(s: State, ls: seq<Label>, id: JobId)
    requires ValidRun(s, ls)
    decreases |ls|
  {
    !Overlap(s, id) && (ls == [] || NeverOverlap(Next(s, ls[0]), ls[1..], id))
  }

  ghost predicate Guarded(s: State, id: JobId) {
    IsCancelled(s, id) ==> forall a {:trigger Threat(s, a, id)} :: !Threat(s, a, id)
  }

  /** The one action that brings cancelled into the database is the withdrawing cancel's own. */
  lemma BecomesCancelled(s: State, l: Label, id: JobId)
    requires Inv(s) && Enabled(s, l) && !IsCancelled(s, id) && IsCancelled(Next(s, l), id)
    ensures InFlight(s, l.a, id) && !Threat(Next(s, l), l.a, id)
  {
    if l.a in s.actors {
      assert ActorOk(s, l.a);
    }
    if !l.RemoveCall? && !l.UpdateCall? {
      OthersCancelNothing(s, l, id);
    }
  }

  lemma StoreCancelsNothing(s: State, a: nat, ok: bool, id: JobId)
    requires Inv(s) && a in s.actors && s.actors[a].Storing? && !IsCancelled(s, id)
    ensures !IsCancelled(AfterStore(s, a, ok), id)
  {
    assert ActorOk(s, a) && IdOk(s, s.actors[a].job.id);
  }

  lemma SendCancelsNothing(s: State, a: nat, ok: bool, now: int, visible: bool, id: JobId)
    requires Inv(s) && a in s.actors && s.actors[a].Sending? && s.actors[a].job.status.Encoded? && !IsCancelled(s, id)
    ensures !IsCancelled(AfterSend(s, a, ok, now, visible), id)
  {
    assert ActorOk(s, a);
  }

  lemma JobCancelsNothing(s: State, a: nat, step: ProcessJob.Step, ok: bool, id: JobId)
    requires Inv(s) && Enabled(s, JobStep(a, step, ok)) && !IsCancelled(s, id)
    ensures !IsCancelled(Next(s, JobStep(a, step, ok)), id)
  {
    assert ActorOk(s, a);
  }

  lemma OthersCancelNothing(s: State, l: Label, id: JobId)
    requires Inv(s) && Enabled(s, l) && !IsCancelled(s, id) && !l.RemoveCall? && !l.UpdateCall?
    ensures !IsCancelled(Next(s, l), id)
  {
    match l {
      case StoreCall(a, ok) => StoreCancelsNothing(s, a, ok, id);
      case SendCall(a, ok, now, visible) => SendCancelsNothing(s, a, ok, now, visible, id);
      case JobStep(a, step, ok) => JobCancelsNothing(s, a, step, ok, id);
      case _ =>
    }
  }

  lemma OtherThreatWasInFlight(s: State, l: Label, b: nat, id: JobId)
    requires Enabled(s, l) && b != l.a && Threat(Next(s, l), b, id)
    ensures InFlight(s, b, id)
  {
    if l.FetchCall? && b == l.child {
    } else {
      OthersStay(s, l, b);
    }
  }

  lemma NextGuarded(s: State, l: Label, id: JobId)
    requires Inv(s) && Guarded(s, id) && !Overlap(s, id) && Enabled(s, l)
    ensures Guarded(Next(s, l), id)
  {
    if IsCancelled(s, id) {
      NextCalm(s, l, id);
    } else if IsCancelled(Next(s, l), id) {
      BecomesCancelled(s, l, id);
      forall b ensures !Threat(Next(s, l), b, id) {
        if b != l.a && Threat(Next(s, l), b, id) {
          OtherThreatWasInFlight(s, l, b, id);
        }
      }
    }
  }

  lemma {:induction false} RunGuarded(s: State, ls: seq<Label>, id: JobId)
    requires Inv(s) && Guarded(s, id) && ValidRun(s, ls) && NeverOverlap(s, ls, id)
    ensures Guarded(Exec(s, ls), id)
    decreases |ls|
  {
    if ls != [] {
      NextInv(s, ls[0]);
      NextGuarded(s, ls[0], id);
      RunGuarded(Next(s, ls[0]), ls[1..], id);
    }
  }

  /**
   * If no two cancels of the ID are past their status check at the same time, then a cancelled
   * record is never changed or deleted again, and every later cancel of the ID is refused.
   */
  lemma SeparateCancelsAreStable(ls: seq<Label>, id: JobId)
    requires ValidRun(START, ls) && NeverOverlap(START, ls, id)
    requires IsCancelled(Exec(START, ls), id)
    ensures Stable(Exec(START, ls), id)
    ensures forall more, a, ok :: ValidRun(Exec(START, ls), more) ==>
              var t := Exec(Exec(START, ls), more);
              a in t.actors && t.actors[a] == Reading(id) ==> AfterRead(t, a, ok).actors[a] == Finished
  {
    var s := Exec(START, ls);
    assert Reachable(s);
    RunGuarded(START, ls, id);
    CancelledIsStableIff(s, id);
  }

  lemma Go(s: State, l: Label) returns (t: State)
    requires Reachable(s) && Enabled(s, l)
    ensures t == Next(s, l) && Reachable(t)
  {
    ReachableNext(s, l);
    t := Next(s, l);
  }

  /** A batch just created, and two cancels of it that both read its record. */
  function BothRead(job: BatchJob): State {
    State(map[job.id := job], [BatchJobPriority(job.id, job.slo)],
          map[0 := Finished, 1 := Removing(job.id, job), 2 := Removing(job.id, job)],
          map[], [], {}, map[job.id := job], map[job.id := Queued])
  }

  function Created(job: BatchJob): State {
    State(map[job.id := job], [BatchJobPriority(job.id, job.slo)], map[0 := Finished],
          map[], [], {}, map[job.id := job], map[job.id := Queued])
  }

  /** The batch stored but not yet enqueued. */
  function Stored(job: BatchJob): State {
    State(map[job.id := job], [], map[0 := Enqueuing(job)], map[], [], {},
          map[job.id := job], map[job.id := Creating(0)])
  }

  lemma StoreLeads(job: BatchJob)
    ensures AfterStore(AfterBeginCreate(START, 0, job), 0, true) == Stored(job)
  {
    assert AfterStore(AfterBeginCreate(START, 0, job), 0, true).actors == map[0 := Enqueuing(job)];
  }

  lemma EnqueueLeads(job: BatchJob)
    ensures AfterEnqueue(Stored(job), 0, true) == Created(job)
  {
    assert Insert([], BatchJobPriority(job.id, job.slo)) == [BatchJobPriority(job.id, job.slo)];
    assert AfterEnqueue(Stored(job), 0, true).actors == map[0 := Finished];
    assert AfterEnqueue(Stored(job), 0, true).place == map[job.id := Queued];
  }

  lemma CreatedReachable(job: BatchJob)
    requires NewRecord(job)
    ensures Reachable(Created(job))
  {
    assert ValidRun(START, []) && Exec(START, []) == START;
    var s := Go(START, BeginCreate(0, job));
    s := Go(s, StoreCall(0, true));
    StoreLeads(job);
    s := Go(s, EnqueueCall(0, true));
    EnqueueLeads(job);
  }

  lemma ReadLeads(s: State, a: nat, job: BatchJob)
    requires a !in s.actors && job.id in s.db && s.db[job.id] == job && Cancellable(job)
    ensures AfterRead(Become(s, a, Reading(job.id)), a, true) == Become(s, a, Removing(job.id, job))
  {
    assert s.actors[a := Reading(job.id)][a := Removing(job.id, job)] == s.actors[a := Removing(job.id, job)];
  }

  /** A cancel that begins and reads the record of a batch just created. */
  lemma CancelReads(s: State, a: nat, job: BatchJob)
    requires Reachable(s) && a !in s.actors && job.id in s.db && s.db[job.id] == job && Cancellable(job)
    ensures Reachable(Become(s, a, Removing(job.id, job)))
  {
    var t := Go(s, BeginCancel(a, job.id));
    t := Go(t, ReadCall(a, true));
    ReadLeads(s, a, job);
  }

  lemma BothReadReachable(job: BatchJob)
    requires NewRecord(job)
    ensures Reachable(BothRead(job))
  {
    CreatedReachable(job);
    CancelReads(Created(job), 1, job);
    var s := Become(Created(job), 1, Removing(job.id, job));
    CancelReads(s, 2, job);
    assert Become(s, 2, Removing(job.id, job)).actors == BothRead(job).actors;
  }

  /** Two overlapping cancels of one queued batch: cancelled is written, then replaced by cancelling. */
  lemma OverlappingCancels(job: BatchJob) returns (s: State, ls: seq<Label>)
    requires NewRecord(job)
    ensures Reachable(s) && IsCancelled(s, job.id) && !Stable(s, job.id)
    ensures ValidRun(s, ls) && job.id in Exec(s, ls).db
    ensures Exec(s, ls).db[job.id].StatusOf() == Some(Cancelling)
  {
    var id := job.id;
    BothReadReachable(job);
    s := Go(BothRead(job), RemoveCall(1, true, 0, false));
    s := Go(s, UpdateCall(1, true));
    assert s.db[id] == CancelledJob(job, 0) && s.queue == [] && s.actors[2] == Removing(id, job);
    assert Threat(s, 2, id);
    CancelledIsStableIff(s, id);
    ls := [RemoveCall(2, true, 0, false)] + [SendCall(2, true, 0, false), UpdateCall(2, true)];
    assert ls[1..] == [SendCall(2, true, 0, false), UpdateCall(2, true)];
    SecondCancelEnds(Next(s, ls[0]), job);
  }

  lemma SecondCancelEnds(s: State, job: BatchJob)
    requires NewRecord(job) && job.id in s.db && 2 in s.actors && s.actors[2] == Sending(job.id, job)
    ensures var ls := [SendCall(2, true, 0, false), UpdateCall(2, true)];
            && ValidRun(s, ls) && job.id in Exec(s, ls).db
            && Exec(s, ls).db[job.id].StatusOf() == Some(Cancelling)
  {
    var ls := [SendCall(2, true, 0, false), UpdateCall(2, true)];
    assert ls[1..] == [UpdateCall(2, true)];
    One(Next(s, ls[0]), ls[1]);
  }

  // ---------- Cancelling does not last ----------

  /** Steps of a job up to its database update. */
  lemma {:induction false} JobRuns(s: State, a: nat, steps: seq<ProcessJob.Step>) returns (t: State)
    requires Reachable(s) && a in s.actors && s.actors[a].Running?
    requires ProcessJob.ValidRun(s.actors[a].run, steps) && ProcessJob.Update !in steps
    ensures Reachable(t) && t.db == s.db && a in t.actors
    ensures t.actors[a] == Running(s.actors[a].job, ProcessJob.Exec(s.actors[a].run, steps))
    decreases |steps|
  {
    t := s;
    if steps != [] {
      assert steps == [steps[0]] + steps[1..];
      t := Go(s, JobStep(a, steps[0], true));
      t := JobRuns(t, a, steps[1..]);
    }
  }

  lemma EmptyJobReachesUpdate(limit: nat) returns (run: ProcessJob.State)
    ensures ProcessJob.Reachable(limit, 0, run) && run.main.UpdateRow?
  {
    run := ProcessJob.Init(limit, 0);
    ProcessJobTheorems.InitReachable(limit, 0);
    run := ProcessJobTheorems.Advance(limit, 0, run, ProcessJob.SetStatus);
    run := ProcessJobTheorems.Advance(limit, 0, run, ProcessJob.SetStatus);
    run := ProcessJobTheorems.Advance(limit, 0, run, ProcessJob.CloseChannel);
    run := ProcessJobTheorems.Advance(limit, 0, run, ProcessJob.EndOfLines);
    run := ProcessJobTheorems.Advance(limit, 0, run, ProcessJob.WaitReturns);
    run := ProcessJobTheorems.Advance(limit, 0, run, ProcessJob.SetStatus);
  }

  lemma {:induction false} NoUpdateYet(steps: seq<ProcessJob.Step>)
    requires ProcessJobTheorems.Updates(steps) == 0
    ensures ProcessJob.Update !in steps
  {
    if steps != [] {
      NoUpdateYet(steps[1..]);
    }
  }

  /** A job without lines goes on to its database update. */
  lemma JobReachesUpdate(s: State, a: nat, limit: nat) returns (t: State)
    requires Reachable(s) && a in s.actors && s.actors[a].Running? && s.actors[a].run == ProcessJob.Init(limit, 0)
    ensures Reachable(t) && t.db == s.db && Enabled(t, JobStep(a, ProcessJob.Update, true))
    ensures t.actors[a].job == s.actors[a].job
  {
    var init := ProcessJob.Init(limit, 0);
    var run := EmptyJobReachesUpdate(limit);
    var steps :| ProcessJob.ValidRun(init, steps) && ProcessJob.Exec(init, steps) == run;
    ProcessJobTheorems.RecordIsWrittenOnce(limit, 0, steps);
    NoUpdateYet(steps);
    t := JobRuns(s, a, steps);
  }

  /** A batch just created, taken by a polling loop and handed to a job. */
  lemma CreatedRuns(job: BatchJob, limit: nat) returns (s: State)
    requires NewRecord(job)
    ensures Reachable(s) && job.id in s.db && s.db[job.id] == job && s.queue == [] && s.actors.Keys == {0, 1, 2}
    ensures s.actors[2] == Running(job, ProcessJob.Init(limit, 0))
  {
    CreatedReachable(job);
    s := Go(Created(job), BeginPoll(1));
    s := Go(s, DequeueCall(1, true));
    s := Go(s, FetchCall(1, true, 2, limit, 0));
  }

  lemma RemoveFindsNothing(s: State, a: nat, job: BatchJob, b: nat) returns (t: State)
    requires Reachable(s) && a in s.actors && s.actors[a] == Removing(job.id, job) && b in s.actors && b != a
    requires s.queue == [] && job.status.Encoded?
    ensures Reachable(t) && t.db == s.db && a in t.actors && t.actors[a] == Sending(job.id, job)
    ensures b in t.actors && t.actors[b] == s.actors[b]
  {
    t := Go(s, RemoveCall(a, true, 0, false));
  }

  lemma SendAndUpdate(s: State, a: nat, job: BatchJob, b: nat) returns (t: State)
    requires Reachable(s) && a in s.actors && s.actors[a] == Sending(job.id, job) && b in s.actors && b != a
    requires job.id in s.db && job.status.Encoded?
    ensures Reachable(t) && t.db == s.db[job.id := CancellingJob(job, 0)]
    ensures b in t.actors && t.actors[b] == s.actors[b]
  {
    t := Go(s, SendCall(a, true, 0, false));
    t := Go(t, UpdateCall(a, true));
  }

  /** A cancel of a batch that is not in the queue, from its beginning to its end; actor `b` stays put. */
  lemma RunningIsCancelled(s: State, a: nat, job: BatchJob, b: nat) returns (t: State)
    requires Reachable(s) && a !in s.actors && s.queue == [] && b in s.actors
    requires job.id in s.db && s.db[job.id] == job && Cancellable(job)
    ensures Reachable(t) && t.db == s.db[job.id := CancellingJob(job, 0)]
    ensures b in t.actors && t.actors[b] == s.actors[b]
  {
    CancelReads(s, a, job);
    t := RemoveFindsNothing(Become(s, a, Removing(job.id, job)), a, job, b);
    t := SendAndUpdate(t, a, job, b);
  }

  /**
   * The processor writes back the record it fetched: a cancel of a running batch is accepted and
   * stores cancelling, and the job's own update then stores the record as it was before.
   */
  lemma CancellingIsOverwritten(job: BatchJob, limit: nat) returns (s: State, l: Label)
    requires NewRecord(job)
    ensures Reachable(s) && job.id in s.db && s.db[job.id].StatusOf() == Some(Cancelling)
    ensures Enabled(s, l) && job.id in Next(s, l).db && Next(s, l).db[job.id] == job
  {
    s := CreatedRuns(job, limit);
    s := RunningIsCancelled(s, 3, job, 2);
    s := JobReachesUpdate(s, 2, limit);
    l := JobStep(2, ProcessJob.Update, true);
  }
}
