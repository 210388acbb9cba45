/** Safety over whole runs of handlers, polling loops and jobs. */
module LifecycleTheorems {
  import opened Types
  import opened QueueSpec
  import opened StoreSpec
  import opened Lifecycle
  import opened LifecycleInvariant
  import ProcessJob

  // ---------- Runs ----------

  lemma {:induction false} RunAppend(s: State, ls: seq<Label>, l: Label)
    requires ValidRun(s, ls) && Enabled(Exec(s, ls), l)
    ensures ValidRun(s, ls + [l]) && Exec(s, ls + [l]) == Next(Exec(s, ls), l)
    decreases |ls|
  {
    if ls == [] {
      assert (ls + [l])[1..] == [];
    } else {
      assert (ls + [l])[1..] == ls[1..] + [l];
      RunAppend(Next(s, ls[0]), ls[1..], l);
    }
  }

  lemma One(s: State, l: Label)
    requires Enabled(s, l)
    ensures ValidRun(s, [l]) && Exec(s, [l]) == Next(s, l)
  {
    assert ValidRun(Next(s, l), []);
    assert [l][1..] == [];
  }

  lemma RunCons(s: State, l: Label, rest: seq<Label>)
    requires Enabled(s, l) && ValidRun(Next(s, l), rest)
    ensures ValidRun(s, [l] + rest) && Exec(s, [l] + rest) == Exec(Next(s, l), rest)
  {
    var ls := [l] + rest;
    assert ls[0] == l && ls[1..] == rest;
  }

  lemma ReachableNext(s: State, l: Label)
    requires Reachable(s) && Enabled(s, l)
    ensures Reachable(Next(s, l))
  {
    var ls :| ValidRun(START, ls) && Exec(START, ls) == s;
    RunAppend(START, ls, l);
  }

  lemma {:induction false} ReachableExec(s: State, ls: seq<Label>)
    requires Reachable(s) && ValidRun(s, ls)
    ensures Reachable(Exec(s, ls))
    decreases |ls|
  {
    if ls != [] {
      ReachableNext(s, ls[0]);
      ReachableExec(Next(s, ls[0]), ls[1..]);
    }
  }

  predicate ByHandler(l: Label) {
    l.BeginCreate? || l.StoreCall? || l.EnqueueCall? || l.DeleteCall? || l.BeginCancel?
    || l.ReadCall? || l.RemoveCall? || l.SendCall? || l.UpdateCall?
  }

  lemma CreateMovesItself(s: State, l: Label, b: nat)
    requires Enabled(s, l) && (l.BeginCreate? || l.StoreCall?)
    ensures l.a in Next(s, l).actors && !Next(s, l).actors[l.a].Running?
    ensures b != l.a ==> (b in Next(s, l).actors <==> b in s.actors)
    ensures b != l.a && b in s.actors ==> Next(s, l).actors[b] == s.actors[b]
  {
  }

  lemma EnqueueMovesItself(s: State, a: nat, ok: bool)
    requires a in s.actors && s.actors[a].Enqueuing?
    ensures var t := AfterEnqueue(s, a, ok);
            a in t.actors && !t.actors[a].Running? && t.actors == s.actors[a := t.actors[a]]
  {
  }

  lemma DeleteMovesItself(s: State, a: nat, ok: bool)
    requires a in s.actors && s.actors[a].RollingBack?
    ensures var t := AfterDelete(s, a, ok);
            a in t.actors && !t.actors[a].Running? && t.actors == s.actors[a := t.actors[a]]
  {
  }

  lemma CancelMovesItself(s: State, l: Label, b: nat)
    requires Enabled(s, l) && (l.BeginCancel? || l.ReadCall? || l.UpdateCall?)
    ensures l.a in Next(s, l).actors && !Next(s, l).actors[l.a].Running?
    ensures b != l.a ==> (b in Next(s, l).actors <==> b in s.actors)
    ensures b != l.a && b in s.actors ==> Next(s, l).actors[b] == s.actors[b]
  {
  }

  lemma RemoveMovesItself(s: State, a: nat, ok: bool, now: int, visible: bool, b: nat)
    requires a in s.actors && s.actors[a].Removing? && s.actors[a].job.status.Encoded?
    ensures var t := AfterRemove(s, a, ok, now, visible);
            && a in t.actors && !t.actors[a].Running?
            && (b != a ==> (b in t.actors <==> b in s.actors))
            && (b != a && b in s.actors ==> t.actors[b] == s.actors[b])
  {
    if !ok {
    } else if IndexOf(s.queue, s.actors[a].id) == |s.queue| {
    } else {
      var cancelled := CancelledJob(s.actors[a].job, now);
      assert AfterRemove(s, a, ok, now, visible).actors == Become(s, a, Updating(cancelled)).actors;
    }
  }

  lemma SendMovesItself(s: State, a: nat, ok: bool, now: int, visible: bool)
    requires a in s.actors && s.actors[a].Sending? && s.actors[a].job.status.Encoded?
    ensures var t := AfterSend(s, a, ok, now, visible);
            a in t.actors && !t.actors[a].Running? && t.actors == s.actors[a := t.actors[a]]
  {
  }

  lemma ProcessorMovesItself(s: State, l: Label, b: nat)
    requires Enabled(s, l) && !ByHandler(l) && (l.FetchCall? ==> b != l.child)
    ensures l.a in Next(s, l).actors && (!l.JobStep? ==> !Next(s, l).actors[l.a].Running?)
    ensures b != l.a ==> (b in Next(s, l).actors <==> b in s.actors)
    ensures b != l.a && b in s.actors ==> Next(s, l).actors[b] == s.actors[b]
  {
    match l {
      case FetchCall(_, _, _, _, _) =>
      case _ =>
    }
  }

  /** An action moves its own actor, and a dispatch brings one new actor; all others stay put. */
  lemma OthersStay(s: State, l: Label, b: nat)
    requires Enabled(s, l) && (l.FetchCall? ==> b != l.child)
    ensures b != l.a ==> (b in Next(s, l).actors <==> b in s.actors)
    ensures b != l.a && b in s.actors ==> Next(s, l).actors[b] == s.actors[b]
    ensures !l.JobStep? ==> l.a in Next(s, l).actors && !Next(s, l).actors[l.a].Running?
  {
    if l.BeginCreate? || l.StoreCall? {
      CreateMovesItself(s, l, b);
    } else if l.EnqueueCall? {
      EnqueueMovesItself(s, l.a, l.ok);
    } else if l.DeleteCall? {
      DeleteMovesItself(s, l.a, l.ok);
    } else if l.RemoveCall? {
      RemoveMovesItself(s, l.a, l.ok, l.now, l.visible, b);
    } else if l.SendCall? {
      SendMovesItself(s, l.a, l.ok, l.now, l.visible);
    } else if ByHandler(l) {
      CancelMovesItself(s, l, b);
    } else {
      ProcessorMovesItself(s, l, b);
    }
  }

  // ---------- Exclusive dispatch ----------

  /**
   * In every reachable state the token of a batch ID is in one place: with one creating handler,
   * one polling loop or one job, or in the queue, or withdrawn by a cancel. No ID is handed to
   * processJob twice, and the queue holds no ID twice.
   */
  lemma ExclusiveDispatch(s: State)
    requires Reachable(s)
    ensures forall i, j :: 0 <= i < j < |s.dispatched| ==> s.dispatched[i] != s.dispatched[j]
    ensures forall i, j :: 0 <= i < j < |s.queue| ==> s.queue[i].id != s.queue[j].id
    ensures forall a, b, id :: HoldsToken(s, a, id) && HoldsToken(s, b, id) ==> a == b
    ensures forall a, id :: HoldsToken(s, a, id) ==> id !in Ids(s.queue) && id !in s.removed
    ensures forall id :: id in s.dispatched ==> id !in Ids(s.queue) && id !in s.removed
    ensures Ids(s.queue) !! s.removed
  {
    ReachableInv(s);
    forall a, id | HoldsToken(s, a, id)
      ensures id in s.place && Owned(s.place[id]) && s.place[id].actor == a
      ensures id !in Ids(s.queue) && id !in s.removed
    {
      TokenPlace(s, a, id);
      assert IdOk(s, id);
    }
    forall id | id in s.place
      ensures id in s.dispatched ==> id !in Ids(s.queue) && id !in s.removed
      ensures id in Ids(s.queue) ==> id !in s.removed
    {
      assert IdOk(s, id);
    }
  }

  // ---------- No created ID disappears ----------

  /** The call that the action makes for the ID, whose token its actor holds, fails. */
  predicate FailsFor(s: State, l: Label, id: JobId) {
    (l.StoreCall? || l.EnqueueCall? || l.PutBackCall?) && !l.ok && HoldsToken(s, l.a, id)
  }

  /** Some Store or Enqueue for the ID failed in the run. */
  ghost predicate CallFailed(s: State, ls: seq<Label>, id: JobId)
    requires ValidRun(s, ls)
    decreases |ls|
  {
    ls != [] && (FailsFor(s, ls[0], id) || CallFailed(Next(s, ls[0]), ls[1..], id))
  }

  /** The creation failed and is rolled back, or was, or a re-enqueue failed. */
  predicate Gone(s: State, id: JobId) {
    id in s.place &&
    match s.place[id]
    case Creating(a) => a in s.actors && s.actors[a].RollingBack?
    case Lost => true
    case Rejected => true
    case _ => false
  }

  /** The ID is on its way: with a creating handler, a polling loop or a job, queued, or withdrawn. */
  ghost predicate Present(s: State, id: JobId) {
    (exists a :: HoldsToken(s, a, id) && !s.actors[a].RollingBack?) || id in Ids(s.queue) || id in s.removed
  }

  lemma PresentUnlessGone(s: State, id: JobId)
    requires Inv(s) && id in s.birth
    ensures Present(s, id) <==> !Gone(s, id)
  {
    assert IdOk(s, id);
    var p := s.place[id];
    if Owned(p) {
      assert HoldsToken(s, p.actor, id) && ActorOk(s, p.actor);
    }
    if a :| HoldsToken(s, a, id) && !s.actors[a].RollingBack? {
      TokenPlace(s, a, id);
    }
  }

  lemma OwnMoveGone(s: State, l: Label, id: JobId)
    requires Inv(s) && Enabled(s, l) && HoldsToken(s, l.a, id)
    ensures Gone(Next(s, l), id) <==> Gone(s, id) || FailsFor(s, l, id)
  {
    TokenPlace(s, l.a, id);
    assert ActorOk(s, l.a);
    match l {
      case StoreCall(_, _) =>
      case EnqueueCall(_, _) =>
      case DeleteCall(_, _) =>
      case FetchCall(_, _, _, _, _) => assert IdOk(s, id);
      case PutBackCall(_, _) =>
      case JobStep(_, _, _) =>
    }
  }

  /** Without the ID's token an action can create the ID, fetch it from the queue, or withdraw it. */
  predicate MovesOn(s: State, l: Label, t: State, id: JobId) {
    if id in s.place then
      At(t, id, s.place[id]) || (s.place[id].Queued? && id in t.place && (t.place[id].Held? || t.place[id].Withdrawn?))
    else id in t.place ==> l.BeginCreate? && At(t, id, Creating(l.a))
  }

  lemma HandlerMovesOn(s: State, l: Label, id: JobId)
    requires KeysOk(s) && Enabled(s, l) && ByHandler(l) && !HoldsToken(s, l.a, id)
    requires l.RemoveCall? ==> s.actors[l.a].job.id == s.actors[l.a].id
    requires id in s.place ==> IdOk(s, id)
    ensures MovesOn(s, l, Next(s, l), id)
  {
    match l {
      case StoreCall(_, _) =>
      case EnqueueCall(_, _) =>
      case DeleteCall(_, _) =>
      case ReadCall(_, _) =>
      case RemoveCall(_, _, _, _) => PresentIff(s.queue, s.actors[l.a].id);
      case SendCall(_, _, _, _) =>
      case _ =>
    }
  }

  lemma ProcessorMovesOn(s: State, l: Label, id: JobId)
    requires KeysOk(s) && Enabled(s, l) && !ByHandler(l) && !HoldsToken(s, l.a, id)
    requires l.FetchCall? && s.actors[l.a].task.id in s.db ==> s.db[s.actors[l.a].task.id].id == s.actors[l.a].task.id
    requires id in s.place ==> IdOk(s, id)
    ensures MovesOn(s, l, Next(s, l), id)
  {
    match l {
      case DequeueCall(_, _) => if s.queue != [] { assert s.queue[0].id in Ids(s.queue); }
      case FetchCall(_, _, _, _, _) =>
      case PutBackCall(_, _) =>
      case _ =>
    }
  }

  lemma OthersMoveGone(s: State, l: Label, id: JobId)
    requires Inv(s) && Enabled(s, l) && !HoldsToken(s, l.a, id)
    ensures Gone(Next(s, l), id) <==> Gone(s, id)
  {
    if l.a in s.actors { assert ActorOk(s, l.a); }
    if ByHandler(l) {
      HandlerMovesOn(s, l, id);
    } else {
      if l.FetchCall? && s.actors[l.a].task.id in s.db { assert IdOk(s, s.actors[l.a].task.id); }
      ProcessorMovesOn(s, l, id);
    }
    if id in s.place && s.place[id].Creating? {
      assert IdOk(s, id) && HoldsToken(s, s.place[id].actor, id);
      OthersStay(s, l, s.place[id].actor);
    }
  }

  lemma {:induction false} RunGone(s: State, ls: seq<Label>, id: JobId)
    requires Inv(s) && ValidRun(s, ls)
    ensures Gone(Exec(s, ls), id) <==> Gone(s, id) || CallFailed(s, ls, id)
    decreases |ls|
  {
    if ls != [] {
      NextInv(s, ls[0]);
      if HoldsToken(s, ls[0].a, id) {
        OwnMoveGone(s, ls[0], id);
      } else {
        OthersMoveGone(s, ls[0], id);
      }
      RunGone(Next(s, ls[0]), ls[1..], id);
    }
  }

  /**
   * A created ID is with a creating handler, a polling loop or a job, or queued, or withdrawn by a
   * cancel, exactly when no Store, Enqueue or re-enqueue made for it in the run failed.
   */
  lemma NothingDisappears(ls: seq<Label>, id: JobId)
    requires ValidRun(START, ls) && id in Exec(START, ls).birth
    ensures Present(Exec(START, ls), id) <==> !CallFailed(START, ls, id)
  {
    RunInv(START, ls);
    RunGone(START, ls, id);
    PresentUnlessGone(Exec(START, ls), id);
  }

  // ---------- Queue within store ----------

  /**
   * The queue is sorted and carries the SLOs of the records. Every queued, fetched or running ID
   * has a record, so a successful Get finds it and the fetched ID itself goes to processJob:
   * a re-enqueue happens only after a failed Get.
   */
  lemma QueueWithinStore(s: State)
    requires Reachable(s)
    ensures Sorted(s.queue)
    ensures forall k :: 0 <= k < |s.queue| ==>
              s.queue[k].id in s.db && s.db[s.queue[k].id].slo == s.queue[k].slo
    ensures Ids(s.queue) <= s.db.Keys
    ensures forall a :: a in s.actors && s.actors[a].Running? ==> s.actors[a].job.id in s.db
    ensures forall a, child, limit, total :: Enabled(s, FetchCall(a, true, child, limit, total)) ==>
              s.actors[a].task.id in s.db
              && Next(s, FetchCall(a, true, child, limit, total)).dispatched == s.dispatched + [s.actors[a].task.id]
  {
    ReachableInv(s);
    forall k | 0 <= k < |s.queue|
      ensures s.queue[k].id in s.db && s.db[s.queue[k].id].slo == s.queue[k].slo
    {
      assert s.queue[k].id in Ids(s.queue) && IdOk(s, s.queue[k].id);
    }
    forall a | a in s.actors
      ensures s.actors[a].Running? ==> s.actors[a].job.id in s.db
      ensures s.actors[a].Fetching? ==>
                s.actors[a].task.id in s.db && s.db[s.actors[a].task.id].id == s.actors[a].task.id
    {
      assert ActorOk(s, a);
      match Token(s.actors[a]) {
        case Some(id) => TokenPlace(s, a, id); assert IdOk(s, id);
        case None =>
      }
    }
  }

  // ---------- Cancel and run exclude each other ----------

  lemma RemoveGrows(s: State, a: nat, ok: bool, now: int, visible: bool)
    requires a in s.actors && s.actors[a].Removing? && s.actors[a].job.status.Encoded?
    ensures s.removed <= AfterRemove(s, a, ok, now, visible).removed
    ensures AfterRemove(s, a, ok, now, visible).dispatched == s.dispatched
  {
  }

  lemma FetchGrows(s: State, a: nat, ok: bool, child: nat, limit: nat, total: nat)
    requires a in s.actors && s.actors[a].Fetching?
    ensures AfterFetch(s, a, ok, child, limit, total).removed == s.removed
    ensures s.dispatched <= AfterFetch(s, a, ok, child, limit, total).dispatched
  {
  }

  lemma NextGrows(s: State, l: Label)
    requires Enabled(s, l)
    ensures s.removed <= Next(s, l).removed && s.dispatched <= Next(s, l).dispatched
  {
    match l {
      case RemoveCall(a, ok, now, visible) => RemoveGrows(s, a, ok, now, visible);
      case FetchCall(a, ok, child, limit, total) => FetchGrows(s, a, ok, child, limit, total);
      case StoreCall(_, _) =>
      case EnqueueCall(_, _) =>
      case DeleteCall(_, _) =>
      case ReadCall(_, _) =>
      case SendCall(_, _, _, _) =>
      case UpdateCall(_, _) =>
      case DequeueCall(_, _) =>
      case PutBackCall(_, _) =>
      case JobStep(_, _, _) =>
      case _ =>
    }
  }

  lemma {:induction false} RunGrows(s: State, ls: seq<Label>)
    requires ValidRun(s, ls)
    ensures s.removed <= Exec(s, ls).removed && s.dispatched <= Exec(s, ls).dispatched
    decreases |ls|
  {
    if ls != [] {
      NextGrows(s, ls[0]);
      RunGrows(Next(s, ls[0]), ls[1..]);
    }
  }

  /**
   * An ID that a cancel took out of the queue is never handed to processJob, neither before
   * nor after; and an ID handed to processJob is never found in the queue by a cancel.
   */
  lemma CancelExcludesRun(s: State, ls: seq<Label>, id: JobId)
    requires Reachable(s) && ValidRun(s, ls)
    ensures id in s.removed ==> id !in Exec(s, ls).dispatched
    ensures id in s.dispatched ==> id !in Exec(s, ls).removed
  {
    RunGrows(s, ls);
    ReachableExec(s, ls);
    ExclusiveDispatch(Exec(s, ls));
  }

  // ---------- The status store ----------

  predicate RunOk(s: State, a: nat) {
    a in s.actors && s.actors[a].Running? ==> ProcessJob.Inv(s.actors[a].run)
  }

  ghost predicate RunsOk(s: State) {
    forall a {:trigger RunOk(s, a)} :: RunOk(s, a)
  }

  lemma NextRunOk(s: State, l: Label, b: nat)
    requires Enabled(s, l) && RunOk(s, b)
    ensures RunOk(Next(s, l), b)
  {
    if b in Next(s, l).actors && Next(s, l).actors[b].Running? {
      if l.FetchCall? && b == l.child {
        ProcessJob.InitInv(l.limit, l.total);
      } else if l.JobStep? && b == l.a {
        ProcessJob.StepInv(s.actors[b].run, l.step);
      } else {
        OthersStay(s, l, b);
      }
    }
  }

  lemma {:induction false} RunRunsOk(s: State, ls: seq<Label>)
    requires RunsOk(s) && ValidRun(s, ls)
    ensures RunsOk(Exec(s, ls))
    decreases |ls|
  {
    if ls != [] {
      forall b ensures RunOk(Next(s, ls[0]), b) {
        assert RunOk(s, b);
        NextRunOk(s, ls[0], b);
      }
      RunRunsOk(Next(s, ls[0]), ls[1..]);
    }
  }

  /** What the job of an ID has written so far. */
  predicate WroteSoFar(log: seq<BatchStatus>, run: ProcessJob.State) {
    && log == run.calls && log <= [InProgress, Validating, Finalizing, Completed]
    && (run.main.Returned? ==> log == [InProgress, Validating, Finalizing, Completed])
    && (Finalizing in log ==> forall i :: 0 <= i < |run.lines| ==> run.lines[i].Gone?)
  }

  lemma CallsOfRun(run: ProcessJob.State)
    requires ProcessJob.Inv(run)
    ensures WroteSoFar(run.calls, run)
  {
    assert run.calls == ProcessJob.WRITES[..|run.calls|];
  }

  lemma WritesOfJob(s: State, a: nat, id: JobId)
    requires Inv(s) && a in s.actors && s.actors[a].Running? && s.actors[a].job.id == id && RunOk(s, a)
    ensures WroteSoFar(Log(s, id), s.actors[a].run)
  {
    assert ActorOk(s, a);
    CallsOfRun(s.actors[a].run);
  }

  lemma LoggedByJob(s: State, id: JobId) returns (a: nat)
    requires Inv(s) && Log(s, id) != []
    ensures a in s.actors && s.actors[a].Running? && s.actors[a].job.id == id
  {
    assert IdOk(s, id);
    a := s.place[id].actor;
    assert HoldsToken(s, a, id) && ActorOk(s, a);
  }

  /**
   * Over a whole run the status writes for one ID, whoever makes them, are an initial part of
   * in_progress, validating, finalizing, completed. There are none without a job for the ID, and
   * otherwise they are those of that job: all four when it has returned normally, and once finalizing
   * has been written all its line goroutines have ended.
   */
  lemma StatusHistory(s: State, id: JobId)
    requires Reachable(s)
    ensures Log(s, id) <= [InProgress, Validating, Finalizing, Completed]
    ensures Log(s, id) != [] ==> exists a :: a in s.actors && s.actors[a].Running? && s.actors[a].job.id == id
    ensures forall a :: a in s.actors && s.actors[a].Running? && s.actors[a].job.id == id ==>
              && Log(s, id) == s.actors[a].run.calls
              && (s.actors[a].run.main.Returned? ==> Log(s, id) == [InProgress, Validating, Finalizing, Completed])
              && (Finalizing in Log(s, id) ==>
                    forall i :: 0 <= i < |s.actors[a].run.lines| ==> s.actors[a].run.lines[i].Gone?)
  {
    ReachableInv(s);
    var ls :| ValidRun(START, ls) && Exec(START, ls) == s;
    RunRunsOk(START, ls);
    if Log(s, id) != [] {
      var a := LoggedByJob(s, id);
      assert RunOk(s, a);
      WritesOfJob(s, a, id);
    }
    forall a | a in s.actors && s.actors[a].Running? && s.actors[a].job.id == id
      ensures WroteSoFar(Log(s, id), s.actors[a].run)
    {
      assert RunOk(s, a);
      WritesOfJob(s, a, id);
    }
  }

  // ---------- The records ----------

  lemma NextBirth(s: State, l: Label, id: JobId)
    requires Enabled(s, l) && id in s.birth
    ensures id in Next(s, l).birth && Next(s, l).birth[id] == s.birth[id]
  {
    match l {
      case BeginCreate(_, _) =>
      case _ =>
    }
  }

  lemma {:induction false} RunBirth(s: State, ls: seq<Label>, id: JobId)
    requires ValidRun(s, ls) && id in s.birth
    ensures id in Exec(s, ls).birth && Exec(s, ls).birth[id] == s.birth[id]
    decreases |ls|
  {
    if ls != [] {
      NextBirth(s, ls[0], id);
      RunBirth(Next(s, ls[0]), ls[1..], id);
    }
  }

  /**
   * ID, SLO, TTL, spec and tags of a record never change while it exists, and its status in the
   * database is only ever validating, cancelling or cancelled: the processor writes back the
   * status it fetched, so completion never shows there.
   */
  lemma RecordsKeepTheirStaticPart(s: State, ls: seq<Label>, id: JobId)
    requires Reachable(s) && ValidRun(s, ls)
    requires id in s.db && id in Exec(s, ls).db
    ensures var was, now := s.db[id], Exec(s, ls).db[id];
            && now.SameStatic(was) && now.tags == was.tags
            && now.StatusOf().Some? && now.StatusOf().value in {Validating, Cancelling, Cancelled}
  {
    ReachableInv(s);
    ReachableExec(s, ls);
    ReachableInv(Exec(s, ls));
    assert IdOk(s, id) && IdOk(Exec(s, ls), id);
    RunBirth(s, ls, id);
  }

  ghost predicate ValidRunWith(s: State, ls: seq<Label>, mode: WriteMode)
    decreases |ls|
  {
    ls == [] || (Enabled(s, ls[0]) && ValidRunWith(Apply(s, ls[0], mode), ls[1..], mode))
  }

  ghost function ExecWith(s: State, ls: seq<Label>, mode: WriteMode): State
    requires ValidRunWith(s, ls, mode)
    decreases |ls|
  {
    if ls == [] then s else ExecWith(Apply(s, ls[0], mode), ls[1..], mode)
  }

  lemma PutsAgree(s: State, job: BatchJob)
    requires Inv(s) && KnownRecord(s, job)
    ensures Put(s.db, job, Merge) == Put(s.db, job, Replace)
  {
    if job.id in s.db {
      assert IdOk(s, job.id);
      assert MergeDynamic(s.db[job.id], job) == job;
    }
  }

  lemma StepsAgree(s: State, l: Label)
    requires Inv(s) && Enabled(s, l)
    ensures Apply(s, l, Merge) == Apply(s, l, Replace)
  {
    if l.UpdateCall? || l.JobStep? {
      assert ActorOk(s, l.a);
      PutsAgree(s, s.actors[l.a].job);
    }
  }

  lemma {:induction false} RunsAgree(s: State, ls: seq<Label>)
    requires Inv(s) && ValidRun(s, ls)
    ensures ValidRunWith(s, ls, Merge) && ExecWith(s, ls, Merge) == Exec(s, ls)
    decreases |ls|
  {
    if ls != [] {
      NextInv(s, ls[0]);
      StepsAgree(s, ls[0]);
      RunsAgree(Next(s, ls[0]), ls[1..]);
    }
  }

  /** Writing whole records, as `Update` does, gives the same runs as the documented merge. */
  lemma UpdateSimulatesMerge(ls: seq<Label>)
    requires ValidRun(START, ls)
    ensures ValidRunWith(START, ls, Merge) && ExecWith(START, ls, Merge) == Exec(START, ls)
  {
    RunsAgree(START, ls);
  }
}
