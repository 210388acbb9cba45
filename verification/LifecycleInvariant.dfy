/** Every action of every actor keeps the lifecycle invariant. */
module LifecycleInvariant {
  import opened Types
  import opened QueueSpec
  import opened StoreSpec
  import opened Lifecycle
  import ProcessJob

  // ---------- Framing: an action touches the token of one ID ----------

  /** Nothing about the ID differs between the two states. */
  predicate Same(s: State, t: State, id: JobId) {
    && id in s.place && At(t, id, s.place[id])
    && id in s.birth && id in t.birth && t.birth[id] == s.birth[id]
    && (id in s.db <==> id in t.db) && (id in s.db ==> t.db[id] == s.db[id])
    && (id in Ids(s.queue) <==> id in Ids(t.queue))
    && (id in s.removed <==> id in t.removed)
    && (id in s.dispatched <==> id in t.dispatched)
    && Log(s, id) == Log(t, id)
  }

  predicate Owned(p: Place) {
    p.Creating? || p.Held? || p.InJob?
  }

  /** From `s` to `t` only the actors in `acting` and the ID `x` change, and a withdrawal is kept. */
  predicate Touches(s: State, t: State, acting: set<nat>, x: JobId) {
    && (forall b :: b in s.actors && b !in acting ==> b in t.actors && t.actors[b] == s.actors[b])
    && t.actors.Keys <= s.actors.Keys + acting
    && t.place.Keys <= s.place.Keys + {x}
    && (forall id {:trigger Same(s, t, id)} :: id in s.place && id != x ==> Same(s, t, id))
    && (x in s.birth ==> x in t.birth && t.birth[x] == s.birth[x])
    && (x in s.place && Owned(s.place[x]) && s.place[x].actor !in acting ==>
          At(t, x, s.place[x]) && (x in s.db <==> x in t.db) && Log(s, x) == Log(t, x))
    && (x in s.place && s.place[x].Withdrawn? ==> At(t, x, s.place[x]))
    && (forall a :: a in acting && a in s.actors ==> Token(s.actors[a]) == None || Token(s.actors[a]) == Some(x))
  }

  /** Whoever holds a token is named by its place. */
  lemma TokenPlace(s: State, b: nat, id: JobId)
    requires Inv(s) && HoldsToken(s, b, id)
    ensures id in s.place && Owned(s.place[id]) && s.place[id].actor == b
  {
    assert ActorOk(s, b);
  }

  lemma KnownKept(s: State, t: State, acting: set<nat>, x: JobId, job: BatchJob)
    requires Inv(s) && Touches(s, t, acting, x) && KnownRecord(s, job)
    ensures KnownRecord(t, job)
  {
    if job.id != x {
      assert Same(s, t, job.id);
    }
  }

  lemma OtherActorOk(s: State, t: State, acting: set<nat>, x: JobId, b: nat)
    requires Inv(s) && Touches(s, t, acting, x) && b in t.actors && b !in acting
    ensures ActorOk(t, b)
  {
    assert b in s.actors && ActorOk(s, b);
    match Token(s.actors[b]) {
      case Some(id) =>
        TokenPlace(s, b, id);
        assert id != x ==> Same(s, t, id);
      case None =>
    }
    match s.actors[b] {
      case Removing(_, job) => KnownKept(s, t, acting, x, job);
      case Sending(_, job) => KnownKept(s, t, acting, x, job);
      case Running(job, _) => KnownKept(s, t, acting, x, job);
      case Updating(job) =>
        KnownKept(s, t, acting, x, job);
        if job.id != x {
          assert Same(s, t, job.id);
        }
      case _ =>
    }
  }

  lemma OtherIdOk(s: State, t: State, acting: set<nat>, x: JobId, id: JobId)
    requires Inv(s) && Touches(s, t, acting, x) && id in t.place && id != x
    ensures IdOk(t, id)
  {
    assert id in s.place && IdOk(s, id) && Same(s, t, id);
    var p := s.place[id];
    if Owned(p) {
      assert HoldsToken(s, p.actor, id);
    }
  }

  /** What is left to check after an action: the acting actors, the touched ID, the queue, the keys. */
  lemma Framed(s: State, t: State, acting: set<nat>, x: JobId)
    requires Inv(s) && Touches(s, t, acting, x)
    requires forall a {:trigger ActorOk(t, a)} :: a in acting && a in t.actors ==> ActorOk(t, a)
    requires x in t.place ==> IdOk(t, x)
    requires KeysOk(t) && QueueOk(t) && DispatchOk(t)
    ensures Inv(t)
  {
    forall b | b in t.actors ensures ActorOk(t, b) {
      if b !in acting { OtherActorOk(s, t, acting, x, b); }
    }
    forall id | id in t.place ensures IdOk(t, id) {
      if id != x { OtherIdOk(s, t, acting, x, id); }
    }
  }

  lemma InsertQueueOk(s: State, t: State, e: Entry)
    requires QueueOk(s) && t.queue == Insert(s.queue, e) && t.birth == s.birth
    requires e.id in s.birth && e.slo == s.birth[e.id].slo && e.id !in Ids(s.queue)
    ensures QueueOk(t) && Ids(t.queue) == Ids(s.queue) + {e.id}
  {
    InsertSorted(s.queue, e);
    InsertIds(s.queue, e);
    InsertAt(s.queue, e);
  }

  lemma WithoutQueueOk(s: State, t: State, id: JobId)
    requires QueueOk(s) && t.queue == Without(s.queue, id) && t.birth == s.birth
    ensures QueueOk(t) && Ids(t.queue) == Ids(s.queue) - {id}
    ensures id in Ids(s.queue) <==> IndexOf(s.queue, id) < |s.queue|
  {
    WithoutSorted(s.queue, id);
    WithoutIds(s.queue, id);
    PresentIff(s.queue, id);
    if IndexOf(s.queue, id) < |s.queue| {
      CutAt(s.queue, IndexOf(s.queue, id));
    }
  }

  lemma TailQueueOk(s: State, t: State)
    requires QueueOk(s) && s.queue != [] && t.queue == s.queue[1..] && t.birth == s.birth
    ensures QueueOk(t) && Ids(t.queue) == Ids(s.queue) - {s.queue[0].id} && s.queue[0].id in Ids(s.queue)
  {
    TailKeeps(s.queue);
  }

  // ---------- Building blocks ----------

  /** Only the actor `a` moves, and it keeps the token it had. */
  lemma MoveInv(s: State, a: nat, actor: Actor)
    requires Inv(s)
    requires if a in s.actors then Token(actor) == Token(s.actors[a]) else Token(actor) == None
    requires ActorOk(Become(s, a, actor), a)
    ensures Inv(Become(s, a, actor))
  {
    var t := Become(s, a, actor);
    forall b | b in t.actors ensures ActorOk(t, b) {
      if b != a { assert ActorOk(s, b); }
    }
    forall id | id in t.place ensures IdOk(t, id) {
      assert IdOk(s, id);
    }
  }

  /** A record of a known ID may replace the stored one. */
  predicate Writable(s: State, job: BatchJob) {
    && KnownRecord(s, job) && job.id in s.db
    && (job.status.value.status == Cancelled ==> At(s, job.id, Withdrawn(job)))
  }

  lemma WriteIdOk(s: State, job: BatchJob, id: JobId)
    requires id in s.place && IdOk(s, id) && Writable(s, job)
    ensures IdOk(s.(db := s.db[job.id := job]), id)
  {
  }

  lemma WriteInv(s: State, job: BatchJob)
    requires Inv(s) && Writable(s, job)
    ensures Inv(s.(db := s.db[job.id := job]))
  {
    var t := s.(db := s.db[job.id := job]);
    forall b | b in t.actors ensures ActorOk(t, b) {
      assert ActorOk(s, b);
    }
    forall id | id in t.place ensures IdOk(t, id) {
      assert IdOk(s, id);
      WriteIdOk(s, job, id);
    }
  }

  /** The token of an entry's ID goes from an actor into the queue. */
  predicate CanQueue(s: State, a: nat, actor: Actor, e: Entry) {
    && HoldsToken(s, a, e.id) && (actor.Finished? || actor.Polling?)
    && e.id in s.db && e.id in s.birth && e.slo == s.birth[e.id].slo
    && !s.actors[a].Running?
  }

  function Requeued(s: State, a: nat, actor: Actor, e: Entry): State {
    Become(s, a, actor).(queue := Insert(s.queue, e), place := s.place[e.id := Queued])
  }

  lemma RequeueTouches(s: State, a: nat, actor: Actor, e: Entry)
    requires Inv(s) && CanQueue(s, a, actor, e)
    ensures Touches(s, Requeued(s, a, actor, e), {a}, e.id)
  {
    assert ActorOk(s, a) && IdOk(s, e.id);
    InsertQueueOk(s, Requeued(s, a, actor, e), e);
  }

  lemma IntoQueueInv(s: State, a: nat, actor: Actor, e: Entry)
    requires Inv(s) && CanQueue(s, a, actor, e)
    ensures Inv(Requeued(s, a, actor, e))
  {
    var t := Requeued(s, a, actor, e);
    assert ActorOk(s, a) && IdOk(s, e.id);
    InsertQueueOk(s, t, e);
    RequeueTouches(s, a, actor, e);
    assert IdOk(t, e.id) && KeysOk(t);
    Framed(s, t, {a}, e.id);
  }

  // ---------- CreateBatch ----------

  lemma BeginCreateInv(s: State, a: nat, job: BatchJob)
    requires Inv(s) && a !in s.actors && job.id !in s.birth && NewRecord(job)
    ensures Inv(AfterBeginCreate(s, a, job))
  {
    Framed(s, AfterBeginCreate(s, a, job), {a}, job.id);
  }

  lemma StoreTouches(s: State, a: nat, ok: bool)
    requires Inv(s) && a in s.actors && s.actors[a].Storing?
    ensures Touches(s, AfterStore(s, a, ok), {a}, s.actors[a].job.id)
  {
    assert ActorOk(s, a) && IdOk(s, s.actors[a].job.id);
  }

  lemma StoreInv(s: State, a: nat, ok: bool)
    requires Inv(s) && a in s.actors && s.actors[a].Storing?
    ensures Inv(AfterStore(s, a, ok))
  {
    var x := s.actors[a].job.id;
    assert ActorOk(s, a) && IdOk(s, x);
    StoreTouches(s, a, ok);
    assert IdOk(AfterStore(s, a, ok), x);
    Framed(s, AfterStore(s, a, ok), {a}, x);
  }

  lemma EnqueueInv(s: State, a: nat, ok: bool)
    requires Inv(s) && a in s.actors && s.actors[a].Enqueuing?
    ensures Inv(AfterEnqueue(s, a, ok))
  {
    var t := AfterEnqueue(s, a, ok);
    var x := s.actors[a].job.id;
    assert ActorOk(s, a) && IdOk(s, x);
    if ok {
      IntoQueueInv(s, a, Finished, BatchJobPriority(x, s.actors[a].job.slo));
    } else {
      MoveInv(s, a, RollingBack(s.actors[a].job));
    }
  }

  lemma DeleteInv(s: State, a: nat, ok: bool)
    requires Inv(s) && a in s.actors && s.actors[a].RollingBack?
    ensures Inv(AfterDelete(s, a, ok))
  {
    var x := s.actors[a].job.id;
    assert ActorOk(s, a) && IdOk(s, x);
    Framed(s, AfterDelete(s, a, ok), {a}, x);
  }

  // ---------- CancelBatch ----------

  lemma ReadInv(s: State, a: nat, ok: bool)
    requires Inv(s) && a in s.actors && s.actors[a].Reading?
    ensures Inv(AfterRead(s, a, ok))
  {
    var id := s.actors[a].id;
    if ok && id in s.db && Cancellable(s.db[id]) {
      assert IdOk(s, id);
      MoveInv(s, a, Removing(id, s.db[id]));
    } else {
      MoveInv(s, a, Finished);
    }
  }

  /** The ID leaves the queue for good. */
  lemma WithdrawInv(s: State, a: nat, id: JobId, job: BatchJob)
    requires Inv(s) && a in s.actors && Token(s.actors[a]) == None && id in Ids(s.queue)
    requires KnownRecord(s, job) && job.id == id && job.status.value.status == Cancelled
    ensures Inv(Become(s, a, Updating(job)).(queue := Without(s.queue, id), removed := s.removed + {id},
                                             place := s.place[id := Withdrawn(job)]))
  {
    var t := Become(s, a, Updating(job)).(queue := Without(s.queue, id), removed := s.removed + {id},
                                          place := s.place[id := Withdrawn(job)]);
    assert IdOk(s, id);
    WithoutQueueOk(s, t, id);
    Framed(s, t, {a}, id);
  }

  lemma RemoveInv(s: State, a: nat, ok: bool, now: int, visible: bool)
    requires Inv(s) && a in s.actors && s.actors[a].Removing? && s.actors[a].job.status.Encoded?
    ensures Inv(AfterRemove(s, a, ok, now, visible))
  {
    var id, job := s.actors[a].id, s.actors[a].job;
    assert ActorOk(s, a);
    PresentIff(s.queue, id);
    if !ok {
      MoveInv(s, a, Finished);
    } else if id !in Ids(s.queue) {
      MoveInv(s, a, Sending(id, job));
    } else {
      var cancelled := CancelledJob(job, now);
      WithdrawInv(s, a, id, cancelled);
      var t := Become(s, a, Updating(cancelled)).(queue := Without(s.queue, id), removed := s.removed + {id},
                                                  place := s.place[id := Withdrawn(cancelled)]);
      if visible && id in s.db {
        WriteInv(t, cancelled);
        assert AfterRemove(s, a, ok, now, visible) == t.(db := t.db[id := cancelled]);
      } else {
        assert AfterRemove(s, a, ok, now, visible) == t;
      }
    }
  }

  lemma SendInv(s: State, a: nat, ok: bool, now: int, visible: bool)
    requires Inv(s) && a in s.actors && s.actors[a].Sending? && s.actors[a].job.status.Encoded?
    ensures Inv(AfterSend(s, a, ok, now, visible))
  {
    assert ActorOk(s, a);
    if !ok {
      MoveInv(s, a, Finished);
    } else {
      var cancelling := CancellingJob(s.actors[a].job, now);
      MoveInv(s, a, Updating(cancelling));
      if visible && cancelling.id in s.db {
        WriteInv(Become(s, a, Updating(cancelling)), cancelling);
      }
    }
  }

  lemma UpdateInv(s: State, a: nat, ok: bool)
    requires Inv(s) && a in s.actors && s.actors[a].Updating?
    ensures Inv(AfterUpdate(s, a, ok, Replace))
  {
    var job := s.actors[a].job;
    assert ActorOk(s, a);
    MoveInv(s, a, Finished);
    if ok && job.id in s.db {
      WriteInv(Become(s, a, Finished), job);
    }
  }

  // ---------- The polling loop and the job ----------

  lemma DequeueTouches(s: State, a: nat)
    requires Inv(s) && a in s.actors && s.actors[a].Polling? && s.queue != []
    ensures Touches(s, AfterDequeue(s, a, true), {a}, s.queue[0].id)
  {
    TailQueueOk(s, AfterDequeue(s, a, true));
    assert IdOk(s, s.queue[0].id);
  }

  lemma DequeueInv(s: State, a: nat, ok: bool)
    requires Inv(s) && a in s.actors && s.actors[a].Polling?
    ensures Inv(AfterDequeue(s, a, ok))
  {
    if ok && s.queue != [] {
      var t := AfterDequeue(s, a, ok);
      TailQueueOk(s, t);
      var x := s.queue[0].id;
      assert IdOk(s, x);
      DequeueTouches(s, a);
      assert ActorOk(t, a) && IdOk(t, x) && KeysOk(t);
      Framed(s, t, {a}, x);
    }
  }

  lemma DispatchTouches(s: State, a: nat, child: nat, limit: nat, total: nat)
    requires Inv(s) && a in s.actors && s.actors[a].Fetching? && child !in s.actors
    requires s.actors[a].task.id in s.db
    ensures Touches(s, AfterFetch(s, a, true, child, limit, total), {a, child}, s.actors[a].task.id)
  {
    assert ActorOk(s, a) && IdOk(s, s.actors[a].task.id);
  }

  lemma DispatchActorsOk(s: State, a: nat, child: nat, limit: nat, total: nat)
    requires Inv(s) && a in s.actors && s.actors[a].Fetching? && child !in s.actors
    requires s.actors[a].task.id in s.db
    ensures ActorOk(AfterFetch(s, a, true, child, limit, total), a)
    ensures ActorOk(AfterFetch(s, a, true, child, limit, total), child)
  {
    assert ActorOk(s, a) && IdOk(s, s.actors[a].task.id);
  }

  lemma DispatchIdOk(s: State, a: nat, child: nat, limit: nat, total: nat)
    requires Inv(s) && a in s.actors && s.actors[a].Fetching? && child !in s.actors
    requires s.actors[a].task.id in s.db
    ensures var t := AfterFetch(s, a, true, child, limit, total);
            s.actors[a].task.id in t.place && IdOk(t, s.actors[a].task.id)
  {
    assert ActorOk(s, a) && IdOk(s, s.actors[a].task.id);
  }

  lemma DispatchInv(s: State, a: nat, child: nat, limit: nat, total: nat)
    requires Inv(s) && a in s.actors && s.actors[a].Fetching? && child !in s.actors
    requires s.actors[a].task.id in s.db
    ensures Inv(AfterFetch(s, a, true, child, limit, total))
  {
    var t := AfterFetch(s, a, true, child, limit, total);
    var x := s.actors[a].task.id;
    DispatchTouches(s, a, child, limit, total);
    DispatchActorsOk(s, a, child, limit, total);
    assert ActorOk(s, a) && IdOk(s, x);
    DispatchIdOk(s, a, child, limit, total);
    assert DispatchOk(t) && KeysOk(t);
    Framed(s, t, {a, child}, x);
  }

  lemma FetchInv(s: State, a: nat, ok: bool, child: nat, limit: nat, total: nat)
    requires Inv(s) && a in s.actors && s.actors[a].Fetching? && child !in s.actors
    ensures Inv(AfterFetch(s, a, ok, child, limit, total))
  {
    if ok && s.actors[a].task.id in s.db {
      DispatchInv(s, a, child, limit, total);
    } else {
      assert ActorOk(s, a);
      MoveInv(s, a, PuttingBack(s.actors[a].task));
    }
  }

  lemma PutBackInv(s: State, a: nat, ok: bool)
    requires Inv(s) && a in s.actors && s.actors[a].PuttingBack?
    ensures Inv(AfterPutBack(s, a, ok))
  {
    var t := AfterPutBack(s, a, ok);
    var x := s.actors[a].task.id;
    assert ActorOk(s, a) && IdOk(s, x);
    if ok {
      IntoQueueInv(s, a, Polling, s.actors[a].task);
    } else {
      Framed(s, t, {a}, x);
    }
  }

  lemma JobStepInv(s: State, a: nat, next: ProcessJob.State, wrote: bool)
    requires Inv(s) && a in s.actors && s.actors[a].Running? && s.actors[a].run.calls <= next.calls
    ensures Inv(AfterJobStep(s, a, next, wrote, Replace))
  {
    var job := s.actors[a].job;
    assert ActorOk(s, a) && IdOk(s, job.id);
    Framed(s, AfterJobStep(s, a, next, false, Replace), {a}, job.id);
    if wrote && job.id in s.db {
      WriteInv(AfterJobStep(s, a, next, false, Replace), job);
    }
  }

  // ---------- All actions, all runs ----------

  lemma NextInv(s: State, l: Label)
    requires Inv(s) && Enabled(s, l)
    ensures Inv(Next(s, l))
  {
    match l {
      case BeginCreate(a, job) => BeginCreateInv(s, a, job);
      case StoreCall(a, ok) => StoreInv(s, a, ok);
      case EnqueueCall(a, ok) => EnqueueInv(s, a, ok);
      case DeleteCall(a, ok) => DeleteInv(s, a, ok);
      case BeginCancel(a, id) => MoveInv(s, a, Reading(id));
      case ReadCall(a, ok) => ReadInv(s, a, ok);
      case RemoveCall(a, ok, now, visible) => RemoveInv(s, a, ok, now, visible);
      case SendCall(a, ok, now, visible) => SendInv(s, a, ok, now, visible);
      case UpdateCall(a, ok) => UpdateInv(s, a, ok);
      case BeginPoll(a) => MoveInv(s, a, Polling);
      case DequeueCall(a, ok) => DequeueInv(s, a, ok);
      case FetchCall(a, ok, child, limit, total) => FetchInv(s, a, ok, child, limit, total);
      case PutBackCall(a, ok) => PutBackInv(s, a, ok);
      case JobStep(a, step, ok) =>
        CallsGrow(s.actors[a].run, step);
        JobStepInv(s, a, ProcessJob.Apply(s.actors[a].run, step), step.Update? && ok);
    }
  }

  lemma {:induction false} RunInv(s: State, ls: seq<Label>)
    requires Inv(s) && ValidRun(s, ls)
    ensures Inv(Exec(s, ls))
    decreases |ls|
  {
    if ls != [] {
      NextInv(s, ls[0]);
      RunInv(Next(s, ls[0]), ls[1..]);
    }
  }

  lemma ReachableInv(s: State)
    requires Reachable(s)
    ensures Inv(s)
  {
    var ls :| ValidRun(START, ls) && Exec(START, ls) == s;
    RunInv(START, ls);
  }
}
