/**
 * The handlers that create and cancel batches, as sequences of client calls. A fault says that
 * the client call fails without effect. Run alone, a handler does what one actor of the
 * lifecycle does; interleaved with others, it is that actor.
 */
module Handlers {
  import opened Types
  import opened QueueSpec
  import opened Lifecycle
  import opened LifecycleTheorems
  import opened JobStore
  import opened StoreSpec
  import MQ = MockQueue
  import EC = EventChannels

  datatype Response = Accepted | BadRequest | NotFound | InternalError

  datatype CreateFaults = CreateFaults(store: bool, enqueue: bool, delete: bool)

  datatype CancelFaults = CancelFaults(get: bool, remove: bool, send: bool, update: bool)

  /** Database, queue and answer after a handler. */
  datatype Effect = Effect(db: map<JobId, BatchJob>, queue: seq<Entry>, response: Response)

  function CreateEffect(db: map<JobId, BatchJob>, queue: seq<Entry>, job: BatchJob, f: CreateFaults): Effect {
    if f.store then Effect(db, queue, InternalError)
    else if !f.enqueue then
      Effect(db[job.id := job], Insert(queue, BatchJobPriority(job.id, job.slo)), Accepted)
    else if f.delete then Effect(db[job.id := job], queue, InternalError)
    else Effect(db[job.id := job] - {job.id}, queue, InternalError)
  }

  /** The cancel event is sent when the ID is not in the queue. */
  predicate SendsEvent(db: map<JobId, BatchJob>, queue: seq<Entry>, id: JobId, f: CancelFaults) {
    id != "" && !f.get && id in db && Cancellable(db[id]) && !f.remove && id !in Ids(queue) && !f.send
  }

  /** The record that CancelBatch writes for a batch that may be cancelled, unless a call fails before. */
  function MarkedRecord(queue: seq<Entry>, job: BatchJob, now: int, f: CancelFaults): Option<BatchJob>
    requires job.status.Encoded?
  {
    if f.remove then None
    else if job.id in Ids(queue) then Some(CancelledJob(job, now))
    else if f.send then None
    else Some(CancellingJob(job, now))
  }

  /** The second half of CancelBatch. */
  function MarkEffect(db: map<JobId, BatchJob>, queue: seq<Entry>, job: BatchJob, now: int, f: CancelFaults): Effect
    requires job.status.Encoded?
  {
    var rest := if f.remove then queue else Without(queue, job.id);
    match MarkedRecord(queue, job, now, f)
    case None => Effect(db, rest, InternalError)
    case Some(marked) =>
      if f.update then Effect(db, rest, InternalError) else Effect(Put(db, marked, Replace), rest, Accepted)
  }

  function CancelEffect(db: map<JobId, BatchJob>, queue: seq<Entry>, id: JobId, now: int, f: CancelFaults): Effect {
    if id == "" then Effect(db, queue, BadRequest)
    else if f.get then Effect(db, queue, InternalError)
    else if id !in db then Effect(db, queue, NotFound)
    else if db[id].StatusOf().None? then Effect(db, queue, InternalError)
    else if db[id].StatusOf().value.IsFinal() then Effect(db, queue, BadRequest)
    else MarkEffect(db, queue, db[id], now, f)
  }

  /** Which requests CancelBatch refuses, which it accepts, and what becomes of the queue. */
  lemma CancelAnswers(db: map<JobId, BatchJob>, q: seq<Entry>, id: JobId, now: int, f: CancelFaults)
    ensures var e := CancelEffect(db, q, id, now, f);
            var known := id != "" && !f.get && id in db;
            var final := known && db[id].StatusOf().Some?
                         && db[id].StatusOf().value in {Completed, Failed, Expired, Cancelled};
            var goesOn := known && db[id].StatusOf().Some? && !final && !f.remove;
            && (e.response == BadRequest <==> id == "" || final)
            && (e.response == NotFound <==> id != "" && !f.get && id !in db)
            && (known && db[id].id == id ==>
                  (e.response == Accepted <==> goesOn && (id in Ids(q) || !f.send) && !f.update))
            && (!known ==> e.response != Accepted)
            && (e.queue == if goesOn then Without(q, db[id].id) else q)
  {
  }

  /** What CancelBatch writes, if it accepts. */
  lemma CancelWrites(db: map<JobId, BatchJob>, q: seq<Entry>, id: JobId, now: int, f: CancelFaults)
    requires KeysMatch(db)
    ensures var e := CancelEffect(db, q, id, now, f);
            && (e.response != Accepted ==> e.db == db)
            && (e.response == Accepted ==>
                  && id in db && id in e.db && e.db == db[id := e.db[id]]
                  && e.db[id].SameStatic(db[id]) && e.db[id].status.Encoded?)
            && (e.response == Accepted && id in Ids(q) ==>
                  e.db[id].StatusOf() == Some(Cancelled) && e.db[id].status.value.cancelledAt == Some(now))
            && (e.response == Accepted && id !in Ids(q) ==>
                  e.db[id].StatusOf() == Some(Cancelling) && e.db[id].status.value.cancellingAt == Some(now))
  {
  }

  /** What becomes of the queue without the ID. */
  lemma WithoutMeans(q: seq<Entry>, id: JobId)
    ensures id !in Ids(q) ==> Without(q, id) == q
    ensures id in Ids(q) ==> |Without(q, id)| == |q| - 1
    ensures Sorted(q) ==> Sorted(Without(q, id))
    ensures DistinctIds(q) ==> Ids(Without(q, id)) == Ids(q) - {id}
  {
    PresentIff(q, id);
    if Sorted(q) { WithoutSorted(q, id); }
    if DistinctIds(q) { WithoutIds(q, id); }
  }

  class BatchApiHandler {
    const dbClient: MockBatchDBClient
    const queueClient: MQ.MockBatchPriorityQueueClient
    const eventClient: EC.MockBatchEventChannelClient
    const ttlSeconds: int

    ghost predicate Valid()
      reads dbClient, queueClient, eventClient
    {
      dbClient.Valid() && queueClient.Valid() && !queueClient.locked && eventClient.Valid()
    }

    constructor (db: MockBatchDBClient, queue: MQ.MockBatchPriorityQueueClient, events: EC.MockBatchEventChannelClient,
                 ttlSeconds: int)
      requires db.Valid() && queue.Valid() && !queue.locked && events.Valid()
      ensures Valid() && dbClient == db && queueClient == queue && eventClient == events
    {
      dbClient, queueClient, eventClient, this.ttlSeconds := db, queue, events, ttlSeconds;
    }

    /** The client calls: store, enqueue, and delete again when the enqueue failed. */
    method CreateCalls(job: BatchJob, f: CreateFaults) returns (r: Response)
      requires Valid()
      modifies dbClient, queueClient, queueClient.buf
      ensures Valid()
      ensures Effect(dbClient.jobs, queueClient.Contents(), r)
              == CreateEffect(old(dbClient.jobs), old(queueClient.Contents()), job, f)
    {
      if f.store {
        return InternalError;
      }
      var _ := dbClient.Store(job);
      if f.enqueue {
        if !f.delete {
          var _ := dbClient.Delete([job.id]);
          assert IdSet([job.id]) == {job.id};
        }
        return InternalError;
      }
      queueClient.Enqueue(BatchJobPriority(job.id, job.slo));
      return Accepted;
    }

    /**
     * An accepted batch is stored and queued. When the enqueue fails the record is deleted again, unless
     * that fails too; when the store fails nothing changes.
     */
    method CreateBatch(job: BatchJob, f: CreateFaults) returns (r: Response)
      requires Valid()
      modifies dbClient, queueClient, queueClient.buf
      ensures Valid()
      ensures Effect(dbClient.jobs, queueClient.Contents(), r)
              == CreateEffect(old(dbClient.jobs), old(queueClient.Contents()), job, f)
      ensures r == if f.store || f.enqueue then InternalError else Accepted
      ensures f.store ==> dbClient.jobs == old(dbClient.jobs)
      ensures f.store || f.enqueue ==> queueClient.Contents() == old(queueClient.Contents())
      ensures !f.store && (!f.enqueue || f.delete) ==> dbClient.jobs == old(dbClient.jobs)[job.id := job]
      ensures !f.store && f.enqueue && !f.delete ==> dbClient.jobs == old(dbClient.jobs) - {job.id}
      ensures !f.store && !f.enqueue ==>
                && multiset(queueClient.Contents())
                   == multiset(old(queueClient.Contents())) + multiset{BatchJobPriority(job.id, job.slo)}
                && (Sorted(old(queueClient.Contents())) ==> Sorted(queueClient.Contents()))
    {
      InsertBag(queueClient.Contents(), BatchJobPriority(job.id, job.slo));
      if Sorted(queueClient.Contents()) {
        InsertSorted(queueClient.Contents(), BatchJobPriority(job.id, job.slo));
      }
      r := CreateCalls(job, f);
    }

    /** Get by one ID, with limit 1. */
    method ReadRecord(id: JobId) returns (job: Option<BatchJob>)
      requires Valid()
      ensures job == if id in dbClient.jobs then Some(dbClient.jobs[id]) else None
    {
      var jobs := dbClient.Get([id], 1);
      assert jobs == Found(dbClient.jobs, [id]) && Found(dbClient.jobs, [id][..0]) == [];
      job := if |jobs| == 0 then None else Some(jobs[0]);
    }

    /** The event part of CancelBatch, for a batch that is not in the queue. */
    method SendCancelEvent(id: JobId)
      requires Valid()
      modifies eventClient
      ensures Valid()
      ensures eventClient.Contents()
              == EC.SendAll(old(eventClient.Contents()), [EC.Event(id, EC.CancelEvent, ttlSeconds)])
    {
      var _, ok := eventClient.ProducerSendEvents([EC.Event(id, EC.CancelEvent, ttlSeconds)], _ => false);
    }

    /** Remove from the queue, or send the event: the record to write, unless a call failed. */
    method RemoveOrNotify(job: BatchJob, now: int, f: CancelFaults) returns (marked: Option<BatchJob>)
      requires Valid() && job.status.Encoded?
      modifies queueClient, queueClient.buf, eventClient
      ensures Valid()
      ensures marked == MarkedRecord(old(queueClient.Contents()), job, now, f)
      ensures queueClient.Contents()
              == if f.remove then old(queueClient.Contents()) else Without(old(queueClient.Contents()), job.id)
      ensures eventClient.Contents() ==
              if !f.remove && job.id !in Ids(old(queueClient.Contents())) && !f.send
              then EC.SendAll(old(eventClient.Contents()), [EC.Event(job.id, EC.CancelEvent, ttlSeconds)])
              else old(eventClient.Contents())
    {
      if f.remove {
        return None;
      }
      var removed := queueClient.Remove(job.id);
      PresentIff(old(queueClient.Contents()), job.id);
      if removed > 0 {
        return Some(CancelledJob(job, now));
      }
      if f.send {
        return None;
      }
      SendCancelEvent(job.id);
      return Some(CancellingJob(job, now));
    }

    /** The client calls: read, check, remove from the queue, or send the event, then write the new status. */
    method CancelCalls(id: JobId, now: int, f: CancelFaults) returns (r: Response)
      requires Valid()
      modifies dbClient, queueClient, queueClient.buf, eventClient
      ensures Valid()
      ensures Effect(dbClient.jobs, queueClient.Contents(), r)
              == CancelEffect(old(dbClient.jobs), old(queueClient.Contents()), id, now, f)
      ensures eventClient.Contents() ==
              if SendsEvent(old(dbClient.jobs), old(queueClient.Contents()), id, f)
              then EC.SendAll(old(eventClient.Contents()), [EC.Event(id, EC.CancelEvent, ttlSeconds)])
              else old(eventClient.Contents())
    {
      if id == "" {
        return BadRequest;
      }
      if f.get {
        return InternalError;
      }
      var record := ReadRecord(id);
      if record.None? {
        return NotFound;
      }
      var job := record.value;
      if job.StatusOf().None? {
        return InternalError;
      }
      if job.StatusOf().value.IsFinal() {
        return BadRequest;
      }
      var marked := RemoveOrNotify(job, now, f);
      if marked.None? || f.update {
        return InternalError;
      }
      var _ := dbClient.Update(marked.value);
      return Accepted;
    }

    /**
     * A queued batch that may be cancelled leaves the queue and becomes cancelled, without an event;
     * one that is not queued becomes cancelling, and its consumers get one cancel event. A final or
     * missing batch is refused, and a failing call leaves the record as it was.
     */
    method CancelBatch(id: JobId, now: int, f: CancelFaults) returns (r: Response)
      requires Valid()
      modifies dbClient, queueClient, queueClient.buf, eventClient
      ensures Valid()
      ensures Effect(dbClient.jobs, queueClient.Contents(), r)
              == CancelEffect(old(dbClient.jobs), old(queueClient.Contents()), id, now, f)
      ensures var db, q := old(dbClient.jobs), old(queueClient.Contents());
              var known := id != "" && !f.get && id in db;
              var final := known && db[id].StatusOf().Some?
                           && db[id].StatusOf().value in {Completed, Failed, Expired, Cancelled};
              var goesOn := known && db[id].StatusOf().Some? && !final && !f.remove;
              && (r == BadRequest <==> id == "" || final) && (r == NotFound <==> id != "" && !f.get && id !in db)
              && (r == Accepted <==> goesOn && (id in Ids(q) || !f.send) && !f.update)
              && (!goesOn || id !in Ids(q) ==> queueClient.Contents() == q)
              && (goesOn && id in Ids(q) ==>
                    && |queueClient.Contents()| == |q| - 1 && (Sorted(q) ==> Sorted(queueClient.Contents()))
                    && (DistinctIds(q) ==> Ids(queueClient.Contents()) == Ids(q) - {id}))
      ensures r != Accepted ==> dbClient.jobs == old(dbClient.jobs)
      ensures r == Accepted ==>
                && id in old(dbClient.jobs) && id in dbClient.jobs
                && dbClient.jobs == old(dbClient.jobs)[id := dbClient.jobs[id]]
                && dbClient.jobs[id].SameStatic(old(dbClient.jobs)[id]) && dbClient.jobs[id].status.Encoded?
      ensures r == Accepted && id in Ids(old(queueClient.Contents())) ==>
                && dbClient.jobs[id].StatusOf() == Some(Cancelled)
                && dbClient.jobs[id].status.value.cancelledAt == Some(now)
      ensures r == Accepted && id !in Ids(old(queueClient.Contents())) ==>
                && dbClient.jobs[id].StatusOf() == Some(Cancelling)
                && dbClient.jobs[id].status.value.cancellingAt == Some(now)
      ensures eventClient.channels == old(eventClient.channels) && |eventClient.chans| == |old(eventClient.chans)|
      ensures var db, chans := old(dbClient.jobs), old(eventClient.chans);
              var sends := id != "" && !f.get && id in db && db[id].StatusOf().Some?
                           && db[id].StatusOf().value !in {Completed, Failed, Expired, Cancelled}
                           && !f.remove && id !in Ids(old(queueClient.Contents())) && !f.send;
              forall h: nat :: h < |chans| ==>
                eventClient.chans[h] ==
                if sends && chans[h].id == id && EC.IsRegistered(old(eventClient.Contents()), h)
                   && |chans[h].buffer| < 100
                then chans[h].(buffer := chans[h].buffer + [EC.Event(id, EC.CancelEvent, ttlSeconds)])
                else chans[h]
    {
      ghost var db, q, events := dbClient.jobs, queueClient.Contents(), eventClient.Contents();
      CancelAnswers(db, q, id, now, f);
      CancelWrites(db, q, id, now, f);
      WithoutMeans(q, id);
      EC.SendOneDelivers(events, EC.Event(id, EC.CancelEvent, ttlSeconds));
      r := CancelCalls(id, now, f);
    }
  }

  // ---------- A handler run alone is a run of the lifecycle ----------

  /** The labels all belong to one actor. */
  predicate ByActor(ls: seq<Label>, a: nat) {
    forall i :: 0 <= i < |ls| ==> ls[i].a == a
  }

  /**
   * From `s` the actor `a` alone, all of whose calls go as `goes` says, runs to its end and leaves
   * this database and queue behind.
   */
  ghost predicate Completes(s: State, a: nat, goes: Label -> bool, e: Effect) {
    exists ls :: Follows(ls, a, goes) && ValidRun(s, ls) && EndsWith(Exec(s, ls), a, e)
  }

  predicate Follows(ls: seq<Label>, a: nat, goes: Label -> bool) {
    ByActor(ls, a) && forall i :: 0 <= i < |ls| ==> goes(ls[i])
  }

  predicate EndsWith(s: State, a: nat, e: Effect) {
    a in s.actors && s.actors[a] == Finished && s.db == e.db && s.queue == e.queue
  }

  /** The calls of CreateBatch fail as the faults say. */
  function CreateGoes(job: BatchJob, f: CreateFaults): Label -> bool {
    (l: Label) =>
      match l
      case BeginCreate(_, j) => j == job
      case StoreCall(_, ok) => ok == !f.store
      case EnqueueCall(_, ok) => ok == !f.enqueue
      case DeleteCall(_, ok) => ok == !f.delete
      case _ => false
  }

  /** The calls of CancelBatch fail as the faults say, and the clock shows `now`. */
  function CancelGoes(id: JobId, now: int, f: CancelFaults): Label -> bool {
    (l: Label) =>
      match l
      case BeginCancel(_, i) => i == id
      case ReadCall(_, ok) => ok == !f.get
      case RemoveCall(_, ok, clock, visible) => ok == !f.remove && clock == now && !visible
      case SendCall(_, ok, clock, visible) => ok == !f.send && clock == now && !visible
      case UpdateCall(_, ok) => ok == !f.update
      case _ => false
  }

  lemma EndsHere(s: State, a: nat, goes: Label -> bool, e: Effect)
    requires EndsWith(s, a, e)
    ensures Completes(s, a, goes, e)
  {
    assert Follows([], a, goes) && ValidRun(s, []) && Exec(s, []) == s;
  }

  lemma CallLeads(s: State, l: Label, goes: Label -> bool, e: Effect)
    requires Enabled(s, l) && goes(l) && Completes(Next(s, l), l.a, goes, e)
    ensures Completes(s, l.a, goes, e)
  {
    var rest :| Follows(rest, l.a, goes) && ValidRun(Next(s, l), rest) && EndsWith(Exec(Next(s, l), rest), l.a, e);
    var ls := [l] + rest;
    RunCons(s, l, rest);
    assert Follows(ls, l.a, goes);
  }

  /** The end of a creation: the enqueue, and the rollback when it fails. */
  lemma EnqueuingEnds(s: State, a: nat, job: BatchJob, f: CreateFaults, e: Effect)
    requires a in s.actors && s.actors[a] == Enqueuing(job)
    requires e.db == if f.enqueue && !f.delete then s.db - {job.id} else s.db
    requires e.queue == if f.enqueue then s.queue else Insert(s.queue, BatchJobPriority(job.id, job.slo))
    ensures Completes(s, a, CreateGoes(job, f), e)
  {
    var goes := CreateGoes(job, f);
    var t := Next(s, EnqueueCall(a, !f.enqueue));
    if f.enqueue {
      EndsHere(Next(t, DeleteCall(a, !f.delete)), a, goes, e);
      CallLeads(t, DeleteCall(a, !f.delete), goes, e);
    } else {
      EndsHere(t, a, goes, e);
    }
    CallLeads(s, EnqueueCall(a, !f.enqueue), goes, e);
  }

  /** What CreateBatch does alone is a whole run of one creating actor with the same failing calls. */
  lemma CreateIsALifecycleRun(s: State, a: nat, job: BatchJob, f: CreateFaults)
    requires Enabled(s, BeginCreate(a, job))
    ensures Completes(s, a, CreateGoes(job, f), CreateEffect(s.db, s.queue, job, f))
  {
    var e, goes := CreateEffect(s.db, s.queue, job, f), CreateGoes(job, f);
    var t := Next(s, BeginCreate(a, job));
    var u := Next(t, StoreCall(a, !f.store));
    if f.store {
      EndsHere(u, a, goes, e);
    } else {
      EnqueuingEnds(u, a, job, f, e);
    }
    CallLeads(t, StoreCall(a, !f.store), goes, e);
    CallLeads(s, BeginCreate(a, job), goes, e);
  }

  /** The end of a cancel: the write of the new status. */
  lemma UpdateEnds(s: State, a: nat, id: JobId, job: BatchJob, now: int, f: CancelFaults, e: Effect)
    requires a in s.actors && s.actors[a] == Updating(job) && s.queue == e.queue
    requires e.db == if f.update then s.db else Put(s.db, job, Replace)
    ensures Completes(s, a, CancelGoes(id, now, f), e)
  {
    EndsHere(Next(s, UpdateCall(a, !f.update)), a, CancelGoes(id, now, f), e);
    CallLeads(s, UpdateCall(a, !f.update), CancelGoes(id, now, f), e);
  }

  lemma RemovingEnds(s: State, a: nat, job: BatchJob, now: int, f: CancelFaults)
    requires job.status.Encoded? && a in s.actors && s.actors[a] == Removing(job.id, job)
    ensures Completes(s, a, CancelGoes(job.id, now, f), MarkEffect(s.db, s.queue, job, now, f))
  {
    var e, goes := MarkEffect(s.db, s.queue, job, now, f), CancelGoes(job.id, now, f);
    var l := RemoveCall(a, !f.remove, now, false);
    var t := Next(s, l);
    PresentIff(s.queue, job.id);
    if f.remove {
      EndsHere(t, a, goes, e);
    } else if job.id in Ids(s.queue) {
      UpdateEnds(t, a, job.id, CancelledJob(job, now), now, f, e);
    } else {
      SendingEnds(t, a, job, now, f);
    }
    CallLeads(s, l, goes, e);
  }

  lemma SendingEnds(s: State, a: nat, job: BatchJob, now: int, f: CancelFaults)
    requires job.status.Encoded? && a in s.actors && s.actors[a] == Sending(job.id, job)
    requires !f.remove && job.id !in Ids(s.queue)
    ensures Completes(s, a, CancelGoes(job.id, now, f), MarkEffect(s.db, s.queue, job, now, f))
  {
    var e, goes := MarkEffect(s.db, s.queue, job, now, f), CancelGoes(job.id, now, f);
    var l := SendCall(a, !f.send, now, false);
    if f.send {
      EndsHere(Next(s, l), a, goes, e);
    } else {
      UpdateEnds(Next(s, l), a, job.id, CancellingJob(job, now), now, f, e);
    }
    CallLeads(s, l, goes, e);
  }

  lemma ReadingEnds(s: State, a: nat, id: JobId, now: int, f: CancelFaults)
    requires KeysMatch(s.db) && a in s.actors && s.actors[a] == Reading(id) && id != ""
    ensures Completes(s, a, CancelGoes(id, now, f), CancelEffect(s.db, s.queue, id, now, f))
  {
    var e, goes := CancelEffect(s.db, s.queue, id, now, f), CancelGoes(id, now, f);
    var l := ReadCall(a, !f.get);
    if !f.get && id in s.db && Cancellable(s.db[id]) {
      RemovingEnds(Next(s, l), a, s.db[id], now, f);
    } else {
      EndsHere(Next(s, l), a, goes, e);
    }
    CallLeads(s, l, goes, e);
  }

  /**
   * What CancelBatch does alone is a whole run of one cancelling actor with the same failing calls;
   * an empty ID is refused before any call.
   */
  lemma CancelIsALifecycleRun(s: State, a: nat, id: JobId, now: int, f: CancelFaults)
    requires KeysMatch(s.db) && a !in s.actors
    ensures var e := CancelEffect(s.db, s.queue, id, now, f);
            if id == "" then e == Effect(s.db, s.queue, BadRequest)
            else Completes(s, a, CancelGoes(id, now, f), e)
  {
    if id != "" {
      ReadingEnds(Next(s, BeginCancel(a, id)), a, id, now, f);
      CallLeads(s, BeginCancel(a, id), CancelGoes(id, now, f), CancelEffect(s.db, s.queue, id, now, f));
    }
  }
}
