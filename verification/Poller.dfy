/** What the polling loop does with the queue and the database once it holds a worker ID. */
module Poller {
  import opened Types
  import opened QueueSpec
  import opened Lifecycle
  import opened LifecycleTheorems
  import opened JobStore
  import opened StoreSpec
  import opened Handlers
  import opened MockQueue
  import opened QueueRefinement

  datatype PollFaults = PollFaults(dequeue: bool, get: bool, enqueue: bool)

  /** The queue afterwards, and the record handed to `processJob`, if any. */
  datatype PollEffect = PollEffect(queue: seq<Entry>, dispatched: Option<BatchJob>)

  function PollOnceEffect(db: map<JobId, BatchJob>, queue: seq<Entry>, f: PollFaults): PollEffect {
    if f.dequeue || queue == [] then PollEffect(queue, None)
    else if !f.get && queue[0].id in db then PollEffect(queue[1..], Some(db[queue[0].id]))
    else if f.enqueue then PollEffect(queue[1..], None)
    else PollEffect(Insert(queue[1..], queue[0]), None)
  }

  /** No one interferes, the context is live, and the clock ticks on. */
  function Undisturbed(start: int): nat -> Round {
    k => Round([], start + k * POLL, false)
  }

  /** The head of the queue has moved just behind the entries that share its SLO. */
  ghost predicate BehindItsEquals(q: seq<Entry>, r: seq<Entry>)
    requires q != []
  {
    exists k :: && 1 <= k <= |q| && (forall j :: 0 <= j < |q| ==> (j < k <==> q[j].slo == q[0].slo))
                && r == q[1..k] + [q[0]] + q[k..]
  }

  lemma PutBackMeans(q: seq<Entry>)
    requires q != []
    ensures multiset(Insert(q[1..], q[0])) == multiset(q)
    ensures Sorted(q) ==> BehindItsEquals(q, Insert(q[1..], q[0]))
  {
    InsertBag(q[1..], q[0]);
    assert q == [q[0]] + q[1..];
    if Sorted(q) {
      PutBackMovesBehindEquals(q);
      var k := InsertIndex(q, q[0].slo);
      assert Insert(q[1..], q[0]) == q[1..k] + [q[0]] + q[k..];
    }
  }

  class Processor {
    const database: MockBatchDBClient
    const priorityQueue: MockBatchPriorityQueueClient

    ghost predicate Valid()
      reads database, priorityQueue
    {
      database.Valid() && priorityQueue.Valid() && !priorityQueue.locked
    }

    constructor (db: MockBatchDBClient, queue: MockBatchPriorityQueueClient)
      requires db.Valid() && queue.Valid() && !queue.locked
      ensures Valid() && database == db && priorityQueue == queue
    {
      database, priorityQueue := db, queue;
    }

    /** The head of the queue, without waiting. */
    method GetTaskFromQueue(start: int, fault: bool) returns (task: Option<Entry>)
      requires Valid()
      modifies priorityQueue, priorityQueue.buf
      ensures Valid() && (priorityQueue.buf == old(priorityQueue.buf) || fresh(priorityQueue.buf))
      ensures var q := old(priorityQueue.Contents());
              if fault || q == [] then task == None && priorityQueue.Contents() == q
              else task == Some(q[0]) && priorityQueue.Contents() == q[1..]
    {
      if fault {
        return None;
      }
      var result, _ := priorityQueue.Dequeue(start, 0, 1, Undisturbed(start));
      match result {
        case Got(items) => task := Some(items[0]);
        case _ => task := None;
      }
    }

    /** The record of the fetched ID; without one the entry goes back into the queue. */
    method GetJobData(task: Entry, getFault: bool, enqueueFault: bool) returns (job: Option<BatchJob>)
      requires Valid()
      modifies priorityQueue, priorityQueue.buf
      ensures Valid()
      ensures job == if !getFault && task.id in database.jobs then Some(database.jobs[task.id]) else None
      ensures priorityQueue.Contents() ==
              if job.Some? || enqueueFault then old(priorityQueue.Contents())
              else Insert(old(priorityQueue.Contents()), task)
    {
      var jobs: seq<BatchJob> := [];
      if !getFault {
        jobs := database.Get([task.id], 1);
        assert Found(database.jobs, [task.id][..0]) == [];
      }
      if |jobs| == 0 {
        if !enqueueFault {
          priorityQueue.Enqueue(task);
        }
        return None;
      }
      return Some(jobs[0]);
    }

    /** One turn of the polling loop between receiving a worker ID and starting the job. */
    method PollOnce(start: int, f: PollFaults) returns (job: Option<BatchJob>)
      requires Valid()
      modifies priorityQueue, priorityQueue.buf
      ensures Valid()
      ensures PollEffect(priorityQueue.Contents(), job)
              == PollOnceEffect(database.jobs, old(priorityQueue.Contents()), f)
      ensures var q, db := old(priorityQueue.Contents()), database.jobs;
              && (f.dequeue || q == [] ==> job == None && priorityQueue.Contents() == q)
              && (!f.dequeue && q != [] && !f.get && q[0].id in db ==>
                    job == Some(db[q[0].id]) && priorityQueue.Contents() == q[1..])
              && (!f.dequeue && q != [] && (f.get || q[0].id !in db) ==>
                    && job == None
                    && (f.enqueue ==> priorityQueue.Contents() == q[1..])
                    && (!f.enqueue ==> multiset(priorityQueue.Contents()) == multiset(q)))
      ensures var q, db := old(priorityQueue.Contents()), database.jobs;
              !f.dequeue && q != [] && (f.get || q[0].id !in db) && !f.enqueue && Sorted(q) ==>
                BehindItsEquals(q, priorityQueue.Contents())
    {
      ghost var q := priorityQueue.Contents();
      if q != [] { PutBackMeans(q); }
      var task := GetTaskFromQueue(start, f.dequeue);
      if task.None? {
        return None;
      }
      job := GetJobData(task.value, f.get, f.enqueue);
    }
  }

  /** The calls of one turn of the loop: one Dequeue, and then calls that fail as the faults say. */
  predicate TurnOf(ls: seq<Label>, a: nat, f: PollFaults) {
    && ls != [] && ls[0] == DequeueCall(a, !f.dequeue)
    && forall i :: 1 <= i < |ls| ==>
         || (ls[i].FetchCall? && ls[i].a == a && ls[i].ok == !f.get)
         || ls[i] == PutBackCall(a, !f.enqueue)
  }

  /** From the fetched task on: the dispatch, or the re-enqueue. */
  lemma TaskEnds(s: State, a: nat, child: nat, limit: nat, total: nat, f: PollFaults) returns (ls: seq<Label>)
    requires a in s.actors && s.actors[a].Fetching? && child !in s.actors && KeysMatch(s.db)
    ensures ls == [FetchCall(a, !f.get, child, limit, total)]
            || ls == [FetchCall(a, !f.get, child, limit, total), PutBackCall(a, !f.enqueue)]
    ensures ValidRun(s, ls)
    ensures var task, t := s.actors[a].task, Exec(s, ls);
            && t.db == s.db && a in t.actors && t.actors[a] == Polling
            && (if !f.get && task.id in s.db then t.queue == s.queue && t.dispatched == s.dispatched + [task.id]
                else t.queue == (if f.enqueue then s.queue else Insert(s.queue, task)) && t.dispatched == s.dispatched)
  {
    var fetch, putBack := FetchCall(a, !f.get, child, limit, total), PutBackCall(a, !f.enqueue);
    if !f.get && s.actors[a].task.id in s.db {
      ls := [fetch];
      One(s, fetch);
    } else {
      ls := [fetch, putBack];
      One(Next(s, fetch), putBack);
      RunCons(s, fetch, [putBack]);
      assert [fetch] + [putBack] == ls;
    }
  }

  /**
   * A turn of the loop alone is a run of one polling actor, with one Dequeue, the same failing calls
   * and the same dispatches, that ends where the next turn begins.
   */
  lemma PollIsALifecycleRun(s: State, a: nat, child: nat, limit: nat, total: nat, f: PollFaults)
    returns (ls: seq<Label>)
    requires a in s.actors && s.actors[a].Polling? && child !in s.actors && KeysMatch(s.db)
    ensures TurnOf(ls, a, f) && ValidRun(s, ls)
    ensures var e, t := PollOnceEffect(s.db, s.queue, f), Exec(s, ls);
            && t.queue == e.queue && t.db == s.db
            && t.dispatched == s.dispatched + (if e.dispatched.Some? then [e.dispatched.value.id] else [])
            && a in t.actors && t.actors[a] == Polling
  {
    var dequeue := DequeueCall(a, !f.dequeue);
    if f.dequeue || s.queue == [] {
      ls := [dequeue];
      One(s, dequeue);
    } else {
      var rest := TaskEnds(Next(s, dequeue), a, child, limit, total, f);
      ls := [dequeue] + rest;
      RunCons(s, dequeue, rest);
    }
  }
}
