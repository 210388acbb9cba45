/**
 * The life of a batch job: API handlers creating and cancelling batches, polling loops taking
 * entries from the queue, and running jobs, all sharing one database, one queue and one status
 * store. An action is one client call; it is atomic and may fail without effect. Actors of every
 * kind come and go without limit, and a schedule is any sequence of enabled actions.
 */
module Lifecycle {
  import opened Types
  import opened QueueSpec
  import opened StoreSpec
  import ProcessJob

  /** What one goroutine of a handler or a processor is about to do. */
  datatype Actor =
    | Storing(job: BatchJob)            // CreateBatch, before Store
    | Enqueuing(job: BatchJob)          // CreateBatch, before Enqueue
    | RollingBack(job: BatchJob)        // CreateBatch, before Delete
    | Reading(id: JobId)                // CancelBatch, before Get
    | Removing(id: JobId, job: BatchJob) // CancelBatch, before Remove
    | Sending(id: JobId, job: BatchJob) // CancelBatch, before ProducerSendEvents
    | Updating(job: BatchJob)           // CancelBatch, before Update
    | Polling                           // polling loop, before Dequeue
    | Fetching(task: Entry)             // polling loop, before Get
    | PuttingBack(task: Entry)          // polling loop, before the re-enqueue
    | Running(job: BatchJob, run: ProcessJob.State)
    | Finished

  /** History variable: where the one token of a batch ID is. It never enables or disables anything. */
  datatype Place =
    | Creating(actor: nat)
    | Queued
    | Held(actor: nat)
    | InJob(actor: nat)
    | Withdrawn(job: BatchJob) // removed from the queue by a cancel that then writes `job`
    | Lost                     // a failed re-enqueue
    | Rejected                 // a failed creation

  datatype State = State(
    db: map<JobId, BatchJob>,
    queue: seq<Entry>,
    actors: map<nat, Actor>,
    statusLog: map<JobId, seq<BatchStatus>>, // status-store writes per ID, oldest first
    dispatched: seq<JobId>,                  // IDs handed to processJob, oldest first
    removed: set<JobId>,                     // IDs for which a Remove returned more than 0
    birth: map<JobId, BatchJob>,             // the record each ID was created with
    place: map<JobId, Place>)

  const START := State(map[], [], map[], map[], [], {}, map[], map[])

  function CancelledJob(job: BatchJob, now: int): BatchJob
    requires job.status.Encoded?
  {
    job.(status := Encoded(job.status.value.(status := Cancelled, cancelledAt := Some(now))))
  }

  function CancellingJob(job: BatchJob, now: int): BatchJob
    requires job.status.Encoded?
  {
    job.(status := Encoded(job.status.value.(status := Cancelling, cancellingAt := Some(now))))
  }

  /** `CancelBatch` goes on only with a record that decodes and is not final. */
  predicate Cancellable(job: BatchJob) {
    job.StatusOf().Some? && !job.StatusOf().value.IsFinal()
  }

  /** A record as `CreateBatch` builds it. */
  predicate NewRecord(job: BatchJob) {
    && job.spec.Encoded? && job.tags == []
    && job.status.Encoded? && job.status.value.status == Validating
    && job.status.value.cancelledAt.None? && job.status.value.cancellingAt.None?
  }

  /**
   * The actions. `ok` says whether the client call succeeds. `now` is the clock. `visible` says
   * that the record handed out by the database is shared with it, so that assigning the new
   * status shows in the database before `Update` is called.
   */
  datatype Label =
    | BeginCreate(a: nat, job: BatchJob)
    | StoreCall(a: nat, ok: bool)
    | EnqueueCall(a: nat, ok: bool)
    | DeleteCall(a: nat, ok: bool)
    | BeginCancel(a: nat, id: JobId)
    | ReadCall(a: nat, ok: bool)
    | RemoveCall(a: nat, ok: bool, now: int, visible: bool)
    | SendCall(a: nat, ok: bool, now: int, visible: bool)
    | UpdateCall(a: nat, ok: bool)
    | BeginPoll(a: nat)
    | DequeueCall(a: nat, ok: bool)
    | FetchCall(a: nat, ok: bool, child: nat, limit: nat, total: nat)
    | PutBackCall(a: nat, ok: bool)
    | JobStep(a: nat, step: ProcessJob.Step, ok: bool)

  predicate Enabled(s: State, l: Label) {
    match l
    case BeginCreate(a, job) => a !in s.actors && job.id !in s.birth && NewRecord(job)
    case StoreCall(a, _) => a in s.actors && s.actors[a].Storing?
    case EnqueueCall(a, _) => a in s.actors && s.actors[a].Enqueuing?
    case DeleteCall(a, _) => a in s.actors && s.actors[a].RollingBack?
    case BeginCancel(a, _) => a !in s.actors
    case ReadCall(a, _) => a in s.actors && s.actors[a].Reading?
    case RemoveCall(a, _, _, _) => a in s.actors && s.actors[a].Removing? && s.actors[a].job.status.Encoded?
    case SendCall(a, _, _, _) => a in s.actors && s.actors[a].Sending? && s.actors[a].job.status.Encoded?
    case UpdateCall(a, _) => a in s.actors && s.actors[a].Updating?
    case BeginPoll(a) => a !in s.actors
    case DequeueCall(a, _) => a in s.actors && s.actors[a].Polling?
    case FetchCall(a, _, child, _, _) => a in s.actors && s.actors[a].Fetching? && child !in s.actors
    case PutBackCall(a, _) => a in s.actors && s.actors[a].PuttingBack?
    case JobStep(a, step, _) =>
      a in s.actors && s.actors[a].Running? && ProcessJob.Enabled(s.actors[a].run, step)
  }

  function Become(s: State, a: nat, actor: Actor): State {
    s.(actors := s.actors[a := actor])
  }

  function Log(s: State, id: JobId): seq<BatchStatus> {
    if id in s.statusLog then s.statusLog[id] else []
  }

  /** The shared record changes in place when the database hands out its own record. */
  function Show(s: State, job: BatchJob, visible: bool): State {
    if visible && job.id in s.db then s.(db := s.db[job.id := job]) else s
  }

  // CreateBatch

  function AfterBeginCreate(s: State, a: nat, job: BatchJob): State {
    Become(s, a, Storing(job)).(birth := s.birth[job.id := job], place := s.place[job.id := Creating(a)])
  }

  function AfterStore(s: State, a: nat, ok: bool): State
    requires a in s.actors && s.actors[a].Storing?
  {
    var job := s.actors[a].job;
    if ok then Become(s, a, Enqueuing(job)).(db := s.db[job.id := job])
    else Become(s, a, Finished).(place := s.place[job.id := Rejected])
  }

  function AfterEnqueue(s: State, a: nat, ok: bool): State
    requires a in s.actors && s.actors[a].Enqueuing?
  {
    var job := s.actors[a].job;
    if ok then
      Become(s, a, Finished).(queue := Insert(s.queue, BatchJobPriority(job.id, job.slo)),
                              place := s.place[job.id := Queued])
    else Become(s, a, RollingBack(job))
  }

  function AfterDelete(s: State, a: nat, ok: bool): State
    requires a in s.actors && s.actors[a].RollingBack?
  {
    var job := s.actors[a].job;
    Become(s, a, Finished).(db := if ok then s.db - {job.id} else s.db,
                            place := s.place[job.id := Rejected])
  }

  // CancelBatch

  function AfterRead(s: State, a: nat, ok: bool): State
    requires a in s.actors && s.actors[a].Reading?
  {
    var id := s.actors[a].id;
    if ok && id in s.db && Cancellable(s.db[id]) then Become(s, a, Removing(id, s.db[id]))
    else Become(s, a, Finished)
  }

  function AfterRemove(s: State, a: nat, ok: bool, now: int, visible: bool): State
    requires a in s.actors && s.actors[a].Removing? && s.actors[a].job.status.Encoded?
  {
    var id, job := s.actors[a].id, s.actors[a].job;
    if !ok then Become(s, a, Finished)
    else if IndexOf(s.queue, id) == |s.queue| then Become(s, a, Sending(id, job))
    else
      var cancelled := CancelledJob(job, now);
      Show(Become(s, a, Updating(cancelled)), cancelled, visible)
        .(queue := Without(s.queue, id), removed := s.removed + {id},
          place := s.place[id := Withdrawn(cancelled)])
  }

  function AfterSend(s: State, a: nat, ok: bool, now: int, visible: bool): State
    requires a in s.actors && s.actors[a].Sending? && s.actors[a].job.status.Encoded?
  {
    var cancelling := CancellingJob(s.actors[a].job, now);
    if !ok then Become(s, a, Finished)
    else Show(Become(s, a, Updating(cancelling)), cancelling, visible)
  }

  function AfterUpdate(s: State, a: nat, ok: bool, mode: WriteMode): State
    requires a in s.actors && s.actors[a].Updating?
  {
    Become(s, a, Finished).(db := if ok then Put(s.db, s.actors[a].job, mode) else s.db)
  }

  // The polling loop and the job

  function AfterDequeue(s: State, a: nat, ok: bool): State {
    if !ok || s.queue == [] then s
    else
      Become(s, a, Fetching(s.queue[0]))
        .(queue := s.queue[1..], place := s.place[s.queue[0].id := Held(a)])
  }

  function AfterFetch(s: State, a: nat, ok: bool, child: nat, limit: nat, total: nat): State
    requires a in s.actors && s.actors[a].Fetching?
  {
    var task := s.actors[a].task;
    if ok && task.id in s.db then
      var job := s.db[task.id];
      Become(Become(s, a, Polling), child, Running(job, ProcessJob.Init(limit, total)))
        .(dispatched := s.dispatched + [job.id], place := s.place[job.id := InJob(child)])
    else Become(s, a, PuttingBack(task))
  }

  function AfterPutBack(s: State, a: nat, ok: bool): State
    requires a in s.actors && s.actors[a].PuttingBack?
  {
    var task := s.actors[a].task;
    if ok then
      Become(s, a, Polling).(queue := Insert(s.queue, task), place := s.place[task.id := Queued])
    else Become(s, a, Polling).(place := s.place[task.id := Lost])
  }

  /** `run` moves on to `next`; `wrote` says that the step is the job's database update. */
  function AfterJobStep(s: State, a: nat, next: ProcessJob.State, wrote: bool, mode: WriteMode): State
    requires a in s.actors && s.actors[a].Running? && s.actors[a].run.calls <= next.calls
  {
    var job, run := s.actors[a].job, s.actors[a].run;
    Become(s, a, Running(job, next))
      .(db := if wrote then Put(s.db, job, mode) else s.db,
        statusLog := s.statusLog[job.id := Log(s, job.id) + next.calls[|run.calls|..]])
  }

  lemma CallsGrow(run: ProcessJob.State, step: ProcessJob.Step)
    requires ProcessJob.Enabled(run, step)
    ensures run.calls <= ProcessJob.Apply(run, step).calls
  {
  }

  function Apply(s: State, l: Label, mode: WriteMode): State
    requires Enabled(s, l)
  {
    match l
    case BeginCreate(a, job) => AfterBeginCreate(s, a, job)
    case StoreCall(a, ok) => AfterStore(s, a, ok)
    case EnqueueCall(a, ok) => AfterEnqueue(s, a, ok)
    case DeleteCall(a, ok) => AfterDelete(s, a, ok)
    case BeginCancel(a, id) => Become(s, a, Reading(id))
    case ReadCall(a, ok) => AfterRead(s, a, ok)
    case RemoveCall(a, ok, now, visible) => AfterRemove(s, a, ok, now, visible)
    case SendCall(a, ok, now, visible) => AfterSend(s, a, ok, now, visible)
    case UpdateCall(a, ok) => AfterUpdate(s, a, ok, mode)
    case BeginPoll(a) => Become(s, a, Polling)
    case DequeueCall(a, ok) => AfterDequeue(s, a, ok)
    case FetchCall(a, ok, child, limit, total) => AfterFetch(s, a, ok, child, limit, total)
    case PutBackCall(a, ok) => AfterPutBack(s, a, ok)
    case JobStep(a, step, ok) =>
      CallsGrow(s.actors[a].run, step);
      AfterJobStep(s, a, ProcessJob.Apply(s.actors[a].run, step), step.Update? && ok, mode)
  }

  function Next(s: State, l: Label): State
    requires Enabled(s, l)
  {
    Apply(s, l, Replace)
  }

  ghost predicate ValidRun(s: State, ls: seq<Label>)
    decreases |ls|
  {
    ls == [] || (Enabled(s, ls[0]) && ValidRun(Next(s, ls[0]), ls[1..]))
  }

  ghost function Exec(s: State, ls: seq<Label>): State
    requires ValidRun(s, ls)
    decreases |ls|
  {
    if ls == [] then s else Exec(Next(s, ls[0]), ls[1..])
  }

  ghost predicate Reachable(s: State) {
    exists ls :: ValidRun(START, ls) && Exec(START, ls) == s
  }

  // ---------- The inductive invariant ----------

  /** A record of a known ID: its static part and tags are those it was created with. */
  predicate KnownRecord(s: State, job: BatchJob) {
    && job.id in s.birth && job.SameStatic(s.birth[job.id]) && job.tags == s.birth[job.id].tags
    && job.spec.Encoded? && job.status.Encoded?
    && job.status.value.status in {Validating, Cancelling, Cancelled}
  }

  predicate OpenRecord(s: State, job: BatchJob) {
    KnownRecord(s, job) && job.status.value.status != Cancelled
  }

  predicate At(s: State, id: JobId, p: Place) {
    id in s.place && s.place[id] == p
  }

  predicate ActorOk(s: State, a: nat)
    requires a in s.actors
  {
    match s.actors[a]
    case Storing(job) =>
      At(s, job.id, Creating(a)) && job.id in s.birth && s.birth[job.id] == job && job.id !in s.db
    case Enqueuing(job) =>
      At(s, job.id, Creating(a)) && job.id in s.birth && s.birth[job.id] == job && job.id in s.db
    case RollingBack(job) => At(s, job.id, Creating(a)) && job.id in s.birth && s.birth[job.id] == job
    case Reading(_) => true
    case Removing(id, job) => job.id == id && OpenRecord(s, job)
    case Sending(id, job) => job.id == id && OpenRecord(s, job)
    case Updating(job) =>
      && KnownRecord(s, job)
      && (job.status.value.status == Cancelled ==> At(s, job.id, Withdrawn(job)))
    case Polling => true
    case Fetching(task) =>
      At(s, task.id, Held(a)) && task.id in s.birth && task.slo == s.birth[task.id].slo
    case PuttingBack(task) =>
      At(s, task.id, Held(a)) && task.id in s.birth && task.slo == s.birth[task.id].slo
    case Running(job, run) =>
      At(s, job.id, InJob(a)) && OpenRecord(s, job) && Log(s, job.id) == run.calls
    case Finished => true
  }

  /** The batch ID whose token the actor holds, if any. */
  function Token(actor: Actor): Option<JobId> {
    match actor
    case Storing(job) => Some(job.id)
    case Enqueuing(job) => Some(job.id)
    case RollingBack(job) => Some(job.id)
    case Fetching(task) => Some(task.id)
    case PuttingBack(task) => Some(task.id)
    case Running(job, _) => Some(job.id)
    case _ => None
  }

  predicate HoldsToken(s: State, a: nat, id: JobId) {
    a in s.actors && Token(s.actors[a]) == Some(id)
  }

  predicate IdOk(s: State, id: JobId)
    requires id in s.place
  {
    var p := s.place[id];
    && id in s.birth && s.birth[id].id == id && NewRecord(s.birth[id])
    && (p.Queued? <==> id in Ids(s.queue))
    && (p.Withdrawn? <==> id in s.removed)
    && (p.InJob? <==> id in s.dispatched)
    && (p.Queued? || p.Held? || p.InJob? || p.Withdrawn? || p.Lost? ==> id in s.db)
    && (id in s.db ==>
          && KnownRecord(s, s.db[id]) && s.db[id].id == id
          && (s.db[id].status.value.status == Cancelled ==> p == Withdrawn(s.db[id])))
    && (p.Creating? || p.Held? || p.InJob? ==> HoldsToken(s, p.actor, id))
    && (p.Withdrawn? ==> p.job.id == id && KnownRecord(s, p.job) && p.job.status.value.status == Cancelled)
    && (!p.InJob? ==> Log(s, id) == [])
  }

  predicate QueueOk(s: State) {
    && Sorted(s.queue) && DistinctIds(s.queue)
    && (forall k :: 0 <= k < |s.queue| ==>
          s.queue[k].id in s.birth && s.queue[k].slo == s.birth[s.queue[k].id].slo)
  }

  predicate DispatchOk(s: State) {
    forall i, j :: 0 <= i < j < |s.dispatched| ==> s.dispatched[i] != s.dispatched[j]
  }

  predicate KeysOk(s: State) {
    && s.birth.Keys == s.place.Keys
    && s.db.Keys <= s.place.Keys
    && s.statusLog.Keys <= s.place.Keys
    && s.removed <= s.place.Keys
    && Ids(s.queue) <= s.place.Keys
    && (forall id :: id in s.dispatched ==> id in s.place)
  }

  predicate Inv(s: State) {
    && KeysOk(s) && QueueOk(s) && DispatchOk(s)
    && (forall a {:trigger ActorOk(s, a)} :: a in s.actors ==> ActorOk(s, a))
    && (forall id {:trigger IdOk(s, id)} :: id in s.place ==> IdOk(s, id))
  }
}
