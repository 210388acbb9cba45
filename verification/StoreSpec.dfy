/** The job database as a value: a map from ID to record, and what the calls do to it. */
module StoreSpec {
  import opened Positions
  import opened Types

  /** How `Update` writes: the whole record, or the documented merge of non-empty dynamic fields. */
  datatype WriteMode = Replace | Merge

  function MergeDynamic(stored: BatchJob, given: BatchJob): BatchJob {
    stored.(tags := if given.tags == [] then stored.tags else given.tags,
            status := if given.status.IsEmpty() then stored.status else given.status)
  }

  function Put(db: map<JobId, BatchJob>, job: BatchJob, mode: WriteMode): map<JobId, BatchJob> {
    if job.id !in db then db
    else db[job.id := if mode.Replace? then job else MergeDynamic(db[job.id], job)]
  }

  /** The records found for the IDs, in the order asked, one per occurrence. */
  function Found(jobs: map<JobId, BatchJob>, ids: seq<JobId>): seq<BatchJob> {
    if ids == [] then []
    else
      var id := ids[|ids| - 1];
      Found(jobs, ids[..|ids| - 1]) + (if id in jobs then [jobs[id]] else [])
  }

  /** The IDs that a Delete removes, in the order asked, each once. */
  function Deleted(jobs: map<JobId, BatchJob>, ids: seq<JobId>): seq<JobId> {
    if ids == [] then []
    else
      var front, id := ids[..|ids| - 1], ids[|ids| - 1];
      Deleted(jobs, front) + (if id in jobs && id !in front then [id] else [])
  }

  function IdSet(ids: seq<JobId>): set<JobId> {
    set id | id in ids
  }

  /** Delete reports exactly the IDs that were there, without repetition. */
  lemma {:induction false} DeletedAreThePresent(jobs: map<JobId, BatchJob>, ids: seq<JobId>)
    ensures forall id :: id in Deleted(jobs, ids) <==> id in ids && id in jobs
    ensures forall i, j :: 0 <= i < j < |Deleted(jobs, ids)| ==> Deleted(jobs, ids)[i] != Deleted(jobs, ids)[j]
  {
    if ids != [] {
      var front := ids[..|ids| - 1];
      DeletedAreThePresent(jobs, front);
      assert ids == front + [ids[|ids| - 1]];
    }
  }

  function IsStored(jobs: map<JobId, BatchJob>, ids: seq<JobId>): nat -> bool {
    (k: nat) => k < |ids| && ids[k] in jobs
  }

  lemma {:induction false} FoundPicks(jobs: map<JobId, BatchJob>, ids: seq<JobId>)
    ensures var ks := Where(|ids|, IsStored(jobs, ids));
            && |Found(jobs, ids)| == |ks|
            && forall i :: 0 <= i < |ks| ==>
                 ks[i] < |ids| && ids[ks[i]] in jobs && Found(jobs, ids)[i] == jobs[ids[ks[i]]]
  {
    if ids != [] {
      var front := ids[..|ids| - 1];
      FoundPicks(jobs, front);
      WhereSame(|front|, IsStored(jobs, front), IsStored(jobs, ids));
    }
  }

  /** A Get by IDs returns the records of exactly those positions whose ID is stored, in order. */
  lemma FoundAreTheStored(jobs: map<JobId, BatchJob>, ids: seq<JobId>) returns (ks: seq<nat>)
    ensures Increasing(ks) && forall k: nat :: k in ks <==> k < |ids| && ids[k] in jobs
    ensures |Found(jobs, ids)| == |ks|
    ensures forall i :: 0 <= i < |ks| ==>
              ks[i] < |ids| && ids[ks[i]] in jobs && Found(jobs, ids)[i] == jobs[ids[ks[i]]]
  {
    FoundPicks(jobs, ids);
    ks := Where(|ids|, IsStored(jobs, ids));
    WhereIs(|ids|, IsStored(jobs, ids));
  }

  /** Replacing a stored record is the documented merge exactly when no field is lost or changed by it. */
  lemma MergeAgreesIff(db: map<JobId, BatchJob>, job: BatchJob)
    requires job.id in db
    ensures Put(db, job, Merge) == Put(db, job, Replace) <==>
              && job.SameStatic(db[job.id])
              && (job.tags == [] ==> db[job.id].tags == [])
              && (job.status.IsEmpty() ==> db[job.id].status.IsEmpty())
  {
    assert Put(db, job, Merge)[job.id] == MergeDynamic(db[job.id], job) && Put(db, job, Replace)[job.id] == job;
  }

  predicate KeysMatch(jobs: map<JobId, BatchJob>) {
    forall id :: id in jobs ==> jobs[id].id == id
  }
}
