/** The in-memory job database: a map from ID to record. */
module JobStore {
  import opened Types
  import opened StoreSpec

  class MockBatchDBClient {
    var jobs: map<JobId, BatchJob>

    predicate Valid()
      reads this
    {
      KeysMatch(jobs)
    }

    constructor ()
      ensures Valid() && jobs == map[]
    {
      jobs := map[];
    }

    method Store(job: BatchJob) returns (id: JobId)
      requires Valid()
      modifies this
      ensures Valid() && jobs == old(jobs)[job.id := job] && id == job.id
    {
      jobs := jobs[job.id := job];
      id := job.id;
    }

    /**
     * By IDs when there are any, ignoring the limit; otherwise any records at all, up to the
     * limit when it is positive.
     */
    method Get(ids: seq<JobId>, limit: int) returns (results: seq<BatchJob>)
      requires Valid()
      ensures ids != [] ==> results == Found(jobs, ids)
      ensures ids == [] ==>
                && (forall k :: 0 <= k < |results| ==> results[k].id in jobs && jobs[results[k].id] == results[k])
                && (forall i, j :: 0 <= i < j < |results| ==> results[i].id != results[j].id)
                && |results| == if 0 < limit < |jobs| then limit else |jobs|
    {
      results := [];
      if |ids| > 0 {
        for i := 0 to |ids|
          invariant results == Found(jobs, ids[..i])
        {
          assert ids[..i + 1][..i] == ids[..i];
          if ids[i] in jobs {
            results := results + [jobs[ids[i]]];
          }
        }
        assert ids[..|ids|] == ids;
      } else {
        var todo := jobs.Keys;
        while todo != {}
          invariant todo <= jobs.Keys && |results| == |jobs| - |todo|
          invariant forall k :: 0 <= k < |results| ==>
                      results[k].id in jobs && jobs[results[k].id] == results[k] && results[k].id !in todo
          invariant forall i, j :: 0 <= i < j < |results| ==> results[i].id != results[j].id
          invariant 0 < limit ==> |results| < limit
          decreases |todo|
        {
          var id :| id in todo;
          todo := todo - {id};
          results := results + [jobs[id]];
          if |results| >= limit && limit > 0 {
            return;
          }
        }
      }
    }

    method Update(job: BatchJob) returns (ok: bool)
      requires Valid()
      modifies this
      ensures Valid() && ok == (job.id in old(jobs)) && jobs == Put(old(jobs), job, Replace)
      ensures jobs == if job.id in old(jobs) then old(jobs)[job.id := job] else old(jobs)
    {
      ok := job.id in jobs;
      if ok {
        jobs := jobs[job.id := job];
      }
    }

    method Delete(ids: seq<JobId>) returns (deleted: seq<JobId>)
      requires Valid()
      modifies this
      ensures Valid() && jobs == old(jobs) - IdSet(ids) && deleted == Deleted(old(jobs), ids)
      ensures forall id :: id in jobs <==> id in old(jobs) && id !in ids
      ensures forall id :: id in jobs ==> jobs[id] == old(jobs)[id]
    {
      deleted := [];
      for i := 0 to |ids|
        invariant Valid() && jobs == old(jobs) - IdSet(ids[..i])
        invariant deleted == Deleted(old(jobs), ids[..i])
      {
        assert ids[..i + 1] == ids[..i] + [ids[i]];
        if ids[i] in jobs {
          jobs := jobs - {ids[i]};
          deleted := deleted + [ids[i]];
        }
      }
      assert ids[..|ids|] == ids;
    }
  }
}
