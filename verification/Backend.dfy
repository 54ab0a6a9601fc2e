/** The session and the cache that requests and deliveries work with: the tables and the key space. */
module Backend {
  import opened Prelude
  import opened Schema
  import opened Stores
  import Db = Database
  import Cache = StateCache

  class Backend {
    const jobs: Db.JobTable
    const reports: Db.ReportTable
    const cache: Cache.StateCache
    /** The answered model calls: history, read by nobody. */
    ghost var calls: seq<LlmCall>
    ghost var Repr: set<object>

    ghost predicate Valid()
      reads this, Repr
      ensures Valid() ==> this in Repr
    {
      && this in Repr && cache in Repr && jobs in Repr && reports in Repr
      && jobs.Repr <= Repr && reports.Repr <= Repr
      && this !in jobs.Repr + reports.Repr && cache !in jobs.Repr + reports.Repr && jobs.Repr !! reports.Repr
      && jobs.Valid() && reports.Valid() && cache.Valid()
    }

    /** What the stores hold. */
    ghost function Contents(): Stores
      reads this, jobs, reports, cache
    {
      Stores(jobs.rows, reports.rows, cache.snapshots, cache.insights, calls)
    }

    constructor ()
      ensures Valid() && fresh(Repr) && Contents() == Stores(map[], map[], map[], map[], [])
    {
      jobs := new Db.JobTable();
      reports := new Db.ReportTable();
      cache := new Cache.StateCache();
      calls := [];
      new;
      Repr := {this, cache} + jobs.Repr + reports.Repr;
    }

    method CreateJobRecord(job: JobId, row: JobRow)
      requires Valid() && job !in Contents().jobs
      modifies Repr
      ensures Valid() && fresh(Repr - old(Repr))
      ensures Contents() == CreateJob(old(Contents()), job, row)
    {
      var created := jobs.CreateJobRecord(job, row);
      Repr := Repr + jobs.Repr;
    }

    method UpdateJobStatus(job: JobId, patch: JobPatch)
      requires Valid()
      modifies Repr
      ensures Valid() && Repr == old(Repr)
      ensures Contents() == UpdateJob(old(Contents()), job, patch)
    {
      var record := jobs.UpdateJobStatus(job, patch);
    }

    method SaveFinalReport(job: JobId, report: Report)
      requires Valid()
      modifies Repr
      ensures Valid() && fresh(Repr - old(Repr))
      ensures Contents() == SaveReport(old(Contents()), job, report)
    {
      reports.SaveFinalReport(job, report);
      Repr := Repr + reports.Repr;
    }

    method SetState(job: JobId, snapshot: Snapshot)
      requires Valid()
      modifies Repr
      ensures Valid() && Repr == old(Repr)
      ensures Contents() == SetSnapshot(old(Contents()), job, snapshot)
    {
      cache.SetState(job, snapshot);
    }

    method GetState(job: JobId) returns (snapshot: Option<Snapshot>)
      requires Valid()
      ensures snapshot == SnapshotOf(Contents(), job)
    {
      snapshot := cache.GetState(job);
    }

    method SetCachedAiResult(key: AiKey, result: Insights)
      requires Valid()
      modifies Repr
      ensures Valid() && Repr == old(Repr)
      ensures Contents() == SetInsights(old(Contents()), key, result)
    {
      cache.SetCachedAiResult(key, result);
    }

    method GetCachedAiResult(key: AiKey) returns (result: Option<Insights>)
      requires Valid()
      ensures result == InsightsOf(Contents(), key)
    {
      result := cache.GetCachedAiResult(key);
    }

    ghost method NoteCall(c: LlmCall)
      requires Valid()
      modifies this
      ensures Valid() && Repr == old(Repr)
      ensures Contents() == old(Contents()).(calls := old(Contents()).calls + [c])
    {
      calls := calls + [c];
    }
  }
}
