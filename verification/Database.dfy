/** The two tables of the service and the operations on them. Records are updated in place. */
module Database {
  import opened Prelude
  import opened Schema
  import opened Stores

  class JobRecord {
    const jobId: JobId
    const repositoryUrl: string
    const owner: string
    const repo: string
    var status: Status
    var commitSha: Option<string>
    var instant: Option<InstantMetadata>
    var progress: Progress
    var error: Option<string>
    var aiCacheKey: Option<AiKey>

    constructor (jobId: JobId, row: JobRow)
      ensures this.jobId == jobId && Row() == row
    {
      this.jobId, repositoryUrl, owner, repo := jobId, row.repositoryUrl, row.owner, row.repo;
      status, commitSha, instant := row.status, row.commitSha, row.instant;
      progress, error, aiCacheKey := row.progress, row.error, row.aiCacheKey;
    }

    function Row(): JobRow
      reads this
    {
      JobRow(repositoryUrl, owner, repo, status, commitSha, instant, progress, error, aiCacheKey)
    }

    /** Only the columns that are given are assigned. */
    method Assign(patch: JobPatch)
      modifies this
      ensures Row() == Patched(old(Row()), patch)
    {
      if patch.status.Set? {
        status := patch.status.value;
      }
      if patch.commitSha.Set? {
        commitSha := patch.commitSha.value;
      }
      if patch.instant.Set? {
        instant := patch.instant.value;
      }
      if patch.progress.Set? {
        progress := patch.progress.value;
      }
      if patch.error.Set? {
        error := patch.error.value;
      }
      if patch.aiCacheKey.Set? {
        aiCacheKey := patch.aiCacheKey.value;
      }
    }
  }

  class ReportRecord {
    const jobId: JobId
    var repositoryUrl: string
    var commitSha: Option<string>
    var deterministicData: InstantMetadata
    var insights: Option<Insights>
    var fallback: bool
    var fallbackReason: Option<string>
    var markdown: Markdown

    constructor (jobId: JobId, report: Report)
      ensures this.jobId == jobId && Content() == report
    {
      this.jobId, repositoryUrl, commitSha := jobId, report.repositoryUrl, report.commitSha;
      deterministicData, insights, fallback := report.deterministicData, report.insights, report.fallback;
      fallbackReason, markdown := report.fallbackReason, report.markdown;
    }

    function Content(): Report
      reads this
    {
      Report(repositoryUrl, commitSha, deterministicData, insights, fallback, fallbackReason, markdown)
    }

    method Overwrite(report: Report)
      modifies this
      ensures Content() == report
    {
      repositoryUrl, commitSha := report.repositoryUrl, report.commitSha;
      deterministicData, insights, fallback := report.deterministicData, report.insights, report.fallback;
      fallbackReason, markdown := report.fallbackReason, report.markdown;
    }
  }

  class JobTable {
    var records: seq<JobRecord>
    /** The unique index on job_id: it finds every record by its job, so a job has at most one. */
    ghost var index: map<JobId, nat>
    /** What the table holds. */
    ghost var rows: map<JobId, JobRow>
    ghost var Repr: set<object>

    ghost predicate Valid()
      reads this, Repr
      ensures Valid() ==> this in Repr
    {
      && this in Repr
      && (forall i {:trigger records[i]} :: 0 <= i < |records| ==>
            var id := records[i].jobId;
            records[i] in Repr && id in rows && id in index && index[id] == i && rows[id] == records[i].Row())
      && (forall job {:trigger index[job]} {:trigger job in index} :: job in rows ==>
            job in index && index[job] < |records| && records[index[job]].jobId == job)
    }

    constructor ()
      ensures Valid() && fresh(Repr) && rows == map[]
    {
      records, index, rows := [], map[], map[];
      Repr := {this};
    }

    /** The one record of the job, if there is one. */
    method GetJobById(jobId: JobId) returns (record: JobRecord?)
      requires Valid()
      ensures record == null <==> jobId !in rows
      ensures record != null ==> record in records && record.jobId == jobId && rows[jobId] == record.Row()
      ensures record != null ==> jobId in index && index[jobId] < |records| && records[index[jobId]] == record
    {
      assert jobId in rows ==> jobId in index && index[jobId] < |records| && records[index[jobId]].jobId == jobId;
      for i := 0 to |records|
        invariant forall k :: 0 <= k < i ==> records[k].jobId != jobId
      {
        if records[i].jobId == jobId {
          return records[i];
        }
      }
      return null;
    }

    method Add(record: JobRecord)
      requires Valid() && record.jobId !in rows
      modifies this
      ensures Valid() && Repr == old(Repr) + {record}
      ensures rows == old(rows)[record.jobId := record.Row()]
    {
      records, index := records + [record], index[record.jobId := |records|];
      rows := rows[record.jobId := record.Row()];
      Repr := Repr + {record};
    }

    /** Adds the row, unless the job has one already. */
    method CreateJobRecord(jobId: JobId, row: JobRow) returns (created: bool)
      requires Valid()
      modifies this
      ensures Valid() && fresh(Repr - old(Repr))
      ensures created <==> jobId !in old(rows)
      ensures jobId !in old(rows) ==> rows == old(rows)[jobId := row]
      ensures jobId in old(rows) ==> rows == old(rows)
    {
      var existing := GetJobById(jobId);
      if existing != null {
        return false;
      }
      var record := new JobRecord(jobId, row);
      Add(record);
      return true;
    }

    /** Assigns the given columns of the job's row; all other rows stay as they are. */
    method UpdateJobStatus(jobId: JobId, patch: JobPatch) returns (record: JobRecord?)
      requires Valid()
      modifies Repr
      ensures Valid() && Repr == old(Repr)
      ensures record == null <==> jobId !in old(rows)
      ensures rows == if jobId in old(rows) then old(rows)[jobId := Patched(old(rows)[jobId], patch)] else old(rows)
    {
      record := GetJobById(jobId);
      if record != null {
        assert forall i {:trigger records[i]} :: 0 <= i < |records| && i != index[jobId] ==> records[i].jobId != jobId;
        record.Assign(patch);
        rows := rows[jobId := Patched(rows[jobId], patch)];
      }
    }
  }

  class ReportTable {
    var records: seq<ReportRecord>
    /** The unique index on job_id: it finds every record by its job, so a job has at most one. */
    ghost var index: map<JobId, nat>
    /** What the table holds. */
    ghost var rows: map<JobId, Report>
    ghost var Repr: set<object>

    ghost predicate Valid()
      reads this, Repr
      ensures Valid() ==> this in Repr
    {
      && this in Repr
      && (forall i {:trigger records[i]} :: 0 <= i < |records| ==>
            var id := records[i].jobId;
            records[i] in Repr && id in rows && id in index && index[id] == i && rows[id] == records[i].Content())
      && (forall job {:trigger index[job]} {:trigger job in index} :: job in rows ==>
            job in index && index[job] < |records| && records[index[job]].jobId == job)
    }

    constructor ()
      ensures Valid() && fresh(Repr) && rows == map[]
    {
      records, index, rows := [], map[], map[];
      Repr := {this};
    }

    method FindReport(jobId: JobId) returns (record: ReportRecord?)
      requires Valid()
      ensures record == null <==> jobId !in rows
      ensures record != null ==> record in records && record.jobId == jobId && rows[jobId] == record.Content()
      ensures record != null ==> jobId in index && index[jobId] < |records| && records[index[jobId]] == record
    {
      assert jobId in rows ==> jobId in index && index[jobId] < |records| && records[index[jobId]].jobId == jobId;
      for i := 0 to |records|
        invariant forall k :: 0 <= k < i ==> records[k].jobId != jobId
      {
        if records[i].jobId == jobId {
          return records[i];
        }
      }
      return null;
    }

    method Add(record: ReportRecord)
      requires Valid() && record.jobId !in rows
      modifies this
      ensures Valid() && Repr == old(Repr) + {record}
      ensures rows == old(rows)[record.jobId := record.Content()] && |records| == |old(records)| + 1
    {
      records, index := records + [record], index[record.jobId := |records|];
      rows := rows[record.jobId := record.Content()];
      Repr := Repr + {record};
    }

    method Replace(record: ReportRecord, report: Report)
      requires Valid() && record in records
      modifies Repr
      ensures Valid() && Repr == old(Repr) && records == old(records)
      ensures rows == old(rows)[record.jobId := report]
    {
      var jobId := record.jobId;
      assert forall i {:trigger records[i]} :: 0 <= i < |records| && i != index[jobId] ==> records[i].jobId != jobId;
      record.Overwrite(report);
      rows := rows[jobId := report];
    }

    /** Overwrites the job's report, or adds one: there is never a second. */
    method SaveFinalReport(jobId: JobId, report: Report)
      requires Valid()
      modifies Repr
      ensures Valid() && fresh(Repr - old(Repr))
      ensures rows == old(rows)[jobId := report]
      ensures |records| == |old(records)| + (if jobId in old(rows) then 0 else 1)
    {
      var existing := FindReport(jobId);
      if existing == null {
        var record := new ReportRecord(jobId, report);
        Add(record);
      } else {
        Replace(existing, report);
      }
    }
  }
}
