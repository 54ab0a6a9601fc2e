/**
 The polling endpoint: the observer of the protocol. It reads the snapshot first and the report
 second, and any number of steps of the service may lie between the two reads.
 */
module Poll {
  import opened Prelude
  import opened Schema
  import opened Stores
  import opened System
  import opened Safety

  /** The report as it is shown, without the two columns the endpoint does not read. */
  datatype ReportView = ReportView(
    repositoryUrl: string,
    deterministicData: InstantMetadata,
    insights: Option<Insights>,
    fallbackReason: Option<string>,
    markdown: Markdown)

  datatype Answer =
    | NotFound
    | Found(
        status: Status,
        progress: Progress,
        instant: Option<InstantMetadata>,
        report: Option<ReportView>,
        fallback: Option<bool>,
        fallbackReason: Option<string>,
        error: Option<string>)

  function LoadReport(st: Stores, job: JobId): Option<ReportView> {
    match ReportOf(st, job)
    case None => None
    case Some(r) => Some(ReportView(r.repositoryUrl, r.deterministicData, r.insights, r.fallbackReason, r.markdown))
  }

  /** The snapshot an expired one is replaced with when a report is there. */
  function Recovered(view: ReportView): Snapshot {
    Snapshot(Completed, ResearchCompleted, Some(view.deterministicData),
             Some(Truthy(view.fallbackReason)), view.fallbackReason, None)
  }

  function Shown(s: Snapshot, report: Option<ReportView>): Answer {
    Found(s.status, s.progress, s.instant, report, s.fallback, s.fallbackReason, s.error)
  }

  /** The answer from the snapshot of one moment and the report of a moment not before it. */
  function PollAnswer(early: Stores, late: Stores, job: JobId): Answer {
    match SnapshotOf(early, job)
    case Some(snapshot) => Shown(snapshot, if snapshot.status.Completed? then LoadReport(late, job) else None)
    case None =>
      match LoadReport(late, job)
      case None => NotFound
      case Some(view) => Shown(Recovered(view), Some(view))
  }

  /**
   What an answer shows. If the first read found a snapshot, it is that snapshot, field by field. If only the
   report was found, the answer says completed and takes its data and its reason from the report. A report is
   shown beside a completed status if the second read found one, and it is the stored one, field by field.
   */
  lemma AnswerShowsWhatWasRead(early: Stores, late: Stores, job: JobId)
    ensures var answer := PollAnswer(early, late, job);
            && (answer.NotFound? <==> job !in early.snapshots && job !in late.reports)
            && (job in early.snapshots ==>
                  var s := early.snapshots[job];
                  && answer.status == s.status && answer.progress == s.progress && answer.instant == s.instant
                  && answer.fallback == s.fallback && answer.fallbackReason == s.fallbackReason
                  && answer.error == s.error)
            && (job !in early.snapshots && job in late.reports ==>
                  var r := late.reports[job];
                  && answer.status == Completed && answer.progress == ResearchCompleted
                  && answer.instant == Some(r.deterministicData) && answer.error == None
                  && answer.fallback == Some(r.fallbackReason.Some? && r.fallbackReason.value != "")
                  && answer.fallbackReason == r.fallbackReason)
            && (answer.Found? ==> (answer.report.Some? <==> answer.status == Completed && job in late.reports))
            && (answer.Found? && answer.report.Some? ==>
                  var shown, r := answer.report.value, late.reports[job];
                  && shown.repositoryUrl == r.repositoryUrl && shown.deterministicData == r.deterministicData
                  && shown.insights == r.insights && shown.fallbackReason == r.fallbackReason
                  && shown.markdown == r.markdown)
  {
  }

  /**
   However the service moves between the two reads, the answer carries a report exactly when it says
   completed, and that report is the one stored at the second read; there is no answer exactly when
   neither read found anything.
   */
  lemma CompletedAnswerHasReport(s: State, run: seq<Label>, job: JobId)
    requires Reachable(s) && IsRun(s, run)
    ensures var early, late := s.stores, After(s, run).stores;
            var answer := PollAnswer(early, late, job);
            && (answer.NotFound? <==> job !in early.snapshots && job !in late.reports)
            && (answer.Found? ==> (answer.report.Some? <==> answer.status.Completed?))
            && (answer.Found? && answer.report.Some? ==> answer.report == LoadReport(late, job))
  {
    CompletedHasReport(s, job);
    if job in s.stores.reports {
      ReportsStay(s, run, job);
    }
  }

  /** Once a poll has answered completed, no later poll answers that there is no such job. */
  lemma CompletedStaysFound(s: State, first: seq<Label>, second: seq<Label>, third: seq<Label>, job: JobId)
    requires Reachable(s) && IsRun(s, first)
    requires IsRun(After(s, first), second) && IsRun(After(After(s, first), second), third)
    requires var answer := PollAnswer(s.stores, After(s, first).stores, job);
             answer.Found? && answer.status.Completed?
    ensures var mid := After(After(s, first), second);
            !PollAnswer(mid.stores, After(mid, third).stores, job).NotFound?
  {
    var mid := After(After(s, first), second);
    CompletedAnswerHasReport(s, first, job);
    StaysReachable(s, first);
    ReportsStay(After(s, first), second, job);
    StaysReachable(After(s, first), second);
    ReportsStay(mid, third, job);
  }
}
