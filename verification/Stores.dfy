/** The durable and the expiring stores of the service, as values, and the writes made to them. */
module Stores {
  import opened Prelude
  import opened Schema

  datatype Status = Pending | Processing | Completed | Failed

  /** The progress messages, by what they say. */
  datatype Progress =
    | RepositoryFetched
    | FetchingGithub
    | PreparingAnalysis
    | RunningAnalysis
    | ResearchCompleted
    | CompletedWithFallback
    | CompletedFromCache
    | EnqueueFailed
    | FailedForGood

  function ProgressText(p: Progress): string {
    match p
    case RepositoryFetched => "Repository metadata fetched"
    case FetchingGithub => "Fetching GitHub data"
    case PreparingAnalysis => "Preparing AI analysis"
    case RunningAnalysis => "Running AI analysis"
    case ResearchCompleted => "Research completed"
    case CompletedWithFallback => "Completed with deterministic fallback"
    case CompletedFromCache => "Completed from cache"
    case EnqueueFailed => "Queue enqueue failed"
    case FailedForGood => "Research failed after maximum retry attempts"
  }

  lemma ProgressTextStarts(p: Progress)
    ensures var text := ProgressText(p);
            |text| > 0 && (|text|, text[0]) == match p
              case RepositoryFetched => (27, 'R')
              case FetchingGithub => (20, 'F')
              case PreparingAnalysis => (21, 'P')
              case RunningAnalysis => (19, 'R')
              case ResearchCompleted => (18, 'R')
              case CompletedWithFallback => (37, 'C')
              case CompletedFromCache => (20, 'C')
              case EnqueueFailed => (20, 'Q')
              case FailedForGood => (44, 'R')
  {
  }

  /** The texts tell the messages apart, so answers that differ in the message differ in the text. */
  lemma ProgressTextsDiffer(p: Progress, q: Progress)
    ensures ProgressText(p) == ProgressText(q) <==> p == q
  {
    ProgressTextStarts(p);
    ProgressTextStarts(q);
  }

  datatype JobRow = JobRow(
    repositoryUrl: string,
    owner: string,
    repo: string,
    status: Status,
    commitSha: Option<string>,
    instant: Option<InstantMetadata>,
    progress: Progress,
    error: Option<string>,
    aiCacheKey: Option<AiKey>)

  /** The Markdown text is a function of these inputs, which is all that is used of it. */
  datatype Markdown = Rendered(ctx: RawContext, insights: Option<Insights>, reason: Option<string>)

  datatype Report = Report(
    repositoryUrl: string,
    commitSha: Option<string>,
    deterministicData: InstantMetadata,
    insights: Option<Insights>,
    fallback: bool,
    fallbackReason: Option<string>,
    markdown: Markdown)

  datatype Snapshot = Snapshot(
    status: Status,
    progress: Progress,
    instant: Option<InstantMetadata>,
    fallback: Option<bool>,
    fallbackReason: Option<string>,
    error: Option<string>)

  /** One answered request to the model: history, read by no part of the service. */
  datatype LlmCall = LlmCall(ctx: RawContext, prompt: PromptPayload, answer: Insights)

  datatype Stores = Stores(
    jobs: map<JobId, JobRow>,
    reports: map<JobId, Report>,
    snapshots: map<JobId, Snapshot>,
    insights: map<AiKey, Insights>,
    calls: seq<LlmCall>)

  // ---------------------------------------------------------------- job rows

  datatype Patch<T> = Keep | Set(value: T)

  function Apply<T>(patch: Patch<T>, current: T): T {
    match patch
    case Keep => current
    case Set(value) => value
  }

  datatype JobPatch = JobPatch(
    status: Patch<Status>,
    commitSha: Patch<Option<string>>,
    instant: Patch<Option<InstantMetadata>>,
    progress: Patch<Progress>,
    error: Patch<Option<string>>,
    aiCacheKey: Patch<Option<AiKey>>)

  const UNSET := JobPatch(Keep, Keep, Keep, Keep, Keep, Keep)

  function Patched(row: JobRow, patch: JobPatch): JobRow {
    row.(status := Apply(patch.status, row.status),
         commitSha := Apply(patch.commitSha, row.commitSha),
         instant := Apply(patch.instant, row.instant),
         progress := Apply(patch.progress, row.progress),
         error := Apply(patch.error, row.error),
         aiCacheKey := Apply(patch.aiCacheKey, row.aiCacheKey))
  }

  /** Every column that is given gets its value, and every other one, the job's identity included, keeps its own. */
  lemma PatchAssignsGiven(row: JobRow, patch: JobPatch)
    ensures var out := Patched(row, patch);
            && out.repositoryUrl == row.repositoryUrl && out.owner == row.owner && out.repo == row.repo
            && (if patch.status.Set? then out.status == patch.status.value else out.status == row.status)
            && (if patch.commitSha.Set? then out.commitSha == patch.commitSha.value else out.commitSha == row.commitSha)
            && (if patch.instant.Set? then out.instant == patch.instant.value else out.instant == row.instant)
            && (if patch.progress.Set? then out.progress == patch.progress.value else out.progress == row.progress)
            && (if patch.error.Set? then out.error == patch.error.value else out.error == row.error)
            && (if patch.aiCacheKey.Set? then out.aiCacheKey == patch.aiCacheKey.value
                else out.aiCacheKey == row.aiCacheKey)
  {
  }

  /** A job that has no row is left without one. */
  function UpdateJob(st: Stores, job: JobId, patch: JobPatch): Stores {
    if job in st.jobs then st.(jobs := st.jobs[job := Patched(st.jobs[job], patch)]) else st
  }

  function CreateJob(st: Stores, job: JobId, row: JobRow): Stores {
    st.(jobs := st.jobs[job := row])
  }

  // ---------------------------------------------------------------- reports, snapshots, AI results

  /** The report row built from a context, an analysis or the reason there is none. */
  function MakeReport(ctx: RawContext, insights: Option<Insights>, reason: Option<string>): Report {
    Report(ctx.repositoryUrl, Some(ctx.commitSha), ctx.instant, insights,
           Truthy(reason), reason, Rendered(ctx, insights, reason))
  }

  /** bool() of an optional string: present and not empty. */
  predicate Truthy(reason: Option<string>) {
    reason.Some? && reason.value != ""
  }

  function SaveReport(st: Stores, job: JobId, report: Report): Stores {
    st.(reports := st.reports[job := report])
  }

  function SetSnapshot(st: Stores, job: JobId, snapshot: Snapshot): Stores {
    st.(snapshots := st.snapshots[job := snapshot])
  }

  function SetInsights(st: Stores, key: AiKey, insights: Insights): Stores {
    st.(insights := st.insights[key := insights])
  }

  function SnapshotOf(st: Stores, job: JobId): Option<Snapshot> {
    if job in st.snapshots then Some(st.snapshots[job]) else None
  }

  function InsightsOf(st: Stores, key: AiKey): Option<Insights> {
    if key in st.insights then Some(st.insights[key]) else None
  }

  function ReportOf(st: Stores, job: JobId): Option<Report> {
    if job in st.reports then Some(st.reports[job]) else None
  }

  // ---------------------------------------------------------------- merging prompt warnings

  /** The messages appended in order, each only if it is not in the list yet. */
  function MergeLimitations(limitations: seq<string>, warnings: seq<Warning>): seq<string>
    decreases |warnings|
  {
    if warnings == [] then limitations
    else
      var before := MergeLimitations(limitations, warnings[..|warnings| - 1]);
      var message := warnings[|warnings| - 1].message;
      if message in before then before else before + [message]
  }

  function MergeWarnings(answer: Insights, warnings: seq<Warning>): Insights {
    answer.(securityHealth := answer.securityHealth.(
      limitations := MergeLimitations(answer.securityHealth.limitations, warnings)))
  }

  /** Nothing but the limitations of an answer is touched. */
  lemma MergeTouchesLimitations(answer: Insights, warnings: seq<Warning>)
    ensures var merged := MergeWarnings(answer, warnings);
            && merged.overview == answer.overview && merged.recommendations == answer.recommendations
            && merged.securityHealth.riskLevel == answer.securityHealth.riskLevel
            && merged.securityHealth.confidence == answer.securityHealth.confidence
            && merged.securityHealth.findings == answer.securityHealth.findings
            && merged.securityHealth.limitations == MergeLimitations(answer.securityHealth.limitations, warnings)
  {
  }

  /** The given limitations stay in front, every message is in, and nothing else. */
  lemma {:induction false} MergeContains(limitations: seq<string>, warnings: seq<Warning>)
    ensures limitations <= MergeLimitations(limitations, warnings)
    ensures forall m :: m in MergeLimitations(limitations, warnings) <==>
                          m in limitations || exists w :: w in warnings && w.message == m
    decreases |warnings|
  {
    if warnings != [] {
      var front, last := warnings[..|warnings| - 1], warnings[|warnings| - 1];
      MergeContains(limitations, front);
      assert forall w :: w in warnings <==> w in front || w == last;
    }
  }

  /** The message at this place is new, and given there for the first time. */
  predicate FirstGiven(limitations: seq<string>, warnings: seq<Warning>, k: nat)
    requires k < |warnings|
  {
    && warnings[k].message !in limitations
    && forall j :: 0 <= j < k ==> warnings[j].message != warnings[k].message
  }

  lemma FirstStays(limitations: seq<string>, warnings: seq<Warning>, k: nat)
    requires k < |warnings| - 1 && FirstGiven(limitations, warnings[..|warnings| - 1], k)
    ensures FirstGiven(limitations, warnings, k)
  {
  }

  lemma LastIsFirst(limitations: seq<string>, warnings: seq<Warning>)
    requires warnings != []
    requires var n := |warnings| - 1; warnings[n].message !in MergeLimitations(limitations, warnings[..n])
    ensures FirstGiven(limitations, warnings, |warnings| - 1)
  {
    var front := warnings[..|warnings| - 1];
    MergeContains(limitations, front);
    assert forall j :: 0 <= j < |front| ==> front[j] in front && front[j] == warnings[j];
  }

  /** What is added are the messages that are new, each where it is first given, in this order. */
  lemma {:induction false} MergeAddsInOrder(limitations: seq<string>, warnings: seq<Warning>) returns (at: seq<nat>)
    ensures forall i, j :: 0 <= i < j < |at| ==> at[i] < at[j]
    ensures forall i :: 0 <= i < |at| ==> at[i] < |warnings| && FirstGiven(limitations, warnings, at[i])
    ensures |MergeLimitations(limitations, warnings)| == |limitations| + |at|
    ensures forall i :: 0 <= i < |at| ==>
              MergeLimitations(limitations, warnings)[|limitations| + i] == warnings[at[i]].message
    decreases |warnings|
  {
    if warnings == [] {
      at := [];
    } else {
      var n := |warnings| - 1;
      at := MergeAddsInOrder(limitations, warnings[..n]);
      forall i | 0 <= i < |at| ensures FirstGiven(limitations, warnings, at[i]) {
        FirstStays(limitations, warnings, at[i]);
      }
      if warnings[n].message !in MergeLimitations(limitations, warnings[..n]) {
        LastIsFirst(limitations, warnings);
        at := at + [n];
      }
    }
  }

  /** Merging warnings that are already in changes nothing. */
  lemma {:induction false} MergeAgain(limitations: seq<string>, warnings: seq<Warning>)
    requires forall w :: w in warnings ==> w.message in limitations
    ensures MergeLimitations(limitations, warnings) == limitations
    decreases |warnings|
  {
    if warnings != [] {
      var front, last := warnings[..|warnings| - 1], warnings[|warnings| - 1];
      assert forall w :: w in front ==> w in warnings;
      assert last in warnings;
      MergeAgain(limitations, front);
    }
  }

  lemma MergeIdempotent(answer: Insights, warnings: seq<Warning>)
    ensures MergeWarnings(MergeWarnings(answer, warnings), warnings) == MergeWarnings(answer, warnings)
  {
    var merged := MergeLimitations(answer.securityHealth.limitations, warnings);
    MergeContains(answer.securityHealth.limitations, warnings);
    MergeAgain(merged, warnings);
  }
}
