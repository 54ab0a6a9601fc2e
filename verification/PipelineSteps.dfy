/**
 The worker's handling of one delivery, one awaited operation per step.

 A program counter carries the local variables the rest of the handling still needs. The events are
 what the environment decides: what GitHub and the model answer, and whether an operation raises.
 */
module PipelineSteps {
  import opened Prelude
  import opened UrlValidator
  import opened Schema
  import opened Stores
  import opened ContextSanitizer

  type Positive = n: nat | n > 0 witness 1

  /** Settings of a deployment. They have no value here: every result holds for all of them. */
  const TOKEN_BUDGET: int
  const MAX_QUEUE_ATTEMPTS: Positive

  datatype Pc =
    // the pipeline
    | Start(parsed: Result<Target, UrlError>)
    | MarkSnapshot(target: Target, instant: Option<InstantMetadata>)
    | MarkRow(target: Target)
    | Fetch(target: Target)
    | SnapshotFetched(ctx: RawContext)
    | RowFetched(ctx: RawContext)
    | LookupCache(ctx: RawContext)
    | SnapshotAnalyzing(ctx: RawContext, prompt: PromptPayload)
    | Analyze(ctx: RawContext, prompt: PromptPayload)
    | CacheAnswer(ctx: RawContext, insights: Insights)
    | StoreReport(ctx: RawContext, analysis: Option<Insights>, reason: Option<string>)
    | CompleteRow(ctx: RawContext, reason: Option<string>)
    | CompleteSnapshot(ctx: RawContext, reason: Option<string>)
    // the worker around it
    | Acknowledge
    | Handle(error: string)
    | FailRow(error: string)
    | FailSnapshot(error: string)
    | Release

  datatype Event =
    | Proceed
    | Fetched(ctx: RawContext)
    | Prompted(prompt: Result<PromptPayload, PromptError>)
    | Answered(insights: Insights)
    | Declined(reason: string)
    | Raised(error: string)
    | RaisedLate(error: string)

  predicate InPipeline(pc: Pc) {
    pc.Start? || pc.MarkSnapshot? || pc.MarkRow? || pc.Fetch? || pc.SnapshotFetched? || pc.RowFetched?
    || pc.LookupCache? || pc.SnapshotAnalyzing? || pc.Analyze? || pc.CacheAnswer? || pc.StoreReport?
    || pc.CompleteRow? || pc.CompleteSnapshot?
  }

  /**
   Any operation of the pipeline may raise; GitHub, the prompt builder and the model answer where they
   are asked. Of the prompt builder only the cache key it puts into the prompt is used here.

   A write that lands and then raises is that write followed by the next operation raising, except for
   the last write of the pipeline, which has an event of its own for it.
   */
  predicate Fits(pc: Pc, ev: Event) {
    match ev
    case Raised(_) => InPipeline(pc)
    case RaisedLate(_) => pc.CompleteSnapshot?
    case Fetched(ctx) => pc.Fetch? && ctx.target == pc.target
    case Prompted(prompt) => pc.LookupCache? && (prompt.Ok? ==> prompt.value.cacheKey == CacheKey(pc.ctx))
    case Answered(_) => pc.Analyze?
    case Declined(_) => pc.Analyze?
    case Proceed => !pc.Fetch? && !pc.LookupCache? && !pc.Analyze?
  }

  function DoneMessage(reason: Option<string>): Progress {
    if Truthy(reason) then CompletedWithFallback else ResearchCompleted
  }

  function Working(progress: Progress, instant: Option<InstantMetadata>): Snapshot {
    Snapshot(Processing, progress, instant, None, None, None)
  }

  function DoneSnapshot(ctx: RawContext, reason: Option<string>): Snapshot {
    Snapshot(Completed, DoneMessage(reason), Some(ctx.instant), Some(Truthy(reason)), reason, None)
  }

  function FailedSnapshot(error: string): Snapshot {
    Snapshot(Failed, FailedForGood, None, None, None, Some(error))
  }

  function DonePatch(ctx: RawContext, reason: Option<string>): JobPatch {
    UNSET.(status := Set(Completed), progress := Set(DoneMessage(reason)), error := Set(None),
           aiCacheKey := Set(Some(CacheKey(ctx))))
  }

  /** One step of the handling of a delivery of a job: the new stores and what comes next. */
  function Advance(st: Stores, job: JobId, receives: nat, pc: Pc, ev: Event): (Stores, Pc)
    requires Fits(pc, ev)
  {
    if ev.Raised? then (st, Handle(ev.error))
    else
      match pc
      case Start(parsed) =>
        (match parsed
         case Err(_) => (st, Handle("Invalid repository URL"))
         case Ok(target) =>
           var existing := SnapshotOf(st, job);
           (st, MarkSnapshot(target, if existing.Some? then existing.value.instant else None)))
      case MarkSnapshot(target, instant) =>
        (SetSnapshot(st, job, Working(FetchingGithub, instant)), MarkRow(target))
      case MarkRow(target) =>
        (UpdateJob(st, job, UNSET.(status := Set(Processing), progress := Set(FetchingGithub), error := Set(None))),
         Fetch(target))
      case Fetch(target) =>
        (st, SnapshotFetched(ev.ctx))
      case SnapshotFetched(ctx) =>
        (SetSnapshot(st, job, Working(PreparingAnalysis, Some(ctx.instant))), RowFetched(ctx))
      case RowFetched(ctx) =>
        (UpdateJob(st, job, UNSET.(commitSha := Set(Some(ctx.commitSha)), instant := Set(Some(ctx.instant)),
                                   progress := Set(PreparingAnalysis), aiCacheKey := Set(Some(CacheKey(ctx))))),
         LookupCache(ctx))
      case LookupCache(ctx) =>
        (match InsightsOf(st, CacheKey(ctx))
         case Some(cached) => (st, StoreReport(ctx, Some(cached), None))
         case None =>
           match ev.prompt
           case Err(_) => (st, Handle("Prompt template error"))
           case Ok(prompt) => (st, SnapshotAnalyzing(ctx, prompt)))
      case SnapshotAnalyzing(ctx, prompt) =>
        (SetSnapshot(st, job, Working(RunningAnalysis, Some(ctx.instant))), Analyze(ctx, prompt))
      case Analyze(ctx, prompt) =>
        if ev.Answered? then
          (st.(calls := st.calls + [LlmCall(ctx, prompt, ev.insights)]),
           CacheAnswer(ctx, MergeWarnings(ev.insights, prompt.warnings)))
        else (st, StoreReport(ctx, None, Some(ev.reason)))
      case CacheAnswer(ctx, insights) =>
        (SetInsights(st, CacheKey(ctx), insights), StoreReport(ctx, Some(insights), None))
      case StoreReport(ctx, analysis, reason) =>
        (SaveReport(st, job, MakeReport(ctx, analysis, reason)), CompleteRow(ctx, reason))
      case CompleteRow(ctx, reason) =>
        (UpdateJob(st, job, DonePatch(ctx, reason)), CompleteSnapshot(ctx, reason))
      case CompleteSnapshot(ctx, reason) =>
        (SetSnapshot(st, job, DoneSnapshot(ctx, reason)), if ev.RaisedLate? then Handle(ev.error) else Acknowledge)
      case Acknowledge => (st, Acknowledge)
      case Handle(error) =>
        (st, if receives >= MAX_QUEUE_ATTEMPTS then FailRow(error) else Release)
      case FailRow(error) =>
        (UpdateJob(st, job, UNSET.(status := Set(Failed), progress := Set(FailedForGood), error := Set(Some(error)))),
         FailSnapshot(error))
      case FailSnapshot(error) =>
        (SetSnapshot(st, job, FailedSnapshot(error)), Release)
      case Release => (st, Release)
  }

  /** An upper bound on the steps left: every step lowers it. */
  function Rank(pc: Pc): nat {
    match pc
    case Start(_) => 17
    case MarkSnapshot(_, _) => 16
    case MarkRow(_) => 15
    case Fetch(_) => 14
    case SnapshotFetched(_) => 13
    case RowFetched(_) => 12
    case LookupCache(_) => 11
    case SnapshotAnalyzing(_, _) => 10
    case Analyze(_, _) => 9
    case CacheAnswer(_, _) => 8
    case StoreReport(_, _, _) => 7
    case CompleteRow(_, _) => 6
    case CompleteSnapshot(_, _) => 5
    case Acknowledge => 1
    case Handle(_) => 4
    case FailRow(_) => 3
    case FailSnapshot(_) => 2
    case Release => 1
  }

  /** The two points at which only the queue is left to be told. */
  predicate AtQueue(pc: Pc) {
    pc.Acknowledge? || pc.Release?
  }

  lemma AdvanceLowersRank(st: Stores, job: JobId, receives: nat, pc: Pc, ev: Event)
    requires Fits(pc, ev) && !AtQueue(pc)
    ensures Rank(Advance(st, job, receives, pc, ev).1) < Rank(pc)
  {
  }

  // ---------------------------------------------------------------- the real prompt builder

  type Builder = RawContext -> Result<PromptPayload, PromptError>

  /** The prompt builder under the configured budget. */
  function ServicePrompt(ctx: RawContext): Result<PromptPayload, PromptError> {
    PromptFor(ctx, TOKEN_BUDGET)
  }

  /** It keeps to what Fits asks of it: its key is the one the pipeline computes. */
  lemma PromptBuilderFits(ctx: RawContext)
    ensures Fits(LookupCache(ctx), Prompted(ServicePrompt(ctx)))
  {
  }
}
