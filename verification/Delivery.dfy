/**
 One delivery handled without interruption: the composition of the single steps, what it leaves in the
 stores, and why handling the same message again changes nothing.
 */
module Delivery {
  import opened Prelude
  import opened UrlValidator
  import opened Schema
  import opened Stores
  import opened PipelineSteps
  import opened System

  datatype Analysis = Answers(insights: Insights) | Declines(reason: string) | Breaks(error: string)

  /** What GitHub and the model say while one delivery is handled. */
  datatype World = World(github: Result<RawContext, string>, model: Analysis)

  ghost predicate KeepsKey(builder: Builder) {
    forall ctx :: builder(ctx).Ok? ==> builder(ctx).value.cacheKey == CacheKey(ctx)
  }

  function Reaction(pc: Pc, world: World, builder: Builder): (ev: Event)
    requires pc.LookupCache? && builder(pc.ctx).Ok? ==> builder(pc.ctx).value.cacheKey == CacheKey(pc.ctx)
    ensures Fits(pc, ev)
  {
    match pc
    case Fetch(target) =>
      (match world.github
       case Ok(ctx) => Fetched(Asked(ctx, target))
       case Err(error) => Raised(error))
    case LookupCache(ctx) => Prompted(builder(ctx))
    case Analyze(_, _) =>
      (match world.model
       case Answers(insights) => Answered(insights)
       case Declines(reason) => Declined(reason)
       case Breaks(error) => Raised(error))
    case _ => Proceed
  }

  /** The steps of a handling up to the point where only the queue is left to be told. */
  ghost function Drive(st: Stores, job: JobId, receives: nat, pc: Pc, world: World, builder: Builder): (Stores, Pc)
    requires KeepsKey(builder)
    decreases Rank(pc)
  {
    if AtQueue(pc) then (st, pc)
    else
      var ev := Reaction(pc, world, builder);
      AdvanceLowersRank(st, job, receives, pc, ev);
      var (st', pc') := Advance(st, job, receives, pc, ev);
      Drive(st', job, receives, pc', world, builder)
  }

  /** The composition is a run of the service in which only this worker moves. */
  lemma {:induction false} DriveIsRun(s: State, w: nat, world: World, builder: Builder) returns (run: seq<Label>)
    requires KeepsKey(builder) && BusyAt(s, w)
    ensures IsRun(s, run)
    ensures var worker := s.workers[w];
            var (st, pc) := Drive(s.stores, worker.job, worker.receives, worker.pc, world, builder);
            After(s, run) == SetWorker(s, w, worker.(pc := pc)).(stores := st)
    decreases Rank(s.workers[w].pc)
  {
    var worker := s.workers[w];
    if AtQueue(worker.pc) {
      assert s.workers[w := worker] == s.workers;
      run := [];
    } else {
      var ev := Reaction(worker.pc, world, builder);
      AdvanceLowersRank(s.stores, worker.job, worker.receives, worker.pc, ev);
      var rest := DriveIsRun(WorkStep(s, w, ev), w, world, builder);
      run := [Work(w, ev)] + rest;
      assert run[1..] == rest;
    }
  }

  /** Unfolds one step. */
  lemma DriveStep(st: Stores, job: JobId, receives: nat, pc: Pc, world: World, builder: Builder)
    returns (st': Stores, pc': Pc)
    requires KeepsKey(builder) && !AtQueue(pc)
    ensures (st', pc') == Advance(st, job, receives, pc, Reaction(pc, world, builder))
    ensures Drive(st, job, receives, pc, world, builder) == Drive(st', job, receives, pc', world, builder)
  {
    var next := Advance(st, job, receives, pc, Reaction(pc, world, builder));
    AdvanceLowersRank(st, job, receives, pc, Reaction(pc, world, builder));
    st', pc' := next.0, next.1;
  }

  // ---------------------------------------------------------------- segments of a handling

  /** What the row updates before the analysis amount to. */
  function FetchedPatch(ctx: RawContext): JobPatch {
    JobPatch(Set(Processing), Set(Some(ctx.commitSha)), Set(Some(ctx.instant)), Set(PreparingAnalysis), Set(None),
             Set(Some(CacheKey(ctx))))
  }

  /** Until GitHub has answered, the job is marked as being worked on. */
  const FETCHING := UNSET.(status := Set(Processing), progress := Set(FetchingGithub), error := Set(None))

  /** The metadata an earlier snapshot of the job shows is kept. */
  function KnownInstant(existing: Option<Snapshot>): Option<InstantMetadata> {
    if existing.Some? then existing.value.instant else None
  }

  function Fetching(st: Stores, job: JobId): Stores {
    UpdateJob(SetSnapshot(st, job, Working(FetchingGithub, KnownInstant(SnapshotOf(st, job)))), job, FETCHING)
  }

  lemma DriveToFetch(st: Stores, job: JobId, receives: nat, target: Target, world: World, builder: Builder)
    requires KeepsKey(builder)
    ensures Drive(st, job, receives, Start(Ok(target)), world, builder)
         == Drive(Fetching(st, job), job, receives, Fetch(target), world, builder)
  {
    var st1, pc1 := DriveStep(st, job, receives, Start(Ok(target)), world, builder);
    var st2, pc2 := DriveStep(st1, job, receives, pc1, world, builder);
    var st3, pc3 := DriveStep(st2, job, receives, pc2, world, builder);
  }

  /** What the row update after GitHub has answered assigns, which does not repeat what FETCHING did. */
  function AnswerPatch(ctx: RawContext): JobPatch {
    FetchedPatch(ctx).(status := Keep, error := Keep)
  }

  function Preparing(st: Stores, job: JobId, ctx: RawContext, patch: JobPatch): Stores {
    UpdateJob(SetSnapshot(st, job, Working(PreparingAnalysis, Some(ctx.instant))), job, patch)
  }

  lemma DriveFetch(st: Stores, job: JobId, receives: nat, target: Target, world: World, builder: Builder)
    requires KeepsKey(builder) && world.github.Ok?
    ensures var ctx := Asked(world.github.value, target);
            Drive(st, job, receives, Fetch(target), world, builder)
            == Drive(Preparing(st, job, ctx, AnswerPatch(ctx)), job, receives, LookupCache(ctx), world, builder)
  {
    var st1, pc1 := DriveStep(st, job, receives, Fetch(target), world, builder);
    var st2, pc2 := DriveStep(st1, job, receives, pc1, world, builder);
    var st3, pc3 := DriveStep(st2, job, receives, pc2, world, builder);
  }

  lemma TwoUpdates(st: Stores, job: JobId, ctx: RawContext)
    ensures Preparing(Fetching(st, job), job, ctx, AnswerPatch(ctx)) == Preparing(st, job, ctx, FetchedPatch(ctx))
  {
    if job in st.jobs {
      assert Patched(Patched(st.jobs[job], FETCHING), AnswerPatch(ctx)) == Patched(st.jobs[job], FetchedPatch(ctx));
    }
  }

  /** Fetching the repository: nothing but the row and the snapshot of the job changes. */
  lemma DriveToLookup(st: Stores, job: JobId, receives: nat, target: Target, world: World, builder: Builder)
    returns (st': Stores)
    requires KeepsKey(builder) && world.github.Ok?
    ensures var ctx := Asked(world.github.value, target);
            && Drive(st, job, receives, Start(Ok(target)), world, builder)
               == Drive(st', job, receives, LookupCache(ctx), world, builder)
            && st' == Preparing(st, job, ctx, FetchedPatch(ctx))
  {
    var ctx := Asked(world.github.value, target);
    DriveToFetch(st, job, receives, target, world, builder);
    DriveFetch(Fetching(st, job), job, receives, target, world, builder);
    TwoUpdates(st, job, ctx);
    st' := Preparing(st, job, ctx, FetchedPatch(ctx));
  }

  /** Report, row and snapshot, written in this order. */
  function Filed(st: Stores, job: JobId, ctx: RawContext, analysis: Option<Insights>, reason: Option<string>): Stores {
    SetSnapshot(UpdateJob(SaveReport(st, job, MakeReport(ctx, analysis, reason)), job, DonePatch(ctx, reason)),
                job, DoneSnapshot(ctx, reason))
  }

  lemma DriveToEnd(st: Stores, job: JobId, receives: nat, ctx: RawContext, analysis: Option<Insights>,
                   reason: Option<string>,
                   world: World, builder: Builder)
    requires KeepsKey(builder)
    ensures Drive(st, job, receives, StoreReport(ctx, analysis, reason), world, builder)
         == (Filed(st, job, ctx, analysis, reason), Acknowledge)
  {
    var st1, pc1 := DriveStep(st, job, receives, StoreReport(ctx, analysis, reason), world, builder);
    var st2, pc2 := DriveStep(st1, job, receives, pc1, world, builder);
    var st3, pc3 := DriveStep(st2, job, receives, pc2, world, builder);
  }

  /** A cached analysis is used as it is. */
  lemma DriveCached(st: Stores, job: JobId, receives: nat, ctx: RawContext, world: World, builder: Builder)
    requires KeepsKey(builder) && CacheKey(ctx) in st.insights
    ensures Drive(st, job, receives, LookupCache(ctx), world, builder)
         == Drive(st, job, receives, StoreReport(ctx, Some(st.insights[CacheKey(ctx)]), None), world, builder)
  {
    var st1, pc1 := DriveStep(st, job, receives, LookupCache(ctx), world, builder);
  }

  /** Without one the prompt is built and the model asked; its answer is merged and cached. */
  lemma DriveFresh(st: Stores, job: JobId, receives: nat, ctx: RawContext, world: World, builder: Builder)
    returns (st': Stores)
    requires KeepsKey(builder) && CacheKey(ctx) !in st.insights
    requires builder(ctx).Ok? && world.model.Answers?
    ensures var merged := MergeWarnings(world.model.insights, builder(ctx).value.warnings);
            && Drive(st, job, receives, LookupCache(ctx), world, builder)
               == Drive(st', job, receives, StoreReport(ctx, Some(merged), None), world, builder)
            && st' == SetInsights(SetSnapshot(st, job, Working(RunningAnalysis, Some(ctx.instant))),
                                  CacheKey(ctx), merged)
                        .(calls := st.calls + [LlmCall(ctx, builder(ctx).value, world.model.insights)])
  {
    var st1, pc1 := DriveStep(st, job, receives, LookupCache(ctx), world, builder);
    var st2, pc2 := DriveStep(st1, job, receives, pc1, world, builder);
    var st3, pc3 := DriveStep(st2, job, receives, pc2, world, builder);
    var st4, pc4 := DriveStep(st3, job, receives, pc3, world, builder);
    st' := st4;
  }

  /** A model that is unavailable, or declines, leaves the report without an analysis. */
  lemma DriveDeclined(st: Stores, job: JobId, receives: nat, ctx: RawContext, world: World, builder: Builder)
    returns (st': Stores)
    requires KeepsKey(builder) && CacheKey(ctx) !in st.insights
    requires builder(ctx).Ok? && world.model.Declines?
    ensures Drive(st, job, receives, LookupCache(ctx), world, builder)
         == Drive(st', job, receives, StoreReport(ctx, None, Some(world.model.reason)), world, builder)
    ensures st' == SetSnapshot(st, job, Working(RunningAnalysis, Some(ctx.instant)))
  {
    var st1, pc1 := DriveStep(st, job, receives, LookupCache(ctx), world, builder);
    var st2, pc2 := DriveStep(st1, job, receives, pc1, world, builder);
    var st3, pc3 := DriveStep(st2, job, receives, pc2, world, builder);
    st' := st3;
  }

  // ---------------------------------------------------------------- what a delivery leaves behind

  /** The analysis, or the reason there is none, that a context comes to; or the error that ends the delivery. */
  function Analysed(cache: map<AiKey, Insights>, ctx: RawContext, world: World, builder: Builder)
    : Result<(Option<Insights>, Option<string>), string>
  {
    if CacheKey(ctx) in cache then Ok((Some(cache[CacheKey(ctx)]), None))
    else
      match builder(ctx)
      case Err(_) => Err("Prompt template error")
      case Ok(prompt) =>
        match world.model
        case Answers(insights) => Ok((Some(MergeWarnings(insights, prompt.warnings)), None))
        case Declines(reason) => Ok((None, Some(reason)))
        case Breaks(error) => Err(error)
  }

  /** A reason that is given, and is not the empty text. */
  predicate Present(reason: Option<string>) {
    match reason
    case None => false
    case Some(text) => |text| > 0
  }

  /** The report about a repository: its URL, commit and metadata, the analysis, and why there is none. */
  function ReportAbout(ctx: RawContext, analysis: Option<Insights>, reason: Option<string>): Report {
    Report(repositoryUrl := ctx.repositoryUrl, commitSha := Some(ctx.commitSha), deterministicData := ctx.instant,
           insights := analysis, fallback := Present(reason), fallbackReason := reason,
           markdown := Rendered(ctx := ctx, insights := analysis, reason := reason))
  }

  /** The snapshot of a job after a delivery that went through. */
  function FinishedSnapshot(ctx: RawContext, reason: Option<string>): Snapshot {
    Snapshot(status := Completed, progress := if Present(reason) then CompletedWithFallback else ResearchCompleted,
             instant := Some(ctx.instant), fallback := Some(Present(reason)), fallbackReason := reason, error := None)
  }

  /** The row of a job after a delivery that went through: everything but its identity is rewritten. */
  function DoneRow(row: JobRow, ctx: RawContext, reason: Option<string>): JobRow {
    row.(status := Completed, commitSha := Some(ctx.commitSha), instant := Some(ctx.instant),
         progress := if Present(reason) then CompletedWithFallback else ResearchCompleted,
         error := None, aiCacheKey := Some(CacheKey(ctx)))
  }

  predicate AsksModel(st: Stores, ctx: RawContext, world: World) {
    CacheKey(ctx) !in st.insights && world.model.Answers?
  }

  lemma DriveToReport(st: Stores, job: JobId, receives: nat, ctx: RawContext, world: World, builder: Builder)
    returns (st': Stores, snapshot: Snapshot)
    requires KeepsKey(builder) && job in st.snapshots && Analysed(st.insights, ctx, world, builder).Ok?
    ensures var (analysis, reason) := Analysed(st.insights, ctx, world, builder).value;
            && Drive(st, job, receives, LookupCache(ctx), world, builder)
               == Drive(st', job, receives, StoreReport(ctx, analysis, reason), world, builder)
            && st'.jobs == st.jobs && st'.reports == st.reports && st'.snapshots == st.snapshots[job := snapshot]
            && st'.insights == (if analysis.Some? then st.insights[CacheKey(ctx) := analysis.value] else st.insights)
            && st'.calls == st.calls + (if AsksModel(st, ctx, world)
                                        then [LlmCall(ctx, builder(ctx).value, world.model.insights)] else [])
  {
    if CacheKey(ctx) in st.insights {
      DriveCached(st, job, receives, ctx, world, builder);
      st', snapshot := st, st.snapshots[job];
      assert st.insights[CacheKey(ctx) := st.insights[CacheKey(ctx)]] == st.insights;
    } else if world.model.Answers? {
      st' := DriveFresh(st, job, receives, ctx, world, builder);
      snapshot := Working(RunningAnalysis, Some(ctx.instant));
    } else {
      st' := DriveDeclined(st, job, receives, ctx, world, builder);
      snapshot := Working(RunningAnalysis, Some(ctx.instant));
    }
  }

  /** The row updates of a delivery amount to one; the snapshots between the first and the last are gone. */
  lemma FiledAfterFetch(st: Stores, st': Stores, job: JobId, ctx: RawContext, analysis: Option<Insights>,
                        reason: Option<string>,
                        first: Snapshot, second: Snapshot)
    requires st'.jobs == UpdateJob(st, job, FetchedPatch(ctx)).jobs
    requires st'.snapshots == st.snapshots[job := first][job := second]
    ensures var filed := Filed(st', job, ctx, analysis, reason);
            && filed.jobs == (if job in st.jobs then st.jobs[job := DoneRow(st.jobs[job], ctx, reason)] else st.jobs)
            && filed.snapshots == st.snapshots[job := FinishedSnapshot(ctx, reason)]
            && filed.reports == st'.reports[job := ReportAbout(ctx, analysis, reason)]
            && filed.insights == st'.insights && filed.calls == st'.calls
  {
  }

  /**
   The stores after a delivery that came to an analysis, or to a reason for having none: the report made
   from it, the row and the snapshot completed, the analysis cached.
   */
  predicate GoneThrough(st: Stores, st': Stores, job: JobId, ctx: RawContext, analysis: Option<Insights>,
                        reason: Option<string>) {
    && st'.reports == st.reports[job := ReportAbout(ctx, analysis, reason)]
    && st'.snapshots == st.snapshots[job := FinishedSnapshot(ctx, reason)]
    && st'.jobs == (if job in st.jobs then st.jobs[job := DoneRow(st.jobs[job], ctx, reason)] else st.jobs)
    && st'.insights == (if analysis.Some? then st.insights[CacheKey(ctx) := analysis.value] else st.insights)
  }

  /** It is acknowledged, and one more answered call is made exactly if the cache did not have the analysis. */
  lemma DeliveryGoesThrough(st: Stores, job: JobId, receives: nat, target: Target, world: World, builder: Builder)
    requires KeepsKey(builder) && world.github.Ok?
    requires Analysed(st.insights, Asked(world.github.value, target), world, builder).Ok?
    ensures var ctx := Asked(world.github.value, target);
            var (analysis, reason) := Analysed(st.insights, ctx, world, builder).value;
            var (st', pc) := Drive(st, job, receives, Start(Ok(target)), world, builder);
            && pc == Acknowledge && GoneThrough(st, st', job, ctx, analysis, reason)
            && st'.calls == st.calls + (if AsksModel(st, ctx, world)
                                        then [LlmCall(ctx, builder(ctx).value, world.model.insights)] else [])
  {
    var ctx := Asked(world.github.value, target);
    var st1 := DriveToLookup(st, job, receives, target, world, builder);
    var (analysis, reason) := Analysed(st.insights, ctx, world, builder).value;
    var st2, snapshot := DriveToReport(st1, job, receives, ctx, world, builder);
    DriveToEnd(st2, job, receives, ctx, analysis, reason, world, builder);
    FiledAfterFetch(st, st2, job, ctx, analysis, reason, Working(PreparingAnalysis, Some(ctx.instant)), snapshot);
  }

  // ---------------------------------------------------------------- deliveries that fail

  /** The error a delivery ends in, if it ends in one. */
  function FailureOf(st: Stores, parsed: Result<Target, UrlError>, world: World, builder: Builder): Option<string> {
    match parsed
    case Err(_) => Some("Invalid repository URL")
    case Ok(target) =>
      match world.github
      case Err(error) => Some(error)
      case Ok(fetched) =>
        match Analysed(st.insights, Asked(fetched, target), world, builder)
        case Err(error) => Some(error)
        case Ok(_) => None
  }

  lemma DriveHandle(st: Stores, job: JobId, receives: nat, error: string, world: World, builder: Builder)
    requires KeepsKey(builder)
    ensures Drive(st, job, receives, Handle(error), world, builder)
         == (if receives >= MAX_QUEUE_ATTEMPTS then
               SetSnapshot(UpdateJob(st, job, FailedPatch(error)), job, FailedSnapshot(error))
             else st, Release)
  {
    var st1, pc1 := DriveStep(st, job, receives, Handle(error), world, builder);
    if receives >= MAX_QUEUE_ATTEMPTS {
      var st2, pc2 := DriveStep(st1, job, receives, pc1, world, builder);
      var st3, pc3 := DriveStep(st2, job, receives, pc2, world, builder);
    }
  }

  function FailedPatch(error: string): JobPatch {
    UNSET.(status := Set(Failed), progress := Set(FailedForGood), error := Set(Some(error)))
  }

  /** The row of a job that is worked on, before and after GitHub has answered. */
  function OpenRow(row: JobRow, fetched: Option<RawContext>): JobRow {
    match fetched
    case None => row.(status := Processing, progress := FetchingGithub, error := None)
    case Some(ctx) =>
      row.(status := Processing, commitSha := Some(ctx.commitSha), instant := Some(ctx.instant),
           progress := PreparingAnalysis, error := None, aiCacheKey := Some(CacheKey(ctx)))
  }

  /** Its snapshot: until GitHub has answered, it keeps the metadata that the one before it showed. */
  function OpenSnapshot(before: Option<Snapshot>, fetched: Option<RawContext>, progress: Progress): Snapshot {
    Snapshot(
      status := Processing, progress := progress,
      instant := match fetched
                 case Some(ctx) => Some(ctx.instant)
                 case None => (match before case None => None case Some(snapshot) => snapshot.instant),
      fallback := None, fallbackReason := None, error := None)
  }

  /** What a failed delivery has touched: the row and the snapshot of its job, which say it is worked on. */
  predicate LeftOpen(st: Stores, st': Stores, job: JobId, fetched: Option<RawContext>, progress: Progress) {
    && st'.reports == st.reports && st'.insights == st.insights && st'.calls == st.calls
    && st'.snapshots == st.snapshots[job := OpenSnapshot(SnapshotOf(st, job), fetched, progress)]
    && st'.jobs == (if job in st.jobs then st.jobs[job := OpenRow(st.jobs[job], fetched)] else st.jobs)
  }

  /** What a delivery that fails has fetched, and how far its snapshot says it came. */
  function FetchedIn(target: Target, world: World): Option<RawContext> {
    match world.github
    case Err(_) => None
    case Ok(ctx) => Some(Asked(ctx, target))
  }

  function FailedAt(target: Target, world: World, builder: Builder): Progress {
    match world.github
    case Err(_) => FetchingGithub
    case Ok(ctx) => if builder(Asked(ctx, target)).Err? then PreparingAnalysis else RunningAnalysis
  }

  lemma FetchFails(st: Stores, job: JobId, receives: nat, target: Target, world: World, builder: Builder)
    returns (st': Stores)
    requires KeepsKey(builder) && world.github.Err?
    ensures Drive(st, job, receives, Start(Ok(target)), world, builder)
         == Drive(st', job, receives, Handle(world.github.error), world, builder)
    ensures LeftOpen(st, st', job, None, FetchingGithub)
  {
    DriveToFetch(st, job, receives, target, world, builder);
    st' := Fetching(st, job);
    var st2, pc2 := DriveStep(st', job, receives, Fetch(target), world, builder);
  }

  lemma PromptFails(st: Stores, job: JobId, receives: nat, ctx: RawContext, world: World, builder: Builder)
    requires KeepsKey(builder) && CacheKey(ctx) !in st.insights && builder(ctx).Err?
    ensures Drive(st, job, receives, LookupCache(ctx), world, builder)
         == Drive(st, job, receives, Handle("Prompt template error"), world, builder)
  {
    var st1, pc1 := DriveStep(st, job, receives, LookupCache(ctx), world, builder);
  }

  lemma ModelFails(st: Stores, job: JobId, receives: nat, ctx: RawContext, world: World, builder: Builder)
    requires KeepsKey(builder) && CacheKey(ctx) !in st.insights && builder(ctx).Ok? && world.model.Breaks?
    ensures Drive(st, job, receives, LookupCache(ctx), world, builder)
         == Drive(SetSnapshot(st, job, Working(RunningAnalysis, Some(ctx.instant))), job, receives,
                  Handle(world.model.error), world, builder)
  {
    var st1, pc1 := DriveStep(st, job, receives, LookupCache(ctx), world, builder);
    var st2, pc2 := DriveStep(st1, job, receives, pc1, world, builder);
    var st3, pc3 := DriveStep(st2, job, receives, pc2, world, builder);
  }

  lemma AnalysisFails(st: Stores, job: JobId, receives: nat, ctx: RawContext, world: World, builder: Builder)
    returns (st': Stores, snapshot: Snapshot)
    requires KeepsKey(builder) && Analysed(st.insights, ctx, world, builder).Err?
    requires job in st.snapshots && st.snapshots[job] == Working(PreparingAnalysis, Some(ctx.instant))
    ensures Drive(st, job, receives, LookupCache(ctx), world, builder)
         == Drive(st', job, receives, Handle(Analysed(st.insights, ctx, world, builder).error), world, builder)
    ensures st' == st.(snapshots := st.snapshots[job := snapshot])
    ensures snapshot == Working(if builder(ctx).Err? then PreparingAnalysis else RunningAnalysis, Some(ctx.instant))
  {
    if builder(ctx).Err? {
      PromptFails(st, job, receives, ctx, world, builder);
      assert st.snapshots == st.snapshots[job := st.snapshots[job]];
      st', snapshot := st, Working(PreparingAnalysis, Some(ctx.instant));
    } else {
      ModelFails(st, job, receives, ctx, world, builder);
      snapshot := Working(RunningAnalysis, Some(ctx.instant));
      st' := SetSnapshot(st, job, snapshot);
    }
  }

  lemma FetchedIsOpen(st: Stores, st': Stores, job: JobId, ctx: RawContext, snapshot: Snapshot, progress: Progress)
    requires snapshot == Working(progress, Some(ctx.instant))
    requires st' == Preparing(st, job, ctx, FetchedPatch(ctx))
    ensures LeftOpen(st, st'.(snapshots := st'.snapshots[job := snapshot]), job, Some(ctx), progress)
  {
    assert st'.snapshots[job := snapshot] == st.snapshots[job := Working(progress, Some(ctx.instant))];
  }

  lemma DriveToFailure(st: Stores, job: JobId, receives: nat, target: Target, world: World, builder: Builder)
    returns (st': Stores)
    requires KeepsKey(builder) && FailureOf(st, Ok(target), world, builder).Some?
    ensures Drive(st, job, receives, Start(Ok(target)), world, builder)
         == Drive(st', job, receives, Handle(FailureOf(st, Ok(target), world, builder).value), world, builder)
    ensures LeftOpen(st, st', job, FetchedIn(target, world), FailedAt(target, world, builder))
  {
    if world.github.Err? {
      st' := FetchFails(st, job, receives, target, world, builder);
    } else {
      var ctx := Asked(world.github.value, target);
      var st1 := DriveToLookup(st, job, receives, target, world, builder);
      var st2, snapshot := AnalysisFails(st1, job, receives, ctx, world, builder);
      FetchedIsOpen(st, st1, job, ctx, snapshot, snapshot.progress);
      st' := st2;
    }
  }

  lemma MarkedForGood(st: Stores, st1: Stores, job: JobId, fetched: Option<RawContext>, progress: Progress,
                      error: string)
    requires LeftOpen(st, st1, job, fetched, progress)
    ensures var st' := SetSnapshot(UpdateJob(st1, job, FailedPatch(error)), job, FailedSnapshot(error));
            GivenUpOn(st, st', job, fetched, error)
  {
    assert st.snapshots[job := OpenSnapshot(SnapshotOf(st, job), fetched, progress)][job := FailedSnapshot(error)]
        == st.snapshots[job := FailedSnapshot(error)];
  }

  /** What a delivery that fails for good leaves: row and snapshot say so and name the error. */
  predicate GivenUpOn(st: Stores, st': Stores, job: JobId, fetched: Option<RawContext>, error: string) {
    && st'.reports == st.reports && st'.insights == st.insights && st'.calls == st.calls
    && st'.snapshots == st.snapshots[job := Snapshot(status := Failed, progress := FailedForGood, instant := None,
                                                     fallback := None, fallbackReason := None, error := Some(error))]
    && st'.jobs == (if job in st.jobs then
                      st.jobs[job := OpenRow(st.jobs[job], fetched)
                                       .(status := Failed, progress := FailedForGood, error := Some(error))]
                    else st.jobs)
  }

  /**
   A delivery that fails is released, adds no report, no cached analysis and no call, and marks the job
   failed exactly on the last attempt; before that the job stays open.
   */
  lemma DeliveryFails(st: Stores, job: JobId, receives: nat, target: Target, world: World, builder: Builder)
    requires KeepsKey(builder) && FailureOf(st, Ok(target), world, builder).Some?
    ensures var error := FailureOf(st, Ok(target), world, builder).value;
            var (st', pc) := Drive(st, job, receives, Start(Ok(target)), world, builder);
            && pc == Release
            && if receives < MAX_QUEUE_ATTEMPTS
               then LeftOpen(st, st', job, FetchedIn(target, world), FailedAt(target, world, builder))
               else GivenUpOn(st, st', job, FetchedIn(target, world), error)
  {
    var error := FailureOf(st, Ok(target), world, builder).value;
    var st1 := DriveToFailure(st, job, receives, target, world, builder);
    MarkedForGood(st, st1, job, FetchedIn(target, world), FailedAt(target, world, builder), error);
    DriveHandle(st1, job, receives, error, world, builder);
  }

  /** A message whose URL is refused fails without a trace, and marks the job on the last attempt as well. */
  lemma RefusedUrlFails(st: Stores, job: JobId, receives: nat, reason: UrlError, world: World, builder: Builder)
    requires KeepsKey(builder)
    ensures var (st', pc) := Drive(st, job, receives, Start(Err(reason)), world, builder);
            && pc == Release && (receives < MAX_QUEUE_ATTEMPTS ==> st' == st)
            && (receives >= MAX_QUEUE_ATTEMPTS ==>
                  && st'.reports == st.reports && st'.insights == st.insights && st'.calls == st.calls
                  && st'.snapshots
                     == st.snapshots[job := Snapshot(status := Failed, progress := FailedForGood, instant := None,
                                                     fallback := None, fallbackReason := None,
                                                     error := Some("Invalid repository URL"))]
                  && st'.jobs == (if job in st.jobs then
                                    st.jobs[job := st.jobs[job].(status := Failed, progress := FailedForGood,
                                                                 error := Some("Invalid repository URL"))]
                                  else st.jobs))
  {
    var st1, pc1 := DriveStep(st, job, receives, Start(Err(reason)), world, builder);
    DriveHandle(st, job, receives, "Invalid repository URL", world, builder);
  }

  // ---------------------------------------------------------------- redelivery

  /** The columns that no handling writes. */
  predicate SameIdentity(a: JobRow, b: JobRow) {
    a.repositoryUrl == b.repositoryUrl && a.owner == b.owner && a.repo == b.repo
  }

  /** The second of two deliveries of the same context and analysis adds nothing. */
  lemma ThroughAgain(before: Stores, first: Stores, again: Stores, second: Stores, job: JobId, ctx: RawContext,
                     insights: Insights)
    requires GoneThrough(before, first, job, ctx, Some(insights), None)
    requires GoneThrough(again, second, job, ctx, Some(insights), None)
    requires InsightsOf(again, CacheKey(ctx)) == Some(insights)
    ensures second.insights == again.insights
    ensures job in first.reports && second.reports == again.reports[job := first.reports[job]]
    ensures ReportOf(again, job) == ReportOf(first, job) ==> second.reports == again.reports
    ensures SnapshotOf(second, job) == SnapshotOf(first, job)
    ensures second.jobs.Keys == again.jobs.Keys
    ensures job in again.jobs ==> second.jobs[job].status.Completed?
    ensures job in again.jobs && job in first.jobs && SameIdentity(again.jobs[job], first.jobs[job]) ==>
              second.jobs[job] == first.jobs[job]
    ensures again == first ==> second == first.(calls := second.calls)
  {
    assert again.insights[CacheKey(ctx) := insights] == again.insights;
    if ReportOf(again, job) == ReportOf(first, job) {
      assert job in again.reports && again.reports[job] == first.reports[job];
    }
  }

  /**
   Handling a message again is harmless. Take a delivery that came to an analysis. Whatever happened to
   the stores since, if the cached analysis is still there and GitHub gives the same context, another
   delivery asks the model nothing, and leaves the job's report, snapshot and row as the first delivery
   did. No other report is touched; none at all if the job's own had not changed.
   */
  lemma RedeliveryIsIdempotent(before: Stores, again: Stores, job: JobId, receives: nat, receives': nat, target: Target,
                               world: World, world': World, builder: Builder)
    requires KeepsKey(builder) && world.github.Ok? && world'.github == world.github
    requires var result := Analysed(before.insights, Asked(world.github.value, target), world, builder);
             result.Ok? && result.value.0.Some?
    requires var key := CacheKey(Asked(world.github.value, target));
             var first := Drive(before, job, receives, Start(Ok(target)), world, builder).0;
             InsightsOf(again, key).Some? && InsightsOf(again, key) == InsightsOf(first, key)
    ensures var first := Drive(before, job, receives, Start(Ok(target)), world, builder).0;
            var (second, pc) := Drive(again, job, receives', Start(Ok(target)), world', builder);
            && pc == Acknowledge
            && second.calls == again.calls && second.insights == again.insights
            && job in first.reports && second.reports == again.reports[job := first.reports[job]]
            && (ReportOf(again, job) == ReportOf(first, job) ==> second.reports == again.reports)
            && SnapshotOf(second, job) == SnapshotOf(first, job)
            && second.jobs.Keys == again.jobs.Keys
            && (job in again.jobs ==> second.jobs[job].status.Completed?)
            && (job in again.jobs && job in first.jobs && SameIdentity(again.jobs[job], first.jobs[job]) ==>
                  second.jobs[job] == first.jobs[job])
            && (again == first ==> second == first)
  {
    var ctx := Asked(world.github.value, target);
    var first := Drive(before, job, receives, Start(Ok(target)), world, builder).0;
    var second := Drive(again, job, receives', Start(Ok(target)), world', builder).0;
    DeliveryGoesThrough(before, job, receives, target, world, builder);
    DeliveryGoesThrough(again, job, receives', target, world', builder);
    ThroughAgain(before, first, again, second, job, ctx, first.insights[CacheKey(ctx)]);
  }
}
