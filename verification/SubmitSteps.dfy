/** The submission of a job, one awaited operation per step, after the URL and GitHub checks. */
module SubmitSteps {
  import opened Prelude
  import opened Schema
  import opened Stores

  datatype SubmitPc =
    | CreateRow(ctx: RawContext)
    | SeedSnapshot(ctx: RawContext)
    | LookupCached(ctx: RawContext)
    | SaveCached(ctx: RawContext, insights: Insights)
    | CompleteCachedRow(ctx: RawContext)
    | CompleteCachedSnapshot(ctx: RawContext)
    | Enqueue(ctx: RawContext)
    | FailSubmitRow(ctx: RawContext, error: string)
    | FailSubmitSnapshot(ctx: RawContext, error: string)
    | Accepted
    | Refused

  /** Sending may raise although the queue took the message. */
  datatype SubmitEvent = Continue | Sent | NotSent(error: string, enqueued: bool)

  predicate SubmitFits(pc: SubmitPc, ev: SubmitEvent) {
    !Ended(pc) && (pc.Enqueue? <==> !ev.Continue?)
  }

  predicate Ended(pc: SubmitPc) {
    pc.Accepted? || pc.Refused?
  }

  function NewRow(ctx: RawContext): JobRow {
    JobRow(ctx.repositoryUrl, ctx.target.owner, ctx.target.repo, Pending, Some(ctx.commitSha),
           Some(ctx.instant), RepositoryFetched, None, Some(CacheKey(ctx)))
  }

  function SeededSnapshot(ctx: RawContext): Snapshot {
    Snapshot(Pending, RepositoryFetched, Some(ctx.instant), None, None, None)
  }

  /** The snapshot of a job answered from the cache is the seeded one with two fields replaced. */
  function CachedSnapshot(ctx: RawContext): Snapshot {
    SeededSnapshot(ctx).(status := Completed, progress := CompletedFromCache)
  }

  function SubmitAdvance(st: Stores, job: JobId, pc: SubmitPc, ev: SubmitEvent): (Stores, SubmitPc)
    requires SubmitFits(pc, ev)
  {
    match pc
    case CreateRow(ctx) => (CreateJob(st, job, NewRow(ctx)), SeedSnapshot(ctx))
    case SeedSnapshot(ctx) => (SetSnapshot(st, job, SeededSnapshot(ctx)), LookupCached(ctx))
    case LookupCached(ctx) =>
      (match InsightsOf(st, CacheKey(ctx))
       case Some(cached) => (st, SaveCached(ctx, cached))
       case None => (st, Enqueue(ctx)))
    case SaveCached(ctx, insights) =>
      (SaveReport(st, job, MakeReport(ctx, Some(insights), None)), CompleteCachedRow(ctx))
    case CompleteCachedRow(ctx) =>
      (UpdateJob(st, job, UNSET.(status := Set(Completed), progress := Set(CompletedFromCache))),
       CompleteCachedSnapshot(ctx))
    case CompleteCachedSnapshot(ctx) =>
      (SetSnapshot(st, job, CachedSnapshot(ctx)), Accepted)
    case Enqueue(ctx) =>
      if ev.Sent? then (st, Accepted) else (st, FailSubmitRow(ctx, ev.error))
    case FailSubmitRow(ctx, error) =>
      (UpdateJob(st, job, UNSET.(status := Set(Failed), progress := Set(EnqueueFailed), error := Set(Some(error)))),
       FailSubmitSnapshot(ctx, error))
    case FailSubmitSnapshot(ctx, error) =>
      (SetSnapshot(st, job,
                   SeededSnapshot(ctx).(status := Failed, progress := EnqueueFailed, error := Some(error))), Refused)
    case Accepted => (st, Accepted)
    case Refused => (st, Refused)
  }

  function SubmitRank(pc: SubmitPc): nat {
    match pc
    case CreateRow(_) => 9
    case SeedSnapshot(_) => 8
    case LookupCached(_) => 7
    case SaveCached(_, _) => 3
    case CompleteCachedRow(_) => 2
    case CompleteCachedSnapshot(_) => 1
    case Enqueue(_) => 3
    case FailSubmitRow(_, _) => 2
    case FailSubmitSnapshot(_, _) => 1
    case Accepted => 0
    case Refused => 0
  }

  lemma SubmitLowersRank(st: Stores, job: JobId, pc: SubmitPc, ev: SubmitEvent)
    requires SubmitFits(pc, ev)
    ensures SubmitRank(SubmitAdvance(st, job, pc, ev).1) < SubmitRank(pc)
  {
  }
}
