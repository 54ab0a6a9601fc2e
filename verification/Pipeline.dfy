/** The pipeline as the worker runs it on one message: the writes in their order, on the real stores. */
module Pipeline {
  import opened Prelude
  import opened UrlValidator
  import opened Schema
  import opened Stores
  import opened ContextSanitizer
  import opened PipelineSteps
  import opened Delivery
  import B = Backend

  lemma ServicePromptKeepsKey()
    ensures KeepsKey(ServicePrompt)
  {
    forall ctx ensures ServicePrompt(ctx).Ok? ==> ServicePrompt(ctx).value.cacheKey == CacheKey(ctx) {
      PromptBuilderFits(ctx);
    }
  }

  /** The messages of the warnings that the limitations do not name yet are appended to them. */
  method MergePromptWarnings(answer: Insights, warnings: seq<Warning>) returns (merged: Insights)
    ensures merged == MergeWarnings(answer, warnings)
  {
    var existing := answer.securityHealth.limitations;
    for i := 0 to |warnings|
      invariant existing == MergeLimitations(answer.securityHealth.limitations, warnings[..i])
    {
      assert warnings[..i + 1][..i] == warnings[..i];
      if warnings[i].message !in existing {
        existing := existing + [warnings[i].message];
      }
    }
    assert warnings[..|warnings|] == warnings;
    merged := answer.(securityHealth := answer.securityHealth.(limitations := existing));
  }

  method BuildPrompt(ctx: RawContext, ghost builder: Builder) returns (prompt: Result<PromptPayload, PromptError>)
    requires builder == ServicePrompt
    ensures prompt == builder(ctx)
  {
    prompt := BuildPromptPayload(ctx, TOKEN_BUDGET);
  }

  /** The outcome of the pipeline as the point of the handling it leads to. */
  function Outcome(raised: Option<string>): Pc {
    match raised
    case None => Acknowledge
    case Some(error) => Handle(error)
  }

  /** Where the handling goes from the analysis. */
  function AfterAnalysis(ctx: RawContext, found: Result<(Option<Insights>, Option<string>), string>): Pc {
    match found
    case Ok((analysis, reason)) => StoreReport(ctx, analysis, reason)
    case Err(error) => Handle(error)
  }

  /** The model is asked, and its answer merged with the warnings of the prompt and cached. */
  method AskModel(s: B.Backend, job: JobId, ctx: RawContext, prompt: PromptPayload, world: World, ghost receives: nat,
                  ghost builder: Builder)
    returns (found: Result<(Option<Insights>, Option<string>), string>)
    requires s.Valid() && CacheKey(ctx) !in s.Contents().insights
    requires KeepsKey(builder) && builder(ctx) == Ok(prompt)
    modifies s.Repr
    ensures s.Valid() && s.Repr == old(s.Repr)
    ensures found == Analysed(old(s.Contents()).insights, ctx, world, builder)
    ensures Drive(old(s.Contents()), job, receives, LookupCache(ctx), world, builder)
         == Drive(s.Contents(), job, receives, AfterAnalysis(ctx, found), world, builder)
  {
    ghost var st := s.Contents();
    s.SetState(job, Working(RunningAnalysis, Some(ctx.instant)));
    match world.model {
      case Answers(insights) =>
        ghost var answered := DriveFresh(st, job, receives, ctx, world, builder);
        s.NoteCall(LlmCall(ctx, prompt, insights));
        var merged := MergePromptWarnings(insights, prompt.warnings);
        s.SetCachedAiResult(CacheKey(ctx), merged);
        return Ok((Some(merged), None));
      case Declines(reason) =>
        ghost var declined := DriveDeclined(st, job, receives, ctx, world, builder);
        return Ok((None, Some(reason)));
      case Breaks(error) =>
        ModelFails(st, job, receives, ctx, world, builder);
        return Err(error);
    }
  }

  /** The cached analysis, or a fresh one; or the reason or the error there is none. */
  method FindAnalysis(s: B.Backend, job: JobId, ctx: RawContext, world: World, ghost receives: nat,
                      ghost builder: Builder)
    returns (found: Result<(Option<Insights>, Option<string>), string>)
    requires s.Valid()
    requires builder == ServicePrompt && KeepsKey(builder)
    modifies s.Repr
    ensures s.Valid() && s.Repr == old(s.Repr)
    ensures found == Analysed(old(s.Contents()).insights, ctx, world, builder)
    ensures Drive(old(s.Contents()), job, receives, LookupCache(ctx), world, builder)
         == Drive(s.Contents(), job, receives, AfterAnalysis(ctx, found), world, builder)
  {
    var cached := s.GetCachedAiResult(CacheKey(ctx));
    if cached.Some? {
      DriveCached(s.Contents(), job, receives, ctx, world, builder);
      return Ok((cached, None));
    }
    var prompt := BuildPrompt(ctx, builder);
    if prompt.Err? {
      PromptFails(s.Contents(), job, receives, ctx, world, builder);
      return Err("Prompt template error");
    }
    found := AskModel(s, job, ctx, prompt.value, world, receives, builder);
  }

  /** The report first; only then the row and the snapshot say completed. */
  method FileReport(s: B.Backend, job: JobId, ctx: RawContext, analysis: Option<Insights>, reason: Option<string>)
    requires s.Valid()
    modifies s.Repr
    ensures s.Valid() && fresh(s.Repr - old(s.Repr))
    ensures s.Contents() == Filed(old(s.Contents()), job, ctx, analysis, reason)
    ensures s.Contents().reports == old(s.Contents()).reports[job := ReportAbout(ctx, analysis, reason)]
    ensures s.Contents().snapshots == old(s.Contents()).snapshots[job := FinishedSnapshot(ctx, reason)]
    ensures var rows := old(s.Contents()).jobs;
            s.Contents().jobs
            == if job in rows then
                 rows[job := rows[job].(
                   status := Completed, error := None, aiCacheKey := Some(CacheKey(ctx)),
                   progress := if Present(reason) then CompletedWithFallback else ResearchCompleted)]
               else rows
  {
    s.SaveFinalReport(job, MakeReport(ctx, analysis, reason));
    s.UpdateJobStatus(job, DonePatch(ctx, reason));
    s.SetState(job, DoneSnapshot(ctx, reason));
  }

  method MarkFetching(s: B.Backend, job: JobId)
    requires s.Valid()
    modifies s.Repr
    ensures s.Valid() && s.Repr == old(s.Repr)
    ensures s.Contents() == Fetching(old(s.Contents()), job)
  {
    var existing := s.GetState(job);
    s.SetState(job, Working(FetchingGithub, KnownInstant(existing)));
    s.UpdateJobStatus(job, FETCHING);
  }

  method MarkPreparing(s: B.Backend, job: JobId, ctx: RawContext)
    requires s.Valid()
    modifies s.Repr
    ensures s.Valid() && s.Repr == old(s.Repr)
    ensures s.Contents() == Preparing(old(s.Contents()), job, ctx, AnswerPatch(ctx))
  {
    s.SetState(job, Working(PreparingAnalysis, Some(ctx.instant)));
    s.UpdateJobStatus(job, AnswerPatch(ctx));
  }

  method AnalyzeAndFile(s: B.Backend, job: JobId, ctx: RawContext, world: World, ghost receives: nat,
                        ghost builder: Builder)
    returns (raised: Option<string>)
    requires s.Valid()
    requires builder == ServicePrompt && KeepsKey(builder)
    modifies s.Repr
    ensures s.Valid() && fresh(s.Repr - old(s.Repr))
    ensures Drive(old(s.Contents()), job, receives, LookupCache(ctx), world, builder)
         == Drive(s.Contents(), job, receives, Outcome(raised), world, builder)
  {
    var found := FindAnalysis(s, job, ctx, world, receives, builder);
    if found.Err? {
      return Some(found.error);
    }
    var (analysis, reason) := found.value;
    DriveToEnd(s.Contents(), job, receives, ctx, analysis, reason, world, builder);
    FileReport(s, job, ctx, analysis, reason);
    return None;
  }

  method FetchedOrRaised(s: B.Backend, job: JobId, target: Target, world: World, ghost receives: nat,
                         ghost builder: Builder)
    returns (raised: Option<string>)
    requires s.Valid()
    requires builder == ServicePrompt && KeepsKey(builder)
    modifies s.Repr
    ensures s.Valid() && fresh(s.Repr - old(s.Repr))
    ensures Drive(old(s.Contents()), job, receives, Fetch(target), world, builder)
         == Drive(s.Contents(), job, receives, Outcome(raised), world, builder)
  {
    match world.github {
      case Err(error) =>
        ghost var st, pc := DriveStep(s.Contents(), job, receives, Fetch(target), world, builder);
        return Some(error);
      case Ok(fetched) =>
        var ctx := Asked(fetched, target);
        DriveFetch(s.Contents(), job, receives, target, world, builder);
        MarkPreparing(s, job, ctx);
        raised := AnalyzeAndFile(s, job, ctx, world, receives, builder);
    }
  }

  /** Everything after the URL was parsed. */
  method FetchAndAnalyze(s: B.Backend, job: JobId, target: Target, world: World, ghost receives: nat,
                         ghost builder: Builder)
    returns (raised: Option<string>)
    requires s.Valid()
    requires builder == ServicePrompt && KeepsKey(builder)
    modifies s.Repr
    ensures s.Valid() && fresh(s.Repr - old(s.Repr))
    ensures Drive(old(s.Contents()), job, receives, Start(Ok(target)), world, builder)
         == Drive(s.Contents(), job, receives, Outcome(raised), world, builder)
  {
    DriveToFetch(s.Contents(), job, receives, target, world, builder);
    MarkFetching(s, job);
    raised := FetchedOrRaised(s, job, target, world, receives, builder);
  }

  /**
   Running the pipeline on a message takes the stores where the steps of the handling take them: to the
   acknowledgement if it returns, and to the error handling if it raises.
   */
  method ExecuteResearchPipeline(s: B.Backend, job: JobId, url: string, world: World, ghost receives: nat,
                                 ghost builder: Builder)
    returns (raised: Option<string>)
    requires s.Valid()
    requires builder == ServicePrompt && KeepsKey(builder)
    modifies s.Repr
    ensures s.Valid() && fresh(s.Repr - old(s.Repr))
    ensures Drive(old(s.Contents()), job, receives, Start(ParseRepositoryUrl(url)), world, builder)
         == Drive(s.Contents(), job, receives, Outcome(raised), world, builder)
  {
    var parsed := ParseRepositoryUrl(url);
    match parsed {
      case Err(_) =>
        ghost var st, pc := DriveStep(s.Contents(), job, receives, Start(parsed), world, builder);
        return Some("Invalid repository URL");
      case Ok(target) =>
        raised := FetchAndAnalyze(s, job, target, world, receives, builder);
    }
  }
}
