/** The submission of a job as one request carries it out, and what it leaves behind. */
module Submission {
  import opened Prelude
  import opened UrlValidator
  import opened Schema
  import opened Stores
  import opened SubmitSteps
  import opened System
  import Q = MessageQueue
  import B = Backend

  // ---------------------------------------------------------------- the steps, composed

  /** What the queue says when the message is sent. */
  predicate IsSendOutcome(send: SubmitEvent) {
    !send.Continue?
  }

  function EventAt(pc: SubmitPc, send: SubmitEvent): SubmitEvent {
    if pc.Enqueue? then send else Continue
  }

  ghost function SubmitDrive(st: Stores, job: JobId, pc: SubmitPc, send: SubmitEvent): (Stores, SubmitPc)
    requires IsSendOutcome(send)
    decreases SubmitRank(pc)
  {
    if Ended(pc) then (st, pc)
    else
      SubmitLowersRank(st, job, pc, EventAt(pc, send));
      var (st', pc') := SubmitAdvance(st, job, pc, EventAt(pc, send));
      SubmitDrive(st', job, pc', send)
  }

  /** Unfolds one step. */
  lemma SubmitDriveStep(st: Stores, job: JobId, pc: SubmitPc, send: SubmitEvent) returns (st': Stores, pc': SubmitPc)
    requires IsSendOutcome(send) && !Ended(pc)
    ensures (st', pc') == SubmitAdvance(st, job, pc, EventAt(pc, send))
    ensures SubmitDrive(st, job, pc, send) == SubmitDrive(st', job, pc', send)
  {
    var next := SubmitAdvance(st, job, pc, EventAt(pc, send));
    st', pc' := next.0, next.1;
  }

  /** The queue takes the message: sending succeeds, or fails after all. */
  predicate Taken(send: SubmitEvent) {
    send.Sent? || (send.NotSent? && send.enqueued)
  }

  /** A message is sent from here on, and the queue takes it. */
  predicate Delivers(cache: map<AiKey, Insights>, pc: SubmitPc, send: SubmitEvent) {
    && Taken(send)
    && (pc.Enqueue? || ((pc.CreateRow? || pc.SeedSnapshot? || pc.LookupCached?) && CacheKey(pc.ctx) !in cache))
  }

  /** The messages at the end of the steps from a given point on. */
  function MessagesAfter(messages: map<JobId, Envelope>, cache: map<AiKey, Insights>, job: JobId, pc: SubmitPc,
                         send: SubmitEvent)
    : map<JobId, Envelope>
  {
    if Delivers(cache, pc, send) then messages[job := Envelope(pc.ctx.target.canonicalUrl, 0, Visible)] else messages
  }

  /** The composition is a run of the service in which only this submission moves. */
  lemma {:induction false} SubmitDriveIsRun(s: State, job: JobId, send: SubmitEvent) returns (run: seq<Label>)
    requires IsSendOutcome(send) && job in s.submissions
    ensures IsRun(s, run)
    ensures var (st, pc) := SubmitDrive(s.stores, job, s.submissions[job], send);
            After(s, run) == s.(stores := st, submissions := s.submissions[job := pc],
                                messages := MessagesAfter(s.messages, s.stores.insights, job, s.submissions[job], send))
    decreases SubmitRank(s.submissions[job])
  {
    var pc := s.submissions[job];
    if Ended(pc) {
      assert s.submissions[job := pc] == s.submissions;
      run := [];
    } else {
      var ev := EventAt(pc, send);
      SubmitLowersRank(s.stores, job, pc, ev);
      var s1 := SubmitStep(s, job, ev);
      run := SubmitDriveIsRun(s1, job, send);
      StepDelivers(s.stores, job, pc, send);
      RunStarts(s, Label.Submit(job, ev), run);
      run := [Label.Submit(job, ev)] + run;
      var end := SubmitDrive(s1.stores, job, s1.submissions[job], send).1;
      assert s1.submissions[job := end] == s.submissions[job := end];
    }
  }

  lemma StepDelivers(st: Stores, job: JobId, pc: SubmitPc, send: SubmitEvent)
    requires IsSendOutcome(send) && !Ended(pc)
    ensures var (st', pc') := SubmitAdvance(st, job, pc, EventAt(pc, send));
            && st'.insights == st.insights
            && (Delivers(st'.insights, pc', send) <==> Delivers(st.insights, pc, send) && !pc.Enqueue?)
            && (Delivers(st'.insights, pc', send) ==> pc'.ctx == pc.ctx)
  {
  }

  // ---------------------------------------------------------------- what a submission leaves behind

  /** The row of a submitted job: the repository, its commit and metadata, and how the submission went. */
  function SubmittedRow(ctx: RawContext, status: Status, progress: Progress, error: Option<string>): JobRow {
    JobRow(repositoryUrl := ctx.repositoryUrl, owner := ctx.target.owner, repo := ctx.target.repo, status := status,
           commitSha := Some(ctx.commitSha), instant := Some(ctx.instant), progress := progress, error := error,
           aiCacheKey := Some(CacheKey(ctx)))
  }

  function SubmittedSnapshot(ctx: RawContext, status: Status, progress: Progress, error: Option<string>): Snapshot {
    Snapshot(status := status, progress := progress, instant := Some(ctx.instant), fallback := None,
             fallbackReason := None, error := error)
  }

  /** The report of a job answered from the cache. */
  function CachedReport(ctx: RawContext, insights: Insights): Report {
    Report(repositoryUrl := ctx.repositoryUrl, commitSha := Some(ctx.commitSha), deterministicData := ctx.instant,
           insights := Some(insights), fallback := false, fallbackReason := None,
           markdown := Rendered(ctx := ctx, insights := Some(insights), reason := None))
  }

  /** With a cached analysis the job is reported and completed at once, and no message is sent. */
  lemma CachedSubmission(st: Stores, job: JobId, ctx: RawContext, send: SubmitEvent)
    requires IsSendOutcome(send) && CacheKey(ctx) in st.insights
    ensures var (st', pc) := SubmitDrive(st, job, CreateRow(ctx), send);
            && pc.Accepted? && !Delivers(st.insights, CreateRow(ctx), send)
            && st'.reports == st.reports[job := CachedReport(ctx, st.insights[CacheKey(ctx)])]
            && st'.jobs == st.jobs[job := SubmittedRow(ctx, Completed, CompletedFromCache, None)]
            && st'.snapshots == st.snapshots[job := SubmittedSnapshot(ctx, Completed, CompletedFromCache, None)]
            && st'.insights == st.insights && st'.calls == st.calls
  {
    var st1, pc1 := SubmitDriveStep(st, job, CreateRow(ctx), send);
    var st2, pc2 := SubmitDriveStep(st1, job, pc1, send);
    var st3, pc3 := SubmitDriveStep(st2, job, pc2, send);
    var st4, pc4 := SubmitDriveStep(st3, job, pc3, send);
    var st5, pc5 := SubmitDriveStep(st4, job, pc4, send);
    var st6, pc6 := SubmitDriveStep(st5, job, pc5, send);
  }

  /**
   Without one the job is accepted exactly if sending succeeds; it is then pending, and failed
   otherwise. No report and no analysis is written either way.
   */
  lemma QueuedSubmission(st: Stores, job: JobId, ctx: RawContext, send: SubmitEvent)
    requires IsSendOutcome(send) && CacheKey(ctx) !in st.insights
    ensures var (st', pc) := SubmitDrive(st, job, CreateRow(ctx), send);
            && (pc.Accepted? <==> send.Sent?) && (Delivers(st.insights, CreateRow(ctx), send) <==> Taken(send))
            && st'.reports == st.reports && st'.insights == st.insights && st'.calls == st.calls
            && (send.Sent? ==>
                  && st'.jobs == st.jobs[job := SubmittedRow(ctx, Pending, RepositoryFetched, None)]
                  && st'.snapshots == st.snapshots[job := SubmittedSnapshot(ctx, Pending, RepositoryFetched, None)])
            && (send.NotSent? ==>
                  var error := Some(send.error);
                  && st'.jobs == st.jobs[job := SubmittedRow(ctx, Failed, EnqueueFailed, error)]
                  && st'.snapshots == st.snapshots[job := SubmittedSnapshot(ctx, Failed, EnqueueFailed, error)])
  {
    var st1, pc1 := SubmitDriveStep(st, job, CreateRow(ctx), send);
    var st2, pc2 := SubmitDriveStep(st1, job, pc1, send);
    var st3, pc3 := SubmitDriveStep(st2, job, pc2, send);
    var st4, pc4 := SubmitDriveStep(st3, job, pc3, send);
    if send.NotSent? {
      var st5, pc5 := SubmitDriveStep(st4, job, pc4, send);
      var st6, pc6 := SubmitDriveStep(st5, job, pc5, send);
    }
  }

  // ---------------------------------------------------------------- the request

  method CompleteFromCache(s: B.Backend, job: JobId, ctx: RawContext, cached: Insights, ghost send: SubmitEvent)
    requires s.Valid()
    requires IsSendOutcome(send)
    modifies s.Repr
    ensures s.Valid() && fresh(s.Repr - old(s.Repr))
    ensures SubmitDrive(old(s.Contents()), job, SaveCached(ctx, cached), send) == (s.Contents(), Accepted)
  {
    ghost var st, pc := SubmitDriveStep(s.Contents(), job, SaveCached(ctx, cached), send);
    s.SaveFinalReport(job, MakeReport(ctx, Some(cached), None));
    st, pc := SubmitDriveStep(st, job, pc, send);
    s.UpdateJobStatus(job, UNSET.(status := Set(Completed), progress := Set(CompletedFromCache)));
    st, pc := SubmitDriveStep(st, job, pc, send);
    s.SetState(job, CachedSnapshot(ctx));
  }

  method SendOrFail(s: B.Backend, queue: Q.MessageQueue, job: JobId, ctx: RawContext, send: SubmitEvent)
    returns (raised: Option<string>)
    requires s.Valid() && queue !in s.Repr
    requires IsSendOutcome(send)
    modifies s.Repr, queue
    ensures s.Valid() && s.Repr == old(s.Repr)
    ensures SubmitDrive(old(s.Contents()), job, Enqueue(ctx), send)
         == (s.Contents(), if raised.None? then Accepted else Refused)
    ensures queue.messages
         == if Taken(send) then old(queue.messages)[job := Envelope(ctx.target.canonicalUrl, 0, Visible)]
                              else old(queue.messages)
  {
    ghost var st, pc := SubmitDriveStep(s.Contents(), job, Enqueue(ctx), send);
    if Taken(send) {
      queue.Send(job, ctx.target.canonicalUrl);
    }
    if send.NotSent? {
      st, pc := SubmitDriveStep(st, job, pc, send);
      s.UpdateJobStatus(
        job, UNSET.(status := Set(Failed), progress := Set(EnqueueFailed), error := Set(Some(send.error))));
      st, pc := SubmitDriveStep(st, job, pc, send);
      s.SetState(job, SeededSnapshot(ctx).(status := Failed, progress := EnqueueFailed, error := Some(send.error)));
      return Some(send.error);
    }
    return None;
  }

  method Seed(s: B.Backend, job: JobId, ctx: RawContext, ghost send: SubmitEvent)
    requires s.Valid() && job !in s.Contents().jobs
    requires IsSendOutcome(send)
    modifies s.Repr
    ensures s.Valid() && fresh(s.Repr - old(s.Repr))
    ensures s.Contents().insights == old(s.Contents()).insights
    ensures SubmitDrive(old(s.Contents()), job, CreateRow(ctx), send)
         == SubmitDrive(s.Contents(), job, LookupCached(ctx), send)
  {
    ghost var st, pc := SubmitDriveStep(s.Contents(), job, CreateRow(ctx), send);
    s.CreateJobRecord(job, NewRow(ctx));
    st, pc := SubmitDriveStep(st, job, pc, send);
    s.SetState(job, SeededSnapshot(ctx));
  }

  /** The job is recorded before anything else can refer to it, then answered from the cache or queued. */
  method Record(s: B.Backend, queue: Q.MessageQueue, job: JobId, ctx: RawContext, send: SubmitEvent)
    returns (raised: Option<string>)
    requires s.Valid() && queue !in s.Repr && job !in s.Contents().jobs
    requires IsSendOutcome(send)
    modifies s.Repr, queue
    ensures s.Valid() && fresh(s.Repr - old(s.Repr)) && queue !in s.Repr
    ensures SubmitDrive(old(s.Contents()), job, CreateRow(ctx), send)
         == (s.Contents(), if raised.None? then Accepted else Refused)
    ensures queue.messages == MessagesAfter(old(queue.messages), old(s.Contents()).insights, job, CreateRow(ctx), send)
  {
    Seed(s, job, ctx, send);
    ghost var st, pc := SubmitDriveStep(s.Contents(), job, LookupCached(ctx), send);
    var cached := s.GetCachedAiResult(CacheKey(ctx));
    if cached.Some? {
      CompleteFromCache(s, job, ctx, cached.value, send);
      return None;
    }
    raised := SendOrFail(s, queue, job, ctx, send);
  }

  /** The request as a run: from the state before it, the submission begins and takes all its steps. */
  lemma RequestRun(s: State, job: JobId, ctx: RawContext, send: SubmitEvent) returns (run: seq<Label>)
    requires IsSendOutcome(send) && job !in s.submissions && IsParsed(ctx.target)
    ensures IsRun(s, run)
    ensures var (st, pc) := SubmitDrive(s.stores, job, CreateRow(ctx), send);
            After(s, run) == s.(stores := st, submissions := s.submissions[job := pc],
                                messages := MessagesAfter(s.messages, s.stores.insights, job, CreateRow(ctx), send))
  {
    var s1 := Next(s, Begin(job, ctx));
    run := SubmitDriveIsRun(s1, job, send);
    RunStarts(s, Begin(job, ctx), run);
    run := [Begin(job, ctx)] + run;
    var end := SubmitDrive(s.stores, job, CreateRow(ctx), send).1;
    assert s1.submissions[job := end] == s.submissions[job := end];
  }

  /**
   A request is refused without a trace when the URL is refused or GitHub fails. Otherwise it is a run of
   the service in which the submission of this job, with the target the parser handed out, takes all its
   steps; the request returns exactly if they end in acceptance.
   */
  method Submit(s: B.Backend, queue: Q.MessageQueue, url: string, github: Result<RawContext, string>, job: JobId,
                send: SubmitEvent, ghost before: State)
    returns (accepted: Result<JobId, string>, ghost run: seq<Label>)
    requires s.Valid() && queue !in s.Repr && job !in s.Contents().jobs
    requires before.stores == s.Contents() && before.messages == queue.messages && job !in before.submissions
    requires IsSendOutcome(send)
    modifies s.Repr, queue
    ensures s.Valid() && fresh(s.Repr - old(s.Repr)) && queue !in s.Repr
    ensures ParseRepositoryUrl(url).Err? || github.Err? ==>
              accepted.Err? && s.Contents() == old(s.Contents()) && queue.messages == old(queue.messages)
    ensures ParseRepositoryUrl(url).Ok? && github.Ok? ==>
              var ctx := Asked(github.value, ParseRepositoryUrl(url).value);
              var end := if accepted.Ok? then Accepted else Refused;
              && SubmitDrive(old(s.Contents()), job, CreateRow(ctx), send) == (s.Contents(), end)
              && IsRun(before, run)
              && After(before, run) == before.(stores := s.Contents(), messages := queue.messages,
                                               submissions := before.submissions[job := end])
              && (accepted.Ok? ==> accepted.value == job)
  {
    var parsed := ParseRepositoryUrl(url);
    if parsed.Err? {
      return Err("Invalid repository URL"), [];
    }
    if github.Err? {
      return Err(github.error), [];
    }
    ParserHandsOut(url);
    var ctx := Asked(github.value, parsed.value);
    run := RequestRun(before, job, ctx, send);
    var raised := Record(s, queue, job, ctx, send);
    accepted := if raised.None? then Ok(job) else Err(raised.value);
  }
}
