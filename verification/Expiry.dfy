/**
 What an expired snapshot changes for whoever polls. As long as no two deliveries of the job are handled
 at a time (workers may die and messages may come back), a completed snapshot says what the stored
 report says, so the answer rebuilt from the report is the same.
 */
module Expiry {
  import opened Prelude
  import opened Schema
  import opened Stores
  import opened PipelineSteps
  import opened SubmitSteps
  import opened System
  import opened JobView
  import opened RetryBound
  import opened Provenance
  import opened Poll

  /** The job's message is handed over only while nobody handles the job. */
  ghost predicate Apart(s: State, l: Label, job: JobId) {
    l.Receive? && l.job == job ==> !Handled(s, job)
  }

  ghost predicate RunApart(s: State, run: seq<Label>, job: JobId)
    requires IsRun(s, run)
    decreases |run|
  {
    run == [] || (Apart(s, run[0], job) && RunApart(Next(s, run[0]), run[1..], job))
  }

  predicate NotCompleted(st: Stores, job: JobId) {
    job in st.snapshots ==> !st.snapshots[job].status.Completed?
  }

  /** A completed snapshot is the one the pipeline leaves, or the one a submission answered from the cache leaves. */
  predicate SnapshotMatches(st: Stores, job: JobId, queued: bool) {
    NotCompleted(st, job) ||
    (job in st.reports &&
     var r := st.reports[job];
     if queued then st.snapshots[job] == DoneSnapshot(r.markdown.ctx, r.fallbackReason)
     else st.snapshots[job] == CachedSnapshot(r.markdown.ctx) && r.fallbackReason.None?)
  }

  predicate ReportedFrom(st: Stores, job: JobId, ctx: RawContext, reason: Option<string>) {
    job in st.reports && st.reports[job].markdown.ctx == ctx && st.reports[job].fallbackReason == reason
  }

  /** The handling has replaced the snapshot it found and not yet written its last one. */
  predicate Midway(pc: Pc) {
    InPipeline(pc) && !pc.Start? && !pc.MarkSnapshot?
  }

  predicate PcMatches(st: Stores, job: JobId, pc: Pc) {
    && (Midway(pc) ==> NotCompleted(st, job))
    && (pc.CompleteRow? || pc.CompleteSnapshot? ==> ReportedFrom(st, job, pc.ctx, pc.reason))
  }

  predicate SubmitPcMatches(st: Stores, job: JobId, pc: SubmitPc) {
    && (BeforeSend(pc) ==> NotCompleted(st, job))
    && (pc.CompleteCachedRow? || pc.CompleteCachedSnapshot? ==> ReportedFrom(st, job, pc.ctx, None))
  }

  ghost predicate Matched(s: State, job: JobId) {
    && (forall v, w :: HandledBy(s, v, job) && HandledBy(s, w, job) ==> v == w)
    && SnapshotMatches(s.stores, job, job in s.messages)
    && (job in s.stores.snapshots ==> job in s.submissions)
    && (forall w :: HandledBy(s, w, job) ==> PcMatches(s.stores, job, s.workers[w].pc))
    && (job in s.submissions ==> SubmitPcMatches(s.stores, job, s.submissions[job]))
  }

  // ---------------------------------------------------------------- stores

  lemma AdvanceMatches(st: Stores, job: JobId, receives: nat, pc: Pc, ev: Event)
    requires Fits(pc, ev) && SnapshotMatches(st, job, true) && PcMatches(st, job, pc)
    ensures var (st', pc') := Advance(st, job, receives, pc, ev);
            PcMatches(st', job, pc') && SnapshotMatches(st', job, true)
  {
  }

  /** After the message may have been sent, the submission can only mark the job failed. */
  lemma LateSubmitMatches(st: Stores, job: JobId, pc: SubmitPc, sev: SubmitEvent, queued: bool)
    requires SubmitFits(pc, sev) && !BeforeSend(pc) && SnapshotMatches(st, job, queued)
    ensures SnapshotMatches(SubmitAdvance(st, job, pc, sev).0, job, queued)
    ensures SubmitPcMatches(SubmitAdvance(st, job, pc, sev).0, job, SubmitAdvance(st, job, pc, sev).1)
    ensures forall worker :: PcMatches(st, job, worker) ==> PcMatches(SubmitAdvance(st, job, pc, sev).0, job, worker)
  {
  }

  lemma EarlySubmitMatches(st: Stores, job: JobId, pc: SubmitPc, sev: SubmitEvent, queued: bool)
    requires SubmitFits(pc, sev) && BeforeSend(pc) && SubmitPcMatches(st, job, pc) && (queued ==> pc.Enqueue?)
    ensures var (st', pc') := SubmitAdvance(st, job, pc, sev);
            SubmitPcMatches(st', job, pc') && SnapshotMatches(st', job, queued)
  {
  }

  lemma SameMatches(st: Stores, st': Stores, job: JobId)
    requires SameEntries(st, st', job)
    ensures forall queued :: SnapshotMatches(st', job, queued) <==> SnapshotMatches(st, job, queued)
    ensures forall pc :: PcMatches(st', job, pc) <==> PcMatches(st, job, pc)
    ensures forall pc :: SubmitPcMatches(st', job, pc) <==> SubmitPcMatches(st, job, pc)
    ensures job in st'.snapshots <==> job in st.snapshots
  {
    assert job in st.snapshots <==> SnapshotOf(st, job).Some?;
    assert job in st'.snapshots <==> SnapshotOf(st', job).Some?;
    assert job in st.reports <==> ReportOf(st, job).Some?;
    assert job in st'.reports <==> ReportOf(st', job).Some?;
  }

  // ---------------------------------------------------------------- single steps

  lemma OtherMatched(s: State, s': State, job: JobId)
    requires Matched(s, job) && SameJob(s, s', job)
    ensures Matched(s', job)
  {
    SameMatches(s.stores, s'.stores, job);
    assert ViewOf(s, job).message == ViewOf(s', job).message;
    assert ViewOf(s, job).submission == ViewOf(s', job).submission;
    forall w | HandledBy(s', w, job) ensures HandledBy(s, w, job) && s'.workers[w] == s.workers[w] {
    }
  }

  lemma WorkMatched(s: State, w: nat, ev: Event)
    requires Counted(s) && Possible(s, Work(w, ev)) && Matched(s, s.workers[w].job)
    ensures Matched(WorkStep(s, w, ev), s.workers[w].job)
  {
    var worker, s', job := s.workers[w], WorkStep(s, w, ev), s.workers[w].job;
    assert HandledBy(s, w, job) && job in s.messages && !BeforeSend(s.submissions[job]);
    AdvanceMatches(s.stores, job, worker.receives, worker.pc, ev);
    forall v | HandledBy(s', v, job) ensures v == w {
      assert HandledBy(s, v, job);
    }
  }

  lemma SubmitMatched(s: State, job: JobId, sev: SubmitEvent)
    requires Counted(s) && Possible(s, Submit(job, sev)) && Matched(s, job)
    ensures Matched(SubmitStep(s, job, sev), job)
  {
    var pc, s' := s.submissions[job], SubmitStep(s, job, sev);
    forall v ensures HandledBy(s', v, job) <==> HandledBy(s, v, job) {
    }
    if BeforeSend(pc) {
      assert job !in s.messages;
      EarlySubmitMatches(s.stores, job, pc, sev, job in s'.messages);
    } else {
      LateSubmitMatches(s.stores, job, pc, sev, job in s.messages);
    }
  }

  lemma TakeMatched(s: State, s': State, w: nat, job: JobId, worker: Worker)
    requires Matched(s, job) && !Handled(s, job) && job in s.messages
    requires worker.Busy? && worker.job == job && worker.pc.Start?
    requires s' == SetWorker(s, w, worker)
                     .(messages := s.messages[job := s.messages[job].(receives := worker.receives, place := InFlight)])
    ensures Matched(s', job)
  {
    forall v | HandledBy(s', v, job) ensures v == w {
      assert !HandledBy(s, v, job);
    }
  }

  /** Letting a worker go, moving the message and dropping the snapshot keep it. */
  lemma FewerMatched(s: State, s': State, job: JobId)
    requires Matched(s, job)
    requires forall w :: HandledBy(s', w, job) ==> HandledBy(s, w, job) && s'.workers[w] == s.workers[w]
    requires (job in s'.messages <==> job in s.messages) && s'.submissions == s.submissions
    requires s'.stores.reports == s.stores.reports
    requires job in s'.stores.snapshots ==>
               job in s.stores.snapshots && s'.stores.snapshots[job] == s.stores.snapshots[job]
    ensures Matched(s', job)
  {
  }

  lemma BeginMatched(s: State, job: JobId, pc: SubmitPc)
    requires Matched(s, job) && (pc.Refused? || (pc.CreateRow? && job !in s.submissions))
    ensures Matched(s.(submissions := s.submissions[job := pc]), job)
  {
    var s' := s.(submissions := s.submissions[job := pc]);
    forall v ensures HandledBy(s', v, job) <==> HandledBy(s, v, job) {
    }
  }

  lemma NextMatched(s: State, l: Label, job: JobId)
    requires Counted(s) && Possible(s, l) && Matched(s, job) && Apart(s, l, job)
    ensures Matched(Next(s, l), job)
  {
    var s' := Next(s, l);
    if !Concerns(s, l, job) {
      OthersLeaveAlone(s, l, job);
      OtherMatched(s, s', job);
    } else {
      match l
      case Begin(_, ctx) => BeginMatched(s, job, CreateRow(ctx));
      case SubmitDies(_) => BeginMatched(s, job, Refused);
      case Submit(_, sev) => SubmitMatched(s, job, sev);
      case Work(w, ev) => WorkMatched(s, w, ev);
      case Receive(w, _) => TakeMatched(s, s', w, job, s'.workers[w]);
      case Settle(_, _) => FewerMatched(s, s', job);
      case Crash(_) => FewerMatched(s, s', job);
      case Lapse(_) => FewerMatched(s, s', job);
      case Redrive(_) => FewerMatched(s, s', job);
      case ExpireSnapshot(_) => FewerMatched(s, s', job);
    }
  }

  // ---------------------------------------------------------------- whole runs

  lemma {:induction false} RunMatched(s: State, run: seq<Label>, job: JobId)
    requires Counted(s) && Matched(s, job) && IsRun(s, run) && RunApart(s, run, job)
    ensures Matched(After(s, run), job)
    decreases |run|
  {
    if run != [] {
      NextCounted(s, run[0], job);
      NextMatched(s, run[0], job);
      RunMatched(Next(s, run[0]), run[1..], job);
    }
  }

  function Expired(st: Stores, job: JobId): Stores {
    st.(snapshots := st.snapshots - {job})
  }

  /** The answer from a completed snapshot beside its report, and the one rebuilt from the report. */
  lemma SameAnswerIff(st: Stores, job: JobId, queued: bool)
    requires job in st.snapshots && st.snapshots[job].status.Completed? && SnapshotMatches(st, job, queued)
    requires WellMade(st.calls, st.reports[job])
    ensures var live, rebuilt := PollAnswer(st, st, job), PollAnswer(Expired(st, job), Expired(st, job), job);
            && live.Found? && rebuilt.Found?
            && live.status == rebuilt.status && live.report == rebuilt.report && live.instant == rebuilt.instant
            && live.fallbackReason == rebuilt.fallbackReason && live.error == rebuilt.error
            && (live.fallback == rebuilt.fallback <==> queued)
            && (live == rebuilt <==> queued && !Truthy(live.fallbackReason))
  {
    var r := st.reports[job];
    assert r.deterministicData == r.markdown.ctx.instant;
  }

  /**
   For a completed job, the poll answers before and after its snapshot expires agree on status, report,
   instant data, fallback reason and error. They agree on the fallback flag exactly if the job was queued:
   a submission answered from the cache leaves the flag unset, and the rebuilt answer says false. The
   whole answers agree exactly if the job was queued and did not fall back, which is when the progress
   message is the one the rebuilt answer gives.
   */
  lemma ExpiryIsTransparent(init: State, run: seq<Label>, job: JobId)
    requires IsInit(init) && IsRun(init, run) && RunApart(init, run, job)
    requires var st := After(init, run).stores; job in st.snapshots && st.snapshots[job].status.Completed?
    ensures var st := After(init, run).stores;
            var live, rebuilt := PollAnswer(st, st, job), PollAnswer(Expired(st, job), Expired(st, job), job);
            && live.Found? && rebuilt.Found?
            && live.status == rebuilt.status && live.report == rebuilt.report && live.instant == rebuilt.instant
            && live.fallbackReason == rebuilt.fallbackReason && live.error == rebuilt.error
            && (live.fallback == rebuilt.fallback <==> job in After(init, run).messages)
            && (live == rebuilt <==> job in After(init, run).messages && !Truthy(live.fallbackReason))
  {
    RunMatched(init, run, job);
    RunSourced(init, run);
    SameAnswerIff(After(init, run).stores, job, job in After(init, run).messages);
  }
}
