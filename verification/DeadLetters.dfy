/**
 What a message in the dead-letter queue says about its job: it is marked failed, unless a crash cut
 the last delivery of the message short.
 */
module DeadLetters {
  import opened Prelude
  import opened Schema
  import opened Stores
  import opened PipelineSteps
  import opened SubmitSteps
  import opened System
  import opened JobView
  import opened RetryBound

  /** A message of the job turns visible only while nobody handles it: no second handling beside one. */
  ghost predicate OneAtATime(s: State, l: Label, job: JobId) {
    l.Lapse? && l.job == job ==> !Handled(s, job)
  }

  /** No worker dies in the last delivery of the job's message. */
  predicate FinishesLast(s: State, l: Label, job: JobId) {
    l.Crash? && HandledBy(s, l.worker, job) ==> s.workers[l.worker].receives < MAX_QUEUE_ATTEMPTS
  }

  ghost predicate RunOneAtATime(s: State, run: seq<Label>, job: JobId)
    requires IsRun(s, run)
    decreases |run|
  {
    run == [] || (OneAtATime(s, run[0], job) && RunOneAtATime(Next(s, run[0]), run[1..], job))
  }

  predicate RunFinishesLast(s: State, run: seq<Label>, job: JobId)
    requires IsRun(s, run)
    decreases |run|
  {
    run == [] || (FinishesLast(s, run[0], job) && RunFinishesLast(Next(s, run[0]), run[1..], job))
  }

  predicate RowFailed(st: Stores, job: JobId) {
    job in st.jobs && st.jobs[job].status.Failed?
  }

  /** The row says failed, and so does the snapshot unless it has expired. */
  predicate MarkedFailed(st: Stores, job: JobId) {
    RowFailed(st, job) && (job in st.snapshots ==> st.snapshots[job].status.Failed?)
  }

  /** The submission has created the row of its job. */
  predicate HasRow(pc: SubmitPc) {
    !pc.CreateRow? && !Ended(pc)
  }

  /** A job is marked from the error handling of a last delivery only. */
  predicate MarksLast(worker: Worker)
    requires worker.Busy?
  {
    worker.pc.FailRow? || worker.pc.FailSnapshot? ==> worker.receives >= MAX_QUEUE_ATTEMPTS
  }

  /** The delivery being handled, if any, is the current one of the message, and the only one. */
  ghost predicate OneHandling(s: State, job: JobId) {
    && (forall w :: HandledBy(s, w, job) ==> HoldsCurrent(s, w) && MarksLast(s.workers[w]))
    && (forall v, w :: HandledBy(s, v, job) && HandledBy(s, w, job) ==> v == w)
    && (job in s.messages ==> job in s.stores.jobs)
    && (job in s.submissions && HasRow(s.submissions[job]) ==> job in s.stores.jobs)
  }

  /** Out of attempts, not deleted, and in nobody's hands. */
  ghost predicate GivenUp(s: State, job: JobId) {
    && job in s.messages && s.messages[job].receives >= MAX_QUEUE_ATTEMPTS
    && !s.messages[job].place.Deleted? && !Handled(s, job)
  }

  // ---------------------------------------------------------------- one handling

  lemma AdvanceKeepsRow(st: Stores, job: JobId, receives: nat, pc: Pc, ev: Event)
    requires Fits(pc, ev) && MarksLast(Busy(job, receives, pc))
    ensures Advance(st, job, receives, pc, ev).0.jobs.Keys == st.jobs.Keys
    ensures MarksLast(Busy(job, receives, Advance(st, job, receives, pc, ev).1))
  {
  }

  lemma SubmitKeepsRow(st: Stores, job: JobId, pc: SubmitPc, sev: SubmitEvent)
    requires SubmitFits(pc, sev) && (HasRow(pc) ==> job in st.jobs)
    ensures job in SubmitAdvance(st, job, pc, sev).0.jobs
  {
  }

  lemma OtherHandling(s: State, s': State, job: JobId)
    requires OneHandling(s, job) && SameJob(s, s', job)
    ensures OneHandling(s', job) && (GivenUp(s', job) <==> GivenUp(s, job)) && (Handled(s', job) <==> Handled(s, job))
  {
    assert job in s.stores.jobs <==> RowOf(s.stores, job).Some?;
    assert job in s'.stores.jobs <==> RowOf(s'.stores, job).Some?;
    assert ViewOf(s, job).message == ViewOf(s', job).message;
    forall w ensures HandledBy(s', w, job) <==> HandledBy(s, w, job) {
    }
    forall w | HandledBy(s', w, job) ensures HoldsCurrent(s', w) && MarksLast(s'.workers[w]) {
      assert HandledBy(s, w, job) && HoldsCurrent(s, w);
    }
  }

  lemma WorkHandling(s: State, w: nat, ev: Event)
    requires Possible(s, Work(w, ev)) && OneHandling(s, s.workers[w].job)
    ensures OneHandling(WorkStep(s, w, ev), s.workers[w].job)
  {
    var worker, s', job := s.workers[w], WorkStep(s, w, ev), s.workers[w].job;
    assert HandledBy(s, w, job);
    AdvanceKeepsRow(s.stores, job, worker.receives, worker.pc, ev);
    forall v | HandledBy(s', v, job) ensures HandledBy(s, v, job) {
    }
  }

  lemma SubmitHandling(s: State, job: JobId, sev: SubmitEvent)
    requires Counted(s) && Possible(s, Submit(job, sev)) && OneHandling(s, job)
    ensures OneHandling(SubmitStep(s, job, sev), job)
  {
    SubmitKeepsRow(s.stores, job, s.submissions[job], sev);
    forall v | HandledBy(SubmitStep(s, job, sev), v, job) ensures HandledBy(s, v, job) && HoldsCurrent(s, v) {
    }
  }

  /** A message that is not in flight is in nobody's hands. */
  lemma NobodyHandles(s: State, job: JobId)
    requires OneHandling(s, job) && job in s.messages && !s.messages[job].place.InFlight?
    ensures !Handled(s, job)
  {
    forall v | HandledBy(s, v, job) ensures HoldsCurrent(s, v) {
    }
  }

  lemma TakeHandling(s: State, s': State, w: nat, job: JobId, worker: Worker)
    requires OneHandling(s, job) && job in s.messages && s.messages[job].place.Visible?
    requires worker.Busy? && worker.job == job && worker.receives == s.messages[job].receives + 1 && worker.pc.Start?
    requires s' == SetWorker(s, w, worker)
                     .(messages := s.messages[job := s.messages[job].(receives := worker.receives, place := InFlight)])
    ensures OneHandling(s', job) && HandledBy(s', w, job) && !Handled(s, job)
  {
    NobodyHandles(s, job);
    forall v | HandledBy(s', v, job) ensures v == w {
      assert !HandledBy(s, v, job);
    }
  }

  lemma ReceiveHandling(s: State, w: nat, job: JobId)
    requires Possible(s, Receive(w, job)) && OneHandling(s, job)
    ensures OneHandling(Next(s, Receive(w, job)), job) && !Handled(s, job)
    ensures HandledBy(Next(s, Receive(w, job)), w, job)
  {
    var s' := Next(s, Receive(w, job));
    TakeHandling(s, s', w, job, s'.workers[w]);
  }

  lemma SettleHandling(s: State, w: nat, effective: bool)
    requires Possible(s, Settle(w, effective)) && OneHandling(s, s.workers[w].job)
    ensures OneHandling(Next(s, Settle(w, effective)), s.workers[w].job)
    ensures !Handled(Next(s, Settle(w, effective)), s.workers[w].job)
  {
    var s', job := Next(s, Settle(w, effective)), s.workers[w].job;
    assert HandledBy(s, w, job);
    forall v ensures !HandledBy(s', v, job) {
      if HandledBy(s', v, job) {
        assert HandledBy(s, v, job);
      }
    }
  }

  lemma CrashHandling(s: State, w: nat)
    requires BusyAt(s, w) && OneHandling(s, s.workers[w].job)
    ensures OneHandling(SetWorker(s, w, Idle), s.workers[w].job)
    ensures !Handled(SetWorker(s, w, Idle), s.workers[w].job)
  {
    var s', job := SetWorker(s, w, Idle), s.workers[w].job;
    assert HandledBy(s, w, job);
    forall v ensures !HandledBy(s', v, job) {
      if HandledBy(s', v, job) {
        assert HandledBy(s, v, job);
      }
    }
  }

  lemma PlaceHandling(s: State, job: JobId, place: Place)
    requires OneHandling(s, job) && !Handled(s, job)
    ensures OneHandling(SetPlace(s, job, place), job) && !Handled(SetPlace(s, job, place), job)
  {
    forall v ensures !HandledBy(SetPlace(s, job, place), v, job) {
      assert !HandledBy(s, v, job);
    }
  }

  lemma BeginHandling(s: State, job: JobId, pc: SubmitPc)
    requires OneHandling(s, job) && !HasRow(pc)
    ensures OneHandling(s.(submissions := s.submissions[job := pc]), job)
    ensures Handled(s.(submissions := s.submissions[job := pc]), job) <==> Handled(s, job)
  {
    var s' := s.(submissions := s.submissions[job := pc]);
    forall v ensures HandledBy(s', v, job) <==> HandledBy(s, v, job) {
    }
    forall v | HandledBy(s', v, job) ensures HoldsCurrent(s', v) {
      assert HoldsCurrent(s, v);
    }
  }

  lemma ExpireHandling(s: State, st': Stores, job: JobId)
    requires OneHandling(s, job) && st'.jobs == s.stores.jobs
    ensures OneHandling(s.(stores := st'), job)
    ensures Handled(s.(stores := st'), job) <==> Handled(s, job)
  {
    var s' := s.(stores := st');
    forall v ensures HandledBy(s', v, job) <==> HandledBy(s, v, job) {
    }
    forall v | HandledBy(s', v, job) ensures HoldsCurrent(s', v) {
      assert HoldsCurrent(s, v);
    }
  }

  /** With one handling at a time this holds on, whatever dies. */
  lemma NextHandling(s: State, l: Label, job: JobId)
    requires Counted(s) && Possible(s, l) && OneHandling(s, job) && OneAtATime(s, l, job)
    ensures OneHandling(Next(s, l), job)
  {
    if !Concerns(s, l, job) {
      OthersLeaveAlone(s, l, job);
      OtherHandling(s, Next(s, l), job);
    } else {
      match l
      case Begin(_, ctx) => BeginHandling(s, job, CreateRow(ctx));
      case SubmitDies(_) => BeginHandling(s, job, Refused);
      case Submit(_, sev) => SubmitHandling(s, job, sev);
      case Work(w, ev) => WorkHandling(s, w, ev);
      case Receive(w, _) => ReceiveHandling(s, w, job);
      case Settle(w, effective) => SettleHandling(s, w, effective);
      case Crash(w) => CrashHandling(s, w);
      case Lapse(_) => PlaceHandling(s, job, Visible);
      case Redrive(_) =>
        NobodyHandles(s, job);
        PlaceHandling(s, job, DeadLetter);
      case ExpireSnapshot(_) => ExpireHandling(s, Next(s, l).stores, job);
    }
  }

  // ---------------------------------------------------------------- marks, if the last delivery is finished

  predicate PcMarks(st: Stores, worker: Worker)
    requires worker.Busy?
  {
    && (worker.pc.FailSnapshot? ==> RowFailed(st, worker.job))
    && (worker.pc.Release? && worker.receives >= MAX_QUEUE_ATTEMPTS ==> MarkedFailed(st, worker.job))
  }

  /** Whoever is about to give up the message, and a message given up, is marked. */
  ghost predicate Marked(s: State, job: JobId) {
    && (forall w :: HandledBy(s, w, job) ==> PcMarks(s.stores, s.workers[w]))
    && (GivenUp(s, job) ==> MarkedFailed(s.stores, job))
  }

  lemma AdvanceMarks(st: Stores, job: JobId, receives: nat, pc: Pc, ev: Event)
    requires Fits(pc, ev) && job in st.jobs && PcMarks(st, Busy(job, receives, pc)) && !pc.Release?
    ensures var (st', pc') := Advance(st, job, receives, pc, ev); PcMarks(st', Busy(job, receives, pc'))
  {
  }

  /** Once it may have sent the message, a submission can only mark the job failed. */
  lemma LateSubmitMarks(st: Stores, job: JobId, pc: SubmitPc, sev: SubmitEvent)
    requires SubmitFits(pc, sev) && !BeforeSend(pc)
    ensures RowFailed(st, job) ==> RowFailed(SubmitAdvance(st, job, pc, sev).0, job)
    ensures MarkedFailed(st, job) ==> MarkedFailed(SubmitAdvance(st, job, pc, sev).0, job)
  {
  }

  lemma SameMarks(st: Stores, st': Stores, job: JobId)
    requires SameEntries(st, st', job)
    ensures RowFailed(st, job) == RowFailed(st', job) && MarkedFailed(st, job) == MarkedFailed(st', job)
  {
    assert RowFailed(st, job) <==> RowOf(st, job).Some? && RowOf(st, job).value.status.Failed?;
    assert RowFailed(st', job) <==> RowOf(st', job).Some? && RowOf(st', job).value.status.Failed?;
    assert job in st.snapshots <==> SnapshotOf(st, job).Some?;
    assert job in st'.snapshots <==> SnapshotOf(st', job).Some?;
  }

  lemma OtherMarked(s: State, s': State, job: JobId)
    requires OneHandling(s, job) && Marked(s, job) && SameJob(s, s', job)
    ensures Marked(s', job)
  {
    OtherHandling(s, s', job);
    SameMarks(s.stores, s'.stores, job);
    forall w | HandledBy(s', w, job) ensures HandledBy(s, w, job) {
    }
  }

  lemma WorkMarked(s: State, w: nat, ev: Event)
    requires Counted(s) && Possible(s, Work(w, ev)) && OneHandling(s, s.workers[w].job) && Marked(s, s.workers[w].job)
    ensures Marked(WorkStep(s, w, ev), s.workers[w].job)
  {
    var worker, s', job := s.workers[w], WorkStep(s, w, ev), s.workers[w].job;
    assert HandledBy(s, w, job) && HandledBy(s', w, job);
    AdvanceMarks(s.stores, job, worker.receives, worker.pc, ev);
    forall v | HandledBy(s', v, job) ensures v == w {
      assert HandledBy(s, v, job);
    }
  }

  lemma SubmitMarked(s: State, job: JobId, sev: SubmitEvent)
    requires Counted(s) && Possible(s, Submit(job, sev)) && OneHandling(s, job) && Marked(s, job)
    ensures Marked(SubmitStep(s, job, sev), job)
  {
    var s', pc := SubmitStep(s, job, sev), s.submissions[job];
    forall v ensures HandledBy(s', v, job) <==> HandledBy(s, v, job) {
    }
    forall v | HandledBy(s, v, job) ensures HoldsCurrent(s, v) {
    }
    if !BeforeSend(pc) {
      LateSubmitMarks(s.stores, job, pc, sev);
    }
  }

  lemma SettleMarked(s: State, w: nat, effective: bool)
    requires Possible(s, Settle(w, effective)) && OneHandling(s, s.workers[w].job) && Marked(s, s.workers[w].job)
    ensures Marked(Next(s, Settle(w, effective)), s.workers[w].job)
  {
    SettleHandling(s, w, effective);
    assert HandledBy(s, w, s.workers[w].job) && HoldsCurrent(s, w);
  }

  lemma CrashMarked(s: State, w: nat)
    requires BusyAt(s, w) && OneHandling(s, s.workers[w].job) && s.workers[w].receives < MAX_QUEUE_ATTEMPTS
    ensures Marked(SetWorker(s, w, Idle), s.workers[w].job)
  {
    CrashHandling(s, w);
    assert HandledBy(s, w, s.workers[w].job) && HoldsCurrent(s, w);
  }

  lemma AsideMarked(s: State, s': State, job: JobId)
    requires OneHandling(s, job) && Marked(s, job)
    requires s'.workers == s.workers && s'.stores.jobs == s.stores.jobs
    requires job in s'.stores.snapshots ==>
               job in s.stores.snapshots && s'.stores.snapshots[job] == s.stores.snapshots[job]
    requires job in s'.messages ==> job in s.messages && s'.messages[job].receives == s.messages[job].receives
    requires job in s'.messages && !s'.messages[job].place.Deleted? ==> !s.messages[job].place.Deleted?
    ensures Marked(s', job)
  {
    forall v ensures HandledBy(s', v, job) <==> HandledBy(s, v, job) {
    }
  }

  lemma NextMarked(s: State, l: Label, job: JobId)
    requires Counted(s) && Possible(s, l) && OneHandling(s, job) && Marked(s, job)
    requires OneAtATime(s, l, job) && FinishesLast(s, l, job)
    ensures Marked(Next(s, l), job)
  {
    if !Concerns(s, l, job) {
      OthersLeaveAlone(s, l, job);
      OtherMarked(s, Next(s, l), job);
    } else {
      match l
      case Submit(_, sev) => SubmitMarked(s, job, sev);
      case Work(w, ev) => WorkMarked(s, w, ev);
      case Receive(w, _) => ReceiveMarked(s, w, job);
      case Settle(w, effective) => SettleMarked(s, w, effective);
      case Crash(w) => CrashMarked(s, w);
      case _ => AsideMarked(s, Next(s, l), job);
    }
  }

  lemma ReceiveMarked(s: State, w: nat, job: JobId)
    requires Possible(s, Receive(w, job)) && OneHandling(s, job)
    ensures Marked(Next(s, Receive(w, job)), job)
  {
    var s' := Next(s, Receive(w, job));
    ReceiveHandling(s, w, job);
    forall v | HandledBy(s', v, job) ensures v == w {
      assert HandledBy(s', w, job);
    }
  }

  lemma {:induction false} RunMarked(s: State, run: seq<Label>, job: JobId)
    requires Counted(s) && OneHandling(s, job) && Marked(s, job)
    requires IsRun(s, run) && RunOneAtATime(s, run, job) && RunFinishesLast(s, run, job)
    ensures Counted(After(s, run)) && OneHandling(After(s, run), job) && Marked(After(s, run), job)
    decreases |run|
  {
    if run != [] {
      NextCounted(s, run[0], job);
      NextHandling(s, run[0], job);
      NextMarked(s, run[0], job);
      RunMarked(Next(s, run[0]), run[1..], job);
    }
  }

  /**
   If the job's message is in one pair of hands at a time and no worker dies in its last delivery, the
   message reaches the dead-letter queue only with the job marked failed. Crashes in its earlier
   deliveries, and anything that happens to other jobs, make no difference.
   */
  lemma DeadLetterIsMarked(init: State, run: seq<Label>, job: JobId)
    requires IsInit(init) && IsRun(init, run) && RunOneAtATime(init, run, job) && RunFinishesLast(init, run, job)
    requires job in After(init, run).messages && After(init, run).messages[job].place.DeadLetter?
    ensures MarkedFailed(After(init, run).stores, job)
  {
    RunMarked(init, run, job);
    NobodyHandles(After(init, run), job);
  }
}
