/**
 The exact condition under which a dead-lettered job is marked: its last delivery was not cut short.
 And the input: as many crashes as there are attempts leave an accepted job unmarked.
 */
module LastDelivery {
  import opened Prelude
  import opened UrlValidator
  import opened Schema
  import opened Stores
  import opened PipelineSteps
  import opened SubmitSteps
  import opened System
  import opened JobView
  import opened RetryBound
  import opened DeadLetters

  /** The error handling has marked the row. */
  predicate HasMarked(pc: Pc) {
    pc.FailSnapshot? || pc.Release?
  }

  /** A worker dies in the last delivery of the job's message and has not marked the row. */
  predicate CutsShort(s: State, l: Label, job: JobId) {
    && l.Crash? && HandledBy(s, l.worker, job)
    && s.workers[l.worker].receives >= MAX_QUEUE_ATTEMPTS && !HasMarked(s.workers[l.worker].pc)
  }

  predicate RunCutsShort(s: State, run: seq<Label>, job: JobId)
    requires IsRun(s, run)
    decreases |run|
  {
    run != [] && (CutsShort(s, run[0], job) || RunCutsShort(Next(s, run[0]), run[1..], job))
  }

  /** A submission that can still end in acceptance, or has. */
  predicate Hopeful(pc: SubmitPc) {
    BeforeSend(pc) || pc.Accepted?
  }

  ghost predicate StillHopeful(s: State, job: JobId) {
    job in s.submissions ==> Hopeful(s.submissions[job])
  }

  /** The row says failed exactly if the last delivery got to mark it; cut is whether it was cut short. */
  ghost predicate Told(s: State, job: JobId, cut: bool) {
    && StillHopeful(s, job)
    && ((job in s.messages ==> s.messages[job].receives < MAX_QUEUE_ATTEMPTS) ==> !cut && !RowFailed(s.stores, job))
    && (forall w :: HandledBy(s, w, job) && s.workers[w].receives >= MAX_QUEUE_ATTEMPTS ==>
          !cut && (RowFailed(s.stores, job) <==> HasMarked(s.workers[w].pc)))
    && (GivenUp(s, job) ==> (RowFailed(s.stores, job) <==> !cut))
  }

  // ---------------------------------------------------------------- single steps

  lemma AdvanceTells(st: Stores, job: JobId, receives: nat, pc: Pc, ev: Event)
    requires Fits(pc, ev) && job in st.jobs && !AtQueue(pc) && MarksLast(Busy(job, receives, pc))
    ensures var (st', pc') := Advance(st, job, receives, pc, ev);
            && (receives < MAX_QUEUE_ATTEMPTS && !RowFailed(st, job) ==> !RowFailed(st', job))
            && (receives >= MAX_QUEUE_ATTEMPTS && (RowFailed(st, job) <==> HasMarked(pc)) ==>
                  (RowFailed(st', job) <==> HasMarked(pc')))
  {
  }

  lemma SubmitTells(st: Stores, job: JobId, pc: SubmitPc, sev: SubmitEvent)
    requires SubmitFits(pc, sev) && Hopeful(pc) && !RowFailed(st, job)
    ensures !RowFailed(SubmitAdvance(st, job, pc, sev).0, job)
  {
  }

  lemma OtherTold(s: State, s': State, job: JobId, cut: bool)
    requires OneHandling(s, job) && Told(s, job, cut) && SameJob(s, s', job)
    ensures Told(s', job, cut)
  {
    OtherHandling(s, s', job);
    SameMarks(s.stores, s'.stores, job);
    assert ViewOf(s, job).message == ViewOf(s', job).message;
    assert ViewOf(s, job).submission == ViewOf(s', job).submission;
    forall w | HandledBy(s', w, job) ensures HandledBy(s, w, job) {
    }
  }

  lemma WorkTold(s: State, w: nat, ev: Event, cut: bool)
    requires Possible(s, Work(w, ev)) && OneHandling(s, s.workers[w].job) && Told(s, s.workers[w].job, cut)
    ensures Told(WorkStep(s, w, ev), s.workers[w].job, cut)
  {
    var worker, s', job := s.workers[w], WorkStep(s, w, ev), s.workers[w].job;
    assert HandledBy(s, w, job) && HandledBy(s', w, job) && HoldsCurrent(s, w);
    AdvanceTells(s.stores, job, worker.receives, worker.pc, ev);
    forall v | HandledBy(s', v, job) ensures v == w {
      assert HandledBy(s, v, job);
    }
  }

  lemma SubmitTold(s: State, job: JobId, sev: SubmitEvent, cut: bool)
    requires Counted(s) && Possible(s, Submit(job, sev)) && OneHandling(s, job) && Told(s, job, cut)
    requires StillHopeful(SubmitStep(s, job, sev), job)
    ensures Told(SubmitStep(s, job, sev), job, cut)
  {
    var s', pc := SubmitStep(s, job, sev), s.submissions[job];
    assert BeforeSend(pc) && job !in s.messages;
    SubmitTells(s.stores, job, pc, sev);
    forall v ensures HandledBy(s', v, job) <==> HandledBy(s, v, job) {
    }
    forall v | HandledBy(s, v, job) ensures HoldsCurrent(s, v) {
    }
  }

  lemma ReceiveTold(s: State, w: nat, job: JobId, cut: bool)
    requires Possible(s, Receive(w, job)) && OneHandling(s, job) && Told(s, job, cut)
    ensures Told(Next(s, Receive(w, job)), job, cut)
  {
    var s' := Next(s, Receive(w, job));
    ReceiveHandling(s, w, job);
    TakeTold(s, s', w, job, s'.workers[w], cut);
  }

  lemma TakeTold(s: State, s': State, w: nat, job: JobId, worker: Worker, cut: bool)
    requires OneHandling(s', job) && HandledBy(s', w, job) && Told(s, job, cut)
    requires job in s.messages && s.messages[job].receives < MAX_QUEUE_ATTEMPTS && worker.Busy? && worker.pc.Start?
    requires s' == SetWorker(s, w, worker)
                     .(messages := s.messages[job := s.messages[job].(receives := worker.receives, place := InFlight)])
    ensures Told(s', job, cut)
  {
    forall v | HandledBy(s', v, job) ensures v == w {
    }
  }

  lemma SettleTold(s: State, w: nat, effective: bool, cut: bool)
    requires Possible(s, Settle(w, effective)) && OneHandling(s, s.workers[w].job) && Told(s, s.workers[w].job, cut)
    ensures Told(Next(s, Settle(w, effective)), s.workers[w].job, cut)
  {
    var s', job := Next(s, Settle(w, effective)), s.workers[w].job;
    SettleHandling(s, w, effective);
    assert HandledBy(s, w, job) && HoldsCurrent(s, w);
    forall v | HandledBy(s', v, job) ensures Handled(s', job) {
    }
  }

  lemma CrashTold(s: State, w: nat, cut: bool)
    requires BusyAt(s, w) && OneHandling(s, s.workers[w].job) && Told(s, s.workers[w].job, cut)
    ensures Told(SetWorker(s, w, Idle), s.workers[w].job, cut || CutsShort(s, Crash(w), s.workers[w].job))
  {
    var s', job := SetWorker(s, w, Idle), s.workers[w].job;
    CrashHandling(s, w);
    assert HandledBy(s, w, job) && HoldsCurrent(s, w);
    forall v | HandledBy(s', v, job) ensures Handled(s', job) {
    }
  }

  /** Moving the message, expiry, and a submission that begins, change neither row nor handling. */
  lemma AsideTold(s: State, s': State, job: JobId, cut: bool)
    requires Told(s, job, cut) && StillHopeful(s', job)
    requires s'.workers == s.workers && s'.stores.jobs == s.stores.jobs
    requires job in s'.messages <==> job in s.messages
    requires job in s.messages ==>
               && s'.messages[job].receives == s.messages[job].receives
               && (s'.messages[job].place.Deleted? <==> s.messages[job].place.Deleted?)
    ensures Told(s', job, cut)
  {
    forall v ensures HandledBy(s', v, job) <==> HandledBy(s, v, job) {
    }
  }

  lemma NextTold(s: State, l: Label, job: JobId, cut: bool)
    requires Counted(s) && Possible(s, l) && OneHandling(s, job) && Told(s, job, cut)
    requires OneAtATime(s, l, job) && StillHopeful(Next(s, l), job)
    ensures Told(Next(s, l), job, cut || CutsShort(s, l, job))
  {
    var s' := Next(s, l);
    if !Concerns(s, l, job) {
      OthersLeaveAlone(s, l, job);
      OtherTold(s, s', job, cut);
    } else {
      match l
      case Submit(_, sev) => SubmitTold(s, job, sev, cut);
      case Work(w, ev) => WorkTold(s, w, ev, cut);
      case Receive(w, _) => ReceiveTold(s, w, job, cut);
      case Settle(w, effective) => SettleTold(s, w, effective, cut);
      case Crash(w) => CrashTold(s, w, cut);
      case SubmitDies(_) => assert false;
      case Begin(_, _) => AsideTold(s, s', job, cut);
      case Lapse(_) => AsideTold(s, s', job, cut);
      case Redrive(_) => AsideTold(s, s', job, cut);
      case ExpireSnapshot(_) => AsideTold(s, s', job, cut);
    }
  }

  // ---------------------------------------------------------------- whole runs

  lemma SubmitStaysHopeless(s: State, l: Label, job: JobId)
    requires Possible(s, l) && !StillHopeful(s, job)
    ensures !StillHopeful(Next(s, l), job)
  {
  }

  lemma {:induction false} HopelessRun(s: State, run: seq<Label>, job: JobId)
    requires IsRun(s, run) && !StillHopeful(s, job)
    ensures !StillHopeful(After(s, run), job)
    decreases |run|
  {
    if run != [] {
      SubmitStaysHopeless(s, run[0], job);
      HopelessRun(Next(s, run[0]), run[1..], job);
    }
  }

  lemma {:induction false} RunTold(s: State, run: seq<Label>, job: JobId, cut: bool)
    requires Counted(s) && OneHandling(s, job) && Told(s, job, cut)
    requires IsRun(s, run) && RunOneAtATime(s, run, job) && StillHopeful(After(s, run), job)
    ensures OneHandling(After(s, run), job) && Told(After(s, run), job, cut || RunCutsShort(s, run, job))
    decreases |run|
  {
    if run != [] {
      var s' := Next(s, run[0]);
      if !StillHopeful(s', job) {
        HopelessRun(s', run[1..], job);
      }
      NextCounted(s, run[0], job);
      NextHandling(s, run[0], job);
      NextTold(s, run[0], job, cut);
      RunTold(s', run[1..], job, cut || CutsShort(s, run[0], job));
    }
  }

  /**
   With one handling at a time, the row of an accepted job whose message is in the dead-letter queue
   says failed exactly if no crash cut its last delivery short before the row was marked.
   */
  lemma DeadLetterIsMarkedIff(init: State, run: seq<Label>, job: JobId)
    requires IsInit(init) && IsRun(init, run) && RunOneAtATime(init, run, job)
    requires var s := After(init, run);
             && job in s.submissions && s.submissions[job].Accepted?
             && job in s.messages && s.messages[job].place.DeadLetter?
    ensures RowFailed(After(init, run).stores, job) <==> !RunCutsShort(init, run, job)
  {
    RunCounted(init, run, job);
    RunTold(init, run, job, false);
    NobodyHandles(After(init, run), job);
  }

  // ---------------------------------------------------------------- crashes leave no mark

  lemma RowRun(s: State, job: JobId, ctx: RawContext) returns (run: seq<Label>)
    requires Possible(s, Begin(job, ctx))
    ensures IsRun(s, run)
    ensures var s' := After(s, run);
            && s'.workers == s.workers && s'.messages == s.messages && s'.stores.insights == s.stores.insights
            && s'.submissions == s.submissions[job := LookupCached(ctx)]
            && job in s'.stores.jobs && s'.stores.jobs[job].status.Pending?
  {
    var goOn := Submit(job, Continue);
    var s1 := Next(s, Begin(job, ctx));
    var s2 := Next(s1, goOn);
    RunStarts(s2, goOn, []);
    RunStarts(s1, goOn, [goOn] + []);
    run := [Begin(job, ctx)] + ([goOn] + ([goOn] + []));
    RunStarts(s, Begin(job, ctx), run[1..]);
  }

  lemma SendRun(s: State, job: JobId, ctx: RawContext) returns (run: seq<Label>)
    requires job in s.submissions && s.submissions[job] == LookupCached(ctx) && CacheKey(ctx) !in s.stores.insights
    ensures IsRun(s, run)
    ensures var s' := After(s, run);
            && s'.workers == s.workers && s'.stores == s.stores && s'.submissions == s.submissions[job := Accepted]
            && s'.messages == s.messages[job := Envelope(ctx.target.canonicalUrl, 0, Visible)]
  {
    var s1 := Next(s, Submit(job, Continue));
    RunStarts(s1, Submit(job, Sent), []);
    run := [Submit(job, Continue)] + ([Submit(job, Sent)] + []);
    RunStarts(s, Submit(job, Continue), run[1..]);
  }

  /** A worker dies right after it got the message, and the message comes back. */
  lemma CrashRun(s: State, w: nat, job: JobId) returns (run: seq<Label>)
    requires Possible(s, Receive(w, job))
    ensures IsRun(s, run)
    ensures var s' := After(s, run);
            && s'.stores == s.stores && s'.workers == s.workers && s'.submissions == s.submissions
            && s'.messages == s.messages[job := s.messages[job].(receives := s.messages[job].receives + 1)]
  {
    var s1 := Next(s, Receive(w, job));
    var s2 := Next(s1, Crash(w));
    RunStarts(s2, Lapse(job), []);
    RunStarts(s1, Crash(w), [Lapse(job)] + []);
    run := [Receive(w, job)] + ([Crash(w)] + ([Lapse(job)] + []));
    RunStarts(s, Receive(w, job), run[1..]);
  }

  /** So it goes until the attempts are used up, and the message is redriven. */
  lemma {:induction false} CrashesRun(s: State, w: nat, job: JobId) returns (run: seq<Label>)
    requires w in s.workers && s.workers[w].Idle?
    requires job in s.messages && s.messages[job].place.Visible? && s.messages[job].receives <= MAX_QUEUE_ATTEMPTS
    ensures IsRun(s, run)
    ensures var s' := After(s, run);
            && s'.stores == s.stores && s'.submissions == s.submissions
            && job in s'.messages && s'.messages[job].place.DeadLetter?
    decreases MAX_QUEUE_ATTEMPTS - s.messages[job].receives
  {
    if s.messages[job].receives == MAX_QUEUE_ATTEMPTS {
      RunStarts(s, Redrive(job), []);
      run := [Redrive(job)] + [];
    } else {
      var first := CrashRun(s, w, job);
      var rest := CrashesRun(After(s, first), w, job);
      RunsJoin(s, first, rest);
      run := first + rest;
    }
  }

  /**
   Such runs exist for every repository: a worker that dies in every delivery of an accepted job puts
   its message into the dead-letter queue while its row still says pending.
   */
  lemma CrashesLeaveJobUnmarked(init: State, w: nat, job: JobId, ctx: RawContext) returns (run: seq<Label>)
    requires IsInit(init) && w in init.workers && Possible(init, Begin(job, ctx))
    ensures IsRun(init, run)
    ensures var s := After(init, run);
            && job in s.submissions && s.submissions[job].Accepted?
            && job in s.messages && s.messages[job].place.DeadLetter?
            && job in s.stores.jobs && s.stores.jobs[job].status.Pending?
  {
    var row := RowRun(init, job, ctx);
    var send := SendRun(After(init, row), job, ctx);
    RunsJoin(init, row, send);
    var sent := After(init, row + send);
    var crashes := CrashesRun(sent, w, job);
    RunsJoin(init, row + send, crashes);
    run := row + send + crashes;
  }
}
