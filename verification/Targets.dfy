/** Which repository a report is about: the one its job was submitted for, but for one corner. */
module Targets {
  import opened Prelude
  import opened Text
  import opened UrlValidator
  import opened Schema
  import opened Stores
  import opened PipelineSteps
  import opened SubmitSteps
  import opened System
  import opened RetryBound

  predicate RowNames(row: JobRow, target: Target) {
    row.owner == target.owner && row.repo == target.repo
  }

  /** What the worker makes of the canonical URL of a row's names. */
  function Reparsed(row: JobRow): Result<Target, UrlError> {
    CheckNames(row.owner, row.repo)
  }

  predicate PcTargets(expected: Result<Target, UrlError>, pc: Pc) {
    match pc
    case Start(parsed) => parsed == expected
    case MarkSnapshot(target, _) => Ok(target) == expected
    case MarkRow(target) => Ok(target) == expected
    case Fetch(target) => Ok(target) == expected
    case SnapshotFetched(ctx) => Ok(ctx.target) == expected
    case RowFetched(ctx) => Ok(ctx.target) == expected
    case LookupCache(ctx) => Ok(ctx.target) == expected
    case SnapshotAnalyzing(ctx, _) => Ok(ctx.target) == expected
    case Analyze(ctx, _) => Ok(ctx.target) == expected
    case CacheAnswer(ctx, _) => Ok(ctx.target) == expected
    case StoreReport(ctx, _, _) => Ok(ctx.target) == expected
    case _ => true
  }

  predicate SubmitTargets(st: Stores, job: JobId, pc: SubmitPc) {
    && (!Ended(pc) ==> IsParsed(pc.ctx.target))
    && (!Ended(pc) && !pc.CreateRow? ==> job in st.jobs && RowNames(st.jobs[job], pc.ctx.target))
    && (pc.CreateRow? ==> job !in st.jobs)
  }

  predicate ReportTargets(st: Stores, job: JobId)
    requires job in st.reports
  {
    job in st.jobs &&
    var target := st.reports[job].markdown.ctx.target;
    RowNames(st.jobs[job], target) || Ok(target) == Reparsed(st.jobs[job])
  }

  /** The row has names the parser accepted, and the message their canonical URL. */
  predicate MessageTargets(st: Stores, job: JobId, m: Envelope) {
    job in st.jobs &&
    var row := st.jobs[job];
    IsParsed(Target(row.owner, row.repo, m.url))
  }

  ghost predicate OnTarget(s: State) {
    && Counted(s)
    && (forall job :: job in s.stores.jobs ==> job in s.submissions)
    && (forall job :: job in s.submissions ==> SubmitTargets(s.stores, job, s.submissions[job]))
    && (forall job :: job in s.stores.reports ==> ReportTargets(s.stores, job))
    && (forall job :: job in s.messages ==> MessageTargets(s.stores, job, s.messages[job]))
    && (forall w :: BusyAt(s, w) && s.workers[w].job in s.stores.jobs ==>
                      PcTargets(Reparsed(s.stores.jobs[s.workers[w].job]), s.workers[w].pc))
  }

  // ---------------------------------------------------------------- stores

  /** Rows keep their names and are never removed. */
  predicate NamesKept(st: Stores, st': Stores) {
    forall job :: job in st.jobs ==>
                    && job in st'.jobs
                    && st'.jobs[job].owner == st.jobs[job].owner && st'.jobs[job].repo == st.jobs[job].repo
  }

  lemma AdvanceNames(st: Stores, job: JobId, receives: nat, pc: Pc, ev: Event)
    requires Fits(pc, ev)
    ensures var st' := Advance(st, job, receives, pc, ev).0;
            NamesKept(st, st') && st'.jobs.Keys == st.jobs.Keys
  {
  }

  lemma AdvanceReports(st: Stores, job: JobId, receives: nat, pc: Pc, ev: Event)
    requires Fits(pc, ev)
    ensures var st' := Advance(st, job, receives, pc, ev).0;
            || st'.reports == st.reports
            || (pc.StoreReport? && st'.reports == st.reports[job := MakeReport(pc.ctx, pc.analysis, pc.reason)])
  {
  }

  lemma AdvancePcTargets(st: Stores, job: JobId, receives: nat, pc: Pc, ev: Event, expected: Result<Target, UrlError>)
    requires Fits(pc, ev) && PcTargets(expected, pc)
    ensures PcTargets(expected, Advance(st, job, receives, pc, ev).1)
  {
  }

  lemma KeptReport(st: Stores, st': Stores, job: JobId)
    requires NamesKept(st, st') && job in st.reports && job in st'.reports && st'.reports[job] == st.reports[job]
    requires ReportTargets(st, job)
    ensures ReportTargets(st', job)
  {
    assert Reparsed(st'.jobs[job]) == Reparsed(st.jobs[job]);
  }

  lemma AdvanceTargets(st: Stores, job: JobId, receives: nat, pc: Pc, ev: Event)
    requires Fits(pc, ev) && job in st.jobs && PcTargets(Reparsed(st.jobs[job]), pc)
    requires forall j :: j in st.reports ==> ReportTargets(st, j)
    ensures var st' := Advance(st, job, receives, pc, ev).0; forall j :: j in st'.reports ==> ReportTargets(st', j)
  {
    AdvanceNames(st, job, receives, pc, ev);
    AdvanceReports(st, job, receives, pc, ev);
    var st' := Advance(st, job, receives, pc, ev).0;
    forall j | j in st'.reports ensures ReportTargets(st', j) {
      if j in st.reports && st'.reports[j] == st.reports[j] {
        KeptReport(st, st', j);
      } else {
        assert Reparsed(st'.jobs[job]) == Reparsed(st.jobs[job]);
      }
    }
  }

  lemma SubmitStaysOnTarget(st: Stores, job: JobId, pc: SubmitPc, sev: SubmitEvent)
    requires SubmitFits(pc, sev) && SubmitTargets(st, job, pc)
    requires forall j :: j in st.reports ==> ReportTargets(st, j)
    ensures var (st', pc') := SubmitAdvance(st, job, pc, sev);
            && NamesKept(st, st') && st'.jobs.Keys == st.jobs.Keys + (if pc.CreateRow? then {job} else {})
            && SubmitTargets(st', job, pc')
            && (forall j :: j in st'.reports ==> ReportTargets(st', j))
  {
    var (st', pc') := SubmitAdvance(st, job, pc, sev);
    forall j | j in st'.reports ensures ReportTargets(st', j) {
      assert j in st.jobs;
      assert Reparsed(st'.jobs[j]) == Reparsed(st.jobs[j]);
    }
  }

  // ---------------------------------------------------------------- single steps

  lemma KeptOnTarget(s: State, st': Stores)
    requires OnTarget(s) && NamesKept(s.stores, st')
    ensures forall job :: job in s.messages ==> MessageTargets(st', job, s.messages[job])
    ensures forall w :: BusyAt(s, w) ==> s.workers[w].job in s.stores.jobs && s.workers[w].job in st'.jobs
    ensures forall w :: BusyAt(s, w) ==> PcTargets(Reparsed(st'.jobs[s.workers[w].job]), s.workers[w].pc)
  {
    forall w | BusyAt(s, w)
      ensures s.workers[w].job in s.stores.jobs && s.workers[w].job in st'.jobs
      ensures PcTargets(Reparsed(st'.jobs[s.workers[w].job]), s.workers[w].pc)
    {
      var job := s.workers[w].job;
      assert MessageTargets(s.stores, job, s.messages[job]);
      assert Reparsed(st'.jobs[job]) == Reparsed(s.stores.jobs[job]);
    }
  }

  lemma WorkOnTarget(s: State, w: nat, ev: Event)
    requires OnTarget(s) && Possible(s, Work(w, ev))
    ensures OnTarget(WorkStep(s, w, ev))
  {
    var worker, s' := s.workers[w], WorkStep(s, w, ev);
    KeptOnTarget(s, s.stores);
    WorkCounted(s, w, ev);
    AdvanceNames(s.stores, worker.job, worker.receives, worker.pc, ev);
    AdvancePcTargets(s.stores, worker.job, worker.receives, worker.pc, ev, Reparsed(s.stores.jobs[worker.job]));
    AdvanceTargets(s.stores, worker.job, worker.receives, worker.pc, ev);
    KeptOnTarget(s, s'.stores);
    assert Reparsed(s'.stores.jobs[worker.job]) == Reparsed(s.stores.jobs[worker.job]);
    forall v | BusyAt(s', v) && v != w ensures BusyAt(s, v) {
    }
  }

  lemma SubmitOnTarget(s: State, job: JobId, sev: SubmitEvent)
    requires OnTarget(s) && Possible(s, Submit(job, sev))
    ensures OnTarget(SubmitStep(s, job, sev))
  {
    var pc, s' := s.submissions[job], SubmitStep(s, job, sev);
    SubmitCounted(s, job, sev);
    SubmitStaysOnTarget(s.stores, job, pc, sev);
    KeptOnTarget(s, s'.stores);
    forall w | BusyAt(s', w) ensures BusyAt(s, w) {
    }
  }

  lemma TakeOnTarget(s: State, s': State, w: nat, job: JobId, worker: Worker)
    requires OnTarget(s) && Counted(s') && job in s.messages && job in s.stores.jobs
    requires worker.Busy? && worker.job == job && PcTargets(Reparsed(s.stores.jobs[job]), worker.pc)
    requires s' == SetWorker(s, w, worker)
                     .(messages := s.messages[job := s.messages[job].(receives := worker.receives, place := InFlight)])
    ensures OnTarget(s')
  {
    KeptOnTarget(s, s.stores);
    forall v | BusyAt(s', v) && v != w ensures BusyAt(s, v) && s'.workers[v] == s.workers[v] {
    }
  }

  lemma ReceiveOnTarget(s: State, w: nat, job: JobId)
    requires OnTarget(s) && Possible(s, Receive(w, job))
    ensures OnTarget(Next(s, Receive(w, job)))
  {
    var s' := Next(s, Receive(w, job));
    assert MessageTargets(s.stores, job, s.messages[job]);
    var row := s.stores.jobs[job];
    ReceiveCounted(s, w, job);
    ParseOfCanonical(row.owner, row.repo);
    TakeOnTarget(s, s', w, job, s'.workers[w]);
  }

  lemma SettleOnTarget(s: State, w: nat, effective: bool)
    requires OnTarget(s) && Possible(s, Settle(w, effective))
    ensures OnTarget(Next(s, Settle(w, effective)))
  {
    SettleCounted(s, w, effective);
    KeptOnTarget(s, s.stores);
    forall v | BusyAt(Next(s, Settle(w, effective)), v) ensures BusyAt(s, v) {
    }
  }

  lemma PlaceOnTarget(s: State, job: JobId, place: Place)
    requires OnTarget(s) && (place.DeadLetter? ==> Possible(s, Redrive(job)))
    ensures OnTarget(SetPlace(s, job, place))
  {
    PlaceCounted(s, job, place);
    KeptOnTarget(s, s.stores);
    forall v | BusyAt(SetPlace(s, job, place), v) ensures BusyAt(s, v) {
    }
  }

  lemma CrashOnTarget(s: State, w: nat)
    requires OnTarget(s) && Possible(s, Crash(w))
    ensures OnTarget(SetWorker(s, w, Idle))
  {
    AsideCounted(s, Crash(w));
    KeptOnTarget(s, s.stores);
    forall v | BusyAt(SetWorker(s, w, Idle), v) ensures BusyAt(s, v) {
    }
  }

  lemma ExpiryOnTarget(s: State, st': Stores)
    requires OnTarget(s) && st'.jobs == s.stores.jobs && st'.reports == s.stores.reports
    ensures OnTarget(s.(stores := st'))
  {
    KeptOnTarget(s, st');
    forall w | BusyAt(s.(stores := st'), w) ensures BusyAt(s, w) {
    }
    forall job | job in st'.reports ensures ReportTargets(st', job) {
      assert ReportTargets(s.stores, job);
    }
  }

  lemma SubmissionOnTarget(s: State, job: JobId, pc: SubmitPc)
    requires OnTarget(s) && SubmitTargets(s.stores, job, pc) && Counted(s.(submissions := s.submissions[job := pc]))
    ensures OnTarget(s.(submissions := s.submissions[job := pc]))
  {
    var s' := s.(submissions := s.submissions[job := pc]);
    KeptOnTarget(s, s.stores);
    forall w | BusyAt(s', w) ensures BusyAt(s, w) {
    }
  }

  lemma NextOnTarget(s: State, l: Label)
    requires OnTarget(s) && Possible(s, l)
    ensures OnTarget(Next(s, l))
  {
    if l.Begin? || l.SubmitDies? {
      AsideCounted(s, l);
    }
    match l
    case Begin(job, ctx) => SubmissionOnTarget(s, job, CreateRow(ctx));
    case SubmitDies(job) => SubmissionOnTarget(s, job, Refused);
    case Submit(job, sev) => SubmitOnTarget(s, job, sev);
    case Work(w, ev) => WorkOnTarget(s, w, ev);
    case Receive(w, job) => ReceiveOnTarget(s, w, job);
    case Settle(w, effective) => SettleOnTarget(s, w, effective);
    case Lapse(job) => PlaceOnTarget(s, job, Visible);
    case Redrive(job) => PlaceOnTarget(s, job, DeadLetter);
    case Crash(w) => CrashOnTarget(s, w);
    case ExpireSnapshot(_) => ExpiryOnTarget(s, Next(s, l).stores);
    case ExpireInsights(_) => ExpiryOnTarget(s, Next(s, l).stores);
  }

  // ---------------------------------------------------------------- whole runs

  lemma {:induction false} RunOnTarget(s: State, run: seq<Label>)
    requires OnTarget(s) && IsRun(s, run)
    ensures OnTarget(After(s, run))
    decreases |run|
  {
    if run != [] {
      NextOnTarget(s, run[0]);
      RunOnTarget(Next(s, run[0]), run[1..]);
    }
  }

  /**
   A stored report is about the owner and repository its job was submitted for, unless the submitted
   name still ends in ".git": then it may be about the name without that suffix, which is what the
   worker reads out of the canonical URL.
   */
  lemma ReportIsOnTarget(s: State, job: JobId)
    requires Reachable(s) && job in s.stores.reports
    ensures job in s.stores.jobs
    ensures var row, target := s.stores.jobs[job], s.stores.reports[job].markdown.ctx.target;
            && target.owner == row.owner
            && (target.repo == row.repo
                || (EndsWith(row.repo, ".git") && target.repo == RemoveSuffix(row.repo, ".git")))
  {
    var init, run :| IsInit(init) && IsRun(init, run) && After(init, run) == s;
    RunOnTarget(init, run);
    assert ReportTargets(s.stores, job);
  }
}
