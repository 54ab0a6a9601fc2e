/** What belongs to one job, and that the steps of other jobs leave it alone. */
module JobView {
  import opened Prelude
  import opened Schema
  import opened Stores
  import opened PipelineSteps
  import opened SubmitSteps
  import opened System

  datatype View = View(
    message: Option<Envelope>,
    row: Option<JobRow>,
    snapshot: Option<Snapshot>,
    report: Option<Report>,
    submission: Option<SubmitPc>)

  function RowOf(st: Stores, job: JobId): Option<JobRow> {
    if job in st.jobs then Some(st.jobs[job]) else None
  }

  function ViewOf(s: State, job: JobId): View {
    View(if job in s.messages then Some(s.messages[job]) else None,
         RowOf(s.stores, job), SnapshotOf(s.stores, job), ReportOf(s.stores, job),
         if job in s.submissions then Some(s.submissions[job]) else None)
  }

  predicate HandledBy(s: State, w: nat, job: JobId) {
    BusyAt(s, w) && s.workers[w].job == job
  }

  ghost predicate Handled(s: State, job: JobId) {
    exists w :: HandledBy(s, w, job)
  }

  /** The same workers handle the job, and are at the same point. */
  ghost predicate SameHandlers(s: State, s': State, job: JobId) {
    && (forall w :: HandledBy(s, w, job) ==> w in s'.workers && s'.workers[w] == s.workers[w])
    && (forall w :: HandledBy(s', w, job) ==> w in s.workers && s.workers[w] == s'.workers[w])
  }

  ghost predicate SameJob(s: State, s': State, job: JobId) {
    ViewOf(s', job) == ViewOf(s, job) && SameHandlers(s, s', job)
  }

  /** The label is a step of the job: of its submission, its message, a handling of it, or its snapshot. */
  predicate Concerns(s: State, l: Label, job: JobId) {
    match l
    case Begin(j, _) => j == job
    case Submit(j, _) => j == job
    case Receive(_, j) => j == job
    case Work(w, _) => HandledBy(s, w, job)
    case Settle(w, _) => HandledBy(s, w, job)
    case SubmitDies(j) => j == job
    case Crash(w) => HandledBy(s, w, job)
    case Lapse(j) => j == job
    case Redrive(j) => j == job
    case ExpireSnapshot(j) => j == job
    case ExpireInsights(_) => false
  }

  // ---------------------------------------------------------------- stores

  /** Row, snapshot and report of another job. */
  predicate SameEntries(st: Stores, st': Stores, job: JobId) {
    && RowOf(st', job) == RowOf(st, job)
    && SnapshotOf(st', job) == SnapshotOf(st, job)
    && ReportOf(st', job) == ReportOf(st, job)
  }

  lemma AdvanceOwnJob(st: Stores, job: JobId, receives: nat, pc: Pc, ev: Event, other: JobId)
    requires Fits(pc, ev) && other != job
    ensures SameEntries(st, Advance(st, job, receives, pc, ev).0, other)
  {
  }

  lemma SubmitOwnJob(st: Stores, job: JobId, pc: SubmitPc, sev: SubmitEvent, other: JobId)
    requires SubmitFits(pc, sev) && other != job
    ensures SameEntries(st, SubmitAdvance(st, job, pc, sev).0, other)
  {
  }

  // ---------------------------------------------------------------- steps of other jobs

  lemma OtherWork(s: State, w: nat, ev: Event, job: JobId)
    requires Possible(s, Work(w, ev)) && !HandledBy(s, w, job)
    ensures SameJob(s, WorkStep(s, w, ev), job)
  {
    var worker := s.workers[w];
    AdvanceOwnJob(s.stores, worker.job, worker.receives, worker.pc, ev, job);
  }

  lemma OtherSubmit(s: State, j: JobId, sev: SubmitEvent, job: JobId)
    requires Possible(s, Submit(j, sev)) && j != job
    ensures SameJob(s, SubmitStep(s, j, sev), job)
  {
    SubmitOwnJob(s.stores, j, s.submissions[j], sev, job);
  }

  lemma OtherReceive(s: State, w: nat, j: JobId, job: JobId)
    requires Possible(s, Receive(w, j)) && j != job
    ensures SameJob(s, Next(s, Receive(w, j)), job)
  {
  }

  lemma OtherSettle(s: State, w: nat, effective: bool, job: JobId)
    requires Possible(s, Settle(w, effective)) && !HandledBy(s, w, job)
    ensures SameJob(s, Next(s, Settle(w, effective)), job)
  {
  }

  lemma OtherEnvironment(s: State, l: Label, job: JobId)
    requires Possible(s, l) && !Concerns(s, l, job)
    requires l.Begin? || l.SubmitDies? || l.Crash? || l.Lapse? || l.Redrive? || l.ExpireSnapshot? || l.ExpireInsights?
    ensures SameJob(s, Next(s, l), job)
  {
  }

  /** A label that does not concern a job leaves everything that belongs to it as it is. */
  lemma OthersLeaveAlone(s: State, l: Label, job: JobId)
    requires Possible(s, l) && !Concerns(s, l, job)
    ensures SameJob(s, Next(s, l), job)
  {
    match l
    case Submit(j, sev) => OtherSubmit(s, j, sev, job);
    case Work(w, ev) => OtherWork(s, w, ev, job);
    case Receive(w, j) => OtherReceive(s, w, j, job);
    case Settle(w, effective) => OtherSettle(s, w, effective, job);
    case _ => OtherEnvironment(s, l, job);
  }
}
