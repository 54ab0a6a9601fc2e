/** What every state of every run keeps: completed means reported, and no accepted job is lost. */
module Safety {
  import opened Prelude
  import opened Schema
  import opened Stores
  import opened PipelineSteps
  import opened SubmitSteps
  import opened System

  /** Whatever is marked completed, in the table or in the cache, has its report stored. */
  predicate CompletedIsReported(st: Stores) {
    && (forall job :: job in st.jobs && st.jobs[job].status.Completed? ==> job in st.reports)
    && (forall job :: job in st.snapshots && st.snapshots[job].status.Completed? ==> job in st.reports)
  }

  /** The handling has stored the report of its job. */
  predicate HasSaved(pc: Pc) {
    pc.CompleteRow? || pc.CompleteSnapshot? || pc.Acknowledge?
  }

  predicate HasSavedCached(pc: SubmitPc) {
    pc.CompleteCachedRow? || pc.CompleteCachedSnapshot?
  }

  predicate InQueue(s: State, job: JobId) {
    job in s.messages && (s.messages[job].place.Visible? || s.messages[job].place.InFlight?)
  }

  predicate InDeadLetters(s: State, job: JobId) {
    job in s.messages && s.messages[job].place.DeadLetter?
  }

  ghost predicate WorkersSafe(s: State) {
    forall w :: BusyAt(s, w) && HasSaved(s.workers[w].pc) ==> s.workers[w].job in s.stores.reports
  }

  predicate SubmissionsSafe(s: State) {
    forall job :: job in s.submissions ==>
      && (HasSavedCached(s.submissions[job]) ==> job in s.stores.reports)
      && (s.submissions[job].Accepted? ==> job in s.stores.reports || job in s.messages)
  }

  /** A message leaves the queue for good only when its job is reported. */
  predicate DeletionsSafe(s: State) {
    forall job :: job in s.messages && s.messages[job].place.Deleted? ==> job in s.stores.reports
  }

  ghost predicate Safe(s: State) {
    CompletedIsReported(s.stores) && WorkersSafe(s) && SubmissionsSafe(s) && DeletionsSafe(s)
  }

  // ---------------------------------------------------------------- single steps

  lemma AdvanceSafe(st: Stores, job: JobId, receives: nat, pc: Pc, ev: Event)
    requires Fits(pc, ev)
    requires CompletedIsReported(st) && (HasSaved(pc) ==> job in st.reports)
    ensures var (st', pc') := Advance(st, job, receives, pc, ev);
            CompletedIsReported(st') && (HasSaved(pc') ==> job in st'.reports) && st.reports.Keys <= st'.reports.Keys
  {
  }

  lemma SubmitAdvanceSafe(st: Stores, job: JobId, pc: SubmitPc, sev: SubmitEvent)
    requires SubmitFits(pc, sev)
    requires CompletedIsReported(st) && (HasSavedCached(pc) ==> job in st.reports)
    ensures var (st', pc') := SubmitAdvance(st, job, pc, sev);
            && CompletedIsReported(st') && st.reports.Keys <= st'.reports.Keys
            && (HasSavedCached(pc') ==> job in st'.reports)
            && (pc'.Accepted? ==> pc.Enqueue? || job in st'.reports)
  {
  }

  lemma SubmitSafe(s: State, job: JobId, sev: SubmitEvent)
    requires Safe(s) && Possible(s, Submit(job, sev))
    ensures Safe(SubmitStep(s, job, sev)) && s.stores.reports.Keys <= SubmitStep(s, job, sev).stores.reports.Keys
  {
    SubmitAdvanceSafe(s.stores, job, s.submissions[job], sev);
  }

  lemma WorkSafe(s: State, w: nat, ev: Event)
    requires Safe(s) && Possible(s, Work(w, ev))
    ensures Safe(WorkStep(s, w, ev)) && s.stores.reports.Keys <= WorkStep(s, w, ev).stores.reports.Keys
  {
    var worker := s.workers[w];
    AdvanceSafe(s.stores, worker.job, worker.receives, worker.pc, ev);
  }

  /** Only submissions and workers write to the stores for good. */
  lemma AsideSafe(s: State, l: Label)
    requires Safe(s) && Possible(s, l) && !l.Submit? && !l.Work?
    ensures Safe(Next(s, l)) && s.stores.reports == Next(s, l).stores.reports
  {
  }

  lemma NextSafe(s: State, l: Label)
    requires Safe(s) && Possible(s, l)
    ensures Safe(Next(s, l)) && s.stores.reports.Keys <= Next(s, l).stores.reports.Keys
  {
    match l
    case Submit(job, sev) => SubmitSafe(s, job, sev);
    case Work(w, ev) => WorkSafe(s, w, ev);
    case _ => AsideSafe(s, l);
  }

  // ---------------------------------------------------------------- whole runs

  lemma {:induction false} RunSafe(s: State, run: seq<Label>)
    requires Safe(s) && IsRun(s, run)
    ensures Safe(After(s, run)) && s.stores.reports.Keys <= After(s, run).stores.reports.Keys
    decreases |run|
  {
    if run != [] {
      NextSafe(s, run[0]);
      RunSafe(Next(s, run[0]), run[1..]);
    }
  }

  lemma ReachableSafe(s: State)
    requires Reachable(s)
    ensures Safe(s)
  {
    var init, run :| IsInit(init) && IsRun(init, run) && After(init, run) == s;
    RunSafe(init, run);
  }

  /** No step of any kind takes a stored report away. */
  lemma ReportsStay(s: State, run: seq<Label>, job: JobId)
    requires Reachable(s) && IsRun(s, run) && job in s.stores.reports
    ensures job in After(s, run).stores.reports
  {
    ReachableSafe(s);
    RunSafe(s, run);
  }

  /** In every reachable state a job or a snapshot marked completed has its report stored. */
  lemma CompletedHasReport(s: State, job: JobId)
    requires Reachable(s)
    ensures job in s.stores.jobs && s.stores.jobs[job].status.Completed? ==> job in s.stores.reports
    ensures job in s.stores.snapshots && s.stores.snapshots[job].status.Completed? ==> job in s.stores.reports
  {
    ReachableSafe(s);
  }

  /**
   No accepted job is lost: a job whose submission returned has its report stored, or its message is
   still in the main queue or in flight, or its message is in the dead-letter queue.
   */
  lemma NoAcceptedJobLost(s: State, job: JobId)
    requires Reachable(s) && job in s.submissions && s.submissions[job].Accepted?
    ensures job in s.stores.reports || InQueue(s, job) || InDeadLetters(s, job)
  {
    ReachableSafe(s);
  }

  // ---------------------------------------------------------------- the end of the line

  /** Nothing is left to do: only a new submission could change the state. */
  ghost predicate Quiet(s: State) {
    forall l :: Possible(s, l) ==> l.Begin?
  }

  /** With at least one worker, a service at rest has settled every job it accepted. */
  lemma QuietIsSettled(s: State, job: JobId)
    requires Reachable(s) && Quiet(s) && s.workers != map[]
    requires job in s.submissions && s.submissions[job].Accepted?
    ensures job in s.stores.reports || InDeadLetters(s, job)
  {
    NoAcceptedJobLost(s, job);
    var w := SomeKey(s.workers);
    NothingHappens(s, Crash(w));
    NothingHappens(s, Receive(w, job));
    NothingHappens(s, Lapse(job));
    NothingHappens(s, Redrive(job));
  }

  lemma NothingHappens(s: State, l: Label)
    requires Quiet(s) && !l.Begin?
    ensures !Possible(s, l)
  {
  }

  ghost function SomeKey<K(!new), V>(m: map<K, V>): (k: K)
    requires m != map[]
    ensures k in m
  {
    assert m.Keys != {};
    var k :| k in m.Keys;
    k
  }
}
