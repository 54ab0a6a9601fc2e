/** Every message is handed to a worker at most as often as the redrive policy allows. */
module RetryBound {
  import opened Prelude
  import opened Schema
  import opened PipelineSteps
  import opened SubmitSteps
  import opened System

  /** The submission can still send a message, or is one that never will. */
  predicate BeforeSend(pc: SubmitPc) {
    pc.CreateRow? || pc.SeedSnapshot? || pc.LookupCached? || pc.Enqueue?
    || pc.SaveCached? || pc.CompleteCachedRow? || pc.CompleteCachedSnapshot?
  }

  /** Only a sent job has a message, and every delivery being handled is one the queue has counted. */
  ghost predicate Counted(s: State) {
    && (forall job :: job in s.messages ==>
          job in s.submissions && !BeforeSend(s.submissions[job]) && s.messages[job].receives <= MAX_QUEUE_ATTEMPTS)
    && (forall w :: BusyAt(s, w) ==>
          && s.workers[w].job in s.messages
          && 1 <= s.workers[w].receives <= s.messages[s.workers[w].job].receives)
    && (forall job :: job in s.messages && s.messages[job].place.DeadLetter? ==>
          s.messages[job].receives == MAX_QUEUE_ATTEMPTS)
  }

  function Receives(s: State, job: JobId): nat {
    if job in s.messages then s.messages[job].receives else 0
  }

  function HandOvers(run: seq<Label>, job: JobId): nat {
    if run == [] then 0
    else (if run[0].Receive? && run[0].job == job then 1 else 0) + HandOvers(run[1..], job)
  }

  lemma SubmitCounted(s: State, job: JobId, sev: SubmitEvent)
    requires Counted(s) && Possible(s, Submit(job, sev))
    ensures Counted(SubmitStep(s, job, sev))
    ensures forall j :: Receives(SubmitStep(s, job, sev), j) == Receives(s, j)
  {
  }

  lemma WorkCounted(s: State, w: nat, ev: Event)
    requires Counted(s) && Possible(s, Work(w, ev))
    ensures Counted(WorkStep(s, w, ev)) && WorkStep(s, w, ev).messages == s.messages
  {
  }

  lemma TakeCounted(s: State, s': State, w: nat, job: JobId, worker: Worker)
    requires Counted(s) && job in s.messages && s.messages[job].receives < MAX_QUEUE_ATTEMPTS
    requires s.messages[job].place.Visible?
    requires worker.Busy? && worker.job == job && worker.receives == s.messages[job].receives + 1
    requires s' == SetWorker(s, w, worker)
                     .(messages := s.messages[job := s.messages[job].(receives := worker.receives, place := InFlight)])
    ensures Counted(s')
    ensures forall j :: Receives(s', j) == Receives(s, j) + (if j == job then 1 else 0)
  {
    forall v | BusyAt(s', v) && v != w ensures BusyAt(s, v) && s'.workers[v] == s.workers[v] {
    }
  }

  lemma ReceiveCounted(s: State, w: nat, job: JobId)
    requires Counted(s) && Possible(s, Receive(w, job))
    ensures Counted(Next(s, Receive(w, job)))
    ensures forall j :: Receives(Next(s, Receive(w, job)), j) == Receives(s, j) + (if j == job then 1 else 0)
  {
    var s' := Next(s, Receive(w, job));
    TakeCounted(s, s', w, job, s'.workers[w]);
  }

  lemma SettleCounted(s: State, w: nat, effective: bool)
    requires Counted(s) && Possible(s, Settle(w, effective))
    ensures Counted(Next(s, Settle(w, effective)))
    ensures forall j :: Receives(Next(s, Settle(w, effective)), j) == Receives(s, j)
  {
  }

  lemma PlaceCounted(s: State, job: JobId, place: Place)
    requires Counted(s) && (place.DeadLetter? ==> Possible(s, Redrive(job)))
    ensures Counted(SetPlace(s, job, place))
    ensures forall j :: Receives(SetPlace(s, job, place), j) == Receives(s, j)
  {
  }

  lemma AsideCounted(s: State, l: Label)
    requires Counted(s) && Possible(s, l)
    requires l.Begin? || l.SubmitDies? || l.Crash? || l.ExpireSnapshot? || l.ExpireInsights?
    ensures Counted(Next(s, l)) && Next(s, l).messages == s.messages
  {
  }

  lemma NextCounted(s: State, l: Label, job: JobId)
    requires Counted(s) && Possible(s, l)
    ensures Counted(Next(s, l)) && Receives(Next(s, l), job) == Receives(s, job) + HandOvers([l], job)
  {
    match l
    case Submit(j, sev) => SubmitCounted(s, j, sev);
    case Work(w, ev) => WorkCounted(s, w, ev);
    case Receive(w, j) => ReceiveCounted(s, w, j);
    case Settle(w, effective) => SettleCounted(s, w, effective);
    case Lapse(j) => PlaceCounted(s, j, Visible);
    case Redrive(j) => PlaceCounted(s, j, DeadLetter);
    case _ => AsideCounted(s, l);
  }

  lemma {:induction false} RunCounted(s: State, run: seq<Label>, job: JobId)
    requires Counted(s) && IsRun(s, run)
    ensures Counted(After(s, run)) && Receives(After(s, run), job) == Receives(s, job) + HandOvers(run, job)
    decreases |run|
  {
    if run != [] {
      NextCounted(s, run[0], job);
      RunCounted(Next(s, run[0]), run[1..], job);
    }
  }

  /**
   In every run a job is handed to a worker at most MAX_QUEUE_ATTEMPTS times, as often as its message
   counts, and its message is in the dead-letter queue only when all those attempts were used.
   */
  lemma HandOversBounded(init: State, run: seq<Label>, job: JobId)
    requires IsInit(init) && IsRun(init, run)
    ensures HandOvers(run, job) == Receives(After(init, run), job) <= MAX_QUEUE_ATTEMPTS
    ensures job in After(init, run).messages && After(init, run).messages[job].place.DeadLetter? ==>
              HandOvers(run, job) == MAX_QUEUE_ATTEMPTS
  {
    RunCounted(init, run, job);
  }
}
