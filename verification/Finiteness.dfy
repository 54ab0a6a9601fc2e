/**
 Every run is finite but for new submissions: a potential that each step lowers. Retries, crashes,
 lapses and expiries are all paid for by the submission that started the job.
 */
module Finiteness {
  import opened Prelude
  import opened Schema
  import opened Stores
  import opened PipelineSteps
  import opened SubmitSteps
  import opened System

  // ---------------------------------------------------------------- totals over a map

  ghost function Total<K(!new)>(m: map<K, nat>): nat
    decreases |m|
  {
    if m == map[] then 0
    else
      assert m.Keys != {};
      var k :| k in m.Keys;
      m[k] + Total(m - {k})
  }

  lemma {:induction false} TotalTake<K(!new)>(m: map<K, nat>, k: K)
    requires k in m
    ensures Total(m) == m[k] + Total(m - {k})
    decreases |m|
  {
    assert m.Keys != {};
    var j :| j in m.Keys && Total(m) == m[j] + Total(m - {j});
    if j != k {
      TotalTake(m - {j}, k);
      TotalTake(m - {k}, j);
      assert m - {j} - {k} == m - {k} - {j};
    }
  }

  lemma TotalPut<K(!new)>(m: map<K, nat>, k: K, n: nat)
    ensures Total(m[k := n]) == Total(m) + n - (if k in m then m[k] else 0)
  {
    var m' := m[k := n];
    TotalTake(m', k);
    if k in m {
      TotalTake(m, k);
      assert m' - {k} == m - {k};
    } else {
      assert m' - {k} == m;
    }
  }

  lemma {:induction false} TotalNothing<K(!new)>(m: map<K, nat>)
    requires forall k :: k in m ==> m[k] == 0
    ensures Total(m) == 0
    decreases |m|
  {
    if m != map[] {
      assert m.Keys != {};
      var k :| k in m.Keys && Total(m) == m[k] + Total(m - {k});
      TotalNothing(m - {k});
    }
  }

  // ---------------------------------------------------------------- the potential

  /** A message in the queue: one more than the retries that a submission can cause in all. */
  const MESSAGE_COST: nat := 20 * MAX_QUEUE_ATTEMPTS + 2

  /** What one new submission adds: at most this many steps follow from it. */
  const BEGIN_COST: nat := 2 * (MESSAGE_COST + 9) + 1

  function SubmissionWeight(pc: SubmitPc): nat {
    SubmitRank(pc) + (if pc.CreateRow? || pc.SeedSnapshot? || pc.LookupCached? || pc.Enqueue? then MESSAGE_COST else 0)
  }

  function AttemptsLeft(m: Envelope): nat {
    if m.receives < MAX_QUEUE_ATTEMPTS then MAX_QUEUE_ATTEMPTS - m.receives else 0
  }

  function MessageWeight(m: Envelope): nat {
    20 * AttemptsLeft(m) + (match m.place case Visible => 1 case InFlight => 2 case _ => 0)
  }

  function WorkerWeight(w: Worker): nat {
    if w.Busy? then Rank(w.pc) else 0
  }

  function SubmissionWeights(submissions: map<JobId, SubmitPc>): map<JobId, nat> {
    map job | job in submissions :: SubmissionWeight(submissions[job])
  }

  function MessageWeights(messages: map<JobId, Envelope>): map<JobId, nat> {
    map job | job in messages :: MessageWeight(messages[job])
  }

  function WorkerWeights(workers: map<nat, Worker>): map<nat, nat> {
    map w | w in workers :: WorkerWeight(workers[w])
  }

  /** The steps that handlings, deliveries and submissions can still take. */
  ghost function Effort(s: State): nat {
    Total(SubmissionWeights(s.submissions)) + Total(MessageWeights(s.messages)) + Total(WorkerWeights(s.workers))
  }

  /** The entries that can still expire. */
  function Entries(st: Stores): nat {
    |st.snapshots| + |st.insights|
  }

  ghost function Potential(s: State): nat {
    2 * Effort(s) + Entries(s.stores)
  }

  // ---------------------------------------------------------------- one part of the state changes

  lemma WorkerPut(workers: map<nat, Worker>, w: nat, worker: Worker)
    requires w in workers
    ensures Total(WorkerWeights(workers[w := worker]))
            == Total(WorkerWeights(workers)) + WorkerWeight(worker) - WorkerWeight(workers[w])
  {
    TotalPut(WorkerWeights(workers), w, WorkerWeight(worker));
    assert WorkerWeights(workers[w := worker]) == WorkerWeights(workers)[w := WorkerWeight(worker)];
  }

  lemma MessagePut(messages: map<JobId, Envelope>, job: JobId, m: Envelope)
    ensures Total(MessageWeights(messages[job := m]))
            == Total(MessageWeights(messages)) + MessageWeight(m)
               - (if job in messages then MessageWeight(messages[job]) else 0)
  {
    TotalPut(MessageWeights(messages), job, MessageWeight(m));
    assert MessageWeights(messages[job := m]) == MessageWeights(messages)[job := MessageWeight(m)];
  }

  lemma SubmissionPut(submissions: map<JobId, SubmitPc>, job: JobId, pc: SubmitPc)
    ensures Total(SubmissionWeights(submissions[job := pc]))
            == Total(SubmissionWeights(submissions)) + SubmissionWeight(pc)
               - (if job in submissions then SubmissionWeight(submissions[job]) else 0)
  {
    TotalPut(SubmissionWeights(submissions), job, SubmissionWeight(pc));
    assert SubmissionWeights(submissions[job := pc]) == SubmissionWeights(submissions)[job := SubmissionWeight(pc)];
  }

  /** A step of a handling or of a submission leaves at most one entry more. */
  lemma AdvanceEntries(st: Stores, job: JobId, receives: nat, pc: Pc, ev: Event)
    requires Fits(pc, ev)
    ensures Entries(Advance(st, job, receives, pc, ev).0) <= Entries(st) + 1
  {
  }

  lemma SubmitEntries(st: Stores, job: JobId, pc: SubmitPc, sev: SubmitEvent)
    requires SubmitFits(pc, sev)
    ensures Entries(SubmitAdvance(st, job, pc, sev).0) <= Entries(st) + 1
  {
  }

  lemma FewerKeys<K, V>(m: map<K, V>, key: K)
    requires key in m
    ensures |m - {key}| < |m|
  {
    assert (m - {key}).Keys == m.Keys - {key};
  }

  // ---------------------------------------------------------------- each label pays

  lemma SubmitPays(s: State, job: JobId, sev: SubmitEvent)
    requires Possible(s, Submit(job, sev))
    ensures Potential(SubmitStep(s, job, sev)) < Potential(s)
  {
    var pc := s.submissions[job];
    SubmitEntries(s.stores, job, pc, sev);
    SubmitLowersRank(s.stores, job, pc, sev);
    SubmissionPut(s.submissions, job, SubmitAdvance(s.stores, job, pc, sev).1);
    if pc.Enqueue? {
      MessagePut(s.messages, job, Envelope(pc.ctx.target.canonicalUrl, 0, Visible));
    }
  }

  lemma WorkPays(s: State, w: nat, ev: Event)
    requires Possible(s, Work(w, ev))
    ensures Potential(WorkStep(s, w, ev)) < Potential(s)
  {
    var worker := s.workers[w];
    AdvanceLowersRank(s.stores, worker.job, worker.receives, worker.pc, ev);
    AdvanceEntries(s.stores, worker.job, worker.receives, worker.pc, ev);
    WorkerPut(s.workers, w, WorkStep(s, w, ev).workers[w]);
  }

  lemma ReceiveWeight(m: Envelope)
    requires m.place.Visible? && m.receives < MAX_QUEUE_ATTEMPTS
    ensures MessageWeight(m.(receives := m.receives + 1, place := InFlight)) + 19 == MessageWeight(m)
  {
  }

  /** What a state with another worker and another message weighs. */
  lemma EffortPut(s: State, w: nat, worker: Worker, job: JobId, m: Envelope)
    requires w in s.workers && job in s.messages
    ensures Effort(SetWorker(s, w, worker).(messages := s.messages[job := m]))
         == Effort(s) + WorkerWeight(worker) - WorkerWeight(s.workers[w])
            + MessageWeight(m) - MessageWeight(s.messages[job])
  {
    WorkerPut(s.workers, w, worker);
    MessagePut(s.messages, job, m);
  }

  lemma TakePays(s: State, s': State, w: nat, job: JobId, worker: Worker)
    requires w in s.workers && s.workers[w].Idle? && WorkerWeight(worker) <= 17
    requires job in s.messages && s.messages[job].place.Visible? && s.messages[job].receives < MAX_QUEUE_ATTEMPTS
    requires var m := s.messages[job];
             s' == SetWorker(s, w, worker)
                     .(messages := s.messages[job := m.(receives := m.receives + 1, place := InFlight)])
    ensures Potential(s') < Potential(s)
  {
    var m := s.messages[job];
    ReceiveWeight(m);
    EffortPut(s, w, worker, job, m.(receives := m.receives + 1, place := InFlight));
  }

  lemma ReceivePays(s: State, w: nat, job: JobId)
    requires Possible(s, Receive(w, job))
    ensures Potential(Next(s, Receive(w, job))) < Potential(s)
  {
    var parsed := ReceiveTakes(s, w, job);
    TakePays(s, Next(s, Receive(w, job)), w, job, Busy(job, s.messages[job].receives + 1, Start(parsed)));
  }

  lemma PlacePut(s: State, job: JobId, place: Place)
    requires job in s.messages
    ensures Effort(SetPlace(s, job, place))
            == Effort(s) + MessageWeight(s.messages[job].(place := place)) - MessageWeight(s.messages[job])
  {
    MessagePut(s.messages, job, s.messages[job].(place := place));
  }

  /** Settling a message does not give it more to do. */
  lemma SettledEffort(s: State, job: JobId, pc: Pc, effective: bool)
    ensures Effort(Settled(s, job, pc, effective)) <= Effort(s)
  {
    if Settled(s, job, pc, effective) != s {
      PlacePut(s, job, if pc.Acknowledge? then Deleted else Visible);
    }
  }

  /** A worker that is busy has at least one step to take, which it no longer has when it is idle. */
  lemma FreeEffort(s: State, w: nat)
    requires BusyAt(s, w)
    ensures Effort(SetWorker(s, w, Idle)) < Effort(s)
  {
    WorkerPut(s.workers, w, Idle);
  }

  lemma SettlePays(s: State, w: nat, effective: bool)
    requires Possible(s, Settle(w, effective))
    ensures Potential(Next(s, Settle(w, effective))) < Potential(s)
  {
    var worker := s.workers[w];
    SettledEffort(s, worker.job, worker.pc, effective);
    FreeEffort(Settled(s, worker.job, worker.pc, effective), w);
  }

  lemma MovePays(s: State, job: JobId, place: Place)
    requires job in s.messages && (s.messages[job].place.InFlight? || place.DeadLetter?)
    requires s.messages[job].place.InFlight? || s.messages[job].place.Visible?
    requires place.Visible? || place.DeadLetter?
    ensures Potential(SetPlace(s, job, place)) < Potential(s)
  {
    PlacePut(s, job, place);
  }

  lemma CrashPays(s: State, w: nat)
    requires BusyAt(s, w)
    ensures Potential(SetWorker(s, w, Idle)) < Potential(s)
  {
    FreeEffort(s, w);
  }

  lemma ExpiryPays(s: State, l: Label)
    requires Possible(s, l) && (l.ExpireSnapshot? || l.ExpireInsights?)
    ensures Potential(Next(s, l)) < Potential(s)
  {
    match l
    case ExpireSnapshot(job) => FewerKeys(s.stores.snapshots, job);
    case ExpireInsights(key) => FewerKeys(s.stores.insights, key);
  }

  /** Only a new submission raises the potential, and by a fixed amount. */
  lemma StepPays(s: State, l: Label)
    requires Possible(s, l)
    ensures Potential(Next(s, l)) < Potential(s) + (if l.Begin? then BEGIN_COST else 0)
  {
    match l
    case Begin(job, ctx) => SubmissionPut(s.submissions, job, CreateRow(ctx));
    case Submit(job, sev) => SubmitPays(s, job, sev);
    case Receive(w, job) => ReceivePays(s, w, job);
    case Work(w, ev) => WorkPays(s, w, ev);
    case Settle(w, effective) => SettlePays(s, w, effective);
    case ExpireSnapshot(_) => ExpiryPays(s, l);
    case ExpireInsights(_) => ExpiryPays(s, l);
    case SubmitDies(job) => SubmissionPut(s.submissions, job, Refused);
    case Crash(w) => CrashPays(s, w);
    case Lapse(job) => MovePays(s, job, Visible);
    case Redrive(job) => MovePays(s, job, DeadLetter);
  }

  // ---------------------------------------------------------------- whole runs

  function Begins(run: seq<Label>): nat {
    if run == [] then 0 else (if run[0].Begin? then 1 else 0) + Begins(run[1..])
  }

  function CostOf(begins: nat): nat {
    BEGIN_COST * begins
  }

  lemma CostsAdd(a: nat, b: nat)
    ensures CostOf(a + b) == CostOf(a) + CostOf(b) && CostOf(1) == BEGIN_COST && CostOf(0) == 0
  {
  }

  lemma {:induction false} RunPays(s: State, run: seq<Label>)
    requires IsRun(s, run)
    ensures |run| + Potential(After(s, run)) <= Potential(s) + CostOf(Begins(run))
    decreases |run|
  {
    if run == [] {
      CostsAdd(0, 0);
    } else {
      StepPays(s, run[0]);
      RunPays(Next(s, run[0]), run[1..]);
      CostsAdd(if run[0].Begin? then 1 else 0, Begins(run[1..]));
    }
  }

  /** However often jobs are retried, a run is at most a fixed number of steps per submission. */
  lemma RunsAreBounded(init: State, run: seq<Label>)
    requires IsInit(init) && IsRun(init, run)
    ensures |run| <= CostOf(Begins(run))
  {
    RunPays(init, run);
    TotalNothing(WorkerWeights(init.workers));
  }
}
