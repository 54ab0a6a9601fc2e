/**
 The whole service as a state machine: any number of submissions and workers, the message queue with
 its receive counts and dead-letter queue, and what the environment may do between two steps.

 Every label names one step together with everything the environment decided in it, so a run is a
 sequence of labels. One message is sent per job, so messages are named by their job.
 */
module System {
  import opened Prelude
  import opened UrlValidator
  import opened Schema
  import opened Stores
  import opened PipelineSteps
  import opened SubmitSteps

  datatype Place = Visible | InFlight | Deleted | DeadLetter

  /** A message, how often it has been received, and where it is. */
  datatype Envelope = Envelope(url: string, receives: nat, place: Place)

  /** A busy worker holds the receipt of one delivery: the job and the receive count it came with. */
  datatype Worker = Idle | Busy(job: JobId, receives: nat, pc: Pc)

  datatype State = State(
    stores: Stores,
    messages: map<JobId, Envelope>,
    workers: map<nat, Worker>,
    submissions: map<JobId, SubmitPc>)

  datatype Label =
    // the service
    | Begin(job: JobId, ctx: RawContext)
    | Submit(job: JobId, sev: SubmitEvent)
    | Receive(worker: nat, job: JobId)
    | Work(worker: nat, ev: Event)
    | Settle(worker: nat, effective: bool)
    // the environment
    | SubmitDies(job: JobId)
    | Crash(worker: nat)
    | Lapse(job: JobId)
    | Redrive(job: JobId)
    | ExpireSnapshot(job: JobId)
    | ExpireInsights(key: AiKey)

  predicate IsInit(s: State) {
    && s.stores == Stores(map[], map[], map[], map[], [])
    && s.messages == map[] && s.submissions == map[]
    && forall w :: w in s.workers ==> s.workers[w].Idle?
  }

  predicate BusyAt(s: State, w: nat) {
    w in s.workers && s.workers[w].Busy?
  }

  /** The delivery a worker holds is the latest one of a message still in flight. */
  predicate HoldsCurrent(s: State, w: nat)
    requires BusyAt(s, w)
  {
    && s.workers[w].job in s.messages
    && s.messages[s.workers[w].job].place.InFlight?
    && s.messages[s.workers[w].job].receives == s.workers[w].receives
  }

  /** A target as the URL parser hands it out. */
  predicate IsParsed(target: Target) {
    ValidTarget(target) && !IsReserved(target.owner) && target.canonicalUrl == CanonicalUrl(target.owner, target.repo)
  }

  lemma ParserHandsOut(url: string)
    ensures ParseRepositoryUrl(url).Ok? ==> IsParsed(ParseRepositoryUrl(url).value)
  {
  }

  /**
   Which labels can occur. Job ids are fresh (random UUIDs). Deleting or releasing with the current
   receipt takes effect; with an outdated one it may or may not.
   */
  predicate Possible(s: State, l: Label) {
    match l
    case Begin(job, ctx) =>
      job !in s.submissions && IsParsed(ctx.target)
    case Submit(job, sev) => job in s.submissions && SubmitFits(s.submissions[job], sev)
    case Receive(w, job) =>
      && w in s.workers && s.workers[w].Idle?
      && job in s.messages && s.messages[job].place.Visible? && s.messages[job].receives < MAX_QUEUE_ATTEMPTS
    case Work(w, ev) => BusyAt(s, w) && !AtQueue(s.workers[w].pc) && Fits(s.workers[w].pc, ev)
    case Settle(w, effective) => BusyAt(s, w) && AtQueue(s.workers[w].pc) && (HoldsCurrent(s, w) ==> effective)
    case SubmitDies(job) => job in s.submissions && !Ended(s.submissions[job])
    case Crash(w) => BusyAt(s, w)
    case Lapse(job) => job in s.messages && s.messages[job].place.InFlight?
    case Redrive(job) =>
      job in s.messages && s.messages[job].place.Visible? && s.messages[job].receives >= MAX_QUEUE_ATTEMPTS
    case ExpireSnapshot(job) => job in s.stores.snapshots
    case ExpireInsights(key) => key in s.stores.insights
  }

  function SetWorker(s: State, w: nat, worker: Worker): State {
    s.(workers := s.workers[w := worker])
  }

  function SetPlace(s: State, job: JobId, place: Place): State {
    if job in s.messages then s.(messages := s.messages[job := s.messages[job].(place := place)]) else s
  }

  /** What deleting or releasing a message that is still in the main queue does to it. */
  function Settled(s: State, job: JobId, pc: Pc, effective: bool): State {
    if effective && job in s.messages && (s.messages[job].place.Visible? || s.messages[job].place.InFlight?) then
      SetPlace(s, job, if pc.Acknowledge? then Deleted else Visible)
    else s
  }

  /** A submission step; the queue takes the message when sending succeeds, and perhaps when it fails. */
  function SubmitStep(s: State, job: JobId, sev: SubmitEvent): State
    requires job in s.submissions && SubmitFits(s.submissions[job], sev)
  {
    var pc := s.submissions[job];
    var (stores, next) := SubmitAdvance(s.stores, job, pc, sev);
    var messages :=
      if pc.Enqueue? && (sev.Sent? || sev.enqueued) then
        s.messages[job := Envelope(pc.ctx.target.canonicalUrl, 0, Visible)]
      else s.messages;
    s.(stores := stores, submissions := s.submissions[job := next], messages := messages)
  }

  function WorkStep(s: State, w: nat, ev: Event): State
    requires BusyAt(s, w) && Fits(s.workers[w].pc, ev)
  {
    var worker := s.workers[w];
    var (stores, pc) := Advance(s.stores, worker.job, worker.receives, worker.pc, ev);
    SetWorker(s, w, worker.(pc := pc)).(stores := stores)
  }

  /** The step of a label. */
  function Next(s: State, l: Label): State
    requires Possible(s, l)
  {
    match l
    case Begin(job, ctx) => s.(submissions := s.submissions[job := CreateRow(ctx)])
    case Submit(job, sev) => SubmitStep(s, job, sev)
    case Receive(w, job) =>
      var m := s.messages[job];
      SetWorker(s, w, Busy(job, m.receives + 1, Start(ParseRepositoryUrl(m.url))))
        .(messages := s.messages[job := m.(receives := m.receives + 1, place := InFlight)])
    case Work(w, ev) => WorkStep(s, w, ev)
    case Settle(w, effective) =>
      SetWorker(Settled(s, s.workers[w].job, s.workers[w].pc, effective), w, Idle)
    case SubmitDies(job) => s.(submissions := s.submissions[job := Refused])
    case Crash(w) => SetWorker(s, w, Idle)
    case Lapse(job) => SetPlace(s, job, Visible)
    case Redrive(job) => SetPlace(s, job, DeadLetter)
    case ExpireSnapshot(job) => s.(stores := s.stores.(snapshots := s.stores.snapshots - {job}))
    case ExpireInsights(key) => s.(stores := s.stores.(insights := s.stores.insights - {key}))
  }

  /** A worker that takes a message starts with what the parser makes of its URL. */
  lemma ReceiveTakes(s: State, w: nat, job: JobId) returns (parsed: Result<Target, UrlError>)
    requires Possible(s, Receive(w, job))
    ensures var m := s.messages[job];
            && parsed == ParseRepositoryUrl(m.url)
            && Next(s, Receive(w, job))
               == SetWorker(s, w, Busy(job, m.receives + 1, Start(parsed)))
                    .(messages := s.messages[job := m.(receives := m.receives + 1, place := InFlight)])
  {
    var m, s' := s.messages[job], Next(s, Receive(w, job));
    parsed := ParseRepositoryUrl(m.url);
    assert s'.workers == s.workers[w := Busy(job, m.receives + 1, Start(parsed))];
    assert s'.messages == s.messages[job := m.(receives := m.receives + 1, place := InFlight)];
  }

  // ---------------------------------------------------------------- runs

  predicate IsRun(s: State, run: seq<Label>)
    decreases |run|
  {
    run == [] || (Possible(s, run[0]) && IsRun(Next(s, run[0]), run[1..]))
  }

  function After(s: State, run: seq<Label>): State
    requires IsRun(s, run)
    decreases |run|
  {
    if run == [] then s else After(Next(s, run[0]), run[1..])
  }

  /** Every state some run of the service can be in. */
  ghost predicate Reachable(s: State) {
    exists init, run :: IsInit(init) && IsRun(init, run) && After(init, run) == s
  }

  lemma RunStarts(s: State, l: Label, rest: seq<Label>)
    requires Possible(s, l) && IsRun(Next(s, l), rest)
    ensures IsRun(s, [l] + rest) && After(s, [l] + rest) == After(Next(s, l), rest)
  {
    assert ([l] + rest)[1..] == rest;
  }

  lemma {:induction false} RunsJoin(s: State, first: seq<Label>, second: seq<Label>)
    requires IsRun(s, first) && IsRun(After(s, first), second)
    ensures IsRun(s, first + second) && After(s, first + second) == After(After(s, first), second)
    decreases |first|
  {
    if first == [] {
      assert first + second == second;
    } else {
      RunsJoin(Next(s, first[0]), first[1..], second);
      assert (first + second)[1..] == first[1..] + second;
    }
  }

  lemma StaysReachable(s: State, run: seq<Label>)
    requires Reachable(s) && IsRun(s, run)
    ensures Reachable(After(s, run))
  {
    var init, before :| IsInit(init) && IsRun(init, before) && After(init, before) == s;
    RunsJoin(init, before, run);
  }
}
