/** One turn of the worker's loop: receive, run the pipeline, settle with the queue. */
module Worker {
  import opened Prelude
  import opened UrlValidator
  import opened Schema
  import opened Stores
  import opened PipelineSteps
  import opened SubmitSteps
  import opened System
  import opened Delivery
  import Q = MessageQueue
  import P = Pipeline
  import B = Backend

  /** The state of the service as seen with this one worker, which is idle between two turns. */
  ghost function Now(stores: Stores, messages: map<JobId, Envelope>, submissions: map<JobId, SubmitPc>): State {
    State(stores, messages, map[0 := Idle], submissions)
  }

  // ---------------------------------------------------------------- what a turn is as a run

  /** The messages a receive request moved away are moved one redrive at a time. */
  lemma {:induction false} RedriveRun(s: State, after: map<JobId, Envelope>, moved: set<JobId>)
    returns (run: seq<Label>)
    requires Q.Redriven(s.messages, after)
    requires forall job :: job in s.messages && s.messages[job] != after[job] <==> job in moved
    ensures IsRun(s, run) && After(s, run) == s.(messages := after)
    decreases |moved|
  {
    if moved == {} {
      assert s.messages == after;
      run := [];
    } else {
      var job :| job in moved;
      assert job in s.messages && after[job] == s.messages[job].(place := DeadLetter);
      var s1 := Next(s, Redrive(job));
      assert s1.messages[job] == after[job];
      var rest := RedriveRun(s1, after, moved - {job});
      run := [Redrive(job)] + rest;
      assert run[1..] == rest;
    }
  }

  lemma RedrivesAreRun(s: State, after: map<JobId, Envelope>) returns (run: seq<Label>)
    requires Q.Redriven(s.messages, after)
    ensures IsRun(s, run) && After(s, run) == s.(messages := after)
  {
    run := RedriveRun(s, after, set job | job in s.messages && s.messages[job] != after[job]);
  }

  /** Telling the queue how the handling ended. */
  lemma SettleRun(s: State, job: JobId, m: Envelope, pc: Pc) returns (run: seq<Label>)
    requires AtQueue(pc) && m.place.InFlight? && job in s.messages && s.messages[job] == m
    requires s.workers == map[0 := Busy(job, m.receives, pc)]
    ensures IsRun(s, run)
    ensures After(s, run) == s.(workers := map[0 := Idle], messages := s.messages[job := m.(place := Settlement(pc))])
  {
    var settle := Settle(0, true);
    assert Possible(s, settle);
    assert Next(s, settle).workers == map[0 := Idle];
    run := [settle];
    assert run[1..] == [];
  }

  lemma HandlingRun(s: State, job: JobId, m: Envelope, pc: Pc, world: World, builder: Builder) returns (run: seq<Label>)
    requires KeepsKey(builder) && m.place.InFlight? && job in s.messages && s.messages[job] == m
    requires s.workers == map[0 := Busy(job, m.receives, pc)]
    ensures IsRun(s, run)
    ensures var (st', pc') := Drive(s.stores, job, m.receives, pc, world, builder);
            After(s, run)
            == s.(stores := st', workers := map[0 := Idle], messages := s.messages[job := m.(place := Settlement(pc'))])
  {
    var work := DriveIsRun(s, 0, world, builder);
    var (st', pc') := Drive(s.stores, job, m.receives, pc, world, builder);
    DriveEndsAtQueue(s.stores, job, m.receives, pc, world, builder);
    var s1 := After(s, work);
    assert s1.workers == map[0 := Busy(job, m.receives, pc')];
    var last := SettleRun(s1, job, m, pc');
    RunsJoin(s, work, last);
    run := work + last;
  }

  /** A delivery from the hand-over to the settlement, with nothing in between. */
  lemma DeliveryRun(s: State, r: Q.Received, start: Pc, world: World, builder: Builder) returns (run: seq<Label>)
    requires KeepsKey(builder) && s.workers == map[0 := Idle] && 1 <= r.receives <= MAX_QUEUE_ATTEMPTS
    requires r.job in s.messages && s.messages[r.job] == Envelope(r.url, r.receives - 1, Visible)
    requires start == Start(ParseRepositoryUrl(r.url))
    ensures IsRun(s, run)
    ensures var (st, pc) := Drive(s.stores, r.job, r.receives, start, world, builder);
            After(s, run)
            == s.(stores := st, messages := s.messages[r.job := Envelope(r.url, r.receives, Settlement(pc))])
  {
    HandedOver(s, r, start);
    run := HandlingRun(Next(s, Receive(0, r.job)), r.job, Envelope(r.url, r.receives, InFlight), start, world, builder);
    ghost var pc := Drive(s.stores, r.job, r.receives, start, world, builder).1;
    LastWriteWins(s.messages, r.job, Envelope(r.url, r.receives, InFlight),
                  Envelope(r.url, r.receives, Settlement(pc)));
    RunStarts(s, Receive(0, r.job), run);
    run := [Receive(0, r.job)] + run;
  }

  lemma LastWriteWins<K, V>(m: map<K, V>, k: K, a: V, b: V)
    ensures m[k := a][k := b] == m[k := b]
  {
  }

  lemma HandedOver(s: State, r: Q.Received, start: Pc)
    requires s.workers == map[0 := Idle] && 1 <= r.receives <= MAX_QUEUE_ATTEMPTS
    requires r.job in s.messages && s.messages[r.job] == Envelope(r.url, r.receives - 1, Visible)
    requires start == Start(ParseRepositoryUrl(r.url))
    ensures Possible(s, Receive(0, r.job))
    ensures Next(s, Receive(0, r.job))
         == s.(workers := map[0 := Busy(r.job, r.receives, start)],
               messages := s.messages[r.job := Envelope(r.url, r.receives, InFlight)])
  {
    var parsed := ReceiveTakes(s, 0, r.job);
  }

  lemma {:induction false} DriveEndsAtQueue(st: Stores, job: JobId, receives: nat, pc: Pc, world: World,
                                            builder: Builder)
    requires KeepsKey(builder)
    ensures AtQueue(Drive(st, job, receives, pc, world, builder).1)
    decreases Rank(pc)
  {
    if !AtQueue(pc) {
      var ev := Reaction(pc, world, builder);
      AdvanceLowersRank(st, job, receives, pc, ev);
      var (st', pc') := Advance(st, job, receives, pc, ev);
      DriveEndsAtQueue(st', job, receives, pc', world, builder);
    }
  }

  /** Where the message goes when the handling has ended. */
  function Settlement(pc: Pc): Place {
    if pc.Acknowledge? then Deleted else Visible
  }

  /**
   What a turn does that was handed a delivery: used-up messages it came across are in the dead-letter
   queue (waiting is what the messages were then), the stores are where the handling takes them, and the
   message is where the end of the handling puts it.
   */
  ghost predicate IsTurn(before: State, waiting: map<JobId, Envelope>, after: State, r: Q.Received, start: Pc,
                         world: World, builder: Builder)
    requires KeepsKey(builder)
  {
    && 1 <= r.receives <= MAX_QUEUE_ATTEMPTS
    && r.job in waiting && waiting[r.job] == Envelope(r.url, r.receives - 1, Visible)
    && Q.Redriven(before.messages, waiting)
    && var (st, pc) := Drive(before.stores, r.job, r.receives, start, world, builder);
       && after.stores == st
       && after.messages == waiting[r.job := Envelope(r.url, r.receives, Settlement(pc))]
  }

  lemma TurnRun(before: State, waiting: map<JobId, Envelope>, after: State, r: Q.Received, start: Pc,
                world: World, builder: Builder) returns (run: seq<Label>)
    requires KeepsKey(builder) && IsTurn(before, waiting, after, r, start, world, builder)
    requires start == Start(ParseRepositoryUrl(r.url))
    requires before.workers == map[0 := Idle] && after == before.(stores := after.stores, messages := after.messages)
    ensures IsRun(before, run) && After(before, run) == after
  {
    var mid := before.(messages := waiting);
    var redrives := RedrivesAreRun(before, waiting);
    var rest := DeliveryRun(mid, r, start, world, builder);
    RunsJoin(before, redrives, rest);
    run := redrives + rest;
  }

  // ---------------------------------------------------------------- the loop

  /** What a worker does when the pipeline raised: mark the job on the last attempt, then release the message. */
  method HandleFailure(s: B.Backend, r: Q.Received, error: string)
    requires s.Valid()
    modifies s.Repr
    ensures s.Valid() && s.Repr == old(s.Repr)
    ensures s.Contents() == if r.receives >= MAX_QUEUE_ATTEMPTS
                            then SetSnapshot(UpdateJob(old(s.Contents()), r.job, FailedPatch(error)),
                                             r.job, FailedSnapshot(error))
                            else old(s.Contents())
  {
    if r.receives >= MAX_QUEUE_ATTEMPTS {
      s.UpdateJobStatus(r.job, FailedPatch(error));
      s.SetState(r.job, FailedSnapshot(error));
    }
  }

  /** After an exception: mark the job if this was the last attempt, and let the message be received again. */
  method Fail(s: B.Backend, queue: Q.MessageQueue, r: Q.Received, error: string, ghost world: World,
              ghost builder: Builder)
    requires s.Valid() && queue !in s.Repr && KeepsKey(builder)
    requires r.job in queue.messages && queue.messages[r.job] == Envelope(r.url, r.receives, InFlight)
    modifies s.Repr, queue
    ensures s.Valid() && s.Repr == old(s.Repr)
    ensures Drive(old(s.Contents()), r.job, r.receives, Handle(error), world, builder) == (s.Contents(), Release)
    ensures queue.messages == old(queue.messages)[r.job := Envelope(r.url, r.receives, Visible)]
  {
    DriveHandle(s.Contents(), r.job, r.receives, error, world, builder);
    HandleFailure(s, r, error);
    queue.ChangeVisibilityToNow(r, true);
  }

  /** One delivery: the stores and the message end up where the steps of the handling take them. */
  method HandleReceived(s: B.Backend, queue: Q.MessageQueue, r: Q.Received, start: Pc, world: World,
                        ghost builder: Builder)
    requires s.Valid() && queue !in s.Repr
    requires builder == ServicePrompt && KeepsKey(builder)
    requires r.job in queue.messages && queue.messages[r.job] == Envelope(r.url, r.receives, InFlight)
    requires start == Start(ParseRepositoryUrl(r.url))
    modifies s.Repr, queue
    ensures s.Valid() && fresh(s.Repr - old(s.Repr)) && queue !in s.Repr
    ensures var (st, pc) := Drive(old(s.Contents()), r.job, r.receives, start, world, builder);
            && s.Contents() == st
            && queue.messages == old(queue.messages)[r.job := Envelope(r.url, r.receives, Settlement(pc))]
  {
    var raised := P.ExecuteResearchPipeline(s, r.job, r.url, world, r.receives, builder);
    if raised.Some? {
      Fail(s, queue, r, raised.value, world, builder);
    } else {
      queue.Delete(r, true);
    }
  }

  /** Handing a message over and handling it is a turn. */
  lemma HandledIsTurn(before: State, current: map<JobId, Envelope>, after: State, r: Q.Received, start: Pc,
                      world: World, builder: Builder)
    requires KeepsKey(builder) && Q.HandedOut(before.messages, current, r)
    requires var (st, pc) := Drive(before.stores, r.job, r.receives, start, world, builder);
             && after.stores == st
             && after.messages == current[r.job := Envelope(r.url, r.receives, Settlement(pc))]
    ensures IsTurn(before, current[r.job := Envelope(r.url, r.receives - 1, Visible)], after, r, start, world, builder)
  {
    var pc := Drive(before.stores, r.job, r.receives, start, world, builder).1;
    LastWriteWins(current, r.job, Envelope(r.url, r.receives - 1, Visible),
                  Envelope(r.url, r.receives, Settlement(pc)));
  }

  /** One turn of the loop: receive, and handle what was received. */
  method HandleNext(s: B.Backend, queue: Q.MessageQueue, world: World, ghost before: State, ghost builder: Builder)
    returns (received: Option<Q.Received>, ghost waiting: map<JobId, Envelope>)
    requires s.Valid() && queue !in s.Repr
    requires builder == ServicePrompt && KeepsKey(builder)
    requires before.stores == s.Contents() && before.messages == queue.messages
    modifies s.Repr, queue
    ensures s.Valid() && fresh(s.Repr - old(s.Repr)) && queue !in s.Repr
    ensures received.None? ==>
              && s.Contents() == before.stores && Q.Redriven(before.messages, queue.messages)
              && forall job :: job in queue.messages ==> !queue.messages[job].place.Visible?
    ensures received.Some? ==>
              IsTurn(before, waiting, before.(stores := s.Contents(), messages := queue.messages), received.value,
                     Start(ParseRepositoryUrl(received.value.url)), world, builder)
  {
    received := queue.Receive();
    if received.Some? {
      var r, start := received.value, Start(ParseRepositoryUrl(received.value.url));
      ghost var current := queue.messages;
      waiting := current[r.job := Envelope(r.url, r.receives - 1, Visible)];
      HandleReceived(s, queue, r, start, world, builder);
      ghost var after := before.(stores := s.Contents(), messages := queue.messages);
      HandledIsTurn(before, current, after, r, start, world, builder);
    } else {
      waiting := queue.messages;
    }
  }

  /** A turn carries a run on, whether or not a delivery was handed out in it. */
  lemma TurnJoins(init: State, run: seq<Label>, received: Option<Q.Received>, waiting: map<JobId, Envelope>,
                  after: State, world: World)
    returns (longer: seq<Label>)
    requires KeepsKey(ServicePrompt)
    requires IsRun(init, run) && After(init, run).workers == map[0 := Idle]
    requires after == After(init, run).(stores := after.stores, messages := after.messages)
    requires received.None? ==>
               after.stores == After(init, run).stores && Q.Redriven(After(init, run).messages, after.messages)
    requires received.Some? ==>
               IsTurn(After(init, run), waiting, after, received.value, Start(ParseRepositoryUrl(received.value.url)),
                      world, ServicePrompt)
    ensures IsRun(init, longer) && After(init, longer) == after
  {
    var before := After(init, run);
    var turn;
    if received.None? {
      turn := RedrivesAreRun(before, after.messages);
    } else {
      var start := Start(ParseRepositoryUrl(received.value.url));
      turn := TurnRun(before, waiting, after, received.value, start, world, ServicePrompt);
    }
    RunsJoin(init, run, turn);
    longer := run + turn;
  }

  /** Any number of turns, with whatever GitHub and the model say in each, is a run of the service. */
  method RunWorker(s: B.Backend, queue: Q.MessageQueue, worlds: seq<World>, ghost submissions: map<JobId, SubmitPc>)
    returns (ghost run: seq<Label>)
    requires s.Valid() && queue !in s.Repr
    modifies s.Repr, queue
    ensures s.Valid() && fresh(s.Repr - old(s.Repr)) && queue !in s.Repr
    ensures IsRun(Now(old(s.Contents()), old(queue.messages), submissions), run)
    ensures After(Now(old(s.Contents()), old(queue.messages), submissions), run)
         == Now(s.Contents(), queue.messages, submissions)
  {
    ghost var init := Now(s.Contents(), queue.messages, submissions);
    P.ServicePromptKeepsKey();
    run := [];
    for i := 0 to |worlds|
      invariant s.Valid() && fresh(s.Repr - old(s.Repr)) && queue !in s.Repr
      invariant IsRun(init, run) && After(init, run) == Now(s.Contents(), queue.messages, submissions)
    {
      ghost var before := Now(s.Contents(), queue.messages, submissions);
      var received;
      ghost var waiting;
      received, waiting := HandleNext(s, queue, worlds[i], before, ServicePrompt);
      run := TurnJoins(init, run, received, waiting, Now(s.Contents(), queue.messages, submissions), worlds[i]);
    }
  }
}
