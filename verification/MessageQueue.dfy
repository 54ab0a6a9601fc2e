/**
 The queue adapter over the queue it drives: sending, receiving, deleting and changing visibility,
 under the redrive policy that moves a message to the dead-letter queue once its attempts are used up.
 */
module MessageQueue {
  import opened Prelude
  import opened Schema
  import opened PipelineSteps
  import opened System

  /** A delivery: the receipt names the message and the receive count it was handed out with. */
  datatype Received = Received(job: JobId, url: string, receives: nat)

  /** The messages that a receive request finds used up go to the dead-letter queue. */
  ghost predicate Redriven(before: map<JobId, Envelope>, after: map<JobId, Envelope>) {
    && after.Keys == before.Keys
    && forall job {:trigger after[job]} :: job in before ==>
         || after[job] == before[job]
         || (before[job].place.Visible? && before[job].receives >= MAX_QUEUE_ATTEMPTS
             && after[job] == before[job].(place := DeadLetter))
  }

  /**
   A message was handed out: it is in flight with its receive counted. What the messages were just before
   differs from what they were at first only by used-up messages moved away.
   */
  ghost predicate HandedOut(before: map<JobId, Envelope>, after: map<JobId, Envelope>, r: Received) {
    && 1 <= r.receives <= MAX_QUEUE_ATTEMPTS
    && r.job in after && after[r.job] == Envelope(r.url, r.receives, InFlight)
    && Redriven(before, after[r.job := Envelope(r.url, r.receives - 1, Visible)])
  }

  predicate Current(messages: map<JobId, Envelope>, r: Received) {
    r.job in messages && messages[r.job].place.InFlight? && messages[r.job].receives == r.receives
  }

  function Moved(messages: map<JobId, Envelope>, job: JobId, place: Place): map<JobId, Envelope> {
    if job in messages && (messages[job].place.Visible? || messages[job].place.InFlight?)
    then messages[job := messages[job].(place := place)]
    else messages
  }

  class MessageQueue {
    var messages: map<JobId, Envelope>

    constructor ()
      ensures messages == map[]
    {
      messages := map[];
    }

    method Send(job: JobId, url: string)
      modifies this
      ensures messages == old(messages)[job := Envelope(url, 0, Visible)]
    {
      messages := messages[job := Envelope(url, 0, Visible)];
    }

    /**
     Hands out one visible message with attempts left, if there is one, and counts the receive. Any
     visible message the request comes across without attempts left is moved away.
     */
    method Receive() returns (received: Option<Received>)
      modifies this
      ensures received.None? ==> Redriven(old(messages), messages)
      ensures received.None? ==> forall job :: job in messages ==> !messages[job].place.Visible?
      ensures received.Some? ==> HandedOut(old(messages), messages, received.value)
    {
      var left := set job | job in messages && messages[job].place.Visible?;
      while left != {}
        invariant Redriven(old(messages), messages)
        invariant forall job :: job in messages && messages[job].place.Visible? <==> job in left
        decreases |left|
      {
        var job :| job in left;
        var m := messages[job];
        if m.receives < MAX_QUEUE_ATTEMPTS {
          ghost var waiting := messages;
          messages := messages[job := m.(receives := m.receives + 1, place := InFlight)];
          assert messages[job := m] == waiting;
          return Some(Received(job, m.url, m.receives + 1));
        }
        messages := messages[job := m.(place := DeadLetter)];
        left := left - {job};
      }
      return None;
    }

    /**
     With the current receipt, the one of the last hand-over of a message in flight, the message is deleted.
     With an outdated one the queue may do nothing. A message that is settled stays so.
     */
    method Delete(r: Received, honoured: bool)
      requires Current(messages, r) ==> honoured
      modifies this
      ensures messages == if honoured then Moved(old(messages), r.job, Deleted) else old(messages)
      ensures forall job :: job in messages <==> job in old(messages)
      ensures forall job :: job in messages && job != r.job ==> messages[job] == old(messages)[job]
      ensures r.job in messages ==>
                var m := old(messages)[r.job];
                && (messages[r.job] == m || messages[r.job] == m.(place := Deleted))
                && (m.place.InFlight? && m.receives == r.receives ==> messages[r.job].place == Deleted)
                && (m.place.DeadLetter? ==> messages[r.job] == m)
    {
      if honoured {
        messages := Moved(messages, r.job, Deleted);
      }
    }

    method ChangeVisibilityToNow(r: Received, honoured: bool)
      requires Current(messages, r) ==> honoured
      modifies this
      ensures messages == if honoured then Moved(old(messages), r.job, Visible) else old(messages)
      ensures forall job :: job in messages <==> job in old(messages)
      ensures forall job :: job in messages && job != r.job ==> messages[job] == old(messages)[job]
      ensures r.job in messages ==>
                var m := old(messages)[r.job];
                && (messages[r.job] == m || messages[r.job] == m.(place := Visible))
                && (m.place.InFlight? && m.receives == r.receives ==> messages[r.job].place == Visible)
                && (m.place.Deleted? || m.place.DeadLetter? ==> messages[r.job] == m)
    {
      if honoured {
        messages := Moved(messages, r.job, Visible);
      }
    }
  }
}
