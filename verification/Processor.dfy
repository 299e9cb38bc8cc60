// app/workers/processor.py: the message processor, branch by branch.
module Processor {
  import opened Wrappers
  import opened MessageStates
  import opened Messages
  import opened StateMachine
  import opened RetryPolicies
  import opened Channels
  import opened Events
  import opened Storage
  import opened Lifecycle
  import opened Operations

  // A statement sequence on message `id` either ran to its end, with exactly the given effect
  // on the tables and on the world, or was cut short after at most the call of that effect.
  ghost predicate Ran(s: Status, id: string, eff: Effect, db: Db, sends: multiset<string>,
                      db': Db, sends': multiset<string>)
    requires id in db
  {
    match s
    case Ok => eff.Done? && db' == db[id := eff.entry] && sends' == sends + Calls(id, eff)
    case Raised(_) => sends' == sends || sends' == sends + Calls(id, eff)
  }

  // The line of a record is there, and writing the record back breaks no constraint.
  ghost predicate Writable(db: Db, message: MessageRecord) {
    message.id in db && !KeyTaken(db, message.key, message.id)
  }

  // The record in hand agrees with its line, but for the time stamp the database may have set.
  ghost predicate InHand(db: Db, message: MessageRecord)
    reads message
  {
    && message.id in db
    && message.AsRow() == db[message.id].row.(updatedAt := message.updatedAt)
  }

  class MessageProcessor {
    const session: Session
    const channels: ChannelRegistry
    const repository: MessageRepository
    const events: EventRecorder
    const retries: RetryPolicy

    ghost predicate Valid()
      reads session
    {
      repository.session == session && events.session == session && session.Valid()
    }

    constructor (session: Session, channels: ChannelRegistry, retries: RetryPolicy)
      requires session.Valid()
      ensures Valid() && this.session == session && this.channels == channels && this.retries == retries
    {
      this.session, this.channels, this.retries := session, channels, retries;
      repository := new MessageRepository(session);
      events := new EventRecorder(session);
    }

    // The two statements that end every state change: write the record back, then audit it.
    method Save(message: MessageRecord, event: Event) returns (s: Status)
      requires Valid()
      modifies session
      ensures Valid() && session.Ongoing()
      ensures s.Ok? ==>
        && message.id in old(session.working)
        && session.working ==
           old(session.working)
             [message.id := Saved(old(session.working)[message.id], message.AsRow(), event, session.stamp)]
      ensures s.Raised? ==> session.budget == 0 || !Writable(old(session.working), message)
    {
      s := repository.Update(message);
      if s.Raised? {
        return;
      }
      s := events.Record(message.id, event);
    }

    method ProcessNewMessage(id: string, now: Time) returns (s: Status)
      requires Valid()
      modifies session
      ensures Valid() && session.Ongoing()
      ensures s.Ok? && id !in old(session.working) ==> session.working == old(session.working)
      ensures s.Ok? && id in old(session.working) ==>
        session.working == old(session.working)[id := Enqueue(old(session.working)[id], now, session.stamp)]
      ensures s.Raised? ==> session.budget == 0
    {
      var message :- repository.GetById(id);
      if message == null {
        return Ok;
      }
      var moved := ApplyTransition(message, Queued, Some(now), now);
      if !moved {
        return Ok;
      }
      OwnKeyIsFree(session.working, id);
      s := Save(message, QueuedEvent);
    }

    // The environment a method is specified with is the one it runs in.
    ghost predicate Sees(env: Env)
      reads session
    {
      env.registered == channels.registered && env.answer == channels.answer && env.stamp == session.stamp
    }

    method MarkDeadLetter(message: MessageRecord, reason: string, now: Time) returns (s: Status)
      requires Valid()
      modifies session, message
      ensures Valid() && session.Ongoing()
      ensures s.Ok? ==>
        session.working ==
        if message.id !in old(session.working) then old(session.working)
        else old(session.working)
          [message.id := Lifecycle.MarkDeadLetter(old(session.working)[message.id], old(message.AsRow()), reason, now,
                                                  session.stamp)]
      ensures s.Raised? ==> session.budget == 0 || !Writable(old(session.working), message)
    {
      hide Written;
      var moved := ApplyTransition(message, DeadLetter, Some(now), now);
      if !moved {
        return Ok;
      }
      message.lastError := Some(reason);
      s := Save(message, DeadLetterEvent(reason));
    }

    // The record may be any record: `update` raises when its line is gone or its key clashes.
    method EscalateMessage(message: MessageRecord, now: Time) returns (s: Status)
      requires Valid()
      modifies session, message
      ensures Valid() && session.Ongoing()
      ensures s.Ok? ==>
        session.working ==
        if message.id !in old(session.working) then old(session.working)
        else old(session.working)
          [message.id := Escalate(old(session.working)[message.id], old(message.AsRow()), now, session.stamp)]
      ensures s.Raised? ==> session.budget == 0 || !Writable(old(session.working), message)
    {
      hide Lifecycle.MarkDeadLetter, Written;
      if message.policy.fallbackChannels == [] {
        s := MarkDeadLetter(message, "no_fallback_channels", now);
        return;
      }
      var moved := ApplyTransition(message, EscalationPending, Some(now), now);
      if !moved {
        return Ok;
      }
      message.escalatedAt := Some(now);
      s := Save(message, EscalationTriggered("deadline_passed", message.policy.fallbackChannels));
    }

    method MarkFailed(message: MessageRecord, error: string, now: Time) returns (s: Status)
      requires Valid()
      modifies session, message
      ensures Valid() && session.Ongoing()
      ensures s.Ok? ==>
        session.working ==
        if message.id !in old(session.working) then old(session.working)
        else old(session.working)
          [message.id := Lifecycle.MarkFailed(old(session.working)[message.id], old(message.AsRow()), error, now,
                                              session.stamp)]
      ensures s.Raised? ==> session.budget == 0 || !Writable(old(session.working), message)
    {
      hide Written;
      var moved := ApplyTransition(message, Failed, Some(now), now);
      if !moved {
        return Ok;
      }
      message.lastError := Some(error);
      s := Save(message, SendFailed(None, Some(error)));
    }

    // The branch of attempt_delivery for a failed send with fallback channels left.
    method FailOver(message: MessageRecord, channelName: string, error: Option<string>, now: Time) returns (s: Status)
      requires Valid() && InHand(session.working, message)
      requires message.state == Sending && channelName == message.policy.primaryChannel
      modifies session, message
      ensures Valid() && session.Ongoing()
      ensures s.Ok? ==>
        var e, sent := old(session.working)[message.id], Advance(old(message.AsRow()).(sentAt := Some(now)),
                                                                 SentToChannel, now);
        session.working == old(session.working)
          [message.id := Escalate(Saved(e, sent, SendFailed(Some(channelName), error), session.stamp), sent, now,
                                  session.stamp)]
      ensures s.Raised? ==> session.budget == 0
    {
      hide Lifecycle.Escalate, Written;
      OwnKeyIsFree(session.working, message.id);
      message.sentAt := Some(now);
      var moved := ApplyTransition(message, SentToChannel, Some(now), now);
      if !moved {
        return Ok;
      }
      :- Save(message, SendFailed(Some(channelName), error));
      s := EscalateMessage(message, now);
    }

    // The branches of attempt_delivery after the channel has answered.
    method FinishDelivery(message: MessageRecord, channelName: string, result: SendResult, now: Time)
      returns (s: Status)
      requires Valid() && InHand(session.working, message)
      requires message.state == Sending && channelName == message.policy.primaryChannel
      modifies session, message
      ensures Valid() && session.Ongoing()
      ensures s.Ok? ==>
        session.working == old(session.working)
          [message.id := Delivered(old(session.working)[message.id], old(message.AsRow()), result, now, session.stamp)]
      ensures s.Raised? ==> session.budget == 0
    {
      hide Lifecycle.MarkFailed, Lifecycle.Escalate, Written;
      OwnKeyIsFree(session.working, message.id);
      if result.success {
        message.sentAt := Some(now);
        message.externalMessageId := result.externalMessageId;
        var moved := ApplyTransition(message, SentToChannel, Some(now), now);
        if !moved {
          return Ok;
        }
        s := Save(message, SendSuccess(channelName, result.externalMessageId));
        return;
      }
      if message.policy.fallbackChannels != [] {
        s := FailOver(message, channelName, result.error, now);
      } else {
        s := MarkFailed(message, ErrorOr(result.error, "unknown error"), now);
      }
    }

    // attempt_delivery from the channel lookup on.
    method SendThroughPrimary(message: MessageRecord, channelName: string, now: Time, ghost env: Env)
      returns (s: Status)
      requires Valid() && Sees(env) && InHand(session.working, message)
      requires message.state == Sending && channelName == message.policy.primaryChannel
      modifies session, channels, message
      ensures Valid() && session.Ongoing()
      ensures Ran(s, message.id, SendPrimary(old(session.working)[message.id], old(message.AsRow()), now, env),
                  old(session.working), old(channels.sends), session.working, channels.sends)
      ensures s.Raised? ==>
        session.budget == 0 || SendPrimary(old(session.working)[message.id], old(message.AsRow()), now, env).Aborts?
    {
      hide Delivered, Lifecycle.MarkFailed, KeyTaken, Consistent;
      OwnKeyIsFree(session.working, message.id);
      if channelName !in channels.registered {
        s := MarkFailed(message, "Channel '" + channelName + "' not available", now);
        return;
      }
      var result :- channels.Send(
        Call(channelName, message.recipient, message.content, message.id, message.policy.priority, false));
      :- events.Record(message.id, SendAttempt(channelName, result));
      s := FinishDelivery(message, channelName, result, now);
    }

    method AttemptDelivery(id: string, now: Time, ghost env: Env) returns (s: Status)
      requires Valid() && Sees(env)
      modifies session, channels
      ensures Valid() && session.Ongoing()
      ensures id !in old(session.working) ==>
        channels.sends == old(channels.sends) && (s.Ok? ==> session.working == old(session.working))
      ensures id in old(session.working) ==>
        Ran(s, id, Deliver(old(session.working)[id], now, env), old(session.working), old(channels.sends),
            session.working, channels.sends)
      ensures s.Raised? ==>
        session.budget == 0 || (id in old(session.working) && Deliver(old(session.working)[id], now, env).Aborts?)
    {
      hide SendPrimary, KeyTaken, Consistent;
      var message :- repository.GetById(id);
      if message == null {
        return Ok;
      }
      var channelName := message.policy.primaryChannel;
      var moved := ApplyTransition(message, Sending, Some(now), now);
      if !moved {
        return Ok;
      }
      OwnKeyIsFree(session.working, id);
      :- Save(message, SendingEvent(channelName));
      s := SendThroughPrimary(message, channelName, now, env);
    }

    // One iteration of the loop of check_deadlines.
    method EscalateOne(message: MessageRecord, now: Time, ghost db: Db, ghost sends: multiset<string>,
                       ghost handled: set<string>)
      returns (s: Status)
      requires Valid()
      requires Midway(retries, DeadlinePass(now, session.stamp), db, sends, handled, session.working, sends)
      requires message.id in db && message.id !in handled && message.AsRow() == db[message.id].row
      requires DueForEscalation(db[message.id].row, now)
      modifies session, message
      ensures Valid() && session.Ongoing()
      ensures s.Ok? ==>
        Midway(retries, DeadlinePass(now, session.stamp), db, sends, handled + {message.id}, session.working, sends)
      ensures s.Raised? ==> session.budget == 0
    {
      hide Lifecycle.Escalate;
      ghost var op, before := DeadlinePass(now, session.stamp), session.working;
      assert session.working[message.id] == db[message.id];
      OwnKeyIsFree(session.working, message.id);
      s := EscalateMessage(message, now);
      if s.Ok? {
        MidwayStep(retries, op, db, sends, handled, before, sends, message.id, session.working, sends);
      }
    }

    method CheckDeadlines(now: Time) returns (s: Status)
      requires Valid()
      modifies session
      ensures Valid() && session.Ongoing()
      ensures s.Ok? ==>
        Committed(retries, DeadlinePass(now, session.stamp), old(session.working), channels.sends, session.working,
                  channels.sends)
      ensures s.Raised? ==> session.budget == 0
    {
      hide Midway, Committed, Lifecycle.Escalate, Consistent;
      ghost var op, db, sends := DeadlinePass(now, session.stamp), session.working, channels.sends;
      var due :- repository.ListDueForEscalation(now);
      MidwayAtStart(retries, op, db, sends);
      assert Ids(due[..0]) == {};
      for i := 0 to |due|
        invariant Valid() && session.Ongoing()
        invariant Midway(retries, op, db, sends, Ids(due[..i]), session.working, sends)
        invariant forall j :: i <= j < |due| ==> due[j].AsRow() == db[due[j].id].row && due[j].id !in Ids(due[..i])
      {
        IdsSplit(due, i);
        assert due[i].id in Ids(due);
        s := EscalateOne(due[i], now, db, sends, Ids(due[..i]));
        if s.Raised? {
          return;
        }
      }
      assert due[..|due|] == due;
      MidwayAtEnd(retries, op, db, sends, Ids(due), session.working, sends);
      return Ok;
    }

    method AcknowledgeMessage(id: string, acknowledgedAt: Option<Time>, wall: Time) returns (s: Status)
      requires Valid()
      modifies session
      ensures Valid() && session.Ongoing()
      ensures s.Ok? && id !in old(session.working) ==> session.working == old(session.working)
      ensures s.Ok? && id in old(session.working) ==>
        var now := if acknowledgedAt.Some? then acknowledgedAt.value else wall;
        session.working == old(session.working)[id := Acknowledge(old(session.working)[id], now, session.stamp)]
      ensures s.Raised? ==> session.budget == 0
    {
      var message :- repository.GetById(id);
      if message == null {
        return Ok;
      }
      OwnKeyIsFree(session.working, id);
      var now := if acknowledgedAt.Some? then acknowledgedAt.value else wall;
      if message.state == SentToChannel {
        var moved := ApplyTransition(message, Acknowledged, Some(now), wall);
        if !moved {
          return Ok;
        }
        s := Save(message, AckReceived(now, None));
      } else {
        message.acknowledgedAt := Some(now);
        s := Save(message, AckReceived(now, Some(message.state)));
      }
    }

    method Defer(message: MessageRecord, channelName: string, at: Time, error: string, now: Time) returns (s: Status)
      requires Valid()
      modifies session, message
      ensures Valid() && session.Ongoing()
      ensures s.Ok? ==>
        session.working ==
        if message.id !in old(session.working) then old(session.working)
        else old(session.working)
          [message.id := Lifecycle.Defer(old(session.working)[message.id], old(message.AsRow()), channelName, at, error,
                                         now, session.stamp)]
      ensures s.Raised? ==> session.budget == 0 || !Writable(old(session.working), message)
    {
      hide Written;
      message.nextRetryAt := Some(at);
      var moved := ApplyTransition(message, EscalationDeferred, Some(now), now);
      if !moved {
        return Ok;
      }
      s := Save(message, EscalationDeferredEvent(channelName, message.retryCount, at, error));
    }

    // The failure branch of attempt_fallback.
    method DeferOrGiveUp(message: MessageRecord, channelName: string, error: string, now: Time, u: Unit)
      returns (s: Status)
      requires Valid() && InHand(session.working, message)
      requires message.state == FallbackSending
      modifies session, message
      ensures Valid() && session.Ongoing()
      ensures s.Ok? ==>
        session.working == old(session.working)
          [message.id := FallbackFailed(retries, old(session.working)[message.id], old(message.AsRow()), channelName,
                                        error, now, session.stamp, u)]
      ensures s.Raised? ==> session.budget == 0
    {
      hide RetryPolicy.Delay, Lifecycle.Defer, Lifecycle.MarkDeadLetter;
      OwnKeyIsFree(session.working, message.id);
      message.lastError := Some(error);
      message.retryCount := message.retryCount + 1;
      if !retries.ShouldRetry(message.retryCount) {
        s := MarkDeadLetter(message, error, now);
        return;
      }
      var at := retries.NextRetryAt(message.retryCount - 1, Some(now), now, u);
      s := Defer(message, channelName, at, error, now);
    }

    // The branches of attempt_fallback after the channel has answered.
    method FinishFallback(message: MessageRecord, channelName: string, result: SendResult, now: Time, u: Unit)
      returns (s: Status)
      requires Valid() && InHand(session.working, message)
      requires message.state == FallbackSending
      modifies session, message
      ensures Valid() && session.Ongoing()
      ensures s.Ok? ==>
        session.working == old(session.working)
          [message.id := FellBack(retries, old(session.working)[message.id], old(message.AsRow()), channelName, result,
                                  now, session.stamp, u)]
      ensures s.Raised? ==> session.budget == 0
    {
      hide FallbackFailed, Written;
      OwnKeyIsFree(session.working, message.id);
      if result.success {
        message.externalMessageId := result.externalMessageId;
        var moved := ApplyTransition(message, FallbackDelivered, Some(now), now);
        if !moved {
          return Ok;
        }
        s := Save(message, FallbackSuccess(channelName));
        return;
      }
      s := DeferOrGiveUp(message, channelName, "fallback send failed: " + ErrorOr(result.error, "unknown"), now, u);
    }

    // attempt_fallback from the channel lookup on.
    method SendThroughFallback(message: MessageRecord, channelName: string, now: Time, u: Unit, ghost env: Env)
      returns (s: Status)
      requires Valid() && Sees(env) && InHand(session.working, message)
      requires message.state == FallbackSending
      modifies session, channels, message
      ensures Valid() && session.Ongoing()
      ensures var eff := SendFallback(retries, old(session.working)[message.id], old(message.AsRow()), channelName, now,
                                      env, u);
              && Ran(s, message.id, eff, old(session.working), old(channels.sends), session.working, channels.sends)
              && (s.Raised? ==> session.budget == 0 || eff.Aborts?)
    {
      hide FellBack, Lifecycle.MarkDeadLetter, KeyTaken, Consistent;
      OwnKeyIsFree(session.working, message.id);
      if channelName !in channels.registered {
        s := MarkDeadLetter(message, "fallback channel '" + channelName + "' not available", now);
        return;
      }
      var result :- channels.Send(
        Call(channelName, message.recipient, message.content, message.id, message.policy.priority, true));
      :- events.Record(message.id, FallbackAttempt(channelName, Some(result)));
      s := FinishFallback(message, channelName, result, now, u);
    }

    method AttemptFallback(id: string, channelName: string, now: Time, u: Unit, ghost env: Env) returns (s: Status)
      requires Valid() && Sees(env)
      modifies session, channels
      ensures Valid() && session.Ongoing()
      ensures id !in old(session.working) ==>
        channels.sends == old(channels.sends) && (s.Ok? ==> session.working == old(session.working))
      ensures id in old(session.working) ==>
        Ran(s, id, Fallback(retries, old(session.working)[id], channelName, now, env, u), old(session.working),
            old(channels.sends), session.working, channels.sends)
      ensures s.Raised? ==>
        session.budget == 0
        || (id in old(session.working)
            && Fallback(retries, old(session.working)[id], channelName, now, env, u).Aborts?)
    {
      hide SendFallback, KeyTaken, Consistent;
      var message :- repository.GetById(id);
      if message == null {
        return Ok;
      }
      if message.state != EscalationPending {
        return Ok;
      }
      var moved := ApplyTransition(message, FallbackSending, Some(now), now);
      if !moved {
        return Ok;
      }
      OwnKeyIsFree(session.working, id);
      :- Save(message, FallbackAttempt(channelName, None));
      s := SendThroughFallback(message, channelName, now, u, env);
    }
  }
}
