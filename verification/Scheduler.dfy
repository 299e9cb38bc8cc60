// app/workers/scheduler.py: the three passes, each one transaction over a query result in arbitrary order.
module Scheduler {
  import opened Wrappers
  import opened MessageStates
  import opened Messages
  import opened RetryPolicies
  import opened Channels
  import opened Storage
  import opened Operations
  import opened Sweeps
  import opened Processor

  class MessageScheduler {
    const session: Session
    const channels: ChannelRegistry
    const retries: RetryPolicy

    constructor (session: Session, channels: ChannelRegistry, retries: RetryPolicy)
      ensures this.session == session && this.channels == channels && this.retries == retries
    {
      this.session, this.channels, this.retries := session, channels, retries;
    }

    method CheckDeadlinesOnce(now: Time) returns (committed: bool)
      requires session.Valid() && session.working == session.durable
      modifies session
      ensures session.Valid() && session.working == session.durable
      ensures committed ==>
        Committed(retries, DeadlinePass(now, session.stamp), old(session.durable), channels.sends, session.durable,
                  channels.sends)
      ensures !committed ==> session.durable == old(session.durable) && session.budget == 0
    {
      var processor := new MessageProcessor(session, channels, retries);
      var s := processor.CheckDeadlines(now);
      if s.Ok? {
        s := session.Commit();
      }
      if s.Raised? {
        session.Rollback();
      }
      return s.Ok?;
    }

    ghost predicate Runs(processor: MessageProcessor) {
      processor.session == session && processor.channels == channels && processor.retries == retries
    }

    // One iteration of the loop of _attempt_fallbacks_once.
    method SweepMessage(processor: MessageProcessor, message: MessageRecord, clock: string -> Time,
                        jitter: string -> Unit, ghost env: Env, ghost db: Db, ghost sends: multiset<string>,
                        ghost handled: set<string>)
      returns (s: Status)
      requires processor.Valid() && Runs(processor)
      requires env == channels.Observed(clock, jitter, session.stamp)
      requires Midway(retries, FallbackPass(env), db, sends, handled, session.working, channels.sends)
      requires message.id in db ==> message.policy == db[message.id].row.policy
      modifies session, channels
      ensures session.Valid() && session.Ongoing()
      ensures s.Ok? ==>
        && (message.id in db ==> EffectOn(retries, FallbackPass(env), message.id, db[message.id]).Done?)
        && Tables(session.working, channels.sends) ==
           SweepOne(retries, env, message.id, Tables(old(session.working), old(channels.sends)))
      ensures s.Raised? ==>
        && Aborted(retries, FallbackPass(env), db, sends, db, channels.sends)
        && (session.budget == 0 || SomeChannelThrows(retries, FallbackPass(env), db))
    {
      hide Lifecycle.Fallback, EffectOn, Midway;
      ghost var op, t, id := FallbackPass(env), Tables(session.working, channels.sends), message.id;
      SameIds(retries, op, db, sends, handled, t.db, t.sends);
      if id in db {
        MidwayEffect(retries, env, db, sends, handled, id, t);
        AttemptIsEffect(retries, env, id, t.db[id]);
      }
      s := Ok;
      if message.policy.fallbackChannels != [] {
        s := processor.AttemptFallback(
          message.id, message.policy.fallbackChannels[0], clock(message.id), jitter(message.id), env);
      }
      if s.Raised? {
        if id in db && id !in handled {
          MidwayAborted(retries, op, db, sends, handled, t.db, t.sends, id, channels.sends);
        } else {
          MidwayCutShort(retries, op, db, sends, handled, t.db, t.sends);
        }
      }
    }

    // The whole loop, over any list of records whose policies are those of their lines: the same
    // message may be listed twice, have been deleted, or have left ESCALATION_PENDING meanwhile.
    method SweepFallbacks(processor: MessageProcessor, messages: seq<MessageRecord>, clock: string -> Time,
                          jitter: string -> Unit)
      returns (s: Status)
      requires processor.Valid() && Runs(processor)
      requires forall m :: m in messages && m.id in session.working ==> m.policy == session.working[m.id].row.policy
      modifies session, channels
      ensures session.Valid() && session.Ongoing()
      ensures var env := channels.Observed(clock, jitter, session.stamp);
              var db, sends, ids := old(session.working), old(channels.sends), IdSeq(messages);
              match s
              case Ok =>
                && AllAnswered(retries, env, ids, db)
                && Tables(session.working, channels.sends) == Sweep(retries, env, ids, Tables(db, sends))
              case Raised(_) =>
                && Aborted(retries, FallbackPass(env), db, sends, db, channels.sends)
                && (session.budget == 0 || SomeChannelThrows(retries, FallbackPass(env), db))
    {
      hide Midway, Aborted, EffectOn, SweepOne, Sweep, AllAnswered, SomeChannelThrows, Members;
      NothingSwept(retries, channels.Observed(clock, jitter, session.stamp), session.working, channels.sends);
      ghost var env := channels.Observed(clock, jitter, session.stamp);
      ghost var db, sends, ids := session.working, channels.sends, IdSeq(messages);
      for i := 0 to |messages|
        invariant processor.Valid() && session.Ongoing()
        invariant AllAnswered(retries, env, ids[..i], db)
        invariant Tables(session.working, channels.sends) == Sweep(retries, env, ids[..i], Tables(db, sends))
      {
        var message := messages[i];
        ghost var t := Tables(session.working, channels.sends);
        SweepIsPointwise(retries, env, ids[..i], db, sends);
        s := SweepMessage(processor, message, clock, jitter, env, db, sends, Members(ids[..i]));
        if s.Raised? {
          return;
        }
        SweptOneMore(retries, env, ids, i, Tables(db, sends), t);
      }
      assert ids[..|messages|] == ids;
      return Ok;
    }

    // How the statements of a pass end: all of its effect, or an exception with a cause.
    ghost predicate RanPass(s: Status, op: Op, db: Db, sends: multiset<string>)
      reads session, channels
    {
      match s
      case Ok => Committed(retries, op, db, sends, session.working, channels.sends)
      case Raised(_) =>
        && Aborted(retries, op, db, sends, db, channels.sends)
        && (session.budget == 0 || SomeChannelThrows(retries, op, db))
    }

    // The query and that loop.
    method AttemptFallbacks(processor: MessageProcessor, clock: string -> Time, jitter: string -> Unit)
      returns (s: Status)
      requires processor.Valid() && Runs(processor)
      modifies session, channels
      ensures session.Valid() && session.Ongoing()
      ensures var op := FallbackPass(channels.Observed(clock, jitter, session.stamp));
              RanPass(s, op, old(session.working), old(channels.sends))
    {
      hide Midway, Committed, Aborted, Lifecycle.Fallback, Sweep, Consistent;
      ghost var env := channels.Observed(clock, jitter, session.stamp);
      ghost var op, db, sends := FallbackPass(env), session.working, channels.sends;
      AbortedAtStart(retries, op, db, sends);
      var pending :- processor.repository.ListByState(EscalationPending);
      s := SweepFallbacks(processor, pending, clock, jitter);
      if s.Ok? {
        MembersOfIds(pending);
        SweepIsPointwise(retries, env, IdSeq(pending), db, sends);
        MidwayAtEnd(retries, op, db, sends, Ids(pending), session.working, channels.sends);
      }
    }

    // How the transaction of a pass ends for the tables.
    ghost predicate Outcome(committed: bool, op: Op, db: Db, sends: multiset<string>)
      reads session, channels
    {
      if committed then Committed(retries, op, db, sends, session.durable, channels.sends)
      else
        && Aborted(retries, op, db, sends, session.durable, channels.sends)
        && (session.budget == 0 || SomeChannelThrows(retries, op, db))
    }

    method AttemptFallbacksOnce(clock: string -> Time, jitter: string -> Unit) returns (committed: bool)
      requires session.Valid() && session.working == session.durable
      modifies session, channels
      ensures session.Valid() && session.working == session.durable
      ensures var op := FallbackPass(channels.Observed(clock, jitter, session.stamp));
              Outcome(committed, op, old(session.durable), old(channels.sends))
    {
      var processor := new MessageProcessor(session, channels, retries);
      var s := AttemptFallbacks(processor, clock, jitter);
      if s.Ok? {
        s := session.Commit();
      }
      if s.Raised? {
        session.Rollback();
      }
      return s.Ok?;
    }

    // One iteration of the loop of _attempt_retries_once.
    method RetryOne(processor: MessageProcessor, message: MessageRecord, now: Time, clock: string -> Time,
                    ghost env: Env, ghost db: Db, ghost sends: multiset<string>, ghost handled: set<string>)
      returns (s: Status)
      requires processor.Valid() && Runs(processor) && processor.Sees(env) && env.clock == clock
      requires Midway(retries, RetryPass(now, env), db, sends, handled, session.working, channels.sends)
      requires message.id in db && message.id !in handled && message.AsRow() == db[message.id].row
      requires DueForRetry(db[message.id].row, now)
      modifies session, channels, message
      ensures session.Valid() && session.Ongoing()
      ensures s.Ok? ==>
        Midway(retries, RetryPass(now, env), db, sends, handled + {message.id}, session.working, channels.sends)
      ensures s.Raised? ==> Aborted(retries, RetryPass(now, env), db, sends, db, channels.sends)
      ensures s.Raised? ==> session.budget == 0 || SomeChannelThrows(retries, RetryPass(now, env), db)
    {
      hide Lifecycle.Deliver, Lifecycle.Escalate;
      OwnKeyIsFree(session.working, message.id);
      ghost var op, before, called := RetryPass(now, env), session.working, channels.sends;
      if message.state == Queued {
        s := processor.AttemptDelivery(message.id, clock(message.id), env);
      } else if message.state == EscalationDeferred {
        s := processor.EscalateMessage(message, now);
      } else {
        s := Ok;
      }
      if s.Raised? {
        MidwayAborted(retries, op, db, sends, handled, before, called, message.id, channels.sends);
        return;
      }
      MidwayStep(retries, op, db, sends, handled, before, called, message.id, session.working, channels.sends);
    }

    // The query and that loop.
    method AttemptRetries(processor: MessageProcessor, now: Time, clock: string -> Time, ghost jitter: string -> Unit)
      returns (s: Status)
      requires processor.Valid() && Runs(processor)
      modifies session, channels
      ensures session.Valid() && session.Ongoing()
      ensures var op := RetryPass(now, channels.Observed(clock, jitter, session.stamp));
              RanPass(s, op, old(session.working), old(channels.sends))
    {
      hide Midway, Committed, Aborted, Lifecycle.Deliver, Lifecycle.Escalate, SomeChannelThrows, Consistent;
      ghost var env := channels.Observed(clock, jitter, session.stamp);
      ghost var op, db, sends := RetryPass(now, env), session.working, channels.sends;
      AbortedAtStart(retries, op, db, sends);
      var due :- processor.repository.ListDueForRetry(now);
      MidwayAtStart(retries, op, db, sends);
      assert Ids(due[..0]) == {};
      for i := 0 to |due|
        invariant processor.Valid() && session.Ongoing()
        invariant Midway(retries, op, db, sends, Ids(due[..i]), session.working, channels.sends)
        invariant forall j :: 0 <= j < |due| ==> fresh(due[j])
        invariant forall j :: i <= j < |due| ==> due[j].AsRow() == db[due[j].id].row && due[j].id !in Ids(due[..i])
      {
        IdsSplit(due, i);
        assert due[i].id in Ids(due);
        s := RetryOne(processor, due[i], now, clock, env, db, sends, Ids(due[..i]));
        if s.Raised? {
          return;
        }
      }
      assert due[..|due|] == due;
      MidwayAtEnd(retries, op, db, sends, Ids(due), session.working, channels.sends);
      return Ok;
    }

    method AttemptRetriesOnce(now: Time, clock: string -> Time, jitter: string -> Unit) returns (committed: bool)
      requires session.Valid() && session.working == session.durable
      modifies session, channels
      ensures session.Valid() && session.working == session.durable
      ensures var op := RetryPass(now, channels.Observed(clock, jitter, session.stamp));
              Outcome(committed, op, old(session.durable), old(channels.sends))
    {
      var processor := new MessageProcessor(session, channels, retries);
      var s := AttemptRetries(processor, now, clock, jitter);
      if s.Ok? {
        s := session.Commit();
      }
      if s.Raised? {
        session.Rollback();
      }
      return s.Ok?;
    }
  }
}
