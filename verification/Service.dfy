// app/services/message_service.py and the routes of app/api/routes/messages.py and admin.py:
// idempotent submission, and the points where a request commits.
module Service {
  import opened Wrappers
  import opened MessageStates
  import opened Messages
  import opened RetryPolicies
  import opened Channels
  import opened Storage
  import opened Lifecycle
  import opened Operations
  import opened Processor

  datatype Response = Accepted(row: Row) | NotFound | BadRequest | ServerError

  class MessageService {
    const session: Session
    const channels: ChannelRegistry
    const repository: MessageRepository
    const processor: MessageProcessor

    ghost predicate Valid()
      reads session
    {
      && repository.session == session && processor.session == session && processor.channels == channels
      && processor.Valid()
    }

    constructor (session: Session, channels: ChannelRegistry, retries: RetryPolicy)
      requires session.Valid()
      ensures Valid() && this.session == session && this.channels == channels && processor.retries == retries
    {
      this.session, this.channels := session, channels;
      repository := new MessageRepository(session);
      processor := new MessageProcessor(session, channels, retries);
    }

    // `newId` is the fresh uuid4, `now` the clock.
    method CreateMessage(req: Request, newId: string, now: Time) returns (r: Result<MessageRecord>)
      requires Valid()
      modifies session
      ensures Valid() && session.Ongoing()
      ensures r.Success? ==>
        && (HasKey(old(session.working), req.key)
            || (newId !in old(session.working) && !KeyTaken(old(session.working), req.key, newId)))
        && session.working == Submitted(req, newId, now, old(session.working))
        && Answers(old(session.working), req, newId, r.value.id)
        && r.value.id in session.working && r.value.AsRow() == session.working[r.value.id].row
        && r.value.key == req.key
      ensures r.Success? && (req.key.None? || req.key.value == "") ==>
        newId !in old(session.working) && r.value.id == newId
      ensures r.Success? && !HasKey(old(session.working), req.key) ==>
        && r.value.id == newId && r.value.sender == req.sender && r.value.recipient == req.recipient
        && r.value.content == req.content && r.value.policy == req.policy && r.value.createdAt == now
        && r.value.ackDeadlineAt == Some(now + req.policy.acknowledgementDeadlineSeconds as real)
        && r.value.state == Pending
      ensures r.Failure? ==>
        session.budget == 0 || newId in old(session.working) || req.key == Some("")
    {
      if req.key.Some? && req.key.value != "" {
        var found := repository.GetByIdempotencyKey(req.key.value);
        if found.Failure? {
          return Failure(found.fault);
        }
        if found.value != null {
          return Success(found.value);
        }
      }
      var row := Row(newId, req.sender, req.recipient, req.content, req.policy, req.key, now, Pending, now,
                     None, None, None, None, None, 0, None, None);
      var record := new MessageRecord(row);
      record.ArmDeadline(now);
      var s := repository.Create(record);
      if s.Raised? {
        return Failure(s.fault);
      }
      return Success(record);
    }

    method ProcessMessage(id: string, queuedAt: Time, sentAt: Time, ghost env: Env) returns (s: Status)
      requires Valid() && processor.Sees(env)
      requires env.clock(id) == sentAt
      modifies session, channels
      ensures Valid() && session.Ongoing()
      ensures s.Ok? ==> Committed(processor.retries, Process(id, queuedAt, env), old(session.working),
                                  old(channels.sends), session.working, channels.sends)
      ensures s.Raised? ==> Aborted(processor.retries, Process(id, queuedAt, env), old(session.working),
                                    old(channels.sends), old(session.working), channels.sends)
      ensures s.Raised? ==>
        session.budget == 0 || SomeChannelThrows(processor.retries, Process(id, queuedAt, env), old(session.working))
    {
      hide Lifecycle.Enqueue, Lifecycle.Deliver, Consistent, Midway, Committed, Aborted;
      ghost var p, op, db, sends := processor.retries, Process(id, queuedAt, env), session.working, channels.sends;
      MidwayAtStart(p, op, db, sends);
      s := processor.ProcessNewMessage(id, queuedAt);
      if s.Raised? {
        AbortedAtStart(p, op, db, sends);
        return;
      }
      s := processor.AttemptDelivery(id, sentAt, env);
      if id !in db {
        if s.Ok? {
          MidwayAtEnd(p, op, db, sends, {}, session.working, channels.sends);
        } else {
          AbortedAtStart(p, op, db, sends);
        }
      } else if s.Raised? {
        MidwayAborted(p, op, db, sends, {}, db, sends, id, channels.sends);
      } else {
        assert session.working == db[id := EffectOn(p, op, id, db[id]).entry];
        OnlyOne(p, op, db, sends, id, session.working, channels.sends);
      }
    }
  }

  // The request handlers. Each runs in a session of its own, so it starts with nothing
  // uncommitted, and closing the session drops what it has not committed.
  class Api {
    const session: Session
    const channels: ChannelRegistry
    const retries: RetryPolicy

    constructor (session: Session, channels: ChannelRegistry, retries: RetryPolicy)
      ensures this.session == session && this.channels == channels && this.retries == retries
    {
      this.session, this.channels, this.retries := session, channels, retries;
    }

    ghost predicate Idle()
      reads session
    {
      session.Valid() && session.working == session.durable
    }

    // A request is one transaction: all of it happened, or none of it but its calls.
    ghost predicate CommittedOrAborted(op: Op, db: Db, sends: multiset<string>)
      reads session, channels
    {
      || Committed(retries, op, db, sends, session.durable, channels.sends)
      || Aborted(retries, op, db, sends, session.durable, channels.sends)
    }

    lemma CreationCommits(req: Request, newId: string, now: Time, db: Db, sends: multiset<string>, db': Db)
      requires HasKey(db, req.key) || (newId !in db && !KeyTaken(db, req.key, newId))
      requires db' == Submitted(req, newId, now, db)
      ensures Committed(retries, Create(req, newId, now), db, sends, db', sends)
    {
    }

    method SubmitInTransaction(service: MessageService, req: Request, newId: string, now: Time)
      returns (r: Result<MessageRecord>)
      requires Idle() && service.Valid() && service.session == session
      modifies session
      ensures Idle() && service.Valid()
      ensures r.Success? ==>
        && Committed(retries, Create(req, newId, now), old(session.durable), channels.sends, session.durable,
                     channels.sends)
        && Answers(old(session.durable), req, newId, r.value.id)
        && r.value.id in session.durable && r.value.AsRow() == session.durable[r.value.id].row
        && r.value.key == req.key
      ensures r.Failure? ==>
        && session.durable == old(session.durable)
        && (session.budget == 0 || newId in old(session.durable) || req.key == Some(""))
    {
      hide Committed, Consistent, HasKey, KeyTaken, Submitted;
      r := service.CreateMessage(req, newId, now);
      if r.Failure? {
        session.Rollback();
        return;
      }
      CreationCommits(req, newId, now, session.durable, channels.sends, session.working);
      var s := session.Commit();
      if s.Raised? {
        session.Rollback();
        return Failure(s.fault);
      }
    }

    // The second transaction of the submission route. `later` is the database's now() in it.
    ghost function Processing(id: string, queuedAt: Time, sentAt: Time, later: Time): Op {
      Process(id, queuedAt, channels.Observed(_ => sentAt, _ => 0.0, later))
    }

    method ProcessInTransaction(service: MessageService, id: string, queuedAt: Time, sentAt: Time, ghost env: Env)
      returns (committed: bool)
      requires Idle() && service.Valid() && service.session == session && service.channels == channels
      requires service.processor.retries == retries
      requires service.processor.Sees(env) && env.clock(id) == sentAt
      modifies session, channels
      ensures Idle() && service.Valid()
      ensures var op := Process(id, queuedAt, env);
              if committed
              then Committed(retries, op, old(session.durable), old(channels.sends), session.durable, channels.sends)
              else
                && Aborted(retries, op, old(session.durable), old(channels.sends), session.durable, channels.sends)
                && session.durable == old(session.durable)
                && (session.budget == 0 || SomeChannelThrows(retries, op, old(session.durable)))
    {
      hide EffectOn, SomeChannelThrows;
      ghost var op := Process(id, queuedAt, env);
      var s := service.ProcessMessage(id, queuedAt, sentAt, env);
      if s.Ok? {
        CommittedOrLost(retries, op, old(session.durable), old(channels.sends), session.working, channels.sends);
        s := session.Commit();
      }
      if s.Raised? {
        session.Rollback();
      }
      return s.Ok?;
    }

    // POST /messages: two transactions. The second runs when the record of the first is PENDING.
    method PostMessage(req: Request, newId: string, now: Time, queuedAt: Time, sentAt: Time, later: Time)
      returns (r: Response, ghost mid: Db)
      requires Idle()
      modifies session, channels
      ensures Idle()
      ensures r.ServerError? || r.Accepted?
      ensures
        || Committed(retries, Create(req, newId, now), old(session.durable), old(channels.sends), mid,
            old(channels.sends))
        || (mid == old(session.durable) == session.durable && channels.sends == old(channels.sends) && r.ServerError?)
      ensures
        || (session.durable == mid && channels.sends == old(channels.sends))
        || exists id ::
          && Answers(old(session.durable), req, newId, id) && id in mid && mid[id].row.state == Pending
          && CommittedOrAborted(Processing(id, queuedAt, sentAt, later), mid, old(channels.sends))
      ensures r.Accepted? ==>
        && Answers(old(session.durable), req, newId, r.row.id)
        && r.row.id in mid && r.row == mid[r.row.id].row && r.row.key == req.key
      ensures r.Accepted? && r.row.state != Pending ==>
        session.durable == mid && channels.sends == old(channels.sends)
      ensures r.Accepted? && r.row.state == Pending ==>
        Committed(retries, Processing(r.row.id, queuedAt, sentAt, later), mid, old(channels.sends), session.durable,
                  channels.sends)
      ensures r.ServerError? ==>
        || session.budget == 0 || newId in old(session.durable) || req.key == Some("")
        || exists id ::
          && Answers(old(session.durable), req, newId, id)
          && SomeChannelThrows(retries, Processing(id, queuedAt, sentAt, later), mid)
    {
      hide Committed, Aborted, SomeChannelThrows, Consistent, HasKey;
      mid := session.durable;
      var service := new MessageService(session, channels, retries);
      var created := SubmitInTransaction(service, req, newId, now);
      if created.Failure? {
        return ServerError, mid;
      }
      mid := session.durable;
      session.Begin(later);
      var record := created.value;
      var answer := record.AsRow();
      if record.state == Pending {
        ghost var env := Processing(record.id, queuedAt, sentAt, later).env;
        var committed := ProcessInTransaction(service, record.id, queuedAt, sentAt, env);
        if !committed {
          return ServerError, mid;
        }
      }
      return Accepted(answer), mid;
    }

    // POST /messages/{id}/acknowledge.
    method PostAcknowledge(id: string, wall: Time) returns (r: Response)
      requires Idle()
      modifies session
      ensures Idle() && session.stamp == old(session.stamp)
      ensures CommittedOrAborted(Acknowledgement(id, wall, session.stamp), old(session.durable), channels.sends)
      ensures r.NotFound? ==> id !in session.durable && session.durable == old(session.durable)
      ensures r.Accepted? ==>
        && id in old(session.durable) && r.row == Acknowledge(old(session.durable)[id], wall, session.stamp).row
        && Committed(retries, Acknowledgement(id, wall, session.stamp), old(session.durable), channels.sends,
                     session.durable, channels.sends)
      ensures r.ServerError? ==> session.budget == 0
      ensures !r.BadRequest?
    {
      hide Consistent, Committed, Aborted;
      ghost var op, db, sends := Acknowledgement(id, wall, session.stamp), session.durable, channels.sends;
      AbortedAtStart(retries, op, db, sends);
      var processor := new MessageProcessor(session, channels, retries);
      var found := processor.repository.GetById(id);
      if found.Failure? {
        return ServerError;
      }
      if found.value == null {
        return NotFound;
      }
      var s := processor.AcknowledgeMessage(id, None, wall);
      if s.Ok? {
        s := session.Commit();
      }
      if s.Raised? {
        session.Rollback();
        return ServerError;
      }
      OnlyOne(retries, op, db, sends, id, session.durable, sends);
      var updated := processor.repository.GetById(id);
      if updated.Failure? {
        return ServerError;
      }
      return Accepted(updated.value.AsRow());
    }

    // The statements of the escalation route from the change to the commit.
    method EscalateInTransaction(processor: MessageProcessor, message: MessageRecord, now: Time)
      returns (committed: bool)
      requires Idle() && processor.Valid() && processor.session == session
      requires message.id in session.durable && message.AsRow() == session.durable[message.id].row
      modifies session, message
      ensures Idle() && session.stamp == old(session.stamp)
      ensures session.durable ==
              if committed then var e := old(session.durable)[message.id];
                old(session.durable)[message.id := Escalate(e, e.row, now, session.stamp)]
              else old(session.durable)
      ensures !committed ==> session.budget == 0
    {
      hide Consistent, KeyTaken, Lifecycle.Escalate;
      OwnKeyIsFree(session.working, message.id);
      var s := processor.EscalateMessage(message, now);
      if s.Ok? {
        s := session.Commit();
      }
      if s.Raised? {
        session.Rollback();
      }
      return s.Ok?;
    }

    // POST /admin/messages/{id}/escalate.
    method PostEscalate(id: string, now: Time) returns (r: Response)
      requires Idle()
      modifies session
      ensures Idle() && session.stamp == old(session.stamp)
      ensures CommittedOrAborted(AdminEscalate(id, now, session.stamp), old(session.durable), channels.sends)
      ensures r.NotFound? ==> id !in session.durable && session.durable == old(session.durable)
      ensures r.BadRequest? ==>
        && id in session.durable && session.durable == old(session.durable)
        && session.durable[id].row.state != SentToChannel
      ensures r.Accepted? ==>
        && id in old(session.durable) && old(session.durable)[id].row.state == SentToChannel
        && r.row == Escalate(old(session.durable)[id], old(session.durable)[id].row, now, session.stamp).row
        && Committed(retries, AdminEscalate(id, now, session.stamp), old(session.durable), channels.sends,
                     session.durable, channels.sends)
      ensures r.ServerError? ==> session.budget == 0
    {
      hide Consistent, Committed, Aborted, Lifecycle.Escalate;
      ghost var op, db, sends := AdminEscalate(id, now, session.stamp), session.durable, channels.sends;
      AbortedAtStart(retries, op, db, sends);
      var processor := new MessageProcessor(session, channels, retries);
      var found := processor.repository.GetById(id);
      if found.Failure? {
        return ServerError;
      }
      if found.value == null {
        return NotFound;
      }
      var message := found.value;
      if message.state != SentToChannel {
        return BadRequest;
      }
      var committed := EscalateInTransaction(processor, message, now);
      if !committed {
        return ServerError;
      }
      OnlyOne(retries, op, db, sends, id, session.durable, sends);
      var updated := processor.repository.GetById(id);
      if updated.Failure? {
        return ServerError;
      }
      return Accepted(updated.value.AsRow());
    }

    // What POST /admin/messages/{id}/retry-fallback asks for.
    ghost function FallbackRetry(id: string, channel: string, wall: Time, u: Unit): Op
      reads session
    {
      AdminRetryFallback(id, channel, channels.Observed(_ => wall, _ => u, session.stamp))
    }

    // The guarded body of the retry-fallback route up to its commit.
    method FallbackInTransaction(processor: MessageProcessor, id: string, channel: string, wall: Time, u: Unit,
                                 ghost env: Env)
      returns (committed: bool)
      requires Idle() && processor.Valid() && processor.session == session && processor.channels == channels
      requires processor.retries == retries && id in session.durable
      requires AdminRetryFallback(id, channel, env) == FallbackRetry(id, channel, wall, u)
      modifies session, channels
      ensures Idle() && processor.Valid() && session.stamp == old(session.stamp)
      ensures !committed ==> session.durable == old(session.durable)
      ensures var op := AdminRetryFallback(id, channel, env);
              if committed
              then Committed(retries, op, old(session.durable), old(channels.sends), session.durable, channels.sends)
              else
                && Aborted(retries, op, old(session.durable), old(channels.sends), session.durable, channels.sends)
                && (session.budget == 0 || SomeChannelThrows(retries, op, old(session.durable)))
    {
      hide Lifecycle.Fallback, Consistent, Midway, Committed, Aborted;
      ghost var op, db, sends := AdminRetryFallback(id, channel, env), session.durable, channels.sends;
      MidwayAtStart(retries, op, db, sends);
      var s := processor.AttemptFallback(id, channel, wall, u, env);
      if s.Raised? {
        MidwayAborted(retries, op, db, sends, {}, db, sends, id, channels.sends);
      } else {
        OnlyOne(retries, op, db, sends, id, session.working, channels.sends);
        CommittedOrLost(retries, op, db, sends, session.working, channels.sends);
        s := session.Commit();
      }
      if s.Raised? {
        session.Rollback();
      }
      return s.Ok?;
    }

    // POST /admin/messages/{id}/retry-fallback.
    method PostRetryFallback(id: string, channel: string, wall: Time, u: Unit) returns (r: Response)
      requires Idle()
      modifies session, channels
      ensures Idle() && session.stamp == old(session.stamp)
      ensures var op := FallbackRetry(id, channel, wall, u);
              && CommittedOrAborted(op, old(session.durable), old(channels.sends))
              && (r.Accepted? ==>
                    && id in session.durable && r.row == session.durable[id].row
                    && old(session.durable)[id].row.state == EscalationPending
                    && Committed(retries, op, old(session.durable), old(channels.sends), session.durable,
                        channels.sends))
      ensures r.NotFound? ==> id !in session.durable && session.durable == old(session.durable)
      ensures r.ServerError? ==> session.budget == 0
      ensures r.BadRequest? ==> session.durable == old(session.durable)
      ensures r.BadRequest? ==>
        || session.budget == 0
        || (id in old(session.durable) && old(session.durable)[id].row.state != EscalationPending)
        || SomeChannelThrows(retries, FallbackRetry(id, channel, wall, u), old(session.durable))
    {
      hide Aborted, EffectOn;
      ghost var op := FallbackRetry(id, channel, wall, u);
      AbortedAtStart(retries, op, session.durable, channels.sends);
      var processor := new MessageProcessor(session, channels, retries);
      var found := processor.repository.GetById(id);
      if found.Failure? {
        return ServerError;
      }
      if found.value == null {
        return NotFound;
      }
      if found.value.state != EscalationPending {
        return BadRequest;
      }
      var committed := FallbackInTransaction(processor, id, channel, wall, u, op.env);
      if !committed {
        return BadRequest;
      }
      var updated := processor.repository.GetById(id);
      if updated.Failure? {
        return ServerError;
      }
      return Accepted(updated.value.AsRow());
    }
  }
}
