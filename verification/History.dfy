// How a message can change over time, whatever is done to it: what stays, what only grows, and
// what freezes.
module History {
  import opened Wrappers
  import opened MessageStates
  import opened Messages
  import opened StateMachine
  import opened RetryPolicies
  import opened Channels
  import opened Events
  import opened Storage
  import opened Lifecycle
  import opened Operations
  import opened Audit

  ghost predicate SameIdentity(r: Row, r': Row) {
    && r'.id == r.id && r'.sender == r.sender && r'.recipient == r.recipient && r'.content == r.content
    && r'.policy == r.policy && r'.key == r.key && r'.createdAt == r.createdAt && r'.ackDeadlineAt == r.ackDeadlineAt
  }

  // All fields but those a late acknowledgement writes: its own time, and through the default of
  // the column the time of the last change.
  ghost predicate Frozen(r: Row, r': Row) {
    r' == r.(acknowledgedAt := r'.acknowledgedAt, updatedAt := r'.updatedAt)
  }

  // e' can be what e has become.
  ghost predicate Later(e: Entry, e': Entry) {
    && e.log <= e'.log
    && SameIdentity(e.row, e'.row)
    && (e.row.acknowledgedAt.Some? ==> e'.row.acknowledgedAt.Some?)
    && e.row.retryCount <= e'.row.retryCount
    && (Terminal(e.row.state) ==> Frozen(e.row, e'.row))
    && (Terminal(e.row.state) && e'.row.updatedAt != e.row.updatedAt ==> |e'.log| > |e.log|)
    && (e'.row.state == Pending ==> e.row.state == Pending)
  }

  lemma LaterReflexive(e: Entry)
    ensures Later(e, e)
  {
  }

  lemma LaterTransitive(e1: Entry, e2: Entry, e3: Entry)
    requires Later(e1, e2) && Later(e2, e3)
    ensures Later(e1, e3)
  {
  }

  // The relation that the inner statements of an operation keep between the entry before them
  // and the entry and record after them.
  ghost predicate Grown(e: Entry, e': Entry) {
    && e.log <= e'.log
    && SameIdentity(e.row, e'.row)
    && e'.row.acknowledgedAt == e.row.acknowledgedAt
    && e.row.retryCount <= e'.row.retryCount
    && e'.row.state != Pending
  }

  ghost predicate SameButStamp(r: Row, mem: Row) {
    mem == r.(updatedAt := mem.updatedAt)
  }

  lemma DeliveredGrows(e: Entry, mem: Row, result: SendResult, now: Time, stamp: Time)
    requires mem.state == Sending && SameButStamp(e.row, mem)
    ensures Grown(e, Delivered(e, mem, result, now, stamp))
  {
  }

  lemma SendPrimaryGrows(e: Entry, mem: Row, now: Time, env: Env)
    requires mem.state == Sending && SameButStamp(e.row, mem) && SendPrimary(e, mem, now, env).Done?
    ensures Grown(e, SendPrimary(e, mem, now, env).entry)
  {
    match env.LinkTo(PrimaryCall(mem))
    case Answered(result) =>
      DeliveredGrows(Recorded(e, SendAttempt(mem.policy.primaryChannel, result)), mem, result, now, env.stamp);
    case _ =>
  }

  lemma DeliverGrows(e: Entry, now: Time, env: Env)
    requires Deliver(e, now, env).Done? && Deliver(e, now, env).entry != e
    ensures e.row.state == Queued && Grown(e, Deliver(e, now, env).entry)
  {
    hide SendPrimary;
    var sending := Advance(e.row, Sending, now);
    var stored := Saved(e, sending, SendingEvent(e.row.policy.primaryChannel), env.stamp);
    assert e.row.state == Queued && Grown(e, stored);
    SendPrimaryGrows(stored, sending, now, env);
  }

  lemma SendFallbackGrows(p: RetryPolicy, e: Entry, mem: Row, channel: string, now: Time, env: Env, u: Unit)
    requires mem.state == FallbackSending && SameButStamp(e.row, mem)
    requires SendFallback(p, e, mem, channel, now, env, u).Done?
    ensures Grown(e, SendFallback(p, e, mem, channel, now, env, u).entry)
  {
    hide RetryPolicy.Delay;
  }

  lemma FallbackGrows(p: RetryPolicy, e: Entry, channel: string, now: Time, env: Env, u: Unit)
    requires Fallback(p, e, channel, now, env, u).Done? && Fallback(p, e, channel, now, env, u).entry != e
    ensures e.row.state == EscalationPending && Grown(e, Fallback(p, e, channel, now, env, u).entry)
  {
    hide SendFallback;
    var sending := Advance(e.row, FallbackSending, now);
    var stored := Saved(e, sending, FallbackAttempt(channel, None), env.stamp);
    assert e.row.state == EscalationPending && Grown(e, stored);
    SendFallbackGrows(p, stored, sending, channel, now, env, u);
  }

  lemma EnqueueThenDeliver(e: Entry, queuedAt: Time, now: Time, env: Env)
    requires Deliver(Enqueue(e, queuedAt, env.stamp), now, env).Done?
    ensures Later(e, Deliver(Enqueue(e, queuedAt, env.stamp), now, env).entry)
  {
    hide Deliver;
    var queued := Enqueue(e, queuedAt, env.stamp);
    if Deliver(queued, now, env).entry != queued {
      DeliverGrows(queued, now, env);
    }
  }

  lemma EscalateLater(e: Entry, now: Time, stamp: Time)
    ensures Later(e, Escalate(e, e.row, now, stamp))
  {
  }

  lemma EffectLater(p: RetryPolicy, op: Op, id: string, e: Entry)
    ensures Later(e, After(p, op, id, e))
  {
    hide Deliver, Lifecycle.Fallback, Lifecycle.Escalate;
    if EffectOn(p, op, id, e).Done? {
      match op
      case Process(target, queuedAt, env) =>
        if id == target {
          EnqueueThenDeliver(e, queuedAt, env.clock(id), env);
        }
      case FallbackPass(env) =>
        if After(p, op, id, e) != e {
          FallbackGrows(p, e, e.row.policy.fallbackChannels[0], env.clock(id), env, env.jitter(id));
        }
      case AdminRetryFallback(_, channel, env) =>
        if After(p, op, id, e) != e {
          FallbackGrows(p, e, channel, env.clock(id), env, env.jitter(id));
        }
      case RetryPass(now, env) =>
        EscalateLater(e, now, env.stamp);
        if e.row.state == Queued && After(p, op, id, e) != e {
          DeliverGrows(e, env.clock(id), env);
        }
      case DeadlinePass(now, stamp) => EscalateLater(e, now, stamp);
      case AdminEscalate(_, now, stamp) => EscalateLater(e, now, stamp);
      case Acknowledgement(_, _, _) =>
      case Create(_, _, _) =>
    }
  }

  // No other operation touches the acknowledgement time.
  lemma OnlyAcknowledging(p: RetryPolicy, op: Op, id: string, e: Entry)
    requires !(op.Acknowledgement? && op.id == id)
    ensures After(p, op, id, e).row.acknowledgedAt == e.row.acknowledgedAt
  {
    hide Deliver, Lifecycle.Fallback;
    if EffectOn(p, op, id, e).Done? && After(p, op, id, e) != e {
      match op
      case Process(_, queuedAt, env) =>
        var queued := Enqueue(e, queuedAt, env.stamp);
        if Deliver(queued, env.clock(id), env).entry != queued {
          DeliverGrows(queued, env.clock(id), env);
        }
      case FallbackPass(env) =>
        FallbackGrows(p, e, e.row.policy.fallbackChannels[0], env.clock(id), env, env.jitter(id));
      case AdminRetryFallback(_, channel, env) =>
        FallbackGrows(p, e, channel, env.clock(id), env, env.jitter(id));
      case RetryPass(now, env) =>
        if e.row.state == Queued {
          DeliverGrows(e, env.clock(id), env);
        }
      case _ =>
    }
  }

  // Answered calls to channels, as the audit log records them.
  function Attempts(log: seq<Event>): nat {
    Replay(log).primarySends + Replay(log).fallbackSends
  }

  lemma AttemptsOneMore()
    ensures forall log, event {:trigger Attempts(log + [event])} ::
      Attempts(log + [event]) ==
      Attempts(log) + if event.SendAttempt? || (event.FallbackAttempt? && event.outcome.Some?) then 1 else 0
  {
    forall log: seq<Event>, event: Event
      ensures Attempts(log + [event]) ==
              Attempts(log) + if event.SendAttempt? || (event.FallbackAttempt? && event.outcome.Some?) then 1 else 0
    {
      ReplayOneMore(log, event);
    }
  }

  lemma DeliveredAttempts(e: Entry, mem: Row, result: SendResult, now: Time, stamp: Time)
    requires mem.state == Sending
    ensures Attempts(Delivered(e, mem, result, now, stamp).log) == Attempts(e.log)
  {
    hide Attempts, Written;
    AttemptsOneMore();
  }

  lemma SendPrimaryAttempts(e: Entry, mem: Row, now: Time, env: Env)
    requires mem.state == Sending && SendPrimary(e, mem, now, env).Done?
    ensures var eff := SendPrimary(e, mem, now, env);
            Attempts(eff.entry.log) == Attempts(e.log) + if eff.called then 1 else 0
  {
    hide Attempts, Written, Delivered;
    AttemptsOneMore();
    match env.LinkTo(PrimaryCall(mem))
    case Answered(result) =>
      DeliveredAttempts(Recorded(e, SendAttempt(mem.policy.primaryChannel, result)), mem, result, now, env.stamp);
    case _ =>
  }

  lemma DeliverAttempts(e: Entry, now: Time, env: Env)
    requires Deliver(e, now, env).Done?
    ensures Attempts(Deliver(e, now, env).entry.log) == Attempts(e.log) + if Deliver(e, now, env).called then 1 else 0
  {
    hide Attempts, SendPrimary;
    AttemptsOneMore();
    if Sending in ValidTransitions(e.row.state) {
      var sending := Advance(e.row, Sending, now);
      SendPrimaryAttempts(Saved(e, sending, SendingEvent(e.row.policy.primaryChannel), env.stamp), sending, now, env);
    }
  }

  lemma SendFallbackAttempts(p: RetryPolicy, e: Entry, mem: Row, channel: string, now: Time, env: Env, u: Unit)
    requires mem.state == FallbackSending && SendFallback(p, e, mem, channel, now, env, u).Done?
    ensures var eff := SendFallback(p, e, mem, channel, now, env, u);
            Attempts(eff.entry.log) == Attempts(e.log) + if eff.called then 1 else 0
  {
    hide Attempts, Written, RetryPolicy.Delay;
    AttemptsOneMore();
  }

  lemma FallbackAttempts(p: RetryPolicy, e: Entry, channel: string, now: Time, env: Env, u: Unit)
    requires Fallback(p, e, channel, now, env, u).Done?
    ensures Attempts(Fallback(p, e, channel, now, env, u).entry.log) ==
            Attempts(e.log) + if Fallback(p, e, channel, now, env, u).called then 1 else 0
  {
    hide Attempts, SendFallback;
    AttemptsOneMore();
    if e.row.state == EscalationPending {
      var sending := Advance(e.row, FallbackSending, now);
      var stored := Saved(e, sending, FallbackAttempt(channel, None), env.stamp);
      SendFallbackAttempts(p, stored, sending, channel, now, env, u);
    }
  }

  lemma EscalateAttempts(e: Entry, now: Time, stamp: Time)
    ensures Attempts(Escalate(e, e.row, now, stamp).log) == Attempts(e.log)
  {
    hide Attempts, Written;
    AttemptsOneMore();
  }

  // An operation records an answered call exactly when it made one.
  lemma EffectAttempts(p: RetryPolicy, op: Op, id: string, e: Entry)
    requires EffectOn(p, op, id, e).Done?
    ensures Attempts(After(p, op, id, e).log) == Attempts(e.log) + if EffectOn(p, op, id, e).called then 1 else 0
  {
    hide Attempts, Deliver, Lifecycle.Fallback, Lifecycle.Escalate, Written;
    AttemptsOneMore();
    match op
    case Process(target, queuedAt, env) =>
      if id == target {
        DeliverAttempts(Enqueue(e, queuedAt, env.stamp), env.clock(id), env);
      }
    case FallbackPass(env) =>
      if e.row.state == EscalationPending && e.row.policy.fallbackChannels != [] {
        FallbackAttempts(p, e, e.row.policy.fallbackChannels[0], env.clock(id), env, env.jitter(id));
      }
    case AdminRetryFallback(target, channel, env) =>
      if id == target {
        FallbackAttempts(p, e, channel, env.clock(id), env, env.jitter(id));
      }
    case RetryPass(now, env) =>
      EscalateAttempts(e, now, env.stamp);
      if DueForRetry(e.row, now) && e.row.state == Queued {
        DeliverAttempts(e, env.clock(id), env);
      }
    case DeadlinePass(now, stamp) => EscalateAttempts(e, now, stamp);
    case AdminEscalate(_, now, stamp) => EscalateAttempts(e, now, stamp);
    case _ =>
  }
}
