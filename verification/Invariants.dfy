// What holds of every committed message.
module Invariants {
  import opened Wrappers
  import opened MessageStates
  import opened Messages
  import opened StateMachine
  import opened RetryPolicies
  import opened Channels
  import opened Events
  import opened Storage
  import opened Lifecycle
  import opened Operations
  import opened History
  import opened Audit

  // How many moves a message can still make. The retry counter pays for the cycle in the table.
  function Potential(p: RetryPolicy, s: State, retryCount: nat): int {
    var left := MaxSends(p) - retryCount;
    match s
    case Pending => 3 * left + 3
    case Queued => 3 * left + 2
    case Sending => 3 * left + 1
    case SentToChannel => 3 * left
    case EscalationPending => 3 * left - 1
    case FallbackSending => 3 * left - 2
    case EscalationDeferred => 3 * left
    case _ => 0
  }

  predicate Escalated(s: State) {
    s in {EscalationPending, EscalationDeferred, FallbackDelivered, DeadLetter}
  }

  predicate Open(s: State) {
    s in {EscalationPending, EscalationDeferred}
  }

  ghost predicate RowInv(p: RetryPolicy, r: Row) {
    && r.state !in {Queued, Sending, FallbackSending}
    && r.retryCount <= MaxSends(p)
    && (!Escalated(r.state) ==> r.retryCount == 0)
    && (Open(r.state) || r.state == FallbackDelivered ==> r.retryCount < MaxSends(p))
    && (r.state == EscalationDeferred ==> r.retryCount >= 1)
    && (r.nextRetryAt.Some? <==> r.retryCount >= 1 && p.maxRetries >= 2)
    && (Escalated(r.state) ==> r.policy.fallbackChannels != [])
    && (r.escalatedAt.Some? <==> Escalated(r.state))
    && (r.sentAt.Some? <==> r.state !in {Pending, Failed})
    && (r.lastError.Some? <==> r.state in {Failed, DeadLetter} || r.retryCount >= 1)
    && (r.state == Acknowledged ==> r.acknowledgedAt.Some?)
    && r.ackDeadlineAt == Some(DeadlineAfter(r.policy, r.createdAt))
  }

  // The log alone determines these fields of the row, and its moves are legal; those made and
  // those still possible are at most b.
  ghost predicate LogInv(p: RetryPolicy, e: Entry, b: int) {
    var v := Replay(e.log);
    && v.state == e.row.state
    && v.retryCount == e.row.retryCount
    && v.nextRetryAt == e.row.nextRetryAt
    && v.acknowledgedAt == e.row.acknowledgedAt
    && v.lastError == e.row.lastError
    && v.externalMessageId == e.row.externalMessageId
    && v.legal
    && v.moves + Potential(p, v.state, v.retryCount) <= b
    && v.primarySends <= (if v.state == Pending then 0 else 1)
    && v.fallbackSends == v.retryCount + (if v.state == FallbackDelivered then 1 else 0)
    && v.fallbackSends <= v.fallbackStarts <= MaxSends(p)
    && v.fallbackStarts <= v.fallbackSends + (if v.state in {FallbackSending, DeadLetter} then 1 else 0)
  }

  ghost predicate Inv(p: RetryPolicy, e: Entry, b: int) {
    RowInv(p, e.row) && LogInv(p, e, b)
  }

  function MaxMoves(p: RetryPolicy): nat {
    3 * MaxSends(p) + 3
  }

  lemma NewEntryInv(p: RetryPolicy, req: Request, id: string, now: Time)
    ensures Inv(p, Entry(NewRow(req, id, now), []), MaxMoves(p))
  {
  }

  // An entry between the start of a send and the recording of its outcome, and the record in
  // hand: not committed, but its log already agrees with it.
  ghost predicate Transient(p: RetryPolicy, e: Entry, mem: Row, s: State, b: int) {
    var r := e.row;
    && r.state == s
    && SameButStamp(r, mem)
    && LogInv(p, e, b)
    && r.ackDeadlineAt == Some(DeadlineAfter(r.policy, r.createdAt))
    && (s == Sending ==>
          r.retryCount == 0 && r.nextRetryAt.None? && r.lastError.None? && r.sentAt.None? && r.escalatedAt.None?)
    && (s == FallbackSending ==>
          && r.retryCount < MaxSends(p) && (r.nextRetryAt.Some? <==> r.retryCount >= 1 && p.maxRetries >= 2)
          && (r.lastError.Some? <==> r.retryCount >= 1)
          && r.policy.fallbackChannels != [] && r.escalatedAt.Some? && r.sentAt.Some?)
  }

  // The time of the last change is no part of the invariant.
  lemma InvIgnoresStamp(p: RetryPolicy, b: int, e: Entry, mem: Row, event: Event, stamp: Time)
    requires Inv(p, Entry(mem, e.log + [event]), b)
    ensures Inv(p, Saved(e, mem, event, stamp), b)
  {
  }

  lemma MarkFailedInv(p: RetryPolicy, b: int, e: Entry, mem: Row, error: string, now: Time, stamp: Time)
    requires Transient(p, e, mem, Sending, b)
    ensures Inv(p, MarkFailed(e, mem, error, now, stamp), b)
  {
    hide Written, Replay;
    ReplayOneMore(e.log, SendFailed(None, Some(error)));
    var failed := Advance(mem, Failed, now).(lastError := Some(error));
    InvIgnoresStamp(p, b, e, failed, SendFailed(None, Some(error)), stamp);
  }

  lemma SentInv(p: RetryPolicy, b: int, e: Entry, mem: Row, ext: Option<string>, now: Time, stamp: Time)
    requires Transient(p, e, mem, Sending, b)
    ensures var taken := mem.(sentAt := Some(now), externalMessageId := ext);
            Inv(p, Saved(e, Advance(taken, SentToChannel, now), SendSuccess(mem.policy.primaryChannel, ext), stamp), b)
  {
    hide Written, Replay;
    var taken := mem.(sentAt := Some(now), externalMessageId := ext);
    var event := SendSuccess(mem.policy.primaryChannel, ext);
    ReplayOneMore(e.log, event);
    InvIgnoresStamp(p, b, e, Advance(taken, SentToChannel, now), event, stamp);
  }

  lemma FailedButEscalatedInv(p: RetryPolicy, b: int, e: Entry, mem: Row, error: Option<string>, now: Time, stamp: Time)
    requires Transient(p, e, mem, Sending, b) && mem.policy.fallbackChannels != []
    ensures var sent := Advance(mem.(sentAt := Some(now)), SentToChannel, now);
            var stored := Saved(e, sent, SendFailed(Some(mem.policy.primaryChannel), error), stamp);
            Inv(p, Escalate(stored, sent, now, stamp), b)
  {
    hide Written, Replay;
    var sent := Advance(mem.(sentAt := Some(now)), SentToChannel, now);
    var failed := SendFailed(Some(mem.policy.primaryChannel), error);
    var triggered := EscalationTriggered("deadline_passed", mem.policy.fallbackChannels);
    ReplayOneMore(e.log, failed);
    ReplayOneMore(e.log + [failed], triggered);
    InvIgnoresStamp(p, b, Saved(e, sent, failed, stamp), Advance(sent, EscalationPending, now), triggered, stamp);
  }

  lemma DeliveredInv(p: RetryPolicy, b: int, e: Entry, mem: Row, result: SendResult, now: Time, stamp: Time)
    requires Transient(p, e, mem, Sending, b)
    ensures Inv(p, Delivered(e, mem, result, now, stamp), b)
  {
    hide Inv, Written, Lifecycle.Escalate, Lifecycle.MarkFailed;
    if result.success {
      SentInv(p, b, e, mem, result.externalMessageId, now, stamp);
    } else if mem.policy.fallbackChannels != [] {
      FailedButEscalatedInv(p, b, e, mem, result.error, now, stamp);
    } else {
      MarkFailedInv(p, b, e, mem, ErrorOr(result.error, "unknown error"), now, stamp);
    }
  }

  lemma SendPrimaryInv(p: RetryPolicy, b: int, e: Entry, mem: Row, now: Time, env: Env)
    requires Transient(p, e, mem, Sending, b) && Replay(e.log).primarySends == 0
    ensures SendPrimary(e, mem, now, env).Done? ==> Inv(p, SendPrimary(e, mem, now, env).entry, b)
  {
    hide Inv, Delivered, Lifecycle.MarkFailed;
    var channel := mem.policy.primaryChannel;
    match env.LinkTo(PrimaryCall(mem))
    case Unregistered => MarkFailedInv(p, b, e, mem, "Channel '" + channel + "' not available", now, env.stamp);
    case Threw =>
    case Answered(result) =>
      ReplayOneMore(e.log, SendAttempt(channel, result));
      DeliveredInv(p, b, Recorded(e, SendAttempt(channel, result)), mem, result, now, env.stamp);
  }

  // A PENDING message that has been queued and marked SENDING, as it is handed to the channel.
  lemma StartedInv(p: RetryPolicy, b: int, e: Entry, queuedAt: Time, now: Time, stamp: Time)
    requires Inv(p, e, b) && e.row.state == Pending
    ensures var queued := Enqueue(e, queuedAt, stamp);
            var sending := Advance(queued.row, Sending, now);
            var stored := Saved(queued, sending, SendingEvent(e.row.policy.primaryChannel), stamp);
            Transient(p, stored, sending, Sending, b) && Replay(stored.log).primarySends == 0
  {
    hide Replay;
    var queued := Enqueue(e, queuedAt, stamp);
    ReplayOneMore(e.log, QueuedEvent);
    ReplayOneMore(queued.log, SendingEvent(e.row.policy.primaryChannel));
  }

  lemma ProcessInv(p: RetryPolicy, b: int, e: Entry, queuedAt: Time, now: Time, env: Env)
    requires Inv(p, e, b)
    ensures Deliver(Enqueue(e, queuedAt, env.stamp), now, env).Done? ==>
      Inv(p, Deliver(Enqueue(e, queuedAt, env.stamp), now, env).entry, b)
  {
    hide SendPrimary, LogInv, Transient;
    if e.row.state == Pending {
      var queued := Enqueue(e, queuedAt, env.stamp);
      var sending := Advance(queued.row, Sending, now);
      StartedInv(p, b, e, queuedAt, now, env.stamp);
      var stored := Saved(queued, sending, SendingEvent(e.row.policy.primaryChannel), env.stamp);
      SendPrimaryInv(p, b, stored, sending, now, env);
    }
  }

  lemma AcknowledgeInv(p: RetryPolicy, b: int, e: Entry, now: Time, stamp: Time)
    requires Inv(p, e, b)
    ensures Inv(p, Acknowledge(e, now, stamp), b)
  {
    hide Written, Replay;
    var event := AckReceived(now, if e.row.state == SentToChannel then None else Some(e.row.state));
    ReplayOneMore(e.log, event);
    var mem := if e.row.state == SentToChannel then Advance(e.row, Acknowledged, now)
               else e.row.(acknowledgedAt := Some(now));
    InvIgnoresStamp(p, b, e, mem, event, stamp);
  }

  // Where an escalation does something. The dead-letter branch for messages without a fallback
  // channel is never taken: the only state such a message can be escalated from forbids the move.
  lemma EscalationActs(p: RetryPolicy, e: Entry, now: Time, stamp: Time)
    requires RowInv(p, e.row)
    ensures Escalate(e, e.row, now, stamp) != e
            <==> e.row.policy.fallbackChannels != [] && e.row.state in {SentToChannel, EscalationDeferred}
    ensures Escalate(e, e.row, now, stamp) != e ==>
      Escalate(e, e.row, now, stamp) ==
      Saved(e, Advance(e.row, EscalationPending, now),
            EscalationTriggered("deadline_passed", e.row.policy.fallbackChannels), stamp)
  {
    hide Written, Replay;
    var escalated := Escalate(e, e.row, now, stamp);
    if e.row.policy.fallbackChannels != [] && e.row.state in {SentToChannel, EscalationDeferred} {
      assert |escalated.log| == |e.log| + 1;
    }
  }

  lemma EscalateInv(p: RetryPolicy, b: int, e: Entry, now: Time, stamp: Time)
    requires Inv(p, e, b)
    ensures Inv(p, Escalate(e, e.row, now, stamp), b)
  {
    hide Lifecycle.Escalate, Written;
    EscalationActs(p, e, now, stamp);
    var event := EscalationTriggered("deadline_passed", e.row.policy.fallbackChannels);
    if Escalate(e, e.row, now, stamp) != e {
      ReplayOneMore(e.log, event);
      InvIgnoresStamp(p, b, e, Advance(e.row, EscalationPending, now), event, stamp);
    }
  }

  lemma DeadLetterInv(p: RetryPolicy, b: int, e: Entry, mem: Row, reason: string, now: Time, stamp: Time)
    requires Transient(p, e, mem, FallbackSending, b)
    ensures Inv(p, MarkDeadLetter(e, mem, reason, now, stamp), b)
  {
    hide Written, Replay;
    ReplayOneMore(e.log, DeadLetterEvent(reason));
    InvIgnoresStamp(p, b, e, Advance(mem, DeadLetter, now).(lastError := Some(reason)), DeadLetterEvent(reason), stamp);
  }

  // A fallback attempt whose start has been recorded, but not its answer.
  ghost predicate Begun(p: RetryPolicy, e: Entry, mem: Row, b: int) {
    Transient(p, e, mem, FallbackSending, b) && Replay(e.log).fallbackStarts == e.row.retryCount + 1
  }

  // The failure branches. The log already counts the failure, `e` is the entry without that event.
  lemma DeferInv(p: RetryPolicy, b: int, e: Entry, mem: Row, channel: string, result: SendResult, at: Time,
                 error: string, now: Time, stamp: Time)
    requires Begun(p, e, mem, b) && !result.success && p.ShouldRetry(e.row.retryCount + 1)
    ensures var failed := mem.(lastError := Some(error), retryCount := mem.retryCount + 1);
            var answered := Recorded(e, FallbackAttempt(channel, Some(result)));
            Inv(p, Defer(answered, failed, channel, at, error, now, stamp), b)
  {
    hide Written, Replay;
    var answer := FallbackAttempt(channel, Some(result));
    var failed := mem.(lastError := Some(error), retryCount := mem.retryCount + 1);
    var event := EscalationDeferredEvent(channel, failed.retryCount, at, error);
    ReplayOneMore(e.log, answer);
    ReplayOneMore(e.log + [answer], event);
    var deferred := Advance(failed.(nextRetryAt := Some(at)), EscalationDeferred, now);
    InvIgnoresStamp(p, b, Recorded(e, answer), deferred, event, stamp);
  }

  lemma GiveUpInv(p: RetryPolicy, b: int, e: Entry, mem: Row, channel: string, result: SendResult, error: string,
                  now: Time, stamp: Time)
    requires Begun(p, e, mem, b) && !result.success && !p.ShouldRetry(e.row.retryCount + 1)
    ensures var failed := mem.(lastError := Some(error), retryCount := mem.retryCount + 1);
            Inv(p, MarkDeadLetter(Recorded(e, FallbackAttempt(channel, Some(result))), failed, error, now, stamp), b)
  {
    hide Written, Replay;
    var answer := FallbackAttempt(channel, Some(result));
    var failed := mem.(lastError := Some(error), retryCount := mem.retryCount + 1);
    ReplayOneMore(e.log, answer);
    ReplayOneMore(e.log + [answer], DeadLetterEvent(error));
    InvIgnoresStamp(p, b, Recorded(e, answer), Advance(failed, DeadLetter, now).(lastError := Some(error)),
                    DeadLetterEvent(error), stamp);
  }

  lemma FallbackSuccessInv(p: RetryPolicy, b: int, e: Entry, mem: Row, channel: string, result: SendResult, now: Time,
                           stamp: Time)
    requires Begun(p, e, mem, b) && result.success
    ensures var taken := mem.(externalMessageId := result.externalMessageId);
            Inv(p, Saved(Recorded(e, FallbackAttempt(channel, Some(result))), Advance(taken, FallbackDelivered, now),
                         FallbackSuccess(channel), stamp), b)
  {
    hide Written, Replay;
    var answer := FallbackAttempt(channel, Some(result));
    var taken := mem.(externalMessageId := result.externalMessageId);
    ReplayOneMore(e.log, answer);
    ReplayOneMore(e.log + [answer], FallbackSuccess(channel));
    InvIgnoresStamp(p, b, Recorded(e, answer), Advance(taken, FallbackDelivered, now), FallbackSuccess(channel), stamp);
  }

  lemma FellBackInv(p: RetryPolicy, b: int, e: Entry, mem: Row, channel: string, result: SendResult, now: Time,
                    stamp: Time, u: Unit)
    requires Begun(p, e, mem, b)
    ensures var answered := Recorded(e, FallbackAttempt(channel, Some(result)));
            Inv(p, FellBack(p, answered, mem, channel, result, now, stamp, u), b)
  {
    hide Inv, LogInv, Saved, Lifecycle.Defer, Lifecycle.MarkDeadLetter, RetryPolicy.Delay;
    var error := "fallback send failed: " + ErrorOr(result.error, "unknown");
    if result.success {
      FallbackSuccessInv(p, b, e, mem, channel, result, now, stamp);
    } else if p.ShouldRetry(e.row.retryCount + 1) {
      DeferInv(p, b, e, mem, channel, result, now + p.Delay(mem.retryCount, u), error, now, stamp);
    } else {
      GiveUpInv(p, b, e, mem, channel, result, error, now, stamp);
    }
  }

  // An ESCALATION_PENDING message as it is handed to a fallback channel.
  lemma BegunInv(p: RetryPolicy, b: int, e: Entry, channel: string, now: Time, stamp: Time)
    requires Inv(p, e, b) && e.row.state == EscalationPending
    ensures var mem := Advance(e.row, FallbackSending, now);
            Begun(p, Saved(e, mem, FallbackAttempt(channel, None), stamp), mem, b)
  {
    hide Replay;
    ReplayOneMore(e.log, FallbackAttempt(channel, None));
  }

  lemma FallbackInv(p: RetryPolicy, b: int, e: Entry, channel: string, now: Time, env: Env, u: Unit)
    requires Inv(p, e, b)
    ensures Fallback(p, e, channel, now, env, u).Done? ==> Inv(p, Fallback(p, e, channel, now, env, u).entry, b)
  {
    hide FellBack, Lifecycle.MarkDeadLetter, LogInv, RowInv, Written;
    if e.row.state == EscalationPending {
      var mem := Advance(e.row, FallbackSending, now);
      var sending := Saved(e, mem, FallbackAttempt(channel, None), env.stamp);
      BegunInv(p, b, e, channel, now, env.stamp);
      match env.LinkTo(FallbackCall(mem, channel))
      case Unregistered =>
        DeadLetterInv(p, b, sending, mem, "fallback channel '" + channel + "' not available", now, env.stamp);
      case Threw =>
      case Answered(result) => FellBackInv(p, b, sending, mem, channel, result, now, env.stamp, u);
    }
  }

  lemma NotQueued(p: RetryPolicy, b: int, e: Entry)
    requires Inv(p, e, b)
    ensures e.row.state != Queued
  {
  }

  lemma EffectInv(p: RetryPolicy, b: int, op: Op, id: string, e: Entry)
    requires Inv(p, e, b)
    ensures Inv(p, After(p, op, id, e), b)
  {
    hide Inv, Deliver, Lifecycle.Fallback, Lifecycle.Escalate, Acknowledge;
    match op
    case Process(_, queuedAt, env) => ProcessInv(p, b, e, queuedAt, env.clock(id), env);
    case Acknowledgement(_, at, stamp) => AcknowledgeInv(p, b, e, at, stamp);
    case DeadlinePass(now, stamp) => EscalateInv(p, b, e, now, stamp);
    case FallbackPass(env) =>
      if e.row.policy.fallbackChannels != [] {
        FallbackInv(p, b, e, e.row.policy.fallbackChannels[0], env.clock(id), env, env.jitter(id));
      }
    case RetryPass(now, env) =>
      NotQueued(p, b, e);
      EscalateInv(p, b, e, now, env.stamp);
    case AdminEscalate(_, now, stamp) => EscalateInv(p, b, e, now, stamp);
    case AdminRetryFallback(_, channel, env) => FallbackInv(p, b, e, channel, env.clock(id), env, env.jitter(id));
    case Create(_, _, _) =>
  }
}
