// What every operation leaves, written out column by column and event by event, for every message in
// every state: the texts, times, calls and events a maintainer would look up, without the functions
// of Lifecycle.dfy.
module Outcomes {
  import opened Wrappers
  import opened MessageStates
  import opened Messages
  import opened StateMachine
  import opened RetryPolicies
  import opened Channels
  import opened Events
  import opened Storage
  import opened Lifecycle
  import opened Operations

  // The given row, but for the time of the last change, which is the operation's clock or the
  // database's; and the log with the given events at its end.
  predicate Leaves(e: Entry, e': Entry, row: Row, events: seq<Event>, now: Time, stamp: Time) {
    && e'.row == row.(updatedAt := e'.row.updatedAt)
    && (e'.row.updatedAt == now || e'.row.updatedAt == stamp)
    && e'.log == e.log + events
  }

  // The text tells what the channel said, or that it said nothing.
  predicate Reports(text: string, prefix: string, error: Option<string>, nothing: string) {
    && (error.Some? && error.value != "" ==> text == prefix + error.value)
    && (error.None? || error.value == "" ==> text == prefix + nothing)
  }

  // The end of a delivery that first recorded the events `begun`.
  predicate Sent(e: Entry, begun: seq<Event>, now: Time, env: Env, eff: Effect) {
    var r, channel := e.row, e.row.policy.primaryChannel;
    if channel !in env.registered then
      var text := "Channel '" + channel + "' not available";
      && eff.Done? && !eff.called
      && Leaves(e, eff.entry, r.(state := Failed, lastError := Some(text)), begun + [SendFailed(None, Some(text))], now,
                env.stamp)
    else
      match env.answer(Call(channel, r.recipient, r.content, r.id, r.policy.priority, false))
      case Threw => eff.Aborts?
      case Answered(result) =>
        && eff.Done? && eff.called
        && var answered := begun + [SendAttempt(channel, result)];
           if result.success then
             Leaves(e, eff.entry,
                    r.(state := SentToChannel, sentAt := Some(now), externalMessageId := result.externalMessageId),
                    answered + [SendSuccess(channel, result.externalMessageId)], now, env.stamp)
           else if r.policy.fallbackChannels != [] then
             Leaves(e, eff.entry, r.(state := EscalationPending, sentAt := Some(now), escalatedAt := Some(now)),
                    answered + [SendFailed(Some(channel), result.error),
                                EscalationTriggered("deadline_passed", r.policy.fallbackChannels)],
                    now, env.stamp)
           else
             && eff.entry.row.lastError.Some?
             && var text := eff.entry.row.lastError.value;
                && Reports(text, "", result.error, "unknown error")
                && Leaves(e, eff.entry, r.(state := Failed, lastError := Some(text)),
                          answered + [SendFailed(None, Some(text))], now, env.stamp)
  }

  // The end of an attempt through the given fallback channel.
  predicate FellBackThrough(p: RetryPolicy, e: Entry, channel: string, now: Time, env: Env, u: Unit, eff: Effect) {
    var r, begun := e.row, [FallbackAttempt(channel, None)];
    if channel !in env.registered then
      var text := "fallback channel '" + channel + "' not available";
      && eff.Done? && !eff.called
      && Leaves(e, eff.entry, r.(state := DeadLetter, lastError := Some(text)), begun + [DeadLetterEvent(text)], now,
                env.stamp)
    else
      match env.answer(Call(channel, r.recipient, r.content, r.id, r.policy.priority, true))
      case Threw => eff.Aborts?
      case Answered(result) =>
        && eff.Done? && eff.called
        && var answered := begun + [FallbackAttempt(channel, Some(result))];
           if result.success then
             Leaves(e, eff.entry, r.(state := FallbackDelivered, externalMessageId := result.externalMessageId),
                    answered + [FallbackSuccess(channel)], now, env.stamp)
           else
             && eff.entry.row.lastError.Some?
             && var text := eff.entry.row.lastError.value;
                && Reports(text, "fallback send failed: ", result.error, "unknown")
                && var failed := r.(retryCount := r.retryCount + 1, lastError := Some(text));
                   if r.retryCount + 1 < p.maxRetries then
                     var at := now + p.Delay(r.retryCount, u);
                     Leaves(e, eff.entry, failed.(state := EscalationDeferred, nextRetryAt := Some(at)),
                            answered + [EscalationDeferredEvent(channel, r.retryCount + 1, at, text)], now, env.stamp)
                   else
                     Leaves(e, eff.entry, failed.(state := DeadLetter), answered + [DeadLetterEvent(text)], now,
                            env.stamp)
  }

  // An escalation at `now`.
  predicate Escalates(e: Entry, e': Entry, now: Time, stamp: Time) {
    var r := e.row;
    if r.state in {SentToChannel, EscalationDeferred} && r.policy.fallbackChannels != [] then
      Leaves(e, e', r.(state := EscalationPending, escalatedAt := Some(now)),
             [EscalationTriggered("deadline_passed", r.policy.fallbackChannels)], now, stamp)
    else if r.state in {FallbackSending, EscalationDeferred} && r.policy.fallbackChannels == [] then
      Leaves(e, e', r.(state := DeadLetter, lastError := Some("no_fallback_channels")),
             [DeadLetterEvent("no_fallback_channels")], now, stamp)
    else e' == e
  }

  lemma EscalateOutcome(e: Entry, now: Time, stamp: Time)
    ensures Escalates(e, Escalate(e, e.row, now, stamp), now, stamp)
  {
  }

  lemma DeliveredOutcome(stored: Entry, mem: Row, result: SendResult, now: Time, stamp: Time)
    requires mem.state == Sending && mem == stored.row.(updatedAt := mem.updatedAt)
    ensures var e', channel := Delivered(stored, mem, result, now, stamp), mem.policy.primaryChannel;
            if result.success then
              Leaves(stored, e',
                     mem.(state := SentToChannel, sentAt := Some(now), externalMessageId := result.externalMessageId),
                     [SendSuccess(channel, result.externalMessageId)], now, stamp)
            else if mem.policy.fallbackChannels != [] then
              Leaves(stored, e', mem.(state := EscalationPending, sentAt := Some(now), escalatedAt := Some(now)),
                     [SendFailed(Some(channel), result.error),
                      EscalationTriggered("deadline_passed", mem.policy.fallbackChannels)], now, stamp)
            else
              && e'.row.lastError.Some?
              && var text := e'.row.lastError.value;
                 && Reports(text, "", result.error, "unknown error")
                 && Leaves(stored, e', mem.(state := Failed, lastError := Some(text)), [SendFailed(None, Some(text))],
                           now, stamp)
  {
  }

  lemma DeliverOutcome(e: Entry, now: Time, env: Env)
    ensures if e.row.state == Queued
            then Sent(e, [SendingEvent(e.row.policy.primaryChannel)], now, env, Deliver(e, now, env))
            else Deliver(e, now, env) == Done(e, false)
  {
    hide Delivered;
    if e.row.state == Queued {
      var channel, mem := e.row.policy.primaryChannel, Advance(e.row, Sending, now);
      var stored := Saved(e, mem, SendingEvent(channel), env.stamp);
      if channel in env.registered && env.answer(PrimaryCall(mem)).Answered? {
        var result := env.answer(PrimaryCall(mem)).result;
        DeliveredOutcome(Recorded(stored, SendAttempt(channel, result)), mem, result, now, env.stamp);
      }
    }
  }

  lemma ProcessOutcome(p: RetryPolicy, id: string, e: Entry, queuedAt: Time, env: Env)
    ensures var eff, channel := EffectOn(p, Process(id, queuedAt, env), id, e), e.row.policy.primaryChannel;
            if e.row.state == Pending then Sent(e, [QueuedEvent, SendingEvent(channel)], env.clock(id), env, eff)
            else if e.row.state == Queued then Sent(e, [SendingEvent(channel)], env.clock(id), env, eff)
            else eff == Done(e, false)
  {
    hide Deliver;
    DeliverOutcome(Enqueue(e, queuedAt, env.stamp), env.clock(id), env);
  }

  lemma FellBackOutcome(p: RetryPolicy, stored: Entry, mem: Row, channel: string, result: SendResult, now: Time,
                        stamp: Time, u: Unit)
    requires mem.state == FallbackSending && mem == stored.row.(updatedAt := mem.updatedAt)
    ensures var e' := FellBack(p, stored, mem, channel, result, now, stamp, u);
            if result.success then
              Leaves(stored, e', mem.(state := FallbackDelivered, externalMessageId := result.externalMessageId),
                     [FallbackSuccess(channel)], now, stamp)
            else
              && e'.row.lastError.Some?
              && var text := e'.row.lastError.value;
                 && Reports(text, "fallback send failed: ", result.error, "unknown")
                 && var failed := mem.(retryCount := mem.retryCount + 1, lastError := Some(text));
                    if mem.retryCount + 1 < p.maxRetries then
                      var at := now + p.Delay(mem.retryCount, u);
                      Leaves(stored, e', failed.(state := EscalationDeferred, nextRetryAt := Some(at)),
                             [EscalationDeferredEvent(channel, mem.retryCount + 1, at, text)], now, stamp)
                    else
                      Leaves(stored, e', failed.(state := DeadLetter), [DeadLetterEvent(text)], now, stamp)
  {
    hide RetryPolicy.Delay;
  }

  lemma FallbackOutcome(p: RetryPolicy, e: Entry, channel: string, now: Time, env: Env, u: Unit)
    ensures if e.row.state == EscalationPending
            then FellBackThrough(p, e, channel, now, env, u, Fallback(p, e, channel, now, env, u))
            else Fallback(p, e, channel, now, env, u) == Done(e, false)
  {
    hide FellBack, RetryPolicy.Delay, Reports;
    if e.row.state == EscalationPending {
      var mem := Advance(e.row, FallbackSending, now);
      var stored := Saved(e, mem, FallbackAttempt(channel, None), env.stamp);
      if channel in env.registered && env.answer(FallbackCall(mem, channel)).Answered? {
        var result := env.answer(FallbackCall(mem, channel)).result;
        FellBackOutcome(p, Recorded(stored, FallbackAttempt(channel, Some(result))), mem, channel, result, now,
                        env.stamp, u);
      }
    }
  }

  // The whole table. A deadline pass and an admin escalation take sent messages only, a fallback
  // pass takes the first fallback channel and the admin route the one it names.
  predicate Outcome(p: RetryPolicy, op: Op, id: string, e: Entry, eff: Effect) {
    var r := e.row;
    match op
    case Create(_, _, _) => eff == Done(e, false)
    case Process(target, _, env) =>
      if id == target && r.state == Pending then
        Sent(e, [QueuedEvent, SendingEvent(r.policy.primaryChannel)], env.clock(id), env, eff)
      else if id == target && r.state == Queued then
        Sent(e, [SendingEvent(r.policy.primaryChannel)], env.clock(id), env, eff)
      else eff == Done(e, false)
    case Acknowledgement(target, at, stamp) =>
      && eff.Done? && !eff.called
      && if id != target then eff.entry == e
         else if r.state == SentToChannel then
           Leaves(e, eff.entry, r.(state := Acknowledged, acknowledgedAt := Some(at)),
                  [AckReceived(at, None)], at, stamp)
         else
           && eff.entry.log == e.log + [AckReceived(at, Some(r.state))]
           && eff.entry.row == r.(acknowledgedAt := Some(at),
                                  updatedAt := if r.acknowledgedAt == Some(at) then r.updatedAt else stamp)
    case DeadlinePass(now, stamp) =>
      && eff.Done? && !eff.called
      && if r.state == SentToChannel && r.acknowledgedAt.None? && r.ackDeadlineAt.Some?
            && r.ackDeadlineAt.value < now
         then Escalates(e, eff.entry, now, stamp)
         else eff.entry == e
    case FallbackPass(env) =>
      if r.state == EscalationPending && r.policy.fallbackChannels != [] then
        FellBackThrough(p, e, r.policy.fallbackChannels[0], env.clock(id), env, env.jitter(id), eff)
      else eff == Done(e, false)
    case RetryPass(now, env) =>
      if r.nextRetryAt.None? || now < r.nextRetryAt.value then eff == Done(e, false)
      else if r.state == Queued then
        Sent(e, [SendingEvent(r.policy.primaryChannel)], env.clock(id), env, eff)
      else if r.state == EscalationDeferred then
        eff.Done? && !eff.called && Escalates(e, eff.entry, now, env.stamp)
      else eff == Done(e, false)
    case AdminEscalate(target, now, stamp) =>
      && eff.Done? && !eff.called
      && if id == target && r.state == SentToChannel then Escalates(e, eff.entry, now, stamp)
         else eff.entry == e
    case AdminRetryFallback(target, channel, env) =>
      if id == target && r.state == EscalationPending then
        FellBackThrough(p, e, channel, env.clock(id), env, env.jitter(id), eff)
      else eff == Done(e, false)
  }

  lemma EveryOutcome(p: RetryPolicy, op: Op, id: string, e: Entry)
    ensures Outcome(p, op, id, e, EffectOn(p, op, id, e))
  {
    hide Deliver, Lifecycle.Fallback, Lifecycle.Escalate, Sent, FellBackThrough, Escalates;
    match op
    case Process(_, queuedAt, env) => ProcessOutcome(p, id, e, queuedAt, env);
    case DeadlinePass(now, stamp) => EscalateOutcome(e, now, stamp);
    case FallbackPass(env) =>
      if e.row.policy.fallbackChannels != [] {
        FallbackOutcome(p, e, e.row.policy.fallbackChannels[0], env.clock(id), env, env.jitter(id));
      }
    case RetryPass(now, env) =>
      DeliverOutcome(e, env.clock(id), env);
      EscalateOutcome(e, now, env.stamp);
    case AdminEscalate(_, now, stamp) => EscalateOutcome(e, now, stamp);
    case AdminRetryFallback(_, channel, env) =>
      FallbackOutcome(p, e, channel, env.clock(id), env, env.jitter(id));
    case _ =>
  }
}
