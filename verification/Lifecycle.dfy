// What each operation does to one message, as functions on its entry. The imperative code of
// Processor.dfy and its callers is proved equal to these functions; the run properties are
// proved about them.
module Lifecycle {
  import opened Wrappers
  import opened MessageStates
  import opened Messages
  import opened StateMachine
  import opened RetryPolicies
  import opened Channels
  import opened Events
  import opened Storage

  // How one operation leaves one entry. `called` tells whether a channel was called for the
  // message; Aborts is the case of a channel that throws, which undoes the whole transaction
  // but not the call.
  datatype Effect = Done(entry: Entry, called: bool) | Aborts

  function Calls(id: string, eff: Effect): multiset<string> {
    if eff.Aborts? || eff.called then multiset{id} else multiset{}
  }

  // Python's `error or default`: the empty string counts as no error.
  function ErrorOr(error: Option<string>, default: string): string {
    if error.None? || error.value == "" then default else error.value
  }

  function Recorded(e: Entry, event: Event): Entry {
    Entry(e.row, e.log + [event])
  }

  // In the functions below `stored` is the entry in the database, `mem` the record in hand, which
  // may be ahead of it, and `stamp` the database's now() of the transaction.
  function Saved(stored: Entry, mem: Row, event: Event, stamp: Time): Entry {
    Entry(Written(stored.row, mem, stamp), stored.log + [event])
  }

  function MarkFailed(stored: Entry, mem: Row, error: string, now: Time, stamp: Time): Entry {
    if Failed !in ValidTransitions(mem.state) then stored
    else Saved(stored, Advance(mem, Failed, now).(lastError := Some(error)), SendFailed(None, Some(error)), stamp)
  }

  function MarkDeadLetter(stored: Entry, mem: Row, reason: string, now: Time, stamp: Time): Entry {
    if DeadLetter !in ValidTransitions(mem.state) then stored
    else Saved(stored, Advance(mem, DeadLetter, now).(lastError := Some(reason)), DeadLetterEvent(reason), stamp)
  }

  function Escalate(stored: Entry, mem: Row, now: Time, stamp: Time): Entry {
    if mem.policy.fallbackChannels == [] then MarkDeadLetter(stored, mem, "no_fallback_channels", now, stamp)
    else if EscalationPending !in ValidTransitions(mem.state) then stored
    else Saved(stored, Advance(mem, EscalationPending, now),
               EscalationTriggered("deadline_passed", mem.policy.fallbackChannels), stamp)
  }

  function Enqueue(e: Entry, now: Time, stamp: Time): Entry {
    if Queued !in ValidTransitions(e.row.state) then e
    else Saved(e, Advance(e.row, Queued, now), QueuedEvent, stamp)
  }

  function PrimaryCall(r: Row): Call {
    Call(r.policy.primaryChannel, r.recipient, r.content, r.id, r.policy.priority, false)
  }

  function FallbackCall(r: Row, channel: string): Call {
    Call(channel, r.recipient, r.content, r.id, r.policy.priority, true)
  }

  // The part of a delivery after the channel has answered.
  function Delivered(stored: Entry, mem: Row, result: SendResult, now: Time, stamp: Time): Entry
    requires mem.state == Sending
  {
    var channel := mem.policy.primaryChannel;
    if result.success then
      var taken := mem.(sentAt := Some(now), externalMessageId := result.externalMessageId);
      Saved(stored, Advance(taken, SentToChannel, now), SendSuccess(channel, result.externalMessageId), stamp)
    else if mem.policy.fallbackChannels != [] then
      var sent := Advance(mem.(sentAt := Some(now)), SentToChannel, now);
      Escalate(Saved(stored, sent, SendFailed(Some(channel), result.error), stamp), sent, now, stamp)
    else
      MarkFailed(stored, mem, ErrorOr(result.error, "unknown error"), now, stamp)
  }

  function SendPrimary(stored: Entry, mem: Row, now: Time, env: Env): Effect
    requires mem.state == Sending
  {
    var channel := mem.policy.primaryChannel;
    match env.LinkTo(PrimaryCall(mem))
    case Unregistered =>
      Done(MarkFailed(stored, mem, "Channel '" + channel + "' not available", now, env.stamp), false)
    case Threw => Aborts
    case Answered(result) =>
      Done(Delivered(Recorded(stored, SendAttempt(channel, result)), mem, result, now, env.stamp), true)
  }

  function Deliver(e: Entry, now: Time, env: Env): Effect {
    if Sending !in ValidTransitions(e.row.state) then Done(e, false)
    else
      var sending := Advance(e.row, Sending, now);
      SendPrimary(Saved(e, sending, SendingEvent(e.row.policy.primaryChannel), env.stamp), sending, now, env)
  }

  function Acknowledge(e: Entry, now: Time, stamp: Time): Entry {
    if e.row.state == SentToChannel then
      Saved(e, Advance(e.row, Acknowledged, now), AckReceived(now, None), stamp)
    else
      Saved(e, e.row.(acknowledgedAt := Some(now)), AckReceived(now, Some(e.row.state)), stamp)
  }

  function Defer(stored: Entry, mem: Row, channel: string, at: Time, error: string, now: Time, stamp: Time): Entry {
    if EscalationDeferred !in ValidTransitions(mem.state) then stored
    else Saved(stored, Advance(mem.(nextRetryAt := Some(at)), EscalationDeferred, now),
               EscalationDeferredEvent(channel, mem.retryCount, at, error), stamp)
  }

  function FallbackFailed(p: RetryPolicy, stored: Entry, mem: Row, channel: string, error: string, now: Time,
                          stamp: Time, u: Unit): Entry
    requires mem.state == FallbackSending
  {
    var failures := mem.retryCount + 1;
    var failed := mem.(lastError := Some(error), retryCount := failures);
    if p.ShouldRetry(failures) then Defer(stored, failed, channel, now + p.Delay(failures - 1, u), error, now, stamp)
    else MarkDeadLetter(stored, failed, error, now, stamp)
  }

  // The part of a fallback attempt after the channel has answered.
  function FellBack(p: RetryPolicy, stored: Entry, mem: Row, channel: string, result: SendResult, now: Time,
                    stamp: Time, u: Unit): Entry
    requires mem.state == FallbackSending
  {
    if result.success then
      var taken := mem.(externalMessageId := result.externalMessageId);
      Saved(stored, Advance(taken, FallbackDelivered, now), FallbackSuccess(channel), stamp)
    else
      var error := "fallback send failed: " + ErrorOr(result.error, "unknown");
      FallbackFailed(p, stored, mem, channel, error, now, stamp, u)
  }

  function SendFallback(p: RetryPolicy, stored: Entry, mem: Row, channel: string, now: Time, env: Env, u: Unit): Effect
    requires mem.state == FallbackSending
  {
    match env.LinkTo(FallbackCall(mem, channel))
    case Unregistered =>
      Done(MarkDeadLetter(stored, mem, "fallback channel '" + channel + "' not available", now, env.stamp), false)
    case Threw => Aborts
    case Answered(result) =>
      var answered := Recorded(stored, FallbackAttempt(channel, Some(result)));
      Done(FellBack(p, answered, mem, channel, result, now, env.stamp, u), true)
  }

  function Fallback(p: RetryPolicy, e: Entry, channel: string, now: Time, env: Env, u: Unit): Effect {
    if e.row.state != EscalationPending then Done(e, false)
    else
      var sending := Advance(e.row, FallbackSending, now);
      SendFallback(p, Saved(e, sending, FallbackAttempt(channel, None), env.stamp), sending, channel, now, env, u)
  }

  // What a submission asks for.
  datatype Request = Request(
    sender: string,
    recipient: string,
    content: string,
    policy: Policy,
    key: Option<string>)

  function NewRow(req: Request, id: string, now: Time): Row {
    Row(id, req.sender, req.recipient, req.content, req.policy, req.key, now, Pending, now, None, None, None,
        Some(DeadlineAfter(req.policy, now)), None, 0, None, None)
  }
}
