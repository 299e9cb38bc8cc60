// What the audit log of a message says on its own. Replay reads nothing but the events; it is
// written without reference to the processor, and tells the payload shapes apart.
module Audit {
  import opened Wrappers
  import opened MessageStates
  import opened Events

  datatype View = View(
    state: State,
    retryCount: nat,
    nextRetryAt: Option<Time>,
    acknowledgedAt: Option<Time>,
    lastError: Option<string>,
    externalMessageId: Option<string>,
    moves: nat,           // state changes so far
    legal: bool,          // all of them are in the transition table
    primarySends: nat,    // answered calls to the primary channel
    fallbackSends: nat,   // answered calls to fallback channels
    fallbackStarts: nat)  // fallback attempts begun, with or without a configured channel

  const NEW_VIEW := View(Pending, 0, None, None, None, None, 0, true, 0, 0, 0)

  function Move(v: View, next: State): View {
    v.(state := next, moves := v.moves + 1, legal := v.legal && next in ValidTransitions(v.state))
  }

  function Absorb(v: View, event: Event): View {
    match event
    case QueuedEvent => Move(v, Queued)
    case SendingEvent(_) => Move(v, Sending)
    case SendAttempt(_, _) => v.(primarySends := v.primarySends + 1)
    case SendSuccess(_, ext) => Move(v, SentToChannel).(externalMessageId := ext)
    case SendFailed(Some(_), _) => Move(v, SentToChannel)
    case SendFailed(None, error) => Move(v, Failed).(lastError := error)
    case AckReceived(at, None) => Move(v, Acknowledged).(acknowledgedAt := Some(at))
    case AckReceived(at, Some(_)) => v.(acknowledgedAt := Some(at))
    case EscalationTriggered(_, _) => Move(v, EscalationPending)
    case EscalationDeferredEvent(_, _, at, error) =>
      Move(v, EscalationDeferred).(nextRetryAt := Some(at), lastError := Some(error))
    case FallbackAttempt(_, None) => Move(v, FallbackSending).(fallbackStarts := v.fallbackStarts + 1)
    case FallbackAttempt(_, Some(result)) =>
      var sent := v.(fallbackSends := v.fallbackSends + 1);
      if result.success then sent.(externalMessageId := result.externalMessageId)
      else sent.(retryCount := v.retryCount + 1)
    case FallbackSuccess(_) => Move(v, FallbackDelivered)
    case DeadLetterEvent(reason) => Move(v, DeadLetter).(lastError := Some(reason))
  }

  function Replay(log: seq<Event>): View {
    if log == [] then NEW_VIEW else Absorb(Replay(log[..|log| - 1]), log[|log| - 1])
  }

  lemma ReplayOneMore(log: seq<Event>, event: Event)
    ensures Replay(log + [event]) == Absorb(Replay(log), event)
  {
    assert (log + [event])[..|log|] == log;
  }

  lemma OneMoveAtMost(v: View, event: Event)
    ensures var v' := Absorb(v, event);
            || (v'.moves == v.moves && v'.state == v.state && v'.legal == v.legal)
            || (v'.moves == v.moves + 1 && v'.legal == (v.legal && v'.state in ValidTransitions(v.state)))
  {
  }

  lemma LongerPath(path: seq<State>, next: State)
    requires IsPath(path) && next in ValidTransitions(path[|path| - 1])
    ensures IsPath(path + [next])
  {
  }

  // The states the log leads through.
  function Path(log: seq<Event>): seq<State> {
    if log == [] then [Pending]
    else
      var before, after := Replay(log[..|log| - 1]), Replay(log);
      Path(log[..|log| - 1]) + if after.moves > before.moves then [after.state] else []
  }

  lemma {:induction false} PathOfReplay(log: seq<Event>)
    ensures var v := Replay(log);
            && |Path(log)| == v.moves + 1
            && Path(log)[v.moves] == v.state
            && (v.legal ==> IsPath(Path(log)))
  {
    hide Absorb;
    if log != [] {
      var before, v := Replay(log[..|log| - 1]), Replay(log);
      PathOfReplay(log[..|log| - 1]);
      OneMoveAtMost(before, log[|log| - 1]);
      if v.moves > before.moves && v.legal {
        LongerPath(Path(log[..|log| - 1]), v.state);
      }
    }
  }

  // A longer log leads along a longer path.
  lemma {:induction false} PathExtends(log: seq<Event>, log': seq<Event>)
    requires log <= log'
    ensures Path(log) <= Path(log')
  {
    if log != log' {
      PathExtends(log, log'[..|log'| - 1]);
    }
  }
}
