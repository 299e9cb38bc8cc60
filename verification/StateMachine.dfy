// app/domain/state_machine.py: guarded mutation of a record.
module StateMachine {
  import opened Wrappers
  import opened MessageStates
  import opened Messages

  // The row a legal move to `next` at time `now` leaves behind.
  function Advance(r: Row, next: State, now: Time): Row {
    var moved := r.(state := next, updatedAt := now);
    if next == Acknowledged then moved.(acknowledgedAt := Some(now))
    else if next == EscalationPending then moved.(escalatedAt := Some(now))
    else moved
  }

  // `moved` is false where the source raises StateTransitionError; the record is then untouched.
  // `wall` is what datetime.utcnow() reads.
  method ApplyTransition(m: MessageRecord, next: State, now: Option<Time>, wall: Time) returns (moved: bool)
    modifies m
    ensures moved <==> next in ValidTransitions(old(m.state))
    ensures !moved ==> m.AsRow() == old(m.AsRow())
    ensures moved && now.Some? ==> m.AsRow() == Advance(old(m.AsRow()), next, now.value)
    ensures moved && now.None? ==>
      m.AsRow() == Advance(old(m.AsRow()), next, wall).(updatedAt := old(m.updatedAt))
  {
    match TransitionState(m.state, next) {
      case None => return false;
      case Some(s) => m.state := s;
    }
    if now.Some? {
      m.updatedAt := now.value;
    }
    if next == Acknowledged {
      m.acknowledgedAt := Some(if now.Some? then now.value else wall);
    } else if next == EscalationPending {
      m.escalatedAt := Some(if now.Some? then now.value else wall);
    }
    return true;
  }

  // The guarded way to record a late acknowledgement. The processor does not use it. Without a time
  // given it reads datetime.utcnow() twice: first `wall`, then `later`.
  method RecordAcknowledgement(m: MessageRecord, now: Option<Time>, wall: Time, later: Time) returns (recorded: bool)
    modifies m
    ensures recorded <==> !Terminal(old(m.state))
    ensures !recorded ==> m.AsRow() == old(m.AsRow())
    ensures recorded ==>
      m.AsRow() == old(m.AsRow()).(acknowledgedAt := Some(if now.Some? then now.value else wall),
                                   updatedAt := if now.Some? then now.value else later)
  {
    RecordableIffNotTerminal(m.state);
    if !CanRecordAcknowledgement(m.state) {
      return false;
    }
    m.acknowledgedAt := Some(if now.Some? then now.value else wall);
    m.updatedAt := if now.Some? then now.value else later;
    return true;
  }
}
