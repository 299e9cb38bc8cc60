// app/domain/message_state.py: the states of a message and the table of legal moves.
module MessageStates {
  import opened Wrappers

  datatype State =
    | Pending
    | Queued
    | Sending
    | SentToChannel
    | Acknowledged
    | EscalationPending
    | FallbackSending
    | FallbackDelivered
    | Failed
    | DeadLetter
    | EscalationDeferred

  function ValidTransitions(s: State): set<State> {
    match s
    case Pending => {Queued, Failed}
    case Queued => {Sending, Failed}
    case Sending => {SentToChannel, Failed}
    case SentToChannel => {Acknowledged, EscalationPending, Failed}
    case Acknowledged => {}
    case EscalationPending => {FallbackSending, EscalationDeferred, Failed}
    case FallbackSending => {FallbackDelivered, DeadLetter, EscalationDeferred, Failed}
    case FallbackDelivered => {}
    case Failed => {}
    case DeadLetter => {}
    case EscalationDeferred => {EscalationPending, Failed, DeadLetter}
  }

  // Every state but the four terminal ones may fail; there are twelve other moves.
  lemma LegalMoves(s: State, next: State)
    ensures next in ValidTransitions(s) <==>
            || (next == Failed && s !in {Acknowledged, FallbackDelivered, Failed, DeadLetter})
            || (s, next) in {(Pending, Queued), (Queued, Sending), (Sending, SentToChannel),
                             (SentToChannel, Acknowledged), (SentToChannel, EscalationPending),
                             (EscalationPending, FallbackSending), (EscalationPending, EscalationDeferred),
                             (FallbackSending, FallbackDelivered), (FallbackSending, DeadLetter),
                             (FallbackSending, EscalationDeferred), (EscalationDeferred, EscalationPending),
                             (EscalationDeferred, DeadLetter)}
  {
  }

  // None where the source raises ValueError.
  function TransitionState(current: State, next: State): Option<State> {
    if next in ValidTransitions(current) then Some(next) else None
  }

  predicate CanRecordAcknowledgement(s: State) {
    s !in {Acknowledged, FallbackDelivered, Failed, DeadLetter}
  }

  predicate Terminal(s: State) {
    ValidTransitions(s) == {}
  }

  // The two tables of the file agree: an acknowledgement may be recorded exactly where some move is left.
  lemma RecordableIffNotTerminal(s: State)
    ensures CanRecordAcknowledgement(s) <==> !Terminal(s)
  {
  }

  // Legal walks through the table.
  ghost predicate IsPath(path: seq<State>) {
    && path != []
    && path[0] == Pending
    && forall i :: 0 <= i < |path| - 1 ==> path[i + 1] in ValidTransitions(path[i])
  }

  function Lap(n: nat): seq<State> {
    if n == 0 then [] else Lap(n - 1) + [FallbackSending, EscalationDeferred, EscalationPending]
  }

  // The table alone bounds nothing: it admits walks of every length, so any bound on a
  // message's moves must come from the retry counter.
  lemma {:induction false} TableAdmitsUnboundedWalks(n: nat)
    ensures var path := [Pending, Queued, Sending, SentToChannel, EscalationPending] + Lap(n);
            IsPath(path) && |path| == 5 + 3 * n && path[|path| - 1] == EscalationPending
  {
    if n > 0 {
      TableAdmitsUnboundedWalks(n - 1);
      var prefix := [Pending, Queued, Sending, SentToChannel, EscalationPending] + Lap(n - 1);
      var path := prefix + [FallbackSending, EscalationDeferred, EscalationPending];
      assert [Pending, Queued, Sending, SentToChannel, EscalationPending] + Lap(n) == path;
      forall i | 0 <= i < |path| - 1
        ensures path[i + 1] in ValidTransitions(path[i])
      {
        if i < |prefix| - 1 {
          assert path[i] == prefix[i] && path[i + 1] == prefix[i + 1];
        } else if i == |prefix| - 1 {
          assert path[i] == EscalationPending && path[i + 1] == FallbackSending;
        } else if i == |prefix| {
          assert path[i] == FallbackSending && path[i + 1] == EscalationDeferred;
        } else {
          assert path[i] == EscalationDeferred && path[i + 1] == EscalationPending;
        }
      }
    }
  }
}
