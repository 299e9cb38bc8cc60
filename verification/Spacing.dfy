// The spacing of fallback attempts over whole runs: whatever passes, admin steps,
// acknowledgements and rollbacks come in between, the backoff policy is kept.
module Spacing {
  import opened Wrappers
  import opened MessageStates
  import opened Messages
  import opened StateMachine
  import opened RetryPolicies
  import opened Channels
  import opened Events
  import opened Storage
  import opened Lifecycle
  import opened Operations
  import opened Audit
  import opened Invariants
  import opened Runs

  // When a committed operation begins a fallback attempt for message `id`.
  function StartOf(op: Op, id: string, e: Entry): seq<Time> {
    match op
    case FallbackPass(env) =>
      if e.row.state == EscalationPending && e.row.policy.fallbackChannels != [] then [env.clock(id)] else []
    case AdminRetryFallback(target, _, env) =>
      if id == target && e.row.state == EscalationPending then [env.clock(id)] else []
    case _ => []
  }

  function StartsIn(w: World, act: Act, id: string): seq<Time> {
    if act.Commit? && id in w.db then StartOf(act.op, id, w.db[id]) else []
  }

  // The times at which the fallback attempts of message `id` began, among the first n steps.
  ghost function Starts(ws: seq<World>, acts: seq<Act>, id: string, n: nat): seq<Time>
    requires n <= |acts| < |ws|
  {
    if n == 0 then []
    else
      Starts(ws, acts, id, n - 1) + StartsIn(ws[n - 1], acts[n - 1], id)
  }

  lemma StartsOneMore()
    ensures forall log, event {:trigger Replay(log + [event])} ::
      Replay(log + [event]).fallbackStarts ==
      Replay(log).fallbackStarts + if event.FallbackAttempt? && event.outcome.None? then 1 else 0
  {
    forall log: seq<Event>, event: Event
      ensures Replay(log + [event]).fallbackStarts ==
              Replay(log).fallbackStarts + if event.FallbackAttempt? && event.outcome.None? then 1 else 0
    {
      ReplayOneMore(log, event);
    }
  }

  lemma DeliveredStartsNothing(e: Entry, mem: Row, result: SendResult, now: Time, stamp: Time)
    requires mem.state == Sending && mem.retryCount == e.row.retryCount
    ensures Replay(Delivered(e, mem, result, now, stamp).log).fallbackStarts == Replay(e.log).fallbackStarts
    ensures Delivered(e, mem, result, now, stamp).row.retryCount == e.row.retryCount
  {
    hide Replay;
    StartsOneMore();
  }

  lemma SendPrimaryStartsNothing(e: Entry, mem: Row, now: Time, env: Env)
    requires mem.state == Sending && mem.retryCount == e.row.retryCount && SendPrimary(e, mem, now, env).Done?
    ensures Replay(SendPrimary(e, mem, now, env).entry.log).fallbackStarts == Replay(e.log).fallbackStarts
    ensures SendPrimary(e, mem, now, env).entry.row.retryCount == e.row.retryCount
  {
    hide Replay, Delivered;
    StartsOneMore();
    match env.LinkTo(PrimaryCall(mem))
    case Answered(result) =>
      var answered := Recorded(e, SendAttempt(mem.policy.primaryChannel, result));
      DeliveredStartsNothing(answered, mem, result, now, env.stamp);
    case _ =>
  }

  lemma DeliverStartsNothing(e: Entry, now: Time, env: Env)
    requires Deliver(e, now, env).Done?
    ensures Replay(Deliver(e, now, env).entry.log).fallbackStarts == Replay(e.log).fallbackStarts
    ensures Deliver(e, now, env).entry.row.retryCount == e.row.retryCount
    ensures e.row.state != Queued ==> Deliver(e, now, env).entry == e
  {
    hide Replay, SendPrimary;
    StartsOneMore();
    if e.row.state == Queued {
      var sending := Advance(e.row, Sending, now);
      var stored := Saved(e, sending, SendingEvent(e.row.policy.primaryChannel), env.stamp);
      SendPrimaryStartsNothing(stored, sending, now, env);
    }
  }

  lemma EscalateStartsNothing(e: Entry, now: Time, stamp: Time)
    ensures var e' := Escalate(e, e.row, now, stamp);
            && Replay(e'.log).fallbackStarts == Replay(e.log).fallbackStarts
            && e'.row.retryCount == e.row.retryCount && e'.row.nextRetryAt == e.row.nextRetryAt
            && (e' == e || e'.row.state == DeadLetter
                || (e'.row.state == EscalationPending && e.row.state in {SentToChannel, EscalationDeferred}))
  {
    hide Replay;
    StartsOneMore();
  }

  lemma AcknowledgeStartsNothing(e: Entry, now: Time, stamp: Time)
    ensures var e' := Acknowledge(e, now, stamp);
            && Replay(e'.log).fallbackStarts == Replay(e.log).fallbackStarts
            && e'.row.retryCount == e.row.retryCount && e'.row.nextRetryAt == e.row.nextRetryAt
            && (e'.row.state == e.row.state || e'.row.state == Acknowledged)
  {
    hide Replay;
    StartsOneMore();
  }

  // How a fallback attempt begun at `now` leaves a row: settled, or deferred by the backoff of the
  // failures before it.
  predicate EndsOrDefers(p: RetryPolicy, r: Row, r': Row, now: Time, u: Unit) {
    || r'.state in {FallbackDelivered, DeadLetter}
    || (&& r'.state == EscalationDeferred
        && r'.retryCount == r.retryCount + 1
        && r'.nextRetryAt == Some(now + p.Delay(r.retryCount, u)))
  }

  lemma FellBackOutcome(p: RetryPolicy, stored: Entry, mem: Row, channel: string, result: SendResult, now: Time,
                        stamp: Time, u: Unit)
    requires mem.state == FallbackSending
    ensures var e' := FellBack(p, stored, mem, channel, result, now, stamp, u);
            Replay(e'.log).fallbackStarts == Replay(stored.log).fallbackStarts && EndsOrDefers(p, mem, e'.row, now, u)
  {
    hide Replay, RetryPolicy.Delay;
    StartsOneMore();
  }

  lemma SendFallbackOutcome(p: RetryPolicy, stored: Entry, mem: Row, channel: string, now: Time, env: Env, u: Unit)
    requires mem.state == FallbackSending && SendFallback(p, stored, mem, channel, now, env, u).Done?
    ensures var e' := SendFallback(p, stored, mem, channel, now, env, u).entry;
            Replay(e'.log).fallbackStarts == Replay(stored.log).fallbackStarts && EndsOrDefers(p, mem, e'.row, now, u)
  {
    hide Replay, FellBack, RetryPolicy.Delay;
    StartsOneMore();
    match env.LinkTo(FallbackCall(mem, channel))
    case Answered(result) =>
      var answered := Recorded(stored, FallbackAttempt(channel, Some(result)));
      FellBackOutcome(p, answered, mem, channel, result, now, env.stamp, u);
    case _ =>
  }

  // A fallback attempt is one start, and one end or one more failure.
  lemma FallbackStarts(p: RetryPolicy, e: Entry, channel: string, now: Time, env: Env, u: Unit)
    requires e.row.state == EscalationPending && Fallback(p, e, channel, now, env, u).Done?
    ensures var e' := Fallback(p, e, channel, now, env, u).entry;
            && Replay(e'.log).fallbackStarts == Replay(e.log).fallbackStarts + 1
            && EndsOrDefers(p, e.row, e'.row, now, u)
  {
    hide Replay, SendFallback;
    StartsOneMore();
    var mem := Advance(e.row, FallbackSending, now);
    SendFallbackOutcome(p, Saved(e, mem, FallbackAttempt(channel, None), env.stamp), mem, channel, now, env, u);
  }

  // The starts of a message fit its row, its log and the clock.
  ghost predicate Spaced(p: RetryPolicy, e: Entry, starts: seq<Time>, clock: Time) {
    var r := e.row;
    && |starts| == Replay(e.log).fallbackStarts
    && (forall j :: 0 < j < |starts| ==> starts[j] >= starts[j - 1] + p.Backoff(j - 1))
    && (Open(r.state) && r.retryCount >= 1 ==>
          && |starts| == r.retryCount && r.nextRetryAt.Some?
          && r.nextRetryAt.value >= starts[r.retryCount - 1] + p.Backoff(r.retryCount - 1)
          && (r.state == EscalationPending ==> r.nextRetryAt.value <= clock))
  }

  // What an operation that starts no fallback attempt can do.
  lemma OtherEffects(p: RetryPolicy, op: Op, id: string, e: Entry)
    requires RowInv(p, e.row) && EffectOn(p, op, id, e).Done? && StartOf(op, id, e) == []
    ensures var e' := After(p, op, id, e);
            && Replay(e'.log).fallbackStarts == Replay(e.log).fallbackStarts
            && (Open(e'.row.state) && e'.row.retryCount >= 1 ==>
                  && Open(e.row.state) && e'.row.retryCount == e.row.retryCount
                  && e'.row.nextRetryAt == e.row.nextRetryAt
                  && (e'.row.state == e.row.state || (op.RetryPass? && DueForRetry(e.row, op.now))))
  {
    hide Replay, Deliver, SendFallback, Lifecycle.Escalate, Acknowledge;
    StartsOneMore();
    match op
    case Process(target, queuedAt, env) =>
      if id == target {
        var queued := Enqueue(e, queuedAt, env.stamp);
        DeliverStartsNothing(queued, env.clock(id), env);
      }
    case Acknowledgement(_, at, stamp) => AcknowledgeStartsNothing(e, at, stamp);
    case DeadlinePass(now, stamp) => EscalateStartsNothing(e, now, stamp);
    case AdminEscalate(_, now, stamp) => EscalateStartsNothing(e, now, stamp);
    case RetryPass(now, env) => EscalateStartsNothing(e, now, env.stamp);
    case _ =>
  }

  lemma EscalatedStarts(p: RetryPolicy, e: Entry)
    requires Inv(p, e, MaxMoves(p)) && Open(e.row.state)
    ensures Replay(e.log).fallbackStarts == e.row.retryCount
  {
  }

  lemma StartSpaced(p: RetryPolicy, op: Op, id: string, e: Entry, starts: seq<Time>, clock: Time, later: Time)
    requires p.Sane() && Inv(p, e, MaxMoves(p)) && Spaced(p, e, starts, clock)
    requires EffectOn(p, op, id, e).Done? && StartOf(op, id, e) != []
    requires clock <= StartOf(op, id, e)[0] <= later
    ensures Spaced(p, After(p, op, id, e), starts + StartOf(op, id, e), later)
  {
    hide RetryPolicy.Backoff, RetryPolicy.Delay, Lifecycle.Fallback, Replay;
    var env := op.env;
    var channel := if op.FallbackPass? then e.row.policy.fallbackChannels[0] else op.channel;
    FallbackStarts(p, e, channel, env.clock(id), env, env.jitter(id));
    JitterBounds(p, e.row.retryCount, env.jitter(id));
    EscalatedStarts(p, e);
  }

  lemma LaterClock(p: RetryPolicy, e: Entry, starts: seq<Time>, clock: Time, later: Time)
    requires Spaced(p, e, starts, clock) && clock <= later
    ensures Spaced(p, e, starts, later)
  {
  }

  lemma OtherSpaced(p: RetryPolicy, op: Op, id: string, e: Entry, starts: seq<Time>, clock: Time, later: Time)
    requires Inv(p, e, MaxMoves(p)) && Spaced(p, e, starts, clock) && clock <= later
    requires EffectOn(p, op, id, e).Done? && StartOf(op, id, e) == []
    requires op.RetryPass? ==> op.now <= later
    ensures Spaced(p, After(p, op, id, e), starts, later)
  {
    hide RetryPolicy.Backoff, Replay, EffectOn, LogInv;
    OtherEffects(p, op, id, e);
  }

  lemma StepSpaced(p: RetryPolicy, w: World, act: Act, w': World, id: string, starts: seq<Time>)
    requires p.Sane() && WorldInv(p, w) && Step(p, w, act, w') && id in w.db
    requires Spaced(p, w.db[id], starts, w.clock)
    ensures id in w'.db
    ensures Spaced(p, w'.db[id], starts + StartsIn(w, act, id), w'.clock)
  {
    hide RetryPolicy.Backoff, EffectOn, Inv, Committed, Aborted, Spaced;
    var e := w.db[id];
    StepOnEntry(p, w, act, w', id);
    if act.Commit? && StartOf(act.op, id, e) != [] {
      StartSpaced(p, act.op, id, e, starts, w.clock, w'.clock);
    } else {
      assert starts + [] == starts;
      if act.Commit? && !act.op.Create? {
        OtherSpaced(p, act.op, id, e, starts, w.clock, w'.clock);
      } else {
        LaterClock(p, e, starts, w.clock, w'.clock);
      }
    }
  }

  lemma NewSpaced(p: RetryPolicy, w: World, act: Act, w': World, id: string)
    requires Step(p, w, act, w') && id !in w.db
    ensures StartsIn(w, act, id) == []
    ensures id in w'.db ==> Spaced(p, w'.db[id], [], w'.clock)
  {
    hide EffectOn;
  }

  lemma {:induction false} RunSpaced(p: RetryPolicy, ws: seq<World>, acts: seq<Act>, id: string, n: nat)
    requires p.Sane() && IsRun(p, ws, acts) && n <= |acts|
    ensures id in ws[n].db ==> Spaced(p, ws[n].db[id], Starts(ws, acts, id, n), ws[n].clock)
    ensures id !in ws[n].db ==> Starts(ws, acts, id, n) == []
  {
    hide Spaced, WorldInv, StartsIn, Step, RetryPolicy.Sane;
    if n > 0 {
      RunSpaced(p, ws, acts, id, n - 1);
      RunInv(p, ws, acts, n - 1);
      var w, act, w' := ws[n - 1], acts[n - 1], ws[n];
      var before := Starts(ws, acts, id, n - 1);
      if id in w.db {
        StepSpaced(p, w, act, w', id, before);
      } else {
        NewSpaced(p, w, act, w', id);
        assert before + [] == [];
      }
    }
  }

  lemma {:induction false} SumOfGaps(p: RetryPolicy, starts: seq<Time>, i: nat, j: nat)
    requires i <= j < |starts|
    requires forall k :: 0 < k < |starts| ==> starts[k] >= starts[k - 1] + p.Backoff(k - 1)
    ensures starts[j] >= starts[i] + TotalBackoff(p, i, j)
    decreases j
  {
    if i < j {
      SumOfGaps(p, starts, i, j - 1);
    }
  }

  lemma AllGaps(p: RetryPolicy, starts: seq<Time>)
    requires forall k :: 0 < k < |starts| ==> starts[k] >= starts[k - 1] + p.Backoff(k - 1)
    ensures forall i, j :: 0 <= i <= j < |starts| ==> starts[j] >= starts[i] + TotalBackoff(p, i, j)
  {
    forall i, j | 0 <= i <= j < |starts|
      ensures starts[j] >= starts[i] + TotalBackoff(p, i, j)
    {
      SumOfGaps(p, starts, i, j);
    }
  }

  // There are as many starts as the audit log records, and attempt j begins no earlier than
  // attempt i plus the backoffs i, ..., j - 1.
  lemma AttemptsAreSpaced(p: RetryPolicy, ws: seq<World>, acts: seq<Act>, id: string, n: nat)
    requires p.Sane() && IsRun(p, ws, acts) && n <= |acts| && id in ws[n].db
    ensures var starts := Starts(ws, acts, id, n);
            && |starts| == Replay(ws[n].db[id].log).fallbackStarts <= MaxSends(p)
            && forall i, j :: 0 <= i <= j < |starts| ==> starts[j] >= starts[i] + TotalBackoff(p, i, j)
  {
    RunSpaced(p, ws, acts, id, n);
    RunInv(p, ws, acts, n);
    var e := ws[n].db[id];
    assert Inv(p, e, MaxMoves(p));
    AllGaps(p, Starts(ws, acts, id, n));
  }
}
