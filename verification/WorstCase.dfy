// The bounds of the run theorems are reached, by requests and passes as the system makes them. For
// every policy there is a run in which a message makes the most moves and the most recorded sends;
// so the policy allows maxRetries fallback sends, one fewer than "retries after the initial attempt"
// promises. And for every n there is a run with n fallback calls that the audit log knows nothing of.
module WorstCase {
  import opened Wrappers
  import opened MessageStates
  import opened Messages
  import opened StateMachine
  import opened RetryPolicies
  import opened Channels
  import opened Events
  import opened Storage
  import opened Lifecycle
  import opened Operations
  import opened Audit
  import opened Invariants
  import opened Runs
  import opened Theorems
  import opened Requests

  const FAILURE := SendResult(false, None, None)

  // All channels of the message are configured, and none ever delivers.
  function Failing(policy: Policy, now: Time): Env
    requires policy.fallbackChannels != []
  {
    Env({policy.primaryChannel, policy.fallbackChannels[0]}, _ => Reply.Answered(FAILURE),
        _ => now, _ => 0.0, now)
  }

  // The world after the first submission.
  function NewWorld(req: Request, id: string): World {
    World(map[id := Entry(NewRow(req, id, 0.0), [])], multiset{}, multiset{}, 0.0)
  }

  // Commit one operation in a world of a single message.
  lemma CommitOn(p: RetryPolicy, w: World, id: string, op: Op, now: Time) returns (w': World)
    requires w.db.Keys == {id} && !op.Create? && w.clock <= now && Timely(op, w.db, w.clock, now)
    requires EffectOn(p, op, id, w.db[id]).Done?
    ensures Step(p, w, Commit(op), w')
    ensures var eff := EffectOn(p, op, id, w.db[id]);
            && w'.db.Keys == {id} && w'.db[id] == eff.entry && w'.clock == now && w'.lost == w.lost
            && w'.sends[id] == w.sends[id] + if eff.called then 1 else 0
  {
    hide EffectOn;
    w' := World(Pointwise(p, op, w.db), w.sends + Calls(id, EffectOn(p, op, id, w.db[id])), w.lost, now);
    assert forall other :: w'.sends[other] == w.sends[other] + CallCount(p, op, other, w.db);
  }

  // Abort one operation that calls a channel for the only message.
  lemma AbortOn(p: RetryPolicy, w: World, id: string, op: Op) returns (w': World)
    requires w.db.Keys == {id} && !op.Create? && Timely(op, w.db, w.clock, w.clock)
    requires EffectOn(p, op, id, w.db[id]).Aborts?
    ensures Step(p, w, Abort(op), w')
    ensures w' == World(w.db, w.sends + multiset{id}, w.lost + multiset{id}, w.clock)
  {
    hide EffectOn;
    w' := World(w.db, w.sends + multiset{id}, w.lost + multiset{id}, w.clock);
    assert forall other :: CallCount(p, op, other, w.db) == if other == id then 1 else 0;
  }

  lemma NothingYet(p: RetryPolicy)
    ensures IsRequestRun(p, [World(map[], multiset{}, multiset{}, 0.0)], [])
  {
    hide Step;
    assert Made([World(map[], multiset{}, multiset{}, 0.0)], [], []);
  }

  lemma FirstSubmission(p: RetryPolicy, req: Request, id: string)
    ensures Step(p, World(map[], multiset{}, multiset{}, 0.0), Commit(Create(req, id, 0.0)), NewWorld(req, id))
  {
    hide EffectOn;
  }

  // A submission, and the first processing of its message.
  lemma FirstRequest(p: RetryPolicy, req: Request, id: string, act: Act, w: World)
    returns (ws: seq<World>, acts: seq<Act>)
    requires Step(p, NewWorld(req, id), act, w) && act.op.Process? && act.op.id == id
    ensures IsRequestRun(p, ws, acts) && acts == [Commit(Create(req, id, 0.0)), act]
    ensures |ws| == 3 && ws[1] == NewWorld(req, id) && ws[2] == w
  {
    hide Step, IsRequestRun;
    var w0, create := World(map[], multiset{}, multiset{}, 0.0), Commit(Create(req, id, 0.0));
    NothingYet(p);
    FirstSubmission(p, req, id);
    RequestContinues(p, [w0], [], create, NewWorld(req, id), act, w);
    ws, acts := [w0] + [NewWorld(req, id)] + [w], [] + [create] + [act];
  }

  // The two counters of the audit view that matter here.
  lemma MovesOneMore()
    ensures forall log, event {:trigger Replay(log + [event])} ::
      && Replay(log + [event]).moves ==
         Replay(log).moves + (if event.SendAttempt? || (event.AckReceived? && event.late.Some?)
                                 || (event.FallbackAttempt? && event.outcome.Some?) then 0 else 1)
      && Replay(log + [event]).fallbackSends ==
         Replay(log).fallbackSends + (if event.FallbackAttempt? && event.outcome.Some? then 1 else 0)
  {
    hide Replay;
    forall log: seq<Event>, event: Event
      ensures Replay(log + [event]) == Absorb(Replay(log), event)
    {
      ReplayOneMore(log, event);
    }
  }

  lemma FailingDelivered(stored: Entry, mem: Row, now: Time)
    requires mem.state == Sending && mem.policy.fallbackChannels != []
    ensures var e' := Delivered(stored, mem, FAILURE, now, now);
            && e'.row.state == EscalationPending && e'.row.policy == mem.policy
            && e'.row.retryCount == mem.retryCount
            && Replay(e'.log).moves == Replay(stored.log).moves + 2
            && Replay(e'.log).fallbackSends == Replay(stored.log).fallbackSends
  {
    hide Replay, Lifecycle.MarkFailed, Lifecycle.MarkDeadLetter;
    MovesOneMore();
  }

  lemma FailingSend(stored: Entry, mem: Row, now: Time)
    requires mem.state == Sending && mem.policy.fallbackChannels != []
    ensures var eff := SendPrimary(stored, mem, now, Failing(mem.policy, now));
            && eff.Done? && eff.called
            && eff.entry.row.state == EscalationPending && eff.entry.row.policy == mem.policy
            && eff.entry.row.retryCount == mem.retryCount
            && Replay(eff.entry.log).moves == Replay(stored.log).moves + 2
            && Replay(eff.entry.log).fallbackSends == Replay(stored.log).fallbackSends
  {
    hide Replay, Delivered;
    MovesOneMore();
    var answered := Recorded(stored, SendAttempt(mem.policy.primaryChannel, FAILURE));
    FailingDelivered(answered, mem, now);
  }

  lemma NothingReplayed()
    ensures Replay([]) == NEW_VIEW
  {
  }

  lemma FailingProcess(p: RetryPolicy, req: Request, id: string, now: Time)
    requires req.policy.fallbackChannels != []
    ensures var eff := EffectOn(p, Process(id, now, Failing(req.policy, now)), id, Entry(NewRow(req, id, now), []));
            && eff.Done? && eff.called
            && eff.entry.row.state == EscalationPending && eff.entry.row.policy == req.policy
            && eff.entry.row.retryCount == 0
            && Replay(eff.entry.log).moves == 4 && Replay(eff.entry.log).fallbackSends == 0
  {
    hide Replay, SendPrimary;
    MovesOneMore();
    NothingReplayed();
    var e, env := Entry(NewRow(req, id, now), []), Failing(req.policy, now);
    var queued := Enqueue(e, now, now);
    var sending := Advance(queued.row, Sending, now);
    var stored := Saved(queued, sending, SendingEvent(req.policy.primaryChannel), now);
    assert Replay(stored.log).moves == 2;
    FailingSend(stored, sending, now);
  }

  lemma FailingFellBack(p: RetryPolicy, stored: Entry, mem: Row, channel: string, now: Time)
    requires mem.state == FallbackSending
    ensures var e' := FellBack(p, stored, mem, channel, FAILURE, now, now, 0.0);
            && e'.row.policy == mem.policy && e'.row.retryCount == mem.retryCount + 1
            && (if p.ShouldRetry(mem.retryCount + 1)
                then e'.row.state == EscalationDeferred && e'.row.nextRetryAt.Some?
                else e'.row.state == DeadLetter)
            && Replay(e'.log).moves == Replay(stored.log).moves + 1
            && Replay(e'.log).fallbackSends == Replay(stored.log).fallbackSends
  {
    hide Replay, RetryPolicy.Delay;
    MovesOneMore();
  }

  lemma FailingFallback(p: RetryPolicy, id: string, e: Entry, now: Time)
    requires e.row.state == EscalationPending && e.row.policy.fallbackChannels != []
    ensures var eff := EffectOn(p, FallbackPass(Failing(e.row.policy, now)), id, e);
            && eff.Done? && eff.called
            && eff.entry.row.policy == e.row.policy && eff.entry.row.retryCount == e.row.retryCount + 1
            && (if p.ShouldRetry(e.row.retryCount + 1)
                then eff.entry.row.state == EscalationDeferred && eff.entry.row.nextRetryAt.Some?
                else eff.entry.row.state == DeadLetter)
            && Replay(eff.entry.log).moves == Replay(e.log).moves + 2
            && Replay(eff.entry.log).fallbackSends == Replay(e.log).fallbackSends + 1
  {
    hide Replay, FellBack;
    MovesOneMore();
    var channel, mem := e.row.policy.fallbackChannels[0], Advance(e.row, FallbackSending, now);
    var stored := Saved(e, mem, FallbackAttempt(channel, None), now);
    FailingFellBack(p, Recorded(stored, FallbackAttempt(channel, Some(FAILURE))), mem, channel, now);
  }

  lemma Reopening(p: RetryPolicy, id: string, e: Entry, now: Time, env: Env)
    requires e.row.state == EscalationDeferred && e.row.policy.fallbackChannels != [] && DueForRetry(e.row, now)
    ensures var eff := EffectOn(p, RetryPass(now, env), id, e);
            && eff.Done? && !eff.called
            && eff.entry.row.state == EscalationPending
            && eff.entry.row.policy == e.row.policy && eff.entry.row.retryCount == e.row.retryCount
            && Replay(eff.entry.log).moves == Replay(e.log).moves + 1
            && Replay(eff.entry.log).fallbackSends == Replay(e.log).fallbackSends
  {
    hide Replay;
    MovesOneMore();
  }

  ghost predicate AfterFailures(w: World, id: string, policy: Policy, n: nat) {
    && w.db.Keys == {id} && w.db[id].row.policy == policy
    && w.db[id].row.state == EscalationPending && w.db[id].row.retryCount == n
    && Replay(w.db[id].log).moves == 4 + 3 * n && Replay(w.db[id].log).fallbackSends == n
    && w.sends[id] == n + 1 && w.lost == multiset{}
  }

  // A failed fallback pass, and the retry pass that re-opens the message.
  lemma FailAgain(p: RetryPolicy, ws: seq<World>, acts: seq<Act>, id: string, policy: Policy, n: nat)
    returns (ws': seq<World>, acts': seq<Act>)
    requires IsRequestRun(p, ws, acts) && AfterFailures(ws[|acts|], id, policy, n)
    requires policy.fallbackChannels != [] && n + 1 < MaxSends(p)
    ensures IsRequestRun(p, ws', acts') && AfterFailures(ws'[|acts'|], id, policy, n + 1)
  {
    hide EffectOn, Step, Replay, Made;
    var w := ws[|acts|];
    FailingFallback(p, id, w.db[id], w.clock);
    var w1 := CommitOn(p, w, id, FallbackPass(Failing(policy, w.clock)), w.clock);
    AppendOther(p, ws, acts, Commit(FallbackPass(Failing(policy, w.clock))), w1);
    ws', acts' := ws + [w1], acts + [Commit(FallbackPass(Failing(policy, w.clock)))];
    var at := w1.db[id].row.nextRetryAt.value;
    var now := if at < w1.clock then w1.clock else at;
    Reopening(p, id, w1.db[id], now, Failing(policy, now));
    var w2 := CommitOn(p, w1, id, RetryPass(now, Failing(policy, now)), now);
    AppendOther(p, ws', acts', Commit(RetryPass(now, Failing(policy, now))), w2);
    ws', acts' := ws' + [w2], acts' + [Commit(RetryPass(now, Failing(policy, now)))];
  }

  lemma {:induction false} FailingRun(p: RetryPolicy, req: Request, id: string, n: nat)
    returns (ws: seq<World>, acts: seq<Act>)
    requires req.policy.fallbackChannels != [] && n < MaxSends(p)
    ensures IsRequestRun(p, ws, acts) && AfterFailures(ws[|acts|], id, req.policy, n)
    ensures n == 0 ==>
      acts == [Commit(Create(req, id, 0.0)), Commit(Process(id, 0.0, Failing(req.policy, 0.0)))]
  {
    hide EffectOn, Step;
    if n == 0 {
      var op := Process(id, 0.0, Failing(req.policy, 0.0));
      FailingProcess(p, req, id, 0.0);
      var w := CommitOn(p, NewWorld(req, id), id, op, 0.0);
      ws, acts := FirstRequest(p, req, id, Commit(op), w);
    } else {
      ws, acts := FailingRun(p, req, id, n - 1);
      ws, acts := FailAgain(p, ws, acts, id, req.policy, n - 1);
    }
  }

  lemma BoundsAreReached(p: RetryPolicy, req: Request, id: string) returns (ws: seq<World>, acts: seq<Act>)
    requires req.policy.fallbackChannels != []
    ensures IsRequestRun(p, ws, acts)
    ensures var w := ws[|acts|];
            && id in w.db && w.db[id].row.state == DeadLetter
            && Replay(w.db[id].log).moves == MaxMoves(p)
            && Replay(w.db[id].log).fallbackSends == MaxSends(p)
            && w.lost == multiset{} && w.sends[id] == 1 + MaxSends(p)
  {
    hide EffectOn, Step, Made, Replay;
    ws, acts := FailingRun(p, req, id, MaxSends(p) - 1);
    var w := ws[|acts|];
    FailingFallback(p, id, w.db[id], w.clock);
    var act := Commit(FallbackPass(Failing(req.policy, w.clock)));
    var w' := CommitOn(p, w, id, act.op, w.clock);
    AppendOther(p, ws, acts, act, w');
    ws, acts := ws + [w'], acts + [act];
  }

  // The fallback channel of the message is configured and raises.
  function Throwing(policy: Policy, now: Time): Env
    requires policy.fallbackChannels != []
  {
    Env({policy.fallbackChannels[0]}, _ => Reply.Threw, _ => now, _ => 0.0, now)
  }

  lemma ThrowingAborts(p: RetryPolicy, id: string, e: Entry, now: Time)
    requires e.row.state == EscalationPending && e.row.policy.fallbackChannels != []
    ensures EffectOn(p, FallbackPass(Throwing(e.row.policy, now)), id, e).Aborts?
  {
  }

  // A message escalated by a failed first send, and n fallback passes, each rolled back after its
  // call: no retry is counted, so the policy never ends it, and the audit log shows none of the calls.
  lemma {:induction false} LostRun(p: RetryPolicy, req: Request, id: string, n: nat)
    returns (ws: seq<World>, acts: seq<Act>)
    requires req.policy.fallbackChannels != []
    ensures IsRequestRun(p, ws, acts) && |acts| == n + 2
    ensures acts[..2] == [Commit(Create(req, id, 0.0)), Commit(Process(id, 0.0, Failing(req.policy, 0.0)))]
    ensures forall k :: 2 <= k < n + 2 ==> acts[k].Abort? && acts[k].op.FallbackPass?
    ensures var w := ws[n + 2];
            && w.db.Keys == {id} && w.db[id].row.state == EscalationPending && w.db[id].row.policy == req.policy
            && w.db[id].row.retryCount == 0
            && Replay(w.db[id].log).primarySends == 1 && Replay(w.db[id].log).fallbackSends == 0
            && w.sends[id] == n + 1 && w.lost[id] == n
  {
    hide EffectOn, Step, Made, Replay;
    if n == 0 {
      ws, acts := FailingRun(p, req, id, 0);
      SendsAreAccounted(p, ws, acts, |acts|, id);
    } else {
      ws, acts := LostRun(p, req, id, n - 1);
      var w := ws[|acts|];
      var act := Abort(FallbackPass(Throwing(req.policy, w.clock)));
      ThrowingAborts(p, id, w.db[id], w.clock);
      var w' := AbortOn(p, w, id, act.op);
      AppendOther(p, ws, acts, act, w');
      ws, acts := ws + [w'], acts + [act];
    }
  }
}
