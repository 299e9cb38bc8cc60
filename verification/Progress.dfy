// Liveness: enough rounds of a fallback pass followed by a retry pass settle every escalated
// message, whatever else is committed or rolled back in between.
module Progress {
  import opened Wrappers
  import opened MessageStates
  import opened Messages
  import opened RetryPolicies
  import opened Storage
  import opened Lifecycle
  import opened Operations
  import opened Invariants
  import opened Runs
  import opened Theorems
  import opened Spacing

  predicate Settled(s: State) {
    s in {FallbackDelivered, DeadLetter}
  }

  // At least k fallback sends have failed; before a retry pass, and ready for a fallback pass.
  predicate Ahead(r: Row, k: nat) {
    Settled(r.state) || (Open(r.state) && r.retryCount >= k)
  }

  predicate Ready(r: Row, k: nat) {
    || Settled(r.state)
    || (r.state == EscalationPending && r.retryCount >= k)
    || (r.state == EscalationDeferred && r.retryCount >= k + 1)
  }

  // All the ways an operation can take an escalated message on.
  lemma EscalatedEffects(p: RetryPolicy, op: Op, id: string, e: Entry)
    requires RowInv(p, e.row) && Open(e.row.state) && EffectOn(p, op, id, e).Done?
    ensures var r, r' := e.row, After(p, op, id, e).row;
            || (r'.state == r.state && r'.retryCount == r.retryCount)
            || (r.state == EscalationPending && Settled(r'.state))
            || (r.state == EscalationPending && r'.state == EscalationDeferred && r'.retryCount == r.retryCount + 1)
            || (r.state == EscalationDeferred && r'.state == EscalationPending && r'.retryCount == r.retryCount)
    ensures var r, r' := e.row, After(p, op, id, e).row;
            op.FallbackPass? && r.state == EscalationPending ==>
              Settled(r'.state) || (r'.state == EscalationDeferred && r'.retryCount == r.retryCount + 1)
    ensures var r, r' := e.row, After(p, op, id, e).row;
            op.RetryPass? && r.state == EscalationDeferred && r.nextRetryAt.Some? && r.nextRetryAt.value <= op.now ==>
              r'.state == EscalationPending && r'.retryCount == r.retryCount
  {
    hide SendFallback, RetryPolicy.Delay, Deliver;
    if op.Process? && op.id == id {
      DeliverStartsNothing(e, op.env.clock(id), op.env);
    }
    if e.row.state == EscalationPending {
      match op
      case FallbackPass(env) =>
        FallbackStarts(p, e, e.row.policy.fallbackChannels[0], env.clock(id), env, env.jitter(id));
      case AdminRetryFallback(target, channel, env) =>
        if id == target {
          FallbackStarts(p, e, channel, env.clock(id), env, env.jitter(id));
        }
      case _ =>
    }
  }

  ghost predicate Ripe(r: Row, now: Time) {
    r.state == EscalationDeferred ==> r.nextRetryAt.Some? && r.nextRetryAt.value <= now
  }

  lemma StepProgress(p: RetryPolicy, w: World, act: Act, w': World, id: string, k: nat)
    requires WorldInv(p, w) && Step(p, w, act, w') && id in w.db
    ensures id in w'.db
    ensures Ahead(w.db[id].row, k) ==> Ahead(w'.db[id].row, k)
    ensures Ready(w.db[id].row, k) ==> Ready(w'.db[id].row, k)
    ensures Ready(w.db[id].row, k) && act.Commit? && act.op.FallbackPass? ==> Ahead(w'.db[id].row, k + 1)
    ensures Ahead(w.db[id].row, k) && act.Commit? && act.op.RetryPass? && Ripe(w.db[id].row, act.op.now) ==>
      Ready(w'.db[id].row, k)
  {
    hide EffectOn, Step, LogInv;
    var e := w.db[id];
    StepOnEntry(p, w, act, w', id);
    assert Inv(p, e, MaxMoves(p));
    if Open(e.row.state) && act.Commit? && !act.op.Create? {
      EscalatedEffects(p, act.op, id, e);
    }
  }

  lemma {:induction false} KeptUntil(p: RetryPolicy, ws: seq<World>, acts: seq<Act>, i: nat, j: nat, id: string, k: nat)
    requires IsRun(p, ws, acts) && i <= j < |ws| && id in ws[i].db
    ensures id in ws[j].db
    ensures Ahead(ws[i].db[id].row, k) ==> Ahead(ws[j].db[id].row, k)
    ensures Ready(ws[i].db[id].row, k) ==> Ready(ws[j].db[id].row, k)
    decreases j
  {
    hide WorldInv, Ahead, Ready;
    if i < j {
      KeptUntil(p, ws, acts, i, j - 1, id, k);
      RunInv(p, ws, acts, j - 1);
      var act := acts[j - 1];
      StepProgress(p, ws[j - 1], act, ws[j], id, k);
    }
  }

  // Rounds name steps of a run: a committed fallback pass, and after it a committed retry pass
  // that is not too early for the message, each round after the one before.
  ghost predicate AreRounds(ws: seq<World>, acts: seq<Act>, id: string, start: nat, rounds: seq<(nat, nat)>)
    requires |acts| < |ws|
    decreases |rounds|
  {
    rounds == [] ||
    var (f, r) := rounds[0];
    && start <= f < r < |acts|
    && acts[f].Commit? && acts[f].op.FallbackPass?
    && acts[r].Commit? && acts[r].op.RetryPass?
    && id in ws[r].db && Ripe(ws[r].db[id].row, acts[r].op.now)
    && AreRounds(ws, acts, id, r + 1, rounds[1..])
  }

  lemma OneRound(p: RetryPolicy, ws: seq<World>, acts: seq<Act>, id: string, start: nat, f: nat, r: nat, k: nat)
    requires IsRun(p, ws, acts) && start <= f < r < |acts| && id in ws[start].db
    requires Ready(ws[start].db[id].row, k)
    requires acts[f].Commit? && acts[f].op.FallbackPass? && acts[r].Commit? && acts[r].op.RetryPass?
    requires id in ws[r].db && Ripe(ws[r].db[id].row, acts[r].op.now)
    ensures id in ws[r + 1].db && Ready(ws[r + 1].db[id].row, k + 1)
  {
    hide Step, WorldInv;
    KeptUntil(p, ws, acts, start, f, id, k);
    RunInv(p, ws, acts, f);
    assert Step(p, ws[f], acts[f], ws[f + 1]);
    StepProgress(p, ws[f], acts[f], ws[f + 1], id, k);
    KeptUntil(p, ws, acts, f + 1, r, id, k + 1);
    RunInv(p, ws, acts, r);
    assert Step(p, ws[r], acts[r], ws[r + 1]);
    StepProgress(p, ws[r], acts[r], ws[r + 1], id, k + 1);
  }

  lemma {:induction false} RoundsAdvance(p: RetryPolicy, ws: seq<World>, acts: seq<Act>, id: string, start: nat,
                                         rounds: seq<(nat, nat)>, k: nat)
    returns (end: nat)
    requires IsRun(p, ws, acts) && start < |ws| && id in ws[start].db
    requires AreRounds(ws, acts, id, start, rounds) && Ready(ws[start].db[id].row, k)
    ensures start <= end < |ws| && id in ws[end].db && Ready(ws[end].db[id].row, k + |rounds|)
    ensures rounds != [] ==> end == rounds[|rounds| - 1].1 + 1
    ensures rounds == [] ==> end == start
    decreases |rounds|
  {
    hide Step, Ready, Ripe;
    if rounds == [] {
      return start;
    }
    var (f, r) := rounds[0];
    OneRound(p, ws, acts, id, start, f, r, k);
    end := RoundsAdvance(p, ws, acts, id, r + 1, rounds[1..], k + 1);
    assert rounds[1..] != [] ==> rounds[1..][|rounds| - 2] == rounds[|rounds| - 1];
  }

  lemma ReadyMessagesSettle(p: RetryPolicy, ws: seq<World>, acts: seq<Act>, id: string, start: nat,
                            rounds: seq<(nat, nat)>, i: nat, k: nat)
    requires IsRun(p, ws, acts) && start <= i < |ws| && id in ws[start].db && Ready(ws[start].db[id].row, k)
    requires AreRounds(ws, acts, id, start, rounds) && k + |rounds| == MaxSends(p)
    requires rounds != [] ==> rounds[|rounds| - 1].1 < i
    ensures id in ws[i].db && ws[i].db[id].row.state in {FallbackDelivered, DeadLetter}
  {
    hide LogInv;
    var end := RoundsAdvance(p, ws, acts, id, start, rounds, k);
    KeptUntil(p, ws, acts, end, i, id, MaxSends(p));
    RunInv(p, ws, acts, i);
    assert Inv(p, ws[i].db[id], MaxMoves(p));
  }

  // From ESCALATION_PENDING with some failures counted, as many rounds as the policy has sends
  // left bring the message to FALLBACK_DELIVERED or DEAD_LETTER, where it stays. A message that
  // is ESCALATION_DEFERRED needs one more, whose retry pass re-opens it.
  lemma EscalatedMessagesSettle(p: RetryPolicy, ws: seq<World>, acts: seq<Act>, id: string, start: nat,
                                rounds: seq<(nat, nat)>, i: nat)
    requires IsRun(p, ws, acts) && start < |ws| && id in ws[start].db
    requires Open(ws[start].db[id].row.state)
    requires var r := ws[start].db[id].row;
             |rounds| == MaxSends(p) - r.retryCount + if r.state == EscalationDeferred then 1 else 0
    requires AreRounds(ws, acts, id, start, rounds)
    requires rounds != [] ==> rounds[|rounds| - 1].1 < i
    requires start <= i < |ws|
    ensures id in ws[i].db && ws[i].db[id].row.state in {FallbackDelivered, DeadLetter}
  {
    hide LogInv;
    var r := ws[start].db[id].row;
    RunInv(p, ws, acts, start);
    assert Inv(p, ws[start].db[id], MaxMoves(p));
    var k := r.retryCount - if r.state == EscalationDeferred then 1 else 0;
    ReadyMessagesSettle(p, ws, acts, id, start, rounds, i, k);
  }

  // Sent, not acknowledged, and with a channel to fall back to.
  predicate Waiting(r: Row) {
    r.state == SentToChannel && r.acknowledgedAt.None? && r.policy.fallbackChannels != []
  }

  predicate WaitingOrLater(r: Row) {
    Waiting(r) || r.state == Acknowledged || Ready(r, 0)
  }

  lemma WaitingEffects(p: RetryPolicy, op: Op, id: string, e: Entry)
    requires RowInv(p, e.row) && Waiting(e.row) && EffectOn(p, op, id, e).Done?
    ensures WaitingOrLater(After(p, op, id, e).row)
    ensures op.DeadlinePass? && e.row.createdAt + e.row.policy.acknowledgementDeadlineSeconds as real < op.now ==>
      After(p, op, id, e).row.state == EscalationPending
  {
    hide SendPrimary, SendFallback;
  }

  lemma StepWaiting(p: RetryPolicy, w: World, act: Act, w': World, id: string)
    requires WorldInv(p, w) && Step(p, w, act, w') && id in w.db && WaitingOrLater(w.db[id].row)
    ensures id in w'.db && WaitingOrLater(w'.db[id].row)
    ensures act.Commit? && act.op.DeadlinePass?
            && w.db[id].row.createdAt + w.db[id].row.policy.acknowledgementDeadlineSeconds as real < act.op.now ==>
      w.db[id].row.state == Acknowledged == w'.db[id].row.state || Ready(w'.db[id].row, 0)
  {
    hide EffectOn, Step, LogInv, Ready;
    var e := w.db[id];
    StepOnEntry(p, w, act, w', id);
    StepProgress(p, w, act, w', id, 0);
    assert Inv(p, e, MaxMoves(p));
    if Waiting(e.row) && act.Commit? && !act.op.Create? {
      WaitingEffects(p, act.op, id, e);
    }
  }

  lemma {:induction false} WaitingUntil(p: RetryPolicy, ws: seq<World>, acts: seq<Act>, i: nat, j: nat, id: string)
    requires IsRun(p, ws, acts) && i <= j < |ws| && id in ws[i].db && WaitingOrLater(ws[i].db[id].row)
    ensures id in ws[j].db && WaitingOrLater(ws[j].db[id].row)
    decreases j
  {
    hide WorldInv, Step, WaitingOrLater;
    if i < j {
      WaitingUntil(p, ws, acts, i, j - 1, id);
      RunInv(p, ws, acts, j - 1);
      StepWaiting(p, ws[j - 1], acts[j - 1], ws[j], id);
    }
  }

  // A sent message with a fallback channel: after one deadline pass past its deadline and as many
  // rounds as the policy has sends it is settled, unless it was acknowledged before that pass.
  lemma SentMessagesSettle(p: RetryPolicy, ws: seq<World>, acts: seq<Act>, id: string, start: nat, d: nat,
                           rounds: seq<(nat, nat)>, i: nat)
    requires IsRun(p, ws, acts) && start <= d < |acts| && id in ws[start].db && Waiting(ws[start].db[id].row)
    requires acts[d].Commit? && acts[d].op.DeadlinePass?
    requires var r := ws[start].db[id].row;
             r.createdAt + r.policy.acknowledgementDeadlineSeconds as real < acts[d].op.now
    requires AreRounds(ws, acts, id, d + 1, rounds) && |rounds| == MaxSends(p)
    requires d < i < |ws| && rounds[|rounds| - 1].1 < i
    ensures id in ws[d].db && id in ws[i].db
    ensures ws[i].db[id].row.state in {FallbackDelivered, DeadLetter}
            || ws[d].db[id].row.state == Acknowledged == ws[i].db[id].row.state
  {
    hide Step, WorldInv, Ready;
    WaitingUntil(p, ws, acts, start, d, id);
    RunHistory(p, ws, acts, start, d, id);
    RunInv(p, ws, acts, d);
    StepWaiting(p, ws[d], acts[d], ws[d + 1], id);
    if Ready(ws[d + 1].db[id].row, 0) {
      ReadyMessagesSettle(p, ws, acts, id, d + 1, rounds, i, 0);
    } else {
      RunHistory(p, ws, acts, d + 1, i, id);
    }
  }
}
