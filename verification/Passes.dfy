// The scheduler passes as functions on the whole store: what one pass achieves, what repeating,
// splitting and reordering passes changes, and idempotent submission.
module Passes {
  import opened Wrappers
  import opened MessageStates
  import opened Messages
  import opened RetryPolicies
  import opened Channels
  import opened Events
  import opened Storage
  import opened Lifecycle
  import opened Operations
  import opened Audit
  import opened Invariants
  import opened Runs
  import opened Theorems

  // The row an escalation at `now` leaves. The clock may read the time already stored as that of
  // the last change; the database then stamps the line.
  predicate Reopened(r: Row, r': Row, now: Time, stamp: Time) {
    && r' == r.(state := EscalationPending, escalatedAt := Some(now), updatedAt := r'.updatedAt)
    && r'.updatedAt == if now == r.updatedAt then stamp else now
  }

  // What a deadline pass does to one message. A message past its deadline is escalated exactly
  // when it has a fallback channel; without one it stays overdue for ever, although the code's
  // comments promise a dead letter.
  lemma DeadlineEffect(p: RetryPolicy, e: Entry, id: string, now: Time, stamp: Time)
    requires Inv(p, e, MaxMoves(p))
    ensures var r, e' := e.row, After(p, DeadlinePass(now, stamp), id, e);
            var overdue := && r.state == SentToChannel && r.acknowledgedAt.None?
                           && r.createdAt + r.policy.acknowledgementDeadlineSeconds as real < now;
            && (DueForEscalation(r, now) <==> overdue)
            && (DueForEscalation(e'.row, now) <==> overdue && r.policy.fallbackChannels == [])
            && (e' != e <==> overdue && r.policy.fallbackChannels != [])
            && (e' != e ==>
                  && Reopened(e.row, e'.row, now, stamp)
                  && e'.log == e.log + [EscalationTriggered("deadline_passed", e.row.policy.fallbackChannels)])
  {
    hide LogInv, Lifecycle.Escalate;
    EscalationActs(p, e, now, stamp);
  }

  // A deadline pass committed in a run changes a message if and only if it was sent, is not
  // acknowledged, has a fallback channel, and was created longer ago than its sender allowed.
  lemma EscalatedExactlyWhenOverdue(p: RetryPolicy, ws: seq<World>, acts: seq<Act>, n: nat, id: string)
    requires IsRun(p, ws, acts) && n < |acts| && id in ws[n].db
    requires acts[n].Commit? && acts[n].op.DeadlinePass?
    ensures id in ws[n + 1].db
    ensures var r, r', now := ws[n].db[id].row, ws[n + 1].db[id].row, acts[n].op.now;
            && (ws[n + 1].db[id] != ws[n].db[id]
                <==> && r.state == SentToChannel && r.acknowledgedAt.None? && r.policy.fallbackChannels != []
                     && r.createdAt + r.policy.acknowledgementDeadlineSeconds as real < now)
            && (ws[n + 1].db[id] != ws[n].db[id] ==> r'.state == EscalationPending && r'.escalatedAt == Some(now))
  {
    hide EffectOn, Inv;
    assert Step(p, ws[n], acts[n], ws[n + 1]);
    StepOnEntry(p, ws[n], acts[n], ws[n + 1], id);
    RunInv(p, ws, acts, n);
    assert Inv(p, ws[n].db[id], MaxMoves(p));
    DeadlineEffect(p, ws[n].db[id], id, acts[n].op.now, acts[n].op.stamp);
  }

  lemma DeadlinePassClears(p: RetryPolicy, db: Db, now: Time, stamp: Time)
    requires EntriesInv(p, db)
    ensures var db' := Pointwise(p, DeadlinePass(now, stamp), db);
            && db'.Keys == db.Keys
            && (forall id :: id in db ==>
                  (DueForEscalation(db'[id].row, now)
                   <==> DueForEscalation(db[id].row, now) && db[id].row.policy.fallbackChannels == []))
            && (forall id :: id in db && !DueForEscalation(db[id].row, now) ==> db'[id] == db[id])
    ensures var db' := Pointwise(p, DeadlinePass(now, stamp), db);
            forall later :: Pointwise(p, DeadlinePass(now, later), db') == db'
  {
    hide After, Inv;
    var db' := Pointwise(p, DeadlinePass(now, stamp), db);
    forall id | id in db
      ensures DueForEscalation(db'[id].row, now)
              <==> DueForEscalation(db[id].row, now) && db[id].row.policy.fallbackChannels == []
      ensures !DueForEscalation(db[id].row, now) ==> db'[id] == db[id]
      ensures forall later :: After(p, DeadlinePass(now, later), id, db'[id]) == db'[id]
    {
      DeadlineEffect(p, db[id], id, now, stamp);
      EffectInv(p, MaxMoves(p), DeadlinePass(now, stamp), id, db[id]);
      forall later
        ensures After(p, DeadlinePass(now, later), id, db'[id]) == db'[id]
      {
        DeadlineEffect(p, db'[id], id, now, later);
      }
    }
  }

  // A sent message is escalated by some deadline pass if and only if it is not acknowledged and
  // has a fallback channel.
  lemma OverdueIff(p: RetryPolicy, e: Entry, id: string, stamp: Time)
    requires Inv(p, e, MaxMoves(p)) && e.row.state == SentToChannel
    ensures (exists now :: After(p, DeadlinePass(now, stamp), id, e) != e)
            <==> e.row.acknowledgedAt.None? && e.row.policy.fallbackChannels != []
  {
    hide After;
    var late := DeadlineAfter(e.row.policy, e.row.createdAt) + 1.0;
    DeadlineEffect(p, e, id, late, stamp);
    assert e.row.acknowledgedAt.None? && e.row.policy.fallbackChannels != []
      ==> After(p, DeadlinePass(late, stamp), id, e) != e;
    forall now | After(p, DeadlinePass(now, stamp), id, e) != e
      ensures e.row.acknowledgedAt.None? && e.row.policy.fallbackChannels != []
    {
      DeadlineEffect(p, e, id, now, stamp);
    }
  }

  lemma SentOrAcknowledged(p: RetryPolicy, op: Op, id: string, e: Entry)
    requires e.row.state == SentToChannel && (op.Process? || op.Acknowledgement?)
    ensures EffectOn(p, op, id, e).Done?
    ensures if op.Acknowledgement? && op.id == id then After(p, op, id, e).row.acknowledgedAt.Some?
            else After(p, op, id, e) == e
  {
  }

  lemma OverdueStep(p: RetryPolicy, ws: seq<World>, acts: seq<Act>, i: nat, id: string, now: Time)
    requires IsRun(p, ws, acts) && i < |acts| && id in ws[i].db
    requires ws[i].db[id].row.policy.fallbackChannels == []
    ensures id in ws[i + 1].db && ws[i + 1].db[id].row.policy == ws[i].db[id].row.policy
    ensures ws[i].db[id].row.acknowledgedAt.Some? ==>
      ws[i + 1].db[id].row.acknowledgedAt.Some? && !DueForEscalation(ws[i + 1].db[id].row, now)
    ensures DueForEscalation(ws[i].db[id].row, now) ==>
      if Acknowledges(acts[i], id) then ws[i + 1].db[id].row.acknowledgedAt.Some?
      else DueForEscalation(ws[i + 1].db[id].row, now)
  {
    hide EffectOn, Committed, Aborted;
    var act, e := acts[i], ws[i].db[id];
    assert Step(p, ws[i], act, ws[i + 1]);
    StepOnEntry(p, ws[i], act, ws[i + 1], id);
    if DueForEscalation(e.row, now) && act.Commit? && !act.op.Create? {
      WithoutFallbackChannels(p, ws, acts, i, id, act.op);
      if act.op.Process? || act.op.Acknowledgement? {
        SentOrAcknowledged(p, act.op, id, e);
      }
    }
  }

  // A sent message that is overdue and has no fallback channel stays overdue exactly until it is
  // acknowledged: no pass and no admin step ever takes it on.
  lemma {:induction false} OverdueUntilAcknowledged(p: RetryPolicy, ws: seq<World>, acts: seq<Act>, i: nat, j: nat,
                                                    id: string, now: Time)
    requires IsRun(p, ws, acts) && i <= j < |ws| && id in ws[i].db
    requires DueForEscalation(ws[i].db[id].row, now) && ws[i].db[id].row.policy.fallbackChannels == []
    ensures id in ws[j].db && ws[j].db[id].row.policy == ws[i].db[id].row.policy
    ensures DueForEscalation(ws[j].db[id].row, now) <==> ws[j].db[id].row.acknowledgedAt.None?
    ensures DueForEscalation(ws[j].db[id].row, now) <==> forall n :: i <= n < j ==> !Acknowledges(acts[n], id)
    decreases j
  {
    hide Step;
    if i < j {
      OverdueUntilAcknowledged(p, ws, acts, i, j - 1, id, now);
      OverdueStep(p, ws, acts, j - 1, id, now);
    }
  }

  // An acknowledgement in any state, even one that came before the message was sent, keeps
  // every later deadline pass off the message.
  lemma AcknowledgedIsNeverOverdue(p: RetryPolicy, ws: seq<World>, acts: seq<Act>, i: nat, j: nat, id: string,
      now: Time, stamp: Time)
    requires IsRun(p, ws, acts) && i <= j < |ws| && id in ws[i].db && ws[i].db[id].row.acknowledgedAt.Some?
    ensures id in ws[j].db && ws[j].db[id].row.acknowledgedAt.Some?
    ensures After(p, DeadlinePass(now, stamp), id, ws[j].db[id]) == ws[j].db[id]
  {
    RunHistory(p, ws, acts, i, j, id);
  }

  // Two deadline passes leave what the second alone leaves, but for the time of the escalation.
  lemma DeadlinePassesCompose(p: RetryPolicy, db: Db, t1: Time, s1: Time, t2: Time, s2: Time, id: string)
    requires EntriesInv(p, db) && t1 <= t2 && id in db
    ensures var once := Pointwise(p, DeadlinePass(t2, s2), db)[id];
            var twice := Pointwise(p, DeadlinePass(t2, s2), Pointwise(p, DeadlinePass(t1, s1), db))[id];
            && twice.log == once.log
            && twice.row == once.row.(escalatedAt := twice.row.escalatedAt, updatedAt := twice.row.updatedAt)
            && (twice.row == once.row || (twice.row.escalatedAt == Some(t1) && once.row.escalatedAt == Some(t2)))
  {
    hide Inv, After;
    var e := db[id];
    assert Inv(p, e, MaxMoves(p));
    var e1 := After(p, DeadlinePass(t1, s1), id, e);
    DeadlineEffect(p, e, id, t1, s1);
    DeadlineEffect(p, e, id, t2, s2);
    EffectInv(p, MaxMoves(p), DeadlinePass(t1, s1), id, e);
    DeadlineEffect(p, e1, id, t2, s2);
  }

  // What a retry pass does to one message: it re-opens the deferred ones whose time has come.
  lemma RetryEffect(p: RetryPolicy, e: Entry, id: string, now: Time, env: Env)
    requires Inv(p, e, MaxMoves(p))
    ensures var eff := EffectOn(p, RetryPass(now, env), id, e);
            && eff.Done? && !eff.called
            && (eff.entry != e
                <==> e.row.state == EscalationDeferred && e.row.nextRetryAt.Some? && e.row.nextRetryAt.value <= now)
            && (eff.entry != e ==>
                  && Reopened(e.row, eff.entry.row, now, env.stamp)
                  && eff.entry.log == e.log + [EscalationTriggered("deadline_passed", e.row.policy.fallbackChannels)])
  {
    hide LogInv, Lifecycle.Escalate;
    EscalationActs(p, e, now, env.stamp);
  }

  lemma DeferredHasTime(p: RetryPolicy, e: Entry)
    requires Inv(p, e, MaxMoves(p)) && e.row.state == EscalationDeferred
    ensures e.row.nextRetryAt.Some?
  {
  }

  lemma RetryPassClears(p: RetryPolicy, db: Db, now: Time, env: Env, id: string)
    requires EntriesInv(p, db) && id in db
    ensures var e' := Pointwise(p, RetryPass(now, env), db)[id];
            && (e'.row.state == EscalationDeferred ==> e'.row.nextRetryAt.Some? && e'.row.nextRetryAt.value > now)
            && (e' != db[id]
                <==> && db[id].row.state == EscalationDeferred && db[id].row.nextRetryAt.Some?
                     && db[id].row.nextRetryAt.value <= now)
    ensures CallCount(p, RetryPass(now, env), id, db) == 0
  {
    hide Inv, EffectOn;
    assert Inv(p, db[id], MaxMoves(p));
    RetryEffect(p, db[id], id, now, env);
    if db[id].row.state == EscalationDeferred {
      DeferredHasTime(p, db[id]);
    }
  }

  // A retry pass committed in a run re-opens a deferred message no earlier and no later than the
  // first pass at or after its time.
  lemma ReopenedExactlyWhenDue(p: RetryPolicy, ws: seq<World>, acts: seq<Act>, n: nat, id: string)
    requires IsRun(p, ws, acts) && n < |acts| && id in ws[n].db
    requires acts[n].Commit? && acts[n].op.RetryPass?
    ensures id in ws[n + 1].db
    ensures var r, r', now := ws[n].db[id].row, ws[n + 1].db[id].row, acts[n].op.now;
            && (ws[n + 1].db[id] != ws[n].db[id]
                <==> r.state == EscalationDeferred && r.nextRetryAt.Some? && r.nextRetryAt.value <= now)
            && (ws[n + 1].db[id] != ws[n].db[id] ==> r'.state == EscalationPending && r'.escalatedAt == Some(now))
            && (r'.state == EscalationDeferred ==> r'.nextRetryAt.Some? && r'.nextRetryAt.value > now)
  {
    hide EffectOn, Inv;
    assert Step(p, ws[n], acts[n], ws[n + 1]);
    StepOnEntry(p, ws[n], acts[n], ws[n + 1], id);
    RunInv(p, ws, acts, n);
    assert Inv(p, ws[n].db[id], MaxMoves(p));
    RetryEffect(p, ws[n].db[id], id, acts[n].op.now, acts[n].op.env);
    if ws[n].db[id].row.state == EscalationDeferred {
      DeferredHasTime(p, ws[n].db[id]);
    }
  }

  lemma CommuteOnEntry(p: RetryPolicy, e: Entry, id: string, t1: Time, stamp: Time, t2: Time, env: Env)
    requires Inv(p, e, MaxMoves(p))
    ensures var d, r := DeadlinePass(t1, stamp), RetryPass(t2, env);
            After(p, d, id, After(p, r, id, e)) == After(p, r, id, After(p, d, id, e))
  {
    hide Inv, EffectOn;
    DeadlineEffect(p, e, id, t1, stamp);
    RetryEffect(p, e, id, t2, env);
    EffectInv(p, MaxMoves(p), DeadlinePass(t1, stamp), id, e);
    EffectInv(p, MaxMoves(p), RetryPass(t2, env), id, e);
    DeadlineEffect(p, After(p, RetryPass(t2, env), id, e), id, t1, stamp);
    RetryEffect(p, After(p, DeadlinePass(t1, stamp), id, e), id, t2, env);
  }

  // The order in which a deadline pass and a retry pass are committed does not matter.
  lemma PassesCommute(p: RetryPolicy, db: Db, t1: Time, stamp: Time, t2: Time, env: Env)
    requires EntriesInv(p, db)
    ensures Pointwise(p, DeadlinePass(t1, stamp), Pointwise(p, RetryPass(t2, env), db)) ==
            Pointwise(p, RetryPass(t2, env), Pointwise(p, DeadlinePass(t1, stamp), db))
  {
    hide Inv, After;
    var d, r := DeadlinePass(t1, stamp), RetryPass(t2, env);
    forall id | id in db
      ensures After(p, d, id, After(p, r, id, db[id])) == After(p, r, id, After(p, d, id, db[id]))
    {
      CommuteOnEntry(p, db[id], id, t1, stamp, t2, env);
    }
  }

  // Each key stays with one message. Later submissions of it change nothing, and a primary send
  // is recorded for that message at most once, however often the request is repeated.
  lemma OneMessagePerKey(p: RetryPolicy, ws: seq<World>, acts: seq<Act>, i: nat, j: nat, id: string, key: string)
    requires IsRun(p, ws, acts) && i <= j < |ws|
    requires id in ws[i].db && ws[i].db[id].row.key == Some(key)
    ensures id in ws[j].db && ws[j].db[id].row.key == Some(key)
    ensures forall other :: other in ws[j].db && ws[j].db[other].row.key == Some(key) ==> other == id
    ensures Replay(ws[j].db[id].log).primarySends <= 1
    ensures key != "" ==>
      forall req: Request, newId, now :: req.key == Some(key) ==> Submitted(req, newId, now, ws[j].db) == ws[j].db
  {
    RunHistory(p, ws, acts, i, j, id);
    RunInv(p, ws, acts, j);
    assert Inv(p, ws[j].db[id], MaxMoves(p));
  }
}
