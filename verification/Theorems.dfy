// The main safety theorems over runs.
module Theorems {
  import opened Wrappers
  import opened MessageStates
  import opened RetryPolicies
  import opened Channels
  import opened Events
  import opened Storage
  import opened Lifecycle
  import opened Operations
  import opened Outcomes
  import opened Audit
  import opened Invariants
  import opened History
  import opened Runs

  // The audit log never reports a send that did not happen, and misses at most one send for each
  // rolled-back transaction that could have called a channel for this very message. The recorded
  // sends are bounded by the policy: one primary send, and as many fallback sends as the policy
  // has retries (one if it has none).
  lemma SendsAreAccounted(p: RetryPolicy, ws: seq<World>, acts: seq<Act>, i: nat, id: string)
    requires IsRun(p, ws, acts) && i < |ws|
    ensures id !in ws[i].db ==> ws[i].sends[id] == 0
    ensures id in ws[i].db ==>
      var v := Replay(ws[i].db[id].log);
      && v.primarySends + v.fallbackSends <= ws[i].sends[id] <= v.primarySends + v.fallbackSends + ws[i].lost[id]
      && v.primarySends <= 1
      && v.fallbackSends <= MaxSends(p)
  {
    RunInv(p, ws, acts, i);
    assert RecordedAttempts(ws[i].db, id) <= ws[i].sends[id] <= RecordedAttempts(ws[i].db, id) + ws[i].lost[id];
    if id in ws[i].db {
      assert Inv(p, ws[i].db[id], MaxMoves(p));
    }
  }

  lemma PathOfEntry(p: RetryPolicy, e: Entry)
    requires Inv(p, e, MaxMoves(p))
    ensures var path := Path(e.log);
            IsPath(path) && path[|path| - 1] == e.row.state && |path| - 1 <= 3 * MaxSends(p) + 3
  {
    hide Replay, Path;
    PathOfReplay(e.log);
  }

  // The audit log alone rebuilds these columns, and the states it leads through are a legal
  // path from PENDING to the current state, of bounded length although the table has a cycle.
  lemma AuditRebuildsRow(p: RetryPolicy, ws: seq<World>, acts: seq<Act>, i: nat, id: string)
    requires IsRun(p, ws, acts) && i < |ws| && id in ws[i].db
    ensures var e := ws[i].db[id];
            var v := Replay(e.log);
            && v.state == e.row.state
            && v.retryCount == e.row.retryCount
            && v.nextRetryAt == e.row.nextRetryAt
            && v.acknowledgedAt == e.row.acknowledgedAt
            && v.lastError == e.row.lastError
            && v.externalMessageId == e.row.externalMessageId
    ensures var e := ws[i].db[id];
            var path := Path(e.log);
            IsPath(path) && path[|path| - 1] == e.row.state && |path| - 1 <= 3 * MaxSends(p) + 3
  {
    hide IsRun, Replay, Path, RowInv, IsPath;
    RunInv(p, ws, acts, i);
    assert Inv(p, ws[i].db[id], MaxMoves(p));
    PathOfEntry(p, ws[i].db[id]);
  }

  // What every committed row looks like, state by state.
  lemma CommittedRows(p: RetryPolicy, ws: seq<World>, acts: seq<Act>, i: nat, id: string)
    requires IsRun(p, ws, acts) && i < |ws| && id in ws[i].db
    ensures RowInv(p, ws[i].db[id].row)
    ensures ws[i].db[id].row.id == id
  {
    RunInv(p, ws, acts, i);
    assert Inv(p, ws[i].db[id], MaxMoves(p));
  }

  // No scheduler pass could recover a message left in QUEUED, SENDING or FALLBACK_SENDING, and
  // none is ever left there; so the retry pass never re-sends through the primary channel.
  lemma NothingStuckInTransit(p: RetryPolicy, ws: seq<World>, acts: seq<Act>, i: nat, id: string, now: Time)
    requires IsRun(p, ws, acts) && i < |ws| && id in ws[i].db
    ensures ws[i].db[id].row.state !in {Queued, Sending, FallbackSending}
    ensures forall env :: !EffectOn(p, RetryPass(now, env), id, ws[i].db[id]).Aborts?
                          && !EffectOn(p, RetryPass(now, env), id, ws[i].db[id]).called
  {
    CommittedRows(p, ws, acts, i, id);
  }

  lemma {:induction false} LongerLog(log: seq<Event>, log': seq<Event>)
    requires log <= log'
    ensures Replay(log).moves <= Replay(log').moves
    ensures Replay(log).moves == Replay(log').moves ==> Replay(log).state == Replay(log').state
  {
    if log != log' {
      LongerLog(log, log'[..|log'| - 1]);
      OneMoveAtMost(Replay(log'[..|log'| - 1]), log'[|log'| - 1]);
    }
  }

  // Every operation pays for the moves it makes: the measure drops by at least their number.
  lemma MovesArePaidFor(p: RetryPolicy, op: Op, id: string, e: Entry)
    requires Inv(p, e, MaxMoves(p))
    ensures var e' := After(p, op, id, e);
            var v, v' := Replay(e.log), Replay(e'.log);
            && v'.moves - v.moves <= Potential(p, v.state, v.retryCount) - Potential(p, v'.state, v'.retryCount)
            && (e'.row.state != e.row.state ==> v'.moves > v.moves)
  {
    var v := Replay(e.log);
    var b := v.moves + Potential(p, v.state, v.retryCount);
    EffectInv(p, b, op, id, e);
    EffectLater(p, op, id, e);
    LongerLog(e.log, After(p, op, id, e).log);
  }

  // Nothing is ever deleted, policies, contents, keys and deadlines never change, audit logs only
  // grow at their end, and a message in a terminal state is frozen but for late acknowledgements.
  lemma {:induction false} RunHistory(p: RetryPolicy, ws: seq<World>, acts: seq<Act>, i: nat, j: nat, id: string)
    requires IsRun(p, ws, acts) && i <= j < |ws| && id in ws[i].db
    ensures id in ws[j].db && Later(ws[i].db[id], ws[j].db[id])
    decreases j
  {
    if i == j {
      LaterReflexive(ws[i].db[id]);
    } else {
      RunHistory(p, ws, acts, i, j - 1, id);
      assert Step(p, ws[j - 1], acts[j - 1], ws[j]);
      StepOnEntry(p, ws[j - 1], acts[j - 1], ws[j], id);
      LaterTransitive(ws[i].db[id], ws[j - 1].db[id], ws[j].db[id]);
    }
  }

  // The path a log leads along passes through the states the message was seen in: those of every
  // earlier committed store are on it, in their order.
  lemma PathPassesThrough(p: RetryPolicy, ws: seq<World>, acts: seq<Act>, i: nat, j: nat, id: string)
    requires IsRun(p, ws, acts) && i <= j < |ws| && id in ws[i].db
    ensures id in ws[j].db
    ensures var earlier, path := Path(ws[i].db[id].log), Path(ws[j].db[id].log);
            earlier <= path && earlier != [] && path[|earlier| - 1] == ws[i].db[id].row.state
  {
    hide Path, IsPath, Replay;
    RunHistory(p, ws, acts, i, j, id);
    AuditRebuildsRow(p, ws, acts, i, id);
    PathExtends(ws[i].db[id].log, ws[j].db[id].log);
    PathOfReplay(ws[i].db[id].log);
  }

  // A message without a fallback channel is never escalated, never sent through a fallback
  // channel, and stays exactly as it is under every pass and every admin step.
  lemma WithoutFallbackChannels(p: RetryPolicy, ws: seq<World>, acts: seq<Act>, i: nat, id: string, op: Op)
    requires IsRun(p, ws, acts) && i < |ws| && id in ws[i].db
    requires ws[i].db[id].row.policy.fallbackChannels == []
    ensures ws[i].db[id].row.state in {Pending, SentToChannel, Acknowledged, Failed}
    ensures Replay(ws[i].db[id].log).fallbackSends == 0 == Replay(ws[i].db[id].log).fallbackStarts
    ensures !op.Process? && !op.Acknowledgement? ==>
      EffectOn(p, op, id, ws[i].db[id]) == Done(ws[i].db[id], false)
  {
    hide IsRun, SendPrimary, SendFallback, Replay;
    RunInv(p, ws, acts, i);
    assert Inv(p, ws[i].db[id], MaxMoves(p));
  }

  // How processing ends. A missing primary channel fails the message even when it has fallback
  // channels; DEAD_LETTER is not reached from here at all.
  lemma ProcessingOutcome(p: RetryPolicy, e: Entry, id: string, queuedAt: Time, env: Env)
    requires RowInv(p, e.row) && e.row.state == Pending
    ensures var r := e.row;
            var link := env.LinkTo(
                          Call(r.policy.primaryChannel, r.recipient, r.content, r.id, r.policy.priority, false));
            var eff := EffectOn(p, Process(id, queuedAt, env), id, e);
            && (eff.Aborts? <==> link.Threw?)
            && (eff.Done? ==>
                  && eff.called == link.Answered?
                  && (eff.entry.row.state == SentToChannel <==> link.Answered? && link.result.success)
                  && (eff.entry.row.state == SentToChannel ==>
                        eff.entry.row.externalMessageId == link.result.externalMessageId)
                  && (eff.entry.row.state == EscalationPending
                      <==> link.Answered? && !link.result.success && r.policy.fallbackChannels != [])
                  && (eff.entry.row.state == Failed
                      <==> link.Unregistered?
                           || (link.Answered? && !link.result.success && r.policy.fallbackChannels == [])))
  {
    hide EffectOn;
    ProcessOutcome(p, id, e, queuedAt, env);
  }

  lemma CreateDoesNothing(p: RetryPolicy, op: Op, id: string, e: Entry)
    requires op.Create?
    ensures EffectOn(p, op, id, e) == Done(e, false)
  {
  }

  // In a run every committed operation leaves every message as the table of outcomes says.
  lemma EveryStepIsAnOutcome(p: RetryPolicy, ws: seq<World>, acts: seq<Act>, n: nat, id: string) returns (called: bool)
    requires IsRun(p, ws, acts) && n < |acts| && id in ws[n].db && acts[n].Commit?
    ensures id in ws[n + 1].db && Outcome(p, acts[n].op, id, ws[n].db[id], Done(ws[n + 1].db[id], called))
    ensures !acts[n].op.Create? ==> ws[n + 1].sends[id] == ws[n].sends[id] + if called then 1 else 0
  {
    hide EffectOn, Outcome;
    assert Step(p, ws[n], acts[n], ws[n + 1]);
    StepOnEntry(p, ws[n], acts[n], ws[n + 1], id);
    EveryOutcome(p, acts[n].op, id, ws[n].db[id]);
    if acts[n].op.Create? {
      CreateDoesNothing(p, acts[n].op, id, ws[n].db[id]);
      called := false;
    } else {
      called := EffectOn(p, acts[n].op, id, ws[n].db[id]).called;
    }
  }

  predicate Processes(act: Act, id: string) {
    act.Commit? && act.op.Process? && act.op.id == id
  }

  lemma ProcessedOrPending(p: RetryPolicy, op: Op, id: string, e: Entry)
    requires RowInv(p, e.row) && e.row.state == Pending && EffectOn(p, op, id, e).Done?
    ensures After(p, op, id, e).row.state == Pending <==> !(op.Process? && op.id == id)
  {
    hide Deliver, Lifecycle.Escalate, SendFallback;
    match op
    case Process(target, queuedAt, env) =>
      if id == target {
        ProcessingOutcome(p, e, id, queuedAt, env);
      }
    case _ =>
  }

  // A PENDING message stays in that state exactly until a processing of it commits: no pass and no
  // admin step will ever pick the message up. Which messages a request can process again is the
  // subject of Requests.RecoverableIff.
  lemma {:induction false} OnlyProcessingLeavesPending(p: RetryPolicy, ws: seq<World>, acts: seq<Act>, i: nat, j: nat,
                                                       id: string)
    requires IsRun(p, ws, acts) && i <= j < |ws| && id in ws[i].db && ws[i].db[id].row.state == Pending
    ensures id in ws[j].db
    ensures ws[j].db[id].row.state == Pending <==> forall n :: i <= n < j ==> !Processes(acts[n], id)
    decreases j
  {
    hide EffectOn, RowInv;
    if i < j {
      OnlyProcessingLeavesPending(p, ws, acts, i, j - 1, id);
      var act, e := acts[j - 1], ws[j - 1].db[id];
      assert Step(p, ws[j - 1], act, ws[j]);
      StepOnEntry(p, ws[j - 1], act, ws[j], id);
      if e.row.state == Pending && act.Commit? && !act.op.Create? {
        CommittedRows(p, ws, acts, j - 1, id);
        ProcessedOrPending(p, act.op, id, e);
      }
    }
  }

  predicate Acknowledges(act: Act, id: string) {
    act.Commit? && act.op.Acknowledgement? && act.op.id == id
  }

  lemma {:induction false} AcknowledgementKept(p: RetryPolicy, ws: seq<World>, acts: seq<Act>, i: nat, j: nat,
                                               id: string)
    requires IsRun(p, ws, acts) && i <= j < |ws| && id in ws[i].db
    requires forall n :: i <= n < j ==> !Acknowledges(acts[n], id)
    ensures id in ws[j].db && ws[j].db[id].row.acknowledgedAt == ws[i].db[id].row.acknowledgedAt
    decreases j
  {
    hide EffectOn;
    if i < j {
      AcknowledgementKept(p, ws, acts, i, j - 1, id);
      assert Step(p, ws[j - 1], acts[j - 1], ws[j]);
      StepOnEntry(p, ws[j - 1], acts[j - 1], ws[j], id);
      if acts[j - 1].Commit? {
        OnlyAcknowledging(p, acts[j - 1].op, id, ws[j - 1].db[id]);
      }
    }
  }

  // One committed acknowledgement in a run. It overwrites the time in every state, also in those
  // that the guard of record_acknowledgement refuses, and moves only a sent message.
  lemma AcknowledgementStep(p: RetryPolicy, ws: seq<World>, acts: seq<Act>, n: nat, id: string)
    requires IsRun(p, ws, acts) && n < |acts| && id in ws[n].db && Acknowledges(acts[n], id)
    ensures id in ws[n + 1].db && ws[n + 1].db[id].row.acknowledgedAt == Some(acts[n].op.at)
    ensures ws[n + 1].db[id].row.state ==
            if ws[n].db[id].row.state == SentToChannel then Acknowledged else ws[n].db[id].row.state
    ensures var late := if ws[n].db[id].row.state == SentToChannel then None else Some(ws[n].db[id].row.state);
            ws[n + 1].db[id].log == ws[n].db[id].log + [AckReceived(acts[n].op.at, late)]
  {
    assert Step(p, ws[n], acts[n], ws[n + 1]);
    StepOnEntry(p, ws[n], acts[n], ws[n + 1], id);
  }

  // The acknowledgement time is that of the last acknowledgement committed, however early it is and
  // whatever came before; and the audit log knows it.
  lemma LastAcknowledgementWins(p: RetryPolicy, ws: seq<World>, acts: seq<Act>, i: nat, j: nat, id: string)
    requires IsRun(p, ws, acts) && i <= j < |ws| && id in ws[i].db
    ensures id in ws[j].db && Replay(ws[j].db[id].log).acknowledgedAt == ws[j].db[id].row.acknowledgedAt
    ensures (forall n :: i <= n < j ==> !Acknowledges(acts[n], id)) ==>
      ws[j].db[id].row.acknowledgedAt == ws[i].db[id].row.acknowledgedAt
    ensures forall n :: i <= n < j && Acknowledges(acts[n], id)
                        && (forall m :: n < m < j ==> !Acknowledges(acts[m], id)) ==>
      ws[j].db[id].row.acknowledgedAt == Some(acts[n].op.at)
  {
    hide Step, Replay;
    RunHistory(p, ws, acts, i, j, id);
    AuditRebuildsRow(p, ws, acts, j, id);
    if forall n :: i <= n < j ==> !Acknowledges(acts[n], id) {
      AcknowledgementKept(p, ws, acts, i, j, id);
    }
    forall n | i <= n < j && Acknowledges(acts[n], id) && (forall m :: n < m < j ==> !Acknowledges(acts[m], id))
      ensures ws[j].db[id].row.acknowledgedAt == Some(acts[n].op.at)
    {
      RunHistory(p, ws, acts, i, n, id);
      AcknowledgementStep(p, ws, acts, n, id);
      AcknowledgementKept(p, ws, acts, n + 1, j, id);
    }
  }

  // What changes the time of the last change of a message in a terminal state.
  lemma StampOfTerminal(p: RetryPolicy, op: Op, id: string, e: Entry)
    requires Terminal(e.row.state)
    ensures var r' := After(p, op, id, e).row;
            && (r'.updatedAt != e.row.updatedAt
                <==> op.Acknowledgement? && op.id == id
                     && e.row.acknowledgedAt != Some(op.at) && op.stamp != e.row.updatedAt)
            && (r'.updatedAt != e.row.updatedAt ==> r'.updatedAt == op.stamp)
  {
    hide SendPrimary, SendFallback;
  }

  // In a run the time of the last change of a message that has reached a terminal state moves
  // exactly at the late acknowledgements that bring another time, and then to the database's now().
  lemma LateAcknowledgementStamps(p: RetryPolicy, ws: seq<World>, acts: seq<Act>, i: nat, n: nat, id: string)
    requires IsRun(p, ws, acts) && i <= n < |acts| && id in ws[i].db && Terminal(ws[i].db[id].row.state)
    ensures id in ws[n].db && id in ws[n + 1].db
    ensures ws[n + 1].db[id].row.updatedAt != ws[n].db[id].row.updatedAt
            <==> && Acknowledges(acts[n], id)
                 && ws[n].db[id].row.acknowledgedAt != Some(acts[n].op.at)
                 && acts[n].op.stamp != ws[n].db[id].row.updatedAt
    ensures ws[n + 1].db[id].row.updatedAt != ws[n].db[id].row.updatedAt ==>
      ws[n + 1].db[id].row.updatedAt == acts[n].op.stamp
  {
    hide EffectOn;
    RunHistory(p, ws, acts, i, n, id);
    assert Step(p, ws[n], acts[n], ws[n + 1]);
    StepOnEntry(p, ws[n], acts[n], ws[n + 1], id);
    StampOfTerminal(p, acts[n].op, id, ws[n].db[id]);
  }
}
