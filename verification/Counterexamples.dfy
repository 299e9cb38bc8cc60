// Runs, as requests and passes make them, in which the code does not do what its documentation
// promises.
module Counterexamples {
  import opened Wrappers
  import opened MessageStates
  import opened Messages
  import opened RetryPolicies
  import opened Channels
  import opened Storage
  import opened Lifecycle
  import opened Operations
  import opened Invariants
  import opened Runs
  import opened Theorems
  import opened Requests
  import opened Passes
  import opened WorstCase

  // The primary channel of the message raises.
  function Raising(policy: Policy): Env {
    Env({policy.primaryChannel}, _ => Reply.Threw, _ => 0.0, _ => 0.0, 0.0)
  }

  // A message without a key accepted, and its processing rolled back because the primary channel
  // raised: PENDING for ever, whatever requests, passes and admin steps follow.
  lemma AcceptedButStuck(p: RetryPolicy, req: Request, id: string) returns (ws: seq<World>, acts: seq<Act>)
    requires Keyless(req.key)
    ensures IsRequestRun(p, ws, acts)
    ensures acts == [Commit(Create(req, id, 0.0)), Abort(Process(id, 0.0, Raising(req.policy)))]
    ensures ws[2].sends[id] == 1
    ensures forall ws': seq<World>, acts': seq<Act> :: Continues(p, ws', acts', ws, acts) ==>
      id in ws'[|acts'|].db && ws'[|acts'|].db[id].row.state == Pending
  {
    hide Step, EffectOn;
    var op, w := Process(id, 0.0, Raising(req.policy)), NewWorld(req, id);
    NewEntryInv(p, req, id, 0.0);
    ProcessingOutcome(p, w.db[id], id, 0.0, op.env);
    var w' := AbortOn(p, w, id, op);
    ws, acts := FirstRequest(p, req, id, Abort(op), w');
    RecoverableIff(p, ws, acts, id);
    assert IsProcessing(acts[1], id);
    forall ws': seq<World>, acts': seq<Act> | Continues(p, ws', acts', ws, acts)
      ensures id in ws'[|acts'|].db && ws'[|acts'|].db[id].row.state == Pending
    {
      assert ws'[2] == ws[2];
      RunHistory(p, ws', acts', 2, |acts'|, id);
    }
  }

  lemma SentAtOnce(p: RetryPolicy, req: Request, id: string)
    ensures var eff := EffectOn(p, Process(id, 0.0, Delivering(req.policy, 0.0)), id,
                                Entry(NewRow(req, id, 0.0), []));
            && eff.Done? && eff.entry.row.state == SentToChannel && eff.entry.row.acknowledgedAt.None?
            && eff.entry.row.policy == req.policy
            && eff.entry.row.ackDeadlineAt == Some(DeadlineAfter(req.policy, 0.0))
  {
  }

  // A message without fallback channels that was sent and is never acknowledged: past its deadline
  // it is due at every deadline pass, and none ever makes it a dead letter.
  lemma OverdueForGood(p: RetryPolicy, req: Request, id: string, now: Time) returns (ws: seq<World>, acts: seq<Act>)
    requires req.policy.fallbackChannels == [] && req.policy.acknowledgementDeadlineSeconds as real < now
    ensures IsRequestRun(p, ws, acts)
    ensures acts == [Commit(Create(req, id, 0.0)), Commit(Process(id, 0.0, Delivering(req.policy, 0.0)))]
    ensures forall ws': seq<World>, acts': seq<Act> :: Continues(p, ws', acts', ws, acts) ==>
      && id in ws'[|acts'|].db
      && (DueForEscalation(ws'[|acts'|].db[id].row, now)
          <==> forall n :: 2 <= n < |acts'| ==> !Acknowledges(acts'[n], id))
  {
    hide Step, EffectOn, Made;
    var op := Process(id, 0.0, Delivering(req.policy, 0.0));
    SentAtOnce(p, req, id);
    var w := CommitOn(p, NewWorld(req, id), id, op, 0.0);
    ws, acts := FirstRequest(p, req, id, Commit(op), w);
    forall ws': seq<World>, acts': seq<Act> | Continues(p, ws', acts', ws, acts)
      ensures id in ws'[|acts'|].db
      ensures DueForEscalation(ws'[|acts'|].db[id].row, now)
              <==> forall n :: 2 <= n < |acts'| ==> !Acknowledges(acts'[n], id)
    {
      assert ws'[2] == ws[2];
      OverdueUntilAcknowledged(p, ws', acts', 2, |acts'|, id, now);
    }
  }

  // All channels of the policy are configured but the primary one.
  function WithoutPrimary(policy: Policy): Env {
    Env((set channel | channel in policy.fallbackChannels) - {policy.primaryChannel},
        _ => Reply.Answered(SendResult(true, None, None)), _ => 0.0, _ => 0.0, 0.0)
  }

  // A message with fallback channels whose primary channel is not configured: FAILED at once and for
  // good, and never escalated.
  lemma FailedWithFallbacksLeft(p: RetryPolicy, req: Request, id: string) returns (ws: seq<World>, acts: seq<Act>)
    requires req.policy.fallbackChannels != []
    ensures IsRequestRun(p, ws, acts)
    ensures acts == [Commit(Create(req, id, 0.0)), Commit(Process(id, 0.0, WithoutPrimary(req.policy)))]
    ensures forall ws': seq<World>, acts': seq<Act> :: Continues(p, ws', acts', ws, acts) ==>
      && id in ws'[|acts'|].db && ws'[|acts'|].db[id].row.state == Failed
      && ws'[|acts'|].db[id].row.policy == req.policy
      && ws'[|acts'|].db[id].row.escalatedAt.None?
  {
    hide Step, EffectOn, Made;
    var op, w := Process(id, 0.0, WithoutPrimary(req.policy)), NewWorld(req, id);
    NewEntryInv(p, req, id, 0.0);
    ProcessingOutcome(p, w.db[id], id, 0.0, op.env);
    var w' := CommitOn(p, w, id, op, 0.0);
    ws, acts := FirstRequest(p, req, id, Commit(op), w');
    forall ws': seq<World>, acts': seq<Act> | Continues(p, ws', acts', ws, acts)
      ensures id in ws'[|acts'|].db && ws'[|acts'|].db[id].row.state == Failed
      ensures ws'[|acts'|].db[id].row.policy == req.policy
      ensures ws'[|acts'|].db[id].row.escalatedAt.None?
    {
      assert ws'[1] == ws[1] && ws'[2] == ws[2];
      RunHistory(p, ws', acts', 1, |acts'|, id);
      RunHistory(p, ws', acts', 2, |acts'|, id);
      CommittedRows(p, ws', acts', |acts'|, id);
    }
  }

  lemma FirstAcknowledgement(p: RetryPolicy, id: string, e: Entry, at: Time)
    requires e.row.state == SentToChannel
    ensures var e' := After(p, Acknowledgement(id, at, at), id, e);
            e'.row.state == Acknowledged && e'.row.acknowledgedAt == Some(at) && e'.row.updatedAt == at
  {
  }

  lemma AcknowledgedNext(p: RetryPolicy, ws: seq<World>, acts: seq<Act>, id: string, at: Time, stamp: Time)
    returns (ws': seq<World>, acts': seq<Act>)
    requires IsRequestRun(p, ws, acts) && ws[|acts|].db.Keys == {id}
    ensures Continues(p, ws', acts', ws, acts) && acts' == acts + [Commit(Acknowledgement(id, at, stamp))]
    ensures ws'[|acts'|].db.Keys == {id}
    ensures ws'[|acts'|].db[id] == After(p, Acknowledgement(id, at, stamp), id, ws[|acts|].db[id])
  {
    hide Step, Made, Lifecycle.Acknowledge;
    var op, w := Acknowledgement(id, at, stamp), ws[|acts|];
    var w' := CommitOn(p, w, id, op, w.clock);
    AppendOther(p, ws, acts, Commit(op), w');
    ws', acts' := ws + [w'], acts + [Commit(op)];
  }

  // A message acknowledged, and acknowledged again with another time: the row of the terminal
  // message changes its acknowledgement time and the time of its last change.
  lemma TouchedAfterTheEnd(p: RetryPolicy, req: Request, id: string, at: Time, again: Time, stamp: Time)
    returns (ws: seq<World>, acts: seq<Act>)
    requires at != again && at != stamp
    ensures IsRequestRun(p, ws, acts) && |acts| == 4 && id in ws[3].db && id in ws[4].db
    ensures acts[2..] == [Commit(Acknowledgement(id, at, at)), Commit(Acknowledgement(id, again, stamp))]
    ensures ws[3].db[id].row.state == Acknowledged == ws[4].db[id].row.state
    ensures ws[3].db[id].row.acknowledgedAt == Some(at) && ws[4].db[id].row.acknowledgedAt == Some(again)
    ensures ws[3].db[id].row.updatedAt == at && ws[4].db[id].row.updatedAt == stamp
  {
    hide Step, EffectOn, Made;
    var op := Process(id, 0.0, Delivering(req.policy, 0.0));
    SentAtOnce(p, req, id);
    var w := CommitOn(p, NewWorld(req, id), id, op, 0.0);
    ws, acts := FirstRequest(p, req, id, Commit(op), w);
    FirstAcknowledgement(p, id, w.db[id], at);
    ws, acts := AcknowledgedNext(p, ws, acts, id, at, at);
    ws, acts := AcknowledgedNext(p, ws, acts, id, again, stamp);
    AcknowledgementStep(p, ws, acts, 3, id);
    LateAcknowledgementStamps(p, ws, acts, 3, 3, id);
  }
}
