// Runs as the API makes them. The only caller of process_message is the submission route, which
// hands it the message the submission was answered with, if that message was PENDING.
module Requests {
  import opened Wrappers
  import opened MessageStates
  import opened Messages
  import opened RetryPolicies
  import opened Channels
  import opened Storage
  import opened Lifecycle
  import opened Operations
  import opened Invariants
  import opened Runs
  import opened Theorems

  // Act k is a submission whose second transaction processes message `id`.
  ghost predicate Admits(ws: seq<World>, acts: seq<Act>, k: nat, id: string) {
    && k < |acts| < |ws|
    && acts[k].Commit? && acts[k].op.Create? && Answers(ws[k].db, acts[k].op.req, acts[k].op.newId, id)
    && id in ws[k + 1].db && ws[k + 1].db[id].row.state == Pending
  }

  predicate IsProcessing(act: Act, id: string) {
    act.op.Process? && act.op.id == id
  }

  // Every processing, committed or not, has an earlier submission of its own.
  ghost predicate Made(ws: seq<World>, acts: seq<Act>, origin: seq<nat>) {
    && |origin| == |acts| < |ws|
    && (forall k :: 0 <= k < |acts| && acts[k].op.Process? ==>
          origin[k] < k && Admits(ws, acts, origin[k], acts[k].op.id))
    && (forall k, m :: 0 <= k < m < |acts| && acts[k].op.Process? && acts[m].op.Process? ==> origin[k] != origin[m])
  }

  ghost predicate IsRequestRun(p: RetryPolicy, ws: seq<World>, acts: seq<Act>) {
    IsRun(p, ws, acts) && exists origin :: Made(ws, acts, origin)
  }

  // A request run that goes on from the one given.
  ghost predicate Continues(p: RetryPolicy, ws': seq<World>, acts': seq<Act>, ws: seq<World>, acts: seq<Act>) {
    IsRequestRun(p, ws', acts') && ws <= ws' && acts <= acts'
  }

  lemma FreshId(p: RetryPolicy, w: World, act: Act, w': World)
    requires Step(p, w, act, w') && act.Commit? && act.op.Create?
    ensures HasKey(w.db, act.op.req.key) || act.op.newId !in w.db
  {
  }

  // The submission that admits a message without a key is the one that created it.
  lemma AdmittedByItsCreation(p: RetryPolicy, ws: seq<World>, acts: seq<Act>, k: nat, j: nat, id: string)
    requires IsRun(p, ws, acts) && Admits(ws, acts, k, id) && k < j < |ws|
    requires id in ws[j].db && Keyless(ws[j].db[id].row.key)
    ensures id !in ws[k].db
  {
    hide Committed, Aborted;
    RunHistory(p, ws, acts, k + 1, j, id);
    assert Step(p, ws[k], acts[k], ws[k + 1]);
    if id in ws[k].db {
      StepOnEntry(p, ws[k], acts[k], ws[k + 1], id);
      FreshId(p, ws[k], acts[k], ws[k + 1]);
    }
  }

  lemma SecondSubmission(p: RetryPolicy, ws: seq<World>, acts: seq<Act>, o1: nat, o2: nat, id: string)
    requires IsRun(p, ws, acts) && o1 < o2 && Admits(ws, acts, o1, id) && Admits(ws, acts, o2, id)
    requires id in ws[|acts|].db
    ensures !Keyless(ws[|acts|].db[id].row.key)
  {
    if Keyless(ws[|acts|].db[id].row.key) {
      RunHistory(p, ws, acts, o1 + 1, o2, id);
      AdmittedByItsCreation(p, ws, acts, o2, |acts|, id);
    }
  }

  // A message without a key is handed to processing at most once.
  lemma KeylessProcessedOnce(p: RetryPolicy, ws: seq<World>, acts: seq<Act>, id: string, k: nat, m: nat)
    requires IsRequestRun(p, ws, acts) && k < |acts| && m < |acts|
    requires id in ws[|acts|].db && Keyless(ws[|acts|].db[id].row.key)
    requires IsProcessing(acts[k], id) && IsProcessing(acts[m], id)
    ensures k == m
  {
    hide IsRun, Admits;
    var origin :| Made(ws, acts, origin);
    if k != m {
      var o1, o2 := if origin[k] < origin[m] then origin[k] else origin[m],
                    if origin[k] < origin[m] then origin[m] else origin[k];
      SecondSubmission(p, ws, acts, o1, o2, id);
    }
  }

  // So if the one processing of a message without a key is rolled back, the message is PENDING for
  // good, whatever requests, passes and admin steps follow.
  lemma KeylessRollbackStrands(p: RetryPolicy, ws: seq<World>, acts: seq<Act>, k: nat, j: nat, id: string)
    requires IsRequestRun(p, ws, acts) && k < j < |ws|
    requires acts[k].Abort? && IsProcessing(acts[k], id)
    requires id in ws[k].db && Keyless(ws[k].db[id].row.key)
    ensures id in ws[j].db && ws[j].db[id].row.state == Pending
  {
    hide Step;
    var origin :| Made(ws, acts, origin);
    var born := origin[k] + 1;
    RunHistory(p, ws, acts, k, |acts|, id);
    forall n | born <= n < j
      ensures !Processes(acts[n], id)
    {
      if Processes(acts[n], id) {
        KeylessProcessedOnce(p, ws, acts, id, k, n);
      }
    }
    OnlyProcessingLeavesPending(p, ws, acts, born, j, id);
  }

  predicate SaysWhatWasAsked(r: Row, req: Request, id: string, now: Time) {
    && r.id == id && r.sender == req.sender && r.recipient == req.recipient && r.content == req.content
    && r.policy == req.policy && r.key == req.key && r.createdAt == now
    && r.ackDeadlineAt == Some(now + req.policy.acknowledgementDeadlineSeconds as real)
  }

  // A new message is what its submission asked for, with nothing done to it yet.
  predicate AsRequested(e: Entry, req: Request, id: string, now: Time) {
    var r := e.row;
    && SaysWhatWasAsked(r, req, id, now)
    && r.state == Pending && r.updatedAt == now && r.retryCount == 0 && e.log == []
    && r.sentAt.None? && r.acknowledgedAt.None? && r.escalatedAt.None? && r.externalMessageId.None?
    && r.lastError.None? && r.nextRetryAt.None?
  }

  lemma CreatedAsRequested(req: Request, newId: string, now: Time, db: Db)
    requires !HasKey(db, req.key)
    ensures var db' := Submitted(req, newId, now, db);
            newId in db' && AsRequested(db'[newId], req, newId, now)
  {
  }

  // Every message of a run was created by a submission that admits it, as that submission asked, and
  // carries what was asked ever after.
  lemma {:induction false} Born(p: RetryPolicy, ws: seq<World>, acts: seq<Act>, j: nat, id: string) returns (k: nat)
    requires IsRun(p, ws, acts) && j < |ws| && id in ws[j].db
    ensures k < j && Admits(ws, acts, k, id) && !HasKey(ws[k].db, acts[k].op.req.key)
    ensures AsRequested(ws[k + 1].db[id], acts[k].op.req, id, acts[k].op.now)
    ensures SaysWhatWasAsked(ws[j].db[id].row, acts[k].op.req, id, acts[k].op.now)
  {
    hide AsRequested;
    assert Step(p, ws[j - 1], acts[j - 1], ws[j]);
    if id in ws[j - 1].db {
      StepOnEntry(p, ws[j - 1], acts[j - 1], ws[j], id);
      k := Born(p, ws, acts, j - 1, id);
    } else {
      CreatedAsRequested(acts[j - 1].op.req, id, acts[j - 1].op.now, ws[j - 1].db);
      k := j - 1;
    }
  }

  lemma StillAdmits(ws: seq<World>, acts: seq<Act>, ws': seq<World>, acts': seq<Act>)
    requires |acts| < |ws| && |acts'| < |ws'| && ws <= ws' && acts <= acts'
    ensures forall k, id :: Admits(ws, acts, k, id) ==> Admits(ws', acts', k, id)
  {
  }

  lemma AppendOther(p: RetryPolicy, ws: seq<World>, acts: seq<Act>, act: Act, w: World)
    requires IsRequestRun(p, ws, acts) && Step(p, ws[|acts|], act, w) && !act.op.Process?
    ensures IsRequestRun(p, ws + [w], acts + [act])
  {
    hide Step;
    Append(p, ws, acts, act, w);
    var origin :| Made(ws, acts, origin);
    StillAdmits(ws, acts, ws + [w], acts + [act]);
    assert Made(ws + [w], acts + [act], origin + [0]);
  }

  lemma AppendProcessing(p: RetryPolicy, ws: seq<World>, acts: seq<Act>, origin: seq<nat>, k: nat, act: Act, w: World)
    requires IsRun(p, ws, acts) && Made(ws, acts, origin) && Step(p, ws[|acts|], act, w)
    requires act.op.Process? && Admits(ws, acts, k, act.op.id)
    requires forall m :: 0 <= m < |acts| && acts[m].op.Process? ==> origin[m] != k
    ensures IsRequestRun(p, ws + [w], acts + [act])
  {
    hide Step;
    Append(p, ws, acts, act, w);
    StillAdmits(ws, acts, ws + [w], acts + [act]);
    assert Made(ws + [w], acts + [act], origin + [k]);
  }

  // One submission handled to its end, with nothing in between: this is what Service.Api.PostMessage
  // does to the tables when it gets as far as processing.
  lemma RequestContinues(p: RetryPolicy, ws: seq<World>, acts: seq<Act>, create: Act, w1: World, process: Act,
                         w2: World)
    requires IsRequestRun(p, ws, acts) && Step(p, ws[|acts|], create, w1) && Step(p, w1, process, w2)
    requires create.Commit? && create.op.Create? && process.op.Process?
    requires Answers(ws[|acts|].db, create.op.req, create.op.newId, process.op.id)
    requires process.op.id in w1.db && w1.db[process.op.id].row.state == Pending
    ensures Continues(p, ws + [w1] + [w2], acts + [create] + [process], ws, acts)
  {
    hide Step;
    AppendOther(p, ws, acts, create, w1);
    var origin :| Made(ws + [w1], acts + [create], origin);
    AppendProcessing(p, ws + [w1], acts + [create], origin, |acts|, process, w2);
  }

  // The primary channel of a policy is configured and takes every message.
  function Delivering(policy: Policy, now: Time): Env {
    Env({policy.primaryChannel}, _ => Reply.Answered(SendResult(true, None, None)), _ => now, _ => 0.0, now)
  }

  // What a processing that succeeds leaves.
  lemma DeliveringStep(p: RetryPolicy, w: World, id: string) returns (act: Act, w': World)
    requires id in w.db && RowInv(p, w.db[id].row) && w.db[id].row.state == Pending
    ensures act == Commit(Process(id, w.clock, Delivering(w.db[id].row.policy, w.clock)))
    ensures Step(p, w, act, w')
    ensures id in w'.db && w'.db[id].row.state == SentToChannel
  {
    hide Deliver;
    var env := Delivering(w.db[id].row.policy, w.clock);
    var op := Process(id, w.clock, env);
    var eff := EffectOn(p, op, id, w.db[id]);
    ProcessingOutcome(p, w.db[id], id, w.clock, env);
    act, w' := Commit(op), World(w.db[id := eff.entry], w.sends + Calls(id, eff), w.lost, w.clock);
    OnlyOne(p, op, w.db, w.sends, id, w'.db, w'.sends);
  }

  // Sending the request again with the same key changes no message, and gets the old one processed.
  lemma ResubmissionRecovers(p: RetryPolicy, ws: seq<World>, acts: seq<Act>, id: string)
    returns (ws': seq<World>, acts': seq<Act>)
    requires IsRequestRun(p, ws, acts) && id in ws[|acts|].db
    requires ws[|acts|].db[id].row.state == Pending && !Keyless(ws[|acts|].db[id].row.key)
    ensures Continues(p, ws', acts', ws, acts) && |acts'| == |acts| + 2
    ensures acts'[|acts|].op.Create? && ws'[|acts| + 1].db == ws[|acts|].db
    ensures id in ws'[|acts'|].db && ws'[|acts'|].db[id].row.state == SentToChannel
  {
    hide RowInv;
    var w := ws[|acts|];
    var r := w.db[id].row;
    var create := Commit(Create(Request(r.sender, r.recipient, r.content, r.policy, r.key), id, w.clock));
    assert HasKey(w.db, r.key);
    assert Step(p, w, create, w);
    CommittedRows(p, ws, acts, |acts|, id);
    var process, w' := DeliveringStep(p, w, id);
    RequestContinues(p, ws, acts, create, w, process, w');
    ws', acts' := ws + [w] + [w'], acts + [create] + [process];
  }

  // A processing that no request has begun yet can still succeed.
  lemma FirstProcessing(p: RetryPolicy, ws: seq<World>, acts: seq<Act>, id: string)
    returns (ws': seq<World>, acts': seq<Act>)
    requires IsRequestRun(p, ws, acts) && id in ws[|acts|].db && ws[|acts|].db[id].row.state == Pending
    requires forall k :: 0 <= k < |acts| ==> !IsProcessing(acts[k], id)
    ensures Continues(p, ws', acts', ws, acts)
    ensures id in ws'[|acts'|].db && ws'[|acts'|].db[id].row.state == SentToChannel
  {
    hide Step, RowInv;
    var k := Born(p, ws, acts, |acts|, id);
    var origin :| Made(ws, acts, origin);
    forall m | 0 <= m < |acts| && acts[m].op.Process?
      ensures origin[m] != k
    {
      assert !IsProcessing(acts[m], id);
    }
    CommittedRows(p, ws, acts, |acts|, id);
    var act, w := DeliveringStep(p, ws[|acts|], id);
    AppendProcessing(p, ws, acts, origin, k, act, w);
    ws', acts' := ws + [w], acts + [act];
  }

  // Some requests, passes and admin steps can take the message out of PENDING.
  ghost predicate Recoverable(p: RetryPolicy, ws: seq<World>, acts: seq<Act>, id: string) {
    exists ws': seq<World>, acts': seq<Act> ::
      && Continues(p, ws', acts', ws, acts)
      && id in ws'[|acts'|].db && ws'[|acts'|].db[id].row.state != Pending
  }

  lemma NeverAgain(p: RetryPolicy, ws: seq<World>, acts: seq<Act>, ws': seq<World>, acts': seq<Act>, k: nat, id: string)
    requires IsRequestRun(p, ws, acts) && Continues(p, ws', acts', ws, acts)
    requires id in ws[|acts|].db && ws[|acts|].db[id].row.state == Pending && Keyless(ws[|acts|].db[id].row.key)
    requires k < |acts| && IsProcessing(acts[k], id)
    ensures id in ws'[|acts'|].db && ws'[|acts'|].db[id].row.state == Pending
  {
    hide Step;
    var origin :| Made(ws, acts, origin);
    OnlyProcessingLeavesPending(p, ws, acts, origin[k] + 1, |acts|, id);
    RunHistory(p, ws, acts, origin[k] + 1, k, id);
    RunHistory(p, ws, acts, k, |acts|, id);
    assert ws'[k] == ws[k] && acts'[k] == acts[k];
    KeylessRollbackStrands(p, ws', acts', k, |acts'|, id);
  }

  // A PENDING message can be recovered if and only if it has a key or was not processed yet. Both
  // are known before the request is sent again; after a processing that was rolled back only the
  // key is left.
  lemma RecoverableIff(p: RetryPolicy, ws: seq<World>, acts: seq<Act>, id: string)
    requires IsRequestRun(p, ws, acts) && id in ws[|acts|].db && ws[|acts|].db[id].row.state == Pending
    ensures Recoverable(p, ws, acts, id)
            <==> || (ws[|acts|].db[id].row.key.Some? && ws[|acts|].db[id].row.key.value != "")
                 || forall k :: 0 <= k < |acts| ==> !IsProcessing(acts[k], id)
  {
    hide Step, Admits;
    if !Keyless(ws[|acts|].db[id].row.key) {
      var ws', acts' := ResubmissionRecovers(p, ws, acts, id);
    } else if k :| 0 <= k < |acts| && IsProcessing(acts[k], id) {
      forall ws': seq<World>, acts': seq<Act> | Continues(p, ws', acts', ws, acts)
        ensures id in ws'[|acts'|].db && ws'[|acts'|].db[id].row.state == Pending
      {
        NeverAgain(p, ws, acts, ws', acts', k, id);
      }
    } else {
      var ws', acts' := FirstProcessing(p, ws, acts, id);
    }
  }
}
