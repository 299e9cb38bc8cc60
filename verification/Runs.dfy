// Runs: any sequence of transactions, each committed or rolled back, at times of a clock that
// never goes back. The theorems here are about every state of every run.
module Runs {
  import opened Wrappers
  import opened RetryPolicies
  import opened Storage
  import opened Operations
  import opened Invariants
  import opened History

  // `sends` counts the calls made to channels for each message, `lost` the rolled-back
  // transactions that could have made one.
  datatype World = World(db: Db, sends: multiset<string>, lost: multiset<string>, clock: Time)

  datatype Act = Commit(op: Op) | Abort(op: Op)

  // Every clock reading of the operation lies between two times. An acknowledgement carries a
  // time of its own, which need not be a clock reading.
  ghost predicate Timely(op: Op, db: Db, lo: Time, hi: Time) {
    match op
    case Create(_, _, now) => lo <= now <= hi
    case Process(id, queuedAt, env) => lo <= queuedAt <= env.clock(id) <= hi
    case Acknowledgement(_, _, _) => true
    case DeadlinePass(now, _) => lo <= now <= hi
    case FallbackPass(env) => forall id :: id in db ==> lo <= env.clock(id) <= hi
    case RetryPass(now, env) => lo <= now <= hi && forall id :: id in db ==> now <= env.clock(id) <= hi
    case AdminEscalate(_, now, _) => lo <= now <= hi
    case AdminRetryFallback(id, _, env) => lo <= env.clock(id) <= hi
  }

  ghost predicate Step(p: RetryPolicy, w: World, act: Act, w': World) {
    && w.clock <= w'.clock
    && Timely(act.op, w.db, w.clock, w'.clock)
    && match act
       case Commit(op) => Committed(p, op, w.db, w.sends, w'.db, w'.sends) && w'.lost == w.lost
       case Abort(op) =>
         && Aborted(p, op, w.db, w.sends, w'.db, w'.sends)
         && forall id :: w'.lost[id] == w.lost[id] + CallCount(p, op, id, w.db)
  }

  ghost predicate IsRun(p: RetryPolicy, ws: seq<World>, acts: seq<Act>) {
    && |ws| == |acts| + 1
    && ws[0].db == map[] && ws[0].sends == multiset{} && ws[0].lost == multiset{}
    && forall i {:trigger acts[i]} :: 0 <= i < |acts| ==> Step(p, ws[i], acts[i], ws[i + 1])
  }

  lemma Append(p: RetryPolicy, ws: seq<World>, acts: seq<Act>, act: Act, w: World)
    requires IsRun(p, ws, acts) && Step(p, ws[|ws| - 1], act, w)
    ensures IsRun(p, ws + [w], acts + [act])
  {
    hide Step;
    var ws', acts' := ws + [w], acts + [act];
    forall i | 0 <= i < |acts'|
      ensures Step(p, ws'[i], acts'[i], ws'[i + 1])
    {
      if i < |acts| {
        assert ws'[i] == ws[i] && ws'[i + 1] == ws[i + 1] && acts'[i] == acts[i];
      }
    }
  }

  function RecordedAttempts(db: Db, id: string): nat {
    if id in db then Attempts(db[id].log) else 0
  }

  ghost predicate EntriesInv(p: RetryPolicy, db: Db) {
    forall id :: id in db ==> Inv(p, db[id], MaxMoves(p))
  }

  ghost predicate SendsInv(w: World) {
    forall id ::
      && RecordedAttempts(w.db, id) <= w.sends[id] <= RecordedAttempts(w.db, id) + w.lost[id]
      && (id !in w.db ==> w.sends[id] == 0)
  }

  ghost predicate WorldInv(p: RetryPolicy, w: World) {
    Consistent(w.db) && EntriesInv(p, w.db) && SendsInv(w)
  }

  lemma StepEntries(p: RetryPolicy, w: World, act: Act, w': World)
    requires EntriesInv(p, w.db) && Step(p, w, act, w')
    ensures EntriesInv(p, w'.db)
  {
    forall id | id in w'.db
      ensures Inv(p, w'.db[id], MaxMoves(p))
    {
      if id in w.db {
        EffectInv(p, MaxMoves(p), act.op, id, w.db[id]);
      } else {
        NewEntryInv(p, act.op.req, id, act.op.now);
      }
    }
  }

  // What one step does to one message.
  lemma StepOnEntry(p: RetryPolicy, w: World, act: Act, w': World, id: string)
    requires Step(p, w, act, w') && id in w.db
    ensures id in w'.db
    ensures w'.db[id] == w.db[id] || (act.Commit? && w'.db[id] == After(p, act.op, id, w.db[id]))
    ensures act.Abort? || act.op.Create? ==> w'.db[id] == w.db[id]
    ensures Later(w.db[id], w'.db[id])
    ensures act.Commit? && !act.op.Create? ==>
      EffectOn(p, act.op, id, w.db[id]).Done? && w'.db[id] == EffectOn(p, act.op, id, w.db[id]).entry
  {
    hide EffectOn, Later;
    EffectLater(p, act.op, id, w.db[id]);
    LaterReflexive(w.db[id]);
  }

  lemma SubmittedConsistent(op: Op, db: Db)
    requires Consistent(db) && op.Create?
    requires HasKey(db, op.req.key) || (op.newId !in db && !KeyTaken(db, op.req.key, op.newId))
    ensures Consistent(Submitted(op.req, op.newId, op.now, db))
  {
  }

  lemma KeptConsistent(db: Db, db': Db)
    requires Consistent(db) && db'.Keys == db.Keys
    requires forall id :: id in db ==> SameIdentity(db[id].row, db'[id].row)
    ensures Consistent(db')
  {
  }

  lemma StepConsistent(p: RetryPolicy, w: World, act: Act, w': World)
    requires Consistent(w.db) && Step(p, w, act, w')
    ensures Consistent(w'.db)
  {
    hide EffectOn, Consistent;
    forall id | id in w.db
      ensures id in w'.db && SameIdentity(w.db[id].row, w'.db[id].row)
    {
      StepOnEntry(p, w, act, w', id);
    }
    if act.Commit? && act.op.Create? {
      SubmittedConsistent(act.op, w.db);
    } else {
      KeptConsistent(w.db, w'.db);
    }
  }

  lemma NothingAttempted()
    ensures Attempts([]) == 0
  {
  }

  lemma StepSends(p: RetryPolicy, w: World, act: Act, w': World)
    requires SendsInv(w) && Step(p, w, act, w')
    ensures SendsInv(w')
  {
    hide EffectOn, Attempts;
    forall id
      ensures RecordedAttempts(w'.db, id) <= w'.sends[id] <= RecordedAttempts(w'.db, id) + w'.lost[id]
      ensures id !in w'.db ==> w'.sends[id] == 0
    {
      assert RecordedAttempts(w.db, id) <= w.sends[id] <= RecordedAttempts(w.db, id) + w.lost[id];
      if act.Commit? && !act.op.Create? && id in w.db {
        EffectAttempts(p, act.op, id, w.db[id]);
      } else if id !in w.db {
        NothingAttempted();
      }
    }
  }

  lemma {:induction false} RunInv(p: RetryPolicy, ws: seq<World>, acts: seq<Act>, i: nat)
    requires IsRun(p, ws, acts) && i < |ws|
    ensures WorldInv(p, ws[i])
  {
    if i > 0 {
      RunInv(p, ws, acts, i - 1);
      assert Step(p, ws[i - 1], acts[i - 1], ws[i]);
      StepEntries(p, ws[i - 1], acts[i - 1], ws[i]);
      StepConsistent(p, ws[i - 1], acts[i - 1], ws[i]);
      StepSends(p, ws[i - 1], acts[i - 1], ws[i]);
    }
  }
}
