// The fallback loop over an arbitrary list of messages: they may repeat, be unknown, or no longer
// be ESCALATION_PENDING.
module Sweeps {
  import opened Wrappers
  import opened MessageStates
  import opened Messages
  import opened RetryPolicies
  import opened Channels
  import opened Storage
  import opened Lifecycle
  import opened Operations
  import opened History

  // The messages table and the calls made so far.
  datatype Tables = Tables(db: Db, sends: multiset<string>)

  function SweepOne(p: RetryPolicy, env: Env, id: string, t: Tables): Tables {
    if id !in t.db then t
    else
      Tables(t.db[id := After(p, FallbackPass(env), id, t.db[id])],
             t.sends + Calls(id, EffectOn(p, FallbackPass(env), id, t.db[id])))
  }

  // The messages of the list handled one after the other, each as it is by then.
  function Sweep(p: RetryPolicy, env: Env, ids: seq<string>, t: Tables): Tables {
    if ids == [] then t
    else SweepOne(p, env, ids[|ids| - 1], Sweep(p, env, ids[..|ids| - 1], t))
  }

  function Members(ids: seq<string>): set<string> {
    set id | id in ids
  }

  lemma MembersOfIds(records: seq<MessageRecord>)
    ensures Members(IdSeq(records)) == Ids(records)
  {
    forall id | id in Ids(records)
      ensures id in IdSeq(records)
    {
      var i :| 0 <= i < |records| && records[i].id == id;
      assert IdSeq(records)[i] == id;
    }
  }

  lemma NoLongerPending(p: RetryPolicy, e: Entry, channel: string, now: Time, env: Env, u: Unit)
    requires e.row.state == EscalationPending && Fallback(p, e, channel, now, env, u).Done?
    ensures Fallback(p, e, channel, now, env, u).entry.row.state != EscalationPending
  {
    hide RetryPolicy.Delay;
  }

  // A second attempt finds nothing to do.
  lemma FallbackOnce(p: RetryPolicy, env: Env, id: string, e: Entry)
    requires EffectOn(p, FallbackPass(env), id, e).Done?
    ensures EffectOn(p, FallbackPass(env), id, After(p, FallbackPass(env), id, e)) ==
            Done(After(p, FallbackPass(env), id, e), false)
  {
    if e.row.state == EscalationPending && e.row.policy.fallbackChannels != [] {
      NoLongerPending(p, e, e.row.policy.fallbackChannels[0], env.clock(id), env, env.jitter(id));
    }
  }

  ghost predicate AllAnswered(p: RetryPolicy, env: Env, ids: seq<string>, db: Db) {
    forall id :: id in db && id in ids ==> EffectOn(p, FallbackPass(env), id, db[id]).Done?
  }

  lemma SameHandled(p: RetryPolicy, op: Op, db: Db, sends: multiset<string>, handled: set<string>, id: string,
                    t: Tables)
    requires Midway(p, op, db, sends, handled, t.db, t.sends) && (id in handled || id !in db)
    ensures Midway(p, op, db, sends, handled + {id}, t.db, t.sends)
  {
    hide EffectOn;
    assert Partial(p, op, db, handled + {id}) == Partial(p, op, db, handled);
  }

  // One more id keeps the sweep in step with the pointwise pass, also when the id was seen before.
  lemma SweepOneIsPointwise(p: RetryPolicy, env: Env, db: Db, sends: multiset<string>, handled: set<string>,
                            id: string, t: Tables)
    requires Midway(p, FallbackPass(env), db, sends, handled, t.db, t.sends)
    requires id in db ==> EffectOn(p, FallbackPass(env), id, db[id]).Done?
    ensures var t' := SweepOne(p, env, id, t);
            Midway(p, FallbackPass(env), db, sends, handled + {id}, t'.db, t'.sends)
  {
    hide EffectOn;
    var op, t' := FallbackPass(env), SweepOne(p, env, id, t);
    if id in db && id !in handled {
      MidwayStep(p, op, db, sends, handled, t.db, t.sends, id, t'.db, t'.sends);
    } else {
      if id in db {
        FallbackOnce(p, env, id, db[id]);
        assert t'.db == t.db;
      }
      assert t' == t;
      SameHandled(p, op, db, sends, handled, id, t);
    }
  }

  // Order, repetitions and strangers in the list do not matter: tables and calls are those of the
  // pointwise pass over its members.
  lemma {:induction false} SweepIsPointwise(p: RetryPolicy, env: Env, ids: seq<string>, db: Db, sends: multiset<string>)
    requires AllAnswered(p, env, ids, db)
    ensures var t := Sweep(p, env, ids, Tables(db, sends));
            Midway(p, FallbackPass(env), db, sends, Members(ids), t.db, t.sends)
  {
    hide EffectOn, Midway, SweepOne;
    if ids == [] {
      MidwayAtStart(p, FallbackPass(env), db, sends);
      assert Members(ids) == {};
    } else {
      var init, last := ids[..|ids| - 1], ids[|ids| - 1];
      assert ids == init + [last];
      SweepIsPointwise(p, env, init, db, sends);
      SweepOneIsPointwise(p, env, db, sends, Members(init), last, Sweep(p, env, init, Tables(db, sends)));
      assert Members(ids) == Members(init) + {last};
    }
  }

  lemma NothingSwept(p: RetryPolicy, env: Env, db: Db, sends: multiset<string>)
    ensures AllAnswered(p, env, [], db) && Sweep(p, env, [], Tables(db, sends)) == Tables(db, sends)
  {
  }

  lemma SweptOneMore(p: RetryPolicy, env: Env, ids: seq<string>, n: nat, start: Tables, t: Tables)
    requires n < |ids| && AllAnswered(p, env, ids[..n], start.db) && t == Sweep(p, env, ids[..n], start)
    requires ids[n] in start.db ==> EffectOn(p, FallbackPass(env), ids[n], start.db[ids[n]]).Done?
    ensures AllAnswered(p, env, ids[..n + 1], start.db)
    ensures SweepOne(p, env, ids[n], t) == Sweep(p, env, ids[..n + 1], start)
  {
    hide EffectOn, SweepOne;
    assert ids[..n + 1] == ids[..n] + [ids[n]];
    assert ids[..n + 1][..n] == ids[..n];
  }

  // The attempt the loop makes for a record is the effect of the pass on its line.
  lemma AttemptIsEffect(p: RetryPolicy, env: Env, id: string, e: Entry)
    ensures EffectOn(p, FallbackPass(env), id, e) ==
            if e.row.policy.fallbackChannels == [] then Done(e, false)
            else Fallback(p, e, e.row.policy.fallbackChannels[0], env.clock(id), env, env.jitter(id))
  {
    hide SendFallback;
  }

  // In the middle of a pass a message is as it was, or there is nothing left to do for it.
  lemma MidwayEffect(p: RetryPolicy, env: Env, db: Db, sends: multiset<string>, handled: set<string>, id: string,
                     t: Tables)
    requires Midway(p, FallbackPass(env), db, sends, handled, t.db, t.sends) && id in db
    ensures id in t.db && t.db[id].row.policy == db[id].row.policy
    ensures EffectOn(p, FallbackPass(env), id, t.db[id]) ==
            if id in handled then Done(t.db[id], false) else EffectOn(p, FallbackPass(env), id, db[id])
    ensures id in handled ==> EffectOn(p, FallbackPass(env), id, db[id]).Done?
  {
    hide EffectOn;
    EffectLater(p, FallbackPass(env), id, db[id]);
    if id in handled {
      FallbackOnce(p, env, id, db[id]);
    }
  }
}
