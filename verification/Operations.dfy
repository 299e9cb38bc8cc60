// The transactions of the system as steps on the whole store. A step either commits, with a
// pointwise effect on all messages, or is rolled back, keeping the tables but not the calls
// already made to channels.
module Operations {
  import opened Wrappers
  import opened MessageStates
  import opened RetryPolicies
  import opened Channels
  import opened Storage
  import opened Lifecycle

  datatype Op =
    | Create(req: Request, newId: string, now: Time)
    | Process(id: string, queuedAt: Time, env: Env)
    | Acknowledgement(id: string, at: Time, stamp: Time)
    | DeadlinePass(now: Time, stamp: Time)
    | FallbackPass(env: Env)
    | RetryPass(now: Time, env: Env)
    | AdminEscalate(id: string, now: Time, stamp: Time)
    | AdminRetryFallback(id: string, channel: string, env: Env)

  // What a committed operation does to the entry of message `id`.
  function EffectOn(p: RetryPolicy, op: Op, id: string, e: Entry): Effect {
    match op
    case Create(_, _, _) => Done(e, false)
    case Process(target, queuedAt, env) =>
      if id == target then Deliver(Enqueue(e, queuedAt, env.stamp), env.clock(id), env) else Done(e, false)
    case Acknowledgement(target, at, stamp) => Done(if id == target then Acknowledge(e, at, stamp) else e, false)
    case DeadlinePass(now, stamp) =>
      Done(if DueForEscalation(e.row, now) then Escalate(e, e.row, now, stamp) else e, false)
    case FallbackPass(env) =>
      if e.row.state == EscalationPending && e.row.policy.fallbackChannels != []
      then Fallback(p, e, e.row.policy.fallbackChannels[0], env.clock(id), env, env.jitter(id))
      else Done(e, false)
    case RetryPass(now, env) =>
      if !DueForRetry(e.row, now) then Done(e, false)
      else if e.row.state == Queued then Deliver(e, env.clock(id), env)
      else Done(if e.row.state == EscalationDeferred then Escalate(e, e.row, now, env.stamp) else e, false)
    case AdminEscalate(target, now, stamp) =>
      Done(if id == target && e.row.state == SentToChannel then Escalate(e, e.row, now, stamp) else e, false)
    case AdminRetryFallback(target, channel, env) =>
      if id == target then Fallback(p, e, channel, env.clock(id), env, env.jitter(id)) else Done(e, false)
  }

  function After(p: RetryPolicy, op: Op, id: string, e: Entry): Entry {
    match EffectOn(p, op, id, e)
    case Done(e', _) => e'
    case Aborts => e
  }

  // How many calls to a channel the operation makes for message `id`.
  function CallCount(p: RetryPolicy, op: Op, id: string, db: Db): nat {
    if id in db && var eff := EffectOn(p, op, id, db[id]); eff.Aborts? || eff.called then 1 else 0
  }

  // The operation done for the messages in `handled` and not yet for the others.
  function Partial(p: RetryPolicy, op: Op, db: Db, handled: set<string>): Db {
    map id | id in db :: if id in handled then After(p, op, id, db[id]) else db[id]
  }

  function Pointwise(p: RetryPolicy, op: Op, db: Db): Db {
    map id | id in db :: After(p, op, id, db[id])
  }

  // An empty key is no key.
  predicate Keyless(key: Option<string>) {
    key.None? || key.value == ""
  }

  // The lookup of create_message.
  predicate HasKey(db: Db, key: Option<string>) {
    !Keyless(key) && exists id :: id in db && db[id].row.key == key
  }

  // Submission: a known key changes nothing, otherwise one new message appears.
  function Submitted(req: Request, newId: string, now: Time, db: Db): Db {
    if HasKey(db, req.key) then db else db[newId := Entry(NewRow(req, newId, now), [])]
  }

  // The message a submission is answered with: the one that has its key, or else the new one.
  ghost predicate Answers(db: Db, req: Request, newId: string, id: string) {
    if HasKey(db, req.key) then id in db && db[id].row.key == req.key else id == newId
  }

  ghost predicate Committed(p: RetryPolicy, op: Op, db: Db, sends: multiset<string>, db': Db,
      sends': multiset<string>) {
    if op.Create? then
      && (HasKey(db, op.req.key) || (op.newId !in db && !KeyTaken(db, op.req.key, op.newId)))
      && db' == Submitted(op.req, op.newId, op.now, db)
      && sends' == sends
    else
      && (forall id :: id in db ==> EffectOn(p, op, id, db[id]).Done?)
      && db' == Pointwise(p, op, db)
      && (forall id :: sends'[id] == sends[id] + CallCount(p, op, id, db))
  }

  ghost predicate Aborted(p: RetryPolicy, op: Op, db: Db, sends: multiset<string>, db': Db, sends': multiset<string>) {
    && db' == db
    && (forall id :: sends[id] <= sends'[id] <= sends[id] + CallCount(p, op, id, db))
  }

  // A message whose channel throws, which no run of the operation can commit past.
  ghost predicate SomeChannelThrows(p: RetryPolicy, op: Op, db: Db) {
    exists id :: id in db && EffectOn(p, op, id, db[id]).Aborts?
  }

  // Between two iterations of a pass: the messages in `handled` are done.
  ghost predicate Midway(p: RetryPolicy, op: Op, db: Db, sends: multiset<string>, handled: set<string>,
                         db': Db, sends': multiset<string>)
  {
    && (forall id :: id in db && id in handled ==> EffectOn(p, op, id, db[id]).Done?)
    && db' == Partial(p, op, db, handled)
    && (forall id :: sends'[id] == sends[id] + if id in handled then CallCount(p, op, id, db) else 0)
  }

  lemma MidwayAtStart(p: RetryPolicy, op: Op, db: Db, sends: multiset<string>)
    ensures Midway(p, op, db, sends, {}, db, sends)
  {
    assert Partial(p, op, db, {}) == db;
  }

  lemma AbortedAtStart(p: RetryPolicy, op: Op, db: Db, sends: multiset<string>)
    ensures Aborted(p, op, db, sends, db, sends)
  {
  }

  // When a step could commit, losing it at the commit itself is an abort.
  lemma CommittedOrLost(p: RetryPolicy, op: Op, db: Db, sends: multiset<string>, db': Db, sends': multiset<string>)
    requires Committed(p, op, db, sends, db', sends')
    ensures Aborted(p, op, db, sends, db, sends')
  {
  }

  // A pass that has handled every message it can change has committed its pointwise effect.
  lemma MidwayAtEnd(p: RetryPolicy, op: Op, db: Db, sends: multiset<string>, handled: set<string>,
                    db': Db, sends': multiset<string>)
    requires !op.Create? && Midway(p, op, db, sends, handled, db', sends')
    requires forall id :: id in db && id !in handled ==> EffectOn(p, op, id, db[id]) == Done(db[id], false)
    ensures Committed(p, op, db, sends, db', sends')
  {
    assert Partial(p, op, db, handled) == Pointwise(p, op, db);
  }

  lemma MidwayStep(p: RetryPolicy, op: Op, db: Db, sends: multiset<string>, handled: set<string>,
                   db1: Db, sends1: multiset<string>, id: string, db2: Db, sends2: multiset<string>)
    requires id in db && id !in handled
    requires Midway(p, op, db, sends, handled, db1, sends1)
    requires var eff := EffectOn(p, op, id, db[id]);
             eff.Done? && db2 == db1[id := eff.entry] && sends2 == sends1 + Calls(id, eff)
    ensures Midway(p, op, db, sends, handled + {id}, db2, sends2)
  {
    hide EffectOn;
    assert db2 == Partial(p, op, db, handled + {id});
  }

  // An operation on one message commits when it has handled that message.
  lemma OnlyOne(p: RetryPolicy, op: Op, db: Db, sends: multiset<string>, id: string, db': Db, sends': multiset<string>)
    requires !op.Create? && id in db
    requires var eff := EffectOn(p, op, id, db[id]);
             eff.Done? && db' == db[id := eff.entry] && sends' == sends + Calls(id, eff)
    requires forall other :: other in db && other != id ==> EffectOn(p, op, other, db[other]) == Done(db[other], false)
    ensures Committed(p, op, db, sends, db', sends')
  {
    hide EffectOn, Midway, Committed;
    MidwayAtStart(p, op, db, sends);
    MidwayStep(p, op, db, sends, {}, db, sends, id, db', sends');
    MidwayAtEnd(p, op, db, sends, {} + {id}, db', sends');
  }

  lemma SameIds(p: RetryPolicy, op: Op, db: Db, sends: multiset<string>, handled: set<string>,
                db1: Db, sends1: multiset<string>)
    requires Midway(p, op, db, sends, handled, db1, sends1)
    ensures db1.Keys == db.Keys
  {
  }

  lemma MidwayCutShort(p: RetryPolicy, op: Op, db: Db, sends: multiset<string>, handled: set<string>,
                       db1: Db, sends1: multiset<string>)
    requires Midway(p, op, db, sends, handled, db1, sends1)
    ensures Aborted(p, op, db, sends, db, sends1)
  {
  }

  lemma MidwayAborted(p: RetryPolicy, op: Op, db: Db, sends: multiset<string>, handled: set<string>,
                      db1: Db, sends1: multiset<string>, id: string, sends2: multiset<string>)
    requires id in db && id !in handled
    requires Midway(p, op, db, sends, handled, db1, sends1)
    requires sends2 == sends1 || sends2 == sends1 + Calls(id, EffectOn(p, op, id, db[id]))
    ensures Aborted(p, op, db, sends, db, sends2)
  {
  }
}
