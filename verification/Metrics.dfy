// app/observability/metrics.py, and get_message_stats of app/api/routes/admin.py: counts over the
// store, and the health report that is made from them.
module Metrics {
  import opened Wrappers
  import opened MessageStates
  import opened Messages
  import opened RetryPolicies
  import opened Storage
  import opened Runs
  import opened Theorems

  const ALL_STATES := [Pending, Queued, Sending, SentToChannel, Acknowledged, EscalationPending, FallbackSending,
                       FallbackDelivered, Failed, DeadLetter, EscalationDeferred]

  const SUCCESSES := {SentToChannel, Acknowledged, FallbackDelivered}
  const FAILURES := {Failed, DeadLetter}

  function InStates(db: Db, states: set<State>): set<string> {
    set id | id in db && db[id].row.state in states
  }

  // The messages created at or after the cutoff.
  function Recent(db: Db, states: set<State>, cutoff: Time): set<string> {
    set id | id in db && db[id].row.state in states && db[id].row.createdAt >= cutoff
  }

  // An acknowledgement may have come late, so these need not be in state ACKNOWLEDGED.
  function Answered(db: Db): set<string> {
    set id | id in db && db[id].row.acknowledgedAt.Some?
  }

  function Total(db: Db, states: seq<State>): nat {
    if states == [] then 0
    else Total(db, states[..|states| - 1]) + |InStates(db, {states[|states| - 1]})|
  }

  function Elements(states: seq<State>): set<State> {
    set s | s in states
  }

  lemma OneMoreElement(states: seq<State>, i: nat)
    requires i < |states|
    ensures Elements(states[..i + 1]) == Elements(states[..i]) + {states[i]}
  {
  }

  lemma OneMoreState(db: Db, states: set<State>, last: State)
    requires last !in states
    ensures |InStates(db, states + {last})| == |InStates(db, states)| + |InStates(db, {last})|
  {
    var before, more := InStates(db, states), InStates(db, {last});
    assert before !! more;
    assert InStates(db, states + {last}) == before + more;
  }

  lemma {:induction false} TotalOfDistinct(db: Db, states: seq<State>)
    requires forall i, j :: 0 <= i < j < |states| ==> states[i] != states[j]
    ensures Total(db, states) == |InStates(db, Elements(states))|
  {
    if states == [] {
      assert InStates(db, Elements(states)) == {};
    } else {
      var init, last := states[..|states| - 1], states[|states| - 1];
      TotalOfDistinct(db, init);
      assert last !in init;
      assert states == init + [last];
      OneMoreState(db, Elements(init), last);
      assert Elements(states) == Elements(init) + {last};
    }
  }

  lemma StateListed(s: State)
    ensures s in ALL_STATES
  {
  }

  // The per-state counts of every store add up to its number of messages.
  lemma CountsAddUp(db: Db)
    ensures Total(db, ALL_STATES) == |db|
  {
    TotalOfDistinct(db, ALL_STATES);
    forall id | id in db
      ensures db[id].row.state in ALL_STATES
    {
      StateListed(db[id].row.state);
    }
    assert InStates(db, Elements(ALL_STATES)) == db.Keys;
  }

  lemma Share(part: nat, rest: nat)
    requires part + rest > 0
    ensures 0.0 <= part as real / (part + rest) as real <= 1.0
    ensures part as real / (part + rest) as real == 1.0 <==> rest == 0
  {
  }

  class MessageMetrics {
    var totalMessages: nat
    var messagesByState: map<State, nat>
    var messagesAcknowledged: nat
    var messagesFailed: nat
    var messagesDeadLetter: nat
    var successfulDeliveries24h: nat
    var failedDeliveries24h: nat
    var averageTimeToAcknowledge: real

    // No code computes it.
    const medianTimeToAcknowledge := 0.0

    constructor ()
      ensures averageTimeToAcknowledge == 0.0
    {
      totalMessages, messagesByState, averageTimeToAcknowledge := 0, map[], 0.0;
      messagesAcknowledged, messagesFailed, messagesDeadLetter := 0, 0, 0;
      successfulDeliveries24h, failedDeliveries24h := 0, 0;
    }

    // A percentage for every snapshot, also for an empty one.
    function DeliverySuccessRate(): (rate: real)
      reads this
      ensures 0.0 <= rate <= 100.0
      ensures rate == 100.0 <==> failedDeliveries24h == 0 && successfulDeliveries24h > 0
      ensures rate * (successfulDeliveries24h + failedDeliveries24h) as real == 100.0 * successfulDeliveries24h as real
    {
      var total := successfulDeliveries24h + failedDeliveries24h;
      if total == 0 then 0.0
      else
        Share(successfulDeliveries24h, failedDeliveries24h);
        successfulDeliveries24h as real / total as real * 100.0
    }
  }

  // One counting statement.
  method CountIn(session: Session, state: State) returns (r: Result<nat>)
    modifies session`budget
    ensures r.Success? <==> old(session.budget) > 0
    ensures r.Success? ==>
      session.budget == old(session.budget) - 1 && r.value == |InStates(session.working, {state})|
  {
    var s := session.Execute();
    return if s.Ok? then Success(|InStates(session.working, {state})|) else Failure(s.fault);
  }

  ghost predicate CountsOf(stats: map<State, nat>, db: Db) {
    forall s: State :: s in stats && stats[s] == |InStates(db, {s})|
  }

  // The loop of get_message_stats and of collect: one count for every state, none left out.
  method CountByState(session: Session) returns (r: Result<map<State, nat>>)
    modifies session`budget
    ensures r.Success? <==> old(session.budget) >= |ALL_STATES|
    ensures r.Success? ==>
      && session.budget == old(session.budget) - |ALL_STATES|
      && CountsOf(r.value, session.working)
      && Total(session.working, ALL_STATES) == |session.working|
  {
    hide InStates;
    var stats := map[];
    for i := 0 to |ALL_STATES|
      invariant session.budget == old(session.budget) - i
      invariant stats.Keys == Elements(ALL_STATES[..i])
      invariant forall s :: s in stats ==> stats[s] == |InStates(session.working, {s})|
    {
      var state := ALL_STATES[i];
      var count := CountIn(session, state);
      if count.Failure? {
        return Failure(count.fault);
      }
      stats := stats[state := count.value];
      OneMoreElement(ALL_STATES, i);
    }
    assert ALL_STATES[..|ALL_STATES|] == ALL_STATES;
    forall s: State
      ensures s in stats
    {
      StateListed(s);
    }
    CountsAddUp(session.working);
    return Success(stats);
  }

  function Latency(r: Row): real
    requires r.acknowledgedAt.Some?
  {
    r.acknowledgedAt.value - r.createdAt
  }

  ghost function TotalLatency(db: Db, ids: set<string>): real
    requires ids <= Answered(db)
  {
    if ids == {} then 0.0
    else
      var id :| id in ids;
      Latency(db[id].row) + TotalLatency(db, ids - {id})
  }

  // The order of summation does not matter.
  lemma {:induction false} AnyLatencyFirst(db: Db, ids: set<string>, id: string)
    requires id in ids && ids <= Answered(db)
    ensures TotalLatency(db, ids) == Latency(db[id].row) + TotalLatency(db, ids - {id})
    decreases ids
  {
    var first :| first in ids && TotalLatency(db, ids) == Latency(db[first].row) + TotalLatency(db, ids - {first});
    if first != id {
      AnyLatencyFirst(db, ids - {first}, id);
      AnyLatencyFirst(db, ids - {id}, first);
      assert ids - {first} - {id} == ids - {id} - {first};
    }
  }

  ghost function AverageLatency(db: Db): real {
    var answered := Answered(db);
    if answered == {} then 0.0 else TotalLatency(db, answered) / |answered| as real
  }

  // A sum of n numbers between lo and hi.
  predicate Between(lo: real, hi: real, n: nat, total: real) {
    lo * n as real <= total <= hi * n as real
  }

  lemma OneMoreBetween(lo: real, hi: real, n: nat, total: real, x: real)
    requires Between(lo, hi, n, total) && lo <= x <= hi
    ensures Between(lo, hi, n + 1, x + total)
  {
    assert (n + 1) as real == n as real + 1.0;
  }

  lemma NothingBetween(lo: real, hi: real)
    ensures Between(lo, hi, 0, 0.0)
  {
  }

  lemma Divided(lo: real, hi: real, total: real, n: nat)
    requires n > 0 && Between(lo, hi, n, total)
    ensures lo <= total / n as real <= hi
  {
  }

  lemma {:induction false} TotalWithin(db: Db, ids: set<string>, lo: real, hi: real)
    requires ids <= Answered(db)
    requires forall id :: id in ids ==> lo <= db[id].row.acknowledgedAt.value - db[id].row.createdAt <= hi
    ensures Between(lo, hi, |ids|, TotalLatency(db, ids))
    decreases ids
  {
    hide Between;
    if id :| id in ids {
      var rest := ids - {id};
      AnyLatencyFirst(db, ids, id);
      TotalWithin(db, rest, lo, hi);
      OneMoreBetween(lo, hi, |rest|, TotalLatency(db, rest), Latency(db[id].row));
      assert |ids| == |rest| + 1;
    } else {
      NothingBetween(lo, hi);
    }
  }

  // The average lies among the times that acknowledged messages took from their creation.
  lemma AverageWithin(db: Db, lo: real, hi: real)
    requires exists id :: id in db && db[id].row.acknowledgedAt.Some?
    requires forall id :: id in db && db[id].row.acknowledgedAt.Some? ==>
               lo <= db[id].row.acknowledgedAt.value - db[id].row.createdAt <= hi
    ensures lo <= AverageLatency(db) <= hi
  {
    hide Between, TotalLatency;
    var id :| id in db && db[id].row.acknowledgedAt.Some?;
    assert id in Answered(db);
    TotalWithin(db, Answered(db), lo, hi);
    Divided(lo, hi, TotalLatency(db, Answered(db)), |Answered(db)|);
  }

  // What the numbers of a snapshot count, written out.
  lemma WhatIsCounted(db: Db, now: Time)
    ensures forall s: State :: InStates(db, {s}) == set id | id in db && db[id].row.state == s
    ensures Answered(db) == set id | id in db && db[id].row.acknowledgedAt.Some?
    ensures Recent(db, SUCCESSES, now - 86400.0) ==
            set id | id in db && db[id].row.state in {SentToChannel, Acknowledged, FallbackDelivered}
                     && now - db[id].row.createdAt <= 24.0 * 3600.0
    ensures Recent(db, FAILURES, now - 86400.0) ==
            set id | id in db && db[id].row.state in {Failed, DeadLetter}
                     && now - db[id].row.createdAt <= 24.0 * 3600.0
  {
  }

  // The first n records have been summed up.
  ghost predicate Summed(records: seq<MessageRecord>, db: Db, n: nat, sum: real) {
    && n <= |records|
    && Ids(records[..n]) <= Answered(db) && |Ids(records[..n])| == n
    && sum == TotalLatency(db, Ids(records[..n]))
  }

  lemma NothingSummed(records: seq<MessageRecord>, db: Db)
    ensures Summed(records, db, 0, 0.0)
  {
    assert Ids(records[..0]) == {};
  }

  lemma OneMoreSummed(records: seq<MessageRecord>, db: Db, n: nat, sum: real)
    requires Fetched(records, db, Answered(db)) && n < |records| && Summed(records, db, n, sum)
    ensures records[n].acknowledgedAt.Some?
    ensures Summed(records, db, n + 1, sum + (records[n].acknowledgedAt.value - records[n].createdAt))
  {
    var ids, id := Ids(records[..n]), records[n].id;
    assert id in Ids(records);
    assert id !in ids;
    IdsSplit(records, n);
    AnyLatencyFirst(db, ids + {id}, id);
    assert ids + {id} - {id} == ids;
  }

  lemma AllSummed(records: seq<MessageRecord>, db: Db, sum: real)
    requires Fetched(records, db, Answered(db)) && Summed(records, db, |records|, sum)
    ensures AverageLatency(db) == if records == [] then 0.0 else sum / |records| as real
  {
    assert records[..|records|] == records;
  }

  lemma {:induction false} Smaller(a: set<string>, b: set<string>)
    requires a <= b
    ensures |a| <= |b|
    decreases b
  {
    if x :| x in a {
      Smaller(a - {x}, b - {x});
    }
  }

  lemma RecentDisjoint(db: Db, cutoff: Time)
    ensures |Recent(db, SUCCESSES, cutoff)| + |Recent(db, FAILURES, cutoff)| <= |db|
  {
    var s, f := Recent(db, SUCCESSES, cutoff), Recent(db, FAILURES, cutoff);
    assert s !! f;
    assert |s + f| == |s| + |f|;
    Smaller(s + f, db.Keys);
  }

  class MetricsCollector {
    const session: Session

    constructor (session: Session)
      ensures this.session == session
    {
      this.session := session;
    }

    method CollectCounts(m: MessageMetrics) returns (s: Status)
      modifies session`budget, m`totalMessages, m`messagesByState
      ensures s.Ok? <==> old(session.budget) >= 12
      ensures s.Ok? ==>
        var db := session.working;
        && session.budget == old(session.budget) - 12
        && m.totalMessages == |db| == Total(db, ALL_STATES)
        && CountsOf(m.messagesByState, db)
    {
      hide Total, CountsOf;
      s := session.Execute();
      if s.Raised? {
        return;
      }
      m.totalMessages := |session.working|;
      m.messagesByState :- CountByState(session);
      return Ok;
    }

    method CollectOutcomes(m: MessageMetrics) returns (s: Status)
      modifies session`budget, m`messagesAcknowledged, m`messagesFailed, m`messagesDeadLetter
      ensures s.Ok? <==> old(session.budget) >= 3
      ensures s.Ok? ==>
        var db := session.working;
        && session.budget == old(session.budget) - 3
        && m.messagesFailed == |InStates(db, {Failed})| && m.messagesDeadLetter == |InStates(db, {DeadLetter})|
        && m.messagesAcknowledged == |Answered(db)|
    {
      hide InStates, Answered;
      s := session.Execute();
      if s.Raised? {
        return;
      }
      m.messagesAcknowledged := |Answered(session.working)|;
      m.messagesFailed :- CountIn(session, Failed);
      m.messagesDeadLetter :- CountIn(session, DeadLetter);
      return Ok;
    }

    method Calculate24hMetrics(m: MessageMetrics, now: Time) returns (s: Status)
      modifies session`budget, m`successfulDeliveries24h, m`failedDeliveries24h
      ensures s.Ok? <==> old(session.budget) >= 2
      ensures s.Ok? ==>
        && session.budget == old(session.budget) - 2
        && m.successfulDeliveries24h == |Recent(session.working, SUCCESSES, now - 86400.0)|
        && m.failedDeliveries24h == |Recent(session.working, FAILURES, now - 86400.0)|
    {
      var cutoff := now - 86400.0;
      :- session.Execute();
      m.successfulDeliveries24h := |Recent(session.working, SUCCESSES, cutoff)|;
      :- session.Execute();
      m.failedDeliveries24h := |Recent(session.working, FAILURES, cutoff)|;
      return Ok;
    }

    method CalculateAckLatency(m: MessageMetrics) returns (s: Status)
      requires session.Valid() && m.averageTimeToAcknowledge == 0.0
      modifies session`budget, m`averageTimeToAcknowledge
      ensures s.Ok? <==> old(session.budget) >= 1
      ensures s.Ok? ==> m.averageTimeToAcknowledge == AverageLatency(session.working)
    {
      hide Summed, AverageLatency, Consistent;
      var repository := new MessageRepository(session);
      var acked :- repository.Select((row: Row) => row.acknowledgedAt.Some?);
      ghost var db := session.working;
      assert Fetched(acked, db, Answered(db));
      var sum := 0.0;
      NothingSummed(acked, db);
      for i := 0 to |acked|
        modifies {}
        invariant Summed(acked, db, i, sum)
      {
        OneMoreSummed(acked, db, i, sum);
        sum := sum + (acked[i].acknowledgedAt.value - acked[i].createdAt);
      }
      AllSummed(acked, db, sum);
      if acked != [] {
        m.averageTimeToAcknowledge := sum / |acked| as real;
      }
      return Ok;
    }

    // The eighteen statements of a snapshot, or an exception.
    method Collect(now: Time) returns (r: Result<MessageMetrics>)
      requires session.Valid()
      modifies session`budget
      ensures r.Success? <==> old(session.budget) >= 18
      ensures r.Success? ==>
        var m, db := r.value, session.working;
        && fresh(m)
        && m.totalMessages == |db| == Total(db, ALL_STATES)
        && CountsOf(m.messagesByState, db)
        && m.messagesFailed == |set id | id in db && db[id].row.state == Failed|
        && m.messagesDeadLetter == |set id | id in db && db[id].row.state == DeadLetter|
        && m.messagesAcknowledged == |set id | id in db && db[id].row.acknowledgedAt.Some?|
        && m.successfulDeliveries24h ==
           |set id | id in db && db[id].row.state in {SentToChannel, Acknowledged, FallbackDelivered}
                     && now - db[id].row.createdAt <= 24.0 * 3600.0|
        && m.failedDeliveries24h ==
           |set id | id in db && db[id].row.state in {Failed, DeadLetter}
                     && now - db[id].row.createdAt <= 24.0 * 3600.0|
        && m.successfulDeliveries24h + m.failedDeliveries24h <= m.totalMessages
        && m.averageTimeToAcknowledge == AverageLatency(db)
    {
      hide Total, InStates, Answered, Recent, AverageLatency, CountsOf;
      var m := new MessageMetrics();
      var s := CollectCounts(m);
      if s.Ok? {
        s := CollectOutcomes(m);
      }
      if s.Ok? {
        s := Calculate24hMetrics(m, now);
      }
      if s.Ok? {
        s := CalculateAckLatency(m);
      }
      if s.Raised? {
        return Failure(s.fault);
      }
      RecentDisjoint(session.working, now - 86400.0);
      WhatIsCounted(session.working, now);
      return Success(m);
    }
  }

  class SystemHealth {
    var isHealthy: bool
    var isReady: bool
    var messagesPending: nat
    var messagesEscalationPending: nat
    var messagesDeadLetter: nat
    var warnings: seq<string>

    constructor ()
      ensures isHealthy && isReady && warnings == []
    {
      isHealthy, isReady, warnings := true, true, [];
      messagesPending, messagesEscalationPending, messagesDeadLetter := 0, 0, 0;
    }
  }

  // The threshold of check_health.
  predicate TooManyDead(db: Db) {
    |InStates(db, {DeadLetter})| > 100
  }

  ghost predicate Inspected(health: SystemHealth, db: Db)
    reads health
  {
    && health.messagesPending == |InStates(db, {Pending})|
    && health.messagesEscalationPending == |InStates(db, {EscalationPending})|
    && health.messagesDeadLetter == |InStates(db, {DeadLetter})|
    && health.warnings == (if health.messagesDeadLetter > 100 then ["High dead-letter count"] else [])
                          + (if health.messagesEscalationPending > 500 then ["High escalation pending count"] else [])
  }

  // The guarded part of check_health.
  method Inspect(session: Session, health: SystemHealth) returns (s: Status)
    requires health.isHealthy && health.isReady && health.warnings == []
    modifies session`budget, health
    ensures s.Ok? <==> old(session.budget) >= 4
    ensures s.Ok? ==>
      && health.isReady && Inspected(health, session.working)
      && (health.isHealthy <==> !TooManyDead(session.working))
  {
    hide InStates;
    s := session.Execute();
    if s.Raised? {
      return;
    }
    health.messagesPending :- CountIn(session, Pending);
    health.messagesEscalationPending :- CountIn(session, EscalationPending);
    health.messagesDeadLetter :- CountIn(session, DeadLetter);
    if health.messagesDeadLetter > 100 {
      health.warnings := health.warnings + ["High dead-letter count"];
      health.isHealthy := false;
    }
    if health.messagesEscalationPending > 500 {
      health.warnings := health.warnings + ["High escalation pending count"];
    }
    return Ok;
  }

  // The report is healthy exactly when every query was answered and at most 100 messages are dead.
  method CheckHealth(session: Session) returns (health: SystemHealth)
    modifies session`budget
    ensures fresh(health)
    ensures health.isReady <==> old(session.budget) >= 4
    ensures health.isHealthy <==> health.isReady && !TooManyDead(session.working)
    ensures health.isReady ==> Inspected(health, session.working)
    ensures health.isReady ==>
      var db := session.working;
      && health.messagesPending == |set id | id in db && db[id].row.state == Pending|
      && health.messagesEscalationPending == |set id | id in db && db[id].row.state == EscalationPending|
      && health.messagesDeadLetter == |set id | id in db && db[id].row.state == DeadLetter|
      && (health.isHealthy <==> health.messagesDeadLetter <= 100)
    ensures !health.isReady ==> |health.warnings| > 0
  {
    health := new SystemHealth();
    var s := Inspect(session, health);
    if s.Raised? {
      health.isHealthy := false;
      health.isReady := false;
      health.warnings := health.warnings + ["Health check error"];
    }
    WhatIsCounted(session.working, 0.0);
  }

  // Nothing leaves a terminal state and nothing is deleted, so no terminal count ever shrinks.
  lemma TerminalCountsGrow(p: RetryPolicy, ws: seq<World>, acts: seq<Act>, i: nat, j: nat, s: State)
    requires IsRun(p, ws, acts) && i <= j < |ws| && Terminal(s)
    ensures InStates(ws[i].db, {s}) <= InStates(ws[j].db, {s})
    ensures |InStates(ws[i].db, {s})| <= |InStates(ws[j].db, {s})|
  {
    forall id | id in InStates(ws[i].db, {s})
      ensures id in InStates(ws[j].db, {s})
    {
      RunHistory(p, ws, acts, i, j, id);
    }
    Smaller(InStates(ws[i].db, {s}), InStates(ws[j].db, {s}));
  }

  // Dead letters are never cleared: once there are too many for a healthy report, by the contract
  // of CheckHealth no later report in the run is healthy.
  lemma UnhealthyForGood(p: RetryPolicy, ws: seq<World>, acts: seq<Act>, i: nat, j: nat)
    requires IsRun(p, ws, acts) && i <= j < |ws|
    ensures TooManyDead(ws[i].db) ==> TooManyDead(ws[j].db)
  {
    TerminalCountsGrow(p, ws, acts, i, j, DeadLetter);
  }
}
