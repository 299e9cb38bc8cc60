// app/infrastructure, app/repositories/message_repository.py and EventRecorder of app/workers/events.py:
// the two tables, the session that reads and writes them inside a transaction, and the statements
// the application issues through it.
module Storage {
  import opened Wrappers
  import opened MessageStates
  import opened Messages
  import opened Events

  // A message with the events that refer to it, oldest first. The foreign key of the events
  // table lets no event exist without its message.
  datatype Entry = Entry(row: Row, log: seq<Event>)

  type Db = map<string, Entry>

  ghost predicate WellKeyed(db: Db) {
    forall id :: id in db ==> db[id].row.id == id
  }

  ghost predicate UniqueKeys(db: Db) {
    forall a, b :: a in db && b in db && db[a].row.key.Some? && db[a].row.key == db[b].row.key ==> a == b
  }

  // Primary key and unique index of the messages table.
  ghost predicate Consistent(db: Db) {
    WellKeyed(db) && UniqueKeys(db)
  }

  predicate KeyTaken(db: Db, key: Option<string>, owner: string) {
    key.Some? && exists id :: id in db && id != owner && db[id].row.key == key
  }

  // The three where-clauses of the repository.
  predicate DueForEscalation(r: Row, now: Time) {
    && r.state == SentToChannel
    && r.acknowledgedAt.None?
    && r.ackDeadlineAt.Some?
    && r.ackDeadlineAt.value < now
  }

  predicate InState(r: Row, s: State) {
    r.state == s
  }

  predicate DueForRetry(r: Row, now: Time) {
    r.nextRetryAt.Some? && r.nextRetryAt.value <= now
  }

  // What an update statement leaves when it writes `mem` over `line`. Only changed columns are
  // written; updated_at has an on-update default that fires when a line is written but that
  // column keeps its value. `stamp` is now() as the database reads it in the transaction.
  function Written(line: Row, mem: Row, stamp: Time): Row {
    if mem != line && mem.updatedAt == line.updatedAt then mem.(updatedAt := stamp) else mem
  }

  // A session with serial transactions: `working` is what its statements see, `durable` what a
  // commit has made permanent. `budget` is the number of statements the connection still
  // serves, so an arbitrary budget is a failure at an arbitrary point.
  class Session {
    var durable: Db
    var working: Db
    var budget: nat
    // The database's now() in the current transaction.
    var stamp: Time

    ghost predicate Valid()
      reads this
    {
      Consistent(durable) && Consistent(working)
    }

    // Inside one transaction nothing is made permanent, statements are used up, and now() stands still.
    twostate predicate Ongoing()
      reads this
    {
      durable == old(durable) && budget <= old(budget) && stamp == old(stamp)
    }

    constructor (db: Db, budget: nat, stamp: Time)
      requires Consistent(db)
      ensures Valid() && durable == working == db && this.budget == budget && this.stamp == stamp
    {
      durable, working, this.budget, this.stamp := db, db, budget, stamp;
    }

    // The statement after a commit or rollback opens the next transaction.
    method Begin(now: Time)
      requires Valid()
      modifies this`stamp
      ensures Valid() && stamp == now
    {
      stamp := now;
    }

    method Execute() returns (s: Status)
      modifies this`budget
      ensures budget <= old(budget)
      ensures s.Raised? <==> old(budget) == 0
      ensures s.Ok? ==> budget == old(budget) - 1
    {
      if budget == 0 {
        return Raised(ConnectionLost);
      }
      budget := budget - 1;
      return Ok;
    }

    method Commit() returns (s: Status)
      requires Valid()
      modifies this`durable, this`budget
      ensures Valid() && budget <= old(budget)
      ensures s.Ok? ==> durable == working == old(working)
      ensures s.Raised? ==> budget == 0 && durable == old(durable)
    {
      s := Execute();
      if s.Raised? {
        return;
      }
      durable := working;
      return Ok;
    }

    method Rollback()
      requires Valid()
      modifies this`working
      ensures Valid() && working == durable
    {
      working := durable;
    }
  }

  lemma OwnKeyIsFree(db: Db, id: string)
    requires Consistent(db) && id in db
    ensures !KeyTaken(db, db[id].row.key, id)
  {
  }

  function Ids(records: seq<MessageRecord>): set<string> {
    set i | 0 <= i < |records| :: records[i].id
  }

  function IdSeq(records: seq<MessageRecord>): seq<string> {
    seq(|records|, i requires 0 <= i < |records| => records[i].id)
  }

  lemma IdsSplit(records: seq<MessageRecord>, n: nat)
    requires n < |records|
    ensures Ids(records[..n + 1]) == Ids(records[..n]) + {records[n].id}
  {
    var longer, shorter := records[..n + 1], records[..n];
    forall id | id in Ids(longer)
      ensures id in Ids(shorter) + {records[n].id}
    {
      var i :| 0 <= i < |longer| && longer[i].id == id;
      assert i < n ==> shorter[i] == longer[i];
    }
    forall id | id in Ids(shorter)
      ensures id in Ids(longer)
    {
      var i :| 0 <= i < |shorter| && shorter[i].id == id;
      assert longer[i] == shorter[i];
    }
    assert longer[n] == records[n];
  }

  // Records of the given messages, each once, in whatever order the database returned them.
  ghost predicate Fetched(records: seq<MessageRecord>, db: Db, ids: set<string>)
    reads set i | 0 <= i < |records| :: records[i]
  {
    && Ids(records) == ids <= db.Keys
    && (forall i :: 0 <= i < |records| ==> records[i].id in db && records[i].AsRow() == db[records[i].id].row)
    && (forall i, j :: 0 <= i < j < |records| ==> records[i].id != records[j].id)
  }

  lemma FetchedOneMore(records: seq<MessageRecord>, record: MessageRecord, db: Db, ids: set<string>)
    requires Fetched(records, db, ids)
    requires record.id in db && record.id !in ids && record.AsRow() == db[record.id].row
    ensures Fetched(records + [record], db, ids + {record.id})
  {
    var more := records + [record];
    assert more[..|records|] == records && more[..|records| + 1] == more;
    IdsSplit(more, |records|);
    assert Ids(more) == ids + {record.id};
    assert forall i :: 0 <= i < |records| ==> more[i] == records[i] && records[i].id in Ids(records);
  }

  // Records for the given lines: `:|` picks any order.
  method Load(db: Db, ids: set<string>) returns (records: seq<MessageRecord>)
    requires WellKeyed(db) && ids <= db.Keys
    ensures forall i :: 0 <= i < |records| ==> fresh(records[i])
    ensures Fetched(records, db, ids)
  {
    var left := ids;
    records := [];
    while left != {}
      invariant left <= ids
      invariant Fetched(records, db, ids - left)
      invariant forall i :: 0 <= i < |records| ==> fresh(records[i])
    {
      var id :| id in left;
      var record := new MessageRecord(db[id].row);
      FetchedOneMore(records, record, db, ids - left);
      records := records + [record];
      left := left - {id};
      assert ids - left == ids - (left + {id}) + {id};
    }
    assert ids - left == ids;
  }

  class MessageRepository {
    const session: Session

    constructor (session: Session)
      ensures this.session == session
    {
      this.session := session;
    }

    method Create(record: MessageRecord) returns (s: Status)
      requires session.Valid()
      modifies session
      ensures session.Valid() && session.Ongoing()
      ensures s.Ok? ==>
        && record.id !in old(session.working) && !KeyTaken(old(session.working), record.key, record.id)
        && session.working == old(session.working)[record.id := Entry(record.AsRow(), [])]
      ensures s.Raised? ==> session.working == old(session.working)
      ensures s.Raised? ==>
        session.budget == 0 || record.id in session.working || KeyTaken(session.working, record.key, record.id)
    {
      s := session.Execute();
      if s.Raised? {
        return;
      }
      if record.id in session.working || KeyTaken(session.working, record.key, record.id) {
        return Raised(IntegrityError);
      }
      session.working := session.working[record.id := Entry(record.AsRow(), [])];
      return Ok;
    }

    method GetById(id: string) returns (r: Result<MessageRecord?>)
      requires session.Valid()
      modifies session`budget
      ensures session.budget <= old(session.budget)
      ensures r.Failure? ==> session.budget == 0
      ensures r.Success? ==> (r.value == null <==> id !in session.working)
      ensures r.Success? && r.value != null ==>
        fresh(r.value) && r.value.AsRow() == session.working[id].row && r.value.id == id
    {
      var s := session.Execute();
      if s.Raised? {
        return Failure(s.fault);
      }
      if id !in session.working {
        return Success(null);
      }
      var record := new MessageRecord(session.working[id].row);
      return Success(record);
    }

    method GetByIdempotencyKey(key: string) returns (r: Result<MessageRecord?>)
      requires session.Valid()
      modifies session`budget
      ensures session.budget <= old(session.budget)
      ensures r.Failure? ==> session.budget == 0
      ensures r.Success? && r.value == null ==>
        forall id :: id in session.working ==> session.working[id].row.key != Some(key)
      ensures r.Success? && r.value != null ==>
        && fresh(r.value) && r.value.id in session.working && r.value.key == Some(key)
        && r.value.AsRow() == session.working[r.value.id].row
    {
      var s := session.Execute();
      if s.Raised? {
        return Failure(s.fault);
      }
      if id :| id in session.working && session.working[id].row.key == Some(key) {
        var record := new MessageRecord(session.working[id].row);
        return Success(record);
      }
      return Success(null);
    }

    method Update(record: MessageRecord) returns (s: Status)
      requires session.Valid()
      modifies session
      ensures session.Valid() && session.Ongoing()
      ensures s.Ok? ==>
        && record.id in old(session.working)
        && session.working ==
           var e := old(session.working)[record.id];
           old(session.working)[record.id := Entry(Written(e.row, record.AsRow(), session.stamp), e.log)]
      ensures s.Raised? ==> session.working == old(session.working)
      ensures s.Raised? ==>
        session.budget == 0 || record.id !in session.working || KeyTaken(session.working, record.key, record.id)
    {
      s := session.Execute();
      if s.Raised? {
        return;
      }
      if record.id !in session.working {
        return Raised(MessageNotFound);
      }
      if KeyTaken(session.working, record.key, record.id) {
        return Raised(IntegrityError);
      }
      var e := session.working[record.id];
      session.working := session.working[record.id := Entry(Written(e.row, record.AsRow(), session.stamp), e.log)];
      return Ok;
    }

    // A select without ORDER BY.
    method Select(matches: Row -> bool) returns (r: Result<seq<MessageRecord>>)
      requires session.Valid()
      modifies session`budget
      ensures session.budget <= old(session.budget)
      ensures r.Failure? <==> old(session.budget) == 0
      ensures r.Success? ==> forall i :: 0 <= i < |r.value| ==> fresh(r.value[i])
      ensures r.Success? ==> Fetched(r.value, session.working,
                                     set id | id in session.working && matches(session.working[id].row))
    {
      var s := session.Execute();
      if s.Raised? {
        return Failure(s.fault);
      }
      var db := session.working;
      var records := Load(db, set id | id in db && matches(db[id].row));
      return Success(records);
    }

    method ListDueForEscalation(now: Time) returns (r: Result<seq<MessageRecord>>)
      requires session.Valid()
      modifies session`budget
      ensures session.budget <= old(session.budget)
      ensures r.Failure? ==> session.budget == 0
      ensures r.Success? ==> forall i :: 0 <= i < |r.value| ==> fresh(r.value[i])
      ensures r.Success? ==> Fetched(r.value, session.working,
                                     set id | id in session.working && session.working[id].row.state == SentToChannel
                                              && session.working[id].row.acknowledgedAt.None?
                                              && session.working[id].row.ackDeadlineAt.Some?
                                              && session.working[id].row.ackDeadlineAt.value < now)
    {
      r := Select(row => DueForEscalation(row, now));
    }

    method ListByState(state: State) returns (r: Result<seq<MessageRecord>>)
      requires session.Valid()
      modifies session`budget
      ensures session.budget <= old(session.budget)
      ensures r.Failure? ==> session.budget == 0
      ensures r.Success? ==> forall i :: 0 <= i < |r.value| ==> fresh(r.value[i])
      ensures r.Success? ==> Fetched(r.value, session.working,
                                     set id | id in session.working && session.working[id].row.state == state)
    {
      r := Select(row => InState(row, state));
    }

    method ListDueForRetry(now: Time) returns (r: Result<seq<MessageRecord>>)
      requires session.Valid()
      modifies session`budget
      ensures session.budget <= old(session.budget)
      ensures r.Failure? ==> session.budget == 0
      ensures r.Success? ==> forall i :: 0 <= i < |r.value| ==> fresh(r.value[i])
      ensures r.Success? ==> Fetched(r.value, session.working,
                                     set id | id in session.working && session.working[id].row.nextRetryAt.Some?
                                              && session.working[id].row.nextRetryAt.value <= now)
    {
      r := Select(row => DueForRetry(row, now));
    }
  }

  class EventRecorder {
    const session: Session

    constructor (session: Session)
      ensures this.session == session
    {
      this.session := session;
    }

    method Record(messageId: string, event: Event) returns (s: Status)
      requires session.Valid()
      modifies session
      ensures session.Valid() && session.Ongoing()
      ensures s.Ok? ==>
        && messageId in old(session.working)
        && var e := old(session.working)[messageId];
           session.working == old(session.working)[messageId := Entry(e.row, e.log + [event])]
      ensures s.Raised? ==> session.working == old(session.working)
      ensures s.Raised? ==> session.budget == 0 || messageId !in session.working
    {
      s := session.Execute();
      if s.Raised? {
        return;
      }
      if messageId !in session.working {
        return Raised(IntegrityError);
      }
      var e := session.working[messageId];
      session.working := session.working[messageId := Entry(e.row, e.log + [event])];
      return Ok;
    }
  }
}
