/**
  Dropping a course and repairing its projection: the ordered calls of one drop and of one repair
  batch, with any of them failing. Both take steps of the protocol.
 */
module DropService {
  import opened Types
  import opened RedisScripts
  import opened RedisStore
  import opened MySqlTables
  import opened MySqlStore
  import opened SelectionSystem
  import opened SelectionProofs
  import opened SelectionTheorems
  import opened StreamConsumer
  import opened CountProjection
  import opened Refinement

  const MAX_REPAIR_BATCH := 500
  const UINT32 := 0x1_0000_0000

  /** The look-up, the drop transaction, the release script and the completion mark of one drop. */
  datatype DropCalls = DropCalls(query: bool, persist: Call, release: Call, mark: bool)

  datatype Receipt = Receipt(released: bool)

  datatype DropOutcome = DropOutcome(redis: Redis, db: MySql, answer: Result<Receipt, Error>)

  /** The query by enrollment and student finds a row with its application. */
  predicate Listed(db: MySql, student: StudentId, id: EnrollmentId) {
    id in db.enrollments && db.enrollments[id].student == student && db.enrollments[id].app in db.applications
  }

  /** The domain check: a completed course stays, and nothing is dropped before it was enrolled. */
  function CheckDrop(state: RowState, enrolledAt: int, at: int): Option<Error> {
    if at == ZERO_TIME || at < enrolledAt then Some(InvalidParams)
    else if state == Completed then Some(InvalidState)
    else None
  }

  predicate MayDrop(db: MySql, id: EnrollmentId, at: int)
    requires id in db.enrollments && db.enrollments[id].app in db.applications
  {
    CheckDrop(db.enrollments[id].state, db.applications[db.enrollments[id].app].completedAt, at) == None
  }

  /** After the transaction: the release, and the mark once the release is known to have happened. */
  function ReleaseAndMark(rd: Redis, db: MySql, t: Enrollment, calls: DropCalls): DropOutcome {
    if calls.release == Down then DropOutcome(rd, db, Ok(Receipt(false)))
    else
      var (rd', status) := Release(rd, t);
      if status < 0 || calls.release == Lost then DropOutcome(rd', db, Ok(Receipt(false)))
      else DropOutcome(rd', if calls.mark then MarkRepairCompleted(db, t.id) else db, Ok(Receipt(true)))
  }

  function PersistAndRelease(rd: Redis, db: MySql, t: Enrollment, at: int, calls: DropCalls): DropOutcome {
    if calls.persist == Down then DropOutcome(rd, db, Err(Infrastructure))
    else
      match Drop(db, t, at)
      case Err(e) => DropOutcome(rd, db, Err(if calls.persist == Lost then Infrastructure else e))
      case Ok(db') =>
        if calls.persist == Lost then DropOutcome(rd, db', Err(Infrastructure))
        else ReleaseAndMark(rd, db', t, calls)
  }

  /** One drop request, from the look-up to the receipt. */
  function DropOnce(
    rd: Redis, db: MySql, student: StudentId, id: EnrollmentId, at: int, calls: DropCalls): DropOutcome
  {
    if student == 0 || id == "" then DropOutcome(rd, db, Err(InvalidParams))
    else if !calls.query then DropOutcome(rd, db, Err(Infrastructure))
    else if !Listed(db, student, id) then DropOutcome(rd, db, Err(RecordNotFound))
    else
      match CheckDrop(db.enrollments[id].state, db.applications[db.enrollments[id].app].completedAt, at)
      case Some(e) => DropOutcome(rd, db, Err(e))
      case None => PersistAndRelease(rd, db, Identity(db, id), at, calls)
  }

  // --- The repair batch ------------------------------------------------------------------------

  datatype RepairItem = RepairItem(target: Enrollment, retryCount: nat)

  /** The release script and the mark of one repair. */
  datatype RepairCalls = RepairCalls(release: Call, mark: Call)

  /** The query, the items' calls and the count of the backlog at the end of a batch. */
  datatype RepairRun = RepairRun(query: bool, items: nat -> RepairCalls, count: bool)

  function Pow2(n: nat): nat {
    if n == 0 then 1 else 2 * Pow2(n - 1)
  }

  /** The wait before the next try, in milliseconds, doubling six times. */
  function Backoff(retryCount: nat): (ms: nat)
    ensures 1_000 <= ms <= 64_000
  {
    assert Pow2(3) == 8 && Pow2(6) == 64;
    1_000 * Pow2(if retryCount > 6 then 6 else retryCount)
  }

  lemma BackoffDoubles(retryCount: nat)
    ensures retryCount < 6 ==> Backoff(retryCount + 1) == 2 * Backoff(retryCount)
    ensures retryCount >= 6 ==> Backoff(retryCount) == 64_000
  {
    assert Pow2(3) == 8 && Pow2(6) == 64;
  }

  predicate IsDue(db: MySql, id: EnrollmentId, now: int) {
    && id in db.repairs && db.repairs[id].state == RepairPending && db.repairs[id].nextRetryAt <= now
    && id in db.enrollments && db.enrollments[id].app in db.applications
  }

  function ItemOf(db: MySql, id: EnrollmentId, now: int): RepairItem
    requires IsDue(db, id, now)
  {
    RepairItem(Identity(db, id), db.repairs[id].retryCount)
  }

  /** The due repairs in table order, at most `limit` of them. */
  function DueRepairs(db: MySql, order: seq<EnrollmentId>, now: int, limit: nat): seq<RepairItem> {
    if order == [] then []
    else
      var n := |order| - 1;
      var rest := DueRepairs(db, order[..n], now, limit);
      if |rest| < limit && IsDue(db, order[n], now) then rest + [ItemOf(db, order[n], now)] else rest
  }

  datatype Repaired = Repaired(redis: Redis, db: MySql, stopped: bool)

  /** One repair: released and completed, or postponed; a mark that fails stops the batch. */
  function RepairStep(rd: Redis, db: MySql, item: RepairItem, now: int, calls: RepairCalls): Repaired {
    var (rd', status) := if calls.release == Down then (rd, 0) else Release(rd, item.target);
    var released := calls.release == Answered && status >= 0;
    var db' :=
      if calls.mark == Down then db
      else if released then MarkRepairCompleted(db, item.target.id)
      else MarkRepairFailed(db, item.target.id, now + Backoff((item.retryCount + 1) % UINT32));
    Repaired(rd', db', calls.mark != Answered)
  }

  function RepairEach(rd: Redis, db: MySql, items: seq<RepairItem>, now: int, calls: nat -> RepairCalls): Repaired {
    if items == [] then Repaired(rd, db, false)
    else
      var n := |items| - 1;
      var before := RepairEach(rd, db, items[..n], now, calls);
      if before.stopped then before else RepairStep(before.redis, before.db, items[n], now, calls(n))
  }

  // --- The services ----------------------------------------------------------------------------

  /** The formal enrollment as a record: dropped once, and dropped again without effect. */
  class StudentEnrollment {
    const target: Enrollment
    const enrolledAt: int
    var state: RowState
    var droppedAt: Option<int>

    constructor (target: Enrollment, state: RowState, enrolledAt: int, droppedAt: Option<int>)
      ensures this.target == target && this.state == state && this.enrolledAt == enrolledAt
              && this.droppedAt == droppedAt
    {
      this.target, this.state, this.enrolledAt, this.droppedAt := target, state, enrolledAt, droppedAt;
    }

    method Drop(at: int) returns (changed: bool, error: Option<Error>)
      modifies this
      ensures error == CheckDrop(old(state), enrolledAt, at)
      ensures changed <==> error == None && old(state) == Enrolled
      ensures changed ==> state == RowState.Dropped && droppedAt == Some(at)
      ensures !changed ==> unchanged(this)
      ensures error == None ==> state == RowState.Dropped
    {
      if at == ZERO_TIME || at < enrolledAt {
        return false, Some(InvalidParams);
      }
      match state {
        case Dropped => return false, None;
        case Enrolled =>
          state, droppedAt := RowState.Dropped, Some(at);
          return true, None;
        case Completed => return false, Some(InvalidState);
      }
    }
  }

  class Service {
    const store: Store
    const db: Database

    constructor (store: Store, db: Database)
      ensures this.store == store && this.db == db
    {
      this.store, this.db := store, db;
    }

    /** Look-up, domain check, transaction, release, mark, in this order. */
    method Drop(student: StudentId, id: EnrollmentId, at: int, calls: DropCalls)
      returns (answer: Result<Receipt, Error>)
      modifies store, db
      ensures DropOnce(old(store.Value()), old(db.Value()), student, id, at, calls)
              == DropOutcome(store.Value(), db.Value(), answer)
    {
      if student == 0 || id == "" {
        return Err(InvalidParams);
      }
      if !calls.query {
        return Err(Infrastructure);
      }
      var tables := db.Value();
      if !Listed(tables, student, id) {
        return Err(RecordNotFound);
      }
      var row := tables.enrollments[id];
      var target := Identity(tables, id);
      var enrollment := new StudentEnrollment(target, row.state, tables.applications[row.app].completedAt, None);
      var _, error := enrollment.Drop(at);
      if error.Some? {
        return Err(error.value);
      }
      answer := Persist(target, at, calls);
    }

    method Persist(target: Enrollment, at: int, calls: DropCalls) returns (answer: Result<Receipt, Error>)
      modifies store, db
      ensures PersistAndRelease(old(store.Value()), old(db.Value()), target, at, calls)
              == DropOutcome(store.Value(), db.Value(), answer)
    {
      hide MySqlTables.Drop, Release;
      if calls.persist == Down {
        return Err(Infrastructure);
      }
      var error := db.DropEnrollment(target, at);
      if calls.persist == Lost {
        return Err(Infrastructure);
      }
      if error.Some? {
        return Err(error.value);
      }
      if calls.release == Down {
        return Ok(Receipt(false));
      }
      var status := store.ReleaseDropped(target);
      if status < 0 || calls.release == Lost {
        return Ok(Receipt(false));
      }
      if calls.mark {
        db.CompleteRepair(target.id);
      }
      return Ok(Receipt(true));
    }

    /** The repair query: the due repairs in table order. */
    method QueryDue(order: seq<EnrollmentId>, now: int, limit: nat) returns (items: seq<RepairItem>)
      ensures items == DueRepairs(db.Value(), order, now, limit)
    {
      items := [];
      var tables := db.Value();
      for i := 0 to |order|
        invariant items == DueRepairs(tables, order[..i], now, limit)
      {
        assert order[..i + 1][..i] == order[..i];
        if |items| < limit && IsDue(tables, order[i], now) {
          items := items + [ItemOf(tables, order[i], now)];
        }
      }
      assert order[..|order|] == order;
    }

    method RepairBatch(order: seq<EnrollmentId>, now: int, limit: int, run: RepairRun) returns (error: Option<Error>)
      modifies store, db
      ensures error == Some(InvalidParams) <==> !(0 < limit <= MAX_REPAIR_BATCH && now != ZERO_TIME)
      ensures error == Some(InvalidParams) || !run.query ==>
                error.Some? && store.Value() == old(store.Value()) && db.Value() == old(db.Value())
      ensures 0 < limit <= MAX_REPAIR_BATCH && now != ZERO_TIME && run.query ==>
                var items := DueRepairs(old(db.Value()), order, now, limit);
                var r := RepairEach(old(store.Value()), old(db.Value()), items, now, run.items);
                && store.Value() == r.redis && db.Value() == r.db
                && error == if r.stopped || !run.count then Some(Infrastructure) else None
    {
      hide RepairStep, DueRepairs;
      if limit <= 0 {
        return Some(InvalidParams);
      }
      if now == ZERO_TIME || limit > MAX_REPAIR_BATCH {
        return Some(InvalidParams);
      }
      if !run.query {
        return Some(Infrastructure);
      }
      var items := QueryDue(order, now, limit);
      var stopped := false;
      for i := 0 to |items|
        invariant RepairEach(old(store.Value()), old(db.Value()), items[..i], now, run.items)
                  == Repaired(store.Value(), db.Value(), stopped)
      {
        assert items[..i + 1][..i] == items[..i];
        if !stopped {
          stopped := RepairOne(items[i], now, run.items(i));
        }
      }
      assert items[..|items|] == items;
      error := if stopped || !run.count then Some(Infrastructure) else None;
    }

    method RepairOne(item: RepairItem, now: int, calls: RepairCalls) returns (stopped: bool)
      modifies store, db
      ensures RepairStep(old(store.Value()), old(db.Value()), item, now, calls)
              == Repaired(store.Value(), db.Value(), stopped)
    {
      hide Release, MarkRepairFailed, MarkRepairCompleted, Backoff;
      var status := 0;
      if calls.release != Down {
        status := store.ReleaseDropped(item.target);
      }
      if calls.mark != Down {
        if calls.release == Answered && status >= 0 {
          db.CompleteRepair(item.target.id);
        } else {
          db.PostponeRepair(item.target.id, now + Backoff((item.retryCount + 1) % UINT32));
        }
      }
      return calls.mark != Answered;
    }
  }

  // --- A drop, call by call --------------------------------------------------------------------

  ghost predicate SparesDropper(states: System -> bool, between: Between, d: nat) {
    forall k: nat, x :: states(x) ==>
      states(between(k, x)) && Progress(between(k, x).droppers, d) == Progress(x.droppers, d)
  }

  datatype Dropping = Dropping(state: System, answer: Result<Receipt, Error>)

  ghost function Rest(x: System, d: nat): System {
    SetDropper(x, d, Resting)
  }

  ghost function MarkWith(x: System, d: nat, t: Enrollment, mark: bool): System {
    Rest(if mark then x.(db := MarkRepairCompleted(x.db, t.id)) else x, d)
  }

  ghost function ReleaseWith(x: System, d: nat, t: Enrollment, calls: DropCalls, between: Between): Dropping {
    if calls.release == Down then Dropping(Rest(x, d), Ok(Receipt(false)))
    else
      var (redis, status) := Release(x.redis, t);
      if status < 0 || calls.release == Lost then Dropping(Rest(x.(redis := redis), d), Ok(Receipt(false)))
      else Dropping(MarkWith(between(2, SetDropper(x.(redis := redis), d, Released(t))), d, t, calls.mark),
                    Ok(Receipt(true)))
  }

  ghost function PersistWith(x: System, d: nat, t: Enrollment, at: int, calls: DropCalls, between: Between): Dropping {
    if calls.persist == Down then Dropping(Rest(x, d), Err(Infrastructure))
    else
      match Drop(x.db, t, at)
      case Err(e) => Dropping(Rest(x, d), Err(if calls.persist == Lost then Infrastructure else e))
      case Ok(db) =>
        if calls.persist == Lost then Dropping(Rest(x.(db := db), d), Err(Infrastructure))
        else ReleaseWith(between(1, SetDropper(x.(db := db), d, Persisted(t))), d, t, calls, between)
  }

  /** One drop request of worker `d`, with other workers between its calls. */
  ghost function DropWith(
    s: System, d: nat, student: StudentId, id: EnrollmentId, at: int, calls: DropCalls, between: Between): Dropping
  {
    if student == 0 || id == "" then Dropping(s, Err(InvalidParams))
    else if !calls.query then Dropping(s, Err(Infrastructure))
    else if !Listed(s.db, student, id) then Dropping(s, Err(RecordNotFound))
    else
      match CheckDrop(s.db.enrollments[id].state, s.db.applications[s.db.enrollments[id].app].completedAt, at)
      case Some(e) => Dropping(s, Err(e))
      case None =>
        var t := Identity(s.db, id);
        PersistWith(between(0, SetDropper(s, d, Loaded(t))), d, t, at, calls, between)
  }

  lemma RestIn(states: System -> bool, x: System, d: nat)
    requires Closed(states, Any) && states(x)
    ensures states(Rest(x, d))
  {
    hide Closed;
    StepIn(states, Any, x, StopDropper(d));
  }

  lemma MarkIn(states: System -> bool, x: System, d: nat, t: Enrollment, mark: bool)
    requires Closed(states, Any) && states(x) && Progress(x.droppers, d) == Released(t)
    ensures states(MarkWith(x, d, t, mark))
  {
    hide Closed, MarkRepairCompleted;
    RestIn(states, x, d);
    StepIn(states, Any, x, CompleteRepair(d));
  }

  /** A receipt at the end of a drop: the row is dropped, and either Redis gave back or a repair is pending. */
  ghost predicate ReceiptHolds(x: System, id: EnrollmentId, receipt: Receipt) {
    && id in x.db.enrollments && x.db.enrollments[id].state == RowState.Dropped
    && (receipt.released ==> id in x.redis.dropped)
    && (id in x.redis.dropped || (id in x.db.repairs && x.db.repairs[id].state == RepairPending))
  }

  lemma ReceiptKept(x: System, y: System, id: EnrollmentId, receipt: Receipt)
    requires Reachable(y) && id in x.db.enrollments && x.db.enrollments[id].state == RowState.Dropped
    requires y.db.enrollments == x.db.enrollments && (receipt.released ==> id in y.redis.dropped)
    ensures ReceiptHolds(y, id, receipt)
  {
    hide Reachable;
    RepairsCoverReleases(y, id);
  }

  lemma DroppedRow(x: System, d: nat)
    requires Reachable(x)
    ensures match Progress(x.droppers, d)
            case Persisted(t) => t.id in x.db.enrollments && x.db.enrollments[t.id].state == RowState.Dropped
            case Released(t) =>
              && t.id in x.db.enrollments && x.db.enrollments[t.id].state == RowState.Dropped
              && t.id in x.redis.dropped
            case _ => true
  {
    hide Inv, Reachable;
    ReachableKeeps(x);
    InvWorkers(x);
    ProgressOk(x, d);
    if Progress(x.droppers, d).Released? {
      RepairsCoverReleases(x, Progress(x.droppers, d).target.id);
    }
  }

  lemma MarkReceipt(states: System -> bool, x: System, d: nat, t: Enrollment, mark: bool)
    requires Closed(states, Any) && states(x) && Progress(x.droppers, d) == Released(t)
    ensures ReceiptHolds(MarkWith(x, d, t, mark), t.id, Receipt(true))
  {
    MarkIn(states, x, d, t, mark);
    Member(states, Any, x);
    Member(states, Any, MarkWith(x, d, t, mark));
    hide Closed, Reachable, ReceiptHolds;
    DroppedRow(x, d);
    ReceiptKept(x, MarkWith(x, d, t, mark), t.id, Receipt(true));
  }

  lemma ReleaseStep(states: System -> bool, x: System, d: nat, t: Enrollment)
    requires Closed(states, Any) && states(x) && Progress(x.droppers, d) == Persisted(t)
    ensures Release(x.redis, t).1 >= 0
    ensures states(SetDropper(x.(redis := Release(x.redis, t).0), d, Released(t)))
  {
    hide Closed, Reachable, Release;
    Member(states, Any, x);
    DropsNeverFail(x, d, 0);
    StepIn(states, Any, x, ReleaseDrop(d));
  }

  lemma ReleaseLost(states: System -> bool, x: System, d: nat, t: Enrollment)
    requires Closed(states, Any) && states(x) && Progress(x.droppers, d) == Persisted(t)
    ensures var y := Rest(x.(redis := Release(x.redis, t).0), d);
            states(y) && ReceiptHolds(y, t.id, Receipt(false))
    ensures states(Rest(x, d)) && ReceiptHolds(Rest(x, d), t.id, Receipt(false))
  {
    hide Closed, Reachable, Release, ReceiptHolds;
    Member(states, Any, x);
    DroppedRow(x, d);
    RestIn(states, x, d);
    ReleaseStep(states, x, d, t);
    var released := SetDropper(x.(redis := Release(x.redis, t).0), d, Released(t));
    RestIn(states, released, d);
    assert Rest(released, d) == Rest(x.(redis := Release(x.redis, t).0), d);
    Member(states, Any, Rest(x, d));
    Member(states, Any, Rest(released, d));
    ReceiptKept(x, Rest(x, d), t.id, Receipt(false));
    ReceiptKept(x, Rest(released, d), t.id, Receipt(false));
  }

  lemma ReleaseIn(states: System -> bool, x: System, d: nat, t: Enrollment, calls: DropCalls, between: Between)
    requires Closed(states, Any) && SparesDropper(states, between, d) && states(x)
    requires Progress(x.droppers, d) == Persisted(t)
    ensures var o := ReleaseWith(x, d, t, calls, between);
            && states(o.state) && o.answer.Ok? && ReceiptHolds(o.state, t.id, o.answer.value)
            && (calls.release == Answered ==> o.answer == Ok(Receipt(true)))
  {
    hide Closed, Release, ReceiptHolds, MarkWith, Rest;
    ReleaseStep(states, x, d, t);
    ReleaseLost(states, x, d, t);
    if calls.release == Answered {
      var released := SetDropper(x.(redis := Release(x.redis, t).0), d, Released(t));
      MarkIn(states, between(2, released), d, t, calls.mark);
      MarkReceipt(states, between(2, released), d, t, calls.mark);
    }
  }

  lemma PersistStep(states: System -> bool, x: System, d: nat, t: Enrollment, at: int)
    requires Closed(states, Any) && states(x) && Progress(x.droppers, d) == Loaded(t)
    ensures Drop(x.db, t, at).Ok?
    ensures states(SetDropper(x.(db := Drop(x.db, t, at).value), d, Persisted(t)))
    ensures states(Rest(x.(db := Drop(x.db, t, at).value), d))
  {
    hide Closed, Reachable, Drop;
    Member(states, Any, x);
    DropsNeverFail(x, d, at);
    StepIn(states, Any, x, PersistDrop(d, at));
    var persisted := SetDropper(x.(db := Drop(x.db, t, at).value), d, Persisted(t));
    RestIn(states, persisted, d);
    assert Rest(persisted, d) == Rest(x.(db := Drop(x.db, t, at).value), d);
  }

  lemma PersistIn(
    states: System -> bool, x: System, d: nat, t: Enrollment, at: int, calls: DropCalls, between: Between)
    requires Closed(states, Any) && SparesDropper(states, between, d) && states(x)
    requires Progress(x.droppers, d) == Loaded(t)
    ensures var o := PersistWith(x, d, t, at, calls, between);
            && states(o.state) && (o.answer.Ok? ==> ReceiptHolds(o.state, t.id, o.answer.value))
            && (calls.persist == Answered && calls.release == Answered ==> o.answer == Ok(Receipt(true)))
  {
    hide Closed, Drop, ReceiptHolds, ReleaseWith, Rest;
    RestIn(states, x, d);
    PersistStep(states, x, d, t, at);
    if calls.persist == Answered {
      var persisted := SetDropper(x.(db := Drop(x.db, t, at).value), d, Persisted(t));
      ReleaseIn(states, between(1, persisted), d, t, calls, between);
    }
  }

  lemma LoadIn(states: System -> bool, s: System, d: nat, student: StudentId, id: EnrollmentId)
    requires Closed(states, Any) && states(s) && Progress(s.droppers, d).Resting?
    requires Listed(s.db, student, id) && s.db.enrollments[id].state != Completed
    ensures states(SetDropper(s, d, Loaded(Identity(s.db, id)))) && Identity(s.db, id).id == id
  {
    hide Closed;
    StepIn(states, Any, s, LoadDrop(d, id, student));
  }

  /**
    Refinement: a drop request in a reachable state, with any of its calls failing and with any steps of
    other workers between its calls, ends where steps of the protocol end. A receipt means that MySQL
    holds the drop; "released" means that Redis gave the resources back, and otherwise it did or a repair
    is pending. When its calls answer, a listed course that may be dropped is dropped and released.
   */
  lemma DropRefines(
    states: System -> bool, s: System, d: nat, student: StudentId, id: EnrollmentId, at: int, calls: DropCalls,
    between: Between)
    requires Closed(states, Any) && SparesDropper(states, between, d) && states(s) && Progress(s.droppers, d).Resting?
    ensures var o := DropWith(s, d, student, id, at, calls, between);
            && states(o.state) && (o.answer.Ok? ==> ReceiptHolds(o.state, id, o.answer.value))
    ensures student != 0 && id != "" && calls == DropCalls(true, Answered, Answered, calls.mark)
            && Listed(s.db, student, id)
            && MayDrop(s.db, id, at) ==>
              DropWith(s, d, student, id, at, calls, between).answer == Ok(Receipt(true))
  {
    hide PersistWith, ReceiptHolds, Closed, Identity, Reachable;
    if Listed(s.db, student, id) && MayDrop(s.db, id, at) {
      LoadIn(states, s, d, student, id);
      var t := Identity(s.db, id);
      PersistIn(states, between(0, SetDropper(s, d, Loaded(t))), d, t, at, calls, between);
    }
  }

  /** With nobody in between, the calls do to both stores what the code of the drop does. */
  lemma DropAlone(s: System, d: nat, student: StudentId, id: EnrollmentId, at: int, calls: DropCalls)
    ensures var o := DropWith(s, d, student, id, at, calls, Alone);
            DropOnce(s.redis, s.db, student, id, at, calls) == DropOutcome(o.state.redis, o.state.db, o.answer)
  {
    hide Drop, Release, MarkRepairCompleted;
  }

  /** A drop that was released gives nothing back a second time. */
  lemma DroppedOnce(rd: Redis, db: MySql, student: StudentId, id: EnrollmentId, at: int, calls: DropCalls)
    requires Listed(db, student, id) && db.enrollments[id].state == RowState.Dropped && id in rd.dropped
    ensures var o := DropOnce(rd, db, student, id, at, calls);
            o.redis == rd && (o.db == db || o.db == MarkRepairCompleted(db, id))
  {
  }

  // --- A repair batch, call by call ------------------------------------------------------------

  ghost predicate DistinctOrder(order: seq<EnrollmentId>) {
    forall i, j :: 0 <= i < j < |order| ==> order[i] != order[j]
  }

  /** Every item is a due repair of its own, read as the tables have it. */
  ghost predicate ItemsOk(db: MySql, items: seq<RepairItem>) {
    && (forall i :: 0 <= i < |items| ==>
          && items[i].target.id in db.repairs && db.repairs[items[i].target.id].state == RepairPending
          && Listed(db, items[i].target.student, items[i].target.id)
          && items[i].target == Identity(db, items[i].target.id))
    && (forall i, j :: 0 <= i < j < |items| ==> items[i].target.id != items[j].target.id)
  }

  lemma {:induction false} DueItems(db: MySql, order: seq<EnrollmentId>, now: int, limit: nat)
    requires DistinctOrder(order)
    ensures ItemsOk(db, DueRepairs(db, order, now, limit))
    ensures forall i :: 0 <= i < |DueRepairs(db, order, now, limit)| ==>
              DueRepairs(db, order, now, limit)[i].target.id in order
  {
    if order != [] {
      var n := |order| - 1;
      DueItems(db, order[..n], now, limit);
      assert order == order[..n] + [order[n]];
      assert order[n] !in order[..n];
    }
  }

  /** The batch has one worker per item, from `d` on; each knows what the query read. */
  ghost function LoadAll(s: System, d: nat, items: seq<RepairItem>): System {
    if items == [] then s
    else
      var n := |items| - 1;
      SetDropper(LoadAll(s, d, items[..n]), d + n, Persisted(items[n].target))
  }

  ghost predicate SparesDroppers(states: System -> bool, between: Between, d: nat) {
    forall k: nat, x :: states(x) ==>
      && states(between(k, x))
      && forall i: nat :: i >= d ==> Progress(between(k, x).droppers, i) == Progress(x.droppers, i)
  }

  /** The release of one item. */
  ghost function AfterRelease(x: System, d: nat, item: RepairItem, calls: RepairCalls): System {
    if calls.release == Down then x
    else
      var (redis, status) := Release(x.redis, item.target);
      SetDropper(x.(redis := redis), d, if status < 0 then Resting else Released(item.target))
  }

  ghost predicate ReleaseKnown(x: System, item: RepairItem, calls: RepairCalls) {
    calls.release == Answered && Release(x.redis, item.target).1 >= 0
  }

  /** The mark of one item. */
  ghost function AfterMark(x: System, d: nat, item: RepairItem, now: int, released: bool, calls: RepairCalls): System {
    if calls.mark == Down then x
    else if released then Rest(x.(db := MarkRepairCompleted(x.db, item.target.id)), d)
    else Rest(x.(db := MarkRepairFailed(x.db, item.target.id, now + Backoff((item.retryCount + 1) % UINT32))), d)
  }

  /** One repair, with steps of other workers before its release and before its mark. */
  ghost function ItemWith(
    s: System, d: nat, item: RepairItem, now: int, calls: RepairCalls, between: Between, n: nat): System
  {
    var x := between(2 * n, s);
    var y := between(2 * n + 1, AfterRelease(x, d, item, calls));
    AfterMark(y, d, item, now, ReleaseKnown(x, item, calls), calls)
  }

  datatype Repairing = Repairing(state: System, stopped: bool)

  ghost function RepairWith(
    s: System, d: nat, items: seq<RepairItem>, now: int, calls: nat -> RepairCalls, between: Between): Repairing
  {
    if items == [] then Repairing(s, false)
    else
      var n := |items| - 1;
      var before := RepairWith(s, d, items[..n], now, calls, between);
      if before.stopped then before
      else
        Repairing(ItemWith(before.state, d + n, items[n], now, calls(n), between, n), calls(n).mark != Answered)
  }

  lemma LastItem(db: MySql, items: seq<RepairItem>)
    requires items != [] && ItemsOk(db, items)
    ensures ItemsOk(db, items[..|items| - 1])
    ensures var t := items[|items| - 1].target;
            && t.id in db.repairs && db.repairs[t.id].state == RepairPending
            && t.id in db.enrollments && db.enrollments[t.id].app in db.applications && t == Identity(db, t.id)
  {
  }

  /** From worker `d` on, each worker has the item of its place, and the others rest. */
  ghost predicate AllLoaded(x: System, d: nat, items: seq<RepairItem>) {
    forall i: nat :: i >= d ==>
      Progress(x.droppers, i) == if i - d < |items| then Persisted(items[i - d].target) else Resting
  }

  lemma OneMoreLoaded(x: System, d: nat, items: seq<RepairItem>)
    requires items != [] && AllLoaded(x, d, items[..|items| - 1])
    ensures Progress(x.droppers, d + |items| - 1).Resting?
    ensures AllLoaded(SetDropper(x, d + |items| - 1, Persisted(items[|items| - 1].target)), d, items)
  {
    var n := |items| - 1;
    var y := SetDropper(x, d + n, Persisted(items[n].target));
    forall i: nat | i >= d
      ensures Progress(y.droppers, i) == if i - d < |items| then Persisted(items[i - d].target) else Resting
    {
      assert Progress(x.droppers, i) == if i - d < n then Persisted(items[i - d].target) else Resting;
    }
  }

  lemma {:induction false} LoadAllIn(states: System -> bool, s: System, d: nat, items: seq<RepairItem>)
    requires Closed(states, Any) && states(s) && ItemsOk(s.db, items) && AllLoaded(s, d, [])
    ensures var x := LoadAll(s, d, items);
            states(x) && x.db == s.db && x.redis == s.redis && AllLoaded(x, d, items)
  {
    hide Closed, Reachable, Identity, ItemsOk, AllLoaded, Progress, SetDropper;
    if items != [] {
      LastItem(s.db, items);
      var n := |items| - 1;
      LoadAllIn(states, s, d, items[..n]);
      OneMoreLoaded(LoadAll(s, d, items[..n]), d, items);
      LoadOne(states, LoadAll(s, d, items[..n]), d + n, items[n].target);
    }
  }

  lemma LoadOne(states: System -> bool, x: System, d: nat, t: Enrollment)
    requires Closed(states, Any) && states(x) && Progress(x.droppers, d).Resting?
    requires t.id in x.db.repairs && x.db.repairs[t.id].state == RepairPending
    requires t.id in x.db.enrollments && x.db.enrollments[t.id].app in x.db.applications && t == Identity(x.db, t.id)
    ensures var y := SetDropper(x, d, Persisted(t));
            states(y) && y.db == x.db && y.redis == x.redis
  {
    hide Closed;
    StepIn(states, Any, x, LoadRepair(d, t.id));
  }

  lemma ItemReleaseIn(states: System -> bool, x: System, d: nat, item: RepairItem, calls: RepairCalls)
    requires Closed(states, Any) && states(x) && Progress(x.droppers, d) == Persisted(item.target)
    ensures var y := AfterRelease(x, d, item, calls);
            && states(y) && (forall i :: i != d ==> Progress(y.droppers, i) == Progress(x.droppers, i))
            && Progress(y.droppers, d)
               == (if calls.release == Down then Persisted(item.target) else Released(item.target))
    ensures Release(x.redis, item.target).1 >= 0
  {
    hide Closed, Release;
    ReleaseStep(states, x, d, item.target);
  }

  lemma ItemMarkIn(
    states: System -> bool, y: System, d: nat, item: RepairItem, now: int, released: bool, calls: RepairCalls)
    requires Closed(states, Any) && states(y)
    requires Progress(y.droppers, d) == Released(item.target)
          || (!released && Progress(y.droppers, d) == Persisted(item.target))
    ensures var z := AfterMark(y, d, item, now, released, calls);
            states(z) && forall i :: i != d ==> Progress(z.droppers, i) == Progress(y.droppers, i)
  {
    hide Closed, MarkRepairCompleted, MarkRepairFailed, Backoff;
    StepIn(states, Any, y, if released then CompleteRepair(d)
                           else PostponeRepair(d, now + Backoff((item.retryCount + 1) % UINT32)));
  }

  lemma ItemIn(
    states: System -> bool, s: System, d: nat, e: nat, item: RepairItem, now: int, calls: RepairCalls,
    between: Between, n: nat)
    requires Closed(states, Any) && SparesDroppers(states, between, d) && states(s)
    requires d <= e && Progress(s.droppers, e) == Persisted(item.target)
    ensures var z := ItemWith(s, e, item, now, calls, between, n);
            states(z) && forall i: nat :: d <= i != e ==> Progress(z.droppers, i) == Progress(s.droppers, i)
  {
    hide AfterRelease, AfterMark, Closed, Release;
    var x := between(2 * n, s);
    ItemReleaseIn(states, x, e, item, calls);
    var y := between(2 * n + 1, AfterRelease(x, e, item, calls));
    ItemMarkIn(states, y, e, item, now, ReleaseKnown(x, item, calls), calls);
  }

  lemma {:induction false} ItemsIn(
    states: System -> bool, s: System, d: nat, items: seq<RepairItem>, now: int, calls: nat -> RepairCalls,
    between: Between, k: nat)
    requires Closed(states, Any) && SparesDroppers(states, between, d) && states(s) && k <= |items|
    requires forall i: nat :: d <= i < d + |items| ==> Progress(s.droppers, i) == Persisted(items[i - d].target)
    ensures var r := RepairWith(s, d, items[..k], now, calls, between);
            && states(r.state)
            && (r.stopped || forall i: nat :: d + k <= i < d + |items| ==>
                              Progress(r.state.droppers, i) == Persisted(items[i - d].target))
  {
    hide ItemWith, Closed, SparesDroppers;
    if k > 0 {
      var n := k - 1;
      ItemsIn(states, s, d, items, now, calls, between, n);
      assert items[..k][..n] == items[..n];
      var before := RepairWith(s, d, items[..n], now, calls, between);
      if !before.stopped {
        ItemIn(states, before.state, d, d + n, items[n], now, calls(n), between, n);
      }
    }
  }

  /**
    Refinement: a repair batch on what its query read in a reachable state, with any of its calls failing
    and with any steps of other workers between its calls, ends where steps of the protocol end.
   */
  lemma RepairRefines(
    states: System -> bool, s: System, d: nat, items: seq<RepairItem>, now: int, calls: nat -> RepairCalls,
    between: Between)
    requires Closed(states, Any) && SparesDroppers(states, between, d) && states(s)
    requires ItemsOk(s.db, items) && AllLoaded(s, d, [])
    ensures states(RepairWith(LoadAll(s, d, items), d, items, now, calls, between).state)
  {
    LoadAllIn(states, s, d, items);
    hide Closed, SparesDroppers, ItemsOk, RepairWith;
    ItemsIn(states, LoadAll(s, d, items), d, items, now, calls, between, |items|);
    assert items[..|items|] == items;
  }

  /** With nobody in between, the calls do to both stores what the code of the repair batch does. */
  lemma {:induction false} RepairAlone(
    s: System, d: nat, items: seq<RepairItem>, now: int, calls: nat -> RepairCalls, x: System)
    requires x.redis == s.redis && x.db == s.db
    ensures var r := RepairWith(x, d, items, now, calls, Alone);
            RepairEach(s.redis, s.db, items, now, calls) == Repaired(r.state.redis, r.state.db, r.stopped)
  {
    hide Release, MarkRepairFailed, MarkRepairCompleted, Backoff;
    if items != [] {
      RepairAlone(s, d, items[..|items| - 1], now, calls, x);
    }
  }

  /** With answering calls a repair ends with its resources given back and its task completed. */
  lemma RepairCompletes(
    states: System -> bool, s: System, d: nat, item: RepairItem, now: int, between: Between, n: nat)
    requires Closed(states, Any) && SparesDropper(states, between, d) && states(s)
    requires Progress(s.droppers, d) == Persisted(item.target)
    ensures var z := ItemWith(s, d, item, now, RepairCalls(Answered, Answered), between, n);
            && states(z) && item.target.id in z.redis.dropped
            && item.target.id in z.db.repairs && z.db.repairs[item.target.id].state == RepairCompleted
  {
    hide Closed, Release, Reachable;
    var calls := RepairCalls(Answered, Answered);
    var x := between(2 * n, s);
    ItemReleaseIn(states, x, d, item, calls);
    var y := between(2 * n + 1, AfterRelease(x, d, item, calls));
    ItemMarkIn(states, y, d, item, now, true, calls);
    Member(states, Any, y);
    DroppedRow(y, d);
    RepairsCoverReleases(y, item.target.id);
  }

  // --- Other workers ---------------------------------------------------------------------------

  /** The steps of the drop and repair workers from `d` up to `e`. */
  predicate Drops(a: Action, d: nat, e: nat) {
    && (a.LoadDrop? || a.PersistDrop? || a.ReleaseDrop? || a.CompleteRepair? || a.LoadRepair? || a.PostponeRepair?
        || a.StopDropper?)
    && d <= a.d < e
  }

  lemma OthersKeepProgress(s: System, a: Action, d: nat, e: nat, i: nat)
    requires Enabled(s, a) && !Drops(a, d, e) && d <= i < e
    ensures Progress(Apply(s, a).droppers, i) == Progress(s.droppers, i)
  {
    hide SaveBatch, Clear, Drop, Release, Project, Acknowledge, DeadLetter, Purge, WellFormed, Commit;
  }

  lemma {:induction false} LeadsSpareDropper(
    states: System -> bool, x: System, actions: seq<Action>, y: System, allowed: Action -> bool, d: nat, e: nat,
    i: nat)
    requires Closed(states, allowed) && states(x) && Leads(x, actions, y, allowed) && d <= i < e
    requires forall a :: allowed(a) ==> !Drops(a, d, e)
    ensures states(y) && Progress(y.droppers, i) == Progress(x.droppers, i)
  {
    hide Closed, Enabled, Apply, Drops, Progress;
    if actions != [] {
      var n := |actions| - 1;
      var m :| Leads(x, actions[..n], m, allowed) && allowed(actions[n]) && Enabled(m, actions[n])
               && y == Apply(m, actions[n]);
      LeadsSpareDropper(states, x, actions[..n], m, allowed, d, e, i);
      StepIn(states, allowed, m, actions[n]);
      OthersKeepProgress(m, actions[n], d, e, i);
    }
  }

  /** Any steps but the worker's own are what may happen between the calls of a drop. */
  lemma OthersSpareDropper(states: System -> bool, between: Between, allowed: Action -> bool, d: nat)
    requires Closed(states, allowed) && OnlySteps(states, between, allowed)
    requires forall a :: allowed(a) ==> !Drops(a, d, d + 1)
    ensures SparesDropper(states, between, d)
  {
    hide Closed, Drops, Progress, Leads;
    forall k: nat, x | states(x)
      ensures states(between(k, x)) && Progress(between(k, x).droppers, d) == Progress(x.droppers, d)
    {
      var actions :| Leads(x, actions, between(k, x), allowed);
      LeadsSpareDropper(states, x, actions, between(k, x), allowed, d, d + 1, d);
    }
  }

  /** And any steps but those of its own workers between the calls of a repair batch. */
  lemma OthersSpareDroppers(states: System -> bool, between: Between, allowed: Action -> bool, d: nat)
    requires Closed(states, allowed) && OnlySteps(states, between, allowed)
    requires forall a, e: nat :: allowed(a) ==> !Drops(a, d, e)
    ensures SparesDroppers(states, between, d)
  {
    hide Closed, Drops, Progress, Leads;
    forall k: nat, x, i: nat | states(x) && i >= d
      ensures states(between(k, x)) && Progress(between(k, x).droppers, i) == Progress(x.droppers, i)
    {
      var actions :| Leads(x, actions, between(k, x), allowed);
      LeadsSpareDropper(states, x, actions, between(k, x), allowed, d, i + 1, i);
    }
    forall k: nat, x | states(x) ensures states(between(k, x)) {
      var actions :| Leads(x, actions, between(k, x), allowed);
      LeadsSpareDropper(states, x, actions, between(k, x), allowed, d, d + 1, d);
    }
  }
}
