/**
  The MySQL side: the tables of one selection round and the transactions that change them. A
  transaction either returns the new tables or an error, in which case nothing was changed.
 */
module MySqlTables {
  import opened Types
  import opened RedisScripts

  /** selection_event keys: `selection:<student>:<application>` and `drop:<enrollment>`. */
  datatype EventId = SelectionEvent(student: StudentId, app: AppId) | DropEvent(enrollment: EnrollmentId)

  datatype EventBody = SelectionBody(result: Selection) | DropBody(target: Enrollment)

  datatype QuotaKey = QuotaKey(round: RoundId, student: StudentId)

  datatype Quota = Quota(creditLimit: int, selectedCredits: int, courseLimit: int, selectedCourses: int)

  datatype RowState = Enrolled | Dropped | Completed

  datatype ActiveKey = ActiveKey(term: TermId, student: StudentId, course: CourseId)

  datatype EnrollmentRow = EnrollmentRow(
    app: AppId,
    term: TermId,
    student: StudentId,
    course: CourseId,
    teachingClass: ClassId,
    credits: int,
    state: RowState,
    activeKey: Option<ActiveKey>)

  datatype Delta = Delta(event: EventId, teachingClass: ClassId, delta: int, processedAt: Option<int>)

  datatype RepairState = RepairPending | RepairCompleted

  datatype Repair = Repair(state: RepairState, retryCount: nat, nextRetryAt: int)

  datatype ClassRow = ClassRow(capacity: int, selectedCount: int)

  datatype MySql = MySql(
    quotas: map<QuotaKey, Quota>,
    events: map<EventId, EventBody>,
    applications: map<AppId, Selection>,
    enrollments: map<EnrollmentId, EnrollmentRow>,
    deltas: seq<Delta>,
    outbox: map<EventId, Selection>,
    repairs: map<EnrollmentId, Repair>,
    classes: map<ClassId, ClassRow>)

  /** The id generator's answers during one attempt. */
  type Ids = AppId -> EnrollmentId

  function EventOf(r: Selection): EventId {
    SelectionEvent(r.student, r.app)
  }

  function KeyOf(r: Selection): QuotaKey {
    QuotaKey(r.round, r.student)
  }

  predicate SameFingerprint(a: Selection, b: Selection) {
    && a.request == b.request && a.round == b.round && a.term == b.term && a.student == b.student
    && a.course == b.course && a.teachingClass == b.teachingClass && a.credits == b.credits
    && a.source == b.source
  }

  predicate SameCompleteResult(a: Selection, b: Selection) {
    && a.app == b.app && a.state == b.state && a.appliedAt == b.appliedAt && a.completedAt == b.completedAt
    && SameFingerprint(a, b)
    && (if a.failure == None || b.failure == None then a.failure == None && b.failure == None
        else a.failure.value.code == b.failure.value.code && a.failure.value.message == b.failure.value.message)
  }

  predicate Known(unique: seq<Selection>, r: Selection) {
    exists i :: 0 <= i < |unique| && EventOf(unique[i]) == EventOf(r)
  }

  predicate Consistent(unique: seq<Selection>, r: Selection) {
    forall i :: 0 <= i < |unique| && EventOf(unique[i]) == EventOf(r) ==> SameCompleteResult(unique[i], r)
  }

  /** Validates a batch and keeps the first result of every event. */
  function Normalize(results: seq<Selection>): Result<seq<Selection>, Error> {
    if results == [] then Ok([])
    else
      match Normalize(results[..|results| - 1])
      case Err(e) => Err(e)
      case Ok(unique) =>
        var r := results[|results| - 1];
        if !ValidResult(r) then Err(InvalidParams)
        else if !Known(unique, r) then Ok(unique + [r])
        else if Consistent(unique, r) then Ok(unique)
        else Err(IdempotencyConflict)
  }

  /** The results whose event this batch inserts first (INSERT ... ON CONFLICT DO NOTHING). */
  function Claimed(events: map<EventId, EventBody>, unique: seq<Selection>): seq<Selection> {
    if unique == [] then []
    else
      var r := unique[|unique| - 1];
      var rest := Claimed(events, unique[..|unique| - 1]);
      if EventOf(r) in events then rest else rest + [r]
  }

  /** Events that were already there must carry the same result. */
  predicate UnclaimedMatch(events: map<EventId, EventBody>, unique: seq<Selection>) {
    forall i :: 0 <= i < |unique| && EventOf(unique[i]) in events ==>
      events[EventOf(unique[i])].SelectionBody? && SameCompleteResult(events[EventOf(unique[i])].result, unique[i])
  }

  function InsertEvents(events: map<EventId, EventBody>, claimed: seq<Selection>): map<EventId, EventBody> {
    if claimed == [] then events
    else
      var r := claimed[|claimed| - 1];
      InsertEvents(events, claimed[..|claimed| - 1])[EventOf(r) := SelectionBody(r)]
  }

  /** The credits and the number of courses that a batch charges to one quota row. */
  function Charge(claimed: seq<Selection>, key: QuotaKey): (int, int) {
    if claimed == [] then (0, 0)
    else
      var r := claimed[|claimed| - 1];
      var (credits, courses) := Charge(claimed[..|claimed| - 1], key);
      if r.state == Selected && KeyOf(r) == key then (credits + r.credits, courses + 1) else (credits, courses)
  }

  function ChargedKeys(claimed: seq<Selection>): set<QuotaKey> {
    set i | 0 <= i < |claimed| && claimed[i].state == Selected :: KeyOf(claimed[i])
  }

  predicate Affordable(q: Quota, charge: (int, int)) {
    q.selectedCredits + charge.0 <= q.creditLimit && q.selectedCourses + charge.1 <= q.courseLimit
  }

  function ChargeQuota(q: Quota, charge: (int, int)): Quota {
    q.(selectedCredits := q.selectedCredits + charge.0, selectedCourses := q.selectedCourses + charge.1)
  }

  /** The single guarded UPDATE over all quota rows of the batch; every row must be affected. */
  function ChargeQuotas(quotas: map<QuotaKey, Quota>, claimed: seq<Selection>): Result<map<QuotaKey, Quota>, Error> {
    if forall key :: key in ChargedKeys(claimed) ==> key in quotas && Affordable(quotas[key], Charge(claimed, key))
    then Ok(map key | key in quotas ::
              if key in ChargedKeys(claimed) then ChargeQuota(quotas[key], Charge(claimed, key)) else quotas[key])
    else Err(CreditQuotaExceeded)
  }

  predicate RequestTaken(applications: map<AppId, Selection>, r: Selection) {
    exists a :: a in applications && applications[a].round == r.round
             && applications[a].student == r.student && applications[a].request == r.request
  }

  function InsertApplications(applications: map<AppId, Selection>, claimed: seq<Selection>)
    : Result<map<AppId, Selection>, Error>
  {
    if claimed == [] then Ok(applications)
    else
      match InsertApplications(applications, claimed[..|claimed| - 1])
      case Err(e) => Err(e)
      case Ok(rows) =>
        var r := claimed[|claimed| - 1];
        if r.app in rows || RequestTaken(rows, r) then Err(DuplicateKey) else Ok(rows[r.app := r])
  }

  function NewRow(r: Selection): EnrollmentRow {
    EnrollmentRow(r.app, r.term, r.student, r.course, r.teachingClass, r.credits, Enrolled,
                  Some(ActiveKey(r.term, r.student, r.course)))
  }

  predicate RowClashes(rows: map<EnrollmentId, EnrollmentRow>, row: EnrollmentRow) {
    exists e :: e in rows && (rows[e].app == row.app || (row.activeKey.Some? && rows[e].activeKey == row.activeKey))
  }

  function InsertEnrollments(rows: map<EnrollmentId, EnrollmentRow>, claimed: seq<Selection>, ids: Ids)
    : Result<map<EnrollmentId, EnrollmentRow>, Error>
  {
    if claimed == [] then Ok(rows)
    else
      match InsertEnrollments(rows, claimed[..|claimed| - 1], ids)
      case Err(e) => Err(e)
      case Ok(rows') =>
        var r := claimed[|claimed| - 1];
        if r.state != Selected then Ok(rows')
        else if ids(r.app) in rows' || RowClashes(rows', NewRow(r)) then Err(DuplicateKey)
        else Ok(rows'[ids(r.app) := NewRow(r)])
  }

  predicate DeltaRecorded(deltas: seq<Delta>, event: EventId) {
    exists i :: 0 <= i < |deltas| && deltas[i].event == event
  }

  function InsertDeltas(deltas: seq<Delta>, claimed: seq<Selection>): Result<seq<Delta>, Error> {
    if claimed == [] then Ok(deltas)
    else
      match InsertDeltas(deltas, claimed[..|claimed| - 1])
      case Err(e) => Err(e)
      case Ok(deltas') =>
        var r := claimed[|claimed| - 1];
        if r.state != Selected then Ok(deltas')
        else if DeltaRecorded(deltas', EventOf(r)) then Err(DuplicateKey)
        else Ok(deltas' + [Delta(EventOf(r), r.teachingClass, 1, None)])
  }

  function AppendOutbox(
    outbox: map<EventId, Selection>, claimed: seq<Selection>): Result<map<EventId, Selection>, Error>
  {
    if claimed == [] then Ok(outbox)
    else
      match AppendOutbox(outbox, claimed[..|claimed| - 1])
      case Err(e) => Err(e)
      case Ok(rows) =>
        var r := claimed[|claimed| - 1];
        if EventOf(r) in rows then Err(DuplicateKey) else Ok(rows[EventOf(r) := r])
  }

  /** The business writes for the events this batch claimed. */
  function Persist(db: MySql, claimed: seq<Selection>, ids: Ids): Result<MySql, Error> {
    match ChargeQuotas(db.quotas, claimed)
    case Err(e) => Err(e)
    case Ok(quotas) =>
      match InsertApplications(db.applications, claimed)
      case Err(e) => Err(e)
      case Ok(applications) =>
        match InsertEnrollments(db.enrollments, claimed, ids)
        case Err(e) => Err(e)
        case Ok(enrollments) =>
          match InsertDeltas(db.deltas, claimed)
          case Err(e) => Err(e)
          case Ok(deltas) =>
            match AppendOutbox(db.outbox, claimed)
            case Err(e) => Err(e)
            case Ok(outbox) =>
              Ok(db.(quotas := quotas, events := InsertEvents(db.events, claimed), applications := applications,
                     enrollments := enrollments, deltas := deltas, outbox := outbox))
  }

  /** SaveSelectionResults: one transaction for a whole delivered batch. */
  function SaveBatch(db: MySql, results: seq<Selection>, ids: Ids): Result<MySql, Error> {
    match Normalize(results)
    case Err(e) => Err(e)
    case Ok(unique) =>
      if !UnclaimedMatch(db.events, unique) then Err(IdempotencyConflict)
      else
        var claimed := Claimed(db.events, unique);
        if claimed == [] then Ok(db) else Persist(db, claimed, ids)
  }

  /** Errors that leave a stream entry pending instead of sending it to the dead-letter stream. */
  predicate Retryable(e: Error) {
    e == DuplicateKey || e == Infrastructure
  }

  function Identity(db: MySql, id: EnrollmentId): Enrollment
    requires id in db.enrollments && db.enrollments[id].app in db.applications
  {
    var row := db.enrollments[id];
    Enrollment(id, row.app, db.applications[row.app].round, row.term, row.student, row.course, row.teachingClass,
               row.credits)
  }

  /** DropEnrollment: the row, the quota mirror, the count delta, the audit event and the repair task together. */
  function Drop(db: MySql, e: Enrollment, now: int): Result<MySql, Error> {
    if e.id !in db.enrollments || db.enrollments[e.id].student != e.student
       || db.enrollments[e.id].app !in db.applications then Err(RecordNotFound)
    else
      var row := db.enrollments[e.id];
      var key := QuotaKey(e.round, e.student);
      if row.state == Dropped then Ok(db)
      else if row.state != Enrolled then Err(InvalidState)
      else if Identity(db, e.id) != e then Err(IdempotencyConflict)
      else if key !in db.quotas || db.quotas[key].selectedCredits < e.credits || db.quotas[key].selectedCourses <= 0
      then Err(InvalidState)
      else if DeltaRecorded(db.deltas, DropEvent(e.id)) || DropEvent(e.id) in db.events || e.id in db.repairs
      then Err(DuplicateKey)
      else
        Ok(db.(enrollments := db.enrollments[e.id := row.(state := Dropped, activeKey := None)],
               quotas := db.quotas[key := ChargeQuota(db.quotas[key], (-e.credits, -1))],
               deltas := db.deltas + [Delta(DropEvent(e.id), e.teachingClass, -1, None)],
               events := db.events[DropEvent(e.id) := DropBody(e)],
               repairs := db.repairs[e.id := Repair(RepairPending, 0, now)]))
  }

  /** The conditional update that completes a pending repair. */
  function MarkRepairCompleted(db: MySql, id: EnrollmentId): MySql {
    if id in db.repairs && db.repairs[id].state == RepairPending
    then db.(repairs := db.repairs[id := db.repairs[id].(state := RepairCompleted)])
    else db
  }

  /** The conditional update that postpones a pending repair. */
  function MarkRepairFailed(db: MySql, id: EnrollmentId, retryAt: int): MySql {
    if id in db.repairs && db.repairs[id].state == RepairPending
    then db.(repairs :=
             db.repairs[id := db.repairs[id].(retryCount := db.repairs[id].retryCount + 1, nextRetryAt := retryAt)])
    else db
  }
}
