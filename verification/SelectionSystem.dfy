/**
  The two-store protocol as a transition system. Each Lua script and each SQL transaction is one
  step; workers carry what they know between steps and may stop after any of them.
 */
module SelectionSystem {
  import opened Types
  import opened Ledger
  import opened RedisScripts
  import opened RedisLedger
  import opened MySqlTables
  import opened CountProjection

  /** Where a stream consumer is inside processBatch. */
  datatype Consumer =
    | Idle
    | Holding(batch: seq<Entry>)
    | Clearing(batch: seq<Entry>, next: nat, failed: bool)
    | Acking(batch: seq<Entry>)
    | Isolating(batch: seq<Entry>, next: nat)
    | IsolatedClearing(batch: seq<Entry>, next: nat)
    | IsolatedAcking(batch: seq<Entry>, next: nat)

  /** Where a drop request or a repair is: target read, drop committed, Redis released. */
  datatype Dropper =
    | Resting
    | Loaded(target: Enrollment)
    | Persisted(target: Enrollment)
    | Released(target: Enrollment)

  /**
    `log` is a history variable: the enrollments of the warmup, then every result that a commit
    script accepted, in order. `warm` separates the two parts and `limits` are the warmup limits.
   */
  datatype System = System(
    limits: Limits,
    warm: nat,
    log: Log,
    redis: Redis,
    db: MySql,
    consumers: map<nat, Consumer>,
    droppers: map<nat, Dropper>)

  datatype Action =
    | OpenRound
    | Select(r: Selection, expected: string, now: int)
    | Deliver(w: nat, batch: seq<Entry>)
    | DiscardMalformed(w: nat, entry: Entry)
    | Save(w: nat, ids: Ids)
    | ClearPending(w: nat)
    | SkipClear(w: nat)
    | Ack(w: nat)
    | IsolatedSave(w: nat, ids: Ids)
    | IsolatedClear(w: nat)
    | IsolatedAck(w: nat)
    | StopConsumer(w: nat)
    | LoadDrop(d: nat, id: EnrollmentId, student: StudentId)
    | LoadRepair(d: nat, id: EnrollmentId)
    | PersistDrop(d: nat, at: int)
    | ReleaseDrop(d: nat)
    | CompleteRepair(d: nat)
    | PostponeRepair(d: nat, retryAt: int)
    | StopDropper(d: nat)
    | ProjectCounts(limit: nat, at: int)
    | PurgeDeltas(before: int, limit: nat)

  function Phase(consumers: map<nat, Consumer>, w: nat): Consumer {
    if w in consumers then consumers[w] else Idle
  }

  function Progress(droppers: map<nat, Dropper>, d: nat): Dropper {
    if d in droppers then droppers[d] else Resting
  }

  function Events(batch: seq<Entry>): seq<Selection> {
    seq(|batch|, i requires 0 <= i < |batch| => batch[i].event)
  }

  /** The entries of a delivered batch that decode to a valid result. */
  function WellFormed(batch: seq<Entry>): seq<Entry> {
    if batch == [] then []
    else
      var rest := WellFormed(batch[..|batch| - 1]);
      if ValidResult(batch[|batch| - 1].event) then rest + [batch[|batch| - 1]] else rest
  }

  function EntryIds(batch: seq<Entry>): set<nat> {
    set i | 0 <= i < |batch| :: batch[i].id
  }

  /** Identifiers are fresh: an application id is used once, and no request repeats one of the warmup's. */
  ghost predicate FreshRequest(s: System, r: Selection) {
    && r.app !in Apps(s.log)
    && forall i :: 0 <= i < s.warm && i < |s.log| ==>
         !(s.log[i].student == r.student && s.log[i].request == r.request)
  }

  /** The generator hands out new enrollment ids. */
  ghost predicate FreshIds(db: MySql, batch: seq<Selection>, ids: Ids) {
    && (forall x :: x in batch ==> ids(x.app) !in db.enrollments)
    && (forall x, y :: x in batch && y in batch && x.app != y.app ==> ids(x.app) != ids(y.app))
  }

  ghost predicate Enabled(s: System, a: Action) {
    match a
    case OpenRound => true
    case Select(r, _, _) => ValidResult(r) && FreshRequest(s, r)
    case Deliver(w, batch) =>
      Phase(s.consumers, w).Idle? && forall i :: 0 <= i < |batch| ==> batch[i] in s.redis.stream.entries
    case DiscardMalformed(w, entry) =>
      Phase(s.consumers, w).Holding? && entry in Phase(s.consumers, w).batch && !ValidResult(entry.event)
    case Save(w, ids) =>
      Phase(s.consumers, w).Holding? && FreshIds(s.db, Events(WellFormed(Phase(s.consumers, w).batch)), ids)
    case ClearPending(w) => Phase(s.consumers, w).Clearing?
    case SkipClear(w) => Phase(s.consumers, w).Clearing? || Phase(s.consumers, w).IsolatedClearing?
    case Ack(w) => Phase(s.consumers, w).Acking?
    case IsolatedSave(w, ids) =>
      Phase(s.consumers, w).Isolating? && FreshIds(s.db, Events(Phase(s.consumers, w).batch), ids)
    case IsolatedClear(w) => Phase(s.consumers, w).IsolatedClearing?
    case IsolatedAck(w) => Phase(s.consumers, w).IsolatedAcking?
    case StopConsumer(w) => true
    case LoadDrop(d, id, student) =>
      && Progress(s.droppers, d).Resting? && id in s.db.enrollments && s.db.enrollments[id].student == student
      && s.db.enrollments[id].app in s.db.applications && s.db.enrollments[id].state != Completed
    case LoadRepair(d, id) =>
      && Progress(s.droppers, d).Resting? && id in s.db.repairs && s.db.repairs[id].state == RepairPending
      && id in s.db.enrollments && s.db.enrollments[id].app in s.db.applications
    case PersistDrop(d, _) => Progress(s.droppers, d).Loaded?
    case ReleaseDrop(d) => Progress(s.droppers, d).Persisted?
    case CompleteRepair(d) => Progress(s.droppers, d).Released?
    case PostponeRepair(d, _) => Progress(s.droppers, d).Persisted? || Progress(s.droppers, d).Released?
    case StopDropper(d) => true
    case ProjectCounts(_, _) => true
    case PurgeDeltas(_, _) => true
  }

  function SetConsumer(s: System, w: nat, phase: Consumer): System {
    s.(consumers := s.consumers[w := phase])
  }

  function SetDropper(s: System, d: nat, progress: Dropper): System {
    s.(droppers := s.droppers[d := progress])
  }

  /** CommitSelection: only a selected result reaches the script; the log records what it accepted. */
  function SelectStep(s: System, r: Selection, expected: string, now: int): System {
    if r.state != Selected then s
    else
      var reply := Commit(s.redis, r, expected, now);
      s.(redis := reply.redis, log := if reply.code == 0 then s.log + [r] else s.log)
  }

  function SaveStep(s: System, w: nat, batch: seq<Entry>, ids: Ids): System {
    if batch == [] then SetConsumer(s, w, Idle)
    else
      match SaveBatch(s.db, Events(batch), ids)
      case Ok(db) => SetConsumer(s.(db := db), w, Clearing(batch, 0, false))
      case Err(e) => SetConsumer(s, w, if Retryable(e) then Idle else Isolating(batch, 0))
  }

  /** The pipeline runs one clear script per delivered result and fails at the end if any status was below -1. */
  function ClearStep(s: System, w: nat, batch: seq<Entry>, next: nat, failed: bool): System {
    if next >= |batch| then SetConsumer(s, w, if failed then Idle else Acking(batch))
    else
      var (board, status) := Clear(s.redis.board, batch[next].event);
      SetConsumer(s.(redis := s.redis.(board := board)), w, Clearing(batch, next + 1, failed || status < -1))
  }

  /** A clear script that does not run, or whose answer is lost, counts as failed; the later ones may still run. */
  function SkipClearStep(s: System, w: nat, c: Consumer): System {
    match c
    case Clearing(batch, next, _) => SetConsumer(s, w, Clearing(batch, next + 1, true))
    case IsolatedClearing(batch, next) => SetConsumer(s, w, Isolating(batch, next + 1))
    case _ => s
  }

  function AckStep(s: System, ids: set<nat>): System {
    s.(redis := s.redis.(stream := Acknowledge(s.redis.stream, ids)))
  }

  function DeadLetterStep(s: System, entry: Entry): System {
    s.(redis := s.redis.(stream := DeadLetter(s.redis.stream, entry)))
  }

  /** The item-by-item fallback after a deterministic batch error. */
  function IsolatedSaveStep(s: System, w: nat, batch: seq<Entry>, next: nat, ids: Ids): System {
    if next >= |batch| then SetConsumer(s, w, Idle)
    else
      match SaveBatch(s.db, [batch[next].event], ids)
      case Ok(db) => SetConsumer(s.(db := db), w, IsolatedClearing(batch, next))
      case Err(e) =>
        if Retryable(e) then SetConsumer(s, w, Isolating(batch, next + 1))
        else SetConsumer(DeadLetterStep(s, batch[next]), w, Isolating(batch, next + 1))
  }

  function IsolatedClearStep(s: System, w: nat, batch: seq<Entry>, next: nat): System {
    if next >= |batch| then SetConsumer(s, w, Idle)
    else
      var (board, status) := Clear(s.redis.board, batch[next].event);
      SetConsumer(s.(redis := s.redis.(board := board)), w,
                  if status < -1 then Isolating(batch, next + 1) else IsolatedAcking(batch, next))
  }

  function IsolatedAckStep(s: System, w: nat, batch: seq<Entry>, next: nat): System {
    if next >= |batch| then SetConsumer(s, w, Idle)
    else SetConsumer(AckStep(s, {batch[next].id}), w, Isolating(batch, next + 1))
  }

  function PersistDropStep(s: System, d: nat, target: Enrollment, at: int): System {
    match Drop(s.db, target, at)
    case Ok(db) => SetDropper(s.(db := db), d, Persisted(target))
    case Err(_) => SetDropper(s, d, Resting)
  }

  function ReleaseDropStep(s: System, d: nat, target: Enrollment): System {
    var (redis, status) := Release(s.redis, target);
    SetDropper(s.(redis := redis), d, if status < 0 then Resting else Released(target))
  }

  function ProjectStep(s: System, limit: nat, at: int): System {
    match Project(s.db, limit, at)
    case Ok(db) => s.(db := db)
    case Err(_) => s
  }

  ghost function Apply(s: System, a: Action): System
    requires Enabled(s, a)
  {
    match a
    case OpenRound => s.(redis := s.redis.(openVersion := s.redis.activeVersion))
    case Select(r, expected, now) => SelectStep(s, r, expected, now)
    case Deliver(w, batch) => SetConsumer(s, w, Holding(batch))
    case DiscardMalformed(w, entry) => DeadLetterStep(s, entry)
    case Save(w, ids) => SaveStep(s, w, WellFormed(Phase(s.consumers, w).batch), ids)
    case ClearPending(w) =>
      var c := Phase(s.consumers, w);
      ClearStep(s, w, c.batch, c.next, c.failed)
    case SkipClear(w) => SkipClearStep(s, w, Phase(s.consumers, w))
    case Ack(w) =>
      SetConsumer(AckStep(s, EntryIds(Phase(s.consumers, w).batch)), w, Idle)
    case IsolatedSave(w, ids) =>
      var c := Phase(s.consumers, w);
      IsolatedSaveStep(s, w, c.batch, c.next, ids)
    case IsolatedClear(w) =>
      var c := Phase(s.consumers, w);
      IsolatedClearStep(s, w, c.batch, c.next)
    case IsolatedAck(w) =>
      var c := Phase(s.consumers, w);
      IsolatedAckStep(s, w, c.batch, c.next)
    case StopConsumer(w) => SetConsumer(s, w, Idle)
    case LoadDrop(d, id, _) => SetDropper(s, d, Loaded(Identity(s.db, id)))
    case LoadRepair(d, id) => SetDropper(s, d, Persisted(Identity(s.db, id)))
    case PersistDrop(d, at) => PersistDropStep(s, d, Progress(s.droppers, d).target, at)
    case ReleaseDrop(d) => ReleaseDropStep(s, d, Progress(s.droppers, d).target)
    case CompleteRepair(d) =>
      SetDropper(s.(db := MarkRepairCompleted(s.db, Progress(s.droppers, d).target.id)), d, Resting)
    case PostponeRepair(d, retryAt) =>
      SetDropper(s.(db := MarkRepairFailed(s.db, Progress(s.droppers, d).target.id, retryAt)), d, Resting)
    case StopDropper(d) => SetDropper(s, d, Resting)
    case ProjectCounts(limit, at) => ProjectStep(s, limit, at)
    case PurgeDeltas(before, limit) => s.(db := s.db.(deltas := Purge(s.db.deltas, before, limit)))
  }

  // ---------------------------------------------------------------------------------------------
  // The invariant
  // ---------------------------------------------------------------------------------------------

  type Rows = map<EnrollmentId, EnrollmentRow>

  ghost function EnrolledApps(rows: Rows): set<AppId> {
    set e | e in rows && rows[e].state == Enrolled :: rows[e].app
  }

  ghost function ReleasedApps(rows: Rows, dropped: set<EnrollmentId>): set<AppId> {
    set e | e in dropped && e in rows :: rows[e].app
  }

  /** Committed and not released. */
  ghost function Live(log: Log, rows: Rows, dropped: set<EnrollmentId>): set<AppId> {
    Apps(log) - ReleasedApps(rows, dropped)
  }

  ghost predicate UniqueRequests(log: Log) {
    forall i, j :: 0 <= i < j < |log| ==> !(log[i].student == log[j].student && log[i].request == log[j].request)
  }

  ghost predicate EntryFits(x: Selection, round: RoundId, term: TermId, lim: Limits) {
    && ValidResult(x) && x.state == Selected && x.round == round && x.term == term
    && x.student in lim.credit && x.teachingClass in lim.seats
  }

  ghost predicate LogOk(log: Log, round: RoundId, term: TermId, lim: Limits) {
    && UniqueApps(log) && UniqueRequests(log)
    && forall i :: 0 <= i < |log| ==> EntryFits(log[i], round, term, lim)
  }

  /** Warmup writes the keys of a student, and of a class, together. */
  ghost predicate KeysOk(stock: Stock, classCells: map<ClassId, set<string>>, lim: Limits) {
    && stock.courses.Keys == stock.cells.Keys == lim.courses.Keys == lim.credit.Keys
    && classCells.Keys == lim.seats.Keys && forall c :: c in classCells ==> SENTINEL_CELL in classCells[c]
  }

  ghost predicate RowOf(row: EnrollmentRow, x: Selection) {
    && row.app == x.app && row.term == x.term && row.student == x.student && row.course == x.course
    && row.teachingClass == x.teachingClass && row.credits == x.credits
    && (row.state == Enrolled || row.state == Dropped)
    && row.activeKey == if row.state == Enrolled then Some(ActiveKey(x.term, x.student, x.course)) else None
  }

  ghost predicate HasRow(rows: Rows, app: AppId) {
    exists e :: e in rows && rows[e].app == app
  }

  /** Every enrollment row belongs to one application, and every application to the log. */
  ghost predicate RowsOk(apps: map<AppId, Selection>, rows: Rows, log: Log) {
    && (forall a :: a in apps ==> apps[a].app == a && apps[a] in log && HasRow(rows, a))
    && (forall e :: e in rows ==> rows[e].app in apps && RowOf(rows[e], apps[rows[e].app]))
    && (forall e, f :: e in rows && f in rows && rows[e].app == rows[f].app ==> e == f)
  }

  /** Applications, events and outbox messages exist for the same results of the log. */
  ghost predicate EventsOk(
    apps: map<AppId, Selection>, events: map<EventId, EventBody>, outbox: map<EventId, Selection>, log: Log)
  {
    && (forall i :: 0 <= i < |log| ==> (log[i].app in apps <==> EventOf(log[i]) in events))
    && (forall k: EventId :: k.SelectionEvent? ==> (k in outbox <==> k in events))
    && (forall k :: k in events && k.SelectionEvent? ==>
          events[k].SelectionBody? && events[k].result in log && EventOf(events[k].result) == k)
  }

  /** A dropped row has its drop event and its repair task, and only a dropped row has them. */
  ghost predicate DropsOk(rows: Rows, events: map<EventId, EventBody>, repairs: set<EnrollmentId>) {
    && (forall e :: DropEvent(e) in events <==> e in rows && rows[e].state == Dropped)
    && (forall e :: e in repairs <==> e in rows && rows[e].state == Dropped)
  }

  ghost predicate DeltasOk(deltas: seq<Delta>, events: map<EventId, EventBody>, lim: Limits) {
    forall i :: 0 <= i < |deltas| ==> deltas[i].event in events && deltas[i].teachingClass in lim.seats
  }

  /** The quota mirror counts the enrolled rows. */
  ghost predicate MirrorOk(
    quotas: map<QuotaKey, Quota>, enrolled: set<AppId>, lim: Limits, log: Log, round: RoundId)
  {
    forall s :: s in lim.credit ==>
      var key := QuotaKey(round, s);
      && s in lim.courses && key in quotas
      && quotas[key].creditLimit == lim.credit[s] && quotas[key].courseLimit == lim.courses[s]
      && quotas[key].selectedCredits == Weight(log, enrolled, CreditOf(s))
      && quotas[key].selectedCourses == Weight(log, enrolled, CourseOf(s))
  }

  /** selected_count plus the pending deltas counts the enrolled rows, and every prefix on the way fits. */
  ghost predicate CountsOk(
    classes: map<ClassId, ClassRow>, deltas: seq<Delta>, enrolled: set<AppId>, lim: Limits, log: Log)
  {
    && classes.Keys == lim.seats.Keys
    && PrefixesFit(classes, Unprocessed(deltas))
    && forall c :: c in classes ==>
         && classes[c].capacity == lim.seats[c]
         && classes[c].selectedCount + Net(Unprocessed(deltas), c) == Weight(log, enrolled, SeatOf(c))
  }

  /** Redis releases only what MySQL dropped, and a repair completes only after its release. */
  ghost predicate ReleasesOk(dropped: set<EnrollmentId>, rows: Rows, repairs: map<EnrollmentId, Repair>) {
    && (forall e :: e in dropped ==> e in rows && rows[e].state == Dropped)
    && (forall e :: e in repairs && repairs[e].state == RepairCompleted ==> e in dropped)
  }

  /** Each request since the warmup has its publication; the unpersisted one of a student is the pending one. */
  ghost predicate PublicationsOk(board: Board, events: map<EventId, EventBody>, log: Log, warm: nat) {
    && (forall i :: warm <= i < |log| ==>
          && (log[i].student, log[i].request) in board.results
          && board.results[(log[i].student, log[i].request)].streamId == i)
    && (forall k :: k in board.results ==> PublicationOk(board.results[k], k, board, events, log, warm))
    && (forall s :: s in board.pending ==> PendingOk(board.pending[s], s, board))
  }

  ghost predicate PublicationOk(
    p: Publication, k: (StudentId, RequestId), board: Board, events: map<EventId, EventBody>, log: Log, warm: nat)
  {
    && warm <= p.streamId < |log| && log[p.streamId] == p.result && k == (p.result.student, p.result.request)
    && p.result.app in board.applications && board.applications[p.result.app] == p
    && (p.mysqlPersisted ==> EventOf(p.result) in events)
    && (!p.mysqlPersisted ==> p.result.student in board.pending && board.pending[p.result.student] == p.result)
  }

  ghost predicate PendingOk(x: Selection, s: StudentId, board: Board) {
    && x.student == s && (s, x.request) in board.results
    && board.results[(s, x.request)].result == x && !board.results[(s, x.request)].mysqlPersisted
  }

  ghost predicate EntryOk(e: Entry, log: Log, warm: nat) {
    warm <= e.id < |log| && log[e.id] == e.event
  }

  ghost predicate InStream(entries: seq<Entry>, i: nat) {
    exists k :: 0 <= k < |entries| && entries[k].id == i
  }

  /** Nothing committed is lost: it is in the stream until MySQL has it. */
  ghost predicate StreamOk(stream: Stream, events: map<EventId, EventBody>, log: Log, warm: nat) {
    && warm <= |log| && stream.nextId == |log|
    && BatchOk(stream.entries, log, warm)
    && (forall j, k :: 0 <= j < k < |stream.entries| ==> stream.entries[j].id < stream.entries[k].id)
    && (forall i :: 0 <= i < |log| ==> InStream(stream.entries, i) || EventOf(log[i]) in events)
    && stream.dead == []
  }

  ghost predicate BatchOk(batch: seq<Entry>, log: Log, warm: nat) {
    forall i :: 0 <= i < |batch| ==> EntryOk(batch[i], log, warm)
  }

  ghost predicate BatchSaved(batch: seq<Entry>, events: map<EventId, EventBody>) {
    forall i :: 0 <= i < |batch| ==> EventOf(batch[i].event) in events
  }

  /** A consumer clears and acknowledges only what is saved, and the fallback is never entered. */
  ghost predicate ConsumerOk(c: Consumer, events: map<EventId, EventBody>, log: Log, warm: nat) {
    match c
    case Idle => true
    case Holding(batch) => BatchOk(batch, log, warm)
    case Clearing(batch, _, _) => BatchOk(batch, log, warm) && BatchSaved(batch, events)
    case Acking(batch) => BatchOk(batch, log, warm) && BatchSaved(batch, events)
    case Isolating(_, _) => false
    case IsolatedClearing(_, _) => false
    case IsolatedAcking(_, _) => false
  }

  ghost predicate TargetOk(t: Enrollment, apps: map<AppId, Selection>, rows: Rows) {
    && t.id in rows && rows[t.id].app in apps
    && t.app == rows[t.id].app && t.round == apps[t.app].round && t.term == rows[t.id].term
    && t.student == rows[t.id].student
    && t.course == rows[t.id].course && t.teachingClass == rows[t.id].teachingClass && t.credits == rows[t.id].credits
  }

  ghost predicate DropperOk(d: Dropper, dropped: set<EnrollmentId>, apps: map<AppId, Selection>, rows: Rows) {
    match d
    case Resting => true
    case Loaded(t) => TargetOk(t, apps, rows)
    case Persisted(t) => TargetOk(t, apps, rows) && rows[t.id].state == Dropped
    case Released(t) => TargetOk(t, apps, rows) && t.id in dropped
  }

  ghost predicate ConsumersOk(consumers: map<nat, Consumer>, events: map<EventId, EventBody>, log: Log, warm: nat) {
    forall w :: w in consumers ==> ConsumerOk(consumers[w], events, log, warm)
  }

  ghost predicate DroppersOk(
    droppers: map<nat, Dropper>, dropped: set<EnrollmentId>, apps: map<AppId, Selection>, rows: Rows)
  {
    forall d :: d in droppers ==> DropperOk(droppers[d], dropped, apps, rows)
  }

  /** The tables, given the log and the limits. */
  ghost predicate DbOk(db: MySql, lim: Limits, log: Log, round: RoundId) {
    && RowsOk(db.applications, db.enrollments, log)
    && EventsOk(db.applications, db.events, db.outbox, log)
    && DropsOk(db.enrollments, db.events, db.repairs.Keys)
    && DeltasOk(db.deltas, db.events, lim)
    && MirrorOk(db.quotas, EnrolledApps(db.enrollments), lim, log, round)
    && CountsOk(db.classes, db.deltas, EnrolledApps(db.enrollments), lim, log)
  }

  /** The resources, given the live selections. */
  ghost predicate StockOk(rd: Redis, lim: Limits, log: Log, live: set<AppId>) {
    && LogOk(log, rd.snapshot.round, rd.snapshot.term, lim)
    && KeysOk(rd.stock, rd.snapshot.classCells, lim)
    && Balanced(rd.stock, rd.snapshot.classCells, lim, log, live)
  }

  ghost predicate Inv(s: System) {
    && StockOk(s.redis, s.limits, s.log, Live(s.log, s.db.enrollments, s.redis.dropped))
    && DbOk(s.db, s.limits, s.log, s.redis.snapshot.round)
    && ReleasesOk(s.redis.dropped, s.db.enrollments, s.db.repairs)
    && PublicationsOk(s.redis.board, s.db.events, s.log, s.warm)
    && StreamOk(s.redis.stream, s.db.events, s.log, s.warm)
    && ConsumersOk(s.consumers, s.db.events, s.log, s.warm)
    && DroppersOk(s.droppers, s.redis.dropped, s.db.applications, s.db.enrollments)
  }

  /** No drop is waiting for its release and no repair is open. */
  ghost predicate DropsClosed(rows: Rows, dropped: set<EnrollmentId>, repairs: map<EnrollmentId, Repair>) {
    && (forall e :: e in rows && rows[e].state == Dropped ==> e in dropped)
    && (forall e :: e in repairs ==> repairs[e].state == RepairCompleted)
  }

  /** The class rows hold the capacities and count the enrolled rows. */
  ghost predicate ClassesCount(classes: map<ClassId, ClassRow>, enrolled: set<AppId>, lim: Limits, log: Log) {
    && classes.Keys == lim.seats.Keys
    && forall c :: c in classes ==>
         && classes[c].capacity == lim.seats[c]
         && classes[c].selectedCount == Weight(log, enrolled, SeatOf(c))
  }

  /**
    A completed warmup: Redis carries the limits minus the MySQL values, every result of the log is
    saved, and no publication, stream entry, delta, drop or repair is open. Earlier drops may exist
    if they were released.
   */
  ghost predicate Init(s: System) {
    && s.warm == |s.log| && s.redis.stream == Stream([], |s.log|, [])
    && s.consumers == map[] && s.droppers == map[]
    && s.redis.board == Board(map[], map[], map[])
    && StockOk(s.redis, s.limits, s.log, Live(s.log, s.db.enrollments, s.redis.dropped))
    && RowsOk(s.db.applications, s.db.enrollments, s.log)
    && EventsOk(s.db.applications, s.db.events, s.db.outbox, s.log)
    && (forall i :: 0 <= i < |s.log| ==> EventOf(s.log[i]) in s.db.events)
    && DropsOk(s.db.enrollments, s.db.events, s.db.repairs.Keys)
    && ReleasesOk(s.redis.dropped, s.db.enrollments, s.db.repairs)
    && DropsClosed(s.db.enrollments, s.redis.dropped, s.db.repairs)
    && DeltasOk(s.db.deltas, s.db.events, s.limits) && Unprocessed(s.db.deltas) == []
    && MirrorOk(s.db.quotas, EnrolledApps(s.db.enrollments), s.limits, s.log, s.redis.snapshot.round)
    && ClassesCount(s.db.classes, EnrolledApps(s.db.enrollments), s.limits, s.log)
  }

  ghost predicate Next(s: System, s': System) {
    exists a: Action :: Enabled(s, a) && s' == Apply(s, a)
  }

  ghost predicate IsRun(run: seq<System>) {
    && |run| > 0 && Init(run[0])
    && forall i :: 0 <= i < |run| - 1 ==> Next(run[i], run[i + 1])
  }

  ghost predicate Reachable(s: System) {
    exists run :: IsRun(run) && run[|run| - 1] == s
  }
}
