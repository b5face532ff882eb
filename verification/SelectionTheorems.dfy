/** What holds in every reachable state and every step of the two-store protocol. */
module SelectionTheorems {
  import opened Types
  import opened Ledger
  import opened RedisScripts
  import opened RedisLedger
  import opened MySqlTables
  import opened CountProjection
  import opened SelectionSystem
  import opened SelectionProofs

  ghost function LiveNow(s: System): set<AppId> {
    Live(s.log, s.db.enrollments, s.redis.dropped)
  }

  /** An application that a commit accepted (or the warmup brought) and no release gave back. */
  ghost predicate IsLive(s: System, i: nat) {
    && i < |s.log|
    && !exists e :: e in s.redis.dropped && e in s.db.enrollments && s.db.enrollments[e].app == s.log[i].app
  }

  lemma LiveMeaning(s: System)
    ensures forall i :: 0 <= i < |s.log| ==> (s.log[i].app in LiveNow(s) <==> IsLive(s, i))
  {
    LogApps(s.log);
  }

  // --- Conservation ----------------------------------------------------------------------------

  /** Every Redis counter is non-negative and is its limit minus what the live selections take. */
  lemma Conservation(s: System)
    requires Reachable(s)
    ensures forall u :: u in s.redis.stock.credit ==>
              && u in s.limits.credit
              && 0 <= s.redis.stock.credit[u] == s.limits.credit[u] - Weight(s.log, LiveNow(s), CreditOf(u))
    ensures forall u :: u in s.redis.stock.courseQuota ==>
              && u in s.limits.courses
              && 0 <= s.redis.stock.courseQuota[u] == s.limits.courses[u] - Weight(s.log, LiveNow(s), CourseOf(u))
    ensures forall c :: c in s.redis.stock.seat ==>
              && c in s.limits.seats
              && 0 <= s.redis.stock.seat[c] == s.limits.seats[c] - Weight(s.log, LiveNow(s), SeatOf(c))
    ensures forall u, cell :: u in s.redis.stock.cells && cell != SENTINEL_CELL ==>
              Count(s.redis.stock.cells[u], cell)
                == Weight(s.log, LiveNow(s), CellOf(s.redis.snapshot.classCells, u, cell))
  {
    hide Reachable, Init, Next;
    ReachableKeeps(s);
    hide DbOk, ReleasesOk, PublicationsOk, StreamOk, ConsumersOk, DroppersOk, Live, LogOk, KeysOk, CourseLedger;
  }

  /** The selected-course hash of a student holds exactly the live (course, application) pairs. */
  lemma SelectedCourses(s: System, u: StudentId, c: CourseId, a: AppId)
    requires Reachable(s) && c != SENTINEL_COURSE
    ensures u in s.redis.stock.courses && c in s.redis.stock.courses[u] && s.redis.stock.courses[u][c] == a
            <==> exists i :: 0 <= i < |s.log| && IsLive(s, i)
                          && s.log[i].student == u && s.log[i].course == c && s.log[i].app == a
  {
    hide Inv, Reachable;
    ReachableKeeps(s);
    LiveMeaning(s);
    hide IsLive, LiveNow;
    assert CourseLedger(s.redis.stock.courses, s.log, LiveNow(s)) by { StockParts(s); }
    var courses := s.redis.stock.courses;
    if u in courses && c in courses[u] && courses[u][c] == a {
      assert Taken(s.log, LiveNow(s), u, c);
      var i :| 0 <= i < |s.log| && s.log[i].app in LiveNow(s) && s.log[i].student == u && s.log[i].course == c;
      assert IsLive(s, i);
    }
  }

  lemma StockParts(s: System)
    requires Inv(s)
    ensures LogOk(s.log, s.redis.snapshot.round, s.redis.snapshot.term, s.limits)
    ensures KeysOk(s.redis.stock, s.redis.snapshot.classCells, s.limits)
    ensures QuotaLedger(s.redis.stock, s.limits, s.log, LiveNow(s))
    ensures SeatLedger(s.redis.stock, s.limits, s.log, LiveNow(s))
    ensures CourseLedger(s.redis.stock.courses, s.log, LiveNow(s))
    ensures CellLedger(s.redis.stock.cells, s.redis.snapshot.classCells, s.log, LiveNow(s))
  {
    hide DbOk, ReleasesOk, PublicationsOk, StreamOk, ConsumersOk, DroppersOk, Live, LogOk, KeysOk, QuotaLedger,
         SeatLedger, CourseLedger, CellLedger;
  }

  lemma DbParts(s: System)
    requires Inv(s)
    ensures RowsOk(s.db.applications, s.db.enrollments, s.log)
    ensures EventsOk(s.db.applications, s.db.events, s.db.outbox, s.log)
    ensures DropsOk(s.db.enrollments, s.db.events, s.db.repairs.Keys)
    ensures DeltasOk(s.db.deltas, s.db.events, s.limits)
    ensures MirrorOk(s.db.quotas, EnrolledApps(s.db.enrollments), s.limits, s.log, s.redis.snapshot.round)
    ensures CountsOk(s.db.classes, s.db.deltas, EnrolledApps(s.db.enrollments), s.limits, s.log)
    ensures ReleasesOk(s.redis.dropped, s.db.enrollments, s.db.repairs)
  {
    hide StockOk, PublicationsOk, StreamOk, ConsumersOk, DroppersOk, Live, RowsOk, EventsOk, DropsOk, DeltasOk,
         MirrorOk, CountsOk, ReleasesOk;
  }

  lemma FlowParts(s: System)
    requires Inv(s)
    ensures PublicationsOk(s.redis.board, s.db.events, s.log, s.warm)
    ensures StreamOk(s.redis.stream, s.db.events, s.log, s.warm)
    ensures ConsumersOk(s.consumers, s.db.events, s.log, s.warm)
    ensures DroppersOk(s.droppers, s.redis.dropped, s.db.applications, s.db.enrollments)
  {
    hide StockOk, DbOk, PublicationsOk, StreamOk, ConsumersOk, DroppersOk, Live, ReleasesOk;
  }

  // --- MySQL follows Redis ---------------------------------------------------------------------

  /** An enrolled row is always live in Redis, with the same data. */
  lemma EnrolledRowsAreLive(s: System, e: EnrollmentId) returns (i: nat)
    requires Reachable(s) && e in s.db.enrollments && s.db.enrollments[e].state == Enrolled
    ensures IsLive(s, i) && RowOf(s.db.enrollments[e], s.log[i])
    ensures e !in s.redis.dropped
  {
    hide Inv, Reachable;
    ReachableKeeps(s);
    LiveMeaning(s);
    DbParts(s);
    hide IsLive, Live, MirrorOk, CountsOk, EventsOk, DropsOk, DeltasOk, HasRow;
    EnrolledIsLive(s.db.applications, s.db.enrollments, s.log, s.redis.dropped, s.db.repairs);
    var app := s.db.enrollments[e].app;
    assert app in EnrolledApps(s.db.enrollments);
    assert s.db.applications[app] in s.log;
    i :| 0 <= i < |s.log| && s.log[i] == s.db.applications[app];
  }

  /** What MySQL counts as used never exceeds what Redis counts as used, nor the limit. */
  lemma MirrorBelowRedis(s: System, u: StudentId)
    requires Reachable(s) && u in s.limits.credit
    ensures var key := QuotaKey(s.redis.snapshot.round, u);
            && key in s.db.quotas && u in s.redis.stock.credit && u in s.redis.stock.courseQuota
            && u in s.limits.courses
            && 0 <= s.db.quotas[key].selectedCredits
                 <= s.limits.credit[u] - s.redis.stock.credit[u] <= s.limits.credit[u]
            && 0 <= s.db.quotas[key].selectedCourses
                 <= s.limits.courses[u] - s.redis.stock.courseQuota[u] <= s.limits.courses[u]
  {
    hide Inv, Reachable;
    ReachableKeeps(s);
    StockParts(s);
    DbParts(s);
    EnrolledIsLive(s.db.applications, s.db.enrollments, s.log, s.redis.dropped, s.db.repairs);
    hide Live, EnrolledApps, RowsOk, EventsOk, DropsOk, DeltasOk, CountsOk, ReleasesOk, LogOk, SeatLedger, CourseLedger,
         CellLedger;
    WeightMonotone(s.log, EnrolledApps(s.db.enrollments), LiveNow(s), CreditOf(u));
    WeightMonotone(s.log, EnrolledApps(s.db.enrollments), LiveNow(s), CourseOf(u));
  }

  /** Neither the quota guard nor a unique key ever rejects what the commit script wrote to the stream. */
  lemma NeverRejected(s: System, batch: seq<Entry>, ids: Ids)
    requires Reachable(s) && (forall i :: 0 <= i < |batch| ==> batch[i] in s.redis.stream.entries)
    requires FreshIds(s.db, Events(batch), ids)
    ensures SaveBatch(s.db, Events(batch), ids).Ok?
    ensures forall i :: 0 <= i < |batch| ==> EventOf(batch[i].event) in SaveBatch(s.db, Events(batch), ids).value.events
  {
    hide Reachable;
    ReachableKeeps(s);
    assert BatchOk(batch, s.log, s.warm) by {
      hide Inv, EntryOk;
      FlowParts(s);
      hide PublicationsOk, ConsumersOk, DroppersOk;
      forall i | 0 <= i < |batch| ensures EntryOk(batch[i], s.log, s.warm) {
        assert batch[i] in s.redis.stream.entries;
      }
    }
    hide Inv;
    SaveAccepted(s, batch, ids);
  }

  /** Everything committed is saved and everything dropped is released. */
  ghost predicate CaughtUp(s: System) {
    && s.redis.stream.entries == []
    && forall e :: e in s.db.enrollments && s.db.enrollments[e].state == Dropped ==> e in s.redis.dropped
  }

  lemma CaughtUpLive(
    stream: Stream, apps: map<AppId, Selection>, rows: Rows, events: map<EventId, EventBody>,
    outbox: map<EventId, Selection>, log: Log, warm: nat, dropped: set<EnrollmentId>)
    requires StreamOk(stream, events, log, warm) && EventsOk(apps, events, outbox, log) && RowsOk(apps, rows, log)
    requires stream.entries == [] && forall e :: e in rows && rows[e].state == Dropped ==> e in dropped
    ensures Live(log, rows, dropped) <= EnrolledApps(rows)
  {
    forall a | a in Live(log, rows, dropped) ensures a in EnrolledApps(rows) {
      var i :| 0 <= i < |log| && log[i].app == a;
      assert !InStream(stream.entries, i);
      assert HasRow(rows, a);
      var e :| e in rows && rows[e].app == a;
      assert RowOf(rows[e], apps[rows[e].app]);
    }
  }

  /** Once caught up, the two stores agree exactly on what every student has used. */
  lemma CaughtUpAgree(s: System, u: StudentId)
    requires Reachable(s) && CaughtUp(s) && u in s.limits.credit
    ensures var key := QuotaKey(s.redis.snapshot.round, u);
            && key in s.db.quotas && u in s.redis.stock.credit && u in s.redis.stock.courseQuota
            && u in s.limits.courses
            && s.db.quotas[key].selectedCredits == s.limits.credit[u] - s.redis.stock.credit[u]
            && s.db.quotas[key].selectedCourses == s.limits.courses[u] - s.redis.stock.courseQuota[u]
    ensures LiveNow(s) == EnrolledApps(s.db.enrollments)
  {
    hide Inv, Reachable;
    ReachableKeeps(s);
    StockParts(s);
    DbParts(s);
    CaughtUpSame(s);
    hide Live, EnrolledApps, RowsOk, EventsOk, DropsOk, DeltasOk, CountsOk, ReleasesOk, LogOk, SeatLedger, CourseLedger,
         CellLedger, CaughtUp, LiveNow;
  }

  /** Once caught up, the free seats of a class are its capacity minus its enrolled rows. */
  lemma CaughtUpSeats(s: System, c: ClassId)
    requires Reachable(s) && CaughtUp(s) && c in s.db.classes
    ensures c in s.redis.stock.seat
            && s.redis.stock.seat[c] == s.db.classes[c].capacity - |EnrolledIn(s.db.enrollments, c)|
  {
    hide Inv, Reachable;
    ReachableKeeps(s);
    StockParts(s);
    DbParts(s);
    hide Live, EnrolledApps, EventsOk, DropsOk, DeltasOk, ReleasesOk, EntryFits, UniqueRequests, QuotaLedger,
         CourseLedger, CellLedger, EnrolledIn, AppsIn, LiveNow, CaughtUp, HasRow, RowOf, PrefixesFit;
    SeatsAreApps(s.log, EnrolledApps(s.db.enrollments), c);
    EnrolledRowsAreApps(s.db.applications, s.db.enrollments, s.log, c);
    CaughtUpSame(s);
  }

  lemma CaughtUpSame(s: System)
    requires Inv(s) && CaughtUp(s)
    ensures LiveNow(s) == EnrolledApps(s.db.enrollments)
  {
    hide Inv;
    DbParts(s);
    FlowParts(s);
    hide Live, EnrolledApps, RowsOk, EventsOk, DropsOk, DeltasOk, CountsOk, MirrorOk, ReleasesOk, StreamOk, ConsumersOk,
         DroppersOk, PublicationsOk;
    EnrolledIsLive(s.db.applications, s.db.enrollments, s.log, s.redis.dropped, s.db.repairs);
    CaughtUpLive(s.redis.stream, s.db.applications, s.db.enrollments, s.db.events, s.db.outbox, s.log, s.warm,
                 s.redis.dropped);
  }

  // --- Nothing is lost -------------------------------------------------------------------------

  lemma StoredBody(
    apps: map<AppId, Selection>, events: map<EventId, EventBody>, outbox: map<EventId, Selection>, log: Log, i: nat)
    requires EventsOk(apps, events, outbox, log) && UniqueApps(log) && i < |log| && EventOf(log[i]) in events
    ensures events[EventOf(log[i])] == SelectionBody(log[i])
  {
    var x := events[EventOf(log[i])].result;
    assert x in log;
    var j :| 0 <= j < |log| && log[j] == x;
    assert j == i;
  }

  lemma StreamedEntry(stream: Stream, events: map<EventId, EventBody>, log: Log, warm: nat, i: nat)
    requires StreamOk(stream, events, log, warm) && i < |log| && EventOf(log[i]) !in events
    ensures Entry(i, log[i]) in stream.entries
  {
    assert InStream(stream.entries, i);
    var k :| 0 <= k < |stream.entries| && stream.entries[k].id == i;
    assert EntryOk(stream.entries[k], log, warm);
    assert stream.entries[k] == Entry(i, log[i]);
  }

  /** A committed result is in the stream or in selection_event, and nothing is ever dead-lettered. */
  lemma NothingLost(s: System, i: nat)
    requires Reachable(s) && i < |s.log|
    ensures Entry(i, s.log[i]) in s.redis.stream.entries
            || (EventOf(s.log[i]) in s.db.events && s.db.events[EventOf(s.log[i])] == SelectionBody(s.log[i]))
    ensures s.redis.stream.dead == []
  {
    hide Inv, Reachable;
    ReachableKeeps(s);
    FlowParts(s);
    DbParts(s);
    StockParts(s);
    hide PublicationsOk, ConsumersOk, DroppersOk, MirrorOk, CountsOk, DeltasOk, RowsOk, DropsOk, LiveNow, EventsOk,
         UniqueApps, QuotaLedger, SeatLedger, CourseLedger, CellLedger, EntryFits, UniqueRequests, ReleasesOk, KeysOk,
         Live, InStream;
    if EventOf(s.log[i]) in s.db.events {
      StoredBody(s.db.applications, s.db.events, s.db.outbox, s.log, i);
    } else {
      StreamedEntry(s.redis.stream, s.db.events, s.log, s.warm, i);
    }
  }

  // --- Publications ----------------------------------------------------------------------------

  /** A student's unpersisted publications: the one that the pending key names, or none. */
  lemma PendingNamesTheUnpersisted(s: System, u: StudentId, q: RequestId)
    requires Reachable(s)
    ensures (u, q) in s.redis.board.results && !s.redis.board.results[(u, q)].mysqlPersisted
            <==> u in s.redis.board.pending && s.redis.board.pending[u].request == q
    ensures u in s.redis.board.pending ==>
              (u, s.redis.board.pending[u].request) in s.redis.board.results
              && s.redis.board.results[(u, s.redis.board.pending[u].request)].result == s.redis.board.pending[u]
  {
    hide Inv, Reachable;
    ReachableKeeps(s);
    FlowParts(s);
    hide StreamOk, ConsumersOk, DroppersOk, EventOf;
    var board := s.redis.board;
    if (u, q) in board.results {
      assert PublicationOk(board.results[(u, q)], (u, q), board, s.db.events, s.log, s.warm);
    }
    if u in board.pending {
      assert PendingOk(board.pending[u], u, board);
    }
  }

  lemma StoredApplication(
    apps: map<AppId, Selection>, rows: Rows, events: map<EventId, EventBody>, outbox: map<EventId, Selection>,
    log: Log, i: nat)
    requires EventsOk(apps, events, outbox, log) && RowsOk(apps, rows, log) && UniqueApps(log)
    requires i < |log| && EventOf(log[i]) in events
    ensures log[i].app in apps && apps[log[i].app] == log[i]
  {
    assert apps[log[i].app] in log;
    var j :| 0 <= j < |log| && log[j] == apps[log[i].app];
    assert j == i;
  }

  /** A publication marked persisted is in MySQL, with the published result. */
  lemma PersistedIsSaved(s: System, u: StudentId, q: RequestId)
    requires Reachable(s) && (u, q) in s.redis.board.results && s.redis.board.results[(u, q)].mysqlPersisted
    ensures var r := s.redis.board.results[(u, q)].result;
            && r.app in s.db.applications && s.db.applications[r.app] == r
            && EventOf(r) in s.db.events && (r.student, r.request) == (u, q)
  {
    hide Inv, Reachable;
    ReachableKeeps(s);
    FlowParts(s);
    DbParts(s);
    StockParts(s);
    hide StreamOk, ConsumersOk, DroppersOk, MirrorOk, CountsOk, DeltasOk, DropsOk, LiveNow, EventsOk, RowsOk,
         UniqueApps, QuotaLedger, SeatLedger, CourseLedger, CellLedger, EntryFits, UniqueRequests, ReleasesOk, KeysOk,
         Live, PendingOk;
    var p := s.redis.board.results[(u, q)];
    assert PublicationOk(p, (u, q), s.redis.board, s.db.events, s.log, s.warm);
    StoredApplication(s.db.applications, s.db.enrollments, s.db.events, s.db.outbox, s.log, p.streamId);
  }

  /** One stream entry per request, over the whole run: requests in the log never repeat. */
  lemma OneEntryPerRequest(s: System, i: nat, j: nat)
    requires Reachable(s) && i < |s.log| && j < |s.log|
    requires s.log[i].student == s.log[j].student && s.log[i].request == s.log[j].request
    ensures i == j
  {
    hide Inv, Reachable;
    ReachableKeeps(s);
    StockParts(s);
  }

  /** A repeated request is answered with the first outcome and changes nothing. */
  lemma RepeatChangesNothing(s: System, i: nat, r: Selection, expected: string, now: int)
    requires Reachable(s) && s.warm <= i < |s.log|
    requires r.student == s.log[i].student && r.request == s.log[i].request
    ensures SelectStep(s, r, expected, now) == s
    ensures var reply := Commit(s.redis, r, expected, now);
            reply.code == 1 && reply.stored.Some? && reply.stored.value.result == s.log[i] && reply.redis == s.redis
  {
    hide Inv, Reachable;
    ReachableKeeps(s);
    FlowParts(s);
    hide StreamOk, ConsumersOk, DroppersOk;
    var k := (r.student, r.request);
    assert k in s.redis.board.results;
    assert PublicationOk(s.redis.board.results[k], k, s.redis.board, s.db.events, s.log, s.warm);
  }

  // --- Drops and releases ----------------------------------------------------------------------

  /** A repair is completed only after its release; a dropped row that is not released has a pending one. */
  lemma RepairsCoverReleases(s: System, e: EnrollmentId)
    requires Reachable(s)
    ensures e in s.db.repairs <==> e in s.db.enrollments && s.db.enrollments[e].state == Dropped
    ensures e in s.db.repairs && s.db.repairs[e].state == RepairCompleted ==> e in s.redis.dropped
    ensures e in s.db.enrollments && s.db.enrollments[e].state == Dropped && e !in s.redis.dropped ==>
              e in s.db.repairs && s.db.repairs[e].state == RepairPending
    ensures e in s.redis.dropped ==> e in s.db.enrollments && s.db.enrollments[e].state == Dropped
  {
    hide Inv, Reachable;
    ReachableKeeps(s);
    DropParts(s);
  }

  lemma DropParts(s: System)
    requires Inv(s)
    ensures DropsOk(s.db.enrollments, s.db.events, s.db.repairs.Keys)
    ensures ReleasesOk(s.redis.dropped, s.db.enrollments, s.db.repairs)
  {
    hide DropsOk, ReleasesOk;
    DbParts(s);
  }

  /** No drop of a loaded enrollment and no release of a dropped one is ever refused. */
  lemma DropsNeverFail(s: System, d: nat, at: int)
    requires Reachable(s)
    ensures Progress(s.droppers, d).Loaded? ==> Drop(s.db, Progress(s.droppers, d).target, at).Ok?
    ensures Progress(s.droppers, d).Persisted? ==> Release(s.redis, Progress(s.droppers, d).target).1 >= 0
  {
    hide Reachable;
    ReachableKeeps(s);
    hide Inv, Drop, Release, TargetOk;
    FlowParts(s);
    ProgressOk(s, d);
    match Progress(s.droppers, d) {
      case Loaded(t) => PersistDropKeeps(s, d, t, at);
      case Persisted(t) => ReleaseKeeps(s, d, t);
      case _ =>
    }
  }

  // --- Counting --------------------------------------------------------------------------------

  ghost function EnrolledIn(rows: Rows, c: ClassId): set<EnrollmentId> {
    set e | e in rows && rows[e].state == Enrolled && rows[e].teachingClass == c
  }

  ghost function AppsIn(log: Log, ids: set<AppId>, c: ClassId): set<AppId> {
    set i | 0 <= i < |log| && log[i].app in ids && log[i].teachingClass == c :: log[i].app
  }

  lemma AppsInAppend(log: Log, x: Selection, ids: set<AppId>, c: ClassId)
    requires UniqueApps(log + [x])
    ensures x.app !in AppsIn(log, ids, c)
    ensures AppsIn(log + [x], ids, c)
            == AppsIn(log, ids, c) + if x.app in ids && x.teachingClass == c then {x.app} else {}
  {
    var all := log + [x];
    assert all[|log|] == x;
    assert forall i :: 0 <= i < |log| ==> all[i] == log[i];
  }

  lemma {:induction false} SeatsAreApps(log: Log, ids: set<AppId>, c: ClassId)
    requires UniqueApps(log)
    ensures Weight(log, ids, SeatOf(c)) == |AppsIn(log, ids, c)|
  {
    if log == [] {
      assert AppsIn(log, ids, c) == {};
    } else {
      var n := |log| - 1;
      SeatsAreApps(log[..n], ids, c);
      assert log == log[..n] + [log[n]];
      AppsInAppend(log[..n], log[n], ids, c);
    }
  }

  lemma {:induction false} DistinctApps(rows: Rows, es: set<EnrollmentId>)
    requires forall e :: e in es ==> e in rows
    requires forall e, f :: e in es && f in es && rows[e].app == rows[f].app ==> e == f
    ensures |set e | e in es :: rows[e].app| == |es|
  {
    var apps := set e | e in es :: rows[e].app;
    if es == {} {
      assert apps == {};
    } else {
      var x :| x in es;
      var rest := es - {x};
      DistinctApps(rows, rest);
      var others := set e | e in rest :: rows[e].app;
      assert rows[x].app !in others;
      assert apps == others + {rows[x].app};
    }
  }

  /** The log entry of an enrolled row. */
  lemma RowEntry(apps: map<AppId, Selection>, rows: Rows, log: Log, e: EnrollmentId) returns (i: nat)
    requires RowsOk(apps, rows, log) && e in rows
    ensures i < |log| && log[i].app == rows[e].app && log[i].teachingClass == rows[e].teachingClass
  {
    assert apps[rows[e].app] in log;
    i :| 0 <= i < |log| && log[i] == apps[rows[e].app];
  }

  lemma EnrolledRowsAreApps(apps: map<AppId, Selection>, rows: Rows, log: Log, c: ClassId)
    requires RowsOk(apps, rows, log) && UniqueApps(log)
    ensures |EnrolledIn(rows, c)| == |AppsIn(log, EnrolledApps(rows), c)|
  {
    var es := EnrolledIn(rows, c);
    DistinctApps(rows, es);
    var enrolled := EnrolledApps(rows);
    var mine := set e | e in es :: rows[e].app;
    hide RowsOk;
    forall a | a in mine ensures a in AppsIn(log, enrolled, c) {
      var e :| e in es && rows[e].app == a;
      var i := RowEntry(apps, rows, log, e);
      assert log[i].app in enrolled;
    }
    forall a | a in AppsIn(log, enrolled, c) ensures a in mine {
      var i :| 0 <= i < |log| && log[i].app in enrolled && log[i].teachingClass == c && log[i].app == a;
      var e :| e in rows && rows[e].state == Enrolled && rows[e].app == a;
      var j := RowEntry(apps, rows, log, e);
      assert j == i;
      assert e in es;
    }
    assert mine == AppsIn(log, enrolled, c);
  }

  /** selected_count plus the unprocessed deltas is the number of enrolled rows of the class. */
  lemma CountsFollowRows(s: System, c: ClassId)
    requires Reachable(s) && c in s.db.classes
    ensures s.db.classes[c].selectedCount + Net(Unprocessed(s.db.deltas), c) == |EnrolledIn(s.db.enrollments, c)|
    ensures 0 <= s.db.classes[c].selectedCount <= s.db.classes[c].capacity
    ensures |EnrolledIn(s.db.enrollments, c)| <= s.db.classes[c].capacity
  {
    hide Inv, Reachable;
    ReachableKeeps(s);
    DbParts(s);
    StockParts(s);
    hide DropsOk, MirrorOk, EventsOk, DeltasOk, ReleasesOk, QuotaLedger, CourseLedger, CellLedger, KeysOk, SeatLedger,
         EntryFits, UniqueRequests, EnrolledIn, AppsIn, EnrolledApps, Unprocessed;
    SeatsAreApps(s.log, EnrolledApps(s.db.enrollments), c);
    EnrolledRowsAreApps(s.db.applications, s.db.enrollments, s.log, c);
    var pending := Unprocessed(s.db.deltas);
    assert Fits(s.db.classes[c], Net(pending[..0], c));
    assert pending[..|pending|] == pending;
  }

  /** The projector's guard never trips, for any batch limit. */
  lemma ProjectionNeverTrips(s: System, limit: nat, at: int)
    requires Reachable(s)
    ensures Project(s.db, limit, at).Ok?
  {
    hide Inv, Reachable;
    ReachableKeeps(s);
    ProjectKeeps(s, limit, at);
  }
}
