/** Every step of the protocol keeps the invariant. */
module SelectionProofs {
  import opened Types
  import opened Ledger
  import opened RedisScripts
  import opened RedisLedger
  import opened MySqlTables
  import opened BatchProjection
  import opened CountProjection
  import opened SelectionSystem

  lemma LogApps(log: Log)
    ensures forall i :: 0 <= i < |log| ==> log[i].app in Apps(log)
    ensures forall x :: x in log ==> x.app in Apps(log)
  {
  }

  lemma EnrolledIsLive(
    apps: map<AppId, Selection>, rows: Rows, log: Log, dropped: set<EnrollmentId>, repairs: map<EnrollmentId, Repair>)
    requires RowsOk(apps, rows, log) && ReleasesOk(dropped, rows, repairs)
    ensures EnrolledApps(rows) <= Live(log, rows, dropped)
  {
    LogApps(log);
    forall a | a in EnrolledApps(rows) ensures a in Live(log, rows, dropped) {
      var e :| e in rows && rows[e].state == Enrolled && rows[e].app == a;
      assert apps[a] in log;
    }
  }

  lemma InitCounts(
    classes: map<ClassId, ClassRow>, deltas: seq<Delta>, enrolled: set<AppId>, stock: Stock, lim: Limits, log: Log)
    requires SeatLedger(stock, lim, log, enrolled) && Unprocessed(deltas) == []
    requires ClassesCount(classes, enrolled, lim, log)
    ensures CountsOk(classes, deltas, enrolled, lim, log)
  {
    forall c, k | c in classes && 0 <= k <= 0
      ensures Fits(classes[c], Net(Unprocessed(deltas)[..k], c))
    {
      assert stock.seat[c] >= 0;
    }
  }

  lemma InitEmpty(
    events: map<EventId, EventBody>, log: Log, dropped: set<EnrollmentId>, apps: map<AppId, Selection>, rows: Rows)
    requires forall i :: 0 <= i < |log| ==> EventOf(log[i]) in events
    ensures PublicationsOk(Board(map[], map[], map[]), events, log, |log|)
    ensures StreamOk(Stream([], |log|, []), events, log, |log|)
    ensures ConsumersOk(map[], events, log, |log|)
    ensures DroppersOk(map[], dropped, apps, rows)
  {
  }

  /** With every result saved and every drop released, live and enrolled are the same. */
  lemma SavedAndReleased(
    apps: map<AppId, Selection>, rows: Rows, events: map<EventId, EventBody>, outbox: map<EventId, Selection>,
    log: Log, dropped: set<EnrollmentId>, repairs: map<EnrollmentId, Repair>)
    requires RowsOk(apps, rows, log) && EventsOk(apps, events, outbox, log) && ReleasesOk(dropped, rows, repairs)
    requires DropsClosed(rows, dropped, repairs) && forall i :: 0 <= i < |log| ==> EventOf(log[i]) in events
    ensures EnrolledApps(rows) == Live(log, rows, dropped)
  {
    EnrolledIsLive(apps, rows, log, dropped, repairs);
    forall a | a in Live(log, rows, dropped) ensures a in EnrolledApps(rows) {
      var i :| 0 <= i < |log| && log[i].app == a;
      assert HasRow(rows, a);
      var e :| e in rows && rows[e].app == a;
      assert RowOf(rows[e], apps[rows[e].app]);
    }
  }

  lemma InitKeeps(s: System)
    requires Init(s)
    ensures Inv(s)
  {
    SavedAndReleased(s.db.applications, s.db.enrollments, s.db.events, s.db.outbox, s.log, s.redis.dropped,
                     s.db.repairs);
    InitEmpty(s.db.events, s.log, s.redis.dropped, s.db.applications, s.db.enrollments);
    var enrolled := EnrolledApps(s.db.enrollments);
    hide Live, RowsOk, EventsOk, DropsOk, ReleasesOk, DeltasOk, MirrorOk, DropsClosed, EnrolledApps, PublicationsOk,
         StreamOk, ConsumersOk, DroppersOk, LogOk, KeysOk, QuotaLedger, SeatLedger, CourseLedger, CellLedger, CountsOk,
         ClassesCount, Unprocessed;
    InitCounts(s.db.classes, s.db.deltas, enrolled, s.redis.stock, s.limits, s.log);
  }

  lemma OpenKeeps(s: System)
    requires Inv(s)
    ensures Inv(s.(redis := s.redis.(openVersion := s.redis.activeVersion)))
  {
  }

  // --- Selecting: the log grows by one result --------------------------------------------------

  lemma SelectLive(apps: map<AppId, Selection>, rows: Rows, log: Log, dropped: set<EnrollmentId>, r: Selection)
    requires RowsOk(apps, rows, log) && r.app !in Apps(log)
    ensures Live(log + [r], rows, dropped) == Live(log, rows, dropped) + {r.app}
    ensures r.app !in EnrolledApps(rows) && r.app !in apps
  {
    LogApps(log);
    var log' := log + [r];
    assert log'[|log|] == r;
    assert forall i :: 0 <= i < |log| ==> log'[i] == log[i];
    assert Apps(log') == Apps(log) + {r.app};
  }

  lemma SelectLog(s: System, r: Selection, expected: string, now: int)
    requires LogOk(s.log, s.redis.snapshot.round, s.redis.snapshot.term, s.limits)
    requires PublicationsOk(s.redis.board, s.db.events, s.log, s.warm)
    requires s.redis.stock.credit.Keys == s.limits.credit.Keys
    requires s.redis.stock.seat.Keys == s.limits.seats.Keys
    requires ValidResult(r) && r.state == Selected && FreshRequest(s, r) && Accepted(s.redis, r, expected, now)
    ensures LogOk(s.log + [r], s.redis.snapshot.round, s.redis.snapshot.term, s.limits)
  {
    AcceptedFacts(s.redis, r, expected, now);
    LogApps(s.log);
    forall i | 0 <= i < |s.log| ensures !(s.log[i].student == r.student && s.log[i].request == r.request) {
      if i >= s.warm {
        assert (s.log[i].student, s.log[i].request) in s.redis.board.results;
      }
    }
  }

  lemma SelectRows(apps: map<AppId, Selection>, rows: Rows, log: Log, r: Selection)
    requires RowsOk(apps, rows, log)
    ensures RowsOk(apps, rows, log + [r])
  {
    assert forall x :: x in log ==> x in log + [r];
  }

  lemma SelectEvents(
    apps: map<AppId, Selection>, events: map<EventId, EventBody>, outbox: map<EventId, Selection>, log: Log,
    r: Selection)
    requires EventsOk(apps, events, outbox, log) && r.app !in Apps(log) && r.app !in apps
    ensures EventsOk(apps, events, outbox, log + [r])
  {
    LogApps(log);
    assert EventOf(r) !in events;
    assert forall x :: x in log ==> x in log + [r];
  }

  lemma SelectMirror(
    quotas: map<QuotaKey, Quota>, enrolled: set<AppId>, lim: Limits, log: Log, round: RoundId, r: Selection)
    requires MirrorOk(quotas, enrolled, lim, log, round) && r.app !in enrolled
    ensures MirrorOk(quotas, enrolled, lim, log + [r], round)
  {
    forall s {
      WeightAppend(log, r, enrolled, CreditOf(s));
    }
    forall s {
      WeightAppend(log, r, enrolled, CourseOf(s));
    }
  }

  lemma SelectCounts(
    classes: map<ClassId, ClassRow>, deltas: seq<Delta>, enrolled: set<AppId>, lim: Limits, log: Log, r: Selection)
    requires CountsOk(classes, deltas, enrolled, lim, log) && r.app !in enrolled
    ensures CountsOk(classes, deltas, enrolled, lim, log + [r])
  {
    forall c {
      WeightAppend(log, r, enrolled, SeatOf(c));
    }
  }

  lemma SelectDb(db: MySql, lim: Limits, log: Log, round: RoundId, r: Selection)
    requires DbOk(db, lim, log, round) && r.app !in Apps(log)
    requires r.app !in EnrolledApps(db.enrollments) && r.app !in db.applications
    ensures DbOk(db, lim, log + [r], round)
  {
    SelectRows(db.applications, db.enrollments, log, r);
    SelectEvents(db.applications, db.events, db.outbox, log, r);
    SelectMirror(db.quotas, EnrolledApps(db.enrollments), lim, log, round, r);
    SelectCounts(db.classes, db.deltas, EnrolledApps(db.enrollments), lim, log, r);
  }

  lemma SelectStock(s: System, r: Selection, expected: string, now: int, live: set<AppId>)
    requires StockOk(s.redis, s.limits, s.log, live) && PublicationsOk(s.redis.board, s.db.events, s.log, s.warm)
    requires ValidResult(r) && r.state == Selected && FreshRequest(s, r) && Accepted(s.redis, r, expected, now)
    ensures StockOk(Commit(s.redis, r, expected, now).redis, s.limits, s.log + [r], live + {r.app})
  {
    AcceptedFacts(s.redis, r, expected, now);
    SelectLog(s, r, expected, now);
    TakeBalanced(s.redis.stock, s.redis.snapshot.classCells, s.limits, s.log, live, r);
    TakeKeys(s.redis.stock, s.redis.snapshot.classCells, s.limits, r);
  }

  lemma TakeKeys(stock: Stock, classCells: map<ClassId, set<string>>, lim: Limits, r: Selection)
    requires KeysOk(stock, classCells, lim) && StockKeysExist(stock, classCells, r.student, r.teachingClass)
    ensures KeysOk(Take(stock, classCells, r), classCells, lim)
  {
    var stock' := Take(stock, classCells, r);
    assert stock'.courses.Keys == stock.courses.Keys && stock'.cells.Keys == stock.cells.Keys;
  }

  lemma SelectBoard(board: Board, events: map<EventId, EventBody>, log: Log, warm: nat, r: Selection)
    requires PublicationsOk(board, events, log, warm) && warm <= |log|
    requires (r.student, r.request) !in board.results && r.student !in board.pending && r.app !in Apps(log)
    ensures PublicationsOk(Publish(board, r, |log|), events, log + [r], warm)
  {
    LogApps(log);
    var board', log' := Publish(board, r, |log|), log + [r];
    PublishedEntries(board, log, warm, r);
    hide PublicationOk, PendingOk, Apps;
    forall k | k in board'.results ensures PublicationOk(board'.results[k], k, board', events, log', warm) {
      if k == (r.student, r.request) {
        PublicationNew(board, events, log, warm, r);
      } else {
        PublicationKept(board, events, log, warm, r, k);
      }
    }
    forall s | s in board'.pending ensures PendingOk(board'.pending[s], s, board') {
      PendingKept(board, |log|, r, s);
    }
  }

  lemma PublishedEntries(board: Board, log: Log, warm: nat, r: Selection)
    requires (r.student, r.request) !in board.results
    requires forall i :: warm <= i < |log| ==>
               && (log[i].student, log[i].request) in board.results
               && board.results[(log[i].student, log[i].request)].streamId == i
    ensures var board', log' := Publish(board, r, |log|), log + [r];
            forall i :: warm <= i < |log'| ==>
              && (log'[i].student, log'[i].request) in board'.results
              && board'.results[(log'[i].student, log'[i].request)].streamId == i
  {
  }

  lemma PublicationNew(board: Board, events: map<EventId, EventBody>, log: Log, warm: nat, r: Selection)
    requires warm <= |log|
    ensures var board', k := Publish(board, r, |log|), (r.student, r.request);
            k in board'.results && PublicationOk(board'.results[k], k, board', events, log + [r], warm)
  {
  }

  lemma PendingKept(board: Board, id: nat, r: Selection, s: StudentId)
    requires s in Publish(board, r, id).pending && (r.student, r.request) !in board.results
    requires s != r.student ==> PendingOk(board.pending[s], s, board)
    ensures PendingOk(Publish(board, r, id).pending[s], s, Publish(board, r, id))
  {
  }

  lemma PublicationKept(
    board: Board, events: map<EventId, EventBody>, log: Log, warm: nat, r: Selection, k: (StudentId, RequestId))
    requires k in board.results && PublicationOk(board.results[k], k, board, events, log, warm)
    requires r.student !in board.pending && r.app !in Apps(log) && k != (r.student, r.request)
    ensures var board' := Publish(board, r, |log|);
            k in board'.results && PublicationOk(board'.results[k], k, board', events, log + [r], warm)
  {
    LogApps(log);
    assert board.results[k].result.app in Apps(log);
  }

  lemma BatchGrows(batch: seq<Entry>, log: Log, r: Selection, warm: nat)
    requires BatchOk(batch, log, warm)
    ensures BatchOk(batch, log + [r], warm)
  {
    forall i | 0 <= i < |batch| ensures EntryOk(batch[i], log + [r], warm) {
      assert EntryOk(batch[i], log, warm);
    }
  }

  lemma SelectStream(stream: Stream, events: map<EventId, EventBody>, log: Log, warm: nat, r: Selection)
    requires StreamOk(stream, events, log, warm)
    ensures StreamOk(stream.(entries := stream.entries + [Entry(|log|, r)], nextId := |log| + 1), events, log + [r],
                     warm)
  {
    BatchGrows(stream.entries, log, r, warm);
    var entries', log' := stream.entries + [Entry(|log|, r)], log + [r];
    assert forall k :: 0 <= k < |stream.entries| ==> EntryOk(stream.entries[k], log, warm);
    forall i | 0 <= i < |log'| ensures InStream(entries', i) || EventOf(log'[i]) in events {
      if i == |log| {
        assert entries'[|stream.entries|].id == i;
      } else if InStream(stream.entries, i) {
        var k :| 0 <= k < |stream.entries| && stream.entries[k].id == i;
        assert entries'[k].id == i;
      }
    }
  }

  lemma SelectConsumers(
    consumers: map<nat, Consumer>, events: map<EventId, EventBody>, log: Log, warm: nat, r: Selection)
    requires ConsumersOk(consumers, events, log, warm)
    ensures ConsumersOk(consumers, events, log + [r], warm)
  {
    forall w | w in consumers ensures ConsumerOk(consumers[w], events, log + [r], warm) {
      assert ConsumerOk(consumers[w], events, log, warm);
      match consumers[w] {
        case Holding(batch) => BatchGrows(batch, log, r, warm);
        case Clearing(batch, _, _) => BatchGrows(batch, log, r, warm);
        case Acking(batch) => BatchGrows(batch, log, r, warm);
        case _ =>
      }
    }
  }

  lemma AcceptedRedis(rd: Redis, r: Selection, expected: string, now: int)
    requires Accepted(rd, r, expected, now)
    ensures var rd' := Commit(rd, r, expected, now).redis;
            && rd'.snapshot == rd.snapshot && rd'.dropped == rd.dropped
            && rd'.board == Publish(rd.board, r, rd.stream.nextId)
            && rd'.stream == rd.stream.(entries := rd.stream.entries + [Entry(rd.stream.nextId, r)],
                                        nextId := rd.stream.nextId + 1)
  {
  }

  lemma SelectAccepted(s: System, r: Selection, expected: string, now: int, rd: Redis)
    requires Inv(s) && ValidResult(r) && FreshRequest(s, r) && r.state == Selected
    requires Accepted(s.redis, r, expected, now) && rd == Commit(s.redis, r, expected, now).redis
    ensures Inv(s.(redis := rd, log := s.log + [r]))
  {
    AcceptedFacts(s.redis, r, expected, now);
    AcceptedRedis(s.redis, r, expected, now);
    SelectLive(s.db.applications, s.db.enrollments, s.log, s.redis.dropped, r);
    SelectStock(s, r, expected, now, Live(s.log, s.db.enrollments, s.redis.dropped));
    SelectDb(s.db, s.limits, s.log, s.redis.snapshot.round, r);
    SelectBoard(s.redis.board, s.db.events, s.log, s.warm, r);
    SelectStream(s.redis.stream, s.db.events, s.log, s.warm, r);
    SelectConsumers(s.consumers, s.db.events, s.log, s.warm, r);
  }

  lemma Unaccepted(s: System, r: Selection, expected: string, now: int)
    requires !Accepted(s.redis, r, expected, now)
    ensures SelectStep(s, r, expected, now) == s
  {
  }

  lemma SelectKeeps(s: System, r: Selection, expected: string, now: int)
    requires Inv(s) && ValidResult(r) && FreshRequest(s, r)
    ensures Inv(SelectStep(s, r, expected, now))
  {
    if r.state == Selected {
      if Accepted(s.redis, r, expected, now) {
        SelectAccepted(s, r, expected, now, Commit(s.redis, r, expected, now).redis);
      } else {
        Unaccepted(s, r, expected, now);
      }
    }
  }

  // --- Saving: MySQL takes over one committed result -------------------------------------------

  /** The tables after saving one new result. */
  ghost function Saved(db: MySql, r: Selection, id: EnrollmentId): MySql
    requires KeyOf(r) in db.quotas
  {
    db.(quotas := db.quotas[KeyOf(r) := ChargeQuota(db.quotas[KeyOf(r)], (r.credits, 1))],
        events := db.events[EventOf(r) := SelectionBody(r)],
        applications := db.applications[r.app := r],
        enrollments := db.enrollments[id := NewRow(r)],
        deltas := db.deltas + [Delta(EventOf(r), r.teachingClass, 1, None)],
        outbox := db.outbox[EventOf(r) := r])
  }

  /** Nothing in the tables stands in the way of the new result. */
  ghost predicate Savable(db: MySql, r: Selection, id: EnrollmentId) {
    && KeyOf(r) in db.quotas && Affordable(db.quotas[KeyOf(r)], (r.credits, 1))
    && EventOf(r) !in db.events && r.app !in db.applications && !RequestTaken(db.applications, r)
    && id !in db.enrollments && !RowClashes(db.enrollments, NewRow(r))
    && !DeltaRecorded(db.deltas, EventOf(r)) && EventOf(r) !in db.outbox
  }

  lemma SaveOneCharge(db: MySql, r: Selection)
    requires r.state == Selected && KeyOf(r) in db.quotas && Affordable(db.quotas[KeyOf(r)], (r.credits, 1))
    ensures ChargeQuotas(db.quotas, [r]) == Ok(db.quotas[KeyOf(r) := ChargeQuota(db.quotas[KeyOf(r)], (r.credits, 1))])
  {
    ChargedKeysAppend([], r);
    ChargeAppend([], r, KeyOf(r));
    assert [] + [r] == [r] && ChargedKeys([]) == {};
    assert ChargeQuotas(db.quotas, [r]).value
           == db.quotas[KeyOf(r) := ChargeQuota(db.quotas[KeyOf(r)], (r.credits, 1))];
  }

  lemma SaveOne(db: MySql, r: Selection, ids: Ids)
    requires ValidResult(r) && r.state == Selected && Savable(db, r, ids(r.app))
    ensures SaveBatch(db, [r], ids) == Ok(Saved(db, r, ids(r.app)))
  {
    SaveNew(db, r, ids);
    SaveOneCharge(db, r);
    assert [r][..0] == [];
    assert InsertApplications(db.applications, [r]) == Ok(db.applications[r.app := r]);
    assert InsertEnrollments(db.enrollments, [r], ids) == Ok(db.enrollments[ids(r.app) := NewRow(r)]);
    assert InsertDeltas(db.deltas, [r]) == Ok(db.deltas + [Delta(EventOf(r), r.teachingClass, 1, None)]);
    assert AppendOutbox(db.outbox, [r]) == Ok(db.outbox[EventOf(r) := r]);
    assert InsertEvents(db.events, [r]) == db.events[EventOf(r) := SelectionBody(r)];
  }

  /** What the Redis side guarantees about a result that MySQL has not saved yet. */
  ghost predicate Promised(stock: Stock, lim: Limits, log: Log, live: set<AppId>, enrolled: set<AppId>, k: nat) {
    && k < |log| && UniqueApps(log) && UniqueRequests(log)
    && QuotaLedger(stock, lim, log, live) && SeatLedger(stock, lim, log, live) && CourseLedger(stock.courses, log, live)
    && enrolled <= live && log[k].app in live && log[k].app !in enrolled
    && log[k].student in lim.credit && log[k].student in lim.courses && log[k].teachingClass in lim.seats
    && log[k].credits > 0
  }

  /** The quota guard accepts: MySQL's enrolled rows and the new one are all live in Redis. */
  lemma SaveAffordable(
    quotas: map<QuotaKey, Quota>, stock: Stock, lim: Limits, log: Log, live: set<AppId>, enrolled: set<AppId>,
    round: RoundId, k: nat)
    requires Promised(stock, lim, log, live, enrolled, k) && log[k].round == round
    requires MirrorOk(quotas, enrolled, lim, log, round)
    ensures KeyOf(log[k]) in quotas && Affordable(quotas[KeyOf(log[k])], (log[k].credits, 1))
  {
    var s := log[k].student;
    assert KeyOf(log[k]) == QuotaKey(round, s);
    WeightInsert(log, enrolled, k, CreditOf(s));
    WeightMonotone(log, enrolled + {log[k].app}, live, CreditOf(s));
    WeightInsert(log, enrolled, k, CourseOf(s));
    WeightMonotone(log, enrolled + {log[k].app}, live, CourseOf(s));
  }

  /** The unique keys accept: the live courses of a student are distinct. */
  lemma SaveUnclashing(
    apps: map<AppId, Selection>, rows: Rows, courses: map<StudentId, map<CourseId, AppId>>, log: Log,
    live: set<AppId>, k: nat)
    requires RowsOk(apps, rows, log) && EnrolledApps(rows) <= live && CourseLedger(courses, log, live)
    requires k < |log| && log[k].app in live && log[k].app !in apps
    ensures !RowClashes(rows, NewRow(log[k]))
  {
    forall e | e in rows
      ensures rows[e].app != log[k].app && rows[e].activeKey != NewRow(log[k]).activeKey
    {
      if rows[e].state == Enrolled {
        assert rows[e].app in EnrolledApps(rows);
        var i :| 0 <= i < |log| && log[i] == apps[rows[e].app];
        assert courses[log[i].student][log[i].course] == log[i].app;
      }
    }
  }

  lemma SaveRequestFree(apps: map<AppId, Selection>, rows: Rows, log: Log, k: nat)
    requires RowsOk(apps, rows, log) && UniqueRequests(log) && k < |log| && log[k].app !in apps
    ensures !RequestTaken(apps, log[k])
  {
    forall a | a in apps
      ensures !(apps[a].student == log[k].student && apps[a].request == log[k].request)
    {
      var i :| 0 <= i < |log| && log[i] == apps[a];
      assert i != k;
    }
  }

  lemma SaveUnrecorded(deltas: seq<Delta>, events: map<EventId, EventBody>, lim: Limits, k: EventId)
    requires DeltasOk(deltas, events, lim) && k !in events
    ensures !DeltaRecorded(deltas, k)
  {
  }

  /** Nothing in MySQL rejects a committed result. */
  lemma SavableResult(
    db: MySql, lim: Limits, log: Log, round: RoundId, stock: Stock, live: set<AppId>, k: nat, id: EnrollmentId)
    requires DbOk(db, lim, log, round) && Promised(stock, lim, log, live, EnrolledApps(db.enrollments), k)
    requires log[k].round == round && EventOf(log[k]) !in db.events && id !in db.enrollments
    ensures Savable(db, log[k], id)
  {
    SaveAffordable(db.quotas, stock, lim, log, live, EnrolledApps(db.enrollments), round, k);
    SaveUnclashing(db.applications, db.enrollments, stock.courses, log, live, k);
    SaveRequestFree(db.applications, db.enrollments, log, k);
    SaveUnrecorded(db.deltas, db.events, lim, EventOf(log[k]));
  }

  // What saving one result does to each part of the invariant.

  lemma SavedRows(apps: map<AppId, Selection>, rows: Rows, log: Log, r: Selection, id: EnrollmentId)
    requires RowsOk(apps, rows, log) && r in log && r.app !in apps && id !in rows
    ensures RowsOk(apps[r.app := r], rows[id := NewRow(r)], log)
    ensures EnrolledApps(rows[id := NewRow(r)]) == EnrolledApps(rows) + {r.app}
  {
    var apps', rows' := apps[r.app := r], rows[id := NewRow(r)];
    assert forall e :: e in rows ==> rows'[e] == rows[e];
    assert rows'[id].app == r.app;
    forall a | a in apps' ensures HasRow(rows', a) {
      if a != r.app {
        var e :| e in rows && rows[e].app == a;
        assert e in rows' && rows'[e].app == a;
      }
    }
    hide HasRow;
    SavedEnrolled(rows, r, id);
  }

  lemma SavedEnrolled(rows: Rows, r: Selection, id: EnrollmentId)
    requires id !in rows
    ensures EnrolledApps(rows[id := NewRow(r)]) == EnrolledApps(rows) + {r.app}
  {
    var rows' := rows[id := NewRow(r)];
    assert rows'[id].app == r.app;
    forall x | x in EnrolledApps(rows) ensures x in EnrolledApps(rows') {
      var e :| e in rows && rows[e].state == Enrolled && rows[e].app == x;
      assert e in rows' && rows'[e].app == x;
    }
  }

  lemma SavedEventsOk(
    apps: map<AppId, Selection>, events: map<EventId, EventBody>, outbox: map<EventId, Selection>, log: Log,
    r: Selection)
    requires EventsOk(apps, events, outbox, log) && r in log && UniqueApps(log)
    ensures EventsOk(apps[r.app := r], events[EventOf(r) := SelectionBody(r)], outbox[EventOf(r) := r], log)
  {
    var j :| 0 <= j < |log| && log[j] == r;
    assert forall i :: 0 <= i < |log| && log[i].app == r.app ==> i == j;
  }

  lemma SavedDrops(
    rows: Rows, events: map<EventId, EventBody>, repairs: set<EnrollmentId>, r: Selection, id: EnrollmentId)
    requires DropsOk(rows, events, repairs) && id !in rows
    ensures DropsOk(rows[id := NewRow(r)], events[EventOf(r) := SelectionBody(r)], repairs)
  {
  }

  lemma SavedDeltas(deltas: seq<Delta>, events: map<EventId, EventBody>, lim: Limits, r: Selection)
    requires DeltasOk(deltas, events, lim) && r.teachingClass in lim.seats
    ensures DeltasOk(deltas + [Delta(EventOf(r), r.teachingClass, 1, None)], events[EventOf(r) := SelectionBody(r)],
                     lim)
  {
  }

  lemma SavedMirror(
    quotas: map<QuotaKey, Quota>, enrolled: set<AppId>, lim: Limits, log: Log, round: RoundId, k: nat)
    requires MirrorOk(quotas, enrolled, lim, log, round) && UniqueApps(log) && k < |log| && log[k].app !in enrolled
    requires log[k].round == round && log[k].credits > 0 && KeyOf(log[k]) in quotas
    ensures MirrorOk(quotas[KeyOf(log[k]) := ChargeQuota(quotas[KeyOf(log[k])], (log[k].credits, 1))],
                     enrolled + {log[k].app}, lim, log, round)
  {
    forall s {
      WeightInsert(log, enrolled, k, CreditOf(s));
    }
    forall s {
      WeightInsert(log, enrolled, k, CourseOf(s));
    }
  }

  lemma SavedCounts(
    classes: map<ClassId, ClassRow>, deltas: seq<Delta>, stock: Stock, lim: Limits, log: Log, live: set<AppId>,
    enrolled: set<AppId>, k: nat, event: EventId)
    requires CountsOk(classes, deltas, enrolled, lim, log) && Promised(stock, lim, log, live, enrolled, k)
    ensures CountsOk(classes, deltas + [Delta(event, log[k].teachingClass, 1, None)], enrolled + {log[k].app}, lim, log)
  {
    var d := Delta(event, log[k].teachingClass, 1, None);
    var pending := Unprocessed(deltas);
    UnprocessedAppend(deltas, d);
    forall c | c in classes
      ensures classes[c].selectedCount + Net(pending + [d], c) == Weight(log, enrolled + {log[k].app}, SeatOf(c))
      ensures Fits(classes[c], Net(pending + [d], c))
    {
      NetAppend(pending, d, c);
      WeightInsert(log, enrolled, k, SeatOf(c));
      WeightMonotone(log, enrolled + {log[k].app}, live, SeatOf(c));
      assert stock.seat[c] >= 0;
    }
    AppendFits(classes, pending, d);
  }

  lemma SavedDb(
    db: MySql, lim: Limits, log: Log, round: RoundId, stock: Stock, live: set<AppId>, k: nat, id: EnrollmentId)
    requires DbOk(db, lim, log, round) && Promised(stock, lim, log, live, EnrolledApps(db.enrollments), k)
    requires log[k].round == round && Savable(db, log[k], id)
    ensures DbOk(Saved(db, log[k], id), lim, log, round)
    ensures EnrolledApps(Saved(db, log[k], id).enrollments) == EnrolledApps(db.enrollments) + {log[k].app}
  {
    SavedRows(db.applications, db.enrollments, log, log[k], id);
    SavedEventsOk(db.applications, db.events, db.outbox, log, log[k]);
    SavedDrops(db.enrollments, db.events, db.repairs.Keys, log[k], id);
    SavedDeltas(db.deltas, db.events, lim, log[k]);
    SavedMirror(db.quotas, EnrolledApps(db.enrollments), lim, log, round, k);
    SavedCounts(db.classes, db.deltas, stock, lim, log, live, EnrolledApps(db.enrollments), k, EventOf(log[k]));
  }

  /** How the tables may grow while a batch is saved. */
  ghost predicate Grows(db: MySql, db': MySql, batch: seq<Selection>, ids: Ids) {
    && (forall k :: k in db.events ==> k in db'.events)
    && (forall a :: a in db.applications ==> a in db'.applications && db'.applications[a] == db.applications[a])
    && (forall e :: e in db.enrollments ==> e in db'.enrollments && db'.enrollments[e] == db.enrollments[e])
    && (forall e :: e in db'.enrollments ==> e in db.enrollments || exists x :: x in batch && e == ids(x.app))
    && db'.repairs == db.repairs
  }

  ghost predicate SaveContext(stock: Stock, lim: Limits, log: Log, live: set<AppId>, round: RoundId, term: TermId) {
    && LogOk(log, round, term, lim) && lim.courses.Keys == lim.credit.Keys
    && QuotaLedger(stock, lim, log, live) && SeatLedger(stock, lim, log, live) && CourseLedger(stock.courses, log, live)
  }

  /** Enrolled rows are live, and what is not saved yet is live. */
  ghost predicate SaveLive(db: MySql, log: Log, live: set<AppId>) {
    && EnrolledApps(db.enrollments) <= live
    && forall i :: 0 <= i < |log| && log[i].app !in db.applications ==> log[i].app in live
  }

  lemma SavedGrows(db0: MySql, db: MySql, batch: seq<Selection>, r: Selection, ids: Ids)
    requires Grows(db0, db, batch, ids) && r.app !in db.applications && ids(r.app) !in db.enrollments
    requires KeyOf(r) in db.quotas
    ensures Grows(db0, Saved(db, r, ids(r.app)), batch + [r], ids)
  {
    var db', all := Saved(db, r, ids(r.app)), batch + [r];
    assert r in all && forall x :: x in batch ==> x in all;
    forall e | e in db'.enrollments ensures e in db0.enrollments || exists x :: x in all && e == ids(x.app) {
      if e != ids(r.app) && e !in db0.enrollments {
        var x :| x in batch && e == ids(x.app);
        assert x in all;
      }
    }
  }

  lemma GrowsSame(db0: MySql, db: MySql, batch: seq<Selection>, r: Selection, ids: Ids)
    requires Grows(db0, db, batch, ids)
    ensures Grows(db0, db, batch + [r], ids)
  {
    forall e | e in db.enrollments ensures e in db0.enrollments || exists x :: x in batch + [r] && e == ids(x.app) {
      if e !in db0.enrollments {
        var x :| x in batch && e == ids(x.app);
        assert x in batch + [r];
      }
    }
  }

  /** A new result is promised by Redis. */
  lemma PromisedResult(
    db: MySql, stock: Stock, lim: Limits, log: Log, live: set<AppId>, round: RoundId, term: TermId, k: nat)
    requires SaveContext(stock, lim, log, live, round, term) && SaveLive(db, log, live)
    requires RowsOk(db.applications, db.enrollments, log) && k < |log| && log[k].app !in db.applications
    ensures Promised(stock, lim, log, live, EnrolledApps(db.enrollments), k)
  {
    assert EntryFits(log[k], round, term, lim);
  }

  /** One more item of the batch: it is saved, or it already was. */
  lemma SaveLast(
    db0: MySql, db: MySql, stock: Stock, lim: Limits, log: Log, live: set<AppId>, round: RoundId, term: TermId,
    batch: seq<Selection>, k: nat, ids: Ids)
    requires SaveContext(stock, lim, log, live, round, term) && SaveLive(db, log, live) && DbOk(db, lim, log, round)
    requires Grows(db0, db, batch, ids) && k < |log|
    requires forall x :: x in batch ==> x in log && EventOf(x) in db.events
    requires FreshIds(db0, batch + [log[k]], ids)
    ensures SaveBatch(db, [log[k]], ids).Ok?
    ensures var db' := SaveBatch(db, [log[k]], ids).value;
            && DbOk(db', lim, log, round) && SaveLive(db', log, live) && Grows(db0, db', batch + [log[k]], ids)
            && EventOf(log[k]) in db'.events && forall x :: x in batch ==> EventOf(x) in db'.events
  {
    hide DbOk, SaveLive, SaveContext, FreshIds, Grows, SaveBatch;
    if EventOf(log[k]) in db.events {
      SaveLastKnown(db0, db, lim, log, round, term, batch, k, ids) by {
        ContextLog(stock, lim, log, live, round, term);
      }
    } else {
      SaveLastNew(db0, db, stock, lim, log, live, round, term, batch, k, ids);
    }
  }

  lemma ContextLog(stock: Stock, lim: Limits, log: Log, live: set<AppId>, round: RoundId, term: TermId)
    requires SaveContext(stock, lim, log, live, round, term)
    ensures LogOk(log, round, term, lim)
  {
  }

  lemma SaveLastKnown(
    db0: MySql, db: MySql, lim: Limits, log: Log, round: RoundId, term: TermId, batch: seq<Selection>, k: nat,
    ids: Ids)
    requires LogOk(log, round, term, lim) && DbOk(db, lim, log, round) && Grows(db0, db, batch, ids) && k < |log|
    requires EventOf(log[k]) in db.events
    ensures SaveBatch(db, [log[k]], ids) == Ok(db) && Grows(db0, db, batch + [log[k]], ids)
  {
    assert EntryFits(log[k], round, term, lim);
    hide RowsOk, DropsOk, DeltasOk, MirrorOk, CountsOk, Grows, SaveBatch;
    SaveKnown(db, log, k, ids);
    GrowsSame(db0, db, batch, log[k], ids);
  }

  lemma SaveLastNew(
    db0: MySql, db: MySql, stock: Stock, lim: Limits, log: Log, live: set<AppId>, round: RoundId, term: TermId,
    batch: seq<Selection>, k: nat, ids: Ids)
    requires SaveContext(stock, lim, log, live, round, term) && SaveLive(db, log, live) && DbOk(db, lim, log, round)
    requires Grows(db0, db, batch, ids) && k < |log| && EventOf(log[k]) !in db.events
    requires forall x :: x in batch ==> x in log && EventOf(x) in db.events
    requires FreshIds(db0, batch + [log[k]], ids)
    ensures SaveBatch(db, [log[k]], ids).Ok?
    ensures var db' := SaveBatch(db, [log[k]], ids).value;
            && DbOk(db', lim, log, round) && SaveLive(db', log, live) && Grows(db0, db', batch + [log[k]], ids)
            && EventOf(log[k]) in db'.events && forall x :: x in batch ==> EventOf(x) in db'.events
  {
    hide RowsOk, DropsOk, DeltasOk, MirrorOk, CountsOk, SaveLive, QuotaLedger, SeatLedger, CourseLedger, FreshIds,
         Grows, SaveBatch;
    SaveFreshId(db0, db, batch, log, k, ids);
    SaveUnsaved(db, stock, lim, log, live, round, term, k, ids);
    SavedGrows(db0, db, batch, log[k], ids);
  }

  lemma SaveUnsaved(
    db: MySql, stock: Stock, lim: Limits, log: Log, live: set<AppId>, round: RoundId, term: TermId, k: nat, ids: Ids)
    requires SaveContext(stock, lim, log, live, round, term) && SaveLive(db, log, live) && DbOk(db, lim, log, round)
    requires k < |log| && EventOf(log[k]) !in db.events && ids(log[k].app) !in db.enrollments
    ensures log[k].app !in db.applications && KeyOf(log[k]) in db.quotas
    ensures SaveBatch(db, [log[k]], ids) == Ok(Saved(db, log[k], ids(log[k].app)))
    ensures DbOk(Saved(db, log[k], ids(log[k].app)), lim, log, round)
    ensures SaveLive(Saved(db, log[k], ids(log[k].app)), log, live)
  {
    hide RowsOk, EventsOk, DropsOk, DeltasOk, MirrorOk, CountsOk, QuotaLedger, SeatLedger, CourseLedger, EnrolledApps,
         Saved;
    UnsavedFacts(db, lim, log, round, term, k);
    PromisedResult(db, stock, lim, log, live, round, term, k);
    SavableResult(db, lim, log, round, stock, live, k, ids(log[k].app));
    SavedDb(db, lim, log, round, stock, live, k, ids(log[k].app));
    SaveOne(db, log[k], ids);
    SavedLive(db, log, live, log[k], ids(log[k].app));
  }

  lemma UnsavedFacts(db: MySql, lim: Limits, log: Log, round: RoundId, term: TermId, k: nat)
    requires LogOk(log, round, term, lim) && EventsOk(db.applications, db.events, db.outbox, log)
    requires k < |log| && EventOf(log[k]) !in db.events
    ensures log[k].app !in db.applications && EntryFits(log[k], round, term, lim)
  {
  }

  lemma SavedLive(db: MySql, log: Log, live: set<AppId>, r: Selection, id: EnrollmentId)
    requires SaveLive(db, log, live) && r.app in live && KeyOf(r) in db.quotas
    requires EnrolledApps(Saved(db, r, id).enrollments) == EnrolledApps(db.enrollments) + {r.app}
    ensures SaveLive(Saved(db, r, id), log, live)
  {
  }

  lemma SaveKnown(db: MySql, log: Log, k: nat, ids: Ids)
    requires EventsOk(db.applications, db.events, db.outbox, log) && UniqueApps(log)
    requires k < |log| && EventOf(log[k]) in db.events && ValidResult(log[k])
    ensures SaveBatch(db, [log[k]], ids) == Ok(db)
  {
    var x := db.events[EventOf(log[k])].result;
    var i :| 0 <= i < |log| && log[i] == x;
    assert i == k;
    SaveStored(db, log[k], ids);
  }

  lemma SaveFreshId(db0: MySql, db: MySql, batch: seq<Selection>, log: Log, k: nat, ids: Ids)
    requires k < |log| && EventOf(log[k]) !in db.events
    requires Grows(db0, db, batch, ids) && FreshIds(db0, batch + [log[k]], ids) && UniqueApps(log)
    requires forall x :: x in batch ==> x in log && EventOf(x) in db.events
    ensures ids(log[k].app) !in db.enrollments
  {
    var r := log[k];
    assert r in batch + [r];
    forall x | x in batch ensures ids(x.app) != ids(r.app) {
      var i :| 0 <= i < |log| && log[i] == x;
      assert x in batch + [r];
      assert i != k;
    }
  }

  /** A whole batch of committed results is saved without any error. */
  lemma {:induction false} SaveAll(
    db: MySql, stock: Stock, lim: Limits, log: Log, live: set<AppId>, round: RoundId, term: TermId,
    batch: seq<Selection>, ids: Ids)
    requires SaveContext(stock, lim, log, live, round, term) && SaveLive(db, log, live) && DbOk(db, lim, log, round)
    requires (forall x :: x in batch ==> x in log) && FreshIds(db, batch, ids)
    ensures SaveBatch(db, batch, ids).Ok?
    ensures var db' := SaveBatch(db, batch, ids).value;
            && DbOk(db', lim, log, round) && SaveLive(db', log, live) && Grows(db, db', batch, ids)
            && forall x :: x in batch ==> EventOf(x) in db'.events
  {
    hide DbOk, SaveContext, SaveLive, EventOf;
    if batch == [] {
      assert Normalize([]) == Ok([]);
    } else {
      var n := |batch| - 1;
      var init, r := batch[..n], batch[n];
      assert batch == init + [r];
      assert forall x :: x in init ==> x in batch;
      SaveAll(db, stock, lim, log, live, round, term, init, ids);
      assert r in batch;
      var k :| 0 <= k < |log| && log[k] == r;
      SaveLast(db, SaveBatch(db, init, ids).value, stock, lim, log, live, round, term, init, k, ids);
      SaveAppend(db, init, r, ids);
    }
  }

  // What a growing database does to the other parts of the invariant.

  ghost predicate RowsGrow(rows: Rows, rows': Rows) {
    forall e :: e in rows ==> e in rows' && rows'[e] == rows[e]
  }

  ghost predicate EventsGrow(events: map<EventId, EventBody>, events': map<EventId, EventBody>) {
    forall k :: k in events ==> k in events'
  }

  ghost predicate AppsGrow(apps: map<AppId, Selection>, apps': map<AppId, Selection>) {
    forall a :: a in apps ==> a in apps' && apps'[a] == apps[a]
  }

  lemma LiveGrows(log: Log, rows: Rows, rows': Rows, dropped: set<EnrollmentId>, repairs: map<EnrollmentId, Repair>)
    requires ReleasesOk(dropped, rows, repairs) && RowsGrow(rows, rows')
    ensures Live(log, rows', dropped) == Live(log, rows, dropped)
    ensures ReleasesOk(dropped, rows', repairs)
  {
    assert ReleasedApps(rows', dropped) == ReleasedApps(rows, dropped);
  }

  lemma PublicationsGrow(
    board: Board, events: map<EventId, EventBody>, events': map<EventId, EventBody>, log: Log, warm: nat)
    requires PublicationsOk(board, events, log, warm) && EventsGrow(events, events')
    ensures PublicationsOk(board, events', log, warm)
  {
    forall k | k in board.results ensures PublicationOk(board.results[k], k, board, events', log, warm) {
      assert PublicationOk(board.results[k], k, board, events, log, warm);
    }
  }

  lemma StreamGrows(
    stream: Stream, events: map<EventId, EventBody>, events': map<EventId, EventBody>, log: Log, warm: nat)
    requires StreamOk(stream, events, log, warm) && EventsGrow(events, events')
    ensures StreamOk(stream, events', log, warm)
  {
  }

  lemma ConsumersGrow(
    consumers: map<nat, Consumer>, events: map<EventId, EventBody>, events': map<EventId, EventBody>, log: Log,
    warm: nat)
    requires ConsumersOk(consumers, events, log, warm) && EventsGrow(events, events')
    ensures ConsumersOk(consumers, events', log, warm)
  {
    forall w | w in consumers ensures ConsumerOk(consumers[w], events', log, warm) {
      assert ConsumerOk(consumers[w], events, log, warm);
    }
  }

  lemma DroppersGrow(
    droppers: map<nat, Dropper>, dropped: set<EnrollmentId>, apps: map<AppId, Selection>,
    apps': map<AppId, Selection>, rows: Rows, rows': Rows)
    requires DroppersOk(droppers, dropped, apps, rows) && AppsGrow(apps, apps') && RowsGrow(rows, rows')
    ensures DroppersOk(droppers, dropped, apps', rows')
  {
    forall d | d in droppers ensures DropperOk(droppers[d], dropped, apps', rows') {
      assert DropperOk(droppers[d], dropped, apps, rows);
    }
  }

  lemma {:induction false} AllWellFormed(
    batch: seq<Entry>, log: Log, warm: nat, round: RoundId, term: TermId, lim: Limits)
    requires BatchOk(batch, log, warm) && LogOk(log, round, term, lim)
    ensures WellFormed(batch) == batch
  {
    if batch != [] {
      var n := |batch| - 1;
      AllWellFormed(batch[..n], log, warm, round, term, lim);
      assert EntryOk(batch[n], log, warm);
      assert EntryFits(log[batch[n].id], round, term, lim);
      assert batch[..n] + [batch[n]] == batch;
    }
  }

  lemma BatchEvents(batch: seq<Entry>, log: Log, warm: nat)
    requires BatchOk(batch, log, warm)
    ensures forall x :: x in Events(batch) ==> x in log
    ensures forall i :: 0 <= i < |batch| ==> batch[i].event in Events(batch)
  {
    forall x | x in Events(batch) ensures x in log {
      var i :| 0 <= i < |batch| && x == Events(batch)[i];
      assert EntryOk(batch[i], log, warm);
    }
    forall i | 0 <= i < |batch| ensures batch[i].event in Events(batch) {
      assert Events(batch)[i] == batch[i].event;
    }
  }

  lemma LiveForSave(s: System)
    requires Inv(s)
    ensures SaveLive(s.db, s.log, Live(s.log, s.db.enrollments, s.redis.dropped))
    ensures SaveContext(s.redis.stock, s.limits, s.log, Live(s.log, s.db.enrollments, s.redis.dropped),
                        s.redis.snapshot.round, s.redis.snapshot.term)
  {
    EnrolledIsLive(s.db.applications, s.db.enrollments, s.log, s.redis.dropped, s.db.repairs);
    UnsavedIsLive(s.db.applications, s.db.enrollments, s.log, s.redis.dropped);
    hide RowsOk, EventsOk, DropsOk, DeltasOk, MirrorOk, CountsOk, QuotaLedger, SeatLedger, CourseLedger, CellLedger,
         EnrolledApps, LogOk, PublicationsOk, StreamOk, ConsumersOk, DroppersOk, ReleasesOk;
  }

  lemma UnsavedIsLive(apps: map<AppId, Selection>, rows: Rows, log: Log, dropped: set<EnrollmentId>)
    requires RowsOk(apps, rows, log)
    ensures forall i :: 0 <= i < |log| && log[i].app !in apps ==> log[i].app in Live(log, rows, dropped)
  {
    LogApps(log);
  }

  /** No committed batch is ever rejected by MySQL. */
  lemma SaveAccepted(s: System, batch: seq<Entry>, ids: Ids)
    requires Inv(s) && BatchOk(batch, s.log, s.warm) && FreshIds(s.db, Events(batch), ids)
    ensures SaveBatch(s.db, Events(batch), ids).Ok?
    ensures var db' := SaveBatch(s.db, Events(batch), ids).value;
            && DbOk(db', s.limits, s.log, s.redis.snapshot.round) && BatchSaved(batch, db'.events)
            && RowsGrow(s.db.enrollments, db'.enrollments) && EventsGrow(s.db.events, db'.events)
            && AppsGrow(s.db.applications, db'.applications) && db'.repairs == s.db.repairs
  {
    hide StockOk, ReleasesOk, PublicationsOk, StreamOk, ConsumersOk, DroppersOk, SaveContext, SaveLive, EntryOk, RowsOk,
         EventsOk, DropsOk, DeltasOk, MirrorOk, CountsOk, SaveBatch, Live;
    LiveForSave(s);
    BatchEvents(batch, s.log, s.warm);
    SaveAll(s.db, s.redis.stock, s.limits, s.log, Live(s.log, s.db.enrollments, s.redis.dropped),
            s.redis.snapshot.round, s.redis.snapshot.term, Events(batch), ids);
  }

  lemma SaveKeeps(s: System, w: nat, batch: seq<Entry>, ids: Ids)
    requires Inv(s) && BatchOk(batch, s.log, s.warm) && FreshIds(s.db, Events(batch), ids)
    ensures Inv(SaveStep(s, w, batch, ids))
  {
    hide StockOk, DbOk, PublicationsOk, StreamOk, DroppersOk, RowsGrow, EventsGrow, AppsGrow, FreshIds, SaveBatch;
    if batch != [] {
      SaveAccepted(s, batch, ids);
      var db' := SaveBatch(s.db, Events(batch), ids).value;
      LiveGrows(s.log, s.db.enrollments, db'.enrollments, s.redis.dropped, s.db.repairs);
      PublicationsGrow(s.redis.board, s.db.events, db'.events, s.log, s.warm);
      StreamGrows(s.redis.stream, s.db.events, db'.events, s.log, s.warm);
      ConsumersGrow(s.consumers, s.db.events, db'.events, s.log, s.warm);
      DroppersGrow(s.droppers, s.redis.dropped, s.db.applications, db'.applications,
                   s.db.enrollments, db'.enrollments);
    }
  }

  // --- Clearing and acknowledging --------------------------------------------------------------

  lemma ClearBoard(board: Board, events: map<EventId, EventBody>, log: Log, warm: nat, k: nat)
    requires PublicationsOk(board, events, log, warm) && UniqueApps(log) && UniqueRequests(log)
    requires warm <= k < |log| && EventOf(log[k]) in events
    ensures PublicationsOk(Clear(board, log[k]).0, events, log, warm)
    ensures Clear(board, log[k]).1 >= -1
  {
    var r := log[k];
    if r.student in board.pending && board.pending[r.student].app == r.app {
      var key := (r.student, r.request);
      assert PendingOk(board.pending[r.student], r.student, board);
      var mine := (r.student, board.pending[r.student].request);
      assert PublicationOk(board.results[mine], mine, board, events, log, warm);
      assert board.results[mine].streamId == k;
      ClearMine(board, events, log, warm, k);
    }
  }

  lemma ClearMine(board: Board, events: map<EventId, EventBody>, log: Log, warm: nat, k: nat)
    requires PublicationsOk(board, events, log, warm) && UniqueApps(log) && UniqueRequests(log)
    requires warm <= k < |log| && EventOf(log[k]) in events
    requires log[k].student in board.pending && board.pending[log[k].student] == log[k]
    ensures PublicationsOk(Clear(board, log[k]).0, events, log, warm)
    ensures Clear(board, log[k]).1 == 1
  {
    var r := log[k];
    var key := (r.student, r.request);
    assert PublicationOk(board.results[key], key, board, events, log, warm);
    assert board.results[key].streamId == k;
    var board' := Clear(board, r).0;
    forall q | q in board'.results ensures PublicationOk(board'.results[q], q, board', events, log, warm) {
      assert PublicationOk(board.results[q], q, board, events, log, warm);
      if q != key {
        assert board.results[q].streamId != k;
      }
    }
    forall s | s in board'.pending ensures PendingOk(board'.pending[s], s, board') {
      assert PendingOk(board.pending[s], s, board);
    }
  }

  lemma ClearKeeps(s: System, w: nat)
    requires Inv(s) && w in s.consumers && s.consumers[w].Clearing?
    ensures var c := s.consumers[w]; Inv(ClearStep(s, w, c.batch, c.next, c.failed))
  {
    hide Live, DbOk, StreamOk, DroppersOk, ReleasesOk, Clear, Balanced, PublicationsOk;
    var c := s.consumers[w];
    assert ConsumerOk(c, s.db.events, s.log, s.warm);
    if c.next < |c.batch| {
      assert EntryOk(c.batch[c.next], s.log, s.warm);
      ClearBoard(s.redis.board, s.db.events, s.log, s.warm, c.batch[c.next].id);
    }
  }

  lemma SkipClearKeeps(s: System, w: nat)
    requires Inv(s) && w in s.consumers && s.consumers[w].Clearing?
    ensures Inv(SkipClearStep(s, w, s.consumers[w]))
  {
    var c := s.consumers[w];
    InvWorkers(s);
    PhaseOk(s, w);
    hide Inv, BatchOk, BatchSaved;
    SetConsumerKeeps(s, w, Clearing(c.batch, c.next + 1, true));
  }

  /** Acknowledging removes exactly the named entries and keeps the order. */
  lemma {:induction false} WithoutMembers(entries: seq<Entry>, ids: set<nat>)
    requires forall j, k :: 0 <= j < k < |entries| ==> entries[j].id < entries[k].id
    ensures var rest := Without(entries, ids);
            && (forall j, k :: 0 <= j < k < |rest| ==> rest[j].id < rest[k].id)
            && (forall e :: e in rest <==> e in entries && e.id !in ids)
  {
    if entries != [] {
      var n := |entries| - 1;
      WithoutMembers(entries[..n], ids);
      var rest := Without(entries[..n], ids);
      assert entries == entries[..n] + [entries[n]];
      forall j | 0 <= j < |rest| ensures rest[j].id < entries[n].id {
        assert rest[j] in entries[..n];
      }
    }
  }

  lemma AckStream(stream: Stream, events: map<EventId, EventBody>, log: Log, warm: nat, batch: seq<Entry>)
    requires StreamOk(stream, events, log, warm) && BatchOk(batch, log, warm) && BatchSaved(batch, events)
    ensures StreamOk(Acknowledge(stream, EntryIds(batch)), events, log, warm)
  {
    var ids := EntryIds(batch);
    var rest := Without(stream.entries, ids);
    WithoutMembers(stream.entries, ids);
    forall k | 0 <= k < |rest| ensures EntryOk(rest[k], log, warm) {
      assert rest[k] in rest;
      var j :| 0 <= j < |stream.entries| && stream.entries[j] == rest[k];
      assert EntryOk(stream.entries[j], log, warm);
    }
    hide Without;
    forall i | 0 <= i < |log| ensures InStream(rest, i) || EventOf(log[i]) in events {
      AckedOrStays(stream.entries, rest, events, log, warm, batch, i);
    }
  }

  lemma AckedOrStays(
    entries: seq<Entry>, rest: seq<Entry>, events: map<EventId, EventBody>, log: Log, warm: nat, batch: seq<Entry>,
    i: nat)
    requires BatchOk(batch, log, warm) && BatchSaved(batch, events) && i < |log|
    requires forall e :: e in entries && e.id !in EntryIds(batch) ==> e in rest
    requires InStream(entries, i) || EventOf(log[i]) in events
    ensures InStream(rest, i) || EventOf(log[i]) in events
  {
    if i in EntryIds(batch) {
      var j :| 0 <= j < |batch| && batch[j].id == i;
      assert EntryOk(batch[j], log, warm);
    } else if InStream(entries, i) {
      var j :| 0 <= j < |entries| && entries[j].id == i;
      assert entries[j] in rest;
      var k :| 0 <= k < |rest| && rest[k] == entries[j];
    }
  }

  lemma AckKeeps(s: System, w: nat)
    requires Inv(s) && w in s.consumers && s.consumers[w].Acking?
    ensures Inv(SetConsumer(AckStep(s, EntryIds(s.consumers[w].batch)), w, Idle))
  {
    hide Live, DbOk, StreamOk, DroppersOk, ReleasesOk, PublicationsOk, Balanced, LogOk, KeysOk, Acknowledge;
    assert ConsumerOk(s.consumers[w], s.db.events, s.log, s.warm);
    AckStream(s.redis.stream, s.db.events, s.log, s.warm, s.consumers[w].batch);
  }

  lemma SetConsumerKeeps(s: System, w: nat, c: Consumer)
    requires Inv(s) && ConsumerOk(c, s.db.events, s.log, s.warm)
    ensures Inv(SetConsumer(s, w, c))
  {
    hide Live, DbOk, StreamOk, DroppersOk, ReleasesOk, PublicationsOk, StockOk;
  }

  lemma DeliverKeeps(s: System, w: nat, batch: seq<Entry>)
    requires Inv(s) && forall i :: 0 <= i < |batch| ==> batch[i] in s.redis.stream.entries
    ensures Inv(SetConsumer(s, w, Holding(batch)))
  {
    forall i | 0 <= i < |batch| ensures EntryOk(batch[i], s.log, s.warm) {
      assert batch[i] in s.redis.stream.entries;
      var k :| 0 <= k < |s.redis.stream.entries| && s.redis.stream.entries[k] == batch[i];
      assert EntryOk(s.redis.stream.entries[k], s.log, s.warm);
    }
    SetConsumerKeeps(s, w, Holding(batch));
  }

  // --- Dropping --------------------------------------------------------------------------------

  /** The tables after the first drop of an enrolled row. */
  ghost function DroppedTables(db: MySql, t: Enrollment, at: int): MySql
    requires t.id in db.enrollments && QuotaKey(t.round, t.student) in db.quotas
  {
    var key := QuotaKey(t.round, t.student);
    db.(enrollments := db.enrollments[t.id := db.enrollments[t.id].(state := Dropped, activeKey := None)],
        quotas := db.quotas[key := ChargeQuota(db.quotas[key], (-t.credits, -1))],
        deltas := db.deltas + [Delta(DropEvent(t.id), t.teachingClass, -1, None)],
        events := db.events[DropEvent(t.id) := DropBody(t)],
        repairs := db.repairs[t.id := Repair(RepairPending, 0, at)])
  }

  ghost predicate Droppable(db: MySql, t: Enrollment, log: Log, k: nat) {
    && TargetOk(t, db.applications, db.enrollments) && db.enrollments[t.id].state == Enrolled
    && k < |log| && log[k] == db.applications[t.app] && UniqueApps(log) && log[k].credits > 0
  }

  lemma DropAccepted(db: MySql, t: Enrollment, at: int, lim: Limits, log: Log, round: RoundId, k: nat)
    requires DbOk(db, lim, log, round) && Droppable(db, t, log, k)
    requires t.round == round && t.student in lim.credit
    ensures QuotaKey(t.round, t.student) in db.quotas
    ensures Drop(db, t, at) == Ok(DroppedTables(db, t, at))
  {
    var enrolled := EnrolledApps(db.enrollments);
    assert log[k].app in enrolled;
    WeightAtLeast(log, enrolled, k, CreditOf(t.student));
    WeightAtLeast(log, enrolled, k, CourseOf(t.student));
    SaveUnrecorded(db.deltas, db.events, lim, DropEvent(t.id));
    assert Identity(db, t.id) == t;
  }

  lemma DropRows(apps: map<AppId, Selection>, rows: Rows, log: Log, id: EnrollmentId)
    requires RowsOk(apps, rows, log) && id in rows && rows[id].state == Enrolled
    ensures var rows' := rows[id := rows[id].(state := Dropped, activeKey := None)];
            RowsOk(apps, rows', log) && EnrolledApps(rows') == EnrolledApps(rows) - {rows[id].app}
  {
    var rows' := rows[id := rows[id].(state := Dropped, activeKey := None)];
    assert forall e :: e in rows ==> e in rows' && rows'[e].app == rows[e].app;
    forall a | a in apps ensures HasRow(rows', a) {
      var e :| e in rows && rows[e].app == a;
      assert e in rows' && rows'[e].app == a;
    }
    forall x | x in EnrolledApps(rows) - {rows[id].app} ensures x in EnrolledApps(rows') {
      var e :| e in rows && rows[e].state == Enrolled && rows[e].app == x;
      assert rows'[e] == rows[e];
    }
  }

  lemma DropMirror(quotas: map<QuotaKey, Quota>, enrolled: set<AppId>, lim: Limits, log: Log, round: RoundId, k: nat)
    requires MirrorOk(quotas, enrolled, lim, log, round) && UniqueApps(log) && k < |log| && log[k].app in enrolled
    requires log[k].credits > 0 && QuotaKey(round, log[k].student) in quotas
    ensures var key := QuotaKey(round, log[k].student);
            MirrorOk(quotas[key := ChargeQuota(quotas[key], (-log[k].credits, -1))],
                     enrolled - {log[k].app}, lim, log, round)
  {
    forall s {
      WeightRemove(log, enrolled, k, CreditOf(s));
    }
    forall s {
      WeightRemove(log, enrolled, k, CourseOf(s));
    }
  }

  lemma DropCounts(
    classes: map<ClassId, ClassRow>, deltas: seq<Delta>, enrolled: set<AppId>, lim: Limits, log: Log, k: nat,
    event: EventId)
    requires CountsOk(classes, deltas, enrolled, lim, log) && UniqueApps(log) && k < |log| && log[k].app in enrolled
    ensures CountsOk(classes, deltas + [Delta(event, log[k].teachingClass, -1, None)], enrolled - {log[k].app}, lim,
                     log)
  {
    var d := Delta(event, log[k].teachingClass, -1, None);
    var pending := Unprocessed(deltas);
    UnprocessedAppend(deltas, d);
    forall c | c in classes
      ensures classes[c].selectedCount + Net(pending + [d], c) == Weight(log, enrolled - {log[k].app}, SeatOf(c))
      ensures Fits(classes[c], Net(pending + [d], c))
    {
      NetAppend(pending, d, c);
      WeightRemove(log, enrolled, k, SeatOf(c));
      assert Fits(classes[c], Net(pending[..|pending|], c));
      assert pending[..|pending|] == pending;
    }
    AppendFits(classes, pending, d);
  }

  lemma DropEvents(
    apps: map<AppId, Selection>, events: map<EventId, EventBody>, outbox: map<EventId, Selection>, log: Log,
    t: Enrollment)
    requires EventsOk(apps, events, outbox, log)
    ensures EventsOk(apps, events[DropEvent(t.id) := DropBody(t)], outbox, log)
  {
  }

  lemma DropDeltas(deltas: seq<Delta>, events: map<EventId, EventBody>, lim: Limits, t: Enrollment)
    requires DeltasOk(deltas, events, lim) && t.teachingClass in lim.seats
    ensures DeltasOk(deltas + [Delta(DropEvent(t.id), t.teachingClass, -1, None)],
                     events[DropEvent(t.id) := DropBody(t)], lim)
  {
  }

  lemma DropDrops(
    rows: Rows, events: map<EventId, EventBody>, repairs: map<EnrollmentId, Repair>, t: Enrollment, repair: Repair)
    requires DropsOk(rows, events, repairs.Keys) && t.id in rows
    ensures DropsOk(rows[t.id := rows[t.id].(state := Dropped, activeKey := None)],
                    events[DropEvent(t.id) := DropBody(t)], repairs[t.id := repair].Keys)
  {
  }

  lemma DropDb(db: MySql, t: Enrollment, at: int, lim: Limits, log: Log, round: RoundId, k: nat)
    requires DbOk(db, lim, log, round) && Droppable(db, t, log, k) && Describes(t, log[k])
    requires t.app in EnrolledApps(db.enrollments)
    requires t.round == round && t.teachingClass in lim.seats
    requires QuotaKey(t.round, t.student) in db.quotas
    ensures DbOk(DroppedTables(db, t, at), lim, log, round)
  {
    hide RowsOk, EventsOk, DropsOk, DeltasOk, MirrorOk, CountsOk, EnrolledApps, UniqueApps;
    DropRows(db.applications, db.enrollments, log, t.id);
    DropEvents(db.applications, db.events, db.outbox, log, t);
    DropDrops(db.enrollments, db.events, db.repairs, t, Repair(RepairPending, 0, at));
    DropDeltas(db.deltas, db.events, lim, t);
    DropMirror(db.quotas, EnrolledApps(db.enrollments), lim, log, round, k);
    DropCounts(db.classes, db.deltas, EnrolledApps(db.enrollments), lim, log, k, DropEvent(t.id));
  }

  lemma DroppableFacts(db: MySql, t: Enrollment, log: Log, k: nat)
    requires Droppable(db, t, log, k) && RowsOk(db.applications, db.enrollments, log)
    ensures Describes(t, log[k]) && t.app in EnrolledApps(db.enrollments)
  {
  }

  /** A drop's target is one selection of the log. */
  lemma TargetInLog(
    t: Enrollment, apps: map<AppId, Selection>, rows: Rows, log: Log, round: RoundId, term: TermId, lim: Limits)
    returns (k: nat)
    requires TargetOk(t, apps, rows) && RowsOk(apps, rows, log) && LogOk(log, round, term, lim)
    ensures k < |log| && log[k] == apps[t.app] && Describes(t, log[k]) && EntryFits(log[k], round, term, lim)
  {
    assert apps[t.app] in log;
    k :| 0 <= k < |log| && log[k] == apps[t.app];
  }

  lemma DropLive(
    log: Log, rows: Rows, dropped: set<EnrollmentId>, repairs: map<EnrollmentId, Repair>, id: EnrollmentId, at: int)
    requires ReleasesOk(dropped, rows, repairs) && id in rows
    ensures var rows' := rows[id := rows[id].(state := Dropped, activeKey := None)];
            && Live(log, rows', dropped) == Live(log, rows, dropped)
            && ReleasesOk(dropped, rows', repairs[id := Repair(RepairPending, 0, at)])
  {
    var rows' := rows[id := rows[id].(state := Dropped, activeKey := None)];
    assert forall e :: e in rows ==> rows'[e].app == rows[e].app;
    assert ReleasedApps(rows', dropped) == ReleasedApps(rows, dropped);
  }

  lemma DropDroppers(
    droppers: map<nat, Dropper>, dropped: set<EnrollmentId>, apps: map<AppId, Selection>, rows: Rows, id: EnrollmentId)
    requires DroppersOk(droppers, dropped, apps, rows) && id in rows
    ensures DroppersOk(droppers, dropped, apps, rows[id := rows[id].(state := Dropped, activeKey := None)])
  {
    var rows' := rows[id := rows[id].(state := Dropped, activeKey := None)];
    forall d | d in droppers ensures DropperOk(droppers[d], dropped, apps, rows') {
      assert DropperOk(droppers[d], dropped, apps, rows);
    }
  }

  /** The first drop of an enrolled row goes through. */
  lemma DropEnrolled(s: System, t: Enrollment, at: int)
    requires Inv(s) && TargetOk(t, s.db.applications, s.db.enrollments) && s.db.enrollments[t.id].state == Enrolled
    ensures QuotaKey(t.round, t.student) in s.db.quotas
    ensures Drop(s.db, t, at) == Ok(DroppedTables(s.db, t, at))
    ensures DbOk(DroppedTables(s.db, t, at), s.limits, s.log, s.redis.snapshot.round)
  {
    hide DbOk, Balanced, KeysOk, PublicationsOk, StreamOk, ConsumersOk, DroppersOk, ReleasesOk, Live, Drop,
         DroppedTables, EnrolledApps, ValidResult;
    var round, term := s.redis.snapshot.round, s.redis.snapshot.term;
    DbRows(s.db, s.limits, s.log, round);
    var k := TargetInLog(t, s.db.applications, s.db.enrollments, s.log, round, term, s.limits);
    FitsPositive(s.log[k], round, term, s.limits);
    DroppableFacts(s.db, t, s.log, k);
    DropAccepted(s.db, t, at, s.limits, s.log, round, k);
    DropDb(s.db, t, at, s.limits, s.log, round, k);
  }

  lemma DbRows(db: MySql, lim: Limits, log: Log, round: RoundId)
    requires DbOk(db, lim, log, round)
    ensures RowsOk(db.applications, db.enrollments, log)
  {
  }

  lemma FitsPositive(x: Selection, round: RoundId, term: TermId, lim: Limits)
    requires EntryFits(x, round, term, lim)
    ensures x.credits > 0 && x.course != SENTINEL_COURSE
  {
  }

  lemma DropEnrolledKeeps(s: System, d: nat, t: Enrollment, at: int, db': MySql)
    requires Inv(s) && TargetOk(t, s.db.applications, s.db.enrollments) && s.db.enrollments[t.id].state == Enrolled
    requires QuotaKey(t.round, t.student) in s.db.quotas && db' == DroppedTables(s.db, t, at)
    requires DbOk(db', s.limits, s.log, s.redis.snapshot.round)
    ensures Inv(SetDropper(s.(db := db'), d, Persisted(t)))
  {
    hide StockOk, DbOk, PublicationsOk, StreamOk, ConsumersOk, ReleasesOk, Live, Drop;
    assert EventsGrow(s.db.events, db'.events);
    DropLive(s.log, s.db.enrollments, s.redis.dropped, s.db.repairs, t.id, at);
    PublicationsGrow(s.redis.board, s.db.events, db'.events, s.log, s.warm);
    StreamGrows(s.redis.stream, s.db.events, db'.events, s.log, s.warm);
    ConsumersGrow(s.consumers, s.db.events, db'.events, s.log, s.warm);
    DropDroppers(s.droppers, s.redis.dropped, s.db.applications, s.db.enrollments, t.id);
  }

  lemma DropDropped(db: MySql, t: Enrollment, at: int)
    requires TargetOk(t, db.applications, db.enrollments) && db.enrollments[t.id].state == Dropped
    ensures Drop(db, t, at) == Ok(db)
  {
  }

  lemma PersistDropKeeps(s: System, d: nat, t: Enrollment, at: int)
    requires Inv(s) && TargetOk(t, s.db.applications, s.db.enrollments)
    ensures Drop(s.db, t, at).Ok?
    ensures Inv(PersistDropStep(s, d, t, at))
  {
    hide Inv, Drop, DroppedTables, DbOk;
    TargetState(s, t);
    if s.db.enrollments[t.id].state == Enrolled {
      DropEnrolled(s, t, at);
      DropEnrolledKeeps(s, d, t, at, DroppedTables(s.db, t, at));
    } else {
      DropDropped(s.db, t, at);
      SetDropperKeeps(s, d, Persisted(t));
    }
  }

  lemma TargetState(s: System, t: Enrollment)
    requires Inv(s) && TargetOk(t, s.db.applications, s.db.enrollments)
    ensures s.db.enrollments[t.id].state != Completed
  {
    hide StockOk, PublicationsOk, StreamOk, ConsumersOk, DroppersOk, ReleasesOk, Live, EventsOk, DropsOk, DeltasOk,
         MirrorOk, CountsOk;
  }

  lemma SetDropperKeeps(s: System, d: nat, p: Dropper)
    requires Inv(s) && DropperOk(p, s.redis.dropped, s.db.applications, s.db.enrollments)
    ensures Inv(SetDropper(s, d, p))
  {
    hide Live, DbOk, StreamOk, ConsumersOk, ReleasesOk, PublicationsOk, StockOk;
  }

  // --- Releasing -------------------------------------------------------------------------------

  lemma ReleaseLive(apps: map<AppId, Selection>, rows: Rows, log: Log, dropped: set<EnrollmentId>, id: EnrollmentId)
    requires RowsOk(apps, rows, log) && id in rows && id !in dropped
    ensures Live(log, rows, dropped + {id}) == Live(log, rows, dropped) - {rows[id].app}
    ensures rows[id].app in Live(log, rows, dropped)
  {
    LogApps(log);
    assert rows[id].app in apps && apps[rows[id].app] in log;
    assert ReleasedApps(rows, dropped + {id}) == ReleasedApps(rows, dropped) + {rows[id].app};
  }

  lemma GiveBackKeys(stock: Stock, classCells: map<ClassId, set<string>>, lim: Limits, e: Enrollment)
    requires KeysOk(stock, classCells, lim) && StockKeysExist(stock, classCells, e.student, e.teachingClass)
    ensures KeysOk(GiveBack(stock, classCells, e), classCells, lim)
  {
    var stock' := GiveBack(stock, classCells, e);
    assert stock'.courses.Keys == stock.courses.Keys && stock'.cells.Keys == stock.cells.Keys;
  }

  /** The keys a release needs exist as long as the round's students and classes are known. */
  lemma KeysThere(rd: Redis, lim: Limits, log: Log, live: set<AppId>, s: StudentId, c: ClassId)
    requires StockOk(rd, lim, log, live) && s in lim.credit && c in lim.seats
    ensures StockKeysExist(rd.stock, rd.snapshot.classCells, s, c)
  {
    assert SENTINEL_COURSE in rd.stock.courses[s] && SENTINEL_CELL in rd.stock.cells[s];
  }

  lemma ReleaseStock(rd: Redis, lim: Limits, log: Log, live: set<AppId>, t: Enrollment, k: nat)
    requires StockOk(rd, lim, log, live) && k < |log| && Describes(t, log[k]) && log[k].app in live
    requires t.id !in rd.dropped
    ensures StockKeysExist(rd.stock, rd.snapshot.classCells, t.student, t.teachingClass)
    ensures Release(rd, t)
            == (rd.(stock := GiveBack(rd.stock, rd.snapshot.classCells, t), dropped := rd.dropped + {t.id}), 1)
    ensures StockOk(Release(rd, t).0, lim, log, live - {t.app})
  {
    hide CellLedger, QuotaLedger, SeatLedger, CourseLedger, Weight, Live, GiveBack;
    assert EntryFits(log[k], rd.snapshot.round, rd.snapshot.term, lim);
    KeysThere(rd, lim, log, live, t.student, t.teachingClass);
    GiveBackKeys(rd.stock, rd.snapshot.classCells, lim, t);
    GiveBackBalanced(rd.stock, rd.snapshot.classCells, lim, log, live, t, k);
  }

  lemma ReleaseDroppers(
    droppers: map<nat, Dropper>, dropped: set<EnrollmentId>, apps: map<AppId, Selection>, rows: Rows, id: EnrollmentId)
    requires DroppersOk(droppers, dropped, apps, rows)
    ensures DroppersOk(droppers, dropped + {id}, apps, rows)
  {
    forall d | d in droppers ensures DropperOk(droppers[d], dropped + {id}, apps, rows) {
      assert DropperOk(droppers[d], dropped, apps, rows);
    }
  }

  lemma ReleaseReleases(dropped: set<EnrollmentId>, rows: Rows, repairs: map<EnrollmentId, Repair>, id: EnrollmentId)
    requires ReleasesOk(dropped, rows, repairs) && id in rows && rows[id].state == Dropped
    ensures ReleasesOk(dropped + {id}, rows, repairs)
  {
  }

  lemma ReleaseFirstKeeps(s: System, d: nat, t: Enrollment, rd: Redis)
    requires Inv(s) && TargetOk(t, s.db.applications, s.db.enrollments) && s.db.enrollments[t.id].state == Dropped
    requires rd.dropped == s.redis.dropped + {t.id} && rd.snapshot == s.redis.snapshot
    requires rd.board == s.redis.board && rd.stream == s.redis.stream
    requires StockOk(rd, s.limits, s.log, Live(s.log, s.db.enrollments, rd.dropped))
    ensures Inv(SetDropper(s.(redis := rd), d, Released(t)))
  {
    hide StockOk, DbOk, PublicationsOk, StreamOk, ConsumersOk, ReleasesOk, Live;
    ReleaseDroppers(s.droppers, s.redis.dropped, s.db.applications, s.db.enrollments, t.id);
    ReleaseReleases(s.redis.dropped, s.db.enrollments, s.db.repairs, t.id);
  }

  lemma ReleaseAgain(rd: Redis, t: Enrollment)
    requires t.id in rd.dropped
    ensures Release(rd, t) == (rd, 0)
  {
  }

  lemma ReleaseKeeps(s: System, d: nat, t: Enrollment)
    requires Inv(s) && TargetOk(t, s.db.applications, s.db.enrollments) && s.db.enrollments[t.id].state == Dropped
    ensures Release(s.redis, t).1 >= 0
    ensures Inv(ReleaseDropStep(s, d, t))
  {
    hide Inv, Release, StockOk, Live;
    if t.id in s.redis.dropped {
      ReleaseAgain(s.redis, t);
      SetDropperKeeps(s, d, Released(t));
    } else {
      ReleaseFirst(s, t);
      ReleaseFirstKeeps(s, d, t, Release(s.redis, t).0);
    }
  }

  lemma ReleaseFirst(s: System, t: Enrollment)
    requires Inv(s) && TargetOk(t, s.db.applications, s.db.enrollments) && t.id !in s.redis.dropped
    ensures Release(s.redis, t).1 == 1
    ensures var rd := Release(s.redis, t).0;
            && rd.dropped == s.redis.dropped + {t.id} && rd.snapshot == s.redis.snapshot
            && rd.board == s.redis.board && rd.stream == s.redis.stream
            && StockOk(rd, s.limits, s.log, Live(s.log, s.db.enrollments, rd.dropped))
  {
    hide Balanced, KeysOk, PublicationsOk, StreamOk, ConsumersOk, DroppersOk, ReleasesOk, Live, GiveBack, ValidResult,
         EventsOk, DropsOk, DeltasOk, MirrorOk, CountsOk, RowsOk;
    var round, term := s.redis.snapshot.round, s.redis.snapshot.term;
    var k := TargetInLog(t, s.db.applications, s.db.enrollments, s.log, round, term, s.limits);
    ReleaseLive(s.db.applications, s.db.enrollments, s.log, s.redis.dropped, t.id);
    ReleaseStock(s.redis, s.limits, s.log, Live(s.log, s.db.enrollments, s.redis.dropped), t, k);
  }

  lemma RepairKeeps(s: System, d: nat, id: EnrollmentId, repair: Repair)
    requires Inv(s) && id in s.db.repairs && (repair.state == RepairCompleted ==> id in s.redis.dropped)
    ensures Inv(SetDropper(s.(db := s.db.(repairs := s.db.repairs[id := repair])), d, Resting))
  {
    hide StockOk, PublicationsOk, StreamOk, ConsumersOk, Live, RowsOk, EventsOk, DropsOk, DeltasOk, MirrorOk, CountsOk;
    assert s.db.repairs[id := repair].Keys == s.db.repairs.Keys;
  }

  lemma CompleteRepairKeeps(s: System, d: nat, t: Enrollment)
    requires Inv(s) && t.id in s.redis.dropped
    ensures Inv(SetDropper(s.(db := MarkRepairCompleted(s.db, t.id)), d, Resting))
  {
    hide Inv;
    if t.id in s.db.repairs && s.db.repairs[t.id].state == RepairPending {
      RepairKeeps(s, d, t.id, s.db.repairs[t.id].(state := RepairCompleted));
    } else {
      SetDropperKeeps(s, d, Resting);
    }
  }

  lemma PostponeRepairKeeps(s: System, d: nat, t: Enrollment, retryAt: int)
    requires Inv(s)
    ensures Inv(SetDropper(s.(db := MarkRepairFailed(s.db, t.id, retryAt)), d, Resting))
  {
    hide Inv;
    if t.id in s.db.repairs && s.db.repairs[t.id].state == RepairPending {
      RepairKeeps(s, d, t.id,
                  s.db.repairs[t.id].(retryCount := s.db.repairs[t.id].retryCount + 1, nextRetryAt := retryAt));
    } else {
      SetDropperKeeps(s, d, Resting);
    }
  }

  lemma LoadKeeps(s: System, d: nat, id: EnrollmentId)
    requires Inv(s) && id in s.db.enrollments && s.db.enrollments[id].app in s.db.applications
    ensures Inv(SetDropper(s, d, Loaded(Identity(s.db, id))))
    ensures id in s.db.repairs ==> Inv(SetDropper(s, d, Persisted(Identity(s.db, id))))
  {
    assert TargetOk(Identity(s.db, id), s.db.applications, s.db.enrollments);
    SetDropperKeeps(s, d, Loaded(Identity(s.db, id)));
    if id in s.db.repairs {
      SetDropperKeeps(s, d, Persisted(Identity(s.db, id)));
    }
  }

  // --- Counting --------------------------------------------------------------------------------

  lemma ProjectCountsOk(db: MySql, enrolled: set<AppId>, lim: Limits, log: Log, limit: nat, at: int)
    requires CountsOk(db.classes, db.deltas, enrolled, lim, log) && DeltasOk(db.deltas, db.events, lim)
    ensures Project(db, limit, at).Ok?
    ensures var db' := Project(db, limit, at).value; CountsOk(db'.classes, db'.deltas, enrolled, lim, log)
  {
    ProjectSafe(db, limit, at);
    hide PrefixesFit, Unprocessed, Net, Weight;
    forall c | c in db.classes {
      ProjectedCount(db, limit, at, c);
    }
  }

  lemma ProjectDeltasOk(db: MySql, lim: Limits, limit: nat, at: int)
    requires DeltasOk(db.deltas, db.events, lim) && Project(db, limit, at).Ok?
    ensures DeltasOk(Project(db, limit, at).value.deltas, db.events, lim)
  {
    MarkFirstSame(db.deltas, limit, at);
  }

  lemma ProjectDb(db: MySql, lim: Limits, log: Log, round: RoundId, limit: nat, at: int)
    requires DbOk(db, lim, log, round)
    ensures Project(db, limit, at).Ok?
    ensures DbOk(Project(db, limit, at).value, lim, log, round)
  {
    hide RowsOk, EventsOk, DropsOk, MirrorOk, CountsOk, DeltasOk;
    ProjectCountsOk(db, EnrolledApps(db.enrollments), lim, log, limit, at);
    ProjectDeltasOk(db, lim, limit, at);
  }

  lemma ProjectKeeps(s: System, limit: nat, at: int)
    requires Inv(s)
    ensures Project(s.db, limit, at).Ok?
    ensures Inv(ProjectStep(s, limit, at))
  {
    ProjectDb(s.db, s.limits, s.log, s.redis.snapshot.round, limit, at);
    hide StockOk, DbOk, PublicationsOk, StreamOk, ConsumersOk, DroppersOk, ReleasesOk, Live;
  }

  lemma PurgeKeeps(s: System, before: int, limit: nat)
    requires Inv(s)
    ensures Inv(s.(db := s.db.(deltas := Purge(s.db.deltas, before, limit))))
  {
    PurgeDb(s.db, s.limits, s.log, s.redis.snapshot.round, before, limit);
    hide StockOk, DbOk, PublicationsOk, StreamOk, ConsumersOk, DroppersOk, ReleasesOk, Live;
  }

  lemma PurgeDb(db: MySql, lim: Limits, log: Log, round: RoundId, before: int, limit: nat)
    requires DbOk(db, lim, log, round)
    ensures DbOk(db.(deltas := Purge(db.deltas, before, limit)), lim, log, round)
  {
    hide RowsOk, EventsOk, DropsOk, MirrorOk;
    PurgeKeepsPending(db.deltas, before, limit);
    var deltas' := Purge(db.deltas, before, limit);
    forall i | 0 <= i < |deltas'| ensures deltas'[i].event in db.events && deltas'[i].teachingClass in lim.seats {
      assert deltas'[i] in db.deltas;
    }
  }

  // --- Every step ------------------------------------------------------------------------------

  lemma PhaseOk(s: System, w: nat)
    requires ConsumersOk(s.consumers, s.db.events, s.log, s.warm)
    ensures ConsumerOk(Phase(s.consumers, w), s.db.events, s.log, s.warm)
  {
  }

  lemma ProgressOk(s: System, d: nat)
    requires DroppersOk(s.droppers, s.redis.dropped, s.db.applications, s.db.enrollments)
    ensures DropperOk(Progress(s.droppers, d), s.redis.dropped, s.db.applications, s.db.enrollments)
  {
  }

  lemma HeldValid(s: System, w: nat)
    requires Inv(s) && Phase(s.consumers, w).Holding?
    ensures WellFormed(Phase(s.consumers, w).batch) == Phase(s.consumers, w).batch
    ensures forall e :: e in Phase(s.consumers, w).batch ==> ValidResult(e.event)
  {
    PhaseOk(s, w);
    var batch := Phase(s.consumers, w).batch;
    AllWellFormed(batch, s.log, s.warm, s.redis.snapshot.round, s.redis.snapshot.term, s.limits);
    forall e | e in batch ensures ValidResult(e.event) {
      var i :| 0 <= i < |batch| && batch[i] == e;
      assert EntryOk(batch[i], s.log, s.warm);
      assert EntryFits(s.log[e.id], s.redis.snapshot.round, s.redis.snapshot.term, s.limits);
    }
  }

  lemma ConsumerStepKeeps(s: System, a: Action)
    requires Inv(s) && Enabled(s, a)
    requires a.Deliver? || a.DiscardMalformed? || a.Save? || a.ClearPending? || a.SkipClear? || a.Ack?
          || a.IsolatedSave? || a.IsolatedClear? || a.IsolatedAck? || a.StopConsumer?
    ensures Inv(Apply(s, a))
  {
    hide Inv, ValidResult, FreshIds, SaveStep, ClearStep, SkipClearStep, AckStep, EntryIds, SetConsumer;
    assert ConsumersOk(s.consumers, s.db.events, s.log, s.warm) by { InvWorkers(s); }
    PhaseOk(s, a.w);
    match a {
      case Deliver(w, batch) => DeliverKeeps(s, w, batch);
      case DiscardMalformed(w, entry) => HeldValid(s, w);
      case Save(w, ids) =>
        HeldValid(s, w);
        SaveKeeps(s, w, Phase(s.consumers, w).batch, ids);
      case ClearPending(w) => ClearKeeps(s, w);
      case SkipClear(w) => SkipClearKeeps(s, w);
      case Ack(w) => AckKeeps(s, w);
      case StopConsumer(w) => SetConsumerKeeps(s, w, Idle);
      case _ =>
    }
  }

  lemma InvWorkers(s: System)
    requires Inv(s)
    ensures ConsumersOk(s.consumers, s.db.events, s.log, s.warm)
    ensures DroppersOk(s.droppers, s.redis.dropped, s.db.applications, s.db.enrollments)
  {
  }

  lemma DropperStepKeeps(s: System, a: Action)
    requires Inv(s) && Enabled(s, a)
    requires a.LoadDrop? || a.LoadRepair? || a.PersistDrop? || a.ReleaseDrop? || a.CompleteRepair?
          || a.PostponeRepair? || a.StopDropper?
    ensures Inv(Apply(s, a))
  {
    hide Inv, PersistDropStep, ReleaseDropStep, MarkRepairCompleted, MarkRepairFailed, SetDropper, TargetOk;
    assert DroppersOk(s.droppers, s.redis.dropped, s.db.applications, s.db.enrollments) by { InvWorkers(s); }
    ProgressOk(s, a.d);
    match a {
      case LoadDrop(d, id, _) => LoadKeeps(s, d, id);
      case LoadRepair(d, id) => LoadKeeps(s, d, id);
      case PersistDrop(d, at) => PersistDropKeeps(s, d, Progress(s.droppers, d).target, at);
      case ReleaseDrop(d) => ReleaseKeeps(s, d, Progress(s.droppers, d).target);
      case CompleteRepair(d) => CompleteRepairKeeps(s, d, Progress(s.droppers, d).target);
      case PostponeRepair(d, retryAt) => PostponeRepairKeeps(s, d, Progress(s.droppers, d).target, retryAt);
      case StopDropper(d) => SetDropperKeeps(s, d, Resting);
    }
  }

  /** The invariant is inductive. */
  lemma StepKeeps(s: System, a: Action)
    requires Inv(s) && Enabled(s, a)
    ensures Inv(Apply(s, a))
  {
    match a {
      case OpenRound => OpenKeeps(s);
      case Select(r, expected, now) => SelectKeeps(s, r, expected, now);
      case ProjectCounts(limit, at) => ProjectKeeps(s, limit, at);
      case PurgeDeltas(before, limit) => PurgeKeeps(s, before, limit);
      case Deliver(_, _) => ConsumerStepKeeps(s, a);
      case DiscardMalformed(_, _) => ConsumerStepKeeps(s, a);
      case Save(_, _) => ConsumerStepKeeps(s, a);
      case ClearPending(_) => ConsumerStepKeeps(s, a);
      case SkipClear(_) => ConsumerStepKeeps(s, a);
      case Ack(_) => ConsumerStepKeeps(s, a);
      case IsolatedSave(_, _) => ConsumerStepKeeps(s, a);
      case IsolatedClear(_) => ConsumerStepKeeps(s, a);
      case IsolatedAck(_) => ConsumerStepKeeps(s, a);
      case StopConsumer(_) => ConsumerStepKeeps(s, a);
      case _ => DropperStepKeeps(s, a);
    }
  }

  lemma {:induction false} RunKeeps(run: seq<System>, n: nat)
    requires IsRun(run) && n < |run|
    ensures Inv(run[n])
  {
    hide Inv, Enabled, Apply, Init;
    if n == 0 {
      InitKeeps(run[0]);
    } else {
      RunKeeps(run, n - 1);
      assert Next(run[n - 1], run[n - 1 + 1]);
      var a: Action :| Enabled(run[n - 1], a) && run[n] == Apply(run[n - 1], a);
      StepKeeps(run[n - 1], a);
    }
  }

  /** The invariant holds in every state of every run. */
  lemma ReachableKeeps(s: System)
    requires Reachable(s)
    ensures Inv(s)
  {
    hide Inv, Init, Next;
    var run :| IsRun(run) && run[|run| - 1] == s;
    RunKeeps(run, |run| - 1);
  }
}
