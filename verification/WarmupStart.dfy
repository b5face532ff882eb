/** A completed warmup over consistent tables is a correct start of the selection protocol. */
module WarmupStart {
  import opened Types
  import opened Ledger
  import opened RedisScripts
  import opened RedisLedger
  import opened MySqlTables
  import opened CountProjection
  import opened SelectionSystem
  import opened SelectionProofs
  import opened Schedule
  import opened Warmup
  import opened Admission

  /** The enrollments that the warmup query lists for a student. */
  ghost function EnrollmentsOf(log: Log, live: set<AppId>, timetable: Timetable, s: StudentId): seq<WarmEnrollment>
    requires forall i :: 0 <= i < |log| ==> log[i].teachingClass in timetable
  {
    if log == [] then []
    else
      var x := log[|log| - 1];
      var rest := EnrollmentsOf(log[..|log| - 1], live, timetable, s);
      if x.app in live && x.student == s
      then rest + [WarmEnrollment(x.app, x.course, x.teachingClass, timetable[x.teachingClass])] else rest
  }

  /** No student is enrolled twice in a course. */
  ghost predicate DistinctCourses(log: Log, live: set<AppId>) {
    forall i, j ::
      0 <= i < j < |log| && log[i].app in live && log[j].app in live && log[i].student == log[j].student ==>
        log[i].course != log[j].course
  }

  ghost predicate ClassAgrees(c: WarmClass, lim: Limits, log: Log, live: set<AppId>, timetable: Timetable) {
    && c.id in lim.seats && lim.seats[c.id] == c.capacity && WritableClass(c)
    && c.selectedCount == Weight(log, live, SeatOf(c.id))
    && c.id in timetable && timetable[c.id] == c.schedules
  }

  ghost predicate StudentAgrees(st: WarmStudent, lim: Limits, log: Log, live: set<AppId>, timetable: Timetable)
    requires forall i :: 0 <= i < |log| ==> log[i].teachingClass in timetable
  {
    var id := st.profile.id;
    && id in lim.credit && lim.credit[id] == st.quota.creditLimit
    && id in lim.courses && lim.courses[id] == st.quota.courseLimit
    && st.quota.selectedCredits == Weight(log, live, CreditOf(id))
    && st.quota.selectedCourses == Weight(log, live, CourseOf(id))
    && st.enrollments == EnrollmentsOf(log, live, timetable, id)
  }

  /**
    The listed classes and students agree with the live part of the log, as they do when no delta, drop or
    stream entry is open.
   */
  ghost predicate TablesAgree(
    classes: seq<WarmClass>, students: seq<WarmStudent>, lim: Limits, log: Log, live: set<AppId>, round: RoundId,
    term: TermId, timetable: Timetable)
  {
    && LogOk(log, round, term, lim) && DistinctCourses(log, live)
    && timetable.Keys == lim.seats.Keys == ClassIds(classes)
    && lim.credit.Keys == lim.courses.Keys == ProfileIds(students)
    && (forall i :: 0 <= i < |classes| ==> ClassAgrees(classes[i], lim, log, live, timetable))
    && (forall i :: 0 <= i < |log| ==> log[i].teachingClass in timetable)
    && (forall i :: 0 <= i < |students| ==> StudentAgrees(students[i], lim, log, live, timetable))
  }

  lemma {:induction false} CoveringIsWeight(
    log: Log, live: set<AppId>, timetable: Timetable, classCells: map<ClassId, set<string>>, s: StudentId,
    cell: string)
    requires forall i :: 0 <= i < |log| ==> log[i].teachingClass in timetable
    requires Writes(classCells, timetable)
    ensures Covering(EnrollmentsOf(log, live, timetable, s), cell) == Weight(log, live, CellOf(classCells, s, cell))
  {
    if log != [] {
      var n := |log| - 1;
      CoveringIsWeight(log[..n], live, timetable, classCells, s, cell);
      var x := log[n];
      CoversMeansSlot(classCells, timetable, x.teachingClass, cell);
      hide Writes, CoversCell;
      if x.app in live && x.student == s {
        CoveringAppend(EnrollmentsOf(log[..n], live, timetable, s),
                       WarmEnrollment(x.app, x.course, x.teachingClass, timetable[x.teachingClass]), cell);
      }
    }
  }

  lemma CourseHashAppend(enrollments: seq<WarmEnrollment>, e: WarmEnrollment)
    ensures CourseHash(enrollments + [e]) == CourseHash(enrollments)[e.course := e.app]
  {
    assert (enrollments + [e])[..|enrollments|] == enrollments;
  }

  /** The course hash of one student against the whole log. */
  ghost predicate HashOf(hash: map<CourseId, AppId>, log: Log, live: set<AppId>, s: StudentId) {
    && SENTINEL_COURSE in hash
    && (forall i :: 0 <= i < |log| && log[i].app in live && log[i].student == s ==>
          log[i].course in hash && hash[log[i].course] == log[i].app)
    && (forall c :: c in hash && c != SENTINEL_COURSE ==> Taken(log, live, s, c))
  }

  /** The course hash holds the sentinel and the student's enrolled courses, each with its application. */
  lemma {:induction false} CourseHashEntries(log: Log, live: set<AppId>, timetable: Timetable, s: StudentId)
    requires forall i :: 0 <= i < |log| ==> log[i].teachingClass in timetable && log[i].course != SENTINEL_COURSE
    requires DistinctCourses(log, live)
    ensures HashOf(CourseHash(EnrollmentsOf(log, live, timetable, s)), log, live, s)
  {
    if log != [] {
      var n := |log| - 1;
      CourseHashEntries(log[..n], live, timetable, s);
      var x := log[n];
      var rest := EnrollmentsOf(log[..n], live, timetable, s);
      assert forall i :: 0 <= i < n ==> log[..n][i] == log[i];
      var hash := CourseHash(EnrollmentsOf(log, live, timetable, s));
      if x.app in live && x.student == s {
        CourseHashAppend(rest, WarmEnrollment(x.app, x.course, x.teachingClass, timetable[x.teachingClass]));
        assert hash == CourseHash(rest)[x.course := x.app];
      }
      forall c | c in hash && c != SENTINEL_COURSE ensures Taken(log, live, s, c) {
        if x.app in live && x.student == s && c == x.course {
          assert log[n].course == c;
        } else {
          assert Taken(log[..n], live, s, c);
          var i :| 0 <= i < n && log[..n][i].app in live && log[..n][i].student == s && log[..n][i].course == c;
          assert log[i].course == c;
        }
      }
    }
  }

  lemma StudentAt(students: seq<WarmStudent>, s: StudentId) returns (i: nat)
    requires s in ProfileIds(students)
    ensures i < |students| && students[i].profile.id == s
  {
    i :| 0 <= i < |students| && students[i].profile.id == s;
  }

  lemma ClassAt(classes: seq<WarmClass>, c: ClassId) returns (i: nat)
    requires c in ClassIds(classes)
    ensures i < |classes| && classes[i].id == c
  {
    i :| 0 <= i < |classes| && classes[i].id == c;
  }

  ghost predicate ClassesLoaded(classes: seq<WarmClass>, rd: Redis) {
    ClassesWritten(classes, ClassKeys(map[], map[], map[]),
                   ClassKeys(rd.snapshot.classes, rd.stock.seat, rd.snapshot.classCells))
  }

  ghost predicate StudentsLoaded(students: seq<WarmStudent>, classes: seq<WarmClass>, rd: Redis) {
    Indexed(students, classes, rd.snapshot.eligible, rd.stock)
      && KeysAre(ProfileIds(students), rd.snapshot.eligible, rd.stock)
  }

  lemma LoadedSeats(
    classes: seq<WarmClass>, students: seq<WarmStudent>, lim: Limits, log: Log, live: set<AppId>, rd: Redis,
    timetable: Timetable)
    requires TablesAgree(classes, students, lim, log, live, rd.snapshot.round, rd.snapshot.term, timetable)
    requires ClassesLoaded(classes, rd)
    ensures SeatLedger(rd.stock, lim, log, live) && Writes(rd.snapshot.classCells, timetable)
  {
    hide LogOk, StudentAgrees, CellsOf, AllValid, Weight, DistinctCourses;
    assert rd.stock.seat.Keys == ClassIds(classes) && rd.snapshot.classCells.Keys == ClassIds(classes);
    forall c | c in ClassIds(classes)
      ensures rd.stock.seat[c] >= 0 && rd.stock.seat[c] == lim.seats[c] - Weight(log, live, SeatOf(c))
      ensures AllValid(timetable[c]) && SENTINEL_CELL in rd.snapshot.classCells[c]
      ensures CellsOf(rd.snapshot.classCells[c] - {SENTINEL_CELL}, timetable[c])
    {
      var i := ClassAt(classes, c);
      assert ClassAgrees(classes[i], lim, log, live, timetable);
      assert ClassWritten(classes[i], rd.snapshot.classes, rd.stock.seat, rd.snapshot.classCells);
    }
  }

  /** What Redis holds for one student after the warmup. */
  ghost predicate Record(stock: Stock, lim: Limits, log: Log, live: set<AppId>, timetable: Timetable, s: StudentId) {
    && (forall i :: 0 <= i < |log| ==> log[i].teachingClass in timetable)
    && s in lim.courses && s in lim.credit
    && s in stock.credit && stock.credit[s] == lim.credit[s] - Weight(log, live, CreditOf(s)) >= 0
    && s in stock.courseQuota && stock.courseQuota[s] == lim.courses[s] - Weight(log, live, CourseOf(s)) >= 0
    && s in stock.courses && stock.courses[s] == CourseHash(EnrollmentsOf(log, live, timetable, s))
    && s in stock.cells && CellHash(stock.cells[s], EnrollmentsOf(log, live, timetable, s))
  }

  ghost predicate Records(stock: Stock, lim: Limits, log: Log, live: set<AppId>, timetable: Timetable) {
    && stock.credit.Keys == stock.courseQuota.Keys == stock.courses.Keys == stock.cells.Keys
       == lim.credit.Keys == lim.courses.Keys
    && forall s :: s in lim.credit ==> Record(stock, lim, log, live, timetable, s)
  }

  lemma LoadedRecords(
    classes: seq<WarmClass>, students: seq<WarmStudent>, lim: Limits, log: Log, live: set<AppId>, rd: Redis,
    timetable: Timetable)
    requires TablesAgree(classes, students, lim, log, live, rd.snapshot.round, rd.snapshot.term, timetable)
    requires StudentsLoaded(students, classes, rd)
    ensures Records(rd.stock, lim, log, live, timetable)
  {
    hide LogOk, ClassAgrees, CellHash, CourseHash, Weight, Allowed, DistinctCourses, EnrollmentsOf;
    forall s | s in lim.credit ensures Record(rd.stock, lim, log, live, timetable, s) {
      var i := StudentAt(students, s);
      assert StudentAgrees(students[i], lim, log, live, timetable);
      assert StudentWritten(students[i].profile.id, Allowed(students[i], classes), students[i].quota,
                            students[i].enrollments, rd.snapshot.eligible, rd.stock);
    }
  }

  lemma RecordCells(
    stock: Stock, lim: Limits, log: Log, live: set<AppId>, classCells: map<ClassId, set<string>>,
    timetable: Timetable, s: StudentId, cell: string)
    requires Record(stock, lim, log, live, timetable, s) && Writes(classCells, timetable) && cell != SENTINEL_CELL
    ensures Count(stock.cells[s], cell) == Weight(log, live, CellOf(classCells, s, cell))
  {
    CoveringIsWeight(log, live, timetable, classCells, s, cell);
  }

  lemma LoadedCells(
    stock: Stock, lim: Limits, log: Log, live: set<AppId>, classCells: map<ClassId, set<string>>, timetable: Timetable)
    requires Records(stock, lim, log, live, timetable) && Writes(classCells, timetable)
    ensures CellLedger(stock.cells, classCells, log, live)
  {
    forall s | s in stock.cells
      ensures SENTINEL_CELL in stock.cells[s] && stock.cells[s][SENTINEL_CELL] == 0
      ensures forall cell :: cell in stock.cells[s] && cell != SENTINEL_CELL ==> stock.cells[s][cell] > 0
    {
      assert Record(stock, lim, log, live, timetable, s);
    }
    hide Record, Weight, Writes, CellHash, CourseHash;
    forall s, cell | s in stock.cells && cell != SENTINEL_CELL
      ensures Count(stock.cells[s], cell) == Weight(log, live, CellOf(classCells, s, cell))
    {
      RecordCells(stock, lim, log, live, classCells, timetable, s, cell);
    }
  }

  lemma LogFacts(log: Log, round: RoundId, term: TermId, lim: Limits)
    requires LogOk(log, round, term, lim)
    ensures forall i :: 0 <= i < |log| ==> log[i].course != SENTINEL_COURSE && log[i].student in lim.credit
  {
    forall i | 0 <= i < |log| ensures log[i].course != SENTINEL_COURSE && log[i].student in lim.credit {
      assert EntryFits(log[i], round, term, lim);
    }
  }

  lemma RecordCourses(stock: Stock, lim: Limits, log: Log, live: set<AppId>, timetable: Timetable, s: StudentId)
    requires Record(stock, lim, log, live, timetable, s) && DistinctCourses(log, live)
    requires forall i :: 0 <= i < |log| ==> log[i].course != SENTINEL_COURSE
    ensures HashOf(stock.courses[s], log, live, s)
  {
    CourseHashEntries(log, live, timetable, s);
  }

  lemma HashesLedger(courses: map<StudentId, map<CourseId, AppId>>, log: Log, live: set<AppId>)
    requires forall s :: s in courses ==> HashOf(courses[s], log, live, s)
    requires forall i :: 0 <= i < |log| ==> log[i].student in courses
    ensures CourseLedger(courses, log, live)
  {
    hide Taken;
    forall i | 0 <= i < |log| && log[i].app in live
      ensures log[i].course in courses[log[i].student] && courses[log[i].student][log[i].course] == log[i].app
    {
      assert HashOf(courses[log[i].student], log, live, log[i].student);
    }
    forall s, c | s in courses && c in courses[s] && c != SENTINEL_COURSE ensures Taken(log, live, s, c) {
      assert HashOf(courses[s], log, live, s);
    }
  }

  lemma LoadedCourses(
    stock: Stock, lim: Limits, log: Log, live: set<AppId>, timetable: Timetable, round: RoundId, term: TermId)
    requires Records(stock, lim, log, live, timetable) && DistinctCourses(log, live) && LogOk(log, round, term, lim)
    ensures CourseLedger(stock.courses, log, live)
  {
    LogFacts(log, round, term, lim);
    hide Record, LogOk, DistinctCourses, HashOf, CourseLedger;
    forall s | s in stock.courses ensures HashOf(stock.courses[s], log, live, s) {
      RecordCourses(stock, lim, log, live, timetable, s);
    }
    HashesLedger(stock.courses, log, live);
  }

  lemma LoadedQuotas(stock: Stock, lim: Limits, log: Log, live: set<AppId>, timetable: Timetable)
    requires Records(stock, lim, log, live, timetable)
    ensures QuotaLedger(stock, lim, log, live)
  {
    hide Weight, CellHash, CourseHash, EnrollmentsOf;
    forall s | s in lim.credit
      ensures stock.credit[s] >= 0 && stock.credit[s] == lim.credit[s] - Weight(log, live, CreditOf(s))
      ensures stock.courseQuota[s] >= 0 && stock.courseQuota[s] == lim.courses[s] - Weight(log, live, CourseOf(s))
    {
      assert Record(stock, lim, log, live, timetable, s);
    }
  }

  /** The written keys are balanced: every counter is its limit minus what the enrolled selections take. */
  lemma WarmupBalances(
    classes: seq<WarmClass>, students: seq<WarmStudent>, lim: Limits, log: Log, live: set<AppId>, rd: Redis,
    timetable: Timetable)
    requires TablesAgree(classes, students, lim, log, live, rd.snapshot.round, rd.snapshot.term, timetable)
    requires ClassesLoaded(classes, rd) && StudentsLoaded(students, classes, rd)
    ensures StockOk(rd, lim, log, live) && Writes(rd.snapshot.classCells, timetable)
  {
    LoadedSeats(classes, students, lim, log, live, rd, timetable);
    LoadedKeys(classes, students, lim, log, live, rd, timetable);
    LoadedRecords(classes, students, lim, log, live, rd, timetable);
    hide ClassAgrees, StudentAgrees, StudentsLoaded, ClassesLoaded, KeysOk, LogOk, SeatLedger, QuotaLedger,
         CourseLedger, CellLedger, Writes, Records, DistinctCourses;
    LoadedQuotas(rd.stock, lim, log, live, timetable);
    LoadedCourses(rd.stock, lim, log, live, timetable, rd.snapshot.round, rd.snapshot.term);
    LoadedCells(rd.stock, lim, log, live, rd.snapshot.classCells, timetable);
  }

  lemma LoadedKeys(
    classes: seq<WarmClass>, students: seq<WarmStudent>, lim: Limits, log: Log, live: set<AppId>, rd: Redis,
    timetable: Timetable)
    requires TablesAgree(classes, students, lim, log, live, rd.snapshot.round, rd.snapshot.term, timetable)
    requires StudentsLoaded(students, classes, rd) && Writes(rd.snapshot.classCells, timetable)
    ensures KeysOk(rd.stock, rd.snapshot.classCells, lim) && LogOk(log, rd.snapshot.round, rd.snapshot.term, lim)
  {
    hide LogOk, ClassAgrees, StudentAgrees, Indexed, CellsOf, AllValid, DistinctCourses;
  }

  /** The versioned snapshot is what the admission theorem assumes, and eligibility is what the policy allows. */
  lemma WarmupSnapshot(
    classes: seq<WarmClass>, students: seq<WarmStudent>, lim: Limits, log: Log, live: set<AppId>, rd: Redis,
    timetable: Timetable)
    requires TablesAgree(classes, students, lim, log, live, rd.snapshot.round, rd.snapshot.term, timetable)
    requires ClassesLoaded(classes, rd) && StudentsLoaded(students, classes, rd)
    requires rd.snapshot.term != 0 && ZERO_TIME < rd.snapshot.startMs
    requires forall i :: 0 <= i < |classes| ==> classes[i].course != 0 && classes[i].credits > 0
    ensures WarmSnapshot(rd.snapshot, lim)
    ensures forall i :: 0 <= i < |students| ==>
              && students[i].profile.id in rd.snapshot.eligible
              && rd.snapshot.eligible[students[i].profile.id] == Allowed(students[i], classes)
  {
    hide LogOk, StudentAgrees, CellsOf, Weight, DistinctCourses, CellHash, CourseHash, Allowed;
    forall c | c in rd.snapshot.classes
      ensures rd.snapshot.classes[c].course != 0 && rd.snapshot.classes[c].credits > 0
      ensures rd.snapshot.classes[c].capacity == lim.seats[c]
    {
      var i := ClassAt(classes, c);
      assert ClassAgrees(classes[i], lim, log, live, timetable);
      assert ClassWritten(classes[i], rd.snapshot.classes, rd.stock.seat, rd.snapshot.classCells);
    }
  }

  // --- The warmup as a whole -------------------------------------------------------------------

  /** The lists are what the warmup queries read from the tables. */
  ghost predicate ReadFrom(db: MySql, classes: seq<WarmClass>, students: seq<WarmStudent>, round: RoundId) {
    && db.classes.Keys == ClassIds(classes)
    && (forall i :: 0 <= i < |classes| ==>
          classes[i].id in db.classes
            && db.classes[classes[i].id] == ClassRow(classes[i].capacity, classes[i].selectedCount))
    && (forall i :: 0 <= i < |students| ==>
          && QuotaKey(round, students[i].profile.id) in db.quotas
          && db.quotas[QuotaKey(round, students[i].profile.id)] == students[i].quota)
  }

  /** Every result of the log is saved and nothing is open: no delta, no unreleased drop, no pending repair. */
  ghost predicate TablesClosed(db: MySql, log: Log, lim: Limits, dropped: set<EnrollmentId>) {
    && RowsOk(db.applications, db.enrollments, log) && EventsOk(db.applications, db.events, db.outbox, log)
    && (forall i :: 0 <= i < |log| ==> EventOf(log[i]) in db.events)
    && DropsOk(db.enrollments, db.events, db.repairs.Keys) && ReleasesOk(dropped, db.enrollments, db.repairs)
    && DropsClosed(db.enrollments, dropped, db.repairs)
    && DeltasOk(db.deltas, db.events, lim) && Unprocessed(db.deltas) == []
  }

  lemma ReadMirror(
    db: MySql, classes: seq<WarmClass>, students: seq<WarmStudent>, lim: Limits, log: Log, live: set<AppId>,
    round: RoundId, term: TermId, timetable: Timetable)
    requires TablesAgree(classes, students, lim, log, live, round, term, timetable)
    requires ReadFrom(db, classes, students, round)
    ensures MirrorOk(db.quotas, live, lim, log, round)
  {
    hide LogOk, DistinctCourses, ClassAgrees, Weight, EnrollmentsOf;
    forall u | u in lim.credit
      ensures var key := QuotaKey(round, u);
              && u in lim.courses && key in db.quotas
              && db.quotas[key].creditLimit == lim.credit[u] && db.quotas[key].courseLimit == lim.courses[u]
              && db.quotas[key].selectedCredits == Weight(log, live, CreditOf(u))
              && db.quotas[key].selectedCourses == Weight(log, live, CourseOf(u))
    {
      var i := StudentAt(students, u);
      assert StudentAgrees(students[i], lim, log, live, timetable);
    }
  }

  lemma ReadClasses(
    db: MySql, classes: seq<WarmClass>, students: seq<WarmStudent>, lim: Limits, log: Log, live: set<AppId>,
    round: RoundId, term: TermId, timetable: Timetable)
    requires TablesAgree(classes, students, lim, log, live, round, term, timetable)
    requires ReadFrom(db, classes, students, round)
    ensures ClassesCount(db.classes, live, lim, log)
  {
    hide LogOk, DistinctCourses, StudentAgrees, Weight, WritableClass;
    forall c | c in db.classes
      ensures db.classes[c].capacity == lim.seats[c] && db.classes[c].selectedCount == Weight(log, live, SeatOf(c))
    {
      var i := ClassAt(classes, c);
      assert ClassAgrees(classes[i], lim, log, live, timetable);
    }
  }

  /** The protocol before its first step. */
  ghost function Started(lim: Limits, log: Log, db: MySql, rd: Redis): System {
    System.System(lim, |log|, log, rd, db, map[], map[])
  }

  /**
    A warmup that loaded the lists of closed tables is a start of the protocol, enrollments and earlier drops
    included.
   */
  lemma WarmupIsStart(
    classes: seq<WarmClass>, students: seq<WarmStudent>, lim: Limits, log: Log, rd: Redis, db: MySql,
    timetable: Timetable)
    requires TablesClosed(db, log, lim, rd.dropped)
    requires TablesAgree(classes, students, lim, log, EnrolledApps(db.enrollments), rd.snapshot.round, rd.snapshot.term,
                         timetable)
    requires ReadFrom(db, classes, students, rd.snapshot.round)
    requires ClassesLoaded(classes, rd) && StudentsLoaded(students, classes, rd)
    requires rd.board == Board(map[], map[], map[]) && rd.stream == Stream([], |log|, [])
    ensures Init(Started(lim, log, db, rd))
  {
    var live := EnrolledApps(db.enrollments);
    var round, term := rd.snapshot.round, rd.snapshot.term;
    SavedAndReleased(db.applications, db.enrollments, db.events, db.outbox, log, rd.dropped, db.repairs);
    hide TablesAgree, ReadFrom, ClassesLoaded, StudentsLoaded, RowsOk, EventsOk, DropsOk, ReleasesOk, DropsClosed,
         DeltasOk, EnrolledApps, Live, StockOk, MirrorOk, ClassesCount, Unprocessed, Writes;
    WarmupBalances(classes, students, lim, log, live, rd, timetable);
    ReadMirror(db, classes, students, lim, log, live, round, term, timetable);
    ReadClasses(db, classes, students, lim, log, live, round, term, timetable);
  }

  datatype RoundInfo = RoundInfo(round: RoundId, term: TermId, startMs: int, endMs: int)

  /** Redis after the index has been filled and activated under its version. */
  function Activated(
    info: RoundInfo, version: string, classes: ClassKeys, eligible: map<StudentId, set<ClassId>>, stock: Stock,
    results: nat, dropped: set<EnrollmentId>): Redis
  {
    Redis(Snapshot(version, info.round, info.term, info.startMs, info.endMs, classes.classes, classes.cells, eligible),
          Some(version), None, stock, Board(map[], map[], map[]), Stream([], results, []), dropped)
  }

  /** Fills an empty index: the classes, then every page of students. */
  method FillIndex(index: EligibilityIndex, classes: seq<WarmClass>, students: seq<WarmStudent>, pageSize: nat)
    returns (ok: bool, visited: seq<StudentId>)
    requires DistinctClasses(classes) && Ascending(students) && pageSize > 0
    requires index.classes == map[] && index.seat == map[] && index.classCells == map[]
    requires KeysAre({}, index.eligible, index.StockValue())
    modifies index
    ensures ok <==> classes != [] && students != [] && AllWritable(students)
                    && forall i :: 0 <= i < |classes| ==> WritableClass(classes[i])
    ensures ok ==> visited == Warmup.Ids(students)
    ensures ok ==> ClassesWritten(classes, ClassKeys(map[], map[], map[]),
                                  ClassKeys(index.classes, index.seat, index.classCells))
    ensures ok ==> Indexed(students, classes, index.eligible, index.StockValue())
    ensures ok ==> KeysAre(ProfileIds(students), index.eligible, index.StockValue())
  {
    hide Indexed, AllWritable, Ascending, WritableClass, ClassesWritten;
    ok, visited := false, [];
    if |classes| == 0 {
      return;
    }
    ok := index.WriteSnapshot(classes);
    if ok {
      ok, visited := WarmupStudents(index, students, classes, pageSize);
    }
  }

  /** The warmup of a round. Over closed tables, what it leaves is a start of the protocol. */
  method WarmUp(
    index: EligibilityIndex, info: RoundInfo, version: string, classes: seq<WarmClass>, students: seq<WarmStudent>,
    pageSize: nat, ghost db: MySql, ghost lim: Limits, ghost log: Log, ghost timetable: Timetable,
    ghost dropped: set<EnrollmentId>)
    returns (ok: bool, visited: seq<StudentId>)
    requires DistinctClasses(classes) && Ascending(students) && pageSize > 0
    requires index.classes == map[] && index.seat == map[] && index.classCells == map[]
    requires KeysAre({}, index.eligible, index.StockValue())
    requires TablesClosed(db, log, lim, dropped) && ReadFrom(db, classes, students, info.round)
    requires TablesAgree(classes, students, lim, log, EnrolledApps(db.enrollments), info.round, info.term, timetable)
    modifies index
    ensures ok <==> classes != [] && students != [] && AllWritable(students)
    ensures ok ==> visited == Warmup.Ids(students)
    ensures ok ==> Init(Started(lim, log, db,
                                Activated(info, version, ClassKeys(index.classes, index.seat, index.classCells),
                                          index.eligible, index.StockValue(), |log|, dropped)))
  {
    ListedWritable(classes, students, lim, log, EnrolledApps(db.enrollments), info.round, info.term, timetable);
    hide Init, KeysAre, Indexed, TablesClosed, ReadFrom, TablesAgree, AllWritable, Ascending, EnrolledApps,
         WritableClass, ClassesWritten, DistinctClasses;
    ok, visited := FillIndex(index, classes, students, pageSize);
    if ok {
      ghost var rd := Activated(info, version, ClassKeys(index.classes, index.seat, index.classCells), index.eligible,
                                index.StockValue(), |log|, dropped);
      WarmupIsStart(classes, students, lim, log, rd, db, timetable);
    }
  }

  lemma ListedWritable(
    classes: seq<WarmClass>, students: seq<WarmStudent>, lim: Limits, log: Log, live: set<AppId>, round: RoundId,
    term: TermId, timetable: Timetable)
    requires TablesAgree(classes, students, lim, log, live, round, term, timetable)
    ensures forall i :: 0 <= i < |classes| ==> WritableClass(classes[i])
  {
    forall i | 0 <= i < |classes| ensures WritableClass(classes[i]) {
      assert ClassAgrees(classes[i], lim, log, live, timetable);
    }
  }
}
