/**
  Rounds that start without enrollments: the simplest states that satisfy the start condition, a first
  selection, and a request that the early check and the script refuse for different reasons.
 */
module RoundStart {
  import opened Types
  import opened Ledger
  import opened RedisScripts
  import opened RedisLedger
  import opened RedisStore
  import opened MySqlTables
  import opened CountProjection
  import opened SelectionSystem
  import opened Admission
  import opened Recovery
  import opened Refinement
  import opened SelectionService

  /** The limits name each student twice, and the classes have their cells. */
  ghost predicate Plan(lim: Limits, snap: Snapshot) {
    && lim.credit.Keys == lim.courses.Keys && snap.classCells.Keys == lim.seats.Keys
    && (forall s :: s in lim.credit ==> lim.credit[s] >= 0 && lim.courses[s] >= 0)
    && (forall c :: c in lim.seats ==> lim.seats[c] >= 0 && SENTINEL_CELL in snap.classCells[c])
  }

  ghost function EmptyStock(lim: Limits): Stock {
    Stock(lim.credit, lim.courses, lim.seats,
          map s | s in lim.credit :: map[SENTINEL_COURSE := SENTINEL_CELL],
          map s | s in lim.credit :: map[SENTINEL_CELL := 0])
  }

  ghost function EmptyTables(lim: Limits, round: RoundId): MySql
    requires lim.credit.Keys == lim.courses.Keys
  {
    MySql(map s | s in lim.credit :: QuotaKey(round, s) := Quota(lim.credit[s], 0, lim.courses[s], 0),
          map[], map[], map[], [], map[], map[],
          map c | c in lim.seats :: ClassRow(lim.seats[c], 0))
  }

  /** A warmed round in which nobody is enrolled yet. */
  ghost function EmptyRound(lim: Limits, snap: Snapshot): System
    requires lim.credit.Keys == lim.courses.Keys
  {
    System.System(
      lim, 0, [],
      Redis(snap, Some(snap.version), None, EmptyStock(lim), Board(map[], map[], map[]), Stream([], 0, []), {}),
      EmptyTables(lim, snap.round), map[], map[])
  }

  lemma EmptyQuotas(lim: Limits, snap: Snapshot)
    requires Plan(lim, snap)
    ensures QuotaLedger(EmptyStock(lim), lim, [], {}) && SeatLedger(EmptyStock(lim), lim, [], {})
  {
  }

  lemma EmptyHashes(lim: Limits, snap: Snapshot)
    requires Plan(lim, snap)
    ensures CourseLedger(EmptyStock(lim).courses, [], {}) && CellLedger(EmptyStock(lim).cells, snap.classCells, [], {})
    ensures KeysOk(EmptyStock(lim), snap.classCells, lim)
  {
  }

  lemma EmptyLog(round: RoundId, term: TermId, lim: Limits)
    ensures LogOk([], round, term, lim) && Apps([]) == {}
  {
  }

  lemma EmptyStockOk(rd: Redis, lim: Limits)
    requires Plan(lim, rd.snapshot) && rd.stock == EmptyStock(lim)
    ensures StockOk(rd, lim, [], {})
  {
    EmptyQuotas(lim, rd.snapshot);
    EmptyHashes(lim, rd.snapshot);
    EmptyLog(rd.snapshot.round, rd.snapshot.term, lim);
    hide QuotaLedger, SeatLedger, CourseLedger, CellLedger, KeysOk, LogOk, EmptyStock, Plan;
  }

  lemma EmptyTablesOk(lim: Limits, round: RoundId)
    requires lim.credit.Keys == lim.courses.Keys
    ensures var db := EmptyTables(lim, round);
            && RowsOk(db.applications, db.enrollments, []) && EventsOk(db.applications, db.events, db.outbox, [])
            && DropsOk(db.enrollments, db.events, {}) && ReleasesOk({}, db.enrollments, db.repairs)
            && DropsClosed(db.enrollments, {}, db.repairs)
            && DeltasOk(db.deltas, db.events, lim) && Unprocessed(db.deltas) == []
            && EnrolledApps(db.enrollments) == {} && Live([], db.enrollments, {}) == {}
  {
    assert Unprocessed([]) == [];
  }

  lemma EmptyClasses(lim: Limits, round: RoundId)
    requires lim.credit.Keys == lim.courses.Keys
    ensures ClassesCount(EmptyTables(lim, round).classes, {}, lim, [])
    ensures EmptyTables(lim, round).repairs == map[]
  {
  }

  lemma EmptyMirror(lim: Limits, round: RoundId)
    requires lim.credit.Keys == lim.courses.Keys
    ensures MirrorOk(EmptyTables(lim, round).quotas, {}, lim, [], round)
  {
    var quotas := EmptyTables(lim, round).quotas;
    forall u | u in lim.credit
      ensures QuotaKey(round, u) in quotas && quotas[QuotaKey(round, u)] == Quota(lim.credit[u], 0, lim.courses[u], 0)
    {
    }
  }

  lemma EmptyRoundInit(lim: Limits, snap: Snapshot)
    requires Plan(lim, snap)
    ensures Init(EmptyRound(lim, snap))
  {
    var s := EmptyRound(lim, snap);
    EmptyStockOk(s.redis, lim);
    EmptyTablesOk(lim, snap.round);
    EmptyMirror(lim, snap.round);
    EmptyClasses(lim, snap.round);
    hide StockOk, RowsOk, EventsOk, DropsOk, ReleasesOk, DropsClosed, DeltasOk, MirrorOk, ClassesCount, Unprocessed,
         Live, EnrolledApps, EmptyStock, EmptyTables, Init;
    StartsEmpty(s);
  }

  lemma StartsEmpty(s: System)
    requires s.warm == 0 && s.log == [] && s.redis.stream == Stream([], 0, []) && s.redis.dropped == {}
    requires s.consumers == map[] && s.droppers == map[] && s.redis.board == Board(map[], map[], map[])
    requires Live([], s.db.enrollments, {}) == EnrolledApps(s.db.enrollments) == {}
    requires StockOk(s.redis, s.limits, [], {}) && RowsOk(s.db.applications, s.db.enrollments, [])
    requires EventsOk(s.db.applications, s.db.events, s.db.outbox, []) && DropsOk(s.db.enrollments, s.db.events, {})
    requires s.db.repairs == map[] && DeltasOk(s.db.deltas, s.db.events, s.limits) && Unprocessed(s.db.deltas) == []
    requires ReleasesOk({}, s.db.enrollments, s.db.repairs) && DropsClosed(s.db.enrollments, {}, s.db.repairs)
    requires MirrorOk(s.db.quotas, {}, s.limits, [], s.redis.snapshot.round)
    requires ClassesCount(s.db.classes, {}, s.limits, [])
    ensures Init(s)
  {
    assert s.db.repairs.Keys == {};
    hide StockOk, RowsOk, EventsOk, DropsOk, ReleasesOk, DropsClosed, DeltasOk, MirrorOk, ClassesCount, Unprocessed,
         Live, EnrolledApps;
  }

  /** Every plan has a start state, so the theorems about runs are about something. */
  lemma EmptyRoundStarts(lim: Limits, snap: Snapshot)
    requires Plan(lim, snap)
    ensures Init(EmptyRound(lim, snap)) && Reachable(EmptyRound(lim, snap))
  {
    hide Init, EmptyRound, Reachable;
    EmptyRoundInit(lim, snap);
    OneStateRun(EmptyRound(lim, snap));
  }

  lemma OneStateRun(s: System)
    requires Init(s)
    ensures Reachable(s)
  {
    hide Init;
    assert IsRun([s]) && [s][0] == s;
  }

  /** The first selection of an opened round: accepted by the script and, once settled, stored in MySQL. */
  lemma FirstSelection(lim: Limits, snap: Snapshot, r: Selection, now: int) returns (t: System)
    requires Plan(lim, snap) && ValidResult(r) && r.state == Selected && snap.version != ""
    requires Acceptable(EmptyRound(lim, snap).redis.(openVersion := Some(snap.version)), r, now)
    ensures Reachable(t) && Settled(t) && t.log == [r]
    ensures EventOf(r) in t.db.events && t.db.events[EventOf(r)] == SelectionBody(r)
  {
    hide Reachable, Init, Acceptable, ValidResult, Settled, EmptyTables, EmptyStock, Refusal, Take, Publish;
    EmptyRoundStarts(lim, snap);
    var s := EmptyRound(lim, snap);
    ReachableStep(s, OpenRound);
    var open := s.(redis := s.redis.(openVersion := Some(snap.version)));
    assert Apply(s, OpenRound) == open;
    t := SelectAndSettle(open, r, now);
  }

  lemma SelectAndSettle(s: System, r: Selection, now: int) returns (t: System)
    requires Reachable(s) && ValidResult(r) && r.state == Selected && s.log == []
    requires s.redis.board == Board(map[], map[], map[])
    requires Acceptable(s.redis, r, now)
    ensures Reachable(t) && Settled(t) && t.log == [r]
    ensures EventOf(r) in t.db.events && t.db.events[EventOf(r)] == SelectionBody(r)
  {
    hide Reachable, Acceptable, ValidResult, Settled, Refusal, Take, Publish;
    ScriptAccepts(s.redis, r, now) by { PositiveCredits(r); }
    AcceptableVersion(s.redis, r, now);
    var version := Version(s.redis, r.round).value;
    assert Apps([]) == {};
    ReachableStep(s, Select(r, version, now));
    var selected := SelectStep(s, r, version, now);
    assert selected.log == [r] && selected.log[0] == r;
    t := CanSettle(selected);
    RecoversKeeps(selected, t);
  }

  lemma PositiveCredits(r: Selection)
    requires ValidResult(r)
    ensures r.credits > 0
  {
  }

  lemma AcceptableVersion(rd: Redis, r: Selection, now: int)
    requires Acceptable(rd, r, now)
    ensures Version(rd, r.round).Some?
  {
  }

  // --- Refusals that differ --------------------------------------------------------------------

  /** A full class and a student without the credits: the check names the class, the script names the quota. */
  lemma FullAndUnaffordable(rd: Redis, lim: Limits, r: Selection)
    requires Admission.Consistent(rd, lim) && ValidResult(r) && r.state == Selected
    requires (r.student, r.request) !in rd.board.results && r.student !in rd.board.pending
    requires FromSnapshot(rd, r) && ReachesChecks(rd, r) && OpenTo(rd, r) && !HasSeat(rd, r.teachingClass)
    requires r.student in rd.stock.credit && rd.stock.credit[r.student] < r.credits
    ensures AdmitSelection(rd, IntentOf(r), r.completedAt) == Err(Full)
    ensures CommitResult(rd, r).receipt == Err(CreditQuotaExceeded)
  {
    EarlyOrder(rd, lim, r);
    ScriptOrder(rd, lim, r);
    hide AdmitSelection, CommitNow, CommitResult, ValidResult, Admission.Consistent, FromSnapshot;
    RefusedReceipt(rd, r);
  }

  const FEW_CREDITS: int := 10

  /** One class with one seat, and two students of whom only the first can afford it. */
  function SmallLimits(): Limits {
    Limits(map[1 := 20, 2 := FEW_CREDITS], map[1 := 1, 2 := 1], map[7 := 1])
  }

  function SmallSnapshot(): Snapshot {
    Snapshot("v", 1, 1, 1000, 2000, map[7 := ClassSnapshot(3, 20, 1)], map[7 := {SENTINEL_CELL}],
             map[1 := {7}, 2 := {7}])
  }

  function SmallRequest(app: AppId, student: StudentId): Selection {
    Selection(app, "request", 1, 1, student, 3, 7, 20, Web, Selected, None, 1000, 1500)
  }

  ghost function SmallStart(): System {
    EmptyRound(SmallLimits(), SmallSnapshot())
  }

  ghost function SmallOpen(): System {
    SmallStart().(redis := SmallStart().redis.(openVersion := Some("v")))
  }

  lemma SmallAccepted()
    ensures ValidResult(SmallRequest("a", 1)) && ValidResult(SmallRequest("b", 2))
    ensures Refusal(SmallOpen().redis, SmallRequest("a", 1), "v", 1500) == 0
  {
    var r := SmallRequest("a", 1);
    assert r.app[0] == 'a' && r.request[0] == 'r';
    assert SmallRequest("b", 2).app[0] == 'b' && SmallRequest("b", 2).request[0] == 'r';
    var stock := SmallOpen().redis.stock;
    assert stock.courses[1] == map[SENTINEL_COURSE := SENTINEL_CELL] && stock.cells[1] == map[SENTINEL_CELL := 0];
    assert SENTINEL_COURSE in stock.courses[1] && SENTINEL_CELL in stock.cells[1];
  }

  ghost function SmallTaken(): System {
    SelectStep(SmallOpen(), SmallRequest("a", 1), "v", 1500)
  }

  lemma ThreeStates(a: System, b: System, c: System)
    requires Init(a) && Next(a, b) && Next(b, c)
    ensures IsRun([a, b, c])
  {
    hide Init, Next;
    var run := [a, b, c];
    forall i | 0 <= i < |run| - 1 ensures Next(run[i], run[i + 1]) {
      assert i == 0 || i == 1;
    }
  }

  lemma SmallWarm()
    ensures WarmSnapshot(SmallSnapshot(), SmallLimits()) && Plan(SmallLimits(), SmallSnapshot())
  {
  }

  lemma SmallRun() returns (run: seq<System>)
    ensures IsRun(run) && |run| == 3 && run[0] == SmallStart() && run[2] == SmallTaken()
    ensures WarmSnapshot(run[0].redis.snapshot, run[0].limits)
  {
    SmallWarm();
    hide Init, Plan, WarmSnapshot, SmallOpen, SmallTaken, SmallLimits, SmallSnapshot, Next, IsRun, EmptyStock,
         EmptyTables;
    EmptyRoundInit(SmallLimits(), SmallSnapshot());
    SmallSteps();
    ThreeStates(SmallStart(), SmallOpen(), SmallTaken());
    run := [SmallStart(), SmallOpen(), SmallTaken()];
  }

  lemma SmallSteps()
    ensures Next(SmallStart(), SmallOpen()) && Next(SmallOpen(), SmallTaken())
  {
    SmallAccepted();
    hide ValidResult, SelectStep, Refusal, EmptyStock, EmptyTables;
    var start, open := SmallStart(), SmallOpen();
    assert Enabled(start, OpenRound) && Apply(start, OpenRound) == open;
    var a := Action.Select(SmallRequest("a", 1), "v", 1500);
    assert Apps([]) == {};
    assert Enabled(open, a) && Apply(open, a) == SmallTaken();
  }

  /**
    The condition of RefusalsAgree can fail in a reachable state: the one seat is taken, and a student
    who could not pay for it asks for the class. The early check answers that the class is full, the
    commit that the credits are missing.
   */
  lemma RefusalsDiffer() returns (run: seq<System>, n: nat, r: Selection)
    ensures IsRun(run) && n < |run| && WarmSnapshot(run[0].redis.snapshot, run[0].limits)
    ensures ValidResult(r) && r.state == Selected && FromSnapshot(run[n].redis, r)
    ensures (r.student, r.request) !in run[n].redis.board.results && r.student !in run[n].redis.board.pending
    ensures !OrderIrrelevant(run[n].redis, r)
    ensures AdmitSelection(run[n].redis, IntentOf(r), r.completedAt) == Err(Full)
    ensures CommitResult(run[n].redis, r).receipt == Err(CreditQuotaExceeded)
  {
    run := SmallRun();
    n, r := 2, SmallRequest("b", 2);
    SmallAccepted();
    SmallFacts();
    RunConsistent(run, n);
    hide IsRun, WarmSnapshot, AdmitSelection, CommitResult, Admission.Consistent, ValidResult, SmallTaken;
    FullAndUnaffordable(run[n].redis, run[n].limits, r);
  }

  lemma SmallCommit()
    ensures var rd, open, first := SmallTaken().redis, SmallOpen().redis, SmallRequest("a", 1);
            && StockKeysExist(open.stock, open.snapshot.classCells, 1, 7)
            && rd.stock == Take(open.stock, open.snapshot.classCells, first)
            && rd.board == Publish(open.board, first, 0) && rd.snapshot == SmallSnapshot()
            && rd.openVersion == rd.activeVersion == Some("v")
  {
    SmallAccepted();
    SmallEmpty();
    hide Refusal, ValidResult, Take, Publish, Commit, EmptyStock, EmptyTables, StockKeysExist;
    CommitCases(SmallOpen().redis, SmallRequest("a", 1), "v", 1500);
  }

  /** Taking for one student leaves the others' keys alone. */
  lemma TakeSpares(stock: Stock, classCells: map<ClassId, set<string>>, r: Selection, s: StudentId)
    requires StockKeysExist(stock, classCells, r.student, r.teachingClass) && s != r.student
    requires s in stock.credit && s in stock.courseQuota && s in stock.courses
    ensures var stock' := Take(stock, classCells, r);
            && s in stock'.credit && stock'.credit[s] == stock.credit[s]
            && s in stock'.courses && stock'.courses[s] == stock.courses[s]
            && r.teachingClass in stock'.seat && stock'.seat[r.teachingClass] == stock.seat[r.teachingClass] - 1
  {
  }

  lemma SmallStock()
    ensures var stock := SmallOpen().redis.stock;
            && 2 in stock.credit && stock.credit[2] == FEW_CREDITS && 2 in stock.courseQuota && 2 in stock.courses
            && stock.courses[2] == map[SENTINEL_COURSE := SENTINEL_CELL] && stock.seat == map[7 := 1]
  {
  }

  lemma SmallFacts()
    ensures var rd, r := SmallTaken().redis, SmallRequest("b", 2);
            && FromSnapshot(rd, r) && ReachesChecks(rd, r) && OpenTo(rd, r) && !HasSeat(rd, 7) && !Affords(rd, r)
            && 2 in rd.stock.credit && rd.stock.credit[2] == FEW_CREDITS
            && (2, r.request) !in rd.board.results && 2 !in rd.board.pending
  {
    SmallCommit();
    SmallStock();
    hide SmallTaken, SmallOpen, StockKeysExist;
    var open := SmallOpen().redis;
    assert SmallBoardEmpty(open.board) by { SmallEmpty(); }
    TakeSpares(open.stock, open.snapshot.classCells, SmallRequest("a", 1), 2);
    hide Take;
  }

  ghost predicate SmallBoardEmpty(board: Board) {
    board == Board(map[], map[], map[])
  }

  lemma SmallEmpty()
    ensures SmallBoardEmpty(SmallOpen().redis.board)
  {
  }
}
