/**
  The Redis side of a selection round: the keys that warmup writes and the three Lua scripts that
  change them. Each script is one atomic function from the keys it finds to the keys it leaves.
 */
module RedisScripts {
  import opened Types

  const SENTINEL_CELL: string := "0"
  const SENTINEL_COURSE: CourseId := 0

  /** The stored outcome of a request: what was decided and whether MySQL is known to hold it. */
  datatype Publication = Publication(result: Selection, streamId: nat, mysqlPersisted: bool)

  datatype Entry = Entry(id: nat, event: Selection)

  datatype ClassSnapshot = ClassSnapshot(course: CourseId, credits: int, capacity: int)

  /** Facts warmup writes under one version and nothing changes afterwards. */
  datatype Snapshot = Snapshot(
    version: string,
    round: RoundId,
    term: TermId,
    startMs: int,
    endMs: int,
    classes: map<ClassId, ClassSnapshot>,
    classCells: map<ClassId, set<string>>,
    eligible: map<StudentId, set<ClassId>>)

  /** The counters and hashes that selections take from and releases give back to. */
  datatype Stock = Stock(
    credit: map<StudentId, int>,
    courseQuota: map<StudentId, int>,
    seat: map<ClassId, int>,
    courses: map<StudentId, map<CourseId, AppId>>,
    cells: map<StudentId, map<string, int>>)

  /** The pending key of each student and the stored outcome of each request and application. */
  datatype Board = Board(
    pending: map<StudentId, Selection>,
    results: map<(StudentId, RequestId), Publication>,
    applications: map<AppId, Publication>)

  /** The result stream, the id its next entry will get, and the dead-letter stream. */
  datatype Stream = Stream(entries: seq<Entry>, nextId: nat, dead: seq<Entry>)

  datatype Redis = Redis(
    snapshot: Snapshot,
    activeVersion: Option<string>,
    openVersion: Option<string>,
    stock: Stock,
    board: Board,
    stream: Stream,
    dropped: set<EnrollmentId>)

  /** A formal enrollment as the drop path reads it from MySQL. */
  datatype Enrollment = Enrollment(
    id: EnrollmentId,
    app: AppId,
    round: RoundId,
    term: TermId,
    student: StudentId,
    course: CourseId,
    teachingClass: ClassId,
    credits: int)

  /** A Redis hash or set exists exactly while it has a member, hence the sentinels. */
  predicate HashExists<K, V(==)>(hashes: map<StudentId, map<K, V>>, s: StudentId) {
    s in hashes && hashes[s] != map[]
  }

  function Count(cells: map<string, int>, cell: string): int {
    if cell in cells then cells[cell] else 0
  }

  /** The loop that looks for a class cell the student already occupies. */
  predicate Busy(cells: map<string, int>, slots: set<string>) {
    exists cell :: cell in slots && cell != SENTINEL_CELL && Count(cells, cell) > 0
  }

  /** HINCRBY 1 on every class cell. */
  function Occupy(cells: map<string, int>, slots: set<string>): map<string, int> {
    map cell | cell in cells.Keys + (slots - {SENTINEL_CELL}) ::
      Count(cells, cell) + if cell in slots && cell != SENTINEL_CELL then 1 else 0
  }

  /** HINCRBY -1 on every class cell, deleting a counter that is no longer positive. */
  function Vacate(cells: map<string, int>, slots: set<string>): map<string, int> {
    map cell | cell in cells && !(cell in slots && cell != SENTINEL_CELL && cells[cell] <= 1) ::
      if cell in slots && cell != SENTINEL_CELL then cells[cell] - 1 else cells[cell]
  }

  /** Why the commit script turns a new request away; 0 when it does not. */
  function Refusal(rd: Redis, r: Selection, expected: string, now: int): int {
    var snap, stock, pending := rd.snapshot, rd.stock, rd.board.pending;
    if r.state != Selected || r.credits <= 0 then -6
    else if r.student in pending then
      if pending[r.student].request != r.request then 2 else -6
    else if r.round != snap.round || rd.activeVersion != Some(expected) || rd.openVersion != Some(expected) then -8
    else if now < snap.startMs || now >= snap.endMs || r.term != snap.term then -8
    else if r.teachingClass !in snap.classes
         || r.course != snap.classes[r.teachingClass].course
         || r.credits != snap.classes[r.teachingClass].credits then -9
    else if r.student !in snap.eligible || r.teachingClass !in snap.eligible[r.student] then -10
    else if r.student in stock.courses && r.course in stock.courses[r.student] then -4
    else if !StockKeysExist(stock, snap.classCells, r.student, r.teachingClass) then -1
    else if stock.credit[r.student] < r.credits then -2
    else if stock.courseQuota[r.student] <= 0 then -3
    else if stock.seat[r.teachingClass] <= 0 then -5
    else if Busy(stock.cells[r.student], snap.classCells[r.teachingClass]) then -7
    else 0
  }

  /** The EXISTS checks that the commit and the release script share. */
  predicate StockKeysExist(stock: Stock, classCells: map<ClassId, set<string>>, s: StudentId, c: ClassId) {
    && s in stock.credit && s in stock.courseQuota && c in stock.seat && c in classCells && classCells[c] != {}
    && HashExists(stock.courses, s) && HashExists(stock.cells, s)
  }

  /** What a selection takes. */
  function Take(stock: Stock, classCells: map<ClassId, set<string>>, r: Selection): Stock
    requires StockKeysExist(stock, classCells, r.student, r.teachingClass)
  {
    var s := r.student;
    var c := r.teachingClass;
    var selected: map<CourseId, AppId> := stock.courses[s][r.course := r.app];
    Stock(stock.credit[s := stock.credit[s] - r.credits],
          stock.courseQuota[s := stock.courseQuota[s] - 1],
          stock.seat[c := stock.seat[c] - 1],
          stock.courses[s := selected],
          stock.cells[s := Occupy(stock.cells[s], classCells[c])])
  }

  function Publish(board: Board, r: Selection, id: nat): Board {
    var publication := Publication(r, id, false);
    Board(board.pending[r.student := r],
          board.results[(r.student, r.request) := publication],
          board.applications[r.app := publication])
  }

  datatype CommitReply = CommitReply(redis: Redis, code: int, stored: Option<Publication>)

  /** The commit script. */
  function Commit(rd: Redis, r: Selection, expected: string, now: int): CommitReply {
    if (r.student, r.request) in rd.board.results then
      CommitReply(rd, 1, Some(rd.board.results[(r.student, r.request)]))
    else
      var code := Refusal(rd, r, expected, now);
      if code != 0 then CommitReply(rd, code, None)
      else
        var id := rd.stream.nextId;
        CommitReply(rd.(stock := Take(rd.stock, rd.snapshot.classCells, r),
                        board := Publish(rd.board, r, id),
                        stream := rd.stream.(entries := rd.stream.entries + [Entry(id, r)], nextId := id + 1)),
                    0, Some(Publication(r, id, false)))
  }

  /** The script that clears the pending key once MySQL holds the result. */
  function Clear(board: Board, r: Selection): (Board, int) {
    if r.student !in board.pending then (board, 0)
    else if board.pending[r.student].app != r.app then (board, -1)
    else
      var key := (r.student, r.request);
      if key in board.results && board.results[key].result.app != r.app then (board, -2)
      else
        var results: map<(StudentId, RequestId), Publication> :=
          if key in board.results
          then board.results[key := board.results[key].(mysqlPersisted := true)] else board.results;
        if r.app in board.applications && board.applications[r.app].result.app != r.app
        then (board.(results := results), -2)
        else
          var applications :=
            if r.app in board.applications
            then board.applications[r.app := board.applications[r.app].(mysqlPersisted := true)]
            else board.applications;
          (Board(board.pending - {r.student}, results, applications), 1)
  }

  /** What a release gives back. */
  function GiveBack(stock: Stock, classCells: map<ClassId, set<string>>, e: Enrollment): Stock
    requires StockKeysExist(stock, classCells, e.student, e.teachingClass)
  {
    var s := e.student;
    var c := e.teachingClass;
    var selected: map<CourseId, AppId> :=
      if e.course in stock.courses[s] && stock.courses[s][e.course] == e.app
      then stock.courses[s] - {e.course} else stock.courses[s];
    Stock(stock.credit[s := stock.credit[s] + e.credits],
          stock.courseQuota[s := stock.courseQuota[s] + 1],
          stock.seat[c := stock.seat[c] + 1],
          stock.courses[s := selected],
          stock.cells[s := Vacate(stock.cells[s], classCells[c])])
  }

  /** The script that releases a dropped enrollment, at most once per enrollment. */
  function Release(rd: Redis, e: Enrollment): (Redis, int) {
    if e.id in rd.dropped then (rd, 0)
    else if e.round != rd.snapshot.round
         || !StockKeysExist(rd.stock, rd.snapshot.classCells, e.student, e.teachingClass) then (rd, -1)
    else if e.credits <= 0 then (rd, -2)
    else (rd.(stock := GiveBack(rd.stock, rd.snapshot.classCells, e), dropped := rd.dropped + {e.id}), 1)
  }

  /** XACK and XDEL of one batch of entry ids. */
  function Without(entries: seq<Entry>, ids: set<nat>): seq<Entry> {
    if entries == [] then []
    else
      var rest := Without(entries[..|entries| - 1], ids);
      if entries[|entries| - 1].id in ids then rest else rest + [entries[|entries| - 1]]
  }

  function Acknowledge(stream: Stream, ids: set<nat>): Stream {
    stream.(entries := Without(stream.entries, ids))
  }

  function DeadLetter(stream: Stream, entry: Entry): Stream {
    stream.(dead := stream.dead + [entry], entries := Without(stream.entries, {entry.id}))
  }
}
