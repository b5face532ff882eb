/** Redis as a store that changes in place: the Lua scripts, command by command. */
module RedisStore {
  import opened Types
  import opened RedisScripts
  import opened MySqlTables

  method FindBusyCell(cells: map<string, int>, slots: set<string>) returns (busy: bool)
    ensures busy == Busy(cells, slots)
  {
    var todo := slots;
    while todo != {}
      invariant todo <= slots
      invariant forall cell :: cell in slots - todo ==> cell == SENTINEL_CELL || Count(cells, cell) <= 0
      decreases todo
    {
      var slot :| slot in todo;
      if slot != SENTINEL_CELL && Count(cells, slot) > 0 {
        return true;
      }
      todo := todo - {slot};
    }
    return false;
  }

  method IncrementCells(cells: map<string, int>, slots: set<string>) returns (cells': map<string, int>)
    ensures cells' == Occupy(cells, slots)
  {
    cells' := cells;
    var todo, done: set<string> := slots, {};
    while todo != {}
      invariant todo !! done && todo + done == slots
      invariant cells' == Occupy(cells, done)
      decreases todo
    {
      var slot :| slot in todo;
      if slot != SENTINEL_CELL {
        cells' := cells'[slot := Count(cells', slot) + 1];
      }
      todo, done := todo - {slot}, done + {slot};
      assert cells' == Occupy(cells, done);
    }
    assert done == slots;
  }

  method DecrementCells(cells: map<string, int>, slots: set<string>) returns (cells': map<string, int>)
    ensures cells' == Vacate(cells, slots)
  {
    cells' := cells;
    var todo, done: set<string> := slots, {};
    while todo != {}
      invariant todo !! done && todo + done == slots
      invariant cells' == Vacate(cells, done)
      decreases todo
    {
      var slot :| slot in todo;
      if slot != SENTINEL_CELL {
        var remaining := Count(cells', slot) - 1;
        cells' := cells'[slot := remaining];
        if remaining <= 0 {
          cells' := cells' - {slot};
        }
      }
      todo, done := todo - {slot}, done + {slot};
      assert cells' == Vacate(cells, done);
    }
    assert done == slots;
  }

  /** The three outcomes of the commit script. */
  lemma CommitCases(rd: Redis, r: Selection, expected: string, now: int)
    ensures var key := (r.student, r.request);
            if key in rd.board.results then
              Commit(rd, r, expected, now) == CommitReply(rd, 1, Some(rd.board.results[key]))
            else if Refusal(rd, r, expected, now) != 0 then
              Commit(rd, r, expected, now) == CommitReply(rd, Refusal(rd, r, expected, now), None)
            else
              && StockKeysExist(rd.stock, rd.snapshot.classCells, r.student, r.teachingClass)
              && Commit(rd, r, expected, now)
                 == CommitReply(Redis(rd.snapshot, rd.activeVersion, rd.openVersion,
                                      Take(rd.stock, rd.snapshot.classCells, r),
                                      Publish(rd.board, r, rd.stream.nextId),
                                      Stream(rd.stream.entries + [Entry(rd.stream.nextId, r)], rd.stream.nextId + 1,
                                             rd.stream.dead),
                                      rd.dropped),
                                0, Some(Publication(r, rd.stream.nextId, false)))
  {
  }

  class Store {
    const snapshot: Snapshot
    var activeVersion: Option<string>
    var openVersion: Option<string>
    var credit: map<StudentId, int>
    var courseQuota: map<StudentId, int>
    var seat: map<ClassId, int>
    var courses: map<StudentId, map<CourseId, AppId>>
    var cells: map<StudentId, map<string, int>>
    var pending: map<StudentId, Selection>
    var results: map<(StudentId, RequestId), Publication>
    var applications: map<AppId, Publication>
    var entries: seq<Entry>
    var nextId: nat
    var dead: seq<Entry>
    var dropped: set<EnrollmentId>

    constructor (rd: Redis)
      ensures Value() == rd
    {
      snapshot, activeVersion, openVersion := rd.snapshot, rd.activeVersion, rd.openVersion;
      credit, courseQuota, seat := rd.stock.credit, rd.stock.courseQuota, rd.stock.seat;
      courses, cells := rd.stock.courses, rd.stock.cells;
      pending, results, applications := rd.board.pending, rd.board.results, rd.board.applications;
      entries, nextId, dead := rd.stream.entries, rd.stream.nextId, rd.stream.dead;
      dropped := rd.dropped;
    }

    function StockValue(): Stock
      reads this
    {
      Stock(credit, courseQuota, seat, courses, cells)
    }

    function BoardValue(): Board
      reads this
    {
      Board(pending, results, applications)
    }

    function Value(): Redis
      reads this
    {
      Redis(snapshot, activeVersion, openVersion, StockValue(), BoardValue(), Stream(entries, nextId, dead), dropped)
    }

    /** The checks of the commit script, in its order. */
    method Check(r: Selection, expected: string, now: int) returns (code: int)
      ensures code == Refusal(Value(), r, expected, now)
    {
      if r.state != Selected || r.credits <= 0 {
        return -6;
      }
      if r.student in pending {
        return if pending[r.student].request != r.request then 2 else -6;
      }
      if r.round != snapshot.round || activeVersion != Some(expected) || openVersion != Some(expected) {
        return -8;
      }
      if now < snapshot.startMs || now >= snapshot.endMs || r.term != snapshot.term {
        return -8;
      }
      if r.teachingClass !in snapshot.classes {
        return -9;
      }
      var class_ := snapshot.classes[r.teachingClass];
      if r.course != class_.course || r.credits != class_.credits {
        return -9;
      }
      if r.student !in snapshot.eligible || r.teachingClass !in snapshot.eligible[r.student] {
        return -10;
      }
      if r.student in courses && r.course in courses[r.student] {
        return -4;
      }
      if !StockKeysExist(StockValue(), snapshot.classCells, r.student, r.teachingClass) {
        return -1;
      }
      if credit[r.student] < r.credits {
        return -2;
      }
      if courseQuota[r.student] <= 0 {
        return -3;
      }
      if seat[r.teachingClass] <= 0 {
        return -5;
      }
      var busy := FindBusyCell(cells[r.student], snapshot.classCells[r.teachingClass]);
      return if busy then -7 else 0;
    }

    /** The commit script: a stored outcome, a refusal, or everything at once. */
    method CommitSelection(r: Selection, expected: string, now: int) returns (code: int, stored: Option<Publication>)
      modifies this
      ensures Commit(old(Value()), r, expected, now) == CommitReply(Value(), code, stored)
    {
      hide Refusal, Commit, Take, Publish, StockKeysExist;
      ghost var before := Value();
      var key := (r.student, r.request);
      CommitCases(before, r, expected, now);
      if key in results {
        return 1, Some(results[key]);
      }
      code := Check(r, expected, now);
      if code != 0 {
        return code, None;
      }
      stored := Some(Publication(r, nextId, false));
      TakeResources(r);
      RecordOutcome(r);
    }

    /** The counters, the selected course and the cells of an accepted selection. */
    method TakeResources(r: Selection)
      requires StockKeysExist(StockValue(), snapshot.classCells, r.student, r.teachingClass)
      modifies this`credit, this`courseQuota, this`seat, this`courses, this`cells
      ensures StockValue() == Take(old(StockValue()), snapshot.classCells, r)
    {
      var s, c := r.student, r.teachingClass;
      var cells' := IncrementCells(cells[s], snapshot.classCells[c]);
      var selected: map<CourseId, AppId> := courses[s][r.course := r.app];
      hide Occupy;
      credit := credit[s := credit[s] - r.credits];
      courseQuota := courseQuota[s := courseQuota[s] - 1];
      seat := seat[c := seat[c] - 1];
      courses := courses[s := selected];
      cells := cells[s := cells'];
    }

    /** The stream entry, the pending key and the stored outcome of an accepted selection. */
    method RecordOutcome(r: Selection)
      modifies this`entries, this`nextId, this`pending, this`results, this`applications
      ensures entries == old(entries) + [Entry(old(nextId), r)] && nextId == old(nextId) + 1
      ensures BoardValue() == Publish(old(BoardValue()), r, old(nextId))
    {
      var publication := Publication(r, nextId, false);
      entries, nextId := entries + [Entry(nextId, r)], nextId + 1;
      pending := pending[r.student := r];
      results := results[(r.student, r.request) := publication];
      applications := applications[r.app := publication];
    }

    /** The script that clears the pending key once MySQL holds the result. */
    method ClearPersisted(r: Selection) returns (status: int)
      modifies this
      ensures Clear(old(BoardValue()), r) == (BoardValue(), status)
      ensures Value() == old(Value()).(board := BoardValue())
    {
      if r.student !in pending {
        return 0;
      }
      if pending[r.student].app != r.app {
        return -1;
      }
      var key := (r.student, r.request);
      if key in results {
        if results[key].result.app != r.app {
          return -2;
        }
        results := results[key := results[key].(mysqlPersisted := true)];
      }
      if r.app in applications {
        if applications[r.app].result.app != r.app {
          return -2;
        }
        applications := applications[r.app := applications[r.app].(mysqlPersisted := true)];
      }
      pending := pending - {r.student};
      return 1;
    }

    /** The release script: at most once per enrollment. */
    method ReleaseDropped(e: Enrollment) returns (status: int)
      modifies this
      ensures Release(old(Value()), e) == (Value(), status)
    {
      if e.id in dropped {
        return 0;
      }
      if e.round != snapshot.round || !StockKeysExist(StockValue(), snapshot.classCells, e.student, e.teachingClass) {
        return -1;
      }
      if e.credits <= 0 {
        return -2;
      }
      GiveResourcesBack(e);
      dropped := dropped + {e.id};
      return 1;
    }

    /** The counters, the selected course and the cells of a dropped enrollment. */
    method GiveResourcesBack(e: Enrollment)
      requires StockKeysExist(StockValue(), snapshot.classCells, e.student, e.teachingClass)
      modifies this`credit, this`courseQuota, this`seat, this`courses, this`cells
      ensures StockValue() == GiveBack(old(StockValue()), snapshot.classCells, e)
    {
      var s, c := e.student, e.teachingClass;
      var selected: map<CourseId, AppId> := courses[s];
      if e.course in selected && selected[e.course] == e.app {
        selected := selected - {e.course};
      }
      var cells' := DecrementCells(cells[s], snapshot.classCells[c]);
      hide Vacate;
      credit := credit[s := credit[s] + e.credits];
      courseQuota := courseQuota[s := courseQuota[s] + 1];
      seat := seat[c := seat[c] + 1];
      courses := courses[s := selected];
      cells := cells[s := cells'];
    }

    /** XACK and XDEL of a batch. */
    method AcknowledgeEntries(ids: set<nat>)
      modifies this
      ensures Value() == old(Value()).(stream := Acknowledge(old(Value()).stream, ids))
    {
      var rest := [];
      for i := 0 to |entries|
        invariant rest == Without(entries[..i], ids)
      {
        assert entries[..i + 1][..i] == entries[..i];
        if entries[i].id !in ids {
          rest := rest + [entries[i]];
        }
      }
      assert entries[..|entries|] == entries;
      entries := rest;
    }

    /** XADD to the dead-letter stream, then XACK and XDEL. */
    method DeadLetterEntry(entry: Entry)
      modifies this
      ensures Value() == old(Value()).(stream := DeadLetter(old(Value()).stream, entry))
    {
      dead := dead + [entry];
      AcknowledgeEntries({entry.id});
    }
  }

  /** How the store answers a commit to the application. */
  function CommitAnswer(code: int, stored: Option<Publication>, r: Selection): Result<Publication, Error> {
    if code == 0 || code == 1 then
      if stored.Some? && SameFingerprint(stored.value.result, r) then Ok(stored.value) else Err(IdempotencyConflict)
    else if code == 2 then Err(InProgress)
    else if code == -1 || code == -8 then Err(RoundNotOpen)
    else if code == -2 then Err(CreditQuotaExceeded)
    else if code == -3 then Err(CourseQuotaExceeded)
    else if code == -4 then Err(DuplicateSelection)
    else if code == -5 then Err(ClassFull)
    else if code == -7 then Err(ScheduleConflict)
    else if code == -9 then Err(ClassNotOpen)
    else if code == -10 then Err(EligibilityNotMet)
    else Err(Infrastructure)
  }
}
