/**
  Conservation in Redis: each counter is its limit minus what the live selections take, and the
  scripts keep it so. "Live" is a set of applications; a commit adds one, a release removes one.
 */
module RedisLedger {
  import opened Types
  import opened Ledger
  import opened RedisScripts

  datatype Limits = Limits(credit: map<StudentId, int>, courses: map<StudentId, int>, seats: map<ClassId, int>)

  ghost function CreditOf(s: StudentId): Selection -> nat {
    (x: Selection) => if x.student == s && x.credits > 0 then x.credits else 0
  }

  ghost function CourseOf(s: StudentId): Selection -> nat {
    (x: Selection) => if x.student == s then 1 else 0
  }

  ghost function SeatOf(c: ClassId): Selection -> nat {
    (x: Selection) => if x.teachingClass == c then 1 else 0
  }

  ghost predicate Covers(classCells: map<ClassId, set<string>>, c: ClassId, cell: string) {
    c in classCells && cell in classCells[c] && cell != SENTINEL_CELL
  }

  ghost function CellOf(classCells: map<ClassId, set<string>>, s: StudentId, cell: string): Selection -> nat {
    (x: Selection) => if x.student == s && Covers(classCells, x.teachingClass, cell) then 1 else 0
  }

  ghost predicate QuotaLedger(stock: Stock, lim: Limits, log: Log, live: set<AppId>) {
    && stock.credit.Keys == lim.credit.Keys && stock.courseQuota.Keys == lim.courses.Keys
    && (forall s :: s in stock.credit ==>
          stock.credit[s] >= 0 && stock.credit[s] == lim.credit[s] - Weight(log, live, CreditOf(s)))
    && (forall s :: s in stock.courseQuota ==>
          stock.courseQuota[s] >= 0 && stock.courseQuota[s] == lim.courses[s] - Weight(log, live, CourseOf(s)))
  }

  ghost predicate SeatLedger(stock: Stock, lim: Limits, log: Log, live: set<AppId>) {
    && stock.seat.Keys == lim.seats.Keys
    && forall c :: c in stock.seat ==>
         stock.seat[c] >= 0 && stock.seat[c] == lim.seats[c] - Weight(log, live, SeatOf(c))
  }

  /** The selected-course hash holds the sentinel and exactly the live (course, application) pairs. */
  ghost predicate CourseLedger(courses: map<StudentId, map<CourseId, AppId>>, log: Log, live: set<AppId>) {
    && (forall s :: s in courses ==> SENTINEL_COURSE in courses[s])
    && (forall i :: 0 <= i < |log| && log[i].app in live ==>
          && log[i].student in courses
          && log[i].course in courses[log[i].student]
          && courses[log[i].student][log[i].course] == log[i].app)
    && (forall s, c :: s in courses && c in courses[s] && c != SENTINEL_COURSE ==> Taken(log, live, s, c))
  }

  ghost predicate Taken(log: Log, live: set<AppId>, s: StudentId, c: CourseId) {
    exists i :: 0 <= i < |log| && log[i].app in live && log[i].student == s && log[i].course == c
  }

  /** Each counter is the number of live selections covering its cell, and no empty counter is kept. */
  ghost predicate CellLedger(
    cells: map<StudentId, map<string, int>>, classCells: map<ClassId, set<string>>, log: Log, live: set<AppId>)
  {
    forall s :: s in cells ==>
      && SENTINEL_CELL in cells[s] && cells[s][SENTINEL_CELL] == 0
      && (forall cell :: cell != SENTINEL_CELL ==>
            Count(cells[s], cell) == Weight(log, live, CellOf(classCells, s, cell)))
      && (forall cell :: cell in cells[s] && cell != SENTINEL_CELL ==> cells[s][cell] > 0)
  }

  ghost predicate Balanced(
    stock: Stock, classCells: map<ClassId, set<string>>, lim: Limits, log: Log, live: set<AppId>)
  {
    && QuotaLedger(stock, lim, log, live)
    && SeatLedger(stock, lim, log, live)
    && CourseLedger(stock.courses, log, live)
    && CellLedger(stock.cells, classCells, log, live)
  }

  /** No two live selections of one student meet in a cell. */
  ghost predicate ConflictFree(classCells: map<ClassId, set<string>>, log: Log, live: set<AppId>) {
    forall i, j, cell ::
      0 <= i < j < |log| && log[i].app in live && log[j].app in live && log[i].student == log[j].student ==>
        !(Covers(classCells, log[i].teachingClass, cell) && Covers(classCells, log[j].teachingClass, cell))
  }

  ghost predicate Accepted(rd: Redis, r: Selection, expected: string, now: int) {
    Commit(rd, r, expected, now).code == 0
  }

  /** What the checks of the commit script leave true of the stock it takes from. */
  ghost predicate Takeable(stock: Stock, classCells: map<ClassId, set<string>>, r: Selection) {
    && StockKeysExist(stock, classCells, r.student, r.teachingClass)
    && 0 < r.credits <= stock.credit[r.student] && stock.courseQuota[r.student] > 0
    && stock.seat[r.teachingClass] > 0
    && r.course !in stock.courses[r.student]
    && !Busy(stock.cells[r.student], classCells[r.teachingClass])
  }

  lemma AcceptedFacts(rd: Redis, r: Selection, expected: string, now: int)
    requires Accepted(rd, r, expected, now)
    ensures (r.student, r.request) !in rd.board.results && r.student !in rd.board.pending
    ensures r.round == rd.snapshot.round && r.term == rd.snapshot.term
    ensures Takeable(rd.stock, rd.snapshot.classCells, r)
  {
  }

  /** Weights of the extended log split into the old sum and the new entry. */
  lemma CommitWeight(log: Log, live: set<AppId>, r: Selection, f: Selection -> nat)
    requires r.app !in Apps(log)
    ensures Weight(log + [r], live + {r.app}, f) == Weight(log, live, f) + f(r)
  {
    WeightAppend(log, r, live + {r.app}, f);
    assert forall i :: 0 <= i < |log| ==> log[i].app in Apps(log);
    WeightSameIds(log, live + {r.app}, live, f);
  }

  lemma TakeQuotas(
    stock: Stock, classCells: map<ClassId, set<string>>, lim: Limits, log: Log, live: set<AppId>, r: Selection)
    requires Takeable(stock, classCells, r) && r.app !in Apps(log) && QuotaLedger(stock, lim, log, live)
    ensures QuotaLedger(Take(stock, classCells, r), lim, log + [r], live + {r.app})
  {
    forall s {
      CommitWeight(log, live, r, CreditOf(s));
    }
    forall s {
      CommitWeight(log, live, r, CourseOf(s));
    }
  }

  lemma TakeSeats(
    stock: Stock, classCells: map<ClassId, set<string>>, lim: Limits, log: Log, live: set<AppId>, r: Selection)
    requires Takeable(stock, classCells, r) && r.app !in Apps(log) && SeatLedger(stock, lim, log, live)
    ensures SeatLedger(Take(stock, classCells, r), lim, log + [r], live + {r.app})
  {
    forall c {
      CommitWeight(log, live, r, SeatOf(c));
    }
  }

  lemma TakeCourses(
    stock: Stock, classCells: map<ClassId, set<string>>, log: Log, live: set<AppId>, r: Selection)
    requires Takeable(stock, classCells, r) && r.app !in Apps(log) && CourseLedger(stock.courses, log, live)
    ensures CourseLedger(Take(stock, classCells, r).courses, log + [r], live + {r.app})
  {
    var selected: map<CourseId, AppId> := stock.courses[r.student][r.course := r.app];
    assert Take(stock, classCells, r).courses == stock.courses[r.student := selected];
    hide Take, Takeable, Busy;
    PutCourse(stock.courses, log, live, r, selected);
  }

  lemma PutCourse(
    courses: map<StudentId, map<CourseId, AppId>>, log: Log, live: set<AppId>, r: Selection,
    selected: map<CourseId, AppId>)
    requires CourseLedger(courses, log, live) && r.app !in Apps(log)
    requires r.student in courses && r.course !in courses[r.student]
    requires selected == courses[r.student][r.course := r.app]
    ensures CourseLedger(courses[r.student := selected], log + [r], live + {r.app})
  {
    var courses', log', live' := courses[r.student := selected], log + [r], live + {r.app};
    assert forall i :: 0 <= i < |log| ==> log[i].app in Apps(log);
    assert Taken(log', live', r.student, r.course) by {
      assert log'[|log|] == r;
    }
    hide Taken, Apps;
    forall s, c | s in courses' && c in courses'[s] && c != SENTINEL_COURSE
      ensures Taken(log', live', s, c)
    {
      if !(s == r.student && c == r.course) {
        assert c in courses[s];
        TakenGrows(log, live, r, s, c);
      }
    }
  }

  lemma TakenGrows(log: Log, live: set<AppId>, r: Selection, s: StudentId, c: CourseId)
    requires Taken(log, live, s, c)
    ensures Taken(log + [r], live + {r.app}, s, c)
  {
    var i :| 0 <= i < |log| && log[i].app in live && log[i].student == s && log[i].course == c;
    assert (log + [r])[i] == log[i];
  }

  lemma TakeCells(
    stock: Stock, classCells: map<ClassId, set<string>>, log: Log, live: set<AppId>, r: Selection)
    requires Takeable(stock, classCells, r) && r.app !in Apps(log) && CellLedger(stock.cells, classCells, log, live)
    ensures CellLedger(Take(stock, classCells, r).cells, classCells, log + [r], live + {r.app})
  {
    forall s, cell {
      CommitWeight(log, live, r, CellOf(classCells, s, cell));
    }
  }

  /** A class whose cells are free for the student meets none of the student's live selections. */
  lemma TakeConflictFree(
    stock: Stock, classCells: map<ClassId, set<string>>, log: Log, live: set<AppId>, r: Selection)
    requires Takeable(stock, classCells, r) && UniqueApps(log) && r.app !in Apps(log)
    requires CellLedger(stock.cells, classCells, log, live)
    requires ConflictFree(classCells, log, live)
    ensures ConflictFree(classCells, log + [r], live + {r.app})
  {
    assert forall i :: 0 <= i < |log| ==> log[i].app in Apps(log);
    forall i, cell | 0 <= i < |log| && log[i].app in live && log[i].student == r.student
                  && Covers(classCells, log[i].teachingClass, cell)
      ensures !Covers(classCells, r.teachingClass, cell)
    {
      WeightAtLeast(log, live, i, CellOf(classCells, r.student, cell));
      assert Count(stock.cells[r.student], cell) > 0;
    }
  }

  /** An accepted commit charges every counter for exactly the new selection. */
  lemma TakeBalanced(
    stock: Stock, classCells: map<ClassId, set<string>>, lim: Limits, log: Log, live: set<AppId>, r: Selection)
    requires Takeable(stock, classCells, r) && r.app !in Apps(log) && Balanced(stock, classCells, lim, log, live)
    ensures Balanced(Take(stock, classCells, r), classCells, lim, log + [r], live + {r.app})
  {
    TakeQuotas(stock, classCells, lim, log, live, r);
    TakeSeats(stock, classCells, lim, log, live, r);
    TakeCourses(stock, classCells, log, live, r);
    TakeCells(stock, classCells, log, live, r);
  }

  /** The enrollment that the drop path releases is one selection of the log. */
  ghost predicate Describes(e: Enrollment, x: Selection) {
    && e.app == x.app && e.round == x.round && e.student == x.student && e.course == x.course
    && e.teachingClass == x.teachingClass && e.credits == x.credits
  }

  ghost predicate Releasable(
    stock: Stock, classCells: map<ClassId, set<string>>, log: Log, live: set<AppId>, e: Enrollment, k: nat)
  {
    && k < |log| && Describes(e, log[k]) && log[k].app in live && log[k].credits > 0 && e.course != SENTINEL_COURSE
    && UniqueApps(log) && StockKeysExist(stock, classCells, e.student, e.teachingClass)
  }

  lemma GiveBackQuotas(
    stock: Stock, classCells: map<ClassId, set<string>>, lim: Limits, log: Log, live: set<AppId>, e: Enrollment,
    k: nat)
    requires Releasable(stock, classCells, log, live, e, k) && QuotaLedger(stock, lim, log, live)
    ensures QuotaLedger(GiveBack(stock, classCells, e), lim, log, live - {e.app})
  {
    forall s {
      WeightRemove(log, live, k, CreditOf(s));
    }
    forall s {
      WeightRemove(log, live, k, CourseOf(s));
    }
  }

  lemma GiveBackSeats(
    stock: Stock, classCells: map<ClassId, set<string>>, lim: Limits, log: Log, live: set<AppId>, e: Enrollment,
    k: nat)
    requires Releasable(stock, classCells, log, live, e, k) && SeatLedger(stock, lim, log, live)
    ensures SeatLedger(GiveBack(stock, classCells, e), lim, log, live - {e.app})
  {
    forall c {
      WeightRemove(log, live, k, SeatOf(c));
    }
  }

  lemma GiveBackCourses(
    stock: Stock, classCells: map<ClassId, set<string>>, log: Log, live: set<AppId>, e: Enrollment, k: nat)
    requires Releasable(stock, classCells, log, live, e, k) && CourseLedger(stock.courses, log, live)
    ensures CourseLedger(GiveBack(stock, classCells, e).courses, log, live - {e.app})
  {
    var courses', live' := GiveBack(stock, classCells, e).courses, live - {e.app};
    forall s, c | s in courses' && c in courses'[s] && c != SENTINEL_COURSE
      ensures Taken(log, live', s, c)
    {
      assert Taken(log, live, s, c);
      var i :| 0 <= i < |log| && log[i].app in live && log[i].student == s && log[i].course == c;
      assert i != k;
    }
  }

  lemma GiveBackCells(
    stock: Stock, classCells: map<ClassId, set<string>>, log: Log, live: set<AppId>, e: Enrollment, k: nat)
    requires Releasable(stock, classCells, log, live, e, k) && CellLedger(stock.cells, classCells, log, live)
    ensures CellLedger(GiveBack(stock, classCells, e).cells, classCells, log, live - {e.app})
  {
    forall s, cell {
      WeightRemove(log, live, k, CellOf(classCells, s, cell));
    }
  }

  /** A first release gives back exactly what the selection took. */
  lemma GiveBackBalanced(
    stock: Stock, classCells: map<ClassId, set<string>>, lim: Limits, log: Log, live: set<AppId>, e: Enrollment,
    k: nat)
    requires Releasable(stock, classCells, log, live, e, k) && Balanced(stock, classCells, lim, log, live)
    ensures Balanced(GiveBack(stock, classCells, e), classCells, lim, log, live - {e.app})
  {
    GiveBackQuotas(stock, classCells, lim, log, live, e, k);
    GiveBackSeats(stock, classCells, lim, log, live, e, k);
    GiveBackCourses(stock, classCells, log, live, e, k);
    GiveBackCells(stock, classCells, log, live, e, k);
  }
}
