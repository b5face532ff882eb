/** The warmup of a round: the paging loop, the keys it writes, and why they are a correct start. */
module Warmup {
  import opened Types
  import opened RedisScripts
  import opened RedisStore
  import opened MySqlTables
  import opened Schedule
  import opened Eligibility

  datatype WarmClass = WarmClass(
    id: ClassId, course: CourseId, credits: int, capacity: nat, selectedCount: nat, schedules: seq<Slot>, rules: Rules)

  datatype WarmEnrollment = WarmEnrollment(app: AppId, course: CourseId, teachingClass: ClassId, schedules: seq<Slot>)

  datatype WarmStudent = WarmStudent(
    profile: Profile, quota: Quota, achievements: seq<Achievement>, enrollments: seq<WarmEnrollment>)

  datatype IndexStudent = IndexStudent(id: StudentId, eligible: seq<ClassId>, quota: Quota,
                                       enrollments: seq<WarmEnrollment>)

  // --- What is to be written -------------------------------------------------------------------

  predicate WritableClass(c: WarmClass) {
    AllValid(c.schedules) && c.selectedCount <= c.capacity
  }

  predicate AllSchedulesValid(enrollments: seq<WarmEnrollment>) {
    forall i :: 0 <= i < |enrollments| ==> AllValid(enrollments[i].schedules)
  }

  predicate WritableStudent(quota: Quota, enrollments: seq<WarmEnrollment>) {
    && AllSchedulesValid(enrollments)
    && quota.selectedCredits <= quota.creditLimit && quota.selectedCourses <= quota.courseLimit
  }

  ghost predicate ClassWritten(
    c: WarmClass, classes: map<ClassId, ClassSnapshot>, seat: map<ClassId, int>, classCells: map<ClassId, set<string>>)
  {
    && c.id in classes && classes[c.id] == ClassSnapshot(c.course, c.credits, c.capacity)
    && c.id in seat && seat[c.id] == c.capacity - c.selectedCount
    && c.id in classCells && SENTINEL_CELL in classCells[c.id]
    && CellsOf(classCells[c.id] - {SENTINEL_CELL}, c.schedules)
  }

  function CourseHash(enrollments: seq<WarmEnrollment>): map<CourseId, AppId> {
    if enrollments == [] then map[SENTINEL_COURSE := SENTINEL_CELL]
    else
      var e := enrollments[|enrollments| - 1];
      CourseHash(enrollments[..|enrollments| - 1])[e.course := e.app]
  }

  /** How many enrollments meet in a cell. */
  ghost function Covering(enrollments: seq<WarmEnrollment>, cell: string): nat {
    if enrollments == [] then 0
    else
      var e := enrollments[|enrollments| - 1];
      Covering(enrollments[..|enrollments| - 1], cell) + if CoversCell(e.schedules, cell) then 1 else 0
  }

  ghost predicate CellHash(cells: map<string, int>, enrollments: seq<WarmEnrollment>) {
    && SENTINEL_CELL in cells && cells[SENTINEL_CELL] == 0
    && (forall cell :: cell != SENTINEL_CELL ==> Count(cells, cell) == Covering(enrollments, cell))
    && (forall cell :: cell in cells && cell != SENTINEL_CELL ==> cells[cell] > 0)
  }

  ghost predicate StudentWritten(
    id: StudentId, allowed: set<ClassId>, quota: Quota, enrollments: seq<WarmEnrollment>,
    eligible: map<StudentId, set<ClassId>>, stock: Stock)
  {
    && id in eligible && eligible[id] == allowed
    && id in stock.credit && stock.credit[id] == quota.creditLimit - quota.selectedCredits >= 0
    && id in stock.courseQuota && stock.courseQuota[id] == quota.courseLimit - quota.selectedCourses >= 0
    && id in stock.courses && stock.courses[id] == CourseHash(enrollments)
    && id in stock.cells && CellHash(stock.cells[id], enrollments)
  }

  ghost predicate DistinctClasses(classes: seq<WarmClass>) {
    forall i, j {:trigger classes[i], classes[j]} :: 0 <= i < j < |classes| ==> classes[i].id != classes[j].id
  }

  ghost predicate DistinctStudents(students: seq<IndexStudent>) {
    forall i, j {:trigger students[i], students[j]} :: 0 <= i < j < |students| ==> students[i].id != students[j].id
  }

  function Members(classes: seq<ClassId>): set<ClassId> {
    set c | c in classes
  }

  ghost function ClassIds(classes: seq<WarmClass>): set<ClassId> {
    set i | 0 <= i < |classes| :: classes[i].id
  }

  ghost function StudentIds(students: seq<IndexStudent>): set<StudentId> {
    set i | 0 <= i < |students| :: students[i].id
  }

  lemma CoveringAppend(enrollments: seq<WarmEnrollment>, e: WarmEnrollment, cell: string)
    ensures Covering(enrollments + [e], cell)
            == Covering(enrollments, cell) + if CoversCell(e.schedules, cell) then 1 else 0
  {
    assert (enrollments + [e])[..|enrollments|] == enrollments;
  }

  /** One more enrollment raises the counters of exactly its cells. */
  lemma OccupyCellHash(cells: map<string, int>, enrollments: seq<WarmEnrollment>, e: WarmEnrollment, slots: set<string>)
    requires CellHash(cells, enrollments) && CellsOf(slots, e.schedules)
    ensures CellHash(Occupy(cells, slots), enrollments + [e])
  {
    SentinelUncovered(e.schedules);
    forall cell {
      CoveringAppend(enrollments, e, cell);
    }
  }

  /** The course hash and the cell counters of one student. */
  method BuildHashes(enrollments: seq<WarmEnrollment>)
    returns (ok: bool, courses: map<CourseId, AppId>, cells: map<string, int>)
    ensures ok == AllSchedulesValid(enrollments)
    ensures ok ==> courses == CourseHash(enrollments) && CellHash(cells, enrollments)
  {
    courses, cells := map[SENTINEL_COURSE := SENTINEL_CELL], map[SENTINEL_CELL := 0];
    for i := 0 to |enrollments|
      invariant AllSchedulesValid(enrollments[..i])
      invariant courses == CourseHash(enrollments[..i]) && CellHash(cells, enrollments[..i])
    {
      var e := enrollments[i];
      assert enrollments[..i + 1] == enrollments[..i] + [e] && enrollments[..i + 1][..i] == enrollments[..i];
      var slots := ScheduleCells(e.schedules);
      if slots.Err? {
        return false, courses, cells;
      }
      OccupyCellHash(cells, enrollments[..i], e, slots.value);
      courses := courses[e.course := e.app];
      cells := IncrementCells(cells, slots.value);
    }
    assert enrollments[..|enrollments|] == enrollments;
    ok := true;
  }

  // --- One class, one student at a time --------------------------------------------------------

  datatype ClassKeys = ClassKeys(classes: map<ClassId, ClassSnapshot>, seat: map<ClassId, int>,
                                 cells: map<ClassId, set<string>>)

  ghost predicate ClassesWritten(list: seq<WarmClass>, before: ClassKeys, after: ClassKeys) {
    && (forall i :: 0 <= i < |list| ==> ClassWritten(list[i], after.classes, after.seat, after.cells))
    && after.classes.Keys == before.classes.Keys + ClassIds(list)
    && after.seat.Keys == before.seat.Keys + ClassIds(list)
    && after.cells.Keys == before.cells.Keys + ClassIds(list)
  }

  function PutClass(keys: ClassKeys, c: WarmClass, slots: set<string>): ClassKeys {
    ClassKeys(keys.classes[c.id := ClassSnapshot(c.course, c.credits, c.capacity)],
              keys.seat[c.id := c.capacity - c.selectedCount],
              keys.cells[c.id := slots + {SENTINEL_CELL}])
  }

  lemma PutClassWritten(list: seq<WarmClass>, before: ClassKeys, keys: ClassKeys, c: WarmClass, slots: set<string>)
    requires ClassesWritten(list, before, keys) && DistinctClasses(list + [c]) && CellsOf(slots, c.schedules)
    ensures ClassesWritten(list + [c], before, PutClass(keys, c, slots))
  {
    hide ClassWritten, CellsOf;
    var all, keys' := list + [c], PutClass(keys, c, slots);
    ClassIdsAppend(list, c);
    PutClassOne(keys, c, slots);
    forall i | 0 <= i < |all| ensures ClassWritten(all[i], keys'.classes, keys'.seat, keys'.cells) {
      if i < |list| {
        assert all[i] == list[i] && all[|list|] == c && all[i].id != all[|list|].id;
        PutClassOther(keys, c, slots, list[i]);
      }
    }
  }

  lemma ClassIdsAppend(list: seq<WarmClass>, c: WarmClass)
    ensures ClassIds(list + [c]) == ClassIds(list) + {c.id}
  {
    var all := list + [c];
    assert all[|list|] == c && forall i :: 0 <= i < |list| ==> all[i] == list[i];
  }

  lemma PutClassOne(keys: ClassKeys, c: WarmClass, slots: set<string>)
    requires CellsOf(slots, c.schedules)
    ensures var keys' := PutClass(keys, c, slots); ClassWritten(c, keys'.classes, keys'.seat, keys'.cells)
  {
    SentinelUncovered(c.schedules);
    assert slots + {SENTINEL_CELL} - {SENTINEL_CELL} == slots;
  }

  lemma PutClassOther(keys: ClassKeys, c: WarmClass, slots: set<string>, x: WarmClass)
    requires ClassWritten(x, keys.classes, keys.seat, keys.cells) && x.id != c.id
    ensures var keys' := PutClass(keys, c, slots); ClassWritten(x, keys'.classes, keys'.seat, keys'.cells)
  {
    hide CellsOf;
  }

  method BuildClasses(before: ClassKeys, list: seq<WarmClass>) returns (ok: bool, keys: ClassKeys)
    requires DistinctClasses(list)
    ensures ok <==> forall i :: 0 <= i < |list| ==> WritableClass(list[i])
    ensures ok ==> ClassesWritten(list, before, keys)
  {
    hide ClassesWritten, PutClass;
    keys := before;
    assert ClassesWritten([], before, keys) by { NoClasses(before); }
    for i := 0 to |list|
      invariant forall k :: 0 <= k < i ==> WritableClass(list[k])
      invariant ClassesWritten(list[..i], before, keys)
    {
      var c := list[i];
      assert list[..i + 1] == list[..i] + [c];
      var slots := ScheduleCells(c.schedules);
      if slots.Err? || c.selectedCount > c.capacity {
        return false, keys;
      }
      PutClassWritten(list[..i], before, keys, c, slots.value);
      keys := PutClass(keys, c, slots.value);
    }
    assert list[..|list|] == list;
    ok := true;
  }

  lemma NoClasses(keys: ClassKeys)
    ensures ClassesWritten([], keys, keys)
  {
    assert ClassIds([]) == {};
  }

  ghost predicate Elsewhere<V>(ids: set<StudentId>, m: map<StudentId, V>, m': map<StudentId, V>) {
    m'.Keys == m.Keys + ids && forall s :: s in m && s !in ids ==> m'[s] == m[s]
  }

  lemma PutElsewhere<V>(ids: set<StudentId>, m: map<StudentId, V>, m': map<StudentId, V>, s: StudentId, v: V)
    requires Elsewhere(ids, m, m')
    ensures Elsewhere(ids + {s}, m, m'[s := v])
  {
  }

  /** Only the keys of the given students may differ. */
  ghost predicate SameElsewhere(
    ids: set<StudentId>, eligible: map<StudentId, set<ClassId>>, stock: Stock,
    eligible': map<StudentId, set<ClassId>>, stock': Stock)
  {
    && Elsewhere(ids, eligible, eligible') && Elsewhere(ids, stock.credit, stock'.credit)
    && Elsewhere(ids, stock.courseQuota, stock'.courseQuota) && Elsewhere(ids, stock.courses, stock'.courses)
    && Elsewhere(ids, stock.cells, stock'.cells)
  }

  ghost predicate StudentsWritten(
    list: seq<IndexStudent>, eligible: map<StudentId, set<ClassId>>, stock: Stock,
    eligible': map<StudentId, set<ClassId>>, stock': Stock)
  {
    && (forall i :: 0 <= i < |list| ==>
          StudentWritten(list[i].id, Members(list[i].eligible), list[i].quota, list[i].enrollments, eligible', stock'))
    && SameElsewhere(StudentIds(list), eligible, stock, eligible', stock') && stock'.seat == stock.seat
  }

  function PutStudent(stock: Stock, st: IndexStudent, courses: map<CourseId, AppId>, cells: map<string, int>): Stock {
    Stock(stock.credit[st.id := st.quota.creditLimit - st.quota.selectedCredits],
          stock.courseQuota[st.id := st.quota.courseLimit - st.quota.selectedCourses],
          stock.seat, stock.courses[st.id := courses], stock.cells[st.id := cells])
  }

  lemma PutStudentWritten(
    list: seq<IndexStudent>, eligible: map<StudentId, set<ClassId>>, stock: Stock,
    eligible': map<StudentId, set<ClassId>>, stock': Stock, st: IndexStudent, courses: map<CourseId, AppId>,
    cells: map<string, int>)
    requires StudentsWritten(list, eligible, stock, eligible', stock') && DistinctStudents(list + [st])
    requires WritableStudent(st.quota, st.enrollments) && courses == CourseHash(st.enrollments)
    requires CellHash(cells, st.enrollments)
    ensures StudentsWritten(list + [st], eligible, stock, eligible'[st.id := Members(st.eligible)],
                            PutStudent(stock', st, courses, cells))
  {
    hide CourseHash, CellHash, StudentWritten, SameElsewhere, Members, AllSchedulesValid;
    var all := list + [st];
    var eligible'', stock'' := eligible'[st.id := Members(st.eligible)], PutStudent(stock', st, courses, cells);
    StudentIdsAppend(list, st);
    PutStudentElsewhere(StudentIds(list), eligible, stock, eligible', stock', st, courses, cells);
    PutStudentOne(eligible', stock', st, courses, cells);
    forall i | 0 <= i < |all|
      ensures StudentWritten(all[i].id, Members(all[i].eligible), all[i].quota, all[i].enrollments, eligible'', stock'')
    {
      if i < |list| {
        assert all[i] == list[i] && all[|list|] == st && all[i].id != all[|list|].id;
        PutStudentOther(eligible', stock', st, courses, cells, list[i]);
      }
    }
  }

  lemma StudentIdsAppend(list: seq<IndexStudent>, st: IndexStudent)
    ensures StudentIds(list + [st]) == StudentIds(list) + {st.id}
  {
    var all := list + [st];
    assert all[|list|] == st && forall i :: 0 <= i < |list| ==> all[i] == list[i];
  }

  lemma PutStudentElsewhere(
    ids: set<StudentId>, eligible: map<StudentId, set<ClassId>>, stock: Stock,
    eligible': map<StudentId, set<ClassId>>, stock': Stock, st: IndexStudent, courses: map<CourseId, AppId>,
    cells: map<string, int>)
    requires SameElsewhere(ids, eligible, stock, eligible', stock')
    ensures SameElsewhere(ids + {st.id}, eligible, stock, eligible'[st.id := Members(st.eligible)],
                          PutStudent(stock', st, courses, cells))
  {
    hide Elsewhere, Members;
    PutElsewhere(ids, eligible, eligible', st.id, Members(st.eligible));
    PutElsewhere(ids, stock.credit, stock'.credit, st.id, st.quota.creditLimit - st.quota.selectedCredits);
    PutElsewhere(ids, stock.courseQuota, stock'.courseQuota, st.id, st.quota.courseLimit - st.quota.selectedCourses);
    PutElsewhere(ids, stock.courses, stock'.courses, st.id, courses);
    PutElsewhere(ids, stock.cells, stock'.cells, st.id, cells);
  }

  lemma PutStudentOne(
    eligible: map<StudentId, set<ClassId>>, stock: Stock, st: IndexStudent, courses: map<CourseId, AppId>,
    cells: map<string, int>)
    requires WritableStudent(st.quota, st.enrollments) && courses == CourseHash(st.enrollments)
    requires CellHash(cells, st.enrollments)
    ensures StudentWritten(st.id, Members(st.eligible), st.quota, st.enrollments,
                           eligible[st.id := Members(st.eligible)], PutStudent(stock, st, courses, cells))
  {
    hide CourseHash, CellHash;
  }

  lemma PutStudentOther(
    eligible: map<StudentId, set<ClassId>>, stock: Stock, st: IndexStudent, courses: map<CourseId, AppId>,
    cells: map<string, int>, x: IndexStudent)
    requires StudentWritten(x.id, Members(x.eligible), x.quota, x.enrollments, eligible, stock) && x.id != st.id
    ensures StudentWritten(x.id, Members(x.eligible), x.quota, x.enrollments,
                           eligible[st.id := Members(st.eligible)], PutStudent(stock, st, courses, cells))
  {
    hide CourseHash, CellHash;
  }

  lemma NoStudents(eligible: map<StudentId, set<ClassId>>, stock: Stock)
    ensures StudentsWritten([], eligible, stock, eligible, stock)
  {
    assert StudentIds([]) == {};
  }

  method BuildStudents(eligible: map<StudentId, set<ClassId>>, stock: Stock, list: seq<IndexStudent>)
    returns (ok: bool, eligible': map<StudentId, set<ClassId>>, stock': Stock)
    requires DistinctStudents(list)
    ensures ok <==> forall i :: 0 <= i < |list| ==> WritableStudent(list[i].quota, list[i].enrollments)
    ensures ok ==> StudentsWritten(list, eligible, stock, eligible', stock')
  {
    hide StudentsWritten, PutStudent, CourseHash, CellHash, AllSchedulesValid, Members;
    eligible', stock' := eligible, stock;
    NoStudents(eligible, stock);
    for i := 0 to |list|
      invariant forall k :: 0 <= k < i ==> WritableStudent(list[k].quota, list[k].enrollments)
      invariant StudentsWritten(list[..i], eligible, stock, eligible', stock')
    {
      var st := list[i];
      assert list[..i + 1] == list[..i] + [st];
      var valid, hash, counters := BuildHashes(st.enrollments);
      if !valid || st.quota.selectedCredits > st.quota.creditLimit || st.quota.selectedCourses > st.quota.courseLimit {
        return false, eligible', stock';
      }
      PutStudentWritten(list[..i], eligible, stock, eligible', stock', st, hash, counters);
      eligible' := eligible'[st.id := Members(st.eligible)];
      stock' := PutStudent(stock', st, hash, counters);
    }
    assert list[..|list|] == list;
    ok := true;
  }

  // --- The index -------------------------------------------------------------------------------

  class EligibilityIndex {
    var classes: map<ClassId, ClassSnapshot>
    var classCells: map<ClassId, set<string>>
    var eligible: map<StudentId, set<ClassId>>
    var seat: map<ClassId, int>
    var credit: map<StudentId, int>
    var courseQuota: map<StudentId, int>
    var courses: map<StudentId, map<CourseId, AppId>>
    var cells: map<StudentId, map<string, int>>

    constructor ()
      ensures classes == map[] && classCells == map[] && eligible == map[] && seat == map[] && credit == map[]
      ensures courseQuota == map[] && courses == map[] && cells == map[]
    {
      classes, classCells, eligible, seat, credit, courseQuota := map[], map[], map[], map[], map[], map[];
      courses, cells := map[], map[];
    }

    function StockValue(): Stock
      reads this
    {
      Stock(credit, courseQuota, seat, courses, cells)
    }

    /** Nothing is sent unless every class can be written. */
    method WriteSnapshot(list: seq<WarmClass>) returns (ok: bool)
      requires DistinctClasses(list)
      modifies this`classes, this`classCells, this`seat
      ensures ok <==> forall i :: 0 <= i < |list| ==> WritableClass(list[i])
      ensures ok ==> ClassesWritten(list, ClassKeys(old(classes), old(seat), old(classCells)),
                                    ClassKeys(classes, seat, classCells))
      ensures !ok ==> unchanged(this)
    {
      var keys;
      ok, keys := BuildClasses(ClassKeys(classes, seat, classCells), list);
      if ok {
        classes, seat, classCells := keys.classes, keys.seat, keys.cells;
      }
    }

    /** Replaces every key of the listed students, or nothing at all. */
    method WriteStudents(list: seq<IndexStudent>) returns (ok: bool)
      requires DistinctStudents(list)
      modifies this`eligible, this`credit, this`courseQuota, this`courses, this`cells
      ensures ok <==> forall i :: 0 <= i < |list| ==> WritableStudent(list[i].quota, list[i].enrollments)
      ensures ok ==> StudentsWritten(list, old(eligible), old(StockValue()), eligible, StockValue())
      ensures !ok ==> unchanged(this)
    {
      hide StudentWritten, SameElsewhere, WritableStudent;
      var eligible', stock;
      ok, eligible', stock := BuildStudents(eligible, StockValue(), list);
      if ok {
        eligible, credit, courseQuota := eligible', stock.credit, stock.courseQuota;
        courses, cells := stock.courses, stock.cells;
      }
    }
  }

  // --- The paging loop -------------------------------------------------------------------------

  ghost predicate Ascending(students: seq<WarmStudent>) {
    && (forall i :: 0 <= i < |students| ==> students[i].profile.id > 0)
    && (forall i, j :: 0 <= i < j < |students| ==> students[i].profile.id < students[j].profile.id)
  }

  /** The classes that the policy opens to a student. */
  ghost function Allowed(st: WarmStudent, classes: seq<WarmClass>): set<ClassId> {
    set i | 0 <= i < |classes| && Eligible(st.profile, classes[i].rules, st.achievements) :: classes[i].id
  }

  function Ids(students: seq<WarmStudent>): seq<StudentId> {
    seq(|students|, i requires 0 <= i < |students| => students[i].profile.id)
  }

  /** One page of the round's students, by the id cursor. */
  method ListPage(all: seq<WarmStudent>, after: StudentId, limit: nat, ghost from: nat) returns (page: seq<WarmStudent>)
    requires Ascending(all) && from <= |all| && after == if from == 0 then 0 else all[from - 1].profile.id
    ensures page == all[from..if from + limit <= |all| then from + limit else |all|]
  {
    page := [];
    ghost var taken := 0;
    for i := 0 to |all|
      invariant taken == if i <= from then 0 else if i - from <= limit then i - from else limit
      invariant from + taken <= |all| && page == all[from..from + taken]
    {
      if all[i].profile.id > after && |page| < limit {
        assert i >= from;
        page := page + [all[i]];
        taken := taken + 1;
      }
    }
  }

  method EligibleClasses(st: WarmStudent, classes: seq<WarmClass>) returns (ids: seq<ClassId>)
    ensures Members(ids) == Allowed(st, classes)
  {
    ids := [];
    for i := 0 to |classes|
      invariant Members(ids) == Allowed(st, classes[..i])
    {
      var refusal := Evaluate(st.profile, classes[i].rules, st.achievements);
      AllowedAppend(st, classes, i);
      if refusal == None {
        ids := ids + [classes[i].id];
      }
    }
    assert classes[..|classes|] == classes;
  }

  lemma AllowedAppend(st: WarmStudent, classes: seq<WarmClass>, i: nat)
    requires i < |classes|
    ensures Allowed(st, classes[..i + 1]) == Allowed(st, classes[..i])
              + if Eligible(st.profile, classes[i].rules, st.achievements) then {classes[i].id} else {}
  {
    var init, all := classes[..i], classes[..i + 1];
    assert all[i] == classes[i] && forall k :: 0 <= k < i ==> all[k] == init[k];
  }

  ghost predicate BatchOf(batch: seq<IndexStudent>, page: seq<WarmStudent>, classes: seq<WarmClass>) {
    && |batch| == |page|
    && forall i :: 0 <= i < |batch| ==>
         && batch[i].id == page[i].profile.id && batch[i].quota == page[i].quota
         && batch[i].enrollments == page[i].enrollments && Members(batch[i].eligible) == Allowed(page[i], classes)
  }

  method BuildBatch(page: seq<WarmStudent>, classes: seq<WarmClass>) returns (batch: seq<IndexStudent>)
    ensures BatchOf(batch, page, classes)
  {
    hide Allowed, Members;
    batch := [];
    for i := 0 to |page|
      invariant BatchOf(batch, page[..i], classes)
    {
      var ids := EligibleClasses(page[i], classes);
      batch := batch + [IndexStudent(page[i].profile.id, ids, page[i].quota, page[i].enrollments)];
    }
    assert page[..|page|] == page;
  }

  /** Every listed student has exactly the keys that the tables and the policy prescribe. */
  ghost predicate Indexed(
    students: seq<WarmStudent>, classes: seq<WarmClass>, eligible: map<StudentId, set<ClassId>>, stock: Stock)
  {
    forall i :: 0 <= i < |students| ==>
      StudentWritten(students[i].profile.id, Allowed(students[i], classes), students[i].quota, students[i].enrollments,
                     eligible, stock)
  }

  ghost function ProfileIds(students: seq<WarmStudent>): set<StudentId> {
    set i | 0 <= i < |students| :: students[i].profile.id
  }

  ghost predicate KeysAre(ids: set<StudentId>, eligible: map<StudentId, set<ClassId>>, stock: Stock) {
    eligible.Keys == stock.credit.Keys == stock.courseQuota.Keys == stock.courses.Keys == stock.cells.Keys == ids
  }

  ghost predicate AllWritable(students: seq<WarmStudent>) {
    forall i :: 0 <= i < |students| ==> WritableStudent(students[i].quota, students[i].enrollments)
  }

  lemma BatchDistinct(batch: seq<IndexStudent>, all: seq<WarmStudent>, from: nat, to: nat, classes: seq<WarmClass>)
    requires from <= to <= |all| && Ascending(all) && BatchOf(batch, all[from..to], classes)
    ensures DistinctStudents(batch)
    ensures StudentIds(batch) == ProfileIds(all[from..to])
    ensures ProfileIds(all[..to]) == ProfileIds(all[..from]) + StudentIds(batch)
  {
    hide Members, Allowed;
    var page := all[from..to];
    assert forall i :: 0 <= i < |page| ==> page[i] == all[from + i] && batch[i].id == page[i].profile.id;
    assert all[..to] == all[..from] + page;
    ProfileIdsConcat(all[..from], page);
  }

  lemma ProfileIdsConcat(a: seq<WarmStudent>, b: seq<WarmStudent>)
    ensures ProfileIds(a + b) == ProfileIds(a) + ProfileIds(b)
  {
    var c := a + b;
    assert (forall i :: 0 <= i < |a| ==> c[i] == a[i]) && forall i :: 0 <= i < |b| ==> c[|a| + i] == b[i];
  }

  /** Writing the next page keeps the earlier students and adds the new ones. */
  lemma PageIndexed(
    all: seq<WarmStudent>, from: nat, to: nat, classes: seq<WarmClass>, batch: seq<IndexStudent>,
    eligible: map<StudentId, set<ClassId>>, stock: Stock, eligible': map<StudentId, set<ClassId>>, stock': Stock)
    requires from <= to <= |all| && Ascending(all) && BatchOf(batch, all[from..to], classes)
    requires Indexed(all[..from], classes, eligible, stock) && KeysAre(ProfileIds(all[..from]), eligible, stock)
    requires StudentsWritten(batch, eligible, stock, eligible', stock')
    ensures Indexed(all[..to], classes, eligible', stock') && KeysAre(ProfileIds(all[..to]), eligible', stock')
  {
    hide Indexed, SameElsewhere, KeysAre, ProfileIds, StudentIds, BatchOf, StudentWritten, Ascending;
    BatchDistinct(batch, all, from, to, classes);
    KeysGrow(ProfileIds(all[..from]), StudentIds(batch), eligible, stock, eligible', stock');
    forall i | 0 <= i < from ensures all[..from][i].profile.id !in StudentIds(batch) {
      EarlierElsewhere(all, from, to, classes, batch, i);
    }
    IndexedKept(all[..from], classes, StudentIds(batch), eligible, stock, eligible', stock');
    IndexedBatch(batch, all[from..to], classes, eligible', stock');
    IndexedConcat(all[..from], all[from..to], classes, eligible', stock');
    assert all[..from] + all[from..to] == all[..to];
  }

  lemma IndexedKept(
    students: seq<WarmStudent>, classes: seq<WarmClass>, ids: set<StudentId>, eligible: map<StudentId, set<ClassId>>,
    stock: Stock, eligible': map<StudentId, set<ClassId>>, stock': Stock)
    requires Indexed(students, classes, eligible, stock) && SameElsewhere(ids, eligible, stock, eligible', stock')
    requires forall i :: 0 <= i < |students| ==> students[i].profile.id !in ids
    ensures Indexed(students, classes, eligible', stock')
  {
    hide StudentWritten, SameElsewhere, Allowed;
    forall i | 0 <= i < |students|
      ensures StudentWritten(students[i].profile.id, Allowed(students[i], classes), students[i].quota,
                             students[i].enrollments, eligible', stock')
    {
      StudentKept(ids, students[i].profile.id, Allowed(students[i], classes), students[i].quota,
                  students[i].enrollments, eligible, stock, eligible', stock');
    }
  }

  lemma IndexedBatch(
    batch: seq<IndexStudent>, page: seq<WarmStudent>, classes: seq<WarmClass>, eligible: map<StudentId, set<ClassId>>,
    stock: Stock)
    requires BatchOf(batch, page, classes)
    requires forall i :: 0 <= i < |batch| ==>
               StudentWritten(batch[i].id, Members(batch[i].eligible), batch[i].quota, batch[i].enrollments, eligible,
                              stock)
    ensures Indexed(page, classes, eligible, stock)
  {
    hide StudentWritten, Allowed, Members;
    forall i | 0 <= i < |page|
      ensures StudentWritten(page[i].profile.id, Allowed(page[i], classes), page[i].quota, page[i].enrollments,
                             eligible, stock)
    {
      assert batch[i].id == page[i].profile.id;
    }
  }

  lemma IndexedConcat(
    a: seq<WarmStudent>, b: seq<WarmStudent>, classes: seq<WarmClass>, eligible: map<StudentId, set<ClassId>>,
    stock: Stock)
    requires Indexed(a, classes, eligible, stock) && Indexed(b, classes, eligible, stock)
    ensures Indexed(a + b, classes, eligible, stock)
  {
    hide StudentWritten, Allowed;
    var all := a + b;
    forall i | 0 <= i < |all|
      ensures StudentWritten(all[i].profile.id, Allowed(all[i], classes), all[i].quota, all[i].enrollments, eligible,
                             stock)
    {
      if i < |a| {
        assert all[i] == a[i];
      } else {
        assert all[i] == b[i - |a|];
      }
    }
  }

  lemma EarlierElsewhere(
    all: seq<WarmStudent>, from: nat, to: nat, classes: seq<WarmClass>, batch: seq<IndexStudent>, i: nat)
    requires i < from <= to <= |all| && Ascending(all) && BatchOf(batch, all[from..to], classes)
    ensures all[i].profile.id !in StudentIds(batch)
  {
    hide Members, Allowed;
    forall k | 0 <= k < |batch| ensures batch[k].id != all[i].profile.id {
      assert all[from..to][k] == all[from + k];
    }
  }

  lemma StudentKept(
    ids: set<StudentId>, id: StudentId, allowed: set<ClassId>, quota: Quota, enrollments: seq<WarmEnrollment>,
    eligible: map<StudentId, set<ClassId>>, stock: Stock, eligible': map<StudentId, set<ClassId>>, stock': Stock)
    requires StudentWritten(id, allowed, quota, enrollments, eligible, stock)
    requires SameElsewhere(ids, eligible, stock, eligible', stock') && id !in ids
    ensures StudentWritten(id, allowed, quota, enrollments, eligible', stock')
  {
    hide CourseHash, CellHash;
  }

  lemma KeysGrow(
    known: set<StudentId>, ids: set<StudentId>, eligible: map<StudentId, set<ClassId>>, stock: Stock,
    eligible': map<StudentId, set<ClassId>>, stock': Stock)
    requires KeysAre(known, eligible, stock) && SameElsewhere(ids, eligible, stock, eligible', stock')
    ensures KeysAre(known + ids, eligible', stock')
  {
  }

  /** The page loop after WriteSnapshot: everyone once, in ascending id, with the keys of their own record. */
  method WarmupStudents(index: EligibilityIndex, all: seq<WarmStudent>, classes: seq<WarmClass>, pageSize: nat)
    returns (ok: bool, visited: seq<StudentId>)
    requires Ascending(all) && pageSize > 0 && KeysAre({}, index.eligible, index.StockValue())
    modifies index
    ensures ok <==> AllWritable(all) && all != []
    ensures ok ==> visited == Ids(all)
    ensures ok ==> Indexed(all, classes, index.eligible, index.StockValue())
    ensures ok ==> KeysAre(ProfileIds(all), index.eligible, index.StockValue())
    ensures index.classes == old(index.classes) && index.seat == old(index.seat)
            && index.classCells == old(index.classCells)
  {
    hide Indexed, KeysAre, StudentsWritten, WritableStudent, BatchOf, Ascending;
    visited := [];
    var after: StudentId := 0;
    ghost var from := 0;
    NobodyIndexed(classes, index.eligible, index.StockValue());
    assert all[..0] == [];
    while true
      invariant from <= |all| && AllWritable(all[..from])
      invariant after == if from == 0 then 0 else all[from - 1].profile.id
      invariant visited == Ids(all[..from])
      invariant Indexed(all[..from], classes, index.eligible, index.StockValue())
      invariant KeysAre(ProfileIds(all[..from]), index.eligible, index.StockValue())
      invariant index.classes == old(index.classes) && index.seat == old(index.seat)
                && index.classCells == old(index.classCells)
      decreases |all| - from
    {
      var page := ListPage(all, after, pageSize, from);
      if |page| == 0 {
        break;
      }
      ghost var to := from + |page|;
      assert page == all[from..to];
      var batch := BuildBatch(page, classes);
      BatchDistinct(batch, all, from, to, classes);
      ghost var eligible, stock := index.eligible, index.StockValue();
      ok := index.WriteStudents(batch);
      if !ok {
        BatchUnwritable(all, from, to, batch, classes);
        return;
      }
      BatchWritable(all, from, to, batch, classes);
      PageIndexed(all, from, to, classes, batch, eligible, stock, index.eligible, index.StockValue());
      assert all[..to] == all[..from] + page;
      visited := visited + Ids(page);
      after := page[|page| - 1].profile.id;
      from := to;
      if |page| < pageSize {
        break;
      }
    }
    assert from == |all| && all[..from] == all;
    ok := |visited| > 0;
  }

  lemma NobodyIndexed(classes: seq<WarmClass>, eligible: map<StudentId, set<ClassId>>, stock: Stock)
    requires KeysAre({}, eligible, stock)
    ensures Indexed([], classes, eligible, stock) && KeysAre(ProfileIds([]), eligible, stock)
  {
    assert ProfileIds([]) == {};
  }

  lemma BatchWritable(all: seq<WarmStudent>, from: nat, to: nat, batch: seq<IndexStudent>, classes: seq<WarmClass>)
    requires from <= to <= |all| && BatchOf(batch, all[from..to], classes) && AllWritable(all[..from])
    requires forall i :: 0 <= i < |batch| ==> WritableStudent(batch[i].quota, batch[i].enrollments)
    ensures AllWritable(all[..to])
  {
    hide WritableStudent, Members, Allowed;
    forall i | 0 <= i < to ensures WritableStudent(all[i].quota, all[i].enrollments) {
      if i < from {
        assert all[..from][i] == all[i];
      } else {
        assert all[from..to][i - from] == all[i] && batch[i - from].quota == all[i].quota;
      }
    }
  }

  lemma BatchUnwritable(all: seq<WarmStudent>, from: nat, to: nat, batch: seq<IndexStudent>, classes: seq<WarmClass>)
    requires from <= to <= |all| && BatchOf(batch, all[from..to], classes)
    requires !forall i :: 0 <= i < |batch| ==> WritableStudent(batch[i].quota, batch[i].enrollments)
    ensures !AllWritable(all)
  {
    hide WritableStudent, Members, Allowed;
    var i :| 0 <= i < |batch| && !WritableStudent(batch[i].quota, batch[i].enrollments);
    assert all[from..to][i] == all[from + i];
  }
}
