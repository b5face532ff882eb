/**
  Timetables as cells: a slot list becomes the set of `week:day:section` strings it covers, and two
  slot lists overlap exactly when they share a cell.
 */
module Schedule {
  import opened Types
  import opened Numerals
  import opened Ledger
  import opened RedisScripts
  import opened RedisLedger

  datatype Slot = Slot(day: nat, startWeek: nat, endWeek: nat, startSection: nat, endSection: nat)

  predicate ValidSlot(s: Slot) {
    1 <= s.day <= 7 && 1 <= s.startWeek <= s.endWeek && 1 <= s.startSection <= s.endSection
  }

  predicate AllValid(slots: seq<Slot>) {
    forall i :: 0 <= i < |slots| ==> ValidSlot(slots[i])
  }

  predicate Conflicts(a: Slot, b: Slot) {
    && ValidSlot(a) && ValidSlot(b) && a.day == b.day
    && a.startWeek <= b.endWeek && b.startWeek <= a.endWeek
    && a.startSection <= b.endSection && b.startSection <= a.endSection
  }

  predicate AnyConflict(a: seq<Slot>, b: seq<Slot>) {
    exists i, j :: 0 <= i < |a| && 0 <= j < |b| && Conflicts(a[i], b[j])
  }

  // --- Cells -----------------------------------------------------------------------------------

  function Cell(week: nat, day: nat, section: nat): string {
    Digits(week) + ":" + Digits(day) + ":" + Digits(section)
  }

  predicate ColonFree(s: string) {
    forall i :: 0 <= i < |s| ==> s[i] != ':'
  }

  lemma SplitUnique(a: string, x: string, b: string, y: string)
    requires ColonFree(a) && ColonFree(b) && a + ":" + x == b + ":" + y
    ensures a == b && x == y
  {
    var s := a + ":" + x;
    assert s == b + ":" + y;
    assert s[|a|] == ':' && s[|b|] == ':';
    assert forall i :: 0 <= i < |a| ==> s[i] == a[i];
    assert forall i :: 0 <= i < |b| ==> s[i] == b[i];
    assert |a| == |b|;
    assert a == s[..|a|] && x == s[|a| + 1..];
    assert b == s[..|b|] && y == s[|b| + 1..];
  }

  /** A cell determines its week, day and section, and is never the sentinel. */
  lemma CellInjective(w: nat, d: nat, x: nat, w': nat, d': nat, x': nat)
    ensures Cell(w, d, x) == Cell(w', d', x') <==> w == w' && d == d' && x == x'
    ensures Cell(w, d, x) != SENTINEL_CELL
  {
    DigitsPlain(w);
    DigitsPlain(w');
    DigitsPlain(d);
    DigitsPlain(d');
    assert Cell(w, d, x)[|Digits(w)|] == ':';
    if Cell(w, d, x) == Cell(w', d', x') {
      assert Cell(w, d, x) == Digits(w) + ":" + (Digits(d) + ":" + Digits(x));
      assert Cell(w', d', x') == Digits(w') + ":" + (Digits(d') + ":" + Digits(x'));
      SplitUnique(Digits(w), Digits(d) + ":" + Digits(x), Digits(w'), Digits(d') + ":" + Digits(x'));
      SplitUnique(Digits(d), Digits(x), Digits(d'), Digits(x'));
      DigitsInjective(w, w');
      DigitsInjective(d, d');
      DigitsInjective(x, x');
    }
  }

  ghost predicate InSlot(slot: Slot, week: nat, day: nat, section: nat) {
    day == slot.day && slot.startWeek <= week <= slot.endWeek && slot.startSection <= section <= slot.endSection
  }

  ghost predicate SlotCovers(slot: Slot, cell: string) {
    exists w: nat, d: nat, x: nat :: InSlot(slot, w, d, x) && cell == Cell(w, d, x)
  }

  ghost predicate CoversCell(slots: seq<Slot>, cell: string) {
    exists i :: 0 <= i < |slots| && SlotCovers(slots[i], cell)
  }

  ghost predicate CellsOf(cells: set<string>, slots: seq<Slot>) {
    forall cell :: cell in cells <==> CoversCell(slots, cell)
  }

  ghost predicate InWeek(slot: Slot, week: nat, end: nat, cell: string) {
    exists x: nat :: slot.startSection <= x < end && cell == Cell(week, slot.day, x)
  }

  ghost predicate InWholeWeek(slot: Slot, week: nat, cell: string) {
    InWeek(slot, week, slot.endSection + 1, cell)
  }

  ghost predicate InWeeks(slot: Slot, end: nat, cell: string) {
    exists w: nat :: slot.startWeek <= w < end && InWholeWeek(slot, w, cell)
  }

  /** The sections of one week of a slot. */
  method AddWeek(cells: set<string>, slot: Slot, week: nat) returns (cells': set<string>)
    requires slot.startSection <= slot.endSection
    ensures forall cell :: cell in cells' <==> cell in cells || InWholeWeek(slot, week, cell)
  {
    cells' := cells;
    var section := slot.startSection;
    while section <= slot.endSection
      invariant slot.startSection <= section <= slot.endSection + 1
      invariant forall cell :: cell in cells' <==> cell in cells || InWeek(slot, week, section, cell)
    {
      cells' := cells' + {Cell(week, slot.day, section)};
      section := section + 1;
    }
  }

  /** The weeks of one slot. */
  method AddSlot(cells: set<string>, slot: Slot) returns (cells': set<string>)
    requires ValidSlot(slot)
    ensures forall cell :: cell in cells' <==> cell in cells || SlotCovers(slot, cell)
  {
    cells' := cells;
    var week := slot.startWeek;
    while week <= slot.endWeek
      invariant slot.startWeek <= week <= slot.endWeek + 1
      invariant forall cell :: cell in cells' <==> cell in cells || InWeeks(slot, week, cell)
    {
      cells' := AddWeek(cells', slot, week);
      week := week + 1;
    }
    SlotCells(slot);
  }

  lemma SlotCells(slot: Slot)
    ensures forall cell :: SlotCovers(slot, cell) <==> InWeeks(slot, slot.endWeek + 1, cell)
  {
    forall cell ensures SlotCovers(slot, cell) <==> InWeeks(slot, slot.endWeek + 1, cell) {
      if SlotCovers(slot, cell) {
        var w: nat, d: nat, x: nat :| InSlot(slot, w, d, x) && cell == Cell(w, d, x);
        assert InWholeWeek(slot, w, cell);
      }
      if InWeeks(slot, slot.endWeek + 1, cell) {
        var w: nat :| slot.startWeek <= w < slot.endWeek + 1 && InWholeWeek(slot, w, cell);
        var x: nat :| slot.startSection <= x < slot.endSection + 1 && cell == Cell(w, slot.day, x);
        assert InSlot(slot, w, slot.day, x);
      }
    }
  }

  /** scheduleCells: every cell that some slot covers, or an error if a slot is not valid. */
  method ScheduleCells(slots: seq<Slot>) returns (cells: Result<set<string>, Error>)
    ensures cells.Ok? <==> AllValid(slots)
    ensures cells.Ok? ==> CellsOf(cells.value, slots)
  {
    var all: set<string> := {};
    for i := 0 to |slots|
      invariant AllValid(slots[..i])
      invariant CellsOf(all, slots[..i])
    {
      if !ValidSlot(slots[i]) {
        return Err(InvalidParams);
      }
      all := AddSlot(all, slots[i]);
      assert slots[..i + 1] == slots[..i] + [slots[i]];
      CoversAppend(slots[..i], slots[i]);
    }
    assert slots[..|slots|] == slots;
    return Ok(all);
  }

  lemma CoversAppend(slots: seq<Slot>, slot: Slot)
    ensures forall cell :: CoversCell(slots + [slot], cell) <==> CoversCell(slots, cell) || SlotCovers(slot, cell)
  {
    var all := slots + [slot];
    assert all[|slots|] == slot && forall i :: 0 <= i < |slots| ==> all[i] == slots[i];
  }

  // --- Cells refine overlap --------------------------------------------------------------------

  lemma SlotsMeet(a: Slot, b: Slot)
    requires ValidSlot(a) && ValidSlot(b)
    ensures Conflicts(a, b) <==> exists cell :: SlotCovers(a, cell) && SlotCovers(b, cell)
  {
    if Conflicts(a, b) {
      var w := if a.startWeek < b.startWeek then b.startWeek else a.startWeek;
      var x := if a.startSection < b.startSection then b.startSection else a.startSection;
      assert InSlot(a, w, a.day, x) && InSlot(b, w, a.day, x);
      assert SlotCovers(a, Cell(w, a.day, x)) && SlotCovers(b, Cell(w, a.day, x));
    }
    if cell :| SlotCovers(a, cell) && SlotCovers(b, cell) {
      var w: nat, d: nat, x: nat :| InSlot(a, w, d, x) && cell == Cell(w, d, x);
      var w': nat, d': nat, x': nat :| InSlot(b, w', d', x') && cell == Cell(w', d', x');
      CellInjective(w, d, x, w', d', x');
    }
  }

  /** Two valid slot lists share a cell if and only if some pair of their slots conflicts. */
  lemma SharedCellIsConflict(a: seq<Slot>, b: seq<Slot>)
    requires AllValid(a) && AllValid(b)
    ensures AnyConflict(a, b) <==> exists cell :: CoversCell(a, cell) && CoversCell(b, cell)
  {
    if AnyConflict(a, b) {
      var i, j :| 0 <= i < |a| && 0 <= j < |b| && Conflicts(a[i], b[j]);
      SlotsMeet(a[i], b[j]);
      var cell :| SlotCovers(a[i], cell) && SlotCovers(b[j], cell);
      assert CoversCell(a, cell) && CoversCell(b, cell);
    }
    if cell :| CoversCell(a, cell) && CoversCell(b, cell) {
      var i :| 0 <= i < |a| && SlotCovers(a[i], cell);
      var j :| 0 <= j < |b| && SlotCovers(b[j], cell);
      SlotsMeet(a[i], b[j]);
    }
  }

  lemma SentinelUncovered(slots: seq<Slot>)
    ensures !CoversCell(slots, SENTINEL_CELL)
  {
    forall w: nat, d: nat, x: nat ensures Cell(w, d, x) != SENTINEL_CELL {
      CellInjective(w, d, x, w, d, x);
    }
  }

  /** The pairwise check of the synchronous policy. */
  method FindConflict(targets: seq<Slot>, enrolled: seq<Slot>) returns (found: bool)
    ensures found == AnyConflict(targets, enrolled)
  {
    for i := 0 to |targets|
      invariant !AnyConflict(targets[..i], enrolled)
    {
      for j := 0 to |enrolled|
        invariant forall k :: 0 <= k < j ==> !Conflicts(targets[i], enrolled[k])
      {
        if Conflicts(targets[i], enrolled[j]) {
          return true;
        }
      }
      assert targets[..i + 1] == targets[..i] + [targets[i]];
    }
    assert targets[..|targets|] == targets;
    return false;
  }

  // --- The timetable of a student in Redis -----------------------------------------------------

  type Timetable = map<ClassId, seq<Slot>>

  /** The class cells in Redis are those of the timetable, plus the sentinel. */
  ghost predicate Writes(classCells: map<ClassId, set<string>>, timetable: Timetable) {
    && classCells.Keys == timetable.Keys
    && forall c :: c in classCells ==>
         AllValid(timetable[c]) && SENTINEL_CELL in classCells[c]
           && CellsOf(classCells[c] - {SENTINEL_CELL}, timetable[c])
  }

  lemma CoversMeansSlot(classCells: map<ClassId, set<string>>, timetable: Timetable, c: ClassId, cell: string)
    requires Writes(classCells, timetable) && c in classCells
    ensures Covers(classCells, c, cell) <==> CoversCell(timetable[c], cell)
  {
    SentinelUncovered(timetable[c]);
    assert Covers(classCells, c, cell) <==> cell in classCells[c] - {SENTINEL_CELL};
  }

  ghost predicate Clashes(timetable: Timetable, log: Log, live: set<AppId>, s: StudentId, c: ClassId, i: nat) {
    && i < |log| && log[i].app in live && log[i].student == s && log[i].teachingClass in timetable && c in timetable
    && AnyConflict(timetable[log[i].teachingClass], timetable[c])
  }

  /** The busy check of the scripts finds exactly the clashes with the student's live selections. */
  lemma BusyIsClash(
    cells: map<StudentId, map<string, int>>, classCells: map<ClassId, set<string>>, timetable: Timetable, log: Log,
    live: set<AppId>, s: StudentId, c: ClassId)
    requires CellLedger(cells, classCells, log, live) && UniqueApps(log) && Writes(classCells, timetable)
    requires s in cells && c in classCells
    ensures Busy(cells[s], classCells[c]) <==> exists i: nat :: Clashes(timetable, log, live, s, c, i)
  {
    if cell :| cell in classCells[c] && cell != SENTINEL_CELL && Count(cells[s], cell) > 0 {
      var i := WeightPositive(log, live, CellOf(classCells, s, cell));
      var mine := log[i].teachingClass;
      CoversMeansSlot(classCells, timetable, mine, cell);
      CoversMeansSlot(classCells, timetable, c, cell);
      SharedCellIsConflict(timetable[mine], timetable[c]);
      assert Clashes(timetable, log, live, s, c, i);
    }
    if i: nat :| Clashes(timetable, log, live, s, c, i) {
      var mine := log[i].teachingClass;
      SharedCellIsConflict(timetable[mine], timetable[c]);
      var cell :| CoversCell(timetable[mine], cell) && CoversCell(timetable[c], cell);
      CoversMeansSlot(classCells, timetable, mine, cell);
      CoversMeansSlot(classCells, timetable, c, cell);
      WeightAtLeast(log, live, i, CellOf(classCells, s, cell));
      assert Count(cells[s], cell) > 0;
    }
  }

  /** Cell-wise conflict freedom means that no two live classes of a student ever overlap in time. */
  lemma ConflictFreeTimetable(
    classCells: map<ClassId, set<string>>, timetable: Timetable, log: Log, live: set<AppId>, i: nat, j: nat)
    requires Writes(classCells, timetable) && ConflictFree(classCells, log, live)
    requires i < j < |log| && log[i].app in live && log[j].app in live && log[i].student == log[j].student
    requires log[i].teachingClass in timetable && log[j].teachingClass in timetable
    ensures !AnyConflict(timetable[log[i].teachingClass], timetable[log[j].teachingClass])
  {
    var a, b := log[i].teachingClass, log[j].teachingClass;
    SharedCellIsConflict(timetable[a], timetable[b]);
    forall cell ensures !(CoversCell(timetable[a], cell) && CoversCell(timetable[b], cell)) {
      CoversMeansSlot(classCells, timetable, a, cell);
      CoversMeansSlot(classCells, timetable, b, cell);
    }
  }
}
