/** No two live selections of a student ever overlap in time, over all runs of the selection protocol. */
module Timetables {
  import opened Types
  import opened RedisLedger
  import opened SelectionSystem
  import opened SelectionTheorems
  import opened SelectionRuns
  import opened Schedule

  /** No two live selections of one student have conflicting slots. */
  ghost predicate NoOverlap(s: System, timetable: Timetable) {
    forall i, j ::
      && 0 <= i < j < |s.log| && IsLive(s, i) && IsLive(s, j) && s.log[i].student == s.log[j].student
      && s.log[i].teachingClass in timetable && s.log[j].teachingClass in timetable ==>
        !AnyConflict(timetable[s.log[i].teachingClass], timetable[s.log[j].teachingClass])
  }

  /** Classes without conflicting slots share no cell. */
  lemma NoConflictNoCell(
    classCells: map<ClassId, set<string>>, timetable: Timetable, a: ClassId, b: ClassId, cell: string)
    requires Writes(classCells, timetable) && a in timetable && b in timetable
    requires !AnyConflict(timetable[a], timetable[b])
    ensures !(Covers(classCells, a, cell) && Covers(classCells, b, cell))
  {
    SharedCellIsConflict(timetable[a], timetable[b]);
    CoversMeansSlot(classCells, timetable, a, cell);
    CoversMeansSlot(classCells, timetable, b, cell);
  }

  lemma OverlapIsCellwise(s: System, timetable: Timetable)
    requires Writes(s.redis.snapshot.classCells, timetable)
    ensures NoOverlap(s, timetable) <==> ConflictFree(s.redis.snapshot.classCells, s.log, LiveNow(s))
  {
    var cells, live := s.redis.snapshot.classCells, LiveNow(s);
    LiveMeaning(s);
    hide Writes, AnyConflict, IsLive, LiveNow;
    if NoOverlap(s, timetable) {
      forall i, j, cell | 0 <= i < j < |s.log| && s.log[i].app in live && s.log[j].app in live
        && s.log[i].student == s.log[j].student
        ensures !(Covers(cells, s.log[i].teachingClass, cell) && Covers(cells, s.log[j].teachingClass, cell))
      {
        CellOrNothing(cells, timetable, s.log[i].teachingClass, s.log[j].teachingClass, cell);
      }
    }
    if ConflictFree(cells, s.log, live) {
      forall i, j | 0 <= i < j < |s.log| && IsLive(s, i) && IsLive(s, j) && s.log[i].student == s.log[j].student
                    && s.log[i].teachingClass in timetable && s.log[j].teachingClass in timetable
        ensures !AnyConflict(timetable[s.log[i].teachingClass], timetable[s.log[j].teachingClass])
      {
        ConflictFreeTimetable(cells, timetable, s.log, live, i, j);
      }
    }
  }

  lemma CellOrNothing(classCells: map<ClassId, set<string>>, timetable: Timetable, a: ClassId, b: ClassId, cell: string)
    requires Writes(classCells, timetable)
    requires a in timetable && b in timetable ==> !AnyConflict(timetable[a], timetable[b])
    ensures !(Covers(classCells, a, cell) && Covers(classCells, b, cell))
  {
    if a in timetable && b in timetable {
      NoConflictNoCell(classCells, timetable, a, b, cell);
    }
  }

  /**
    From a start without overlaps, no two live selections of a student ever have conflicting slots, in
    any state of any run.
   */
  lemma NeverOverlap(run: seq<System>, n: nat, timetable: Timetable)
    requires IsRun(run) && n < |run|
    requires Writes(run[0].redis.snapshot.classCells, timetable) && NoOverlap(run[0], timetable)
    ensures NoOverlap(run[n], timetable)
  {
    hide IsRun, Writes, NoOverlap, ConflictFree, LiveNow;
    OverlapIsCellwise(run[0], timetable);
    TimetablesStayConflictFree(run, n);
    OverlapIsCellwise(run[n], timetable);
  }
}
