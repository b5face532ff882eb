/**
  The selected_count projector: unprocessed deltas are taken in id order, summed per class and
  applied under a guard that keeps each count between zero and the class capacity.
 */
module CountProjection {
  import opened Types
  import opened MySqlTables

  /** The net change that a run of deltas makes to one class. */
  function Net(deltas: seq<Delta>, c: ClassId): int {
    if deltas == [] then 0
    else Net(deltas[..|deltas| - 1], c)
         + if deltas[|deltas| - 1].teachingClass == c then deltas[|deltas| - 1].delta else 0
  }

  function Unprocessed(deltas: seq<Delta>): seq<Delta> {
    if deltas == [] then []
    else
      var rest := Unprocessed(deltas[..|deltas| - 1]);
      var d := deltas[|deltas| - 1];
      if d.processedAt == None then rest + [d] else rest
  }

  /** The rows that one projection locks: the first `limit` unprocessed ones. */
  function Batch(deltas: seq<Delta>, limit: nat): seq<Delta> {
    var rows := Unprocessed(deltas);
    if limit <= |rows| then rows[..limit] else rows
  }

  /** Marks the first `limit` unprocessed rows and leaves the order alone. */
  function MarkFirst(deltas: seq<Delta>, limit: nat, at: int): seq<Delta> {
    if deltas == [] then []
    else
      var d := deltas[|deltas| - 1];
      var rest := deltas[..|deltas| - 1];
      MarkFirst(rest, limit, at)
      + [if d.processedAt == None && |Unprocessed(rest)| < limit then d.(processedAt := Some(at)) else d]
  }

  predicate Fits(row: ClassRow, delta: int) {
    0 <= row.selectedCount + delta <= row.capacity
  }

  function TouchedClasses(rows: seq<Delta>): set<ClassId> {
    set i | 0 <= i < |rows| && Net(rows, rows[i].teachingClass) != 0 :: rows[i].teachingClass
  }

  /** ProjectPendingEnrollmentCounts: one transaction; a guard that fails rolls everything back. */
  function Project(db: MySql, limit: nat, at: int): Result<MySql, Error> {
    var rows := Batch(db.deltas, limit);
    if forall c :: c in TouchedClasses(rows) ==> c in db.classes && Fits(db.classes[c], Net(rows, c))
    then Ok(db.(classes := map c | c in db.classes ::
                             db.classes[c].(selectedCount := db.classes[c].selectedCount
                                            + if c in TouchedClasses(rows) then Net(rows, c) else 0),
                deltas := MarkFirst(db.deltas, limit, at)))
    else Err(InvalidState)
  }

  predicate Expired(d: Delta, before: int) {
    d.processedAt.Some? && d.processedAt.value < before
  }

  function CountExpired(deltas: seq<Delta>, before: int): nat {
    if deltas == [] then 0
    else CountExpired(deltas[..|deltas| - 1], before) + if Expired(deltas[|deltas| - 1], before) then 1 else 0
  }

  /** DeleteProcessedEnrollmentCountDeltas: drops the first `limit` rows processed before a time. */
  function Purge(deltas: seq<Delta>, before: int, limit: nat): seq<Delta> {
    if deltas == [] then []
    else
      var d := deltas[|deltas| - 1];
      var rest := deltas[..|deltas| - 1];
      Purge(rest, before, limit) + if Expired(d, before) && CountExpired(rest, before) < limit then [] else [d]
  }

  /** Every prefix of the pending deltas keeps every count within its capacity. */
  ghost predicate PrefixesFit(classes: map<ClassId, ClassRow>, pending: seq<Delta>) {
    forall c, k :: c in classes && 0 <= k <= |pending| ==> Fits(classes[c], Net(pending[..k], c))
  }

  lemma NetAppend(deltas: seq<Delta>, d: Delta, c: ClassId)
    ensures Net(deltas + [d], c) == Net(deltas, c) + if d.teachingClass == c then d.delta else 0
  {
    assert (deltas + [d])[..|deltas|] == deltas;
  }

  lemma {:induction false} NetConcat(a: seq<Delta>, b: seq<Delta>, c: ClassId)
    ensures Net(a + b, c) == Net(a, c) + Net(b, c)
  {
    if b == [] {
      assert a + b == a;
    } else {
      var n := |b| - 1;
      NetConcat(a, b[..n], c);
      assert a + b == (a + b[..n]) + [b[n]];
      NetAppend(a + b[..n], b[n], c);
    }
  }

  lemma {:induction false} NetUntouched(rows: seq<Delta>, c: ClassId)
    requires forall i :: 0 <= i < |rows| ==> rows[i].teachingClass != c
    ensures Net(rows, c) == 0
  {
    if rows != [] {
      NetUntouched(rows[..|rows| - 1], c);
    }
  }

  lemma UnprocessedAppend(deltas: seq<Delta>, d: Delta)
    ensures Unprocessed(deltas + [d]) == Unprocessed(deltas) + if d.processedAt == None then [d] else []
  {
    assert (deltas + [d])[..|deltas|] == deltas;
  }

  /** Marking removes exactly the taken rows from the unprocessed ones. */
  lemma {:induction false} MarkFirstRemaining(deltas: seq<Delta>, limit: nat, at: int)
    ensures Batch(deltas, limit) + Unprocessed(MarkFirst(deltas, limit, at)) == Unprocessed(deltas)
  {
    if deltas != [] {
      var n := |deltas| - 1;
      MarkFirstRemaining(deltas[..n], limit, at);
      assert deltas == deltas[..n] + [deltas[n]];
      UnprocessedAppend(deltas[..n], deltas[n]);
      var m := MarkFirst(deltas[..n], limit, at);
      var d := if deltas[n].processedAt == None && |Unprocessed(deltas[..n])| < limit
               then deltas[n].(processedAt := Some(at)) else deltas[n];
      UnprocessedAppend(m, d);
      assert MarkFirst(deltas, limit, at) == m + [d];
    }
  }

  /** Purging touches no pending delta. */
  lemma {:induction false} PurgeKeepsPending(deltas: seq<Delta>, before: int, limit: nat)
    ensures Unprocessed(Purge(deltas, before, limit)) == Unprocessed(deltas)
    ensures forall d :: d in Purge(deltas, before, limit) ==> d in deltas
  {
    if deltas != [] {
      var n := |deltas| - 1;
      PurgeKeepsPending(deltas[..n], before, limit);
      var p := Purge(deltas[..n], before, limit);
      assert deltas == deltas[..n] + [deltas[n]];
      UnprocessedAppend(deltas[..n], deltas[n]);
      UnprocessedAppend(p, deltas[n]);
      assert p + [] == p;
    }
  }

  lemma {:induction false} MarkFirstSame(deltas: seq<Delta>, limit: nat, at: int)
    ensures |MarkFirst(deltas, limit, at)| == |deltas|
    ensures forall i :: 0 <= i < |deltas| ==>
              && MarkFirst(deltas, limit, at)[i].event == deltas[i].event
              && MarkFirst(deltas, limit, at)[i].teachingClass == deltas[i].teachingClass
  {
    if deltas != [] {
      MarkFirstSame(deltas[..|deltas| - 1], limit, at);
    }
  }

  /** The projected counts, whatever classes were skipped because their changes cancelled out. */
  lemma ProjectedCount(db: MySql, limit: nat, at: int, c: ClassId)
    requires Project(db, limit, at).Ok? && c in db.classes
    ensures c in Project(db, limit, at).value.classes
    ensures var row := Project(db, limit, at).value.classes[c];
            row.capacity == db.classes[c].capacity
            && row.selectedCount == db.classes[c].selectedCount + Net(Batch(db.deltas, limit), c)
  {
    var rows := Batch(db.deltas, limit);
    if c !in TouchedClasses(rows) && Net(rows, c) != 0 {
      NetUntouched(rows, c);
    }
  }

  /** With prefixes that fit, the guard never trips. */
  lemma ProjectAccepts(db: MySql, limit: nat, at: int)
    requires PrefixesFit(db.classes, Unprocessed(db.deltas))
    requires forall d :: d in db.deltas ==> d.teachingClass in db.classes
    ensures Project(db, limit, at).Ok?
  {
    var pending, rows := Unprocessed(db.deltas), Batch(db.deltas, limit);
    UnprocessedMembers(db.deltas);
    hide Net, Unprocessed;
    assert rows == pending[..|rows|];
    forall c | c in TouchedClasses(rows) ensures c in db.classes && Fits(db.classes[c], Net(rows, c)) {
      var i :| 0 <= i < |rows| && rows[i].teachingClass == c;
      assert rows[i] in pending;
    }
  }

  /** The remaining prefixes still fit, and the totals are as before. */
  lemma ProjectSafe(db: MySql, limit: nat, at: int)
    requires PrefixesFit(db.classes, Unprocessed(db.deltas))
    requires forall d :: d in db.deltas ==> d.teachingClass in db.classes
    ensures Project(db, limit, at).Ok?
    ensures var db' := Project(db, limit, at).value;
            && PrefixesFit(db'.classes, Unprocessed(db'.deltas))
            && db'.classes.Keys == db.classes.Keys
            && forall c :: c in db.classes ==>
                 db'.classes[c].selectedCount + Net(Unprocessed(db'.deltas), c)
                 == db.classes[c].selectedCount + Net(Unprocessed(db.deltas), c)
  {
    ProjectAccepts(db, limit, at);
    MarkFirstRemaining(db.deltas, limit, at);
    var db' := Project(db, limit, at).value;
    forall c | c in db.classes {
      ProjectedCount(db, limit, at, c);
    }
    var rows, remaining := Batch(db.deltas, limit), Unprocessed(db'.deltas);
    assert db'.classes.Keys == db.classes.Keys && remaining == Unprocessed(MarkFirst(db.deltas, limit, at));
    assert Unprocessed(db.deltas) == rows + remaining;
    hide Project, Batch, Unprocessed, Net, MarkFirst;
    RemainingFit(db.classes, db'.classes, rows, remaining);
  }

  lemma RemainingFit(
    classes: map<ClassId, ClassRow>, classes': map<ClassId, ClassRow>, rows: seq<Delta>, remaining: seq<Delta>)
    requires PrefixesFit(classes, rows + remaining) && classes'.Keys == classes.Keys
    requires forall c :: c in classes ==>
               classes'[c].capacity == classes[c].capacity
                 && classes'[c].selectedCount == classes[c].selectedCount + Net(rows, c)
    ensures PrefixesFit(classes', remaining)
    ensures forall c :: c in classes ==>
              classes'[c].selectedCount + Net(remaining, c) == classes[c].selectedCount + Net(rows + remaining, c)
  {
    hide Net;
    var pending := rows + remaining;
    forall c, k | c in classes' && 0 <= k <= |remaining|
      ensures Fits(classes'[c], Net(remaining[..k], c))
    {
      NetConcat(rows, remaining[..k], c);
      assert rows + remaining[..k] == pending[..|rows| + k];
    }
    forall c | c in classes
      ensures classes'[c].selectedCount + Net(remaining, c) == classes[c].selectedCount + Net(pending, c)
    {
      NetConcat(rows, remaining, c);
    }
  }

  lemma {:induction false} UnprocessedMembers(deltas: seq<Delta>)
    ensures forall d :: d in Unprocessed(deltas) ==> d in deltas
  {
    if deltas != [] {
      var n := |deltas| - 1;
      UnprocessedMembers(deltas[..n]);
      assert deltas == deltas[..n] + [deltas[n]];
    }
  }

  /** Appending a delta keeps the prefixes within bounds when the new totals are. */
  lemma AppendFits(classes: map<ClassId, ClassRow>, pending: seq<Delta>, d: Delta)
    requires PrefixesFit(classes, pending)
    requires forall c :: c in classes ==> Fits(classes[c], Net(pending + [d], c))
    ensures PrefixesFit(classes, pending + [d])
  {
    var all := pending + [d];
    forall c, k | c in classes && 0 <= k <= |all| ensures Fits(classes[c], Net(all[..k], c)) {
      if k == |all| {
        assert all[..k] == all;
      } else {
        assert all[..k] == pending[..k];
      }
    }
  }
}
