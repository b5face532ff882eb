/** MySQL as tables that change in place: the batch, drop, repair and count transactions, loop by loop. */
module MySqlStore {
  import opened Types
  import opened RedisScripts
  import opened MySqlTables
  import opened BatchProjection
  import opened CountProjection

  /** `seen` indexes the results kept so far by their event. */
  ghost predicate Indexes(seen: map<EventId, Selection>, unique: seq<Selection>) {
    && (forall k :: k in seen ==> seen[k] in unique && EventOf(seen[k]) == k)
    && (forall i :: 0 <= i < |unique| ==> EventOf(unique[i]) in seen && seen[EventOf(unique[i])] == unique[i])
  }

  method NormalizeResults(results: seq<Selection>) returns (unique: Result<seq<Selection>, Error>)
    ensures unique == Normalize(results)
    ensures unique.Ok? ==> DistinctEvents(unique.value)
  {
    hide ValidResult, SameCompleteResult;
    var kept: seq<Selection> := [];
    var seen: map<EventId, Selection> := map[];
    for i := 0 to |results|
      invariant Normalize(results[..i]) == Ok(kept) && Indexes(seen, kept)
    {
      var r := results[i];
      assert results[..i + 1] == results[..i] + [r];
      NormalizeAppend(results[..i], r);
      if !ValidResult(r) {
        NormalizeFails(results, i + 1);
        return Err(InvalidParams);
      }
      if EventOf(r) in seen {
        assert Known(kept, r);
        if !SameCompleteResult(seen[EventOf(r)], r) {
          assert !Consistent(kept, r);
          NormalizeFails(results, i + 1);
          return Err(IdempotencyConflict);
        }
      } else {
        seen := seen[EventOf(r) := r];
        kept := kept + [r];
      }
    }
    assert results[..|results|] == results;
    NormalizeUnique(results);
    return Ok(kept);
  }

  /** A rejected prefix rejects the whole batch. */
  lemma {:induction false} NormalizeFails(results: seq<Selection>, i: nat)
    requires i <= |results| && Normalize(results[..i]).Err?
    ensures Normalize(results) == Normalize(results[..i])
    decreases |results| - i
  {
    if i == |results| {
      assert results[..i] == results;
    } else {
      assert results[..i + 1] == results[..i] + [results[i]];
      NormalizeAppend(results[..i], results[i]);
      NormalizeFails(results, i + 1);
    }
  }

  /** INSERT ... ON CONFLICT DO NOTHING, and the rows it really inserted. */
  method ClaimEvents(events: map<EventId, EventBody>, unique: seq<Selection>)
    returns (events': map<EventId, EventBody>, claimed: seq<Selection>)
    requires DistinctEvents(unique)
    ensures claimed == Claimed(events, unique) && events' == InsertEvents(events, claimed)
  {
    events', claimed := events, [];
    for i := 0 to |unique|
      invariant claimed == Claimed(events, unique[..i]) && events' == InsertEvents(events, claimed)
    {
      var r := unique[i];
      assert unique[..i + 1] == unique[..i] + [r];
      ClaimedAppend(events, unique[..i], r);
      ClaimedMembers(events, unique[..i]);
      InsertedOther(events, claimed, EventOf(r));
      if EventOf(r) !in events' {
        InsertEventsAppend(events, claimed, r);
        assert [r][..0] == [];
        events', claimed := events'[EventOf(r) := SelectionBody(r)], claimed + [r];
      }
    }
    assert unique[..|unique|] == unique;
  }

  method MatchExisting(events: map<EventId, EventBody>, unique: seq<Selection>) returns (ok: bool)
    ensures ok == UnclaimedMatch(events, unique)
  {
    for i := 0 to |unique|
      invariant UnclaimedMatch(events, unique[..i])
    {
      var k := EventOf(unique[i]);
      assert unique[..i + 1] == unique[..i] + [unique[i]];
      if k in events && !(events[k].SelectionBody? && SameCompleteResult(events[k].result, unique[i])) {
        return false;
      }
    }
    assert unique[..|unique|] == unique;
    return true;
  }

  /** One charge per quota row, summed over the batch. */
  method SumCharges(claimed: seq<Selection>) returns (charges: map<QuotaKey, (int, int)>)
    ensures charges.Keys == ChargedKeys(claimed)
    ensures forall key :: key in charges ==> charges[key] == Charge(claimed, key)
  {
    charges := map[];
    assert ChargedKeys([]) == {};
    for i := 0 to |claimed|
      invariant charges.Keys == ChargedKeys(claimed[..i])
      invariant forall key :: key in charges ==> charges[key] == Charge(claimed[..i], key)
      invariant forall key :: key !in charges ==> Charge(claimed[..i], key) == (0, 0)
    {
      var r := claimed[i];
      assert claimed[..i + 1] == claimed[..i] + [r];
      ChargedKeysAppend(claimed[..i], r);
      forall key {
        ChargeAppend(claimed[..i], r, key);
      }
      if r.state == Selected {
        var sum := if KeyOf(r) in charges then charges[KeyOf(r)] else (0, 0);
        charges := charges[KeyOf(r) := (sum.0 + r.credits, sum.1 + 1)];
      }
    }
    assert claimed[..|claimed|] == claimed;
  }

  ghost predicate Payable(quotas: map<QuotaKey, Quota>, charges: map<QuotaKey, (int, int)>, key: QuotaKey) {
    key in charges && key in quotas && Affordable(quotas[key], charges[key])
  }

  lemma FullSubset(part: set<QuotaKey>, whole: set<QuotaKey>)
    requires part <= whole
    ensures |part| == |whole| <==> part == whole
  {
    assert whole == part + (whole - part);
  }

  /** The joined UPDATE: a row that does not exist or cannot afford its charge is not affected. */
  method UpdateQuotas(quotas: map<QuotaKey, Quota>, charges: map<QuotaKey, (int, int)>)
    returns (affected: nat, quotas': map<QuotaKey, Quota>)
    ensures affected == |charges.Keys| <==> forall key :: key in charges ==> Payable(quotas, charges, key)
    ensures affected == |charges.Keys| ==>
              quotas' == map key | key in quotas ::
                if key in charges then ChargeQuota(quotas[key], charges[key]) else quotas[key]
  {
    hide Affordable, ChargeQuota;
    quotas', affected := quotas, 0;
    var todo := charges.Keys;
    ghost var paid: set<QuotaKey> := {};
    while todo != {}
      invariant todo <= charges.Keys && quotas'.Keys == quotas.Keys && affected == |paid| && paid !! todo
      invariant forall key :: key in charges && key !in todo ==> (key in paid <==> Payable(quotas, charges, key))
      invariant forall key :: key in paid ==> key in charges && key in quotas
      invariant forall key :: key in quotas ==>
                  quotas'[key] == if key in paid then ChargeQuota(quotas[key], charges[key]) else quotas[key]
      decreases todo
    {
      var key :| key in todo;
      todo := todo - {key};
      if key in quotas' && Affordable(quotas'[key], charges[key]) {
        quotas' := quotas'[key := ChargeQuota(quotas'[key], charges[key])];
        affected := affected + 1;
        paid := paid + {key};
      }
    }
    FullSubset(paid, charges.Keys);
  }

  method ChargeBatch(quotas: map<QuotaKey, Quota>, claimed: seq<Selection>)
    returns (result: Result<map<QuotaKey, Quota>, Error>)
    ensures result == ChargeQuotas(quotas, claimed)
  {
    hide Affordable, ChargeQuota, ChargedKeys, Charge;
    var charges := SumCharges(claimed);
    var affected, quotas' := UpdateQuotas(quotas, charges);
    if affected != |charges.Keys| {
      return Err(CreditQuotaExceeded);
    }
    assert ChargeQuotas(quotas, claimed).Ok?;
    assert quotas' == ChargeQuotas(quotas, claimed).value;
    return Ok(quotas');
  }

  lemma {:induction false} ApplicationsFail(rows: map<AppId, Selection>, claimed: seq<Selection>, i: nat)
    requires i <= |claimed| && InsertApplications(rows, claimed[..i]).Err?
    ensures InsertApplications(rows, claimed) == InsertApplications(rows, claimed[..i])
    decreases |claimed| - i
  {
    if i == |claimed| {
      assert claimed[..i] == claimed;
    } else {
      assert claimed[..i + 1][..i] == claimed[..i];
      ApplicationsFail(rows, claimed, i + 1);
    }
  }

  method AddApplications(rows: map<AppId, Selection>, claimed: seq<Selection>)
    returns (result: Result<map<AppId, Selection>, Error>)
    ensures result == InsertApplications(rows, claimed)
  {
    var rows' := rows;
    for i := 0 to |claimed|
      invariant InsertApplications(rows, claimed[..i]) == Ok(rows')
    {
      var r := claimed[i];
      assert claimed[..i + 1][..i] == claimed[..i];
      if r.app in rows' || RequestTaken(rows', r) {
        ApplicationsFail(rows, claimed, i + 1);
        return Err(DuplicateKey);
      }
      rows' := rows'[r.app := r];
    }
    assert claimed[..|claimed|] == claimed;
    return Ok(rows');
  }

  lemma {:induction false} EnrollmentsFail(
    rows: map<EnrollmentId, EnrollmentRow>, claimed: seq<Selection>, ids: Ids, i: nat)
    requires i <= |claimed| && InsertEnrollments(rows, claimed[..i], ids).Err?
    ensures InsertEnrollments(rows, claimed, ids) == InsertEnrollments(rows, claimed[..i], ids)
    decreases |claimed| - i
  {
    if i == |claimed| {
      assert claimed[..i] == claimed;
    } else {
      assert claimed[..i + 1][..i] == claimed[..i];
      EnrollmentsFail(rows, claimed, ids, i + 1);
    }
  }

  method AddEnrollments(rows: map<EnrollmentId, EnrollmentRow>, claimed: seq<Selection>, ids: Ids)
    returns (result: Result<map<EnrollmentId, EnrollmentRow>, Error>)
    ensures result == InsertEnrollments(rows, claimed, ids)
  {
    var rows' := rows;
    for i := 0 to |claimed|
      invariant InsertEnrollments(rows, claimed[..i], ids) == Ok(rows')
    {
      var r := claimed[i];
      assert claimed[..i + 1][..i] == claimed[..i];
      if r.state == Selected {
        var id := ids(r.app);
        if id in rows' || RowClashes(rows', NewRow(r)) {
          EnrollmentsFail(rows, claimed, ids, i + 1);
          return Err(DuplicateKey);
        }
        rows' := rows'[id := NewRow(r)];
      }
    }
    assert claimed[..|claimed|] == claimed;
    return Ok(rows');
  }

  lemma {:induction false} DeltasFail(deltas: seq<Delta>, claimed: seq<Selection>, i: nat)
    requires i <= |claimed| && InsertDeltas(deltas, claimed[..i]).Err?
    ensures InsertDeltas(deltas, claimed) == InsertDeltas(deltas, claimed[..i])
    decreases |claimed| - i
  {
    if i == |claimed| {
      assert claimed[..i] == claimed;
    } else {
      assert claimed[..i + 1][..i] == claimed[..i];
      DeltasFail(deltas, claimed, i + 1);
    }
  }

  method AddDeltas(deltas: seq<Delta>, claimed: seq<Selection>) returns (result: Result<seq<Delta>, Error>)
    ensures result == InsertDeltas(deltas, claimed)
  {
    var deltas' := deltas;
    for i := 0 to |claimed|
      invariant InsertDeltas(deltas, claimed[..i]) == Ok(deltas')
    {
      var r := claimed[i];
      assert claimed[..i + 1][..i] == claimed[..i];
      if r.state == Selected {
        if DeltaRecorded(deltas', EventOf(r)) {
          DeltasFail(deltas, claimed, i + 1);
          return Err(DuplicateKey);
        }
        deltas' := deltas' + [Delta(EventOf(r), r.teachingClass, 1, None)];
      }
    }
    assert claimed[..|claimed|] == claimed;
    return Ok(deltas');
  }

  lemma {:induction false} OutboxFails(rows: map<EventId, Selection>, claimed: seq<Selection>, i: nat)
    requires i <= |claimed| && AppendOutbox(rows, claimed[..i]).Err?
    ensures AppendOutbox(rows, claimed) == AppendOutbox(rows, claimed[..i])
    decreases |claimed| - i
  {
    if i == |claimed| {
      assert claimed[..i] == claimed;
    } else {
      assert claimed[..i + 1][..i] == claimed[..i];
      OutboxFails(rows, claimed, i + 1);
    }
  }

  method AddOutbox(rows: map<EventId, Selection>, claimed: seq<Selection>)
    returns (result: Result<map<EventId, Selection>, Error>)
    ensures result == AppendOutbox(rows, claimed)
  {
    var rows' := rows;
    for i := 0 to |claimed|
      invariant AppendOutbox(rows, claimed[..i]) == Ok(rows')
    {
      var r := claimed[i];
      assert claimed[..i + 1][..i] == claimed[..i];
      if EventOf(r) in rows' {
        OutboxFails(rows, claimed, i + 1);
        return Err(DuplicateKey);
      }
      rows' := rows'[EventOf(r) := r];
    }
    assert claimed[..|claimed|] == claimed;
    return Ok(rows');
  }

  // --- Counting --------------------------------------------------------------------------------

  /** Locks the first `limit` unprocessed rows in id order, and marks them. */
  method TakePending(deltas: seq<Delta>, limit: nat, at: int) returns (rows: seq<Delta>, marked: seq<Delta>)
    ensures rows == Batch(deltas, limit) && marked == MarkFirst(deltas, limit, at)
  {
    rows, marked := [], [];
    for i := 0 to |deltas|
      invariant rows == Batch(deltas[..i], limit) && marked == MarkFirst(deltas[..i], limit, at)
    {
      var d := deltas[i];
      assert deltas[..i + 1] == deltas[..i] + [d];
      assert deltas[..i + 1][..i] == deltas[..i];
      UnprocessedAppend(deltas[..i], d);
      if d.processedAt == None && |rows| < limit {
        rows, marked := rows + [d], marked + [d.(processedAt := Some(at))];
      } else {
        marked := marked + [d];
      }
    }
    assert deltas[..|deltas|] == deltas;
  }

  method SumDeltas(rows: seq<Delta>) returns (sums: map<ClassId, int>)
    ensures forall c :: c in sums <==> exists i :: 0 <= i < |rows| && rows[i].teachingClass == c
    ensures forall c :: c in sums ==> sums[c] == Net(rows, c)
  {
    sums := map[];
    for i := 0 to |rows|
      invariant forall c :: c in sums <==> exists j :: 0 <= j < i && rows[j].teachingClass == c
      invariant forall c :: c in sums ==> sums[c] == Net(rows[..i], c)
      invariant forall c :: c !in sums ==> Net(rows[..i], c) == 0
    {
      var c := rows[i].teachingClass;
      assert rows[..i + 1] == rows[..i] + [rows[i]];
      forall x {
        NetAppend(rows[..i], rows[i], x);
      }
      sums := sums[c := (if c in sums then sums[c] else 0) + rows[i].delta];
    }
    assert rows[..|rows|] == rows;
  }

  /** One guarded UPDATE per class whose sum is not zero; the first that affects no row gives up. */
  method ApplySums(classes: map<ClassId, ClassRow>, sums: map<ClassId, int>)
    returns (ok: bool, classes': map<ClassId, ClassRow>)
    ensures ok <==> forall c :: c in sums && sums[c] != 0 ==> c in classes && Fits(classes[c], sums[c])
    ensures ok ==>
              classes' == map c | c in classes ::
                classes[c].(selectedCount := classes[c].selectedCount + if c in sums then sums[c] else 0)
  {
    classes' := classes;
    var todo, done: set<ClassId> := sums.Keys, {};
    while todo != {}
      invariant todo !! done && todo + done == sums.Keys && classes'.Keys == classes.Keys
      invariant forall c :: c in done && sums[c] != 0 ==> c in classes && Fits(classes[c], sums[c])
      invariant forall c :: c in classes ==>
                  classes'[c]
                  == classes[c].(selectedCount := classes[c].selectedCount + if c in done then sums[c] else 0)
      decreases todo
    {
      var c :| c in todo;
      if sums[c] != 0 {
        if c !in classes' || !Fits(classes'[c], sums[c]) {
          assert c in sums;
          return false, classes;
        }
        classes' := classes'[c := classes'[c].(selectedCount := classes'[c].selectedCount + sums[c])];
      }
      todo, done := todo - {c}, done + {c};
    }
    assert done == sums.Keys;
    ok := true;
  }

  method DropExpired(deltas: seq<Delta>, before: int, limit: nat) returns (kept: seq<Delta>)
    ensures kept == Purge(deltas, before, limit)
  {
    kept := [];
    var expired := 0;
    for i := 0 to |deltas|
      invariant kept == Purge(deltas[..i], before, limit) && expired == CountExpired(deltas[..i], before)
    {
      assert deltas[..i + 1][..i] == deltas[..i];
      if !Expired(deltas[i], before) {
        kept := kept + [deltas[i]];
      } else {
        if expired >= limit {
          kept := kept + [deltas[i]];
        }
        expired := expired + 1;
      }
    }
    assert deltas[..|deltas|] == deltas;
  }

  // --- The database ----------------------------------------------------------------------------

  class Database {
    var quotas: map<QuotaKey, Quota>
    var events: map<EventId, EventBody>
    var applications: map<AppId, Selection>
    var enrollments: map<EnrollmentId, EnrollmentRow>
    var deltas: seq<Delta>
    var outbox: map<EventId, Selection>
    var repairs: map<EnrollmentId, Repair>
    var classes: map<ClassId, ClassRow>

    constructor (db: MySql)
      ensures Value() == db
    {
      quotas, events, applications, enrollments := db.quotas, db.events, db.applications, db.enrollments;
      deltas, outbox, repairs, classes := db.deltas, db.outbox, db.repairs, db.classes;
    }

    function Value(): MySql
      reads this
    {
      MySql(quotas, events, applications, enrollments, deltas, outbox, repairs, classes)
    }

    /** A transaction's rollback. */
    method Restore(db: MySql)
      modifies this
      ensures Value() == db
    {
      quotas, events, applications, enrollments := db.quotas, db.events, db.applications, db.enrollments;
      deltas, outbox, repairs, classes := db.deltas, db.outbox, db.repairs, db.classes;
    }

    /** The business writes of claimed events; the caller rolls back if one fails. */
    method PersistClaimed(claimed: seq<Selection>, ids: Ids) returns (error: Option<Error>)
      modifies this`quotas, this`applications, this`enrollments, this`deltas, this`outbox
      ensures match Persist(old(Value()), claimed, ids)
              case Ok(db) => error == None && Value() == db.(events := events)
              case Err(e) => error == Some(e)
    {
      var charged := ChargeBatch(quotas, claimed);
      if charged.Err? {
        return Some(charged.error);
      }
      var added := AddApplications(applications, claimed);
      if added.Err? {
        return Some(added.error);
      }
      var enrolled := AddEnrollments(enrollments, claimed, ids);
      if enrolled.Err? {
        return Some(enrolled.error);
      }
      var counted := AddDeltas(deltas, claimed);
      if counted.Err? {
        return Some(counted.error);
      }
      var queued := AddOutbox(outbox, claimed);
      if queued.Err? {
        return Some(queued.error);
      }
      quotas, applications, enrollments := charged.value, added.value, enrolled.value;
      deltas, outbox := counted.value, queued.value;
      return None;
    }

    /** SaveSelectionResults up to the commit of its transaction. */
    method SaveSelectionResults(results: seq<Selection>, ids: Ids) returns (error: Option<Error>)
      modifies this
      ensures match SaveBatch(old(Value()), results, ids)
              case Ok(db) => error == None && Value() == db
              case Err(e) => error == Some(e) && Value() == old(Value())
    {
      hide Normalize, Persist;
      var normalized := NormalizeResults(results);
      if normalized.Err? {
        return Some(normalized.error);
      }
      var unique := normalized.value;
      var before := Value();
      var inserted, claimed := ClaimEvents(events, unique);
      var matched := MatchExisting(before.events, unique);
      if !matched {
        return Some(IdempotencyConflict);
      }
      if claimed == [] {
        return None;
      }
      error := PersistClaimed(claimed, ids);
      if error.Some? {
        Restore(before);
        return;
      }
      events := inserted;
      PersistedEvents(before, claimed, ids);
    }

    /** DropEnrollment: the checks, then five tables together. */
    method DropEnrollment(e: Enrollment, now: int) returns (error: Option<Error>)
      modifies this
      ensures match Drop(old(Value()), e, now)
              case Ok(db) => error == None && Value() == db
              case Err(err) => error == Some(err) && Value() == old(Value())
    {
      if e.id !in enrollments || enrollments[e.id].student != e.student || enrollments[e.id].app !in applications {
        return Some(RecordNotFound);
      }
      var row := enrollments[e.id];
      if row.state == Dropped {
        return None;
      }
      if row.state != Enrolled {
        return Some(InvalidState);
      }
      if Identity(Value(), e.id) != e {
        return Some(IdempotencyConflict);
      }
      var before := Value();
      enrollments := enrollments[e.id := row.(state := Dropped, activeKey := None)];
      var key := QuotaKey(e.round, e.student);
      if key !in quotas || quotas[key].selectedCredits < e.credits || quotas[key].selectedCourses <= 0 {
        Restore(before);
        return Some(InvalidState);
      }
      quotas := quotas[key := ChargeQuota(quotas[key], (-e.credits, -1))];
      if DeltaRecorded(deltas, DropEvent(e.id)) || DropEvent(e.id) in events || e.id in repairs {
        Restore(before);
        return Some(DuplicateKey);
      }
      deltas := deltas + [Delta(DropEvent(e.id), e.teachingClass, -1, None)];
      events := events[DropEvent(e.id) := DropBody(e)];
      repairs := repairs[e.id := Repair(RepairPending, 0, now)];
      return None;
    }

    method CompleteRepair(id: EnrollmentId)
      modifies this`repairs
      ensures Value() == MarkRepairCompleted(old(Value()), id)
    {
      if id in repairs && repairs[id].state == RepairPending {
        repairs := repairs[id := repairs[id].(state := RepairCompleted)];
      }
    }

    method PostponeRepair(id: EnrollmentId, retryAt: int)
      modifies this`repairs
      ensures Value() == MarkRepairFailed(old(Value()), id, retryAt)
    {
      if id in repairs && repairs[id].state == RepairPending {
        var repair := repairs[id];
        repairs := repairs[id := repair.(retryCount := repair.retryCount + 1, nextRetryAt := retryAt)];
      }
    }

    /** ProjectPendingEnrollmentCounts: counts and marks change together or not at all. */
    method ProjectPendingCounts(limit: nat, at: int) returns (processed: nat, error: Option<Error>)
      modifies this`classes, this`deltas
      ensures match Project(old(Value()), limit, at)
              case Ok(db) => error == None && Value() == db && processed == |Batch(old(deltas), limit)|
              case Err(e) => error == Some(e) && Value() == old(Value())
    {
      var rows, marked := TakePending(deltas, limit, at);
      var sums := SumDeltas(rows);
      var ok, classes' := ApplySums(classes, sums);
      assert forall c :: c in TouchedClasses(rows) <==> c in sums && sums[c] != 0;
      if !ok {
        return 0, Some(InvalidState);
      }
      assert Project(Value(), limit, at).Ok?;
      assert classes' == Project(Value(), limit, at).value.classes by {
        forall c | c in classes
          ensures (if c in sums then sums[c] else 0) == if c in TouchedClasses(rows) then Net(rows, c) else 0
        {
        }
      }
      classes, deltas := classes', marked;
      return |rows|, None;
    }

    method DeleteProcessed(before: int, limit: nat)
      modifies this`deltas
      ensures Value() == old(Value()).(deltas := Purge(old(deltas), before, limit))
    {
      deltas := DropExpired(deltas, before, limit);
    }
  }

  lemma PersistedEvents(db: MySql, claimed: seq<Selection>, ids: Ids)
    ensures Persist(db, claimed, ids).Ok? ==> Persist(db, claimed, ids).value.events == InsertEvents(db.events, claimed)
  {
    if Persist(db, claimed, ids).Ok? {
      PersistEvents(db, claimed, ids);
    }
  }
}
