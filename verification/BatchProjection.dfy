/**
  Exactly-once projection. Saving a batch is the same as saving its items one at a time, so every
  delivery history leaves the tables that saving each distinct event once leaves.
 */
module BatchProjection {
  import opened Types
  import opened MySqlTables

  /** Saving the items one at a time, in order; the first failure stops. */
  function SaveEach(db: MySql, results: seq<Selection>, ids: Ids): Result<MySql, Error> {
    if results == [] then Ok(db)
    else
      match SaveEach(db, results[..|results| - 1], ids)
      case Err(e) => Err(e)
      case Ok(db') => SaveBatch(db', [results[|results| - 1]], ids)
  }

  lemma SameCompleteIsEquality(a: Selection, b: Selection)
    ensures SameCompleteResult(a, b) <==> a == b
  {
  }

  lemma NormalizeAppend(results: seq<Selection>, r: Selection)
    ensures Normalize(results + [r]) ==
            match Normalize(results)
            case Err(e) => Err(e)
            case Ok(unique) =>
              if !ValidResult(r) then Err(InvalidParams)
              else if !Known(unique, r) then Ok(unique + [r])
              else if Consistent(unique, r) then Ok(unique)
              else Err(IdempotencyConflict)
  {
    assert (results + [r])[..|results|] == results;
  }

  lemma NormalizeSingle(r: Selection)
    ensures Normalize([r]) == if ValidResult(r) then Ok([r]) else Err(InvalidParams)
  {
    NormalizeAppend([], r);
    assert [] + [r] == [r];
  }

  lemma ClaimedAppend(events: map<EventId, EventBody>, unique: seq<Selection>, r: Selection)
    ensures Claimed(events, unique + [r]) ==
            if EventOf(r) in events then Claimed(events, unique) else Claimed(events, unique) + [r]
  {
    assert (unique + [r])[..|unique|] == unique;
  }

  lemma ClaimedSingle(events: map<EventId, EventBody>, r: Selection)
    ensures Claimed(events, [r]) == if EventOf(r) in events then [] else [r]
  {
    ClaimedAppend(events, [], r);
    assert [] + [r] == [r];
  }

  /** Whatever is claimed comes from the batch and was not in the table. */
  lemma {:induction false} ClaimedMembers(events: map<EventId, EventBody>, unique: seq<Selection>)
    ensures forall x :: x in Claimed(events, unique) <==> x in unique && EventOf(x) !in events
  {
    if unique != [] {
      var n := |unique| - 1;
      ClaimedMembers(events, unique[..n]);
      assert unique == unique[..n] + [unique[n]];
    }
  }

  /** Inserting events touches no other event. */
  lemma {:induction false} InsertedOther(events: map<EventId, EventBody>, claimed: seq<Selection>, k: EventId)
    requires forall x :: x in claimed ==> EventOf(x) != k
    ensures k in InsertEvents(events, claimed) <==> k in events
    ensures k in events ==> InsertEvents(events, claimed)[k] == events[k]
  {
    if claimed != [] {
      InsertedOther(events, claimed[..|claimed| - 1], k);
    }
  }

  ghost predicate DistinctEvents(xs: seq<Selection>) {
    forall i, j {:trigger xs[i], xs[j]} :: 0 <= i < j < |xs| ==> EventOf(xs[i]) != EventOf(xs[j])
  }

  /** The results kept by Normalize are valid and have distinct events. */
  lemma {:induction false} NormalizeUnique(results: seq<Selection>)
    requires Normalize(results).Ok?
    ensures forall x :: x in Normalize(results).value ==> x in results && ValidResult(x)
    ensures DistinctEvents(Normalize(results).value)
    ensures forall x :: x in results ==> x in Normalize(results).value
  {
    if results != [] {
      var n := |results| - 1;
      NormalizeUnique(results[..n]);
      var unique, r := Normalize(results[..n]).value, results[n];
      assert results == results[..n] + [r];
      if Known(unique, r) {
        var i :| 0 <= i < |unique| && EventOf(unique[i]) == EventOf(r);
        SameCompleteIsEquality(unique[i], r);
      }
    }
  }

  /** Each claimed event is stored with its own result. */
  lemma {:induction false} InsertedBody(events: map<EventId, EventBody>, claimed: seq<Selection>, k: nat)
    requires k < |claimed|
    requires DistinctEvents(claimed)
    ensures EventOf(claimed[k]) in InsertEvents(events, claimed)
    ensures InsertEvents(events, claimed)[EventOf(claimed[k])] == SelectionBody(claimed[k])
  {
    var n := |claimed| - 1;
    if k < n {
      InsertedBody(events, claimed[..n], k);
    }
  }

  lemma {:induction false} ClaimedDistinct(events: map<EventId, EventBody>, unique: seq<Selection>)
    requires DistinctEvents(unique)
    ensures DistinctEvents(Claimed(events, unique))
  {
    if unique != [] {
      var n := |unique| - 1;
      ClaimedDistinct(events, unique[..n]);
      ClaimedMembers(events, unique[..n]);
      var rest := Claimed(events, unique[..n]);
      forall i | 0 <= i < |rest| ensures EventOf(rest[i]) != EventOf(unique[n]) {
        assert rest[i] in unique[..n];
      }
      assert Claimed(events, unique) == if EventOf(unique[n]) in events then rest else rest + [unique[n]];
    }
  }

  lemma SaveInsertsEvents(db: MySql, results: seq<Selection>, ids: Ids)
    requires SaveBatch(db, results, ids).Ok?
    ensures Normalize(results).Ok? && UnclaimedMatch(db.events, Normalize(results).value)
    ensures SaveBatch(db, results, ids).value.events ==
            InsertEvents(db.events, Claimed(db.events, Normalize(results).value))
  {
    SaveIsPersist(db, results, ids);
    PersistEvents(db, Claimed(db.events, Normalize(results).value), ids);
  }

  lemma SavedEvent(events: map<EventId, EventBody>, unique: seq<Selection>, x: Selection)
    requires x in unique && UnclaimedMatch(events, unique)
    requires DistinctEvents(unique)
    ensures var events' := InsertEvents(events, Claimed(events, unique));
            EventOf(x) in events' && events'[EventOf(x)] == SelectionBody(x)
  {
    var claimed := Claimed(events, unique);
    ClaimedMembers(events, unique);
    if EventOf(x) in events {
      InsertedOther(events, claimed, EventOf(x));
      var i :| 0 <= i < |unique| && unique[i] == x;
      SameCompleteIsEquality(events[EventOf(x)].result, x);
    } else {
      ClaimedDistinct(events, unique);
      var k :| 0 <= k < |claimed| && claimed[k] == x;
      InsertedBody(events, claimed, k);
    }
  }

  /** After a saved batch, every event of the batch is in the table with the delivered result. */
  lemma SavedEvents(db: MySql, results: seq<Selection>, ids: Ids)
    requires SaveBatch(db, results, ids).Ok?
    ensures var db' := SaveBatch(db, results, ids).value;
            forall x :: x in results ==> EventOf(x) in db'.events && db'.events[EventOf(x)] == SelectionBody(x)
  {
    SaveInsertsEvents(db, results, ids);
    NormalizeUnique(results);
    forall x | x in results
      ensures var db' := SaveBatch(db, results, ids).value;
              EventOf(x) in db'.events && db'.events[EventOf(x)] == SelectionBody(x)
    {
      SavedEvent(db.events, Normalize(results).value, x);
    }
  }

  /** A result that is already stored with the same body changes nothing. */
  lemma SaveStored(db: MySql, r: Selection, ids: Ids)
    requires ValidResult(r) && EventOf(r) in db.events && db.events[EventOf(r)] == SelectionBody(r)
    ensures SaveBatch(db, [r], ids) == Ok(db)
  {
    NormalizeSingle(r);
    ClaimedSingle(db.events, r);
    SameCompleteIsEquality(r, r);
  }

  lemma SaveConflict(db: MySql, r: Selection, ids: Ids)
    requires EventOf(r) in db.events && db.events[EventOf(r)] != SelectionBody(r)
    ensures SaveBatch(db, [r], ids).Err?
  {
    NormalizeSingle(r);
    if db.events[EventOf(r)].SelectionBody? {
      SameCompleteIsEquality(db.events[EventOf(r)].result, r);
    }
    assert [r][0] == r;
  }

  lemma SaveNew(db: MySql, r: Selection, ids: Ids)
    requires EventOf(r) !in db.events
    ensures SaveBatch(db, [r], ids) == if ValidResult(r) then Persist(db, [r], ids) else Err(InvalidParams)
  {
    NormalizeSingle(r);
    ClaimedSingle(db.events, r);
  }

  // The stages of Persist, each split at the last item.

  lemma {:induction false} ChargeNonNegative(claimed: seq<Selection>, key: QuotaKey)
    requires forall x :: x in claimed ==> x.credits > 0
    ensures Charge(claimed, key).0 >= 0 && Charge(claimed, key).1 >= 0
    ensures key !in ChargedKeys(claimed) ==> Charge(claimed, key) == (0, 0)
  {
    if claimed != [] {
      var n := |claimed| - 1;
      ChargeNonNegative(claimed[..n], key);
      assert claimed[n].state == Selected && KeyOf(claimed[n]) == key ==> key in ChargedKeys(claimed);
      forall k | k in ChargedKeys(claimed[..n]) ensures k in ChargedKeys(claimed) {
        var i :| 0 <= i < n && claimed[..n][i].state == Selected && k == KeyOf(claimed[..n][i]);
        assert claimed[i] == claimed[..n][i];
      }
    }
  }

  lemma ChargeAppend(claimed: seq<Selection>, r: Selection, key: QuotaKey)
    ensures Charge(claimed + [r], key) ==
            var c := Charge(claimed, key);
            if r.state == Selected && KeyOf(r) == key then (c.0 + r.credits, c.1 + 1) else c
  {
    assert (claimed + [r])[..|claimed|] == claimed;
  }

  lemma ChargedKeysAppend(claimed: seq<Selection>, r: Selection)
    ensures ChargedKeys(claimed + [r]) == ChargedKeys(claimed) + if r.state == Selected then {KeyOf(r)} else {}
  {
    var all := claimed + [r];
    forall k ensures k in ChargedKeys(all) <==> k in ChargedKeys(claimed) || (r.state == Selected && k == KeyOf(r)) {
      if k in ChargedKeys(claimed) {
        var i :| 0 <= i < |claimed| && claimed[i].state == Selected && k == KeyOf(claimed[i]);
        assert all[i] == claimed[i];
      }
      if r.state == Selected && k == KeyOf(r) {
        assert all[|claimed|] == r;
      }
    }
  }

  /** One guarded UPDATE for the batch accepts exactly when charging the items in turn does. */
  lemma ChargeQuotasAppend(quotas: map<QuotaKey, Quota>, claimed: seq<Selection>, r: Selection)
    requires forall x :: x in claimed + [r] ==> x.credits > 0
    ensures ChargeQuotas(quotas, claimed + [r]).Ok? <==>
            ChargeQuotas(quotas, claimed).Ok? && ChargeQuotas(ChargeQuotas(quotas, claimed).value, [r]).Ok?
    ensures ChargeQuotas(quotas, claimed + [r]).Ok? ==>
            ChargeQuotas(quotas, claimed + [r]) == ChargeQuotas(ChargeQuotas(quotas, claimed).value, [r])
  {
    var all := claimed + [r];
    assert forall x :: x in claimed ==> x in all;
    assert r in all;
    hide Charge, ChargedKeys, Affordable, ChargeQuota;
    ChargedKeysAppend(claimed, r);
    SingleCharge(r);
    forall key {
      ChargeAppend(claimed, r, key);
    }
    forall key {
      ChargeNonNegative(claimed, key);
    }
    if ChargeQuotas(quotas, claimed).Ok? {
      ChargeQuotasStep(quotas, claimed, r);
    } else {
      var key :| key in ChargedKeys(claimed) && !(key in quotas && Affordable(quotas[key], Charge(claimed, key)));
      assert key in ChargedKeys(all);
      UnaffordableGrows(quotas, claimed, r, key);
    }
  }

  lemma SingleCharge(r: Selection)
    ensures ChargedKeys([r]) == if r.state == Selected then {KeyOf(r)} else {}
    ensures forall key :: Charge([r], key) == if r.state == Selected && KeyOf(r) == key then (r.credits, 1) else (0, 0)
  {
    ChargedKeysAppend([], r);
    assert [] + [r] == [r] && ChargedKeys([]) == {};
    forall key {
      ChargeAppend([], r, key);
    }
  }

  /** A row that cannot afford a batch cannot afford a longer one. */
  lemma UnaffordableGrows(quotas: map<QuotaKey, Quota>, claimed: seq<Selection>, r: Selection, key: QuotaKey)
    requires r.credits > 0 && !(key in quotas && Affordable(quotas[key], Charge(claimed, key)))
    ensures !(key in quotas && Affordable(quotas[key], Charge(claimed + [r], key)))
  {
    ChargeAppend(claimed, r, key);
  }

  lemma ChargeQuotasStep(quotas: map<QuotaKey, Quota>, claimed: seq<Selection>, r: Selection)
    requires ChargeQuotas(quotas, claimed).Ok?
    requires ChargedKeys(claimed + [r]) == ChargedKeys(claimed) + if r.state == Selected then {KeyOf(r)} else {}
    requires ChargedKeys([r]) == if r.state == Selected then {KeyOf(r)} else {}
    requires forall key :: Charge(claimed + [r], key) ==
               var c := Charge(claimed, key);
               if r.state == Selected && KeyOf(r) == key then (c.0 + r.credits, c.1 + 1) else c
    requires forall key :: Charge([r], key) == if r.state == Selected && KeyOf(r) == key then (r.credits, 1) else (0, 0)
    requires forall key :: key !in ChargedKeys(claimed) ==> Charge(claimed, key) == (0, 0)
    ensures var q := ChargeQuotas(quotas, claimed).value;
            && (ChargeQuotas(quotas, claimed + [r]).Ok? <==> ChargeQuotas(q, [r]).Ok?)
            && (ChargeQuotas(quotas, claimed + [r]).Ok? ==> ChargeQuotas(quotas, claimed + [r]) == ChargeQuotas(q, [r]))
  {
    hide Charge, ChargedKeys, KeyOf;
    var q := ChargeQuotas(quotas, claimed).value;
    var all := claimed + [r];
    assert q.Keys == quotas.Keys;
    forall key | key in quotas
      ensures q[key] == ChargeQuota(quotas[key], Charge(claimed, key))
    {
    }
    if ChargeQuotas(quotas, all).Ok? && ChargeQuotas(q, [r]).Ok? {
      assert ChargeQuotas(quotas, all).value == ChargeQuotas(q, [r]).value;
    }
  }

  lemma InsertApplicationsAppend(rows: map<AppId, Selection>, claimed: seq<Selection>, r: Selection)
    ensures InsertApplications(rows, claimed + [r]) ==
            match InsertApplications(rows, claimed)
            case Err(e) => Err(e)
            case Ok(rows') => InsertApplications(rows', [r])
  {
    assert (claimed + [r])[..|claimed|] == claimed && [r][..0] == [];
  }

  lemma InsertEnrollmentsAppend(rows: map<EnrollmentId, EnrollmentRow>, claimed: seq<Selection>, r: Selection, ids: Ids)
    ensures InsertEnrollments(rows, claimed + [r], ids) ==
            match InsertEnrollments(rows, claimed, ids)
            case Err(e) => Err(e)
            case Ok(rows') => InsertEnrollments(rows', [r], ids)
  {
    assert (claimed + [r])[..|claimed|] == claimed && [r][..0] == [];
  }

  lemma InsertDeltasAppend(rows: seq<Delta>, claimed: seq<Selection>, r: Selection)
    ensures InsertDeltas(rows, claimed + [r]) ==
            match InsertDeltas(rows, claimed)
            case Err(e) => Err(e)
            case Ok(rows') => InsertDeltas(rows', [r])
  {
    assert (claimed + [r])[..|claimed|] == claimed && [r][..0] == [];
  }

  lemma AppendOutboxAppend(rows: map<EventId, Selection>, claimed: seq<Selection>, r: Selection)
    ensures AppendOutbox(rows, claimed + [r]) ==
            match AppendOutbox(rows, claimed)
            case Err(e) => Err(e)
            case Ok(rows') => AppendOutbox(rows', [r])
  {
    assert (claimed + [r])[..|claimed|] == claimed && [r][..0] == [];
  }

  lemma InsertEventsAppend(events: map<EventId, EventBody>, claimed: seq<Selection>, r: Selection)
    ensures InsertEvents(events, claimed + [r]) == InsertEvents(InsertEvents(events, claimed), [r])
  {
    assert (claimed + [r])[..|claimed|] == claimed && [r][..0] == [];
  }

  lemma PersistAppend(db: MySql, claimed: seq<Selection>, r: Selection, ids: Ids)
    requires forall x :: x in claimed + [r] ==> x.credits > 0
    ensures Persist(db, claimed + [r], ids).Ok? <==>
            Persist(db, claimed, ids).Ok? && Persist(Persist(db, claimed, ids).value, [r], ids).Ok?
    ensures Persist(db, claimed + [r], ids).Ok? ==>
            Persist(db, claimed + [r], ids) == Persist(Persist(db, claimed, ids).value, [r], ids)
  {
    ChargeQuotasAppend(db.quotas, claimed, r);
    InsertApplicationsAppend(db.applications, claimed, r);
    InsertEnrollmentsAppend(db.enrollments, claimed, r, ids);
    InsertDeltasAppend(db.deltas, claimed, r);
    AppendOutboxAppend(db.outbox, claimed, r);
    InsertEventsAppend(db.events, claimed, r);
  }

  lemma PersistNothing(db: MySql, ids: Ids)
    ensures Persist(db, [], ids) == Ok(db)
  {
    assert ChargedKeys([]) == {};
    assert ChargeQuotas(db.quotas, []).value == db.quotas;
  }

  lemma SaveIsPersist(db: MySql, results: seq<Selection>, ids: Ids)
    requires Normalize(results).Ok? && UnclaimedMatch(db.events, Normalize(results).value)
    ensures SaveBatch(db, results, ids) == Persist(db, Claimed(db.events, Normalize(results).value), ids)
  {
    PersistNothing(db, ids);
  }

  lemma PersistEvents(db: MySql, claimed: seq<Selection>, ids: Ids)
    requires Persist(db, claimed, ids).Ok?
    ensures Persist(db, claimed, ids).value.events == InsertEvents(db.events, claimed)
  {
  }

  /** The last item of a batch can always be saved in a transaction of its own instead. */
  lemma SaveAppend(db: MySql, results: seq<Selection>, r: Selection, ids: Ids)
    ensures SaveBatch(db, results + [r], ids).Ok? <==>
            SaveBatch(db, results, ids).Ok? && SaveBatch(SaveBatch(db, results, ids).value, [r], ids).Ok?
    ensures SaveBatch(db, results + [r], ids).Ok? ==>
            SaveBatch(db, results + [r], ids) == SaveBatch(SaveBatch(db, results, ids).value, [r], ids)
  {
    NormalizeAppend(results, r);
    NormalizeSingle(r);
    if Normalize(results).Ok? && ValidResult(r) {
      var unique := Normalize(results).value;
      NormalizeUnique(results);
      if Known(unique, r) {
        SaveAppendKnown(db, results, r, ids);
      } else {
        SaveAppendUnknown(db, results, r, ids);
      }
    }
  }

  lemma SaveAppendKnown(db: MySql, results: seq<Selection>, r: Selection, ids: Ids)
    requires Normalize(results).Ok? && ValidResult(r) && Known(Normalize(results).value, r)
    ensures SaveBatch(db, results + [r], ids).Ok? <==>
            SaveBatch(db, results, ids).Ok? && SaveBatch(SaveBatch(db, results, ids).value, [r], ids).Ok?
    ensures SaveBatch(db, results + [r], ids).Ok? ==>
            SaveBatch(db, results + [r], ids) == SaveBatch(SaveBatch(db, results, ids).value, [r], ids)
  {
    NormalizeAppend(results, r);
    NormalizeUnique(results);
    var unique := Normalize(results).value;
    var i :| 0 <= i < |unique| && EventOf(unique[i]) == EventOf(r);
    SameCompleteIsEquality(unique[i], r);
    assert Consistent(unique, r) <==> unique[i] == r;
    if SaveBatch(db, results, ids).Ok? {
      SavedEvents(db, results, ids);
      assert unique[i] in results;
      if unique[i] == r {
        SaveStored(SaveBatch(db, results, ids).value, r, ids);
      } else {
        SaveConflict(SaveBatch(db, results, ids).value, r, ids);
      }
    }
    if Consistent(unique, r) {
      SaveSameUnique(db, results, results + [r], ids);
    }
  }

  lemma SaveSameUnique(db: MySql, a: seq<Selection>, b: seq<Selection>, ids: Ids)
    requires Normalize(a) == Normalize(b)
    ensures SaveBatch(db, a, ids) == SaveBatch(db, b, ids)
  {
  }

  lemma SaveAppendUnknown(db: MySql, results: seq<Selection>, r: Selection, ids: Ids)
    requires Normalize(results).Ok? && ValidResult(r) && !Known(Normalize(results).value, r)
    ensures SaveBatch(db, results + [r], ids).Ok? <==>
            SaveBatch(db, results, ids).Ok? && SaveBatch(SaveBatch(db, results, ids).value, [r], ids).Ok?
    ensures SaveBatch(db, results + [r], ids).Ok? ==>
            SaveBatch(db, results + [r], ids) == SaveBatch(SaveBatch(db, results, ids).value, [r], ids)
  {
    NormalizeAppend(results, r);
    NormalizeUnique(results);
    var unique := Normalize(results).value;
    assert forall i :: 0 <= i < |unique| ==> (unique + [r])[i] == unique[i];
    if UnclaimedMatch(db.events, unique) {
      if EventOf(r) !in db.events {
        SaveAppendNew(db, results, r, ids);
      } else {
        SaveAppendStored(db, results, r, ids);
      }
    }
  }

  /** A valid result with an event new to both the batch and the table is claimed, after the batch's others. */
  lemma NewIsClaimed(events: map<EventId, EventBody>, results: seq<Selection>, r: Selection)
    requires Normalize(results).Ok? && ValidResult(r) && !Known(Normalize(results).value, r)
    requires UnclaimedMatch(events, Normalize(results).value) && EventOf(r) !in events
    ensures Normalize(results + [r]) == Ok(Normalize(results).value + [r])
    ensures UnclaimedMatch(events, Normalize(results + [r]).value)
    ensures var claimed := Claimed(events, Normalize(results).value);
            && Claimed(events, Normalize(results + [r]).value) == claimed + [r]
            && (forall x :: x in claimed ==> EventOf(x) != EventOf(r))
            && (forall x :: x in claimed + [r] ==> x.credits > 0)
  {
    hide SameCompleteResult, Normalize, Claimed, Blank;
    var unique := Normalize(results).value;
    NormalizeAppend(results, r);
    NormalizeUnique(results);
    ClaimedAppend(events, unique, r);
    ClaimedMembers(events, unique);
    assert forall i :: 0 <= i < |unique| ==> (unique + [r])[i] == unique[i];
  }

  lemma SaveAppendNew(db: MySql, results: seq<Selection>, r: Selection, ids: Ids)
    requires Normalize(results).Ok? && ValidResult(r) && !Known(Normalize(results).value, r)
    requires UnclaimedMatch(db.events, Normalize(results).value) && EventOf(r) !in db.events
    ensures SaveBatch(db, results + [r], ids).Ok? <==>
            SaveBatch(db, results, ids).Ok? && SaveBatch(SaveBatch(db, results, ids).value, [r], ids).Ok?
    ensures SaveBatch(db, results + [r], ids).Ok? ==>
            SaveBatch(db, results + [r], ids) == SaveBatch(SaveBatch(db, results, ids).value, [r], ids)
  {
    hide Persist, InsertEvents, SaveBatch, ValidResult, Claimed, Normalize, UnclaimedMatch;
    var claimed := Claimed(db.events, Normalize(results).value);
    NewIsClaimed(db.events, results, r);
    SaveIsPersist(db, results, ids);
    SaveIsPersist(db, results + [r], ids);
    PersistAppend(db, claimed, r, ids);
    if Persist(db, claimed, ids).Ok? {
      PersistEvents(db, claimed, ids);
      InsertedOther(db.events, claimed, EventOf(r));
      SaveNew(Persist(db, claimed, ids).value, r, ids);
    }
  }

  lemma SaveAppendStored(db: MySql, results: seq<Selection>, r: Selection, ids: Ids)
    requires Normalize(results).Ok? && ValidResult(r) && !Known(Normalize(results).value, r)
    requires UnclaimedMatch(db.events, Normalize(results).value) && EventOf(r) in db.events
    ensures SaveBatch(db, results + [r], ids).Ok? <==>
            SaveBatch(db, results, ids).Ok? && SaveBatch(SaveBatch(db, results, ids).value, [r], ids).Ok?
    ensures SaveBatch(db, results + [r], ids).Ok? ==>
            SaveBatch(db, results + [r], ids) == SaveBatch(SaveBatch(db, results, ids).value, [r], ids)
  {
    NormalizeAppend(results, r);
    var unique := Normalize(results).value;
    ClaimedAppend(db.events, unique, r);
    var claimed := Claimed(db.events, unique);
    ClaimedMembers(db.events, unique);
    InsertedOther(db.events, claimed, EventOf(r));
    assert (unique + [r])[|unique|] == r;
    SaveIsPersist(db, results, ids);
    if Persist(db, claimed, ids).Ok? {
      var db' := Persist(db, claimed, ids).value;
      PersistEvents(db, claimed, ids);
      assert db'.events[EventOf(r)] == db.events[EventOf(r)];
      if db.events[EventOf(r)] == SelectionBody(r) {
        SameCompleteIsEquality(r, r);
        SaveIsPersist(db, results + [r], ids);
        SaveStored(db', r, ids);
      } else {
        SaveConflict(db', r, ids);
        if db.events[EventOf(r)].SelectionBody? {
          SameCompleteIsEquality(db.events[EventOf(r)].result, r);
        }
      }
    } else if UnclaimedMatch(db.events, unique + [r]) {
      SaveIsPersist(db, results + [r], ids);
    }
  }

  /** A batch commits exactly when its items, saved one at a time, all commit, and with the same tables. */
  lemma {:induction false} BatchIsSequence(db: MySql, results: seq<Selection>, ids: Ids)
    ensures SaveBatch(db, results, ids).Ok? <==> SaveEach(db, results, ids).Ok?
    ensures SaveBatch(db, results, ids).Ok? ==> SaveBatch(db, results, ids) == SaveEach(db, results, ids)
  {
    if results == [] {
    } else {
      var n := |results| - 1;
      BatchIsSequence(db, results[..n], ids);
      SaveAppend(db, results[..n], results[n], ids);
      assert results[..n] + [results[n]] == results;
    }
  }

  /** Batches may be split anywhere. */
  lemma {:induction false} SaveConcat(db: MySql, a: seq<Selection>, b: seq<Selection>, ids: Ids)
    ensures SaveBatch(db, a + b, ids).Ok? <==>
            SaveBatch(db, a, ids).Ok? && SaveBatch(SaveBatch(db, a, ids).value, b, ids).Ok?
    ensures SaveBatch(db, a + b, ids).Ok? ==>
            SaveBatch(db, a + b, ids) == SaveBatch(SaveBatch(db, a, ids).value, b, ids)
  {
    if b == [] {
      assert a + b == a;
      if SaveBatch(db, a, ids).Ok? {
        assert Normalize([]) == Ok([]);
      }
    } else {
      var n := |b| - 1;
      SaveConcat(db, a, b[..n], ids);
      SaveAppend(db, a + b[..n], b[n], ids);
      assert a + b[..n] + [b[n]] == a + b;
      if SaveBatch(db, a, ids).Ok? {
        SaveAppend(SaveBatch(db, a, ids).value, b[..n], b[n], ids);
        assert b[..n] + [b[n]] == b;
      }
    }
  }

  lemma {:induction false} NormalizeDistinct(results: seq<Selection>)
    requires DistinctEvents(results) && forall x :: x in results ==> ValidResult(x)
    ensures Normalize(results) == Ok(results)
  {
    if results != [] {
      var n := |results| - 1;
      assert forall x :: x in results[..n] ==> x in results;
      NormalizeDistinct(results[..n]);
      assert results[n] in results;
      assert results[..n] + [results[n]] == results;
    }
  }

  // Ids are generated anew in every attempt, so a delivery history has one generator per attempt.

  lemma {:induction false} InsertsSameIds(
    rows: map<EnrollmentId, EnrollmentRow>, claimed: seq<Selection>, a: Ids, b: Ids)
    requires forall x :: x in claimed ==> a(x.app) == b(x.app)
    ensures InsertEnrollments(rows, claimed, a) == InsertEnrollments(rows, claimed, b)
  {
    if claimed != [] {
      var n := |claimed| - 1;
      assert claimed[n] in claimed;
      InsertsSameIds(rows, claimed[..n], a, b);
    }
  }

  /** A batch uses the generator for the events that it claims and for nothing else. */
  lemma SavesSameIds(db: MySql, results: seq<Selection>, a: Ids, b: Ids)
    requires forall x :: x in results && EventOf(x) !in db.events ==> a(x.app) == b(x.app)
    ensures SaveBatch(db, results, a) == SaveBatch(db, results, b)
  {
    if Normalize(results).Ok? {
      var unique := Normalize(results).value;
      NormalizeUnique(results);
      ClaimedMembers(db.events, unique);
      InsertsSameIds(db.enrollments, Claimed(db.events, unique), a, b);
    }
  }

  /** A claimed application was not in the table before, and is afterwards. */
  lemma {:induction false} InsertedApplications(rows: map<AppId, Selection>, claimed: seq<Selection>)
    requires InsertApplications(rows, claimed).Ok?
    ensures var rows' := InsertApplications(rows, claimed).value;
            && rows.Keys <= rows'.Keys
            && forall x :: x in claimed ==> x.app !in rows && x.app in rows'
  {
    if claimed != [] {
      var n := |claimed| - 1;
      InsertedApplications(rows, claimed[..n]);
      assert claimed == claimed[..n] + [claimed[n]];
    }
  }

  lemma ClaimedApplications(db: MySql, results: seq<Selection>, ids: Ids)
    requires SaveBatch(db, results, ids).Ok?
    ensures forall x :: x in results && EventOf(x) !in db.events ==>
              x.app !in db.applications && x.app in SaveBatch(db, results, ids).value.applications
  {
    var unique := Normalize(results).value;
    SaveIsPersist(db, results, ids);
    NormalizeUnique(results);
    ClaimedMembers(db.events, unique);
    InsertedApplications(db.applications, Claimed(db.events, unique));
  }

  /** One delivery of a batch, with its own ids; a crash or an infrastructure failure may roll it back. */
  datatype Attempt = Attempt(batch: seq<Selection>, ids: Ids, lost: bool)

  ghost predicate Commits(db: MySql, attempt: Attempt) {
    !attempt.lost && SaveBatch(db, attempt.batch, attempt.ids).Ok?
  }

  /** The tables after a delivery history. */
  ghost function Replay(db: MySql, history: seq<Attempt>): MySql {
    if |history| == 0 then db
    else
      var before := Replay(db, history[..|history| - 1]);
      var attempt := history[|history| - 1];
      if Commits(before, attempt) then SaveBatch(before, attempt.batch, attempt.ids).value else before
  }

  /** Everything that the history's committed attempts delivered, duplicates included. */
  ghost function Delivered(db: MySql, history: seq<Attempt>): seq<Selection> {
    if |history| == 0 then []
    else
      var rest := Delivered(db, history[..|history| - 1]);
      var attempt := history[|history| - 1];
      if Commits(Replay(db, history[..|history| - 1]), attempt) then rest + attempt.batch else rest
  }

  /** Each delivered result once, where it was first delivered. */
  function FirstDeliveries(delivered: seq<Selection>): seq<Selection> {
    if delivered == [] then []
    else
      var r := delivered[|delivered| - 1];
      var rest := FirstDeliveries(delivered[..|delivered| - 1]);
      if r in rest then rest else rest + [r]
  }

  lemma {:induction false} NormalizeIsFirsts(results: seq<Selection>)
    requires Normalize(results).Ok?
    ensures Normalize(results).value == FirstDeliveries(results)
  {
    if results != [] {
      var n := |results| - 1;
      NormalizeIsFirsts(results[..n]);
      var unique, r := Normalize(results[..n]).value, results[n];
      if Known(unique, r) {
        var i :| 0 <= i < |unique| && EventOf(unique[i]) == EventOf(r);
        SameCompleteIsEquality(unique[i], r);
      }
    }
  }

  /**
    A delivery history is one big batch, for a generator that agrees with each attempt's on what that attempt
    claimed.
   */
  lemma {:induction false} ReplayIsOneBatch(db: MySql, history: seq<Attempt>) returns (ids: Ids)
    ensures SaveBatch(db, Delivered(db, history), ids) == Ok(Replay(db, history))
  {
    if |history| == 0 {
      ids := (_ => "");
      assert Normalize([]) == Ok([]);
    } else {
      var n := |history| - 1;
      var earlier := ReplayIsOneBatch(db, history[..n]);
      var before, attempt := Replay(db, history[..n]), history[n];
      ids := earlier;
      if Commits(before, attempt) {
        ids := Joined(before, earlier, attempt.ids);
        hide SaveBatch;
        JoinedSaves(db, Delivered(db, history[..n]), before, attempt.batch, earlier, attempt.ids);
      }
    }
  }

  /** The earlier generator for applications that are in the table, the later one for the others. */
  ghost function Joined(before: MySql, earlier: Ids, later: Ids): Ids {
    a => if a in before.applications then earlier(a) else later(a)
  }

  lemma JoinedSaves(
    db: MySql, delivered: seq<Selection>, before: MySql, batch: seq<Selection>, earlier: Ids, later: Ids)
    requires SaveBatch(db, delivered, earlier) == Ok(before) && SaveBatch(before, batch, later).Ok?
    ensures SaveBatch(db, delivered + batch, Joined(before, earlier, later)) == SaveBatch(before, batch, later)
  {
    hide SaveBatch;
    var ids := Joined(before, earlier, later);
    ClaimedApplications(db, delivered, earlier);
    ClaimedApplications(before, batch, later);
    SavesSameIds(db, delivered, earlier, ids);
    SavesSameIds(before, batch, later, ids);
    SaveConcat(db, delivered, batch, ids);
  }

  /**
    Exactly once: whatever was delivered, repeated, split or rolled back, and whatever ids each attempt
    drew, the tables are those of saving each distinct delivered event one time, one by one, in the
    order of first delivery, with ids drawn once per event.
   */
  lemma ExactlyOnce(db: MySql, history: seq<Attempt>) returns (ids: Ids)
    ensures DistinctEvents(FirstDeliveries(Delivered(db, history)))
    ensures SaveEach(db, FirstDeliveries(Delivered(db, history)), ids) == Ok(Replay(db, history))
  {
    var delivered := Delivered(db, history);
    ids := ReplayIsOneBatch(db, history);
    NormalizeIsFirsts(delivered);
    var distinct := FirstDeliveries(delivered);
    NormalizeUnique(delivered);
    NormalizeDistinct(distinct);
    SaveSameUnique(db, distinct, delivered, ids);
    BatchIsSequence(db, distinct, ids);
  }
}
