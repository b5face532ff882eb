/**
  The consumer's code takes steps of the protocol, and those steps together with the repair loop and the
  projector lead from every reachable state to one in which both stores agree.
 */
module Recovery {
  import opened Types
  import opened Ledger
  import opened RedisScripts
  import opened RedisLedger
  import opened MySqlTables
  import opened CountProjection
  import opened SelectionSystem
  import opened SelectionProofs
  import opened SelectionTheorems
  import opened StreamConsumer
  import opened Refinement

  ghost predicate BackgroundStep(s: System, s': System) {
    exists a: Action :: Background(a) && Enabled(s, a) && s' == Apply(s, a)
  }

  ghost predicate BackgroundRun(run: seq<System>) {
    |run| > 0 && forall i :: 0 <= i < |run| - 1 ==> BackgroundStep(run[i], run[i + 1])
  }

  /** A reachable state, and background steps that lead to it from `s`. */
  ghost predicate Recovers(s: System, s': System) {
    Reachable(s') && exists run :: BackgroundRun(run) && run[0] == s && run[|run| - 1] == s'
  }

  lemma RecoversHere(s: System)
    requires Reachable(s)
    ensures Recovers(s, s)
  {
    hide Reachable;
    assert BackgroundRun([s]) && [s][0] == s;
  }

  lemma RecoversOn(s: System, s': System, a: Action)
    requires Recovers(s, s') && Background(a) && Enabled(s', a)
    ensures Recovers(s, Apply(s', a))
  {
    hide Reachable, Enabled, Apply;
    ReachableStep(s', a);
    var run :| BackgroundRun(run) && run[0] == s && run[|run| - 1] == s';
    var longer := run + [Apply(s', a)];
    assert BackgroundStep(s', Apply(s', a));
    forall i | 0 <= i < |longer| - 1 ensures BackgroundStep(longer[i], longer[i + 1]) {
      assert i + 1 < |run| ==> BackgroundStep(run[i], run[i + 1]);
    }
    assert BackgroundRun(longer);
  }

  lemma RecoversKeeps(s: System, s': System)
    requires Recovers(s, s')
    ensures Reachable(s') && Inv(s')
  {
    hide Reachable, Inv;
    ReachableKeeps(s');
  }

  lemma BackgroundKeepsLog(s: System, a: Action)
    requires Background(a) && Enabled(s, a)
    ensures Apply(s, a).log == s.log && Apply(s, a).warm == s.warm
  {
    hide SaveBatch, Clear, Drop, Release, Project, Acknowledge, DeadLetter, Purge, WellFormed;
  }

  lemma {:induction false} BackgroundRunKeepsLog(run: seq<System>, n: nat)
    requires BackgroundRun(run) && n < |run|
    ensures run[n].log == run[0].log && run[n].warm == run[0].warm
  {
    hide Enabled, Apply;
    if n > 0 {
      BackgroundRunKeepsLog(run, n - 1);
      assert BackgroundStep(run[n - 1], run[n - 1 + 1]);
      var a: Action :| Background(a) && Enabled(run[n - 1], a) && run[n] == Apply(run[n - 1], a);
      BackgroundKeepsLog(run[n - 1], a);
    }
  }

  /** Background workers accept no selection of their own. */
  lemma RecoversKeepsLog(s: System, s': System)
    requires Recovers(s, s')
    ensures s'.log == s.log && s'.warm == s.warm
  {
    hide BackgroundStep;
    var run :| BackgroundRun(run) && run[0] == s && run[|run| - 1] == s';
    BackgroundRunKeepsLog(run, |run| - 1);
  }

  /** What background workers can reach is closed under their steps. */
  lemma RecoversClosed(s: System)
    ensures Closed(t => Recovers(s, t), Background)
  {
    hide Reachable, Enabled, Apply;
    forall t, a | Recovers(s, t) && Background(a) && Enabled(t, a) ensures Recovers(s, Apply(t, a)) {
      RecoversOn(s, t, a);
    }
  }

  // --- Recovery --------------------------------------------------------------------------------

  lemma {:induction false} LongerThanAll(ids: set<EnrollmentId>) returns (n: nat)
    ensures forall e :: e in ids ==> |e| < n
  {
    if ids == {} {
      n := 0;
    } else {
      var e :| e in ids;
      var m := LongerThanAll(ids - {e});
      n := m + |e| + 1;
      assert forall x :: x in ids ==> x == e || x in ids - {e};
    }
  }

  /** New enrollment ids can always be generated. */
  lemma FreshIdsExist(db: MySql, batch: seq<Selection>) returns (ids: Ids)
    ensures FreshIds(db, batch, ids)
  {
    var n := LongerThanAll(db.enrollments.Keys);
    var pad: string := seq(n, _ => '0');
    ids := (a: AppId) => pad + a;
    forall x | x in batch ensures ids(x.app) !in db.enrollments {
      assert |ids(x.app)| >= n;
    }
    forall x, y | x in batch && y in batch && x.app != y.app ensures ids(x.app) != ids(y.app) {
      assert ids(x.app)[n..] == x.app && ids(y.app)[n..] == y.app;
    }
  }

  lemma {:induction false} NothingRemains(entries: seq<Entry>, ids: set<nat>)
    requires forall i :: 0 <= i < |entries| ==> entries[i].id in ids
    ensures Without(entries, ids) == []
  {
    if entries != [] {
      NothingRemains(entries[..|entries| - 1], ids);
    }
  }

  /** Clear scripts for saved results never report an error. */
  lemma {:induction false} ClearsSucceed(
    board: Board, events: map<EventId, EventBody>, log: Log, warm: nat, batch: seq<Entry>, runs: nat -> bool, k: nat)
    requires PublicationsOk(board, events, log, warm) && UniqueApps(log) && UniqueRequests(log)
    requires BatchOk(batch, log, warm) && BatchSaved(batch, events) && k <= |batch|
    requires forall i: nat :: i < k ==> runs(i)
    ensures PublicationsOk(ClearAll(board, Events(batch)[..k], runs).0, events, log, warm)
    ensures !ClearAll(board, Events(batch)[..k], runs).1
  {
    hide PublicationsOk, Clear, EventOf;
    if k > 0 {
      ClearsSucceed(board, events, log, warm, batch, runs, k - 1);
      assert Events(batch)[..k][..k - 1] == Events(batch)[..k - 1];
      assert EntryOk(batch[k - 1], log, warm);
      ClearBoard(ClearAll(board, Events(batch)[..k - 1], runs).0, events, log, warm, batch[k - 1].id);
    }
  }

  /** An attempt without failures. */
  function NoFailure(ids: Ids): Calls {
    var pipeline := Pipeline(_ => true, true);
    Calls(ids, Answered, pipeline, true, _ => ids, _ => Answered, _ => pipeline, _ => true, _ => true, _ => true)
  }

  lemma SavedBatchClears(x: System, c: nat, batch: seq<Entry>, runs: nat -> bool)
    requires Reachable(x) && Phase(x.consumers, c) == Clearing(batch, 0, false) && forall i: nat :: runs(i)
    ensures !ClearAll(x.redis.board, Events(batch), runs).1
  {
    hide Inv, Reachable;
    ReachableKeeps(x);
    FlowParts(x);
    StockParts(x);
    PhaseOk(x, c);
    hide PublicationsOk, StreamOk, ConsumersOk, DroppersOk, KeysOk, QuotaLedger, SeatLedger, CourseLedger, CellLedger,
         EntryFits, UniqueApps, UniqueRequests, BatchOk, BatchSaved, ClearAll;
    ClearsSucceed(x.redis.board, x.db.events, x.log, x.warm, batch, runs, |batch|);
    assert Events(batch)[..|batch|] == Events(batch);
  }

  lemma StopRuns(s: System, s': System, c: nat)
    requires Recovers(s, s')
    ensures Recovers(s, SetConsumer(s', c, Idle))
  {
    hide Recovers;
    RecoversOn(s, s', StopConsumer(c));
  }

  /** Redelivering the whole stream to one restarted worker empties it. */
  lemma DrainStream(s: System, s': System) returns (t: System)
    requires Recovers(s, s')
    ensures Recovers(s, t) && t.redis.stream.entries == []
  {
    hide Recovers, Inv, Reachable;
    StopRuns(s, s', 0);
    var ready := SetConsumer(s', 0, Idle);
    var batch := ready.redis.stream.entries;
    if batch == [] {
      return ready;
    }
    var ids := FreshIdsExist(ready.db, Events(batch));
    t := AfterBatch(ready, 0, batch, NoFailure(ids));
    DrainBatch(s, ready, batch, ids);
  }

  lemma DrainBatch(s: System, ready: System, batch: seq<Entry>, ids: Ids)
    requires Recovers(s, ready) && Phase(ready.consumers, 0).Idle? && batch == ready.redis.stream.entries && batch != []
    requires FreshIds(ready.db, Events(batch), ids)
    ensures var t := AfterBatch(ready, 0, batch, NoFailure(ids)); Recovers(s, t) && t.redis.stream.entries == []
  {
    hide Recovers, Reachable, FreshIds, SaveBatch, ClearAll, WellFormed, ValidResult, Discarded, Isolated, Processed,
         BatchWith;
    var calls := NoFailure(ids);
    var states := t => Recovers(s, t);
    RecoversClosed(s);
    ConsumerRefines(states, ready, 0, batch, calls, Alone) by { SparedAlone(states, 0); }
    DeliverIn(states, ready, 0, batch);
    var held := SetConsumer(ready, 0, Holding(batch));
    SaveIn(states, held, 0, batch, calls);
    SavedBatchClears(AfterSave(held, 0, batch, calls), 0, batch, calls.clears.runs) by {
      RecoversKeeps(s, AfterSave(held, 0, batch, calls));
    }
    BatchAlone(ready, 0, batch, calls);
    hide Closed;
    Emptied(ready.redis, ready.db, batch, calls);
  }

  lemma SparedAlone(states: System -> bool, c: nat)
    ensures SparesConsumer(states, Alone, c)
  {
  }

  lemma Emptied(rd: Redis, db: MySql, batch: seq<Entry>, calls: Calls)
    requires batch == rd.stream.entries && batch != [] && WellFormed(batch) == batch
    requires forall e :: e in batch ==> ValidResult(e.event)
    requires SaveBatch(db, Events(batch), calls.ids).Ok? && !ClearAll(rd.board, Events(batch), calls.clears.runs).1
    requires calls.save == Answered && calls.clears.answered && calls.ack
    ensures Processed(rd, db, batch, calls).0.stream.entries == []
  {
    NothingDiscarded(rd.stream, batch, calls.discard);
    hide WellFormed, ValidResult, SaveBatch, ClearAll, Discarded, Isolated;
    NothingRemains(batch, EntryIds(batch));
  }

  ghost function OpenRepairs(db: MySql): set<EnrollmentId> {
    set e | e in db.repairs && db.repairs[e].state == RepairPending
  }

  lemma LoadRuns(s: System, s': System, e: EnrollmentId)
    requires Recovers(s, s') && e in OpenRepairs(s'.db)
    ensures e in s'.db.enrollments && s'.db.enrollments[e].app in s'.db.applications
    ensures Recovers(s, SetDropper(s', 0, Persisted(Identity(s'.db, e))))
  {
    hide Recovers, Inv, Reachable, Identity;
    RecoversOn(s, s', StopDropper(0));
    var rested := SetDropper(s', 0, Resting);
    RecoversKeeps(s, rested);
    RepairTarget(rested, e);
    RecoversOn(s, rested, LoadRepair(0, e));
    assert SetDropper(rested, 0, Persisted(Identity(s'.db, e))) == SetDropper(s', 0, Persisted(Identity(s'.db, e)));
  }

  lemma ReleaseRuns(s: System, s': System, t: Enrollment)
    requires Recovers(s, SetDropper(s', 0, Persisted(t)))
    ensures Recovers(s, SetDropper(s'.(redis := Release(s'.redis, t).0), 0, Released(t)))
  {
    hide Recovers, Inv, Reachable, Release;
    var loaded := SetDropper(s', 0, Persisted(t));
    RecoversKeeps(s, loaded);
    DropsNeverFail(loaded, 0, 0);
    RecoversOn(s, loaded, ReleaseDrop(0));
    var released := SetDropper(s'.(redis := Release(s'.redis, t).0), 0, Released(t));
    assert Apply(loaded, ReleaseDrop(0)).droppers == released.droppers;
  }

  lemma CompleteRuns(s: System, s': System, t: Enrollment)
    requires Recovers(s, SetDropper(s', 0, Released(t)))
    ensures Recovers(s, SetDropper(s'.(db := MarkRepairCompleted(s'.db, t.id)), 0, Resting))
  {
    hide Recovers, MarkRepairCompleted;
    var released := SetDropper(s', 0, Released(t));
    RecoversOn(s, released, CompleteRepair(0));
    var done := SetDropper(s'.(db := MarkRepairCompleted(s'.db, t.id)), 0, Resting);
    assert Apply(released, CompleteRepair(0)).droppers == done.droppers;
  }

  /** One repair by one restarted worker: loaded, released, completed. */
  lemma RepairOne(s: System, s': System, e: EnrollmentId) returns (t: System)
    requires Recovers(s, s') && e in OpenRepairs(s'.db)
    ensures Recovers(s, t) && OpenRepairs(t.db) == OpenRepairs(s'.db) - {e}
    ensures t.redis.stream == s'.redis.stream
  {
    hide Recovers, Release, OpenRepairs, MarkRepairCompleted;
    LoadRuns(s, s', e);
    var target := Identity(s'.db, e);
    ReleaseRuns(s, s', target);
    ReleaseKeepsStream(s'.redis, target);
    var released := s'.(redis := Release(s'.redis, target).0);
    CompleteRuns(s, released, target);
    t := SetDropper(released.(db := MarkRepairCompleted(released.db, e)), 0, Resting);
    RepairClosed(released.db, e);
  }

  lemma RepairTarget(s: System, e: EnrollmentId)
    requires Reachable(s) && e in OpenRepairs(s.db)
    ensures e in s.db.repairs && s.db.repairs[e].state == RepairPending
    ensures e in s.db.enrollments && s.db.enrollments[e].app in s.db.applications
  {
    hide Reachable, Inv;
    RepairsCoverReleases(s, e);
    ReachableKeeps(s);
    DbParts(s);
    hide EventsOk, DropsOk, DeltasOk, MirrorOk, CountsOk;
  }

  lemma ReleaseKeepsStream(rd: Redis, t: Enrollment)
    ensures Release(rd, t).0.stream == rd.stream
  {
  }

  lemma RepairClosed(db: MySql, e: EnrollmentId)
    requires e in OpenRepairs(db)
    ensures OpenRepairs(MarkRepairCompleted(db, e)) == OpenRepairs(db) - {e}
  {
  }

  lemma {:induction false} CloseRepairs(s: System, s': System) returns (t: System)
    requires Recovers(s, s')
    ensures Recovers(s, t) && OpenRepairs(t.db) == {} && t.redis.stream == s'.redis.stream
    decreases OpenRepairs(s'.db)
  {
    hide Recovers, OpenRepairs;
    if OpenRepairs(s'.db) == {} {
      t := s';
    } else {
      var e :| e in OpenRepairs(s'.db);
      var next := RepairOne(s, s', e);
      t := CloseRepairs(s, next);
    }
  }

  /** One projection with a large enough limit leaves no delta behind. */
  lemma ProjectAll(s: System, s': System) returns (t: System)
    requires Recovers(s, s')
    ensures Recovers(s, t) && Unprocessed(t.db.deltas) == []
    ensures t.redis == s'.redis && t.db.enrollments == s'.db.enrollments && t.db.repairs == s'.db.repairs
  {
    hide Recovers, Inv, Reachable;
    var limit := |Unprocessed(s'.db.deltas)|;
    RecoversKeeps(s, s');
    ProjectionNeverTrips(s', limit, 0);
    RecoversOn(s, s', ProjectCounts(limit, 0));
    t := ProjectStep(s', limit, 0);
    MarkFirstRemaining(s'.db.deltas, limit, 0);
    hide TouchedClasses, Net, Unprocessed, MarkFirst;
    assert Batch(s'.db.deltas, limit) == Unprocessed(s'.db.deltas);
  }

  /** Everything committed is saved, everything dropped is released and every change of a count is applied. */
  ghost predicate Settled(s: System) {
    CaughtUp(s) && OpenRepairs(s.db) == {} && Unprocessed(s.db.deltas) == []
  }

  /**
    No reachable state is beyond repair: the background workers alone, restarted, can settle it,
    whatever had failed before.
   */
  lemma CanSettle(s: System) returns (t: System)
    requires Reachable(s)
    ensures Recovers(s, t) && Settled(t) && t.log == s.log
    ensures forall i :: 0 <= i < |s.log| ==>
              EventOf(s.log[i]) in t.db.events && t.db.events[EventOf(s.log[i])] == SelectionBody(s.log[i])
  {
    hide Recovers, Reachable, Unprocessed;
    RecoversHere(s);
    var drained := DrainStream(s, s);
    var repaired := CloseRepairs(s, drained);
    t := ProjectAll(s, repaired);
    RecoversKeeps(s, t);
    hide Inv;
    forall e | e in t.db.enrollments && t.db.enrollments[e].state == Dropped ensures e in t.redis.dropped {
      RepairsCoverReleases(t, e);
      assert e !in OpenRepairs(t.db);
    }
    RecoversKeepsLog(s, t);
    hide Settled;
    AllStored(t);
  }

  /** With an empty stream every accepted result is in MySQL. */
  lemma AllStored(s: System)
    requires Reachable(s) && s.redis.stream.entries == []
    ensures forall i :: 0 <= i < |s.log| ==>
              EventOf(s.log[i]) in s.db.events && s.db.events[EventOf(s.log[i])] == SelectionBody(s.log[i])
  {
    hide Reachable, EventOf;
    forall i | 0 <= i < |s.log|
      ensures EventOf(s.log[i]) in s.db.events && s.db.events[EventOf(s.log[i])] == SelectionBody(s.log[i])
    {
      NothingLost(s, i);
    }
  }

  /** In a settled state the seats of Redis, the counts of MySQL and the enrolled rows say the same. */
  lemma SettledCounts(s: System, c: ClassId)
    requires Reachable(s) && Settled(s) && c in s.db.classes
    ensures c in s.redis.stock.seat
    ensures s.db.classes[c].selectedCount == |EnrolledIn(s.db.enrollments, c)|
            == s.db.classes[c].capacity - s.redis.stock.seat[c]
  {
    hide Reachable, EnrolledIn, Unprocessed;
    CountsFollowRows(s, c);
    CaughtUpSeats(s, c);
  }
}
