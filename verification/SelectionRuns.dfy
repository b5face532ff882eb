/** What single steps may change, and what therefore holds along whole runs. */
module SelectionRuns {
  import opened Types
  import opened Ledger
  import opened RedisScripts
  import opened RedisLedger
  import opened MySqlTables
  import opened CountProjection
  import opened SelectionSystem
  import opened SelectionProofs
  import opened SelectionTheorems

  /** Rows are never deleted and never change hands. */
  ghost predicate SameApps(rows: Rows, rows': Rows) {
    forall e :: e in rows ==> e in rows' && rows'[e].app == rows[e].app
  }

  ghost predicate SavedNow(s: System, x: Selection) {
    EventOf(x) in s.db.events
  }

  /** A step takes for one new selection, gives back for one first release, or leaves the stock alone. */
  ghost predicate StockEffect(s: System, s': System) {
    || (s'.log == s.log && s'.redis.dropped == s.redis.dropped && s'.redis.stock == s.redis.stock)
    || (exists r :: Charged(s, s', r))
    || (exists t :: GivenBack(s, s', t))
  }

  ghost predicate Charged(s: System, s': System, r: Selection) {
    && StockKeysExist(s.redis.stock, s.redis.snapshot.classCells, r.student, r.teachingClass)
    && Takeable(s.redis.stock, s.redis.snapshot.classCells, r) && r.app !in Apps(s.log)
    && s'.log == s.log + [r] && s'.redis.dropped == s.redis.dropped
    && s'.redis.stock == Take(s.redis.stock, s.redis.snapshot.classCells, r)
  }

  ghost predicate GivenBack(s: System, s': System, t: Enrollment) {
    && StockKeysExist(s.redis.stock, s.redis.snapshot.classCells, t.student, t.teachingClass)
    && TargetOk(t, s.db.applications, s.db.enrollments) && s.db.enrollments[t.id].state == Dropped
    && t.id !in s.redis.dropped && s'.redis.dropped == s.redis.dropped + {t.id} && s'.log == s.log
    && s'.redis.stock == GiveBack(s.redis.stock, s.redis.snapshot.classCells, t)
  }

  /** An entry leaves the stream only when MySQL holds its event. */
  ghost predicate StreamEffect(s: System, s': System) {
    forall e :: e in s.redis.stream.entries && e !in s'.redis.stream.entries ==> SavedNow(s, e.event)
  }

  ghost predicate Frame(s: System, s': System) {
    && s'.redis.snapshot == s.redis.snapshot && s'.limits == s.limits && s'.warm == s.warm
    && SameApps(s.db.enrollments, s'.db.enrollments)
  }

  ghost predicate Effect(s: System, s': System) {
    StockEffect(s, s') && StreamEffect(s, s') && Frame(s, s')
  }

  lemma NoEffect(s: System, s': System)
    requires s'.redis.snapshot == s.redis.snapshot && s'.limits == s.limits && s'.warm == s.warm && s'.log == s.log
    requires s'.redis.stock == s.redis.stock && s'.redis.stream == s.redis.stream && s'.redis.dropped == s.redis.dropped
    requires SameApps(s.db.enrollments, s'.db.enrollments)
    ensures Effect(s, s')
  {
  }

  lemma SelectEffect(s: System, r: Selection, expected: string, now: int)
    requires r.app !in Apps(s.log)
    ensures Effect(s, SelectStep(s, r, expected, now))
  {
    var s' := SelectStep(s, r, expected, now);
    if r.state == Selected && Accepted(s.redis, r, expected, now) {
      AcceptedFacts(s.redis, r, expected, now);
      assert Charged(s, s', r);
      assert forall e :: e in s.redis.stream.entries ==> e in s'.redis.stream.entries;
    } else {
      assert s' == s;
    }
  }

  lemma SaveEffect(s: System, w: nat, batch: seq<Entry>, ids: Ids)
    requires Inv(s) && BatchOk(batch, s.log, s.warm) && FreshIds(s.db, Events(batch), ids)
    ensures Effect(s, SaveStep(s, w, batch, ids))
  {
    hide Inv, SaveBatch;
    if batch != [] {
      SaveAccepted(s, batch, ids);
    }
  }

  lemma AckedSaved(stream: Stream, events: map<EventId, EventBody>, log: Log, warm: nat, batch: seq<Entry>, e: Entry)
    requires StreamOk(stream, events, log, warm) && BatchOk(batch, log, warm) && BatchSaved(batch, events)
    requires e in stream.entries && e !in Without(stream.entries, EntryIds(batch))
    ensures EventOf(e.event) in events
  {
    WithoutMembers(stream.entries, EntryIds(batch));
    assert e.id in EntryIds(batch);
    var k :| 0 <= k < |stream.entries| && stream.entries[k] == e;
    assert EntryOk(stream.entries[k], log, warm);
    var j :| 0 <= j < |batch| && batch[j].id == e.id;
    assert EntryOk(batch[j], log, warm);
  }

  lemma AckEffect(s: System, w: nat)
    requires Inv(s) && w in s.consumers && s.consumers[w].Acking?
    ensures Effect(s, SetConsumer(AckStep(s, EntryIds(s.consumers[w].batch)), w, Idle))
  {
    hide Inv, StreamOk, EntryIds, Without, PublicationsOk, DroppersOk;
    var batch := s.consumers[w].batch;
    FlowParts(s);
    assert ConsumerOk(s.consumers[w], s.db.events, s.log, s.warm);
    forall e | e in s.redis.stream.entries && e !in Without(s.redis.stream.entries, EntryIds(batch))
      ensures SavedNow(s, e.event)
    {
      AckedSaved(s.redis.stream, s.db.events, s.log, s.warm, batch, e);
    }
  }

  lemma ReleaseEffect(s: System, d: nat, t: Enrollment)
    requires Inv(s) && TargetOk(t, s.db.applications, s.db.enrollments) && s.db.enrollments[t.id].state == Dropped
    ensures Effect(s, ReleaseDropStep(s, d, t))
  {
    hide Inv;
    var s' := ReleaseDropStep(s, d, t);
    if t.id !in s.redis.dropped {
      ReleaseFirst(s, t);
      assert GivenBack(s, s', t);
    }
  }

  lemma ConsumerEffect(s: System, a: Action)
    requires Inv(s) && Enabled(s, a)
    requires a.Deliver? || a.DiscardMalformed? || a.Save? || a.ClearPending? || a.SkipClear? || a.Ack?
          || a.IsolatedSave? || a.IsolatedClear? || a.IsolatedAck? || a.StopConsumer?
    ensures Effect(s, Apply(s, a))
  {
    hide Inv, ValidResult, FreshIds, SaveStep, Clear, AckStep, EntryIds, Effect;
    assert ConsumersOk(s.consumers, s.db.events, s.log, s.warm) by { InvWorkers(s); }
    PhaseOk(s, a.w);
    match a {
      case DiscardMalformed(w, entry) => HeldValid(s, w);
      case Save(w, ids) =>
        HeldValid(s, w);
        SaveEffect(s, w, Phase(s.consumers, w).batch, ids);
      case Ack(w) => AckEffect(s, w);
      case Deliver(_, _) => NoEffect(s, Apply(s, a));
      case ClearPending(_) => NoEffect(s, Apply(s, a));
      case SkipClear(_) => NoEffect(s, Apply(s, a));
      case StopConsumer(_) => NoEffect(s, Apply(s, a));
      case _ =>
    }
  }

  lemma PersistEffect(s: System, d: nat, t: Enrollment, at: int)
    ensures Effect(s, PersistDropStep(s, d, t, at))
  {
    hide Effect;
    NoEffect(s, PersistDropStep(s, d, t, at));
  }

  lemma WorkerEffect(s: System, d: nat, progress: Dropper)
    ensures Effect(s, SetDropper(s, d, progress))
  {
    hide Effect;
    NoEffect(s, SetDropper(s, d, progress));
  }

  lemma MarkEffect(s: System, d: nat, id: EnrollmentId, retryAt: int)
    ensures Effect(s, SetDropper(s.(db := MarkRepairCompleted(s.db, id)), d, Resting))
    ensures Effect(s, SetDropper(s.(db := MarkRepairFailed(s.db, id, retryAt)), d, Resting))
  {
    hide Effect;
    NoEffect(s, SetDropper(s.(db := MarkRepairCompleted(s.db, id)), d, Resting));
    NoEffect(s, SetDropper(s.(db := MarkRepairFailed(s.db, id, retryAt)), d, Resting));
  }

  lemma DropperEffect(s: System, a: Action)
    requires Inv(s) && Enabled(s, a)
    requires a.LoadDrop? || a.LoadRepair? || a.PersistDrop? || a.ReleaseDrop? || a.CompleteRepair?
          || a.PostponeRepair? || a.StopDropper?
    ensures Effect(s, Apply(s, a))
  {
    hide Inv, ReleaseDropStep, PersistDropStep, TargetOk, Effect, Identity, SameApps, MarkRepairCompleted,
         MarkRepairFailed;
    assert DroppersOk(s.droppers, s.redis.dropped, s.db.applications, s.db.enrollments) by { InvWorkers(s); }
    ProgressOk(s, a.d);
    match a {
      case ReleaseDrop(d) => ReleaseEffect(s, d, Progress(s.droppers, d).target);
      case PersistDrop(d, at) => PersistEffect(s, d, Progress(s.droppers, d).target, at);
      case CompleteRepair(d) => MarkEffect(s, d, Progress(s.droppers, d).target.id, 0);
      case PostponeRepair(d, retryAt) => MarkEffect(s, d, Progress(s.droppers, d).target.id, retryAt);
      case LoadDrop(d, id, _) => WorkerEffect(s, d, Loaded(Identity(s.db, id)));
      case LoadRepair(d, id) => WorkerEffect(s, d, Persisted(Identity(s.db, id)));
      case StopDropper(d) => WorkerEffect(s, d, Resting);
    }
  }

  /** Every step has one of the listed effects. */
  lemma StepEffect(s: System, a: Action)
    requires Inv(s) && Enabled(s, a)
    ensures Effect(s, Apply(s, a))
  {
    hide Inv, Effect, SelectStep, Purge;
    match a {
      case OpenRound => NoEffect(s, Apply(s, a));
      case Select(r, expected, now) => SelectEffect(s, r, expected, now);
      case ProjectCounts(limit, at) => NoEffect(s, Apply(s, a));
      case PurgeDeltas(before, limit) => NoEffect(s, Apply(s, a));
      case Deliver(_, _) => ConsumerEffect(s, a);
      case DiscardMalformed(_, _) => ConsumerEffect(s, a);
      case Save(_, _) => ConsumerEffect(s, a);
      case ClearPending(_) => ConsumerEffect(s, a);
      case SkipClear(_) => ConsumerEffect(s, a);
      case Ack(_) => ConsumerEffect(s, a);
      case IsolatedSave(_, _) => ConsumerEffect(s, a);
      case IsolatedClear(_) => ConsumerEffect(s, a);
      case IsolatedAck(_) => ConsumerEffect(s, a);
      case StopConsumer(_) => ConsumerEffect(s, a);
      case _ => DropperEffect(s, a);
    }
  }

  lemma RunStep(run: seq<System>, n: nat)
    requires IsRun(run) && n + 1 < |run|
    ensures Inv(run[n]) && Inv(run[n + 1]) && Effect(run[n], run[n + 1])
  {
    hide Inv, Enabled, Apply, Init, Effect;
    RunKeeps(run, n);
    RunKeeps(run, n + 1);
    assert Next(run[n], run[n + 1]);
    var a: Action :| Enabled(run[n], a) && run[n + 1] == Apply(run[n], a);
    StepEffect(run[n], a);
  }

  lemma EffectGrows(s: System, s': System)
    requires Effect(s, s')
    ensures s.redis.dropped <= s'.redis.dropped && |s.log| <= |s'.log| && s.log == s'.log[..|s.log|]
  {
    hide StreamEffect, Frame, Take, GiveBack, TargetOk, Takeable;
  }

  /** A released enrollment stays released, so its resources come back at most once in a run. */
  lemma {:induction false} ReleasedForGood(run: seq<System>, i: nat, j: nat)
    requires IsRun(run) && i <= j < |run|
    ensures run[i].redis.dropped <= run[j].redis.dropped
    ensures |run[i].log| <= |run[j].log| && run[i].log == run[j].log[..|run[i].log|]
    decreases j - i
  {
    hide Inv, IsRun, Effect;
    if i < j {
      ReleasedForGood(run, i, j - 1);
      RunStep(run, j - 1);
      EffectGrows(run[j - 1], run[j]);
    }
  }

  /** No enrollment is given back twice in a run, however many workers try. */
  lemma GivenBackOnce(run: seq<System>, i: nat, j: nat, t: Enrollment, u: Enrollment)
    requires IsRun(run) && i < |run| - 1 && j < |run| - 1
    requires GivenBack(run[i], run[i + 1], t) && GivenBack(run[j], run[j + 1], u) && t.id == u.id
    ensures i == j
  {
    hide IsRun;
    if i < j {
      ReleasedForGood(run, i + 1, j);
      assert false;
    }
    if j < i {
      ReleasedForGood(run, j + 1, i);
      assert false;
    }
  }

  // --- Timetables ------------------------------------------------------------------------------

  lemma LiveShrinks(log: Log, rows: Rows, rows': Rows, dropped: set<EnrollmentId>, dropped': set<EnrollmentId>)
    requires SameApps(rows, rows') && dropped <= dropped'
    ensures Live(log, rows', dropped') <= Live(log, rows, dropped)
  {
    forall a | a in ReleasedApps(rows, dropped) ensures a in ReleasedApps(rows', dropped') {
      var e :| e in dropped && e in rows && rows[e].app == a;
      assert e in rows' && rows'[e].app == a;
    }
  }

  lemma ConflictFreeShrinks(classCells: map<ClassId, set<string>>, log: Log, live: set<AppId>, live': set<AppId>)
    requires ConflictFree(classCells, log, live) && live' <= live
    ensures ConflictFree(classCells, log, live')
  {
  }

  lemma ConflictFreeStep(s: System, s': System)
    requires Inv(s) && Effect(s, s') && ConflictFree(s.redis.snapshot.classCells, s.log, LiveNow(s))
    ensures ConflictFree(s'.redis.snapshot.classCells, s'.log, LiveNow(s'))
  {
    hide Inv, ConflictFree;
    LiveShrinks(s'.log, s.db.enrollments, s'.db.enrollments, s.redis.dropped, s'.redis.dropped);
    var cells := s.redis.snapshot.classCells;
    if s'.log == s.log {
      ConflictFreeShrinks(cells, s.log, LiveNow(s), LiveNow(s'));
    } else {
      var r :| Charged(s, s', r);
      StockParts(s);
      DbParts(s);
      hide DropsOk, MirrorOk, EventsOk, DeltasOk, ReleasesOk, QuotaLedger, CourseLedger, CellLedger, KeysOk, SeatLedger,
           CountsOk, RowsOk, EntryFits, UniqueRequests, Live;
      SelectLive(s.db.applications, s.db.enrollments, s.log, s.redis.dropped, r);
      TakeConflictFree(s.redis.stock, cells, s.log, LiveNow(s), r);
      ConflictFreeShrinks(cells, s'.log, LiveNow(s) + {r.app}, LiveNow(s'));
    }
  }

  /** From a conflict-free warmup, no two live selections of a student ever share a cell. */
  lemma {:induction false} TimetablesStayConflictFree(run: seq<System>, n: nat)
    requires IsRun(run) && n < |run|
    requires ConflictFree(run[0].redis.snapshot.classCells, run[0].log, LiveNow(run[0]))
    ensures ConflictFree(run[n].redis.snapshot.classCells, run[n].log, LiveNow(run[n]))
    ensures run[n].redis.snapshot == run[0].redis.snapshot
  {
    hide Inv, ConflictFree, StockEffect, StreamEffect, Init, Next, LiveNow, Apps;
    if n > 0 {
      TimetablesStayConflictFree(run, n - 1);
      RunStep(run, n - 1);
      ConflictFreeStep(run[n - 1], run[n]);
    }
  }
}
