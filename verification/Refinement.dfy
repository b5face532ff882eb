/**
  The consumer's code takes steps of the selection protocol, call by call, whatever other workers do
  between its calls.
 */
module Refinement {
  import opened Types
  import opened RedisScripts
  import opened MySqlTables
  import opened CountProjection
  import opened SelectionSystem
  import opened SelectionProofs
  import opened StreamConsumer

  /** The steps of the background workers: no selection, no drop and no opening of a round. */
  predicate Background(a: Action) {
    !(a.OpenRound? || a.Select? || a.LoadDrop? || a.PersistDrop?)
  }

  predicate Any(a: Action) {
    true
  }

  /** A set of reachable states that the given steps do not leave. */
  ghost predicate Closed(states: System -> bool, steps: Action -> bool) {
    && (forall x :: states(x) ==> Reachable(x))
    && (forall x, a :: states(x) && steps(a) && Enabled(x, a) ==> states(Apply(x, a)))
  }

  lemma ReachableStep(s: System, a: Action)
    requires Reachable(s) && Enabled(s, a)
    ensures Reachable(Apply(s, a))
  {
    hide Init, Enabled, Apply;
    var run :| IsRun(run) && run[|run| - 1] == s;
    var longer := run + [Apply(s, a)];
    assert Next(s, Apply(s, a));
    forall i | 0 <= i < |longer| - 1 ensures Next(longer[i], longer[i + 1]) {
      assert i + 1 < |run| ==> Next(run[i], run[i + 1]);
    }
    assert IsRun(longer);
  }

  lemma ReachableClosed()
    ensures Closed(Reachable, Any) && Closed(Reachable, Background)
  {
    hide Reachable, Enabled, Apply;
    forall x, a | Reachable(x) && Enabled(x, a) ensures Reachable(Apply(x, a)) {
      ReachableStep(x, a);
    }
  }

  lemma StepIn(states: System -> bool, steps: Action -> bool, x: System, a: Action)
    requires Closed(states, steps) && states(x) && steps(a) && Enabled(x, a)
    ensures states(Apply(x, a))
  {
  }

  // --- The consumer, call by call --------------------------------------------------------------

  /** What happens between the calls of one worker: anything that stays in the set and leaves the worker alone. */
  type Between = (nat, System) -> System

  ghost predicate SparesConsumer(states: System -> bool, between: Between, c: nat) {
    forall k: nat, x :: states(x) ==>
      states(between(k, x)) && Phase(between(k, x).consumers, c) == Phase(x.consumers, c)
  }

  /** Steps that lead from one state to another. */
  ghost predicate Leads(x: System, actions: seq<Action>, y: System, allowed: Action -> bool) {
    if actions == [] then x == y
    else
      var n := |actions| - 1;
      exists m :: Leads(x, actions[..n], m, allowed) && allowed(actions[n]) && Enabled(m, actions[n])
                  && y == Apply(m, actions[n])
  }

  /** What happens in between are allowed steps. */
  ghost predicate OnlySteps(states: System -> bool, between: Between, allowed: Action -> bool) {
    forall k: nat, x :: states(x) ==> exists actions :: Leads(x, actions, between(k, x), allowed)
  }

  /** The steps of one consumer. */
  predicate Consumes(a: Action, c: nat) {
    && (a.Deliver? || a.DiscardMalformed? || a.Save? || a.ClearPending? || a.SkipClear? || a.Ack? || a.IsolatedSave?
        || a.IsolatedClear? || a.IsolatedAck? || a.StopConsumer?)
    && a.w == c
  }

  lemma OthersKeepPhase(s: System, a: Action, c: nat)
    requires Enabled(s, a) && !Consumes(a, c)
    ensures Phase(Apply(s, a).consumers, c) == Phase(s.consumers, c)
  {
    hide SaveBatch, Clear, Drop, Release, Project, Acknowledge, DeadLetter, Purge, WellFormed, Commit;
  }

  lemma {:induction false} LeadsSpareConsumer(
    states: System -> bool, x: System, actions: seq<Action>, y: System, allowed: Action -> bool, c: nat)
    requires Closed(states, allowed) && states(x) && Leads(x, actions, y, allowed)
    requires forall a :: allowed(a) ==> !Consumes(a, c)
    ensures states(y) && Phase(y.consumers, c) == Phase(x.consumers, c)
  {
    hide Closed, Enabled, Apply, Consumes, Phase;
    if actions != [] {
      var n := |actions| - 1;
      var m :| Leads(x, actions[..n], m, allowed) && allowed(actions[n]) && Enabled(m, actions[n])
               && y == Apply(m, actions[n]);
      LeadsSpareConsumer(states, x, actions[..n], m, allowed, c);
      StepIn(states, allowed, m, actions[n]);
      OthersKeepPhase(m, actions[n], c);
    }
  }

  /** Any steps but the worker's own are such happenings. */
  lemma OthersSpareConsumer(states: System -> bool, between: Between, allowed: Action -> bool, c: nat)
    requires Closed(states, allowed) && OnlySteps(states, between, allowed)
    requires forall a :: allowed(a) ==> !Consumes(a, c)
    ensures SparesConsumer(states, between, c)
  {
    hide Closed, Consumes, Phase, Leads;
    forall k: nat, x | states(x)
      ensures states(between(k, x)) && Phase(between(k, x).consumers, c) == Phase(x.consumers, c)
    {
      var actions :| Leads(x, actions, between(k, x), allowed);
      LeadsSpareConsumer(states, x, actions, between(k, x), allowed, c);
    }
  }

  /** The save, and what the worker decides from its answer. */
  ghost function AfterSave(x: System, c: nat, batch: seq<Entry>, calls: Calls): System {
    if calls.save == Down then SetConsumer(x, c, Idle)
    else
      match SaveBatch(x.db, Events(batch), calls.ids)
      case Err(e) => SetConsumer(x, c, if calls.save == Lost || Retryable(e) then Idle else Isolating(batch, 0))
      case Ok(db) => SetConsumer(x.(db := db), c, if calls.save == Lost then Idle else Clearing(batch, 0, false))
  }

  ghost predicate FailedSoFar(x: System, c: nat) {
    Phase(x.consumers, c).Clearing? && Phase(x.consumers, c).failed
  }

  /** One script of the pipeline. */
  ghost function AfterScript(x: System, c: nat, batch: seq<Entry>, k: nat, runs: bool): System
    requires k < |batch|
  {
    if !runs then SetConsumer(x, c, Clearing(batch, k + 1, true))
    else
      var (board, status) := Clear(x.redis.board, batch[k].event);
      SetConsumer(x.(redis := x.redis.(board := board)), c, Clearing(batch, k + 1, FailedSoFar(x, c) || status < -1))
  }

  ghost function AfterScripts(x: System, c: nat, batch: seq<Entry>, calls: Calls, between: Between, k: nat): System
    requires k <= |batch|
  {
    if k == 0 then x
    else AfterScript(between(k, AfterScripts(x, c, batch, calls, between, k - 1)), c, batch, k - 1,
                     calls.clears.runs(k - 1))
  }

  /** The answer of the pipeline, and the acknowledgement if it is good. */
  ghost function AfterPipeline(x: System, c: nat, batch: seq<Entry>, calls: Calls, between: Between): System {
    if FailedSoFar(x, c) || !calls.clears.answered then SetConsumer(x, c, Idle)
    else
      var y := between(|batch| + 1, SetConsumer(x, c, Acking(batch)));
      SetConsumer(if calls.ack then AckStep(y, EntryIds(batch)) else y, c, Idle)
  }

  /** processBatch on delivered well-formed entries, with other workers between its calls. */
  ghost function BatchWith(s: System, c: nat, batch: seq<Entry>, calls: Calls, between: Between): System {
    FromHeld(between(0, SetConsumer(s, c, Holding(batch))), c, batch, calls, between)
  }

  ghost function FromHeld(held: System, c: nat, batch: seq<Entry>, calls: Calls, between: Between): System {
    if batch == [] then SetConsumer(held, c, Idle)
    else
      var saved := AfterSave(held, c, batch, calls);
      if Phase(saved.consumers, c).Clearing?
      then AfterPipeline(AfterScripts(saved, c, batch, calls, between, |batch|), c, batch, calls, between)
      else saved
  }

  lemma StopIn(states: System -> bool, x: System, c: nat)
    requires Closed(states, Background) && states(x)
    ensures states(SetConsumer(x, c, Idle))
  {
    hide Closed;
    StepIn(states, Background, x, StopConsumer(c));
  }

  lemma DeliverIn(states: System -> bool, s: System, c: nat, batch: seq<Entry>)
    requires Closed(states, Background) && states(s) && Phase(s.consumers, c).Idle?
    requires forall i :: 0 <= i < |batch| ==> batch[i] in s.redis.stream.entries
    ensures states(SetConsumer(s, c, Holding(batch)))
    ensures WellFormed(batch) == batch && forall e :: e in batch ==> ValidResult(e.event)
  {
    hide Inv, ValidResult, WellFormed, Reachable, Apply, Enabled;
    var held := SetConsumer(s, c, Holding(batch));
    assert Enabled(s, Deliver(c, batch)) && Apply(s, Deliver(c, batch)) == held by { DeliverStep(s, c, batch); }
    StepIn(states, Background, s, Deliver(c, batch));
    ReachableKeeps(held);
    HeldValid(held, c);
  }

  lemma DeliverStep(s: System, c: nat, batch: seq<Entry>)
    requires Phase(s.consumers, c).Idle? && forall i :: 0 <= i < |batch| ==> batch[i] in s.redis.stream.entries
    ensures Enabled(s, Deliver(c, batch)) && Apply(s, Deliver(c, batch)) == SetConsumer(s, c, Holding(batch))
  {
  }

  /** The save of a held batch never fails, and is a step of the protocol. */
  lemma SaveIn(states: System -> bool, x: System, c: nat, batch: seq<Entry>, calls: Calls)
    requires Closed(states, Background) && states(x) && Phase(x.consumers, c) == Holding(batch) && batch != []
    requires FreshIds(x.db, Events(batch), calls.ids)
    ensures states(AfterSave(x, c, batch, calls))
    ensures SaveBatch(x.db, Events(batch), calls.ids).Ok?
    ensures calls.save == Answered ==> Phase(AfterSave(x, c, batch, calls).consumers, c) == Clearing(batch, 0, false)
    ensures calls.save != Answered ==> Phase(AfterSave(x, c, batch, calls).consumers, c) == Idle
  {
    hide Inv, Reachable, FreshIds, SaveBatch, WellFormed, Events, BatchOk, EventOf, ValidResult;
    StopIn(states, x, c);
    ReachableKeeps(x) by { Member(states, Background, x); }
    InvWorkers(x);
    PhaseOk(x, c);
    HeldValid(x, c);
    SaveAccepted(x, batch, calls.ids);
    StepIn(states, Background, x, Save(c, calls.ids));
    var db := SaveBatch(x.db, Events(batch), calls.ids).value;
    var saved := SetConsumer(x.(db := db), c, Clearing(batch, 0, false));
    assert Apply(x, Save(c, calls.ids)) == saved;
    StopIn(states, saved, c);
    assert SetConsumer(saved, c, Idle) == SetConsumer(x.(db := db), c, Idle);
  }

  lemma Member(states: System -> bool, steps: Action -> bool, x: System)
    requires Closed(states, steps) && states(x)
    ensures Reachable(x)
  {
  }

  lemma ScriptIn(states: System -> bool, x: System, c: nat, batch: seq<Entry>, k: nat, runs: bool)
    requires Closed(states, Background) && states(x) && k < |batch|
    requires Phase(x.consumers, c).Clearing? && Phase(x.consumers, c).batch == batch && Phase(x.consumers, c).next == k
    ensures states(AfterScript(x, c, batch, k, runs))
    ensures var phase := Phase(AfterScript(x, c, batch, k, runs).consumers, c);
            phase.Clearing? && phase.batch == batch && phase.next == k + 1
  {
    hide Clear, Closed;
    StepIn(states, Background, x, if runs then ClearPending(c) else SkipClear(c));
  }

  lemma {:induction false} ScriptsIn(
    states: System -> bool, x: System, c: nat, batch: seq<Entry>, calls: Calls, between: Between, k: nat)
    requires Closed(states, Background) && SparesConsumer(states, between, c) && states(x) && k <= |batch|
    requires Phase(x.consumers, c) == Clearing(batch, 0, false)
    ensures states(AfterScripts(x, c, batch, calls, between, k))
    ensures var phase := Phase(AfterScripts(x, c, batch, calls, between, k).consumers, c);
            phase.Clearing? && phase.batch == batch && phase.next == k
  {
    hide Closed, AfterScript;
    if k > 0 {
      ScriptsIn(states, x, c, batch, calls, between, k - 1);
      ScriptIn(states, between(k, AfterScripts(x, c, batch, calls, between, k - 1)), c, batch, k - 1,
               calls.clears.runs(k - 1));
    }
  }

  lemma PipelineIn(states: System -> bool, x: System, c: nat, batch: seq<Entry>, calls: Calls, between: Between)
    requires Closed(states, Background) && SparesConsumer(states, between, c) && states(x)
    requires Phase(x.consumers, c).Clearing? && Phase(x.consumers, c).batch == batch
    requires Phase(x.consumers, c).next == |batch|
    ensures states(AfterPipeline(x, c, batch, calls, between))
  {
    hide Closed, EntryIds, AckStep;
    StopIn(states, x, c);
    if !FailedSoFar(x, c) && calls.clears.answered {
      StepIn(states, Background, x, ClearPending(c));
      var acking := SetConsumer(x, c, Acking(batch));
      assert Apply(x, ClearPending(c)) == acking;
      var y := between(|batch| + 1, acking);
      StopIn(states, y, c);
      StepIn(states, Background, y, Ack(c));
    }
  }

  /**
    Refinement: processBatch run on delivered entries in a reachable state, with any of its calls
    failing and with any steps of other workers between its calls, ends where steps of the protocol end.
    So every theorem about reachable states holds after it.
   */
  lemma ConsumerRefines(states: System -> bool, s: System, c: nat, batch: seq<Entry>, calls: Calls, between: Between)
    requires Closed(states, Background) && SparesConsumer(states, between, c)
    requires states(s) && Phase(s.consumers, c).Idle?
    requires forall i :: 0 <= i < |batch| ==> batch[i] in s.redis.stream.entries
    requires FreshIds(between(0, SetConsumer(s, c, Holding(batch))).db, Events(batch), calls.ids)
    ensures states(BatchWith(s, c, batch, calls, between))
  {
    DeliverIn(states, s, c, batch);
    hide Closed, FreshIds, FromHeld, ValidResult, WellFormed;
    HeldIn(states, between(0, SetConsumer(s, c, Holding(batch))), c, batch, calls, between);
  }

  lemma HeldIn(states: System -> bool, held: System, c: nat, batch: seq<Entry>, calls: Calls, between: Between)
    requires Closed(states, Background) && SparesConsumer(states, between, c)
    requires states(held) && Phase(held.consumers, c) == Holding(batch)
    requires FreshIds(held.db, Events(batch), calls.ids)
    ensures states(FromHeld(held, c, batch, calls, between))
  {
    hide Closed, SparesConsumer, FreshIds, AfterSave, AfterScripts, AfterPipeline, SetConsumer, Phase, Events,
         SaveBatch;
    StopIn(states, held, c);
    if batch != [] {
      SaveIn(states, held, c, batch, calls);
      var saved := AfterSave(held, c, batch, calls);
      if calls.save == Answered {
        ScriptsIn(states, saved, c, batch, calls, between, |batch|);
        PipelineIn(states, AfterScripts(saved, c, batch, calls, between, |batch|), c, batch, calls, between);
      }
    }
  }

  // --- Without other workers -------------------------------------------------------------------

  /** The system after one uninterrupted processBatch of worker `c`. */
  ghost function AfterBatch(s: System, c: nat, batch: seq<Entry>, calls: Calls): System {
    var (redis, db) := Processed(s.redis, s.db, batch, calls);
    s.(redis := redis, db := db, consumers := s.consumers[c := Idle])
  }

  ghost function Alone(k: nat, x: System): System {
    x
  }

  lemma {:induction false} NothingDiscarded(stream: Stream, batch: seq<Entry>, discard: nat -> bool)
    requires forall e :: e in batch ==> ValidResult(e.event)
    ensures Discarded(stream, batch, discard) == stream
  {
    if batch != [] {
      var n := |batch| - 1;
      assert batch[n] in batch;
      hide ValidResult;
      NothingDiscarded(stream, batch[..n], discard);
    }
  }

  /** The system with another board and the worker after `k` scripts. */
  ghost function Scripted(x: System, c: nat, batch: seq<Entry>, cleared: (Board, bool), k: nat): System {
    x.(redis := x.redis.(board := cleared.0), consumers := x.consumers[c := Clearing(batch, k, cleared.1)])
  }

  lemma ScriptAlone(x: System, c: nat, batch: seq<Entry>, cleared: (Board, bool), k: nat, runs: bool)
    requires k < |batch|
    ensures var script := Clear(cleared.0, batch[k].event);
            var after := if !runs then (cleared.0, true) else (script.0, cleared.1 || script.1 < -1);
            AfterScript(Scripted(x, c, batch, cleared, k), c, batch, k, runs) == Scripted(x, c, batch, after, k + 1)
  {
    hide Clear;
    var y := Scripted(x, c, batch, cleared, k);
    var (board, status) := Clear(cleared.0, batch[k].event);
    assert y.consumers[c := Clearing(batch, k + 1, true)] == x.consumers[c := Clearing(batch, k + 1, true)];
    assert y.consumers[c := Clearing(batch, k + 1, cleared.1 || status < -1)]
        == x.consumers[c := Clearing(batch, k + 1, cleared.1 || status < -1)];
  }

  lemma {:induction false} ScriptsAlone(x: System, c: nat, batch: seq<Entry>, calls: Calls, k: nat)
    requires k <= |batch| && c in x.consumers && x.consumers[c] == Clearing(batch, 0, false)
    ensures AfterScripts(x, c, batch, calls, Alone, k)
            == Scripted(x, c, batch, ClearAll(x.redis.board, Events(batch)[..k], calls.clears.runs), k)
  {
    hide Clear, AfterScript, Scripted;
    if k == 0 {
      ScriptedNone(x, c, batch);
    } else {
      ScriptsAlone(x, c, batch, calls, k - 1);
      assert Events(batch)[..k][..k - 1] == Events(batch)[..k - 1];
      ScriptAlone(x, c, batch, ClearAll(x.redis.board, Events(batch)[..k - 1], calls.clears.runs), k - 1,
                  calls.clears.runs(k - 1));
    }
  }

  lemma ScriptedNone(x: System, c: nat, batch: seq<Entry>)
    requires c in x.consumers && x.consumers[c] == Clearing(batch, 0, false)
    ensures Scripted(x, c, batch, (x.redis.board, false), 0) == x
  {
    assert x.consumers[c := Clearing(batch, 0, false)] == x.consumers;
  }

  lemma PipelineAlone(x: System, c: nat, batch: seq<Entry>, calls: Calls, cleared: (Board, bool), k: nat)
    ensures AfterPipeline(Scripted(x, c, batch, cleared, k), c, batch, calls, Alone)
            == x.(redis := x.redis.(board := cleared.0,
                                    stream := if !cleared.1 && calls.clears.answered && calls.ack
                                              then Acknowledge(x.redis.stream, EntryIds(batch)) else x.redis.stream),
                  consumers := x.consumers[c := Idle])
  {
    hide EntryIds, Acknowledge;
    var y := Scripted(x, c, batch, cleared, k);
    assert y.consumers[c := Idle] == x.consumers[c := Idle];
    assert y.consumers[c := Acking(batch)][c := Idle] == x.consumers[c := Idle];
  }

  /** What the code leaves when its transaction commits. */
  lemma ProcessedSaved(rd: Redis, db: MySql, batch: seq<Entry>, calls: Calls)
    requires WellFormed(batch) == batch != [] && forall e :: e in batch ==> ValidResult(e.event)
    requires SaveBatch(db, Events(batch), calls.ids).Ok?
    ensures var db' := SaveBatch(db, Events(batch), calls.ids).value;
            var cleared := ClearAll(rd.board, Events(batch), calls.clears.runs);
            Processed(rd, db, batch, calls)
            == if calls.save == Down then (rd, db)
               else if calls.save == Lost then (rd, db')
               else (rd.(board := cleared.0,
                         stream := if !cleared.1 && calls.clears.answered && calls.ack
                                   then Acknowledge(rd.stream, EntryIds(batch)) else rd.stream), db')
  {
    NothingDiscarded(rd.stream, batch, calls.discard);
    hide WellFormed, ValidResult, SaveBatch, Discarded, Isolated, Acknowledge, EntryIds, ClearAll;
    assert rd.(board := rd.board, stream := rd.stream) == rd;
  }

  lemma SavedAlone(x: System, c: nat, batch: seq<Entry>, calls: Calls)
    requires c in x.consumers && x.consumers[c] == Clearing(batch, 0, false)
    ensures var cleared := ClearAll(x.redis.board, Events(batch), calls.clears.runs);
            AfterPipeline(AfterScripts(x, c, batch, calls, Alone, |batch|), c, batch, calls, Alone)
            == x.(redis := x.redis.(board := cleared.0,
                                    stream := if !cleared.1 && calls.clears.answered && calls.ack
                                              then Acknowledge(x.redis.stream, EntryIds(batch)) else x.redis.stream),
                  consumers := x.consumers[c := Idle])
  {
    hide AfterScripts, AfterPipeline, ClearAll, Scripted, Acknowledge, EntryIds;
    ScriptsAlone(x, c, batch, calls, |batch|);
    assert Events(batch)[..|batch|] == Events(batch);
    PipelineAlone(x, c, batch, calls, ClearAll(x.redis.board, Events(batch), calls.clears.runs), |batch|);
  }

  lemma UnansweredAlone(s: System, c: nat, batch: seq<Entry>, calls: Calls)
    requires batch != [] && SaveBatch(s.db, Events(batch), calls.ids).Ok? && calls.save != Answered
    ensures BatchWith(s, c, batch, calls, Alone)
            == s.(db := if calls.save == Down then s.db else SaveBatch(s.db, Events(batch), calls.ids).value,
                  consumers := s.consumers[c := Idle])
  {
    hide SaveBatch, Events, AfterScripts, AfterPipeline;
    assert SetConsumer(s, c, Holding(batch)).consumers[c := Idle] == s.consumers[c := Idle];
  }

  lemma AnsweredAlone(s: System, c: nat, batch: seq<Entry>, calls: Calls)
    requires batch != [] && SaveBatch(s.db, Events(batch), calls.ids).Ok? && calls.save == Answered
    ensures var cleared := ClearAll(s.redis.board, Events(batch), calls.clears.runs);
            BatchWith(s, c, batch, calls, Alone)
            == s.(redis := s.redis.(board := cleared.0,
                                    stream := if !cleared.1 && calls.clears.answered && calls.ack
                                              then Acknowledge(s.redis.stream, EntryIds(batch)) else s.redis.stream),
                  db := SaveBatch(s.db, Events(batch), calls.ids).value,
                  consumers := s.consumers[c := Idle])
  {
    hide SaveBatch, Events, Acknowledge, EntryIds, ClearAll, AfterScripts, AfterPipeline;
    var saved := SetConsumer(s.(db := SaveBatch(s.db, Events(batch), calls.ids).value), c, Clearing(batch, 0, false));
    assert SetConsumer(s, c, Holding(batch)).consumers[c := Clearing(batch, 0, false)] == saved.consumers;
    assert saved.consumers[c := Idle] == s.consumers[c := Idle];
    SavedAlone(saved, c, batch, calls);
  }

  /** With nobody in between, the calls do to both stores what the code of the consumer does. */
  lemma BatchAlone(s: System, c: nat, batch: seq<Entry>, calls: Calls)
    requires WellFormed(batch) == batch != [] && forall e :: e in batch ==> ValidResult(e.event)
    requires SaveBatch(s.db, Events(batch), calls.ids).Ok?
    ensures BatchWith(s, c, batch, calls, Alone) == AfterBatch(s, c, batch, calls)
  {
    hide WellFormed, ValidResult, SaveBatch, Processed, Acknowledge, EntryIds, ClearAll, BatchWith, Events;
    ProcessedSaved(s.redis, s.db, batch, calls);
    if calls.save == Answered {
      AnsweredAlone(s, c, batch, calls);
    } else {
      UnansweredAlone(s, c, batch, calls);
    }
  }
}
