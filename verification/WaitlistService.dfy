/**
  Promoting a batch of claimed waitlist entries: each goes through the selection path under its own
  promotion request and is then marked, returned or cancelled. The batch takes steps of the waitlist protocol.
 */
module WaitlistService {
  import opened Types
  import opened Ledger
  import opened RedisScripts
  import opened RedisStore
  import opened Admission
  import opened Waitlist
  import opened WaitlistStore
  import opened SelectionTheorems
  import Core = SelectionSystem
  import Path = SelectionService

  /** One entry's selection with its generated application id and times, and the update of its row. */
  datatype PromoteCalls = PromoteCalls(select: Call, app: AppId, admitAt: int, completeAt: int, mark: Call, markAt: int)

  datatype Selecting = Selecting(redis: Redis, committed: Option<Selection>, receipt: Result<Path.Receipt, Error>)

  /** SelectCourse as the promoter sees it: an unanswered call is an error, whether it ran or not. */
  function SelectFor(rd: Redis, c: Claim, calls: PromoteCalls): Selecting {
    if calls.select == Down then Selecting(rd, None, Err(Infrastructure))
    else
      var a := Path.SelectCourse(rd, IntentFor(c), calls.app, calls.admitAt, calls.completeAt);
      Selecting(a.redis, a.committed, if calls.select == Answered then a.receipt else Err(Infrastructure))
  }

  /** Only a full class or another request in progress sends the entry back to the queue. */
  predicate Retries(e: Error) {
    e == ClassFull || e == InProgress
  }

  datatype Marked = Marked(rows: Rows, stopped: bool)

  /** The update that follows; one that fails stops the batch. */
  function MarkEntry(rows: Rows, c: Claim, receipt: Result<Path.Receipt, Error>, calls: PromoteCalls): Marked {
    if calls.mark == Down then Marked(rows, true)
    else
      var updated :=
        if receipt.Ok? then MarkPromoted(rows, c.id, calls.markAt)
        else if Retries(receipt.error) then Ok(ReturnToQueue(rows, c.id, calls.markAt))
        else Cancel(rows, c.id, c.row.student, calls.markAt);
      match updated
      case Err(_) => Marked(rows, true)
      case Ok(rows') => Marked(rows', calls.mark == Lost)
  }

  datatype Promotion = Promotion(redis: Redis, added: seq<Selection>, rows: Rows, stopped: bool)

  function PromoteEntry(rd: Redis, rows: Rows, c: Claim, calls: PromoteCalls): Promotion {
    var s := SelectFor(rd, c, calls);
    var m := MarkEntry(rows, c, s.receipt, calls);
    Promotion(s.redis, if s.committed.Some? then [s.committed.value] else [], m.rows, m.stopped)
  }

  /** The entries in order, until one stops the batch. */
  function PromoteEach(rd: Redis, rows: Rows, claims: seq<Claim>, calls: nat -> PromoteCalls): Promotion {
    if claims == [] then Promotion(rd, [], rows, false)
    else
      var n := |claims| - 1;
      var before := PromoteEach(rd, rows, claims[..n], calls);
      if before.stopped then before
      else
        var last := PromoteEntry(before.redis, before.rows, claims[n], calls(n));
        last.(added := before.added + last.added)
  }

  // --- Entries of rounds that are over ---------------------------------------------------------

  datatype ExpireCalls = ExpireCalls(mark: Call, markAt: int)

  function ExpireEntry(rows: Rows, c: Claim, calls: ExpireCalls): Marked {
    if calls.mark == Down then Marked(rows, true)
    else
      match Cancel(rows, c.id, c.row.student, calls.markAt)
      case Err(_) => Marked(rows, true)
      case Ok(rows') => Marked(rows', calls.mark == Lost)
  }

  /** Each is cancelled in turn, until an update fails. */
  function ExpireEach(rows: Rows, claims: seq<Claim>, calls: nat -> ExpireCalls): Marked {
    if claims == [] then Marked(rows, false)
    else
      var n := |claims| - 1;
      var before := ExpireEach(rows, claims[..n], calls);
      if before.stopped then before else ExpireEntry(before.rows, claims[n], calls(n))
  }

  class Promoter {
    const store: Store
    const table: Table

    constructor (store: Store, table: Table)
      ensures this.store == store && this.table == table
    {
      this.store, this.table := store, table;
    }

    method Select(c: Claim, calls: PromoteCalls) returns (receipt: Result<Path.Receipt, Error>)
      modifies store
      ensures var s := SelectFor(old(store.Value()), c, calls); store.Value() == s.redis && receipt == s.receipt
    {
      hide Path.SelectCourse;
      if calls.select == Down {
        return Err(Infrastructure);
      }
      receipt := Path.Select(store, IntentFor(c), calls.app, calls.admitAt, calls.completeAt);
      if calls.select != Answered {
        receipt := Err(Infrastructure);
      }
    }

    method Mark(c: Claim, receipt: Result<Path.Receipt, Error>, calls: PromoteCalls) returns (stopped: bool)
      modifies table
      ensures MarkEntry(old(table.rows), c, receipt, calls) == Marked(table.rows, stopped)
    {
      hide Waitlist.MarkPromoted, Waitlist.Cancel, Waitlist.ReturnToQueue;
      if calls.mark == Down {
        return true;
      }
      var error := None;
      if receipt.Ok? {
        error := table.MarkPromoted(c.id, calls.markAt);
      } else if Retries(receipt.error) {
        table.ReturnToQueue(c.id, calls.markAt);
      } else {
        error := table.CancelWaitlist(c.id, c.row.student, calls.markAt);
      }
      return error.Some? || calls.mark == Lost;
    }

    /** The first half of PromoteBatch, after its claims were taken. */
    method ExpireClaimed(claims: seq<Claim>, calls: nat -> ExpireCalls) returns (stopped: bool)
      modifies table
      ensures ExpireEach(old(table.rows), claims, calls) == Marked(table.rows, stopped)
    {
      hide Waitlist.Cancel;
      stopped := false;
      for i := 0 to |claims|
        invariant ExpireEach(old(table.rows), claims[..i], calls) == Marked(table.rows, stopped)
      {
        assert claims[..i + 1][..i] == claims[..i];
        if stopped || calls(i).mark == Down {
          stopped := true;
        } else {
          var error := table.CancelWaitlist(claims[i].id, claims[i].row.student, calls(i).markAt);
          stopped := error.Some? || calls(i).mark == Lost;
        }
      }
      assert claims[..|claims|] == claims;
    }

    /** The second half of PromoteBatch, after its claims were taken. */
    method PromoteClaimed(claims: seq<Claim>, calls: nat -> PromoteCalls) returns (stopped: bool)
      modifies store, table
      ensures var p := PromoteEach(old(store.Value()), old(table.rows), claims, calls);
              store.Value() == p.redis && table.rows == p.rows && stopped == p.stopped
    {
      hide SelectFor, MarkEntry;
      stopped := false;
      for i := 0 to |claims|
        invariant var p := PromoteEach(old(store.Value()), old(table.rows), claims[..i], calls);
                  store.Value() == p.redis && table.rows == p.rows && stopped == p.stopped
      {
        assert claims[..i + 1][..i] == claims[..i];
        if !stopped {
          var receipt := Select(claims[i], calls(i));
          stopped := Mark(claims[i], receipt, calls(i));
        }
      }
      assert claims[..|claims|] == claims;
    }
  }

  // --- A batch, call by call -------------------------------------------------------------------

  /** A set of reachable worlds that no step leaves. */
  ghost predicate Closed(states: World -> bool) {
    && (forall x :: states(x) ==> Reachable(x))
    && (forall x, a :: states(x) && Enabled(x, a) ==> states(Apply(x, a)))
  }

  lemma StepIn(states: World -> bool, x: World, a: Action)
    requires Closed(states) && states(x) && Enabled(x, a)
    ensures states(Apply(x, a))
  {
  }

  lemma ReachableClosed()
    ensures Closed(Reachable)
  {
    hide Reachable, Enabled, Apply;
    forall x, a | Reachable(x) && Enabled(x, a) ensures Reachable(Apply(x, a)) {
      WorldReachableStep(x, a);
    }
  }

  lemma WorldReachableStep(s: World, a: Action)
    requires Reachable(s) && Enabled(s, a)
    ensures Reachable(Apply(s, a))
  {
    hide Init, Enabled, Apply;
    var run :| IsRun(run) && run[|run| - 1] == s;
    var longer := run + [Apply(s, a)];
    assert Next(s, Apply(s, a));
    forall i | 0 <= i < |longer| - 1 ensures Next(longer[i], longer[i + 1]) {
      assert i + 1 < |run| ==> Next(run[i], run[i + 1]);
    }
    assert IsRun(longer);
  }

  /** What happens between the calls of one promoter. */
  type Between = (nat, World) -> World

  /** From the `n`-th entry on, every application id is new, and no warmup enrollment used the promotion request. */
  ghost predicate FreshFrom(core: Core.System, claims: seq<Claim>, calls: nat -> PromoteCalls, n: nat) {
    forall i :: n <= i < |claims| ==> calls(i).app !in Apps(core.log) && Path.NotWarm(core, IntentFor(claims[i]))
  }

  ghost predicate DistinctApps(claims: seq<Claim>, calls: nat -> PromoteCalls) {
    forall i, j :: 0 <= i < j < |claims| ==> calls(i).app != calls(j).app
  }

  /** Other workers leave the promoter's stage alone and do not use its new application ids. */
  ghost predicate SparesPromoter(
    states: World -> bool, between: Between, p: nat, claims: seq<Claim>, calls: nat -> PromoteCalls)
  {
    forall k: nat, x :: states(x) ==>
      && states(between(k, x)) && Stage(between(k, x).promoters, p) == Stage(x.promoters, p)
      && forall n: nat :: FreshFrom(x.core, claims, calls, n) ==> FreshFrom(between(k, x).core, claims, calls, n)
  }

  /** The world with a changed Redis, and a longer log if something was committed. */
  ghost function With(s: World, rd: Redis, added: seq<Selection>): World {
    s.(core := s.core.(redis := rd, log := s.core.log + added))
  }

  /** The committed result of an answer, as an extension of the log. */
  ghost function Added(a: Path.Answer): seq<Selection> {
    if a.committed.Some? then [a.committed.value] else []
  }

  function StageAfter(c: Claim, receipt: Result<Path.Receipt, Error>, queue: seq<Claim>): Waitlist.Promoter {
    if receipt.Ok? then Succeeded(c, queue) else Refused(c, Retries(receipt.error), queue)
  }

  /** The world when an entry's selection has answered. */
  datatype Attempt = Attempt(state: World, receipt: Result<Path.Receipt, Error>)

  ghost function Answering(
    x: World, p: nat, c: Claim, queue: seq<Claim>, receipt: Result<Path.Receipt, Error>): Attempt
  {
    Attempt(Go(x, p, StageAfter(c, receipt, queue)), receipt)
  }

  ghost function ScriptWith(z: World, p: nat, c: Claim, queue: seq<Claim>, r: Selection, version: string): Attempt {
    var a := Path.ScriptResult(z.core.redis, r, version);
    Answering(With(z, a.redis, Added(a)), p, c, queue, a.receipt)
  }

  /** The version and the script. */
  ghost function CommitWith(
    y: World, p: nat, c: Claim, queue: seq<Claim>, r: Selection, between: Between, n: nat): Attempt
  {
    if !ValidResult(r) then Answering(y, p, c, queue, Err(InvalidParams))
    else
      match Version(y.core.redis, r.round)
      case None => Answering(y, p, c, queue, Err(RoundNotOpen))
      case Some(v) => ScriptWith(between(5 * n + 3, y), p, c, queue, r, v)
  }

  /** The early check of a new application, and its commit. */
  ghost function AdmitWith(
    x: World, p: nat, c: Claim, queue: seq<Claim>, calls: PromoteCalls, between: Between, n: nat): Attempt
  {
    match Path.Prepare(x.core.redis, IntentFor(c), calls.app, calls.admitAt, calls.completeAt)
    case Err(e) => Answering(x, p, c, queue, Err(e))
    case Ok(r) => CommitWith(between(5 * n + 2, Go(x, p, Committing(c, r, queue))), p, c, queue, r, between, n)
  }

  /** SelectCourse for an entry, from its look-up on. */
  ghost function LookUpWith(
    s: World, p: nat, c: Claim, queue: seq<Claim>, calls: PromoteCalls, between: Between, n: nat): Attempt
  {
    match Path.Recorded(s.core.redis, IntentFor(c), calls.completeAt)
    case Some(receipt) => Answering(s, p, c, queue, receipt)
    case None => AdmitWith(between(5 * n + 1, Go(s, p, Admitting(c, queue))), p, c, queue, calls, between, n)
  }

  /** The selection as the promoter sees it. */
  ghost function SelectWith(
    s: World, p: nat, c: Claim, queue: seq<Claim>, calls: PromoteCalls, between: Between, n: nat): Attempt
  {
    if calls.select == Down then Answering(s, p, c, queue, Err(Infrastructure))
    else
      var a := LookUpWith(s, p, c, queue, calls, between, n);
      if calls.select == Lost then Answering(a.state, p, c, queue, Err(Infrastructure)) else a
  }

  /** The world after the row update. */
  ghost function AfterMark(s: World, p: nat, m: Marked, queue: seq<Claim>): World {
    Go(s.(rows := m.rows), p, if m.stopped then Free else Taking(queue))
  }

  datatype Trying = Trying(state: World, stopped: bool)

  /** One entry, with other workers before each of its calls. */
  ghost function EntryWith(
    s: World, p: nat, c: Claim, queue: seq<Claim>, calls: PromoteCalls, between: Between, n: nat): Trying
  {
    var a := SelectWith(between(5 * n, s), p, c, queue, calls, between, n);
    var w := between(5 * n + 4, a.state);
    var m := MarkEntry(w.rows, c, a.receipt, calls);
    Trying(AfterMark(w, p, m, queue), m.stopped)
  }

  ghost function BatchWith(
    s: World, p: nat, claims: seq<Claim>, calls: nat -> PromoteCalls, between: Between, k: nat): Trying
    requires k <= |claims|
  {
    if k == 0 then Trying(s, false)
    else
      var before := BatchWith(s, p, claims, calls, between, k - 1);
      if before.stopped then before
      else EntryWith(before.state, p, claims[k - 1], claims[k..], calls(k - 1), between, k - 1)
  }

  lemma GoGo(s: World, p: nat, g: Waitlist.Promoter, h: Waitlist.Promoter)
    ensures Go(Go(s, p, g), p, h) == Go(s, p, h)
    ensures Stage(s.promoters, p) == g && p in s.promoters ==> Go(s, p, g) == s
  {
    assert s.promoters[p := g][p := h] == s.promoters[p := h];
  }

  /** Whatever the stage, an error that the promoter did not expect ends in a cancellation. */
  lemma DisturbIn(states: World -> bool, x: World, p: nat, c: Claim, queue: seq<Claim>)
    requires Closed(states) && states(x)
    requires var from := Stage(x.promoters, p);
             || (from.Taking? && from.queue == [c] + queue)
             || ((from.Admitting? || from.Committing? || from.Succeeded? || from.Refused?) && from.claim == c
                 && from.queue == queue)
    ensures states(Go(x, p, Refused(c, false, queue)))
  {
    hide Closed;
    var from := Stage(x.promoters, p);
    if from.Taking? {
      assert from.queue[0] == c && from.queue[1..] == queue;
    }
    StepIn(states, x, Disturb(p));
  }

  lemma LookUpIn(states: World -> bool, s: World, p: nat, c: Claim, queue: seq<Claim>, completedAt: int)
    requires Closed(states) && states(s) && Stage(s.promoters, p) == Taking([c] + queue)
    ensures match Path.Recorded(s.core.redis, IntentFor(c), completedAt)
            case Some(receipt) => states(Go(s, p, StageAfter(c, receipt, queue)))
            case None => states(Go(s, p, Admitting(c, queue)))
  {
    hide Closed, NewIntent, ValidResult;
    assert ([c] + queue)[0] == c && ([c] + queue)[1..] == queue;
    StepIn(states, s, LookUp(p));
    DisturbIn(states, s, p, c, queue);
  }

  lemma AdmitIn(states: World -> bool, x: World, p: nat, c: Claim, queue: seq<Claim>, calls: PromoteCalls)
    requires Closed(states) && states(x) && Stage(x.promoters, p) == Admitting(c, queue)
    ensures match Path.Prepare(x.core.redis, IntentFor(c), calls.app, calls.admitAt, calls.completeAt)
            case Err(e) => states(Go(x, p, Refused(c, Retries(e), queue)))
            case Ok(r) => states(Go(x, p, Committing(c, r, queue)))
  {
    hide Closed, AdmitSelection;
    var rd, i := x.core.redis, IntentFor(c);
    StepIn(states, x, Admit(p, calls.app, calls.admitAt, calls.completeAt));
    DisturbIn(states, x, p, c, queue);
    var prepared := Path.Prepare(rd, i, calls.app, calls.admitAt, calls.completeAt);
    if prepared.Ok? {
      Path.PreparedResult(rd, i, calls.app, calls.admitAt, calls.completeAt);
    } else if AdmitSelection(rd, i, calls.admitAt).Ok? {
      Path.UnpreparedResult(rd, i, calls.app, calls.admitAt, calls.completeAt);
    }
  }

  lemma ScriptIn(states: World -> bool, z: World, p: nat, c: Claim, queue: seq<Claim>, r: Selection, version: string)
    requires Closed(states) && states(z) && Stage(z.promoters, p) == Committing(c, r, queue)
    requires ValidResult(r) && r.state == Selected && Core.FreshRequest(z.core, r)
    ensures states(ScriptWith(z, p, c, queue, r, version).state)
  {
    hide Closed, Refusal, Core.FreshRequest, Take, Publish, Blank, ValidResult;
    assert z.core.log + [] == z.core.log;
    var a := Path.ScriptResult(z.core.redis, r, version);
    StepIn(states, z, CommitPromotion(p, version, r.completedAt));
    var y := Apply(z, CommitPromotion(p, version, r.completedAt));
    var w := With(z, a.redis, Added(a));
    GoGo(w, p, Succeeded(c, queue), Refused(c, false, queue));
    if y == Go(w, p, Succeeded(c, queue)) {
      DisturbIn(states, y, p, c, queue);
    }
  }

  lemma WarmBound(states: World -> bool, x: World)
    requires Closed(states) && states(x)
    ensures x.core.warm <= |x.core.log|
  {
    hide Reachable, Inv;
    WorldReachableKeeps(x);
    CoreInv(x);
    FlowParts(x.core);
  }

  /** The script adds no more than the entry's own application. */
  lemma StillFresh(
    core: Core.System, rd: Redis, added: seq<Selection>, claims: seq<Claim>, calls: nat -> PromoteCalls, n: nat)
    requires n < |claims| && FreshFrom(core, claims, calls, n) && DistinctApps(claims, calls) && core.warm <= |core.log|
    requires added == [] || (|added| == 1 && added[0].app == calls(n).app)
    ensures FreshFrom(core.(redis := rd, log := core.log + added), claims, calls, n + 1)
  {
    var core' := core.(redis := rd, log := core.log + added);
    forall i | n + 1 <= i < |claims|
      ensures calls(i).app !in Apps(core'.log) && Path.NotWarm(core', IntentFor(claims[i]))
    {
      assert calls(i).app !in Apps(core.log) && Path.NotWarm(core, IntentFor(claims[i]));
    }
  }

  lemma ScriptFresh(
    states: World -> bool, z: World, p: nat, claims: seq<Claim>, calls: nat -> PromoteCalls, n: nat, r: Selection,
    version: string)
    requires Closed(states) && states(z) && n < |claims| && FreshFrom(z.core, claims, calls, n)
    requires DistinctApps(claims, calls)
    requires r.app == calls(n).app
    ensures FreshFrom(ScriptWith(z, p, claims[n], claims[n + 1..], r, version).state.core, claims, calls, n + 1)
  {
    WarmBound(states, z);
    hide Closed, FreshFrom, DistinctApps, Commit, Version;
    var a := Path.ScriptResult(z.core.redis, r, version);
    StillFresh(z.core, a.redis, Added(a), claims, calls, n);
  }

  /** Where a promoter stands after its `n`-th entry has been answered. */
  ghost predicate AnsweredOk(
    states: World -> bool, a: Attempt, p: nat, claims: seq<Claim>, calls: nat -> PromoteCalls, n: nat)
    requires n < |claims|
  {
    && states(a.state) && Stage(a.state.promoters, p) == StageAfter(claims[n], a.receipt, claims[n + 1..])
    && FreshFrom(a.state.core, claims, calls, n + 1)
  }

  lemma AnsweringOk(
    states: World -> bool, x: World, p: nat, claims: seq<Claim>, calls: nat -> PromoteCalls, n: nat,
    receipt: Result<Path.Receipt, Error>)
    requires n < |claims| && FreshFrom(x.core, claims, calls, n)
    requires states(Go(x, p, StageAfter(claims[n], receipt, claims[n + 1..])))
    ensures AnsweredOk(states, Answering(x, p, claims[n], claims[n + 1..], receipt), p, claims, calls, n)
  {
  }

  lemma CommitIn(
    states: World -> bool, y: World, p: nat, claims: seq<Claim>, calls: nat -> PromoteCalls, between: Between, n: nat,
    r: Selection)
    requires Closed(states) && SparesPromoter(states, between, p, claims, calls) && states(y) && n < |claims|
    requires Stage(y.promoters, p) == Committing(claims[n], r, claims[n + 1..])
    requires FreshFrom(y.core, claims, calls, n) && DistinctApps(claims, calls)
    requires r.app == calls(n).app && r.state == Selected
    requires r.student == IntentFor(claims[n]).student && r.request == IntentFor(claims[n]).request
    ensures AnsweredOk(states, CommitWith(y, p, claims[n], claims[n + 1..], r, between, n), p, claims, calls, n)
  {
    hide Closed, DistinctApps, ValidResult, Version, SparesPromoter, FreshFrom, AnsweredOk, ScriptWith, Answering,
         Core.FreshRequest;
    var c, queue := claims[n], claims[n + 1..];
    DisturbIn(states, y, p, c, queue);
    var version := Version(y.core.redis, r.round);
    if ValidResult(r) && version.Some? {
      var z := between(5 * n + 3, y);
      Spared(states, between, p, claims, calls, 5 * n + 3, y, n);
      FreshEntry(z.core, claims, calls, n, r);
      ScriptIn(states, z, p, c, queue, r, version.value);
      ScriptFresh(states, z, p, claims, calls, n, r, version.value);
      ScriptAnswered(states, z, p, claims, calls, n, r, version.value);
    } else {
      AnsweringOk(states, y, p, claims, calls, n, Err(if ValidResult(r) then RoundNotOpen else InvalidParams));
    }
  }

  lemma ScriptAnswered(
    states: World -> bool, z: World, p: nat, claims: seq<Claim>, calls: nat -> PromoteCalls, n: nat, r: Selection,
    version: string)
    requires n < |claims|
    requires var a := ScriptWith(z, p, claims[n], claims[n + 1..], r, version);
             states(a.state) && FreshFrom(a.state.core, claims, calls, n + 1)
    ensures AnsweredOk(states, ScriptWith(z, p, claims[n], claims[n + 1..], r, version), p, claims, calls, n)
  {
    hide FreshFrom, Path.ScriptResult;
  }

  /** What happened in between left the promoter and its new ids alone. */
  lemma Spared(
    states: World -> bool, between: Between, p: nat, claims: seq<Claim>, calls: nat -> PromoteCalls, k: nat, x: World,
    n: nat)
    requires SparesPromoter(states, between, p, claims, calls) && states(x) && FreshFrom(x.core, claims, calls, n)
    ensures states(between(k, x)) && Stage(between(k, x).promoters, p) == Stage(x.promoters, p)
    ensures FreshFrom(between(k, x).core, claims, calls, n)
  {
  }

  lemma FreshEntry(core: Core.System, claims: seq<Claim>, calls: nat -> PromoteCalls, n: nat, r: Selection)
    requires n < |claims| && FreshFrom(core, claims, calls, n) && r.app == calls(n).app
    requires r.student == IntentFor(claims[n]).student && r.request == IntentFor(claims[n]).request
    ensures Core.FreshRequest(core, r)
  {
    assert Path.NotWarm(core, IntentFor(claims[n]));
  }

  lemma AdmitAndCommitIn(
    states: World -> bool, x: World, p: nat, claims: seq<Claim>, calls: nat -> PromoteCalls, between: Between, n: nat)
    requires Closed(states) && SparesPromoter(states, between, p, claims, calls) && states(x) && n < |claims|
    requires Stage(x.promoters, p) == Admitting(claims[n], claims[n + 1..])
    requires FreshFrom(x.core, claims, calls, n) && DistinctApps(claims, calls)
    ensures AnsweredOk(states, AdmitWith(x, p, claims[n], claims[n + 1..], calls(n), between, n), p, claims, calls, n)
  {
    var c, queue, own := claims[n], claims[n + 1..], calls(n);
    hide Closed, FreshFrom, DistinctApps, Path.Prepare, CommitWith, AnsweredOk;
    AdmitIn(states, x, p, c, queue, own);
    var prepared := Path.Prepare(x.core.redis, IntentFor(c), own.app, own.admitAt, own.completeAt);
    if prepared.Ok? {
      Path.PreparedResult(x.core.redis, IntentFor(c), own.app, own.admitAt, own.completeAt);
      var y := Go(x, p, Committing(c, prepared.value, queue));
      CommitIn(states, between(5 * n + 2, y), p, claims, calls, between, n, prepared.value);
    } else {
      AnsweringOk(states, x, p, claims, calls, n, Err(prepared.error));
    }
  }

  lemma LookUpOk(
    states: World -> bool, s: World, p: nat, claims: seq<Claim>, calls: nat -> PromoteCalls, between: Between, n: nat)
    requires Closed(states) && SparesPromoter(states, between, p, claims, calls) && states(s) && n < |claims|
    requires Stage(s.promoters, p) == Taking(claims[n..])
    requires FreshFrom(s.core, claims, calls, n) && DistinctApps(claims, calls)
    ensures AnsweredOk(states, LookUpWith(s, p, claims[n], claims[n + 1..], calls(n), between, n), p, claims, calls, n)
  {
    hide Closed, FreshFrom, DistinctApps, Path.Recorded, AdmitWith, AnsweredOk, SparesPromoter, Go, Stage, Answering;
    var c, queue, own := claims[n], claims[n + 1..], calls(n);
    assert claims[n..] == [c] + queue;
    LookUpIn(states, s, p, c, queue, own.completeAt);
    var recorded := Path.Recorded(s.core.redis, IntentFor(c), own.completeAt);
    if recorded.Some? {
      AnsweringOk(states, s, p, claims, calls, n, recorded.value);
    } else {
      NewOk(states, s, p, claims, calls, between, n);
    }
  }

  lemma NewOk(
    states: World -> bool, s: World, p: nat, claims: seq<Claim>, calls: nat -> PromoteCalls, between: Between, n: nat)
    requires Closed(states) && SparesPromoter(states, between, p, claims, calls) && n < |claims|
    requires states(Go(s, p, Admitting(claims[n], claims[n + 1..])))
    requires FreshFrom(s.core, claims, calls, n) && DistinctApps(claims, calls)
    ensures var x := between(5 * n + 1, Go(s, p, Admitting(claims[n], claims[n + 1..])));
            AnsweredOk(states, AdmitWith(x, p, claims[n], claims[n + 1..], calls(n), between, n), p, claims, calls, n)
  {
    hide Closed, FreshFrom, DistinctApps, AdmitWith, AnsweredOk, SparesPromoter;
    var x := Go(s, p, Admitting(claims[n], claims[n + 1..]));
    Spared(states, between, p, claims, calls, 5 * n + 1, x, n);
    AdmitAndCommitIn(states, between(5 * n + 1, x), p, claims, calls, between, n);
  }

  /** An error in place of an answer ends in a cancellation, whatever the call had done. */
  lemma ErrorOk(
    states: World -> bool, x: World, p: nat, claims: seq<Claim>, calls: nat -> PromoteCalls, n: nat,
    receipt: Result<Path.Receipt, Error>)
    requires Closed(states) && states(x) && n < |claims| && FreshFrom(x.core, claims, calls, n + 1)
    requires Stage(x.promoters, p) == Taking(claims[n..])
          || Stage(x.promoters, p) == StageAfter(claims[n], receipt, claims[n + 1..])
    ensures AnsweredOk(states, Answering(x, p, claims[n], claims[n + 1..], Err(Infrastructure)), p, claims, calls, n)
  {
    hide Closed, FreshFrom;
    assert claims[n..] == [claims[n]] + claims[n + 1..];
    DisturbIn(states, x, p, claims[n], claims[n + 1..]);
  }

  lemma FreshLater(core: Core.System, claims: seq<Claim>, calls: nat -> PromoteCalls, n: nat)
    requires FreshFrom(core, claims, calls, n)
    ensures FreshFrom(core, claims, calls, n + 1)
  {
  }

  lemma SelectIn(
    states: World -> bool, s: World, p: nat, claims: seq<Claim>, calls: nat -> PromoteCalls, between: Between, n: nat)
    requires Closed(states) && SparesPromoter(states, between, p, claims, calls) && states(s) && n < |claims|
    requires Stage(s.promoters, p) == Taking(claims[n..])
    requires FreshFrom(s.core, claims, calls, n) && DistinctApps(claims, calls)
    ensures AnsweredOk(states, SelectWith(s, p, claims[n], claims[n + 1..], calls(n), between, n), p, claims, calls, n)
  {
    hide Closed, FreshFrom, DistinctApps, SparesPromoter, LookUpWith, Answering, StageAfter, Stage;
    FreshLater(s.core, claims, calls, n);
    LookUpOk(states, s, p, claims, calls, between, n);
    var a := LookUpWith(s, p, claims[n], claims[n + 1..], calls(n), between, n);
    ErrorOk(states, if calls(n).select == Down then s else a.state, p, claims, calls, n, a.receipt);
  }

  lemma StopIn(states: World -> bool, x: World, p: nat)
    requires Closed(states) && states(x)
    ensures states(Go(x, p, Free))
  {
    hide Closed;
    StepIn(states, x, StopPromoter(p));
  }

  lemma MarkIn(
    states: World -> bool, w: World, p: nat, c: Claim, queue: seq<Claim>, receipt: Result<Path.Receipt, Error>,
    calls: PromoteCalls)
    requires Closed(states) && states(w) && Stage(w.promoters, p) == StageAfter(c, receipt, queue)
    ensures states(AfterMark(w, p, MarkEntry(w.rows, c, receipt, calls), queue))
  {
    hide Closed, Waitlist.MarkPromoted, Waitlist.Cancel, Waitlist.ReturnToQueue;
    var m := MarkEntry(w.rows, c, receipt, calls);
    assert w.(rows := w.rows) == w;
    StopIn(states, w, p);
    if calls.mark != Down {
      var a := if receipt.Ok? then Promote(p, calls.markAt) else GiveUp(p, calls.markAt);
      StepIn(states, w, a);
      var marked := w.(rows := m.rows);
      StopIn(states, Apply(w, a), p);
      GoGo(marked, p, Taking(queue), Free);
    }
  }

  lemma EntryIn(
    states: World -> bool, s: World, p: nat, claims: seq<Claim>, calls: nat -> PromoteCalls, between: Between, n: nat)
    requires Closed(states) && SparesPromoter(states, between, p, claims, calls) && states(s) && n < |claims|
    requires Stage(s.promoters, p) == Taking(claims[n..])
    requires FreshFrom(s.core, claims, calls, n) && DistinctApps(claims, calls)
    ensures var e := EntryWith(s, p, claims[n], claims[n + 1..], calls(n), between, n);
            && states(e.state) && FreshFrom(e.state.core, claims, calls, n + 1)
            && (!e.stopped ==> Stage(e.state.promoters, p) == Taking(claims[n + 1..]))
  {
    var c, queue, own := claims[n], claims[n + 1..], calls(n);
    hide Closed, FreshFrom, DistinctApps, SelectWith, MarkEntry;
    SelectIn(states, between(5 * n, s), p, claims, calls, between, n);
    var a := SelectWith(between(5 * n, s), p, c, queue, own, between, n);
    MarkIn(states, between(5 * n + 4, a.state), p, c, queue, a.receipt, own);
  }

  /**
    Refinement: a promotion batch, with any of its calls failing and with any steps of other workers
    between its calls, ends where steps of the waitlist protocol end. So an entry never takes a second
    seat, however often its batch is repeated.
   */
  lemma {:induction false} BatchRefines(
    states: World -> bool, s: World, p: nat, claims: seq<Claim>, calls: nat -> PromoteCalls, between: Between, k: nat)
    requires Closed(states) && SparesPromoter(states, between, p, claims, calls) && states(s) && k <= |claims|
    requires Stage(s.promoters, p) == Taking(claims) && FreshFrom(s.core, claims, calls, 0)
    requires DistinctApps(claims, calls)
    ensures var b := BatchWith(s, p, claims, calls, between, k);
            && states(b.state)
            && (!b.stopped ==>
                Stage(b.state.promoters, p) == Taking(claims[k..]) && FreshFrom(b.state.core, claims, calls, k))
  {
    hide Closed, FreshFrom, DistinctApps, SparesPromoter, EntryWith;
    if k == 0 {
      assert claims[0..] == claims;
    } else {
      BatchRefines(states, s, p, claims, calls, between, k - 1);
      var before := BatchWith(s, p, claims, calls, between, k - 1);
      if !before.stopped {
        EntryIn(states, before.state, p, claims, calls, between, k - 1);
      }
    }
  }

  // --- Without other workers -------------------------------------------------------------------

  ghost function Alone(k: nat, x: World): World {
    x
  }

  ghost function AfterSelect(s: World, r: Selecting): World {
    With(s, r.redis, if r.committed.Some? then [r.committed.value] else [])
  }

  lemma SelectAlone(s: World, p: nat, c: Claim, queue: seq<Claim>, calls: PromoteCalls, n: nat)
    ensures var r := SelectFor(s.core.redis, c, calls);
            SelectWith(s, p, c, queue, calls, Alone, n) == Answering(AfterSelect(s, r), p, c, queue, r.receipt)
  {
    hide Path.Recorded, Path.Prepare, Path.ScriptResult, Version, ValidResult;
    assert s.core.log + [] == s.core.log && With(s, s.core.redis, []) == s;
    LookUpAlone(s, p, c, queue, calls, n);
  }

  lemma CommitAlone(
    s: World, p: nat, g: Waitlist.Promoter, c: Claim, queue: seq<Claim>, r: Selection, n: nat)
    ensures var a := Path.CommitResult(s.core.redis, r);
            && CommitWith(Go(s, p, g), p, c, queue, r, Alone, n)
               == Answering(With(s, a.redis, Added(a)), p, c, queue, a.receipt)
            && forall h ::
                 Go(CommitWith(Go(s, p, g), p, c, queue, r, Alone, n).state, p, h)
                 == Go(With(s, a.redis, Added(a)), p, h)
  {
    hide Path.ScriptResult, Version, ValidResult;
    assert s.core.log + [] == s.core.log && With(s, s.core.redis, []) == s;
    var a := Path.CommitResult(s.core.redis, r);
    forall h ensures Go(With(Go(s, p, g), a.redis, Added(a)), p, h) == Go(With(s, a.redis, Added(a)), p, h) {
      GoGo(With(s, a.redis, Added(a)), p, g, h);
    }
    forall h, k ensures Go(Go(With(s, a.redis, Added(a)), p, k), p, h) == Go(With(s, a.redis, Added(a)), p, h) {
      GoGo(With(s, a.redis, Added(a)), p, k, h);
    }
  }

  lemma LookUpAlone(s: World, p: nat, c: Claim, queue: seq<Claim>, calls: PromoteCalls, n: nat)
    ensures var a := Path.SelectCourse(s.core.redis, IntentFor(c), calls.app, calls.admitAt, calls.completeAt);
            && LookUpWith(s, p, c, queue, calls, Alone, n)
               == Answering(With(s, a.redis, Added(a)), p, c, queue, a.receipt)
            && forall g ::
                 Go(LookUpWith(s, p, c, queue, calls, Alone, n).state, p, g) == Go(With(s, a.redis, Added(a)), p, g)
  {
    hide Path.Recorded, Path.Prepare, Path.CommitResult, CommitWith;
    assert s.core.log + [] == s.core.log && With(s, s.core.redis, []) == s;
    var prepared := Path.Prepare(s.core.redis, IntentFor(c), calls.app, calls.admitAt, calls.completeAt);
    if prepared.Ok? {
      var x := Go(s, p, Admitting(c, queue));
      GoGo(s, p, Admitting(c, queue), Committing(c, prepared.value, queue));
      CommitAlone(s, p, Committing(c, prepared.value, queue), c, queue, prepared.value, n);
    }
  }

  /** The world after a batch that nobody interrupted. */
  ghost function AfterBatch(s: World, p: nat, b: Promotion, queue: seq<Claim>): World {
    Go(With(s, b.redis, b.added).(rows := b.rows), p, if b.stopped then Free else Taking(queue))
  }

  lemma EntryAlone(s: World, p: nat, c: Claim, queue: seq<Claim>, calls: PromoteCalls, n: nat)
    ensures var e := PromoteEntry(s.core.redis, s.rows, c, calls);
            EntryWith(s, p, c, queue, calls, Alone, n) == Trying(AfterBatch(s, p, e, queue), e.stopped)
  {
    hide SelectFor, SelectWith, MarkEntry;
    SelectAlone(s, p, c, queue, calls, n);
    var r := SelectFor(s.core.redis, c, calls);
    var m := MarkEntry(s.rows, c, r.receipt, calls);
    GoGo(AfterSelect(s, r).(rows := m.rows), p, StageAfter(c, r.receipt, queue),
         if m.stopped then Free else Taking(queue));
  }

  /** With nobody in between, the calls do to both stores what the code of the promoter does. */
  lemma {:induction false} BatchAlone(s: World, p: nat, claims: seq<Claim>, calls: nat -> PromoteCalls, k: nat)
    requires Stage(s.promoters, p) == Taking(claims) && p in s.promoters && k <= |claims|
    ensures var b := PromoteEach(s.core.redis, s.rows, claims[..k], calls);
            BatchWith(s, p, claims, calls, Alone, k) == Trying(AfterBatch(s, p, b, claims[k..]), b.stopped)
  {
    hide PromoteEntry, EntryWith;
    if k == 0 {
      assert With(s, s.core.redis, []).(rows := s.rows) == s && claims[0..] == claims
             && s.promoters[p := Taking(claims)] == s.promoters;
    } else {
      BatchAlone(s, p, claims, calls, k - 1);
      assert claims[..k][..k - 1] == claims[..k - 1];
      var before := PromoteEach(s.core.redis, s.rows, claims[..k - 1], calls);
      var s' := AfterBatch(s, p, before, claims[k - 1..]);
      EntryAlone(s', p, claims[k - 1], claims[k..], calls(k - 1), k - 1);
      var last := PromoteEntry(before.redis, before.rows, claims[k - 1], calls(k - 1));
      LastOf(s, p, before, last, claims[k - 1..], claims[k..]);
    }
  }

  /** Two parts of a batch make up one. */
  lemma LastOf(s: World, p: nat, before: Promotion, last: Promotion, queue: seq<Claim>, rest: seq<Claim>)
    ensures AfterBatch(AfterBatch(s, p, before, queue), p, last, rest)
            == AfterBatch(s, p, last.(added := before.added + last.added), rest)
  {
    var s' := AfterBatch(s, p, before, queue);
    assert s'.core.log + last.added == s.core.log + (before.added + last.added);
    var g := if last.stopped then Free else Taking(rest);
    assert s'.promoters[p := g] == s.promoters[p := g];
  }

  /** With every call answered, an entry is promoted exactly when its request is selected. */
  lemma PromotedWhenSelected(rd: Redis, rows: Rows, c: Claim, calls: PromoteCalls)
    requires c.id in rows && rows[c.id].state == Promoting && rows[c.id].student == c.row.student
    requires calls.select == Answered && calls.mark == Answered
    ensures var e := PromoteEntry(rd, rows, c, calls);
            var receipt := Path.SelectCourse(rd, IntentFor(c), calls.app, calls.admitAt, calls.completeAt).receipt;
            && !e.stopped && c.id in e.rows
            && (e.rows[c.id].state == Promoted <==> receipt.Ok?)
            && (e.rows[c.id].state == Waiting <==> receipt.Err? && Retries(receipt.error))
            && (forall w :: w in rows && w != c.id ==> w in e.rows && e.rows[w] == rows[w])
  {
    hide Path.SelectCourse;
  }

  // --- An expiry batch, call by call -----------------------------------------------------------

  ghost predicate SparesStage(states: World -> bool, between: Between, p: nat) {
    forall k: nat, x :: states(x) ==>
      states(between(k, x)) && Stage(between(k, x).promoters, p) == Stage(x.promoters, p)
  }

  /** One cancellation. */
  ghost function AfterExpiry(x: World, p: nat, c: Claim, queue: seq<Claim>, calls: ExpireCalls): Trying {
    var m := ExpireEntry(x.rows, c, calls);
    Trying(Go(x.(rows := m.rows), p, if m.stopped then Free else Expiring(queue)), m.stopped)
  }

  ghost function ExpiryWith(
    s: World, p: nat, claims: seq<Claim>, calls: nat -> ExpireCalls, between: Between, k: nat): Trying
    requires k <= |claims|
  {
    if k == 0 then Trying(s, false)
    else
      var before := ExpiryWith(s, p, claims, calls, between, k - 1);
      if before.stopped then before
      else AfterExpiry(between(k - 1, before.state), p, claims[k - 1], claims[k..], calls(k - 1))
  }

  /**
    Refinement: cancelling the claimed entries of rounds that are over takes steps of the waitlist
    protocol, with any update failing and with any steps of other workers between the updates.
   */
  lemma {:induction false} ExpiryRefines(
    states: World -> bool, s: World, p: nat, claims: seq<Claim>, calls: nat -> ExpireCalls, between: Between, k: nat)
    requires Closed(states) && SparesStage(states, between, p) && states(s) && k <= |claims|
    requires Stage(s.promoters, p) == Expiring(claims)
    ensures var e := ExpiryWith(s, p, claims, calls, between, k);
            states(e.state) && (!e.stopped ==> Stage(e.state.promoters, p) == Expiring(claims[k..]))
  {
    hide Closed, AfterExpiry;
    if k == 0 {
      assert claims[0..] == claims;
    } else {
      ExpiryRefines(states, s, p, claims, calls, between, k - 1);
      var before := ExpiryWith(s, p, claims, calls, between, k - 1);
      if !before.stopped {
        assert claims[k - 1..] == [claims[k - 1]] + claims[k..];
        ExpiryIn(states, between(k - 1, before.state), p, claims[k - 1], claims[k..], calls(k - 1));
      }
    }
  }

  lemma ExpiryIn(states: World -> bool, x: World, p: nat, c: Claim, queue: seq<Claim>, calls: ExpireCalls)
    requires Closed(states) && states(x) && Stage(x.promoters, p) == Expiring([c] + queue)
    ensures var e := AfterExpiry(x, p, c, queue, calls);
            states(e.state) && (!e.stopped ==> Stage(e.state.promoters, p) == Expiring(queue))
  {
    hide Closed, Waitlist.Cancel;
    assert ([c] + queue)[0] == c && ([c] + queue)[1..] == queue;
    assert x.(rows := x.rows) == x;
    StopIn(states, x, p);
    if calls.mark != Down {
      var m := ExpireEntry(x.rows, c, calls);
      StepIn(states, x, CancelExpired(p, calls.markAt));
      StopIn(states, Apply(x, CancelExpired(p, calls.markAt)), p);
      GoGo(x.(rows := m.rows), p, Expiring(queue), Free);
    }
  }

  /** With nobody in between, the updates do to the table what the code of the expiry does. */
  lemma {:induction false} ExpiryAlone(s: World, p: nat, claims: seq<Claim>, calls: nat -> ExpireCalls, k: nat)
    requires k <= |claims|
    ensures var e := ExpiryWith(s, p, claims, calls, Alone, k);
            ExpireEach(s.rows, claims[..k], calls) == Marked(e.state.rows, e.stopped)
  {
    hide Waitlist.Cancel;
    if k > 0 {
      ExpiryAlone(s, p, claims, calls, k - 1);
      assert claims[..k][..k - 1] == claims[..k - 1];
    }
  }

  // --- Other workers ---------------------------------------------------------------------------

  /** The steps of one promoter. */
  predicate Promotes(a: Action, p: nat) {
    && (a.ClaimExpired? || a.CancelExpired? || a.ClaimPromotable? || a.LookUp? || a.Admit? || a.CommitPromotion?
        || a.Disturb? || a.Promote? || a.GiveUp? || a.StopPromoter?)
    && a.p == p
  }

  /** A step of another worker, whose applications have ids of their own. */
  ghost predicate Foreign(x: World, a: Action, p: nat, claims: seq<Claim>, calls: nat -> PromoteCalls) {
    && !Promotes(a, p)
    && (a.CoreStep? && a.a.Select? ==> forall i :: 0 <= i < |claims| ==> calls(i).app != a.a.r.app)
    && (a.CommitPromotion? && Stage(x.promoters, a.p).Committing? ==>
          forall i :: 0 <= i < |claims| ==> calls(i).app != Stage(x.promoters, a.p).result.app)
  }

  /** Foreign steps that lead from one world to another. */
  ghost predicate Leads(
    x: World, actions: seq<Action>, y: World, p: nat, claims: seq<Claim>, calls: nat -> PromoteCalls)
  {
    if actions == [] then x == y
    else
      var n := |actions| - 1;
      exists m :: Leads(x, actions[..n], m, p, claims, calls) && Foreign(m, actions[n], p, claims, calls)
                  && Enabled(m, actions[n]) && y == Apply(m, actions[n])
  }

  lemma OthersKeepStage(s: World, a: Action, p: nat)
    requires Enabled(s, a) && !Promotes(a, p)
    ensures Stage(Apply(s, a).promoters, p) == Stage(s.promoters, p)
  {
    hide Core.Apply, Core.Enabled, Commit, Waitlist.MarkPromoted, Waitlist.Cancel, AdmitSelection, Core.SelectStep,
         NewIntent;
  }

  lemma FreshEntryKept(core: Core.System, r: Selection, version: string, now: int, i: Intent, app: AppId)
    requires core.warm <= |core.log| && r.app != app && app !in Apps(core.log) && Path.NotWarm(core, i)
    ensures var core' := Core.SelectStep(core, r, version, now);
            app !in Apps(core'.log) && Path.NotWarm(core', i)
  {
    hide Commit;
  }

  /** Only the selection protocol's own steps and commits of promoters change its state. */
  lemma CoreAfter(s: World, a: Action)
    requires Enabled(s, a)
    ensures Apply(s, a).core
            == match a
               case CoreStep(b) => Core.Apply(s.core, b)
               case CommitPromotion(p, v, now) => Core.SelectStep(s.core, Stage(s.promoters, p).result, v, now)
               case _ => s.core
    ensures a.CommitPromotion? ==> Stage(s.promoters, a.p).Committing?
    ensures a.CoreStep? ==> Core.Enabled(s.core, a.a)
  {
    hide Core.Apply, Core.Enabled, Commit, Waitlist.MarkPromoted, Waitlist.Cancel, AdmitSelection, NewIntent,
         Core.SelectStep, Core.FreshRequest, ValidResult;
  }

  lemma OthersKeepFresh(
    states: World -> bool, s: World, a: Action, p: nat, claims: seq<Claim>, calls: nat -> PromoteCalls, n: nat)
    requires Closed(states) && states(s) && Enabled(s, a) && Foreign(s, a, p, claims, calls)
    requires FreshFrom(s.core, claims, calls, n)
    ensures FreshFrom(Apply(s, a).core, claims, calls, n)
  {
    WarmBound(states, s);
    CoreAfter(s, a);
    hide Closed, Core.Apply, Apply, Core.SelectStep, Path.NotWarm, Apps;
    forall i | n <= i < |claims|
      ensures calls(i).app !in Apps(Apply(s, a).core.log) && Path.NotWarm(Apply(s, a).core, IntentFor(claims[i]))
    {
      if a.CoreStep? {
        Path.OthersKeepFresh(s.core, a.a, IntentFor(claims[i]), calls(i).app);
      } else if a.CommitPromotion? {
        var r := Stage(s.promoters, a.p).result;
        FreshEntryKept(s.core, r, a.expected, a.now, IntentFor(claims[i]), calls(i).app);
      }
    }
  }

  lemma {:induction false} LeadsSparePromoter(
    states: World -> bool, x: World, actions: seq<Action>, y: World, p: nat, claims: seq<Claim>,
    calls: nat -> PromoteCalls, n: nat)
    requires Closed(states) && states(x) && Leads(x, actions, y, p, claims, calls)
    ensures states(y) && Stage(y.promoters, p) == Stage(x.promoters, p)
    ensures FreshFrom(x.core, claims, calls, n) ==> FreshFrom(y.core, claims, calls, n)
  {
    hide Closed, Enabled, Apply, Stage, FreshFrom, Promotes;
    if actions != [] {
      var k := |actions| - 1;
      var m :| Leads(x, actions[..k], m, p, claims, calls) && Foreign(m, actions[k], p, claims, calls)
               && Enabled(m, actions[k]) && y == Apply(m, actions[k]);
      LeadsSparePromoter(states, x, actions[..k], m, p, claims, calls, n);
      StepIn(states, m, actions[k]);
      OthersKeepStage(m, actions[k], p);
      if FreshFrom(m.core, claims, calls, n) {
        OthersKeepFresh(states, m, actions[k], p, claims, calls, n);
      }
    }
  }

  /** Any foreign steps may happen between the calls of a promotion batch, and of an expiry batch. */
  lemma OthersSparePromoter(
    states: World -> bool, between: Between, p: nat, claims: seq<Claim>, calls: nat -> PromoteCalls)
    requires Closed(states)
    requires forall k: nat, x :: states(x) ==> exists actions :: Leads(x, actions, between(k, x), p, claims, calls)
    ensures SparesPromoter(states, between, p, claims, calls) && SparesStage(states, between, p)
  {
    hide Closed, Stage, Leads, FreshFrom;
    forall k: nat, x | states(x)
      ensures states(between(k, x)) && Stage(between(k, x).promoters, p) == Stage(x.promoters, p)
      ensures forall n: nat ::
                FreshFrom(x.core, claims, calls, n) ==> FreshFrom(between(k, x).core, claims, calls, n)
    {
      var actions :| Leads(x, actions, between(k, x), p, claims, calls);
      LeadsSparePromoter(states, x, actions, between(k, x), p, claims, calls, 0);
      forall n: nat | FreshFrom(x.core, claims, calls, n) ensures FreshFrom(between(k, x).core, claims, calls, n) {
        LeadsSparePromoter(states, x, actions, between(k, x), p, claims, calls, n);
      }
    }
  }
}
