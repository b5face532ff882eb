/**
  One selection request, from the idempotent look-up through the early check to the commit script, and
  the application record that carries it.
 */
module SelectionService {
  import opened Types
  import opened Ledger
  import opened RedisScripts
  import opened RedisLedger
  import opened RedisStore
  import opened MySqlTables
  import opened SelectionSystem
  import opened SelectionProofs
  import opened SelectionTheorems
  import opened Admission
  import opened CountProjection
  import opened Refinement

  // --- The application record ------------------------------------------------------------------

  datatype Application = Application(
    app: AppId,
    request: Request,
    state: ApplicationState,
    failure: Option<Failure>,
    appliedAt: int,
    completedAt: Option<int>)

  datatype Event =
    | Reserve
    | CompleteSelected(at: int)
    | CompleteRejected(reason: Failure, at: int)
    | Cancel(reason: Failure, at: int)

  function ResultOf(a: Application, at: int): Selection {
    var q := a.request;
    Selection(a.app, q.request, q.round, q.term, q.student, q.course, q.teachingClass, q.credits, q.source,
              a.state, a.failure, a.appliedAt, at)
  }

  function Finish(
    a: Application, state: ApplicationState, failure: Option<Failure>,
    at: int): (Application, Result<Option<Selection>, Error>)
  {
    var done := a.(state := state, failure := failure, completedAt := Some(at));
    (done, Ok(Some(ResultOf(done, at))))
  }

  function CheckCompletion(a: Application, at: int): Option<Error> {
    if at == ZERO_TIME || at < a.appliedAt then Some(InvalidParams)
    else if a.state == Cancelled then Some(ApplicationCancelled)
    else if a.state != Reserved then Some(InvalidState)
    else None
  }

  /** What an event does to an application, and the result that it yields. */
  function Perform(a: Application, e: Event): (Application, Result<Option<Selection>, Error>) {
    match e
    case Reserve =>
      if a.state == Created then (a.(state := Reserved), Ok(None)) else (a, Err(InvalidState))
    case CompleteSelected(at) =>
      (match CheckCompletion(a, at)
       case Some(error) => (a, Err(error))
       case None => Finish(a, Selected, None, at))
    case CompleteRejected(reason, at) =>
      if !ValidFailure(reason) then (a, Err(InvalidParams))
      else
        (match CheckCompletion(a, at)
         case Some(error) => (a, Err(error))
         case None => Finish(a, Rejected, Some(reason), at))
    case Cancel(reason, at) =>
      if !ValidFailure(reason) || at == ZERO_TIME || at < a.appliedAt then (a, Err(InvalidParams))
      else if a.state == Created || a.state == Reserved then Finish(a, Cancelled, Some(reason), at)
      else (a, Err(if a.state == Cancelled then ApplicationCancelled else InvalidState))
  }

  /** A new application of a valid request. */
  function NewApplication(app: AppId, q: Request, at: int): Result<Application, Error> {
    if Blank(app) || |app| > MAX_APPLICATION_ID || at == ZERO_TIME || !ValidRequest(q) then Err(InvalidParams)
    else Ok(Application(app, q, Created, None, at, None))
  }

  class SelectionApplication {
    const app: AppId
    const request: Request
    const appliedAt: int
    var state: ApplicationState
    var failure: Option<Failure>
    var completedAt: Option<int>

    constructor (a: Application)
      ensures Value() == a
    {
      app, request, appliedAt := a.app, a.request, a.appliedAt;
      state, failure, completedAt := a.state, a.failure, a.completedAt;
    }

    function Value(): Application
      reads this
    {
      Application(app, request, state, failure, appliedAt, completedAt)
    }

    method Reserve() returns (error: Option<Error>)
      modifies this
      ensures Perform(old(Value()), Event.Reserve) == (Value(), if error == None then Ok(None) else Err(error.value))
    {
      if state != Created {
        return Some(InvalidState);
      }
      state := Reserved;
      return None;
    }

    method CheckCompletable(at: int) returns (error: Option<Error>)
      ensures error == CheckCompletion(Value(), at)
    {
      if at == ZERO_TIME || at < appliedAt {
        return Some(InvalidParams);
      }
      if state == Cancelled {
        return Some(ApplicationCancelled);
      }
      return if state != Reserved then Some(InvalidState) else None;
    }

    method CompleteSelected(at: int) returns (answer: Result<Option<Selection>, Error>)
      modifies this
      ensures Perform(old(Value()), Event.CompleteSelected(at)) == (Value(), answer)
    {
      var error := CheckCompletable(at);
      if error.Some? {
        return Err(error.value);
      }
      state, failure, completedAt := Selected, None, Some(at);
      return Ok(Some(ResultOf(Value(), at)));
    }

    method CompleteRejected(reason: Failure, at: int) returns (answer: Result<Option<Selection>, Error>)
      modifies this
      ensures Perform(old(Value()), Event.CompleteRejected(reason, at)) == (Value(), answer)
    {
      if !ValidFailure(reason) {
        return Err(InvalidParams);
      }
      var error := CheckCompletable(at);
      if error.Some? {
        return Err(error.value);
      }
      state, failure, completedAt := Rejected, Some(reason), Some(at);
      return Ok(Some(ResultOf(Value(), at)));
    }

    method Cancel(reason: Failure, at: int) returns (answer: Result<Option<Selection>, Error>)
      modifies this
      ensures Perform(old(Value()), Event.Cancel(reason, at)) == (Value(), answer)
    {
      if !ValidFailure(reason) || at == ZERO_TIME || at < appliedAt {
        return Err(InvalidParams);
      }
      if state == Cancelled {
        return Err(ApplicationCancelled);
      }
      if state != Created && state != Reserved {
        return Err(InvalidState);
      }
      state, failure, completedAt := Cancelled, Some(reason), Some(at);
      return Ok(Some(ResultOf(Value(), at)));
    }
  }

  predicate Terminal(s: ApplicationState) {
    s == Selected || s == Rejected || s == Cancelled
  }

  /** The application after some events. */
  function After(a: Application, events: seq<Event>): Application {
    if events == [] then a else Perform(After(a, events[..|events| - 1]), events[|events| - 1]).0
  }

  /** The results that the events yielded. */
  function Results(a: Application, events: seq<Event>): seq<Selection> {
    if events == [] then []
    else
      var n := |events| - 1;
      var answer := Perform(After(a, events[..n]), events[n]).1;
      Results(a, events[..n]) + if answer.Ok? && answer.value.Some? then [answer.value.value] else []
  }

  /** An application yields at most one result over its life, a valid one, and none before it is completed. */
  lemma {:induction false} AtMostOneResult(app: AppId, q: Request, at: int, events: seq<Event>)
    requires NewApplication(app, q, at).Ok?
    ensures var a := NewApplication(app, q, at).value;
            && |Results(a, events)| == (if Terminal(After(a, events).state) then 1 else 0)
            && (forall r :: r in Results(a, events) ==>
                ValidResult(r) && r.state == After(a, events).state && r.app == app)
            && After(a, events) == a.(state := After(a, events).state, failure := After(a, events).failure,
                                      completedAt := After(a, events).completedAt)
  {
    if events != [] {
      AtMostOneResult(app, q, at, events[..|events| - 1]);
    }
  }

  // --- The request -----------------------------------------------------------------------------

  datatype Receipt = Receipt(app: AppId, state: ApplicationState, persisted: bool)

  datatype Answer = Answer(redis: Redis, receipt: Result<Receipt, Error>, committed: Option<Selection>)

  function ErrorOf(e: AdmissionError): Error {
    match e
    case Invalid => InvalidParams
    case NotOpen => RoundNotOpen
    case ClassMissing => ClassNotOpen
    case NotEligible => EligibilityNotMet
    case Full => ClassFull
    case NotFull => InvalidState
    case Duplicate => DuplicateSelection
    case Conflict => ScheduleConflict
    case NoCredit => CreditQuotaExceeded
    case NoCourse => CourseQuotaExceeded
  }

  function ReceiptOf(p: Publication): Result<Receipt, Error> {
    if p.mysqlPersisted || ValidResult(p.result) then Ok(Receipt(p.result.app, p.result.state, p.mysqlPersisted))
    else Err(InvalidParams)
  }

  /** The commit script under a version that was read before, and what its answer means. */
  function ScriptResult(rd: Redis, r: Selection, version: string): Answer {
    var reply := Commit(rd, r, version, r.completedAt);
    Answer(reply.redis,
           match CommitAnswer(reply.code, reply.stored, r) case Ok(p) => ReceiptOf(p) case Err(e) => Err(e),
           if reply.code == 0 then Some(r) else None)
  }

  /** The store's commit: the version in force, the script at the completion time, the answer. */
  function CommitResult(rd: Redis, r: Selection): Answer {
    if !ValidResult(r) then Answer(rd, Err(InvalidParams), None)
    else
      match Version(rd, r.round)
      case None => Answer(rd, Err(RoundNotOpen), None)
      case Some(v) => ScriptResult(rd, r, v)
  }

  /** A new application goes through the early check and is completed in memory. */
  function Prepare(rd: Redis, i: Intent, app: AppId, now: int, completedAt: int): Result<Selection, Error> {
    match AdmitSelection(rd, i, now)
    case Err(e) => Err(ErrorOf(e))
    case Ok(q) =>
      match NewApplication(app, q, now)
      case Err(e) => Err(e)
      case Ok(a) =>
        match Perform(Perform(a, Reserve).0, CompleteSelected(completedAt)).1
        case Err(e) => Err(e)
        case Ok(result) => if result.Some? then Ok(result.value) else Err(InvalidState)
  }

  function SelectNew(rd: Redis, i: Intent, app: AppId, now: int, completedAt: int): Answer {
    match Prepare(rd, i, app, now, completedAt)
    case Err(e) => Answer(rd, Err(e), None)
    case Ok(r) => CommitResult(rd, r)
  }

  /** The idempotent look-up, and what an application found by it is answered; None when there is none. */
  function Recorded(rd: Redis, i: Intent, completedAt: int): Option<Result<Receipt, Error>> {
    var key := (i.student, i.request);
    if !NewIntent(i) then Some(Err(InvalidParams))
    else if i.round == rd.snapshot.round && key in rd.board.results then
      var p := rd.board.results[key];
      Some(if Matches(p.result, i) then ReceiptOf(p) else Err(IdempotencyConflict))
    else if i.round == rd.snapshot.round && i.student in rd.board.pending
            && rd.board.pending[i.student].request == i.request then
      var r := rd.board.pending[i.student];
      Some(Err(if !Matches(r, i) then IdempotencyConflict
               else if completedAt == ZERO_TIME || completedAt < r.appliedAt then InvalidParams
               else InvalidState))
    else None
  }

  /** SelectCourse. */
  function SelectCourse(rd: Redis, i: Intent, app: AppId, now: int, completedAt: int): Answer {
    match Recorded(rd, i, completedAt)
    case Some(receipt) => Answer(rd, receipt, None)
    case None => SelectNew(rd, i, app, now, completedAt)
  }

  method CommitSelection(store: Store, r: Selection) returns (receipt: Result<Receipt, Error>)
    modifies store
    ensures var a := CommitResult(old(store.Value()), r); store.Value() == a.redis && receipt == a.receipt
  {
    hide Commit, ValidResult;
    if !ValidResult(r) {
      return Err(InvalidParams);
    }
    var version := Version(store.Value(), r.round);
    if version == None {
      return Err(RoundNotOpen);
    }
    var code, stored := store.CommitSelection(r, version.value, r.completedAt);
    var answer := CommitAnswer(code, stored, r);
    match answer {
      case Ok(p) => return ReceiptOf(p);
      case Err(e) => return Err(e);
    }
  }

  method Select(store: Store, i: Intent, app: AppId, now: int, completedAt: int)
    returns (receipt: Result<Receipt, Error>)
    modifies store
    ensures var a := SelectCourse(old(store.Value()), i, app, now, completedAt);
              store.Value() == a.redis && receipt == a.receipt
  {
    hide CommitResult, AdmitSelection, Blank, ValidResult;
    if !NewIntent(i) {
      return Err(InvalidParams);
    }
    var key := (i.student, i.request);
    if i.round == store.snapshot.round && key in store.results {
      return if Matches(store.results[key].result, i) then ReceiptOf(store.results[key]) else Err(IdempotencyConflict);
    }
    if i.round == store.snapshot.round && i.student in store.pending && store.pending[i.student].request == i.request {
      var r := store.pending[i.student];
      if !Matches(r, i) {
        return Err(IdempotencyConflict);
      }
      return Err(if completedAt == ZERO_TIME || completedAt < r.appliedAt then InvalidParams else InvalidState);
    }
    var admitted := Admit(store, i, now);
    if admitted.Err? {
      return Err(ErrorOf(admitted.error));
    }
    var created := NewApplication(app, admitted.value, now);
    if created.Err? {
      return Err(created.error);
    }
    var application := new SelectionApplication(created.value);
    var _ := application.Reserve();
    var completed := application.CompleteSelected(completedAt);
    if completed.Err? {
      return Err(completed.error);
    }
    receipt := CommitSelection(store, completed.value.value);
  }

  // --- What a request does ---------------------------------------------------------------------

  ghost function AfterSelect(s: System, a: Answer): System {
    s.(redis := a.redis, log := if a.committed.Some? then s.log + [a.committed.value] else s.log)
  }

  /** No enrollment of the warmup used the request id. */
  ghost predicate NotWarm(s: System, i: Intent) {
    forall j :: 0 <= j < s.warm && j < |s.log| ==> !(s.log[j].student == i.student && s.log[j].request == i.request)
  }

  /** The early check fills in the request of the intent. */
  lemma AdmittedRequest(rd: Redis, i: Intent, now: int)
    requires AdmitSelection(rd, i, now).Ok?
    ensures var q := AdmitSelection(rd, i, now).value;
            && ValidRequest(q) && now != ZERO_TIME
            && q.request == i.request && q.round == i.round && q.student == i.student
            && q.teachingClass == i.teachingClass && q.source == i.source
  {
    hide Busy;
  }

  /** What is prepared carries the intent, the new application id and the time of its completion. */
  lemma PreparedResult(rd: Redis, i: Intent, app: AppId, now: int, completedAt: int)
    requires Prepare(rd, i, app, now, completedAt).Ok?
    ensures var r := Prepare(rd, i, app, now, completedAt).value;
            && AdmitSelection(rd, i, now).Ok?
            && r == SelectedResult(AdmitSelection(rd, i, now).value, app, now, completedAt)
            && r.app == app && r.state == Selected && Matches(r, i)
            && r.student == i.student && r.request == i.request
  {
    hide AdmitSelection, Blank;
    if AdmitSelection(rd, i, now).Ok? {
      AdmittedRequest(rd, i, now);
    }
  }

  /** An admitted application that cannot be prepared is refused for good. */
  lemma UnpreparedResult(rd: Redis, i: Intent, app: AppId, now: int, completedAt: int)
    requires AdmitSelection(rd, i, now).Ok? && Prepare(rd, i, app, now, completedAt).Err?
    ensures Prepare(rd, i, app, now, completedAt).error !in {ClassFull, InProgress}
  {
    hide AdmitSelection, Blank;
  }

  // --- A request, call by call -----------------------------------------------------------------

  datatype Selecting = Selecting(state: System, receipt: Result<Receipt, Error>, committed: Option<Selection>)

  ghost function Landed(s: System, a: Answer): Selecting {
    Selecting(AfterSelect(s, a), a.receipt, a.committed)
  }

  /** The version and the script, with other workers in between. */
  ghost function CommitWith(x: System, r: Selection, between: Between): Selecting {
    if !ValidResult(r) then Selecting(x, Err(InvalidParams), None)
    else
      match Version(x.redis, r.round)
      case None => Selecting(x, Err(RoundNotOpen), None)
      case Some(v) => var y := between(2, x); Landed(y, ScriptResult(y.redis, r, v))
  }

  /** The look-up, the early check, the version and the script, with other workers between them. */
  ghost function SelectWith(
    s: System, i: Intent, app: AppId, now: int, completedAt: int, between: Between): Selecting
  {
    match Recorded(s.redis, i, completedAt)
    case Some(receipt) => Selecting(s, receipt, None)
    case None =>
      var x := between(0, s);
      match Prepare(x.redis, i, app, now, completedAt)
      case Err(e) => Selecting(x, Err(e), None)
      case Ok(r) => CommitWith(between(1, x), r, between)
  }

  /** Other workers neither use the new application id nor change the enrollments of the warmup. */
  ghost predicate SparesRequest(states: System -> bool, between: Between, i: Intent, app: AppId) {
    forall k: nat, x :: states(x) && app !in Apps(x.log) && NotWarm(x, i) ==>
      states(between(k, x)) && app !in Apps(between(k, x).log) && NotWarm(between(k, x), i)
  }

  lemma ScriptIn(states: System -> bool, y: System, r: Selection, version: string)
    requires Closed(states, Any) && states(y) && ValidResult(r) && r.state == Selected && FreshRequest(y, r)
    ensures var a := ScriptResult(y.redis, r, version);
            && states(AfterSelect(y, a))
            && (a.committed == None ==> a.redis == y.redis)
            && (a.committed.Some? ==> a.committed.value == r && a.receipt.Ok?)
  {
    hide Closed, Refusal, FreshRequest, Take, Publish, Blank;
    assert y.(redis := y.redis, log := y.log) == y;
    StepIn(states, Any, y, Action.Select(r, version, r.completedAt));
  }

  /**
    Refinement: a request in a reachable state, with any steps of other workers between its look-up, its
    early check, its version and its script, changes nothing or takes one step of the protocol: the
    commit of its own result.
   */
  lemma SelectRefines(
    states: System -> bool, s: System, i: Intent, app: AppId, now: int, completedAt: int, between: Between)
    requires Closed(states, Any) && SparesRequest(states, between, i, app)
    requires states(s) && app !in Apps(s.log) && NotWarm(s, i)
    ensures var o := SelectWith(s, i, app, now, completedAt, between);
            && states(o.state)
            && (o.committed.Some? ==>
                  && o.committed.value.app == app && Matches(o.committed.value, i) && o.receipt.Ok?
                  && o.state.log != [] && o.state.log[|o.state.log| - 1] == o.committed.value)
            && (o.committed == None ==> app !in Apps(o.state.log))
  {
    hide Closed, Prepare, ScriptResult, ValidResult, Recorded, Matches;
    var x := between(0, s);
    if Recorded(s.redis, i, completedAt) == None && Prepare(x.redis, i, app, now, completedAt).Ok? {
      PreparedResult(x.redis, i, app, now, completedAt);
      var r := Prepare(x.redis, i, app, now, completedAt).value;
      var version := Version(between(1, x).redis, r.round);
      if ValidResult(r) && version.Some? {
        ScriptIn(states, between(2, between(1, x)), r, version.value);
      }
    }
  }

  /** With nobody in between, the calls do what the code of the request does. */
  lemma SelectAlone(s: System, i: Intent, app: AppId, now: int, completedAt: int)
    ensures SelectWith(s, i, app, now, completedAt, Alone) == Landed(s, SelectCourse(s.redis, i, app, now, completedAt))
  {
    hide Prepare, ScriptResult, ValidResult, Recorded;
    assert s.(redis := s.redis, log := s.log) == s;
  }

  lemma WarmIsPrefix(s: System)
    requires Reachable(s)
    ensures s.warm <= |s.log|
  {
    hide Reachable, Inv;
    ReachableKeeps(s);
    FlowParts(s);
  }

  lemma OthersKeepFresh(s: System, a: Action, i: Intent, app: AppId)
    requires s.warm <= |s.log| && Enabled(s, a) && !(a.Select? && a.r.app == app)
    requires app !in Apps(s.log) && NotWarm(s, i)
    ensures app !in Apps(Apply(s, a).log) && NotWarm(Apply(s, a), i)
  {
    hide SaveBatch, Clear, Drop, Release, Project, Acknowledge, DeadLetter, Purge, WellFormed, Commit;
  }

  lemma {:induction false} LeadsSpareRequest(
    states: System -> bool, x: System, actions: seq<Action>, y: System, allowed: Action -> bool, i: Intent, app: AppId)
    requires Closed(states, allowed) && states(x) && Leads(x, actions, y, allowed)
    requires forall a :: allowed(a) ==> !(a.Select? && a.r.app == app)
    requires app !in Apps(x.log) && NotWarm(x, i)
    ensures states(y) && app !in Apps(y.log) && NotWarm(y, i)
  {
    hide Closed, Enabled, Apply, NotWarm, Reachable;
    if actions != [] {
      var n := |actions| - 1;
      var m :| Leads(x, actions[..n], m, allowed) && allowed(actions[n]) && Enabled(m, actions[n])
               && y == Apply(m, actions[n]);
      LeadsSpareRequest(states, x, actions[..n], m, allowed, i, app);
      StepIn(states, allowed, m, actions[n]);
      Member(states, allowed, m);
      WarmIsPrefix(m);
      OthersKeepFresh(m, actions[n], i, app);
    }
  }

  /** Any steps whose applications have ids of their own may happen between the calls of a request. */
  lemma OthersSpareRequest(
    states: System -> bool, between: Between, allowed: Action -> bool, i: Intent, app: AppId)
    requires Closed(states, allowed) && OnlySteps(states, between, allowed)
    requires forall a :: allowed(a) ==> !(a.Select? && a.r.app == app)
    ensures SparesRequest(states, between, i, app)
  {
    hide Closed, NotWarm, Leads;
    forall k: nat, x | states(x) && app !in Apps(x.log) && NotWarm(x, i)
      ensures states(between(k, x)) && app !in Apps(between(k, x).log) && NotWarm(between(k, x), i)
    {
      var actions :| Leads(x, actions, between(k, x), allowed);
      LeadsSpareRequest(states, x, actions, between(k, x), allowed, i, app);
    }
  }

  /**
    A request that a commit has accepted is answered, in every later state, with the application of
    the first time when the intent is the same and with a conflict when it is not; nothing changes.
   */
  lemma AnsweredOnce(s: System, j: nat, i: Intent, app: AppId, now: int, completedAt: int)
    requires Reachable(s) && s.warm <= j < |s.log| && s.log[j].student == i.student && s.log[j].request == i.request
    requires i.round == s.redis.snapshot.round && i.teachingClass != 0
    ensures var a := SelectCourse(s.redis, i, app, now, completedAt);
            && a.redis == s.redis && a.committed == None
            && (if Matches(s.log[j], i)
                then a.receipt.Ok? && a.receipt.value.app == s.log[j].app && a.receipt.value.state == Selected
                else a.receipt == Err(IdempotencyConflict))
  {
    hide Reachable, SelectNew, Blank;
    StoredOutcome(s, j);
    LoggedEntry(s, j);
  }

  lemma StoredOutcome(s: System, j: nat)
    requires Reachable(s) && s.warm <= j < |s.log|
    ensures var key := (s.log[j].student, s.log[j].request);
            key in s.redis.board.results && s.redis.board.results[key].result == s.log[j]
  {
    hide Reachable, Refusal, Take, Publish;
    RepeatChangesNothing(s, j, s.log[j], "", 0);
  }

  lemma LoggedEntry(s: System, j: nat)
    requires Reachable(s) && j < |s.log|
    ensures EntryFits(s.log[j], s.redis.snapshot.round, s.redis.snapshot.term, s.limits)
  {
    hide Inv, Reachable, EntryFits;
    ReachableKeeps(s);
    StockParts(s);
  }

  /**
    In a reachable state without an earlier outcome, a request that the early check admits is selected:
    the commit script, run on the same state and at the same time, never contradicts the check.
   */
  lemma AdmittedIsSelected(run: seq<System>, n: nat, i: Intent, app: AppId, now: int)
    requires IsRun(run) && n < |run| && WarmSnapshot(run[0].redis.snapshot, run[0].limits)
    requires NewIntent(i) && !Blank(app) && |app| <= MAX_APPLICATION_ID
    requires (i.student, i.request) !in run[n].redis.board.results && i.student !in run[n].redis.board.pending
    ensures SelectCourse(run[n].redis, i, app, now, now).receipt.Ok? <==> AdmitSelection(run[n].redis, i, now).Ok?
    ensures AdmitSelection(run[n].redis, i, now).Ok? ==>
              SelectCourse(run[n].redis, i, app, now, now).receipt == Ok(Receipt(app, Selected, false))
  {
    hide IsRun, WarmSnapshot, AdmitSelection, Blank;
    var rd := run[n].redis;
    if AdmitSelection(rd, i, now).Ok? {
      AdmittedRequest(rd, i, now);
      var q := AdmitSelection(rd, i, now).value;
      var r := SelectedResult(q, app, now, now);
      EarlyCheckAgrees(run, n, r, now);
      assert IntentOf(r) == i && RequestOf(r) == q;
      CommittedReceipt(rd, r);
      hide CommitResult, CommitNow;
      assert SelectNew(rd, i, app, now, now) == CommitResult(rd, r);
    }
  }

  lemma CommittedReceipt(rd: Redis, r: Selection)
    requires ValidResult(r) && CommitNow(rd, r, r.completedAt) == 0
    ensures CommitResult(rd, r).receipt == Ok(Receipt(r.app, r.state, false))
  {
    hide Take, Publish, Refusal, Blank;
  }

  /** The request was filled in from the class snapshot, as the early check does. */
  ghost predicate FromSnapshot(rd: Redis, r: Selection) {
    var snap, c := rd.snapshot, r.teachingClass;
    r.term == snap.term
      && (c in snap.classes ==> r.course == snap.classes[c].course && r.credits == snap.classes[c].credits)
  }

  /** The early check and the commit, at one state and time, give the same answer: a receipt or the same refusal. */
  ghost predicate SameAnswer(rd: Redis, r: Selection) {
    match AdmitSelection(rd, IntentOf(r), r.completedAt)
    case Ok(_) => CommitResult(rd, r).receipt == Ok(Receipt(r.app, Selected, false))
    case Err(e) => CommitResult(rd, r).receipt == Err(ErrorOf(e))
  }

  /** The request gets as far as the checks that the two make in different orders. */
  ghost predicate ReachesChecks(rd: Redis, r: Selection) {
    && Version(rd, r.round).Some? && rd.openVersion == rd.activeVersion
    && rd.snapshot.startMs <= r.completedAt < rd.snapshot.endMs
    && r.teachingClass in rd.snapshot.classes && r.student in rd.snapshot.eligible
  }

  /** The student may take the class and has not selected its course. */
  ghost predicate OpenTo(rd: Redis, r: Selection) {
    var s := r.student;
    && s in rd.snapshot.eligible && r.teachingClass in rd.snapshot.eligible[s]
    && !(s in rd.stock.courses && r.course in rd.stock.courses[s])
  }

  ghost predicate Affords(rd: Redis, r: Selection) {
    var s := r.student;
    && s in rd.stock.credit && rd.stock.credit[s] >= r.credits
    && s in rd.stock.courseQuota && rd.stock.courseQuota[s] > 0
  }

  ghost predicate HasSeat(rd: Redis, c: ClassId) {
    c in rd.stock.seat && rd.stock.seat[c] > 0
  }

  ghost predicate Clashing(rd: Redis, r: Selection) {
    var s, c := r.student, r.teachingClass;
    s in rd.stock.cells && c in rd.snapshot.classCells && Busy(rd.stock.cells[s], rd.snapshot.classCells[c])
  }

  /**
    The early check looks at the seat first and at the cells before the quotas, the script at both last.
    So a full class must be the only obstacle, and a clash must not come with a missing quota.
   */
  ghost predicate OrderIrrelevant(rd: Redis, r: Selection) {
    ReachesChecks(rd, r) ==>
      if !HasSeat(rd, r.teachingClass) then OpenTo(rd, r) && Affords(rd, r)
      else Clashing(rd, r) && OpenTo(rd, r) ==> Affords(rd, r)
  }

  /** The early check on a request that gets as far. */
  lemma EarlyOrder(rd: Redis, lim: Limits, r: Selection)
    requires Admission.Consistent(rd, lim) && ValidResult(r) && r.state == Selected
    requires FromSnapshot(rd, r) && ReachesChecks(rd, r)
    ensures AdmitSelection(rd, IntentOf(r), r.completedAt)
            == if !HasSeat(rd, r.teachingClass) then Err(Full)
               else if r.teachingClass !in rd.snapshot.eligible[r.student] then Err(NotEligible)
               else if !OpenTo(rd, r) then Err(Duplicate)
               else if Clashing(rd, r) then Err(Conflict)
               else if Affords(rd, r) then Ok(RequestOf(r))
               else if rd.stock.credit[r.student] < r.credits then Err(NoCredit)
               else Err(NoCourse)
  {
    assert r.request != "";
    KeysFound(rd, lim, r.student, r.teachingClass);
    SnapshotFound(rd.snapshot, lim, r.teachingClass);
    hide Busy, Blank, Admission.Consistent, WarmSnapshot, HashExists;
  }

  /** The script on the same request. */
  lemma ScriptOrder(rd: Redis, lim: Limits, r: Selection)
    requires Admission.Consistent(rd, lim) && ValidResult(r) && r.state == Selected
    requires (r.student, r.request) !in rd.board.results && r.student !in rd.board.pending
    requires FromSnapshot(rd, r) && ReachesChecks(rd, r)
    ensures CommitNow(rd, r, r.completedAt)
            == if r.teachingClass !in rd.snapshot.eligible[r.student] then -10
               else if !OpenTo(rd, r) then -4
               else if rd.stock.credit[r.student] < r.credits then -2
               else if !Affords(rd, r) then -3
               else if !HasSeat(rd, r.teachingClass) then -5
               else if Clashing(rd, r) then -7
               else 0
  {
    CommitNowIsRefusal(rd, r, r.completedAt);
    KeysFound(rd, lim, r.student, r.teachingClass);
    hide Busy, Blank, Commit, CommitNow, Admission.Consistent, WarmSnapshot, HashExists;
  }

  lemma SameEarlyRefusal(rd: Redis, lim: Limits, r: Selection)
    requires Admission.Consistent(rd, lim) && ValidResult(r) && r.state == Selected
    requires (r.student, r.request) !in rd.board.results && r.student !in rd.board.pending
    requires FromSnapshot(rd, r) && !ReachesChecks(rd, r)
    ensures AdmitSelection(rd, IntentOf(r), r.completedAt).Err?
    ensures CommitAnswer(CommitNow(rd, r, r.completedAt), None, r)
            == Err(ErrorOf(AdmitSelection(rd, IntentOf(r), r.completedAt).error))
  {
    assert r.request != "";
    CommitNowIsRefusal(rd, r, r.completedAt);
    SnapshotFound(rd.snapshot, lim, r.teachingClass);
    hide Busy, Blank, Commit, CommitNow, Admission.Consistent, WarmSnapshot, StockKeysExist;
  }

  lemma SameRefusal(rd: Redis, lim: Limits, r: Selection)
    requires Admission.Consistent(rd, lim) && ValidResult(r) && r.state == Selected
    requires (r.student, r.request) !in rd.board.results && r.student !in rd.board.pending
    requires FromSnapshot(rd, r)
    ensures (match AdmitSelection(rd, IntentOf(r), r.completedAt)
             case Ok(_) => CommitNow(rd, r, r.completedAt) == 0
             case Err(e) => CommitAnswer(CommitNow(rd, r, r.completedAt), None, r) == Err(ErrorOf(e)))
            <==> OrderIrrelevant(rd, r)
  {
    hide AdmitSelection, CommitNow, ReachesChecks, ValidResult, Admission.Consistent, FromSnapshot, HasSeat, Clashing;
    if ReachesChecks(rd, r) {
      EarlyOrder(rd, lim, r);
      ScriptOrder(rd, lim, r);
    } else {
      SameEarlyRefusal(rd, lim, r);
    }
  }

  lemma AnswersCompared(rd: Redis, lim: Limits, r: Selection)
    requires Admission.Consistent(rd, lim) && ValidResult(r) && r.state == Selected
    requires (r.student, r.request) !in rd.board.results && r.student !in rd.board.pending
    requires FromSnapshot(rd, r)
    ensures SameAnswer(rd, r) <==> OrderIrrelevant(rd, r)
  {
    hide AdmitSelection, FromSnapshot, OrderIrrelevant, ValidResult, Admission.Consistent, CommitNow, CommitResult;
    SameRefusal(rd, lim, r);
    if CommitNow(rd, r, r.completedAt) == 0 {
      CommittedReceipt(rd, r);
    } else {
      RefusedReceipt(rd, r);
    }
  }

  /**
    In every reachable state, and for a result filled in from the class snapshot, the early check and the
    commit answer alike if and only if the order of the checks makes no difference.
   */
  lemma RefusalsAgree(run: seq<System>, n: nat, r: Selection)
    requires IsRun(run) && n < |run| && WarmSnapshot(run[0].redis.snapshot, run[0].limits)
    requires ValidResult(r) && r.state == Selected && FromSnapshot(run[n].redis, r)
    requires (r.student, r.request) !in run[n].redis.board.results && r.student !in run[n].redis.board.pending
    ensures SameAnswer(run[n].redis, r) <==> OrderIrrelevant(run[n].redis, r)
  {
    hide IsRun, WarmSnapshot, FromSnapshot, SameAnswer, OrderIrrelevant, ValidResult, Admission.Consistent;
    RunConsistent(run, n);
    AnswersCompared(run[n].redis, run[n].limits, r);
  }

  lemma RefusedReceipt(rd: Redis, r: Selection)
    requires ValidResult(r) && (r.student, r.request) !in rd.board.results && CommitNow(rd, r, r.completedAt) != 0
    ensures CommitResult(rd, r).receipt.Err?
    ensures CommitResult(rd, r).receipt == Err(CommitAnswer(CommitNow(rd, r, r.completedAt), None, r).error)
  {
    NeverOne(rd, r, Version(rd, r.round));
    hide Take, Publish, Refusal, Blank;
  }

  lemma NeverOne(rd: Redis, r: Selection, version: Option<string>)
    ensures version.Some? ==> Refusal(rd, r, version.value, r.completedAt) != 1
  {
  }
}
