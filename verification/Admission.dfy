/**
  The early admission check. It reads one snapshot from Redis and repeats, in Go, the checks that the
  commit script will make; on every reachable state the two agree.
 */
module Admission {
  import opened Types
  import opened Ledger
  import opened RedisScripts
  import opened RedisLedger
  import opened RedisStore
  import opened SelectionSystem
  import opened SelectionProofs
  import opened SelectionTheorems
  import opened SelectionRuns

  datatype Intent = Intent(request: RequestId, round: RoundId, student: StudentId, teachingClass: ClassId,
                           source: Source)

  /** What the admission query returns; the class counts as open and so does the round. */
  datatype Facts = Facts(
    term: TermId,
    startMs: int,
    endMs: int,
    course: CourseId,
    credits: int,
    capacity: int,
    selectedCount: int,
    eligible: bool,
    existing: bool,
    conflict: bool,
    creditRemaining: int,
    courseRemaining: int)

  datatype Request = Request(
    request: RequestId,
    round: RoundId,
    term: TermId,
    student: StudentId,
    course: CourseId,
    teachingClass: ClassId,
    credits: int,
    source: Source)

  datatype AdmissionError =
    | Invalid
    | NotOpen
    | ClassMissing
    | NotEligible
    | Full
    | NotFull
    | Duplicate
    | Conflict
    | NoCredit
    | NoCourse

  predicate ValidIntent(i: Intent) {
    i.request != "" && i.round != 0 && i.student != 0 && i.teachingClass != 0
  }

  /** What a new intent must satisfy. */
  predicate NewIntent(i: Intent) {
    !Blank(i.request) && |i.request| <= MAX_REQUEST_ID && i.round != 0 && i.student != 0 && i.teachingClass != 0
  }

  predicate ValidRequest(r: Request) {
    && !Blank(r.request) && |r.request| <= MAX_REQUEST_ID
    && r.round != 0 && r.term != 0 && r.student != 0 && r.course != 0 && r.teachingClass != 0 && r.credits > 0
  }

  /** The warmup version in force, if there is one. */
  function Version(rd: Redis, round: RoundId): Option<string> {
    if round == rd.snapshot.round && rd.activeVersion.Some? && rd.activeVersion.value != "" then rd.activeVersion
    else None
  }

  /** The admission script and the checks on its reply. */
  function QueryAdmission(rd: Redis, i: Intent, now: int): Result<Facts, AdmissionError> {
    var snap, stock, s, c := rd.snapshot, rd.stock, i.student, i.teachingClass;
    if i.round == 0 || s == 0 || c == 0 || now == ZERO_TIME then Err(Invalid)
    else if Version(rd, i.round) == None || rd.openVersion != rd.activeVersion then Err(NotOpen)
    else if now < snap.startMs || now >= snap.endMs then Err(NotOpen)
    else if c !in snap.classes then Err(ClassMissing)
    else if s !in snap.eligible then Err(NotEligible)
    else if s !in stock.credit || s !in stock.courseQuota || c !in stock.seat
         || c !in snap.classCells || snap.classCells[c] == {} || !HashExists(stock.cells, s) then Err(NotOpen)
    else
      var row := snap.classes[c];
      if snap.term <= 0 || row.course <= 0 || row.credits <= 0 || row.capacity < 0
         || stock.seat[c] < 0 || stock.seat[c] > row.capacity || stock.credit[s] < 0 then Err(NotOpen)
      else
        Ok(Facts(snap.term, snap.startMs, snap.endMs, row.course, row.credits,
                 row.capacity, row.capacity - stock.seat[c],
                 c in snap.eligible[s], s in stock.courses && row.course in stock.courses[s],
                 Busy(stock.cells[s], snap.classCells[c]), stock.credit[s], stock.courseQuota[s]))
  }

  /** Fills the request with the server's facts. */
  function Prepare(rd: Redis, i: Intent, now: int): Result<(Request, Facts), AdmissionError> {
    if !ValidIntent(i) || now == ZERO_TIME then Err(Invalid)
    else
      match QueryAdmission(rd, i, now)
      case Err(e) => Err(e)
      case Ok(f) =>
        if !(f.startMs != ZERO_TIME && f.endMs != ZERO_TIME && f.startMs <= now < f.endMs) then Err(NotOpen)
        else
          var request := Request(i.request, i.round, f.term, i.student, f.course, i.teachingClass, f.credits, i.source);
          if ValidRequest(request) then Ok((request, f)) else Err(Invalid)
  }

  function EvaluateStudent(r: Request, f: Facts): Result<Request, AdmissionError> {
    if !f.eligible then Err(NotEligible)
    else if f.existing then Err(Duplicate)
    else if f.conflict then Err(Conflict)
    else if r.credits <= 0 || f.creditRemaining < r.credits then Err(NoCredit)
    else if f.courseRemaining <= 0 then Err(NoCourse)
    else Ok(r)
  }

  function AdmitSelection(rd: Redis, i: Intent, now: int): Result<Request, AdmissionError> {
    match Prepare(rd, i, now)
    case Err(e) => Err(e)
    case Ok((r, f)) =>
      if f.capacity == 0 || f.selectedCount >= f.capacity then Err(Full) else EvaluateStudent(r, f)
  }

  function AdmitWaitlist(rd: Redis, i: Intent, now: int): Result<Request, AdmissionError> {
    match Prepare(rd, i, now)
    case Err(e) => Err(e)
    case Ok((r, f)) =>
      if f.selectedCount < f.capacity then Err(NotFull) else EvaluateStudent(r, f)
  }

  function IntentOf(r: Selection): Intent {
    Intent(r.request, r.round, r.student, r.teachingClass, r.source)
  }

  function RequestOf(r: Selection): Request {
    Request(r.request, r.round, r.term, r.student, r.course, r.teachingClass, r.credits, r.source)
  }

  /** A stored or pending result belongs to the intent. */
  predicate Matches(r: Selection, i: Intent) {
    && r.request == i.request && r.round == i.round && r.student == i.student
    && r.teachingClass == i.teachingClass && r.source == i.source
  }

  /** The result that the selection path builds from an admitted request. */
  function SelectedResult(q: Request, app: AppId, appliedAt: int, completedAt: int): Selection {
    Selection(app, q.request, q.round, q.term, q.student, q.course, q.teachingClass, q.credits, q.source,
              Selected, None, appliedAt, completedAt)
  }

  /** What a completed warmup writes under its version. */
  ghost predicate WarmSnapshot(snap: Snapshot, lim: Limits) {
    && snap.term != 0 && ZERO_TIME < snap.startMs
    && snap.classes.Keys == lim.seats.Keys && snap.eligible.Keys == lim.credit.Keys
    && forall c :: c in snap.classes ==>
         && snap.classes[c].course != 0 && snap.classes[c].credits > 0
         && snap.classes[c].capacity == lim.seats[c]
  }

  /** The commit the store would make now: the script, run with the version in force. */
  ghost function CommitNow(rd: Redis, r: Selection, now: int): int {
    match Version(rd, r.round)
    case None => -8
    case Some(v) => Commit(rd, r, v, now).code
  }

  /**
    The class is full, and nothing else stands in the way: the script reports a full class before it looks at
    cells.
   */
  ghost predicate RefusedForSeatOnly(rd: Redis, r: Selection, now: int) {
    && CommitNow(rd, r, now) == -5
    && r.student in rd.stock.cells && r.teachingClass in rd.snapshot.classCells
    && !Busy(rd.stock.cells[r.student], rd.snapshot.classCells[r.teachingClass])
  }

  /** What the conservation laws say about the keys both checks read. */
  ghost predicate Consistent(rd: Redis, lim: Limits) {
    && WarmSnapshot(rd.snapshot, lim)
    && (forall c :: c in lim.seats ==>
          && c in rd.stock.seat && 0 <= rd.stock.seat[c] <= lim.seats[c]
          && c in rd.snapshot.classCells && rd.snapshot.classCells[c] != {})
    && (forall s :: s in lim.credit ==>
          && s in rd.stock.credit && rd.stock.credit[s] >= 0 && s in rd.stock.courseQuota
          && HashExists(rd.stock.courses, s) && HashExists(rd.stock.cells, s))
  }

  lemma {:induction false} SnapshotFixed(run: seq<System>, n: nat)
    requires IsRun(run) && n < |run|
    ensures run[n].redis.snapshot == run[0].redis.snapshot && run[n].limits == run[0].limits
  {
    hide Inv, StockEffect, StreamEffect, IsRun;
    if n > 0 {
      SnapshotFixed(run, n - 1);
      RunStep(run, n - 1);
    }
  }

  lemma RunConsistent(run: seq<System>, n: nat)
    requires IsRun(run) && n < |run| && WarmSnapshot(run[0].redis.snapshot, run[0].limits)
    ensures Consistent(run[n].redis, run[n].limits)
  {
    var s := run[n];
    SnapshotFixed(run, n);
    RunKeeps(run, n);
    hide Inv, IsRun;
    StockParts(s);
    StockConsistent(s.redis, s.limits, s.log, LiveNow(s));
  }

  lemma StockConsistent(rd: Redis, lim: Limits, log: Log, live: set<AppId>)
    requires WarmSnapshot(rd.snapshot, lim) && KeysOk(rd.stock, rd.snapshot.classCells, lim)
    requires QuotaLedger(rd.stock, lim, log, live) && SeatLedger(rd.stock, lim, log, live)
    requires CourseLedger(rd.stock.courses, log, live) && CellLedger(rd.stock.cells, rd.snapshot.classCells, log, live)
    ensures Consistent(rd, lim)
  {
    forall s | s in lim.credit ensures HashExists(rd.stock.courses, s) && HashExists(rd.stock.cells, s) {
      assert SENTINEL_COURSE in rd.stock.courses[s] && SENTINEL_CELL in rd.stock.cells[s];
    }
  }

  /** The keys that both checks read are there once the class and the student are known. */
  lemma KeysFound(rd: Redis, lim: Limits, s: StudentId, c: ClassId)
    requires Consistent(rd, lim)
    ensures c in rd.snapshot.classes ==>
              && c in rd.stock.seat && 0 <= rd.stock.seat[c] <= rd.snapshot.classes[c].capacity
              && c in rd.snapshot.classCells && rd.snapshot.classCells[c] != {}
    ensures s in rd.snapshot.eligible ==>
              && s in rd.stock.credit && rd.stock.credit[s] >= 0 && s in rd.stock.courseQuota
              && HashExists(rd.stock.courses, s) && HashExists(rd.stock.cells, s)
  {
  }

  lemma SnapshotFound(snap: Snapshot, lim: Limits, c: ClassId)
    requires WarmSnapshot(snap, lim)
    ensures snap.term != 0 && ZERO_TIME < snap.startMs
    ensures c in snap.classes ==> snap.classes[c].course != 0 && snap.classes[c].credits > 0
  {
  }

  /** Everything that a request needs, stated once and without an order. */
  ghost predicate Acceptable(rd: Redis, r: Selection, now: int) {
    var snap, stock, s, c := rd.snapshot, rd.stock, r.student, r.teachingClass;
    && Version(rd, r.round).Some? && rd.openVersion == rd.activeVersion
    && snap.startMs <= now < snap.endMs && r.term == snap.term
    && c in snap.classes && r.course == snap.classes[c].course && r.credits == snap.classes[c].credits
    && s in snap.eligible && c in snap.eligible[s]
    && StockKeysExist(stock, snap.classCells, s, c) && r.course !in stock.courses[s]
    && stock.credit[s] >= r.credits && stock.courseQuota[s] > 0 && stock.seat[c] > 0
    && !Busy(stock.cells[s], snap.classCells[c])
  }

  lemma ScriptAccepts(rd: Redis, r: Selection, now: int)
    requires r.state == Selected && r.credits > 0
    requires (r.student, r.request) !in rd.board.results && r.student !in rd.board.pending
    ensures CommitNow(rd, r, now) == 0 <==> Acceptable(rd, r, now)
  {
    CommitNowIsRefusal(rd, r, now);
    hide Busy, Commit, CommitNow;
  }

  lemma CheckAccepts(rd: Redis, lim: Limits, r: Selection, now: int)
    requires Consistent(rd, lim) && ValidResult(r) && r.state == Selected
    ensures AdmitSelection(rd, IntentOf(r), now) == Ok(RequestOf(r)) <==> Acceptable(rd, r, now)
  {
    assert r.request != "";
    KeysFound(rd, lim, r.student, r.teachingClass);
    SnapshotFound(rd.snapshot, lim, r.teachingClass);
    hide Busy, Blank, Consistent, WarmSnapshot, HashExists;
  }

  /** On consistent keys the early check and the script's check accept the same requests. */
  lemma ChecksAgree(rd: Redis, lim: Limits, r: Selection, now: int)
    requires Consistent(rd, lim) && ValidResult(r) && r.state == Selected
    requires (r.student, r.request) !in rd.board.results && r.student !in rd.board.pending
    ensures CommitNow(rd, r, now) == 0 <==> AdmitSelection(rd, IntentOf(r), now) == Ok(RequestOf(r))
  {
    hide Acceptable, AdmitSelection, CommitNow, Consistent;
    ScriptAccepts(rd, r, now);
    CheckAccepts(rd, lim, r, now);
  }

  lemma CommitNowIsRefusal(rd: Redis, r: Selection, now: int)
    requires (r.student, r.request) !in rd.board.results
    ensures CommitNow(rd, r, now) == match Version(rd, r.round) case None => -8 case Some(v) => Refusal(rd, r, v, now)
  {
    hide Refusal, Take, Publish;
  }

  lemma WaitlistAgrees(rd: Redis, lim: Limits, r: Selection, now: int)
    requires Consistent(rd, lim) && ValidResult(r) && r.state == Selected
    requires (r.student, r.request) !in rd.board.results && r.student !in rd.board.pending
    ensures AdmitWaitlist(rd, IntentOf(r), now) == Ok(RequestOf(r)) <==> RefusedForSeatOnly(rd, r, now)
  {
    assert r.request != "";
    CommitNowIsRefusal(rd, r, now);
    hide Busy, Blank, Commit, CommitNow;
    KeysFound(rd, lim, r.student, r.teachingClass);
  }

  /**
    In every reachable state, and with no stored or pending outcome for the request, the early check
    succeeds with exactly the request that the commit script would accept at the same time.
   */
  lemma EarlyCheckAgrees(run: seq<System>, n: nat, r: Selection, now: int)
    requires IsRun(run) && n < |run| && WarmSnapshot(run[0].redis.snapshot, run[0].limits)
    requires ValidResult(r) && r.state == Selected
    requires (r.student, r.request) !in run[n].redis.board.results && r.student !in run[n].redis.board.pending
    ensures CommitNow(run[n].redis, r, now) == 0 <==> AdmitSelection(run[n].redis, IntentOf(r), now) == Ok(RequestOf(r))
  {
    hide IsRun, Consistent, AdmitSelection, AdmitWaitlist, CommitNow, RefusedForSeatOnly;
    RunConsistent(run, n);
    ChecksAgree(run[n].redis, run[n].limits, r, now);
  }

  /** The waitlist takes exactly the requests that the commit script refuses for want of a seat alone. */
  lemma WaitlistTakesTheFull(run: seq<System>, n: nat, r: Selection, now: int)
    requires IsRun(run) && n < |run| && WarmSnapshot(run[0].redis.snapshot, run[0].limits)
    requires ValidResult(r) && r.state == Selected
    requires (r.student, r.request) !in run[n].redis.board.results && r.student !in run[n].redis.board.pending
    ensures AdmitWaitlist(run[n].redis, IntentOf(r), now) == Ok(RequestOf(r)) <==>
            RefusedForSeatOnly(run[n].redis, r, now)
  {
    hide IsRun, Consistent, AdmitSelection, AdmitWaitlist, CommitNow, RefusedForSeatOnly;
    RunConsistent(run, n);
    WaitlistAgrees(run[n].redis, run[n].limits, r, now);
  }

  /** The admission script over the store, with its loop over the class cells. */
  method ReadAdmission(store: Store, i: Intent, now: int) returns (facts: Result<Facts, AdmissionError>)
    ensures facts == QueryAdmission(store.Value(), i, now)
  {
    var snap, s, c := store.snapshot, i.student, i.teachingClass;
    if i.round == 0 || s == 0 || c == 0 || now == ZERO_TIME {
      return Err(Invalid);
    }
    if Version(store.Value(), i.round) == None || store.openVersion != store.activeVersion {
      return Err(NotOpen);
    }
    if now < snap.startMs || now >= snap.endMs {
      return Err(NotOpen);
    }
    if c !in snap.classes {
      return Err(ClassMissing);
    }
    if s !in snap.eligible {
      return Err(NotEligible);
    }
    if s !in store.credit || s !in store.courseQuota || c !in store.seat || c !in snap.classCells
       || snap.classCells[c] == {} || !HashExists(store.cells, s) {
      return Err(NotOpen);
    }
    var conflict := FindBusyCell(store.cells[s], snap.classCells[c]);
    var row, seats := snap.classes[c], store.seat[c];
    if snap.term <= 0 || row.course <= 0 || row.credits <= 0 || row.capacity < 0
       || seats < 0 || seats > row.capacity || store.credit[s] < 0 {
      return Err(NotOpen);
    }
    return Ok(Facts(snap.term, snap.startMs, snap.endMs, row.course, row.credits, row.capacity, row.capacity - seats,
                    c in snap.eligible[s], s in store.courses && row.course in store.courses[s],
                    conflict, store.credit[s], store.courseQuota[s]));
  }

  /** AdmitSelection over the store: one reading of the facts, then the checks in order. */
  method Admit(store: Store, i: Intent, now: int) returns (answer: Result<Request, AdmissionError>)
    ensures answer == AdmitSelection(store.Value(), i, now)
  {
    hide QueryAdmission, ValidRequest;
    if !ValidIntent(i) || now == ZERO_TIME {
      return Err(Invalid);
    }
    var facts := ReadAdmission(store, i, now);
    if facts.Err? {
      return Err(facts.error);
    }
    var f := facts.value;
    if !(f.startMs != ZERO_TIME && f.endMs != ZERO_TIME && f.startMs <= now < f.endMs) {
      return Err(NotOpen);
    }
    var request := Request(i.request, i.round, f.term, i.student, f.course, i.teachingClass, f.credits, i.source);
    if !ValidRequest(request) {
      return Err(Invalid);
    }
    if f.capacity == 0 || f.selectedCount >= f.capacity {
      return Err(Full);
    }
    if !f.eligible {
      return Err(NotEligible);
    }
    if f.existing {
      return Err(Duplicate);
    }
    if f.conflict {
      return Err(Conflict);
    }
    if request.credits <= 0 || f.creditRemaining < request.credits {
      return Err(NoCredit);
    }
    return if f.courseRemaining <= 0 then Err(NoCourse) else Ok(request);
  }
}
