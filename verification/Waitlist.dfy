/**
  The waitlist of a round: rows with a leased "promoting" state, and promoters that send each claimed
  entry through the ordinary selection path under a request id that depends on the entry alone.
 */
module Waitlist {
  import opened Types
  import opened Ledger
  import opened RedisScripts
  import opened RedisLedger
  import opened RedisStore
  import opened Admission
  import opened SelectionProofs
  import opened SelectionTheorems
  import opened SelectionRuns
  import Core = SelectionSystem

  type WaitId = string

  datatype WaitState = Waiting | Promoting | Promoted | Cancelled

  datatype WaitKey = WaitKey(round: RoundId, student: StudentId, teachingClass: ClassId)

  datatype Row = Row(
    request: RequestId,
    round: RoundId,
    term: TermId,
    student: StudentId,
    course: CourseId,
    teachingClass: ClassId,
    credits: int,
    state: WaitState,
    activeKey: Option<WaitKey>,
    updateTime: int)

  type Rows = map<WaitId, Row>

  datatype WaitError = NotWaiting | AlreadyExists | RequestReused | RowMissing | WrongState

  const LEASE_MS := 60_000

  function PromotionRequest(id: WaitId): RequestId {
    "waitlist-" + id
  }

  function KeyOfRow(r: Row): WaitKey {
    WaitKey(r.round, r.student, r.teachingClass)
  }

  predicate Active(s: WaitState) {
    s == Waiting || s == Promoting
  }

  predicate SameIdentity(a: Row, b: Row) {
    && a.request == b.request && a.round == b.round && a.term == b.term && a.student == b.student
    && a.course == b.course && a.teachingClass == b.teachingClass && a.credits == b.credits
  }

  // --- The table -------------------------------------------------------------------------------

  predicate SameRequest(a: Row, b: Row) {
    a.round == b.round && a.student == b.student && a.request == b.request
  }

  predicate RequestUsed(rows: Rows, r: Row) {
    exists w :: w in rows && SameRequest(rows[w], r)
  }

  predicate KeyUsed(rows: Rows, key: WaitKey) {
    exists w :: w in rows && rows[w].activeKey == Some(key)
  }

  predicate Joined(rows: Rows, r: Row) {
    exists w :: w in rows && SameRequest(rows[w], r) && SameIdentity(rows[w], r)
  }

  /** The unique index over round, student and request. */
  ghost predicate UniqueRequests(rows: Rows) {
    forall v, w :: v in rows && w in rows && SameRequest(rows[v], rows[w]) ==> v == w
  }

  /** Inserts a waiting row unless a unique key forbids it; a repeated join is answered with the row of the first. */
  function Join(rows: Rows, id: WaitId, r: Row): Result<Rows, WaitError> {
    if r.state != Waiting then Err(NotWaiting)
    else if id in rows || RequestUsed(rows, r) || KeyUsed(rows, KeyOfRow(r)) then
      if Joined(rows, r) then Ok(rows) else if RequestUsed(rows, r) then Err(RequestReused) else Err(AlreadyExists)
    else Ok(rows[id := r.(activeKey := Some(KeyOfRow(r)))])
  }

  /** The conditional update that cancels an active row. */
  function Cancel(rows: Rows, id: WaitId, student: StudentId, now: int): Result<Rows, WaitError> {
    if id !in rows || rows[id].student != student then Err(RowMissing)
    else if Active(rows[id].state) then
      Ok(rows[id := rows[id].(state := WaitState.Cancelled, activeKey := None, updateTime := now)])
    else if rows[id].state == WaitState.Cancelled then Ok(rows)
    else Err(WrongState)
  }

  /** Leases older than a minute fall back into the queue. */
  function Reclaim(rows: Rows, now: int): Rows {
    map w | w in rows ::
      if rows[w].state == Promoting && rows[w].updateTime < now - LEASE_MS
      then rows[w].(state := Waiting, updateTime := now) else rows[w]
  }

  /** Takes the lease of the chosen rows that are waiting. */
  function Lease(rows: Rows, chosen: set<WaitId>, now: int): Rows {
    map w | w in rows ::
      if w in chosen && rows[w].state == Waiting then rows[w].(state := Promoting, updateTime := now) else rows[w]
  }

  function MarkPromoted(rows: Rows, id: WaitId, now: int): Result<Rows, WaitError> {
    if id in rows && rows[id].state == Promoting
    then Ok(rows[id := rows[id].(state := Promoted, activeKey := None, updateTime := now)])
    else Err(WrongState)
  }

  function ReturnToQueue(rows: Rows, id: WaitId, now: int): Rows {
    if id in rows && rows[id].state == Promoting
    then rows[id := rows[id].(state := Waiting, updateTime := now)] else rows
  }

  // --- Promoters -------------------------------------------------------------------------------

  /** A claimed entry: the row as it was when its lease was taken. */
  datatype Claim = Claim(id: WaitId, row: Row)

  datatype Promoter =
    | Free
    | Expiring(queue: seq<Claim>)
    | Taking(queue: seq<Claim>)
    | Admitting(claim: Claim, queue: seq<Claim>)
    | Committing(claim: Claim, result: Selection, queue: seq<Claim>)
    | Succeeded(claim: Claim, queue: seq<Claim>)
    | Refused(claim: Claim, retry: bool, queue: seq<Claim>)

  datatype World = World(core: Core.System, rows: Rows, promoters: map<nat, Promoter>)

  datatype Action =
    | CoreStep(a: Core.Action)
    | JoinWaitlist(id: WaitId, row: Row)
    | CancelWaitlist(id: WaitId, student: StudentId, now: int)
    | ClaimExpired(p: nat, claims: seq<Claim>, now: int)
    | CancelExpired(p: nat, now: int)
    | ClaimPromotable(p: nat, claims: seq<Claim>, now: int)
    | LookUp(p: nat)
    | Admit(p: nat, app: AppId, now: int, completedAt: int)
    | CommitPromotion(p: nat, expected: string, now: int)
    | Disturb(p: nat)
    | Promote(p: nat, now: int)
    | GiveUp(p: nat, now: int)
    | StopPromoter(p: nat)

  function Stage(promoters: map<nat, Promoter>, p: nat): Promoter {
    if p in promoters then promoters[p] else Free
  }

  function IntentFor(c: Claim): Intent {
    Intent(PromotionRequest(c.id), c.row.round, c.row.student, c.row.teachingClass, System)
  }

  /** Each claimed row was waiting and carries its own data. */
  ghost predicate Claimable(rows: Rows, claims: seq<Claim>) {
    forall i :: 0 <= i < |claims| ==>
      && claims[i].id in rows && rows[claims[i].id].state == Waiting
      && SameIdentity(rows[claims[i].id], claims[i].row)
  }

  function ClaimIds(claims: seq<Claim>): set<WaitId> {
    set i | 0 <= i < |claims| :: claims[i].id
  }

  ghost predicate Enabled(s: World, a: Action) {
    match a
    case CoreStep(b) => Core.Enabled(s.core, b)
    case JoinWaitlist(_, _) => true
    case CancelWaitlist(_, _, _) => true
    case ClaimExpired(p, claims, _) => Stage(s.promoters, p).Free? && Claimable(s.rows, claims)
    case CancelExpired(p, _) => Stage(s.promoters, p).Expiring? && Stage(s.promoters, p).queue != []
    case ClaimPromotable(p, claims, now) => Stage(s.promoters, p).Free? && Claimable(Reclaim(s.rows, now), claims)
    case LookUp(p) => Stage(s.promoters, p).Taking? && Stage(s.promoters, p).queue != []
    case Admit(p, _, _, _) => Stage(s.promoters, p).Admitting?
    case CommitPromotion(p, _, _) =>
      && Stage(s.promoters, p).Committing?
      && ValidResult(Stage(s.promoters, p).result) && Core.FreshRequest(s.core, Stage(s.promoters, p).result)
    case Disturb(p) =>
      var g := Stage(s.promoters, p);
      g.Admitting? || g.Committing? || g.Succeeded? || g.Refused? || (g.Taking? && g.queue != [])
    case Promote(p, _) => Stage(s.promoters, p).Succeeded?
    case GiveUp(p, _) => Stage(s.promoters, p).Refused?
    case StopPromoter(p) => true
  }

  function Go(s: World, p: nat, stage: Promoter): World {
    s.(promoters := s.promoters[p := stage])
  }

  function CancelExpiredStep(s: World, p: nat, queue: seq<Claim>, now: int): World
    requires queue != []
  {
    match Cancel(s.rows, queue[0].id, queue[0].row.student, now)
    case Err(_) => Go(s, p, Free)
    case Ok(rows) => Go(s.(rows := rows), p, Expiring(queue[1..]))
  }

  /** The idempotent look-up of SelectCourse: a stored outcome of the same intent counts as success. */
  function LookUpStep(s: World, p: nat, queue: seq<Claim>): World
    requires queue != []
  {
    var c, board := queue[0], s.core.redis.board;
    var key, here := (c.row.student, PromotionRequest(c.id)), c.row.round == s.core.redis.snapshot.round;
    if !NewIntent(IntentFor(c)) then Go(s, p, Refused(c, false, queue[1..]))
    else if here && key in board.results then
      if Matches(board.results[key].result, IntentFor(c)) then Go(s, p, Succeeded(c, queue[1..]))
      else Go(s, p, Refused(c, false, queue[1..]))
    else if here && c.row.student in board.pending && board.pending[c.row.student].request == PromotionRequest(c.id)
    then Go(s, p, Refused(c, false, queue[1..]))
    else Go(s, p, Admitting(c, queue[1..]))
  }

  function AdmitStep(s: World, p: nat, c: Claim, queue: seq<Claim>, app: AppId, now: int, completedAt: int): World {
    match AdmitSelection(s.core.redis, IntentFor(c), now)
    case Err(e) => Go(s, p, Refused(c, e == Full, queue))
    case Ok(q) => Go(s, p, Committing(c, SelectedResult(q, app, now, completedAt), queue))
  }

  /**
    One run of the commit script under some version; only a full class or another pending request means "try
    again".
   */
  function CommitStep(s: World, p: nat, c: Claim, r: Selection, queue: seq<Claim>, expected: string, now: int): World {
    var reply := Commit(s.core.redis, r, expected, now);
    var s' := s.(core := Core.SelectStep(s.core, r, expected, now));
    match CommitAnswer(reply.code, reply.stored, r)
    case Ok(_) => Go(s', p, Succeeded(c, queue))
    case Err(e) => Go(s', p, Refused(c, e == ClassFull || e == InProgress, queue))
  }

  function PromoteStep(s: World, p: nat, c: Claim, queue: seq<Claim>, now: int): World {
    match MarkPromoted(s.rows, c.id, now)
    case Err(_) => Go(s, p, Free)
    case Ok(rows) => Go(s.(rows := rows), p, Taking(queue))
  }

  function GiveUpStep(s: World, p: nat, c: Claim, retry: bool, queue: seq<Claim>, now: int): World {
    if retry then Go(s.(rows := ReturnToQueue(s.rows, c.id, now)), p, Taking(queue))
    else
      match Cancel(s.rows, c.id, c.row.student, now)
      case Err(_) => Go(s, p, Free)
      case Ok(rows) => Go(s.(rows := rows), p, Taking(queue))
  }

  ghost function Apply(s: World, a: Action): World
    requires Enabled(s, a)
  {
    match a
    case CoreStep(b) => s.(core := Core.Apply(s.core, b))
    case JoinWaitlist(id, row) => s.(rows := match Join(s.rows, id, row) case Ok(rows) => rows case Err(_) => s.rows)
    case CancelWaitlist(id, student, now) =>
      s.(rows := match Cancel(s.rows, id, student, now) case Ok(rows) => rows case Err(_) => s.rows)
    case ClaimExpired(p, claims, now) => Go(s.(rows := Lease(s.rows, ClaimIds(claims), now)), p, Expiring(claims))
    case CancelExpired(p, now) => CancelExpiredStep(s, p, Stage(s.promoters, p).queue, now)
    case ClaimPromotable(p, claims, now) =>
      Go(s.(rows := Lease(Reclaim(s.rows, now), ClaimIds(claims), now)), p, Taking(claims))
    case LookUp(p) => LookUpStep(s, p, Stage(s.promoters, p).queue)
    case Admit(p, app, now, completedAt) =>
      var g := Stage(s.promoters, p);
      AdmitStep(s, p, g.claim, g.queue, app, now, completedAt)
    case CommitPromotion(p, expected, now) =>
      var g := Stage(s.promoters, p);
      CommitStep(s, p, g.claim, g.result, g.queue, expected, now)
    case Disturb(p) =>
      var g := Stage(s.promoters, p);
      if g.Taking? then Go(s, p, Refused(g.queue[0], false, g.queue[1..]))
      else Go(s, p, Refused(g.claim, false, g.queue))
    case Promote(p, now) =>
      var g := Stage(s.promoters, p);
      PromoteStep(s, p, g.claim, g.queue, now)
    case GiveUp(p, now) =>
      var g := Stage(s.promoters, p);
      GiveUpStep(s, p, g.claim, g.retry, g.queue, now)
    case StopPromoter(p) => Go(s, p, Free)
  }

  // --- The invariant ---------------------------------------------------------------------------

  /** The unique key is set exactly while the row is waiting or promoting, and is then its own. */
  ghost predicate RowsOk(rows: Rows) {
    && (forall w :: w in rows ==>
          rows[w].activeKey == if Active(rows[w].state) then Some(KeyOfRow(rows[w])) else None)
    && (forall v, w :: v in rows && w in rows && v != w && rows[v].activeKey.Some? ==>
          rows[v].activeKey != rows[w].activeKey)
    && UniqueRequests(rows)
  }

  /** The log holds a selection under the entry's promotion request, for the entry's class. */
  ghost predicate Selects(x: Selection, id: WaitId, row: Row) {
    && x.request == PromotionRequest(id) && x.student == row.student && x.teachingClass == row.teachingClass
    && x.round == row.round
  }

  ghost predicate Committed(log: Log, id: WaitId, row: Row) {
    exists i :: 0 <= i < |log| && Selects(log[i], id, row)
  }

  ghost predicate PromotedOk(rows: Rows, log: Log) {
    forall w :: w in rows && rows[w].state == Promoted ==> Committed(log, w, rows[w])
  }

  ghost predicate ClaimOk(c: Claim, rows: Rows) {
    c.id in rows && SameIdentity(rows[c.id], c.row)
  }

  ghost predicate QueueOk(queue: seq<Claim>, rows: Rows) {
    forall i :: 0 <= i < |queue| ==> ClaimOk(queue[i], rows)
  }

  ghost predicate PromoterOk(g: Promoter, rows: Rows, log: Log) {
    match g
    case Free => true
    case Expiring(queue) => QueueOk(queue, rows)
    case Taking(queue) => QueueOk(queue, rows)
    case Admitting(c, queue) => ClaimOk(c, rows) && QueueOk(queue, rows)
    case Committing(c, r, queue) =>
      ClaimOk(c, rows) && QueueOk(queue, rows) && Selects(r, c.id, c.row) && r.state == Selected
    case Succeeded(c, queue) => ClaimOk(c, rows) && QueueOk(queue, rows) && Committed(log, c.id, c.row)
    case Refused(c, _, queue) => ClaimOk(c, rows) && QueueOk(queue, rows)
  }

  ghost predicate PromotersOk(promoters: map<nat, Promoter>, rows: Rows, log: Log) {
    forall p :: p in promoters ==> PromoterOk(promoters[p], rows, log)
  }

  ghost predicate Inv(s: World) {
    Core.Inv(s.core) && RowsOk(s.rows) && PromotedOk(s.rows, s.core.log) && PromotersOk(s.promoters, s.rows, s.core.log)
  }

  ghost predicate Init(s: World) {
    Core.Init(s.core) && s.rows == map[] && s.promoters == map[]
  }

  ghost predicate Next(s: World, s': World) {
    exists a: Action :: Enabled(s, a) && s' == Apply(s, a)
  }

  ghost predicate IsRun(run: seq<World>) {
    && |run| > 0 && Init(run[0])
    && forall i :: 0 <= i < |run| - 1 ==> Next(run[i], run[i + 1])
  }

  ghost predicate Reachable(s: World) {
    exists run :: IsRun(run) && run[|run| - 1] == s
  }

  // --- Every step keeps it ---------------------------------------------------------------------

  lemma GoKeeps(s: World, p: nat, g: Promoter)
    requires Inv(s) && PromoterOk(g, s.rows, s.core.log)
    ensures Inv(Go(s, p, g))
  {
    hide Core.Inv, RowsOk, PromotedOk, PromoterOk;
  }

  /** Rows are never deleted and keep their identity. */
  ghost predicate RowsKept(rows: Rows, rows': Rows) {
    forall w :: w in rows ==> w in rows' && SameIdentity(rows[w], rows'[w])
  }

  lemma RowsKeptPromoters(promoters: map<nat, Promoter>, rows: Rows, rows': Rows, log: Log)
    requires PromotersOk(promoters, rows, log) && RowsKept(rows, rows')
    ensures PromotersOk(promoters, rows', log)
  {
    forall p | p in promoters ensures PromoterOk(promoters[p], rows', log) {
      assert PromoterOk(promoters[p], rows, log);
    }
  }

  lemma RowsKeep(s: World, rows': Rows)
    requires Inv(s) && RowsKept(s.rows, rows') && RowsOk(rows') && PromotedOk(rows', s.core.log)
    ensures Inv(s.(rows := rows'))
  {
    hide Core.Inv, RowsOk, PromotedOk;
    RowsKeptPromoters(s.promoters, s.rows, rows', s.core.log);
  }

  lemma CommittedGrows(log: Log, log': Log, id: WaitId, row: Row)
    requires Committed(log, id, row) && |log| <= |log'| && log == log'[..|log|]
    ensures Committed(log', id, row)
  {
    var i :| 0 <= i < |log| && Selects(log[i], id, row);
    assert log'[i] == log[i];
  }

  /** The core moves on: its log only grows. */
  lemma CoreKeeps(s: World, core': Core.System)
    requires Inv(s) && Core.Inv(core') && Effect(s.core, core')
    ensures Inv(s.(core := core'))
  {
    hide Core.Inv, Effect, RowsOk, Committed, ClaimOk, QueueOk, Selects;
    EffectGrows(s.core, core');
    var log, log' := s.core.log, core'.log;
    forall w | w in s.rows && s.rows[w].state == Promoted ensures Committed(log', w, s.rows[w]) {
      CommittedGrows(log, log', w, s.rows[w]);
    }
    forall p | p in s.promoters ensures PromoterOk(s.promoters[p], s.rows, log') {
      assert PromoterOk(s.promoters[p], s.rows, log);
      if s.promoters[p].Succeeded? {
        CommittedGrows(log, log', s.promoters[p].claim.id, s.promoters[p].claim.row);
      }
    }
  }

  lemma CoreStepKeeps(s: World, a: Core.Action)
    requires Inv(s) && Core.Enabled(s.core, a)
    ensures Inv(s.(core := Core.Apply(s.core, a)))
  {
    hide Core.Inv, Core.Enabled, Core.Apply, Effect;
    StepKeeps(s.core, a);
    StepEffect(s.core, a);
    CoreKeeps(s, Core.Apply(s.core, a));
  }

  lemma JoinKeeps(rows: Rows, id: WaitId, r: Row, log: Log)
    requires RowsOk(rows) && PromotedOk(rows, log) && Join(rows, id, r).Ok?
    ensures RowsKept(rows, Join(rows, id, r).value) && RowsOk(Join(rows, id, r).value)
            && PromotedOk(Join(rows, id, r).value, log)
  {
  }

  lemma CancelKeeps(rows: Rows, id: WaitId, student: StudentId, now: int, log: Log)
    requires RowsOk(rows) && PromotedOk(rows, log) && Cancel(rows, id, student, now).Ok?
    ensures var rows' := Cancel(rows, id, student, now).value;
              RowsKept(rows, rows') && RowsOk(rows') && PromotedOk(rows', log)
  {
  }

  lemma ReclaimKeeps(rows: Rows, now: int, log: Log)
    requires RowsOk(rows) && PromotedOk(rows, log)
    ensures RowsKept(rows, Reclaim(rows, now)) && RowsOk(Reclaim(rows, now)) && PromotedOk(Reclaim(rows, now), log)
  {
  }

  lemma LeaseKeeps(rows: Rows, chosen: set<WaitId>, now: int, log: Log)
    requires RowsOk(rows) && PromotedOk(rows, log)
    ensures var rows' := Lease(rows, chosen, now); RowsKept(rows, rows') && RowsOk(rows') && PromotedOk(rows', log)
  {
  }

  lemma MarkPromotedKeeps(rows: Rows, id: WaitId, row: Row, now: int, log: Log)
    requires RowsOk(rows) && PromotedOk(rows, log) && MarkPromoted(rows, id, now).Ok?
    requires ClaimOk(Claim(id, row), rows) && Committed(log, id, row)
    ensures var rows' := MarkPromoted(rows, id, now).value;
              RowsKept(rows, rows') && RowsOk(rows') && PromotedOk(rows', log)
  {
    var rows' := MarkPromoted(rows, id, now).value;
    var i :| 0 <= i < |log| && Selects(log[i], id, row);
    assert Selects(log[i], id, rows'[id]);
  }

  lemma ReturnKeeps(rows: Rows, id: WaitId, now: int, log: Log)
    requires RowsOk(rows) && PromotedOk(rows, log)
    ensures var rows' := ReturnToQueue(rows, id, now); RowsKept(rows, rows') && RowsOk(rows') && PromotedOk(rows', log)
  {
  }

  lemma ClaimsOk(rows: Rows, rows': Rows, claims: seq<Claim>)
    requires Claimable(rows, claims) && RowsKept(rows, rows')
    ensures QueueOk(claims, rows')
  {
  }

  lemma KeptClaims(rows: Rows, rows': Rows, queue: seq<Claim>)
    requires QueueOk(queue, rows) && RowsKept(rows, rows')
    ensures QueueOk(queue, rows')
  {
  }

  lemma TableStepKeeps(s: World, a: Action)
    requires Inv(s) && Enabled(s, a) && (a.JoinWaitlist? || a.CancelWaitlist? || a.ClaimExpired? || a.ClaimPromotable?)
    ensures Inv(Apply(s, a))
  {
    hide Core.Inv, RowsOk, PromotedOk, PromotersOk, Join, Cancel, Reclaim, Lease, RowsKept, ClaimIds, Claimable,
         QueueOk;
    var log := s.core.log;
    match a {
      case JoinWaitlist(id, row) =>
        if Join(s.rows, id, row).Ok? {
          JoinKeeps(s.rows, id, row, log);
          RowsKeep(s, Join(s.rows, id, row).value);
        }
      case CancelWaitlist(id, student, now) =>
        if Cancel(s.rows, id, student, now).Ok? {
          CancelKeeps(s.rows, id, student, now, log);
          RowsKeep(s, Cancel(s.rows, id, student, now).value);
        }
      case ClaimExpired(p, claims, now) =>
        var rows' := Lease(s.rows, ClaimIds(claims), now);
        LeaseKeeps(s.rows, ClaimIds(claims), now, log);
        RowsKeep(s, rows');
        ClaimsOk(s.rows, rows', claims);
        GoKeeps(s.(rows := rows'), p, Expiring(claims));
      case ClaimPromotable(p, claims, now) =>
        var free := Reclaim(s.rows, now);
        var rows' := Lease(free, ClaimIds(claims), now);
        ReclaimKeeps(s.rows, now, log);
        RowsKeep(s, free);
        LeaseKeeps(free, ClaimIds(claims), now, log);
        RowsKeep(s.(rows := free), rows');
        ClaimsOk(free, rows', claims);
        GoKeeps(s.(rows := rows'), p, Taking(claims));
    }
  }

  lemma StageOk(s: World, p: nat)
    requires PromotersOk(s.promoters, s.rows, s.core.log)
    ensures PromoterOk(Stage(s.promoters, p), s.rows, s.core.log)
  {
  }

  lemma CancelClaim(s: World, p: nat, id: WaitId, student: StudentId, now: int, queue: seq<Claim>, g: Promoter)
    requires Inv(s) && QueueOk(queue, s.rows) && Cancel(s.rows, id, student, now).Ok?
    requires g == Expiring(queue) || g == Taking(queue)
    ensures Inv(Go(s.(rows := Cancel(s.rows, id, student, now).value), p, g))
  {
    hide Core.Inv, RowsOk, PromotedOk, PromotersOk, Cancel, RowsKept, QueueOk;
    var rows' := Cancel(s.rows, id, student, now).value;
    CancelKeeps(s.rows, id, student, now, s.core.log);
    RowsKeep(s, rows');
    KeptClaims(s.rows, rows', queue);
    GoKeeps(s.(rows := rows'), p, g);
  }

  lemma CancelExpiredKeeps(s: World, p: nat, queue: seq<Claim>, now: int)
    requires Inv(s) && queue != [] && QueueOk(queue, s.rows)
    ensures Inv(CancelExpiredStep(s, p, queue, now))
  {
    hide Inv, Cancel;
    if Cancel(s.rows, queue[0].id, queue[0].row.student, now).Ok? {
      CancelClaim(s, p, queue[0].id, queue[0].row.student, now, queue[1..], Expiring(queue[1..]));
    } else {
      GoKeeps(s, p, Free);
    }
  }

  /** A stored outcome that matches the claim is a committed selection of the log. */
  lemma StoredIsCommitted(s: World, key: (StudentId, RequestId), id: WaitId, row: Row)
    requires Inv(s) && key in s.core.redis.board.results && Selects(s.core.redis.board.results[key].result, id, row)
    ensures Committed(s.core.log, id, row)
  {
    hide Core.Inv, RowsOk, PromotedOk, PromotersOk;
    FlowParts(s.core);
    hide Core.StreamOk, Core.ConsumersOk, Core.DroppersOk;
    var pub := s.core.redis.board.results[key];
    assert Core.PublicationOk(pub, key, s.core.redis.board, s.core.db.events, s.core.log, s.core.warm);
    assert Selects(s.core.log[pub.streamId], id, row);
  }

  lemma LookUpKeeps(s: World, p: nat, queue: seq<Claim>)
    requires Inv(s) && queue != [] && QueueOk(queue, s.rows)
    ensures Inv(LookUpStep(s, p, queue))
  {
    hide Inv;
    var c, board := queue[0], s.core.redis.board;
    var key := (c.row.student, PromotionRequest(c.id));
    hide Blank;
    if key in board.results && Matches(board.results[key].result, IntentFor(c)) {
      StoredIsCommitted(s, key, c.id, c.row);
      GoKeeps(s, p, Succeeded(c, queue[1..]));
    }
    GoKeeps(s, p, Refused(c, false, queue[1..]));
    GoKeeps(s, p, Admitting(c, queue[1..]));
  }

  lemma AdmitKeeps(s: World, p: nat, c: Claim, queue: seq<Claim>, app: AppId, now: int, completedAt: int)
    requires Inv(s) && ClaimOk(c, s.rows) && QueueOk(queue, s.rows)
    ensures Inv(AdmitStep(s, p, c, queue, app, now, completedAt))
  {
    hide Inv, QueryAdmission;
    var admitted := AdmitSelection(s.core.redis, IntentFor(c), now);
    if admitted.Ok? {
      GoKeeps(s, p, Committing(c, SelectedResult(admitted.value, app, now, completedAt), queue));
    } else {
      GoKeeps(s, p, Refused(c, admitted.error == Full, queue));
    }
  }

  /** A commit that answers success leaves the entry's selection in the log. */
  lemma AnsweredIsCommitted(s: World, id: WaitId, row: Row, r: Selection, v: string, now: int)
    requires Inv(s) && Selects(r, id, row) && r.state == Selected
    ensures var reply := Commit(s.core.redis, r, v, now);
            CommitAnswer(reply.code, reply.stored, r).Ok? ==> Committed(Core.SelectStep(s.core, r, v, now).log, id, row)
  {
    hide Inv, Refusal, Take, Publish;
    CommitCases(s.core.redis, r, v, now);
    var reply := Commit(s.core.redis, r, v, now);
    var key := (r.student, r.request);
    if CommitAnswer(reply.code, reply.stored, r).Ok? {
      if key in s.core.redis.board.results {
        assert Selects(reply.stored.value.result, id, row);
        StoredIsCommitted(s, key, id, row);
      } else {
        RefusalNotOne(s.core.redis, r, v, now);
        assert Core.SelectStep(s.core, r, v, now).log == s.core.log + [r];
        var log' := s.core.log + [r];
        assert Selects(log'[|s.core.log|], id, row);
      }
    }
  }

  lemma RefusalNotOne(rd: Redis, r: Selection, v: string, now: int)
    ensures Refusal(rd, r, v, now) != 1
  {
  }

  lemma CommitKeeps(s: World, p: nat, c: Claim, r: Selection, queue: seq<Claim>, v: string, now: int)
    requires Inv(s) && ClaimOk(c, s.rows) && QueueOk(queue, s.rows) && Selects(r, c.id, c.row) && r.state == Selected
    requires ValidResult(r) && Core.FreshRequest(s.core, r)
    ensures Inv(CommitStep(s, p, c, r, queue, v, now))
  {
    hide Inv, Core.SelectStep, CommitAnswer, Commit, ValidResult, Core.FreshRequest, Selects, ClaimOk, QueueOk,
         Committed;
    AnsweredIsCommitted(s, c.id, c.row, r, v, now);
    CommittedCoreKeeps(s, r, v, now);
    var core' := Core.SelectStep(s.core, r, v, now);
    var reply := Commit(s.core.redis, r, v, now);
    var answer := CommitAnswer(reply.code, reply.stored, r);
    if answer.Ok? {
      GoKeeps(s.(core := core'), p, Succeeded(c, queue));
    } else {
      GoKeeps(s.(core := core'), p, Refused(c, answer.error == ClassFull || answer.error == InProgress, queue));
    }
  }

  lemma CommittedCoreKeeps(s: World, r: Selection, v: string, now: int)
    requires Inv(s) && ValidResult(r) && Core.FreshRequest(s.core, r)
    ensures Inv(s.(core := Core.SelectStep(s.core, r, v, now)))
  {
    hide Core.Inv, RowsOk, PromotedOk, PromotersOk, Core.SelectStep, Effect, ValidResult;
    SelectKeeps(s.core, r, v, now);
    SelectEffect(s.core, r, v, now);
    CoreKeeps(s, Core.SelectStep(s.core, r, v, now));
  }

  lemma PromoteKeeps(s: World, p: nat, c: Claim, queue: seq<Claim>, now: int)
    requires Inv(s) && ClaimOk(c, s.rows) && QueueOk(queue, s.rows) && Committed(s.core.log, c.id, c.row)
    ensures Inv(PromoteStep(s, p, c, queue, now))
  {
    hide Core.Inv, RowsOk, PromotedOk, PromotersOk, MarkPromoted, RowsKept, QueueOk, Committed;
    if MarkPromoted(s.rows, c.id, now).Ok? {
      var rows' := MarkPromoted(s.rows, c.id, now).value;
      MarkPromotedKeeps(s.rows, c.id, c.row, now, s.core.log);
      RowsKeep(s, rows');
      KeptClaims(s.rows, rows', queue);
      GoKeeps(s.(rows := rows'), p, Taking(queue));
    } else {
      GoKeeps(s, p, Free);
    }
  }

  lemma GiveUpKeeps(s: World, p: nat, c: Claim, retry: bool, queue: seq<Claim>, now: int)
    requires Inv(s) && ClaimOk(c, s.rows) && QueueOk(queue, s.rows)
    ensures Inv(GiveUpStep(s, p, c, retry, queue, now))
  {
    hide Core.Inv, RowsOk, PromotedOk, PromotersOk, ReturnToQueue, Cancel, RowsKept, QueueOk;
    if retry {
      var rows' := ReturnToQueue(s.rows, c.id, now);
      ReturnKeeps(s.rows, c.id, now, s.core.log);
      RowsKeep(s, rows');
      KeptClaims(s.rows, rows', queue);
      GoKeeps(s.(rows := rows'), p, Taking(queue));
    } else if Cancel(s.rows, c.id, c.row.student, now).Ok? {
      CancelClaim(s, p, c.id, c.row.student, now, queue, Taking(queue));
    } else {
      GoKeeps(s, p, Free);
    }
  }

  lemma DisturbKeeps(s: World, p: nat, g: Promoter)
    requires Inv(s) && PromoterOk(g, s.rows, s.core.log)
    ensures g.Admitting? || g.Committing? || g.Succeeded? || g.Refused? ==>
              Inv(Go(s, p, Refused(g.claim, false, g.queue)))
    ensures g.Taking? && g.queue != [] ==> Inv(Go(s, p, Refused(g.queue[0], false, g.queue[1..])))
  {
    hide Inv, ClaimOk, Committed, Selects;
    if g.Taking? && g.queue != [] {
      GoKeeps(s, p, Refused(g.queue[0], false, g.queue[1..]));
    } else if g.Admitting? || g.Committing? || g.Succeeded? || g.Refused? {
      GoKeeps(s, p, Refused(g.claim, false, g.queue));
    }
  }

  /** The invariant is inductive. */
  lemma WorldStepKeeps(s: World, a: Action)
    requires Inv(s) && Enabled(s, a)
    ensures Inv(Apply(s, a))
  {
    hide Core.Inv, RowsOk, PromotedOk;
    assert PromotersOk(s.promoters, s.rows, s.core.log);
    hide Inv, ClaimOk, QueueOk, Committed, Selects, Core.Enabled, Core.Apply, Core.FreshRequest, ValidResult,
         CancelExpiredStep, LookUpStep, AdmitStep, CommitStep, PromoteStep, GiveUpStep, Claimable, Go, PromotersOk;
    match a {
      case CoreStep(b) => CoreStepKeeps(s, b);
      case JoinWaitlist(_, _) => TableStepKeeps(s, a);
      case CancelWaitlist(_, _, _) => TableStepKeeps(s, a);
      case ClaimExpired(_, _, _) => TableStepKeeps(s, a);
      case ClaimPromotable(_, _, _) => TableStepKeeps(s, a);
      case CancelExpired(p, now) =>
        StageOk(s, p);
        CancelExpiredKeeps(s, p, Stage(s.promoters, p).queue, now);
      case LookUp(p) =>
        StageOk(s, p);
        LookUpKeeps(s, p, Stage(s.promoters, p).queue);
      case Admit(p, app, now, completedAt) =>
        StageOk(s, p);
        AdmitKeeps(s, p, Stage(s.promoters, p).claim, Stage(s.promoters, p).queue, app, now, completedAt);
      case CommitPromotion(p, expected, now) =>
        StageOk(s, p);
        var g := Stage(s.promoters, p);
        CommitKeeps(s, p, g.claim, g.result, g.queue, expected, now);
      case Disturb(p) =>
        StageOk(s, p);
        DisturbKeeps(s, p, Stage(s.promoters, p));
      case Promote(p, now) =>
        StageOk(s, p);
        PromoteKeeps(s, p, Stage(s.promoters, p).claim, Stage(s.promoters, p).queue, now);
      case GiveUp(p, now) =>
        StageOk(s, p);
        GiveUpKeeps(s, p, Stage(s.promoters, p).claim, Stage(s.promoters, p).retry, Stage(s.promoters, p).queue, now);
      case StopPromoter(p) => GoKeeps(s, p, Free);
    }
  }

  lemma {:induction false} WorldRunKeeps(run: seq<World>, n: nat)
    requires IsRun(run) && n < |run|
    ensures Inv(run[n])
  {
    hide Enabled, Apply, Core.Inv, Core.Init;
    if n == 0 {
      InitKeeps(run[0].core);
    } else {
      WorldRunKeeps(run, n - 1);
      hide Inv;
      assert Next(run[n - 1], run[n - 1 + 1]);
      var a: Action :| Enabled(run[n - 1], a) && run[n] == Apply(run[n - 1], a);
      WorldStepKeeps(run[n - 1], a);
    }
  }

  lemma WorldReachableKeeps(s: World)
    requires Reachable(s)
    ensures Inv(s)
  {
    hide Inv, Init, Next;
    var run :| IsRun(run) && run[|run| - 1] == s;
    WorldRunKeeps(run, |run| - 1);
  }

  // --- What holds in every run -----------------------------------------------------------------

  lemma PromotionRequestInjective(v: WaitId, w: WaitId)
    requires PromotionRequest(v) == PromotionRequest(w)
    ensures v == w
  {
    assert v == PromotionRequest(v)[9..] && w == PromotionRequest(w)[9..];
  }

  /**
    A waitlist entry takes at most one seat over all leases, promoters and crashes, and no seat is
    taken for two entries: selections under promotion requests of one student determine each other.
   */
  lemma AtMostOneSeat(s: World, v: WaitId, w: WaitId, i: nat, j: nat)
    requires Reachable(s) && v in s.rows && w in s.rows && i < |s.core.log| && j < |s.core.log|
    requires Selects(s.core.log[i], v, s.rows[v]) && Selects(s.core.log[j], w, s.rows[w])
    requires s.rows[v].student == s.rows[w].student
    ensures i == j <==> v == w
  {
    hide Inv, Reachable;
    WorldReachableKeeps(s);
    CoreInv(s);
    if v == w {
      StockParts(s.core);
      hide QuotaLedger, SeatLedger, CourseLedger, CellLedger, Core.KeysOk, LiveNow;
    }
    if i == j {
      PromotionRequestInjective(v, w);
    }
  }

  lemma CoreInv(s: World)
    requires Inv(s)
    ensures Core.Inv(s.core)
  {
  }

  /** A promoted entry has its selection, under its own promotion request and for its own class. */
  lemma PromotedHasSelection(s: World, w: WaitId) returns (i: nat)
    requires Reachable(s) && w in s.rows && s.rows[w].state == Promoted
    ensures i < |s.core.log| && Selects(s.core.log[i], w, s.rows[w])
    ensures forall j :: 0 <= j < |s.core.log| && Selects(s.core.log[j], w, s.rows[w]) ==> j == i
  {
    hide Reachable;
    WorldReachableKeeps(s);
    hide Core.Inv, RowsOk, PromotersOk;
    i :| 0 <= i < |s.core.log| && Selects(s.core.log[i], w, s.rows[w]);
    forall j | 0 <= j < |s.core.log| && Selects(s.core.log[j], w, s.rows[w]) ensures j == i {
      AtMostOneSeat(s, w, w, i, j);
    }
  }

  /** The unique key is set exactly in the states waiting and promoting. */
  lemma ActiveKeyMeansActive(s: World, w: WaitId)
    requires Reachable(s) && w in s.rows
    ensures s.rows[w].activeKey.Some? <==> s.rows[w].state == Waiting || s.rows[w].state == Promoting
    ensures s.rows[w].activeKey.Some? ==> s.rows[w].activeKey.value == KeyOfRow(s.rows[w])
  {
    hide Reachable;
    WorldReachableKeeps(s);
    hide Core.Inv, PromotersOk, PromotedOk;
  }

  /** So a student has at most one active entry per class and round. */
  lemma OneActiveEntry(s: World, v: WaitId, w: WaitId)
    requires Reachable(s) && v in s.rows && w in s.rows && KeyOfRow(s.rows[v]) == KeyOfRow(s.rows[w])
    requires Active(s.rows[v].state) && Active(s.rows[w].state)
    ensures v == w
  {
    hide Reachable;
    WorldReachableKeeps(s);
    hide Core.Inv, PromotersOk, PromotedOk;
  }

  /** The unique index over requests holds in every reachable state, so a look-up by request finds one row. */
  lemma RequestsStayUnique(s: World)
    requires Reachable(s)
    ensures UniqueRequests(s.rows)
  {
    hide Reachable;
    WorldReachableKeeps(s);
    hide Core.Inv, PromotersOk, PromotedOk;
  }
}
