/**
  The transactional outbox: leased claims, publishing, and the conditional marks. Dispatchers
  interleave freely and may stop anywhere; marks are guarded by the row state alone.
 */
module Outbox {
  import opened Types

  datatype EventState = Pending | Publishing | Failed | Published

  datatype Row = Row(state: EventState, retryCount: nat, nextRetryAt: int, updateTime: int)

  type EventId = nat
  type Rows = map<EventId, Row>

  const LEASE_MS: int := 60_000
  const MAX_DELAY_MS: int := 300_000

  /** The rows a claim at time `now` may take. */
  predicate Claimable(r: Row, now: int) {
    || ((r.state == Pending || r.state == Failed) && r.nextRetryAt <= now)
    || (r.state == Publishing && r.updateTime <= now - LEASE_MS)
  }

  function Claimed(r: Row, now: int): Row {
    Row(Publishing, r.retryCount + 1, now + LEASE_MS, now)
  }

  function Claim(rows: Rows, chosen: set<EventId>, now: int): Rows {
    map e | e in rows :: if e in chosen then Claimed(rows[e], now) else rows[e]
  }

  function MarkPublished(rows: Rows, e: EventId, at: int): Rows {
    if e in rows && rows[e].state == Publishing then rows[e := rows[e].(state := Published, updateTime := at)] else rows
  }

  function MarkFailed(rows: Rows, e: EventId, nextRetryAt: int, now: int): Rows {
    if e in rows && rows[e].state == Publishing
    then rows[e := rows[e].(state := Failed, nextRetryAt := nextRetryAt, updateTime := now)] else rows
  }

  function Power(n: nat): nat {
    if n == 0 then 1 else 2 * Power(n - 1)
  }

  /** Doubling from one second, with the exponent capped at eight. */
  function RetryDelay(retryCount: nat): int {
    var delay := 1000 * Power(if retryCount < 8 then retryCount else 8);
    if delay > MAX_DELAY_MS then MAX_DELAY_MS else delay
  }

  // --- Dispatchers -----------------------------------------------------------------------------

  /** A goroutine that holds one claimed event. */
  datatype Worker =
    | Idle
    | Sending(event: EventId, retryCount: nat)
    | Sent(event: EventId)
    | Erring(event: EventId, retryCount: nat)

  datatype PublishReply = Confirmed | ConfirmLost | NotAccepted

  /** `accepted` records the events that the broker accepted at least once. */
  datatype Relay = Relay(rows: Rows, accepted: set<EventId>, workers: map<nat, Worker>)

  datatype Action =
    | Append(e: EventId, at: int)
    | ClaimBatch(jobs: map<nat, EventId>, now: int)
    | Publish(w: nat, reply: PublishReply)
    | Finish(w: nat, at: int)
    | GiveUp(w: nat, now: int)
    | Stop(w: nat)

  function Job(workers: map<nat, Worker>, w: nat): Worker {
    if w in workers then workers[w] else Idle
  }

  ghost predicate Enabled(s: Relay, a: Action) {
    match a
    case Append(e, _) => e !in s.rows
    case ClaimBatch(jobs, now) =>
      && (forall w :: w in jobs ==> Job(s.workers, w).Idle? && jobs[w] in s.rows && Claimable(s.rows[jobs[w]], now))
      && (forall v, w :: v in jobs && w in jobs && v != w ==> jobs[v] != jobs[w])
    case Publish(w, _) => Job(s.workers, w).Sending?
    case Finish(w, _) => Job(s.workers, w).Sent?
    case GiveUp(w, _) => Job(s.workers, w).Erring?
    case Stop(w) => true
  }

  function Start(workers: map<nat, Worker>, rows: Rows, jobs: map<nat, EventId>): map<nat, Worker>
    requires forall w :: w in jobs ==> jobs[w] in rows
  {
    map w | w in workers.Keys + jobs.Keys ::
      if w in jobs then Sending(jobs[w], rows[jobs[w]].retryCount + 1) else workers[w]
  }

  ghost function Apply(s: Relay, a: Action): Relay
    requires Enabled(s, a)
  {
    match a
    case Append(e, at) => s.(rows := s.rows[e := Row(Pending, 0, at, at)])
    case ClaimBatch(jobs, now) =>
      s.(rows := Claim(s.rows, jobs.Values, now), workers := Start(s.workers, s.rows, jobs))
    case Publish(w, reply) =>
      var e, n := Job(s.workers, w).event, Job(s.workers, w).retryCount;
      Relay(s.rows, if reply == NotAccepted then s.accepted else s.accepted + {e},
            s.workers[w := if reply == Confirmed then Sent(e) else Erring(e, n)])
    case Finish(w, at) =>
      s.(rows := MarkPublished(s.rows, Job(s.workers, w).event, at), workers := s.workers[w := Idle])
    case GiveUp(w, now) =>
      var e, n := Job(s.workers, w).event, Job(s.workers, w).retryCount;
      s.(rows := MarkFailed(s.rows, e, now + RetryDelay(n), now), workers := s.workers[w := Idle])
    case Stop(w) => s.(workers := s.workers[w := Idle])
  }

  ghost predicate Inv(s: Relay) {
    && (forall e :: e in s.rows && s.rows[e].state == Published ==> e in s.accepted)
    && (forall e :: e in s.rows && s.rows[e].state == Publishing ==>
          s.rows[e].nextRetryAt == s.rows[e].updateTime + LEASE_MS)
    && (forall w :: w in s.workers && s.workers[w].Sent? ==> s.workers[w].event in s.accepted)
  }

  /** A history: the states along the way and the actions between them. */
  datatype History = History(states: seq<Relay>, actions: seq<Action>)

  ghost predicate IsHistory(h: History) {
    && |h.states| == |h.actions| + 1 && h.states[0] == Relay(map[], {}, map[])
    && forall i :: 0 <= i < |h.actions| ==>
         Enabled(h.states[i], h.actions[i]) && h.states[i + 1] == Apply(h.states[i], h.actions[i])
  }

  lemma StepKeeps(s: Relay, a: Action)
    requires Inv(s) && Enabled(s, a)
    ensures Inv(Apply(s, a))
  {
  }

  lemma {:induction false} HistoryKeeps(h: History, n: nat)
    requires IsHistory(h) && n < |h.states|
    ensures Inv(h.states[n])
  {
    if n > 0 {
      HistoryKeeps(h, n - 1);
      StepKeeps(h.states[n - 1], h.actions[n - 1]);
    }
  }

  /** Published is terminal, and the broker has then accepted the event at least once. */
  lemma {:induction false} PublishedForever(h: History, i: nat, j: nat, e: EventId)
    requires IsHistory(h) && i <= j < |h.states| && e in h.states[i].rows && h.states[i].rows[e].state == Published
    ensures e in h.states[j].rows && h.states[j].rows[e] == h.states[i].rows[e] && e in h.states[j].accepted
    decreases j
  {
    HistoryKeeps(h, j);
    hide Apply, Enabled;
    if i < j {
      PublishedForever(h, i, j - 1, e);
      PublishedStays(h.states[j - 1], h.actions[j - 1], e);
    }
  }

  lemma PublishedStays(s: Relay, a: Action, e: EventId)
    requires Enabled(s, a) && e in s.rows && s.rows[e].state == Published
    ensures e in Apply(s, a).rows && Apply(s, a).rows[e] == s.rows[e]
  {
    if a.ClaimBatch? {
      assert e !in a.jobs.Values;
    }
  }

  /** An unpublished event may be claimed exactly from its next_retry_at on, whatever happened to it. */
  lemma ClaimableFromRetryTime(h: History, n: nat, e: EventId, now: int)
    requires IsHistory(h) && n < |h.states| && e in h.states[n].rows
    ensures Claimable(h.states[n].rows[e], now)
            <==> h.states[n].rows[e].state != Published && h.states[n].rows[e].nextRetryAt <= now
  {
    HistoryKeeps(h, n);
  }

  /** An event is lost to no lease: it is claimable at the later of its retry time and the end of its lease. */
  lemma ClaimableInTime(h: History, n: nat, e: EventId, now: int)
    requires IsHistory(h) && n < |h.states| && e in h.states[n].rows && h.states[n].rows[e].state != Published
    requires now >= h.states[n].rows[e].nextRetryAt && now >= h.states[n].rows[e].updateTime + LEASE_MS
    ensures Claimable(h.states[n].rows[e], now)
  {
    ClaimableFromRetryTime(h, n, e, now);
  }

  ghost predicate Takes(a: Action, e: EventId, now: int) {
    a.ClaimBatch? && a.now == now && e in a.jobs.Values
  }

  ghost predicate Fails(s: Relay, a: Action, e: EventId) {
    a.GiveUp? && Job(s.workers, a.w).Erring? && Job(s.workers, a.w).event == e
  }

  /** Held since `t`: still publishing under a lease taken at or after `t`, or published. */
  ghost predicate Held(r: Row, t: int) {
    r.state == Published || (r.state == Publishing && r.updateTime >= t)
  }

  lemma HeldStep(s: Relay, a: Action, e: EventId, t: int)
    requires Enabled(s, a) && e in s.rows && Held(s.rows[e], t) && !Fails(s, a, e)
    ensures e in Apply(s, a).rows && Held(Apply(s, a).rows[e], t)
  {
    if a.ClaimBatch? && e in a.jobs.Values {
      var w :| w in a.jobs && a.jobs[w] == e;
      assert Claimable(s.rows[e], a.now);
    }
  }

  lemma {:induction false} HeldUntilFailed(h: History, i: nat, j: nat, e: EventId, t: int)
    requires IsHistory(h) && i < |h.actions| && i < j < |h.states| && Takes(h.actions[i], e, t)
    requires forall k :: i < k < j ==> !Fails(h.states[k], h.actions[k], e)
    ensures e in h.states[j].rows && Held(h.states[j].rows[e], t)
    decreases j
  {
    if j == i + 1 {
      var w :| w in h.actions[i].jobs && h.actions[i].jobs[w] == e;
    } else {
      HeldUntilFailed(h, i, j - 1, e, t);
      HeldStep(h.states[j - 1], h.actions[j - 1], e, t);
    }
  }

  /** A claimed event is not handed out again within its lease unless it was marked failed in between. */
  lemma LeaseExcludes(h: History, i: nat, j: nat, e: EventId, t: int, t': int)
    requires IsHistory(h) && i < j < |h.actions| && Takes(h.actions[i], e, t) && Takes(h.actions[j], e, t')
    requires forall k :: i < k < j ==> !Fails(h.states[k], h.actions[k], e)
    ensures t' >= t + LEASE_MS
  {
    HeldUntilFailed(h, i, j, e, t);
    var w :| w in h.actions[j].jobs && h.actions[j].jobs[w] == e;
    assert Claimable(h.states[j].rows[e], t');
  }

  /** The delay grows from one second to 256 seconds, so the five-minute cap is never reached. */
  lemma DelayBounds(n: nat)
    ensures 1000 <= RetryDelay(n) <= 256_000
    ensures RetryDelay(n) <= RetryDelay(n + 1)
    ensures n >= 8 ==> RetryDelay(n) == 256_000
  {
    assert Power(8) == 256;
    PowerMonotone(if n < 8 then n else 8, 8);
    PowerMonotone(if n < 8 then n else 8, if n + 1 < 8 then n + 1 else 8);
  }

  lemma {:induction false} PowerMonotone(a: nat, b: nat)
    requires a <= b
    ensures 1 <= Power(a) <= Power(b)
    decreases b
  {
    if a < b {
      PowerMonotone(a, b - 1);
    } else if a > 0 {
      PowerMonotone(a - 1, b - 1);
    }
  }

  // --- The table in place ----------------------------------------------------------------------

  /** The claimable events in id order. */
  function Due(rows: Rows, order: seq<EventId>, now: int): seq<EventId> {
    if order == [] then []
    else
      var e := order[|order| - 1];
      Due(rows, order[..|order| - 1], now) + if e in rows && Claimable(rows[e], now) then [e] else []
  }

  lemma {:induction false} DueMembers(rows: Rows, order: seq<EventId>, now: int)
    ensures forall e :: e in Due(rows, order, now) <==> e in order && e in rows && Claimable(rows[e], now)
  {
    if order != [] {
      var n := |order| - 1;
      DueMembers(rows, order[..n], now);
      assert order == order[..n] + [order[n]];
    }
  }

  function First(ids: seq<EventId>, limit: nat): seq<EventId> {
    if |ids| <= limit then ids else ids[..limit]
  }

  /** The locking query: due rows by ascending id, up to the limit. */
  method SelectDue(rows: Rows, order: seq<EventId>, limit: nat, now: int) returns (ids: seq<EventId>)
    ensures ids == First(Due(rows, order, now), limit)
  {
    ids := [];
    for i := 0 to |order|
      invariant ids == First(Due(rows, order[..i], now), limit)
    {
      assert order[..i + 1][..i] == order[..i];
      if |ids| < limit && order[i] in rows && Claimable(rows[order[i]], now) {
        ids := ids + [order[i]];
      }
    }
    assert order[..|order|] == order;
  }

  class Repository {
    var rows: Rows

    /** Claims the first due events, all in one update; `order` lists the ids ascending. */
    method ClaimPending(order: seq<EventId>, limit: nat, now: int) returns (claimed: seq<EventId>)
      modifies this
      ensures claimed == First(Due(old(rows), order, now), limit)
      ensures rows == Claim(old(rows), (set e | e in claimed), now)
      ensures forall e :: e in claimed ==> e in old(rows) && Claimable(old(rows)[e], now)
    {
      claimed := SelectDue(rows, order, limit, now);
      DueMembers(rows, order, now);
      var ids := set e | e in claimed;
      rows := map e | e in rows :: if e in ids then Claimed(rows[e], now) else rows[e];
    }

    method SetPublished(e: EventId, at: int) returns (affected: nat)
      modifies this
      ensures rows == MarkPublished(old(rows), e, at)
      ensures affected == if e in old(rows) && old(rows)[e].state == Publishing then 1 else 0
    {
      if e in rows && rows[e].state == Publishing {
        rows := rows[e := rows[e].(state := Published, updateTime := at)];
        return 1;
      }
      return 0;
    }

    method SetFailed(e: EventId, nextRetryAt: int, now: int) returns (affected: nat)
      modifies this
      ensures rows == MarkFailed(old(rows), e, nextRetryAt, now)
      ensures affected == if e in old(rows) && old(rows)[e].state == Publishing then 1 else 0
    {
      if e in rows && rows[e].state == Publishing {
        rows := rows[e := rows[e].(state := Failed, nextRetryAt := nextRetryAt, updateTime := now)];
        return 1;
      }
      return 0;
    }
  }

  // --- The dispatcher's loop -------------------------------------------------------------------

  const BATCH_SIZE: nat := 100
  const BATCHES_PER_RUN: nat := 10

  ghost predicate DistinctIds(ids: seq<EventId>) {
    forall i, j :: 0 <= i < j < |ids| ==> ids[i] != ids[j]
  }

  /** One attempt: the broker's reply, the mark that follows it, and the clock at the mark. */
  datatype Attempt = Attempt(reply: PublishReply, mark: Call, at: int)

  /** A claimed row after its own attempt; a mark that did not run leaves it under its lease. */
  function Attempted(r: Row, attempt: Attempt): Row {
    if attempt.mark == Down then r
    else if attempt.reply == Confirmed then r.(state := Published, updateTime := attempt.at)
    else r.(state := Failed, nextRetryAt := attempt.at + RetryDelay(r.retryCount), updateTime := attempt.at)
  }

  predicate Succeeds(attempt: Attempt) {
    attempt.reply == Confirmed && attempt.mark == Answered
  }

  /** The rows after a claimed batch was published, each event with its own attempt. */
  function Dispatched(rows: Rows, claimed: seq<EventId>, attempts: EventId -> Attempt): Rows {
    map e | e in rows :: if e in claimed then Attempted(rows[e], attempts(e)) else rows[e]
  }

  /** An event claimed at `now` and marked no earlier is published, leased, or waits at least a second. */
  lemma AttemptedIsNotDue(r: Row, attempt: Attempt, now: int)
    requires now <= attempt.at
    ensures !Claimable(Attempted(Claimed(r, now), attempt), now)
  {
    DelayBounds(r.retryCount + 1);
  }

  lemma FirstOfDistinct(rows: Rows, order: seq<EventId>, limit: nat, now: int)
    requires DistinctIds(order)
    ensures DistinctIds(First(Due(rows, order, now), limit))
  {
    DueDistinct(rows, order, now);
  }

  lemma {:induction false} DueDistinct(rows: Rows, order: seq<EventId>, now: int)
    requires DistinctIds(order)
    ensures DistinctIds(Due(rows, order, now))
  {
    if order != [] {
      var n := |order| - 1;
      DueDistinct(rows, order[..n], now);
      DueMembers(rows, order[..n], now);
      var rest := Due(rows, order[..n], now);
      forall i | 0 <= i < |rest| ensures rest[i] != order[n] {
        assert rest[i] in order[..n];
      }
    }
  }

  /** How a run of the dispatcher ends: after a short batch, after its last batch, or at a failing claim. */
  datatype End = Drained(batch: nat) | Spent | ClaimFailed(batch: nat)

  class Dispatcher {
    const repository: Repository
    var accepted: set<EventId>

    constructor (repository: Repository)
      ensures this.repository == repository && accepted == {}
    {
      this.repository, accepted := repository, {};
    }

    /** Publishes one claimed event and marks it, if it still is publishing. */
    method Dispatch(e: EventId, retryCount: nat, attempt: Attempt) returns (failed: bool)
      modifies this, repository
      ensures var rows := old(repository.rows);
              repository.rows == if attempt.mark == Down then rows
                                 else if attempt.reply == Confirmed then MarkPublished(rows, e, attempt.at)
                                 else MarkFailed(rows, e, attempt.at + RetryDelay(retryCount), attempt.at)
      ensures accepted == if attempt.reply == NotAccepted then old(accepted) else old(accepted) + {e}
      ensures !failed <==> Succeeds(attempt) && e in old(repository.rows) && old(repository.rows)[e].state == Publishing
    {
      if attempt.reply != NotAccepted {
        accepted := accepted + {e};
      }
      if attempt.reply != Confirmed {
        if attempt.mark != Down {
          var _ := repository.SetFailed(e, attempt.at + RetryDelay(retryCount), attempt.at);
        }
        return true;
      }
      var affected := 0;
      if attempt.mark != Down {
        affected := repository.SetPublished(e, attempt.at);
      }
      return attempt.mark != Answered || affected != 1;
    }

    /** The events of a batch are independent of each other, so their order does not matter. */
    method DispatchBatch(claimed: seq<EventId>, attempts: EventId -> Attempt) returns (failed: bool)
      requires DistinctIds(claimed)
      requires forall e :: e in claimed ==> e in repository.rows && repository.rows[e].state == Publishing
      modifies this, repository
      ensures repository.rows == Dispatched(old(repository.rows), claimed, attempts)
      ensures accepted == old(accepted) + set e | e in claimed && attempts(e).reply != NotAccepted
      ensures !failed <==> forall e :: e in claimed ==> Succeeds(attempts(e))
    {
      hide RetryDelay, Succeeds;
      failed := false;
      for i := 0 to |claimed|
        invariant repository.rows == Dispatched(old(repository.rows), claimed[..i], attempts)
        invariant accepted == old(accepted) + set e | e in claimed[..i] && attempts(e).reply != NotAccepted
        invariant !failed <==> forall e :: e in claimed[..i] ==> Succeeds(attempts(e))
      {
        var e := claimed[i];
        assert e !in claimed[..i] && e in claimed;
        assert claimed[..i + 1] == claimed[..i] + [e];
        var fails := Dispatch(e, repository.rows[e].retryCount, attempts(e));
        failed := failed || fails;
      }
      assert claimed[..|claimed|] == claimed;
    }

    /** Claims and publishes one batch. A claim whose answer is lost has leased its rows all the same. */
    method DispatchNext(order: seq<EventId>, claim: Call, attempts: EventId -> Attempt, now: int)
      returns (count: nat, failed: bool)
      requires DistinctIds(order)
      modifies this, repository
      ensures var due := First(Due(old(repository.rows), order, now), BATCH_SIZE);
              var claimed := Claim(old(repository.rows), (set e | e in due), now);
              match claim
              case Down => repository.rows == old(repository.rows) && accepted == old(accepted) && failed && count == 0
              case Lost => repository.rows == claimed && accepted == old(accepted) && failed && count == 0
              case Answered =>
                && count == |due|
                && repository.rows == Dispatched(claimed, due, attempts)
                && accepted == old(accepted) + (set e | e in due && attempts(e).reply != NotAccepted)
                && (!failed <==> forall e :: e in due ==> Succeeds(attempts(e)))
    {
      FirstOfDistinct(repository.rows, order, BATCH_SIZE, now);
      hide Due, First, Succeeds;
      if claim == Down {
        return 0, true;
      }
      var claimed := repository.ClaimPending(order, BATCH_SIZE, now);
      if claim == Lost {
        return 0, true;
      }
      failed := DispatchBatch(claimed, attempts);
      count := |claimed|;
    }

    /** The published rows are among the accepted ones. */
    ghost predicate Safe()
      reads this, repository
    {
      forall e :: e in repository.rows && repository.rows[e].state == Published ==> e in accepted
    }

    /**
      DispatchPending: up to ten batches, each claimed and each event marked at its own time, ending early
      after a short batch or a failing claim. After a short batch no listed event is due at the time of
      its claim, unless a mark reads an earlier clock; and when nothing failed, every listed event that
      was due at that time before the run is published.
     */
    method DispatchPending(
      order: seq<EventId>, claims: nat -> Call, attempts: nat -> EventId -> Attempt, clock: nat -> int)
      returns (processed: nat, failed: bool, end: End)
      requires DistinctIds(order) && Safe()
      modifies this, repository
      ensures Safe() && repository.rows.Keys == old(repository.rows).Keys
      ensures old(accepted) <= accepted
      ensures forall e :: e in old(repository.rows) && old(repository.rows)[e].state == Published ==>
                repository.rows[e] == old(repository.rows)[e]
      ensures match end
              case Drained(batch) =>
                && (forall e :: e in order && e in repository.rows && clock(batch) <= attempts(batch)(e).at ==>
                      !Claimable(repository.rows[e], clock(batch)))
                && (!failed ==>
                      forall e :: e in order && e in old(repository.rows)
                                  && Claimable(old(repository.rows)[e], clock(batch)) ==>
                        repository.rows[e].state == Published)
              case Spent => processed == BATCH_SIZE * BATCHES_PER_RUN
              case ClaimFailed(batch) => failed && claims(batch) != Answered && processed == BATCH_SIZE * batch
    {
      processed, failed, end := 0, false, Spent;
      for batch := 0 to BATCHES_PER_RUN
        invariant Safe() && repository.rows.Keys == old(repository.rows).Keys && old(accepted) <= accepted
        invariant processed == BATCH_SIZE * batch && end == Spent
        invariant forall e :: e in old(repository.rows) && old(repository.rows)[e].state == Published ==>
                    repository.rows[e] == old(repository.rows)[e]
        invariant !failed ==> forall e :: e in old(repository.rows) ==>
                    repository.rows[e] == old(repository.rows)[e] || repository.rows[e].state == Published
      {
        var now := clock(batch);
        ghost var rows, safe := repository.rows, accepted;
        ClaimKeepsPublished(rows, order, now);
        Drains(rows, order, attempts(batch), now, safe);
        var count, fails := DispatchNext(order, claims(batch), attempts(batch), now);
        failed := failed || fails;
        if claims(batch) != Answered {
          return processed, true, ClaimFailed(batch);
        }
        processed := processed + count;
        if count < BATCH_SIZE {
          return processed, failed, Drained(batch);
        }
      }
    }
  }

  /** A claim leaves published rows as they are. */
  lemma ClaimKeepsPublished(rows: Rows, order: seq<EventId>, now: int)
    ensures var claimed := Claim(rows, (set e | e in First(Due(rows, order, now), BATCH_SIZE)), now);
            && claimed.Keys == rows.Keys
            && (forall e :: e in rows && (rows[e].state == Published || claimed[e].state == Published) ==>
                claimed[e] == rows[e])
  {
    DueMembers(rows, order, now);
    assert forall e :: e in First(Due(rows, order, now), BATCH_SIZE) ==> e in Due(rows, order, now);
  }

  /**
    What one batch leaves: unclaimed rows as they were, published rows accepted, and, after a short batch,
    nothing due.
   */
  lemma Drains(rows: Rows, order: seq<EventId>, attempts: EventId -> Attempt, now: int, accepted: set<EventId>)
    requires forall e :: e in rows && rows[e].state == Published ==> e in accepted
    ensures var due := First(Due(rows, order, now), BATCH_SIZE);
            var rows' := Dispatched(Claim(rows, (set e | e in due), now), due, attempts);
            && rows'.Keys == rows.Keys
            && (forall e :: e in rows && rows[e].state == Published ==> rows'[e] == rows[e])
            && (forall e :: e in rows' && rows'[e].state == Published ==>
                  e in accepted + set e | e in due && attempts(e).reply != NotAccepted)
            && (forall e :: e in rows' ==> rows'[e] == rows[e] || !Succeeds(attempts(e)) || rows'[e].state == Published)
            && (forall e :: e in rows' && rows'[e] != rows[e] ==> e in due)
            && (|due| < BATCH_SIZE ==> forall e :: e in order && e in rows' && now <= attempts(e).at ==>
                  !Claimable(rows'[e], now))
            && (|due| < BATCH_SIZE ==> forall e :: e in order && e in rows && Claimable(rows[e], now) ==> e in due)
  {
    var due := First(Due(rows, order, now), BATCH_SIZE);
    DueMembers(rows, order, now);
    assert forall e :: e in due ==> e in Due(rows, order, now);
    assert |due| < BATCH_SIZE ==> due == Due(rows, order, now);
    hide Due, First, RetryDelay, Attempted, Succeeds;
    DispatchedRows(rows, due, attempts, now);
  }

  /** A claimed batch after its attempts. */
  lemma DispatchedRows(rows: Rows, due: seq<EventId>, attempts: EventId -> Attempt, now: int)
    requires forall e :: e in due ==> e in rows && Claimable(rows[e], now)
    ensures var rows' := Dispatched(Claim(rows, (set e | e in due), now), due, attempts);
            && rows'.Keys == rows.Keys
            && (forall e :: e in rows && e !in due ==> rows'[e] == rows[e])
            && (forall e :: e in due ==>
                  && (rows'[e].state == Published ==> attempts(e).reply != NotAccepted)
                  && (Succeeds(attempts(e)) ==> rows'[e].state == Published)
                  && (now <= attempts(e).at ==> !Claimable(rows'[e], now)))
  {
    hide RetryDelay;
    var rows' := Dispatched(Claim(rows, (set e | e in due), now), due, attempts);
    forall e | e in due && now <= attempts(e).at ensures !Claimable(rows'[e], now) {
      AttemptedIsNotDue(rows[e], attempts(e), now);
    }
  }
}
