/** The waitlist table and its entries as records that change in place. */
module WaitlistStore {
  import opened Types
  import opened Waitlist

  /** The domain entry: its state and the times at which it left the queue. */
  class WaitlistEntry {
    const joinedAt: int
    var state: WaitState
    var failure: Option<Failure>
    var promotedAt: Option<int>
    var cancelledAt: Option<int>

    constructor (joinedAt: int)
      ensures state == Waiting && failure == None && promotedAt == None && cancelledAt == None
              && this.joinedAt == joinedAt
    {
      this.joinedAt := joinedAt;
      state, failure, promotedAt, cancelledAt := Waiting, None, None, None;
    }

    /** A waiting or promoting entry is cancelled; a cancelled one stays as it was; a promoted one refuses. */
    method Cancel(reason: Failure, at: int) returns (error: Option<Error>)
      modifies this
      ensures error == Some(InvalidParams) <==> !ValidFailure(reason) || at == ZERO_TIME || at < joinedAt
      ensures error == Some(InvalidState) <==> error != Some(InvalidParams) && old(state) == Promoted
      ensures error == None <==> error != Some(InvalidParams) && old(state) != Promoted
      ensures error == None && Active(old(state)) ==>
                state == WaitState.Cancelled && failure == Some(reason) && cancelledAt == Some(at)
                  && promotedAt == old(promotedAt)
      ensures error != None || !Active(old(state)) ==> unchanged(this)
    {
      if !ValidFailure(reason) || at == ZERO_TIME || at < joinedAt {
        return Some(InvalidParams);
      }
      match state {
        case Waiting =>
          state, failure, cancelledAt := WaitState.Cancelled, Some(reason), Some(at);
          return None;
        case Promoting =>
          state, failure, cancelledAt := WaitState.Cancelled, Some(reason), Some(at);
          return None;
        case Cancelled => return None;
        case Promoted => return Some(InvalidState);
      }
    }

    /** Only a promoting entry is promoted, and only once. */
    method MarkPromoted(at: int) returns (error: Option<Error>)
      modifies this
      ensures error == Some(InvalidParams) <==> at == ZERO_TIME || at < joinedAt
      ensures error == Some(InvalidState) <==>
              error != Some(InvalidParams) && (old(state) == Waiting || old(state) == WaitState.Cancelled)
      ensures error == None <==> error != Some(InvalidParams) && (old(state) == Promoting || old(state) == Promoted)
      ensures error == None && old(state) == Promoting ==>
                state == Promoted && promotedAt == Some(at) && failure == old(failure)
                  && cancelledAt == old(cancelledAt)
      ensures error != None || old(state) == Promoted ==> unchanged(this)
    {
      if at == ZERO_TIME || at < joinedAt {
        return Some(InvalidParams);
      }
      if state == Promoted {
        return None;
      }
      if state != Promoting {
        return Some(InvalidState);
      }
      state, promotedAt := Promoted, Some(at);
      return None;
    }
  }

  /** A waiting row that the joined round and class rows let through. */
  predicate Takeable(rows: Rows, w: WaitId, due: Row -> bool) {
    w in rows && rows[w].state == Waiting && due(rows[w])
  }

  /** The takeable rows in queue order. */
  function Queue(rows: Rows, order: seq<WaitId>, due: Row -> bool): seq<WaitId> {
    if order == [] then []
    else
      var w := order[|order| - 1];
      Queue(rows, order[..|order| - 1], due) + if Takeable(rows, w, due) then [w] else []
  }

  function FirstOf(queue: seq<WaitId>, limit: nat): seq<WaitId> {
    if |queue| <= limit then queue else queue[..limit]
  }

  function ClaimsOn(rows: Rows, ids: seq<WaitId>): seq<Claim>
    requires forall w :: w in ids ==> w in rows
  {
    seq(|ids|, i requires 0 <= i < |ids| => Claim(ids[i], rows[ids[i]].(state := Promoting)))
  }

  lemma {:induction false} QueueMembers(rows: Rows, order: seq<WaitId>, due: Row -> bool)
    ensures forall w :: w in Queue(rows, order, due) <==> w in order && Takeable(rows, w, due)
  {
    if order != [] {
      var n := |order| - 1;
      QueueMembers(rows, order[..n], due);
      assert order == order[..n] + [order[n]];
    }
  }

  lemma ClaimedIds(rows: Rows, ids: seq<WaitId>)
    requires forall w :: w in ids ==> w in rows
    ensures forall w :: w in ClaimIds(ClaimsOn(rows, ids)) <==> w in ids
  {
    var claims := ClaimsOn(rows, ids);
    forall w | w in ids ensures w in ClaimIds(claims) {
      var i :| 0 <= i < |ids| && ids[i] == w;
      assert claims[i].id == w;
    }
  }

  /** The locking query: the first takeable rows by position. */
  method SelectFirst(rows: Rows, order: seq<WaitId>, due: Row -> bool, limit: nat) returns (ids: seq<WaitId>)
    ensures ids == FirstOf(Queue(rows, order, due), limit)
  {
    ids := [];
    for i := 0 to |order|
      invariant ids == FirstOf(Queue(rows, order[..i], due), limit)
    {
      assert order[..i + 1][..i] == order[..i];
      if |ids| < limit && Takeable(rows, order[i], due) {
        ids := ids + [order[i]];
      }
    }
    assert order[..|order|] == order;
  }

  /** The guarded updates of the claimed rows, one at a time. */
  method LeaseEach(rows: Rows, ids: seq<WaitId>, ghost chosen: set<WaitId>, now: int) returns (rows': Rows)
    requires forall w :: w in ids ==> w in rows && rows[w].state == Waiting
    requires forall w :: w in chosen <==> w in ids
    ensures rows' == Lease(rows, chosen, now)
  {
    rows' := rows;
    for i := 0 to |ids|
      invariant rows'.Keys == rows.Keys
      invariant forall w :: w in rows ==>
                  rows'[w] == if w in ids[..i] then rows[w].(state := Promoting, updateTime := now) else rows[w]
    {
      assert ids[..i + 1] == ids[..i] + [ids[i]] && ids[i] in ids;
      if rows'[ids[i]].state == Waiting {
        rows' := rows'[ids[i] := rows'[ids[i]].(state := Promoting, updateTime := now)];
      }
    }
    assert ids[..|ids|] == ids;
  }

  /** The row of a request, through the index. */
  method FindRequest(rows: Rows, r: Row) returns (found: Option<WaitId>)
    ensures found == None <==> !RequestUsed(rows, r)
    ensures found.Some? ==> found.value in rows && SameRequest(rows[found.value], r)
  {
    var todo := rows.Keys;
    while todo != {}
      invariant todo <= rows.Keys && forall w :: w in rows && w !in todo ==> !SameRequest(rows[w], r)
      decreases todo
    {
      var w :| w in todo;
      if SameRequest(rows[w], r) {
        return Some(w);
      }
      todo := todo - {w};
    }
    return None;
  }

  method FindKey(rows: Rows, key: WaitKey) returns (found: bool)
    ensures found == KeyUsed(rows, key)
  {
    var todo := rows.Keys;
    while todo != {}
      invariant todo <= rows.Keys && forall w :: w in rows && w !in todo ==> rows[w].activeKey != Some(key)
      decreases todo
    {
      var w :| w in todo;
      if rows[w].activeKey == Some(key) {
        return true;
      }
      todo := todo - {w};
    }
    return false;
  }

  class Table {
    var rows: Rows

    /** The insert under the three unique keys, then the look-up by request and the comparison with the row found. */
    method JoinWaitlist(id: WaitId, row: Row) returns (answer: Result<WaitId, WaitError>)
      requires UniqueRequests(rows)
      modifies this
      ensures UniqueRequests(rows)
      ensures match Join(old(rows), id, row)
              case Ok(rows') => answer.Ok? && rows == rows'
              case Err(e) => answer == Err(e) && rows == old(rows)
      ensures answer.Ok? ==> answer.value in rows && SameIdentity(rows[answer.value], row)
      ensures answer.Ok? && rows != old(rows) ==>
                answer.value == id && id !in old(rows) && rows[id].state == Waiting && rows == old(rows)[id := rows[id]]
    {
      if row.state != Waiting {
        return Err(NotWaiting);
      }
      var existing := FindRequest(rows, row);
      var taken := FindKey(rows, KeyOfRow(row));
      if id !in rows && existing == None && !taken {
        rows := rows[id := row.(activeKey := Some(KeyOfRow(row)))];
        return Ok(id);
      }
      if existing == None {
        return Err(AlreadyExists);
      }
      return if SameIdentity(rows[existing.value], row) then Ok(existing.value) else Err(RequestReused);
    }

    /** Expired leases return to the queue one by one. */
    method ReclaimExpired(now: int)
      modifies this
      ensures old(UniqueRequests(rows)) ==> UniqueRequests(rows)
      ensures rows == Reclaim(old(rows), now)
    {
      var todo := rows.Keys;
      while todo != {}
        invariant todo <= rows.Keys && rows.Keys == old(rows).Keys
        invariant forall w :: w in rows ==> rows[w] == if w in todo then old(rows)[w] else Reclaim(old(rows), now)[w]
        decreases todo
      {
        var w :| w in todo;
        if rows[w].state == Promoting && rows[w].updateTime < now - LEASE_MS {
          rows := rows[w := rows[w].(state := Waiting, updateTime := now)];
        }
        todo := todo - {w};
      }
      assert rows == Reclaim(old(rows), now);
    }

    /** Leases the first takeable rows and hands them out. */
    method TakeLeases(order: seq<WaitId>, due: Row -> bool, now: int, limit: nat) returns (claims: seq<Claim>)
      modifies this
      ensures old(UniqueRequests(rows)) ==> UniqueRequests(rows)
      ensures Claimable(old(rows), claims) && rows == Lease(old(rows), ClaimIds(claims), now)
      ensures |claims| == |FirstOf(Queue(old(rows), order, due), limit)|
      ensures forall i :: 0 <= i < |claims| ==> claims[i].id == FirstOf(Queue(old(rows), order, due), limit)[i]
    {
      var ids := SelectFirst(rows, order, due, limit);
      QueueMembers(rows, order, due);
      assert forall w :: w in ids ==> Takeable(rows, w, due);
      claims := ClaimsOn(rows, ids);
      ClaimedIds(rows, ids);
      hide Queue, FirstOf;
      rows := LeaseEach(rows, ids, ClaimIds(claims), now);
    }

    /** Expired leases return first; `order` lists the rows by position and `due` is what the joined tables allow. */
    method ClaimPromotable(order: seq<WaitId>, due: Row -> bool, now: int, limit: nat) returns (claims: seq<Claim>)
      modifies this
      ensures old(UniqueRequests(rows)) ==> UniqueRequests(rows)
      ensures var free := Reclaim(old(rows), now);
              && Claimable(free, claims)
              && rows == Lease(free, ClaimIds(claims), now)
              && |claims| == |FirstOf(Queue(free, order, due), limit)|
              && forall i :: 0 <= i < |claims| ==> claims[i].id == FirstOf(Queue(free, order, due), limit)[i]
    {
      ReclaimExpired(now);
      hide Queue, FirstOf, Reclaim, Lease;
      claims := TakeLeases(order, due, now, limit);
    }

    /** The waiting rows of rounds that are over. */
    method ClaimExpired(order: seq<WaitId>, over: Row -> bool, now: int, limit: nat) returns (claims: seq<Claim>)
      modifies this
      ensures old(UniqueRequests(rows)) ==> UniqueRequests(rows)
      ensures Claimable(old(rows), claims) && rows == Lease(old(rows), ClaimIds(claims), now)
      ensures |claims| == |FirstOf(Queue(old(rows), order, over), limit)|
      ensures forall i :: 0 <= i < |claims| ==> claims[i].id == FirstOf(Queue(old(rows), order, over), limit)[i]
    {
      claims := TakeLeases(order, over, now, limit);
    }

    /** The conditional update that cancels an active row of the student. */
    method CancelWaitlist(id: WaitId, student: StudentId, now: int) returns (error: Option<WaitError>)
      modifies this
      ensures old(UniqueRequests(rows)) ==> UniqueRequests(rows)
      ensures match Cancel(old(rows), id, student, now)
              case Ok(rows') => error == None && rows == rows'
              case Err(e) => error == Some(e) && rows == old(rows)
    {
      if id !in rows || rows[id].student != student {
        return Some(RowMissing);
      }
      if Active(rows[id].state) {
        rows := rows[id := rows[id].(state := WaitState.Cancelled, activeKey := None, updateTime := now)];
        return None;
      }
      return if rows[id].state == WaitState.Cancelled then None else Some(WrongState);
    }

    method MarkPromoted(id: WaitId, now: int) returns (error: Option<WaitError>)
      modifies this
      ensures old(UniqueRequests(rows)) ==> UniqueRequests(rows)
      ensures match Waitlist.MarkPromoted(old(rows), id, now)
              case Ok(rows') => error == None && rows == rows'
              case Err(e) => error == Some(e) && rows == old(rows)
    {
      if id !in rows || rows[id].state != Promoting {
        return Some(WrongState);
      }
      rows := rows[id := rows[id].(state := Promoted, activeKey := None, updateTime := now)];
      return None;
    }

    method ReturnToQueue(id: WaitId, now: int)
      modifies this
      ensures old(UniqueRequests(rows)) ==> UniqueRequests(rows)
      ensures rows == Waitlist.ReturnToQueue(old(rows), id, now)
    {
      if id in rows && rows[id].state == Promoting {
        rows := rows[id := rows[id].(state := Waiting, updateTime := now)];
      }
    }
  }
}
