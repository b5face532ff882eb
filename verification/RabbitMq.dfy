/**
  Failure routing of the message consumer: which deliveries are acknowledged, copied to a retry queue,
  dead-lettered or requeued, one at a time or a batch at once.
 */
module RabbitMq {
  import opened Types
  import opened CreditCodec

  const DEFAULT_MAX_RETRIES: int := 3
  const DEFAULT_DELAYS: seq<int> := [1000, 5000, 30_000]
  const MAX_INT64: int := 0x7fff_ffff_ffff_ffff

  // --- The retry policy ------------------------------------------------------------------------

  datatype Policy = Policy(maxRetries: int, delays: seq<int>)

  predicate ValidPolicy(p: Policy) {
    p.maxRetries > 0 && |p.delays| > 0 && forall i :: 0 <= i < |p.delays| ==> p.delays[i] > 0
  }

  /** The configured delays that are usable, in their order. */
  function Positive(delays: seq<int>): seq<int> {
    if delays == [] then []
    else
      var n := |delays| - 1;
      Positive(delays[..n]) + if delays[n] > 0 then [delays[n]] else []
  }

  lemma {:induction false} PositiveMeans(delays: seq<int>)
    ensures forall d :: d in Positive(delays) <==> d in delays && d > 0
    ensures (forall d :: d in delays ==> d > 0) ==> Positive(delays) == delays
  {
    if delays != [] {
      var n := |delays| - 1;
      PositiveMeans(delays[..n]);
      assert delays == delays[..n] + [delays[n]];
      if forall d :: d in delays ==> d > 0 {
        assert delays[n] in delays;
        assert forall d :: d in delays[..n] ==> d in delays;
      }
    }
  }

  method KeepPositive(delays: seq<int>) returns (kept: seq<int>)
    ensures kept == Positive(delays)
  {
    kept := [];
    for i := 0 to |delays|
      invariant kept == Positive(delays[..i])
    {
      assert delays[..i + 1][..i] == delays[..i];
      if delays[i] > 0 {
        kept := kept + [delays[i]];
      }
    }
    assert delays[..|delays|] == delays;
  }

  lemma PositiveIsValid(maxRetries: int, delays: seq<int>)
    requires maxRetries > 0 && Positive(delays) != []
    ensures ValidPolicy(Policy(maxRetries, Positive(delays)))
  {
    PositiveMeans(delays);
    hide Positive;
    var kept := Positive(delays);
    forall i | 0 <= i < |kept| ensures kept[i] > 0 {
      assert kept[i] in kept;
    }
  }

  lemma DefaultIsValid(maxRetries: int)
    requires maxRetries > 0
    ensures ValidPolicy(Policy(maxRetries, DEFAULT_DELAYS))
  {
  }

  /** Unusable settings fall back to the defaults, so a policy is always valid. */
  method NewPolicy(maxRetries: int, delays: seq<int>) returns (p: Policy)
    ensures ValidPolicy(p)
    ensures p.maxRetries == if maxRetries > 0 then maxRetries else DEFAULT_MAX_RETRIES
    ensures p.delays == if Positive(delays) == [] then DEFAULT_DELAYS else Positive(delays)
  {
    hide Positive, ValidPolicy;
    var retries := if maxRetries <= 0 then DEFAULT_MAX_RETRIES else maxRetries;
    var kept := KeepPositive(delays);
    if kept == [] {
      kept := DEFAULT_DELAYS;
      DefaultIsValid(retries);
    } else {
      PositiveIsValid(retries, delays);
    }
    p := Policy(retries, kept);
  }

  function Delay(p: Policy, retryNumber: int): (d: int)
    requires ValidPolicy(p)
    ensures d > 0
    ensures 1 <= retryNumber <= |p.delays| ==> d == p.delays[retryNumber - 1]
    ensures retryNumber > |p.delays| ==> d == p.delays[|p.delays| - 1]
  {
    var n := if retryNumber <= 0 then 1 else retryNumber;
    p.delays[if n - 1 < |p.delays| - 1 then n - 1 else |p.delays| - 1]
  }

  // --- The retry counter in the message header -------------------------------------------------

  datatype Header = Missing | Number(number: int) | Text(text: string) | Other

  function AtLeastZero(n: int): nat {
    if n > 0 then n else 0
  }

  /** deliveryRetryCount. */
  function ReadCount(h: Header): nat {
    match h
    case Missing => 0
    case Number(n) => AtLeastZero(n)
    case Text(s) => (match ParseInt(s, MAX_INT64) case Some(n) => AtLeastZero(n) case None => 0)
    case Other => 0
  }

  /** The header is written as a 32-bit integer. */
  function WriteCount(n: int): Header {
    Number(Wrap(n))
  }

  // --- One delivery ----------------------------------------------------------------------------

  /** What the listener said about a message. */
  datatype Outcome = Done | Fault(retry: bool)

  datatype Settlement = Acked | Requeued

  datatype Copy = NoCopy | RetryCopy(number: int, header: Header) | DeadCopy(header: Header)

  datatype Decision = Decision(settlement: Settlement, copy: Copy)

  /** The broker's word on a copy: confirmed and routed, or unknown, in which case it may have kept the copy or not. */
  datatype Routing = Confirmed | Unknown(kept: bool)

  /** Where a failed message is sent. */
  function Target(policy: Policy, h: Header, retry: bool): Copy {
    var count := ReadCount(h);
    if retry && count < policy.maxRetries then RetryCopy(count + 1, WriteCount(count + 1))
    else DeadCopy(WriteCount(count))
  }

  /** handleDeliveryOutcome: a failed message is copied first and acknowledged only once the copy is confirmed. */
  function Decide(policy: Policy, h: Header, outcome: Outcome, routing: Routing): Decision {
    if outcome == Done then Decision(Acked, NoCopy)
    else
      match routing
      case Confirmed => Decision(Acked, Target(policy, h, outcome.retry))
      case Unknown(kept) => Decision(Requeued, if kept then Target(policy, h, outcome.retry) else NoCopy)
  }

  /** A message that was not handled is still in its own queue or in a retry queue or the dead-letter queue. */
  lemma NeverDropped(policy: Policy, h: Header, outcome: Outcome, routing: Routing)
    ensures var d := Decide(policy, h, outcome, routing);
            && (d.settlement == Acked <==> outcome == Done || routing == Confirmed)
            && (outcome != Done ==> d.settlement == Requeued || d.copy != NoCopy)
            && (outcome == Done ==> d.copy == NoCopy)
            && (d.copy.DeadCopy? ==> !outcome.retry || ReadCount(h) >= policy.maxRetries)
  {
  }

  /** The retry number always names one of the declared queues. */
  lemma RetryNumberDeclared(policy: Policy, h: Header, outcome: Outcome, routing: Routing)
    ensures var d := Decide(policy, h, outcome, routing);
            d.copy.RetryCopy? ==> 1 <= d.copy.number <= policy.maxRetries
  {
  }

  // --- A message that always fails -------------------------------------------------------------

  /** The counter that the k-th handling reads when every earlier one was retried. */
  function NthCount(k: nat): nat {
    if k == 0 then ReadCount(Missing) else ReadCount(WriteCount(NthCount(k - 1) + 1))
  }

  function NthHeader(k: nat): Header {
    if k == 0 then Missing else WriteCount(NthCount(k - 1) + 1)
  }

  lemma WrittenCount(n: nat)
    requires n <= MAX_INT32
    ensures ReadCount(WriteCount(n + 1)) == if n < MAX_INT32 then n + 1 else 0
  {
  }

  lemma {:induction false} CountsUp(k: nat)
    ensures NthCount(k) <= MAX_INT32
    ensures k <= MAX_INT32 ==> NthCount(k) == k
  {
    if k > 0 {
      CountsUp(k - 1);
      WrittenCount(NthCount(k - 1));
      hide Wrap, ReadCount;
    }
  }

  ghost predicate DeadAt(policy: Policy, k: nat) {
    Decide(policy, NthHeader(k), Fault(true), Confirmed).copy.DeadCopy?
  }

  /**
    With a limit that fits the header, the message is dead-lettered at its (maxRetries + 1)-th handling and
    not before.
   */
  lemma DeadAfterMaxRetries(policy: Policy, k: nat)
    requires 0 < policy.maxRetries <= MAX_INT32 && k <= policy.maxRetries
    ensures DeadAt(policy, k) <==> k == policy.maxRetries
    ensures k < policy.maxRetries ==>
              Decide(policy, NthHeader(k), Fault(true), Confirmed)
                == Decision(Acked, RetryCopy(k + 1, NthHeader(k + 1)))
  {
    CountsUp(k);
  }

  /** It is dead-lettered at all if and only if the limit fits the 32-bit header. */
  lemma DeadEventually(policy: Policy)
    requires policy.maxRetries > 0
    ensures (exists k :: DeadAt(policy, k)) <==> policy.maxRetries <= MAX_INT32
  {
    if policy.maxRetries <= MAX_INT32 {
      DeadAfterMaxRetries(policy, policy.maxRetries);
    } else {
      forall k ensures !DeadAt(policy, k) {
        CountsUp(k);
      }
    }
  }

  // --- A channel with batches ------------------------------------------------------------------

  datatype Delivery = Delivery(header: Header, body: string)

  /** What a batch decides: the outcomes of the listener, or a retry for all when it returned too few or too many. */
  function Outcomes(batch: nat, reported: seq<Outcome>): (outcomes: seq<Outcome>)
    ensures |outcomes| == batch
  {
    if |reported| == batch then reported else seq(batch, _ => Fault(true))
  }

  /** Delivery tags are positions; a delivery is outstanding until it is settled. */
  class Channel {
    var settled: seq<Option<Settlement>>
    var copies: seq<Copy>

    ghost predicate Valid()
      reads this
    {
      |copies| == |settled|
    }

    /** Hands out the next deliveries. */
    method Receive(n: nat)
      requires Valid()
      modifies this
      ensures Valid() && |settled| == old(|settled|) + n
      ensures settled[..old(|settled|)] == old(settled) && copies[..old(|settled|)] == old(copies)
      ensures forall k :: old(|settled|) <= k < |settled| ==> settled[k] == None && copies[k] == NoCopy
    {
      settled := settled + seq(n, _ => None);
      copies := copies + seq(n, _ => NoCopy);
    }

    /** basic.ack with multiple set: everything outstanding up to the tag is acknowledged. */
    method AckMultiple(tag: nat)
      requires Valid() && tag < |settled|
      modifies this`settled
      ensures |settled| == old(|settled|)
      ensures forall k :: 0 <= k < |settled| ==>
                settled[k] == if k <= tag && old(settled)[k] == None then Some(Acked) else old(settled)[k]
    {
      var before := settled;
      for i := 0 to tag + 1
        invariant |settled| == |before|
        invariant forall k :: 0 <= k < |settled| ==>
                    settled[k] == if k < i && before[k] == None then Some(Acked) else before[k]
      {
        if settled[i] == None {
          settled := settled[i := Some(Acked)];
        }
      }
    }

    method Settle(tag: nat, d: Decision)
      requires Valid() && tag < |settled|
      modifies this
      ensures Valid()
      ensures settled == old(settled)[tag := Some(d.settlement)] && copies == old(copies)[tag := d.copy]
    {
      settled := settled[tag := Some(d.settlement)];
      copies := copies[tag := d.copy];
    }

    /** Every delivery before the batch is settled; the batch itself is outstanding. */
    ghost predicate Ready(from: nat)
      reads this
    {
      && Valid() && from <= |settled|
      && (forall k :: 0 <= k < from ==> settled[k] != None)
      && (forall k :: from <= k < |settled| ==> settled[k] == None && copies[k] == NoCopy)
    }

    /** One batch: a single multiple acknowledgement if all succeeded, else each on its own. */
    method HandleBatch(policy: Policy, from: nat, batch: seq<Delivery>, reported: seq<Outcome>, routings: seq<Routing>)
      requires |batch| > 0 && |routings| == |batch| && Ready(from) && |settled| == from + |batch|
      modifies this
      ensures Ready(from + |batch|) && |settled| == old(|settled|)
      ensures settled[..from] == old(settled)[..from] && copies[..from] == old(copies)[..from]
      ensures forall i :: 0 <= i < |batch| ==>
                var d := Decide(policy, batch[i].header, Outcomes(|batch|, reported)[i], routings[i]);
                settled[from + i] == Some(d.settlement) && copies[from + i] == d.copy
    {
      var outcomes := Outcomes(|batch|, reported);
      var allSucceeded := AllDone(outcomes);
      if allSucceeded {
        AckMultiple(from + |batch| - 1);
      } else {
        SettleEach(policy, from, batch, outcomes, routings);
      }
      forall k | from <= k < |settled| ensures settled[k] != None {
        var i := k - from;
        assert settled[from + i] == Some(Decide(policy, batch[i].header, outcomes[i], routings[i]).settlement);
      }
    }

    method SettleEach(policy: Policy, from: nat, batch: seq<Delivery>, outcomes: seq<Outcome>, routings: seq<Routing>)
      requires |routings| == |outcomes| == |batch| && Valid() && |settled| == from + |batch|
      modifies this
      ensures Valid() && |settled| == old(|settled|)
      ensures forall k :: 0 <= k < from ==> settled[k] == old(settled)[k] && copies[k] == old(copies)[k]
      ensures forall i :: 0 <= i < |batch| ==>
                var d := Decide(policy, batch[i].header, outcomes[i], routings[i]);
                settled[from + i] == Some(d.settlement) && copies[from + i] == d.copy
    {
      hide Decide;
      for i := 0 to |batch|
        invariant Valid() && |settled| == from + |batch|
        invariant forall k :: 0 <= k < from ==> settled[k] == old(settled)[k] && copies[k] == old(copies)[k]
        invariant forall k :: 0 <= k < i ==>
                    var d := Decide(policy, batch[k].header, outcomes[k], routings[k]);
                    settled[from + k] == Some(d.settlement) && copies[from + k] == d.copy
      {
        Settle(from + i, Decide(policy, batch[i].header, outcomes[i], routings[i]));
      }
    }
  }

  method AllDone(outcomes: seq<Outcome>) returns (all: bool)
    ensures all == forall i :: 0 <= i < |outcomes| ==> outcomes[i] == Done
  {
    for i := 0 to |outcomes|
      invariant forall k :: 0 <= k < i ==> outcomes[k] == Done
    {
      if outcomes[i] != Done {
        return false;
      }
    }
    return true;
  }

  datatype Round = Round(batch: seq<Delivery>, reported: seq<Outcome>, routings: seq<Routing>)

  ghost predicate WellFormed(rounds: seq<Round>) {
    forall i :: 0 <= i < |rounds| ==> |rounds[i].batch| > 0 && |rounds[i].routings| == |rounds[i].batch|
  }

  /** What every delivery of the rounds should end as, in order. */
  function Expected(policy: Policy, rounds: seq<Round>): seq<Decision>
    requires WellFormed(rounds)
  {
    if rounds == [] then []
    else Expected(policy, rounds[..|rounds| - 1]) + BatchDecisions(policy, rounds[|rounds| - 1])
  }

  ghost predicate SettledAs(settled: seq<Option<Settlement>>, copies: seq<Copy>, decisions: seq<Decision>) {
    && |settled| == |copies| == |decisions|
    && forall k :: 0 <= k < |decisions| ==>
         settled[k] == Some(decisions[k].settlement) && copies[k] == decisions[k].copy
  }

  lemma SettledThenBatch(
    settled: seq<Option<Settlement>>, copies: seq<Copy>, done: seq<Decision>, batch: seq<Decision>)
    requires |settled| == |copies| == |done| + |batch|
    requires SettledAs(settled[..|done|], copies[..|done|], done)
    requires forall i :: 0 <= i < |batch| ==>
               settled[|done| + i] == Some(batch[i].settlement) && copies[|done| + i] == batch[i].copy
    ensures SettledAs(settled, copies, done + batch)
  {
    var all := done + batch;
    forall k | 0 <= k < |all| ensures settled[k] == Some(all[k].settlement) && copies[k] == all[k].copy {
      if k < |done| {
        assert settled[k] == settled[..|done|][k] && copies[k] == copies[..|done|][k];
      } else {
        assert all[k] == batch[k - |done|] && k == |done| + (k - |done|);
      }
    }
  }

  /** What every delivery of one batch should end as. */
  function BatchDecisions(policy: Policy, r: Round): seq<Decision>
    requires |r.routings| == |r.batch|
  {
    seq(|r.batch|, i requires 0 <= i < |r.batch| =>
          Decide(policy, r.batch[i].header, Outcomes(|r.batch|, r.reported)[i], r.routings[i]))
  }

  /** One round of the loop: receive a batch and handle it. */
  method HandleRound(channel: Channel, policy: Policy, r: Round, ghost done: seq<Decision>)
    requires |r.batch| > 0 && |r.routings| == |r.batch| && channel.Valid()
    requires SettledAs(channel.settled, channel.copies, done)
    modifies channel
    ensures channel.Valid() && SettledAs(channel.settled, channel.copies, done + BatchDecisions(policy, r))
  {
    hide Decide, Outcomes;
    var from := |channel.settled|;
    ghost var settled, copies := channel.settled, channel.copies;
    channel.Receive(|r.batch|);
    assert forall k :: 0 <= k < from ==> channel.settled[k] == channel.settled[..from][k] == settled[k];
    channel.HandleBatch(policy, from, r.batch, r.reported, r.routings);
    assert channel.settled[..from] == settled && channel.copies[..from] == copies;
    SettledThenBatch(channel.settled, channel.copies, done, BatchDecisions(policy, r));
  }

  /**
    The batch loop. A multiple acknowledgement settles exactly the current batch, because every
    earlier delivery is settled already; so each delivery ends as if it had been handled alone.
   */
  method HandleBatches(channel: Channel, policy: Policy, rounds: seq<Round>)
    requires channel.settled == [] && channel.copies == [] && WellFormed(rounds)
    modifies channel
    ensures SettledAs(channel.settled, channel.copies, Expected(policy, rounds))
  {
    hide SettledAs, BatchDecisions;
    assert SettledAs(channel.settled, channel.copies, []) by { NothingSettled(); }
    for n := 0 to |rounds|
      invariant channel.Valid()
      invariant SettledAs(channel.settled, channel.copies, Expected(policy, rounds[..n]))
    {
      assert rounds[..n + 1][..n] == rounds[..n];
      HandleRound(channel, policy, rounds[n], Expected(policy, rounds[..n]));
    }
    assert rounds[..|rounds|] == rounds;
  }

  lemma NothingSettled()
    ensures SettledAs([], [], [])
  {
  }
}
