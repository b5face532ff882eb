/**
  Sums over an append-only log of selections. Every quantity the two stores keep (seats, credits,
  courses, cell counters, enrolled rows) is one such sum for a suitable measure and set of applications.
 */
module Ledger {
  import opened Types

  type Log = seq<Selection>

  ghost predicate UniqueApps(log: Log) {
    forall i, j :: 0 <= i < j < |log| ==> log[i].app != log[j].app
  }

  ghost function Apps(log: Log): set<AppId> {
    set i | 0 <= i < |log| :: log[i].app
  }

  /** The sum of `f` over the entries of `log` whose application is in `ids`. */
  ghost function Weight(log: Log, ids: set<AppId>, f: Selection -> nat): nat {
    if log == [] then 0
    else
      var x := log[|log| - 1];
      Weight(log[..|log| - 1], ids, f) + if x.app in ids then f(x) else 0
  }

  lemma WeightAppend(log: Log, x: Selection, ids: set<AppId>, f: Selection -> nat)
    ensures Weight(log + [x], ids, f) == Weight(log, ids, f) + if x.app in ids then f(x) else 0
  {
    assert (log + [x])[..|log|] == log;
  }

  /** Only the log's own applications matter. */
  lemma {:induction false} WeightSameIds(log: Log, a: set<AppId>, b: set<AppId>, f: Selection -> nat)
    requires forall i :: 0 <= i < |log| ==> (log[i].app in a <==> log[i].app in b)
    ensures Weight(log, a, f) == Weight(log, b, f)
  {
    if log != [] {
      WeightSameIds(log[..|log| - 1], a, b, f);
    }
  }

  lemma {:induction false} WeightMonotone(log: Log, a: set<AppId>, b: set<AppId>, f: Selection -> nat)
    requires a <= b
    ensures Weight(log, a, f) <= Weight(log, b, f)
  {
    if log != [] {
      WeightMonotone(log[..|log| - 1], a, b, f);
    }
  }

  /** Admitting one more application adds exactly its own measure. */
  lemma {:induction false} WeightInsert(log: Log, ids: set<AppId>, k: nat, f: Selection -> nat)
    requires UniqueApps(log) && k < |log| && log[k].app !in ids
    ensures Weight(log, ids + {log[k].app}, f) == Weight(log, ids, f) + f(log[k])
  {
    var last := |log| - 1;
    if k == last {
      WeightSameIds(log[..last], ids + {log[k].app}, ids, f);
    } else {
      WeightInsert(log[..last], ids, k, f);
    }
  }

  lemma WeightRemove(log: Log, ids: set<AppId>, k: nat, f: Selection -> nat)
    requires UniqueApps(log) && k < |log| && log[k].app in ids
    ensures Weight(log, ids - {log[k].app}, f) == Weight(log, ids, f) - f(log[k])
  {
    WeightInsert(log, ids - {log[k].app}, k, f);
    assert ids - {log[k].app} + {log[k].app} == ids;
  }

  lemma WeightAtLeast(log: Log, ids: set<AppId>, k: nat, f: Selection -> nat)
    requires UniqueApps(log) && k < |log| && log[k].app in ids
    ensures f(log[k]) <= Weight(log, ids, f)
  {
    WeightRemove(log, ids, k, f);
  }

  lemma {:induction false} WeightPositive(log: Log, ids: set<AppId>, f: Selection -> nat) returns (k: nat)
    requires Weight(log, ids, f) > 0
    ensures k < |log| && log[k].app in ids && f(log[k]) > 0
  {
    k := |log| - 1;
    if !(log[k].app in ids && f(log[k]) > 0) {
      k := WeightPositive(log[..k], ids, f);
    }
  }
}
