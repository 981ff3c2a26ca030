/**
 What the lock flag of a validation pass does to the plans: it is declared outside the loop, so a
 locked plan passes its lock on to the plans visited after it.
 */
module Locks {
  import opened Api
  import opened Kube
  import opened StatusManager
  import opened Validate

  /** The pass locked a plan that was not locked. */
  ghost predicate Leaks(st: Status, order: seq<string>) {
    exists k :: 0 <= k < |order| && !PlanOf(st, order[k]).lock && LockAfter(st, order, k + 1)
  }

  /** The position of the first plan that was locked when the pass began, or how many plans there are. */
  function FirstLocked(st: Status, order: seq<string>): (n: nat)
    ensures n <= |order| && (n < |order| ==> PlanOf(st, order[n]).lock)
    ensures forall k :: 0 <= k < n ==> !PlanOf(st, order[k]).lock
  {
    if order == [] || PlanOf(st, order[0]).lock then 0 else 1 + FirstLocked(st, order[1..])
  }

  /** The plans come out locked from the first that went in locked on, and no others do. */
  lemma PlanLockedIff(s0: Status, s1: Status, order: seq<string>, k: nat)
    requires ValidatedUpTo(s0, s1, order, |order|) && k < |order|
    ensures PlanOf(s1, order[k]).lock <==> FirstLocked(s0, order) <= k
  {
    assert PlanRevalidated(PlanOf(s0, order[k]), PlanOf(s1, order[k]), LockAfter(s0, order, k + 1));
  }

  /** Every set has an enumeration that begins with a given element. */
  lemma {:induction false} EnumerationFrom(s: set<string>, first: string) returns (order: seq<string>)
    requires first in s
    ensures Enumerates(order, s) && order[0] == first
    decreases |s|
  {
    var rest := s - {first};
    if rest == {} {
      assert s == {first};
      order := [first];
    } else {
      var next :| next in rest;
      var tail := EnumerationFrom(rest, next);
      order := [first] + tail;
      forall x ensures x in s <==> x in order {
        assert x in s <==> x == first || x in rest;
      }
    }
  }

  /**
   Whatever order the plans come in, no lock leaks, exactly when before the pass all of them were
   locked or none was.
   */
  lemma NeverLeaksIff(st: Status, plans: set<string>)
    ensures (forall order :: Enumerates(order, plans) ==> !Leaks(st, order))
       <==> (forall p, q :: p in plans && q in plans ==> PlanOf(st, p).lock == PlanOf(st, q).lock)
  {
    if p, q :| p in plans && q in plans && PlanOf(st, p).lock && !PlanOf(st, q).lock {
      var order := EnumerationFrom(plans, p);
      assert q in order;
      var k :| 0 <= k < |order| && order[k] == q;
      assert PlanOf(st, order[0]).lock;
      assert LockAfter(st, order, k + 1);
      assert Leaks(st, order);
    } else {
      forall order | Enumerates(order, plans) ensures !Leaks(st, order) {
        forall j | 0 <= j < |order| ensures order[j] in plans { assert order[j] in order; }
      }
    }
  }

  /** With one plan there is no other to leak from: validation leaves its lock as it was. */
  lemma SinglePlanKeepsItsLock(s0: Status, s1: Status, order: seq<string>, plan: string)
    requires Enumerates(order, {plan}) && InValidation(s0, s1, order)
    ensures PlanOf(s1, plan).lock == PlanOf(s0, plan).lock
  {
    assert plan in order;
    var k :| 0 <= k < |order| && order[k] == plan;
    forall j | 0 <= j < |order| ensures order[j] == plan { assert order[j] in order; }
  }

  /** Two plans, one restored and one not: visited in this order, the second is locked without a restore. */
  lemma LeakExample(restored: PlanStatus, pending: PlanStatus)
    requires restored.lock && !pending.lock
    ensures var st := Status(Unset, "", map["a" := restored, "b" := pending]);
      Leaks(st, ["a", "b"]) && !Leaks(st, ["b", "a"])
  {
    var st := Status(Unset, "", map["a" := restored, "b" := pending]);
    assert PlanOf(st, ["a", "b"][0]).lock;
    assert !PlanOf(st, ["a", "b"][1]).lock && LockAfter(st, ["a", "b"], 2);
  }

  /** Locks only ever close during a pass of validation, and a restore point a plan is locked to stays. */
  lemma LocksStay(s0: Status, s1: Status, order: seq<string>, plan: string)
    requires InValidation(s0, s1, order) && PlanOf(s0, plan).lock
    ensures PlanOf(s1, plan).lock
    ensures PlanOf(s0, plan).snapshotRestoreTime != "" ==>
      PlanOf(s1, plan).snapshotRestoreTime == PlanOf(s0, plan).snapshotRestoreTime
  {
    if plan in order {
      var k :| 0 <= k < |order| && order[k] == plan;
      assert PlanOf(s0, order[k]).lock;
      assert LockAfter(s0, order, k + 1);
    }
  }
}
