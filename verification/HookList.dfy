/**
 The list of hook results kept in a plan status. It is a slice, scanned from the front; entries are
 identified by name and event. These lemmas show that, used as the managers use it, it is a map.
 */
module HookList {
  import opened Api

  predicate IsEntry(h: HookStatus, name: string, event: HookEvent) {
    h.name == name && h.event == event
  }

  /** The first entry for `name` and `event`, as every scan of the list finds it. */
  function Find(hooks: seq<HookStatus>, name: string, event: HookEvent): (r: Option<HookStatus>)
    ensures r.Some? ==> r.value in hooks && IsEntry(r.value, name, event)
    ensures r.None? ==> forall h :: h in hooks ==> !IsEntry(h, name, event)
  {
    if hooks == [] then None
    else if IsEntry(hooks[0], name, event) then Some(hooks[0])
    else Find(hooks[1..], name, event)
  }

  /** The list after a result is recorded: the first entry with its key replaced, or a new last entry. */
  function Upsert(hooks: seq<HookStatus>, hook: HookStatus): seq<HookStatus> {
    if hooks == [] then [hook]
    else if IsEntry(hooks[0], hook.name, hook.event) then [hook] + hooks[1..]
    else [hooks[0]] + Upsert(hooks[1..], hook)
  }

  lemma UpsertPasses(hooks: seq<HookStatus>, hook: HookStatus, i: nat)
    requires i < |hooks| && !IsEntry(hooks[i], hook.name, hook.event)
    ensures hooks[..i] + Upsert(hooks[i..], hook) == hooks[..i + 1] + Upsert(hooks[i + 1..], hook)
  {
    var rest := Upsert(hooks[i + 1..], hook);
    assert hooks[i..][1..] == hooks[i + 1..];
    assert Upsert(hooks[i..], hook) == [hooks[i]] + rest;
    assert hooks[..i] + ([hooks[i]] + rest) == (hooks[..i] + [hooks[i]]) + rest;
    assert hooks[..i + 1] == hooks[..i] + [hooks[i]];
  }

  /** The scanning loop of `SetHooksRestoreFromPlan`, which assigns into the slice it ranges over. */
  method Record(hooks: seq<HookStatus>, hook: HookStatus) returns (recorded: seq<HookStatus>)
    ensures recorded == Upsert(hooks, hook)
  {
    var i := 0;
    while i < |hooks|
      invariant i <= |hooks|
      invariant hooks[..i] + Upsert(hooks[i..], hook) == Upsert(hooks, hook)
    {
      if hooks[i].name == hook.name && hooks[i].event == hook.event {
        return hooks[i := hook];
      }
      UpsertPasses(hooks, hook, i);
      i := i + 1;
    }
    return hooks + [hook];
  }

  ghost predicate Unique(hooks: seq<HookStatus>) {
    forall i, j :: 0 <= i < j < |hooks| ==> !IsEntry(hooks[j], hooks[i].name, hooks[i].event)
  }

  /** Recording is map update and scanning is map lookup. */
  lemma {:induction false} FindAfterUpsert(hooks: seq<HookStatus>, hook: HookStatus, name: string, event: HookEvent)
    ensures Find(Upsert(hooks, hook), name, event)
         == if IsEntry(hook, name, event) then Some(hook) else Find(hooks, name, event)
  {
    if hooks != [] && !IsEntry(hooks[0], hook.name, hook.event) {
      FindAfterUpsert(hooks[1..], hook, name, event);
    }
  }

  /**
   Recording touches one position only: the key's first position if it has one, else the end. All
   other entries stay, in their order.
   */
  lemma {:induction false} UpsertKeepsTheRest(hooks: seq<HookStatus>, hook: HookStatus)
    ensures Find(hooks, hook.name, hook.event).None? ==> Upsert(hooks, hook) == hooks + [hook]
    ensures Find(hooks, hook.name, hook.event).Some? ==>
      exists k :: 0 <= k < |hooks| && hooks[k] == Find(hooks, hook.name, hook.event).value
                  && Upsert(hooks, hook) == hooks[k := hook]
  {
    if hooks == [] {
    } else if IsEntry(hooks[0], hook.name, hook.event) {
      assert Upsert(hooks, hook) == hooks[0 := hook];
    } else {
      UpsertKeepsTheRest(hooks[1..], hook);
      if Find(hooks[1..], hook.name, hook.event).Some? {
        var k :| 0 <= k < |hooks[1..]| && hooks[1..][k] == Find(hooks[1..], hook.name, hook.event).value
                 && Upsert(hooks[1..], hook) == hooks[1..][k := hook];
        assert Upsert(hooks, hook) == hooks[k + 1 := hook];
      }
    }
  }

  lemma UniqueWith(hooks: seq<HookStatus>, k: nat, hook: HookStatus)
    requires Unique(hooks) && k < |hooks| && IsEntry(hooks[k], hook.name, hook.event)
    ensures Unique(hooks[k := hook])
  {
    var more := hooks[k := hook];
    forall i, j | 0 <= i < j < |more| ensures !IsEntry(more[j], more[i].name, more[i].event) {
      assert !IsEntry(hooks[j], hooks[i].name, hooks[i].event);
    }
  }

  /** Keys stay unique however many results are recorded. */
  lemma {:induction false} UpsertKeepsUnique(hooks: seq<HookStatus>, hook: HookStatus)
    requires Unique(hooks)
    ensures Unique(Upsert(hooks, hook))
  {
    UpsertKeepsTheRest(hooks, hook);
    if Find(hooks, hook.name, hook.event).Some? {
      var k :| 0 <= k < |hooks| && hooks[k] == Find(hooks, hook.name, hook.event).value
               && Upsert(hooks, hook) == hooks[k := hook];
      UniqueWith(hooks, k, hook);
    } else {
      forall i | 0 <= i < |hooks| ensures !IsEntry(hooks[i], hook.name, hook.event) { assert hooks[i] in hooks; }
    }
  }

  /** The list after a whole sequence of results is recorded, first to last. */
  function UpsertAll(hooks: seq<HookStatus>, results: seq<HookStatus>): seq<HookStatus>
    decreases |results|
  {
    if results == [] then hooks else UpsertAll(Upsert(hooks, results[0]), results[1..])
  }

  ghost predicate Keyed(results: seq<HookStatus>, name: string, event: HookEvent) {
    exists i :: 0 <= i < |results| && IsEntry(results[i], name, event)
  }

  lemma {:induction false} UpsertAllIsMapUpdate(hooks: seq<HookStatus>, results: seq<HookStatus>, name: string,
          event: HookEvent)
    ensures Unique(hooks) ==> Unique(UpsertAll(hooks, results))
    ensures !Keyed(results, name, event) ==> Find(UpsertAll(hooks, results), name, event) == Find(hooks, name, event)
    decreases |results|
  {
    if results != [] {
      if Unique(hooks) { UpsertKeepsUnique(hooks, results[0]); }
      UpsertAllIsMapUpdate(Upsert(hooks, results[0]), results[1..], name, event);
      FindAfterUpsert(hooks, results[0], name, event);
      if !Keyed(results, name, event) {
        assert !IsEntry(results[0], name, event);
        forall i | 0 <= i < |results[1..]| ensures !IsEntry(results[1..][i], name, event) {
          assert results[1..][i] == results[i + 1];
        }
      }
    }
  }

  /** After results with distinct keys are recorded there is exactly the recorded entry for each. */
  lemma {:induction false} UpsertAllRecordsEach(hooks: seq<HookStatus>, results: seq<HookStatus>, i: nat)
    requires Unique(results) && i < |results|
    ensures Find(UpsertAll(hooks, results), results[i].name, results[i].event) == Some(results[i])
    decreases |results|
  {
    assert Unique(results[1..]);
    if i > 0 {
      UpsertAllRecordsEach(Upsert(hooks, results[0]), results[1..], i - 1);
    } else {
      var h := results[0];
      forall j | 0 <= j < |results[1..]| ensures !IsEntry(results[1..][j], h.name, h.event) {
        assert results[1..][j] == results[j + 1];
      }
      UpsertAllIsMapUpdate(Upsert(hooks, h), results[1..], h.name, h.event);
      FindAfterUpsert(hooks, h, h.name, h.event);
    }
  }

  lemma {:induction false} UpsertAllSnoc(hooks: seq<HookStatus>, results: seq<HookStatus>, last: HookStatus)
    ensures UpsertAll(hooks, results + [last]) == Upsert(UpsertAll(hooks, results), last)
    decreases |results|
  {
    if results == [] {
      assert [last][1..] == [];
    } else {
      assert (results + [last])[1..] == results[1..] + [last];
      UpsertAllSnoc(Upsert(hooks, results[0]), results[1..], last);
    }
  }

  /** A key among the results ends up with one of the results recorded for it. */
  lemma {:induction false} FindAmongResults(hooks: seq<HookStatus>, results: seq<HookStatus>, name: string,
          event: HookEvent)
    requires Keyed(results, name, event)
    ensures exists i :: 0 <= i < |results| && IsEntry(results[i], name, event)
                        && Find(UpsertAll(hooks, results), name, event) == Some(results[i])
    decreases |results|
  {
    var init, last := results[..|results| - 1], results[|results| - 1];
    assert results == init + [last];
    UpsertAllSnoc(hooks, init, last);
    FindAfterUpsert(UpsertAll(hooks, init), last, name, event);
    if IsEntry(last, name, event) {
      assert IsEntry(results[|results| - 1], name, event);
    } else {
      var k :| 0 <= k < |results| && IsEntry(results[k], name, event);
      assert init[k] == results[k];
      FindAmongResults(hooks, init, name, event);
      var i :| 0 <= i < |init| && IsEntry(init[i], name, event)
        && Find(UpsertAll(hooks, init), name, event) == Some(init[i]);
      assert results[i] == init[i];
    }
  }

  // ---------------------------------------------------------------- results of a fan-out

  /** The results array after threads delivered in this order, each at its own index. */
  function Deliver(results: seq<HookStatus>, outcomes: seq<HookStatus>, order: seq<nat>): (r: seq<HookStatus>)
    requires |results| == |outcomes| && forall k :: 0 <= k < |order| ==> order[k] < |results|
    ensures |r| == |results|
    decreases |order|
  {
    if order == [] then results
    else Deliver(results[order[0] := outcomes[order[0]]], outcomes, order[1..])
  }

  lemma {:induction false} DeliveredAt(results: seq<HookStatus>, outcomes: seq<HookStatus>, order: seq<nat>, i: nat)
    requires |results| == |outcomes| && i < |results| && forall k :: 0 <= k < |order| ==> order[k] < |results|
    ensures Deliver(results, outcomes, order)[i] == (if i in order then outcomes[i] else results[i])
    decreases |order|
  {
    if order != [] {
      assert forall k :: 0 <= k < |order[1..]| ==> order[1..][k] == order[k + 1];
      assert i in order <==> i == order[0] || i in order[1..];
      DeliveredAt(results[order[0] := outcomes[order[0]]], outcomes, order[1..], i);
    }
  }

  /** Every index occurs in the order of completion. */
  predicate Completes(order: seq<nat>, n: nat) {
    (forall k :: 0 <= k < |order| ==> order[k] < n) && (forall i :: 0 <= i < n ==> i in order)
  }

  /**
   Whatever order the threads of a fan-out end in, the results array, and so the list of hook results
   written from it, is that of running them from left to right.
   */
  lemma CompletionOrderDoesNotShow(hooks: seq<HookStatus>, blank: seq<HookStatus>, outcomes: seq<HookStatus>,
          order: seq<nat>)
    requires |blank| == |outcomes| && Completes(order, |outcomes|)
    ensures Deliver(blank, outcomes, order) == outcomes == Deliver(blank, outcomes, seq(|outcomes|, i => i))
    ensures UpsertAll(hooks, Deliver(blank, outcomes, order)) == UpsertAll(hooks, outcomes)
  {
    var inTurn := seq(|outcomes|, i => i);
    assert forall i :: 0 <= i < |outcomes| ==> inTurn[i] == i;
    forall i | 0 <= i < |outcomes|
      ensures Deliver(blank, outcomes, order)[i] == outcomes[i] == Deliver(blank, outcomes, inTurn)[i]
    {
      assert inTurn[i] in inTurn;
      DeliveredAt(blank, outcomes, order, i);
      DeliveredAt(blank, outcomes, inTurn, i);
    }
  }
}
