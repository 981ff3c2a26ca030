/**
 Runs: any number of passes one after the other, each stopped wherever a call failed, with edits of
 the spec and any change to the cluster's workloads and claims in between.
 */
module Runs {
  import opened Api
  import opened Controller
  import opened HookEngine
  import opened HookList
  import opened Hooks
  import opened Kube
  import opened Locks
  import opened Passes
  import opened PassLaws
  import opened Restore
  import opened Scale
  import opened StatusManager

  /** What only the operator writes is at `b` as it was at `a`. */
  predicate CarriesOn(a: Moment, b: Moment) {
    b.stored == a.stored && b.history == a.history && b.events == a.events && b.configs == a.configs
  }

  /** The pass `b` finds what the pass `a` left. */
  ghost predicate Follows(a: Pass, b: Pass) { CarriesOn(a.end, b.start) && SameNames(a.env, b.env) }

  ghost predicate IsRun(ps: seq<Pass>) { Linked(ps, IsPass, Follows) }

  /** Every element is `ok`, and linked to the one before. */
  ghost predicate Linked<T>(s: seq<T>, ok: T -> bool, link: (T, T) -> bool) {
    (forall i :: 0 <= i < |s| ==> ok(s[i])) && (forall i, j :: 0 <= i < j < |s| && j == i + 1 ==> link(s[i], s[j]))
  }

  lemma LinkedPart<T>(s: seq<T>, lo: nat, hi: nat, ok: T -> bool, link: (T, T) -> bool)
    requires Linked(s, ok, link) && lo <= hi <= |s|
    ensures Linked(s[lo..hi], ok, link)
  {
    var part := s[lo..hi];
    forall i, j | 0 <= i < j < |part| && j == i + 1 ensures link(part[i], part[j]) {
      assert part[i] == s[lo + i] && part[j] == s[lo + j];
    }
  }

  lemma LinkedLonger<T>(s: seq<T>, x: T, ok: T -> bool, link: (T, T) -> bool)
    requires Linked(s, ok, link) && ok(x) && (s != [] ==> link(s[|s| - 1], x))
    ensures Linked(s + [x], ok, link)
  {
    var more := s + [x];
    forall i, j | 0 <= i < j < |more| && j == i + 1 ensures link(more[i], more[j]) {
      assert more[i] == s[i] && (j < |s| ==> more[j] == s[j]);
    }
  }

  ghost predicate SameNames(a: Env, b: Env) { b.scheme == a.scheme && b.namespace == a.namespace }

  /** No edit of the spec removes a plan. */
  ghost predicate PlansStay(ps: seq<Pass>) {
    forall i, j :: 0 <= i < j < |ps| && j == i + 1 ==> ps[i].env.spec.Keys <= ps[j].env.spec.Keys
  }

  /** The status before the first pass of a new resource. */
  predicate New(m: Moment) {
    m.stored == Status(Unset, "", map[]) && m.history == [m.stored] && m.events == []
  }

  // ---------------------------------------------------------------- stages

  /** The status never lists a plan that the spec does not. */
  lemma {:induction false} StatusFollowsSpec(ps: seq<Pass>)
    requires IsRun(ps) && PlansStay(ps) && |ps| > 0 && ps[0].start.stored.plans.Keys <= ps[0].env.spec.Keys
    ensures ps[|ps| - 1].start.stored.plans.Keys <= ps[|ps| - 1].env.spec.Keys
    ensures ps[|ps| - 1].end.stored.plans.Keys <= ps[|ps| - 1].env.spec.Keys
    decreases |ps|
  {
    var last := ps[|ps| - 1];
    if |ps| > 1 {
      var init := ps[..|ps| - 1];
      RunOfPrefix(ps, |ps| - 1);
      StatusFollowsSpec(init);
      assert init[|init| - 1] == ps[|ps| - 2];
    }
    StatusStaysWithinSpec(last);
  }

  lemma StatusStaysWithinSpec(p: Pass)
    requires IsPass(p) && p.start.stored.plans.Keys <= p.env.spec.Keys
    ensures p.end.stored.plans.Keys <= p.env.spec.Keys
  {
    forall q | q !in p.env.spec ensures q !in p.end.stored.plans {
      assert q !in p.env.spec.Keys;
      OnlyPlansOfTheSpecAppear(p, q);
    }
  }

  lemma RunOfPrefix(ps: seq<Pass>, n: nat)
    requires IsRun(ps) && n <= |ps|
    ensures IsRun(ps[..n]) && (PlansStay(ps) ==> PlansStay(ps[..n]))
  {
    LinkedPart(ps, 0, n, IsPass, Follows);
    if PlansStay(ps) { PlansStayInPrefix(ps, n); }
  }

  lemma PlansStayInPrefix(ps: seq<Pass>, n: nat)
    requires n <= |ps| && PlansStay(ps)
    ensures PlansStay(ps[..n])
  {
    var init := ps[..n];
    forall i, j | 0 <= i < j < |init| && j == i + 1 ensures init[i].env.spec.Keys <= init[j].env.spec.Keys {
      assert init[i] == ps[i] && init[j] == ps[j];
    }
  }

  /**
   The stage machine. In every run of a new resource each plan only ever moves from not restored to
   locked to scaled up, one step a write, and a restore point once locked stays.
   */
  lemma {:induction false} StagesMoveForwards(ps: seq<Pass>, plans: set<string>)
    requires IsRun(ps) && PlansStay(ps) && |ps| > 0 && New(ps[0].start)
    ensures Orderly(ps[|ps| - 1].end.history, ps[|ps| - 1].end.stored, plans)
    decreases |ps|
  {
    var last := ps[|ps| - 1];
    StatusFollowsSpec(ps);
    if |ps| > 1 {
      var init := ps[..|ps| - 1];
      RunOfPrefix(ps, |ps| - 1);
      StagesMoveForwards(init, plans);
      assert init[|init| - 1] == ps[|ps| - 2];
    }
    PassMovesStages(last, plans);
  }

  /** What orderly means for two values of the stored status, however far apart. */
  lemma {:induction false} OrderlyIsMonotone(h: seq<Status>, stored: Status, plans: set<string>, q: string, i: nat,
          j: nat)
    requires Orderly(h, stored, plans) && q in plans && i <= j < |h|
    ensures Staged(PlanOf(h[i], q))
    ensures PlanOf(h[i], q).lock ==> PlanOf(h[j], q).lock
    ensures PlanOf(h[i], q).countScaleUp <= PlanOf(h[j], q).countScaleUp
    ensures PlanOf(h[i], q).lock && PlanOf(h[i], q).snapshotRestoreTime != "" ==>
      PlanOf(h[j], q).lock && PlanOf(h[j], q).snapshotRestoreTime == PlanOf(h[i], q).snapshotRestoreTime
    decreases j - i
  {
    if i + 1 < |h| { assert PlanSteps(h[i + 1 - 1], h[i + 1], plans); }
    if i < j {
      OrderlyIsMonotone(h, stored, plans, q, i + 1, j);
    }
  }

  // ---------------------------------------------------------------- the phase

  lemma {:induction false} HistoryEndsInStored(ps: seq<Pass>, j: nat)
    requires IsRun(ps) && j < |ps| && New(ps[0].start)
    ensures Orderly(ps[j].start.history, ps[j].start.stored, {}) && Orderly(ps[j].end.history, ps[j].end.stored, {})
    decreases j
  {
    if j > 0 {
      HistoryEndsInStored(ps, j - 1);
      assert Follows(ps[j - 1], ps[j]);
    }
    PassMovesStages(ps[j], {});
  }

  /**
   Whenever the stored phase is `Completed` after a pass, it was some pass of the run, that one or an
   earlier one, that stored it; no pass stored anything since, and all plans of the spec that pass
   worked on are locked and scaled up in what is stored.
   */
  lemma {:induction false} CompletedCanBeTrusted(ps: seq<Pass>, j: nat) returns (k: nat)
    requires IsRun(ps) && j < |ps| && New(ps[0].start) && ps[j].end.stored.phase == Completed
    ensures k <= j && StoredIn(ps[k], ps[j].end)
    decreases j
  {
    HistoryEndsInStored(ps, j);
    StoredCompletedMeansDone(ps[j]);
    if ps[j].end.history != ps[j].start.history {
      k := j;
    } else {
      SomePassBefore(ps, j);
      k := CompletedCanBeTrusted(ps, j - 1);
      SameStored(ps, k, j);
    }
  }

  /** The pass stored the last value of `m`, with all plans of its spec locked and scaled up,
      and nothing was stored since. */
  ghost predicate StoredIn(p: Pass, m: Moment) {
    p.end.history == m.history && |p.start.history| < |p.end.history| && AllScaledUp(p.env.spec, m.stored)
  }

  lemma SomePassBefore(ps: seq<Pass>, j: nat)
    requires IsRun(ps) && j < |ps| && New(ps[0].start) && ps[j].end.history == ps[j].start.history
    requires ps[j].end.stored.phase == Completed && Orderly(ps[j].end.history, ps[j].end.stored, {})
    requires Orderly(ps[j].start.history, ps[j].start.stored, {})
    ensures j > 0 && ps[j - 1].end.stored == ps[j].end.stored
  {
    if j > 0 { assert Follows(ps[j - 1], ps[j]); }
  }

  lemma SameStored(ps: seq<Pass>, k: nat, j: nat)
    requires IsRun(ps) && k < j < |ps| && StoredIn(ps[k], ps[j - 1].end) && ps[j].end.history == ps[j].start.history
    requires ps[j - 1].end.stored == ps[j].end.stored
    ensures StoredIn(ps[k], ps[j].end)
  {
    assert Follows(ps[j - 1], ps[j]);
  }

  // ---------------------------------------------------------------- locks and restore points

  /** A lock once seen is seen by all later passes, as long as the plan stays in the spec; so is the restore point. */
  lemma RestorePointStays(p: Pass, q: string)
    requires IsPass(p) && q in p.env.spec && PlanOf(p.start.stored, q).lock
    ensures PlanOf(p.end.stored, q).lock
    ensures PlanOf(p.start.stored, q).snapshotRestoreTime != "" ==>
      PlanOf(p.end.stored, q).snapshotRestoreTime == PlanOf(p.start.stored, q).snapshotRestoreTime
  {
    LocksStayClosed(p, q);
    LocksStay(p.start.stored, p.checked.stored, p.order, q);
    TimeUntilRestored(p, q);
    TimeFromRestored(p, q);
  }

  lemma TimeUntilRestored(p: Pass, q: string)
    requires IsPass(p) && q in p.env.spec && PlanOf(p.checked.stored, q).lock
    ensures PlanOf(p.restored.stored, q).snapshotRestoreTime == PlanOf(p.checked.stored, q).snapshotRestoreTime
  {
    LocksStayClosed(p, q);
    if p.reached >= 1 { HooksKeepPlans(p.env, PreRestore, p.site, p.checked, p.prepared, false, q); }
    if p.reached >= 2 { ScalingKeepsTime(p.env.spec, false, p.prepared, p.down, p.reached >= 3, q); }
    if p.reached >= 3 { RestoringKeepsLocks(p.env.spec, p.down, p.restored, p.but, p.reached >= 4, q); }
  }

  lemma TimeFromRestored(p: Pass, q: string)
    requires IsPass(p)
    ensures PlanOf(p.end.stored, q).snapshotRestoreTime == PlanOf(p.restored.stored, q).snapshotRestoreTime
  {
    if p.reached >= 4 { ScalingKeepsTime(p.env.spec, true, p.restored, p.up, p.reached >= 5, q); }
    if p.reached >= 5 { HooksKeepPlans(p.env, PostRestore, p.site, p.up, p.served, p.clean && p.reached >= 7, q); }
  }

  lemma ScalingKeepsTime(spec: Spec, up: bool, a: Moment, b: Moment, ok: bool, q: string)
    requires Scales(spec, up, a, b, ok)
    ensures PlanOf(b.stored, q).snapshotRestoreTime == PlanOf(a.stored, q).snapshotRestoreTime
  {
    if q in a.stored.plans { assert PlanScaled(a.stored.plans[q], b.stored.plans[q], up); }
  }

  /** The plan is in the spec of every pass of the run. */
  predicate AlwaysInSpec(ps: seq<Pass>, q: string) {
    forall i :: 0 <= i < |ps| ==> q in ps[i].env.spec
  }

  /** Whatever the passes in between did and the spec says by now: the plan is locked, to the same restore point. */
  lemma {:induction false} LockAndRestorePointStay(ps: seq<Pass>, q: string, j: nat)
    requires IsRun(ps) && AlwaysInSpec(ps, q) && j < |ps| && PlanOf(ps[0].start.stored, q).lock
    ensures PlanOf(ps[j].start.stored, q).lock && PlanOf(ps[j].end.stored, q).lock
    ensures PlanOf(ps[0].start.stored, q).snapshotRestoreTime != "" ==>
      && PlanOf(ps[j].start.stored, q).snapshotRestoreTime == PlanOf(ps[0].start.stored, q).snapshotRestoreTime
      && PlanOf(ps[j].end.stored, q).snapshotRestoreTime == PlanOf(ps[0].start.stored, q).snapshotRestoreTime
    decreases j
  {
    if j > 0 {
      LockAndRestorePointStay(ps, q, j - 1);
      assert CarriesOn(ps[j - 1].end, ps[j].start);
    }
    RestorePointStays(ps[j], q);
  }

  /** Restore at most once: after a pass began with the plan locked, no pass touches a claim for it. */
  lemma RestoredAtMostOnce(ps: seq<Pass>, q: string, j: nat, i: nat)
    requires IsRun(ps) && AlwaysInSpec(ps, q) && j < |ps| && PlanOf(ps[0].start.stored, q).lock
    requires |ps[j].start.events| <= i < |ps[j].end.events| && OnClaims(ps[j].end.events[i])
    ensures ps[j].end.events[i].plan != q
  {
    LockAndRestorePointStay(ps, q, j);
    LockedPlansKeepTheirClaims(ps[j], i);
  }

  /** A lock that a pass leaves every later one finds. */
  lemma LockStaysFrom(ps: seq<Pass>, q: string, i: nat, j: nat)
    requires IsRun(ps) && AlwaysInSpec(ps, q) && i < j < |ps| && PlanOf(ps[i].end.stored, q).lock
    ensures PlanOf(ps[j].start.stored, q).lock
  {
    forall m | i < m <= j ensures LockSteps(ps, q, m) { LockStep(ps, q, m); }
    LockThroughout(ps, q, i, j);
  }

  /** The lock the pass before left, this pass finds and leaves. */
  predicate LockSteps(ps: seq<Pass>, q: string, m: nat)
    requires 0 < m < |ps|
  {
    PlanOf(ps[m - 1].end.stored, q).lock ==> PlanOf(ps[m].start.stored, q).lock && PlanOf(ps[m].end.stored, q).lock
  }

  lemma LockStep(ps: seq<Pass>, q: string, m: nat)
    requires IsRun(ps) && AlwaysInSpec(ps, q) && 0 < m < |ps|
    ensures LockSteps(ps, q, m)
  {
    LockCarriesOn(ps, q, m - 1);
    if PlanOf(ps[m].start.stored, q).lock { RestorePointStays(ps[m], q); }
  }

  lemma {:induction false} LockThroughout(ps: seq<Pass>, q: string, i: nat, j: nat)
    requires i < j < |ps| && (forall m :: i < m <= j ==> LockSteps(ps, q, m)) && PlanOf(ps[i].end.stored, q).lock
    ensures PlanOf(ps[j].start.stored, q).lock && PlanOf(ps[j].end.stored, q).lock
    decreases j
  {
    if i < j - 1 { LockThroughout(ps, q, i, j - 1); }
    assert LockSteps(ps, q, j);
  }

  lemma LockCarriesOn(ps: seq<Pass>, q: string, i: nat)
    requires IsRun(ps) && i + 1 < |ps|
    ensures PlanOf(ps[i + 1].start.stored, q) == PlanOf(ps[i].end.stored, q)
  {
    FollowsAt(ps, i + 1);
  }

  /**
   The price of a leaked lock: a plan that validation locked for another plan's lock is never restored,
   in this pass or any later one, although it counts as restored from then on.
   */
  lemma LeakedPlansAreNeverRestored(ps: seq<Pass>, q: string, j: nat, i: nat)
    requires IsRun(ps) && AlwaysInSpec(ps, q) && j < |ps| && PlanOf(ps[0].checked.stored, q).lock
    requires |ps[j].start.events| <= i < |ps[j].end.events| && OnClaims(ps[j].end.events[i])
    ensures ps[j].end.events[i].plan != q
  {
    if j == 0 {
      LockedByValidationKeepClaims(ps[0], q, i);
    } else {
      LockedFromThenOn(ps, q, j);
      LockedPlansKeepTheirClaims(ps[j], i);
    }
  }

  lemma LockedFromThenOn(ps: seq<Pass>, q: string, j: nat)
    requires IsRun(ps) && AlwaysInSpec(ps, q) && 0 < j < |ps| && PlanOf(ps[0].checked.stored, q).lock
    ensures PlanOf(ps[j].start.stored, q).lock && q in ps[j].env.spec
  {
    LocksStayClosed(ps[0], q);
    LockStaysFrom(ps, q, 0, j);
  }

  lemma LockedByValidationKeepClaims(p: Pass, q: string, i: nat)
    requires IsPass(p) && q in p.env.spec && PlanOf(p.checked.stored, q).lock
    requires |p.start.events| <= i < |p.end.events| && OnClaims(p.end.events[i])
    ensures p.end.events[i].plan != q
  {
    LocksStayClosed(p, q);
    ClaimEventsAreOfTheRestore(p, i);
  }

  /** A pass that finds a plan restored but not scaled up yet scales it up, and leaves its claims alone. */
  lemma InterruptedRestoreIsFinished(p: Pass, q: string)
    requires IsPass(p) && q in p.env.spec && p.reached >= 5
    requires PlanOf(p.start.stored, q).lock && PlanOf(p.start.stored, q).countScaleUp == 0
    ensures PlanUp(p.end.events, |p.start.events|, |p.end.events|, p.env.spec[q])
    ensures PlanOf(p.end.stored, q).countScaleUp > 0
    ensures forall i :: |p.start.events| <= i < |p.end.events| && OnClaims(p.end.events[i]) ==>
      p.end.events[i].plan != q
  {
    CompletionMeansDone(p, q);
    forall i | |p.start.events| <= i < |p.end.events| && OnClaims(p.end.events[i]) ensures p.end.events[i].plan != q {
      LockedPlansKeepTheirClaims(p, i);
    }
    CountsUntilUp(p, q);
    PlansAreListed(p, q);
    assert PlanDone(p.up.events, |p.restored.events|, p.env.spec[q], p.restored.stored.plans[q], p.up.stored.plans[q],
      true);
    LogGrows(p);
    PlanUpStays(p.up.events, |p.restored.events|, |p.up.events|, p.env.spec[q], p.end.events, |p.start.events|,
      |p.end.events|);
  }

  lemma CountsUntilUp(p: Pass, q: string)
    requires IsPass(p) && q in p.env.spec && p.reached >= 4 && PlanOf(p.start.stored, q).lock
    ensures PlanOf(p.restored.stored, q).countScaleUp == PlanOf(p.start.stored, q).countScaleUp
  {
    LocksStayClosed(p, q);
    ValidationKeepsHooks(p.env, p.order, p.start, p.checked, p.reached >= 1, q);
    HooksKeepPlans(p.env, PreRestore, p.site, p.checked, p.prepared, false, q);
    PlansAreListed(p, q);
    assert p.down.stored.plans[q] == p.prepared.stored.plans[q];
    RestoringKeepsLocks(p.env.spec, p.down, p.restored, p.but, p.reached >= 4, q);
  }

  // ---------------------------------------------------------------- whence a lock comes

  /** The pass restored every reference that its validation recorded for the plan, but those marked to be skipped. */
  ghost predicate RestoredIn(p: Pass, q: string) {
    AllReported(p.end.events, |p.start.events|, q, PlanOf(p.checked.stored, q).clusters)
  }

  /** A pass over a single plan locks it for no other reason than that its restore went through. */
  lemma SinglePlanLockIsEarned(p: Pass, q: string)
    requires IsPass(p) && p.env.spec.Keys == {q} && !PlanOf(p.start.stored, q).lock && PlanOf(p.end.stored, q).lock
    ensures RestoredIn(p, q)
  {
    assert q in p.env.spec.Keys;
    SinglePlanKeepsItsLock(p.start.stored, p.checked.stored, p.order, q);
    NewLocksAreEarned(p, q);
  }

  /** In every run of a new resource with one plan: if it is locked, some pass restored it. */
  lemma {:induction false} SinglePlanLockIsSound(ps: seq<Pass>, q: string, n: nat) returns (i: nat)
    requires IsRun(ps) && n < |ps| && New(ps[0].start) && PlanOf(ps[n].end.stored, q).lock
    requires forall i :: 0 <= i < |ps| ==> ps[i].env.spec.Keys == {q}
    ensures i <= n && RestoredIn(ps[i], q)
    decreases n
  {
    if PlanOf(ps[n].start.stored, q).lock {
      StoredBetween(ps, n);
      i := SinglePlanLockIsSound(ps, q, n - 1);
    } else {
      EarnedAt(ps, q, n);
      i := n;
    }
  }

  /** A run of a new resource begins unlocked; a later pass begins with what the one before left. */
  lemma StoredBetween(ps: seq<Pass>, n: nat)
    requires IsRun(ps) && n < |ps|
    ensures n > 0 ==> ps[n].start.stored == ps[n - 1].end.stored
  {
    if n > 0 { assert CarriesOn(ps[n - 1].end, ps[n].start); }
  }

  lemma EarnedAt(ps: seq<Pass>, q: string, n: nat)
    requires IsRun(ps) && n < |ps| && ps[n].env.spec.Keys == {q}
    requires !PlanOf(ps[n].start.stored, q).lock && PlanOf(ps[n].end.stored, q).lock
    ensures RestoredIn(ps[n], q)
  {
    SinglePlanLockIsEarned(ps[n], q);
  }

  // ---------------------------------------------------------------- hooks

  /** In every pass of the run, every hook that derives the name takes the result `e` as done. */
  ghost predicate AlwaysRests(ps: seq<Pass>, plan: string, id: Key, ev: HookEvent, e: HookStatus) {
    forall i :: 0 <= i < |ps| ==> Rests(ps[i].env, plan, id, ev, e)
  }

  /** Then the result stays recorded, and no Job is created for it in the whole run. */
  lemma {:induction false} DoneHooksRestForever(ps: seq<Pass>, plan: string, id: Key, ev: HookEvent, e: HookStatus,
          j: nat)
    requires IsRun(ps) && j < |ps| && AlwaysRests(ps, plan, id, ev, e)
    requires RestingIn(ps[0].env, ps[0].start.stored, plan, id, ev, e)
    ensures RestingIn(ps[j].env, ps[j].end.stored, plan, id, ev, e)
    ensures ps[0].start.events <= ps[j].end.events && NoJob(ps[0].start.events, ps[j].end.events, plan, id, ev)
    decreases j
  {
    LogPrefixes(ps[j]);
    if j > 0 {
      DoneHooksRestForever(ps, plan, id, ev, e, j - 1);
      assert CarriesOn(ps[j - 1].end, ps[j].start) && SameNames(ps[j - 1].env, ps[j].env);
      assert Rests(ps[j].env, plan, id, ev, e);
      assert RestingIn(ps[j].env, ps[j].start.stored, plan, id, ev, e);
    }
    DoneHooksRest(ps[j], plan, id, ev, e);
    if j > 0 { NoJobBetween(ps[0].start.events, ps[j].start.events, ps[j].end.events, plan, id, ev); }
  }

  /** In no pass of the run is there a mutable hook that derives the name. */
  ghost predicate NeverMutable(ps: seq<Pass>, id: Key) {
    forall i :: 0 <= i < |ps| ==> !MutableName(ps[i].env, id)
  }

  /**
   At most one success: once a success is recorded under a name no mutable hook derives, no Job is
   created under it again, whatever the spec is edited to.
   */
  lemma SucceededHooksNeverRunAgain(ps: seq<Pass>, plan: string, id: Key, ev: HookEvent, e: HookStatus, j: nat)
    requires IsRun(ps) && j < |ps| && NeverMutable(ps, id) && id.namespace == ps[0].env.namespace
    requires Find(HooksOf(ps[0].start.stored, plan), id.name, ev) == Some(e) && e.succeeded != 0
    ensures Find(HooksOf(ps[j].end.stored, plan), id.name, ev) == Some(e)
    ensures ps[0].start.events <= ps[j].end.events && NoJob(ps[0].start.events, ps[j].end.events, plan, id, ev)
  {
    forall i | 0 <= i < |ps| ensures Rests(ps[i].env, plan, id, ev, e) {
      ImmutableRests(ps[i].env, plan, id, ev, e);
    }
    DoneHooksRestForever(ps, plan, id, ev, e, j);
  }

  lemma ImmutableRests(env: Env, plan: string, id: Key, ev: HookEvent, e: HookStatus)
    requires !MutableName(env, id) && e.succeeded != 0
    ensures Rests(env, plan, id, ev, e)
  {
  }

  /**
   In every run of a new resource, whatever status writes failed: no key occurs twice among the results
   recorded for a plan, and a recorded success is that of a Job the log shows launched, and later seen
   to succeed.
   */
  lemma {:induction false} HookResultsAreSound(ps: seq<Pass>, j: nat)
    requires IsRun(ps) && j < |ps| && New(ps[0].start)
    ensures Sound(ps[j].env.namespace, ps[j].end.stored, ps[j].end.events)
    decreases j
  {
    if j > 0 {
      HookResultsAreSound(ps, j - 1);
      assert CarriesOn(ps[j - 1].end, ps[j].start) && SameNames(ps[j - 1].env, ps[j].env);
    }
    HookResultsStaySound(ps[j]);
  }

  /** All Jobs so far under this name ran what the ConfigMap of the name holds. */
  ghost predicate RanAsFrozen(m: Moment, id: Key) {
    forall i :: 0 <= i < |m.events| && m.events[i].JobCreated? && m.events[i].id == id ==>
      id in m.configs && m.configs[id] == HookConfig(m.events[i].command, m.events[i].args)
  }

  lemma {:induction false} JobsRunAsFrozen(ps: seq<Pass>, id: Key, j: nat)
    requires IsRun(ps) && j < |ps| && NeverMutable(ps, id) && RanAsFrozen(ps[0].start, id)
    ensures RanAsFrozen(ps[j].end, id)
    decreases j
  {
    if j > 0 {
      JobsRunAsFrozen(ps, id, j - 1);
      assert CarriesOn(ps[j - 1].end, ps[j].start);
    }
    PassRunsAsFrozen(ps[j], id);
  }

  lemma PassRunsAsFrozen(p: Pass, id: Key)
    requires IsPass(p) && !MutableName(p.env, id) && RanAsFrozen(p.start, id)
    ensures RanAsFrozen(p.end, id)
  {
    ConfigsStayFrozen(p, id);
    LogPrefixes(p);
    StillAsFrozen(p.start, p.end, id);
  }

  lemma StillAsFrozen(a: Moment, b: Moment, id: Key)
    requires RanAsFrozen(a, id) && a.events <= b.events
      && (id in a.configs ==> id in b.configs && b.configs[id] == a.configs[id])
    requires forall i :: |a.events| <= i < |b.events| && b.events[i].JobCreated? && b.events[i].id == id ==>
      id in b.configs && b.configs[id] == HookConfig(b.events[i].command, b.events[i].args)
    ensures RanAsFrozen(b, id)
  {
    forall i | 0 <= i < |b.events| && b.events[i].JobCreated? && b.events[i].id == id
      ensures id in b.configs && b.configs[id] == HookConfig(b.events[i].command, b.events[i].args)
    {
      if i < |a.events| { assert b.events[i] == a.events[i]; }
    }
  }

  /** All Jobs a hook that is never mutable ever gets run the command and arguments of the
      first, despite edits of the spec. */
  lemma FirstAttemptDecides(ps: seq<Pass>, id: Key, j: nat, m: nat, n: nat)
    requires IsRun(ps) && j < |ps| && NeverMutable(ps, id) && New(ps[0].start)
    requires m < |ps[j].end.events| && n < |ps[j].end.events|
    requires ps[j].end.events[m].JobCreated? && ps[j].end.events[n].JobCreated?
    requires ps[j].end.events[m].id == id && ps[j].end.events[n].id == id
    ensures ps[j].end.events[m].command == ps[j].end.events[n].command
      && ps[j].end.events[m].args == ps[j].end.events[n].args
  {
    JobsRunAsFrozen(ps, id, j);
  }

  lemma ConfigsBetween(ps: seq<Pass>, j: nat)
    requires IsRun(ps) && 0 < j < |ps|
    ensures ps[j].start.configs == ps[j - 1].end.configs
  {
    assert CarriesOn(ps[j - 1].end, ps[j].start);
  }

  /** What a ConfigMap came to hold in pass `j`, its spec says of the hook it is named after. */
  lemma NewConfigsAt(ps: seq<Pass>, id: Key, j: nat) returns (plan: string, hook: string)
    requires IsRun(ps) && j < |ps| && id in ps[j].end.configs
    requires id !in ps[j].start.configs || ps[j].end.configs[id] != ps[j].start.configs[id]
    ensures HoldsWhatSpecSays(ps[j].env, plan, hook, id, ps[j].end.configs[id])
  {
    plan, hook := NewConfigsHoldWhatSpecSays(ps[j], id);
  }

  /** Whatever a ConfigMap of hooks holds, the spec of some pass so far said so of the hook it is named after. */
  lemma {:induction false} ConfigsHoldWhatSpecsSaid(ps: seq<Pass>, id: Key, j: nat)
    returns (i: nat, plan: string, hook: string)
    requires IsRun(ps) && j < |ps| && id !in ps[0].start.configs && id in ps[j].end.configs
    ensures i <= j && HoldsWhatSpecSays(ps[i].env, plan, hook, id, ps[j].end.configs[id])
    decreases j
  {
    if id in ps[j].start.configs && ps[j].end.configs[id] == ps[j].start.configs[id] {
      ConfigsBetween(ps, j);
      i, plan, hook := ConfigsHoldWhatSpecsSaid(ps, id, j - 1);
    } else {
      i := j;
      plan, hook := NewConfigsAt(ps, id, j);
    }
  }

  /** Every Job of a name no mutable hook has runs the command and the arguments some pass's spec had. */
  lemma JobsRunWhatSpecsSaid(ps: seq<Pass>, id: Key, j: nat, m: nat, e: Event)
    returns (i: nat, plan: string, hook: string)
    requires IsRun(ps) && j < |ps| && NeverMutable(ps, id) && New(ps[0].start) && id !in ps[0].start.configs
    requires m < |ps[j].end.events| && e == ps[j].end.events[m] && e.JobCreated? && e.id == id
    ensures i <= j && plan in ps[i].env.spec && hook in ps[i].env.spec[plan].hooks
    ensures NamedAfter(ps[i].env, plan, hook, id)
    ensures e.command == ps[i].env.spec[plan].hooks[hook].command && e.args == ps[i].env.spec[plan].hooks[hook].args
  {
    JobsRunAsFrozen(ps, id, j);
    i, plan, hook := ConfigsHoldWhatSpecsSaid(ps, id, j);
  }

  /** Once a pass began with the plan locked, no later pass creates a Job of a hook before its restore. */
  lemma NoPreRestoreJobsEver(ps: seq<Pass>, q: string, j: nat, i: nat)
    requires IsRun(ps) && AlwaysInSpec(ps, q) && j < |ps| && PlanOf(ps[0].start.stored, q).lock
    requires |ps[j].start.events| <= i < |ps[j].end.events| && ps[j].end.events[i].JobCreated?
      && ps[j].end.events[i].plan == q
    ensures ps[j].end.events[i].event == PostRestore
  {
    LockAndRestorePointStay(ps, q, j);
    if ps[j].end.events[i].event == PreRestore { NoPreRestoreJobsOnceLocked(ps[j], i); }
  }

  // ---------------------------------------------------------------- the fixed point

  /** Neither the spec nor the nodes change during the run. */
  ghost predicate Undisturbed(ps: seq<Pass>) {
    forall i, j :: 0 <= i < j < |ps| && j == i + 1 ==> ps[j].env.spec == ps[i].env.spec && ps[j].site == ps[i].site
  }

  /** From a settled status on nothing but the status is ever written, however the passes end. */
  lemma {:induction false} SettledForever(ps: seq<Pass>, j: nat)
    requires IsRun(ps) && Undisturbed(ps) && j < |ps| && Settled(ps[0].env, ps[0].site, ps[0].start.stored)
    ensures ps[j].end.events == ps[0].start.events && ps[j].end.configs == ps[0].start.configs
    ensures Settled(ps[j].env, ps[j].site, ps[j].end.stored)
    decreases j
  {
    if j > 0 {
      SettledForever(ps, j - 1);
      assert CarriesOn(ps[j - 1].end, ps[j].start) && SameNames(ps[j - 1].env, ps[j].env);
      assert ps[j].env == ps[j - 1].env;
    }
    SettledPassWritesNothing(ps[j]);
  }

  /**
   The fixed point. After a pass of a new resource's run completes with all status writes done, no
   later pass writes anything but the status, as long as spec and nodes stay.
   */
  lemma CompletionIsFinal(ps: seq<Pass>, k: nat, j: nat)
    requires IsRun(ps) && PlansStay(ps) && k < j < |ps| && ps[0].start.stored.plans.Keys <= ps[0].env.spec.Keys
    requires ps[k].reached >= 7 && ps[k].clean && NoneRival(ps[k].env, PostRestore, ps[k].site)
    requires Undisturbed(ps[k..])
    ensures ps[j].end.events == ps[k].end.events && ps[j].end.configs == ps[k].end.configs
  {
    SettledAfter(ps, k);
    RunOfSuffix(ps, k + 1);
    UndisturbedAfter(ps, k);
    SettledForever(ps[k + 1..], j - k - 1);
    assert CarriesOn(ps[k].end, ps[k + 1].start);
  }

  /** Exactly then: with rivals each later pass that completes without a lost write launches a Job again. */
  lemma CompletionIsFinalIff(ps: seq<Pass>, k: nat, j: nat)
    requires IsRun(ps) && PlansStay(ps) && k < j < |ps| && ps[0].start.stored.plans.Keys <= ps[0].env.spec.Keys
    requires ps[k].reached >= 7 && ps[k].clean && ps[j].reached >= 7 && ps[j].clean && Undisturbed(ps[k..])
    ensures ps[j].end.events == ps[k].end.events <==> NoneRival(ps[k].env, PostRestore, ps[k].site)
  {
    if NoneRival(ps[k].env, PostRestore, ps[k].site) {
      CompletionIsFinal(ps, k, j);
    } else {
      var g, h, id :| FromSpec(ps[k].env, PostRestore, g) && FromSpec(ps[k].env, PostRestore, h)
        && AreRivals(ps[k].site, g, h, id);
      StillTheSame(ps, k, j);
      RivalsRunAgain(ps[j], g, h, id);
      LogPrefixes(ps[j]);
    }
  }

  lemma StillTheSame(ps: seq<Pass>, k: nat, j: nat)
    requires IsRun(ps) && k < j < |ps| && Undisturbed(ps[k..])
    ensures ps[j].env == ps[k].env && ps[j].site == ps[k].site && ps[k].end.events <= ps[j].start.events
  {
    forall i | k < i <= j ensures SameAgain(ps, i) { UndisturbedStep(ps, k, i); }
    SameThroughout(ps, k, j);
  }

  /** Pass `i` finds the spec, the nodes and the log as the one before, but for what that one logged. */
  ghost predicate SameAgain(ps: seq<Pass>, i: nat)
    requires 0 < i < |ps|
  {
    && ps[i].env == ps[i - 1].env && ps[i].site == ps[i - 1].site
    && ps[i - 1].start.events <= ps[i - 1].end.events == ps[i].start.events
  }

  lemma {:induction false} SameThroughout(ps: seq<Pass>, k: nat, j: nat)
    requires k < j < |ps| && forall i :: k < i <= j ==> SameAgain(ps, i)
    ensures ps[j].env == ps[k].env && ps[j].site == ps[k].site && ps[k].end.events <= ps[j].start.events
    decreases j
  {
    assert SameAgain(ps, j);
    if k < j - 1 { SameThroughout(ps, k, j - 1); }
  }

  lemma UndisturbedStep(ps: seq<Pass>, k: nat, j: nat)
    requires IsRun(ps) && k < j < |ps| && Undisturbed(ps[k..])
    ensures SameAgain(ps, j)
  {
    FollowsAt(ps, j);
    LogPrefixes(ps[j - 1]);
    assert ps[k..][j - k] == ps[j] && ps[k..][j - k - 1] == ps[j - 1];
  }

  lemma FollowsAt(ps: seq<Pass>, j: nat)
    requires IsRun(ps) && 0 < j < |ps|
    ensures Follows(ps[j - 1], ps[j]) && IsPass(ps[j - 1]) && IsPass(ps[j])
  {
  }

  lemma SettledAfter(ps: seq<Pass>, k: nat)
    requires IsRun(ps) && PlansStay(ps) && k < |ps| && ps[0].start.stored.plans.Keys <= ps[0].env.spec.Keys
    requires ps[k].reached >= 7 && ps[k].clean && NoneRival(ps[k].env, PostRestore, ps[k].site)
    ensures Settled(ps[k].env, ps[k].site, ps[k].end.stored)
  {
    RunOfPrefix(ps, k + 1);
    StatusFollowsSpec(ps[..k + 1]);
    assert ps[..k + 1][k] == ps[k];
    CompletionSettles(ps[k]);
  }

  lemma UndisturbedAfter(ps: seq<Pass>, k: nat)
    requires IsRun(ps) && k + 1 < |ps| && Undisturbed(ps[k..])
    ensures Undisturbed(ps[k + 1..])
    ensures ps[k + 1].env == ps[k].env && ps[k + 1].site == ps[k].site && ps[k + 1].start.stored == ps[k].end.stored
  {
    var tail := ps[k..];
    assert tail[0] == ps[k] && tail[1] == ps[k + 1];
    assert CarriesOn(ps[k].end, ps[k + 1].start) && SameNames(ps[k].env, ps[k + 1].env);
    var rest := ps[k + 1..];
    forall i, j | 0 <= i < j < |rest| && j == i + 1
      ensures rest[j].env.spec == rest[i].env.spec && rest[j].site == rest[i].site
    {
      assert rest[i] == tail[i + 1] && rest[j] == tail[j + 1];
    }
  }

  lemma RunOfSuffix(ps: seq<Pass>, n: nat)
    requires IsRun(ps) && n <= |ps|
    ensures IsRun(ps[n..])
  {
    LinkedPart(ps, n, |ps|, IsPass, Follows);
    assert ps[n..|ps|] == ps[n..];
  }

  // ---------------------------------------------------------------- the operator at work

  /** The cluster moves on, the spec is edited, and the resource is reconciled. */
  method NextPass(c: Cluster, spec: Spec) returns (ghost p: Pass)
    modifies c
    ensures IsPass(p) && p.env == Env(c.scheme, c.namespace, spec) && c.namespace == old(c.namespace)
    ensures CarriesOn(old(Now(c)), p.start) && p.end == Now(c)
  {
    c.Between(spec);
    var _, _, q := Reconcile(c);
    p := q;
  }

  /** The passes so far, one for each spec, lead from `a` to `b`. */
  ghost predicate RunBetween(ps: seq<Pass>, specs: seq<Spec>, names: Env, a: Moment, b: Moment) {
    && IsRun(ps) && |ps| == |specs|
    && (forall i :: 0 <= i < |ps| ==> ps[i].env.spec == specs[i])
    && (if ps == [] then b == a
        else CarriesOn(a, ps[0].start) && ps[|ps| - 1].end == b && SameNames(names, ps[|ps| - 1].env))
  }

  lemma OneMorePass(ps: seq<Pass>, specs: seq<Spec>, names: Env, a: Moment, p: Pass, b: Moment, spec: Spec)
    requires RunBetween(ps, specs, names, a, b) && IsPass(p) && CarriesOn(b, p.start)
    requires p.env.spec == spec && SameNames(names, p.env)
    ensures RunBetween(ps + [p], specs + [spec], names, a, p.end)
  {
    LinkedLonger(ps, p, IsPass, Follows);
  }

  /** The work queue: pass after pass, with the spec as each pass finds it. What it does is a run. */
  method Requeue(c: Cluster, specs: seq<Spec>) returns (ghost ps: seq<Pass>)
    modifies c
    ensures RunBetween(ps, specs, Env(c.scheme, old(c.namespace), map[]), old(Now(c)), Now(c))
  {
    ps := [];
    ghost var a, names := Now(c), Env(c.scheme, c.namespace, map[]);
    for i := 0 to |specs|
      invariant RunBetween(ps, specs[..i], names, a, Now(c)) && c.namespace == names.namespace
    {
      ghost var b := Now(c);
      ghost var p := NextPass(c, specs[i]);
      OneMorePass(ps, specs[..i], names, a, p, b, specs[i]);
      OneMoreSpec(specs, i);
      ps := ps + [p];
    }
    WholeList(specs);
  }

  lemma OneMoreSpec(specs: seq<Spec>, i: nat)
    requires i < |specs|
    ensures specs[..i + 1] == specs[..i] + [specs[i]]
  {
  }

  lemma WholeList(specs: seq<Spec>)
    ensures specs[..|specs|] == specs
  {
  }
}
