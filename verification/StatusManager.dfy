/**
 Writing the status. A mutator is applied to a copy; if nothing changed nothing is sent; otherwise
 the difference is sent as a JSON merge patch and, when the server accepts it, the object is
 overwritten with what the server now holds.
 */
module StatusManager {
  import opened Api
  import opened HookList
  import opened Kube

  // ---------------------------------------------------------------- merge patches

  /** A field the patch mentions only if it changed (RFC 7396). */
  function Pick<T(==)>(stored: T, from: T, to: T): T {
    if from == to then stored else to
  }

  /** Objects merge field by field; the lists of a plan are replaced whole. */
  function MergePlan(stored: PlanStatus, from: PlanStatus, to: PlanStatus): PlanStatus {
    PlanStatus(
      Pick(stored.snapshotRestoreTime, from.snapshotRestoreTime, to.snapshotRestoreTime),
      Pick(stored.lock, from.lock, to.lock),
      Pick(stored.countScaleUp, from.countScaleUp, to.countScaleUp),
      Pick(stored.clusters, from.clusters, to.clusters),
      Pick(stored.operators, from.operators, to.operators),
      Pick(stored.hooks, from.hooks, to.hooks))
  }

  /** The stored status after the patch that turns `from` into `to`; no plan is ever removed. */
  function Merge(stored: Status, from: Status, to: Status): Status {
    Status(
      Pick(stored.phase, from.phase, to.phase),
      Pick(stored.activePlan, from.activePlan, to.activePlan),
      map p | p in stored.plans.Keys + to.plans.Keys ::
        if p in to.plans then MergePlan(PlanOf(stored, p), PlanOf(from, p), to.plans[p]) else stored.plans[p])
  }

  /** Equal, except perhaps in the hook results recorded so far. */
  predicate SamePlanButHooks(a: PlanStatus, b: PlanStatus) { a == b.(hooks := a.hooks) }

  ghost predicate SameButHooks(a: Status, b: Status) {
    && a.phase == b.phase && a.activePlan == b.activePlan && a.plans.Keys == b.plans.Keys
    && forall p :: p in a.plans ==> SamePlanButHooks(a.plans[p], b.plans[p])
  }

  /** Patching an unchanged stored status yields the mutated status. */
  lemma MergeOfCurrent(from: Status, to: Status)
    requires from.plans.Keys <= to.plans.Keys
    ensures Merge(from, from, to) == to
  {
    var m := Merge(from, from, to);
    forall p | p in m.plans ensures p in to.plans && m.plans[p] == to.plans[p] {
    }
    assert m.plans.Keys == to.plans.Keys;
    assert m.plans == to.plans;
  }

  /** A stored status that lags behind in hook results only, lags in nothing else after a patch. */
  lemma MergeKeepsSync(stored: Status, from: Status, to: Status)
    requires SameButHooks(stored, from) && from.plans.Keys <= to.plans.Keys
    ensures SameButHooks(Merge(stored, from, to), to)
  {
    var m := Merge(stored, from, to);
    assert m.plans.Keys == to.plans.Keys;
    forall p | p in m.plans ensures SamePlanButHooks(m.plans[p], to.plans[p]) {
      if p in from.plans {
        assert SamePlanButHooks(stored.plans[p], from.plans[p]);
      }
    }
  }

  // ---------------------------------------------------------------- mutators

  function WithPhase(st: Status, phase: Phase): Status { st.(phase := phase) }

  function WithActivePlan(st: Status, plan: string): Status { st.(activePlan := plan) }

  function WithPlan(st: Status, plan: string, value: PlanStatus): Status { st.(plans := st.plans[plan := value]) }

  function WithValidated(st: Status, plan: string, time: string, lock: bool,
                         clusters: seq<TargetStatus>, operators: seq<TargetStatus>): Status {
    WithPlan(st, plan,
      PlanOf(st, plan).(lock := lock, snapshotRestoreTime := time, clusters := clusters, operators := operators))
  }

  function WithScaled(st: Status, plan: string, count: int,
                      clusters: seq<TargetStatus>, operators: seq<TargetStatus>): Status {
    WithPlan(st, plan, PlanOf(st, plan).(clusters := clusters, operators := operators, countScaleUp := count))
  }

  function WithRestored(st: Status, plan: string, lock: bool,
                        clusters: seq<TargetStatus>, operators: seq<TargetStatus>): Status {
    WithPlan(st, plan, PlanOf(st, plan).(clusters := clusters, operators := operators, lock := lock))
  }

  /** Which fields of which plan each of these writes; all other plans, the phase and the active plan stay. */
  lemma SettersWriteTheirFields(st: Status, q: string, time: string, lock: bool, count: int,
                                clusters: seq<TargetStatus>, operators: seq<TargetStatus>)
    ensures var w, p := WithValidated(st, q, time, lock, clusters, operators), PlanOf(st, q);
      w == st.(plans := st.plans[q := PlanStatus(time, lock, p.countScaleUp, clusters, operators, p.hooks)])
    ensures var w, p := WithScaled(st, q, count, clusters, operators), PlanOf(st, q);
      w == st.(plans := st.plans[q := PlanStatus(p.snapshotRestoreTime, p.lock, count, clusters, operators, p.hooks)])
    ensures var w, p := WithRestored(st, q, lock, clusters, operators), PlanOf(st, q);
      w == st.(plans := st.plans[q :=
        PlanStatus(p.snapshotRestoreTime, lock, p.countScaleUp, clusters, operators, p.hooks)])
    ensures PlanOf(st, q) == if q in st.plans then st.plans[q] else PlanStatus("", false, 0, [], [], [])
  {
  }

  /** And the writes of single fields. */
  lemma PhasesAndActivePlansAreFields(st: Status, phase: Phase, plan: string)
    ensures WithPhase(st, phase) == Status(phase, st.activePlan, st.plans)
    ensures WithActivePlan(st, plan) == Status(st.phase, plan, st.plans)
  {
  }

  function WithHook(st: Status, plan: string, hook: HookStatus): Status {
    WithPlan(st, plan, PlanOf(st, plan).(hooks := Upsert(PlanOf(st, plan).hooks, hook)))
  }

  // ---------------------------------------------------------------- Patch

  /**
   `target` is what the mutation makes of the stored status when only hook results lag. On success
   the object equals what is stored, unless the mutation changed nothing and nothing was sent.
   */
  method Patch(c: Cluster, obj: RestoreObject, after: Status) returns (r: Result<()>)
    requires SameButHooks(c.status, obj.status) && obj.status.plans.Keys <= after.plans.Keys
    modifies obj`status, c`status, c`history, c`lostWrites
    ensures after == old(obj.status) ==>
      r.Ok? && obj.status == old(obj.status) && c.status == old(c.status) && c.history == old(c.history)
    ensures after != old(obj.status) && r.Ok? ==>
      obj.status == c.status == Merge(old(c.status), old(obj.status), after) && c.history == old(c.history) + [c.status]
    ensures after != old(obj.status) && r.Err? ==>
      obj.status == after
      && ((c.status == old(c.status) && c.history == old(c.history))
          || (c.status == Merge(old(c.status), old(obj.status), after) && c.history == old(c.history) + [c.status]))
    ensures c.lostWrites == old(c.lostWrites) + if r.Err? then 1 else 0
    ensures r.Ok? ==> SameButHooks(c.status, obj.status) && SameButHooks(obj.status, after)
  {
    MergeKeepsSync(c.status, obj.status, after);
    if obj.status == after {
      return Ok(());
    }
    var from := obj.status;
    obj.status := after;
    if * {
      c.lostWrites := c.lostWrites + 1;
      var e := Cluster.Fault(); return Err(e);
    }
    c.status := Merge(c.status, from, after);
    c.history := c.history + [c.status];
    if * {
      c.lostWrites := c.lostWrites + 1;
      var e := Cluster.Fault(); return Err(e);
    }
    obj.status := c.status;
    return Ok(());
  }

  // ---------------------------------------------------------------- stages

  /** A plan's progress: not restored, restored and locked, scaled up again. */
  predicate Staged(p: PlanStatus) {
    p.countScaleUp == 0 || (p.countScaleUp == 1 && p.lock)
  }

  predicate SameStage(a: PlanStatus, b: PlanStatus) { a.lock == b.lock && a.countScaleUp == b.countScaleUp }

  /** One write moves a plan at most one stage, and only forwards. */
  predicate StageStep(a: PlanStatus, b: PlanStatus) {
    || SameStage(a, b)
    || (!a.lock && a.countScaleUp == 0 && b.lock && b.countScaleUp == 0)
    || (a.lock && a.countScaleUp == 0 && b.lock && b.countScaleUp == 1)
  }

  /** A write also leaves a restore point alone once a plan is locked to it. */
  predicate PlanStep(a: PlanStatus, b: PlanStatus) {
    && StageStep(a, b)
    && (a.lock && a.snapshotRestoreTime != "" ==> b.snapshotRestoreTime == a.snapshotRestoreTime)
  }

  ghost predicate PlanSteps(s: Status, t: Status, plans: set<string>) {
    forall p :: p in plans ==> Staged(PlanOf(s, p)) && Staged(PlanOf(t, p)) && PlanStep(PlanOf(s, p), PlanOf(t, p))
  }

  ghost predicate AllStaged(s: Status, plans: set<string>) {
    forall p :: p in plans ==> Staged(PlanOf(s, p))
  }

  /** Every write recorded so far was such a step for each of `plans`. */
  ghost predicate Moves(history: seq<Status>, plans: set<string>) {
    forall i :: 0 < i < |history| ==> PlanSteps(history[i - 1], history[i], plans)
  }

  /** A history that ends in the stored status, and made only such steps. */
  ghost predicate Orderly(history: seq<Status>, stored: Status, plans: set<string>) {
    && |history| > 0 && history[|history| - 1] == stored
    && AllStaged(stored, plans)
    && Moves(history, plans)
  }

  // ---------------------------------------------------------------- setters

  /**
   How a write that aimed at `target` can end: stored, or failed with or without effect. An object
   that equalled the stored status, or lagged in hook results only, still does after a success.
   */
  ghost predicate Outcome(s0: Status, o0: Status, s1: Status, o1: Status, ok: bool, target: Status) {
    && (ok ==> s1 == target && SameButHooks(s1, o1))
    && (ok && s0 == o0 ==> o1 == s1)
    && (s1 == s0 || s1 == target)
  }

  twostate predicate Written(c: Cluster, obj: RestoreObject, ok: bool, target: Status)
    reads c, obj
  {
    && Outcome(old(c.status), old(obj.status), c.status, obj.status, ok, target)
    && Recorded(old(c.history), old(c.status), c.history, c.status)
    && (c.history != old(c.history) ==> c.status == target)
    && c.lostWrites == old(c.lostWrites) + (if ok then 0 else 1)
  }

  /** The history of the stored status grew by the new value, if there is one. */
  predicate Recorded(h0: seq<Status>, s0: Status, h1: seq<Status>, s1: Status) {
    (h1 == h0 && s1 == s0) || h1 == h0 + [s1]
  }

  lemma MovesSnoc(history: seq<Status>, next: Status, plans: set<string>)
    requires |history| > 0 && Moves(history, plans)
    requires PlanSteps(history[|history| - 1], next, plans)
    ensures Moves(history + [next], plans)
  {
    var h := history + [next];
    forall i | 0 < i < |h| ensures PlanSteps(h[i - 1], h[i], plans) {
      if i < |history| { assert PlanSteps(history[i - 1], history[i], plans); }
    }
  }

  /** A write that moves every plan by a legal step keeps the history orderly. */
  lemma StaysOrderly(h0: seq<Status>, s0: Status, h1: seq<Status>, s1: Status, plans: set<string>)
    requires Orderly(h0, s0, plans) && Recorded(h0, s0, h1, s1) && PlanSteps(s0, s1, plans)
    ensures Orderly(h1, s1, plans)
  {
    if h1 == h0 + [s1] {
      MovesSnoc(h0, s1, plans);
    }
  }

  // ---------------------------------------------------------------- what a stretch of writes keeps

  /** No value stored since was `Completed`. */
  ghost predicate QuietSince(h0: seq<Status>, h1: seq<Status>) {
    h0 <= h1 && forall i :: |h0| <= i < |h1| ==> h1[i].phase != Completed
  }

  /** Unless it was there from the start, the phase `Completed` was not written. */
  ghost predicate Quiet(h0: seq<Status>, s0: Status, h1: seq<Status>, s1: Status) {
    s0.phase != Completed ==> s1.phase != Completed && QuietSince(h0, h1)
  }

  lemma QuietSinceTransitively(h0: seq<Status>, h1: seq<Status>, h2: seq<Status>)
    requires QuietSince(h0, h1) && QuietSince(h1, h2)
    ensures QuietSince(h0, h2)
  {
    forall i | |h0| <= i < |h2| ensures h2[i].phase != Completed {
      if i < |h1| { assert h2[i] == h1[i]; }
    }
  }

  lemma QuietTransitively(h0: seq<Status>, s0: Status, h1: seq<Status>, s1: Status, h2: seq<Status>, s2: Status)
    requires Quiet(h0, s0, h1, s1) && Quiet(h1, s1, h2, s2)
    ensures Quiet(h0, s0, h2, s2)
  {
    if s0.phase != Completed { QuietSinceTransitively(h0, h1, h2); }
  }

  /** What such a write must do to the one plan it changes, for the history to stay orderly. */
  ghost predicate KeepsOrder(h0: seq<Status>, s0: Status, h1: seq<Status>, s1: Status, plan: string, value: PlanStatus)
  {
    && Quiet(h0, s0, h1, s1)
    && forall plans {:trigger Orderly(h1, s1, plans)} ::
      Orderly(h0, s0, plans) && (plan in plans ==> Staged(value) && PlanStep(PlanOf(s0, plan), value))
      ==> Orderly(h1, s1, plans)
  }

  lemma PlanWriteKeepsOrder(h0: seq<Status>, s0: Status, h1: seq<Status>, s1: Status, plan: string, value: PlanStatus)
    requires Recorded(h0, s0, h1, s1) && (s1 == s0 || s1 == WithPlan(s0, plan, value))
    ensures KeepsOrder(h0, s0, h1, s1, plan, value)
  {
    forall plans |
      Orderly(h0, s0, plans) && (plan in plans ==> Staged(value) && PlanStep(PlanOf(s0, plan), value))
      ensures Orderly(h1, s1, plans)
    {
      StaysOrderly(h0, s0, h1, s1, plans);
    }
  }

  /** Phases, the active plan and hook results move no plan. */
  ghost predicate MovesNoPlan(h0: seq<Status>, s0: Status, h1: seq<Status>, s1: Status) {
    forall plans {:trigger Orderly(h1, s1, plans)} :: Orderly(h0, s0, plans) ==> Orderly(h1, s1, plans)
  }

  ghost predicate KeepsAnyOrder(h0: seq<Status>, s0: Status, h1: seq<Status>, s1: Status) {
    MovesNoPlan(h0, s0, h1, s1) && Quiet(h0, s0, h1, s1)
  }

  lemma NoPlanTransitively(h0: seq<Status>, s0: Status, h1: seq<Status>, s1: Status, h2: seq<Status>, s2: Status)
    requires MovesNoPlan(h0, s0, h1, s1) && MovesNoPlan(h1, s1, h2, s2)
    ensures MovesNoPlan(h0, s0, h2, s2)
  {
    forall plans | Orderly(h0, s0, plans) ensures Orderly(h2, s2, plans) {
      assert Orderly(h1, s1, plans);
    }
  }

  lemma AnyOrderTransitively(h0: seq<Status>, s0: Status, h1: seq<Status>, s1: Status, h2: seq<Status>, s2: Status)
    requires KeepsAnyOrder(h0, s0, h1, s1) && KeepsAnyOrder(h1, s1, h2, s2)
    ensures KeepsAnyOrder(h0, s0, h2, s2)
  {
    NoPlanTransitively(h0, s0, h1, s1, h2, s2);
    QuietTransitively(h0, s0, h1, s1, h2, s2);
  }

  lemma FieldWriteKeepsOrder(h0: seq<Status>, s0: Status, h1: seq<Status>, s1: Status)
    requires Recorded(h0, s0, h1, s1) && s1.plans == s0.plans
    ensures MovesNoPlan(h0, s0, h1, s1)
    ensures (s0.phase != Completed ==> s1.phase != Completed) ==> KeepsAnyOrder(h0, s0, h1, s1)
  {
    forall plans | Orderly(h0, s0, plans) ensures Orderly(h1, s1, plans) {
      StaysOrderly(h0, s0, h1, s1, plans);
    }
  }

  lemma MergeOfNothing(stored: Status, from: Status)
    requires SameButHooks(stored, from)
    ensures Merge(stored, from, from) == stored
  {
    var m := Merge(stored, from, from);
    assert m.plans.Keys == stored.plans.Keys;
    forall p | p in m.plans ensures m.plans[p] == stored.plans[p] {
      assert SamePlanButHooks(stored.plans[p], from.plans[p]);
    }
    assert m.plans == stored.plans;
  }

  /** A mutation of one plan that leaves its hooks alone does to the stored plan what it does to the object's. */
  lemma MergeOfPlan(stored: Status, from: Status, plan: string, value: PlanStatus)
    requires SameButHooks(stored, from) && value.hooks == PlanOf(from, plan).hooks
    ensures Merge(stored, from, WithPlan(from, plan, value))
         == WithPlan(stored, plan, value.(hooks := PlanOf(stored, plan).hooks))
  {
    var to := WithPlan(from, plan, value);
    var m, t := Merge(stored, from, to), WithPlan(stored, plan, value.(hooks := PlanOf(stored, plan).hooks));
    assert m.plans.Keys == t.plans.Keys;
    forall p | p in m.plans ensures m.plans[p] == t.plans[p] {
      if p in from.plans {
        assert SamePlanButHooks(stored.plans[p], from.plans[p]);
      }
    }
    assert m.plans == t.plans;
  }

  lemma MergeOfFields(stored: Status, from: Status, phase: Phase, active: string)
    requires SameButHooks(stored, from)
    ensures Merge(stored, from, from.(phase := phase, activePlan := active)) ==
      stored.(phase := phase, activePlan := active)
  {
    MergeOfNothing(stored, from);
  }

  /** The first write of a pass: the plan map exists from now on, and the phase is idle. */
  method SetInitStatusRestorePlan(c: Cluster, obj: RestoreObject) returns (r: Result<()>)
    requires SameButHooks(c.status, obj.status)
    modifies obj`status, c`status, c`history, c`lostWrites
    ensures Written(c, obj, r.Ok?, WithPhase(old(c.status), Idle))
    ensures KeepsAnyOrder(old(c.history), old(c.status), c.history, c.status)
  {
    MergeOfFields(c.status, obj.status, Idle, obj.status.activePlan);
    r := Patch(c, obj, WithPhase(obj.status, Idle));
    FieldWriteKeepsOrder(old(c.history), old(c.status), c.history, c.status);
  }

  method SetPhase(c: Cluster, obj: RestoreObject, phase: Phase) returns (r: Result<()>)
    requires SameButHooks(c.status, obj.status)
    modifies obj`status, c`status, c`history, c`lostWrites
    ensures Written(c, obj, r.Ok?, WithPhase(old(c.status), phase))
    ensures r.Ok? && phase != old(obj.status.phase) ==> obj.status == c.status
    ensures MovesNoPlan(old(c.history), old(c.status), c.history, c.status)
    ensures phase != Completed ==> KeepsAnyOrder(old(c.history), old(c.status), c.history, c.status)
  {
    MergeOfFields(c.status, obj.status, phase, obj.status.activePlan);
    r := Patch(c, obj, WithPhase(obj.status, phase));
    FieldWriteKeepsOrder(old(c.history), old(c.status), c.history, c.status);
  }

  method SetActivePlan(c: Cluster, obj: RestoreObject, plan: string) returns (r: Result<()>)
    requires SameButHooks(c.status, obj.status)
    modifies obj`status, c`status, c`history, c`lostWrites
    ensures Written(c, obj, r.Ok?, WithActivePlan(old(c.status), plan))
    ensures KeepsAnyOrder(old(c.history), old(c.status), c.history, c.status)
  {
    MergeOfFields(c.status, obj.status, obj.status.phase, plan);
    r := Patch(c, obj, WithActivePlan(obj.status, plan));
    FieldWriteKeepsOrder(old(c.history), old(c.status), c.history, c.status);
  }

  method SetValidateRestorePlan(c: Cluster, obj: RestoreObject, plan: string, time: string, lock: bool,
                                clusters: seq<TargetStatus>, operators: seq<TargetStatus>) returns (r: Result<()>)
    requires SameButHooks(c.status, obj.status)
    modifies obj`status, c`status, c`history, c`lostWrites
    ensures Written(c, obj, r.Ok?, WithValidated(old(c.status), plan, time, lock, clusters, operators))
    ensures KeepsOrder(old(c.history), old(c.status), c.history, c.status, plan,
      PlanOf(WithValidated(old(c.status), plan, time, lock, clusters, operators), plan))
  {
    var existing := PlanOf(obj.status, plan);
    existing := existing.(lock := lock);
    existing := existing.(snapshotRestoreTime := time);
    existing := existing.(clusters := clusters);
    existing := existing.(operators := operators);
    r := StorePlan(c, obj, plan, existing);
  }

  method SetScaleRestorePlan(c: Cluster, obj: RestoreObject, plan: string, count: int,
                             clusters: seq<TargetStatus>, operators: seq<TargetStatus>) returns (r: Result<()>)
    requires SameButHooks(c.status, obj.status)
    modifies obj`status, c`status, c`history, c`lostWrites
    ensures Written(c, obj, r.Ok?, WithScaled(old(c.status), plan, count, clusters, operators))
    ensures KeepsOrder(old(c.history), old(c.status), c.history, c.status, plan,
      PlanOf(WithScaled(old(c.status), plan, count, clusters, operators), plan))
  {
    var existing := PlanOf(obj.status, plan);
    existing := existing.(clusters := clusters);
    existing := existing.(operators := operators);
    existing := existing.(countScaleUp := count);
    r := StorePlan(c, obj, plan, existing);
  }

  method SetRestoreFromPlan(c: Cluster, obj: RestoreObject, plan: string, lock: bool,
                            clusters: seq<TargetStatus>, operators: seq<TargetStatus>) returns (r: Result<()>)
    requires SameButHooks(c.status, obj.status)
    modifies obj`status, c`status, c`history, c`lostWrites
    ensures Written(c, obj, r.Ok?, WithRestored(old(c.status), plan, lock, clusters, operators))
    ensures KeepsOrder(old(c.history), old(c.status), c.history, c.status, plan,
      PlanOf(WithRestored(old(c.status), plan, lock, clusters, operators), plan))
  {
    var existing := PlanOf(obj.status, plan);
    existing := existing.(clusters := clusters);
    existing := existing.(operators := operators);
    existing := existing.(lock := lock);
    r := StorePlan(c, obj, plan, existing);
  }

  /** The tail the plan mutators share: the changed entry goes back into the map and the status is patched. */
  method StorePlan(c: Cluster, obj: RestoreObject, plan: string, value: PlanStatus) returns (r: Result<()>)
    requires SameButHooks(c.status, obj.status) && value.hooks == PlanOf(obj.status, plan).hooks
    modifies obj`status, c`status, c`history, c`lostWrites
    ensures Written(c, obj, r.Ok?,
      old(WithPlan(c.status, plan, value.(hooks := PlanOf(c.status, plan).hooks))))
    ensures KeepsOrder(old(c.history), old(c.status), c.history, c.status, plan,
      value.(hooks := old(PlanOf(c.status, plan).hooks)))
  {
    MergeOfPlan(c.status, obj.status, plan, value);
    MergeOfNothing(c.status, obj.status);
    r := Patch(c, obj, WithPlan(obj.status, plan, value));
    PlanWriteKeepsOrder(old(c.history), old(c.status), c.history, c.status, plan,
      value.(hooks := old(PlanOf(c.status, plan).hooks)));
  }

  /** The hook results recorded for a plan. */
  function HooksOf(st: Status, plan: string): seq<HookStatus> { PlanOf(st, plan).hooks }

  /**
   How recording a hook result can end, from the stored status `s0` and the object's `o0`. The
   object always carries the result; the stored list is as before or the object's list; nothing
   but this plan's hook list is written.
   */
  ghost predicate HookOutcome(s0: Status, o0: Status, s1: Status, o1: Status, ok: bool, plan: string, hook: HookStatus)
  {
    && SameButHooks(s0, s1) && SameButHooks(s1, o1)
    && HooksOf(o1, plan) == Upsert(HooksOf(o0, plan), hook)
    && (HooksOf(s1, plan) == HooksOf(s0, plan) || HooksOf(s1, plan) == HooksOf(o1, plan))
    && (forall q :: q != plan ==> HooksOf(s1, q) == HooksOf(s0, q))
    && (forall q :: q != plan ==> HooksOf(o1, q) == HooksOf(o0, q) || HooksOf(o1, q) == HooksOf(s0, q))
    && (ok && s0 == o0 ==> s1 == o1)
  }

  function WithHooks(st: Status, plan: string, hooks: seq<HookStatus>): Status {
    WithPlan(st, plan, PlanOf(st, plan).(hooks := hooks))
  }

  lemma MergeOfHooks(s0: Status, o0: Status, plan: string, hooks: seq<HookStatus>)
    requires SameButHooks(s0, o0) && plan in o0.plans
    ensures Merge(s0, o0, WithHooks(o0, plan, hooks))
         == WithHooks(s0, plan, Pick(HooksOf(s0, plan), HooksOf(o0, plan), hooks))
  {
    var m := Merge(s0, o0, WithHooks(o0, plan, hooks));
    var t := WithHooks(s0, plan, Pick(HooksOf(s0, plan), HooksOf(o0, plan), hooks));
    assert m.plans.Keys == t.plans.Keys;
    forall p | p in m.plans ensures m.plans[p] == t.plans[p] {
      PlanMergeOfHooks(s0.plans[p], o0.plans[p], if p == plan then hooks else o0.plans[p].hooks);
    }
    assert m.plans == t.plans;
  }

  lemma PlanMergeOfHooks(stored: PlanStatus, from: PlanStatus, hooks: seq<HookStatus>)
    requires SamePlanButHooks(stored, from)
    ensures MergePlan(stored, from, from.(hooks := hooks)) == stored.(hooks := Pick(stored.hooks, from.hooks, hooks))
  {
  }

  lemma HooksOnly(s: Status, plan: string, hooks: seq<HookStatus>)
    requires plan in s.plans
    ensures SameButHooks(s, WithHooks(s, plan, hooks)) && SameButHooks(WithHooks(s, plan, hooks), s)
    ensures HooksOf(WithHooks(s, plan, hooks), plan) == hooks
    ensures forall q :: q != plan ==> HooksOf(WithHooks(s, plan, hooks), q) == HooksOf(s, q)
    ensures hooks == HooksOf(s, plan) ==> WithHooks(s, plan, hooks) == s
  {
    if hooks == HooksOf(s, plan) { assert WithHooks(s, plan, hooks).plans == s.plans; }
  }

  lemma HooksDoNotMoveStages(s: Status, t: Status, plans: set<string>)
    requires SameButHooks(s, t) && AllStaged(s, plans)
    ensures PlanSteps(s, t, plans)
  {
    forall p | p in plans ensures PlanOf(t, p) == PlanOf(s, p).(hooks := PlanOf(t, p).hooks) {
      if p in s.plans { assert SamePlanButHooks(s.plans[p], t.plans[p]); }
    }
  }

  lemma SameButHooksChains(a: Status, b: Status, d: Status)
    requires SameButHooks(a, b) && SameButHooks(b, d)
    ensures SameButHooks(a, d) && SameButHooks(b, a)
  {
    forall p | p in a.plans
      ensures SamePlanButHooks(a.plans[p], d.plans[p]) && SamePlanButHooks(b.plans[p], a.plans[p])
    {
      assert SamePlanButHooks(b.plans[p], d.plans[p]);
    }
  }

  /** Nothing to send, or sent and accepted, or failed without or with effect. */
  lemma HookOutcomes(s0: Status, o0: Status, plan: string, hook: HookStatus)
    requires SameButHooks(s0, o0) && plan in o0.plans
    ensures var to := WithHook(o0, plan, hook); var m := Merge(s0, o0, to);
      && (to == o0 ==> HookOutcome(s0, o0, s0, o0, true, plan, hook))
      && (to != o0 ==> HookOutcome(s0, o0, m, m, true, plan, hook))
      && HookOutcome(s0, o0, s0, to, false, plan, hook)
      && HookOutcome(s0, o0, m, to, false, plan, hook)
      && SameButHooks(s0, m)
  {
    var hooks := Upsert(HooksOf(o0, plan), hook);
    var stored := Pick(HooksOf(s0, plan), HooksOf(o0, plan), hooks);
    MergeOfHooks(s0, o0, plan, hooks);
    HooksOnly(s0, plan, stored);
    HooksOnly(o0, plan, hooks);
    var to, m := WithHooks(o0, plan, hooks), WithHooks(s0, plan, stored);
    SameButHooksChains(s0, o0, to);
    SameButHooksChains(m, s0, to);
    SameButHooksChains(s0, m, m);
  }

  /** A plan not listed yet gets an entry with the one result. */
  lemma MergeOfFirstHook(stored: Status, from: Status, plan: string, hook: HookStatus)
    requires SameButHooks(stored, from) && plan !in from.plans
    ensures Merge(stored, from, WithHook(from, plan, hook)) == WithHook(stored, plan, hook)
  {
    var m, t := Merge(stored, from, WithHook(from, plan, hook)), WithHook(stored, plan, hook);
    assert m.plans.Keys == t.plans.Keys;
    forall p | p in m.plans ensures m.plans[p] == t.plans[p] {
      if p != plan { assert SamePlanButHooks(stored.plans[p], from.plans[p]); }
    }
    assert m.plans == t.plans;
  }

  /** The write of a hook result is in both cases one that moves no plan. */
  lemma HookWriteKeepsOrder(h0: seq<Status>, s0: Status, h1: seq<Status>, s1: Status, plan: string, hook: HookStatus)
    requires Recorded(h0, s0, h1, s1) && (SameButHooks(s0, s1) || (plan !in s0.plans && s1 == WithHook(s0, plan, hook)))
    ensures KeepsAnyOrder(h0, s0, h1, s1)
  {
    forall plans | Orderly(h0, s0, plans) ensures Orderly(h1, s1, plans) {
      if SameButHooks(s0, s1) { HooksDoNotMoveStages(s0, s1, plans); }
      StaysOrderly(h0, s0, h1, s1, plans);
    }
  }

  method SetHooksRestoreFromPlan(c: Cluster, obj: RestoreObject, plan: string, hook: HookStatus) returns (r: Result<()>)
    requires SameButHooks(c.status, obj.status)
    modifies obj`status, c`status, c`history, c`lostWrites
    ensures plan in old(obj.status).plans ==>
      HookOutcome(old(c.status), old(obj.status), c.status, obj.status, r.Ok?, plan, hook)
    ensures plan !in old(obj.status).plans ==> Written(c, obj, r.Ok?, WithHook(old(c.status), plan, hook))
    ensures Recorded(old(c.history), old(c.status), c.history, c.status)
      && c.lostWrites == old(c.lostWrites) + (if r.Ok? then 0 else 1)
    ensures KeepsAnyOrder(old(c.history), old(c.status), c.history, c.status)
  {
    var hooks := Record(HooksOf(obj.status, plan), hook);
    if plan in obj.status.plans {
      HookOutcomes(c.status, obj.status, plan, hook);
    } else {
      MergeOfFirstHook(c.status, obj.status, plan, hook);
    }
    r := Patch(c, obj, WithHooks(obj.status, plan, hooks));
    HookWriteKeepsOrder(old(c.history), old(c.status), c.history, c.status, plan, hook);
  }
}
