/**
 One call of `Reconcile` as a value: the moments between its stages, and what each stage does to what
 the cluster keeps. Statements about whole runs are statements about sequences of these.
 */
module Passes {
  import opened Api
  import opened HookEngine
  import opened HookJobs
  import opened Hooks
  import opened Kube
  import opened Restore
  import opened Scale
  import opened StatusManager
  import opened Validate

  /** What a pass may change, at one moment. */
  datatype Moment = Moment(
    stored: Status, history: seq<Status>, events: seq<Event>, configs: map<Key, HookConfig>,
    claims: map<Key, Claim>, live: seq<set<Key>>)

  ghost function Now(c: Cluster): Moment
    reads c`status, c`history, c`events, c`configMaps, c`claims, c`liveClaims
  {
    Moment(c.status, c.history, c.events, c.configMaps, c.claims, c.liveClaims)
  }

  function PointOf(m: Moment): Point { Point(m.stored, m.history, m.events, m.configs) }

  predicate SameClaims(a: Moment, b: Moment) { b.claims == a.claims && b.live == a.live }

  /** Only status fields outside the plans were written, and no phase `Completed` unless it is
      the `last` announcement. */
  ghost predicate Announced(a: Moment, b: Moment, last: bool) {
    && SameClaims(a, b) && b.events == a.events && b.configs == a.configs && b.stored.plans == a.stored.plans
    && MovesNoPlan(a.history, a.stored, b.history, b.stored)
    && KeepPlans(a.stored, a.history, b.history)
    && (!last ==> QuietSince(a.history, b.history) && Quiet(a.history, a.stored, b.history, b.stored))
  }

  /** Every value stored since has the plans of `s`. */
  ghost predicate KeepPlans(s: Status, h0: seq<Status>, h1: seq<Status>) {
    h0 <= h1 && forall i :: |h0| <= i < |h1| ==> h1[i].plans == s.plans
  }

  // ---------------------------------------------------------------- the stages

  ghost predicate Validates(env: Env, order: seq<string>, a: Moment, b: Moment, ok: bool) {
    && SameClaims(a, b) && b.events == a.events && b.configs == a.configs
    && Enumerates(order, env.spec.Keys) && InValidation(a.stored, b.stored, order)
    && MovesNoPlan(a.history, a.stored, b.history, b.stored) && QuietSince(a.history, b.history)
    && (ok ==>
        AllAligned(env.spec, b.stored) && b.stored.phase != Completed && RefsPresent(env.spec, b.stored, a.claims))
  }

  /** Every reference recorded for a plan of the spec names a claim that is there. */
  ghost predicate RefsPresent(spec: Spec, st: Status, claims: map<Key, Claim>) {
    forall p, id :: p in spec && Refers(PlanOf(st, p).clusters, id) ==> id in claims
  }

  /** Every reference recorded for a plan of the spec is as the spec and the claims ask for. */
  ghost predicate RefsAsAsked(spec: Spec, st: Status, claims: map<Key, Claim>, selects: (Selector, Labels) -> bool) {
    forall q, i, ref ::
      q in spec && 0 <= i < |spec[q].clusters| && IsRefOf(st, q, i, ref) ==>
        IsAsAsked(q, PlanOf(st, q).snapshotRestoreTime, spec[q].clusters[i], claims, selects, ref)
  }

  /** The reference is recorded for cluster `i` of the plan. */
  predicate IsRefOf(st: Status, q: string, i: nat, ref: SnapshotRef) {
    var ts := PlanOf(st, q).clusters;
    i < |ts| && ref in ts[i].snapshotsRef
  }

  /** Every hook of the event would be skipped on the nodes there are. */
  ghost predicate HooksDone(env: Env, event: HookEvent, site: Site, plans: map<string, PlanStatus>) {
    forall h :: FromSpec(env, event, h) ==> JobServed(site, Status(Unset, "", plans), h)
  }

  /** No two mutable hooks of a plan want the same Job to have run different things. */
  ghost predicate NoneRival(env: Env, event: HookEvent, site: Site) {
    forall g, h, id :: FromSpec(env, event, g) && FromSpec(env, event, h) ==> !AreRivals(site, g, h, id)
  }

  /** Every Job of every hook of the event would have been skipped before, or was launched since. */
  ghost predicate HooksHandled(env: Env, event: HookEvent, site: Site, plans: map<string, PlanStatus>, from: seq<Event>,
          to: seq<Event>)
  {
    forall h :: FromSpec(env, event, h) ==> JobHandled(site, Point(Status(Unset, "", plans), [], from, map[]), to, h)
  }

  /** No two hooks of a plan share the name of a Job on the nodes there are. */
  ghost predicate NamesApart(env: Env, event: HookEvent, site: Site) {
    forall g, h :: FromSpec(env, event, g) && FromSpec(env, event, h) && g != h && g.planName == h.planName ==>
      JobIds(site, g) !! JobIds(site, h)
  }

  ghost predicate HooksRun(env: Env, event: HookEvent, site: Site, a: Moment, b: Moment, clean: bool) {
    && SameClaims(a, b) && Stretch(env, event, PointOf(a), PointOf(b))
    && KeepsAnyOrder(a.history, a.stored, b.history, b.stored)
    && HooksSettle(env, event, site, a.stored.plans, a.events, a.configs, b, clean)
    && (Sound(env.namespace, a.stored, a.events) ==> Sound(env.namespace, b.stored, b.events))
  }

  /**
   Without a lost write the Jobs due were launched, and the hooks are done afterwards unless some are
   rivals; if they were done before, nothing happens.
   */
  ghost predicate HooksSettle(env: Env, event: HookEvent, site: Site, plans: map<string, PlanStatus>,
          events: seq<Event>, configs: map<Key, HookConfig>, b: Moment, clean: bool)
  {
    && (clean ==> HooksHandled(env, event, site, plans, events, b.events))
    && (clean && NoneRival(env, event, site) ==> HooksDone(env, event, site, b.stored.plans))
    && (HooksDone(env, event, site, plans) ==> b.events == events && b.configs == configs && b.stored.plans == plans)
  }

  ghost predicate Scales(spec: Spec, up: bool, a: Moment, b: Moment, ok: bool) {
    && SameClaims(a, b) && b.configs == a.configs
    && PlansScaled(spec, a.stored, b.stored, up) && GrewByScaling(a.events, b.events)
    && ScalesInOrder(spec, a.history, a.stored, b.history, b.stored, up)
    && (AllSkipped(spec, a.stored, up) ==> b.events == a.events)
    && (ok ==> AllDone(spec, a.events, a.stored, b.events, b.stored, up))
  }

  ghost predicate Restores(spec: Spec, a: Moment, b: Moment, but: Option<Key>, ok: bool) {
    && b.configs == a.configs
    && Restore.Restoring(a.claims, a.events, a.live, b.claims, b.events, b.live, but)
    && PlansRestored(spec, a.events, a.stored, b.events, b.stored)
    && RestoresInOrder(spec, a.history, a.stored, b.history, b.stored)
    && (ok ==> but.None? && AllRestored(spec, a, b))
  }

  ghost predicate AllRestored(spec: Spec, a: Moment, b: Moment) {
    forall p :: p in a.stored.plans ==>
      p in b.stored.plans && RestoreDone(spec, b.events, |a.events|, p, a.stored.plans[p], b.stored.plans[p])
  }

  // ---------------------------------------------------------------- a pass

  /**
   The moments between the stages of one pass. `reached` counts the stages that went through, 7 for a
   pass that completed; a stage not reached changed nothing. `clean`: no status write was lost on the way.
   */
  datatype Pass = Pass(
    env: Env, site: Site, order: seq<string>, but: Option<Key>, reached: nat, clean: bool,
    start: Moment, checked: Moment, prepared: Moment, down: Moment, restored: Moment, up: Moment, served: Moment,
      end: Moment)

  ghost predicate IsPass(p: Pass) { Prepares(p) && Completes(p) }

  /** Validation and the hooks before the restore. */
  ghost predicate Prepares(p: Pass) {
    && Validates(p.env, p.order, p.start, p.checked, p.reached >= 1)
    && (p.reached >= 1 ==> RefsAsAsked(p.env.spec, p.checked.stored, p.start.claims, p.site.selects))
    && (if p.reached >= 1 then HooksRun(p.env, PreRestore, p.site, p.checked, p.prepared, false)
        else p.prepared == p.checked)
  }

  /** What comes after. */
  ghost predicate Completes(p: Pass) {
    && (if p.reached >= 2 then Scales(p.env.spec, false, p.prepared, p.down, p.reached >= 3) else p.down == p.prepared)
    && (if p.reached >= 3 then Restores(p.env.spec, p.down, p.restored, p.but, p.reached >= 4)
        else p.restored == p.down)
    && (if p.reached >= 4 then Scales(p.env.spec, true, p.restored, p.up, p.reached >= 5) else p.up == p.restored)
    && (if p.reached >= 5 then HooksRun(p.env, PostRestore, p.site, p.up, p.served, p.clean && p.reached >= 7)
        else p.served == p.up)
    && (if p.reached >= 6 then Announced(p.served, p.end, true) else p.end == p.served)
    && (p.reached >= 7 ==> p.end.stored.phase == Completed)
  }

  // ---------------------------------------------------------------- announcing a stage changes nothing for it

  lemma ValidatesFrom(env: Env, order: seq<string>, a: Moment, a': Moment, b: Moment, ok: bool)
    requires Announced(a, a', false) && Validates(env, order, a', b, ok)
    ensures Validates(env, order, a, b, ok)
  {
    NoPlanTransitively(a.history, a.stored, a'.history, a'.stored, b.history, b.stored);
    QuietSinceTransitively(a.history, a'.history, b.history);
    assert forall q :: PlanOf(a'.stored, q) == PlanOf(a.stored, q);
    forall n: nat | n <= |order| ensures LockAfter(a'.stored, order, n) == LockAfter(a.stored, order, n) {
    }
  }

  lemma HooksRunFrom(env: Env, event: HookEvent, site: Site, a: Moment, a': Moment, b: Moment, clean: bool)
    requires Announced(a, a', false) && HooksRun(env, event, site, a', b, clean)
    ensures HooksRun(env, event, site, a, b, clean)
  {
    AnyOrderTransitively(a.history, a.stored, a'.history, a'.stored, b.history, b.stored);
    StretchFromPlans(env, event, PointOf(a), PointOf(a'), PointOf(b));
    SoundByHooks(env.namespace, a.stored, a'.stored, a.events);
  }

  lemma StretchFromPlans(env: Env, event: HookEvent, a: Point, a': Point, b: Point)
    requires Stretch(env, event, a', b) && a'.stored.plans == a.stored.plans && a'.events == a.events
      && a'.configs == a.configs
    ensures Stretch(env, event, a, b)
  {
    forall i | |a.events| <= i < |b.events| && b.events[i].JobCreated?
      ensures JobIsDue(env, event, a.stored, b.events[i], b.configs)
    {
      assert JobIsDue(env, event, a'.stored, b.events[i], b.configs);
    }
    forall plan: string, id: Key, ev: HookEvent, e: HookStatus | RestingIn(env, a.stored, plan, id, ev, e)
      ensures RestingIn(env, a'.stored, plan, id, ev, e)
    {
    }
  }

  lemma ScalesFrom(spec: Spec, up: bool, a: Moment, a': Moment, b: Moment, ok: bool)
    requires Announced(a, a', false) && Scales(spec, up, a', b, ok)
    ensures Scales(spec, up, a, b, ok)
  {
    QuietTransitively(a.history, a.stored, a'.history, a'.stored, b.history, b.stored);
    forall plans | Orderly(a.history, a.stored, plans) && (up ==> AllLocked(a.stored, spec.Keys))
      ensures Orderly(b.history, b.stored, plans)
    {
      assert Orderly(a'.history, a'.stored, plans);
      assert AllLocked(a.stored, spec.Keys) ==> AllLocked(a'.stored, spec.Keys);
    }
  }

  lemma RestoresFrom(spec: Spec, a: Moment, a': Moment, b: Moment, but: Option<Key>, ok: bool)
    requires Announced(a, a', false) && Restores(spec, a', b, but, ok)
    ensures Restores(spec, a, b, but, ok)
  {
    QuietTransitively(a.history, a.stored, a'.history, a'.stored, b.history, b.stored);
    forall plans | NoneStale(spec, a.stored, plans) && Orderly(a.history, a.stored, plans)
      ensures Orderly(b.history, b.stored, plans)
    {
      assert Orderly(a'.history, a'.stored, plans);
    }
  }

  // ---------------------------------------------------------------- status and spec stay in step

  lemma HooksKeepAlignment(env: Env, event: HookEvent, site: Site, a: Moment, b: Moment, clean: bool)
    requires HooksRun(env, event, site, a, b, clean) && AllAligned(env.spec, a.stored)
    ensures AllAligned(env.spec, b.stored)
  {
    forall p | p in env.spec ensures p in b.stored.plans && Aligned(env.spec[p], b.stored.plans[p]) {
      assert SamePlanButHooks(a.stored.plans[p], b.stored.plans[p]);
    }
  }

  lemma ScalesKeepAlignment(spec: Spec, up: bool, a: Moment, b: Moment, ok: bool)
    requires Scales(spec, up, a, b, ok) && AllAligned(spec, a.stored)
    ensures AllAligned(spec, b.stored)
  {
    forall p | p in spec ensures p in b.stored.plans && Aligned(spec[p], b.stored.plans[p]) {
      ScalingKeepsAlignment(spec[p], a.stored.plans[p], b.stored.plans[p], up);
    }
  }

  lemma RestoresKeepAlignment(spec: Spec, a: Moment, b: Moment, but: Option<Key>, ok: bool)
    requires Restores(spec, a, b, but, ok) && AllAligned(spec, a.stored)
    ensures AllAligned(spec, b.stored)
  {
    forall p | p in spec ensures p in b.stored.plans && Aligned(spec[p], b.stored.plans[p]) {
      assert PlanRestored(a.stored.plans[p], b.stored.plans[p]);
      forall i | 0 <= i < |spec[p].clusters| ensures Describes(b.stored.plans[p].clusters[i], spec[p].clusters[i]) {
        assert SameEntry(a.stored.plans[p].clusters[i], b.stored.plans[p].clusters[i]);
      }
    }
  }
}
