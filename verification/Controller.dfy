/** `Reconcile`: the stages in order, each of which may end the pass. */
module Controller {
  import opened Api
  import opened HookEngine
  import opened HookJobs
  import opened Hooks
  import opened Kube
  import opened Names
  import opened Passes
  import opened Restore
  import opened Scale
  import opened StatusManager
  import opened Validate

  /** Names the next stage in the status. From a phase that differs, the object equals the stored status afterwards. */
  method Announce(c: Cluster, obj: RestoreObject, phase: Phase) returns (r: Result<()>)
    requires SameButHooks(c.status, obj.status)
    modifies obj`status, c`status, c`history, c`lostWrites
    ensures Announced(old(Now(c)), Now(c), phase == Completed)
    ensures r.Ok? ==>
      && c.lostWrites == old(c.lostWrites) && SameButHooks(c.status, obj.status) && obj.status.phase == phase
      && (phase != old(obj.status.phase) || old(c.status == obj.status) ==> c.status == obj.status)
    ensures c.lostWrites >= old(c.lostWrites) && (r.Err? ==> c.lostWrites > old(c.lostWrites))
  {
    ghost var a := Now(c);
    r := SetPhase(c, obj, phase);
    PhaseAnnounced(a, Now(c), phase);
  }

  lemma PhaseAnnounced(a: Moment, b: Moment, phase: Phase)
    requires SameClaims(a, b) && b.events == a.events && b.configs == a.configs
    requires MovesNoPlan(a.history, a.stored, b.history, b.stored)
    requires b.stored in {a.stored, WithPhase(a.stored, phase)}
    requires (b.history == a.history && b.stored == a.stored)
          || (b.history == a.history + [b.stored] && b.stored == WithPhase(a.stored, phase))
    ensures Announced(a, b, phase == Completed)
  {
  }

  lemma AnnouncedTwice(a: Moment, b: Moment, d: Moment)
    requires Announced(a, b, false) && Announced(b, d, false)
    ensures Announced(a, d, false)
  {
    NoPlanTransitively(a.history, a.stored, b.history, b.stored, d.history, d.stored);
    QuietSinceTransitively(a.history, b.history, d.history);
  }

  lemma AnyEnumeration(s: set<string>) returns (order: seq<string>)
    ensures Enumerates(order, s)
    decreases |s|
  {
    if s == {} {
      order := [];
    } else {
      var x :| x in s;
      var rest := AnyEnumeration(s - {x});
      order := rest + [x];
      forall y ensures y in s <==> y in order {
        assert y in s <==> y == x || y in s - {x};
      }
    }
  }

  /** Nothing validated yet. */
  lemma ValidatesNothing(env: Env, order: seq<string>, a: Moment, b: Moment)
    requires Announced(a, b, false) && Enumerates(order, env.spec.Keys)
    ensures Validates(env, order, a, b, false)
  {
    assert forall q :: PlanOf(b.stored, q) == PlanOf(a.stored, q);
  }

  lemma PassedIsAligned(c: Cluster, spec: Spec, s0: Status, s1: Status, order: seq<string>)
    requires Enumerates(order, spec.Keys) && AllPassed(c, spec, s0, s1, order, |order|)
      && ValidatedUpTo(s0, s1, order, |order|)
    ensures AllAligned(spec, s1)
  {
    forall p | p in spec ensures p in s1.plans && Aligned(spec[p], s1.plans[p]) {
      assert p in spec.Keys;
      var k :| 0 <= k < |order| && order[k] == p;
      assert PlanPassed(c, order[k], spec[order[k]], PlanOf(s0, order[k]), PlanOf(s1, order[k]));
      ValidatedIsAligned(c, p, s1.plans[p].snapshotRestoreTime, spec[p], s1.plans[p].clusters, s1.plans[p].operators);
    }
  }

  lemma PassedRefsArePresent(c: Cluster, spec: Spec, s0: Status, s1: Status, order: seq<string>)
    requires Enumerates(order, spec.Keys) && AllPassed(c, spec, s0, s1, order, |order|) && WellKeyed(c.claims)
    ensures RefsPresent(spec, s1, c.claims)
  {
    forall p, id | p in spec && Refers(PlanOf(s1, p).clusters, id) ensures id in c.claims {
      assert p in spec.Keys;
      var k :| 0 <= k < |order| && order[k] == p;
      assert PlanPassed(c, order[k], spec[order[k]], PlanOf(s0, order[k]), PlanOf(s1, order[k]));
      ValidatedRefsArePresent(c, p, PlanOf(s1, p).snapshotRestoreTime, spec[p], PlanOf(s1, p).clusters, id);
    }
  }

  lemma PassedRefsAreAsAsked(c: Cluster, spec: Spec, s0: Status, s1: Status, order: seq<string>)
    requires Enumerates(order, spec.Keys) && AllPassed(c, spec, s0, s1, order, |order|) && WellKeyed(c.claims)
    ensures RefsAsAsked(spec, s1, c.claims, c.selects)
  {
    forall q, i, ref | q in spec && 0 <= i < |spec[q].clusters| && IsRefOf(s1, q, i, ref)
      ensures IsAsAsked(q, PlanOf(s1, q).snapshotRestoreTime, spec[q].clusters[i], c.claims, c.selects, ref)
    {
      assert q in spec.Keys;
      var k :| 0 <= k < |order| && order[k] == q;
      assert PlanPassed(c, order[k], spec[order[k]], PlanOf(s0, order[k]), PlanOf(s1, order[k]));
      var time := PlanOf(s1, q).snapshotRestoreTime;
      ValidatedRefsAreAsAsked(c, q, time, spec[q].clusters[i], PlanOf(s1, q).clusters[i], ref);
    }
  }

  /** The status is initialised and validation announced. */
  method Begin(c: Cluster, obj: RestoreObject) returns (r: Result<()>)
    requires c.status == obj.status
    modifies obj`status, c`status, c`history, c`lostWrites
    ensures Announced(old(Now(c)), Now(c), false)
    ensures r.Ok? ==> c.status == obj.status && obj.status.phase == Validating && c.lostWrites == old(c.lostWrites)
    ensures r.Err? ==> c.lostWrites > old(c.lostWrites)
  {
    ghost var a := Now(c);
    r := SetInitStatusRestorePlan(c, obj);
    ghost var b := Now(c);
    PhaseAnnounced(a, b, Idle);
    if r.Err? { return; }
    r := Announce(c, obj, Validating);
    AnnouncedTwice(a, b, Now(c));
  }

  /** Every plan validated. */
  method ValidateAll(c: Cluster, obj: RestoreObject) returns (r: Result<()>, ghost order: seq<string>)
    requires c.status == obj.status && WellKeyed(c.claims)
    modifies obj`status, c`status, c`history, c`lostWrites
    requires obj.status.phase != Completed
    ensures Validates(EnvOf(c, obj), order, old(Now(c)), Now(c), r.Ok?)
    ensures r.Ok? ==> RefsAsAsked(obj.spec, c.status, c.claims, c.selects)
    ensures r.Ok? ==>
      c.status == obj.status && obj.status.phase == old(obj.status.phase) && c.lostWrites == old(c.lostWrites)
    ensures r.Err? ==> c.lostWrites > old(c.lostWrites) || c.status.phase == Failed
  {
    ghost var s0 := c.status;
    r, order := ValidateListSnapshots(c, obj);
    if r.Ok? {
      PassedIsAligned(c, obj.spec, s0, c.status, order);
      PassedRefsArePresent(c, obj.spec, s0, c.status, order);
      PassedRefsAreAsAsked(c, obj.spec, s0, c.status, order);
    }
  }

  /** The first stage. */
  method Validation(c: Cluster, obj: RestoreObject) returns (r: Result<()>, ghost order: seq<string>)
    requires c.status == obj.status && WellKeyed(c.claims)
    modifies obj`status, c`status, c`history, c`lostWrites
    ensures Validates(EnvOf(c, obj), order, old(Now(c)), Now(c), r.Ok?)
    ensures r.Ok? ==> RefsAsAsked(obj.spec, c.status, c.claims, c.selects)
    ensures r.Ok? ==> c.status == obj.status && obj.status.phase == Validating && c.lostWrites == old(c.lostWrites)
    ensures r.Err? ==> c.lostWrites > old(c.lostWrites) || c.status.phase == Failed
  {
    ghost var a := Now(c);
    order := AnyEnumeration(obj.spec.Keys);
    r := Begin(c, obj);
    ghost var b := Now(c);
    if r.Err? {
      ValidatesNothing(EnvOf(c, obj), order, a, b);
      return;
    }
    r, order := ValidateAll(c, obj);
    ValidatesFrom(EnvOf(c, obj), order, a, b, Now(c), r.Ok?);
  }

  /** Scaling, announced. */
  method Scaling(c: Cluster, obj: RestoreObject, up: bool) returns (r: Result<()>)
    requires SameButHooks(c.status, obj.status) && AllAligned(obj.spec, c.status)
    requires obj.status.phase != (if up then ScalingUp else ScalingDown)
    modifies obj`status, c`status, c`history, c`lostWrites, c`statefulSets, c`deployments, c`events
    ensures Scales(obj.spec, up, old(Now(c)), Now(c), r.Ok?) && AllAligned(obj.spec, c.status)
    ensures !up && r.Ok? ==> PlansAtZero(obj.spec, old(c.status), WorkloadsOf(c), obj.spec.Keys)
    ensures r.Ok? ==>
      && c.status == obj.status && obj.status.phase == (if up then ScalingUp else ScalingDown)
      && c.lostWrites == old(c.lostWrites)
    ensures c.nodes == old(c.nodes)
    ensures r.Err? ==> c.lostWrites > old(c.lostWrites) || c.status.phase == Failed
  {
    ghost var a := Now(c);
    r := Announce(c, obj, if up then ScalingUp else ScalingDown);
    ghost var b := Now(c);
    if r.Err? {
      NothingScaled(obj.spec, up, b);
    } else {
      r := ScaleRestorePlan(c, obj, up);
    }
    ScalesFrom(obj.spec, up, a, b, Now(c), r.Ok?);
    ScalesKeepAlignment(obj.spec, up, a, Now(c), r.Ok?);
  }

  lemma NothingScaled(spec: Spec, up: bool, m: Moment)
    ensures Scales(spec, up, m, m, false)
  {
  }

  /** The restore, announced. */
  method RestoreStage(c: Cluster, obj: RestoreObject) returns (r: Result<()>, ghost but: Option<Key>)
    requires SameButHooks(c.status, obj.status) && WellKeyed(c.claims) && obj.status.phase != Phase.Restoring
    requires AllAligned(obj.spec, c.status)
    modifies obj`status, c`status, c`history, c`lostWrites, c`claims, c`volumes, c`liveClaims, c`events, c`nextUid
    ensures Restores(obj.spec, old(Now(c)), Now(c), but, r.Ok?) && AllAligned(obj.spec, c.status)
    ensures r.Ok? ==> c.status == obj.status && obj.status.phase == Phase.Restoring && c.lostWrites == old(c.lostWrites)
    ensures c.nodes == old(c.nodes)
    ensures r.Err? ==> c.lostWrites > old(c.lostWrites) || c.status.phase == Failed
  {
    ghost var a := Now(c);
    but := None;
    r := Announce(c, obj, Phase.Restoring);
    ghost var b := Now(c);
    if r.Err? {
      NothingRestored(obj.spec, b);
    } else {
      r, but := RestoreFromPlan(c, obj);
    }
    RestoresFrom(obj.spec, a, b, Now(c), but, r.Ok?);
    RestoresKeepAlignment(obj.spec, a, Now(c), but, r.Ok?);
  }

  lemma NothingRestored(spec: Spec, m: Moment)
    requires WellKeyed(m.claims)
    ensures Restores(spec, m, m, None, false)
  {
  }

  lemma NothingSettled(env: Env, event: HookEvent, site: Site, m: Moment)
    ensures HooksSettle(env, event, site, m.stored.plans, m.events, m.configs, m, false)
  {
  }

  lemma NoHooksRun(env: Env, event: HookEvent, site: Site, m: Moment)
    ensures HooksRun(env, event, site, m, m, false)
  {
    GoingFromStart(env, event, PointOf(m));
    NothingSettled(env, event, site, m);
  }

  lemma ServedByPlans(site: Site, s: Status, h: HookJob)
    ensures JobServed(site, s, h) <==> JobServed(site, Status(Unset, "", s.plans), h)
  {
  }

  lemma ListedServed(env: Env, event: HookEvent, site: Site, hooks: seq<HookJob>, s: Status)
    requires EveryServed(site, s, hooks) && forall h :: FromSpec(env, event, h) ==> h in hooks
    ensures HooksDone(env, event, site, s.plans)
  {
    forall h | FromSpec(env, event, h) ensures JobServed(site, Status(Unset, "", s.plans), h) {
      assert h in hooks;
      var i :| 0 <= i < |hooks| && hooks[i] == h;
      ServedByPlans(site, s, h);
    }
  }

  lemma DoneServesListed(env: Env, event: HookEvent, site: Site, hooks: seq<HookJob>, s: Status)
    requires HooksDone(env, event, site, s.plans) && SpecHooks(env, event, hooks)
    ensures EveryServed(site, s, hooks)
  {
    forall i | 0 <= i < |hooks| ensures JobServed(site, s, hooks[i]) {
      ServedByPlans(site, s, hooks[i]);
    }
  }

  lemma ListedAreNoRivals(env: Env, event: HookEvent, site: Site, hooks: seq<HookJob>)
    requires NoneRival(env, event, site) && SpecHooks(env, event, hooks)
    ensures NoRivals(site, hooks)
  {
    forall g, h, id | g in hooks && h in hooks ensures !AreRivals(site, g, h, id) {
      var i :| 0 <= i < |hooks| && hooks[i] == g;
      var k :| 0 <= k < |hooks| && hooks[k] == h;
    }
  }

  lemma ListedHandled(env: Env, event: HookEvent, site: Site, hooks: seq<HookJob>, a: Point, events: seq<Event>)
    requires EveryHandled(site, a, events, hooks) && forall h :: FromSpec(env, event, h) ==> h in hooks
    ensures HooksHandled(env, event, site, a.stored.plans, a.events, events)
  {
    forall h | FromSpec(env, event, h)
      ensures JobHandled(site, Point(Status(Unset, "", a.stored.plans), [], a.events, map[]), events, h)
    {
      assert h in hooks;
      var i :| 0 <= i < |hooks| && hooks[i] == h;
      assert JobHandled(site, a, events, hooks[i]);
    }
  }

  /** What the list of an event's hooks shows, shown of all hooks of the spec. */
  lemma ListServes(env: Env, event: HookEvent, site: Site, hooks: seq<HookJob>, from: seq<(string, string)>, s: Status)
    requires Lists(env, event, hooks, from)
    ensures EveryServed(site, s, hooks) <==> HooksDone(env, event, site, s.plans)
    ensures NoneRival(env, event, site) ==> NoRivals(site, hooks)
    ensures SpecHooks(env, event, hooks)
  {
    ListedAreFromSpec(env, event, hooks, from);
    if EveryServed(site, s, hooks) { ListedServed(env, event, site, hooks, s); }
    if HooksDone(env, event, site, s.plans) { DoneServesListed(env, event, site, hooks, s); }
    if NoneRival(env, event, site) { ListedAreNoRivals(env, event, site, hooks); }
  }

  lemma NoHooksListed(env: Env, event: HookEvent, site: Site, from: seq<(string, string)>, m: Moment)
    requires Lists(env, event, [], from)
    ensures HooksRun(env, event, site, m, m, true)
  {
    GoingFromStart(env, event, PointOf(m));
    ListServes(env, event, site, [], from, m.stored);
    assert EveryServed(site, m.stored, []);
  }

  /** What running the listed hooks comes to, in terms of the spec. */
  lemma ListedRun(env: Env, event: HookEvent, site: Site, hooks: seq<HookJob>, from: seq<(string, string)>, a: Moment,
          b: Moment, clean: bool)
    requires Lists(env, event, hooks, from) && SameClaims(a, b)
    requires Stretch(env, event, PointOf(a), PointOf(b)) && KeepsAnyOrder(a.history, a.stored, b.history, b.stored)
    requires Sound(env.namespace, a.stored, a.events) ==> Sound(env.namespace, b.stored, b.events)
    requires clean ==> PlanEnded(site, hooks, PointOf(a), PointOf(b), b.stored)
    requires EveryServed(site, a.stored, hooks) ==>
      b.events == a.events && b.configs == a.configs && b.stored.plans == a.stored.plans
    ensures HooksRun(env, event, site, a, b, clean)
  {
    ListServes(env, event, site, hooks, from, a.stored);
    ListServes(env, event, site, hooks, from, b.stored);
    ListedAreFromSpec(env, event, hooks, from);
    if clean { ListedHandled(env, event, site, hooks, PointOf(a), b.events); }
  }

  lemma ListedPlansAreThere(env: Env, event: HookEvent, hooks: seq<HookJob>, from: seq<(string, string)>,
          keys: set<string>)
    requires Lists(env, event, hooks, from) && env.spec.Keys <= keys
    ensures SpecHooks(env, event, hooks) && forall i :: 0 <= i < |hooks| ==> hooks[i].planName in keys
  {
    ListedAreFromSpec(env, event, hooks, from);
    forall i | 0 <= i < |hooks| ensures hooks[i].planName in keys { SpecIsWellSummed(env, event, hooks[i]); }
  }

  /** Some immutable hook of the event runs alone: what it is to run is read before it is decided which hooks run. */
  ghost predicate SomeFrozen(env: Env, event: HookEvent) {
    exists h :: FromSpec(env, event, h) && !h.mutable && h.nodeAccess.None?
  }

  lemma FrozenIsInSpec(env: Env, event: HookEvent, hooks: seq<HookJob>, from: seq<(string, string)>)
    requires Lists(env, event, hooks, from) && HasFrozen(hooks)
    ensures SomeFrozen(env, event)
  {
    ListedAreFromSpec(env, event, hooks, from);
    var k :| 0 <= k < |hooks| && !hooks[k].mutable && hooks[k].nodeAccess.None?;
    assert FromSpec(env, event, hooks[k]);
  }

  /** The hooks listed, if any, announced and run. */
  method RunListed(c: Cluster, obj: RestoreObject, hooks: seq<HookJob>, ghost event: HookEvent,
          ghost from: seq<(string, string)>)
    returns (r: Result<()>, unread: bool)
    requires c.status == obj.status && Lists(EnvOf(c, obj), event, hooks, from) && obj.spec.Keys <= c.status.plans.Keys
    modifies obj`status, c`status, c`history, c`lostWrites, c`configMaps, c`jobs, c`events
    ensures HooksRun(EnvOf(c, obj), event, old(SiteOf(c)), old(Now(c)), Now(c),
      r.Ok? && c.lostWrites == old(c.lostWrites))
    ensures r.Ok? ==>
      SameButHooks(c.status, obj.status) && c.status.phase == old(c.status).phase && c.lostWrites >= old(c.lostWrites)
    ensures unread ==> r.Err? && HasFrozen(hooks) && c.status.phase == old(c.status).phase
    ensures r.Err? && !unread ==> c.lostWrites > old(c.lostWrites) || c.status.phase == Failed
  {
    ghost var env, site, a := EnvOf(c, obj), SiteOf(c), Now(c);
    ListedPlansAreThere(env, event, hooks, from, obj.status.plans.Keys);
    r, unread := RunHooks(c, obj, hooks, event);
    ListedRun(env, event, site, hooks, from, a, Now(c), r.Ok? && c.lostWrites == old(c.lostWrites));
  }

  /** How the run of the hooks of an event can fail: not at all, because one could not be read,
      or because one failed. */
  datatype HookFailure = NoFailure | Unread | RunFailed

  /** What the status says of such a failure, and what it does not. */
  predicate FailureShows(failed: HookFailure, announced: Phase, phase: Phase, lost: bool) {
    match failed
    case NoFailure => true
    case Unread => phase == announced
    case RunFailed => lost || phase == Failed
  }

  /** The listed hooks, announced. `failed` says whether they were run, and that failed. */
  method AnnounceAndRun(c: Cluster, obj: RestoreObject, hooks: seq<HookJob>, phase: Phase, ghost site: Site,
          ghost event: HookEvent, ghost from: seq<(string, string)>)
    returns (r: Result<()>, failed: HookFailure)
    requires phase != Completed && c.status == obj.status && obj.spec.Keys <= c.status.plans.Keys && site == SiteOf(c)
    requires Lists(EnvOf(c, obj), event, hooks, from)
    modifies obj`status, c`status, c`history, c`lostWrites, c`configMaps, c`jobs, c`events
    ensures HooksRun(EnvOf(c, obj), event, site, old(Now(c)), Now(c), r.Ok? && c.lostWrites == old(c.lostWrites))
    ensures r.Ok? ==>
      SameButHooks(c.status, obj.status) && c.lostWrites >= old(c.lostWrites) && obj.status.phase == phase
    ensures (r.Ok? ==> failed.NoFailure?)
      && FailureShows(failed, phase, c.status.phase, c.lostWrites > old(c.lostWrites))
    ensures failed.Unread? ==> SomeFrozen(EnvOf(c, obj), event)
  {
    ghost var env, a := EnvOf(c, obj), Now(c);
    failed := NoFailure;
    r := Announce(c, obj, phase);
    ghost var b := Now(c);
    if r.Err? {
      NoHooksRun(env, event, site, b);
      HooksRunFrom(env, event, site, a, b, b, false);
      return;
    }
    var unread;
    r, unread := RunListed(c, obj, hooks, event, from);
    failed := if unread then Unread else if r.Err? then RunFailed else NoFailure;
    if unread { FrozenIsInSpec(env, event, hooks, from); }
    HooksRunFrom(env, event, site, a, b, Now(c), r.Ok? && c.lostWrites == old(c.lostWrites));
  }

  method HookStage(c: Cluster, obj: RestoreObject, event: HookEvent, phase: Phase, ghost site: Site)
    returns (r: Result<()>, failed: HookFailure)
    requires phase != Completed && c.status == obj.status && obj.spec.Keys <= c.status.plans.Keys && site == SiteOf(c)
    modifies obj`status, c`status, c`history, c`lostWrites, c`configMaps, c`jobs, c`events
    ensures HooksRun(EnvOf(c, obj), event, site, old(Now(c)), Now(c), r.Ok? && c.lostWrites == old(c.lostWrites))
    ensures r.Ok? ==>
      && SameButHooks(c.status, obj.status) && c.lostWrites >= old(c.lostWrites)
      && obj.status.phase in {phase, old(obj.status.phase)}
    ensures (r.Ok? ==> failed.NoFailure?)
      && FailureShows(failed, phase, c.status.phase, c.lostWrites > old(c.lostWrites))
    ensures failed.Unread? ==> SomeFrozen(EnvOf(c, obj), event)
  {
    failed := NoFailure;
    var hooks, from := SetupRestoreHooks(c, obj, event);
    if hooks.Err? {
      NoHooksRun(EnvOf(c, obj), event, site, Now(c));
      return Err(hooks.error), NoFailure;
    }
    if |hooks.value| > 0 {
      r, failed := AnnounceAndRun(c, obj, hooks.value, phase, site, event, from);
    } else {
      NoHooksListed(EnvOf(c, obj), event, site, from, Now(c));
      SameButHooksChains(c.status, c.status, c.status);
      r := Ok(());
    }
  }

  // ---------------------------------------------------------------- the stages in a row

  datatype Verdict = NothingToDo | Retry(error: Error) | RequeueAfter(seconds: nat)

  const FREQUENCY := 30

  lemma HooksRunWeaker(env: Env, event: HookEvent, site: Site, a: Moment, b: Moment, clean: bool, clean': bool)
    requires HooksRun(env, event, site, a, b, clean) && (clean' ==> clean)
    ensures HooksRun(env, event, site, a, b, clean')
  {
  }

  /** Validation and the hooks before the restore. */
  method Checks(c: Cluster, obj: RestoreObject, ghost site: Site)
    returns (r: Result<()>, failed: HookFailure, ghost reached: nat, ghost order: seq<string>, ghost checked: Moment)
    requires c.status == obj.status && WellKeyed(c.claims) && site == SiteOf(c)
    modifies obj`status, c`status, c`history, c`lostWrites, c`configMaps, c`jobs, c`events
    ensures Validates(EnvOf(c, obj), order, old(Now(c)), checked, reached >= 1)
    ensures reached >= 1 ==> RefsAsAsked(obj.spec, checked.stored, old(c.claims), c.selects)
    ensures if reached >= 1 then HooksRun(EnvOf(c, obj), PreRestore, site, checked, Now(c), false)
      else Now(c) == checked
    ensures reached <= 2 && (r.Ok? <==> reached == 2) && (!failed.NoFailure? ==> reached == 1)
    ensures reached == 0 ==> c.lostWrites > old(c.lostWrites) || c.status.phase == Failed
    ensures FailureShows(failed, RunningPreHooks, c.status.phase, c.lostWrites > old(c.lostWrites))
    ensures failed.Unread? ==> SomeFrozen(EnvOf(c, obj), PreRestore)
    ensures r.Ok? ==>
      && SameButHooks(c.status, obj.status) && AllAligned(obj.spec, c.status) && c.lostWrites >= old(c.lostWrites)
      && obj.status.phase in {Validating, RunningPreHooks}
  {
    ghost var env := EnvOf(c, obj);
    failed, reached := NoFailure, 0;
    r, order := Validation(c, obj);
    checked := Now(c);
    if r.Err? { return; }
    r, failed := HookStage(c, obj, PreRestore, RunningPreHooks, site);
    HooksRunWeaker(env, PreRestore, site, checked, Now(c), r.Ok? && c.lostWrites == old(c.lostWrites), false);
    HooksKeepAlignment(env, PreRestore, site, checked, Now(c), false);
    reached := if r.Ok? then 2 else 1;
  }

  /** Everything down, then the claims restored. */
  method DownAndRestore(c: Cluster, obj: RestoreObject)
    returns (r: Result<()>, ghost but: Option<Key>, ghost reached: nat, ghost down: Moment)
    requires SameButHooks(c.status, obj.status) && AllAligned(obj.spec, c.status) && WellKeyed(c.claims)
    requires obj.status.phase in {Validating, RunningPreHooks}
    modifies obj`status, c`status, c`history, c`lostWrites, c`statefulSets, c`deployments, c`claims, c`volumes,
      c`liveClaims, c`events, c`nextUid
    ensures Scales(obj.spec, false, old(Now(c)), down, reached >= 3)
    ensures if reached >= 3 then Restores(obj.spec, down, Now(c), but, reached >= 4) else Now(c) == down
    ensures 2 <= reached <= 4 && (r.Ok? <==> reached == 4)
    ensures r.Ok? ==>
      && c.status == obj.status && AllAligned(obj.spec, c.status) && c.lostWrites == old(c.lostWrites)
      && obj.status.phase == Phase.Restoring
    ensures c.nodes == old(c.nodes)
    ensures r.Err? ==> c.lostWrites > old(c.lostWrites) || c.status.phase == Failed
  {
    but, reached := None, 2;
    r := Scaling(c, obj, false);
    down := Now(c);
    if r.Err? { return; }
    r, but := RestoreStage(c, obj);
    reached := if r.Ok? then 4 else 3;
  }

  /** And everything up again. */
  method Work(c: Cluster, obj: RestoreObject)
    returns (r: Result<()>, ghost but: Option<Key>, ghost reached: nat, ghost down: Moment, ghost restored: Moment)
    requires SameButHooks(c.status, obj.status) && AllAligned(obj.spec, c.status) && WellKeyed(c.claims)
    requires obj.status.phase in {Validating, RunningPreHooks}
    modifies obj`status, c`status, c`history, c`lostWrites, c`statefulSets, c`deployments, c`claims, c`volumes,
      c`liveClaims, c`events, c`nextUid
    ensures Scales(obj.spec, false, old(Now(c)), down, reached >= 3)
    ensures if reached >= 3 then Restores(obj.spec, down, restored, but, reached >= 4) else restored == down
    ensures if reached >= 4 then Scales(obj.spec, true, restored, Now(c), reached >= 5) else Now(c) == restored
    ensures 2 <= reached <= 5 && (r.Ok? <==> reached == 5)
    ensures r.Ok? ==> c.status == obj.status && AllAligned(obj.spec, c.status) && c.lostWrites == old(c.lostWrites)
    ensures c.nodes == old(c.nodes)
    ensures r.Err? ==> c.lostWrites > old(c.lostWrites) || c.status.phase == Failed
  {
    r, but, reached, down := DownAndRestore(c, obj);
    restored := Now(c);
    if r.Err? { return; }
    r := Scaling(c, obj, true);
    if r.Err? { return; }
    reached := 5;
  }

  /** The hooks after the restore, and the last phase. */
  method Finish(c: Cluster, obj: RestoreObject, ghost site: Site)
    returns (r: Result<()>, failed: HookFailure, ghost reached: nat, ghost served: Moment)
    requires c.status == obj.status && AllAligned(obj.spec, c.status) && site == SiteOf(c)
    modifies obj`status, c`status, c`history, c`lostWrites, c`configMaps, c`jobs, c`events
    ensures HooksRun(EnvOf(c, obj), PostRestore, site, old(Now(c)), served,
      reached == 7 && c.lostWrites == old(c.lostWrites))
    ensures if reached >= 6 then Announced(served, Now(c), true) else Now(c) == served
    ensures 5 <= reached <= 7 && (!failed.NoFailure? ==> reached == 5) && (r.Ok? <==> reached == 7)
    ensures reached == 6 ==> c.lostWrites > old(c.lostWrites)
    ensures FailureShows(failed, RunningPostHooks, c.status.phase, c.lostWrites > old(c.lostWrites))
    ensures failed.Unread? ==> SomeFrozen(EnvOf(c, obj), PostRestore)
    ensures r.Ok? ==> c.status.phase == Completed && c.lostWrites >= old(c.lostWrites)
  {
    ghost var env, a := EnvOf(c, obj), Now(c);
    r, failed := HookStage(c, obj, PostRestore, RunningPostHooks, site);
    served := Now(c);
    ghost var clean := r.Ok? && c.lostWrites == old(c.lostWrites);
    if r.Err? { reached := 5; return; }
    r := Announce(c, obj, Completed);
    reached := if r.Ok? then 7 else 6;
    HooksRunWeaker(env, PostRestore, site, a, served, clean, reached == 7 && c.lostWrites == old(c.lostWrites));
  }

  /** What follows validation and the hooks before the restore; `shape` is the pass so far. */
  method WorkAndFinish(c: Cluster, obj: RestoreObject, ghost shape: Pass, ghost lost: nat)
    returns (r: Result<()>, failed: HookFailure, ghost p: Pass)
    requires SameButHooks(c.status, obj.status) && AllAligned(obj.spec, c.status) && WellKeyed(c.claims)
    requires obj.status.phase in {Validating, RunningPreHooks} && shape.site == SiteOf(c) && shape.env == EnvOf(c, obj)
    requires Prepares(shape) && shape.reached == 2 && shape.prepared == Now(c) && c.lostWrites >= lost
    modifies obj`status, c`status, c`history, c`lostWrites, c`statefulSets, c`deployments, c`claims, c`volumes,
      c`liveClaims, c`events, c`nextUid, c`configMaps, c`jobs
    ensures IsPass(p) && p.start == shape.start && p.end == Now(c) && p.env == shape.env && p.site == shape.site
    ensures 2 <= p.reached <= 7 && (r.Ok? <==> p.reached == 7) && (!failed.NoFailure? ==> p.reached == 5)
    ensures r.Ok? ==> (p.clean <==> c.lostWrites == lost)
    ensures p.reached < 7 && p.reached != 5 ==> c.lostWrites > lost || c.status.phase == Failed
    ensures FailureShows(failed, RunningPostHooks, c.status.phase, c.lostWrites > lost)
    ensures failed.Unread? ==> SomeFrozen(EnvOf(c, obj), PostRestore)
  {
    ghost var but, reached, down, restored;
    failed := NoFailure;
    r, but, reached, down, restored := Work(c, obj);
    ghost var up, served, lost' := Now(c), Now(c), c.lostWrites;
    if r.Err? {
      p := shape.(but := but, reached := reached, down := down, restored := restored, up := up, served := served,
        end := up);
      return;
    }
    r, failed, reached, served := Finish(c, obj, shape.site);
    ghost var clean := reached == 7 && c.lostWrites == lost;
    HooksRunWeaker(shape.env, PostRestore, shape.site, up, served, reached == 7 && c.lostWrites == lost', clean);
    p := shape.(but := but, reached := reached, clean := clean, down := down, restored := restored, up := up,
      served := served, end := Now(c));
  }

  /** The pass at `m`, with the hooks before the restore behind it at most. */
  function Halted(env: Env, site: Site, order: seq<string>, reached: nat, start: Moment, checked: Moment,
          m: Moment): Pass
  {
    Pass(env, site, order, None, reached, false, start, checked, m, m, m, m, m, m)
  }

  lemma HaltedIsPass(env: Env, site: Site, order: seq<string>, reached: nat, start: Moment, checked: Moment, m: Moment)
    returns (p: Pass)
    requires Validates(env, order, start, checked, reached >= 1) && reached <= 1
    requires reached >= 1 ==> RefsAsAsked(env.spec, checked.stored, start.claims, site.selects)
    requires if reached >= 1 then HooksRun(env, PreRestore, site, checked, m, false) else m == checked
    ensures IsPass(p) && p.env == env && p.site == site && p.start == start && p.end == m && p.reached == reached
  {
    p := Halted(env, site, order, reached, start, checked, m);
  }

  lemma HaltedPrepares(env: Env, site: Site, order: seq<string>, start: Moment, checked: Moment, m: Moment)
    returns (shape: Pass)
    requires Validates(env, order, start, checked, true) && HooksRun(env, PreRestore, site, checked, m, false)
    requires RefsAsAsked(env.spec, checked.stored, start.claims, site.selects)
    ensures Prepares(shape) && shape.reached == 2 && shape.prepared == m
    ensures shape.env == env && shape.site == site && shape.start == start
  {
    shape := Halted(env, site, order, 2, start, checked, m);
  }

  /**
   How a pass that does not complete shows in the status. When a hook could not be read the phase stays
   at what was announced, and this takes an immutable hook that runs alone. In all other cases, but for
   an error between the announcement of hooks and their run, the phase is `Failed` or a write was lost.
   */
  ghost predicate ShowsFailure(p: Pass, failed: HookFailure, phase: Phase, lost: bool) {
    && (p.reached < 7 && p.reached !in {1, 5} ==> lost || phase == Failed)
    && (!failed.NoFailure? ==> p.reached in {1, 5})
    && FailureShows(failed, if p.reached == 1 then RunningPreHooks else RunningPostHooks, phase, lost)
    && (failed.Unread? ==> SomeFrozen(p.env, if p.reached == 1 then PreRestore else PostRestore))
  }

  /** The checks, as the pass so far: it either ends with them, or is ready for the work. */
  method Preparation(c: Cluster, obj: RestoreObject, ghost site: Site)
    returns (r: Result<()>, failed: HookFailure, ghost p: Pass)
    requires c.status == obj.status && WellKeyed(c.claims) && site == SiteOf(c)
    modifies obj`status, c`status, c`history, c`lostWrites, c`configMaps, c`jobs, c`events
    ensures p.start == old(Now(c)) && p.env == EnvOf(c, obj) && p.site == site && p.reached <= 2
      && (r.Ok? <==> p.reached == 2)
    ensures if r.Ok? then Prepares(p) && p.prepared == Now(c) else IsPass(p) && p.end == Now(c)
    ensures r.Err? ==> ShowsFailure(p, failed, c.status.phase, c.lostWrites > old(c.lostWrites))
    ensures r.Ok? ==>
      && failed.NoFailure? && SameButHooks(c.status, obj.status) && AllAligned(obj.spec, c.status)
      && c.lostWrites >= old(c.lostWrites) && obj.status.phase in {Validating, RunningPreHooks}
  {
    ghost var env, start := EnvOf(c, obj), Now(c);
    ghost var reached, order, checked;
    r, failed, reached, order, checked := Checks(c, obj, site);
    if r.Err? {
      p := HaltedIsPass(env, site, order, reached, start, checked, Now(c));
    } else {
      p := HaltedPrepares(env, site, order, start, checked, Now(c));
    }
  }

  /** All of it. */
  method Stages(c: Cluster, obj: RestoreObject, ghost site: Site)
    returns (v: Verdict, failed: HookFailure, ghost p: Pass)
    requires c.status == obj.status && WellKeyed(c.claims) && site == SiteOf(c)
    modifies obj`status, c`status, c`history, c`lostWrites, c`statefulSets, c`deployments, c`claims, c`volumes,
      c`liveClaims, c`events, c`nextUid, c`configMaps, c`jobs
    ensures IsPass(p) && p.start == old(Now(c)) && p.end == Now(c) && p.env == EnvOf(c, obj) && p.site == site
    ensures p.reached == 7 ==> v == RequeueAfter(30) && (p.clean <==> c.lostWrites == old(c.lostWrites))
    ensures !v.NothingToDo? && (v.RequeueAfter? <==> p.reached == 7 || !failed.NoFailure?)
      && (v.RequeueAfter? ==> v.seconds == 30)
    ensures ShowsFailure(p, failed, c.status.phase, c.lostWrites > old(c.lostWrites))
  {
    var r;
    r, failed, p := Preparation(c, obj, site);
    if r.Ok? { r, failed, p := WorkAndFinish(c, obj, p, old(c.lostWrites)); }
    v := if failed.NoFailure? && r.Err? then Retry(r.error) else RequeueAfter(FREQUENCY);
  }

  /** A pass that does nothing. */
  lemma IdlePass(env: Env, site: Site, m: Moment) returns (p: Pass)
    ensures IsPass(p) && p.env == env && p.site == site && p.start == p.end == m && p.reached == 0
  {
    var order := AnyEnumeration(env.spec.Keys);
    ValidatesNothing(env, order, m, m);
    p := HaltedIsPass(env, site, order, 0, m, m, m);
  }

  /**
   One pass. A resource that is gone needs none; a failed hook or a completed pass is looked at again
   after a while; every other error is retried. `failed` says how the hooks failed, if they did.
   */
  method Reconcile(c: Cluster) returns (v: Verdict, failed: HookFailure, ghost p: Pass)
    requires WellKeyed(c.claims)
    modifies c`status, c`history, c`lostWrites, c`statefulSets, c`deployments, c`claims, c`volumes, c`liveClaims,
             c`events, c`nextUid, c`configMaps, c`jobs
    ensures IsPass(p) && p.start == old(Now(c)) && p.end == Now(c)
    ensures p.env == Env(c.scheme, old(c.namespace), old(c.spec)) && p.site == old(SiteOf(c))
    ensures p.reached == 7 ==> v == RequeueAfter(30) && (p.clean <==> c.lostWrites == old(c.lostWrites))
    ensures (v.RequeueAfter? <==> p.reached == 7 || !failed.NoFailure?) && (v.RequeueAfter? ==> v.seconds == 30)
    ensures v.NothingToDo? ==> p.end == p.start
    ensures p.end == p.start || ShowsFailure(p, failed, c.status.phase, c.lostWrites > old(c.lostWrites))
  {
    p := IdlePass(Env(c.scheme, c.namespace, c.spec), SiteOf(c), Now(c));
    var got := c.GetRestore();
    if got == Err(NotFound) { return NothingToDo, NoFailure, p; }
    if got.Err? { return Retry(got.error), NoFailure, p; }
    v, failed, p := Stages(c, got.value, SiteOf(c));
  }
}
