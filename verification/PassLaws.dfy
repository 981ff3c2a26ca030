/** What holds of every pass, however it ended. */
module PassLaws {
  import opened Api
  import opened HookEngine
  import opened HookJobs
  import opened HookList
  import opened Hooks
  import opened Kube
  import opened Locks
  import opened Passes
  import opened Restore
  import opened Scale
  import opened StatusManager
  import opened Validate

  // ---------------------------------------------------------------- stages

  lemma ValidationKeepsLocks(env: Env, order: seq<string>, a: Moment, b: Moment, ok: bool, q: string)
    requires Validates(env, order, a, b, ok) && PlanOf(a.stored, q).lock
    ensures PlanOf(b.stored, q).lock && (q in a.stored.plans ==> q in b.stored.plans)
    ensures PlanOf(b.stored, q).countScaleUp == PlanOf(a.stored, q).countScaleUp
    ensures HooksOf(b.stored, q) == HooksOf(a.stored, q)
  {
    LocksStay(a.stored, b.stored, order, q);
    ValidationKeepsHooks(env, order, a, b, ok, q);
  }

  lemma ValidationKeepsHooks(env: Env, order: seq<string>, a: Moment, b: Moment, ok: bool, q: string)
    requires Validates(env, order, a, b, ok)
    ensures HooksOf(b.stored, q) == HooksOf(a.stored, q)
    ensures PlanOf(b.stored, q).countScaleUp == PlanOf(a.stored, q).countScaleUp
  {
    if q in order {
      var k :| 0 <= k < |order| && order[k] == q;
      assert PlanOf(b.stored, order[k]) == PlanOf(a.stored, order[k])
        || PlanRevalidated(PlanOf(a.stored, order[k]), PlanOf(b.stored, order[k]), LockAfter(a.stored, order, k + 1));
    }
  }

  /** Hooks and scaling leave locks alone. */
  lemma HooksKeepPlans(env: Env, event: HookEvent, site: Site, a: Moment, b: Moment, clean: bool, q: string)
    requires HooksRun(env, event, site, a, b, clean)
    ensures PlanOf(b.stored, q) == PlanOf(a.stored, q).(hooks := HooksOf(b.stored, q))
    ensures q in a.stored.plans <==> q in b.stored.plans
  {
    if q in a.stored.plans { assert SamePlanButHooks(a.stored.plans[q], b.stored.plans[q]); }
  }

  lemma ScalingKeepsLocks(spec: Spec, up: bool, a: Moment, b: Moment, ok: bool, q: string)
    requires Scales(spec, up, a, b, ok)
    ensures PlanOf(b.stored, q).lock == PlanOf(a.stored, q).lock && HooksOf(b.stored, q) == HooksOf(a.stored, q)
    ensures q in a.stored.plans <==> q in b.stored.plans
  {
    if q in a.stored.plans { assert PlanScaled(a.stored.plans[q], b.stored.plans[q], up); }
  }

  lemma RestoringKeepsLocks(spec: Spec, a: Moment, b: Moment, but: Option<Key>, ok: bool, q: string)
    requires Restores(spec, a, b, but, ok)
    ensures q in spec && PlanOf(a.stored, q).lock ==> PlanOf(b.stored, q) == PlanOf(a.stored, q)
    ensures HooksOf(b.stored, q) == HooksOf(a.stored, q)
      && PlanOf(b.stored, q).countScaleUp == PlanOf(a.stored, q).countScaleUp
    ensures q in a.stored.plans <==> q in b.stored.plans
  {
    if q in a.stored.plans { assert PlanRestored(a.stored.plans[q], b.stored.plans[q]); }
  }

  // ---------------------------------------------------------------- locks

  /** A lock seen at one moment of a pass is seen at all later ones. */
  lemma LocksStayClosed(p: Pass, q: string)
    requires IsPass(p) && q in p.env.spec
    ensures PlanOf(p.start.stored, q).lock ==> PlanOf(p.checked.stored, q).lock
    ensures PlanOf(p.checked.stored, q).lock == PlanOf(p.prepared.stored, q).lock == PlanOf(p.down.stored, q).lock
    ensures PlanOf(p.down.stored, q).lock ==> PlanOf(p.restored.stored, q).lock
    ensures PlanOf(p.restored.stored, q).lock == PlanOf(p.up.stored, q).lock == PlanOf(p.served.stored, q).lock ==
      PlanOf(p.end.stored, q).lock
  {
    LocksUntilPrepared(p, q);
    LocksUntilUp(p, q);
  }

  lemma LocksUntilPrepared(p: Pass, q: string)
    requires Prepares(p)
    ensures PlanOf(p.start.stored, q).lock ==> PlanOf(p.checked.stored, q).lock
    ensures PlanOf(p.checked.stored, q).lock == PlanOf(p.prepared.stored, q).lock
  {
    if PlanOf(p.start.stored, q).lock {
      ValidationKeepsLocks(p.env, p.order, p.start, p.checked, p.reached >= 1, q);
    }
    if p.reached >= 1 { HooksKeepPlans(p.env, PreRestore, p.site, p.checked, p.prepared, false, q); }
  }

  lemma LocksUntilUp(p: Pass, q: string)
    requires Passes.Completes(p) && q in p.env.spec
    ensures PlanOf(p.prepared.stored, q).lock == PlanOf(p.down.stored, q).lock
    ensures PlanOf(p.down.stored, q).lock ==> PlanOf(p.restored.stored, q).lock
    ensures PlanOf(p.restored.stored, q).lock == PlanOf(p.up.stored, q).lock == PlanOf(p.served.stored, q).lock ==
      PlanOf(p.end.stored, q).lock
  {
    if p.reached >= 2 { ScalingKeepsLocks(p.env.spec, false, p.prepared, p.down, p.reached >= 3, q); }
    if p.reached >= 3 { RestoringKeepsLocks(p.env.spec, p.down, p.restored, p.but, p.reached >= 4, q); }
    if p.reached >= 4 { ScalingKeepsLocks(p.env.spec, true, p.restored, p.up, p.reached >= 5, q); }
    if p.reached >= 5 { HooksKeepPlans(p.env, PostRestore, p.site, p.up, p.served, p.clean && p.reached >= 7, q); }
  }

  // ---------------------------------------------------------------- the log, stage by stage

  lemma LogGrows(p: Pass)
    requires IsPass(p)
    ensures p.start.events == p.checked.events <= p.prepared.events
    ensures p.prepared.events <= p.down.events <= p.restored.events <= p.up.events <= p.served.events == p.end.events
    ensures forall i :: |p.checked.events| <= i < |p.prepared.events| ==> OnHooks(p.prepared.events[i])
    ensures forall i :: |p.prepared.events| <= i < |p.down.events| ==> OnWorkloads(p.down.events[i])
    ensures forall i :: |p.down.events| <= i < |p.restored.events| ==>
      p.restored.events[i] in RestoreEvents(p.env.spec, p.down.stored)
    ensures forall i :: |p.restored.events| <= i < |p.up.events| ==> OnWorkloads(p.up.events[i])
    ensures forall i :: |p.up.events| <= i < |p.served.events| ==> OnHooks(p.served.events[i])
  {
  }

  predicate OnClaims(e: Event) { e.ClaimDeleted? || e.ClaimCreated? || e.ClaimPatched? || e.ClaimRestored? }

  /** What kind of event it is says in which stage it happened. */
  lemma KindTellsStage(p: Pass, i: nat)
    requires IsPass(p) && |p.start.events| <= i < |p.end.events|
    ensures OnHooks(p.end.events[i]) || OnWorkloads(p.end.events[i])
            || (|p.down.events| <= i < |p.restored.events|
                && p.end.events[i] in RestoreEvents(p.env.spec, p.down.stored))
  {
    LogGrows(p);
    var e := p.end.events[i];
    if i < |p.prepared.events| {
      assert e == p.prepared.events[i];
    } else if i < |p.down.events| {
      assert e == p.down.events[i];
    } else if i < |p.restored.events| {
      assert e == p.restored.events[i];
    } else if i < |p.up.events| {
      assert e == p.up.events[i];
    }
  }

  lemma KindsDiffer(e: Event)
    ensures OnClaims(e) ==> !OnHooks(e) && !OnWorkloads(e)
  {
  }

  lemma RestoreWasReached(p: Pass)
    requires IsPass(p)
    ensures p.reached < 3 ==> p.restored.events == p.down.events
  {
  }

  /** Claims are only touched by the restore, and only for plans it does not skip. */
  lemma ClaimEventsAreOfTheRestore(p: Pass, i: nat)
    requires IsPass(p) && |p.start.events| <= i < |p.end.events| && OnClaims(p.end.events[i])
    ensures |p.down.events| <= i < |p.restored.events| && p.reached >= 3
    ensures p.end.events[i] in RestoreEvents(p.env.spec, p.down.stored)
    ensures p.end.events[i].plan in ToRestore(p.env.spec, p.down.stored)
  {
    KindTellsStage(p, i);
    KindsDiffer(p.end.events[i]);
    RestoreEventsAreOfPlans(p.env.spec, p.down.stored, p.end.events[i]);
    RestoreWasReached(p);
  }

  lemma RestoreEventsAreOfPlans(spec: Spec, st: Status, e: Event)
    ensures e in RestoreEvents(spec, st) ==> OnClaims(e) && e.plan in ToRestore(spec, st)
  {
    if e in RestoreEvents(spec, st) {
      var q :| q in ToRestore(spec, st) && e in PlanEvents(q, st.plans[q].clusters);
      var t :| t in st.plans[q].clusters && e in TargetEvents(q, t);
      var ref :| ref in t.snapshotsRef && e in RefEvents(q, t.namespace, ref);
    }
  }

  /** No claim is touched for a plan of the spec that was locked when the pass began. */
  lemma LockedPlansKeepTheirClaims(p: Pass, i: nat)
    requires IsPass(p) && |p.start.events| <= i < |p.end.events| && OnClaims(p.end.events[i])
    ensures !(p.end.events[i].plan in p.env.spec && PlanOf(p.start.stored, p.end.events[i].plan).lock)
  {
    ClaimEventsAreOfTheRestore(p, i);
    if p.end.events[i].plan in p.env.spec {
      LocksStayClosed(p, p.end.events[i].plan);
    }
  }

  /**
   Before a claim is touched for any plan, every plan of the spec that validation found unlocked has
   been scaled down in this pass: first all its operators, then all its clusters.
   */
  lemma ScaledDownBeforeRestore(p: Pass, i: nat, q: string)
    requires IsPass(p) && |p.start.events| <= i < |p.end.events| && OnClaims(p.end.events[i])
    requires q in p.env.spec && !PlanOf(p.checked.stored, q).lock
    ensures PlanDown(p.end.events, |p.start.events|, i, p.env.spec[q])
  {
    ClaimEventsAreOfTheRestore(p, i);
    LogGrows(p);
    LocksStayClosed(p, q);
    var e0, e1 := p.prepared.events, p.down.events;
    assert PlanDone(e1, |e0|, p.env.spec[q], p.prepared.stored.plans[q], p.down.stored.plans[q], false);
    PlanDownStays(e1, |e0|, |e1|, p.env.spec[q], p.end.events, |p.start.events|, i);
  }

  /** The same event by event: operator `m` comes to rest before cluster `k`, and that before the claim. */
  lemma OperatorThenClusterThenClaim(p: Pass, i: nat, q: string, m: nat, k: nat) returns (a: nat, b: nat)
    requires IsPass(p) && |p.start.events| <= i < |p.end.events| && OnClaims(p.end.events[i])
    requires q in p.env.spec && !PlanOf(p.checked.stored, q).lock
    requires m < |p.env.spec[q].operators| && k < |p.env.spec[q].clusters|
    ensures var o, t, log := p.env.spec[q].operators[m], p.env.spec[q].clusters[k], p.end.events;
      && |p.start.events| <= a < b < i
      && log[a] == AtZero(OfDeployment, o.Id()) && log[b] == AtZero(OfStatefulSet, t.Id())
      && (!o.skipWaitScaleDown ==> exists x ::
           && a < x < b && log[x].DeploymentSeen? && log[x].id == o.Id() && log[x].deployment.status.replicas == 0)
      && (!t.skipWaitScaleDown ==> exists x ::
           && b < x < i && log[x].SetSeen? && log[x].id == t.Id() && log[x].sts.status.replicas == 0)
  {
    ScaledDownBeforeRestore(p, i, q);
    a, b := DownInOrder(p.end.events, |p.start.events|, i, p.env.spec[q], m, k);
  }

  /** The plan a claim is touched for is itself such a plan, if it is in the spec. */
  lemma RestoredPlansWereUnlocked(p: Pass, i: nat)
    requires IsPass(p) && |p.start.events| <= i < |p.end.events| && OnClaims(p.end.events[i])
    requires p.end.events[i].plan in p.env.spec
    ensures !PlanOf(p.checked.stored, p.end.events[i].plan).lock
    ensures PlanDown(p.end.events, |p.start.events|, i, p.env.spec[p.end.events[i].plan])
  {
    ClaimEventsAreOfTheRestore(p, i);
    LocksStayClosed(p, p.end.events[i].plan);
    ScaledDownBeforeRestore(p, i, p.end.events[i].plan);
  }

  /**
   A plan the status still lists but the spec no longer does is restored by every pass that gets that
   far, locked or not: the lock is honoured for plans of the spec only.
   */
  lemma StalePlansAreRestoredAgain(p: Pass, q: string)
    requires IsPass(p) && p.reached >= 4 && q !in p.env.spec && q in p.start.stored.plans
    ensures AllReported(p.end.events, |p.start.events|, q, p.start.stored.plans[q].clusters)
  {
    StalePlansWait(p, q);
    StaleMeansRestored(p, q);
    LogGrows(p);
    var ts := p.start.stored.plans[q].clusters;
    TargetsReportedStay(p.restored.events, |p.down.events|, q, ts, |ts|, p.end.events, |p.start.events|);
  }

  lemma StaleMeansRestored(p: Pass, q: string)
    requires IsPass(p) && p.reached >= 4 && q !in p.env.spec && q in p.down.stored.plans
    ensures AllReported(p.restored.events, |p.down.events|, q, p.down.stored.plans[q].clusters)
  {
    assert RestoreDone(p.env.spec, p.restored.events, |p.down.events|, q, p.down.stored.plans[q],
      p.restored.stored.plans[q]);
  }

  lemma StalePlansWait(p: Pass, q: string)
    requires IsPass(p) && p.reached >= 2 && q !in p.env.spec && q in p.start.stored.plans
    ensures q in p.down.stored.plans && p.down.stored.plans[q].clusters == p.start.stored.plans[q].clusters
  {
    assert q !in p.env.spec.Keys && q !in p.order;
    assert PlanOf(p.checked.stored, q) == PlanOf(p.start.stored, q);
    HooksKeepPlans(p.env, PreRestore, p.site, p.checked, p.prepared, false, q);
    assert p.down.stored.plans[q] == p.prepared.stored.plans[q];
  }

  // ---------------------------------------------------------------- what completion means

  /** All plans of the spec are in the status from validation on, if validation passed. */
  lemma PlansAreListed(p: Pass, q: string)
    requires IsPass(p) && p.reached >= 1 && q in p.env.spec
    ensures q in p.checked.stored.plans && q in p.prepared.stored.plans && q in p.down.stored.plans
    ensures q in p.restored.stored.plans && q in p.up.stored.plans && q in p.served.stored.plans
      && q in p.end.stored.plans
  {
    HooksKeepPlans(p.env, PreRestore, p.site, p.checked, p.prepared, false, q);
    if p.reached >= 2 { ScalingKeepsLocks(p.env.spec, false, p.prepared, p.down, p.reached >= 3, q); }
    if p.reached >= 3 { RestoringKeepsLocks(p.env.spec, p.down, p.restored, p.but, p.reached >= 4, q); }
    if p.reached >= 4 { ScalingKeepsLocks(p.env.spec, true, p.restored, p.up, p.reached >= 5, q); }
    if p.reached >= 5 { HooksKeepPlans(p.env, PostRestore, p.site, p.up, p.served, p.clean && p.reached >= 7, q); }
  }

  lemma RestoreLocksAll(p: Pass, q: string)
    requires IsPass(p) && p.reached >= 4 && q in p.env.spec
    ensures PlanOf(p.restored.stored, q).lock
  {
    PlansAreListed(p, q);
    assert RestoreDone(p.env.spec, p.restored.events, |p.down.events|, q, p.down.stored.plans[q],
      p.restored.stored.plans[q]);
  }

  /** A pass that gets as far as the hooks after the restore leaves every plan of the spec locked and scaled up. */
  lemma CompletionMeansDone(p: Pass, q: string)
    requires IsPass(p) && p.reached >= 5 && q in p.env.spec
    ensures PlanOf(p.end.stored, q).lock && PlanOf(p.end.stored, q).countScaleUp > 0
  {
    RestoreLocksAll(p, q);
    LocksStayClosed(p, q);
    ScaledUpIsCounted(p, q);
    HooksKeepPlans(p.env, PostRestore, p.site, p.up, p.served, p.clean && p.reached >= 7, q);
  }

  lemma ScaledUpIsCounted(p: Pass, q: string)
    requires IsPass(p) && p.reached >= 5 && q in p.env.spec
    ensures PlanOf(p.up.stored, q).countScaleUp > 0
  {
    PlansAreListed(p, q);
    var a, b := p.restored.stored.plans[q], p.up.stored.plans[q];
    assert SkipsScaling(a, true) ==> b == a;
    DoneIsCounted(p.up.events, |p.restored.events|, p.env.spec[q], a, b);
  }

  lemma DoneIsCounted(events: seq<Event>, lo: nat, plan: RestorePlan, a: PlanStatus, b: PlanStatus)
    requires PlanDone(events, lo, plan, a, b, true) && (SkipsScaling(a, true) ==> b == a)
    ensures b.countScaleUp > 0
  {
  }

  // ---------------------------------------------------------------- what the phase says

  /** Between validation and the last announcement nothing that a user could read as completed is stored. */
  lemma QuietUntilServed(p: Pass)
    requires IsPass(p)
    ensures QuietSince(p.start.history, p.served.history)
  {
    QuietUntilDown(p);
    if p.reached >= 1 {
      QuietTransitively(p.checked.history, p.checked.stored, p.down.history, p.down.stored, p.restored.history,
        p.restored.stored);
      QuietTransitively(p.checked.history, p.checked.stored, p.restored.history, p.restored.stored, p.up.history,
        p.up.stored);
      QuietTransitively(p.checked.history, p.checked.stored, p.up.history, p.up.stored, p.served.history,
        p.served.stored);
      QuietSinceTransitively(p.start.history, p.checked.history, p.served.history);
    }
  }

  lemma QuietUntilDown(p: Pass)
    requires IsPass(p)
    ensures QuietSince(p.start.history, p.checked.history) && (p.reached >= 1 ==> p.checked.stored.phase != Completed)
    ensures p.reached >= 1 ==> Quiet(p.checked.history, p.checked.stored, p.down.history, p.down.stored)
  {
    if p.reached >= 1 {
      QuietTransitively(p.checked.history, p.checked.stored, p.prepared.history, p.prepared.stored, p.down.history,
        p.down.stored);
    }
  }

  ghost predicate AllScaledUp(spec: Spec, st: Status) {
    forall q :: q in spec ==> PlanOf(st, q).lock && PlanOf(st, q).countScaleUp > 0
  }

  lemma HistoryGrows(p: Pass)
    requires IsPass(p)
    ensures p.start.history <= p.served.history <= p.end.history
  {
    QuietUntilServed(p);
  }

  /**
   The phase a user reads can be relied on: each value a pass stores with the phase `Completed`, whether
   or not the write was reported to fail, has every plan of the spec locked and scaled up.
   */
  lemma CompletedMeansDone(p: Pass, i: nat)
    requires IsPass(p) && |p.start.history| <= i < |p.end.history| && p.end.history[i].phase == Completed
    ensures AllScaledUp(p.env.spec, p.end.history[i])
  {
    QuietUntilServed(p);
    CompletedComesLast(p, i);
    forall q | q in p.env.spec
      ensures PlanOf(p.end.history[i], q).lock && PlanOf(p.end.history[i], q).countScaleUp > 0
    {
      CompletionMeansDone(p, q);
      assert p.end.stored.plans == p.served.stored.plans;
    }
  }

  lemma CompletedComesLast(p: Pass, i: nat)
    requires IsPass(p) && QuietSince(p.start.history, p.served.history)
    requires |p.start.history| <= i < |p.end.history| && p.end.history[i].phase == Completed
    ensures p.reached >= 6 && p.end.history[i].plans == p.served.stored.plans
  {
    QuietWithin(p.start.history, p.served.history, p.end.history, i);
  }

  lemma QuietWithin(h0: seq<Status>, h1: seq<Status>, h2: seq<Status>, i: nat)
    requires QuietSince(h0, h1) && h1 <= h2 && |h0| <= i < |h2|
    ensures i < |h1| ==> h2[i].phase != Completed
  {
    if i < |h1| { assert h2[i] == h1[i]; }
  }

  /** A pass either leaves the history as it was, or what it stored last can be trusted. */
  lemma StoredCompletedMeansDone(p: Pass)
    requires IsPass(p) && p.end.history != [] && p.end.history[|p.end.history| - 1] == p.end.stored
      && p.end.stored.phase == Completed
    ensures p.end.history == p.start.history
         || (|p.start.history| < |p.end.history| && AllScaledUp(p.env.spec, p.end.stored))
  {
    HistoryGrows(p);
    if |p.start.history| < |p.end.history| { CompletedMeansDone(p, |p.end.history| - 1); }
  }

  // ---------------------------------------------------------------- stages move forwards

  lemma PassMovesStages(p: Pass, plans: set<string>)
    requires IsPass(p) && NoneStale(p.env.spec, p.start.stored, plans)
      && Orderly(p.start.history, p.start.stored, plans)
    ensures Orderly(p.end.history, p.end.stored, plans)
  {
    assert Orderly(p.checked.history, p.checked.stored, plans);
    assert Orderly(p.prepared.history, p.prepared.stored, plans);
    assert Orderly(p.down.history, p.down.stored, plans);
    NoneBecomesStale(p, plans);
    assert Orderly(p.restored.history, p.restored.stored, plans);
    if p.reached >= 4 {
      forall q | q in p.env.spec.Keys ensures PlanOf(p.restored.stored, q).lock { RestoreLocksAll(p, q); }
    }
    assert Orderly(p.up.history, p.up.stored, plans);
    assert Orderly(p.served.history, p.served.stored, plans);
  }

  lemma NoneBecomesStale(p: Pass, plans: set<string>)
    requires IsPass(p) && NoneStale(p.env.spec, p.start.stored, plans)
    ensures NoneStale(p.env.spec, p.down.stored, plans) && NoneStale(p.env.spec, p.end.stored, plans)
  {
    forall q | q in plans && q !in p.env.spec ensures q !in p.down.stored.plans && q !in p.end.stored.plans {
      OnlyPlansOfTheSpecAppear(p, q);
    }
  }

  lemma OnlyPlansOfTheSpecAppear(p: Pass, q: string)
    requires IsPass(p) && q !in p.env.spec && q !in p.start.stored.plans
    ensures q !in p.checked.stored.plans && q !in p.down.stored.plans && q !in p.end.stored.plans
  {
    assert q !in p.env.spec.Keys && q !in p.order;
    if p.reached >= 1 { HooksKeepPlans(p.env, PreRestore, p.site, p.checked, p.prepared, false, q); }
    if p.reached >= 2 { ScalingKeepsLocks(p.env.spec, false, p.prepared, p.down, p.reached >= 3, q); }
    if p.reached >= 3 { RestoringKeepsLocks(p.env.spec, p.down, p.restored, p.but, p.reached >= 4, q); }
    if p.reached >= 4 { ScalingKeepsLocks(p.env.spec, true, p.restored, p.up, p.reached >= 5, q); }
    if p.reached >= 5 { HooksKeepPlans(p.env, PostRestore, p.site, p.up, p.served, p.clean && p.reached >= 7, q); }
  }

  // ---------------------------------------------------------------- whence a lock comes

  /**
   A plan that a pass locked was either locked by validation already, for another plan's lock, or
   every reference that validation recorded for it was restored or marked to be skipped.
   */
  lemma NewLocksAreEarned(p: Pass, q: string)
    requires IsPass(p) && q in p.env.spec && !PlanOf(p.start.stored, q).lock && PlanOf(p.end.stored, q).lock
    ensures PlanOf(p.checked.stored, q).lock
         || AllReported(p.end.events, |p.start.events|, q, PlanOf(p.checked.stored, q).clusters)
  {
    LocksStayClosed(p, q);
    if !PlanOf(p.checked.stored, q).lock {
      RestoreEarnsLocks(p, q);
      LogGrows(p);
      var ts := PlanOf(p.checked.stored, q).clusters;
      TargetsReportedStay(p.restored.events, |p.down.events|, q, ts, |ts|, p.end.events, |p.start.events|);
    }
  }

  lemma RestoreEarnsLocks(p: Pass, q: string)
    requires IsPass(p) && !PlanOf(p.down.stored, q).lock && PlanOf(p.restored.stored, q).lock
    ensures AllReported(p.restored.events, |p.down.events|, q, PlanOf(p.checked.stored, q).clusters)
  {
    RestoringKeepsLocks(p.env.spec, p.down, p.restored, p.but, p.reached >= 4, q);
    var ts := p.down.stored.plans[q].clusters;
    assert AllReported(p.restored.events, |p.down.events|, q, ts);
    SameTargetsBeforeRestore(p, q);
    ReportedForSameTargets(p.restored.events, |p.down.events|, q, PlanOf(p.checked.stored, q).clusters, ts);
  }

  lemma SameTargetsBeforeRestore(p: Pass, q: string)
    requires IsPass(p) && p.reached >= 3 && q in p.down.stored.plans
    ensures SameTargets(PlanOf(p.checked.stored, q).clusters, p.down.stored.plans[q].clusters)
  {
    HooksKeepPlans(p.env, PreRestore, p.site, p.checked, p.prepared, false, q);
    ScalingKeepsLocks(p.env.spec, false, p.prepared, p.down, p.reached >= 3, q);
    assert PlanScaled(p.prepared.stored.plans[q], p.down.stored.plans[q], false);
  }

  lemma ReportedForSameTargets(events: seq<Event>, lo: nat, plan: string, a: seq<TargetStatus>, b: seq<TargetStatus>)
    requires SameTargets(a, b) && AllReported(events, lo, plan, b)
    ensures AllReported(events, lo, plan, a)
  {
    forall i | 0 <= i < |a| ensures RefsReported(events, lo, plan, a[i], |a[i].snapshotsRef|) {
      assert SameEntry(a[i], b[i]);
      assert RefsReported(events, lo, plan, b[i], |b[i].snapshotsRef|);
    }
  }

  // ---------------------------------------------------------------- hooks

  lemma HooksSameSoResting(env: Env, s: Status, t: Status, plan: string, id: Key, event: HookEvent, e: HookStatus)
    requires HooksOf(s, plan) == HooksOf(t, plan)
    ensures RestingIn(env, s, plan, id, event, e) <==> RestingIn(env, t, plan, id, event, e)
  {
  }

  lemma NoJobBetween(from: seq<Event>, mid: seq<Event>, to: seq<Event>, plan: string, id: Key, event: HookEvent)
    requires from <= mid <= to && NoJob(from, mid, plan, id, event) && NoJob(mid, to, plan, id, event)
    ensures NoJob(from, to, plan, id, event)
  {
    forall i | |from| <= i < |to| && to[i].JobCreated?
      ensures !(to[i].plan == plan && to[i].id == id && to[i].event == event)
    {
      if i < |mid| { assert to[i] == mid[i]; }
    }
  }

  /** Until the hooks after the restore, hook results change only while the hooks before it run. */
  lemma HooksUntilUp(p: Pass, plan: string)
    requires IsPass(p)
    ensures HooksOf(p.start.stored, plan) == HooksOf(p.checked.stored, plan)
    ensures HooksOf(p.prepared.stored, plan) == HooksOf(p.up.stored, plan)
      && HooksOf(p.served.stored, plan) == HooksOf(p.end.stored, plan)
  {
    ValidationKeepsHooks(p.env, p.order, p.start, p.checked, p.reached >= 1, plan);
    if p.reached >= 2 { ScalingKeepsLocks(p.env.spec, false, p.prepared, p.down, p.reached >= 3, plan); }
    if p.reached >= 3 { RestoringKeepsLocks(p.env.spec, p.down, p.restored, p.but, p.reached >= 4, plan); }
    if p.reached >= 4 { ScalingKeepsLocks(p.env.spec, true, p.restored, p.up, p.reached >= 5, plan); }
  }

  lemma NoJobsInBetween(p: Pass, plan: string, id: Key, event: HookEvent)
    requires IsPass(p)
    ensures NoJob(p.prepared.events, p.up.events, plan, id, event)
  {
    LogGrows(p);
    forall i | |p.prepared.events| <= i < |p.up.events| ensures !p.up.events[i].JobCreated? {
      if i < |p.down.events| {
        assert p.up.events[i] == p.down.events[i];
      } else if i < |p.restored.events| {
        assert p.up.events[i] == p.restored.events[i];
        RestoreEventsAreOfPlans(p.env.spec, p.down.stored, p.up.events[i]);
      }
    }
  }

  lemma StretchRests(env: Env, event: HookEvent, site: Site, a: Moment, b: Moment, clean: bool, plan: string, id: Key,
          ev: HookEvent, e: HookStatus)
    requires HooksRun(env, event, site, a, b, clean) && RestingIn(env, a.stored, plan, id, ev, e)
    ensures RestingIn(env, b.stored, plan, id, ev, e) && NoJob(a.events, b.events, plan, id, ev)
  {
  }

  lemma RestsUntilPrepared(p: Pass, plan: string, id: Key, ev: HookEvent, e: HookStatus)
    requires IsPass(p) && RestingIn(p.env, p.start.stored, plan, id, ev, e)
    ensures RestingIn(p.env, p.prepared.stored, plan, id, ev, e)
      && NoJob(p.start.events, p.prepared.events, plan, id, ev)
  {
    HooksUntilUp(p, plan);
    HooksSameSoResting(p.env, p.start.stored, p.checked.stored, plan, id, ev, e);
    if p.reached >= 1 { StretchRests(p.env, PreRestore, p.site, p.checked, p.prepared, false, plan, id, ev, e); }
  }

  lemma RestsFromUp(p: Pass, plan: string, id: Key, ev: HookEvent, e: HookStatus)
    requires IsPass(p) && RestingIn(p.env, p.up.stored, plan, id, ev, e)
    ensures RestingIn(p.env, p.end.stored, plan, id, ev, e) && NoJob(p.up.events, p.end.events, plan, id, ev)
  {
    if p.reached >= 5 {
      StretchRests(p.env, PostRestore, p.site, p.up, p.served, p.clean && p.reached >= 7, plan, id, ev, e);
    }
    HooksUntilUp(p, plan);
    HooksSameSoResting(p.env, p.served.stored, p.end.stored, plan, id, ev, e);
  }

  /** A result every hook of its name takes as done is kept as it is, and no further Job runs for it. */
  lemma DoneHooksRest(p: Pass, plan: string, id: Key, ev: HookEvent, e: HookStatus)
    requires IsPass(p) && RestingIn(p.env, p.start.stored, plan, id, ev, e)
    ensures RestingIn(p.env, p.end.stored, plan, id, ev, e) && NoJob(p.start.events, p.end.events, plan, id, ev)
  {
    RestsUntilPrepared(p, plan, id, ev, e);
    RestsUntilUp(p, plan, id, ev, e);
    RestsFromUp(p, plan, id, ev, e);
    NoJobsInBetween(p, plan, id, ev);
    LogPrefixes(p);
    NoJobBetween(p.start.events, p.prepared.events, p.up.events, plan, id, ev);
    NoJobBetween(p.start.events, p.up.events, p.end.events, plan, id, ev);
  }

  lemma RestsUntilUp(p: Pass, plan: string, id: Key, ev: HookEvent, e: HookStatus)
    requires IsPass(p) && RestingIn(p.env, p.prepared.stored, plan, id, ev, e)
    ensures RestingIn(p.env, p.up.stored, plan, id, ev, e)
  {
    HooksUntilUp(p, plan);
    HooksSameSoResting(p.env, p.prepared.stored, p.up.stored, plan, id, ev, e);
  }

  lemma LogPrefixes(p: Pass)
    requires IsPass(p)
    ensures p.start.events <= p.prepared.events <= p.up.events <= p.end.events
  {
    LogGrows(p);
  }

  /** Which stage created a Job. */
  lemma JobTellsStage(p: Pass, i: nat)
    requires IsPass(p) && |p.start.events| <= i < |p.end.events| && p.end.events[i].JobCreated?
    ensures || (p.reached >= 1 && i < |p.prepared.events|
                && JobIsDue(p.env, PreRestore, p.checked.stored, p.end.events[i], p.prepared.configs))
            || (p.reached >= 5 && |p.up.events| <= i
                && JobIsDue(p.env, PostRestore, p.up.stored, p.end.events[i], p.served.configs))
  {
    LogGrows(p);
    var e := p.end.events[i];
    if i < |p.prepared.events| {
      assert e == p.prepared.events[i];
    } else if i < |p.up.events| {
      assert e == p.up.events[i];
      NoJobsInBetween(p, e.plan, e.id, e.event);
    }
  }

  /** Once a plan is locked no hook before its restore gets a Job any more. */
  lemma NoPreRestoreJobsOnceLocked(p: Pass, i: nat)
    requires IsPass(p) && |p.start.events| <= i < |p.end.events| && p.end.events[i].JobCreated?
      && p.end.events[i].event == PreRestore
    ensures p.end.events[i].plan in p.env.spec && !PlanOf(p.start.stored, p.end.events[i].plan).lock
  {
    JobTellsStage(p, i);
    LocksStayClosed(p, p.end.events[i].plan);
  }

  /** The ConfigMap of a name no mutable hook has is never changed, and its Jobs run what it holds. */
  lemma ConfigsStayFrozen(p: Pass, id: Key)
    requires IsPass(p) && !MutableName(p.env, id)
    ensures id in p.start.configs ==> id in p.end.configs && p.end.configs[id] == p.start.configs[id]
    ensures forall i ::
      |p.start.events| <= i < |p.end.events| && p.end.events[i].JobCreated? && p.end.events[i].id == id ==>
        id in p.end.configs && p.end.configs[id] == HookConfig(p.end.events[i].command, p.end.events[i].args)
  {
    forall i | |p.start.events| <= i < |p.end.events| && p.end.events[i].JobCreated? && p.end.events[i].id == id
      ensures id in p.end.configs && p.end.configs[id] == HookConfig(p.end.events[i].command, p.end.events[i].args)
    {
      JobTellsStage(p, i);
    }
  }

  /** The name is that of the hook's Job, or of its Job on a node. */
  ghost predicate NamedAfter(env: Env, plan: string, hook: string, id: Key)
    requires plan in env.spec && hook in env.spec[plan].hooks
  {
    var name := env.scheme.jobName(plan, hook);
    if env.spec[plan].hooks[hook].nodeAccess.None? then id == Key(env.namespace, name)
    else exists node :: id == Key(env.namespace, env.scheme.nodeName(name, node))
  }

  /** Command and arguments of the ConfigMap are those that the spec gives for the hook it is named after. */
  ghost predicate HoldsWhatSpecSays(env: Env, plan: string, hook: string, id: Key, config: HookConfig) {
    && plan in env.spec && hook in env.spec[plan].hooks && NamedAfter(env, plan, hook, id)
    && config.command == env.spec[plan].hooks[hook].command && config.args == env.spec[plan].hooks[hook].args
  }

  lemma WantedIsInSpec(env: Env, id: Key, config: HookConfig) returns (plan: string, hook: string)
    requires WantedThere(env, id, config)
    ensures HoldsWhatSpecSays(env, plan, hook, id, config)
  {
    var event, h, node :| FromSpec(env, event, h) && Derives(env, h, node, id) && Wants(h) == config;
    plan := h.planName;
    hook :| InSpec(env, event, plan, hook) && h == JobOf(env, plan, hook);
  }

  /** A ConfigMap a pass creates or changes holds what the spec says of the hook it is named after. */
  lemma NewConfigsHoldWhatSpecSays(p: Pass, id: Key) returns (plan: string, hook: string)
    requires IsPass(p) && id in p.end.configs
    requires id !in p.start.configs || p.end.configs[id] != p.start.configs[id]
    ensures HoldsWhatSpecSays(p.env, plan, hook, id, p.end.configs[id])
  {
    assert WantedThere(p.env, id, p.end.configs[id]);
    plan, hook := WantedIsInSpec(p.env, id, p.end.configs[id]);
  }

  /** A Job of a mutable hook runs what the spec says by then, by checksum; and some hook of the spec called for it. */
  lemma JobsAreCalledFor(p: Pass, i: nat)
    requires IsPass(p) && |p.start.events| <= i < |p.end.events| && p.end.events[i].JobCreated?
    ensures CalledFor(p.env, p.end.events[i])
  {
    JobTellsStage(p, i);
  }

  lemma SoundThrough(ns: string, a: Moment, b: Moment)
    requires Sound(ns, a.stored, a.events) && a.events <= b.events
      && forall q :: HooksOf(b.stored, q) == HooksOf(a.stored, q)
    ensures Sound(ns, b.stored, b.events)
  {
    SoundLater(ns, a.stored, a.events, b.events);
    SoundByHooks(ns, a.stored, b.stored, b.events);
  }

  /** No success is recorded without a Job that was requested and then seen to succeed. */
  lemma HookResultsStaySound(p: Pass)
    requires IsPass(p) && Sound(p.env.namespace, p.start.stored, p.start.events)
    ensures Sound(p.env.namespace, p.end.stored, p.end.events)
  {
    forall q
      ensures HooksOf(p.start.stored, q) == HooksOf(p.checked.stored, q)
        && HooksOf(p.prepared.stored, q) == HooksOf(p.up.stored, q)
      ensures HooksOf(p.served.stored, q) == HooksOf(p.end.stored, q)
    {
      HooksUntilUp(p, q);
    }
    LogGrows(p);
    SoundThrough(p.env.namespace, p.start, p.checked);
    assert Sound(p.env.namespace, p.prepared.stored, p.prepared.events);
    SoundThrough(p.env.namespace, p.prepared, p.up);
    assert Sound(p.env.namespace, p.served.stored, p.served.events);
    SoundThrough(p.env.namespace, p.served, p.end);
  }

  // ---------------------------------------------------------------- the fixed point

  /** Every plan restored and scaled up, no plan left over, and all hooks after the restore done. */
  ghost predicate Settled(env: Env, site: Site, st: Status) {
    && st.plans.Keys == env.spec.Keys
    && (forall q :: q in env.spec ==> PlanOf(st, q).lock && PlanOf(st, q).countScaleUp > 0)
    && HooksDone(env, PostRestore, site, st.plans)
  }

  /** Hooks before a restore are done once every plan is locked. */
  lemma LockedSkipsPreHooks(env: Env, site: Site, plans: map<string, PlanStatus>)
    requires forall q :: q in env.spec ==> q in plans && plans[q].lock
    ensures HooksDone(env, PreRestore, site, plans)
  {
    forall h | FromSpec(env, PreRestore, h) ensures JobServed(site, Status(Unset, "", plans), h) {
      SpecIsWellSummed(env, PreRestore, h);
    }
  }

  /** Whether hooks after a restore are done depends on the recorded results only. */
  lemma PostHooksByResults(env: Env, site: Site, a: map<string, PlanStatus>, b: map<string, PlanStatus>)
    requires HooksDone(env, PostRestore, site, a)
    requires forall q :: q in env.spec ==> q in a && q in b && a[q].hooks == b[q].hooks
    ensures HooksDone(env, PostRestore, site, b)
  {
    forall h | FromSpec(env, PostRestore, h) ensures JobServed(site, Status(Unset, "", b), h) {
      SpecIsWellSummed(env, PostRestore, h);
      assert JobServed(site, Status(Unset, "", a), h);
      assert h.planName in env.spec;
    }
  }

  lemma SettledAfterValidation(env: Env, site: Site, order: seq<string>, a: Moment, b: Moment, ok: bool)
    requires Validates(env, order, a, b, ok) && Settled(env, site, a.stored)
    ensures Settled(env, site, b.stored)
  {
    forall q | q in env.spec ensures q in a.stored.plans && PlanOf(b.stored, q).lock && q in b.stored.plans {
      ValidationKeepsLocks(env, order, a, b, ok, q);
    }
    forall q | q !in env.spec ensures q !in b.stored.plans {
      assert q !in env.spec.Keys && q !in a.stored.plans.Keys && q !in order;
    }
    forall q | q in env.spec
      ensures b.stored.plans[q].hooks == a.stored.plans[q].hooks && PlanOf(b.stored, q).countScaleUp > 0
    {
      ValidationKeepsHooks(env, order, a, b, ok, q);
      assert q in a.stored.plans && q in b.stored.plans;
    }
    PostHooksByResults(env, site, a.stored.plans, b.stored.plans);
  }

  lemma SettledHooksRest(env: Env, event: HookEvent, site: Site, a: Moment, b: Moment, clean: bool)
    requires HooksRun(env, event, site, a, b, clean) && Settled(env, site, a.stored)
    ensures b.events == a.events && b.configs == a.configs && b.stored.plans == a.stored.plans
  {
    if event.PreRestore? {
      forall q | q in env.spec
        ensures q in a.stored.plans && a.stored.plans[q].lock
      {
        assert PlanOf(a.stored, q).lock;
      }
      LockedSkipsPreHooks(env, site, a.stored.plans);
    }
  }

  lemma SettledScalingRests(env: Env, site: Site, up: bool, a: Moment, b: Moment, ok: bool)
    requires Scales(env.spec, up, a, b, ok) && Settled(env, site, a.stored)
    ensures b.events == a.events && b.configs == a.configs && b.stored.plans == a.stored.plans
  {
    forall q | q in env.spec ensures q in a.stored.plans && SkipsScaling(a.stored.plans[q], up) {
      assert PlanOf(a.stored, q).lock && PlanOf(a.stored, q).countScaleUp > 0;
    }
  }

  lemma SettledRestoreRests(env: Env, site: Site, a: Moment, b: Moment, but: Option<Key>, ok: bool)
    requires Restores(env.spec, a, b, but, ok) && Settled(env, site, a.stored)
    ensures b.events == a.events && b.configs == a.configs && b.stored.plans == a.stored.plans
  {
    forall q | q in a.stored.plans ensures SkipsRestore(env.spec, q, a.stored.plans[q]) {
      assert q in env.spec.Keys;
      assert PlanOf(a.stored, q).lock;
    }
    forall e ensures e !in RestoreEvents(env.spec, a.stored) {
      RestoreEventsAreOfPlans(env.spec, a.stored, e);
    }
    GrewOrNot(a.events, b.events, RestoreEvents(env.spec, a.stored));
  }

  lemma GrewOrNot(e0: seq<Event>, e1: seq<Event>, allowed: set<Event>)
    requires GrewBy(e0, e1, allowed)
    ensures e1 == e0 || exists e :: e in allowed
  {
    if e1 != e0 { assert e1[|e0|] in allowed; }
  }

  /**
   From a settled status a pass writes nothing but the status, whether or not validation passes this
   time, and the status is settled afterwards.
   */
  lemma SettledPassWritesNothing(p: Pass)
    requires IsPass(p) && Settled(p.env, p.site, p.start.stored)
    ensures p.end.events == p.start.events && p.end.configs == p.start.configs
    ensures Settled(p.env, p.site, p.end.stored)
  {
    SettledAfterValidation(p.env, p.site, p.order, p.start, p.checked, p.reached >= 1);
    if p.reached >= 1 { SettledHooksRest(p.env, PreRestore, p.site, p.checked, p.prepared, false); }
    if p.reached >= 2 { SettledScalingRests(p.env, p.site, false, p.prepared, p.down, p.reached >= 3); }
    if p.reached >= 3 { SettledRestoreRests(p.env, p.site, p.down, p.restored, p.but, p.reached >= 4); }
    if p.reached >= 4 { SettledScalingRests(p.env, p.site, true, p.restored, p.up, p.reached >= 5); }
    if p.reached >= 5 { SettledHooksRest(p.env, PostRestore, p.site, p.up, p.served, p.clean && p.reached >= 7); }
  }

  /** A pass that completes without a lost write settles the status, if no two hooks are rivals
      and no plan is left over. */
  lemma CompletionSettles(p: Pass)
    requires IsPass(p) && p.reached >= 7 && p.clean && NoneRival(p.env, PostRestore, p.site)
    requires p.start.stored.plans.Keys <= p.env.spec.Keys
    ensures Settled(p.env, p.site, p.end.stored)
  {
    PlansAreThoseOfTheSpec(p);
    forall q | q in p.env.spec ensures PlanOf(p.end.stored, q).lock && PlanOf(p.end.stored, q).countScaleUp > 0 {
      CompletionMeansDone(p, q);
    }
    PostHooksAreDone(p);
  }

  /** The status is settled then exactly when no two hooks are rivals: what a user can check on
      the spec and the nodes. */
  lemma CompletionSettlesIff(p: Pass)
    requires IsPass(p) && p.reached >= 7 && p.clean && p.start.stored.plans.Keys <= p.env.spec.Keys
    ensures Settled(p.env, p.site, p.end.stored) <==> NoneRival(p.env, PostRestore, p.site)
  {
    if NoneRival(p.env, PostRestore, p.site) { CompletionSettles(p); }
    if Settled(p.env, p.site, p.end.stored) { DoneHooksHaveNoRivals(p.env, p.site, p.end.stored.plans); }
  }

  lemma DoneHooksHaveNoRivals(env: Env, site: Site, plans: map<string, PlanStatus>)
    requires HooksDone(env, PostRestore, site, plans)
    ensures NoneRival(env, PostRestore, site)
  {
    var st := Status(Unset, "", plans);
    forall g, h, id | FromSpec(env, PostRestore, g) && FromSpec(env, PostRestore, h)
      ensures !AreRivals(site, g, h, id)
    {
      ServedAreNoRivals(site, st, g, h, id);
    }
  }

  lemma ServedAreNoRivals(site: Site, st: Status, g: HookJob, h: HookJob, id: Key)
    requires JobServed(site, st, g) && JobServed(site, st, h)
    ensures !AreRivals(site, g, h, id)
  {
  }

  /** Of rivals one was not skipped: every pass that completes without a lost write launches their Job again. */
  lemma RivalsRunAgain(p: Pass, g: HookJob, h: HookJob, id: Key)
    requires IsPass(p) && p.reached >= 7 && p.clean
    requires FromSpec(p.env, PostRestore, g) && FromSpec(p.env, PostRestore, h) && AreRivals(p.site, g, h, id)
    ensures LaunchedSince(p.end.events, |p.start.events|, id)
  {
    LogPrefixes(p);
    HandledByHooks(p.env, PostRestore, p.site, p.up, p.served, g, id);
    HandledByHooks(p.env, PostRestore, p.site, p.up, p.served, h, id);
    RivalsAreNotBothSkipped(p.site, Status(Unset, "", p.up.stored.plans), g, h, id);
    assert p.served.events == p.end.events;
    LaunchedLonger(p.end.events, |p.up.events|, id, p.end.events, |p.start.events|);
  }

  lemma HandledByHooks(env: Env, event: HookEvent, site: Site, a: Moment, b: Moment, h: HookJob, id: Key)
    requires HooksRun(env, event, site, a, b, true) && FromSpec(env, event, h) && id in JobIds(site, h)
    ensures IdSkipped(Status(Unset, "", a.stored.plans), h, id) || LaunchedSince(b.events, |a.events|, id)
  {
    assert JobHandled(site, Point(Status(Unset, "", a.stored.plans), [], a.events, map[]), b.events, h);
  }

  lemma PlansAreThoseOfTheSpec(p: Pass)
    requires IsPass(p) && p.reached >= 1 && p.start.stored.plans.Keys <= p.env.spec.Keys
    ensures p.end.stored.plans.Keys == p.env.spec.Keys
  {
    forall q ensures q in p.end.stored.plans.Keys <==> q in p.env.spec.Keys {
      if q in p.env.spec {
        PlansAreListed(p, q);
      } else {
        assert q !in p.env.spec.Keys;
        OnlyPlansOfTheSpecAppear(p, q);
      }
    }
  }

  lemma PostHooksAreDone(p: Pass)
    requires IsPass(p) && p.reached >= 7 && p.clean && NoneRival(p.env, PostRestore, p.site)
    ensures HooksDone(p.env, PostRestore, p.site, p.end.stored.plans)
  {
    SettledByHooks(p.env, PostRestore, p.site, p.up, p.served);
    assert p.end.stored.plans == p.served.stored.plans;
  }

  lemma SettledByHooks(env: Env, event: HookEvent, site: Site, a: Moment, b: Moment)
    requires HooksRun(env, event, site, a, b, true) && NoneRival(env, event, site)
    ensures HooksDone(env, event, site, b.stored.plans)
  {
  }

  // ---------------------------------------------------------------- claims that are not there

  lemma RefersToSame(a: seq<TargetStatus>, b: seq<TargetStatus>, id: Key)
    requires SameTargets(a, b) && Refers(b, id)
    ensures Refers(a, id)
  {
    var t, ref :| t in b && ref in t.snapshotsRef && Key(t.namespace, ref.pvcName) == id;
    var i :| 0 <= i < |b| && b[i] == t;
    assert SameEntry(a[i], b[i]) && a[i] in a;
  }

  lemma EventNamesReference(spec: Spec, st: Status, e: Event)
    requires e in RestoreEvents(spec, st) && e.id != NAMELESS
    ensures e.plan in st.plans && Refers(st.plans[e.plan].clusters, e.id)
  {
    var q :| q in ToRestore(spec, st) && e in PlanEvents(q, st.plans[q].clusters);
    var t :| t in st.plans[q].clusters && e in TargetEvents(q, t);
    var ref :| ref in t.snapshotsRef && !ref.skipRestoringPVC && e in RefEvents(q, t.namespace, ref);
  }

  /**
   A claim that is not there when a pass begins is out of its sight: no reference recorded for a plan of
   the spec names it, nothing is done to it for such a plan, it is not created, and a pass that gets
   through the restore locks every plan nevertheless.
   */
  lemma LostClaimIsForgotten(p: Pass, id: Key)
    requires IsPass(p) && id !in p.start.claims && id != NAMELESS
    ensures id !in p.end.claims
    ensures p.reached >= 1 ==> forall q :: q in p.env.spec ==> !Refers(PlanOf(p.checked.stored, q).clusters, id)
    ensures forall i ::
      |p.start.events| <= i < |p.end.events| && OnClaims(p.end.events[i]) && p.end.events[i].id == id ==>
        p.end.events[i].plan !in p.env.spec
    ensures p.reached >= 4 ==> forall q :: q in p.env.spec ==> PlanOf(p.end.stored, q).lock
  {
    ClaimsChangeInTheRestore(p);
    forall i | |p.start.events| <= i < |p.end.events| && OnClaims(p.end.events[i]) && p.end.events[i].id == id
      ensures p.end.events[i].plan !in p.env.spec
    {
      NotTouchedForSpec(p, id, i);
    }
    if p.reached >= 4 {
      forall q | q in p.env.spec ensures PlanOf(p.end.stored, q).lock {
        RestoreLocksAll(p, q);
        LocksStayClosed(p, q);
      }
    }
  }

  lemma NotTouchedForSpec(p: Pass, id: Key, i: nat)
    requires IsPass(p) && id !in p.start.claims && id != NAMELESS
    requires |p.start.events| <= i < |p.end.events| && OnClaims(p.end.events[i]) && p.end.events[i].id == id
    ensures p.end.events[i].plan !in p.env.spec
  {
    ClaimEventsAreOfTheRestore(p, i);
    var e := p.end.events[i];
    EventNamesReference(p.env.spec, p.down.stored, e);
    SameTargetsBeforeRestore(p, e.plan);
    RefersToSame(PlanOf(p.checked.stored, e.plan).clusters, p.down.stored.plans[e.plan].clusters, id);
  }

  // ---------------------------------------------------------------- positions and claims

  /** Whenever targets are scaled or restored by position, the status lists those of the spec in their order. */
  lemma TargetsStayInStep(p: Pass)
    requires IsPass(p) && p.reached >= 1
    ensures AllAligned(p.env.spec, p.checked.stored) && AllAligned(p.env.spec, p.prepared.stored)
    ensures AllAligned(p.env.spec, p.down.stored) && AllAligned(p.env.spec, p.restored.stored)
      && AllAligned(p.env.spec, p.up.stored)
  {
    HooksKeepAlignment(p.env, PreRestore, p.site, p.checked, p.prepared, false);
    if p.reached >= 2 { ScalesKeepAlignment(p.env.spec, false, p.prepared, p.down, p.reached >= 3); }
    if p.reached >= 3 { RestoresKeepAlignment(p.env.spec, p.down, p.restored, p.but, p.reached >= 4); }
    if p.reached >= 4 { ScalesKeepAlignment(p.env.spec, true, p.restored, p.up, p.reached >= 5); }
  }

  /** Only the restore changes claims, so what it does to them the whole pass does. */
  lemma ClaimsChangeInTheRestore(p: Pass)
    requires IsPass(p)
    ensures SameClaims(p.start, p.down) && SameClaims(p.restored, p.end)
    ensures p.reached < 3 ==> SameClaims(p.start, p.end)
  {
  }
}
