/**
 A run that loses a claim, write by write and call by call as the operator makes them. The plan has one
 StatefulSet with two claims. The first pass deletes the one claim, and the server refuses to create it
 again; the second pass restores the other claim, locks the plan, and completes.
 */
module LossExample {
  import opened Api
  import opened Calendar
  import opened Claims
  import opened Controller
  import opened HookEngine
  import opened Hooks
  import opened Kube
  import opened Locks
  import opened Losses
  import opened Passes
  import opened Restore
  import opened Runs
  import opened Scale
  import opened StatusManager
  import opened Validate

  /**
   The plan `q` for the set `t`, which has `had` replicas and the claims `lost` and `kept`, with their
   snapshots. `refusal` is the answer to the creation of `lost`, `pv` the volume that `kept` is given.
   */
  datatype Scene = Scene(
    env: Env, site: Site, q: string, t: Target, time: string, had: int,
    lost: Claim, lostSnap: VolumeSnapshot, kept: Claim, keptSnap: VolumeSnapshot,
    refusal: string, pv: ObjectName, uid: nat)
  {
    function Plan(): RestorePlan { RestorePlan([t], [], map[], time) }

    predicate Valid() {
      && env.spec == map[q := Plan()] && q != "" && ValidStamp(time)
      && t.skipWaitScaleDown && t.skipWaitScaleUp && !t.parallelPodManagement && t.replicas > 0 && had > 0
      && lost.meta.name != kept.meta.name && HasSnapshot(lost, lostSnap) && HasSnapshot(kept, keptSnap)
    }

    predicate HasSnapshot(claim: Claim, snap: VolumeSnapshot) {
      && claim.meta.namespace == t.namespace && claim.meta.name != "" && !claim.terminating
      && claim.meta.name !in t.skipRestoringPVCs && Matches(claim, snap, q, time) && IsReady(snap)
      && t.claimSelector.Some? && site.selects(t.claimSelector.value, claim.meta.labels)
    }

    function LostKey(): Key { lost.meta.Id() }

    function KeptKey(): Key { kept.meta.Id() }

    function LostRef(): SnapshotRef { RefFor(lost, lostSnap, t) }

    function KeptRef(): SnapshotRef { RefFor(kept, keptSnap, t) }

    /** The entry of the set. */
    function Entry(refs: seq<SnapshotRef>, current: int, phase: Phase, error: string): TargetStatus {
      TargetStatus(t.name, t.namespace, t.kind, refs, OrderedReady, t.replicas, current, phase, error)
    }

    /** The entry of the plan. */
    function Shown(lock: bool, count: int, entry: TargetStatus): PlanStatus
    {
      PlanStatus(time, lock, count, [entry], [], [])
    }

    function At(phase: Phase, p: PlanStatus): Status { Status(phase, q, map[q := p]) }

    // ---- what is stored and done

    function Both(): seq<SnapshotRef> { [LostRef(), KeptRef()] }

    function Found(): PlanStatus { Shown(false, 0, Entry(Both(), had, Validated, "")) }

    function Down(refs: seq<SnapshotRef>): PlanStatus { Shown(false, 0, Entry(refs, 0, ScaledDown, "")) }

    function Refused(): PlanStatus { Shown(false, 0, Entry(Both(), 0, Failed, refusal)) }

    function FoundAgain(): PlanStatus { Shown(false, 0, Entry([KeptRef()], 0, Validated, "")) }

    function Locked(): PlanStatus { Shown(true, 0, Entry([KeptRef()], 0, Phase.Restored, "")) }

    function Up(): PlanStatus { Shown(true, 1, Entry([KeptRef()], t.replicas, Completed, "")) }

    function FirstWrites(): seq<Status> { FirstChecks() + DownWrites(Found(), Both()) + FailureWrites() }

    function FirstChecks(): seq<Status> {
      [Status(Idle, "", map[]), Status(Validating, "", map[]),
       Status(Validating, "", map[q := Found()]), At(Validating, Found())]
    }

    function DownWrites(found: PlanStatus, refs: seq<SnapshotRef>): seq<Status> {
      [At(ScalingDown, found), At(ScalingDown, Down(refs))]
    }

    function FailureWrites(): seq<Status> {
      [At(Phase.Restoring, Down(Both())), At(Phase.Restoring, Refused()), At(Failed, Refused())]
    }

    function FirstEvents(): seq<Event> { [] + FirstDown() + DeletedOnly() }

    function FirstDown(): seq<Event> { [SetReplicas(OfStatefulSet, t.Id(), 0), AtZero(OfStatefulSet, t.Id())] }

    function DeletedOnly(): seq<Event> { [ClaimDeleted(q, LostKey(), true), ClaimCreated(q, LostKey(), false)] }

    function SecondWrites(): seq<Status> {
      SecondChecks() + DownWrites(FoundAgain(), [KeptRef()]) + LockWrites() + UpWrites() + [At(Completed, Up())]
    }

    function SecondChecks(): seq<Status>
    {
      [At(Idle, Refused()), At(Validating, Refused()), At(Validating, FoundAgain())]
    }

    function LockWrites(): seq<Status> { [At(Phase.Restoring, Down([KeptRef()])), At(Phase.Restoring, Locked())] }

    function UpWrites(): seq<Status> { [At(ScalingUp, Locked()), At(ScalingUp, Up())] }

    function SecondEvents(): seq<Event> { [] + SecondDown() + RestoreSteps() + UpEvents() + [] }

    function SecondDown(): seq<Event> { [AtZero(OfStatefulSet, t.Id())] }

    function UpEvents(): seq<Event> {
      [SetReplicas(OfStatefulSet, t.Id(), t.replicas), AtLeast(OfStatefulSet, t.Id(), t.replicas)]
    }

    function RestoreSteps(): seq<Event> {
      [ClaimDeleted(q, KeptKey(), true), ClaimCreated(q, KeptKey(), true), ClaimPatched(q, KeptKey()), Report()]
    }

    function Report(): Event { ClaimRestored(q, KeptKey(), KeptRef().snapshotName, KeptRef().pvcStorageClass) }

    /** The claim created from the copy, pinned to its volume and bound. */
    function Bound(): Claim {
      Claim(Meta(kept.meta.namespace, kept.meta.name, kept.meta.labels, kept.meta.annotations,
                 "", uid, [], 0, [], [], 0),
            kept.accessModes, KeptRef().pvcStorageClass, kept.resources, kept.volumeMode, Some(KeptRef().snapshotName),
            pv, true, false)
    }

    /** The claims before the first pass, between the passes, and after the second. */
    function Claims0(): map<Key, Claim> { map[LostKey() := lost, KeptKey() := kept] }

    function Claims1(): map<Key, Claim> { map[KeptKey() := kept] }

    function Claims2(): map<Key, Claim> { map[KeptKey() := Bound()] }
  }

  // ---------------------------------------------------------------- stretches of a pass

  /** From `a` to `b` these values were stored, and these events logged. */
  predicate Went(a: Moment, b: Moment, writes: seq<Status>, events: seq<Event>) {
    && b.history == a.history + writes && b.events == a.events + events
    && b.stored == (if writes == [] then a.stored else writes[|writes| - 1])
  }

  function Stores(m: Moment, s: Status): Moment { m.(stored := s, history := m.history + [s]) }

  function Logs(m: Moment, es: seq<Event>): Moment { m.(events := m.events + es) }

  lemma OnlyPlan(sc: Scene)
    requires sc.Valid()
    ensures sc.env.spec.Keys == {sc.q} && Enumerates([sc.q], sc.env.spec.Keys)
  {
  }

  /** A write of the plan by a legal step. */
  lemma WriteMovesPlan(sc: Scene, a: Moment, s: Status)
    requires s.plans.Keys == {sc.q} && a.stored.plans.Keys <= {sc.q}
    requires Staged(PlanOf(s, sc.q)) && StatusManager.PlanStep(PlanOf(a.stored, sc.q), PlanOf(s, sc.q))
    ensures MovesNoPlan(a.history, a.stored, a.history + [s], s)
  {
    forall plans | Orderly(a.history, a.stored, plans) ensures Orderly(a.history + [s], s, plans) {
      forall p | p in plans ensures Staged(PlanOf(s, p)) && StatusManager.PlanStep(PlanOf(a.stored, p), PlanOf(s, p)) {
        if p != sc.q { assert p !in s.plans.Keys && p !in a.stored.plans.Keys; }
      }
      StaysOrderly(a.history, a.stored, a.history + [s], s, plans);
    }
  }

  lemma FieldMovesNoPlan(a: Moment, s: Status)
    requires s.plans == a.stored.plans
    ensures MovesNoPlan(a.history, a.stored, a.history + [s], s)
  {
    FieldWriteKeepsOrder(a.history, a.stored, a.history + [s], s);
  }

  lemma PhaseIsAnnounced(a: Moment, phase: Phase)
    ensures Announced(a, Stores(a, a.stored.(phase := phase)), phase == Completed)
  {
    FieldMovesNoPlan(a, a.stored.(phase := phase));
  }

  /** The first two writes of a pass. */
  lemma Begins(a: Moment) returns (b: Moment)
    ensures Announced(a, b, false) && b.stored == a.stored.(phase := Validating) && b.claims == a.claims
    ensures Went(a, b, [a.stored.(phase := Idle), a.stored.(phase := Validating)], [])
  {
    var idle := Stores(a, a.stored.(phase := Idle));
    PhaseIsAnnounced(a, Idle);
    PhaseIsAnnounced(idle, Validating);
    b := Stores(idle, a.stored.(phase := Validating));
    AnnouncedTwice(a, idle, b);
  }

  /** What validation records in one write. */
  lemma Validates1(sc: Scene, a: Moment, p: PlanStatus, refs: seq<SnapshotRef>)
    requires sc.Valid() && a.stored.plans.Keys <= {sc.q} && a.stored.phase == Validating
    requires PlanOf(a.stored, sc.q).countScaleUp == 0 && PlanOf(a.stored, sc.q).hooks == []
      && !PlanOf(a.stored, sc.q).lock
    requires exists current :: p == sc.Shown(false, 0, sc.Entry(refs, current, Validated, ""))
    requires forall ref :: ref in refs ==> Key(sc.t.namespace, ref.pvcName) in a.claims
    ensures Validates(sc.env, [sc.q], a, Stores(a, a.stored.(plans := map[sc.q := p])), true)
  {
    var s := a.stored.(plans := map[sc.q := p]);
    OnlyPlan(sc);
    WriteMovesPlan(sc, a, s);
    assert PlanRevalidated(PlanOf(a.stored, sc.q), PlanOf(s, sc.q), LockAfter(a.stored, [sc.q], 1));
    forall x | x !in [sc.q] ensures PlanOf(s, x) == PlanOf(a.stored, x) && (x in s.plans ==> x in a.stored.plans) {
      assert x !in s.plans.Keys && x !in a.stored.plans.Keys;
    }
    forall x, id | x in sc.env.spec && Refers(PlanOf(s, x).clusters, id) ensures id in a.claims {
      assert x in sc.env.spec.Keys;
    }
  }

  /** The plan that passed becomes the active one. */
  lemma ThenActive(sc: Scene, a: Moment, b: Moment)
    requires Validates(sc.env, [sc.q], a, b, true)
    ensures Validates(sc.env, [sc.q], a, Stores(b, b.stored.(activePlan := sc.q)), true)
  {
    var s := b.stored.(activePlan := sc.q);
    FieldMovesNoPlan(b, s);
    NoPlanTransitively(a.history, a.stored, b.history, b.stored, b.history + [s], s);
    QuietSinceTransitively(a.history, b.history, b.history + [s]);
    assert forall x :: PlanOf(s, x) == PlanOf(b.stored, x);
  }

  lemma NoHooks(sc: Scene, event: HookEvent, m: Moment)
    requires sc.Valid()
    ensures HooksRun(sc.env, event, sc.site, m, m, true) && HooksRun(sc.env, event, sc.site, m, m, false)
  {
    assert Lists(sc.env, event, [], []);
    NoHooksListed(sc.env, event, sc.site, [], m);
    NoHooksRun(sc.env, event, sc.site, m);
  }

  // ---------------------------------------------------------------- scaling

  lemma ShownDown(sc: Scene, events: seq<Event>, es: seq<Event>)
    requires sc.Valid() && es in {sc.FirstDown(), sc.SecondDown()}
    ensures PlanDown(events + es, |events|, |events + es|, sc.Plan()) && GrewByScaling(events, events + es)
  {
    var lo, hi := |events|, |events + es|;
    DownShown(events, es, OfStatefulSet, sc.t);
    assert DownAround(events + es, lo, lo, hi, sc.Plan());
  }

  /** Scaling down after its announcement. */
  lemma ScalesDown(sc: Scene, a: Moment, es: seq<Event>, refs: seq<SnapshotRef>, current: int)
    requires sc.Valid() && a.stored == sc.At(ScalingDown, sc.Shown(false, 0, sc.Entry(refs, current, Validated, "")))
    requires es in {sc.FirstDown(), sc.SecondDown()}
    ensures Scales(sc.env.spec, false, a, Stores(Logs(a, es), sc.At(ScalingDown, sc.Down(refs))), true)
  {
    ShownDown(sc, a.events, es);
    WriteMovesPlan(sc, a, sc.At(ScalingDown, sc.Down(refs)));
    SpecHasOnlyPlan(sc);
  }

  lemma SpecHasOnlyPlan(sc: Scene)
    requires sc.Valid()
    ensures forall p :: p in sc.env.spec ==> p == sc.q
  {
    OnlyPlan(sc);
    forall p | p in sc.env.spec ensures p == sc.q { assert p in sc.env.spec.Keys; }
  }

  lemma ShownUp(sc: Scene, events: seq<Event>)
    requires sc.Valid()
    ensures var es := sc.UpEvents();
      PlanUp(events + es, |events|, |events + es|, sc.Plan()) && GrewByScaling(events, events + es)
  {
    var es := sc.UpEvents();
    var lo, hi := |events|, |events + es|;
    UpShown(events, es, OfStatefulSet, sc.t);
    assert UpAround(events + es, lo, hi, hi, sc.Plan());
  }

  /** Scaling up after its announcement. */
  lemma ScalesUp(sc: Scene, a: Moment)
    requires sc.Valid() && a.stored == sc.At(ScalingUp, sc.Locked())
    ensures var es := sc.UpEvents();
      Scales(sc.env.spec, true, a, Stores(Logs(a, es), sc.At(ScalingUp, sc.Up())), true)
  {
    ShownUp(sc, a.events);
    WriteMovesPlan(sc, a, sc.At(ScalingUp, sc.Up()));
    SpecHasOnlyPlan(sc);
  }

  // ---------------------------------------------------------------- the restore that fails

  lemma EventOfReference(spec: Spec, st: Status, p: string, t: TargetStatus, ref: SnapshotRef, e: Event)
    requires IsToRestore(spec, st, p, t, ref) && e in RefEvents(p, t.namespace, ref)
    ensures e in RestoreEvents(spec, st)
  {
    assert e in TargetEvents(p, t);
    assert e in PlanEvents(p, st.plans[p].clusters);
  }

  lemma EventsOfReference(sc: Scene, st: Status, refs: seq<SnapshotRef>, ref: SnapshotRef, events: seq<Event>,
          es: seq<Event>)
    requires sc.Valid() && st == sc.At(Phase.Restoring, sc.Down(refs)) && ref in refs && !ref.skipRestoringPVC
    requires forall e :: e in es ==> e in RefEvents(sc.q, sc.t.namespace, ref)
    ensures GrewBy(events, events + es, RestoreEvents(sc.env.spec, st))
  {
    var t := st.plans[sc.q].clusters[0];
    forall e | e in es ensures e in RestoreEvents(sc.env.spec, st) {
      EventOfReference(sc.env.spec, st, sc.q, t, ref, e);
    }
    forall i | |events| <= i < |events + es| ensures (events + es)[i] in RestoreEvents(sc.env.spec, st) {
      assert (events + es)[i] == es[i - |events|];
    }
  }

  /** The restore after its announcement: the first claim is deleted, waited for, and not created; the plan fails. */
  function Failing(sc: Scene, a: Moment): Moment {
    var gone := {sc.KeptKey()};
    Stores(Stores(Logs(a, sc.DeletedOnly()), sc.At(Phase.Restoring, sc.Refused())), sc.At(Failed, sc.Refused()))
      .(claims := sc.Claims1(), live := a.live + [gone, gone, gone])
  }

  lemma ClaimsWhileFailing(sc: Scene)
    requires sc.Valid()
    ensures FollowsLog(sc.Claims0(), sc.Claims1(), sc.DeletedOnly(), Some(sc.LostKey()))
    ensures Accounted(sc.Claims0(), sc.Claims1(), sc.DeletedOnly())
  {
    EffectOfTouches([], sc.DeletedOnly(), sc.KeptKey(), View(sc.kept));
    assert [] + sc.DeletedOnly() == sc.DeletedOnly();
    forall k ensures LiveIn(sc.Claims1(), k) == LiveAfter(sc.DeletedOnly(), k, LiveIn(sc.Claims0(), k)) {
      DeletionAlone(sc.q, sc.LostKey(), k, LiveIn(sc.Claims0(), k));
    }
  }

  lemma DeletionAlone(q: string, lost: Key, k: Key, live: bool)
    ensures LiveAfter([ClaimDeleted(q, lost, true), ClaimCreated(q, lost, false)], k, live) == (live && k != lost)
  {
    var deleted, refused := ClaimDeleted(q, lost, true), ClaimCreated(q, lost, false);
    LiveAfterOne([deleted], refused, k, live);
    LiveAfterOne([], deleted, k, live);
    assert [deleted, refused] == [deleted] + [refused] && [deleted] == [] + [deleted];
  }

  lemma RestoreFails(sc: Scene, a: Moment)
    requires sc.Valid() && a.stored == sc.At(Phase.Restoring, sc.Down(sc.Both())) && a.claims == sc.Claims0()
    ensures Restores(sc.env.spec, a, Failing(sc, a), Some(sc.LostKey()), false)
  {
    ClaimsFail(sc, a);
    PlanFails(sc, a);
    FailureIsInOrder(sc, a);
  }

  lemma ClaimsFail(sc: Scene, a: Moment)
    requires sc.Valid() && a.claims == sc.Claims0()
    ensures var b := Failing(sc, a);
      Restore.Restoring(a.claims, a.events, a.live, b.claims, b.events, b.live, Some(sc.LostKey()))
  {
    var b := Failing(sc, a);
    assert b.events[|a.events|..] == sc.DeletedOnly();
    ClaimsWhileFailing(sc);
    MomentsWhileFailing(sc, a);
  }

  lemma PlanFails(sc: Scene, a: Moment)
    requires sc.Valid() && a.stored == sc.At(Phase.Restoring, sc.Down(sc.Both()))
    ensures var b := Failing(sc, a); PlansRestored(sc.env.spec, a.events, a.stored, b.events, b.stored)
  {
    EventsOfReference(sc, a.stored, sc.Both(), sc.LostRef(), a.events, sc.DeletedOnly());
  }

  lemma MomentsWhileFailing(sc: Scene, a: Moment)
    requires sc.Valid() && a.claims == sc.Claims0()
    ensures Conserved(Live(a.claims), Failing(sc, a).live, |a.live|)
  {
    assert Live(a.claims) - {sc.LostKey()} <= {sc.KeptKey()};
  }

  lemma FailureIsInOrder(sc: Scene, a: Moment)
    requires sc.Valid() && a.stored == sc.At(Phase.Restoring, sc.Down(sc.Both()))
    ensures var b := Failing(sc, a); RestoresInOrder(sc.env.spec, a.history, a.stored, b.history, b.stored)
  {
    var mid := Stores(a, sc.At(Phase.Restoring, sc.Refused()));
    WriteMovesPlan(sc, a, mid.stored);
    FieldMovesNoPlan(mid, sc.At(Failed, sc.Refused()));
    NoPlanTransitively(a.history, a.stored, mid.history, mid.stored, mid.history + [sc.At(Failed, sc.Refused())],
      sc.At(Failed, sc.Refused()));
  }

  // ---------------------------------------------------------------- the restore that goes through

  /** The other claim is deleted, created, pinned and bound, and the plan locked. */
  function Restoration(sc: Scene, a: Moment): Moment {
    var there := {sc.KeptKey()};
    Stores(Logs(a, sc.RestoreSteps()), sc.At(Phase.Restoring, sc.Locked()))
      .(claims := sc.Claims2(), live := a.live + [{}, {}, there, there, there])
  }

  lemma RestoreGoesThrough(sc: Scene, a: Moment)
    requires sc.Valid() && a.stored == sc.At(Phase.Restoring, sc.Down([sc.KeptRef()])) && a.claims == sc.Claims1()
    ensures Restores(sc.env.spec, a, Restoration(sc, a), None, true)
  {
    ClaimsFollow(sc, a);
    PlanIsRestored(sc, a);
    LockIsInOrder(sc, a);
  }

  lemma LockIsInOrder(sc: Scene, a: Moment)
    requires sc.Valid() && a.stored == sc.At(Phase.Restoring, sc.Down([sc.KeptRef()]))
    ensures var b := Restoration(sc, a); RestoresInOrder(sc.env.spec, a.history, a.stored, b.history, b.stored)
  {
    WriteMovesPlan(sc, a, sc.At(Phase.Restoring, sc.Locked()));
  }

  lemma ClaimsFollow(sc: Scene, a: Moment)
    requires sc.Valid() && a.claims == sc.Claims1()
    ensures var b := Restoration(sc, a); Restore.Restoring(a.claims, a.events, a.live, b.claims, b.events, b.live, None)
  {
    var b := Restoration(sc, a);
    assert b.events[|a.events|..] == sc.RestoreSteps();
    StepsFollow(sc);
    StepsAccount(sc);
    forall i | |a.live| <= i < |b.live| ensures AtMostOneMissing(Live(a.claims), b.live[i]) {
      assert Live(a.claims) - {sc.KeptKey()} <= b.live[i];
    }
  }

  lemma StepsFollow(sc: Scene)
    requires sc.Valid()
    ensures FollowsLog(sc.Claims1(), sc.Claims2(), sc.RestoreSteps(), None)
  {
    var touches := sc.RestoreSteps()[..3];
    assert sc.RestoreSteps() == touches + [sc.Report()] && touches == [] + touches;
    EffectOfTouches([], touches, sc.KeptKey(), View(sc.kept));
    EffectOfOne(touches, sc.Report(), sc.KeptKey(), View(sc.kept));
    forall k | ReportedIn(sc.RestoreSteps(), k) ensures k == sc.KeptKey() {
    }
  }

  lemma StepsAccount(sc: Scene)
    requires sc.Valid()
    ensures Accounted(sc.Claims1(), sc.Claims2(), sc.RestoreSteps())
  {
    var created := [ClaimDeleted(sc.q, sc.KeptKey(), true), ClaimCreated(sc.q, sc.KeptKey(), true)];
    var rest := [ClaimPatched(sc.q, sc.KeptKey()), sc.Report()];
    assert sc.RestoreSteps() == created + rest;
    assert created == [ClaimDeleted(sc.q, sc.KeptKey(), true)] + [ClaimCreated(sc.q, sc.KeptKey(), true)];
    forall k ensures LiveAfter(sc.RestoreSteps(), k, LiveIn(sc.Claims1(), k)) == (k == sc.KeptKey()) {
      var live := LiveIn(sc.Claims1(), k);
      LiveAfterBoth(created, rest, k, live);
      LiveAfterOthers(rest, k, LiveAfter(created, k, live));
      if k == sc.KeptKey() {
        LiveAfterOne([ClaimDeleted(sc.q, k, true)], ClaimCreated(sc.q, k, true), k, live);
      } else {
        LiveAfterOthers(created, k, live);
      }
    }
  }

  lemma PlanIsRestored(sc: Scene, a: Moment)
    requires sc.Valid() && a.stored == sc.At(Phase.Restoring, sc.Down([sc.KeptRef()]))
    ensures var b := Restoration(sc, a);
      PlansRestored(sc.env.spec, a.events, a.stored, b.events, b.stored) && AllRestored(sc.env.spec, a, b)
  {
    EventsOfReference(sc, a.stored, [sc.KeptRef()], sc.KeptRef(), a.events, sc.RestoreSteps());
    StepsReport(sc, a.events, a.stored.plans[sc.q].clusters);
  }

  lemma StepsReport(sc: Scene, events: seq<Event>, ts: seq<TargetStatus>)
    requires sc.Valid() && |ts| == 1 && ts[0].snapshotsRef == [sc.KeptRef()] && ts[0].namespace == sc.t.namespace
    ensures AllReported(events + sc.RestoreSteps(), |events|, sc.q, ts)
  {
    assert (events + sc.RestoreSteps())[|events| + 3] == sc.Report();
    assert Reported(events + sc.RestoreSteps(), |events|, sc.q, sc.t.namespace, sc.KeptRef());
  }

  // ---------------------------------------------------------------- the stages with their announcements

  lemma ScalesDownAnnounced(sc: Scene, a: Moment, es: seq<Event>, refs: seq<SnapshotRef>, current: int)
    returns (b: Moment)
    requires sc.Valid() && es in {sc.FirstDown(), sc.SecondDown()}
    requires a.stored == sc.At(Validating, sc.Shown(false, 0, sc.Entry(refs, current, Validated, "")))
    ensures Scales(sc.env.spec, false, a, b, true)
    ensures b.claims == a.claims && b.stored == sc.At(ScalingDown, sc.Down(refs))
    ensures Went(a, b, sc.DownWrites(sc.Shown(false, 0, sc.Entry(refs, current, Validated, "")), refs), es)
  {
    var mid := Stores(a, a.stored.(phase := ScalingDown));
    PhaseIsAnnounced(a, ScalingDown);
    ScalesDown(sc, mid, es, refs, current);
    b := Stores(Logs(mid, es), sc.At(ScalingDown, sc.Down(refs)));
    ScalesFrom(sc.env.spec, false, a, mid, b, true);
  }

  lemma ScalesUpAnnounced(sc: Scene, a: Moment) returns (b: Moment)
    requires sc.Valid() && a.stored == sc.At(Phase.Restoring, sc.Locked())
    ensures Scales(sc.env.spec, true, a, b, true)
    ensures b.claims == a.claims && b.stored == sc.At(ScalingUp, sc.Up()) && Went(a, b, sc.UpWrites(), sc.UpEvents())
  {
    var mid := Stores(a, a.stored.(phase := ScalingUp));
    PhaseIsAnnounced(a, ScalingUp);
    ScalesUp(sc, mid);
    b := Stores(Logs(mid, sc.UpEvents()), sc.At(ScalingUp, sc.Up()));
    ScalesFrom(sc.env.spec, true, a, mid, b, true);
  }

  lemma RestoreFailsAnnounced(sc: Scene, a: Moment) returns (b: Moment)
    requires sc.Valid() && a.stored == sc.At(ScalingDown, sc.Down(sc.Both())) && a.claims == sc.Claims0()
    ensures Restores(sc.env.spec, a, b, Some(sc.LostKey()), false)
    ensures b.claims == sc.Claims1() && b.stored == sc.At(Failed, sc.Refused())
    ensures Went(a, b, sc.FailureWrites(), sc.DeletedOnly())
  {
    var mid := Stores(a, a.stored.(phase := Phase.Restoring));
    PhaseIsAnnounced(a, Phase.Restoring);
    RestoreFails(sc, mid);
    b := Failing(sc, mid);
    RestoresFrom(sc.env.spec, a, mid, b, Some(sc.LostKey()), false);
  }

  lemma RestoreAnnounced(sc: Scene, a: Moment) returns (b: Moment)
    requires sc.Valid() && a.stored == sc.At(ScalingDown, sc.Down([sc.KeptRef()])) && a.claims == sc.Claims1()
    ensures Restores(sc.env.spec, a, b, None, true)
    ensures b.claims == sc.Claims2() && b.stored == sc.At(Phase.Restoring, sc.Locked())
    ensures Went(a, b, sc.LockWrites(), sc.RestoreSteps())
  {
    var mid := Stores(a, a.stored.(phase := Phase.Restoring));
    PhaseIsAnnounced(a, Phase.Restoring);
    RestoreGoesThrough(sc, mid);
    b := Restoration(sc, mid);
    RestoresFrom(sc.env.spec, a, mid, b, None, true);
  }

  /** Validation of a new resource. */
  lemma FirstValidation(sc: Scene, a: Moment) returns (b: Moment)
    requires sc.Valid() && New(a) && a.claims == sc.Claims0()
    ensures Validates(sc.env, [sc.q], a, b, true)
    ensures b.claims == a.claims && b.stored == sc.At(Validating, sc.Found()) && Went(a, b, sc.FirstChecks(), [])
  {
    var begun := Begins(a);
    b := FoundFirst(sc, begun);
    ValidatesFrom(sc.env, [sc.q], a, begun, b, true);
  }

  lemma FoundFirst(sc: Scene, a: Moment) returns (b: Moment)
    requires sc.Valid() && a.stored == Status(Validating, "", map[]) && a.claims == sc.Claims0()
    ensures Validates(sc.env, [sc.q], a, b, true) && b.claims == a.claims
    ensures Went(a, b, [Status(Validating, "", map[sc.q := sc.Found()]), sc.At(Validating, sc.Found())], [])
  {
    Validates1(sc, a, sc.Found(), sc.Both());
    var found := Stores(a, a.stored.(plans := map[sc.q := sc.Found()]));
    ThenActive(sc, a, found);
    b := Stores(found, found.stored.(activePlan := sc.q));
  }

  /** Validation after the failure. */
  lemma SecondValidation(sc: Scene, a: Moment) returns (b: Moment)
    requires sc.Valid() && a.stored == sc.At(Failed, sc.Refused()) && a.claims == sc.Claims1()
    ensures Validates(sc.env, [sc.q], a, b, true)
    ensures b.claims == a.claims && b.stored == sc.At(Validating, sc.FoundAgain()) && Went(a, b, sc.SecondChecks(), [])
  {
    var begun := Begins(a);
    Validates1(sc, begun, sc.FoundAgain(), [sc.KeptRef()]);
    b := Stores(begun, begun.stored.(plans := map[sc.q := sc.FoundAgain()]));
    ValidatesFrom(sc.env, [sc.q], a, begun, b, true);
  }

  /** What the passes record is as asked. */
  lemma FoundAsAsked(sc: Scene, st: Status, claims: map<Key, Claim>, refs: seq<SnapshotRef>)
    requires sc.Valid() && refs in {sc.Both(), [sc.KeptRef()]}
    requires exists current :: PlanOf(st, sc.q) == sc.Shown(false, 0, sc.Entry(refs, current, Validated, ""))
    requires sc.KeptKey() in claims && claims[sc.KeptKey()] == sc.kept
    requires sc.LostRef() in refs ==> sc.LostKey() in claims && claims[sc.LostKey()] == sc.lost
    ensures RefsAsAsked(sc.env.spec, st, claims, sc.site.selects)
  {
    SpecHasOnlyPlan(sc);
    MatchesIff(sc.lost, sc.lostSnap, sc.q, sc.time);
    MatchesIff(sc.kept, sc.keptSnap, sc.q, sc.time);
    forall x, i, ref | x in sc.env.spec && 0 <= i < |sc.env.spec[x].clusters| && IsRefOf(st, x, i, ref)
      ensures IsAsAsked(x, PlanOf(st, x).snapshotRestoreTime, sc.env.spec[x].clusters[i], claims, sc.site.selects, ref)
    {
      assert x == sc.q && i == 0 && ref in refs;
    }
  }

  // ---------------------------------------------------------------- the run

  lemma CutOffPass(env: Env, site: Site, order: seq<string>, but: Option<Key>,
                   start: Moment, checked: Moment, down: Moment, end: Moment) returns (p: Pass)
    requires Validates(env, order, start, checked, true) && HooksRun(env, PreRestore, site, checked, checked, false)
    requires RefsAsAsked(env.spec, checked.stored, start.claims, site.selects)
    requires Scales(env.spec, false, checked, down, true) && Restores(env.spec, down, end, but, false)
    ensures IsPass(p) && p.env == env && p.start == start && p.checked == checked && p.end == end
  {
    p := Pass(env, site, order, but, 3, false, start, checked, checked, down, end, end, end, end);
  }

  lemma WholePass(env: Env, site: Site, order: seq<string>, start: Moment, checked: Moment, down: Moment,
          restored: Moment, up: Moment, end: Moment)
    returns (p: Pass)
    requires Validates(env, order, start, checked, true) && HooksRun(env, PreRestore, site, checked, checked, false)
    requires RefsAsAsked(env.spec, checked.stored, start.claims, site.selects)
    requires Scales(env.spec, false, checked, down, true) && Restores(env.spec, down, restored, None, true)
    requires Scales(env.spec, true, restored, up, true) && HooksRun(env, PostRestore, site, up, up, true)
    requires Announced(up, end, true) && end.stored.phase == Completed
    ensures IsPass(p) && p.env == env && p.start == start && p.end == end
  {
    p := Pass(env, site, order, None, 7, true, start, checked, checked, down, restored, up, up, end);
  }

  /** The first pass. */
  lemma FirstPass(sc: Scene, start: Moment) returns (p: Pass)
    requires sc.Valid() && New(start) && start.claims == sc.Claims0()
    ensures IsPass(p) && p.env == sc.env && p.start == start && PlanOf(p.checked.stored, sc.q) == sc.Found()
    ensures p.end.claims == sc.Claims1() && p.end.stored == sc.At(Failed, sc.Refused())
    ensures Went(start, p.end, sc.FirstWrites(), sc.FirstEvents())
  {
    var checked := FirstValidation(sc, start);
    NoHooks(sc, PreRestore, checked);
    FoundAsAsked(sc, checked.stored, start.claims, sc.Both());
    var down := ScalesDownAnnounced(sc, checked, sc.FirstDown(), sc.Both(), sc.had);
    var end := RestoreFailsAnnounced(sc, down);
    p := CutOffPass(sc.env, sc.site, [sc.q], Some(sc.LostKey()), start, checked, down, end);
    WentOn(start, checked, down, sc.FirstChecks(), [], sc.DownWrites(sc.Found(), sc.Both()), sc.FirstDown());
    WentOn(start, down, end, sc.FirstChecks() + sc.DownWrites(sc.Found(), sc.Both()), [] + sc.FirstDown(),
      sc.FailureWrites(), sc.DeletedOnly());
  }

  lemma WentOn(a: Moment, b: Moment, d: Moment, w1: seq<Status>, e1: seq<Event>, w2: seq<Status>, e2: seq<Event>)
    requires Went(a, b, w1, e1) && Went(b, d, w2, e2)
    ensures Went(a, d, w1 + w2, e1 + e2)
  {
  }

  /** The second pass finds one claim only, and completes. */
  lemma SecondPass(sc: Scene, start: Moment) returns (p: Pass)
    requires sc.Valid() && start.stored == sc.At(Failed, sc.Refused()) && start.claims == sc.Claims1()
    ensures IsPass(p) && p.env == sc.env && p.start == start && p.end.claims == sc.Claims2()
    ensures Went(start, p.end, sc.SecondWrites(), sc.SecondEvents())
  {
    var checked := SecondValidation(sc, start);
    NoHooks(sc, PreRestore, checked);
    FoundAsAsked(sc, checked.stored, start.claims, [sc.KeptRef()]);
    var down := ScalesDownAnnounced(sc, checked, sc.SecondDown(), [sc.KeptRef()], 0);
    var restored := RestoreAnnounced(sc, down);
    var up := ScalesUpAnnounced(sc, restored);
    NoHooks(sc, PostRestore, up);
    var end := Completes(sc, up);
    p := WholePass(sc.env, sc.site, [sc.q], start, checked, down, restored, up, end);
    SecondWent(sc, start, checked, down, restored, up, end);
  }

  lemma Completes(sc: Scene, up: Moment) returns (end: Moment)
    requires up.stored == sc.At(ScalingUp, sc.Up())
    ensures Announced(up, end, true) && end.stored == sc.At(Completed, sc.Up())
    ensures end.claims == up.claims && Went(up, end, [sc.At(Completed, sc.Up())], [])
  {
    PhaseIsAnnounced(up, Completed);
    end := Stores(up, sc.At(Completed, sc.Up()));
  }

  lemma SecondWent(sc: Scene, start: Moment, checked: Moment, down: Moment, restored: Moment, up: Moment, end: Moment)
    requires Went(start, checked, sc.SecondChecks(), [])
    requires Went(checked, down, sc.DownWrites(sc.FoundAgain(), [sc.KeptRef()]), sc.SecondDown())
    requires Went(down, restored, sc.LockWrites(), sc.RestoreSteps())
      && Went(restored, up, sc.UpWrites(), sc.UpEvents())
    requires Went(up, end, [sc.At(Completed, sc.Up())], [])
    ensures Went(start, end, sc.SecondWrites(), sc.SecondEvents())
  {
    var w1, w2, w3, w4 := sc.SecondChecks(), sc.DownWrites(sc.FoundAgain(), [sc.KeptRef()]), sc.LockWrites(),
      sc.UpWrites();
    var e2, e3, e4 := sc.SecondDown(), sc.RestoreSteps(), sc.UpEvents();
    WentOn(start, checked, down, w1, [], w2, e2);
    WentOn(start, down, restored, w1 + w2, [] + e2, w3, e3);
    WentOn(start, restored, up, w1 + w2 + w3, [] + e2 + e3, w4, e4);
    WentOn(start, up, end, w1 + w2 + w3 + w4, [] + e2 + e3 + e4, [sc.At(Completed, sc.Up())], []);
  }

  /** Each value the first pass stores is what the setter of that step makes of the one before. */
  lemma FirstWritesAreSetters(sc: Scene, start: Status)
    requires sc.Valid() && start == Status(Unset, "", map[])
    ensures var w, found := sc.FirstWrites(), sc.Entry(sc.Both(), sc.had, Validated, "");
      && |w| == 9 && w[0] == WithPhase(start, Idle) && w[1] == WithPhase(w[0], Validating)
      && w[2] == WithValidated(w[1], sc.q, sc.time, false, [found], []) && w[3] == WithActivePlan(w[2], sc.q)
      && w[4] == WithPhase(w[3], ScalingDown) && w[5] == WithScaled(w[4], sc.q, 0, [ScaledEntry(found, false)], [])
      && w[6] == WithPhase(w[5], Phase.Restoring)
      && w[7] == WithRestored(w[6], sc.q, false, [ScaledEntry(found, false).(phase := Failed, error := sc.refusal)], [])
      && w[8] == WithPhase(w[7], Failed)
  {
  }

  /** So is each that the second stores; the plan is the active one already. */
  lemma SecondWritesAreSetters(sc: Scene)
    requires sc.Valid()
    ensures var w, found := sc.SecondWrites(), sc.Entry([sc.KeptRef()], 0, Validated, "");
      var down := ScaledEntry(found, false);
      && |w| == 10 && w[0] == WithPhase(sc.At(Failed, sc.Refused()), Idle) && w[1] == WithPhase(w[0], Validating)
      && w[2] == WithValidated(w[1], sc.q, sc.time, false, [found], []) && WithActivePlan(w[2], sc.q) == w[2]
      && w[3] == WithPhase(w[2], ScalingDown) && w[4] == WithScaled(w[3], sc.q, 0, [down], [])
      && w[5] == WithPhase(w[4], Phase.Restoring)
      && w[6] == WithRestored(w[5], sc.q, true, [down.(phase := Phase.Restored)], [])
      && w[7] == WithPhase(w[6], ScalingUp)
      && w[8] == WithScaled(w[7], sc.q, 1, [ScaledEntry(down.(phase := Phase.Restored), true)], [])
      && w[9] == WithPhase(w[8], Completed)
  {
  }

  lemma TwoPasses(a: Pass, b: Pass) returns (ps: seq<Pass>)
    requires IsPass(a) && IsPass(b) && b.start == a.end && b.env == a.env
    ensures ps == [a, b] && IsRun(ps)
  {
    LinkedLonger([], a, IsPass, Follows);
    LinkedLonger([a], b, IsPass, Follows);
    ps := [a] + [b];
    assert [] + [a] == [a];
  }

  /** The trace: what the two passes stored and logged, and what became of the claims. */
  ghost predicate Trace(sc: Scene, ps: seq<Pass>) {
    && |ps| == 2 && ClaimsLeftAlone(ps)
    && Went(ps[0].start, ps[0].end, sc.FirstWrites(), sc.FirstEvents())
    && Went(ps[1].start, ps[1].end, sc.SecondWrites(), sc.SecondEvents())
    && ps[0].start.claims == sc.Claims0() && ps[1].start.claims == sc.Claims1() && ps[1].end.claims == sc.Claims2()
  }

  /** The plan referred to the claim at first, and is completed and locked without it. */
  ghost predicate CompletedWithout(ps: seq<Pass>, q: string, k: Key) {
    && |ps| == 2 && LiveIn(ps[0].start.claims, k) && Refers(PlanOf(ps[0].checked.stored, q).clusters, k)
    && ps[1].end.stored.phase == Completed && PlanOf(ps[1].end.stored, q).lock && k !in ps[1].end.claims
  }

  /**
   So a new resource can come to be completed, with its plan locked, although a claim that was there and
   referred to at the first pass is gone.
   */
  lemma ARunLosesAClaim(sc: Scene, start: Moment) returns (ps: seq<Pass>)
    requires sc.Valid() && New(start) && start.claims == sc.Claims0()
    ensures IsRun(ps) && Trace(sc, ps) && CompletedWithout(ps, sc.q, sc.LostKey())
  {
    var first := FirstPass(sc, start);
    var second := SecondPass(sc, first.end);
    ps := TwoPasses(first, second);
    InTheEnd(sc, first, second);
  }

  lemma InTheEnd(sc: Scene, first: Pass, second: Pass)
    requires sc.Valid() && PlanOf(first.checked.stored, sc.q) == sc.Found() && second.start == first.end
    requires Went(first.start, first.end, sc.FirstWrites(), sc.FirstEvents())
    requires Went(second.start, second.end, sc.SecondWrites(), sc.SecondEvents())
    requires first.start.claims == sc.Claims0() && first.end.claims == sc.Claims1() && second.end.claims == sc.Claims2()
    ensures Trace(sc, [first, second]) && CompletedWithout([first, second], sc.q, sc.LostKey())
  {
    var t := PlanOf(first.checked.stored, sc.q).clusters[0];
    assert t in PlanOf(first.checked.stored, sc.q).clusters && sc.LostRef() in t.snapshotsRef;
  }
}
