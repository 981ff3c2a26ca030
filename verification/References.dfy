/**
 What a pass does to claims, in terms of what the spec asks for: which claims it touches, and what it
 makes of them.
 */
module References {
  import opened Api
  import opened Claims
  import opened Kube
  import opened Passes
  import opened PassLaws
  import opened Restore
  import opened Scale
  import opened StatusManager
  import opened Validate

  lemma RestorePointsStay(p: Pass, q: string)
    requires IsPass(p) && p.reached >= 3 && q in p.down.stored.plans
    ensures p.down.stored.plans[q].snapshotRestoreTime == PlanOf(p.checked.stored, q).snapshotRestoreTime
  {
    HooksKeepPlans(p.env, PreRestore, p.site, p.checked, p.prepared, false, q);
    ScalingKeepsLocks(p.env.spec, false, p.prepared, p.down, p.reached >= 3, q);
    assert PlanScaled(p.prepared.stored.plans[q], p.down.stored.plans[q], false);
  }

  /** What the restore works on is what validation recorded. */
  lemma RefsStayAsAsked(p: Pass)
    requires IsPass(p) && p.reached >= 3
    ensures RefsAsAsked(p.env.spec, p.down.stored, p.start.claims, p.site.selects)
  {
    forall q, i, ref | q in p.env.spec && 0 <= i < |p.env.spec[q].clusters| && IsRefOf(p.down.stored, q, i, ref)
      ensures IsAsAsked(q, PlanOf(p.down.stored, q).snapshotRestoreTime, p.env.spec[q].clusters[i],
        p.start.claims, p.site.selects, ref)
    {
      RestorePointsStay(p, q);
      SameTargetsBeforeRestore(p, q);
      assert SameEntry(PlanOf(p.checked.stored, q).clusters[i], p.down.stored.plans[q].clusters[i]);
      assert IsRefOf(p.checked.stored, q, i, ref);
    }
  }

  /** Cluster `i` of the plan selects the claim, and the spec does not list it to be skipped there. */
  ghost predicate AsksFor(p: Pass, q: string, i: nat, k: Key) {
    && q in p.env.spec && i < |p.env.spec[q].clusters| && k in p.start.claims
    && var t := p.env.spec[q].clusters[i];
       && k.namespace == t.namespace && t.claimSelector.Some?
       && p.site.selects(t.claimSelector.value, p.start.claims[k].meta.labels)
       && k.name !in t.skipRestoringPVCs
  }

  /** The snapshot a plan restores a claim from, by name, and the storage class it is to get. */
  ghost predicate SourceOf(p: Pass, q: string, i: nat, k: Key, snapshot: string, storageClass: Option<string>)
    requires AsksFor(p, q, i, k)
  {
    var t := p.env.spec[q].clusters[i];
    && snapshot == k.name + "-" + q + "-" + PlanOf(p.checked.stored, q).snapshotRestoreTime
    && storageClass == (if t.pvcStorageClass.Some? && t.pvcStorageClass.value != "" then t.pvcStorageClass
                        else p.start.claims[k].storageClass)
  }

  /** A reference the restore works on is one the spec asks for. */
  lemma ReferenceIsAskedFor(p: Pass, q: string, t: TargetStatus, ref: SnapshotRef) returns (i: nat)
    requires IsPass(p) && p.reached >= 3 && q in p.env.spec && IsToRestore(p.env.spec, p.down.stored, q, t, ref)
    ensures AsksFor(p, q, i, Key(t.namespace, ref.pvcName))
    ensures SourceOf(p, q, i, Key(t.namespace, ref.pvcName), ref.snapshotName, ref.pvcStorageClass)
  {
    RefsStayAsAsked(p);
    RestorePointsStay(p, q);
    TargetsStayInStep(p);
    assert Aligned(p.env.spec[q], p.down.stored.plans[q]);
    i :| 0 <= i < |p.down.stored.plans[q].clusters| && p.down.stored.plans[q].clusters[i] == t;
    assert IsRefOf(p.down.stored, q, i, ref) && Describes(t, p.env.spec[q].clusters[i]);
  }

  lemma EventHasReference(spec: Spec, st: Status, e: Event) returns (t: TargetStatus, ref: SnapshotRef)
    requires e in RestoreEvents(spec, st) && e.id != NAMELESS
    ensures IsToRestore(spec, st, e.plan, t, ref) && Key(t.namespace, ref.pvcName) == e.id
    ensures e.ClaimRestored? ==> e.snapshot == ref.snapshotName && e.storageClass == ref.pvcStorageClass
  {
    var q :| q in ToRestore(spec, st) && e in PlanEvents(q, st.plans[q].clusters);
    t :| t in st.plans[q].clusters && e in TargetEvents(q, t);
    ref := TargetEventHasReference(q, t, e);
  }

  lemma TargetEventHasReference(q: string, t: TargetStatus, e: Event) returns (ref: SnapshotRef)
    requires e in TargetEvents(q, t)
    ensures ref in t.snapshotsRef && !ref.skipRestoringPVC && e.plan == q
    ensures e.id != NAMELESS ==> e.id == Key(t.namespace, ref.pvcName)
    ensures e.ClaimRestored? ==> e.snapshot == ref.snapshotName && e.storageClass == ref.pvcStorageClass
  {
    ref :| ref in t.snapshotsRef && !ref.skipRestoringPVC && e in RefEvents(q, t.namespace, ref);
  }

  /**
   Whatever is done to a claim on behalf of a plan of the spec, some cluster of the plan selects the claim
   and does not list it to be skipped; and if the claim is reported restored, it is from the snapshot of
   that claim, that plan and the time the plan is restored to.
   */
  lemma TouchedClaimsAreAskedFor(p: Pass, n: nat, e: Event) returns (i: nat)
    requires IsPass(p) && |p.start.events| <= n < |p.end.events| && e == p.end.events[n] && OnClaims(e)
    requires e.plan in p.env.spec && e.id != NAMELESS
    ensures AsksFor(p, e.plan, i, e.id)
    ensures e.ClaimRestored? ==> SourceOf(p, e.plan, i, e.id, e.snapshot, e.storageClass)
  {
    ClaimEventsAreOfTheRestore(p, n);
    i := EventIsAskedFor(p, e);
  }

  lemma EventIsAskedFor(p: Pass, e: Event) returns (i: nat)
    requires IsPass(p) && p.reached >= 3 && e in RestoreEvents(p.env.spec, p.down.stored)
    requires OnClaims(e) && e.plan in p.env.spec && e.id != NAMELESS
    ensures AsksFor(p, e.plan, i, e.id)
    ensures e.ClaimRestored? ==> SourceOf(p, e.plan, i, e.id, e.snapshot, e.storageClass)
  {
    var t, ref := EventHasReference(p.env.spec, p.down.stored, e);
    i := ReferenceIsAskedFor(p, e.plan, t, ref);
  }

  /** A claim that every cluster of the plan selecting it lists to be skipped is left alone by the plan. */
  lemma SkippedClaimsAreLeftAlone(p: Pass, q: string, k: Key, n: nat)
    requires IsPass(p) && q in p.env.spec && k in p.start.claims && k != NAMELESS
    requires forall i :: 0 <= i < |p.env.spec[q].clusters| ==>
      var t := p.env.spec[q].clusters[i];
      (t.namespace == k.namespace && t.claimSelector.Some?
        && p.site.selects(t.claimSelector.value, p.start.claims[k].meta.labels)) ==>
      k.name in t.skipRestoringPVCs
    requires |p.start.events| <= n < |p.end.events| && OnClaims(p.end.events[n])
    ensures !(p.end.events[n].plan == q && p.end.events[n].id == k)
  {
    if p.end.events[n].plan == q && p.end.events[n].id == k {
      var i := TouchedClaimsAreAskedFor(p, n, p.end.events[n]);
    }
  }

  /**
   What a restore that goes through makes of a claim a plan has a reference to, if the status lists no
   plan the spec does not: the claim is there, filled from the snapshot named after it, a plan that asks
   for it and that plan's time, on the class that plan's spec gives or else the one it had; labels,
   annotations, access modes and size are as they were.
   */
  lemma RestoredAsAsked(p: Pass, q: string, t: TargetStatus, ref: SnapshotRef) returns (q': string, i: nat)
    requires IsPass(p) && p.reached >= 4 && p.down.stored.plans.Keys <= p.env.spec.Keys
    requires IsToRestore(p.env.spec, p.down.stored, q, t, ref)
    ensures var k := Key(t.namespace, ref.pvcName);
      && k in p.start.claims && k in p.end.claims && AsksFor(p, q', i, k) && p.end.claims[k].dataSource.Some?
      && SourceOf(p, q', i, k, p.end.claims[k].dataSource.value, p.end.claims[k].storageClass)
      && p.end.claims[k].meta.labels == p.start.claims[k].meta.labels
      && p.end.claims[k].meta.annotations == p.start.claims[k].meta.annotations
      && p.end.claims[k].accessModes == p.start.claims[k].accessModes
      && p.end.claims[k].resources == p.start.claims[k].resources
      && p.end.claims[k].volumeMode == p.start.claims[k].volumeMode
  {
    var k := Key(t.namespace, ref.pvcName);
    ClaimsChangeInTheRestore(p);
    var t', ref';
    q', t', ref' := ReferencedClaimsAreRestored(p.env.spec, p.down, p.restored, p.but, k, q, t, ref);
    assert q' in p.down.stored.plans.Keys;
    i := ReferenceIsAskedFor(p, q', t', ref');
  }
}
