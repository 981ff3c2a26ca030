/** What a restore makes of the claims, told from the references it worked through. */
module Claims {
  import opened Api
  import opened Kube
  import opened Passes
  import opened PassLaws
  import opened Restore

  lemma {:induction false} NoReportNoChange(tail: seq<Event>, id: Key, v: ClaimView)
    requires forall i :: 0 <= i < |tail| ==> !Reports(tail[i], id)
    ensures Effect(tail, id, v) == v
    decreases |tail|
  {
    if tail != [] {
      assert !Reports(tail[|tail| - 1], id);
      NoReportNoChange(tail[..|tail| - 1], id, v);
    }
  }

  /** Reports that agree say what the claim looks like in the end, in whatever order and however often they came. */
  lemma {:induction false} AgreeingReportsDecide(tail: seq<Event>, id: Key, v: ClaimView, snapshot: string,
          class': Option<string>)
    requires forall i :: 0 <= i < |tail| && Reports(tail[i], id) ==>
      tail[i].snapshot == snapshot && tail[i].storageClass == class'
    requires exists i :: 0 <= i < |tail| && Reports(tail[i], id)
    ensures Effect(tail, id, v) == Rebuilt(v, snapshot, class')
    decreases |tail|
  {
    var init, last := tail[..|tail| - 1], tail[|tail| - 1];
    var i :| 0 <= i < |tail| && Reports(tail[i], id);
    if j :| 0 <= j < |init| && Reports(init[j], id) {
      AgreeingReportsDecide(init, id, v, snapshot, class');
    } else {
      assert i == |tail| - 1;
      NoReportNoChange(init, id, v);
    }
  }

  /** No reference that is to be restored names this claim. */
  ghost predicate Unnamed(spec: Spec, st: Status, id: Key) {
    forall e :: e in RestoreEvents(spec, st) ==> !Reports(e, id)
  }

  /** The references that name this claim agree on the snapshot and the storage class. */
  ghost predicate Agreed(spec: Spec, st: Status, id: Key, snapshot: string, class': Option<string>) {
    forall e :: e in RestoreEvents(spec, st) && Reports(e, id) ==> e.snapshot == snapshot && e.storageClass == class'
  }

  /** The reference is to be restored: its plan is not skipped, nor is it. */
  predicate IsToRestore(spec: Spec, st: Status, p: string, t: TargetStatus, ref: SnapshotRef) {
    p in ToRestore(spec, st) && t in st.plans[p].clusters && ref in t.snapshotsRef && !ref.skipRestoringPVC
  }

  lemma TailWithin(spec: Spec, a: Moment, b: Moment, but: Option<Key>, ok: bool, i: nat)
    requires Restores(spec, a, b, but, ok) && i < |b.events[|a.events|..]|
    ensures b.events[|a.events|..][i] in RestoreEvents(spec, a.stored)
  {
    assert b.events[|a.events|..][i] == b.events[|a.events| + i];
  }

  /** A claim no reference names is left as it was, however the restore ended; only the one
      claim under way may be in between. */
  lemma UnnamedClaimsStay(spec: Spec, a: Moment, b: Moment, but: Option<Key>, ok: bool, id: Key)
    requires Restores(spec, a, b, but, ok) && Unnamed(spec, a.stored, id) && id in b.claims && Some(id) != but
    ensures id in a.claims && View(b.claims[id]) == View(a.claims[id])
  {
    var tail := b.events[|a.events|..];
    forall i | 0 <= i < |tail| ensures !Reports(tail[i], id) {
      TailWithin(spec, a, b, but, ok, i);
    }
    NoReportNoChange(tail, id, View(a.claims[id]));
  }

  /** The last report about a claim decides what it looks like, whatever was reported before. */
  lemma {:induction false} LastReportDecides(tail: seq<Event>, id: Key, v: ClaimView) returns (i: nat)
    requires ReportedIn(tail, id)
    ensures i < |tail| && Reports(tail[i], id) && forall j :: i < j < |tail| ==> !Reports(tail[j], id)
    ensures Effect(tail, id, v) == Rebuilt(v, tail[i].snapshot, tail[i].storageClass)
    decreases |tail|
  {
    var init, last := tail[..|tail| - 1], tail[|tail| - 1];
    if Reports(last, id) {
      i := |tail| - 1;
      EffectIsRebuilt(init, id, v);
    } else {
      var k :| 0 <= k < |tail| && Reports(tail[k], id);
      assert Reports(init[k], id);
      i := LastReportDecides(init, id, v);
    }
  }

  /** Labels, modes and sizes survive any number of restores. */
  lemma {:induction false} EffectIsRebuilt(tail: seq<Event>, id: Key, v: ClaimView)
    ensures Effect(tail, id, v) == v.(storageClass := Effect(tail, id, v).storageClass,
      dataSource := Effect(tail, id, v).dataSource)
    decreases |tail|
  {
    if tail != [] { EffectIsRebuilt(tail[..|tail| - 1], id, v); }
  }

  /** The reference a report speaks of: which plan it belongs to, and its target. */
  predicate IsReference(spec: Spec, st: Status, id: Key, p: string, t: TargetStatus, ref: SnapshotRef) {
    IsToRestore(spec, st, p, t, ref) && Key(t.namespace, ref.pvcName) == id
  }

  /**
   After a restore that went through, the claim of a reference has the data of a referenced snapshot and
   the storage class referenced with it, and is otherwise as it was, labels included. If more than one
   reference names the claim it is one of these that decides.
   */
  lemma ReferencedClaimsAreRestored(spec: Spec, a: Moment, b: Moment, but: Option<Key>, id: Key, p: string,
          t: TargetStatus, ref: SnapshotRef)
    returns (p': string, t': TargetStatus, ref': SnapshotRef)
    requires Restores(spec, a, b, but, true) && IsReference(spec, a.stored, id, p, t, ref)
    ensures IsReference(spec, a.stored, id, p', t', ref') && LiveIn(b.claims, id) && id in a.claims
    ensures View(b.claims[id]) == Rebuilt(View(a.claims[id]), ref'.snapshotName, ref'.pvcStorageClass)
  {
    var tail := b.events[|a.events|..];
    ReferencedClaimsAreReported(spec, a, b, but, p, t, ref);
    var i := LastReportDecides(tail, id, View(a.claims[id]));
    TailWithin(spec, a, b, but, true, i);
    p', t', ref' := ReportNamesReference(spec, a.stored, tail[i], id);
  }

  lemma ReportNamesReference(spec: Spec, st: Status, e: Event, id: Key)
    returns (p: string, t: TargetStatus, ref: SnapshotRef)
    requires e in RestoreEvents(spec, st) && Reports(e, id)
    ensures IsReference(spec, st, id, p, t, ref) && e.snapshot == ref.snapshotName
      && e.storageClass == ref.pvcStorageClass
  {
    p :| p in ToRestore(spec, st) && e in PlanEvents(p, st.plans[p].clusters);
    t :| t in st.plans[p].clusters && e in TargetEvents(p, t);
    ref :| ref in t.snapshotsRef && !ref.skipRestoringPVC && e in RefEvents(p, t.namespace, ref);
  }

  /** References that name one claim and agree leave no choice. */
  lemma AgreedClaimsAreRestored(spec: Spec, a: Moment, b: Moment, but: Option<Key>, p: string, t: TargetStatus,
          ref: SnapshotRef)
    requires Restores(spec, a, b, but, true) && IsToRestore(spec, a.stored, p, t, ref)
    requires Agreed(spec, a.stored, Key(t.namespace, ref.pvcName), ref.snapshotName, ref.pvcStorageClass)
    ensures var id := Key(t.namespace, ref.pvcName);
      id in a.claims && LiveIn(b.claims, id)
        && View(b.claims[id]) == Rebuilt(View(a.claims[id]), ref.snapshotName, ref.pvcStorageClass)
  {
    var id, tail := Key(t.namespace, ref.pvcName), b.events[|a.events|..];
    ReferencedClaimsAreReported(spec, a, b, but, p, t, ref);
    var i := LastReportDecides(tail, id, View(a.claims[id]));
    TailWithin(spec, a, b, but, true, i);
  }

  lemma ReferencedClaimsAreReported(spec: Spec, a: Moment, b: Moment, but: Option<Key>, p: string, t: TargetStatus,
          ref: SnapshotRef)
    requires Restores(spec, a, b, but, true) && IsToRestore(spec, a.stored, p, t, ref)
    ensures ReportedIn(b.events[|a.events|..], Key(t.namespace, ref.pvcName))
  {
    assert RestoreDone(spec, b.events, |a.events|, p, a.stored.plans[p], b.stored.plans[p]);
    ReferenceIsReported(b.events, |a.events|, p, a.stored.plans[p].clusters, t, ref);
  }

  lemma ReferenceIsReported(events: seq<Event>, lo: nat, p: string, ts: seq<TargetStatus>, t: TargetStatus,
          ref: SnapshotRef)
    requires AllReported(events, lo, p, ts) && t in ts && ref in t.snapshotsRef && !ref.skipRestoringPVC
      && lo <= |events|
    ensures ReportedIn(events[lo..], Key(t.namespace, ref.pvcName))
  {
    var i :| 0 <= i < |ts| && ts[i] == t;
    assert RefsReported(events, lo, p, ts[i], |t.snapshotsRef|);
    var j :| 0 <= j < |t.snapshotsRef| && t.snapshotsRef[j] == ref;
    assert Reported(events, lo, p, t.namespace, t.snapshotsRef[j]);
    var n :| lo <= n < |events|
      && events[n] == ClaimRestored(p, Key(t.namespace, ref.pvcName), ref.snapshotName, ref.pvcStorageClass);
    assert Reports(events[lo..][n - lo], Key(t.namespace, ref.pvcName));
  }

  /** After a pass that got through the restore, the claims have the names they had; those
      being deleted before may be gone. */
  lemma ClaimNamesAreConserved(p: Pass)
    requires IsPass(p) && p.reached >= 4
    ensures Live(p.start.claims) <= Live(p.end.claims) && p.end.claims.Keys <= p.start.claims.Keys
    ensures (forall k :: k in p.start.claims ==> !p.start.claims[k].terminating) ==>
      p.end.claims.Keys == p.start.claims.Keys
  {
    ClaimsChangeInTheRestore(p);
    NamesConserved(p.env.spec, p.down, p.restored, p.but);
  }

  lemma NamesConserved(spec: Spec, a: Moment, b: Moment, but: Option<Key>)
    requires Restores(spec, a, b, but, true)
    ensures Live(a.claims) <= Live(b.claims) && b.claims.Keys <= a.claims.Keys
    ensures (forall k :: k in a.claims ==> !a.claims[k].terminating) ==> b.claims.Keys == a.claims.Keys
  {
  }

  /** At every moment of a pass, however it ends, at most one of the claims there were is missing. */
  lemma AtMostOneClaimMissing(p: Pass, i: nat)
    requires IsPass(p) && |p.start.live| <= i < |p.end.live|
    ensures forall k, l ::
      k in Live(p.start.claims) && l in Live(p.start.claims) && k !in p.end.live[i] && l !in p.end.live[i] ==> k == l
  {
    ClaimsChangeInTheRestore(p);
    OneMissing(p.env.spec, p.down, p.restored, p.but, p.reached >= 4, i);
  }

  lemma OneMissing(spec: Spec, a: Moment, b: Moment, but: Option<Key>, ok: bool, i: nat)
    requires Restores(spec, a, b, but, ok) && |a.live| <= i < |b.live|
    ensures forall k, l :: k in Live(a.claims) && l in Live(a.claims) && k !in b.live[i] && l !in b.live[i] ==> k == l
  {
    assert AtMostOneMissing(Live(a.claims), b.live[i]);
    var id :| Live(a.claims) - {id} <= b.live[i];
    forall k | k in Live(a.claims) && k !in b.live[i] ensures k == id {
      assert k !in Live(a.claims) - {id};
    }
  }
}
