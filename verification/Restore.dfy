/** Replacing the claims of every plan by claims restored from its snapshots. */
module Restore {
  import opened Api
  import opened Kube
  import opened StatusManager
  import opened Scale

  // ---------------------------------------------------------------- what restoring does to a claim

  /** Same labels, access modes and size; data from the snapshot, on the storage class the plan settled on. */
  function Rebuilt(v: ClaimView, snapshot: string, storageClass: Option<string>): ClaimView {
    v.(storageClass := storageClass, dataSource := Some(snapshot))
  }

  method BuildPVCFromExisting(existing: Claim, ref: SnapshotRef) returns (pvc: Claim)
    ensures View(pvc) == Rebuilt(View(existing), ref.snapshotName, ref.pvcStorageClass)
    ensures pvc.dataSource == Some(ref.snapshotName) && pvc.storageClass == ref.pvcStorageClass
    ensures pvc.meta.labels == existing.meta.labels && pvc.meta.annotations == existing.meta.annotations
    ensures pvc.accessModes == existing.accessModes && pvc.resources == existing.resources
      && pvc.volumeMode == existing.volumeMode
    ensures pvc.meta.Id() == existing.meta.Id()
    ensures pvc.meta.uid == 0 && pvc.meta.resourceVersion == "" && pvc.meta.generation == 0
    ensures pvc.meta.managedFields == pvc.meta.finalizers == pvc.meta.ownerReferences == []
    ensures pvc.volumeName == "" && !pvc.bound && !pvc.terminating
  {
    var meta := existing.meta;
    meta := meta.(resourceVersion := "");
    meta := meta.(uid := 0);
    meta := meta.(managedFields := []);
    meta := meta.(creationTimestamp := 0);
    meta := meta.(finalizers := []);
    meta := meta.(ownerReferences := []);
    meta := meta.(generation := 0);
    pvc := Claim(meta, existing.accessModes, ref.pvcStorageClass, existing.resources, existing.volumeMode,
                 Some(ref.snapshotName), "", false, false);
  }

  /** Claims other than `id` are as decided before, and none that was not being deleted is gone. */
  ghost predicate OtherClaimsKept(a: map<Key, Claim>, b: map<Key, Claim>, id: Key) {
    && (forall k :: k in b && k != id ==> k in a && View(b[k]) == View(a[k]) && b[k].terminating == a[k].terminating)
    && (forall k :: k in a && k != id && !a[k].terminating ==> k in b)
  }

  /** At each of these moments all claims of `start` were there, but perhaps `id`. */
  ghost predicate OnlyMissing(start: set<Key>, moments: seq<set<Key>>, from: nat, id: Key) {
    forall i :: from <= i < |moments| ==> start - {id} <= moments[i]
  }

  // ---------------------------------------------------------------- the three waits

  lemma OnlyMissingTransitively(a: map<Key, Claim>, b: map<Key, Claim>, m0: seq<set<Key>>, m1: seq<set<Key>>,
          m2: seq<set<Key>>, id: Key)
    requires OtherClaimsKept(a, b, id) && m0 <= m1 <= m2
    requires OnlyMissing(Live(a), m1, |m0|, id) && OnlyMissing(Live(b), m2, |m1|, id)
    ensures OnlyMissing(Live(a), m2, |m0|, id)
  {
    assert Live(a) - {id} <= Live(b);
    forall i | |m0| <= i < |m2| ensures Live(a) - {id} <= m2[i] {
      if i < |m1| { assert m2[i] == m1[i]; }
    }
  }

  /** While one claim was waited for, the cluster bound claims and finished deletions. */
  ghost predicate Waited(a: map<Key, Claim>, b: map<Key, Claim>, m0: seq<set<Key>>, m1: seq<set<Key>>, id: Key) {
    && WellKeyed(b) && OtherClaimsKept(a, b, id)
    && (id in b ==> id in a && SameClaim(a[id], b[id]))
    && (id in a && !a[id].terminating ==> id in b)
    && m0 <= m1 && OnlyMissing(Live(a), m1, |m0|, id)
  }

  lemma WaitedOneMore(a: map<Key, Claim>, b: map<Key, Claim>, d: map<Key, Claim>, m0: seq<set<Key>>, m1: seq<set<Key>>,
          id: Key)
    requires Waited(a, b, m0, m1, id) && ClaimsMayBecome(b, d)
    ensures Waited(a, d, m0, m1 + [Live(d)], id)
  {
    assert forall k :: k in d ==> SameClaim(b[k], d[k]);
    assert OtherClaimsKept(a, d, id);
    assert Live(a) - {id} <= Live(d);
    forall i | |m0| <= i < |m1 + [Live(d)]| ensures Live(a) - {id} <= (m1 + [Live(d)])[i] {
    }
  }

  method WaitPVCDeleted(c: Cluster, id: Key) returns (r: Result<()>)
    requires WellKeyed(c.claims)
    modifies c`claims, c`volumes, c`liveClaims
    ensures Waited(old(c.claims), c.claims, old(c.liveClaims), c.liveClaims, id)
    ensures r.Ok? ==> id !in c.claims
  {
    var polls: nat := *;
    while polls > 0
      invariant Waited(old(c.claims), c.claims, old(c.liveClaims), c.liveClaims, id)
    {
      ghost var b, m := c.claims, c.liveClaims;
      c.StorageMoves();
      WaitedOneMore(old(c.claims), b, c.claims, old(c.liveClaims), m, id);
      var pvc := c.GetClaim(id);
      if pvc == Err(NotFound) { return Ok(()); }
      if pvc.Err? { return Err(pvc.error); }
      polls := polls - 1;
    }
    return Err(Other("timed out"));
  }

  method WaitPVCBound(c: Cluster, id: Key) returns (r: Result<()>)
    requires WellKeyed(c.claims)
    modifies c`claims, c`volumes, c`liveClaims
    ensures Waited(old(c.claims), c.claims, old(c.liveClaims), c.liveClaims, id) && old(c.volumes) <= c.volumes
    ensures r.Ok? ==> id in c.claims && c.claims[id].bound
  {
    var polls: nat := *;
    while polls > 0
      invariant Waited(old(c.claims), c.claims, old(c.liveClaims), c.liveClaims, id) && old(c.volumes) <= c.volumes
    {
      ghost var b, m := c.claims, c.liveClaims;
      c.StorageMoves();
      WaitedOneMore(old(c.claims), b, c.claims, old(c.liveClaims), m, id);
      var pvc :- c.GetClaim(id);
      if pvc.bound { return Ok(()); }
      polls := polls - 1;
    }
    return Err(Other("timed out"));
  }

  ghost predicate ProvisionedFor(volumes: set<Volume>, name: string, ref: ClaimRef) {
    exists v :: v in volumes && v.name == name && v.claimRef == Some(ref)
  }

  /** Looks for the volume provisioned for this very claim: same name, namespace and UID. */
  method WaitPVProvisioned(c: Cluster, id: Key, uid: nat) returns (r: Result<string>)
    requires WellKeyed(c.claims)
    modifies c`claims, c`volumes, c`liveClaims
    ensures Waited(old(c.claims), c.claims, old(c.liveClaims), c.liveClaims, id) && old(c.volumes) <= c.volumes
    ensures r.Ok? ==> r.value != "" && ProvisionedFor(c.volumes, r.value, ClaimRef(id, uid))
  {
    var polls: nat := *;
    while polls > 0
      invariant Waited(old(c.claims), c.claims, old(c.liveClaims), c.liveClaims, id) && old(c.volumes) <= c.volumes
    {
      ghost var b, m := c.claims, c.liveClaims;
      c.StorageMoves();
      WaitedOneMore(old(c.claims), b, c.claims, old(c.liveClaims), m, id);
      var pvs :- c.ListVolumes();
      for i := 0 to |pvs| {
        var ref := pvs[i].claimRef;
        if ref.Some? && ref.value.claim == id && ref.value.uid == uid {
          assert pvs[i] in c.volumes && pvs[i].claimRef == Some(ClaimRef(id, uid));
          return Ok(pvs[i].name);
        }
      }
      polls := polls - 1;
    }
    return Err(Other("timed out"));
  }

  // ---------------------------------------------------------------- one claim

  /** The claim a refused creation names: that of a claim that was not there to be copied. */
  const NAMELESS := Key("", "")

  /** All that may be done to a claim on behalf of a plan. */
  function Touches(plan: string, id: Key): set<Event> {
    {ClaimDeleted(plan, id, true), ClaimDeleted(plan, id, false), ClaimCreated(plan, id, true),
      ClaimCreated(plan, id, false),
     ClaimPatched(plan, id), ClaimCreated(plan, NAMELESS, false)}
  }

  /** The log grew by deletes, creates and patches of this claim for `plan`; none reports a restored claim. */
  ghost predicate GrewByRestoring(before: seq<Event>, now: seq<Event>, plan: string, id: Key) {
    before <= now && forall i :: |before| <= i < |now| ==> now[i] in Touches(plan, id)
  }

  /** What holds at every end of the restore of one claim, and at every moment in between. */
  ghost predicate ClaimReplaced(a: map<Key, Claim>, b: map<Key, Claim>, id: Key, ref: SnapshotRef) {
    && WellKeyed(b) && OtherClaimsKept(a, b, id)
    && (id in b ==>
        id in a && View(b[id]) in {View(a[id]), Rebuilt(View(a[id]), ref.snapshotName, ref.pvcStorageClass)})
  }

  predicate LiveIn(claims: map<Key, Claim>, id: Key) { id in claims && !claims[id].terminating }

  /** Deletions and creations that took effect. */
  predicate IsDeletion(e: Event, id: Key) { e.ClaimDeleted? && e.id == id && e.took }

  predicate IsCreation(e: Event, id: Key) { e.ClaimCreated? && e.id == id && e.took }

  /** Whether the claim is there, and not being deleted, after a stretch of the log: the last effect on it decides. */
  function LiveAfter(tail: seq<Event>, id: Key, live: bool): bool {
    if tail == [] then live
    else
      var last := tail[|tail| - 1];
      if IsDeletion(last, id) then false
      else if IsCreation(last, id) then true
      else LiveAfter(tail[..|tail| - 1], id, live)
  }

  lemma LiveAfterOne(tail: seq<Event>, e: Event, id: Key, live: bool)
    ensures LiveAfter(tail + [e], id, live) ==
      if IsDeletion(e, id) then false else if IsCreation(e, id) then true else LiveAfter(tail, id, live)
  {
    assert (tail + [e])[..|tail|] == tail;
  }

  lemma {:induction false} LiveAfterBoth(tail: seq<Event>, more: seq<Event>, id: Key, live: bool)
    ensures LiveAfter(tail + more, id, live) == LiveAfter(more, id, LiveAfter(tail, id, live))
    decreases |more|
  {
    if more == [] {
      assert tail + more == tail;
    } else {
      var init, last := more[..|more| - 1], more[|more| - 1];
      assert tail + more == (tail + init) + [last] && more == init + [last];
      LiveAfterOne(tail + init, last, id, live);
      LiveAfterOne(init, last, id, LiveAfter(tail, id, live));
      LiveAfterBoth(tail, init, id, live);
    }
  }

  lemma {:induction false} LiveAfterOthers(tail: seq<Event>, id: Key, live: bool)
    requires forall i :: 0 <= i < |tail| ==> !IsDeletion(tail[i], id) && !IsCreation(tail[i], id)
    ensures LiveAfter(tail, id, live) == live
    decreases |tail|
  {
    if tail != [] { LiveAfterOthers(tail[..|tail| - 1], id, live); }
  }

  /** The claim is there, or not, as the log says of it. */
  ghost predicate IsAsLogged(a: map<Key, Claim>, b: map<Key, Claim>, e0: seq<Event>, e1: seq<Event>, id: Key) {
    e0 <= e1 && LiveIn(b, id) == LiveAfter(e1[|e0|..], id, LiveIn(a, id))
  }

  method DeleteAndAwait(c: Cluster, ghost plan: string, id: Key) returns (r: Result<()>, ghost took: bool)
    requires WellKeyed(c.claims)
    modifies c`claims, c`volumes, c`liveClaims, c`events
    ensures WellKeyed(c.claims) && OtherClaimsKept(old(c.claims), c.claims, id)
    ensures id in c.claims ==> id in old(c.claims) && View(c.claims[id]) == View(old(c.claims)[id])
    ensures LiveIn(c.claims, id) <==> !took && LiveIn(old(c.claims), id)
    ensures old(c.liveClaims) <= c.liveClaims && OnlyMissing(Live(old(c.claims)), c.liveClaims, |old(c.liveClaims)|, id)
    ensures c.events == old(c.events) + [ClaimDeleted(plan, id, took)]
    ensures r.Ok? ==> id !in c.claims
  {
    r, took := c.DeleteClaim(plan, id);
    if r.Err? { return; }
    ghost var gone, moments := c.claims, c.liveClaims;
    r := WaitPVCDeleted(c, id);
    OnlyMissingTransitively(old(c.claims), gone, old(c.liveClaims), moments, c.liveClaims, id);
  }

  lemma OneEffect(a: map<Key, Claim>, b: map<Key, Claim>, e0: seq<Event>, e: Event, id: Key)
    requires if IsDeletion(e, id) then !LiveIn(b, id) else if IsCreation(e, id) then LiveIn(b, id)
      else LiveIn(b, id) == LiveIn(a, id)
    ensures IsAsLogged(a, b, e0, e0 + [e], id)
  {
    assert (e0 + [e])[|e0|..] == [] + [e];
    LiveAfterOne([], e, id, LiveIn(a, id));
  }

  lemma LoggedTransitively(a: map<Key, Claim>, b: map<Key, Claim>, d: map<Key, Claim>,
                           e0: seq<Event>, e1: seq<Event>, e2: seq<Event>, id: Key)
    requires IsAsLogged(a, b, e0, e1, id) && IsAsLogged(b, d, e1, e2, id)
    ensures IsAsLogged(a, d, e0, e2, id)
  {
    assert e2[|e0|..] == e1[|e0|..] + e2[|e1|..];
    LiveAfterBoth(e1[|e0|..], e2[|e1|..], id, LiveIn(a, id));
  }

  lemma NoEffect(a: map<Key, Claim>, b: map<Key, Claim>, e0: seq<Event>, e1: seq<Event>, id: Key)
    requires e0 <= e1 && LiveIn(a, id) == LiveIn(b, id)
    requires forall i :: |e0| <= i < |e1| ==> !IsDeletion(e1[i], id) && !IsCreation(e1[i], id)
    ensures IsAsLogged(a, b, e0, e1, id)
  {
    LiveAfterOthers(e1[|e0|..], id, LiveIn(a, id));
  }

  /** Creates the claim from the copy; one of a claim that was not there has no name. */
  method CreateCopy(c: Cluster, ghost plan: string, ghost id: Key, copy: Claim) returns (r: Result<Claim>)
    requires WellKeyed(c.claims) && (copy.meta.Id() == id || copy.meta.Id() == NAMELESS) && !copy.terminating
    modifies c`claims, c`liveClaims, c`events, c`nextUid
    ensures WellKeyed(c.claims) && OtherClaimsKept(old(c.claims), c.claims, id)
    ensures id in c.claims ==>
      if id in old(c.claims) then c.claims[id] == old(c.claims)[id] else View(c.claims[id]) == View(copy)
    ensures copy.meta.name == "" ==> c.claims == old(c.claims) && r.Err?
    ensures old(c.liveClaims) <= c.liveClaims && OnlyMissing(Live(old(c.claims)), c.liveClaims, |old(c.liveClaims)|, id)
    ensures GrewByRestoring(old(c.events), c.events, plan, id)
      && IsAsLogged(old(c.claims), c.claims, old(c.events), c.events, id)
    ensures r.Ok? ==> id in c.claims && c.claims[id] == r.value == copy.(meta := r.value.meta)
  {
    ghost var created;
    r, created := c.CreateClaim(plan, copy);
    OneEffect(old(c.claims), c.claims, old(c.events), ClaimCreated(plan, copy.meta.Id(), created), id);
  }

  /** Deletes the claim if it is there, waits until it is gone, and creates it anew from the snapshot. */
  method ReplaceClaim(c: Cluster, ghost plan: string, id: Key, ref: SnapshotRef) returns (r: Result<Claim>)
    requires WellKeyed(c.claims)
    modifies c`claims, c`volumes, c`liveClaims, c`events, c`nextUid
    ensures ClaimReplaced(old(c.claims), c.claims, id, ref)
    ensures old(c.liveClaims) <= c.liveClaims && OnlyMissing(Live(old(c.claims)), c.liveClaims, |old(c.liveClaims)|, id)
    ensures GrewByRestoring(old(c.events), c.events, plan, id)
    ensures IsAsLogged(old(c.claims), c.claims, old(c.events), c.events, id)
    ensures r.Ok? ==>
      && id in old(c.claims) && id in c.claims && c.claims[id] == r.value && !r.value.terminating
      && r.value.volumeName == ""
      && View(r.value) == Rebuilt(View(old(c.claims)[id]), ref.snapshotName, ref.pvcStorageClass)
  {
    var existing := c.GetClaim(id);
    if existing.Err? && existing != Err(NotFound) { return Err(existing.error); }
    var newPVC := BuildPVCFromExisting(if existing.Ok? then existing.value else NO_CLAIM, ref);
    NoEffect(c.claims, c.claims, c.events, c.events, id);
    if existing.Ok? {
      var deleted, took := DeleteAndAwait(c, plan, id);
      OneEffect(old(c.claims), c.claims, old(c.events), ClaimDeleted(plan, id, took), id);
      if deleted.Err? { return Err(deleted.error); }
    }
    ghost var gone, moments, logged := c.claims, c.liveClaims, c.events;
    r := CreateCopy(c, plan, id, newPVC);
    LoggedTransitively(old(c.claims), gone, c.claims, old(c.events), logged, c.events, id);
    OnlyMissingTransitively(old(c.claims), gone, old(c.liveClaims), moments, c.liveClaims, id);
  }

  /** The claim is bound to a volume provisioned for exactly this claim. */
  ghost predicate BoundToOwnVolume(c: Cluster, id: Key)
    reads c
  {
    && id in c.claims && c.claims[id].bound
    && ProvisionedFor(c.volumes, c.claims[id].volumeName, ClaimRef(id, c.claims[id].meta.uid))
  }

  /** Waits for the claim's volume, pins the claim to it, and waits until it is bound. */
  method BindClaim(c: Cluster, ghost plan: string, id: Key, uid: nat) returns (r: Result<()>)
    requires WellKeyed(c.claims) && id in c.claims && !c.claims[id].terminating && c.claims[id].meta.uid == uid
    requires c.claims[id].volumeName == ""
    modifies c`claims, c`volumes, c`liveClaims, c`events
    ensures WellKeyed(c.claims) && OtherClaimsKept(old(c.claims), c.claims, id)
    ensures id in c.claims && View(c.claims[id]) == View(old(c.claims)[id]) && !c.claims[id].terminating
    ensures old(c.liveClaims) <= c.liveClaims && OnlyMissing(Live(old(c.claims)), c.liveClaims, |old(c.liveClaims)|, id)
    ensures GrewByRestoring(old(c.events), c.events, plan, id)
    ensures r.Ok? ==> c.events == old(c.events) + [ClaimPatched(plan, id)]
    ensures IsAsLogged(old(c.claims), c.claims, old(c.events), c.events, id)
    ensures r.Ok? ==> BoundToOwnVolume(c, id)
  {
    var provisioned := WaitPVProvisioned(c, id, uid);
    NoEffect(old(c.claims), c.claims, old(c.events), c.events, id);
    if provisioned.Err? { return Err(provisioned.error); }
    var patched := c.PatchClaimVolume(plan, id, provisioned.value);
    NoEffect(old(c.claims), c.claims, old(c.events), c.events, id);
    if patched.Err? { return patched; }
    ghost var pinned, moments := c.claims, c.liveClaims;
    assert pinned[id].volumeName == provisioned.value && pinned[id].meta.uid == uid;
    r := WaitPVCBound(c, id);
    OnlyMissingTransitively(old(c.claims), pinned, old(c.liveClaims), moments, c.liveClaims, id);
  }

  method RestorePVC(c: Cluster, ghost plan: string, namespace: string, ref: SnapshotRef) returns (r: Result<()>)
    requires WellKeyed(c.claims)
    modifies c`claims, c`volumes, c`liveClaims, c`events, c`nextUid
    ensures ClaimReplaced(old(c.claims), c.claims, Key(namespace, ref.pvcName), ref)
    ensures old(c.liveClaims) <= c.liveClaims
    ensures OnlyMissing(Live(old(c.claims)), c.liveClaims, |old(c.liveClaims)|, Key(namespace, ref.pvcName))
    ensures Key(namespace, ref.pvcName) !in old(c.claims) ==> r.Err?
    ensures r.Ok? ==> exists mid ::
      && GrewByRestoring(old(c.events), mid, plan, Key(namespace, ref.pvcName))
      && c.events == mid + [ClaimRestored(plan, Key(namespace, ref.pvcName), ref.snapshotName, ref.pvcStorageClass)]
    ensures r.Err? ==> GrewByRestoring(old(c.events), c.events, plan, Key(namespace, ref.pvcName))
    ensures IsAsLogged(old(c.claims), c.claims, old(c.events), c.events, Key(namespace, ref.pvcName))
    ensures r.Ok? ==>
      && BoundToOwnVolume(c, Key(namespace, ref.pvcName)) && !c.claims[Key(namespace, ref.pvcName)].terminating
      && View(c.claims[Key(namespace, ref.pvcName)])
         == Rebuilt(View(old(c.claims)[Key(namespace, ref.pvcName)]), ref.snapshotName, ref.pvcStorageClass)
  {
    var id := Key(namespace, ref.pvcName);
    var created := ReplaceClaim(c, plan, id, ref);
    if created.Err? { return Err(created.error); }
    ghost var before, moments, logged := c.claims, c.liveClaims, c.events;
    r := BindClaim(c, plan, id, created.value.meta.uid);
    OnlyMissingTransitively(old(c.claims), before, old(c.liveClaims), moments, c.liveClaims, id);
    LoggedTransitively(old(c.claims), before, c.claims, old(c.events), logged, c.events, id);
    if r.Ok? {
      ghost var report := ClaimRestored(plan, id, ref.snapshotName, ref.pvcStorageClass);
      OneEffect(c.claims, c.claims, c.events, report, id);
      LoggedTransitively(old(c.claims), c.claims, c.claims, old(c.events), c.events, c.events + [report], id);
      c.NoteRestored(plan, id, ref.snapshotName, ref.pvcStorageClass);
    }
  }

  // ---------------------------------------------------------------- claims follow the log

  /** What the reports of a stretch of the log say a claim looks like now: the last report decides. */
  function Effect(tail: seq<Event>, id: Key, v: ClaimView): ClaimView {
    if tail == [] then v
    else
      var w := Effect(tail[..|tail| - 1], id, v);
      var last := tail[|tail| - 1];
      if last.ClaimRestored? && last.id == id then Rebuilt(w, last.snapshot, last.storageClass) else w
  }

  lemma EffectOfOne(tail: seq<Event>, e: Event, id: Key, v: ClaimView)
    ensures Effect(tail + [e], id, v) ==
      if e.ClaimRestored? && e.id == id then Rebuilt(Effect(tail, id, v), e.snapshot, e.storageClass)
        else Effect(tail, id, v)
  {
    assert (tail + [e])[..|tail|] == tail;
  }

  lemma {:induction false} EffectOfTouches(tail: seq<Event>, more: seq<Event>, id: Key, v: ClaimView)
    requires forall i :: 0 <= i < |more| ==> !more[i].ClaimRestored?
    ensures Effect(tail + more, id, v) == Effect(tail, id, v)
    decreases |more|
  {
    if more == [] {
      assert tail + more == tail;
    } else {
      var init := more[..|more| - 1];
      assert tail + more == (tail + init) + [more[|more| - 1]];
      EffectOfOne(tail + init, more[|more| - 1], id, v);
      EffectOfTouches(tail, init, id, v);
    }
  }

  /** A report about this claim. */
  predicate Reports(e: Event, id: Key) { e.ClaimRestored? && e.id == id }

  ghost predicate ReportedIn(tail: seq<Event>, id: Key) {
    exists i :: 0 <= i < |tail| && Reports(tail[i], id)
  }

  lemma NoNewReport(tail: seq<Event>, more: seq<Event>, id: Key)
    requires !ReportedIn(tail, id) && forall i :: 0 <= i < |more| ==> !Reports(more[i], id)
    ensures !ReportedIn(tail + more, id)
  {
    forall i | 0 <= i < |tail + more| ensures !Reports((tail + more)[i], id) {
      if i < |tail| { assert !Reports(tail[i], id); }
    }
  }

  /** Every claim but `but` looks as the log says; none is missing that was reported or was not being deleted. */
  ghost predicate FollowsLog(a: map<Key, Claim>, b: map<Key, Claim>, tail: seq<Event>, but: Option<Key>) {
    && WellKeyed(b)
    && (forall k :: k in b ==> k in a && (Some(k) != but ==> View(b[k]) == Effect(tail, k, View(a[k]))))
    && (forall k :: ReportedIn(tail, k) ==> k in a)
    && (forall k :: k in a && Some(k) != but && (!a[k].terminating || ReportedIn(tail, k)) ==>
        k in b && !b[k].terminating)
  }

  /** All claims of `start` are there, but perhaps one. */
  ghost predicate AtMostOneMissing(start: set<Key>, moment: set<Key>) {
    exists id :: start - {id} <= moment
  }

  ghost predicate Conserved(start: set<Key>, moments: seq<set<Key>>, from: nat) {
    forall i :: from <= i < |moments| ==> AtMostOneMissing(start, moments[i])
  }

  /** The log accounts for all claims that are there, and for all that are not. */
  ghost predicate Accounted(a: map<Key, Claim>, b: map<Key, Claim>, tail: seq<Event>) {
    forall k :: LiveIn(b, k) == LiveAfter(tail, k, LiveIn(a, k))
  }

  lemma AccountedLonger(a0: map<Key, Claim>, a1: map<Key, Claim>, a2: map<Key, Claim>,
                        e0: seq<Event>, e1: seq<Event>, e2: seq<Event>, plan: string, id: Key)
    requires e0 <= e1 && Accounted(a0, a1, e1[|e0|..])
    requires OtherClaimsKept(a1, a2, id) && IsAsLogged(a1, a2, e1, e2, id) && GrewByRestoring(e1, e2, plan, id)
    ensures Accounted(a0, a2, e2[|e0|..])
  {
    forall k ensures LiveIn(a2, k) == LiveAfter(e2[|e0|..], k, LiveIn(a0, k)) {
      assert LiveIn(a1, k) == LiveAfter(e1[|e0|..], k, LiveIn(a0, k));
      if k != id { NoEffect(a1, a2, e1, e2, k); }
      LoggedTransitively(a0, a1, a2, e0, e1, e2, k);
    }
  }

  /** Where a restore stands, seen from its start: the claims, the log and the moments in between. */
  ghost predicate Restoring(a0: map<Key, Claim>, e0: seq<Event>, m0: seq<set<Key>>,
                            a1: map<Key, Claim>, e1: seq<Event>, m1: seq<set<Key>>, but: Option<Key>) {
    && e0 <= e1 && m0 <= m1
    && FollowsLog(a0, a1, e1[|e0|..], but)
    && Conserved(Live(a0), m1, |m0|)
    && Accounted(a0, a1, e1[|e0|..])
  }

  /** The log grew by these events only. */
  ghost predicate GrewBy(e0: seq<Event>, e1: seq<Event>, allowed: set<Event>) {
    e0 <= e1 && forall i :: |e0| <= i < |e1| ==> e1[i] in allowed
  }

  /** What restoring one reference may do and report. */
  function RefEvents(plan: string, namespace: string, ref: SnapshotRef): set<Event> {
    var id := Key(namespace, ref.pvcName);
    Touches(plan, id) + {ClaimRestored(plan, id, ref.snapshotName, ref.pvcStorageClass)}
  }

  /** What restoring a target, or all targets of a plan, may do and report: references to be
      skipped have no part in it. */
  function TargetEvents(plan: string, t: TargetStatus): set<Event> {
    set ref, e | ref in t.snapshotsRef && !ref.skipRestoringPVC && e in RefEvents(plan, t.namespace, ref) :: e
  }

  function PlanEvents(plan: string, ts: seq<TargetStatus>): set<Event> {
    set t, e | t in ts && e in TargetEvents(plan, t) :: e
  }

  /** The log reports that this snapshot was restored to its claim. */
  ghost predicate Reported(events: seq<Event>, lo: nat, plan: string, namespace: string, ref: SnapshotRef) {
    exists i :: lo <= i < |events|
      && events[i] == ClaimRestored(plan, Key(namespace, ref.pvcName), ref.snapshotName, ref.pvcStorageClass)
  }

  lemma OneMoreMoment(a0: map<Key, Claim>, a1: map<Key, Claim>, tail: seq<Event>,
                      m0: seq<set<Key>>, m1: seq<set<Key>>, m2: seq<set<Key>>, id: Key)
    requires FollowsLog(a0, a1, tail, None) && Conserved(Live(a0), m1, |m0|)
    requires m0 <= m1 <= m2 && OnlyMissing(Live(a1), m2, |m1|, id)
    ensures Conserved(Live(a0), m2, |m0|)
  {
    assert Live(a0) <= Live(a1);
    forall i | |m0| <= i < |m2| ensures AtMostOneMissing(Live(a0), m2[i]) {
      if i < |m1| { assert m2[i] == m1[i]; } else { assert Live(a0) - {id} <= m2[i]; }
    }
  }

  lemma FailedClaim(a0: map<Key, Claim>, e0: seq<Event>, m0: seq<set<Key>>,
                    a1: map<Key, Claim>, e1: seq<Event>, m1: seq<set<Key>>,
                    a2: map<Key, Claim>, e2: seq<Event>, m2: seq<set<Key>>, plan: string, id: Key)
    requires Restoring(a0, e0, m0, a1, e1, m1, None) && OtherClaimsKept(a1, a2, id) && WellKeyed(a2)
      && (id in a2 ==> id in a1)
    requires m1 <= m2 && OnlyMissing(Live(a1), m2, |m1|, id) && GrewByRestoring(e1, e2, plan, id)
    requires IsAsLogged(a1, a2, e1, e2, id)
    ensures Restoring(a0, e0, m0, a2, e2, m2, Some(id))
  {
    AccountedLonger(a0, a1, a2, e0, e1, e2, plan, id);
    OneMoreMoment(a0, a1, e1[|e0|..], m0, m1, m2, id);
    TouchesReportNothing(e0, e1, e2, plan, id);
    OneClaimFails(a0, a1, a2, e1[|e0|..], e2[|e1|..], id);
  }

  lemma TouchesReportNothing(e0: seq<Event>, e1: seq<Event>, e2: seq<Event>, plan: string, id: Key)
    requires e0 <= e1 && GrewByRestoring(e1, e2, plan, id)
    ensures e2[|e0|..] == e1[|e0|..] + e2[|e1|..]
    ensures forall i :: 0 <= i < |e2[|e1|..]| ==> !e2[|e1|..][i].ClaimRestored?
  {
    forall i | 0 <= i < |e2[|e1|..]| ensures !e2[|e1|..][i].ClaimRestored? { assert e2[|e1|..][i] == e2[|e1| + i]; }
  }

  lemma OneClaimFails(a0: map<Key, Claim>, a1: map<Key, Claim>, a2: map<Key, Claim>, tail: seq<Event>, more: seq<Event>,
          id: Key)
    requires FollowsLog(a0, a1, tail, None) && OtherClaimsKept(a1, a2, id) && WellKeyed(a2) && (id in a2 ==> id in a1)
    requires forall i :: 0 <= i < |more| ==> !more[i].ClaimRestored?
    ensures FollowsLog(a0, a2, tail + more, Some(id))
  {
    forall k | k in a2 && k != id ensures View(a2[k]) == Effect(tail + more, k, View(a0[k])) {
      EffectOfTouches(tail, more, k, View(a0[k]));
    }
    forall k | !ReportedIn(tail, k) ensures !ReportedIn(tail + more, k) { NoNewReport(tail, more, k); }
    forall k | k in a0 && k != id && (!a0[k].terminating || ReportedIn(tail + more, k)) ensures LiveIn(a2, k) {
      assert k in a1 && !a1[k].terminating;
    }
  }

  lemma RestoredClaim(a0: map<Key, Claim>, e0: seq<Event>, m0: seq<set<Key>>, a1: map<Key, Claim>, e1: seq<Event>,
          m1: seq<set<Key>>, a2: map<Key, Claim>, mid: seq<Event>, m2: seq<set<Key>>, plan: string, id: Key,
          ref: SnapshotRef)
    requires Restoring(a0, e0, m0, a1, e1, m1, None) && OtherClaimsKept(a1, a2, id) && WellKeyed(a2) && id in a1
      && id in a2
    requires m1 <= m2 && OnlyMissing(Live(a1), m2, |m1|, id) && GrewByRestoring(e1, mid, plan, id)
    requires View(a2[id]) == Rebuilt(View(a1[id]), ref.snapshotName, ref.pvcStorageClass) && !a2[id].terminating
    requires IsAsLogged(a1, a2, e1, mid, id)
    ensures Restoring(a0, e0, m0, a2, mid + [ClaimRestored(plan, id, ref.snapshotName, ref.pvcStorageClass)], m2, None)
  {
    var report := ClaimRestored(plan, id, ref.snapshotName, ref.pvcStorageClass);
    FailedClaim(a0, e0, m0, a1, e1, m1, a2, mid, m2, plan, id);
    assert (mid + [report])[|e0|..] == mid[|e0|..] + [report];
    TouchesHaveNoEffect(e0, e1, mid, plan, id, View(a0[id]));
    ReportFollows(a0, a2, mid[|e0|..], report);
    AccountedWithReport(a0, a2, mid[|e0|..], report);
  }

  lemma TouchesHaveNoEffect(e0: seq<Event>, e1: seq<Event>, e2: seq<Event>, plan: string, id: Key, v: ClaimView)
    requires e0 <= e1 && GrewByRestoring(e1, e2, plan, id)
    ensures Effect(e2[|e0|..], id, v) == Effect(e1[|e0|..], id, v)
  {
    var more := e2[|e1|..];
    assert e2[|e0|..] == e1[|e0|..] + more;
    forall i | 0 <= i < |more| ensures !more[i].ClaimRestored? { assert more[i] == e2[|e1| + i]; }
    EffectOfTouches(e1[|e0|..], more, id, v);
  }

  lemma ReportFollows(a0: map<Key, Claim>, a2: map<Key, Claim>, tail: seq<Event>, report: Event)
    requires report.ClaimRestored? && FollowsLog(a0, a2, tail, Some(report.id)) && report.id in a0
      && LiveIn(a2, report.id)
    requires View(a2[report.id]) == Rebuilt(Effect(tail, report.id, View(a0[report.id])), report.snapshot,
      report.storageClass)
    ensures FollowsLog(a0, a2, tail + [report], None)
  {
    forall k | k in a2 ensures View(a2[k]) == Effect(tail + [report], k, View(a0[k])) {
      EffectOfOne(tail, report, k, View(a0[k]));
    }
    forall k | k != report.id && !ReportedIn(tail, k) ensures !ReportedIn(tail + [report], k) {
      NoNewReport(tail, [report], k);
    }
  }

  lemma AccountedWithReport(a0: map<Key, Claim>, a2: map<Key, Claim>, tail: seq<Event>, report: Event)
    requires Accounted(a0, a2, tail) && report.ClaimRestored?
    ensures Accounted(a0, a2, tail + [report])
  {
    forall k ensures LiveAfter(tail + [report], k, LiveIn(a0, k)) == LiveAfter(tail, k, LiveIn(a0, k)) {
      LiveAfterOne(tail, report, k, LiveIn(a0, k));
    }
  }

  // ---------------------------------------------------------------- the claims of one plan

  lemma ReportedStays(events: seq<Event>, lo: nat, plan: string, namespace: string, ref: SnapshotRef, later: seq<Event>,
          lo': nat)
    requires Reported(events, lo, plan, namespace, ref) && events <= later && lo' <= lo
    ensures Reported(later, lo', plan, namespace, ref)
  {
    var i :| lo <= i < |events|
      && events[i] == ClaimRestored(plan, Key(namespace, ref.pvcName), ref.snapshotName, ref.pvcStorageClass);
    assert later[i] == events[i];
  }

  /** The first `n` references of a target are restored or marked to be skipped. */
  ghost predicate RefsReported(events: seq<Event>, lo: nat, plan: string, t: TargetStatus, n: nat)
    requires n <= |t.snapshotsRef|
  {
    forall j :: 0 <= j < n && !t.snapshotsRef[j].skipRestoringPVC ==>
      Reported(events, lo, plan, t.namespace, t.snapshotsRef[j])
  }

  ghost predicate TargetsReported(events: seq<Event>, lo: nat, plan: string, ts: seq<TargetStatus>, n: nat)
    requires n <= |ts|
  {
    forall i :: 0 <= i < n ==> RefsReported(events, lo, plan, ts[i], |ts[i].snapshotsRef|)
  }

  ghost predicate AllReported(events: seq<Event>, lo: nat, plan: string, ts: seq<TargetStatus>) {
    TargetsReported(events, lo, plan, ts, |ts|)
  }

  lemma TargetsReportedStay(events: seq<Event>, lo: nat, plan: string, ts: seq<TargetStatus>, n: nat, later: seq<Event>,
          lo': nat)
    requires n <= |ts| && TargetsReported(events, lo, plan, ts, n) && events <= later && lo' <= lo
    ensures TargetsReported(later, lo', plan, ts, n)
  {
    forall i, j | 0 <= i < n && 0 <= j < |ts[i].snapshotsRef| && !ts[i].snapshotsRef[j].skipRestoringPVC
      ensures Reported(later, lo', plan, ts[i].namespace, ts[i].snapshotsRef[j])
    {
      ReportedStays(events, lo, plan, ts[i].namespace, ts[i].snapshotsRef[j], later, lo');
    }
  }

  lemma GrewByMore(e0: seq<Event>, e1: seq<Event>, e2: seq<Event>, allowed: set<Event>, more: set<Event>)
    requires GrewBy(e0, e1, allowed) && GrewBy(e1, e2, more) && more <= allowed
    ensures GrewBy(e0, e2, allowed)
  {
    forall i | |e0| <= i < |e2| ensures e2[i] in allowed {
      if i < |e1| { assert e2[i] == e1[i]; }
    }
  }

  lemma LoggedBefore(a: map<Key, Claim>, b: map<Key, Claim>, e0: seq<Event>, mid: seq<Event>, report: Event, id: Key)
    requires IsAsLogged(a, b, e0, mid + [report], id) && e0 <= mid && report.ClaimRestored?
    ensures IsAsLogged(a, b, e0, mid, id)
  {
    assert (mid + [report])[|e0|..] == mid[|e0|..] + [report];
    LiveAfterOne(mid[|e0|..], report, id, LiveIn(a, id));
  }

  /** Restores one reference, seen from the start of the whole restore. */
  method RestoreRef(c: Cluster, ghost plan: string, namespace: string, ref: SnapshotRef,
                    ghost a0: map<Key, Claim>, ghost e0: seq<Event>, ghost m0: seq<set<Key>>)
    returns (r: Result<()>)
    requires WellKeyed(c.claims) && Restoring(a0, e0, m0, c.claims, c.events, c.liveClaims, None)
    modifies c`claims, c`volumes, c`liveClaims, c`events, c`nextUid
    ensures r.Ok? ==>
      && Restoring(a0, e0, m0, c.claims, c.events, c.liveClaims, None)
      && Reported(c.events, |old(c.events)|, plan, namespace, ref)
    ensures r.Err? ==> Restoring(a0, e0, m0, c.claims, c.events, c.liveClaims, Some(Key(namespace, ref.pvcName)))
    ensures GrewBy(old(c.events), c.events, RefEvents(plan, namespace, ref))
  {
    ghost var id := Key(namespace, ref.pvcName);
    ghost var a1, e1, m1 := c.claims, c.events, c.liveClaims;
    r := RestorePVC(c, plan, namespace, ref);
    if r.Err? {
      FailedClaim(a0, e0, m0, a1, e1, m1, c.claims, c.events, c.liveClaims, plan, id);
    } else {
      ghost var mid :| GrewByRestoring(e1, mid, plan, id)
        && c.events == mid + [ClaimRestored(plan, id, ref.snapshotName, ref.pvcStorageClass)];
      LoggedBefore(a1, c.claims, e1, mid, ClaimRestored(plan, id, ref.snapshotName, ref.pvcStorageClass), id);
      RestoredClaim(a0, e0, m0, a1, e1, m1, c.claims, mid, c.liveClaims, plan, id, ref);
      assert c.events[|mid|] == ClaimRestored(plan, id, ref.snapshotName, ref.pvcStorageClass);
    }
  }

  /** The inner loop: the references of one target, the skipped ones left alone. */
  method RestoreTarget(c: Cluster, ghost plan: string, t: TargetStatus,
                       ghost a0: map<Key, Claim>, ghost e0: seq<Event>, ghost m0: seq<set<Key>>)
    returns (r: Result<()>, ghost but: Option<Key>)
    requires WellKeyed(c.claims) && Restoring(a0, e0, m0, c.claims, c.events, c.liveClaims, None)
    modifies c`claims, c`volumes, c`liveClaims, c`events, c`nextUid
    ensures Restoring(a0, e0, m0, c.claims, c.events, c.liveClaims, but) && (r.Ok? ==> but.None?)
    ensures r.Ok? ==> RefsReported(c.events, |old(c.events)|, plan, t, |t.snapshotsRef|)
    ensures GrewBy(old(c.events), c.events, TargetEvents(plan, t))
  {
    for j := 0 to |t.snapshotsRef|
      invariant Restoring(a0, e0, m0, c.claims, c.events, c.liveClaims, None)
      invariant RefsReported(c.events, |old(c.events)|, plan, t, j)
      invariant GrewBy(old(c.events), c.events, TargetEvents(plan, t))
    {
      var snap := t.snapshotsRef[j];
      if snap.skipRestoringPVC {
        continue;
      }
      ghost var e1 := c.events;
      r := RestoreRef(c, plan, t.namespace, snap, a0, e0, m0);
      assert snap in t.snapshotsRef;
      GrewByMore(old(c.events), e1, c.events, TargetEvents(plan, t), RefEvents(plan, t.namespace, snap));
      if r.Err? { return r, Some(Key(t.namespace, snap.pvcName)); }
      forall k | 0 <= k < j + 1 && !t.snapshotsRef[k].skipRestoringPVC
        ensures Reported(c.events, |old(c.events)|, plan, t.namespace, t.snapshotsRef[k])
      {
        if k < j {
          ReportedStays(e1, |old(c.events)|, plan, t.namespace, t.snapshotsRef[k], c.events, |old(c.events)|);
        }
        else { ReportedStays(c.events, |e1|, plan, t.namespace, snap, c.events, |old(c.events)|); }
      }
    }
    return Ok(()), None;
  }

  /** The entries of the first `n` targets marked restored. */
  ghost predicate RestoredUpTo(a: seq<TargetStatus>, b: seq<TargetStatus>, n: nat) {
    && |a| == |b| && n <= |a|
    && (forall i :: 0 <= i < n ==> b[i] == a[i].(phase := Restored))
    && (forall i :: n <= i < |a| ==> b[i] == a[i])
  }

  /** The entries before one marked restored, that one marked failed, those behind it as they were. */
  ghost predicate StoppedAtOne(a: seq<TargetStatus>, b: seq<TargetStatus>, e: Error) {
    exists k :: 0 <= k < |a| == |b| && RestoredUpTo(a, b[k := a[k]], k)
      && b[k] == a[k].(phase := Failed, error := e.Text())
  }

  lemma StoppedIsSame(a: seq<TargetStatus>, b: seq<TargetStatus>, e: Error)
    requires StoppedAtOne(a, b, e)
    ensures SameTargets(a, b) && NamesFailure(b, e)
  {
    var k :| 0 <= k < |a| == |b| && RestoredUpTo(a, b[k := a[k]], k)
      && b[k] == a[k].(phase := Failed, error := e.Text());
    RestoredEntriesSame(a, b, k, k, e.Text());
  }

  /** The loop over the targets of a plan; `clusters` takes what is to be recorded. */
  method RestoreTargets(c: Cluster, ghost plan: string, ts: seq<TargetStatus>, clusters: array<TargetStatus>,
                        ghost a0: map<Key, Claim>, ghost e0: seq<Event>, ghost m0: seq<set<Key>>)
    returns (r: Result<()>, ghost but: Option<Key>)
    requires clusters[..] == ts
    requires WellKeyed(c.claims) && Restoring(a0, e0, m0, c.claims, c.events, c.liveClaims, None)
    modifies c`claims, c`volumes, c`liveClaims, c`events, c`nextUid, clusters
    ensures Restoring(a0, e0, m0, c.claims, c.events, c.liveClaims, but) && (r.Ok? ==> but.None?)
    ensures r.Ok? ==> AllReported(c.events, |old(c.events)|, plan, ts) && RestoredUpTo(ts, clusters[..], |ts|)
    ensures r.Err? ==> StoppedAtOne(ts, clusters[..], r.error)
    ensures GrewBy(old(c.events), c.events, PlanEvents(plan, ts))
  {
    for i := 0 to |ts|
      invariant Restoring(a0, e0, m0, c.claims, c.events, c.liveClaims, None)
      invariant TargetsReported(c.events, |old(c.events)|, plan, ts, i)
      invariant RestoredUpTo(ts, clusters[..], i)
      invariant GrewBy(old(c.events), c.events, PlanEvents(plan, ts))
    {
      ghost var e1 := c.events;
      r, but := RestoreTarget(c, plan, ts[i], a0, e0, m0);
      assert ts[i] in ts;
      GrewByMore(old(c.events), e1, c.events, PlanEvents(plan, ts), TargetEvents(plan, ts[i]));
      if r.Err? {
        clusters[i] := clusters[i].(phase := Failed);
        clusters[i] := clusters[i].(error := r.error.Text());
        assert RestoredUpTo(ts, clusters[..][i := ts[i]], i);
        return;
      }
      clusters[i] := clusters[i].(phase := Restored);
      TargetsReportedStay(e1, |old(c.events)|, plan, ts, i, c.events, |old(c.events)|);
      TargetsReportedStay(c.events, |e1|, plan, [ts[i]], 1, c.events, |old(c.events)|);
      assert RefsReported(c.events, |old(c.events)|, plan, [ts[i]][0], |ts[i].snapshotsRef|);
    }
    return Ok(()), None;
  }

  // ---------------------------------------------------------------- plans

  /** A plan that is locked and still in the spec is not restored again. */
  predicate SkipsRestore(spec: Spec, name: string, p: PlanStatus) {
    name in spec && p.lock
  }

  /** All that restoring changes about a plan: the progress of its clusters, and the lock. */
  ghost predicate PlanRestored(a: PlanStatus, b: PlanStatus) {
    b == a.(clusters := b.clusters, lock := b.lock) && SameTargets(a.clusters, b.clusters)
  }

  ghost predicate OnePlanRestored(s0: Status, s1: Status, name: string) {
    && s1.plans.Keys == s0.plans.Keys
    && (forall q :: q != name ==> PlanOf(s1, q) == PlanOf(s0, q))
    && PlanRestored(PlanOf(s0, name), PlanOf(s1, name))
  }

  /** None of these plans is in the status but no longer in the spec. */
  predicate NoneStale(spec: Spec, st: Status, plans: set<string>) {
    forall p :: p in plans && p in st.plans ==> p in spec
  }

  /** Restoring moves stages legally for every plan of the spec: only unlocked ones are touched. */
  ghost predicate RestoresInOrder(spec: Spec, h0: seq<Status>, s0: Status, h1: seq<Status>, s1: Status) {
    && Quiet(h0, s0, h1, s1)
    && forall plans {:trigger Orderly(h1, s1, plans)} ::
      NoneStale(spec, s0, plans) && Orderly(h0, s0, plans) ==> Orderly(h1, s1, plans)
  }

  lemma RestoreStep(a: PlanStatus, b: PlanStatus)
    requires PlanRestored(a, b) && Staged(a) && !a.lock
    ensures Staged(b) && PlanStep(a, b)
  {
  }

  lemma RestoredEntriesSame(a: seq<TargetStatus>, b: seq<TargetStatus>, n: nat, k: nat, error: string)
    requires k < |a| == |b| && RestoredUpTo(a, b[k := a[k]], n) && b[k] == a[k].(phase := Failed, error := error)
    ensures SameTargets(a, b)
  {
    forall i | 0 <= i < |a| ensures SameEntry(a[i], b[i]) {
      if i != k { assert b[k := a[k]][i] == b[i]; }
    }
  }

  /** What a failed restore records: the clusters' progress, the plan unlocked, and the phase. */
  method RecordRestoreFailure(c: Cluster, obj: RestoreObject, name: string, clusters: seq<TargetStatus>,
          operators: seq<TargetStatus>)
    returns (r: Result<()>)
    requires SameButHooks(c.status, obj.status) && name in c.status.plans
    requires SameTargets(c.status.plans[name].clusters, clusters) && operators == c.status.plans[name].operators
    requires !SkipsRestore(obj.spec, name, c.status.plans[name])
    modifies obj`status, c`status, c`history, c`lostWrites
    ensures OnePlanRestored(old(c.status), c.status, name)
    ensures PlanOf(c.status, name).lock ==> PlanOf(old(c.status), name).lock
    ensures RestoresInOrder(obj.spec, old(c.history), old(c.status), c.history, c.status)
    ensures r.Ok? ==>
      c.status.phase == Failed
        && PlanOf(c.status, name) == PlanOf(WithRestored(old(c.status), name, false, clusters, operators), name)
    ensures c.lostWrites == old(c.lostWrites) + if r.Ok? then 0 else 1
  {
    ghost var h0, s0 := c.history, c.status;
    r := SetRestoreFromPlan(c, obj, name, false, clusters, operators);
    forall plans | NoneStale(obj.spec, s0, plans) && Orderly(h0, s0, plans)
      ensures Orderly(c.history, c.status, plans)
    {
      if name in plans {
        RestoreStep(PlanOf(s0, name), PlanOf(WithRestored(s0, name, false, clusters, operators), name));
      }
    }
    if r.Err? { return; }
    r := SetPhase(c, obj, Failed);
  }

  /** What a restore that went through records: the clusters restored, and the plan locked. */
  method RecordRestored(c: Cluster, obj: RestoreObject, name: string, clusters: seq<TargetStatus>,
          operators: seq<TargetStatus>)
    returns (r: Result<()>)
    requires SameButHooks(c.status, obj.status) && name in c.status.plans
    requires SameTargets(c.status.plans[name].clusters, clusters) && operators == c.status.plans[name].operators
    requires !SkipsRestore(obj.spec, name, c.status.plans[name])
    modifies obj`status, c`status, c`history, c`lostWrites
    ensures OnePlanRestored(old(c.status), c.status, name)
    ensures RestoresInOrder(obj.spec, old(c.history), old(c.status), c.history, c.status)
    ensures r.Ok? ==>
      && c.status == WithRestored(old(c.status), name, true, clusters, operators) && SameButHooks(c.status, obj.status)
      && (old(c.status == obj.status) ==> c.status == obj.status)
    ensures c.lostWrites == old(c.lostWrites) + if r.Ok? then 0 else 1
  {
    ghost var h0, s0 := c.history, c.status;
    r := SetRestoreFromPlan(c, obj, name, true, clusters, operators);
    forall plans | NoneStale(obj.spec, s0, plans) && Orderly(h0, s0, plans)
      ensures Orderly(c.history, c.status, plans)
    {
      if name in plans {
        RestoreStep(PlanOf(s0, name), PlanOf(WithRestored(s0, name, true, clusters, operators), name));
      }
    }
  }

  /** One iteration for a plan that is not skipped, with the entry the range yielded. */
  method RestorePlanClaims(c: Cluster, obj: RestoreObject, name: string, planStatus: PlanStatus,
                           ghost a0: map<Key, Claim>, ghost e0: seq<Event>, ghost m0: seq<set<Key>>)
    returns (r: Result<()>, ghost but: Option<Key>)
    requires SameButHooks(c.status, obj.status) && name in c.status.plans
    requires SamePlanButHooks(c.status.plans[name], planStatus) && !SkipsRestore(obj.spec, name, planStatus)
    requires WellKeyed(c.claims) && Restoring(a0, e0, m0, c.claims, c.events, c.liveClaims, None)
    modifies obj`status, c`status, c`history, c`lostWrites, c`claims, c`volumes, c`liveClaims, c`events, c`nextUid
    ensures Restoring(a0, e0, m0, c.claims, c.events, c.liveClaims, but) && (r.Ok? ==> but.None?)
    ensures GrewBy(old(c.events), c.events, PlanEvents(name, planStatus.clusters))
    ensures OnePlanRestored(old(c.status), c.status, name)
    ensures RestoresInOrder(obj.spec, old(c.history), old(c.status), c.history, c.status)
    ensures PlanOf(c.status, name).lock && !PlanOf(old(c.status), name).lock ==>
      AllReported(c.events, |old(c.events)|, name, planStatus.clusters)
    ensures r.Ok? ==>
      && SameButHooks(c.status, obj.status) && c.status.phase == old(c.status.phase)
      && (old(c.status == obj.status) ==> c.status == obj.status)
      && c.lostWrites == old(c.lostWrites)
      && PlanOf(c.status, name).lock && AllReported(c.events, |old(c.events)|, name, planStatus.clusters)
      && c.status.activePlan == old(c.status.activePlan)
    ensures r.Err? ==>
      || c.lostWrites > old(c.lostWrites)
      || (c.status.phase == Failed && FailureIsNamed(PlanOf(c.status, name), r.error))
  {
    var ts := planStatus.clusters;
    var clusters := new TargetStatus[|ts|](i requires 0 <= i < |ts| => ts[i]);
    assert clusters[..] == ts;
    r, but := RestoreTargets(c, name, ts, clusters, a0, e0, m0);
    if r.Err? {
      StoppedIsSame(ts, clusters[..], r.error);
      var recorded := RecordRestoreFailure(c, obj, name, clusters[..], planStatus.operators);
      if recorded.Err? { r := recorded; }
      return;
    }
    assert SameTargets(ts, clusters[..]);
    r := RecordRestored(c, obj, name, clusters[..], planStatus.operators);
  }

  /** The plans whose claims a restore may touch: the unlocked ones, and those no longer in the spec. */
  function ToRestore(spec: Spec, st: Status): set<string> {
    set p | p in st.plans && !SkipsRestore(spec, p, st.plans[p])
  }

  /** What restoring all these plans may do and report. */
  function RestoreEvents(spec: Spec, st: Status): set<Event> {
    set p, x | p in ToRestore(spec, st) && x in PlanEvents(p, st.plans[p].clusters) :: x
  }

  /** Every plan as restoring may leave it, at any point. A plan turns locked only once all is restored. */
  ghost predicate PlansRestored(spec: Spec, e0: seq<Event>, s0: Status, e1: seq<Event>, s1: Status) {
    && s1.plans.Keys == s0.plans.Keys
    && (forall p :: p in s0.plans ==> PlanRestored(s0.plans[p], s1.plans[p]))
    && (forall p :: p in s0.plans && SkipsRestore(spec, p, s0.plans[p]) ==> s1.plans[p] == s0.plans[p])
    && (forall p :: p in s0.plans && s1.plans[p].lock && !s0.plans[p].lock ==>
         AllReported(e1, |e0|, p, s0.plans[p].clusters))
    && GrewBy(e0, e1, RestoreEvents(spec, s0))
  }

  /** The plan is locked now, and either was before or has had all its claims restored. */
  ghost predicate RestoreDone(spec: Spec, events: seq<Event>, lo: nat, p: string, a: PlanStatus, b: PlanStatus) {
    b.lock && (SkipsRestore(spec, p, a) || AllReported(events, lo, p, a.clusters))
  }

  ghost predicate RestoredFrom(spec: Spec, e0: seq<Event>, h0: seq<Status>, s0: Status,
                               e1: seq<Event>, h1: seq<Status>, s1: Status, done: set<string>) {
    && PlansRestored(spec, e0, s0, e1, s1) && RestoresInOrder(spec, h0, s0, h1, s1) && s1.phase == s0.phase
    && (forall p :: p in s0.plans && p !in done ==> s1.plans[p] == s0.plans[p])
    && (forall p :: p in done ==> p in s0.plans && RestoreDone(spec, e1, |e0|, p, s0.plans[p], s1.plans[p]))
  }

  lemma NothingRestoredYet(spec: Spec, e: seq<Event>, h: seq<Status>, s: Status)
    ensures RestoredFrom(spec, e, h, s, e, h, s, {})
  {
  }

  /** One iteration on one plan: announced, then skipped or restored. */
  method RestoreNext(c: Cluster, obj: RestoreObject, name: string, planStatus: PlanStatus,
                     ghost a0: map<Key, Claim>, ghost e0: seq<Event>, ghost m0: seq<set<Key>>)
    returns (r: Result<()>, ghost but: Option<Key>)
    requires SameButHooks(c.status, obj.status) && name in c.status.plans
      && SamePlanButHooks(c.status.plans[name], planStatus)
    requires WellKeyed(c.claims) && Restoring(a0, e0, m0, c.claims, c.events, c.liveClaims, None)
    modifies obj`status, c`status, c`history, c`lostWrites, c`claims, c`volumes, c`liveClaims, c`events, c`nextUid
    ensures Restoring(a0, e0, m0, c.claims, c.events, c.liveClaims, but) && (r.Ok? ==> but.None?)
    ensures SkipsRestore(obj.spec, name, planStatus) ==>
      c.events == old(c.events) && PlanOf(c.status, name) == old(PlanOf(c.status, name))
    ensures GrewBy(old(c.events), c.events, PlanEvents(name, planStatus.clusters))
    ensures OnePlanRestored(old(c.status), c.status, name)
    ensures RestoresInOrder(obj.spec, old(c.history), old(c.status), c.history, c.status)
    ensures PlanOf(c.status, name).lock && !PlanOf(old(c.status), name).lock ==>
      AllReported(c.events, |old(c.events)|, name, planStatus.clusters)
    ensures r.Ok? ==>
      && SameButHooks(c.status, obj.status) && c.status.phase == old(c.status.phase)
      && (old(c.status == obj.status) ==> c.status == obj.status)
      && c.lostWrites == old(c.lostWrites)
      && RestoreDone(obj.spec, c.events, |old(c.events)|, name, planStatus, PlanOf(c.status, name))
      && c.status.activePlan == name
    ensures r.Err? ==> c.lostWrites > old(c.lostWrites) || c.status.phase == Failed
  {
    ghost var h0, s0 := c.history, c.status;
    but := None;
    r := SetActivePlan(c, obj, name);
    if r.Err? { return; }
    ghost var h1, s1 := c.history, c.status;
    assert s1.plans[name] == s0.plans[name];
    if SkipsRestore(obj.spec, name, planStatus) {
      return;
    }
    r, but := RestorePlanClaims(c, obj, name, planStatus, a0, e0, m0);
    forall plans | NoneStale(obj.spec, s0, plans) && Orderly(h0, s0, plans)
      ensures Orderly(c.history, c.status, plans)
    {
      assert Orderly(h1, s1, plans);
    }
  }

  lemma OneMorePlansRestored(spec: Spec, e0: seq<Event>, s0: Status, e1: seq<Event>, s1: Status, e2: seq<Event>,
          s2: Status, p: string)
    requires PlansRestored(spec, e0, s0, e1, s1) && p in s0.plans && s1.plans[p] == s0.plans[p]
    requires GrewBy(e1, e2, PlanEvents(p, s0.plans[p].clusters)) && OnePlanRestored(s1, s2, p)
    requires SkipsRestore(spec, p, s0.plans[p]) ==> e2 == e1 && s2.plans[p] == s1.plans[p]
    requires s2.plans[p].lock && !s1.plans[p].lock ==> AllReported(e2, |e1|, p, s1.plans[p].clusters)
    ensures PlansRestored(spec, e0, s0, e2, s2)
    ensures forall q :: q in s0.plans && q != p ==> s2.plans[q] == s1.plans[q]
  {
    forall q | q in s0.plans && q != p ensures s2.plans[q] == s1.plans[q] {
      assert PlanOf(s2, q) == s2.plans[q] && PlanOf(s1, q) == s1.plans[q];
    }
    assert PlanOf(s2, p) == s2.plans[p] && PlanOf(s1, p) == s1.plans[p];
    if !SkipsRestore(spec, p, s0.plans[p]) {
      assert p in ToRestore(spec, s0);
      GrewByMore(e0, e1, e2, RestoreEvents(spec, s0), PlanEvents(p, s0.plans[p].clusters));
    }
    forall q | q in s0.plans && s2.plans[q].lock && !s0.plans[q].lock
      ensures AllReported(e2, |e0|, q, s0.plans[q].clusters)
    {
      if q == p {
        TargetsReportedStay(e2, |e1|, p, s0.plans[p].clusters, |s0.plans[p].clusters|, e2, |e0|);
      } else {
        TargetsReportedStay(e1, |e0|, q, s0.plans[q].clusters, |s0.plans[q].clusters|, e2, |e0|);
      }
    }
  }

  lemma OneMoreRestored(spec: Spec, e0: seq<Event>, h0: seq<Status>, s0: Status, e1: seq<Event>, h1: seq<Status>,
          s1: Status, e2: seq<Event>, h2: seq<Status>, s2: Status, done: set<string>, p: string)
    requires RestoredFrom(spec, e0, h0, s0, e1, h1, s1, done) && p in s0.plans && p !in done
    requires PlansRestored(spec, e0, s0, e2, s2) && RestoresInOrder(spec, h1, s1, h2, s2) && e1 <= e2
    requires forall q :: q in s0.plans && q != p ==> s2.plans[q] == s1.plans[q]
    requires s2.phase == s1.phase && RestoreDone(spec, e2, |e1|, p, s1.plans[p], s2.plans[p])
    ensures RestoredFrom(spec, e0, h0, s0, e2, h2, s2, done + {p})
  {
    forall q | q in done + {p} ensures RestoreDone(spec, e2, |e0|, q, s0.plans[q], s2.plans[q]) {
      var ts := s0.plans[q].clusters;
      if SkipsRestore(spec, q, s0.plans[q]) {
      } else if q == p {
        TargetsReportedStay(e2, |e1|, q, ts, |ts|, e2, |e0|);
      } else {
        TargetsReportedStay(e1, |e0|, q, ts, |ts|, e2, |e0|);
      }
    }
  }

  /** An iteration seen from the start of the loop, where the range took its entries. */
  method RestoreIteration(c: Cluster, obj: RestoreObject, name: string, plans: map<string, PlanStatus>,
                          ghost a0: map<Key, Claim>, ghost e0: seq<Event>, ghost m0: seq<set<Key>>,
                          ghost h0: seq<Status>, ghost s0: Status, ghost done: set<string>)
    returns (r: Result<()>, ghost but: Option<Key>)
    requires SameButHooks(c.status, obj.status)
    requires name in s0.plans && name in plans && SamePlanButHooks(s0.plans[name], plans[name]) && name !in done
    requires WellKeyed(c.claims) && Restoring(a0, e0, m0, c.claims, c.events, c.liveClaims, None)
    requires RestoredFrom(obj.spec, e0, h0, s0, c.events, c.history, c.status, done)
    modifies obj`status, c`status, c`history, c`lostWrites, c`claims, c`volumes, c`liveClaims, c`events, c`nextUid
    ensures Restoring(a0, e0, m0, c.claims, c.events, c.liveClaims, but) && (r.Ok? ==> but.None?)
    ensures PlansRestored(obj.spec, e0, s0, c.events, c.status)
      && RestoresInOrder(obj.spec, h0, s0, c.history, c.status)
    ensures r.Ok? ==>
      && SameButHooks(c.status, obj.status) && (old(c.status == obj.status) ==> c.status == obj.status)
      && c.lostWrites == old(c.lostWrites)
      && RestoredFrom(obj.spec, e0, h0, s0, c.events, c.history, c.status, done + {name})
    ensures r.Err? ==> c.lostWrites > old(c.lostWrites) || c.status.phase == Failed
  {
    ghost var e1, h1, s1 := c.events, c.history, c.status;
    r, but := RestoreNext(c, obj, name, plans[name], a0, e0, m0);
    OneMorePlansRestored(obj.spec, e0, s0, e1, s1, c.events, c.status, name);
    if r.Ok? {
      OneMoreRestored(obj.spec, e0, h0, s0, e1, h1, s1, c.events, c.history, c.status, done, name);
    }
  }

  method RestoreFromPlan(c: Cluster, obj: RestoreObject) returns (r: Result<()>, ghost but: Option<Key>)
    requires SameButHooks(c.status, obj.status) && WellKeyed(c.claims)
    modifies obj`status, c`status, c`history, c`lostWrites, c`claims, c`volumes, c`liveClaims, c`events, c`nextUid
    ensures Restoring(old(c.claims), old(c.events), old(c.liveClaims), c.claims, c.events, c.liveClaims, but)
    ensures r.Ok? ==> but.None?
    ensures PlansRestored(obj.spec, old(c.events), old(c.status), c.events, c.status)
    ensures RestoresInOrder(obj.spec, old(c.history), old(c.status), c.history, c.status)
    ensures r.Ok? ==>
      && SameButHooks(c.status, obj.status) && (old(c.status == obj.status) ==> c.status == obj.status)
      && c.lostWrites == old(c.lostWrites) && c.status.phase == old(c.status.phase)
      && forall p :: p in old(c.status).plans ==>
           RestoreDone(obj.spec, c.events, |old(c.events)|, p, old(c.status).plans[p], c.status.plans[p])
    ensures r.Err? ==> c.lostWrites > old(c.lostWrites) || c.status.phase == Failed
  {
    ghost var a0, e0, m0, h0, s0 := c.claims, c.events, c.liveClaims, c.history, c.status;
    var plans := obj.status.plans;
    var names := Enumerate(plans.Keys);
    ghost var done: set<string> := {};
    NothingRestoredYet(obj.spec, e0, h0, s0);
    for i := 0 to |names|
      invariant SameButHooks(c.status, obj.status) && (s0 == old(obj.status) ==> c.status == obj.status)
      invariant c.lostWrites == old(c.lostWrites)
      invariant Visited(names, done, i)
      invariant Restoring(a0, e0, m0, c.claims, c.events, c.liveClaims, None)
      invariant RestoredFrom(obj.spec, e0, h0, s0, c.events, c.history, c.status, done)
    {
      VisitNext(names, plans.Keys, done, i);
      assert SamePlanButHooks(s0.plans[names[i]], plans[names[i]]);
      r, but := RestoreIteration(c, obj, names[i], plans, a0, e0, m0, h0, s0, done);
      if r.Err? { return; }
      done := done + {names[i]};
    }
    AllVisited(names, plans.Keys, done);
    return Ok(()), None;
  }
}
