/**
 The cluster the operator talks to. Every API call may fail, and a failed write may or may not have
 taken effect; `if *` and `*` make those choices, so a contract proved here holds for all of them.
 Between two observations of a poll the rest of the cluster moves on, within the limits that the
 `MayBecome` predicates state.
 */
module Kube {
  import opened Api
  import opened Names

  // ---------------------------------------------------------------- objects

  datatype Strategy = RollingUpdate | OnDelete | OtherStrategy(name: string)

  datatype StsSpec = StsSpec(replicas: Option<int>, policy: PodPolicy, strategy: Strategy, template: string)

  datatype StsStatus = StsStatus(
    replicas: int, readyReplicas: int, updatedReplicas: int,
    currentRevision: string, updateRevision: string, observedGeneration: int)

  datatype StatefulSet = StatefulSet(spec: StsSpec, generation: int, status: StsStatus, terminating: bool)

  datatype DeploymentStatus = DeploymentStatus(
    replicas: int, readyReplicas: int, updatedReplicas: int, availableReplicas: int)

  datatype Deployment = Deployment(replicas: Option<int>, template: string, status: DeploymentStatus)

  datatype Meta = Meta(
    namespace: string,
    name: string,
    labels: Labels,
    annotations: Labels,
    resourceVersion: string,
    uid: nat,                      // 0 before the server has assigned one
    managedFields: seq<string>,
    creationTimestamp: int,
    finalizers: seq<string>,
    ownerReferences: seq<string>,
    generation: int)
  {
    function Id(): Key { Key(namespace, name) }
  }

  /** A PersistentVolumeClaim. */
  datatype Claim = Claim(
    meta: Meta,
    accessModes: seq<string>,
    storageClass: Option<string>,
    resources: string,
    volumeMode: string,
    dataSource: Option<string>,
    volumeName: string,
    bound: bool,
    terminating: bool)

  const NO_META := Meta("", "", map[], map[], "", 0, [], 0, [], [], 0)
  const NO_CLAIM := Claim(NO_META, [], None, "", "", None, "", false, false)

  datatype ClaimRef = ClaimRef(claim: Key, uid: nat)

  type ObjectName = s: string | s != "" witness "x"
  datatype Volume = Volume(name: ObjectName, claimRef: Option<ClaimRef>)

  datatype VolumeSnapshot = VolumeSnapshot(name: string, uid: string, labels: Labels, readyToUse: Option<bool>)

  /** `checksum` is the label `hook-checksum`. */
  datatype Job = Job(
    checksum: string, event: HookEvent, command: seq<string>, args: seq<string>,
    active: int, succeeded: int, failed: int)

  /** The ConfigMap of a hook; its two entries are lists stored as JSON, assumed to read back as written. */
  datatype HookConfig = HookConfig(command: seq<string>, args: seq<string>)

  // ---------------------------------------------------------------- events

  datatype Kind = OfStatefulSet | OfDeployment

  /** What the operator did or saw, in order. The observations at the top, and `ClaimRestored`, are not writes. */
  datatype Event =
    | AtZero(kind: Kind, id: Key)                     // replicas found or set to 0
    | SetSeen(id: Key, sts: StatefulSet)              // a poll saw the set so
    | DeploymentSeen(id: Key, deployment: Deployment) // a poll saw the Deployment so
    | AtLeast(kind: Kind, id: Key, replicas: int)     // replicas found at or set to the target
    | SetReplicas(kind: Kind, id: Key, replicas: int)
    | SetDeleted(id: Key)
    | SetCreated(id: Key)
    | ClaimDeleted(plan: string, id: Key, took: bool) // the call; `took`: it took effect, whatever the answer
    | ClaimCreated(plan: string, id: Key, took: bool)
    | ClaimPatched(plan: string, id: Key)
    | ClaimRestored(plan: string, id: Key, snapshot: string, storageClass: Option<string>) // every step succeeded
    | ConfigMapWritten(id: Key)
    | AccountCreated(id: Key)
    | JobCreated(plan: string, id: Key, event: HookEvent, mutable: bool, command: seq<string>, args: seq<string>)
    | JobSeen(id: Key, job: Job)                      // a poll saw the Job so

  /** What scaling does and sees. */
  predicate OnWorkloads(e: Event) {
    || e.AtZero? || e.AtLeast? || e.SetReplicas? || e.SetDeleted? || e.SetCreated?
    || e.SetSeen? || e.DeploymentSeen?
  }

  /** `now` is `before` with further events, all of them workload events. */
  ghost predicate GrewByScaling(before: seq<Event>, now: seq<Event>) {
    before <= now && forall i :: |before| <= i < |now| ==> OnWorkloads(now[i])
  }

  // ---------------------------------------------------------------- maps

  /** The maps agree on every key but `id`. */
  ghost predicate SameElsewhere<V>(a: map<Key, V>, b: map<Key, V>, id: Key) {
    forall k :: k != id ==> (k in a <==> k in b) && (k in a ==> b[k] == a[k])
  }

  // ---------------------------------------------------------------- what the cluster may do by itself

  /** The set's controller moves its status; a set marked for deletion may go. */
  predicate SetsMayBecome(a: map<Key, StatefulSet>, b: map<Key, StatefulSet>) {
    && (forall k :: k in b ==> k in a && b[k] == a[k].(status := b[k].status))
    && (forall k :: k in a && !a[k].terminating ==> k in b)
  }

  predicate DeploymentsMayBecome(a: map<Key, Deployment>, b: map<Key, Deployment>) {
    && b.Keys == a.Keys
    && (forall k :: k in a ==> b[k] == a[k].(status := b[k].status))
  }

  /** Everything the operator or a user decides about a claim, as opposed to what the cluster records on it. */
  datatype ClaimView = ClaimView(
    labels: Labels, annotations: Labels, accessModes: seq<string>, storageClass: Option<string>,
    resources: string, volumeMode: string, dataSource: Option<string>)

  function View(c: Claim): ClaimView {
    ClaimView(c.meta.labels, c.meta.annotations, c.accessModes, c.storageClass, c.resources, c.volumeMode, c.dataSource)
  }

  /** The names of the claims that are not being deleted. */
  function Live(claims: map<Key, Claim>): set<Key> {
    set k | k in claims && !claims[k].terminating
  }

  /** Every claim is stored under its own name. */
  predicate WellKeyed(claims: map<Key, Claim>) {
    forall k :: k in claims ==> claims[k].meta.Id() == k
  }

  predicate SameClaim(a: Claim, b: Claim) {
    && View(a) == View(b) && a.meta.Id() == b.meta.Id() && a.meta.uid == b.meta.uid
    && a.terminating == b.terminating
    && (a.volumeName != "" ==> b.volumeName == a.volumeName)
  }

  /** Claims are bound, a claim marked for deletion may go, and nothing else about them changes. */
  predicate ClaimsMayBecome(a: map<Key, Claim>, b: map<Key, Claim>) {
    && (forall k :: k in b ==> k in a && SameClaim(a[k], b[k]))
    && (forall k :: k in a && !a[k].terminating ==> k in b)
  }

  /** Jobs run and are cleaned up; the cluster creates none. */
  predicate JobsMayBecome(a: map<Key, Job>, b: map<Key, Job>) {
    forall k :: k in b ==>
      && k in a
      && b[k] == a[k].(active := b[k].active, succeeded := b[k].succeeded, failed := b[k].failed)
  }

  const WHEN := "snapscheduler.backube/when"

  predicate TakenAt(s: VolumeSnapshot, when: string) {
    when == "" || (WHEN in s.labels && s.labels[WHEN] == when)
  }

  // ---------------------------------------------------------------- lists

  ghost predicate Enumerates<T(!new)>(items: seq<T>, s: set<T>) {
    && (forall x :: x in s <==> x in items)
    && (forall i, j :: 0 <= i < j < |items| ==> items[i] != items[j])
  }

  /** The elements of a set in some order: list results and Go map ranges come in any order. */
  method Enumerate<T(==,!new)>(s: set<T>) returns (items: seq<T>)
    ensures Enumerates(items, s)
  {
    items := [];
    var rest := s;
    while rest != {}
      invariant rest <= s && Enumerates(items, s - rest)
      decreases |rest|
    {
      var x :| x in rest;
      items := items + [x];
      rest := rest - {x};
    }
    assert s - {} == s;
  }

  /** The first `n` names, as a set. */
  ghost predicate Visited(names: seq<string>, visited: set<string>, n: nat)
    requires n <= |names|
  {
    forall x :: x in visited <==> x in names[..n]
  }

  lemma VisitNext(names: seq<string>, s: set<string>, visited: set<string>, n: nat)
    requires n < |names| && Enumerates(names, s) && Visited(names, visited, n)
    ensures names[n] in s && names[n] !in visited && Visited(names, visited + {names[n]}, n + 1)
  {
    assert names[n] in names && names[..n + 1] == names[..n] + [names[n]];
  }

  lemma AllVisited(names: seq<string>, s: set<string>, visited: set<string>)
    requires Enumerates(names, s) && Visited(names, visited, |names|)
    ensures visited == s
  {
    assert names[..|names|] == names;
  }

  // ---------------------------------------------------------------- the custom resource, as fetched

  class RestoreObject {
    const namespace: string
    const spec: Spec
    var status: Status

    constructor (namespace: string, spec: Spec, status: Status)
      ensures this.namespace == namespace && this.spec == spec && this.status == status
    {
      this.namespace, this.spec, this.status := namespace, spec, status;
    }
  }

  // ---------------------------------------------------------------- the API server

  class Cluster {
    const selects: (Selector, Labels) -> bool
    const parses: Selector -> bool
    const scheme: Scheme

    var namespace: string
    var spec: Spec
    var status: Status

    var statefulSets: map<Key, StatefulSet>
    var deployments: map<Key, Deployment>
    var claims: map<Key, Claim>
    var volumes: set<Volume>
    var snapshots: map<Key, VolumeSnapshot>
    var nodes: map<string, Labels>
    var jobs: map<Key, Job>
    var configMaps: map<Key, HookConfig>
    var nextUid: nat

    ghost var events: seq<Event>
    ghost var liveClaims: seq<set<Key>>  // after every change to the claims, those not being deleted
    ghost var history: seq<Status>   // every value the stored status took, oldest first
    ghost var lostWrites: nat        // status writes that returned an error

    constructor (selects: (Selector, Labels) -> bool, parses: Selector -> bool, sha: Digest, spec: Spec)
      ensures this.selects == selects && this.parses == parses && scheme == SchemeOf(sha)
      ensures this.spec == spec && status == Status(Unset, "", map[]) && history == [status]
      ensures events == [] && lostWrites == 0 && configMaps == map[]
    {
      this.selects, this.parses, this.scheme, this.spec := selects, parses, SchemeOf(sha), spec;
      namespace := *;
      status := Status(Unset, "", map[]);
      statefulSets, deployments, claims, volumes, snapshots, nodes := *, *, *, *, *, *;
      jobs := *;
      configMaps := map[];
      nextUid := 1;
      events, liveClaims, history, lostWrites := [], [], [Status(Unset, "", map[])], 0;
    }

    /** The error of a call that failed for a reason of the server's own. */
    static method Fault() returns (e: Error)
      ensures e.Other?
    {
      var text: string := *;
      e := Other(text);
    }

    /** The custom resource as it is now. */
    method GetRestore() returns (r: Result<RestoreObject>)
      ensures r.Ok? ==> fresh(r.value)
      ensures r.Ok? ==> r.value.namespace == namespace && r.value.spec == spec && r.value.status == status
    {
      if * { var e := Fault(); return Err(e); }
      if * { return Err(NotFound); }
      var obj := new RestoreObject(namespace, spec, status);
      return Ok(obj);
    }

    /** Between two passes the user may edit the spec, and anything may happen to what hooks
        and the status do not hold. */
    method Between(spec: Spec)
      modifies this`spec, this`statefulSets, this`deployments, this`claims, this`volumes, this`snapshots, this`nodes,
        this`jobs, this`liveClaims
      ensures this.spec == spec && WellKeyed(claims)
    {
      this.spec := spec;
      statefulSets, deployments, snapshots, nodes, jobs := *, *, *, *, *;
      volumes := *;
      var c: map<Key, Claim> := *;
      claims := if WellKeyed(c) then c else map[];
      liveClaims := liveClaims + [Live(claims)];
    }

    // ---- StatefulSets

    method GetStatefulSet(id: Key) returns (r: Result<StatefulSet>)
      ensures r.Ok? ==> id in statefulSets && r.value == statefulSets[id]
      ensures r == Err(NotFound) ==> id !in statefulSets
    {
      if * { var e := Fault(); return Err(e); }
      if id !in statefulSets { return Err(NotFound); }
      return Ok(statefulSets[id]);
    }

    /** A merge patch of `spec.replicas` alone. */
    method PatchSetReplicas(id: Key, replicas: int) returns (r: Result<StatefulSet>)
      modifies this`statefulSets, this`events
      ensures events == old(events) + [SetReplicas(OfStatefulSet, id, replicas)]
      ensures r.Ok? ==> id in statefulSets && r.value == statefulSets[id]
      ensures r.Ok? ==> id in old(statefulSets) && statefulSets == Rescaled(old(statefulSets), id, replicas)
      ensures r.Err? ==> statefulSets == old(statefulSets)
                         || (id in old(statefulSets) && statefulSets == Rescaled(old(statefulSets), id, replicas))
    {
      events := events + [SetReplicas(OfStatefulSet, id, replicas)];
      if * { var e := Fault(); return Err(e); }
      if id !in statefulSets { return Err(NotFound); }
      statefulSets := Rescaled(statefulSets, id, replicas);
      if * { var e := Fault(); return Err(e); }
      return Ok(statefulSets[id]);
    }

    /** Deletion that orphans the pods: the set goes at once, or is marked and goes later. */
    method DeleteStatefulSet(id: Key) returns (r: Result<()>)
      modifies this`statefulSets, this`events
      ensures events == old(events) + [SetDeleted(id)]
      ensures r.Ok? ==> id !in statefulSets || statefulSets[id].terminating
      ensures SameElsewhere(old(statefulSets), statefulSets, id)
      ensures id in statefulSets ==> id in old(statefulSets) && statefulSets[id].spec == old(statefulSets)[id].spec
      ensures r.Err? ==> statefulSets == old(statefulSets) || id !in statefulSets || statefulSets[id].terminating
    {
      events := events + [SetDeleted(id)];
      if * { var e := Fault(); return Err(e); }
      if id !in statefulSets { return Err(NotFound); }
      if * {
        statefulSets := statefulSets - {id};
      } else {
        statefulSets := statefulSets[id := statefulSets[id].(terminating := true)];
      }
      if * { var e := Fault(); return Err(e); }
      return Ok(());
    }

    method CreateStatefulSet(id: Key, spec: StsSpec) returns (r: Result<()>)
      modifies this`statefulSets, this`events
      ensures events == old(events) + [SetCreated(id)]
      ensures SameElsewhere(old(statefulSets), statefulSets, id)
      ensures id in old(statefulSets) ==> statefulSets == old(statefulSets)
      ensures id !in old(statefulSets) && id in statefulSets ==>
        statefulSets[id].spec == spec && !statefulSets[id].terminating
      ensures r.Ok? ==> id !in old(statefulSets) && id in statefulSets
    {
      events := events + [SetCreated(id)];
      if * { var e := Fault(); return Err(e); }
      if id in statefulSets { return Err(AlreadyExists); }
      var status: StsStatus := *;
      statefulSets := statefulSets[id := StatefulSet(spec, 1, status, false)];
      if * { var e := Fault(); return Err(e); }
      return Ok(());
    }

    // ---- Deployments

    method GetDeployment(id: Key) returns (r: Result<Deployment>)
      ensures r.Ok? ==> id in deployments && r.value == deployments[id]
      ensures r == Err(NotFound) ==> id !in deployments
    {
      if * { var e := Fault(); return Err(e); }
      if id !in deployments { return Err(NotFound); }
      return Ok(deployments[id]);
    }

    method PatchDeploymentReplicas(id: Key, replicas: int) returns (r: Result<Deployment>)
      modifies this`deployments, this`events
      ensures events == old(events) + [SetReplicas(OfDeployment, id, replicas)]
      ensures r.Ok? ==> id in deployments && r.value == deployments[id]
      ensures r.Ok? ==> id in old(deployments) && deployments == Redeployed(old(deployments), id, replicas)
      ensures r.Err? ==> deployments == old(deployments)
                         || (id in old(deployments) && deployments == Redeployed(old(deployments), id, replicas))
    {
      events := events + [SetReplicas(OfDeployment, id, replicas)];
      if * { var e := Fault(); return Err(e); }
      if id !in deployments { return Err(NotFound); }
      deployments := Redeployed(deployments, id, replicas);
      if * { var e := Fault(); return Err(e); }
      return Ok(deployments[id]);
    }

    // What the log says of workloads and claims beyond the calls made is taken down here, and must be so.

    ghost method NoteSetAtZero(id: Key)
      requires id in statefulSets && statefulSets[id].spec.replicas == Some(0)
      modifies this`events
      ensures events == old(events) + [AtZero(OfStatefulSet, id)]
    {
      events := events + [AtZero(OfStatefulSet, id)];
    }

    ghost method NoteDeploymentAtZero(id: Key)
      requires id in deployments && deployments[id].replicas == Some(0)
      modifies this`events
      ensures events == old(events) + [AtZero(OfDeployment, id)]
    {
      events := events + [AtZero(OfDeployment, id)];
    }

    ghost method NoteSetAtLeast(id: Key, replicas: int)
      requires id in statefulSets && statefulSets[id].spec.replicas.Some?
      requires statefulSets[id].spec.replicas.value >= replicas
      modifies this`events
      ensures events == old(events) + [AtLeast(OfStatefulSet, id, replicas)]
    {
      events := events + [AtLeast(OfStatefulSet, id, replicas)];
    }

    ghost method NoteDeploymentAtLeast(id: Key, replicas: int)
      requires id in deployments && deployments[id].replicas.Some? && deployments[id].replicas.value >= replicas
      modifies this`events
      ensures events == old(events) + [AtLeast(OfDeployment, id, replicas)]
    {
      events := events + [AtLeast(OfDeployment, id, replicas)];
    }

    ghost method NoteRestored(plan: string, id: Key, snapshot: string, storageClass: Option<string>)
      requires id in claims && claims[id].bound && !claims[id].terminating
      requires claims[id].dataSource == Some(snapshot) && claims[id].storageClass == storageClass
      modifies this`events
      ensures events == old(events) + [ClaimRestored(plan, id, snapshot, storageClass)]
    {
      events := events + [ClaimRestored(plan, id, snapshot, storageClass)];
    }

    /** What a set looks like just now. */
    ghost method NoteSet(id: Key)
      requires id in statefulSets
      modifies this`events
      ensures events == old(events) + [SetSeen(id, statefulSets[id])]
    {
      events := events + [SetSeen(id, statefulSets[id])];
    }

    ghost method NoteDeployment(id: Key)
      requires id in deployments
      modifies this`events
      ensures events == old(events) + [DeploymentSeen(id, deployments[id])]
    {
      events := events + [DeploymentSeen(id, deployments[id])];
    }

    /** Time passes for the workloads. */
    method WorkloadsMove()
      modifies this`statefulSets, this`deployments
      ensures SetsMayBecome(old(statefulSets), statefulSets)
      ensures DeploymentsMayBecome(old(deployments), deployments)
    {
      var s: map<Key, StatefulSet> := *;
      var d: map<Key, Deployment> := *;
      if SetsMayBecome(statefulSets, s) && DeploymentsMayBecome(deployments, d) {
        statefulSets, deployments := s, d;
      }
    }

    // ---- claims, volumes, snapshots

    method GetClaim(id: Key) returns (r: Result<Claim>)
      ensures r.Ok? ==> id in claims && r.value == claims[id]
      ensures r == Err(NotFound) ==> id !in claims
    {
      if * { var e := Fault(); return Err(e); }
      if id !in claims { return Err(NotFound); }
      return Ok(claims[id]);
    }

    /** The claim goes at once, or is marked and goes when its finalizer is done. */
    method DeleteClaim(ghost plan: string, id: Key) returns (r: Result<()>, ghost took: bool)
      modifies this`claims, this`events, this`liveClaims
      ensures events == old(events) + [ClaimDeleted(plan, id, took)]
      ensures liveClaims == old(liveClaims) + [Live(claims)]
      ensures SameElsewhere(old(claims), claims, id)
      ensures id in claims ==>
        id in old(claims) && claims[id] == old(claims)[id].(terminating := claims[id].terminating)
      ensures if took then id in claims ==> claims[id].terminating else claims == old(claims)
    {
      events := events + [ClaimDeleted(plan, id, false)];
      liveClaims := liveClaims + [Live(claims)];
      if * { var e := Fault(); return Err(e), false; }
      if id !in claims { return Err(NotFound), false; }
      if * {
        claims := claims - {id};
      } else {
        claims := claims[id := claims[id].(terminating := true)];
      }
      took := true;
      events := events[|events| - 1 := ClaimDeleted(plan, id, true)];
      liveClaims := liveClaims[|liveClaims| - 1 := Live(claims)];
      if * { var e := Fault(); return Err(e), took; }
      return Ok(()), took;
    }

    /** A claim without a name is refused. */
    method CreateClaim(ghost plan: string, claim: Claim) returns (r: Result<Claim>, ghost took: bool)
      modifies this`claims, this`events, this`liveClaims, this`nextUid
      ensures events == old(events) + [ClaimCreated(plan, claim.meta.Id(), took)]
      ensures liveClaims == old(liveClaims) + [Live(claims)]
      ensures !took ==> claims == old(claims)
      ensures took ==>
        && claim.meta.Id() !in old(claims)
        && claims == old(claims)[claim.meta.Id() := claim.(meta := claim.meta.(uid := old(nextUid)))]
      ensures claim.meta.name == "" ==> r.Err? && !took
      ensures r.Ok? ==> took && r.value == claim.(meta := claim.meta.(uid := old(nextUid)))
    {
      var id := claim.meta.Id();
      events := events + [ClaimCreated(plan, id, false)];
      liveClaims := liveClaims + [Live(claims)];
      if * { var e := Fault(); return Err(e), false; }
      if claim.meta.name == "" { return Err(Other("resource name may not be empty")), false; }
      if id in claims { return Err(AlreadyExists), false; }
      var created := claim.(meta := claim.meta.(uid := nextUid));
      claims := claims[id := created];
      took := true;
      events := events[|events| - 1 := ClaimCreated(plan, id, true)];
      liveClaims := liveClaims[|liveClaims| - 1 := Live(claims)];
      nextUid := nextUid + 1;
      if * { var e := Fault(); return Err(e), took; }
      return Ok(created), took;
    }

    /** A merge patch of `spec.volumeName` alone. */
    method PatchClaimVolume(ghost plan: string, id: Key, volumeName: string) returns (r: Result<()>)
      modifies this`claims, this`events
      ensures events == old(events) + [ClaimPatched(plan, id)]
      ensures claims == old(claims)
        || (id in old(claims) && claims == old(claims)[id := old(claims)[id].(volumeName := volumeName)])
      ensures r.Ok? ==> id in claims && claims == old(claims)[id := old(claims)[id].(volumeName := volumeName)]
    {
      events := events + [ClaimPatched(plan, id)];
      if * { var e := Fault(); return Err(e); }
      if id !in claims { return Err(NotFound); }
      claims := claims[id := claims[id].(volumeName := volumeName)];
      if * { var e := Fault(); return Err(e); }
      return Ok(());
    }

    method ListClaims(namespace: string, selector: Selector) returns (r: Result<seq<Claim>>)
      ensures r.Ok? ==> exists ids: seq<Key> ::
        && Enumerates(ids, set k | k in claims && k.namespace == namespace && selects(selector, claims[k].meta.labels))
        && |r.value| == |ids|
        && forall i :: 0 <= i < |ids| ==> ids[i] in claims && r.value[i] == claims[ids[i]]
    {
      if * { var e := Fault(); return Err(e); }
      var found := set k | k in claims && k.namespace == namespace && selects(selector, claims[k].meta.labels);
      var ids := Enumerate(found);
      var items := [];
      for n := 0 to |ids|
        invariant |items| == n && forall i :: 0 <= i < n ==> ids[i] in claims && items[i] == claims[ids[i]]
      {
        assert ids[n] in found;
        items := items + [claims[ids[n]]];
      }
      return Ok(items);
    }

    method ListVolumes() returns (r: Result<seq<Volume>>)
      ensures r.Ok? ==> Enumerates(r.value, volumes)
    {
      if * { var e := Fault(); return Err(e); }
      var items := Enumerate(volumes);
      return Ok(items);
    }

    /** Time passes for the claims and the volumes provisioned for them. */
    method StorageMoves()
      modifies this`claims, this`volumes, this`liveClaims
      ensures ClaimsMayBecome(old(claims), claims)
      ensures liveClaims == old(liveClaims) + [Live(claims)]
      ensures old(volumes) <= volumes
    {
      var c: map<Key, Claim> := *;
      var v: set<Volume> := *;
      if ClaimsMayBecome(claims, c) && volumes <= v {
        claims, volumes := c, v;
      }
      liveClaims := liveClaims + [Live(claims)];
    }

    /** Snapshots of a namespace, all of them or those labelled as taken at `when`. */
    method ListSnapshots(namespace: string, when: string) returns (r: Result<seq<VolumeSnapshot>>)
      ensures r.Ok? ==> exists ids: seq<Key> ::
        && Enumerates(ids, set k | k in snapshots && k.namespace == namespace && TakenAt(snapshots[k], when))
        && |r.value| == |ids|
        && forall i :: 0 <= i < |ids| ==> ids[i] in snapshots && r.value[i] == snapshots[ids[i]].(name := ids[i].name)
    {
      if * { var e := Fault(); return Err(e); }
      var found := set k | k in snapshots && k.namespace == namespace && TakenAt(snapshots[k], when);
      var ids := Enumerate(found);
      var items := [];
      for n := 0 to |ids|
        invariant |items| == n
        invariant forall i :: 0 <= i < n ==> ids[i] in snapshots && items[i] == snapshots[ids[i]].(name := ids[i].name)
      {
        assert ids[n] in found;
        items := items + [snapshots[ids[n]].(name := ids[n].name)];
      }
      return Ok(items);
    }

    method ListNodes(selector: Selector) returns (r: Result<seq<string>>)
      ensures r.Ok? ==> Enumerates(r.value, set n | n in nodes && selects(selector, nodes[n]))
    {
      if * { var e := Fault(); return Err(e); }
      var names := Enumerate(set n | n in nodes && selects(selector, nodes[n]));
      return Ok(names);
    }

    // ---- ConfigMaps, ServiceAccounts and Jobs of hooks

    method GetConfigMap(id: Key) returns (r: Result<HookConfig>)
      ensures r.Ok? ==> id in configMaps && r.value == configMaps[id]
      ensures r == Err(NotFound) ==> id !in configMaps
    {
      if * { var e := Fault(); return Err(e); }
      if id !in configMaps { return Err(NotFound); }
      return Ok(configMaps[id]);
    }

    method CreateConfigMap(id: Key, data: HookConfig) returns (r: Result<()>)
      modifies this`configMaps, this`events
      ensures events == old(events) + [ConfigMapWritten(id)]
      ensures configMaps == old(configMaps) || (id !in old(configMaps) && configMaps == old(configMaps)[id := data])
      ensures r.Ok? ==> configMaps == old(configMaps)[id := data]
    {
      events := events + [ConfigMapWritten(id)];
      if * { var e := Fault(); return Err(e); }
      if id in configMaps { return Err(AlreadyExists); }
      configMaps := configMaps[id := data];
      if * { var e := Fault(); return Err(e); }
      return Ok(());
    }

    method PatchConfigMap(id: Key, data: HookConfig) returns (r: Result<()>)
      modifies this`configMaps, this`events
      ensures events == old(events) + [ConfigMapWritten(id)]
      ensures configMaps == old(configMaps) || (id in old(configMaps) && configMaps == old(configMaps)[id := data])
      ensures r.Ok? ==> id in old(configMaps) && configMaps == old(configMaps)[id := data]
    {
      events := events + [ConfigMapWritten(id)];
      if * { var e := Fault(); return Err(e); }
      if id !in configMaps { return Err(NotFound); }
      configMaps := configMaps[id := data];
      if * { var e := Fault(); return Err(e); }
      return Ok(());
    }

    /** The ServiceAccount of a hook may exist already. */
    method CreateServiceAccount(id: Key) returns (r: Result<()>)
      modifies this`events
      ensures events == old(events) + [AccountCreated(id)]
    {
      events := events + [AccountCreated(id)];
      if * { var e := Fault(); return Err(e); }
      if * { return Err(AlreadyExists); }
      return Ok(());
    }

    method CreateJob(ghost plan: string, ghost mutable: bool, id: Key, event: HookEvent,
                     command: seq<string>, args: seq<string>, checksum: string) returns (r: Result<()>)
      modifies this`jobs, this`events
      ensures events == old(events) + [JobCreated(plan, id, event, mutable, command, args)]
      ensures r == Err(AlreadyExists) ==> id in old(jobs) && jobs == old(jobs)
      ensures r.Ok? ==> id !in old(jobs) && jobs == old(jobs)[id := Job(checksum, event, command, args, 0, 0, 0)]
    {
      events := events + [JobCreated(plan, id, event, mutable, command, args)];
      if * { var e := Fault(); return Err(e); }
      if id in jobs { return Err(AlreadyExists); }
      jobs := jobs[id := Job(checksum, event, command, args, 0, 0, 0)];
      if * { var e := Fault(); return Err(e); }
      return Ok(());
    }

    method GetJob(id: Key) returns (r: Result<Job>)
      ensures r.Ok? ==> id in jobs && r.value == jobs[id]
      ensures r == Err(NotFound) ==> id !in jobs
    {
      if * { var e := Fault(); return Err(e); }
      if id !in jobs { return Err(NotFound); }
      return Ok(jobs[id]);
    }

    /** The log takes down what a Job looks like just now. */
    ghost method NoteJob(id: Key)
      requires id in jobs
      modifies this`events
      ensures events == old(events) + [JobSeen(id, jobs[id])]
    {
      events := events + [JobSeen(id, jobs[id])];
    }

    /** Time passes for the Jobs: their pods run, and finished Jobs expire. */
    method JobsMove()
      modifies this`jobs
      ensures JobsMayBecome(old(jobs), jobs)
    {
      var j: map<Key, Job> := *;
      if JobsMayBecome(jobs, j) {
        jobs := j;
      }
    }
  }

  function Rescaled(sets: map<Key, StatefulSet>, id: Key, replicas: int): map<Key, StatefulSet>
    requires id in sets
  {
    var s := sets[id];
    sets[id := s.(spec := s.spec.(replicas := Some(replicas)), generation := s.generation + 1)]
  }

  function Redeployed(ds: map<Key, Deployment>, id: Key, replicas: int): map<Key, Deployment>
    requires id in ds
  {
    ds[id := ds[id].(replicas := Some(replicas))]
  }
}
