/** Scaling the workloads of every plan down before the restore, and up again after it. */
module Scale {
  import opened Api
  import opened Kube
  import opened StatusManager

  // ---------------------------------------------------------------- what the event log must show

  /** What was seen is the workload without a replica left. */
  predicate ShowsEmpty(e: Event, kind: Kind, id: Key) {
    match kind
    case OfStatefulSet =>
      e.SetSeen? && e.id == id && e.sts.status.replicas == 0 && e.sts.status.readyReplicas == 0
    case OfDeployment =>
      && e.DeploymentSeen? && e.id == id && e.deployment.status.replicas == 0
      && e.deployment.status.readyReplicas == 0 && e.deployment.status.availableReplicas == 0
  }

  /** What was seen is the workload with all replicas ready. */
  predicate ShowsReady(e: Event, kind: Kind, id: Key, replicas: int) {
    match kind
    case OfStatefulSet => e.SetSeen? && e.id == id && SetReady(e.sts, replicas)
    case OfDeployment =>
      && e.DeploymentSeen? && e.id == id && e.deployment.status.readyReplicas == replicas
      && e.deployment.status.updatedReplicas == replicas && e.deployment.status.availableReplicas == replicas
  }

  /** Between `lo` and `hi` the target was brought to zero and, unless waiting is skipped, then seen empty. */
  ghost predicate BroughtDown(events: seq<Event>, lo: nat, hi: nat, kind: Kind, t: Target)
    requires hi <= |events|
  {
    exists i :: lo <= i < hi && events[i] == AtZero(kind, t.Id())
      && (!t.skipWaitScaleDown ==> exists j :: i < j < hi && ShowsEmpty(events[j], kind, t.Id()))
  }

  /** Between `lo` and `hi` the target was brought to its replica count and, unless waiting is
      skipped, then seen ready. */
  ghost predicate BroughtUp(events: seq<Event>, lo: nat, hi: nat, kind: Kind, t: Target)
    requires hi <= |events|
  {
    exists i :: lo <= i < hi && events[i] == AtLeast(kind, t.Id(), t.replicas)
      && (!t.skipWaitScaleUp ==> exists j :: i < j < hi && ShowsReady(events[j], kind, t.Id(), t.replicas))
  }

  ghost predicate Brought(events: seq<Event>, lo: nat, hi: nat, kind: Kind, t: Target, up: bool)
    requires hi <= |events|
  {
    if up then BroughtUp(events, lo, hi, kind, t) else BroughtDown(events, lo, hi, kind, t)
  }

  ghost predicate AllBrought(events: seq<Event>, lo: nat, hi: nat, kind: Kind, ts: seq<Target>, up: bool)
    requires hi <= |events|
  {
    forall k :: 0 <= k < |ts| ==> Brought(events, lo, hi, kind, ts[k], up)
  }

  /** Down: first every operator, then every cluster. */
  ghost predicate PlanDown(events: seq<Event>, lo: nat, hi: nat, plan: RestorePlan)
    requires hi <= |events|
  {
    exists cut :: lo <= cut <= hi && DownAround(events, lo, cut, hi, plan)
  }

  ghost predicate DownAround(events: seq<Event>, lo: nat, cut: nat, hi: nat, plan: RestorePlan)
    requires cut <= hi <= |events|
  {
    && AllBrought(events, lo, cut, OfDeployment, plan.operators, false)
    && AllBrought(events, cut, hi, OfStatefulSet, plan.clusters, false)
  }

  /** Up: first every cluster, then every operator. */
  ghost predicate PlanUp(events: seq<Event>, lo: nat, hi: nat, plan: RestorePlan)
    requires hi <= |events|
  {
    exists cut :: lo <= cut <= hi && UpAround(events, lo, cut, hi, plan)
  }

  ghost predicate UpAround(events: seq<Event>, lo: nat, cut: nat, hi: nat, plan: RestorePlan)
    requires cut <= hi <= |events|
  {
    && AllBrought(events, lo, cut, OfStatefulSet, plan.clusters, true)
    && AllBrought(events, cut, hi, OfDeployment, plan.operators, true)
  }

  lemma BroughtStays(events: seq<Event>, lo: nat, hi: nat, kind: Kind, t: Target, up: bool,
                     later: seq<Event>, lo': nat, hi': nat)
    requires hi <= |events| && events <= later && lo' <= lo && hi <= hi' <= |later|
    requires Brought(events, lo, hi, kind, t, up)
    ensures Brought(later, lo', hi', kind, t, up)
  {
    if up {
      var i :| lo <= i < hi && events[i] == AtLeast(kind, t.Id(), t.replicas)
        && (!t.skipWaitScaleUp ==> exists j :: i < j < hi && ShowsReady(events[j], kind, t.Id(), t.replicas));
      assert later[i] == events[i];
      if !t.skipWaitScaleUp {
        var j :| i < j < hi && ShowsReady(events[j], kind, t.Id(), t.replicas);
        assert later[j] == events[j];
      }
    } else {
      var i :| lo <= i < hi && events[i] == AtZero(kind, t.Id())
        && (!t.skipWaitScaleDown ==> exists j :: i < j < hi && ShowsEmpty(events[j], kind, t.Id()));
      assert later[i] == events[i];
      if !t.skipWaitScaleDown {
        var j :| i < j < hi && ShowsEmpty(events[j], kind, t.Id());
        assert later[j] == events[j];
      }
    }
  }

  lemma AllBroughtStays(events: seq<Event>, lo: nat, hi: nat, kind: Kind, ts: seq<Target>, up: bool,
                        later: seq<Event>, lo': nat, hi': nat)
    requires hi <= |events| && events <= later && lo' <= lo && hi <= hi' <= |later|
    requires AllBrought(events, lo, hi, kind, ts, up)
    ensures AllBrought(later, lo', hi', kind, ts, up)
  {
    forall k | 0 <= k < |ts| ensures Brought(later, lo', hi', kind, ts[k], up) {
      BroughtStays(events, lo, hi, kind, ts[k], up, later, lo', hi');
    }
  }

  /** What was done stays done as the log grows. */
  lemma PlanDownStays(events: seq<Event>, lo: nat, hi: nat, plan: RestorePlan, later: seq<Event>, lo': nat, hi': nat)
    requires hi <= |events| && events <= later && lo' <= lo && hi <= hi' <= |later|
    requires PlanDown(events, lo, hi, plan)
    ensures PlanDown(later, lo', hi', plan)
  {
    var cut :| lo <= cut <= hi && DownAround(events, lo, cut, hi, plan);
    AllBroughtStays(events, lo, cut, OfDeployment, plan.operators, false, later, lo', cut);
    AllBroughtStays(events, cut, hi, OfStatefulSet, plan.clusters, false, later, cut, hi');
    assert DownAround(later, lo', cut, hi', plan);
  }

  lemma PlanUpStays(events: seq<Event>, lo: nat, hi: nat, plan: RestorePlan, later: seq<Event>, lo': nat, hi': nat)
    requires hi <= |events| && events <= later && lo' <= lo && hi <= hi' <= |later|
    requires PlanUp(events, lo, hi, plan)
    ensures PlanUp(later, lo', hi', plan)
  {
    var cut :| lo <= cut <= hi && UpAround(events, lo, cut, hi, plan);
    AllBroughtStays(events, lo, cut, OfStatefulSet, plan.clusters, true, later, lo', cut);
    AllBroughtStays(events, cut, hi, OfDeployment, plan.operators, true, later, cut, hi');
    assert UpAround(later, lo', cut, hi', plan);
  }

  /**
   A plan brought down, event by event: each operator is at zero, and unless waiting is skipped seen without
   a replica, before any cluster is; then each cluster likewise.
   */
  lemma DownInOrder(events: seq<Event>, lo: nat, hi: nat, plan: RestorePlan, m: nat, k: nat) returns (a: nat, b: nat)
    requires hi <= |events| && PlanDown(events, lo, hi, plan) && m < |plan.operators| && k < |plan.clusters|
    ensures lo <= a < b < hi && events[a] == AtZero(OfDeployment, plan.operators[m].Id())
    ensures events[b] == AtZero(OfStatefulSet, plan.clusters[k].Id())
    ensures !plan.operators[m].skipWaitScaleDown ==> exists x ::
      && a < x < b && events[x].DeploymentSeen? && events[x].id == plan.operators[m].Id()
      && var st := events[x].deployment.status; st.replicas == st.readyReplicas == st.availableReplicas == 0
    ensures !plan.clusters[k].skipWaitScaleDown ==> exists x ::
      && b < x < hi && events[x].SetSeen? && events[x].id == plan.clusters[k].Id()
      && events[x].sts.status.replicas == events[x].sts.status.readyReplicas == 0
  {
    var cut :| lo <= cut <= hi && DownAround(events, lo, cut, hi, plan);
    assert Brought(events, lo, cut, OfDeployment, plan.operators[m], false);
    assert Brought(events, cut, hi, OfStatefulSet, plan.clusters[k], false);
    a :| lo <= a < cut && events[a] == AtZero(OfDeployment, plan.operators[m].Id())
      && (!plan.operators[m].skipWaitScaleDown ==>
            exists j :: a < j < cut && ShowsEmpty(events[j], OfDeployment, plan.operators[m].Id()));
    b :| cut <= b < hi && events[b] == AtZero(OfStatefulSet, plan.clusters[k].Id())
      && (!plan.clusters[k].skipWaitScaleDown ==>
            exists j :: b < j < hi && ShowsEmpty(events[j], OfStatefulSet, plan.clusters[k].Id()));
  }

  /** And brought up: each cluster is at its count, and seen ready, before any operator is. */
  lemma UpInOrder(events: seq<Event>, lo: nat, hi: nat, plan: RestorePlan, k: nat, m: nat) returns (a: nat, b: nat)
    requires hi <= |events| && PlanUp(events, lo, hi, plan) && k < |plan.clusters| && m < |plan.operators|
    ensures lo <= a < b < hi && events[a] == AtLeast(OfStatefulSet, plan.clusters[k].Id(), plan.clusters[k].replicas)
    ensures events[b] == AtLeast(OfDeployment, plan.operators[m].Id(), plan.operators[m].replicas)
    ensures !plan.clusters[k].skipWaitScaleUp ==> exists x ::
      && a < x < b && events[x].SetSeen? && events[x].id == plan.clusters[k].Id()
      && events[x].sts.status.readyReplicas == plan.clusters[k].replicas
    ensures !plan.operators[m].skipWaitScaleUp ==> exists x ::
      && b < x < hi && events[x].DeploymentSeen? && events[x].id == plan.operators[m].Id()
      && var st := events[x].deployment.status;
         st.readyReplicas == st.updatedReplicas == st.availableReplicas == plan.operators[m].replicas
  {
    var cut :| lo <= cut <= hi && UpAround(events, lo, cut, hi, plan);
    var t, o := plan.clusters[k], plan.operators[m];
    assert Brought(events, lo, cut, OfStatefulSet, t, true) && Brought(events, cut, hi, OfDeployment, o, true);
    a :| lo <= a < cut && events[a] == AtLeast(OfStatefulSet, t.Id(), t.replicas)
      && (!t.skipWaitScaleUp ==>
            exists j :: a < j < cut && ShowsReady(events[j], OfStatefulSet, t.Id(), t.replicas));
    b :| cut <= b < hi && events[b] == AtLeast(OfDeployment, o.Id(), o.replicas)
      && (!o.skipWaitScaleUp ==>
            exists j :: b < j < hi && ShowsReady(events[j], OfDeployment, o.Id(), o.replicas));
  }

  // ---------------------------------------------------------------- single workloads

  /** All other sets keep their specification; a set already being deleted may go. */
  ghost predicate OtherSetsKept(a: map<Key, StatefulSet>, b: map<Key, StatefulSet>, id: Key) {
    && (forall k :: k in b && k != id ==> k in a && b[k].spec == a[k].spec && b[k].terminating == a[k].terminating)
    && (forall k :: k in a && k != id && !a[k].terminating ==> k in b)
  }

  ghost predicate OtherDeploymentsKept(a: map<Key, Deployment>, b: map<Key, Deployment>, id: Key) {
    && b.Keys == a.Keys
    && (forall k :: k in b && k != id ==> b[k].replicas == a[k].replicas && b[k].template == a[k].template)
  }

  predicate Below(replicas: Option<int>, target: int) { replicas.None? || replicas.value < target }

  /** Which events bringing one target down adds to the log: first these, then what the wait saw. */
  predicate IsZeroing(tail: seq<Event>, kind: Kind, id: Key) {
    tail in {[AtZero(kind, id)], [SetReplicas(kind, id, 0), AtZero(kind, id)]}
  }

  predicate DownTail(tail: seq<Event>, kind: Kind, t: Target) {
    var id := t.Id();
    var body := if tail != [] && tail[0].SetReplicas? then tail[1..] else tail;
    && (tail != [] && tail[0].SetReplicas? ==> tail[0] == SetReplicas(kind, id, 0))
    && |body| == (if t.skipWaitScaleDown then 1 else 2) && body[0] == AtZero(kind, id)
    && (!t.skipWaitScaleDown ==> ShowsEmpty(body[1], kind, id))
  }

  lemma DownShown(before: seq<Event>, tail: seq<Event>, kind: Kind, t: Target)
    requires DownTail(tail, kind, t)
    ensures BroughtDown(before + tail, |before|, |before + tail|, kind, t)
    ensures GrewByScaling(before, before + tail)
  {
    var i := if tail[0].AtZero? then |before| else |before| + 1;
    var events := before + tail;
    assert events[i] == tail[i - |before|] == AtZero(kind, t.Id());
    if !t.skipWaitScaleDown {
      var seen := tail[i + 1 - |before|];
      assert ShowsEmpty(seen, kind, t.Id());
      assert events[i + 1] == seen;
    }
  }

  /** The poll after scaling a set down: until no pod is left, an error, or the timeout. */
  method AwaitSetEmpty(c: Cluster, id: Key) returns (r: Result<()>)
    modifies c`statefulSets, c`deployments, c`events
    ensures SetsMayBecome(old(c.statefulSets), c.statefulSets)
    ensures DeploymentsMayBecome(old(c.deployments), c.deployments)
    ensures r.Ok? ==>
      && id in c.statefulSets && c.statefulSets[id].status.replicas == c.statefulSets[id].status.readyReplicas == 0
      && c.events == old(c.events) + [SetSeen(id, c.statefulSets[id])]
    ensures r.Err? ==> c.events == old(c.events)
  {
    var polls: nat := *;
    while polls > 0
      invariant c.events == old(c.events)
      invariant SetsMayBecome(old(c.statefulSets), c.statefulSets)
      invariant DeploymentsMayBecome(old(c.deployments), c.deployments)
    {
      c.WorkloadsMove();
      var sts :- c.GetStatefulSet(id);
      if sts.status.replicas == 0 && sts.status.readyReplicas == 0 {
        c.NoteSet(id);
        return Ok(());
      }
      polls := polls - 1;
    }
    return Err(Other("timed out"));
  }

  /** The part of scaling a set down before the wait. */
  method ZeroSet(c: Cluster, id: Key) returns (r: Result<()>, ghost tail: seq<Event>)
    modifies c`statefulSets, c`events
    ensures GrewByScaling(old(c.events), c.events)
    ensures r.Ok? ==> IsZeroing(tail, OfStatefulSet, id) && c.events == old(c.events) + tail
    ensures r.Ok? ==> id in c.statefulSets && c.statefulSets[id].spec.replicas == Some(0)
    ensures id in c.statefulSets ==>
      && id in old(c.statefulSets)
      && var before, now := old(c.statefulSets)[id].spec, c.statefulSets[id].spec;
         now == before || now == before.(replicas := Some(0))
    ensures OtherSetsKept(old(c.statefulSets), c.statefulSets, id)
  {
    tail := [];
    var sts := c.GetStatefulSet(id);
    if sts.Err? { return Err(sts.error), tail; }
    if sts.value.spec.replicas != Some(0) {
      tail := [SetReplicas(OfStatefulSet, id, 0)];
      sts := c.PatchSetReplicas(id, 0);
      if sts.Err? { return Err(sts.error), tail; }
    }
    c.NoteSetAtZero(id);
    tail := tail + [AtZero(OfStatefulSet, id)];
    assert tail == [AtZero(OfStatefulSet, id)]
      || tail == [SetReplicas(OfStatefulSet, id, 0), AtZero(OfStatefulSet, id)];
    assert c.events == old(c.events) + tail;
    r := Ok(());
  }

  method ScaleClusterDown(c: Cluster, cluster: Target) returns (r: Result<()>)
    modifies c`statefulSets, c`deployments, c`events
    ensures GrewByScaling(old(c.events), c.events)
    ensures r.Ok? ==> BroughtDown(c.events, |old(c.events)|, |c.events|, OfStatefulSet, cluster)
    ensures r.Ok? ==> cluster.Id() in c.statefulSets && c.statefulSets[cluster.Id()].spec.replicas == Some(0)
    ensures r.Ok? && !cluster.skipWaitScaleDown ==>
      && c.statefulSets[cluster.Id()].status.replicas == 0
      && c.statefulSets[cluster.Id()].status.readyReplicas == 0
    ensures cluster.Id() in c.statefulSets ==>
      && cluster.Id() in old(c.statefulSets)
      && var before, now := old(c.statefulSets)[cluster.Id()].spec, c.statefulSets[cluster.Id()].spec;
         now == before || now == before.(replicas := Some(0))
    ensures OtherSetsKept(old(c.statefulSets), c.statefulSets, cluster.Id())
    ensures DeploymentsMayBecome(old(c.deployments), c.deployments)
  {
    var id := cluster.Id();
    var zeroed;
    ghost var tail;
    zeroed, tail := ZeroSet(c, id);
    if zeroed.Err? { return zeroed; }
    if !cluster.skipWaitScaleDown {
      var _ :- AwaitSetEmpty(c, id);
      tail := tail + [SetSeen(id, c.statefulSets[id])];
    }
    assert c.events == old(c.events) + tail;
    DownShown(old(c.events), tail, OfStatefulSet, cluster);
    return Ok(());
  }

  method AwaitDeploymentEmpty(c: Cluster, id: Key) returns (r: Result<()>)
    modifies c`statefulSets, c`deployments, c`events
    ensures SetsMayBecome(old(c.statefulSets), c.statefulSets)
    ensures DeploymentsMayBecome(old(c.deployments), c.deployments)
    ensures r.Ok? ==>
      && id in c.deployments && c.events == old(c.events) + [DeploymentSeen(id, c.deployments[id])]
      && var st := c.deployments[id].status; st.replicas == 0 && st.readyReplicas == 0 && st.availableReplicas == 0
    ensures r.Err? ==> c.events == old(c.events)
  {
    var polls: nat := *;
    while polls > 0
      invariant c.events == old(c.events)
      invariant SetsMayBecome(old(c.statefulSets), c.statefulSets)
      invariant DeploymentsMayBecome(old(c.deployments), c.deployments)
    {
      c.WorkloadsMove();
      var d :- c.GetDeployment(id);
      if d.status.replicas == 0 && d.status.readyReplicas == 0 && d.status.availableReplicas == 0 {
        c.NoteDeployment(id);
        return Ok(());
      }
      polls := polls - 1;
    }
    return Err(Other("timed out"));
  }

  method ZeroDeployment(c: Cluster, id: Key) returns (r: Result<()>, ghost tail: seq<Event>)
    modifies c`deployments, c`events
    ensures GrewByScaling(old(c.events), c.events)
    ensures r.Ok? ==> IsZeroing(tail, OfDeployment, id) && c.events == old(c.events) + tail
    ensures r.Ok? ==> id in c.deployments && c.deployments[id].replicas == Some(0)
    ensures id in c.deployments ==>
      id in old(c.deployments) && c.deployments[id].replicas in {Some(0), old(c.deployments)[id].replicas}
    ensures OtherDeploymentsKept(old(c.deployments), c.deployments, id)
  {
    tail := [];
    var d := c.GetDeployment(id);
    if d.Err? { return Err(d.error), tail; }
    if d.value.replicas != Some(0) {
      tail := [SetReplicas(OfDeployment, id, 0)];
      d := c.PatchDeploymentReplicas(id, 0);
      if d.Err? { return Err(d.error), tail; }
    }
    c.NoteDeploymentAtZero(id);
    tail := tail + [AtZero(OfDeployment, id)];
    assert tail == [AtZero(OfDeployment, id)] || tail == [SetReplicas(OfDeployment, id, 0), AtZero(OfDeployment, id)];
    assert c.events == old(c.events) + tail;
    r := Ok(());
  }

  method ScaleOperatorDown(c: Cluster, operator: Target) returns (r: Result<()>)
    modifies c`statefulSets, c`deployments, c`events
    ensures GrewByScaling(old(c.events), c.events)
    ensures r.Ok? ==> BroughtDown(c.events, |old(c.events)|, |c.events|, OfDeployment, operator)
    ensures r.Ok? ==> operator.Id() in c.deployments && c.deployments[operator.Id()].replicas == Some(0)
    ensures r.Ok? && !operator.skipWaitScaleDown ==>
      var st := c.deployments[operator.Id()].status;
      st.replicas == 0 && st.readyReplicas == 0 && st.availableReplicas == 0
    ensures operator.Id() in c.deployments ==>
      && operator.Id() in old(c.deployments)
      && c.deployments[operator.Id()].replicas in {Some(0), old(c.deployments)[operator.Id()].replicas}
    ensures OtherDeploymentsKept(old(c.deployments), c.deployments, operator.Id())
    ensures SetsMayBecome(old(c.statefulSets), c.statefulSets)
  {
    var id := operator.Id();
    var zeroed;
    ghost var tail;
    zeroed, tail := ZeroDeployment(c, id);
    if zeroed.Err? { return zeroed; }
    if !operator.skipWaitScaleDown {
      var _ :- AwaitDeploymentEmpty(c, id);
      tail := tail + [DeploymentSeen(id, c.deployments[id])];
    }
    assert c.events == old(c.events) + tail;
    DownShown(old(c.events), tail, OfDeployment, operator);
    return Ok(());
  }

  /** The events once the replicas are where they should be. */
  predicate IsUpBody(body: seq<Event>, kind: Kind, t: Target) {
    && |body| == (if t.skipWaitScaleUp then 1 else 2) && body[0] == AtLeast(kind, t.Id(), t.replicas)
    && (!t.skipWaitScaleUp ==> ShowsReady(body[1], kind, t.Id(), t.replicas))
  }

  /** Which events bringing an operator up adds to the log. */
  predicate UpTail(tail: seq<Event>, kind: Kind, t: Target) {
    var id := t.Id();
    var body := if tail != [] && tail[0].SetReplicas? then tail[1..] else tail;
    && (tail != [] && tail[0].SetReplicas? ==> tail[0] == SetReplicas(kind, id, t.replicas))
    && IsUpBody(body, kind, t)
  }

  lemma UpShown(before: seq<Event>, tail: seq<Event>, kind: Kind, t: Target)
    requires UpTail(tail, kind, t)
    ensures BroughtUp(before + tail, |before|, |before + tail|, kind, t)
    ensures GrewByScaling(before, before + tail)
  {
    var i := if tail[0].AtLeast? then |before| else |before| + 1;
    var events := before + tail;
    assert events[i] == tail[i - |before|] == AtLeast(kind, t.Id(), t.replicas);
    if !t.skipWaitScaleUp {
      var seen := tail[i + 1 - |before|];
      assert ShowsReady(seen, kind, t.Id(), t.replicas);
      assert events[i + 1] == seen;
    }
  }

  method AwaitDeploymentReady(c: Cluster, id: Key, replicas: int) returns (r: Result<()>)
    modifies c`statefulSets, c`deployments, c`events
    ensures SetsMayBecome(old(c.statefulSets), c.statefulSets)
    ensures DeploymentsMayBecome(old(c.deployments), c.deployments)
    ensures r.Ok? ==>
      && id in c.deployments && c.events == old(c.events) + [DeploymentSeen(id, c.deployments[id])]
      && var st := c.deployments[id].status;
         st.readyReplicas == replicas && st.updatedReplicas == replicas && st.availableReplicas == replicas
    ensures r.Err? ==> c.events == old(c.events)
  {
    var polls: nat := *;
    while polls > 0
      invariant c.events == old(c.events)
      invariant SetsMayBecome(old(c.statefulSets), c.statefulSets)
      invariant DeploymentsMayBecome(old(c.deployments), c.deployments)
    {
      c.WorkloadsMove();
      var d :- c.GetDeployment(id);
      if d.status.readyReplicas == replicas && d.status.updatedReplicas == replicas
        && d.status.availableReplicas == replicas {
        c.NoteDeployment(id);
        return Ok(());
      }
      polls := polls - 1;
    }
    return Err(Other("timed out"));
  }

  predicate IsRaising(tail: seq<Event>, kind: Kind, id: Key, replicas: int) {
    tail in {[AtLeast(kind, id, replicas)], [SetReplicas(kind, id, replicas), AtLeast(kind, id, replicas)]}
  }

  /** The part of scaling an operator up before the wait. */
  method RaiseDeployment(c: Cluster, id: Key, replicas: int) returns (r: Result<()>, ghost tail: seq<Event>)
    modifies c`deployments, c`events
    ensures GrewByScaling(old(c.events), c.events)
    ensures r.Ok? ==> IsRaising(tail, OfDeployment, id, replicas) && c.events == old(c.events) + tail
    ensures r.Ok? ==>
      && id in old(c.deployments) && id in c.deployments
      && c.deployments[id].replicas == RaisedTo(old(c.deployments)[id].replicas, replicas)
    ensures id in c.deployments ==>
      && id in old(c.deployments)
      && RaisedTo(c.deployments[id].replicas, replicas) == RaisedTo(old(c.deployments)[id].replicas, replicas)
    ensures OtherDeploymentsKept(old(c.deployments), c.deployments, id)
  {
    tail := [];
    var d := c.GetDeployment(id);
    if d.Err? { return Err(d.error), tail; }
    if Below(d.value.replicas, replicas) {
      tail := [SetReplicas(OfDeployment, id, replicas)];
      d := c.PatchDeploymentReplicas(id, replicas);
      if d.Err? { return Err(d.error), tail; }
    }
    c.NoteDeploymentAtLeast(id, replicas);
    tail := tail + [AtLeast(OfDeployment, id, replicas)];
    assert tail == [AtLeast(OfDeployment, id, replicas)]
      || tail == [SetReplicas(OfDeployment, id, replicas), AtLeast(OfDeployment, id, replicas)];
    assert c.events == old(c.events) + tail;
    r := Ok(());
  }

  method ScaleOperatorUp(c: Cluster, operator: Target) returns (r: Result<()>)
    modifies c`statefulSets, c`deployments, c`events
    ensures GrewByScaling(old(c.events), c.events)
    ensures r.Ok? ==> BroughtUp(c.events, |old(c.events)|, |c.events|, OfDeployment, operator)
    ensures r.Ok? ==>
      && operator.Id() in old(c.deployments) && operator.Id() in c.deployments
      && var before, now := old(c.deployments)[operator.Id()].replicas, c.deployments[operator.Id()].replicas;
         now == Some(if before.Some? && before.value > operator.replicas then before.value else operator.replicas)
    ensures r.Ok? && !operator.skipWaitScaleUp ==>
      var st := c.deployments[operator.Id()].status;
      && st.readyReplicas == operator.replicas && st.updatedReplicas == operator.replicas
      && st.availableReplicas == operator.replicas
    ensures operator.Id() in c.deployments ==>
      && operator.Id() in old(c.deployments)
      && RaisedTo(c.deployments[operator.Id()].replicas, operator.replicas)
         == RaisedTo(old(c.deployments)[operator.Id()].replicas, operator.replicas)
    ensures OtherDeploymentsKept(old(c.deployments), c.deployments, operator.Id())
    ensures SetsMayBecome(old(c.statefulSets), c.statefulSets)
  {
    var id := operator.Id();
    var raised;
    ghost var tail;
    raised, tail := RaiseDeployment(c, id, operator.replicas);
    if raised.Err? { return raised; }
    if !operator.skipWaitScaleUp {
      var _ :- AwaitDeploymentReady(c, id, operator.replicas);
      tail := tail + [DeploymentSeen(id, c.deployments[id])];
    }
    assert c.events == old(c.events) + tail;
    UpShown(old(c.events), tail, OfDeployment, operator);
    return Ok(());
  }

  // ---------------------------------------------------------------- scaling a set up

  /** The larger of what is set and the target; an unset count counts as below. */
  function RaisedTo(replicas: Option<int>, target: int): Option<int> {
    if Below(replicas, target) then Some(target) else replicas
  }

  /**
   Where scaling a set up must end, from any specification: replicas raised to the target, and a
   pod policy that was switched to Parallel for the occasion back at OrderedReady.
   */
  function UpGoal(spec: StsSpec, t: Target): StsSpec {
    spec.(replicas := RaisedTo(spec.replicas, t.replicas),
          policy := if t.parallelPodManagement && spec.policy == Parallel then OrderedReady else spec.policy)
  }

  /** The end state is stable, and a set left Parallel by an interrupted attempt has the same end state. */
  lemma UpGoalIsStable(spec: StsSpec, t: Target)
    ensures UpGoal(UpGoal(spec, t), t) == UpGoal(spec, t)
    ensures UpGoal(spec.(replicas := RaisedTo(spec.replicas, t.replicas)), t) == UpGoal(spec, t)
    ensures t.parallelPodManagement && spec.policy == OrderedReady ==>
      UpGoal(spec.(policy := Parallel), t) == UpGoal(spec, t)
  {
  }

  /**
   What the recorded `originalReplicas` come to: they are the spec's count, not the set's. A set that is
   scaled down and up again has the count it had before exactly when the spec asked for that count.
   */
  lemma CountReturnsIff(before: StsSpec, t: Target)
    ensures UpGoal(before.(replicas := Some(0)), t).replicas == before.replicas
       <==> before.replicas == Some(if t.replicas > 0 then t.replicas else 0)
  {
  }

  /** The poll for the old set to be gone, short: it may well time out. */
  method AwaitSetGone(c: Cluster, id: Key) returns (r: Result<()>)
    modifies c`statefulSets, c`deployments
    ensures SetsMayBecome(old(c.statefulSets), c.statefulSets)
    ensures DeploymentsMayBecome(old(c.deployments), c.deployments)
    ensures r.Ok? ==> id !in c.statefulSets
  {
    var polls: nat := *;
    while polls > 0
      invariant SetsMayBecome(old(c.statefulSets), c.statefulSets)
      invariant DeploymentsMayBecome(old(c.deployments), c.deployments)
    {
      c.WorkloadsMove();
      var existing := c.GetStatefulSet(id);
      if existing == Err(NotFound) { return Ok(()); }
      if existing.Err? { return Err(existing.error); }
      polls := polls - 1;
    }
    return Err(Other("timed out"));
  }

  /** Deletes the set, keeping its pods, and creates it again with another pod policy. */
  method RecreateWithPodManagementPolicy(c: Cluster, id: Key, sts: StatefulSet, policy: PodPolicy)
    returns (r: Result<()>)
    requires id in c.statefulSets && c.statefulSets[id].spec == sts.spec
    modifies c`statefulSets, c`deployments, c`events
    ensures c.events == old(c.events) + [SetDeleted(id)] || c.events == old(c.events) + [SetDeleted(id), SetCreated(id)]
    ensures r.Ok? ==>
      id in c.statefulSets && c.statefulSets[id].spec == sts.spec.(policy := policy) && !c.statefulSets[id].terminating
    ensures id in c.statefulSets ==> c.statefulSets[id].spec in {sts.spec, sts.spec.(policy := policy)}
    ensures OtherSetsKept(old(c.statefulSets), c.statefulSets, id)
    ensures DeploymentsMayBecome(old(c.deployments), c.deployments)
  {
    var _ :- c.DeleteStatefulSet(id);
    var _ :- AwaitSetGone(c, id);
    var newSts := sts.spec.(policy := policy);
    r := c.CreateStatefulSet(id, newSts);
  }

  /** When the poll after scaling a set up stops waiting; an unknown update strategy stops it with an error. */
  predicate SetReady(sts: StatefulSet, replicas: int) {
    match sts.spec.strategy
    case RollingUpdate =>
      && sts.status.readyReplicas == replicas && sts.status.updatedReplicas == replicas
      && sts.status.currentRevision == sts.status.updateRevision
    case OnDelete =>
      && sts.status.readyReplicas == replicas && sts.status.replicas == replicas
      && sts.status.observedGeneration >= sts.generation
    case OtherStrategy(_) => false
  }

  method AwaitSetReady(c: Cluster, id: Key, replicas: int) returns (r: Result<()>)
    modifies c`statefulSets, c`deployments, c`events
    ensures SetsMayBecome(old(c.statefulSets), c.statefulSets)
    ensures DeploymentsMayBecome(old(c.deployments), c.deployments)
    ensures r.Ok? ==>
      && id in c.statefulSets && SetReady(c.statefulSets[id], replicas)
      && c.events == old(c.events) + [SetSeen(id, c.statefulSets[id])]
    ensures r.Err? ==> c.events == old(c.events)
  {
    var polls: nat := *;
    while polls > 0
      invariant c.events == old(c.events)
      invariant SetsMayBecome(old(c.statefulSets), c.statefulSets)
      invariant DeploymentsMayBecome(old(c.deployments), c.deployments)
    {
      c.WorkloadsMove();
      var sts :- c.GetStatefulSet(id);
      match sts.spec.strategy {
        case RollingUpdate =>
          if sts.status.readyReplicas == replicas && sts.status.updatedReplicas == replicas
             && sts.status.currentRevision == sts.status.updateRevision {
            c.NoteSet(id);
            return Ok(());
          }
        case OnDelete =>
          if sts.status.readyReplicas == replicas && sts.status.replicas == replicas
             && sts.status.observedGeneration >= sts.generation {
            c.NoteSet(id);
            return Ok(());
          }
        case OtherStrategy(name) =>
          return Err(Other("unknown update strategy type: " + name));
      }
      polls := polls - 1;
    }
    return Err(Other("timed out"));
  }

  /**
   What attempts to scale a set up leave, whether or not they went through: a set with the same end
   state, marked for deletion or not; or none, if it was gone by the time it was to be created again.
   Only switching its policy deletes a set.
   */
  predicate Resumable(before: map<Key, StatefulSet>, now: map<Key, StatefulSet>, t: Target) {
    var id := t.Id();
    && (id in now ==> id in before && UpGoal(now[id].spec, t) == UpGoal(before[id].spec, t))
    && (id in now && !t.parallelPodManagement ==> now[id].terminating == before[id].terminating)
    && (id in before && id !in now ==> t.parallelPodManagement || before[id].terminating)
  }

  lemma ResumableTransitively(a: map<Key, StatefulSet>, b: map<Key, StatefulSet>, d: map<Key, StatefulSet>, t: Target)
    requires Resumable(a, b, t) && Resumable(b, d, t)
    ensures Resumable(a, d, t)
  {
  }

  lemma TimeKeepsResumable(a: map<Key, StatefulSet>, b: map<Key, StatefulSet>, t: Target)
    requires SetsMayBecome(a, b)
    ensures Resumable(a, b, t)
  {
  }

  /** The part of scaling up before the wait: switch to Parallel if asked for, then raise the replicas. */
  method RaiseSet(c: Cluster, cluster: Target) returns (r: Result<()>, ghost tail: seq<Event>)
    modifies c`statefulSets, c`deployments, c`events
    ensures GrewByScaling(old(c.events), c.events)
    ensures tail in {[SetReplicas(OfStatefulSet, cluster.Id(), cluster.replicas)], []}
    ensures r.Ok? ==> exists mid :: GrewByScaling(old(c.events), mid) && c.events == mid + tail
    ensures r.Ok? ==>
      && cluster.Id() in c.statefulSets && cluster.Id() in old(c.statefulSets)
      && !Below(c.statefulSets[cluster.Id()].spec.replicas, cluster.replicas)
      && UpGoal(c.statefulSets[cluster.Id()].spec, cluster) == UpGoal(old(c.statefulSets)[cluster.Id()].spec, cluster)
      && (!cluster.parallelPodManagement ==>
            && c.statefulSets[cluster.Id()].spec == UpGoal(old(c.statefulSets)[cluster.Id()].spec, cluster)
            && c.statefulSets[cluster.Id()].terminating == old(c.statefulSets)[cluster.Id()].terminating)
    ensures Resumable(old(c.statefulSets), c.statefulSets, cluster)
    ensures OtherSetsKept(old(c.statefulSets), c.statefulSets, cluster.Id())
    ensures DeploymentsMayBecome(old(c.deployments), c.deployments)
  {
    tail := [];
    var id := cluster.Id();
    var sts;
    var got := c.GetStatefulSet(id);
    if got.Err? { return Err(got.error), tail; }
    sts := got.value;
    if cluster.parallelPodManagement && sts.spec.policy == OrderedReady && Below(sts.spec.replicas, cluster.replicas) {
      var recreated := RecreateWithPodManagementPolicy(c, id, sts, Parallel);
      if recreated.Err? { return recreated, tail; }
    }
    ghost var mid := c.events;
    if Below(sts.spec.replicas, cluster.replicas) {
      tail := [SetReplicas(OfStatefulSet, id, cluster.replicas)];
      var patched := c.PatchSetReplicas(id, cluster.replicas);
      if patched.Err? { return Err(patched.error), tail; }
    }
    assert c.events == mid + tail;
    return Ok(()), tail;
  }

  lemma GrewTransitively(a: seq<Event>, b: seq<Event>, d: seq<Event>)
    requires GrewByScaling(a, b) && GrewByScaling(b, d)
    ensures GrewByScaling(a, d)
  {
    forall i | |a| <= i < |d| ensures OnWorkloads(d[i]) {
      if i < |b| { assert d[i] == b[i]; }
    }
  }

  /** The wait after raising the replicas; afterwards a set switched to Parallel is switched back. */
  method SettleSet(c: Cluster, cluster: Target) returns (r: Result<()>, ghost body: seq<Event>)
    requires cluster.Id() in c.statefulSets
    requires !Below(c.statefulSets[cluster.Id()].spec.replicas, cluster.replicas)
    modifies c`statefulSets, c`deployments, c`events
    ensures GrewByScaling(old(c.events), c.events)
    ensures r.Ok? ==> IsUpBody(body, OfStatefulSet, cluster) && GrewByScaling(old(c.events) + body, c.events)
    ensures r.Ok? ==>
      && cluster.Id() in c.statefulSets
      && c.statefulSets[cluster.Id()].spec == old(c.statefulSets)[cluster.Id()].spec.(policy :=
           if !cluster.skipWaitScaleUp && cluster.parallelPodManagement
             && old(c.statefulSets)[cluster.Id()].spec.policy == Parallel
           then OrderedReady
           else old(c.statefulSets)[cluster.Id()].spec.policy)
    ensures r.Ok? && !cluster.skipWaitScaleUp && !cluster.parallelPodManagement ==>
      SetReady(c.statefulSets[cluster.Id()], cluster.replicas)
    ensures Resumable(old(c.statefulSets), c.statefulSets, cluster)
    ensures OtherSetsKept(old(c.statefulSets), c.statefulSets, cluster.Id())
    ensures DeploymentsMayBecome(old(c.deployments), c.deployments)
  {
    var id := cluster.Id();
    c.NoteSetAtLeast(id, cluster.replicas);
    body := [AtLeast(OfStatefulSet, id, cluster.replicas)];
    if cluster.skipWaitScaleUp {
      return Ok(()), body;
    }
    r := AwaitSetReady(c, id, cluster.replicas);
    if r.Err? { return; }
    body := body + [SetSeen(id, c.statefulSets[id])];
    assert c.events == old(c.events) + body;
    var sts := c.GetStatefulSet(id);
    if sts.Err? { return Err(sts.error), body; }
    if cluster.parallelPodManagement && sts.value.spec.policy == Parallel {
      r := RecreateWithPodManagementPolicy(c, id, sts.value, OrderedReady);
    }
  }

  /** A stretch of the log that shows the set brought up, with more workload events around it. */
  lemma UpShownWithin(before: seq<Event>, mid: seq<Event>, tail: seq<Event>, body: seq<Event>, now: seq<Event>,
          t: Target)
    requires tail in {[SetReplicas(OfStatefulSet, t.Id(), t.replicas)], []} && IsUpBody(body, OfStatefulSet, t)
    requires GrewByScaling(before, mid) && GrewByScaling(mid + tail + body, now)
    ensures BroughtUp(now, |before|, |now|, OfStatefulSet, t) && GrewByScaling(before, now)
  {
    assert mid + tail + body == mid + (tail + body);
    if tail != [] { assert (tail + body)[1..] == body; } else { assert tail + body == body; }
    UpShown(mid, tail + body, OfStatefulSet, t);
    BroughtStays(mid + (tail + body), |mid|, |mid + (tail + body)|, OfStatefulSet, t, true, now, |before|, |now|);
    GrewTransitively(before, mid, mid + (tail + body));
    GrewTransitively(before, mid + (tail + body), now);
  }

  method ScaleClusterUp(c: Cluster, cluster: Target) returns (r: Result<()>)
    modifies c`statefulSets, c`deployments, c`events
    ensures cluster.skipWaitScaleUp && cluster.parallelPodManagement ==> r.Err? && c.statefulSets == old(c.statefulSets)
    ensures GrewByScaling(old(c.events), c.events)
    ensures r.Ok? ==> BroughtUp(c.events, |old(c.events)|, |c.events|, OfStatefulSet, cluster)
    ensures r.Ok? ==>
      && cluster.Id() in old(c.statefulSets) && cluster.Id() in c.statefulSets
      && c.statefulSets[cluster.Id()].spec == UpGoal(old(c.statefulSets)[cluster.Id()].spec, cluster)
      && var before, now := old(c.statefulSets)[cluster.Id()].spec, c.statefulSets[cluster.Id()].spec;
         && now.replicas == Some(if before.replicas.Some? && before.replicas.value > cluster.replicas
                                 then before.replicas.value else cluster.replicas)
         && now.policy == (if cluster.parallelPodManagement && before.policy == Parallel then OrderedReady
                           else before.policy)
         && now.strategy == before.strategy && now.template == before.template
    ensures r.Ok? && !cluster.skipWaitScaleUp && !cluster.parallelPodManagement ==>
      var s := c.statefulSets[cluster.Id()];
      && s.status.readyReplicas == cluster.replicas && s.spec.strategy in {RollingUpdate, OnDelete}
      && (s.spec.strategy.RollingUpdate? ==>
            s.status.updatedReplicas == cluster.replicas && s.status.currentRevision == s.status.updateRevision)
      && (s.spec.strategy.OnDelete? ==>
            s.status.replicas == cluster.replicas && s.status.observedGeneration >= s.generation)
    ensures Resumable(old(c.statefulSets), c.statefulSets, cluster)
    ensures OtherSetsKept(old(c.statefulSets), c.statefulSets, cluster.Id())
    ensures DeploymentsMayBecome(old(c.deployments), c.deployments)
  {
    if cluster.skipWaitScaleUp && cluster.parallelPodManagement {
      return Err(Other("skipWaitScaleUp and parallelPodManagement cannot be used together"));
    }
    var raised, tail := RaiseSet(c, cluster);
    if raised.Err? { return raised; }
    ghost var mid :| GrewByScaling(old(c.events), mid) && c.events == mid + tail;
    ghost var sets := c.statefulSets;
    var settled;
    ghost var body;
    settled, body := SettleSet(c, cluster);
    ResumableTransitively(old(c.statefulSets), sets, c.statefulSets, cluster);
    if settled.Err? { return settled; }
    UpShownWithin(old(c.events), mid, tail, body, c.events, cluster);
    return Ok(());
  }

  /**
   Attempt after attempt, as the passes make them, with time going by in between. The attempt that goes
   through ends where the first would have, however the others were interrupted; if the set is gone, or
   gets lost on the way, none goes through and it stays gone.
   */
  method RetryScaleUp(c: Cluster, cluster: Target, attempts: nat) returns (r: Result<()>)
    modifies c`statefulSets, c`deployments, c`events
    ensures r.Ok? ==>
      && cluster.Id() in old(c.statefulSets) && cluster.Id() in c.statefulSets
      && c.statefulSets[cluster.Id()].spec == UpGoal(old(c.statefulSets)[cluster.Id()].spec, cluster)
    ensures r.Err? ==> Resumable(old(c.statefulSets), c.statefulSets, cluster)
    ensures cluster.Id() !in old(c.statefulSets) ==> r.Err? && cluster.Id() !in c.statefulSets
  {
    for i := 0 to attempts
      invariant Resumable(old(c.statefulSets), c.statefulSets, cluster)
    {
      ghost var s0 := c.statefulSets;
      r := ScaleClusterUp(c, cluster);
      if r.Ok? { return; }
      ghost var s1 := c.statefulSets;
      c.WorkloadsMove();
      TimeKeepsResumable(s1, c.statefulSets, cluster);
      ResumableTransitively(s0, s1, c.statefulSets, cluster);
      ResumableTransitively(old(c.statefulSets), s0, c.statefulSets, cluster);
    }
    return Err(Other("no attempt went through"));
  }

  // ---------------------------------------------------------------- the targets of one plan

  /** What scaling records for a target it brought up or down. */
  function ScaledEntry(s: TargetStatus, up: bool): TargetStatus {
    if up then s.(currentReplicas := s.originalReplicas, phase := Completed)
    else s.(currentReplicas := 0, phase := ScaledDown)
  }

  predicate SameEntry(a: TargetStatus, b: TargetStatus) {
    b == a.(currentReplicas := b.currentReplicas, phase := b.phase, error := b.error)
  }

  /** Entry by entry the same targets with the same snapshots: only progress was recorded. */
  ghost predicate SameTargets(a: seq<TargetStatus>, b: seq<TargetStatus>) {
    |a| == |b| && forall i :: 0 <= i < |a| ==> SameEntry(a[i], b[i])
  }

  /** The entries once the first `n` targets are done. */
  ghost predicate ScaledUpTo(a: seq<TargetStatus>, b: seq<TargetStatus>, n: nat, up: bool) {
    && |a| == |b| && n <= |a|
    && (forall i :: 0 <= i < n ==> b[i] == ScaledEntry(a[i], up))
    && (forall i :: n <= i < |a| ==> b[i] == a[i])
  }

  // What the specifications of the workloads say meanwhile.

  datatype Workloads = Workloads(sets: map<Key, StatefulSet>, deployments: map<Key, Deployment>)

  ghost function WorkloadsOf(c: Cluster): Workloads
    reads c`statefulSets, c`deployments
  {
    Workloads(c.statefulSets, c.deployments)
  }

  /** No replica count changed but to zero, and no workload is new. */
  ghost predicate OnlyZeroed(a: Workloads, b: Workloads) {
    && (forall k :: k in b.sets ==> k in a.sets && b.sets[k].spec.replicas in {a.sets[k].spec.replicas, Some(0)})
    && (forall k :: k in b.deployments ==>
        k in a.deployments && b.deployments[k].replicas in {a.deployments[k].replicas, Some(0)})
  }

  lemma OnlyZeroedTransitively(a: Workloads, b: Workloads, d: Workloads)
    requires OnlyZeroed(a, b) && OnlyZeroed(b, d)
    ensures OnlyZeroed(a, d)
  {
  }

  /** The target asks for no replica, if it is still there. */
  predicate IsAtZero(w: Workloads, kind: Kind, id: Key) {
    match kind
    case OfStatefulSet => id in w.sets ==> w.sets[id].spec.replicas == Some(0)
    case OfDeployment => id in w.deployments ==> w.deployments[id].replicas == Some(0)
  }

  ghost predicate AreAtZero(w: Workloads, kind: Kind, ts: seq<Target>, n: nat)
    requires n <= |ts|
  {
    forall k :: 0 <= k < n ==> IsAtZero(w, kind, ts[k].Id())
  }

  /** All workloads of the plan ask for no replica. */
  ghost predicate PlanAtZero(w: Workloads, plan: RestorePlan) {
    AreAtZero(w, OfDeployment, plan.operators, |plan.operators|)
      && AreAtZero(w, OfStatefulSet, plan.clusters, |plan.clusters|)
  }

  lemma ZeroStays(a: Workloads, b: Workloads, kind: Kind, id: Key)
    requires IsAtZero(a, kind, id) && OnlyZeroed(a, b)
    ensures IsAtZero(b, kind, id)
  {
  }

  lemma AllStayAtZero(a: Workloads, b: Workloads, kind: Kind, ts: seq<Target>, n: nat)
    requires n <= |ts| && AreAtZero(a, kind, ts, n) && OnlyZeroed(a, b)
    ensures AreAtZero(b, kind, ts, n)
  {
    forall k | 0 <= k < n ensures IsAtZero(b, kind, ts[k].Id()) { ZeroStays(a, b, kind, ts[k].Id()); }
  }

  lemma PlanStaysAtZero(a: Workloads, b: Workloads, plan: RestorePlan)
    requires PlanAtZero(a, plan) && OnlyZeroed(a, b)
    ensures PlanAtZero(b, plan)
  {
    AllStayAtZero(a, b, OfDeployment, plan.operators, |plan.operators|);
    AllStayAtZero(a, b, OfStatefulSet, plan.clusters, |plan.clusters|);
  }

  /** The workload is there, and none of its replicas is. */
  predicate IsEmptyIn(w: Workloads, kind: Kind, id: Key) {
    match kind
    case OfStatefulSet => id in w.sets && w.sets[id].status.replicas == 0 && w.sets[id].status.readyReplicas == 0
    case OfDeployment =>
      && id in w.deployments && w.deployments[id].status.replicas == 0
      && w.deployments[id].status.readyReplicas == 0 && w.deployments[id].status.availableReplicas == 0
  }

  method ScaleTarget(c: Cluster, t: Target, kind: Kind, up: bool) returns (r: Result<()>)
    modifies c`statefulSets, c`deployments, c`events
    ensures GrewByScaling(old(c.events), c.events)
    ensures r.Ok? ==> Brought(c.events, |old(c.events)|, |c.events|, kind, t, up)
    ensures r.Ok? && !up && !t.skipWaitScaleDown ==> IsEmptyIn(WorkloadsOf(c), kind, t.Id())
    ensures !up ==>
      OnlyZeroed(old(WorkloadsOf(c)), WorkloadsOf(c)) && (r.Ok? ==> IsAtZero(WorkloadsOf(c), kind, t.Id()))
  {
    match (kind, up) {
      case (OfStatefulSet, true) => r := ScaleClusterUp(c, t);
      case (OfStatefulSet, false) => r := ScaleClusterDown(c, t);
      case (OfDeployment, true) => r := ScaleOperatorUp(c, t);
      case (OfDeployment, false) => r := ScaleOperatorDown(c, t);
    }
  }

  lemma OneMoreBrought(before: seq<Event>, mid: seq<Event>, now: seq<Event>, kind: Kind, ts: seq<Target>, i: nat,
          up: bool)
    requires i < |ts| && GrewByScaling(before, mid) && GrewByScaling(mid, now)
    requires AllBrought(mid, |before|, |mid|, kind, ts[..i], up) && Brought(now, |mid|, |now|, kind, ts[i], up)
    ensures GrewByScaling(before, now) && AllBrought(now, |before|, |now|, kind, ts[..i + 1], up)
  {
    GrewTransitively(before, mid, now);
    AllBroughtStays(mid, |before|, |mid|, kind, ts[..i], up, now, |before|, |now|);
    BroughtStays(now, |mid|, |now|, kind, ts[i], up, now, |before|, |now|);
    assert ts[..i + 1] == ts[..i] + [ts[i]];
  }

  /** One of the entries is marked failed, with the text of the error. */
  ghost predicate NamesFailure(sts: seq<TargetStatus>, e: Error) {
    exists k :: 0 <= k < |sts| && sts[k].phase == Failed && sts[k].error == e.Text()
  }

  ghost predicate FailureIsNamed(p: PlanStatus, e: Error)
  {
    NamesFailure(p.clusters, e) || NamesFailure(p.operators, e)
  }

  /** On the way down the first `n` targets are at zero. */
  ghost predicate ZeroedSoFar(up: bool, a: Workloads, b: Workloads, kind: Kind, ts: seq<Target>, n: nat)
    requires n <= |ts|
  {
    !up ==> OnlyZeroed(a, b) && AreAtZero(b, kind, ts, n)
  }

  lemma OneMoreZeroed(up: bool, a: Workloads, b: Workloads, d: Workloads, kind: Kind, ts: seq<Target>, n: nat, ok: bool)
    requires n < |ts| && ZeroedSoFar(up, a, b, kind, ts, n)
    requires !up ==> OnlyZeroed(b, d) && (ok ==> IsAtZero(d, kind, ts[n].Id()))
    ensures (!up ==> OnlyZeroed(a, d)) && (ok ==> ZeroedSoFar(up, a, d, kind, ts, n + 1))
  {
    if !up { AllStayAtZero(b, d, kind, ts, n); }
  }

  method ProcessTargets(c: Cluster, targets: seq<Target>, status: array<TargetStatus>, kind: Kind, up: bool)
    returns (r: Result<()>)
    requires |targets| <= status.Length
    modifies c`statefulSets, c`deployments, c`events, status
    ensures GrewByScaling(old(c.events), c.events)
    ensures r.Ok? ==>
      && ScaledUpTo(old(status[..]), status[..], |targets|, up)
      && AllBrought(c.events, |old(c.events)|, |c.events|, kind, targets, up)
    ensures r.Err? ==> exists k ::
      && 0 <= k < |targets|
      && ScaledUpTo(old(status[..]), status[..][k := old(status[..])[k]], k, up)
      && status[k] == old(status[k]).(phase := Failed, error := r.error.Text())
    ensures SameTargets(old(status[..]), status[..])
    ensures !up ==> OnlyZeroed(old(WorkloadsOf(c)), WorkloadsOf(c))
    ensures r.Ok? ==> ZeroedSoFar(up, old(WorkloadsOf(c)), WorkloadsOf(c), kind, targets, |targets|)
  {
    for i := 0 to |targets|
      invariant ZeroedSoFar(up, old(WorkloadsOf(c)), WorkloadsOf(c), kind, targets, i)
      invariant GrewByScaling(old(c.events), c.events)
      invariant ScaledUpTo(old(status[..]), status[..], i, up)
      invariant AllBrought(c.events, |old(c.events)|, |c.events|, kind, targets[..i], up)
    {
      ghost var events, w := c.events, WorkloadsOf(c);
      r := ScaleTarget(c, targets[i], kind, up);
      OneMoreZeroed(up, old(WorkloadsOf(c)), w, WorkloadsOf(c), kind, targets, i, r.Ok?);
      if r.Err? {
        status[i] := status[i].(phase := Failed);
        status[i] := status[i].(error := r.error.Text());
        assert ScaledUpTo(old(status[..]), status[..][i := old(status[..])[i]], i, up);
        return;
      }
      if up {
        status[i] := status[i].(currentReplicas := status[i].originalReplicas);
        status[i] := status[i].(phase := Completed);
      } else {
        status[i] := status[i].(currentReplicas := 0);
        status[i] := status[i].(phase := ScaledDown);
      }
      OneMoreBrought(old(c.events), events, c.events, kind, targets, i, up);
    }
    assert targets[..|targets|] == targets;
    return Ok(());
  }

  // ---------------------------------------------------------------- plans

  /** All that scaling changes about a plan: the progress of its targets, and the scale-up count. */
  ghost predicate PlanScaled(a: PlanStatus, b: PlanStatus, up: bool) {
    && b == a.(clusters := b.clusters, operators := b.operators, countScaleUp := b.countScaleUp)
    && SameTargets(a.clusters, b.clusters) && SameTargets(a.operators, b.operators)
    && (b.countScaleUp == a.countScaleUp || b.countScaleUp == 0 || (up && b.countScaleUp == 1))
  }

  /** Locked plans are not scaled down, and plans scaled up after their restore are not scaled up again. */
  predicate SkipsScaling(p: PlanStatus, up: bool) {
    p.lock && (up ==> p.countScaleUp > 0)
  }

  /** `value` is stored for one plan; the rest of the plans stays. */
  ghost predicate OnePlanScaled(s0: Status, s1: Status, plan: string, up: bool) {
    && s1.plans.Keys == s0.plans.Keys
    && (forall q :: q != plan ==> PlanOf(s1, q) == PlanOf(s0, q))
    && PlanScaled(PlanOf(s0, plan), PlanOf(s1, plan), up)
  }

  /** Scaling moves stages legally: downwards always, upwards when the plan is locked. */
  ghost predicate ScalingKeepsOrder(h0: seq<Status>, s0: Status, h1: seq<Status>, s1: Status, plan: string, up: bool) {
    && Quiet(h0, s0, h1, s1)
    && forall plans {:trigger Orderly(h1, s1, plans)} ::
      Orderly(h0, s0, plans) && !SkipsScaling(PlanOf(s0, plan), up) && (up && plan in plans ==> PlanOf(s0, plan).lock)
      ==> Orderly(h1, s1, plans)
  }

  lemma ScalingStep(a: PlanStatus, b: PlanStatus, up: bool)
    requires PlanScaled(a, b, up) && Staged(a) && !SkipsScaling(a, up) && (up ==> a.lock)
    ensures Staged(b) && PlanStep(a, b)
  {
  }

  /** How progress is recorded: the targets' entries with the scale-up count. */
  method RecordScaled(c: Cluster, obj: RestoreObject, plan: string, count: int, up: bool,
                      clusters: seq<TargetStatus>, operators: seq<TargetStatus>) returns (r: Result<()>)
    requires SameButHooks(c.status, obj.status) && plan in c.status.plans && (count == 0 || (up && count == 1))
    requires SameTargets(PlanOf(c.status, plan).clusters, clusters)
      && SameTargets(PlanOf(c.status, plan).operators, operators)
    modifies obj`status, c`status, c`history, c`lostWrites
    ensures OnePlanScaled(old(c.status), c.status, plan, up)
    ensures ScalingKeepsOrder(old(c.history), old(c.status), c.history, c.status, plan, up)
    ensures r.Ok? ==> SameButHooks(c.status, obj.status) && (old(c.status == obj.status) ==> c.status == obj.status)
    ensures r.Ok? ==> c.status == WithScaled(old(c.status), plan, count, clusters, operators)
    ensures c.lostWrites == old(c.lostWrites) + if r.Ok? then 0 else 1
  {
    ghost var h0, s0 := c.history, c.status;
    r := SetScaleRestorePlan(c, obj, plan, count, clusters, operators);
    forall plans | Orderly(h0, s0, plans) && !SkipsScaling(PlanOf(s0, plan), up)
      && (up && plan in plans ==> PlanOf(s0, plan).lock)
      ensures Orderly(c.history, c.status, plans)
    {
      if plan in plans {
        ScalingStep(PlanOf(s0, plan), PlanOf(WithScaled(s0, plan, count, clusters, operators), plan), up);
      }
    }
  }

  /** How a failure is recorded: the progress with the scale-up count at zero, then the phase. */
  method RecordScaleFailure(c: Cluster, obj: RestoreObject, plan: string, up: bool,
                            clusters: seq<TargetStatus>, operators: seq<TargetStatus>) returns (r: Result<()>)
    requires SameButHooks(c.status, obj.status) && plan in c.status.plans
    requires SameTargets(PlanOf(c.status, plan).clusters, clusters)
      && SameTargets(PlanOf(c.status, plan).operators, operators)
    modifies obj`status, c`status, c`history, c`lostWrites
    ensures OnePlanScaled(old(c.status), c.status, plan, up)
    ensures ScalingKeepsOrder(old(c.history), old(c.status), c.history, c.status, plan, up)
    ensures r.Ok? ==> c.status == WithPhase(WithScaled(old(c.status), plan, 0, clusters, operators), Failed)
    ensures c.lostWrites == old(c.lostWrites) + if r.Ok? then 0 else 1
  {
    r := RecordScaled(c, obj, plan, 0, up, clusters, operators);
    if r.Err? { return; }
    r := SetPhase(c, obj, Failed);
  }

  /** Scales the targets of one plan in the order the direction asks for; the two arrays take their progress. */
  method ScaleTargets(c: Cluster, plan: RestorePlan, clusters: array<TargetStatus>, operators: array<TargetStatus>,
          up: bool)
    returns (r: Result<()>)
    requires clusters != operators
    requires |plan.clusters| <= clusters.Length && |plan.operators| <= operators.Length
    modifies c`statefulSets, c`deployments, c`events, clusters, operators
    ensures GrewByScaling(old(c.events), c.events)
    ensures SameTargets(old(clusters[..]), clusters[..]) && SameTargets(old(operators[..]), operators[..])
    ensures r.Ok? ==>
      && ScaledUpTo(old(clusters[..]), clusters[..], |plan.clusters|, up)
      && ScaledUpTo(old(operators[..]), operators[..], |plan.operators|, up)
    ensures r.Ok? && up ==> PlanUp(c.events, |old(c.events)|, |c.events|, plan)
    ensures r.Ok? && !up ==> PlanDown(c.events, |old(c.events)|, |c.events|, plan)
    ensures r.Err? ==> NamesFailure(clusters[..], r.error) || NamesFailure(operators[..], r.error)
    ensures !up ==> OnlyZeroed(old(WorkloadsOf(c)), WorkloadsOf(c)) && (r.Ok? ==> PlanAtZero(WorkloadsOf(c), plan))
  {
    if up {
      var _ :- ProcessTargets(c, plan.clusters, clusters, OfStatefulSet, true);
      ghost var mid := c.events;
      r := ProcessTargets(c, plan.operators, operators, OfDeployment, true);
      GrewTransitively(old(c.events), mid, c.events);
      AllBroughtStays(mid, |old(c.events)|, |mid|, OfStatefulSet, plan.clusters, true, c.events, |old(c.events)|,
        |mid|);
      assert r.Ok? ==> UpAround(c.events, |old(c.events)|, |mid|, |c.events|, plan);
    } else {
      var _ :- ProcessTargets(c, plan.operators, operators, OfDeployment, false);
      ghost var mid, w := c.events, WorkloadsOf(c);
      r := ProcessTargets(c, plan.clusters, clusters, OfStatefulSet, false);
      OnlyZeroedTransitively(old(WorkloadsOf(c)), w, WorkloadsOf(c));
      AllStayAtZero(w, WorkloadsOf(c), OfDeployment, plan.operators, |plan.operators|);
      GrewTransitively(old(c.events), mid, c.events);
      AllBroughtStays(mid, |old(c.events)|, |mid|, OfDeployment, plan.operators, false, c.events, |old(c.events)|,
        |mid|);
      assert r.Ok? ==> DownAround(c.events, |old(c.events)|, |mid|, |c.events|, plan);
    }
  }

  /** One iteration of `ScaleRestorePlan`, for a plan the status lists in step with the spec. */
  method ScalePlan(c: Cluster, obj: RestoreObject, name: string, plan: RestorePlan, up: bool) returns (r: Result<()>)
    requires SameButHooks(c.status, obj.status)
    requires name in c.status.plans && Aligned(plan, c.status.plans[name])
    requires !SkipsScaling(c.status.plans[name], up)
    modifies obj`status, c`status, c`history, c`lostWrites, c`statefulSets, c`deployments, c`events
    ensures OnePlanScaled(old(c.status), c.status, name, up)
    ensures ScalingKeepsOrder(old(c.history), old(c.status), c.history, c.status, name, up)
    ensures GrewByScaling(old(c.events), c.events)
    ensures r.Ok? ==>
      SameButHooks(c.status, obj.status) && c.status.phase == old(c.status.phase)
        && c.status.activePlan == old(c.status.activePlan)
    ensures r.Ok? && old(c.status == obj.status) ==> c.status == obj.status
    ensures r.Ok? ==> c.lostWrites == old(c.lostWrites)
    ensures r.Ok? ==> PlanOf(c.status, name).countScaleUp == if up then 1 else 0
    ensures r.Err? ==>
      || c.lostWrites > old(c.lostWrites)
      || (c.status.phase == Failed && FailureIsNamed(PlanOf(c.status, name), r.error))
    ensures r.Ok? && up ==> PlanUp(c.events, |old(c.events)|, |c.events|, plan)
    ensures r.Ok? && !up ==> PlanDown(c.events, |old(c.events)|, |c.events|, plan)
    ensures !up ==> OnlyZeroed(old(WorkloadsOf(c)), WorkloadsOf(c)) && (r.Ok? ==> PlanAtZero(WorkloadsOf(c), plan))
  {
    var planStatus := obj.status.plans[name];
    assert SamePlanButHooks(c.status.plans[name], planStatus);
    var clusters :=
      new TargetStatus[|planStatus.clusters|](i requires 0 <= i < |planStatus.clusters| => planStatus.clusters[i]);
    var operators :=
      new TargetStatus[|planStatus.operators|](i requires 0 <= i < |planStatus.operators| => planStatus.operators[i]);
    assert clusters[..] == planStatus.clusters && operators[..] == planStatus.operators;
    r := ScaleTargets(c, plan, clusters, operators, up);
    if r.Err? {
      var recorded := RecordScaleFailure(c, obj, name, up, clusters[..], operators[..]);
      if recorded.Err? { r := recorded; }
      return;
    }
    r := RecordScaled(c, obj, name, if up then 1 else 0, up, clusters[..], operators[..]);
  }

  /** Every plan of the spec is listed in the status with its targets in step. */
  ghost predicate AllAligned(spec: Spec, st: Status) {
    forall p :: p in spec ==> p in st.plans && Aligned(spec[p], st.plans[p])
  }

  lemma ScalingKeepsAlignment(plan: RestorePlan, a: PlanStatus, b: PlanStatus, up: bool)
    requires Aligned(plan, a) && PlanScaled(a, b, up)
    ensures Aligned(plan, b)
  {
    forall i | 0 <= i < |plan.clusters| ensures Describes(b.clusters[i], plan.clusters[i]) {
      assert SameEntry(a.clusters[i], b.clusters[i]);
    }
    forall i | 0 <= i < |plan.operators| ensures Describes(b.operators[i], plan.operators[i]) {
      assert SameEntry(a.operators[i], b.operators[i]);
    }
  }

  /** Every plan as scaling may leave it; plans that are skipped, or not in the spec, exactly as they were. */
  ghost predicate PlansScaled(spec: Spec, s0: Status, s1: Status, up: bool) {
    && s1.plans.Keys == s0.plans.Keys
    && (forall p :: p in s0.plans ==> PlanScaled(s0.plans[p], s1.plans[p], up))
    && (forall p :: p in s0.plans && (p !in spec || SkipsScaling(s0.plans[p], up)) ==> s1.plans[p] == s0.plans[p])
  }

  /** The plan was skipped, or scaling it is on record in the log and in its count. */
  ghost predicate PlanDone(events: seq<Event>, lo: nat, plan: RestorePlan, a: PlanStatus, b: PlanStatus, up: bool)
  {
    SkipsScaling(a, up)
    || (b.countScaleUp == (if up then 1 else 0)
        && if up then PlanUp(events, lo, |events|, plan) else PlanDown(events, lo, |events|, plan))
  }

  lemma PlanDoneStays(events: seq<Event>, lo: nat, plan: RestorePlan, a: PlanStatus, b: PlanStatus, up: bool,
                      later: seq<Event>, lo': nat)
    requires PlanDone(events, lo, plan, a, b, up) && events <= later && lo' <= lo
    ensures PlanDone(later, lo', plan, a, b, up)
  {
    if !SkipsScaling(a, up) {
      if up { PlanUpStays(events, lo, |events|, plan, later, lo', |later|); }
      else { PlanDownStays(events, lo, |events|, plan, later, lo', |later|); }
    }
  }

  /** Where the loop over the plans stands: `done` are scaled or skipped, the others untouched. */
  ghost predicate ScaledSoFar(spec: Spec, e0: seq<Event>, s0: Status, e1: seq<Event>, s1: Status, done: set<string>,
          up: bool)
  {
    && PlansScaled(spec, s0, s1, up) && GrewByScaling(e0, e1)
    && (forall p :: p in s0.plans && p !in done ==> s1.plans[p] == s0.plans[p])
    && (forall p :: p in done ==>
         p in spec && p in s0.plans && PlanDone(e1, |e0|, spec[p], s0.plans[p], s1.plans[p], up))
  }

  lemma OneMorePlan(spec: Spec, e0: seq<Event>, s0: Status, e1: seq<Event>, s1: Status, e2: seq<Event>, s2: Status,
                    done: set<string>, p: string, up: bool, ok: bool)
    requires ScaledSoFar(spec, e0, s0, e1, s1, done, up) && p in spec && p in s0.plans && p !in done
    requires GrewByScaling(e1, e2) && OnePlanScaled(s1, s2, p, up)
    requires SkipsScaling(s1.plans[p], up) ==> s2.plans[p] == s1.plans[p]
    requires ok ==> PlanDone(e2, |e1|, spec[p], s1.plans[p], s2.plans[p], up)
    ensures PlansScaled(spec, s0, s2, up) && GrewByScaling(e0, e2)
    ensures ok ==> ScaledSoFar(spec, e0, s0, e2, s2, done + {p}, up)
  {
    GrewTransitively(e0, e1, e2);
    forall q | q in s0.plans
      ensures PlanScaled(s0.plans[q], s2.plans[q], up) && (q != p ==> s2.plans[q] == s1.plans[q])
    {
      assert PlanOf(s2, q) == s2.plans[q] && PlanOf(s1, q) == s1.plans[q];
    }
    if ok {
      forall q | q in done + {p} ensures PlanDone(e2, |e0|, spec[q], s0.plans[q], s2.plans[q], up) {
        if q == p {
          PlanDoneStays(e2, |e1|, spec[p], s0.plans[p], s2.plans[p], up, e2, |e0|);
        } else {
          PlanDoneStays(e1, |e0|, spec[q], s0.plans[q], s1.plans[q], up, e2, |e0|);
        }
      }
    }
  }

  /** The loop went through: every plan of the spec is on record. */
  ghost predicate AllDone(spec: Spec, e0: seq<Event>, s0: Status, e1: seq<Event>, s1: Status, up: bool) {
    forall p :: p in spec ==>
      p in s0.plans && p in s1.plans && PlanDone(e1, |e0|, spec[p], s0.plans[p], s1.plans[p], up)
  }

  ghost predicate AllLocked(st: Status, plans: set<string>) {
    forall p :: p in plans ==> PlanOf(st, p).lock
  }

  /** Scaling keeps a history orderly: downwards always, upwards if the plans of the spec are locked. */
  ghost predicate ScalesInOrder(spec: Spec, h0: seq<Status>, s0: Status, h1: seq<Status>, s1: Status, up: bool) {
    && Quiet(h0, s0, h1, s1)
    && forall plans {:trigger Orderly(h1, s1, plans)} ::
      Orderly(h0, s0, plans) && (up ==> AllLocked(s0, spec.Keys)) ==> Orderly(h1, s1, plans)
  }

  lemma InOrderTransitively(h0: seq<Status>, s0: Status, h1: seq<Status>, s1: Status, h2: seq<Status>, s2: Status,
                            spec: Spec, up: bool)
    requires ScalesInOrder(spec, h0, s0, h1, s1, up) && ScalesInOrder(spec, h1, s1, h2, s2, up)
      && PlansScaled(spec, s0, s1, up)
    ensures ScalesInOrder(spec, h0, s0, h2, s2, up)
  {
    forall plans | Orderly(h0, s0, plans) && (up ==> AllLocked(s0, spec.Keys)) ensures Orderly(h2, s2, plans) {
      assert Orderly(h1, s1, plans);
      assert forall p :: p in spec.Keys && PlanOf(s0, p).lock ==> p in s0.plans && PlanOf(s1, p).lock;
    }
  }

  /** One iteration, from the announcement of the plan on. */
  method ScaleNext(c: Cluster, obj: RestoreObject, name: string, up: bool) returns (r: Result<()>)
    requires SameButHooks(c.status, obj.status)
    requires name in obj.spec && name in c.status.plans && Aligned(obj.spec[name], c.status.plans[name])
    modifies obj`status, c`status, c`history, c`lostWrites, c`statefulSets, c`deployments, c`events
    ensures OnePlanScaled(old(c.status), c.status, name, up)
    ensures SkipsScaling(old(c.status).plans[name], up) ==>
      c.status.plans[name] == old(c.status).plans[name] && c.events == old(c.events)
    ensures ScalesInOrder(obj.spec, old(c.history), old(c.status), c.history, c.status, up)
    ensures GrewByScaling(old(c.events), c.events)
    ensures r.Ok? ==>
      && SameButHooks(c.status, obj.status) && c.status.phase == old(c.status.phase)
      && (old(c.status == obj.status) ==> c.status == obj.status)
      && c.lostWrites == old(c.lostWrites)
      && PlanDone(c.events, |old(c.events)|, obj.spec[name], old(c.status).plans[name], c.status.plans[name], up)
      && c.status.activePlan == name
    ensures r.Err? ==> c.lostWrites > old(c.lostWrites) || c.status.phase == Failed
    ensures !up ==>
      && OnlyZeroed(old(WorkloadsOf(c)), WorkloadsOf(c))
      && (r.Ok? && !SkipsScaling(old(c.status).plans[name], up) ==> PlanAtZero(WorkloadsOf(c), obj.spec[name]))
  {
    ghost var h0, s0 := c.history, c.status;
    var _ :- SetActivePlan(c, obj, name);
    ghost var h1, s1 := c.history, c.status;
    assert PlanOf(s1, name) == s1.plans[name] == s0.plans[name];
    var planStatus := obj.status.plans[name];
    assert SamePlanButHooks(s1.plans[name], planStatus);
    if SkipsScaling(planStatus, up) {
      return Ok(());
    }
    r := ScalePlan(c, obj, name, obj.spec[name], up);
    forall plans | Orderly(h0, s0, plans) && (up ==> AllLocked(s0, obj.spec.Keys))
      ensures Orderly(c.history, c.status, plans)
    {
      assert Orderly(h1, s1, plans);
    }
  }

  /** There is nothing to scale. */
  predicate AllSkipped(spec: Spec, st: Status, up: bool) {
    forall p :: p in spec ==> p in st.plans && SkipsScaling(st.plans[p], up)
  }

  /** `now` carries on from `start` after the plans of `done`. */
  ghost predicate ScaledFrom(spec: Spec, e0: seq<Event>, h0: seq<Status>, s0: Status,
                             e1: seq<Event>, h1: seq<Status>, s1: Status, done: set<string>, up: bool) {
    && ScaledSoFar(spec, e0, s0, e1, s1, done, up)
    && ScalesInOrder(spec, h0, s0, h1, s1, up)
    && s1.phase == s0.phase
    && (AllSkipped(spec, s0, up) ==> e1 == e0)
  }

  /** Those of the plans that are not skipped are at zero. */
  ghost predicate PlansAtZero(spec: Spec, s0: Status, w: Workloads, done: set<string>) {
    forall p :: p in done && p in spec && p in s0.plans && !SkipsScaling(s0.plans[p], false) ==> PlanAtZero(w, spec[p])
  }

  lemma OneMoreAtZero(spec: Spec, s0: Status, a: Workloads, b: Workloads, done: set<string>, p: string)
    requires PlansAtZero(spec, s0, a, done) && OnlyZeroed(a, b)
    requires p in spec && p in s0.plans && (!SkipsScaling(s0.plans[p], false) ==> PlanAtZero(b, spec[p]))
    ensures PlansAtZero(spec, s0, b, done + {p})
  {
    forall q | q in done && q in spec && q in s0.plans && !SkipsScaling(s0.plans[q], false)
      ensures PlanAtZero(b, spec[q])
    {
      PlanStaysAtZero(a, b, spec[q]);
    }
  }

  /** An iteration seen from the start of the loop. */
  method ScaleStep(c: Cluster, obj: RestoreObject, name: string, up: bool, ghost e0: seq<Event>, ghost h0: seq<Status>,
          ghost s0: Status, ghost done: set<string>)
    returns (r: Result<()>)
    requires SameButHooks(c.status, obj.status)
    requires name in obj.spec && name in s0.plans && Aligned(obj.spec[name], s0.plans[name]) && name !in done
    requires ScaledFrom(obj.spec, e0, h0, s0, c.events, c.history, c.status, done, up)
    requires !up ==> PlansAtZero(obj.spec, s0, WorkloadsOf(c), done)
    modifies obj`status, c`status, c`history, c`lostWrites, c`statefulSets, c`deployments, c`events
    ensures PlansScaled(obj.spec, s0, c.status, up) && GrewByScaling(e0, c.events)
    ensures ScalesInOrder(obj.spec, h0, s0, c.history, c.status, up)
      && (AllSkipped(obj.spec, s0, up) ==> c.events == e0)
    ensures r.Ok? ==>
      && SameButHooks(c.status, obj.status) && (old(c.status == obj.status) ==> c.status == obj.status)
      && c.lostWrites == old(c.lostWrites)
      && ScaledFrom(obj.spec, e0, h0, s0, c.events, c.history, c.status, done + {name}, up)
    ensures r.Err? ==> c.lostWrites > old(c.lostWrites) || c.status.phase == Failed
    ensures !up && r.Ok? ==> PlansAtZero(obj.spec, s0, WorkloadsOf(c), done + {name})
  {
    ghost var e1, h1, s1, w := c.events, c.history, c.status, WorkloadsOf(c);
    r := ScaleNext(c, obj, name, up);
    if !up && r.Ok? { OneMoreAtZero(obj.spec, s0, w, WorkloadsOf(c), done, name); }
    OneMorePlan(obj.spec, e0, s0, e1, s1, c.events, c.status, done, name, up, r.Ok?);
    InOrderTransitively(h0, s0, h1, s1, c.history, c.status, obj.spec, up);
  }

  lemma NothingScaledYet(spec: Spec, e: seq<Event>, h: seq<Status>, s: Status, up: bool)
    ensures ScaledFrom(spec, e, h, s, e, h, s, {}, up)
  {
  }

  method ScaleRestorePlan(c: Cluster, obj: RestoreObject, up: bool) returns (r: Result<()>)
    requires SameButHooks(c.status, obj.status) && AllAligned(obj.spec, c.status)
    modifies obj`status, c`status, c`history, c`lostWrites, c`statefulSets, c`deployments, c`events
    ensures PlansScaled(obj.spec, old(c.status), c.status, up)
    ensures ScalesInOrder(obj.spec, old(c.history), old(c.status), c.history, c.status, up)
    ensures GrewByScaling(old(c.events), c.events)
    ensures AllSkipped(obj.spec, old(c.status), up) ==> c.events == old(c.events)
    ensures r.Ok? ==>
      && SameButHooks(c.status, obj.status) && c.status.phase == old(c.status.phase)
      && (old(c.status == obj.status) ==> c.status == obj.status)
      && c.lostWrites == old(c.lostWrites)
      && AllDone(obj.spec, old(c.events), old(c.status), c.events, c.status, up)
    ensures r.Err? ==> c.lostWrites > old(c.lostWrites) || c.status.phase == Failed
    ensures !up && r.Ok? ==> PlansAtZero(obj.spec, old(c.status), WorkloadsOf(c), obj.spec.Keys)
  {
    ghost var e0, h0, s0 := c.events, c.history, c.status;
    var names := Enumerate(obj.spec.Keys);
    ghost var done: set<string> := {};
    NothingScaledYet(obj.spec, e0, h0, s0, up);
    for i := 0 to |names|
      invariant SameButHooks(c.status, obj.status) && (s0 == old(obj.status) ==> c.status == obj.status)
      invariant c.lostWrites == old(c.lostWrites)
      invariant Visited(names, done, i)
      invariant ScaledFrom(obj.spec, e0, h0, s0, c.events, c.history, c.status, done, up)
      invariant !up ==> PlansAtZero(obj.spec, s0, WorkloadsOf(c), done)
    {
      VisitNext(names, obj.spec.Keys, done, i);
      var _ :- ScaleStep(c, obj, names[i], up, e0, h0, s0, done);
      done := done + {names[i]};
    }
    AllVisited(names, obj.spec.Keys, done);
    return Ok(());
  }
}
