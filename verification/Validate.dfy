/** Finding the snapshots every plan is to be restored from, and recording them in the status. */
module Validate {
  import opened Api
  import opened Calendar
  import opened Kube
  import opened StatusManager

  // ---------------------------------------------------------------- names of snapshots

  /** Snapshots are named after the claim, the plan and the time. */
  function Prefix(pvc: string, plan: string): string { pvc + "-" + plan + "-" }

  /** A snapshot of some listed claim for the plan, and what follows the prefix in its name. */
  predicate Suffix(pvcs: seq<Claim>, snaps: seq<VolumeSnapshot>, plan: string, i: nat, j: nat)
    requires i < |pvcs| && j < |snaps|
  {
    Prefix(pvcs[i].meta.name, plan) <= snaps[j].name
  }

  function SuffixOf(pvcs: seq<Claim>, snaps: seq<VolumeSnapshot>, plan: string, i: nat, j: nat): string
    requires i < |pvcs| && j < |snaps| && Suffix(pvcs, snaps, plan, i, j)
  {
    snaps[j].name[|Prefix(pvcs[i].meta.name, plan)|..]
  }

  /** The scan over claims and snapshots for the greatest suffix. */
  method LatestSuffix(pvcs: seq<Claim>, snaps: seq<VolumeSnapshot>, plan: string) returns (latest: string)
    ensures forall i, j :: 0 <= i < |pvcs| && 0 <= j < |snaps| && Suffix(pvcs, snaps, plan, i, j) ==>
      !Less(latest, SuffixOf(pvcs, snaps, plan, i, j))
    ensures latest != "" ==> exists i, j ::
      0 <= i < |pvcs| && 0 <= j < |snaps| && Suffix(pvcs, snaps, plan, i, j)
        && SuffixOf(pvcs, snaps, plan, i, j) == latest
  {
    latest := "";
    for n := 0 to |pvcs|
      invariant forall i, j :: 0 <= i < n && 0 <= j < |snaps| && Suffix(pvcs, snaps, plan, i, j) ==>
        !Less(latest, SuffixOf(pvcs, snaps, plan, i, j))
      invariant latest != "" ==> exists i, j ::
        0 <= i < |pvcs| && 0 <= j < |snaps| && Suffix(pvcs, snaps, plan, i, j)
          && SuffixOf(pvcs, snaps, plan, i, j) == latest
    {
      var prefix := pvcs[n].meta.name + "-" + plan + "-";
      for m := 0 to |snaps|
        invariant forall i, j :: 0 <= i < n && 0 <= j < |snaps| && Suffix(pvcs, snaps, plan, i, j) ==>
          !Less(latest, SuffixOf(pvcs, snaps, plan, i, j))
        invariant forall j :: 0 <= j < m && Suffix(pvcs, snaps, plan, n, j) ==>
          !Less(latest, SuffixOf(pvcs, snaps, plan, n, j))
        invariant latest != "" ==> exists i, j ::
          0 <= i < |pvcs| && 0 <= j < |snaps| && Suffix(pvcs, snaps, plan, i, j)
            && SuffixOf(pvcs, snaps, plan, i, j) == latest
      {
        if !(prefix <= snaps[m].name) {
          continue;
        }
        var when := snaps[m].name[|prefix|..];
        assert when == SuffixOf(pvcs, snaps, plan, n, m);
        if Less(latest, when) {
          StillLatest(latest, when);
          latest := when;
        }
      }
    }
  }

  lemma StillLatest(a: string, b: string)
    requires Less(a, b)
    ensures forall s :: !Less(a, s) ==> !Less(b, s)
    ensures !Less(b, b)
  {
    LessTotal(b, b);
    LessTotal(a, b);
    forall s | !Less(a, s) ensures !Less(b, s) {
      NotAboveTransitive(s, a, b);
    }
  }

  // ---------------------------------------------------------------- what is in the cluster

  /** The claims a target selects. */
  ghost predicate Selected(c: Cluster, t: Target, k: Key)
    reads c`claims
  {
    && k in c.claims && k.namespace == t.namespace
    && t.claimSelector.Some? && c.selects(t.claimSelector.value, c.claims[k].meta.labels)
  }

  ghost predicate NoneSelected(c: Cluster, t: Target)
    reads c`claims
  {
    forall k :: !Selected(c, t, k)
  }

  /** The lists a target's validation works on: its claims, and the snapshots of its namespace taken at `when`. */
  ghost predicate Fetched(c: Cluster, t: Target, when: string, pvcs: seq<Claim>, snaps: seq<VolumeSnapshot>)
    reads c`claims, c`snapshots
  {
    FetchedClaims(c, t, pvcs) && FetchedSnapshots(c, t, when, snaps)
  }

  ghost predicate FetchedClaims(c: Cluster, t: Target, pvcs: seq<Claim>)
    reads c`claims
  {
    && (forall i :: 0 <= i < |pvcs| ==> Selected(c, t, pvcs[i].meta.Id()) && pvcs[i] == c.claims[pvcs[i].meta.Id()])
    && (forall k :: Selected(c, t, k) ==> c.claims[k] in pvcs)
    && (forall i, j :: 0 <= i < j < |pvcs| ==> pvcs[i].meta.name != pvcs[j].meta.name)
  }

  ghost predicate FetchedSnapshots(c: Cluster, t: Target, when: string, snaps: seq<VolumeSnapshot>)
    reads c`snapshots
  {
    && (forall i :: 0 <= i < |snaps| ==> StoredSnapshot(c, t.namespace, when, snaps[i]))
    && (forall s :: StoredSnapshot(c, t.namespace, when, s) ==> s in snaps)
    && (forall i, j :: 0 <= i < j < |snaps| ==> snaps[i].name != snaps[j].name)
  }

  ghost predicate StoredSnapshot(c: Cluster, namespace: string, when: string, s: VolumeSnapshot)
    reads c`snapshots
  {
    var k := Key(namespace, s.name);
    k in c.snapshots && TakenAt(c.snapshots[k], when) && s == c.snapshots[k].(name := s.name)
  }

  /** The first list, which must not be empty. */
  method FetchClaims(c: Cluster, cluster: Target) returns (r: Result<seq<Claim>>)
    requires WellKeyed(c.claims)
    ensures r.Ok? ==> FetchedClaims(c, cluster, r.value) && r.value != []
    ensures NoneSelected(c, cluster) ==> r.Err?
    ensures cluster.claimSelector.None? ==> r.Err?
  {
    if cluster.claimSelector.None? {
      return Err(Other("cluster " + cluster.name + " has no claimSelector"));
    }
    if !c.parses(cluster.claimSelector.value) {
      return Err(Other("invalid selector"));
    }
    var pvcs :- c.ListClaims(cluster.namespace, cluster.claimSelector.value);
    if |pvcs| == 0 {
      return Err(Other("no PVCs found for cluster " + cluster.name));
    }
    ghost var ids: seq<Key> :|
      && Enumerates(ids, set k | k in c.claims && k.namespace == cluster.namespace
          && c.selects(cluster.claimSelector.value, c.claims[k].meta.labels))
      && |pvcs| == |ids|
      && forall i :: 0 <= i < |ids| ==> ids[i] in c.claims && pvcs[i] == c.claims[ids[i]];
    ListedClaims(c, cluster, pvcs, ids);
    assert Selected(c, cluster, pvcs[0].meta.Id());
    return Ok(pvcs);
  }

  /** The second list. */
  method FetchSnapshots(c: Cluster, cluster: Target, when: string) returns (r: Result<seq<VolumeSnapshot>>)
    ensures r.Ok? ==> FetchedSnapshots(c, cluster, when, r.value)
  {
    var snaps :- c.ListSnapshots(cluster.namespace, when);
    ghost var qs: seq<Key> :|
      && Enumerates(qs, set k | k in c.snapshots && k.namespace == cluster.namespace && TakenAt(c.snapshots[k], when))
      && |snaps| == |qs|
      && forall i :: 0 <= i < |qs| ==> qs[i] in c.snapshots && snaps[i] == c.snapshots[qs[i]].(name := qs[i].name);
    ListedSnapshots(c, cluster, when, snaps, qs);
    return Ok(snaps);
  }

  method FetchClusterResources(c: Cluster, cluster: Target, plan: string, when: string)
    returns (r: Result<(seq<Claim>, seq<VolumeSnapshot>)>)
    requires WellKeyed(c.claims)
    ensures r.Ok? ==> Fetched(c, cluster, when, r.value.0, r.value.1) && r.value.0 != []
    ensures NoneSelected(c, cluster) ==> r.Err?
    ensures cluster.claimSelector.None? ==> r.Err?
  {
    var pvcs :- FetchClaims(c, cluster);
    var snaps :- FetchSnapshots(c, cluster, when);
    return Ok((pvcs, snaps));
  }

  lemma ListedClaims(c: Cluster, t: Target, pvcs: seq<Claim>, ids: seq<Key>)
    requires WellKeyed(c.claims) && t.claimSelector.Some?
    requires Enumerates(ids, set k | k in c.claims && k.namespace == t.namespace
      && c.selects(t.claimSelector.value, c.claims[k].meta.labels))
    requires |pvcs| == |ids| && forall i :: 0 <= i < |ids| ==> ids[i] in c.claims && pvcs[i] == c.claims[ids[i]]
    ensures forall i :: 0 <= i < |pvcs| ==> Selected(c, t, pvcs[i].meta.Id()) && pvcs[i] == c.claims[pvcs[i].meta.Id()]
    ensures forall k :: Selected(c, t, k) ==> c.claims[k] in pvcs
    ensures forall i, j :: 0 <= i < j < |pvcs| ==> pvcs[i].meta.name != pvcs[j].meta.name
  {
    var found := set k | k in c.claims && k.namespace == t.namespace
      && c.selects(t.claimSelector.value, c.claims[k].meta.labels);
    forall i | 0 <= i < |pvcs| ensures Selected(c, t, ids[i]) && pvcs[i].meta.Id() == ids[i] {
      assert ids[i] in ids;
      assert ids[i] in found;
    }
    forall k | Selected(c, t, k) ensures c.claims[k] in pvcs {
      assert k in found;
      var i :| 0 <= i < |ids| && ids[i] == k;
      assert pvcs[i] == c.claims[k];
    }
    forall i, j | 0 <= i < j < |pvcs| ensures pvcs[i].meta.name != pvcs[j].meta.name {
      assert ids[i] != ids[j];
      assert ids[i] in found && ids[j] in found;
    }
  }

  lemma ListedSnapshots(c: Cluster, t: Target, when: string, snaps: seq<VolumeSnapshot>, qs: seq<Key>)
    requires Enumerates(qs, set k | k in c.snapshots && k.namespace == t.namespace && TakenAt(c.snapshots[k], when))
    requires |snaps| == |qs| && forall i :: 0 <= i < |qs| ==>
      qs[i] in c.snapshots && snaps[i] == c.snapshots[qs[i]].(name := qs[i].name)
    ensures forall i :: 0 <= i < |snaps| ==> StoredSnapshot(c, t.namespace, when, snaps[i])
    ensures forall s :: StoredSnapshot(c, t.namespace, when, s) ==> s in snaps
    ensures forall i, j :: 0 <= i < j < |snaps| ==> snaps[i].name != snaps[j].name
  {
    var found := set k | k in c.snapshots && k.namespace == t.namespace && TakenAt(c.snapshots[k], when);
    forall i | 0 <= i < |snaps| ensures StoredSnapshot(c, t.namespace, when, snaps[i]) {
      assert qs[i] in qs;
      assert qs[i] in found;
    }
    forall s | StoredSnapshot(c, t.namespace, when, s) ensures s in snaps {
      var k := Key(t.namespace, s.name);
      assert k in found;
      var i :| 0 <= i < |qs| && qs[i] == k;
      assert snaps[i] == s;
    }
    forall i, j | 0 <= i < j < |snaps| ensures snaps[i].name != snaps[j].name {
      assert qs[i] in found && qs[j] in found && qs[i] != qs[j];
    }
  }

  // ---------------------------------------------------------------- the latest time

  /** Some claim of the target has a snapshot for the plan named with this time. */
  ghost predicate Candidate(c: Cluster, plan: string, t: Target, when: string)
    reads c`claims, c`snapshots
  {
    exists k, q :: Selected(c, t, k) && q in c.snapshots && q.namespace == t.namespace
      && q.name == Prefix(c.claims[k].meta.name, plan) + when
  }

  ghost predicate SuffixAmong(pvcs: seq<Claim>, snaps: seq<VolumeSnapshot>, plan: string, when: string) {
    exists i, j ::
      0 <= i < |pvcs| && 0 <= j < |snaps| && Suffix(pvcs, snaps, plan, i, j)
        && SuffixOf(pvcs, snaps, plan, i, j) == when
  }

  lemma CandidateIsSuffix(c: Cluster, plan: string, t: Target, pvcs: seq<Claim>, snaps: seq<VolumeSnapshot>,
          when: string)
    requires Fetched(c, t, "", pvcs, snaps) && Candidate(c, plan, t, when)
    ensures SuffixAmong(pvcs, snaps, plan, when)
  {
    var k, q :| Selected(c, t, k) && q in c.snapshots && q.namespace == t.namespace
      && q.name == Prefix(c.claims[k].meta.name, plan) + when;
    var i :| 0 <= i < |pvcs| && pvcs[i] == c.claims[k];
    assert q == Key(t.namespace, q.name);
    assert StoredSnapshot(c, t.namespace, "", c.snapshots[q].(name := q.name));
    var j :| 0 <= j < |snaps| && snaps[j] == c.snapshots[q].(name := q.name);
    assert Suffix(pvcs, snaps, plan, i, j) && SuffixOf(pvcs, snaps, plan, i, j) == when;
  }

  lemma SuffixIsCandidate(c: Cluster, plan: string, t: Target, pvcs: seq<Claim>, snaps: seq<VolumeSnapshot>,
          when: string)
    requires Fetched(c, t, "", pvcs, snaps) && SuffixAmong(pvcs, snaps, plan, when)
    ensures Candidate(c, plan, t, when)
  {
    var i, j :| 0 <= i < |pvcs| && 0 <= j < |snaps| && Suffix(pvcs, snaps, plan, i, j)
      && SuffixOf(pvcs, snaps, plan, i, j) == when;
    var k, q := pvcs[i].meta.Id(), Key(t.namespace, snaps[j].name);
    assert Selected(c, t, k);
    assert StoredSnapshot(c, t.namespace, "", snaps[j]);
    assert q.name == Prefix(c.claims[k].meta.name, plan) + when;
  }

  /** The suffixes in the lists are the times there are snapshots for. */
  lemma CandidatesAreSuffixes(c: Cluster, plan: string, t: Target, pvcs: seq<Claim>, snaps: seq<VolumeSnapshot>,
          when: string)
    requires Fetched(c, t, "", pvcs, snaps)
    ensures Candidate(c, plan, t, when) <==> SuffixAmong(pvcs, snaps, plan, when)
  {
    if Candidate(c, plan, t, when) { CandidateIsSuffix(c, plan, t, pvcs, snaps, when); }
    if SuffixAmong(pvcs, snaps, plan, when) { SuffixIsCandidate(c, plan, t, pvcs, snaps, when); }
  }

  /** The entry of a target as the search for the latest time writes it. */
  function Found(t: Target): TargetStatus {
    TargetStatus(t.name, t.namespace, t.kind, [], Unspecified, t.replicas, t.replicas, Unset, "")
  }

  function AppendFailed(statuses: seq<TargetStatus>, base: TargetStatus, e: Error): seq<TargetStatus> {
    statuses + [base.(phase := Failed, error := e.Text())]
  }

  /** `latest` is attained at the target and not exceeded there. */
  ghost predicate LatestAt(c: Cluster, plan: string, t: Target, latest: string)
    reads c`claims, c`snapshots
  {
    latest != "" && Candidate(c, plan, t, latest) && forall when :: Candidate(c, plan, t, when) ==> !Less(latest, when)
  }

  /** `latest` is attained at one of the first `n` targets and exceeded at none of them. */
  ghost predicate LatestOf(c: Cluster, plan: string, ts: seq<Target>, n: nat, latest: string)
    requires n <= |ts|
    reads c`claims, c`snapshots
  {
    && (latest == "" <==> n == 0)
    && (n > 0 ==> exists i :: 0 <= i < n && Candidate(c, plan, ts[i], latest))
    && (forall i, when :: 0 <= i < n && Candidate(c, plan, ts[i], when) ==> !Less(latest, when))
  }

  /** What is not above one of two strings is not above the greater. */
  lemma NotAboveGreater(a: string, b: string, s: string)
    requires !Less(a, s) || !Less(b, s)
    ensures !Less(if Less(a, b) then b else a, s)
  {
    if Less(a, b) {
      StillLatest(a, b);
    } else if !Less(b, s) {
      NotAboveTransitive(s, b, a);
    }
  }

  lemma LatestOfOneMore(c: Cluster, plan: string, ts: seq<Target>, n: nat, latest: string, here: string)
    requires n < |ts| && LatestOf(c, plan, ts, n, latest) && LatestAt(c, plan, ts[n], here)
    ensures LatestOf(c, plan, ts, n + 1, if Less(latest, here) then here else latest)
  {
    forall i, when | 0 <= i < n + 1 && Candidate(c, plan, ts[i], when)
      ensures !Less(if Less(latest, here) then here else latest, when)
    {
      NotAboveGreater(latest, here, when);
    }
    if Less(latest, here) {
      assert Candidate(c, plan, ts[n], here);
    }
  }

  /** One target's latest time. */
  method LatestOfCluster(c: Cluster, plan: string, cluster: Target) returns (r: Result<string>)
    requires WellKeyed(c.claims)
    ensures r.Ok? ==> LatestAt(c, plan, cluster, r.value)
  {
    var lists :- FetchClusterResources(c, cluster, plan, "");
    var (pvcs, snaps) := lists;
    var latest := LatestSuffix(pvcs, snaps, plan);
    if latest == "" {
      return Err(Other("no snapshots found for cluster " + cluster.name + " in plan " + plan));
    }
    CandidatesAreSuffixes(c, plan, cluster, pvcs, snaps, latest);
    forall when | Candidate(c, plan, cluster, when) ensures !Less(latest, when) {
      CandidatesAreSuffixes(c, plan, cluster, pvcs, snaps, when);
    }
    return Ok(latest);
  }

  /** Entries for the first `n` targets; with an error, one more for the target that failed. */
  ghost predicate FoundUpTo(statuses: seq<TargetStatus>, ts: seq<Target>, n: nat, e: Option<Error>)
    requires n <= |ts|
  {
    && (forall i :: 0 <= i < n && i < |statuses| ==> statuses[i] == Found(ts[i]))
    && (e.None? ==> |statuses| == n)
    && (e.Some? ==> n < |ts| && |statuses| == n + 1
                    && statuses[n] == Found(ts[n]).(phase := Failed, error := e.value.Text()))
  }

  lemma FoundOneMore(statuses: seq<TargetStatus>, ts: seq<Target>, n: nat)
    requires n < |ts| && FoundUpTo(statuses, ts, n, None)
    ensures FoundUpTo(statuses + [Found(ts[n])], ts, n + 1, None)
  {
  }

  lemma FoundAllBut(statuses: seq<TargetStatus>, ts: seq<Target>, n: nat, e: Error)
    requires n < |ts| && FoundUpTo(statuses, ts, n, None)
    ensures EndsFailed(AppendFailed(statuses, Found(ts[n]), e), ts, e)
      && |AppendFailed(statuses, Found(ts[n]), e)| == n + 1
    ensures FoundUpTo(AppendFailed(statuses, Found(ts[n]), e), ts, n, Some(e))
  {
  }

  /** The latest time so far, with one more target looked at. */
  method LaterOf(c: Cluster, plan: string, clusters: seq<Target>, n: nat, latestTime: string)
    returns (r: Result<string>)
    requires WellKeyed(c.claims) && n < |clusters| && LatestOf(c, plan, clusters, n, latestTime)
    ensures r.Ok? ==> LatestOf(c, plan, clusters, n + 1, r.value)
  {
    var here :- LatestOfCluster(c, plan, clusters[n]);
    LatestOfOneMore(c, plan, clusters, n, latestTime, here);
    return Ok(if Less(latestTime, here) then here else latestTime);
  }

  method FindLatestSnapshotTime(c: Cluster, plan: string, clusters: seq<Target>)
    returns (r: Result<string>, statuses: seq<TargetStatus>)
    requires WellKeyed(c.claims)
    ensures r.Ok? ==>
      LatestOf(c, plan, clusters, |clusters|, r.value) && FoundUpTo(statuses, clusters, |clusters|, None)
    ensures r.Err? ==>
      EndsFailed(statuses, clusters, r.error) && FoundUpTo(statuses, clusters, |statuses| - 1, Some(r.error))
  {
    var latestTime := "";
    statuses := [];
    for n := 0 to |clusters|
      invariant LatestOf(c, plan, clusters, n, latestTime)
      invariant FoundUpTo(statuses, clusters, n, None)
    {
      var clusterStatus := Found(clusters[n]);
      var later := LaterOf(c, plan, clusters, n, latestTime);
      if later.Err? {
        FoundAllBut(statuses, clusters, n, later.error);
        statuses := AppendFailed(statuses, clusterStatus, later.error);
        return later, statuses;
      }
      FoundOneMore(statuses, clusters, n);
      latestTime := later.value;
      statuses := statuses + [clusterStatus];
    }
    return Ok(latestTime), statuses;
  }

  /**
   The time found is the latest in the calendar, too: no snapshot whose name ends in an accepted
   time was taken later, whatever other names there are.
   */
  lemma LatestIsLatestInTime(c: Cluster, plan: string, ts: seq<Target>, latest: string, i: nat, when: string)
    requires LatestOf(c, plan, ts, |ts|, latest) && ValidStamp(latest)
    requires i < |ts| && Candidate(c, plan, ts[i], when) && ValidStamp(when)
    ensures MinuteNumber(Read(when)) <= MinuteNumber(Read(latest))
  {
    StampOrderIsTimeOrder(latest, when);
  }

  /** A time some target has a snapshot for, or what stands in its place in the name. */
  ghost predicate CandidateOf(c: Cluster, plan: string, ts: seq<Target>, when: string)
    reads c`claims, c`snapshots
  {
    exists i :: 0 <= i < |ts| && Candidate(c, plan, ts[i], when)
  }

  /**
   What can be told from the snapshots beforehand: every name that has the plan's prefix but no accepted
   time after it sorts below one that has.
   */
  ghost predicate StraysAreBelow(c: Cluster, plan: string, ts: seq<Target>)
    reads c`claims, c`snapshots
  {
    forall v :: CandidateOf(c, plan, ts, v) && !ValidStamp(v) ==>
      exists w :: CandidateOf(c, plan, ts, w) && ValidStamp(w) && Less(v, w)
  }

  /** The time found is an accepted one exactly when no stray name sorts above all accepted times. */
  lemma LatestIsAcceptedIff(c: Cluster, plan: string, ts: seq<Target>, latest: string)
    requires LatestOf(c, plan, ts, |ts|, latest) && |ts| > 0
    ensures ValidStamp(latest) <==> StraysAreBelow(c, plan, ts)
    ensures ValidStamp(latest) <==>
      exists w :: CandidateOf(c, plan, ts, w) && ValidStamp(w) && forall v :: CandidateOf(c, plan, ts, v) ==>
        !Less(w, v)
  {
    assert CandidateOf(c, plan, ts, latest);
    forall v | CandidateOf(c, plan, ts, v) ensures !Less(latest, v) && (v == latest || Less(v, latest)) {
      LessTotal(latest, v);
    }
  }

  /** The latest of no targets is no time. */
  lemma NoTargetsNoTime(c: Cluster, plan: string, ts: seq<Target>, latest: string)
    requires LatestOf(c, plan, ts, |ts|, latest) && ValidStamp(latest)
    ensures |ts| > 0
  {
  }

  /** For a plan whose name continues this one's after a dash, each snapshot is a stray name here, whatever its time. */
  lemma OtherPlansSnapshotIsStray(c: Cluster, t: Target, plan: string, x: string, k: Key, q: Key, when: string)
    requires Selected(c, t, k) && q in c.snapshots && q.namespace == t.namespace
    requires q.name == Prefix(c.claims[k].meta.name, plan + "-" + x) + when
    ensures Candidate(c, plan, t, x + "-" + when) && !ValidStamp(x + "-" + when)
  {
    var name := c.claims[k].meta.name;
    assert q.name == Prefix(name, plan) + (x + "-" + when);
    assert (x + "-" + when)[|x|] == '-';
  }

  lemma LettersSortAboveTimes(v: string, w: string)
    requires v != "" && v[0] > '9' && ValidStamp(w)
    ensures Less(w, v) && !Less(v, w)
  {
    assert IsDigit(w[0]);
  }

  /**
   If what the other plan's name goes on with begins with a letter, its snapshots sort above all times:
   then the restore time of this plan cannot be found.
   */
  lemma PlanNamesCanClash(c: Cluster, plan: string, ts: seq<Target>, i: nat, x: string, k: Key, q: Key, when: string)
    requires i < |ts| && Selected(c, ts[i], k) && q in c.snapshots && q.namespace == ts[i].namespace
    requires q.name == Prefix(c.claims[k].meta.name, plan + "-" + x) + when && x != "" && x[0] > '9'
    ensures !StraysAreBelow(c, plan, ts)
  {
    var v := x + "-" + when;
    OtherPlansSnapshotIsStray(c, ts[i], plan, x, k, q, when);
    assert CandidateOf(c, plan, ts, v);
    forall w | ValidStamp(w) ensures !Less(v, w) { LettersSortAboveTimes(v, w); }
  }

  // ---------------------------------------------------------------- the join of claims and snapshots

  predicate Matches(pvc: Claim, s: VolumeSnapshot, plan: string, time: string) {
    pvc.meta.name + "-" + plan + "-" + time == s.name
  }

  predicate IsReady(s: VolumeSnapshot) { s.readyToUse == Some(true) }

  function ClassFor(pvc: Claim, t: Target): Option<string> {
    if t.pvcStorageClass.Some? && t.pvcStorageClass.value != "" then t.pvcStorageClass else pvc.storageClass
  }

  function RefFor(pvc: Claim, s: VolumeSnapshot, t: Target): SnapshotRef {
    SnapshotRef(s.uid, s.name, pvc.meta.name, ClassFor(pvc, t), pvc.meta.name in t.skipRestoringPVCs)
  }

  /** The names the join looks for are those the search for the latest time finds: prefix, then time. */
  lemma MatchesIff(pvc: Claim, s: VolumeSnapshot, plan: string, time: string)
    ensures Matches(pvc, s, plan, time) <==> s.name == Prefix(pvc.meta.name, plan) + time
    ensures Matches(pvc, s, plan, time) <==> s.name == pvc.meta.name + "-" + plan + "-" + time
  {
    assert Prefix(pvc.meta.name, plan) + time == pvc.meta.name + "-" + plan + "-" + time;
  }

  /** So a snapshot that is joined counts as a candidate of its time. */
  lemma JoinedIsCandidate(c: Cluster, t: Target, plan: string, time: string, k: Key, s: VolumeSnapshot)
    requires Selected(c, t, k) && StoredSnapshot(c, t.namespace, time, s) && Matches(c.claims[k], s, plan, time)
    ensures Candidate(c, plan, t, time)
  {
    MatchesIff(c.claims[k], s, plan, time);
    var q := Key(t.namespace, s.name);
    assert q.name == Prefix(c.claims[k].meta.name, plan) + time;
  }

  /** Which claim names end in the same rest: none but equal ones. */
  lemma MatchingIsInjective(a: Claim, b: Claim, s1: VolumeSnapshot, s2: VolumeSnapshot, plan: string, time: string)
    requires Matches(a, s1, plan, time) && Matches(b, s2, plan, time)
    ensures a.meta.name == b.meta.name <==> s1.name == s2.name
  {
    var rest := "-" + plan + "-" + time;
    assert s1.name == a.meta.name + rest && s2.name == b.meta.name + rest;
    if s1.name == s2.name {
      assert |a.meta.name| == |b.meta.name|;
      assert a.meta.name == s1.name[..|a.meta.name|] && b.meta.name == s2.name[..|b.meta.name|];
    }
  }

  /** `refs[n]` was built from snapshot `at[n].0` and claim `at[n].1`. */
  ghost predicate BuiltFrom(pvcs: seq<Claim>, snaps: seq<VolumeSnapshot>, plan: string, time: string, t: Target,
                            refs: seq<SnapshotRef>, at: seq<(nat, nat)>) {
    && |refs| == |at|
    && (forall n :: 0 <= n < |refs| ==>
         && at[n].0 < |snaps| && at[n].1 < |pvcs|
         && Matches(pvcs[at[n].1], snaps[at[n].0], plan, time) && IsReady(snaps[at[n].0])
         && refs[n] == RefFor(pvcs[at[n].1], snaps[at[n].0], t))
    && (forall m, n :: 0 <= m < n < |at| ==> at[m] != at[n])
  }

  /** Position `(a, b)` comes before `(i, j)` in the nested loop. */
  predicate Behind(a: nat, b: nat, i: nat, j: nat) { a < i || (a == i && b < j) }

  /** The join so far: what was built comes from positions passed, and every match among these is in it. */
  ghost predicate JoinedUpTo(pvcs: seq<Claim>, snaps: seq<VolumeSnapshot>, plan: string, time: string, t: Target,
                             refs: seq<SnapshotRef>, at: seq<(nat, nat)>, i: nat, j: nat) {
    && BuiltFrom(pvcs, snaps, plan, time, t, refs, at)
    && (forall n :: 0 <= n < |at| ==> Behind(at[n].0, at[n].1, i, j))
    && (forall a, b ::
        0 <= a < |snaps| && 0 <= b < |pvcs| && Behind(a, b, i, j) && Matches(pvcs[b], snaps[a], plan, time) ==>
          (a, b) in at)
  }

  lemma OneMoreJoined(pvcs: seq<Claim>, snaps: seq<VolumeSnapshot>, plan: string, time: string, t: Target,
                      refs: seq<SnapshotRef>, at: seq<(nat, nat)>, i: nat, j: nat)
    requires i < |snaps| && j < |pvcs| && JoinedUpTo(pvcs, snaps, plan, time, t, refs, at, i, j)
    ensures !Matches(pvcs[j], snaps[i], plan, time) ==> JoinedUpTo(pvcs, snaps, plan, time, t, refs, at, i, j + 1)
    ensures Matches(pvcs[j], snaps[i], plan, time) && IsReady(snaps[i]) ==>
      JoinedUpTo(pvcs, snaps, plan, time, t, refs + [RefFor(pvcs[j], snaps[i], t)], at + [(i, j)], i, j + 1)
  {
    var more := at + [(i, j)];
    assert more[|at|] == (i, j);
    forall x | x in at ensures x in more {
    }
  }

  lemma NextSnapshotJoined(pvcs: seq<Claim>, snaps: seq<VolumeSnapshot>, plan: string, time: string, t: Target,
                           refs: seq<SnapshotRef>, at: seq<(nat, nat)>, i: nat)
    requires JoinedUpTo(pvcs, snaps, plan, time, t, refs, at, i, |pvcs|)
    ensures JoinedUpTo(pvcs, snaps, plan, time, t, refs, at, i + 1, 0)
  {
  }

  /** The body of the inner loop: the reference of a claim to a ready snapshot that is its own. */
  method NewRef(pvc: Claim, snapshot: VolumeSnapshot, cluster: Target) returns (r: Result<SnapshotRef>)
    ensures r.Ok? <==> snapshot.readyToUse == Some(true)
    ensures r.Ok? ==>
      && r.value.snapshotUID == snapshot.uid && r.value.snapshotName == snapshot.name
      && r.value.pvcName == pvc.meta.name
      && (r.value.skipRestoringPVC <==> pvc.meta.name in cluster.skipRestoringPVCs)
      && r.value.pvcStorageClass == 
           (if cluster.pvcStorageClass.Some? && cluster.pvcStorageClass.value != "" then cluster.pvcStorageClass
            else pvc.storageClass)
    ensures r.Ok? ==> r.value == RefFor(pvc, snapshot, cluster)
  {
    if snapshot.readyToUse != Some(true) {
      return Err(Other("snapshot " + snapshot.name + " is not ready to use"));
    }
    var storageClass := pvc.storageClass;
    if cluster.pvcStorageClass.Some? && cluster.pvcStorageClass.value != "" {
      storageClass := cluster.pvcStorageClass;
    }
    return Ok(SnapshotRef(snapshot.uid, snapshot.name, pvc.meta.name, storageClass,
      pvc.meta.name in cluster.skipRestoringPVCs));
  }

  /** The nested loop: for every snapshot, every claim it belongs to; a snapshot not ready stops it. */
  method JoinSnapshots(pvcs: seq<Claim>, snaps: seq<VolumeSnapshot>, plan: string, time: string, cluster: Target)
    returns (r: Result<seq<SnapshotRef>>, ghost at: seq<(nat, nat)>)
    ensures r.Ok? ==> BuiltFrom(pvcs, snaps, plan, time, cluster, r.value, at)
    ensures r.Ok? ==> forall i, j :: 0 <= i < |snaps| && 0 <= j < |pvcs| && Matches(pvcs[j], snaps[i], plan, time) ==>
      (i, j) in at
    ensures r.Err? ==> exists i, j ::
      0 <= i < |snaps| && 0 <= j < |pvcs| && Matches(pvcs[j], snaps[i], plan, time) && !IsReady(snaps[i])
  {
    var refs: seq<SnapshotRef> := [];
    at := [];
    for i := 0 to |snaps|
      invariant JoinedUpTo(pvcs, snaps, plan, time, cluster, refs, at, i, 0)
    {
      for j := 0 to |pvcs|
        invariant JoinedUpTo(pvcs, snaps, plan, time, cluster, refs, at, i, j)
      {
        OneMoreJoined(pvcs, snaps, plan, time, cluster, refs, at, i, j);
        if pvcs[j].meta.name + "-" + plan + "-" + time == snaps[i].name {
          var ref := NewRef(pvcs[j], snaps[i], cluster);
          if ref.Err? { return Err(ref.error), at; }
          refs, at := refs + [ref.value], at + [(i, j)];
        }
      }
      NextSnapshotJoined(pvcs, snaps, plan, time, cluster, refs, at, i);
    }
    return Ok(refs), at;
  }

  /** A claim of the target that has a snapshot for this plan and time, as it is to be restored. */
  ghost predicate Joined(c: Cluster, t: Target, plan: string, time: string, ref: SnapshotRef)
    reads c`claims, c`snapshots
  {
    exists k, s :: Selected(c, t, k) && StoredSnapshot(c, t.namespace, time, s)
      && Matches(c.claims[k], s, plan, time) && IsReady(s) && ref == RefFor(c.claims[k], s, t)
  }

  /** No claim of the target has an unready snapshot for this plan and time. */
  ghost predicate NoneUnready(c: Cluster, t: Target, plan: string, time: string)
    reads c`claims, c`snapshots
  {
    forall k, s ::
      Selected(c, t, k) && StoredSnapshot(c, t.namespace, time, s) && Matches(c.claims[k], s, plan, time) ==>
        IsReady(s)
  }

  /** The references are exactly the claims with a snapshot, each claim once, and no snapshot is unready. */
  ghost predicate ExactJoin(c: Cluster, t: Target, plan: string, time: string, refs: seq<SnapshotRef>)
    reads c`claims, c`snapshots
  {
    && (forall ref :: ref in refs <==> Joined(c, t, plan, time, ref))
    && (forall m, n :: 0 <= m < n < |refs| ==> refs[m].pvcName != refs[n].pvcName)
    && NoneUnready(c, t, plan, time)
  }

  lemma JoinIsSound(c: Cluster, t: Target, plan: string, time: string, pvcs: seq<Claim>, snaps: seq<VolumeSnapshot>,
                    refs: seq<SnapshotRef>, at: seq<(nat, nat)>)
    requires Fetched(c, t, time, pvcs, snaps) && BuiltFrom(pvcs, snaps, plan, time, t, refs, at)
    ensures forall ref :: ref in refs ==> Joined(c, t, plan, time, ref)
  {
    forall n | 0 <= n < |refs| ensures Joined(c, t, plan, time, refs[n]) {
      var k, s := pvcs[at[n].1].meta.Id(), snaps[at[n].0];
      assert Selected(c, t, k) && StoredSnapshot(c, t.namespace, time, s);
    }
  }

  lemma JoinIsComplete(c: Cluster, t: Target, plan: string, time: string, pvcs: seq<Claim>, snaps: seq<VolumeSnapshot>,
                       refs: seq<SnapshotRef>, at: seq<(nat, nat)>, k: Key, s: VolumeSnapshot)
    requires Fetched(c, t, time, pvcs, snaps) && BuiltFrom(pvcs, snaps, plan, time, t, refs, at)
    requires forall i, j :: 0 <= i < |snaps| && 0 <= j < |pvcs| && Matches(pvcs[j], snaps[i], plan, time) ==>
      (i, j) in at
    requires Selected(c, t, k) && StoredSnapshot(c, t.namespace, time, s) && Matches(c.claims[k], s, plan, time)
    ensures IsReady(s) && RefFor(c.claims[k], s, t) in refs
  {
    var j :| 0 <= j < |pvcs| && pvcs[j] == c.claims[k];
    var i :| 0 <= i < |snaps| && snaps[i] == s;
    assert (i, j) in at;
    var n :| 0 <= n < |at| && at[n] == (i, j);
    assert refs[n] == RefFor(c.claims[k], s, t);
  }

  lemma JoinIsUnique(c: Cluster, t: Target, plan: string, time: string, pvcs: seq<Claim>, snaps: seq<VolumeSnapshot>,
                     refs: seq<SnapshotRef>, at: seq<(nat, nat)>)
    requires Fetched(c, t, time, pvcs, snaps) && BuiltFrom(pvcs, snaps, plan, time, t, refs, at)
    ensures forall m, n :: 0 <= m < n < |refs| ==> refs[m].pvcName != refs[n].pvcName
  {
    forall m, n | 0 <= m < n < |refs| ensures refs[m].pvcName != refs[n].pvcName {
      MatchingIsInjective(pvcs[at[m].1], pvcs[at[n].1], snaps[at[m].0], snaps[at[n].0], plan, time);
      assert at[m] != at[n];
    }
  }

  lemma JoinIsExact(c: Cluster, t: Target, plan: string, time: string, pvcs: seq<Claim>, snaps: seq<VolumeSnapshot>,
                    refs: seq<SnapshotRef>, at: seq<(nat, nat)>)
    requires Fetched(c, t, time, pvcs, snaps) && BuiltFrom(pvcs, snaps, plan, time, t, refs, at)
    requires forall i, j :: 0 <= i < |snaps| && 0 <= j < |pvcs| && Matches(pvcs[j], snaps[i], plan, time) ==>
      (i, j) in at
    ensures ExactJoin(c, t, plan, time, refs)
  {
    JoinIsSound(c, t, plan, time, pvcs, snaps, refs, at);
    JoinIsUnique(c, t, plan, time, pvcs, snaps, refs, at);
    forall k, s | Selected(c, t, k) && StoredSnapshot(c, t.namespace, time, s) && Matches(c.claims[k], s, plan, time)
      ensures IsReady(s) && RefFor(c.claims[k], s, t) in refs
    {
      JoinIsComplete(c, t, plan, time, pvcs, snaps, refs, at, k, s);
    }
  }

  // ---------------------------------------------------------------- one plan

  /** What a target that passed validation is recorded as. */
  ghost predicate ClusterValidated(c: Cluster, plan: string, time: string, t: Target, st: TargetStatus)
    reads c`claims, c`snapshots, c`statefulSets
  {
    && Describes(st, t) && st.phase == Validated && st.error == "" && st.originalReplicas == t.replicas
    && t.Id() in c.statefulSets
    && st.podManagementPolicy == c.statefulSets[t.Id()].spec.policy
    && st.currentReplicas == (match c.statefulSets[t.Id()].spec.replicas case None => 0 case Some(n) => n)
    && st.snapshotsRef != [] && ExactJoin(c, t, plan, time, st.snapshotsRef)
  }

  /** The base of every entry `validateSnapshot` writes. */
  function Named(t: Target): TargetStatus {
    TargetStatus(t.name, t.namespace, t.kind, [], Unspecified, 0, 0, Unset, "")
  }

  method ValidateCluster(c: Cluster, plan: string, time: string, cluster: Target)
    returns (r: Result<()>, st: TargetStatus)
    requires WellKeyed(c.claims)
    ensures r.Ok? ==> ClusterValidated(c, plan, time, cluster, st)
    ensures NoneSelected(c, cluster) ==> r.Err?
    ensures Describes(st, cluster)
  {
    st := Named(cluster);
    var sts := c.GetStatefulSet(cluster.Id());
    if sts.Err? { return Err(sts.error), st; }
    st := st.(originalReplicas := cluster.replicas);
    if sts.value.spec.replicas.Some? {
      st := st.(currentReplicas := sts.value.spec.replicas.value);
    }
    if sts.value.spec.policy != Unspecified {
      st := st.(podManagementPolicy := sts.value.spec.policy);
    }
    var lists := FetchClusterResources(c, cluster, plan, time);
    if lists.Err? { return Err(lists.error), st; }
    var (pvcs, snaps) := lists.value;
    var joined, at := JoinSnapshots(pvcs, snaps, plan, time, cluster);
    if joined.Err? { return Err(joined.error), st; }
    if joined.value == [] {
      return Err(Other("no snapshots found in namespace " + cluster.namespace + " by time " + time)), st;
    }
    JoinIsExact(c, cluster, plan, time, pvcs, snaps, joined.value, at);
    st := st.(snapshotsRef := joined.value);
    st := st.(phase := Validated);
    return Ok(()), st;
  }

  ghost predicate OperatorValidated(c: Cluster, t: Target, st: TargetStatus)
    reads c`deployments
  {
    && Describes(st, t) && st.phase == Validated && st.error == "" && st.originalReplicas == t.replicas
    && st.snapshotsRef == []
    && t.Id() in c.deployments
    && st.currentReplicas == (match c.deployments[t.Id()].replicas case None => 0 case Some(n) => n)
  }

  ghost predicate ClustersValidated(c: Cluster, plan: string, time: string, ts: seq<Target>, sts: seq<TargetStatus>,
          n: nat)
    requires n <= |ts|
    reads c`claims, c`snapshots, c`statefulSets
  {
    n <= |sts| && forall i :: 0 <= i < n ==> ClusterValidated(c, plan, time, ts[i], sts[i])
  }

  ghost predicate OperatorsValidated(c: Cluster, ts: seq<Target>, sts: seq<TargetStatus>, n: nat)
    requires n <= |ts|
    reads c`deployments
  {
    n <= |sts| && forall i :: 0 <= i < n ==> OperatorValidated(c, ts[i], sts[i])
  }

  /** The last entry is that of the target that failed. */
  ghost predicate EndsFailed(sts: seq<TargetStatus>, ts: seq<Target>, e: Error) {
    && 0 < |sts| <= |ts|
    && Describes(sts[|sts| - 1], ts[|sts| - 1]) && sts[|sts| - 1].phase == Failed && sts[|sts| - 1].error == e.Text()
  }

  /** What a refused plan records: the targets up to the one that failed, or all of them failed for the same reason. */
  ghost predicate ShowsRefusal(plan: RestorePlan, p: PlanStatus, e: Error) {
    || EndsFailed(p.clusters, plan.clusters, e)
    || EndsFailed(p.operators, plan.operators, e)
    || (DescribesAll(p.clusters, plan.clusters) && forall i :: 0 <= i < |p.clusters| ==>
        p.clusters[i].phase == Failed && p.clusters[i].error == e.Text())
  }

  method ValidateClusters(c: Cluster, plan: string, time: string, clusters: seq<Target>)
    returns (r: Result<()>, sts: seq<TargetStatus>)
    requires WellKeyed(c.claims)
    ensures r.Ok? ==> |sts| == |clusters| && ClustersValidated(c, plan, time, clusters, sts, |clusters|)
    ensures r.Err? ==> EndsFailed(sts, clusters, r.error) && ClustersValidated(c, plan, time, clusters, sts, |sts| - 1)
  {
    sts := [];
    for i := 0 to |clusters|
      invariant |sts| == i && ClustersValidated(c, plan, time, clusters, sts, i)
    {
      var valid, st := ValidateCluster(c, plan, time, clusters[i]);
      if valid.Err? {
        return valid, AppendFailed(sts, st, valid.error);
      }
      sts := sts + [st];
    }
    return Ok(()), sts;
  }

  /** The recorded references name this claim. */
  ghost predicate Refers(ts: seq<TargetStatus>, id: Key) {
    exists t, ref :: t in ts && ref in t.snapshotsRef && Key(t.namespace, ref.pvcName) == id
  }

  /** Validation lists the claims there are: what it records refers to no other. */
  lemma ValidatedRefsArePresent(c: Cluster, name: string, time: string, plan: RestorePlan, clusters: seq<TargetStatus>,
          id: Key)
    requires WellKeyed(c.claims) && |clusters| == |plan.clusters| && Refers(clusters, id)
    requires ClustersValidated(c, name, time, plan.clusters, clusters, |clusters|)
    ensures exists i :: 0 <= i < |plan.clusters| && Selected(c, plan.clusters[i], id)
  {
    var t, ref :| t in clusters && ref in t.snapshotsRef && Key(t.namespace, ref.pvcName) == id;
    var i :| 0 <= i < |clusters| && clusters[i] == t;
    assert ClusterValidated(c, name, time, plan.clusters[i], clusters[i]);
    JoinedIsSelected(c, plan.clusters[i], name, time, ref);
  }

  lemma JoinedIsSelected(c: Cluster, t: Target, plan: string, time: string, ref: SnapshotRef)
    requires WellKeyed(c.claims) && Joined(c, t, plan, time, ref)
    ensures Selected(c, t, Key(t.namespace, ref.pvcName))
  {
    var k, s :| Selected(c, t, k) && StoredSnapshot(c, t.namespace, time, s)
      && Matches(c.claims[k], s, plan, time) && IsReady(s) && ref == RefFor(c.claims[k], s, t);
    assert c.claims[k].meta.Id() == k;
  }

  /**
   What a reference asks for, in terms of the spec and the claims alone: the snapshot named after claim, plan
   and time; the storage class of the spec or else that of the claim; and to be skipped if the spec says so.
   */
  ghost predicate IsAsAsked(plan: string, time: string, t: Target, claims: map<Key, Claim>,
                            selects: (Selector, Labels) -> bool, ref: SnapshotRef) {
    var k := Key(t.namespace, ref.pvcName);
    && k in claims && t.claimSelector.Some? && selects(t.claimSelector.value, claims[k].meta.labels)
    && ref.snapshotName == ref.pvcName + "-" + plan + "-" + time
    && ref.pvcStorageClass == 
         (if t.pvcStorageClass.Some? && t.pvcStorageClass.value != "" then t.pvcStorageClass
          else claims[k].storageClass)
    && (ref.skipRestoringPVC <==> ref.pvcName in t.skipRestoringPVCs)
  }

  /** Every reference a passed validation records is as asked, and to the ready snapshot of that name. */
  lemma ValidatedRefsAreAsAsked(c: Cluster, plan: string, time: string, t: Target, st: TargetStatus, ref: SnapshotRef)
    requires WellKeyed(c.claims) && ClusterValidated(c, plan, time, t, st) && ref in st.snapshotsRef
    ensures IsAsAsked(plan, time, t, c.claims, c.selects, ref)
    ensures var q := Key(t.namespace, ref.snapshotName);
      && q in c.snapshots && c.snapshots[q].uid == ref.snapshotUID && c.snapshots[q].readyToUse == Some(true)
  {
    assert Joined(c, t, plan, time, ref);
    var k, s :| Selected(c, t, k) && StoredSnapshot(c, t.namespace, time, s)
      && Matches(c.claims[k], s, plan, time) && IsReady(s) && ref == RefFor(c.claims[k], s, t);
    MatchesIff(c.claims[k], s, plan, time);
    assert c.claims[k].meta.Id() == k;
  }

  method ValidateOperators(c: Cluster, operators: seq<Target>) returns (r: Result<()>, sts: seq<TargetStatus>)
    ensures r.Ok? ==> |sts| == |operators| && OperatorsValidated(c, operators, sts, |operators|)
    ensures r.Err? ==> EndsFailed(sts, operators, r.error) && OperatorsValidated(c, operators, sts, |sts| - 1)
  {
    sts := [];
    for i := 0 to |operators|
      invariant |sts| == i && OperatorsValidated(c, operators, sts, i)
    {
      var st := Named(operators[i]);
      var d := c.GetDeployment(operators[i].Id());
      if d.Err? {
        return Err(d.error), AppendFailed(sts, st, d.error);
      }
      st := st.(originalReplicas := operators[i].replicas);
      if d.value.replicas.Some? {
        st := st.(currentReplicas := d.value.replicas.value);
      }
      st := st.(phase := Validated);
      sts := sts + [st];
    }
    return Ok(()), sts;
  }

  /** The plan's entries show a passed validation: every target in place, every snapshot of one time. */
  ghost predicate PlanValidated(c: Cluster, name: string, time: string, plan: RestorePlan,
                                clusters: seq<TargetStatus>, operators: seq<TargetStatus>)
    reads c`claims, c`snapshots, c`statefulSets, c`deployments
  {
    && |clusters| == |plan.clusters| && ClustersValidated(c, name, time, plan.clusters, clusters, |clusters|)
    && |operators| == |plan.operators| && OperatorsValidated(c, plan.operators, operators, |operators|)
  }

  method ValidateSnapshot(c: Cluster, name: string, plan: RestorePlan)
    returns (r: Result<()>, clusters: seq<TargetStatus>, operators: seq<TargetStatus>)
    requires WellKeyed(c.claims)
    ensures r.Ok? ==> PlanValidated(c, name, plan.snapshotRestoreTime, plan, clusters, operators)
    ensures r.Err? ==> EndsFailed(clusters, plan.clusters, r.error) || EndsFailed(operators, plan.operators, r.error)
  {
    r, clusters := ValidateClusters(c, name, plan.snapshotRestoreTime, plan.clusters);
    if r.Err? { return r, clusters, []; }
    r, operators := ValidateOperators(c, plan.operators);
  }

  method ValidateSnapshotTime(s: string) returns (r: Result<()>)
    ensures r.Ok? <==> ValidStamp(s)
  {
    var parsed := Parse(s);
    if parsed.Some? { return Ok(()); }
    return Err(Other("invalid snapshotRestoreTime format, expected YYYYMMDDHHMM"));
  }

  method BuildFailedClustersStatus(clusters: seq<Target>, e: Error) returns (sts: seq<TargetStatus>)
    ensures DescribesAll(sts, clusters)
    ensures forall i :: 0 <= i < |sts| ==>
      && sts[i].phase == Failed && sts[i].error == e.Text() && sts[i].snapshotsRef == []
      && sts[i].originalReplicas == sts[i].currentReplicas == clusters[i].replicas
  {
    sts := [];
    for i := 0 to |clusters|
      invariant |sts| == i
      invariant forall k :: 0 <= k < i ==>
        && Describes(sts[k], clusters[k]) && sts[k].phase == Failed && sts[k].error == e.Text()
        && sts[k].snapshotsRef == [] && sts[k].originalReplicas == sts[k].currentReplicas == clusters[k].replicas
    {
      sts := AppendFailed(sts, Found(clusters[i]), e);
    }
  }

  lemma ValidatedIsAligned(c: Cluster, name: string, time: string, plan: RestorePlan,
                           clusters: seq<TargetStatus>, operators: seq<TargetStatus>)
    requires PlanValidated(c, name, time, plan, clusters, operators)
    ensures DescribesAll(clusters, plan.clusters) && DescribesAll(operators, plan.operators)
  {
    forall i | 0 <= i < |plan.clusters| ensures Describes(clusters[i], plan.clusters[i]) {
      assert ClusterValidated(c, name, time, plan.clusters[i], clusters[i]);
    }
    forall i | 0 <= i < |plan.operators| ensures Describes(operators[i], plan.operators[i]) {
      assert OperatorValidated(c, plan.operators[i], operators[i]);
    }
  }

  // ---------------------------------------------------------------- recording a validation

  /** All that validation changes about a plan: its restore point, its lock, and its targets. */
  ghost predicate PlanRevalidated(a: PlanStatus, b: PlanStatus, lock: bool) {
    && b == a.(snapshotRestoreTime := b.snapshotRestoreTime, lock := lock, clusters := b.clusters,
        operators := b.operators)
    && (a.lock && a.snapshotRestoreTime != "" ==> b.snapshotRestoreTime == a.snapshotRestoreTime)
  }

  ghost predicate OnePlanRevalidated(s0: Status, s1: Status, name: string, lock: bool) {
    && s1.plans.Keys <= s0.plans.Keys + {name} && s0.plans.Keys <= s1.plans.Keys
    && (forall q :: q != name ==> PlanOf(s1, q) == PlanOf(s0, q))
    && (PlanOf(s1, name) == PlanOf(s0, name) || PlanRevalidated(PlanOf(s0, name), PlanOf(s1, name), lock))
  }

  /** What the code passes on for a locked plan: its lock, and the restore point it is locked to. */
  predicate Respects(a: PlanStatus, time: string, lock: bool) {
    a.lock ==> lock && (a.snapshotRestoreTime != "" ==> time == a.snapshotRestoreTime)
  }

  lemma RevalidationStep(a: PlanStatus, b: PlanStatus, lock: bool)
    requires PlanRevalidated(a, b, lock) && Staged(a) && (a.lock ==> lock)
    ensures Staged(b) && PlanStep(a, b)
  {
  }

  method RecordValidation(c: Cluster, obj: RestoreObject, name: string, time: string, lock: bool,
                          clusters: seq<TargetStatus>, operators: seq<TargetStatus>) returns (r: Result<()>)
    requires c.status == obj.status && Respects(PlanOf(c.status, name), time, lock)
    modifies obj`status, c`status, c`history, c`lostWrites
    ensures OnePlanRevalidated(old(c.status), c.status, name, lock)
    ensures KeepsAnyOrder(old(c.history), old(c.status), c.history, c.status)
    ensures r.Ok? ==>
      c.status == obj.status == WithValidated(old(c.status), name, time, lock, clusters, operators)
    ensures c.lostWrites == old(c.lostWrites) + if r.Ok? then 0 else 1
  {
    ghost var h0, s0 := c.history, c.status;
    r := SetValidateRestorePlan(c, obj, name, time, lock, clusters, operators);
    forall plans | Orderly(h0, s0, plans) ensures Orderly(c.history, c.status, plans) {
      if name in plans {
        RevalidationStep(PlanOf(s0, name), PlanOf(WithValidated(s0, name, time, lock, clusters, operators), name),
          lock);
      }
    }
  }

  method FailPlan(c: Cluster, obj: RestoreObject, name: string, time: string, lock: bool,
                  clusters: seq<TargetStatus>, operators: seq<TargetStatus>) returns (r: Result<()>)
    requires c.status == obj.status && Respects(PlanOf(c.status, name), time, lock)
    modifies obj`status, c`status, c`history, c`lostWrites
    ensures OnePlanRevalidated(old(c.status), c.status, name, lock)
    ensures KeepsAnyOrder(old(c.history), old(c.status), c.history, c.status)
    ensures r.Ok? ==>
      && c.status == obj.status
      && c.status ==
          WithPhase(WithActivePlan(WithValidated(old(c.status), name, time, lock, clusters, operators), name), Failed)
    ensures c.lostWrites == old(c.lostWrites) + if r.Ok? then 0 else 1
  {
    var _ :- RecordValidation(c, obj, name, time, lock, clusters, operators);
    var _ :- SetActivePlan(c, obj, name);
    r := SetPhase(c, obj, Failed);
  }

  /** How the validation of one plan ends: passed, refused and recorded, or broken off by a failed status write. */
  datatype Verdict = Passed | Refused(error: Error) | BrokenOff(error: Error)

  /** The plan's stored entry shows a passed validation at an accepted time. */
  ghost predicate Checked(c: Cluster, name: string, plan: RestorePlan, p: PlanStatus)
    reads c`claims, c`snapshots, c`statefulSets, c`deployments
  {
    ValidStamp(p.snapshotRestoreTime) && PlanValidated(c, name, p.snapshotRestoreTime, plan, p.clusters, p.operators)
  }

  /** Records the refusal of a plan. */
  method Refuse(c: Cluster, obj: RestoreObject, name: string, time: string, lock: bool, e: Error,
                clusters: seq<TargetStatus>, operators: seq<TargetStatus>) returns (v: Verdict)
    requires c.status == obj.status && Respects(PlanOf(c.status, name), time, lock)
    modifies obj`status, c`status, c`history, c`lostWrites
    ensures OnePlanRevalidated(old(c.status), c.status, name, lock)
    ensures KeepsAnyOrder(old(c.history), old(c.status), c.history, c.status)
    ensures !v.Passed?
    ensures v.Refused? ==> v.error == e
    ensures v.Refused? ==>
      && c.status == obj.status ==
          WithPhase(WithActivePlan(WithValidated(old(c.status), name, time, lock, clusters, operators), name), Failed)
      && PlanRevalidated(PlanOf(old(c.status), name), PlanOf(c.status, name), lock)
    ensures c.lostWrites == old(c.lostWrites) + if v.BrokenOff? then 1 else 0
  {
    var written := FailPlan(c, obj, name, time, lock, clusters, operators);
    return if written.Err? then BrokenOff(written.error) else Refused(e);
  }

  /** The second case of the switch: the restore time is known, and everything is looked up for it. */
  method ValidateAt(c: Cluster, obj: RestoreObject, name: string, plan: RestorePlan, lock: bool) returns (v: Verdict)
    requires c.status == obj.status && WellKeyed(c.claims)
      && Respects(PlanOf(c.status, name), plan.snapshotRestoreTime, lock)
    modifies obj`status, c`status, c`history, c`lostWrites
    ensures OnePlanRevalidated(old(c.status), c.status, name, lock)
    ensures KeepsAnyOrder(old(c.history), old(c.status), c.history, c.status)
    ensures !v.BrokenOff? ==>
      && c.status == obj.status && name in c.status.plans
      && PlanRevalidated(PlanOf(old(c.status), name), PlanOf(c.status, name), lock)
      && PlanOf(c.status, name).snapshotRestoreTime == plan.snapshotRestoreTime
    ensures c.lostWrites == old(c.lostWrites) + if v.BrokenOff? then 1 else 0
    ensures v.Refused? ==>
      c.status.phase == Failed && c.status.activePlan == name && ShowsRefusal(plan, PlanOf(c.status, name), v.error)
    ensures v.Passed? ==>
      && c.status.phase == old(c.status.phase)
      && Checked(c, name, plan, PlanOf(c.status, name))
  {
    var proper := ValidateSnapshotTime(plan.snapshotRestoreTime);
    if proper.Err? {
      var statuses := BuildFailedClustersStatus(plan.clusters, proper.error);
      v := Refuse(c, obj, name, plan.snapshotRestoreTime, lock, proper.error, statuses, []);
      return;
    }
    var valid, clusters, operators := ValidateSnapshot(c, name, plan);
    if valid.Err? {
      v := Refuse(c, obj, name, plan.snapshotRestoreTime, lock, valid.error, clusters, operators);
      return;
    }
    var written := RecordValidation(c, obj, name, plan.snapshotRestoreTime, lock, clusters, operators);
    return if written.Err? then BrokenOff(written.error) else Passed;
  }

  /** The restore time of a plan: the one it was given, else the latest there is. */
  ghost predicate TimeChosen(c: Cluster, name: string, plan: RestorePlan, time: string)
    reads c`claims, c`snapshots
  {
    if plan.snapshotRestoreTime != "" then time == plan.snapshotRestoreTime
    else LatestOf(c, name, plan.clusters, |plan.clusters|, time)
  }

  lemma CheckedAtAnyTime(c: Cluster, name: string, plan: RestorePlan, time: string, p: PlanStatus)
    requires Checked(c, name, plan.(snapshotRestoreTime := time), p)
    ensures Checked(c, name, plan, p)
  {
  }

  /** The first case of the switch: the latest time there is, or the refusal of the plan. */
  method ChooseLatest(c: Cluster, obj: RestoreObject, name: string, plan: RestorePlan, lock: bool)
    returns (time: string, v: Verdict)
    requires c.status == obj.status && WellKeyed(c.claims) && Respects(PlanOf(c.status, name), "", lock)
    modifies obj`status, c`status, c`history, c`lostWrites
    ensures v.Passed? ==>
      && c.status == obj.status == old(c.status) && c.history == old(c.history) && c.lostWrites == old(c.lostWrites)
      && LatestOf(c, name, plan.clusters, |plan.clusters|, time)
    ensures !v.Passed? ==>
      && OnePlanRevalidated(old(c.status), c.status, name, lock)
      && KeepsAnyOrder(old(c.history), old(c.status), c.history, c.status)
      && c.lostWrites == old(c.lostWrites) + if v.BrokenOff? then 1 else 0
    ensures v.Refused? ==>
      && c.status == obj.status && name in c.status.plans
      && PlanRevalidated(PlanOf(old(c.status), name), PlanOf(c.status, name), lock)
      && c.status.phase == Failed && c.status.activePlan == name && ShowsRefusal(plan, PlanOf(c.status, name), v.error)
  {
    var latest, statuses := FindLatestSnapshotTime(c, name, plan.clusters);
    if latest.Ok? { return latest.value, Passed; }
    time := "";
    v := Refuse(c, obj, name, "", lock, latest.error, statuses, []);
  }

  /** The plan at the latest time; that it is the latest the status written does not change. */
  method ValidateAtLatest(c: Cluster, obj: RestoreObject, name: string, plan: RestorePlan, time: string, lock: bool)
    returns (v: Verdict)
    requires c.status == obj.status && WellKeyed(c.claims) && Respects(PlanOf(c.status, name), time, lock)
    requires LatestOf(c, name, plan.clusters, |plan.clusters|, time)
    modifies obj`status, c`status, c`history, c`lostWrites
    ensures OnePlanRevalidated(old(c.status), c.status, name, lock)
    ensures KeepsAnyOrder(old(c.history), old(c.status), c.history, c.status)
    ensures !v.BrokenOff? ==>
      && c.status == obj.status && name in c.status.plans
      && PlanRevalidated(PlanOf(old(c.status), name), PlanOf(c.status, name), lock)
    ensures c.lostWrites == old(c.lostWrites) + if v.BrokenOff? then 1 else 0
    ensures v.Refused? ==>
      c.status.phase == Failed && c.status.activePlan == name && ShowsRefusal(plan, PlanOf(c.status, name), v.error)
    ensures v.Passed? ==>
      && c.status.phase == old(c.status.phase)
      && Checked(c, name, plan, PlanOf(c.status, name))
      && LatestOf(c, name, plan.clusters, |plan.clusters|, PlanOf(c.status, name).snapshotRestoreTime)
  {
    v := ValidateAt(c, obj, name, plan.(snapshotRestoreTime := time), lock);
    if v.Passed? { CheckedAtAnyTime(c, name, plan, time, PlanOf(c.status, name)); }
  }

  /** A plan without a restore time gets the latest. */
  method ValidateLatest(c: Cluster, obj: RestoreObject, name: string, plan: RestorePlan, lock: bool)
    returns (v: Verdict)
    requires c.status == obj.status && WellKeyed(c.claims) && Respects(PlanOf(c.status, name), "", lock)
    modifies obj`status, c`status, c`history, c`lostWrites
    ensures OnePlanRevalidated(old(c.status), c.status, name, lock)
    ensures KeepsAnyOrder(old(c.history), old(c.status), c.history, c.status)
    ensures !v.BrokenOff? ==>
      && c.status == obj.status && name in c.status.plans
      && PlanRevalidated(PlanOf(old(c.status), name), PlanOf(c.status, name), lock)
    ensures c.lostWrites == old(c.lostWrites) + if v.BrokenOff? then 1 else 0
    ensures v.Refused? ==>
      c.status.phase == Failed && c.status.activePlan == name && ShowsRefusal(plan, PlanOf(c.status, name), v.error)
    ensures v.Passed? ==>
      && c.status.phase == old(c.status.phase)
      && Checked(c, name, plan, PlanOf(c.status, name))
      && LatestOf(c, name, plan.clusters, |plan.clusters|, PlanOf(c.status, name).snapshotRestoreTime)
    ensures !StraysAreBelow(c, name, plan.clusters) ==> !v.Passed?
  {
    var time;
    time, v := ChooseLatest(c, obj, name, plan, lock);
    if v.Passed? {
      v := ValidateAtLatest(c, obj, name, plan, time, lock);
    }
    if v.Passed? { AcceptedMeansNoStrays(c, name, plan.clusters, PlanOf(c.status, name).snapshotRestoreTime); }
  }

  lemma AcceptedMeansNoStrays(c: Cluster, name: string, ts: seq<Target>, time: string)
    requires LatestOf(c, name, ts, |ts|, time) && ValidStamp(time)
    ensures StraysAreBelow(c, name, ts)
  {
    NoTargetsNoTime(c, name, ts, time);
    LatestIsAcceptedIff(c, name, ts, time);
  }

  /** The switch on the restore time: a plan without one gets the latest, and then both are validated alike. */
  method ValidatePlan(c: Cluster, obj: RestoreObject, name: string, plan: RestorePlan, lock: bool) returns (v: Verdict)
    requires c.status == obj.status && WellKeyed(c.claims)
      && Respects(PlanOf(c.status, name), plan.snapshotRestoreTime, lock)
    modifies obj`status, c`status, c`history, c`lostWrites
    ensures OnePlanRevalidated(old(c.status), c.status, name, lock)
    ensures KeepsAnyOrder(old(c.history), old(c.status), c.history, c.status)
    ensures !v.BrokenOff? ==>
      && c.status == obj.status && name in c.status.plans
      && PlanRevalidated(PlanOf(old(c.status), name), PlanOf(c.status, name), lock)
    ensures c.lostWrites == old(c.lostWrites) + if v.BrokenOff? then 1 else 0
    ensures v.Refused? ==>
      c.status.phase == Failed && c.status.activePlan == name && ShowsRefusal(plan, PlanOf(c.status, name), v.error)
    ensures v.Passed? ==>
      && c.status.phase == old(c.status.phase)
      && Checked(c, name, plan, PlanOf(c.status, name))
      && TimeChosen(c, name, plan, PlanOf(c.status, name).snapshotRestoreTime)
    ensures plan.snapshotRestoreTime == "" && !StraysAreBelow(c, name, plan.clusters) ==> !v.Passed?
  {
    if plan.snapshotRestoreTime == "" {
      v := ValidateLatest(c, obj, name, plan, lock);
    } else {
      v := ValidateAt(c, obj, name, plan, lock);
    }
  }

  // ---------------------------------------------------------------- all plans, one flag

  /** Some plan among the first `n` visited was locked when the pass began. */
  predicate LockAfter(st: Status, order: seq<string>, n: nat)
    requires n <= |order|
  {
    exists k :: 0 <= k < n && PlanOf(st, order[k]).lock
  }

  /** Once the first `n` plans are visited: each revalidated under the flag as it then stood, the others untouched. */
  ghost predicate ValidatedUpTo(s0: Status, s1: Status, order: seq<string>, n: nat)
    requires n <= |order|
  {
    && s0.plans.Keys <= s1.plans.Keys
    && (forall k :: 0 <= k < n ==>
         order[k] in s1.plans
           && PlanRevalidated(PlanOf(s0, order[k]), PlanOf(s1, order[k]), LockAfter(s0, order, k + 1)))
    && (forall q :: q !in order[..n] ==> PlanOf(s1, q) == PlanOf(s0, q) && (q in s1.plans ==> q in s0.plans))
  }

  /** At any point of a pass: each plan of the spec as it was, or revalidated; no other plan touched. */
  ghost predicate InValidation(s0: Status, s1: Status, order: seq<string>) {
    && s0.plans.Keys <= s1.plans.Keys
    && (forall k :: 0 <= k < |order| ==>
         || PlanOf(s1, order[k]) == PlanOf(s0, order[k])
         || PlanRevalidated(PlanOf(s0, order[k]), PlanOf(s1, order[k]), LockAfter(s0, order, k + 1)))
    && (forall q :: q !in order ==> PlanOf(s1, q) == PlanOf(s0, q) && (q in s1.plans ==> q in s0.plans))
  }

  lemma OneMoreValidated(s0: Status, s1: Status, s2: Status, order: seq<string>, n: nat)
    requires n < |order| && ValidatedUpTo(s0, s1, order, n)
      && forall i, j :: 0 <= i < j < |order| ==> order[i] != order[j]
    requires OnePlanRevalidated(s1, s2, order[n], LockAfter(s0, order, n + 1))
    ensures InValidation(s0, s2, order)
    ensures
      (order[n] in s2.plans
        && PlanRevalidated(PlanOf(s1, order[n]), PlanOf(s2, order[n]), LockAfter(s0, order, n + 1))) ==>
      ValidatedUpTo(s0, s2, order, n + 1)
  {
    assert order[..n + 1] == order[..n] + [order[n]];
    assert order[n] !in order[..n];
    forall k | 0 <= k < |order| && k != n
      ensures PlanOf(s2, order[k]) == PlanOf(s1, order[k]) && (k > n ==> order[k] !in order[..n])
    {
      if k < n { assert order[k] != order[n]; }
    }
    forall q | q !in order ensures q !in order[..n + 1] {
    }
  }

  /** The plan a pass works on: a locked plan keeps its restore point, whatever the spec now says. */
  function Effective(plan: RestorePlan, p: PlanStatus): RestorePlan {
    if p.lock then plan.(snapshotRestoreTime := p.snapshotRestoreTime) else plan
  }

  /** The plan passed, at the time the pass had to choose. */
  ghost predicate PlanPassed(c: Cluster, name: string, plan: RestorePlan, before: PlanStatus, now: PlanStatus)
    reads c`claims, c`snapshots, c`statefulSets, c`deployments
  {
    Checked(c, name, plan, now) && TimeChosen(c, name, Effective(plan, before), now.snapshotRestoreTime)
  }

  /** The plan under the flag as it stands with this plan visited: `held`. */
  method ValidateHeld(c: Cluster, obj: RestoreObject, name: string, lock: bool) returns (v: Verdict, held: bool)
    requires c.status == obj.status && WellKeyed(c.claims) && name in obj.spec
    modifies obj`status, c`status, c`history, c`lostWrites
    ensures held == (lock || PlanOf(old(c.status), name).lock)
    ensures OnePlanRevalidated(old(c.status), c.status, name, held)
    ensures KeepsAnyOrder(old(c.history), old(c.status), c.history, c.status)
    ensures !v.BrokenOff? ==>
      && c.status == obj.status && name in c.status.plans
      && PlanRevalidated(PlanOf(old(c.status), name), PlanOf(c.status, name), held)
    ensures c.lostWrites == old(c.lostWrites) + if v.BrokenOff? then 1 else 0
    ensures v.Refused? ==> c.status.phase == Failed
    ensures v.Passed? ==>
      c.status.phase == old(c.status.phase)
        && PlanPassed(c, name, obj.spec[name], PlanOf(old(c.status), name), PlanOf(c.status, name))
  {
    var plan := obj.spec[name];
    held := lock;
    if name in obj.status.plans {
      var planStatus := obj.status.plans[name];
      if planStatus.lock {
        held := planStatus.lock;
        plan := plan.(snapshotRestoreTime := planStatus.snapshotRestoreTime);
      }
    }
    assert plan == Effective(obj.spec[name], PlanOf(c.status, name));
    v := ValidatePlan(c, obj, name, plan, held);
    if v.Passed? { CheckedAtAnyTime(c, name, obj.spec[name], plan.snapshotRestoreTime, PlanOf(c.status, name)); }
  }

  /** The plan that passed becomes the active one. */
  method Activate(c: Cluster, obj: RestoreObject, name: string, ghost before: PlanStatus) returns (v: Verdict)
    requires c.status == obj.status && name in obj.spec
    requires PlanPassed(c, name, obj.spec[name], before, PlanOf(c.status, name))
    modifies obj`status, c`status, c`history, c`lostWrites
    ensures c.status.plans == old(c.status).plans && c.status.phase == old(c.status).phase
    ensures KeepsAnyOrder(old(c.history), old(c.status), c.history, c.status)
    ensures v.Passed? || v.BrokenOff?
    ensures v.Passed? ==> c.status == obj.status && c.status.activePlan == name
    ensures c.lostWrites == old(c.lostWrites) + if v.BrokenOff? then 1 else 0
    ensures PlanPassed(c, name, obj.spec[name], before, PlanOf(c.status, name))
  {
    ghost var now := PlanOf(c.status, name);
    var active := SetActivePlan(c, obj, name);
    assert PlanOf(c.status, name) == now;
    return if active.Err? then BrokenOff(active.error) else Passed;
  }

  /** One iteration; while no plan was refused, the plan that passed becomes the active one. */
  method ValidateNext(c: Cluster, obj: RestoreObject, name: string, lock: bool, clean: bool)
    returns (v: Verdict, held: bool)
    requires c.status == obj.status && WellKeyed(c.claims) && name in obj.spec
    modifies obj`status, c`status, c`history, c`lostWrites
    ensures held == (lock || PlanOf(old(c.status), name).lock)
    ensures OnePlanRevalidated(old(c.status), c.status, name, held)
    ensures KeepsAnyOrder(old(c.history), old(c.status), c.history, c.status)
    ensures !v.BrokenOff? ==>
      && c.status == obj.status && name in c.status.plans
      && PlanRevalidated(PlanOf(old(c.status), name), PlanOf(c.status, name), held)
    ensures c.lostWrites == old(c.lostWrites) + if v.BrokenOff? then 1 else 0
    ensures v.Refused? ==> c.status.phase == Failed
    ensures v.Passed? ==>
      c.status.phase == old(c.status.phase)
        && PlanPassed(c, name, obj.spec[name], PlanOf(old(c.status), name), PlanOf(c.status, name))
    ensures v.Passed? && clean ==> c.status.activePlan == name
  {
    v, held := ValidateHeld(c, obj, name, lock);
    if v.Passed? && clean {
      ghost var h1, s1 := c.history, c.status;
      v := Activate(c, obj, name, PlanOf(old(c.status), name));
      AnyOrderTransitively(old(c.history), old(c.status), h1, s1, c.history, c.status);
    }
  }

  ghost predicate AllPassed(c: Cluster, spec: Spec, s0: Status, s1: Status, order: seq<string>, n: nat)
    requires n <= |order|
    reads c`claims, c`snapshots, c`statefulSets, c`deployments
  {
    forall k :: 0 <= k < n ==>
      && order[k] in spec
      && PlanPassed(c, order[k], spec[order[k]], PlanOf(s0, order[k]), PlanOf(s1, order[k]))
  }

  lemma OneMorePassed(c: Cluster, spec: Spec, s0: Status, s1: Status, s2: Status, order: seq<string>, n: nat)
    requires n < |order| && AllPassed(c, spec, s0, s1, order, n)
    requires forall k :: 0 <= k < n ==> PlanOf(s2, order[k]) == PlanOf(s1, order[k])
    requires order[n] in spec && PlanPassed(c, order[n], spec[order[n]], PlanOf(s0, order[n]), PlanOf(s2, order[n]))
    ensures AllPassed(c, spec, s0, s2, order, n + 1)
  {
  }

  /** An iteration seen from the start of the pass. */
  method ValidateStep(c: Cluster, obj: RestoreObject, order: seq<string>, i: nat, lock: bool, clean: bool,
                      ghost h0: seq<Status>, ghost s0: Status) returns (v: Verdict, held: bool)
    requires c.status == obj.status && WellKeyed(c.claims) && Enumerates(order, obj.spec.Keys) && i < |order|
    requires lock == LockAfter(s0, order, i) && ValidatedUpTo(s0, c.status, order, i)
      && KeepsAnyOrder(h0, s0, c.history, c.status)
    modifies obj`status, c`status, c`history, c`lostWrites
    ensures held == LockAfter(s0, order, i + 1)
    ensures InValidation(s0, c.status, order) && KeepsAnyOrder(h0, s0, c.history, c.status)
    ensures !v.BrokenOff? ==> c.status == obj.status && ValidatedUpTo(s0, c.status, order, i + 1)
    ensures c.lostWrites == old(c.lostWrites) + if v.BrokenOff? then 1 else 0
    ensures forall k :: 0 <= k < i ==> PlanOf(c.status, order[k]) == PlanOf(old(c.status), order[k])
    ensures v.Refused? ==> c.status.phase == Failed
    ensures v.Passed? ==> c.status.phase == old(c.status.phase) && order[i] in obj.spec
    ensures v.Passed? ==> PlanPassed(c, order[i], obj.spec[order[i]], PlanOf(s0, order[i]), PlanOf(c.status, order[i]))
  {
    ghost var h1, s1 := c.history, c.status;
    NotYetValidated(s0, s1, order, obj.spec.Keys, i);
    v, held := ValidateNext(c, obj, order[i], lock, clean);
    OneMoreValidated(s0, s1, c.status, order, i);
    AnyOrderTransitively(h0, s0, h1, s1, c.history, c.status);
  }

  lemma NotYetValidated(s0: Status, s1: Status, order: seq<string>, plans: set<string>, i: nat)
    requires Enumerates(order, plans) && i < |order| && ValidatedUpTo(s0, s1, order, i)
    ensures order[i] in plans && PlanOf(s1, order[i]) == PlanOf(s0, order[i])
    ensures forall k :: 0 <= k < i ==> order[k] != order[i]
  {
    assert order[i] in order && order[i] !in order[..i];
  }

  /** That iteration, with what passed so far. */
  method ValidateTurn(c: Cluster, obj: RestoreObject, order: seq<string>, i: nat, lock: bool, clean: bool,
                      ghost h0: seq<Status>, ghost s0: Status) returns (v: Verdict, held: bool)
    requires c.status == obj.status && WellKeyed(c.claims) && Enumerates(order, obj.spec.Keys) && i < |order|
    requires lock == LockAfter(s0, order, i) && ValidatedUpTo(s0, c.status, order, i)
      && KeepsAnyOrder(h0, s0, c.history, c.status)
    requires clean ==> AllPassed(c, obj.spec, s0, c.status, order, i)
    modifies obj`status, c`status, c`history, c`lostWrites
    ensures held == LockAfter(s0, order, i + 1)
    ensures InValidation(s0, c.status, order) && KeepsAnyOrder(h0, s0, c.history, c.status)
    ensures !v.BrokenOff? ==> c.status == obj.status && ValidatedUpTo(s0, c.status, order, i + 1)
    ensures c.lostWrites == old(c.lostWrites) + if v.BrokenOff? then 1 else 0
    ensures v.Refused? ==> c.status.phase == Failed
    ensures v.Passed? ==> c.status.phase == old(c.status.phase)
    ensures v.Passed? && clean ==> AllPassed(c, obj.spec, s0, c.status, order, i + 1)
  {
    ghost var s1 := c.status;
    v, held := ValidateStep(c, obj, order, i, lock, clean, h0, s0);
    if v.Passed? && clean {
      OneMorePassed(c, obj.spec, s0, s1, c.status, order, i);
    }
  }

  /**
   The loop over the plans, in whatever order the map yields them. `lock` is declared outside it: a
   locked plan sets it for every plan that follows.
   */
  method ValidateListSnapshots(c: Cluster, obj: RestoreObject) returns (r: Result<()>, ghost order: seq<string>)
    requires c.status == obj.status && WellKeyed(c.claims)
    modifies obj`status, c`status, c`history, c`lostWrites
    ensures Enumerates(order, obj.spec.Keys)
    ensures InValidation(old(c.status), c.status, order)
    ensures KeepsAnyOrder(old(c.history), old(c.status), c.history, c.status)
    ensures c.lostWrites == old(c.lostWrites) ==>
      c.status == obj.status && ValidatedUpTo(old(c.status), c.status, order, |order|)
    ensures r.Ok? ==>
      && c.lostWrites == old(c.lostWrites) && c.status.phase == old(c.status.phase)
      && AllPassed(c, obj.spec, old(c.status), c.status, order, |order|)
    ensures r.Err? ==> c.lostWrites > old(c.lostWrites) || c.status.phase == Failed
  {
    ghost var h0, s0 := c.history, c.status;
    var lastErr: Option<Error> := None;
    var lock := false;
    var names := Enumerate(obj.spec.Keys);
    order := names;
    for i := 0 to |names|
      invariant c.status == obj.status && c.lostWrites == old(c.lostWrites)
      invariant lock == LockAfter(s0, names, i)
      invariant ValidatedUpTo(s0, c.status, names, i) && KeepsAnyOrder(h0, s0, c.history, c.status)
      invariant lastErr.Some? ==> c.status.phase == Failed
      invariant lastErr.None? ==> c.status.phase == s0.phase && AllPassed(c, obj.spec, s0, c.status, names, i)
    {
      var v, held := ValidateTurn(c, obj, names, i, lock, lastErr.None?, h0, s0);
      lock := held;
      match v {
        case BrokenOff(e) => return Err(e), order;
        case Refused(e) => lastErr := Some(e);
        case Passed =>
      }
    }
    r := if lastErr.Some? then Err(lastErr.value) else Ok(());
  }
}
