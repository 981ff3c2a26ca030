/** The hook engine under the names and checksums the operator uses. */
module HookLaws {
  import opened Api
  import opened HookEngine
  import opened HookJobs
  import opened HookList
  import opened Hooks
  import opened Kube
  import opened Names
  import opened Passes

  // ---------------------------------------------------------------- when two hooks share a Job

  /** The name is that of a Job on some node the selector matches. */
  ghost predicate OnSomeNode(sha: Digest, site: Site, name: string, base: string, selector: Selector) {
    exists n :: n in MatchingNodes(site, selector) && name == NodeBase(base) + "-" + NodeHash(sha, n)
  }

  ghost predicate HashesMeet(sha: Digest, site: Site, s1: Selector, s2: Selector) {
    exists n, m :: n in MatchingNodes(site, s1) && m in MatchingNodes(site, s2) && NodeHash(sha, n) == NodeHash(sha, m)
  }

  /** What can be checked on two hooks and the nodes: a hook alone has its own name, one on nodes a name for each. */
  ghost predicate JobsMeet(sha: Digest, site: Site, g: HookJob, h: HookJob) {
    match (g.nodeAccess, h.nodeAccess)
    case (None, None) => g.name == h.name
    case (None, Some(selector)) => OnSomeNode(sha, site, g.name, h.name, selector)
    case (Some(selector), None) => OnSomeNode(sha, site, h.name, g.name, selector)
    case (Some(s1), Some(s2)) => NodeBase(g.name) == NodeBase(h.name) && HashesMeet(sha, site, s1, s2)
  }

  /** The name of a Job of the hook: on nodes, on which one. */
  ghost predicate IsJobOn(sha: Digest, site: Site, h: HookJob, id: Key, node: string) {
    id.namespace == h.namespace && match h.nodeAccess
      case None => id.name == h.name
      case Some(selector) =>
        node in MatchingNodes(site, selector) && id.name == NodeBase(h.name) + "-" + NodeHash(sha, node)
  }

  lemma JobsAreOnNodes(sha: Digest, site: Site, h: HookJob, id: Key)
    requires site.scheme == SchemeOf(sha)
    ensures id in JobIds(site, h) <==> exists node :: IsJobOn(sha, site, h, id, node)
  {
    if h.nodeAccess.None? {
      PlainJobIds(site, h);
      if id == h.Id() { assert IsJobOn(sha, site, h, id, ""); }
    } else {
      forall node ensures IsJobOn(sha, site, h, id, node) <==>
        node in MatchingNodes(site, h.nodeAccess.value) && id == Key(h.namespace, site.scheme.nodeName(h.name, node))
      {
        NodeNameParts(sha, h.name, node);
      }
    }
  }

  /** Two hooks have the name of a Job in common exactly when they meet so. */
  lemma JobsMeetIff(sha: Digest, site: Site, g: HookJob, h: HookJob)
    requires site.scheme == SchemeOf(sha) && g.namespace == h.namespace
    ensures JobIds(site, g) !! JobIds(site, h) <==> !JobsMeet(sha, site, g, h)
  {
    if id :| id in JobIds(site, g) && id in JobIds(site, h) {
      JobsAreOnNodes(sha, site, g, id);
      JobsAreOnNodes(sha, site, h, id);
      var n :| IsJobOn(sha, site, g, id, n);
      var m :| IsJobOn(sha, site, h, id, m);
      SharedJobsMeet(sha, site, g, n, h, m, id);
    }
    if JobsMeet(sha, site, g, h) {
      var id := MeetingJob(sha, site, g, h);
    }
  }

  lemma SharedJobsMeet(sha: Digest, site: Site, g: HookJob, n: string, h: HookJob, m: string, id: Key)
    requires IsJobOn(sha, site, g, id, n) && IsJobOn(sha, site, h, id, m)
    ensures JobsMeet(sha, site, g, h)
  {
    NodeNameParts(sha, g.name, n);
    NodeNameParts(sha, h.name, m);
    NodeNamesMeetIff(sha, g.name, n, h.name, m);
  }

  lemma MeetingJob(sha: Digest, site: Site, g: HookJob, h: HookJob) returns (id: Key)
    requires site.scheme == SchemeOf(sha) && g.namespace == h.namespace && JobsMeet(sha, site, g, h)
    ensures id in JobIds(site, g) && id in JobIds(site, h)
  {
    var n, m := "", "";
    match (g.nodeAccess, h.nodeAccess) {
      case (None, None) => id := g.Id();
      case (None, Some(selector)) =>
        id := g.Id();
        m :| m in MatchingNodes(site, selector) && g.name == NodeBase(h.name) + "-" + NodeHash(sha, m);
      case (Some(selector), None) =>
        id := h.Id();
        n :| n in MatchingNodes(site, selector) && h.name == NodeBase(g.name) + "-" + NodeHash(sha, n);
      case (Some(s1), Some(s2)) =>
        n, m :| n in MatchingNodes(site, s1) && m in MatchingNodes(site, s2) && NodeHash(sha, n) == NodeHash(sha, m);
        id := Key(g.namespace, NodeBase(g.name) + "-" + NodeHash(sha, n));
    }
    assert IsJobOn(sha, site, g, id, n) && IsJobOn(sha, site, h, id, m);
    JobsAreOnNodes(sha, site, g, id);
    JobsAreOnNodes(sha, site, h, id);
  }

  /** Mutable, of one plan, and wanting different things. */
  predicate Disagree(g: HookJob, h: HookJob) {
    g.planName == h.planName && g.mutable && h.mutable && g.checksum != h.checksum
  }

  ghost predicate MeetAsRivals(sha: Digest, env: Env, site: Site, g: HookJob, h: HookJob) {
    FromSpec(env, PostRestore, g) && FromSpec(env, PostRestore, h) && Disagree(g, h) && JobsMeet(sha, site, g, h)
  }

  /** No two hooks are rivals exactly when no two that disagree meet: names, truncated or not, and nodes decide it. */
  lemma NoneRivalIff(sha: Digest, env: Env, site: Site)
    requires site.scheme == SchemeOf(sha)
    ensures NoneRival(env, PostRestore, site) <==> forall g, h :: !MeetAsRivals(sha, env, site, g, h)
  {
    forall g, h, id | FromSpec(env, PostRestore, g) && FromSpec(env, PostRestore, h) && AreRivals(site, g, h, id)
      ensures MeetAsRivals(sha, env, site, g, h)
    {
      DisagreeingRivalsIff(sha, env, site, g, h);
    }
    forall g, h | MeetAsRivals(sha, env, site, g, h) ensures !NoneRival(env, PostRestore, site) {
      DisagreeingRivalsIff(sha, env, site, g, h);
    }
  }

  lemma DisagreeingRivalsIff(sha: Digest, env: Env, site: Site, g: HookJob, h: HookJob)
    requires site.scheme == SchemeOf(sha)
    requires FromSpec(env, PostRestore, g) && FromSpec(env, PostRestore, h) && Disagree(g, h)
    ensures JobsMeet(sha, site, g, h) <==> exists id :: AreRivals(site, g, h, id)
  {
    SpecIsWellSummed(env, PostRestore, g);
    SpecIsWellSummed(env, PostRestore, h);
    JobsMeetIff(sha, site, g, h);
    if JobsMeet(sha, site, g, h) {
      var id := MeetingJob(sha, site, g, h);
      assert AreRivals(site, g, h, id);
    }
  }

  /** Hooks whose Jobs have different names are no rivals, whatever they run. */
  lemma ApartAreNoRivals(env: Env, site: Site)
    requires NamesApart(env, PostRestore, site)
    ensures NoneRival(env, PostRestore, site)
  {
  }

  /** No name is truncated: those of Jobs on nodes have room for the hash as well. */
  ghost predicate NamesFit(env: Env, event: HookEvent) {
    forall plan, hook :: InSpec(env, event, plan, hook) ==>
      |FullName(plan, hook)| + (if env.spec[plan].hooks[hook].nodeAccess.Some? then 7 else 0) <= MAX_LABEL
  }

  /** No hook that runs alone is named like another followed by a dash and the hash of a node that one runs on. */
  ghost predicate NoneNamedAfterNode(sha: Digest, env: Env, event: HookEvent, site: Site) {
    forall plan, a, b, n ::
      InSpec(env, event, plan, a) && InSpec(env, event, plan, b)
        && NamedAfterNode(sha, site, env.spec[plan].hooks[b], b, n, a) ==>
      env.spec[plan].hooks[a].nodeAccess.Some?
  }

  ghost predicate NamedAfterNode(sha: Digest, site: Site, settings: HookSettings, hook: string, node: string,
          name: string)
  {
    && settings.nodeAccess.Some? && node in MatchingNodes(site, settings.nodeAccess.value)
    && name == hook + "-" + NodeHash(sha, node)
  }

  /** Then the hooks of a plan have Jobs of different names, on nodes or not. */
  lemma UntruncatedHooksAreApart(env: Env, event: HookEvent, site: Site, sha: Digest)
    requires env.scheme == site.scheme == SchemeOf(sha)
    requires NamesFit(env, event) && NoneNamedAfterNode(sha, env, event, site)
    ensures NamesApart(env, event, site) && (event == PostRestore ==> NoneRival(env, event, site))
  {
    forall g, h | FromSpec(env, event, g) && FromSpec(env, event, h) && g != h && g.planName == h.planName
      ensures JobIds(site, g) !! JobIds(site, h)
    {
      var a := SpecName(env, event, sha, g);
      var b := SpecName(env, event, sha, h);
      HooksDoNotMeet(env, event, site, sha, a, g, b, h);
      JobsMeetIff(sha, site, g, h);
    }
    if event == PostRestore { ApartAreNoRivals(env, site); }
  }

  /** The hook of that name in the spec, with its name not truncated. */
  predicate IsHook(env: Env, event: HookEvent, hook: string, h: HookJob) {
    && InSpec(env, event, h.planName, hook) && h.nodeAccess == env.spec[h.planName].hooks[hook].nodeAccess
    && h.name == FullName(h.planName, hook) && (h.nodeAccess.Some? ==> NodeBase(h.name) == h.name)
  }

  lemma SpecName(env: Env, event: HookEvent, sha: Digest, h: HookJob) returns (hook: string)
    requires env.scheme == SchemeOf(sha) && FromSpec(env, event, h) && NamesFit(env, event)
    ensures IsHook(env, event, hook, h) && h == JobOf(env, h.planName, hook)
  {
    hook :| InSpec(env, event, h.planName, hook) && h == JobOf(env, h.planName, hook);
    assert h.name == HookJobName(sha, h.planName, hook);
  }

  lemma HooksDoNotMeet(env: Env, event: HookEvent, site: Site, sha: Digest, a: string, g: HookJob, b: string,
          h: HookJob)
    requires NoneNamedAfterNode(sha, env, event, site) && g.planName == h.planName && a != b
    requires IsHook(env, event, a, g) && IsHook(env, event, b, h)
    ensures !JobsMeet(sha, site, g, h)
  {
    FullNamesDiffer(g.planName, a, b);
    if g.nodeAccess.None? && h.nodeAccess.Some? { NotOnItsNodes(env, event, site, sha, a, g, b, h); }
    if h.nodeAccess.None? && g.nodeAccess.Some? { NotOnItsNodes(env, event, site, sha, b, h, a, g); }
  }

  lemma NotOnItsNodes(env: Env, event: HookEvent, site: Site, sha: Digest, a: string, g: HookJob, b: string, h: HookJob)
    requires NoneNamedAfterNode(sha, env, event, site) && g.planName == h.planName
    requires IsHook(env, event, a, g) && IsHook(env, event, b, h) && g.nodeAccess.None? && h.nodeAccess.Some?
    ensures !OnSomeNode(sha, site, g.name, h.name, h.nodeAccess.value)
  {
    forall n | n in MatchingNodes(site, h.nodeAccess.value)
      ensures g.name != NodeBase(h.name) + "-" + NodeHash(sha, n)
    {
      AfterNode(sha, g.planName, a, b, n);
      if a == b + "-" + NodeHash(sha, n) { assert NamedAfterNode(sha, site, env.spec[h.planName].hooks[b], b, n, a); }
    }
  }

  lemma AfterNode(sha: Digest, plan: string, a: string, b: string, n: string)
    ensures FullName(plan, a) == FullName(plan, b) + "-" + NodeHash(sha, n) <==> a == b + "-" + NodeHash(sha, n)
  {
    FullNamesDiffer(plan, a, b + "-" + NodeHash(sha, n));
    assert FullName(plan, b) + "-" + NodeHash(sha, n) == FullName(plan, b + "-" + NodeHash(sha, n));
  }

  /**
   The condition cannot be dropped: a mutable hook named after another and one of its nodes, running
   something else, is a rival.
   */
  lemma NamedAfterNodeIsRival(env: Env, site: Site, sha: Digest, a: string, g: HookJob, b: string, h: HookJob,
          n: string)
    requires site.scheme == SchemeOf(sha) && FromSpec(env, PostRestore, g) && FromSpec(env, PostRestore, h)
      && Disagree(g, h)
    requires IsHook(env, PostRestore, a, g) && IsHook(env, PostRestore, b, h)
    requires g.nodeAccess.None? && NamedAfterNode(sha, site, env.spec[h.planName].hooks[b], b, n, a)
    ensures !NoneRival(env, PostRestore, site)
  {
    AfterNode(sha, g.planName, a, b, n);
    assert OnSomeNode(sha, site, g.name, h.name, h.nodeAccess.value);
    DisagreeingRivalsIff(sha, env, site, g, h);
  }

  lemma FullNamesDiffer(plan: string, a: string, b: string)
    ensures FullName(plan, a) == FullName(plan, b) <==> a == b
  {
    assert FullName(plan, a)[|plan| + 4..] == a && FullName(plan, b)[|plan| + 4..] == b;
  }

  /**
   A mutable hook whose success was recorded for one command runs again for another exactly when the
   two read differently end to end: no collision of the hash, and no NUL, presumed.
   */
  lemma MutableHookRunsAgainIff(sha: Digest, st: Status, plan: string, name: string, e: HookStatus,
                                c1: seq<string>, a1: seq<string>, c2: seq<string>, a2: seq<string>)
    requires plan in st.plans && Find(st.plans[plan].hooks, name, PostRestore) == Some(e)
    requires e.succeeded != 0 && e.checksum == SchemeOf(sha).checksum(c1, a1)
    requires NulFree(c1 + a1) && NulFree(c2 + a2) && Separates(sha, Stream(c1 + a1), Stream(c2 + a2))
    ensures Skips(st, plan, name, PostRestore, true, SchemeOf(sha).checksum(c2, a2)) <==> c1 + a1 == c2 + a2
  {
    ChecksumsAgreeIff(sha, c1, a1, c2, a2);
  }

  /** The ConfigMap of a mutable hook is patched exactly when the spec's command and arguments
      read differently by now. */
  lemma ConfigIsPatchedIff(sha: Digest, h: HookJob, configs: map<Key, HookConfig>)
    requires h.mutable && h.Id() in configs
    requires var kept := configs[h.Id()];
      && NulFree(kept.command + kept.args) && NulFree(h.command + h.args)
      && Separates(sha, Stream(kept.command + kept.args), Stream(h.command + h.args))
    ensures NeedsPatch(SchemeOf(sha), h, configs)
       <==> configs[h.Id()].command + configs[h.Id()].args != h.command + h.args
  {
    ChecksumsAgreeIff(sha, configs[h.Id()].command, configs[h.Id()].args, h.command, h.args);
  }

  /** Result `i` is that of the hook's Job on node `i`. */
  ghost predicate ResultsOn(sha: Digest, base: string, event: HookEvent, nodes: seq<string>, results: seq<HookStatus>) {
    && |results| == |nodes|
    && forall i :: 0 <= i < |nodes| ==> IsEntry(results[i], SchemeOf(sha).nodeName(base, nodes[i]), event)
  }

  predicate HashesDiffer(sha: Digest, nodes: seq<string>) {
    forall i, j :: 0 <= i < j < |nodes| ==> NodeHash(sha, nodes[i]) != NodeHash(sha, nodes[j])
  }

  /** What the engine records of a fan-out are such results. */
  lemma RecordedOnNodes(sha: Digest, base: HookJob, nodes: seq<string>, jobs: seq<HookJob>,
                        before: seq<HookStatus>, after: seq<HookStatus>, results: seq<HookStatus>)
    requires OnNodes(SchemeOf(sha), base, nodes, jobs) && RecordedInTurn(before, after, jobs, results)
    ensures ResultsOn(sha, base.name, base.event, nodes, results)
  {
    forall i | 0 <= i < |nodes| ensures IsEntry(results[i], SchemeOf(sha).nodeName(base.name, nodes[i]), base.event) {
      assert PerNode(SchemeOf(sha), base, nodes[i], jobs[i]) && IsStatusOf(jobs[i], results[i]);
    }
  }

  lemma UniqueByHash(sha: Digest, base: string, event: HookEvent, nodes: seq<string>, results: seq<HookStatus>)
    requires ResultsOn(sha, base, event, nodes, results)
    ensures Unique(results) <==> HashesDiffer(sha, nodes)
  {
    forall i, j | 0 <= i < j < |nodes|
      ensures IsEntry(results[j], results[i].name, results[i].event)
        <==> NodeHash(sha, nodes[i]) == NodeHash(sha, nodes[j])
    {
      PerNodeNamesDifferByHash(sha, base, nodes[i], nodes[j]);
    }
  }

  /** The results a fan-out records have different keys exactly when the hashes of the nodes it ran on differ. */
  lemma KeysAreUniqueIff(sha: Digest, base: HookJob, nodes: seq<string>, jobs: seq<HookJob>,
                         before: seq<HookStatus>, after: seq<HookStatus>, results: seq<HookStatus>)
    requires OnNodes(SchemeOf(sha), base, nodes, jobs) && RecordedInTurn(before, after, jobs, results)
    ensures Unique(results) <==> HashesDiffer(sha, nodes)
  {
    RecordedOnNodes(sha, base, nodes, jobs, before, after, results);
    UniqueByHash(sha, base.name, base.event, nodes, results);
  }

  /**
   Then the list a fan-out leaves has one entry for each node it ran on, that node's result; entries
   under other keys stay. `OnNodes` and `RecordedInTurn` are what `RunNodeAccessHook` promises.
   */
  lemma OneEntryPerNode(sha: Digest, base: HookJob, nodes: seq<string>, jobs: seq<HookJob>,
                        before: seq<HookStatus>, after: seq<HookStatus>, results: seq<HookStatus>, i: nat)
    requires OnNodes(SchemeOf(sha), base, nodes, jobs) && RecordedInTurn(before, after, jobs, results)
    requires HashesDiffer(sha, nodes) && Unique(before) && i < |nodes|
    ensures Unique(after) && Find(after, jobs[i].name, base.event) == Some(results[i])
    ensures forall name, ev :: !Keyed(results, name, ev) ==> Find(after, name, ev) == Find(before, name, ev)
  {
    RecordedOnNodes(sha, base, nodes, jobs, before, after, results);
    UniqueByHash(sha, base.name, base.event, nodes, results);
    UpsertAllRecordsEach(before, results, i);
    forall name, ev
      ensures Unique(after) && (!Keyed(results, name, ev) ==> Find(after, name, ev) == Find(before, name, ev))
    {
      UpsertAllIsMapUpdate(before, results, name, ev);
    }
    assert IsStatusOf(jobs[i], results[i]);
    assert PerNode(SchemeOf(sha), base, nodes[i], jobs[i]);
    assert Find(after, results[i].name, results[i].event) == Some(results[i]);
  }

  /** What the threads of a fan-out have delivered when all are through is each thread's own status, by position. */
  lemma DeliveredIsEachOnesOwn(ts: seq<Thread>, results: seq<HookStatus>)
    requires Delivered(ts, results) && !Running(ts)
    ensures results == seq(|ts|, i requires 0 <= i < |ts| => ts[i].status)
  {
    forall i | 0 <= i < |ts| ensures results[i] == ts[i].status {
      assert ts[i].stage.Finished?;
    }
  }
}
