/** Running the hooks of an event, plan by plan, and what a stretch of that keeps. */
module HookEngine {
  import opened Api
  import opened HookJobs
  import opened HookList
  import opened Hooks
  import opened Kube
  import opened Names
  import opened StatusManager

  // ---------------------------------------------------------------- what a stretch of hook runs keeps

  /** What hooks write, at one moment. */
  datatype Point = Point(stored: Status, history: seq<Status>, events: seq<Event>, configs: map<Key, HookConfig>)

  ghost function Here(c: Cluster): Point
    reads c`status, c`history, c`events, c`configMaps
  {
    Point(c.status, c.history, c.events, c.configMaps)
  }

  predicate OnHooks(e: Event) { e.ConfigMapWritten? || e.AccountCreated? || e.JobCreated? || e.JobSeen? }

  /** Some hook of the spec calls for this Job; one of a mutable hook runs what the spec says, by checksum. */
  ghost predicate CalledFor(env: Env, e: Event)
    requires e.JobCreated?
  {
    exists h, node :: FromSpec(env, e.event, h) && h.planName == e.plan && h.mutable == e.mutable
      && Derives(env, h, node, e.id)
      && (e.mutable ==> env.scheme.checksum(e.command, e.args) == h.checksum)
  }

  /** A Job of the event that is running; before a restore only for plans not locked. Names no mutable hook has run what
      their ConfigMap holds. */
  ghost predicate JobIsDue(env: Env, event: HookEvent, start: Status, e: Event, configs: map<Key, HookConfig>)
    requires e.JobCreated?
  {
    && e.event == event && CalledFor(env, e)
    && !(event.PreRestore? && PlanOf(start, e.plan).lock)
    && (!MutableName(env, e.id) ==> e.id in configs && configs[e.id] == HookConfig(e.command, e.args))
  }

  /** What ConfigMaps hold stays but for names of mutable hooks, and what is new is what the spec wants there. */
  ghost predicate ConfigsFrozen(env: Env, a: map<Key, HookConfig>, b: map<Key, HookConfig>) {
    && (forall id :: id in a ==> id in b && (!MutableName(env, id) ==> b[id] == a[id]))
    && (forall id :: id in b && (id !in a || b[id] != a[id]) ==> WantedThere(env, id, b[id]))
  }

  /** Some hook of the spec derives the name and is to run this. */
  ghost predicate WantedThere(env: Env, id: Key, config: HookConfig) {
    exists event, h, node :: FromSpec(env, event, h) && Derives(env, h, node, id) && Wants(h) == config
  }

  /** What a hook is to run. */
  function Wants(h: HookJob): HookConfig { HookConfig(h.command, h.args) }

  /** The plan's first entry for the name is `e`, and every hook that derives the name takes it as done. */
  ghost predicate RestingIn(env: Env, st: Status, plan: string, id: Key, event: HookEvent, e: HookStatus) {
    && id.namespace == env.namespace
    && Find(HooksOf(st, plan), id.name, event) == Some(e)
    && Rests(env, plan, id, event, e)
  }

  predicate NoJob(from: seq<Event>, to: seq<Event>, plan: string, id: Key, event: HookEvent) {
    forall i :: |from| <= i < |to| && to[i].JobCreated? ==>
      !(to[i].plan == plan && to[i].id == id && to[i].event == event)
  }

  predicate SamePlans(a: Status, b: Status) {
    a.plans.Keys == b.plans.Keys && forall p :: p in a.plans ==> SamePlanButHooks(a.plans[p], b.plans[p])
  }

  ghost predicate OnlyDueJobs(env: Env, event: HookEvent, start: Status, from: seq<Event>, to: seq<Event>,
          configs: map<Key, HookConfig>)
  {
    forall i :: |from| <= i < |to| ==>
      OnHooks(to[i]) && (to[i].JobCreated? ==> JobIsDue(env, event, start, to[i], configs))
  }

  /** From `a` to `b` only hooks of `event` ran, each with reason to. */
  ghost predicate Stretch(env: Env, event: HookEvent, a: Point, b: Point) {
    && SamePlans(a.stored, b.stored)
    && a.events <= b.events && OnlyDueJobs(env, event, a.stored, a.events, b.events, b.configs)
    && ConfigsFrozen(env, a.configs, b.configs)
    && (forall plan: string, id: Key, ev: HookEvent, e: HookStatus :: RestingIn(env, a.stored, plan, id, ev, e) ==>
         Find(HooksOf(b.stored, plan), id.name, ev) == Some(e) && NoJob(a.events, b.events, plan, id, ev))
  }

  /** Both lists, the stored one and the object's, find `e`, or both find nothing. */
  predicate Shows(s: Status, o: Status, plan: string, id: Key, event: HookEvent, e: Option<HookStatus>) {
    Find(HooksOf(s, plan), id.name, event) == e && Find(HooksOf(o, plan), id.name, event) == e
  }

  /** Results taken as done at the start are still found, in the object as well. */
  ghost predicate Kept(env: Env, start: Status, s: Status, o: Status) {
    forall plan: string, id: Key, ev: HookEvent, e: HookStatus :: RestingIn(env, start, plan, id, ev, e) ==>
      Shows(s, o, plan, id, ev, Some(e))
  }

  /** Every success recorded is that of a Job the log shows requested, and then seen to succeed. */
  ghost predicate SuccessesBacked(ns: string, st: Status, events: seq<Event>) {
    forall plan, name, ev :: SucceededAt(Find(HooksOf(st, plan), name, ev)) ==> RanSince(events, 0, Key(ns, name))
  }

  predicate SucceededAt(entry: Option<HookStatus>) { entry.Some? && entry.value.succeeded != 0 }

  /** The recorded results form maps: no key occurs twice in the list of a plan. */
  ghost predicate KeysUnique(st: Status) {
    forall plan :: Unique(HooksOf(st, plan))
  }

  ghost predicate Sound(ns: string, st: Status, events: seq<Event>) {
    KeysUnique(st) && SuccessesBacked(ns, st, events)
  }

  lemma SoundLater(ns: string, st: Status, events: seq<Event>, later: seq<Event>)
    requires Sound(ns, st, events) && events <= later
    ensures Sound(ns, st, later)
  {
    forall plan, name, ev | SucceededAt(Find(HooksOf(st, plan), name, ev)) ensures RanSince(later, 0, Key(ns, name)) {
      RanSinceStays(events, later, 0, 0, Key(ns, name));
    }
  }

  lemma SoundOutcome(ns: string, s0: Status, o0: Status, s1: Status, o1: Status, ok: bool, plan: string,
          hook: HookStatus, events: seq<Event>)
    requires HookOutcome(s0, o0, s1, o1, ok, plan, hook) && Sound(ns, s0, events) && Sound(ns, o0, events)
    requires hook.succeeded != 0 ==> RanSince(events, 0, Key(ns, hook.name))
    ensures Sound(ns, s1, events) && Sound(ns, o1, events)
  {
    UpsertKeepsUnique(HooksOf(o0, plan), hook);
    forall q ensures Unique(HooksOf(s1, q)) && Unique(HooksOf(o1, q)) {
      assert Unique(HooksOf(s0, q)) && Unique(HooksOf(o0, q));
    }
    forall q, name, ev | SucceededAt(Find(HooksOf(o1, q), name, ev)) ensures RanSince(events, 0, Key(ns, name)) {
      if q == plan { FindAfterUpsert(HooksOf(o0, plan), hook, name, ev); }
    }
  }

  /** If what was recorded so far was sound, it still is. */
  ghost predicate KeepsSound(ns: string, a: Point, o0: Status, b: Point, o: Status) {
    Sound(ns, a.stored, a.events) && Sound(ns, o0, a.events) ==> Sound(ns, b.stored, b.events) && Sound(ns, o, b.events)
  }

  // ---------------------------------------------------------------- crews with a reason to run

  ghost predicate DueName(env: Env, event: HookEvent, start: Status, crew: Crew, id: Key) {
    && id.namespace == env.namespace && !(event.PreRestore? && PlanOf(start, crew.plan).lock)
    && (exists h, node :: FromSpec(env, event, h) && h.planName == crew.plan && h.mutable == crew.mutable
          && h.checksum == crew.sum && Wants(h) == crew.wants && Derives(env, h, node, id))
    && (forall e :: !RestingIn(env, start, crew.plan, id, event, e))
  }

  ghost predicate DueCrew(env: Env, event: HookEvent, start: Status, crew: Crew) {
    && crew.event == event
    && forall id :: id in crew.ids ==> DueName(env, event, start, crew, id)
  }

  lemma RestingIsNotDue(env: Env, event: HookEvent, start: Status, crew: Crew, plan: string, id: Key, ev: HookEvent,
          e: HookStatus)
    requires DueCrew(env, event, start, crew) && RestingIn(env, start, plan, id, ev, e)
    ensures !(plan == crew.plan && ev == event && id in crew.ids)
  {
  }

  /** A hook that is not skipped now has a result at the start that some hook does not take as done. */
  lemma DueIfNotSkipped(env: Env, event: HookEvent, start: Status, s: Status, o: Status, h: HookJob,
          node: Option<string>, id: Key, crew: Crew)
    requires Kept(env, start, s, o) && SamePlans(start, s) && SameButHooks(s, o) && h.planName in o.plans
    requires FromSpec(env, event, h) && Derives(env, h, node, id)
    requires crew.plan == h.planName && crew.mutable == h.mutable && crew.sum == h.checksum && crew.wants == Wants(h)
    requires !Skips(o, h.planName, id.name, event, h.mutable, h.checksum)
    ensures DueName(env, event, start, crew, id)
  {
    assert SamePlanButHooks(s.plans[h.planName], o.plans[h.planName]);
    assert SamePlanButHooks(start.plans[h.planName], s.plans[h.planName]);
    forall e ensures !RestingIn(env, start, crew.plan, id, event, e) {
      if RestingIn(env, start, crew.plan, id, event, e) {
        assert Shows(s, o, crew.plan, id, event, Some(e));
        assert ShowsDone(Some(e), event, h.mutable, h.checksum);
      }
    }
  }

  lemma CrewJobsAreDue(env: Env, event: HookEvent, start: Status, crew: Crew, e: Event, configs: map<Key, HookConfig>)
    requires DueCrew(env, event, start, crew) && CrewEvent(env.scheme, crew, e, configs)
    ensures OnHooks(e) && (e.JobCreated? ==> JobIsDue(env, event, start, e, configs))
  {
    if e.JobCreated? {
      assert DueName(env, event, start, crew, e.id);
      var h, node :| FromSpec(env, event, h) && h.planName == crew.plan && h.mutable == crew.mutable
        && h.checksum == crew.sum && Derives(env, h, node, e.id);
      assert CalledFor(env, e);
      if crew.mutable { assert MutableName(env, e.id); }
    }
  }

  lemma CrewKeepsConfigs(env: Env, event: HookEvent, start: Status, crew: Crew, a: map<Key, HookConfig>,
          b: map<Key, HookConfig>)
    requires DueCrew(env, event, start, crew) && ConfigsKept(crew, a, b)
    ensures ConfigsFrozen(env, a, b)
  {
    forall id | id in b && (id !in a || b[id] != a[id])
      ensures WantedThere(env, id, b[id]) && (id in a ==> MutableName(env, id))
    {
      assert DueName(env, event, start, crew, id);
      var h, node :| FromSpec(env, event, h) && h.planName == crew.plan && h.mutable == crew.mutable
        && h.checksum == crew.sum && Wants(h) == crew.wants && Derives(env, h, node, id);
    }
  }

  lemma OnlyDueJobsStay(env: Env, event: HookEvent, start: Status, from: seq<Event>, to: seq<Event>,
                        m1: map<Key, HookConfig>, m2: map<Key, HookConfig>)
    requires OnlyDueJobs(env, event, start, from, to, m1) && ConfigsFrozen(env, m1, m2)
    ensures OnlyDueJobs(env, event, start, from, to, m2)
  {
  }

  lemma NoJobOfOthers(scheme: Scheme, crew: Crew, e1: seq<Event>, m1: map<Key, HookConfig>, e2: seq<Event>,
          m2: map<Key, HookConfig>, e0: seq<Event>, plan: string, id: Key, event: HookEvent)
    requires Worked(scheme, crew, e1, m1, e2, m2) && e0 <= e1 && NoJob(e0, e1, plan, id, event)
    requires !(plan == crew.plan && event == crew.event && id in crew.ids)
    ensures NoJob(e0, e2, plan, id, event)
  {
    forall i | |e0| <= i < |e2| && e2[i].JobCreated?
      ensures !(e2[i].plan == plan && e2[i].id == id && e2[i].event == event)
    {
      if i < |e1| { assert e2[i] == e1[i]; }
    }
  }

  lemma OneMoreDueCrew(env: Env, event: HookEvent, start: Status, crew: Crew, e0: seq<Event>,
                       e1: seq<Event>, m1: map<Key, HookConfig>, e2: seq<Event>, m2: map<Key, HookConfig>)
    requires e0 <= e1 && OnlyDueJobs(env, event, start, e0, e1, m1)
    requires DueCrew(env, event, start, crew) && Worked(env.scheme, crew, e1, m1, e2, m2)
    ensures OnlyDueJobs(env, event, start, e0, e2, m2) && ConfigsFrozen(env, m1, m2)
  {
    CrewKeepsConfigs(env, event, start, crew, m1, m2);
    OnlyDueJobsStay(env, event, start, e0, e1, m1, m2);
    forall i | |e0| <= i < |e2|
      ensures OnHooks(e2[i]) && (e2[i].JobCreated? ==> JobIsDue(env, event, start, e2[i], m2))
    {
      if i < |e1| { assert e2[i] == e1[i]; } else { CrewJobsAreDue(env, event, start, crew, e2[i], m2); }
    }
  }

  /** A crew with a reason to run continues the stretch. */
  lemma StretchByCrew(env: Env, event: HookEvent, a: Point, b: Point, crew: Crew, d: Point, o: Status)
    requires Stretch(env, event, a, b) && DueCrew(env, event, a.stored, crew)
    requires Worked(env.scheme, crew, b.events, b.configs, d.events, d.configs)
    requires SamePlans(a.stored, d.stored) && Kept(env, a.stored, d.stored, o)
    ensures Stretch(env, event, a, d)
  {
    OneMoreDueCrew(env, event, a.stored, crew, a.events, b.events, b.configs, d.events, d.configs);
    forall plan: string, id: Key, ev: HookEvent, e: HookStatus | RestingIn(env, a.stored, plan, id, ev, e)
      ensures Find(HooksOf(d.stored, plan), id.name, ev) == Some(e) && NoJob(a.events, d.events, plan, id, ev)
    {
      assert Shows(d.stored, o, plan, id, ev, Some(e));
      RestingIsNotDue(env, event, a.stored, crew, plan, id, ev, e);
      NoJobOfOthers(env.scheme, crew, b.events, b.configs, d.events, d.configs, a.events, plan, id, ev);
    }
  }

  // ---------------------------------------------------------------- what recording results changes

  /** Results were recorded for these names of the plan and event; what both lists agreed on elsewhere stays. */
  ghost predicate Noted(ns: string, plan: string, event: HookEvent, ids: set<Key>, s0: Status, o0: Status, s1: Status,
          o1: Status)
  {
    && SameButHooks(s0, s1) && SameButHooks(s1, o1)
    && forall q: string, id: Key, ev: HookEvent,
        e: Option<HookStatus> {:trigger Shows(s1, o1, q, id, ev, e)} {:trigger Shows(s0, o0, q, id, ev, e)} ::
         id.namespace == ns && !(q == plan && ev == event && id in ids) && Shows(s0, o0, q, id, ev, e) ==>
           Shows(s1, o1, q, id, ev, e)
  }

  lemma NotedOnce(ns: string, plan: string, hook: HookStatus, s0: Status, o0: Status, s1: Status, o1: Status, ok: bool)
    requires HookOutcome(s0, o0, s1, o1, ok, plan, hook)
    ensures Noted(ns, plan, hook.event, {Key(ns, hook.name)}, s0, o0, s1, o1)
  {
    forall q: string, id: Key, ev: HookEvent, e: Option<HookStatus> | id.namespace == ns
      && !(q == plan && ev == hook.event && id == Key(ns, hook.name)) && Shows(s0, o0, q, id, ev, e)
      ensures Shows(s1, o1, q, id, ev, e)
    {
      if q == plan {
        FindAfterUpsert(HooksOf(o0, plan), hook, id.name, ev);
      }
    }
  }

  lemma NotedMore(ns: string, plan: string, event: HookEvent, ids: set<Key>, more: set<Key>,
                  s0: Status, o0: Status, s1: Status, o1: Status, s2: Status, o2: Status)
    requires Noted(ns, plan, event, ids, s0, o0, s1, o1) && Noted(ns, plan, event, more, s1, o1, s2, o2)
    ensures Noted(ns, plan, event, ids + more, s0, o0, s2, o2)
  {
    SameButHooksChains(s0, s1, s2);
    forall q: string, id: Key, ev: HookEvent, e: Option<HookStatus> | id.namespace == ns
      && !(q == plan && ev == event && id in ids + more) && Shows(s0, o0, q, id, ev, e)
      ensures Shows(s2, o2, q, id, ev, e)
    {
      assert Shows(s1, o1, q, id, ev, e);
    }
  }

  lemma NotedWider(ns: string, plan: string, event: HookEvent, ids: set<Key>, wider: set<Key>, s0: Status, o0: Status,
          s1: Status, o1: Status)
    requires Noted(ns, plan, event, ids, s0, o0, s1, o1) && ids <= wider
    ensures Noted(ns, plan, event, wider, s0, o0, s1, o1)
  {
  }

  lemma KeptByNoted(env: Env, event: HookEvent, start: Status, crew: Crew, s0: Status, o0: Status, s1: Status,
          o1: Status)
    requires Kept(env, start, s0, o0) && DueCrew(env, event, start, crew)
    requires Noted(env.namespace, crew.plan, event, crew.ids, s0, o0, s1, o1)
    ensures Kept(env, start, s1, o1)
  {
    forall plan: string, id: Key, ev: HookEvent, e: HookStatus | RestingIn(env, start, plan, id, ev, e)
      ensures Shows(s1, o1, plan, id, ev, Some(e))
    {
      assert Shows(s0, o0, plan, id, ev, Some(e));
      RestingIsNotDue(env, event, start, crew, plan, id, ev, e);
    }
  }

  lemma SamePlansChains(a: Status, s: Status, t: Status)
    requires SamePlans(a, s) && SameButHooks(s, t)
    ensures SamePlans(a, t)
  {
    forall p | p in a.plans ensures SamePlanButHooks(a.plans[p], t.plans[p]) {
      assert SamePlanButHooks(a.plans[p], s.plans[p]) && SamePlanButHooks(s.plans[p], t.plans[p]);
    }
  }

  /** All that a pass of hooks keeps as it goes, seen from its start. */
  ghost predicate Going(env: Env, event: HookEvent, a: Point, b: Point, o: Status) {
    && Stretch(env, event, a, b) && Kept(env, a.stored, b.stored, o) && SameButHooks(b.stored, o)
    && KeepsAnyOrder(a.history, a.stored, b.history, b.stored)
    && KeepsSound(env.namespace, a, a.stored, b, o)
  }

  /** Jobs of a crew, then results noted for its names. */
  lemma GoingOn(env: Env, event: HookEvent, a: Point, b: Point, o0: Status, crew: Crew, d: Point, o1: Status)
    requires Going(env, event, a, b, o0) && DueCrew(env, event, a.stored, crew)
    requires Worked(env.scheme, crew, b.events, b.configs, d.events, d.configs)
    requires Noted(env.namespace, crew.plan, event, crew.ids, b.stored, o0, d.stored, o1)
    requires KeepsAnyOrder(b.history, b.stored, d.history, d.stored) && KeepsSound(env.namespace, b, o0, d, o1)
    ensures Going(env, event, a, d, o1)
  {
    KeptByNoted(env, event, a.stored, crew, b.stored, o0, d.stored, o1);
    SamePlansChains(a.stored, b.stored, d.stored);
    StretchByCrew(env, event, a, b, crew, d, o1);
    AnyOrderTransitively(a.history, a.stored, b.history, b.stored, d.history, d.stored);
  }

  // ---------------------------------------------------------------- what is done afterwards

  /** What the names of Jobs depend on: the digest, and the nodes with their labels. */
  datatype Site = Site(scheme: Scheme, selects: (Selector, Labels) -> bool, nodes: map<string, Labels>)

  ghost function SiteOf(c: Cluster): Site
    reads c`nodes
  {
    Site(c.scheme, c.selects, c.nodes)
  }

  ghost predicate At(c: Cluster, site: Site)
    reads c`nodes
  {
    site.scheme == c.scheme && site.selects == c.selects && site.nodes == c.nodes
  }

  ghost function MatchingNodes(site: Site, selector: Selector): set<string> {
    set n | n in site.nodes && site.selects(selector, site.nodes[n])
  }

  /** The names of the Jobs a hook stands for, on the nodes there are. */
  ghost function JobIds(site: Site, h: HookJob): set<Key> {
    match h.nodeAccess
    case None => {h.Id()}
    case Some(selector) =>
      set n | n in MatchingNodes(site, selector) :: Key(h.namespace, site.scheme.nodeName(h.name, n))
  }

  /** Every Job of the hook would be skipped. */
  ghost predicate JobServed(site: Site, st: Status, h: HookJob) {
    forall id :: id in JobIds(site, h) ==> Skips(st, h.planName, id.name, h.event, h.mutable, h.checksum)
  }

  /** A success is recorded for the name, with the checksum of what its ConfigMap holds. */
  predicate NameRecorded(scheme: Scheme, crew: Crew, st: Status, configs: map<Key, HookConfig>, id: Key) {
    && ConfigServes(scheme, crew, id, configs)
    && SucceededAt(Find(HooksOf(st, crew.plan), id.name, crew.event))
    && Find(HooksOf(st, crew.plan), id.name, crew.event).value.checksum == SumOf(scheme, configs[id])
  }

  predicate CrewRecorded(scheme: Scheme, crew: Crew, st: Status, configs: map<Key, HookConfig>) {
    crew.plan in st.plans && forall id :: id in crew.ids ==> NameRecorded(scheme, crew, st, configs, id)
  }

  ghost predicate CrewLaunched(crew: Crew, from: seq<Event>, to: seq<Event>) {
    forall id :: id in crew.ids ==> LaunchedSince(to, |from|, id)
  }

  /** All Jobs of a crew went well from `a` to `b`, and it is on record that they did. */
  ghost predicate WentWell(scheme: Scheme, crew: Crew, a: Point, b: Point) {
    CrewRecorded(scheme, crew, b.stored, b.configs) && CrewLaunched(crew, a.events, b.events)
  }

  lemma RecordedIsSkipped(scheme: Scheme, crew: Crew, st: Status, configs: map<Key, HookConfig>, id: Key)
    requires CrewRecorded(scheme, crew, st, configs) && id in crew.ids
    ensures Skips(st, crew.plan, id.name, crew.event, crew.mutable, crew.sum)
  {
    assert NameRecorded(scheme, crew, st, configs, id);
  }

  /** Recorded results change what is skipped only under their own names. */
  lemma SkippedStays(ns: string, noted: string, at: HookEvent, ids: set<Key>, s: Status, t: Status,
                     plan: string, event: HookEvent, id: Key, mutable: bool, sum: string)
    requires Noted(ns, noted, at, ids, s, s, t, t) && id.namespace == ns
    requires plan == noted && event == at ==> id !in ids
    ensures Skips(s, plan, id.name, event, mutable, sum) <==> Skips(t, plan, id.name, event, mutable, sum)
  {
    if plan in s.plans { assert SamePlanButHooks(s.plans[plan], t.plans[plan]); }
    var entry := Find(HooksOf(s, plan), id.name, event);
    assert Shows(s, s, plan, id, event, entry) && Shows(t, t, plan, id, event, entry);
  }

  lemma ServedStays(site: Site, h: HookJob, ns: string, plan: string, event: HookEvent, ids: set<Key>, s: Status,
          t: Status)
    requires JobServed(site, s, h) && h.namespace == ns && Noted(ns, plan, event, ids, s, s, t, t)
    requires h.planName == plan && h.event == event ==> JobIds(site, h) !! ids
    ensures JobServed(site, t, h)
  {
    forall id | id in JobIds(site, h) ensures Skips(t, h.planName, id.name, h.event, h.mutable, h.checksum) {
      SkippedStays(ns, plan, event, ids, s, t, h.planName, h.event, id, h.mutable, h.checksum);
    }
  }

  // ---------------------------------------------------------------- one hook

  /** The hook of the spec, with the command and arguments its ConfigMap freezes, if it is not mutable. */
  predicate ResolvedFrom(base: HookJob, h: HookJob) {
    && h == base.(command := h.command, args := h.args, checksum := h.checksum)
    && (base.mutable ==> h == base)
  }

  method ResolveHookFromConfigMap(c: Cluster, hook: HookJob) returns (r: Result<HookJob>)
    ensures r.Err? ==> !hook.mutable
    ensures r.Ok? ==> ResolvedFrom(hook, r.value)
    ensures r.Ok? && (hook.mutable || hook.Id() !in c.configMaps) ==> r.value == hook
    ensures r.Ok? && !hook.mutable && hook.Id() in c.configMaps ==>
      && HookConfig(r.value.command, r.value.args) == c.configMaps[hook.Id()]
      && r.value.checksum == SumOf(c.scheme, c.configMaps[hook.Id()])
  {
    if hook.mutable {
      return Ok(hook);
    }
    var config := c.GetConfigMap(hook.Id());
    if config == Err(NotFound) { return Ok(hook); }
    if config.Err? { return Err(config.error); }
    var sum := c.scheme.checksum(config.value.command, config.value.args);
    return Ok(hook.(command := config.value.command, args := config.value.args, checksum := sum));
  }

  /** Records one result; what else is recorded stays found. */
  method Note(c: Cluster, obj: RestoreObject, planName: string, status: HookStatus) returns (r: Result<()>)
    requires SameButHooks(c.status, obj.status) && planName in obj.status.plans
    requires status.succeeded != 0 ==> RanSince(c.events, 0, Key(obj.namespace, status.name))
    modifies obj`status, c`status, c`history, c`lostWrites
    ensures Noted(obj.namespace, planName, status.event, {Key(obj.namespace, status.name)},
                  old(c.status), old(obj.status), c.status, obj.status)
    ensures KeepsAnyOrder(old(c.history), old(c.status), c.history, c.status)
    ensures c.lostWrites == old(c.lostWrites) + if r.Ok? then 0 else 1
    ensures r.Ok? && old(c.status == obj.status) ==>
      c.status == obj.status && HooksOf(c.status, planName) == Upsert(HooksOf(old(c.status), planName), status)
    ensures KeepsSound(obj.namespace, old(Here(c)), old(obj.status), Here(c), obj.status)
  {
    r := SetHooksRestoreFromPlan(c, obj, planName, status);
    NotedOnce(obj.namespace, planName, status, old(c.status), old(obj.status), c.status, obj.status, r.Ok?);
    if Sound(obj.namespace, old(c.status), c.events) && Sound(obj.namespace, old(obj.status), c.events) {
      SoundOutcome(obj.namespace, old(c.status), old(obj.status), c.status, obj.status, r.Ok?, planName, status,
        c.events);
    }
  }

  /** One Job that ran from `a`, with its result recorded by `b`. */
  lemma ResultIsRecorded(scheme: Scheme, a: Point, b: Point, crew: Crew, before: seq<HookStatus>, id: Key,
          status: HookStatus)
    requires crew.ids == {id} && crew.plan in b.stored.plans && HooksOf(b.stored, crew.plan) == Upsert(before, status)
    requires IsEntry(status, id.name, crew.event) && status.succeeded != 0
    requires ConfigServes(scheme, crew, id, b.configs) && status.checksum == SumOf(scheme, b.configs[id])
    requires RanSince(b.events, |a.events|, id)
    ensures WentWell(scheme, crew, a, b)
  {
    FindAfterUpsert(before, status, id.name, crew.event);
    RunIsLaunch(b.events, |a.events|, id);
  }

  lemma RunIsLaunch(events: seq<Event>, lo: nat, id: Key)
    requires RanSince(events, lo, id)
    ensures LaunchedSince(events, lo, id)
  {
  }

  /** Jobs of a crew ran, and results were recorded for some of its names. */
  ghost predicate Ran(scheme: Scheme, ns: string, crew: Crew, a: Point, o0: Status, b: Point, o1: Status) {
    && Worked(scheme, crew, a.events, a.configs, b.events, b.configs)
    && Noted(ns, crew.plan, crew.event, crew.ids, a.stored, o0, b.stored, o1)
    && KeepsAnyOrder(a.history, a.stored, b.history, b.stored)
    && KeepsSound(ns, a, o0, b, o1)
  }

  /** More events back what fewer did. */
  lemma KeepsSoundByEvents(ns: string, a: Point, b: Point, o: Status)
    requires b.stored == a.stored && a.events <= b.events
    ensures KeepsSound(ns, a, o, b, o)
  {
    if Sound(ns, a.stored, a.events) && Sound(ns, o, a.events) {
      SoundLater(ns, a.stored, a.events, b.events);
      SoundLater(ns, o, a.events, b.events);
    }
  }

  /** Runs one hook Job and records the result at once. */
  method RunHook(c: Cluster, obj: RestoreObject, planName: string, hook: HookJob, ghost crew: Crew)
    returns (r: Result<()>)
    requires InCrew(c.scheme, crew, hook) && crew.ids == {hook.Id()} && planName == crew.plan
      && hook.namespace == obj.namespace
    requires Grounded(crew.wants, hook, c.configMaps)
    requires SameButHooks(c.status, obj.status) && planName in obj.status.plans
    modifies obj`status, c`status, c`history, c`lostWrites, c`configMaps, c`jobs, c`events
    ensures Ran(c.scheme, obj.namespace, crew, old(Here(c)), old(obj.status), Here(c), obj.status)
    ensures c.lostWrites >= old(c.lostWrites) && (r.Ok? ==> c.lostWrites == old(c.lostWrites))
    ensures r.Ok? && old(c.status == obj.status) ==>
      c.status == obj.status && WentWell(c.scheme, crew, old(Here(c)), Here(c))
  {
    ghost var a, s0, o0 := Here(c), c.status, obj.status;
    var status, executed := ExecuteHookJob(c, hook, crew);
    if executed.Ok? { RanSinceStays(c.events, c.events, |a.events|, 0, hook.Id()); }
    KeepsSoundByEvents(obj.namespace, a, Here(c), o0);
    assert crew.ids == {Key(obj.namespace, status.name)} && status.event == crew.event;
    var written := Note(c, obj, planName, status);
    assert Ran(c.scheme, obj.namespace, crew, old(Here(c)), o0, Here(c), obj.status);
    if written.Err? { return written; }
    if executed.Ok? && s0 == o0 {
      ResultIsRecorded(c.scheme, a, Here(c), crew, HooksOf(s0, planName), hook.Id(), status);
    }
    return executed;
  }

  // ---------------------------------------------------------------- one hook on many nodes

  predicate PerNode(scheme: Scheme, base: HookJob, node: string, h: HookJob) {
    ResolvedFrom(base.(name := scheme.nodeName(base.name, node)), h)
  }

  predicate NodeIsPending(scheme: Scheme, o: Status, base: HookJob, node: string, h: HookJob) {
    PerNode(scheme, base, node, h) && !Skips(o, base.planName, h.name, base.event, base.mutable, base.checksum)
  }

  /** Each of the hooks is `base` on one of the nodes, none of which occurs twice. */
  predicate OnNodes(scheme: Scheme, base: HookJob, nodes: seq<string>, hooks: seq<HookJob>) {
    && |nodes| == |hooks| && (forall i :: 0 <= i < |hooks| ==> PerNode(scheme, base, nodes[i], hooks[i]))
    && (forall i, j :: 0 <= i < j < |nodes| ==> nodes[i] != nodes[j])
  }

  lemma OneMoreOnNodes(scheme: Scheme, base: HookJob, nodes: seq<string>, hooks: seq<HookJob>, all: seq<string>, k: nat,
          h: HookJob)
    requires OnNodes(scheme, base, nodes, hooks) && k < |all| && (forall i :: 0 <= i < |nodes| ==> nodes[i] in all[..k])
    requires PerNode(scheme, base, all[k], h) && forall i, j :: 0 <= i < j < |all| ==> all[i] != all[j]
    ensures OnNodes(scheme, base, nodes + [all[k]], hooks + [h])
    ensures forall i :: 0 <= i < |nodes + [all[k]]| ==> (nodes + [all[k]])[i] in all[..k + 1]
  {
    assert all[..k + 1] == all[..k] + [all[k]];
  }

  /** What is to run on the nodes is what the spec wants, or what is frozen already. */
  predicate AllGrounded(base: HookJob, hooks: seq<HookJob>, configs: map<Key, HookConfig>) {
    forall i :: 0 <= i < |hooks| ==> Grounded(Wants(base), hooks[i], configs)
  }

  method ResolveOnNode(c: Cluster, hook: HookJob, node: string) returns (r: Result<HookJob>)
    ensures r.Ok? ==> PerNode(c.scheme, hook, node, r.value) && Grounded(Wants(hook), r.value, c.configMaps)
    ensures r.Ok? ==>
      r.value.name == c.scheme.nodeName(hook.name, node) && r.value.event == hook.event
        && r.value.mutable == hook.mutable && (hook.mutable ==> r.value.checksum == hook.checksum)
  {
    var perNode := hook.(name := c.scheme.nodeName(hook.name, node));
    r := ResolveHookFromConfigMap(c, perNode);
  }

  /** The node's Job is skipped, or among the pending ones. */
  predicate NodeSettled(scheme: Scheme, o: Status, hook: HookJob, pending: seq<HookJob>, node: string) {
    || Skips(o, hook.planName, scheme.nodeName(hook.name, node), hook.event, hook.mutable, hook.checksum)
    || exists h :: h in pending && PerNode(scheme, hook, node, h)
  }

  /** Where the loop over the nodes stands: the first `n` are settled. */
  ghost predicate PendingUpTo(scheme: Scheme, o: Status, hook: HookJob, nodes: seq<string>, n: nat,
                              from: seq<string>, pending: seq<HookJob>)
    requires n <= |nodes|
  {
    && (forall h :: h in pending ==> exists node :: node in nodes && NodeIsPending(scheme, o, hook, node, h))
    && (forall k :: 0 <= k < n ==> NodeSettled(scheme, o, hook, pending, nodes[k]))
    && OnNodes(scheme, hook, from, pending) && forall k :: 0 <= k < |from| ==> from[k] in nodes[..n]
  }

  lemma OneMoreNodePending(scheme: Scheme, o: Status, hook: HookJob, nodes: seq<string>, n: nat, from: seq<string>,
                           pending: seq<HookJob>, h: HookJob)
    requires n < |nodes| && PendingUpTo(scheme, o, hook, nodes, n, from, pending)
    requires forall i, j :: 0 <= i < j < |nodes| ==> nodes[i] != nodes[j]
    requires NodeIsPending(scheme, o, hook, nodes[n], h)
    ensures PendingUpTo(scheme, o, hook, nodes, n + 1, from + [nodes[n]], pending + [h])
  {
    OneMoreOnNodes(scheme, hook, from, pending, nodes, n, h);
    var more := pending + [h];
    assert more[|pending|] == h && nodes[n] in nodes;
    forall g | g in more ensures exists node :: node in nodes && NodeIsPending(scheme, o, hook, node, g) {
      if g !in pending { assert g == h; }
    }
    forall k | 0 <= k < n + 1 ensures NodeSettled(scheme, o, hook, more, nodes[k]) {
      if k < n { SettledStays(scheme, o, hook, pending, h, nodes[k]); }
    }
  }

  lemma SettledStays(scheme: Scheme, o: Status, hook: HookJob, pending: seq<HookJob>, h: HookJob, node: string)
    requires NodeSettled(scheme, o, hook, pending, node)
    ensures NodeSettled(scheme, o, hook, pending + [h], node)
  {
    if g :| g in pending && PerNode(scheme, hook, node, g) { assert g in pending + [h]; }
  }

  lemma OneMoreNodeSkipped(scheme: Scheme, o: Status, hook: HookJob, nodes: seq<string>, n: nat, from: seq<string>,
                           pending: seq<HookJob>)
    requires n < |nodes| && PendingUpTo(scheme, o, hook, nodes, n, from, pending)
    requires NodeSettled(scheme, o, hook, pending, nodes[n])
    ensures PendingUpTo(scheme, o, hook, nodes, n + 1, from, pending)
  {
  }

  /** The nodes whose Job does not rest, with what it is to run there; `from` says which. */
  method PendingNodes(c: Cluster, obj: RestoreObject, planName: string, hook: HookJob, nodeNames: seq<string>)
    returns (r: Result<seq<HookJob>>, ghost from: seq<string>)
    requires planName == hook.planName && forall i, j :: 0 <= i < j < |nodeNames| ==> nodeNames[i] != nodeNames[j]
    ensures r.Ok? ==> forall h :: h in r.value ==>
      exists node :: node in nodeNames && NodeIsPending(c.scheme, obj.status, hook, node, h)
    ensures r.Ok? ==> forall node :: node in nodeNames ==>
      || Skips(obj.status, planName, c.scheme.nodeName(hook.name, node), hook.event, hook.mutable, hook.checksum)
      || exists h :: h in r.value && PerNode(c.scheme, hook, node, h)
    ensures r.Ok? ==> OnNodes(c.scheme, hook, from, r.value) && AllGrounded(hook, r.value, c.configMaps)
  {
    var pending: seq<HookJob> := [];
    from := [];
    for i := 0 to |nodeNames|
      invariant PendingUpTo(c.scheme, obj.status, hook, nodeNames, i, from, pending)
      invariant AllGrounded(hook, pending, c.configMaps)
    {
      var resolved := ResolveOnNode(c, hook, nodeNames[i]);
      if resolved.Err? { return Err(resolved.error), from; }
      var h := resolved.value;
      var skip, _ := HookSkipReason(obj, planName, h.name, h.event, h.mutable, h.checksum);
      if skip {
        OneMoreNodeSkipped(c.scheme, obj.status, hook, nodeNames, i, from, pending);
        continue;
      }
      OneMoreNodePending(c.scheme, obj.status, hook, nodeNames, i, from, pending, h);
      pending, from := pending + [h], from + [nodeNames[i]];
    }
    forall node | node in nodeNames ensures NodeSettled(c.scheme, obj.status, hook, pending, node) {
      var k :| 0 <= k < |nodeNames| && nodeNames[k] == node;
    }
    return Ok(pending), from;
  }

  predicate SucceededResult(r: HookStatus) { r.succeeded != 0 }

  ghost predicate ResultsBacked(ns: string, results: seq<HookStatus>, events: seq<Event>) {
    forall i :: 0 <= i < |results| && SucceededResult(results[i]) ==> RanSince(events, 0, Key(ns, results[i].name))
  }

  /** What recording the first results came to. */
  ghost predicate RecordedSome(ns: string, plan: string, event: HookEvent, ids: set<Key>, a: Point, o0: Status,
          b: Point, o: Status)
  {
    && Noted(ns, plan, event, ids, a.stored, o0, b.stored, o)
    && KeepsAnyOrder(a.history, a.stored, b.history, b.stored) && KeepsSound(ns, a, o0, b, o)
  }

  lemma OneMoreRecorded(ns: string, plan: string, event: HookEvent, ids: set<Key>, id: Key, a: Point, o0: Status,
                        b: Point, o: Status, d: Point, o1: Status)
    requires RecordedSome(ns, plan, event, ids, a, o0, b, o) && RecordedSome(ns, plan, event, {id}, b, o, d, o1)
      && id in ids
    ensures RecordedSome(ns, plan, event, ids, a, o0, d, o1)
  {
    NotedMore(ns, plan, event, ids, {id}, a.stored, o0, b.stored, o, d.stored, o1);
    NotedWider(ns, plan, event, ids + {id}, ids, a.stored, o0, d.stored, o1);
    AnyOrderTransitively(a.history, a.stored, b.history, b.stored, d.history, d.stored);
  }

  lemma NothingRecorded(ns: string, plan: string, event: HookEvent, ids: set<Key>, a: Point, o: Status)
    requires SameButHooks(a.stored, o)
    ensures RecordedSome(ns, plan, event, ids, a, o, a, o)
  {
    SameButHooksChains(a.stored, o, o);
  }

  /** The object equals what is stored, and the plan's list is `before` with these results recorded. */
  ghost predicate ListIs(s: Status, o: Status, plan: string, before: seq<HookStatus>, done: seq<HookStatus>) {
    s == o && HooksOf(s, plan) == UpsertAll(before, done)
  }

  /** One of the results of a fan-out, seen from before the first. */
  method RecordNext(c: Cluster, obj: RestoreObject, planName: string, result: HookStatus, ghost event: HookEvent,
          ghost ids: set<Key>, ghost a: Point, ghost o0: Status, ghost before: seq<HookStatus>,
          ghost done: seq<HookStatus>)
    requires SameButHooks(c.status, obj.status) && planName in obj.status.plans
    requires result.event == event && Key(obj.namespace, result.name) in ids
    requires SucceededResult(result) ==> RanSince(c.events, 0, Key(obj.namespace, result.name))
    requires RecordedSome(obj.namespace, planName, event, ids, a, o0, Here(c), obj.status)
    modifies obj`status, c`status, c`history, c`lostWrites
    ensures RecordedSome(obj.namespace, planName, event, ids, a, o0, Here(c), obj.status)
    ensures SameButHooks(c.status, obj.status) && planName in obj.status.plans
    ensures c.lostWrites >= old(c.lostWrites)
    ensures c.lostWrites == old(c.lostWrites) && ListIs(old(c.status), old(obj.status), planName, before, done) ==>
      ListIs(c.status, obj.status, planName, before, done + [result])
  {
    ghost var b, o := Here(c), obj.status;
    UpsertAllSnoc(before, done, result);
    var _ := Note(c, obj, planName, result);
    OneMoreRecorded(obj.namespace, planName, event, ids, Key(obj.namespace, result.name), a, o0, b, o, Here(c),
      obj.status);
  }

  /** The results are of the event, and of these names. */
  predicate AllUnder(ns: string, results: seq<HookStatus>, event: HookEvent, ids: set<Key>) {
    forall i :: 0 <= i < |results| ==> results[i].event == event && Key(ns, results[i].name) in ids
  }

  lemma NextResult(ns: string, results: seq<HookStatus>, events: seq<Event>, event: HookEvent, ids: set<Key>, i: nat)
    requires ResultsBacked(ns, results, events) && AllUnder(ns, results, event, ids) && i < |results|
    ensures SucceededResult(results[i]) ==> RanSince(events, 0, Key(ns, results[i].name))
    ensures results[i].event == event && Key(ns, results[i].name) in ids
    ensures results[..i + 1] == results[..i] + [results[i]]
  {
  }

  /** The results of a fan-out, recorded one after the other; a write that fails is only logged. */
  method RecordAll(c: Cluster, obj: RestoreObject, planName: string, results: array<HookStatus>, ghost event: HookEvent,
          ghost ids: set<Key>)
    requires SameButHooks(c.status, obj.status) && planName in obj.status.plans
    requires AllUnder(obj.namespace, results[..], event, ids)
    requires ResultsBacked(obj.namespace, results[..], c.events)
    modifies obj`status, c`status, c`history, c`lostWrites
    ensures RecordedSome(obj.namespace, planName, event, ids, old(Here(c)), old(obj.status), Here(c), obj.status)
    ensures c.lostWrites >= old(c.lostWrites)
    ensures c.lostWrites == old(c.lostWrites) && old(c.status == obj.status) ==>
      c.status == obj.status && HooksOf(c.status, planName) == UpsertAll(HooksOf(old(c.status), planName), results[..])
  {
    ghost var a, s0, o0, rs := Here(c), c.status, obj.status, results[..];
    NothingRecorded(obj.namespace, planName, event, ids, a, o0);
    for i := 0 to results.Length
      invariant SameButHooks(c.status, obj.status) && planName in obj.status.plans
      invariant RecordedSome(obj.namespace, planName, event, ids, a, o0, Here(c), obj.status)
        && c.lostWrites >= old(c.lostWrites)
      invariant c.lostWrites == old(c.lostWrites) && s0 == o0 ==>
        ListIs(c.status, obj.status, planName, HooksOf(s0, planName), rs[..i])
    {
      var result := results[i];
      NextResult(obj.namespace, rs, a.events, event, ids, i);
      RecordNext(c, obj, planName, result, event, ids, a, o0, HooksOf(s0, planName), rs[..i]);
    }
    assert rs[..results.Length] == rs;
  }

  /**
   What a thread delivered: the status of its hook, and a success only if the Job was launched, seen to
   succeed, and its checksum is that of what the ConfigMap holds.
   */
  ghost predicate IsOutcome(scheme: Scheme, crew: Crew, hook: HookJob, ok: bool, result: HookStatus, from: seq<Event>,
          b: Point)
  {
    && hook.Id() in crew.ids && IsStatusOf(hook, result) && hook.event == crew.event
    && (ok ==> SucceededResult(result))
    && (SucceededResult(result) ==>
          && RanSince(b.events, |from|, hook.Id())
          && ConfigServes(scheme, crew, hook.Id(), b.configs) && result.checksum == SumOf(scheme, b.configs[hook.Id()]))
  }

  ghost predicate AreOutcomes(scheme: Scheme, crew: Crew, hooks: seq<HookJob>, ok: bool, results: seq<HookStatus>,
          from: seq<Event>, b: Point)
  {
    |results| == |hooks| && forall i :: 0 <= i < |hooks| ==> IsOutcome(scheme, crew, hooks[i], ok, results[i], from, b)
  }

  lemma DeliveredAll(scheme: Scheme, crew: Crew, hooks: seq<HookJob>, ts: seq<Thread>, failure: Result<()>,
          results: seq<HookStatus>, a: Point, b: Point)
    requires Underway(scheme, crew, hooks, ts, failure, results, a.events, a.configs, b.events, b.configs)
      && !Running(ts)
    ensures AreOutcomes(scheme, crew, hooks, failure.Ok?, results, a.events, b)
  {
    forall i | 0 <= i < |hooks| ensures IsOutcome(scheme, crew, hooks[i], failure.Ok?, results[i], a.events, b) {
      assert ts[i].stage.Finished? && ThreadLog(hooks[i], ts[i], b.events, |a.events|)
        && Coherent(scheme, crew, hooks[i], ts[i], b.configs);
    }
  }

  /** The Jobs of the pending nodes, side by side. */
  method RunSideBySide(c: Cluster, pending: seq<HookJob>, ghost crew: Crew)
    returns (results: array<HookStatus>, waitErr: Result<()>)
    requires forall i :: 0 <= i < |pending| ==>
      InCrew(c.scheme, crew, pending[i]) && Grounded(crew.wants, pending[i], c.configMaps)
    modifies c`configMaps, c`jobs, c`events
    ensures fresh(results) && AreOutcomes(c.scheme, crew, pending, waitErr.Ok?, results[..], old(c.events), Here(c))
    ensures Worked(c.scheme, crew, old(c.events), old(c.configMaps), c.events, c.configMaps)
  {
    ghost var a, ts, order := Here(c), [], [];
    results, waitErr, ts, order := ExecuteAll(c, pending, crew);
    DeliveredAll(c.scheme, crew, pending, ts, waitErr, results[..], a, Here(c));
  }

  lemma OutcomesAreBacked(scheme: Scheme, ns: string, crew: Crew, hooks: seq<HookJob>, ok: bool,
          results: seq<HookStatus>, from: seq<Event>, b: Point)
    requires AreOutcomes(scheme, crew, hooks, ok, results, from, b)
      && forall i :: 0 <= i < |hooks| ==> hooks[i].namespace == ns
    ensures ResultsBacked(ns, results, b.events)
    ensures AllUnder(ns, results, crew.event, crew.ids)
  {
    forall i | 0 <= i < |hooks|
      ensures results[i].event == crew.event && Key(ns, results[i].name) in crew.ids
      ensures SucceededResult(results[i]) ==> RanSince(b.events, 0, Key(ns, results[i].name))
    {
      assert IsOutcome(scheme, crew, hooks[i], ok, results[i], from, b) && hooks[i].Id() == Key(ns, results[i].name);
      if SucceededResult(results[i]) { RanSinceStays(b.events, b.events, |from|, 0, hooks[i].Id()); }
    }
  }

  /** Results of a crew that all succeeded are on record for every name of the crew. */
  lemma OutcomesAreRecorded(scheme: Scheme, ns: string, crew: Crew, before: seq<HookStatus>, hooks: seq<HookJob>,
          results: seq<HookStatus>, from: seq<Event>, b: Point, d: Point)
    requires crew.plan in d.stored.plans && HooksOf(d.stored, crew.plan) == UpsertAll(before, results)
    requires d.events == b.events && d.configs == b.configs && forall i :: 0 <= i < |hooks| ==> hooks[i].namespace == ns
    requires forall id :: id in crew.ids ==> exists i :: 0 <= i < |hooks| && hooks[i].Id() == id
    requires AreOutcomes(scheme, crew, hooks, true, results, from, b)
    ensures CrewRecorded(scheme, crew, d.stored, d.configs) && CrewLaunched(crew, from, d.events)
  {
    forall id | id in crew.ids
      ensures NameRecorded(scheme, crew, d.stored, d.configs, id) && LaunchedSince(d.events, |from|, id)
    {
      var i :| 0 <= i < |hooks| && hooks[i].Id() == id;
      var k := FoundAmong(scheme, crew, before, hooks, results, from, b, i);
      OutcomeIsRecorded(scheme, crew, hooks[k], results[k], from, b, d.stored);
    }
  }

  lemma FoundAmong(scheme: Scheme, crew: Crew, before: seq<HookStatus>, hooks: seq<HookJob>, results: seq<HookStatus>,
                   from: seq<Event>, b: Point, i: nat) returns (k: nat)
    requires AreOutcomes(scheme, crew, hooks, true, results, from, b) && i < |hooks|
    ensures k < |hooks| && hooks[k].name == hooks[i].name
      && IsOutcome(scheme, crew, hooks[k], true, results[k], from, b)
    ensures Find(UpsertAll(before, results), hooks[k].name, crew.event) == Some(results[k])
  {
    assert IsOutcome(scheme, crew, hooks[i], true, results[i], from, b);
    k := WhichFound(before, results, hooks[i].name, crew.event, i);
    assert IsOutcome(scheme, crew, hooks[k], true, results[k], from, b);
  }

  lemma WhichFound(before: seq<HookStatus>, results: seq<HookStatus>, name: string, event: HookEvent, i: nat)
    returns (k: nat)
    requires i < |results| && IsEntry(results[i], name, event)
    ensures k < |results| && IsEntry(results[k], name, event)
      && Find(UpsertAll(before, results), name, event) == Some(results[k])
  {
    FindAmongResults(before, results, name, event);
    k :| 0 <= k < |results| && IsEntry(results[k], name, event)
      && Find(UpsertAll(before, results), name, event) == Some(results[k]);
  }

  lemma OutcomeIsRecorded(scheme: Scheme, crew: Crew, hook: HookJob, result: HookStatus, from: seq<Event>, b: Point,
          st: Status)
    requires IsOutcome(scheme, crew, hook, true, result, from, b)
      && Find(HooksOf(st, crew.plan), hook.name, crew.event) == Some(result)
    ensures NameRecorded(scheme, crew, st, b.configs, hook.Id()) && LaunchedSince(b.events, |from|, hook.Id())
  {
    RunIsLaunch(b.events, |from|, hook.Id());
  }

  /** The list `after` is `before` with a result for each of the hooks, recorded from the first to the last. */
  ghost predicate RecordedInTurn(before: seq<HookStatus>, after: seq<HookStatus>, hooks: seq<HookJob>,
          results: seq<HookStatus>)
  {
    && |results| == |hooks| && (forall i :: 0 <= i < |hooks| ==> IsStatusOf(hooks[i], results[i]))
    && after == UpsertAll(before, results)
  }

  lemma OutcomesInTurn(scheme: Scheme, crew: Crew, before: seq<HookStatus>, hooks: seq<HookJob>, ok: bool,
          results: seq<HookStatus>, from: seq<Event>, b: Point)
    requires AreOutcomes(scheme, crew, hooks, ok, results, from, b)
    ensures RecordedInTurn(before, UpsertAll(before, results), hooks, results)
  {
    forall i | 0 <= i < |hooks| ensures IsStatusOf(hooks[i], results[i]) {
      assert IsOutcome(scheme, crew, hooks[i], ok, results[i], from, b);
    }
  }

  /**
   Runs the Jobs of the pending nodes side by side and records what came of each. However the threads
   were interleaved, the list is that of recording the results from left to right.
   */
  method FanOut(c: Cluster, obj: RestoreObject, planName: string, pending: seq<HookJob>, ghost crew: Crew)
    returns (r: Result<()>, ghost outcomes: seq<HookStatus>)
    requires SameButHooks(c.status, obj.status) && planName in obj.status.plans && planName == crew.plan
    requires forall i :: 0 <= i < |pending| ==>
      InCrew(c.scheme, crew, pending[i]) && pending[i].namespace == obj.namespace
    requires forall i :: 0 <= i < |pending| ==> Grounded(crew.wants, pending[i], c.configMaps)
    requires forall id :: id in crew.ids ==> exists i :: 0 <= i < |pending| && pending[i].Id() == id
    modifies obj`status, c`status, c`history, c`lostWrites, c`configMaps, c`jobs, c`events
    ensures Ran(c.scheme, obj.namespace, crew, old(Here(c)), old(obj.status), Here(c), obj.status)
    ensures c.lostWrites >= old(c.lostWrites)
    ensures c.lostWrites == old(c.lostWrites) && old(c.status == obj.status) ==>
      && c.status == obj.status && (r.Ok? ==> WentWell(c.scheme, crew, old(Here(c)), Here(c)))
      && RecordedInTurn(HooksOf(old(c.status), planName), HooksOf(c.status, planName), pending, outcomes)
  {
    ghost var a, s0, o0 := Here(c), c.status, obj.status;
    var results, waitErr := RunSideBySide(c, pending, crew);
    outcomes := results[..];
    ghost var b := Here(c);
    OutcomesAreBacked(c.scheme, obj.namespace, crew, pending, waitErr.Ok?, outcomes, a.events, b);
    KeepsSoundByEvents(obj.namespace, a, b, o0);
    RecordAll(c, obj, planName, results, crew.event, crew.ids);
    if c.lostWrites == old(c.lostWrites) && s0 == o0 {
      OutcomesInTurn(c.scheme, crew, HooksOf(s0, planName), pending, waitErr.Ok?, outcomes, a.events, b);
      if waitErr.Ok? {
        OutcomesAreRecorded(c.scheme, obj.namespace, crew, HooksOf(s0, planName), pending, outcomes, a.events, b,
          Here(c));
      }
    }
    r := waitErr;
  }

  /** A crew for the Jobs of `base` that are not skipped. */
  ghost predicate CrewOf(site: Site, o: Status, base: HookJob, crew: Crew) {
    && crew.plan == base.planName && crew.event == base.event && crew.mutable == base.mutable
    && crew.sum == base.checksum
    && forall id :: id in crew.ids ==>
         id in JobIds(site, base) && !Skips(o, base.planName, id.name, base.event, base.mutable, base.checksum)
  }

  /** `base` is a hook of the spec: its checksum is that of its command and arguments. */
  predicate WellSummed(scheme: Scheme, base: HookJob) { base.checksum == scheme.checksum(base.command, base.args) }

  lemma NothingRan(scheme: Scheme, ns: string, crew: Crew, a: Point, o: Status)
    requires SameButHooks(a.stored, o)
    ensures Ran(scheme, ns, crew, a, o, a, o)
  {
    SameButHooksChains(a.stored, o, o);
  }

  ghost predicate AllWellSummed(scheme: Scheme, hooks: seq<HookJob>) {
    forall i :: 0 <= i < |hooks| ==> WellSummed(scheme, hooks[i])
  }

  /** The names of the Jobs on the nodes a list of nodes has. */
  lemma NodeJobIds(site: Site, hook: HookJob, selector: Selector, nodeNames: seq<string>, id: Key)
    requires hook.nodeAccess == Some(selector) && Enumerates(nodeNames, MatchingNodes(site, selector))
    ensures id in JobIds(site, hook) <==>
      exists node :: node in nodeNames && id == Key(hook.namespace, site.scheme.nodeName(hook.name, node))
  {
  }

  /** `pending` are the Jobs of a node-access hook that are not skipped, ready to run. */
  ghost predicate NodesPending(site: Site, o: Status, hook: HookJob, pending: seq<HookJob>) {
    AllPending(site, o, hook, pending) && RestSkipped(site, o, hook, pending)
  }

  ghost predicate AllPending(site: Site, o: Status, hook: HookJob, pending: seq<HookJob>) {
    forall i :: 0 <= i < |pending| ==>
      && ResolvedFrom(hook.(name := pending[i].name), pending[i]) && pending[i].Id() in JobIds(site, hook)
      && !Skips(o, hook.planName, pending[i].name, hook.event, hook.mutable, hook.checksum)
  }

  ghost predicate RestSkipped(site: Site, o: Status, hook: HookJob, pending: seq<HookJob>) {
    forall id :: id in JobIds(site, hook) ==> IdSkipped(o, hook, id) || IdPending(pending, id)
  }

  predicate IdSkipped(o: Status, hook: HookJob, id: Key) {
    Skips(o, hook.planName, id.name, hook.event, hook.mutable, hook.checksum)
  }

  predicate IdPending(pending: seq<HookJob>, id: Key) {
    exists i :: 0 <= i < |pending| && pending[i].Id() == id
  }

  lemma OnePendingNode(site: Site, o: Status, hook: HookJob, selector: Selector, nodeNames: seq<string>, h: HookJob)
    requires hook.nodeAccess == Some(selector) && Enumerates(nodeNames, MatchingNodes(site, selector))
    requires exists node :: node in nodeNames && NodeIsPending(site.scheme, o, hook, node, h)
    ensures ResolvedFrom(hook.(name := h.name), h) && h.Id() in JobIds(site, hook)
    ensures !Skips(o, hook.planName, h.name, hook.event, hook.mutable, hook.checksum)
  {
    var node :| node in nodeNames && NodeIsPending(site.scheme, o, hook, node, h);
    NodeJobIds(site, hook, selector, nodeNames, h.Id());
  }

  lemma OneNodeHandled(site: Site, o: Status, hook: HookJob, selector: Selector, nodeNames: seq<string>,
          pending: seq<HookJob>, id: Key)
    requires hook.nodeAccess == Some(selector) && Enumerates(nodeNames, MatchingNodes(site, selector))
    requires forall node :: node in nodeNames ==>
      || Skips(o, hook.planName, site.scheme.nodeName(hook.name, node), hook.event, hook.mutable, hook.checksum)
      || exists h :: h in pending && PerNode(site.scheme, hook, node, h)
    requires id in JobIds(site, hook)
    ensures IdSkipped(o, hook, id) || IdPending(pending, id)
  {
    NodeJobIds(site, hook, selector, nodeNames, id);
    var node :| node in nodeNames && id == Key(hook.namespace, site.scheme.nodeName(hook.name, node));
    if h :| h in pending && PerNode(site.scheme, hook, node, h) {
      var i :| 0 <= i < |pending| && pending[i] == h;
      assert pending[i].Id() == id;
    }
  }

  /** The pending nodes, seen as names of Jobs. */
  lemma NodesToJobs(site: Site, o: Status, hook: HookJob, selector: Selector, nodeNames: seq<string>,
          pending: seq<HookJob>)
    requires hook.nodeAccess == Some(selector) && Enumerates(nodeNames, MatchingNodes(site, selector))
    requires forall h :: h in pending ==>
      exists node :: node in nodeNames && NodeIsPending(site.scheme, o, hook, node, h)
    requires forall node :: node in nodeNames ==>
      || Skips(o, hook.planName, site.scheme.nodeName(hook.name, node), hook.event, hook.mutable, hook.checksum)
      || exists h :: h in pending && PerNode(site.scheme, hook, node, h)
    ensures NodesPending(site, o, hook, pending)
  {
    assert AllPending(site, o, hook, pending) by {
      forall h | h in pending
        ensures ResolvedFrom(hook.(name := h.name), h) && h.Id() in JobIds(site, hook)
        ensures !Skips(o, hook.planName, h.name, hook.event, hook.mutable, hook.checksum)
      {
        OnePendingNode(site, o, hook, selector, nodeNames, h);
      }
    }
    assert RestSkipped(site, o, hook, pending) by {
      forall id | id in JobIds(site, hook) ensures IdSkipped(o, hook, id) || IdPending(pending, id) {
        OneNodeHandled(site, o, hook, selector, nodeNames, pending, id);
      }
    }
  }

  method ListPendingNodes(c: Cluster, obj: RestoreObject, planName: string, hook: HookJob)
    returns (r: Result<seq<HookJob>>, ghost from: seq<string>)
    requires hook.nodeAccess.Some? && planName == hook.planName
    ensures r.Ok? ==> NodesPending(SiteOf(c), obj.status, hook, r.value) && OnNodes(c.scheme, hook, from, r.value)
    ensures r.Ok? ==> AllGrounded(hook, r.value, c.configMaps)
  {
    var selector := hook.nodeAccess.value;
    from := [];
    if !c.parses(selector) { return Err(Other("invalid nodeSelector")), from; }
    var nodeNames := c.ListNodes(selector);
    if nodeNames.Err? { return Err(nodeNames.error), from; }
    assert Enumerates(nodeNames.value, MatchingNodes(SiteOf(c), selector));
    r, from := PendingNodes(c, obj, planName, hook, nodeNames.value);
    if r.Ok? { NodesToJobs(SiteOf(c), obj.status, hook, selector, nodeNames.value, r.value); }
  }

  function NodeCrew(hook: HookJob, pending: seq<HookJob>): Crew {
    Crew(hook.planName, hook.event, hook.mutable, hook.checksum, Wants(hook), set h | h in pending :: h.Id())
  }

  /** The Jobs pending on nodes make up a crew. */
  lemma PendingCrew(site: Site, o: Status, hook: HookJob, pending: seq<HookJob>)
    requires AllPending(site, o, hook, pending) && WellSummed(site.scheme, hook)
    ensures var crew := NodeCrew(hook, pending);
      && CrewOf(site, o, hook, crew)
      && (forall i :: 0 <= i < |pending| ==>
          InCrew(site.scheme, crew, pending[i]) && pending[i].namespace == hook.namespace)
      && (forall id :: id in crew.ids ==> exists i :: 0 <= i < |pending| && pending[i].Id() == id)
  {
    var crew := NodeCrew(hook, pending);
    forall i | 0 <= i < |pending| ensures InCrew(site.scheme, crew, pending[i]) {
      assert pending[i] in pending;
    }
    forall id | id in crew.ids ensures exists i :: 0 <= i < |pending| && pending[i].Id() == id {
      var h :| h in pending && h.Id() == id;
      var i :| 0 <= i < |pending| && pending[i] == h;
    }
  }

  /** With the pending ones on record, all Jobs of the hook are done. */
  lemma AllNodesServed(site: Site, s: Status, t: Status, configs: map<Key, HookConfig>, hook: HookJob,
          pending: seq<HookJob>)
    requires RestSkipped(site, s, hook, pending) && hook.nodeAccess.Some?
    requires Noted(hook.namespace, hook.planName, hook.event, NodeCrew(hook, pending).ids, s, s, t, t)
    requires CrewRecorded(site.scheme, NodeCrew(hook, pending), t, configs)
    ensures JobServed(site, t, hook)
  {
    var ids := NodeCrew(hook, pending).ids;
    assert forall i :: 0 <= i < |pending| ==> pending[i] in pending && pending[i].Id() in ids;
    forall id | id in JobIds(site, hook)
      ensures Skips(t, hook.planName, id.name, hook.event, hook.mutable, hook.checksum)
    {
      if id in ids {
        RecordedIsSkipped(site.scheme, NodeCrew(hook, pending), t, configs, id);
      } else {
        SkippedStays(hook.namespace, hook.planName, hook.event, ids, s, t, hook.planName, hook.event, id, hook.mutable,
          hook.checksum);
      }
    }
  }

  /** The Jobs pending on nodes, run side by side. */
  method RunPendingNodes(c: Cluster, obj: RestoreObject, planName: string, hook: HookJob, pending: seq<HookJob>)
    returns (r: Result<()>, ghost outcomes: seq<HookStatus>)
    requires hook.nodeAccess.Some? && planName == hook.planName && hook.namespace == obj.namespace
      && WellSummed(c.scheme, hook)
    requires SameButHooks(c.status, obj.status) && planName in obj.status.plans
    requires AllPending(SiteOf(c), obj.status, hook, pending) && AllGrounded(hook, pending, c.configMaps)
    modifies obj`status, c`status, c`history, c`lostWrites, c`configMaps, c`jobs, c`events
    ensures Ran(c.scheme, obj.namespace, NodeCrew(hook, pending), old(Here(c)), old(obj.status), Here(c), obj.status)
    ensures c.lostWrites >= old(c.lostWrites)
    ensures c.lostWrites == old(c.lostWrites) && old(c.status == obj.status) ==>
      && c.status == obj.status && (r.Ok? ==> WentWell(c.scheme, NodeCrew(hook, pending), old(Here(c)), Here(c)))
      && RecordedInTurn(HooksOf(old(c.status), planName), HooksOf(c.status, planName), pending, outcomes)
  {
    PendingCrew(SiteOf(c), obj.status, hook, pending);
    r, outcomes := FanOut(c, obj, planName, pending, NodeCrew(hook, pending));
  }

  /**
   A hook on nodes. `jobs` are those that ran, each on its node of `nodes`, and `outcomes` their results:
   the list of hook results is that of recording them one after the other.
   */
  method RunNodeAccessHook(c: Cluster, obj: RestoreObject, planName: string, hook: HookJob)
    returns (r: Result<()>, ghost jobs: seq<HookJob>, ghost nodes: seq<string>, ghost outcomes: seq<HookStatus>)
    requires hook.nodeAccess.Some? && planName == hook.planName && hook.namespace == obj.namespace
      && WellSummed(c.scheme, hook)
    requires SameButHooks(c.status, obj.status) && planName in obj.status.plans
    modifies obj`status, c`status, c`history, c`lostWrites, c`configMaps, c`jobs, c`events
    ensures AllPending(SiteOf(c), old(obj.status), hook, jobs) && OnNodes(c.scheme, hook, nodes, jobs)
    ensures r.Ok? ==> RestSkipped(SiteOf(c), old(obj.status), hook, jobs)
    ensures Ran(c.scheme, obj.namespace, NodeCrew(hook, jobs), old(Here(c)), old(obj.status), Here(c), obj.status)
    ensures c.lostWrites >= old(c.lostWrites)
    ensures c.lostWrites == old(c.lostWrites) && old(c.status == obj.status) ==>
      && c.status == obj.status && (r.Ok? ==> WentWell(c.scheme, NodeCrew(hook, jobs), old(Here(c)), Here(c)))
      && RecordedInTurn(HooksOf(old(c.status), planName), HooksOf(c.status, planName), jobs, outcomes)
    ensures jobs == [] ==> Here(c) == old(Here(c)) && obj.status == old(obj.status)
  {
    jobs, outcomes := [], [];
    var pending;
    pending, nodes := ListPendingNodes(c, obj, planName, hook);
    if pending.Err? || pending.value == [] {
      nodes := [];
      NothingRan(c.scheme, obj.namespace, NodeCrew(hook, []), Here(c), obj.status);
      return if pending.Err? then Err(pending.error) else Ok(()), jobs, nodes, outcomes;
    }
    jobs := pending.value;
    r, outcomes := RunPendingNodes(c, obj, planName, hook, pending.value);
  }

  // ---------------------------------------------------------------- the hooks of a plan

  function PlainCrew(base: HookJob): Crew {
    Crew(base.planName, base.event, base.mutable, base.checksum, Wants(base), {base.Id()})
  }

  lemma SpecIsWellSummed(env: Env, event: HookEvent, base: HookJob)
    requires FromSpec(env, event, base)
    ensures WellSummed(env.scheme, base) && base.namespace == env.namespace && base.event == event
      && base.planName in env.spec
  {
  }

  /** The Jobs of a node-access hook that are not skipped have a reason to run. */
  lemma NodeCrewIsDue(env: Env, event: HookEvent, start: Status, site: Site, s: Status, o: Status, base: HookJob,
          jobs: seq<HookJob>)
    requires Kept(env, start, s, o) && SamePlans(start, s) && SameButHooks(s, o) && base.planName in o.plans
    requires FromSpec(env, event, base) && base.nodeAccess.Some? && site.scheme == env.scheme
    requires AllPending(site, o, base, jobs)
    ensures DueCrew(env, event, start, NodeCrew(base, jobs))
  {
    var crew := NodeCrew(base, jobs);
    SpecIsWellSummed(env, event, base);
    PendingCrew(site, o, base, jobs);
    forall id | id in crew.ids ensures DueName(env, event, start, crew, id) {
      var n := NodeOf(site, base, id);
      DueIfNotSkipped(env, event, start, s, o, base, Some(n), id, crew);
    }
  }

  lemma NodeOf(site: Site, base: HookJob, id: Key) returns (n: string)
    requires base.nodeAccess.Some? && id in JobIds(site, base)
    ensures id == Key(base.namespace, site.scheme.nodeName(base.name, n))
  {
    n :| n in MatchingNodes(site, base.nodeAccess.value)
      && id == Key(base.namespace, site.scheme.nodeName(base.name, n));
  }

  /** One hook that ran: which, as which Jobs if on nodes, and from where. */
  datatype Run = Run(base: HookJob, jobs: seq<HookJob>, from: Point, seen: Status)

  function RunCrew(run: Run): Crew {
    if run.base.nodeAccess.Some? then NodeCrew(run.base, run.jobs) else PlainCrew(run.base)
  }

  /** On nodes, only Jobs run that are not skipped by then. */
  ghost predicate Justified(site: Site, run: Run) {
    run.base.nodeAccess.Some? ==> AllPending(site, run.seen, run.base, run.jobs)
  }

  /** Runs one after the other lead from `a` to `b`. */
  ghost predicate Chain(scheme: Scheme, ns: string, runs: seq<Run>, a: Point, o0: Status, b: Point, o: Status)
    decreases |runs|
  {
    if runs == [] then b == a && o == o0
    else
      var last := runs[|runs| - 1];
      && Chain(scheme, ns, runs[..|runs| - 1], a, o0, last.from, last.seen)
      && Ran(scheme, ns, RunCrew(last), last.from, last.seen, b, o)
  }

  lemma ChainLonger(scheme: Scheme, ns: string, runs: seq<Run>, a: Point, o0: Status, run: Run, b: Point, o: Status)
    requires Chain(scheme, ns, runs, a, o0, run.from, run.seen)
      && Ran(scheme, ns, RunCrew(run), run.from, run.seen, b, o)
    ensures Chain(scheme, ns, runs + [run], a, o0, b, o)
  {
    assert (runs + [run])[..|runs|] == runs;
  }

  /** A hook of a plan, and as what it is to run: on nodes each Job is resolved later. */
  predicate Runnable(scheme: Scheme, ns: string, plan: string, base: HookJob, hook: HookJob) {
    && base.planName == plan && base.namespace == ns && WellSummed(scheme, base)
    && ResolvedFrom(base, hook) && (base.nodeAccess.Some? ==> hook == base)
  }

  lemma PlainJobIds(site: Site, base: HookJob)
    requires base.nodeAccess.None?
    ensures JobIds(site, base) == PlainCrew(base).ids
  {
  }

  /** The run went well, and no Job of the hook was left out that was not skipped. */
  ghost predicate RunWentWell(site: Site, run: Run, b: Point) {
    && WentWell(site.scheme, RunCrew(run), run.from, b)
    && (run.base.nodeAccess.Some? ==> RestSkipped(site, run.seen, run.base, run.jobs))
  }

  /** One pending hook, of either kind. */
  method RunPending(c: Cluster, obj: RestoreObject, planName: string, hook: HookJob, ghost base: HookJob)
    returns (r: Result<()>, ghost run: Run)
    requires Runnable(c.scheme, obj.namespace, planName, base, hook) && Grounded(Wants(base), hook, c.configMaps)
    requires SameButHooks(c.status, obj.status) && planName in obj.status.plans
    modifies obj`status, c`status, c`history, c`lostWrites, c`configMaps, c`jobs, c`events
    ensures run == Run(base, run.jobs, old(Here(c)), old(obj.status)) && Justified(SiteOf(c), run)
    ensures Ran(c.scheme, obj.namespace, RunCrew(run), run.from, run.seen, Here(c), obj.status)
    ensures c.lostWrites >= old(c.lostWrites)
    ensures r.Ok? && c.lostWrites == old(c.lostWrites) && old(c.status == obj.status) ==>
      c.status == obj.status && RunWentWell(SiteOf(c), run, Here(c))
    ensures run.jobs == [] && base.nodeAccess.Some? ==> Here(c) == run.from && obj.status == run.seen
  {
    ghost var from, seen, jobs := Here(c), obj.status, [];
    if hook.nodeAccess.Some? {
      ghost var nodes, outcomes;
      r, jobs, nodes, outcomes := RunNodeAccessHook(c, obj, planName, hook);
    } else {
      r := RunHook(c, obj, planName, hook, PlainCrew(base));
    }
    run := Run(base, jobs, from, seen);
  }

  lemma ServedHasNonePending(site: Site, o: Status, hook: HookJob, jobs: seq<HookJob>)
    requires AllPending(site, o, hook, jobs)
    ensures JobServed(site, o, hook) ==> jobs == []
  {
    if jobs != [] {
      assert jobs[0].Id() in JobIds(site, hook) && !IdSkipped(o, hook, jobs[0].Id());
    }
  }

  /** Every one of the names is that of a Job of one of the hooks. */
  ghost predicate NamesOf(site: Site, hooks: seq<HookJob>, ids: set<Key>) {
    forall id :: id in ids ==> exists h :: h in hooks && id in JobIds(site, h)
  }

  ghost predicate AllServed(site: Site, st: Status, hooks: seq<HookJob>, n: nat)
    requires n <= |hooks|
  {
    forall i :: 0 <= i < n ==> JobServed(site, st, hooks[i])
  }

  ghost predicate EveryServed(site: Site, st: Status, hooks: seq<HookJob>) {
    AllServed(site, st, hooks, |hooks|)
  }

  lemma OneMoreNoted(site: Site, bases: seq<HookJob>, n: nat, ns: string, plan: string, event: HookEvent, ids: set<Key>,
                     s0: Status, o0: Status, s1: Status, o1: Status, s2: Status, o2: Status)
    requires n < |bases| && NamesOf(site, bases, ids) && Noted(ns, plan, event, ids, s0, o0, s1, o1)
    requires Noted(ns, plan, event, JobIds(site, bases[n]), s1, o1, s2, o2)
    ensures NamesOf(site, bases, ids + JobIds(site, bases[n]))
    ensures Noted(ns, plan, event, ids + JobIds(site, bases[n]), s0, o0, s2, o2)
  {
    assert bases[n] in bases;
    NotedMore(ns, plan, event, ids, JobIds(site, bases[n]), s0, o0, s1, o1, s2, o2);
  }

  lemma CrewIsOfBase(site: Site, run: Run)
    requires Justified(site, run)
    ensures RunCrew(run).ids <= JobIds(site, run.base) && RunCrew(run).plan == run.base.planName
      && RunCrew(run).event == run.base.event
  {
    if run.base.nodeAccess.Some? {
      forall id | id in RunCrew(run).ids ensures id in JobIds(site, run.base) {
        var h :| h in run.jobs && h.Id() == id;
        var i :| 0 <= i < |run.jobs| && run.jobs[i] == h;
      }
    } else {
      PlainJobIds(site, run.base);
    }
  }

  lemma RanNotes(site: Site, ns: string, run: Run, b: Point, o: Status)
    requires Justified(site, run) && Ran(site.scheme, ns, RunCrew(run), run.from, run.seen, b, o)
    ensures Noted(ns, run.base.planName, run.base.event, JobIds(site, run.base), run.from.stored, run.seen, b.stored, o)
  {
    CrewIsOfBase(site, run);
    NotedWider(ns, run.base.planName, run.base.event, RunCrew(run).ids, JobIds(site, run.base), run.from.stored,
      run.seen, b.stored, o);
  }

  ghost predicate AllRunnable(scheme: Scheme, ns: string, plan: string, bases: seq<HookJob>, hooks: seq<HookJob>,
          event: HookEvent)
  {
    && |bases| == |hooks| && OfPlan(ns, plan, event, bases)
    && forall i :: 0 <= i < |hooks| ==> Runnable(scheme, ns, plan, bases[i], hooks[i])
  }

  ghost predicate OfPlan(ns: string, plan: string, event: HookEvent, bases: seq<HookJob>) {
    forall k :: 0 <= k < |bases| ==> bases[k].namespace == ns && bases[k].planName == plan && bases[k].event == event
  }

  /** The runs are those of the first hooks. */
  ghost predicate RunsOf(site: Site, runs: seq<Run>, bases: seq<HookJob>) {
    |runs| <= |bases| && forall i :: 0 <= i < |runs| ==> runs[i].base == bases[i] && Justified(site, runs[i])
  }

  lemma RunsOfLonger(site: Site, runs: seq<Run>, bases: seq<HookJob>, run: Run)
    requires RunsOf(site, runs, bases) && |runs| < |bases| && run.base == bases[|runs|] && Justified(site, run)
    ensures RunsOf(site, runs + [run], bases)
  {
  }

  /** Nothing but node-access hooks, and all their Jobs done. */
  ghost predicate NothingDue(site: Site, o: Status, bases: seq<HookJob>) {
    forall i :: 0 <= i < |bases| ==> bases[i].nodeAccess.Some? && JobServed(site, o, bases[i])
  }

  /** The runs of the first hooks of a plan lead from `a` to `b`; with nothing due they change nothing. */
  ghost predicate PlanRuns(site: Site, ns: string, bases: seq<HookJob>, runs: seq<Run>, a: Point, o0: Status, b: Point,
          o: Status)
  {
    && RunsOf(site, runs, bases) && Chain(site.scheme, ns, runs, a, o0, b, o)
    && (NothingDue(site, o0, bases) ==> b == a && o == o0)
  }

  lemma OneMoreRun(site: Site, ns: string, bases: seq<HookJob>, runs: seq<Run>, a: Point, o0: Status, run: Run,
          b: Point, o: Status)
    requires PlanRuns(site, ns, bases, runs, a, o0, run.from, run.seen)
    requires |runs| < |bases| && run.base == bases[|runs|] && Justified(site, run)
    requires Ran(site.scheme, ns, RunCrew(run), run.from, run.seen, b, o)
    requires run.base.nodeAccess.Some? && JobServed(site, run.seen, run.base) ==> b == run.from && o == run.seen
    ensures PlanRuns(site, ns, bases, runs + [run], a, o0, b, o)
  {
    ChainLonger(site.scheme, ns, runs, a, o0, run, b, o);
    RunsOfLonger(site, runs, bases, run);
  }

  /** Each of the runs went well, with the object at one with the stored status before and after. */
  ghost predicate AllWentWell(site: Site, runs: seq<Run>, b: Point, o: Status)
    decreases |runs|
  {
    && b.stored == o
    && (runs == [] || var last := runs[|runs| - 1];
         RunWentWell(site, last, b) && AllWentWell(site, runs[..|runs| - 1], last.from, last.seen))
  }

  lemma OneMoreWentWell(site: Site, runs: seq<Run>, run: Run, b: Point, o: Status)
    requires AllWentWell(site, runs, run.from, run.seen) && RunWentWell(site, run, b) && b.stored == o
    ensures AllWentWell(site, runs + [run], b, o)
  {
    assert (runs + [run])[..|runs|] == runs;
  }

  predicate EachGrounded(bases: seq<HookJob>, hooks: seq<HookJob>, configs: map<Key, HookConfig>) {
    |hooks| == |bases| && forall i :: 0 <= i < |hooks| ==> Grounded(Wants(bases[i]), hooks[i], configs)
  }

  /** The hooks of a plan, one after the other until one fails. */
  method RunPlanHooks(c: Cluster, obj: RestoreObject, planName: string, hooks: seq<HookJob>, ghost site: Site,
          ghost bases: seq<HookJob>, ghost event: HookEvent, ghost from: Point, ghost seen: Status)
    returns (r: Result<()>, ghost runs: seq<Run>)
    requires AllRunnable(c.scheme, obj.namespace, planName, bases, hooks, event)
    requires EachGrounded(bases, hooks, c.configMaps)
    requires SameButHooks(c.status, obj.status) && planName in obj.status.plans
    requires site == SiteOf(c) && from == Here(c) && seen == obj.status
    modifies obj`status, c`status, c`history, c`lostWrites, c`configMaps, c`jobs, c`events
    ensures PlanRuns(site, obj.namespace, bases, runs, from, seen, Here(c), obj.status)
    ensures c.lostWrites >= old(c.lostWrites)
    ensures r.Ok? && c.lostWrites == old(c.lostWrites) && from.stored == seen ==>
      |runs| == |bases| && AllWentWell(site, runs, Here(c), obj.status)
  {
    runs := [];
    for i := 0 to |hooks|
      invariant |runs| == i && SameButHooks(c.status, obj.status) && planName in obj.status.plans
      invariant PlanRuns(site, obj.namespace, bases, runs, from, seen, Here(c), obj.status)
      invariant EachGrounded(bases, hooks, c.configMaps)
      invariant c.lostWrites >= old(c.lostWrites)
      invariant c.lostWrites == old(c.lostWrites) && from.stored == seen ==>
        AllWentWell(site, runs, Here(c), obj.status)
    {
      r, runs := RunNext(c, obj, planName, hooks[i], site, bases, event, from, seen, runs);
      if r.Err? { return; }
    }
    r := Ok(());
  }

  /** One turn of that loop. */
  method RunNth(c: Cluster, obj: RestoreObject, planName: string, hook: HookJob, ghost base: HookJob, ghost site: Site)
    returns (r: Result<()>, ghost run: Run)
    requires Runnable(c.scheme, obj.namespace, planName, base, hook) && site == SiteOf(c)
    requires Grounded(Wants(base), hook, c.configMaps)
    requires SameButHooks(c.status, obj.status) && planName in obj.status.plans
    modifies obj`status, c`status, c`history, c`lostWrites, c`configMaps, c`jobs, c`events
    ensures run == Run(base, run.jobs, old(Here(c)), old(obj.status)) && Justified(site, run)
    ensures Ran(c.scheme, obj.namespace, RunCrew(run), run.from, run.seen, Here(c), obj.status)
    ensures SameButHooks(c.status, obj.status) && planName in obj.status.plans && c.lostWrites >= old(c.lostWrites)
    ensures r.Ok? && c.lostWrites == old(c.lostWrites) && old(c.status == obj.status) ==>
      c.status == obj.status && RunWentWell(site, run, Here(c))
    ensures base.nodeAccess.Some? && JobServed(site, run.seen, base) ==> Here(c) == run.from && obj.status == run.seen
  {
    r, run := RunPending(c, obj, planName, hook, base);
    RanNotes(site, obj.namespace, run, Here(c), obj.status);
    if base.nodeAccess.Some? && JobServed(site, run.seen, base) {
      ServedHasNonePending(site, run.seen, base, run.jobs);
    }
  }

  method RunNext(c: Cluster, obj: RestoreObject, planName: string, hook: HookJob, ghost site: Site,
          ghost bases: seq<HookJob>, ghost event: HookEvent, ghost from: Point, ghost seen: Status,
          ghost runs: seq<Run>)
    returns (r: Result<()>, ghost runs': seq<Run>)
    requires |runs| < |bases| && Runnable(c.scheme, obj.namespace, planName, bases[|runs|], hook) && site == SiteOf(c)
    requires Grounded(Wants(bases[|runs|]), hook, c.configMaps)
    requires OfPlan(obj.namespace, planName, event, bases)
    requires SameButHooks(c.status, obj.status) && planName in obj.status.plans
    requires PlanRuns(site, obj.namespace, bases, runs, from, seen, Here(c), obj.status)
    modifies obj`status, c`status, c`history, c`lostWrites, c`configMaps, c`jobs, c`events
    ensures |runs'| == |runs| + 1 && PlanRuns(site, obj.namespace, bases, runs', from, seen, Here(c), obj.status)
    ensures old(c.configMaps).Keys <= c.configMaps.Keys
    ensures SameButHooks(c.status, obj.status) && planName in obj.status.plans && c.lostWrites >= old(c.lostWrites)
    ensures r.Ok? && c.lostWrites == old(c.lostWrites) && AllWentWell(site, runs, old(Here(c)), old(obj.status)) ==>
      AllWentWell(site, runs', Here(c), obj.status)
  {
    ghost var run;
    r, run := RunNth(c, obj, planName, hook, bases[|runs|], site);
    OneMoreRun(site, obj.namespace, bases, runs, from, seen, run, Here(c), obj.status);
    if r.Ok? && c.lostWrites == old(c.lostWrites) && AllWentWell(site, runs, run.from, run.seen) {
      OneMoreWentWell(site, runs, run, Here(c), obj.status);
    }
    runs' := runs + [run];
  }

  // ---------------------------------------------------------------- what runs that went well lead to

  /**
   Two mutable hooks of a plan that want one Job to have run different things: no recorded result can
   ever be up to date for both.
   */
  ghost predicate AreRivals(site: Site, g: HookJob, h: HookJob, id: Key) {
    && g.planName == h.planName && g.mutable && h.mutable && g.event.PostRestore? && h.event.PostRestore?
    && id in JobIds(site, g) && id in JobIds(site, h) && g.checksum != h.checksum
  }

  lemma RivalsAreNotBothSkipped(site: Site, st: Status, g: HookJob, h: HookJob, id: Key)
    requires AreRivals(site, g, h, id)
    ensures !(IdSkipped(st, g, id) && IdSkipped(st, h, id))
  {
  }

  ghost predicate NoRivals(site: Site, hooks: seq<HookJob>) {
    forall g, h, id :: g in hooks && h in hooks ==> !AreRivals(site, g, h, id)
  }

  /** Every hook that derives the name would be skipped. */
  ghost predicate RestsAt(site: Site, hooks: seq<HookJob>, st: Status, id: Key) {
    forall h :: h in hooks && id in JobIds(site, h) ==> IdSkipped(st, h, id)
  }

  /** The ConfigMap of the name holds what each mutable hook that derives it wants. */
  ghost predicate ConfigFits(site: Site, hooks: seq<HookJob>, configs: map<Key, HookConfig>, id: Key) {
    forall h :: h in hooks && h.mutable && h.event.PostRestore? && id in JobIds(site, h) ==>
      id in configs && SumOf(site.scheme, configs[id]) == h.checksum
  }

  /** Only under the names that ran did the results of the plan change. */
  ghost predicate OnlyRan(ns: string, plan: string, event: HookEvent, ran: set<Key>, s0: Status, s: Status) {
    && SameButHooks(s0, s)
    && forall id: Key :: id.namespace == ns && id !in ran ==>
        Find(HooksOf(s, plan), id.name, event) == Find(HooksOf(s0, plan), id.name, event)
  }

  /** Where the runs of a plan stand, `ran` being the names of the Jobs so far. */
  ghost predicate Stand(site: Site, ns: string, plan: string, event: HookEvent, hooks: seq<HookJob>, ran: set<Key>,
          a: Point, b: Point)
  {
    && OnlyRan(ns, plan, event, ran, a.stored, b.stored) && a.events <= b.events
    && (forall id :: id in ran ==> LaunchedSince(b.events, |a.events|, id))
    && (forall id :: id in ran && RestsAt(site, hooks, b.stored, id) ==> ConfigFits(site, hooks, b.configs, id))
  }

  /** A name under which a run was not due before has run since, if it rests now. */
  ghost predicate RestsOnlyIfRan(site: Site, hooks: seq<HookJob>, st: Status, ran: set<Key>, ids: set<Key>) {
    forall id :: id in ids && RestsAt(site, hooks, st, id) ==> id in ran
  }

  lemma SkippedByEntry(s: Status, t: Status, h: HookJob, id: Key)
    requires SameButHooks(s, t)
      && Find(HooksOf(s, h.planName), id.name, h.event) == Find(HooksOf(t, h.planName), id.name, h.event)
    ensures IdSkipped(s, h, id) <==> IdSkipped(t, h, id)
  {
    if h.planName in s.plans { assert SamePlanButHooks(s.plans[h.planName], t.plans[h.planName]); }
  }

  lemma RestsByEntry(site: Site, plan: string, event: HookEvent, hooks: seq<HookJob>, s: Status, t: Status, id: Key)
    requires SameButHooks(s, t) && (forall h :: h in hooks ==> h.planName == plan && h.event == event)
    requires Find(HooksOf(s, plan), id.name, event) == Find(HooksOf(t, plan), id.name, event)
    ensures RestsAt(site, hooks, s, id) <==> RestsAt(site, hooks, t, id)
  {
    forall h | h in hooks ensures IdSkipped(s, h, id) <==> IdSkipped(t, h, id) {
      SkippedByEntry(s, t, h, id);
    }
  }

  /** One more run that went well, as far as it concerns what is kept about the plan. */
  ghost predicate OneRun(site: Site, ns: string, plan: string, event: HookEvent, hooks: seq<HookJob>, base: HookJob,
          crew: Crew, a: Point, b: Point)
  {
    && base in hooks && OfPlan(ns, plan, event, hooks)
    && crew.plan == plan && crew.event == event && crew.mutable == base.mutable && crew.sum == base.checksum
    && crew.ids <= JobIds(site, base) && (forall id :: id in crew.ids ==> id.namespace == ns)
    && OnlyRan(ns, plan, event, crew.ids, a.stored, b.stored) && ConfigsKept(crew, a.configs, b.configs)
    && a.events <= b.events && WentWell(site.scheme, crew, a, b)
  }

  lemma HooksAreOf(ns: string, plan: string, event: HookEvent, hooks: seq<HookJob>)
    requires OfPlan(ns, plan, event, hooks)
    ensures forall h :: h in hooks ==> h.planName == plan && h.event == event && h.namespace == ns
  {
  }

  lemma JobsAreIn(site: Site, h: HookJob, id: Key)
    requires id in JobIds(site, h)
    ensures id.namespace == h.namespace
  {
  }

  /** What was on record for a hook the run leaves on record, unless two hooks are rivals. */
  lemma RunKeepsServed(site: Site, ns: string, plan: string, event: HookEvent, hooks: seq<HookJob>, ran: set<Key>,
                       base: HookJob, crew: Crew, a0: Point, a: Point, b: Point, h: HookJob, id: Key)
    requires Stand(site, ns, plan, event, hooks, ran, a0, a) && OneRun(site, ns, plan, event, hooks, base, crew, a, b)
    requires RestsOnlyIfRan(site, hooks, a.stored, ran, crew.ids) && NoRivals(site, hooks)
    requires h in hooks && id in JobIds(site, h) && IdSkipped(a.stored, h, id)
    ensures IdSkipped(b.stored, h, id)
  {
    HooksAreOf(ns, plan, event, hooks);
    JobsAreIn(site, h, id);
    if id !in crew.ids {
      SkippedByEntry(a.stored, b.stored, h, id);
    } else {
      assert NameRecorded(site.scheme, crew, b.stored, b.configs, id);
      if h.mutable && event.PostRestore? {
        ServedMeansRests(site, ns, plan, event, hooks, a.stored, h, id);
        assert ConfigFits(site, hooks, a.configs, id);
        if crew.mutable { assert !AreRivals(site, base, h, id); }
      }
    }
  }

  /** Without rivals, what is up to date for one mutable hook is so for all hooks that derive the name. */
  lemma ServedMeansRests(site: Site, ns: string, plan: string, event: HookEvent, hooks: seq<HookJob>, st: Status,
          h: HookJob, id: Key)
    requires OfPlan(ns, plan, event, hooks) && NoRivals(site, hooks) && event.PostRestore?
    requires h in hooks && h.mutable && id in JobIds(site, h) && IdSkipped(st, h, id)
    ensures RestsAt(site, hooks, st, id)
  {
    forall g | g in hooks && id in JobIds(site, g) ensures IdSkipped(st, g, id) {
      assert !AreRivals(site, g, h, id);
    }
  }

  lemma RunKeepsFits(site: Site, ns: string, plan: string, event: HookEvent, hooks: seq<HookJob>, ran: set<Key>,
                     base: HookJob, crew: Crew, a0: Point, a: Point, b: Point, id: Key)
    requires Stand(site, ns, plan, event, hooks, ran, a0, a) && OneRun(site, ns, plan, event, hooks, base, crew, a, b)
    requires id in ran + crew.ids && id.namespace == ns && RestsAt(site, hooks, b.stored, id)
    ensures ConfigFits(site, hooks, b.configs, id)
  {
    HooksAreOf(ns, plan, event, hooks);
    if id in crew.ids {
      assert NameRecorded(site.scheme, crew, b.stored, b.configs, id);
      forall h | h in hooks && h.mutable && h.event.PostRestore? && id in JobIds(site, h)
        ensures id in b.configs && SumOf(site.scheme, b.configs[id]) == h.checksum
      {
        assert IdSkipped(b.stored, h, id);
      }
    } else {
      RestsByEntry(site, plan, event, hooks, a.stored, b.stored, id);
      assert ConfigFits(site, hooks, a.configs, id);
    }
  }

  lemma OneMoreStands(site: Site, ns: string, plan: string, event: HookEvent, hooks: seq<HookJob>, ran: set<Key>,
                      base: HookJob, crew: Crew, a0: Point, a: Point, b: Point)
    requires Stand(site, ns, plan, event, hooks, ran, a0, a) && OneRun(site, ns, plan, event, hooks, base, crew, a, b)
    requires forall id :: id in ran ==> id.namespace == ns
    ensures Stand(site, ns, plan, event, hooks, ran + crew.ids, a0, b)
  {
    SameButHooksChains(a0.stored, a.stored, b.stored);
    forall id | id in ran + crew.ids ensures LaunchedSince(b.events, |a0.events|, id) {
      if id in crew.ids { LaunchedLonger(b.events, |a.events|, id, b.events, |a0.events|); }
      else { LaunchedLonger(a.events, |a0.events|, id, b.events, |a0.events|); }
    }
    forall id | id in ran + crew.ids && RestsAt(site, hooks, b.stored, id)
      ensures ConfigFits(site, hooks, b.configs, id)
    {
      RunKeepsFits(site, ns, plan, event, hooks, ran, base, crew, a0, a, b, id);
    }
  }

  lemma LaunchedLonger(events: seq<Event>, lo: nat, id: Key, later: seq<Event>, lo': nat)
    requires LaunchedSince(events, lo, id) && events <= later && lo' <= lo
    ensures LaunchedSince(later, lo', id)
  {
    var i :| lo <= i < |events| && events[i].JobCreated? && events[i].id == id;
    assert later[i] == events[i];
  }

  /** Every Job of the hook would have been skipped at `a`, or was launched since. */
  ghost predicate JobHandled(site: Site, a: Point, events: seq<Event>, h: HookJob) {
    forall id :: id in JobIds(site, h) ==> IdSkipped(a.stored, h, id) || LaunchedSince(events, |a.events|, id)
  }

  ghost predicate AllHandled(site: Site, a: Point, events: seq<Event>, hooks: seq<HookJob>, n: nat)
    requires n <= |hooks|
  {
    forall i :: 0 <= i < n ==> JobHandled(site, a, events, hooks[i])
  }

  ghost predicate EveryHandled(site: Site, a: Point, events: seq<Event>, hooks: seq<HookJob>) {
    AllHandled(site, a, events, hooks, |hooks|)
  }

  // ---------------------------------------------------------------- what the runs of a plan keep

  /** The hook of a run is one of the spec; if it ran alone there was a reason to. */
  ghost predicate RunIsDue(env: Env, event: HookEvent, start: Status, run: Run) {
    && FromSpec(env, event, run.base) && run.base.planName in start.plans
    && (run.base.nodeAccess.None? ==> DueCrew(env, event, start, PlainCrew(run.base)))
  }

  lemma RunGoes(env: Env, event: HookEvent, start: Point, site: Site, run: Run, b: Point, o: Status)
    requires Going(env, event, start, run.from, run.seen) && site.scheme == env.scheme
    requires Justified(site, run) && RunIsDue(env, event, start.stored, run)
    requires Ran(env.scheme, env.namespace, RunCrew(run), run.from, run.seen, b, o)
    ensures Going(env, event, start, b, o)
  {
    if run.base.nodeAccess.Some? {
      NodeCrewIsDue(env, event, start.stored, site, run.from.stored, run.seen, run.base, run.jobs);
    }
    SpecIsWellSummed(env, event, run.base);
    GoingOn(env, event, start, run.from, run.seen, RunCrew(run), b, o);
  }

  /** What each run keeps that is `ok`, a chain of such runs keeps. */
  lemma {:induction false} ChainKeeps(scheme: Scheme, ns: string, runs: seq<Run>, a: Point, o0: Status, b: Point,
          o: Status, inv: (Point, Status) -> bool, ok: Run -> bool)
    requires Chain(scheme, ns, runs, a, o0, b, o) && inv(a, o0)
    requires forall i :: 0 <= i < |runs| ==> ok(runs[i])
    requires forall run, d, p ::
      ok(run) && inv(run.from, run.seen) && Ran(scheme, ns, RunCrew(run), run.from, run.seen, d, p) ==> inv(d, p)
    ensures inv(b, o)
    decreases |runs|
  {
    if runs != [] {
      var last, init := runs[|runs| - 1], runs[..|runs| - 1];
      forall i | 0 <= i < |init| ensures ok(init[i]) { assert init[i] == runs[i]; }
      ChainKeeps(scheme, ns, init, a, o0, last.from, last.seen, inv, ok);
    }
  }

  lemma ChainGoes(env: Env, event: HookEvent, start: Point, site: Site, runs: seq<Run>, a: Point, o0: Status, b: Point,
          o: Status)
    requires Going(env, event, start, a, o0) && site.scheme == env.scheme
    requires Chain(env.scheme, env.namespace, runs, a, o0, b, o)
    requires forall i :: 0 <= i < |runs| ==> Justified(site, runs[i]) && RunIsDue(env, event, start.stored, runs[i])
    ensures Going(env, event, start, b, o)
  {
    forall run, d, p |
      Justified(site, run) && RunIsDue(env, event, start.stored, run) && Going(env, event, start, run.from, run.seen)
      && Ran(env.scheme, env.namespace, RunCrew(run), run.from, run.seen, d, p)
      ensures Going(env, event, start, d, p)
    {
      RunGoes(env, event, start, site, run, d, p);
    }
    ChainKeeps(env.scheme, env.namespace, runs, a, o0, b, o,
               (d, p) => Going(env, event, start, d, p), run => Justified(site, run)
                 && RunIsDue(env, event, start.stored, run));
  }

  lemma RunsOfSplit(site: Site, runs: seq<Run>, bases: seq<HookJob>)
    requires RunsOf(site, runs, bases) && runs != []
    ensures RunsOf(site, runs[..|runs| - 1], bases)
    ensures runs[|runs| - 1].base == bases[|runs| - 1] && Justified(site, runs[|runs| - 1])
  {
  }

  /** The names results were noted for are names of the hooks that ran. */
  lemma {:induction false} ChainNotes(site: Site, ns: string, plan: string, event: HookEvent, bases: seq<HookJob>,
          runs: seq<Run>, a: Point, o0: Status, b: Point, o: Status)
    returns (ids: set<Key>)
    requires Chain(site.scheme, ns, runs, a, o0, b, o) && RunsOf(site, runs, bases) && OfPlan(ns, plan, event, bases)
    requires SameButHooks(a.stored, o0)
    ensures NamesOf(site, bases, ids) && Noted(ns, plan, event, ids, a.stored, o0, b.stored, o)
    decreases |runs|
  {
    if runs == [] {
      ids := {};
      SameButHooksChains(a.stored, o0, o0);
    } else {
      RunsOfSplit(site, runs, bases);
      var last, init := runs[|runs| - 1], runs[..|runs| - 1];
      var before := ChainNotes(site, ns, plan, event, bases, init, a, o0, last.from, last.seen);
      ids := before + JobIds(site, bases[|init|]);
      RunNotes(site, ns, plan, event, bases, |init|, before, a, o0, last, b, o);
    }
  }

  lemma RunNotes(site: Site, ns: string, plan: string, event: HookEvent, bases: seq<HookJob>, n: nat, ids: set<Key>,
                 a: Point, o0: Status, run: Run, b: Point, o: Status)
    requires n < |bases| && run.base == bases[n] && OfPlan(ns, plan, event, bases) && Justified(site, run)
    requires NamesOf(site, bases, ids) && Noted(ns, plan, event, ids, a.stored, o0, run.from.stored, run.seen)
    requires Ran(site.scheme, ns, RunCrew(run), run.from, run.seen, b, o)
    ensures NamesOf(site, bases, ids + JobIds(site, bases[n]))
    ensures Noted(ns, plan, event, ids + JobIds(site, bases[n]), a.stored, o0, b.stored, o)
  {
    RanNotes(site, ns, run, b, o);
    OneMoreNoted(site, bases, n, ns, plan, event, ids, a.stored, o0, run.from.stored, run.seen, b.stored, o);
  }

  // ---------------------------------------------------------------- which hooks of a plan are pending

  /** The pending hooks with the hooks of the spec they come from; the others are skipped. */
  ghost predicate PendingAmong(o: Status, planHooks: seq<HookJob>, bases: seq<HookJob>, n: nat)
    requires n <= |planHooks|
  {
    && Among(o, planHooks, bases)
    && (forall k :: 0 <= k < n ==>
         planHooks[k] in bases || (planHooks[k].nodeAccess.None? && IdSkipped(o, planHooks[k], planHooks[k].Id())))
  }

  ghost predicate Among(o: Status, planHooks: seq<HookJob>, bases: seq<HookJob>) {
    forall i :: 0 <= i < |bases| ==>
      bases[i] in planHooks && (bases[i].nodeAccess.None? ==> !IdSkipped(o, bases[i], bases[i].Id()))
  }

  /** Of a plan's hooks those pending so far, ready to run. */
  ghost predicate PendingSoFar(scheme: Scheme, ns: string, plan: string, event: HookEvent, o: Status,
                               planHooks: seq<HookJob>, bases: seq<HookJob>, pending: seq<HookJob>, n: nat)
    requires n <= |planHooks|
  {
    AllRunnable(scheme, ns, plan, bases, pending, event) && PendingAmong(o, planHooks, bases, n)
  }

  /** Some hook takes its command from its ConfigMap already when it is decided which hooks run. */
  predicate HasFrozen(hooks: seq<HookJob>) {
    exists k :: 0 <= k < |hooks| && !hooks[k].mutable && hooks[k].nodeAccess.None?
  }

  /** All of a plan's hooks that are pending, ready to run. */
  ghost predicate ArePending(scheme: Scheme, ns: string, plan: string, event: HookEvent, o: Status,
          planHooks: seq<HookJob>, pending: seq<HookJob>)
  {
    exists bases :: PendingSoFar(scheme, ns, plan, event, o, planHooks, bases, pending, |planHooks|)
  }

  lemma OneMorePending(scheme: Scheme, ns: string, plan: string, event: HookEvent, o: Status,
                       planHooks: seq<HookJob>, bases: seq<HookJob>, pending: seq<HookJob>, n: nat, hook: HookJob)
    requires n < |planHooks| && PendingSoFar(scheme, ns, plan, event, o, planHooks, bases, pending, n)
    requires OfPlan(ns, plan, event, planHooks) && Runnable(scheme, ns, plan, planHooks[n], hook)
    requires planHooks[n].nodeAccess.None? ==> !IdSkipped(o, planHooks[n], planHooks[n].Id())
    ensures PendingSoFar(scheme, ns, plan, event, o, planHooks, bases + [planHooks[n]], pending + [hook], n + 1)
  {
    var more := bases + [planHooks[n]];
    assert more[|bases|] == planHooks[n];
    forall k | 0 <= k < n && planHooks[k] in bases ensures planHooks[k] in more {
    }
  }

  lemma OneMoreSkipped(scheme: Scheme, ns: string, plan: string, event: HookEvent, o: Status,
                       planHooks: seq<HookJob>, bases: seq<HookJob>, pending: seq<HookJob>, n: nat)
    requires n < |planHooks| && PendingSoFar(scheme, ns, plan, event, o, planHooks, bases, pending, n)
    requires planHooks[n].nodeAccess.None? && IdSkipped(o, planHooks[n], planHooks[n].Id())
    ensures PendingSoFar(scheme, ns, plan, event, o, planHooks, bases, pending, n + 1)
  {
  }

  /** The loop of `RunHooks` over the hooks of a plan: a hook on nodes is decided on later, node by node. */
  method PendingHooks(c: Cluster, obj: RestoreObject, planName: string, planHooks: seq<HookJob>, ghost event: HookEvent)
    returns (r: Result<seq<HookJob>>, ghost bases: seq<HookJob>)
    requires OfPlan(obj.namespace, planName, event, planHooks) && AllWellSummed(c.scheme, planHooks)
    ensures r.Err? ==> HasFrozen(planHooks)
    ensures r.Ok? ==> ArePending(c.scheme, obj.namespace, planName, event, obj.status, planHooks, r.value)
    ensures r.Ok? ==>
      PendingSoFar(c.scheme, obj.namespace, planName, event, obj.status, planHooks, bases, r.value, |planHooks|)
    ensures r.Ok? ==> EachGrounded(bases, r.value, c.configMaps)
  {
    var pending: seq<HookJob> := [];
    bases := [];
    for k := 0 to |planHooks|
      invariant PendingSoFar(c.scheme, obj.namespace, planName, event, obj.status, planHooks, bases, pending, k)
      invariant EachGrounded(bases, pending, c.configMaps)
    {
      var hook := planHooks[k];
      if hook.nodeAccess.Some? {
        OneMorePending(c.scheme, obj.namespace, planName, event, obj.status, planHooks, bases, pending, k, hook);
        pending, bases := pending + [hook], bases + [hook];
        continue;
      }
      var resolved := ResolveHookFromConfigMap(c, hook);
      if resolved.Err? { return Err(resolved.error), bases; }
      var skip, _ := HookSkipReason(obj, planName, resolved.value.name, resolved.value.event, resolved.value.mutable,
        resolved.value.checksum);
      if skip {
        OneMoreSkipped(c.scheme, obj.namespace, planName, event, obj.status, planHooks, bases, pending, k);
        continue;
      }
      OneMorePending(c.scheme, obj.namespace, planName, event, obj.status, planHooks, bases, pending, k,
        resolved.value);
      pending, bases := pending + [resolved.value], bases + [hook];
    }
    return Ok(pending), bases;
  }

  lemma SkippedAloneIsServed(site: Site, o: Status, h: HookJob)
    requires h.nodeAccess.None?
    ensures JobServed(site, o, h) <==> IdSkipped(o, h, h.Id())
  {
    PlainJobIds(site, h);
    assert h.Id() in JobIds(site, h);
  }

  /** If all hooks of the plan are served, none is pending but those on nodes, and these will find nothing to do. */
  lemma ServedLeavesNothingDue(site: Site, o: Status, planHooks: seq<HookJob>, bases: seq<HookJob>)
    requires EveryServed(site, o, planHooks) && Among(o, planHooks, bases)
    ensures NothingDue(site, o, bases)
  {
    forall i | 0 <= i < |bases| ensures bases[i].nodeAccess.Some? && JobServed(site, o, bases[i]) {
      var k :| 0 <= k < |planHooks| && planHooks[k] == bases[i];
      if bases[i].nodeAccess.None? { SkippedAloneIsServed(site, o, bases[i]); }
    }
  }

  // ---------------------------------------------------------------- the end of a plan

  lemma NotedOnlyRan(ns: string, plan: string, event: HookEvent, ids: set<Key>, s: Status, t: Status)
    requires Noted(ns, plan, event, ids, s, s, t, t)
    ensures OnlyRan(ns, plan, event, ids, s, t)
  {
    forall id: Key | id.namespace == ns && id !in ids
      ensures Find(HooksOf(t, plan), id.name, event) == Find(HooksOf(s, plan), id.name, event)
    {
      assert Shows(s, s, plan, id, event, Find(HooksOf(s, plan), id.name, event));
      assert Shows(t, t, plan, id, event, Find(HooksOf(s, plan), id.name, event));
    }
  }

  lemma RunIsOne(site: Site, ns: string, plan: string, event: HookEvent, hooks: seq<HookJob>, run: Run, b: Point)
    requires Ran(site.scheme, ns, RunCrew(run), run.from, run.seen, b, b.stored) && run.from.stored == run.seen
    requires Justified(site, run) && RunWentWell(site, run, b) && run.base in hooks && OfPlan(ns, plan, event, hooks)
    ensures OneRun(site, ns, plan, event, hooks, run.base, RunCrew(run), run.from, b)
  {
    HooksAreOf(ns, plan, event, hooks);
    CrewIsOfBase(site, run);
    forall id | id in RunCrew(run).ids ensures id.namespace == ns { JobsAreIn(site, run.base, id); }
    NotedOnlyRan(ns, plan, event, RunCrew(run).ids, run.seen, b.stored);
  }

  /** A hook ran alone because it was not skipped when the plan's hooks were looked at; on
      nodes, because it was not by then. */
  lemma RunWasDue(site: Site, ns: string, plan: string, event: HookEvent, hooks: seq<HookJob>, ran: set<Key>, a: Point,
          run: Run)
    requires OnlyRan(ns, plan, event, ran, a.stored, run.seen) && Justified(site, run) && run.base in hooks
      && OfPlan(ns, plan, event, hooks)
    requires run.base.nodeAccess.None? ==> !IdSkipped(a.stored, run.base, run.base.Id())
    ensures RestsOnlyIfRan(site, hooks, run.seen, ran, RunCrew(run).ids)
  {
    HooksAreOf(ns, plan, event, hooks);
    CrewIsOfBase(site, run);
    forall id | id in RunCrew(run).ids && RestsAt(site, hooks, run.seen, id) ensures id in ran {
      assert IdSkipped(run.seen, run.base, id);
      if run.base.nodeAccess.Some? {
        PendingIsNotSkipped(site, run.seen, run.base, run.jobs, id);
      } else if id !in ran {
        SkippedByEntry(a.stored, run.seen, run.base, id);
      }
    }
  }

  lemma PendingIsNotSkipped(site: Site, o: Status, base: HookJob, jobs: seq<HookJob>, id: Key)
    requires AllPending(site, o, base, jobs) && base.nodeAccess.Some?
    ensures id in NodeCrew(base, jobs).ids ==> !IdSkipped(o, base, id)
  {
    if id in NodeCrew(base, jobs).ids {
      var h :| h in jobs && h.Id() == id;
      var i :| 0 <= i < |jobs| && jobs[i] == h;
    }
  }

  /** After a run that went well its hook is done. */
  lemma RunServes(site: Site, ns: string, run: Run, b: Point)
    requires Ran(site.scheme, ns, RunCrew(run), run.from, run.seen, b, b.stored) && run.from.stored == run.seen
    requires RunWentWell(site, run, b) && run.base.namespace == ns
    ensures JobServed(site, b.stored, run.base)
  {
    if run.base.nodeAccess.Some? {
      AllNodesServed(site, run.seen, b.stored, b.configs, run.base, run.jobs);
    } else {
      PlainJobIds(site, run.base);
      RecordedIsSkipped(site.scheme, RunCrew(run), b.stored, b.configs, run.base.Id());
    }
  }

  lemma RunHandles(site: Site, ns: string, plan: string, event: HookEvent, hooks: seq<HookJob>, ran: set<Key>, a: Point,
          run: Run, b: Point)
    requires Stand(site, ns, plan, event, hooks, ran, a, run.from) && run.from.stored == run.seen
      && run.from.events <= b.events
    requires RunWentWell(site, run, b) && run.base.planName == plan && run.base.namespace == ns
      && run.base.event == event
    ensures JobHandled(site, a, b.events, run.base)
  {
    forall id | id in JobIds(site, run.base)
      ensures IdSkipped(a.stored, run.base, id) || LaunchedSince(b.events, |a.events|, id)
    {
      JobsAreIn(site, run.base, id);
      if id in RunCrew(run).ids {
        LaunchedLonger(b.events, |run.from.events|, id, b.events, |a.events|);
      } else if id in ran {
        LaunchedLonger(run.from.events, |a.events|, id, b.events, |a.events|);
      } else {
        LeftOutIsSkipped(site, run, id);
        SkippedByEntry(a.stored, run.seen, run.base, id);
      }
    }
  }

  lemma LeftOutIsSkipped(site: Site, run: Run, id: Key)
    requires id in JobIds(site, run.base) && id !in RunCrew(run).ids
    requires run.base.nodeAccess.Some? ==> RestSkipped(site, run.seen, run.base, run.jobs)
    ensures IdSkipped(run.seen, run.base, id)
  {
    if run.base.nodeAccess.Some? {
      assert forall i :: 0 <= i < |run.jobs| ==> run.jobs[i] in run.jobs;
    }
  }

  /** What was on record at the start of the plan's hooks still is. */
  ghost predicate StillSkipped(site: Site, hooks: seq<HookJob>, s: Status, t: Status) {
    forall h, id :: h in hooks && id in JobIds(site, h) && IdSkipped(s, h, id) ==> IdSkipped(t, h, id)
  }

  /** Where the first `n` hooks of a plan have led, `ran` being the names of their Jobs. */
  ghost predicate Led(site: Site, ns: string, plan: string, event: HookEvent, hooks: seq<HookJob>, bases: seq<HookJob>,
          n: nat, ran: set<Key>, a: Point, b: Point)
    requires n <= |bases|
  {
    && Stand(site, ns, plan, event, hooks, ran, a, b) && (forall id :: id in ran ==> id.namespace == ns)
    && AllHandled(site, a, b.events, bases, n)
    && (NoRivals(site, hooks) ==> StillSkipped(site, hooks, a.stored, b.stored) && AllServed(site, b.stored, bases, n))
  }

  lemma {:induction false} RunsLead(site: Site, ns: string, plan: string, event: HookEvent, hooks: seq<HookJob>,
          bases: seq<HookJob>, runs: seq<Run>, a: Point, b: Point, o: Status)
    returns (ran: set<Key>)
    requires Chain(site.scheme, ns, runs, a, a.stored, b, o) && RunsOf(site, runs, bases)
      && AllWentWell(site, runs, b, o)
    requires OfPlan(ns, plan, event, hooks) && Among(a.stored, hooks, bases)
    ensures Led(site, ns, plan, event, hooks, bases, |runs|, ran, a, b)
    decreases |runs|
  {
    if runs == [] {
      NothingLed(site, ns, plan, event, hooks, bases, a);
      return {};
    }
    var last, init := runs[|runs| - 1], runs[..|runs| - 1];
    LastRun(site, ns, bases, runs, a, b, o);
    ran := RunsLead(site, ns, plan, event, hooks, bases, init, a, last.from, last.seen);
    OneMoreLed(site, ns, plan, event, hooks, bases, |init|, ran, a, last, b);
    ran := ran + RunCrew(last).ids;
  }

  lemma LastRun(site: Site, ns: string, bases: seq<HookJob>, runs: seq<Run>, a: Point, b: Point, o: Status)
    requires Chain(site.scheme, ns, runs, a, a.stored, b, o) && RunsOf(site, runs, bases)
      && AllWentWell(site, runs, b, o) && runs != []
    ensures var last, init := runs[|runs| - 1], runs[..|runs| - 1];
      && Chain(site.scheme, ns, init, a, a.stored, last.from, last.seen) && RunsOf(site, init, bases)
      && AllWentWell(site, init, last.from, last.seen) && last.from.stored == last.seen && b.stored == o
      && last.base == bases[|init|] && Justified(site, last) && RunWentWell(site, last, b)
      && Ran(site.scheme, ns, RunCrew(last), last.from, last.seen, b, o)
  {
    RunsOfSplit(site, runs, bases);
  }

  lemma NothingLed(site: Site, ns: string, plan: string, event: HookEvent, hooks: seq<HookJob>, bases: seq<HookJob>,
          a: Point)
    ensures Led(site, ns, plan, event, hooks, bases, 0, {}, a, a)
  {
  }

  lemma OneMoreLed(site: Site, ns: string, plan: string, event: HookEvent, hooks: seq<HookJob>, bases: seq<HookJob>,
          n: nat, ran: set<Key>, a: Point, run: Run, b: Point)
    requires n < |bases| && Led(site, ns, plan, event, hooks, bases, n, ran, a, run.from) && run.from.stored == run.seen
    requires run.base == bases[n] && Justified(site, run) && RunWentWell(site, run, b)
    requires Ran(site.scheme, ns, RunCrew(run), run.from, run.seen, b, b.stored)
    requires OfPlan(ns, plan, event, hooks) && Among(a.stored, hooks, bases)
    ensures Led(site, ns, plan, event, hooks, bases, n + 1, ran + RunCrew(run).ids, a, b)
  {
    RunIsOne(site, ns, plan, event, hooks, run, b);
    RunWasDue(site, ns, plan, event, hooks, ran, a, run);
    OneMoreStands(site, ns, plan, event, hooks, ran, run.base, RunCrew(run), a, run.from, b);
    OneMoreHandled(site, ns, plan, event, hooks, bases, n, ran, a, run, b);
    if NoRivals(site, hooks) { OneMoreServed(site, ns, plan, event, hooks, bases, n, ran, a, run, b); }
  }

  lemma OneMoreHandled(site: Site, ns: string, plan: string, event: HookEvent, hooks: seq<HookJob>, bases: seq<HookJob>,
          n: nat, ran: set<Key>, a: Point, run: Run, b: Point)
    requires Stand(site, ns, plan, event, hooks, ran, a, run.from) && run.from.stored == run.seen
    requires OneRun(site, ns, plan, event, hooks, run.base, RunCrew(run), run.from, b)
    requires n < |bases| && run.base == bases[n] && RunWentWell(site, run, b)
      && AllHandled(site, a, run.from.events, bases, n)
    ensures AllHandled(site, a, b.events, bases, n + 1)
  {
    HooksAreOf(ns, plan, event, hooks);
    RunHandles(site, ns, plan, event, hooks, ran, a, run, b);
    forall i | 0 <= i < n ensures JobHandled(site, a, b.events, bases[i]) {
      HandledLonger(site, a, run.from.events, b.events, bases[i]);
    }
  }

  lemma HandledLonger(site: Site, a: Point, events: seq<Event>, later: seq<Event>, h: HookJob)
    requires JobHandled(site, a, events, h) && events <= later
    ensures JobHandled(site, a, later, h)
  {
    forall id | id in JobIds(site, h) && !IdSkipped(a.stored, h, id) ensures LaunchedSince(later, |a.events|, id) {
      LaunchedLonger(events, |a.events|, id, later, |a.events|);
    }
  }

  lemma OneMoreServed(site: Site, ns: string, plan: string, event: HookEvent, hooks: seq<HookJob>, bases: seq<HookJob>,
          n: nat, ran: set<Key>, a: Point, run: Run, b: Point)
    requires Stand(site, ns, plan, event, hooks, ran, a, run.from) && NoRivals(site, hooks)
    requires OneRun(site, ns, plan, event, hooks, run.base, RunCrew(run), run.from, b)
    requires Ran(site.scheme, ns, RunCrew(run), run.from, run.seen, b, b.stored) && run.from.stored == run.seen
      && RunWentWell(site, run, b)
    requires RestsOnlyIfRan(site, hooks, run.seen, ran, RunCrew(run).ids)
    requires n < |bases| && run.base == bases[n] && forall i :: 0 <= i < n ==> bases[i] in hooks
    requires StillSkipped(site, hooks, a.stored, run.from.stored) && AllServed(site, run.from.stored, bases, n)
    ensures StillSkipped(site, hooks, a.stored, b.stored) && AllServed(site, b.stored, bases, n + 1)
  {
    HooksAreOf(ns, plan, event, hooks);
    forall h, id | h in hooks && id in JobIds(site, h) && IdSkipped(run.from.stored, h, id)
      ensures IdSkipped(b.stored, h, id)
    {
      RunKeepsServed(site, ns, plan, event, hooks, ran, run.base, RunCrew(run), a, run.from, b, h, id);
    }
    RunServes(site, ns, run, b);
    forall i | 0 <= i < n ensures JobServed(site, b.stored, bases[i]) {
      forall id | id in JobIds(site, bases[i]) ensures IdSkipped(b.stored, bases[i], id) {
        assert IdSkipped(run.from.stored, bases[i], id);
      }
    }
  }

  /**
   All hooks of the list are handled at `b`: each Job was skipped or launched. Unless some are rivals,
   all are done then.
   */
  ghost predicate PlanEnded(site: Site, hooks: seq<HookJob>, a: Point, b: Point, o: Status) {
    && b.stored == o && EveryHandled(site, a, b.events, hooks)
    && (NoRivals(site, hooks) ==> EveryServed(site, o, hooks))
  }

  lemma RunsEndPlan(site: Site, ns: string, plan: string, event: HookEvent, hooks: seq<HookJob>, bases: seq<HookJob>,
                    runs: seq<Run>, a: Point, b: Point, o: Status)
    requires Chain(site.scheme, ns, runs, a, a.stored, b, o) && RunsOf(site, runs, bases)
      && AllWentWell(site, runs, b, o)
    requires OfPlan(ns, plan, event, hooks) && PendingAmong(a.stored, hooks, bases, |hooks|) && |runs| == |bases|
    ensures PlanEnded(site, hooks, a, b, o)
  {
    var ran := RunsLead(site, ns, plan, event, hooks, bases, runs, a, b, o);
    forall k | 0 <= k < |hooks|
      ensures JobHandled(site, a, b.events, hooks[k]) && (NoRivals(site, hooks) ==> JobServed(site, b.stored, hooks[k]))
    {
      if hooks[k] in bases {
        var i :| 0 <= i < |bases| && bases[i] == hooks[k];
      } else {
        SkippedAloneIsServed(site, a.stored, hooks[k]);
      }
    }
  }

  /** The body of the loop over the plans: which hooks of the plan are pending is settled before any of them runs. */
  method HooksOfPlan(c: Cluster, obj: RestoreObject, planName: string, planHooks: seq<HookJob>,
                     ghost site: Site, ghost event: HookEvent, ghost from: Point, ghost seen: Status)
    returns (r: Result<()>, unread: bool, ghost bases: seq<HookJob>, ghost runs: seq<Run>)
    requires OfPlan(obj.namespace, planName, event, planHooks) && AllWellSummed(c.scheme, planHooks)
    requires SameButHooks(c.status, obj.status) && planName in obj.status.plans
    requires site == SiteOf(c) && from == Here(c) && seen == obj.status
    modifies obj`status, c`status, c`history, c`lostWrites, c`configMaps, c`jobs, c`events
    ensures PlanRuns(site, obj.namespace, bases, runs, from, seen, Here(c), obj.status)
    ensures OfPlan(obj.namespace, planName, event, bases) && Among(seen, planHooks, bases)
    ensures c.lostWrites >= old(c.lostWrites) && At(c, site)
    ensures r.Ok? && c.lostWrites == old(c.lostWrites) && from.stored == seen ==>
      PlanEnded(site, planHooks, from, Here(c), obj.status)
    ensures unread ==> r.Err? && HasFrozen(planHooks) && Here(c) == from && obj.status == seen
  {
    var pending;
    pending, bases := PendingHooks(c, obj, planName, planHooks, event);
    runs, unread := [], pending.Err?;
    if pending.Err? { return Err(pending.error), true, [], []; }
    r, runs := RunPlanHooks(c, obj, planName, pending.value, site, bases, event, from, seen);
    if r.Ok? && c.lostWrites == old(c.lostWrites) && from.stored == seen {
      RunsEndPlan(site, obj.namespace, planName, event, planHooks, bases, runs, from, Here(c), obj.status);
    }
  }

  // ---------------------------------------------------------------- all plans

  /** The hooks of one plan, in the order given. */
  function HooksFor(hooks: seq<HookJob>, plan: string): seq<HookJob> {
    if hooks == [] then []
    else
      var init := HooksFor(hooks[..|hooks| - 1], plan);
      var last := hooks[|hooks| - 1];
      if last.planName == plan then init + [last] else init
  }

  lemma {:induction false} HooksForHas(hooks: seq<HookJob>, plan: string, h: HookJob)
    ensures h in HooksFor(hooks, plan) <==> h in hooks && h.planName == plan
  {
    if hooks != [] {
      HooksForHas(hooks[..|hooks| - 1], plan, h);
      assert hooks == hooks[..|hooks| - 1] + [hooks[|hooks| - 1]];
    }
  }

  /** The first `n` hooks by plan. */
  ghost predicate GroupedUpTo(hooks: seq<HookJob>, n: nat, byPlan: map<string, seq<HookJob>>)
    requires n <= |hooks|
  {
    && (forall p :: HooksFor(hooks[..n], p) == if p in byPlan then byPlan[p] else [])
    && PlansUpTo(hooks, n, byPlan.Keys)
  }

  ghost predicate PlansUpTo(hooks: seq<HookJob>, n: nat, plans: set<string>)
    requires n <= |hooks|
  {
    && (forall i :: 0 <= i < n ==> hooks[i].planName in plans)
    && (forall p :: p in plans ==> exists i :: 0 <= i < |hooks| && hooks[i].planName == p)
  }

  lemma OneMoreGrouped(hooks: seq<HookJob>, n: nat, byPlan: map<string, seq<HookJob>>)
    requires n < |hooks| && GroupedUpTo(hooks, n, byPlan)
    ensures var plan := hooks[n].planName;
      GroupedUpTo(hooks, n + 1, byPlan[plan := (if plan in byPlan then byPlan[plan] else []) + [hooks[n]]])
  {
    var plan := hooks[n].planName;
    var more := byPlan[plan := (if plan in byPlan then byPlan[plan] else []) + [hooks[n]]];
    forall p ensures HooksFor(hooks[..n + 1], p) == if p in more then more[p] else [] {
      HooksForOneMore(hooks, n, p);
      assert HooksFor(hooks[..n], p) == if p in byPlan then byPlan[p] else [];
    }
    OneMorePlanNamed(hooks, n, byPlan.Keys);
    assert more.Keys == byPlan.Keys + {plan};
  }

  lemma OneMorePlanNamed(hooks: seq<HookJob>, n: nat, plans: set<string>)
    requires n < |hooks| && PlansUpTo(hooks, n, plans)
    ensures PlansUpTo(hooks, n + 1, plans + {hooks[n].planName})
  {
  }

  lemma HooksForOneMore(hooks: seq<HookJob>, n: nat, plan: string)
    requires n < |hooks|
    ensures HooksFor(hooks[..n + 1], plan) == HooksFor(hooks[..n], plan) + if hooks[n].planName == plan then [hooks[n]]
      else []
  {
    assert hooks[..n + 1][..n] == hooks[..n];
  }

  /** The first loop of `RunHooks`: the hooks by plan. */
  method GroupByPlan(hooks: seq<HookJob>) returns (byPlan: map<string, seq<HookJob>>)
    ensures forall p :: p in byPlan ==> byPlan[p] == HooksFor(hooks, p)
    ensures forall i :: 0 <= i < |hooks| ==> hooks[i].planName in byPlan
    ensures forall p :: p in byPlan ==> exists i :: 0 <= i < |hooks| && hooks[i].planName == p
  {
    byPlan := map[];
    for n := 0 to |hooks|
      invariant GroupedUpTo(hooks, n, byPlan)
    {
      var h := hooks[n];
      OneMoreGrouped(hooks, n, byPlan);
      byPlan := byPlan[h.planName := (if h.planName in byPlan then byPlan[h.planName] else []) + [h]];
    }
    assert hooks[..|hooks|] == hooks;
    forall p | p in byPlan ensures byPlan[p] == HooksFor(hooks, p) {
      assert HooksFor(hooks[..|hooks|], p) == byPlan[p];
    }
  }

  lemma GoingFromStart(env: Env, event: HookEvent, a: Point)
    ensures Going(env, event, a, a, a.stored)
  {
  }

  /** All the hooks of the event that the spec has. */
  ghost predicate SpecHooks(env: Env, event: HookEvent, hooks: seq<HookJob>) {
    forall i :: 0 <= i < |hooks| ==> FromSpec(env, event, hooks[i])
  }

  /** The part of `RunHooks` about one plan, seen from where the loop over the plans began. */
  lemma PlanGoes(env: Env, event: HookEvent, start: Point, site: Site, planHooks: seq<HookJob>, bases: seq<HookJob>,
          runs: seq<Run>, from: Point, seen: Status, b: Point, o: Status)
    requires Going(env, event, start, from, seen) && site.scheme == env.scheme
    requires PlanRuns(site, env.namespace, bases, runs, from, seen, b, o) && Among(seen, planHooks, bases)
    requires SpecHooks(env, event, planHooks)
    requires forall i :: 0 <= i < |planHooks| ==> planHooks[i].planName in seen.plans
    ensures Going(env, event, start, b, o)
  {
    forall i | 0 <= i < |runs| ensures Justified(site, runs[i]) && RunIsDue(env, event, start.stored, runs[i]) {
      BaseIsDue(env, event, start, from, seen, planHooks, bases[i]);
    }
    ChainGoes(env, event, start, site, runs, from, seen, b, o);
  }

  lemma BaseIsDue(env: Env, event: HookEvent, start: Point, from: Point, seen: Status, planHooks: seq<HookJob>,
          base: HookJob)
    requires Going(env, event, start, from, seen) && SpecHooks(env, event, planHooks)
    requires forall i :: 0 <= i < |planHooks| ==> planHooks[i].planName in seen.plans
    requires base in planHooks && (base.nodeAccess.None? ==> !IdSkipped(seen, base, base.Id()))
    ensures FromSpec(env, event, base) && base.planName in start.stored.plans
    ensures base.nodeAccess.None? ==> DueCrew(env, event, start.stored, PlainCrew(base))
  {
    SpecIsWellSummed(env, event, base);
    if base.nodeAccess.None? {
      DueIfNotSkipped(env, event, start.stored, from.stored, seen, base, None, base.Id(), PlainCrew(base));
    }
  }

  lemma HooksForAreOfPlan(env: Env, event: HookEvent, hooks: seq<HookJob>, plan: string)
    requires SpecHooks(env, event, hooks)
    ensures SpecHooks(env, event, HooksFor(hooks, plan)) && OfPlan(env.namespace, plan, event, HooksFor(hooks, plan))
    ensures AllWellSummed(env.scheme, HooksFor(hooks, plan))
    ensures forall i :: 0 <= i < |HooksFor(hooks, plan)| ==> HooksFor(hooks, plan)[i] in hooks
  {
    var planHooks := HooksFor(hooks, plan);
    forall i | 0 <= i < |planHooks|
      ensures FromSpec(env, event, planHooks[i]) && planHooks[i] in hooks && planHooks[i].planName == plan
      ensures planHooks[i].namespace == env.namespace && planHooks[i].event == event
        && WellSummed(env.scheme, planHooks[i])
    {
      HooksForHas(hooks, plan, planHooks[i]);
      SpecIsWellSummed(env, event, planHooks[i]);
    }
  }

  lemma NoRivalsFor(site: Site, hooks: seq<HookJob>, plan: string)
    requires NoRivals(site, hooks)
    ensures NoRivals(site, HooksFor(hooks, plan))
  {
    forall g, h, id | g in HooksFor(hooks, plan) && h in HooksFor(hooks, plan) ensures !AreRivals(site, g, h, id) {
      HooksForHas(hooks, plan, g);
      HooksForHas(hooks, plan, h);
    }
  }

  /** All hooks of these plans are served. */
  ghost predicate ServedIn(site: Site, st: Status, hooks: seq<HookJob>, done: set<string>) {
    forall k :: 0 <= k < |hooks| && hooks[k].planName in done ==> JobServed(site, st, hooks[k])
  }

  lemma OneMorePlanServed(site: Site, ns: string, event: HookEvent, hooks: seq<HookJob>, done: set<string>,
          plan: string, ids: set<Key>, s: Status, t: Status)
    requires ServedIn(site, s, hooks, done) && plan !in done && Noted(ns, plan, event, ids, s, s, t, t)
    requires EveryServed(site, t, HooksFor(hooks, plan))
    requires forall k :: 0 <= k < |hooks| ==> hooks[k].namespace == ns
    ensures ServedIn(site, t, hooks, done + {plan})
  {
    forall k | 0 <= k < |hooks| && hooks[k].planName in done + {plan} ensures JobServed(site, t, hooks[k]) {
      if hooks[k].planName == plan {
        HooksForHas(hooks, plan, hooks[k]);
      } else {
        ServedStays(site, hooks[k], ns, plan, event, ids, s, t);
      }
    }
  }

  lemma AllServedFor(site: Site, st: Status, hooks: seq<HookJob>, plan: string)
    requires EveryServed(site, st, hooks)
    ensures EveryServed(site, st, HooksFor(hooks, plan))
  {
    forall i | 0 <= i < |HooksFor(hooks, plan)| ensures JobServed(site, st, HooksFor(hooks, plan)[i]) {
      HooksForHas(hooks, plan, HooksFor(hooks, plan)[i]);
    }
  }

  lemma SpecHooksNamespace(env: Env, event: HookEvent, hooks: seq<HookJob>)
    requires SpecHooks(env, event, hooks)
    ensures forall k :: 0 <= k < |hooks| ==> hooks[k].namespace == env.namespace
  {
    forall k | 0 <= k < |hooks| ensures hooks[k].namespace == env.namespace { SpecIsWellSummed(env, event, hooks[k]); }
  }

  /** The hooks of one plan that ran, from where to where. */
  datatype PlanRun = PlanRun(plan: string, bases: seq<HookJob>, runs: seq<Run>, from: Point, seen: Status, to: Point,
    shown: Status)

  ghost predicate IsPlanRun(site: Site, ns: string, event: HookEvent, hooks: seq<HookJob>, p: PlanRun) {
    && PlanRuns(site, ns, p.bases, p.runs, p.from, p.seen, p.to, p.shown)
    && OfPlan(ns, p.plan, event, p.bases) && Among(p.seen, HooksFor(hooks, p.plan), p.bases)
  }

  /** The hooks of one plan after those of the other lead from `a` to `b`; each is a `link`. */
  ghost predicate PlanChain(link: PlanRun -> bool, ps: seq<PlanRun>, a: Point, o0: Status, b: Point, o: Status)
    decreases |ps|
  {
    if ps == [] then b == a && o == o0
    else
      var last := ps[|ps| - 1];
      && PlanChain(link, ps[..|ps| - 1], a, o0, last.from, last.seen)
      && link(last) && last.to == b && last.shown == o
  }

  lemma PlanChainLonger(link: PlanRun -> bool, ps: seq<PlanRun>, a: Point, o0: Status, p: PlanRun)
    requires PlanChain(link, ps, a, o0, p.from, p.seen) && link(p)
    ensures PlanChain(link, ps + [p], a, o0, p.to, p.shown)
  {
    assert (ps + [p])[..|ps|] == ps;
  }

  /** With everything served before, the hooks of the plan that ran changed nothing. */
  lemma PlanRested(site: Site, ns: string, event: HookEvent, hooks: seq<HookJob>, p: PlanRun)
    requires IsPlanRun(site, ns, event, hooks, p) && EveryServed(site, p.seen, hooks)
    ensures p.to == p.from && p.shown == p.seen
  {
    AllServedFor(site, p.seen, hooks, p.plan);
    ServedLeavesNothingDue(site, p.seen, HooksFor(hooks, p.plan), p.bases);
  }

  lemma {:induction false} PlansRested(site: Site, ns: string, event: HookEvent, hooks: seq<HookJob>,
          link: PlanRun -> bool, ps: seq<PlanRun>, a: Point, o0: Status, b: Point, o: Status)
    requires PlanChain(link, ps, a, o0, b, o) && EveryServed(site, o0, hooks)
    requires forall p :: link(p) ==> IsPlanRun(site, ns, event, hooks, p)
    ensures b == a && o == o0
    decreases |ps|
  {
    if ps != [] {
      var last := ps[|ps| - 1];
      PlansRested(site, ns, event, hooks, link, ps[..|ps| - 1], a, o0, last.from, last.seen);
      PlanRested(site, ns, event, hooks, last);
    }
  }

  /** The hooks of the plan ended well. */
  ghost predicate EndsWell(site: Site, hooks: seq<HookJob>, p: PlanRun) {
    PlanEnded(site, HooksFor(hooks, p.plan), p.from, p.to, p.shown)
  }

  lemma PlanLeavesServed(site: Site, ns: string, event: HookEvent, hooks: seq<HookJob>, done: set<string>, p: PlanRun)
    requires IsPlanRun(site, ns, event, hooks, p) && EndsWell(site, hooks, p) && NoRivals(site, hooks)
    requires p.from.stored == p.seen && ServedIn(site, p.seen, hooks, done) && p.plan !in done
    requires forall k :: 0 <= k < |hooks| ==> hooks[k].namespace == ns
    ensures ServedIn(site, p.shown, hooks, done + {p.plan})
  {
    var ids := ChainNotes(site, ns, p.plan, event, p.bases, p.runs, p.from, p.seen, p.to, p.shown);
    NoRivalsFor(site, hooks, p.plan);
    OneMorePlanServed(site, ns, event, hooks, done, p.plan, ids, p.seen, p.shown);
  }

  /** The plans whose hooks have run. */
  function PlansOf(ps: seq<PlanRun>): set<string> {
    if ps == [] then {} else PlansOf(ps[..|ps| - 1]) + {ps[|ps| - 1].plan}
  }

  /** Different plans, each ending well. */
  ghost predicate EachEnded(ends: PlanRun -> bool, ps: seq<PlanRun>) {
    if ps == [] then true
    else
      var last, init := ps[|ps| - 1], ps[..|ps| - 1];
      EachEnded(ends, init) && ends(last) && last.plan !in PlansOf(init)
  }

  /** Hooks of plans whose turn has not come are skipped if and only if they were at the start. */
  ghost predicate OthersWait(site: Site, hooks: seq<HookJob>, s: Status, t: Status, done: set<string>) {
    forall h, id :: h in hooks && h.planName !in done && id in JobIds(site, h) ==>
      (IdSkipped(s, h, id) <==> IdSkipped(t, h, id))
  }

  ghost predicate HandledIn(site: Site, a: Point, events: seq<Event>, hooks: seq<HookJob>, done: set<string>) {
    forall h :: h in hooks && h.planName in done ==> JobHandled(site, a, events, h)
  }

  /** What the hooks of the plans so far came to. */
  ghost predicate PlansEnded(site: Site, hooks: seq<HookJob>, a: Point, b: Point, done: set<string>) {
    && a.events <= b.events && OthersWait(site, hooks, a.stored, b.stored, done)
    && HandledIn(site, a, b.events, hooks, done)
    && (NoRivals(site, hooks) ==> ServedIn(site, b.stored, hooks, done))
  }

  lemma PlanEndsToo(site: Site, ns: string, event: HookEvent, hooks: seq<HookJob>, done: set<string>, a: Point,
          p: PlanRun)
    requires IsPlanRun(site, ns, event, hooks, p) && EndsWell(site, hooks, p) && p.from.stored == p.seen
      && p.plan !in done
    requires PlansEnded(site, hooks, a, p.from, done) && forall h :: h in hooks ==> h.namespace == ns
    ensures PlansEnded(site, hooks, a, p.to, done + {p.plan})
  {
    var ids := ChainNotes(site, ns, p.plan, event, p.bases, p.runs, p.from, p.seen, p.to, p.shown);
    ChainGrows(site.scheme, ns, p.runs, p.from, p.seen, p.to, p.shown);
    forall h, id | h in hooks && h.planName !in done + {p.plan} && id in JobIds(site, h)
      ensures IdSkipped(a.stored, h, id) <==> IdSkipped(p.to.stored, h, id)
    {
      JobsAreIn(site, h, id);
      SkippedStays(ns, p.plan, event, ids, p.from.stored, p.to.stored, h.planName, h.event, id, h.mutable, h.checksum);
    }
    forall h | h in hooks && h.planName in done + {p.plan} ensures JobHandled(site, a, p.to.events, h) {
      if h.planName == p.plan {
        HandledFromStart(site, hooks, done, a, p, h);
      } else {
        HandledLonger(site, a, p.from.events, p.to.events, h);
      }
    }
    if NoRivals(site, hooks) { PlanLeavesServed(site, ns, event, hooks, done, p); }
  }

  lemma HandledFromStart(site: Site, hooks: seq<HookJob>, done: set<string>, a: Point, p: PlanRun, h: HookJob)
    requires EndsWell(site, hooks, p) && p.plan !in done && h in hooks && h.planName == p.plan
    requires OthersWait(site, hooks, a.stored, p.from.stored, done) && a.events <= p.from.events
    ensures JobHandled(site, a, p.to.events, h)
  {
    HooksForHas(hooks, p.plan, h);
    var i :| 0 <= i < |HooksFor(hooks, p.plan)| && HooksFor(hooks, p.plan)[i] == h;
    assert JobHandled(site, p.from, p.to.events, h);
    forall id | id in JobIds(site, h) && !IdSkipped(a.stored, h, id)
      ensures LaunchedSince(p.to.events, |a.events|, id)
    {
      LaunchedLonger(p.to.events, |p.from.events|, id, p.to.events, |a.events|);
    }
  }

  lemma {:induction false} ChainGrows(scheme: Scheme, ns: string, runs: seq<Run>, a: Point, o0: Status, b: Point,
          o: Status)
    requires Chain(scheme, ns, runs, a, o0, b, o)
    ensures a.events <= b.events
    decreases |runs|
  {
    if runs != [] {
      var last := runs[|runs| - 1];
      ChainGrows(scheme, ns, runs[..|runs| - 1], a, o0, last.from, last.seen);
    }
  }

  lemma {:induction false} PlansEndWell(site: Site, ns: string, event: HookEvent, hooks: seq<HookJob>,
          link: PlanRun -> bool, ends: PlanRun -> bool, ps: seq<PlanRun>, a: Point, b: Point, o: Status)
    requires PlanChain(link, ps, a, a.stored, b, o) && EachEnded(ends, ps)
    requires forall p :: link(p) ==> IsPlanRun(site, ns, event, hooks, p)
    requires forall p :: ends(p) ==> EndsWell(site, hooks, p)
    requires forall h :: h in hooks ==> h.namespace == ns
    ensures b.stored == o && PlansEnded(site, hooks, a, b, PlansOf(ps))
    decreases |ps|
  {
    if ps != [] {
      var last, init := ps[|ps| - 1], ps[..|ps| - 1];
      PlansEndWell(site, ns, event, hooks, link, ends, init, a, last.from, last.seen);
      PlanEndsToo(site, ns, event, hooks, PlansOf(init), a, last);
    }
  }

  /** What each plan's hooks keep, those of all plans keep. */
  lemma {:induction false} PlanChainKeeps(link: PlanRun -> bool, ps: seq<PlanRun>, a: Point, o0: Status, b: Point,
          o: Status, inv: (Point, Status) -> bool)
    requires PlanChain(link, ps, a, o0, b, o) && inv(a, o0)
    requires forall p :: link(p) && inv(p.from, p.seen) ==> inv(p.to, p.shown)
    ensures inv(b, o)
    decreases |ps|
  {
    if ps != [] {
      var last := ps[|ps| - 1];
      PlanChainKeeps(link, ps[..|ps| - 1], a, o0, last.from, last.seen, inv);
    }
  }

  lemma PlansGo(env: Env, event: HookEvent, start: Point, site: Site, hooks: seq<HookJob>, link: PlanRun -> bool,
          ps: seq<PlanRun>, b: Point, o: Status)
    requires PlanChain(link, ps, start, start.stored, b, o) && site.scheme == env.scheme
    requires forall p :: link(p) ==> IsPlanRun(site, env.namespace, event, hooks, p)
    requires SpecHooks(env, event, hooks) && forall i :: 0 <= i < |hooks| ==> hooks[i].planName in start.stored.plans
    ensures Going(env, event, start, b, o)
  {
    GoingFromStart(env, event, start);
    forall p | link(p) && Going(env, event, start, p.from, p.seen) ensures Going(env, event, start, p.to, p.shown) {
      PlanRunGoes(env, event, start, site, hooks, p);
    }
    PlanChainKeeps(link, ps, start, start.stored, b, o, (d, p) => Going(env, event, start, d, p));
  }

  lemma PlanRunGoes(env: Env, event: HookEvent, start: Point, site: Site, hooks: seq<HookJob>, p: PlanRun)
    requires IsPlanRun(site, env.namespace, event, hooks, p) && Going(env, event, start, p.from, p.seen)
      && site.scheme == env.scheme
    requires SpecHooks(env, event, hooks) && forall i :: 0 <= i < |hooks| ==> hooks[i].planName in start.stored.plans
    ensures Going(env, event, start, p.to, p.shown)
  {
    HooksForAreOfPlan(env, event, hooks, p.plan);
    var planHooks := HooksFor(hooks, p.plan);
    forall i | 0 <= i < |planHooks| ensures planHooks[i].planName in p.seen.plans {
      assert planHooks[i] in hooks;
    }
    PlanGoes(env, event, start, site, planHooks, p.bases, p.runs, p.from, p.seen, p.to, p.shown);
  }

  /** One iteration of the loop over the plans, as a `PlanRun`. */
  method PlanNext(c: Cluster, obj: RestoreObject, planName: string, planHooks: seq<HookJob>,
                  ghost hooks: seq<HookJob>, ghost site: Site, ghost event: HookEvent)
    returns (r: Result<()>, unread: bool, ghost p: PlanRun)
    requires planHooks == HooksFor(hooks, planName) && At(c, site)
    requires OfPlan(obj.namespace, planName, event, planHooks) && AllWellSummed(c.scheme, planHooks)
    requires SameButHooks(c.status, obj.status) && planName in obj.status.plans
    modifies obj`status, c`status, c`history, c`lostWrites, c`configMaps, c`jobs, c`events
    ensures p == PlanRun(planName, p.bases, p.runs, old(Here(c)), old(obj.status), Here(c), obj.status)
    ensures IsPlanRun(site, obj.namespace, event, hooks, p) && c.lostWrites >= old(c.lostWrites) && At(c, site)
    ensures r.Ok? && c.lostWrites == old(c.lostWrites) && p.from.stored == p.seen ==> EndsWell(site, hooks, p)
    ensures unread ==> r.Err? && HasFrozen(planHooks)
  {
    ghost var from, seen, bases, runs := Here(c), obj.status, [], [];
    r, unread, bases, runs := HooksOfPlan(c, obj, planName, planHooks, site, event, from, seen);
    p := PlanRun(planName, bases, runs, from, seen, Here(c), obj.status);
  }

  /** The hooks by plan, fit to run. */
  ghost predicate Grouped(scheme: Scheme, ns: string, event: HookEvent, hooks: seq<HookJob>,
          byPlan: map<string, seq<HookJob>>)
  {
    forall p :: p in byPlan ==>
      byPlan[p] == HooksFor(hooks, p) && OfPlan(ns, p, event, byPlan[p]) && AllWellSummed(scheme, byPlan[p])
  }

  lemma GroupedAt(scheme: Scheme, ns: string, event: HookEvent, hooks: seq<HookJob>, byPlan: map<string, seq<HookJob>>,
          p: string, keys: set<string>)
    requires Grouped(scheme, ns, event, hooks, byPlan) && p in byPlan.Keys && byPlan.Keys <= keys
    ensures p in byPlan && p in keys
    ensures byPlan[p] == HooksFor(hooks, p) && OfPlan(ns, p, event, byPlan[p]) && AllWellSummed(scheme, byPlan[p])
  {
  }

  /** Where the loop over the plans stands: as long as no write was lost, each plan visited ended as it should. */
  ghost predicate PlansStand(link: PlanRun -> bool, ends: PlanRun -> bool, ps: seq<PlanRun>, visited: set<string>,
                             a: Point, o0: Status, b: Point, o: Status, clean: bool) {
    && PlanChain(link, ps, a, o0, b, o) && PlansOf(ps) == visited
    && SameButHooks(b.stored, o) && o.plans.Keys == o0.plans.Keys
    && (clean ==> b.stored == o && EachEnded(ends, ps))
  }

  lemma OneMorePlanStands(link: PlanRun -> bool, ends: PlanRun -> bool, ps: seq<PlanRun>, visited: set<string>,
                          a: Point, o0: Status, p: PlanRun, clean: bool, clean': bool)
    requires PlansStand(link, ends, ps, visited, a, o0, p.from, p.seen, clean) && p.plan !in visited
    requires link(p) && (clean' ==> clean && ends(p) && p.to.stored == p.shown)
    requires SameButHooks(p.to.stored, p.shown) && p.shown.plans.Keys == p.seen.plans.Keys
    ensures PlansStand(link, ends, ps + [p], visited + {p.plan}, a, o0, p.to, p.shown, clean')
  {
    PlanChainLonger(link, ps, a, o0, p);
    assert (ps + [p])[..|ps|] == ps;
  }

  ghost predicate Links(site: Site, ns: string, event: HookEvent, hooks: seq<HookJob>, link: PlanRun -> bool,
          ends: PlanRun -> bool)
  {
    && (forall p :: link(p) <==> IsPlanRun(site, ns, event, hooks, p))
    && (forall p :: ends(p) <==> EndsWell(site, hooks, p))
  }

  method PlanStep(c: Cluster, obj: RestoreObject, planName: string, planHooks: seq<HookJob>, ghost hooks: seq<HookJob>,
          ghost site: Site, ghost event: HookEvent, ghost link: PlanRun -> bool, ghost ends: PlanRun -> bool,
          ghost ps: seq<PlanRun>, ghost visited: set<string>, ghost a: Point, ghost o0: Status, ghost clean: bool)
    returns (r: Result<()>, unread: bool, ghost ps': seq<PlanRun>, ghost clean': bool)
    requires planHooks == HooksFor(hooks, planName) && At(c, site) && planName !in visited
    requires OfPlan(obj.namespace, planName, event, planHooks) && AllWellSummed(c.scheme, planHooks)
    requires planName in o0.plans.Keys
    requires Links(site, obj.namespace, event, hooks, link, ends)
    requires PlansStand(link, ends, ps, visited, a, o0, Here(c), obj.status, clean)
    modifies obj`status, c`status, c`history, c`lostWrites, c`configMaps, c`jobs, c`events
    ensures PlansStand(link, ends, ps', visited + {planName}, a, o0, Here(c), obj.status, clean') && At(c, site)
    ensures c.lostWrites >= old(c.lostWrites)
    ensures r.Ok? && c.lostWrites == old(c.lostWrites) && clean ==> clean'
    ensures unread ==> r.Err? && HasFrozen(planHooks)
  {
    ghost var p;
    assert planName in obj.status.plans.Keys;
    r, unread, p := PlanNext(c, obj, planName, planHooks, hooks, site, event);
    clean' := r.Ok? && c.lostWrites == old(c.lostWrites) && clean;
    PlanRunKeepsSync(site, obj.namespace, event, hooks, p);
    OneMorePlanStands(link, ends, ps, visited, a, o0, p, clean, clean');
    ps' := ps + [p];
  }

  lemma PlanRunKeepsSync(site: Site, ns: string, event: HookEvent, hooks: seq<HookJob>, p: PlanRun)
    requires IsPlanRun(site, ns, event, hooks, p) && SameButHooks(p.from.stored, p.seen)
    ensures SameButHooks(p.from.stored, p.to.stored) && SameButHooks(p.to.stored, p.shown)
      && p.shown.plans.Keys == p.seen.plans.Keys
  {
    var ids := ChainNotes(site, ns, p.plan, event, p.bases, p.runs, p.from, p.seen, p.to, p.shown);
  }

  /** The loop over the plans, in whatever order the map yields them. */
  method RunAllPlans(c: Cluster, obj: RestoreObject, byPlan: map<string, seq<HookJob>>, ghost hooks: seq<HookJob>,
          ghost site: Site, ghost event: HookEvent, ghost link: PlanRun -> bool, ghost ends: PlanRun -> bool,
          ghost from: Point, ghost seen: Status)
    returns (r: Result<()>, unread: bool, ghost ps: seq<PlanRun>, ghost clean: bool)
    requires At(c, site) && from == Here(c) && seen == obj.status == c.status
    requires Grouped(c.scheme, obj.namespace, event, hooks, byPlan) && byPlan.Keys <= seen.plans.Keys
    requires Links(site, obj.namespace, event, hooks, link, ends)
    modifies obj`status, c`status, c`history, c`lostWrites, c`configMaps, c`jobs, c`events
    ensures PlansStand(link, ends, ps, PlansOf(ps), from, seen, Here(c), obj.status, clean)
    ensures c.lostWrites >= old(c.lostWrites) && (r.Ok? ==> PlansOf(ps) == byPlan.Keys)
    ensures r.Ok? && c.lostWrites == old(c.lostWrites) ==> clean
    ensures unread ==> r.Err? && HasFrozen(hooks)
  {
    unread := false;
    var names := Enumerate(byPlan.Keys);
    ps := [];
    ghost var visited: set<string> := {};
    clean := true;
    for i := 0 to |names|
      invariant PlansStand(link, ends, ps, visited, from, seen, Here(c), obj.status, clean)
      invariant c.lostWrites >= old(c.lostWrites)
      invariant c.lostWrites == old(c.lostWrites) ==> clean
      invariant !unread && Visited(names, visited, i) && At(c, site)
    {
      VisitNext(names, byPlan.Keys, visited, i);
      GroupedAt(c.scheme, obj.namespace, event, hooks, byPlan, names[i], seen.plans.Keys);
      r, unread, ps, clean := PlanStep(c, obj, names[i], byPlan[names[i]], hooks, site, event, link, ends, ps, visited,
        from, seen, clean);
      visited := visited + {names[i]};
      if unread { FrozenFor(hooks, names[i]); }
      if r.Err? { return; }
    }
    AllVisited(names, byPlan.Keys, visited);
    r := Ok(());
  }

  lemma FrozenFor(hooks: seq<HookJob>, plan: string)
    requires HasFrozen(HooksFor(hooks, plan))
    ensures HasFrozen(hooks)
  {
    var k :| 0 <= k < |HooksFor(hooks, plan)| && !HooksFor(hooks, plan)[k].mutable
      && HooksFor(hooks, plan)[k].nodeAccess.None?;
    HooksForHas(hooks, plan, HooksFor(hooks, plan)[k]);
  }

  // ---------------------------------------------------------------- RunHooks

  lemma GroupedFromSpec(env: Env, event: HookEvent, hooks: seq<HookJob>, byPlan: map<string, seq<HookJob>>)
    requires SpecHooks(env, event, hooks) && forall p :: p in byPlan ==> byPlan[p] == HooksFor(hooks, p)
    ensures Grouped(env.scheme, env.namespace, event, hooks, byPlan)
  {
    forall p | p in byPlan
      ensures OfPlan(env.namespace, p, event, byPlan[p]) && AllWellSummed(env.scheme, byPlan[p])
    {
      HooksForAreOfPlan(env, event, hooks, p);
    }
  }

  lemma PlansKeepPhase(site: Site, ns: string, event: HookEvent, hooks: seq<HookJob>, link: PlanRun -> bool,
          ps: seq<PlanRun>, a: Point, b: Point, o: Status)
    requires PlanChain(link, ps, a, a.stored, b, o)
    requires forall p :: link(p) ==> IsPlanRun(site, ns, event, hooks, p)
    ensures SameButHooks(a.stored, b.stored)
  {
    var inv := (d: Point, p: Status) => SameButHooks(a.stored, d.stored) && SameButHooks(d.stored, p);
    SameButHooksChains(a.stored, a.stored, a.stored);
    forall p | link(p) && inv(p.from, p.seen) ensures inv(p.to, p.shown) {
      PlanRunKeepsSync(site, ns, event, hooks, p);
      SameButHooksChains(a.stored, p.from.stored, p.to.stored);
    }
    PlanChainKeeps(link, ps, a, a.stored, b, o, inv);
  }

  /** What a pass over all plans amounts to. */
  ghost predicate HooksRan(env: Env, event: HookEvent, site: Site, hooks: seq<HookJob>, a: Point, b: Point, o: Status,
          clean: bool)
  {
    && Going(env, event, a, b, o) && SameButHooks(a.stored, b.stored)
    && (clean ==> PlanEnded(site, hooks, a, b, o))
    && (EveryServed(site, a.stored, hooks) ==> b == a && o == a.stored)
  }

  lemma PlansAmountTo(env: Env, event: HookEvent, site: Site, hooks: seq<HookJob>, link: PlanRun -> bool,
          ends: PlanRun -> bool, ps: seq<PlanRun>, a: Point, b: Point, o: Status, clean: bool)
    requires PlansStand(link, ends, ps, PlansOf(ps), a, a.stored, b, o, clean) && site.scheme == env.scheme
    requires Links(site, env.namespace, event, hooks, link, ends)
    requires SpecHooks(env, event, hooks) && forall i :: 0 <= i < |hooks| ==> hooks[i].planName in a.stored.plans
    requires clean ==> forall i :: 0 <= i < |hooks| ==> hooks[i].planName in PlansOf(ps)
    ensures HooksRan(env, event, site, hooks, a, b, o, clean)
  {
    PlansGo(env, event, a, site, hooks, link, ps, b, o);
    PlansKeepPhase(site, env.namespace, event, hooks, link, ps, a, b, o);
    if clean {
      SpecHooksNamespace(env, event, hooks);
      PlansEndWell(site, env.namespace, event, hooks, link, ends, ps, a, b, o);
      AllPlansEnded(site, hooks, a, b, o, PlansOf(ps));
    }
    if EveryServed(site, a.stored, hooks) {
      PlansRested(site, env.namespace, event, hooks, link, ps, a, a.stored, b, o);
    }
  }

  lemma AllPlansEnded(site: Site, hooks: seq<HookJob>, a: Point, b: Point, o: Status, done: set<string>)
    requires PlansEnded(site, hooks, a, b, done) && b.stored == o
      && forall i :: 0 <= i < |hooks| ==> hooks[i].planName in done
    ensures PlanEnded(site, hooks, a, b, o)
  {
    forall i | 0 <= i < |hooks|
      ensures JobHandled(site, a, b.events, hooks[i]) && (NoRivals(site, hooks) ==> JobServed(site, o, hooks[i]))
    {
      assert hooks[i] in hooks;
    }
  }

  /** `unread`: it could not be read what a hook is to run, so which hooks are pending was not settled. */
  method RunGroups(c: Cluster, obj: RestoreObject, hooks: seq<HookJob>, ghost event: HookEvent)
    returns (r: Result<()>, unread: bool, ghost clean: bool)
    requires c.status == obj.status && SpecHooks(EnvOf(c, obj), event, hooks)
    requires forall i :: 0 <= i < |hooks| ==> hooks[i].planName in obj.status.plans
    modifies obj`status, c`status, c`history, c`lostWrites, c`configMaps, c`jobs, c`events
    ensures HooksRan(EnvOf(c, obj), event, old(SiteOf(c)), hooks, old(Here(c)), Here(c), obj.status, clean)
    ensures c.lostWrites >= old(c.lostWrites)
    ensures r.Ok? && c.lostWrites == old(c.lostWrites) ==> clean
    ensures unread ==> r.Err? && HasFrozen(hooks)
  {
    ghost var site, from, seen := SiteOf(c), Here(c), obj.status;
    ghost var link := (p: PlanRun) => IsPlanRun(site, obj.namespace, event, hooks, p);
    ghost var ends := (p: PlanRun) => EndsWell(site, hooks, p);
    var byPlan := GroupByPlan(hooks);
    GroupedFromSpec(EnvOf(c, obj), event, hooks, byPlan);
    ghost var ps;
    r, unread, ps, clean := RunAllPlans(c, obj, byPlan, hooks, site, event, link, ends, from, seen);
    clean := clean && r.Ok?;
    PlansAmountTo(EnvOf(c, obj), event, site, hooks, link, ends, ps, from, Here(c), obj.status, clean);
  }

  /**
   Runs the hooks of an event. That one failed is also reported by the phase; that it could not be read
   what an immutable one is to run, `unread`, is not.
   */
  method RunHooks(c: Cluster, obj: RestoreObject, hooks: seq<HookJob>, ghost event: HookEvent)
    returns (r: Result<()>, unread: bool)
    requires c.status == obj.status && SpecHooks(EnvOf(c, obj), event, hooks)
    requires forall i :: 0 <= i < |hooks| ==> hooks[i].planName in obj.status.plans
    modifies obj`status, c`status, c`history, c`lostWrites, c`configMaps, c`jobs, c`events
    ensures Stretch(EnvOf(c, obj), event, old(Here(c)), Here(c))
    ensures KeepsAnyOrder(old(c.history), old(c.status), c.history, c.status)
    ensures Sound(obj.namespace, old(c.status), old(c.events)) ==> Sound(obj.namespace, c.status, c.events)
    ensures c.lostWrites >= old(c.lostWrites)
    ensures r.Ok? ==> SameButHooks(old(c.status), c.status) && SameButHooks(c.status, obj.status)
    ensures r.Ok? && c.lostWrites == old(c.lostWrites) ==>
      PlanEnded(old(SiteOf(c)), hooks, old(Here(c)), Here(c), obj.status)
    ensures EveryServed(old(SiteOf(c)), old(c.status), hooks) ==>
      c.events == old(c.events) && c.configMaps == old(c.configMaps) && c.status.plans == old(c.status).plans
    ensures unread ==> r.Err? && HasFrozen(hooks) && c.status.phase == old(c.status).phase
    ensures r.Err? && !unread ==> c.lostWrites > old(c.lostWrites) || c.status.phase == Failed
  {
    ghost var a := Here(c);
    ghost var clean;
    r, unread, clean := RunGroups(c, obj, hooks, event);
    if r.Err? && !unread {
      ghost var b := Here(c);
      var reported := SetPhase(c, obj, Failed);
      PhaseReported(EnvOf(c, obj), event, a, b, Here(c));
      if reported.Err? { r := reported; }
    }
  }

  lemma PhaseReported(env: Env, event: HookEvent, a: Point, b: Point, d: Point)
    requires Stretch(env, event, a, b) && KeepsAnyOrder(a.history, a.stored, b.history, b.stored)
    requires d.events == b.events && d.configs == b.configs && d.stored.plans == b.stored.plans
    requires KeepsAnyOrder(b.history, b.stored, d.history, d.stored)
    ensures Stretch(env, event, a, d) && KeepsAnyOrder(a.history, a.stored, d.history, d.stored)
    ensures Sound(env.namespace, b.stored, b.events) ==> Sound(env.namespace, d.stored, d.events)
  {
    StretchWithPhase(env, event, a, b, d);
    SoundByHooks(env.namespace, b.stored, d.stored, d.events);
    AnyOrderTransitively(a.history, a.stored, b.history, b.stored, d.history, d.stored);
  }

  lemma SoundByHooks(ns: string, s: Status, t: Status, events: seq<Event>)
    requires forall plan :: HooksOf(s, plan) == HooksOf(t, plan)
    ensures Sound(ns, s, events) ==> Sound(ns, t, events)
  {
  }

  lemma StretchWithPhase(env: Env, event: HookEvent, a: Point, b: Point, d: Point)
    requires Stretch(env, event, a, b) && d.events == b.events && d.configs == b.configs
      && d.stored.plans == b.stored.plans
    ensures Stretch(env, event, a, d)
  {
  }
}
