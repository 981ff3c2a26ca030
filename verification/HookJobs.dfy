/**
 One hook Job from its ConfigMap to its end. The work is cut at its API calls: a `Thread` makes one
 call per step, so that the steps of the threads of a fan-out can come in any order.
 */
module HookJobs {
  import opened Api
  import opened HookList
  import opened Kube
  import opened Names

  datatype HookJob = HookJob(
    name: string,
    namespace: string,
    args: seq<string>,
    checksum: string,
    command: seq<string>,
    event: HookEvent,
    image: string,
    mutable: bool,
    nodeAccess: Option<Selector>,
    planName: string,
    restartPolicy: string)
  {
    function Id(): Key { Key(namespace, name) }
  }

  /** Which call a thread makes next. */
  datatype Stage =
    | FetchingConfig | CreatingConfig | PatchingConfig | ReadingConfig
    | CreatingAccount | CreatingJob | InspectingJob | Polling | Finished

  /** `config`, `seen`, `polls` left and `result` are the local variables of the work so far. */
  datatype Thread = Thread(
    stage: Stage, config: HookConfig, seen: bool, polls: nat, result: Result<()>, status: HookStatus)
  {
    /** Steps left at most. */
    function Weight(): nat {
      if stage.Finished? then 0 else polls + Rank(stage)
    }

    function Fail(e: Error): Thread { this.(stage := Finished, result := Err(e)) }
  }

  function Rank(stage: Stage): nat {
    match stage
    case FetchingConfig => 8
    case CreatingConfig => 7
    case PatchingConfig => 7
    case ReadingConfig => 6
    case CreatingAccount => 5
    case CreatingJob => 4
    case InspectingJob => 3
    case Polling => 1
    case Finished => 0
  }

  function BlankStatus(hook: HookJob): HookStatus {
    HookStatus(hook.name, hook.namespace, "", hook.event, 0, hook.image, hook.mutable, hook.restartPolicy, 0, hook.Id())
  }

  function Unstarted(hook: HookJob, polls: nat): Thread {
    Thread(FetchingConfig, HookConfig([], []), false, polls, Ok(()), BlankStatus(hook))
  }

  // ---------------------------------------------------------------- what threads may do

  /**
   The Jobs of one hook: their names, and what they have in common. `wants` is what the spec has the hook
   run, and `sum` its checksum.
   */
  datatype Crew = Crew(
    plan: string, event: HookEvent, mutable: bool, sum: string, wants: HookConfig, ids: set<Key>)

  predicate InCrew(scheme: Scheme, crew: Crew, hook: HookJob) {
    && hook.planName == crew.plan && hook.event == crew.event && hook.mutable == crew.mutable && hook.Id() in crew.ids
    && (hook.mutable ==> scheme.checksum(hook.command, hook.args) == crew.sum)
  }

  /** A hook event of the crew. A Job of a mutable hook runs what the spec says, any other what the ConfigMap holds. */
  predicate CrewEvent(scheme: Scheme, crew: Crew, e: Event, configs: map<Key, HookConfig>) {
    match e
    case ConfigMapWritten(id) => id in crew.ids
    case AccountCreated(id) => id in crew.ids
    case JobSeen(id, _) => id in crew.ids
    case JobCreated(plan, id, event, mutable, command, args) =>
      && plan == crew.plan && id in crew.ids && event == crew.event && mutable == crew.mutable
      && (if mutable then scheme.checksum(command, args) == crew.sum
          else id in configs && configs[id] == HookConfig(command, args))
    case _ => false
  }

  /**
   ConfigMaps are never removed; only those of the crew are new, and only those of a mutable hook change;
   and what is new is what the spec wants to be run.
   */
  predicate ConfigsKept(crew: Crew, a: map<Key, HookConfig>, b: map<Key, HookConfig>) {
    && (forall id :: id in a ==> id in b && ((crew.mutable && id in crew.ids) || b[id] == a[id]))
    && (forall id :: id in b && id !in a ==> id in crew.ids)
    && (forall id :: id in b && (id !in a || b[id] != a[id]) ==> b[id] == crew.wants)
  }

  /** The hook is to run what the spec wants; or what its ConfigMap holds, which is there then. */
  predicate Grounded(wants: HookConfig, hook: HookJob, configs: map<Key, HookConfig>) {
    HookConfig(hook.command, hook.args) == wants || (!hook.mutable && hook.Id() in configs)
  }

  /** What one or more steps of threads of a crew do. */
  ghost predicate Worked(scheme: Scheme, crew: Crew, e0: seq<Event>, m0: map<Key, HookConfig>, e1: seq<Event>,
          m1: map<Key, HookConfig>)
  {
    && e0 <= e1 && ConfigsKept(crew, m0, m1)
    && forall i :: |e0| <= i < |e1| ==> CrewEvent(scheme, crew, e1[i], m1)
  }

  lemma WorkedTransitively(scheme: Scheme, crew: Crew, e0: seq<Event>, m0: map<Key, HookConfig>,
                           e1: seq<Event>, m1: map<Key, HookConfig>, e2: seq<Event>, m2: map<Key, HookConfig>)
    requires Worked(scheme, crew, e0, m0, e1, m1) && Worked(scheme, crew, e1, m1, e2, m2)
    ensures Worked(scheme, crew, e0, m0, e2, m2)
  {
    forall i | |e0| <= i < |e2| ensures CrewEvent(scheme, crew, e2[i], m2) {
      if i < |e1| { assert e2[i] == e1[i]; }
    }
  }

  function SumOf(scheme: Scheme, config: HookConfig): string { scheme.checksum(config.command, config.args) }

  /** The ConfigMap is there; that of a mutable hook carries the spec's checksum. */
  predicate ConfigServes(scheme: Scheme, crew: Crew, id: Key, configs: map<Key, HookConfig>) {
    id in configs && (crew.mutable ==> SumOf(scheme, configs[id]) == crew.sum)
  }

  /** What a thread read is what its ConfigMap holds; for a mutable hook, by checksum. */
  predicate HasRead(scheme: Scheme, crew: Crew, id: Key, t: Thread, configs: map<Key, HookConfig>) {
    && ConfigServes(scheme, crew, id, configs)
    && t.status.checksum == SumOf(scheme, t.config) == SumOf(scheme, configs[id])
    && (!crew.mutable ==> t.config == configs[id])
  }

  /** All that running a hook adds to what is known of it beforehand is the checksum and how it ended. */
  predicate IsStatusOf(hook: HookJob, st: HookStatus) {
    st == BlankStatus(hook).(checksum := st.checksum, failed := st.failed, succeeded := st.succeeded)
  }

  /** The thread's own view agrees with its ConfigMap, as far as it has come. */
  predicate Coherent(scheme: Scheme, crew: Crew, hook: HookJob, t: Thread, configs: map<Key, HookConfig>) {
    && IsStatusOf(hook, t.status)
    && (t.stage.FetchingConfig? ==> Grounded(crew.wants, hook, configs))
    && (t.stage.CreatingConfig? || t.stage.PatchingConfig? ==> HookConfig(hook.command, hook.args) == crew.wants)
    && (t.stage.PatchingConfig? ==> hook.mutable && hook.Id() in configs)
    && (t.stage.ReadingConfig? ==> ConfigServes(scheme, crew, hook.Id(), configs))
    && (0 < Rank(t.stage) < 6 ==> HasRead(scheme, crew, hook.Id(), t, configs))
    && (!t.stage.Finished? ==> t.status.succeeded == t.status.failed == 0)
    && (t.stage.Finished? ==> (t.result.Ok? <==> t.status.succeeded != 0) && (t.result.Ok? ==> t.status.failed == 0))
    && (t.stage.Finished? && t.result.Ok? ==>
          ConfigServes(scheme, crew, hook.Id(), configs) && t.status.checksum == SumOf(scheme, configs[hook.Id()]))
  }

  /** Writes to the ConfigMaps of a mutable hook put the spec's command and arguments there. */
  predicate WrittenBy(scheme: Scheme, crew: Crew, a: map<Key, HookConfig>, b: map<Key, HookConfig>) {
    && ConfigsKept(crew, a, b)
    && (crew.mutable ==> forall id :: id in b && (id !in a || b[id] != a[id]) ==> SumOf(scheme, b[id]) == crew.sum)
  }

  /** Another thread of the crew does not disturb this one. */
  lemma StaysCoherent(scheme: Scheme, crew: Crew, hook: HookJob, t: Thread, a: map<Key, HookConfig>,
          b: map<Key, HookConfig>)
    requires Coherent(scheme, crew, hook, t, a) && WrittenBy(scheme, crew, a, b)
    ensures Coherent(scheme, crew, hook, t, b)
  {
    var id := hook.Id();
    if id in a && b[id] != a[id] {
      assert SumOf(scheme, b[id]) == crew.sum;
    }
  }

  // ---------------------------------------------------------------- one step

  /** The ConfigMap of a mutable hook is there, and no longer what the spec says, by checksum. */
  predicate NeedsPatch(scheme: Scheme, h: HookJob, configs: map<Key, HookConfig>) {
    h.mutable && h.Id() in configs && SumOf(scheme, configs[h.Id()]) != scheme.checksum(h.command, h.args)
  }

  /** `ensureHookConfigMap` up to its first call: is there a ConfigMap, and does it still serve? */
  method FetchConfig(c: Cluster, h: HookJob) returns (next: Result<Stage>)
    ensures next.Ok? ==> next.value.CreatingConfig? || next.value.PatchingConfig? || next.value.ReadingConfig?
    ensures next.Ok? ==> (next.value.CreatingConfig? <==> h.Id() !in c.configMaps)
    ensures next.Ok? ==> (next.value.PatchingConfig? <==> NeedsPatch(c.scheme, h, c.configMaps))
  {
    var existing := c.GetConfigMap(h.Id());
    if existing == Err(NotFound) { return Ok(CreatingConfig); }
    if existing.Err? { return Err(existing.error); }
    if !h.mutable { return Ok(ReadingConfig); }
    var wanted := c.scheme.checksum(h.command, h.args);
    var stored := c.scheme.checksum(existing.value.command, existing.value.args);
    return Ok(if wanted == stored then ReadingConfig else PatchingConfig);
  }

  /** Puts what the spec says into the ConfigMap, new or there already. */
  method WriteConfig(c: Cluster, hook: HookJob, patch: bool, ghost crew: Crew) returns (r: Result<()>)
    requires InCrew(c.scheme, crew, hook) && (patch ==> hook.mutable)
    requires HookConfig(hook.command, hook.args) == crew.wants
    modifies c`configMaps, c`events
    ensures c.events == old(c.events) + [ConfigMapWritten(hook.Id())]
    ensures r.Ok? ==> c.configMaps == old(c.configMaps)[hook.Id() := HookConfig(hook.command, hook.args)]
    ensures r.Ok? ==> ConfigServes(c.scheme, crew, hook.Id(), c.configMaps)
    ensures WrittenBy(c.scheme, crew, old(c.configMaps), c.configMaps)
  {
    var data := HookConfig(hook.command, hook.args);
    assert hook.mutable ==> SumOf(c.scheme, data) == crew.sum;
    if patch {
      r := c.PatchConfigMap(hook.Id(), data);
    } else {
      r := c.CreateConfigMap(hook.Id(), data);
    }
  }

  /** The calls of `ensureHookConfigMap`. */
  method StepEnsure(c: Cluster, hook: HookJob, t: Thread, ghost crew: Crew) returns (t': Thread)
    requires Rank(t.stage) >= 7 && InCrew(c.scheme, crew, hook) && (t.stage.PatchingConfig? ==> hook.mutable)
    requires if t.stage.FetchingConfig? then Grounded(crew.wants, hook, c.configMaps)
      else HookConfig(hook.command, hook.args) == crew.wants
    modifies c`configMaps, c`events
    ensures t' == t.(stage := t'.stage, result := t'.result)
    ensures t'.Weight() < t.Weight() && Rank(t'.stage) in {0, 6, 7} && (t'.stage.Finished? ==> t'.result.Err?)
    ensures t'.stage.PatchingConfig? ==> hook.mutable && hook.Id() in c.configMaps
    ensures t'.stage.CreatingConfig? || t'.stage.PatchingConfig? ==> HookConfig(hook.command, hook.args) == crew.wants
    ensures t'.stage.ReadingConfig? ==> ConfigServes(c.scheme, crew, hook.Id(), c.configMaps)
    ensures c.events == old(c.events) || c.events == old(c.events) + [ConfigMapWritten(hook.Id())]
    ensures WrittenBy(c.scheme, crew, old(c.configMaps), c.configMaps)
  {
    if t.stage.FetchingConfig? {
      var next := FetchConfig(c, hook);
      t' := if next.Ok? then t.(stage := next.value) else t.Fail(next.error);
    } else {
      var made := WriteConfig(c, hook, t.stage.PatchingConfig?, crew);
      t' := if made.Ok? then t.(stage := ReadingConfig) else t.Fail(made.error);
    }
  }

  /** `readHookConfigMap`: what the Job is to run comes from the ConfigMap, not from the spec. */
  method StepRead(c: Cluster, hook: HookJob, t: Thread, ghost crew: Crew) returns (t': Thread)
    requires t.stage.ReadingConfig? && ConfigServes(c.scheme, crew, hook.Id(), c.configMaps)
    ensures t'.Weight() < t.Weight()
    ensures t'.stage.Finished? ==> t'.result.Err? && t' == t.Fail(t'.result.error)
    ensures !t'.stage.Finished? ==>
      t'.stage.CreatingAccount? && t'.config == c.configMaps[hook.Id()]
        && t'.status == t.status.(checksum := t'.status.checksum)
        && HasRead(c.scheme, crew, hook.Id(), t', c.configMaps)
  {
    var config := c.GetConfigMap(hook.Id());
    if config.Err? { return t.Fail(config.error); }
    var sum := c.scheme.checksum(config.value.command, config.value.args);
    t' := t.(stage := CreatingAccount, config := config.value, status := t.status.(checksum := sum));
  }

  function Launched(hook: HookJob, config: HookConfig): Event {
    JobCreated(hook.planName, hook.Id(), hook.event, hook.mutable, config.command, config.args)
  }

  /** The calls that create the Job, or find it created before; `found` is the answer about a Job found. */
  method StepLaunch(c: Cluster, hook: HookJob, t: Thread) returns (t': Thread, ghost found: Result<Job>)
    requires 3 <= Rank(t.stage) < 6
    modifies c`jobs, c`events
    ensures t'.Weight() < t.Weight()
    ensures t' == t.(stage := t'.stage, result := t'.result) && (t'.stage.Finished? ==> t'.result.Err?)
    ensures t.stage.CreatingJob? && t'.stage.Polling? ==>
      hook.Id() in c.jobs
        && c.jobs[hook.Id()] == Job(t.status.checksum, hook.event, t.config.command, t.config.args, 0, 0, 0)
    ensures t.stage.InspectingJob? ==>
      && (found.Ok? ==> hook.Id() in c.jobs && found.value == c.jobs[hook.Id()])
      && (found == Err(NotFound) ==> hook.Id() !in c.jobs)
      && (t'.stage.Polling? <==> found.Err? || found.value.checksum == t.status.checksum)
    ensures t'.stage.InspectingJob? || t'.stage.Polling? ==>
      t.stage.InspectingJob? || (t.stage.CreatingJob? && c.events == old(c.events) + [Launched(hook, t.config)])
    ensures c.events == old(c.events)
         || c.events == old(c.events) + [AccountCreated(hook.Id())]
         || c.events == old(c.events) + [Launched(hook, t.config)]
  {
    found := Err(NotFound);
    match t.stage {
      case CreatingAccount =>
        var made := c.CreateServiceAccount(hook.Id());
        t' := if made.Ok? || made == Err(AlreadyExists) then t.(stage := CreatingJob) else t.Fail(made.error);
      case CreatingJob =>
        var made := c.CreateJob(hook.planName, hook.mutable, hook.Id(), hook.event, t.config.command, t.config.args,
          t.status.checksum);
        if made.Err? && made != Err(AlreadyExists) { return t.Fail(made.error), found; }
        t' := t.(stage := if made.Ok? then Polling else InspectingJob);
      case InspectingJob =>
        var existing := c.GetJob(hook.Id());
        found := existing;
        if existing.Ok? && existing.value.checksum != t.status.checksum {
          return t.Fail(Other("hook job is stale (checksum mismatch), will retry after TTL")), found;
        }
        t' := t.(stage := Polling);
    }
  }

  /** One poll of `waitForJob`: `seen` tells a Job not visible yet from one deleted by someone else. */
  method PollJob(c: Cluster, id: Key, seen: bool) returns (r: Result<bool>, seen': bool)
    modifies c`jobs, c`events
    ensures r == Ok(true) ==>
      id in c.jobs && c.jobs[id].succeeded > 0 && c.events == old(c.events) + [JobSeen(id, c.jobs[id])]
    ensures r != Ok(true) ==> c.events == old(c.events)
    ensures r == Ok(false) ==>
      && seen' == (id in c.jobs) && (seen ==> seen')
      && (seen' ==> c.jobs[id].succeeded <= 0 && !(c.jobs[id].failed > 0 && c.jobs[id].active == 0))
    ensures JobsMayBecome(old(c.jobs), c.jobs)
  {
    c.JobsMove();
    seen' := seen;
    var current := c.GetJob(id);
    if current == Err(NotFound) {
      if seen { return Err(Other("job was deleted externally")), seen'; }
      return Ok(false), seen';
    }
    if current.Err? { return Err(current.error), seen'; }
    seen' := true;
    if current.value.succeeded > 0 {
      c.NoteJob(id);
      return Ok(true), seen';
    }
    if current.value.failed > 0 && current.value.active == 0 {
      return Err(Other("job failed")), seen';
    }
    return Ok(false), seen';
  }

  method StepPolling(c: Cluster, hook: HookJob, t: Thread) returns (t': Thread)
    requires t.stage.Polling?
    modifies c`jobs, c`events
    ensures t'.Weight() < t.Weight()
    ensures t'.config == t.config
      && t'.status == t.status.(failed := t'.status.failed, succeeded := t'.status.succeeded)
    ensures t'.stage.Finished? || (t'.stage.Polling? && t'.status == t.status)
    ensures t'.stage.Finished? && t'.result.Ok? ==> t'.status == t.status.(succeeded := 1)
    ensures t'.stage.Finished? && t'.result.Err? ==> t'.status == t.status.(failed := 1)
    ensures EndedWell(t') ==>
      && hook.Id() in c.jobs && c.jobs[hook.Id()].succeeded > 0
      && c.events == old(c.events) + [JobSeen(hook.Id(), c.jobs[hook.Id()])]
    ensures !EndedWell(t') ==> c.events == old(c.events)
  {
    if t.polls == 0 {
      return t.Fail(Other("timed out")).(status := t.status.(failed := 1));
    }
    var done, seen := PollJob(c, hook.Id(), t.seen);
    if done.Err? {
      t' := t.Fail(done.error).(status := t.status.(failed := 1));
    } else if done.value {
      t' := t.(stage := Finished, result := Ok(()), status := t.status.(succeeded := 1));
    } else {
      t' := t.(seen := seen, polls := t.polls - 1);
    }
  }

  lemma WorkedOnce(scheme: Scheme, crew: Crew, e0: seq<Event>, m0: map<Key, HookConfig>, e1: seq<Event>,
          m1: map<Key, HookConfig>, e: Event)
    requires (e1 == e0 || e1 == e0 + [e]) && CrewEvent(scheme, crew, e, m1) && ConfigsKept(crew, m0, m1)
    ensures Worked(scheme, crew, e0, m0, e1, m1)
  {
  }

  lemma LaunchWorked(scheme: Scheme, crew: Crew, hook: HookJob, t: Thread, configs: map<Key, HookConfig>,
          e0: seq<Event>, e1: seq<Event>)
    requires InCrew(scheme, crew, hook) && HasRead(scheme, crew, hook.Id(), t, configs)
    requires e1 == e0 || e1 == e0 + [AccountCreated(hook.Id())] || e1 == e0 + [Launched(hook, t.config)]
    ensures Worked(scheme, crew, e0, configs, e1, configs)
  {
    if e1 == e0 + [AccountCreated(hook.Id())] {
      WorkedOnce(scheme, crew, e0, configs, e1, configs, AccountCreated(hook.Id()));
    } else {
      WorkedOnce(scheme, crew, e0, configs, e1, configs, Launched(hook, t.config));
    }
  }

  lemma EnsuredCoherent(scheme: Scheme, crew: Crew, hook: HookJob, t: Thread, t': Thread,
                        m0: map<Key, HookConfig>, m1: map<Key, HookConfig>)
    requires Coherent(scheme, crew, hook, t, m0) && !t.stage.Finished?
    requires t' == t.(stage := t'.stage, result := t'.result) && Rank(t'.stage) in {0, 6, 7}
    requires t'.stage.Finished? ==> t'.result.Err?
    requires t'.stage.PatchingConfig? ==> hook.mutable && hook.Id() in m1
    requires t'.stage.CreatingConfig? || t'.stage.PatchingConfig? ==> HookConfig(hook.command, hook.args) == crew.wants
    requires t'.stage.ReadingConfig? ==> ConfigServes(scheme, crew, hook.Id(), m1)
    ensures Coherent(scheme, crew, hook, t', m1)
  {
  }

  lemma LaunchedCoherent(scheme: Scheme, crew: Crew, hook: HookJob, t: Thread, t': Thread,
          configs: map<Key, HookConfig>)
    requires Coherent(scheme, crew, hook, t, configs) && 3 <= Rank(t.stage) < 6
    requires t' == t.(stage := t'.stage, result := t'.result) && t'.Weight() < t.Weight()
    requires t'.stage.Finished? ==> t'.result.Err?
    ensures Coherent(scheme, crew, hook, t', configs)
  {
  }

  lemma PolledCoherent(scheme: Scheme, crew: Crew, hook: HookJob, t: Thread, t': Thread, configs: map<Key, HookConfig>)
    requires Coherent(scheme, crew, hook, t, configs) && t.stage.Polling?
    requires t'.config == t.config
      && t'.status == t.status.(failed := t'.status.failed, succeeded := t'.status.succeeded)
    requires t'.stage.Finished? || (t'.stage.Polling? && t'.status == t.status)
    requires t'.stage.Finished? && t'.result.Ok? ==> t'.status == t.status.(succeeded := 1)
    requires t'.stage.Finished? && t'.result.Err? ==> t'.status == t.status.(failed := 1)
    ensures Coherent(scheme, crew, hook, t', configs)
  {
  }

  /** The Job is launched before it is waited for, and its success is seen before the thread ends well. */
  predicate Logged(hook: HookJob, t: Thread, t': Thread, e0: seq<Event>, e1: seq<Event>) {
    && (AfterLaunch(t') ==> AfterLaunch(t) || e1 == e0 + [Launched(hook, t.config)])
    && (EndedWell(t') ==> AfterLaunch(t) && |e1| == |e0| + 1 && e0 <= e1 && ShowsSuccess(e1[|e0|], hook.Id()))
  }

  /** The Job was seen, and had succeeded. */
  predicate ShowsSuccess(e: Event, id: Key) { e.JobSeen? && e.id == id && e.job.succeeded > 0 }

  predicate AfterLaunch(t: Thread) { t.stage.InspectingJob? || t.stage.Polling? }

  predicate EndedWell(t: Thread) { t.stage.Finished? && t.result.Ok? }

  /** A call about the ConfigMap. */
  method StepConfig(c: Cluster, hook: HookJob, t: Thread, ghost crew: Crew) returns (t': Thread)
    requires Rank(t.stage) >= 6 && InCrew(c.scheme, crew, hook) && Coherent(c.scheme, crew, hook, t, c.configMaps)
    modifies c`configMaps, c`events
    ensures t'.Weight() < t.Weight()
    ensures Coherent(c.scheme, crew, hook, t', c.configMaps)
    ensures Worked(c.scheme, crew, old(c.events), old(c.configMaps), c.events, c.configMaps)
    ensures WrittenBy(c.scheme, crew, old(c.configMaps), c.configMaps)
    ensures !AfterLaunch(t') && !EndedWell(t')
  {
    ghost var e0, m0 := c.events, c.configMaps;
    if t.stage.ReadingConfig? {
      t' := StepRead(c, hook, t, crew);
      return;
    }
    t' := StepEnsure(c, hook, t, crew);
    EnsuredCoherent(c.scheme, crew, hook, t, t', m0, c.configMaps);
    WorkedOnce(c.scheme, crew, e0, m0, c.events, c.configMaps, ConfigMapWritten(hook.Id()));
  }

  /** A call about the Job, its account included. */
  method StepJob(c: Cluster, hook: HookJob, t: Thread, ghost crew: Crew) returns (t': Thread)
    requires 0 < Rank(t.stage) < 6 && InCrew(c.scheme, crew, hook) && Coherent(c.scheme, crew, hook, t, c.configMaps)
    modifies c`jobs, c`events
    ensures t'.Weight() < t.Weight()
    ensures Coherent(c.scheme, crew, hook, t', c.configMaps)
    ensures Worked(c.scheme, crew, old(c.events), old(c.configMaps), c.events, c.configMaps)
    ensures Logged(hook, t, t', old(c.events), c.events)
    ensures EndedWell(t') ==> hook.Id() in c.jobs && c.jobs[hook.Id()].succeeded > 0
  {
    ghost var e0, m0 := c.events, c.configMaps;
    if Rank(t.stage) >= 3 {
      ghost var found;
      t', found := StepLaunch(c, hook, t);
      LaunchedCoherent(c.scheme, crew, hook, t, t', m0);
      LaunchWorked(c.scheme, crew, hook, t, m0, e0, c.events);
    } else {
      t' := StepPolling(c, hook, t);
      PolledCoherent(c.scheme, crew, hook, t, t', m0);
      WorkedOnce(c.scheme, crew, e0, m0, c.events, m0,
        if EndedWell(t') then JobSeen(hook.Id(), c.jobs[hook.Id()]) else AccountCreated(hook.Id()));
    }
  }

  /** The next API call of a thread, with all it does up to the call after. */
  method Step(c: Cluster, hook: HookJob, t: Thread, ghost crew: Crew) returns (t': Thread)
    requires !t.stage.Finished? && InCrew(c.scheme, crew, hook) && Coherent(c.scheme, crew, hook, t, c.configMaps)
    modifies c`configMaps, c`jobs, c`events
    ensures t'.Weight() < t.Weight()
    ensures Coherent(c.scheme, crew, hook, t', c.configMaps)
    ensures Worked(c.scheme, crew, old(c.events), old(c.configMaps), c.events, c.configMaps)
    ensures WrittenBy(c.scheme, crew, old(c.configMaps), c.configMaps)
    ensures Logged(hook, t, t', old(c.events), c.events)
    ensures EndedWell(t') ==> hook.Id() in c.jobs && c.jobs[hook.Id()].succeeded > 0
  {
    if Rank(t.stage) >= 6 {
      t' := StepConfig(c, hook, t, crew);
    } else {
      t' := StepJob(c, hook, t, crew);
    }
  }

  /** Since `lo` the Job was launched: its creation was requested, whatever the answer. */
  ghost predicate LaunchedSince(events: seq<Event>, lo: nat, id: Key) {
    exists i :: lo <= i < |events| && events[i].JobCreated? && events[i].id == id
  }

  /** Since `lo` the Job was launched, and then seen to succeed. */
  ghost predicate RanSince(events: seq<Event>, lo: nat, id: Key) {
    exists i, j :: lo <= i < j < |events| && events[i].JobCreated? && events[i].id == id
      && ShowsSuccess(events[j], id)
  }

  /** What the log shows of a thread that began at `lo`. */
  ghost predicate ThreadLog(hook: HookJob, t: Thread, events: seq<Event>, lo: nat) {
    && (AfterLaunch(t) ==> LaunchedSince(events, lo, hook.Id()))
    && (EndedWell(t) ==> RanSince(events, lo, hook.Id()))
  }

  lemma ThreadLogStays(hook: HookJob, t: Thread, events: seq<Event>, later: seq<Event>, lo: nat)
    requires ThreadLog(hook, t, events, lo) && events <= later
    ensures ThreadLog(hook, t, later, lo)
  {
    if AfterLaunch(t) {
      var i :| lo <= i < |events| && events[i].JobCreated? && events[i].id == hook.Id();
      assert later[i] == events[i];
    }
    if EndedWell(t) {
      RanSinceStays(events, later, lo, lo, hook.Id());
    }
  }

  lemma RanSinceStays(events: seq<Event>, later: seq<Event>, lo: nat, lo': nat, id: Key)
    requires RanSince(events, lo, id) && events <= later && lo' <= lo
    ensures RanSince(later, lo', id)
  {
    var i, j :| lo <= i < j < |events| && events[i].JobCreated? && events[i].id == id && ShowsSuccess(events[j], id);
    assert later[i] == events[i] && later[j] == events[j];
  }

  lemma ThreadLogGrows(hook: HookJob, t: Thread, t': Thread, e0: seq<Event>, e1: seq<Event>, lo: nat)
    requires ThreadLog(hook, t, e0, lo) && Logged(hook, t, t', e0, e1) && e0 <= e1 && lo <= |e0|
    ensures ThreadLog(hook, t', e1, lo)
  {
    ThreadLogStays(hook, t, e0, e1, lo);
    if AfterLaunch(t') && !AfterLaunch(t) { assert e1[|e0|] == Launched(hook, t.config); }
    if EndedWell(t') {
      var i :| lo <= i < |e0| && e0[i].JobCreated? && e0[i].id == hook.Id();
      assert e1[i] == e0[i] && ShowsSuccess(e1[|e0|], hook.Id());
    }
  }

  /** One hook Job on its own, step after step. It writes no status: that is left to the caller. */
  method ExecuteHookJob(c: Cluster, hook: HookJob, ghost crew: Crew) returns (status: HookStatus, r: Result<()>)
    requires InCrew(c.scheme, crew, hook) && Grounded(crew.wants, hook, c.configMaps)
    modifies c`configMaps, c`jobs, c`events
    ensures Worked(c.scheme, crew, old(c.events), old(c.configMaps), c.events, c.configMaps)
    ensures IsStatusOf(hook, status) && (r.Ok? <==> status.succeeded != 0) && (r.Ok? ==> status.failed == 0)
    ensures
      && status.name == hook.name && status.namespace == hook.namespace && status.event == hook.event
      && status.image == hook.image && status.mutable == hook.mutable && status.restartPolicy == hook.restartPolicy
      && status.configMapRef == Key(hook.namespace, hook.name)
    ensures r.Ok? ==> hook.Id() in c.jobs && c.jobs[hook.Id()].succeeded > 0
    ensures r.Ok? ==> ConfigServes(c.scheme, crew, hook.Id(), c.configMaps)
                      && status.checksum == SumOf(c.scheme, c.configMaps[hook.Id()])
    ensures r.Ok? ==> RanSince(c.events, |old(c.events)|, hook.Id())
  {
    var polls: nat := *;
    var t := Unstarted(hook, polls);
    while !t.stage.Finished?
      invariant Coherent(c.scheme, crew, hook, t, c.configMaps)
      invariant Worked(c.scheme, crew, old(c.events), old(c.configMaps), c.events, c.configMaps)
      invariant ThreadLog(hook, t, c.events, |old(c.events)|)
      invariant EndedWell(t) ==> hook.Id() in c.jobs && c.jobs[hook.Id()].succeeded > 0
      decreases t.Weight()
    {
      ghost var t1, e1, m1 := t, c.events, c.configMaps;
      t := Step(c, hook, t, crew);
      WorkedTransitively(c.scheme, crew, old(c.events), old(c.configMaps), e1, m1, c.events, c.configMaps);
      ThreadLogGrows(hook, t1, t, e1, c.events, |old(c.events)|);
    }
    return t.status, t.result;
  }

  // ---------------------------------------------------------------- many threads

  function TotalWeight(ts: seq<Thread>): nat {
    if ts == [] then 0 else ts[0].Weight() + TotalWeight(ts[1..])
  }

  lemma {:induction false} LighterByOne(ts: seq<Thread>, i: nat, t: Thread)
    requires i < |ts| && t.Weight() < ts[i].Weight()
    ensures TotalWeight(ts[i := t]) < TotalWeight(ts)
  {
    if i == 0 {
      assert ts[0 := t][1..] == ts[1..];
    } else {
      assert ts[i := t][1..] == ts[1..][i - 1 := t];
      LighterByOne(ts[1..], i - 1, t);
    }
  }

  ghost predicate AllCoherent(scheme: Scheme, crew: Crew, hooks: seq<HookJob>, ts: seq<Thread>,
          configs: map<Key, HookConfig>)
  {
    && |ts| == |hooks|
    && forall i :: 0 <= i < |hooks| ==>
        InCrew(scheme, crew, hooks[i]) && Coherent(scheme, crew, hooks[i], ts[i], configs)
  }

  /** The results array holds what the threads that are through have delivered. */
  predicate Delivered(ts: seq<Thread>, results: seq<HookStatus>) {
    |results| == |ts| && forall i :: 0 <= i < |ts| && ts[i].stage.Finished? ==> results[i] == ts[i].status
  }

  /** The first error reported, if any thread failed. */
  predicate FirstFailure(ts: seq<Thread>, failure: Result<()>) {
    failure.Ok? <==> forall i :: 0 <= i < |ts| && ts[i].stage.Finished? ==> ts[i].result.Ok?
  }

  ghost predicate AllLogged(hooks: seq<HookJob>, ts: seq<Thread>, events: seq<Event>, lo: nat) {
    |ts| == |hooks| && forall i :: 0 <= i < |ts| ==> ThreadLog(hooks[i], ts[i], events, lo)
  }

  lemma AllLoggedStay(hooks: seq<HookJob>, ts: seq<Thread>, ts': seq<Thread>, i: nat, events: seq<Event>,
          later: seq<Event>, lo: nat)
    requires AllLogged(hooks, ts, events, lo) && i < |ts| == |ts'| && ts' == ts[i := ts'[i]] && lo <= |events|
      && events <= later
    requires Logged(hooks[i], ts[i], ts'[i], events, later)
    ensures AllLogged(hooks, ts', later, lo)
  {
    forall k | 0 <= k < |ts'| ensures ThreadLog(hooks[k], ts'[k], later, lo) {
      if k == i {
        ThreadLogGrows(hooks[i], ts[i], ts'[i], events, later, lo);
      } else {
        ThreadLogStays(hooks[k], ts[k], events, later, lo);
      }
    }
  }

  /** Some thread, whichever the scheduler picks, makes its next step. */
  method StepSome(c: Cluster, hooks: seq<HookJob>, ts: seq<Thread>, i: nat, ghost crew: Crew) returns (ts': seq<Thread>)
    requires i < |ts| && !ts[i].stage.Finished? && AllCoherent(c.scheme, crew, hooks, ts, c.configMaps)
    modifies c`configMaps, c`jobs, c`events
    ensures |ts'| == |ts| && ts' == ts[i := ts'[i]] && TotalWeight(ts') < TotalWeight(ts)
    ensures AllCoherent(c.scheme, crew, hooks, ts', c.configMaps)
    ensures Worked(c.scheme, crew, old(c.events), old(c.configMaps), c.events, c.configMaps)
    ensures Logged(hooks[i], ts[i], ts'[i], old(c.events), c.events)
  {
    var t := Step(c, hooks[i], ts[i], crew);
    forall k | 0 <= k < |ts| && k != i ensures Coherent(c.scheme, crew, hooks[k], ts[k], c.configMaps) {
      StaysCoherent(c.scheme, crew, hooks[k], ts[k], old(c.configMaps), c.configMaps);
    }
    LighterByOne(ts, i, t);
    ts' := ts[i := t];
  }

  predicate Running(ts: seq<Thread>) {
    exists i :: 0 <= i < |ts| && !ts[i].stage.Finished?
  }

  /** What the threads have come to, seen from the start of the fan-out. */
  ghost predicate Underway(scheme: Scheme, crew: Crew, hooks: seq<HookJob>, ts: seq<Thread>, failure: Result<()>,
          results: seq<HookStatus>, e0: seq<Event>, m0: map<Key, HookConfig>, e1: seq<Event>, m1: map<Key, HookConfig>)
  {
    && AllCoherent(scheme, crew, hooks, ts, m1) && AllLogged(hooks, ts, e1, |e0|)
    && Delivered(ts, results) && FirstFailure(ts, failure)
    && Worked(scheme, crew, e0, m0, e1, m1)
  }

  lemma OneMoreDelivered(ts: seq<Thread>, failure: Result<()>, results: seq<HookStatus>, ts': seq<Thread>, i: nat)
    requires Delivered(ts, results) && FirstFailure(ts, failure) && i < |ts| && !ts[i].stage.Finished?
    requires |ts'| == |ts| && ts' == ts[i := ts'[i]]
    ensures ts'[i].stage.Finished? ==>
      Delivered(ts', results[i := ts'[i].status]) && FirstFailure(ts', if failure.Ok? then ts'[i].result else failure)
    ensures !ts'[i].stage.Finished? ==> Delivered(ts', results) && FirstFailure(ts', failure)
  {
    if failure.Err? {
      var k :| 0 <= k < |ts| && ts[k].stage.Finished? && ts[k].result.Err?;
      assert ts'[k] == ts[k];
    }
  }

  lemma StillUnderway(scheme: Scheme, crew: Crew, hooks: seq<HookJob>, ts: seq<Thread>, failure: Result<()>,
          results: seq<HookStatus>, e0: seq<Event>, m0: map<Key, HookConfig>, e1: seq<Event>, m1: map<Key, HookConfig>,
          ts': seq<Thread>, i: nat, e2: seq<Event>, m2: map<Key, HookConfig>)
    requires Underway(scheme, crew, hooks, ts, failure, results, e0, m0, e1, m1) && i < |ts| && !ts[i].stage.Finished?
    requires |ts'| == |ts| && ts' == ts[i := ts'[i]] && AllCoherent(scheme, crew, hooks, ts', m2)
    requires Worked(scheme, crew, e1, m1, e2, m2)
    requires Logged(hooks[i], ts[i], ts'[i], e1, e2)
    ensures ts'[i].stage.Finished? ==>
      Underway(scheme, crew, hooks, ts', if failure.Ok? then ts'[i].result else failure,
        results[i := ts'[i].status], e0, m0, e2, m2)
    ensures !ts'[i].stage.Finished? ==> Underway(scheme, crew, hooks, ts', failure, results, e0, m0, e2, m2)
  {
    WorkedTransitively(scheme, crew, e0, m0, e1, m1, e2, m2);
    AllLoggedStay(hooks, ts, ts', i, e1, e2, |e0|);
    OneMoreDelivered(ts, failure, results, ts', i);
  }

  /** The threads that are through, in the order in which they ended. */
  ghost predicate Ended(order: seq<nat>, ts: seq<Thread>) {
    && (forall k :: 0 <= k < |order| ==> order[k] < |ts|)
    && (forall i :: 0 <= i < |ts| ==> (ts[i].stage.Finished? <==> i in order))
  }

  lemma OneMoreEnded(order: seq<nat>, ts: seq<Thread>, ts': seq<Thread>, i: nat)
    requires Ended(order, ts) && i < |ts| == |ts'| && ts' == ts[i := ts'[i]] && !ts[i].stage.Finished?
    ensures ts'[i].stage.Finished? ==> Ended(order + [i], ts')
    ensures !ts'[i].stage.Finished? ==> Ended(order, ts')
  {
    if ts'[i].stage.Finished? {
      assert (order + [i])[|order|] == i;
      forall k | 0 <= k < |ts'| ensures ts'[k].stage.Finished? <==> k in order + [i] {
        if k != i { assert ts'[k] == ts[k] && (k in order + [i] <==> k in order); }
      }
    }
  }

  function Statuses(ts: seq<Thread>): seq<HookStatus> { seq(|ts|, i requires 0 <= i < |ts| => ts[i].status) }

  function Blanks(hooks: seq<HookJob>): seq<HookStatus>
  {
    seq(|hooks|, i requires 0 <= i < |hooks| => BlankStatus(hooks[i]))
  }

  /** When all are through, the array holds what delivering in their order into blank entries
      comes to: each thread's own status. */
  lemma AllDelivered(hooks: seq<HookJob>, ts: seq<Thread>, results: seq<HookStatus>, order: seq<nat>)
    requires |ts| == |hooks| && Delivered(ts, results) && !Running(ts) && Ended(order, ts)
    ensures Completes(order, |ts|) && results == Statuses(ts) == Deliver(Blanks(hooks), Statuses(ts), order)
  {
    forall i | 0 <= i < |ts| ensures i in order && results[i] == Statuses(ts)[i] {
      assert ts[i].stage.Finished?;
    }
    CompletionOrderDoesNotShow([], Blanks(hooks), Statuses(ts), order);
  }

  /** What a thread delivers when it ends: its status at its own index, and its error if it is the first. */
  method DeliverResult(results: array<HookStatus>, failure: Result<()>, t: Thread, i: nat)
    returns (failure': Result<()>)
    requires i < results.Length
    modifies results
    ensures results[..] == if t.stage.Finished? then old(results[..])[i := t.status] else old(results[..])
    ensures failure' == if t.stage.Finished? && failure.Ok? then t.result else failure
  {
    failure' := failure;
    if t.stage.Finished? {
      results[i] := t.status;
      if failure.Ok? {
        failure' := t.result;
      }
    }
  }

  /** One turn of the scheduler. */
  method Turn(c: Cluster, hooks: seq<HookJob>, ts: seq<Thread>, results: array<HookStatus>, failure: Result<()>,
          ghost crew: Crew, ghost e0: seq<Event>, ghost m0: map<Key, HookConfig>, ghost order: seq<nat>)
    returns (ts': seq<Thread>, failure': Result<()>, ghost order': seq<nat>)
    requires Running(ts) && Underway(c.scheme, crew, hooks, ts, failure, results[..], e0, m0, c.events, c.configMaps)
    requires Ended(order, ts)
    modifies c`configMaps, c`jobs, c`events, results
    ensures Underway(c.scheme, crew, hooks, ts', failure', results[..], e0, m0, c.events, c.configMaps)
    ensures TotalWeight(ts') < TotalWeight(ts) && Ended(order', ts')
  {
    var i :| 0 <= i < |ts| && !ts[i].stage.Finished?;
    ghost var e1, m1, delivered := c.events, c.configMaps, results[..];
    ts' := StepSome(c, hooks, ts, i, crew);
    StillUnderway(c.scheme, crew, hooks, ts, failure, delivered, e0, m0, e1, m1, ts', i, c.events, c.configMaps);
    OneMoreEnded(order, ts, ts', i);
    order' := if ts'[i].stage.Finished? then order + [i] else order;
    failure' := DeliverResult(results, failure, ts'[i], i);
  }

  /**
   All threads, interleaved in any order; each delivers its status at its own index. Once one has
   failed the others may find their calls cancelled, which is among what a call may answer anyway.
   */
  method ExecuteAll(c: Cluster, hooks: seq<HookJob>, ghost crew: Crew)
    returns (results: array<HookStatus>, failure: Result<()>, ghost ts: seq<Thread>, ghost order: seq<nat>)
    requires forall i :: 0 <= i < |hooks| ==>
      InCrew(c.scheme, crew, hooks[i]) && Grounded(crew.wants, hooks[i], c.configMaps)
    modifies c`configMaps, c`jobs, c`events
    ensures fresh(results) && |ts| == |hooks| && !Running(ts)
    ensures Completes(order, |hooks|) && results[..] == Statuses(ts) == Deliver(Blanks(hooks), Statuses(ts), order)
    ensures Underway(c.scheme, crew, hooks, ts, failure, results[..], old(c.events), old(c.configMaps), c.events,
      c.configMaps)
  {
    ghost var e0, m0 := c.events, c.configMaps;
    var threads: seq<Thread> := [];
    for i := 0 to |hooks|
      invariant |threads| == i
      invariant forall k :: 0 <= k < i ==>
        threads[k].stage.FetchingConfig? && threads[k].status == BlankStatus(hooks[k])
    {
      var polls: nat := *;
      threads := threads + [Unstarted(hooks[i], polls)];
    }
    results := new HookStatus[|hooks|](i requires 0 <= i < |hooks| => BlankStatus(hooks[i]));
    failure := Ok(());
    order := [];
    assert Underway(c.scheme, crew, hooks, threads, failure, results[..], e0, m0, c.events, c.configMaps);
    while Running(threads)
      invariant fresh(results) && Ended(order, threads)
      invariant Underway(c.scheme, crew, hooks, threads, failure, results[..], e0, m0, c.events, c.configMaps)
      decreases TotalWeight(threads)
    {
      threads, failure, order := Turn(c, hooks, threads, results, failure, crew, e0, m0, order);
    }
    ts := threads;
    AllDelivered(hooks, ts, results[..], order);
  }
}
