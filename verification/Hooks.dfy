/** Deciding which hooks run, running them, and recording what came of them. */
module Hooks {
  import opened Api
  import opened Calendar
  import opened HookJobs
  import opened HookList
  import opened Kube
  import opened Names
  import opened StatusManager

  // ---------------------------------------------------------------- what the spec asks for

  datatype Env = Env(scheme: Scheme, namespace: string, spec: Spec)

  function EnvOf(c: Cluster, obj: RestoreObject): Env { Env(c.scheme, obj.namespace, obj.spec) }

  /** A hook of the spec, before its command and arguments are looked up. */
  function JobOf(env: Env, plan: string, hook: string): HookJob
    requires plan in env.spec && hook in env.spec[plan].hooks
  {
    var s := env.spec[plan].hooks[hook];
    HookJob(env.scheme.jobName(plan, hook), env.namespace, s.args, env.scheme.checksum(s.command, s.args), s.command,
            s.event, s.image, s.mutable, s.nodeAccess, plan, s.restartPolicy)
  }

  predicate InSpec(env: Env, event: HookEvent, plan: string, hook: string) {
    plan in env.spec && hook in env.spec[plan].hooks && env.spec[plan].hooks[hook].event == event
  }

  /** `h` stands for some hook of the spec. */
  ghost predicate FromSpec(env: Env, event: HookEvent, h: HookJob) {
    exists hook :: InSpec(env, event, h.planName, hook) && h == JobOf(env, h.planName, hook)
  }

  /** The name of the Job of a hook, or of its Job on one node. */
  predicate Derives(env: Env, h: HookJob, node: Option<string>, id: Key) {
    && (h.nodeAccess.Some? <==> node.Some?)
    && id == Key(env.namespace, if node.Some? then env.scheme.nodeName(h.name, node.value) else h.name)
  }

  /** Some mutable hook of the spec derives this name. */
  ghost predicate MutableName(env: Env, id: Key) {
    exists event, h, node :: FromSpec(env, event, h) && h.mutable && Derives(env, h, node, id)
  }

  /**
   A recorded result that every hook deriving its key takes as done: it succeeded, and for a mutable
   hook after the restore the checksum is still that of the spec.
   */
  ghost predicate Rests(env: Env, plan: string, id: Key, event: HookEvent, e: HookStatus) {
    && e.succeeded != 0
    && forall h, node :: FromSpec(env, event, h) && h.planName == plan && Derives(env, h, node, id) ==>
         !(h.mutable && event.PostRestore? && e.checksum != h.checksum)
  }

  // ---------------------------------------------------------------- listing the hooks of an event

  ghost predicate Ascending(names: seq<string>) {
    forall i, j :: 0 <= i < j < |names| ==> Less(names[i], names[j])
  }

  lemma {:induction false} LeastExists(s: set<string>)
    requires s != {}
    ensures exists x :: x in s && forall y :: y in s ==> !Less(y, x)
    decreases |s|
  {
    var x :| x in s;
    var rest := s - {x};
    if rest == {} {
      LessTotal(x, x);
      assert forall y :: y in s ==> y == x || y in rest;
    } else {
      LeastExists(rest);
      var m :| m in rest && forall y :: y in rest ==> !Less(y, m);
      LessTotal(x, m);
      var least := if Less(x, m) then x else m;
      forall y | y in s ensures !Less(y, least) {
        if y == x {
          LessTotal(x, x);
        } else if Less(x, m) {
          NotAboveTransitive(x, m, y);
        }
      }
      assert least in s;
    }
  }

  method SortedNames(s: set<string>) returns (names: seq<string>)
    ensures Enumerates(names, s) && Ascending(names)
  {
    names := [];
    var rest := s;
    while rest != {}
      invariant rest <= s && Enumerates(names, s - rest) && Ascending(names)
      invariant forall i, y :: 0 <= i < |names| && y in rest ==> Less(names[i], y)
      decreases |rest|
    {
      LeastExists(rest);
      var x :| x in rest && forall y :: y in rest ==> !Less(y, x);
      forall y | y in rest && y != x ensures Less(x, y) { LessTotal(x, y); }
      names := names + [x];
      rest := rest - {x};
    }
    assert s - {} == s;
  }

  /** Plans in ascending order, and within a plan its hooks. */
  predicate Before(a: (string, string), b: (string, string)) {
    Less(a.0, b.0) || (a.0 == b.0 && Less(a.1, b.1))
  }

  /** `jobs` are the hooks of the event, `from` says which; all of them, each once, in ascending order. */
  ghost predicate Lists(env: Env, event: HookEvent, jobs: seq<HookJob>, from: seq<(string, string)>) {
    && InOrder(from) && Listed(env, event, jobs, from)
    && (forall plan, hook :: InSpec(env, event, plan, hook) ==> (plan, hook) in from)
  }

  /** The hooks of the event in ascending order of plan and hook name. */
  ghost predicate ListsAll(env: Env, event: HookEvent, jobs: seq<HookJob>) {
    exists from :: Lists(env, event, jobs, from)
  }

  ghost predicate Listed(env: Env, event: HookEvent, jobs: seq<HookJob>, from: seq<(string, string)>) {
    && |jobs| == |from|
    && (forall i :: 0 <= i < |from| ==> IsListed(env, event, jobs[i], from[i]))
  }

  predicate IsListed(env: Env, event: HookEvent, job: HookJob, from: (string, string)) {
    InSpec(env, event, from.0, from.1) && job == JobOf(env, from.0, from.1)
  }

  ghost predicate InOrder(from: seq<(string, string)>) {
    forall i, j :: 0 <= i < j < |from| ==> Before(from[i], from[j])
  }

  /** The entries after the first `n` are those of the first `i` hooks of the plan. */
  ghost predicate FromPlan(from: seq<(string, string)>, n: nat, plan: string, hooks: seq<string>, i: nat)
    requires i <= |hooks|
  {
    n <= |from| && forall k :: n <= k < |from| ==> from[k].0 == plan && from[k].1 in hooks[..i]
  }

  lemma OneMoreInOrder(from: seq<(string, string)>, n: nat, plan: string, hooks: seq<string>, i: nat)
    requires i < |hooks| && Ascending(hooks) && FromPlan(from, n, plan, hooks, i) && InOrder(from)
    requires forall k :: 0 <= k < n ==> Less(from[k].0, plan)
    ensures FromPlan(from, n, plan, hooks, i + 1)
    ensures InOrder(from + [(plan, hooks[i])]) && FromPlan(from + [(plan, hooks[i])], n, plan, hooks, i + 1)
  {
    forall x | x in hooks[..i] ensures Less(x, hooks[i]) {
    }
    forall k | 0 <= k < |from| ensures Before(from[k], (plan, hooks[i])) {
    }
    assert hooks[..i + 1] == hooks[..i] + [hooks[i]];
  }

  method NewJob(c: Cluster, obj: RestoreObject, event: HookEvent, planName: string, hookName: string)
    returns (job: HookJob)
    requires InSpec(EnvOf(c, obj), event, planName, hookName)
    ensures IsListed(EnvOf(c, obj), event, job, (planName, hookName))
  {
    var settings := obj.spec[planName].hooks[hookName];
    var sum := c.scheme.checksum(settings.command, settings.args);
    job := HookJob(c.scheme.jobName(planName, hookName), obj.namespace, settings.args, sum, settings.command,
                   event, settings.image, settings.mutable, settings.nodeAccess, planName, settings.restartPolicy);
  }

  /** Where the inner loop stands: the first `i` hooks of the plan are looked at. */
  ghost predicate Appended(env: Env, event: HookEvent, jobs: seq<HookJob>, from: seq<(string, string)>,
                           n: nat, plan: string, hooks: seq<string>, i: nat)
    requires i <= |hooks|
  {
    && Listed(env, event, jobs, from) && InOrder(from) && FromPlan(from, n, plan, hooks, i)
    && (forall k :: 0 <= k < i && InSpec(env, event, plan, hooks[k]) ==> (plan, hooks[k]) in from)
  }

  lemma OneMoreAppended(env: Env, event: HookEvent, jobs: seq<HookJob>, from: seq<(string, string)>,
                        n: nat, plan: string, hooks: seq<string>, i: nat, job: HookJob)
    requires i < |hooks| && Ascending(hooks) && Appended(env, event, jobs, from, n, plan, hooks, i)
    requires forall k :: 0 <= k < n ==> Less(from[k].0, plan)
    ensures !InSpec(env, event, plan, hooks[i]) ==> Appended(env, event, jobs, from, n, plan, hooks, i + 1)
    ensures IsListed(env, event, job, (plan, hooks[i])) ==>
      Appended(env, event, jobs + [job], from + [(plan, hooks[i])], n, plan, hooks, i + 1)
  {
    OneMoreInOrder(from, n, plan, hooks, i);
  }

  /** The inner loop: the hooks of one plan, after those of the plans before it. */
  method AppendPlanHooks(c: Cluster, obj: RestoreObject, event: HookEvent, planName: string,
                         jobs: seq<HookJob>, ghost from: seq<(string, string)>)
    returns (jobs': seq<HookJob>, ghost from': seq<(string, string)>)
    requires planName in obj.spec && Listed(EnvOf(c, obj), event, jobs, from) && InOrder(from)
    requires forall i :: 0 <= i < |from| ==> Less(from[i].0, planName)
    ensures Listed(EnvOf(c, obj), event, jobs', from') && InOrder(from') && from <= from'
    ensures forall i :: |from| <= i < |from'| ==> from'[i].0 == planName
    ensures forall hook :: InSpec(EnvOf(c, obj), event, planName, hook) ==> (planName, hook) in from'
  {
    ghost var env := EnvOf(c, obj);
    var hookNames := SortedNames(obj.spec[planName].hooks.Keys);
    jobs', from' := jobs, from;
    for i := 0 to |hookNames|
      invariant from <= from' && Appended(env, event, jobs', from', |from|, planName, hookNames, i)
    {
      assert hookNames[i] in obj.spec[planName].hooks.Keys;
      if obj.spec[planName].hooks[hookNames[i]].event == event {
        var job := NewJob(c, obj, event, planName, hookNames[i]);
        OneMoreAppended(env, event, jobs', from', |from|, planName, hookNames, i, job);
        jobs', from' := jobs' + [job], from' + [(planName, hookNames[i])];
      } else {
        OneMoreAppended(env, event, jobs', from', |from|, planName, hookNames, i, JobOf(env, planName, hookNames[i]));
      }
    }
    forall hook | InSpec(env, event, planName, hook) ensures (planName, hook) in from' {
      assert hook in obj.spec[planName].hooks.Keys;
      var k :| 0 <= k < |hookNames| && hookNames[k] == hook;
    }
  }

  /**
   The list in terms of the spec, field by field: `from` has every hook of the event, each once and in
   ascending order, and what is listed for it has the settings the spec gives it.
   */
  ghost predicate AreHooksOf(scheme: Scheme, ns: string, spec: Spec, event: HookEvent, jobs: seq<HookJob>,
                             from: seq<(string, string)>) {
    && |jobs| == |from|
    && (forall plan, hook ::
        plan in spec && hook in spec[plan].hooks && spec[plan].hooks[hook].event == event ==> (plan, hook) in from)
    && (forall i, j :: 0 <= i < j < |from| ==>
        Less(from[i].0, from[j].0) || (from[i].0 == from[j].0 && Less(from[i].1, from[j].1)))
    && (forall i :: 0 <= i < |from| ==> IsHookOf(scheme, ns, spec, event, jobs[i], from[i].0, from[i].1))
  }

  /** Each setting of the hook is the one the spec gives it. */
  predicate IsHookOf(scheme: Scheme, ns: string, spec: Spec, event: HookEvent, h: HookJob, plan: string, hook: string) {
    && plan in spec && hook in spec[plan].hooks
    && var s := spec[plan].hooks[hook];
       && h.command == s.command && h.args == s.args && h.checksum == scheme.checksum(s.command, s.args)
       && h.event == s.event == event && h.image == s.image && h.mutable == s.mutable
       && h.nodeAccess == s.nodeAccess && h.restartPolicy == s.restartPolicy
       && h.planName == plan && h.namespace == ns && h.name == scheme.jobName(plan, hook)
  }

  lemma ListedFieldByField(env: Env, event: HookEvent, jobs: seq<HookJob>, from: seq<(string, string)>)
    requires Lists(env, event, jobs, from)
    ensures AreHooksOf(env.scheme, env.namespace, env.spec, event, jobs, from)
  {
    forall plan, hook |
      plan in env.spec && hook in env.spec[plan].hooks && env.spec[plan].hooks[hook].event == event
      ensures (plan, hook) in from
    {
      assert InSpec(env, event, plan, hook);
    }
    forall i, j | 0 <= i < j < |from|
      ensures Less(from[i].0, from[j].0) || (from[i].0 == from[j].0 && Less(from[i].1, from[j].1))
    {
      assert Before(from[i], from[j]);
    }
    forall i | 0 <= i < |from|
      ensures IsHookOf(env.scheme, env.namespace, env.spec, event, jobs[i], from[i].0, from[i].1)
    {
      assert IsListed(env, event, jobs[i], from[i]);
    }
  }

  method SetupRestoreHooks(c: Cluster, obj: RestoreObject, event: HookEvent)
    returns (r: Result<seq<HookJob>>, ghost from: seq<(string, string)>)
    ensures r.Ok? ==> ListsAll(EnvOf(c, obj), event, r.value)
    ensures r.Ok? ==> Lists(EnvOf(c, obj), event, r.value, from)
    ensures r.Ok? ==> AreHooksOf(c.scheme, obj.namespace, obj.spec, event, r.value, from)
  {
    from := [];
    if * { var e := Cluster.Fault(); return Err(e), []; }
    ghost var env := EnvOf(c, obj);
    var jobs := [];
    var planNames := SortedNames(obj.spec.Keys);
    for i := 0 to |planNames|
      invariant Listed(env, event, jobs, from) && InOrder(from)
      invariant forall k :: 0 <= k < |from| ==> from[k].0 in planNames[..i]
      invariant forall k, hook :: 0 <= k < i && InSpec(env, event, planNames[k], hook) ==> (planNames[k], hook) in from
    {
      assert planNames[i] in obj.spec.Keys;
      assert planNames[..i + 1] == planNames[..i] + [planNames[i]];
      assert forall p :: p in planNames[..i] ==> Less(p, planNames[i]);
      jobs, from := AppendPlanHooks(c, obj, event, planNames[i], jobs, from);
    }
    forall plan, hook | InSpec(env, event, plan, hook) ensures (plan, hook) in from {
      assert plan in obj.spec.Keys;
      var k :| 0 <= k < |planNames| && planNames[k] == plan;
    }
    assert Lists(env, event, jobs, from);
    ListedFieldByField(env, event, jobs, from);
    return Ok(jobs), from;
  }

  lemma ListedAreFromSpec(env: Env, event: HookEvent, jobs: seq<HookJob>, from: seq<(string, string)>)
    requires Lists(env, event, jobs, from)
    ensures forall i :: 0 <= i < |jobs| ==> FromSpec(env, event, jobs[i])
    ensures forall h :: FromSpec(env, event, h) ==> h in jobs
  {
    forall i | 0 <= i < |jobs| ensures FromSpec(env, event, jobs[i]) {
      assert IsListed(env, event, jobs[i], from[i]);
      assert InSpec(env, event, jobs[i].planName, from[i].1);
    }
    forall h | FromSpec(env, event, h) ensures h in jobs {
      var hook :| InSpec(env, event, h.planName, hook) && h == JobOf(env, h.planName, hook);
      var i :| 0 <= i < |from| && from[i] == (h.planName, hook);
      assert IsListed(env, event, jobs[i], from[i]);
    }
  }

  // ---------------------------------------------------------------- skip or run

  datatype SkipReason = NoPriorStatus | AlreadyRestored | PreviousRunFailed | ChecksumChanged | AlreadySucceeded
    | NewHook

  /** Done already, or no longer of use. */
  predicate Skips(st: Status, plan: string, name: string, event: HookEvent, mutable: bool, checksum: string) {
    && plan in st.plans
    && ((st.plans[plan].lock && event.PreRestore?)
        || ShowsDone(Find(st.plans[plan].hooks, name, event), event, mutable, checksum))
  }

  predicate ShowsDone(entry: Option<HookStatus>, event: HookEvent, mutable: bool, checksum: string) {
    && entry.Some? && entry.value.succeeded != 0
    && !(mutable && event.PostRestore? && entry.value.checksum != checksum)
  }

  method HookSkipReason(obj: RestoreObject, planName: string, hookName: string, event: HookEvent, mutable: bool,
          checksum: string)
    returns (skip: bool, reason: SkipReason)
    ensures skip == Skips(obj.status, planName, hookName, event, mutable, checksum)
    ensures skip <==>
      && planName in obj.status.plans
      && var plan := obj.status.plans[planName];
         var entry := Find(plan.hooks, hookName, event);
         || (plan.lock && event == PreRestore)
         || (entry.Some? && entry.value.succeeded != 0
             && (mutable && event == PostRestore ==> entry.value.checksum == checksum))
    ensures skip <==> reason in {AlreadyRestored, AlreadySucceeded}
  {
    if planName !in obj.status.plans {
      return false, NoPriorStatus;
    }
    var plan := obj.status.plans[planName];
    if plan.lock && event.PreRestore? {
      return true, AlreadyRestored;
    }
    for i := 0 to |plan.hooks|
      invariant Find(plan.hooks, hookName, event) == Find(plan.hooks[i..], hookName, event)
    {
      var h := plan.hooks[i];
      assert plan.hooks[i..][1..] == plan.hooks[i + 1..];
      if h.name != hookName || h.event != event {
        continue;
      }
      if h.succeeded == 0 {
        return false, PreviousRunFailed;
      }
      if mutable && event.PostRestore? && h.checksum != checksum {
        return false, ChecksumChanged;
      }
      return true, AlreadySucceeded;
    }
    return false, NewHook;
  }
}
