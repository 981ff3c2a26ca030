/** The custom resource: the types of `api/v1alpha1`, and the result type every API call returns. */
module Api {

  datatype Option<+T> = None | Some(value: T)

  /** The errors the managers tell apart; every other failure carries only its text. */
  datatype Error = NotFound | AlreadyExists | Other(text: string)
  {
    function Text(): string {
      match this
      case NotFound => "not found"
      case AlreadyExists => "already exists"
      case Other(text) => text
    }
  }

  datatype Result<+T> = Ok(value: T) | Err(error: Error)
  {
    predicate IsFailure() { Err? }

    function PropagateFailure<U>(): Result<U>
      requires Err?
    {
      Err(error)
    }

    function Extract(): T
      requires Ok?
    {
      value
    }
  }

  /** A namespaced object name. */
  datatype Key = Key(namespace: string, name: string)

  type Labels = map<string, string>
  type Selector = string

  // ---------------------------------------------------------------- spec

  datatype HookEvent = PreRestore | PostRestore

  datatype PodPolicy = Unspecified | OrderedReady | Parallel

  /** One workload of a plan. `nodeSelector` of a hook and `claimSelector` here are left abstract. */
  datatype Target = Target(
    name: string,
    kind: string,
    replicas: int,
    namespace: string,
    skipRestoringPVCs: seq<string>,
    skipWaitScaleDown: bool,
    skipWaitScaleUp: bool,
    pvcStorageClass: Option<string>,
    parallelPodManagement: bool,
    claimSelector: Option<Selector>)
  {
    function Id(): Key { Key(namespace, name) }
  }

  datatype HookSettings = HookSettings(
    args: seq<string>,
    command: seq<string>,
    event: HookEvent,
    image: string,
    mutable: bool,
    nodeAccess: Option<Selector>,
    restartPolicy: string)

  datatype RestorePlan = RestorePlan(
    clusters: seq<Target>,
    operators: seq<Target>,
    hooks: map<string, HookSettings>,
    snapshotRestoreTime: string)

  type Spec = map<string, RestorePlan>

  // ---------------------------------------------------------------- status

  datatype Phase =
    | Unset | Completed | Failed | Idle | Restored | Restoring | ScalingDown | ScaledDown
    | RunningPreHooks | RunningPostHooks | ScalingUp | Validated | Validating

  datatype SnapshotRef = SnapshotRef(
    snapshotUID: string,
    snapshotName: string,
    pvcName: string,
    pvcStorageClass: Option<string>,
    skipRestoringPVC: bool)

  datatype TargetStatus = TargetStatus(
    name: string,
    namespace: string,
    kind: string,
    snapshotsRef: seq<SnapshotRef>,
    podManagementPolicy: PodPolicy,
    originalReplicas: int,
    currentReplicas: int,
    phase: Phase,
    error: string)

  datatype HookStatus = HookStatus(
    name: string,
    namespace: string,
    checksum: string,
    event: HookEvent,
    failed: int,
    image: string,
    mutable: bool,
    restartPolicy: string,
    succeeded: int,
    configMapRef: Key)

  datatype PlanStatus = PlanStatus(
    snapshotRestoreTime: string,
    lock: bool,
    countScaleUp: int,
    clusters: seq<TargetStatus>,
    operators: seq<TargetStatus>,
    hooks: seq<HookStatus>)

  datatype Status = Status(phase: Phase, activePlan: string, plans: map<string, PlanStatus>)

  /** The zero value a Go map lookup yields for a plan without an entry. */
  const ZERO_PLAN := PlanStatus("", false, 0, [], [], [])

  function PlanOf(st: Status, plan: string): PlanStatus {
    if plan in st.plans then st.plans[plan] else ZERO_PLAN
  }

  /** A target status speaks about the target it was built for. */
  predicate Describes(st: TargetStatus, t: Target) {
    st.name == t.name && st.namespace == t.namespace && st.kind == t.kind
  }

  predicate DescribesAll(sts: seq<TargetStatus>, ts: seq<Target>) {
    |sts| == |ts| && forall i :: 0 <= i < |ts| ==> Describes(sts[i], ts[i])
  }

  /** Position by position, a plan status lists the workloads of the plan. */
  predicate Aligned(plan: RestorePlan, st: PlanStatus) {
    DescribesAll(st.clusters, plan.clusters) && DescribesAll(st.operators, plan.operators)
  }
}
