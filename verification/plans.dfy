/**
 * Orchestration plans: an executor's task signature as data. A chain runs
 * its steps in order; a group runs its branches side by side, each branch a
 * chain. Resources are named by a target string.
 *
 * The predicates below state what a plan does independently of how it is
 * built: whether it calls the backend, which state transitions it applies
 * to a target, which labelled steps precede which, and whether every
 * resource is marked OK only after a poll saw it available.
 */
module Plans {
  import opened Wrappers

  /** The backend methods, state pulls and deletion checks the plans call. */
  datatype Method =
    | CreateSecurityGroup | UpdateSecurityGroup | DeleteSecurityGroup
    | CreateTenant | AddAdminUserToTenant | CreateTenantUser | UpdateTenant | PushTenantQuotas
    | PullTenantSecurityGroups | ConnectTenantToExternalNetwork
    | DeleteTenantFloatingIps | DeleteTenantPorts | DeleteTenantRouters | DeleteTenantNetworks
    | DeleteTenantSecurityGroups | DeleteTenantInstances | DeleteTenantSnapshots | DeleteTenantVolumes
    | DeleteTenantUser | DeleteTenant
    | CreateNetwork | DeleteNetwork | CreateSubnet | DeleteSubnet
    | CreateVolume | UpdateVolume | DeleteVolume | PullVolume | ExtendVolume
    | DetachInstanceVolume | AttachInstanceVolume | DetachVolume | AttachVolume
    | CreateSnapshot | UpdateSnapshot | DeleteSnapshot
    | CreateInstance | DeleteInstance | ResizeInstance | ConfirmInstanceResize
    | CreateVolumeBackup | PullVolumeBackupRecord | DeleteVolumeBackup | ImportVolumeBackupFromRecord
    | PullVolumeRuntimeState | PullSnapshotRuntimeState | PullVolumeBackupRuntimeState | PullInstanceRuntimeState
    | IsVolumeDeleted | IsSnapshotDeleted | IsInstanceDeleted | IsVolumeBackupDeleted
    | AllocateFloatingIpAddress | CreateExternalNetwork | DeleteExternalNetwork | DetectExternalNetwork
    | PullTenant | PullTenantFloatingIps | PullTenantQuotas
    | UpdateNetwork | PullNetwork | UpdateSubnet | PullSubnet | PullSnapshot

  /** The state-machine transitions a plan applies. */
  datatype Fsm =
    | BeginCreating | BeginUpdating | BeginDeleting | BeginResizing | BeginProvisioning
    | SetOk | SetOnline | SetResized
    | ScheduleDeletion | ScheduleDeleting | ScheduleResizing | ScheduleUpdating

  /** The module's own tasks a plan runs. */
  datatype TaskName =
    | SetBackupErred | ForceDeleteBackup | SetBackupRestorationErred
    | CleanUpDRBackup | SetDRBackupErred | ForceDeleteDRBackup
    | CreateInstanceFromVolumes | SetDRBackupRestorationErred | RestoreVolumeBackup | RestoreVolumeOriginName
    | LogFlavorChangeSucceeded | LogFlavorChangeFailed | LogVolumeExtendSucceeded | LogVolumeExtendFailed
    | TenantCreateError

  /** Backend runtime states a poll waits for or fails on. */
  datatype Runtime = Available | ErrorState | ErrorRestoring | InUse | VerifyResize | Shutoff | ErredState

  /** Keyword arguments a backend call is given. */
  datatype Arg =
    | Force
    | NewSize(size: int)
    | Device(device: string)
    | InstanceUuid(uuid: string)
    | BackendVolumeId(id: string)
    | ExternalNetworkId(id: string)
    | QuotaLimits
    | BackendFlavorId(id: string)
    | PublicKey
    | FloatingIpUuid(uuid: string)
    | SkipExternalIp(skip: bool)
    | DryRun(dry: bool)

  /**
   * One task of a plan. `RunExecutor` runs the security-group create
   * executor on its target; `RuntimeChange` only records a runtime state.
   */
  datatype Step =
    | Backend(target: string, call: Method, transition: Option<Fsm>, args: seq<Arg>)
    | Throttled(target: string, call: Method, transition: Option<Fsm>)
    | Transition(target: string, name: Fsm)
    | RuntimeChange(target: string, runtimeState: string)
    | PollRuntime(target: string, pull: Method, success: Runtime, erred: Runtime, countdown: int)
    | PollCheck(target: string, check: Method)
    | Deletion(target: string)
    | RunExecutor(target: string)
    | Task(task: TaskName, target: string, transition: Option<Fsm>)

  datatype Signature = Chain(steps: seq<Step>) | Group(branches: seq<seq<Step>>)

  /**
   * An executor: the transitions applied before anything is queued, the
   * task signature, the callback run once every branch of a group finished,
   * and the success and failure handlers. A handler of `None` is the base
   * executor's default, which is not part of this model.
   */
  datatype Executor = Executor(preApply: seq<Step>, signature: Signature, callback: seq<Step>,
                               onSuccess: Option<seq<Step>>, onFailure: Option<seq<Step>>)

  /** What a step does, for ordering statements; a poll is labelled by the state it waits for. */
  datatype Label = Calls(m: Method) | Applies(t: Fsm) | WaitsFor(state: Runtime) | Checks(c: Method)
                 | Deletes | Runs(task: TaskName) | RunsExecutor | Records

  function LabelOf(s: Step): Label
  {
    match s
    case Backend(_, m, _, _) => Calls(m)
    case Throttled(_, m, _) => Calls(m)
    case Transition(_, n) => Applies(n)
    case RuntimeChange(_, _) => Records
    case PollRuntime(_, _, success, _, _) => WaitsFor(success)
    case PollCheck(_, c) => Checks(c)
    case Deletion(_) => Deletes
    case RunExecutor(_) => RunsExecutor
    case Task(t, _, _) => Runs(t)
  }

  predicate IsBackendCall(s: Step)
  {
    s.Backend? || s.Throttled?
  }

  /** Whether running the steps calls the cloud backend at all. */
  predicate CallsBackend(steps: seq<Step>)
  {
    exists i :: 0 <= i < |steps| && IsBackendCall(steps[i])
  }

  /** The state transition a step applies to its target, if any. */
  function TransitionOf(s: Step): Option<Fsm>
  {
    match s
    case Backend(_, _, t, _) => t
    case Throttled(_, _, t) => t
    case Transition(_, n) => Some(n)
    case Task(_, _, t) => t
    case _ => None
  }

  function AppliedTo(s: Step, target: string): seq<Fsm>
  {
    if s.target == target && TransitionOf(s).Some? then [TransitionOf(s).value] else []
  }

  /** The transitions the steps apply to `target`, in order. */
  function TransitionsOn(steps: seq<Step>, target: string): seq<Fsm>
    decreases |steps|
  {
    if steps == [] then [] else AppliedTo(steps[0], target) + TransitionsOn(steps[1..], target)
  }

  lemma TransitionsOnCons(s: Step, rest: seq<Step>, target: string)
    ensures TransitionsOn([s] + rest, target) == AppliedTo(s, target) + TransitionsOn(rest, target)
  {
    assert ([s] + rest)[1..] == rest;
  }

  /** The transitions from position `k` on: those of step `k`, then those after it. */
  lemma TransitionsOnFrom(steps: seq<Step>, k: int, target: string)
    requires 0 <= k < |steps|
    ensures TransitionsOn(steps[k..], target) == AppliedTo(steps[k], target) + TransitionsOn(steps[k + 1..], target)
  {
    assert steps[k..][1..] == steps[k + 1..];
  }

  lemma {:induction false} TransitionsOnAppend(a: seq<Step>, b: seq<Step>, target: string)
    ensures TransitionsOn(a + b, target) == TransitionsOn(a, target) + TransitionsOn(b, target)
    decreases |a|
  {
    if a == [] {
      assert a + b == b;
    } else {
      assert (a + b)[1..] == a[1..] + b;
      TransitionsOnAppend(a[1..], b, target);
    }
  }

  /** Every step labelled in `first` comes before every step labelled in `second`. */
  predicate Precedes(steps: seq<Step>, first: set<Label>, second: set<Label>)
  {
    forall i, j :: 0 <= i < |steps| && 0 <= j < |steps| && LabelOf(steps[i]) in first && LabelOf(steps[j]) in second ==> i < j
  }

  /** Some step carries the label. */
  predicate Has(steps: seq<Step>, wanted: Label)
  {
    exists i :: 0 <= i < |steps| && LabelOf(steps[i]) == wanted
  }

  /** No step carries a label of the set. */
  predicate Lacks(steps: seq<Step>, labels: set<Label>)
  {
    forall i :: 0 <= i < |steps| ==> LabelOf(steps[i]) !in labels
  }

  /** Ordering survives concatenation when the second part has nothing of `first`. */
  lemma PrecedesAppendLeft(a: seq<Step>, b: seq<Step>, first: set<Label>, second: set<Label>)
    requires Precedes(a, first, second) && Lacks(b, first)
    ensures Precedes(a + b, first, second)
  {
    var ab := a + b;
    assert forall k :: 0 <= k < |a| ==> ab[k] == a[k];
    assert forall k :: |a| <= k < |ab| ==> ab[k] == b[k - |a|];
  }

  /** ... and when the first part has nothing of `second`. */
  lemma PrecedesAppendRight(a: seq<Step>, b: seq<Step>, first: set<Label>, second: set<Label>)
    requires Precedes(b, first, second) && Lacks(a, second)
    ensures Precedes(a + b, first, second)
  {
    var ab := a + b;
    assert forall k :: 0 <= k < |a| ==> ab[k] == a[k];
    assert forall k :: |a| <= k < |ab| ==> ab[k] == b[k - |a|];
  }

  /** Every step of `first` is in the first part and every step of `second` in the second. */
  lemma PrecedesConcat(a: seq<Step>, b: seq<Step>, first: set<Label>, second: set<Label>)
    requires Lacks(a, second) && Lacks(b, first)
    ensures Precedes(a + b, first, second)
  {
    var ab := a + b;
    assert forall k :: 0 <= k < |a| ==> ab[k] == a[k];
    assert forall k :: |a| <= k < |ab| ==> ab[k] == b[k - |a|];
  }

  lemma LacksAppend(a: seq<Step>, b: seq<Step>, labels: set<Label>)
    requires Lacks(a, labels) && Lacks(b, labels)
    ensures Lacks(a + b, labels)
  {
    var ab := a + b;
    assert forall k :: 0 <= k < |a| ==> ab[k] == a[k];
    assert forall k :: |a| <= k < |ab| ==> ab[k] == b[k - |a|];
  }

  /** A resource is marked OK only after a poll saw it available. */
  predicate OkOnlyAfterPoll(steps: seq<Step>)
  {
    forall i :: 0 <= i < |steps| && steps[i].Transition? && steps[i].name == SetOk ==>
      exists j :: 0 <= j < i && steps[j].PollRuntime? && steps[j].target == steps[i].target && steps[j].success == Available
  }

  /** The step marking `target` OK occurs in the chain. */
  predicate MarksOk(steps: seq<Step>, target: string)
  {
    exists i :: 0 <= i < |steps| && steps[i] == Transition(target, SetOk)
  }

  /**
   * In a group, `target` is marked OK after a poll saw it available, by a
   * branch that completes before the executor's callback runs.
   */
  predicate ReadyBeforeCallback(ex: Executor, target: string)
  {
    && ex.signature.Group?
    && exists k :: 0 <= k < |ex.signature.branches|
                   && MarksOk(ex.signature.branches[k], target) && OkOnlyAfterPoll(ex.signature.branches[k])
  }

  /* ---------------------------------------------------------------------- */
  /* Shared plan shapes                                                     */

  /**
   * The delete plan of a resource: with a backend id, the backend delete
   * (starting the deletion) followed by the check that polls for its
   * absence, when there is one; without, only the transition.
   */
  function DeletePlan(target: string, backendId: string, call: Method, check: Option<Method>): (r: seq<Step>)
    ensures CallsBackend(r) <==> backendId != ""
    ensures TransitionsOn(r, target) == [BeginDeleting]
    ensures backendId != "" ==> LabelOf(r[0]) == Calls(call)
    ensures backendId != "" && check.Some? ==> r[|r| - 1] == PollCheck(target, check.value)
    ensures backendId == "" ==> |r| == 1
  {
    if backendId != "" then
      var tail := if check.Some? then [PollCheck(target, check.value)] else [];
      var r := [Backend(target, call, Some(BeginDeleting), [])] + tail;
      assert IsBackendCall(r[0]);
      TransitionsOnCons(r[0], tail, target);
      assert TransitionsOn(tail, target) == [] by {
        if check.Some? { TransitionsOnCons(tail[0], [], target); }
      }
      r
    else [Transition(target, BeginDeleting)]
  }

  /** The update plan: the backend is called only when the name or description changed. */
  function UpdatePlan(target: string, updatedFields: set<string>, call: Method): (r: seq<Step>)
    ensures CallsBackend(r) <==> "name" in updatedFields || "description" in updatedFields
    ensures CallsBackend(r) ==> Has(r, Calls(call))
    ensures TransitionsOn(r, target) == [BeginUpdating]
  {
    if "name" in updatedFields || "description" in updatedFields then
      var r := [Backend(target, call, Some(BeginUpdating), [])];
      assert IsBackendCall(r[0]) && LabelOf(r[0]) == Calls(call);
      r
    else [Transition(target, BeginUpdating)]
  }

  /** A single backend call that starts the transition on its target. */
  function CallWith(target: string, call: Method, transition: Fsm): (r: seq<Step>)
    ensures CallsBackend(r) && Has(r, Calls(call))
    ensures TransitionsOn(r, target) == [transition]
  {
    var r := [Backend(target, call, Some(transition), [])];
    assert IsBackendCall(r[0]) && LabelOf(r[0]) == Calls(call);
    r
  }
}
