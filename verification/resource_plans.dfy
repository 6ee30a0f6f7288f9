/**
 * The plans of the resource executors of the service-project-link
 * application: security groups, volumes, snapshots, instances, backups,
 * restorations and DR backups.
 */
module ResourcePlans {
  import opened Wrappers
  import opened Seqs
  import opened Plans

  /* ---------------------------------------------------------------------- */
  /* Simple create, update and delete plans                                 */

  function SecurityGroupCreate(g: string): (r: seq<Step>)
    ensures CallsBackend(r) && Has(r, Calls(CreateSecurityGroup))
    ensures TransitionsOn(r, g) == [BeginCreating]
  {
    CallWith(g, CreateSecurityGroup, BeginCreating)
  }

  function SecurityGroupUpdate(g: string): (r: seq<Step>)
    ensures CallsBackend(r) && Has(r, Calls(UpdateSecurityGroup))
    ensures TransitionsOn(r, g) == [BeginUpdating]
  {
    CallWith(g, UpdateSecurityGroup, BeginUpdating)
  }

  /** A group without a backend id is only moved to deletion; the backend is not asked. */
  function SecurityGroupDelete(g: string, backendId: string): (r: seq<Step>)
    ensures CallsBackend(r) <==> backendId != ""
    ensures TransitionsOn(r, g) == [BeginDeleting]
  {
    DeletePlan(g, backendId, DeleteSecurityGroup, None)
  }

  function TenantUpdate(t: string, updatedFields: set<string>): (r: seq<Step>)
    ensures CallsBackend(r) <==> "name" in updatedFields || "description" in updatedFields
    ensures TransitionsOn(r, t) == [BeginUpdating]
  {
    UpdatePlan(t, updatedFields, UpdateTenant)
  }

  /** The backend create, then a poll that waits for `available` and fails on `error`. */
  function CreateAndWait(target: string, call: Method, pull: Method, countdown: int): (r: seq<Step>)
    ensures |r| >= 1
    ensures CallsBackend(r) && Precedes(r, {Calls(call)}, {WaitsFor(Available)})
    ensures TransitionsOn(r, target) == [BeginCreating]
    ensures r[0] == Backend(target, call, Some(BeginCreating), [])
    ensures r[|r| - 1] == PollRuntime(target, pull, Available, ErrorState, countdown)
  {
    var r := [Backend(target, call, Some(BeginCreating), []), PollRuntime(target, pull, Available, ErrorState, countdown)];
    assert IsBackendCall(r[0]);
    TransitionsOnFrom(r, 1, target);
    TransitionsOnFrom(r, 0, target);
    assert r[0..] == r;
    r
  }

  function VolumeCreate(v: string): (r: seq<Step>)
    ensures |r| >= 1 && r[0] == Backend(v, CreateVolume, Some(BeginCreating), [])
    ensures Precedes(r, {Calls(CreateVolume)}, {WaitsFor(Available)})
    ensures r[|r| - 1] == PollRuntime(v, PullVolumeRuntimeState, Available, ErrorState, 30)
  {
    CreateAndWait(v, CreateVolume, PullVolumeRuntimeState, 30)
  }

  function SnapshotCreate(s: string): (r: seq<Step>)
    ensures |r| >= 1 && r[0] == Backend(s, CreateSnapshot, Some(BeginCreating), [])
    ensures Precedes(r, {Calls(CreateSnapshot)}, {WaitsFor(Available)})
    ensures r[|r| - 1] == PollRuntime(s, PullSnapshotRuntimeState, Available, ErrorState, 10)
  {
    CreateAndWait(s, CreateSnapshot, PullSnapshotRuntimeState, 10)
  }

  function VolumeUpdate(v: string, updatedFields: set<string>): (r: seq<Step>)
    ensures CallsBackend(r) <==> "name" in updatedFields || "description" in updatedFields
  {
    UpdatePlan(v, updatedFields, UpdateVolume)
  }

  function SnapshotUpdate(s: string, updatedFields: set<string>): (r: seq<Step>)
    ensures CallsBackend(r) <==> "name" in updatedFields || "description" in updatedFields
  {
    UpdatePlan(s, updatedFields, UpdateSnapshot)
  }

  /** With a backend id: the backend delete, then the check polled until the volume is gone. */
  function VolumeDelete(v: string, backendId: string): (r: seq<Step>)
    ensures CallsBackend(r) <==> backendId != ""
    ensures TransitionsOn(r, v) == [BeginDeleting]
    ensures backendId != "" ==> LabelOf(r[0]) == Calls(DeleteVolume) && r[|r| - 1] == PollCheck(v, IsVolumeDeleted)
  {
    DeletePlan(v, backendId, DeleteVolume, Some(IsVolumeDeleted))
  }

  function SnapshotDelete(s: string, backendId: string): (r: seq<Step>)
    ensures CallsBackend(r) <==> backendId != ""
    ensures backendId != "" ==> LabelOf(r[0]) == Calls(DeleteSnapshot) && r[|r| - 1] == PollCheck(s, IsSnapshotDeleted)
  {
    DeletePlan(s, backendId, DeleteSnapshot, Some(IsSnapshotDeleted))
  }

  /** Instance deletion: the instance is scheduled for deletion before the plan runs. */
  function InstanceDelete(i: string, backendId: string): (ex: Executor)
    ensures TransitionsOn(ex.preApply, i) == [ScheduleDeletion]
    ensures ex.signature.Chain? && (CallsBackend(ex.signature.steps) <==> backendId != "")
    ensures backendId != "" ==> ex.signature.steps[|ex.signature.steps| - 1] == PollCheck(i, IsInstanceDeleted)
  {
    Executor([Transition(i, ScheduleDeletion)],
             Chain(DeletePlan(i, backendId, DeleteInstance, Some(IsInstanceDeleted))), [], None, None)
  }

  /* ---------------------------------------------------------------------- */
  /* Instance creation and backup restoration                               */

  /** One volume of a new instance: create, wait until available, pull it, mark it OK. */
  function VolumeBranch(v: string): (r: seq<Step>)
    ensures OkOnlyAfterPoll(r) && MarksOk(r, v)
    ensures TransitionsOn(r, v) == [BeginCreating, SetOk]
    ensures Precedes(r, {Calls(CreateVolume)}, {WaitsFor(Available)}) && Precedes(r, {Calls(PullVolume)}, {Applies(SetOk)})
  {
    VolumeBranchReady(v);
    VolumeBranchTransitions(v);
    VolumeBranchSteps(v)
  }

  function VolumeBranchSteps(v: string): seq<Step>
  {
    [Backend(v, CreateVolume, Some(BeginCreating), []),
     PollRuntime(v, PullVolumeRuntimeState, Available, ErrorState, 30),
     Backend(v, PullVolume, None, []),
     Transition(v, SetOk)]
  }

  lemma VolumeBranchReady(v: string)
    ensures var r := VolumeBranchSteps(v);
            && OkOnlyAfterPoll(r) && MarksOk(r, v)
            && Precedes(r, {Calls(CreateVolume)}, {WaitsFor(Available)}) && Precedes(r, {Calls(PullVolume)}, {Applies(SetOk)})
  {
    var r := VolumeBranchSteps(v);
    assert r[3] == Transition(v, SetOk) && r[1].PollRuntime?;
  }

  lemma VolumeBranchTransitions(v: string)
    ensures TransitionsOn(VolumeBranchSteps(v), v) == [BeginCreating, SetOk]
  {
    var r := VolumeBranchSteps(v);
    TransitionsOnFrom(r, 3, v);
    TransitionsOnFrom(r, 2, v);
    TransitionsOnFrom(r, 1, v);
    TransitionsOnFrom(r, 0, v);
    assert r[0..] == r;
  }

  /** The group creating the volumes, started by the instance's provisioning transition. */
  function VolumeGroup(instance: string, volumes: seq<string>): (g: seq<seq<Step>>)
    ensures |g| == |volumes| + 1
    ensures g[0] == [Transition(instance, BeginProvisioning)]
    ensures forall k :: 0 <= k < |volumes| ==> g[k + 1] == VolumeBranch(volumes[k])
  {
    [[Transition(instance, BeginProvisioning)]] + Map(volumes, VolumeBranch)
  }

  lemma VolumeGroupReadies(ex: Executor, volumes: seq<string>, instance: string, v: string)
    requires ex.signature == Group(VolumeGroup(instance, volumes)) && v in volumes
    ensures ReadyBeforeCallback(ex, v)
  {
    var k :| 0 <= k < |volumes| && volumes[k] == v;
    assert ex.signature.branches[k + 1] == VolumeBranch(v);
  }

  /** The arguments of `create_instance`: the flavor, the external-IP switch, and the optional key and IP. */
  function CreateInstanceArgs(flavorId: string, skipExternalIp: bool, hasSshKey: bool, floatingIp: Option<string>)
    : (a: seq<Arg>)
    ensures BackendFlavorId(flavorId) in a && SkipExternalIp(skipExternalIp) in a
    ensures PublicKey in a <==> hasSshKey
    ensures forall u :: FloatingIpUuid(u) in a <==> floatingIp == Some(u)
  {
    [BackendFlavorId(flavorId), SkipExternalIp(skipExternalIp)]
    + (if hasSshKey then [PublicKey] else [])
    + (if floatingIp.Some? then [FloatingIpUuid(floatingIp.value)] else [])
  }

  /**
   * Instance creation: every volume is created and marked OK before the
   * callback creates the instance, which then goes online.
   */
  function InstanceCreate(i: string, volumes: seq<string>, flavorId: string, skipExternalIp: bool,
                          hasSshKey: bool, floatingIp: Option<string>): (ex: Executor)
    ensures forall v :: v in volumes ==> ReadyBeforeCallback(ex, v)
    ensures ex.callback == [Backend(i, CreateInstance, None, CreateInstanceArgs(flavorId, skipExternalIp, hasSshKey, floatingIp))]
    ensures ex.onSuccess == Some([Transition(i, SetOnline)])
  {
    var ex := Executor([], Group(VolumeGroup(i, volumes)),
                       [Backend(i, CreateInstance, None, CreateInstanceArgs(flavorId, skipExternalIp, hasSshKey, floatingIp))],
                       Some([Transition(i, SetOnline)]), None);
    assert forall v :: v in volumes ==> ReadyBeforeCallback(ex, v) by {
      forall v | v in volumes ensures ReadyBeforeCallback(ex, v) {
        VolumeGroupReadies(ex, volumes, i, v);
      }
    }
    ex
  }

  /** Restoration from a backup: the same volume group; the instance is created with its flavor and an external IP. */
  function BackupRestorationCreate(restoration: string, i: string, volumes: seq<string>, flavorId: string)
    : (ex: Executor)
    ensures forall v :: v in volumes ==> ReadyBeforeCallback(ex, v)
    ensures ex.callback == [Backend(i, CreateInstance, None, [BackendFlavorId(flavorId), SkipExternalIp(false)])]
    ensures ex.onSuccess == Some([Transition(i, SetOnline)])
    ensures ex.onFailure == Some([Task(SetBackupRestorationErred, restoration, None)])
  {
    var ex := Executor([], Group(VolumeGroup(i, volumes)),
                       [Backend(i, CreateInstance, None, [BackendFlavorId(flavorId), SkipExternalIp(false)])],
                       Some([Transition(i, SetOnline)]), Some([Task(SetBackupRestorationErred, restoration, None)]));
    assert forall v :: v in volumes ==> ReadyBeforeCallback(ex, v) by {
      forall v | v in volumes ensures ReadyBeforeCallback(ex, v) {
        VolumeGroupReadies(ex, volumes, i, v);
      }
    }
    ex
  }

  /* ---------------------------------------------------------------------- */
  /* Flavor change and volume extension                                     */

  /**
   * Flavor change: resize, wait for VERIFY_RESIZE, confirm, wait for
   * SHUTOFF; success marks the instance resized.
   */
  function InstanceFlavorChange(i: string, flavorId: string): (ex: Executor)
    ensures TransitionsOn(ex.preApply, i) == [ScheduleResizing]
    ensures ex.signature.Chain?
    ensures var r := ex.signature.steps;
            && Precedes(r, {Calls(ResizeInstance)}, {WaitsFor(VerifyResize)})
            && Precedes(r, {WaitsFor(VerifyResize)}, {Calls(ConfirmInstanceResize)})
            && Precedes(r, {Calls(ConfirmInstanceResize)}, {WaitsFor(Shutoff)})
            && TransitionsOn(r, i) == [BeginResizing]
            && forall k :: 0 <= k < |r| && r[k].PollRuntime? ==> r[k].erred == ErredState
    ensures ex.onSuccess.Some? && TransitionsOn(ex.onSuccess.value, i) == [SetResized]
  {
    var r := FlavorChangeSteps(i, flavorId);
    FlavorChangeOrder(i, flavorId);
    FlavorChangeTransitions(i, flavorId);
    var success := [Task(LogFlavorChangeSucceeded, i, Some(SetResized))];
    TransitionsOnFrom(success, 0, i);
    assert success[0..] == success;
    TransitionsOnFrom([Transition(i, ScheduleResizing)], 0, i);
    Executor([Transition(i, ScheduleResizing)], Chain(r), [], Some(success),
             Some([Task(LogFlavorChangeFailed, i, None)]))
  }

  function FlavorChangeSteps(i: string, flavorId: string): seq<Step>
  {
    [Backend(i, ResizeInstance, Some(BeginResizing), [BackendFlavorId(flavorId)]),
     PollRuntime(i, PullInstanceRuntimeState, VerifyResize, ErredState, 0),
     Backend(i, ConfirmInstanceResize, None, []),
     PollRuntime(i, PullInstanceRuntimeState, Shutoff, ErredState, 0)]
  }

  lemma FlavorChangeOrder(i: string, flavorId: string)
    ensures var r := FlavorChangeSteps(i, flavorId);
            && Precedes(r, {Calls(ResizeInstance)}, {WaitsFor(VerifyResize)})
            && Precedes(r, {WaitsFor(VerifyResize)}, {Calls(ConfirmInstanceResize)})
            && Precedes(r, {Calls(ConfirmInstanceResize)}, {WaitsFor(Shutoff)})
  {
    var r := FlavorChangeSteps(i, flavorId);
    assert forall k :: 0 <= k < |r| && LabelOf(r[k]) == WaitsFor(VerifyResize) ==> k == 1;
    assert forall k :: 0 <= k < |r| && LabelOf(r[k]) == Calls(ConfirmInstanceResize) ==> k == 2;
  }

  lemma FlavorChangeTransitions(i: string, flavorId: string)
    ensures TransitionsOn(FlavorChangeSteps(i, flavorId), i) == [BeginResizing]
  {
    var r := FlavorChangeSteps(i, flavorId);
    TransitionsOnFrom(r, 3, i);
    TransitionsOnFrom(r, 2, i);
    TransitionsOnFrom(r, 1, i);
    TransitionsOnFrom(r, 0, i);
    assert r[0..] == r;
  }

  function Detach(volumeBackendId: string): string -> Step
  {
    (i: string) => Backend(i, DetachInstanceVolume, Some(BeginResizing), [BackendVolumeId(volumeBackendId)])
  }

  function Attach(volumeBackendId: string): string -> Step
  {
    (i: string) => Backend(i, AttachInstanceVolume, None, [BackendVolumeId(volumeBackendId)])
  }

  function ResizingScheduled(i: string): Step
  {
    Transition(i, ScheduleResizing)
  }

  /**
   * Volume extension: the volume is scheduled for updating and every
   * attached instance for resizing; the plan detaches every instance
   * (starting its resize), extends the volume between two waits for
   * `available`, attaches the instances again and waits for `in-use`.
   */
  function VolumeExtend(v: string, volumeBackendId: string, instances: seq<string>, newSize: int): (ex: Executor)
    ensures |ex.preApply| >= 1 && ex.preApply[0] == Transition(v, ScheduleUpdating)
    ensures forall i :: i in instances ==> Transition(i, ScheduleResizing) in ex.preApply
    ensures ex.signature.Chain?
    ensures var r := ex.signature.steps;
            && Precedes(r, {Calls(DetachInstanceVolume)}, {Calls(ExtendVolume)})
            && Precedes(r, {Calls(ExtendVolume)}, {Calls(AttachInstanceVolume)})
            && |r| >= 1 && r[|r| - 1] == PollRuntime(v, PullVolumeRuntimeState, InUse, ErrorState, 0)
            && (forall i :: i in instances ==> Detach(volumeBackendId)(i) in r && Attach(volumeBackendId)(i) in r)
    ensures ex.onSuccess == Some([Task(LogVolumeExtendSucceeded, v, Some(SetOk))])
  {
    ExtendOrder(v, volumeBackendId, instances, newSize);
    ExtendTouchesEveryInstance(v, volumeBackendId, instances, newSize);
    ExtendSchedulesEveryInstance(v, instances);
    Executor(ExtendSchedule(v, instances), Chain(ExtendSteps(v, volumeBackendId, instances, newSize)), [],
             Some([Task(LogVolumeExtendSucceeded, v, Some(SetOk))]),
             Some([Task(LogVolumeExtendFailed, v, None)]))
  }

  function ExtendSchedule(v: string, instances: seq<string>): seq<Step>
  {
    [Transition(v, ScheduleUpdating)] + Map(instances, ResizingScheduled)
  }

  /** The three steps around the backend call that extends the volume. */
  function ExtendCore(v: string, newSize: int): seq<Step>
  {
    [PollRuntime(v, PullVolumeRuntimeState, Available, ErrorState, 0),
     Backend(v, ExtendVolume, None, [NewSize(newSize)]),
     PollRuntime(v, PullVolumeRuntimeState, Available, ErrorState, 0)]
  }

  function ExtendSteps(v: string, volumeBackendId: string, instances: seq<string>, newSize: int): seq<Step>
  {
    Map(instances, Detach(volumeBackendId)) + ExtendCore(v, newSize) + Map(instances, Attach(volumeBackendId))
    + [PollRuntime(v, PullVolumeRuntimeState, InUse, ErrorState, 0)]
  }

  lemma ExtendSchedulesEveryInstance(v: string, instances: seq<string>)
    ensures |ExtendSchedule(v, instances)| >= 1 && ExtendSchedule(v, instances)[0] == Transition(v, ScheduleUpdating)
    ensures forall i :: i in instances ==> Transition(i, ScheduleResizing) in ExtendSchedule(v, instances)
  {
    var pre := ExtendSchedule(v, instances);
    forall i | i in instances ensures Transition(i, ScheduleResizing) in pre {
      var k :| 0 <= k < |instances| && instances[k] == i;
      assert pre[k + 1] == ResizingScheduled(i);
    }
  }

  lemma ExtendTouchesEveryInstance(v: string, volumeBackendId: string, instances: seq<string>, newSize: int)
    ensures var r := ExtendSteps(v, volumeBackendId, instances, newSize);
            && |r| >= 1 && r[|r| - 1] == PollRuntime(v, PullVolumeRuntimeState, InUse, ErrorState, 0)
            && forall i :: i in instances ==> Detach(volumeBackendId)(i) in r && Attach(volumeBackendId)(i) in r
  {
    var r := ExtendSteps(v, volumeBackendId, instances, newSize);
    var detach, attach := Map(instances, Detach(volumeBackendId)), Map(instances, Attach(volumeBackendId));
    var n := |instances|;
    assert forall k :: 0 <= k < n ==> r[k] == detach[k];
    assert forall k :: 0 <= k < n ==> r[n + 3 + k] == attach[k];
    forall i | i in instances ensures Detach(volumeBackendId)(i) in r && Attach(volumeBackendId)(i) in r {
      var k :| 0 <= k < n && instances[k] == i;
      assert r[k] == Detach(volumeBackendId)(i);
      assert r[n + 3 + k] == Attach(volumeBackendId)(i);
    }
  }

  lemma ExtendOrder(v: string, volumeBackendId: string, instances: seq<string>, newSize: int)
    ensures var r := ExtendSteps(v, volumeBackendId, instances, newSize);
            Precedes(r, {Calls(DetachInstanceVolume)}, {Calls(ExtendVolume)})
            && Precedes(r, {Calls(ExtendVolume)}, {Calls(AttachInstanceVolume)})
  {
    var r := ExtendSteps(v, volumeBackendId, instances, newSize);
    var detach, extend := Map(instances, Detach(volumeBackendId)), ExtendCore(v, newSize);
    var attach := Map(instances, Attach(volumeBackendId));
    var n := |instances|;
    assert forall k :: 0 <= k < n ==> r[k] == detach[k];
    assert forall k :: n <= k < n + 3 ==> r[k] == extend[k - n];
    assert forall k :: n + 3 <= k < n + 3 + n ==> r[k] == attach[k - n - 3];
    assert r[|r| - 1] == PollRuntime(v, PullVolumeRuntimeState, InUse, ErrorState, 0);
    assert forall k :: 0 <= k < |r| && LabelOf(r[k]) == Calls(ExtendVolume) ==> k == n + 1;
    assert forall k :: 0 <= k < |r| && LabelOf(r[k]) == Calls(DetachInstanceVolume) ==> k < n;
    assert forall k :: 0 <= k < |r| && LabelOf(r[k]) == Calls(AttachInstanceVolume) ==> k >= n + 3;
  }

  /* ---------------------------------------------------------------------- */
  /* Backups                                                                */

  /** One snapshot of a backup: create it (forced), wait until available, mark it OK. */
  function SnapshotBranch(s: string): (r: seq<Step>)
    ensures OkOnlyAfterPoll(r) && MarksOk(r, s)
    ensures TransitionsOn(r, s) == [BeginCreating, SetOk]
    ensures Precedes(r, {Calls(CreateSnapshot)}, {WaitsFor(Available)})
  {
    var r := [Backend(s, CreateSnapshot, Some(BeginCreating), [Force]),
              PollRuntime(s, PullSnapshotRuntimeState, Available, ErrorState, 10),
              Transition(s, SetOk)];
    assert r[2] == Transition(s, SetOk) && r[1].PollRuntime?;
    TransitionsOnFrom(r, 2, s);
    TransitionsOnFrom(r, 1, s);
    TransitionsOnFrom(r, 0, s);
    assert r[0..] == r;
    r
  }

  /** Backup creation: the backup starts creating beside one branch per snapshot; failure runs the backup's error handler. */
  function BackupCreate(b: string, snapshots: seq<string>): (ex: Executor)
    ensures ex.signature.Group? && |ex.signature.branches| == |snapshots| + 1
    ensures TransitionsOn(ex.signature.branches[0], b) == [BeginCreating]
    ensures forall s :: s in snapshots ==> ReadyBeforeCallback(ex, s)
    ensures ex.onFailure == Some([Task(SetBackupErred, b, None)])
  {
    var g := [[Transition(b, BeginCreating)]] + Map(snapshots, SnapshotBranch);
    var ex := Executor([], Group(g), [], None, Some([Task(SetBackupErred, b, None)]));
    forall s | s in snapshots ensures ReadyBeforeCallback(ex, s) {
      SnapshotBranchReady(ex, b, snapshots, s);
    }
    ex
  }

  /** A snapshot's branch, placed after the backup's own, marks it OK only after its poll. */
  lemma SnapshotBranchReady(ex: Executor, b: string, snapshots: seq<string>, s: string)
    requires ex.signature == Group([[Transition(b, BeginCreating)]] + Map(snapshots, SnapshotBranch))
    requires s in snapshots
    ensures ReadyBeforeCallback(ex, s)
  {
    var k :| 0 <= k < |snapshots| && snapshots[k] == s;
    var branch := ex.signature.branches[k + 1];
    assert branch == SnapshotBranch(s);
    assert MarksOk(branch, s) && OkOnlyAfterPoll(branch);
  }

  /** One snapshot of a deleted backup: backend delete, wait until gone, delete the record. */
  function SnapshotDeletionBranch(s: string): (r: seq<Step>)
    ensures Precedes(r, {Calls(DeleteSnapshot)}, {Checks(IsSnapshotDeleted)}) && Precedes(r, {Checks(IsSnapshotDeleted)}, {Deletes})
    ensures |r| >= 1 && r[|r| - 1] == Deletion(s)
  {
    var r := [Backend(s, DeleteSnapshot, Some(BeginDeleting), []), PollCheck(s, IsSnapshotDeleted), Deletion(s)];
    assert forall k :: 0 <= k < |r| && LabelOf(r[k]) == Checks(IsSnapshotDeleted) ==> k == 1;
    r
  }

  /**
   * Backup deletion: every snapshot is scheduled for deletion first; a
   * failure force-deletes the backup's records when `force` is set and
   * marks it erred otherwise.
   */
  function BackupDelete(b: string, snapshots: seq<string>, force: bool): (ex: Executor)
    ensures forall s :: s in snapshots ==> Transition(s, ScheduleDeleting) in ex.preApply
    ensures ex.signature.Group?
    ensures forall s :: s in snapshots ==> SnapshotDeletionBranch(s) in ex.signature.branches
    ensures ex.onFailure.Some? && |ex.onFailure.value| == 1
    ensures ex.onFailure.value[0].Task? && ex.onFailure.value[0].task == (if force then ForceDeleteBackup else SetBackupErred)
  {
    var pre := Map(snapshots, DeletingScheduled) + [Transition(b, ScheduleDeleting)];
    var g := [[Transition(b, BeginDeleting)]] + Map(snapshots, SnapshotDeletionBranch);
    assert forall s :: s in snapshots ==> Transition(s, ScheduleDeleting) in pre && SnapshotDeletionBranch(s) in g by {
      forall s | s in snapshots ensures Transition(s, ScheduleDeleting) in pre && SnapshotDeletionBranch(s) in g {
        var k :| 0 <= k < |snapshots| && snapshots[k] == s;
        assert pre[k] == DeletingScheduled(s);
        assert g[k + 1] == SnapshotDeletionBranch(s);
      }
    }
    Executor(pre, Group(g), [], None,
             Some([Task(if force then ForceDeleteBackup else SetBackupErred, b, None)]))
  }

  function DeletingScheduled(s: string): Step
  {
    Transition(s, ScheduleDeleting)
  }

  /* ---------------------------------------------------------------------- */
  /* DR backups                                                             */

  /** The temporary snapshot and volume behind one volume backup. */
  datatype DRVolume = DRVolume(tmpSnapshot: string, tmpVolume: string, volumeBackup: string)

  /**
   * One volume of a DR backup: the temporary snapshot, then the temporary
   * volume, then the volume backup and its record, each created, polled
   * until available and marked OK, with the DR backup's runtime state
   * following along.
   */
  function DRVolumeChain(dr: string, x: DRVolume): (r: seq<Step>)
    ensures OkOnlyAfterPoll(r)
    ensures MarksOk(r, x.tmpSnapshot) && MarksOk(r, x.tmpVolume) && MarksOk(r, x.volumeBackup)
    ensures Precedes(r, {Calls(CreateSnapshot)}, {Calls(CreateVolume)})
    ensures Precedes(r, {Calls(CreateVolume)}, {Calls(CreateVolumeBackup)})
    ensures Precedes(r, {Calls(CreateVolumeBackup)}, {Calls(PullVolumeBackupRecord)})
  {
    DRChainOk(dr, x);
    DRChainOrder(dr, x);
    DRVolumeSteps(dr, x)
  }

  function DRVolumeSteps(dr: string, x: DRVolume): seq<Step>
  {
    [Backend(x.tmpSnapshot, CreateSnapshot, Some(BeginCreating), [Force]),
     PollRuntime(x.tmpSnapshot, PullSnapshotRuntimeState, Available, ErrorState, 10),
     Transition(x.tmpSnapshot, SetOk),
     RuntimeChange(dr, "Creating temporary volumes"),
     Backend(x.tmpVolume, CreateVolume, Some(BeginCreating), []),
     PollRuntime(x.tmpVolume, PullVolumeRuntimeState, Available, ErrorState, 30),
     Transition(x.tmpVolume, SetOk),
     RuntimeChange(dr, "Backing up temporary volumes"),
     Backend(x.volumeBackup, CreateVolumeBackup, Some(BeginCreating), []),
     PollRuntime(x.volumeBackup, PullVolumeBackupRuntimeState, Available, ErrorState, 50),
     Backend(x.volumeBackup, PullVolumeBackupRecord, None, []),
     Transition(x.volumeBackup, SetOk)]
  }

  lemma DRChainOk(dr: string, x: DRVolume)
    ensures var r := DRVolumeSteps(dr, x);
            && OkOnlyAfterPoll(r)
            && MarksOk(r, x.tmpSnapshot) && MarksOk(r, x.tmpVolume) && MarksOk(r, x.volumeBackup)
  {
    var r := DRVolumeSteps(dr, x);
    assert r[2] == Transition(x.tmpSnapshot, SetOk) && r[6] == Transition(x.tmpVolume, SetOk);
    assert r[11] == Transition(x.volumeBackup, SetOk);
    forall k | 0 <= k < |r| && r[k].Transition? && r[k].name == SetOk
      ensures exists j :: 0 <= j < k && r[j].PollRuntime? && r[j].target == r[k].target && r[j].success == Available
    {
      assert k == 2 || k == 6 || k == 11;
      if k == 2 { assert r[1].PollRuntime?; }
      else if k == 6 { assert r[5].PollRuntime?; }
      else { assert r[9].PollRuntime?; }
    }
  }

  lemma DRChainOrder(dr: string, x: DRVolume)
    ensures var r := DRVolumeSteps(dr, x);
            && Precedes(r, {Calls(CreateSnapshot)}, {Calls(CreateVolume)})
            && Precedes(r, {Calls(CreateVolume)}, {Calls(CreateVolumeBackup)})
            && Precedes(r, {Calls(CreateVolumeBackup)}, {Calls(PullVolumeBackupRecord)})
  {
    var r := DRVolumeSteps(dr, x);
    assert forall k :: 0 <= k < |r| ==> LabelOf(r[k]) != Calls(CreateSnapshot) || k == 0;
    assert forall k :: 0 <= k < |r| ==> LabelOf(r[k]) != Calls(CreateVolume) || k == 4;
    assert forall k :: 0 <= k < |r| ==> LabelOf(r[k]) != Calls(CreateVolumeBackup) || k == 8;
    assert forall k :: 0 <= k < |r| ==> LabelOf(r[k]) != Calls(PullVolumeBackupRecord) || k == 10;
  }

  /**
   * DR backup creation: the DR backup's transition and runtime state beside
   * one chain per volume; success cleans the temporary resources up and
   * marks it OK, failure runs its error handler.
   */
  function DRBackupCreate(dr: string, volumes: seq<DRVolume>): (ex: Executor)
    ensures ex.signature.Group? && |ex.signature.branches| == |volumes| + 2
    ensures forall x :: x in volumes ==> ReadyBeforeCallback(ex, x.volumeBackup) && ReadyBeforeCallback(ex, x.tmpVolume)
    ensures ex.onSuccess == Some([Task(CleanUpDRBackup, dr, Some(SetOk))])
    ensures ex.onFailure == Some([Task(SetDRBackupErred, dr, None)])
  {
    var ex := Executor([], Group(DRGroup(dr, volumes)), [], Some([Task(CleanUpDRBackup, dr, Some(SetOk))]),
                       Some([Task(SetDRBackupErred, dr, None)]));
    assert forall x :: x in volumes ==> ReadyBeforeCallback(ex, x.volumeBackup) && ReadyBeforeCallback(ex, x.tmpVolume) by {
      forall x | x in volumes ensures ReadyBeforeCallback(ex, x.volumeBackup) && ReadyBeforeCallback(ex, x.tmpVolume) {
        DRGroupReadies(ex, dr, volumes, x);
      }
    }
    ex
  }

  /** The DR backup's own two branches, then one chain per volume. */
  function DRGroup(dr: string, volumes: seq<DRVolume>): (g: seq<seq<Step>>)
    ensures |g| == |volumes| + 2
    ensures g[0] == [Transition(dr, BeginCreating)]
    ensures forall k :: 0 <= k < |volumes| ==> g[k + 2] == DRVolumeChain(dr, volumes[k])
  {
    var own := [[Transition(dr, BeginCreating)], [RuntimeChange(dr, "Creating temporary snapshots")]];
    var chains := DRChains(dr, volumes);
    assert forall k :: 0 <= k < |chains| ==> (own + chains)[k + 2] == chains[k];
    own + chains
  }

  function DRChains(dr: string, volumes: seq<DRVolume>): (r: seq<seq<Step>>)
    ensures |r| == |volumes|
    ensures forall k :: 0 <= k < |volumes| ==> r[k] == DRVolumeChain(dr, volumes[k])
  {
    if volumes == [] then [] else [DRVolumeChain(dr, volumes[0])] + DRChains(dr, volumes[1..])
  }

  lemma DRGroupReadies(ex: Executor, dr: string, volumes: seq<DRVolume>, x: DRVolume)
    requires ex.signature == Group(DRGroup(dr, volumes)) && x in volumes
    ensures ReadyBeforeCallback(ex, x.volumeBackup) && ReadyBeforeCallback(ex, x.tmpVolume)
  {
    var k :| 0 <= k < |volumes| && volumes[k] == x;
    assert ex.signature.branches[k + 2] == DRVolumeChain(dr, x);
  }

  /** One volume backup of a deleted DR backup: backend delete, wait until gone, delete the record. */
  function VolumeBackupDeletion(vb: string): seq<Step>
  {
    [Backend(vb, DeleteVolumeBackup, Some(BeginDeleting), []), PollCheck(vb, IsVolumeBackupDeleted), Deletion(vb)]
  }

  /**
   * DR backup deletion: every volume backup is scheduled for deletion, the
   * temporary resources are cleaned up and each volume backup deleted; a
   * failure force-deletes when `force` is set.
   */
  function DRBackupDelete(dr: string, volumeBackups: seq<string>, force: bool): (ex: Executor)
    ensures forall vb :: vb in volumeBackups ==> Transition(vb, ScheduleDeleting) in ex.preApply
    ensures ex.signature.Group?
    ensures forall vb :: vb in volumeBackups ==>
              exists k :: 0 <= k < |ex.signature.branches| && ex.signature.branches[k] == VolumeBackupDeletion(vb)
    ensures [Task(CleanUpDRBackup, dr, None)] in ex.signature.branches
    ensures ex.onFailure.Some? && |ex.onFailure.value| == 1 && ex.onFailure.value[0].Task? && ex.onFailure.value[0].task == (if force then ForceDeleteDRBackup else SetDRBackupErred)
  {
    var pre := Map(volumeBackups, DeletingScheduled) + [Transition(dr, ScheduleDeleting)];
    var g := [[Transition(dr, BeginDeleting)], [RuntimeChange(dr, "Deleting volume backups")],
              [Task(CleanUpDRBackup, dr, None)]] + Map(volumeBackups, VolumeBackupDeletion);
    assert g[2] == [Task(CleanUpDRBackup, dr, None)];
    assert forall vb :: vb in volumeBackups ==> Transition(vb, ScheduleDeleting) in pre by {
      forall vb | vb in volumeBackups ensures Transition(vb, ScheduleDeleting) in pre {
        var k :| 0 <= k < |volumeBackups| && volumeBackups[k] == vb;
        assert pre[k] == DeletingScheduled(vb);
      }
    }
    assert forall vb :: vb in volumeBackups ==> exists k :: 0 <= k < |g| && g[k] == VolumeBackupDeletion(vb) by {
      forall vb | vb in volumeBackups ensures exists k :: 0 <= k < |g| && g[k] == VolumeBackupDeletion(vb) {
        var k :| 0 <= k < |volumeBackups| && volumeBackups[k] == vb;
        assert g[k + 3] == VolumeBackupDeletion(vb);
      }
    }
    Executor(pre, Group(g), [], None,
             Some([Task(if force then ForceDeleteDRBackup else SetDRBackupErred, dr, None)]))
  }

  /** A volume to restore from a DR backup: the new volume, the backup it comes from and the backup's imported copy. */
  datatype DRRestore = DRRestore(volume: string, volumeBackup: string, mirror: string)

  /**
   * One restored volume: the volume is created while the backup record is
   * imported; once both are available the copy is marked OK and restored
   * onto the volume, which is pulled, renamed after its origin and marked OK.
   */
  function DRRestoreChain(x: DRRestore): (r: seq<Step>)
    ensures OkOnlyAfterPoll(r) && MarksOk(r, x.volume) && MarksOk(r, x.mirror)
    ensures Precedes(r, {Calls(ImportVolumeBackupFromRecord)}, {Runs(RestoreVolumeBackup)})
    ensures Precedes(r, {Runs(RestoreVolumeBackup)}, {Runs(RestoreVolumeOriginName)})
  {
    DRRestoreOk(x);
    DRRestoreOrder(x);
    DRRestoreSteps(x)
  }

  function DRRestoreSteps(x: DRRestore): seq<Step>
  {
    [Backend(x.volume, CreateVolume, Some(BeginCreating), []),
     Backend(x.mirror, ImportVolumeBackupFromRecord, Some(BeginCreating), []),
     PollRuntime(x.volume, PullVolumeRuntimeState, Available, ErrorState, 30),
     PollRuntime(x.mirror, PullVolumeBackupRuntimeState, Available, ErrorState, 0),
     Transition(x.mirror, SetOk),
     Task(RestoreVolumeBackup, x.volume, None),
     PollRuntime(x.volume, PullVolumeRuntimeState, Available, ErrorRestoring, 20),
     Backend(x.volume, PullVolume, None, []),
     Task(RestoreVolumeOriginName, x.volume, None),
     Transition(x.volume, SetOk)]
  }

  lemma DRRestoreOk(x: DRRestore)
    ensures var r := DRRestoreSteps(x);
            OkOnlyAfterPoll(r) && MarksOk(r, x.volume) && MarksOk(r, x.mirror)
  {
    var r := DRRestoreSteps(x);
    assert r[4] == Transition(x.mirror, SetOk) && r[9] == Transition(x.volume, SetOk);
    forall k | 0 <= k < |r| && r[k].Transition? && r[k].name == SetOk
      ensures exists j :: 0 <= j < k && r[j].PollRuntime? && r[j].target == r[k].target && r[j].success == Available
    {
      assert k == 4 || k == 9;
      if k == 4 { assert r[3].PollRuntime?; } else { assert r[6].PollRuntime?; }
    }
  }

  lemma DRRestoreOrder(x: DRRestore)
    ensures var r := DRRestoreSteps(x);
            && Precedes(r, {Calls(ImportVolumeBackupFromRecord)}, {Runs(RestoreVolumeBackup)})
            && Precedes(r, {Runs(RestoreVolumeBackup)}, {Runs(RestoreVolumeOriginName)})
  {
    var r := DRRestoreSteps(x);
    assert forall k :: 0 <= k < |r| && LabelOf(r[k]) == Calls(ImportVolumeBackupFromRecord) ==> k == 1;
    assert forall k :: 0 <= k < |r| && LabelOf(r[k]) == Runs(RestoreVolumeBackup) ==> k == 5;
    assert forall k :: 0 <= k < |r| && LabelOf(r[k]) == Runs(RestoreVolumeOriginName) ==> k == 8;
  }

  /**
   * DR backup restoration: the instance starts provisioning beside one chain
   * per volume; the callback creates the instance from the restored volumes,
   * success sets it online and failure runs the restoration's error handler.
   */
  function DRBackupRestorationCreate(restoration: string, i: string, restores: seq<DRRestore>): (ex: Executor)
    ensures forall x :: x in restores ==> ReadyBeforeCallback(ex, x.volume)
    ensures ex.callback == [Task(CreateInstanceFromVolumes, restoration, None)]
    ensures ex.onSuccess == Some([Transition(i, SetOnline)])
    ensures ex.onFailure == Some([Task(SetDRBackupRestorationErred, restoration, None)])
  {
    var g := [[Transition(i, BeginProvisioning)]] + Map(restores, DRRestoreChain);
    var ex := Executor([], Group(g), [Task(CreateInstanceFromVolumes, restoration, None)],
                       Some([Transition(i, SetOnline)]), Some([Task(SetDRBackupRestorationErred, restoration, None)]));
    assert forall x :: x in restores ==> ReadyBeforeCallback(ex, x.volume) by {
      forall x | x in restores ensures ReadyBeforeCallback(ex, x.volume) {
        var k :| 0 <= k < |restores| && restores[k] == x;
        assert g[k + 1] == DRRestoreChain(x);
      }
    }
    ex
  }
}
