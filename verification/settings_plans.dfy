/**
 * The plans of the settings-scoped (tenant-level) executors: volumes and
 * snapshots created through the provisioning throttle, and the extension
 * of a volume that may be attached to an instance.
 */
module SettingsPlans {
  import opened Wrappers
  import opened Plans

  /** A throttled create that starts the creation, then a poll that waits for `available` and fails on `error`. */
  function ThrottledCreate(target: string, call: Method, pull: Method, countdown: int): (r: seq<Step>)
    ensures CallsBackend(r) && |r| >= 1 && r[0] == Throttled(target, call, Some(BeginCreating))
    ensures Precedes(r, {Calls(call)}, {WaitsFor(Available)})
    ensures TransitionsOn(r, target) == [BeginCreating]
    ensures |r| >= 1 && r[|r| - 1] == PollRuntime(target, pull, Available, ErrorState, countdown)
  {
    var r := [Throttled(target, call, Some(BeginCreating)), PollRuntime(target, pull, Available, ErrorState, countdown)];
    assert IsBackendCall(r[0]);
    TransitionsOnFrom(r, 1, target);
    TransitionsOnFrom(r, 0, target);
    assert r[0..] == r;
    r
  }

  function VolumeCreate(v: string): (r: seq<Step>)
    ensures |r| >= 1 && r[0] == Throttled(v, CreateVolume, Some(BeginCreating))
    ensures Precedes(r, {Calls(CreateVolume)}, {WaitsFor(Available)})
    ensures r[|r| - 1] == PollRuntime(v, PullVolumeRuntimeState, Available, ErrorState, 30)
  {
    ThrottledCreate(v, CreateVolume, PullVolumeRuntimeState, 30)
  }

  function SnapshotCreate(s: string): (r: seq<Step>)
    ensures |r| >= 1 && r[0] == Throttled(s, CreateSnapshot, Some(BeginCreating))
    ensures Precedes(r, {Calls(CreateSnapshot)}, {WaitsFor(Available)})
    ensures r[|r| - 1] == PollRuntime(s, PullSnapshotRuntimeState, Available, ErrorState, 10)
  {
    ThrottledCreate(s, CreateSnapshot, PullSnapshotRuntimeState, 10)
  }

  function VolumeUpdate(v: string, updatedFields: set<string>): (r: seq<Step>)
    ensures CallsBackend(r) <==> "name" in updatedFields || "description" in updatedFields
    ensures TransitionsOn(r, v) == [BeginUpdating]
  {
    UpdatePlan(v, updatedFields, UpdateVolume)
  }

  function SnapshotUpdate(s: string, updatedFields: set<string>): (r: seq<Step>)
    ensures CallsBackend(r) <==> "name" in updatedFields || "description" in updatedFields
    ensures TransitionsOn(r, s) == [BeginUpdating]
  {
    UpdatePlan(s, updatedFields, UpdateSnapshot)
  }

  function VolumeDelete(v: string, backendId: string): (r: seq<Step>)
    ensures CallsBackend(r) <==> backendId != ""
    ensures backendId != "" ==> LabelOf(r[0]) == Calls(DeleteVolume) && r[|r| - 1] == PollCheck(v, IsVolumeDeleted)
    ensures TransitionsOn(r, v) == [BeginDeleting]
  {
    DeletePlan(v, backendId, DeleteVolume, Some(IsVolumeDeleted))
  }

  function SnapshotDelete(s: string, backendId: string): (r: seq<Step>)
    ensures CallsBackend(r) <==> backendId != ""
    ensures backendId != "" ==> LabelOf(r[0]) == Calls(DeleteSnapshot) && r[|r| - 1] == PollCheck(s, IsSnapshotDeleted)
    ensures TransitionsOn(r, s) == [BeginDeleting]
  {
    DeletePlan(s, backendId, DeleteSnapshot, Some(IsSnapshotDeleted))
  }

  function VolumePull(v: string): (r: seq<Step>)
    ensures CallsBackend(r) && Has(r, Calls(PullVolume))
    ensures TransitionsOn(r, v) == [BeginUpdating]
  {
    CallWith(v, PullVolume, BeginUpdating)
  }

  function SnapshotPull(s: string): (r: seq<Step>)
    ensures CallsBackend(r) && Has(r, Calls(PullSnapshot))
    ensures TransitionsOn(r, s) == [BeginUpdating]
  {
    CallWith(s, PullSnapshot, BeginUpdating)
  }

  /* ---------------------------------------------------------------------- */
  /* Volume extension                                                       */

  /** The instance a volume is attached to, and the device it is attached at. */
  datatype Attachment = Attachment(instance: string, device: string)

  /** The volume is scheduled for updating, and so is its instance when it has one. */
  function ExtendSchedule(v: string, attachment: Option<Attachment>): (r: seq<Step>)
    ensures |r| >= 1 && r[0] == Transition(v, ScheduleUpdating)
    ensures attachment.Some? <==> |r| == 2
    ensures attachment.Some? ==> r[1] == Transition(attachment.value.instance, ScheduleUpdating)
  {
    [Transition(v, ScheduleUpdating)]
    + (if attachment.Some? then [Transition(attachment.value.instance, ScheduleUpdating)] else [])
  }

  function DetachedExtend(v: string, newSize: int): seq<Step>
  {
    [Backend(v, ExtendVolume, Some(BeginUpdating), [NewSize(newSize)]),
     PollRuntime(v, PullVolumeRuntimeState, Available, ErrorState, 0)]
  }

  function AttachedExtend(v: string, a: Attachment, newSize: int): seq<Step>
  {
    [Transition(a.instance, BeginResizing),
     Backend(v, DetachVolume, Some(BeginUpdating), []),
     PollRuntime(v, PullVolumeRuntimeState, Available, ErrorState, 0),
     Backend(v, ExtendVolume, None, [NewSize(newSize)]),
     PollRuntime(v, PullVolumeRuntimeState, Available, ErrorState, 0),
     Backend(v, AttachVolume, None, [InstanceUuid(a.instance), Device(a.device)]),
     PollRuntime(v, PullVolumeRuntimeState, InUse, ErrorState, 0)]
  }

  /** The chain extends the volume, and every extend call asks for the new size. */
  predicate ExtendsTo(r: seq<Step>, newSize: int)
  {
    && Has(r, Calls(ExtendVolume))
    && forall k :: 0 <= k < |r| && r[k].Backend? && r[k].call == ExtendVolume ==> r[k].args == [NewSize(newSize)]
  }

  /** The chain ends with a poll waiting for `state`. */
  predicate EndsWaitingFor(r: seq<Step>, state: Runtime)
  {
    |r| >= 1 && r[|r| - 1].PollRuntime? && r[|r| - 1].success == state
  }

  /**
   * The attached case: the instance's resize starts first, the detach comes
   * before the extend and the extend before the attach, the extend sits
   * between two polls for `available`, and the volume is attached back to
   * the same instance at the same device.
   */
  predicate ReattachedAround(r: seq<Step>, v: string, a: Attachment)
  {
    && |r| >= 1 && r[0] == Transition(a.instance, BeginResizing)
    && Precedes(r, {Calls(DetachVolume)}, {Calls(ExtendVolume)})
    && Precedes(r, {Calls(ExtendVolume)}, {Calls(AttachVolume)})
    && (forall k :: 0 <= k < |r| && LabelOf(r[k]) == Calls(ExtendVolume) ==>
          && 0 < k < |r| - 1
          && r[k - 1].PollRuntime? && r[k - 1].success == Available
          && r[k + 1].PollRuntime? && r[k + 1].success == Available)
    && Backend(v, AttachVolume, None, [InstanceUuid(a.instance), Device(a.device)]) in r
  }

  /**
   * Volume extension. A detached volume is extended (starting its update)
   * and polled until available. An attached one starts the instance's
   * resize, is detached (starting its update), waits until available, is
   * extended, waits until available again, is attached to the same instance
   * at the same device and waits until in use.
   */
  function VolumeExtend(v: string, attachment: Option<Attachment>, newSize: int): (ex: Executor)
    ensures ex.preApply == ExtendSchedule(v, attachment)
    ensures ex.signature.Chain? && ExtendsTo(ex.signature.steps, newSize)
    ensures EndsWaitingFor(ex.signature.steps, if attachment.Some? then InUse else Available)
    ensures attachment.None? ==> Lacks(ex.signature.steps, {Calls(DetachVolume), Calls(AttachVolume)})
    ensures attachment.Some? ==> ReattachedAround(ex.signature.steps, v, attachment.value)
    ensures attachment.None? || attachment.value.instance != v ==>
              TransitionsOn(ex.signature.steps, v) == [BeginUpdating]
    ensures attachment.Some? && attachment.value.instance != v ==>
              TransitionsOn(ex.signature.steps, attachment.value.instance) == [BeginResizing]
  {
    if attachment.None? then
      DetachedFacts(v, newSize);
      Executor(ExtendSchedule(v, attachment), Chain(DetachedExtend(v, newSize)), [], None, None)
    else
      var a := attachment.value;
      AttachedFacts(v, a, newSize);
      if a.instance != v then
        AttachedTransitions(v, a, newSize);
        Executor(ExtendSchedule(v, attachment), Chain(AttachedExtend(v, a, newSize)), [], None, None)
      else Executor(ExtendSchedule(v, attachment), Chain(AttachedExtend(v, a, newSize)), [], None, None)
  }

  lemma DetachedFacts(v: string, newSize: int)
    ensures var r := DetachedExtend(v, newSize);
            && ExtendsTo(r, newSize) && EndsWaitingFor(r, Available)
            && Lacks(r, {Calls(DetachVolume), Calls(AttachVolume)})
            && TransitionsOn(r, v) == [BeginUpdating]
  {
    var r := DetachedExtend(v, newSize);
    assert LabelOf(r[0]) == Calls(ExtendVolume);
    TransitionsOnFrom(r, 1, v);
    TransitionsOnFrom(r, 0, v);
    assert r[0..] == r;
  }

  lemma AttachedFacts(v: string, a: Attachment, newSize: int)
    ensures var r := AttachedExtend(v, a, newSize);
            ExtendsTo(r, newSize) && EndsWaitingFor(r, InUse) && ReattachedAround(r, v, a)
  {
    var r := AttachedExtend(v, a, newSize);
    assert LabelOf(r[3]) == Calls(ExtendVolume);
    assert r[5] == Backend(v, AttachVolume, None, [InstanceUuid(a.instance), Device(a.device)]);
    assert forall k :: 0 <= k < |r| && LabelOf(r[k]) == Calls(ExtendVolume) ==> k == 3;
  }

  lemma AttachedTransitions(v: string, a: Attachment, newSize: int)
    requires a.instance != v
    ensures var r := AttachedExtend(v, a, newSize);
            TransitionsOn(r, v) == [BeginUpdating] && TransitionsOn(r, a.instance) == [BeginResizing]
  {
    var r := AttachedExtend(v, a, newSize);
    AfterResizeStarts(v, a, newSize, v);
    AfterResizeStarts(v, a, newSize, a.instance);
    TransitionsOnFrom(r, 0, v);
    TransitionsOnFrom(r, 0, a.instance);
    assert r[0..] == r;
  }

  /** After the instance's transition, only the detach applies a transition, to the volume. */
  lemma AfterResizeStarts(v: string, a: Attachment, newSize: int, w: string)
    ensures TransitionsOn(AttachedExtend(v, a, newSize)[1..], w) == if w == v then [BeginUpdating] else []
  {
    var r := AttachedExtend(v, a, newSize);
    TransitionsOnFrom(r, 6, w);
    assert TransitionsOn(r[6..], w) == [];
    TransitionsOnFrom(r, 5, w);
    assert TransitionsOn(r[5..], w) == [];
    TransitionsOnFrom(r, 4, w);
    assert TransitionsOn(r[4..], w) == [];
    TransitionsOnFrom(r, 3, w);
    assert TransitionsOn(r[3..], w) == [];
    TransitionsOnFrom(r, 2, w);
    assert TransitionsOn(r[2..], w) == [];
    TransitionsOnFrom(r, 1, w);
  }
}
