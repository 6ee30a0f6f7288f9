/**
 * What the error handlers of composite operations do with the resources the
 * operation had scheduled: an instance and its volumes, a backup and its
 * snapshots, a tenant and its network and subnet, a DR backup and its
 * temporary resources, a restoration and its volumes.
 *
 * Every handler first marks the owner erred (the core's error transition,
 * which also records the error message), then sorts the sub-resources by
 * state into three groups: those never started on the backend are deleted,
 * some are kept as they are, and the rest are marked erred.
 */
module FailurePolicies {
  import opened Wrappers
  import opened Seqs
  import opened States

  /** A sub-resource: a volume, snapshot, volume backup, network or subnet. */
  datatype Sub = Sub(id: string, state: State, size: int)

  datatype Action = Delete | Keep | MarkErred

  /** Volumes of a failed instance or restoration: never-started ones go, OK ones stay, the rest err. */
  function SparesOk(s: State): Action
  {
    if s == CreationScheduled then Delete else if s == Ok then Keep else MarkErred
  }

  /** Snapshots of a failed backup, network and subnet of a failed tenant: never-started ones go, all others err. */
  function ErrsAll(s: State): Action
  {
    if s == CreationScheduled then Delete else MarkErred
  }

  /** A sub-resource after its action, when it is not deleted. */
  function AfterAction(policy: State -> Action): Sub -> Sub
  {
    (x: Sub) => if policy(x.state) == MarkErred then x.(state := Erred) else x
  }

  function Survives(policy: State -> Action): Sub -> bool
  {
    (x: Sub) => policy(x.state) != Delete
  }

  function Doomed(policy: State -> Action): Sub -> bool
  {
    (x: Sub) => policy(x.state) == Delete
  }

  /** The sub-resources left in the database, and those deleted from it, in their original order. */
  datatype Cleanup = Cleanup(kept: seq<Sub>, deleted: seq<Sub>)

  /** The handlers' loop: each sub-resource in turn is deleted, kept or marked erred. */
  function Clean(subs: seq<Sub>, policy: State -> Action): (c: Cleanup)
    ensures |c.kept| + |c.deleted| == |subs|
    decreases |subs|
  {
    if subs == [] then Cleanup([], [])
    else
      var rest := Clean(subs[1..], policy);
      match policy(subs[0].state)
      case Delete => Cleanup(rest.kept, [subs[0]] + rest.deleted)
      case Keep => Cleanup([subs[0]] + rest.kept, rest.deleted)
      case MarkErred => Cleanup([subs[0].(state := Erred)] + rest.kept, rest.deleted)
  }

  lemma MapCons<T, U>(x: T, s: seq<T>, f: T -> U)
    ensures Map([x] + s, f) == [f(x)] + Map(s, f)
  {
    assert forall i :: 0 < i < |s| + 1 ==> ([x] + s)[i] == s[i - 1];
  }

  /**
   * The loop agrees with a selection-based definition: the deleted ones are
   * exactly those the policy deletes, and the kept ones are the others after
   * their action.
   */
  lemma {:induction false} CleanIsSelection(subs: seq<Sub>, policy: State -> Action)
    ensures Clean(subs, policy).deleted == Filter(subs, Doomed(policy))
    ensures Clean(subs, policy).kept == Map(Filter(subs, Survives(policy)), AfterAction(policy))
    decreases |subs|
  {
    if subs != [] {
      CleanIsSelection(subs[1..], policy);
      if policy(subs[0].state) != Delete {
        MapCons(subs[0], Filter(subs[1..], Survives(policy)), AfterAction(policy));
      }
    }
  }

  /** Deleted: exactly the sub-resources whose state the policy deletes. */
  lemma DeletedIffPolicyDeletes(subs: seq<Sub>, policy: State -> Action, x: Sub)
    ensures x in Clean(subs, policy).deleted <==> x in subs && policy(x.state) == Delete
  {
    CleanIsSelection(subs, policy);
    FilterIn(subs, Doomed(policy), x);
  }

  /** Every sub-resource the policy does not delete is still there, after its action. */
  lemma SurvivorKept(subs: seq<Sub>, policy: State -> Action, x: Sub)
    requires x in subs && policy(x.state) != Delete
    ensures (if policy(x.state) == MarkErred then x.(state := Erred) else x) in Clean(subs, policy).kept
  {
    CleanIsSelection(subs, policy);
    FilterIn(subs, Survives(policy), x);
    var f := Filter(subs, Survives(policy));
    var i :| 0 <= i < |f| && f[i] == x;
    assert Map(f, AfterAction(policy))[i] == AfterAction(policy)(x);
  }

  /** Every kept sub-resource comes from a survivor of the input. */
  lemma KeptComesFromSurvivor(subs: seq<Sub>, policy: State -> Action, y: Sub)
    requires y in Clean(subs, policy).kept
    ensures exists x :: x in subs && policy(x.state) != Delete && y == AfterAction(policy)(x)
  {
    CleanIsSelection(subs, policy);
    var f := Filter(subs, Survives(policy));
    var i :| 0 <= i < |f| && Map(f, AfterAction(policy))[i] == y;
    FilterIn(subs, Survives(policy), f[i]);
  }

  /** Kept sub-resources are either erred or in a state the policy keeps. */
  lemma {:induction false} KeptStates(subs: seq<Sub>, policy: State -> Action)
    ensures forall y :: y in Clean(subs, policy).kept ==> y.state == Erred || policy(y.state) == Keep
    decreases |subs|
  {
    if subs != [] {
      KeptStates(subs[1..], policy);
    }
  }

  /** Sizes are preserved: what is kept and what is deleted add up to what there was. */
  lemma {:induction false} CleanSplitsSizes(subs: seq<Sub>, policy: State -> Action)
    ensures var c := Clean(subs, policy);
            Sum(subs, SizeOf) == Sum(c.kept, SizeOf) + Sum(c.deleted, SizeOf)
    decreases |subs|
  {
    if subs != [] {
      CleanSplitsSizes(subs[1..], policy);
      var rest := Clean(subs[1..], policy);
      var c := Clean(subs, policy);
      match policy(subs[0].state)
      case Delete =>
        assert c.deleted[1..] == rest.deleted;
      case Keep =>
        assert c.kept[1..] == rest.kept;
      case MarkErred =>
        assert c.kept[1..] == rest.kept;
    }
  }

  function SizeOf(x: Sub): int
  {
    x.size
  }

  /** A second pass finds nothing to do when the policy does not delete erred resources. */
  lemma {:induction false} CleanIdempotent(subs: seq<Sub>, policy: State -> Action)
    requires policy(Erred) != Delete
    ensures var c := Clean(subs, policy);
            Clean(c.kept, policy) == Cleanup(c.kept, [])
    decreases |subs|
  {
    if subs != [] {
      CleanIdempotent(subs[1..], policy);
      var rest := Clean(subs[1..], policy);
      var c := Clean(subs, policy);
      if policy(subs[0].state) != Delete {
        assert c.kept[1..] == rest.kept;
      }
    }
  }

  /** With either policy, every kept sub-resource is settled: OK or erred. */
  lemma SparesOkSettles(subs: seq<Sub>)
    ensures forall y :: y in Clean(subs, SparesOk).kept ==> y.state == Ok || y.state == Erred
  {
    KeptStates(subs, SparesOk);
  }

  lemma ErrsAllErrs(subs: seq<Sub>)
    ensures forall y :: y in Clean(subs, ErrsAll).kept ==> y.state == Erred
  {
    KeptStates(subs, ErrsAll);
  }

  /* ---------------------------------------------------------------------- */
  /* Instance and restoration failures                                      */

  /** The outcome of an error handler: the owner's state and the cleanup of its sub-resources. */
  datatype Failed = Failed(owner: State, subs: Cleanup)

  /**
   * `SetInstanceErredTask`: the instance errs; volumes never created are
   * deleted, OK volumes are left alone, all others err.
   */
  function SetInstanceErred(volumes: seq<Sub>): (r: Failed)
    ensures r.owner == Erred
    ensures forall v :: v in r.subs.deleted <==> v in volumes && v.state == CreationScheduled
    ensures forall v :: v in volumes && v.state == Ok ==> v in r.subs.kept
    ensures forall v :: v in volumes && v.state !in {Ok, CreationScheduled} ==> v.(state := Erred) in r.subs.kept
    ensures forall v :: v in r.subs.kept ==> v.state == Ok || v.state == Erred
  {
    var c := Clean(volumes, SparesOk);
    assert forall v :: v in c.deleted <==> v in volumes && v.state == CreationScheduled by {
      forall v ensures v in c.deleted <==> v in volumes && v.state == CreationScheduled {
        DeletedIffPolicyDeletes(volumes, SparesOk, v);
      }
    }
    assert forall v :: v in volumes && v.state == Ok ==> v in c.kept by {
      forall v | v in volumes && v.state == Ok ensures v in c.kept {
        SurvivorKept(volumes, SparesOk, v);
      }
    }
    assert forall v :: v in volumes && v.state !in {Ok, CreationScheduled} ==> v.(state := Erred) in c.kept by {
      forall v | v in volumes && v.state !in {Ok, CreationScheduled} ensures v.(state := Erred) in c.kept {
        SurvivorKept(volumes, SparesOk, v);
      }
    }
    SparesOkSettles(volumes);
    Failed(Erred, c)
  }

  /** `SetBackupRestorationErredTask`: the restored instance and its volumes, sorted like a failed instance. */
  function SetBackupRestorationErred(instanceVolumes: seq<Sub>): (r: Failed)
    ensures r.owner == Erred
    ensures forall v :: v in r.subs.deleted <==> v in instanceVolumes && v.state == CreationScheduled
    ensures forall v :: v in instanceVolumes && v.state == Ok ==> v in r.subs.kept
    ensures forall v :: v in r.subs.kept ==> v.state == Ok || v.state == Erred
  {
    SetInstanceErred(instanceVolumes)
  }

  /** Handling the same failure twice changes nothing more. */
  lemma InstanceFailureIdempotent(volumes: seq<Sub>)
    ensures var once := SetInstanceErred(volumes).subs.kept;
            SetInstanceErred(once) == Failed(Erred, Cleanup(once, []))
  {
    CleanIdempotent(volumes, SparesOk);
  }

  /* ---------------------------------------------------------------------- */
  /* Backup failures                                                        */

  datatype BackupSchedule = BackupSchedule(isActive: bool, errorMessage: string, runtimeState: string)

  datatype Backup = Backup(id: string, state: State, errorMessage: string, instanceName: string,
                           snapshots: seq<Sub>, schedule: Option<BackupSchedule>)

  const BackupFailedRuntimeState: string := "Failed to create backup"

  /** The message a failed backup leaves on its schedule. */
  function ScheduleErrorMessage(instanceName: string, error: string): string
  {
    "Failed to execute backup schedule for " + instanceName + ". Error: " + error
  }

  /** The schedule of a failed backup is switched off with the error. */
  function Deactivated(s: BackupSchedule, instanceName: string, error: string, recordsRuntime: bool): BackupSchedule
  {
    s.(isActive := false, errorMessage := ScheduleErrorMessage(instanceName, error),
       runtimeState := if recordsRuntime then BackupFailedRuntimeState else s.runtimeState)
  }

  /** The handled backup and the snapshots whose quota usage was given back. */
  datatype BackupFailure = BackupFailure(backup: Backup, released: seq<Sub>)

  /**
   * `SetBackupErredTask`: the backup errs with `error`; snapshots never
   * created are deleted after their quota usage is decreased; every other
   * snapshot errs, OK ones included; the schedule, when there is one, is
   * deactivated with the error. The tenant-scoped variant also records the
   * runtime state 'Failed to create backup' on the schedule
   * (`recordsRuntime`); the settings-scoped one does not.
   */
  function SetBackupErred(b: Backup, error: string, recordsRuntime: bool): (r: BackupFailure)
    ensures r.backup.id == b.id && r.backup.state == Erred && r.backup.errorMessage == error
    ensures forall x :: x in r.released <==> x in b.snapshots && x.state == CreationScheduled
    ensures forall x :: x in b.snapshots && x.state != CreationScheduled ==> x.(state := Erred) in r.backup.snapshots
    ensures forall x :: x in r.backup.snapshots ==> x.state == Erred
    ensures r.backup.schedule.Some? <==> b.schedule.Some?
    ensures r.backup.schedule.Some? ==>
              && !r.backup.schedule.value.isActive
              && r.backup.schedule.value.errorMessage == ScheduleErrorMessage(b.instanceName, error)
              && (recordsRuntime ==> r.backup.schedule.value.runtimeState == BackupFailedRuntimeState)
  {
    var c := Clean(b.snapshots, ErrsAll);
    assert forall x :: x in c.deleted <==> x in b.snapshots && x.state == CreationScheduled by {
      forall x ensures x in c.deleted <==> x in b.snapshots && x.state == CreationScheduled {
        DeletedIffPolicyDeletes(b.snapshots, ErrsAll, x);
      }
    }
    assert forall x :: x in b.snapshots && x.state != CreationScheduled ==> x.(state := Erred) in c.kept by {
      forall x | x in b.snapshots && x.state != CreationScheduled ensures x.(state := Erred) in c.kept {
        SurvivorKept(b.snapshots, ErrsAll, x);
      }
    }
    ErrsAllErrs(b.snapshots);
    var schedule := match b.schedule
      case None => None
      case Some(s) => Some(Deactivated(s, b.instanceName, error, recordsRuntime));
    BackupFailure(b.(state := Erred, errorMessage := error, snapshots := c.kept, schedule := schedule), c.deleted)
  }

  /**
   * The backup-storage usage stays equal to what the surviving snapshots
   * account for: every scheduled snapshot had added its size, and exactly the
   * deleted ones give it back.
   */
  lemma BackupFailureKeepsStorageAccounted(b: Backup, error: string, recordsRuntime: bool, base: int)
    ensures var r := SetBackupErred(b, error, recordsRuntime);
            base + Sum(b.snapshots, SizeOf) - Sum(r.released, SizeOf) == base + Sum(r.backup.snapshots, SizeOf)
  {
    CleanSplitsSizes(b.snapshots, ErrsAll);
  }

  /** `ForceDeleteBackupTask`: the ids deleted, in order: every snapshot, then the backup. */
  function ForceDeleteBackup(b: Backup): (r: seq<string>)
    ensures |r| == |b.snapshots| + 1 && r[|r| - 1] == b.id
    ensures forall i :: 0 <= i < |b.snapshots| ==> r[i] == b.snapshots[i].id
  {
    Map(b.snapshots, SubId) + [b.id]
  }

  function SubId(x: Sub): string
  {
    x.id
  }

  /* ---------------------------------------------------------------------- */
  /* Tenant creation                                                        */

  /** A tenant with its network and subnet; none means deleted. */
  datatype TenantParts = TenantParts(tenant: State, network: Option<Sub>, subnet: Option<Sub>)

  function OneErrsAll(x: Sub): Option<Sub>
  {
    if x.state == CreationScheduled then None else Some(x.(state := Erred))
  }

  /**
   * `TenantCreateErrorTask`: the tenant errs; its subnet, then its network,
   * is deleted when it was never created and erred otherwise.
   */
  function TenantCreateError(network: Sub, subnet: Sub): (r: TenantParts)
    ensures r.tenant == Erred
    ensures r.subnet.None? <==> subnet.state == CreationScheduled
    ensures r.network.None? <==> network.state == CreationScheduled
    ensures r.subnet.Some? ==> r.subnet.value == subnet.(state := Erred)
    ensures r.network.Some? ==> r.network.value == network.(state := Erred)
  {
    TenantParts(Erred, OneErrsAll(network), OneErrsAll(subnet))
  }

  /** The tenant handler sorts its network and subnet with the backup snapshots' policy. */
  lemma TenantErrorFollowsErrsAll(network: Sub, subnet: Sub)
    ensures var r := TenantCreateError(network, subnet);
            && (r.subnet.None? <==> Clean([subnet], ErrsAll).deleted == [subnet])
            && (r.subnet.Some? ==> Clean([subnet], ErrsAll).kept == [r.subnet.value])
            && (r.network.None? <==> Clean([network], ErrsAll).deleted == [network])
            && (r.network.Some? ==> Clean([network], ErrsAll).kept == [r.network.value])
  {
    assert [subnet][1..] == [] && [network][1..] == [];
  }

  /** `TenantCreateSuccessTask`: the network, the subnet and the tenant all become OK. */
  function TenantCreateSuccess(network: Sub, subnet: Sub): (r: TenantParts)
    ensures r.tenant == Ok && r.network == Some(network.(state := Ok)) && r.subnet == Some(subnet.(state := Ok))
  {
    TenantParts(Ok, Some(network.(state := Ok)), Some(subnet.(state := Ok)))
  }

  /* ---------------------------------------------------------------------- */
  /* DR backups                                                             */

  datatype DRBackup = DRBackup(id: string, state: State, errorMessage: string, runtimeState: string,
                               sourceInstanceName: string, temporaryVolumes: seq<Sub>,
                               temporarySnapshots: seq<Sub>, volumeBackups: seq<Sub>,
                               schedule: Option<BackupSchedule>)

  const DRErredRuntimeState: string := "Erred"
  const DRAvailableRuntimeState: string := "Available"

  function IsOk(x: Sub): bool
  {
    x.state == Ok
  }

  function NotOk(x: Sub): bool
  {
    x.state != Ok
  }

  /**
   * One related list of a failed DR backup: OK resources are left out of
   * the handling; of the others, never-created ones are deleted and the rest
   * err.
   */
  function DRClean(xs: seq<Sub>): Cleanup
  {
    var c := Clean(Filter(xs, NotOk), ErrsAll);
    Cleanup(Filter(xs, IsOk) + c.kept, c.deleted)
  }

  /** Leaving OK resources out and erring the rest is the same sorting as a failed instance's volumes. */
  lemma DRCleanSparesOk(xs: seq<Sub>, y: Sub)
    ensures y in DRClean(xs).deleted <==> y in Clean(xs, SparesOk).deleted
    ensures y in DRClean(xs).kept <==> y in Clean(xs, SparesOk).kept
  {
    var c := Clean(Filter(xs, NotOk), ErrsAll);
    DeletedIffPolicyDeletes(Filter(xs, NotOk), ErrsAll, y);
    DeletedIffPolicyDeletes(xs, SparesOk, y);
    FilterIn(xs, NotOk, y);
    FilterIn(xs, IsOk, y);
    if y in c.kept {
      KeptComesFromSurvivor(Filter(xs, NotOk), ErrsAll, y);
      var x :| x in Filter(xs, NotOk) && ErrsAll(x.state) != Delete && y == AfterAction(ErrsAll)(x);
      FilterIn(xs, NotOk, x);
      SurvivorKept(xs, SparesOk, x);
    }
    if y in Clean(xs, SparesOk).kept {
      KeptComesFromSurvivor(xs, SparesOk, y);
      var x :| x in xs && SparesOk(x.state) != Delete && y == AfterAction(SparesOk)(x);
      if x.state != Ok {
        FilterIn(xs, NotOk, x);
        SurvivorKept(Filter(xs, NotOk), ErrsAll, x);
      }
    }
  }

  datatype DRFailure = DRFailure(backup: DRBackup, released: seq<Sub>)

  /**
   * `SetDRBackupErredTask`: the DR backup errs; its temporary volumes,
   * temporary snapshots and volume backups are handled by `DRClean`, the
   * deleted ones after a quota decrease; the schedule is deactivated with
   * the error and runtime state 'Failed to create backup'; the DR backup's
   * runtime state becomes 'Erred'.
   */
  function SetDRBackupErred(d: DRBackup, error: string): (r: DRFailure)
    ensures r.backup.id == d.id && r.backup.state == Erred && r.backup.errorMessage == error
    ensures r.backup.runtimeState == DRErredRuntimeState
    ensures forall x :: x in r.released <==>
              (x in d.temporaryVolumes || x in d.temporarySnapshots || x in d.volumeBackups) && x.state == CreationScheduled
    ensures forall x :: x in d.temporaryVolumes && x.state == Ok ==> x in r.backup.temporaryVolumes
    ensures forall x :: x in d.volumeBackups && x.state == Ok ==> x in r.backup.volumeBackups
    ensures forall x :: x in r.backup.temporaryVolumes + r.backup.temporarySnapshots + r.backup.volumeBackups ==>
              x.state == Ok || x.state == Erred
    ensures r.backup.schedule.Some? <==> d.schedule.Some?
    ensures r.backup.schedule.Some? ==>
              && !r.backup.schedule.value.isActive
              && r.backup.schedule.value.errorMessage == ScheduleErrorMessage(d.sourceInstanceName, error)
              && r.backup.schedule.value.runtimeState == BackupFailedRuntimeState
  {
    var v := DRClean(d.temporaryVolumes);
    var s := DRClean(d.temporarySnapshots);
    var b := DRClean(d.volumeBackups);
    assert forall x :: x in v.deleted + s.deleted + b.deleted <==>
              (x in d.temporaryVolumes || x in d.temporarySnapshots || x in d.volumeBackups) && x.state == CreationScheduled by {
      forall x ensures x in v.deleted + s.deleted + b.deleted <==>
              (x in d.temporaryVolumes || x in d.temporarySnapshots || x in d.volumeBackups) && x.state == CreationScheduled {
        DRCleanSparesOk(d.temporaryVolumes, x);
        DRCleanSparesOk(d.temporarySnapshots, x);
        DRCleanSparesOk(d.volumeBackups, x);
        DeletedIffPolicyDeletes(d.temporaryVolumes, SparesOk, x);
        DeletedIffPolicyDeletes(d.temporarySnapshots, SparesOk, x);
        DeletedIffPolicyDeletes(d.volumeBackups, SparesOk, x);
      }
    }
    assert forall x :: x in d.temporaryVolumes && x.state == Ok ==> x in v.kept by {
      forall x | x in d.temporaryVolumes && x.state == Ok ensures x in v.kept {
        FilterIn(d.temporaryVolumes, IsOk, x);
      }
    }
    assert forall x :: x in d.volumeBackups && x.state == Ok ==> x in b.kept by {
      forall x | x in d.volumeBackups && x.state == Ok ensures x in b.kept {
        FilterIn(d.volumeBackups, IsOk, x);
      }
    }
    assert forall x :: x in v.kept + s.kept + b.kept ==> x.state == Ok || x.state == Erred by {
      forall x | x in v.kept + s.kept + b.kept ensures x.state == Ok || x.state == Erred {
        DRCleanSparesOk(d.temporaryVolumes, x);
        DRCleanSparesOk(d.temporarySnapshots, x);
        DRCleanSparesOk(d.volumeBackups, x);
        SparesOkSettles(d.temporaryVolumes);
        SparesOkSettles(d.temporarySnapshots);
        SparesOkSettles(d.volumeBackups);
      }
    }
    var schedule := match d.schedule
      case None => None
      case Some(sc) => Some(Deactivated(sc, d.sourceInstanceName, error, true));
    DRFailure(d.(state := Erred, errorMessage := error, runtimeState := DRErredRuntimeState,
                 temporaryVolumes := v.kept, temporarySnapshots := s.kept, volumeBackups := b.kept,
                 schedule := schedule),
              v.deleted + s.deleted + b.deleted)
  }

  /** What a DR cleanup leaves behind: deletions scheduled in order, and the new runtime state. */
  datatype DRCleanUp = DRCleanUp(scheduledDeletions: seq<string>, backup: DRBackup)

  /**
   * `CleanUpDRBackupTask`: deletion is scheduled for every temporary
   * snapshot and then every temporary volume; the DR backup becomes
   * 'Available'.
   */
  function CleanUpDRBackup(d: DRBackup): (r: DRCleanUp)
    ensures |r.scheduledDeletions| == |d.temporarySnapshots| + |d.temporaryVolumes|
    ensures forall i :: 0 <= i < |d.temporarySnapshots| ==> r.scheduledDeletions[i] == d.temporarySnapshots[i].id
    ensures forall i :: 0 <= i < |d.temporaryVolumes| ==>
              r.scheduledDeletions[|d.temporarySnapshots| + i] == d.temporaryVolumes[i].id
    ensures r.backup == d.(runtimeState := DRAvailableRuntimeState)
  {
    DRCleanUp(Map(d.temporarySnapshots, SubId) + Map(d.temporaryVolumes, SubId), d.(runtimeState := DRAvailableRuntimeState))
  }

  /** `ForceDeleteDRBackupTask`: every volume backup is deleted, then the DR backup; temporary resources are not. */
  function ForceDeleteDRBackup(d: DRBackup): (r: seq<string>)
    ensures |r| == |d.volumeBackups| + 1 && r[|r| - 1] == d.id
    ensures forall i :: 0 <= i < |d.volumeBackups| ==> r[i] == d.volumeBackups[i].id
  {
    Map(d.volumeBackups, SubId) + [d.id]
  }

  /* ---------------------------------------------------------------------- */
  /* DR backup restorations                                                 */

  /** A restored volume and the mirrored backup it is restored from; the mirror link may be empty. */
  datatype VolumeBackupRestoration = VolumeBackupRestoration(volume: Sub, mirroredBackup: Option<Sub>)

  /** The resources related to a DR restoration: each volume, then its mirrored backup when there is one. */
  function Related(rs: seq<VolumeBackupRestoration>): (r: seq<Sub>)
    ensures forall i :: 0 <= i < |rs| ==> rs[i].volume in r
    ensures forall i :: 0 <= i < |rs| && rs[i].mirroredBackup.Some? ==> rs[i].mirroredBackup.value in r
    decreases |rs|
  {
    if rs == [] then []
    else
      [rs[0].volume] + (if rs[0].mirroredBackup.Some? then [rs[0].mirroredBackup.value] else [])
      + Related(rs[1..])
  }

  /** A handler run: the owner's state, the cleanup, and whether the handler raised. */
  datatype HandlerRun = HandlerRun(owner: State, subs: Cleanup, raised: bool)

  /**
   * `SetDRBackupRestorationErredTask` as written: the instance errs, then the
   * first restoration's mirrored backup is read under an attribute name the
   * model does not have, which raises before anything is cleaned up.
   */
  function SetDRRestorationErredAsWritten(rs: seq<VolumeBackupRestoration>): (r: HandlerRun)
    ensures r.owner == Erred
    ensures r.raised <==> |rs| > 0
    ensures r.subs.deleted == [] && r.subs.kept == Related(rs)
  {
    if rs == [] then HandlerRun(Erred, Cleanup([], []), false)
    else HandlerRun(Erred, Cleanup(Related(rs), []), true)
  }

  /**
   * The handler with the field name spelled as the model declares it: every
   * related volume and mirrored backup is sorted like a failed instance's
   * volumes; an empty mirror link is skipped.
   */
  function SetDRRestorationErred(rs: seq<VolumeBackupRestoration>): (r: HandlerRun)
    ensures r.owner == Erred && !r.raised
    ensures forall x :: x in r.subs.deleted <==> x in Related(rs) && x.state == CreationScheduled
    ensures forall x :: x in Related(rs) && x.state == Ok ==> x in r.subs.kept
    ensures forall x :: x in r.subs.kept ==> x.state == Ok || x.state == Erred
  {
    var f := SetInstanceErred(Related(rs));
    HandlerRun(f.owner, f.subs, false)
  }

  /** A restoration whose volume was never created: as written it stays behind in the database; corrected it is deleted. */
  lemma ScheduledVolumeLeftBehindAsWritten(v: Sub)
    requires v.state == CreationScheduled
    ensures var rs := [VolumeBackupRestoration(v, None)];
            && SetDRRestorationErredAsWritten(rs).raised
            && v in SetDRRestorationErredAsWritten(rs).subs.kept
            && v !in SetDRRestorationErredAsWritten(rs).subs.deleted
            && !SetDRRestorationErred(rs).raised
            && v in SetDRRestorationErred(rs).subs.deleted
  {
    var rs := [VolumeBackupRestoration(v, None)];
    assert rs[0].volume == v;
  }

  /** `RestoreVolumeOriginNameTask`: the restored volume takes the backup's name and description. */
  datatype NamedVolume = NamedVolume(id: string, name: string, description: string, size: int)

  function RestoreVolumeOriginName(v: NamedVolume, backupName: string, backupDescription: string): (r: NamedVolume)
    ensures r.name == backupName && r.description == backupDescription
    ensures r.id == v.id && r.size == v.size
  {
    v.(name := backupName, description := backupDescription)
  }
}
