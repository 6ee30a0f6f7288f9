/**
 * The periodic tasks' selection rules: which resources a stuck-resource
 * sweep marks erred, which schedules run, which backups expire, which
 * legacy instances are pulled, and what a successful instance pull clears.
 *
 * Times are integer timestamps in seconds.
 */
module Periodic {
  import opened Wrappers
  import opened Seqs
  import opened States
  import IS = InstanceStates

  /* ---------------------------------------------------------------------- */
  /* Stuck resources                                                        */

  const StuckTimeout: int := 30 * 60
  const TimedOutMessage: string := "Provisioning is timed out."

  /** A resource as the sweep sees it; `S` is the state type of its model. */
  datatype Tracked<S> = Tracked(state: S, modified: int, errorMessage: string)

  predicate IsStuck<S(==)>(r: Tracked<S>, now: int, source: S)
  {
    r.state == source && r.modified < now - StuckTimeout
  }

  function Sweep<S(==)>(now: int, source: S, erred: S): Tracked<S> -> Tracked<S>
  {
    (r: Tracked<S>) => if IsStuck(r, now, source) then r.(state := erred, errorMessage := TimedOutMessage) else r
  }

  /** The sweep over one model, from the model's provisioning state to its erred state. */
  function SetErredStuck<S(==)>(rs: seq<Tracked<S>>, now: int, source: S, erred: S): (r: seq<Tracked<S>>)
    ensures |r| == |rs|
    ensures forall i :: 0 <= i < |rs| ==> r[i].modified == rs[i].modified
    ensures source != erred ==> forall i :: 0 <= i < |rs| ==> (r[i] != rs[i] <==> IsStuck(rs[i], now, source))
  {
    Map(rs, Sweep(now, source, erred))
  }

  /** A resource stuck for more than 30 minutes becomes erred with the time-out message; its modification time stays. */
  lemma StuckResourceErred<S>(rs: seq<Tracked<S>>, now: int, source: S, erred: S, i: int)
    requires 0 <= i < |rs| && IsStuck(rs[i], now, source)
    ensures var r := SetErredStuck(rs, now, source, erred)[i];
            r.state == erred && r.errorMessage == TimedOutMessage && r.modified == rs[i].modified
  {
  }

  /** Every other resource is left as it was. */
  lemma OtherResourcesUntouched<S>(rs: seq<Tracked<S>>, now: int, source: S, erred: S, i: int)
    requires 0 <= i < |rs| && !IsStuck(rs[i], now, source)
    ensures SetErredStuck(rs, now, source, erred)[i] == rs[i]
  {
  }

  /** A second sweep at the same time finds nothing more to do. */
  lemma SweepIdempotent<S>(rs: seq<Tracked<S>>, now: int, source: S, erred: S)
    requires source != erred
    ensures var once := SetErredStuck(rs, now, source, erred);
            SetErredStuck(once, now, source, erred) == once
  {
  }

  /** The legacy sweep: old-style instances wait in PROVISIONING, volumes and snapshots in CREATING. */
  function SetErredStuckLegacy(instances: seq<Tracked<IS.InstanceState>>, volumes: seq<Tracked<State>>,
                               snapshots: seq<Tracked<State>>, now: int)
    : (r: (seq<Tracked<IS.InstanceState>>, seq<Tracked<State>>, seq<Tracked<State>>))
    ensures |r.0| == |instances| && |r.1| == |volumes| && |r.2| == |snapshots|
    ensures forall i :: 0 <= i < |instances| ==> (r.0[i] != instances[i] <==> IsStuck(instances[i], now, IS.Provisioning))
    ensures forall i :: 0 <= i < |volumes| ==> (r.1[i] != volumes[i] <==> IsStuck(volumes[i], now, Creating))
    ensures forall i :: 0 <= i < |snapshots| ==> (r.2[i] != snapshots[i] <==> IsStuck(snapshots[i], now, Creating))
  {
    (SetErredStuck(instances, now, IS.Provisioning, IS.Erred),
     SetErredStuck(volumes, now, Creating, Erred),
     SetErredStuck(snapshots, now, Creating, Erred))
  }

  /** An old-style instance stuck in PROVISIONING is erred; one in any other state is not touched. */
  lemma LegacyInstancesUseProvisioning(instances: seq<Tracked<IS.InstanceState>>, volumes: seq<Tracked<State>>,
                                       snapshots: seq<Tracked<State>>, now: int, i: int)
    requires 0 <= i < |instances|
    ensures var r := SetErredStuckLegacy(instances, volumes, snapshots, now).0[i];
            && (IsStuck(instances[i], now, IS.Provisioning) ==> r.state == IS.Erred && r.errorMessage == TimedOutMessage)
            && (instances[i].state != IS.Provisioning ==> r == instances[i])
  {
  }

  /** The sweep of the tenant-scoped settings: instances, volumes and snapshots all wait in CREATING. */
  function SetErredStuckResources(instances: seq<Tracked<State>>, volumes: seq<Tracked<State>>,
                                  snapshots: seq<Tracked<State>>, now: int)
    : (r: (seq<Tracked<State>>, seq<Tracked<State>>, seq<Tracked<State>>))
    ensures |r.0| == |instances| && |r.1| == |volumes| && |r.2| == |snapshots|
    ensures forall i :: 0 <= i < |instances| ==> (r.0[i] != instances[i] <==> IsStuck(instances[i], now, Creating))
    ensures forall i :: 0 <= i < |volumes| ==> (r.1[i] != volumes[i] <==> IsStuck(volumes[i], now, Creating))
    ensures forall i :: 0 <= i < |snapshots| ==> (r.2[i] != snapshots[i] <==> IsStuck(snapshots[i], now, Creating))
  {
    (SetErredStuck(instances, now, Creating, Erred),
     SetErredStuck(volumes, now, Creating, Erred),
     SetErredStuck(snapshots, now, Creating, Erred))
  }

  /** A resource modified exactly 30 minutes ago is not yet stuck. */
  lemma BoundaryNotStuck(r: Tracked<State>, now: int)
    requires r.modified == now - StuckTimeout
    ensures SetErredStuckResources([r], [r], [r], now) == ([r], [r], [r])
  {
    assert SetErredStuck([r], now, Creating, Erred) == [r] by {
      OtherResourcesUntouched([r], now, Creating, Erred, 0);
    }
  }

  /* ---------------------------------------------------------------------- */
  /* Schedules and expired backups                                          */

  datatype Schedule = Schedule(id: string, isActive: bool, nextTriggerAt: int)

  function Due(now: int): Schedule -> bool
  {
    (s: Schedule) => s.isActive && s.nextTriggerAt < now
  }

  /** `schedule_backups`: the schedules that are executed now. */
  function SchedulesToRun(schedules: seq<Schedule>, now: int): (r: seq<Schedule>)
    ensures |r| <= |schedules|
    ensures forall i :: 0 <= i < |r| ==> r[i] in schedules && r[i].isActive && r[i].nextTriggerAt < now
    ensures forall i :: 0 <= i < |schedules| && schedules[i].isActive && schedules[i].nextTriggerAt < now
                        ==> schedules[i] in r
  {
    var r := Filter(schedules, Due(now));
    assert forall i :: 0 <= i < |r| ==> r[i] in schedules && Due(now)(r[i]) by {
      forall i | 0 <= i < |r| ensures r[i] in schedules && Due(now)(r[i]) {
        FilterIn(schedules, Due(now), r[i]);
      }
    }
    assert forall i :: 0 <= i < |schedules| && Due(now)(schedules[i]) ==> schedules[i] in r by {
      forall i | 0 <= i < |schedules| && Due(now)(schedules[i]) ensures schedules[i] in r {
        FilterIn(schedules, Due(now), schedules[i]);
      }
    }
    r
  }

  lemma ScheduleRunsIffDue(schedules: seq<Schedule>, now: int, s: Schedule)
    ensures s in SchedulesToRun(schedules, now) <==> s in schedules && s.isActive && s.nextTriggerAt < now
  {
    FilterIn(schedules, Due(now), s);
  }

  /** A backup or DR backup with its retention limit; none means kept forever. */
  datatype Kept = Kept(id: string, state: State, keptUntil: Option<int>)

  function Expired(now: int): Kept -> bool
  {
    (b: Kept) => b.state == Ok && b.keptUntil.Some? && b.keptUntil.value < now
  }

  /** `delete_expired_backups`: the backups, then the DR backups, to delete. */
  function ExpiredBackups(backups: seq<Kept>, drBackups: seq<Kept>, now: int): (r: seq<Kept>)
    ensures |r| <= |backups| + |drBackups|
    ensures forall i :: 0 <= i < |r| ==> (r[i] in backups || r[i] in drBackups) && r[i].state == Ok
                                         && r[i].keptUntil.Some? && r[i].keptUntil.value < now
  {
    var a := Filter(backups, Expired(now));
    var b := Filter(drBackups, Expired(now));
    assert forall i :: 0 <= i < |a| ==> a[i] in backups && Expired(now)(a[i]) by {
      forall i | 0 <= i < |a| ensures a[i] in backups && Expired(now)(a[i]) {
        FilterIn(backups, Expired(now), a[i]);
      }
    }
    assert forall i :: 0 <= i < |b| ==> b[i] in drBackups && Expired(now)(b[i]) by {
      forall i | 0 <= i < |b| ensures b[i] in drBackups && Expired(now)(b[i]) {
        FilterIn(drBackups, Expired(now), b[i]);
      }
    }
    assert forall i :: |a| <= i < |a| + |b| ==> (a + b)[i] == b[i - |a|];
    a + b
  }

  lemma BackupExpiresIffOkAndPast(backups: seq<Kept>, drBackups: seq<Kept>, now: int, b: Kept)
    ensures b in ExpiredBackups(backups, drBackups, now) <==>
              (b in backups || b in drBackups) && b.state == Ok && b.keptUntil.Some? && b.keptUntil.value < now
  {
    FilterIn(backups, Expired(now), b);
    FilterIn(drBackups, Expired(now), b);
  }

  /** Backups kept forever never expire. */
  lemma KeptForeverNeverExpires(backups: seq<Kept>, drBackups: seq<Kept>, now: int, b: Kept)
    requires b.keptUntil.None?
    ensures b !in ExpiredBackups(backups, drBackups, now)
  {
    BackupExpiresIffOkAndPast(backups, drBackups, now, b);
  }

  /* ---------------------------------------------------------------------- */
  /* Legacy instance pull                                                   */

  datatype LegacyInstance = LegacyInstance(backendId: string, state: IS.InstanceState, errorMessage: string)

  function Pullable(): LegacyInstance -> bool
  {
    (i: LegacyInstance) => i.state in {IS.Erred, IS.Online, IS.Offline} && i.backendId != ""
  }

  /** `InstanceListPullTask.run`: the instances a periodic pull is scheduled for. */
  function InstancesToPull(instances: seq<LegacyInstance>): (r: seq<LegacyInstance>)
    ensures |r| <= |instances|
    ensures forall i :: 0 <= i < |r| ==> r[i] in instances && r[i].backendId != "" && (IS.IsStable(r[i].state) || r[i].state == IS.Erred)
  {
    var r := Filter(instances, Pullable());
    assert forall i :: 0 <= i < |r| ==> r[i] in instances && Pullable()(r[i]) by {
      forall i | 0 <= i < |r| ensures r[i] in instances && Pullable()(r[i]) {
        FilterIn(instances, Pullable(), r[i]);
      }
    }
    r
  }

  lemma PulledIffStableWithBackendId(instances: seq<LegacyInstance>, i: LegacyInstance)
    ensures i in InstancesToPull(instances) <==>
              i in instances && i.backendId != "" && (i.state == IS.Erred || IS.IsStable(i.state))
  {
    FilterIn(instances, Pullable(), i);
  }

  /** `on_pull_success`: a pulled instance that is not erred loses its error message. */
  function OnPullSuccess(i: LegacyInstance): (r: LegacyInstance)
    ensures r.state == i.state && r.backendId == i.backendId
    ensures r.errorMessage == "" <==> i.state != IS.Erred || i.errorMessage == ""
    ensures i.state == IS.Erred ==> r == i
  {
    if i.state != IS.Erred && i.errorMessage != "" then i.(errorMessage := "") else i
  }
}
