/**
 * Quota bookkeeping of tenants and of tenant-scoped service settings.
 *
 * A quota is a usage and a limit. The quota counters live outside this
 * repository; their assumed meaning is that a change by `delta` exceeds the
 * quota exactly when usage plus delta is above the limit, and that a
 * validated change that would exceed it is refused without changing any
 * usage. Resources add their footprint when they are created and take it
 * back when they are deleted.
 */
module Quotas {
  import opened Wrappers
  import opened Seqs

  datatype Quota = Quota(usage: int, limit: int)

  datatype QuotaName =
    | Instances
    | Ram
    | Vcpu
    | Volumes
    | Snapshots
    | Storage
    | BackupStorage
    | FloatingIpCount
    | SecurityGroupCount
    | SecurityGroupRuleCount

  /** The quotas of one scope, a tenant or a service settings. */
  datatype QuotaSet = QuotaSet(
    instances: Quota,
    ram: Quota,
    vcpu: Quota,
    volumes: Quota,
    snapshots: Quota,
    storage: Quota,
    backupStorage: Quota,
    floatingIpCount: Quota,
    securityGroupCount: Quota,
    securityGroupRuleCount: Quota)

  function Get(qs: QuotaSet, n: QuotaName): Quota
  {
    match n
    case Instances => qs.instances
    case Ram => qs.ram
    case Vcpu => qs.vcpu
    case Volumes => qs.volumes
    case Snapshots => qs.snapshots
    case Storage => qs.storage
    case BackupStorage => qs.backupStorage
    case FloatingIpCount => qs.floatingIpCount
    case SecurityGroupCount => qs.securityGroupCount
    case SecurityGroupRuleCount => qs.securityGroupRuleCount
  }

  function Set(qs: QuotaSet, n: QuotaName, q: Quota): (r: QuotaSet)
    ensures Get(r, n) == q
    ensures forall m :: m != n ==> Get(r, m) == Get(qs, m)
  {
    match n
    case Instances => qs.(instances := q)
    case Ram => qs.(ram := q)
    case Vcpu => qs.(vcpu := q)
    case Volumes => qs.(volumes := q)
    case Snapshots => qs.(snapshots := q)
    case Storage => qs.(storage := q)
    case BackupStorage => qs.(backupStorage := q)
    case FloatingIpCount => qs.(floatingIpCount := q)
    case SecurityGroupCount => qs.(securityGroupCount := q)
    case SecurityGroupRuleCount => qs.(securityGroupRuleCount := q)
  }

  /** The assumed meaning of `is_exceeded(delta)`. */
  predicate IsExceeded(q: Quota, delta: int)
  {
    q.usage + delta > q.limit
  }

  datatype QuotaError = QuotaExceeded(name: QuotaName)

  /** `add_quota_usage`: a validated change that would exceed the quota is refused. */
  function AddUsage(qs: QuotaSet, n: QuotaName, delta: int, validate: bool): (r: Result<QuotaSet, QuotaError>)
    ensures r.Failure? <==> validate && IsExceeded(Get(qs, n), delta)
    ensures r.Failure? ==> r.error == QuotaExceeded(n)
    ensures r.Success? ==> Get(r.value, n) == Get(qs, n).(usage := Get(qs, n).usage + delta)
    ensures r.Success? ==> forall m :: m != n ==> Get(r.value, m) == Get(qs, m)
  {
    if validate && IsExceeded(Get(qs, n), delta) then Failure(QuotaExceeded(n))
    else Success(Set(qs, n, Get(qs, n).(usage := Get(qs, n).usage + delta)))
  }

  /** An unvalidated change, which always goes through. */
  function Add(qs: QuotaSet, n: QuotaName, delta: int): QuotaSet
  {
    AddUsage(qs, n, delta, false).value
  }

  /** Two changes in a row; the first is kept only if the second goes through too. */
  function AddBoth(qs: QuotaSet, n1: QuotaName, d1: int, n2: QuotaName, d2: int, validate: bool)
    : Result<QuotaSet, QuotaError>
  {
    match AddUsage(qs, n1, d1, validate)
    case Failure(e) => Failure(e)
    case Success(q1) => AddUsage(q1, n2, d2, validate)
  }

  /** Only the usages of the given quotas differ. */
  predicate OthersUnchanged(before: QuotaSet, after: QuotaSet, touched: set<QuotaName>)
  {
    forall m :: m !in touched ==> Get(after, m) == Get(before, m)
  }

  /** The usage of `n` moved by `delta` and its limit stayed. */
  predicate Moved(before: QuotaSet, after: QuotaSet, n: QuotaName, delta: int)
  {
    Get(after, n) == Quota(Get(before, n).usage + delta, Get(before, n).limit)
  }

  /* ---------------------------------------------------------------------- */
  /* Footprints of resources                                                */

  /** Instance creation: one instance, its RAM and its cores; never validated. */
  function IncreaseInstance(qs: QuotaSet, ram: int, cores: int): (r: QuotaSet)
    ensures Moved(qs, r, Instances, 1) && Moved(qs, r, Ram, ram) && Moved(qs, r, Vcpu, cores)
    ensures OthersUnchanged(qs, r, {Instances, Ram, Vcpu})
  {
    Add(Add(Add(qs, Instances, 1), Ram, ram), Vcpu, cores)
  }

  function DecreaseInstance(qs: QuotaSet, ram: int, cores: int): (r: QuotaSet)
    ensures Moved(qs, r, Instances, -1) && Moved(qs, r, Ram, -ram) && Moved(qs, r, Vcpu, -cores)
    ensures OthersUnchanged(qs, r, {Instances, Ram, Vcpu})
  {
    Add(Add(Add(qs, Instances, -1), Ram, -ram), Vcpu, -cores)
  }

  /** Volume creation: one volume and its size in storage, validated unless told otherwise. */
  function IncreaseVolume(qs: QuotaSet, size: int, validate: bool): (r: Result<QuotaSet, QuotaError>)
    ensures r.Success? <==> !validate || (!IsExceeded(qs.volumes, 1) && !IsExceeded(qs.storage, size))
    ensures r.Success? ==> Moved(qs, r.value, Volumes, 1) && Moved(qs, r.value, Storage, size)
                           && OthersUnchanged(qs, r.value, {Volumes, Storage})
  {
    AddBoth(qs, Volumes, 1, Storage, size, validate)
  }

  function DecreaseVolume(qs: QuotaSet, size: int): (r: QuotaSet)
    ensures Moved(qs, r, Volumes, -1) && Moved(qs, r, Storage, -size)
    ensures OthersUnchanged(qs, r, {Volumes, Storage})
  {
    Add(Add(qs, Volumes, -1), Storage, -size)
  }

  /** Snapshot creation: one snapshot and its size in storage. */
  function IncreaseSnapshot(qs: QuotaSet, size: int, validate: bool): (r: Result<QuotaSet, QuotaError>)
    ensures r.Success? <==> !validate || (!IsExceeded(qs.snapshots, 1) && !IsExceeded(qs.storage, size))
    ensures r.Success? ==> Moved(qs, r.value, Snapshots, 1) && Moved(qs, r.value, Storage, size)
                           && OthersUnchanged(qs, r.value, {Snapshots, Storage})
  {
    AddBoth(qs, Snapshots, 1, Storage, size, validate)
  }

  function DecreaseSnapshot(qs: QuotaSet, size: int): (r: QuotaSet)
    ensures Moved(qs, r, Snapshots, -1) && Moved(qs, r, Storage, -size)
    ensures OthersUnchanged(qs, r, {Snapshots, Storage})
  {
    Add(Add(qs, Snapshots, -1), Storage, -size)
  }

  /** A volume backup occupies backup storage only. */
  function IncreaseVolumeBackup(qs: QuotaSet, size: int, validate: bool): (r: Result<QuotaSet, QuotaError>)
    ensures r.Success? <==> !validate || !IsExceeded(qs.backupStorage, size)
    ensures r.Success? ==> Moved(qs, r.value, BackupStorage, size) && OthersUnchanged(qs, r.value, {BackupStorage})
  {
    AddUsage(qs, BackupStorage, size, validate)
  }

  function DecreaseVolumeBackup(qs: QuotaSet, size: int): (r: QuotaSet)
    ensures Moved(qs, r, BackupStorage, -size) && OthersUnchanged(qs, r, {BackupStorage})
  {
    Add(qs, BackupStorage, -size)
  }

  /** Creating and then deleting an instance restores every quota. */
  lemma InstanceRoundTrip(qs: QuotaSet, ram: int, cores: int)
    ensures DecreaseInstance(IncreaseInstance(qs, ram, cores), ram, cores) == qs
  {
    var r := DecreaseInstance(IncreaseInstance(qs, ram, cores), ram, cores);
    QuotaSetExtensional(r, qs);
  }

  lemma VolumeRoundTrip(qs: QuotaSet, size: int, validate: bool)
    requires IncreaseVolume(qs, size, validate).Success?
    ensures DecreaseVolume(IncreaseVolume(qs, size, validate).value, size) == qs
  {
    QuotaSetExtensional(DecreaseVolume(IncreaseVolume(qs, size, validate).value, size), qs);
  }

  lemma SnapshotRoundTrip(qs: QuotaSet, size: int, validate: bool)
    requires IncreaseSnapshot(qs, size, validate).Success?
    ensures DecreaseSnapshot(IncreaseSnapshot(qs, size, validate).value, size) == qs
  {
    QuotaSetExtensional(DecreaseSnapshot(IncreaseSnapshot(qs, size, validate).value, size), qs);
  }

  lemma VolumeBackupRoundTrip(qs: QuotaSet, size: int, validate: bool)
    requires IncreaseVolumeBackup(qs, size, validate).Success?
    ensures DecreaseVolumeBackup(IncreaseVolumeBackup(qs, size, validate).value, size) == qs
  {
    QuotaSetExtensional(DecreaseVolumeBackup(IncreaseVolumeBackup(qs, size, validate).value, size), qs);
  }

  /** Two quota sets that agree on every quota are the same. */
  lemma QuotaSetExtensional(a: QuotaSet, b: QuotaSet)
    requires forall m :: Get(a, m) == Get(b, m)
    ensures a == b
  {
    assert Get(a, Instances) == Get(b, Instances) && Get(a, Ram) == Get(b, Ram) && Get(a, Vcpu) == Get(b, Vcpu);
    assert Get(a, Volumes) == Get(b, Volumes) && Get(a, Snapshots) == Get(b, Snapshots);
    assert Get(a, Storage) == Get(b, Storage) && Get(a, BackupStorage) == Get(b, BackupStorage);
    assert Get(a, FloatingIpCount) == Get(b, FloatingIpCount) && Get(a, SecurityGroupCount) == Get(b, SecurityGroupCount);
    assert Get(a, SecurityGroupRuleCount) == Get(b, SecurityGroupRuleCount);
  }

  /** A validated creation that goes through leaves the touched usages within their limits. */
  lemma ValidatedVolumeStaysWithinLimits(qs: QuotaSet, size: int)
    requires IncreaseVolume(qs, size, true).Success?
    ensures var r := IncreaseVolume(qs, size, true).value;
            r.volumes.usage <= r.volumes.limit && r.storage.usage <= r.storage.limit
  {
  }

  /* ---------------------------------------------------------------------- */
  /* Floating-IP count                                                       */

  const Down: string := "DOWN"

  /**
   * `change_floating_ip_quota_on_status_change`: the change of the floating
   * IP count when an IP is saved with `status`, given whether it was just
   * created and its status before the save.
   */
  function FloatingIpDelta(status: string, created: bool, previous: string): (d: int)
    ensures -1 <= d <= 1
  {
    if status != Down && (created || previous == Down) then 1
    else if status == Down && !created && previous != Down then -1
    else 0
  }

  /** The count contributed by one IP: one while its status is not DOWN. */
  function Counted(status: string): int
  {
    if status != Down then 1 else 0
  }

  /** The changes made by the saves of one IP: created with `statuses[0]`, then saved with each later status. */
  function HistoryDelta(statuses: seq<string>): int
    requires |statuses| > 0
    decreases |statuses|
  {
    if |statuses| == 1 then FloatingIpDelta(statuses[0], true, "")
    else
      HistoryDelta(statuses[..|statuses| - 1])
      + FloatingIpDelta(statuses[|statuses| - 1], false, statuses[|statuses| - 2])
  }

  /** Over any history of saves, the handler's changes add up to whether the IP is counted now. */
  lemma {:induction false} FloatingIpCountTracksStatus(statuses: seq<string>)
    requires |statuses| > 0
    ensures HistoryDelta(statuses) == Counted(statuses[|statuses| - 1])
    decreases |statuses|
  {
    if |statuses| > 1 {
      var init := statuses[..|statuses| - 1];
      FloatingIpCountTracksStatus(init);
      assert init[|init| - 1] == statuses[|statuses| - 2];
    }
  }

  /* ---------------------------------------------------------------------- */
  /* Security-group quota checks                                            */

  datatype GroupQuotaError = GroupCountExceeded | RuleCountExceeded

  /** The check on creating a group with `rules` rules. */
  function CheckGroupCreate(qs: QuotaSet, rules: nat): (o: Outcome<GroupQuotaError>)
    ensures o == Fail(GroupCountExceeded) <==> IsExceeded(qs.securityGroupCount, 1)
    ensures o.Pass? <==> !IsExceeded(qs.securityGroupCount, 1) && !IsExceeded(qs.securityGroupRuleCount, rules)
  {
    if IsExceeded(qs.securityGroupCount, 1) then Fail(GroupCountExceeded)
    else if IsExceeded(qs.securityGroupRuleCount, rules) then Fail(RuleCountExceeded)
    else Pass
  }

  /** The check on updating a group from `current` to `submitted` rules: only growth is checked. */
  function CheckGroupUpdate(qs: QuotaSet, current: nat, submitted: nat): (o: Outcome<GroupQuotaError>)
    ensures submitted <= current ==> o.Pass?
    ensures o.Fail? ==> o.error == RuleCountExceeded
    ensures submitted > current ==> (o.Pass? <==> !IsExceeded(qs.securityGroupRuleCount, submitted - current))
  {
    var added := submitted - current;
    if added > 0 && IsExceeded(qs.securityGroupRuleCount, added) then Fail(RuleCountExceeded) else Pass
  }

  /** A creation the check lets through keeps both counts within their limits once it is counted. */
  lemma AcceptedGroupFits(qs: QuotaSet, rules: nat)
    requires CheckGroupCreate(qs, rules).Pass?
    ensures var r := Add(Add(qs, SecurityGroupCount, 1), SecurityGroupRuleCount, rules);
            r.securityGroupCount.usage <= r.securityGroupCount.limit
            && r.securityGroupRuleCount.usage <= r.securityGroupRuleCount.limit
  {
  }

  /* ---------------------------------------------------------------------- */
  /* Instance size and volume roles                                         */

  datatype InstanceVolume = InstanceVolume(size: int, bootable: bool)

  function VolumeSize(v: InstanceVolume): int
  {
    v.size
  }

  /** `Instance.size`: the sum of the volume sizes, none for an instance without volumes. */
  function InstanceSize(volumes: seq<InstanceVolume>): (r: Option<int>)
    ensures r.None? <==> volumes == []
  {
    if volumes == [] then None else Some(Sum(volumes, VolumeSize))
  }

  /** Adding a volume adds its size. */
  lemma InstanceSizeGrowsByVolume(volumes: seq<InstanceVolume>, v: InstanceVolume)
    ensures InstanceSize(volumes + [v]).value == (if volumes == [] then 0 else InstanceSize(volumes).value) + v.size
  {
    SumAppend(volumes, [v], VolumeSize);
    assert Sum([v], VolumeSize) == v.size;
  }

  function IsBootable(v: InstanceVolume): bool
  {
    v.bootable
  }

  function IsData(v: InstanceVolume): bool
  {
    !v.bootable
  }

  /** The first volume satisfying `p`, as `.filter(...).first()` gives it. */
  function First(volumes: seq<InstanceVolume>, p: InstanceVolume -> bool): (r: Option<InstanceVolume>)
    ensures r.None? <==> forall i :: 0 <= i < |volumes| ==> !p(volumes[i])
    ensures r.Some? ==> exists i :: 0 <= i < |volumes| && volumes[i] == r.value && p(r.value)
                                    && forall j :: 0 <= j < i ==> !p(volumes[j])
    decreases |volumes|
  {
    if volumes == [] then None
    else if p(volumes[0]) then Some(volumes[0])
    else
      var r := First(volumes[1..], p);
      assert forall j :: 0 < j < |volumes| ==> volumes[j] == volumes[1..][j - 1];
      r
  }

  /** `system_volume`: the first bootable volume of the instance. */
  function SystemVolume(volumes: seq<InstanceVolume>): Option<InstanceVolume>
  {
    First(volumes, IsBootable)
  }

  /** `data_volume`: the first non-bootable volume of the instance. */
  function DataVolume(volumes: seq<InstanceVolume>): Option<InstanceVolume>
  {
    First(volumes, IsData)
  }

  /** The system volume is a bootable volume of the instance and the data volume a non-bootable one. */
  lemma VolumeRoles(volumes: seq<InstanceVolume>)
    ensures SystemVolume(volumes).Some? ==> SystemVolume(volumes).value in volumes && SystemVolume(volumes).value.bootable
    ensures DataVolume(volumes).Some? ==> DataVolume(volumes).value in volumes && !DataVolume(volumes).value.bootable
    ensures SystemVolume(volumes).None? <==> forall v :: v in volumes ==> !v.bootable
    ensures DataVolume(volumes).None? <==> forall v :: v in volumes ==> v.bootable
  {
  }
}
