/**
 * The translation between tenant quotas and the quota sets of the three
 * backend services: the limits read from them, the usage computed from their
 * listings, and the limits pushed to them (`get_tenant_quotas_limits`,
 * `get_tenant_quotas_usage`, `push_tenant_quotas`).
 *
 * Storage is counted in MiB locally and in GiB by the block-storage service;
 * GiB become MiB by multiplying by 1024, and the reverse conversion is left
 * abstract.
 */
module TenantQuotas {
  import opened Wrappers
  import opened Seqs

  function Gb2Mb(gb: int): int
  {
    gb * 1024
  }

  /** The compute service's quota set. */
  datatype NovaQuotas = NovaQuotas(ram: int, cores: int, instances: int)

  /** The block-storage service's quota set; sizes in GiB. */
  datatype CinderQuotas = CinderQuotas(gigabytes: int, snapshots: int, volumes: int)

  /** The network service's quota set. */
  datatype NeutronQuotas = NeutronQuotas(securityGroup: int, securityGroupRule: int, floatingIp: int)

  const QuotaKeys: set<string> :=
    {"ram", "vcpu", "storage", "snapshots", "volumes", "instances",
     "security_group_count", "security_group_rule_count", "floating_ip_count"}

  /** `get_tenant_quotas_limits`: the tenant's limits, keyed by quota name. */
  function TenantLimits(nova: NovaQuotas, cinder: CinderQuotas, neutron: NeutronQuotas): (r: map<string, int>)
    ensures r.Keys == QuotaKeys
  {
    map["ram" := nova.ram, "vcpu" := nova.cores, "storage" := Gb2Mb(cinder.gigabytes),
        "snapshots" := cinder.snapshots, "volumes" := cinder.volumes, "instances" := nova.instances,
        "security_group_count" := neutron.securityGroup,
        "security_group_rule_count" := neutron.securityGroupRule,
        "floating_ip_count" := neutron.floatingIp]
  }

  /** The limits pushed to each service; a key appears only for a quota that was given. */
  datatype PushedQuotas = PushedQuotas(cinder: map<string, int>, nova: map<string, int>, neutron: map<string, int>)

  function Given(quotas: map<string, Option<int>>, key: string): Option<int>
  {
    if key in quotas then quotas[key] else None
  }

  /** Adds `key` when there is a value for it. */
  function PutGiven(m: map<string, int>, key: string, v: Option<int>): map<string, int>
  {
    if v.Some? then m[key := v.value] else m
  }

  /**
   * `push_tenant_quotas`: each supplied, non-null quota is sent to its
   * service under that service's name; storage is converted to GiB by `mb2gb`.
   * A service with nothing to set is not called.
   */
  function PushTenantQuotas(quotas: map<string, Option<int>>, mb2gb: int -> int): (r: PushedQuotas)
    ensures r.cinder.Keys <= {"gigabytes", "volumes", "snapshots"}
    ensures r.nova.Keys <= {"instances", "cores", "ram"}
    ensures r.neutron.Keys <= {"security_group", "security_group_rule"}
    ensures ("gigabytes" in r.cinder <==> Given(quotas, "storage").Some?)
    ensures "gigabytes" in r.cinder ==> r.cinder["gigabytes"] == mb2gb(Given(quotas, "storage").value)
  {
    var storage := Given(quotas, "storage");
    var gigabytes := if storage.Some? then Some(mb2gb(storage.value)) else None;
    var cinder := PutGiven(PutGiven(PutGiven(map[], "gigabytes", gigabytes),
                                    "volumes", Given(quotas, "volumes")), "snapshots", Given(quotas, "snapshots"));
    var nova := PutGiven(PutGiven(PutGiven(map[], "instances", Given(quotas, "instances")),
                                  "cores", Given(quotas, "vcpu")), "ram", Given(quotas, "ram"));
    var neutron := PutGiven(PutGiven(map[], "security_group", Given(quotas, "security_group_count")),
                            "security_group_rule", Given(quotas, "security_group_rule_count"));
    PushedQuotas(cinder, nova, neutron)
  }

  /** The service-side name of each tenant quota that is pushed. */
  lemma PushedNames(quotas: map<string, Option<int>>, mb2gb: int -> int)
    ensures var r := PushTenantQuotas(quotas, mb2gb);
            && ("volumes" in r.cinder <==> Given(quotas, "volumes").Some?)
            && ("snapshots" in r.cinder <==> Given(quotas, "snapshots").Some?)
            && ("instances" in r.nova <==> Given(quotas, "instances").Some?)
            && ("cores" in r.nova <==> Given(quotas, "vcpu").Some?)
            && ("ram" in r.nova <==> Given(quotas, "ram").Some?)
            && ("security_group" in r.neutron <==> Given(quotas, "security_group_count").Some?)
            && ("security_group_rule" in r.neutron <==> Given(quotas, "security_group_rule_count").Some?)
            && ("cores" in r.nova ==> r.nova["cores"] == Given(quotas, "vcpu").value)
            && ("security_group" in r.neutron ==> r.neutron["security_group"] == Given(quotas, "security_group_count").value)
  {
  }

  /** Nothing supplied, nothing pushed. */
  lemma PushNothing(mb2gb: int -> int)
    ensures PushTenantQuotas(map[], mb2gb) == PushedQuotas(map[], map[], map[])
  {
    var r := PushTenantQuotas(map[], mb2gb);
    assert r.cinder.Keys == {} && r.nova.Keys == {} && r.neutron.Keys == {};
  }

  /** The limits as the tenant would supply them back. */
  function AsSupplied(limits: map<string, int>): map<string, Option<int>>
  {
    map k | k in limits :: Some(limits[k])
  }

  /**
   * Reading the limits and pushing them back sets the same values on the
   * compute and block-storage services and the security-group limits of the
   * network service, provided `mb2gb` undoes the GiB-to-MiB conversion.
   * The floating-IP limit is read but never pushed.
   */
  lemma PushUndoesLimits(nova: NovaQuotas, cinder: CinderQuotas, neutron: NeutronQuotas, mb2gb: int -> int)
    requires mb2gb(Gb2Mb(cinder.gigabytes)) == cinder.gigabytes
    ensures var r := PushTenantQuotas(AsSupplied(TenantLimits(nova, cinder, neutron)), mb2gb);
            && r.cinder == map["gigabytes" := cinder.gigabytes, "volumes" := cinder.volumes, "snapshots" := cinder.snapshots]
            && r.nova == map["instances" := nova.instances, "cores" := nova.cores, "ram" := nova.ram]
            && r.neutron == map["security_group" := neutron.securityGroup,
                                "security_group_rule" := neutron.securityGroupRule]
  {
    var r := PushTenantQuotas(AsSupplied(TenantLimits(nova, cinder, neutron)), mb2gb);
    assert r.cinder.Keys == {"gigabytes", "volumes", "snapshots"};
    assert r.nova.Keys == {"instances", "cores", "ram"};
    assert r.neutron.Keys == {"security_group", "security_group_rule"};
  }

  /* ---------------------------------------------------------------------- */
  /* Usage                                                                  */

  /** A flavor as listed; RAM or vCPUs may be missing and then count as 0. */
  datatype Flavor = Flavor(ram: Option<int>, vcpus: Option<int>)

  /**
   * The flavor of a server: the listed one when there is one, but a direct
   * lookup is made in any case and a flavor it cannot find is skipped.
   */
  function FlavorOf(flavorId: string, listed: map<string, Flavor>, lookup: string -> Option<Flavor>): Option<Flavor>
  {
    if lookup(flavorId).None? then None
    else if flavorId in listed then Some(listed[flavorId])
    else lookup(flavorId)
  }

  function OrZero(o: Option<int>): int
  {
    if o.Some? then o.value else 0
  }

  function RamOf(listed: map<string, Flavor>, lookup: string -> Option<Flavor>): string -> int
  {
    (flavorId: string) => var f := FlavorOf(flavorId, listed, lookup); if f.Some? then OrZero(f.value.ram) else 0
  }

  function VcpuOf(listed: map<string, Flavor>, lookup: string -> Option<Flavor>): string -> int
  {
    (flavorId: string) => var f := FlavorOf(flavorId, listed, lookup); if f.Some? then OrZero(f.value.vcpus) else 0
  }

  function Gb2MbOf(): int -> int
  {
    (gb: int) => Gb2Mb(gb)
  }

  function RuleCount(): seq<int> -> int
  {
    (rules: seq<int>) => |rules|
  }

  function Identity(): int -> int
  {
    (x: int) => x
  }

  /** What the services list for a tenant, reduced to what the usage needs. */
  datatype Listing = Listing(
    serverFlavors: seq<string>,
    volumeSizes: seq<int>,
    snapshotSizes: seq<int>,
    groupRules: seq<seq<int>>,
    floatingIps: nat)

  /** `get_tenant_quotas_usage`. */
  function TenantUsage(l: Listing, listed: map<string, Flavor>, lookup: string -> Option<Flavor>): (r: map<string, int>)
    ensures r.Keys == QuotaKeys
    ensures r["volumes"] == |l.volumeSizes| && r["snapshots"] == |l.snapshotSizes|
    ensures r["instances"] == |l.serverFlavors| && r["security_group_count"] == |l.groupRules|
    ensures r["floating_ip_count"] == l.floatingIps
  {
    map["ram" := Sum(l.serverFlavors, RamOf(listed, lookup)),
        "vcpu" := Sum(l.serverFlavors, VcpuOf(listed, lookup)),
        "storage" := Sum(l.volumeSizes + l.snapshotSizes, Gb2MbOf()),
        "volumes" := |l.volumeSizes|, "snapshots" := |l.snapshotSizes|,
        "instances" := |l.serverFlavors|, "security_group_count" := |l.groupRules|,
        "security_group_rule_count" := Sum(l.groupRules, RuleCount()),
        "floating_ip_count" := l.floatingIps]
  }

  /** Summing the GiB-to-MiB conversion is converting the sum. */
  lemma {:induction false} SumGb2Mb(sizes: seq<int>)
    ensures Sum(sizes, Gb2MbOf()) == Gb2Mb(Sum(sizes, Identity()))
    decreases |sizes|
  {
    if sizes != [] {
      SumGb2Mb(sizes[1..]);
    }
  }

  /** Storage usage is the total size of volumes and snapshots, in MiB. */
  lemma StorageUsageIsTotalSize(l: Listing, listed: map<string, Flavor>, lookup: string -> Option<Flavor>)
    ensures TenantUsage(l, listed, lookup)["storage"]
            == Gb2Mb(Sum(l.volumeSizes, Identity()) + Sum(l.snapshotSizes, Identity()))
  {
    SumGb2Mb(l.volumeSizes + l.snapshotSizes);
    SumAppend(l.volumeSizes, l.snapshotSizes, Identity());
  }

  /** A server whose flavor cannot be found adds an instance but no RAM or vCPUs. */
  lemma UnknownFlavorSkipped(l: Listing, listed: map<string, Flavor>, lookup: string -> Option<Flavor>, flavorId: string)
    requires lookup(flavorId).None?
    ensures var more := l.(serverFlavors := l.serverFlavors + [flavorId]);
            && TenantUsage(more, listed, lookup)["ram"] == TenantUsage(l, listed, lookup)["ram"]
            && TenantUsage(more, listed, lookup)["vcpu"] == TenantUsage(l, listed, lookup)["vcpu"]
            && TenantUsage(more, listed, lookup)["instances"] == TenantUsage(l, listed, lookup)["instances"] + 1
  {
    SumAppend(l.serverFlavors, [flavorId], RamOf(listed, lookup));
    SumAppend(l.serverFlavors, [flavorId], VcpuOf(listed, lookup));
  }

  /** A server whose flavor is found adds that flavor's RAM and vCPUs, missing values as 0. */
  lemma FoundFlavorCounted(l: Listing, listed: map<string, Flavor>, lookup: string -> Option<Flavor>, flavorId: string)
    requires lookup(flavorId).Some?
    ensures var more := l.(serverFlavors := l.serverFlavors + [flavorId]);
            var f := if flavorId in listed then listed[flavorId] else lookup(flavorId).value;
            && TenantUsage(more, listed, lookup)["ram"] == TenantUsage(l, listed, lookup)["ram"] + OrZero(f.ram)
            && TenantUsage(more, listed, lookup)["vcpu"] == TenantUsage(l, listed, lookup)["vcpu"] + OrZero(f.vcpus)
  {
    SumAppend(l.serverFlavors, [flavorId], RamOf(listed, lookup));
    SumAppend(l.serverFlavors, [flavorId], VcpuOf(listed, lookup));
  }

  /** The rule count is the number of rules over all groups. */
  lemma RuleCountAddsGroups(l: Listing, listed: map<string, Flavor>, lookup: string -> Option<Flavor>, rules: seq<int>)
    ensures var more := l.(groupRules := l.groupRules + [rules]);
            && TenantUsage(more, listed, lookup)["security_group_rule_count"]
               == TenantUsage(l, listed, lookup)["security_group_rule_count"] + |rules|
            && TenantUsage(more, listed, lookup)["security_group_count"]
               == TenantUsage(l, listed, lookup)["security_group_count"] + 1
  {
    SumAppend(l.groupRules, [rules], RuleCount());
  }
}
