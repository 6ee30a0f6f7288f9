/**
 * Validation of instance provisioning requests, in the legacy application
 * (instances of a tenant) and in the settings-scoped application (instances
 * of the service settings a tenant is exposed as), and what a validated
 * request creates: the SSH key name, the disk and the two volumes, and the
 * instance a backup is restored into.
 *
 * Checks run in the order the serializers run them; the first failing
 * check is the error reported.
 */
module InstanceRequests {
  import opened Wrappers
  import opened Seqs
  import opened States
  import Q = Quotas

  datatype Flavor = Flavor(name: string, settings: string, ram: int, disk: int, cores: int)

  datatype Image = Image(settings: string, minRam: int, minDisk: int)

  /** A floating IP offered for a new instance; `owner` is its tenant, or its settings in the settings-scoped application. */
  datatype FloatingIp = FloatingIp(status: string, owner: string)

  const Down: string := "DOWN"

  datatype InstanceError =
    | SettingsMismatch
    | TenantMismatch
    | RamTooSmall
    | FlavorDiskTooSmall
    | SystemVolumeTooSmall
    | ForeignSecurityGroup
    | NoInternalNetwork
    | NoExternalNetwork
    | TenantNotStable
    | FloatingIpNotDown
    | FloatingIpElsewhere
    | FloatingIpQuotaFilled

  /** The image's minimum RAM and disk against the flavor and the system volume. */
  function CheckImageFits(flavor: Flavor, image: Image, systemVolumeSize: int): (o: Outcome<InstanceError>)
    ensures o.Pass? <==> image.minRam <= flavor.ram && image.minDisk <= flavor.disk && image.minDisk <= systemVolumeSize
    ensures o == Fail(SystemVolumeTooSmall) ==> image.minDisk <= flavor.disk
  {
    if image.minRam > flavor.ram then Fail(RamTooSmall)
    else if image.minDisk > flavor.disk then Fail(FlavorDiskTooSmall)
    else if image.minDisk > systemVolumeSize then Fail(SystemVolumeTooSmall)
    else Pass
  }

  /** The first index whose entry differs from `expected`, if any. */
  function FirstOther(xs: seq<string>, expected: string): (r: Option<nat>)
    ensures r.None? <==> forall i :: 0 <= i < |xs| ==> xs[i] == expected
    ensures r.Some? ==> r.value < |xs| && xs[r.value] != expected
    decreases |xs|
  {
    if xs == [] then None
    else if xs[0] != expected then Some(0)
    else match FirstOther(xs[1..], expected)
      case None =>
        assert forall i :: 0 < i < |xs| ==> xs[i] == xs[1..][i - 1];
        None
      case Some(k) => Some(k + 1)
  }

  /* ---------------------------------------------------------------------- */
  /* Tenant application                                                     */

  datatype Tenant = Tenant(id: string, spl: string, state: State, internalNetworkId: string,
                           externalNetworkId: string, floatingIpCount: Q.Quota)

  datatype InstanceRequest = InstanceRequest(
    spl: string,
    settings: string,
    flavor: Flavor,
    image: Image,
    tenant: Tenant,
    systemVolumeSize: int,
    securityGroupSpls: seq<string>,
    floatingIp: Option<FloatingIp>,
    skipExternalIpAssignment: bool)

  /** `_validate_tenant`: an external IP needs an external network and a tenant in state OK. */
  function CheckTenantForExternalIp(t: Tenant): (o: Outcome<InstanceError>)
    ensures o.Pass? <==> t.externalNetworkId != "" && t.state == Ok
  {
    if t.externalNetworkId == "" then Fail(NoExternalNetwork)
    else if t.state != Ok then Fail(TenantNotStable)
    else Pass
  }

  /**
   * `_validate_external_ip`: a requested floating IP must be DOWN and of the
   * same tenant; allocating a new one needs room in the floating-IP quota;
   * both need a tenant that can take an external IP; skipping the external
   * IP needs nothing.
   */
  function CheckExternalIp(q: InstanceRequest): (o: Outcome<InstanceError>)
    ensures q.floatingIp.None? && q.skipExternalIpAssignment ==> o.Pass?
    ensures q.floatingIp.Some? ==>
              (o.Pass? <==> && q.tenant.externalNetworkId != "" && q.tenant.state == Ok
                            && q.floatingIp.value.status == Down && q.floatingIp.value.owner == q.tenant.id)
    ensures q.floatingIp.None? && !q.skipExternalIpAssignment ==>
              (o.Pass? <==> && q.tenant.externalNetworkId != "" && q.tenant.state == Ok
                            && !Q.IsExceeded(q.tenant.floatingIpCount, 1))
  {
    if q.floatingIp.Some? then
      match CheckTenantForExternalIp(q.tenant)
      case Fail(e) => Fail(e)
      case Pass =>
        if q.floatingIp.value.status != Down then Fail(FloatingIpNotDown)
        else if q.floatingIp.value.owner != q.tenant.id then Fail(FloatingIpElsewhere)
        else Pass
    else if !q.skipExternalIpAssignment then
      match CheckTenantForExternalIp(q.tenant)
      case Fail(e) => Fail(e)
      case Pass => if Q.IsExceeded(q.tenant.floatingIpCount, 1) then Fail(FloatingIpQuotaFilled) else Pass
    else Pass
  }

  /** Every condition a new instance request must meet. */
  predicate InstanceAcceptable(q: InstanceRequest)
  {
    && q.flavor.settings == q.settings && q.image.settings == q.settings
    && q.tenant.spl == q.spl
    && q.image.minRam <= q.flavor.ram && q.image.minDisk <= q.flavor.disk && q.image.minDisk <= q.systemVolumeSize
    && (forall i :: 0 <= i < |q.securityGroupSpls| ==> q.securityGroupSpls[i] == q.spl)
    && q.tenant.internalNetworkId != ""
    && CheckExternalIp(q).Pass?
  }

  /** `InstanceSerializer.validate`: updates are not validated; creations are checked in order. */
  function ValidateInstance(q: InstanceRequest, isUpdate: bool): (o: Outcome<InstanceError>)
    ensures isUpdate ==> o.Pass?
    ensures !isUpdate ==> (o.Pass? <==> InstanceAcceptable(q))
    ensures !isUpdate ==> (o == Fail(SettingsMismatch) <==> q.flavor.settings != q.settings || q.image.settings != q.settings)
    ensures o == Fail(NoInternalNetwork) ==> q.tenant.internalNetworkId == "" && q.tenant.spl == q.spl
    ensures o == Fail(FloatingIpQuotaFilled) ==> q.floatingIp.None? && !q.skipExternalIpAssignment
  {
    if isUpdate then Pass
    else if q.flavor.settings != q.settings || q.image.settings != q.settings then Fail(SettingsMismatch)
    else if q.tenant.spl != q.spl then Fail(TenantMismatch)
    else match CheckImageFits(q.flavor, q.image, q.systemVolumeSize)
      case Fail(e) => Fail(e)
      case Pass =>
        if FirstOther(q.securityGroupSpls, q.spl).Some? then Fail(ForeignSecurityGroup)
        else if q.tenant.internalNetworkId == "" then Fail(NoInternalNetwork)
        else CheckExternalIp(q)
  }

  /** An accepted request that allocates a floating IP leaves the quota within its limit once the IP is counted. */
  lemma AcceptedAllocationFits(q: InstanceRequest)
    requires ValidateInstance(q, false).Pass? && q.floatingIp.None? && !q.skipExternalIpAssignment
    ensures q.tenant.floatingIpCount.usage + 1 <= q.tenant.floatingIpCount.limit
  {
  }

  /** A requested floating IP that is not DOWN is always refused, whatever else the request says. */
  lemma BusyFloatingIpRefused(q: InstanceRequest)
    requires q.floatingIp.Some? && q.floatingIp.value.status != Down
    ensures ValidateInstance(q, false).Fail?
  {
  }

  /* ---------------------------------------------------------------------- */
  /* Settings-scoped application                                            */

  datatype SettingsInstanceRequest = SettingsInstanceRequest(
    settings: string,
    flavor: Flavor,
    image: Image,
    systemVolumeSize: int,
    securityGroupSettings: seq<string>,
    floatingIp: Option<FloatingIp>,
    allocateFloatingIp: bool,
    floatingIpCount: Q.Quota)

  predicate SettingsInstanceAcceptable(q: SettingsInstanceRequest)
  {
    && q.flavor.settings == q.settings && q.image.settings == q.settings
    && q.image.minRam <= q.flavor.ram && q.image.minDisk <= q.flavor.disk && q.image.minDisk <= q.systemVolumeSize
    && (forall i :: 0 <= i < |q.securityGroupSettings| ==> q.securityGroupSettings[i] == q.settings)
    && (if q.floatingIp.Some? then q.floatingIp.value.status == Down && q.floatingIp.value.owner == q.settings
        else q.allocateFloatingIp ==> !Q.IsExceeded(q.floatingIpCount, 1))
  }

  /**
   * The settings-scoped `InstanceSerializer.validate`: the same image checks;
   * security groups and the floating IP must be of the same settings; no
   * tenant or network checks.
   */
  function ValidateSettingsInstance(q: SettingsInstanceRequest, isUpdate: bool): (o: Outcome<InstanceError>)
    ensures isUpdate ==> o.Pass?
    ensures !isUpdate ==> (o.Pass? <==> SettingsInstanceAcceptable(q))
    ensures o.Fail? ==> o.error !in {TenantMismatch, NoInternalNetwork, NoExternalNetwork, TenantNotStable}
  {
    if isUpdate then Pass
    else if q.flavor.settings != q.settings || q.image.settings != q.settings then Fail(SettingsMismatch)
    else match CheckImageFits(q.flavor, q.image, q.systemVolumeSize)
      case Fail(e) => Fail(e)
      case Pass =>
        if FirstOther(q.securityGroupSettings, q.settings).Some? then Fail(ForeignSecurityGroup)
        else if q.floatingIp.Some? then
          if q.floatingIp.value.status != Down then Fail(FloatingIpNotDown)
          else if q.floatingIp.value.owner != q.settings then Fail(FloatingIpElsewhere)
          else Pass
        else if q.allocateFloatingIp && Q.IsExceeded(q.floatingIpCount, 1) then Fail(FloatingIpQuotaFilled)
        else Pass
  }

  /** Without a floating IP and without allocation, only the flavor, image and groups matter. */
  lemma NoExternalIpNeedsNoQuota(q: SettingsInstanceRequest)
    requires q.floatingIp.None? && !q.allocateFloatingIp
    ensures ValidateSettingsInstance(q, false) == ValidateSettingsInstance(q.(floatingIpCount := Q.Quota(1, 0)), false)
  {
  }

  /* ---------------------------------------------------------------------- */
  /* SSH key name                                                           */

  /** The characters OpenStack allows in key names: letters, digits, '-', '_' and space. */
  predicate KeyNameChar(c: char)
  {
    c == '-' || c == '_' || c == ' ' || ('a' <= c <= 'z') || ('A' <= c <= 'Z') || ('0' <= c <= '9')
  }

  /**
   * Every maximal run of other characters replaced by one '_'. `inRun`
   * says whether the character before `s` was replaced already.
   */
  function Sanitize(s: string, inRun: bool): (r: string)
    ensures forall i :: 0 <= i < |r| ==> KeyNameChar(r[i])
    ensures |r| <= |s|
    ensures (forall i :: 0 <= i < |s| ==> KeyNameChar(s[i])) ==> r == s
    decreases |s|
  {
    if s == [] then []
    else if KeyNameChar(s[0]) then [s[0]] + Sanitize(s[1..], false)
    else if inRun then Sanitize(s[1..], true)
    else ['_'] + Sanitize(s[1..], true)
  }

  /** A name made only of allowed characters is kept, so sanitizing twice is sanitizing once. */
  lemma SanitizeIdempotent(s: string)
    ensures Sanitize(Sanitize(s, false), false) == Sanitize(s, false)
  {
  }

  /** Two disallowed characters in a row become a single '_'. */
  lemma RunBecomesOneUnderscore()
    ensures Sanitize("a!?b", false) == "a_b"
  {
    assert "a!?b"[1..] == "!?b" && "!?b"[1..] == "?b" && "?b"[1..] == "b";
  }

  /** Python's `s[:n]`. */
  function Prefix(s: string, n: nat): (r: string)
    ensures |r| == if |s| <= n then |s| else n
    ensures r <= s
  {
    if |s| <= n then s else s[..n]
  }

  /** The key name: the key's uuid, a dash, and the first 17 characters of the sanitized name. */
  function KeyName(uuidHex: string, name: string): (r: string)
    ensures |r| >= |uuidHex| + 1 && r[..|uuidHex| + 1] == uuidHex + "-"
    ensures |r| <= |uuidHex| + 1 + 17
    ensures forall i :: |uuidHex| + 1 <= i < |r| ==> KeyNameChar(r[i])
  {
    uuidHex + "-" + Prefix(Sanitize(name, false), 17)
  }

  /* ---------------------------------------------------------------------- */
  /* What a validated request creates                                       */

  datatype NewVolume = NewVolume(name: string, size: int, bootable: bool)

  /** Volume names may hold at most 150 characters. */
  const MaxVolumeName: nat := 150

  /**
   * `InstanceSerializer.create`: the disk is the sum of the system and data
   * volume sizes; the system volume is bootable and named after the first 143
   * characters of the instance name, the data volume after the first 145.
   */
  function CreatedVolumes(name: string, systemVolumeSize: int, dataVolumeSize: int): (r: (int, seq<NewVolume>))
    ensures |r.1| == 2 && r.1[0].bootable && !r.1[1].bootable
    ensures r.1[0].size == systemVolumeSize && r.1[1].size == dataVolumeSize
    ensures r.0 == r.1[0].size + r.1[1].size
    ensures |r.1[0].name| <= MaxVolumeName && |r.1[1].name| <= MaxVolumeName
    ensures r.1[0].name != r.1[1].name
  {
    var system := Prefix(name, 143) + "-system";
    var data := Prefix(name, 145) + "-data";
    assert system[|system| - 1] == 'm' && data[|data| - 1] == 'a';
    (dataVolumeSize + systemVolumeSize, [NewVolume(system, systemVolumeSize, true), NewVolume(data, dataVolumeSize, false)])
  }

  function AsInstanceVolume(v: NewVolume): Q.InstanceVolume
  {
    Q.InstanceVolume(v.size, v.bootable)
  }

  /** The created instance's size, its system volume and its data volume are the requested ones. */
  lemma CreatedInstanceMatchesRequest(name: string, systemVolumeSize: int, dataVolumeSize: int)
    ensures var (disk, vs) := CreatedVolumes(name, systemVolumeSize, dataVolumeSize);
            var ivs := Map(vs, AsInstanceVolume);
            && Q.InstanceSize(ivs) == Some(disk)
            && Q.SystemVolume(ivs) == Some(Q.InstanceVolume(systemVolumeSize, true))
            && Q.DataVolume(ivs) == Some(Q.InstanceVolume(dataVolumeSize, false))
  {
    var (disk, vs) := CreatedVolumes(name, systemVolumeSize, dataVolumeSize);
    var ivs := Map(vs, AsInstanceVolume);
    assert ivs[0] == Q.InstanceVolume(systemVolumeSize, true);
    assert ivs[1] == Q.InstanceVolume(dataVolumeSize, false);
    assert ivs[1..][1..] == [];
    assert ivs[1..][0] == ivs[1];
    assert Sum(ivs, Q.VolumeSize) == systemVolumeSize + Sum(ivs[1..], Q.VolumeSize);
    assert Sum(ivs[1..], Q.VolumeSize) == dataVolumeSize + Sum(ivs[1..][1..], Q.VolumeSize);
    assert Q.DataVolume(ivs) == Q.First(ivs[1..], Q.IsData);
  }

  /* ---------------------------------------------------------------------- */
  /* Restoration from a backup                                              */

  datatype BackupSource = BackupSource(
    sourceName: string,
    flavorSettings: string,
    metadata: map<string, string>,
    snapshotSizes: seq<int>)

  datatype RestoredInstance = RestoredInstance(name: string, disk: int, volumes: seq<NewVolume>)

  datatype RestorationError = FlavorElsewhere

  /** `BackupRestorationSerializer.validate`: the flavor must be of the backed-up instance's settings. */
  function ValidateRestoration(b: BackupSource, flavor: Flavor): (o: Outcome<RestorationError>)
    ensures o.Pass? <==> flavor.settings == b.flavorSettings
  {
    if flavor.settings != b.flavorSettings then Fail(FlavorElsewhere) else Pass
  }

  /** The restored name: the requested one when non-empty, else the backup metadata's, else the source's. */
  function RestoredName(requested: Option<string>, b: BackupSource): (r: string)
    ensures requested.Some? && requested.value != "" ==> r == requested.value
    ensures (requested.None? || requested.value == "") && "name" in b.metadata ==> r == b.metadata["name"]
    ensures (requested.None? || requested.value == "") && "name" !in b.metadata ==> r == b.sourceName
  {
    if requested.Some? && requested.value != "" then requested.value
    else if "name" in b.metadata then b.metadata["name"]
    else b.sourceName
  }

  function RestoredVolume(name: string): int -> NewVolume
  {
    (size: int) => NewVolume(Prefix(name, 143) + "-volume", size, false)
  }

  function Identity(x: int): int
  {
    x
  }

  /**
   * `BackupRestorationSerializer.create`: an instance whose disk is the sum
   * of the snapshot sizes, with one volume per snapshot of the same size.
   */
  function Restore(requested: Option<string>, b: BackupSource): (r: RestoredInstance)
    ensures r.name == RestoredName(requested, b)
    ensures |r.volumes| == |b.snapshotSizes|
    ensures forall i :: 0 <= i < |r.volumes| ==> r.volumes[i].size == b.snapshotSizes[i]
    ensures forall i :: 0 <= i < |r.volumes| ==> |r.volumes[i].name| <= MaxVolumeName
  {
    var name := RestoredName(requested, b);
    RestoredInstance(name, Sum(b.snapshotSizes, Identity), Map(b.snapshotSizes, RestoredVolume(name)))
  }

  function NewVolumeSize(v: NewVolume): int
  {
    v.size
  }

  lemma {:induction false} SumOfMappedSizes(name: string, sizes: seq<int>)
    ensures Sum(Map(sizes, RestoredVolume(name)), NewVolumeSize) == Sum(sizes, Identity)
    decreases |sizes|
  {
    if sizes != [] {
      SumOfMappedSizes(name, sizes[1..]);
      assert Map(sizes, RestoredVolume(name))[1..] == Map(sizes[1..], RestoredVolume(name));
    }
  }

  /** The restored instance's disk is exactly the total size of its volumes. */
  lemma RestoredDiskIsVolumeTotal(requested: Option<string>, b: BackupSource)
    ensures var r := Restore(requested, b);
            r.disk == Sum(r.volumes, NewVolumeSize)
  {
    SumOfMappedSizes(RestoredName(requested, b), b.snapshotSizes);
  }
}
