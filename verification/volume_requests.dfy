/**
 * Validation and quota effects of volume requests (create, extend, attach),
 * of floating-IP assignment and of flavor changes.
 *
 * Quota changes go through `Quotas.AddUsage`, so a validated change that
 * would exceed the limit is refused with nothing changed.
 */
module VolumeRequests {
  import opened Wrappers
  import opened States
  import IS = InstanceStates
  import Q = Quotas
  import IR = InstanceRequests
  import TF = TextFields

  /* ---------------------------------------------------------------------- */
  /* Volume creation                                                        */

  /**
   * A new volume: the tenant's settings, an optional image, the requested
   * size and the size of the snapshot the validator reads, when there is one.
   */
  datatype VolumeCreate = VolumeCreate(settings: string, image: Option<IR.Image>, size: Option<int>,
                                       snapshotSize: Option<int>)

  datatype VolumeError = ImageElsewhere | NoSizeOrSnapshot | BothSizeAndSnapshot | TooSmallForImage

  /** Python truthiness of an optional integer: present and non-zero. */
  predicate Truthy(x: Option<int>)
  {
    x.Some? && x.value != 0
  }

  /** The size the volume gets: the requested one, else the snapshot's. */
  function EffectiveSize(q: VolumeCreate): int
    requires Truthy(q.size) || q.snapshotSize.Some?
  {
    if Truthy(q.size) then q.size.value else q.snapshotSize.value
  }

  /**
   * `VolumeSerializer.validate`: on creation the image must be of the
   * tenant's settings, exactly one of size and snapshot must be given, and the
   * image's minimum disk must fit the effective size. Updates are not checked.
   */
  function ValidateVolumeCreate(q: VolumeCreate, isUpdate: bool): (o: Outcome<VolumeError>)
    ensures isUpdate ==> o.Pass?
    ensures !isUpdate ==>
              (o.Pass? <==> && (q.image.None? || q.image.value.settings == q.settings)
                            && (Truthy(q.size) != q.snapshotSize.Some?)
                            && (q.image.None? || q.image.value.minDisk <= EffectiveSize(q)))
    ensures o == Fail(BothSizeAndSnapshot) ==> Truthy(q.size) && q.snapshotSize.Some?
  {
    if isUpdate then Pass
    else if q.image.Some? && q.image.value.settings != q.settings then Fail(ImageElsewhere)
    else if !Truthy(q.size) && q.snapshotSize.None? then Fail(NoSizeOrSnapshot)
    else if Truthy(q.size) && q.snapshotSize.Some? then Fail(BothSizeAndSnapshot)
    else if q.image.Some? && q.image.value.minDisk > EffectiveSize(q) then Fail(TooSmallForImage)
    else Pass
  }

  /** Without a snapshot, a volume is accepted iff it has a non-zero size its image fits in. */
  lemma SizeOnlyVolume(q: VolumeCreate)
    requires q.snapshotSize.None?
    ensures ValidateVolumeCreate(q, false).Pass? <==>
              && Truthy(q.size)
              && (q.image.None? || (q.image.value.settings == q.settings && q.image.value.minDisk <= q.size.value))
  {
  }

  /** A size of zero counts as no size at all. */
  lemma ZeroSizeIsNoSize(settings: string)
    ensures ValidateVolumeCreate(VolumeCreate(settings, None, Some(0), None), false) == Fail(NoSizeOrSnapshot)
  {
  }

  /* ---------------------------------------------------------------------- */
  /* Volume extension                                                       */

  /** The volume to extend: its size in MB, backend id, the state of the instance it is attached to, and whether it boots. */
  datatype ExtendTarget = ExtendTarget(size: int, backendId: string, attachedTo: Option<IS.InstanceState>, bootable: bool)

  datatype ExtendError = DiskSizeTooSmall | NoBackendId | InstanceNotOffline | RootVolume | ExtendQuota(e: Q.QuotaError)

  /** A volume grows by at least 1 GB (1024 MB). */
  const ExtendStep: int := 1024

  /** The lower bound the size field enforces; the legacy serializer's field keeps the 1 it was built with. */
  function MinDiskSize(v: ExtendTarget, enforcesStep: bool): int
  {
    if enforcesStep then v.size + ExtendStep else 1
  }

  /**
   * `VolumeExtendSerializer.validate` of the legacy application, after the
   * field's lower bound: a backend id is needed, an attached instance must be
   * OFFLINE, and a bootable volume cannot be extended.
   */
  function CheckExtend(v: ExtendTarget, newSize: int, enforcesStep: bool): (o: Outcome<ExtendError>)
    ensures o.Pass? <==> && newSize >= MinDiskSize(v, enforcesStep) && v.backendId != ""
                         && (v.attachedTo.None? || v.attachedTo.value == IS.Offline) && !v.bootable
  {
    if newSize < MinDiskSize(v, enforcesStep) then Fail(DiskSizeTooSmall)
    else if v.backendId == "" then Fail(NoBackendId)
    else if v.attachedTo.Some? && v.attachedTo.value != IS.Offline then Fail(InstanceNotOffline)
    else if v.bootable then Fail(RootVolume)
    else Pass
  }

  /** The check, then the storage quota grows by the difference and the volume takes the new size. */
  function ExtendWith(v: ExtendTarget, qs: Q.QuotaSet, newSize: int, enforcesStep: bool)
    : (r: Result<(ExtendTarget, Q.QuotaSet), ExtendError>)
    ensures r.Success? <==> CheckExtend(v, newSize, enforcesStep).Pass? && !Q.IsExceeded(qs.storage, newSize - v.size)
    ensures r.Success? ==> r.value.0 == v.(size := newSize)
    ensures r.Success? ==> Q.Moved(qs, r.value.1, Q.Storage, newSize - v.size)
                           && Q.OthersUnchanged(qs, r.value.1, {Q.Storage})
  {
    match CheckExtend(v, newSize, enforcesStep)
    case Fail(e) => Failure(e)
    case Pass =>
      match Q.AddUsage(qs, Q.Storage, newSize - v.size, true)
      case Failure(e) => Failure(ExtendQuota(e))
      case Success(q2) => Success((v.(size := newSize), q2))
  }

  /**
   * The legacy application's extension as written: the field's minimum is
   * raised to size + 1024 after the field was built, so only the original
   * minimum of 1 is enforced.
   */
  function ExtendVolumeAsWritten(v: ExtendTarget, qs: Q.QuotaSet, newSize: int)
    : (r: Result<(ExtendTarget, Q.QuotaSet), ExtendError>)
    ensures r.Success? ==> r.value.0.size == newSize && newSize >= 1
  {
    ExtendWith(v, qs, newSize, false)
  }

  /** The extension with the size + 1024 bound enforced. */
  function ExtendVolume(v: ExtendTarget, qs: Q.QuotaSet, newSize: int)
    : (r: Result<(ExtendTarget, Q.QuotaSet), ExtendError>)
    ensures r.Success? ==> r.value.0.size == newSize && newSize >= v.size + ExtendStep
    ensures r.Success? ==> r.value.1.storage.usage >= qs.storage.usage + ExtendStep
  {
    ExtendWith(v, qs, newSize, true)
  }

  /** As written, a 10 GB volume "extended" to 1 MB is accepted and gives back 10239 MB of storage quota. */
  lemma ShrinkAcceptedAsWritten(qs: Q.QuotaSet)
    requires qs.storage.usage <= qs.storage.limit
    ensures var v := ExtendTarget(10240, "volume-1", None, false);
            && ExtendVolumeAsWritten(v, qs, 1).Success?
            && ExtendVolumeAsWritten(v, qs, 1).value.0.size == 1
            && ExtendVolumeAsWritten(v, qs, 1).value.1.storage.usage == qs.storage.usage - 10239
            && ExtendVolume(v, qs, 1) == Failure(DiskSizeTooSmall)
  {
  }

  /** With the bound enforced, a successful extension never shrinks the volume. */
  lemma ExtendNeverShrinks(v: ExtendTarget, qs: Q.QuotaSet, newSize: int)
    requires ExtendVolume(v, qs, newSize).Success?
    ensures ExtendVolume(v, qs, newSize).value.0.size > v.size
  {
  }

  /**
   * The settings-scoped extension: only the size is checked (at least 1, and
   * at least size + 1024), then the settings' storage quota grows by the
   * difference.
   */
  function ExtendSettingsVolume(size: int, qs: Q.QuotaSet, newSize: int): (r: Result<(int, Q.QuotaSet), ExtendError>)
    ensures r.Success? <==> newSize >= 1 && newSize >= size + ExtendStep && !Q.IsExceeded(qs.storage, newSize - size)
    ensures r.Failure? && newSize < size + ExtendStep ==> r.error == DiskSizeTooSmall
    ensures r.Success? ==> r.value.0 == newSize && Q.Moved(qs, r.value.1, Q.Storage, newSize - size)
                           && Q.OthersUnchanged(qs, r.value.1, {Q.Storage})
  {
    if newSize < 1 || newSize < size + ExtendStep then Failure(DiskSizeTooSmall)
    else match Q.AddUsage(qs, Q.Storage, newSize - size, true)
      case Failure(e) => Failure(ExtendQuota(e))
      case Success(q2) => Success((newSize, q2))
  }

  /* ---------------------------------------------------------------------- */
  /* Attachment                                                             */

  /** The instance a volume is to be attached to: its state, runtime state, project link and its volumes' devices. */
  datatype AttachInstance = AttachInstance(state: State, runtimeState: string, spl: string, devices: seq<string>)

  datatype AttachError = InstanceNotShutoff | OtherProject | DeviceTooLong | DeviceMalformed | DeviceInUse

  const Shutoff: string := "SHUTOFF"

  /** The `max_length` of the volume's device column. */
  const DeviceMaxLength: nat := 50

  predicate AlphaNumeric(c: char)
  {
    'a' <= c <= 'z' || 'A' <= c <= 'Z' || '0' <= c <= '9'
  }

  /** The device column's `RegexValidator('^/dev/[a-zA-Z0-9]+$')`: "/dev/" and at least one letter or digit. */
  predicate DevicePattern(d: string)
  {
    |d| > 5 && d[..5] == "/dev/" && forall i :: 5 <= i < |d| ==> AlphaNumeric(d[i])
  }

  /**
   * `VolumeAttachSerializer`: the instance must be OK and SHUTOFF and of the
   * volume's project link; the device, once trimmed, may be blank, which
   * leaves the choice to the backend, and otherwise must fit its column,
   * match the device pattern and not be used by another volume of the
   * instance.
   */
  function ValidateAttach(volumeSpl: string, i: AttachInstance, device: string): (o: Outcome<AttachError>)
    ensures o.Pass? <==> && i.state == Ok && i.runtimeState == Shutoff && i.spl == volumeSpl
                         && (TF.Blank(device) || (&& |TF.Trim(device)| <= DeviceMaxLength
                                                  && DevicePattern(TF.Trim(device))
                                                  && TF.Trim(device) !in i.devices))
    ensures o == Fail(DeviceInUse) ==> DevicePattern(TF.Trim(device)) && TF.Trim(device) in i.devices
    ensures o == Fail(DeviceMalformed) ==> !TF.Blank(device) && !DevicePattern(TF.Trim(device))
  {
    var d := TF.Trim(device);
    if i.state != Ok || i.runtimeState != Shutoff then Fail(InstanceNotShutoff)
    else if i.spl != volumeSpl then Fail(OtherProject)
    else if d == "" then Pass
    else if |d| > DeviceMaxLength then Fail(DeviceTooLong)
    else if !DevicePattern(d) then Fail(DeviceMalformed)
    else if d in i.devices then Fail(DeviceInUse)
    else Pass
  }

  /** Once a volume is attached at a device, a second volume is refused that device. */
  lemma AttachedDeviceInUse(volumeSpl: string, i: AttachInstance, device: string)
    requires ValidateAttach(volumeSpl, i, device).Pass? && !TF.Blank(device)
    ensures ValidateAttach(volumeSpl, i.(devices := i.devices + [TF.Trim(device)]), device) == Fail(DeviceInUse)
  {
  }

  /** A bare device name, without the "/dev/" directory, is refused by the pattern. */
  lemma BareDeviceNameRefused(volumeSpl: string, i: AttachInstance)
    requires i.state == Ok && i.runtimeState == Shutoff && i.spl == volumeSpl
    ensures ValidateAttach(volumeSpl, i, "vdb") == Fail(DeviceMalformed)
  {
    assert TF.Trim("vdb") == "vdb" by { TF.TrimKeepsTrimmed("vdb"); }
  }

  /** A device path is taken once trimmed: surrounding whitespace does not make it malformed. */
  lemma PaddedDeviceAccepted(volumeSpl: string, i: AttachInstance)
    requires i.state == Ok && i.runtimeState == Shutoff && i.spl == volumeSpl && "/dev/vdb" !in i.devices
    ensures ValidateAttach(volumeSpl, i, " /dev/vdb\n").Pass?
  {
    var raw := " /dev/vdb\n";
    assert TF.LeadingSpaces(raw) == 1 by {
      assert raw[1..] == "/dev/vdb\n";
      assert TF.LeadingSpaces(raw[1..]) == 0;
    }
    assert TF.TrimEnd(raw[1..]) == "/dev/vdb" by {
      assert raw[1..][..|raw[1..]| - 1] == "/dev/vdb";
      assert TF.TrimEnd("/dev/vdb") == "/dev/vdb";
    }
    assert DevicePattern("/dev/vdb") by {
      assert "/dev/vdb"[..5] == "/dev/";
    }
  }

  /* ---------------------------------------------------------------------- */
  /* Floating-IP assignment                                                 */

  datatype AssignError = IpNotDown | IpElsewhere | AssignQuota(e: Q.QuotaError)

  /**
   * `AssignFloatingIpSerializer`: a given IP must be DOWN and of the
   * instance's settings and changes no quota; without one, a new IP is to be
   * allocated and the settings' floating-IP count grows by one.
   */
  function AssignFloatingIp(settings: string, ip: Option<IR.FloatingIp>, qs: Q.QuotaSet)
    : (r: Result<Q.QuotaSet, AssignError>)
    ensures ip.Some? ==> (r.Success? <==> ip.value.status == IR.Down && ip.value.owner == settings)
    ensures ip.Some? && r.Success? ==> r.value == qs
    ensures ip.None? ==> (r.Success? <==> !Q.IsExceeded(qs.floatingIpCount, 1))
    ensures ip.None? && r.Success? ==> (Q.Moved(qs, r.value, Q.FloatingIpCount, 1)
                                       && Q.OthersUnchanged(qs, r.value, {Q.FloatingIpCount}))
  {
    if ip.Some? then
      if ip.value.status != IR.Down then Failure(IpNotDown)
      else if ip.value.owner != settings then Failure(IpElsewhere)
      else Success(qs)
    else match Q.AddUsage(qs, Q.FloatingIpCount, 1, true)
      case Failure(e) => Failure(AssignQuota(e))
      case Success(q2) => Success(q2)
  }

  /* ---------------------------------------------------------------------- */
  /* Flavor change                                                          */

  /** The flavor-dependent part of an instance. */
  datatype Sized = Sized(settings: string, flavorName: string, ram: int, cores: int, flavorDisk: int)

  datatype FlavorError = SameFlavor | FlavorElsewhere | SmallerDisk | FlavorQuota(e: Q.QuotaError)

  /** `validate_flavor`: a different flavor of the same settings whose disk is not smaller. */
  function ValidateFlavorChange(i: Sized, f: IR.Flavor): (o: Outcome<FlavorError>)
    ensures o.Pass? <==> f.name != i.flavorName && f.settings == i.settings && f.disk >= i.flavorDisk
  {
    if f.name == i.flavorName then Fail(SameFlavor)
    else if f.settings != i.settings then Fail(FlavorElsewhere)
    else if f.disk < i.flavorDisk then Fail(SmallerDisk)
    else Pass
  }

  /**
   * The change: RAM then vCPU usage move by the difference between the new
   * and the old flavor, both validated, and the instance takes the flavor's
   * name, RAM, cores and disk. A refused quota leaves everything unchanged.
   */
  function ChangeFlavor(i: Sized, qs: Q.QuotaSet, f: IR.Flavor): (r: Result<(Sized, Q.QuotaSet), FlavorError>)
    ensures r.Success? ==> ValidateFlavorChange(i, f).Pass?
    ensures r.Success? ==> r.value.0 == i.(flavorName := f.name, ram := f.ram, cores := f.cores, flavorDisk := f.disk)
    ensures r.Success? ==> && Q.Moved(qs, r.value.1, Q.Ram, f.ram - i.ram)
                           && Q.Moved(qs, r.value.1, Q.Vcpu, f.cores - i.cores)
                           && Q.OthersUnchanged(qs, r.value.1, {Q.Ram, Q.Vcpu})
    ensures ValidateFlavorChange(i, f).Pass? ==>
              (r.Failure? <==> Q.IsExceeded(qs.ram, f.ram - i.ram) || Q.IsExceeded(qs.vcpu, f.cores - i.cores))
  {
    match ValidateFlavorChange(i, f)
    case Fail(e) => Failure(e)
    case Pass =>
      match Q.AddBoth(qs, Q.Ram, f.ram - i.ram, Q.Vcpu, f.cores - i.cores, true)
      case Failure(e) => Failure(FlavorQuota(e))
      case Success(q2) => Success((i.(flavorName := f.name, ram := f.ram, cores := f.cores, flavorDisk := f.disk), q2))
  }

  /** Changing to a flavor and back to one like the original restores every quota. */
  lemma FlavorChangeRoundTrip(i: Sized, qs: Q.QuotaSet, f: IR.Flavor, back: IR.Flavor)
    requires back.ram == i.ram && back.cores == i.cores
    requires ChangeFlavor(i, qs, f).Success?
    requires ChangeFlavor(ChangeFlavor(i, qs, f).value.0, ChangeFlavor(i, qs, f).value.1, back).Success?
    ensures ChangeFlavor(ChangeFlavor(i, qs, f).value.0, ChangeFlavor(i, qs, f).value.1, back).value.1 == qs
  {
    var q1 := ChangeFlavor(i, qs, f).value.1;
    var q2 := ChangeFlavor(ChangeFlavor(i, qs, f).value.0, q1, back).value.1;
    forall n ensures Q.Get(q2, n) == Q.Get(qs, n) {
    }
    Q.QuotaSetExtensional(q2, qs);
  }
}
