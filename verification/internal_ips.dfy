/**
 * The internal-IP pull of one instance (`pull_instance_internal_ips`).
 *
 * Every port the backend lists for the instance is read first: its backend
 * id, MAC address, and the address and subnet of its first fixed IP. A port
 * without fixed IPs cannot be read; the pull then fails as a whole and,
 * since it runs in one transaction, leaves the stored IPs as they were.
 *
 * The instance's stored internal IPs that have a backend id are held in a
 * pending map keyed by that id. Each port is skipped when its subnet is not
 * stored; otherwise its id is taken out of the pending map and the stored IP
 * is updated, or a new one is created in the port's subnet. Whatever is
 * still pending at the end is deleted as stale. The skip happens before the
 * id is taken out, so a stored IP whose port moved to an unknown subnet is
 * deleted too. A stored IP with an empty backend id is never pending and
 * never deleted.
 */
module InternalIps {
  import opened Wrappers
  import opened KeyedScan

  datatype InternalIp = InternalIp(macAddress: string, ip4Address: string, subnetId: string)

  datatype FixedIp = FixedIp(ipAddress: string, subnetId: string)

  /** One port of the backend listing. */
  datatype BackendPort = BackendPort(id: string, macAddress: string, fixedIps: seq<FixedIp>)

  /** A port as the pull reads it, with the address and subnet of its first fixed IP. */
  datatype Port = Port(id: string, macAddress: string, ip4Address: string, subnetId: string)

  datatype PullError = PortWithoutFixedIp(portId: string)

  /** A port the pull can read: one with at least one fixed IP. */
  predicate Readable(b: BackendPort)
  {
    |b.fixedIps| > 0
  }

  /**
   * The listing read port by port, as the loop does: the first port without
   * a fixed IP stops the pull; otherwise every port is read, in order, from
   * its first fixed IP.
   */
  function ReadPorts(listing: seq<BackendPort>): (r: Result<seq<Port>, PullError>)
    ensures r.Success? <==> forall k :: 0 <= k < |listing| ==> Readable(listing[k])
    ensures r.Success? ==> |r.value| == |listing|
    ensures r.Success? ==> forall k :: 0 <= k < |listing| ==>
              && r.value[k].id == listing[k].id && r.value[k].macAddress == listing[k].macAddress
              && r.value[k].ip4Address == listing[k].fixedIps[0].ipAddress
              && r.value[k].subnetId == listing[k].fixedIps[0].subnetId
    ensures r.Failure? ==> exists k :: && 0 <= k < |listing| && !Readable(listing[k])
                                       && r.error == PortWithoutFixedIp(listing[k].id)
                                       && forall j :: 0 <= j < k ==> Readable(listing[j])
    decreases |listing|
  {
    if listing == [] then Success([])
    else if !Readable(listing[0]) then Failure(PortWithoutFixedIp(listing[0].id))
    else
      var b := listing[0];
      var first := Port(b.id, b.macAddress, b.fixedIps[0].ipAddress, b.fixedIps[0].subnetId);
      var rest := ReadPorts(listing[1..]);
      assert forall k :: 1 <= k < |listing| ==> listing[k] == listing[1..][k - 1];
      if rest.Failure? then
        var k :| && 0 <= k < |listing[1..]| && !Readable(listing[1..][k])
                 && rest.error == PortWithoutFixedIp(listing[1..][k].id)
                 && forall j :: 0 <= j < k ==> Readable(listing[1..][j]);
        assert !Readable(listing[k + 1]);
        Failure(rest.error)
      else Success([first] + rest.value)
  }

  /** `_backend_internal_ip_to_internal_ip`, placed in the port's subnet. */
  function Imported(p: Port): InternalIp
  {
    InternalIp(p.macAddress, p.ip4Address, p.subnetId)
  }

  /** The pulled fields, MAC and IPv4 address, copied onto a stored IP; its subnet stays. */
  function Updated(ip: InternalIp, p: Port): InternalIp
  {
    ip.(macAddress := p.macAddress, ip4Address := p.ip4Address)
  }

  function StepSlot(slot: Slot<InternalIp>, p: Port, subnets: set<string>): Slot<InternalIp>
  {
    if p.subnetId !in subnets then slot
    else if slot.pending.None? then Slot(Some(Imported(p)), None)
    else Slot(Some(Updated(slot.pending.value, p)), None)
  }

  function PortId(p: Port): string
  {
    p.id
  }

  function Handler(subnets: set<string>): (Slot<InternalIp>, Port) -> Slot<InternalIp>
  {
    (slot: Slot<InternalIp>, p: Port) => StepSlot(slot, p, subnets)
  }

  /** The scan before the first port: every stored IP with a backend id is pending. */
  function Start(stored: map<string, InternalIp>): Scan<InternalIp>
  {
    Scan(stored, map id | id in stored && id != "" :: stored[id])
  }

  /** The pull over the ports once read: `stored` maps backend ids to the instance's IPs, `subnets` the stored subnets' backend ids. */
  function Pulled(stored: map<string, InternalIp>, ports: seq<Port>, subnets: set<string>): map<string, InternalIp>
  {
    Sweep(Fold(Start(stored), ports, PortId, Handler(subnets)))
  }

  /**
   * `pull_instance_internal_ips`: a port without a fixed IP fails the whole
   * pull; otherwise no IP appears that is neither stored nor listed, and a
   * stored IP with an empty backend id survives unchanged when no port
   * carries that id.
   */
  function PullInstanceInternalIps(stored: map<string, InternalIp>, listing: seq<BackendPort>, subnets: set<string>)
    : (r: Result<map<string, InternalIp>, PullError>)
    ensures r.Failure? <==> exists k :: 0 <= k < |listing| && !Readable(listing[k])
    ensures r.Success? ==> forall id :: id in r.value ==> id in stored || exists k :: 0 <= k < |listing| && listing[k].id == id
    ensures r.Success? && "" in stored && (forall k :: 0 <= k < |listing| ==> listing[k].id != "")
            ==> "" in r.value && r.value[""] == stored[""]
  {
    match ReadPorts(listing)
    case Failure(e) => Failure(e)
    case Success(ports) =>
      var pulled := Pulled(stored, ports, subnets);
      assert forall id :: id in pulled ==> id in stored || exists k :: 0 <= k < |listing| && listing[k].id == id by {
        forall id | id in pulled ensures id in stored || exists k :: 0 <= k < |listing| && listing[k].id == id {
          NothingInvented(stored, ports, subnets, id);
          if id !in stored {
            var k :| 0 <= k < |ports| && ports[k].id == id;
            assert listing[k].id == id;
          }
        }
      }
      if "" in stored && (forall k :: 0 <= k < |listing| ==> listing[k].id != "") then
        assert !Usable(ports, subnets, "") by {
          forall k | 0 <= k < |ports| ensures ports[k].id != "" { assert ports[k].id == listing[k].id; }
        }
        SkippedIdUntouched(stored, ports, subnets, "");
        Success(pulled)
      else Success(pulled)
  }

  lemma StartAt(stored: map<string, InternalIp>, id: string)
    ensures At(Start(stored), id) ==
              if id !in stored then Slot(None, None)
              else if id == "" then Slot(Some(stored[id]), None)
              else Slot(Some(stored[id]), Some(stored[id]))
  {
  }

  /** The ports that are not skipped. */
  predicate Usable(ports: seq<Port>, subnets: set<string>, id: string)
  {
    exists k :: 0 <= k < |ports| && ports[k].id == id && ports[k].subnetId in subnets
  }

  /**
   * With no usable port for an id, its slot is the starting one: a stored IP
   * with a backend id is swept, one with an empty id stays as it was, and
   * none is created.
   */
  lemma SkippedIdUntouched(stored: map<string, InternalIp>, ports: seq<Port>, subnets: set<string>, id: string)
    requires !Usable(ports, subnets, id)
    ensures id in Pulled(stored, ports, subnets) <==> id == "" && id in stored
    ensures id in Pulled(stored, ports, subnets) ==> Pulled(stored, ports, subnets)[id] == stored[id]
  {
    StartAt(stored, id);
    FoldFixed(Start(stored), ports, PortId, Handler(subnets), id);
  }

  /** An id that is neither stored nor carried by a port is absent after the pull. */
  lemma NothingInvented(stored: map<string, InternalIp>, ports: seq<Port>, subnets: set<string>, id: string)
    requires id in Pulled(stored, ports, subnets)
    ensures id in stored || exists k :: 0 <= k < |ports| && ports[k].id == id
  {
    if id !in stored && forall k :: 0 <= k < |ports| ==> ports[k].id != id {
      StartAt(stored, id);
      FoldFixed(Start(stored), ports, PortId, Handler(subnets), id);
    }
  }

  /**
   * A port on a stored subnet yields an IP under its id, with the port's MAC
   * and address: the stored IP updated when it was pending, a new one
   * otherwise.
   */
  lemma UsablePortPulled(stored: map<string, InternalIp>, ports: seq<Port>, subnets: set<string>, k: int)
    requires DistinctIds(ports, PortId) && 0 <= k < |ports| && ports[k].subnetId in subnets
    ensures var r := Pulled(stored, ports, subnets);
            var p := ports[k];
            && p.id in r
            && r[p.id] == (if p.id in stored && p.id != "" then Updated(stored[p.id], p) else Imported(p))
  {
    StartAt(stored, ports[k].id);
    FoldOnce(Start(stored), ports, PortId, Handler(subnets), k);
  }

  /**
   * After the pull the instance has exactly one IP per usable port, and
   * besides them only a stored IP with an empty backend id.
   */
  lemma PulledIdsAreUsablePorts(stored: map<string, InternalIp>, ports: seq<Port>, subnets: set<string>, id: string)
    requires DistinctIds(ports, PortId)
    ensures id in Pulled(stored, ports, subnets) <==> Usable(ports, subnets, id) || (id == "" && id in stored)
  {
    if Usable(ports, subnets, id) {
      var k :| 0 <= k < |ports| && ports[k].id == id && ports[k].subnetId in subnets;
      UsablePortPulled(stored, ports, subnets, k);
    } else {
      SkippedIdUntouched(stored, ports, subnets, id);
    }
  }

  /** A known IP with a backend id takes the port's MAC and address and keeps its subnet. */
  lemma KnownIpUpdated(stored: map<string, InternalIp>, ports: seq<Port>, subnets: set<string>, k: int)
    requires DistinctIds(ports, PortId) && 0 <= k < |ports| && ports[k].subnetId in subnets
    requires ports[k].id in stored && ports[k].id != ""
    ensures var r := Pulled(stored, ports, subnets);
            var p := ports[k];
            && p.id in r
            && r[p.id].macAddress == p.macAddress && r[p.id].ip4Address == p.ip4Address
            && r[p.id].subnetId == stored[p.id].subnetId
  {
    UsablePortPulled(stored, ports, subnets, k);
  }

  /**
   * A stored IP whose port now sits on a subnet that is not stored is
   * deleted, not kept, unless its backend id is empty.
   */
  lemma KnownIpOnUnknownSubnetDeleted(stored: map<string, InternalIp>, ports: seq<Port>, subnets: set<string>, k: int)
    requires DistinctIds(ports, PortId) && 0 <= k < |ports|
    requires ports[k].id in stored && ports[k].subnetId !in subnets
    ensures ports[k].id in Pulled(stored, ports, subnets) <==> ports[k].id == ""
  {
    PulledIdsAreUsablePorts(stored, ports, subnets, ports[k].id);
  }

  /** Pulling again from the same listing changes nothing. */
  lemma PullInternalIpsIdempotent(stored: map<string, InternalIp>, ports: seq<Port>, subnets: set<string>)
    requires DistinctIds(ports, PortId)
    ensures var once := Pulled(stored, ports, subnets);
            Pulled(once, ports, subnets) == once
  {
    var once := Pulled(stored, ports, subnets);
    var twice := Pulled(once, ports, subnets);
    forall id ensures id in twice <==> id in once {
      PulledIdsAreUsablePorts(stored, ports, subnets, id);
      PulledIdsAreUsablePorts(once, ports, subnets, id);
    }
    forall id | id in once ensures twice[id] == once[id] {
      if Usable(ports, subnets, id) {
        var k :| 0 <= k < |ports| && ports[k].id == id && ports[k].subnetId in subnets;
        UsablePortPulled(stored, ports, subnets, k);
        UsablePortPulled(once, ports, subnets, k);
      } else {
        SkippedIdUntouched(stored, ports, subnets, id);
        SkippedIdUntouched(once, ports, subnets, id);
      }
    }
  }
}
