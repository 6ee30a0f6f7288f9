/**
 * The floating-IP pull of the tenant-scoped service settings
 * (`pull_floating_ips` and `_backend_floating_ip_to_floating_ip`).
 *
 * The stored IPs are split once, before the scan of the backend listing:
 * the booked ones (never touched) and the others, held in a pending map
 * keyed by backend id. Each backend entry takes its id out of the pending
 * map and either creates a new IP or updates the stored one; whatever is
 * still pending when the scan ends is deleted as stale. A backend entry
 * whose port refers to an internal IP that is not stored is skipped.
 *
 * The code as written skips such an entry before taking its id out of the
 * pending map, so a stored IP in that situation is deleted as stale.
 * `PullFloatingIpsAsWritten` models that; `PullFloatingIps` takes the id out
 * first and leaves the stored IP as it was.
 */
module SettingsFloatingIps {
  import opened Wrappers
  import opened KeyedScan

  /** A stored IP; `internalIp` is the backend id of the internal IP it is attached to. */
  datatype FloatingIp = FloatingIp(
    name: string,
    address: string,
    runtimeState: string,
    networkId: string,
    internalIp: Option<string>,
    isBooked: bool)

  /** One entry of the backend listing; an empty `portId` means no port. */
  datatype BackendIp = BackendIp(id: string, address: string, networkId: string, status: string, portId: string)

  /** The port names an internal IP that is not stored. */
  predicate PortUnknown(b: BackendIp, internalIps: set<string>)
  {
    b.portId != "" && b.portId !in internalIps
  }

  /** `_backend_floating_ip_to_floating_ip`: a new, unbooked IP named after its address. */
  function Converted(b: BackendIp): FloatingIp
  {
    FloatingIp(b.address, b.address, b.status, b.networkId, None, false)
  }

  /** The IP created for an unknown backend entry, attached to the internal IP of its port. */
  function Created(b: BackendIp): FloatingIp
  {
    Converted(b).(internalIp := if b.portId != "" then Some(b.portId) else None)
  }

  /**
   * The update of a stored IP: address, state and network come from the
   * backend; the name too, unless the user renamed the IP (its name is not
   * its address).
   */
  function Updated(ip: FloatingIp, b: BackendIp): FloatingIp
  {
    var imported := Converted(b);
    var imported := if ip.address != ip.name then imported.(name := ip.name) else imported;
    ip.(name := imported.name, address := imported.address,
        runtimeState := imported.runtimeState, networkId := imported.networkId)
  }

  /**
   * The handling of one backend entry, under its own id. `popFirst` is false
   * for the code as written: an entry with an unknown port leaves its id
   * pending.
   */
  function StepSlot(slot: Slot<FloatingIp>, b: BackendIp, booked: bool, internalIps: set<string>, popFirst: bool)
    : Slot<FloatingIp>
  {
    if !popFirst && PortUnknown(b, internalIps) then slot
    else if PortUnknown(b, internalIps) then Slot(slot.stored, None)
    else if slot.pending.None? && !booked then Slot(Some(Created(b)), None)
    else if booked then Slot(slot.stored, None)
    else Slot(Some(Updated(slot.pending.value, b)), None)
  }

  function IpId(b: BackendIp): string
  {
    b.id
  }

  function Handler(booked: set<string>, internalIps: set<string>, popFirst: bool)
    : (Slot<FloatingIp>, BackendIp) -> Slot<FloatingIp>
  {
    (slot: Slot<FloatingIp>, b: BackendIp) => StepSlot(slot, b, b.id in booked, internalIps, popFirst)
  }

  /**
   * The booked ids. The source leaves an empty id out of this set too; that
   * only matters for a backend entry with an empty id, which Neutron never
   * lists, and keeping it here leaves a booked row with an empty id alone.
   */
  function BookedIds(stored: map<string, FloatingIp>): set<string>
  {
    set id | id in stored && stored[id].isBooked
  }

  /**
   * The scan before the first entry: every unbooked IP with a backend id is
   * pending. An IP whose backend id is empty is never pending, so the sweep
   * never deletes it.
   */
  function Start(stored: map<string, FloatingIp>): Scan<FloatingIp>
  {
    Scan(stored, map id | id in stored && id != "" && !stored[id].isBooked :: stored[id])
  }

  function Scanned(stored: map<string, FloatingIp>, backend: seq<BackendIp>, internalIps: set<string>, popFirst: bool)
    : Scan<FloatingIp>
  {
    Fold(Start(stored), backend, IpId, Handler(BookedIds(stored), internalIps, popFirst))
  }

  function Pull(stored: map<string, FloatingIp>, backend: seq<BackendIp>, internalIps: set<string>, popFirst: bool)
    : map<string, FloatingIp>
  {
    Sweep(Scanned(stored, backend, internalIps, popFirst))
  }

  /** Listed: some backend entry carries the id. */
  predicate Listed(backend: seq<BackendIp>, id: string)
  {
    exists k :: 0 <= k < |backend| && backend[k].id == id
  }

  /**
   * `pull_floating_ips` as written: no IP appears that is neither stored
   * nor listed, booked IPs stay as they are, and every other IP with a
   * backend id that the backend no longer lists is deleted.
   */
  function PullFloatingIpsAsWritten(stored: map<string, FloatingIp>, backend: seq<BackendIp>, internalIps: set<string>)
    : (r: map<string, FloatingIp>)
    ensures forall id :: id in r ==> id in stored || Listed(backend, id)
    ensures forall id :: id in stored && stored[id].isBooked ==> id in r && r[id] == stored[id]
    ensures forall id :: id in stored && !Listed(backend, id) ==> (id in r <==> id == "" || stored[id].isBooked)
  {
    var r := Pull(stored, backend, internalIps, false);
    assert forall id :: id in r ==> id in stored || Listed(backend, id) by {
      forall id | id in r ensures id in stored || Listed(backend, id) {
        NothingInvented(stored, backend, internalIps, false, id);
      }
    }
    assert forall id :: id in stored && stored[id].isBooked ==> id in r && r[id] == stored[id] by {
      forall id | id in stored && stored[id].isBooked ensures id in r && r[id] == stored[id] {
        BookedIpUntouched(stored, backend, internalIps, false, id);
      }
    }
    assert forall id :: id in stored && !Listed(backend, id) ==> (id in r <==> id == "" || stored[id].isBooked) by {
      forall id | id in stored && !Listed(backend, id) ensures id in r <==> id == "" || stored[id].isBooked {
        if stored[id].isBooked {
          BookedIpUntouched(stored, backend, internalIps, false, id);
        } else {
          StaleIpDeleted(stored, backend, internalIps, false, id);
        }
      }
    }
    r
  }

  /**
   * `pull_floating_ips` with the id taken out of the pending map before the
   * port is checked: no IP appears that is neither stored nor listed, and
   * with distinct backend ids no stored IP the backend lists is lost.
   */
  function PullFloatingIps(stored: map<string, FloatingIp>, backend: seq<BackendIp>, internalIps: set<string>)
    : (r: map<string, FloatingIp>)
    ensures forall id :: id in r ==> id in stored || Listed(backend, id)
    ensures DistinctIds(backend, IpId) ==>
              forall k :: 0 <= k < |backend| && backend[k].id in stored ==> backend[k].id in r
  {
    var r := Pull(stored, backend, internalIps, true);
    assert forall id :: id in r ==> id in stored || Listed(backend, id) by {
      forall id | id in r ensures id in stored || Listed(backend, id) {
        NothingInvented(stored, backend, internalIps, true, id);
      }
    }
    if DistinctIds(backend, IpId) then
      assert forall k :: 0 <= k < |backend| && backend[k].id in stored ==> backend[k].id in r by {
        forall k | 0 <= k < |backend| && backend[k].id in stored ensures backend[k].id in r {
          ListedIpKept(stored, backend, internalIps, k);
        }
      }
      r
    else r
  }

  lemma StartAt(stored: map<string, FloatingIp>, id: string)
    ensures At(Start(stored), id) ==
              if id !in stored then Slot(None, None)
              else if id == "" || stored[id].isBooked then Slot(Some(stored[id]), None)
              else Slot(Some(stored[id]), Some(stored[id]))
    ensures id in BookedIds(stored) <==> id in stored && stored[id].isBooked
  {
  }

  /* ---------------------------------------------------------------------- */
  /* Properties of the pull                                                 */

  /** A booked IP is neither changed, nor deleted, nor duplicated, whatever the backend lists. */
  lemma BookedIpUntouched(stored: map<string, FloatingIp>, backend: seq<BackendIp>, internalIps: set<string>,
                          popFirst: bool, id: string)
    requires id in stored && stored[id].isBooked
    ensures id in Pull(stored, backend, internalIps, popFirst)
    ensures Pull(stored, backend, internalIps, popFirst)[id] == stored[id]
  {
    StartAt(stored, id);
    FoldFixed(Start(stored), backend, IpId, Handler(BookedIds(stored), internalIps, popFirst), id);
  }

  /**
   * A stored, unbooked IP that the backend no longer lists is deleted when
   * it has a backend id; one with an empty id was never pending and stays
   * as it was.
   */
  lemma StaleIpDeleted(stored: map<string, FloatingIp>, backend: seq<BackendIp>, internalIps: set<string>,
                       popFirst: bool, id: string)
    requires id in stored && !stored[id].isBooked
    requires forall k :: 0 <= k < |backend| ==> backend[k].id != id
    ensures id in Pull(stored, backend, internalIps, popFirst) <==> id == ""
    ensures id == "" ==> Pull(stored, backend, internalIps, popFirst)[id] == stored[id]
  {
    StartAt(stored, id);
    FoldFixed(Start(stored), backend, IpId, Handler(BookedIds(stored), internalIps, popFirst), id);
  }

  /** An id that is neither stored nor listed is absent after the pull. */
  lemma NothingInvented(stored: map<string, FloatingIp>, backend: seq<BackendIp>, internalIps: set<string>,
                        popFirst: bool, id: string)
    requires id in Pull(stored, backend, internalIps, popFirst)
    ensures id in stored || Listed(backend, id)
  {
    if id !in stored && !Listed(backend, id) {
      StartAt(stored, id);
      FoldFixed(Start(stored), backend, IpId, Handler(BookedIds(stored), internalIps, popFirst), id);
    }
  }

  /** Corrected pull: a stored IP the backend lists stays stored, whatever its entry's port. */
  lemma ListedIpKept(stored: map<string, FloatingIp>, backend: seq<BackendIp>, internalIps: set<string>, k: int)
    requires DistinctIds(backend, IpId) && 0 <= k < |backend| && backend[k].id in stored
    ensures backend[k].id in Pull(stored, backend, internalIps, true)
  {
    StartAt(stored, backend[k].id);
    FoldOnce(Start(stored), backend, IpId, Handler(BookedIds(stored), internalIps, true), k);
  }

  /** A new backend IP whose port refers to an unknown internal IP is not created. */
  lemma UnknownPortNotCreated(stored: map<string, FloatingIp>, backend: seq<BackendIp>, internalIps: set<string>,
                              popFirst: bool, id: string)
    requires id !in stored
    requires forall k :: 0 <= k < |backend| && backend[k].id == id ==> PortUnknown(backend[k], internalIps)
    ensures id !in Pull(stored, backend, internalIps, popFirst)
  {
    StartAt(stored, id);
    FoldFixed(Start(stored), backend, IpId, Handler(BookedIds(stored), internalIps, popFirst), id);
  }

  /** A new backend IP is imported named after its address, in the backend's state, attached to its port's internal IP. */
  lemma NewIpImported(stored: map<string, FloatingIp>, backend: seq<BackendIp>, internalIps: set<string>,
                      popFirst: bool, k: int)
    requires DistinctIds(backend, IpId) && 0 <= k < |backend|
    requires backend[k].id !in stored && !PortUnknown(backend[k], internalIps)
    ensures var r := Pull(stored, backend, internalIps, popFirst);
            var b := backend[k];
            && b.id in r
            && r[b.id].name == b.address && r[b.id].address == b.address
            && r[b.id].runtimeState == b.status && r[b.id].networkId == b.networkId
            && !r[b.id].isBooked
            && (r[b.id].internalIp.Some? <==> b.portId != "")
            && (b.portId != "" ==> r[b.id].internalIp.value in internalIps)
  {
    StartAt(stored, backend[k].id);
    FoldOnce(Start(stored), backend, IpId, Handler(BookedIds(stored), internalIps, popFirst), k);
  }

  /**
   * A stored, unbooked IP with a backend id and a usable backend entry takes
   * address, state and network from the backend; a name the user gave it
   * survives, and its booking flag and internal IP are kept. (A stored IP
   * with an empty backend id is not in the pending map, so no entry ever
   * updates it.)
   */
  lemma KnownIpUpdated(stored: map<string, FloatingIp>, backend: seq<BackendIp>, internalIps: set<string>,
                       popFirst: bool, k: int)
    requires DistinctIds(backend, IpId) && 0 <= k < |backend|
    requires backend[k].id in stored && backend[k].id != ""
    requires !stored[backend[k].id].isBooked && !PortUnknown(backend[k], internalIps)
    ensures var r := Pull(stored, backend, internalIps, popFirst);
            var b := backend[k];
            var before := stored[b.id];
            && b.id in r
            && r[b.id].address == b.address && r[b.id].runtimeState == b.status && r[b.id].networkId == b.networkId
            && r[b.id].name == (if before.name != before.address then before.name else b.address)
            && r[b.id].internalIp == before.internalIp && r[b.id].isBooked == before.isBooked
  {
    StartAt(stored, backend[k].id);
    FoldOnce(Start(stored), backend, IpId, Handler(BookedIds(stored), internalIps, popFirst), k);
  }

  /** Corrected pull: a stored IP whose backend entry has an unknown port is kept exactly as it was. */
  lemma UnknownPortKeepsStoredIp(stored: map<string, FloatingIp>, backend: seq<BackendIp>, internalIps: set<string>, k: int)
    requires DistinctIds(backend, IpId) && 0 <= k < |backend|
    requires backend[k].id in stored && PortUnknown(backend[k], internalIps)
    ensures backend[k].id in PullFloatingIps(stored, backend, internalIps)
    ensures PullFloatingIps(stored, backend, internalIps)[backend[k].id] == stored[backend[k].id]
  {
    StartAt(stored, backend[k].id);
    FoldOnce(Start(stored), backend, IpId, Handler(BookedIds(stored), internalIps, true), k);
  }

  /** As written: the same stored IP, unless booked or without a backend id, is deleted as stale. */
  lemma UnknownPortDeletesStoredIpAsWritten(stored: map<string, FloatingIp>, backend: seq<BackendIp>,
                                            internalIps: set<string>, k: int)
    requires DistinctIds(backend, IpId) && 0 <= k < |backend|
    requires backend[k].id in stored && !stored[backend[k].id].isBooked && PortUnknown(backend[k], internalIps)
    ensures backend[k].id in PullFloatingIpsAsWritten(stored, backend, internalIps) <==> backend[k].id == ""
  {
    StartAt(stored, backend[k].id);
    FoldOnce(Start(stored), backend, IpId, Handler(BookedIds(stored), internalIps, false), k);
  }

  /** The smallest instance: one stored IP, one backend entry whose port is not among the internal IPs. */
  lemma AsWrittenDeletesKnownIp()
    ensures var ip := FloatingIp("old_name", "127.0.0.1", "old_status", "old_network", None, false);
            var b := BackendIp("fip", "0.0.0.0", "new_network", "DOWN", "port");
            && PullFloatingIpsAsWritten(map["fip" := ip], [b], {}) == map[]
            && PullFloatingIps(map["fip" := ip], [b], {}) == map["fip" := ip]
  {
    var ip := FloatingIp("old_name", "127.0.0.1", "old_status", "old_network", None, false);
    var b := BackendIp("fip", "0.0.0.0", "new_network", "DOWN", "port");
    UnknownPortDeletesStoredIpAsWritten(map["fip" := ip], [b], {}, 0);
    UnknownPortKeepsStoredIp(map["fip" := ip], [b], {}, 0);
  }
}
