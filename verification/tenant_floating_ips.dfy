/**
 * Floating IPs of a tenant: the pull that reconciles the stored IPs with the
 * backend listing (`pull_tenant_floating_ips`), and the status changes made
 * when an IP is assigned to an instance.
 *
 * Stored IPs are keyed by backend id. An IP booked for an instance that is
 * being provisioned keeps the status BOOKED while the backend still calls it
 * DOWN.
 */
module TenantFloatingIps {
  import opened Wrappers

  const Booked: string := "BOOKED"
  const Down: string := "DOWN"
  const Active: string := "ACTIVE"

  datatype FloatingIp = FloatingIp(status: string, address: string, networkId: string)

  /** One entry of the backend listing; address and status may be absent. */
  datatype BackendIp = BackendIp(id: string, address: Option<string>, status: Option<string>, networkId: string)

  predicate Truthy(o: Option<string>)
  {
    o.Some? && o.value != ""
  }

  /** Entries without an address or without a status are ignored by the pull. */
  predicate Listed(b: BackendIp)
  {
    Truthy(b.address) && Truthy(b.status)
  }

  /** The listing keyed by id, ignored entries left out; a later entry replaces an earlier one. */
  function ListedById(backend: seq<BackendIp>): (m: map<string, BackendIp>)
    ensures forall id :: id in m ==> m[id].id == id && Listed(m[id])
    ensures forall id :: id in m <==> exists i :: 0 <= i < |backend| && backend[i].id == id && Listed(backend[i])
    decreases |backend|
  {
    if backend == [] then map[]
    else
      var init := backend[..|backend| - 1];
      var b := backend[|backend| - 1];
      var m := ListedById(init);
      assert forall i :: 0 <= i < |init| ==> init[i] == backend[i];
      if Listed(b) then m[b.id := b] else m
  }

  /** A stored IP for a backend entry that was not known before. */
  function Imported(b: BackendIp): FloatingIp
    requires Listed(b)
  {
    FloatingIp(b.status.value, b.address.value, b.networkId)
  }

  /** Status after a resync: the backend's, except that a booked IP stays booked while the backend says DOWN. */
  function PulledStatus(current: string, backendStatus: string): string
  {
    if current == Booked && backendStatus == Down then current else backendStatus
  }

  /** A known IP is written only when status, address or network differ. */
  function Resync(ip: FloatingIp, b: BackendIp): FloatingIp
    requires Listed(b)
  {
    if ip.status != b.status.value || ip.address != b.address.value || ip.networkId != b.networkId then
      FloatingIp(PulledStatus(ip.status, b.status.value), b.address.value, b.networkId)
    else ip
  }

  /**
   * `pull_tenant_floating_ips`: stored IPs the backend does not list are
   * deleted, listed IPs not stored are created, and the rest are resynced.
   */
  function PullTenantFloatingIps(local: map<string, FloatingIp>, backend: seq<BackendIp>): (r: map<string, FloatingIp>)
    ensures forall id :: id in r <==> exists i :: 0 <= i < |backend| && backend[i].id == id && Listed(backend[i])
    ensures forall id :: id in r ==>
              var b := ListedById(backend)[id];
              && r[id].address == b.address.value
              && r[id].networkId == b.networkId
              && (r[id].status == b.status.value
                  || (id in local && local[id].status == Booked && b.status.value == Down && r[id].status == Booked))
  {
    var listed := ListedById(backend);
    map id | id in listed :: if id in local then Resync(local[id], listed[id]) else Imported(listed[id])
  }

  /** A booked IP that the backend still reports DOWN keeps its booking. */
  lemma BookedIpStaysBooked(local: map<string, FloatingIp>, backend: seq<BackendIp>, id: string)
    requires id in local && local[id].status == Booked
    requires id in ListedById(backend) && ListedById(backend)[id].status == Some(Down)
    ensures id in PullTenantFloatingIps(local, backend)
    ensures PullTenantFloatingIps(local, backend)[id].status == Booked
  {
  }

  /** A stored IP the backend does not list any more is gone after the pull. */
  lemma StaleIpDeleted(local: map<string, FloatingIp>, backend: seq<BackendIp>, id: string)
    requires id in local
    requires forall i :: 0 <= i < |backend| ==> backend[i].id != id || !Listed(backend[i])
    ensures id !in PullTenantFloatingIps(local, backend)
  {
  }

  /** An IP the backend lists for the first time is created with the backend's values. */
  lemma NewIpImported(local: map<string, FloatingIp>, backend: seq<BackendIp>, id: string)
    requires id !in local && id in ListedById(backend)
    ensures PullTenantFloatingIps(local, backend)[id] == Imported(ListedById(backend)[id])
  {
  }

  /** Pulling twice from the same listing gives what pulling once gave. */
  lemma TenantPullIdempotent(local: map<string, FloatingIp>, backend: seq<BackendIp>)
    ensures var once := PullTenantFloatingIps(local, backend);
            PullTenantFloatingIps(once, backend) == once
  {
    var listed := ListedById(backend);
    var once := PullTenantFloatingIps(local, backend);
    var twice := PullTenantFloatingIps(once, backend);
    forall id | id in once ensures twice[id] == once[id] {
      var b := listed[id];
      assert once[id].address == b.address.value && once[id].networkId == b.networkId;
      if once[id].status != b.status.value {
        assert once[id].status == Booked && b.status.value == Down;
      }
    }
  }

  /** Appending an entry without address or status changes nothing. */
  lemma IgnoredEntriesChangeNothing(local: map<string, FloatingIp>, backend: seq<BackendIp>, x: BackendIp)
    requires !Listed(x)
    ensures PullTenantFloatingIps(local, backend + [x]) == PullTenantFloatingIps(local, backend)
  {
    assert (backend + [x])[..|backend|] == backend;
  }

  /* ---------------------------------------------------------------------- */
  /* Assignment to an instance                                              */

  datatype Assignment = Assignment(ip: FloatingIp, externalIps: string)

  datatype AssignError = AddFloatingIpFailed

  /**
   * `assign_floating_ip_to_instance`: the IP was booked when provisioning
   * started. When the backend call fails the booking is released (DOWN) and
   * the error is raised again; otherwise the IP becomes ACTIVE and is the
   * instance's external address.
   */
  function AssignFloatingIp(ip: FloatingIp, externalIps: string, backendAccepted: bool)
    : (r: (Assignment, Outcome<AssignError>))
    ensures r.1.Fail? <==> !backendAccepted
    ensures r.0.ip.address == ip.address && r.0.ip.networkId == ip.networkId
    ensures r.1.Fail? ==> r.0.ip.status == Down && r.0.externalIps == externalIps
    ensures r.1.Pass? ==> r.0.ip.status == Active && r.0.externalIps == ip.address
  {
    if !backendAccepted then (Assignment(ip.(status := Down), externalIps), Fail(AddFloatingIpFailed))
    else (Assignment(ip.(status := Active), ip.address), Pass)
  }
}
