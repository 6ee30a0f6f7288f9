/**
 * Reconciliation decisions about one instance: which security groups to add
 * to or remove from it, which backend servers can be imported, the volume
 * layout that instance creation insists on, and the bookkeeping of a volume
 * attachment.
 *
 * Security groups are identified by their backend ids. A local group that
 * has no backend id yet (the empty string) takes no part in either
 * direction of the sync.
 */
module InstanceSync {
  import opened Wrappers
  import opened Seqs
  import IS = InstanceStates

  /* ---------------------------------------------------------------------- */
  /* Security groups of an instance                                         */

  /** The backend ids of the groups linked to the instance, groups without one left out. */
  function KnownIds(linked: set<string>): set<string>
  {
    linked - {""}
  }

  /** The backend calls a push makes: groups to remove from and to add to the server. */
  datatype GroupCalls = GroupCalls(remove: set<string>, add: set<string>)

  /**
   * `push_instance_security_groups`: remove from the server what is not
   * linked locally and add what is linked locally but missing on the server.
   */
  function PushInstanceSecurityGroups(linked: set<string>, backendIds: set<string>): (r: GroupCalls)
    ensures r.remove <= backendIds && r.remove !! KnownIds(linked)
    ensures r.add <= KnownIds(linked) && r.add !! backendIds
    ensures "" !in r.add
  {
    GroupCalls(backendIds - KnownIds(linked), KnownIds(linked) - backendIds)
  }

  /** When every call succeeds, the server ends up with exactly the locally linked groups. */
  lemma PushMakesServerMatch(linked: set<string>, backendIds: set<string>)
    ensures var calls := PushInstanceSecurityGroups(linked, backendIds);
            (backendIds - calls.remove) + calls.add == KnownIds(linked)
  {
  }

  /** A server that already matches gets no calls. */
  lemma PushOnMatchingServerIsEmpty(linked: set<string>)
    ensures PushInstanceSecurityGroups(linked, KnownIds(linked)) == GroupCalls({}, {})
  {
  }

  /** The groups of the tenant found under each backend id: a lookup succeeds only when exactly one is. */
  function TenantIds(tenantGroups: multiset<string>): set<string>
  {
    set id | id in tenantGroups
  }

  /** The server's groups the instance does not link yet and the tenant holds more than once. */
  function Ambiguous(linked: set<string>, backendIds: set<string>, tenantGroups: multiset<string>): set<string>
  {
    set id | id in backendIds - KnownIds(linked) && tenantGroups[id] >= 2
  }

  /**
   * The pull stopped on a backend id that several of the tenant's groups
   * share; the stale groups were already unlinked then, and stay unlinked.
   */
  datatype GroupPullFailure = AmbiguousGroups(ids: set<string>, linked: set<string>)

  /**
   * `pull_instance_security_groups`: unlink the groups the server no longer
   * has, then link each of the server's other groups that the tenant knows
   * about. The lookup of a group fails when two of the tenant's groups share
   * its backend id; the unlinking is not undone then.
   */
  function PullInstanceSecurityGroups(linked: set<string>, backendIds: set<string>, tenantGroups: multiset<string>)
    : (r: Result<set<string>, GroupPullFailure>)
    ensures r.Failure? <==> Ambiguous(linked, backendIds, tenantGroups) != {}
    ensures r.Failure? ==> r.error.ids == Ambiguous(linked, backendIds, tenantGroups)
                           && r.error.linked == linked - (KnownIds(linked) - backendIds)
    ensures r.Success? ==> ("" in linked ==> "" in r.value)
    ensures r.Success? ==> r.value - {""} == (backendIds * (KnownIds(linked) + TenantIds(tenantGroups))) - {""}
  {
    var stale := KnownIds(linked) - backendIds;
    var missing := backendIds - KnownIds(linked);
    var ambiguous := Ambiguous(linked, backendIds, tenantGroups);
    if ambiguous != {} then Failure(AmbiguousGroups(ambiguous, linked - stale))
    else Success((linked - stale) + (missing * TenantIds(tenantGroups)))
  }

  /** Pulling a second time from the same server changes nothing. */
  lemma PullInstanceGroupsIdempotent(linked: set<string>, backendIds: set<string>, tenantGroups: multiset<string>)
    requires PullInstanceSecurityGroups(linked, backendIds, tenantGroups).Success?
    ensures var once := PullInstanceSecurityGroups(linked, backendIds, tenantGroups).value;
            PullInstanceSecurityGroups(once, backendIds, tenantGroups) == Success(once)
  {
    var once := PullInstanceSecurityGroups(linked, backendIds, tenantGroups).value;
    assert Ambiguous(once, backendIds, tenantGroups) == {} by {
      forall id | id in backendIds - KnownIds(once) ensures tenantGroups[id] < 2 {
        assert id in backendIds - KnownIds(linked);
        assert id !in Ambiguous(linked, backendIds, tenantGroups);
      }
    }
    assert KnownIds(once) - backendIds == {};
    var added := (backendIds - KnownIds(once)) * TenantIds(tenantGroups);
    assert added <= once;
    assert PullInstanceSecurityGroups(once, backendIds, tenantGroups) == Success((once - {}) + added);
    assert (once - {}) + added == once;
  }

  /** A pull followed by a push with the same server listing asks only to remove groups the tenant does not know. */
  lemma PullThenPushRemovesOnlyForeignGroups(linked: set<string>, backendIds: set<string>, tenantGroups: multiset<string>)
    requires PullInstanceSecurityGroups(linked, backendIds, tenantGroups).Success?
    ensures var calls := PushInstanceSecurityGroups(PullInstanceSecurityGroups(linked, backendIds, tenantGroups).value,
                                                    backendIds);
            calls.add == {} && calls.remove - {""} == backendIds - KnownIds(linked) - TenantIds(tenantGroups) - {""}
  {
  }

  /** A group the tenant holds twice stops the pull, and the stale links are gone nonetheless. */
  lemma DuplicateTenantGroupFailsPull()
    ensures var r := PullInstanceSecurityGroups({"old"}, {"g"}, multiset{"g", "g"});
            r == Failure(AmbiguousGroups({"g"}, {}))
  {
    var ms := multiset{"g", "g"};
    assert ms["g"] == 2;
    assert KnownIds({"old"}) == {"old"};
    assert "g" in Ambiguous({"old"}, {"g"}, ms);
    assert Ambiguous({"old"}, {"g"}, ms) == {"g"};
    assert {"old"} - (KnownIds({"old"}) - {"g"}) == {};
  }

  /* ---------------------------------------------------------------------- */
  /* Import                                                                 */

  datatype Server = Server(id: string, name: string, status: string)

  datatype ImportCandidate = ImportCandidate(id: string, name: string, runtimeState: string)

  /** The server's status does not map to the erred state. */
  predicate NotErred(s: Server)
  {
    IS.FromNovaStatus(s.status) != IS.Erred
  }

  function Importable(known: set<string>): Server -> bool
  {
    (s: Server) => s.id !in known && NotErred(s)
  }

  function AsCandidate(s: Server): ImportCandidate
  {
    ImportCandidate(s.id, if s.name != "" then s.name else s.id, s.status)
  }

  /**
   * `get_instances_for_import`: servers not yet known to the tenant whose
   * status does not map to erred, each named by its name or else its id.
   */
  function InstancesForImport(known: set<string>, servers: seq<Server>): (r: seq<ImportCandidate>)
    ensures |r| <= |servers|
  {
    Map(Filter(servers, Importable(known)), AsCandidate)
  }

  /** Every offered candidate is an unknown, non-erred server, under a non-empty name when its id is. */
  lemma ImportCandidatesAreImportable(known: set<string>, servers: seq<Server>, i: int)
    requires 0 <= i < |InstancesForImport(known, servers)|
    ensures var c := InstancesForImport(known, servers)[i];
            && c.id !in known
            && (c.id != "" ==> c.name != "")
            && exists s :: s in servers && NotErred(s) && c == AsCandidate(s)
  {
    FilterMembers(servers, Importable(known));
    var s := Filter(servers, Importable(known))[i];
    assert s in servers && s.id !in known && NotErred(s);
    assert InstancesForImport(known, servers)[i] == AsCandidate(s);
  }

  /** Every unknown, non-erred server is offered. */
  lemma ImportableServersAreOffered(known: set<string>, servers: seq<Server>, s: Server)
    requires s in servers && s.id !in known && NotErred(s)
    ensures AsCandidate(s) in InstancesForImport(known, servers)
  {
    FilterMembers(servers, Importable(known));
    var k :| 0 <= k < |servers| && servers[k] == s;
    assert Importable(known)(servers[k]);
    assert s in Filter(servers, Importable(known));
    var j :| 0 <= j < |Filter(servers, Importable(known))| && Filter(servers, Importable(known))[j] == s;
    assert InstancesForImport(known, servers)[j] == AsCandidate(s);
  }

  /** An erred server is never offered, since its status maps to erred. */
  lemma ErredServersNotOffered(known: set<string>, servers: seq<Server>, i: int)
    requires 0 <= i < |InstancesForImport(known, servers)|
    ensures IS.FromNovaStatus(InstancesForImport(known, servers)[i].runtimeState) != IS.Erred
  {
    ImportCandidatesAreImportable(known, servers, i);
  }

  /* ---------------------------------------------------------------------- */
  /* Volume layout required by instance creation                            */

  datatype Volume = Volume(id: string, bootable: bool)

  datatype LayoutError = NotTwoVolumes | NoSystemVolume | SeveralSystemVolumes

  /**
   * The guard of `create_instance`: exactly two volumes; looking up the
   * bootable one fails when there is none or more than one.
   */
  function SystemAndDataVolumes(volumes: seq<Volume>): (r: Result<(Volume, Volume), LayoutError>)
    ensures r.Success? <==> |volumes| == 2 && volumes[0].bootable != volumes[1].bootable
    ensures r.Success? ==> r.value.0.bootable && !r.value.1.bootable
                           && r.value.0 in volumes && r.value.1 in volumes
    ensures |volumes| != 2 ==> r == Failure(NotTwoVolumes)
  {
    if |volumes| != 2 then Failure(NotTwoVolumes)
    else if !volumes[0].bootable && !volumes[1].bootable then Failure(NoSystemVolume)
    else if volumes[0].bootable && volumes[1].bootable then Failure(SeveralSystemVolumes)
    else if volumes[0].bootable then Success((volumes[0], volumes[1]))
    else Success((volumes[1], volumes[0]))
  }

  /* ---------------------------------------------------------------------- */
  /* Volume attachment                                                      */

  datatype AttachedVolume = AttachedVolume(instance: Option<string>, device: string)

  datatype AttachError = AttachFailed

  /** The device sent to the backend: none when the request names none. */
  function RequestedDevice(device: string): (d: Option<string>)
    ensures d.None? <==> device == ""
    ensures d.Some? ==> d.value == device
  {
    if device == "" then None else Some(device)
  }

  /**
   * `attach_volume`: the volume records its instance and device only after
   * the backend accepted the attachment; on failure it is left as it was.
   */
  function AttachVolume(v: AttachedVolume, instance: string, device: string, backendAccepted: bool)
    : (r: (AttachedVolume, Outcome<AttachError>))
    ensures r.1.Pass? <==> backendAccepted
    ensures r.1.Fail? ==> r.0 == v
    ensures r.1.Pass? ==> r.0.instance == Some(instance) && r.0.device == device
  {
    if backendAccepted then (AttachedVolume(Some(instance), device), Pass)
    else (v, Fail(AttachFailed))
  }
}
