/**
 * Reconciliation of a tenant's security groups with the backend
 * (`pull_tenant_security_groups`), and the group equality it relies on.
 */
module GroupSync {
  import opened Wrappers
  import opened Seqs
  import opened States
  import SR = SecurityGroupRules
  import RS = RuleSync

  datatype LocalGroup = LocalGroup(name: string, backendId: string, state: State, rules: seq<SR.Rule>)

  datatype BackendGroup = BackendGroup(id: string, name: string, rules: seq<RS.BackendRule>)

  /** Pairwise rule equality over two sequences, walking them together. */
  predicate PairwiseEqual(b: seq<RS.BackendRule>, l: seq<SR.Rule>)
    requires |b| == |l|
    decreases |b|
  {
    b == [] || (RS.RulesEqual(b[0], l[0]) && PairwiseEqual(b[1..], l[1..]))
  }

  lemma {:induction false} PairwiseEqualMeansEveryIndex(b: seq<RS.BackendRule>, l: seq<SR.Rule>)
    requires |b| == |l|
    ensures PairwiseEqual(b, l) <==> forall i :: 0 <= i < |b| ==> RS.RulesEqual(b[i], l[i])
    decreases |b|
  {
    if b != [] {
      PairwiseEqualMeansEveryIndex(b[1..], l[1..]);
      assert forall i :: 1 <= i < |b| ==> b[i] == b[1..][i - 1] && l[i] == l[1..][i - 1];
    }
  }

  /**
   * Group equality as the sync sees it: same name, same number of rules, and
   * the rules equal position by position. The backend rules are compared as
   * listed, without normalisation.
   */
  predicate GroupsEqual(bg: BackendGroup, g: LocalGroup)
  {
    bg.name == g.name && |bg.rules| == |g.rules| && PairwiseEqual(bg.rules, g.rules)
  }

  lemma GroupsEqualCharacterized(bg: BackendGroup, g: LocalGroup)
    ensures GroupsEqual(bg, g) <==>
              bg.name == g.name && |bg.rules| == |g.rules|
              && forall i :: 0 <= i < |bg.rules| ==> RS.RulesEqual(bg.rules[i], g.rules[i])
  {
    if |bg.rules| == |g.rules| {
      PairwiseEqualMeansEveryIndex(bg.rules, g.rules);
    }
  }

  /** A differing order of otherwise equal rules already makes two groups unequal. */
  lemma RuleOrderMatters()
    ensures var a := RS.BackendRule("1", Some(22), Some(22), Some("tcp"), Some("0.0.0.0/0"));
            var b := RS.BackendRule("2", Some(80), Some(80), Some("tcp"), Some("0.0.0.0/0"));
            var la := SR.Rule("tcp", Some(22), Some(22), "0.0.0.0/0", "1");
            var lb := SR.Rule("tcp", Some(80), Some(80), "0.0.0.0/0", "2");
            GroupsEqual(BackendGroup("g", "web", [a, b]), LocalGroup("web", "g", Ok, [la, lb]))
            && !GroupsEqual(BackendGroup("g", "web", [a, b]), LocalGroup("web", "g", Ok, [lb, la]))
  {
    var a := RS.BackendRule("1", Some(22), Some(22), Some("tcp"), Some("0.0.0.0/0"));
    var lb := SR.Rule("tcp", Some(80), Some(80), "0.0.0.0/0", "2");
    assert !RS.RulesEqual(a, lb);
  }

  function GroupsById(backend: seq<BackendGroup>): (m: map<string, BackendGroup>)
    ensures forall id :: id in m ==> m[id].id == id && m[id] in backend
    ensures m.Keys == set bg | bg in backend :: bg.id
    decreases |backend|
  {
    if backend == [] then map[]
    else
      var init := backend[..|backend| - 1];
      var bg := backend[|backend| - 1];
      assert backend == init + [bg];
      GroupsById(init)[bg.id := bg]
  }

  /** States in which a group is still being created and must not be deleted as stale. */
  predicate BeingCreated(s: State)
  {
    s == CreationScheduled || s == Creating
  }

  /** States in which a local change is on its way to the backend and must not be overwritten. */
  predicate BeingUpdated(s: State)
  {
    s == Updating || s == UpdateScheduled
  }

  /** A stale local group: unknown to the backend and not being created. */
  predicate Extra(g: LocalGroup, ids: set<string>)
  {
    g.backendId !in ids && !BeingCreated(g.state)
  }

  /** A local group the pull overwrites from its backend counterpart. */
  predicate Unsynchronized(g: LocalGroup, byId: map<string, BackendGroup>)
  {
    g.backendId in byId && !GroupsEqual(byId[g.backendId], g) && !BeingUpdated(g.state)
  }

  /** The local rules a group holds after its rules are pulled. */
  function PulledRules(bg: BackendGroup): (rules: seq<SR.Rule>)
    ensures |rules| == |bg.rules|
    ensures forall i :: 0 <= i < |bg.rules| ==> RS.RulesEqual(RS.Normalize(bg.rules[i]), rules[i])
  {
    Map(bg.rules, (b: RS.BackendRule) => RS.ToLocal(RS.Normalize(b)))
  }

  /** The update step for one kept group. */
  function Resync(g: LocalGroup, byId: map<string, BackendGroup>): LocalGroup
  {
    if Unsynchronized(g, byId) then
      var bg := byId[g.backendId];
      LocalGroup(bg.name, g.backendId, if bg.name != g.name then Ok else g.state, PulledRules(bg))
    else g
  }

  function Create(bg: BackendGroup): LocalGroup
  {
    LocalGroup(bg.name, bg.id, Ok, PulledRules(bg))
  }

  /** The local groups a pull keeps: all but the stale ones. */
  function KeptBy(ids: set<string>): LocalGroup -> bool
  {
    g => !Extra(g, ids)
  }

  /** The backend groups no local group refers to. */
  function MissingFrom(local: seq<LocalGroup>): BackendGroup -> bool
  {
    (bg: BackendGroup) => forall g :: g in local ==> g.backendId != bg.id
  }

  function ResyncWith(byId: map<string, BackendGroup>): LocalGroup -> LocalGroup
  {
    g => Resync(g, byId)
  }

  datatype PullError = DuplicateLocalGroup | DuplicateLocalRule

  /** Two local groups share a backend id the backend knows: looking one up raises. */
  predicate SharedBackendId(local: seq<LocalGroup>, ids: set<string>)
  {
    exists i, j :: 0 <= i < j < |local| && local[i].backendId == local[j].backendId && local[i].backendId in ids
  }

  /** A group whose rules get pulled holds two rules with the same backend id. */
  predicate RulePullFails(local: seq<LocalGroup>, byId: map<string, BackendGroup>)
  {
    exists g :: g in local && Unsynchronized(g, byId)
      && RS.LocalDuplicate(g.rules, RS.ById(byId[g.backendId].rules))
  }

  /**
   * `pull_tenant_security_groups`: delete stale groups, overwrite groups
   * that differ, create the missing ones, all from one backend listing.
   */
  function PullTenantGroups(local: seq<LocalGroup>, backend: seq<BackendGroup>): (r: Result<seq<LocalGroup>, PullError>)
    ensures r.Success? <==> !SharedBackendId(local, GroupsById(backend).Keys) && !RulePullFails(local, GroupsById(backend))
  {
    var byId := GroupsById(backend);
    if SharedBackendId(local, byId.Keys) then Failure(DuplicateLocalGroup)
    else if RulePullFails(local, byId) then Failure(DuplicateLocalRule)
    else
      var kept := Filter(local, KeptBy(byId.Keys));
      var nonexistent := Filter(backend, MissingFrom(local));
      Success(Map(kept, ResyncWith(byId)) + Map(nonexistent, Create))
  }

  /** A group that is still being created survives the pull, even if the backend does not list it. */
  lemma PullNeverDeletesGroupsBeingCreated(local: seq<LocalGroup>, backend: seq<BackendGroup>, g: LocalGroup)
    requires PullTenantGroups(local, backend).Success?
    requires g in local && BeingCreated(g.state)
    ensures Resync(g, GroupsById(backend)) in PullTenantGroups(local, backend).value
  {
    PullKeepsKnownGroups(local, backend, g);
  }

  /** A group with an update in flight is left exactly as it is. */
  lemma PullLeavesGroupsBeingUpdated(local: seq<LocalGroup>, backend: seq<BackendGroup>, g: LocalGroup)
    requires PullTenantGroups(local, backend).Success?
    requires g in local && BeingUpdated(g.state)
    requires g.backendId in GroupsById(backend)
    ensures g in PullTenantGroups(local, backend).value
  {
    PullKeepsKnownGroups(local, backend, g);
  }

  /** A group known to the backend is kept (possibly updated). */
  lemma PullKeepsKnownGroups(local: seq<LocalGroup>, backend: seq<BackendGroup>, g: LocalGroup)
    requires PullTenantGroups(local, backend).Success?
    requires g in local && (BeingCreated(g.state) || g.backendId in GroupsById(backend))
    ensures Resync(g, GroupsById(backend)) in PullTenantGroups(local, backend).value
  {
    var byId := GroupsById(backend);
    var kept := Filter(local, KeptBy(byId.Keys));
    var i :| 0 <= i < |local| && local[i] == g;
    FilterMembers(local, KeptBy(byId.Keys));
    assert g in kept;
    var k :| 0 <= k < |kept| && kept[k] == g;
    assert Map(kept, ResyncWith(byId))[k] == Resync(g, byId);
  }

  /** Afterwards, every group the backend lists has a local group carrying its id. */
  lemma PullCoversBackend(local: seq<LocalGroup>, backend: seq<BackendGroup>, bg: BackendGroup)
    requires PullTenantGroups(local, backend).Success?
    requires bg in backend
    ensures exists g :: g in PullTenantGroups(local, backend).value && g.backendId == bg.id
  {
    var byId := GroupsById(backend);
    var out := PullTenantGroups(local, backend).value;
    if g :| g in local && g.backendId == bg.id {
      PullKeepsKnownGroups(local, backend, g);
      assert Resync(g, byId).backendId == bg.id;
    } else {
      var nonexistent := Filter(backend, MissingFrom(local));
      var kept := Filter(local, KeptBy(byId.Keys));
      var i :| 0 <= i < |backend| && backend[i] == bg;
      FilterMembers(backend, MissingFrom(local));
      assert bg in nonexistent;
      var k :| 0 <= k < |nonexistent| && nonexistent[k] == bg;
      assert out[|kept| + k] == Create(bg);
    }
  }

  /** Afterwards, no group is unknown to the backend unless it is still being created. */
  lemma PullRemovesStaleGroups(local: seq<LocalGroup>, backend: seq<BackendGroup>, g: LocalGroup)
    requires PullTenantGroups(local, backend).Success?
    requires g in PullTenantGroups(local, backend).value
    ensures g.backendId in GroupsById(backend) || (g in local && BeingCreated(g.state))
  {
    var byId := GroupsById(backend);
    var out := PullTenantGroups(local, backend).value;
    var kept := Filter(local, KeptBy(byId.Keys));
    var nonexistent := Filter(backend, MissingFrom(local));
    var i :| 0 <= i < |out| && out[i] == g;
    if i < |kept| {
      assert g == Resync(kept[i], byId);
      FilterMembers(local, KeptBy(byId.Keys));
      assert kept[i] in local && KeptBy(byId.Keys)(kept[i]);
    } else {
      var bg := nonexistent[i - |kept|];
      assert g == Create(bg);
      FilterMembers(backend, MissingFrom(local));
      assert bg in backend;
      assert bg.id in byId.Keys;
    }
  }
}
