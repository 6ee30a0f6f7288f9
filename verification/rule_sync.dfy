/**
 * Reconciliation of a security group's rules with the backend.
 *
 * Backend rules come from nova: their protocol may be null and their address
 * range may lack a CIDR. Before comparison they are normalised. Pushing sends
 * the local rules to the backend (delete stale or changed backend rules,
 * recreate changed and missing ones); pulling makes the local rules a copy of
 * the backend ones.
 */
module RuleSync {
  import opened Wrappers
  import opened Seqs
  import SR = SecurityGroupRules

  /** The CIDR a backend rule without one is taken to cover. */
  const AnyAddress: string := "0.0.0.0/0"

  datatype BackendRule = BackendRule(
    id: string,
    fromPort: Option<int>,
    toPort: Option<int>,
    ipProtocol: Option<string>,
    cidr: Option<string>)

  predicate IsNormal(b: BackendRule)
  {
    b.ipProtocol.Some? && b.cidr.Some?
  }

  /** A null protocol becomes the empty string and a missing CIDR covers every address. */
  function Normalize(b: BackendRule): (n: BackendRule)
    ensures IsNormal(n)
    ensures n.id == b.id && n.fromPort == b.fromPort && n.toPort == b.toPort
    ensures IsNormal(b) ==> n == b
  {
    BackendRule(
      b.id, b.fromPort, b.toPort,
      Some(b.ipProtocol.GetOr("")),
      Some(b.cidr.GetOr(AnyAddress)))
  }

  lemma NormalizeIdempotent(b: BackendRule)
    ensures Normalize(Normalize(b)) == Normalize(b)
  {
  }

  /**
   * Rule equality as the backend sync sees it: ports, protocol and CIDR; a
   * backend rule with no CIDR compares as the empty CIDR. Nothing else (in
   * particular not the backend id) is compared.
   */
  predicate RulesEqual(b: BackendRule, l: SR.Rule)
  {
    && b.fromPort == l.fromPort
    && b.toPort == l.toPort
    && b.ipProtocol == Some(l.protocol)
    && b.cidr.GetOr("") == l.cidr
  }

  /** A local rule written from a normalised backend rule. */
  function ToLocal(b: BackendRule): (l: SR.Rule)
    requires IsNormal(b)
    ensures RulesEqual(b, l) && l.backendId == b.id
  {
    SR.Rule(b.ipProtocol.value, b.fromPort, b.toPort, b.cidr.value, b.id)
  }

  /** What is sent to nova to create a rule: the database's empty protocol travels as null. */
  datatype CreateRequest = CreateRequest(
    ipProtocol: Option<string>,
    fromPort: Option<int>,
    toPort: Option<int>,
    cidr: string)

  function AsRequest(l: SR.Rule): (q: CreateRequest)
    ensures q.ipProtocol.None? <==> l.protocol == ""
    ensures q.fromPort == l.fromPort && q.toPort == l.toPort && q.cidr == l.cidr
  {
    CreateRequest(if l.protocol == "" then None else Some(l.protocol), l.fromPort, l.toPort, l.cidr)
  }

  /** The rule nova stores for a request, under the id it assigns. */
  function Stored(q: CreateRequest, id: string): BackendRule
  {
    BackendRule(id, q.fromPort, q.toPort, q.ipProtocol, Some(q.cidr))
  }

  /** A pushed rule, once read back and normalised, compares equal to the local rule it came from. */
  lemma PushThenReadBackEqual(l: SR.Rule, id: string)
    ensures RulesEqual(Normalize(Stored(AsRequest(l), id)), l)
  {
  }

  /** A pulled rule compares equal to the backend rule it was copied from. */
  lemma PulledRuleEqual(b: BackendRule)
    ensures RulesEqual(Normalize(b), ToLocal(Normalize(b)))
  {
  }

  /** Normalises every rule of a backend map, keeping the keys. */
  function NormalizeAll(backend: map<string, BackendRule>): (n: map<string, BackendRule>)
    ensures n.Keys == backend.Keys
    ensures forall id :: id in n ==> n[id] == Normalize(backend[id])
  {
    map id | id in backend :: Normalize(backend[id])
  }

  datatype SyncError = DuplicateBackendId

  /**
   * The three groups a push sorts local rules into: rules whose backend id is
   * unknown to the backend, rules whose backend counterpart differs, and the
   * backend ids that some local rule refers to.
   */
  datatype Partition = Partition(
    nonexistent: seq<SR.Rule>,
    unsynchronized: seq<SR.Rule>,
    referenced: set<string>)

  /** Two local rules refer to the same backend rule. */
  predicate SharesKnownId(local: seq<SR.Rule>, backend: map<string, BackendRule>)
  {
    exists i, j :: 0 <= i < j < |local| && local[i].backendId == local[j].backendId && local[i].backendId in backend
  }

  predicate Unknown(backend: map<string, BackendRule>, l: SR.Rule)
  {
    l.backendId !in backend
  }

  predicate Differs(backend: map<string, BackendRule>, l: SR.Rule)
  {
    l.backendId in backend && !RulesEqual(Normalize(backend[l.backendId]), l)
  }

  function UnknownIn(backend: map<string, BackendRule>): SR.Rule -> bool
  {
    l => Unknown(backend, l)
  }

  function DiffersIn(backend: map<string, BackendRule>): SR.Rule -> bool
  {
    l => Differs(backend, l)
  }

  /**
   * The classification loop of a push. Removing an already removed id from
   * the list of extra backend ids raises, so two local rules referring to the
   * same backend rule make the push fail.
   */
  function Classify(local: seq<SR.Rule>, backend: map<string, BackendRule>): (r: Result<Partition, SyncError>)
    ensures r.Success? <==> !SharesKnownId(local, backend)
    ensures r.Success? ==> r.value.nonexistent == Filter(local, UnknownIn(backend))
    ensures r.Success? ==> r.value.unsynchronized == Filter(local, DiffersIn(backend))
    ensures r.Success? ==> r.value.referenced == set l | l in local && l.backendId in backend :: l.backendId
    decreases |local|
  {
    if local == [] then Success(Partition([], [], {}))
    else
      var init := local[..|local| - 1];
      var l := local[|local| - 1];
      assert local == init + [l];
      FilterSnoc(init, l, UnknownIn(backend));
      FilterSnoc(init, l, DiffersIn(backend));
      match Classify(init, backend)
      case Failure(e) => Failure(e)
      case Success(p) =>
        if l.backendId !in backend then
          Success(p.(nonexistent := p.nonexistent + [l]))
        else if l.backendId in p.referenced then
          Failure(DuplicateBackendId)
        else
          var unsynchronized := if RulesEqual(Normalize(backend[l.backendId]), l) then [] else [l];
          Success(Partition(p.nonexistent, p.unsynchronized + unsynchronized, p.referenced + {l.backendId}))
  }

  /** What a push does on the backend, in order: two rounds of deletion, then creation. */
  datatype PushPlan = PushPlan(
    deleteExtra: set<string>,
    deleteUnsynchronized: seq<string>,
    create: seq<CreateRequest>)

  function BackendIds(rules: seq<SR.Rule>): (ids: seq<string>)
    ensures |ids| == |rules|
    ensures forall i :: 0 <= i < |rules| ==> ids[i] == rules[i].backendId
  {
    Map(rules, (l: SR.Rule) => l.backendId)
  }

  function PushRules(local: seq<SR.Rule>, backend: map<string, BackendRule>): (r: Result<PushPlan, SyncError>)
    ensures r.Success? <==> !SharesKnownId(local, backend)
    ensures r.Success? ==> r.value.deleteExtra <= backend.Keys
  {
    match Classify(local, backend)
    case Failure(e) => Failure(e)
    case Success(p) =>
      Success(PushPlan(
        backend.Keys - p.referenced,
        BackendIds(p.unsynchronized),
        Map(p.unsynchronized + p.nonexistent, AsRequest)))
  }

  predicate Deleted(plan: PushPlan, id: string)
  {
    id in plan.deleteExtra || id in plan.deleteUnsynchronized
  }

  /** Some local rule refers to `id` and agrees with the backend rule stored under it. */
  predicate InSync(local: seq<SR.Rule>, backend: map<string, BackendRule>, id: string)
  {
    id in backend && exists l :: l in local && l.backendId == id && RulesEqual(Normalize(backend[id]), l)
  }

  /**
   * A push deletes exactly the backend rules that no local rule keeps in
   * sync: those nobody refers to and those whose local rule has changed.
   */
  lemma PushDeletesExactlyOutOfSync(local: seq<SR.Rule>, backend: map<string, BackendRule>, id: string)
    requires PushRules(local, backend).Success?
    ensures Deleted(PushRules(local, backend).value, id) <==> id in backend && !InSync(local, backend, id)
  {
    var p := Classify(local, backend).value;
    var plan := PushRules(local, backend).value;
    FilterMembers(local, DiffersIn(backend));
    if id in plan.deleteUnsynchronized {
      var k :| 0 <= k < |p.unsynchronized| && p.unsynchronized[k].backendId == id;
      var u := p.unsynchronized[k];
      assert u in local && Differs(backend, u);
    }
    if id in backend && !InSync(local, backend, id) && id !in plan.deleteExtra {
      assert id in p.referenced;
      var l :| l in local && l.backendId in backend && l.backendId == id;
      assert Differs(backend, l);
      var i :| 0 <= i < |local| && local[i] == l;
      assert l in p.unsynchronized;
      var k :| 0 <= k < |p.unsynchronized| && p.unsynchronized[k] == l;
      assert BackendIds(p.unsynchronized)[k] == id;
    }
  }

  /**
   * After a push every local rule is represented on the backend: either its
   * backend rule survives and agrees with it, or it is (re)created.
   */
  lemma PushCoversEveryLocalRule(local: seq<SR.Rule>, backend: map<string, BackendRule>, l: SR.Rule)
    requires PushRules(local, backend).Success?
    requires l in local
    ensures var plan := PushRules(local, backend).value;
            (l.backendId in backend && !Deleted(plan, l.backendId) && RulesEqual(Normalize(backend[l.backendId]), l))
            || AsRequest(l) in plan.create
  {
    var p := Classify(local, backend).value;
    var plan := PushRules(local, backend).value;
    var all := p.unsynchronized + p.nonexistent;
    FilterMembers(local, DiffersIn(backend));
    FilterMembers(local, UnknownIn(backend));
    if l.backendId !in backend || !RulesEqual(Normalize(backend[l.backendId]), l) {
      assert l in all;
      var k :| 0 <= k < |all| && all[k] == l;
      assert plan.create[k] == AsRequest(l);
    } else {
      assert InSync(local, backend, l.backendId);
      PushDeletesExactlyOutOfSync(local, backend, l.backendId);
    }
  }

  /** Every creation request corresponds to a local rule, and empty protocols travel as null. */
  lemma PushCreatesOnlyLocalRules(local: seq<SR.Rule>, backend: map<string, BackendRule>, k: int)
    requires PushRules(local, backend).Success?
    requires 0 <= k < |PushRules(local, backend).value.create|
    ensures exists l :: l in local && PushRules(local, backend).value.create[k] == AsRequest(l)
  {
    var p := Classify(local, backend).value;
    var all := p.unsynchronized + p.nonexistent;
    FilterMembers(local, DiffersIn(backend));
    FilterMembers(local, UnknownIn(backend));
    assert all[k] in local;
  }

  /* ---------------------------------------------------------------------- */
  /* Pull                                                                   */

  /** Two local rules share an id the backend knows: looking one up raises. */
  predicate LocalDuplicate(local: seq<SR.Rule>, backend: map<string, BackendRule>)
  {
    SharesKnownId(local, backend)
  }

  /** A map of backend rules keyed by their own ids, as built from nova's list. */
  predicate WellKeyed(backend: map<string, BackendRule>)
  {
    forall id :: id in backend ==> backend[id].id == id
  }

  /** Keys a list of backend rules by id; a later rule replaces an earlier one with the same id. */
  function ById(rules: seq<BackendRule>): (m: map<string, BackendRule>)
    ensures WellKeyed(m)
    ensures m.Keys == set b | b in rules :: b.id
    decreases |rules|
  {
    if rules == [] then map[]
    else
      var init := rules[..|rules| - 1];
      var b := rules[|rules| - 1];
      assert rules == init + [b];
      ById(init)[b.id := b]
  }

  /** The local rule after the update step: overwritten with the backend values when it differs. */
  function Resync(l: SR.Rule, b: BackendRule): SR.Rule
    requires IsNormal(b)
  {
    if RulesEqual(b, l) then l
    else l.(fromPort := b.fromPort, toPort := b.toPort, protocol := b.ipProtocol.value, cidr := b.cidr.value)
  }

  /** Updating an in-sync rule changes nothing, so every kept rule ends as the backend's copy. */
  lemma ResyncCopiesBackend(l: SR.Rule, b: BackendRule)
    requires IsNormal(b) && l.backendId == b.id
    ensures Resync(l, b) == ToLocal(b)
  {
  }

  /** Local rules still on the backend, keyed by backend id, after the update step. */
  function Kept(local: seq<SR.Rule>, backend: map<string, BackendRule>): (k: map<string, SR.Rule>)
    requires WellKeyed(backend)
    ensures k.Keys == (set l | l in local && l.backendId in backend :: l.backendId)
    ensures forall id :: id in k ==> k[id] == ToLocal(Normalize(backend[id]))
    decreases |local|
  {
    if local == [] then map[]
    else
      var rest := Kept(local[1..], backend);
      var l := local[0];
      assert forall x :: x in local <==> x == l || x in local[1..];
      if l.backendId !in backend then rest
      else
        ResyncCopiesBackend(l, Normalize(backend[l.backendId]));
        rest[l.backendId := Resync(l, Normalize(backend[l.backendId]))]
  }

  /**
   * `pull_security_group_rules`: delete local rules the backend no longer
   * has, update the ones that differ, create the missing ones. The result is
   * keyed by backend id.
   */
  function PullRules(local: seq<SR.Rule>, backend: map<string, BackendRule>): (r: Result<map<string, SR.Rule>, SyncError>)
    requires WellKeyed(backend)
    ensures r.Failure? <==> LocalDuplicate(local, backend)
  {
    if LocalDuplicate(local, backend) then
      Failure(DuplicateBackendId)
    else
      var kept := Kept(local, backend);
      var created := map id | id in backend && id !in kept :: ToLocal(Normalize(backend[id]));
      Success(kept + created)
  }

  /** After a pull, the local rules are exactly the normalised backend rules, one per backend id. */
  lemma PullMirrorsBackend(local: seq<SR.Rule>, backend: map<string, BackendRule>)
    requires WellKeyed(backend)
    requires !LocalDuplicate(local, backend)
    ensures PullRules(local, backend).Success?
    ensures PullRules(local, backend).value.Keys == backend.Keys
    ensures forall id :: id in backend ==> RulesEqual(Normalize(backend[id]), PullRules(local, backend).value[id])
    ensures forall id :: id in backend ==> PullRules(local, backend).value[id].backendId == id
  {
  }

  /** Local rules the backend no longer has are gone after a pull; among them unpushed rules with an empty id. */
  lemma PullDropsStaleRules(local: seq<SR.Rule>, backend: map<string, BackendRule>, l: SR.Rule)
    requires WellKeyed(backend)
    requires !LocalDuplicate(local, backend)
    requires l in local && l.backendId !in backend
    ensures l.backendId !in PullRules(local, backend).value
  {
  }
}
