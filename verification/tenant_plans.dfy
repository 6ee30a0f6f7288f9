/**
 * The plans of the tenant application's executors: tenant creation,
 * deletion and actions, and the network, subnet and security-group plans.
 */
module TenantPlans {
  import opened Wrappers
  import opened Seqs
  import opened Plans

  /* ---------------------------------------------------------------------- */
  /* Tenant creation                                                        */

  /** The calls that always open a tenant creation, in their order. */
  const CreationOrder: seq<Method> :=
    [CreateTenant, AddAdminUserToTenant, CreateTenantUser, CreateNetwork, CreateSubnet, PushTenantQuotas]

  /** The labels of the steps that follow the fixed opening. */
  const LaterLabels: set<Label> :=
    {RunsExecutor, Calls(PullTenantSecurityGroups), Calls(ConnectTenantToExternalNetwork)}

  function CreationLabels(): set<Label>
  {
    set m | m in CreationOrder :: Calls(m)
  }

  /** The fixed opening: the tenant with its users, its network and subnet, then its quota limits. */
  function CreationBase(t: string, n: string, s: string): seq<Step>
  {
    [Backend(t, CreateTenant, Some(BeginCreating), []),
     Backend(t, AddAdminUserToTenant, None, []),
     Backend(t, CreateTenantUser, None, []),
     Backend(n, CreateNetwork, Some(BeginCreating), []),
     Backend(s, CreateSubnet, Some(BeginCreating), []),
     Backend(t, PushTenantQuotas, None, [QuotaLimits])]
  }

  function RunCreateExecutor(g: string): Step
  {
    RunExecutor(g)
  }

  function OptionalPull(t: string, pullSecurityGroups: bool): seq<Step>
  {
    if pullSecurityGroups then [Backend(t, PullTenantSecurityGroups, None, [])] else []
  }

  function OptionalConnect(t: string, externalNetworkId: string): seq<Step>
  {
    if externalNetworkId != "" then [Backend(t, ConnectTenantToExternalNetwork, None, [ExternalNetworkId(externalNetworkId)])]
    else []
  }

  /**
   * Tenant creation for tenant `t` with network `n` and subnet `s`: the
   * fixed opening, then the create executor of each security group, then the
   * optional pull of the tenant's groups, then the optional connection to
   * the external network configured for the service (empty means none).
   * Success marks the subnet, the network and the tenant OK in that order.
   */
  function TenantCreate(t: string, n: string, s: string, groups: seq<string>, pullSecurityGroups: bool,
                        externalNetworkId: string): (ex: Executor)
    ensures ex.signature.Chain?
    ensures var r := ex.signature.steps;
            && |r| >= |CreationOrder|
            && (forall k :: 0 <= k < |CreationOrder| ==> LabelOf(r[k]) == Calls(CreationOrder[k]))
            && r[3].target == n && r[4].target == s
    ensures var r := ex.signature.steps;
            && Precedes(r, CreationLabels(), LaterLabels)
            && Precedes(r, {RunsExecutor}, {Calls(PullTenantSecurityGroups), Calls(ConnectTenantToExternalNetwork)})
            && Precedes(r, {Calls(PullTenantSecurityGroups)}, {Calls(ConnectTenantToExternalNetwork)})
    ensures forall g :: RunExecutor(g) in ex.signature.steps <==> g in groups
    ensures Has(ex.signature.steps, Calls(PullTenantSecurityGroups)) <==> pullSecurityGroups
    ensures Has(ex.signature.steps, Calls(ConnectTenantToExternalNetwork)) <==> externalNetworkId != ""
    ensures externalNetworkId != "" ==>
              Backend(t, ConnectTenantToExternalNetwork, None, [ExternalNetworkId(externalNetworkId)]) in ex.signature.steps
    ensures ex.onSuccess == Some([Transition(s, SetOk), Transition(n, SetOk), Transition(t, SetOk)])
    ensures ex.onFailure == Some([Task(TenantCreateError, t, None)])
  {
    CreationStages(t, n, s, groups, pullSecurityGroups, externalNetworkId);
    CreationContents(t, n, s, groups, pullSecurityGroups, externalNetworkId);
    Executor([], Chain(CreationSteps(t, n, s, groups, pullSecurityGroups, externalNetworkId)), [],
             Some([Transition(s, SetOk), Transition(n, SetOk), Transition(t, SetOk)]),
             Some([Task(TenantCreateError, t, None)]))
  }

  function CreationSteps(t: string, n: string, s: string, groups: seq<string>, pullSecurityGroups: bool,
                         externalNetworkId: string): seq<Step>
  {
    CreationBase(t, n, s) + Map(groups, RunCreateExecutor)
    + OptionalPull(t, pullSecurityGroups) + OptionalConnect(t, externalNetworkId)
  }

  lemma CreationStages(t: string, n: string, s: string, groups: seq<string>, pullSecurityGroups: bool,
                       externalNetworkId: string)
    ensures var r := CreationSteps(t, n, s, groups, pullSecurityGroups, externalNetworkId);
            && Precedes(r, CreationLabels(), LaterLabels)
            && Precedes(r, {RunsExecutor}, {Calls(PullTenantSecurityGroups), Calls(ConnectTenantToExternalNetwork)})
            && Precedes(r, {Calls(PullTenantSecurityGroups)}, {Calls(ConnectTenantToExternalNetwork)})
  {
    var base, runs := CreationBase(t, n, s), Map(groups, RunCreateExecutor);
    var pull, connect := OptionalPull(t, pullSecurityGroups), OptionalConnect(t, externalNetworkId);
    var creation := CreationLabels();
    assert Calls(PullTenantSecurityGroups) !in creation && Calls(ConnectTenantToExternalNetwork) !in creation;
    assert Lacks(base, LaterLabels);
    assert Lacks(runs, creation) && Lacks(runs, {Calls(PullTenantSecurityGroups), Calls(ConnectTenantToExternalNetwork)});
    assert Lacks(pull, creation) && Lacks(pull, {RunsExecutor}) && Lacks(pull, {Calls(ConnectTenantToExternalNetwork)});
    assert Lacks(connect, creation) && Lacks(connect, {RunsExecutor}) && Lacks(connect, {Calls(PullTenantSecurityGroups)});
    LacksAppend(runs, pull, creation);
    LacksAppend(runs + pull, connect, creation);
    assert base + runs + pull + connect == base + (runs + pull + connect);
    PrecedesConcat(base, runs + pull + connect, creation, LaterLabels);
    assert Lacks(base, {Calls(PullTenantSecurityGroups), Calls(ConnectTenantToExternalNetwork)});
    LacksAppend(base, runs, {Calls(PullTenantSecurityGroups), Calls(ConnectTenantToExternalNetwork)});
    LacksAppend(pull, connect, {RunsExecutor});
    assert base + runs + pull + connect == (base + runs) + (pull + connect);
    PrecedesConcat(base + runs, pull + connect, {RunsExecutor},
                   {Calls(PullTenantSecurityGroups), Calls(ConnectTenantToExternalNetwork)});
    assert Lacks(base, {Calls(ConnectTenantToExternalNetwork)}) && Lacks(runs, {Calls(ConnectTenantToExternalNetwork)});
    LacksAppend(base, runs, {Calls(ConnectTenantToExternalNetwork)});
    LacksAppend(base + runs, pull, {Calls(ConnectTenantToExternalNetwork)});
    PrecedesConcat(base + runs + pull, connect, {Calls(PullTenantSecurityGroups)}, {Calls(ConnectTenantToExternalNetwork)});
  }

  lemma CreationContents(t: string, n: string, s: string, groups: seq<string>, pullSecurityGroups: bool,
                         externalNetworkId: string)
    ensures var r := CreationSteps(t, n, s, groups, pullSecurityGroups, externalNetworkId);
            && |r| >= |CreationOrder|
            && (forall k :: 0 <= k < |CreationOrder| ==> LabelOf(r[k]) == Calls(CreationOrder[k]))
            && r[3].target == n && r[4].target == s
            && (forall g :: RunExecutor(g) in r <==> g in groups)
            && (Has(r, Calls(PullTenantSecurityGroups)) <==> pullSecurityGroups)
            && (Has(r, Calls(ConnectTenantToExternalNetwork)) <==> externalNetworkId != "")
            && (externalNetworkId != "" ==>
                  Backend(t, ConnectTenantToExternalNetwork, None, [ExternalNetworkId(externalNetworkId)]) in r)
  {
    CreationPrefix(t, n, s, groups, pullSecurityGroups, externalNetworkId);
    CreationRuns(t, n, s, groups, pullSecurityGroups, externalNetworkId);
    CreationOptions(t, n, s, groups, pullSecurityGroups, externalNetworkId);
  }

  lemma CreationPrefix(t: string, n: string, s: string, groups: seq<string>, pullSecurityGroups: bool,
                       externalNetworkId: string)
    ensures var r := CreationSteps(t, n, s, groups, pullSecurityGroups, externalNetworkId);
            && |r| >= |CreationOrder|
            && (forall k :: 0 <= k < |CreationOrder| ==> LabelOf(r[k]) == Calls(CreationOrder[k]))
            && r[3].target == n && r[4].target == s
  {
    var r := CreationSteps(t, n, s, groups, pullSecurityGroups, externalNetworkId);
    var base := CreationBase(t, n, s);
    assert forall k :: 0 <= k < 6 ==> r[k] == base[k];
  }

  lemma CreationRuns(t: string, n: string, s: string, groups: seq<string>, pullSecurityGroups: bool,
                     externalNetworkId: string)
    ensures var r := CreationSteps(t, n, s, groups, pullSecurityGroups, externalNetworkId);
            forall g :: RunExecutor(g) in r <==> g in groups
  {
    var r := CreationSteps(t, n, s, groups, pullSecurityGroups, externalNetworkId);
    var base, runs := CreationBase(t, n, s), Map(groups, RunCreateExecutor);
    var pull, connect := OptionalPull(t, pullSecurityGroups), OptionalConnect(t, externalNetworkId);
    var tail: seq<Step> := pull + connect;
    assert r == base + runs + tail;
    assert forall k :: 0 <= k < |base| ==> !base[k].RunExecutor?;
    assert forall k :: 0 <= k < |tail| ==> !tail[k].RunExecutor?;
    assert forall k :: 0 <= k < 6 ==> r[k] == base[k];
    assert forall k :: 6 + |groups| <= k < |r| ==> r[k] == tail[k - 6 - |groups|];
    forall g ensures RunExecutor(g) in r <==> g in groups {
      if g in groups {
        var k :| 0 <= k < |groups| && groups[k] == g;
        assert r[6 + k] == RunExecutor(g);
      }
      if RunExecutor(g) in r {
        var k :| 0 <= k < |r| && r[k] == RunExecutor(g);
        assert 6 <= k < 6 + |groups|;
        assert r[k] == runs[k - 6];
      }
    }
  }

  lemma CreationOptions(t: string, n: string, s: string, groups: seq<string>, pullSecurityGroups: bool,
                        externalNetworkId: string)
    ensures var r := CreationSteps(t, n, s, groups, pullSecurityGroups, externalNetworkId);
            && (Has(r, Calls(PullTenantSecurityGroups)) <==> pullSecurityGroups)
            && (Has(r, Calls(ConnectTenantToExternalNetwork)) <==> externalNetworkId != "")
            && (externalNetworkId != "" ==>
                  Backend(t, ConnectTenantToExternalNetwork, None, [ExternalNetworkId(externalNetworkId)]) in r)
  {
    var r := CreationSteps(t, n, s, groups, pullSecurityGroups, externalNetworkId);
    var base, runs := CreationBase(t, n, s), Map(groups, RunCreateExecutor);
    var pull, connect := OptionalPull(t, pullSecurityGroups), OptionalConnect(t, externalNetworkId);
    var m := |groups| + 6;
    assert forall k :: 0 <= k < 6 ==> r[k] == base[k];
    assert forall k :: 6 <= k < m ==> r[k] == runs[k - 6];
    assert forall k :: m <= k < m + |pull| ==> r[k] == pull[k - m];
    assert forall k :: m + |pull| <= k < |r| ==> r[k] == connect[k - m - |pull|];
    if pullSecurityGroups {
      assert LabelOf(r[m]) == Calls(PullTenantSecurityGroups);
    }
    if externalNetworkId != "" {
      assert r[|r| - 1] == connect[0];
    }
  }

  /* ---------------------------------------------------------------------- */
  /* Tenant deletion                                                        */

  const NetworkCleanup: set<Label> :=
    {Calls(DeleteTenantFloatingIps), Calls(DeleteTenantPorts), Calls(DeleteTenantRouters), Calls(DeleteTenantNetworks)}

  const InstanceCleanup: set<Label> :=
    {Calls(DeleteTenantSecurityGroups), Calls(DeleteTenantInstances), Calls(DeleteTenantSnapshots), Calls(DeleteTenantVolumes)}

  function NetworkCleanupSteps(t: string): seq<Step>
  {
    [Backend(t, DeleteTenantFloatingIps, None, []), Backend(t, DeleteTenantPorts, None, []),
     Backend(t, DeleteTenantRouters, None, []), Backend(t, DeleteTenantNetworks, None, [])]
  }

  function InstanceCleanupSteps(t: string): seq<Step>
  {
    [Backend(t, DeleteTenantSecurityGroups, None, []), Backend(t, DeleteTenantInstances, None, []),
     Backend(t, DeleteTenantSnapshots, None, []), Backend(t, DeleteTenantVolumes, None, [])]
  }

  function IdentityCleanupSteps(t: string): seq<Step>
  {
    [Backend(t, DeleteTenantUser, None, []), Backend(t, DeleteTenant, None, [])]
  }

  /**
   * Tenant deletion: without a backend id only the transition; with one,
   * the transition, then the network resources, then the compute and
   * storage resources, then the tenant's user and finally the tenant.
   */
  function TenantDelete(t: string, backendId: string): (r: seq<Step>)
    ensures |r| >= 1 && r[0] == Transition(t, BeginDeleting)
    ensures backendId == "" ==> |r| == 1
    ensures CallsBackend(r) <==> backendId != ""
    ensures backendId != "" ==>
              && (forall l :: l in NetworkCleanup + InstanceCleanup ==> Has(r, l))
              && Precedes(r, NetworkCleanup, InstanceCleanup)
              && Precedes(r, InstanceCleanup, {Calls(DeleteTenantUser)})
              && Precedes(r, {Calls(DeleteTenantUser)}, {Calls(DeleteTenant)})
              && LabelOf(r[|r| - 1]) == Calls(DeleteTenant)
  {
    if backendId == "" then [Transition(t, BeginDeleting)]
    else
      DeletionOrder(t);
      DeletionContents(t);
      DeletionSteps(t)
  }

  function DeletionSteps(t: string): seq<Step>
  {
    [Transition(t, BeginDeleting)] + NetworkCleanupSteps(t) + InstanceCleanupSteps(t) + IdentityCleanupSteps(t)
  }

  lemma DeletionOrder(t: string)
    ensures var r := DeletionSteps(t);
            && Precedes(r, NetworkCleanup, InstanceCleanup)
            && Precedes(r, InstanceCleanup, {Calls(DeleteTenantUser)})
            && Precedes(r, {Calls(DeleteTenantUser)}, {Calls(DeleteTenant)})
  {
    var head, net := [Transition(t, BeginDeleting)], NetworkCleanupSteps(t);
    var inst, ident := InstanceCleanupSteps(t), IdentityCleanupSteps(t);
    assert Lacks(head, InstanceCleanup) && Lacks(net, InstanceCleanup);
    assert Lacks(inst, NetworkCleanup) && Lacks(ident, NetworkCleanup);
    LacksAppend(head, net, InstanceCleanup);
    LacksAppend(inst, ident, NetworkCleanup);
    assert head + net + inst + ident == (head + net) + (inst + ident);
    PrecedesConcat(head + net, inst + ident, NetworkCleanup, InstanceCleanup);
    assert Lacks(head, {Calls(DeleteTenantUser)}) && Lacks(net, {Calls(DeleteTenantUser)});
    assert Lacks(inst, {Calls(DeleteTenantUser)}) && Lacks(ident, InstanceCleanup);
    LacksAppend(head, net, {Calls(DeleteTenantUser)});
    LacksAppend(head + net, inst, {Calls(DeleteTenantUser)});
    PrecedesConcat(head + net + inst, ident, InstanceCleanup, {Calls(DeleteTenantUser)});
    var r := DeletionSteps(t);
    assert forall k :: 0 <= k < |r| && LabelOf(r[k]) == Calls(DeleteTenantUser) ==> k == 9;
  }

  lemma DeletionContents(t: string)
    ensures var r := DeletionSteps(t);
            && CallsBackend(r)
            && (forall l :: l in NetworkCleanup + InstanceCleanup ==> Has(r, l))
            && LabelOf(r[|r| - 1]) == Calls(DeleteTenant)
  {
    var r := DeletionSteps(t);
    assert IsBackendCall(r[1]);
    assert LabelOf(r[1]) == Calls(DeleteTenantFloatingIps) && LabelOf(r[2]) == Calls(DeleteTenantPorts);
    assert LabelOf(r[3]) == Calls(DeleteTenantRouters) && LabelOf(r[4]) == Calls(DeleteTenantNetworks);
    assert LabelOf(r[5]) == Calls(DeleteTenantSecurityGroups) && LabelOf(r[6]) == Calls(DeleteTenantInstances);
    assert LabelOf(r[7]) == Calls(DeleteTenantSnapshots) && LabelOf(r[8]) == Calls(DeleteTenantVolumes);
  }

  /* ---------------------------------------------------------------------- */
  /* Tenant actions                                                         */

  /** The single-call tenant actions; creating an external network needs its data. */
  datatype TenantAction =
    | AllocateFloatingIp | DeleteExternalNet | CreateExternalNet(data: Option<seq<Arg>>) | PushQuotas
    | Pull | PullSecurityGroups | DetectExternalNet | PullFloatingIps | PullQuotas

  datatype ActionError = MissingExternalNetworkData

  function ActionMethod(a: TenantAction): Method
  {
    match a
    case AllocateFloatingIp => AllocateFloatingIpAddress
    case DeleteExternalNet => DeleteExternalNetwork
    case CreateExternalNet(_) => CreateExternalNetwork
    case PushQuotas => PushTenantQuotas
    case Pull => PullTenant
    case PullSecurityGroups => PullTenantSecurityGroups
    case DetectExternalNet => DetectExternalNetwork
    case PullFloatingIps => PullTenantFloatingIps
    case PullQuotas => PullTenantQuotas
  }

  /**
   * A tenant action: one backend call that starts the tenant's update;
   * creating an external network without its data is refused.
   */
  function TenantActionPlan(t: string, a: TenantAction): (r: Result<seq<Step>, ActionError>)
    ensures r.Failure? <==> a == CreateExternalNet(None)
    ensures r.Success? ==> && |r.value| == 1 && r.value[0].Backend?
                           && r.value[0].target == t
                           && LabelOf(r.value[0]) == Calls(ActionMethod(a))
                           && TransitionsOn(r.value, t) == [BeginUpdating]
    ensures r.Success? && a.CreateExternalNet? ==> r.value[0].args == a.data.value
    ensures r.Success? && a == PushQuotas ==> r.value[0].args == [QuotaLimits]
  {
    if a == CreateExternalNet(None) then Failure(MissingExternalNetworkData)
    else
      var r := [Backend(t, ActionMethod(a), Some(BeginUpdating), ActionArgs(a))];
      TransitionsOnFrom(r, 0, t);
      assert r[0..] == r;
      Success(r)
  }

  /** The keyword arguments of an action's call: the external network's data, or the quota limits to push. */
  function ActionArgs(a: TenantAction): seq<Arg>
  {
    match a
    case CreateExternalNet(data) => data.GetOr([])
    case PushQuotas => [QuotaLimits]
    case _ => []
  }

  /** Different actions call different backend methods. */
  lemma ActionMethodsDistinct(a: TenantAction, b: TenantAction)
    requires ActionMethod(a) == ActionMethod(b)
    ensures a.CreateExternalNet? <==> b.CreateExternalNet?
    ensures !a.CreateExternalNet? ==> a == b
  {
  }

  /* ---------------------------------------------------------------------- */
  /* Networks, subnets and security groups                                  */

  function NetworkCreate(n: string): (r: seq<Step>)
    ensures CallsBackend(r) && Has(r, Calls(CreateNetwork))
    ensures TransitionsOn(r, n) == [BeginCreating]
  {
    CallWith(n, CreateNetwork, BeginCreating)
  }

  function NetworkUpdate(n: string): (r: seq<Step>)
    ensures CallsBackend(r) && Has(r, Calls(UpdateNetwork))
    ensures TransitionsOn(r, n) == [BeginUpdating]
  {
    CallWith(n, UpdateNetwork, BeginUpdating)
  }

  function NetworkPull(n: string): (r: seq<Step>)
    ensures CallsBackend(r) && Has(r, Calls(PullNetwork))
    ensures TransitionsOn(r, n) == [BeginUpdating]
  {
    CallWith(n, PullNetwork, BeginUpdating)
  }

  /** A network without a backend id is only moved to deletion. */
  function NetworkDelete(n: string, backendId: string): (r: seq<Step>)
    ensures CallsBackend(r) <==> backendId != ""
    ensures backendId != "" ==> r == [Backend(n, DeleteNetwork, Some(BeginDeleting), [])]
    ensures TransitionsOn(r, n) == [BeginDeleting]
  {
    DeletePlan(n, backendId, DeleteNetwork, None)
  }

  function SubnetCreate(s: string): (r: seq<Step>)
    ensures CallsBackend(r) && Has(r, Calls(CreateSubnet))
    ensures TransitionsOn(r, s) == [BeginCreating]
  {
    CallWith(s, CreateSubnet, BeginCreating)
  }

  function SubnetUpdate(s: string): (r: seq<Step>)
    ensures CallsBackend(r) && Has(r, Calls(UpdateSubnet))
    ensures TransitionsOn(r, s) == [BeginUpdating]
  {
    CallWith(s, UpdateSubnet, BeginUpdating)
  }

  function SubnetPull(s: string): (r: seq<Step>)
    ensures CallsBackend(r) && Has(r, Calls(PullSubnet))
    ensures TransitionsOn(r, s) == [BeginUpdating]
  {
    CallWith(s, PullSubnet, BeginUpdating)
  }

  /** A subnet without a backend id is only moved to deletion. */
  function SubnetDelete(s: string, backendId: string): (r: seq<Step>)
    ensures CallsBackend(r) <==> backendId != ""
    ensures backendId != "" ==> r == [Backend(s, DeleteSubnet, Some(BeginDeleting), [])]
    ensures TransitionsOn(r, s) == [BeginDeleting]
  {
    DeletePlan(s, backendId, DeleteSubnet, None)
  }
}
