/**
 * Default security groups created for a new tenant, from configuration.
 *
 * A configured rule may give an ICMP type and code instead of ports; they are
 * renamed to `from_port` and `to_port` before the rule is validated. Groups
 * with a missing name or without a rule list are skipped; rules that fail
 * validation are skipped; everything else is created.
 */
module DefaultGroups {
  import opened Wrappers
  import opened Seqs
  import SR = SecurityGroupRules

  /** A rule as written in settings; `None` means the key is absent. */
  datatype RuleConfig = RuleConfig(
    protocol: Option<string>,
    cidr: Option<string>,
    fromPort: Option<int>,
    toPort: Option<int>,
    icmpType: Option<int>,
    icmpCode: Option<int>)

  /** A group as written in settings; `rules` is `None` when absent or not a list or tuple. */
  datatype GroupConfig = GroupConfig(name: Option<string>, description: Option<string>, rules: Option<seq<RuleConfig>>)

  datatype CreatedGroup = CreatedGroup(name: string, description: Option<string>, rules: seq<SR.Rule>)

  datatype ConfigError = MissingName | RulesNotASequence

  /** The model row built from a configured rule, after the ICMP keys are renamed. */
  function Translate(rc: RuleConfig): (r: SR.Rule)
    ensures rc.icmpType.Some? ==> r.fromPort == rc.icmpType
    ensures rc.icmpType.None? ==> r.fromPort == rc.fromPort
    ensures rc.icmpCode.Some? ==> r.toPort == rc.icmpCode
    ensures rc.icmpCode.None? ==> r.toPort == rc.toPort
    ensures r.protocol == rc.protocol.GetOr("") && r.cidr == rc.cidr.GetOr("") && r.backendId == ""
  {
    SR.Rule(
      rc.protocol.GetOr(""),
      if rc.icmpType.Some? then rc.icmpType else rc.fromPort,
      if rc.icmpCode.Some? then rc.icmpCode else rc.toPort,
      rc.cidr.GetOr(""),
      "")
  }

  /** The rules `full_clean` lets through. */
  function Savable(cidrOk: string -> bool): SR.Rule -> bool
  {
    r => SR.FullClean(r, cidrOk)
  }

  /** `create_security_group`: the group with the rules that pass a full validation. */
  function CreateSecurityGroup(gc: GroupConfig, cidrOk: string -> bool): (r: Result<CreatedGroup, ConfigError>)
    ensures gc.name.None? || gc.name == Some("") ==> r == Failure(MissingName)
    ensures gc.name.Some? && gc.name != Some("") && gc.rules.None? ==> r == Failure(RulesNotASequence)
    ensures r.Success? <==> gc.name.Some? && gc.name.value != "" && gc.rules.Some?
    ensures r.Success? ==> r.value.name == gc.name.value && r.value.description == gc.description
    ensures r.Success? ==> forall i :: 0 <= i < |r.value.rules| ==> SR.FullClean(r.value.rules[i], cidrOk)
    ensures r.Success? ==> forall i :: 0 <= i < |gc.rules.value| && SR.FullClean(Translate(gc.rules.value[i]), cidrOk)
                                       ==> Translate(gc.rules.value[i]) in r.value.rules
    ensures r.Success? ==> forall i :: 0 <= i < |r.value.rules| ==> exists rc :: rc in gc.rules.value && r.value.rules[i] == Translate(rc)
  {
    if gc.name.None? || gc.name.value == "" then Failure(MissingName)
    else if gc.rules.None? then Failure(RulesNotASequence)
    else
      var translated := Map(gc.rules.value, Translate);
      var saved := Filter(translated, Savable(cidrOk));
      FilterMembers(translated, Savable(cidrOk));
      assert forall i :: 0 <= i < |saved| ==> saved[i] in translated;
      Success(CreatedGroup(gc.name.value, gc.description, saved))
  }

  /**
   * `create_initial_security_groups`: nothing unless the tenant row was just
   * created; then one group per well-formed configuration, in order.
   */
  function CreateInitialGroups(created: bool, configs: seq<GroupConfig>, cidrOk: string -> bool): (r: seq<CreatedGroup>)
    ensures !created ==> r == []
    ensures |r| <= |configs|
    decreases |configs|
  {
    if !created || configs == [] then []
    else
      var rest := CreateInitialGroups(created, configs[1..], cidrOk);
      match CreateSecurityGroup(configs[0], cidrOk)
      case Success(g) => [g] + rest
      case Failure(_) => rest
  }

  /** A misconfigured group is skipped without stopping the groups after it. */
  lemma {:induction false} WellFormedGroupsAllCreated(configs: seq<GroupConfig>, cidrOk: string -> bool, i: int)
    requires 0 <= i < |configs|
    requires CreateSecurityGroup(configs[i], cidrOk).Success?
    ensures CreateSecurityGroup(configs[i], cidrOk).value in CreateInitialGroups(true, configs, cidrOk)
    decreases |configs|
  {
    if i > 0 {
      WellFormedGroupsAllCreated(configs[1..], cidrOk, i - 1);
    }
  }

  /** Every created group comes from a well-formed configuration. */
  lemma {:induction false} CreatedGroupsAreConfigured(configs: seq<GroupConfig>, cidrOk: string -> bool, g: CreatedGroup)
    requires g in CreateInitialGroups(true, configs, cidrOk)
    ensures exists gc :: gc in configs && CreateSecurityGroup(gc, cidrOk) == Success(g)
    decreases |configs|
  {
    if configs != [] && g != CreateInitialGroups(true, configs, cidrOk)[0] {
      CreatedGroupsAreConfigured(configs[1..], cidrOk, g);
    } else if configs != [] && CreateSecurityGroup(configs[0], cidrOk).Failure? {
      CreatedGroupsAreConfigured(configs[1..], cidrOk, g);
    }
  }

  /* ---------------------------------------------------------------------- */
  /* The configured defaults                                                */

  const AnyAddress: string := "0.0.0.0/0"

  function IcmpRule(): RuleConfig
  {
    RuleConfig(Some("icmp"), Some(AnyAddress), None, None, Some(-1), Some(-1))
  }

  function TcpRule(from: int, to: int): RuleConfig
  {
    RuleConfig(Some("tcp"), Some(AnyAddress), Some(from), Some(to), None, None)
  }

  /** The tenant application's defaults: allow-all, ssh, ping, rdp and web. */
  const TenantDefaults: seq<GroupConfig> := [
    GroupConfig(Some("allow-all"), Some("Security group for any access"), Some([IcmpRule(), TcpRule(1, 65535)])),
    GroupConfig(Some("ssh"), Some("Security group for secure shell access"), Some([TcpRule(22, 22)])),
    GroupConfig(Some("ping"), Some("Security group for ping"), Some([IcmpRule()])),
    GroupConfig(Some("rdp"), Some("Security group for remove desktop access"), Some([TcpRule(3389, 3389)])),
    GroupConfig(Some("web"), Some("Security group for http and https access"), Some([TcpRule(80, 80), TcpRule(443, 443)]))
  ]

  /** The legacy application's single default group, allowing ssh and ping. */
  const LegacyDefaults: seq<GroupConfig> := [
    GroupConfig(Some("ssh"), Some("Security group for secure shell access and ping"), Some([TcpRule(22, 22), IcmpRule()]))
  ]

  predicate NamesDistinctAndPresent(configs: seq<GroupConfig>)
  {
    && (forall i :: 0 <= i < |configs| ==> configs[i].name.Some? && configs[i].name.value != "")
    && (forall i, j :: 0 <= i < j < |configs| ==> configs[i].name != configs[j].name)
  }

  /** Every configured rule survives validation once the ICMP keys are renamed. */
  predicate AllRulesValid(configs: seq<GroupConfig>, cidrOk: string -> bool)
  {
    forall i :: 0 <= i < |configs| ==>
      (&& configs[i].rules.Some?
       && forall k :: 0 <= k < |configs[i].rules.value| ==> SR.FullClean(Translate(configs[i].rules.value[k]), cidrOk))
  }

  lemma IcmpRuleValid(cidrOk: string -> bool)
    requires cidrOk(AnyAddress)
    ensures SR.FullClean(Translate(IcmpRule()), cidrOk)
  {
  }

  lemma TcpRuleValid(from: int, to: int, cidrOk: string -> bool)
    requires cidrOk(AnyAddress) && 1 <= from <= to <= SR.MaxPort
    ensures SR.FullClean(Translate(TcpRule(from, to)), cidrOk)
  {
  }

  lemma TenantDefaultsWellFormed(cidrOk: string -> bool)
    requires cidrOk(AnyAddress)
    ensures NamesDistinctAndPresent(TenantDefaults)
    ensures AllRulesValid(TenantDefaults, cidrOk)
  {
    IcmpRuleValid(cidrOk);
    TcpRuleValid(1, 65535, cidrOk);
    TcpRuleValid(22, 22, cidrOk);
    TcpRuleValid(3389, 3389, cidrOk);
    TcpRuleValid(80, 80, cidrOk);
    TcpRuleValid(443, 443, cidrOk);
  }

  lemma LegacyDefaultsWellFormed(cidrOk: string -> bool)
    requires cidrOk(AnyAddress)
    ensures NamesDistinctAndPresent(LegacyDefaults)
    ensures AllRulesValid(LegacyDefaults, cidrOk)
    ensures Translate(LegacyDefaults[0].rules.value[0]) == SR.Rule("tcp", Some(22), Some(22), AnyAddress, "")
    ensures Translate(LegacyDefaults[0].rules.value[1]) == SR.Rule("icmp", Some(-1), Some(-1), AnyAddress, "")
  {
    IcmpRuleValid(cidrOk);
    TcpRuleValid(22, 22, cidrOk);
  }

  /** Valid rules all survive: a group whose rules all pass keeps every one of them. */
  lemma {:induction false} AllValidRulesKept(gc: GroupConfig, cidrOk: string -> bool)
    requires gc.name.Some? && gc.name.value != "" && gc.rules.Some?
    requires forall k :: 0 <= k < |gc.rules.value| ==> SR.FullClean(Translate(gc.rules.value[k]), cidrOk)
    ensures CreateSecurityGroup(gc, cidrOk).value.rules == Map(gc.rules.value, Translate)
  {
    var translated := Map(gc.rules.value, Translate);
    FilterAll(translated, Savable(cidrOk));
  }

  /** With a well-formed CIDR checker, a new tenant gets all five default groups with all their rules. */
  lemma TenantDefaultsAllCreated(cidrOk: string -> bool)
    requires cidrOk(AnyAddress)
    ensures |CreateInitialGroups(true, TenantDefaults, cidrOk)| == 5
    ensures forall i :: 0 <= i < 5 ==> CreateInitialGroups(true, TenantDefaults, cidrOk)[i].rules
                                        == Map(TenantDefaults[i].rules.value, Translate)
  {
    TenantDefaultsWellFormed(cidrOk);
    forall i | 0 <= i < 5 {
      AllValidRulesKept(TenantDefaults[i], cidrOk);
    }
    var d := TenantDefaults;
    assert CreateInitialGroups(true, d[4..], cidrOk) == [CreateSecurityGroup(d[4], cidrOk).value];
    assert CreateInitialGroups(true, d[3..], cidrOk) == [CreateSecurityGroup(d[3], cidrOk).value] + CreateInitialGroups(true, d[4..], cidrOk);
    assert CreateInitialGroups(true, d[2..], cidrOk) == [CreateSecurityGroup(d[2], cidrOk).value] + CreateInitialGroups(true, d[3..], cidrOk);
    assert CreateInitialGroups(true, d[1..], cidrOk) == [CreateSecurityGroup(d[1], cidrOk).value] + CreateInitialGroups(true, d[2..], cidrOk);
  }
}
