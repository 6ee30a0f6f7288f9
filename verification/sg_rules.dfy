/**
 * Validation of a security-group rule.
 *
 * A rule names a protocol, an optional port range and a CIDR. Two variants of
 * the validator exist: the nodeconductor one, where both ports may be null,
 * and the stricter waldur one, which rejects a null port before looking at
 * the protocol. The legacy tenant-scoped rule model repeats the nodeconductor
 * validators word for word, so it is modelled by the same functions.
 *
 * Whether a non-empty CIDR string is well formed is decided by a third-party
 * routine; it is passed in as `cidrOk`.
 */
module SecurityGroupRules {
  import opened Wrappers

  const TCP: string := "tcp"
  const UDP: string := "udp"
  const ICMP: string := "icmp"

  /** The largest port the integer fields accept. */
  const MaxPort: int := 65535

  datatype Rule = Rule(
    protocol: string,
    fromPort: Option<int>,
    toPort: Option<int>,
    cidr: string,
    backendId: string)

  datatype RuleError =
    | IcmpFromPortOutOfRange
    | IcmpToPortOutOfRange
    | FromPortAfterToPort
    | FromPortBelowOne
    | ToPortBelowOne
    | UnknownProtocol
    | MalformedCidr
    | MissingToPort
    | MissingFromPort

  /** An optional port that, when present, satisfies `lo <= p <= hi`. */
  predicate PortWithin(p: Option<int>, lo: int, hi: int)
  {
    p.None? || lo <= p.value <= hi
  }

  function ValidateIcmp(r: Rule): (o: Outcome<RuleError>)
    ensures o.Pass? <==> PortWithin(r.fromPort, -1, 255) && PortWithin(r.toPort, -1, 255)
    ensures o.Fail? ==> o.error in {IcmpFromPortOutOfRange, IcmpToPortOutOfRange}
  {
    if r.fromPort.Some? && !(-1 <= r.fromPort.value <= 255) then Fail(IcmpFromPortOutOfRange)
    else if r.toPort.Some? && !(-1 <= r.toPort.value <= 255) then Fail(IcmpToPortOutOfRange)
    else Pass
  }

  /** The tcp/udp port requirement, stated without the order of the checks. */
  predicate PortRangeSound(r: Rule)
  {
    (r.fromPort.Some? && r.toPort.Some? ==> r.fromPort.value <= r.toPort.value)
    && (r.fromPort.Some? ==> r.fromPort.value >= 1)
    && (r.toPort.Some? ==> r.toPort.value >= 1)
  }

  function ValidatePort(r: Rule): (o: Outcome<RuleError>)
    ensures o.Pass? <==> PortRangeSound(r)
    ensures r.fromPort.Some? && r.toPort.Some? && r.fromPort.value > r.toPort.value
            ==> o == Fail(FromPortAfterToPort)
  {
    if r.fromPort.Some? && r.toPort.Some? && r.fromPort.value > r.toPort.value then Fail(FromPortAfterToPort)
    else if r.fromPort.Some? && r.fromPort.value < 1 then Fail(FromPortBelowOne)
    else if r.toPort.Some? && r.toPort.value < 1 then Fail(ToPortBelowOne)
    else Pass
  }

  function ValidateCidr(r: Rule, cidrOk: string -> bool): (o: Outcome<RuleError>)
    ensures o.Pass? <==> (r.cidr == "" || cidrOk(r.cidr))
    ensures o.Fail? ==> o.error == MalformedCidr
  {
    if r.cidr == "" then Pass
    else if !cidrOk(r.cidr) then Fail(MalformedCidr)
    else Pass
  }

  /**
   * What the nodeconductor validator accepts, stated declaratively: a known
   * protocol, ports suited to it, and a CIDR that is either empty or well
   * formed.
   */
  predicate Acceptable(r: Rule, cidrOk: string -> bool)
  {
    && r.protocol in {TCP, UDP, ICMP}
    && (r.protocol == ICMP ==> PortWithin(r.fromPort, -1, 255) && PortWithin(r.toPort, -1, 255))
    && (r.protocol != ICMP ==> PortRangeSound(r))
    && (r.cidr == "" || cidrOk(r.cidr))
  }

  /** Django's `Model.clean` as `BaseSecurityGroupRule` of nodeconductor overrides it: protocol checks first, the CIDR last. */
  function Clean(r: Rule, cidrOk: string -> bool): (o: Outcome<RuleError>)
    ensures o.Pass? <==> Acceptable(r, cidrOk)
    ensures r.protocol !in {TCP, UDP, ICMP} ==> o == Fail(UnknownProtocol)
    ensures o == Fail(MalformedCidr) <==>
              (&& r.protocol in {TCP, UDP, ICMP}
               && (if r.protocol == ICMP then ValidateIcmp(r).Pass? else ValidatePort(r).Pass?)
               && r.cidr != "" && !cidrOk(r.cidr))
  {
    var protocolCheck :=
      if r.protocol == ICMP then ValidateIcmp(r)
      else if r.protocol in {TCP, UDP} then ValidatePort(r)
      else Fail(UnknownProtocol);
    if protocolCheck.Fail? then protocolCheck else ValidateCidr(r, cidrOk)
  }

  /** What the waldur validator accepts: the nodeconductor conditions plus both ports present. */
  predicate StrictlyAcceptable(r: Rule, cidrOk: string -> bool)
  {
    r.fromPort.Some? && r.toPort.Some? && Acceptable(r, cidrOk)
  }

  /** Django's `Model.clean` as `BaseSecurityGroupRule` of waldur overrides it: a null port is refused before anything else. */
  function StrictClean(r: Rule, cidrOk: string -> bool): (o: Outcome<RuleError>)
    ensures o.Pass? <==> StrictlyAcceptable(r, cidrOk)
    ensures r.toPort.None? ==> o == Fail(MissingToPort)
    ensures r.toPort.Some? && r.fromPort.None? ==> o == Fail(MissingFromPort)
    ensures r.fromPort.Some? && r.toPort.Some? && r.protocol == ICMP ==>
              (o.Pass? <==> -1 <= r.fromPort.value <= 255 && -1 <= r.toPort.value <= 255 && (r.cidr == "" || cidrOk(r.cidr)))
    ensures r.fromPort.Some? && r.toPort.Some? && r.protocol in {TCP, UDP} ==>
              (o.Pass? <==> 1 <= r.fromPort.value <= r.toPort.value && (r.cidr == "" || cidrOk(r.cidr)))
  {
    if r.toPort.None? then Fail(MissingToPort)
    else if r.fromPort.None? then Fail(MissingFromPort)
    else Clean(r, cidrOk)
  }

  /**
   * Django's `Model.clean_fields`, which `full_clean` runs before `clean`:
   * the protocol is one of the choices or blank, both ports are present (a
   * nullable integer field without `blank=True` still refuses `None`) and
   * pass `MaxValueValidator(65535)`, and the strings fit their `max_length`.
   */
  function FieldsValid(r: Rule): (ok: bool)
    ensures r.fromPort.None? || r.toPort.None? ==> !ok
    ensures ok ==> r.fromPort.value <= MaxPort && r.toPort.value <= MaxPort
  {
    && r.protocol in {"", TCP, UDP, ICMP}
    && r.fromPort.Some? && r.fromPort.value <= MaxPort
    && r.toPort.Some? && r.toPort.value <= MaxPort
    && |r.cidr| <= 32
    && |r.backendId| <= 128
  }

  /**
   * Django's `Model.full_clean` on a rule: every field check and the
   * model's own `clean`. Since the field checks already refuse a null port,
   * the nodeconductor `clean` and the waldur one agree here.
   */
  function FullClean(r: Rule, cidrOk: string -> bool): (ok: bool)
    ensures ok <==> FieldsValid(r) && StrictClean(r, cidrOk).Pass?
    ensures ok ==> r.protocol in {TCP, UDP, ICMP}
  {
    FieldsValid(r) && Clean(r, cidrOk).Pass?
  }

  /** Every rule the waldur validator accepts is accepted by the nodeconductor one. */
  lemma StrictRefinesLenient(r: Rule, cidrOk: string -> bool)
    ensures StrictClean(r, cidrOk).Pass? ==> Clean(r, cidrOk).Pass?
  {
  }

  /** The converse fails: a tcp rule with both ports null passes only the lenient validator. */
  lemma NullPortsSeparateValidators(cidrOk: string -> bool)
    ensures var r := Rule(TCP, None, None, "", "");
            Clean(r, cidrOk).Pass? && StrictClean(r, cidrOk) == Fail(MissingToPort)
  {
  }

  /** A null port fails the full validation, although the nodeconductor `clean` alone lets it through. */
  lemma NullPortRejected(r: Rule, cidrOk: string -> bool)
    requires r.fromPort.None? || r.toPort.None?
    ensures !FullClean(r, cidrOk)
    ensures r.protocol in {TCP, UDP} && r.cidr == "" && PortRangeSound(r) ==> Clean(r, cidrOk).Pass?
  {
  }

  /** A port above 65535 fails the full validation whatever the protocol. */
  lemma PortAboveMaxRejected(r: Rule, cidrOk: string -> bool)
    requires (r.fromPort.Some? && r.fromPort.value > MaxPort) || (r.toPort.Some? && r.toPort.value > MaxPort)
    ensures !FullClean(r, cidrOk)
  {
  }

  /** A blank protocol is a valid field value yet always refused by `clean`. */
  lemma BlankProtocolRejected(r: Rule, cidrOk: string -> bool)
    requires r.protocol == ""
    ensures Clean(r, cidrOk) == Fail(UnknownProtocol)
    ensures !FullClean(r, cidrOk)
  {
  }
}
