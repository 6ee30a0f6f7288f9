/**
 * Checks on tenant networks: the sizing of an external network, the CIDR
 * accepted for an internal subnet, the subnet's allocation pool, and the
 * one-subnet-per-network rule.
 *
 * The subnet CIDR pattern is `192\.168\.(25[0-4]|2[0-4][0-9]|1[0-9][0-9]|[1-9][0-9]?)\.0/24`.
 * It is installed through a regex validator that SEARCHES the value, so any
 * string containing a matching part passes (`SearchMatch`), where the
 * explanation shown to the user promises the whole value has the form
 * 192.168.N.0/24 with N in 1..254 (`FullMatch`).
 */
module Subnets {
  import opened Wrappers
  import TF = TextFields

  // ---------------------------------------------------------------------
  // Decimal notation

  predicate IsDigit(c: char) { '0' <= c <= '9' }

  function DigitChar(d: int): (c: char)
    requires 0 <= d <= 9
    ensures IsDigit(c) && c as int - '0' as int == d
  {
    ('0' as int + d) as char
  }

  /** The canonical decimal spelling of `n`: no sign, no leading zero. */
  function Decimal(n: nat): (s: string)
    ensures |s| >= 1 && forall k :: 0 <= k < |s| ==> IsDigit(s[k])
    ensures n >= 10 <==> |s| >= 2
  {
    if n < 10 then [DigitChar(n)] else Decimal(n / 10) + [DigitChar(n % 10)]
  }

  /** The number a string of digits denotes. */
  function DecimalValue(s: string): (n: nat)
    requires forall k :: 0 <= k < |s| ==> IsDigit(s[k])
  {
    if s == [] then 0
    else
      assert IsDigit(s[|s| - 1]);
      DecimalValue(s[..|s| - 1]) * 10 + (s[|s| - 1] as int - '0' as int)
  }

  lemma {:induction false} DecimalValueOfDecimal(n: nat)
    ensures DecimalValue(Decimal(n)) == n
  {
    if n >= 10 {
      var s := Decimal(n);
      assert s[..|s| - 1] == Decimal(n / 10);
      DecimalValueOfDecimal(n / 10);
    }
  }

  /** Digits without a superfluous leading zero are the spelling of their value. */
  lemma {:induction false} DecimalOfDecimalValue(s: string)
    requires |s| >= 1 && forall k :: 0 <= k < |s| ==> IsDigit(s[k])
    requires |s| >= 2 ==> s[0] != '0'
    ensures Decimal(DecimalValue(s)) == s
    ensures |s| >= 2 ==> DecimalValue(s) >= 10
    decreases |s|
  {
    if |s| >= 2 {
      var init := s[..|s| - 1];
      DecimalOfDecimalValue(init);
      assert DecimalValue(init) >= 1 by {
        if |init| >= 2 { } else { assert init[0] == s[0]; }
      }
      var n := DecimalValue(s);
      assert n / 10 == DecimalValue(init) && n % 10 == s[|s| - 1] as int - '0' as int;
      assert s == init + [s[|s| - 1]];
    }
  }

  // ---------------------------------------------------------------------
  // The subnet CIDR pattern

  /** The third-octet group of the pattern, one alternative per line. */
  predicate OctetAlt(t: string)
  {
    || (|t| == 3 && t[0] == '2' && t[1] == '5' && '0' <= t[2] <= '4')
    || (|t| == 3 && t[0] == '2' && '0' <= t[1] <= '4' && IsDigit(t[2]))
    || (|t| == 3 && t[0] == '1' && IsDigit(t[1]) && IsDigit(t[2]))
    || (|t| == 1 && '1' <= t[0] <= '9')
    || (|t| == 2 && '1' <= t[0] <= '9' && IsDigit(t[1]))
  }

  const Prefix: string := "192.168."
  const Suffix: string := ".0/24"

  /** The whole value matches the pattern. */
  predicate FullMatch(s: string)
  {
    && |s| >= |Prefix| + |Suffix|
    && s[..|Prefix|] == Prefix
    && s[|s| - |Suffix|..] == Suffix
    && OctetAlt(s[|Prefix|..|s| - |Suffix|])
  }

  /** Some part of the value matches the pattern: what a searching validator checks. */
  predicate SearchMatch(s: string)
  {
    exists i, j :: 0 <= i <= j <= |s| && FullMatch(s[i..j])
  }

  /** The octet alternatives spell exactly the numbers 1 to 254. */
  lemma OctetAltSpellsOneTo254(t: string)
    ensures OctetAlt(t) <==>
              (&& |t| >= 1 && (forall k :: 0 <= k < |t| ==> IsDigit(t[k]))
               && 1 <= DecimalValue(t) <= 254 && Decimal(DecimalValue(t)) == t)
  {
    if OctetAlt(t) {
      OctetAltIsSpelling(t);
    } else if && |t| >= 1 && (forall k :: 0 <= k < |t| ==> IsDigit(t[k]))
              && 1 <= DecimalValue(t) <= 254 && Decimal(DecimalValue(t)) == t {
      OctetOfNumber(DecimalValue(t));
    }
  }

  lemma OctetAltIsSpelling(t: string)
    requires OctetAlt(t)
    ensures |t| >= 1 && (forall k :: 0 <= k < |t| ==> IsDigit(t[k]))
    ensures 1 <= DecimalValue(t) <= 254 && Decimal(DecimalValue(t)) == t
  {
    DecimalOfDecimalValue(t);
    if |t| >= 2 {
      DigitsValue(t);
    }
  }

  /** The value of two or three digits, written out. */
  lemma DigitsValue(t: string)
    requires 2 <= |t| <= 3 && forall k :: 0 <= k < |t| ==> IsDigit(t[k])
    ensures |t| == 2 ==> DecimalValue(t) == 10 * (t[0] as int - 48) + (t[1] as int - 48)
    ensures |t| == 3 ==> DecimalValue(t) == 100 * (t[0] as int - 48) + 10 * (t[1] as int - 48) + (t[2] as int - 48)
  {
    var p := t[..|t| - 1];
    assert DecimalValue(t) == DecimalValue(p) * 10 + (t[|t| - 1] as int - 48);
    if |t| == 3 {
      assert p[..1] == [t[0]];
      assert DecimalValue(p) == DecimalValue([t[0]]) * 10 + (t[1] as int - 48);
    } else {
      assert p == [t[0]];
    }
  }

  /** The spelling of every number from 1 to 254 is one of the alternatives. */
  lemma OctetOfNumber(n: nat)
    requires 1 <= n <= 254
    ensures OctetAlt(Decimal(n))
  {
    var s := Decimal(n);
    if n >= 100 {
      var h, m, u := n / 100, n / 10 % 10, n % 10;
      assert n / 10 / 10 == h && n == 100 * h + 10 * m + u;
      assert Decimal(h) == [DigitChar(h)];
      assert Decimal(n / 10) == [DigitChar(h)] + [DigitChar(m)];
      assert s == [DigitChar(h)] + [DigitChar(m)] + [DigitChar(u)];
    } else if n >= 10 {
      assert Decimal(n / 10) == [DigitChar(n / 10)];
      assert s == [DigitChar(n / 10)] + [DigitChar(n % 10)];
    }
  }

  /** A value fully matches exactly when it is 192.168.N.0/24 with N from 1 to 254. */
  lemma FullMatchIsPrivateSlash24(s: string)
    ensures FullMatch(s) <==> exists n :: 1 <= n <= 254 && s == Prefix + Decimal(n) + Suffix
  {
    if FullMatch(s) {
      var t := s[|Prefix|..|s| - |Suffix|];
      OctetAltSpellsOneTo254(t);
      var n := DecimalValue(t);
      assert s == Prefix + Decimal(n) + Suffix;
    }
    if exists n :: 1 <= n <= 254 && s == Prefix + Decimal(n) + Suffix {
      var n :| 1 <= n <= 254 && s == Prefix + Decimal(n) + Suffix;
      OctetOfNumber(n);
      assert s[|Prefix|..|s| - |Suffix|] == Decimal(n);
      assert s[..|Prefix|] == Prefix;
      assert s[|s| - |Suffix|..] == Suffix;
    }
  }

  /** Whatever matches fully also passes the searching validator. */
  lemma FullMatchPassesSearch(s: string)
    requires FullMatch(s)
    ensures SearchMatch(s)
  {
    assert s[0..|s|] == s;
  }

  /** A value with a trailing digit after the mask passes the search but is no 192.168.N.0/24. */
  lemma SearchAcceptsWiderMask()
    ensures SearchMatch("192.168.1.0/240") && !FullMatch("192.168.1.0/240")
  {
    var s := "192.168.1.0/240";
    assert s[0..14] == "192.168.1.0/24";
    assert FullMatch(s[0..14]);
    assert s[|s| - |Suffix|..] != Suffix;
  }

  datatype CidrError = CidrPatternMismatch

  /** The subnet CIDR field validator as installed: a search for the pattern. */
  function CheckCidrAsWritten(s: string): (o: Outcome<CidrError>)
    ensures o.Pass? <==> exists i, j :: 0 <= i <= j <= |s| && FullMatch(s[i..j])
  {
    if SearchMatch(s) then Pass else Fail(CidrPatternMismatch)
  }

  /** The subnet CIDR field validator as explained to the user: a full match. */
  function CheckCidr(s: string): (o: Outcome<CidrError>)
    ensures o.Pass? <==> exists n :: 1 <= n <= 254 && s == Prefix + Decimal(n) + Suffix
  {
    FullMatchIsPrivateSlash24(s);
    if FullMatch(s) then Pass else Fail(CidrPatternMismatch)
  }

  /** The as-written check lets through a value the intended one refuses. */
  lemma AsWrittenCidrCheckIsLooser()
    ensures CheckCidrAsWritten("192.168.1.0/240").Pass? && CheckCidr("192.168.1.0/240").Fail?
  {
    SearchAcceptsWiderMask();
  }

  /** Every value the intended check accepts, the as-written check accepts too. */
  lemma CheckCidrRefinesAsWritten(s: string)
    requires CheckCidr(s).Pass?
    ensures CheckCidrAsWritten(s).Pass?
  {
    FullMatchPassesSearch(s);
  }

  // ---------------------------------------------------------------------
  // Allocation pool

  /** Position of the first `c` in `s`, or `|s|` when there is none. */
  function Find(s: string, c: char): (i: nat)
    ensures i <= |s|
  {
    if s == [] then 0 else if s[0] == c then 0 else 1 + Find(s[1..], c)
  }

  lemma {:induction false} FindHit(s: string, c: char)
    requires Find(s, c) < |s|
    ensures s[Find(s, c)] == c
    decreases |s|
  {
    if s[0] != c { FindHit(s[1..], c); }
  }

  /** `s` holds no `c`. */
  predicate Free(s: string, c: char)
  {
    Find(s, c) == |s|
  }

  lemma {:induction false} FindSkipsOthers(s: string, c: char, k: int)
    requires 0 <= k < Find(s, c)
    ensures s[k] != c
    decreases |s|
  {
    if k > 0 {
      FindSkipsOthers(s[1..], c, k - 1);
    }
  }

  lemma {:induction false} FreeWhenAbsent(s: string, c: char)
    requires forall k :: 0 <= k < |s| ==> s[k] != c
    ensures Free(s, c)
    decreases |s|
  {
    if s != [] {
      FreeWhenAbsent(s[1..], c);
    }
  }

  /** Behind a separator-free prefix, the first separator is the one that follows it. */
  lemma {:induction false} FindAfterFree(a: string, b: string, c: char)
    requires Free(a, c)
    ensures Find(a + [c] + b, c) == |a|
    decreases |a|
  {
    if a != [] {
      assert (a + [c] + b)[1..] == a[1..] + [c] + b;
      FindAfterFree(a[1..], b, c);
    }
  }

  /** Python's `s.split(sep, n)`: at most `n` cuts, at the leftmost separators. */
  function SplitN(s: string, sep: char, n: nat): (parts: seq<string>)
    ensures 1 <= |parts| <= n + 1
    decreases n
  {
    var i := Find(s, sep);
    if n == 0 || i == |s| then [s]
    else [s[..i]] + SplitN(s[i + 1..], sep, n - 1)
  }

  /** Every part but the last is free of the separator, and so is the last when cuts were left over. */
  lemma {:induction false} SplitNPartsAreFree(s: string, sep: char, n: nat)
    ensures var parts := SplitN(s, sep, n);
            && (forall k :: 0 <= k < |parts| - 1 ==> Free(parts[k], sep))
            && (|parts| <= n ==> Free(parts[|parts| - 1], sep))
    decreases n
  {
    var i := Find(s, sep);
    if n != 0 && i != |s| {
      var rest := SplitN(s[i + 1..], sep, n - 1);
      SplitNPartsAreFree(s[i + 1..], sep, n - 1);
      var parts := SplitN(s, sep, n);
      assert parts == [s[..i]] + rest;
      assert Free(s[..i], sep) by {
        forall k | 0 <= k < i ensures s[..i][k] != sep { FindSkipsOthers(s, sep, k); }
        FreeWhenAbsent(s[..i], sep);
      }
      forall k | 1 <= k < |parts| ensures parts[k] == rest[k - 1] { }
    }
  }

  /** Cutting at a first separator peels off the part before it. */
  lemma SplitNFirstCut(a: string, b: string, sep: char, n: nat)
    requires Free(a, sep)
    ensures SplitN(a + [sep] + b, sep, n + 1) == [a] + SplitN(b, sep, n)
  {
    var s := a + [sep] + b;
    FindAfterFree(a, b, sep);
    assert s[..|a|] == a && s[|a| + 1..] == b;
  }

  datatype Pool = Pool(start: string, end: string)

  datatype PoolError = NotEnoughOctets

  const PoolStartHost: string := "10"
  const PoolEndHost: string := "200"

  /**
   * The allocation pool of a new subnet: the CIDR is cut at its first three
   * dots; fewer than three dots make the four-way unpacking fail.
   */
  function AllocationPool(cidr: string): (r: Result<seq<Pool>, PoolError>)
    ensures r.Success? <==> |SplitN(cidr, '.', 3)| == 4
    ensures r.Success? ==>
              var p := SplitN(cidr, '.', 3);
              var net := p[0] + "." + p[1] + "." + p[2] + ".";
              r.value == [Pool(net + PoolStartHost, net + PoolEndHost)]
  {
    var parts := SplitN(cidr, '.', 3);
    if |parts| != 4 then Failure(NotEnoughOctets)
    else
      var net := parts[0] + "." + parts[1] + "." + parts[2] + ".";
      Success([Pool(net + PoolStartHost, net + PoolEndHost)])
  }

  /** A value with at least three dots splits into the three parts before them and the rest. */
  lemma SplitAtThreeDots(a: string, b: string, c: string, e: string)
    requires Free(a, '.') && Free(b, '.') && Free(c, '.')
    ensures SplitN(a + ['.'] + (b + ['.'] + (c + ['.'] + e)), '.', 3) == [a, b, c, e]
  {
    SplitNFirstCut(c, e, '.', 0);
    SplitNFirstCut(b, c + ['.'] + e, '.', 1);
    SplitNFirstCut(a, b + ['.'] + (c + ['.'] + e), '.', 2);
  }

  lemma DotsShape(a: string, b: string, c: string, e: string)
    ensures a + "." + b + "." + c + "." + e == a + ['.'] + (b + ['.'] + (c + ['.'] + e))
  {
  }

  /** A CIDR with at least three dots keeps its first three parts in both ends of the pool. */
  lemma PoolOfDottedValue(a: string, b: string, c: string, e: string)
    requires Free(a, '.') && Free(b, '.') && Free(c, '.')
    ensures AllocationPool(a + "." + b + "." + c + "." + e)
              == Success([Pool(a + "." + b + "." + c + "." + PoolStartHost, a + "." + b + "." + c + "." + PoolEndHost)])
  {
    DotsShape(a, b, c, e);
    SplitAtThreeDots(a, b, c, e);
  }

  /** For an accepted CIDR, both ends of the pool lie in the same 192.168.N network as the CIDR. */
  lemma PoolKeepsNetwork(n: nat)
    requires 1 <= n <= 254
    ensures var r := AllocationPool(Prefix + Decimal(n) + Suffix);
            && r.Success? && |r.value| == 1
            && r.value[0].start == Prefix + Decimal(n) + "." + PoolStartHost
            && r.value[0].end == Prefix + Decimal(n) + "." + PoolEndHost
  {
    var d := Decimal(n);
    FreeWhenAbsent(d, '.');
    FreeWhenAbsent("192", '.');
    FreeWhenAbsent("168", '.');
    PoolOfDottedValue("192", "168", d, "0/24");
    CidrShape(d);
    HostShape(d, PoolStartHost);
    HostShape(d, PoolEndHost);
  }

  lemma CidrShape(d: string)
    ensures Prefix + d + Suffix == "192" + "." + "168" + "." + d + "." + "0/24"
  {
  }

  lemma HostShape(d: string, h: string)
    ensures "192" + "." + "168" + "." + d + "." + h == Prefix + d + "." + h
  {
  }

  /** The pool's first host number is below its last. */
  lemma PoolStartBelowEnd()
    ensures DecimalValue(PoolStartHost) < DecimalValue(PoolEndHost)
  {
  }

  // ---------------------------------------------------------------------
  // External network sizing and subnet creation

  /** The request's fields; `networkIp` is the address the network is cut from. */
  datatype ExternalNetworkRequest = ExternalNetworkRequest(
    vlanId: Option<string>,
    vxlanId: Option<string>,
    networkIp: string,
    networkPrefix: int,
    ipsCount: Option<int>)

  datatype NetworkError =
    | BlankVlanId
    | BlankVxlanId
    | InvalidNetworkIp
    | PrefixOutOfRange
    | IpsCountBelowOne
    | NoSegmentation
    | BothSegmentations
    | NotEnoughAddresses

  function Pow2(k: nat): (p: nat)
    ensures p >= 1
  {
    if k == 0 then 1 else 2 * Pow2(k - 1)
  }

  /** Addresses in a network with the given prefix length. */
  function NetworkSize(prefix: int): nat
    requires 0 <= prefix <= 32
  {
    Pow2(32 - prefix)
  }

  /**
   * The external-network request: the field checks first, in the order the
   * fields are declared (a present VLAN or VXLAN id must not be blank, the
   * network address must be an IP address, whose syntax a library decides
   * and `ipOk` stands for, the prefix lies in [0, 32] and a given address
   * count is at least one); then exactly one of the two ids must be given;
   * then there must be room for the requested addresses besides router and
   * broadcast.
   */
  function ValidateExternalNetwork(q: ExternalNetworkRequest, ipOk: string -> bool): (o: Outcome<NetworkError>)
    ensures q.vlanId.Some? && TF.Blank(q.vlanId.value) ==> o == Fail(BlankVlanId)
    ensures q.vxlanId.Some? && TF.Blank(q.vxlanId.value) ==> o.Fail?
    ensures !ipOk(q.networkIp) ==> o.Fail?
    ensures (&& q.vlanId.None? && q.vxlanId.None? && ipOk(q.networkIp) && 0 <= q.networkPrefix <= 32
             && (q.ipsCount.None? || q.ipsCount.value >= 1)) ==> o == Fail(NoSegmentation)
    ensures o == Fail(BothSegmentations) <==>
              && ipOk(q.networkIp) && 0 <= q.networkPrefix <= 32 && (q.ipsCount.None? || q.ipsCount.value >= 1)
              && q.vlanId.Some? && !TF.Blank(q.vlanId.value) && q.vxlanId.Some? && !TF.Blank(q.vxlanId.value)
    ensures o.Pass? <==>
              && ipOk(q.networkIp) && 0 <= q.networkPrefix <= 32 && (q.ipsCount.None? || q.ipsCount.value >= 1)
              && (q.vlanId.Some? <==> q.vxlanId.None?)
              && (q.vlanId.Some? ==> !TF.Blank(q.vlanId.value))
              && (q.vxlanId.Some? ==> !TF.Blank(q.vxlanId.value))
              && (q.ipsCount.Some? ==> NetworkSize(q.networkPrefix) >= q.ipsCount.value - 2)
  {
    if q.vlanId.Some? && TF.Blank(q.vlanId.value) then Fail(BlankVlanId)
    else if q.vxlanId.Some? && TF.Blank(q.vxlanId.value) then Fail(BlankVxlanId)
    else if !ipOk(q.networkIp) then Fail(InvalidNetworkIp)
    else if !(0 <= q.networkPrefix <= 32) then Fail(PrefixOutOfRange)
    else if q.ipsCount.Some? && q.ipsCount.value < 1 then Fail(IpsCountBelowOne)
    else if q.vlanId.None? && q.vxlanId.None? then Fail(NoSegmentation)
    else if q.vlanId.Some? && q.vxlanId.Some? then Fail(BothSegmentations)
    else if q.ipsCount.None? then Pass
    else if NetworkSize(q.networkPrefix) < q.ipsCount.value - 2 then Fail(NotEnoughAddresses)
    else Pass
  }

  /** Without an address count any single non-blank segmentation id on a valid address is accepted, whatever the prefix. */
  lemma NoIpsCountAnyPrefix(vlan: string, ip: string, prefix: int, ipOk: string -> bool)
    requires 0 <= prefix <= 32 && !TF.Blank(vlan) && ipOk(ip)
    ensures ValidateExternalNetwork(ExternalNetworkRequest(Some(vlan), None, ip, prefix, None), ipOk).Pass?
  {
  }

  /** An id that is empty once trimmed is refused, even beside a usable one of the other kind. */
  lemma BlankIdRefused(id: string, other: string, ip: string, prefix: int, ipOk: string -> bool)
    requires TF.Blank(id)
    ensures ValidateExternalNetwork(ExternalNetworkRequest(Some(id), None, ip, prefix, None), ipOk) == Fail(BlankVlanId)
    ensures ValidateExternalNetwork(ExternalNetworkRequest(Some(other), Some(id), ip, prefix, None), ipOk).Fail?
  {
  }

  /** A longer prefix never makes room for more addresses. */
  lemma {:induction false} NetworkSizeShrinks(p: int, q: int)
    requires 0 <= p <= q <= 32
    ensures NetworkSize(q) <= NetworkSize(p)
    decreases q - p
  {
    if p < q {
      NetworkSizeShrinks(p + 1, q);
      assert Pow2(32 - p) == 2 * Pow2(32 - p - 1);
    }
  }

  datatype SubnetError = NetworkAlreadyHasSubnet

  /** Creating a subnet on a network that already has one is refused; updates are not checked. */
  function ValidateSubnet(creating: bool, existingSubnets: nat): (o: Outcome<SubnetError>)
    ensures o.Fail? <==> creating && existingSubnets > 0
  {
    if creating && existingSubnets >= 1 then Fail(NetworkAlreadyHasSubnet) else Pass
  }
}
