/**
 * The fleet consistency audit (`checkClusterNetworkAgainstClusterObjects`): every host subnet
 * must lie in the cluster network and every service IP in the service network. The audit
 * collects every violation in scan order instead of stopping at the first one.
 */
module FleetAudit {
  import opened Wrappers
  import opened Net
  import opened Types

  /** A host subnet passes when its CIDR parses and its address lies in the cluster network. */
  predicate SubnetOk(ni: NetworkInfo, sub: HostSubnet, parseCIDR: string -> Option<Addr>)
  {
    parseCIDR(sub.subnet).Some? && Contains(ni.clusterNetwork, parseCIDR(sub.subnet).value)
  }

  /** A service passes when its IP does not parse (it is skipped) or lies in the service network. */
  predicate ServiceOk(ni: NetworkInfo, svc: Service, parseIP: string -> Option<Addr>)
  {
    parseIP(svc.clusterIP).None? || Contains(ni.serviceNetwork, parseIP(svc.clusterIP).value)
  }

  /** What one host subnet adds to the error list. */
  function SubnetFinding(ni: NetworkInfo, sub: HostSubnet, parseCIDR: string -> Option<Addr>): seq<Violation>
  {
    match parseCIDR(sub.subnet)
    case None => [UnparsableSubnet(sub.subnet)]
    case Some(a) =>
      if Contains(ni.clusterNetwork, a) then [] else [SubnetOutsideClusterNetwork(sub.subnet, ni.clusterNetwork)]
  }

  /** What one service adds to the error list. */
  function ServiceFinding(ni: NetworkInfo, svc: Service, parseIP: string -> Option<Addr>): seq<Violation>
  {
    match parseIP(svc.clusterIP)
    case None => []
    case Some(a) =>
      if Contains(ni.serviceNetwork, a) then [] else [ServiceOutsideServiceNetwork(svc.clusterIP, ni.serviceNetwork)]
  }

  /** The host-subnet violations of a list of subnets, in list order. */
  function SubnetViolations(ni: NetworkInfo, subs: seq<HostSubnet>, parseCIDR: string -> Option<Addr>): seq<Violation>
    decreases |subs|
  {
    if subs == [] then []
    else SubnetViolations(ni, subs[..|subs| - 1], parseCIDR) + SubnetFinding(ni, subs[|subs| - 1], parseCIDR)
  }

  /** The service violations of a list of services, in list order. */
  function ServiceViolations(ni: NetworkInfo, svcs: seq<Service>, parseIP: string -> Option<Addr>): seq<Violation>
    decreases |svcs|
  {
    if svcs == [] then []
    else ServiceViolations(ni, svcs[..|svcs| - 1], parseIP) + ServiceFinding(ni, svcs[|svcs| - 1], parseIP)
  }

  /** `kerrors.NewAggregate`: no error for an empty list, otherwise one error holding the list. */
  function NewAggregate(errs: seq<Violation>): Option<Error>
  {
    if errs == [] then None else Some(Aggregate(errs))
  }

  /** The error the audit returns, given the answers of the two List calls. */
  function AuditResult(
    ni: NetworkInfo,
    subnetList: Result<seq<HostSubnet>, Error>,
    serviceList: Result<seq<Service>, Error>,
    parseCIDR: string -> Option<Addr>,
    parseIP: string -> Option<Addr>): Option<Error>
  {
    match subnetList
    case Failure(e) => Some(FetchingSubnets(e))
    case Success(subs) =>
      match serviceList
      case Failure(e) => Some(e)
      case Success(svcs) => NewAggregate(SubnetViolations(ni, subs, parseCIDR) + ServiceViolations(ni, svcs, parseIP))
  }

  /** The List calls the audit issues: the service List only when the subnet List succeeded. */
  function AuditCalls(subnetList: Result<seq<HostSubnet>, Error>): seq<Call>
  {
    if subnetList.Failure? then [ListHostSubnets] else [ListHostSubnets, ListServices]
  }

  /** The audit as the master runs it: two scans that append to one error list. */
  method CheckClusterNetworkAgainstClusterObjects(
    ni: NetworkInfo,
    subnetList: Result<seq<HostSubnet>, Error>,
    serviceList: Result<seq<Service>, Error>,
    parseCIDR: string -> Option<Addr>,
    parseIP: string -> Option<Addr>)
    returns (err: Option<Error>, calls: seq<Call>)
    ensures err == AuditResult(ni, subnetList, serviceList, parseCIDR, parseIP)
    ensures calls == AuditCalls(subnetList)
  {
    var errList: seq<Violation> := [];
    calls := [ListHostSubnets];
    if subnetList.Failure? {
      return Some(FetchingSubnets(subnetList.error)), calls;
    }
    var subs := subnetList.value;
    for i := 0 to |subs|
      invariant errList == SubnetViolations(ni, subs[..i], parseCIDR)
    {
      assert subs[..i + 1][..i] == subs[..i];
      assert SubnetViolations(ni, subs[..i + 1], parseCIDR)
          == SubnetViolations(ni, subs[..i], parseCIDR) + SubnetFinding(ni, subs[i], parseCIDR);
      var subnetIP := parseCIDR(subs[i].subnet);
      if subnetIP.None? {
        errList := errList + [UnparsableSubnet(subs[i].subnet)];
        continue;
      }
      if !Contains(ni.clusterNetwork, subnetIP.value) {
        errList := errList + [SubnetOutsideClusterNetwork(subs[i].subnet, ni.clusterNetwork)];
      }
    }
    assert subs[..|subs|] == subs;
    ghost var subnetErrs := errList;

    calls := calls + [ListServices];
    if serviceList.Failure? {
      return Some(serviceList.error), calls;
    }
    var svcs := serviceList.value;
    for j := 0 to |svcs|
      invariant errList == subnetErrs + ServiceViolations(ni, svcs[..j], parseIP)
    {
      assert svcs[..j + 1][..j] == svcs[..j];
      assert ServiceViolations(ni, svcs[..j + 1], parseIP)
          == ServiceViolations(ni, svcs[..j], parseIP) + ServiceFinding(ni, svcs[j], parseIP);
      var svcIP := parseIP(svcs[j].clusterIP);
      if svcIP.Some? && !Contains(ni.serviceNetwork, svcIP.value) {
        errList := errList + [ServiceOutsideServiceNetwork(svcs[j].clusterIP, ni.serviceNetwork)];
        assert errList == subnetErrs + (ServiceViolations(ni, svcs[..j], parseIP) + ServiceFinding(ni, svcs[j], parseIP));
      }
    }
    assert svcs[..|svcs|] == svcs;

    err := NewAggregate(errList);
  }

  /** Scanning a concatenation yields the violations of each part, in order: the scan never stops early. */
  lemma {:induction false} SubnetViolationsAppend(ni: NetworkInfo, a: seq<HostSubnet>, b: seq<HostSubnet>, parseCIDR: string -> Option<Addr>)
    ensures SubnetViolations(ni, a + b, parseCIDR) == SubnetViolations(ni, a, parseCIDR) + SubnetViolations(ni, b, parseCIDR)
    decreases |b|
  {
    if b == [] {
      assert a + b == a;
    } else {
      var b' := b[..|b| - 1];
      assert (a + b)[..|a + b| - 1] == a + b';
      assert (a + b)[|a + b| - 1] == b[|b| - 1];
      SubnetViolationsAppend(ni, a, b', parseCIDR);
    }
  }

  lemma {:induction false} ServiceViolationsAppend(ni: NetworkInfo, a: seq<Service>, b: seq<Service>, parseIP: string -> Option<Addr>)
    ensures ServiceViolations(ni, a + b, parseIP) == ServiceViolations(ni, a, parseIP) + ServiceViolations(ni, b, parseIP)
    decreases |b|
  {
    if b == [] {
      assert a + b == a;
    } else {
      var b' := b[..|b| - 1];
      assert (a + b)[..|a + b| - 1] == a + b';
      assert (a + b)[|a + b| - 1] == b[|b| - 1];
      ServiceViolationsAppend(ni, a, b', parseIP);
    }
  }

  /**
   * Host subnet `i` contributes, at its own position, exactly one parse error when its CIDR does
   * not parse (and no containment error), exactly one containment error when its address lies
   * outside the cluster network, and nothing otherwise.
   */
  lemma SubnetEntryContribution(ni: NetworkInfo, subs: seq<HostSubnet>, parseCIDR: string -> Option<Addr>, i: nat)
    requires i < |subs|
    ensures SubnetViolations(ni, subs, parseCIDR)
         == SubnetViolations(ni, subs[..i], parseCIDR) + SubnetFinding(ni, subs[i], parseCIDR)
            + SubnetViolations(ni, subs[i + 1..], parseCIDR)
    ensures parseCIDR(subs[i].subnet).None? ==> SubnetFinding(ni, subs[i], parseCIDR) == [UnparsableSubnet(subs[i].subnet)]
    ensures parseCIDR(subs[i].subnet).Some? && !Contains(ni.clusterNetwork, parseCIDR(subs[i].subnet).value) ==>
              SubnetFinding(ni, subs[i], parseCIDR) == [SubnetOutsideClusterNetwork(subs[i].subnet, ni.clusterNetwork)]
    ensures SubnetOk(ni, subs[i], parseCIDR) <==> SubnetFinding(ni, subs[i], parseCIDR) == []
  {
    assert subs == subs[..i] + [subs[i]] + subs[i + 1..];
    SubnetViolationsAppend(ni, subs[..i] + [subs[i]], subs[i + 1..], parseCIDR);
    SubnetViolationsAppend(ni, subs[..i], [subs[i]], parseCIDR);
    assert [subs[i]][..0] == [];
  }

  /**
   * Service `i` contributes, at its own position, exactly one error when its IP parses and lies
   * outside the service network, and nothing otherwise.
   */
  lemma ServiceEntryContribution(ni: NetworkInfo, svcs: seq<Service>, parseIP: string -> Option<Addr>, i: nat)
    requires i < |svcs|
    ensures ServiceViolations(ni, svcs, parseIP)
         == ServiceViolations(ni, svcs[..i], parseIP) + ServiceFinding(ni, svcs[i], parseIP)
            + ServiceViolations(ni, svcs[i + 1..], parseIP)
    ensures parseIP(svcs[i].clusterIP).Some? && !Contains(ni.serviceNetwork, parseIP(svcs[i].clusterIP).value) ==>
              ServiceFinding(ni, svcs[i], parseIP) == [ServiceOutsideServiceNetwork(svcs[i].clusterIP, ni.serviceNetwork)]
    ensures ServiceOk(ni, svcs[i], parseIP) <==> ServiceFinding(ni, svcs[i], parseIP) == []
  {
    assert svcs == svcs[..i] + [svcs[i]] + svcs[i + 1..];
    ServiceViolationsAppend(ni, svcs[..i] + [svcs[i]], svcs[i + 1..], parseIP);
    ServiceViolationsAppend(ni, svcs[..i], [svcs[i]], parseIP);
    assert [svcs[i]][..0] == [];
  }

  /**
   * A service whose ClusterIP does not parse is skipped: removing it leaves the violations as
   * they were. (`net.ParseIP` returns nil for the empty string, so an empty ClusterIP is one.)
   */
  lemma UnparsableServiceSkipped(ni: NetworkInfo, svcs: seq<Service>, parseIP: string -> Option<Addr>, i: nat)
    requires i < |svcs| && parseIP(svcs[i].clusterIP).None?
    ensures ServiceViolations(ni, svcs, parseIP) == ServiceViolations(ni, svcs[..i] + svcs[i + 1..], parseIP)
  {
    var pre, post := svcs[..i], svcs[i + 1..];
    assert svcs == pre + [svcs[i]] + post;
    assert [svcs[i]][..0] == [];
    assert ServiceViolations(ni, [svcs[i]], parseIP) == [];
    ServiceViolationsAppend(ni, pre + [svcs[i]], post, parseIP);
    ServiceViolationsAppend(ni, pre, [svcs[i]], parseIP);
    ServiceViolationsAppend(ni, pre, post, parseIP);
  }

  /** Every host-subnet violation is a parse error or a containment error for the cluster network. */
  lemma {:induction false} SubnetViolationKinds(ni: NetworkInfo, subs: seq<HostSubnet>, parseCIDR: string -> Option<Addr>)
    ensures forall k :: 0 <= k < |SubnetViolations(ni, subs, parseCIDR)| ==>
              var v := SubnetViolations(ni, subs, parseCIDR)[k];
              v.UnparsableSubnet? || (v.SubnetOutsideClusterNetwork? && v.clusterNetwork == ni.clusterNetwork)
    decreases |subs|
  {
    if subs != [] {
      SubnetViolationKinds(ni, subs[..|subs| - 1], parseCIDR);
    }
  }

  /** Every service violation is a containment error for the service network. */
  lemma {:induction false} ServiceViolationKinds(ni: NetworkInfo, svcs: seq<Service>, parseIP: string -> Option<Addr>)
    ensures forall k :: 0 <= k < |ServiceViolations(ni, svcs, parseIP)| ==>
              var v := ServiceViolations(ni, svcs, parseIP)[k];
              v.ServiceOutsideServiceNetwork? && v.serviceNetwork == ni.serviceNetwork
    decreases |svcs|
  {
    if svcs != [] {
      ServiceViolationKinds(ni, svcs[..|svcs| - 1], parseIP);
    }
  }

  ghost function BadSubnets(ni: NetworkInfo, subs: seq<HostSubnet>, parseCIDR: string -> Option<Addr>): set<nat>
  {
    set i: nat | i < |subs| && !SubnetOk(ni, subs[i], parseCIDR)
  }

  ghost function BadServices(ni: NetworkInfo, svcs: seq<Service>, parseIP: string -> Option<Addr>): set<nat>
  {
    set i: nat | i < |svcs| && !ServiceOk(ni, svcs[i], parseIP)
  }

  /** There are exactly as many host-subnet violations as host subnets that fail. */
  lemma {:induction false} SubnetViolationCount(ni: NetworkInfo, subs: seq<HostSubnet>, parseCIDR: string -> Option<Addr>)
    ensures |SubnetViolations(ni, subs, parseCIDR)| == |BadSubnets(ni, subs, parseCIDR)|
    decreases |subs|
  {
    if subs != [] {
      var n := |subs| - 1;
      var init := subs[..n];
      SubnetViolationCount(ni, init, parseCIDR);
      if SubnetOk(ni, subs[n], parseCIDR) {
        assert BadSubnets(ni, subs, parseCIDR) == BadSubnets(ni, init, parseCIDR);
      } else {
        assert BadSubnets(ni, subs, parseCIDR) == BadSubnets(ni, init, parseCIDR) + {n};
      }
    }
  }

  /** There are exactly as many service violations as services that fail. */
  lemma {:induction false} ServiceViolationCount(ni: NetworkInfo, svcs: seq<Service>, parseIP: string -> Option<Addr>)
    ensures |ServiceViolations(ni, svcs, parseIP)| == |BadServices(ni, svcs, parseIP)|
    decreases |svcs|
  {
    if svcs != [] {
      var n := |svcs| - 1;
      var init := svcs[..n];
      ServiceViolationCount(ni, init, parseIP);
      if ServiceOk(ni, svcs[n], parseIP) {
        assert BadServices(ni, svcs, parseIP) == BadServices(ni, init, parseIP);
      } else {
        assert BadServices(ni, svcs, parseIP) == BadServices(ni, init, parseIP) + {n};
      }
    }
  }

  /** The audit of two successful lists: success exactly when every object passes; otherwise one
   *  aggregate listing every failing object, subnets first and then services. */
  lemma AuditOfFleet(ni: NetworkInfo, subs: seq<HostSubnet>, svcs: seq<Service>,
                     parseCIDR: string -> Option<Addr>, parseIP: string -> Option<Addr>)
    ensures AuditResult(ni, Success(subs), Success(svcs), parseCIDR, parseIP) == None
        <==> (forall i :: 0 <= i < |subs| ==> SubnetOk(ni, subs[i], parseCIDR))
             && (forall j :: 0 <= j < |svcs| ==> ServiceOk(ni, svcs[j], parseIP))
    ensures AuditResult(ni, Success(subs), Success(svcs), parseCIDR, parseIP) != None ==>
              var v := AuditResult(ni, Success(subs), Success(svcs), parseCIDR, parseIP).value.violations;
              && |v| == |BadSubnets(ni, subs, parseCIDR)| + |BadServices(ni, svcs, parseIP)|
              && (forall i, j :: 0 <= i < j < |v| && v[i].ServiceOutsideServiceNetwork? ==> v[j].ServiceOutsideServiceNetwork?)
  {
    SubnetViolationCount(ni, subs, parseCIDR);
    ServiceViolationCount(ni, svcs, parseIP);
    SubnetViolationKinds(ni, subs, parseCIDR);
    ServiceViolationKinds(ni, svcs, parseIP);
    var bs := BadSubnets(ni, subs, parseCIDR);
    var bv := BadServices(ni, svcs, parseIP);
    if forall i :: 0 <= i < |subs| ==> SubnetOk(ni, subs[i], parseCIDR) {
      assert bs == {};
    } else {
      var i :| 0 <= i < |subs| && !SubnetOk(ni, subs[i], parseCIDR);
      assert i in bs;
    }
    if forall j :: 0 <= j < |svcs| ==> ServiceOk(ni, svcs[j], parseIP) {
      assert bv == {};
    } else {
      var j :| 0 <= j < |svcs| && !ServiceOk(ni, svcs[j], parseIP);
      assert j in bv;
    }
  }

  /** A failed List returns that error alone: a failed service List drops the subnet violations
   *  already found, and a failed subnet List is reported with context before services are listed. */
  lemma AuditListFailures(ni: NetworkInfo, subnetList: Result<seq<HostSubnet>, Error>, serviceList: Result<seq<Service>, Error>,
                          parseCIDR: string -> Option<Addr>, parseIP: string -> Option<Addr>)
    ensures subnetList.Failure? ==>
              AuditResult(ni, subnetList, serviceList, parseCIDR, parseIP) == Some(FetchingSubnets(subnetList.error))
              && ListServices !in AuditCalls(subnetList)
    ensures subnetList.Success? && serviceList.Failure? ==>
              AuditResult(ni, subnetList, serviceList, parseCIDR, parseIP) == Some(serviceList.error)
  {
  }

  /** The parses of the worked fleet below. */
  function SampleParseCIDR(s: string): Option<Addr>
  {
    if s == "10.131.0.0/23" then Some(0x0A83_0000) else None
  }

  function SampleParseIP(s: string): Option<Addr>
  {
    if s == "192.168.1.5" then Some(0xC0A8_0105) else None
  }

  /**
   * A worked fleet: cluster network 10.128.0.0/14, service network 172.30.0.0/16, one node subnet
   * 10.131.0.0/23 (inside) and one service at 192.168.1.5 (outside). The audit reports that
   * service alone.
   */
  lemma AuditOfSampleFleet()
    ensures
      AuditResult(NetworkInfo(Cidr(0x0A80_0000, 14), Cidr(0xAC1E_0000, 16)),
                  Success([HostSubnet("node-1", "192.168.0.11", "10.131.0.0/23")]),
                  Success([Service("web", "frontend", "192.168.1.5")]), SampleParseCIDR, SampleParseIP)
      == Some(Aggregate([ServiceOutsideServiceNetwork("192.168.1.5", Cidr(0xAC1E_0000, 16))]))
  {
    Pow2Of32();
    var ni := NetworkInfo(Cidr(0x0A80_0000, 14), Cidr(0xAC1E_0000, 16));
    var subs := [HostSubnet("node-1", "192.168.0.11", "10.131.0.0/23")];
    var svcs := [Service("web", "frontend", "192.168.1.5")];
    assert Contains(ni.clusterNetwork, 0x0A83_0000);
    assert !Contains(ni.serviceNetwork, 0xC0A8_0105);
    assert SubnetViolations(ni, subs, SampleParseCIDR) == SubnetFinding(ni, subs[0], SampleParseCIDR);
    assert ServiceViolations(ni, svcs, SampleParseIP) == ServiceFinding(ni, svcs[0], SampleParseIP);
  }
}
