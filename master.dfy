/**
 * The SDN master's start-up (`StartMaster`): converge the persisted ClusterNetwork record with
 * the desired configuration (no-op, create or update), validate only when writing, then start
 * subnet allocation and, for the isolating plugins, VNID tracking.
 *
 * Observable behaviour is the returned error and the ordered list of calls issued.
 */
module Master {
  import opened Wrappers
  import opened Net
  import opened Types
  import opened FleetAudit

  /** The four persisted fields already equal the desired values (the diff of the fetched record). */
  predicate FieldsMatch(ni: NetworkInfo, config: MasterNetworkConfig, cn: ClusterNetwork)
  {
    && Render(ni.clusterNetwork) == cn.network
    && config.hostSubnetLength == cn.hostSubnetLength
    && Render(ni.serviceNetwork) == cn.serviceNetwork
    && config.networkPluginName == cn.pluginName
  }

  /** The record the master creates when none could be fetched: kind and well-known name only. */
  function FreshClusterNetwork(): ClusterNetwork
  {
    ClusterNetwork(TypeMeta(ClusterNetworkKind, ""), ObjectMeta(ClusterNetworkDefault, ""), "", 0, "", "")
  }

  /** The record with its four network fields overwritten by the desired values. */
  function Populate(cn: ClusterNetwork, ni: NetworkInfo, config: MasterNetworkConfig): ClusterNetwork
  {
    cn.(network := Render(ni.clusterNetwork),
        hostSubnetLength := config.hostSubnetLength,
        serviceNetwork := Render(ni.serviceNetwork),
        pluginName := config.networkPluginName)
  }

  /** The reconciliation outcome and, for a write, the record it starts from. */
  datatype Decision = NoOp | Create(base: ClusterNetwork) | Update(base: ClusterNetwork)

  /** Any failed Get means create; a fetched record is updated unless all four fields match. */
  function Plan(ni: NetworkInfo, config: MasterNetworkConfig, get: Result<ClusterNetwork, Error>): Decision
  {
    match get
    case Failure(_) => Create(FreshClusterNetwork())
    case Success(cn) => if FieldsMatch(ni, config, cn) then NoOp else Update(cn)
  }

  /** The VNID map policy for a plugin: multitenant or network-policy, or no VNID tracking. */
  function VnidMode(pluginName: string): Option<bool>
  {
    if pluginName == MultiTenantPluginName then Some(true)
    else if pluginName == NetworkPolicyPluginName then Some(false)
    else None
  }

  /** An error, if any, and the calls issued, in order. */
  datatype Run = Run(err: Option<Error>, calls: seq<Call>)

  /** The validation and persistence phase once the decision is taken. */
  function Persist(ni: NetworkInfo, config: MasterNetworkConfig, env: Collaborators, plan: Decision): Run
  {
    if plan.NoOp? then Run(None, [])
    else if env.localCheck.Some? then Run(env.localCheck, [CheckLocalNetworks])
    else
      var audit := AuditResult(ni, env.hostSubnets, env.services, env.parseCIDR, env.parseIP);
      var checks := [CheckLocalNetworks] + AuditCalls(env.hostSubnets);
      if audit.Some? then Run(audit, checks)
      else
        var record := Populate(plan.base, ni, config);
        if plan.Create? then Run(env.create, checks + [CreateClusterNetwork(record)])
        else Run(env.update, checks + [UpdateClusterNetwork(record)])
  }

  /** The bootstrap phase: subnet allocation, then VNID tracking by plugin. */
  function Bootstrap(ni: NetworkInfo, config: MasterNetworkConfig, env: Collaborators): Run
  {
    var subnetStart := [SubnetStartMaster(ni.clusterNetwork, config.hostSubnetLength)];
    if env.subnetStart.Some? then Run(env.subnetStart, subnetStart)
    else match VnidMode(config.networkPluginName)
      case None => Run(None, subnetStart)
      case Some(multitenant) => Run(env.vnidStart, subnetStart + [VnidStartMaster(multitenant)])
  }

  /** The whole start-up, phase by phase; each phase runs only if the previous one succeeded. */
  function StartMasterRun(config: MasterNetworkConfig, env: Collaborators): Run
  {
    if !IsOpenShiftNetworkPlugin(config.networkPluginName) then Run(None, [])
    else match env.parseNetworkInfo
      case Failure(e) => Run(Some(e), [])
      case Success(ni) =>
        var fetch := [GetClusterNetwork(ClusterNetworkDefault)];
        var persist := Persist(ni, config, env, Plan(ni, config, env.get));
        if persist.err.Some? then Run(persist.err, fetch + persist.calls)
        else
          var boot := Bootstrap(ni, config, env);
          Run(boot.err, fetch + persist.calls + boot.calls)
  }

  /**
   * The reconciliation step of `StartMaster`, after the network info is parsed: two flags set
   * step by step, the fetched (or fresh) record mutated in place, then one Create or Update.
   */
  method ReconcileClusterNetwork(ni: NetworkInfo, config: MasterNetworkConfig, env: Collaborators)
    returns (err: Option<Error>, calls: seq<Call>)
    ensures Run(err, calls) == Persist(ni, config, env, Plan(ni, config, env.get))
  {
    var createConfig := false;
    var updateConfig := false;
    calls := [];
    var cn: ClusterNetwork;
    if env.get.Success? {
      cn := env.get.value;
      if Render(ni.clusterNetwork) != cn.network
        || config.hostSubnetLength != cn.hostSubnetLength
        || Render(ni.serviceNetwork) != cn.serviceNetwork
        || config.networkPluginName != cn.pluginName
      {
        updateConfig := true;
      }
    } else {
      cn := ClusterNetwork(TypeMeta(ClusterNetworkKind, ""), ObjectMeta(ClusterNetworkDefault, ""), "", 0, "", "");
      createConfig := true;
    }
    ghost var plan := Plan(ni, config, env.get);
    assert createConfig == plan.Create? && updateConfig == plan.Update?;
    assert createConfig || updateConfig ==> cn == plan.base;
    if createConfig || updateConfig {
      calls := calls + [CheckLocalNetworks];
      if env.localCheck.Some? {
        return env.localCheck, calls;
      }
      var auditErr, auditCalls := CheckClusterNetworkAgainstClusterObjects(
        ni, env.hostSubnets, env.services, env.parseCIDR, env.parseIP);
      calls := calls + auditCalls;
      if auditErr.Some? {
        return auditErr, calls;
      }
      cn := cn.(network := Render(ni.clusterNetwork));
      cn := cn.(hostSubnetLength := config.hostSubnetLength);
      cn := cn.(serviceNetwork := Render(ni.serviceNetwork));
      cn := cn.(pluginName := config.networkPluginName);
      assert cn == Populate(plan.base, ni, config);
    }

    if createConfig {
      calls := calls + [CreateClusterNetwork(cn)];
      err := env.create;
    } else if updateConfig {
      calls := calls + [UpdateClusterNetwork(cn)];
      err := env.update;
    } else {
      err := None;
    }
  }

  /** The bootstraps at the end of `StartMaster`: subnet allocation, then VNID tracking by plugin. */
  method StartBootstraps(ni: NetworkInfo, config: MasterNetworkConfig, env: Collaborators)
    returns (err: Option<Error>, calls: seq<Call>)
    ensures Run(err, calls) == Bootstrap(ni, config, env)
  {
    calls := [SubnetStartMaster(ni.clusterNetwork, config.hostSubnetLength)];
    if env.subnetStart.Some? {
      return env.subnetStart, calls;
    }
    if config.networkPluginName == MultiTenantPluginName {
      calls := calls + [VnidStartMaster(true)];
      if env.vnidStart.Some? {
        return env.vnidStart, calls;
      }
    } else if config.networkPluginName == NetworkPolicyPluginName {
      calls := calls + [VnidStartMaster(false)];
      if env.vnidStart.Some? {
        return env.vnidStart, calls;
      }
    }
    return None, calls;
  }

  /** `StartMaster`: the plugin gate, parsing, reconciliation, then the bootstraps. */
  method StartMaster(config: MasterNetworkConfig, env: Collaborators) returns (err: Option<Error>, calls: seq<Call>)
    ensures Run(err, calls) == StartMasterRun(config, env)
  {
    if !IsOpenShiftNetworkPlugin(config.networkPluginName) {
      return None, [];
    }
    if env.parseNetworkInfo.Failure? {
      return Some(env.parseNetworkInfo.error), [];
    }
    var ni := env.parseNetworkInfo.value;

    var fetch := [GetClusterNetwork(ClusterNetworkDefault)];
    var persistCalls, bootCalls;
    err, persistCalls := ReconcileClusterNetwork(ni, config, env);
    if err.Some? {
      return err, fetch + persistCalls;
    }
    err, bootCalls := StartBootstraps(ni, config, env);
    calls := fetch + persistCalls + bootCalls;
  }

  /** A plugin the master does not own makes start-up a silent success that issues no call. */
  lemma ForeignPluginIsSilent(config: MasterNetworkConfig, env: Collaborators)
    requires !IsOpenShiftNetworkPlugin(config.networkPluginName)
    ensures StartMasterRun(config, env) == Run(None, [])
  {
  }

  /** A failed Get means create from a fresh record; a fetched record means update exactly when
   *  one of the four fields differs, and no-op otherwise. Create and update exclude each other. */
  lemma PlanChoice(ni: NetworkInfo, config: MasterNetworkConfig, get: Result<ClusterNetwork, Error>)
    ensures Plan(ni, config, get).Create? <==> get.Failure?
    ensures Plan(ni, config, get).Create? ==> Plan(ni, config, get).base == FreshClusterNetwork()
    ensures Plan(ni, config, get).Update? <==> get.Success? && !FieldsMatch(ni, config, get.value)
    ensures Plan(ni, config, get).Update? ==> Plan(ni, config, get).base == get.value
    ensures Plan(ni, config, get).NoOp? <==> get.Success? && Populate(get.value, ni, config) == get.value
  {
    if get.Success? {
      PopulateFixesExactlyMatchingRecords(get.value, ni, config);
    }
  }

  /** Population overwrites the four network fields with the desired values and keeps the kind and
   *  metadata; the populated record matches the desired configuration and is a fixed point. */
  lemma PopulateSetsFourFields(cn: ClusterNetwork, ni: NetworkInfo, config: MasterNetworkConfig)
    ensures var r := Populate(cn, ni, config);
      && r.network == Render(ni.clusterNetwork) && r.hostSubnetLength == config.hostSubnetLength
      && r.serviceNetwork == Render(ni.serviceNetwork) && r.pluginName == config.networkPluginName
      && r.typeMeta == cn.typeMeta && r.objectMeta == cn.objectMeta
      && FieldsMatch(ni, config, r) && Populate(r, ni, config) == r
  {
  }

  /** The four-field diff reports a match exactly when population would change nothing. */
  lemma PopulateFixesExactlyMatchingRecords(cn: ClusterNetwork, ni: NetworkInfo, config: MasterNetworkConfig)
    ensures FieldsMatch(ni, config, cn) <==> Populate(cn, ni, config) == cn
  {
    if Populate(cn, ni, config) == cn {
      assert Populate(cn, ni, config).network == cn.network;
      assert Populate(cn, ni, config).serviceNetwork == cn.serviceNetwork;
    }
  }

  /** A fetched record whose four fields match: no check runs, no record is written, and the run
   *  goes straight from the Get to the bootstraps. */
  lemma MatchingRecordIsNoOp(config: MasterNetworkConfig, env: Collaborators, ni: NetworkInfo)
    requires IsOpenShiftNetworkPlugin(config.networkPluginName)
    requires env.parseNetworkInfo == Success(ni)
    requires env.get.Success? && FieldsMatch(ni, config, env.get.value)
    ensures StartMasterRun(config, env)
         == Run(Bootstrap(ni, config, env).err, [GetClusterNetwork(ClusterNetworkDefault)] + Bootstrap(ni, config, env).calls)
    ensures forall c :: c in StartMasterRun(config, env).calls ==>
              !c.IsWrite() && c != CheckLocalNetworks && c != ListHostSubnets && c != ListServices
  {
    var boot := Bootstrap(ni, config, env);
    assert forall c :: c in boot.calls ==> c.SubnetStartMaster? || c.VnidStartMaster?;
  }

  /** The bootstrap phase issues no write, starts subnet allocation first, and then VNID tracking:
   *  per tenant for the multitenant plugin, shared for the network-policy plugin, else not at all. */
  lemma BootstrapDispatch(ni: NetworkInfo, config: MasterNetworkConfig, env: Collaborators)
    ensures var boot := Bootstrap(ni, config, env);
      && (forall k :: 0 <= k < |boot.calls| ==> !boot.calls[k].IsWrite())
      && boot.calls[0] == SubnetStartMaster(ni.clusterNetwork, config.hostSubnetLength)
      && (env.subnetStart.Some? ==> boot == Run(env.subnetStart, boot.calls[..1]))
      && (env.subnetStart.None? && config.networkPluginName == MultiTenantPluginName ==>
            boot == Run(env.vnidStart, boot.calls[..1] + [VnidStartMaster(true)]))
      && (env.subnetStart.None? && config.networkPluginName == NetworkPolicyPluginName ==>
            boot == Run(env.vnidStart, boot.calls[..1] + [VnidStartMaster(false)]))
      && (env.subnetStart.None? && config.networkPluginName != MultiTenantPluginName
            && config.networkPluginName != NetworkPolicyPluginName ==>
            boot == Run(None, boot.calls[..1]))
  {
  }

  /**
   * Within the persistence phase a record is written only after both checks passed, as its fourth
   * call after the local check and the two List calls; the write creates the populated fresh record
   * when the Get failed and updates the populated fetched one otherwise, and its answer is the
   * phase's error. No bootstrap is started in this phase.
   */
  lemma PersistWritesOnlyAfterChecks(ni: NetworkInfo, config: MasterNetworkConfig, env: Collaborators, k: nat)
    requires var p := Persist(ni, config, env, Plan(ni, config, env.get)); k < |p.calls| && p.calls[k].IsWrite()
    ensures var p := Persist(ni, config, env, Plan(ni, config, env.get));
      && env.localCheck.None?
      && AuditResult(ni, env.hostSubnets, env.services, env.parseCIDR, env.parseIP).None?
      && env.hostSubnets.Success? && env.services.Success?
      && k == 3
      && p.calls == [CheckLocalNetworks, ListHostSubnets, ListServices, p.calls[3]]
      && p.calls[3] == (if env.get.Failure? then CreateClusterNetwork(Populate(FreshClusterNetwork(), ni, config))
                        else UpdateClusterNetwork(Populate(env.get.value, ni, config)))
      && p.err == (if env.get.Failure? then env.create else env.update)
  {
  }

  lemma PersistStartsNoBootstrap(ni: NetworkInfo, config: MasterNetworkConfig, env: Collaborators)
    ensures var p := Persist(ni, config, env, Plan(ni, config, env.get));
      forall k :: 0 <= k < |p.calls| ==> !p.calls[k].SubnetStartMaster? && !p.calls[k].VnidStartMaster?
  {
  }

  /**
   * A record is written only after both checks passed, as the fifth call: the Get, the local
   * check, the subnet List and the service List come first, in that order. The write creates the
   * populated fresh record when the Get failed and updates the populated fetched one otherwise,
   * and every host subnet's address and every parsed service IP then lie in the cluster and
   * service networks being written.
   */
  lemma WriteOnlyAfterChecksPass(config: MasterNetworkConfig, env: Collaborators, i: nat)
    requires i < |StartMasterRun(config, env).calls| && StartMasterRun(config, env).calls[i].IsWrite()
    ensures IsOpenShiftNetworkPlugin(config.networkPluginName) && env.parseNetworkInfo.Success?
    ensures var ni := env.parseNetworkInfo.value;
      && env.localCheck.None?
      && i == 4
      && StartMasterRun(config, env).calls[..4]
         == [GetClusterNetwork(ClusterNetworkDefault), CheckLocalNetworks, ListHostSubnets, ListServices]
      && StartMasterRun(config, env).calls[4]
         == (if env.get.Failure? then CreateClusterNetwork(Populate(FreshClusterNetwork(), ni, config))
             else UpdateClusterNetwork(Populate(env.get.value, ni, config)))
      && env.hostSubnets.Success? && env.services.Success?
      && (forall k :: 0 <= k < |env.hostSubnets.value| ==> SubnetOk(ni, env.hostSubnets.value[k], env.parseCIDR))
      && (forall k :: 0 <= k < |env.services.value| ==> ServiceOk(ni, env.services.value[k], env.parseIP))
  {
    var run := StartMasterRun(config, env);
    var ni := env.parseNetworkInfo.value;
    var p := Persist(ni, config, env, Plan(ni, config, env.get));
    var boot := Bootstrap(ni, config, env);
    var head := [GetClusterNetwork(ClusterNetworkDefault)] + p.calls;
    if p.err.None? {
      assert run.calls == head + boot.calls;
      if i >= |head| {
        BootstrapDispatch(ni, config, env);
        assert false;
      }
    }
    assert run.calls[i] == p.calls[i - 1];
    PersistWritesOnlyAfterChecks(ni, config, env, i - 1);
    assert run.calls[..4] == head[..4];
    AuditOfFleet(ni, env.hostSubnets.value, env.services.value, env.parseCIDR, env.parseIP);
  }

  /** A failed check aborts the run with that error before any write or bootstrap: a failed local
   *  check even before the fleet is listed. */
  lemma FailedCheckAbortsBeforeWrite(config: MasterNetworkConfig, env: Collaborators, ni: NetworkInfo)
    requires IsOpenShiftNetworkPlugin(config.networkPluginName)
    requires env.parseNetworkInfo == Success(ni)
    requires !Plan(ni, config, env.get).NoOp?
    ensures env.localCheck.Some? ==>
              StartMasterRun(config, env) == Run(env.localCheck, [GetClusterNetwork(ClusterNetworkDefault), CheckLocalNetworks])
    ensures var audit := AuditResult(ni, env.hostSubnets, env.services, env.parseCIDR, env.parseIP);
            env.localCheck.None? && audit.Some? ==>
              StartMasterRun(config, env)
              == Run(audit, [GetClusterNetwork(ClusterNetworkDefault), CheckLocalNetworks] + AuditCalls(env.hostSubnets))
  {
  }

  /** Once reconciliation succeeded, subnet allocation is always started, as the call right after
   *  the persistence calls, and the bootstrap phase decides the rest of the run. */
  lemma ReconcileSuccessStartsSubnets(config: MasterNetworkConfig, env: Collaborators, ni: NetworkInfo)
    requires IsOpenShiftNetworkPlugin(config.networkPluginName)
    requires env.parseNetworkInfo == Success(ni)
    requires Persist(ni, config, env, Plan(ni, config, env.get)).err.None?
    ensures var p := Persist(ni, config, env, Plan(ni, config, env.get));
      && StartMasterRun(config, env)
         == Run(Bootstrap(ni, config, env).err, [GetClusterNetwork(ClusterNetworkDefault)] + p.calls + Bootstrap(ni, config, env).calls)
      && 1 + |p.calls| < |StartMasterRun(config, env).calls|
      && StartMasterRun(config, env).calls[1 + |p.calls|] == SubnetStartMaster(ni.clusterNetwork, config.hostSubnetLength)
  {
  }

  /** Subnet allocation starts only once reconciliation succeeded, immediately after it, and the
   *  bootstrap phase then decides the rest of the run. */
  lemma SubnetStartOnlyAfterReconcile(config: MasterNetworkConfig, env: Collaborators, i: nat)
    requires i < |StartMasterRun(config, env).calls| && StartMasterRun(config, env).calls[i].SubnetStartMaster?
    ensures IsOpenShiftNetworkPlugin(config.networkPluginName) && env.parseNetworkInfo.Success?
    ensures var ni := env.parseNetworkInfo.value;
      var p := Persist(ni, config, env, Plan(ni, config, env.get));
      && p.err.None?
      && StartMasterRun(config, env)
         == Run(Bootstrap(ni, config, env).err, [GetClusterNetwork(ClusterNetworkDefault)] + p.calls + Bootstrap(ni, config, env).calls)
      && i == 1 + |p.calls|
  {
    var run := StartMasterRun(config, env);
    var ni := env.parseNetworkInfo.value;
    var p := Persist(ni, config, env, Plan(ni, config, env.get));
    var boot := Bootstrap(ni, config, env);
    var head := [GetClusterNetwork(ClusterNetworkDefault)] + p.calls;
    PersistStartsNoBootstrap(ni, config, env);
    if p.err.Some? {
      assert false;
    }
    assert run.calls == head + boot.calls;
    if i < |head| {
      assert false;
    }
    BootstrapDispatch(ni, config, env);
    if i > |head| {
      assert false;
    }
  }

  /** Re-running start-up once the record holds the populated values is a no-op on the record:
   *  it writes nothing and runs no check, whatever the fleet now looks like. */
  lemma RerunAfterWriteIsNoOp(config: MasterNetworkConfig, env: Collaborators, ni: NetworkInfo, cn: ClusterNetwork)
    requires IsOpenShiftNetworkPlugin(config.networkPluginName)
    requires env.parseNetworkInfo == Success(ni)
    requires env.get == Success(Populate(cn, ni, config))
    ensures Plan(ni, config, env.get) == NoOp
    ensures forall c :: c in StartMasterRun(config, env).calls ==> !c.IsWrite() && c != CheckLocalNetworks
  {
    PopulateSetsFourFields(cn, ni, config);
    MatchingRecordIsNoOp(config, env, ni);
  }

  /**
   * First start of a multitenant cluster: no record can be fetched and the fleet is empty. The
   * master creates the populated fresh record, then starts subnet allocation and per-tenant VNID
   * tracking, and succeeds.
   */
  lemma FirstStartOfEmptyMultitenantCluster(config: MasterNetworkConfig, env: Collaborators, ni: NetworkInfo)
    requires config.networkPluginName == MultiTenantPluginName
    requires env.parseNetworkInfo == Success(ni) && env.get.Failure?
    requires env.localCheck.None? && env.hostSubnets == Success([]) && env.services == Success([])
    requires env.create.None? && env.subnetStart.None? && env.vnidStart.None?
    ensures StartMasterRun(config, env) == Run(None, [
      GetClusterNetwork(ClusterNetworkDefault), CheckLocalNetworks, ListHostSubnets, ListServices,
      CreateClusterNetwork(ClusterNetwork(TypeMeta(ClusterNetworkKind, ""), ObjectMeta(ClusterNetworkDefault, ""),
        Render(ni.clusterNetwork), config.hostSubnetLength, Render(ni.serviceNetwork), MultiTenantPluginName)),
      SubnetStartMaster(ni.clusterNetwork, config.hostSubnetLength),
      VnidStartMaster(true)])
  {
  }
}
