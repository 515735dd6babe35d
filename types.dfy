/**
 * The records the SDN master reads and writes, its desired configuration, the errors it
 * returns, and the calls it issues to the cluster API and to its downstream collaborators.
 */
module Types {
  import opened Wrappers
  import opened Net

  /** An unsigned 32-bit integer (Go `uint32`). */
  type Uint32 = n: nat | n < 0x1_0000_0000

  // Names fixed by the SDN API package (pkg/sdn/api is not part of this model).
  const SingleTenantPluginName: string := "redhat/openshift-ovs-subnet"
  const MultiTenantPluginName: string := "redhat/openshift-ovs-multitenant"
  const NetworkPolicyPluginName: string := "redhat/openshift-ovs-networkpolicy"
  const ClusterNetworkDefault: string := "default"
  const ClusterNetworkKind: string := "ClusterNetwork"

  /** The master runs only for the SDN plugins it owns. */
  predicate IsOpenShiftNetworkPlugin(name: string)
  {
    name == SingleTenantPluginName || name == MultiTenantPluginName || name == NetworkPolicyPluginName
  }

  /** The desired network configuration of the master (`MasterNetworkConfig`). */
  datatype MasterNetworkConfig = MasterNetworkConfig(
    networkPluginName: string,
    clusterNetworkCIDR: string,
    hostSubnetLength: Uint32,
    serviceNetworkCIDR: string)

  /** The parsed cluster and service networks (`NetworkInfo`). */
  datatype NetworkInfo = NetworkInfo(clusterNetwork: Cidr, serviceNetwork: Cidr)

  datatype TypeMeta = TypeMeta(kind: string, apiVersion: string)

  datatype ObjectMeta = ObjectMeta(name: string, resourceVersion: string)

  /** The persisted cluster-wide network record (`osapi.ClusterNetwork`). */
  datatype ClusterNetwork = ClusterNetwork(
    typeMeta: TypeMeta,
    objectMeta: ObjectMeta,
    network: string,
    hostSubnetLength: Uint32,
    serviceNetwork: string,
    pluginName: string)

  /** A node's subnet record (`osapi.HostSubnet`); `subnet` is a CIDR string. */
  datatype HostSubnet = HostSubnet(host: string, hostIP: string, subnet: string)

  /** A service, reduced to what the audit reads; `clusterIP` may be empty. */
  datatype Service = Service(namespace: string, name: string, clusterIP: string)

  /** One entry of the audit's error list, in the order it was found. */
  datatype Violation =
    | UnparsableSubnet(subnet: string)
    | SubnetOutsideClusterNetwork(subnet: string, clusterNetwork: Cidr)
    | ServiceOutsideServiceNetwork(clusterIP: string, serviceNetwork: Cidr)

  /** The errors the master returns. */
  datatype Error =
    | Failed(message: string)          // an error of a collaborator, returned unchanged
    | FetchingSubnets(cause: Error)    // a failed host-subnet List, wrapped with context
    | Aggregate(violations: seq<Violation>)  // a non-empty list of audit violations

  /** The calls the master issues, in the order it issues them. */
  datatype Call =
    | GetClusterNetwork(name: string)
    | CheckLocalNetworks
    | ListHostSubnets
    | ListServices
    | CreateClusterNetwork(record: ClusterNetwork)
    | UpdateClusterNetwork(record: ClusterNetwork)
    | SubnetStartMaster(clusterNetwork: Cidr, hostSubnetLength: Uint32)
    | VnidStartMaster(multitenant: bool)  // newMasterVNIDMap(multitenant), then VnidStartMaster
  {
    /** A call that persists the cluster network record. */
    predicate IsWrite()
    {
      CreateClusterNetwork? || UpdateClusterNetwork?
    }
  }

  /**
   * What each collaborator answers when called: `parseNetworkInfo` on the configured CIDR
   * strings, the API server's Get/List/Create/Update, the local host-network check,
   * `net.ParseCIDR`/`net.ParseIP` (address part only, nil as None) and the two bootstraps.
   * An `Option<Error>` is None on success.
   */
  datatype Collaborators = Collaborators(
    parseNetworkInfo: Result<NetworkInfo, Error>,
    get: Result<ClusterNetwork, Error>,
    localCheck: Option<Error>,
    hostSubnets: Result<seq<HostSubnet>, Error>,
    services: Result<seq<Service>, Error>,
    parseCIDR: string -> Option<Addr>,
    parseIP: string -> Option<Addr>,
    create: Option<Error>,
    update: Option<Error>,
    subnetStart: Option<Error>,
    vnidStart: Option<Error>)
}
