# SDN master start-up: cluster-network reconciliation and fleet audit

This project models, in Dafny, the start-up routine of the OpenShift SDN master
(`pkg/sdn/plugin/master.go`) and proves properties of it.

`StartMaster` does four things:

- It runs only for the SDN plugins it owns.
- It converges the cluster-wide `ClusterNetwork` record with the desired network
  configuration. The outcome is a no-op, a create or an update.
- It validates a create or update against the host's own networks and against every
  existing host subnet and service IP.
- It starts subnet allocation, and then VNID tracking for the multitenant and
  network-policy plugins.

The fleet audit (`checkClusterNetworkAgainstClusterObjects`) scans the host subnets and
the services. It collects every violation in order instead of stopping at the first one.

Modules:

- `Wrappers` (wrappers.dfy): `Option` and `Result`.
- `Net` (net.dfy): IPv4 addresses and CIDR blocks.
  - An address is a 32-bit natural.
  - A block is a base address with a prefix length.
  - `Contains` is a match on the first `prefixLen` bits.
  - `Render` writes a block as `IPNet.String` does ("a.b.c.d/len").
- `Types` (types.dfy): the API records and the master's configuration.
  - It also holds the errors and the audit violations.
  - `Call` lists the calls the master issues, as trace events.
  - `Collaborators` holds the answer each external call gives.
- `FleetAudit` (fleet_audit.dfy): the audit, specified by functions.
  - `SubnetViolations` and `ServiceViolations` give the violations; `AuditResult` gives the error.
  - The method with the two loops the master runs is proved equal to `AuditResult`.
  - Lemmas cover exact counts, the contribution of each entry and the order of the errors.
- `Master` (master.dfy): the start-up, specified by functions.
  - `Plan` makes the no-op/create/update decision.
  - `Persist` and `Bootstrap` describe the phases; `StartMasterRun` describes the whole run.
  - The imperative methods are proved equal to these functions. They keep the
    `createConfig`/`updateConfig` flags and overwrite the record field by field, as the code does.
  - Lemmas state what the source promises about the run.

The observable behaviour of a run has two parts: the error it returns (`None` for
success) and the ordered list of calls it issues to the API server and to the collaborators.
Each collaborator's answer is an input (`Collaborators`). So a lemma such as "no write
unless both checks pass" is a statement about every possible answer.

### Get errors and subnet containment

- The code (master.go:55-69) does not tell a not-found Get apart from other Get errors. Every
  failed Get leads to a create from a fresh record named `default`, and `Plan` answers
  `Create` for any `Failure`.
- The code (master.go:135, 140) checks only the address part that `ParseCIDR` returns for each
  host subnet. It does not check that the whole subnet lies inside the cluster network, and
  neither does `SubnetOk`.

## Model

| member | source | states |
|---|---|---|
| `Master.StartMaster` | pkg/sdn/plugin/master.go:33-115 | issues exactly the calls, in the same order, and returns exactly the error of the phase-by-phase specification `StartMasterRun`, for every collaborator answer |
| `Master.ReconcileClusterNetwork` | pkg/sdn/plugin/master.go:53-95 | with the two flags and the four field assignments, produces the calls and error of `Persist` for the decision `Plan` takes |
| `Master.StartBootstraps` | pkg/sdn/plugin/master.go:97-112 | starts subnet allocation, then VNID tracking by plugin, with the calls and error of `Bootstrap` |
| `Master.ForeignPluginIsSilent` | pkg/sdn/plugin/master.go:34-36 | for a plugin the master does not own, the run succeeds and issues no call: no parse, fetch, check, write or bootstrap |
| `Master.PlanChoice` | pkg/sdn/plugin/master.go:53-69 | a failed Get (of any kind) means create from the fresh record; a fetched record means update exactly when a field differs, from the fetched record; no-op exactly when populating would change nothing; create and update exclude each other |
| `Master.PopulateFixesExactlyMatchingRecords` | pkg/sdn/plugin/master.go:56-80 | the four-field diff finds a match exactly when overwriting the four fields leaves the record unchanged (the only difference that matters is among those four fields) |
| `Master.PopulateSetsFourFields` | pkg/sdn/plugin/master.go:77-80 | the populated record holds the desired cluster network, host subnet length, service network and plugin name; kind and metadata are kept; it matches the desired configuration and populating again changes nothing |
| `Master.MatchingRecordIsNoOp` | pkg/sdn/plugin/master.go:55-95 | when the fetched record matches, neither check runs, nothing is listed or written, and the run goes from the Get straight to the bootstraps |
| `Master.FailedCheckAbortsBeforeWrite` | pkg/sdn/plugin/master.go:70-76 | on the create/update path, a failed local check returns its error after the Get and that check only (the fleet is never listed); a failed audit returns its error after the List calls; neither writes or bootstraps |
| `Master.PersistWritesOnlyAfterChecks` | pkg/sdn/plugin/master.go:70-95 | within persistence, a write is the fourth call and comes only after the local check passed and both List calls succeeded with no violation; it creates the populated fresh record or updates the populated fetched one; its answer is the phase's error |
| `Master.PersistStartsNoBootstrap` | pkg/sdn/plugin/master.go:53-95 | the persistence phase never starts subnet allocation or VNID tracking |
| `Master.WriteOnlyAfterChecksPass` | pkg/sdn/plugin/master.go:53-95 | any write in a run is its fifth call, preceded by exactly Get, local check, subnet List and service List; it creates (Get failed) or updates (Get succeeded) the populated record; every host subnet's address and every parsed service IP then lie in the cluster and service networks written |
| `Master.BootstrapDispatch` | pkg/sdn/plugin/master.go:97-112 | subnet allocation starts first and a failure there stops the run; then multitenant starts VNID tracking with per-tenant IDs, network-policy with shared IDs, any other plugin skips it; no write happens here |
| `Master.SubnetStartOnlyAfterReconcile` | pkg/sdn/plugin/master.go:83-99 | subnet allocation is started only when reconciliation succeeded, as the call right after the persistence calls, and the bootstrap phase then decides the rest of the run |
| `Master.ReconcileSuccessStartsSubnets` | pkg/sdn/plugin/master.go:83-99 | conversely, once reconciliation succeeded, subnet allocation is always started as the call right after the persistence calls, and the run is the Get, the persistence calls and the bootstrap phase, with the bootstrap phase's error |
| `Master.RerunAfterWriteIsNoOp` | pkg/sdn/plugin/master.go:56-80 | re-running once the record holds the populated values decides no-op: no check and no write, whatever the fleet then holds |
| `Master.FirstStartOfEmptyMultitenantCluster` | pkg/sdn/plugin/master.go:33-115 | first start of a multitenant cluster with an empty fleet: Get, local check, both Lists, create of the record with the four desired fields, subnet allocation, per-tenant VNID tracking; success |
| `FleetAudit.CheckClusterNetworkAgainstClusterObjects` | pkg/sdn/plugin/master.go:125-158 | the two appending loops return exactly `AuditResult` and issue the service List only after a successful subnet List |
| `FleetAudit.SubnetViolationsAppend` | pkg/sdn/plugin/master.go:134-143 | the subnet scan of a concatenation is the scan of each part, in order: it continues after every entry |
| `FleetAudit.ServiceViolationsAppend` | pkg/sdn/plugin/master.go:150-155 | the service scan of a concatenation is the scan of each part, in order |
| `FleetAudit.SubnetEntryContribution` | pkg/sdn/plugin/master.go:134-143 | host subnet i contributes at its own position: exactly one parse error if its CIDR does not parse (and no containment error), exactly one containment error if its address is outside the cluster network, otherwise nothing |
| `FleetAudit.ServiceEntryContribution` | pkg/sdn/plugin/master.go:150-155 | service i contributes at its own position exactly one error if its IP parses and is outside the service network, otherwise nothing |
| `FleetAudit.UnparsableServiceSkipped` | pkg/sdn/plugin/master.go:151-152 | a service whose ClusterIP does not parse (such as an empty one) is skipped: removing it leaves the violations unchanged |
| `FleetAudit.SubnetViolationKinds` | pkg/sdn/plugin/master.go:136-142 | every subnet violation is a parse error or a containment error naming the cluster network |
| `FleetAudit.ServiceViolationKinds` | pkg/sdn/plugin/master.go:152-154 | every service violation is a containment error naming the service network |
| `FleetAudit.SubnetViolationCount` | pkg/sdn/plugin/master.go:134-143 | the number of subnet violations equals the number of host subnets that fail to parse or lie outside the cluster network |
| `FleetAudit.ServiceViolationCount` | pkg/sdn/plugin/master.go:150-155 | the number of service violations equals the number of services whose IP parses and lies outside the service network |
| `FleetAudit.AuditOfFleet` | pkg/sdn/plugin/master.go:127-157 | with both Lists successful, the audit succeeds exactly when every object passes; otherwise it returns one aggregate with one entry per failing object, all subnet errors before all service errors |
| `FleetAudit.AuditListFailures` | pkg/sdn/plugin/master.go:130-149 | a failed subnet List returns that error (with its context) alone and services are not listed; a failed service List returns that error alone, discarding the subnet violations found |
| `FleetAudit.AuditOfSampleFleet` | pkg/sdn/plugin/master.go:125-158 | cluster 10.128.0.0/14, services 172.30.0.0/16, node subnet 10.131.0.0/23 and a service at 192.168.1.5: the audit reports that service alone |
| `Net.ContainsIffInBlock` | pkg/sdn/plugin/master.go:140 | containment as a prefix match agrees with membership in the block's address range [start, start + 2^(32-len)) |

## Left out

- The API client calls (ClusterNetwork Get/Create/Update, HostSubnets List, Services List) are network I/O. Each is modelled by the answer it gives, which is an input in `Collaborators`. The values Create and Update return are only logged, so they are not modelled.
- `parseNetworkInfo` is defined in a file that is not part of this model. It is an input: a `NetworkInfo` or the error it returns. Its own checks (valid, non-overlapping CIDRs) are not modelled.
- `checkClusterNetworkAgainstLocalNetworks` (master.go:117-123) enumerates host interfaces and calls `checkHostNetworks`, which is not shown. Its result is an opaque input (`localCheck`).
- `SubnetStartMaster`, `newMasterVNIDMap` and `VnidStartMaster` are defined in files that are not part of this model.
  - Each start is recorded as a call event with the arguments the master passes.
  - Its result is an opaque input.
  - `newMasterVNIDMap(b)` and the following `VnidStartMaster` are one event, `VnidStartMaster(b)`.
- The internals of `net.ParseCIDR` and `net.ParseIP` are not modelled, and neither is IPv6.
  - They are parameters from strings to `Option<Addr>`: only the address part, None for nil.
  - All properties hold for every such parser.
  - That `ParseIP("")` is nil is a fact about the Go library that the model does not state.
- `IsOpenShiftNetworkPlugin`, the three plugin names and `ClusterNetworkDefault` come from pkg/sdn/api, which is not part of this model.
  - The model uses the names "redhat/openshift-ovs-subnet", "redhat/openshift-ovs-multitenant" and "redhat/openshift-ovs-networkpolicy", and "default" for the record name.
  - It compares names exactly. Any case-folding done by the real predicate is not modelled.
- The `OsdnMaster` object is not modelled as a class. Its fields (clients, informers, `hostSubnetNodeIPs`, `subnetAllocator`, `vnids`) are set locally and only handed to the bootstraps, which are not modelled. `hostSubnetNodeIPs` is only created empty here.
- The `cn` record is a value updated field by field in a local variable. The pointer is never shared before the Create/Update call, so aliasing is not modelled. The metadata is reduced to name and resource version.
- Logging (glog) and `clusterNetworkToString` are not modelled.
- Informers and concurrency are not modelled. The routine is modelled as one sequential run.
- The error messages of the audit are not modelled as strings. Each violation is a tagged record carrying the offending string and the network it falls outside. The aggregate keeps their order.
