# Gravity cluster operations: environment-update engine, application endpoints, discovery

This project is a Dafny model of three parts of the Gravity cluster manager, with proofs about them.

- **The environment-update engine** (`lib/environ/internal/fsm/engine.go`). This is the adapter that an operation plan's state machine calls while it updates a cluster's environment variables. The model covers:
  - the configuration checks;
  - the progress entry written before each phase;
  - the final operation state set by `Complete`;
  - the phase change log;
  - the `gravity system envars` command line run on remote servers;
  - the mapping from phase IDs to executors;
  - the retry policy wrapped around every call into the operator service.
- **Application endpoints** (`lib/ops/opsservice/endpoints.go`). Every Kubernetes service has a set of addresses, picked from three tiers: load balancer, node ports, cluster IP. An application manifest declares endpoints; each endpoint is filled with the addresses of the services its selector finds, filtered by port and prefixed with a protocol. The model also covers the lazily cached Kubernetes client.
- **Discovery publication by the AWS autoscaler** (`lib/autoscale/aws/discovery.go`). This covers:
  - the URL of the gravity-site service, taken from its named port and its load-balancer ingress;
  - the ordered synchronisation of the join token and then that URL.

The project has five modules, one file each:

- `Common` (`common.dfy`): options, results, error kinds, decimal printing of integers, Go's `%q` quoting, and prefix and suffix tests.
- `Kube` (`kube.dfy`): the Kubernetes objects that are read.
- `EnvironFsm` (`engine.dfy`).
- `Endpoints` (`endpoints.dfy`).
- `Discovery` (`discovery.dfy`).

Code that works step by step is modelled as methods with loops: the address loops, the endpoint collection, the retry loop and the engine's calls. Each such method is proved equal to a specification function. The properties the source promises are proved as lemmas about those functions. Objects whose fields change are classes:

- the engine's operator service (its script of call outcomes and its write log);
- the configuration, whose logger is defaulted on the copy `New` receives;
- the remote runner;
- the cluster operator's cached client;
- the autoscaler's published values.

## Model

| member | source | states |
|---|---|---|
| `EnvironFsm.Config.CheckAndSetDefaults` | lib/environ/internal/fsm/engine.go:63-80 | reports the first missing item of operation, operator and runner; the other fields are unchanged; a logger is installed only when all three are present and none was set, and it is the default logger for the operation's key |
| `EnvironFsm.DefaultLogger` | lib/environ/internal/fsm/engine.go:73-79 | the logger installed when none is set; its use is stated by `CheckAndSetDefaults` and `New` |
| `EnvironFsm.ConfigError` | lib/environ/internal/fsm/engine.go:63-72 | the error is absent exactly when all three dependencies are present; otherwise it is BadParameter naming the first missing one, in the order operation, operator service, remote command runner, with the source's exact messages |
| `EnvironFsm.New` | lib/environ/internal/fsm/engine.go:39-49 | the configuration is taken by value, so the caller's configuration is unchanged; the validation error is returned; an engine is built exactly when validation passes, fresh, over the configuration's operation and operator, with the configuration's logger or, when none is set, the default logger for the operation's key |
| `EnvironFsm.FirstWithID` | lib/environ/internal/fsm/engine.go:106-109 | a phase is found exactly when some phase has the ID; the one found is the first with that ID; otherwise the error is NotFound |
| `EnvironFsm.FindPhase` | lib/environ/internal/fsm/engine.go:106-109 | the phase found has the requested ID and lies in the flattened plan; the lookup fails with NotFound exactly when no phase at any depth has that ID |
| `EnvironFsm.FlattenCovers` | lib/environ/internal/fsm/engine.go:106 | the flattened plan holds every top-level phase, and all sub-phases of every phase it holds |
| `EnvironFsm.Flatten` | lib/environ/internal/fsm/engine.go:106 | the pre-order flattening the lookup searches; what it holds is stated by `FlattenCovers` |
| `EnvironFsm.FindPhaseNested` | lib/environ/internal/fsm/engine.go:106 | a sub-phase of any phase in the plan is found by its ID |
| `EnvironFsm.LeavesCompletedFlat` | lib/environ/internal/fsm/engine.go:139 | the recursive completion test over a phase forest holds exactly when every phase without sub-phases in its flattening is Completed |
| `EnvironFsm.IsCompleted` | lib/environ/internal/fsm/engine.go:139 | a plan, whatever its nesting, is completed exactly when every phase without sub-phases in its flattening is Completed |
| `EnvironFsm.CompletionExamples` | lib/environ/internal/fsm/engine.go:115 | 4 phases at step 2 give 50; an empty plan divides by 1; dividing first makes step 3 of 3 give 99 |
| `EnvironFsm.CompletionBounds` | lib/environ/internal/fsm/engine.go:115 | for a step between 0 and the phase count the completion lies in 0..100, and at the last step it exceeds 100 minus the phase count |
| `EnvironFsm.Completion` | lib/environ/internal/fsm/engine.go:115 | with at least one top-level phase, 100 divided by the phase count (integer division, done first) times the step; with none, 100 times the step |
| `EnvironFsm.ProgressEntryFor` | lib/environ/internal/fsm/engine.go:111-120 | the entry carries the key's site domain and operation ID, state InProgress, the phase's step and description, the completion for the top-level phase count, and the given time stamp |
| `EnvironFsm.UpdateProgressRun` | lib/environ/internal/fsm/engine.go:100-129 | the call fails exactly when reading the plan or finding the phase fails, and then with that error; a failed entry write is never reported; at most one entry is written, it describes the found phase (step, description, completion from the top-level phase count) with state InProgress under the operation's key, and nothing is written on error; exactly one entry is written when the plan is read, the phase is found and the retried write succeeds; the outcomes left are those after the read, and after the write as well when the phase was found |
| `EnvironFsm.Engine.UpdateProgress` | lib/environ/internal/fsm/engine.go:100-129 | the returned error, the writes added to the operator's log and the outcomes consumed are those of `UpdateProgressRun` |
| `EnvironFsm.FinalState` | lib/environ/internal/fsm/engine.go:139-143 | the state requested is Completed exactly when the plan is completed; otherwise it is Failed, carrying the message of the error that ended the run |
| `EnvironFsm.CompleteRun` | lib/environ/internal/fsm/engine.go:133-150 | if reading the plan fails, that error is returned and nothing is written; otherwise one state write is attempted, its error is returned, and the final state is stored only if it succeeds |
| `EnvironFsm.CompleteDecides` | lib/environ/internal/fsm/engine.go:133-150 | at most one operation state is written, never both; the call succeeds exactly when one was written; it is Completed exactly when the plan is, and Failed with the error's message otherwise |
| `EnvironFsm.Engine.Complete` | lib/environ/internal/fsm/engine.go:133-150 | the returned error, the new log and the consumed outcomes are those of `CompleteRun` |
| `EnvironFsm.ChangeRecord` | lib/environ/internal/fsm/engine.go:154-163 | the record carries the given ID and time stamp, the operation's site domain as cluster name and its ID as operation ID, and the change's phase, new state and error |
| `EnvironFsm.ChangePhaseStateRun` | lib/environ/internal/fsm/engine.go:153-170 | the store's error is returned; exactly one change record is written when the store accepts it, under the operation's key, and it is the whole `ChangeRecord` of the operation, the change, the ID and the time stamp |
| `EnvironFsm.Engine.ChangePhaseState` | lib/environ/internal/fsm/engine.go:153-170 | the returned error, the new log and the consumed outcomes are those of `ChangePhaseStateRun` |
| `EnvironFsm.CommandArgs` | lib/environ/internal/fsm/engine.go:181-184 | the command line starts with exactly `system envars --phase <id>`, and is followed by `--force` if and only if the phase is forced |
| `EnvironFsm.Engine.RunCommand` | lib/environ/internal/fsm/engine.go:180-186 | the runner receives exactly one invocation on the given server with `CommandArgs`, and its error is returned |
| `EnvironFsm.Engine.GetPlan` | lib/environ/internal/fsm/engine.go:189-195 | the stored plan, or the error of the retried read; the write log is unchanged |
| `EnvironFsm.ExecutorFor` | lib/environ/internal/fsm/engine.go:208-229 | an executor results exactly when the phase ID starts with `/masters` or `/nodes`, and otherwise BadParameter `unknown phase <id>` with the ID quoted by `Quote`; the executor gets the params and the operation; its logger gets the plan's key and the phase field, and its server is set only when the phase has data, then to that data's server |
| `EnvironFsm.PhaseLogger` | lib/environ/internal/fsm/engine.go:210-219 | the executor's logger; its fields are stated by `ExecutorFor` |
| `EnvironFsm.DispatchByPrefix` | lib/environ/internal/fsm/engine.go:220-226 | dispatch is a plain prefix test without a separator: `/masters/node-1`, `/mastersfoo` and `/nodes` get an executor, `/node` does not, and `/init` is refused with the message `unknown phase "/init"` |
| `EnvironFsm.Engine.GetExecutor` | lib/environ/internal/fsm/engine.go:174-176 | the executor is built for the engine's operation; a refusal is always BadParameter |
| `EnvironFsm.Classify` | lib/environ/internal/fsm/engine.go:277-284 | a nil outcome succeeds; a connection-refused error is retried; any other error is permanent and keeps the error |
| `EnvironFsm.RetryFrom` | lib/environ/internal/fsm/engine.go:272-288 | from call k on, between 1 and budget + 1 calls are made, and the outcome of the last call is returned |
| `EnvironFsm.RetryRun` | lib/environ/internal/fsm/engine.go:272-288 | the same from the first call |
| `EnvironFsm.RetryFromStops` | lib/environ/internal/fsm/engine.go:272-288 | from any call on, retrying makes between 1 and budget + 1 calls; every call but the last was refused; the last outcome is returned; it stops early only on success or a permanent error |
| `EnvironFsm.RetryStops` | lib/environ/internal/fsm/engine.go:272-288 | the same characterisation from the first call |
| `EnvironFsm.RetryTransientThenSuccess` | lib/environ/internal/fsm/engine.go:272-286 | two refused connections followed by a success give success after exactly 3 calls |
| `EnvironFsm.RetryPermanentOnce` | lib/environ/internal/fsm/engine.go:284 | any error other than a refused connection is returned after exactly 1 call |
| `EnvironFsm.Retry` | lib/environ/internal/fsm/engine.go:272-286 | the loop's error and call count equal `RetryRun` |
| `EnvironFsm.Operator.RetriedWrite` | lib/environ/internal/fsm/engine.go:231-241 | a write runs under the retry policy; its error and the remaining outcomes are those of the policy; the write is logged exactly when the policy succeeds |
| `EnvironFsm.Operator.CreateProgressEntry` | lib/environ/internal/fsm/engine.go:231-235 | the retried write of a progress entry |
| `EnvironFsm.Operator.CreateOperationPlanChange` | lib/environ/internal/fsm/engine.go:237-241 | the retried write of a change record |
| `EnvironFsm.Operator.GetOperationPlan` | lib/environ/internal/fsm/engine.go:243-252 | the retried read: the stored plan when the policy succeeds, its error otherwise; nothing is written |
| `EnvironFsm.Operator.SetOperationState` | lib/environ/internal/fsm/engine.go:254-258 | the retried write of the operation state |
| `Common.Quote` | lib/environ/internal/fsm/engine.go:226 | Go's `%q`: the escaped string between double quotes; stated by `QuotePlain`, `EscapedLength`, `QuoteExamples` and `QuoteControlExamples` |
| `Common.EscapedChar` | lib/environ/internal/fsm/engine.go:226 | a plain character (printable ASCII other than the quote and the backslash, or any non-ASCII character) is copied; any other is written as an escape that starts with a backslash |
| `Common.QuotePlain` | lib/environ/internal/fsm/engine.go:226 | a string of plain characters is quoted as it is, between double quotes |
| `Common.EscapedLength` | lib/environ/internal/fsm/engine.go:226 | escaping never shortens a string, and lengthens it exactly when some character is not plain |
| `Common.QuoteExamples` | lib/environ/internal/fsm/engine.go:226 | a quote and a backslash inside the string are each written behind a backslash |
| `Common.QuoteControlExamples` | lib/autoscale/aws/discovery.go:77 | a newline is written as the `\n` escape and the escape character as `\x1b` |
| `Common.HostPortSuffix` | lib/ops/opsservice/endpoints.go:93 | `host:q` ends in `:p` exactly when ports q and p are equal, whatever the host |
| `Endpoints.Cross` | lib/ops/opsservice/endpoints.go:123-127 | the host-major product of hosts and ports; stated by `CrossMembers`, `CrossLength` and `AppendCross` |
| `Endpoints.NodePorts` | lib/ops/opsservice/endpoints.go:132-137 | the non-zero node ports; stated by `NodePortsMembers` and `NonEmptyNodePorts` |
| `Endpoints.NodeIPs` | lib/ops/opsservice/endpoints.go:139-149 | the node addresses of one type; stated by `NodeIPsMembers`, `NonEmptyNodeIPs` and `CollectNodeIPs` |
| `Endpoints.CrossMembers` | lib/ops/opsservice/endpoints.go:123-127 | the host-by-port product holds exactly the pairs of a listed host and a listed port |
| `Endpoints.CrossLength` | lib/ops/opsservice/endpoints.go:123-127 | the product has one address per host and port |
| `Endpoints.NodePortsMembers` | lib/ops/opsservice/endpoints.go:132-137 | the node ports are exactly the non-zero node ports of the spec ports |
| `Endpoints.NodeIPsMembers` | lib/ops/opsservice/endpoints.go:139-149 | the external (internal) IPs are exactly the addresses of that type some node reports |
| `Endpoints.NonEmptyNodePorts` | lib/ops/opsservice/endpoints.go:132-138 | there are node ports exactly when some spec port has a non-zero node port |
| `Endpoints.NonEmptyNodeIPs` | lib/ops/opsservice/endpoints.go:139-160 | there are IPs of a type exactly when some node reports an address of that type |
| `Endpoints.Addresses` | lib/ops/opsservice/endpoints.go:120-175 | the three tiers of `getAddresses`; what each tier yields is stated by `LoadBalancerTier`, `NodePortTier` and `ClusterIPTier` |
| `Endpoints.LoadBalancerTier` | lib/ops/opsservice/endpoints.go:122-129 | with any ingress the addresses are every ingress hostname with every spec port, ingress-major, and nothing else: node ports and the cluster IP are ignored |
| `Endpoints.NodePortTier` | lib/ops/opsservice/endpoints.go:131-167 | without ingress but with a node port and a node address, the result is the nodes' external IPs (their internal IPs only when no node has an external IP) with every non-zero node port, IP-major |
| `Endpoints.NodePortMembers` | lib/ops/opsservice/endpoints.go:139-167 | the node-port tier pairs exactly the node addresses of the chosen type with the non-zero node ports |
| `Endpoints.ClusterIPTier` | lib/ops/opsservice/endpoints.go:168-174 | with no ingress, and no node port or no node address, the result is the cluster IP with each spec port, in order |
| `Endpoints.GetAddresses` | lib/ops/opsservice/endpoints.go:120-175 | the loops return exactly `Addresses` (never an error) |
| `Endpoints.AppendCross` | lib/ops/opsservice/endpoints.go:152-156 | the nested host and port loops append exactly the host-major product |
| `Endpoints.AppendRow` | lib/ops/opsservice/endpoints.go:170-173 | the port loop appends one address per port, in order |
| `Endpoints.CollectNodeIPs` | lib/ops/opsservice/endpoints.go:140-149 | the node scan collects exactly the external and internal IPs, node-major |
| `Endpoints.AppendNodeIPs` | lib/ops/opsservice/endpoints.go:141-148 | the scan of one node appends its external and internal addresses in order |
| `Endpoints.PortMatchesIff` | lib/ops/opsservice/endpoints.go:93 | the suffix test keeps an address exactly when the endpoint port is 0 or the address is on that port |
| `Endpoints.Kept` | lib/ops/opsservice/endpoints.go:93-97 | what an endpoint keeps of one address; which addresses pass is stated by `PortMatchesIff` |
| `Endpoints.Selected` | lib/ops/opsservice/endpoints.go:91-98 | the filter over one service's addresses; stated by `SelectedMembers`, `SelectedAllPorts` and `SelectedAppend` |
| `Endpoints.SelectedMembers` | lib/ops/opsservice/endpoints.go:91-98 | the kept addresses are exactly those on the endpoint's port (all of them for port 0); each is prefixed `<protocol>://` when a protocol is given |
| `Endpoints.SelectedAllPorts` | lib/ops/opsservice/endpoints.go:91-98 | without a port every address is kept, one for one, in order |
| `Endpoints.SelectedAppend` | lib/ops/opsservice/endpoints.go:91-98 | the filter keeps address order: what is kept from a list split in two is what is kept from the first part, followed by what is kept from the rest |
| `Endpoints.KeepAddress` | lib/ops/opsservice/endpoints.go:93-97 | the filter body keeps and decorates exactly as `Kept` |
| `Endpoints.AppendSelected` | lib/ops/opsservice/endpoints.go:91-99 | the filter loop appends exactly `Selected` |
| `Endpoints.ListServices` | lib/ops/opsservice/endpoints.go:66-79 | when listing succeeds, the service list is absent exactly when there are no namespaces |
| `Endpoints.ListServicesOutcome` | lib/ops/opsservice/endpoints.go:66-79 | listing fails exactly when some namespace's listing fails, with the first such error; otherwise it holds exactly the services all namespaces returned |
| `Endpoints.ListServicesAppend` | lib/ops/opsservice/endpoints.go:66-79 | listing keeps namespace order and every service each listing returns: namespaces split in two list to the first part's error, else the second part's error, else the first part's services followed by the second part's (a part with none contributes nothing) |
| `Endpoints.FetchServices` | lib/ops/opsservice/endpoints.go:66-79 | the namespace loop returns exactly `ListServices` |
| `Endpoints.EndpointAddresses` | lib/ops/opsservice/endpoints.go:85-100 | the kept addresses of all services, service by service; stated by `EndpointAddressMembers`, `EndpointAddressesAppend`, `EndpointAddressesNonEmpty` and `GatherAddresses` |
| `Endpoints.EndpointAddressMembers` | lib/ops/opsservice/endpoints.go:85-100 | the endpoint's addresses are exactly those kept from some service's addresses |
| `Endpoints.EndpointAddressesAppend` | lib/ops/opsservice/endpoints.go:85-100 | the collection keeps service order: the addresses kept from earlier services come before those of later ones |
| `Endpoints.GatherAddresses` | lib/ops/opsservice/endpoints.go:85-100 | the service loop returns exactly the kept addresses of all services, service by service |
| `Endpoints.EndpointFor` | lib/ops/opsservice/endpoints.go:61-108 | a hidden entry contributes nothing; a visible one fails exactly when listing its services fails; an endpoint produced copies name and description and has at least one address; when one is produced is stated by `EndpointForProduced` |
| `Endpoints.EndpointForProduced` | lib/ops/opsservice/endpoints.go:85-108 | a visible entry whose services can be listed never fails, and it produces an endpoint exactly when services were found and one of them has an address on the entry's port (any address for port 0) |
| `Endpoints.EndpointAddressesNonEmpty` | lib/ops/opsservice/endpoints.go:85-100 | the addresses collected over the services found are non-empty exactly when some service has an address on the entry's port |
| `Endpoints.CollectedWitness` | lib/ops/opsservice/endpoints.go:85-100 | a collected address comes from a service address on the entry's port |
| `Endpoints.WitnessCollected` | lib/ops/opsservice/endpoints.go:85-100 | a service address on the entry's port is collected |
| `Endpoints.EndpointForAddresses` | lib/ops/opsservice/endpoints.go:85-108 | an endpoint produced holds exactly the addresses, on its port and with its protocol prefix, of the services its selector found |
| `Endpoints.EntryOutcome` | lib/ops/opsservice/endpoints.go:61-108 | the loop body for one entry yields exactly `EndpointFor` |
| `Endpoints.Gathered` | lib/ops/opsservice/endpoints.go:60-109 | never more endpoints than entries |
| `Endpoints.GatheredOutcome` | lib/ops/opsservice/endpoints.go:60-111 | gathering fails exactly when some entry failed, with the first error; otherwise it holds exactly the endpoints contributed |
| `Endpoints.CollectedOutcome` | lib/ops/opsservice/endpoints.go:60-111 | the same for the manifest: the first failing entry's error, or exactly the endpoints its entries produce |
| `Endpoints.Collected` | lib/ops/opsservice/endpoints.go:60-111 | never more endpoints than manifest entries |
| `Endpoints.GatheredAppend` | lib/ops/opsservice/endpoints.go:60-111 | gathering keeps manifest order: a list of outcomes split in two gathers to the first part's error, else the second part's error, else the first part's endpoints followed by the second part's |
| `Endpoints.CollectedAppend` | lib/ops/opsservice/endpoints.go:60-111 | the same for a manifest split in two: the endpoints of its first entries come first, and the first failing entry's error wins |
| `Endpoints.HiddenOnly` | lib/ops/opsservice/endpoints.go:61-64 | a manifest whose endpoints are all hidden yields no endpoints |
| `Endpoints.CollectEndpoints` | lib/ops/opsservice/endpoints.go:60-111 | the manifest loop returns exactly `Collected` |
| `Endpoints.ApplicationEndpoints` | lib/ops/opsservice/endpoints.go:35-112 | a site error is returned; a manifest without endpoints gives no endpoints before any client is needed; then the client, node-list and namespace-list errors are returned in that order; otherwise the result is the collection over the manifest |
| `Endpoints.Operator.GetKubeClient` | lib/ops/opsservice/endpoints.go:18-32 | a cached client is returned and kept; otherwise the outcome of building one is returned, and it is cached only on success |
| `Endpoints.Operator.GetApplicationEndpoints` | lib/ops/opsservice/endpoints.go:35-112 | the result is `ApplicationEndpoints` with the cached or newly built client; a client is cached only when the manifest has endpoints, none was cached, and building succeeds |
| `Discovery.NamedPort` | lib/autoscale/aws/discovery.go:69-75 | the port of the first spec port with the gravity port name; 0 when none has it; a non-zero result comes from the first match |
| `Discovery.IngressHostname` | lib/autoscale/aws/discovery.go:79-83 | the first non-empty ingress hostname; none exactly when every hostname is empty |
| `Discovery.ServiceURL` | lib/autoscale/aws/discovery.go:64-85 | the fetch error is passed on; with a non-zero first named port and a non-empty hostname the URL is `https://<hostname>:<port>`; a missing or zero port is NotFound, even with an ingress; no hostname is NotFound |
| `Discovery.LaterPortsIgnored` | lib/autoscale/aws/discovery.go:69-75 | ports appended after a match do not change the URL |
| `Discovery.URL` | lib/autoscale/aws/discovery.go:81 | `https://<hostname>:<port>`; its use is stated by `ServiceURL` |
| `Discovery.GetServiceURL` | lib/autoscale/aws/discovery.go:64-85 | the two scans return exactly `ServiceURL` |
| `Discovery.SyncDiscoveryRun` | lib/autoscale/aws/discovery.go:37-62 | at most two writes; the URL is written only second, after the token; a failed cluster lookup or token step writes nothing and reports an error; no error exactly when both are written; the error returned is that of the first failing step: the cluster lookup, the token lookup, the token write, the URL lookup, the URL write; when only the URL step fails, the token is already published |
| `Discovery.Autoscaler.PublishJoinToken` | lib/autoscale/aws/discovery.go:58 | the store's answer is returned, and the token is appended to the published values exactly when the store accepts it |
| `Discovery.Autoscaler.PublishServiceURL` | lib/autoscale/aws/discovery.go:92 | the store's answer is returned, and the URL is appended to the published values exactly when the store accepts it |
| `Discovery.Autoscaler.SyncToken` | lib/autoscale/aws/discovery.go:53-62 | a token lookup error is returned and nothing is published; otherwise the publish outcome is returned, and the token is published only on success |
| `Discovery.Autoscaler.SyncMasterService` | lib/autoscale/aws/discovery.go:87-93 | a URL lookup error is returned and nothing is published; otherwise the URL is published on success |
| `Discovery.Autoscaler.SyncDiscovery` | lib/autoscale/aws/discovery.go:37-51 | the error and the writes are those of `SyncDiscoveryRun` |

## Left out

- The calls to the Kubernetes API server are inputs, not calls:
  - the node, namespace and gravity-site service lookups are values of type `Result`;
  - the per-namespace service listing is a function from namespace and selector to a `Result`;
  - building a client is an outcome handed to `GetKubeClient`.
- The label selector is passed to that listing function as a map. `utils.MakeSelector` and label matching are not part of this model.
- Several calls into code that is not shown become inputs: `openSite`, `GetLocalSite` and `GetExpandToken` give their outcomes as inputs, and so do the AWS SSM writes behind `publishJoinToken` and `publishServiceURL`.
- `kubeMutex` is not modelled: locking is concurrency. Only the cached client field is modelled.
- The `PublishDiscovery` loop is not modelled: it is a timer-driven background loop with cancellation.
- The constant `GravityServicePortName` is not shown. It is the `portName` parameter.
- Other constants are defined in packages that are not shown. They are given these values:
  - `MastersPrefix` `/masters` and `NodesPrefix` `/nodes`, for `libphase.Masters` and `libphase.Nodes`;
  - `ComponentField` `trace.component`, for `trace.Component`;
  - `PhaseField` `phase`, for `constants.FieldPhase`;
  - `GravityServiceName` `gravity-site`, for `constants.GravityServiceName`.
  The contracts of `ExecutorFor` and `ServiceURL`, and the bodies of `DefaultLogger` and `PhaseLogger`, are stated in terms of these constants. Only the concrete IDs in `DispatchByPrefix` depend on their values.
- `Common.Escaped`: characters outside ASCII are copied as they are. Go's `%q` escapes the non-printable ones among them as `\u` or `\U` sequences, and Unicode printability is not part of this model. This affects only the messages of `EnvironFsm.ExecutorFor` and `Discovery.ServiceURL`.
- `Endpoints.Addresses`: an address is a host and port pair, printed as `host:port` by `Text` at the point where the source inspects or returns the string. Go's `%v` printing of an `int32` is modelled as decimal printing of an unbounded integer.
- `getAddresses` can never return an error. Its error return, and the test of that error in `GetApplicationEndpoints`, are therefore not modelled.
- Integers are unbounded. Ports are `int32` in the API, and the completion is a Go `int`; nothing modelled overflows at realistic sizes.
- `retry` has a 5-minute wall-clock ceiling, exponential back-off intervals and context cancellation. The model replaces all three with `retries`, the number of retries the ceiling allows. When that budget runs out, the last refused-connection error is returned. A call past the end of the scripted outcomes succeeds.
- `utils.IsConnectionRefusedError` is not part of this model. It is the `ConnectionRefused` error kind.
- The retrying operator's backend is scripted:
  - each call consumes one outcome;
  - a failed attempt stores nothing;
  - the store holds the single plan of the engine's operation, and the change records written do not alter that plan.
- `FindPhase` and `IsCompleted` come from the generic state machine package, which is not shown. They are defined here from its documented behaviour:
  - lookup takes the first match in the pre-order flattening of the plan;
  - completion means every leaf phase is Completed.
  The failure message of `FindPhase` is the model's own wording.
- The generic scheduler is not modelled: `libfsm.New`, `SetPreExec` and the dependency order of phases.
- `libphase.NewSync` is not modelled. The executor is the arguments handed to it, and its own possible error is not modelled.
- The `Emitter` and `Silent` configuration fields are output-only and not modelled. Neither is the logger's `Operator` field.
- `ops.CompleteOperation` and `ops.FailOperation` are not part of this model. Each is one retried `SetOperationState` with the final state. The progress entry they attach to the request is not modelled.
- `Complete` with a nil error on an incomplete plan is excluded by the precondition `CompleteDefined`. That case would cause Go's nil dereference in `trace.Unwrap(fsmErr).Error()`.
- `trace.Wrap` and `trace.Unwrap` are identity on errors. `utils.ToRawTrace` is not applied: the change record stores the error as is.
- `time.Now()` and `uuid.New()` are parameters (`created`, `id`). Logging is not modelled, apart from the logger value: its fields, key and server.
