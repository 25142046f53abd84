# k8snetlook, modelled in Dafny

k8snetlook is a network debugging tool for Kubernetes clusters. It runs a set
of checks from the host and then from inside a source pod's network namespace:
- ICMP reachability of the default gateway, a destination pod and an external IP;
- HTTPS reachability of the API server through its service IP and through each of its endpoints;
- the API server's liveness endpoint, queried with the default service account's token;
- DNS resolution of cluster services against kube-dns;
- path-MTU discovery towards a destination.

It then prints a pass/fail report.

This project models the core of that tool in Dafny and proves properties of
the model:
- **ICMP prober** (`netutils/icmputil.go`). It builds the echo request (signature, padding, Don't Fragment bit, IPv6 identifier) and reads at most ten replies, classifying them into return codes 0 (echo reply), 1 (fragmentation required), 2 (nothing matching) or -1 with an error.
- **Path-MTU discovery** (`netutils/pmtuprobe.go`). It does a binary search over the payload size, with the ICMP probe as an oracle.
- **DNS lookup** (`netutils/dnsutil.go`). It builds the query, checks the RCODE and filters the A records. The gateway lookup (`netutils/netutils.go`) finds the first route that has a gateway.
- **Older helpers** (`k8snetlook/netutils.go`). These are the gateway lookup, a two-try ping and the DNS lookup, all used by `host.go`.
- **Kubernetes lookups** (`k8snetlook/kube.go`). This covers client construction, the single-object lookups with their fallbacks, the service-account token, and the flattening of an Endpoints object into (address, port) pairs.
- **Initialisation** (`k8snetlook/init.go`). `InitK8sInfo` fills in the global configuration; `getPodNetnsHandle` handles the `docker://` prefix and its exit paths; `Cleanup` releases the handle at most once.
- **Checks** (`k8snetlook/checkers.go`). Every `Run*Check` maps probe results to a (pass, error) pair; the per-endpoint checks require every endpoint to pass.
- **Host phase** (`k8snetlook/host.go`, an older revision). Four checks each bump a global counter at most once.
- **Pod phase** (`k8snetlook/pod.go`). This is a state machine: lock the OS thread, capture the host namespace, switch to the pod, run the checks, switch back, and release the handle and the thread. Its events are recorded as a trace.
- **Report** (`k8snetlook/common.go`). The pass counts are computed by scanning, the log lines are those `PrintReport` emits, and the JSON has a fallback message.

Go's `(T, error)` pairs are modelled as `Ret<T>(val, err)`, and a nil error as `None`.
Every call into the operating system, the network, the Kubernetes API, Docker
or the clock is a parameter of the model, as an oracle:
- **ICMP:** the raw sockets are `IcmpUtil.Wire` and `LegacyNetUtils.PingWire`, which hold the send error and the sequence of read events. Reading past the end of that sequence means the read deadline passed.
- **HTTP and DNS:** the HTTP helper is `Base.HttpGetter` and `dns.Exchange` is `DnsUtil.Exchanger`.
- **Kubernetes, Docker, routing:** the Kubernetes API's `Get` calls are `Kube.KubeApi`, and the lookups `init.go` makes are `Init.Cluster`. The route list is a `Result<seq<Route>>`.
- **Namespaces and check outcomes:** the namespace calls and the outcome of each pod check are `Pod.PodEnv`.
- **Random draws:** `rand.Intn`, `dns.Id()` and `os.Getpid()` are parameters.

The Go files are not one linked program: `init.go`, `host.go` and `pod.go`
call helpers with other signatures than those of `kube.go`, `checkers.go`
and `netutils/` (for example, `init.go:60-62` uses single-value returns where
`kube.go:41` and `netutils/netutils.go:12` return pairs). Each file is
therefore modelled on its own terms against the helpers it calls.

Modules:
- Shared values: `Base`.
- The `netutils/` package: `IcmpUtil`, `PmtuProbe`, `DnsUtil`, `NetUtils`.
- The `k8snetlook/` package: `Init`, `Kube`, `LegacyNetUtils`, `Checkers`, `Host`, `Pod`, `Common`.

## Model

| member | source | states |
|---|---|---|
| IcmpUtil.RequestShape | netutils/icmputil.go:50-54 | The request is addressed to the destination. Its data is the 20-byte signature followed only by zeros. It is IPv4 exactly when the address has a 4-byte form. IPv4 data is the payload size raised to at least 64, with the Don't Fragment bit set exactly when asked. IPv6 data plus the 8-byte ICMP header equals that size. The IPv6 identifier lies in [5000, 32000) and the sequence number is 1. |
| IcmpUtil.ReadReplies | netutils/icmputil.go:70-106 | The read loop of either family returns exactly the outcome that the ten-read specification `ReplyOutcome` assigns to the events read. |
| IcmpUtil.ReplyOutcomeCodes | netutils/icmputil.go:71-106 | The loop only ever returns -1, 0, 1 or 2, and it carries an error exactly when the code is -1. |
| IcmpUtil.EchoReplyIff | netutils/icmputil.go:84-95 | Code 0 comes back exactly when some read, before any decisive event, is an echo reply whose body contains the signature. Unsigned echo replies are skipped. |
| IcmpUtil.FragmentationIff | netutils/icmputil.go:96-100 | Code 1 comes back exactly when the first decisive event is a fragmentation-needed message. For ICMPv4 that is Destination Unreachable with code 4; for ICMPv6 it is any Packet Too Big. |
| IcmpUtil.BudgetExhaustedIff | netutils/icmputil.go:104-106 | Code 2 comes back exactly when none of the ten reads is decisive. |
| IcmpUtil.OnlyTenReads | netutils/icmputil.go:71 | Events after the tenth never affect the outcome. |
| IcmpUtil.TestScenarios | netutils/icmputil_test.go:7-27 | With nothing arriving, the result is -1 and "ICMP timeout". When the loopback echo request is read back first and the signed reply second, the result is (0, nil). |
| IcmpUtil.SendRecvIcmpMessage | netutils/icmputil.go:33-65 | The probe returns `ProbeOutcome`, which dispatches on the address family. A listen error becomes -1 with a wrapped error. An IPv4 send error is returned unchanged; an IPv6 send error is wrapped. Otherwise the result is the read loop's outcome. |
| IcmpUtil.OpErrorOnlyFromIPv4 | netutils/icmputil.go:63-65 | An OpError reaches the caller only from the IPv4 send path, and always with code -1. |
| IcmpUtil.FailureMessagesPlain | netutils/icmputil.go:73-83 | The read, timeout and parse failures inside the loop are plain messages, never an OpError. |
| IcmpUtil.ProbeArgumentsIgnored | netutils/icmputil.go:170-182 | The IPv6 path ignores dontFragment. On both paths, any payload size below 64 behaves exactly as 64. |
| PmtuProbe.Midpoint | netutils/pmtuprobe.go:28 | The midpoint lies within the current bounds. |
| PmtuProbe.PmtuProbeToDestIp | netutils/pmtuprobe.go:17-57 | The floor probe and the binary-search loop return exactly `PathMtu`, the recursive specification of the search. |
| PmtuProbe.FloorFailure | netutils/pmtuprobe.go:21-24 | An error or code 1 at the 28-byte floor returns -1 with that probe's error, which is nil for code 1. |
| PmtuProbe.SearchBounds | netutils/pmtuprobe.go:27-55 | From consistent bounds, the search fails exactly when it reports -1. A search that succeeds reports at most 9000, and at least the best size so far plus the 28 header bytes. |
| PmtuProbe.PathMtuBounds | netutils/pmtuprobe.go:17-57 | A failed discovery returns -1. A discovery without error returns an MTU in [56, 9000], or -1 when even the 28-byte floor needed fragmentation. |
| PmtuProbe.SearchReportsWorkingSize | netutils/pmtuprobe.go:46-54 | The reported size is the floor or a size whose probe moved the search higher. |
| PmtuProbe.SearchFindsThreshold | netutils/pmtuprobe.go:27-55 | Suppose payloads up to T are echoed and larger ones need fragmentation. Then the search, started from any consistent bounds, reports T + 28. |
| PmtuProbe.MonotonePathExact | netutils/pmtuprobe.go:17-57 | On such a path, discovery returns exactly T + 28. |
| DnsUtil.Fqdn | netutils/dnsutil.go:50 | The result ends with a dot and starts with the name. A name that already ends with a dot is unchanged. |
| DnsUtil.FqdnIdempotent | netutils/dnsutil.go:50 | Making a name fully qualified twice gives the same result as doing it once. |
| DnsUtil.BuildQuery | netutils/dnsutil.go:45-51 | The query has exactly one question: QTYPE A, QCLASS IN, the fully qualified name, and RD set. |
| DnsUtil.ARecordsFacts | netutils/dnsutil.go:66-71 | Extraction yields at most one entry per answer record, and one per record when all are A records. Every entry is the text of some A record. |
| DnsUtil.ARecordsComplete | netutils/dnsutil.go:66-71 | Every A record of the answer is extracted. |
| DnsUtil.ARecordsAppend | netutils/dnsutil.go:67-71 | Extraction keeps answer order: it distributes over concatenation. |
| DnsUtil.RunDnsLookupUsingCustomResolver | netutils/dnsutil.go:41-73 | The answer loop returns exactly `LookupOutcome`. |
| DnsUtil.LookupOutcomes | netutils/dnsutil.go:54-72 | An exchange error gives (nil, err). A non-NOERROR RCODE gives an empty non-nil list and an error naming the RCODE. Otherwise the error is nil and the list holds the A records, no more of them than the answer has. |
| NetUtils.FirstGatewayFrom | netutils/netutils.go:17-22 | A found index is in range and its route has a gateway. |
| NetUtils.FirstGatewayFromFacts | netutils/netutils.go:17-23 | Every route skipped has no gateway. Nothing is found only when no route has one. |
| NetUtils.GatewayChoice | netutils/netutils.go:12-24 | A listing error is returned with "". Otherwise the result is the gateway of the first route that has one. If no route has one, the result is "" with the fixed error. |
| Init.StripDockerPrefix | k8snetlook/init.go:84 | A leading "docker://" is removed. An ID without that prefix is unchanged. |
| Init.StripDockerPrefixOnce | k8snetlook/init.go:84 | Exactly one occurrence of the prefix is removed. |
| Init.InitializedConfigFields | k8snetlook/init.go:59-75 | The API and DNS service endpoints and the gateway are always written. A named source pod gets its IP looked up; an unnamed one keeps its IP and gets handle -1. The destination pod's handle is always -1, and its IP changes only when it is named. The destination service's endpoint changes only when it is named. Names, the external IP and the kubeconfig path are kept. |
| Init.Process.Cleanup | k8snetlook/init.go:105-109 | The source pod's handle is closed only if it is open, and is then -1. |
| Init.Process.GetPodNetnsHandle | k8snetlook/init.go:77-103 | The process exits exactly when some lookup fails. An empty container ID or a failed namespace lookup runs Cleanup first; Docker client and inspect failures do not. On success the handle is returned and nothing else changes. |
| Init.Process.InitK8sInfo | k8snetlook/init.go:59-75 | The process exits exactly when a named source pod's handle cannot be obtained. Otherwise the configuration becomes `InitializedConfig`. No handle is closed. |
| Init.CleanupReleasesOnce | k8snetlook/init.go:105-109 | Running Cleanup twice closes the handle at most once and leaves it closed. |
| Kube.InitKubernetesClient | k8snetlook/kube.go:17-39 | Without an in-cluster config and with no kubeconfig path, the result is the fixed error. A kubeconfig error is returned as is. Once a configuration is obtained (in-cluster first, else from the kubeconfig), the result is exactly `NewForConfig`'s outcome, client or error, on that configuration with its timeout set to 4 seconds. |
| Kube.GetServiceClusterIp | k8snetlook/kube.go:41-49 | An API error gives the zero Endpoint with that error. Otherwise the result is the cluster IP with one of the service's ports. |
| Kube.ServiceClusterIpFirstPortOnly | k8snetlook/kube.go:47-48 | The port is the first one, and later ports never matter. |
| Kube.GetPodIpFromName | k8snetlook/kube.go:51-59 | The result is the pod's IP, or "" when the pod cannot be fetched. |
| Kube.GetContainerIdFromPod | k8snetlook/kube.go:61-70 | The result is a container ID of the pod, or "" when the pod cannot be fetched. |
| Kube.ContainerIdIsFirst | k8snetlook/kube.go:68-69 | The ID is that of the first container status. |
| Kube.GetSvcAccountToken | k8snetlook/kube.go:89-99 | Each failed fetch gives "" and its own error message. Otherwise the result is the "token" entry of the first secret of the default service account, or "" when the secret has none. |
| Kube.GetEndpointsFromService | k8snetlook/kube.go:72-87 | An API error gives the empty list. Otherwise the triple loop returns `Flatten` of the subsets. |
| Kube.FlattenLength | k8snetlook/kube.go:79-85 | The list has one entry per (address, port) pair of every subset. |
| Kube.AddressesForAt | k8snetlook/kube.go:80-84 | Within a subset, address a with port p is at index a·\|ports\| + p. |
| Kube.FlattenAt | k8snetlook/kube.go:79-85 | Subset i's pairs follow those of all earlier subsets, ordered address-major. |
| Kube.FlattenAppend | k8snetlook/kube.go:79-85 | The list of several subsets is the concatenation of their lists. |
| Kube.FlattenMembers | k8snetlook/kube.go:79-85 | Nothing is invented: every entry pairs an address with a port of the same subset. |
| LegacyNetUtils.LegacyGatewayAgrees | k8snetlook/netutils.go:25-36 | The older lookup returns the same address as `GetHostGatewayIP` in netutils/netutils.go. It returns "" exactly where that one returns an error. |
| LegacyNetUtils.Request | k8snetlook/netutils.go:46-52 | The echo request has type 8, code 0, sequence number 1, the low 16 bits of the PID as identifier, and the 20 bytes "K8SNETLOOK-R-U-THERE" as data. |
| LegacyNetUtils.ReadReplies | k8snetlook/netutils.go:66-90 | The two-try loop returns exactly `PingOutcome`. |
| LegacyNetUtils.SendRecvIcmpMessage | k8snetlook/netutils.go:38-91 | The ping returns `PingResult`. Listen and send errors are wrapped; otherwise the result is the two-try loop's outcome. |
| LegacyNetUtils.PingNeverPassesWithError | k8snetlook/netutils.go:66-90 | A true result never carries an error. |
| LegacyNetUtils.PingEchoIff | k8snetlook/netutils.go:79-83 | The result is (true, nil) exactly when an echo reply with any body is read within two tries, before any failure. |
| LegacyNetUtils.PingSkippedIff | k8snetlook/netutils.go:84-90 | The result is (false, nil) exactly when both reads are other ICMP types. |
| LegacyNetUtils.OnlyTwoReads | k8snetlook/netutils.go:66 | Packets after the second never matter. |
| LegacyNetUtils.PingTestScenarios | k8snetlook/netutils_test.go:7-27 | With nothing arriving, the result is "ICMP timeout". When the echo request is read back first and then the reply, the result is (true, nil). |
| LegacyNetUtils.RunDnsLookupUsingCustomResolver | k8snetlook/netutils.go:141-173 | The older lookup behaves as the one in dnsutil.go, and every address it returns is the text of an A record of the answer. |
| Checkers.IcmpVerdict | k8snetlook/checkers.go:17-26 | The probe's error is returned as is, and the check passes exactly on (0, nil). |
| Checkers.RunGatewayConnectivityCheck | k8snetlook/checkers.go:14-27 | A 64-byte DF probe goes to the host gateway. The probe's error is passed through, and the check passes exactly on (0, nil). |
| Checkers.RunDstConnectivityCheck | k8snetlook/checkers.go:30-42 | The same verdict, for a probe to the destination IP. |
| Checkers.IcmpChecksClean | k8snetlook/checkers.go:17-26 | A pass never carries an error. Codes 1 and 2 fail without one. |
| Checkers.RunKubeApiServiceIpConnectivityCheck | k8snetlook/checkers.go:45-61 | Any HTTP answer to https://ip:port passes, whatever its status. Only a failed request fails, with its error. |
| Checkers.CountResponding | k8snetlook/checkers.go:72-88 | The loop counts exactly the endpoints that answered, and a failure skips to the next endpoint. |
| Checkers.RunKubeApiEndpointIpConnectivityCheck | k8snetlook/checkers.go:64-95 | No endpoints gives the fixed error. Otherwise the error is nil, and the check passes exactly when every endpoint answered. |
| Checkers.RunApiServerHealthCheck | k8snetlook/checkers.go:98-118 | A token error or a failed request fails with that error. The check passes exactly on HTTP 200 to the liveness URL, sent with the token. |
| Checkers.ServiceFqdn | k8snetlook/checkers.go:124 | The service name is already fully qualified. |
| Checkers.RunK8sDnsLookupCheck | k8snetlook/checkers.go:121-139 | The early-return scan gives the lookup's error, or whether the expected IP is among the addresses returned. |
| Checkers.DnsCheckIff | k8snetlook/checkers.go:121-139 | The query asks for exactly the service's cluster-local name. The check fails with an error exactly on an exchange error or a non-NOERROR reply. It passes exactly when some A record of the answer reads the expected IP. |
| Checkers.RunMtuProbeToDstIpCheck | k8snetlook/checkers.go:142-166 | The check passes exactly when path-MTU discovery returned no error and the interface listing succeeded. |
| Checkers.MtuCheckPassesWithoutWorkingSize | k8snetlook/checkers.go:143-165 | On a path where even the floor needs fragmentation, discovery gives (-1, nil) and the check still passes. |
| Checkers.StrictMtuVerdictSound | k8snetlook/checkers.go:142-166 | Under the corrected verdict, a pass means discovery found an MTU in [56, 9000]. The corrected verdict differs from the written one only on -1. |
| Checkers.RunDstSvcEndpointsConnectivityCheck | k8snetlook/checkers.go:169-194 | No endpoints gives the fixed error. Otherwise the error is nil, and the check passes exactly when every probe returned code 0. |
| Host.CountAnswered | k8snetlook/host.go:67-84 | The loop counts exactly the endpoints that answered. |
| Host.HostPassCountBound | k8snetlook/host.go:16-24 | A host run adds at most 4 to the counter, and exactly 4 only when every check passes. |
| Host.EndpointCheckPassesWithNoEndpoints | k8snetlook/host.go:65-90 | When the Endpoints object cannot be fetched, the list is empty and the endpoint check passes. |
| Host.HostChecks.RunGatewayConnectivityCheck | k8snetlook/host.go:26-39 | The counter rises by one exactly when the ping returns (true, nil). |
| Host.HostChecks.RunKubeApiServiceIpConnectivityCheck | k8snetlook/host.go:41-59 | The counter rises by one exactly when the request to https://ip:port gets any answer. |
| Host.HostChecks.RunKubeApiEndpointIpConnectivityCheck | k8snetlook/host.go:61-91 | The counter rises by one exactly when every endpoint answered. |
| Host.HostChecks.RunApiServerHealthCheck | k8snetlook/host.go:93-114 | The counter rises by one exactly when the token is fetched and the liveness request returns 200. |
| Host.HostChecks.RunHostChecks | k8snetlook/host.go:16-24 | All four checks run in order. The counter rises by `HostPassCount`, between 0 and 4. |
| Pod.ChecksForCount | k8snetlook/pod.go:22 | TotalPodChecks is 4, plus 2 for a destination pod, 2 for an external IP and 1 for a destination service: between 4 and 9. The first four checks are the fixed ones, in order. |
| Pod.PassCountBound | k8snetlook/pod.go:43-74 | The passing count rises by at most the number of checks run, and by exactly that number only when all of them pass. |
| Pod.PodTraceBracketed | k8snetlook/pod.go:24-25 | On every path the thread is locked first and unlocked last, once each. |
| Pod.NoCheckWithoutSwitch | k8snetlook/pod.go:28-39 | No check runs if the namespace capture or the switch failed. |
| Pod.ChecksInsidePodNamespace | k8snetlook/pod.go:36-78 | Every check runs after the switch to the pod and before the switch back to the captured handle. The switch back is always made. |
| Pod.OnlyHostHandleClosed | k8snetlook/pod.go:28-33 | The only handle closed is the captured host handle. It is closed exactly once when it was obtained, and never otherwise. |
| Pod.PodRunner.RunCheck | k8snetlook/pod.go:43-50 | One check is recorded in the trace and counted once when it passes. |
| Pod.PodRunner.RunTargetChecks | k8snetlook/pod.go:52-68 | For a configured target, TotalPodChecks is raised before each of the connectivity and MTU checks. Nothing happens otherwise. |
| Pod.PodRunner.RunDstSvcChecks | k8snetlook/pod.go:70-75 | The destination service's DNS check runs and is counted only when its IP is known. |
| Pod.PodRunner.RunChecksInPod | k8snetlook/pod.go:42-75 | The checks of `ChecksFor` run in order. TotalPodChecks ends at their number, and the passing count rises by the number that passed. |
| Pod.PodRunner.RunInPodAndReturn | k8snetlook/pod.go:77-78 | After the checks, the thread switches back to the host handle. The namespace is restored only if that switch succeeds. The host handle is then closed and the thread unlocked. |
| Pod.PodRunner.RunPodChecks | k8snetlook/pod.go:15-81 | The trace is `PodTrace` and the lock depth is restored. TotalPodChecks is the number of checks when the switch succeeded, else 4. The passing count rises only by the checks run. The namespace is back to the host's whenever the final switch succeeds. |
| Common.ListChecks | k8snetlook/common.go:15-22 | One line " ok \|fail\tname\n" per check, and a count of exactly the checks that passed. |
| Common.PrintReport | k8snetlook/common.go:10-43 | The log is `ReportLog`, and the counts are the number of passing checks in each section. The report is only read. |
| Common.PrintReportTwice | k8snetlook/common.go:14-40 | Two calls on the same results give the same log and counts. |
| Common.GetReportJson | k8snetlook/common.go:46-52 | The marshalled JSON is returned, or the fixed fallback message when marshalling fails. |
| Common.PassedBounds | k8snetlook/common.go:38-39 | Each pass count is at most its section's length, and equals it exactly when every check passed. |
| Common.PassedIsPassing | k8snetlook/common.go:14-22 | The count equals the number of checks with Success set. |
| Common.TotalIsJoined | k8snetlook/common.go:40 | The total line is the count over both sections together, out of their joint length. |
| Common.PodListingIff | k8snetlook/common.go:24-39 | The pod header appears exactly when the pod section is non-empty. The pod and total summary lines are always logged. |

## Left out

- Raw sockets, packet serialization and checksums (`sendICMPMessageV4`, `icmp.Message.Marshal`) are left out. The request is modelled as the fields it carries, and the socket as the events it yields.
- The read buffer of payload size (`icmputil.go:67`), which may truncate a reply, is not modelled. Each read yields a whole parsed message or a parse error.
- Read deadlines are left out. A read past the events supplied is a timeout.
- `net.ParseIP` is left out. The parsed bytes are a parameter, and `To4` is modelled on them.
- `rand.Intn`, `dns.Id()` and `os.Getpid()` are parameters rather than draws.
- `netutils.SendRecvHTTPMessage` and the older `sendRecvHTTPMessage` are not part of this model. They are the oracle `Base.HttpGetter` from (url, token) to (status, error).
- The client-go calls and `rest.InClusterConfig` are oracles (`Kube.KubeApi` and parameters). So are the Docker client, `netns.GetFromPid`, `netlink.RouteList`, `netns.Get`/`netns.Set` and `runtime.LockOSThread` (`Init.Cluster`, `Pod.PodEnv`). Their operating-system semantics are not modelled.
- The `os.Exit(1)` calls are modelled as a flag. `InitKubeClient` (`init.go:50-57`) calls `getKubernetesClient`, which is not part of this model; `Kube.InitKubernetesClient` models `kube.go`'s `initKubernetesClient` instead.
- The panics on `Ports[0]`, `ContainerStatuses[0]` and `Secrets[0]` are stated as preconditions (`Kube.GetServiceClusterIp`, `Kube.GetContainerIdFromPod`, `Kube.GetSvcAccountToken`). A negative `make` length on the IPv6 path is stated the same way (`IcmpUtil.PayloadV6`).
- The marshalling error of the IPv6 and older echo messages is not modelled. Marshalling an echo message does not fail for the values built here.
- JSON marshalling in `GetReportJSON` is an oracle.
- The `net.Interfaces()` scan in `RunMTUProbeToDstIPCheck` only logs, so only its error is modelled.
- All logging and printing are left out, apart from the report lines of `PrintReport`.
- The commented-out resolvers (`dnsutil.go:9-33`, `k8snetlook/netutils.go:111-135`) are left out.
- `cmd/k8snetlook/main.go` (flag parsing, dispatch) and `logutil/logutil.go` are UI plumbing and are left out.
- `DnsUtil.Fqdn` does not model `dns.Fqdn`'s handling of an escaped final dot.
- The pod phase is not linked to the check functions of `checkers.go`. Its checks take a pointer to the counter, a signature none of the checks in `checkers.go` has. Each check's outcome is the oracle `PodEnv.passes`.
- The host phase's ping, HTTP and token calls are linked to the modelled older helpers.
- Pod.PodRunner.RunPodChecks: a failed `Close` of the host handle is not modelled. netns returns the close(2) error, but the deferred call at `pod.go:33` discards it, so only the close attempt is recorded.
- Init.Process.Cleanup: a failed `Close` is not modelled. netns resets the handle to -1 only when close(2) succeeds, and `init.go:107` discards the error. On a failed close the handle would stay open, and a second `Cleanup` would retry. The model always resets it, so `Init.CleanupReleasesOnce` holds only for closes that succeed.
- Pod.PodEnv: the oracle `passes` is keyed by the check's value, not by its position. Two equal checks therefore get the same outcome. With a destination pod IP equal to the external IP, `pod.go:55` and `pod.go:64` probe the same address twice and could see different results; the model does not capture that.
- Init.Process.GetPodNetnsHandle: the handle value is whatever `netns.GetFromPid` returns; its validity is not checked.

## Findings

| source | as written | input that shows it | evidently intended | confidence | as-written member | corrected member |
|---|---|---|---|---|---|---|
| k8snetlook/host.go:65-90 | With zero endpoints, `passedCount == totalCount` holds as 0 == 0, so the endpoint check passes. This includes the case where the Endpoints object could not be fetched at all. | Endpoints Get for default/kubernetes returns an error | No endpoints is a failure, as the later revision in checkers.go:69-71 returns | not executed | Host.EndpointCheckPassesWithNoEndpoints | Checkers.RunKubeApiEndpointIpConnectivityCheck |
| k8snetlook/checkers.go:143-165 | `RunMTUProbeToDstIPCheck` only looks at the error. A code-1 reply at the 28-byte floor makes `PMTUProbeToDestIP` return (-1, nil) (pmtuprobe.go:22-23), and the check passes reporting MTU -1. | A prober that always returns (1, nil) | A discovery that found no working size fails the check | not executed | Checkers.MtuCheckPassesWithoutWorkingSize | Checkers.StrictMtuVerdictSound |
