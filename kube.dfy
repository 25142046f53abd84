/** k8snetlook/kube.go: the Kubernetes API lookups. The API server's answers
    to Get calls are the oracle KubeApi; an API object is reduced to the
    fields the lookups read. */
module Kube {
  import opened Base
  import opened Init

  const InClusterTimeoutSeconds := 4
  const NoInClusterConfig := "Not running in Pod & kubeconfig not specified using -config flag"

  /** A REST client configuration, reduced to its request timeout. */
  datatype RestConfig = RestConfig(host: string, timeoutSeconds: int)

  /** A clientset built from a configuration. */
  datatype Clientset = Clientset(config: RestConfig)

  datatype ServiceObject = ServiceObject(clusterIp: string, ports: seq<int>)
  datatype PodObject = PodObject(podIp: string, containerIds: seq<string>)
  datatype EndpointSubset = EndpointSubset(addresses: seq<string>, ports: seq<int>)
  datatype EndpointsObject = EndpointsObject(subsets: seq<EndpointSubset>)
  datatype ServiceAccount = ServiceAccount(secretNames: seq<string>)
  datatype Secret = Secret(data: map<string, string>)

  /** Get(namespace, name) on each resource the lookups read. */
  datatype KubeApi = KubeApi(
    services: (string, string) -> Result<ServiceObject>,
    pods: (string, string) -> Result<PodObject>,
    endpoints: (string, string) -> Result<EndpointsObject>,
    serviceAccounts: (string, string) -> Result<ServiceAccount>,
    secrets: (string, string) -> Result<Secret>)

  // ---------------------------------------------------------------------------
  // Client construction

  /** initKubernetesClient: the in-cluster configuration, else the kubeconfig
      named on the command line, with a 4-second timeout; `fromFlags` and
      `newForConfig` are clientcmd.BuildConfigFromFlags and
      kubernetes.NewForConfig. */
  function InitKubernetesClient(inCluster: Result<RestConfig>, kubeconfigPath: string,
                                fromFlags: string -> Result<RestConfig>,
                                newForConfig: RestConfig -> Result<Clientset>): (r: Result<Clientset>)
    ensures inCluster.Err? && kubeconfigPath == "" ==> r == Err(Plain(NoInClusterConfig))
    ensures inCluster.Err? && kubeconfigPath != "" && fromFlags(kubeconfigPath).Err? ==> r == Err(fromFlags(kubeconfigPath).error)
    ensures inCluster.Ok? ==> r == newForConfig(inCluster.value.(timeoutSeconds := InClusterTimeoutSeconds))
    ensures inCluster.Err? && kubeconfigPath != "" && fromFlags(kubeconfigPath).Ok? ==>
      r == newForConfig(fromFlags(kubeconfigPath).value.(timeoutSeconds := InClusterTimeoutSeconds))
    ensures r.Ok? ==> exists c: RestConfig ::
      c.timeoutSeconds == InClusterTimeoutSeconds && r == newForConfig(c)
      && (inCluster.Ok? ==> c == inCluster.value.(timeoutSeconds := InClusterTimeoutSeconds))
      && (inCluster.Err? ==> c == fromFlags(kubeconfigPath).value.(timeoutSeconds := InClusterTimeoutSeconds))
  {
    var config :=
      if inCluster.Ok? then Ok(inCluster.value)
      else if kubeconfigPath == "" then Err(Plain(NoInClusterConfig))
      else fromFlags(kubeconfigPath);
    match config
    case Err(e) => Err(e)
    case Ok(c) => newForConfig(c.(timeoutSeconds := InClusterTimeoutSeconds))
  }

  // ---------------------------------------------------------------------------
  // Single-object lookups

  /** getServiceClusterIP: the cluster IP with the FIRST port only; an API
      error gives the zero Endpoint and that error. */
  function GetServiceClusterIp(api: KubeApi, namespace: string, serviceName: string): (r: Ret<Endpoint>)
    requires api.services(namespace, serviceName).Ok? ==> |api.services(namespace, serviceName).value.ports| > 0
    ensures api.services(namespace, serviceName).Err? ==>
      r == Ret(Endpoint("", 0), Some(api.services(namespace, serviceName).error))
    ensures api.services(namespace, serviceName).Ok? ==>
      var svc := api.services(namespace, serviceName).value;
      r.err.None? && r.val.ip == svc.clusterIp && r.val.port in svc.ports
  {
    match api.services(namespace, serviceName)
    case Err(e) => Ret(Endpoint("", 0), Some(e))
    case Ok(svc) => Ret(Endpoint(svc.clusterIp, svc.ports[0]), None)
  }

  /** Only the first port is reported: the ports after it do not affect the
      result. */
  lemma ServiceClusterIpFirstPortOnly(api: KubeApi, api': KubeApi, namespace: string, serviceName: string)
    requires api.services(namespace, serviceName).Ok? && api'.services(namespace, serviceName).Ok?
    requires var s, s' := api.services(namespace, serviceName).value, api'.services(namespace, serviceName).value;
      s.clusterIp == s'.clusterIp && |s.ports| > 0 && |s'.ports| > 0 && s.ports[0] == s'.ports[0]
    ensures GetServiceClusterIp(api, namespace, serviceName) == GetServiceClusterIp(api', namespace, serviceName)
    ensures GetServiceClusterIp(api, namespace, serviceName).val.port == api.services(namespace, serviceName).value.ports[0]
  {
  }

  /** getPodIPFromName: the pod's IP, or "" when the pod cannot be fetched. */
  function GetPodIpFromName(api: KubeApi, namespace: string, podName: string): (ip: string)
    ensures api.pods(namespace, podName).Err? ==> ip == ""
    ensures api.pods(namespace, podName).Ok? ==> ip == api.pods(namespace, podName).value.podIp
  {
    match api.pods(namespace, podName)
    case Err(_) => ""
    case Ok(pod) => pod.podIp
  }

  /** getContainerIDFromPod: the ID of the pod's first container status, or ""
      when the pod cannot be fetched. */
  function GetContainerIdFromPod(api: KubeApi, namespace: string, podName: string): (id: string)
    requires api.pods(namespace, podName).Ok? ==> |api.pods(namespace, podName).value.containerIds| > 0
    ensures api.pods(namespace, podName).Err? ==> id == ""
    ensures api.pods(namespace, podName).Ok? ==> id in api.pods(namespace, podName).value.containerIds
  {
    match api.pods(namespace, podName)
    case Err(_) => ""
    case Ok(pod) => pod.containerIds[0]
  }

  /** The container ID read is the first one, whatever follows it. */
  lemma ContainerIdIsFirst(api: KubeApi, namespace: string, podName: string)
    requires api.pods(namespace, podName).Ok? && |api.pods(namespace, podName).value.containerIds| > 0
    ensures GetContainerIdFromPod(api, namespace, podName) == api.pods(namespace, podName).value.containerIds[0]
  {
  }

  /** getSvcAccountToken: the "token" entry of the first secret of the
      default service account of the default namespace ("" when the secret
      has none); each failed fetch gives "" and an error naming it. */
  function GetSvcAccountToken(api: KubeApi): (r: Ret<string>)
    requires api.serviceAccounts("default", "default").Ok? ==>
      |api.serviceAccounts("default", "default").value.secretNames| > 0
    ensures api.serviceAccounts("default", "default").Err? ==>
      r == Ret("", Some(Plain("Error fetching default service acccount. Error: " + Text(api.serviceAccounts("default", "default").error))))
    ensures api.serviceAccounts("default", "default").Ok? ==>
      var secret := api.secrets("default", api.serviceAccounts("default", "default").value.secretNames[0]);
      && (secret.Err? ==> r == Ret("", Some(Plain("Error fetching secret for service account. Error: " + Text(secret.error)))))
      && (secret.Ok? ==> r.err.None? && ("token" in secret.value.data ==> r.val == secret.value.data["token"])
                          && ("token" !in secret.value.data ==> r.val == ""))
  {
    match api.serviceAccounts("default", "default")
    case Err(e) => Ret("", Some(Plain("Error fetching default service acccount. Error: " + Text(e))))
    case Ok(sa) =>
      match api.secrets("default", sa.secretNames[0])
      case Err(e) => Ret("", Some(Plain("Error fetching secret for service account. Error: " + Text(e))))
      case Ok(secret) => Ret(if "token" in secret.data then secret.data["token"] else "", None)
  }

  // ---------------------------------------------------------------------------
  // Endpoint flattening

  /** One Endpoint per port for the address `ip`, in port order. */
  function PortsFor(ip: string, ports: seq<int>): (r: seq<Endpoint>)
    ensures |r| == |ports|
    ensures forall k :: 0 <= k < |ports| ==> r[k] == Endpoint(ip, ports[k])
  {
    seq(|ports|, k requires 0 <= k < |ports| => Endpoint(ip, ports[k]))
  }

  /** The endpoints of one subset: address-major, then port. */
  function AddressesFor(addresses: seq<string>, ports: seq<int>): seq<Endpoint> {
    if addresses == [] then []
    else AddressesFor(addresses[..|addresses| - 1], ports) + PortsFor(addresses[|addresses| - 1], ports)
  }

  /** The endpoints of all subsets, subset-major. */
  function Flatten(subsets: seq<EndpointSubset>): seq<Endpoint> {
    if subsets == [] then []
    else
      var last := subsets[|subsets| - 1];
      Flatten(subsets[..|subsets| - 1]) + AddressesFor(last.addresses, last.ports)
  }

  /** The number of (address, port) pairs of the subsets. */
  function Pairs(subsets: seq<EndpointSubset>): nat {
    if subsets == [] then 0
    else
      var last := subsets[|subsets| - 1];
      Pairs(subsets[..|subsets| - 1]) + |last.addresses| * |last.ports|
  }

  /** The endpoints of a service: empty when the Endpoints object cannot be
      fetched. */
  function ServiceEndpoints(api: KubeApi, namespace: string, serviceName: string): seq<Endpoint> {
    match api.endpoints(namespace, serviceName)
    case Err(_) => []
    case Ok(eps) => Flatten(eps.subsets)
  }

  /** getEndpointsFromService: every (address, port) pair of every subset;
      an API error gives the empty list. */
  method GetEndpointsFromService(api: KubeApi, namespace: string, serviceName: string) returns (ret: seq<Endpoint>)
    ensures api.endpoints(namespace, serviceName).Err? ==> ret == []
    ensures api.endpoints(namespace, serviceName).Ok? ==> ret == Flatten(api.endpoints(namespace, serviceName).value.subsets)
    ensures ret == ServiceEndpoints(api, namespace, serviceName)
  {
    ret := [];
    var endpoints := api.endpoints(namespace, serviceName);
    if endpoints.Err? {
      return ret;
    }
    var subsets := endpoints.value.subsets;
    for i := 0 to |subsets|
      invariant ret == Flatten(subsets[..i])
    {
      var subset := subsets[i];
      for j := 0 to |subset.addresses|
        invariant ret == Flatten(subsets[..i]) + AddressesFor(subset.addresses[..j], subset.ports)
      {
        var ip := subset.addresses[j];
        for k := 0 to |subset.ports|
          invariant ret == Flatten(subsets[..i]) + AddressesFor(subset.addresses[..j], subset.ports) + PortsFor(ip, subset.ports[..k])
        {
          assert PortsFor(ip, subset.ports[..k + 1]) == PortsFor(ip, subset.ports[..k]) + [Endpoint(ip, subset.ports[k])];
          ret := ret + [Endpoint(ip, subset.ports[k])];
        }
        assert subset.ports[..|subset.ports|] == subset.ports;
        assert subset.addresses[..j + 1][..j] == subset.addresses[..j];
      }
      assert subset.addresses[..|subset.addresses|] == subset.addresses;
      assert subsets[..i + 1][..i] == subsets[..i];
    }
    assert subsets[..|subsets|] == subsets;
  }

  lemma {:induction false} AddressesForLength(addresses: seq<string>, ports: seq<int>)
    ensures |AddressesFor(addresses, ports)| == |addresses| * |ports|
  {
    if addresses != [] {
      AddressesForLength(addresses[..|addresses| - 1], ports);
      assert |addresses| * |ports| == (|addresses| - 1) * |ports| + |ports|;
    }
  }

  /** The list holds one entry per (address, port) pair of every subset. */
  lemma {:induction false} FlattenLength(subsets: seq<EndpointSubset>)
    ensures |Flatten(subsets)| == Pairs(subsets)
  {
    if subsets != [] {
      var last := subsets[|subsets| - 1];
      FlattenLength(subsets[..|subsets| - 1]);
      AddressesForLength(last.addresses, last.ports);
    }
  }

  /** Within a subset, the pair (a, p) sits at a * |ports| + p. */
  lemma {:induction false} AddressesForAt(addresses: seq<string>, ports: seq<int>, a: int, p: int)
    requires 0 <= a < |addresses| && 0 <= p < |ports|
    ensures 0 <= a * |ports| + p < |AddressesFor(addresses, ports)|
    ensures AddressesFor(addresses, ports)[a * |ports| + p] == Endpoint(addresses[a], ports[p])
  {
    var n := |addresses|;
    var m := |ports|;
    var init := addresses[..n - 1];
    AddressesForLength(init, ports);
    AddressesForLength(addresses, ports);
    if a < n - 1 {
      AddressesForAt(init, ports, a, p);
      RowBound(a, n - 1, m, p);
    } else {
      RowBound(a, n, m, p);
    }
  }

  /** Row a of an n-row table of m columns ends before row n starts. */
  lemma RowBound(a: int, n: int, m: int, p: int)
    requires 0 <= a < n && 0 <= p < m
    ensures a * m + p < n * m
  {
    var rest := n - a - 1;
    assert rest * m >= 0;
    assert n * m == a * m + m + rest * m;
  }

  /** Every entry of a subset's list is one of its addresses with one of its
      ports. */
  lemma {:induction false} AddressesForMembers(addresses: seq<string>, ports: seq<int>)
    ensures forall e :: e in AddressesFor(addresses, ports) ==> e.ip in addresses && e.port in ports
  {
    if addresses != [] {
      var init := addresses[..|addresses| - 1];
      AddressesForMembers(init, ports);
      forall e | e in AddressesFor(addresses, ports)
        ensures e.ip in addresses && e.port in ports
      {
        if e in AddressesFor(init, ports) {
          assert e.ip in init;
        }
      }
    }
  }

  lemma FlattenSnoc(xs: seq<EndpointSubset>, s: EndpointSubset)
    ensures Flatten(xs + [s]) == Flatten(xs) + AddressesFor(s.addresses, s.ports)
  {
    assert (xs + [s])[..|xs|] == xs;
  }

  lemma {:induction false} FlattenAppend(xs: seq<EndpointSubset>, ys: seq<EndpointSubset>)
    ensures Flatten(xs + ys) == Flatten(xs) + Flatten(ys)
    decreases |ys|
  {
    if ys == [] {
      assert xs + ys == xs;
    } else {
      var ys' := ys[..|ys| - 1];
      var y := ys[|ys| - 1];
      calc {
        Flatten(xs + ys);
        { assert xs + ys == (xs + ys') + [y]; }
        Flatten((xs + ys') + [y]);
        { FlattenSnoc(xs + ys', y); }
        Flatten(xs + ys') + AddressesFor(y.addresses, y.ports);
        { FlattenAppend(xs, ys'); }
        Flatten(xs) + (Flatten(ys') + AddressesFor(y.addresses, y.ports));
        { FlattenSnoc(ys', y); assert ys' + [y] == ys; }
        Flatten(xs) + Flatten(ys);
      }
    }
  }

  /** Order: subset i's pairs start after those of subsets 0..i-1, and within
      it address a with port p sits at a * |ports| + p. */
  lemma FlattenAt(subsets: seq<EndpointSubset>, i: int, a: int, p: int)
    requires 0 <= i < |subsets| && 0 <= a < |subsets[i].addresses| && 0 <= p < |subsets[i].ports|
    ensures var k := |Flatten(subsets[..i])| + a * |subsets[i].ports| + p;
      0 <= k < |Flatten(subsets)| && Flatten(subsets)[k] == Endpoint(subsets[i].addresses[a], subsets[i].ports[p])
  {
    var s := subsets[i];
    var pre := Flatten(subsets[..i]);
    var mid := AddressesFor(s.addresses, s.ports);
    var post := Flatten(subsets[i + 1..]);
    FlattenSplit(subsets, i);
    var j := a * |s.ports| + p;
    AddressesForAt(s.addresses, s.ports, a, p);
    assert (pre + mid + post)[|pre| + j] == mid[j];
  }

  /** The list is that of the subsets before i, then subset i's, then the
      rest. */
  lemma FlattenSplit(subsets: seq<EndpointSubset>, i: int)
    requires 0 <= i < |subsets|
    ensures Flatten(subsets) == Flatten(subsets[..i])
      + AddressesFor(subsets[i].addresses, subsets[i].ports) + Flatten(subsets[i + 1..])
  {
    var s := subsets[i];
    assert subsets == subsets[..i + 1] + subsets[i + 1..];
    assert subsets[..i + 1] == subsets[..i] + [s];
    FlattenAppend(subsets[..i + 1], subsets[i + 1..]);
    FlattenSnoc(subsets[..i], s);
  }

  /** Nothing is invented: every entry pairs an address with a port of the
      same subset. */
  lemma {:induction false} FlattenMembers(subsets: seq<EndpointSubset>)
    ensures forall e :: e in Flatten(subsets) ==>
      exists i :: 0 <= i < |subsets| && e.ip in subsets[i].addresses && e.port in subsets[i].ports
  {
    if subsets != [] {
      var n := |subsets|;
      var init := subsets[..n - 1];
      FlattenMembers(init);
      AddressesForMembers(subsets[n - 1].addresses, subsets[n - 1].ports);
      forall e | e in Flatten(subsets)
        ensures exists i :: 0 <= i < n && e.ip in subsets[i].addresses && e.port in subsets[i].ports
      {
        if e in Flatten(init) {
          var i :| 0 <= i < |init| && e.ip in init[i].addresses && e.port in init[i].ports;
          assert subsets[i] == init[i];
        } else {
          assert e.ip in subsets[n - 1].addresses && e.port in subsets[n - 1].ports;
        }
      }
    }
  }
}
