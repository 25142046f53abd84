/** k8snetlook/host.go, the older revision of the host checks: four checks
    that each bump the global passingHostChecks at most once. The ping and
    the endpoint and token lookups are the modelled functions of
    k8snetlook/netutils.go and kube.go; the HTTP helper is an oracle. */
module Host {
  import opened Base
  import opened Init
  import Kube
  import LegacyNetUtils

  const TotalHostChecks := 4

  datatype HostCheck = GatewayCheck | ServiceIpCheck | EndpointIpCheck | HealthCheck

  /** "https://%s:%d" of an endpoint (no brackets for IPv6 literals). */
  function PlainUrl(ep: Endpoint): string {
    "https://" + ep.ip + ":" + Itoa(ep.port)
  }

  predicate GatewayPasses(cfg: Config, pid: nat, wire: LegacyNetUtils.PingWire) {
    var r := LegacyNetUtils.PingResult(cfg.hostGatewayIp, pid, wire);
    r.err.None? && r.val
  }

  predicate ServiceIpPasses(cfg: Config, http: HttpGetter) {
    http(PlainUrl(cfg.kubeApiService), "").err.None?
  }

  predicate EndpointsPass(endpoints: seq<Endpoint>, http: HttpGetter) {
    forall i :: 0 <= i < |endpoints| ==> http(PlainUrl(endpoints[i]), "").err.None?
  }

  predicate HealthPasses(cfg: Config, api: Kube.KubeApi, http: HttpGetter)
    requires api.serviceAccounts("default", "default").Ok? ==>
      |api.serviceAccounts("default", "default").value.secretNames| > 0
  {
    var token := Kube.GetSvcAccountToken(api);
    var reply := http(PlainUrl(cfg.kubeApiService) + "/livez?verbose", token.val);
    token.err.None? && reply.err.None? && reply.val == 200
  }

  /** Which endpoints answered, in order. */
  function Answered(endpoints: seq<Endpoint>, http: HttpGetter): (s: seq<bool>)
    ensures |s| == |endpoints|
    ensures forall i :: 0 <= i < |endpoints| ==> s[i] == http(PlainUrl(endpoints[i]), "").err.None?
  {
    seq(|endpoints|, i requires 0 <= i < |endpoints| => http(PlainUrl(endpoints[i]), "").err.None?)
  }

  /** The loop of RunKubeAPIEndpointIPConnectivityCheck. */
  method CountAnswered(endpoints: seq<Endpoint>, http: HttpGetter) returns (passedCount: nat)
    ensures passedCount == CountTrue(Answered(endpoints, http))
  {
    passedCount := 0;
    for i := 0 to |endpoints|
      invariant passedCount == CountTrue(Answered(endpoints, http)[..i])
    {
      var reply := http(PlainUrl(endpoints[i]), "");
      CountTruePrefix(Answered(endpoints, http), i);
      if reply.err.Some? {
        continue;
      }
      passedCount := passedCount + 1;
    }
    assert Answered(endpoints, http)[..|endpoints|] == Answered(endpoints, http);
  }

  /** How many of the four checks pass. */
  function HostPassCount(cfg: Config, pid: nat, wire: LegacyNetUtils.PingWire, api: Kube.KubeApi, http: HttpGetter): nat
    requires api.serviceAccounts("default", "default").Ok? ==>
      |api.serviceAccounts("default", "default").value.secretNames| > 0
  {
    Bit(GatewayPasses(cfg, pid, wire)) + Bit(ServiceIpPasses(cfg, http))
    + Bit(EndpointsPass(Kube.ServiceEndpoints(api, "default", "kubernetes"), http)) + Bit(HealthPasses(cfg, api, http))
  }

  function Bit(b: bool): nat {
    if b then 1 else 0
  }

  /** A run raises the counter by at most 4, and by exactly 4 only when every
      check passes. */
  lemma HostPassCountBound(cfg: Config, pid: nat, wire: LegacyNetUtils.PingWire, api: Kube.KubeApi, http: HttpGetter)
    requires api.serviceAccounts("default", "default").Ok? ==>
      |api.serviceAccounts("default", "default").value.secretNames| > 0
    ensures HostPassCount(cfg, pid, wire, api, http) <= TotalHostChecks
    ensures HostPassCount(cfg, pid, wire, api, http) == TotalHostChecks <==>
      && GatewayPasses(cfg, pid, wire) && ServiceIpPasses(cfg, http)
      && EndpointsPass(Kube.ServiceEndpoints(api, "default", "kubernetes"), http) && HealthPasses(cfg, api, http)
  {
  }

  /** As written, the endpoint check passes when there is nothing to check:
      zero endpoints answer out of zero, which includes the case where the
      Endpoints object could not be fetched at all. */
  lemma EndpointCheckPassesWithNoEndpoints(api: Kube.KubeApi, http: HttpGetter)
    requires api.endpoints("default", "kubernetes").Err?
    ensures Kube.ServiceEndpoints(api, "default", "kubernetes") == []
    ensures EndpointsPass(Kube.ServiceEndpoints(api, "default", "kubernetes"), http)
  {
  }

  /** The global counter and the checks run, in order. */
  class HostChecks {
    var passingHostChecks: int
    ghost var ran: seq<HostCheck>

    constructor ()
      ensures passingHostChecks == 0 && ran == []
    {
      passingHostChecks := 0;
      ran := [];
    }

    /** RunGatewayConnectivityCheck: counts only a (true, nil) ping. */
    method RunGatewayConnectivityCheck(cfg: Config, pid: nat, wire: LegacyNetUtils.PingWire)
      modifies this
      ensures passingHostChecks == old(passingHostChecks) + Bit(GatewayPasses(cfg, pid, wire))
      ensures ran == old(ran) + [GatewayCheck]
    {
      ran := ran + [GatewayCheck];
      var r := LegacyNetUtils.SendRecvIcmpMessage(cfg.hostGatewayIp, pid, wire);
      if r.err.Some? {
        return;
      }
      if r.val {
        passingHostChecks := passingHostChecks + 1;
      }
    }

    /** RunKubeAPIServiceIPConnectivityCheck: counts any HTTP answer. */
    method RunKubeApiServiceIpConnectivityCheck(cfg: Config, http: HttpGetter)
      modifies this
      ensures passingHostChecks == old(passingHostChecks) + Bit(ServiceIpPasses(cfg, http))
      ensures ran == old(ran) + [ServiceIpCheck]
    {
      ran := ran + [ServiceIpCheck];
      var reply := http(PlainUrl(cfg.kubeApiService), "");
      if reply.err.Some? {
        return;
      }
      passingHostChecks := passingHostChecks + 1;
    }

    /** RunKubeAPIEndpointIPConnectivityCheck: counts when every endpoint
      answered. */
    method RunKubeApiEndpointIpConnectivityCheck(api: Kube.KubeApi, http: HttpGetter)
      modifies this
      ensures passingHostChecks == old(passingHostChecks)
        + Bit(EndpointsPass(Kube.ServiceEndpoints(api, "default", "kubernetes"), http))
      ensures ran == old(ran) + [EndpointIpCheck]
    {
      ran := ran + [EndpointIpCheck];
      var endpoints := Kube.GetEndpointsFromService(api, "default", "kubernetes");
      var passedCount := CountAnswered(endpoints, http);
      var totalCount := |endpoints|;
      CountTrueAll(Answered(endpoints, http));
      if passedCount == totalCount {
        passingHostChecks := passingHostChecks + 1;
      }
    }

    /** RunAPIServerHealthCheck: counts only an HTTP 200 to the authenticated
        liveness request. */
    method RunApiServerHealthCheck(cfg: Config, api: Kube.KubeApi, http: HttpGetter)
      requires api.serviceAccounts("default", "default").Ok? ==>
        |api.serviceAccounts("default", "default").value.secretNames| > 0
      modifies this
      ensures passingHostChecks == old(passingHostChecks) + Bit(HealthPasses(cfg, api, http))
      ensures ran == old(ran) + [HealthCheck]
    {
      ran := ran + [HealthCheck];
      var url := PlainUrl(cfg.kubeApiService) + "/livez?verbose";
      var token := Kube.GetSvcAccountToken(api);
      if token.err.Some? {
        return;
      }
      var reply := http(url, token.val);
      if reply.err.Some? {
        return;
      }
      if reply.val == 200 {
        passingHostChecks := passingHostChecks + 1;
      }
    }

    /** RunHostChecks: all four checks, in order, whatever the earlier ones
        gave. */
    method RunHostChecks(cfg: Config, pid: nat, wire: LegacyNetUtils.PingWire, api: Kube.KubeApi, http: HttpGetter)
      requires api.serviceAccounts("default", "default").Ok? ==>
        |api.serviceAccounts("default", "default").value.secretNames| > 0
      modifies this
      ensures passingHostChecks == old(passingHostChecks) + HostPassCount(cfg, pid, wire, api, http)
      ensures old(passingHostChecks) <= passingHostChecks <= old(passingHostChecks) + TotalHostChecks
      ensures ran == old(ran) + [GatewayCheck, ServiceIpCheck, EndpointIpCheck, HealthCheck]
    {
      RunNetworkChecks(cfg, pid, wire, http);
      RunApiChecks(cfg, api, http);
    }

    /** The first two checks of RunHostChecks. */
    method RunNetworkChecks(cfg: Config, pid: nat, wire: LegacyNetUtils.PingWire, http: HttpGetter)
      modifies this
      ensures passingHostChecks == old(passingHostChecks) + Bit(GatewayPasses(cfg, pid, wire)) + Bit(ServiceIpPasses(cfg, http))
      ensures ran == old(ran) + [GatewayCheck, ServiceIpCheck]
    {
      RunGatewayConnectivityCheck(cfg, pid, wire);
      RunKubeApiServiceIpConnectivityCheck(cfg, http);
    }

    /** The last two checks of RunHostChecks. */
    method RunApiChecks(cfg: Config, api: Kube.KubeApi, http: HttpGetter)
      requires api.serviceAccounts("default", "default").Ok? ==>
        |api.serviceAccounts("default", "default").value.secretNames| > 0
      modifies this
      ensures passingHostChecks == old(passingHostChecks)
        + Bit(EndpointsPass(Kube.ServiceEndpoints(api, "default", "kubernetes"), http)) + Bit(HealthPasses(cfg, api, http))
      ensures ran == old(ran) + [EndpointIpCheck, HealthCheck]
    {
      RunKubeApiEndpointIpConnectivityCheck(api, http);
      RunApiServerHealthCheck(cfg, api, http);
    }
  }
}
