/** k8snetlook/checkers.go: each Run*Check maps the outcome of its probes to a
    (pass, error) pair. The ICMP probe netutils.SendRecvICMPMessage and the
    HTTP helper netutils.SendRecvHTTPMessage are oracles; the endpoint list,
    the service-account token, path-MTU discovery and the DNS lookup are the
    modelled functions of kube.go, pmtuprobe.go and dnsutil.go. */
module Checkers {
  import opened Base
  import opened Init
  import Kube
  import PmtuProbe
  import DnsUtil

  const ProbePayloadSize := 64
  const HttpStatusOK := 200
  const NoApiEndpoints := "could not fetch endpoints for k8s api server"

  /** netutils.SendRecvICMPMessage(dstIP, payloadSize, dontFragment). */
  type IcmpProber = (string, int, bool) -> Ret<int>

  /** The verdict of a single ICMP check: an error is returned with false;
      otherwise the check passes exactly on code 0. */
  function IcmpVerdict(probe: Ret<int>): (r: Ret<bool>)
    ensures r.err == probe.err
    ensures r.val <==> probe.err.None? && probe.val == 0
  {
    if probe.err.Some? then Ret(false, probe.err)
    else if probe.val == 0 then Ret(true, None)
    else Ret(false, None)
  }

  /** RunGatewayConnectivityCheck: a 64-byte probe with DF set to the host
      gateway. */
  function RunGatewayConnectivityCheck(cfg: Config, icmp: IcmpProber): (r: Ret<bool>)
    ensures var p := icmp(cfg.hostGatewayIp, ProbePayloadSize, true);
      r.err == p.err && (r.val <==> p.err.None? && p.val == 0)
  {
    IcmpVerdict(icmp(cfg.hostGatewayIp, ProbePayloadSize, true))
  }

  /** RunDstConnectivityCheck: a 64-byte probe with DF set to `dstIp`. */
  function RunDstConnectivityCheck(dstIp: string, icmp: IcmpProber): (r: Ret<bool>)
    ensures var p := icmp(dstIp, ProbePayloadSize, true);
      r.err == p.err && (r.val <==> p.err.None? && p.val == 0)
  {
    IcmpVerdict(icmp(dstIp, ProbePayloadSize, true))
  }

  /** A single ICMP check never passes with an error, and codes 1 (fragmentation
      required) and 2 (nothing matching) fail without one. */
  lemma IcmpChecksClean(probe: Ret<int>)
    ensures IcmpVerdict(probe).val ==> IcmpVerdict(probe).err.None?
    ensures probe.err.None? && probe.val in {1, 2} ==> IcmpVerdict(probe) == Ret(false, None)
  {
  }

  /** "https://" followed by host:port, as net.JoinHostPort writes it. */
  function HttpsUrl(ep: Endpoint): string {
    "https://" + JoinHostPort(ep.ip, Itoa(ep.port))
  }

  /** RunKubeAPIServiceIPConnectivityCheck: any HTTP answer, 401 or another
      status, passes; only a failed request fails, with its error. */
  function RunKubeApiServiceIpConnectivityCheck(cfg: Config, http: HttpGetter): (r: Ret<bool>)
    ensures var reply := http(HttpsUrl(cfg.kubeApiService), "");
      r.err == reply.err && (r.val <==> reply.err.None?)
  {
    var reply := http(HttpsUrl(cfg.kubeApiService), "");
    if reply.err.Some? then Ret(false, reply.err) else Ret(true, None)
  }

  /** Which of `endpoints` answered an unauthenticated HTTPS request. */
  function Responded(endpoints: seq<Endpoint>, http: HttpGetter): (s: seq<bool>)
    ensures |s| == |endpoints|
    ensures forall i :: 0 <= i < |endpoints| ==> s[i] == http(HttpsUrl(endpoints[i]), "").err.None?
  {
    seq(|endpoints|, i requires 0 <= i < |endpoints| => http(HttpsUrl(endpoints[i]), "").err.None?)
  }

  /** The loop of RunKubeAPIEndpointIPConnectivityCheck: one request per
      endpoint, a failure skipping to the next. */
  method CountResponding(endpoints: seq<Endpoint>, http: HttpGetter) returns (passedCount: nat)
    ensures passedCount == CountTrue(Responded(endpoints, http))
  {
    passedCount := 0;
    for i := 0 to |endpoints|
      invariant passedCount == CountTrue(Responded(endpoints, http)[..i])
    {
      var reply := http(HttpsUrl(endpoints[i]), "");
      CountTruePrefix(Responded(endpoints, http), i);
      if reply.err.Some? {
        continue;
      }
      passedCount := passedCount + 1;
    }
    assert Responded(endpoints, http)[..|endpoints|] == Responded(endpoints, http);
  }

  /** RunKubeAPIEndpointIPConnectivityCheck: no endpoints is an error;
      otherwise every endpoint of default/kubernetes is tried, failures do not
      stop the loop, and the check passes exactly when all of them answered. */
  method RunKubeApiEndpointIpConnectivityCheck(api: Kube.KubeApi, http: HttpGetter) returns (r: Ret<bool>)
    ensures var eps := Kube.ServiceEndpoints(api, "default", "kubernetes");
      && (eps == [] ==> r == Ret(false, Some(Plain(NoApiEndpoints))))
      && (eps != [] ==> r.err.None? && (r.val <==> forall i :: 0 <= i < |eps| ==> http(HttpsUrl(eps[i]), "").err.None?))
  {
    var endpoints := Kube.GetEndpointsFromService(api, "default", "kubernetes");
    var totalCount := |endpoints|;
    if totalCount == 0 {
      return Ret(false, Some(Plain(NoApiEndpoints)));
    }
    var passedCount := CountResponding(endpoints, http);
    CountTrueAll(Responded(endpoints, http));
    if passedCount == totalCount {
      return Ret(true, None);
    }
    return Ret(false, None);
  }

  /** The URL of the API server's verbose liveness endpoint. */
  function LivezUrl(ep: Endpoint): string {
    HttpsUrl(ep) + "/livez?verbose"
  }

  /** RunAPIServerHealthCheck: a token error or a failed request fails with
      that error; an answer other than 200 fails without one; 200 passes. */
  function RunApiServerHealthCheck(cfg: Config, api: Kube.KubeApi, http: HttpGetter): (r: Ret<bool>)
    requires api.serviceAccounts("default", "default").Ok? ==>
      |api.serviceAccounts("default", "default").value.secretNames| > 0
    ensures var token := Kube.GetSvcAccountToken(api);
      var reply := http(LivezUrl(cfg.kubeApiService), token.val);
      && (token.err.Some? ==> r == Ret(false, token.err))
      && (token.err.None? ==> r.err == reply.err)
      && (r.val <==> token.err.None? && reply.err.None? && reply.val == HttpStatusOK)
  {
    var token := Kube.GetSvcAccountToken(api);
    if token.err.Some? then Ret(false, token.err)
    else
      var reply := http(LivezUrl(cfg.kubeApiService), token.val);
      if reply.err.Some? then Ret(false, reply.err)
      else if reply.val != HttpStatusOK then Ret(false, None)
      else Ret(true, None)
  }

  /** The cluster-local name of a service, already fully qualified. */
  function ServiceFqdn(svcName: string, svcNamespace: string): (fq: string)
    ensures DnsUtil.Fqdn(fq) == fq
  {
    svcName + "." + svcNamespace + ".svc.cluster.local."
  }

  /** The verdict on a lookup: its error, or whether `expectedIp` is among
      the addresses it returned. */
  function DnsVerdict(lookup: DnsUtil.LookupReturn, expectedIp: string): Ret<bool> {
    if lookup.err.Some? then Ret(false, lookup.err)
    else Ret(lookup.ips.Some? && expectedIp in lookup.ips.value, None)
  }

  /** RunK8sDNSLookupCheck: looks up "<name>.<namespace>.svc.cluster.local."
      at port 53 of `dnsServerIp` and scans the addresses for `expectedIp`,
      stopping at the first match; `id` is the query ID dns.Id() draws. */
  method RunK8sDnsLookupCheck(dnsServerIp: string, svcName: string, svcNamespace: string, expectedIp: string,
                              id: int, exchange: DnsUtil.Exchanger) returns (r: Ret<bool>)
    requires 0 <= id < 0x1_0000
    ensures r == DnsVerdict(DnsUtil.LookupOutcome(JoinHostPort(dnsServerIp, "53"), ServiceFqdn(svcName, svcNamespace), id, exchange), expectedIp)
  {
    var dnsServerUrl := JoinHostPort(dnsServerIp, "53");
    var svcFqdn := ServiceFqdn(svcName, svcNamespace);
    var lookup := DnsUtil.RunDnsLookupUsingCustomResolver(dnsServerUrl, svcFqdn, id, exchange);
    if lookup.err.Some? {
      return Ret(false, lookup.err);
    }
    var ips := if lookup.ips.Some? then lookup.ips.value else [];
    for i := 0 to |ips|
      invariant expectedIp !in ips[..i]
    {
      if ips[i] == expectedIp {
        return Ret(true, None);
      }
    }
    assert ips[..|ips|] == ips;
    return Ret(false, None);
  }

  /** The DNS check asks the server on port 53 for the A record of exactly the
      service's cluster-local name, and passes exactly when the answer is
      NOERROR and one of its A records reads `expectedIp`; a failed exchange
      or another RCODE fails with an error. */
  lemma DnsCheckIff(dnsServerIp: string, svcName: string, svcNamespace: string, expectedIp: string,
                    id: int, exchange: DnsUtil.Exchanger)
    requires 0 <= id < 0x1_0000
    ensures var fq := ServiceFqdn(svcName, svcNamespace);
      var query := DnsUtil.BuildQuery(id, fq);
      var reply := exchange(query, JoinHostPort(dnsServerIp, "53"));
      var r := DnsVerdict(DnsUtil.LookupOutcome(JoinHostPort(dnsServerIp, "53"), fq, id, exchange), expectedIp);
      && query.question[0].name == fq
      && (r.err.Some? <==> reply.Err? || reply.value.rcode != DnsUtil.RcodeSuccess)
      && (r.val <==>
            && reply.Ok? && reply.value.rcode == DnsUtil.RcodeSuccess
            && exists i :: 0 <= i < |reply.value.answer| && reply.value.answer[i].ARecord? && DottedQuad(reply.value.answer[i].a) == expectedIp)
      && (r.val ==> r.err.None?)
  {
    var fq := ServiceFqdn(svcName, svcNamespace);
    var reply := exchange(DnsUtil.BuildQuery(id, fq), JoinHostPort(dnsServerIp, "53"));
    DnsUtil.LookupOutcomes(JoinHostPort(dnsServerIp, "53"), fq, id, exchange);
    if reply.Ok? && reply.value.rcode == DnsUtil.RcodeSuccess {
      var answer := reply.value.answer;
      if exists i :: 0 <= i < |answer| && answer[i].ARecord? && DottedQuad(answer[i].a) == expectedIp {
        var i :| 0 <= i < |answer| && answer[i].ARecord? && DottedQuad(answer[i].a) == expectedIp;
        DnsUtil.ARecordsComplete(answer, i);
      }
    }
  }

  /** The probe PMTUProbeToDestIP sends to `dstIp`: SendRecvICMPMessage with
      DF set. */
  function ProbeTo(icmp: IcmpProber, dstIp: string): PmtuProbe.Prober {
    size => icmp(dstIp, size, true)
  }

  /** The verdict RunMTUProbeToDstIPCheck draws from discovery and from the
      interface listing; the listing's MTUs are only logged. */
  function MtuVerdict(mtu: Ret<int>, ifacesErr: Option<Error>): Ret<bool> {
    if mtu.err.Some? then Ret(false, mtu.err)
    else if ifacesErr.Some? then Ret(false, ifacesErr)
    else Ret(true, None)
  }

  /** RunMTUProbeToDstIPCheck; `ifacesErr` is the error of net.Interfaces(). */
  method RunMtuProbeToDstIpCheck(dstIp: string, icmp: IcmpProber, ifacesErr: Option<Error>) returns (r: Ret<bool>)
    ensures r == MtuVerdict(PmtuProbe.PathMtu(ProbeTo(icmp, dstIp)), ifacesErr)
    ensures r.val <==> PmtuProbe.PathMtu(ProbeTo(icmp, dstIp)).err.None? && ifacesErr.None?
  {
    var supportedMtu := PmtuProbe.PmtuProbeToDestIp(ProbeTo(icmp, dstIp));
    if supportedMtu.err.Some? {
      return Ret(false, supportedMtu.err);
    }
    if ifacesErr.Some? {
      return Ret(false, ifacesErr);
    }
    return Ret(true, None);
  }

  /** As written, the MTU check passes on a path where even the 28-byte floor
      needs fragmentation: discovery then returns -1 with a nil error. */
  lemma MtuCheckPassesWithoutWorkingSize()
    ensures var icmp: IcmpProber := (dst, size, df) => Ret(PmtuProbe.IcmpUtil.FragmentationRequired, None);
      && PmtuProbe.PathMtu(ProbeTo(icmp, "10.0.0.1")) == Ret(-1, None)
      && MtuVerdict(PmtuProbe.PathMtu(ProbeTo(icmp, "10.0.0.1")), None) == Ret(true, None)
  {
  }

  /** The intended verdict: a discovery that found no working size fails. */
  function StrictMtuVerdict(mtu: Ret<int>, ifacesErr: Option<Error>): Ret<bool> {
    if mtu.err.Some? then Ret(false, mtu.err)
    else if mtu.val < 0 then Ret(false, None)
    else if ifacesErr.Some? then Ret(false, ifacesErr)
    else Ret(true, None)
  }

  /** Under the intended verdict a pass means discovery found an MTU in
      [56, 9000]; it differs from the written one only on the -1 result. */
  lemma StrictMtuVerdictSound(probe: PmtuProbe.Prober, ifacesErr: Option<Error>)
    ensures var mtu := PmtuProbe.PathMtu(probe);
      && (StrictMtuVerdict(mtu, ifacesErr).val ==> 2 * PmtuProbe.MinPayloadSize <= mtu.val <= PmtuProbe.MaxMtuSize)
      && (mtu.val != -1 ==> StrictMtuVerdict(mtu, ifacesErr) == MtuVerdict(mtu, ifacesErr))
  {
    PmtuProbe.PathMtuBounds(probe);
  }

  /** Which of `endpoints` answered a 64-byte DF probe with code 0. */
  function Echoed(endpoints: seq<Endpoint>, icmp: IcmpProber): (s: seq<bool>)
    ensures |s| == |endpoints|
    ensures forall i :: 0 <= i < |endpoints| ==> s[i] == (icmp(endpoints[i].ip, ProbePayloadSize, true).val == 0)
  {
    seq(|endpoints|, i requires 0 <= i < |endpoints| => icmp(endpoints[i].ip, ProbePayloadSize, true).val == 0)
  }

  /** RunDstSvcEndpointsConnectivityCheck: no endpoints is an error; otherwise
      every endpoint is probed and the check passes exactly when every probe
      returned code 0. A probe error only counts as a failure: the check's
      own error stays nil. */
  method RunDstSvcEndpointsConnectivityCheck(endpoints: seq<Endpoint>, icmp: IcmpProber) returns (r: Ret<bool>)
    ensures endpoints == [] ==> r == Ret(false, Some(Plain(NoApiEndpoints)))
    ensures endpoints != [] ==>
      && r.err.None?
      && (r.val <==> forall i :: 0 <= i < |endpoints| ==> icmp(endpoints[i].ip, ProbePayloadSize, true).val == 0)
  {
    var totalCount := |endpoints|;
    if totalCount == 0 {
      return Ret(false, Some(Plain(NoApiEndpoints)));
    }
    var passedCount := 0;
    for i := 0 to |endpoints|
      invariant passedCount == CountTrue(Echoed(endpoints, icmp)[..i])
    {
      var ep := endpoints[i];
      var pass := icmp(ep.ip, ProbePayloadSize, true);
      CountTruePrefix(Echoed(endpoints, icmp), i);
      if pass.val == 0 {
        passedCount := passedCount + 1;
      }
    }
    assert Echoed(endpoints, icmp)[..|endpoints|] == Echoed(endpoints, icmp);
    CountTrueAll(Echoed(endpoints, icmp));
    if passedCount == totalCount {
      return Ret(true, None);
    }
    return Ret(false, None);
  }
}
