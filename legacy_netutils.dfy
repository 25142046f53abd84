/** k8snetlook/netutils.go: the older copies of the network helpers that
    host.go calls. The gateway lookup returns "" instead of an error, the
    ping reads at most two packets and accepts any ICMPv4 echo reply, and the
    DNS lookup behaves as the one of netutils/dnsutil.go. */
module LegacyNetUtils {
  import opened Base
  import IcmpUtil
  import NetUtils
  import DnsUtil

  const PingTries := 2
  const PingMessageBody := "K8SNETLOOK-R-U-THERE"

  // ---------------------------------------------------------------------------
  // Gateway

  /** getHostGatewayIP: the gateway of the first IPv4 route that has one, or
      "" when the listing fails or no route has a gateway. */
  function GetHostGatewayIp(routes: Result<seq<NetUtils.Route>>): string {
    match routes
    case Err(_) => ""
    case Ok(rs) =>
      match NetUtils.FirstGatewayFrom(rs, 0)
      case Some(i) => DottedQuad(rs[i].gw.value)
      case None => ""
  }

  /** The older lookup returns the same address as GetHostGatewayIP of
      netutils/netutils.go, and "" exactly where that one returns an error. */
  lemma LegacyGatewayAgrees(routes: Result<seq<NetUtils.Route>>)
    ensures GetHostGatewayIp(routes) == NetUtils.GetHostGatewayIp(routes).val
    ensures GetHostGatewayIp(routes) == "" <==> NetUtils.GetHostGatewayIp(routes).err.Some?
  {
    if routes.Ok? {
      match NetUtils.FirstGatewayFrom(routes.value, 0)
      case Some(i) =>
        var a := routes.value[i].gw.value;
        assert |DottedQuad(a)| >= 3;
      case None =>
    }
  }

  // ---------------------------------------------------------------------------
  // Ping

  /** The echo request: type 8, code 0, the low 16 bits of the process ID, sequence
      number 1 and the fixed data. */
  datatype PingRequest = PingRequest(dst: string, icmpType: int, code: int, id: int, seqNum: int, data: seq<Byte>)

  /** The raw ip4:icmp socket: an error from ListenPacket, or what happens to
      the request written to it (a write error, or the events read back). */
  datatype PingWire = PingWire(listenErr: Option<Error>, transmit: PingRequest -> IcmpUtil.Transmission)

  function Request(dstIp: string, pid: nat): (req: PingRequest)
    ensures req.icmpType == IcmpUtil.ICMPv4Echo && req.code == 0 && req.seqNum == 1
    ensures 0 <= req.id < 0x1_0000 && req.id == pid % 0x1_0000
    ensures req.data == AsciiBytes(PingMessageBody) && |req.data| == 20
  {
    PingRequest(dstIp, IcmpUtil.ICMPv4Echo, 0, pid % 0x1_0000, 1, AsciiBytes(PingMessageBody))
  }

  /** What one read does to the loop. */
  datatype Step = Done(r: Ret<bool>) | Skip

  /** A failed read or parse ends the loop with false and an error; any ICMPv4
      echo reply, whatever its body, ends it with true; anything else is
      skipped. */
  function Classify(ev: IcmpUtil.ReadEvent): Step {
    match ev
    case ReadError(timeout, reason) =>
      if timeout then Done(Ret(false, Some(Plain("ICMP timeout"))))
      else Done(Ret(false, Some(Plain("Unable to read reply from icmp socket: " + reason))))
    case Malformed(reason) => Done(Ret(false, Some(Plain("Unable to parse ICMP message:" + reason))))
    case Packet(msg) => if msg.msgType == IcmpUtil.ICMPv4EchoReply then Done(Ret(true, None)) else Skip
  }

  /** The outcome of the read loop from iteration `tries` on. */
  function PingOutcome(inbox: seq<IcmpUtil.ReadEvent>, tries: nat): Ret<bool>
    decreases PingTries - tries
  {
    if tries >= PingTries then Ret(false, None)
    else match Classify(IcmpUtil.NextEvent(inbox, tries))
      case Done(r) => r
      case Skip => PingOutcome(inbox, tries + 1)
  }

  /** The two-try read loop of sendRecvICMPMessage. */
  method ReadReplies(inbox: seq<IcmpUtil.ReadEvent>) returns (r: Ret<bool>)
    ensures r == PingOutcome(inbox, 0)
  {
    for tries := 0 to PingTries
      invariant PingOutcome(inbox, tries) == PingOutcome(inbox, 0)
    {
      var step := Classify(IcmpUtil.NextEvent(inbox, tries));
      if step.Done? {
        return step.r;
      }
    }
    return Ret(false, None);
  }

  function PingResult(dstIp: string, pid: nat, wire: PingWire): Ret<bool> {
    if wire.listenErr.Some? then
      Ret(false, Some(Plain("Unable to open icmp socket for ping test: " + Text(wire.listenErr.value))))
    else
      var t := wire.transmit(Request(dstIp, pid));
      if t.sendErr.Some? then
        Ret(false, Some(Plain("Unable to send icmp echo request to " + dstIp + ":" + Text(t.sendErr.value))))
      else PingOutcome(t.inbox, 0)
  }

  /** sendRecvICMPMessage(dstIP); `pid` is os.Getpid(). */
  method SendRecvIcmpMessage(dstIp: string, pid: nat, wire: PingWire) returns (r: Ret<bool>)
    ensures r == PingResult(dstIp, pid, wire)
  {
    if wire.listenErr.Some? {
      return Ret(false, Some(Plain("Unable to open icmp socket for ping test: " + Text(wire.listenErr.value))));
    }
    var t := wire.transmit(Request(dstIp, pid));
    if t.sendErr.Some? {
      return Ret(false, Some(Plain("Unable to send icmp echo request to " + dstIp + ":" + Text(t.sendErr.value))));
    }
    r := ReadReplies(t.inbox);
  }

  predicate IsEchoReply(ev: IcmpUtil.ReadEvent) {
    ev.Packet? && ev.msg.msgType == IcmpUtil.ICMPv4EchoReply
  }

  /** A true result never carries an error, and an error always comes with
      false. */
  lemma {:induction false} PingNeverPassesWithError(inbox: seq<IcmpUtil.ReadEvent>, tries: nat)
    ensures var r := PingOutcome(inbox, tries); r.val ==> r.err.None?
    decreases PingTries - tries
  {
    if tries < PingTries && Classify(IcmpUtil.NextEvent(inbox, tries)).Skip? {
      PingNeverPassesWithError(inbox, tries + 1);
    }
  }

  /** The loop succeeds exactly when an echo reply, of any content, is read
      before any failure within the two tries: only packets of other types
      are passed over. */
  lemma {:induction false} PingEchoIff(inbox: seq<IcmpUtil.ReadEvent>, tries: nat)
    requires tries <= PingTries
    ensures PingOutcome(inbox, tries) == Ret(true, None) <==>
      exists j: nat :: tries <= j < PingTries && IsEchoReply(IcmpUtil.NextEvent(inbox, j))
        && forall k: nat :: tries <= k < j ==> Classify(IcmpUtil.NextEvent(inbox, k)).Skip?
    decreases PingTries - tries
  {
    if tries < PingTries {
      var ev := IcmpUtil.NextEvent(inbox, tries);
      if Classify(ev).Done? {
        if !IsEchoReply(ev) {
          forall j: nat | tries <= j < PingTries && IsEchoReply(IcmpUtil.NextEvent(inbox, j))
            ensures exists k: nat :: tries <= k < j && Classify(IcmpUtil.NextEvent(inbox, k)).Done?
          {
            assert j != tries;
          }
        }
      } else {
        PingEchoIff(inbox, tries + 1);
        if PingOutcome(inbox, tries) == Ret(true, None) {
          var j: nat :| tries + 1 <= j < PingTries && IsEchoReply(IcmpUtil.NextEvent(inbox, j))
            && forall k: nat :: tries + 1 <= k < j ==> Classify(IcmpUtil.NextEvent(inbox, k)).Skip?;
          assert forall k: nat :: tries <= k < j ==> Classify(IcmpUtil.NextEvent(inbox, k)).Skip?;
        }
      }
    }
  }

  /** (false, nil) comes back exactly when both reads yield packets that are
      not echo replies. */
  lemma {:induction false} PingSkippedIff(inbox: seq<IcmpUtil.ReadEvent>, tries: nat)
    requires tries <= PingTries
    ensures PingOutcome(inbox, tries) == Ret(false, None) <==>
      forall j: nat :: tries <= j < PingTries ==> Classify(IcmpUtil.NextEvent(inbox, j)).Skip?
    decreases PingTries - tries
  {
    if tries < PingTries && Classify(IcmpUtil.NextEvent(inbox, tries)).Skip? {
      PingSkippedIff(inbox, tries + 1);
    }
  }

  /** At most two packets are examined: what arrives after them never
      matters. */
  lemma {:induction false} OnlyTwoReads(inbox: seq<IcmpUtil.ReadEvent>, tries: nat)
    requires |inbox| >= PingTries
    ensures PingOutcome(inbox, tries) == PingOutcome(inbox[..PingTries], tries)
    decreases PingTries - tries
  {
    if tries < PingTries {
      assert IcmpUtil.NextEvent(inbox, tries) == IcmpUtil.NextEvent(inbox[..PingTries], tries);
      OnlyTwoReads(inbox, tries + 1);
    }
  }

  /** Nothing arriving (the 192.192.192.192 case of the tests) gives "ICMP
      timeout"; on loopback the own echo request is read back first and
      skipped, then the reply gives true, whatever its body. */
  lemma PingTestScenarios(body: seq<Byte>)
    ensures PingOutcome([], 0) == Ret(false, Some(Plain("ICMP timeout")))
    ensures PingOutcome([IcmpUtil.Packet(IcmpUtil.IcmpMessage(IcmpUtil.ICMPv4Echo, 0, body)),
                         IcmpUtil.Packet(IcmpUtil.IcmpMessage(IcmpUtil.ICMPv4EchoReply, 0, body))], 0) == Ret(true, None)
  {
  }

  // ---------------------------------------------------------------------------
  // DNS

  /** runDNSLookupUsingCustomResolver: the same query, RCODE check and A-record
      filter as RunDNSLookupUsingCustomResolver of netutils/dnsutil.go. */
  method RunDnsLookupUsingCustomResolver(nameserver: string, hostFqdn: string, id: int, exchange: DnsUtil.Exchanger)
    returns (r: DnsUtil.LookupReturn)
    requires 0 <= id < 0x1_0000
    ensures r == DnsUtil.LookupOutcome(nameserver, hostFqdn, id, exchange)
    ensures r.err.None? ==> r.ips.Some? && forall ip :: ip in r.ips.value ==> exists i ::
      var reply := exchange(DnsUtil.BuildQuery(id, hostFqdn), nameserver).value;
      0 <= i < |reply.answer| && reply.answer[i].ARecord? && DottedQuad(reply.answer[i].a) == ip
  {
    r := DnsUtil.RunDnsLookupUsingCustomResolver(nameserver, hostFqdn, id, exchange);
    DnsUtil.LookupOutcomes(nameserver, hostFqdn, id, exchange);
  }
}
