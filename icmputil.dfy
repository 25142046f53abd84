/** The ICMP echo prober of netutils/icmputil.go: address-family dispatch, the
    echo request each family sends, and the bounded read loops that classify
    replies into the return codes 0 (echo reply), 1 (fragmentation required)
    and 2 (only unrelated ICMP seen), or -1 with an error.

    The raw socket is abstracted as a Wire: whether the listening socket can
    be opened, and for each request sent, the send error (if any) and the
    sequence of events the socket then yields, one per ReadFrom call. Reading
    past the end of that sequence means the 4-second read deadline passed. */
module IcmpUtil {
  import opened Base

  const IcmpTimeoutSeconds := 4
  const IcmpMessageBody := "K8SNETLOOK-ICMP-TEST"
  const DefaultPayloadSize := 64
  const IcmpIdRandMin := 5000
  const IcmpIdRandMax := 32000
  const MaxCountIcmpReply := 10

  // Return codes of SendRecvIcmpMessage
  const EchoReplyReceived := 0
  const FragmentationRequired := 1
  const UnexpectedIcmpType := 2
  const Failed := -1

  // ICMP types and codes (RFC 792 for ICMPv4, RFC 4443 for ICMPv6)
  const ICMPv4EchoReply := 0
  const ICMPv4DestinationUnreachable := 3
  const ICMPv4CodeFragmentationNeeded := 4
  const ICMPv4Echo := 8
  const ICMPv6PacketTooBig := 2
  const ICMPv6EchoRequest := 128
  const ICMPv6EchoReply := 129

  /** The Don't Fragment flag of the IPv4 header (section 3.1 of RFC 791), in
      the 3-bit flags field as ipv4.DontFragment encodes it. */
  const DontFragment: bv8 := 2
  const Ttl := 64

  /** The application signature carried by every echo request. */
  function Signature(): (sig: seq<Byte>)
    ensures |sig| == |IcmpMessageBody| == 20
  {
    AsciiBytes(IcmpMessageBody)
  }

  datatype Family = IPv4Family | IPv6Family

  /** net.IP.To4: the 4-byte form of a 4-byte address or of an IPv4-mapped
      16-byte address; nothing for anything else (including a failed parse). */
  function To4(ip: seq<Byte>): Option<IPv4> {
    if |ip| == 4 then Some(ip)
    else if |ip| == 16 && ip[..10] == Zeros(10) && ip[10] == 255 && ip[11] == 255 then Some(ip[12..])
    else None
  }

  /** The dispatch of SendRecvICMPMessage on the parsed destination. */
  function FamilyOf(parsed: seq<Byte>): Family {
    if To4(parsed).Some? then IPv4Family else IPv6Family
  }

  /** A parsed ICMP message; `body` is the marshalled message body that the
      signature is searched in. */
  datatype IcmpMessage = IcmpMessage(msgType: int, code: int, body: seq<Byte>)

  /** What one ReadFrom on the listening socket, followed by parsing, yields. */
  datatype ReadEvent =
    | Packet(msg: IcmpMessage)
    | Malformed(reason: string)
    | ReadError(timeout: bool, reason: string)

  /** The echo request put on the wire. */
  datatype EchoRequest =
    | EchoV4(dst: string, ttl: int, flags: bv8, icmpType: int, data: seq<Byte>)
    | EchoV6(dst: string, icmpType: int, id: int, seqNum: int, data: seq<Byte>)

  datatype Transmission = Transmission(sendErr: Option<Error>, inbox: seq<ReadEvent>)

  datatype Wire = Wire(listenErr: Option<string>, transmit: EchoRequest -> Transmission)

  /** Payload sizes below the default are raised to it. */
  function Clamp(payloadSize: int): int {
    if payloadSize < DefaultPayloadSize then DefaultPayloadSize else payloadSize
  }

  /** IPv4 request data: the signature, zero-padded to payloadSize bytes. */
  function PayloadV4(payloadSize: int): seq<Byte> {
    Signature() + (if payloadSize > |IcmpMessageBody| then Zeros(payloadSize - |IcmpMessageBody|) else [])
  }

  /** IPv6 request data: the signature, zero-padded so that the whole ICMP
      message (the 8-byte header of type, code, checksum, identifier and
      sequence number, then the data) is payloadSize bytes long. Go's make panics on a negative length, which the
      requires excludes. */
  function PayloadV6(payloadSize: int): seq<Byte>
    requires payloadSize <= |IcmpMessageBody| || payloadSize >= |IcmpMessageBody| + 8
  {
    Signature() + (if payloadSize > |IcmpMessageBody| then Zeros(payloadSize - |IcmpMessageBody| - 8) else [])
  }

  /** The flags field after `ipHeader.Flags |= ipv4.DontFragment` or not. */
  function HeaderFlags(dontFragment: bool): bv8 {
    var flags: bv8 := 0;
    if dontFragment then flags | DontFragment else flags
  }

  /** The request each path builds, from the caller's arguments (before the
      clamp) and the random draw `idRand` in [0, 27000) of the IPv6 path. */
  function SentRequest(dstIp: string, parsed: seq<Byte>, payloadSize: int, dontFragment: bool, idRand: int): EchoRequest
    requires 0 <= idRand < IcmpIdRandMax - IcmpIdRandMin
  {
    var size := Clamp(payloadSize);
    match FamilyOf(parsed)
    case IPv4Family => EchoV4(dstIp, Ttl, HeaderFlags(dontFragment), ICMPv4Echo, PayloadV4(size))
    case IPv6Family => EchoV6(dstIp, ICMPv6EchoRequest, (idRand + IcmpIdRandMin) % 0x1_0000, 1, PayloadV6(size))
  }

  /** The request on either path carries the signature followed by zeros, at
      least 64 bytes of payload, the IPv4 Don't Fragment bit exactly when the
      caller asked for it, and an IPv6 identifier in [5000, 32000). */
  lemma RequestShape(dstIp: string, parsed: seq<Byte>, payloadSize: int, dontFragment: bool, idRand: int)
    requires 0 <= idRand < IcmpIdRandMax - IcmpIdRandMin
    ensures var req := SentRequest(dstIp, parsed, payloadSize, dontFragment, idRand);
      && req.dst == dstIp
      && req.data[..20] == Signature()
      && (forall i :: 20 <= i < |req.data| ==> req.data[i] == 0)
      && (req.EchoV4? <==> To4(parsed).Some?)
      && (req.EchoV4? ==> |req.data| == Clamp(payloadSize) >= DefaultPayloadSize)
      && (req.EchoV4? ==> (req.flags & DontFragment != 0 <==> dontFragment))
      && (req.EchoV6? ==> |req.data| + 8 == Clamp(payloadSize))
      && (req.EchoV6? ==> IcmpIdRandMin <= req.id < IcmpIdRandMax && req.seqNum == 1)
  {
  }

  // ---------------------------------------------------------------------------
  // Reply classification

  /** The event seen by the `tries`-th ReadFrom. */
  function NextEvent(inbox: seq<ReadEvent>, tries: nat): ReadEvent {
    if tries < |inbox| then inbox[tries] else ReadError(true, "i/o timeout")
  }

  datatype Verdict = Finish(r: Ret<int>) | KeepReading

  /** A read or parse failure ends the loop with code -1 and an error. */
  function FailureVerdict(ev: ReadEvent): Verdict
    requires !ev.Packet?
  {
    match ev
    case ReadError(timeout, reason) =>
      if timeout then Finish(Ret(Failed, Some(Plain("ICMP timeout"))))
      else Finish(Ret(Failed, Some(Plain("Unable to read reply from icmp socket: " + reason))))
    case Malformed(reason) =>
      Finish(Ret(Failed, Some(Plain("Unable to parse ICMP message:" + reason))))
  }

  /** An echo reply that carries the application signature. */
  predicate IsOwnEchoReply(family: Family, ev: ReadEvent) {
    && ev.Packet?
    && ev.msg.msgType == (if family == IPv4Family then ICMPv4EchoReply else ICMPv6EchoReply)
    && Contains(ev.msg.body, Signature())
  }

  /** ICMPv4 Destination Unreachable with code 4, or any ICMPv6 Packet Too Big. */
  predicate IsFragmentationNeeded(family: Family, ev: ReadEvent) {
    && ev.Packet?
    && match family
       case IPv4Family => ev.msg.msgType == ICMPv4DestinationUnreachable && ev.msg.code == ICMPv4CodeFragmentationNeeded
       case IPv6Family => ev.msg.msgType == ICMPv6PacketTooBig
  }

  /** The body of one iteration of the read loop of either family. */
  function Classify(family: Family, ev: ReadEvent): Verdict {
    if !ev.Packet? then FailureVerdict(ev)
    else if IsOwnEchoReply(family, ev) then Finish(Ret(EchoReplyReceived, None))
    else if IsFragmentationNeeded(family, ev) then Finish(Ret(FragmentationRequired, None))
    else KeepReading
  }

  predicate Decisive(family: Family, ev: ReadEvent) {
    Classify(family, ev).Finish?
  }

  /** The outcome of the read loop from iteration `tries` on. */
  function ReplyOutcome(family: Family, inbox: seq<ReadEvent>, tries: nat): Ret<int>
    decreases MaxCountIcmpReply - tries
  {
    if tries >= MaxCountIcmpReply then Ret(UnexpectedIcmpType, None)
    else match Classify(family, NextEvent(inbox, tries))
      case Finish(r) => r
      case KeepReading => ReplyOutcome(family, inbox, tries + 1)
  }

  /** The read loop of sendRecvICMPMessageV4 / sendRecvICMPMessageV6. */
  method ReadReplies(family: Family, inbox: seq<ReadEvent>) returns (r: Ret<int>)
    ensures r == ReplyOutcome(family, inbox, 0)
  {
    var tries := 0;
    while tries < MaxCountIcmpReply
      invariant 0 <= tries <= MaxCountIcmpReply
      invariant ReplyOutcome(family, inbox, tries) == ReplyOutcome(family, inbox, 0)
    {
      var verdict := Classify(family, NextEvent(inbox, tries));
      if verdict.Finish? {
        return verdict.r;
      }
      tries := tries + 1;
    }
    return Ret(UnexpectedIcmpType, None);
  }

  /** Every outcome has code -1, 0, 1 or 2, and carries an error exactly
      when its code is -1. */
  lemma {:induction false} ReplyOutcomeCodes(family: Family, inbox: seq<ReadEvent>, tries: nat)
    ensures var r := ReplyOutcome(family, inbox, tries);
      && r.val in {Failed, EchoReplyReceived, FragmentationRequired, UnexpectedIcmpType}
      && (r.val == Failed <==> r.err.Some?)
    decreases MaxCountIcmpReply - tries
  {
    if tries < MaxCountIcmpReply && !Decisive(family, NextEvent(inbox, tries)) {
      ReplyOutcomeCodes(family, inbox, tries + 1);
    }
  }

  /** The loop reports an echo reply exactly when, among the events it reads,
      the first decisive one is an echo reply carrying the signature. */
  lemma {:induction false} EchoReplyIff(family: Family, inbox: seq<ReadEvent>, tries: nat)
    requires tries <= MaxCountIcmpReply
    ensures ReplyOutcome(family, inbox, tries) == Ret(EchoReplyReceived, None) <==>
      exists j :: tries <= j < MaxCountIcmpReply && IsOwnEchoReply(family, NextEvent(inbox, j))
        && forall k :: tries <= k < j ==> !Decisive(family, NextEvent(inbox, k))
    decreases MaxCountIcmpReply - tries
  {
    if tries < MaxCountIcmpReply {
      var ev := NextEvent(inbox, tries);
      if Decisive(family, ev) {
        if !IsOwnEchoReply(family, ev) {
          forall j | tries <= j < MaxCountIcmpReply && IsOwnEchoReply(family, NextEvent(inbox, j))
            ensures exists k :: tries <= k < j && Decisive(family, NextEvent(inbox, k))
          {
            assert j != tries;
          }
        }
      } else {
        EchoReplyIff(family, inbox, tries + 1);
        if ReplyOutcome(family, inbox, tries) == Ret(EchoReplyReceived, None) {
          var j :| tries + 1 <= j < MaxCountIcmpReply && IsOwnEchoReply(family, NextEvent(inbox, j))
            && forall k :: tries + 1 <= k < j ==> !Decisive(family, NextEvent(inbox, k));
          assert forall k :: tries <= k < j ==> !Decisive(family, NextEvent(inbox, k));
        }
      }
    }
  }

  /** The loop reports fragmentation required exactly when the first decisive
      event it reads is a fragmentation-needed message; no signature is
      checked on that path. */
  lemma {:induction false} FragmentationIff(family: Family, inbox: seq<ReadEvent>, tries: nat)
    requires tries <= MaxCountIcmpReply
    ensures ReplyOutcome(family, inbox, tries) == Ret(FragmentationRequired, None) <==>
      exists j :: tries <= j < MaxCountIcmpReply && IsFragmentationNeeded(family, NextEvent(inbox, j))
        && !IsOwnEchoReply(family, NextEvent(inbox, j))
        && forall k :: tries <= k < j ==> !Decisive(family, NextEvent(inbox, k))
    decreases MaxCountIcmpReply - tries
  {
    if tries < MaxCountIcmpReply {
      var ev := NextEvent(inbox, tries);
      if Decisive(family, ev) {
        if !(IsFragmentationNeeded(family, ev) && !IsOwnEchoReply(family, ev)) {
          forall j | tries <= j < MaxCountIcmpReply && IsFragmentationNeeded(family, NextEvent(inbox, j))
            && !IsOwnEchoReply(family, NextEvent(inbox, j))
            ensures exists k :: tries <= k < j && Decisive(family, NextEvent(inbox, k))
          {
            assert j != tries;
          }
        }
      } else {
        FragmentationIff(family, inbox, tries + 1);
        if ReplyOutcome(family, inbox, tries) == Ret(FragmentationRequired, None) {
          var j :| tries + 1 <= j < MaxCountIcmpReply && IsFragmentationNeeded(family, NextEvent(inbox, j))
            && !IsOwnEchoReply(family, NextEvent(inbox, j))
            && forall k :: tries + 1 <= k < j ==> !Decisive(family, NextEvent(inbox, k));
          assert forall k :: tries <= k < j ==> !Decisive(family, NextEvent(inbox, k));
        }
      }
    }
  }

  /** Code 2 is returned exactly when all ten reads yield packets that are
      neither a signed echo reply nor a fragmentation-needed message. */
  lemma {:induction false} BudgetExhaustedIff(family: Family, inbox: seq<ReadEvent>, tries: nat)
    requires tries <= MaxCountIcmpReply
    ensures ReplyOutcome(family, inbox, tries) == Ret(UnexpectedIcmpType, None) <==>
      forall j :: tries <= j < MaxCountIcmpReply ==> !Decisive(family, NextEvent(inbox, j))
    decreases MaxCountIcmpReply - tries
  {
    if tries < MaxCountIcmpReply {
      if !Decisive(family, NextEvent(inbox, tries)) {
        BudgetExhaustedIff(family, inbox, tries + 1);
      }
    }
  }

  /** At most ten packets are examined: events after the tenth never matter. */
  lemma {:induction false} OnlyTenReads(family: Family, inbox: seq<ReadEvent>, tries: nat)
    requires |inbox| >= MaxCountIcmpReply
    ensures ReplyOutcome(family, inbox, tries) == ReplyOutcome(family, inbox[..MaxCountIcmpReply], tries)
    decreases MaxCountIcmpReply - tries
  {
    if tries < MaxCountIcmpReply {
      assert NextEvent(inbox, tries) == NextEvent(inbox[..MaxCountIcmpReply], tries);
      OnlyTenReads(family, inbox, tries + 1);
    }
  }

  /** When nothing arrives (the 192.192.192.192 case of the tests), the
      loop fails with "ICMP timeout"; when the own echo request and then the
      signed reply arrive (the loopback case), it returns (0, nil). */
  lemma TestScenarios(family: Family, sig: seq<Byte>)
    requires sig == Signature()
    ensures ReplyOutcome(family, [], 0) == Ret(Failed, Some(Plain("ICMP timeout")))
    ensures var request := Packet(IcmpMessage(if family == IPv4Family then ICMPv4Echo else ICMPv6EchoRequest, 0, [0, 1, 0, 1] + sig));
      var reply := Packet(IcmpMessage(if family == IPv4Family then ICMPv4EchoReply else ICMPv6EchoReply, 0, [0, 1, 0, 1] + sig));
      ReplyOutcome(family, [request, reply], 0) == Ret(EchoReplyReceived, None)
  {
    var body := [0, 1, 0, 1] + sig;
    assert OccursAt(body, sig, 4);
    ContainsIff(body, sig);
  }

  // ---------------------------------------------------------------------------
  // The probe

  /** What SendRecvICMPMessage returns, step by step: IPv4 clamps, opens the
      socket, sends (returning a send error unchanged) and reads; IPv6 opens
      the socket, clamps, sends (wrapping a send error) and reads. */
  function ProbeOutcome(dstIp: string, parsed: seq<Byte>, payloadSize: int, dontFragment: bool, idRand: int, wire: Wire): Ret<int>
    requires 0 <= idRand < IcmpIdRandMax - IcmpIdRandMin
  {
    var family := FamilyOf(parsed);
    if wire.listenErr.Some? then
      Ret(Failed, Some(Plain("Unable to open icmp socket for ping test: " + wire.listenErr.value)))
    else
      var t := wire.transmit(SentRequest(dstIp, parsed, payloadSize, dontFragment, idRand));
      if t.sendErr.Some? then
        if family == IPv4Family then Ret(Failed, t.sendErr)
        else Ret(Failed, Some(Plain("Unable to send icmp echo request to " + dstIp + ":" + Text(t.sendErr.value))))
      else ReplyOutcome(family, t.inbox, 0)
  }

  /** SendRecvICMPMessage; `parsed` is net.ParseIP(dstIp) (empty when the
      text is not an address) and `idRand` the draw of rand.Intn. */
  method SendRecvIcmpMessage(dstIp: string, parsed: seq<Byte>, payloadSize: int, dontFragment: bool, idRand: int, wire: Wire)
    returns (r: Ret<int>)
    requires 0 <= idRand < IcmpIdRandMax - IcmpIdRandMin
    ensures r == ProbeOutcome(dstIp, parsed, payloadSize, dontFragment, idRand, wire)
  {
    var family := FamilyOf(parsed);
    if wire.listenErr.Some? {
      return Ret(Failed, Some(Plain("Unable to open icmp socket for ping test: " + wire.listenErr.value)));
    }
    var t := wire.transmit(SentRequest(dstIp, parsed, payloadSize, dontFragment, idRand));
    if t.sendErr.Some? {
      if family == IPv4Family {
        return Ret(Failed, t.sendErr);
      }
      return Ret(Failed, Some(Plain("Unable to send icmp echo request to " + dstIp + ":" + Text(t.sendErr.value))));
    }
    r := ReadReplies(family, t.inbox);
  }

  /** Only the IPv4 path passes a send error through unchanged, so only it
      can surface a *net.OpError to the caller. */
  lemma OpErrorOnlyFromIPv4(dstIp: string, parsed: seq<Byte>, payloadSize: int, dontFragment: bool, idRand: int, wire: Wire)
    requires 0 <= idRand < IcmpIdRandMax - IcmpIdRandMin
    ensures var r := ProbeOutcome(dstIp, parsed, payloadSize, dontFragment, idRand, wire);
      r.err.Some? && r.err.value.OpError? ==> FamilyOf(parsed) == IPv4Family && r.val == Failed
  {
    var r := ProbeOutcome(dstIp, parsed, payloadSize, dontFragment, idRand, wire);
    if wire.listenErr.None? {
      var t := wire.transmit(SentRequest(dstIp, parsed, payloadSize, dontFragment, idRand));
      if t.sendErr.None? {
        ReplyOutcomeCodes(FamilyOf(parsed), t.inbox, 0);
        FailureMessagesPlain(FamilyOf(parsed), t.inbox, 0);
      }
    }
  }

  /** Errors raised inside the read loop are never OpErrors. */
  lemma {:induction false} FailureMessagesPlain(family: Family, inbox: seq<ReadEvent>, tries: nat)
    ensures var r := ReplyOutcome(family, inbox, tries); r.err.Some? ==> r.err.value.Plain?
    decreases MaxCountIcmpReply - tries
  {
    if tries < MaxCountIcmpReply && !Decisive(family, NextEvent(inbox, tries)) {
      FailureMessagesPlain(family, inbox, tries + 1);
    }
  }

  /** The IPv6 path ignores dontFragment, and on both paths every payload size
      below 64 behaves as 64. */
  lemma ProbeArgumentsIgnored(dstIp: string, parsed: seq<Byte>, payloadSize: int, dontFragment: bool, idRand: int, wire: Wire)
    requires 0 <= idRand < IcmpIdRandMax - IcmpIdRandMin
    ensures FamilyOf(parsed) == IPv6Family ==>
      ProbeOutcome(dstIp, parsed, payloadSize, dontFragment, idRand, wire) == ProbeOutcome(dstIp, parsed, payloadSize, !dontFragment, idRand, wire)
    ensures payloadSize < DefaultPayloadSize ==>
      ProbeOutcome(dstIp, parsed, payloadSize, dontFragment, idRand, wire) == ProbeOutcome(dstIp, parsed, DefaultPayloadSize, dontFragment, idRand, wire)
  {
  }
}
