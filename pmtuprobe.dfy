/** Path-MTU discovery of netutils/pmtuprobe.go: a binary search over the ICMP
    payload size with the Don't Fragment bit set, in the manner of section 3
    of RFC 1191. The ICMP probe to the fixed destination is an oracle from
    payload size to the (code, error) pair SendRecvICMPMessage returns. */
module PmtuProbe {
  import opened Base
  import IcmpUtil

  const IpHeaderSize := 20
  const IcmpHeaderSize := 8
  const MaxMtuSize := 9000
  const MinPayloadSize := IcmpHeaderSize + IpHeaderSize
  const MaxPayloadSize := MaxMtuSize - IcmpHeaderSize - IpHeaderSize

  /** The inner text of the OpError the kernel gives for a datagram larger
      than the outgoing interface's MTU. */
  const MessageTooLong := "sendmsg: message too long"

  /** SendRecvICMPMessage(dstIP, size, true) for the fixed destination. */
  type Prober = int -> Ret<int>

  /** How one probe at the midpoint moves the search. */
  datatype Move = GoLower | GoHigher | Abort(err: Error)

  /** The decision of one loop iteration (pmtuprobe.go:31-54): "message too
      long" and code 1 go lower; any error that is not an OpError aborts; every
      other outcome, including code 2 and an OpError with another message
      (whose code is then taken as is), goes higher. */
  function Decide(r: Ret<int>): Move {
    match r.err
    case Some(OpError(_, inner)) =>
      if inner == MessageTooLong then GoLower
      else if r.val == IcmpUtil.FragmentationRequired then GoLower
      else GoHigher
    case Some(e) => Abort(e)
    case None =>
      if r.val == IcmpUtil.FragmentationRequired then GoLower else GoHigher
  }

  /** Go's (lo + hi) / 2 on non-negative operands. */
  function Midpoint(lo: int, hi: int): (mid: int)
    requires 0 <= lo <= hi
    ensures lo <= mid <= hi
  {
    (lo + hi) / 2
  }

  /** The result of the search loop entered with bounds [lo, hi] and best
      working size `best`. */
  function Search(probe: Prober, lo: int, hi: int, best: int): Ret<int>
    requires 0 <= lo
    decreases if lo <= hi then hi - lo + 1 else 0
  {
    if lo > hi then Ret(best + IpHeaderSize + IcmpHeaderSize, None)
    else
      var mid := Midpoint(lo, hi);
      match Decide(probe(mid))
      case GoLower => Search(probe, lo, mid - 1, best)
      case GoHigher => Search(probe, mid + 1, hi, mid)
      case Abort(e) => Ret(-1, Some(e))
  }

  /** The whole of PMTUProbeToDestIP: a probe at the floor first, which must
      neither fail nor ask for fragmentation, then the search. */
  function PathMtu(probe: Prober): Ret<int> {
    var first := probe(MinPayloadSize);
    if first.err.Some? || first.val == IcmpUtil.FragmentationRequired then Ret(-1, first.err)
    else Search(probe, MinPayloadSize, MaxPayloadSize, MinPayloadSize)
  }

  /** PMTUProbeToDestIP. */
  method PmtuProbeToDestIp(probe: Prober) returns (r: Ret<int>)
    ensures r == PathMtu(probe)
  {
    var minPayloadSize, maxPayloadSize := MinPayloadSize, MaxPayloadSize;
    var first := probe(minPayloadSize);
    if first.err.Some? || first.val == IcmpUtil.FragmentationRequired {
      return Ret(-1, first.err);
    }
    var maxOkMtu := minPayloadSize;
    while minPayloadSize <= maxPayloadSize
      invariant MinPayloadSize <= minPayloadSize
      invariant Search(probe, minPayloadSize, maxPayloadSize, maxOkMtu) == PathMtu(probe)
      decreases maxPayloadSize - minPayloadSize + 1
    {
      var midPayloadSize := (minPayloadSize + maxPayloadSize) / 2;
      var ret := probe(midPayloadSize);
      if ret.err.Some? {
        if ret.err.value.OpError? {
          if ret.err.value.inner == MessageTooLong {
            maxPayloadSize := midPayloadSize - 1;
            continue;
          }
        } else {
          return Ret(-1, ret.err);
        }
      }
      if ret.val == IcmpUtil.FragmentationRequired {
        maxPayloadSize := midPayloadSize - 1;
      } else {
        minPayloadSize := midPayloadSize + 1;
        maxOkMtu := midPayloadSize;
      }
    }
    return Ret(maxOkMtu + IpHeaderSize + IcmpHeaderSize, None);
  }

  /** A failed or fragmentation-required probe at the floor ends discovery with
      -1 and that probe's error (nil for code 1) before any search step. */
  lemma FloorFailure(probe: Prober)
    requires probe(MinPayloadSize).err.Some? || probe(MinPayloadSize).val == IcmpUtil.FragmentationRequired
    ensures PathMtu(probe) == Ret(-1, probe(MinPayloadSize).err)
  {
  }

  /** The best size never decreases and stays within [28, 8972]: a search
      either aborts with -1 and an error, or returns at least the best size
      it started from plus the 28 header bytes, and at most 9000. */
  lemma {:induction false} SearchBounds(probe: Prober, lo: int, hi: int, best: int)
    requires MinPayloadSize <= best <= lo && hi <= MaxPayloadSize && best <= MaxPayloadSize
    ensures var r := Search(probe, lo, hi, best);
      && (r.err.Some? <==> r.val == -1)
      && (r.err.None? ==> best + MinPayloadSize <= r.val <= MaxMtuSize)
    decreases if lo <= hi then hi - lo + 1 else 0
  {
    if lo <= hi {
      var mid := Midpoint(lo, hi);
      match Decide(probe(mid))
      case GoLower => SearchBounds(probe, lo, mid - 1, best);
      case GoHigher => SearchBounds(probe, mid + 1, hi, mid);
      case Abort(_) =>
    }
  }

  /** A successful discovery lies in [56, 9000]; a failed one is -1. */
  lemma PathMtuBounds(probe: Prober)
    ensures var r := PathMtu(probe);
      && (r.err.Some? ==> r.val == -1)
      && (r.err.None? ==> r.val == -1 || 2 * MinPayloadSize <= r.val <= MaxMtuSize)
  {
    var first := probe(MinPayloadSize);
    if !(first.err.Some? || first.val == IcmpUtil.FragmentationRequired) {
      SearchBounds(probe, MinPayloadSize, MaxPayloadSize, MinPayloadSize);
    }
  }

  /** The size a search reports was seen working: it is the floor, or the
      probe at exactly that payload size moved the search higher. */
  lemma {:induction false} SearchReportsWorkingSize(probe: Prober, lo: int, hi: int, best: int)
    requires 0 <= lo
    requires best == MinPayloadSize || Decide(probe(best)) == GoHigher
    ensures var r := Search(probe, lo, hi, best);
      r.err.None? ==> r.val - MinPayloadSize == MinPayloadSize || Decide(probe(r.val - MinPayloadSize)) == GoHigher
    decreases if lo <= hi then hi - lo + 1 else 0
  {
    if lo <= hi {
      var mid := Midpoint(lo, hi);
      match Decide(probe(mid))
      case GoLower => SearchReportsWorkingSize(probe, lo, mid - 1, best);
      case GoHigher => SearchReportsWorkingSize(probe, mid + 1, hi, mid);
      case Abort(_) =>
    }
  }

  /** A path on which every payload up to `t` is echoed and every larger one
      needs fragmentation. */
  ghost predicate MonotonePath(probe: Prober, t: int) {
    forall s :: MinPayloadSize <= s <= MaxPayloadSize ==>
      probe(s) == (if s <= t then Ret(IcmpUtil.EchoReplyReceived, None) else Ret(IcmpUtil.FragmentationRequired, None))
  }

  lemma {:induction false} SearchFindsThreshold(probe: Prober, t: int, lo: int, hi: int, best: int)
    requires MonotonePath(probe, t) && MinPayloadSize <= t <= MaxPayloadSize
    requires MinPayloadSize <= lo <= hi + 1 && hi <= MaxPayloadSize
    requires lo - 1 <= t <= hi
    requires best == if lo == MinPayloadSize then MinPayloadSize else lo - 1
    ensures Search(probe, lo, hi, best) == Ret(t + IpHeaderSize + IcmpHeaderSize, None)
    decreases if lo <= hi then hi - lo + 1 else 0
  {
    if lo <= hi {
      var mid := Midpoint(lo, hi);
      if mid <= t {
        SearchFindsThreshold(probe, t, mid + 1, hi, mid);
      } else {
        SearchFindsThreshold(probe, t, lo, mid - 1, best);
      }
    }
  }

  /** On a monotone path with threshold T in [28, 8972] discovery returns
      exactly T + 28: the highest MTU that works. */
  lemma MonotonePathExact(probe: Prober, t: int)
    requires MonotonePath(probe, t) && MinPayloadSize <= t <= MaxPayloadSize
    ensures PathMtu(probe) == Ret(t + IpHeaderSize + IcmpHeaderSize, None)
  {
    SearchFindsThreshold(probe, t, MinPayloadSize, MaxPayloadSize, MinPayloadSize);
  }
}
