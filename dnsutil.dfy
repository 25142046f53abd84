/** The DNS probe of netutils/dnsutil.go: one recursion-desired A/IN query
    (sections 4.1.1, 4.1.2, 3.2.2 and 3.2.4 of RFC 1035), a non-NOERROR
    response code turned into an error, and the A records of the answer
    section rendered as dotted quads, in answer order. The request/response
    exchange with the nameserver is an oracle. */
module DnsUtil {
  import opened Base

  const TypeA := 1
  const ClassINET := 1
  const RcodeSuccess := 0

  datatype Question = Question(name: string, qtype: int, qclass: int)

  /** The header fields the query sets, and its question section. */
  datatype Msg = Msg(id: int, recursionDesired: bool, question: seq<Question>)

  /** A resource record of the answer section: an A record or any other type. */
  datatype Record = ARecord(a: IPv4) | OtherRecord(rrtype: int)

  datatype Reply = Reply(rcode: int, answer: seq<Record>)

  /** dns.Exchange(msg, nameserver): an error, or the reply message. */
  type Exchanger = (Msg, string) -> Result<Reply>

  /** dns.Fqdn: appends the root label's dot unless the name already ends
      with one. */
  function Fqdn(name: string): (fq: string)
    ensures |fq| > 0 && fq[|fq| - 1] == '.'
    ensures HasPrefix(fq, name)
    ensures |name| > 0 && name[|name| - 1] == '.' ==> fq == name
  {
    if |name| > 0 && name[|name| - 1] == '.' then name else name + "."
  }

  /** Fqdn is idempotent. */
  lemma FqdnIdempotent(name: string)
    ensures Fqdn(Fqdn(name)) == Fqdn(name)
  {
  }

  /** The query for the A record of `hostFqdn`; `id` is dns.Id()'s draw. */
  function BuildQuery(id: int, hostFqdn: string): (m: Msg)
    requires 0 <= id < 0x1_0000
    ensures |m.question| == 1 && m.recursionDesired && m.id == id
    ensures m.question[0].qtype == TypeA && m.question[0].qclass == ClassINET
    ensures m.question[0].name == Fqdn(hostFqdn)
  {
    Msg(id, true, [Question(Fqdn(hostFqdn), TypeA, ClassINET)])
  }

  /** dns.RcodeToString; a code missing from the table gives "". */
  function RcodeToString(rcode: int): string {
    match rcode
    case 0 => "NOERROR"
    case 1 => "FORMERR"
    case 2 => "SERVFAIL"
    case 3 => "NXDOMAIN"
    case 4 => "NOTIMP"
    case 5 => "REFUSED"
    case 6 => "YXDOMAIN"
    case 7 => "YXRRSET"
    case 8 => "NXRRSET"
    case 9 => "NOTAUTH"
    case 10 => "NOTZONE"
    case 16 => "BADSIG"
    case 17 => "BADKEY"
    case 18 => "BADTIME"
    case 19 => "BADMODE"
    case 20 => "BADNAME"
    case 21 => "BADALG"
    case 22 => "BADTRUNC"
    case 23 => "BADCOOKIE"
    case _ => ""
  }

  /** The dotted-quad texts of the A records of `answer`, in order. */
  function ARecords(answer: seq<Record>): seq<string> {
    if answer == [] then []
    else
      var last := answer[|answer| - 1];
      ARecords(answer[..|answer| - 1]) + (if last.ARecord? then [DottedQuad(last.a)] else [])
  }

  /** A-record extraction never yields more entries than the answer has, yields
      one per record when every record is an A record, and each entry is the
      text of some A record of the answer. */
  lemma {:induction false} ARecordsFacts(answer: seq<Record>)
    ensures |ARecords(answer)| <= |answer|
    ensures (forall i :: 0 <= i < |answer| ==> answer[i].ARecord?) ==> |ARecords(answer)| == |answer|
    ensures forall ip :: ip in ARecords(answer) ==> exists i :: 0 <= i < |answer| && answer[i].ARecord? && DottedQuad(answer[i].a) == ip
  {
    if answer != [] {
      var init := answer[..|answer| - 1];
      ARecordsFacts(init);
      forall ip | ip in ARecords(answer)
        ensures exists i :: 0 <= i < |answer| && answer[i].ARecord? && DottedQuad(answer[i].a) == ip
      {
        if ip in ARecords(init) {
          var i :| 0 <= i < |init| && init[i].ARecord? && DottedQuad(init[i].a) == ip;
          assert answer[i] == init[i];
        } else {
          assert answer[|answer| - 1].ARecord?;
        }
      }
    }
  }

  /** Every A record of the answer is extracted. */
  lemma {:induction false} ARecordsComplete(answer: seq<Record>, i: int)
    requires 0 <= i < |answer| && answer[i].ARecord?
    ensures DottedQuad(answer[i].a) in ARecords(answer)
  {
    var init := answer[..|answer| - 1];
    if i < |answer| - 1 {
      assert answer[i] == init[i];
      ARecordsComplete(init, i);
    }
  }

  /** Extraction distributes over concatenation: the answers are taken in
      order. */
  lemma {:induction false} ARecordsAppend(xs: seq<Record>, ys: seq<Record>)
    ensures ARecords(xs + ys) == ARecords(xs) + ARecords(ys)
    decreases |ys|
  {
    if ys == [] {
      assert xs + ys == xs;
    } else {
      var ys' := ys[..|ys| - 1];
      assert (xs + ys)[..|xs + ys| - 1] == xs + ys';
      ARecordsAppend(xs, ys');
    }
  }

  /** The result of RunDNSLookupUsingCustomResolver; `ips` is None for Go's
      nil slice. */
  datatype LookupReturn = LookupReturn(ips: Option<seq<string>>, err: Option<Error>)

  function LookupOutcome(nameserver: string, hostFqdn: string, id: int, exchange: Exchanger): LookupReturn
    requires 0 <= id < 0x1_0000
  {
    match exchange(BuildQuery(id, hostFqdn), nameserver)
    case Err(e) => LookupReturn(None, Some(e))
    case Ok(reply) =>
      if reply.rcode != RcodeSuccess then LookupReturn(Some([]), Some(Plain(RcodeToString(reply.rcode))))
      else LookupReturn(Some(ARecords(reply.answer)), None)
  }

  /** RunDNSLookupUsingCustomResolver(nameserver, hostFQDN). */
  method RunDnsLookupUsingCustomResolver(nameserver: string, hostFqdn: string, id: int, exchange: Exchanger)
    returns (r: LookupReturn)
    requires 0 <= id < 0x1_0000
    ensures r == LookupOutcome(nameserver, hostFqdn, id, exchange)
  {
    var msg := BuildQuery(id, hostFqdn);
    var response := exchange(msg, nameserver);
    if response.Err? {
      return LookupReturn(None, Some(response.error));
    }
    var reply := response.value;
    var result: seq<string> := [];
    if reply.rcode != RcodeSuccess {
      return LookupReturn(Some(result), Some(Plain(RcodeToString(reply.rcode))));
    }
    for i := 0 to |reply.answer|
      invariant result == ARecords(reply.answer[..i])
    {
      ARecordsAppend(reply.answer[..i], [reply.answer[i]]);
      assert reply.answer[..i + 1] == reply.answer[..i] + [reply.answer[i]];
      if reply.answer[i].ARecord? {
        result := result + [DottedQuad(reply.answer[i].a)];
      }
    }
    assert reply.answer[..|reply.answer|] == reply.answer;
    return LookupReturn(Some(result), None);
  }

  /** The three outcomes: an exchange error gives a nil list and that error; a
      non-NOERROR code gives an empty non-nil list and an error naming the
      code; otherwise the error is nil and the list holds the A records in
      answer order, never more entries than the answer section. */
  lemma LookupOutcomes(nameserver: string, hostFqdn: string, id: int, exchange: Exchanger)
    requires 0 <= id < 0x1_0000
    ensures var reply := exchange(BuildQuery(id, hostFqdn), nameserver);
      var r := LookupOutcome(nameserver, hostFqdn, id, exchange);
      && (reply.Err? ==> r == LookupReturn(None, Some(reply.error)))
      && (reply.Ok? && reply.value.rcode != RcodeSuccess ==>
            r.ips == Some([]) && r.err == Some(Plain(RcodeToString(reply.value.rcode))))
      && (reply.Ok? && reply.value.rcode == RcodeSuccess ==>
            r.err.None? && r.ips.Some? && |r.ips.value| <= |reply.value.answer|
            && forall ip :: ip in r.ips.value ==> exists i :: 0 <= i < |reply.value.answer| && reply.value.answer[i].ARecord? && DottedQuad(reply.value.answer[i].a) == ip)
  {
    var reply := exchange(BuildQuery(id, hostFqdn), nameserver);
    if reply.Ok? {
      ARecordsFacts(reply.value.answer);
    }
  }
}
