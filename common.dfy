/** k8snetlook/common.go: the final report. PrintReport scans the host and
    pod sections of the collected results, counting the successes, and logs
    one line per check and a summary of the counts; GetReportJSON serialises
    the results, or falls back to a fixed message. The log is returned as the
    sequence of strings handed to the logger, and json.Marshal is an
    oracle. */
module Common {
  import opened Base

  /** One reported check: its display name and whether it passed. */
  datatype Check = Check(name: string, success: bool)

  /** The collected results: the host section, then the pod section. */
  datatype Report = Report(hostChecks: seq<Check>, podChecks: seq<Check>)

  const Title := "----------------k8snetlook-----------------"
  const HostHeader := "----> Host Checks"
  const PodHeader := "----> Pod Checks (from within SrcPod)"
  const SummaryHeader := "-------------Summary-------------------"
  const Footer := "---------------------------------------"
  const JsonFallback := "Unable to return results as JSON string"

  /** The success flags of a section, in order. */
  function Successes(cs: seq<Check>): (s: seq<bool>)
    ensures |s| == |cs|
    ensures forall i :: 0 <= i < |cs| ==> s[i] == cs[i].success
  {
    seq(|cs|, i requires 0 <= i < |cs| => cs[i].success)
  }

  /** How many checks of a section passed. */
  function Passed(cs: seq<Check>): nat {
    CountTrue(Successes(cs))
  }

  /** The passing checks of a section, in order: an independent reference
      for Passed. */
  function Passing(cs: seq<Check>): seq<Check> {
    if cs == [] then []
    else Passing(cs[..|cs| - 1]) + (if cs[|cs| - 1].success then [cs[|cs| - 1]] else [])
  }

  function Symbol(success: bool): string {
    if success then " ok " else "fail"
  }

  /** " %s\t%s\n" of the symbol and the check's name. */
  function CheckLine(c: Check): string {
    " " + Symbol(c.success) + "\t" + c.name + "\n"
  }

  function CheckLines(cs: seq<Check>): (lines: seq<string>)
    ensures |lines| == |cs|
  {
    seq(|cs|, i requires 0 <= i < |cs| => CheckLine(cs[i]))
  }

  /** "<heading>: %d/%d\n" of a pass count and a section length. */
  function Tally(heading: string, passed: int, total: int): string {
    heading + ": " + Itoa(passed) + "/" + Itoa(total) + "\n"
  }

  /** The lines PrintReport logs for a report: the host listing, the pod
      listing when there is one, and the summary. */
  function ReportLog(r: Report): seq<string> {
    HostListing(r.hostChecks) + PodListing(r.podChecks) + Summary(r)
  }

  function HostListing(host: seq<Check>): seq<string> {
    [Title, "", HostHeader] + CheckLines(host) + [""]
  }

  function PodListing(pod: seq<Check>): seq<string> {
    if |pod| > 0 then [PodHeader] + CheckLines(pod) else []
  }

  function Summary(r: Report): seq<string> {
    var hp := Passed(r.hostChecks);
    var pp := Passed(r.podChecks);
    ["", SummaryHeader, "",
     Tally("  Host Checks", hp, |r.hostChecks|),
     Tally("   Pod Checks", pp, |r.podChecks|),
     Tally(" Total Checks", hp + pp, |r.hostChecks| + |r.podChecks|),
     "", Footer]
  }

  /** The loop over one section: a line per check, and the count of those
      that passed. */
  method ListChecks(cs: seq<Check>) returns (lines: seq<string>, passCount: nat)
    ensures lines == CheckLines(cs)
    ensures passCount == Passed(cs)
  {
    lines := [];
    passCount := 0;
    for i := 0 to |cs|
      invariant lines == CheckLines(cs)[..i]
      invariant passCount == CountTrue(Successes(cs)[..i])
    {
      var ch := cs[i];
      var symbol := "fail";
      if ch.success {
        symbol := " ok ";
        passCount := passCount + 1;
      }
      CountTruePrefix(Successes(cs), i);
      lines := lines + [" " + symbol + "\t" + ch.name + "\n"];
      assert CheckLines(cs)[..i + 1] == CheckLines(cs)[..i] + [CheckLines(cs)[i]];
    }
    assert Successes(cs)[..|cs|] == Successes(cs);
    assert CheckLines(cs)[..|cs|] == CheckLines(cs);
  }

  /** PrintReport: the log and the two pass counts it computes. The report
      is only read. */
  method PrintReport(r: Report) returns (log: seq<string>, hostPassCount: nat, podPassCount: nat)
    ensures log == ReportLog(r)
    ensures hostPassCount == Passed(r.hostChecks)
    ensures podPassCount == Passed(r.podChecks)
  {
    log := [Title, "", HostHeader];
    var hostLines;
    hostLines, hostPassCount := ListChecks(r.hostChecks);
    log := log + hostLines + [""];
    podPassCount := 0;
    if |r.podChecks| > 0 {
      log := log + [PodHeader];
      var podLines;
      podLines, podPassCount := ListChecks(r.podChecks);
      log := log + podLines;
    }
    log := log + ["", SummaryHeader, "",
                  Tally("  Host Checks", hostPassCount, |r.hostChecks|),
                  Tally("   Pod Checks", podPassCount, |r.podChecks|),
                  Tally(" Total Checks", hostPassCount + podPassCount, |r.hostChecks| + |r.podChecks|),
                  "", Footer];
  }

  /** Two reports of the same results give the same log and counts: nothing
      is carried over from one call to the next. */
  method PrintReportTwice(r: Report)
    returns (log1: seq<string>, log2: seq<string>, host1: nat, host2: nat, pod1: nat, pod2: nat)
    ensures log1 == log2 && host1 == host2 && pod1 == pod2
  {
    log1, host1, pod1 := PrintReport(r);
    log2, host2, pod2 := PrintReport(r);
  }

  /** GetReportJSON: the serialised results, or the fallback message when
      marshalling fails. */
  function GetReportJson(allChecks: Report, marshal: Report -> Result<string>): (json: string)
    ensures marshal(allChecks).Err? ==> json == JsonFallback
    ensures marshal(allChecks).Ok? ==> json == marshal(allChecks).value
  {
    match marshal(allChecks)
    case Err(_) => JsonFallback
    case Ok(s) => s
  }

  /** A pass count never exceeds its section's length, and equals it exactly
      when every check of the section passed. */
  lemma PassedBounds(cs: seq<Check>)
    ensures Passed(cs) <= |cs|
    ensures Passed(cs) == |cs| <==> forall i :: 0 <= i < |cs| ==> cs[i].success
  {
    CountTrueAll(Successes(cs));
  }

  /** The count PrintReport computes is the number of passing checks. */
  lemma {:induction false} PassedIsPassing(cs: seq<Check>)
    ensures Passed(cs) == |Passing(cs)|
    ensures forall c :: c in Passing(cs) ==> c in cs && c.success
  {
    if cs != [] {
      var init := cs[..|cs| - 1];
      PassedIsPassing(init);
      assert Successes(cs) == Successes(init) + [cs[|cs| - 1].success];
      CountTrueSnoc(Successes(init), cs[|cs| - 1].success);
    }
  }

  lemma {:induction false} CountTrueAppend(a: seq<bool>, b: seq<bool>)
    ensures CountTrue(a + b) == CountTrue(a) + CountTrue(b)
    decreases |b|
  {
    if b != [] {
      var init := b[..|b| - 1];
      assert (a + b)[..|a + b| - 1] == a + init;
      CountTrueAppend(a, init);
    } else {
      assert a + b == a;
    }
  }

  /** The total line reports the count over both sections together, out of
      their joint length. */
  lemma TotalIsJoined(r: Report)
    ensures Passed(r.hostChecks) + Passed(r.podChecks) == Passed(r.hostChecks + r.podChecks)
    ensures Passed(r.hostChecks) + Passed(r.podChecks) <= |r.hostChecks| + |r.podChecks|
  {
    assert Successes(r.hostChecks + r.podChecks) == Successes(r.hostChecks) + Successes(r.podChecks);
    CountTrueAppend(Successes(r.hostChecks), Successes(r.podChecks));
    PassedBounds(r.hostChecks);
    PassedBounds(r.podChecks);
  }

  /** Only the pod listing can hold the pod header: every other line is a
      banner, an empty line, or starts with a space. */
  lemma HostListingLacksPodHeader(host: seq<Check>)
    ensures PodHeader !in HostListing(host)
  {
    var lines := HostListing(host);
    forall k | 0 <= k < |lines| ensures lines[k] != PodHeader {
      if 3 <= k < |lines| - 1 {
        assert lines[k] == CheckLine(host[k - 3]);
        assert lines[k][0] == ' ';
      } else if k == 0 {
        assert Title[6] != PodHeader[6];
      } else if k == 2 {
        assert HostHeader[6] != PodHeader[6];
      }
    }
  }

  lemma SummaryLacksPodHeader(r: Report)
    ensures PodHeader !in Summary(r)
  {
    var hp := Passed(r.hostChecks);
    var pp := Passed(r.podChecks);
    TallyLead("  Host Checks", hp, |r.hostChecks|);
    TallyLead("   Pod Checks", pp, |r.podChecks|);
    TallyLead(" Total Checks", hp + pp, |r.hostChecks| + |r.podChecks|);
    assert PodHeader[0] == '-';
    assert SummaryHeader[6] != PodHeader[6];
    assert Footer[6] != PodHeader[6];
  }

  /** A tally line starts with its heading's first character. */
  lemma TallyLead(heading: string, passed: int, total: int)
    requires |heading| > 0
    ensures |Tally(heading, passed, total)| > 0 && Tally(heading, passed, total)[0] == heading[0]
  {
  }

  /** The pod listing, under its header, appears only for a non-empty pod
      section, while the pod summary line is always logged. */
  lemma PodListingIff(r: Report)
    ensures PodHeader in ReportLog(r) <==> |r.podChecks| > 0
    ensures Tally("   Pod Checks", Passed(r.podChecks), |r.podChecks|) in ReportLog(r)
    ensures Tally(" Total Checks", Passed(r.hostChecks) + Passed(r.podChecks), |r.hostChecks| + |r.podChecks|)
      in ReportLog(r)
  {
    HostListingLacksPodHeader(r.hostChecks);
    SummaryLacksPodHeader(r);
    var summary := Summary(r);
    assert summary[4] in summary && summary[5] in summary;
  }
}
