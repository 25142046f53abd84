/** k8snetlook/pod.go: the pod phase. It locks the OS thread, captures the
    current (host) network namespace, switches to the source pod's namespace,
    runs the pod checks there, switches back and releases the host handle and
    the thread. The namespace calls and each check's pass/fail outcome are the
    oracle PodEnv; what the phase does with them is recorded as a trace of
    events. */
module Pod {
  import opened Base
  import opened Init

  const BasePodChecks := 4

  /** The checks of the pod phase, with the arguments they are given. */
  datatype PodCheck =
    | ServiceIpCheck
    | EndpointIpCheck
    | GatewayCheck
    | DnsCheck(server: string, name: string, namespace: string, expectedIp: string)
    | DstCheck(ip: string)
    | MtuCheck(ip: string)

  /** A step of the phase: runtime.LockOSThread / UnlockOSThread, netns.Get,
      netns.Set, NsHandle.Close, or running a check. */
  datatype Event =
    | LockThread
    | UnlockThread
    | GetNs
    | SetNs(target: NsHandle)
    | CloseNs(handle: NsHandle)
    | Run(check: PodCheck)

  /** What the OS and the checks answer: netns.Get's result, netns.Set's error
      for each handle, the namespace each handle refers to, and whether each
      check passes (and so bumps PassingPodChecks). */
  datatype PodEnv = PodEnv(
    current: Result<NsHandle>,
    setErr: NsHandle -> Option<Error>,
    nsOf: NsHandle -> int,
    passes: PodCheck -> bool)

  /** The checks, in the order the phase runs them: the four fixed ones, then
      those whose target is configured. */
  function ChecksFor(cfg: Config): seq<PodCheck> {
    FixedChecks(cfg) + TargetChecks(cfg.dstPod.ip) + TargetChecks(cfg.externalIp) + DstSvcChecks(cfg)
  }

  /** The four checks every pod phase runs; the DNS check resolves
      kubernetes.default and expects the API service's cluster IP. */
  function FixedChecks(cfg: Config): seq<PodCheck> {
    [ServiceIpCheck, EndpointIpCheck, GatewayCheck,
     DnsCheck(cfg.kubeDnsService.ip, "kubernetes", "default", cfg.kubeApiService.ip)]
  }

  /** Connectivity then path MTU to a configured target. */
  function TargetChecks(ip: string): seq<PodCheck> {
    if ip != "" then [DstCheck(ip), MtuCheck(ip)] else []
  }

  /** The DNS check of the destination service, when its cluster IP is known. */
  function DstSvcChecks(cfg: Config): seq<PodCheck> {
    if cfg.dstSvc.svcEndpoint.ip != "" then
      [DnsCheck(cfg.kubeDnsService.ip, cfg.dstSvc.name, cfg.dstSvc.namespace, cfg.dstSvc.svcEndpoint.ip)]
    else []
  }

  /** The thread reached the source pod's namespace. */
  predicate Switched(cfg: Config, env: PodEnv) {
    env.current.Ok? && env.setErr(cfg.srcPod.nsHandle).None?
  }

  function Runs(checks: seq<PodCheck>): (events: seq<Event>)
    ensures |events| == |checks|
    ensures forall i :: 0 <= i < |checks| ==> events[i] == Run(checks[i])
  {
    if checks == [] then [] else Runs(checks[..|checks| - 1]) + [Run(checks[|checks| - 1])]
  }

  /** How many of `checks` pass. */
  function PassCount(checks: seq<PodCheck>, passes: PodCheck -> bool): nat {
    if checks == [] then 0
    else PassCount(checks[..|checks| - 1], passes) + (if passes(checks[|checks| - 1]) then 1 else 0)
  }

  lemma RunOneMore(done: seq<PodCheck>, c: PodCheck, passes: PodCheck -> bool)
    ensures Runs(done + [c]) == Runs(done) + [Run(c)]
    ensures PassCount(done + [c], passes) == PassCount(done, passes) + (if passes(c) then 1 else 0)
  {
    assert (done + [c])[..|done|] == done;
  }

  /** PassingPodChecks rises by at most the number of checks run, and by
      exactly that number only when every one of them passed. */
  lemma {:induction false} PassCountBound(checks: seq<PodCheck>, passes: PodCheck -> bool)
    ensures PassCount(checks, passes) <= |checks|
    ensures PassCount(checks, passes) == |checks| <==> forall i :: 0 <= i < |checks| ==> passes(checks[i])
  {
    if checks != [] {
      var init := checks[..|checks| - 1];
      PassCountBound(init, passes);
      if forall i :: 0 <= i < |checks| ==> passes(checks[i]) {
        assert forall i :: 0 <= i < |init| ==> passes(init[i]);
      }
    }
  }

  /** The events of one call of RunPodChecks. */
  function PodTrace(cfg: Config, env: PodEnv): seq<Event> {
    match env.current
    case Err(_) => [LockThread, GetNs, UnlockThread]
    case Ok(host) =>
      if env.setErr(cfg.srcPod.nsHandle).Some? then
        [LockThread, GetNs, SetNs(cfg.srcPod.nsHandle), CloseNs(host), UnlockThread]
      else
        [LockThread, GetNs, SetNs(cfg.srcPod.nsHandle)] + Runs(ChecksFor(cfg))
        + [SetNs(host), CloseNs(host), UnlockThread]
  }

  /** The trace of a phase that reached the pod's namespace, assembled from
      the prefix up to the switch and the rest. */
  lemma SwitchedTrace(cfg: Config, env: PodEnv, t0: seq<Event>, before: seq<Event>)
    requires Switched(cfg, env)
    requires before == t0 + [LockThread, GetNs] + [SetNs(cfg.srcPod.nsHandle)]
    ensures before + Runs(ChecksFor(cfg)) + [SetNs(env.current.value), CloseNs(env.current.value), UnlockThread]
      == t0 + PodTrace(cfg, env)
  {
  }

  /** TotalPodChecks is 4 plus 2 for a destination pod, 2 for an external IP
      and 1 for a destination service, so between 4 and 9; it counts exactly
      the checks run. */
  lemma {:induction false} ChecksForCount(cfg: Config)
    ensures |ChecksFor(cfg)| == BasePodChecks
      + (if cfg.dstPod.ip != "" then 2 else 0) + (if cfg.externalIp != "" then 2 else 0)
      + (if cfg.dstSvc.svcEndpoint.ip != "" then 1 else 0)
    ensures BasePodChecks <= |ChecksFor(cfg)| <= 9
    ensures ChecksFor(cfg)[..4] == [ServiceIpCheck, EndpointIpCheck, GatewayCheck,
                                    DnsCheck(cfg.kubeDnsService.ip, "kubernetes", "default", cfg.kubeApiService.ip)]
  {
  }

  /** The thread is locked first and unlocked last, once each, on every path. */
  lemma PodTraceBracketed(cfg: Config, env: PodEnv)
    ensures var t := PodTrace(cfg, env);
      && |t| >= 3 && t[0] == LockThread && t[|t| - 1] == UnlockThread
      && forall i :: 0 < i < |t| - 1 ==> !t[i].LockThread? && !t[i].UnlockThread?
  {
  }

  /** No check runs unless both the namespace capture and the switch
      succeeded. */
  lemma NoCheckWithoutSwitch(cfg: Config, env: PodEnv)
    requires !Switched(cfg, env)
    ensures forall e :: e in PodTrace(cfg, env) ==> !e.Run?
  {
  }

  /** Every check runs after the switch to the source pod and before the
      switch back to the captured host handle, and the switch back is always
      made once the first switch succeeded. */
  lemma {:induction false} ChecksInsidePodNamespace(cfg: Config, env: PodEnv)
    requires Switched(cfg, env)
    ensures var t := PodTrace(cfg, env);
      && t[2] == SetNs(cfg.srcPod.nsHandle)
      && t[|t| - 3] == SetNs(env.current.value)
      && forall i :: 0 <= i < |t| && t[i].Run? ==> 2 < i < |t| - 3
  {
    var t := PodTrace(cfg, env);
    var host := env.current.value;
    var runs := Runs(ChecksFor(cfg));
    assert t == [LockThread, GetNs, SetNs(cfg.srcPod.nsHandle)] + runs + [SetNs(host), CloseNs(host), UnlockThread];
    forall i | 0 <= i < |t| && t[i].Run?
      ensures 2 < i < |t| - 3
    {
    }
  }

  /** The only handle closed is the captured host handle, exactly once when it
      was obtained; the source pod's handle is only switched to. */
  lemma {:induction false} OnlyHostHandleClosed(cfg: Config, env: PodEnv)
    ensures var t := PodTrace(cfg, env);
      && (forall i :: 0 <= i < |t| && t[i].CloseNs? ==> env.current.Ok? && t[i].handle == env.current.value)
      && (env.current.Ok? ==> exists i :: 0 <= i < |t| && t[i] == CloseNs(env.current.value))
      && (env.current.Err? ==> forall e :: e in t ==> !e.CloseNs?)
      && (forall i, j :: 0 <= i < j < |t| && t[i].CloseNs? && t[j].CloseNs? ==> false)
  {
    var t := PodTrace(cfg, env);
    if env.current.Ok? {
      var host := env.current.value;
      if Switched(cfg, env) {
        var runs := Runs(ChecksFor(cfg));
        assert t == [LockThread, GetNs, SetNs(cfg.srcPod.nsHandle)] + runs + [SetNs(host), CloseNs(host), UnlockThread];
        assert forall i :: 0 <= i < |t| && t[i].CloseNs? ==> i == |t| - 2;
        assert t[|t| - 2] == CloseNs(host);
      } else {
        assert t[3] == CloseNs(host);
      }
    }
  }

  /** The pod phase's globals and the state of the running thread. */
  class PodRunner {
    var passingPodChecks: int
    var totalPodChecks: int
    /** Nesting depth of runtime.LockOSThread on this thread. */
    var lockDepth: nat
    /** The network namespace the thread is in. */
    var netns: int
    ghost var trace: seq<Event>

    constructor (ns: int)
      ensures passingPodChecks == 0 && totalPodChecks == 0 && lockDepth == 0 && netns == ns && trace == []
    {
      passingPodChecks := 0;
      totalPodChecks := 0;
      lockDepth := 0;
      netns := ns;
      trace := [];
    }

    /** One check from within the pod namespace: it is recorded and, when it
        passes, counted once. */
    method RunCheck(c: PodCheck, env: PodEnv, ghost done: seq<PodCheck>, ghost base: int, ghost prefix: seq<Event>)
      requires passingPodChecks == base + PassCount(done, env.passes)
      requires trace == prefix + Runs(done)
      modifies this
      ensures passingPodChecks == base + PassCount(done + [c], env.passes)
      ensures trace == prefix + Runs(done + [c])
      ensures totalPodChecks == old(totalPodChecks) && lockDepth == old(lockDepth) && netns == old(netns)
    {
      RunOneMore(done, c, env.passes);
      trace := trace + [Run(c)];
      if env.passes(c) {
        passingPodChecks := passingPodChecks + 1;
      }
    }

    /** The checks for one configured target: TotalPodChecks is raised
        before each of them. */
    method RunTargetChecks(ip: string, env: PodEnv, ghost done: seq<PodCheck>, ghost base: int, ghost prefix: seq<Event>)
      requires passingPodChecks == base + PassCount(done, env.passes)
      requires trace == prefix + Runs(done)
      modifies this
      ensures passingPodChecks == base + PassCount(done + TargetChecks(ip), env.passes)
      ensures trace == prefix + Runs(done + TargetChecks(ip))
      ensures totalPodChecks == old(totalPodChecks) + |TargetChecks(ip)|
      ensures lockDepth == old(lockDepth) && netns == old(netns)
    {
      if ip != "" {
        totalPodChecks := totalPodChecks + 1;
        RunCheck(DstCheck(ip), env, done, base, prefix);
        totalPodChecks := totalPodChecks + 1;
        RunCheck(MtuCheck(ip), env, done + [DstCheck(ip)], base, prefix);
        assert done + [DstCheck(ip)] + [MtuCheck(ip)] == done + TargetChecks(ip);
      } else {
        assert done + TargetChecks(ip) == done;
      }
    }

    /** The destination service's DNS check, when configured. */
    method RunDstSvcChecks(cfg: Config, env: PodEnv, ghost done: seq<PodCheck>, ghost base: int, ghost prefix: seq<Event>)
      requires passingPodChecks == base + PassCount(done, env.passes)
      requires trace == prefix + Runs(done)
      modifies this
      ensures passingPodChecks == base + PassCount(done + DstSvcChecks(cfg), env.passes)
      ensures trace == prefix + Runs(done + DstSvcChecks(cfg))
      ensures totalPodChecks == old(totalPodChecks) + |DstSvcChecks(cfg)|
      ensures lockDepth == old(lockDepth) && netns == old(netns)
    {
      if cfg.dstSvc.svcEndpoint.ip != "" {
        totalPodChecks := totalPodChecks + 1;
        RunCheck(DnsCheck(cfg.kubeDnsService.ip, cfg.dstSvc.name, cfg.dstSvc.namespace, cfg.dstSvc.svcEndpoint.ip),
                 env, done, base, prefix);
      } else {
        assert done + DstSvcChecks(cfg) == done;
      }
    }

    /** The checks of RunPodChecks, from within the pod namespace. */
    method RunChecksInPod(cfg: Config, env: PodEnv)
      requires totalPodChecks == BasePodChecks
      modifies this
      ensures trace == old(trace) + Runs(ChecksFor(cfg))
      ensures passingPodChecks == old(passingPodChecks) + PassCount(ChecksFor(cfg), env.passes)
      ensures totalPodChecks == |ChecksFor(cfg)|
      ensures lockDepth == old(lockDepth) && netns == old(netns)
    {
      ghost var prefix := trace;
      assert trace == prefix + Runs([]);
      ghost var base := passingPodChecks;
      RunCheck(ServiceIpCheck, env, [], base, prefix);
      RunCheck(EndpointIpCheck, env, [ServiceIpCheck], base, prefix);
      RunCheck(GatewayCheck, env, [ServiceIpCheck, EndpointIpCheck], base, prefix);
      RunCheck(DnsCheck(cfg.kubeDnsService.ip, "kubernetes", "default", cfg.kubeApiService.ip),
               env, [ServiceIpCheck, EndpointIpCheck, GatewayCheck], base, prefix);
      ghost var done := FixedChecks(cfg);
      assert [ServiceIpCheck, EndpointIpCheck, GatewayCheck]
        + [DnsCheck(cfg.kubeDnsService.ip, "kubernetes", "default", cfg.kubeApiService.ip)] == done;
      RunTargetChecks(cfg.dstPod.ip, env, done, base, prefix);
      done := done + TargetChecks(cfg.dstPod.ip);
      RunTargetChecks(cfg.externalIp, env, done, base, prefix);
      done := done + TargetChecks(cfg.externalIp);
      RunDstSvcChecks(cfg, env, done, base, prefix);
    }

    /** RunPodChecks. netns.Get is taken to return a handle to the namespace
        the thread is in. */
    method RunPodChecks(cfg: Config, env: PodEnv)
      requires env.current.Ok? ==> env.nsOf(env.current.value) == netns
      modifies this
      ensures trace == old(trace) + PodTrace(cfg, env)
      ensures lockDepth == old(lockDepth)
      ensures totalPodChecks == (if Switched(cfg, env) then |ChecksFor(cfg)| else BasePodChecks)
      ensures passingPodChecks == old(passingPodChecks) + (if Switched(cfg, env) then PassCount(ChecksFor(cfg), env.passes) else 0)
      ensures !Switched(cfg, env) ==> netns == old(netns)
      ensures Switched(cfg, env) ==> netns == env.nsOf(if env.setErr(env.current.value).None? then env.current.value else cfg.srcPod.nsHandle)
      ensures Switched(cfg, env) && env.setErr(env.current.value).None? ==> netns == old(netns)
    {
      totalPodChecks := BasePodChecks;
      lockDepth := lockDepth + 1;
      trace := trace + [LockThread, GetNs];
      if env.current.Err? {
        trace := trace + [UnlockThread];
        lockDepth := lockDepth - 1;
        assert trace == old(trace) + PodTrace(cfg, env);
        return;
      }
      var hostNsHandle := env.current.value;

      trace := trace + [SetNs(cfg.srcPod.nsHandle)];
      if env.setErr(cfg.srcPod.nsHandle).Some? {
        trace := trace + [CloseNs(hostNsHandle), UnlockThread];
        lockDepth := lockDepth - 1;
        assert trace == old(trace) + PodTrace(cfg, env);
        return;
      }
      netns := env.nsOf(cfg.srcPod.nsHandle);

      ghost var before := trace;
      RunInPodAndReturn(cfg, env, hostNsHandle);
      SwitchedTrace(cfg, env, old(trace), before);
    }

    /** From inside the pod's namespace: the checks, the switch back to the
        host handle (whatever it gives) and the deferred close and unlock. */
    method RunInPodAndReturn(cfg: Config, env: PodEnv, host: NsHandle)
      requires totalPodChecks == BasePodChecks && lockDepth > 0
      modifies this
      ensures trace == old(trace) + Runs(ChecksFor(cfg)) + [SetNs(host), CloseNs(host), UnlockThread]
      ensures lockDepth == old(lockDepth) - 1
      ensures totalPodChecks == |ChecksFor(cfg)|
      ensures passingPodChecks == old(passingPodChecks) + PassCount(ChecksFor(cfg), env.passes)
      ensures netns == (if env.setErr(host).None? then env.nsOf(host) else old(netns))
    {
      RunChecksInPod(cfg, env);
      trace := trace + [SetNs(host)];
      if env.setErr(host).None? {
        netns := env.nsOf(host);
      }
      trace := trace + [CloseNs(host), UnlockThread];
      lockDepth := lockDepth - 1;
    }
  }
}
