/** k8snetlook/init.go: the run configuration (the global Cfg), its population
    by InitK8sInfo, the source pod's namespace-handle lookup and Cleanup.

    This file is written against helpers with single-value returns
    (getServiceClusterIP returning an Endpoint, GetHostGatewayIP a string);
    those lookups, the Docker client and netns.GetFromPid are the oracle
    Cluster. os.Exit(1) is modelled by setting `exited`, after which the
    process runs nothing more. */
module Init {
  import opened Base

  const DefaultInternetEgressTestIp := "8.8.8.8"
  const DockerPrefix := "docker://"

  /** netns.NsHandle: a file descriptor, -1 when there is none. */
  type NsHandle = int
  const NoHandle: NsHandle := -1

  /** netns.NsHandle.IsOpen. */
  predicate IsOpen(h: NsHandle) {
    h != NoHandle
  }

  datatype Endpoint = Endpoint(ip: string, port: int)
  datatype Pod = Pod(name: string, namespace: string, ip: string, nsHandle: NsHandle)
  datatype Service = Service(name: string, namespace: string, svcEndpoint: Endpoint)
  datatype Config = Config(
    srcPod: Pod,
    dstPod: Pod,
    dstSvc: Service,
    externalIp: string,
    kubeconfigPath: string,
    kubeApiService: Endpoint,
    kubeDnsService: Endpoint,
    hostGatewayIp: string)

  /** What the lookups InitK8sInfo and getPodNetnsHandle call return. */
  datatype Cluster = Cluster(
    serviceClusterIp: (string, string) -> Endpoint,  // getServiceClusterIP(namespace, name)
    hostGatewayIp: string,                           // netutils.GetHostGatewayIP()
    podIp: (string, string) -> string,               // getPodIPFromName(namespace, name)
    containerId: (string, string) -> string,         // getContainerIDFromPod(namespace, name)
    dockerClient: Option<Error>,                     // error of client.NewClient, if any
    containerPid: string -> Result<int>,             // ContainerInspect(id).State.Pid
    netnsFromPid: int -> Result<NsHandle>)           // netns.GetFromPid(pid)

  /** strings.TrimPrefix(containerID, "docker://"). */
  function StripDockerPrefix(containerId: string): (id: string)
    ensures HasPrefix(containerId, DockerPrefix) ==> containerId == DockerPrefix + id
    ensures !HasPrefix(containerId, DockerPrefix) ==> id == containerId
  {
    TrimPrefix(containerId, DockerPrefix)
  }

  /** Exactly one leading "docker://" is removed. */
  lemma StripDockerPrefixOnce(id: string)
    ensures StripDockerPrefix(DockerPrefix + id) == id
    ensures StripDockerPrefix(DockerPrefix + DockerPrefix + id) == DockerPrefix + id
  {
    assert (DockerPrefix + id)[..|DockerPrefix|] == DockerPrefix;
    assert (DockerPrefix + DockerPrefix + id)[..|DockerPrefix|] == DockerPrefix;
    assert (DockerPrefix + DockerPrefix + id)[|DockerPrefix|..] == DockerPrefix + id;
  }

  /** The handle getPodNetnsHandle returns, or None when it exits. */
  function PodNetnsHandle(namespace: string, podName: string, cluster: Cluster): Option<NsHandle> {
    var containerId := cluster.containerId(namespace, podName);
    if containerId == "" || cluster.dockerClient.Some? then None
    else match cluster.containerPid(StripDockerPrefix(containerId))
      case Err(_) => None
      case Ok(pid) =>
        match cluster.netnsFromPid(pid)
        case Err(_) => None
        case Ok(h) => Some(h)
  }

  /** getPodNetnsHandle runs Cleanup before exiting: the container ID is
      empty, or the namespace lookup by PID failed. */
  predicate ExitsWithCleanup(namespace: string, podName: string, cluster: Cluster) {
    var containerId := cluster.containerId(namespace, podName);
    containerId == ""
    || (cluster.dockerClient.None?
        && cluster.containerPid(StripDockerPrefix(containerId)).Ok?
        && cluster.netnsFromPid(cluster.containerPid(StripDockerPrefix(containerId)).value).Err?)
  }

  predicate HasSrcPod(cfg: Config) {
    cfg.srcPod.name != "" && cfg.srcPod.namespace != ""
  }

  /** The configuration InitK8sInfo leaves when the process does not exit. */
  function InitializedConfig(cfg: Config, cluster: Cluster): Config
    requires HasSrcPod(cfg) ==> PodNetnsHandle(cfg.srcPod.namespace, cfg.srcPod.name, cluster).Some?
  {
    var src :=
      if HasSrcPod(cfg) then
        cfg.srcPod.(ip := cluster.podIp(cfg.srcPod.namespace, cfg.srcPod.name),
                    nsHandle := PodNetnsHandle(cfg.srcPod.namespace, cfg.srcPod.name, cluster).value)
      else cfg.srcPod.(nsHandle := NoHandle);
    var dst :=
      if cfg.dstPod.name != "" && cfg.dstPod.namespace != "" then
        cfg.dstPod.(ip := cluster.podIp(cfg.dstPod.namespace, cfg.dstPod.name), nsHandle := NoHandle)
      else cfg.dstPod.(nsHandle := NoHandle);
    var svc :=
      if cfg.dstSvc.name != "" && cfg.dstSvc.namespace != "" then
        cfg.dstSvc.(svcEndpoint := cluster.serviceClusterIp(cfg.dstSvc.namespace, cfg.dstSvc.name))
      else cfg.dstSvc;
    cfg.(kubeApiService := cluster.serviceClusterIp("default", "kubernetes"),
         kubeDnsService := cluster.serviceClusterIp("kube-system", "kube-dns"),
         hostGatewayIp := cluster.hostGatewayIp,
         srcPod := src, dstPod := dst, dstSvc := svc)
  }

  /** Which fields initialisation writes: the cluster endpoints and the
      gateway always; the source pod's IP and handle only when it is named
      (the handle is otherwise -1); the destination pod's IP only when it is
      named, its handle always -1; the destination service's endpoint only
      when it is named. Names, the external IP and the kubeconfig path are
      kept. */
  lemma InitializedConfigFields(cfg: Config, cluster: Cluster)
    requires HasSrcPod(cfg) ==> PodNetnsHandle(cfg.srcPod.namespace, cfg.srcPod.name, cluster).Some?
    ensures var c := InitializedConfig(cfg, cluster);
      && c.kubeApiService == cluster.serviceClusterIp("default", "kubernetes")
      && c.kubeDnsService == cluster.serviceClusterIp("kube-system", "kube-dns")
      && c.hostGatewayIp == cluster.hostGatewayIp
      && c.srcPod.name == cfg.srcPod.name && c.srcPod.namespace == cfg.srcPod.namespace
      && (HasSrcPod(cfg) ==> c.srcPod.ip == cluster.podIp(cfg.srcPod.namespace, cfg.srcPod.name))
      && (!HasSrcPod(cfg) ==> c.srcPod.ip == cfg.srcPod.ip && c.srcPod.nsHandle == NoHandle)
      && c.dstPod.nsHandle == NoHandle
      && c.dstPod.name == cfg.dstPod.name && c.dstPod.namespace == cfg.dstPod.namespace
      && (c.dstPod.ip != cfg.dstPod.ip ==> cfg.dstPod.name != "" && cfg.dstPod.namespace != "")
      && c.dstSvc.name == cfg.dstSvc.name && c.dstSvc.namespace == cfg.dstSvc.namespace
      && (c.dstSvc.svcEndpoint != cfg.dstSvc.svcEndpoint ==> cfg.dstSvc.name != "" && cfg.dstSvc.namespace != "")
      && c.externalIp == cfg.externalIp && c.kubeconfigPath == cfg.kubeconfigPath
  {
  }

  /** The process state InitK8sInfo and Cleanup act on. */
  class Process {
    var cfg: Config
    /** os.Exit(1) has been called. */
    var exited: bool
    /** The namespace handles closed so far, in order. */
    ghost var closed: seq<NsHandle>

    constructor (initial: Config)
      ensures cfg == initial && !exited && closed == []
    {
      cfg := initial;
      exited := false;
      closed := [];
    }

    /** Cleanup: closes the source pod's handle if it is open. The close is
        taken to succeed, and a successful netns Close resets the handle to
        -1, so a second Cleanup closes nothing. */
    method Cleanup()
      modifies this
      ensures closed == old(closed) + (if IsOpen(old(cfg.srcPod.nsHandle)) then [old(cfg.srcPod.nsHandle)] else [])
      ensures cfg == old(cfg).(srcPod := old(cfg.srcPod).(nsHandle := NoHandle))
      ensures exited == old(exited)
    {
      if IsOpen(cfg.srcPod.nsHandle) {
        closed := closed + [cfg.srcPod.nsHandle];
        cfg := cfg.(srcPod := cfg.srcPod.(nsHandle := NoHandle));
      }
    }

    /** getPodNetnsHandle: an empty container ID or a failed namespace lookup
        runs Cleanup and exits; a Docker client or inspect failure exits
        without it. */
    method GetPodNetnsHandle(namespace: string, podName: string, cluster: Cluster) returns (h: NsHandle)
      requires !exited
      modifies this
      ensures exited <==> PodNetnsHandle(namespace, podName, cluster).None?
      ensures !exited ==> h == PodNetnsHandle(namespace, podName, cluster).value && cfg == old(cfg) && closed == old(closed)
      ensures exited && ExitsWithCleanup(namespace, podName, cluster) ==>
        && closed == old(closed) + (if IsOpen(old(cfg.srcPod.nsHandle)) then [old(cfg.srcPod.nsHandle)] else [])
        && cfg == old(cfg).(srcPod := old(cfg.srcPod).(nsHandle := NoHandle))
      ensures exited && !ExitsWithCleanup(namespace, podName, cluster) ==> closed == old(closed) && cfg == old(cfg)
    {
      var containerId := cluster.containerId(namespace, podName);
      if containerId == "" {
        Cleanup();
        exited := true;
        return NoHandle;
      }
      containerId := StripDockerPrefix(containerId);
      if cluster.dockerClient.Some? {
        exited := true;
        return NoHandle;
      }
      var pid := cluster.containerPid(containerId);
      if pid.Err? {
        exited := true;
        return NoHandle;
      }
      var ns := cluster.netnsFromPid(pid.value);
      if ns.Err? {
        Cleanup();
        exited := true;
        return NoHandle;
      }
      return ns.value;
    }

    /** InitK8sInfo. The source pod's handle is reset to -1 before its lookup,
        so a Cleanup on the way to an exit closes nothing. */
    method InitK8sInfo(cluster: Cluster)
      requires !exited
      modifies this
      ensures exited <==> HasSrcPod(old(cfg)) && PodNetnsHandle(old(cfg).srcPod.namespace, old(cfg).srcPod.name, cluster).None?
      ensures !exited ==> cfg == InitializedConfig(old(cfg), cluster)
      ensures closed == old(closed)
    {
      cfg := cfg.(kubeApiService := cluster.serviceClusterIp("default", "kubernetes"));
      cfg := cfg.(kubeDnsService := cluster.serviceClusterIp("kube-system", "kube-dns"));
      cfg := cfg.(hostGatewayIp := cluster.hostGatewayIp);
      cfg := cfg.(srcPod := cfg.srcPod.(nsHandle := NoHandle));
      if cfg.srcPod.name != "" && cfg.srcPod.namespace != "" {
        cfg := cfg.(srcPod := cfg.srcPod.(ip := cluster.podIp(cfg.srcPod.namespace, cfg.srcPod.name)));
        var h := GetPodNetnsHandle(cfg.srcPod.namespace, cfg.srcPod.name, cluster);
        if exited {
          return;
        }
        cfg := cfg.(srcPod := cfg.srcPod.(nsHandle := h));
      }
      cfg := cfg.(dstPod := cfg.dstPod.(nsHandle := NoHandle));
      if cfg.dstPod.name != "" && cfg.dstPod.namespace != "" {
        cfg := cfg.(dstPod := cfg.dstPod.(ip := cluster.podIp(cfg.dstPod.namespace, cfg.dstPod.name)));
      }
      if cfg.dstSvc.name != "" && cfg.dstSvc.namespace != "" {
        cfg := cfg.(dstSvc := cfg.dstSvc.(svcEndpoint := cluster.serviceClusterIp(cfg.dstSvc.namespace, cfg.dstSvc.name)));
      }
    }
  }

  /** The handle is released at most once however often Cleanup runs, as when
      getPodNetnsHandle's exit path and the deferred Cleanup of the main
      program both run it. */
  method CleanupReleasesOnce(p: Process)
    modifies p
    ensures p.closed == old(p.closed) + (if IsOpen(old(p.cfg.srcPod.nsHandle)) then [old(p.cfg.srcPod.nsHandle)] else [])
    ensures !IsOpen(p.cfg.srcPod.nsHandle)
  {
    p.Cleanup();
    p.Cleanup();
  }
}
