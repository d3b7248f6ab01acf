/**
 * The configuration snapshots the agent works from: the agent configuration with its
 * per-network-mode job lists, and the cluster topology. Durations and timestamps are
 * integer nanoseconds, as Go's time.Duration is.
 */
module Config {
  import opened Wrappers

  const Millisecond: int := 1_000_000
  const Second: int := 1000 * Millisecond
  const Minute: int := 60 * Second

  type JobId = string

  /** One job entry of a network-mode job list: an identifier and the probe's arguments. */
  datatype JobDescriptor = JobDescriptor(jobId: JobId, args: seq<string>)

  /** Settings of one network mode (host network or pod network). */
  datatype NetworkConfig = NetworkConfig(
    dataFilePrefix: string,
    jobs: seq<JobDescriptor>,
    defaultPeriod: int,
    httpPort: int)

  const EmptyNetworkConfig: NetworkConfig := NetworkConfig("", [], 0, 0)

  datatype AgentConfig = AgentConfig(
    outputDir: string,
    retentionHours: int,
    logObservations: bool,
    hostNetwork: Option<NetworkConfig>,
    podNetwork: Option<NetworkConfig>,
    aggregationReportPeriodSeconds: Option<int>,
    aggregationTimeWindowSeconds: Option<int>)

  datatype Endpoint = Endpoint(hostname: string, ip: string, port: int)

  datatype Node = Node(hostname: string, internalIP: string)

  datatype PodEndpoint = PodEndpoint(nodename: string, podname: string, podIP: string, port: int)

  datatype ClusterConfig = ClusterConfig(
    nodeCount: int,
    nodes: seq<Node>,
    podEndpoints: seq<PodEndpoint>,
    internalKubeAPIServer: Option<Endpoint>,
    kubeAPIServer: Option<Endpoint>)

  const EmptyClusterConfig: ClusterConfig := ClusterConfig(0, [], [], None, None)

  /**
   * getNetworkCfg: the job list and settings of the selected network mode, or an empty
   * network configuration when there is no agent configuration yet or it has no entry
   * for that mode.
   */
  function NetworkCfg(current: Option<AgentConfig>, hostNetwork: bool): NetworkConfig
  {
    if current.Some? && hostNetwork && current.value.hostNetwork.Some? then
      current.value.hostNetwork.value
    else if current.Some? && !hostNetwork && current.value.podNetwork.Some? then
      current.value.podNetwork.value
    else
      EmptyNetworkConfig
  }

  /** The selected configuration is the one configured for the mode, or the empty one; in
      particular a non-empty job list always comes from the agent configuration. */
  lemma NetworkCfgSelects(current: Option<AgentConfig>, hostNetwork: bool)
    ensures current.None? ==> NetworkCfg(current, hostNetwork) == EmptyNetworkConfig
    ensures current.Some? ==>
      var mode := if hostNetwork then current.value.hostNetwork else current.value.podNetwork;
      NetworkCfg(current, hostNetwork) == mode.GetOr(EmptyNetworkConfig)
    ensures NetworkCfg(current, hostNetwork).jobs != [] ==>
      current.Some? &&
      (current.value.hostNetwork == Some(NetworkCfg(current, hostNetwork)) ||
       current.value.podNetwork == Some(NetworkCfg(current, hostNetwork)))
  {
  }
}
