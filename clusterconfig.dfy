/**
 * BuildClusterConfig: the cluster topology the agents probe, built from the Kubernetes
 * nodes and agent pods. Nodes without an internal IP are skipped, a node's hostname falls
 * back to its name, only running pods on a kept node become pod endpoints, and both lists
 * are sorted.
 */
module Deploy {
  import opened Wrappers
  import opened Config
  import opened Strings
  import opened Sorting

  datatype AddressType = Hostname | InternalIP | ExternalIP | InternalDNS | ExternalDNS

  datatype NodeAddress = NodeAddress(addrType: AddressType, address: string)

  /** The fields of a Kubernetes node that the builder reads. */
  datatype K8sNode = K8sNode(name: string, addresses: seq<NodeAddress>)

  datatype PodPhase = Pending | Running | Succeeded | Failed | Unknown

  /** The fields of an agent pod that the builder reads. */
  datatype K8sPod = K8sPod(name: string, nodeName: string, phase: PodPhase, podIP: string)

  /** The address of the last entry of type `t`, or "" when there is none. */
  function LastAddress(addrs: seq<NodeAddress>, t: AddressType): string {
    if addrs == [] then ""
    else if addrs[|addrs| - 1].addrType == t then addrs[|addrs| - 1].address
    else LastAddress(addrs[..|addrs| - 1], t)
  }

  /** With no entry of type `t`, LastAddress is "". */
  lemma {:induction false} LastAddressAbsent(addrs: seq<NodeAddress>, t: AddressType)
    requires forall k :: 0 <= k < |addrs| ==> addrs[k].addrType != t
    ensures LastAddress(addrs, t) == ""
  {
    if addrs != [] {
      var init := addrs[..|addrs| - 1];
      assert forall k :: 0 <= k < |init| ==> init[k] == addrs[k];
      LastAddressAbsent(init, t);
    }
  }

  /**
   * LastAddress picks the last entry of its type: for the entry `k` of type `t` that no
   * later entry of that type follows, the result is its address.
   */
  lemma {:induction false} LastAddressIsLast(addrs: seq<NodeAddress>, t: AddressType, k: int)
    requires 0 <= k < |addrs| && addrs[k].addrType == t
    requires forall l :: k < l < |addrs| ==> addrs[l].addrType != t
    ensures LastAddress(addrs, t) == addrs[k].address
  {
    if k < |addrs| - 1 {
      var init := addrs[..|addrs| - 1];
      assert forall l :: 0 <= l < |init| ==> init[l] == addrs[l];
      LastAddressIsLast(init, t, k);
    }
  }

  /**
   * A non-empty LastAddress comes from the last entry of type `t`: some entry `k` of that
   * type carries it and no later entry has that type.
   */
  lemma {:induction false} LastAddressFound(addrs: seq<NodeAddress>, t: AddressType)
    requires LastAddress(addrs, t) != ""
    ensures exists k :: 0 <= k < |addrs| && addrs[k] == NodeAddress(t, LastAddress(addrs, t)) &&
                        forall l :: k < l < |addrs| ==> addrs[l].addrType != t
  {
    var last := |addrs| - 1;
    if addrs[last].addrType == t {
      assert addrs[last] == NodeAddress(t, LastAddress(addrs, t));
    } else {
      var init := addrs[..last];
      LastAddressFound(init, t);
      var k :| 0 <= k < |init| && init[k] == NodeAddress(t, LastAddress(init, t)) &&
               forall l :: k < l < |init| ==> init[l].addrType != t;
      assert addrs[k] == init[k];
      forall l | k < l < |addrs|
        ensures addrs[l].addrType != t
      {
        if l < last {
          assert addrs[l] == init[l];
        }
      }
    }
  }

  /**
   * The switch over a node's addresses: each Hostname entry overwrites the hostname and
   * each InternalIP entry the IP, so the last one of each type wins.
   */
  method ScanAddresses(addrs: seq<NodeAddress>) returns (hostname: string, ip: string)
    ensures hostname == LastAddress(addrs, Hostname)
    ensures ip == LastAddress(addrs, InternalIP)
  {
    hostname, ip := "", "";
    for i := 0 to |addrs|
      invariant hostname == LastAddress(addrs[..i], Hostname)
      invariant ip == LastAddress(addrs[..i], InternalIP)
    {
      assert addrs[..i + 1][..i] == addrs[..i];
      match addrs[i].addrType {
        case Hostname => hostname := addrs[i].address;
        case InternalIP => ip := addrs[i].address;
        case _ =>
      }
    }
    assert addrs[..|addrs|] == addrs;
  }

  /** The node entry a Kubernetes node yields, if it has an internal IP. */
  function NodeEntry(n: K8sNode): (r: Option<Node>)
    ensures r.Some? <==> LastAddress(n.addresses, InternalIP) != ""
    ensures r.Some? ==> r.value.internalIP == LastAddress(n.addresses, InternalIP)
    ensures r.Some? && LastAddress(n.addresses, Hostname) == "" ==> r.value.hostname == n.name
    ensures r.Some? && LastAddress(n.addresses, Hostname) != "" ==>
      r.value.hostname == LastAddress(n.addresses, Hostname)
  {
    var hostname := LastAddress(n.addresses, Hostname);
    var ip := LastAddress(n.addresses, InternalIP);
    if ip == "" then None
    else Some(Node(if hostname == "" then n.name else hostname, ip))
  }

  /** The node entries of the nodes that have an internal IP, in input order. */
  function SelectedNodes(nodes: seq<K8sNode>): seq<Node> {
    if nodes == [] then []
    else
      var init := SelectedNodes(nodes[..|nodes| - 1]);
      match NodeEntry(nodes[|nodes| - 1])
      case Some(entry) => init + [entry]
      case None => init
  }

  function Hostnames(entries: seq<Node>): set<string> {
    set k | 0 <= k < |entries| :: entries[k].hostname
  }

  lemma HostnamesAppend(entries: seq<Node>, x: Node)
    ensures Hostnames(entries + [x]) == Hostnames(entries) + {x.hostname}
  {
    var ext := entries + [x];
    assert ext[|entries|] == x;
    forall h | h in Hostnames(entries)
      ensures h in Hostnames(ext)
    {
      var k :| 0 <= k < |entries| && entries[k].hostname == h;
      assert ext[k] == entries[k];
    }
  }

  /** The endpoint of an agent pod that is running on one of `hostnames`, if it is. */
  function PodEntry(p: K8sPod, hostnames: set<string>, port: int): (r: Option<PodEndpoint>)
    ensures r.Some? <==> p.phase == Running && p.nodeName in hostnames
  {
    if p.phase != Running || p.nodeName !in hostnames then None
    else Some(PodEndpoint(p.nodeName, p.name, p.podIP, port))
  }

  /** The endpoints of the selected pods, in input order. */
  function SelectedPods(pods: seq<K8sPod>, hostnames: set<string>, port: int): seq<PodEndpoint> {
    if pods == [] then []
    else
      var init := SelectedPods(pods[..|pods| - 1], hostnames, port);
      match PodEntry(pods[|pods| - 1], hostnames, port)
      case Some(entry) => init + [entry]
      case None => init
  }

  /** A node is kept exactly when it has an internal IP, and then as its node entry. */
  lemma {:induction false} SelectedNodesMembers(nodes: seq<K8sNode>, x: Node)
    ensures x in SelectedNodes(nodes) <==> exists i :: 0 <= i < |nodes| && NodeEntry(nodes[i]) == Some(x)
  {
    if nodes != [] {
      var init := nodes[..|nodes| - 1];
      SelectedNodesMembers(init, x);
      assert forall i :: 0 <= i < |init| ==> init[i] == nodes[i];
      var last := |nodes| - 1;
      assert x in SelectedNodes(nodes) <==> x in SelectedNodes(init) || NodeEntry(nodes[last]) == Some(x);
      assert (exists i :: 0 <= i < |nodes| && NodeEntry(nodes[i]) == Some(x)) <==>
             (exists i :: 0 <= i < |init| && NodeEntry(init[i]) == Some(x)) || NodeEntry(nodes[last]) == Some(x);
    }
  }

  /**
   * A pod is kept exactly when it is running on a host of a kept node, and then with its
   * node name, pod name, pod IP and the given port.
   */
  lemma {:induction false} SelectedPodsMembers(pods: seq<K8sPod>, hostnames: set<string>, port: int, x: PodEndpoint)
    ensures x in SelectedPods(pods, hostnames, port) <==>
      exists i :: 0 <= i < |pods| && pods[i].phase == Running && pods[i].nodeName in hostnames &&
                  x == PodEndpoint(pods[i].nodeName, pods[i].name, pods[i].podIP, port)
  {
    if pods != [] {
      var init := pods[..|pods| - 1];
      SelectedPodsMembers(init, hostnames, port, x);
      if exists i :: 0 <= i < |pods| && pods[i].phase == Running && pods[i].nodeName in hostnames &&
                     x == PodEndpoint(pods[i].nodeName, pods[i].name, pods[i].podIP, port) {
        var i :| 0 <= i < |pods| && pods[i].phase == Running && pods[i].nodeName in hostnames &&
                 x == PodEndpoint(pods[i].nodeName, pods[i].name, pods[i].podIP, port);
        if i < |init| {
          assert init[i] == pods[i];
        }
      }
      if exists i :: 0 <= i < |init| && init[i].phase == Running && init[i].nodeName in hostnames &&
                     x == PodEndpoint(init[i].nodeName, init[i].name, init[i].podIP, port) {
        var i :| 0 <= i < |init| && init[i].phase == Running && init[i].nodeName in hostnames &&
                 x == PodEndpoint(init[i].nodeName, init[i].name, init[i].podIP, port);
        assert pods[i] == init[i];
      }
    }
  }

  /** The order of the node list: by hostname. */
  function NodeLess(x: Node, y: Node): bool {
    Compare(x.hostname, y.hostname) < 0
  }

  /** The comparison of the pod list: by node name, then by pod name. */
  function PodCompare(x: PodEndpoint, y: PodEndpoint): int {
    var cmp := Compare(x.nodename, y.nodename);
    if cmp == 0 then Compare(x.podname, y.podname) else cmp
  }

  function PodLess(x: PodEndpoint, y: PodEndpoint): bool {
    PodCompare(x, y) < 0
  }

  lemma NodeLessIsStrictWeakOrder()
    ensures StrictWeakOrder(NodeLess)
  {
    forall x: Node, y: Node, z: Node | NodeLess(x, y) && NodeLess(y, z)
      ensures NodeLess(x, z)
    {
      CompareTransitive(x.hostname, y.hostname, z.hostname);
    }
    forall x: Node, y: Node, z: Node | !NodeLess(x, y) && !NodeLess(y, z)
      ensures !NodeLess(x, z)
    {
      CompareAntisymmetric(x.hostname, y.hostname);
      CompareAntisymmetric(y.hostname, z.hostname);
      CompareAntisymmetric(x.hostname, z.hostname);
      if Compare(z.hostname, y.hostname) < 0 && Compare(y.hostname, x.hostname) < 0 {
        CompareTransitive(z.hostname, y.hostname, x.hostname);
      }
    }
  }

  lemma PodCompareAntisymmetric(x: PodEndpoint, y: PodEndpoint)
    ensures PodCompare(x, y) == -PodCompare(y, x)
  {
    CompareAntisymmetric(x.nodename, y.nodename);
    CompareAntisymmetric(x.podname, y.podname);
  }

  lemma PodCompareTransitive(x: PodEndpoint, y: PodEndpoint, z: PodEndpoint)
    requires PodCompare(x, y) < 0 && PodCompare(y, z) < 0
    ensures PodCompare(x, z) < 0
  {
    if Compare(x.nodename, y.nodename) < 0 && Compare(y.nodename, z.nodename) < 0 {
      CompareTransitive(x.nodename, y.nodename, z.nodename);
    } else if Compare(x.nodename, y.nodename) == 0 && Compare(y.nodename, z.nodename) == 0 {
      CompareTransitive(x.podname, y.podname, z.podname);
    }
  }

  /** PodLess orders pods by node name first and by pod name among pods of one node. */
  lemma PodLessIsStrictWeakOrder()
    ensures StrictWeakOrder(PodLess)
  {
    forall x: PodEndpoint, y: PodEndpoint, z: PodEndpoint | PodLess(x, y) && PodLess(y, z)
      ensures PodLess(x, z)
    {
      PodCompareTransitive(x, y, z);
    }
    forall x: PodEndpoint, y: PodEndpoint, z: PodEndpoint | !PodLess(x, y) && !PodLess(y, z)
      ensures !PodLess(x, z)
    {
      PodCompareAntisymmetric(x, y);
      PodCompareAntisymmetric(y, z);
      PodCompareAntisymmetric(x, z);
      if PodCompare(z, y) < 0 && PodCompare(y, x) < 0 {
        PodCompareTransitive(z, y, x);
      } else if PodCompare(z, y) == 0 && PodCompare(y, x) < 0 {
        assert z.nodename == y.nodename && z.podname == y.podname;
      } else if PodCompare(z, y) < 0 && PodCompare(y, x) == 0 {
        assert y.nodename == x.nodename && y.podname == x.podname;
      }
    }
  }

  /** The slice the builder appends to, sorted in place as sort.Slice does. */
  method SortedCopy<T(!new)>(s: seq<T>, less: (T, T) -> bool) returns (r: seq<T>)
    requires StrictWeakOrder(less)
    ensures SortedBy(r, less) && multiset(r) == multiset(s)
  {
    var a := new T[|s|](i requires 0 <= i < |s| => s[i]);
    assert a[..] == s;
    SortBy(a, less);
    r := a[..];
  }

  /**
   * BuildClusterConfig, with the PodNetPodHTTPPort constant as the parameter `podHTTPPort`.
   * It never fails; the node list is the node entries sorted by hostname, the pod list the
   * endpoints of the running pods on those hosts sorted by node and pod name, the node
   * count is the length of the node list, and the API server endpoints are passed through.
   */
  method BuildClusterConfig(
    nodes: seq<K8sNode>, agentPods: seq<K8sPod>,
    internalKubeAPIServer: Option<Endpoint>, kubeAPIServer: Option<Endpoint>, podHTTPPort: int)
    returns (r: Result<ClusterConfig, string>)
    ensures r.Success?
    ensures r.value.internalKubeAPIServer == internalKubeAPIServer
    ensures r.value.kubeAPIServer == kubeAPIServer
    ensures r.value.nodeCount == |r.value.nodes|
    ensures SortedBy(r.value.nodes, NodeLess)
    ensures multiset(r.value.nodes) == multiset(SelectedNodes(nodes))
    ensures SortedBy(r.value.podEndpoints, PodLess)
    ensures multiset(r.value.podEndpoints)
         == multiset(SelectedPods(agentPods, Hostnames(SelectedNodes(nodes)), podHTTPPort))
  {
    var nodeList: seq<Node> := [];
    var nodeNames: set<string> := {};
    for i := 0 to |nodes|
      invariant nodeList == SelectedNodes(nodes[..i])
      invariant nodeNames == Hostnames(nodeList)
    {
      assert nodes[..i + 1][..i] == nodes[..i];
      var hostname, ip := ScanAddresses(nodes[i].addresses);
      if ip == "" {
        continue;
      }
      if hostname == "" {
        hostname := nodes[i].name;
      }
      HostnamesAppend(nodeList, Node(hostname, ip));
      nodeList := nodeList + [Node(hostname, ip)];
      nodeNames := nodeNames + {hostname};
    }
    assert nodes[..|nodes|] == nodes;

    var podList: seq<PodEndpoint> := [];
    for i := 0 to |agentPods|
      invariant podList == SelectedPods(agentPods[..i], nodeNames, podHTTPPort)
    {
      assert agentPods[..i + 1][..i] == agentPods[..i];
      var p := agentPods[i];
      if p.phase != Running || p.nodeName !in nodeNames {
        continue;
      }
      podList := podList + [PodEndpoint(p.nodeName, p.name, p.podIP, podHTTPPort)];
    }
    assert agentPods[..|agentPods|] == agentPods;

    NodeLessIsStrictWeakOrder();
    PodLessIsStrictWeakOrder();
    var sortedNodes := SortedCopy(nodeList, NodeLess);
    var sortedPods := SortedCopy(podList, PodLess);
    return Success(ClusterConfig(|sortedNodes|, sortedNodes, sortedPods, internalKubeAPIServer, kubeAPIServer));
  }
}
