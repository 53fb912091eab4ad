/** The cluster snapshot index of internal/service/resolve_endpoints.go: four maps filled
    in one pass over the listed pods, services and nodes, and the lookup over them.
    The reference is a scan of the lists themselves that never builds a key. */
module Endpoints {
  import opened Text

  // ---- what the cluster lists contain ---------------------------------------------

  datatype Port = Port(containerPort: int, hostPort: int)
  datatype Owner = Owner(kind: string, name: string, controller: bool)
  datatype Pod = Pod(
    name: string, namespace: string, serviceAccount: string, owners: seq<Owner>,
    hostNetwork: bool, containers: seq<seq<Port>>, hostIP: string, podIPs: seq<string>, podIP: string)
  datatype Service = Service(name: string, namespace: string, clusterIP: string)
  datatype Address = Address(internal: bool, ip: string)
  datatype Node = Node(name: string, addresses: seq<Address>)
  /** A list call that failed counts as an empty list: the source skips it silently. */
  datatype Cluster = Cluster(pods: seq<Pod>, services: seq<Service>, nodes: seq<Node>)

  datatype Kind = PodKind | ServiceKind | NodeKind | External
  datatype Target = Target(
    kind: Kind, name: string, namespace: string, workload: string, workloadKind: string, serviceAccount: string)
  datatype Endpoint = Endpoint(
    ip: string, port: int, kind: Kind, name: string, namespace: string,
    workload: string, workloadKind: string, serviceAccount: string)
  datatype Index = Index(
    byPodIP: map<string, Target>, byHostPort: map<string, Target>,
    bySvcIP: map<string, Target>, byNodeIP: map<string, Target>)

  // ---- the controlling workload of a pod -------------------------------------------

  predicate IsHash(s: string) {
    6 <= |s| <= 10 && forall c :: c in s ==> '0' <= c <= '9' || 'a' <= c <= 'f'
  }

  /** A match of -[0-9a-f]{6,10}$ starting at position i. */
  predicate HashSuffixAt(s: string, i: nat) {
    i < |s| && s[i] == '-' && IsHash(s[i + 1..])
  }

  /** rsHashSuffix.ReplaceAllString(s, ""). */
  function StripHash(s: string): string {
    var i := LastIndex(s, '-');
    if i >= 0 && IsHash(s[i + 1..]) then s[..i] else s
  }

  /** A match of the pattern is unique and is what StripHash cuts; with none nothing is cut. */
  lemma StripHashCutsTheMatch(s: string)
    ensures forall i: nat :: HashSuffixAt(s, i) ==> StripHash(s) == s[..i]
    ensures (forall i: nat :: !HashSuffixAt(s, i)) ==> StripHash(s) == s
  {
    forall i: nat | HashSuffixAt(s, i) ensures StripHash(s) == s[..i] {
      assert forall k :: i < k < |s| ==> s[k] == s[i + 1..][k - i - 1] && s[k] in s[i + 1..];
      TheLastIndex(s, '-', i);
    }
    var i := LastIndex(s, '-');
    if i >= 0 && IsHash(s[i + 1..]) {
      assert HashSuffixAt(s, i);
    }
  }

  /** The Deployment name is recovered from its ReplicaSet's name exactly when the
      template hash is 6 to 10 hexadecimal digits. (Kubernetes also generates hashes with
      other letters; those ReplicaSets are reported under their own name.) */
  lemma DeploymentRecoveredIffHexHash(deployment: string, hash: string)
    ensures StripHash(deployment + "-" + hash) == deployment <==> IsHash(hash)
  {
    var s := deployment + "-" + hash;
    StripHashCutsTheMatch(s);
    assert s[..|deployment|] == deployment && s[|deployment| + 1..] == hash;
    if IsHash(hash) {
      assert HashSuffixAt(s, |deployment|);
    } else {
      var i := LastIndex(s, '-');
      assert s[|deployment|] == '-';
      assert |StripHash(s)| == |deployment| ==> i == |deployment|;
    }
  }

  /** The owner an ownerReferences list designates: the first one marked as controller. */
  function WorkloadSpec(owners: seq<Owner>): (string, string) {
    if owners == [] then ("", "")
    else if !owners[0].controller then WorkloadSpec(owners[1..])
    else if owners[0].kind == "ReplicaSet" then (StripHash(owners[0].name), "Deployment")
    else (owners[0].name, owners[0].kind)
  }

  /** The workload shown for a pod with these owners: that of the first one marked as controller,
      a ReplicaSet as the Deployment its name is made from; nothing without a controller. */
  ghost predicate ShownOwner(owners: seq<Owner>, name: string, kind: string) {
    if exists k :: 0 <= k < |owners| && owners[k].controller then
      exists k :: 0 <= k < |owners| && owners[k].controller && (forall j :: 0 <= j < k ==> !owners[j].controller)
        && (if owners[k].kind == "ReplicaSet" then kind == "Deployment" && name == StripHash(owners[k].name)
            else kind == owners[k].kind && name == owners[k].name)
    else name == "" && kind == ""
  }

  /** Where the first controller is, or the length without one. */
  lemma {:induction false} FirstController(owners: seq<Owner>) returns (k: nat)
    ensures k <= |owners| && forall j :: 0 <= j < k ==> !owners[j].controller
    ensures k < |owners| ==> owners[k].controller
    ensures WorkloadSpec(owners)
            == if k == |owners| then ("", "")
               else if owners[k].kind == "ReplicaSet" then (StripHash(owners[k].name), "Deployment")
               else (owners[k].name, owners[k].kind)
  {
    k := 0;
    if owners != [] && !owners[0].controller {
      var i := FirstController(owners[1..]);
      k := i + 1;
      assert forall j :: 1 <= j < |owners| ==> owners[j] == owners[1..][j - 1];
    }
  }

  lemma OwnerIsShown(owners: seq<Owner>)
    ensures ShownOwner(owners, WorkloadSpec(owners).0, WorkloadSpec(owners).1)
  {
    var k := FirstController(owners);
  }

  method WorkloadOf(p: Pod) returns (name: string, kind: string)
    ensures (name, kind) == WorkloadSpec(p.owners) && ShownOwner(p.owners, name, kind)
  {
    OwnerIsShown(p.owners);
    for i := 0 to |p.owners|
      invariant WorkloadSpec(p.owners) == WorkloadSpec(p.owners[i..])
    {
      var o := p.owners[i];
      if !o.controller { continue; }
      if o.kind == "ReplicaSet" { return StripHash(o.name), "Deployment"; }
      return o.name, o.kind;
    }
    return "", "";
  }

  // ---- the reference: scan the lists, the last match wins ----------------------------

  function PodTarget(p: Pod): Target {
    Target(PodKind, p.name, p.namespace, WorkloadSpec(p.owners).0, WorkloadSpec(p.owners).1, p.serviceAccount)
  }

  function NonzeroPorts(ports: seq<Port>): set<int> {
    (set p | p in ports && p.containerPort != 0 :: p.containerPort)
    + (set p | p in ports && p.hostPort != 0 :: p.hostPort)
  }

  function DeclaredPorts(containers: seq<seq<Port>>): set<int> {
    if containers == [] then {}
    else DeclaredPorts(containers[..|containers| - 1]) + NonzeroPorts(containers[|containers| - 1])
  }

  predicate OwnsIP(p: Pod, ip: string) {
    !p.hostNetwork && ip != "" && (ip in p.podIPs || ip == p.podIP)
  }

  predicate ServesPort(p: Pod, ip: string, port: int) {
    p.hostNetwork && p.hostIP == ip && port in DeclaredPorts(p.containers)
  }

  function LastPod(pods: seq<Pod>, ip: string): (t: Option<Target>)
    ensures t.Some? ==> t.value.kind == PodKind
  {
    if pods == [] then None
    else if OwnsIP(pods[|pods| - 1], ip) then Some(PodTarget(pods[|pods| - 1]))
    else LastPod(pods[..|pods| - 1], ip)
  }

  function LastHostPod(pods: seq<Pod>, ip: string, port: int): (t: Option<Target>)
    ensures t.Some? ==> t.value.kind == PodKind
  {
    if pods == [] then None
    else if ServesPort(pods[|pods| - 1], ip, port) then Some(PodTarget(pods[|pods| - 1]))
    else LastHostPod(pods[..|pods| - 1], ip, port)
  }

  function LastService(svcs: seq<Service>, ip: string): (t: Option<Target>)
    ensures t.Some? ==> t.value == Target(ServiceKind, t.value.name, t.value.namespace, "", "", "")
  {
    if svcs == [] then None
    else
      var sv := svcs[|svcs| - 1];
      if sv.clusterIP == ip && ip != "" && ip != "None"
      then Some(Target(ServiceKind, sv.name, sv.namespace, "", "", ""))
      else LastService(svcs[..|svcs| - 1], ip)
  }

  function LastNode(nodes: seq<Node>, ip: string): (t: Option<Target>)
    ensures t.Some? ==> t.value == Target(NodeKind, t.value.name, "", "", "", "")
  {
    if nodes == [] then None
    else
      var n := nodes[|nodes| - 1];
      if Address(true, ip) in n.addresses
      then Some(Target(NodeKind, n.name, "", "", "", ""))
      else LastNode(nodes[..|nodes| - 1], ip)
  }

  /** Who is at ip:port, read off the lists: a pod-network pod, else a ClusterIP, else a
      hostNetwork pod declaring the port, else a node, else nobody the cluster knows. */
  function ScanResolve(c: Cluster, ip: string, port: int): Endpoint {
    var pod, svc, host, node :=
      LastPod(c.pods, ip), LastService(c.services, ip), LastHostPod(c.pods, ip, port), LastNode(c.nodes, ip);
    match (if pod.Some? then pod else if svc.Some? then svc else if host.Some? then host else node)
    case Some(t) => Endpoint(ip, port, t.kind, t.name, t.namespace, t.workload, t.workloadKind, t.serviceAccount)
    case None => Endpoint(ip, port, External, "", "", "", "", "")
  }

  // ---- the same, case by case and without the scan --------------------------------------------

  /** The k-th element is the last with the property. */
  ghost predicate LastWith<T>(s: seq<T>, p: T -> bool, k: int) {
    0 <= k < |s| && p(s[k]) && forall j :: k < j < |s| ==> !p(s[j])
  }

  ghost predicate SomeWith<T>(s: seq<T>, p: T -> bool) {
    exists k :: 0 <= k < |s| && p(s[k])
  }

  /** A pod on the pod network with this address. */
  ghost function PodAt(ip: string): Pod -> bool {
    (p: Pod) => !p.hostNetwork && ip != "" && (p.podIP == ip || ip in p.podIPs)
  }

  ghost function ServiceAt(ip: string): Service -> bool {
    (sv: Service) => sv.clusterIP == ip && ip != "" && ip != "None"
  }

  /** A pod on the host network of this address that declares the port, on either side. */
  ghost function HostPodAt(ip: string, port: int): Pod -> bool {
    (p: Pod) => p.hostNetwork && p.hostIP == ip && port != 0
                && exists ports, q :: ports in p.containers && q in ports
                                      && (q.containerPort == port || q.hostPort == port)
  }

  ghost function NodeAt(ip: string): Node -> bool {
    (n: Node) => exists a :: a in n.addresses && a.internal && a.ip == ip
  }

  ghost predicate TellsPod(e: Endpoint, p: Pod) {
    && e.kind == PodKind && (e.name, e.namespace, e.serviceAccount) == (p.name, p.namespace, p.serviceAccount)
    && ShownOwner(p.owners, e.workload, e.workloadKind)
  }

  ghost predicate TellsService(e: Endpoint, sv: Service) {
    && e.kind == ServiceKind && (e.name, e.namespace) == (sv.name, sv.namespace)
    && e.workload == e.workloadKind == e.serviceAccount == ""
  }

  ghost predicate TellsNode(e: Endpoint, n: Node) {
    e.kind == NodeKind && e.name == n.name && e.namespace == e.workload == e.workloadKind == e.serviceAccount == ""
  }

  ghost predicate TellsNothing(e: Endpoint) {
    e.kind == External && e.name == e.namespace == e.workload == e.workloadKind == e.serviceAccount == ""
  }

  /** e is the answer for ip:port that these lists call for. */
  ghost predicate Answers(c: Cluster, ip: string, port: int, e: Endpoint) {
    && e.ip == ip && e.port == port
    && if SomeWith(c.pods, PodAt(ip)) then
         exists k :: LastWith(c.pods, PodAt(ip), k) && TellsPod(e, c.pods[k])
       else if SomeWith(c.services, ServiceAt(ip)) then
         exists k :: LastWith(c.services, ServiceAt(ip), k) && TellsService(e, c.services[k])
       else if SomeWith(c.pods, HostPodAt(ip, port)) then
         exists k :: LastWith(c.pods, HostPodAt(ip, port), k) && TellsPod(e, c.pods[k])
       else if SomeWith(c.nodes, NodeAt(ip)) then
         exists k :: LastWith(c.nodes, NodeAt(ip), k) && TellsNode(e, c.nodes[k])
       else TellsNothing(e)
  }

  lemma {:induction false} Declares(containers: seq<seq<Port>>, port: int)
    ensures port in DeclaredPorts(containers)
            <==> port != 0 && exists ports, q :: ports in containers && q in ports
                                                 && (q.containerPort == port || q.hostPort == port)
  {
    if containers != [] {
      var init, last := containers[..|containers| - 1], containers[|containers| - 1];
      Declares(init, port);
      assert containers == init + [last];
      assert forall ports :: ports in containers <==> ports in init || ports == last;
      assert port in NonzeroPorts(last)
             <==> port != 0 && exists q :: q in last && (q.containerPort == port || q.hostPort == port);
    }
  }

  lemma HostPodAtIff(p: Pod, ip: string, port: int)
    ensures HostPodAt(ip, port)(p) <==> ServesPort(p, ip, port)
  {
    Declares(p.containers, port);
  }

  lemma NodeAtIff(n: Node, ip: string)
    ensures NodeAt(ip)(n) <==> Address(true, ip) in n.addresses
  {
    if NodeAt(ip)(n) {
      var a :| a in n.addresses && a.internal && a.ip == ip;
      assert a == Address(true, ip);
    }
  }

  lemma {:induction false} LastPodIs(pods: seq<Pod>, ip: string) returns (k: int)
    ensures LastPod(pods, ip).Some? <==> SomeWith(pods, PodAt(ip))
    ensures LastPod(pods, ip).Some? ==> LastWith(pods, PodAt(ip), k) && LastPod(pods, ip).value == PodTarget(pods[k])
  {
    k := |pods| - 1;
    if pods != [] && !OwnsIP(pods[k], ip) {
      var init := pods[..k];
      k := LastPodIs(init, ip);
      assert forall j :: 0 <= j < |init| ==> init[j] == pods[j];
    }
  }

  lemma {:induction false} LastHostPodIs(pods: seq<Pod>, ip: string, port: int) returns (k: int)
    ensures LastHostPod(pods, ip, port).Some? <==> SomeWith(pods, HostPodAt(ip, port))
    ensures LastHostPod(pods, ip, port).Some? ==>
              LastWith(pods, HostPodAt(ip, port), k) && LastHostPod(pods, ip, port).value == PodTarget(pods[k])
  {
    k := |pods| - 1;
    if pods != [] {
      HostPodAtIff(pods[k], ip, port);
      if !ServesPort(pods[k], ip, port) {
        var init := pods[..k];
        k := LastHostPodIs(init, ip, port);
        assert forall j :: 0 <= j < |init| ==> init[j] == pods[j];
      }
    }
  }

  lemma {:induction false} LastServiceIs(svcs: seq<Service>, ip: string) returns (k: int)
    ensures LastService(svcs, ip).Some? <==> SomeWith(svcs, ServiceAt(ip))
    ensures LastService(svcs, ip).Some? ==>
              && LastWith(svcs, ServiceAt(ip), k)
              && LastService(svcs, ip).value == Target(ServiceKind, svcs[k].name, svcs[k].namespace, "", "", "")
  {
    k := |svcs| - 1;
    if svcs != [] && !ServiceAt(ip)(svcs[k]) {
      var init := svcs[..k];
      k := LastServiceIs(init, ip);
      assert forall j :: 0 <= j < |init| ==> init[j] == svcs[j];
    }
  }

  lemma {:induction false} LastNodeIs(nodes: seq<Node>, ip: string) returns (k: int)
    ensures LastNode(nodes, ip).Some? <==> SomeWith(nodes, NodeAt(ip))
    ensures LastNode(nodes, ip).Some? ==>
              && LastWith(nodes, NodeAt(ip), k)
              && LastNode(nodes, ip).value == Target(NodeKind, nodes[k].name, "", "", "", "")
  {
    k := |nodes| - 1;
    if nodes != [] {
      NodeAtIff(nodes[k], ip);
      if Address(true, ip) !in nodes[k].addresses {
        var init := nodes[..k];
        k := LastNodeIs(init, ip);
        assert forall j :: 0 <= j < |init| ==> init[j] == nodes[j];
      }
    }
  }

  /** The scan gives the answer the lists call for: a pod with the address, else a service, else a
      host-network pod declaring the port, else a node, else nothing; of several the last. */
  lemma ScanAnswers(c: Cluster, ip: string, port: int)
    ensures Answers(c, ip, port, ScanResolve(c, ip, port))
  {
    var pod := LastPodIs(c.pods, ip);
    var svc := LastServiceIs(c.services, ip);
    var host := LastHostPodIs(c.pods, ip, port);
    var node := LastNodeIs(c.nodes, ip);
    forall p: Pod ensures ShownOwner(p.owners, PodTarget(p).workload, PodTarget(p).workloadKind) {
      OwnerIsShown(p.owners);
    }
  }

  // ---- building the maps ---------------------------------------------------------------

  function Lookup(m: map<string, Target>, key: string): Option<Target> {
    if key in m then Some(m[key]) else None
  }

  ghost predicate PodMapAgrees(m: map<string, Target>, pods: seq<Pod>) {
    forall ip :: Lookup(m, ip) == LastPod(pods, ip)
  }

  ghost predicate HostMapAgrees(m: map<string, Target>, pods: seq<Pod>) {
    forall ip, port :: Lookup(m, HostPort(ip, port)) == LastHostPod(pods, ip, port)
  }

  ghost predicate ServiceMapAgrees(m: map<string, Target>, svcs: seq<Service>) {
    forall ip :: Lookup(m, ip) == LastService(svcs, ip)
  }

  ghost predicate NodeMapAgrees(m: map<string, Target>, nodes: seq<Node>) {
    forall ip :: Lookup(m, ip) == LastNode(nodes, ip)
  }

  /** What idx is relative to the lists it was built from. */
  ghost predicate Indexes(idx: Index, c: Cluster) {
    && PodMapAgrees(idx.byPodIP, c.pods)
    && HostMapAgrees(idx.byHostPort, c.pods)
    && ServiceMapAgrees(idx.bySvcIP, c.services)
    && NodeMapAgrees(idx.byNodeIP, c.nodes)
  }

  /** Writing one composite key changes the answer for that host and port only. */
  lemma HostKeyUpdate(m: map<string, Target>, host: string, port: int, r: Target)
    ensures forall ip, q ::
      Lookup(m[HostPort(host, port) := r], HostPort(ip, q))
      == if ip == host && q == port then Some(r) else Lookup(m, HostPort(ip, q))
  {
    forall ip, q | HostPort(ip, q) == HostPort(host, port) ensures ip == host && q == port {
      HostPortInjective(ip, q, host, port);
    }
  }

  method AddPort(m0: map<string, Target>, host: string, port: Port, r: Target) returns (m: map<string, Target>)
    ensures forall ip, q :: Lookup(m, HostPort(ip, q))
                         == if ip == host && q in NonzeroPorts([port]) then Some(r) else Lookup(m0, HostPort(ip, q))
  {
    m := m0;
    if port.containerPort != 0 {
      HostKeyUpdate(m, host, port.containerPort, r);
      m := m[HostPort(host, port.containerPort) := r];
    }
    if port.hostPort != 0 {
      HostKeyUpdate(m, host, port.hostPort, r);
      m := m[HostPort(host, port.hostPort) := r];
    }
  }

  method AddPorts(m0: map<string, Target>, host: string, ports: seq<Port>, r: Target) returns (m: map<string, Target>)
    ensures forall ip, q :: Lookup(m, HostPort(ip, q))
                         == if ip == host && q in NonzeroPorts(ports) then Some(r) else Lookup(m0, HostPort(ip, q))
  {
    m := m0;
    for k := 0 to |ports|
      invariant forall ip, q :: Lookup(m, HostPort(ip, q))
                             == if ip == host && q in NonzeroPorts(ports[..k]) then Some(r)
                                else Lookup(m0, HostPort(ip, q))
    {
      assert ports[..k + 1] == ports[..k] + [ports[k]];
      assert NonzeroPorts(ports[..k + 1]) == NonzeroPorts(ports[..k]) + NonzeroPorts([ports[k]]);
      m := AddPort(m, host, ports[k], r);
    }
    assert ports[..|ports|] == ports;
  }

  method AddHostPod(m0: map<string, Target>, p: Pod, r: Target) returns (m: map<string, Target>)
    ensures forall ip, q :: Lookup(m, HostPort(ip, q))
                         == if ip == p.hostIP && q in DeclaredPorts(p.containers) then Some(r)
                            else Lookup(m0, HostPort(ip, q))
  {
    m := m0;
    for c := 0 to |p.containers|
      invariant forall ip, q :: Lookup(m, HostPort(ip, q))
                             == if ip == p.hostIP && q in DeclaredPorts(p.containers[..c]) then Some(r)
                                else Lookup(m0, HostPort(ip, q))
    {
      m := AddPorts(m, p.hostIP, p.containers[c], r);
      assert p.containers[..c + 1][..c] == p.containers[..c];
    }
    assert p.containers[..|p.containers|] == p.containers;
  }

  method AddPodIPs(m0: map<string, Target>, p: Pod, r: Target) returns (m: map<string, Target>)
    ensures forall ip :: Lookup(m, ip)
                      == if ip != "" && (ip in p.podIPs || ip == p.podIP) then Some(r) else Lookup(m0, ip)
  {
    m := m0;
    for k := 0 to |p.podIPs|
      invariant forall ip :: Lookup(m, ip) == if ip != "" && ip in p.podIPs[..k] then Some(r) else Lookup(m0, ip)
    {
      assert p.podIPs[..k + 1] == p.podIPs[..k] + [p.podIPs[k]];
      if p.podIPs[k] != "" {
        m := m[p.podIPs[k] := r];
      }
    }
    assert p.podIPs[..|p.podIPs|] == p.podIPs;
    if p.podIP != "" {
      m := m[p.podIP := r];
    }
  }

  method BuildPods(pods: seq<Pod>) returns (byPodIP: map<string, Target>, byHostPort: map<string, Target>)
    ensures PodMapAgrees(byPodIP, pods) && HostMapAgrees(byHostPort, pods)
  {
    byPodIP, byHostPort := map[], map[];
    for i := 0 to |pods|
      invariant PodMapAgrees(byPodIP, pods[..i]) && HostMapAgrees(byHostPort, pods[..i])
    {
      var p := pods[i];
      var wl, wlKind := WorkloadOf(p);
      var r := Target(PodKind, p.name, p.namespace, wl, wlKind, p.serviceAccount);
      assert pods[..i + 1][..i] == pods[..i];
      if p.hostNetwork {
        byHostPort := AddHostPod(byHostPort, p, r);
        continue;
      }
      byPodIP := AddPodIPs(byPodIP, p, r);
    }
    assert pods[..|pods|] == pods;
  }

  method BuildServices(svcs: seq<Service>) returns (m: map<string, Target>)
    ensures ServiceMapAgrees(m, svcs)
  {
    m := map[];
    for i := 0 to |svcs|
      invariant ServiceMapAgrees(m, svcs[..i])
    {
      var ip := svcs[i].clusterIP;
      assert svcs[..i + 1][..i] == svcs[..i];
      if ip != "" && ip != "None" {
        m := m[ip := Target(ServiceKind, svcs[i].name, svcs[i].namespace, "", "", "")];
      }
    }
    assert svcs[..|svcs|] == svcs;
  }

  method BuildNodes(nodes: seq<Node>) returns (m: map<string, Target>)
    ensures NodeMapAgrees(m, nodes)
  {
    m := map[];
    for i := 0 to |nodes|
      invariant NodeMapAgrees(m, nodes[..i])
    {
      var n := nodes[i];
      var t := Target(NodeKind, n.name, "", "", "", "");
      ghost var m0 := m;
      for k := 0 to |n.addresses|
        invariant forall ip :: Lookup(m, ip)
                            == if Address(true, ip) in n.addresses[..k] then Some(t) else Lookup(m0, ip)
      {
        if n.addresses[k].internal {
          m := m[n.addresses[k].ip := t];
        }
      }
      assert n.addresses[..|n.addresses|] == n.addresses;
      assert nodes[..i + 1][..i] == nodes[..i];
    }
    assert nodes[..|nodes|] == nodes;
  }

  /** buildEndpointIndex: the maps answer every key as the scan of the lists does. */
  method BuildEndpointIndex(c: Cluster) returns (idx: Index)
    ensures Indexes(idx, c)
  {
    var byPodIP, byHostPort := BuildPods(c.pods);
    var bySvcIP := BuildServices(c.services);
    var byNodeIP := BuildNodes(c.nodes);
    idx := Index(byPodIP, byHostPort, bySvcIP, byNodeIP);
  }

  // ---- lookup ------------------------------------------------------------------------------

  function Resolve(idx: Index, ip: string, port: int): Endpoint {
    var out := Endpoint(ip, port, External, "", "", "", "", "");
    if ip in idx.byPodIP then
      var r := idx.byPodIP[ip];
      out.(kind := PodKind, name := r.name, namespace := r.namespace,
           workload := r.workload, workloadKind := r.workloadKind, serviceAccount := r.serviceAccount)
    else if ip in idx.bySvcIP then
      var r := idx.bySvcIP[ip];
      out.(kind := ServiceKind, name := r.name, namespace := r.namespace)
    else if HostPort(ip, port) in idx.byHostPort then
      var r := idx.byHostPort[HostPort(ip, port)];
      out.(kind := PodKind, name := r.name, namespace := r.namespace,
           workload := r.workload, workloadKind := r.workloadKind, serviceAccount := r.serviceAccount)
    else if ip in idx.byNodeIP then
      out.(kind := NodeKind, name := idx.byNodeIP[ip].name)
    else out
  }

  /** The index refines the scan: for every snapshot, every address string and every port. */
  lemma ResolveRefinesScan(idx: Index, c: Cluster, ip: string, port: int)
    requires Indexes(idx, c)
    ensures Resolve(idx, ip, port) == ScanResolve(c, ip, port)
    ensures Answers(c, ip, port, Resolve(idx, ip, port))
  {
    ScanAnswers(c, ip, port);
    assert Lookup(idx.byPodIP, ip) == LastPod(c.pods, ip);
    assert Lookup(idx.bySvcIP, ip) == LastService(c.services, ip);
    assert Lookup(idx.byHostPort, HostPort(ip, port)) == LastHostPod(c.pods, ip, port);
    assert Lookup(idx.byNodeIP, ip) == LastNode(c.nodes, ip);
  }

  method ResolveEndpoints(c: Cluster, endpoints: seq<(string, int)>) returns (results: seq<Endpoint>)
    ensures |results| == |endpoints|
    ensures forall i :: 0 <= i < |results| ==> results[i] == ScanResolve(c, endpoints[i].0, endpoints[i].1)
    ensures forall i :: 0 <= i < |results| ==> Answers(c, endpoints[i].0, endpoints[i].1, results[i])
  {
    var idx := BuildEndpointIndex(c);
    results := [];
    for i := 0 to |endpoints|
      invariant |results| == i
      invariant forall k :: 0 <= k < i ==> results[k] == ScanResolve(c, endpoints[k].0, endpoints[k].1)
    {
      ResolveRefinesScan(idx, c, endpoints[i].0, endpoints[i].1);
      results := results + [Resolve(idx, endpoints[i].0, endpoints[i].1)];
    }
    forall i | 0 <= i < |results| ensures Answers(c, endpoints[i].0, endpoints[i].1, results[i]) {
      ScanAnswers(c, endpoints[i].0, endpoints[i].1);
    }
  }

  // ---- names shown for a prober: resolution at port 0 -----------------------------------------

  function DescribeEndpoint(kind: Kind, namespace: string, name: string): string {
    match kind
    case PodKind => if namespace != "" then namespace + "/" + name else name
    case ServiceKind => if namespace != "" then namespace + "/" + name else name
    case NodeKind => "node/" + name
    case External => "external"
  }

  /** Where an endpoint is shown to be: a namespace, or "node"; nowhere for what the cluster does
      not know and for what has no namespace. */
  function Place(e: Endpoint): string {
    match e.kind
    case NodeKind => "node"
    case External => ""
    case _ => e.namespace
  }

  /** A text cut at its first slash, if it has one. */
  function AtSlash(s: string): (Option<string>, string) {
    if s == "" then (None, "")
    else if s[0] == '/' then (Some(""), s[1..])
    else
      var (front, rest) := AtSlash(s[1..]);
      if front.None? then (None, s) else (Some([s[0]] + front.value), rest)
  }

  lemma {:induction false} AtSlashJoins(s: string)
    ensures var (front, rest) := AtSlash(s);
            s == if front.Some? then front.value + "/" + rest else rest
  {
    if s != "" && s[0] != '/' {
      AtSlashJoins(s[1..]);
      assert s == [s[0]] + s[1..];
    }
  }

  lemma {:induction false} AtSlashCuts(p: string, n: string)
    requires '/' !in p
    ensures AtSlash(p + "/" + n) == (Some(p), n)
  {
    var s := p + "/" + n;
    if p == "" {
      assert s[1..] == n;
    } else {
      assert s[1..] == p[1..] + "/" + n;
      AtSlashCuts(p[1..], n);
      assert s[0] == p[0] && p == [p[0]] + p[1..];
    }
  }

  /** What a reader takes a shown name for: the place, if there is one, and the name. */
  function ReadAs(e: Endpoint): (Option<string>, string) {
    if Place(e) != "" then (Some(Place(e)), e.name)
    else AtSlash(if e.kind.External? then "external" else e.name)
  }

  lemma ShownNameReads(e: Endpoint)
    requires '/' !in e.namespace
    ensures AtSlash(DescribeEndpoint(e.kind, e.namespace, e.name)) == ReadAs(e)
  {
    if Place(e) != "" {
      assert "node/" == "node" + "/";
      assert DescribeEndpoint(e.kind, e.namespace, e.name) == Place(e) + "/" + e.name;
      AtSlashCuts(Place(e), e.name);
    }
  }

  /** When two endpoints show the same name: the place and the name are read the same. So pods
      and services of different namespaces are told apart, a pod and a service are not, and a node
      looks like whatever has its name in a namespace called node. */
  lemma ShownNamesAgreeIff(a: Endpoint, b: Endpoint)
    requires '/' !in a.namespace && '/' !in b.namespace
    ensures DescribeEndpoint(a.kind, a.namespace, a.name) == DescribeEndpoint(b.kind, b.namespace, b.name)
            <==> ReadAs(a) == ReadAs(b)
  {
    ShownNameReads(a);
    ShownNameReads(b);
    AtSlashJoins(DescribeEndpoint(a.kind, a.namespace, a.name));
    AtSlashJoins(DescribeEndpoint(b.kind, b.namespace, b.name));
  }

  /** The display name the journey gives an address. */
  function NameOf(idx: Index, ip: string): string {
    var r := Resolve(idx, ip, 0);
    DescribeEndpoint(r.kind, r.namespace, r.name)
  }

  lemma {:induction false} ZeroIsNeverDeclared(containers: seq<seq<Port>>)
    ensures 0 !in DeclaredPorts(containers)
  {
    if containers != [] {
      ZeroIsNeverDeclared(containers[..|containers| - 1]);
    }
  }

  lemma {:induction false} NoHostPodAtPortZero(pods: seq<Pod>, ip: string)
    ensures LastHostPod(pods, ip, 0) == None
  {
    if pods != [] {
      ZeroIsNeverDeclared(pods[|pods| - 1].containers);
      NoHostPodAtPortZero(pods[..|pods| - 1], ip);
    }
  }

  /** A prober's name never comes from the hostNetwork map: no address, not even one that
      itself ends in a colon and digits, meets one of its keys at port 0. So a prober on a
      host network is named after its node. */
  lemma ProberNameIgnoresHostPorts(idx: Index, c: Cluster, ip: string)
    requires Indexes(idx, c)
    ensures HostPort(ip, 0) !in idx.byHostPort
    ensures NameOf(idx, ip) == NameOf(idx.(byHostPort := map[]), ip)
    ensures LastPod(c.pods, ip).None? && LastService(c.services, ip).None? && LastNode(c.nodes, ip).Some?
            ==> NameOf(idx, ip) == "node/" + LastNode(c.nodes, ip).value.name
  {
    NoHostPodAtPortZero(c.pods, ip);
    assert Lookup(idx.byHostPort, HostPort(ip, 0)) == LastHostPod(c.pods, ip, 0);
    ResolveRefinesScan(idx, c, ip, 0);
  }
}
