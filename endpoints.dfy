/** Application endpoints of a deployed cluster
    (lib/ops/opsservice/endpoints.go): the addresses a Kubernetes service can
    be reached at, chosen in three tiers (load balancer, node ports, cluster
    IP), and the endpoints of the application manifest decorated with the
    addresses of the services their selectors match. */
module Endpoints {
  import opened Common
  import opened Kube

  // ---------------------------------------------------------------------
  // Addresses of one service

  /** One address `host:port` of a service.  The source formats it at once
      with `fmt.Sprintf("%v:%v", …)`; the model keeps both halves and
      formats with `Text` wherever the source looks at the string. */
  datatype Address = Address(host: string, port: int) {
    function Text(): string {
      HostPort(host, port)
    }
  }

  /** `Spec.Ports[*].Port`, in order. */
  function PortNumbers(ports: seq<ServicePort>): seq<int> {
    seq(|ports|, j requires 0 <= j < |ports| => ports[j].port)
  }

  /** `Status.LoadBalancer.Ingress[*].Hostname`, in order. */
  function Hostnames(ingress: seq<LoadBalancerIngress>): seq<string> {
    seq(|ingress|, i requires 0 <= i < |ingress| => ingress[i].hostname)
  }

  /** `host:p` for every port p, in port order. */
  function Row(host: string, ports: seq<int>): seq<Address>
    decreases |ports|
  {
    if ports == [] then [] else Row(host, ports[..|ports| - 1]) + [Address(host, ports[|ports| - 1])]
  }

  /** Position j of a row pairs the host with port j. */
  lemma {:induction false} RowAt(host: string, ports: seq<int>)
    ensures |Row(host, ports)| == |ports|
    ensures forall j :: 0 <= j < |ports| ==> Row(host, ports)[j] == Address(host, ports[j])
    decreases |ports|
  {
    if ports != [] {
      RowAt(host, ports[..|ports| - 1]);
    }
  }

  /** `host:p` for every host and every port, host-major: what each nested
      `for host … for port …` loop of `getAddresses` appends. */
  function Cross(hosts: seq<string>, ports: seq<int>): seq<Address>
    decreases |hosts|
  {
    if hosts == [] then [] else Cross(hosts[..|hosts| - 1], ports) + Row(hosts[|hosts| - 1], ports)
  }

  lemma {:induction false} CrossLength(hosts: seq<string>, ports: seq<int>)
    ensures |Cross(hosts, ports)| == |hosts| * |ports|
  {
    if hosts != [] {
      CrossLength(hosts[..|hosts| - 1], ports);
      RowAt(hosts[|hosts| - 1], ports);
      assert |hosts| * |ports| == (|hosts| - 1) * |ports| + |ports|;
    }
  }

  /** Host-major order: the addresses of the first i + 1 hosts are those of
      the first i hosts followed by the whole row of host i. */
  lemma CrossPrefixes(hosts: seq<string>, ports: seq<int>)
    ensures Cross(hosts[..|hosts|], ports) == Cross(hosts, ports)
    ensures forall i :: 0 <= i < |hosts| ==>
      Cross(hosts[..i + 1], ports) == Cross(hosts[..i], ports) + Row(hosts[i], ports)
  {
    assert hosts[..|hosts|] == hosts;
    forall i | 0 <= i < |hosts|
      ensures Cross(hosts[..i + 1], ports) == Cross(hosts[..i], ports) + Row(hosts[i], ports)
    {
      assert hosts[..i + 1][..i] == hosts[..i];
    }
  }

  /** The addresses of a cross product are exactly the host/port pairs. */
  lemma {:induction false} CrossMembers(hosts: seq<string>, ports: seq<int>)
    ensures forall a :: a in Cross(hosts, ports) <==> a.host in hosts && a.port in ports
  {
    if hosts != [] {
      var n := |hosts| - 1;
      CrossMembers(hosts[..n], ports);
      assert hosts == hosts[..n] + [hosts[n]];
      RowAt(hosts[n], ports);
      forall a ensures a in Row(hosts[n], ports) <==> a.host == hosts[n] && a.port in ports {
        if a.host == hosts[n] && a.port in ports {
          var j :| 0 <= j < |ports| && ports[j] == a.port;
          assert Row(hosts[n], ports)[j] == a;
        }
      }
    }
  }

  /** Non-zero node ports of the spec ports, in order: `nodePorts`. */
  function NodePorts(ports: seq<ServicePort>): seq<int>
    decreases |ports|
  {
    if ports == [] then []
    else
      var n := |ports| - 1;
      NodePorts(ports[..n]) + (if ports[n].nodePort != 0 then [ports[n].nodePort] else [])
  }

  /** `nodePorts` holds exactly the non-zero node ports. */
  lemma {:induction false} NodePortsMembers(ports: seq<ServicePort>)
    ensures forall x :: x in NodePorts(ports) <==> x != 0 && exists k :: 0 <= k < |ports| && ports[k].nodePort == x
    decreases |ports|
  {
    if ports != [] {
      var n := |ports| - 1;
      NodePortsMembers(ports[..n]);
      assert forall k :: 0 <= k < n ==> ports[..n][k] == ports[k];
    }
  }

  /** Addresses of one node of the given type, in order. */
  function AddressesOfType(addresses: seq<NodeAddress>, t: NodeAddressType): seq<string>
    decreases |addresses|
  {
    if addresses == [] then []
    else
      var n := |addresses| - 1;
      AddressesOfType(addresses[..n], t)
        + (if addresses[n].addressType == t then [addresses[n].address] else [])
  }

  lemma {:induction false} AddressesOfTypeMembers(addresses: seq<NodeAddress>, t: NodeAddressType)
    ensures forall ip :: ip in AddressesOfType(addresses, t) <==> NodeAddress(t, ip) in addresses
    decreases |addresses|
  {
    if addresses != [] {
      var n := |addresses| - 1;
      AddressesOfTypeMembers(addresses[..n], t);
      assert addresses == addresses[..n] + [addresses[n]];
    }
  }

  /** Addresses of the given type over all nodes, node-major:
      `externalIPs` and `internalIPs`. */
  function NodeIPs(nodes: seq<Node>, t: NodeAddressType): seq<string>
    decreases |nodes|
  {
    if nodes == [] then []
    else
      var n := |nodes| - 1;
      NodeIPs(nodes[..n], t) + AddressesOfType(nodes[n].addresses, t)
  }

  /** `externalIPs` (`internalIPs`) holds exactly the addresses of that type
      some node reports. */
  lemma {:induction false} NodeIPsMembers(nodes: seq<Node>, t: NodeAddressType)
    ensures forall ip :: ip in NodeIPs(nodes, t) <==> exists m :: 0 <= m < |nodes| && NodeAddress(t, ip) in nodes[m].addresses
    decreases |nodes|
  {
    if nodes != [] {
      var n := |nodes| - 1;
      NodeIPsMembers(nodes[..n], t);
      AddressesOfTypeMembers(nodes[n].addresses, t);
      assert forall m :: 0 <= m < n ==> nodes[..n][m] == nodes[m];
    }
  }

  /** The addresses `getAddresses` returns, tier by tier. */
  function Addresses(service: Service, nodes: seq<Node>): seq<Address>
  {
    if |service.ingress| > 0 then
      Cross(Hostnames(service.ingress), PortNumbers(service.ports))
    else
      var nodePorts := NodePorts(service.ports);
      var externalIPs, internalIPs := NodeIPs(nodes, ExternalIP), NodeIPs(nodes, InternalIP);
      if |nodePorts| > 0 && |externalIPs| > 0 then Cross(externalIPs, nodePorts)
      else if |nodePorts| > 0 && |internalIPs| > 0 then Cross(internalIPs, nodePorts)
      else Row(service.clusterIP, PortNumbers(service.ports))
  }

  predicate HasNodePort(service: Service) {
    exists k :: 0 <= k < |service.ports| && service.ports[k].nodePort != 0
  }

  predicate HasNodeAddress(nodes: seq<Node>, t: NodeAddressType) {
    exists m, k :: 0 <= m < |nodes| && 0 <= k < |nodes[m].addresses| && nodes[m].addresses[k].addressType == t
  }

  lemma NonEmptyNodePorts(service: Service)
    ensures |NodePorts(service.ports)| > 0 <==> HasNodePort(service)
  {
    var r := NodePorts(service.ports);
    NodePortsMembers(service.ports);
    if r != [] {
      assert r[0] in r;
    }
    if HasNodePort(service) {
      var k :| 0 <= k < |service.ports| && service.ports[k].nodePort != 0;
      assert service.ports[k].nodePort in r;
    }
  }

  lemma NonEmptyNodeIPs(nodes: seq<Node>, t: NodeAddressType)
    ensures |NodeIPs(nodes, t)| > 0 <==> HasNodeAddress(nodes, t)
  {
    var r := NodeIPs(nodes, t);
    NodeIPsMembers(nodes, t);
    if r != [] {
      assert r[0] in r;
      var m :| 0 <= m < |nodes| && NodeAddress(t, r[0]) in nodes[m].addresses;
      var k :| 0 <= k < |nodes[m].addresses| && nodes[m].addresses[k] == NodeAddress(t, r[0]);
    }
    if HasNodeAddress(nodes, t) {
      var m, k :| 0 <= m < |nodes| && 0 <= k < |nodes[m].addresses| && nodes[m].addresses[k].addressType == t;
      assert nodes[m].addresses[k] == NodeAddress(t, nodes[m].addresses[k].address);
      assert nodes[m].addresses[k].address in r;
    }
  }

  /** First tier: with a load balancer attached, every ingress hostname with
      every spec port, hostname-major, and nothing else. */
  lemma LoadBalancerTier(service: Service, nodes: seq<Node>)
    requires |service.ingress| > 0
    ensures var r, hosts, ports := Addresses(service, nodes), Hostnames(service.ingress), PortNumbers(service.ports);
      && |r| == |service.ingress| * |service.ports|
      && (forall a :: a in r <==> a.host in hosts && a.port in ports)
      && r == Cross(hosts, ports)
      && (forall i :: 0 <= i < |hosts| ==>
            Cross(hosts[..i + 1], ports) == Cross(hosts[..i], ports) + Row(hosts[i], ports))
  {
    var hosts, ports := Hostnames(service.ingress), PortNumbers(service.ports);
    CrossLength(hosts, ports);
    CrossMembers(hosts, ports);
    CrossPrefixes(hosts, ports);
  }

  /** Second tier: without a load balancer but with a node port, the
      external IPs of the nodes (or, when no node has one, their internal
      IPs) with every non-zero node port, and nothing else. */
  lemma NodePortTier(service: Service, nodes: seq<Node>)
    requires |service.ingress| == 0 && HasNodePort(service)
    requires HasNodeAddress(nodes, ExternalIP) || HasNodeAddress(nodes, InternalIP)
    ensures var t := if HasNodeAddress(nodes, ExternalIP) then ExternalIP else InternalIP;
      Addresses(service, nodes) == Cross(NodeIPs(nodes, t), NodePorts(service.ports))
  {
    NonEmptyNodePorts(service);
    NonEmptyNodeIPs(nodes, ExternalIP);
    NonEmptyNodeIPs(nodes, InternalIP);
  }

  /** The node-port tier pairs exactly the nodes' addresses of the chosen
      type with the non-zero node ports. */
  lemma NodePortMembers(nodes: seq<Node>, t: NodeAddressType, ports: seq<ServicePort>)
    ensures forall a :: a in Cross(NodeIPs(nodes, t), NodePorts(ports)) <==>
      && (exists m :: 0 <= m < |nodes| && NodeAddress(t, a.host) in nodes[m].addresses)
      && a.port != 0
      && exists k :: 0 <= k < |ports| && ports[k].nodePort == a.port
  {
    CrossMembers(NodeIPs(nodes, t), NodePorts(ports));
    NodeIPsMembers(nodes, t);
    NodePortsMembers(ports);
  }

  /** Last tier: the cluster IP with every spec port, in port order. */
  lemma ClusterIPTier(service: Service, nodes: seq<Node>)
    requires |service.ingress| == 0
    requires !HasNodePort(service) || (!HasNodeAddress(nodes, ExternalIP) && !HasNodeAddress(nodes, InternalIP))
    ensures var r := Addresses(service, nodes);
      |r| == |service.ports| &&
      forall j :: 0 <= j < |service.ports| ==> r[j] == Address(service.clusterIP, service.ports[j].port)
  {
    NonEmptyNodePorts(service);
    NonEmptyNodeIPs(nodes, ExternalIP);
    NonEmptyNodeIPs(nodes, InternalIP);
    RowAt(service.clusterIP, PortNumbers(service.ports));
  }

  /** The `for host … for port …` loops appending `host:port`. */
  method AppendCross(addresses: seq<Address>, hosts: seq<string>, ports: seq<int>) returns (r: seq<Address>)
    ensures r == addresses + Cross(hosts, ports)
  {
    r := addresses;
    var i := 0;
    while i < |hosts|
      invariant 0 <= i <= |hosts|
      invariant r == addresses + Cross(hosts[..i], ports)
    {
      assert hosts[..i + 1][..i] == hosts[..i];
      r := AppendRow(r, hosts[i], ports);
      i := i + 1;
    }
    assert hosts[..i] == hosts;
  }

  /** The inner `for port …` loop for one host. */
  method AppendRow(addresses: seq<Address>, host: string, ports: seq<int>) returns (r: seq<Address>)
    ensures r == addresses + Row(host, ports)
  {
    r := addresses;
    var j := 0;
    while j < |ports|
      invariant 0 <= j <= |ports|
      invariant r == addresses + Row(host, ports[..j])
    {
      assert ports[..j + 1][..j] == ports[..j];
      r := r + [Address(host, ports[j])];
      j := j + 1;
    }
    assert ports[..j] == ports;
  }

  /** `getAddresses`.  The source's error result is always nil, so the model
      returns the addresses alone. */
  method GetAddresses(service: Service, nodes: seq<Node>) returns (addresses: seq<Address>)
    ensures addresses == Addresses(service, nodes)
  {
    addresses := [];
    var ports := PortNumbers(service.ports);
    if |service.ingress| > 0 {
      var hosts := Hostnames(service.ingress);
      addresses := AppendCross(addresses, hosts, ports);
      return;
    }

    var nodePorts := [];
    var k := 0;
    while k < |service.ports|
      invariant 0 <= k <= |service.ports|
      invariant nodePorts == NodePorts(service.ports[..k])
    {
      assert service.ports[..k + 1][..k] == service.ports[..k];
      if service.ports[k].nodePort != 0 {
        nodePorts := nodePorts + [service.ports[k].nodePort];
      }
      k := k + 1;
    }
    assert service.ports[..k] == service.ports;

    if |nodePorts| > 0 {
      var externalIPs, internalIPs := CollectNodeIPs(nodes);
      if |externalIPs| > 0 {
        addresses := AppendCross(addresses, externalIPs, nodePorts);
        return;
      }
      if |internalIPs| > 0 {
        addresses := AppendCross(addresses, internalIPs, nodePorts);
        return;
      }
    }
    addresses := AppendRow(addresses, service.clusterIP, ports);
  }

  /** The scan over the nodes' addresses collecting `externalIPs` and
      `internalIPs`. */
  method CollectNodeIPs(nodes: seq<Node>) returns (externalIPs: seq<string>, internalIPs: seq<string>)
    ensures externalIPs == NodeIPs(nodes, ExternalIP) && internalIPs == NodeIPs(nodes, InternalIP)
  {
    externalIPs, internalIPs := [], [];
    var m := 0;
    while m < |nodes|
      invariant 0 <= m <= |nodes|
      invariant externalIPs == NodeIPs(nodes[..m], ExternalIP)
      invariant internalIPs == NodeIPs(nodes[..m], InternalIP)
    {
      assert nodes[..m + 1][..m] == nodes[..m];
      externalIPs, internalIPs := AppendNodeIPs(externalIPs, internalIPs, nodes[m].addresses);
      m := m + 1;
    }
    assert nodes[..m] == nodes;
  }

  /** The inner scan over the addresses of one node. */
  method AppendNodeIPs(external: seq<string>, internal: seq<string>, addresses: seq<NodeAddress>)
    returns (externalIPs: seq<string>, internalIPs: seq<string>)
    ensures externalIPs == external + AddressesOfType(addresses, ExternalIP)
    ensures internalIPs == internal + AddressesOfType(addresses, InternalIP)
  {
    externalIPs, internalIPs := external, internal;
    var a := 0;
    while a < |addresses|
      invariant 0 <= a <= |addresses|
      invariant externalIPs == external + AddressesOfType(addresses[..a], ExternalIP)
      invariant internalIPs == internal + AddressesOfType(addresses[..a], InternalIP)
    {
      assert addresses[..a + 1][..a] == addresses[..a];
      var address := addresses[a];
      if address.addressType == ExternalIP {
        externalIPs := externalIPs + [address.address];
      }
      if address.addressType == InternalIP {
        internalIPs := internalIPs + [address.address];
      }
      a := a + 1;
    }
    assert addresses[..a] == addresses;
  }

  // ---------------------------------------------------------------------
  // Endpoints of the application manifest

  /** An endpoint declared in the application manifest: the services its
      label selector picks, the port to keep (0 keeps every port), the
      protocol to prefix (empty for none), and whether it is hidden. */
  datatype ManifestEndpoint = ManifestEndpoint(
    name: string,
    description: string,
    selector: map<string, string>,
    protocol: string,
    port: int,
    hidden: bool)

  /** `ops.Endpoint`: an endpoint with the addresses it can be reached at. */
  datatype Endpoint = Endpoint(name: string, description: string, addresses: seq<string>)

  /** A handle on a Kubernetes API client. */
  datatype Clientset = Clientset(id: nat)

  /** The services of namespace `ns` matching a label selector, or the error
      listing them, as the API server answers. */
  type ServiceLister = (string, map<string, string>) -> Result<seq<Service>>

  /** The port filter of the source: the text of the address ends in
      `:<port>`, unless the manifest gives no port. */
  predicate PortMatches(port: int, a: Address) {
    port == 0 || HasSuffix(a.Text(), ":" + Decimal(port))
  }

  /** The suffix test picks exactly the addresses on the manifest's port:
      no other port's digits end an address in `:<port>`. */
  lemma PortMatchesIff(port: int, a: Address)
    ensures PortMatches(port, a) <==> port == 0 || a.port == port
  {
    HostPortSuffix(a.host, a.port, port);
  }

  /** `protocol://host:port`, or `host:port` without a protocol. */
  function Decorated(protocol: string, a: Address): string {
    if protocol != "" then protocol + "://" + a.Text() else a.Text()
  }

  /** What endpoint `e` keeps of one address: nothing, or its decorated
      text. */
  function Kept(e: ManifestEndpoint, a: Address): seq<string> {
    if PortMatches(e.port, a) then [Decorated(e.protocol, a)] else []
  }

  /** The addresses of one service that endpoint `e` keeps, decorated, in
      the order `getAddresses` returned them. */
  function Selected(e: ManifestEndpoint, addresses: seq<Address>): seq<string>
    decreases |addresses|
  {
    if addresses == [] then []
    else
      var n := |addresses| - 1;
      Selected(e, addresses[..n]) + Kept(e, addresses[n])
  }

  /** An endpoint keeps exactly the addresses on its port, protocol
      prefixed; without a port it keeps all of them, one for one. */
  lemma {:induction false} SelectedMembers(e: ManifestEndpoint, addresses: seq<Address>)
    ensures forall s :: s in Selected(e, addresses) <==>
      exists a :: a in addresses && (e.port == 0 || a.port == e.port) && s == Decorated(e.protocol, a)
    decreases |addresses|
  {
    if addresses != [] {
      var n := |addresses| - 1;
      var init, last := addresses[..n], addresses[n];
      SelectedMembers(e, init);
      PortMatchesIff(e.port, last);
      assert addresses == init + [last];
    }
  }

  /** Without a port the endpoint keeps every address, one for one. */
  lemma {:induction false} SelectedAllPorts(e: ManifestEndpoint, addresses: seq<Address>)
    requires e.port == 0
    ensures |Selected(e, addresses)| == |addresses|
    ensures forall k :: 0 <= k < |addresses| ==> Selected(e, addresses)[k] == Decorated(e.protocol, addresses[k])
    decreases |addresses|
  {
    if addresses != [] {
      var n := |addresses| - 1;
      var init := addresses[..n];
      SelectedAllPorts(e, init);
      assert Kept(e, addresses[n]) == [Decorated(e.protocol, addresses[n])];
      assert Selected(e, addresses) == Selected(e, init) + [Decorated(e.protocol, addresses[n])];
      forall k | 0 <= k < n
        ensures Selected(e, addresses)[k] == Decorated(e.protocol, addresses[k])
      {
        assert init[k] == addresses[k];
      }
    }
  }

  /** Selection keeps address order: the addresses kept from a list are
      those kept from its first part, followed by those kept from the
      rest. */
  lemma {:induction false} SelectedAppend(e: ManifestEndpoint, first: seq<Address>, rest: seq<Address>)
    ensures Selected(e, first + rest) == Selected(e, first) + Selected(e, rest)
    decreases |rest|
  {
    if rest == [] {
      assert first + rest == first;
    } else {
      var n := |rest| - 1;
      var init, last := rest[..n], rest[n];
      assert rest == init + [last];
      assert first + rest == (first + init) + [last];
      SelectedSnoc(e, first + init, last);
      SelectedSnoc(e, init, last);
      SelectedAppend(e, first, init);
      Associative(Selected(e, first), Selected(e, init), Kept(e, last));
    }
  }

  lemma SelectedSnoc(e: ManifestEndpoint, addresses: seq<Address>, a: Address)
    ensures Selected(e, addresses + [a]) == Selected(e, addresses) + Kept(e, a)
  {
    assert (addresses + [a])[..|addresses|] == addresses;
  }


  /** The services endpoint `e`'s selector finds over all namespaces, in
      namespace order: the first listing error, `None` when there is no
      namespace at all (the source's nil `serviceList`), else the
      concatenated lists. */
  function ListServices(namespaces: seq<Namespace>, selector: map<string, string>, lister: ServiceLister)
    : (r: Result<Option<seq<Service>>>)
    ensures r.Ok? ==> (r.value.None? <==> namespaces == [])
    decreases |namespaces|
  {
    if namespaces == [] then Ok(None)
    else
      var n := |namespaces| - 1;
      match ListServices(namespaces[..n], selector, lister)
      case Err(err) => Err(err)
      case Ok(acc) =>
        match lister(namespaces[n].name, selector)
        case Err(err) => Err(err)
        case Ok(items) => Ok(Some(Merged(acc, items)))
  }

  /** The source's update of `serviceList` by one namespace's services. */
  function Merged(serviceList: Option<seq<Service>>, items: seq<Service>): seq<Service> {
    if serviceList.None? then items else serviceList.value + items
  }

  /** One more namespace in the listing loop. */
  lemma ListServicesStep(namespaces: seq<Namespace>, selector: map<string, string>, lister: ServiceLister, k: nat)
    requires k < |namespaces|
    ensures ListServices(namespaces[..k + 1], selector, lister) ==
      match ListServices(namespaces[..k], selector, lister)
      case Err(err) => Err(err)
      case Ok(acc) =>
        match lister(namespaces[k].name, selector)
        case Err(err) => Err(err)
        case Ok(items) => Ok(Some(Merged(acc, items)))
  {
    assert namespaces[..k + 1][..k] == namespaces[..k];
  }

  /** Listing fails exactly when listing some namespace fails, and then with
      the error of the first such namespace; otherwise it holds exactly the
      services every namespace returned. */
  lemma {:induction false} ListServicesOutcome(namespaces: seq<Namespace>, selector: map<string, string>, lister: ServiceLister)
    ensures var r := ListServices(namespaces, selector, lister);
      && (r.Err? <==> exists k :: 0 <= k < |namespaces| && lister(namespaces[k].name, selector).Err?)
      && (r.Err? ==> exists k ::
            && 0 <= k < |namespaces|
            && lister(namespaces[k].name, selector) == Err(r.error)
            && forall j :: 0 <= j < k ==> lister(namespaces[j].name, selector).Ok?)
      && (r.Ok? && r.value.Some? ==> forall svc :: svc in r.value.value <==>
            exists k :: 0 <= k < |namespaces| && svc in lister(namespaces[k].name, selector).value)
    decreases |namespaces|
  {
    if namespaces != [] {
      var n := |namespaces| - 1;
      var init := namespaces[..n];
      ListServicesOutcome(init, selector, lister);
      assert forall k :: 0 <= k < n ==> init[k] == namespaces[k];
    }
  }

  /** Two listings run one after the other: the first one's error, else
      the second one's error, else the services of the first followed by
      those of the second (no list at all when both found no namespace). */
  function JoinedListings(first: Result<Option<seq<Service>>>, second: Result<Option<seq<Service>>>)
    : Result<Option<seq<Service>>>
  {
    match first
    case Err(err) => Err(err)
    case Ok(xs) =>
      match second
      case Err(err) => Err(err)
      case Ok(ys) =>
        if xs.None? then Ok(ys) else if ys.None? then Ok(xs) else Ok(Some(xs.value + ys.value))
  }

  /** Listing keeps namespace order and multiplicity: listing a list of
      namespaces split in two is listing its first part, then the rest. */
  lemma {:induction false} ListServicesAppend(
    first: seq<Namespace>, rest: seq<Namespace>, selector: map<string, string>, lister: ServiceLister)
    ensures ListServices(first + rest, selector, lister)
         == JoinedListings(ListServices(first, selector, lister), ListServices(rest, selector, lister))
    decreases |rest|
  {
    if rest == [] {
      assert first + rest == first;
    } else {
      var n := |rest| - 1;
      var init, last := rest[..n], rest[n];
      assert (first + rest)[..|first| + n] == first + init;
      assert (first + rest)[|first| + n] == last;
      ListServicesAppend(first, init, selector, lister);
      var x, y := ListServices(first, selector, lister), ListServices(init, selector, lister);
      if x.Ok? && y.Ok? && x.value.Some? && y.value.Some? && lister(last.name, selector).Ok? {
        Associative(x.value.value, y.value.value, lister(last.name, selector).value);
      }
    }
  }

  /** How the addresses of a service are found: `getAddresses` against the
      node list fetched once per call (`AddressesOn`).  The collection below
      is stated for any such function. */
  type AddressFinder = Service -> seq<Address>

  function AddressesOn(nodes: seq<Node>): AddressFinder {
    service => Addresses(service, nodes)
  }

  /** The addresses of every service found, in order. */
  function ServiceAddresses(services: seq<Service>, find: AddressFinder): seq<seq<Address>>
    decreases |services|
  {
    if services == [] then []
    else
      var n := |services| - 1;
      ServiceAddresses(services[..n], find) + [find(services[n])]
  }

  lemma {:induction false} ServiceAddressesAt(services: seq<Service>, find: AddressFinder)
    ensures |ServiceAddresses(services, find)| == |services|
    ensures forall k :: 0 <= k < |services| ==> ServiceAddresses(services, find)[k] == find(services[k])
    decreases |services|
  {
    if services != [] {
      var n := |services| - 1;
      ServiceAddressesAt(services[..n], find);
      assert forall k :: 0 <= k < n ==> services[..n][k] == services[k];
    }
  }

  /** The addresses endpoint `e` collects, service by service, from the
      addresses of each service found. */
  function EndpointAddresses(e: ManifestEndpoint, perService: seq<seq<Address>>): seq<string>
    decreases |perService|
  {
    if perService == [] then []
    else
      var n := |perService| - 1;
      EndpointAddresses(e, perService[..n]) + Selected(e, perService[n])
  }

  lemma EndpointAddressesSnoc(e: ManifestEndpoint, perService: seq<seq<Address>>, addresses: seq<Address>)
    ensures EndpointAddresses(e, perService + [addresses]) == EndpointAddresses(e, perService) + Selected(e, addresses)
  {
    assert (perService + [addresses])[..|perService|] == perService;
  }

  /** Each collected address is kept from one service's addresses, and
      everything kept from any of them is collected. */
  lemma {:induction false} EndpointAddressMembers(e: ManifestEndpoint, perService: seq<seq<Address>>)
    ensures forall s :: s in EndpointAddresses(e, perService) <==>
      exists k :: 0 <= k < |perService| && s in Selected(e, perService[k])
    decreases |perService|
  {
    if perService != [] {
      var n := |perService| - 1;
      EndpointAddressMembers(e, perService[..n]);
      assert forall k :: 0 <= k < n ==> perService[..n][k] == perService[k];
    }
  }

  /** Collection keeps service order: the addresses of the first services
      come before those of the later ones. */
  lemma {:induction false} EndpointAddressesAppend(e: ManifestEndpoint, first: seq<seq<Address>>, rest: seq<seq<Address>>)
    ensures EndpointAddresses(e, first + rest) == EndpointAddresses(e, first) + EndpointAddresses(e, rest)
    decreases |rest|
  {
    if rest == [] {
      assert first + rest == first;
    } else {
      var n := |rest| - 1;
      var init, last := rest[..n], rest[n];
      assert rest == init + [last];
      assert first + rest == (first + init) + [last];
      EndpointAddressesSnoc(e, first + init, last);
      EndpointAddressesSnoc(e, init, last);
      EndpointAddressesAppend(e, first, init);
      Associative(EndpointAddresses(e, first), EndpointAddresses(e, init), Selected(e, last));
    }
  }


  /** What one manifest entry contributes: an error, nothing, or one
      endpoint. */
  function EndpointFor(e: ManifestEndpoint, find: AddressFinder, namespaces: seq<Namespace>, lister: ServiceLister)
    : (r: Result<Option<Endpoint>>)
    ensures e.hidden ==> r == Ok(None)
    ensures !e.hidden ==> (r.Err? <==> ListServices(namespaces, e.selector, lister).Err?)
    ensures r.Ok? && r.value.Some? ==>
      var x := r.value.value;
      x.name == e.name && x.description == e.description && x.addresses != []
  {
    if e.hidden then Ok(None)
    else
      match ListServices(namespaces, e.selector, lister)
      case Err(err) => Err(err)
      case Ok(None) => Ok(None)
      case Ok(Some(services)) =>
        var addresses := EndpointAddresses(e, ServiceAddresses(services, find));
        if |addresses| > 0 then Ok(Some(Endpoint(e.name, e.description, addresses))) else Ok(None)
  }

  /** An endpoint listed for a manifest entry carries exactly the addresses
      of the services its selector found that are on the entry's port,
      each prefixed with the entry's protocol. */
  lemma EndpointForAddresses(e: ManifestEndpoint, find: AddressFinder, namespaces: seq<Namespace>, lister: ServiceLister)
    requires EndpointFor(e, find, namespaces, lister).Ok? && EndpointFor(e, find, namespaces, lister).value.Some?
    ensures var services := ListServices(namespaces, e.selector, lister).value.value;
      forall s :: s in EndpointFor(e, find, namespaces, lister).value.value.addresses <==>
        exists k, a :: 0 <= k < |services| && a in find(services[k]) &&
          (e.port == 0 || a.port == e.port) && s == Decorated(e.protocol, a)
  {
    var services := ListServices(namespaces, e.selector, lister).value.value;
    var perService := ServiceAddresses(services, find);
    ServiceAddressesAt(services, find);
    EndpointAddressMembers(e, perService);
    forall k | 0 <= k < |services| {
      SelectedMembers(e, perService[k]);
    }
  }

  /** Some service has an address on the entry's port (any address when
      the entry gives no port); `perService` holds the addresses of each
      service. */
  predicate SomeAddressOnPort(e: ManifestEndpoint, perService: seq<seq<Address>>) {
    exists k :: 0 <= k < |perService| && AddressOnPort(e, perService[k])
  }

  /** Some address of one service is on the entry's port. */
  predicate AddressOnPort(e: ManifestEndpoint, addresses: seq<Address>) {
    exists a :: a in addresses && (e.port == 0 || a.port == e.port)
  }

  /** The endpoint's collected addresses are non-empty exactly when some
      service found has an address on its port. */
  lemma EndpointAddressesNonEmpty(e: ManifestEndpoint, services: seq<Service>, find: AddressFinder)
    ensures |EndpointAddresses(e, ServiceAddresses(services, find))| > 0 <==>
      SomeAddressOnPort(e, ServiceAddresses(services, find))
  {
    var perService := ServiceAddresses(services, find);
    if |EndpointAddresses(e, perService)| > 0 {
      CollectedWitness(e, perService);
    }
    if SomeAddressOnPort(e, perService) {
      WitnessCollected(e, perService);
    }
  }

  /** A collected address comes from an address on the entry's port. */
  lemma CollectedWitness(e: ManifestEndpoint, perService: seq<seq<Address>>)
    requires |EndpointAddresses(e, perService)| > 0
    ensures SomeAddressOnPort(e, perService)
  {
    EndpointAddressMembers(e, perService);
    var s := EndpointAddresses(e, perService)[0];
    assert s in EndpointAddresses(e, perService);
    var k :| 0 <= k < |perService| && s in Selected(e, perService[k]);
    SelectedMembers(e, perService[k]);
  }

  /** An address on the entry's port is collected. */
  lemma WitnessCollected(e: ManifestEndpoint, perService: seq<seq<Address>>)
    requires SomeAddressOnPort(e, perService)
    ensures |EndpointAddresses(e, perService)| > 0
  {
    var k :| 0 <= k < |perService| && AddressOnPort(e, perService[k]);
    var a :| a in perService[k] && (e.port == 0 || a.port == e.port);
    EndpointAddressMembers(e, perService);
    SelectedMembers(e, perService[k]);
    assert Decorated(e.protocol, a) in Selected(e, perService[k]);
    assert Decorated(e.protocol, a) in EndpointAddresses(e, perService);
  }

  /** A visible entry whose services can be listed always succeeds, and
      it lists an endpoint exactly when some service it found has an
      address on the entry's port (any address when it gives no port):
      `ServiceAddresses(services, find)[k]` is `find(services[k])`. */
  lemma EndpointForProduced(e: ManifestEndpoint, find: AddressFinder, namespaces: seq<Namespace>, lister: ServiceLister)
    requires !e.hidden && ListServices(namespaces, e.selector, lister).Ok?
    ensures EndpointFor(e, find, namespaces, lister).Ok?
    ensures var listed := ListServices(namespaces, e.selector, lister).value;
      EndpointFor(e, find, namespaces, lister).value.Some? <==>
        listed.Some? && SomeAddressOnPort(e, ServiceAddresses(listed.value, find))
  {
    var listed := ListServices(namespaces, e.selector, lister).value;
    if listed.Some? {
      EndpointAddressesNonEmpty(e, listed.value, find);
    }
  }

  /** The outcome of every manifest entry, in manifest order. */
  function Outcomes(manifest: seq<ManifestEndpoint>, find: AddressFinder, namespaces: seq<Namespace>, lister: ServiceLister)
    : seq<Result<Option<Endpoint>>>
  {
    seq(|manifest|, i requires 0 <= i < |manifest| => EndpointFor(manifest[i], find, namespaces, lister))
  }

  /** The loop over the manifest's entries, given each one's outcome: the
      first error, or the endpoints contributed, in order. */
  function Gathered(outcomes: seq<Result<Option<Endpoint>>>): (r: Result<seq<Endpoint>>)
    ensures r.Ok? ==> |r.value| <= |outcomes|
    decreases |outcomes|
  {
    if outcomes == [] then Ok([])
    else
      var n := |outcomes| - 1;
      match Gathered(outcomes[..n])
      case Err(err) => Err(err)
      case Ok(acc) =>
        match outcomes[n]
        case Err(err) => Err(err)
        case Ok(None) => Ok(acc)
        case Ok(Some(x)) => Ok(acc + [x])
  }

  /** The endpoints of the manifest entries. */
  function Collected(manifest: seq<ManifestEndpoint>, find: AddressFinder, namespaces: seq<Namespace>, lister: ServiceLister)
    : (r: Result<seq<Endpoint>>)
    ensures r.Ok? ==> |r.value| <= |manifest|
  {
    Gathered(Outcomes(manifest, find, namespaces, lister))
  }

  /** Gathering fails exactly when some outcome is an error, with the first
      one; otherwise it holds exactly the endpoints contributed. */
  lemma {:induction false} GatheredOutcome(outcomes: seq<Result<Option<Endpoint>>>)
    ensures var r := Gathered(outcomes);
      && (r.Err? <==> exists i :: 0 <= i < |outcomes| && outcomes[i].Err?)
      && (r.Err? ==> exists i ::
            && 0 <= i < |outcomes|
            && outcomes[i] == Err(r.error)
            && forall j :: 0 <= j < i ==> outcomes[j].Ok?)
      && (r.Ok? ==> forall x :: x in r.value <==> exists i :: 0 <= i < |outcomes| && outcomes[i] == Ok(Some(x)))
    decreases |outcomes|
  {
    if outcomes != [] {
      var n := |outcomes| - 1;
      GatheredOutcome(outcomes[..n]);
      assert forall i :: 0 <= i < n ==> outcomes[..n][i] == outcomes[i];
    }
  }

  /** Collection fails exactly when some entry's outcome is an error (a
      visible entry whose services cannot be listed), with the first such
      error; otherwise it returns exactly the endpoints the entries
      contribute. */
  lemma CollectedOutcome(manifest: seq<ManifestEndpoint>, find: AddressFinder, namespaces: seq<Namespace>, lister: ServiceLister)
    ensures var r := Collected(manifest, find, namespaces, lister);
      && (r.Err? <==> exists i :: 0 <= i < |manifest| && EndpointFor(manifest[i], find, namespaces, lister).Err?)
      && (r.Err? ==> exists i ::
            && 0 <= i < |manifest|
            && EndpointFor(manifest[i], find, namespaces, lister) == Err(r.error)
            && forall j :: 0 <= j < i ==> EndpointFor(manifest[j], find, namespaces, lister).Ok?)
      && (r.Ok? ==> forall x :: x in r.value <==>
            exists i :: 0 <= i < |manifest| && EndpointFor(manifest[i], find, namespaces, lister) == Ok(Some(x)))
  {
    var outcomes := Outcomes(manifest, find, namespaces, lister);
    assert |outcomes| == |manifest|;
    assert forall i :: 0 <= i < |manifest| ==> outcomes[i] == EndpointFor(manifest[i], find, namespaces, lister);
    GatheredOutcome(outcomes);
  }

  /** Outcomes that are all "nothing" gather to no endpoints. */
  lemma {:induction false} GatheredNothing(outcomes: seq<Result<Option<Endpoint>>>)
    requires forall i :: 0 <= i < |outcomes| ==> outcomes[i] == Ok(None)
    ensures Gathered(outcomes) == Ok([])
    decreases |outcomes|
  {
    if outcomes != [] {
      GatheredNothing(outcomes[..|outcomes| - 1]);
    }
  }

  /** A manifest whose endpoints are all hidden lists none, whatever the
      cluster holds. */
  lemma HiddenOnly(manifest: seq<ManifestEndpoint>, find: AddressFinder, namespaces: seq<Namespace>, lister: ServiceLister)
    requires forall i :: 0 <= i < |manifest| ==> manifest[i].hidden
    ensures Collected(manifest, find, namespaces, lister) == Ok([])
  {
    GatheredNothing(Outcomes(manifest, find, namespaces, lister));
  }

  /** One more entry in the loop over the manifest. */
  lemma GatheredStep(outcomes: seq<Result<Option<Endpoint>>>, k: nat)
    requires k < |outcomes|
    ensures Gathered(outcomes[..k + 1]) ==
      match Gathered(outcomes[..k])
      case Err(err) => Err(err)
      case Ok(acc) =>
        match outcomes[k]
        case Err(err) => Err(err)
        case Ok(None) => Ok(acc)
        case Ok(Some(x)) => Ok(acc + [x])
  {
    assert outcomes[..k + 1][..k] == outcomes[..k];
  }

  /** An error among the first outcomes is the error of all of them. */
  lemma {:induction false} GatheredFails(outcomes: seq<Result<Option<Endpoint>>>, k: nat)
    requires k <= |outcomes| && Gathered(outcomes[..k]).Err?
    ensures Gathered(outcomes) == Gathered(outcomes[..k])
    decreases |outcomes| - k
  {
    if k < |outcomes| {
      GatheredStep(outcomes, k);
      GatheredFails(outcomes, k + 1);
    } else {
      assert outcomes[..k] == outcomes;
    }
  }

  /** Two gatherings run one after the other: the first one's error, else
      the second one's error, else the endpoints of the first followed by
      those of the second. */
  function Joined(first: Result<seq<Endpoint>>, second: Result<seq<Endpoint>>): Result<seq<Endpoint>> {
    match first
    case Err(err) => Err(err)
    case Ok(xs) =>
      match second
      case Err(err) => Err(err)
      case Ok(ys) => Ok(xs + ys)
  }

  /** Gathering keeps manifest order: gathering a list of outcomes is
      gathering its first part, then the rest. */
  lemma {:induction false} GatheredAppend(first: seq<Result<Option<Endpoint>>>, rest: seq<Result<Option<Endpoint>>>)
    ensures Gathered(first + rest) == Joined(Gathered(first), Gathered(rest))
    decreases |rest|
  {
    if rest == [] {
      assert first + rest == first;
      if Gathered(first).Ok? {
        assert Gathered(first).value + [] == Gathered(first).value;
      }
    } else {
      var n := |rest| - 1;
      GatheredAppend(first, rest[..n]);
      assert (first + rest)[..|first| + n] == first + rest[..n];
      assert (first + rest)[|first| + n] == rest[n];
      if Gathered(first).Ok? && Gathered(rest[..n]).Ok? && rest[n].Ok? && rest[n].value.Some? {
        var xs, ys, x := Gathered(first).value, Gathered(rest[..n]).value, rest[n].value.value;
        assert xs + ys + [x] == xs + (ys + [x]);
      }
    }
  }

  /** The endpoints of a manifest split in two are those of its first part
      followed by those of the rest, the first part's error winning. */
  lemma CollectedAppend(
    first: seq<ManifestEndpoint>, rest: seq<ManifestEndpoint>,
    find: AddressFinder, namespaces: seq<Namespace>, lister: ServiceLister)
    ensures Collected(first + rest, find, namespaces, lister)
         == Joined(Collected(first, find, namespaces, lister), Collected(rest, find, namespaces, lister))
  {
    var whole, init, tail :=
      Outcomes(first + rest, find, namespaces, lister),
      Outcomes(first, find, namespaces, lister),
      Outcomes(rest, find, namespaces, lister);
    assert |whole| == |init| + |tail|;
    forall i | 0 <= i < |whole|
      ensures whole[i] == (init + tail)[i]
    {
      if i < |first| {
        assert (first + rest)[i] == first[i];
      } else {
        assert (first + rest)[i] == rest[i - |first|];
      }
    }
    assert whole == init + tail;
    GatheredAppend(init, tail);
  }

  /** The filter over the addresses of one service. */
  method AppendSelected(acc: seq<string>, e: ManifestEndpoint, addresses: seq<Address>) returns (r: seq<string>)
    ensures r == acc + Selected(e, addresses)
  {
    r := acc;
    var k := 0;
    while k < |addresses|
      invariant 0 <= k <= |addresses|
      invariant r == acc + Selected(e, addresses[..k])
    {
      assert addresses[..k + 1][..k] == addresses[..k];
      var kept := KeepAddress(e, addresses[k]);
      r := r + kept;
      k := k + 1;
    }
    assert addresses[..k] == addresses;
  }

  /** The body of the filter loop for one address. */
  method KeepAddress(e: ManifestEndpoint, a: Address) returns (kept: seq<string>)
    ensures kept == Kept(e, a)
  {
    kept := [];
    if e.port == 0 || HasSuffix(a.Text(), ":" + Decimal(e.port)) {
      var text := a.Text();
      if e.protocol != "" {
        text := e.protocol + "://" + text;
      }
      kept := [text];
    }
  }

  /** The loop over the namespaces listing the services of one endpoint. */
  method FetchServices(namespaces: seq<Namespace>, selector: map<string, string>, lister: ServiceLister)
    returns (r: Result<Option<seq<Service>>>)
    ensures r == ListServices(namespaces, selector, lister)
  {
    var serviceList: Option<seq<Service>> := None;
    var k := 0;
    while k < |namespaces|
      invariant 0 <= k <= |namespaces|
      invariant ListServices(namespaces[..k], selector, lister) == Ok(serviceList)
    {
      ListServicesStep(namespaces, selector, lister, k);
      var services := lister(namespaces[k].name, selector);
      if services.Err? {
        r := Err(services.error);
        ListServicesFails(namespaces, selector, lister, k + 1);
        return;
      }
      if serviceList.None? {
        serviceList := Some(services.value);
      } else {
        serviceList := Some(serviceList.value + services.value);
      }
      k := k + 1;
    }
    assert namespaces[..k] == namespaces;
    r := Ok(serviceList);
  }

  /** A listing error in the first namespaces is the error of all of them. */
  lemma {:induction false} ListServicesFails(namespaces: seq<Namespace>, selector: map<string, string>, lister: ServiceLister, k: nat)
    requires k <= |namespaces| && ListServices(namespaces[..k], selector, lister).Err?
    ensures ListServices(namespaces, selector, lister) == ListServices(namespaces[..k], selector, lister)
    decreases |namespaces| - k
  {
    if k < |namespaces| {
      assert namespaces[..k + 1][..k] == namespaces[..k];
      ListServicesFails(namespaces, selector, lister, k + 1);
    } else {
      assert namespaces[..k] == namespaces;
    }
  }

  /** The loop over the services found for one endpoint. */
  method GatherAddresses(e: ManifestEndpoint, services: seq<Service>, nodes: seq<Node>) returns (r: seq<string>)
    ensures r == EndpointAddresses(e, ServiceAddresses(services, AddressesOn(nodes)))
  {
    ghost var find := AddressesOn(nodes);
    r := [];
    var k := 0;
    while k < |services|
      invariant 0 <= k <= |services|
      invariant r == EndpointAddresses(e, ServiceAddresses(services[..k], find))
    {
      assert services[..k + 1][..k] == services[..k];
      var addresses := GetAddresses(services[k], nodes);
      assert ServiceAddresses(services[..k + 1], find) == ServiceAddresses(services[..k], find) + [addresses];
      EndpointAddressesSnoc(e, ServiceAddresses(services[..k], find), addresses);
      r := AppendSelected(r, e, addresses);
      k := k + 1;
    }
    assert services[..k] == services;
  }

  /** What the loop body does for one manifest entry: its outcome. */
  method EntryOutcome(e: ManifestEndpoint, nodes: seq<Node>, namespaces: seq<Namespace>, lister: ServiceLister)
    returns (r: Result<Option<Endpoint>>)
    ensures r == EndpointFor(e, AddressesOn(nodes), namespaces, lister)
  {
    if e.hidden {
      return Ok(None);
    }
    var serviceList := FetchServices(namespaces, e.selector, lister);
    if serviceList.Err? {
      return Err(serviceList.error);
    }
    if serviceList.value.None? {
      return Ok(None);
    }
    var addresses := GatherAddresses(e, serviceList.value.value, nodes);
    if |addresses| > 0 {
      return Ok(Some(Endpoint(e.name, e.description, addresses)));
    }
    return Ok(None);
  }

  /** The loop over the manifest endpoints. */
  method CollectEndpoints(manifest: seq<ManifestEndpoint>, nodes: seq<Node>, namespaces: seq<Namespace>, lister: ServiceLister)
    returns (r: Result<seq<Endpoint>>)
    ensures r == Collected(manifest, AddressesOn(nodes), namespaces, lister)
  {
    ghost var outcomes := Outcomes(manifest, AddressesOn(nodes), namespaces, lister);
    var endpoints := [];
    var i := 0;
    while i < |manifest|
      invariant 0 <= i <= |manifest|
      invariant Gathered(outcomes[..i]) == Ok(endpoints)
    {
      GatheredStep(outcomes, i);
      var outcome := EntryOutcome(manifest[i], nodes, namespaces, lister);
      assert outcome == outcomes[i];
      if outcome.Err? {
        r := Err(outcome.error);
        GatheredFails(outcomes, i + 1);
        return;
      }
      if outcome.value.Some? {
        endpoints := endpoints + [outcome.value.value];
      }
      i := i + 1;
    }
    assert outcomes[..i] == outcomes;
    r := Ok(endpoints);
  }

  /** `GetApplicationEndpoints`, given what each step would yield: opening
      the site (its manifest endpoints), the client, and the node and
      namespace lists. */
  function ApplicationEndpoints(
    site: Result<seq<ManifestEndpoint>>, client: Result<Clientset>,
    nodes: Result<seq<Node>>, namespaces: Result<seq<Namespace>>, lister: ServiceLister)
    : (r: Result<seq<Endpoint>>)
    ensures site.Err? ==> r == Err(site.error)
    ensures site == Ok([]) ==> r == Ok([])
    ensures site.Ok? && site.value != [] && client.Err? ==> r == Err(client.error)
    ensures site.Ok? && site.value != [] && client.Ok? && nodes.Err? ==> r == Err(nodes.error)
    ensures site.Ok? && site.value != [] && client.Ok? && nodes.Ok? && namespaces.Err? ==> r == Err(namespaces.error)
    ensures site.Ok? && client.Ok? && nodes.Ok? && namespaces.Ok? ==>
      r == Collected(site.value, AddressesOn(nodes.value), namespaces.value, lister)
  {
    if site.Err? then Err(site.error)
    else if |site.value| == 0 then Ok([])
    else if client.Err? then Err(client.error)
    else if nodes.Err? then Err(nodes.error)
    else if namespaces.Err? then Err(namespaces.error)
    else Collected(site.value, AddressesOn(nodes.value), namespaces.value, lister)
  }

  /** The operator's connection to the cluster. */
  class Operator {
    /** The lazily created API client, once there is one. */
    var kubeClient: Option<Clientset>

    constructor ()
      ensures kubeClient == None
    {
      kubeClient := None;
    }

    /** `GetKubeClient`: the cached client, or a new one from `connect` (the
        outcome of building it), cached only when building succeeded. */
    method GetKubeClient(connect: Result<Clientset>) returns (r: Result<Clientset>)
      modifies this
      ensures old(kubeClient).Some? ==> r == Ok(old(kubeClient).value) && kubeClient == old(kubeClient)
      ensures old(kubeClient).None? ==> r == connect && kubeClient == (if connect.Ok? then Some(connect.value) else None)
    {
      if kubeClient.Some? {
        return Ok(kubeClient.value);
      }
      if connect.Err? {
        return Err(connect.error);
      }
      kubeClient := Some(connect.value);
      return Ok(kubeClient.value);
    }

    /** `GetApplicationEndpoints`.  The client is only needed, and so only
        created, when the manifest declares endpoints. */
    method GetApplicationEndpoints(
      site: Result<seq<ManifestEndpoint>>, connect: Result<Clientset>,
      nodes: Result<seq<Node>>, namespaces: Result<seq<Namespace>>, lister: ServiceLister)
      returns (r: Result<seq<Endpoint>>)
      modifies this
      ensures r == ApplicationEndpoints(site, if old(kubeClient).Some? then Ok(old(kubeClient).value) else connect,
                                        nodes, namespaces, lister)
      ensures kubeClient ==
        if site.Ok? && site.value != [] && old(kubeClient).None? && connect.Ok? then Some(connect.value)
        else old(kubeClient)
    {
      if site.Err? {
        return Err(site.error);
      }
      if |site.value| == 0 {
        return Ok([]);
      }
      var client := GetKubeClient(connect);
      if client.Err? {
        return Err(client.error);
      }
      if nodes.Err? {
        return Err(nodes.error);
      }
      if namespaces.Err? {
        return Err(namespaces.error);
      }
      r := CollectEndpoints(site.value, nodes.value, namespaces.value, lister);
    }
  }
}
