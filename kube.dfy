/** The parts of the Kubernetes API objects (`k8s.io/api/core/v1`) that the
    endpoint and discovery code reads.  Lists that the code fetches over the
    network are passed in as values. */
module Kube {

  /** One entry of `Service.Spec.Ports`.  `port` and `nodePort` are int32 in
      the API; nothing here does arithmetic on them. */
  datatype ServicePort = ServicePort(name: string, port: int, nodePort: int)

  /** One entry of `Service.Status.LoadBalancer.Ingress`. */
  datatype LoadBalancerIngress = LoadBalancerIngress(ip: string, hostname: string)

  datatype Service = Service(
    name: string,
    ports: seq<ServicePort>,
    clusterIP: string,
    ingress: seq<LoadBalancerIngress>)

  /** `NodeAddressType`: the kinds of address a node reports. */
  datatype NodeAddressType = Hostname | ExternalIP | InternalIP | ExternalDNS | InternalDNS

  datatype NodeAddress = NodeAddress(addressType: NodeAddressType, address: string)

  datatype Node = Node(name: string, addresses: seq<NodeAddress>)

  datatype Namespace = Namespace(name: string)
}
