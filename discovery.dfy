/** Publication of cluster discovery information by the AWS autoscaler
    (lib/autoscale/aws/discovery.go): the URL of the gravity service, found
    from its named port and its load-balancer ingress, and the ordered
    two-step synchronisation of the join token and that URL. */
module Discovery {
  import opened Common
  import opened Kube

  /** Name of the Kubernetes service of the cluster controller. */
  const GravityServiceName := "gravity-site"

  /** Index i is the first spec port called `name`. */
  predicate FirstNamed(ports: seq<ServicePort>, name: string, i: int) {
    0 <= i < |ports| && ports[i].name == name &&
    forall k :: 0 <= k < i ==> ports[k].name != name
  }

  /** Index j is the first ingress with a non-empty hostname. */
  predicate FirstWithHostname(ingress: seq<LoadBalancerIngress>, j: int) {
    0 <= j < |ingress| && ingress[j].hostname != "" &&
    forall k :: 0 <= k < j ==> ingress[k].hostname == ""
  }

  /** The value the port scan leaves in `port`: that of the first port
      called `name`, or 0 when there is none. */
  function NamedPort(ports: seq<ServicePort>, name: string): (r: int)
    ensures forall i :: FirstNamed(ports, name, i) ==> r == ports[i].port
    ensures (forall i :: 0 <= i < |ports| ==> ports[i].name != name) ==> r == 0
    ensures r != 0 ==> exists i :: FirstNamed(ports, name, i) && r == ports[i].port
  {
    if ports == [] then 0
    else if ports[0].name == name then
      assert FirstNamed(ports, name, 0);
      ports[0].port
    else
      var r := NamedPort(ports[1..], name);
      assert forall i :: 1 <= i && FirstNamed(ports, name, i) ==> FirstNamed(ports[1..], name, i - 1);
      assert forall i :: FirstNamed(ports[1..], name, i) ==> FirstNamed(ports, name, i + 1);
      r
  }

  /** The first non-empty ingress hostname, if any. */
  function IngressHostname(ingress: seq<LoadBalancerIngress>): (r: Option<string>)
    ensures forall j :: FirstWithHostname(ingress, j) ==> r == Some(ingress[j].hostname)
    ensures (forall j :: 0 <= j < |ingress| ==> ingress[j].hostname == "") <==> r.None?
  {
    if ingress == [] then None
    else if ingress[0].hostname != "" then Some(ingress[0].hostname)
    else
      var r := IngressHostname(ingress[1..]);
      assert forall j :: 1 <= j && FirstWithHostname(ingress, j) ==> FirstWithHostname(ingress[1..], j - 1);
      assert (forall j :: 0 <= j < |ingress| ==> ingress[j].hostname == "")
        <==> (forall j :: 0 <= j < |ingress[1..]| ==> ingress[1..][j].hostname == "");
      r
  }

  /** `fmt.Sprintf("https://%v:%v", hostname, port)` */
  function URL(hostname: string, port: int): string {
    "https://" + hostname + ":" + Decimal(port)
  }

  function NoPortMessage(portName: string): string {
    "no port " + Quote(portName) + " found for service " + Quote(GravityServiceName)
  }

  function NoIngressMessage(): string {
    "ingress load balancer not found for " + GravityServiceName
  }

  /** What `getServiceURL` returns, given the outcome of fetching the gravity
      service and the name of its port. */
  function ServiceURL(service: Result<Service>, portName: string): (r: Result<string>)
    ensures service.Err? ==> r == Err(service.error)
    ensures service.Ok? ==>
      var ports, ingress := service.value.ports, service.value.ingress;
      && (forall i, j :: FirstNamed(ports, portName, i) && ports[i].port != 0 && FirstWithHostname(ingress, j)
            ==> r == Ok(URL(ingress[j].hostname, ports[i].port)))
      && ((forall i :: FirstNamed(ports, portName, i) ==> ports[i].port == 0) ==> r.Err? && r.error.NotFound?)
      && ((forall j :: 0 <= j < |ingress| ==> ingress[j].hostname == "") ==> r.Err? && r.error.NotFound?)
  {
    match service
    case Err(e) => Err(e)
    case Ok(svc) =>
      var port := NamedPort(svc.ports, portName);
      if port == 0 then
        Err(NotFound(NoPortMessage(portName)))
      else
        match IngressHostname(svc.ingress)
        case Some(hostname) => Ok(URL(hostname, port))
        case None => Err(NotFound(NoIngressMessage()))
  }

  lemma {:induction false} NamedPortExtended(ports: seq<ServicePort>, name: string, extra: seq<ServicePort>)
    requires exists i :: 0 <= i < |ports| && ports[i].name == name
    ensures NamedPort(ports + extra, name) == NamedPort(ports, name)
  {
    if ports[0].name != name {
      var i :| 0 <= i < |ports| && ports[i].name == name;
      assert ports[1..][i - 1].name == name;
      assert (ports + extra)[1..] == ports[1..] + extra;
      NamedPortExtended(ports[1..], name, extra);
    }
  }

  /** Ports appended after one with the gravity port name never change the
      result: the first match decides. */
  lemma LaterPortsIgnored(service: Service, portName: string, extra: seq<ServicePort>)
    requires exists i :: 0 <= i < |service.ports| && service.ports[i].name == portName
    ensures ServiceURL(Ok(service), portName)
         == ServiceURL(Ok(service.(ports := service.ports + extra)), portName)
  {
    NamedPortExtended(service.ports, portName, extra);
  }

  /** `getServiceURL`: the service fetched from the API server (or the error
      fetching it) is an input; the two scans are the loops of the source. */
  method GetServiceURL(service: Result<Service>, portName: string) returns (r: Result<string>)
    ensures r == ServiceURL(service, portName)
  {
    if service.Err? {
      return Err(service.error);
    }
    var svc := service.value;
    var port := 0;
    var i := 0;
    while i < |svc.ports|
      invariant 0 <= i <= |svc.ports|
      invariant forall k :: 0 <= k < i ==> svc.ports[k].name != portName
      invariant port == 0
    {
      if svc.ports[i].name == portName {
        port := svc.ports[i].port;
        assert FirstNamed(svc.ports, portName, i);
        break;
      }
      i := i + 1;
    }
    if port == 0 {
      return Err(NotFound(NoPortMessage(portName)));
    }
    var j := 0;
    while j < |svc.ingress|
      invariant 0 <= j <= |svc.ingress|
      invariant forall k :: 0 <= k < j ==> svc.ingress[k].hostname == ""
    {
      if svc.ingress[j].hostname != "" {
        assert FirstWithHostname(svc.ingress, j);
        return Ok(URL(svc.ingress[j].hostname, port));
      }
      j := j + 1;
    }
    return Err(NotFound(NoIngressMessage()));
  }

  datatype SiteKey = SiteKey(accountID: string, siteDomain: string)

  datatype Site = Site(accountID: string, domain: string) {
    function Key(): SiteKey {
      SiteKey(accountID, domain)
    }
  }

  /** A value written to the shared discovery store. */
  datatype Publication = JoinToken(token: string) | ServiceAddress(url: string)

  /** The ordered writes one `syncDiscovery` pass makes, given the outcome of
      every step, and the error it returns.  The token is synchronised
      before the URL, the URL is published only after the cluster lookup and
      the token step succeeded, a failing write stores nothing, and a pass
      that publishes both reports no error. */
  function SyncDiscoveryRun(
    site: Result<Site>, tokens: SiteKey -> Result<string>, tokenWrite: Option<Error>,
    service: Result<Service>, portName: string, urlWrite: Option<Error>): (r: (Option<Error>, seq<Publication>))
    ensures var (err, writes) := r;
      && |writes| <= 2
      && (forall k :: 0 <= k < |writes| && writes[k].ServiceAddress? ==>
            && k == 1 && site.Ok? && tokens(site.value.Key()).Ok?
            && writes[0] == JoinToken(tokens(site.value.Key()).value))
      && ((site.Err? || tokens(site.value.Key()).Err? || tokenWrite.Some?) ==>
            writes == [] && err.Some?)
      && (err.None? <==> |writes| == 2)
      && (|writes| == 2 ==>
            ServiceURL(service, portName).Ok? && writes[1] == ServiceAddress(ServiceURL(service, portName).value))
    ensures var (err, writes) := r;
      && (site.Err? ==> err == Some(site.error))
      && (site.Ok? ==>
            var token := tokens(site.value.Key());
            && (token.Err? ==> err == Some(token.error))
            && (token.Ok? && tokenWrite.Some? ==> err == tokenWrite)
            && (token.Ok? && tokenWrite.None? ==>
                  var url := ServiceURL(service, portName);
                  && |writes| >= 1 && writes[0] == JoinToken(token.value)
                  && (url.Err? ==> err == Some(url.error))
                  && (url.Ok? ==> err == urlWrite)))
  {
    if site.Err? then (Some(site.error), [])
    else
      var token := tokens(site.value.Key());
      if token.Err? then (Some(token.error), [])
      else if tokenWrite.Some? then (tokenWrite, [])
      else
        var url := ServiceURL(service, portName);
        if url.Err? then (Some(url.error), [JoinToken(token.value)])
        else if urlWrite.Some? then (urlWrite, [JoinToken(token.value)])
        else (None, [JoinToken(token.value), ServiceAddress(url.value)])
  }

  /** The discovery side of the autoscaler: what it has written to the shared
      discovery store, oldest first. */
  class Autoscaler {
    var published: seq<Publication>

    constructor ()
      ensures published == []
    {
      published := [];
    }

    /** Store write of the join token; `outcome` is the store's answer. */
    method PublishJoinToken(token: string, outcome: Option<Error>) returns (err: Option<Error>)
      modifies this
      ensures err == outcome
      ensures published == old(published) + (if outcome.None? then [JoinToken(token)] else [])
    {
      err := outcome;
      if outcome.None? {
        published := published + [JoinToken(token)];
      }
    }

    /** Store write of the service URL; `outcome` is the store's answer. */
    method PublishServiceURL(url: string, outcome: Option<Error>) returns (err: Option<Error>)
      modifies this
      ensures err == outcome
      ensures published == old(published) + (if outcome.None? then [ServiceAddress(url)] else [])
    {
      err := outcome;
      if outcome.None? {
        published := published + [ServiceAddress(url)];
      }
    }

    /** `syncToken`: fetch the expand token of the cluster, then publish it. */
    method SyncToken(cluster: Site, tokens: SiteKey -> Result<string>, tokenWrite: Option<Error>)
      returns (err: Option<Error>)
      modifies this
      ensures var token := tokens(cluster.Key());
        && err == (if token.Err? then Some(token.error) else tokenWrite)
        && published == old(published) + (if token.Ok? && tokenWrite.None? then [JoinToken(token.value)] else [])
    {
      var token := tokens(cluster.Key());
      if token.Err? {
        return Some(token.error);
      }
      err := PublishJoinToken(token.value, tokenWrite);
    }

    /** `syncMasterService`: nothing is published when the URL lookup fails. */
    method SyncMasterService(service: Result<Service>, portName: string, urlWrite: Option<Error>)
      returns (err: Option<Error>)
      modifies this
      ensures var url := ServiceURL(service, portName);
        && err == (if url.Err? then Some(url.error) else urlWrite)
        && published == old(published) + (if url.Ok? && urlWrite.None? then [ServiceAddress(url.value)] else [])
    {
      var url := GetServiceURL(service, portName);
      if url.Err? {
        return Some(url.error);
      }
      err := PublishServiceURL(url.value, urlWrite);
    }

    /** `syncDiscovery`: look up the local cluster, sync the token, then the
      service URL, stopping at the first step that fails. */
    method SyncDiscovery(
      site: Result<Site>, tokens: SiteKey -> Result<string>, tokenWrite: Option<Error>,
      service: Result<Service>, portName: string, urlWrite: Option<Error>)
      returns (err: Option<Error>)
      modifies this
      ensures var (e, writes) := SyncDiscoveryRun(site, tokens, tokenWrite, service, portName, urlWrite);
        err == e && published == old(published) + writes
    {
      if site.Err? {
        return Some(site.error);
      }
      err := SyncToken(site.value, tokens, tokenWrite);
      if err.Some? {
        return err;
      }
      err := SyncMasterService(service, portName, urlWrite);
    }
  }
}
