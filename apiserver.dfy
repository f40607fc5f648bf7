/** An abstract cluster: the Services and Ingresses it stores, keyed by
    (namespace, name), and how it answers a create request. */
module ApiServer {
  import opened Objects

  datatype Kind = ServiceKind | IngressKind

  datatype ApiError =
    | Unavailable    // the request did not get through (transport, throttling, timeout)
    | Invalid        // an object without a namespace or a name
    | AlreadyExists  // an object of that kind and key is stored already

  /** Which create requests fail in transport: the nondeterminism of the network, fixed per kind and key. */
  type Fault = (Kind, ObjectKey) -> bool

  datatype Cluster = Cluster(services: map<ObjectKey, Service>, ingresses: map<ObjectKey, Ingress>)

  /** The API server's answer to a create of `kind` at `key`; None means the object is stored. */
  function Admit(kind: Kind, key: ObjectKey, present: bool, fault: Fault): (err: Option<ApiError>)
    ensures err.None? <==> !fault(kind, key) && key.namespace != "" && key.name != "" && !present
    ensures err == Some(AlreadyExists) ==> present
  {
    if fault(kind, key) then Some(Unavailable)
    else if key.namespace == "" || key.name == "" then Some(Invalid)
    else if present then Some(AlreadyExists)
    else None
  }

  /** What a Service create hands back: the new cluster, the returned object and the error. */
  datatype ServiceReply = ServiceReply(cluster: Cluster, returned: Service, err: Option<ApiError>)

  datatype IngressReply = IngressReply(cluster: Cluster, err: Option<ApiError>)

  /** Services(ns).Create(svc): stores `svc` under (ns, svc.name) unless refused; a refused
      create changes nothing and hands back the zero-valued Service. */
  function PostService(c: Cluster, ns: string, svc: Service, fault: Fault): (r: ServiceReply)
    ensures r.err == Admit(ServiceKind, ObjectKey(ns, svc.name), ObjectKey(ns, svc.name) in c.services, fault)
    ensures r.err.None? ==> ObjectKey(ns, svc.name) !in c.services
    ensures r.err.None? ==> r.cluster == c.(services := c.services[ObjectKey(ns, svc.name) := svc]) && r.returned == svc
    ensures r.err.Some? ==> r.cluster == c && r.returned == ZeroService
  {
    var key := ObjectKey(ns, svc.name);
    var err := Admit(ServiceKind, key, key in c.services, fault);
    if err.None? then ServiceReply(c.(services := c.services[key := svc]), svc, None)
    else ServiceReply(c, ZeroService, err)
  }

  /** Ingresses(ns).Create(ing): stores `ing` under (ns, ing.name) unless refused. */
  function PostIngress(c: Cluster, ns: string, ing: Ingress, fault: Fault): (r: IngressReply)
    ensures r.err == Admit(IngressKind, ObjectKey(ns, ing.name), ObjectKey(ns, ing.name) in c.ingresses, fault)
    ensures r.err.None? ==> ObjectKey(ns, ing.name) !in c.ingresses
    ensures r.err.None? ==> r.cluster == c.(ingresses := c.ingresses[ObjectKey(ns, ing.name) := ing])
    ensures r.err.Some? ==> r.cluster == c
  {
    var key := ObjectKey(ns, ing.name);
    var err := Admit(IngressKind, key, key in c.ingresses, fault);
    if err.None? then IngressReply(c.(ingresses := c.ingresses[key := ing]), None)
    else IngressReply(c, err)
  }

  /** `c2` keeps every object of `c1` as it was: nothing is updated or deleted. */
  predicate Grows(c1: Cluster, c2: Cluster)
  {
    && (forall k :: k in c1.services ==> k in c2.services && c2.services[k] == c1.services[k])
    && (forall k :: k in c1.ingresses ==> k in c2.ingresses && c2.ingresses[k] == c1.ingresses[k])
  }

  lemma GrowsTransitive(c1: Cluster, c2: Cluster, c3: Cluster)
    requires Grows(c1, c2) && Grows(c2, c3)
    ensures Grows(c1, c3)
  {
  }
}
