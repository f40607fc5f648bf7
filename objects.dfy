/** The Kubernetes object shapes the controller reads and builds, reduced to
    the fields controller.go touches. */
module Objects {

  datatype Option<T> = None | Some(value: T)

  /** A label map, as in an object's metadata. */
  type Labels = map<string, string>

  /** The (namespace, name) identity of a namespaced object. */
  datatype ObjectKey = ObjectKey(namespace: string, name: string)

  /** A Deployment: its identity and the labels of its pod template. */
  datatype Deployment = Deployment(namespace: string, name: string, templateLabels: Labels)

  datatype ServicePort = ServicePort(name: string, port: int)

  datatype Service = Service(namespace: string, name: string, selector: Labels, ports: seq<ServicePort>)

  datatype ServiceBackend = ServiceBackend(name: string, port: int)

  datatype HttpIngressPath = HttpIngressPath(path: string, pathType: string, backend: ServiceBackend)

  /** An Ingress rule holding an HTTP rule value (the host is left unset). */
  datatype IngressRule = IngressRule(paths: seq<HttpIngressPath>)

  datatype Ingress = Ingress(namespace: string, name: string, annotations: map<string, string>, rules: seq<IngressRule>)

  function DeploymentKey(d: Deployment): ObjectKey { ObjectKey(d.namespace, d.name) }

  function ServiceKey(s: Service): ObjectKey { ObjectKey(s.namespace, s.name) }

  function IngressKey(i: Ingress): ObjectKey { ObjectKey(i.namespace, i.name) }

  /** The zero-valued Service a typed client hands back together with a create error. */
  const ZeroService: Service := Service("", "", map[], [])

  /** The informer's lister: every Deployment is stored under its own key. */
  predicate ListerIndexed(lister: map<ObjectKey, Deployment>)
  {
    forall k :: k in lister ==> DeploymentKey(lister[k]) == k
  }
}
