/** The desired Service and Ingress that the controller derives from a
    Deployment (the struct literals of syncDeployment and createIngress). */
module Desired {
  import opened Objects

  const HttpPortName: string := "http"
  const ServicePortNumber: int := 80
  const RewriteTargetAnnotation: string := "nginx.ingress.kubernetes.io/rewrite-target"
  const RewriteTarget: string := "/"
  const PrefixPathType: string := "Prefix"

  /** deplLabels: the labels of the Deployment's pod template, the whole map as it is (no
      label is added, dropped or rewritten). */
  function DeplLabels(d: Deployment): (labels: Labels)
    ensures labels == d.templateLabels
  {
    d.templateLabels
  }

  /** The Service syncDeployment submits for Deployment `d` read from namespace `ns`. */
  function DesiredService(ns: string, d: Deployment): (svc: Service)
    ensures svc.name == d.name && svc.namespace == ns
    ensures svc.selector == d.templateLabels
    ensures |svc.ports| == 1 && svc.ports[0].name == HttpPortName && svc.ports[0].port == ServicePortNumber
  {
    Service(ns, d.name, DeplLabels(d), [ServicePort(HttpPortName, ServicePortNumber)])
  }

  /** The Ingress createIngress submits for the Service `svc` it was handed. */
  function DesiredIngress(svc: Service): (ing: Ingress)
    ensures IngressKey(ing) == ServiceKey(svc)
    ensures ing.annotations == map[RewriteTargetAnnotation := RewriteTarget]
    ensures |ing.rules| == 1 && |ing.rules[0].paths| == 1
    ensures ing.rules[0].paths[0].path == svc.name && ing.rules[0].paths[0].pathType == PrefixPathType
    ensures ing.rules[0].paths[0].backend == ServiceBackend(svc.name, ServicePortNumber)
  {
    var path := HttpIngressPath(svc.name, PrefixPathType, ServiceBackend(svc.name, ServicePortNumber));
    Ingress(svc.namespace, svc.name, map[RewriteTargetAnnotation := RewriteTarget], [IngressRule([path])])
  }

  /** The selector is the template's label map itself, passed through even when it is empty. */
  lemma ServiceSelectsTemplateLabels(ns: string, d: Deployment)
    ensures DesiredService(ns, d).selector == DeplLabels(d) == d.templateLabels
    ensures d.templateLabels == map[] ==> DesiredService(ns, d).selector == map[]
  {
  }

  /** The port numbers a Service exposes. */
  function PortNumbers(svc: Service): set<int>
  {
    set j | 0 <= j < |svc.ports| :: svc.ports[j].port
  }

  /** `ing` sits beside `svc` and every one of its paths reaches `svc` on a port `svc` exposes. */
  predicate RoutesTo(ing: Ingress, svc: Service)
  {
    && IngressKey(ing) == ServiceKey(svc)
    && forall i, j :: 0 <= i < |ing.rules| && 0 <= j < |ing.rules[i].paths| ==>
         ing.rules[i].paths[j].backend.name == svc.name && ing.rules[i].paths[j].backend.port in PortNumbers(svc)
  }

  /** The derived pair is coherent: the Ingress's single backend is the Service's own http port. */
  lemma DesiredIngressRoutesToDesiredService(ns: string, d: Deployment)
    ensures RoutesTo(DesiredIngress(DesiredService(ns, d)), DesiredService(ns, d))
    ensures IngressKey(DesiredIngress(DesiredService(ns, d))) == ObjectKey(ns, d.name)
  {
  }

  /** The desired state depends only on the namespace, the Deployment's name and its
      template labels, so two events for the same Deployment reconcile to the same objects. */
  lemma DesiredStateIsLevelTriggered(ns: string, d1: Deployment, d2: Deployment)
    requires d1.name == d2.name && d1.templateLabels == d2.templateLabels
    ensures DesiredService(ns, d1) == DesiredService(ns, d2)
    ensures DesiredIngress(DesiredService(ns, d1)) == DesiredIngress(DesiredService(ns, d2))
  {
  }

  /** The Ingress built from the zero-valued Service has no name and no namespace. */
  lemma ZeroServiceIngressIsNameless()
    ensures IngressKey(DesiredIngress(ZeroService)) == ObjectKey("", "")
  {
  }
}
