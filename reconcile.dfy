/** The effect of syncDeployment and createIngress on the cluster, as
    functions of the cluster before the call. */
module Reconcile {
  import opened Objects
  import opened Desired
  import opened ApiServer

  /** createIngress: build the Ingress for `svc` and create it in `svc`'s namespace. */
  function CreateIngress(c: Cluster, svc: Service, fault: Fault): (r: IngressReply)
    ensures r.err.None? <==> !fault(IngressKind, ServiceKey(svc)) && svc.namespace != "" && svc.name != "" && ServiceKey(svc) !in c.ingresses
    ensures r.err.None? ==> r.cluster == c.(ingresses := c.ingresses[ServiceKey(svc) := DesiredIngress(svc)])
    ensures r.err.Some? ==> r.cluster == c
  {
    PostIngress(c, svc.namespace, DesiredIngress(svc), fault)
  }

  /** syncDeployment for the Deployment `d` read from namespace `ns`: create the desired
      Service, then create the Ingress for whatever Service the first create handed back.
      The Service create's error is only printed; the Ingress create's error is returned. */
  function Sync(c: Cluster, ns: string, d: Deployment, fault: Fault): (r: IngressReply)
    ensures r.err.None? ==> ObjectKey(ns, d.name) in r.cluster.services && ObjectKey(ns, d.name) in r.cluster.ingresses
    ensures r.err.None? ==> r.cluster.services[ObjectKey(ns, d.name)] == DesiredService(ns, d)
    ensures r.err.None? ==> r.cluster.ingresses[ObjectKey(ns, d.name)] == DesiredIngress(DesiredService(ns, d))
  {
    var created := PostService(c, ns, DesiredService(ns, d), fault);
    CreateIngress(created.cluster, created.returned, fault)
  }

  /** A sync never updates or deletes an object, and adds objects only under the
      Deployment's own key. */
  lemma SyncGrows(c: Cluster, ns: string, d: Deployment, fault: Fault)
    ensures Grows(c, Sync(c, ns, d, fault).cluster)
    ensures forall k :: k != ObjectKey(ns, d.name) ==> (k in Sync(c, ns, d, fault).cluster.services <==> k in c.services)
    ensures forall k :: k != ObjectKey(ns, d.name) ==> (k in Sync(c, ns, d, fault).cluster.ingresses <==> k in c.ingresses)
  {
  }

  /** The convergence scenario: with both creates getting through and neither object present,
      the sync succeeds and stores exactly the desired Service and Ingress. */
  lemma SyncConverges(c: Cluster, ns: string, d: Deployment, fault: Fault)
    requires ns != "" && d.name != ""
    requires !fault(ServiceKind, ObjectKey(ns, d.name)) && !fault(IngressKind, ObjectKey(ns, d.name))
    requires ObjectKey(ns, d.name) !in c.services && ObjectKey(ns, d.name) !in c.ingresses
    ensures Sync(c, ns, d, fault).err == None
    ensures Sync(c, ns, d, fault).cluster.services == c.services[ObjectKey(ns, d.name) := DesiredService(ns, d)]
    ensures Sync(c, ns, d, fault).cluster.ingresses == c.ingresses[ObjectKey(ns, d.name) := DesiredIngress(DesiredService(ns, d))]
  {
  }

  /** Deployment default/web with template labels {app: web}, reconciled against an empty
      cluster with no transport faults. */
  lemma WebScenario()
    ensures var web := Deployment("default", "web", map["app" := "web"]);
      var r := Sync(Cluster(map[], map[]), "default", web, (kind, key) => false);
      && r.err == None
      && r.cluster.services == map[ObjectKey("default", "web") := Service("default", "web", map["app" := "web"], [ServicePort("http", 80)])]
      && ObjectKey("default", "web") in r.cluster.ingresses
      && r.cluster.ingresses[ObjectKey("default", "web")].rules[0].paths[0].backend == ServiceBackend("web", 80)
  {
  }

  /** When the Service create is refused (for any reason), its error is not what the sync
      returns: the Ingress is still attempted, built from the zero-valued Service, and that
      create's own refusal is returned. Nothing in the cluster changes. */
  lemma SyncServiceRefused(c: Cluster, ns: string, d: Deployment, fault: Fault)
    requires PostService(c, ns, DesiredService(ns, d), fault).err.Some?
    ensures Sync(c, ns, d, fault).cluster == c
    ensures Sync(c, ns, d, fault).err == Some(if fault(IngressKind, ObjectKey("", "")) then Unavailable else Invalid)
  {
  }

  /** When the Service create succeeds, the sync returns exactly the Ingress create's answer,
      and a refused Ingress create leaves the Ingresses as they were. */
  lemma SyncServiceCreated(c: Cluster, ns: string, d: Deployment, fault: Fault)
    requires PostService(c, ns, DesiredService(ns, d), fault).err.None?
    ensures Sync(c, ns, d, fault).cluster.services == c.services[ObjectKey(ns, d.name) := DesiredService(ns, d)]
    ensures Sync(c, ns, d, fault).err == Admit(IngressKind, ObjectKey(ns, d.name), ObjectKey(ns, d.name) in c.ingresses, fault)
    ensures Sync(c, ns, d, fault).err.Some? ==> Sync(c, ns, d, fault).cluster.ingresses == c.ingresses
  {
  }

  /** A sync for a Deployment whose Service exists already creates nothing and reports an
      error: the Ingress is never created on a later sync once the Service is there. */
  lemma SyncAfterServiceExists(c: Cluster, ns: string, d: Deployment, fault: Fault)
    requires ObjectKey(ns, d.name) in c.services
    ensures Sync(c, ns, d, fault).cluster == c
    ensures Sync(c, ns, d, fault).err.Some?
  {
  }

  /** Syncing twice leaves the cluster as syncing once does. */
  lemma SyncIdempotent(c: Cluster, ns: string, d: Deployment, fault: Fault)
    ensures Sync(Sync(c, ns, d, fault).cluster, ns, d, fault).cluster == Sync(c, ns, d, fault).cluster
  {
  }

  /** Once a sync has left the Deployment's Service in place, any later sync, whatever the
      network then does, leaves the cluster as it is. */
  lemma SyncRepeatAfterService(c: Cluster, ns: string, d: Deployment, f1: Fault, f2: Fault)
    requires ObjectKey(ns, d.name) in Sync(c, ns, d, f1).cluster.services
    ensures Sync(Sync(c, ns, d, f1).cluster, ns, d, f2).cluster == Sync(c, ns, d, f1).cluster
  {
    SyncAfterServiceExists(Sync(c, ns, d, f1).cluster, ns, d, f2);
  }

  /** The Service of `k` exists after a sync of `k` exactly when it existed before or the
      create got through. */
  lemma SyncService(c: Cluster, ns: string, d: Deployment, fault: Fault)
    ensures ObjectKey(ns, d.name) in Sync(c, ns, d, fault).cluster.services <==>
      ObjectKey(ns, d.name) in c.services || (!fault(ServiceKind, ObjectKey(ns, d.name)) && ns != "" && d.name != "")
  {
  }

  /** Every object in the cluster is what the controller derives from the Deployment the
      lister holds at its key, and every Ingress has its Service. */
  predicate Derived(c: Cluster, lister: map<ObjectKey, Deployment>)
  {
    && (forall k :: k in c.services ==> k in lister && c.services[k] == DesiredService(k.namespace, lister[k]))
    && (forall k :: k in c.ingresses ==> k in c.services && c.ingresses[k] == DesiredIngress(c.services[k]))
  }

  lemma SyncKeepsDerived(c: Cluster, lister: map<ObjectKey, Deployment>, key: ObjectKey, fault: Fault)
    requires ListerIndexed(lister) && key in lister
    requires Derived(c, lister)
    ensures Derived(Sync(c, key.namespace, lister[key], fault).cluster, lister)
  {
  }
}
