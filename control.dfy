/** The controller object: its work queue, the items it has handed to Forget,
    and the cluster it creates objects in, changed in place by its methods. */
module Control {
  import opened Objects
  import opened Desired
  import ApiServer
  import Reconcile
  import WorkLoop

  class Controller {
    /** The lister, the key split and the network, which the controller only consults. */
    const env: WorkLoop.Env

    /** The work queue: the queued items and whether the queue is shutting down. */
    var queue: seq<Deployment>
    var shuttingDown: bool
    /** Every item handed to the queue's Forget, in order. */
    var forgotten: seq<Deployment>
    /** The cluster's Services and Ingresses. */
    var services: map<ObjectKey, Service>
    var ingresses: map<ObjectKey, Ingress>

    function Cluster(): ApiServer.Cluster
      reads this
    {
      ApiServer.Cluster(services, ingresses)
    }

    function World(): WorkLoop.World
      reads this
    {
      WorkLoop.World(queue, shuttingDown, forgotten, Cluster())
    }

    /** newController: an empty queue over the given lister and cluster. */
    constructor (env: WorkLoop.Env, cluster: ApiServer.Cluster)
      ensures this.env == env
      ensures queue == [] && !shuttingDown && forgotten == []
      ensures Cluster() == cluster
    {
      this.env := env;
      queue, shuttingDown, forgotten := [], false, [];
      services, ingresses := cluster.services, cluster.ingresses;
    }

    /** handleAdd: the added object goes to the queue as it is. */
    method HandleAdd(obj: Deployment)
      modifies this`queue
      ensures queue == old(queue) + [obj]
    {
      queue := queue + [obj];
    }

    /** handleDel: the deleted object goes to the queue exactly as an added one does. */
    method HandleDel(obj: Deployment)
      modifies this`queue
      ensures queue == old(queue) + [obj]
    {
      queue := queue + [obj];
    }

    /** Services(ns).Create(svc), answered by the cluster. */
    method PostService(ns: string, svc: Service) returns (returned: Service, err: Option<ApiServer.ApiError>)
      modifies this`services
      ensures ApiServer.ServiceReply(Cluster(), returned, err) == ApiServer.PostService(old(Cluster()), ns, svc, env.fault)
    {
      var key := ObjectKey(ns, svc.name);
      err := ApiServer.Admit(ApiServer.ServiceKind, key, key in services, env.fault);
      if err.None? {
        services := services[key := svc];
        returned := svc;
      } else {
        returned := ZeroService;
      }
    }

    /** Ingresses(ns).Create(ing), answered by the cluster. */
    method PostIngress(ns: string, ing: Ingress) returns (err: Option<ApiServer.ApiError>)
      modifies this`ingresses
      ensures ApiServer.IngressReply(Cluster(), err) == ApiServer.PostIngress(old(Cluster()), ns, ing, env.fault)
    {
      var key := ObjectKey(ns, ing.name);
      err := ApiServer.Admit(ApiServer.IngressKind, key, key in ingresses, env.fault);
      if err.None? {
        ingresses := ingresses[key := ing];
      }
    }

    /** createIngress: create the Ingress for `svc` in `svc`'s namespace and return the error. */
    method CreateIngress(svc: Service) returns (err: Option<ApiServer.ApiError>)
      modifies this`ingresses
      ensures services == old(services)
      ensures ApiServer.IngressReply(Cluster(), err) == Reconcile.CreateIngress(old(Cluster()), svc, env.fault)
    {
      err := PostIngress(svc.namespace, DesiredIngress(svc));
    }

    /** syncDeployment: look the Deployment up (it must be there), create its Service, print
        that error away, and return the error of creating the Ingress for the returned Service. */
    method SyncDeployment(ns: string, name: string) returns (err: Option<ApiServer.ApiError>)
      requires ObjectKey(ns, name) in env.lister
      modifies this`services, this`ingresses
      ensures ApiServer.IngressReply(Cluster(), err) == Reconcile.Sync(old(Cluster()), ns, env.lister[ObjectKey(ns, name)], env.fault)
    {
      var deployment := env.lister[ObjectKey(ns, name)];
      var svc := DesiredService(ns, deployment);
      var s, serviceErr := PostService(ns, svc);
      err := CreateIngress(s);
    }

    /** processItem: Get an item (or the shutdown signal), Forget it on the way out, stop on a
        failed key split, otherwise sync it, ignore the sync error and ask for more. */
    method ProcessItem() returns (more: bool)
      requires !WorkLoop.WouldBlock(World())
      requires queue != [] ==> WorkLoop.Found(env, queue[0])
      modifies this
      ensures WorkLoop.StepResult(more, World()) == WorkLoop.Step(env, old(World()))
      ensures old(queue) == [] ==> !more && World() == old(World())
      ensures old(queue) != [] ==> queue == old(queue)[1..] && forgotten == old(forgotten) + [old(queue)[0]]
      ensures old(queue) != [] ==> (more <==> env.split(old(queue)[0]).Some?)
      ensures shuttingDown == old(shuttingDown)
    {
      if queue == [] {
        return false;
      }
      var item := queue[0];
      queue := queue[1..];
      var key := env.split(item);
      if key.None? {
        forgotten := forgotten + [item];
        return false;
      }
      var syncErr := SyncDeployment(key.value.namespace, key.value.name);
      forgotten := forgotten + [item];
      more := true;
    }

    /** worker: call processItem while it returns true. The run also ends where Get would
        block on an empty queue that is not shutting down. */
    method Worker() returns (exit: WorkLoop.WorkerExit)
      requires WorkLoop.AllFound(env, queue)
      modifies this
      ensures WorkLoop.DrainResult(World(), exit) == WorkLoop.Drain(env, old(World()))
    {
      var more := true;
      while more && !WorkLoop.WouldBlock(World())
        invariant WorkLoop.AllFound(env, queue)
        invariant more ==> WorkLoop.Drain(env, World()) == WorkLoop.Drain(env, old(World()))
        invariant !more ==> WorkLoop.DrainResult(World(), WorkLoop.Returned) == WorkLoop.Drain(env, old(World()))
        decreases |queue|, more
      {
        ghost var before := World();
        more := ProcessItem();
        assert forall i :: 0 <= i < |queue| ==> queue[i] == before.items[i + 1];
      }
      exit := if more then WorkLoop.Waiting else WorkLoop.Returned;
    }
  }
}
