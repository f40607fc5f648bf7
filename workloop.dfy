/** processItem and worker as functions of the controller's state: the work
    queue, the items handed to Forget, and the cluster. */
module WorkLoop {
  import opened Objects
  import opened ApiServer
  import opened Reconcile

  /** How a worker run ends: processItem returned false, or the queue is empty and not shut
      down, so the next Get waits for a handler to add an item. */
  datatype WorkerExit = Returned | Waiting

  /** What the controller consults but does not change: the informer's lister, the key of a
      queued Deployment split into namespace and name (None when the split reports an error),
      and the network. For a Deployment item the key function does not fail. */
  datatype Env = Env(lister: map<ObjectKey, Deployment>, split: Deployment -> Option<ObjectKey>, fault: Fault)

  /** The queued items, the queue's shutdown flag, the items handed to Forget so far (in
      order) and the cluster. */
  datatype World = World(items: seq<Deployment>, shuttingDown: bool, forgotten: seq<Deployment>, cluster: Cluster)

  datatype StepResult = StepResult(more: bool, world: World)

  datatype DrainResult = DrainResult(world: World, exit: WorkerExit)

  /** Get would block: nothing queued and no shutdown. */
  predicate WouldBlock(w: World)
  {
    w.items == [] && !w.shuttingDown
  }

  /** The lister holds the Deployment an item's key names (when the key splits at all). */
  predicate Found(env: Env, item: Deployment)
  {
    env.split(item).Some? ==> env.split(item).value in env.lister
  }

  predicate AllFound(env: Env, items: seq<Deployment>)
  {
    forall i :: 0 <= i < |items| ==> Found(env, items[i])
  }

  /** processItem: take the head item (or report shutdown), forget it whatever happens, stop
      on a failed key split, otherwise sync the Deployment, drop the error and go on. */
  function Step(env: Env, w: World): (r: StepResult)
    requires !WouldBlock(w)
    requires w.items != [] ==> Found(env, w.items[0])
    ensures w.items == [] ==> r == StepResult(false, w)
    ensures w.items != [] ==> r.world.items == w.items[1..] && r.world.forgotten == w.forgotten + [w.items[0]]
    ensures w.items != [] ==> (r.more <==> env.split(w.items[0]).Some?)
    ensures r.world.shuttingDown == w.shuttingDown
    ensures !r.more ==> r.world.cluster == w.cluster
    ensures w.items != [] && env.split(w.items[0]).Some? ==>
      var key := env.split(w.items[0]).value;
      r.world.cluster == Sync(w.cluster, key.namespace, env.lister[key], env.fault).cluster
  {
    if w.items == [] then StepResult(false, w)
    else
      var item := w.items[0];
      var taken := w.(items := w.items[1..], forgotten := w.forgotten + [item]);
      match env.split(item)
      case None => StepResult(false, taken)
      case Some(key) =>
        var synced := Sync(w.cluster, key.namespace, env.lister[key], env.fault);
        StepResult(true, taken.(cluster := synced.cluster))
  }

  /** worker: call processItem while it returns true. */
  function Drain(env: Env, w: World): (r: DrainResult)
    requires AllFound(env, w.items)
    ensures |r.world.items| <= |w.items| && r.world.shuttingDown == w.shuttingDown
    ensures r.exit == Waiting ==> r.world.items == [] && !w.shuttingDown
    decreases |w.items|
  {
    if WouldBlock(w) then DrainResult(w, Waiting)
    else
      var s := Step(env, w);
      if !s.more then DrainResult(s.world, Returned)
      else
        assert forall i :: 0 <= i < |s.world.items| ==> s.world.items[i] == w.items[i + 1];
        Drain(env, s.world)
  }

  /** The index of the first item whose key does not split, or |items| when all do. */
  function FirstUnsplittable(items: seq<Deployment>, split: Deployment -> Option<ObjectKey>): (n: nat)
    ensures n <= |items|
    ensures forall i :: 0 <= i < n ==> split(items[i]).Some?
    ensures n < |items| ==> split(items[n]).None?
  {
    if items == [] || split(items[0]).None? then 0
    else 1 + FirstUnsplittable(items[1..], split)
  }

  /** `after` is `before` with its first n items taken off the queue and handed to Forget,
      in order, where n = |before.items| - |after.items|. */
  predicate TookPrefix(before: World, after: World)
  {
    && |after.items| <= |before.items|
    && after.items == before.items[|before.items| - |after.items|..]
    && after.forgotten == before.forgotten + before.items[..|before.items| - |after.items|]
    && after.shuttingDown == before.shuttingDown
  }

  /** The worker takes items only from the head, never puts one back, and hands every item it
      takes to Forget exactly once, in queue order. */
  lemma {:induction false} DrainConsumesPrefix(env: Env, w: World)
    requires AllFound(env, w.items)
    ensures TookPrefix(w, Drain(env, w).world)
    decreases |w.items|
  {
    if WouldBlock(w) {
      TookNothing(w);
    } else if w.items == [] {
      TookNothing(w);
    } else {
      var s := Step(env, w);
      TookHead(w, s.world);
      if s.more {
        DrainConsumesPrefix(env, s.world);
        TookPrefixCons(w, s.world, Drain(env, s.world).world);
      }
    }
  }

  /** Taking the head item and then a prefix of the rest takes a prefix. */
  lemma TookPrefixCons(w: World, next: World, after: World)
    requires w.items != [] && next.items == w.items[1..] && next.forgotten == w.forgotten + [w.items[0]]
    requires next.shuttingDown == w.shuttingDown
    requires TookPrefix(next, after)
    ensures TookPrefix(w, after)
  {
  }

  lemma TookNothing(w: World)
    ensures TookPrefix(w, w)
  {
  }

  lemma TookHead(w: World, next: World)
    requires w.items != [] && next.items == w.items[1..] && next.forgotten == w.forgotten + [w.items[0]]
    requires next.shuttingDown == w.shuttingDown
    ensures TookPrefix(w, next)
  {
  }

  /** The worker stops right after the first item whose key does not split; when every key
      splits it drains the queue and then returns on shutdown or waits for more items. */
  lemma {:induction false} DrainStopsAtFirstUnsplittable(env: Env, w: World)
    requires AllFound(env, w.items)
    ensures var r := Drain(env, w); var n := FirstUnsplittable(w.items, env.split);
      if n < |w.items| then r.exit == Returned && r.world.items == w.items[n + 1..]
      else r.world.items == [] && r.exit == (if w.shuttingDown then Returned else Waiting)
    decreases |w.items|
  {
    if !WouldBlock(w) && w.items != [] {
      var s := Step(env, w);
      if s.more {
        assert forall i :: 0 <= i < |s.world.items| ==> s.world.items[i] == w.items[i + 1];
        DrainStopsAtFirstUnsplittable(env, s.world);
        assert s.world.items == w.items[1..];
      }
    }
  }

  /** Shutdown means stop: on a drained, shut-down queue the worker returns and changes nothing. */
  lemma DrainOnShutdown(env: Env, w: World)
    requires w.items == [] && w.shuttingDown
    ensures Drain(env, w) == DrainResult(w, Returned)
  {
  }

  /** processItem only adds objects to the cluster. */
  lemma StepGrows(env: Env, w: World)
    requires !WouldBlock(w)
    requires w.items != [] ==> Found(env, w.items[0])
    ensures Grows(w.cluster, Step(env, w).world.cluster)
  {
  }

  /** The worker only adds objects to the cluster; it never updates or deletes one. */
  lemma {:induction false} DrainGrows(env: Env, w: World)
    requires AllFound(env, w.items)
    ensures Grows(w.cluster, Drain(env, w).world.cluster)
    decreases |w.items|
  {
    if !WouldBlock(w) {
      var s := Step(env, w);
      if s.more {
        assert forall i :: 0 <= i < |s.world.items| ==> s.world.items[i] == w.items[i + 1];
        StepGrows(env, w);
        DrainGrows(env, s.world);
        GrowsTransitive(w.cluster, s.world.cluster, Drain(env, s.world).world.cluster);
      }
    }
  }

  /** Starting from a cluster of derived objects, the worker leaves only derived objects:
      every Service is the desired one of the Deployment at its key, every Ingress has its
      Service and routes to it. */
  lemma {:induction false} DrainKeepsDerived(env: Env, w: World)
    requires ListerIndexed(env.lister) && AllFound(env, w.items)
    requires Derived(w.cluster, env.lister)
    ensures Derived(Drain(env, w).world.cluster, env.lister)
    decreases |w.items|
  {
    if !WouldBlock(w) {
      var s := Step(env, w);
      if s.more {
        var key := env.split(w.items[0]).value;
        SyncKeepsDerived(w.cluster, env.lister, key, env.fault);
        assert forall i :: 0 <= i < |s.world.items| ==> s.world.items[i] == w.items[i + 1];
        DrainKeepsDerived(env, s.world);
      }
    }
  }

  /** Every item the worker syncs ends with its Service in the cluster, unless that create
      could not be admitted (a transport fault or an empty namespace or name). */
  lemma {:induction false} DrainCreatesServices(env: Env, w: World, i: nat)
    requires ListerIndexed(env.lister) && AllFound(env, w.items)
    requires i < |w.items| - |Drain(env, w).world.items|
    requires env.split(w.items[i]).Some?
    requires var k := env.split(w.items[i]).value; !env.fault(ServiceKind, k) && k.namespace != "" && k.name != ""
    ensures env.split(w.items[i]).value in Drain(env, w).world.cluster.services
    decreases |w.items|
  {
    var s := Step(env, w);
    assert forall j :: 0 <= j < |s.world.items| ==> s.world.items[j] == w.items[j + 1];
    if i == 0 {
      var key := env.split(w.items[0]).value;
      assert DeploymentKey(env.lister[key]) == key;
      SyncService(w.cluster, key.namespace, env.lister[key], env.fault);
      DrainGrows(env, s.world);
    } else {
      DrainCreatesServices(env, s.world, i - 1);
    }
  }
}
