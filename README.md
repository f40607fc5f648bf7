# ekspose controller — a Dafny model

The ekspose controller watches Deployments. For each one it creates a Service
that selects the Deployment's pods on an `http` port 80, and an Ingress that
routes the path named after the Service to that port, with an nginx
rewrite-target annotation. Informer events land on a work queue. A worker
drains the queue: it takes an item, splits the item's key into namespace and
name, and syncs that Deployment.

The model has six modules:

- `Objects`: the object shapes, reduced to the fields the controller touches.
- `Desired`: the Service and Ingress literals, and `deplLabels`.
- `ApiServer`: an abstract cluster. It holds two maps from (namespace, name) to
  Service and to Ingress, and it decides how a create is answered.
- `Reconcile`: `syncDeployment` and `createIngress` as functions from the old
  cluster to the new cluster and the returned error.
- `WorkLoop`: `processItem` (`Step`) and `worker` (`Drain`) as functions of the
  controller's state, with lemmas about whole worker runs.
- `Control`: the `Controller` class. Its fields are the queue, its shutdown
  flag, the log of `Forget` calls and the cluster maps. Its methods change
  them in place. `ProcessItem`, `Worker`, `SyncDeployment` and
  `CreateIngress` are proved equal to their functions in `WorkLoop` and
  `Reconcile`; `PostService` and `PostIngress` to those of `ApiServer`.
  `HandleAdd` and `HandleDel` have no function of their own: their contracts
  state the appended queue directly.

Abstractions:

- `SplitMetaNamespaceKey` applied to a queued Deployment's key is one
  abstract total function, `Env.split`, from the item to an optional key;
  `None` is a split error. The queue holds only Deployments, for which the
  library key function does not fail.
- The informer's lister is a constant map, `Env.lister`. Each Deployment sits
  under its own key (`ListerIndexed`).
- Network failures are an abstract oracle, `Env.fault`, indexed by the
  object kind and the key.
- The cluster answers a create in this order. A transport fault gives
  `Unavailable`. An empty namespace or name gives `Invalid`. A key it already
  stores gives `AlreadyExists`. Otherwise it stores the object.
- A refused create hands back a zero-valued Service together with the error.
  client-go's typed clients do this (client-go is not part of this model).

What the model shows about the code (proved, not executed):

- When the Service create is refused for any reason, the sync still tries
  the Ingress. It builds it from the zero-valued Service, so the Ingress has
  no name, the cluster refuses it, and that refusal is what the sync returns
  (`SyncServiceRefused`).
- So once a Deployment's Service exists, no later sync creates its Ingress
  (`SyncAfterServiceExists`).
- `processItem` drops every sync error. Every dequeued item is forgotten and
  none is put back (`DrainConsumesPrefix`).
- The worker stops at the first item whose key does not split
  (`DrainStopsAtFirstUnsplittable`).

Where the usual design of a level-triggered controller and this code differ, the model follows the code:

- *Already-exists.* That design treats it as success. In the code an
  existing Service leads to the Ingress create being refused, as above.
- *Deployment not found.* That design makes this a successful no-op. The
  code dereferences a nil Deployment. The model therefore puts the lookup in
  a precondition (`Found`, `SyncDeployment`'s requires). A delete event
  reaches exactly this case, because the informer has already dropped the
  Deployment from its cache when `handleDel` queues it.
- *Failures.* That design retries a failure with backoff. The code
  ignores the sync error and always calls `Forget`, so nothing is retried.
- *Malformed key.* That design drops the item and goes on. The code
  returns `false`, which ends `worker`; `run` restarts `worker` through
  `wait.Until` a second later. The item is already forgotten, so in effect
  the program drops it and goes on after that pause. The model covers one
  `worker` call; the restart is left out with the rest of `run`.
- *Update events.* That design handles them like adds. The code
  registers only add and delete handlers.
- *Done.* The code never calls the queue's `Done`.

## Model

| member | source | states |
|---|---|---|
| `Desired.DesiredService` | controller.go:111-125 | the Service is named after the Deployment, lives in the `ns` argument's namespace, selects exactly the pod-template labels, and has exactly one port, `http` on 80 |
| `Desired.DeplLabels` | controller.go:177-179 | deplLabels hands back the pod template's label map unchanged |
| `Desired.ServiceSelectsTemplateLabels` | controller.go:177-179 | the selector is the template's label map unchanged (`deplLabels`), and an empty map stays empty |
| `Desired.DesiredIngress` | controller.go:137-170 | the Ingress has the Service's name and namespace and exactly one annotation, rewrite-target = "/"; it has one rule with one path; the path equals the Service name, its type is `Prefix`, and its backend is the Service's name on port 80 |
| `Desired.DesiredIngressRoutesToDesiredService` | controller.go:111-170 | the derived Ingress sits at the Deployment's key and routes every path to the derived Service on a port that Service exposes |
| `Desired.DesiredStateIsLevelTriggered` | controller.go:111-125 | the desired objects depend only on the namespace, the Deployment name and the template labels |
| `Desired.ZeroServiceIngressIsNameless` | controller.go:139-141 | an Ingress built from the zero-valued Service has an empty name and namespace |
| `ApiServer.Admit` | controller.go:127 | a create is stored exactly when there is no transport fault, the namespace and name are non-empty, and the key is not stored yet; `AlreadyExists` only for a stored key |
| `ApiServer.PostService` | controller.go:127 | the create's answer is exactly `Admit`'s for (ns, name), so an admitted create succeeds; a stored Service lands under (ns, name) at a key that was free, and the call returns it; a refused create changes nothing and returns the zero-valued Service |
| `ApiServer.PostIngress` | controller.go:172 | the create's answer is exactly `Admit`'s for (ns, name), so an admitted create succeeds; a stored Ingress lands under (ns, name) at a key that was free; a refused create changes nothing |
| `Reconcile.CreateIngress` | controller.go:136-175 | createIngress succeeds exactly when the Ingress create for the Service's key is admitted, and then stores the desired Ingress there; otherwise the cluster is unchanged |
| `Reconcile.Sync` | controller.go:100-134 | a sync that returns no error leaves exactly the desired Service and the desired Ingress under the Deployment's key; the `Sync*` lemmas below state the rest |
| `Reconcile.SyncGrows` | controller.go:100-134 | a sync never updates or deletes an object, and adds objects only under the Deployment's own key |
| `Reconcile.SyncConverges` | controller.go:100-134 | with both creates getting through and both keys free, the sync returns no error and stores exactly the desired Service and Ingress |
| `Reconcile.WebScenario` | controller.go:100-174 | default/web with labels {app: web} gives Service default/web with selector {app: web} on `http` port 80, and an Ingress default/web whose backend is web:80 |
| `Reconcile.SyncServiceRefused` | controller.go:127-133 | a refused Service create is not returned; the Ingress is still attempted, from the zero-valued Service; the Ingress refusal (Invalid, or Unavailable on a fault) is returned; nothing changes |
| `Reconcile.SyncServiceCreated` | controller.go:127-174 | after a successful Service create, the sync returns exactly the Ingress create's answer for the same key, and when that answer is a refusal the Ingresses are unchanged |
| `Reconcile.SyncAfterServiceExists` | controller.go:127-133 | when the Service already exists, the sync changes nothing and returns an error: the Ingress is never created later |
| `Reconcile.SyncIdempotent` | controller.go:100-134 | syncing twice leaves the cluster as syncing once does |
| `Reconcile.SyncRepeatAfterService` | controller.go:100-134 | once a sync has left the Service in place, a later sync leaves the cluster as it is, whatever either sync's network did |
| `Reconcile.SyncService` | controller.go:111-131 | the Deployment's Service exists after the sync iff it existed before or its create was admitted |
| `Reconcile.SyncKeepsDerived` | controller.go:100-176 | if every stored Service is the desired Service of the Deployment at its key, and every Ingress has its Service and is that Service's desired Ingress, a sync keeps it so |
| `WorkLoop.Step` | controller.go:71-98 | on shutdown (empty queue) processItem returns false and forgets nothing; otherwise it takes the head item and forgets it; it returns true iff the key splits, whatever the sync error; when the key splits, the new cluster is the one `Reconcile.Sync` leaves for the Deployment the lister holds at that key; a false return leaves the cluster alone |
| `WorkLoop.Drain` | controller.go:63-69 | a worker run never lengthens the queue and leaves its shutdown flag alone; it waits only on an empty queue that is not shutting down; the `Drain*` lemmas below state the rest |
| `WorkLoop.StepGrows` | controller.go:94 | processItem never updates or deletes a cluster object |
| `WorkLoop.DrainConsumesPrefix` | controller.go:63-79 | a worker run takes a prefix of the queue and never puts an item back; every item taken is forgotten exactly once, in queue order |
| `WorkLoop.DrainStopsAtFirstUnsplittable` | controller.go:63-92 | the worker stops right after the first item whose key does not split; if every key splits, it drains the queue and then stops on shutdown or waits for more |
| `WorkLoop.DrainOnShutdown` | controller.go:73-77 | on a drained, shut-down queue the worker returns at once and changes nothing |
| `WorkLoop.DrainGrows` | controller.go:63-69 | a worker run never updates or deletes a cluster object |
| `WorkLoop.DrainKeepsDerived` | controller.go:63-134 | a worker run keeps a cluster of derived objects derived |
| `WorkLoop.DrainCreatesServices` | controller.go:63-131 | every item the worker syncs ends with its Service in the cluster, unless that create could not be admitted |
| `Control.Controller.constructor` | controller.go:30-47 | newController starts with an empty queue that is not shutting down and nothing forgotten, over the given lister and cluster |
| `Control.Controller.HandleAdd` | controller.go:181-187 | the added object is appended to the queue unchanged |
| `Control.Controller.HandleDel` | controller.go:189-194 | the deleted object is appended to the queue unchanged, exactly as an add |
| `Control.Controller.PostService` | controller.go:127 | the Service create changes the cluster and returns what `ApiServer.PostService` says |
| `Control.Controller.PostIngress` | controller.go:172 | the Ingress create changes the cluster and returns what `ApiServer.PostIngress` says |
| `Control.Controller.CreateIngress` | controller.go:136-175 | createIngress changes only the Ingresses, as `Reconcile.CreateIngress` says |
| `Control.Controller.SyncDeployment` | controller.go:100-134 | for a Deployment the lister holds (required), the cluster and the returned error are those of `Reconcile.Sync` |
| `Control.Controller.ProcessItem` | controller.go:71-98 | the new state and result are those of `WorkLoop.Step`: shutdown gives false and no change; otherwise the head is dequeued and forgotten, and the result is true iff its key splits |
| `Control.Controller.Worker` | controller.go:63-69 | the loop's final state and exit are those of `WorkLoop.Drain` on the starting state |

## Left out

- main.go: flag parsing, client construction, informer-factory start-up and printing. This is process set-up.
- `run`: the cache-sync wait, the `wait.Until` goroutine that restarts `worker` every second, and blocking on the stop channel. This is concurrency and timing.
- The work queue's internals: deduplication, the processing set, `Done`, rate limiting and backoff, and dropping adds after shutdown. This is library code. The queue is a plain sequence that `HandleAdd`/`HandleDel` append to. Nothing in the controller calls `ShutDown`, so the model has no method that sets the shutdown flag.
- Blocking `Get`: `ProcessItem` requires that the queue is non-empty or shutting down. `Worker` returns `Waiting` at the point where `Get` would block.
- `SplitMetaNamespaceKey`: one abstract function, `Env.split`, whose `None` is a split error.
- Queue items that are not Deployments, such as the `DeletedFinalStateUnknown` tombstones `handleDel` can receive: the queue holds Deployments only. For such an item `MetaNamespaceKeyFunc` fails; the code only prints that error and splits the empty key, which gives an empty namespace and name, so the lister misses and `syncDeployment` crashes on the nil Deployment. That path ends in the crash, not in a `false` return, and is not modelled.
- A lister miss: it crashes the source with a nil dereference, so it is a precondition and not an outcome.
- `WorkLoop.Drain` and `Control.Controller.Worker` require a lister hit for every queued item whose key splits, including items behind the first key that does not split. One `worker` call never reaches those items, so for such a queue the source does not crash where the precondition rules the run out. A Deployment's own key always splits, so only an `Env.split` that fails is affected.
- Informer updates to the lister while the worker runs: the lister is constant.
- Print output, `context.Background()`, and the objects' fields the code does not set.
- Transport faults: a transport failure is a fixed function of kind and key. Two creates of the same key in one run therefore fail or pass alike, and `SyncIdempotent` relies on this; `SyncRepeatAfterService` takes a separate fault function for each sync. A transport failure also always means nothing was stored. A failure after the server stored the object, such as a create whose response timed out, is not modelled; in the source the Service would then exist and the Ingress would still be built from the zero-valued Service, as on `AlreadyExists`.
- Server-side validation: checks beyond a non-empty namespace and name, and the check that the body's namespace matches the request's, are not modelled in `ApiServer.Admit`. One of them matters: a networking/v1 API server refuses an HTTP path that does not start with "/", and the Ingress path here is the bare Service name (controller.go:153). A real cluster therefore never admits the controller's Ingress. `SyncConverges`, `WebScenario` and the other lemmas about a stored Ingress hold for the abstract admission of `ApiServer.Admit` only.
- Defaulting: the cluster's own defaulting of stored objects is not modelled. A stored object equals the submitted one in every modelled field.
