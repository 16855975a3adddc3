# A Dafny model of the Scaleway cloud controller manager

This project models the parts of the Scaleway cloud controller manager that change the outside
world, and proves what they promise.

**The load balancer reconciler** (`LoadBalancer`, `Diff`, `Plan`, `Planning`, `PortState`,
`Reconcile`, `Convergence`, `Update`, `Order`, `Recovery`, `Mixed`). The class `CloudApi.Cloud` holds
one load balancer and offers the API calls the controller makes. Each call may fail without effect,
and the API refuses to delete a referenced backend or to create a frontend on a port in use. Its ghost
field `history` records the state after every mutating call, so that a statement about the history is a
statement about every prefix of the call sequence. `Update.UpdateLoadBalancer` is the reconciler; it carries
the convergence, safety and quiescence theorems. `Plan.Core` is the invariant that each call keeps.
`Order` and `Recovery` are about many runs, `Mixed` about services whose ports share numbers.

**Load balancers managed elsewhere** (`External`): what others own there is never touched, and
deleting the service undoes all updates.

**Private networks** (`PrivateNetworks`): the three-phase resolver and the reattachment loop, with
maps iterated in any order.

**The life of a load balancer** (`Lifecycle`): the state is the set of load balancers, the identifier
annotation on the API server, and the possibly older copy of it in hand. Patches are differences
between two copies.

**ACL compilation** (`Acl`, `ForeignRules`, `Sorting`), **tags** (`TagParser`, `TagReading`, `TagSync`), **per-port annotations**
(`PortAnnotation`) and **provider identifiers** (`ProviderId`).

Code that changes state step by step is modelled by methods with loops and, where there is an object
behind it, by a class; the functions the methods are proved against are those the theorems are about.
`:|` and `*` stand for everything the controller does not control: failures, listing orders and map
iteration orders.

## Findings

Where code, documentation and expectation differ, the model follows the code:

- `serviceToLB` skips ports that are not TCP, but the loop over all ports takes its turn for them too, and
  looks prepared objects up by number only. A port of another protocol that shares no TCP port, or no TCP
  node port, fails every run. One that shares both (DNS over TCP and UDP) makes the run create a second
  backend for the node port and fail on the second frontend as long as those do not exist yet
  (`Mixed.FirstRun`); afterwards it depends on the listing order whether the service recovers
  (`Mixed.TwoRuns`). `Update.UpdateLoadBalancer` states exactly when a run is safe, succeeds and ends in
  the wanted state; `Recovery.Settle` bounds the runs that clashes can cost.
- Ports of one protocol can share a node port as well, if none was allocated and it is 0 throughout: the
  run then succeeds with a backend for each of them (`Mixed.WebRun`).
- With no node address of the kind traffic goes to, the target list is the nil slice, which never equals the listed pool:
  every run sets the servers of every backend again.
- Two managed backends with the same forward port, with a kept frontend on the second, block every
  run (`Recovery.SecondBackendBlocks`). A run that its listings do not block can break off in such a state,
  if the API then lists the backends in another order (`Recovery.UnsteadyListing`); in a stable order it
  cannot (`Order.MidwayUnblocked`).
- If the patch that records a newly created load balancer fails while the API server still holds the
  identifier of one that is gone, the next ensure creates another of the same name
  (`Lifecycle.EnsureLoadBalancer`). This can also happen to a service that had no identifier at first: when
  its load balancer is found by name and does not fit, the identifier is written to the server, but the
  older copy in hand makes the deletion leave it there (`Lifecycle.Exposed`).
- An empty cluster prefix makes every load balancer "prefixed", so none is accepted as managed
  elsewhere (`Lifecycle.Adopt`).
- Whether a deletion gives up the addresses depends on the service at that time: a reserved address that
  the service no longer asks for is lost with the load balancer that still holds it
  (`Lifecycle.DeleteLoadBalancer`).
- `80:;tcp` gives port 80 the value `tcp`, not the empty one (`PortAnnotation.DocumentedWhen`).
- In a taint tag colons between name and value are dropped (`TagParser.ColonInTaint`).
- An own-prefix label called `taint` is read as a taint tag (`TagSync.LabelTagRoundTrip`).
- When several addresses are requested in one network, the error may come after other networks were
  already reattached; which ones depends on map iteration order unless they were all in place
  (`PrivateNetworks.OrderMatters`).
- Rules of a frontend that do not bear its ACL prefix are not compared. `ForeignRules.AdmitsIntended` says
  exactly when they matter: never on a restricted service whose rules all have different indices, but on
  one open to all (`ForeignRules.OpenServiceDenied`), and where indices are shared
  (`ForeignRules.RestrictedServiceOpened`).
- The implementation for a node is chosen by the start of its identifier, not by the product parsed from it
  (`ProviderId.DispatchAgreesOnText`): `scaleway://baremetal7` is an instance sent to bare metal.

## Model

| member | source | states |
|---|---|---|
| Update.UpdateLoadBalancer | scaleway/loadbalancers.go:597-756 | Main theorem of the reconciler, for any mix of protocols and shared node ports. Every state between two API calls is sound: no dangling backend reference, objects outside the prefix untouched, no port taken twice. It is safe as well (no node port gains a second managed backend, sound wiring stays sound) unless the run comes to a turn that creates a second backend for a node port; if it does, and no call fails, the last state is not safe. A run that hits no outage succeeds exactly when annotations are valid, every port shares both its numbers with TCP ports, no two turns would create the same frontend, and the listings do not block it (a foreign frontend on a port to be created, or a surplus backend still referenced by a frontend that stays). Success means the wanted state exactly when no backend was doubled and no turn of another protocol moved a frontend to another node port. A run that is turned down leaves the frontends of the turns it got through as wanted. In the wanted state every managed backend holds exactly the internal addresses of the nodes, or the external ones, as asked for, each as often as nodes have it. If a node has such an address, a run that succeeds issues no mutating call exactly when the wanted state was there already, if none has, it always issues one; a clean start is refused only for such a collision |
| Recovery.Retry | scaleway/loadbalancers.go:661-756 | Crash recovery: runs that break off at any call, with changing nodes, keep every state safe, and the first run without an outage succeeds, in the wanted state, if the wiring was that of the controller itself at the start or the API lists the surviving objects in a stable order that did not block the first run. Leftover duplicates are included, and mixed protocols as long as the objects of shared numbers exist; where a port of another protocol shares a TCP port but not its node port, success need not mean the wanted state |
| Order.MidwayUnblocked | scaleway/loadbalancers.go:661-756 | With a stable listing order, every state on the way of an unblocked run is itself unblocked: a run that breaks off does not block the next one |
| Recovery.UnsteadyListing | scaleway/loadbalancers.go:1554-1601 | Why the order must be stable: an unblocked run on duplicate backends, stopped after its first call, leaves a state which is blocked once the backends are listed the other way round |
| Recovery.ClashFreeWhen | scaleway/loadbalancers.go:673-737 | Ports get in the way of each other exactly when a number they share with a TCP port has no managed frontend or backend yet |
| Recovery.UnsharedClashFree | scaleway/loadbalancers.go:673-737 | A service whose ports share no number is free of all this, whatever the load balancer |
| Recovery.Settle | scaleway/loadbalancers.go:673-744 | From any start, clashing ports included, for a service without stand-alone ports of other protocols: unless a listing blocked one, every run that did not get through is down to an outage or to a clash of ports, each of which is settled for good by the run it stops |
| Recovery.ClashSettled | scaleway/loadbalancers.go:714-733 | A run turned down for a clash leaves the port with its frontend, so the clash is gone |
| Recovery.OneConfiguration | scaleway/loadbalancers.go:597-756 | The wanted state is unique up to identifiers and list order, the rules listed under the ACL prefix included, so a retry from any partial state ends in the same configuration |
| Recovery.ConvergedIsClean | scaleway/loadbalancers.go:661-756 | On a load balancer of its own a successful run leaves distinct managed ports, and managed frontends on managed backends |
| Recovery.StepSafeTransitive | scaleway/loadbalancers.go:597-756 | Safety composes over consecutive runs |
| Recovery.SecondBackendBlocks | scaleway/loadbalancers.go:1164-1166 | Frontends are compared by forward port, not by backend: a kept frontend wired to the second of two managed backends of its port blocks the run |
| Recovery.ExampleBlocked | scaleway/loadbalancers.go:1851-1859 | A concrete load balancer on which this happens |
| Update.Carry | scaleway/loadbalancers.go:642-756 | The run from the listings on: diff, delete frontends, apply ports, delete backends; exact conditions for success, for a safe end, for the wanted state and for idleness |
| Update.ConvergedPools | scaleway/loadbalancers.go:619-628 | The pool of a managed backend in the wanted state, over the addresses of the nodes: which ones, and how often each |
| Convergence.ServesMeans | scaleway/loadbalancers.go:1131-1259 | What the wanted state of a port comes down to, field by field: names, ports, settings, certificates, rules, pool and wiring |
| Update.RemoveFrontends | scaleway/loadbalancers.go:661-671 | Deletes exactly the surplus frontends, safely at every step |
| Update.ApplyPorts | scaleway/loadbalancers.go:673-744 | The loop over all service ports, whatever their protocols: everything the earlier turns touched is done, everything else as listed; it gets through exactly when each turn does, leaves doubled backends exactly when it comes to a turn that doubles one, and has the frontends done of the turns it got through |
| Convergence.AllPassing | scaleway/loadbalancers.go:673-744 | All turns get through exactly when every port shares its numbers with TCP ports, no port to be created on is in foreign hands, and none would be created on twice |
| LoadBalancer.TurnIs | scaleway/loadbalancers.go:673-733 | The loop looks prepared objects up by number, so the turn of a port of another protocol acts for the TCP port that carries the number, and finds nothing where there is none |
| Mixed.EmptyStart | scaleway/loadbalancers.go:683-726 | One port offered over TCP and UDP, on an empty load balancer: the second turn doubles the backend and collides with the frontend |
| Mixed.FirstRun | scaleway/loadbalancers.go:673-744 | So the first run fails without an outage, and leaves the wanted frontend and nothing but backends of its node port, at least one of them unused |
| Mixed.SecondRun | scaleway/loadbalancers.go:1611-1658 | In any such state the next run is blocked exactly if the first backend listed is not the one in use; otherwise it gets through and ends in the wanted state |
| Mixed.TwoRuns | scaleway/loadbalancers.go:597-756 | Both runs in sequence, from an empty load balancer |
| Mixed.WebRun | scaleway/loadbalancers.go:683-692 | TCP ports without allocated node ports: the run succeeds but doubles the backend of node port 0, which is not the wanted state |
| Update.RemoveBackends | scaleway/loadbalancers.go:746-756 | Deletes exactly the surplus backends; refused only if one is still referenced by a frontend the run left alone |
| Update.CleanUnblocked | scaleway/loadbalancers.go:746-756 | From the wiring the controller leaves behind no listing order blocks a run |
| Update.ConvergedIdle | scaleway/loadbalancers.go:642-756 | Quiescence: in the wanted state, with target addresses, every frontend and backend is classified as keep, nothing is removed and no port needs a call |
| Update.ConvergedQuiet | scaleway/loadbalancers.go:673-744 | Quiescence of one turn, of whatever protocol: backend, pool, frontend and rules already match |
| Convergence.FinishedConverged | scaleway/loadbalancers.go:661-756 | All turns done and surplus backends gone amounts to exactly one managed frontend per TCP port and one managed backend per node port, wired and configured as wanted, exactly when no backend was doubled and the last turn on each rewritten frontend was one for its node port |
| Convergence.FinishedUnblocked | scaleway/loadbalancers.go:661-756 | A run that got to its end was not blocked and had no collision: the converse direction of the success condition |
| Reconcile.ApplyPort | scaleway/loadbalancers.go:673-744 | One turn: sound in every state, done on success, other ports as before; without an outage it gets through exactly when a TCP port stands behind both numbers and a frontend to be created finds its port free; a turn that gets through makes no call exactly when, as things stand, its backend is listed as wanted, its frontend is kept and its rules are in place |
| Reconcile.EnsureBackend | scaleway/loadbalancers.go:674-699 | Update, create or keep the backend of a turn; a turn without a prepared backend fails; a backend superseded by a second creation becomes a stray |
| Reconcile.UpdateBackend | scaleway/loadbalancers.go:1694-1743 | Two calls, with a safe state in between |
| Reconcile.CreateBackend | scaleway/loadbalancers.go:1661-1692 | The created backend is the one wanted for the node port |
| Reconcile.SyncPool | scaleway/loadbalancers.go:701-712 | The pool is set exactly when it is not a permutation of the targets; the in-place sort of the shared target list does not affect later ports |
| Reconcile.EnsureFrontend | scaleway/loadbalancers.go:714-737 | Update, create or keep the frontend of a turn; refused only on a port in foreign hands or taken by an earlier turn |
| Reconcile.UpdateFrontend | scaleway/loadbalancers.go:1763-1778 | The frontend ends up on the managed backend with the wanted settings |
| Reconcile.CreateFrontend | scaleway/loadbalancers.go:1745-1760 | The created frontend is the one wanted, on the managed backend; refused only when the port is taken |
| Reconcile.ReconcileACLs | scaleway/acl.go:18-43 | The rules are set exactly when those listed under the prefix differ from the compiled ones |
| Plan.CoreStart | scaleway/loadbalancers.go:661-671 | Removing the surplus frontends establishes the invariant that ties owners, strays, wiring and foreign objects together |
| Plan.WriteBackend | scaleway/loadbalancers.go:674-699 | Creating or updating the managed backend of a port keeps the invariant |
| Plan.WriteFrontend | scaleway/loadbalancers.go:714-737 | Creating or updating the managed frontend of a port keeps the invariant |
| Plan.RemoveBackend | scaleway/loadbalancers.go:746-756 | Deleting an unreferenced surplus backend keeps the invariant |
| Plan.RemovingFrontends | scaleway/loadbalancers.go:661-671 | Deleting managed frontends is safe whatever their wiring |
| Plan.CoreClean | scaleway/loadbalancers.go:661-756 | Without strays the invariant preserves: managed ports distinct, managed frontends exactly on managed backends |
| Plan.CoreSound | scaleway/loadbalancers.go:661-756 | Under the invariant the state is sound, and safe exactly when there are no strays: no two managed objects share a port unless the same two did at the start |
| Plan.OccupiedMeansTaken | scaleway/loadbalancers.go:714-726 | A port to be created on can only be occupied by a foreign frontend, or by one the run has just created |
| PortState.BackendStep | scaleway/loadbalancers.go:674-699 | A backend write for one port leaves the state of all other ports as it was |
| PortState.FrontendStep | scaleway/loadbalancers.go:714-737 | A frontend write for one port leaves the state of all other ports as it was |
| Planning.ListingPlans | scaleway/loadbalancers.go:642-659 | Any complete listing, in any order, yields a plan that fits the service, turns of other protocols included |
| Planning.FrontendPort | scaleway/loadbalancers.go:1554-1601 | A frontend port is created on exactly when nothing managed holds it, kept exactly when the holder equals the target |
| Planning.BackendPort | scaleway/loadbalancers.go:1611-1658 | The same for backends and node ports |
| Diff.Compare | scaleway/loadbalancers.go:1554-1658 | The loop of both compare functions computes the declarative diff: first of each wanted port kept or updated, the rest of the prefix removed, wanted ports without holder created |
| Diff.ListedPartition | scaleway/loadbalancers.go:1554-1601 | Every listed object of the prefix is removed, kept or updated under its own identifier, exactly one of the three; objects outside the prefix none |
| Diff.WantedPartition | scaleway/loadbalancers.go:1611-1658 | Every wanted port is in exactly one of update, create and keep, with the right object |
| Diff.OwnedOrRemoved | scaleway/loadbalancers.go:1554-1601 | An object of the prefix is removed exactly when it does not own its port |
| Diff.SurplusIn | scaleway/loadbalancers.go:1554-1585 | Removed are exactly the listed objects of the prefix that are not the first of a wanted port |
| Diff.FirstIsFirst | scaleway/loadbalancers.go:1566-1571 | The first of a duplicate port wins |
| LoadBalancer.CompareFrontends | scaleway/loadbalancers.go:1554-1601 | compareFrontends is this diff under frontend equality |
| LoadBalancer.CompareBackends | scaleway/loadbalancers.go:1611-1658 | compareBackends is this diff under backend equality |
| LoadBalancer.ServiceToLB | scaleway/loadbalancers.go:1384-1409 | One target per TCP port and node port, all or nothing when an annotation is invalid |
| LoadBalancer.TargetsOf | scaleway/loadbalancers.go:1384-1409 | Ports distinct within TCP each keep their own target |
| LoadBalancer.FrontendTargetsDomain | scaleway/loadbalancers.go:1384-1409 | The frontend targets are exactly those of the TCP ports |
| LoadBalancer.NamesManaged | scaleway/loadbalancers.go:1131-1176 | Objects the controller creates carry the prefix it filters by |
| LoadBalancer.PrefixFilterMeans | scaleway/loadbalancers.go:653-656 | What a run may touch: everything on a load balancer of its own, only what is named after the service on one managed elsewhere |
| LoadBalancer.NamesSpelt | scaleway/loadbalancers.go:1162-1163 | Names consist of identity, protocol in lower case and number |
| LoadBalancer.NamesApart | scaleway/loadbalancers.go:1162-1163 | Ports have frontends, and backends, of the same name exactly when protocol and number agree |
| External.Turns | scaleway/loadbalancers.go:265-318 | On a load balancer managed elsewhere: over any sequence of updates and deletions, each broken off anywhere, foreign frontends and backends are unchanged; if there were no managed ones, a last deletion without outage restores the load balancer exactly |
| External.RemoveExternallyManagedResources | scaleway/loadbalancers.go:272-318 | Deletes all and only the objects of the service, frontends first, every state safe; without outage it succeeds exactly when no foreign frontend relies on a managed backend |
| External.StrippingUndoes | scaleway/loadbalancers.go:272-318 | Removing the objects of the prefix inverts anything that changed only those |
| External.NothingBorrowed | scaleway/loadbalancers.go:272-318 | Foreign frontends cannot have come to rely on managed backends through the controller |
| CloudApi.Cloud.DeleteBackend | scaleway/loadbalancers.go:746-756 | The API rule behind the order of calls: a referenced backend cannot be deleted |
| PrivateNetworks.AttachPrivateNetworks | scaleway/loadbalancers.go:797-932 | Main theorem of the networks. Without failing calls the run succeeds exactly when every requested address lives in one of the networks and no network is asked for two, whatever the iteration order; success means that exactly the networks the service names are attached, or the one of the cluster if it names none, or that one besides those there before if managed elsewhere; every requested address is the only one of its network, and networks without one that were attached keep what they have; no attach, detach or IPAM call is made exactly when that was so already; a load balancer managed elsewhere keeps its other networks |
| PrivateNetworks.AttachTwice | scaleway/loadbalancers.go:854-906 | No churn: a second run after a successful one makes no attach, detach or IPAM call and fails only if the listing does |
| PrivateNetworks.OrderIndependent | scaleway/loadbalancers.go:854-932 | Two successful runs from the same attachments agree on the networks and on every address asked for or attached before |
| PrivateNetworks.Conservation | scaleway/loadbalancers.go:854-896 | The requested addresses are the disjoint union of the desired lists; the request can be met exactly when each list has at most one entry |
| PrivateNetworks.Survey | scaleway/loadbalancers.go:822-852 | Phase 1 marks what is attached and detaches exactly the undesired networks |
| PrivateNetworks.MatchAttached | scaleway/loadbalancers.go:854-866 | Phase 2, networks in any order: open and claimed addresses partition the request while the shared set shrinks |
| PrivateNetworks.QueryIpam | scaleway/loadbalancers.go:868-893 | Phase 3, networks in any order: afterwards only addresses in none of the networks are open, although the filter may become empty on the way |
| PrivateNetworks.ClaimFrom | scaleway/loadbalancers.go:856-864 | One network claims exactly the open addresses of a list |
| PrivateNetworks.ClaimConserves | scaleway/loadbalancers.go:856-864 | Claiming an address keeps the partition |
| PrivateNetworks.Reattach | scaleway/loadbalancers.go:898-932 | Phase 4 over any visiting order: succeeds exactly when no network is asked for several addresses, leaves networks alone that are in place or ambiguous, and, when no call fails, ends in the attachments that order leads to |
| PrivateNetworks.OrderMatters | scaleway/loadbalancers.go:898-932 | What phase 4 leaves attached when no call fails is the same for every visiting order exactly when no network is asked for several addresses or every other network is already in place; both are known beforehand |
| PrivateNetworks.OrderMattersExample | scaleway/loadbalancers.go:898-902 | A request for which two orders end differently |
| PrivateNetworks.ReattachOne | scaleway/loadbalancers.go:898-929 | One network: no call exactly when it is in place, otherwise attached with its address |
| PrivateNetworks.InPlaceMeansAttached | scaleway/loadbalancers.go:904-907 | The comparison of sorted address lists skips exactly the networks that already answer the request |
| PrivateNetworks.AttachedIsSettled | scaleway/loadbalancers.go:797-932 | What a successful run leaves behind needs nothing more |
| PrivateNetworks.SettledMeans | scaleway/loadbalancers.go:809-932 | There is nothing to do exactly when the right networks are attached and every requested address is alone in its network |
| PrivateNetworks.AttachedMeans | scaleway/loadbalancers.go:809-932 | What success means for the attachments, network by network and address by address |
| Lifecycle.Run | scaleway/loadbalancers.go:139-270 | Main theorem of the lifecycle. Over any history of Ensure, Update, Delete and Get on freshly read services, and of renames, removals, imports and harmless edits of the annotation by others: if the API server takes every patch, whatever other calls fail, there is at most one load balancer of the service name; otherwise no more identifiers are lost than patches failed, and only a lost one breaks this; load balancers of other names are never deleted by the controller; calls for a service managed elsewhere change no load balancer |
| Lifecycle.Step | scaleway/loadbalancers.go:139-270 | One event: the invariant holds afterwards unless an identifier was lost, which happens exactly when an ensure creates a load balancer while the annotation dangles, or is missing although there is one of the name, and the patch fails |
| Lifecycle.EnsureRepeatedly | scaleway/loadbalancers.go:156-194 | No re-creation loop: however often an unchanged service is ensured, unless a patch fails at most one load balancer is created and one deleted, none once a fitting one is in place, and type and TLS level are changed no more often than the one found at the start needs |
| Lifecycle.EnsureLoadBalancer | scaleway/loadbalancers.go:139-213 | Success means the load balancer found by the next fetch has addresses exactly if it is to be public, the annotated ones with their multiplicities, or without annotation the single one the service names, and has the wanted type and TLS level; from a fitting and tuned load balancer none is created, deleted or changed; no reserved address is given up while the service asks for any; when exactly an identifier is lost; from an orphaned state (a lost identifier) an ensure without failures ends with two load balancers of the name |
| Lifecycle.Obtain | scaleway/loadbalancers.go:164-194 | Fetch, create or recreate: what it returns for a load balancer of our own always has exactly the addresses asked for, a new one also name, type and number of addresses; progress is never undone, other load balancers keep name and addresses |
| Lifecycle.Recreate | scaleway/loadbalancers.go:183-193 | Delete and create: whatever step fails, the next ensure has no more to do than this one |
| Lifecycle.CreateFirst | scaleway/loadbalancers.go:455-537 | Creating where there was none keeps the invariant, or loses an identifier: exactly when the patch fails over an older one |
| Lifecycle.CreateLoadBalancer | scaleway/loadbalancers.go:455-537 | A created load balancer bears the prefix and the identity of the service, has the type asked for or else the default one, the TLS level, and one or two flexible addresses if no static one is asked for; it fits the service it was created for, also when the patch fails afterwards; nothing is created for a service managed elsewhere |
| Lifecycle.CreatedFits | scaleway/loadbalancers.go:478-494 | With the chosen addresses the new load balancer triggers neither the private-mode nor the reserved-address mismatch |
| Lifecycle.ChooseAddresses | scaleway/loadbalancers.go:478-494 | No address for a private load balancer, the reserved ones if there are any, otherwise flexible ones: an IPv4, and an IPv6 exactly if the annotation names it |
| Lifecycle.GetStaticIPIDs | scaleway/loadbalancers.go:542-569 | The annotated addresses, or a reserved one equal to the requested address that no load balancer holds; an error says that there is none, or that one is held |
| Lifecycle.GetFlexibleIPTypes | scaleway/loadbalancers_annotations.go:342-364 | Accepts exactly lists of ipv4 and ipv6 with an ipv4 among them, or nothing; an IPv4 is always assigned |
| Lifecycle.StaticIPsAsMultiset | scaleway/loadbalancers.go:1914-1940 | The sort-based comparison of address identifiers is equality of multisets |
| Lifecycle.FitsMeans | scaleway/loadbalancers.go:181-182 | A load balancer passes both mismatch tests exactly if it has addresses as asked: none or some, the annotated ones, or the single one of the service |
| Lifecycle.StaticIPsMean | scaleway/loadbalancers.go:1899-1940 | Static addresses are asked for by the annotation or by the service itself; where none are, any will do |
| Lifecycle.FetchLoadBalancer | scaleway/loadbalancers.go:378-417 | By identifier or by name; exactly when what an identifier names is accepted: it exists and, if managed elsewhere, lacks the cluster prefix |
| Lifecycle.GetByName | scaleway/loadbalancers.go:419-453 | Finds the only load balancer of the name or reports that there is none; several are an error only if there are several |
| Lifecycle.Annotate | scaleway/loadbalancers.go:572-582 | The patch is the difference to the copy in hand |
| Lifecycle.Unannotate | scaleway/loadbalancers.go:585-594 | The patch is the difference to the copy in hand: nothing when that copy has no annotation, whatever the server holds |
| Lifecycle.DeleteLoadBalancer | scaleway/loadbalancers.go:320-345 | Forgets the identifier first; deletes only a load balancer of the service name; its addresses are given up exactly when the service asks for none |
| Lifecycle.EnsureLoadBalancerDeleted | scaleway/loadbalancers.go:244-270 | Success on a load balancer of our own leaves none of the name; only that one can be deleted; a service that asks for reserved addresses keeps them, one that does not gives up all that its load balancer held |
| Lifecycle.UpdateLoadBalancer | scaleway/loadbalancers.go:219-237 | Creates and deletes nothing, keeps the invariant; success means the wanted type and TLS level; a tuned load balancer is left alone |
| Lifecycle.GetLoadBalancer | scaleway/loadbalancers.go:102-124 | Reports exactly whether there is a load balancer; changes none and keeps the invariant although it may write the annotation |
| Lifecycle.Tune | scaleway/loadbalancers.go:597-795 | Nothing for a service being deleted; success leaves a load balancer of our own with the wanted type and TLS level, names and addresses unchanged; each change sets one of the two right, and one that has both is left alone |
| Lifecycle.TuneFound | scaleway/loadbalancers.go:758-795 | The same for the load balancer the next fetch finds: still the only one, as fitting as before, with one change less to make for each one made |
| Lifecycle.Adopt | scaleway/loadbalancers.go:407-410 | A load balancer managed elsewhere is accepted exactly if it exists and lacks the cluster prefix, so with an empty prefix none is; an accepted one survives any later history, also when the annotation is dropped |
| Lifecycle.CreatedOnly | scaleway/loadbalancers.go:511-535 | Where none bears the name, the created load balancer is the only one; with an older identifier left in place it is an orphan |
| Lifecycle.SecondBears | scaleway/loadbalancers.go:397-405 | Creating next to an orphan makes two load balancers of the name |
| Lifecycle.OrphanNotSingle | scaleway/loadbalancers.go:571-582 | An orphan breaks the invariant, so losing an identifier always does |
| Lifecycle.Forgotten | scaleway/loadbalancers.go:320-334 | Forgetting the identifier keeps the invariant; if it named a renamed load balancer, none bears the name |
| Lifecycle.RetunedSame | scaleway/loadbalancers.go:758-795 | Changes of type and TLS level affect neither the invariant nor what fits |
| Acl.SpecsMeaning | scaleway/acl.go:54-110 | Evaluated by lowest matching index, the compiled rules allow an address exactly when a node address or a valid range covers it, and deny all others, also when every range is invalid; a host length is only assumed to make no difference to what a range covers |
| Acl.SpecsShape | scaleway/acl.go:84-109 | Indices 0..k, k = ceil(n/60) allow rules of 1 to 60 entries, a final deny-all; together the sorted whitelist |
| Acl.SpecsEntries | scaleway/acl.go:59-82 | Each entry is listed as often as nodes have the address plus ranges come down to it |
| Acl.TrimHostSuffixMeans | scaleway/acl.go:66-70 | /32 is cut off an IPv4 range, /128 off an IPv6 one, and nothing else off any |
| Acl.ExtractIpsCount | scaleway/loadbalancers.go:351-376 | Addresses of a kind are extracted as often as nodes have them |
| Acl.AclPrefixApart | scaleway/acl.go:46-51 | The name filter of a frontend matches none of the rules compiled for another one |
| Acl.SpecsCanonical | scaleway/acl.go:76-82 | Only the multiset of whitelist entries matters |
| Acl.MakeACLSpecs | scaleway/acl.go:54-110 | The compiler emits nothing without ranges; otherwise rules numbered and named in sequence that allow 1 to 60 entries each and together list exactly the internal and external addresses of the nodes and the valid ranges, a host length of /32 or /128 cut off, before one that denies everyone |
| Acl.ChunkArray | scaleway/loadbalancers.go:1862-1876 | The reslicing loop computes the chunks |
| Acl.ChunksPartition | scaleway/loadbalancers.go:1862-1876 | Chunks concatenate to the input, are non-empty, full but for the last, and ceil(n/size) in number |
| Acl.AclsEquals | scaleway/acl.go:113-145 | The imperative comparison decides rule equality after sorting by index |
| Acl.RulesEqualIsSameByIndex | scaleway/acl.go:113-145 | On distinct non-negative int32 indices it holds exactly when the rules agree index by index, subnets as multisets |
| Acl.RulesEqualDecide | scaleway/acl.go:113-145 | Equal rule lists decide every address alike |
| ForeignRules.AdmitsIntended | scaleway/acl.go:18-43 | Main theorem of the rules. A frontend whose own rules compare equal treats an address as the service means to exactly if no rule of someone else both decides on it (it fires, and no other that does comes before it by index and position) and says otherwise |
| ForeignRules.ForeignRulesDecide | scaleway/acl.go:18-43 | The same for any rule list: it decides as the rules under a prefix alone exactly if no other rule decides otherwise |
| ForeignRules.OwnRulesDecide | scaleway/acl.go:18-43 | Where all its rules bear its ACL prefix, a frontend admits exactly whom the service means to |
| ForeignRules.BehindDenyEveryone | scaleway/acl.go:84-109 | Rules of others behind the deny-everyone rule change nothing |
| ForeignRules.DistinctIndicesDecide | scaleway/acl.go:84-109 | If no two rules share an index, rules of others change nothing on a restricted service, as the compiled rules take up all indices in front |
| ForeignRules.ForeignRuleOverrides | scaleway/acl.go:18-43 | A rule of someone else listed first, with an index no other undercuts, decides whatever it fires on, and the comparison does not see it |
| ForeignRules.OpenServiceDenied | scaleway/acl.go:54-76 | A service open to all has no rules of its own: a rule of someone else keeps an address out |
| ForeignRules.RestrictedServiceOpened | scaleway/acl.go:84-109 | A rule of someone else that shares index 0 and is listed first lets in an address that is not meant to |
| Acl.CompareIndexSound | scaleway/acl.go:118-123 | The wrapping int32 subtraction orders non-negative indices correctly |
| Acl.CompareIndexExactly | scaleway/acl.go:118-119 | On any two int32 indices it orders them exactly unless their difference overflows |
| Acl.SpecsListed | scaleway/acl.go:18-43 | After the rules are set, the next comparison succeeds |
| Acl.SpecsInIndexOrder | scaleway/acl.go:84-109 | The compiled rules are in index order with distinct indices |
| Sorting.SortCanonical | scaleway/loadbalancers.go:1781-1785 | Sorted lists are equal exactly when the lists are permutations of each other |
| Sorting.StringArrayEqualIsPermutation | scaleway/loadbalancers.go:1781-1785 | stringArrayEqual is permutation equality that tells nil from empty |
| Sorting.LeqAtDifference | scaleway/acl.go:80 | Entries are sorted lexicographically: the first difference decides |
| Basics.SplitJoins | scaleway/sync.go:355 | Split takes a text into parts without separator that give it back |
| Basics.TrimSpaceMeans | scaleway/loadbalancers_annotations.go:349 | White space goes at both ends, all of it and nothing else |
| Basics.ToLowerMeans | scaleway/loadbalancers_annotations.go:349 | Upper-case letters give way to their lower-case ones, everything else stays |
| Basics.ItoaInjective | scaleway/loadbalancers.go:1163 | Different numbers are rendered differently |
| TagParser.LabelRoundTrip | scaleway/sync.go:348-399 | A printed label tag is parsed back exactly unless it is an own-prefix label called noprefix |
| TagParser.LabelSeparated | scaleway/sync.go:348-399 | The same for any run of separators: lost exactly if an own-prefix label is called noprefix and the run starts with an equals sign |
| TagSync.LabelTagRoundTrip | scaleway/sync.go:205-232 | On a node, a printed label tag is read back as that label exactly unless it is an own-prefix label called noprefix or taint |
| TagParser.TaintRoundTrip | scaleway/sync.go:401-418 | The same for taint tags with their effect |
| TagParser.LabelSound | scaleway/sync.go:348-399 | A non-empty key is a qualified name of at most 63 characters under a valid prefix, with a valid value |
| TagReading.LabelExactly | scaleway/sync.go:348-399 | Exactly which tags are read as a label: the text, or what follows the marker, or the domain and a slash behind it, is a valid name, or a valid name and value with separators between and anything after further ones; more slashes are too many |
| TagReading.ValidPartsMean | scaleway/sync.go:60-64 | What is valid, by alphabets and lengths: names of at most 63 characters, values likewise or empty, domains of at most 253 |
| TagReading.TaintExactly | scaleway/sync.go:401-418 | Exactly which tags are read as a taint: they end in a colon and the effect, and the rest without its colons is read as the label |
| TagParser.TaintSound | scaleway/sync.go:401-418 | A non-empty taint key comes with one of the three effects and a valid label |
| TagParser.LabelHasNormalForm | scaleway/sync.go:348-399 | Whatever a tag expresses, a noprefix tag expresses too |
| TagParser.NameValueSeparated | scaleway/sync.go:377-396 | Any run of separators splits name and value; the rest is ignored |
| TagParser.ColonInTaint | scaleway/sync.go:401-418 | For any run of separators: a taint tag gives back name, value and effect exactly if the value is empty or the run holds an equals sign or a blank (own-prefix noprefix aside), as colons are dropped |
| TagParser.GluedTaint | scaleway/sync.go:401-418 | What a lone colon does: name and value become one name |
| TagSync.SyncNodeTags | scaleway/sync.go:205-263 | The loops over tags, labels and taints, maps in any order. A label is there afterwards with a value exactly if the last tag that asks for it gives it that value, or none asks and it was there, outside the own prefix and not the exclude-balancer label with the managed value, which goes; the tag of its name sets it |
| TagSync.SyncServiceLabels | scaleway/sync.go:318-338 | The label part for services: the same, without an exception for the exclude-balancer label |
| TagSync.History | scaleway/sync.go:205-263 | Over any history of tag lists: own-prefix labels and taints are those of the last list alone; no other label is lost but the exclude-balancer label with the managed value; other labels and taints that no list asks for are as they were, values included; the managed exclude-balancer label is there exactly if the last list asks for it, and gone for good if none does; taints are unique |
| TagSync.LabelsSynced | scaleway/sync.go:228-252 | Own-prefix labels are exactly those of the tags; others stay, save the exclude-balancer label with the managed value |
| TagSync.TaintsSynced | scaleway/sync.go:254-263 | Taints are unique by key and effect; own-prefix taints are exactly those of the tags; others stay unless a tag asks for the same key and effect |
| TagSync.TagTaintsMean | scaleway/sync.go:205-222 | A list of tags asks for a taint exactly if the last tag for its key and effect does |
| TagSync.TagLabelsMean | scaleway/sync.go:222-235 | A list of tags asks for a label exactly if one of them does, with the value of the last one that does |
| TagSync.UniqueKeyInjective | scaleway/sync.go:217-221 | The joined key identifies key and effect |
| TagSync.SecondSync | scaleway/sync.go:205-263 | A second sync changes no label, and only the order of taints |
| TagSync.RetractLabels | scaleway/sync.go:233-252 | Deletion while looping over the original labels, in any order |
| PortAnnotation.GetValueForPort | scaleway/loadbalancers_annotations.go:837-869 | For the port of the last service port with the node port: fails exactly on a malformed entry; otherwise the last entry for the port, else or if empty the first non-empty default after it |
| PortAnnotation.FindPort | scaleway/loadbalancers_annotations.go:838-843 | The port found is that of the last service port with the node port, or -1, and nothing else |
| PortAnnotation.FoldIsWanted | scaleway/loadbalancers_annotations.go:847-866 | The loop agrees with the declarative rule for every interleaving of defaults and entries |
| PortAnnotation.DocumentedWhen | scaleway/loadbalancers_annotations.go:847-866 | The plain rule (last entry for the port, else first default) holds exactly unless that entry is empty and a non-empty default follows it |
| PortAnnotation.EmptyValueGivesWay | scaleway/loadbalancers_annotations.go:850-856 | The annotation on which it does not: 80:;tcp |
| PortAnnotation.IsPortInRange | scaleway/loadbalancers.go:1064-1090 | Covered exactly by true, a star, or a list that names the port before anything that is not a port |
| PortAnnotation.WithoutSpacesMeans | scaleway/loadbalancers.go:1075 | Spaces in a list of ports do not count |
| ProviderId.ServerInfoFromProviderID | scaleway/servers.go:54-75 | The loop over the capture groups yields what the identifier says |
| ProviderId.RoundTrip | scaleway/servers.go:45-80 | A built identifier is parsed back exactly when there is a product, product and zone hold no slash and nothing holds a line break |
| ProviderId.ParsedParts | scaleway/servers.go:54-75 | There is always a product; product and zone hold no slash; nothing holds a line break |
| ProviderId.TwoSlashes | scaleway/servers.go:49-75 | With two slashes behind the first scheme, on its line, the parts are product (instance if empty), zone and identifier |
| ProviderId.FewSlashes | scaleway/servers.go:49-75 | With fewer, the rest of the line is the identifier of an instance |
| ProviderId.LineBreakEnds | scaleway/servers.go:49-75 | What follows a line break does not count |
| ProviderId.NoScheme | scaleway/servers.go:54-60 | An identifier is rejected exactly if the scheme occurs nowhere |
| ProviderId.Rebuilt | scaleway/servers.go:45-80 | Rebuilding from what any identifier says loses nothing |
| ProviderId.DispatchAgrees | scaleway/servers.go:84-89 | Dispatch by text agrees with the parsed product exactly unless the product is longer than, and starts with, "baremetal" |
| ProviderId.DispatchAgreesOnText | scaleway/servers.go:54-89 | The same for any text: they agree exactly unless it starts with the scheme and "baremetal" without going on with two slashes on that line, or has the scheme only further on with the bare-metal product behind it |
| ProviderId.OldIdentifierMisled | scaleway/servers.go:84-89 | scaleway://baremetal7 is dispatched to bare metal but parsed as an instance |

## Left out

- AttachPrivateNetworks: a listing is complete, while the source asks for one page of attachments only (scaleway/loadbalancers.go:823-826); and each address lives in one network, and attachments hold addresses of their own network.
- SyncPool: the target list shared by all desired backends is a value handed from port to port; the aliasing between the pools of the desired objects is not modelled.
- Compare: the identifier written into the wanted object is returned in a new object instead of in place; a wanted object without backend does not occur.
- UpdateLoadBalancer: node filtering and the three-minute wait for node initialisation happen before; private networks, type and TLS level are the subjects of PrivateNetworks and Lifecycle; ports are distinct within each protocol, as the API server sees to, and TCP ports that share a node port ask for the same backend, as all settings but the health check taken from the service (scaleway/loadbalancers_annotations.go:1128-1162) are looked up by node port.
- Retry: starts on which ports of several protocols clash are the subject of Settle and of Mixed.
- EnsureLoadBalancer: whether a load balancer is ready for changes is an arbitrary verdict; the reported status, host names and IP modes are left out; frontends and backends are abstracted to success or failure there and modelled in Update and External.
- Run: all load balancers are in one zone, as the zone annotation is not changed; service reads are fresh; nobody else takes the service's name.
- RemoveExternallyManagedResources: the name filter of the API is taken to be a prefix match.
- Decides: the load balancer is taken to rank rules by index, and rules of one index by their place in the list.
- SpecsMeaning: address matching is a parameter; the list is short enough for rule indices to fit in an int32.
- RuleEquals: HTTP filters of rules, which the controller never sets, are not modelled.
- CreateLoadBalancer: description and tags of the load balancer, and the zone, are not modelled.
- GetFlexibleIPTypes: letter case and white space are those of ASCII.
- GetValueForPort: strconv.ParseInt is a parameter.
- LabelRoundTrip: characters stand for bytes, which agree on all names and values that are accepted.
- SyncNodeTags: a taint has a key, a value and an effect; the time at which it was added is not modelled.
- The twenty or so scalar settings of frontends and backends are one opaque value with equality, together with the annotations they come from: one-branch lookups.
- Failures of the API are all alike; HTTP codes, time-outs and pagination are left out. The API stores what it is sent and books no defaults of its own.
- Other writers may change the load balancers between calls of the controller, not during one.
- JSON and merge-patch internals: a patch applies the difference between two copies.
- Informers, queues and leader election; instances, bare-metal servers and zones: library behaviour or single search loops.
