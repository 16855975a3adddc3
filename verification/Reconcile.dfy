/** updateLoadBalancer: bringing the frontends, backends and rules of a load balancer to what the
    service wants, one API call at a time. */
module Reconcile {
  import opened Basics
  import opened Sorting
  import opened Acl
  import opened Diff
  import opened LoadBalancer
  import opened Plan
  import opened PortState
  import opened CloudApi

  /** Unavailable and Refused report a failed API call; BadService an invalid annotation or a turn for
      which no backend or frontend was prepared. */
  datatype Error = Unavailable | Refused | BadService

  function ErrorOf(e: ApiError): Error {
    if e == Outage then Unavailable else Refused
  }

  /** The cloud's counters when the run began. */
  datatype Start = Start(history: seq<LB>, calls: nat, outages: nat)

  /** The ports the service is served on. */
  ghost function PortsOf(svc: Service): set<int> {
    set i | 0 <= i < |svc.ports| && svc.ports[i].protocol == TCP :: svc.ports[i].port
  }

  ghost predicate StepSafe(s0: LB, s: LB, prefix: string, ports: set<int>) {
    Safe(s0, s, prefix) && (Clean(s0, prefix, ports) ==> Clean(s, prefix, ports))
  }

  // ---- The states on the way ----

  function Trimmed(s0: LB, gone: set<Id>): LB {
    s0.(frontends := s0.frontends - gone)
  }

  /** A state the run can be in: some surplus frontends are gone and nothing else has happened, or the
      invariant holds.  Strays only come about in a run that doubles a backend. */
  ghost predicate Midway(pl: Plan, svc: Service, s: LB) {
    || (exists gone: set<Id> :: gone <= pl.remF && s == Trimmed(pl.s0, gone))
    || (exists o, gone :: Core(pl, s, o, gone) && (o.strays != {} ==> Doubles(pl, svc)))
  }

  /** Every state on the way is sound; unless the run doubles a backend, it is safe. */
  lemma MidwaySafe(pl: Plan, svc: Service, s: LB, ports: set<int>)
    requires PlanOk(pl) && Midway(pl, svc, s)
    ensures Sound(pl.s0, s, pl.prefix)
    ensures !Doubles(pl, svc) ==> StepSafe(pl.s0, s, pl.prefix, ports)
  {
    hide Sound, Clean, Core, PlanOk, NoNewDuplicateBackends, Doubles;
    if gone: set<Id> :| gone <= pl.remF && s == Trimmed(pl.s0, gone) {
      RemovingFrontends(pl, gone, ports);
    } else {
      var o, gone :| Core(pl, s, o, gone) && (o.strays != {} ==> Doubles(pl, svc));
      CoreSound(pl, s, o, gone);
      if o.strays == {} && Clean(pl.s0, pl.prefix, ports) {
        CoreClean(pl, s, o, gone, ports);
      }
    }
  }

  lemma CoreMidway(pl: Plan, svc: Service, s: LB, o: Roles, gone: set<Id>)
    requires Core(pl, s, o, gone) && (o.strays != {} ==> Doubles(pl, svc))
    ensures Midway(pl, svc, s)
  {
  }

  /** The run has been through such states only, and if it issued no mutating call, it changed nothing. */
  ghost predicate Tracked(c: Cloud, pl: Plan, svc: Service, st: Start)
    reads c
  {
    && c.Valid()
    && st.history <= c.history && st.calls <= c.calls && st.outages <= c.outages
    && (forall i | |st.history| <= i < |c.history| :: Midway(pl, svc, c.history[i]))
    && (c.calls == st.calls ==> c.lb == pl.s0 && c.history == st.history)
    && (c.history == st.history ==> c.lb == pl.s0)
    && (forall id | id in pl.s0.frontends :: id < c.nextId)
    && (forall id | id in pl.s0.backends :: id < c.nextId)
  }

  twostate predicate Grew(c: Cloud)
    reads c
  {
    old(c.calls) <= c.calls && old(c.outages) <= c.outages
  }

  /** In the middle of turn k, reached through turns that all got through. */
  ghost predicate At(c: Cloud, pl: Plan, inp: Inputs, st: Start, o: Roles, k: nat)
    requires k < |inp.svc.ports|
    reads c
  {
    && Tracked(c, pl, inp.svc, st) && Core(pl, c.lb, o, {}) && OthersAt(pl, inp, c.lb, o, k)
    && (forall j | 0 <= j < k :: Passing(pl, inp.svc, j))
    && (o.strays != {} ==> Doubles(pl, inp.svc))
  }

  lemma PlanNames(pl: Plan, svc: Service, p: ServicePort)
    requires PlanFits(pl, svc)
    ensures Ours(FrontendName(svc, p), pl) && Ours(BackendName(svc, p), pl)
  {
    NamesManaged(svc, p);
  }

  lemma PlanSound(pl: Plan, svc: Service)
    requires PlanFits(pl, svc)
    ensures PlanOk(pl)
  {
  }

  /** The objects named by the roles exist, sit on their ports and are not to be deleted. */
  lemma CoreHolders(pl: Plan, s: LB, o: Roles)
    requires PlanOk(pl) && Core(pl, s, o, {})
    ensures forall p | p in o.f ::
              o.f[p] in s.frontends && s.frontends[o.f[p]].inboundPort == p && Ours(s.frontends[o.f[p]].name, pl)
    ensures forall q | q in o.b :: o.b[q] in s.backends && s.backends[o.b[q]].forwardPort == q && WiredTo(pl, s, o.b[q])
  {
    hide PlansFrontends, ForeignUntouched;
  }

  /** Objects that held their port in the listing still do. */
  lemma CoreOwners(pl: Plan, s: LB, o: Roles)
    requires PlanOk(pl) && Core(pl, s, o, {})
    ensures forall p | p in pl.ownF ::
              p in o.f && o.f[p] == pl.ownF[p] && pl.ownF[p] in s.frontends && pl.ownF[p] in pl.s0.frontends
    ensures forall q | q in pl.ownB ::
              q in o.b && o.b[q] == pl.ownB[q] && pl.ownB[q] in s.backends && pl.ownB[q] in pl.s0.backends
    ensures forall q | q in o.b :: q in pl.ownB || q in pl.newB
    ensures forall q | q in pl.ownB :: q !in pl.newB
    ensures forall q | q in pl.ownF :: q !in pl.newF
  {
    hide ForeignUntouched;
    assert forall p | p in pl.ownF ::
             pl.s0.frontends[pl.ownF[p]].inboundPort == p && Ours(pl.s0.frontends[pl.ownF[p]].name, pl);
    assert forall p | p in pl.ownB ::
             pl.s0.backends[pl.ownB[p]].forwardPort == p && Ours(pl.s0.backends[pl.ownB[p]].name, pl);
  }

  lemma CoreForeign(pl: Plan, s: LB, o: Roles, gone: set<Id>)
    requires Core(pl, s, o, gone)
    ensures ForeignUntouched(pl.s0, s, pl.prefix) && ValidLB(s)
  {
  }

  // ---- What the diff prepared ----

  /** The prepared backend carries what the turn wants.  Its pool is compared and sent separately. */
  predicate BackendTargetFits(svc: Service, p: ServicePort, t: ListedBackend) {
    && p.backend.Some?
    && t.name == BackendName(svc, p) && t.port == p.nodePort
    && t.body.settings == p.backend.value.settings && t.body.healthCheck == p.backend.value.healthCheck
  }

  /** The forward port in a prepared frontend is not sent to the API, only the backend's identifier is. */
  predicate FrontendTargetFits(svc: Service, p: ServicePort, t: ListedFrontend) {
    && p.frontend.Some?
    && t.name == FrontendName(svc, p) && t.port == p.port
    && t.body.settings == p.frontend.value.settings && t.body.certs == Items(p.frontend.value.certs)
  }

  ghost predicate BackendOpsFit(pl: Plan, inp: Inputs, ops: Ops<BackendBody>) {
    && ops.create.Keys == pl.newB && ops.keep.Keys == pl.keptB && ops.update.Keys == pl.ownB.Keys - pl.keptB
    && (forall k | 0 <= k < |inp.svc.ports| ::
          var p := Turn(inp.svc, k);
          && (p.nodePort in ops.create ==> BackendTargetFits(inp.svc, p, ops.create[p.nodePort]))
          && (p.nodePort in ops.update ==>
                BackendTargetFits(inp.svc, p, ops.update[p.nodePort])
                && ops.update[p.nodePort].id == pl.ownB[p.nodePort]))
    && (forall q | q in ops.keep ::
          q in pl.ownB && pl.ownB[q] in pl.s0.backends && ops.keep[q] == ViewBackend(pl.s0.backends[pl.ownB[q]])
          && ops.keep[q].id == pl.ownB[q])
  }

  ghost predicate FrontendOpsFit(pl: Plan, inp: Inputs, ops: Ops<FrontendBody>) {
    && ops.create.Keys == pl.newF && ops.keep.Keys == pl.keptF && ops.update.Keys == pl.ownF.Keys - pl.keptF
    && (forall k | 0 <= k < |inp.svc.ports| ::
          var p := Turn(inp.svc, k);
          && (p.port in ops.create ==> FrontendTargetFits(inp.svc, p, ops.create[p.port]))
          && (p.port in ops.update ==>
                FrontendTargetFits(inp.svc, p, ops.update[p.port]) && ops.update[p.port].id == pl.ownF[p.port]))
    && (forall q | q in ops.keep :: q in pl.ownF && ops.keep[q].id == pl.ownF[q])
  }

  // ---- The backend of a turn ----

  /** The wanted backend of turn k, under the given identifier, is in place; if the listed pool equals the
      targets, then so does the pool it has now. */
  ghost predicate BackendSet(inp: Inputs, s: LB, b: map<int, Id>, p: ServicePort, id: Id, pool: Slice) {
    && p.nodePort in b && b[p.nodePort] == id && id in s.backends
    && p.backend.Some? && BackendMatches(inp.svc, p, s.backends[id])
    && (StringArrayEqual(pool, inp.targets) ==> PoolMatches(inp.targets, s.backends[id]))
  }

  /** A write of the backend of turn k keeps everything that holds in the middle of turn k. */
  lemma BackendWritten(pl: Plan, inp: Inputs, s: LB, o: Roles, k: nat, b: Backend)
    requires PlanFits(pl, inp.svc) && k < |inp.svc.ports| && Core(pl, s, o, {}) && OthersAt(pl, inp, s, o, k)
    requires Ours(b.name, pl) && b.forwardPort == inp.svc.ports[k].nodePort
             && BackendSlot(pl, s, o.b, b.forwardPort, b.id)
    requires WithBackend(o, b.forwardPort, b.id).strays != {} ==> Doubles(pl, inp.svc)
    ensures var s', o' := PutBackend(s, b), WithBackend(o, b.forwardPort, b.id);
            Core(pl, s', o', {}) && OthersAt(pl, inp, s', o', k) && Midway(pl, inp.svc, s')
  {
    hide Core, OthersAt, PlanFits, Midway, BackendSlot, Doubles;
    BackendStep(pl, inp, s, o, k, b);
    CoreMidway(pl, inp.svc, PutBackend(s, b), WithBackend(o, b.forwardPort, b.id), {});
  }

  lemma SameHolder(o: Roles, port: int)
    requires port in o.b
    ensures WithBackend(o, port, o.b[port]) == o
  {
    assert o.strays + {} == o.strays;
    assert o.b[port := o.b[port]] == o.b;
  }

  lemma SameFrontendHolder(o: Roles, port: int)
    requires port in o.f
    ensures WithFrontend(o, port, o.f[port]) == o
  {
    assert o.f[port := o.f[port]] == o.f;
  }

  /** updateBackend: two calls, the second for the health check. */
  method UpdateBackend(c: Cloud, inp: Inputs, k: nat, target: ListedBackend, ghost pl: Plan, ghost st: Start,
                       ghost o: Roles)
    returns (r: Result<(Id, Slice), Error>)
    requires PlanFits(pl, inp.svc) && k < |inp.svc.ports| && At(c, pl, inp, st, o, k)
    requires var p := Turn(inp.svc, k);
             p.nodePort in o.b && BackendTargetFits(inp.svc, p, target) && target.id == o.b[p.nodePort]
    modifies c
    ensures Tracked(c, pl, inp.svc, st) && Grew(c) && c.lb.frontends == old(c.lb.frontends) && c.calls > old(c.calls)
    ensures r.Err? ==> r.error == Unavailable && c.outages > old(c.outages)
    ensures r.Ok? ==> At(c, pl, inp, st, o, k) && BackendSet(inp, c.lb, o.b, Turn(inp.svc, k), r.value.0, r.value.1)
                      && c.outages == old(c.outages)
  {
    hide Core, OthersAt, PlanFits, Midway, Ours, FrontendName, BackendName, StringArrayEqual, Sort, Doubles, Passing,
         Turn, PlanOk, ForwardsTo;
    ghost var p := Turn(inp.svc, k);
    PlanNames(pl, inp.svc, p);
    PlanSound(pl, inp.svc);
    CoreHolders(pl, c.lb, o);
    SameHolder(o, p.nodePort);
    TurnNumbers(inp.svc, k);
    var updated := c.UpdateBackend(target);
    if updated.Err? {
      return Err(Unavailable);
    }
    BackendWritten(pl, inp, old(c.lb), o, k, updated.value);
    ghost var s1 := c.lb;
    var checked := c.UpdateHealthCheck(target.id, target.body.healthCheck);
    if checked.Err? {
      return Err(Unavailable);
    }
    BackendWritten(pl, inp, s1, o, k, s1.backends[target.id].(healthCheck := target.body.healthCheck));
    ListedPool(Items(updated.value.pool), inp.targets, c.lb.backends[target.id]);
    return Ok((updated.value.id, Items(updated.value.pool)));
  }

  lemma TurnNumbers(svc: Service, k: nat)
    requires k < |svc.ports|
    ensures Turn(svc, k).port == svc.ports[k].port && Turn(svc, k).nodePort == svc.ports[k].nodePort
            && Turn(svc, k).protocol == TCP
  {
  }

  lemma ListedPool(pool: Slice, targets: Slice, b: Backend)
    requires pool == Items(b.pool)
    ensures StringArrayEqual(pool, targets) ==> PoolMatches(targets, b)
  {
    StringArrayEqualIsPermutation(pool, targets);
  }

  /** What creating a backend in turn k means for the strays. */
  lemma CreatedRoles(pl: Plan, inp: Inputs, s: LB, o: Roles, k: nat, id: Id)
    requires k < |inp.svc.ports| && inp.svc.ports[k].nodePort in pl.newB && id !in s.backends
    requires PlanOk(pl) && Core(pl, s, o, {}) && BackendAt(pl, inp, s, o.b, k, k)
    requires forall j | 0 <= j < k :: Passing(pl, inp.svc, j)
    requires o.strays != {} ==> Doubles(pl, inp.svc)
    ensures var o' := WithBackend(o, inp.svc.ports[k].nodePort, id);
            && (o'.strays != {} <==> o.strays != {} || Doubled(pl, inp.svc, k))
            && (o'.strays != {} ==> Doubles(pl, inp.svc))
  {
    hide Passing, Core, SeenB, PlanOk, BackendMatches, PoolMatches;
    CoreHolders(pl, s, o);
    CoreOwners(pl, s, o);
    var q := inp.svc.ports[k].nodePort;
    TurnNumbers(inp.svc, k);
    assert q in o.b <==> SeenB(inp.svc, k, q);
    assert Doubled(pl, inp.svc, k) ==> Doubles(pl, inp.svc);
    assert q in o.b ==> o.b[q] in WithBackend(o, q, id).strays;
  }

  /** createBackend: the request carries the target addresses as the service's backends share them. */
  method CreateBackend(c: Cloud, inp: Inputs, k: nat, target: ListedBackend, targets: Slice, ghost pl: Plan,
                       ghost st: Start, ghost o: Roles)
    returns (r: Result<(Id, Slice), Error>)
    requires PlanFits(pl, inp.svc) && k < |inp.svc.ports| && At(c, pl, inp, st, o, k)
             && BackendAt(pl, inp, c.lb, o.b, k, k)
    requires BackendTargetFits(inp.svc, Turn(inp.svc, k), target) && inp.svc.ports[k].nodePort in pl.newB
    modifies c
    ensures Tracked(c, pl, inp.svc, st) && Grew(c) && c.lb.frontends == old(c.lb.frontends) && c.calls > old(c.calls)
    ensures r.Err? ==> r.error == Unavailable && c.outages > old(c.outages)
    ensures r.Ok? ==> var o' := WithBackend(o, target.port, r.value.0);
                      && At(c, pl, inp, st, o', k)
                      && BackendSet(inp, c.lb, o'.b, Turn(inp.svc, k), r.value.0, r.value.1)
                      && c.outages == old(c.outages) && (o'.strays != {} <==> o.strays != {} || Doubled(pl, inp.svc, k))
  {
    hide Core, OthersAt, PlanFits, Midway, Ours, FrontendName, BackendName, StringArrayEqual, Sort, Doubles, Doubled,
         Passing, Turn, PlanOk, BackendAt;
    PlanNames(pl, inp.svc, Turn(inp.svc, k));
    PlanSound(pl, inp.svc);
    TurnNumbers(inp.svc, k);
    var created := c.CreateBackend(target.(body := target.body.(pool := targets)));
    if created.Err? {
      return Err(Unavailable);
    }
    CreatedRoles(pl, inp, old(c.lb), o, k, created.value.id);
    BackendWritten(pl, inp, old(c.lb), o, k, created.value);
    ListedPool(Items(created.value.pool), inp.targets, created.value);
    return Ok((created.value.id, Items(created.value.pool)));
  }

  /** A backend to be kept is in place, whether an earlier turn has been at it or not. */
  lemma KeptBackend(pl: Plan, inp: Inputs, s: LB, o: Roles, k: nat)
    requires PlanFits(pl, inp.svc) && k < |inp.svc.ports| && Core(pl, s, o, {}) && BackendAt(pl, inp, s, o.b, k, k)
    requires inp.svc.ports[k].nodePort in pl.keptB
    ensures var p := Turn(inp.svc, k);
            && p.nodePort in pl.ownB && pl.ownB[p.nodePort] in pl.s0.backends
            && BackendSet(inp, s, o.b, p, pl.ownB[p.nodePort], Items(pl.s0.backends[pl.ownB[p.nodePort]].pool))
  {
    hide StringArrayEqual, PoolMatches, BackendName, Core, SeenB, PlansBackends, PlansFrontends;
    PlanSound(pl, inp.svc);
    PlanDomains(pl, inp.svc);
    CoreOwners(pl, s, o);
    assert TurnFits(pl, inp.svc, k);
    var id := pl.ownB[inp.svc.ports[k].nodePort];
    ListedPool(Items(pl.s0.backends[id].pool), inp.targets, pl.s0.backends[id]);
  }

  lemma PlanDomains(pl: Plan, svc: Service)
    requires PlanFits(pl, svc)
    ensures pl.keptF <= pl.ownF.Keys && pl.keptB <= pl.ownB.Keys
    ensures forall q | q in pl.ownB :: q !in pl.newB
    ensures forall q | q in pl.ownF :: q !in pl.newF
  {
    assert forall p | p in pl.ownF ::
             pl.s0.frontends[pl.ownF[p]].inboundPort == p && Ours(pl.s0.frontends[pl.ownF[p]].name, pl);
    assert forall p | p in pl.ownB ::
             pl.s0.backends[pl.ownB[p]].forwardPort == p && Ours(pl.s0.backends[pl.ownB[p]].name, pl);
  }

  lemma TurnPrepared(pl: Plan, svc: Service, k: nat)
    requires PlanFits(pl, svc) && k < |svc.ports|
    ensures var p := Turn(svc, k);
            && (p.backend.Some? <==> p.nodePort in pl.ownB || p.nodePort in pl.newB)
            && (p.frontend.Some? <==> p.port in pl.ownF || p.port in pl.newF)
  {
    assert TurnFits(pl, svc, k);
  }

  /** Update, create or look up the backend of turn k. */
  method EnsureBackend(c: Cloud, inp: Inputs, k: nat, ops: Ops<BackendBody>, targets: Slice, ghost pl: Plan,
                       ghost st: Start, ghost o: Roles)
    returns (r: Result<(Id, Slice), Error>, ghost o': Roles)
    requires PlanFits(pl, inp.svc) && BackendOpsFit(pl, inp, ops)
    requires k < |inp.svc.ports| && At(c, pl, inp, st, o, k) && BackendAt(pl, inp, c.lb, o.b, k, k)
    modifies c
    ensures Tracked(c, pl, inp.svc, st) && Grew(c) && c.lb.frontends == old(c.lb.frontends)
    ensures r == Err(Unavailable) <==> c.outages != old(c.outages)
    ensures r == Err(BadService) <==> Turn(inp.svc, k).backend.None?
    ensures r != Err(Refused)
    ensures r == Err(BadService) ==> c.lb == old(c.lb) && c.calls == old(c.calls) && o' == o && !Doubled(pl, inp.svc, k)
    ensures r.Ok? ==> At(c, pl, inp, st, o', k) && BackendSet(inp, c.lb, o'.b, Turn(inp.svc, k), r.value.0, r.value.1)
                      && o'.f == o.f && (o'.strays != {} <==> o.strays != {} || Doubled(pl, inp.svc, k))
    ensures r.Ok? && c.calls == old(c.calls) ==> inp.svc.ports[k].nodePort in pl.keptB
    ensures var q := inp.svc.ports[k].nodePort;
            q in pl.keptB ==> c.calls == old(c.calls) && r.Ok? && q in pl.ownB && pl.ownB[q] in pl.s0.backends
                              && r.value.1 == Items(pl.s0.backends[pl.ownB[q]].pool)
    ensures c.calls == old(c.calls) ==> c.lb == old(c.lb)
  {
    hide Core, OthersAt, Midway, Ours, FrontendName, BackendName, PlanFits, Passing, Doubles, Turn, SeenB, BackendAt,
         BackendSet, BackendTargetFits, StringArrayEqual;
    var q := inp.svc.ports[k].nodePort;
    TurnNumbers(inp.svc, k);
    TurnPrepared(pl, inp.svc, k);
    PlanSound(pl, inp.svc);
    PlanDomains(pl, inp.svc);
    o' := o;
    CoreOwners(pl, c.lb, o);
    if q in ops.update {
      r := UpdateBackend(c, inp, k, ops.update[q], pl, st, o);
      return;
    }
    if q in ops.create {
      TargetPort(inp.svc, Turn(inp.svc, k), ops.create[q]);
      r := CreateBackend(c, inp, k, ops.create[q], targets, pl, st, o);
      if r.Ok? {
        o' := WithBackend(o, q, r.value.0);
      }
      return;
    }
    if q !in ops.keep {
      return Err(BadService), o;
    }
    KeptBackend(pl, inp, c.lb, o, k);
    return Ok((ops.keep[q].id, ops.keep[q].body.pool)), o;
  }

  lemma TargetPort(svc: Service, p: ServicePort, t: ListedBackend)
    requires BackendTargetFits(svc, p, t)
    ensures t.port == p.nodePort
  {
  }

  /** Point the backend of turn k at the target addresses.  The comparison sorts the shared
      address list in place, so later calls see it sorted. */
  method SyncPool(c: Cloud, inp: Inputs, k: nat, id: Id, pool: Slice, targets: Slice, ghost pl: Plan, ghost st: Start,
                  ghost o: Roles)
    returns (r: Result<(), Error>, targets': Slice)
    requires PlanFits(pl, inp.svc) && k < |inp.svc.ports| && At(c, pl, inp, st, o, k)
    requires BackendSet(inp, c.lb, o.b, Turn(inp.svc, k), id, pool) && StringArrayEqual(targets, inp.targets)
    modifies c
    ensures Tracked(c, pl, inp.svc, st) && Grew(c) && c.lb.frontends == old(c.lb.frontends)
    ensures StringArrayEqual(targets', inp.targets)
    ensures r.Err? ==> r.error == Unavailable
    ensures r == Err(Unavailable) <==> c.outages != old(c.outages)
    ensures r.Ok? ==>
              At(c, pl, inp, st, o, k) && BackendDone(inp, c.lb, o.b, Turn(inp.svc, k))
              && o.b[inp.svc.ports[k].nodePort] == id
    ensures c.calls == old(c.calls) <==> StringArrayEqual(pool, inp.targets)
    ensures c.calls == old(c.calls) ==> c.lb == old(c.lb)
  {
    hide Core, OthersAt, PlanFits, Midway, Ours, FrontendName, BackendName, StringArrayEqual, BackendMatches, Sort,
         Doubles, Passing, Turn, PlanOk;
    PlanSound(pl, inp.svc);
    CoreHolders(pl, c.lb, o);
    TurnNumbers(inp.svc, k);
    var equal := StringArrayEqual(pool, targets);
    targets' := SortSlice(targets);
    SortSliceEqual(targets, inp.targets);
    PoolComparison(pool, targets, inp.targets);
    if !equal {
      ghost var b := c.lb.backends[id].(pool := targets'.Elems());
      SameHolder(o, b.forwardPort);
      WiredIsOurs(pl, c.lb, id);
      var served := c.SetBackendServers(id, targets');
      if served.Err? {
        return Err(Unavailable), targets';
      }
      BackendWritten(pl, inp, old(c.lb), o, k, b);
      PoolSent(inp.svc, Turn(inp.svc, k), inp.targets, targets', old(c.lb).backends[id]);
    }
    return Ok(()), targets';
  }

  lemma WiredIsOurs(pl: Plan, s: LB, id: Id)
    requires WiredTo(pl, s, id)
    ensures id in s.backends && Ours(s.backends[id].name, pl)
  {
  }

  lemma PoolComparison(pool: Slice, targets: Slice, wanted: Slice)
    requires StringArrayEqual(targets, wanted)
    ensures StringArrayEqual(pool, targets) == StringArrayEqual(pool, wanted)
  {
  }

  lemma PoolSent(svc: Service, p: ServicePort, wanted: Slice, sent: Slice, b: Backend)
    requires p.backend.Some? && BackendMatches(svc, p, b) && StringArrayEqual(sent, wanted)
    ensures BackendMatches(svc, p, b.(pool := sent.Elems())) && PoolMatches(wanted, b.(pool := sent.Elems()))
  {
    StringArrayEqualIsPermutation(sent, wanted);
  }

  // ---- The frontend of a turn ----

  lemma FrontendWritten(pl: Plan, inp: Inputs, s: LB, o: Roles, k: nat, x: Frontend)
    requires PlanFits(pl, inp.svc) && k < |inp.svc.ports| && Core(pl, s, o, {}) && OthersAt(pl, inp, s, o, k)
    requires Ours(x.name, pl) && x.inboundPort == inp.svc.ports[k].port && FrontendSlot(pl, s, o.f, x.inboundPort, x.id)
    requires || (x.inboundPort in o.f && Unwritten(s.frontends[x.id], x))
             || (x.inboundPort !in pl.keptF && WiredTo(pl, s, x.backendId))
    requires o.strays != {} ==> Doubles(pl, inp.svc)
    ensures var s', o' := PutFrontend(s, x), WithFrontend(o, x.inboundPort, x.id);
            Core(pl, s', o', {}) && OthersAt(pl, inp, s', o', k) && Midway(pl, inp.svc, s')
  {
    hide Core, OthersAt, PlanFits, Midway, Doubles, Ours, WiredTo, Unwritten;
    FrontendStep(pl, inp, s, o, k, x);
    CoreMidway(pl, inp.svc, PutFrontend(s, x), WithFrontend(o, x.inboundPort, x.id), {});
  }

  lemma CertsSent(certs: seq<string>)
    ensures StringArrayEqual(Items(certs), Items(certs))
  {
  }

  /** updateFrontend: rewrite the frontend of turn k, wiring it to the given backend. */
  method UpdateFrontend(c: Cloud, inp: Inputs, k: nat, target: ListedFrontend, backend: Id, ghost pl: Plan,
                        ghost st: Start, ghost o: Roles)
    returns (r: Result<Id, Error>)
    requires PlanFits(pl, inp.svc) && k < |inp.svc.ports| && At(c, pl, inp, st, o, k)
    requires var p := Turn(inp.svc, k);
             && p.nodePort in o.b && o.b[p.nodePort] == backend && p.port in pl.ownF && p.port !in pl.keptF
             && FrontendTargetFits(inp.svc, p, target) && target.id == pl.ownF[p.port]
    modifies c
    ensures Tracked(c, pl, inp.svc, st) && Grew(c) && c.lb.backends == old(c.lb.backends) && c.calls > old(c.calls)
    ensures r.Err? ==> r.error == Unavailable && c.outages > old(c.outages)
    ensures r.Ok? ==> var p := Turn(inp.svc, k);
                      && At(c, pl, inp, st, o, k) && FrontendSet(inp, c.lb, o.f, p)
                      && Wired(pl, c.lb, o.f, p.port, p.nodePort)
                      && o.f[p.port] == r.value && c.outages == old(c.outages)
  {
    hide Core, OthersAt, PlanFits, Midway, Ours, FrontendName, BackendName, StringArrayEqual, Doubles, Passing, Turn,
         PlanOk;
    ghost var p := Turn(inp.svc, k);
    PlanNames(pl, inp.svc, p);
    PlanSound(pl, inp.svc);
    CoreHolders(pl, c.lb, o);
    CoreOwners(pl, c.lb, o);
    TurnNumbers(inp.svc, k);
    SameFrontendHolder(o, p.port);
    var updated := c.UpdateFrontend(target, backend);
    if updated.Err? {
      return Err(Unavailable);
    }
    FrontendWritten(pl, inp, old(c.lb), o, k, updated.value);
    CertsSent(p.frontend.value.certs);
    return Ok(updated.value.id);
  }

  lemma NobodyListening(pl: Plan, s: LB, port: int)
    requires ForeignUntouched(pl.s0, s, pl.prefix)
    requires forall f | f in s.frontends :: s.frontends[f].inboundPort != port
    ensures !PortTakenAt(pl, port)
  {
  }

  lemma SomebodyListening(pl: Plan, inp: Inputs, s: LB, o: Roles, k: nat)
    requires PlanOk(pl) && Core(pl, s, o, {}) && k < |inp.svc.ports| && FrontendAt(pl, inp, s, o.f, k, k)
    requires inp.svc.ports[k].port in pl.newF
    requires exists f | f in s.frontends :: s.frontends[f].inboundPort == inp.svc.ports[k].port
    ensures PortTakenAt(pl, inp.svc.ports[k].port) || SeenF(inp.svc, k, inp.svc.ports[k].port)
  {
    hide Core, SeenF, FrontendMatches, AclsMatch;
    CoreOwners(pl, s, o);
    var f :| f in s.frontends && s.frontends[f].inboundPort == inp.svc.ports[k].port;
    if inp.svc.ports[k].port !in o.f {
      OccupiedMeansTaken(pl, s, o, {}, f);
    }
  }

  /** A frontend created in turn k was not created before. */
  lemma NotYetCreated(pl: Plan, inp: Inputs, s: LB, o: Roles, k: nat)
    requires PlanOk(pl) && Core(pl, s, o, {}) && k < |inp.svc.ports| && FrontendAt(pl, inp, s, o.f, k, k)
    requires inp.svc.ports[k].port in pl.newF
             && forall f | f in s.frontends :: s.frontends[f].inboundPort != inp.svc.ports[k].port
    ensures !SeenF(inp.svc, k, inp.svc.ports[k].port) && inp.svc.ports[k].port !in o.f
  {
    hide Core, SeenF, FrontendMatches, AclsMatch;
    CoreHolders(pl, s, o);
    TurnNumbers(inp.svc, k);
  }

  /** createFrontend */
  method CreateFrontend(c: Cloud, inp: Inputs, k: nat, target: ListedFrontend, backend: Id, ghost pl: Plan,
                        ghost st: Start, ghost o: Roles)
    returns (r: Result<Id, Error>)
    requires PlanFits(pl, inp.svc) && k < |inp.svc.ports| && At(c, pl, inp, st, o, k)
             && FrontendAt(pl, inp, c.lb, o.f, k, k)
    requires var p := Turn(inp.svc, k);
             && p.nodePort in o.b && o.b[p.nodePort] == backend && p.port in pl.newF && p.port !in pl.keptF
             && FrontendTargetFits(inp.svc, p, target)
    modifies c
    ensures Tracked(c, pl, inp.svc, st) && Grew(c) && c.lb.backends == old(c.lb.backends) && c.calls > old(c.calls)
    ensures r == Err(Unavailable) <==> c.outages != old(c.outages)
    ensures r != Err(BadService)
    ensures r == Err(Refused) ==> c.lb == old(c.lb) && !Passing(pl, inp.svc, k)
    ensures r.Ok? ==> var p, o' := Turn(inp.svc, k), WithFrontend(o, target.port, r.value);
                      && At(c, pl, inp, st, o', k) && FrontendSet(inp, c.lb, o'.f, p)
                      && Wired(pl, c.lb, o'.f, p.port, p.nodePort)
                      && (p.backend.Some? ==> Passing(pl, inp.svc, k))
  {
    hide Core, OthersAt, PlanFits, Midway, Ours, FrontendName, BackendName, StringArrayEqual, Doubles, Turn, PlanOk,
         PortTakenAt, SeenF, FrontendAt, ForeignUntouched, ValidLB;
    ghost var p := Turn(inp.svc, k);
    PlanNames(pl, inp.svc, p);
    PlanSound(pl, inp.svc);
    CoreHolders(pl, c.lb, o);
    CoreForeign(pl, c.lb, o, {});
    TurnNumbers(inp.svc, k);
    var created := c.CreateFrontend(target, backend);
    if created.Err? {
      if created.error == Conflict {
        SomebodyListening(pl, inp, c.lb, o, k);
      }
      return Err(ErrorOf(created.error));
    }
    NobodyListening(pl, old(c.lb), target.port);
    NotYetCreated(pl, inp, old(c.lb), o, k);
    FrontendWritten(pl, inp, old(c.lb), o, k, created.value);
    CertsSent(p.frontend.value.certs);
    return Ok(created.value.id);
  }

  /** A frontend to be kept is in place, whether an earlier turn has been at it or not. */
  lemma KeptFrontend(pl: Plan, inp: Inputs, s: LB, o: Roles, k: nat)
    requires PlanFits(pl, inp.svc) && k < |inp.svc.ports| && Core(pl, s, o, {}) && FrontendAt(pl, inp, s, o.f, k, k)
    requires inp.svc.ports[k].port in pl.keptF
    ensures var p := Turn(inp.svc, k);
            && p.port in pl.ownF && p.port in o.f && o.f[p.port] == pl.ownF[p.port] && p.port !in pl.newF
            && FrontendSet(inp, s, o.f, p) && Wired(pl, s, o.f, p.port, p.nodePort)
            && (pl.ownF[p.port] in pl.s0.frontends && AclsMatch(inp, pl.s0.frontends[pl.ownF[p.port]]) ==>
                  AclsMatch(inp, s.frontends[o.f[p.port]]))
  {
    hide StringArrayEqual, FrontendName, Core, SeenF, PlansBackends, PlansFrontends, ForwardsTo, AclsMatch;
    PlanSound(pl, inp.svc);
    PlanDomains(pl, inp.svc);
    CoreOwners(pl, s, o);
    assert TurnFits(pl, inp.svc, k);
  }

  /** Update, create or look up the frontend of turn k. */
  method EnsureFrontend(c: Cloud, inp: Inputs, k: nat, ops: Ops<FrontendBody>, backend: Id, ghost pl: Plan,
                        ghost st: Start, ghost o: Roles)
    returns (r: Result<Id, Error>, ghost o': Roles)
    requires PlanFits(pl, inp.svc) && FrontendOpsFit(pl, inp, ops)
    requires k < |inp.svc.ports| && At(c, pl, inp, st, o, k) && BackendDone(inp, c.lb, o.b, Turn(inp.svc, k))
    requires FrontendAt(pl, inp, c.lb, o.f, k, k) && o.b[inp.svc.ports[k].nodePort] == backend
    modifies c
    ensures Tracked(c, pl, inp.svc, st) && Grew(c) && c.lb.backends == old(c.lb.backends)
    ensures r == Err(Unavailable) <==> c.outages != old(c.outages)
    ensures r == Err(BadService) <==> Turn(inp.svc, k).frontend.None?
    ensures r == Err(BadService) ==> c.calls == old(c.calls)
    ensures r.Err? && r.error != Unavailable ==> c.lb == old(c.lb) && !Passing(pl, inp.svc, k)
    ensures r.Ok? ==> var p := Turn(inp.svc, k);
                      && At(c, pl, inp, st, o', k) && FrontendSet(inp, c.lb, o'.f, p)
                      && Wired(pl, c.lb, o'.f, p.port, p.nodePort)
                      && o'.f[p.port] == r.value && o'.b == o.b && o'.strays == o.strays && Passing(pl, inp.svc, k)
    ensures r.Ok? && c.calls == old(c.calls) ==> inp.svc.ports[k].port in pl.keptF
    ensures inp.svc.ports[k].port in pl.keptF ==> c.calls == old(c.calls) && r.Ok?
    ensures inp.svc.ports[k].port in pl.keptF && QuietF(pl, inp, Turn(inp.svc, k)) ==>
              AclsMatch(inp, c.lb.frontends[r.value])
    ensures inp.svc.ports[k].port in pl.keptF ==>
              inp.svc.ports[k].port in pl.ownF && r.value == pl.ownF[inp.svc.ports[k].port]
    ensures c.calls == old(c.calls) ==> c.lb == old(c.lb) && o' == o
  {
    hide Core, OthersAt, PlanFits, Midway, Ours, FrontendName, BackendName, StringArrayEqual, PortTakenAt, SeenF,
         FrontendAt;
    hide BackendMatches, PoolMatches, FrontendMatches, Turn, Doubles, Wired, FrontendTargetFits, AclsMatch;
    var q := inp.svc.ports[k].port;
    o' := o;
    TurnNumbers(inp.svc, k);
    TurnPrepared(pl, inp.svc, k);
    PlanSound(pl, inp.svc);
    PlanDomains(pl, inp.svc);
    CoreOwners(pl, c.lb, o);
    if q in ops.update {
      r := UpdateFrontend(c, inp, k, ops.update[q], backend, pl, st, o);
      return;
    }
    if q in ops.create {
      FrontendTargetPort(inp.svc, Turn(inp.svc, k), ops.create[q]);
      r := CreateFrontend(c, inp, k, ops.create[q], backend, pl, st, o);
      if r.Ok? {
        o' := WithFrontend(o, q, r.value);
      }
      return;
    }
    if q !in ops.keep {
      return Err(BadService), o;
    }
    KeptFrontend(pl, inp, c.lb, o, k);
    return Ok(ops.keep[q].id), o;
  }

  lemma FrontendTargetPort(svc: Service, p: ServicePort, t: ListedFrontend)
    requires FrontendTargetFits(svc, p, t)
    ensures t.port == p.port
  {
  }

  /** What SetACLs changes about turn k. */
  lemma AclsSent(pl: Plan, inp: Inputs, s: LB, o: Roles, p: ServicePort, x: Frontend)
    requires p.port in o.f && o.f[p.port] in s.frontends && o.f[p.port] == x.id && x.inboundPort == p.port
    requires x == s.frontends[x.id].(acls := Specs(inp.svc.ranges, inp.nodes, x.id))
    requires BackendDone(inp, s, o.b, p) && FrontendSet(inp, s, o.f, p) && Wired(pl, s, o.f, p.port, p.nodePort)
    ensures var s' := PutFrontend(s, x);
            BackendDone(inp, s', o.b, p) && FrontendDone(inp, s', o.f, p) && Wired(pl, s', o.f, p.port, p.nodePort)
  {
    hide StringArrayEqual, PoolMatches, FrontendName, BackendName, Specs, AclPrefix, Ours;
    SpecsListed(inp.svc.ranges, inp.nodes, x.id);
  }

  /** reconcileACLs */
  method ReconcileACLs(c: Cloud, inp: Inputs, k: nat, frontend: Id, ghost pl: Plan, ghost st: Start, ghost o: Roles)
    returns (r: Result<(), Error>)
    requires PlanFits(pl, inp.svc) && k < |inp.svc.ports| && At(c, pl, inp, st, o, k)
    requires var p := Turn(inp.svc, k);
             && BackendDone(inp, c.lb, o.b, p) && FrontendSet(inp, c.lb, o.f, p)
             && Wired(pl, c.lb, o.f, p.port, p.nodePort)
             && o.f[p.port] == frontend
    modifies c
    ensures Tracked(c, pl, inp.svc, st) && Grew(c)
    ensures r.Err? ==> r.error == Unavailable
    ensures r == Err(Unavailable) <==> c.outages != old(c.outages)
    ensures r.Ok? ==> var p := Turn(inp.svc, k);
                      && At(c, pl, inp, st, o, k) && BackendDone(inp, c.lb, o.b, p) && FrontendDone(inp, c.lb, o.f, p)
                      && Wired(pl, c.lb, o.f, p.port, p.nodePort)
    ensures AclsMatch(inp, old(c.lb).frontends[frontend]) ==> c.calls == old(c.calls)
    ensures r.Ok? && c.calls == old(c.calls) ==> AclsMatch(inp, old(c.lb).frontends[frontend])
    ensures c.calls == old(c.calls) ==> c.lb == old(c.lb)
  {
    hide Core, OthersAt, PlanFits, Midway, Ours, FrontendName, BackendName, StringArrayEqual, BackendMatches,
         PoolMatches, Doubles, Passing, Turn, PlanOk;
    hide Specs, AclPrefix, RulesEqual, BackendDone, Wired;
    ghost var p := Turn(inp.svc, k);
    PlanNames(pl, inp.svc, p);
    PlanSound(pl, inp.svc);
    CoreHolders(pl, c.lb, o);
    TurnNumbers(inp.svc, k);
    SameFrontendHolder(o, p.port);
    var listed := c.ListACLs(frontend, AclPrefix(frontend));
    if listed.Err? {
      return Err(Unavailable);
    }
    var specs := MakeACLSpecs(inp.svc.ranges, inp.nodes, frontend);
    var equal := AclsEquals(listed.value, specs);
    if !equal {
      ghost var x := c.lb.frontends[frontend].(acls := specs);
      var set_ := c.SetACLs(frontend, specs);
      if set_.Err? {
        return Err(Unavailable);
      }
      FrontendWritten(pl, inp, old(c.lb), o, k, x);
      AclsSent(pl, inp, old(c.lb), o, p, x);
    }
    return Ok(());
  }

  // ---- A whole turn ----

  /** The listing already shows the backend of the turn as wanted, or there is none to look for. */
  ghost predicate QuietB(pl: Plan, inp: Inputs, p: ServicePort) {
    p.backend.None? ||
    (&& p.nodePort in pl.keptB && p.nodePort in pl.ownB && pl.ownB[p.nodePort] in pl.s0.backends
     && StringArrayEqual(Items(pl.s0.backends[pl.ownB[p.nodePort]].pool), inp.targets))
  }

  ghost predicate QuietF(pl: Plan, inp: Inputs, p: ServicePort) {
    p.frontend.None? ||
    (&& p.port in pl.keptF && p.port in pl.ownF && pl.ownF[p.port] in pl.s0.frontends
     && AclsMatch(inp, pl.s0.frontends[pl.ownF[p.port]]))
  }

  /** As things stand, the turn finds backend and frontend prepared, the backend listed as wanted, the
      frontend to be kept and its rules in place. */
  ghost predicate QuietNow(pl: Plan, inp: Inputs, s: LB, p: ServicePort) {
    && p.backend.Some? && QuietB(pl, inp, p)
    && p.frontend.Some? && p.port in pl.keptF && p.port in pl.ownF && pl.ownF[p.port] in s.frontends
    && AclsMatch(inp, s.frontends[pl.ownF[p.port]])
  }

  lemma QuietFromStart(pl: Plan, inp: Inputs, p: ServicePort)
    requires QuietNow(pl, inp, pl.s0, p)
    ensures p.backend.Some? && p.frontend.Some? && QuietB(pl, inp, p) && QuietF(pl, inp, p)
  {
  }

  lemma BackendDoneFrame(inp: Inputs, s: LB, s': LB, b: map<int, Id>, p: ServicePort)
    requires BackendDone(inp, s, b, p) && s'.backends == s.backends
    ensures BackendDone(inp, s', b, p)
  {
  }

  /** While only backends are written, what turn k will find as its frontend stays the same. */
  lemma FrontendAtStays(pl: Plan, inp: Inputs, s: LB, s': LB, f: map<int, Id>, k: nat)
    requires k < |inp.svc.ports| && FrontendAt(pl, inp, s, f, k, k) && s'.frontends == s.frontends
    ensures FrontendAt(pl, inp, s', f, k, k)
  {
    hide FrontendMatches, AclsMatch, SeenF;
  }

  /** Turn k, and what it says about how far a run gets. */
  method ApplyPort(c: Cloud, inp: Inputs, k: nat, fOps: Ops<FrontendBody>, bOps: Ops<BackendBody>, targets: Slice,
                   ghost pl: Plan, ghost st: Start, ghost o: Roles)
    returns (r: Result<Slice, Error>, ghost o': Roles)
    requires PlanFits(pl, inp.svc) && FrontendOpsFit(pl, inp, fOps) && BackendOpsFit(pl, inp, bOps)
    requires k < |inp.svc.ports| && At(c, pl, inp, st, o, k)
    requires BackendAt(pl, inp, c.lb, o.b, k, k) && FrontendAt(pl, inp, c.lb, o.f, k, k)
    requires StringArrayEqual(targets, inp.targets)
    modifies c
    ensures Tracked(c, pl, inp.svc, st) && Grew(c)
    ensures r == Err(Unavailable) <==> c.outages != old(c.outages)
    ensures r != Err(Unavailable) ==>
              && (r.Ok? <==> Passing(pl, inp.svc, k))
              && Core(pl, c.lb, o', {}) && (o'.strays != {} <==> o.strays != {} || Doubled(pl, inp.svc, k))
    ensures r.Ok? ==> var p := Turn(inp.svc, k);
                      && At(c, pl, inp, st, o', k) && BackendDone(inp, c.lb, o'.b, p)
                      && FrontendDone(inp, c.lb, o'.f, p)
                      && Wired(pl, c.lb, o'.f, p.port, p.nodePort) && StringArrayEqual(r.value, inp.targets)
    ensures r.Err? && r.error != Unavailable ==> c.lb.frontends == old(c.lb.frontends) && o'.f == o.f
    ensures r.Ok? ==> (c.calls == old(c.calls) <==> QuietNow(pl, inp, old(c.lb), Turn(inp.svc, k)))
    ensures (var p := Turn(inp.svc, k); QuietB(pl, inp, p) && QuietF(pl, inp, p)) ==> c.calls == old(c.calls)
  {
    hide Core, OthersAt, PlanFits, Midway, Ours, FrontendName, BackendName, StringArrayEqual, BackendMatches,
         PoolMatches, PortTakenAt;
    hide Specs, AclPrefix, RulesEqual, FrontendDone, FrontendMatches, AclsMatch, Doubles, Doubled, Turn, SeenF, SeenB,
         FrontendAt, BackendAt, BackendSet, Wired;
    hide FrontendOpsFit, BackendOpsFit, ForwardsTo, PlanOk;
    TurnNumbers(inp.svc, k);
    o' := o;
    var backend;
    backend, o' := EnsureBackend(c, inp, k, bOps, targets, pl, st, o);
    if backend.Err? {
      assert backend.error.BadService? ==> backend == Err(BadService);
      assert backend.error.Refused? ==> backend == Err(Refused);
      return Err(backend.error), o';
    }
    var synced, targets' := SyncPool(c, inp, k, backend.value.0, backend.value.1, targets, pl, st, o');
    if synced.Err? {
      return Err(synced.error), o';
    }
    ghost var s1 := c.lb;
    ghost var o1 := o';
    FrontendAtStays(pl, inp, old(c.lb), c.lb, o'.f, k);
    var frontend;
    frontend, o' := EnsureFrontend(c, inp, k, fOps, backend.value.0, pl, st, o');
    if frontend.Err? {
      assert frontend.error.BadService? ==> frontend == Err(BadService);
      return Err(frontend.error), o1;
    }
    BackendDoneFrame(inp, s1, c.lb, o'.b, Turn(inp.svc, k));
    ghost var s2 := c.lb;
    assert frontend.value in s2.frontends;
    var ruled := ReconcileACLs(c, inp, k, frontend.value, pl, st, o');
    if ruled.Err? {
      return Err(ruled.error), o';
    }
    return Ok(targets'), o';
  }
}
