/** What follows from one run about many: retries, the single final configuration, and the wiring
    under which a run is turned down. */
module Recovery {
  import opened Basics
  import opened Sorting
  import opened Acl
  import opened Diff
  import opened LoadBalancer
  import opened CloudApi
  import opened Plan
  import opened PortState
  import opened Reconcile
  import opened Planning
  import opened Convergence
  import opened Update
  import opened Order

  lemma NoNewDuplicatesTransitive(s0: LB, s1: LB, s2: LB, prefix: string)
    requires NoNewDuplicateFrontends(s0, s1, prefix) && NoNewDuplicateFrontends(s1, s2, prefix)
    requires NoNewDuplicateBackends(s0, s1, prefix) && NoNewDuplicateBackends(s1, s2, prefix)
             && ForeignUntouched(s1, s2, prefix)
    ensures NoNewDuplicateFrontends(s0, s2, prefix) && NoNewDuplicateBackends(s0, s2, prefix)
  {
    hide Managed;
  }

  lemma StepSafeTransitive(s0: LB, s1: LB, s2: LB, prefix: string, ports: set<int>)
    requires StepSafe(s0, s1, prefix, ports) && StepSafe(s1, s2, prefix, ports)
    ensures StepSafe(s0, s2, prefix, ports)
  {
    hide ForeignUntouched, NoNewDuplicateFrontends, NoNewDuplicateBackends, Clean;
    ForeignTransitive(s0, s1, s2, prefix);
    NoNewDuplicatesTransitive(s0, s1, s2, prefix);
  }

  // ---- What a plan depends on ----

  /** The targets of two sets of nodes differ in nothing but the pools. */
  lemma {:induction false} TargetsAlike(svc: Service, n: nat, t1: Slice, t2: Slice)
    requires n <= |svc.ports|
    ensures BackendTargets(svc, n, t1).Keys == BackendTargets(svc, n, t2).Keys
    ensures forall q | q in BackendTargets(svc, n, t1) ::
              BackendTargets(svc, n, t1)[q].(body := BackendTargets(svc, n, t1)[q].body.(pool := Nil))
              == BackendTargets(svc, n, t2)[q].(body := BackendTargets(svc, n, t2)[q].body.(pool := Nil))
  {
    if n > 0 {
      TargetsAlike(svc, n - 1, t1, t2);
    }
  }

  lemma {:induction false} SurplusAlike<T>(got: seq<Keyed<T>>, w1: map<int, Keyed<T>>, w2: map<int, Keyed<T>>,
                                           prefix: string)
    requires w1.Keys == w2.Keys
    ensures Surplus(got, w1, prefix) == Surplus(got, w2, prefix)
  {
    if got != [] {
      SurplusAlike(got[..|got| - 1], w1, w2, prefix);
    }
  }

  /** What is kept depends on the wanted objects only through the comparison, and what is created or
      updated, as far as identifiers go, only through what is kept. */
  lemma ComparedAlike<T(!new)>(got: seq<Keyed<T>>, w1: map<int, Keyed<T>>, w2: map<int, Keyed<T>>, prefix: string,
                        same: (Keyed<T>, Keyed<T>) -> bool)
    requires w1.Keys == w2.Keys && forall q | q in w1 :: ComparesAlike(same, w1[q], w2[q])
    ensures var o1, o2 := Compared(got, w1, prefix, same), Compared(got, w2, prefix, same);
            && o1.keep == o2.keep && o1.create.Keys == o2.create.Keys && o1.remove == o2.remove
            && o1.update.Keys == o2.update.Keys && forall q | q in o1.update :: o1.update[q].id == o2.update[q].id
  {
    hide First, Surplus;
    SurplusAlike(got, w1, w2, prefix);
    var o1, o2 := Compared(got, w1, prefix, same), Compared(got, w2, prefix, same);
    forall p ensures (p in o1.keep <==> p in o2.keep) && (p in o1.update <==> p in o2.update)
        && (p in o1.create <==> p in o2.create)
    {
      if p in w1 && First(got, prefix, p).Some? {
        assert ComparesAlike(same, w1[p], w2[p]);
      }
    }
  }

  ghost predicate ComparesAlike<T(!new)>(same: (Keyed<T>, Keyed<T>) -> bool, a: Keyed<T>, b: Keyed<T>) {
    forall x :: same(x, a) == same(x, b)
  }

  lemma BackendEqualsAlike(x: ListedBackend, a: ListedBackend, b: ListedBackend)
    requires SameButPool(a, b)
    ensures BackendEquals(x, a) == BackendEquals(x, b)
  {
  }

  lemma BackendOpsAlike(svc: Service, bs: seq<ListedBackend>, inp1: Inputs, inp2: Inputs)
    requires inp1.svc == inp2.svc == svc
    ensures var o1, o2 := BackendOps(inp1, bs), BackendOps(inp2, bs);
            && o1.keep == o2.keep && o1.create.Keys == o2.create.Keys && o1.remove == o2.remove
            && o1.update.Keys == o2.update.Keys && forall q | q in o1.update :: o1.update[q].id == o2.update[q].id
  {
    hide BackendTargets, PrefixFilter, Compared, BackendEquals;
    var w1, w2 := BackendTargets(svc, |svc.ports|, inp1.targets), BackendTargets(svc, |svc.ports|, inp2.targets);
    TargetsAlike(svc, |svc.ports|, inp1.targets, inp2.targets);
    forall q | q in w1 ensures ComparesAlike(BackendEquals, w1[q], w2[q]) {
      forall x ensures BackendEquals(x, w1[q]) == BackendEquals(x, w2[q]) {
        BackendEqualsAlike(x, w1[q], w2[q]);
      }
    }
    ComparedAlike(bs, w1, w2, PrefixFilter(svc), BackendEquals);
  }

  ghost predicate SameButPool(a: ListedBackend, b: ListedBackend) {
    a.name == b.name && a.port == b.port && a.body.settings == b.body.settings
    && a.body.healthCheck == b.body.healthCheck
  }

  lemma OwnersAlike<T>(o1: Ops<T>, o2: Ops<T>)
    requires o1.keep == o2.keep && o1.update.Keys == o2.update.Keys
             && forall q | q in o1.update :: o1.update[q].id == o2.update[q].id
    ensures Owners(o1) == Owners(o2)
  {
    assert Owners(o1).Keys == o1.keep.Keys + o1.update.Keys == o2.keep.Keys + o2.update.Keys == Owners(o2).Keys;
    forall p | p in Owners(o1) ensures Owners(o1)[p] == Owners(o2)[p] {
      assert p in o1.keep <==> p in o2.keep;
      if p !in o1.keep {
        assert p in o1.update.Keys && p in o2.update;
      }
    }
  }

  /** The plan is drawn from the service and the listings alone: nodes and target addresses only matter
      for pools and rules, which are not part of it. */
  lemma PlanIgnoresNodes(inp1: Inputs, inp2: Inputs, s: LB, fs: seq<ListedFrontend>, bs: seq<ListedBackend>)
    requires inp1.svc == inp2.svc
    ensures PlanOf(inp1, s, fs, bs) == PlanOf(inp2, s, fs, bs)
  {
    hide BackendOps, FrontendTargets, PrefixFilter, Compared, Ids;
    BackendOpsAlike(inp1.svc, bs, inp1, inp2);
    var o1, o2 := BackendOps(inp1, bs), BackendOps(inp2, bs);
    OwnersAlike(o1, o2);
  }

  function PlanFor(svc: Service): Inputs {
    Inputs(svc, [], Nil)
  }

  // ---- Starts from which a run gets through ----

  /** However the load balancer is listed in the given order, the listing does not block a run. */
  ghost predicate Open(svc: Service, s: LB, order: Order)
    requires ValidLB(s)
  {
    forall fs, bs | ListsFrontends(fs, s) && ListsBackends(bs, s) && InOrder(fs, order.frontends)
        && InOrder(bs, order.backends) ::
      !Blocked(PlanOf(PlanFor(svc), s, fs, bs))
  }

  /** Where ports share a number that belongs to a TCP port, the managed object of that number exists. */
  ghost predicate ClashFree(svc: Service, s: LB) {
    && (forall i, j | 0 <= i < j < |svc.ports| && svc.ports[i].port == svc.ports[j].port
        && TcpPort(svc, svc.ports[j].port) ::
          HasFrontend(s, PrefixFilter(svc), svc.ports[j].port))
    && (forall i, j | 0 <= i < j < |svc.ports| && svc.ports[i].nodePort == svc.ports[j].nodePort
        && TcpNodePort(svc, svc.ports[j].nodePort) ::
          HasBackend(s, PrefixFilter(svc), svc.ports[j].nodePort))
  }

  /** Whatever shares the port of a TCP port shares its node port too. */
  ghost predicate Paired(svc: Service) {
    forall i, j | 0 <= i < |svc.ports| && 0 <= j < |svc.ports| && svc.ports[i].protocol == TCP
        && svc.ports[j].port == svc.ports[i].port ::
      svc.ports[j].nodePort == svc.ports[i].nodePort
  }

  lemma PairedStraight(pl: Plan, svc: Service)
    requires Paired(svc)
    ensures Straight(pl, svc)
  {
    hide Latest;
  }

  /** A service without shared numbers is free of clashes and paired, whatever the load balancer. */
  lemma UnsharedClashFree(svc: Service, s: LB)
    requires Unshared(svc)
    ensures ClashFree(svc, s) && Paired(svc)
  {
    hide HasFrontend, HasBackend;
  }

  /** Clashes are exactly what makes a turn collide with an earlier one, or double its backend. */
  lemma ClashFreeWhen(inp: Inputs, s: LB, fs: seq<ListedFrontend>, bs: seq<ListedBackend>)
    requires ValidLB(s) && ListsFrontends(fs, s) && ListsBackends(bs, s) && AnnotationsValid(inp.svc)
    ensures ClashFree(inp.svc, s) <==>
            var pl := PlanOf(inp, s, fs, bs);
            !Collides(pl, inp.svc) && forall k | 0 <= k < |inp.svc.ports| :: !Doubled(pl, inp.svc, k)
  {
    hide PlanOf, ListsFrontends, ListsBackends, HasFrontend, HasBackend, TcpPort, TcpNodePort, AnnotationsValid;
    var pl, svc, prefix := PlanOf(inp, s, fs, bs), inp.svc, PrefixFilter(inp.svc);
    forall p ensures p in pl.newF <==> TcpPort(svc, p) && !HasFrontend(s, prefix, p)
             ensures p in pl.newB <==> TcpNodePort(svc, p) && !HasBackend(s, prefix, p) {
      LackingPort(inp, s, fs, bs, p);
      LackingNodePort(inp, s, fs, bs, p);
    }
    if !Collides(pl, svc) && forall k | 0 <= k < |svc.ports| :: !Doubled(pl, svc, k) {
      forall i, j | 0 <= i < j < |svc.ports| && svc.ports[i].port == svc.ports[j].port
          && TcpPort(svc, svc.ports[j].port)
        ensures HasFrontend(s, prefix, svc.ports[j].port)
      {
        assert SeenF(svc, j, svc.ports[j].port);
      }
      forall i, j | 0 <= i < j < |svc.ports| && svc.ports[i].nodePort == svc.ports[j].nodePort
          && TcpNodePort(svc, svc.ports[j].nodePort)
        ensures HasBackend(s, prefix, svc.ports[j].nodePort)
      {
        assert SeenB(svc, j, svc.ports[j].nodePort) && !Doubled(pl, svc, j);
      }
    } else if k :| 0 <= k < |svc.ports| && Doubled(pl, svc, k) {
      assert SeenB(svc, k, svc.ports[k].nodePort);
    }
  }

  /** Without clashes no turn gets in the way of another. */
  lemma ClashFreeSmooth(inp: Inputs, s: LB, fs: seq<ListedFrontend>, bs: seq<ListedBackend>)
    requires ValidLB(s) && ListsFrontends(fs, s) && ListsBackends(bs, s) && AnnotationsValid(inp.svc)
             && ClashFree(inp.svc, s)
    ensures !Doubles(PlanOf(inp, s, fs, bs), inp.svc) && !Collides(PlanOf(inp, s, fs, bs), inp.svc)
  {
    hide PlanOf, Passing, Doubled, Collides, ClashFree, ListsFrontends, ListsBackends, AnnotationsValid;
    ClashFreeWhen(inp, s, fs, bs);
  }

  lemma MidwayClashFree(inp: Inputs, s0: LB, fs: seq<ListedFrontend>, bs: seq<ListedBackend>, s: LB)
    requires ValidLB(s0) && ListsFrontends(fs, s0) && ListsBackends(bs, s0) && DistinctPorts(inp.svc)
             && AnnotationsValid(inp.svc)
    requires Midway(PlanOf(inp, s0, fs, bs), inp.svc, s) && ClashFree(inp.svc, s0)
    ensures ClashFree(inp.svc, s)
  {
    hide PlanOf, Midway, ListsFrontends, ListsBackends, HasFrontend, HasBackend, TcpPort, TcpNodePort, AnnotationsValid,
         DistinctPorts, PrefixFilter;
    forall p {
      StillLacking(inp, s0, fs, bs, s, p);
    }
  }

  /** In a stable order, a run from an open state goes through open states only. */
  lemma MidwayOpen(inp: Inputs, s0: LB, fs: seq<ListedFrontend>, bs: seq<ListedBackend>, s: LB, order: Order)
    requires Drawn(inp, s0, fs, bs, order) && ValidLB(s)
    requires Midway(PlanOf(inp, s0, fs, bs), inp.svc, s) && !Doubles(PlanOf(inp, s0, fs, bs), inp.svc)
    requires Open(inp.svc, s0, order)
    ensures Open(inp.svc, s, order)
  {
    hide PlanOf, Midway, Doubles, ListsFrontends, ListsBackends, InOrder, Blocked, AnnotationsValid, DistinctPorts,
         ValidLB;
    PlanIgnoresNodes(inp, PlanFor(inp.svc), s0, fs, bs);
    forall fs', bs' | ListsFrontends(fs', s) && ListsBackends(bs', s) && InOrder(fs', order.frontends)
        && InOrder(bs', order.backends)
      ensures !Blocked(PlanOf(PlanFor(inp.svc), s, fs', bs'))
    {
      PlanIgnoresNodes(inp, PlanFor(inp.svc), s, fs', bs');
      MidwayUnblocked(inp, s0, fs, bs, s, fs', bs', order);
    }
  }

  /** What one run saw. */
  datatype Seen = Seen(frontends: seq<ListedFrontend>, backends: seq<ListedBackend>)

  ghost predicate Steady(seen: seq<Seen>, order: Order) {
    forall l | l in seen :: InOrder(l.frontends, order.frontends) && InOrder(l.backends, order.backends)
  }

  /** The start allows for crash recovery: its wiring is the controller's own, or the listings come in a
      stable order that does not block the first run. */
  ghost predicate Recoverable(svc: Service, s: LB, seen: seq<Seen>, order: Order)
    requires ValidLB(s)
  {
    Clean(s, PrefixFilter(svc), PortsOf(svc)) || (Open(svc, s, order) && Steady(seen, order))
  }

  lemma SafeRefl(s: LB, prefix: string, ports: set<int>)
    requires ValidLB(s)
    ensures StepSafe(s, s, prefix, ports)
  {
  }

  lemma MidwayRecoverable(inp: Inputs, s0: LB, seen: Seen, s: LB, order: Order)
    requires ValidLB(s0) && ListsFrontends(seen.frontends, s0) && ListsBackends(seen.backends, s0)
    requires DistinctPorts(inp.svc) && AnnotationsValid(inp.svc)
    requires Midway(PlanOf(inp, s0, seen.frontends, seen.backends), inp.svc, s) && ClashFree(inp.svc, s0)
    ensures StepSafe(s0, s, PrefixFilter(inp.svc), PortsOf(inp.svc)) && ClashFree(inp.svc, s) && ValidLB(s)
    ensures Open(inp.svc, s0, order) && Steady([seen], order) ==> Open(inp.svc, s, order)
  {
    hide PlanOf, PlanFits, Midway, Doubles, ListsFrontends, ListsBackends, InOrder, AnnotationsValid, DistinctPorts,
         ClashFree, Open, Safe, Clean, PrefixFilter;
    var fs, bs := seen.frontends, seen.backends;
    var pl := PlanOf(inp, s0, fs, bs);
    PlanFields(inp, s0, fs, bs);
    ListingPlans(inp, s0, fs, bs);
    PlanSound(pl, inp.svc);
    ClashFreeSmooth(inp, s0, fs, bs);
    MidwaySafe(pl, inp.svc, s, PortsOf(inp.svc));
    StepSafeValid(s0, s, PrefixFilter(inp.svc), PortsOf(inp.svc));
    MidwayClashFree(inp, s0, fs, bs, s);
    if Open(inp.svc, s0, order) && Steady([seen], order) {
      assert seen in [seen];
      MidwayOpen(inp, s0, fs, bs, s, order);
    }
  }

  lemma StepSafeValid(s0: LB, s: LB, prefix: string, ports: set<int>)
    requires StepSafe(s0, s, prefix, ports)
    ensures ValidLB(s) && (Clean(s0, prefix, ports) ==> Clean(s, prefix, ports))
  {
  }

  /** One of many runs: it stays recoverable, and gets through unless an outage stops it. */
  method Round(c: Cloud, svc: Service, nodes: seq<Node>, useInternalIPs: bool, ghost order: Order)
    returns (r: Result<(), Error>, ghost seen: Seen)
    requires DistinctPorts(svc) && Suitable(svc) && c.Valid() && ClashFree(svc, c.lb)
    modifies c
    ensures c.Valid() && ClashFree(svc, c.lb) && old(c.history) <= c.history && old(c.outages) <= c.outages
    ensures StepSafe(old(c.lb), c.lb, PrefixFilter(svc), PortsOf(svc))
    ensures forall i | |old(c.history)| <= i < |c.history| ::
              StepSafe(old(c.lb), c.history[i], PrefixFilter(svc), PortsOf(svc))
    ensures Open(svc, old(c.lb), order) && Steady([seen], order) ==>
              Open(svc, c.lb, order) && forall i | |old(c.history)| <= i < |c.history| ::
                    ValidLB(c.history[i]) && Open(svc, c.history[i], order)
    ensures Recoverable(svc, old(c.lb), [seen], order) ==> r.Ok? || c.outages > old(c.outages)
    ensures r.Ok? && Paired(svc) ==> Converged(InputsOf(svc, nodes, useInternalIPs), c.lb)
  {
    hide PlanOf, PlanFits, Converged, Blocked, Clean, Safe, Sound, PrefixFilter, ListsFrontends, ListsBackends,
         TargetIPs, Midway, Doubles, Collides, Straight;
    hide ClashFree, Open, DistinctPorts, AnnotationsValid, Carried, Paired, InOrder;
    ghost var fs, bs;
    r, fs, bs := UpdateLoadBalancer(c, svc, nodes, useInternalIPs);
    seen := Seen(fs, bs);
    ghost var inp := InputsOf(svc, nodes, useInternalIPs);
    ghost var s0 := old(c.lb);
    SafeRefl(s0, PrefixFilter(svc), PortsOf(svc));
    forall i | |old(c.history)| <= i < |c.history|
      ensures StepSafe(s0, c.history[i], PrefixFilter(svc), PortsOf(svc)) && ClashFree(svc, c.history[i])
              && ValidLB(c.history[i])
      ensures Open(svc, s0, order) && Steady([seen], order) ==> Open(svc, c.history[i], order)
    {
      MidwayRecoverable(inp, s0, seen, c.history[i], order);
    }
    assert c.history != old(c.history) ==> c.lb == c.history[|c.history| - 1];
    if r != Err(Unavailable) {
      ClashFreeSmooth(inp, s0, fs, bs);
      PlanIgnoresNodes(inp, PlanFor(svc), s0, fs, bs);
      if Open(svc, s0, order) && Steady([seen], order) {
        assert seen in [seen];
        OpenListing(svc, s0, fs, bs, order);
      }
      if Paired(svc) {
        PairedStraight(PlanOf(inp, s0, fs, bs), svc);
      }
    } else if c.history != old(c.history) {
      ClashFreeSmooth(inp, s0, fs, bs);
    }
  }

  lemma OpenListing(svc: Service, s: LB, fs: seq<ListedFrontend>, bs: seq<ListedBackend>, order: Order)
    requires ValidLB(s) && Open(svc, s, order) && ListsFrontends(fs, s) && ListsBackends(bs, s)
    requires InOrder(fs, order.frontends) && InOrder(bs, order.backends)
    ensures !Blocked(PlanOf(PlanFor(svc), s, fs, bs))
  {
    hide PlanOf, Blocked, ListsFrontends, ListsBackends, InOrder;
  }

  lemma SteadySplit(seen: seq<Seen>, l: Seen, order: Order)
    ensures Steady(seen + [l], order) <==> Steady(seen, order) && Steady([l], order)
  {
    hide InOrder;
    assert l in seen + [l] && l in [l];
    assert forall x | x in seen :: x in seen + [l];
  }

  /** Runs over and over, each stopped anywhere by an outage, while nodes come and go.  Every state on the
      way is safe.  If the wiring was the controller's own at the start, or the API lists the surviving
      objects in a stable order that did not block the first run, then the first run without an outage
      succeeds.  `rounds` lists the nodes seen by each run; the runs stop at the first success. */
  method Retry(c: Cloud, svc: Service, rounds: seq<seq<Node>>, useInternalIPs: bool, ghost order: Order)
    returns (done: bool, k: nat, ghost seen: seq<Seen>)
    requires DistinctPorts(svc) && Suitable(svc) && c.Valid() && ClashFree(svc, c.lb)
    modifies c
    ensures c.Valid() && old(c.history) <= c.history
    ensures forall i | |old(c.history)| <= i < |c.history| ::
              StepSafe(old(c.lb), c.history[i], PrefixFilter(svc), PortsOf(svc))
    ensures StepSafe(old(c.lb), c.lb, PrefixFilter(svc), PortsOf(svc))
    ensures Open(svc, old(c.lb), order) && Steady(seen, order) ==>
              forall i | |old(c.history)| <= i < |c.history| :: ValidLB(c.history[i]) && Open(svc, c.history[i], order)
    ensures done ==> k < |rounds| && (Paired(svc) ==> Converged(InputsOf(svc, rounds[k], useInternalIPs), c.lb))
    ensures !done ==> k == |rounds|
    ensures Recoverable(svc, old(c.lb), seen, order) ==> c.outages >= old(c.outages) + k
  {
    hide Clean, Safe, Suitable, Converged, PrefixFilter, ClashFree, Open, DistinctPorts, Paired, Steady;
    ghost var prefix, ports := PrefixFilter(svc), PortsOf(svc);
    SafeRefl(c.lb, prefix, ports);
    k, seen := 0, [];
    while k < |rounds|
      invariant 0 <= k <= |rounds|
      invariant c.Valid() && ClashFree(svc, c.lb) && old(c.history) <= c.history
      invariant StepSafe(old(c.lb), c.lb, prefix, ports)
      invariant forall i | |old(c.history)| <= i < |c.history| :: StepSafe(old(c.lb), c.history[i], prefix, ports)
      invariant Open(svc, old(c.lb), order) && Steady(seen, order) ==>
                  Open(svc, c.lb, order) && forall i | |old(c.history)| <= i < |c.history| ::
                        ValidLB(c.history[i]) && Open(svc, c.history[i], order)
      invariant Recoverable(svc, old(c.lb), seen, order) ==> c.outages >= old(c.outages) + k
    {
      ghost var s := c.lb;
      ghost var h := c.history;
      var r;
      ghost var l;
      r, l := Round(c, svc, rounds[k], useInternalIPs, order);
      SteadySplit(seen, l, order);
      StepSafeValid(old(c.lb), s, prefix, ports);
      StepSafeTransitive(old(c.lb), s, c.lb, prefix, ports);
      forall i | |old(c.history)| <= i < |c.history|
        ensures StepSafe(old(c.lb), c.history[i], prefix, ports)
        ensures Open(svc, old(c.lb), order) && Steady(seen + [l], order) ==>
                  ValidLB(c.history[i]) && Open(svc, c.history[i], order)
      {
        if i < |h| {
          assert c.history[i] == h[i];
        } else {
          StepSafeTransitive(old(c.lb), s, c.history[i], prefix, ports);
        }
      }
      seen := seen + [l];
      if r.Ok? {
        return true, k, seen;
      }
      k := k + 1;
    }
    return false, k, seen;
  }

  // ---- Starts on which ports clash ----

  /** Turn j would create the frontend of a port that an earlier turn has created. */
  ghost predicate PortClash(svc: Service, s: LB, j: nat)
    requires j < |svc.ports|
  {
    TcpPort(svc, svc.ports[j].port) && SeenF(svc, j, svc.ports[j].port)
    && !HasFrontend(s, PrefixFilter(svc), svc.ports[j].port)
  }

  ghost function PortClashes(svc: Service, s: LB): set<nat> {
    set j | 0 <= j < |svc.ports| && PortClash(svc, s, j)
  }

  /** No run brings a clash back. */
  lemma ClashesShrink(inp: Inputs, s0: LB, fs: seq<ListedFrontend>, bs: seq<ListedBackend>, s: LB)
    requires ValidLB(s0) && ListsFrontends(fs, s0) && ListsBackends(bs, s0) && DistinctPorts(inp.svc)
             && AnnotationsValid(inp.svc)
    requires Midway(PlanOf(inp, s0, fs, bs), inp.svc, s)
    ensures PortClashes(inp.svc, s) <= PortClashes(inp.svc, s0)
  {
    hide PlanOf, Midway, ListsFrontends, ListsBackends, HasFrontend, HasBackend, TcpPort, TcpNodePort, AnnotationsValid,
         DistinctPorts, PrefixFilter, SeenF;
    forall j | 0 <= j < |inp.svc.ports| && PortClash(inp.svc, s, j) ensures PortClash(inp.svc, s0, j) {
      StillLacking(inp, s0, fs, bs, s, inp.svc.ports[j].port);
    }
  }

  /** The first turn that does not get through. */
  lemma FirstStop(pl: Plan, svc: Service, n: nat) returns (k: nat)
    requires n <= |svc.ports| && exists j | 0 <= j < n :: !Passing(pl, svc, j)
    ensures k < n && !Passing(pl, svc, k) && forall j | 0 <= j < k :: Passing(pl, svc, j)
  {
    hide Passing;
    k := 0;
    while Passing(pl, svc, k)
      invariant 0 <= k < n && forall j | 0 <= j < k :: Passing(pl, svc, j)
      invariant exists j | k <= j < n :: !Passing(pl, svc, j)
      decreases n - k
    {
      k := k + 1;
    }
  }

  /** A run that is turned down for a clash settles it: the turn before has put its frontend in service. */
  lemma ClashSettled(inp: Inputs, s0: LB, fs: seq<ListedFrontend>, bs: seq<ListedBackend>, s: LB)
    requires ValidLB(s0) && ListsFrontends(fs, s0) && ListsBackends(bs, s0) && DistinctPorts(inp.svc)
             && Suitable(inp.svc)
    requires var pl := PlanOf(inp, s0, fs, bs); !Blocked(pl) && Collides(pl, inp.svc) && ReachedServed(pl, inp, s)
    ensures exists k | k in PortClashes(inp.svc, s0) :: k !in PortClashes(inp.svc, s)
  {
    hide PlanOf, PlanFits, Passing, Carried, ListsFrontends, ListsBackends, HasFrontend, AnnotationsValid,
         DistinctPorts, InService, Turn, TcpPort, PortTaken, StillReferenced, Collides;
    var pl, svc := PlanOf(inp, s0, fs, bs), inp.svc;
    PlanFields(inp, s0, fs, bs);
    ListingPlans(inp, s0, fs, bs);
    AllPassing(pl, svc);
    var k := FirstStop(pl, svc, |svc.ports|);
    var i := StoppedBy(pl, svc, k);
    LackingPort(inp, s0, fs, bs, svc.ports[k].port);
    assert Reached(pl, svc, i);
    ServedHas(inp, s, i);
    assert SeenF(svc, k, svc.ports[k].port);
    assert PortClash(svc, s0, k) && !PortClash(svc, s, k);
    assert k in PortClashes(svc, s0) && k !in PortClashes(svc, s);
  }

  lemma StoppedBy(pl: Plan, svc: Service, k: nat) returns (i: nat)
    requires PlanFits(pl, svc) && Carried(svc) && !PortTaken(pl) && k < |svc.ports| && !Passing(pl, svc, k)
    ensures i < k && svc.ports[i].port == svc.ports[k].port && svc.ports[k].port in pl.newF
  {
    hide PlanFits, TcpPort, TcpNodePort, PortTaken;
    PlanDistinct(pl, svc);
    TurnIs(svc, k);
    TurnNumbers(svc, k);
    TakenMeans(pl, svc);
    i :| 0 <= i < k && svc.ports[i].port == svc.ports[k].port;
  }

  lemma ServedHas(inp: Inputs, s: LB, i: nat)
    requires i < |inp.svc.ports| && InService(inp, s, Turn(inp.svc, i))
    ensures HasFrontend(s, PrefixFilter(inp.svc), inp.svc.ports[i].port)
  {
    hide AclsMatch, StringArrayEqual, FrontendName, PrefixFilter, Managed;
    var p := Turn(inp.svc, i);
    NamesManaged(inp.svc, p);
    var f :| f in s.frontends && FrontendMatches(inp.svc, p, s.frontends[f]);
  }

  /** A run from a state, with the listings it worked from. */
  datatype Visit = Visit(start: LB, seen: Seen)

  ghost predicate BlockedVisit(svc: Service, v: Visit) {
    && ValidLB(v.start) && ListsFrontends(v.seen.frontends, v.start) && ListsBackends(v.seen.backends, v.start)
    && Blocked(PlanOf(PlanFor(svc), v.start, v.seen.frontends, v.seen.backends))
  }

  /** One run, whatever clashes: it is stopped by an outage or a blocking listing, or it settles a clash. */
  method SettlingRound(c: Cloud, svc: Service, nodes: seq<Node>, useInternalIPs: bool)
    returns (r: Result<(), Error>, ghost seen: Seen)
    requires DistinctPorts(svc) && Suitable(svc) && c.Valid()
    modifies c
    ensures c.Valid() && old(c.history) <= c.history && old(c.outages) <= c.outages
    ensures c.history == old(c.history) ==> c.lb == old(c.lb)
    ensures PortClashes(svc, c.lb) <= PortClashes(svc, old(c.lb))
    ensures r.Err? ==> || c.outages > old(c.outages) || BlockedVisit(svc, Visit(old(c.lb), seen))
                       || PortClashes(svc, c.lb) < PortClashes(svc, old(c.lb))
  {
    hide PlanOf, PortClashes, Carried, DistinctPorts, AnnotationsValid, Blocked, Collides, ListsFrontends,
         ListsBackends, Midway, ReachedServed;
    hide Safe, Sound, Converged, Clean, Doubles, Straight, StepSafe;
    ghost var fs, bs;
    r, fs, bs := UpdateLoadBalancer(c, svc, nodes, useInternalIPs);
    seen := Seen(fs, bs);
    ghost var inp, s0 := InputsOf(svc, nodes, useInternalIPs), old(c.lb);
    if c.history != old(c.history) {
      assert c.lb == c.history[|c.history| - 1];
      ClashesShrink(inp, s0, fs, bs, c.lb);
    }
    if r.Err? && r.error != Unavailable {
      PlanIgnoresNodes(inp, PlanFor(svc), s0, fs, bs);
      if !Blocked(PlanOf(inp, s0, fs, bs)) {
        ClashSettled(inp, s0, fs, bs, c.lb);
      }
    }
  }

  /** Over many runs, from any start: unless a listing blocked one, every run that did not get through is
      down to an outage, or to a clash of ports that it settled for good. */
  method Settle(c: Cloud, svc: Service, rounds: seq<seq<Node>>, useInternalIPs: bool)
    returns (done: bool, k: nat, ghost visits: seq<Visit>)
    requires DistinctPorts(svc) && Suitable(svc) && c.Valid()
    modifies c
    ensures c.Valid() && k <= |rounds| && (!done ==> k == |rounds|)
    ensures forall v | v in visits :: v.start == old(c.lb) || v.start in c.history
    ensures PortClashes(svc, c.lb) <= PortClashes(svc, old(c.lb))
    ensures (forall v | v in visits :: !BlockedVisit(svc, v)) ==>
              k <= (c.outages - old(c.outages)) + |PortClashes(svc, old(c.lb)) - PortClashes(svc, c.lb)|
  {
    hide PortClashes, Suitable, DistinctPorts, BlockedVisit;
    ghost var start := PortClashes(svc, c.lb);
    k, visits := 0, [];
    while k < |rounds|
      invariant 0 <= k <= |rounds| && c.Valid() && old(c.outages) <= c.outages && old(c.history) <= c.history
      invariant c.lb == old(c.lb) || c.lb in c.history
      invariant forall v | v in visits :: v.start == old(c.lb) || v.start in c.history
      invariant PortClashes(svc, c.lb) <= start
      invariant (forall v | v in visits :: !BlockedVisit(svc, v)) ==>
                  k <= (c.outages - old(c.outages)) + |start - PortClashes(svc, c.lb)|
    {
      ghost var before := PortClashes(svc, c.lb);
      ghost var s, h := c.lb, c.history;
      var r;
      ghost var seen;
      r, seen := SettlingRound(c, svc, rounds[k], useInternalIPs);
      assert forall x | x in h :: x in c.history;
      visits := visits + [Visit(s, seen)];
      assert Visit(s, seen) in visits;
      CountSettled(start, before, PortClashes(svc, c.lb));
      if r.Ok? {
        return true, k, visits;
      }
      k := k + 1;
    }
    return false, k, visits;
  }

  lemma CountSettled(start: set<nat>, before: set<nat>, after: set<nat>)
    requires after <= before <= start
    ensures |start - after| >= |start - before| + (if after < before then 1 else 0)
  {
    assert start - after == (start - before) + (before - after);
    assert (start - before) !! (before - after);
    if after < before {
      var x :| x in before && x !in after;
      assert x in before - after;
    }
  }

  // ---- One final configuration ----

  datatype FrontendFacts = FrontendFacts(
    name: string, port: int, settings: Settings, certs: multiset<string>, forwardPort: int, rules: seq<RuleFacts>)
  datatype BackendFacts = BackendFacts(name: string, port: int, settings: Settings, healthCheck: Settings,
      pool: multiset<string>)

  /** The managed frontends and backends, without their identifiers and list orders.  Of the rules of a
      frontend, those that bear its ACL prefix count. */
  ghost function FrontendConfigs(s: LB, prefix: string): set<FrontendFacts>
    requires ValidLB(s)
  {
    set f | f in s.frontends && Managed(s.frontends[f].name, prefix) :: FactsOfFrontend(s, f)
  }

  ghost function FactsOfFrontend(s: LB, f: Id): FrontendFacts
    requires ValidLB(s) && f in s.frontends
  {
    var x := s.frontends[f];
    FrontendFacts(x.name, x.inboundPort, x.settings, multiset(x.certs), s.backends[x.backendId].forwardPort,
                  FactsOfRules(SortByIndex(ListNamed(x.acls, AclPrefix(x.id)))))
  }

  ghost function BackendConfigs(s: LB, prefix: string): set<BackendFacts> {
    set b | b in s.backends && Managed(s.backends[b].name, prefix) :: FactsOfBackend(s.backends[b])
  }

  ghost function FactsOfBackend(b: Backend): BackendFacts {
    BackendFacts(b.name, b.forwardPort, b.settings, b.healthCheck, multiset(b.pool))
  }

  lemma ServedFacts(inp: Inputs, s: LB, p: ServicePort, f: Id, b: Id)
    requires ValidLB(s) && Usable(p) && Serves(inp, s, p, f, b)
    ensures FactsOfFrontend(s, f) == FrontendFacts(FrontendName(inp.svc, p), p.port, p.frontend.value.settings,
                                                   multiset(p.frontend.value.certs), p.nodePort,
                                                   FactsOfRules(SortByIndex(Specs(inp.svc.ranges, inp.nodes, 0))))
    ensures FactsOfBackend(s.backends[b]) == BackendFacts(BackendName(inp.svc, p), p.nodePort, p.backend.value.settings,
                                                          p.backend.value.healthCheck, multiset(inp.targets.Elems()))
  {
    hide Specs, RulesEqual, FactsOfRules, SortByIndex, ListNamed, FrontendName, BackendName;
    StringArrayEqualIsPermutation(Items(s.frontends[f].certs), Items(p.frontend.value.certs));
    RulesEqualFacts(ListNamed(s.frontends[f].acls, AclPrefix(f)), Specs(inp.svc.ranges, inp.nodes, f));
    SpecsFacts(inp.svc.ranges, inp.nodes, f, 0);
  }

  lemma SameFrontends(inp: Inputs, s1: LB, s2: LB)
    requires Converged(inp, s1) && Converged(inp, s2)
    ensures FrontendConfigs(s1, PrefixFilter(inp.svc)) <= FrontendConfigs(s2, PrefixFilter(inp.svc))
  {
    hide Serves, FactsOfFrontend;
    forall f | f in s1.frontends && Managed(s1.frontends[f].name, PrefixFilter(inp.svc))
      ensures FactsOfFrontend(s1, f) in FrontendConfigs(s2, PrefixFilter(inp.svc))
    {
      var i :| 0 <= i < |inp.svc.ports| && inp.svc.ports[i].protocol == TCP
          && inp.svc.ports[i].port == s1.frontends[f].inboundPort;
      assert PortServed(inp, s1, inp.svc.ports[i]) && PortServed(inp, s2, inp.svc.ports[i]);
      var f1, b1 :| Serves(inp, s1, inp.svc.ports[i], f1, b1);
      var f2, b2 :| Serves(inp, s2, inp.svc.ports[i], f2, b2);
      ServedFrontend(inp, s1, inp.svc.ports[i], f1, b1);
      ServedFrontend(inp, s2, inp.svc.ports[i], f2, b2);
      ServedFacts(inp, s1, inp.svc.ports[i], f1, b1);
      ServedFacts(inp, s2, inp.svc.ports[i], f2, b2);
    }
  }

  lemma ServedFrontend(inp: Inputs, s: LB, p: ServicePort, f: Id, b: Id)
    requires Usable(p) && Serves(inp, s, p, f, b)
    ensures f in s.frontends && s.frontends[f].inboundPort == p.port
            && Managed(s.frontends[f].name, PrefixFilter(inp.svc))
    ensures b in s.backends && s.backends[b].forwardPort == p.nodePort
            && Managed(s.backends[b].name, PrefixFilter(inp.svc))
  {
  }

  lemma SameBackends(inp: Inputs, s1: LB, s2: LB)
    requires Converged(inp, s1) && Converged(inp, s2)
    ensures BackendConfigs(s1, PrefixFilter(inp.svc)) <= BackendConfigs(s2, PrefixFilter(inp.svc))
  {
    hide Serves, FactsOfBackend;
    forall b | b in s1.backends && Managed(s1.backends[b].name, PrefixFilter(inp.svc))
      ensures FactsOfBackend(s1.backends[b]) in BackendConfigs(s2, PrefixFilter(inp.svc))
    {
      var i :| 0 <= i < |inp.svc.ports| && inp.svc.ports[i].protocol == TCP
          && inp.svc.ports[i].nodePort == s1.backends[b].forwardPort;
      assert PortServed(inp, s1, inp.svc.ports[i]) && PortServed(inp, s2, inp.svc.ports[i]);
      var f1, b1 :| Serves(inp, s1, inp.svc.ports[i], f1, b1);
      var f2, b2 :| Serves(inp, s2, inp.svc.ports[i], f2, b2);
      ServedFrontend(inp, s1, inp.svc.ports[i], f1, b1);
      ServedFrontend(inp, s2, inp.svc.ports[i], f2, b2);
      ServedFacts(inp, s1, inp.svc.ports[i], f1, b1);
      ServedFacts(inp, s2, inp.svc.ports[i], f2, b2);
    }
  }

  /** The wanted state is unique up to identifiers and list orders: whatever partial state a retry
      starts from, the managed configuration it ends in is the same. */
  lemma OneConfiguration(inp: Inputs, s1: LB, s2: LB)
    requires Converged(inp, s1) && Converged(inp, s2)
    ensures FrontendConfigs(s1, PrefixFilter(inp.svc)) == FrontendConfigs(s2, PrefixFilter(inp.svc))
    ensures BackendConfigs(s1, PrefixFilter(inp.svc)) == BackendConfigs(s2, PrefixFilter(inp.svc))
  {
    SameFrontends(inp, s1, s2);
    SameFrontends(inp, s2, s1);
    SameBackends(inp, s1, s2);
    SameBackends(inp, s2, s1);
  }

  /** On a load balancer of its own, the controller's success leaves the wiring clean. */
  lemma ConvergedIsClean(inp: Inputs, s: LB)
    requires Converged(inp, s) && !inp.svc.externallyManaged
    ensures Clean(s, PrefixFilter(inp.svc), PortsOf(inp.svc))
  {
    forall name: string ensures Managed(name, PrefixFilter(inp.svc)) {
    }
  }

  // ---- A listing that blocks ----

  /** A kept frontend wired to the second of two managed backends of its port blocks the run: the
      first one listed is taken for the port's, and the other cannot be deleted. */
  lemma SecondBackendBlocks(inp: Inputs, s0: LB, fs: seq<ListedFrontend>, bs: seq<ListedBackend>, i: nat, f: Id, a: nat,
                            b: nat)
    requires ValidLB(s0) && ListsFrontends(fs, s0) && ListsBackends(bs, s0)
    requires DistinctPorts(inp.svc) && AnnotationsValid(inp.svc) && i < |inp.svc.ports|
             && inp.svc.ports[i].protocol == TCP
    requires f in PlanOf(inp, s0, fs, bs).ownF.Values && f in s0.frontends
    requires FrontendEquals(ViewFrontend(s0, s0.frontends[f]), FrontendTarget(inp.svc, inp.svc.ports[i]))
    requires a < b < |bs| && Managed(bs[a].name, PrefixFilter(inp.svc)) && Managed(bs[b].name, PrefixFilter(inp.svc))
    requires bs[a].port == bs[b].port && s0.frontends[f].backendId == bs[b].id
    ensures Blocked(PlanOf(inp, s0, fs, bs))
  {
    hide PlanFits, FrontendTarget, ListsFrontends, ListsBackends, Managed;
    var pl := PlanOf(inp, s0, fs, bs);
    FrontendPlan(inp, s0, fs, bs);
    EqualPort(ViewFrontend(s0, s0.frontends[f]), FrontendTarget(inp.svc, inp.svc.ports[i]), inp.svc, inp.svc.ports[i]);
    FrontendPort(inp, s0, fs, bs, i);
    SecondRemoved(inp, s0, fs, bs, a, b);
    assert Untouched(pl, f);
  }

  lemma EqualPort(got: ListedFrontend, want: ListedFrontend, svc: Service, p: ServicePort)
    requires FrontendEquals(got, want) && Usable(p) && want == FrontendTarget(svc, p)
    ensures got.port == p.port
  {
  }

  lemma SecondRemoved(inp: Inputs, s0: LB, fs: seq<ListedFrontend>, bs: seq<ListedBackend>, a: nat, b: nat)
    requires ValidLB(s0) && ListsBackends(bs, s0)
    requires a < b < |bs| && Managed(bs[a].name, PrefixFilter(inp.svc)) && Managed(bs[b].name, PrefixFilter(inp.svc))
    requires bs[a].port == bs[b].port
    ensures bs[b].id in PlanOf(inp, s0, fs, bs).remB
  {
    hide BackendTargets, PrefixFilter, BackendEquals;
    SurplusIn(bs, BackendTargets(inp.svc, |inp.svc.ports|, inp.targets), PrefixFilter(inp.svc), bs[b]);
    FirstIsFirst(bs, PrefixFilter(inp.svc), bs[b].port);
  }

  /** Such a state, in full: one port, its frontend, and two equal backends of which the frontend uses
      the one listed last.  Frontends are compared by forward port, so the frontend is kept. */
  function ExamplePort(): ServicePort {
    ServicePort(TCP, 80, 30080, Some(FrontendConfig(Settings(map[]), [])),
        Some(BackendConfig(Settings(map[]), Settings(map[]))))
  }

  function ExampleInputs(): Inputs {
    Inputs(Service("uid", [ExamplePort()], false, []), [Node([Address(InternalIP, "10.0.0.1")])], Items(["10.0.0.1"]))
  }

  function ExampleBackend(id: Id): Backend {
    Backend(id, BackendName(ExampleInputs().svc, ExamplePort()), 30080, Settings(map[]), Settings(map[]), ["10.0.0.1"])
  }

  function ExampleState(): LB {
    LB(map[3 := Frontend(3, FrontendName(ExampleInputs().svc, ExamplePort()), 80, 2, Settings(map[]), [], [])],
       map[1 := ExampleBackend(1), 2 := ExampleBackend(2)])
  }

  function ExampleFrontends(): seq<ListedFrontend> {
    [ViewFrontend(ExampleState(), ExampleState().frontends[3])]
  }

  lemma ExampleBlocked(bs: seq<ListedBackend>)
    requires bs == [ViewBackend(ExampleBackend(1)), ViewBackend(ExampleBackend(2))]
    ensures ListsFrontends(ExampleFrontends(), ExampleState()) && ListsBackends(bs, ExampleState())
    ensures Blocked(PlanOf(ExampleInputs(), ExampleState(), ExampleFrontends(), bs))
  {
    hide FrontendName, BackendName, PlanOf;
    var fs := ExampleFrontends();
    assert fs[0] in fs && bs[0] in bs && bs[1] in bs;
    ExampleOwner(bs);
    SecondBackendBlocks(ExampleInputs(), ExampleState(), fs, bs, 0, 3, 0, 1);
  }

  lemma ExampleOwner(bs: seq<ListedBackend>)
    requires bs == [ViewBackend(ExampleBackend(1)), ViewBackend(ExampleBackend(2))]
    ensures 3 in PlanOf(ExampleInputs(), ExampleState(), ExampleFrontends(), bs).ownF.Values
  {
    hide FrontendName, BackendName, BackendOps, FrontendTargets, Surplus, FrontendEquals;
    var fs := ExampleFrontends();
    ExampleTargets();
    FirstIsFirst(fs, "", 80);
    assert fs[0].port == 80 && Managed(fs[0].name, "");
    var pl := PlanOf(ExampleInputs(), ExampleState(), fs, bs);
    assert 80 in pl.ownF && pl.ownF[80] == 3;
  }

  /** The same load balancer before its frontend was brought up to date. */
  function InterruptedState(): LB {
    PutFrontend(ExampleState(), ExampleState().frontends[3].(settings := Settings(map["timeout" := "1s"])))
  }

  function InterruptedFrontends(): seq<ListedFrontend> {
    [ViewFrontend(InterruptedState(), InterruptedState().frontends[3])]
  }

  /** Outside the controller's own wiring recovery rests on a stable listing order.  Listed with backend 2
      in front, the run is not blocked: it takes backend 2 for the port's, which needs nothing, and its first
      call rewrites frontend 3 on it.  Stopped right there, it leaves a load balancer that is blocked once the
      backends are listed the other way round. */
  lemma UnsteadyListing()
    ensures var inp, s0 := ExampleInputs(), InterruptedState();
            var fs, bs := InterruptedFrontends(), [ViewBackend(ExampleBackend(2)), ViewBackend(ExampleBackend(1))];
            var pl, p := PlanOf(inp, s0, fs, bs), ExamplePort();
            && ValidLB(s0) && ListsFrontends(fs, s0) && ListsBackends(bs, s0) && !Blocked(pl)
            && pl.remF == {} && 30080 in pl.keptB && 30080 in pl.ownB && pl.ownB[30080] == 2 && QuietB(pl, inp, p)
            && 80 in FrontendOps(inp, fs).update
            && FrontendOps(inp, fs).update[80] == FrontendTarget(inp.svc, p).(id := 3)
    ensures var f := InterruptedState().frontends[3].(
                       name := FrontendName(ExampleInputs().svc, ExamplePort()), backendId := 2,
                       settings := ExamplePort().frontend.value.settings, certs := ExamplePort().frontend.value.certs);
            PutFrontend(InterruptedState(), f) == ExampleState()
    ensures Blocked(PlanOf(ExampleInputs(), ExampleState(), ExampleFrontends(),
                           [ViewBackend(ExampleBackend(1)), ViewBackend(ExampleBackend(2))]))
  {
    hide *;
    ExampleBlocked([ViewBackend(ExampleBackend(1)), ViewBackend(ExampleBackend(2))]);
    InterruptedLists();
    InterruptedBackend();
    InterruptedFrontend();
    InterruptedUnblocked();
    InterruptedUpdate();
    InterruptedQuiet();
    NothingSurplus();
  }

  /** The run has no frontend to delete, and no call to make for the backend. */
  lemma InterruptedQuiet()
    ensures var bs := [ViewBackend(ExampleBackend(2)), ViewBackend(ExampleBackend(1))];
            QuietB(PlanOf(ExampleInputs(), InterruptedState(), InterruptedFrontends(), bs), ExampleInputs(),
                ExamplePort())
  {
    hide PlanOf, FrontendName, BackendName;
    var s0, bs := InterruptedState(), [ViewBackend(ExampleBackend(2)), ViewBackend(ExampleBackend(1))];
    InterruptedBackend();
    PlanFields(ExampleInputs(), s0, InterruptedFrontends(), bs);
    assert s0.backends[2] == ExampleBackend(2);
    StringArrayEqualIsPermutation(Items(["10.0.0.1"]), Items(["10.0.0.1"]));
  }

  lemma NothingSurplus()
    ensures PlanOf(ExampleInputs(), InterruptedState(), InterruptedFrontends(),
                   [ViewBackend(ExampleBackend(2)), ViewBackend(ExampleBackend(1))]).remF == {}
  {
    hide FrontendName, BackendName, BackendOps, FrontendTargets, FrontendEquals;
    ExampleTargets();
    var fs, want := InterruptedFrontends(), FrontendTargets(ExampleInputs().svc, 1);
    assert fs[..0] == [] && fs[0].port == 80 && 80 in want;
    assert Surplus(fs, want, "") == [];
    assert FrontendOps(ExampleInputs(), fs).remove == [];
  }

  lemma InterruptedUpdate()
    ensures var f := InterruptedState().frontends[3].(
                       name := FrontendName(ExampleInputs().svc, ExamplePort()), backendId := 2,
                       settings := ExamplePort().frontend.value.settings, certs := ExamplePort().frontend.value.certs);
            PutFrontend(InterruptedState(), f) == ExampleState()
  {
    hide FrontendName, BackendName;
  }

  lemma InterruptedUnblocked()
    ensures !Blocked(PlanOf(ExampleInputs(), InterruptedState(), InterruptedFrontends(),
            [ViewBackend(ExampleBackend(2)), ViewBackend(ExampleBackend(1))]))
  {
    hide PlanOf, FrontendName, BackendName;
    InterruptedFrontend();
    ExampleTargets();
    var s0, bs := InterruptedState(), [ViewBackend(ExampleBackend(2)), ViewBackend(ExampleBackend(1))];
    var pl := PlanOf(ExampleInputs(), s0, InterruptedFrontends(), bs);
    PlanFields(ExampleInputs(), s0, InterruptedFrontends(), bs);
    assert forall f | f in s0.frontends ::
             f == 3 && Ours(s0.frontends[f].name, pl) && s0.frontends[f].inboundPort == 80;
  }

  lemma InterruptedLists()
    ensures ValidLB(InterruptedState()) && ListsFrontends(InterruptedFrontends(), InterruptedState())
    ensures ListsBackends([ViewBackend(ExampleBackend(2)), ViewBackend(ExampleBackend(1))], InterruptedState())
  {
    hide FrontendName, BackendName;
    var fs, bs := InterruptedFrontends(), [ViewBackend(ExampleBackend(2)), ViewBackend(ExampleBackend(1))];
    assert fs[0] in fs && bs[0] in bs && bs[1] in bs;
  }

  lemma ExampleTargets()
    ensures var svc := ExampleInputs().svc;
            && svc.ports[0] == ExamplePort() && PrefixFilter(svc) == ""
            && FrontendTargets(svc, 1) == map[80 := FrontendTarget(svc, ExamplePort())]
            && BackendTargets(svc, 1, ExampleInputs().targets)
                == map[30080 := BackendTarget(svc, ExamplePort(), ExampleInputs().targets)]
  {
    hide FrontendName, BackendName;
    var svc := ExampleInputs().svc;
    assert FrontendTargets(svc, 0) == map[] && BackendTargets(svc, 0, ExampleInputs().targets) == map[];
  }

  lemma InterruptedBackend()
    ensures var pl := PlanOf(ExampleInputs(), InterruptedState(), InterruptedFrontends(),
            [ViewBackend(ExampleBackend(2)), ViewBackend(ExampleBackend(1))]);
            30080 in pl.keptB && 30080 in pl.ownB && pl.ownB[30080] == 2
  {
    hide FrontendName, BackendName, FrontendOps, BackendTargets, FrontendTargets, Surplus;
    var bs := [ViewBackend(ExampleBackend(2)), ViewBackend(ExampleBackend(1))];
    ExampleTargets();
    FirstIsFirst(bs, "", 30080);
    assert bs[0].port == 30080 && Managed(bs[0].name, "");
  }

  lemma InterruptedFrontend()
    ensures var pl := PlanOf(ExampleInputs(), InterruptedState(), InterruptedFrontends(),
            [ViewBackend(ExampleBackend(2)), ViewBackend(ExampleBackend(1))]);
            80 !in pl.keptF
    ensures 80 in FrontendOps(ExampleInputs(), InterruptedFrontends()).update
    ensures FrontendOps(ExampleInputs(), InterruptedFrontends()).update[80]
            == FrontendTarget(ExampleInputs().svc, ExamplePort()).(id := 3)
  {
    hide FrontendName, BackendName, BackendOps, FrontendTargets, Surplus, StringArrayEqual;
    var fs := InterruptedFrontends();
    ExampleTargets();
    FirstIsFirst(fs, "", 80);
    assert fs[0].port == 80 && Managed(fs[0].name, "");
    assert Settings(map["timeout" := "1s"]) != Settings(map[]) by {
      assert "timeout" in map["timeout" := "1s"];
    }
  }
}
