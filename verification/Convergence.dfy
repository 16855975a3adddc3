/** The state a service asks for, and what it has to do with a finished run. */
module Convergence {
  import opened Basics
  import opened Sorting
  import opened Acl
  import opened Diff
  import opened LoadBalancer
  import opened Plan
  import opened PortState
  import opened Reconcile
  import opened Planning

  ghost function NodePortsOf(svc: Service): set<int> {
    set i | 0 <= i < |svc.ports| && svc.ports[i].protocol == TCP :: svc.ports[i].nodePort
  }

  /** Managed frontend f and managed backend b serve the port: names, settings, certificates, rules
      and pool are the wanted ones, and traffic for the port goes to its node port, through b unless
      someone else's backend already takes it there. */
  ghost predicate Serves(inp: Inputs, s: LB, p: ServicePort, f: Id, b: Id)
    requires Usable(p)
  {
    && f in s.frontends && Managed(s.frontends[f].name, PrefixFilter(inp.svc))
    && b in s.backends && Managed(s.backends[b].name, PrefixFilter(inp.svc))
    && FrontendMatches(inp.svc, p, s.frontends[f]) && AclsMatch(inp, s.frontends[f])
    && BackendMatches(inp.svc, p, s.backends[b]) && PoolMatches(inp.targets, s.backends[b])
    && ForwardsTo(s, s.frontends[f], p.nodePort)
    && (s.frontends[f].backendId == b || !Managed(s.backends[s.frontends[f].backendId].name, PrefixFilter(inp.svc)))
  }

  /** What serving a port comes down to, field by field. */
  lemma ServesMeans(inp: Inputs, s: LB, p: ServicePort, f: Id, b: Id)
    requires Usable(p) && p.protocol == TCP && ValidLB(s) && f in s.frontends && b in s.backends
    ensures Serves(inp, s, p, f, b) <==>
            var front, back, behind := s.frontends[f], s.backends[b], s.backends[s.frontends[f].backendId];
            && front.name == inp.svc.uid + "_tcp_" + Itoa(p.port) && front.inboundPort == p.port
            && front.settings == p.frontend.value.settings
            && multiset(front.certs) == multiset(p.frontend.value.certs)
            && RulesEqual(ListNamed(front.acls, AclPrefix(f)), Specs(inp.svc.ranges, inp.nodes, f))
            && back.name == inp.svc.uid + "_tcp_" + Itoa(p.nodePort) && back.forwardPort == p.nodePort
            && back.settings == p.backend.value.settings && back.healthCheck == p.backend.value.healthCheck
            && multiset(back.pool) == multiset(inp.targets.Elems())
            && behind.forwardPort == p.nodePort
            && (behind == back || (inp.svc.externallyManaged && !(inp.svc.uid + "_" <= behind.name)))
  {
    hide FrontendName, BackendName, RulesEqual, ListNamed, Specs, AclPrefix, StringArrayEqual, Itoa, PrefixFilter;
    NamesSpelt(inp.svc, p);
    NamesManaged(inp.svc, p);
    StringArrayEqualIsPermutation(Items(s.frontends[f].certs), Items(p.frontend.value.certs));
    PrefixFilterMeans(inp.svc, s.backends[s.frontends[f].backendId].name);
    HasPrefixMeans(s.backends[s.frontends[f].backendId].name, inp.svc.uid + "_");
  }

  ghost predicate OneFrontendPerPort(svc: Service, s: LB) {
    && (forall f | f in s.frontends && Managed(s.frontends[f].name, PrefixFilter(svc)) ::
          s.frontends[f].inboundPort in PortsOf(svc))
    && (forall f, g | f in s.frontends && g in s.frontends && Managed(s.frontends[f].name, PrefixFilter(svc))
          && Managed(s.frontends[g].name, PrefixFilter(svc))
          && s.frontends[f].inboundPort == s.frontends[g].inboundPort :: f == g)
  }

  ghost predicate OneBackendPerNodePort(svc: Service, s: LB) {
    && (forall b | b in s.backends && Managed(s.backends[b].name, PrefixFilter(svc)) ::
          s.backends[b].forwardPort in NodePortsOf(svc))
    && (forall a, b | a in s.backends && b in s.backends && Managed(s.backends[a].name, PrefixFilter(svc))
          && Managed(s.backends[b].name, PrefixFilter(svc))
          && s.backends[a].forwardPort == s.backends[b].forwardPort :: a == b)
  }

  /** Exactly one managed frontend per TCP port and one managed backend per node port, each as wanted. */
  ghost predicate Converged(inp: Inputs, s: LB) {
    && ValidLB(s)
    && OneFrontendPerPort(inp.svc, s)
    && OneBackendPerNodePort(inp.svc, s)
    && (forall i | 0 <= i < |inp.svc.ports| && inp.svc.ports[i].protocol == TCP :: PortServed(inp, s, inp.svc.ports[i]))
  }

  ghost predicate PortServed(inp: Inputs, s: LB, p: ServicePort) {
    Usable(p) && exists f, b :: Serves(inp, s, p, f, b)
  }

  // ---- A finished run ----

  ghost predicate TurnDone(inp: Inputs, s: LB, o: Roles, j: nat)
    requires j < |inp.svc.ports|
  {
    BackendDone(inp, s, o.b, Turn(inp.svc, j)) && FrontendDone(inp, s, o.f, Turn(inp.svc, j))
  }

  /** The frontend of each port is kept, or sits where the last turn on its port left it. */
  ghost predicate AllWired(pl: Plan, inp: Inputs, s: LB, o: Roles) {
    forall j | 0 <= j < |inp.svc.ports| && Latest(inp.svc, |inp.svc.ports|, j) ::
      Wired(pl, s, o.f, inp.svc.ports[j].port, inp.svc.ports[j].nodePort)
  }

  /** All turns done and all surplus backends gone. */
  ghost predicate Finished(pl: Plan, inp: Inputs, s: LB, o: Roles) {
    && Core(pl, s, o, pl.remB)
    && (forall j | 0 <= j < |inp.svc.ports| :: TurnDone(inp, s, o, j))
    && AllWired(pl, inp, s, o)
    && Passed(pl, inp.svc, o, |inp.svc.ports|)
  }

  lemma OwnedFrontend(pl: Plan, svc: Service, s: LB, o: Roles, gone: set<Id>, f: Id)
    requires PlanFits(pl, svc) && Core(pl, s, o, gone) && f in s.frontends && Ours(s.frontends[f].name, pl)
    ensures var p := s.frontends[f].inboundPort; p in o.f && o.f[p] == f && TcpPort(svc, p)
  {
    hide TurnFits, CoreBackends, ForeignUntouched;
  }

  lemma OwnedBackend(pl: Plan, svc: Service, s: LB, o: Roles, b: Id)
    requires PlanFits(pl, svc) && Core(pl, s, o, pl.remB) && o.strays == {} && b in s.backends
             && Ours(s.backends[b].name, pl)
    ensures var q := s.backends[b].forwardPort; q in o.b && o.b[q] == b && TcpNodePort(svc, q)
  {
    hide TurnFits, CoreFrontends, ForeignUntouched;
  }

  lemma PlanPrefix(pl: Plan, svc: Service)
    requires PlanFits(pl, svc)
    ensures pl.prefix == PrefixFilter(svc)
  {
  }

  lemma FrontendsCount(pl: Plan, inp: Inputs, s: LB, o: Roles)
    requires PlanFits(pl, inp.svc) && Core(pl, s, o, pl.remB)
    ensures OneFrontendPerPort(inp.svc, s)
  {
    hide PlanFits, Core, Managed, PrefixFilter, PortsOf, TcpPort;
    PlanPrefix(pl, inp.svc);
    forall f | f in s.frontends && Managed(s.frontends[f].name, PrefixFilter(inp.svc))
      ensures s.frontends[f].inboundPort in PortsOf(inp.svc)
      ensures s.frontends[f].inboundPort in o.f && o.f[s.frontends[f].inboundPort] == f
    {
      OwnedFrontend(pl, inp.svc, s, o, pl.remB, f);
      TcpPortIn(inp.svc, s.frontends[f].inboundPort);
    }
  }

  lemma TcpPortIn(svc: Service, p: int)
    ensures TcpPort(svc, p) <==> p in PortsOf(svc)
    ensures TcpNodePort(svc, p) <==> p in NodePortsOf(svc)
  {
  }

  lemma BackendsCount(pl: Plan, inp: Inputs, s: LB, o: Roles)
    requires PlanFits(pl, inp.svc) && Core(pl, s, o, pl.remB) && o.strays == {}
    ensures OneBackendPerNodePort(inp.svc, s)
  {
    hide PlanFits, Core, Managed, PrefixFilter, NodePortsOf, TcpNodePort;
    PlanPrefix(pl, inp.svc);
    forall b | b in s.backends && Ours(s.backends[b].name, pl)
      ensures s.backends[b].forwardPort in NodePortsOf(inp.svc)
      ensures s.backends[b].forwardPort in o.b && o.b[s.backends[b].forwardPort] == b
    {
      OwnedBackend(pl, inp.svc, s, o, b);
      TcpPortIn(inp.svc, s.backends[b].forwardPort);
    }
  }

  /** The last of the first n turns on a port. */
  lemma {:induction false} LastTurn(svc: Service, n: nat, i: nat) returns (j: nat)
    requires i < n <= |svc.ports|
    ensures i <= j < n && svc.ports[j].port == svc.ports[i].port && Latest(svc, n, j)
  {
    if svc.ports[n - 1].port == svc.ports[i].port {
      j := n - 1;
    } else {
      j := LastTurn(svc, n - 1, i);
      assert forall l | j < l < n - 1 :: svc.ports[l].port != svc.ports[j].port;
    }
  }

  /** In the end, the frontend of a TCP port that is not kept forwards to the node port of the last turn
      on its port; in a straight run without strays, to the backend of its own. */
  lemma EndsOn(pl: Plan, inp: Inputs, s: LB, o: Roles, i: nat)
    requires PlanFits(pl, inp.svc) && Finished(pl, inp, s, o) && Straight(pl, inp.svc)
    requires i < |inp.svc.ports| && inp.svc.ports[i].protocol == TCP && inp.svc.ports[i].port !in pl.keptF
    ensures Wired(pl, s, o.f, inp.svc.ports[i].port, inp.svc.ports[i].nodePort)
  {
    hide PlanFits, Core, TurnDone, Wired, Doubled, Turn;
    var svc := inp.svc;
    var j := LastTurn(svc, |svc.ports|, i);
    TurnNumbers(svc, j);
    if svc.ports[i].port in pl.newF {
      assert Passing(pl, svc, j);
      SeenBefore(svc, i, j);
    } else {
      PortPlanned(pl, svc, i);
    }
  }

  lemma SeenBefore(svc: Service, i: nat, j: nat)
    requires i <= j < |svc.ports| && svc.ports[i].port == svc.ports[j].port
    ensures i == j || SeenF(svc, j, svc.ports[j].port)
  {
  }

  lemma PortPlanned(pl: Plan, svc: Service, i: nat)
    requires PlanFits(pl, svc) && i < |svc.ports| && svc.ports[i].protocol == TCP
    ensures Turn(svc, i) == svc.ports[i] && Usable(svc.ports[i])
    ensures svc.ports[i].port in pl.ownF || svc.ports[i].port in pl.newF
  {
    hide FrontendMatches, BackendMatches, ForwardsTo, PlansFrontends, PlansBackends, Turn;
    TurnIs(svc, i);
    assert TurnFits(pl, svc, i);
  }

  /** A kept frontend still forwards, in the end, to the port it was listed with. */
  lemma KeptForwards(pl: Plan, svc: Service, s: LB, o: Roles, i: nat)
    requires PlanFits(pl, svc) && Core(pl, s, o, pl.remB) && i < |svc.ports| && svc.ports[i].protocol == TCP
    requires var p := svc.ports[i].port; p in pl.keptF && p in o.f && o.f[p] in s.frontends
    ensures ForwardsTo(s, s.frontends[o.f[svc.ports[i].port]], svc.ports[i].nodePort)
    ensures s.frontends[o.f[svc.ports[i].port]].backendId !in pl.remB
  {
    hide FrontendMatches, BackendMatches;
    PortPlanned(pl, svc, i);
    assert TurnFits(pl, svc, i);
    var p, q := svc.ports[i].port, svc.ports[i].nodePort;
    var x := pl.s0.frontends[pl.ownF[p]];
    assert ForwardsTo(pl.s0, x, q);
    var y := s.frontends[o.f[p]];
    assert y.backendId == x.backendId;
    PortStays(pl, s, o, x.backendId);
  }

  /** Backends present at the start and at the end have kept their forward port. */
  lemma PortStays(pl: Plan, s: LB, o: Roles, b: Id)
    requires PlanOk(pl) && Core(pl, s, o, pl.remB) && b in pl.s0.backends && b in s.backends
    ensures s.backends[b].forwardPort == pl.s0.backends[b].forwardPort && b !in pl.remB
  {
    hide CoreFrontends, PlansFrontends;
    if Ours(s.backends[b].name, pl) {
      StaysManaged(pl, s, b);
      StraysNew(pl, s, o, pl.remB);
    }
  }

  lemma StraysNew(pl: Plan, s: LB, o: Roles, gone: set<Id>)
    requires CoreBackends(pl, s, o.b, o.strays, gone)
    ensures forall x | x in o.strays :: x !in pl.s0.backends
  {
    forall x | x in o.strays ensures x !in pl.s0.backends {
      assert Stray(pl, s, o.b, x);
    }
  }

  lemma WiredHolder(pl: Plan, s: LB, o: Roles, b: Id)
    requires Core(pl, s, o, pl.remB) && o.strays == {} && b in s.backends && Ours(s.backends[b].name, pl)
    ensures var q := s.backends[b].forwardPort; q in o.b && o.b[q] == b
  {
    hide CoreFrontends, ForeignUntouched;
  }

  lemma HolderOurs(pl: Plan, s: LB, o: Roles, p: int, q: int)
    requires Core(pl, s, o, pl.remB) && p in o.f && q in o.b
    ensures o.f[p] in s.frontends && Ours(s.frontends[o.f[p]].name, pl) && o.b[q] in s.backends
            && Ours(s.backends[o.b[q]].name, pl)
  {
    hide ForeignUntouched;
  }

  lemma FinishedPort(pl: Plan, inp: Inputs, s: LB, o: Roles, i: nat)
    requires PlanFits(pl, inp.svc) && Finished(pl, inp, s, o) && Straight(pl, inp.svc) && o.strays == {}
    requires i < |inp.svc.ports| && inp.svc.ports[i].protocol == TCP
    ensures PortServed(inp, s, inp.svc.ports[i])
  {
    hide FrontendMatches, BackendMatches, AclsMatch, PoolMatches, PlanFits, Core, Straight, AllWired, Passed, Turn;
    var p := inp.svc.ports[i];
    PlanPrefix(pl, inp.svc);
    PortPlanned(pl, inp.svc, i);
    assert TurnDone(inp, s, o, i);
    var f, b := o.f[p.port], o.b[p.nodePort];
    HolderOurs(pl, s, o, p.port, p.nodePort);
    if p.port in pl.keptF {
      KeptForwards(pl, inp.svc, s, o, i);
    } else {
      EndsOn(pl, inp, s, o, i);
    }
    var x := s.frontends[f].backendId;
    if Ours(s.backends[x].name, pl) {
      WiredHolder(pl, s, o, x);
    }
    assert Serves(inp, s, p, f, b);
  }

  /** A finished run has converged exactly when it left no strays and was straight. */
  lemma FinishedConverged(pl: Plan, inp: Inputs, s: LB, o: Roles)
    requires PlanFits(pl, inp.svc) && Finished(pl, inp, s, o)
    ensures Converged(inp, s) <==> o.strays == {} && Straight(pl, inp.svc)
  {
    hide PlanFits, Finished, PortServed, OneFrontendPerPort, OneBackendPerNodePort, Straight;
    FinishedCore(pl, inp, s, o);
    if o.strays == {} && Straight(pl, inp.svc) {
      FrontendsCount(pl, inp, s, o);
      BackendsCount(pl, inp, s, o);
      forall i | 0 <= i < |inp.svc.ports| && inp.svc.ports[i].protocol == TCP
          ensures PortServed(inp, s, inp.svc.ports[i])
      {
        FinishedPort(pl, inp, s, o, i);
      }
    }
    if Converged(inp, s) {
      NoStrays(pl, inp, s, o);
      ConvergedStraight(pl, inp, s, o);
    }
  }

  lemma FinishedCore(pl: Plan, inp: Inputs, s: LB, o: Roles)
    requires PlanFits(pl, inp.svc) && Finished(pl, inp, s, o)
    ensures Core(pl, s, o, pl.remB) && ValidLB(s)
  {
  }

  lemma NoStrays(pl: Plan, inp: Inputs, s: LB, o: Roles)
    requires PlanFits(pl, inp.svc) && Finished(pl, inp, s, o) && OneBackendPerNodePort(inp.svc, s)
    ensures o.strays == {}
  {
    hide TurnDone, Passed, AllWired, TurnFits, CoreFrontends, CoreBackends, ForeignUntouched;
    PlanPrefix(pl, inp.svc);
    assert NoNewDuplicateBackends(pl.s0, s, pl.prefix);
    if o.strays != {} {
      StraysDuplicate(pl, s, o.b, o.strays, pl.remB);
    }
  }

  lemma ConvergedStraight(pl: Plan, inp: Inputs, s: LB, o: Roles)
    requires PlanFits(pl, inp.svc) && Finished(pl, inp, s, o) && Converged(inp, s)
    ensures Straight(pl, inp.svc)
  {
    hide PlanFits, Core, TurnDone, Passed, OneFrontendPerPort, OneBackendPerNodePort, PortServed, Latest;
    forall i, j | 0 <= i < |inp.svc.ports| && 0 <= j < |inp.svc.ports| && inp.svc.ports[i].protocol == TCP
                  && inp.svc.ports[i].port in pl.ownF && inp.svc.ports[i].port !in pl.keptF
                  && inp.svc.ports[j].port == inp.svc.ports[i].port && Latest(inp.svc, |inp.svc.ports|, j)
      ensures inp.svc.ports[j].nodePort == inp.svc.ports[i].nodePort
    {
      assert Wired(pl, s, o.f, inp.svc.ports[j].port, inp.svc.ports[j].nodePort);
      ServedForwards(pl, inp, s, o, i);
    }
  }

  /** In the wanted state the frontend that holds the port forwards to the port's node port. */
  lemma ServedForwards(pl: Plan, inp: Inputs, s: LB, o: Roles, i: nat)
    requires i < |inp.svc.ports| && PlanFits(pl, inp.svc) && Core(pl, s, o, pl.remB)
             && PortServed(inp, s, inp.svc.ports[i])
    requires inp.svc.ports[i].port in o.f && o.f[inp.svc.ports[i].port] in s.frontends
    ensures ForwardsTo(s, s.frontends[o.f[inp.svc.ports[i].port]], inp.svc.ports[i].nodePort)
  {
    hide TurnFits, BackendMatches, AclsMatch, PoolMatches, CoreBackends, ForeignUntouched;
    var f, b :| Serves(inp, s, inp.svc.ports[i], f, b);
    OwnedFrontend(pl, inp.svc, s, o, pl.remB, f);
  }

  /** A finished run was never blocked. */
  lemma FinishedUnblocked(pl: Plan, inp: Inputs, s: LB, o: Roles)
    requires PlanFits(pl, inp.svc) && Finished(pl, inp, s, o)
    ensures !Blocked(pl) && !Collides(pl, inp.svc) && forall k | 0 <= k < |inp.svc.ports| :: Passing(pl, inp.svc, k)
  {
    hide PlanFits, Core, TurnDone, AllWired, Passing, Turn;
    PlanSound(pl, inp.svc);
    FinishedCore(pl, inp, s, o);
    AllPassing(pl, inp.svc);
    forall f | f in pl.s0.frontends && Untouched(pl, f) ensures pl.s0.frontends[f].backendId !in pl.remB {
      UntouchedStays(pl, s, o, pl.remB, f);
    }
  }

  /** All turns get through exactly when every port shares its numbers with a TCP port, no port to be
      created on is in foreign hands, and none is to be created on twice. */
  lemma AllPassing(pl: Plan, svc: Service)
    requires PlanFits(pl, svc)
    ensures (forall k | 0 <= k < |svc.ports| :: Passing(pl, svc, k))
            <==> Carried(svc) && !PortTaken(pl) && !Collides(pl, svc)
  {
    hide PlanFits, Passing, PortTaken, SeenF, Turn, TcpPort, TcpNodePort;
    forall k | 0 <= k < |svc.ports| ensures Passing(pl, svc, k) <==> PassingAt(pl, svc, k) {
      PassingIs(pl, svc, k);
    }
    AllPassingAt(pl, svc);
  }

  lemma AllPassingAt(pl: Plan, svc: Service)
    requires PlanFits(pl, svc)
    ensures (forall k | 0 <= k < |svc.ports| :: PassingAt(pl, svc, k))
            <==> Carried(svc) && !PortTaken(pl) && !Collides(pl, svc)
  {
    hide PlanFits, PortTaken, PortTakenAt, SeenF, TcpPort, TcpNodePort;
    TakenMeans(pl, svc);
    if forall k | 0 <= k < |svc.ports| :: PassingAt(pl, svc, k) {
      forall k | 0 <= k < |svc.ports|
        ensures TcpPort(svc, svc.ports[k].port) && TcpNodePort(svc, svc.ports[k].nodePort)
        ensures svc.ports[k].port in pl.newF ==>
                  !PortTakenAt(pl, svc.ports[k].port) && !SeenF(svc, k, svc.ports[k].port)
      {
        assert PassingAt(pl, svc, k);
      }
    }
    if Carried(svc) && !PortTaken(pl) && !Collides(pl, svc) {
      forall k | 0 <= k < |svc.ports| ensures PassingAt(pl, svc, k) {
      }
    }
  }

  /** Passing, in terms of the service's own ports. */
  ghost predicate PassingAt(pl: Plan, svc: Service, k: nat)
    requires k < |svc.ports|
  {
    && TcpPort(svc, svc.ports[k].port) && TcpNodePort(svc, svc.ports[k].nodePort)
    && (svc.ports[k].port in pl.newF ==> !PortTakenAt(pl, svc.ports[k].port) && !SeenF(svc, k, svc.ports[k].port))
  }

  lemma PassingIs(pl: Plan, svc: Service, k: nat)
    requires PlanFits(pl, svc) && k < |svc.ports|
    ensures Passing(pl, svc, k) <==> PassingAt(pl, svc, k)
  {
    hide TurnFits, PlanOk, TcpPort, TcpNodePort, PortTakenAt, SeenF, Turn, DistinctPorts, AnnotationsValid;
    TurnIs(svc, k);
    TurnNumbers(svc, k);
  }

  lemma TakenMeans(pl: Plan, svc: Service)
    requires PlanFits(pl, svc)
    ensures PortTaken(pl) <==> exists k | 0 <= k < |svc.ports| ::
              svc.ports[k].port in pl.newF && PortTakenAt(pl, svc.ports[k].port)
  {
    hide TurnFits, PlanOk, DistinctPorts, AnnotationsValid;
    if PortTaken(pl) {
      var f :| f in pl.s0.frontends && !Ours(pl.s0.frontends[f].name, pl) && pl.s0.frontends[f].inboundPort in pl.newF;
      assert TcpPort(svc, pl.s0.frontends[f].inboundPort);
    }
  }

  /** Every port shares both of its numbers with TCP ports. */
  ghost predicate Carried(svc: Service) {
    forall k | 0 <= k < |svc.ports| :: TcpPort(svc, svc.ports[k].port) && TcpNodePort(svc, svc.ports[k].nodePort)
  }

  /** The run does not move the frontends it keeps, nor those of others. */
  lemma UntouchedStays(pl: Plan, s: LB, o: Roles, gone: set<Id>, f: Id)
    requires PlanOk(pl) && Core(pl, s, o, gone) && f in pl.s0.frontends && Untouched(pl, f)
    ensures f in s.frontends && s.frontends[f].backendId == pl.s0.frontends[f].backendId
            && s.frontends[f].backendId !in gone
  {
  }

  /** Once all turns are done, only an untouched frontend can still reference a surplus backend. */
  lemma ReferenceMeansBlocked(pl: Plan, inp: Inputs, s: LB, o: Roles, gone: set<Id>, f: Id)
    requires PlanFits(pl, inp.svc) && Core(pl, s, o, gone) && AllWired(pl, inp, s, o)
    requires f in s.frontends && s.frontends[f].backendId in pl.remB
    ensures StillReferenced(pl)
  {
    hide TurnFits, CoreBackends, Latest;
    PlanSound(pl, inp.svc);
    if Ours(s.frontends[f].name, pl) {
      OwnedFrontend(pl, inp.svc, s, o, gone, f);
      var i :| 0 <= i < |inp.svc.ports| && inp.svc.ports[i].protocol == TCP
          && inp.svc.ports[i].port == s.frontends[f].inboundPort;
      var j := LastTurn(inp.svc, |inp.svc.ports|, i);
      assert Wired(pl, s, o.f, inp.svc.ports[j].port, inp.svc.ports[j].nodePort);
    }
    assert f in pl.s0.frontends && Untouched(pl, f);
  }
}
