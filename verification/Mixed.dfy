/** Services whose ports share numbers: one port offered over TCP and UDP, run by run, and TCP ports without
    allocated node ports. */
module Mixed {
  import opened Basics
  import opened Sorting
  import opened Acl
  import opened Diff
  import opened LoadBalancer
  import opened CloudApi
  import opened Plan
  import opened PortState
  import opened Reconcile
  import opened Planning
  import opened Convergence
  import opened Update
  import opened Order
  import opened Recovery

  function Tcp53(): ServicePort {
    ServicePort(TCP, 53, 30053, Some(FrontendConfig(Settings(map[]), [])),
        Some(BackendConfig(Settings(map[]), Settings(map[]))))
  }

  function Dns(): Service {
    Service("uid", [Tcp53(), ServicePort(UDP, 53, 30053, None, None)], false, [])
  }

  const EMPTY := LB(map[], map[])

  lemma DnsShape()
    ensures DistinctPorts(Dns()) && Suitable(Dns()) && Paired(Dns())
    ensures TcpPort(Dns(), 53) && TcpNodePort(Dns(), 30053)
  {
    var svc := Dns();
    assert svc.ports[0] == Tcp53() && svc.ports[1].port == 53 && svc.ports[1].nodePort == 30053;
  }

  lemma EmptyListing(fs: seq<ListedFrontend>, bs: seq<ListedBackend>)
    requires ListsFrontends(fs, EMPTY) && ListsBackends(bs, EMPTY)
    ensures fs == [] && bs == []
  {
    SomeMember(fs);
    SomeMember(bs);
  }

  lemma SomeMember<T>(s: seq<T>)
    ensures s != [] ==> exists x :: x in s
  {
    if s != [] {
      assert s[0] in s;
    }
  }

  lemma EmptyLists()
    ensures ValidLB(EMPTY) && ListsFrontends([], EMPTY) && ListsBackends([], EMPTY)
  {
  }

  lemma NothingThere()
    ensures !HasFrontend(EMPTY, PrefixFilter(Dns()), 53) && !HasBackend(EMPTY, PrefixFilter(Dns()), 30053)
  {
  }

  lemma EmptyPlan(inp: Inputs)
    requires inp.svc == Dns()
    ensures var pl := PlanOf(inp, EMPTY, [], []);
            && pl.s0 == EMPTY && pl.prefix == "" && PlanOk(pl)
            && pl.newF == {53} && pl.newB == {30053} && pl.ownF == map[] && pl.ownB == map[] && pl.remF == {}
            && pl.remB == {}
  {
    hide PlanOf, HasFrontend, HasBackend, DistinctPorts, Suitable;
    var pl := PlanOf(inp, EMPTY, [], []);
    DnsShape();
    EmptyLists();
    PlanFields(inp, EMPTY, [], []);
    FrontendPlan(inp, EMPTY, [], []);
    BackendPlan(inp, EMPTY, [], []);
    NothingThere();
    forall p ensures p in pl.newF <==> p == 53
             ensures p in pl.newB <==> p == 30053
    {
      LackingPort(inp, EMPTY, [], [], p);
      LackingNodePort(inp, EMPTY, [], [], p);
      DnsPorts(p);
      assert p in {53, 30053} || !(TcpPort(Dns(), p) || TcpNodePort(Dns(), p));
    }
    NothingPlanned(pl);
  }

  lemma NothingPlanned(pl: Plan)
    requires PlanOk(pl) && pl.s0 == EMPTY
    ensures pl.ownF == map[] && pl.ownB == map[] && pl.remF == {} && pl.remB == {}
  {
    assert forall p :: p !in pl.ownF && p !in pl.ownB;
  }

  lemma DnsPorts(p: int)
    ensures TcpPort(Dns(), p) <==> p == 53
    ensures TcpNodePort(Dns(), p) <==> p == 30053
  {
    DnsShape();
  }

  lemma TcpPasses(inp: Inputs)
    requires inp.svc == Dns()
    ensures Passing(PlanOf(inp, EMPTY, [], []), Dns(), 0) && Turn(Dns(), 0) == Tcp53()
  {
    hide PlanOf;
    EmptyPlan(inp);
    DnsShape();
    TurnIs(Dns(), 0);
  }

  /** On an empty load balancer the turn for TCP creates the backend and the frontend, the turn for UDP a
      second backend for the same node port, and then fails on the frontend. */
  lemma EmptyStart(inp: Inputs)
    requires inp.svc == Dns()
    ensures Doubles(PlanOf(inp, EMPTY, [], []), Dns()) && Collides(PlanOf(inp, EMPTY, [], []), Dns())
  {
    hide PlanOf, Passing, Turn;
    var svc, pl := Dns(), PlanOf(inp, EMPTY, [], []);
    EmptyPlan(inp);
    TcpPasses(inp);
    assert svc.ports[0] == Tcp53() && svc.ports[1].port == 53 && svc.ports[1].nodePort == 30053;
    assert Doubled(pl, svc, 1);
  }

  // ---- What the first run leaves ----

  /** The wanted frontend and nothing but backends of its node port, at least one of which it does not use. */
  ghost predicate LeftBehind(inp: Inputs, s: LB, f: Id) {
    && ValidLB(s) && s.frontends.Keys == {f}
    && FrontendMatches(Dns(), Tcp53(), s.frontends[f]) && AclsMatch(inp, s.frontends[f])
    && (forall b | b in s.backends :: s.backends[b].forwardPort == 30053)
    && exists b | b in s.backends :: b != s.frontends[f].backendId
  }

  /** A state the run can be in, with the frontend in service and a node port doubled. */
  lemma LeftFromEmpty(inp: Inputs, s: LB)
    requires inp.svc == Dns() && Midway(PlanOf(inp, EMPTY, [], []), Dns(), s)
    requires InService(inp, s, Tcp53()) && !NoNewDuplicateBackends(EMPTY, s, "")
    ensures exists f :: LeftBehind(inp, s, f)
  {
    hide PlanOf, FrontendMatches, AclsMatch, Doubles, PlanOk, ForeignUntouched;
    var pl := PlanOf(inp, EMPTY, [], []);
    EmptyPlan(inp);
    var f :| f in s.frontends && FrontendMatches(Dns(), Tcp53(), s.frontends[f]) && AclsMatch(inp, s.frontends[f]);
    assert forall name :: Ours(name, pl);
    var o, gone :| Core(pl, s, o, gone);
    forall g | g in s.frontends ensures g == f {
      OnlyHolder(pl, s, o, g);
      OnlyHolder(pl, s, o, f);
    }
    forall b | b in s.backends ensures s.backends[b].forwardPort == 30053 {
      OnNodePort(pl, s, o, gone, b);
    }
    assert LeftBehind(inp, s, f);
  }

  lemma OnlyHolder(pl: Plan, s: LB, o: Roles, f: Id)
    requires CoreFrontends(pl, s, o.f) && f in s.frontends && Ours(s.frontends[f].name, pl) && pl.ownF == map[]
             && pl.newF == {53}
    ensures 53 in o.f && o.f[53] == f
  {
  }

  lemma OnNodePort(pl: Plan, s: LB, o: Roles, gone: set<Id>, b: Id)
    requires CoreBackends(pl, s, o.b, o.strays, gone) && b in s.backends && Ours(s.backends[b].name, pl)
    requires pl.ownB == map[] && pl.newB == {30053} && pl.remB == {}
    ensures s.backends[b].forwardPort == 30053
  {
    if b in o.strays {
      assert Stray(pl, s, o.b, b);
    }
  }

  /** So the first run fails even without an outage, and leaves the frontend, but two managed backends for
      one node port: step safety does not extend to services that share a node port across protocols. */
  method FirstRun(c: Cloud, nodes: seq<Node>, useInternalIPs: bool) returns (r: Result<(), Error>)
    requires c.Valid() && c.lb == EMPTY
    modifies c
    ensures c.Valid() && r.Err? && old(c.outages) <= c.outages
    ensures r == Err(Unavailable) <==> c.outages != old(c.outages)
    ensures c.outages == old(c.outages) ==>
              !NoNewDuplicateBackends(EMPTY, c.lb, "")
              && exists f :: LeftBehind(InputsOf(Dns(), nodes, useInternalIPs), c.lb, f)
  {
    hide PlanOf, ListsFrontends, ListsBackends, Doubles, Collides, Converged, Clean, Midway, NoNewDuplicateBackends,
         Straight, ReachedServed;
    DnsShape();
    ghost var fs, bs;
    r, fs, bs := UpdateLoadBalancer(c, Dns(), nodes, useInternalIPs);
    if r != Err(Unavailable) {
      ghost var inp := InputsOf(Dns(), nodes, useInternalIPs);
      EmptyListing(fs, bs);
      EmptyStart(inp);
      EmptySafe();
      FirstServed(inp, c.lb);
      if c.history != old(c.history) {
        assert Sound(EMPTY, c.history[|c.history| - 1], "");
      }
      LeftFromEmpty(inp, c.lb);
    }
  }

  /** The turn for TCP gets through. */
  lemma FirstServed(inp: Inputs, s: LB)
    requires inp.svc == Dns() && ReachedServed(PlanOf(inp, EMPTY, [], []), inp, s)
    ensures InService(inp, s, Tcp53())
  {
    hide PlanOf, InService, Passing, Turn;
    TcpPasses(inp);
    assert Reached(PlanOf(inp, EMPTY, [], []), Dns(), 0);
  }

  lemma EmptySafe()
    ensures Safe(EMPTY, EMPTY, PrefixFilter(Dns())) && PrefixFilter(Dns()) == ""
  {
  }

  // ---- The second run ----

  lemma LeftClashFree(inp: Inputs, s: LB, f: Id)
    requires LeftBehind(inp, s, f)
    ensures ClashFree(Dns(), s) && HasFrontend(s, "", 53) && PrefixFilter(Dns()) == ""
            && s.frontends[f].inboundPort == 53
  {
    hide AclsMatch, FrontendMatches, Dns, Tcp53, HasFrontend, HasBackend, DistinctPorts, TcpPort, TcpNodePort;
    MatchedPort(s.frontends[f]);
    HasOne(s, "", f);
    HasNodePort(s, s.frontends[f].backendId);
    forall p ensures (TcpPort(Dns(), p) ==> p == 53) && (TcpNodePort(Dns(), p) ==> p == 30053) {
      DnsPorts(p);
    }
  }

  lemma MatchedPort(f: Frontend)
    requires FrontendMatches(Dns(), Tcp53(), f)
    ensures f.inboundPort == 53 && Managed(f.name, "") && PrefixFilter(Dns()) == ""
  {
    hide FrontendName;
  }

  lemma HasNodePort(s: LB, b: Id)
    requires b in s.backends && s.backends[b].forwardPort == 30053
    ensures HasBackend(s, "", 30053)
  {
    assert Managed(s.backends[b].name, "");
  }

  /** The next run finds frontend and backend prepared for both turns.  It is blocked exactly if the first
      backend listed is not the one the frontend uses; otherwise it gets through, UDP port and all, and
      ends in the wanted state. */
  lemma SecondRun(inp: Inputs, s: LB, f: Id, inp0: Inputs, fs: seq<ListedFrontend>, bs: seq<ListedBackend>)
    requires inp.svc == Dns() && LeftBehind(inp0, s, f) && ListsFrontends(fs, s) && ListsBackends(bs, s)
    ensures var pl := PlanOf(inp, s, fs, bs);
            && Suitable(Dns()) && !Collides(pl, Dns()) && !Doubles(pl, Dns()) && Straight(pl, Dns())
            && bs != [] && (Blocked(pl) <==> bs[0].id != s.frontends[f].backendId)
  {
    hide PlanOf, PlanFits, Collides, Doubles, ClashFree, ListsFrontends, ListsBackends, HasFrontend, Straight, Paired,
         Suitable, DistinctPorts;
    hide AclsMatch, FrontendMatches;
    var pl := PlanOf(inp, s, fs, bs);
    DnsShape();
    LeftClashFree(inp0, s, f);
    PlanFields(inp, s, fs, bs);
    ClashFreeSmooth(inp, s, fs, bs);
    PairedStraight(pl, Dns());
    LackingPort(inp, s, fs, bs, 53);
    OwnerIs(inp, s, f, inp0, fs, bs);
    FirstKept(inp, s, f, inp0, fs, bs);
    assert forall g | g in s.frontends :: g == f && Ours(s.frontends[g].name, pl);
    assert Untouched(pl, f);
  }

  /** The frontend holds its port and is kept. */
  lemma OwnerIs(inp: Inputs, s: LB, f: Id, inp0: Inputs, fs: seq<ListedFrontend>, bs: seq<ListedBackend>)
    requires inp.svc == Dns() && LeftBehind(inp0, s, f) && ListsFrontends(fs, s) && ListsBackends(bs, s)
    ensures var pl := PlanOf(inp, s, fs, bs); 53 in pl.ownF && pl.ownF[53] == f && 53 in pl.keptF
  {
    hide FrontendName, PlanOf, PlanFits, ListsFrontends, ListsBackends, AclsMatch, StringArrayEqual;
    var pl := PlanOf(inp, s, fs, bs);
    DnsShape();
    LeftClashFree(inp0, s, f);
    LackingPort(inp, s, fs, bs, 53);
    ListingPlans(inp, s, fs, bs);
    WantedPlanned(pl, Dns(), 53);
    OwnerListed(pl, Dns(), 53);
    PlanFields(inp, s, fs, bs);
    FrontendPort(inp, s, fs, bs, 0);
  }

  /** Of backends that all have the node port, the first one listed is not removed, and all others are. */
  lemma FirstKept(inp: Inputs, s: LB, f: Id, inp0: Inputs, fs: seq<ListedFrontend>, bs: seq<ListedBackend>)
    requires inp.svc == Dns() && LeftBehind(inp0, s, f) && ListsFrontends(fs, s) && ListsBackends(bs, s)
    ensures bs != [] && forall b | b in s.backends :: b in PlanOf(inp, s, fs, bs).remB <==> b != bs[0].id
  {
    hide AclsMatch, FrontendMatches, ListsFrontends, PlanOf, First, Dns;
    assert ViewBackend(s.backends[s.frontends[f].backendId]) in bs;
    assert bs[0] in bs;
    AllManaged(bs);
    forall b | b in s.backends ensures b in PlanOf(inp, s, fs, bs).remB <==> b != bs[0].id {
      assert ViewBackend(s.backends[b]) in bs;
      RemovedUnlessFirst(inp, s, fs, bs, ViewBackend(s.backends[b]));
    }
  }

  lemma AllManaged(bs: seq<ListedBackend>)
    requires bs != [] && bs[0].port == 30053
    ensures First(bs, "", 30053) == Some(bs[0])
  {
    hide First;
    FirstIsFirst(bs, "", 30053);
    assert bs[0] in bs && Managed(bs[0].name, "");
  }

  lemma RemovedUnlessFirst(inp: Inputs, s: LB, fs: seq<ListedFrontend>, bs: seq<ListedBackend>, x: ListedBackend)
    requires inp.svc == Dns() && ValidLB(s) && ListsBackends(bs, s) && x in bs && x.port == 30053
    ensures x.id in PlanOf(inp, s, fs, bs).remB <==> First(bs, "", 30053) != Some(x)
  {
    hide BackendTargets, FrontendOps, First, Surplus, Dns, Tcp53;
    var want := BackendTargets(inp.svc, |inp.svc.ports|, inp.targets);
    DnsWants(inp);
    SurplusIn(bs, want, "", x);
    RemovedFacts(bs, want, "", BackendEquals, x);
  }

  lemma DnsWants(inp: Inputs)
    requires inp.svc == Dns()
    ensures 30053 in BackendTargets(inp.svc, |inp.svc.ports|, inp.targets) && PrefixFilter(inp.svc) == ""
  {
    hide BackendTargets, TcpNodePort;
    DnsShape();
    WantedDomain(inp, 30053);
  }

  /** Both runs, without an outage: the first is turned down, and the second gets through exactly if the API
      then lists the backend in use first. */
  method TwoRuns(c: Cloud, nodes: seq<Node>, nodes': seq<Node>, useInternalIPs: bool)
    returns (first: Result<(), Error>, second: Result<(), Error>, ghost f: Id, ghost between: LB,
        ghost bs: seq<ListedBackend>)
    requires c.Valid() && c.lb == EMPTY
    modifies c
    ensures c.outages == old(c.outages) ==>
              && first.Err? && LeftBehind(InputsOf(Dns(), nodes, useInternalIPs), between, f)
              && ListsBackends(bs, between) && bs != []
              && (second.Ok? <==> bs[0].id == between.frontends[f].backendId)
              && (second.Ok? ==> Converged(InputsOf(Dns(), nodes', useInternalIPs), c.lb))
  {
    hide PlanOf, ListsFrontends, ListsBackends, Doubles, Collides, Converged, Clean, Midway, Straight, ReachedServed,
         LeftBehind, Suitable, DistinctPorts, Blocked, Safe, Sound;
    DnsShape();
    f := 0;
    first := FirstRun(c, nodes, useInternalIPs);
    between := c.lb;
    ghost var before := c.outages;
    if before == old(c.outages) {
      f :| LeftBehind(InputsOf(Dns(), nodes, useInternalIPs), between, f);
    }
    ghost var fs;
    second, fs, bs := UpdateLoadBalancer(c, Dns(), nodes', useInternalIPs);
    if c.outages == old(c.outages) {
      SecondRun(InputsOf(Dns(), nodes', useInternalIPs), between, f, InputsOf(Dns(), nodes, useInternalIPs), fs, bs);
    }
  }

  // ---- Node ports that were not allocated ----

  function WebPort(port: int): ServicePort {
    ServicePort(TCP, port, 0, Some(FrontendConfig(Settings(map[]), [])),
        Some(BackendConfig(Settings(map[]), Settings(map[]))))
  }

  function Web(): Service {
    Service("uid", [WebPort(80), WebPort(443)], false, [])
  }

  lemma WebShape()
    ensures DistinctPorts(Web()) && Suitable(Web()) && PrefixFilter(Web()) == ""
    ensures TcpPort(Web(), 80) && TcpNodePort(Web(), 0)
  {
    assert Web().ports[0] == WebPort(80) && Web().ports[1] == WebPort(443);
  }

  /** The second turn doubles the backend of node port 0; nothing collides. */
  lemma WebStart(inp: Inputs)
    requires inp.svc == Web()
    ensures var pl := PlanOf(inp, EMPTY, [], []); Doubles(pl, Web()) && !Collides(pl, Web()) && !Blocked(pl)
  {
    hide PlanOf, HasFrontend, HasBackend, DistinctPorts, Suitable;
    var svc, pl := Web(), PlanOf(inp, EMPTY, [], []);
    WebShape();
    EmptyLists();
    PlanFields(inp, EMPTY, [], []);
    LackingNodePort(inp, EMPTY, [], [], 0);
    NoBackendThere();
    TurnIs(svc, 0);
    assert svc.ports[0] == WebPort(80) && svc.ports[1] == WebPort(443);
    assert Passing(pl, svc, 0);
    assert Doubled(pl, svc, 1);
  }

  lemma NoBackendThere()
    ensures !HasBackend(EMPTY, "", 0)
  {
  }

  /** So the run succeeds, but with two managed backends for one node port, which is not the wanted state. */
  method WebRun(c: Cloud, nodes: seq<Node>, useInternalIPs: bool) returns (r: Result<(), Error>)
    requires c.Valid() && c.lb == EMPTY
    modifies c
    ensures c.outages == old(c.outages) ==>
              r.Ok? && !NoNewDuplicateBackends(EMPTY, c.lb, "")
              && !Converged(InputsOf(Web(), nodes, useInternalIPs), c.lb)
  {
    hide PlanOf, ListsFrontends, ListsBackends, Doubles, Collides, Converged, Clean, Midway, NoNewDuplicateBackends,
         Straight, ReachedServed, Blocked;
    hide Suitable, DistinctPorts;
    WebShape();
    ghost var fs, bs;
    r, fs, bs := UpdateLoadBalancer(c, Web(), nodes, useInternalIPs);
    if r != Err(Unavailable) {
      EmptyListing(fs, bs);
      WebStart(InputsOf(Web(), nodes, useInternalIPs));
      EmptySafe();
      if c.history != old(c.history) {
        assert Sound(EMPTY, c.history[|c.history| - 1], "");
      }
    }
  }
}
