/** What a run knows about each turn of its loop: what the turn is going to find, and what it leaves. */
module PortState {
  import opened Basics
  import opened Sorting
  import opened Acl
  import opened Diff
  import opened LoadBalancer
  import opened Plan

  /** The inputs of a run besides the load balancer itself. */
  datatype Inputs = Inputs(svc: Service, nodes: seq<Node>, targets: Slice)

  predicate FrontendMatches(svc: Service, p: ServicePort, f: Frontend)
    requires p.frontend.Some?
  {
    && f.name == FrontendName(svc, p)
    && f.inboundPort == p.port
    && f.settings == p.frontend.value.settings
    && StringArrayEqual(Items(f.certs), Items(p.frontend.value.certs))
  }

  predicate BackendMatches(svc: Service, p: ServicePort, b: Backend)
    requires p.backend.Some?
  {
    && b.name == BackendName(svc, p)
    && b.forwardPort == p.nodePort
    && b.settings == p.backend.value.settings
    && b.healthCheck == p.backend.value.healthCheck
  }

  /** The rules in place, as far as they bear the frontend's ACL prefix, are the wanted ones. */
  predicate AclsMatch(inp: Inputs, f: Frontend) {
    RulesEqual(ListNamed(f.acls, AclPrefix(f.id)), Specs(inp.svc.ranges, inp.nodes, f.id))
  }

  predicate PoolMatches(targets: Slice, b: Backend) {
    multiset(b.pool) == multiset(targets.Elems())
  }

  /** A frontend of the given state forwards to that port. */
  predicate ForwardsTo(s: LB, f: Frontend, port: int) {
    f.backendId in s.backends && s.backends[f.backendId].forwardPort == port
  }

  // ---- The plan and the service ----

  /** The plan agrees with the service about every turn. */
  ghost predicate PlanFits(pl: Plan, svc: Service) {
    && PlanOk(pl)
    && DistinctPorts(svc) && AnnotationsValid(svc) && pl.prefix == PrefixFilter(svc)
    && (forall k | 0 <= k < |svc.ports| :: TurnFits(pl, svc, k))
    && (forall p | p in pl.ownF || p in pl.newF :: TcpPort(svc, p))
    && (forall p | p in pl.ownB || p in pl.newB :: TcpNodePort(svc, p))
  }

  ghost predicate TurnFits(pl: Plan, svc: Service, k: nat)
    requires PlanOk(pl) && k < |svc.ports|
  {
    var p := Turn(svc, k);
    && (p.frontend.Some? <==> p.port in pl.ownF || p.port in pl.newF) && !(p.port in pl.ownF && p.port in pl.newF)
    && (p.backend.Some? <==> p.nodePort in pl.ownB || p.nodePort in pl.newB)
    && !(p.nodePort in pl.ownB && p.nodePort in pl.newB)
    && (p.port in pl.keptF ==>
          && FrontendMatches(svc, p, pl.s0.frontends[pl.ownF[p.port]])
          && (svc.ports[k].protocol == TCP ==> ForwardsTo(pl.s0, pl.s0.frontends[pl.ownF[p.port]], p.nodePort)))
    && (p.nodePort in pl.keptB ==> BackendMatches(svc, p, pl.s0.backends[pl.ownB[p.nodePort]]))
  }

  // ---- How a run gets on ----

  /** Some turn before k acted on the same node port, or on the same port. */
  predicate SeenB(svc: Service, k: nat, nodePort: int)
    requires k <= |svc.ports|
  {
    exists i | 0 <= i < k :: svc.ports[i].nodePort == nodePort
  }

  predicate SeenF(svc: Service, k: nat, port: int)
    requires k <= |svc.ports|
  {
    exists i | 0 <= i < k :: svc.ports[i].port == port
  }

  /** Of the first n turns, the j-th is the last one on its port. */
  predicate Latest(svc: Service, n: nat, j: nat)
    requires j < n <= |svc.ports|
  {
    forall i | j < i < n :: svc.ports[i].port != svc.ports[j].port
  }

  /** Without an outage, turn k gets through: a TCP port stands behind both of its numbers, and a frontend
      to be created finds its port neither in foreign hands nor taken by an earlier turn. */
  ghost predicate Passing(pl: Plan, svc: Service, k: nat)
    requires k < |svc.ports|
  {
    var p := Turn(svc, k);
    && p.backend.Some? && p.frontend.Some?
    && (p.port in pl.newF ==> !PortTakenAt(pl, p.port) && !SeenF(svc, k, p.port))
  }

  /** Turn k creates a backend for a node port that an earlier turn has created one for. */
  predicate Doubled(pl: Plan, svc: Service, k: nat)
    requires k < |svc.ports|
  {
    svc.ports[k].nodePort in pl.newB && SeenB(svc, k, svc.ports[k].nodePort)
  }

  /** The run comes to a turn that creates a second backend for a node port. */
  ghost predicate Doubles(pl: Plan, svc: Service) {
    exists k | 0 <= k < |svc.ports| :: Doubled(pl, svc, k) && forall j | 0 <= j < k :: Passing(pl, svc, j)
  }

  /** Two turns would have to create the frontend of one port. */
  ghost predicate Collides(pl: Plan, svc: Service) {
    exists k | 0 <= k < |svc.ports| :: svc.ports[k].port in pl.newF && SeenF(svc, k, svc.ports[k].port)
  }

  /** For each frontend that is rewritten, the last turn on its port is one for the node port that the
      service gives it. */
  ghost predicate Straight(pl: Plan, svc: Service) {
    forall i, j | 0 <= i < |svc.ports| && 0 <= j < |svc.ports| && svc.ports[i].protocol == TCP
                  && svc.ports[i].port in pl.ownF && svc.ports[i].port !in pl.keptF
                  && svc.ports[j].port == svc.ports[i].port && Latest(svc, |svc.ports|, j) ::
      svc.ports[j].nodePort == svc.ports[i].nodePort
  }

  // ---- What a turn finds and what it leaves ----

  /** The frontend of the port is still as it was listed. */
  ghost predicate PendingFrontend(pl: Plan, s: LB, f: map<int, Id>, port: int) {
    && (port in f ==> port in pl.ownF)
    && (port in pl.ownF ==>
          var id := pl.ownF[port];
          id in s.frontends && id in pl.s0.frontends && s.frontends[id] == pl.s0.frontends[id])
  }

  ghost predicate PendingBackend(pl: Plan, s: LB, b: map<int, Id>, nodePort: int) {
    && (nodePort in b ==> nodePort in pl.ownB)
    && (nodePort in pl.ownB ==>
          var id := pl.ownB[nodePort];
          id in s.backends && id in pl.s0.backends && s.backends[id] == pl.s0.backends[id])
  }

  ghost predicate BackendDone(inp: Inputs, s: LB, b: map<int, Id>, p: ServicePort) {
    && p.backend.Some?
    && p.nodePort in b && b[p.nodePort] in s.backends
    && BackendMatches(inp.svc, p, s.backends[b[p.nodePort]])
    && PoolMatches(inp.targets, s.backends[b[p.nodePort]])
  }

  ghost predicate FrontendSet(inp: Inputs, s: LB, f: map<int, Id>, p: ServicePort) {
    && p.frontend.Some?
    && p.port in f && f[p.port] in s.frontends
    && FrontendMatches(inp.svc, p, s.frontends[f[p.port]])
  }

  ghost predicate FrontendDone(inp: Inputs, s: LB, f: map<int, Id>, p: ServicePort) {
    FrontendSet(inp, s, f, p) && AclsMatch(inp, s.frontends[f[p.port]])
  }

  /** The frontend of the port is kept, or sits on a managed backend of the given node port. */
  ghost predicate Wired(pl: Plan, s: LB, f: map<int, Id>, port: int, nodePort: int) {
    && port in f && f[port] in s.frontends
    && (port in pl.keptF ||
        (ForwardsTo(s, s.frontends[f[port]], nodePort) && WiredTo(pl, s, s.frontends[f[port]].backendId)))
  }

  /** After k turns: what the earlier ones touched is done, everything else as listed. */
  ghost predicate Progress(pl: Plan, inp: Inputs, s: LB, o: Roles, k: nat)
    requires k <= |inp.svc.ports|
  {
    && Core(pl, s, o, {})
    && (forall j | 0 <= j < |inp.svc.ports| :: BackendAt(pl, inp, s, o.b, k, j) && FrontendAt(pl, inp, s, o.f, k, j))
    && Passed(pl, inp.svc, o, k)
  }

  ghost predicate BackendAt(pl: Plan, inp: Inputs, s: LB, b: map<int, Id>, k: nat, j: nat)
    requires k <= |inp.svc.ports| && j < |inp.svc.ports|
  {
    if SeenB(inp.svc, k, inp.svc.ports[j].nodePort) then BackendDone(inp, s, b, Turn(inp.svc, j))
    else PendingBackend(pl, s, b, inp.svc.ports[j].nodePort)
  }

  ghost predicate FrontendAt(pl: Plan, inp: Inputs, s: LB, f: map<int, Id>, k: nat, j: nat)
    requires k <= |inp.svc.ports| && j < |inp.svc.ports|
  {
    && (if SeenF(inp.svc, k, inp.svc.ports[j].port) then FrontendDone(inp, s, f, Turn(inp.svc, j))
        else PendingFrontend(pl, s, f, inp.svc.ports[j].port))
    && (j < k && Latest(inp.svc, k, j) ==> Wired(pl, s, f, inp.svc.ports[j].port, inp.svc.ports[j].nodePort))
  }

  /** The first k turns got through, and there are strays exactly if one of them doubled a backend. */
  ghost predicate Passed(pl: Plan, svc: Service, o: Roles, k: nat)
    requires k <= |svc.ports|
  {
    && (forall j | 0 <= j < k :: Passing(pl, svc, j))
    && (o.strays != {} <==> exists j | 0 <= j < k :: Doubled(pl, svc, j))
  }

  /** In the middle of turn k: what it does not act on is as it should be. */
  ghost predicate OthersAt(pl: Plan, inp: Inputs, s: LB, o: Roles, k: nat)
    requires k < |inp.svc.ports|
  {
    && (forall j | 0 <= j < |inp.svc.ports| && inp.svc.ports[j].nodePort != inp.svc.ports[k].nodePort ::
          BackendAt(pl, inp, s, o.b, k, j))
    && (forall j | 0 <= j < |inp.svc.ports| && inp.svc.ports[j].port != inp.svc.ports[k].port ::
          FrontendAt(pl, inp, s, o.f, k, j))
  }

  // ---- Frames ----

  /** Writing the backend of one node port leaves the backends of the others as they are. */
  lemma WriteBackendOther(pl: Plan, inp: Inputs, s: LB, o: Roles, b: Backend, k: nat, j: nat)
    requires PlansBackends(pl) && CoreBackends(pl, s, o.b, o.strays, {}) && Ours(b.name, pl)
             && BackendSlot(pl, s, o.b, b.forwardPort, b.id)
    requires k <= |inp.svc.ports| && j < |inp.svc.ports| && inp.svc.ports[j].nodePort != b.forwardPort
    requires BackendAt(pl, inp, s, o.b, k, j)
    ensures BackendAt(pl, inp, PutBackend(s, b), WithBackend(o, b.forwardPort, b.id).b, k, j)
  {
    hide CoreBackends, PlansBackends, BackendMatches, PoolMatches, Ours, BackendSlot, SeenB;
    SlotFrame(pl, s, o, b);
    if inp.svc.ports[j].nodePort in pl.ownB {
      OwnerElsewhere(pl, s, o, b, inp.svc.ports[j].nodePort);
    }
  }

  lemma OwnerElsewhere(pl: Plan, s: LB, o: Roles, b: Backend, q: int)
    requires PlansBackends(pl) && CoreBackends(pl, s, o.b, o.strays, {}) && Ours(b.name, pl)
             && BackendSlot(pl, s, o.b, b.forwardPort, b.id)
    requires q in pl.ownB && q != b.forwardPort
    ensures pl.ownB[q] != b.id
  {
  }

  /** Nor does it change what is known of the frontends. */
  lemma WriteBackendFrontends(pl: Plan, inp: Inputs, s: LB, o: Roles, b: Backend, k: nat, j: nat)
    requires PlansBackends(pl) && CoreBackends(pl, s, o.b, o.strays, {}) && Ours(b.name, pl)
             && BackendSlot(pl, s, o.b, b.forwardPort, b.id)
    requires k <= |inp.svc.ports| && j < |inp.svc.ports| && FrontendAt(pl, inp, s, o.f, k, j)
    ensures FrontendAt(pl, inp, PutBackend(s, b), o.f, k, j)
  {
    hide CoreBackends, PlansBackends, FrontendMatches, AclsMatch, Ours, BackendSlot, SeenF, Latest;
    SlotFrame(pl, s, o, b);
    var p := inp.svc.ports[j].port;
    if j < k && Latest(inp.svc, k, j) && p !in pl.keptF {
      WiredFrame(pl, s, o, b, s.frontends[o.f[p]], inp.svc.ports[j].nodePort);
    }
  }

  lemma WiredFrame(pl: Plan, s: LB, o: Roles, b: Backend, f: Frontend, q: int)
    requires PlansBackends(pl) && CoreBackends(pl, s, o.b, o.strays, {}) && Ours(b.name, pl)
             && BackendSlot(pl, s, o.b, b.forwardPort, b.id)
    requires ForwardsTo(s, f, q) && WiredTo(pl, s, f.backendId)
    ensures ForwardsTo(PutBackend(s, b), f, q) && WiredTo(pl, PutBackend(s, b), f.backendId)
  {
    if f.backendId == b.id {
      SlotFrame(pl, s, o, b);
    }
  }

  /** One backend write within turn k. */
  lemma BackendStep(pl: Plan, inp: Inputs, s: LB, o: Roles, k: nat, b: Backend)
    requires PlanFits(pl, inp.svc) && k < |inp.svc.ports| && Core(pl, s, o, {}) && OthersAt(pl, inp, s, o, k)
    requires Ours(b.name, pl) && b.forwardPort == inp.svc.ports[k].nodePort
             && BackendSlot(pl, s, o.b, b.forwardPort, b.id)
    ensures var s', o' := PutBackend(s, b), WithBackend(o, b.forwardPort, b.id);
            Core(pl, s', o', {}) && OthersAt(pl, inp, s', o', k)
  {
    hide BackendAt, FrontendAt, CoreBackends, CoreFrontends, PlansBackends, PlansFrontends, BackendSlot, Ours,
         ForeignUntouched, ValidLB;
    WriteBackend(pl, s, o, b);
    var s', o' := PutBackend(s, b), WithBackend(o, b.forwardPort, b.id);
    forall j | 0 <= j < |inp.svc.ports| && inp.svc.ports[j].nodePort != b.forwardPort
        ensures BackendAt(pl, inp, s', o'.b, k, j)
    {
      WriteBackendOther(pl, inp, s, o, b, k, j);
    }
    forall j | 0 <= j < |inp.svc.ports| && inp.svc.ports[j].port != inp.svc.ports[k].port
        ensures FrontendAt(pl, inp, s', o'.f, k, j)
    {
      WriteBackendFrontends(pl, inp, s, o, b, k, j);
    }
  }

  lemma FrontendElsewhere(pl: Plan, s: LB, f: map<int, Id>, x: Frontend, port: int)
    requires PlansFrontends(pl) && CoreFrontends(pl, s, f) && FrontendSlot(pl, s, f, x.inboundPort, x.id)
             && port != x.inboundPort
    ensures port in f ==> f[port] != x.id
    ensures port in pl.ownF ==> pl.ownF[port] != x.id
  {
  }

  lemma WriteFrontendOther(pl: Plan, inp: Inputs, s: LB, f: map<int, Id>, x: Frontend, k: nat, j: nat)
    requires PlansFrontends(pl) && CoreFrontends(pl, s, f) && FrontendSlot(pl, s, f, x.inboundPort, x.id)
    requires k <= |inp.svc.ports| && j < |inp.svc.ports| && inp.svc.ports[j].port != x.inboundPort
    requires FrontendAt(pl, inp, s, f, k, j)
    ensures FrontendAt(pl, inp, PutFrontend(s, x), f[x.inboundPort := x.id], k, j)
  {
    hide PlansFrontends, CoreFrontends, FrontendMatches, AclsMatch, SeenF, Latest, FrontendSlot;
    FrontendElsewhere(pl, s, f, x, inp.svc.ports[j].port);
  }

  lemma WriteFrontendBackends(pl: Plan, inp: Inputs, s: LB, b: map<int, Id>, x: Frontend, k: nat, j: nat)
    requires k <= |inp.svc.ports| && j < |inp.svc.ports| && BackendAt(pl, inp, s, b, k, j)
    ensures BackendAt(pl, inp, PutFrontend(s, x), b, k, j)
  {
    hide BackendMatches, PoolMatches, SeenB;
  }

  /** One frontend write within turn k. */
  lemma FrontendStep(pl: Plan, inp: Inputs, s: LB, o: Roles, k: nat, x: Frontend)
    requires PlanFits(pl, inp.svc) && k < |inp.svc.ports| && Core(pl, s, o, {}) && OthersAt(pl, inp, s, o, k)
    requires Ours(x.name, pl) && x.inboundPort == inp.svc.ports[k].port && FrontendSlot(pl, s, o.f, x.inboundPort, x.id)
    requires || (x.inboundPort in o.f && Unwritten(s.frontends[x.id], x))
             || (x.inboundPort !in pl.keptF && WiredTo(pl, s, x.backendId))
    ensures var s', o' := PutFrontend(s, x), WithFrontend(o, x.inboundPort, x.id);
            Core(pl, s', o', {}) && OthersAt(pl, inp, s', o', k)
  {
    hide BackendAt, FrontendAt, CoreBackends, CoreFrontends, PlansBackends, PlansFrontends, FrontendSlot, Ours,
         ForeignUntouched, ValidLB;
    WriteFrontend(pl, s, o, x);
    var s', o' := PutFrontend(s, x), WithFrontend(o, x.inboundPort, x.id);
    forall j | 0 <= j < |inp.svc.ports| && inp.svc.ports[j].nodePort != inp.svc.ports[k].nodePort
        ensures BackendAt(pl, inp, s', o'.b, k, j)
    {
      WriteFrontendBackends(pl, inp, s, o.b, x, k, j);
    }
    forall j | 0 <= j < |inp.svc.ports| && inp.svc.ports[j].port != x.inboundPort
        ensures FrontendAt(pl, inp, s', o'.f, k, j)
    {
      WriteFrontendOther(pl, inp, s, o.f, x, k, j);
    }
  }

  // ---- From turn to turn ----

  lemma ProgressAt(pl: Plan, inp: Inputs, s: LB, o: Roles, k: nat)
    requires k < |inp.svc.ports| && Progress(pl, inp, s, o, k)
    ensures Core(pl, s, o, {}) && OthersAt(pl, inp, s, o, k) && Passed(pl, inp.svc, o, k)
    ensures BackendAt(pl, inp, s, o.b, k, k) && FrontendAt(pl, inp, s, o.f, k, k)
  {
    hide BackendAt, FrontendAt, Core, Passed;
  }

  /** Turns that act on the same node port, or on the same port, want the same. */
  lemma SameTurn(svc: Service, j: nat, k: nat)
    requires j < |svc.ports| && k < |svc.ports|
    ensures svc.ports[j].nodePort == svc.ports[k].nodePort ==> Turn(svc, j).backend == Turn(svc, k).backend
    ensures svc.ports[j].port == svc.ports[k].port ==> Turn(svc, j).frontend == Turn(svc, k).frontend
  {
  }

  lemma BackendDoneAlike(inp: Inputs, s: LB, b: map<int, Id>, j: nat, k: nat)
    requires j < |inp.svc.ports| && k < |inp.svc.ports| && inp.svc.ports[j].nodePort == inp.svc.ports[k].nodePort
    requires BackendDone(inp, s, b, Turn(inp.svc, k))
    ensures BackendDone(inp, s, b, Turn(inp.svc, j))
  {
    hide PoolMatches;
    SameTurn(inp.svc, j, k);
  }

  lemma FrontendDoneAlike(inp: Inputs, s: LB, f: map<int, Id>, j: nat, k: nat)
    requires j < |inp.svc.ports| && k < |inp.svc.ports| && inp.svc.ports[j].port == inp.svc.ports[k].port
    requires FrontendDone(inp, s, f, Turn(inp.svc, k))
    ensures FrontendDone(inp, s, f, Turn(inp.svc, j))
  {
    hide AclsMatch, StringArrayEqual;
    SameTurn(inp.svc, j, k);
  }

  lemma BackendNext(pl: Plan, inp: Inputs, s: LB, b: map<int, Id>, k: nat, j: nat)
    requires k < |inp.svc.ports| && j < |inp.svc.ports| && BackendDone(inp, s, b, Turn(inp.svc, k))
    requires inp.svc.ports[j].nodePort != inp.svc.ports[k].nodePort ==> BackendAt(pl, inp, s, b, k, j)
    ensures BackendAt(pl, inp, s, b, k + 1, j)
  {
    hide BackendDone, PendingBackend;
    if inp.svc.ports[j].nodePort == inp.svc.ports[k].nodePort {
      BackendDoneAlike(inp, s, b, j, k);
    } else {
      assert SeenB(inp.svc, k + 1, inp.svc.ports[j].nodePort) <==> SeenB(inp.svc, k, inp.svc.ports[j].nodePort);
    }
  }

  lemma FrontendNext(pl: Plan, inp: Inputs, s: LB, f: map<int, Id>, k: nat, j: nat)
    requires k < |inp.svc.ports| && j < |inp.svc.ports| && FrontendDone(inp, s, f, Turn(inp.svc, k))
    requires Wired(pl, s, f, inp.svc.ports[k].port, inp.svc.ports[k].nodePort)
    requires inp.svc.ports[j].port != inp.svc.ports[k].port ==> FrontendAt(pl, inp, s, f, k, j)
    ensures FrontendAt(pl, inp, s, f, k + 1, j)
  {
    hide FrontendDone, PendingFrontend, Wired;
    if inp.svc.ports[j].port == inp.svc.ports[k].port {
      FrontendDoneAlike(inp, s, f, j, k);
    } else {
      assert SeenF(inp.svc, k + 1, inp.svc.ports[j].port) <==> SeenF(inp.svc, k, inp.svc.ports[j].port);
      assert j < k && Latest(inp.svc, k + 1, j) ==> Latest(inp.svc, k, j);
    }
  }

  lemma ProgressNext(pl: Plan, inp: Inputs, s: LB, o: Roles, k: nat)
    requires k < |inp.svc.ports| && Core(pl, s, o, {}) && OthersAt(pl, inp, s, o, k) && Passed(pl, inp.svc, o, k + 1)
    requires BackendDone(inp, s, o.b, Turn(inp.svc, k)) && FrontendDone(inp, s, o.f, Turn(inp.svc, k))
    requires Wired(pl, s, o.f, inp.svc.ports[k].port, inp.svc.ports[k].nodePort)
    ensures Progress(pl, inp, s, o, k + 1)
  {
    hide BackendAt, FrontendAt, Core, Passed, BackendDone, FrontendDone, Wired;
    var n := k + 1;
    forall j | 0 <= j < |inp.svc.ports| ensures BackendAt(pl, inp, s, o.b, n, j) && FrontendAt(pl, inp, s, o.f, n, j) {
      BackendNext(pl, inp, s, o.b, k, j);
      FrontendNext(pl, inp, s, o.f, k, j);
    }
  }

  lemma ProgressStart(pl: Plan, inp: Inputs, s: LB)
    requires PlanFits(pl, inp.svc) && s == pl.s0.(frontends := pl.s0.frontends - pl.remF)
    ensures Progress(pl, inp, s, Roles(pl.ownF, pl.ownB, {}), 0)
  {
    hide CoreFrontends, CoreBackends, ForeignUntouched, TurnFits;
    CoreStart(pl, s);
  }
}
