/** What a reconciliation run relies on and keeps, stated over load-balancer states: the plan drawn
    from the first listing, the invariant every step keeps, and the step lemmas. */
module Plan {
  import opened Basics
  import opened Diff
  import opened LoadBalancer

  /** The two diffs reduced to identifiers and ports.  `own` maps a port to the listed object that
      holds it, `kept` and `new` are the ports to keep and to create, `rem` the objects to delete. */
  datatype Plan = Plan(
    s0: LB, prefix: string,
    ownF: map<int, Id>, keptF: set<int>, newF: set<int>, remF: set<Id>,
    ownB: map<int, Id>, keptB: set<int>, newB: set<int>, remB: set<Id>)

  predicate Ours(name: string, pl: Plan) {
    Managed(name, pl.prefix)
  }

  ghost predicate PlansFrontends(pl: Plan) {
    && (forall p | p in pl.ownF :: pl.ownF[p] in pl.s0.frontends && Ours(pl.s0.frontends[pl.ownF[p]].name, pl)
          && pl.s0.frontends[pl.ownF[p]].inboundPort == p && pl.ownF[p] !in pl.remF)
    && (forall id | id in pl.remF :: id in pl.s0.frontends && Ours(pl.s0.frontends[id].name, pl))
    && (forall id | id in pl.s0.frontends && Ours(pl.s0.frontends[id].name, pl) && id !in pl.remF ::
          var p := pl.s0.frontends[id].inboundPort; p in pl.ownF && pl.ownF[p] == id)
    && (forall id | id in pl.s0.frontends && Ours(pl.s0.frontends[id].name, pl) ::
          pl.s0.frontends[id].inboundPort !in pl.newF)
    && pl.keptF <= pl.ownF.Keys
  }

  ghost predicate PlansBackends(pl: Plan) {
    && (forall p | p in pl.ownB :: pl.ownB[p] in pl.s0.backends && Ours(pl.s0.backends[pl.ownB[p]].name, pl)
          && pl.s0.backends[pl.ownB[p]].forwardPort == p && pl.ownB[p] !in pl.remB)
    && (forall id | id in pl.remB :: id in pl.s0.backends && Ours(pl.s0.backends[id].name, pl))
    && (forall id | id in pl.s0.backends && Ours(pl.s0.backends[id].name, pl) && id !in pl.remB ::
          var p := pl.s0.backends[id].forwardPort; p in pl.ownB && pl.ownB[p] == id)
    && (forall id | id in pl.s0.backends && Ours(pl.s0.backends[id].name, pl) ::
          pl.s0.backends[id].forwardPort !in pl.newB)
    && pl.keptB <= pl.ownB.Keys
  }

  ghost predicate PlanOk(pl: Plan) {
    ValidLB(pl.s0) && PlansFrontends(pl) && PlansBackends(pl)
  }

  // ---- Safety of one state with respect to the state the run started from ----

  /** Objects outside the prefix are exactly those of the start, unchanged. */
  ghost predicate ForeignUntouched(s0: LB, s: LB, prefix: string) {
    && (forall id | id in s0.frontends && !Managed(s0.frontends[id].name, prefix) ::
          id in s.frontends && s.frontends[id] == s0.frontends[id])
    && (forall id | id in s.frontends && !Managed(s.frontends[id].name, prefix) ::
          id in s0.frontends && s0.frontends[id] == s.frontends[id])
    && (forall id | id in s0.backends && !Managed(s0.backends[id].name, prefix) ::
          id in s.backends && s.backends[id] == s0.backends[id])
    && (forall id | id in s.backends && !Managed(s.backends[id].name, prefix) ::
          id in s0.backends && s0.backends[id] == s.backends[id])
  }

  lemma ForeignTransitive(s0: LB, s1: LB, s2: LB, prefix: string)
    requires ForeignUntouched(s0, s1, prefix) && ForeignUntouched(s1, s2, prefix)
    ensures ForeignUntouched(s0, s2, prefix)
  {
  }

  /** Two managed frontends share an inbound port only if the very same two did at the start. */
  ghost predicate NoNewDuplicateFrontends(s0: LB, s: LB, prefix: string) {
    forall a, b | a in s.frontends && b in s.frontends && a != b
      && Managed(s.frontends[a].name, prefix) && Managed(s.frontends[b].name, prefix)
      && s.frontends[a].inboundPort == s.frontends[b].inboundPort ::
      a in s0.frontends && b in s0.frontends && s0.frontends[a].inboundPort == s.frontends[a].inboundPort
      && s0.frontends[b].inboundPort == s.frontends[b].inboundPort
  }

  /** The same for managed backends and their forward ports. */
  ghost predicate NoNewDuplicateBackends(s0: LB, s: LB, prefix: string) {
    forall a, b | a in s.backends && b in s.backends && a != b
      && Managed(s.backends[a].name, prefix) && Managed(s.backends[b].name, prefix)
      && s.backends[a].forwardPort == s.backends[b].forwardPort ::
      a in s0.backends && b in s0.backends && s0.backends[a].forwardPort == s.backends[a].forwardPort
      && s0.backends[b].forwardPort == s.backends[b].forwardPort
  }

  /** What every state on the way keeps: referential integrity, everything outside the prefix, and no
      inbound port taken twice. */
  ghost predicate Sound(s0: LB, s: LB, prefix: string) {
    ValidLB(s) && ForeignUntouched(s0, s, prefix) && NoNewDuplicateFrontends(s0, s, prefix)
  }

  ghost predicate Safe(s0: LB, s: LB, prefix: string) {
    Sound(s0, s, prefix) && NoNewDuplicateBackends(s0, s, prefix)
  }

  /** The wiring the controller itself establishes: managed forward ports are distinct, managed
      frontends reference managed backends, foreign frontends keep off managed backends and off the
      given ports. */
  ghost predicate Clean(s: LB, prefix: string, ports: set<int>) {
    && ValidLB(s)
    && (forall a, b | a in s.backends && b in s.backends && a != b
          && Managed(s.backends[a].name, prefix) && Managed(s.backends[b].name, prefix) ::
          s.backends[a].forwardPort != s.backends[b].forwardPort)
    && (forall f | f in s.frontends ::
          Managed(s.frontends[f].name, prefix) == Managed(s.backends[s.frontends[f].backendId].name, prefix))
    && (forall f | f in s.frontends && !Managed(s.frontends[f].name, prefix) :: s.frontends[f].inboundPort !in ports)
  }

  // ---- The invariant of a run ----

  /** Who holds which port while a run is under way: the managed frontend of each port, the managed
      backend of each node port, and the strays, backends that the run created for a node port it had
      already created one for. */
  datatype Roles = Roles(f: map<int, Id>, b: map<int, Id>, strays: set<Id>)

  ghost predicate CoreFrontends(pl: Plan, s: LB, f: map<int, Id>) {
    && (forall id | id in s.frontends && Ours(s.frontends[id].name, pl) ::
          var p := s.frontends[id].inboundPort; p in f && f[p] == id)
    && (forall p | p in f ::
          f[p] in s.frontends && Ours(s.frontends[f[p]].name, pl) && s.frontends[f[p]].inboundPort == p)
    && (forall p | p in f :: (p in pl.ownF && f[p] == pl.ownF[p]) || (p in pl.newF && f[p] !in pl.s0.frontends))
    && (forall p | p in pl.ownF :: p in f && f[p] == pl.ownF[p])
    && (forall p | p in f ::
          || (f[p] in pl.s0.frontends && Unwritten(pl.s0.frontends[f[p]], s.frontends[f[p]]))
          || (p !in pl.keptF && WiredTo(pl, s, s.frontends[f[p]].backendId)))
  }

  /** At most the rules of the frontend were touched. */
  predicate Unwritten(f0: Frontend, f: Frontend) {
    f == f0.(acls := f.acls)
  }

  /** A managed backend that the run is not going to delete. */
  predicate WiredTo(pl: Plan, s: LB, b: Id) {
    b in s.backends && Ours(s.backends[b].name, pl) && b !in pl.remB
  }

  ghost predicate CoreBackends(pl: Plan, s: LB, b: map<int, Id>, strays: set<Id>, gone: set<Id>) {
    && (forall id | id in s.backends && Ours(s.backends[id].name, pl) ::
          (var p := s.backends[id].forwardPort; p in b && b[p] == id) || id in pl.remB || id in strays)
    && (forall p | p in b :: b[p] in s.backends && Ours(s.backends[b[p]].name, pl) && s.backends[b[p]].forwardPort == p)
    && (forall p | p in b :: (p in pl.ownB && b[p] == pl.ownB[p]) || (p in pl.newB && b[p] !in pl.s0.backends))
    && (forall p | p in pl.ownB :: p in b && b[p] == pl.ownB[p])
    && gone <= pl.remB
    && (forall id | id in pl.remB :: if id in gone then id !in s.backends
          else id in s.backends && id in pl.s0.backends && s.backends[id] == pl.s0.backends[id])
    && (forall x | x in strays :: Stray(pl, s, b, x))
  }

  ghost predicate Stray(pl: Plan, s: LB, b: map<int, Id>, x: Id) {
    && x in s.backends && Ours(s.backends[x].name, pl) && x !in pl.s0.backends
    && s.backends[x].forwardPort in b && b[s.backends[x].forwardPort] != x
    && s.backends[x].forwardPort in pl.newB
  }

  ghost predicate Core(pl: Plan, s: LB, o: Roles, gone: set<Id>) {
    && ValidLB(s)
    && CoreFrontends(pl, s, o.f)
    && CoreBackends(pl, s, o.b, o.strays, gone)
    && ForeignUntouched(pl.s0, s, pl.prefix)
  }

  /** No inbound port is taken twice that was not before, and no forward port either, except by strays. */
  lemma CoreSound(pl: Plan, s: LB, o: Roles, gone: set<Id>)
    requires PlanOk(pl) && Core(pl, s, o, gone)
    ensures Sound(pl.s0, s, pl.prefix)
    ensures Safe(pl.s0, s, pl.prefix) <==> o.strays == {}
  {
    hide CoreFrontends, CoreBackends, PlansFrontends, PlansBackends, ForeignUntouched, ValidLB;
    FrontendsDistinct(pl, s, o.f);
    if o.strays == {} {
      BackendsDistinct(pl, s, o.b, gone);
    } else {
      StraysDuplicate(pl, s, o.b, o.strays, gone);
    }
  }

  lemma StraysDuplicate(pl: Plan, s: LB, b: map<int, Id>, strays: set<Id>, gone: set<Id>)
    requires CoreBackends(pl, s, b, strays, gone) && strays != {}
    ensures !NoNewDuplicateBackends(pl.s0, s, pl.prefix)
  {
    var x :| x in strays;
    assert Stray(pl, s, b, x);
    StrayDuplicates(pl, s, b, strays, gone, x);
  }

  lemma FrontendsDistinct(pl: Plan, s: LB, f: map<int, Id>)
    requires CoreFrontends(pl, s, f)
    ensures forall a, b | a in s.frontends && b in s.frontends && Ours(s.frontends[a].name, pl)
            && Ours(s.frontends[b].name, pl)
              && s.frontends[a].inboundPort == s.frontends[b].inboundPort :: a == b
  {
  }

  lemma BackendsDistinct(pl: Plan, s: LB, b: map<int, Id>, gone: set<Id>)
    requires PlanOk(pl) && CoreBackends(pl, s, b, {}, gone)
    ensures forall x, y | x in s.backends && y in s.backends && x != y && Ours(s.backends[x].name, pl)
            && Ours(s.backends[y].name, pl)
              && s.backends[x].forwardPort == s.backends[y].forwardPort ::
              x in pl.s0.backends && y in pl.s0.backends
              && pl.s0.backends[x].forwardPort == s.backends[x].forwardPort
              && pl.s0.backends[y].forwardPort == s.backends[y].forwardPort
  {
    hide PlansFrontends, ValidLB;
    forall x, y | x in s.backends && y in s.backends && x != y && Ours(s.backends[x].name, pl)
        && Ours(s.backends[y].name, pl)
                  && s.backends[x].forwardPort == s.backends[y].forwardPort
      ensures x in pl.s0.backends && pl.s0.backends[x].forwardPort == s.backends[x].forwardPort
    {
      OneOfTwo(pl, s, b, gone, x, y);
    }
  }

  /** Of two managed backends on one port, one is surplus, so the port was occupied at the start. */
  lemma OneOfTwo(pl: Plan, s: LB, b: map<int, Id>, gone: set<Id>, x: Id, y: Id)
    requires PlansBackends(pl) && CoreBackends(pl, s, b, {}, gone)
    requires x in s.backends && y in s.backends && x != y && Ours(s.backends[x].name, pl)
             && Ours(s.backends[y].name, pl)
    requires s.backends[x].forwardPort == s.backends[y].forwardPort
    ensures x in pl.s0.backends && pl.s0.backends[x].forwardPort == s.backends[x].forwardPort
  {
    var q := s.backends[x].forwardPort;
    if x in pl.remB {
    } else {
      assert q in b && b[q] == x && y in pl.remB;
      assert q in pl.ownB;
    }
  }

  lemma StrayDuplicates(pl: Plan, s: LB, b: map<int, Id>, strays: set<Id>, gone: set<Id>, x: Id)
    requires CoreBackends(pl, s, b, strays, gone) && Stray(pl, s, b, x)
    ensures !NoNewDuplicateBackends(pl.s0, s, pl.prefix)
  {
    var y := b[s.backends[x].forwardPort];
    assert y in s.backends && Ours(s.backends[y].name, pl) && s.backends[y].forwardPort == s.backends[x].forwardPort;
  }

  lemma CoreClean(pl: Plan, s: LB, o: Roles, gone: set<Id>, ports: set<int>)
    requires PlanOk(pl) && Core(pl, s, o, gone) && o.strays == {} && Clean(pl.s0, pl.prefix, ports)
    ensures Clean(s, pl.prefix, ports)
  {
    hide PlansFrontends, PlansBackends, CoreFrontends, CoreBackends, ForeignUntouched;
    forall a, b | a in s.backends && b in s.backends && a != b && Ours(s.backends[a].name, pl)
        && Ours(s.backends[b].name, pl)
      ensures s.backends[a].forwardPort != s.backends[b].forwardPort
    {
      if s.backends[a].forwardPort == s.backends[b].forwardPort {
        OneOfTwo(pl, s, o.b, gone, a, b);
        OneOfTwo(pl, s, o.b, gone, b, a);
        StaysManaged(pl, s, a);
        StaysManaged(pl, s, b);
        assert false;
      }
    }
    forall f | f in s.frontends
      ensures Ours(s.frontends[f].name, pl) == Ours(s.backends[s.frontends[f].backendId].name, pl)
      ensures !Ours(s.frontends[f].name, pl) ==> s.frontends[f].inboundPort !in ports
    {
      CleanWiring(pl, s, o, gone, ports, f);
      if !Ours(s.frontends[f].name, pl) {
        ForeignStays(pl, s, f);
      }
    }
  }

  lemma ForeignStays(pl: Plan, s: LB, f: Id)
    requires ForeignUntouched(pl.s0, s, pl.prefix) && f in s.frontends && !Ours(s.frontends[f].name, pl)
    ensures f in pl.s0.frontends && pl.s0.frontends[f] == s.frontends[f]
  {
  }

  lemma CleanWiring(pl: Plan, s: LB, o: Roles, gone: set<Id>, ports: set<int>, f: Id)
    requires Core(pl, s, o, gone) && ValidLB(pl.s0) && Clean(pl.s0, pl.prefix, ports) && f in s.frontends
    ensures Ours(s.frontends[f].name, pl) == Ours(s.backends[s.frontends[f].backendId].name, pl)
  {
    var b := s.frontends[f].backendId;
    if f in pl.s0.frontends && pl.s0.frontends[f].backendId == b && b in pl.s0.backends {
      StaysManaged(pl, s, b);
    }
  }

  /** A backend present at the start is managed now exactly if it was then. */
  lemma StaysManaged(pl: Plan, s: LB, b: Id)
    requires ForeignUntouched(pl.s0, s, pl.prefix) && b in pl.s0.backends && b in s.backends
    ensures Ours(s.backends[b].name, pl) == Ours(pl.s0.backends[b].name, pl)
  {
  }

  // ---- The steps of the run ----

  lemma CoreStart(pl: Plan, s: LB)
    requires PlanOk(pl)
    requires s == pl.s0.(frontends := pl.s0.frontends - pl.remF)
    ensures Core(pl, s, Roles(pl.ownF, pl.ownB, {}), {})
  {
  }

  /** Deleting managed frontends only is safe, whatever their wiring. */
  lemma RemovingFrontends(pl: Plan, removed: set<Id>, ports: set<int>)
    requires PlanOk(pl) && removed <= pl.remF
    ensures var s := pl.s0.(frontends := pl.s0.frontends - removed);
            Safe(pl.s0, s, pl.prefix) && (Clean(pl.s0, pl.prefix, ports) ==> Clean(s, pl.prefix, ports))
  {
  }

  /** What becomes of the roles when the backend of a node port is written: a holder in place that is
      superseded by a new backend is a stray from then on. */
  function WithBackend(o: Roles, port: int, id: Id): Roles {
    o.(b := o.b[port := id], strays := o.strays + if port in o.b && o.b[port] != id then {o.b[port]} else {})
  }

  function WithFrontend(o: Roles, port: int, id: Id): Roles {
    o.(f := o.f[port := id])
  }

  /** The holder of a node port may be rewritten; a backend under a new identifier may be added for a
      port to be created on. */
  ghost predicate BackendSlot(pl: Plan, s: LB, b: map<int, Id>, port: int, id: Id) {
    || (port in b && b[port] == id)
    || (port in pl.newB && id !in s.backends && id !in pl.s0.backends)
  }

  ghost predicate FrontendSlot(pl: Plan, s: LB, f: map<int, Id>, port: int, id: Id) {
    if port in f then f[port] == id else port in pl.newF && id !in s.frontends && id !in pl.s0.frontends
  }

  /** Writing the managed backend of a port: an update in place, or a creation. */
  lemma WriteBackend(pl: Plan, s: LB, o: Roles, b: Backend)
    requires PlanOk(pl) && Core(pl, s, o, {})
    requires Ours(b.name, pl) && BackendSlot(pl, s, o.b, b.forwardPort, b.id)
    ensures Core(pl, PutBackend(s, b), WithBackend(o, b.forwardPort, b.id), {})
  {
    hide CoreBackends, CoreFrontends, ForeignUntouched, PlansFrontends, ValidLB;
    WriteBackendB(pl, s, o, b);
    WriteBackendF(pl, s, o, b);
    WriteBackendForeign(pl, s, o, b);
  }

  lemma SurplusNotHeld(pl: Plan, s: LB, o: Roles, b: Backend, id: Id)
    requires PlansBackends(pl) && CoreBackends(pl, s, o.b, o.strays, {}) && BackendSlot(pl, s, o.b, b.forwardPort, b.id)
    requires id in pl.remB
    ensures id != b.id && id in s.backends && s.backends[id] == pl.s0.backends[id]
  {
  }

  lemma StrayStays(pl: Plan, s: LB, o: Roles, b: Backend, x: Id)
    requires PlansBackends(pl) && CoreBackends(pl, s, o.b, o.strays, {}) && BackendSlot(pl, s, o.b, b.forwardPort, b.id)
    requires x in o.strays || (b.forwardPort in o.b && o.b[b.forwardPort] == x && x != b.id)
    ensures Stray(pl, PutBackend(s, b), o.b[b.forwardPort := b.id], x)
  {
    if x in o.strays {
      assert Stray(pl, s, o.b, x);
    }
  }

  lemma WriteBackendB(pl: Plan, s: LB, o: Roles, b: Backend)
    requires PlansBackends(pl) && CoreBackends(pl, s, o.b, o.strays, {})
    requires Ours(b.name, pl) && BackendSlot(pl, s, o.b, b.forwardPort, b.id)
    ensures var o' := WithBackend(o, b.forwardPort, b.id); CoreBackends(pl, PutBackend(s, b), o'.b, o'.strays, {})
  {
    hide PlansBackends, Stray;
    var s', o' := PutBackend(s, b), WithBackend(o, b.forwardPort, b.id);
    forall id | id in pl.remB
        ensures id in s'.backends && s'.backends[id] == pl.s0.backends[id] && id in pl.s0.backends
    {
      SurplusNotHeld(pl, s, o, b, id);
    }
    forall x | x in o'.strays ensures Stray(pl, s', o'.b, x) {
      StrayStays(pl, s, o, b, x);
    }
    SlotFrame(pl, s, o, b);
  }

  /** The other holders keep their ports. */
  lemma SlotFrame(pl: Plan, s: LB, o: Roles, b: Backend)
    requires PlansBackends(pl) && CoreBackends(pl, s, o.b, o.strays, {})
    requires Ours(b.name, pl) && BackendSlot(pl, s, o.b, b.forwardPort, b.id)
    ensures forall p | p in o.b && p != b.forwardPort :: o.b[p] != b.id
    ensures b.forwardPort in pl.ownB ==> b.id == pl.ownB[b.forwardPort]
    ensures b.id in s.backends ==> b.forwardPort in o.b && o.b[b.forwardPort] == b.id
    ensures (b.forwardPort in pl.ownB && b.id == pl.ownB[b.forwardPort])
            || (b.forwardPort in pl.newB && b.id !in pl.s0.backends)
  {
    if b.forwardPort in pl.ownB {
      var id := pl.ownB[b.forwardPort];
      assert Ours(pl.s0.backends[id].name, pl) && pl.s0.backends[id].forwardPort == b.forwardPort;
    }
  }

  lemma WriteBackendF(pl: Plan, s: LB, o: Roles, b: Backend)
    requires CoreFrontends(pl, s, o.f) && CoreBackends(pl, s, o.b, o.strays, {}) && PlansBackends(pl)
    requires Ours(b.name, pl) && BackendSlot(pl, s, o.b, b.forwardPort, b.id)
    ensures CoreFrontends(pl, PutBackend(s, b), o.f)
  {
    forall x | WiredTo(pl, s, x) ensures WiredTo(pl, PutBackend(s, b), x) {
    }
  }

  lemma WriteBackendForeign(pl: Plan, s: LB, o: Roles, b: Backend)
    requires ValidLB(s) && CoreBackends(pl, s, o.b, o.strays, {}) && ForeignUntouched(pl.s0, s, pl.prefix)
    requires Ours(b.name, pl) && BackendSlot(pl, s, o.b, b.forwardPort, b.id)
    ensures ValidLB(PutBackend(s, b)) && ForeignUntouched(pl.s0, PutBackend(s, b), pl.prefix)
  {
    if b.forwardPort in o.b && o.b[b.forwardPort] == b.id {
      assert Ours(s.backends[b.id].name, pl);
    }
  }

  /** Writing the managed frontend of a port: nothing but its rules, or, unless it is to be kept, all of
      it, on a managed backend. */
  lemma WriteFrontend(pl: Plan, s: LB, o: Roles, f: Frontend)
    requires PlanOk(pl) && Core(pl, s, o, {})
    requires Ours(f.name, pl) && FrontendSlot(pl, s, o.f, f.inboundPort, f.id)
    requires || (f.inboundPort in o.f && Unwritten(s.frontends[f.id], f))
             || (f.inboundPort !in pl.keptF && WiredTo(pl, s, f.backendId))
    ensures Core(pl, PutFrontend(s, f), WithFrontend(o, f.inboundPort, f.id), {})
  {
    hide CoreFrontends, PlansFrontends, PlansBackends, ForeignUntouched, ValidLB, Stray;
    WriteFrontendF(pl, s, o.f, f);
    WriteFrontendForeign(pl, s, o.f, f);
    WriteFrontendB(pl, s, o, f);
  }

  lemma WriteFrontendB(pl: Plan, s: LB, o: Roles, f: Frontend)
    requires CoreBackends(pl, s, o.b, o.strays, {})
    ensures CoreBackends(pl, PutFrontend(s, f), o.b, o.strays, {})
  {
    forall x | x in o.strays ensures Stray(pl, PutFrontend(s, f), o.b, x) {
      assert Stray(pl, s, o.b, x);
    }
  }

  lemma WriteFrontendF(pl: Plan, s: LB, f: map<int, Id>, x: Frontend)
    requires PlansFrontends(pl) && CoreFrontends(pl, s, f)
    requires Ours(x.name, pl) && FrontendSlot(pl, s, f, x.inboundPort, x.id)
    requires || (x.inboundPort in f && Unwritten(s.frontends[x.id], x))
             || (x.inboundPort !in pl.keptF && WiredTo(pl, s, x.backendId))
    ensures CoreFrontends(pl, PutFrontend(s, x), f[x.inboundPort := x.id])
  {
    hide Ours, WiredTo, Unwritten;
    var s', f' := PutFrontend(s, x), f[x.inboundPort := x.id];
    forall b | WiredTo(pl, s, b) ensures WiredTo(pl, s', b) {
      WiredStays(pl, s, x, b);
    }
    if x.inboundPort in f && Unwritten(s.frontends[x.id], x) {
      UnwrittenStays(pl, s, f, x);
    }
  }

  lemma WiredStays(pl: Plan, s: LB, x: Frontend, b: Id)
    requires WiredTo(pl, s, b)
    ensures WiredTo(pl, PutFrontend(s, x), b)
  {
  }

  /** Touching the rules of a frontend leaves it as unwritten, or as wired, as it was. */
  lemma UnwrittenStays(pl: Plan, s: LB, f: map<int, Id>, x: Frontend)
    requires x.id in s.frontends && Unwritten(s.frontends[x.id], x)
    ensures s.frontends[x.id].backendId == x.backendId
    ensures x.id in pl.s0.frontends && Unwritten(pl.s0.frontends[x.id], s.frontends[x.id]) ==>
              Unwritten(pl.s0.frontends[x.id], x)
  {
  }

  lemma WriteFrontendForeign(pl: Plan, s: LB, f: map<int, Id>, x: Frontend)
    requires ValidLB(s) && CoreFrontends(pl, s, f) && ForeignUntouched(pl.s0, s, pl.prefix)
    requires Ours(x.name, pl) && FrontendSlot(pl, s, f, x.inboundPort, x.id)
    requires (x.inboundPort in f && Unwritten(s.frontends[x.id], x)) || WiredTo(pl, s, x.backendId)
    ensures ValidLB(PutFrontend(s, x)) && ForeignUntouched(pl.s0, PutFrontend(s, x), pl.prefix)
  {
    if x.inboundPort in f {
      assert Ours(s.frontends[x.id].name, pl);
    }
  }

  /** Deleting a surplus backend that nothing references any more. */
  lemma RemoveBackend(pl: Plan, s: LB, o: Roles, gone: set<Id>, id: Id)
    requires PlanOk(pl) && Core(pl, s, o, gone)
    requires id in pl.remB - gone && forall f | f in s.frontends :: s.frontends[f].backendId != id
    ensures Core(pl, DropBackend(s, id), o, gone + {id})
  {
    hide CoreFrontends, CoreBackends, PlansFrontends, PlansBackends, ForeignUntouched, ValidLB, Ours;
    SurplusUnowned(pl, s, o, gone, id);
    RemoveBackendB(pl, s, o, gone, id);
    RemoveBackendF(pl, s, o.f, id);
    RemoveBackendForeign(pl, s, id);
  }

  lemma RemoveBackendForeign(pl: Plan, s: LB, id: Id)
    requires ValidLB(s) && ForeignUntouched(pl.s0, s, pl.prefix)
    requires id in s.backends && Ours(s.backends[id].name, pl)
             && forall f | f in s.frontends :: s.frontends[f].backendId != id
    ensures ValidLB(DropBackend(s, id)) && ForeignUntouched(pl.s0, DropBackend(s, id), pl.prefix)
  {
  }

  lemma SurplusUnowned(pl: Plan, s: LB, o: Roles, gone: set<Id>, id: Id)
    requires PlansBackends(pl) && CoreBackends(pl, s, o.b, o.strays, gone) && id in pl.remB
    ensures forall p | p in o.b :: o.b[p] != id
    ensures id !in o.strays
    ensures id !in gone ==> id in s.backends && Ours(s.backends[id].name, pl)
  {
  }

  lemma RemoveBackendB(pl: Plan, s: LB, o: Roles, gone: set<Id>, id: Id)
    requires CoreBackends(pl, s, o.b, o.strays, gone) && id in pl.remB - gone
    requires id !in o.strays && forall p | p in o.b :: o.b[p] != id
    ensures CoreBackends(pl, DropBackend(s, id), o.b, o.strays, gone + {id})
  {
    forall x | x in o.strays ensures Stray(pl, DropBackend(s, id), o.b, x) {
      assert Stray(pl, s, o.b, x);
    }
  }

  lemma RemoveBackendF(pl: Plan, s: LB, f: map<int, Id>, id: Id)
    requires CoreFrontends(pl, s, f) && id in pl.remB
    ensures CoreFrontends(pl, DropBackend(s, id), f)
  {
    forall x | WiredTo(pl, s, x) ensures WiredTo(pl, DropBackend(s, id), x) {
    }
  }

  // ---- When a run is turned down ----

  /** Some foreign frontend listens on a port to be created. */
  ghost predicate PortTaken(pl: Plan) {
    exists f | f in pl.s0.frontends :: !Ours(pl.s0.frontends[f].name, pl) && pl.s0.frontends[f].inboundPort in pl.newF
  }

  /** A backend to be deleted is referenced by a frontend the run leaves as it is. */
  ghost predicate StillReferenced(pl: Plan) {
    exists f | f in pl.s0.frontends :: pl.s0.frontends[f].backendId in pl.remB && Untouched(pl, f)
  }

  predicate Untouched(pl: Plan, f: Id)
    requires f in pl.s0.frontends
  {
    var front := pl.s0.frontends[f];
    !Ours(front.name, pl) || (front.inboundPort in pl.keptF && front.inboundPort in pl.ownF
        && pl.ownF[front.inboundPort] == f)
  }

  ghost predicate Blocked(pl: Plan) {
    PortTaken(pl) || StillReferenced(pl)
  }

  /** A port to be created can only be occupied by a foreign frontend, or by one just created. */
  lemma OccupiedMeansTaken(pl: Plan, s: LB, o: Roles, gone: set<Id>, f: Id)
    requires PlanOk(pl) && Core(pl, s, o, gone)
    requires f in s.frontends && s.frontends[f].inboundPort in pl.newF && s.frontends[f].inboundPort !in o.f
    ensures PortTakenAt(pl, s.frontends[f].inboundPort)
  {
    assert f in pl.s0.frontends;
  }

  /** A foreign frontend listens on the port. */
  ghost predicate PortTakenAt(pl: Plan, port: int) {
    exists f | f in pl.s0.frontends :: !Ours(pl.s0.frontends[f].name, pl) && pl.s0.frontends[f].inboundPort == port
  }
}
