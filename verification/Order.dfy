/** Listings whose order is stable: what a run leaves behind when it breaks off does not block the next
    one, provided the API lists the surviving objects in the same relative order again. */
module Order {
  import opened Basics
  import opened Sorting
  import opened Diff
  import opened LoadBalancer
  import opened Plan
  import opened PortState
  import opened Reconcile
  import opened Planning
  import opened Convergence
  import opened Update

  /** The order in which the API lists frontends and backends. */
  datatype Order = Order(frontends: Id -> int, backends: Id -> int)

  ghost predicate InOrder<T>(xs: seq<Keyed<T>>, rank: Id -> int) {
    forall i, j | 0 <= i < j < |xs| :: rank(xs[i].id) < rank(xs[j].id)
  }

  /** Of the managed objects on a port, the first listed one has the lowest rank. */
  lemma FirstLeads<T>(got: seq<Keyed<T>>, prefix: string, rank: Id -> int, x: Keyed<T>)
    requires InOrder(got, rank) && x in got && Managed(x.name, prefix)
    ensures First(got, prefix, x.port) == Some(x) <==>
            forall y | y in got && Managed(y.name, prefix) && y.port == x.port :: rank(x.id) <= rank(y.id)
  {
    hide First, Managed;
    FirstIsFirst(got, prefix, x.port);
    var i :| 0 <= i < |got| && First(got, prefix, x.port) == Some(got[i]) && Managed(got[i].name, prefix)
        && got[i].port == x.port
             && forall j | 0 <= j < i :: !(Managed(got[j].name, prefix) && got[j].port == x.port);
    var k :| 0 <= k < |got| && got[k] == x;
    assert i <= k;
    if k == i {
      forall y | y in got && Managed(y.name, prefix) && y.port == x.port ensures rank(x.id) <= rank(y.id) {
        var j :| 0 <= j < |got| && got[j] == y;
        assert i <= j;
      }
    } else {
      assert rank(got[i].id) < rank(x.id) && got[i] in got;
    }
  }

  ghost predicate LeadsF(s: LB, prefix: string, rank: Id -> int, id: Id)
    requires id in s.frontends
  {
    forall y | y in s.frontends && Managed(s.frontends[y].name, prefix)
        && s.frontends[y].inboundPort == s.frontends[id].inboundPort ::
      rank(id) <= rank(y)
  }

  ghost predicate LeadsB(s: LB, prefix: string, rank: Id -> int, id: Id)
    requires id in s.backends
  {
    forall y | y in s.backends && Managed(s.backends[y].name, prefix)
        && s.backends[y].forwardPort == s.backends[id].forwardPort ::
      rank(id) <= rank(y)
  }

  lemma LeadsListedF(s: LB, fs: seq<ListedFrontend>, prefix: string, rank: Id -> int, id: Id)
    requires ValidLB(s) && ListsFrontends(fs, s) && InOrder(fs, rank) && id in s.frontends
             && Managed(s.frontends[id].name, prefix)
    ensures var x := ViewFrontend(s, s.frontends[id]);
            x in fs && (First(fs, prefix, x.port) == Some(x) <==> LeadsF(s, prefix, rank, id))
  {
    hide First, Managed;
    var x := ViewFrontend(s, s.frontends[id]);
    FirstLeads(fs, prefix, rank, x);
    assert forall y | y in s.frontends :: ViewFrontend(s, s.frontends[y]) in fs;
  }

  lemma LeadsListedB(s: LB, bs: seq<ListedBackend>, prefix: string, rank: Id -> int, id: Id)
    requires ValidLB(s) && ListsBackends(bs, s) && InOrder(bs, rank) && id in s.backends
             && Managed(s.backends[id].name, prefix)
    ensures var x := ViewBackend(s.backends[id]);
            x in bs && (First(bs, prefix, x.port) == Some(x) <==> LeadsB(s, prefix, rank, id))
  {
    hide First, Managed;
    var x := ViewBackend(s.backends[id]);
    FirstLeads(bs, prefix, rank, x);
    assert forall y | y in s.backends :: ViewBackend(s.backends[y]) in bs;
  }

  /** A listing of a state, in the given order, with everything a plan is drawn from. */
  ghost predicate Drawn(inp: Inputs, s: LB, fs: seq<ListedFrontend>, bs: seq<ListedBackend>, order: Order) {
    && ValidLB(s) && ListsFrontends(fs, s) && ListsBackends(bs, s)
    && InOrder(fs, order.frontends) && InOrder(bs, order.backends)
    && DistinctPorts(inp.svc) && AnnotationsValid(inp.svc)
  }

  lemma WantedDomain(inp: Inputs, p: int)
    requires AnnotationsValid(inp.svc)
    ensures p in FrontendTargets(inp.svc, |inp.svc.ports|) <==> TcpPort(inp.svc, p)
    ensures p in BackendTargets(inp.svc, |inp.svc.ports|, inp.targets) <==> TcpNodePort(inp.svc, p)
  {
    FrontendTargetsDomain(inp.svc, |inp.svc.ports|, p);
    BackendTargetsDomain(inp.svc, |inp.svc.ports|, inp.targets, p);
  }

  /** A managed backend is surplus unless it leads a wanted node port. */
  lemma SurplusBackend(inp: Inputs, s: LB, fs: seq<ListedFrontend>, bs: seq<ListedBackend>, order: Order, id: Id)
    requires Drawn(inp, s, fs, bs, order) && id in s.backends && Managed(s.backends[id].name, PrefixFilter(inp.svc))
    ensures id in PlanOf(inp, s, fs, bs).remB <==>
            !(TcpNodePort(inp.svc, s.backends[id].forwardPort) && LeadsB(s, PrefixFilter(inp.svc), order.backends, id))
  {
    hide First, Managed, TcpNodePort, LeadsB, BackendTargets, PrefixFilter, BackendEquals, Surplus, AnnotationsValid,
         ListsFrontends;
    var x := ViewBackend(s.backends[id]);
    var want := BackendTargets(inp.svc, |inp.svc.ports|, inp.targets);
    LeadsListedB(s, bs, PrefixFilter(inp.svc), order.backends, id);
    SurplusIn(bs, want, PrefixFilter(inp.svc), x);
    RemovedFacts(bs, want, PrefixFilter(inp.svc), BackendEquals, x);
    WantedDomain(inp, x.port);
  }

  /** A managed frontend owns its port exactly if the port is wanted and it leads there. */
  lemma OwningFrontend(inp: Inputs, s: LB, fs: seq<ListedFrontend>, bs: seq<ListedBackend>, order: Order, id: Id)
    requires Drawn(inp, s, fs, bs, order) && id in s.frontends && Managed(s.frontends[id].name, PrefixFilter(inp.svc))
    ensures var pl, p := PlanOf(inp, s, fs, bs), s.frontends[id].inboundPort;
            p in pl.ownF && pl.ownF[p] == id
            <==> TcpPort(inp.svc, p) && LeadsF(s, PrefixFilter(inp.svc), order.frontends, id)
  {
    hide First, Managed, TcpPort, LeadsF, FrontendTargets, PrefixFilter, FrontendEquals, Surplus, AnnotationsValid,
         ListsBackends;
    var x := ViewFrontend(s, s.frontends[id]);
    var want := FrontendTargets(inp.svc, |inp.svc.ports|);
    LeadsListedF(s, fs, PrefixFilter(inp.svc), order.frontends, id);
    SurplusIn(fs, want, PrefixFilter(inp.svc), x);
    OwnedOrRemoved(fs, want, PrefixFilter(inp.svc), FrontendEquals, x);
    WantedDomain(inp, x.port);
  }

  /** A port is to be created on exactly if it is wanted and nothing managed is there. */
  lemma LackingPort(inp: Inputs, s: LB, fs: seq<ListedFrontend>, bs: seq<ListedBackend>, p: int)
    requires ValidLB(s) && ListsFrontends(fs, s) && AnnotationsValid(inp.svc)
    ensures p in PlanOf(inp, s, fs, bs).newF <==> TcpPort(inp.svc, p) && !HasFrontend(s, PrefixFilter(inp.svc), p)
  {
    hide Managed, PrefixFilter, FrontendTargets, TcpPort, AnnotationsValid, First, FrontendEquals;
    FirstIsFirst(fs, PrefixFilter(inp.svc), p);
    WantedDomain(inp, p);
    if f :| f in s.frontends && Managed(s.frontends[f].name, PrefixFilter(inp.svc)) && s.frontends[f].inboundPort == p {
      assert ViewFrontend(s, s.frontends[f]) in fs;
    }
  }

  lemma LackingNodePort(inp: Inputs, s: LB, fs: seq<ListedFrontend>, bs: seq<ListedBackend>, q: int)
    requires ValidLB(s) && ListsBackends(bs, s) && AnnotationsValid(inp.svc)
    ensures q in PlanOf(inp, s, fs, bs).newB <==> TcpNodePort(inp.svc, q) && !HasBackend(s, PrefixFilter(inp.svc), q)
  {
    hide Managed, PrefixFilter, BackendTargets, TcpNodePort, AnnotationsValid, First, BackendEquals;
    FirstIsFirst(bs, PrefixFilter(inp.svc), q);
    WantedDomain(inp, q);
    if b :| b in s.backends && Managed(s.backends[b].name, PrefixFilter(inp.svc)) && s.backends[b].forwardPort == q {
      assert ViewBackend(s.backends[b]) in bs;
    }
  }

  ghost predicate HasFrontend(s: LB, prefix: string, port: int) {
    exists f | f in s.frontends :: Managed(s.frontends[f].name, prefix) && s.frontends[f].inboundPort == port
  }

  ghost predicate HasBackend(s: LB, prefix: string, port: int) {
    exists b | b in s.backends :: Managed(s.backends[b].name, prefix) && s.backends[b].forwardPort == port
  }

  // ---- What stays, midway through a run ----

  /** The holders of wanted ports at the start are still there, on their ports. */
  lemma OwnersStay(pl: Plan, svc: Service, s: LB)
    requires PlanFits(pl, svc) && Midway(pl, svc, s)
    ensures forall p | p in pl.ownF ::
              HasFrontend(s, pl.prefix, p) && pl.ownF[p] in s.frontends && s.frontends[pl.ownF[p]].inboundPort == p
                                       && Ours(s.frontends[pl.ownF[p]].name, pl)
    ensures forall q | q in pl.ownB ::
              HasBackend(s, pl.prefix, q) && pl.ownB[q] in s.backends && s.backends[pl.ownB[q]].forwardPort == q
                                       && Ours(s.backends[pl.ownB[q]].name, pl)
  {
    hide Midway, PlanFits, HasFrontend, HasBackend, Ours;
    forall p | p in pl.ownF
      ensures HasFrontend(s, pl.prefix, p) && pl.ownF[p] in s.frontends && s.frontends[pl.ownF[p]].inboundPort == p
              && Ours(s.frontends[pl.ownF[p]].name, pl)
    {
      FrontendStays(pl, svc, s, p);
    }
    forall q | q in pl.ownB
      ensures HasBackend(s, pl.prefix, q) && pl.ownB[q] in s.backends && s.backends[pl.ownB[q]].forwardPort == q
              && Ours(s.backends[pl.ownB[q]].name, pl)
    {
      BackendStays(pl, svc, s, q);
    }
  }

  lemma FrontendStays(pl: Plan, svc: Service, s: LB, p: int)
    requires PlanFits(pl, svc) && Midway(pl, svc, s) && p in pl.ownF
    ensures HasFrontend(s, pl.prefix, p) && pl.ownF[p] in s.frontends && s.frontends[pl.ownF[p]].inboundPort == p
            && Ours(s.frontends[pl.ownF[p]].name, pl)
  {
    hide TurnFits, Doubles, ForeignUntouched, PlansBackends, CoreBackends, ValidLB;
    var f := pl.ownF[p];
    if o, gone :| Core(pl, s, o, gone) && (o.strays != {} ==> Doubles(pl, svc)) {
      assert p in o.f && o.f[p] == f;
    } else {
      assert f in s.frontends && Ours(s.frontends[f].name, pl);
    }
    assert f in s.frontends && Managed(s.frontends[f].name, pl.prefix) && s.frontends[f].inboundPort == p;
  }

  lemma BackendStays(pl: Plan, svc: Service, s: LB, q: int)
    requires PlanFits(pl, svc) && Midway(pl, svc, s) && q in pl.ownB
    ensures HasBackend(s, pl.prefix, q) && pl.ownB[q] in s.backends && s.backends[pl.ownB[q]].forwardPort == q
            && Ours(s.backends[pl.ownB[q]].name, pl)
  {
    hide TurnFits, Doubles, ForeignUntouched, PlansFrontends, CoreFrontends, ValidLB;
    var b := pl.ownB[q];
    if o, gone :| Core(pl, s, o, gone) && (o.strays != {} ==> Doubles(pl, svc)) {
      assert q in o.b && o.b[q] == b;
    } else {
      assert b in s.backends && Ours(s.backends[b].name, pl);
    }
    assert b in s.backends && Managed(s.backends[b].name, pl.prefix) && s.backends[b].forwardPort == q;
  }

  /** So nothing has to be created that did not have to be at the start. */
  lemma StillLacking(inp: Inputs, s0: LB, fs: seq<ListedFrontend>, bs: seq<ListedBackend>, s: LB, p: int)
    requires ValidLB(s0) && ListsFrontends(fs, s0) && ListsBackends(bs, s0) && DistinctPorts(inp.svc)
             && AnnotationsValid(inp.svc)
    requires Midway(PlanOf(inp, s0, fs, bs), inp.svc, s)
    ensures TcpPort(inp.svc, p) && HasFrontend(s0, PrefixFilter(inp.svc), p) ==>
              HasFrontend(s, PrefixFilter(inp.svc), p)
    ensures TcpNodePort(inp.svc, p) && HasBackend(s0, PrefixFilter(inp.svc), p) ==>
              HasBackend(s, PrefixFilter(inp.svc), p)
  {
    hide PlanOf, PlanFits, Midway, HasFrontend, HasBackend, TcpPort, TcpNodePort, AnnotationsValid, DistinctPorts,
         ListsFrontends, ListsBackends;
    var pl := PlanOf(inp, s0, fs, bs);
    PlanFields(inp, s0, fs, bs);
    ListingPlans(inp, s0, fs, bs);
    OwnersStay(pl, inp.svc, s);
    LackingPort(inp, s0, fs, bs, p);
    LackingNodePort(inp, s0, fs, bs, p);
    WantedPlanned(pl, inp.svc, p);
  }

  lemma WantedPlanned(pl: Plan, svc: Service, p: int)
    requires PlanFits(pl, svc)
    ensures TcpPort(svc, p) ==> p in pl.ownF || p in pl.newF
    ensures TcpNodePort(svc, p) ==> p in pl.ownB || p in pl.newB
  {
    hide TurnFits, PlanOk;
    if TcpPort(svc, p) {
      var i :| 0 <= i < |svc.ports| && svc.ports[i].protocol == TCP && svc.ports[i].port == p;
      PortPlanned(pl, svc, i);
    }
    if TcpNodePort(svc, p) {
      var i :| 0 <= i < |svc.ports| && svc.ports[i].protocol == TCP && svc.ports[i].nodePort == p;
      NodePortPlanned(pl, svc, i);
    }
  }

  /** A managed backend midway was there at the start, on its port, or was created where there was none. */
  lemma BackendOrigin(pl: Plan, svc: Service, s: LB, y: Id)
    requires PlanFits(pl, svc) && Midway(pl, svc, s) && !Doubles(pl, svc)
    requires y in s.backends && Ours(s.backends[y].name, pl)
    ensures var q := s.backends[y].forwardPort;
            || (y in pl.s0.backends && Ours(pl.s0.backends[y].name, pl) && pl.s0.backends[y].forwardPort == q)
            || (y !in pl.s0.backends && q in pl.newB
                && forall z | z in s.backends && Ours(s.backends[z].name, pl) && s.backends[z].forwardPort == q ::
                      z == y)
  {
    hide TurnFits, Doubles, Managed, PlansFrontends, CoreFrontends;
  }

  /** The backend that led its port at the start still leads it. */
  lemma LeaderStays(inp: Inputs, s0: LB, fs: seq<ListedFrontend>, bs: seq<ListedBackend>, s: LB, order: Order, b: Id)
    requires Drawn(inp, s0, fs, bs, order)
    requires Midway(PlanOf(inp, s0, fs, bs), inp.svc, s) && !Doubles(PlanOf(inp, s0, fs, bs), inp.svc)
    requires b in s0.backends && Managed(s0.backends[b].name, PrefixFilter(inp.svc))
             && b !in PlanOf(inp, s0, fs, bs).remB
    ensures b in s.backends && s.backends[b].forwardPort == s0.backends[b].forwardPort
    ensures Managed(s.backends[b].name, PrefixFilter(inp.svc)) && LeadsB(s, PrefixFilter(inp.svc), order.backends, b)
    ensures TcpNodePort(inp.svc, s.backends[b].forwardPort)
  {
    hide PlanOf, PlanFits, Midway, Managed, TcpNodePort, AnnotationsValid, DistinctPorts, Doubles, ListsFrontends,
         ListsBackends, InOrder, PrefixFilter;
    var pl := PlanOf(inp, s0, fs, bs);
    PlanFields(inp, s0, fs, bs);
    ListingPlans(inp, s0, fs, bs);
    SurplusBackend(inp, s0, fs, bs, order, b);
    OwnedBackendAt(pl, inp.svc, b);
    OwnersStay(pl, inp.svc, s);
    forall y | y in s.backends && Managed(s.backends[y].name, pl.prefix)
        && s.backends[y].forwardPort == s.backends[b].forwardPort
      ensures order.backends(b) <= order.backends(y)
    {
      BackendOrigin(pl, inp.svc, s, y);
    }
  }

  lemma OwnedBackendAt(pl: Plan, svc: Service, b: Id)
    requires PlanFits(pl, svc) && b in pl.s0.backends && Ours(pl.s0.backends[b].name, pl) && b !in pl.remB
    ensures pl.s0.backends[b].forwardPort in pl.ownB && pl.ownB[pl.s0.backends[b].forwardPort] == b
  {
    hide TurnFits;
  }

  // ---- An unblocked run stays unblocked ----

  /** No foreign frontend gets in the way of a creation midway that did not at the start. */
  lemma PortStaysFree(inp: Inputs, s0: LB, fs: seq<ListedFrontend>, bs: seq<ListedBackend>,
                      s: LB, fs': seq<ListedFrontend>, bs': seq<ListedBackend>, order: Order)
    requires Drawn(inp, s0, fs, bs, order) && Drawn(inp, s, fs', bs', order)
    requires Midway(PlanOf(inp, s0, fs, bs), inp.svc, s) && PortTaken(PlanOf(inp, s, fs', bs'))
    ensures PortTaken(PlanOf(inp, s0, fs, bs))
  {
    hide PlanOf, Midway, Managed, TcpPort, TcpNodePort, AnnotationsValid, DistinctPorts, ListsFrontends, ListsBackends,
         InOrder, PrefixFilter, HasFrontend, HasBackend;
    hide ValidLB, ForeignUntouched;
    var pl, pl' := PlanOf(inp, s0, fs, bs), PlanOf(inp, s, fs', bs');
    PlanFields(inp, s0, fs, bs);
    PlanFields(inp, s, fs', bs');
    ListingPlans(inp, s0, fs, bs);
    PlanSound(pl, inp.svc);
    MidwayForeign(pl, inp.svc, s);
    var f :| f in s.frontends && !Ours(s.frontends[f].name, pl') && s.frontends[f].inboundPort in pl'.newF;
    var p := s.frontends[f].inboundPort;
    ForeignSame(pl, s, f);
    LackingPort(inp, s, fs', bs', p);
    StillLacking(inp, s0, fs, bs, s, p);
    LackingPort(inp, s0, fs, bs, p);
  }

  lemma MidwayForeign(pl: Plan, svc: Service, s: LB)
    requires PlanOk(pl) && Midway(pl, svc, s)
    ensures ForeignUntouched(pl.s0, s, pl.prefix) && ValidLB(s)
  {
    MidwaySafe(pl, svc, s, {});
  }

  lemma ForeignSame(pl: Plan, s: LB, f: Id)
    requires ForeignUntouched(pl.s0, s, pl.prefix) && f in s.frontends && !Ours(s.frontends[f].name, pl)
    ensures f in pl.s0.frontends && pl.s0.frontends[f] == s.frontends[f]
  {
  }

  /** A managed frontend midway that still sits on a surplus backend is as it was listed. */
  lemma UnmovedFrontend(pl: Plan, svc: Service, s: LB, f: Id)
    requires PlanFits(pl, svc) && Midway(pl, svc, s) && f in s.frontends && Ours(s.frontends[f].name, pl)
    requires s.frontends[f].backendId in pl.remB
    ensures f in pl.s0.frontends && Unwritten(pl.s0.frontends[f], s.frontends[f])
    ensures s.frontends[f].backendId in pl.s0.backends && s.frontends[f].backendId in s.backends
    ensures s.backends[s.frontends[f].backendId] == pl.s0.backends[s.frontends[f].backendId]
  {
    hide TurnFits, Doubles, Managed, ForeignUntouched;
  }

  /** A frontend that would be kept midway, and that is as it was listed, would have been kept then. */
  lemma KeptBefore(inp: Inputs, s0: LB, fs: seq<ListedFrontend>, bs: seq<ListedBackend>,
                   s: LB, fs': seq<ListedFrontend>, bs': seq<ListedBackend>, order: Order, f: Id)
    requires Drawn(inp, s0, fs, bs, order) && Drawn(inp, s, fs', bs', order)
    requires Midway(PlanOf(inp, s0, fs, bs), inp.svc, s)
    requires f in s.frontends && f in s0.frontends && Unwritten(s0.frontends[f], s.frontends[f])
    requires s.frontends[f].backendId in s0.backends
             && s.backends[s.frontends[f].backendId].forwardPort == s0.backends[s.frontends[f].backendId].forwardPort
    requires Managed(s.frontends[f].name, PrefixFilter(inp.svc)) && Untouched(PlanOf(inp, s, fs', bs'), f)
    ensures Untouched(PlanOf(inp, s0, fs, bs), f)
  {
    hide PlanOf, Midway, Managed, AnnotationsValid, DistinctPorts, ListsFrontends, ListsBackends, InOrder, PrefixFilter,
         FrontendTarget, LeadsF, StringArrayEqual;
    var pl, pl' := PlanOf(inp, s0, fs, bs), PlanOf(inp, s, fs', bs');
    PlanFields(inp, s0, fs, bs);
    PlanFields(inp, s, fs', bs');
    var p := s.frontends[f].inboundPort;
    OwningFrontend(inp, s, fs', bs', order, f);
    LeaderBefore(inp, s0, fs, bs, s, fs', bs', order, f);
    OwningFrontend(inp, s0, fs, bs, order, f);
    var i :| 0 <= i < |inp.svc.ports| && inp.svc.ports[i].protocol == TCP && inp.svc.ports[i].port == p;
    TcpUsable(inp.svc, i);
    FrontendPort(inp, s, fs', bs', i);
    FrontendPort(inp, s0, fs, bs, i);
  }

  lemma TcpUsable(svc: Service, i: nat)
    requires AnnotationsValid(svc) && i < |svc.ports| && svc.ports[i].protocol == TCP
    ensures Usable(svc.ports[i])
  {
  }

  /** The frontend that leads its wanted port midway led it at the start: the one that did has not gone. */
  lemma LeaderBefore(inp: Inputs, s0: LB, fs: seq<ListedFrontend>, bs: seq<ListedBackend>,
                     s: LB, fs': seq<ListedFrontend>, bs': seq<ListedBackend>, order: Order, f: Id)
    requires Drawn(inp, s0, fs, bs, order) && Drawn(inp, s, fs', bs', order)
    requires Midway(PlanOf(inp, s0, fs, bs), inp.svc, s)
    requires f in s.frontends && f in s0.frontends && Unwritten(s0.frontends[f], s.frontends[f])
    requires Managed(s.frontends[f].name, PrefixFilter(inp.svc)) && TcpPort(inp.svc, s.frontends[f].inboundPort)
    requires LeadsF(s, PrefixFilter(inp.svc), order.frontends, f)
    ensures LeadsF(s0, PrefixFilter(inp.svc), order.frontends, f)
  {
    hide PlanOf, PlanFits, Midway, Managed, TcpPort, TcpNodePort, AnnotationsValid, DistinctPorts, ListsBackends,
         PrefixFilter, HasFrontend, HasBackend;
    var pl := PlanOf(inp, s0, fs, bs);
    var p := s.frontends[f].inboundPort;
    PlanFields(inp, s0, fs, bs);
    ListingPlans(inp, s0, fs, bs);
    OwnersStay(pl, inp.svc, s);
    WantedPlanned(pl, inp.svc, p);
    LackingPort(inp, s0, fs, bs, p);
    assert HasFrontend(s0, pl.prefix, p) by {
      HasOne(s0, pl.prefix, f);
    }
    var g := pl.ownF[p];
    OwnerListed(pl, inp.svc, p);
    OwningFrontend(inp, s0, fs, bs, order, g);
    assert order.frontends(f) <= order.frontends(g) <= order.frontends(f);
    RanksDiffer(s, fs', order.frontends, f, g);
  }

  lemma HasOne(s: LB, prefix: string, f: Id)
    requires f in s.frontends && Managed(s.frontends[f].name, prefix)
    ensures HasFrontend(s, prefix, s.frontends[f].inboundPort)
  {
  }

  lemma OwnerListed(pl: Plan, svc: Service, p: int)
    requires PlanFits(pl, svc) && p in pl.ownF
    ensures pl.ownF[p] in pl.s0.frontends && Ours(pl.s0.frontends[pl.ownF[p]].name, pl)
            && pl.s0.frontends[pl.ownF[p]].inboundPort == p
  {
    hide TurnFits;
  }

  lemma RanksDiffer(s: LB, fs: seq<ListedFrontend>, rank: Id -> int, f: Id, g: Id)
    requires ValidLB(s) && ListsFrontends(fs, s) && InOrder(fs, rank) && f in s.frontends && g in s.frontends
             && rank(f) == rank(g)
    ensures f == g
  {
    assert ViewFrontend(s, s.frontends[f]) in fs && ViewFrontend(s, s.frontends[g]) in fs;
    var i :| 0 <= i < |fs| && fs[i] == ViewFrontend(s, s.frontends[f]);
    var j :| 0 <= j < |fs| && fs[j] == ViewFrontend(s, s.frontends[g]);
  }

  /** No untouched frontend midway keeps a surplus backend from being deleted that none did at the start. */
  lemma ReferenceStays(inp: Inputs, s0: LB, fs: seq<ListedFrontend>, bs: seq<ListedBackend>,
                       s: LB, fs': seq<ListedFrontend>, bs': seq<ListedBackend>, order: Order, f: Id)
    requires Drawn(inp, s0, fs, bs, order) && Drawn(inp, s, fs', bs', order)
    requires Midway(PlanOf(inp, s0, fs, bs), inp.svc, s) && !Doubles(PlanOf(inp, s0, fs, bs), inp.svc)
    requires f in s.frontends && Untouched(PlanOf(inp, s, fs', bs'), f)
             && s.frontends[f].backendId in PlanOf(inp, s, fs', bs').remB
    ensures StillReferenced(PlanOf(inp, s0, fs, bs))
  {
    hide PlanOf, PlanFits, Midway, Managed, TcpPort, TcpNodePort, AnnotationsValid, DistinctPorts, Doubles,
         ListsFrontends, ListsBackends, InOrder;
    hide PrefixFilter, LeadsB, ForeignUntouched, PlanOk;
    var pl, pl' := PlanOf(inp, s0, fs, bs), PlanOf(inp, s, fs', bs');
    PlanFields(inp, s0, fs, bs);
    PlanFields(inp, s, fs', bs');
    ListingPlans(inp, s0, fs, bs);
    ListingPlans(inp, s, fs', bs');
    PlanSound(pl, inp.svc);
    MidwayForeign(pl, inp.svc, s);
    var b := s.frontends[f].backendId;
    SurplusManaged(pl', inp.svc, b);
    SurplusBackend(inp, s, fs', bs', order, b);
    BackendOrigin(pl, inp.svc, s, b);
    if b !in s0.backends {
      CreatedLeads(pl, inp.svc, s, order, b);
    }
    if b !in pl.remB {
      LeaderStays(inp, s0, fs, bs, s, order, b);
    }
    if Ours(s.frontends[f].name, pl) {
      UnmovedFrontend(pl, inp.svc, s, f);
      KeptBefore(inp, s0, fs, bs, s, fs', bs', order, f);
    } else {
      ForeignSame(pl, s, f);
    }
    assert Untouched(pl, f) && pl.s0.frontends[f].backendId == b;
  }

  lemma SurplusManaged(pl: Plan, svc: Service, b: Id)
    requires PlanFits(pl, svc) && b in pl.remB
    ensures b in pl.s0.backends && Ours(pl.s0.backends[b].name, pl)
  {
    hide TurnFits;
  }

  /** A backend created during the run is alone on its wanted port. */
  lemma CreatedLeads(pl: Plan, svc: Service, s: LB, order: Order, b: Id)
    requires PlanFits(pl, svc) && Midway(pl, svc, s) && !Doubles(pl, svc)
    requires b in s.backends && Ours(s.backends[b].name, pl) && b !in pl.s0.backends
    ensures TcpNodePort(svc, s.backends[b].forwardPort) && LeadsB(s, pl.prefix, order.backends, b)
  {
    hide TurnFits, PlanOk, Midway, Doubles, TcpNodePort;
    BackendOrigin(pl, svc, s, b);
  }

  /** Every state on the way of an unblocked run is itself unblocked, if the listing order is stable. */
  lemma MidwayUnblocked(inp: Inputs, s0: LB, fs: seq<ListedFrontend>, bs: seq<ListedBackend>,
                        s: LB, fs': seq<ListedFrontend>, bs': seq<ListedBackend>, order: Order)
    requires Drawn(inp, s0, fs, bs, order) && Drawn(inp, s, fs', bs', order)
    requires Midway(PlanOf(inp, s0, fs, bs), inp.svc, s) && !Doubles(PlanOf(inp, s0, fs, bs), inp.svc)
    requires !Blocked(PlanOf(inp, s0, fs, bs))
    ensures !Blocked(PlanOf(inp, s, fs', bs'))
  {
    hide PlanOf, Midway, Doubles, Drawn, PortTaken;
    PlanFields(inp, s, fs', bs');
    if PortTaken(PlanOf(inp, s, fs', bs')) {
      PortStaysFree(inp, s0, fs, bs, s, fs', bs', order);
    }
    forall f | f in s.frontends && Untouched(PlanOf(inp, s, fs', bs'), f)
        ensures s.frontends[f].backendId !in PlanOf(inp, s, fs', bs').remB
    {
      if s.frontends[f].backendId in PlanOf(inp, s, fs', bs').remB {
        ReferenceStays(inp, s0, fs, bs, s, fs', bs', order, f);
      }
    }
  }
}
