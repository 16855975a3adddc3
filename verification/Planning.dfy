/** From a listing to a plan: the diff of any complete listing is a plan the run can rely on. */
module Planning {
  import opened Basics
  import opened Sorting
  import opened Diff
  import opened LoadBalancer
  import opened Plan
  import opened PortState
  import opened Reconcile

  function FrontendOps(inp: Inputs, fs: seq<ListedFrontend>): Ops<FrontendBody> {
    Compared(fs, FrontendTargets(inp.svc, |inp.svc.ports|), PrefixFilter(inp.svc), FrontendEquals)
  }

  function BackendOps(inp: Inputs, bs: seq<ListedBackend>): Ops<BackendBody> {
    Compared(bs, BackendTargets(inp.svc, |inp.svc.ports|, inp.targets), PrefixFilter(inp.svc), BackendEquals)
  }

  ghost function Ids<T>(xs: seq<Keyed<T>>): set<Id> {
    set x | x in xs :: x.id
  }

  /** The plan a run draws from what the API listed. */
  ghost function PlanOf(inp: Inputs, s0: LB, fs: seq<ListedFrontend>, bs: seq<ListedBackend>): Plan {
    var f, b := FrontendOps(inp, fs), BackendOps(inp, bs);
    Plan(s0, PrefixFilter(inp.svc),
         Owners(f), f.keep.Keys, f.create.Keys, Ids(f.remove),
         Owners(b), b.keep.Keys, b.create.Keys, Ids(b.remove))
  }

  // ---- Generic facts about a diff, in terms of a lookup by identifier ----

  lemma OwnerFacts<T>(got: seq<Keyed<T>>, want: map<int, Keyed<T>>, prefix: string, same: (Keyed<T>, Keyed<T>) -> bool,
                      p: int)
    requires DistinctIds(got)
    requires p in Owners(Compared(got, want, prefix, same))
    ensures exists x | x in got ::
              x.id == Owners(Compared(got, want, prefix, same))[p] && Managed(x.name, prefix) && x.port == p
    ensures Owners(Compared(got, want, prefix, same))[p] !in Ids(Compared(got, want, prefix, same).remove)
  {
    var ops := Compared(got, want, prefix, same);
    OwnersListed(got, want, prefix, same, p);
    var x :| x in got && x.id == Owners(ops)[p] && Managed(x.name, prefix) && x.port == p;
    OwnedOrRemoved(got, want, prefix, same, x);
    forall y | y in ops.remove ensures y.id != x.id {
      SurplusIn(got, want, prefix, y);
      if y.id == x.id { SameId(got, x, y); }
    }
  }

  lemma RemovedFacts<T>(got: seq<Keyed<T>>, want: map<int, Keyed<T>>, prefix: string,
                        same: (Keyed<T>, Keyed<T>) -> bool, x: Keyed<T>)
    requires DistinctIds(got) && x in got
    ensures var ops := Compared(got, want, prefix, same);
            && (x.id in Ids(ops.remove) <==> x in ops.remove)
            && (x.id in Ids(ops.remove) ==> Managed(x.name, prefix))
            && (Managed(x.name, prefix) && x.id !in Ids(ops.remove) ==>
                  x.port in Owners(ops) && Owners(ops)[x.port] == x.id)
  {
    var ops := Compared(got, want, prefix, same);
    SurplusIn(got, want, prefix, x);
    if x.id in Ids(ops.remove) {
      var y :| y in ops.remove && y.id == x.id;
      SurplusIn(got, want, prefix, y);
      SameId(got, x, y);
    }
    if Managed(x.name, prefix) {
      OwnedOrRemoved(got, want, prefix, same, x);
    }
  }

  lemma RemovedListed<T>(got: seq<Keyed<T>>, want: map<int, Keyed<T>>, prefix: string,
                         same: (Keyed<T>, Keyed<T>) -> bool, id: Id)
    requires DistinctIds(got) && id in Ids(Compared(got, want, prefix, same).remove)
    ensures exists x | x in got :: x.id == id && Managed(x.name, prefix)
  {
    var y :| y in Compared(got, want, prefix, same).remove && y.id == id;
    SurplusIn(got, want, prefix, y);
  }

  // ---- The plan is sound ----

  lemma FrontendPlan(inp: Inputs, s0: LB, fs: seq<ListedFrontend>, bs: seq<ListedBackend>)
    requires ValidLB(s0) && ListsFrontends(fs, s0)
    ensures PlansFrontends(PlanOf(inp, s0, fs, bs))
  {
    var pl := PlanOf(inp, s0, fs, bs);
    var want := FrontendTargets(inp.svc, |inp.svc.ports|);
    var ops := FrontendOps(inp, fs);
    forall p | p in pl.ownF
      ensures pl.ownF[p] in s0.frontends && Ours(s0.frontends[pl.ownF[p]].name, pl)
      ensures s0.frontends[pl.ownF[p]].inboundPort == p && pl.ownF[p] !in pl.remF
    {
      OwnerFacts(fs, want, pl.prefix, FrontendEquals, p);
    }
    forall id | id in pl.remF ensures id in s0.frontends && Ours(s0.frontends[id].name, pl) {
      RemovedListed(fs, want, pl.prefix, FrontendEquals, id);
    }
    forall id | id in s0.frontends && Ours(s0.frontends[id].name, pl)
      ensures id !in pl.remF ==> s0.frontends[id].inboundPort in pl.ownF && pl.ownF[s0.frontends[id].inboundPort] == id
      ensures s0.frontends[id].inboundPort !in pl.newF
    {
      var x := ViewFrontend(s0, s0.frontends[id]);
      assert x in fs;
      RemovedFacts(fs, want, pl.prefix, FrontendEquals, x);
      FirstIsFirst(fs, pl.prefix, x.port);
    }
  }

  lemma BackendPlan(inp: Inputs, s0: LB, fs: seq<ListedFrontend>, bs: seq<ListedBackend>)
    requires ValidLB(s0) && ListsBackends(bs, s0)
    ensures PlansBackends(PlanOf(inp, s0, fs, bs))
  {
    var pl := PlanOf(inp, s0, fs, bs);
    var want := BackendTargets(inp.svc, |inp.svc.ports|, inp.targets);
    forall p | p in pl.ownB
      ensures pl.ownB[p] in s0.backends && Ours(s0.backends[pl.ownB[p]].name, pl)
      ensures s0.backends[pl.ownB[p]].forwardPort == p && pl.ownB[p] !in pl.remB
    {
      OwnerFacts(bs, want, pl.prefix, BackendEquals, p);
    }
    forall id | id in pl.remB ensures id in s0.backends && Ours(s0.backends[id].name, pl) {
      RemovedListed(bs, want, pl.prefix, BackendEquals, id);
    }
    forall id | id in s0.backends && Ours(s0.backends[id].name, pl)
      ensures id !in pl.remB ==> s0.backends[id].forwardPort in pl.ownB && pl.ownB[s0.backends[id].forwardPort] == id
      ensures s0.backends[id].forwardPort !in pl.newB
    {
      var x := ViewBackend(s0.backends[id]);
      assert x in bs;
      RemovedFacts(bs, want, pl.prefix, BackendEquals, x);
      FirstIsFirst(bs, pl.prefix, x.port);
    }
  }

  /** A wanted frontend port is created on exactly when no managed frontend holds it; otherwise the
      holder is kept exactly when it equals the target. */
  lemma FrontendPort(inp: Inputs, s0: LB, fs: seq<ListedFrontend>, bs: seq<ListedBackend>, i: nat)
    requires ValidLB(s0) && ListsFrontends(fs, s0) && DistinctPorts(inp.svc) && i < |inp.svc.ports|
    requires inp.svc.ports[i].protocol == TCP && Usable(inp.svc.ports[i])
    ensures var pl, ops, p := PlanOf(inp, s0, fs, bs), FrontendOps(inp, fs), inp.svc.ports[i];
            && (p.port in pl.newF <==> p.port !in pl.ownF)
            && (p.port in ops.create ==> ops.create[p.port] == FrontendTarget(inp.svc, p))
            && (p.port in ops.update ==>
                  p.port in pl.ownF && ops.update[p.port] == FrontendTarget(inp.svc, p).(id := pl.ownF[p.port]))
            && (p.port in pl.ownF ==>
                  && pl.ownF[p.port] in s0.frontends
                  && (p.port in pl.keptF <==>
                        FrontendEquals(ViewFrontend(s0, s0.frontends[pl.ownF[p.port]]), FrontendTarget(inp.svc, p))))
  {
    hide FrontendTarget, FrontendEquals;
    var pl, p := PlanOf(inp, s0, fs, bs), inp.svc.ports[i];
    TargetsOf(inp.svc, |inp.svc.ports|, inp.targets, i);
    FirstIsFirst(fs, pl.prefix, p.port);
  }

  lemma BackendPort(inp: Inputs, s0: LB, fs: seq<ListedFrontend>, bs: seq<ListedBackend>, i: nat)
    requires ValidLB(s0) && ListsBackends(bs, s0) && DistinctPorts(inp.svc) && i < |inp.svc.ports|
    requires inp.svc.ports[i].protocol == TCP && Usable(inp.svc.ports[i])
    ensures var pl, ops, p := PlanOf(inp, s0, fs, bs), BackendOps(inp, bs), inp.svc.ports[i];
            && (p.nodePort in pl.newB <==> p.nodePort !in pl.ownB)
            && (p.nodePort in ops.create ==> ops.create[p.nodePort] == BackendTarget(inp.svc, p, inp.targets))
            && (p.nodePort in ops.update ==>
                  && p.nodePort in pl.ownB
                  && ops.update[p.nodePort] == BackendTarget(inp.svc, p, inp.targets).(id := pl.ownB[p.nodePort]))
            && (p.nodePort in pl.ownB ==>
                  && pl.ownB[p.nodePort] in s0.backends
                  && (p.nodePort in pl.keptB <==>
                        BackendEquals(ViewBackend(s0.backends[pl.ownB[p.nodePort]]),
                            BackendTarget(inp.svc, p, inp.targets))))
  {
    hide BackendTarget, BackendEquals;
    var pl, p := PlanOf(inp, s0, fs, bs), inp.svc.ports[i];
    TargetsOf(inp.svc, |inp.svc.ports|, inp.targets, i);
    FirstIsFirst(bs, pl.prefix, p.nodePort);
  }

  lemma PlanPorts(inp: Inputs, s0: LB, fs: seq<ListedFrontend>, bs: seq<ListedBackend>, p: int)
    requires AnnotationsValid(inp.svc)
    ensures var pl := PlanOf(inp, s0, fs, bs);
            && (p in pl.ownF || p in pl.newF ==> TcpPort(inp.svc, p))
            && (p in pl.ownB || p in pl.newB ==> TcpNodePort(inp.svc, p))
  {
    FrontendTargetsDomain(inp.svc, |inp.svc.ports|, p);
    BackendTargetsDomain(inp.svc, |inp.svc.ports|, inp.targets, p);
  }

  /** What a turn finds prepared for its port is what the TCP port of that number wants. */
  lemma FrontendTurn(inp: Inputs, s0: LB, fs: seq<ListedFrontend>, bs: seq<ListedBackend>, k: nat)
    requires ValidLB(s0) && ListsFrontends(fs, s0) && DistinctPorts(inp.svc) && AnnotationsValid(inp.svc)
             && k < |inp.svc.ports|
    ensures var pl, ops, p := PlanOf(inp, s0, fs, bs), FrontendOps(inp, fs), Turn(inp.svc, k);
            && (p.frontend.Some? <==> p.port in pl.ownF || p.port in pl.newF)
            && !(p.port in pl.ownF && p.port in pl.newF)
            && (p.port in ops.create ==> FrontendTargetFits(inp.svc, p, ops.create[p.port]))
            && (p.port in ops.update ==>
                  p.port in pl.ownF && FrontendTargetFits(inp.svc, p, ops.update[p.port])
                  && ops.update[p.port].id == pl.ownF[p.port])
            && (p.port in pl.keptF ==>
                  && p.port in pl.ownF && pl.ownF[p.port] in s0.frontends
                  && FrontendMatches(inp.svc, p, s0.frontends[pl.ownF[p.port]])
                  && (inp.svc.ports[k].protocol == TCP ==> ForwardsTo(s0, s0.frontends[pl.ownF[p.port]], p.nodePort)))
  {
    hide PlanOf, FrontendName, StringArrayEqual, ListsFrontends, FrontendOps, Turn;
    var pl, p := PlanOf(inp, s0, fs, bs), Turn(inp.svc, k);
    TurnIs(inp.svc, k);
    TurnNumbers(inp.svc, k);
    PlanPorts(inp, s0, fs, bs, p.port);
    PlanKeys(inp, s0, fs, bs);
    if p.frontend.Some? {
      var i :| 0 <= i < |inp.svc.ports| && inp.svc.ports[i].protocol == TCP && inp.svc.ports[i].port == p.port;
      TurnIs(inp.svc, i);
      SameTurn(inp.svc, i, k);
      FrontendPort(inp, s0, fs, bs, i);
      SameName(inp.svc, inp.svc.ports[i], p);
      OnlyTcp(inp.svc, i, k);
    }
  }

  lemma OnlyTcp(svc: Service, i: nat, k: nat)
    requires DistinctPorts(svc) && i < |svc.ports| && k < |svc.ports| && svc.ports[i].protocol == TCP
    ensures svc.ports[k].protocol == TCP && svc.ports[i].port == svc.ports[k].port ==> i == k
  {
  }

  lemma SameName(svc: Service, p: ServicePort, q: ServicePort)
    requires p.protocol == q.protocol
    ensures p.port == q.port ==> FrontendName(svc, p) == FrontendName(svc, q)
    ensures p.nodePort == q.nodePort ==> BackendName(svc, p) == BackendName(svc, q)
  {
  }

  /** The ports of the plan are those of the diffs. */
  lemma PlanKeys(inp: Inputs, s0: LB, fs: seq<ListedFrontend>, bs: seq<ListedBackend>)
    ensures var pl, f, b := PlanOf(inp, s0, fs, bs), FrontendOps(inp, fs), BackendOps(inp, bs);
            && pl.newF == f.create.Keys && pl.keptF == f.keep.Keys && pl.ownF == Owners(f) && pl.keptF <= pl.ownF.Keys
            && f.update.Keys == pl.ownF.Keys - pl.keptF
            && pl.newB == b.create.Keys && pl.keptB == b.keep.Keys && pl.ownB == Owners(b) && pl.keptB <= pl.ownB.Keys
            && b.update.Keys == pl.ownB.Keys - pl.keptB
  {
  }

  lemma BackendTurn(inp: Inputs, s0: LB, fs: seq<ListedFrontend>, bs: seq<ListedBackend>, k: nat)
    requires ValidLB(s0) && ListsBackends(bs, s0) && DistinctPorts(inp.svc) && AnnotationsValid(inp.svc)
             && k < |inp.svc.ports|
    ensures var pl, ops, p := PlanOf(inp, s0, fs, bs), BackendOps(inp, bs), Turn(inp.svc, k);
            && (p.backend.Some? <==> p.nodePort in pl.ownB || p.nodePort in pl.newB)
            && !(p.nodePort in pl.ownB && p.nodePort in pl.newB)
            && (p.nodePort in ops.create ==> BackendTargetFits(inp.svc, p, ops.create[p.nodePort]))
            && (p.nodePort in ops.update ==>
                  p.nodePort in pl.ownB && BackendTargetFits(inp.svc, p, ops.update[p.nodePort])
                  && ops.update[p.nodePort].id == pl.ownB[p.nodePort])
            && (p.nodePort in pl.keptB ==>
                  && p.nodePort in pl.ownB && pl.ownB[p.nodePort] in s0.backends
                  && BackendMatches(inp.svc, p, s0.backends[pl.ownB[p.nodePort]]))
  {
    hide PlanOf, BackendName, StringArrayEqual, ListsBackends, BackendOps, Turn;
    var pl, p := PlanOf(inp, s0, fs, bs), Turn(inp.svc, k);
    TurnIs(inp.svc, k);
    TurnNumbers(inp.svc, k);
    PlanPorts(inp, s0, fs, bs, p.nodePort);
    PlanKeys(inp, s0, fs, bs);
    if p.backend.Some? {
      var i :| 0 <= i < |inp.svc.ports| && inp.svc.ports[i].protocol == TCP && inp.svc.ports[i].nodePort == p.nodePort;
      TurnIs(inp.svc, i);
      SameTurn(inp.svc, i, k);
      BackendPort(inp, s0, fs, bs, i);
      SameName(inp.svc, inp.svc.ports[i], p);
    }
  }

  /** Any complete listing of a valid state yields a plan that fits the service. */
  lemma ListingPlans(inp: Inputs, s0: LB, fs: seq<ListedFrontend>, bs: seq<ListedBackend>)
    requires ValidLB(s0) && ListsFrontends(fs, s0) && ListsBackends(bs, s0)
    requires DistinctPorts(inp.svc) && AnnotationsValid(inp.svc)
    ensures PlanFits(PlanOf(inp, s0, fs, bs), inp.svc)
  {
    hide PlansFrontends, PlansBackends, PlanOf, ListsFrontends, ListsBackends, FrontendMatches, BackendMatches,
         ForwardsTo, Turn, TcpPort, TcpNodePort;
    hide AnnotationsValid, FrontendOps, BackendOps, FrontendTargetFits, BackendTargetFits;
    var pl := PlanOf(inp, s0, fs, bs);
    PlanFields(inp, s0, fs, bs);
    FrontendPlan(inp, s0, fs, bs);
    BackendPlan(inp, s0, fs, bs);
    forall k | 0 <= k < |inp.svc.ports| ensures TurnFits(pl, inp.svc, k) {
      FrontendTurn(inp, s0, fs, bs, k);
      BackendTurn(inp, s0, fs, bs, k);
    }
    forall p {
      PlanPorts(inp, s0, fs, bs, p);
    }
  }

  lemma PlanFields(inp: Inputs, s0: LB, fs: seq<ListedFrontend>, bs: seq<ListedBackend>)
    ensures var pl := PlanOf(inp, s0, fs, bs);
            pl.s0 == s0 && pl.prefix == PrefixFilter(inp.svc)
  {
  }

  lemma FrontendOpsPlanned(inp: Inputs, s0: LB, fs: seq<ListedFrontend>, bs: seq<ListedBackend>)
    requires ValidLB(s0) && ListsFrontends(fs, s0) && DistinctPorts(inp.svc) && AnnotationsValid(inp.svc)
    ensures FrontendOpsFit(PlanOf(inp, s0, fs, bs), inp, FrontendOps(inp, fs))
  {
    hide PlanOf, FrontendOps, BackendOps, FrontendTargetFits, FrontendMatches, ForwardsTo, Turn, ListsFrontends;
    PlanKeys(inp, s0, fs, bs);
    forall k | 0 <= k < |inp.svc.ports| {
      FrontendTurn(inp, s0, fs, bs, k);
    }
  }

  lemma BackendOpsPlanned(inp: Inputs, s0: LB, fs: seq<ListedFrontend>, bs: seq<ListedBackend>)
    requires ValidLB(s0) && ListsBackends(bs, s0) && DistinctPorts(inp.svc) && AnnotationsValid(inp.svc)
    ensures BackendOpsFit(PlanOf(inp, s0, fs, bs), inp, BackendOps(inp, bs))
  {
    hide PlanOf, FrontendOps, BackendOps, BackendTargetFits, BackendMatches, Turn, ListsBackends;
    PlanKeys(inp, s0, fs, bs);
    forall k | 0 <= k < |inp.svc.ports| {
      BackendTurn(inp, s0, fs, bs, k);
    }
    forall q | q in BackendOps(inp, bs).keep
      ensures var pl, ops := PlanOf(inp, s0, fs, bs), BackendOps(inp, bs);
              q in pl.ownB && pl.ownB[q] in s0.backends && ops.keep[q] == ViewBackend(s0.backends[pl.ownB[q]])
              && ops.keep[q].id == pl.ownB[q]
    {
      KeptAsListed(inp, s0, bs, q);
    }
    PlanFields(inp, s0, fs, bs);
  }

  lemma KeptAsListed(inp: Inputs, s0: LB, bs: seq<ListedBackend>, q: int)
    requires ValidLB(s0) && ListsBackends(bs, s0) && q in BackendOps(inp, bs).keep
    ensures var ops := BackendOps(inp, bs); var x := ops.keep[q];
            x.id in s0.backends && x == ViewBackend(s0.backends[x.id]) && q in Owners(ops) && Owners(ops)[q] == x.id
  {
    hide BackendEquals, BackendTargets;
    FirstIsFirst(bs, PrefixFilter(inp.svc), q);
    assert BackendOps(inp, bs).keep[q] in bs;
  }
}
