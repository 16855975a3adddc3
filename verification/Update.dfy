/** updateLoadBalancer as a whole: listing, diffing, removing, applying, removing again. */
module Update {
  import opened Basics
  import opened Sorting
  import opened Acl
  import opened Diff
  import opened LoadBalancer
  import opened CloudApi
  import opened Plan
  import opened PortState
  import opened Reconcile
  import opened Planning
  import opened Convergence

  // ---- Idle runs ----

  /** Nothing to remove, and every turn finds what it looks for as wanted. */
  ghost predicate Idle(pl: Plan, inp: Inputs) {
    && pl.remF == {} && pl.remB == {}
    && forall k | 0 <= k < |inp.svc.ports| :: QuietTurn(pl, inp, k)
  }

  ghost predicate QuietTurn(pl: Plan, inp: Inputs, k: nat)
    requires k < |inp.svc.ports|
  {
    QuietB(pl, inp, Turn(inp.svc, k)) && QuietF(pl, inp, Turn(inp.svc, k))
  }

  /** A managed frontend of a converged state owns its port in any plan. */
  lemma ConvergedOwnsFrontend(pl: Plan, inp: Inputs, id: Id)
    requires PlanFits(pl, inp.svc) && Converged(inp, pl.s0)
    requires id in pl.s0.frontends && Ours(pl.s0.frontends[id].name, pl)
    ensures var q := pl.s0.frontends[id].inboundPort;
            q in pl.ownF && pl.ownF[q] == id && id !in pl.remF
  {
    hide TurnFits, PlansBackends, PortServed, OneBackendPerNodePort;
    PlanPrefix(pl, inp.svc);
    var q := pl.s0.frontends[id].inboundPort;
    var i :| 0 <= i < |inp.svc.ports| && inp.svc.ports[i].protocol == TCP && inp.svc.ports[i].port == q;
    PortPlanned(pl, inp.svc, i);
  }

  lemma ConvergedOwnsBackend(pl: Plan, inp: Inputs, id: Id)
    requires PlanFits(pl, inp.svc) && Converged(inp, pl.s0)
    requires id in pl.s0.backends && Ours(pl.s0.backends[id].name, pl)
    ensures var q := pl.s0.backends[id].forwardPort;
            q in pl.ownB && pl.ownB[q] == id && id !in pl.remB
  {
    hide TurnFits, PlansFrontends, PortServed, OneFrontendPerPort;
    PlanPrefix(pl, inp.svc);
    var q := pl.s0.backends[id].forwardPort;
    var i :| 0 <= i < |inp.svc.ports| && inp.svc.ports[i].protocol == TCP && inp.svc.ports[i].nodePort == q;
    NodePortPlanned(pl, inp.svc, i);
  }

  lemma NodePortPlanned(pl: Plan, svc: Service, i: nat)
    requires PlanFits(pl, svc) && i < |svc.ports| && svc.ports[i].protocol == TCP
    ensures svc.ports[i].nodePort in pl.ownB || svc.ports[i].nodePort in pl.newB
  {
    hide FrontendMatches, BackendMatches, ForwardsTo, PlansFrontends, PlansBackends, Turn;
    TurnIs(svc, i);
    assert TurnFits(pl, svc, i);
  }

  /** On a converged load balancer the objects of TCP port i are kept and need nothing. */
  lemma ConvergedPort(inp: Inputs, s0: LB, fs: seq<ListedFrontend>, bs: seq<ListedBackend>, i: nat)
    requires ValidLB(s0) && ListsFrontends(fs, s0) && ListsBackends(bs, s0) && Converged(inp, s0)
    requires PlanFits(PlanOf(inp, s0, fs, bs), inp.svc) && inp.targets.Items?
    requires i < |inp.svc.ports| && inp.svc.ports[i].protocol == TCP
    ensures QuietB(PlanOf(inp, s0, fs, bs), inp, inp.svc.ports[i])
            && QuietF(PlanOf(inp, s0, fs, bs), inp, inp.svc.ports[i])
  {
    hide PlanOf, FrontendName, BackendName, StringArrayEqual, AclsMatch, PlanFits, FrontendOps, BackendOps;
    hide OneFrontendPerPort, OneBackendPerNodePort, ListsFrontends, ListsBackends, Ours;
    var pl, p := PlanOf(inp, s0, fs, bs), inp.svc.ports[i];
    PlanFields(inp, s0, fs, bs);
    assert PortServed(inp, s0, p);
    var f, b :| Serves(inp, s0, p, f, b);
    PlanDistinct(pl, inp.svc);
    OursIsManaged(pl, s0.frontends[f].name);
    OursIsManaged(pl, s0.backends[b].name);
    ConvergedOwnsFrontend(pl, inp, f);
    ConvergedOwnsBackend(pl, inp, b);
    FrontendPort(inp, s0, fs, bs, i);
    BackendPort(inp, s0, fs, bs, i);
    StringArrayEqualIsPermutation(Items(s0.backends[b].pool), inp.targets);
  }

  /** Turns of other protocols look at the same objects, by number. */
  lemma ConvergedQuiet(inp: Inputs, s0: LB, fs: seq<ListedFrontend>, bs: seq<ListedBackend>, k: nat)
    requires ValidLB(s0) && ListsFrontends(fs, s0) && ListsBackends(bs, s0) && Converged(inp, s0)
    requires PlanFits(PlanOf(inp, s0, fs, bs), inp.svc) && k < |inp.svc.ports| && inp.targets.Items?
    ensures QuietTurn(PlanOf(inp, s0, fs, bs), inp, k)
  {
    hide PlanOf, PlanFits, StringArrayEqual, AclsMatch, ListsFrontends, ListsBackends, Converged, Turn;
    var pl := PlanOf(inp, s0, fs, bs);
    PlanDistinct(pl, inp.svc);
    TurnIs(inp.svc, k);
    TurnNumbers(inp.svc, k);
    if Turn(inp.svc, k).frontend.Some? {
      var i :| 0 <= i < |inp.svc.ports| && inp.svc.ports[i].protocol == TCP
          && inp.svc.ports[i].port == inp.svc.ports[k].port;
      ConvergedPort(inp, s0, fs, bs, i);
      PortPlanned(pl, inp.svc, i);
    }
    if Turn(inp.svc, k).backend.Some? {
      var i :| 0 <= i < |inp.svc.ports| && inp.svc.ports[i].protocol == TCP
          && inp.svc.ports[i].nodePort == inp.svc.ports[k].nodePort;
      ConvergedPort(inp, s0, fs, bs, i);
      PortPlanned(pl, inp.svc, i);
    }
  }

  lemma OursIsManaged(pl: Plan, name: string)
    ensures Ours(name, pl) == Managed(name, pl.prefix)
  {
  }

  lemma PlanDistinct(pl: Plan, svc: Service)
    requires PlanFits(pl, svc)
    ensures DistinctPorts(svc) && AnnotationsValid(svc) && PlanOk(pl)
  {
  }

  /** On a converged load balancer with target addresses, any listing calls for nothing. */
  lemma ConvergedIdle(inp: Inputs, s0: LB, fs: seq<ListedFrontend>, bs: seq<ListedBackend>)
    requires ValidLB(s0) && ListsFrontends(fs, s0) && ListsBackends(bs, s0) && Converged(inp, s0)
    requires PlanFits(PlanOf(inp, s0, fs, bs), inp.svc) && inp.targets.Items?
    ensures Idle(PlanOf(inp, s0, fs, bs), inp)
  {
    hide PlanOf, QuietTurn, PlanFits, ListsFrontends, ListsBackends, PortServed;
    var pl := PlanOf(inp, s0, fs, bs);
    PlanFields(inp, s0, fs, bs);
    PlanDistinct(pl, inp.svc);
    forall k | 0 <= k < |inp.svc.ports| ensures QuietTurn(pl, inp, k) {
      ConvergedQuiet(inp, s0, fs, bs, k);
    }
    forall id | id in s0.frontends && Ours(s0.frontends[id].name, pl) ensures id !in pl.remF {
      ConvergedOwnsFrontend(pl, inp, id);
    }
    forall id | id in s0.backends && Ours(s0.backends[id].name, pl) ensures id !in pl.remB {
      ConvergedOwnsBackend(pl, inp, id);
    }
  }

  // ---- The three phases of a run ----

  lemma StartTracked(c: Cloud, pl: Plan, svc: Service)
    requires c.Valid() && pl.s0 == c.lb
    ensures Tracked(c, pl, svc, Start(c.history, c.calls, c.outages))
  {
  }

  lemma TrimmedMidway(pl: Plan, svc: Service, gone: set<Id>)
    requires gone <= pl.remF
    ensures Midway(pl, svc, Trimmed(pl.s0, gone))
  {
  }

  lemma IdsSnoc<T>(xs: seq<Keyed<T>>, i: nat)
    requires DistinctIds(xs) && i < |xs|
    ensures Ids(xs[..i + 1]) == Ids(xs[..i]) + {xs[i].id} && xs[i].id !in Ids(xs[..i])
  {
    assert xs[..i + 1] == xs[..i] + [xs[i]];
  }

  lemma IdsPrefix<T>(xs: seq<Keyed<T>>, i: nat)
    requires i <= |xs|
    ensures Ids(xs[..i]) <= Ids(xs)
    ensures if i > 0 then xs[i - 1].id in Ids(xs) else Ids(xs[..i]) == {}
  {
  }

  lemma SurplusThere(pl: Plan, f: Id)
    requires PlanOk(pl) && f in pl.remF
    ensures f in pl.s0.frontends
  {
  }

  method RemoveFrontends(c: Cloud, svc: Service, remove: seq<ListedFrontend>, ghost pl: Plan, ghost st: Start)
    returns (r: Result<(), Error>)
    requires PlanOk(pl) && Tracked(c, pl, svc, st) && c.lb == pl.s0
    requires DistinctIds(remove) && pl.remF == Ids(remove)
    modifies c
    ensures Tracked(c, pl, svc, st) && Grew(c)
    ensures r.Err? ==> r.error == Unavailable
    ensures r == Err(Unavailable) <==> c.outages != old(c.outages)
    ensures r.Ok? ==> c.lb == Trimmed(pl.s0, pl.remF)
    ensures pl.remF == {} ==> c.calls == old(c.calls)
    ensures r.Ok? && c.calls == old(c.calls) ==> pl.remF == {}
  {
    hide Midway, PlanOk, Ids, DistinctIds;
    ghost var gone: set<Id> := {};
    IdsPrefix(remove, 0);
    assert pl.s0.frontends - gone == pl.s0.frontends;
    for i := 0 to |remove|
      invariant Tracked(c, pl, svc, st) && Grew(c) && c.outages == old(c.outages)
      invariant gone == Ids(remove[..i])
      invariant c.lb == Trimmed(pl.s0, gone)
      invariant c.calls == old(c.calls) <==> i == 0
    {
      var f := remove[i];
      IdsSnoc(remove, i);
      IdsPrefix(remove, i + 1);
      SurplusThere(pl, f.id);
      var deleted := c.DeleteFrontend(f.id);
      if deleted.Err? {
        return Err(Unavailable);
      }
      assert pl.s0.frontends - gone - {f.id} == pl.s0.frontends - (gone + {f.id});
      gone := gone + {f.id};
      TrimmedMidway(pl, svc, gone);
    }
    assert remove[..|remove|] == remove;
    IdsPrefix(remove, |remove|);
    return Ok(());
  }

  lemma PassedOn(pl: Plan, svc: Service, o: Roles, o': Roles, k: nat)
    requires k < |svc.ports| && Passed(pl, svc, o, k) && Passing(pl, svc, k)
    requires o'.strays != {} <==> o.strays != {} || Doubled(pl, svc, k)
    ensures Passed(pl, svc, o', k + 1)
  {
    hide Passing, Doubled;
  }

  lemma PassedDoubles(pl: Plan, svc: Service, o: Roles, k: nat)
    requires k <= |svc.ports| && Passed(pl, svc, o, k)
    ensures o.strays != {} ==> Doubles(pl, svc)
    ensures k == |svc.ports| ==> (o.strays != {} <==> Doubles(pl, svc))
  {
    hide Passing, Doubled;
    if o.strays != {} {
      var j :| 0 <= j < k && Doubled(pl, svc, j);
    }
  }

  /** A run that is turned down in turn k has doubled a backend if that turn or an earlier one has. */
  lemma StoppedDoubles(pl: Plan, svc: Service, o: Roles, o': Roles, k: nat)
    requires k < |svc.ports| && Passed(pl, svc, o, k) && !Passing(pl, svc, k)
    requires o'.strays != {} <==> o.strays != {} || Doubled(pl, svc, k)
    ensures o'.strays != {} <==> Doubles(pl, svc)
  {
    hide Passing, Doubled;
    if Doubles(pl, svc) {
      var j :| 0 <= j < |svc.ports| && Doubled(pl, svc, j) && forall i | 0 <= i < j :: Passing(pl, svc, i);
    }
  }

  /** The main loop, turn by turn. */
  /** Without an outage, the run gets through turn j. */
  ghost predicate Reached(pl: Plan, svc: Service, j: nat)
    requires j < |svc.ports|
  {
    forall i | 0 <= i <= j :: Passing(pl, svc, i)
  }

  /** The frontends of the turns got through are done, also when the run is turned down later. */
  ghost predicate ReachedDone(pl: Plan, inp: Inputs, s: LB, f: map<int, Id>) {
    forall j | 0 <= j < |inp.svc.ports| && Reached(pl, inp.svc, j) :: FrontendDone(inp, s, f, Turn(inp.svc, j))
  }

  lemma ReachedIsDone(pl: Plan, inp: Inputs, s: LB, o: Roles, k: nat, s': LB)
    requires k <= |inp.svc.ports| && Progress(pl, inp, s, o, k) && (k < |inp.svc.ports| ==> !Passing(pl, inp.svc, k))
    requires s'.frontends == s.frontends
    ensures ReachedDone(pl, inp, s', o.f)
  {
    hide Core, Passed, BackendAt, Passing, AclsMatch, FrontendMatches;
    forall j | 0 <= j < |inp.svc.ports| && Reached(pl, inp.svc, j)
        ensures FrontendDone(inp, s', o.f, Turn(inp.svc, j))
    {
      assert j < k;
      assert FrontendAt(pl, inp, s, o.f, k, j) && SeenF(inp.svc, k, inp.svc.ports[j].port);
    }
  }

  /** A frontend on the load balancer is the one wanted for a turn, rules included. */
  ghost predicate InService(inp: Inputs, s: LB, p: ServicePort) {
    p.frontend.Some? && exists f | f in s.frontends ::
          FrontendMatches(inp.svc, p, s.frontends[f]) && AclsMatch(inp, s.frontends[f])
  }

  ghost predicate ReachedServed(pl: Plan, inp: Inputs, s: LB) {
    forall j | 0 <= j < |inp.svc.ports| && Reached(pl, inp.svc, j) :: InService(inp, s, Turn(inp.svc, j))
  }

  lemma DoneIsServed(pl: Plan, inp: Inputs, s: LB, f: map<int, Id>, s': LB)
    requires ReachedDone(pl, inp, s, f) && s'.frontends == s.frontends
    ensures ReachedServed(pl, inp, s')
  {
    hide Reached, AclsMatch, FrontendMatches, Turn;
    forall j | 0 <= j < |inp.svc.ports| && Reached(pl, inp.svc, j) ensures InService(inp, s', Turn(inp.svc, j)) {
      assert FrontendDone(inp, s, f, Turn(inp.svc, j));
    }
  }

  method ApplyPorts(c: Cloud, inp: Inputs, fOps: Ops<FrontendBody>, bOps: Ops<BackendBody>, ghost pl: Plan,
                    ghost st: Start)
    returns (r: Result<(), Error>, ghost o: Roles)
    requires PlanFits(pl, inp.svc) && FrontendOpsFit(pl, inp, fOps) && BackendOpsFit(pl, inp, bOps)
    requires Tracked(c, pl, inp.svc, st) && Progress(pl, inp, c.lb, Roles(pl.ownF, pl.ownB, {}), 0)
    modifies c
    ensures Tracked(c, pl, inp.svc, st) && Grew(c)
    ensures r == Err(Unavailable) <==> c.outages != old(c.outages)
    ensures r != Err(Unavailable) ==>
              && (r.Ok? <==> forall k | 0 <= k < |inp.svc.ports| :: Passing(pl, inp.svc, k))
              && Core(pl, c.lb, o, {}) && (o.strays != {} <==> Doubles(pl, inp.svc))
              && ReachedDone(pl, inp, c.lb, o.f)
    ensures r.Ok? ==> Progress(pl, inp, c.lb, o, |inp.svc.ports|)
    ensures r.Ok? && c.calls == st.calls ==>
              forall k | 0 <= k < |inp.svc.ports| :: QuietTurn(pl, inp, k) && NoneMissing(inp.svc, k)
    ensures (forall k | 0 <= k < |inp.svc.ports| :: QuietTurn(pl, inp, k)) ==> c.calls == old(c.calls)
  {
    hide PlanFits, FrontendOpsFit, BackendOpsFit, OthersAt, Core, Midway, QuietB, QuietF, StringArrayEqual, BackendAt,
         FrontendAt, Progress, Turn;
    hide BackendDone, FrontendDone, Wired, Passing, Doubled, Doubles, Passed, QuietNow, ReachedDone;
    o := Roles(pl.ownF, pl.ownB, {});
    var targets := inp.targets;
    CertsSentSlice(targets);
    for k := 0 to |inp.svc.ports|
      invariant Tracked(c, pl, inp.svc, st) && Grew(c) && c.outages == old(c.outages)
      invariant Progress(pl, inp, c.lb, o, k) && forall j | 0 <= j < k :: Passing(pl, inp.svc, j)
      invariant StringArrayEqual(targets, inp.targets)
      invariant c.calls == st.calls ==> forall j | 0 <= j < k :: QuietTurn(pl, inp, j) && NoneMissing(inp.svc, j)
      invariant (forall j | 0 <= j < k :: QuietTurn(pl, inp, j)) ==> c.calls == old(c.calls)
    {
      ProgressAt(pl, inp, c.lb, o, k);
      PassedDoubles(pl, inp.svc, o, k);
      TurnNumbers(inp.svc, k);
      ghost var o0 := o;
      var applied;
      ghost var calls, s := c.calls, c.lb;
      applied, o := ApplyPort(c, inp, k, fOps, bOps, targets, pl, st, o);
      assert QuietTurn(pl, inp, k) ==> c.calls == calls;
      if applied.Err? {
        if applied.error != Unavailable {
          StoppedDoubles(pl, inp.svc, o0, o, k);
          ReachedIsDone(pl, inp, s, o0, k, c.lb);
        }
        return Err(applied.error), o;
      }
      targets := applied.value;
      if c.calls == st.calls {
        QuietFromStart(pl, inp, Turn(inp.svc, k));
      }
      PassedOn(pl, inp.svc, o0, o, k);
      ProgressNext(pl, inp, c.lb, o, k);
    }
    ProgressEnd(pl, inp, c.lb, o);
    ReachedIsDone(pl, inp, c.lb, o, |inp.svc.ports|, c.lb);
    return Ok(()), o;
  }

  predicate NoneMissing(svc: Service, k: nat)
    requires k < |svc.ports|
  {
    Turn(svc, k).backend.Some? && Turn(svc, k).frontend.Some?
  }

  lemma ProgressEnd(pl: Plan, inp: Inputs, s: LB, o: Roles)
    requires Progress(pl, inp, s, o, |inp.svc.ports|)
    ensures Core(pl, s, o, {}) && AllWired(pl, inp, s, o) && Passed(pl, inp.svc, o, |inp.svc.ports|)
    ensures o.strays != {} <==> Doubles(pl, inp.svc)
    ensures forall j | 0 <= j < |inp.svc.ports| :: TurnDone(inp, s, o, j)
  {
    hide Core, Wired, BackendDone, FrontendDone, Passed, PendingFrontend, PendingBackend, Latest;
    PassedDoubles(pl, inp.svc, o, |inp.svc.ports|);
    forall j | 0 <= j < |inp.svc.ports|
      ensures TurnDone(inp, s, o, j)
      ensures Latest(inp.svc, |inp.svc.ports|, j) ==>
                Wired(pl, s, o.f, inp.svc.ports[j].port, inp.svc.ports[j].nodePort)
    {
      assert BackendAt(pl, inp, s, o.b, |inp.svc.ports|, j) && FrontendAt(pl, inp, s, o.f, |inp.svc.ports|, j);
      assert SeenB(inp.svc, |inp.svc.ports|, inp.svc.ports[j].nodePort)
             && SeenF(inp.svc, |inp.svc.ports|, inp.svc.ports[j].port);
    }
  }

  lemma CertsSentSlice(s: Slice)
    ensures StringArrayEqual(s, s)
  {
  }

  lemma BackendsGone(pl: Plan, svc: Service, s: LB, o: Roles, gone: set<Id>, id: Id)
    requires PlanOk(pl) && Core(pl, s, o, gone) && (o.strays != {} ==> Doubles(pl, svc))
    requires id in pl.remB - gone && forall f | f in s.frontends :: s.frontends[f].backendId != id
    ensures Core(pl, DropBackend(s, id), o, gone + {id}) && Midway(pl, svc, DropBackend(s, id))
  {
    hide Core, PlanOk, Midway;
    RemoveBackend(pl, s, o, gone, id);
    CoreMidway(pl, svc, DropBackend(s, id), o, gone + {id});
  }

  lemma SurplusPresent(pl: Plan, s: LB, o: Roles, gone: set<Id>, id: Id)
    requires Core(pl, s, o, gone) && id in pl.remB - gone
    ensures id in s.backends
  {
  }

  lemma DeletionRefused(pl: Plan, inp: Inputs, s: LB, o: Roles, gone: set<Id>, id: Id)
    requires PlanFits(pl, inp.svc) && Core(pl, s, o, gone) && AllWired(pl, inp, s, o)
    requires id in pl.remB && exists f | f in s.frontends :: s.frontends[f].backendId == id
    ensures StillReferenced(pl)
  {
    hide PlanFits, Core, AllWired;
    var f :| f in s.frontends && s.frontends[f].backendId == id;
    ReferenceMeansBlocked(pl, inp, s, o, gone, f);
  }

  /** Dropping surplus backends leaves every frontend on the backend it is wired to. */
  lemma WiredStays(pl: Plan, inp: Inputs, s: LB, s': LB, o: Roles, id: Id)
    requires AllWired(pl, inp, s, o) && s' == DropBackend(s, id) && id in pl.remB
    ensures AllWired(pl, inp, s', o)
  {
    hide Latest;
    forall j | 0 <= j < |inp.svc.ports| && Latest(inp.svc, |inp.svc.ports|, j)
      ensures Wired(pl, s', o.f, inp.svc.ports[j].port, inp.svc.ports[j].nodePort)
    {
      assert Wired(pl, s, o.f, inp.svc.ports[j].port, inp.svc.ports[j].nodePort);
    }
  }

  method RemoveBackends(c: Cloud, inp: Inputs, remove: seq<ListedBackend>, ghost pl: Plan, ghost st: Start,
                        ghost o: Roles)
    returns (r: Result<(), Error>, ghost gone: set<Id>)
    requires PlanFits(pl, inp.svc) && Tracked(c, pl, inp.svc, st)
    requires Core(pl, c.lb, o, {}) && AllWired(pl, inp, c.lb, o) && (o.strays != {} ==> Doubles(pl, inp.svc))
    requires DistinctIds(remove) && pl.remB == Ids(remove)
    modifies c
    ensures Tracked(c, pl, inp.svc, st) && Grew(c) && Core(pl, c.lb, o, gone)
    ensures r == Err(Unavailable) <==> c.outages != old(c.outages)
    ensures r != Err(BadService)
    ensures r == Err(Refused) ==> StillReferenced(pl)
    ensures c.lb.frontends == old(c.lb).frontends
    ensures r.Ok? ==> gone == pl.remB && AllWired(pl, inp, c.lb, o)
                      && c.lb.backends == old(c.lb).backends - pl.remB
    ensures pl.remB == {} ==> c.calls == old(c.calls)
    ensures r.Ok? && c.calls == old(c.calls) ==> pl.remB == {}
  {
    hide Core, PlanFits, PlanOk, StillReferenced, AllWired, ValidLB, Midway, Doubles;
    PlanSound(pl, inp.svc);
    gone := {};
    for i := 0 to |remove|
      invariant Tracked(c, pl, inp.svc, st) && Grew(c) && c.outages == old(c.outages)
      invariant gone == Ids(remove[..i])
      invariant Core(pl, c.lb, o, gone)
      invariant c.lb.frontends == old(c.lb).frontends && c.lb.backends == old(c.lb).backends - gone
      invariant AllWired(pl, inp, c.lb, o)
      invariant c.calls == old(c.calls) <==> i == 0
    {
      var b := remove[i];
      IdsSnoc(remove, i);
      IdsPrefix(remove, i + 1);
      SurplusPresent(pl, c.lb, o, gone, b.id);
      ghost var s := c.lb;
      var deleted := c.DeleteBackend(b.id);
      if deleted.Err? {
        if deleted.error == Conflict {
          DeletionRefused(pl, inp, c.lb, o, gone, b.id);
        }
        return Err(ErrorOf(deleted.error)), gone;
      }
      BackendsGone(pl, inp.svc, s, o, gone, b.id);
      WiredStays(pl, inp, s, c.lb, o, b.id);
      assert old(c.lb).backends - gone - {b.id} == old(c.lb).backends - (gone + {b.id});
      gone := gone + {b.id};
    }
    assert remove[..|remove|] == remove;
    IdsPrefix(remove, |remove|);
    return Ok(()), gone;
  }

  // ---- The whole run ----

  lemma DoneAfterRemoval(pl: Plan, inp: Inputs, s: LB, s': LB, o: Roles, j: nat)
    requires j < |inp.svc.ports| && TurnDone(inp, s, o, j) && CoreBackends(pl, s', o.b, o.strays, pl.remB)
    requires s'.frontends == s.frontends && s'.backends == s.backends - pl.remB
    ensures TurnDone(inp, s', o, j)
  {
    hide StringArrayEqual, FrontendName, BackendName, AclsMatch, Turn, Ours;
    TurnNumbers(inp.svc, j);
    var q := inp.svc.ports[j].nodePort;
    assert s'.backends[o.b[q]] == s.backends[o.b[q]];
  }

  lemma FinishedAfterRemoval(pl: Plan, inp: Inputs, s: LB, s': LB, o: Roles)
    requires (forall j | 0 <= j < |inp.svc.ports| :: TurnDone(inp, s, o, j)) && Passed(pl, inp.svc, o, |inp.svc.ports|)
    requires Core(pl, s', o, pl.remB) && AllWired(pl, inp, s', o)
    requires s'.frontends == s.frontends && s'.backends == s.backends - pl.remB
    ensures Finished(pl, inp, s', o)
  {
    hide CoreFrontends, CoreBackends, ForeignUntouched, TurnDone, AllWired, Passed;
    forall j | 0 <= j < |inp.svc.ports| ensures TurnDone(inp, s', o, j) {
      DoneAfterRemoval(pl, inp, s, s', o, j);
    }
  }

  /** The wiring the controller leaves behind never blocks a later run, whatever the listing order. */
  lemma CleanUnblocked(inp: Inputs, s0: LB, fs: seq<ListedFrontend>, bs: seq<ListedBackend>)
    requires ValidLB(s0) && PlanFits(PlanOf(inp, s0, fs, bs), inp.svc)
    requires Clean(s0, PrefixFilter(inp.svc), PortsOf(inp.svc))
    ensures !Blocked(PlanOf(inp, s0, fs, bs))
  {
    hide PlanOf, PlanFits, Clean;
    var pl := PlanOf(inp, s0, fs, bs);
    PlanFields(inp, s0, fs, bs);
    forall f | f in s0.frontends && !Ours(s0.frontends[f].name, pl) ensures s0.frontends[f].inboundPort !in pl.newF {
      CleanPorts(pl, inp.svc, f);
    }
    forall f | f in s0.frontends && Untouched(pl, f) ensures s0.frontends[f].backendId !in pl.remB {
      CleanReference(pl, inp.svc, f);
    }
  }

  lemma CleanPorts(pl: Plan, svc: Service, f: Id)
    requires PlanFits(pl, svc) && Clean(pl.s0, pl.prefix, PortsOf(svc))
    requires f in pl.s0.frontends && !Ours(pl.s0.frontends[f].name, pl)
    ensures pl.s0.frontends[f].inboundPort !in pl.newF
  {
    hide TurnFits, PlansBackends, PlansFrontends;
    TcpPortsOf(svc, pl.s0.frontends[f].inboundPort);
  }

  lemma TcpPortsOf(svc: Service, port: int)
    ensures TcpPort(svc, port) <==> port in PortsOf(svc)
  {
  }

  /** The backend of a kept frontend is the only managed one of its port, so it is not surplus. */
  lemma CleanReference(pl: Plan, svc: Service, f: Id)
    requires PlanFits(pl, svc) && Clean(pl.s0, pl.prefix, PortsOf(svc))
    requires f in pl.s0.frontends && Untouched(pl, f)
    ensures pl.s0.frontends[f].backendId !in pl.remB
  {
    hide FrontendMatches, BackendMatches, PlansFrontends;
    var front := pl.s0.frontends[f];
    if Ours(front.name, pl) {
      assert TcpPort(svc, front.inboundPort);
      var i :| 0 <= i < |svc.ports| && svc.ports[i].protocol == TCP && svc.ports[i].port == front.inboundPort;
      PortPlanned(pl, svc, i);
      assert TurnFits(pl, svc, i);
      NodePortPlanned(pl, svc, i);
      var q := svc.ports[i].nodePort;
      assert pl.s0.backends[front.backendId].forwardPort == q;
    }
  }

  /** The addresses traffic goes to: nil when no node has one of the chosen kind. */
  function TargetIPs(nodes: seq<Node>, useInternalIPs: bool): Slice {
    var ips := ExtractIps(nodes, if useInternalIPs then InternalIP else ExternalIP);
    if ips == [] then Nil else Items(ips)
  }

  function InputsOf(svc: Service, nodes: seq<Node>, useInternalIPs: bool): Inputs {
    Inputs(svc, nodes, TargetIPs(nodes, useInternalIPs))
  }

  /** A node has an address of the kind traffic goes to. */
  ghost predicate HasTarget(nodes: seq<Node>, kind: AddressKind) {
    exists n, a | n in nodes && a in n.addresses :: a.kind == kind
  }

  /** The pool holds the nodes' addresses of a kind, and each as often as the nodes have it. */
  ghost predicate PoolHolds(pool: seq<string>, nodes: seq<Node>, kind: AddressKind) {
    forall x: string ::
      && (x in pool <==> exists n, a | n in nodes && a in n.addresses :: a.kind == kind && a.ip == x)
      && multiset(pool)[x] == AllAddresses(nodes)[Address(kind, x)]
  }

  /** All backends that are the service's to manage hold them. */
  ghost predicate PoolsHold(svc: Service, s: LB, nodes: seq<Node>, kind: AddressKind) {
    forall b | b in s.backends && (svc.externallyManaged ==> svc.uid + "_" <= s.backends[b].name) ::
      PoolHolds(s.backends[b].pool, nodes, kind)
  }

  lemma TargetsMean(nodes: seq<Node>, useInternalIPs: bool)
    ensures var kind := if useInternalIPs then InternalIP else ExternalIP;
            && (TargetIPs(nodes, useInternalIPs).Nil? <==> !HasTarget(nodes, kind))
            && PoolHolds(TargetIPs(nodes, useInternalIPs).Elems(), nodes, kind)
  {
    hide ExtractIps, AllAddresses;
    var kind := if useInternalIPs then InternalIP else ExternalIP;
    var ips := ExtractIps(nodes, kind);
    forall x ensures x in ips <==> exists n, a | n in nodes && a in n.addresses :: a.kind == kind && a.ip == x
             ensures multiset(ips)[x] == AllAddresses(nodes)[Address(kind, x)]
    {
      ExtractIpsIn(nodes, kind, x);
      ExtractIpsCount(nodes, kind, x);
    }
    if ips != [] {
      assert ips[0] in ips;
    }
    if n, a :| n in nodes && a in n.addresses && a.kind == kind {
      assert a.ip in ips;
    }
  }

  lemma SamePool(pool: seq<string>, pool': seq<string>, nodes: seq<Node>, kind: AddressKind)
    requires multiset(pool) == multiset(pool') && PoolHolds(pool, nodes, kind)
    ensures PoolHolds(pool', nodes, kind)
  {
    hide AllAddresses;
    forall x: string ensures x in pool <==> x in pool' {
      assert x in pool <==> x in multiset(pool);
      assert x in pool' <==> x in multiset(pool');
    }
  }

  /** In the wanted state every managed backend sends traffic to the nodes' addresses of the chosen kind. */
  lemma ConvergedPools(svc: Service, nodes: seq<Node>, useInternalIPs: bool, s: LB)
    requires Converged(InputsOf(svc, nodes, useInternalIPs), s)
    ensures PoolsHold(svc, s, nodes, if useInternalIPs then InternalIP else ExternalIP)
  {
    hide TargetIPs, PoolHolds, FrontendMatches, AclsMatch, OneFrontendPerPort, PrefixFilter, BackendName;
    var kind := if useInternalIPs then InternalIP else ExternalIP;
    var inp := InputsOf(svc, nodes, useInternalIPs);
    TargetsMean(nodes, useInternalIPs);
    forall b | b in s.backends && (svc.externallyManaged ==> svc.uid + "_" <= s.backends[b].name)
        ensures PoolHolds(s.backends[b].pool, nodes, kind)
    {
      ManagedByName(svc, s.backends[b].name);
      var i :| 0 <= i < |svc.ports| && svc.ports[i].protocol == TCP
          && svc.ports[i].nodePort == s.backends[b].forwardPort;
      assert PortServed(inp, s, svc.ports[i]);
      var f, b' :| Serves(inp, s, svc.ports[i], f, b');
      assert b' == b;
      SamePool(inp.targets.Elems(), s.backends[b].pool, nodes, kind);
    }
  }

  lemma ManagedByName(svc: Service, name: string)
    ensures Managed(name, PrefixFilter(svc)) <==> (svc.externallyManaged ==> svc.uid + "_" <= name)
  {
    PrefixFilterMeans(svc, name);
    HasPrefixMeans(name, svc.uid + "_");
  }

  /** Valid annotations, and no port of another protocol that stands alone on one of its numbers. */
  ghost predicate Suitable(svc: Service) {
    AnnotationsValid(svc) && Carried(svc)
  }

  /** No two ports share a number, not even across protocols. */
  ghost predicate Unshared(svc: Service) {
    forall i, j | 0 <= i < j < |svc.ports| ::
      svc.ports[i].port != svc.ports[j].port && svc.ports[i].nodePort != svc.ports[j].nodePort
  }

  /** The run that follows the two listings. */
  method Carry(c: Cloud, inp: Inputs, fs: seq<ListedFrontend>, bs: seq<ListedBackend>)
    returns (r: Result<(), Error>)
    requires DistinctPorts(inp.svc) && c.Valid() && ListsFrontends(fs, c.lb) && ListsBackends(bs, c.lb)
    modifies c
    ensures Tracked(c, PlanOf(inp, old(c.lb), fs, bs), inp.svc, Start(old(c.history), old(c.calls), old(c.outages)))
    ensures r == Err(Unavailable) <==> c.outages != old(c.outages)
    ensures !AnnotationsValid(inp.svc) ==> r == Err(BadService) && c.calls == old(c.calls)
    ensures r != Err(Unavailable) ==> var pl := PlanOf(inp, old(c.lb), fs, bs);
              && (r.Ok? <==> Suitable(inp.svc) && !Blocked(pl) && !Collides(pl, inp.svc))
              && (AnnotationsValid(inp.svc) ==>
                    (Safe(old(c.lb), c.lb, PrefixFilter(inp.svc)) <==> !Doubles(pl, inp.svc)))
              && (r.Ok? ==> (Converged(inp, c.lb) <==> !Doubles(pl, inp.svc) && Straight(pl, inp.svc)))
              && (AnnotationsValid(inp.svc) ==> ReachedServed(pl, inp, c.lb))
    ensures r == Err(Refused) ==>
              var pl := PlanOf(inp, old(c.lb), fs, bs); Blocked(pl) || !Carried(inp.svc) || Collides(pl, inp.svc)
    ensures Idle(PlanOf(inp, old(c.lb), fs, bs), inp) ==> c.calls == old(c.calls)
    ensures r.Ok? && c.calls == old(c.calls) ==>
              var pl := PlanOf(inp, old(c.lb), fs, bs);
              Idle(pl, inp) && forall k | 0 <= k < |inp.svc.ports| :: NoneMissing(inp.svc, k)
  {
    hide PlanOf, PlanFits, Progress, Core, Finished, Converged, Blocked, QuietTurn, AllWired, Midway, FrontendOpsFit,
         BackendOpsFit, NoneMissing;
    hide PrefixFilter, FrontendTargets, BackendTargets, ListsFrontends, ListsBackends, Compared, PortTaken,
         StillReferenced, DistinctPorts;
    hide Passing, Doubles, Collides, Straight, TurnDone, Carried, Safe, Sound, PlanOk, AnnotationsValid, Passed,
         ReachedDone, ReachedServed;
    ghost var pl := PlanOf(inp, c.lb, fs, bs);
    ghost var st := Start(c.history, c.calls, c.outages);
    PlanFields(inp, c.lb, fs, bs);
    StartTracked(c, pl, inp.svc);
    var wanted := ServiceToLB(inp.svc, inp.targets);
    if wanted.Invalid? {
      return Err(BadService);
    }
    TargetPorts(inp);
    var fOps := CompareFrontends(fs, wanted.frontends, PrefixFilter(inp.svc));
    var bOps := CompareBackends(bs, wanted.backends, PrefixFilter(inp.svc));
    ListingPlans(inp, c.lb, fs, bs);
    PlanDistinct(pl, inp.svc);
    FrontendOpsPlanned(inp, c.lb, fs, bs);
    BackendOpsPlanned(inp, c.lb, fs, bs);
    PlanRemovals(inp, c.lb, fs, bs);
    AllPassing(pl, inp.svc);
    BlockedWhen(pl);
    assert fOps == FrontendOps(inp, fs) && bOps == BackendOps(inp, bs);

    var removed := RemoveFrontends(c, inp.svc, fOps.remove, pl, st);
    if removed.Err? {
      return Err(removed.error);
    }
    ProgressStart(pl, inp, c.lb);
    var applied;
    ghost var o;
    applied, o := ApplyPorts(c, inp, fOps, bOps, pl, st);
    if applied.Err? {
      if applied.error != Unavailable {
        CoreSound(pl, c.lb, o, {});
        DoneIsServed(pl, inp, c.lb, o.f, c.lb);
      }
      return Err(applied.error);
    }
    ProgressEnd(pl, inp, c.lb, o);
    ghost var s := c.lb;
    ghost var gone;
    removed, gone := RemoveBackends(c, inp, bOps.remove, pl, st, o);
    CoreSound(pl, c.lb, o, gone);
    DoneIsServed(pl, inp, s, o.f, c.lb);
    if removed.Err? {
      assert removed.error == Refused ==> Blocked(pl);
      return Err(removed.error);
    }
    FinishedAfterRemoval(pl, inp, s, c.lb, o);
    FinishedConverged(pl, inp, c.lb, o);
    FinishedUnblocked(pl, inp, c.lb, o);
    return Ok(());
  }

  lemma BlockedWhen(pl: Plan)
    ensures PortTaken(pl) || StillReferenced(pl) <==> Blocked(pl)
  {
  }

  lemma TargetPorts(inp: Inputs)
    ensures var f := FrontendTargets(inp.svc, |inp.svc.ports|); forall p | p in f :: f[p].port == p
    ensures var b := BackendTargets(inp.svc, |inp.svc.ports|, inp.targets); forall p | p in b :: b[p].port == p
  {
    var f, b := FrontendTargets(inp.svc, |inp.svc.ports|), BackendTargets(inp.svc, |inp.svc.ports|, inp.targets);
    forall p | p in f ensures f[p].port == p {
      FrontendTargetsDomain(inp.svc, |inp.svc.ports|, p);
    }
    forall p | p in b ensures b[p].port == p {
      BackendTargetsDomain(inp.svc, |inp.svc.ports|, inp.targets, p);
    }
  }

  lemma PlanRemovals(inp: Inputs, s0: LB, fs: seq<ListedFrontend>, bs: seq<ListedBackend>)
    requires ValidLB(s0) && ListsFrontends(fs, s0) && ListsBackends(bs, s0)
    ensures var pl := PlanOf(inp, s0, fs, bs);
            && pl.remF == Ids(FrontendOps(inp, fs).remove) && DistinctIds(FrontendOps(inp, fs).remove)
            && pl.remB == Ids(BackendOps(inp, bs).remove) && DistinctIds(BackendOps(inp, bs).remove)
  {
    SurplusDistinct(fs, FrontendTargets(inp.svc, |inp.svc.ports|), PrefixFilter(inp.svc));
    SurplusDistinct(bs, BackendTargets(inp.svc, |inp.svc.ports|, inp.targets), PrefixFilter(inp.svc));
  }

  /** updateLoadBalancer, from the listings on.  `fs` and `bs` are the listings the run worked from.
      - Every state on the way is sound.  Unless the run comes to a turn that creates a second backend for
        a node port, which takes ports that share one, it is safe, and the controller's own wiring,
        once there, is never lost; and if it does, without an outage, then the last state is not safe.
      - A run that hits no outage succeeds exactly when annotations are valid, no port of another protocol
        stands alone on a number, no two turns create the same frontend, and the listings do not block it.
      - Also when it is turned down, the turns it got through have their frontends, as wanted.
      - Success means the wanted state exactly when no backend was doubled and no turn of another
        protocol moved a frontend to another node port.
      - With target addresses, a run changes nothing when the wanted state is already there; a successful
        run that issues no mutating call found it so; without any target, a successful run over at
        least one port always issues one. */
  method UpdateLoadBalancer(c: Cloud, svc: Service, nodes: seq<Node>, useInternalIPs: bool)
    returns (r: Result<(), Error>, ghost fs: seq<ListedFrontend>, ghost bs: seq<ListedBackend>)
    requires DistinctPorts(svc) && c.Valid()
    modifies c
    ensures c.Valid() && old(c.history) <= c.history && old(c.calls) <= c.calls && old(c.outages) <= c.outages
    ensures c.history == old(c.history) ==> c.lb == old(c.lb)
    ensures c.history != old(c.history) || r != Err(Unavailable) ==>
              ListsFrontends(fs, old(c.lb)) && ListsBackends(bs, old(c.lb))
    ensures c.history != old(c.history) ==> AnnotationsValid(svc)
    ensures forall i | |old(c.history)| <= i < |c.history| ::
              Midway(PlanOf(InputsOf(svc, nodes, useInternalIPs), old(c.lb), fs, bs), svc, c.history[i])
    ensures forall i | |old(c.history)| <= i < |c.history| :: Sound(old(c.lb), c.history[i], PrefixFilter(svc))
    ensures !Doubles(PlanOf(InputsOf(svc, nodes, useInternalIPs), old(c.lb), fs, bs), svc) ==>
              forall i | |old(c.history)| <= i < |c.history| ::
                    StepSafe(old(c.lb), c.history[i], PrefixFilter(svc), PortsOf(svc))
    ensures r == Err(Unavailable) <==> c.outages != old(c.outages)
    ensures r != Err(Unavailable) ==>
              var inp := InputsOf(svc, nodes, useInternalIPs);
              var pl := PlanOf(inp, old(c.lb), fs, bs);
              && (r.Ok? <==> Suitable(svc) && !Blocked(pl) && !Collides(pl, svc))
              && (AnnotationsValid(svc) ==> (Safe(old(c.lb), c.lb, PrefixFilter(svc)) <==> !Doubles(pl, svc)))
              && (r.Ok? ==> (Converged(inp, c.lb) <==> !Doubles(pl, svc) && Straight(pl, svc)))
              && (AnnotationsValid(svc) ==> ReachedServed(pl, inp, c.lb))
    ensures Clean(old(c.lb), PrefixFilter(svc), PortsOf(svc)) && Suitable(svc) ==>
              r.Ok? || r == Err(Unavailable)
              || Collides(PlanOf(InputsOf(svc, nodes, useInternalIPs), old(c.lb), fs, bs), svc)
    ensures r.Ok? && Converged(InputsOf(svc, nodes, useInternalIPs), c.lb) ==>
              PoolsHold(svc, c.lb, nodes, if useInternalIPs then InternalIP else ExternalIP)
    ensures HasTarget(nodes, if useInternalIPs then InternalIP else ExternalIP)
            && Converged(InputsOf(svc, nodes, useInternalIPs), old(c.lb)) ==>
              c.calls == old(c.calls) && c.lb == old(c.lb)
    ensures r.Ok? && c.calls == old(c.calls) ==>
              c.lb == old(c.lb) && Converged(InputsOf(svc, nodes, useInternalIPs), old(c.lb))
    ensures r.Ok? && !HasTarget(nodes, if useInternalIPs then InternalIP else ExternalIP) && svc.ports != [] ==>
              c.calls != old(c.calls)
  {
    hide HasTarget, PoolsHold;
    hide PlanOf, PlanFits, Converged, Blocked, Idle, Clean, Safe, Sound, PrefixFilter, ListsFrontends, ListsBackends,
         Suitable, TargetIPs, Midway, Doubles, Collides, Straight, ReachedServed;
    fs, bs := [], [];
    var inp := InputsOf(svc, nodes, useInternalIPs);
    TargetsMean(nodes, useInternalIPs);
    var frontends := c.ListFrontends();
    if frontends.Err? {
      return Err(Unavailable), fs, bs;
    }
    fs := frontends.value;
    var backends := c.ListBackends();
    if backends.Err? {
      return Err(Unavailable), fs, bs;
    }
    bs := backends.value;
    RunFacts(inp, c.lb, fs, bs);
    r := Carry(c, inp, frontends.value, backends.value);
    ghost var pl := PlanOf(inp, old(c.lb), fs, bs);
    forall i | |old(c.history)| <= i < |c.history|
      ensures Sound(old(c.lb), c.history[i], PrefixFilter(svc))
      ensures !Doubles(pl, svc) ==> StepSafe(old(c.lb), c.history[i], PrefixFilter(svc), PortsOf(svc))
    {
      MidwaySafe(pl, svc, c.history[i], PortsOf(svc));
    }
    if r.Ok? && c.calls == old(c.calls) {
      IdleEnd(inp, old(c.lb), fs, bs);
    }
    if Converged(inp, c.lb) {
      ConvergedPools(svc, nodes, useInternalIPs, c.lb);
    }
  }

  /** A successful run without a call has nothing to double and no frontend to move. */
  lemma IdleEnd(inp: Inputs, s0: LB, fs: seq<ListedFrontend>, bs: seq<ListedBackend>)
    requires ValidLB(s0) && ListsFrontends(fs, s0) && ListsBackends(bs, s0) && DistinctPorts(inp.svc)
             && AnnotationsValid(inp.svc)
    requires Idle(PlanOf(inp, s0, fs, bs), inp) && forall k | 0 <= k < |inp.svc.ports| :: NoneMissing(inp.svc, k)
    ensures !Doubles(PlanOf(inp, s0, fs, bs), inp.svc) && Straight(PlanOf(inp, s0, fs, bs), inp.svc)
  {
    hide PlanOf, PlanFits, ListsFrontends, ListsBackends, AclsMatch, StringArrayEqual, Turn, Passing, Latest,
         DistinctPorts, AnnotationsValid;
    var pl := PlanOf(inp, s0, fs, bs);
    ListingPlans(inp, s0, fs, bs);
    PlanDomains(pl, inp.svc);
    forall k | 0 <= k < |inp.svc.ports|
        ensures inp.svc.ports[k].nodePort !in pl.newB && inp.svc.ports[k].port in pl.keptF
    {
      assert QuietTurn(pl, inp, k) && NoneMissing(inp.svc, k);
      TurnNumbers(inp.svc, k);
    }
  }

  lemma RunFacts(inp: Inputs, s0: LB, fs: seq<ListedFrontend>, bs: seq<ListedBackend>)
    requires ValidLB(s0) && DistinctPorts(inp.svc) && ListsFrontends(fs, s0) && ListsBackends(bs, s0)
    ensures var pl := PlanOf(inp, s0, fs, bs); pl.s0 == s0 && pl.prefix == PrefixFilter(inp.svc) && PlanOk(pl)
    ensures AnnotationsValid(inp.svc) && Clean(s0, PrefixFilter(inp.svc), PortsOf(inp.svc)) ==>
              !Blocked(PlanOf(inp, s0, fs, bs))
    ensures Suitable(inp.svc) ==> AnnotationsValid(inp.svc)
    ensures Converged(inp, s0) ==> AnnotationsValid(inp.svc)
    ensures Converged(inp, s0) && inp.targets.Items? ==> Idle(PlanOf(inp, s0, fs, bs), inp)
    ensures (&& Idle(PlanOf(inp, s0, fs, bs), inp) && inp.targets.Nil?
             && forall k | 0 <= k < |inp.svc.ports| :: NoneMissing(inp.svc, k)) ==>
              inp.svc.ports == []
  {
    hide PlanOf, PlanFits, Blocked, Clean, ListsFrontends, ListsBackends, PlansFrontends, PlansBackends, Turn;
    PlanFields(inp, s0, fs, bs);
    FrontendPlan(inp, s0, fs, bs);
    BackendPlan(inp, s0, fs, bs);
    if inp.svc.ports != [] && inp.targets.Nil? && NoneMissing(inp.svc, 0) {
      assert !QuietTurn(PlanOf(inp, s0, fs, bs), inp, 0);
    }
    if Converged(inp, s0) {
      assert forall i | 0 <= i < |inp.svc.ports| && inp.svc.ports[i].protocol == TCP ::
               PortServed(inp, s0, inp.svc.ports[i]);
    }
    if AnnotationsValid(inp.svc) {
      ListingPlans(inp, s0, fs, bs);
      if Clean(s0, PrefixFilter(inp.svc), PortsOf(inp.svc)) {
        CleanUnblocked(inp, s0, fs, bs);
      }
      if Converged(inp, s0) && inp.targets.Items? {
        ConvergedIdle(inp, s0, fs, bs);
      }
    }
  }
}
