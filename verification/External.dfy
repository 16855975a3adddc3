/** Load balancers managed elsewhere: removeExternallyManagedResources, and how it undoes an update. */
module External {
  import opened Basics
  import opened Acl
  import opened Diff
  import opened LoadBalancer
  import opened CloudApi
  import opened Plan
  import opened PortState
  import opened Reconcile
  import opened Planning
  import opened Update

  /** The service's own prefix. */
  function Prefix(svc: Service): string {
    svc.uid + "_"
  }

  ghost function ManagedFrontends(s: LB, prefix: string): set<Id> {
    set f | f in s.frontends && Managed(s.frontends[f].name, prefix)
  }

  ghost function ManagedBackends(s: LB, prefix: string): set<Id> {
    set b | b in s.backends && Managed(s.backends[b].name, prefix)
  }

  /** The load balancer stripped of everything under the prefix. */
  ghost function Stripped(s: LB, prefix: string): LB {
    LB(s.frontends - ManagedFrontends(s, prefix), s.backends - ManagedBackends(s, prefix))
  }

  /** Someone else's frontend forwards to one of the service's backends. */
  ghost predicate Borrowed(s: LB, prefix: string) {
    exists f | f in s.frontends ::
          !Managed(s.frontends[f].name, prefix) && s.frontends[f].backendId in ManagedBackends(s, prefix)
  }

  /** Part of the managed objects is gone, nothing else changed. */
  ghost predicate Stripping(s0: LB, s: LB, prefix: string, goneF: set<Id>, goneB: set<Id>) {
    && ValidLB(s)
    && goneF <= ManagedFrontends(s0, prefix) && goneB <= ManagedBackends(s0, prefix)
    && s == LB(s0.frontends - goneF, s0.backends - goneB)
  }

  lemma StrippingSafe(s0: LB, s: LB, prefix: string, goneF: set<Id>, goneB: set<Id>)
    requires Stripping(s0, s, prefix, goneF, goneB)
    ensures Safe(s0, s, prefix)
  {
  }

  ghost predicate SafeSince(c: Cloud, s0: LB, prefix: string, history: seq<LB>)
    reads c
  {
    && c.Valid() && history <= c.history && Safe(s0, c.lb, prefix)
    && forall i | |history| <= i < |c.history| :: Safe(s0, c.history[i], prefix)
  }

  method DeleteFrontends(c: Cloud, prefix: string, fs: seq<ListedFrontend>) returns (r: Result<(), Error>)
    requires c.Valid() && NamedFrontends(fs, c.lb, prefix)
    modifies c
    ensures SafeSince(c, old(c.lb), prefix, old(c.history)) && Grew(c)
    ensures r.Err? ==> r.error == Unavailable
    ensures r == Err(Unavailable) <==> c.outages != old(c.outages)
    ensures exists goneF :: Stripping(old(c.lb), c.lb, prefix, goneF, {})
    ensures r.Ok? ==> c.lb == LB(old(c.lb).frontends - ManagedFrontends(old(c.lb), prefix), old(c.lb).backends)
  {
    hide Safe, Managed;
    ghost var s0 := c.lb;
    ghost var goneF: set<Id> := {};
    assert s0.frontends - goneF == s0.frontends && s0.backends - {} == s0.backends;
    StrippingSafe(s0, c.lb, prefix, {}, {});
    for i := 0 to |fs|
      invariant SafeSince(c, s0, prefix, old(c.history)) && Grew(c) && c.outages == old(c.outages)
      invariant goneF == Ids(fs[..i])
      invariant Stripping(s0, c.lb, prefix, goneF, {})
    {
      IdsSnoc(fs, i);
      assert fs[i] in fs;
      var deleted := c.DeleteFrontend(fs[i].id);
      if deleted.Err? {
        return Err(Unavailable);
      }
      assert s0.frontends - goneF - {fs[i].id} == s0.frontends - (goneF + {fs[i].id});
      goneF := goneF + {fs[i].id};
      StrippingSafe(s0, c.lb, prefix, goneF, {});
    }
    assert fs[..|fs|] == fs;
    AllNamedFrontends(fs, s0, prefix);
    return Ok(());
  }

  lemma AllNamedFrontends(fs: seq<ListedFrontend>, s: LB, prefix: string)
    requires ValidLB(s) && NamedFrontends(fs, s, prefix)
    ensures Ids(fs) == ManagedFrontends(s, prefix)
  {
    forall id | id in ManagedFrontends(s, prefix) ensures id in Ids(fs) {
      assert ViewFrontend(s, s.frontends[id]) in fs;
    }
  }

  lemma AllNamedBackends(bs: seq<ListedBackend>, s: LB, prefix: string)
    requires ValidLB(s) && NamedBackends(bs, s, prefix)
    ensures Ids(bs) == ManagedBackends(s, prefix)
  {
    forall id | id in ManagedBackends(s, prefix) ensures id in Ids(bs) {
      assert ViewBackend(s.backends[id]) in bs;
    }
  }

  method DeleteBackends(c: Cloud, prefix: string, bs: seq<ListedBackend>, ghost s0: LB) returns (r: Result<(), Error>)
    requires c.Valid() && ValidLB(s0) && NamedBackends(bs, s0, prefix)
    requires c.lb == LB(s0.frontends - ManagedFrontends(s0, prefix), s0.backends)
    modifies c
    ensures SafeSince(c, s0, prefix, old(c.history)) && Grew(c)
    ensures r == Err(Unavailable) <==> c.outages != old(c.outages)
    ensures r != Err(BadService)
    ensures r == Err(Refused) ==> Borrowed(s0, prefix)
    ensures r.Ok? ==> c.lb == Stripped(s0, prefix) && !Borrowed(s0, prefix)
  {
    hide Safe, Managed;
    ghost var goneF := ManagedFrontends(s0, prefix);
    ghost var goneB: set<Id> := {};
    assert s0.backends - goneB == s0.backends;
    StrippingSafe(s0, c.lb, prefix, goneF, goneB);
    for i := 0 to |bs|
      invariant SafeSince(c, s0, prefix, old(c.history)) && Grew(c) && c.outages == old(c.outages)
      invariant goneB == Ids(bs[..i])
      invariant Stripping(s0, c.lb, prefix, goneF, goneB)
    {
      IdsSnoc(bs, i);
      assert bs[i] in bs;
      var deleted := c.DeleteBackend(bs[i].id);
      if deleted.Err? {
        if deleted.error == Conflict {
          var f :| f in c.lb.frontends && c.lb.frontends[f].backendId == bs[i].id;
          assert f in s0.frontends && !Managed(s0.frontends[f].name, prefix) && bs[i].id in ManagedBackends(s0, prefix);
        }
        return Err(ErrorOf(deleted.error));
      }
      assert s0.backends - goneB - {bs[i].id} == s0.backends - (goneB + {bs[i].id});
      goneB := goneB + {bs[i].id};
      StrippingSafe(s0, c.lb, prefix, goneF, goneB);
    }
    assert bs[..|bs|] == bs;
    AllNamedBackends(bs, s0, prefix);
    assert forall f | f in s0.frontends && !Managed(s0.frontends[f].name, prefix) ::
             f in c.lb.frontends && c.lb.frontends[f] == s0.frontends[f];
    return Ok(());
  }

  lemma SafeToStart(s: LB, prefix: string)
    requires ValidLB(s)
    ensures Safe(s, s, prefix)
  {
  }

  /** removeExternallyManagedResources: frontends first, then backends, all and only those named
      after the service.  Without an outage it succeeds exactly when no one else's frontend has come
      to rely on one of the service's backends. */
  method RemoveExternallyManagedResources(c: Cloud, svc: Service) returns (r: Result<(), Error>)
    requires c.Valid()
    modifies c
    ensures SafeSince(c, old(c.lb), Prefix(svc), old(c.history)) && Grew(c)
    ensures r == Err(Unavailable) <==> c.outages != old(c.outages)
    ensures r.Ok? ==> c.lb == Stripped(old(c.lb), Prefix(svc))
    ensures r != Err(Unavailable) ==> (r.Ok? <==> !Borrowed(old(c.lb), Prefix(svc)))
  {
    hide Safe, Managed, Borrowed, Stripped, Stripping;
    SafeToStart(c.lb, Prefix(svc));
    var frontends := c.ListFrontendsNamed(Prefix(svc));
    if frontends.Err? {
      return Err(Unavailable);
    }
    var backends := c.ListBackendsNamed(Prefix(svc));
    if backends.Err? {
      return Err(Unavailable);
    }
    r := DeleteFrontends(c, Prefix(svc), frontends.value);
    if r.Err? {
      return;
    }
    r := DeleteBackends(c, Prefix(svc), backends.value, old(c.lb));
    assert r.Err? && r.error != Unavailable ==> r == Err(Refused);
  }

  // ---- Update, then delete ----

  /** Stripping what an update added gives back the load balancer as it was. */
  lemma StrippingUndoes(s0: LB, s: LB, prefix: string)
    requires ForeignUntouched(s0, s, prefix)
    requires ManagedFrontends(s0, prefix) == {} && ManagedBackends(s0, prefix) == {}
    ensures Stripped(s, prefix) == s0
  {
    var t := Stripped(s, prefix);
    assert forall id | id in s0.frontends :: id !in ManagedFrontends(s0, prefix);
    assert forall id | id in s0.backends :: id !in ManagedBackends(s0, prefix);
    assert t.frontends == s0.frontends;
    assert t.backends == s0.backends;
  }

  /** Foreign frontends still forward to the foreign backends they forwarded to. */
  lemma NothingBorrowed(s0: LB, s: LB, prefix: string)
    requires ValidLB(s0) && ForeignUntouched(s0, s, prefix)
    requires ManagedBackends(s0, prefix) == {}
    ensures !Borrowed(s, prefix)
  {
    assert forall id | id in s0.backends :: id !in ManagedBackends(s0, prefix);
  }

  /** A turn of the controller on a load balancer managed elsewhere; service and nodes may have changed
      since the last. */
  datatype Event =
    | Updated(svc: Service, nodes: seq<Node>, useInternalIPs: bool)
    | Deleted(svc: Service)

  /** The turn is about the service of a given identity. */
  ghost predicate About(t: Event, uid: string) {
    t.svc.externallyManaged && t.svc.uid == uid && DistinctPorts(t.svc)
  }

  lemma ForeignReflexive(s: LB, prefix: string)
    ensures ForeignUntouched(s, s, prefix)
  {
  }

  /** One turn leaves alone what is not named after the service. */
  method Handle(c: Cloud, uid: string, turn: Event)
    requires c.Valid() && About(turn, uid)
    modifies c
    ensures c.Valid() && ForeignUntouched(old(c.lb), c.lb, uid + "_") && old(c.outages) <= c.outages
  {
    match turn {
      case Updated(svc, nodes, useInternalIPs) => HandleUpdate(c, uid, svc, nodes, useInternalIPs);
      case Deleted(svc) => HandleDelete(c, uid, svc);
    }
  }

  method HandleUpdate(c: Cloud, uid: string, svc: Service, nodes: seq<Node>, useInternalIPs: bool)
    requires c.Valid() && About(Updated(svc, nodes, useInternalIPs), uid)
    modifies c
    ensures c.Valid() && ForeignUntouched(old(c.lb), c.lb, uid + "_") && old(c.outages) <= c.outages
  {
    hide *;
    ForeignReflexive(c.lb, uid + "_");
    EventPrefix(Updated(svc, nodes, useInternalIPs), uid);
    var _, _, _ := UpdateLoadBalancer(c, svc, nodes, useInternalIPs);
    LastSound(c, old(c.lb), old(c.history), uid + "_");
  }

  method HandleDelete(c: Cloud, uid: string, svc: Service)
    requires c.Valid() && About(Deleted(svc), uid)
    modifies c
    ensures c.Valid() && ForeignUntouched(old(c.lb), c.lb, uid + "_") && old(c.outages) <= c.outages
  {
    hide SafeSince, ForeignUntouched, About, Stripped, Borrowed;
    EventPrefix(Deleted(svc), uid);
    var _ := RemoveExternallyManagedResources(c, svc);
    LastSafe(c, old(c.lb), old(c.history), uid + "_");
  }

  lemma EventPrefix(turn: Event, uid: string)
    requires About(turn, uid)
    ensures DistinctPorts(turn.svc) && PrefixFilter(turn.svc) == Prefix(turn.svc) == uid + "_"
  {
  }

  lemma LastSound(c: Cloud, s0: LB, history: seq<LB>, prefix: string)
    requires c.Valid() && history <= c.history
             && forall i | |history| <= i < |c.history| :: Sound(s0, c.history[i], prefix)
    ensures c.history != history ==> ForeignUntouched(s0, c.lb, prefix)
  {
    hide ForeignUntouched;
  }

  lemma LastSafe(c: Cloud, s0: LB, history: seq<LB>, prefix: string)
    requires SafeSince(c, s0, prefix, history)
    ensures c.Valid() && ForeignUntouched(s0, c.lb, prefix)
  {
    hide ForeignUntouched;
  }

  /** Over any sequence of updates and deletions, each of which may break off at any call, the
      frontends and backends that are not named after the service stay exactly as they were; and if
      there were no others to begin with, a last deletion that hits no outage restores the load
      balancer. */
  method Turns(c: Cloud, uid: string, turns: seq<Event>, last: Service) returns (r: Result<(), Error>)
    requires c.Valid() && forall t | t in turns :: About(t, uid)
    requires About(Deleted(last), uid)
    modifies c
    ensures c.Valid() && ForeignUntouched(old(c.lb), c.lb, uid + "_") && old(c.outages) <= c.outages
    ensures ManagedFrontends(old(c.lb), uid + "_") == {} && ManagedBackends(old(c.lb), uid + "_") == {} ==>
              (r.Ok? && c.lb == old(c.lb)) || (r == Err(Unavailable) && c.outages != old(c.outages))
  {
    hide ForeignUntouched, ManagedFrontends, ManagedBackends, Borrowed, Stripped, Clean, Suitable;
    ghost var prefix := uid + "_";
    ForeignReflexive(c.lb, prefix);
    for i := 0 to |turns|
      invariant c.Valid() && ForeignUntouched(old(c.lb), c.lb, prefix) && old(c.outages) <= c.outages
    {
      assert turns[i] in turns;
      ghost var s := c.lb;
      Handle(c, uid, turns[i]);
      ForeignTransitive(old(c.lb), s, c.lb, prefix);
    }
    ghost var s := c.lb;
    if ManagedFrontends(old(c.lb), prefix) == {} && ManagedBackends(old(c.lb), prefix) == {} {
      NothingBorrowed(old(c.lb), s, prefix);
      StrippingUndoes(old(c.lb), s, prefix);
    }
    r := RemoveExternallyManagedResources(c, last);
    ForeignTransitive(old(c.lb), s, c.lb, prefix);
    assert r.Err? ==> r.error.Unavailable? || r.error.Refused? || r.error.BadService?;
  }
}
