/** The load-balancer API, reduced to what it does to one load balancer.  Any call may fail without
    effect; calls that break the API's own rules always do. */
module CloudApi {
  import opened Basics
  import opened Sorting
  import opened Acl
  import opened Diff
  import opened LoadBalancer

  /** Outage: the API could not be reached or gave up.  Conflict: it refused the request, either to
      delete a backend that a frontend references or to create a frontend on a port in use. */
  datatype ApiError = Outage | Conflict

  type Reply<+T> = Result<T, ApiError>

  class Cloud {
    var lb: LB
    var nextId: Id

    /** The states the load balancer went through, one per mutating call that took effect. */
    ghost var history: seq<LB>
    /** How many mutating calls were issued, and how many calls of any kind suffered an outage. */
    ghost var calls: nat
    ghost var outages: nat

    ghost predicate Valid()
      reads this
    {
      && ValidLB(lb)
      && nextId > 0
      && (forall id | id in lb.frontends :: id < nextId)
      && (forall id | id in lb.backends :: id < nextId)
      && (history != [] ==> history[|history| - 1] == lb)
    }

    constructor ()
      ensures Valid() && lb == LB(map[], map[]) && history == [] && calls == 0 && outages == 0
    {
      lb := LB(map[], map[]);
      nextId := 1;
      history := [];
      calls, outages := 0, 0;
    }

    /** The call took effect and left the load balancer in state `next`. */
    twostate predicate Mutated(next: LB)
      reads this
    {
      && Valid() && old(nextId) <= nextId
      && lb == next && history == old(history) + [next] && calls == old(calls) + 1 && outages == old(outages)
    }

    /** The mutating call failed and changed nothing. */
    twostate predicate Refused(error: ApiError)
      reads this
    {
      && Valid() && nextId == old(nextId)
      && lb == old(lb) && history == old(history) && calls == old(calls) + 1
      && outages == old(outages) + (if error == Outage then 1 else 0)
    }

    /** A read, successful or not. */
    twostate predicate ReadOnly(ok: bool)
      reads this
    {
      && Valid() && nextId == old(nextId)
      && lb == old(lb) && history == old(history) && calls == old(calls)
      && outages == old(outages) + (if ok then 0 else 1)
    }

    ghost method Record()
      requires ValidLB(lb)
      modifies `history, `calls
      ensures history == old(history) + [lb] && calls == old(calls) + 1
    {
      history := history + [lb];
      calls := calls + 1;
    }

    method ListFrontends() returns (r: Reply<seq<ListedFrontend>>)
      requires Valid()
      modifies `outages
      ensures ReadOnly(r.Ok?) && (r.Err? ==> r.error == Outage)
      ensures r.Ok? ==> ListsFrontends(r.value, lb)
    {
      var outage: bool := *;
      if outage {
        outages := outages + 1;
        return Err(Outage);
      }
      var rest := lb.frontends.Keys;
      var fs: seq<ListedFrontend> := [];
      while exists id :: id in rest
        invariant rest <= lb.frontends.Keys
        invariant DistinctIds(fs)
        invariant forall x | x in fs ::
                    x.id in lb.frontends && x.id !in rest && x == ViewFrontend(lb, lb.frontends[x.id])
        invariant forall id | id in lb.frontends && id !in rest :: ViewFrontend(lb, lb.frontends[id]) in fs
        decreases rest
      {
        var id :| id in rest;
        fs := fs + [ViewFrontend(lb, lb.frontends[id])];
        rest := rest - {id};
      }
      return Ok(fs);
    }

    method ListBackends() returns (r: Reply<seq<ListedBackend>>)
      requires Valid()
      modifies `outages
      ensures ReadOnly(r.Ok?) && (r.Err? ==> r.error == Outage)
      ensures r.Ok? ==> ListsBackends(r.value, lb)
    {
      var outage: bool := *;
      if outage {
        outages := outages + 1;
        return Err(Outage);
      }
      var rest := lb.backends.Keys;
      var bs: seq<ListedBackend> := [];
      while exists id :: id in rest
        invariant rest <= lb.backends.Keys
        invariant DistinctIds(bs)
        invariant forall x | x in bs :: x.id in lb.backends && x.id !in rest && x == ViewBackend(lb.backends[x.id])
        invariant forall id | id in lb.backends && id !in rest :: ViewBackend(lb.backends[id]) in bs
        decreases rest
      {
        var id :| id in rest;
        bs := bs + [ViewBackend(lb.backends[id])];
        rest := rest - {id};
      }
      return Ok(bs);
    }

    /** A listing filtered by name, taken to mean the names that start with the filter. */
    method ListFrontendsNamed(prefix: string) returns (r: Reply<seq<ListedFrontend>>)
      requires Valid()
      modifies `outages
      ensures ReadOnly(r.Ok?) && (r.Err? ==> r.error == Outage)
      ensures r.Ok? ==> NamedFrontends(r.value, lb, prefix)
    {
      var outage: bool := *;
      if outage {
        outages := outages + 1;
        return Err(Outage);
      }
      var rest := set id | id in lb.frontends && Managed(lb.frontends[id].name, prefix);
      var fs: seq<ListedFrontend> := [];
      while exists id :: id in rest
        invariant forall id | id in rest :: id in lb.frontends && Managed(lb.frontends[id].name, prefix)
        invariant DistinctIds(fs)
        invariant forall x | x in fs ::
                    x.id in lb.frontends && Managed(lb.frontends[x.id].name, prefix) && x.id !in rest
        invariant forall id | id in lb.frontends && Managed(lb.frontends[id].name, prefix) && id !in rest ::
                    ViewFrontend(lb, lb.frontends[id]) in fs
        decreases rest
      {
        var id :| id in rest;
        fs := fs + [ViewFrontend(lb, lb.frontends[id])];
        rest := rest - {id};
      }
      return Ok(fs);
    }

    method ListBackendsNamed(prefix: string) returns (r: Reply<seq<ListedBackend>>)
      requires Valid()
      modifies `outages
      ensures ReadOnly(r.Ok?) && (r.Err? ==> r.error == Outage)
      ensures r.Ok? ==> NamedBackends(r.value, lb, prefix)
    {
      var outage: bool := *;
      if outage {
        outages := outages + 1;
        return Err(Outage);
      }
      var rest := set id | id in lb.backends && Managed(lb.backends[id].name, prefix);
      var bs: seq<ListedBackend> := [];
      while exists id :: id in rest
        invariant forall id | id in rest :: id in lb.backends && Managed(lb.backends[id].name, prefix)
        invariant DistinctIds(bs)
        invariant forall x | x in bs :: x.id in lb.backends && Managed(lb.backends[x.id].name, prefix) && x.id !in rest
        invariant forall id | id in lb.backends && Managed(lb.backends[id].name, prefix) && id !in rest ::
                    ViewBackend(lb.backends[id]) in bs
        decreases rest
      {
        var id :| id in rest;
        bs := bs + [ViewBackend(lb.backends[id])];
        rest := rest - {id};
      }
      return Ok(bs);
    }

    method ListACLs(frontend: Id, name: string) returns (r: Reply<seq<Rule>>)
      requires Valid() && frontend in lb.frontends
      modifies `outages
      ensures ReadOnly(r.Ok?) && (r.Err? ==> r.error == Outage)
      ensures r.Ok? ==> r.value == ListNamed(lb.frontends[frontend].acls, name)
    {
      var outage: bool := *;
      if outage {
        outages := outages + 1;
        return Err(Outage);
      }
      return Ok(ListNamed(lb.frontends[frontend].acls, name));
    }

    method SetACLs(frontend: Id, acls: seq<Rule>) returns (r: Reply<()>)
      requires Valid() && frontend in lb.frontends
      modifies this
      ensures r.Ok? ==> Mutated(PutFrontend(old(lb), old(lb).frontends[frontend].(acls := acls)))
      ensures r.Err? ==> r.error == Outage && Refused(Outage)
    {
      var outage: bool := *;
      if outage {
        calls, outages := calls + 1, outages + 1;
        return Err(Outage);
      }
      lb := PutFrontend(lb, lb.frontends[frontend].(acls := acls));
      Record();
      return Ok(());
    }

    method CreateBackend(target: ListedBackend) returns (r: Reply<Backend>)
      requires Valid()
      modifies this
      ensures r.Ok? ==>
                && r.value == Backend(old(nextId), target.name, target.port, target.body.settings,
                                      target.body.healthCheck, target.body.pool.Elems())
                && Mutated(PutBackend(old(lb), r.value))
      ensures r.Err? ==> r.error == Outage && Refused(Outage)
    {
      var outage: bool := *;
      if outage {
        calls, outages := calls + 1, outages + 1;
        return Err(Outage);
      }
      var b := Backend(nextId, target.name, target.port, target.body.settings, target.body.healthCheck,
          target.body.pool.Elems());
      lb := PutBackend(lb, b);
      nextId := nextId + 1;
      Record();
      return Ok(b);
    }

    /** Leaves the pool and the health check alone. */
    method UpdateBackend(target: ListedBackend) returns (r: Reply<Backend>)
      requires Valid() && target.id in lb.backends
      modifies this
      ensures r.Ok? ==>
                && r.value == old(lb).backends[target.id].(name := target.name, forwardPort := target.port,
                    settings := target.body.settings)
                && Mutated(PutBackend(old(lb), r.value))
      ensures r.Err? ==> r.error == Outage && Refused(Outage)
    {
      var outage: bool := *;
      if outage {
        calls, outages := calls + 1, outages + 1;
        return Err(Outage);
      }
      var b := lb.backends[target.id].(name := target.name, forwardPort := target.port,
          settings := target.body.settings);
      lb := PutBackend(lb, b);
      Record();
      return Ok(b);
    }

    method UpdateHealthCheck(backend: Id, healthCheck: Settings) returns (r: Reply<()>)
      requires Valid() && backend in lb.backends
      modifies this
      ensures r.Ok? ==> Mutated(PutBackend(old(lb), old(lb).backends[backend].(healthCheck := healthCheck)))
      ensures r.Err? ==> r.error == Outage && Refused(Outage)
    {
      var outage: bool := *;
      if outage {
        calls, outages := calls + 1, outages + 1;
        return Err(Outage);
      }
      lb := PutBackend(lb, lb.backends[backend].(healthCheck := healthCheck));
      Record();
      return Ok(());
    }

    method SetBackendServers(backend: Id, servers: Slice) returns (r: Reply<()>)
      requires Valid() && backend in lb.backends
      modifies this
      ensures r.Ok? ==> Mutated(PutBackend(old(lb), old(lb).backends[backend].(pool := servers.Elems())))
      ensures r.Err? ==> r.error == Outage && Refused(Outage)
    {
      var outage: bool := *;
      if outage {
        calls, outages := calls + 1, outages + 1;
        return Err(Outage);
      }
      lb := PutBackend(lb, lb.backends[backend].(pool := servers.Elems()));
      Record();
      return Ok(());
    }

    /** Refused exactly when some frontend still forwards to the backend. */
    method DeleteBackend(backend: Id) returns (r: Reply<()>)
      requires Valid() && backend in lb.backends
      modifies this
      ensures r.Ok? ==> Mutated(DropBackend(old(lb), backend))
                          && forall f | f in old(lb).frontends :: old(lb).frontends[f].backendId != backend
      ensures r.Err? ==> Refused(r.error)
      ensures r == Err(Conflict) ==> exists f | f in lb.frontends :: lb.frontends[f].backendId == backend
    {
      var outage: bool := *;
      if outage {
        calls, outages := calls + 1, outages + 1;
        return Err(Outage);
      }
      if exists f | f in lb.frontends :: lb.frontends[f].backendId == backend {
        calls := calls + 1;
        return Err(Conflict);
      }
      lb := DropBackend(lb, backend);
      Record();
      return Ok(());
    }

    /** Refused exactly when some frontend already listens on the port. */
    method CreateFrontend(target: ListedFrontend, backend: Id) returns (r: Reply<Frontend>)
      requires Valid() && backend in lb.backends
      modifies this
      ensures r.Ok? ==>
                && r.value == Frontend(old(nextId), target.name, target.port, backend, target.body.settings,
                    target.body.certs.Elems(), [])
                && Mutated(PutFrontend(old(lb), r.value))
                && forall f | f in old(lb).frontends :: old(lb).frontends[f].inboundPort != target.port
      ensures r.Err? ==> Refused(r.error)
      ensures r == Err(Conflict) ==> exists f | f in lb.frontends :: lb.frontends[f].inboundPort == target.port
    {
      var outage: bool := *;
      if outage {
        calls, outages := calls + 1, outages + 1;
        return Err(Outage);
      }
      if exists f | f in lb.frontends :: lb.frontends[f].inboundPort == target.port {
        calls := calls + 1;
        return Err(Conflict);
      }
      var f := Frontend(nextId, target.name, target.port, backend, target.body.settings, target.body.certs.Elems(), []);
      lb := PutFrontend(lb, f);
      nextId := nextId + 1;
      Record();
      return Ok(f);
    }

    /** Leaves the frontend's rules alone. */
    method UpdateFrontend(target: ListedFrontend, backend: Id) returns (r: Reply<Frontend>)
      requires Valid() && target.id in lb.frontends && backend in lb.backends
      requires target.port == lb.frontends[target.id].inboundPort
      modifies this
      ensures r.Ok? ==>
                && r.value == old(lb).frontends[target.id].(name := target.name, backendId := backend,
                                                            settings := target.body.settings,
                                                                certs := target.body.certs.Elems())
                && Mutated(PutFrontend(old(lb), r.value))
      ensures r.Err? ==> r.error == Outage && Refused(Outage)
    {
      var outage: bool := *;
      if outage {
        calls, outages := calls + 1, outages + 1;
        return Err(Outage);
      }
      var f := lb.frontends[target.id].(name := target.name, backendId := backend,
                                        settings := target.body.settings, certs := target.body.certs.Elems());
      lb := PutFrontend(lb, f);
      Record();
      return Ok(f);
    }

    method DeleteFrontend(frontend: Id) returns (r: Reply<()>)
      requires Valid() && frontend in lb.frontends
      modifies this
      ensures r.Ok? ==> Mutated(DropFrontend(old(lb), frontend))
      ensures r.Err? ==> r.error == Outage && Refused(Outage)
    {
      var outage: bool := *;
      if outage {
        calls, outages := calls + 1, outages + 1;
        return Err(Outage);
      }
      lb := DropFrontend(lb, frontend);
      Record();
      return Ok(());
    }
  }
}
