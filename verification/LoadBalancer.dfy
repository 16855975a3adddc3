/** One load balancer as the cloud stores it, the service it should realise, and serviceToLB. */
module LoadBalancer {
  import opened Basics
  import opened Sorting
  import opened Acl
  import opened Diff

  /** The scalar settings of a frontend or backend (timeouts, algorithms, health-check variants and
      so on), which the controller only copies and compares. */
  datatype Settings = Settings(fields: map<string, string>)

  datatype Frontend = Frontend(
    id: Id, name: string, inboundPort: int, backendId: Id, settings: Settings, certs: seq<string>, acls: seq<Rule>)

  datatype Backend = Backend(
    id: Id, name: string, forwardPort: int, settings: Settings, healthCheck: Settings, pool: seq<string>)

  datatype LB = LB(frontends: map<Id, Frontend>, backends: map<Id, Backend>)

  /** Referential integrity: every frontend forwards to a backend that exists. */
  ghost predicate ValidLB(s: LB) {
    && (forall id | id in s.frontends :: s.frontends[id].id == id && s.frontends[id].backendId in s.backends)
    && (forall id | id in s.backends :: s.backends[id].id == id)
  }

  function PutFrontend(s: LB, f: Frontend): LB {
    s.(frontends := s.frontends[f.id := f])
  }

  function PutBackend(s: LB, b: Backend): LB {
    s.(backends := s.backends[b.id := b])
  }

  function DropFrontend(s: LB, id: Id): LB {
    s.(frontends := s.frontends - {id})
  }

  function DropBackend(s: LB, id: Id): LB {
    s.(backends := s.backends - {id})
  }

  // ---- What a listing shows of a frontend or a backend ----

  datatype FrontendBody = FrontendBody(forwardPort: int, settings: Settings, certs: Slice)
  datatype BackendBody = BackendBody(settings: Settings, healthCheck: Settings, pool: Slice)
  type ListedFrontend = Keyed<FrontendBody>
  type ListedBackend = Keyed<BackendBody>

  /** A listed frontend embeds its backend, of which only the forward port is looked at.  The API
      never hands back a nil list. */
  function ViewFrontend(s: LB, f: Frontend): ListedFrontend
    requires f.backendId in s.backends
  {
    Keyed(f.id, f.name, f.inboundPort, FrontendBody(s.backends[f.backendId].forwardPort, f.settings, Items(f.certs)))
  }

  function ViewBackend(b: Backend): ListedBackend {
    Keyed(b.id, b.name, b.forwardPort, BackendBody(b.settings, b.healthCheck, Items(b.pool)))
  }

  /** A complete listing, in whatever order the API chose. */
  ghost predicate ListsFrontends(fs: seq<ListedFrontend>, s: LB)
    requires ValidLB(s)
  {
    && DistinctIds(fs)
    && (forall x | x in fs :: x.id in s.frontends && x == ViewFrontend(s, s.frontends[x.id]))
    && (forall id | id in s.frontends :: ViewFrontend(s, s.frontends[id]) in fs)
  }

  ghost predicate ListsBackends(bs: seq<ListedBackend>, s: LB)
    requires ValidLB(s)
  {
    && DistinctIds(bs)
    && (forall x | x in bs :: x.id in s.backends && x == ViewBackend(s.backends[x.id]))
    && (forall id | id in s.backends :: ViewBackend(s.backends[id]) in bs)
  }

  /** A complete listing of the names that start with a prefix. */
  ghost predicate NamedFrontends(fs: seq<ListedFrontend>, s: LB, prefix: string)
    requires ValidLB(s)
  {
    && DistinctIds(fs)
    && (forall x | x in fs :: x.id in s.frontends && Managed(s.frontends[x.id].name, prefix))
    && (forall id | id in s.frontends && Managed(s.frontends[id].name, prefix) ::
          ViewFrontend(s, s.frontends[id]) in fs)
  }

  ghost predicate NamedBackends(bs: seq<ListedBackend>, s: LB, prefix: string) {
    && DistinctIds(bs)
    && (forall x | x in bs :: x.id in s.backends && Managed(s.backends[x.id].name, prefix))
    && (forall id | id in s.backends && Managed(s.backends[id].name, prefix) :: ViewBackend(s.backends[id]) in bs)
  }

  predicate FrontendEquals(got: ListedFrontend, want: ListedFrontend) {
    && got.name == want.name
    && got.port == want.port
    && got.body.forwardPort == want.body.forwardPort
    && got.body.settings == want.body.settings
    && StringArrayEqual(got.body.certs, want.body.certs)
  }

  /** The pool is not part of the comparison. */
  predicate BackendEquals(got: ListedBackend, want: ListedBackend) {
    && got.name == want.name
    && got.body.settings == want.body.settings
    && got.port == want.port
    && got.body.healthCheck == want.body.healthCheck
  }

  method CompareFrontends(got: seq<ListedFrontend>, want: map<int, ListedFrontend>, prefix: string)
    returns (ops: Ops<FrontendBody>)
    requires forall p | p in want :: want[p].port == p
    ensures ops == Compared(got, want, prefix, FrontendEquals)
  {
    ops := Compare(got, want, prefix, FrontendEquals);
  }

  method CompareBackends(got: seq<ListedBackend>, want: map<int, ListedBackend>, prefix: string)
    returns (ops: Ops<BackendBody>)
    requires forall p | p in want :: want[p].port == p
    ensures ops == Compared(got, want, prefix, BackendEquals)
  {
    ops := Compare(got, want, prefix, BackendEquals);
  }

  // ---- The service ----

  datatype Protocol = TCP | UDP | SCTP

  datatype FrontendConfig = FrontendConfig(settings: Settings, certs: seq<string>)
  datatype BackendConfig = BackendConfig(settings: Settings, healthCheck: Settings)

  /** A service port with the settings its annotations resolve to; None where an annotation is invalid. */
  datatype ServicePort = ServicePort(
    protocol: Protocol, port: int, nodePort: int, frontend: Option<FrontendConfig>, backend: Option<BackendConfig>)

  datatype Service = Service(uid: string, ports: seq<ServicePort>, externallyManaged: bool, ranges: seq<Range>)

  /** Kubernetes hands out each port once per protocol.  Ports may share a node port: across protocols, or
      because none was allocated and it is 0 throughout.  The backend a TCP port asks for is looked up by its
      node port, so ports that share one ask for the same. */
  ghost predicate DistinctPorts(svc: Service) {
    forall i, j | 0 <= i < j < |svc.ports| && svc.ports[i].protocol == svc.ports[j].protocol ::
      && svc.ports[i].port != svc.ports[j].port
      && (svc.ports[i].protocol == TCP && svc.ports[i].nodePort == svc.ports[j].nodePort ==>
            svc.ports[i].backend == svc.ports[j].backend)
  }

  /** Only objects named after the service are touched on a load balancer managed elsewhere. */
  function PrefixFilter(svc: Service): string {
    if svc.externallyManaged then svc.uid + "_" else ""
  }

  function ProtocolName(p: Protocol): string {
    match p
    case TCP => "tcp"
    case UDP => "udp"
    case SCTP => "sctp"
  }

  function FrontendName(svc: Service, p: ServicePort): string {
    svc.uid + "_" + ProtocolName(p.protocol) + "_" + Itoa(p.port)
  }

  function BackendName(svc: Service, p: ServicePort): string {
    svc.uid + "_" + ProtocolName(p.protocol) + "_" + Itoa(p.nodePort)
  }

  lemma NamesManaged(svc: Service, p: ServicePort)
    ensures Managed(FrontendName(svc, p), PrefixFilter(svc))
    ensures Managed(BackendName(svc, p), PrefixFilter(svc))
  {
    var rest := ProtocolName(p.protocol) + "_";
    assert FrontendName(svc, p) == svc.uid + "_" + (rest + Itoa(p.port));
    assert BackendName(svc, p) == svc.uid + "_" + (rest + Itoa(p.nodePort));
  }

  /** On a load balancer managed elsewhere only what is named after the service is, on one of its own
      everything. */
  lemma PrefixFilterMeans(svc: Service, name: string)
    ensures Managed(name, PrefixFilter(svc))
            <==> (svc.externallyManaged ==> exists rest :: name == svc.uid + "_" + rest)
  {
    HasPrefixMeans(name, PrefixFilter(svc));
    if !svc.externallyManaged {
      assert name == "" + name;
    }
  }

  /** Names are made of the service's identity, the protocol and the number. */
  lemma NamesSpelt(svc: Service, p: ServicePort)
    ensures p.protocol == TCP ==> FrontendName(svc, p) == svc.uid + "_tcp_" + Itoa(p.port)
                                  && BackendName(svc, p) == svc.uid + "_tcp_" + Itoa(p.nodePort)
    ensures p.protocol == UDP ==> FrontendName(svc, p) == svc.uid + "_udp_" + Itoa(p.port)
                                  && BackendName(svc, p) == svc.uid + "_udp_" + Itoa(p.nodePort)
    ensures p.protocol == SCTP ==> FrontendName(svc, p) == svc.uid + "_sctp_" + Itoa(p.port)
                                   && BackendName(svc, p) == svc.uid + "_sctp_" + Itoa(p.nodePort)
  {
    hide Itoa;
  }

  /** Ports of different protocols or numbers have frontends and backends of different names. */
  lemma NamesApart(svc: Service, p: ServicePort, q: ServicePort)
    ensures FrontendName(svc, p) == FrontendName(svc, q) <==> p.protocol == q.protocol && p.port == q.port
    ensures BackendName(svc, p) == BackendName(svc, q) <==> p.protocol == q.protocol && p.nodePort == q.nodePort
  {
    hide ProtocolName, Itoa;
    NumberedApart(svc.uid, p.protocol, q.protocol, p.port, q.port);
    NumberedApart(svc.uid, p.protocol, q.protocol, p.nodePort, q.nodePort);
  }

  lemma NumberedApart(uid: string, p: Protocol, q: Protocol, m: int, n: int)
    ensures uid + "_" + ProtocolName(p) + "_" + Itoa(m) == uid + "_" + ProtocolName(q) + "_" + Itoa(n)
            <==> p == q && m == n
  {
    hide Itoa, ProtocolName;
    var head := uid + "_";
    var s, t := ProtocolName(p) + ['_'] + Itoa(m), ProtocolName(q) + ['_'] + Itoa(n);
    assert uid + "_" + ProtocolName(p) + "_" + Itoa(m) == head + s;
    assert uid + "_" + ProtocolName(q) + "_" + Itoa(n) == head + t;
    assert (head + s)[|head|..] == s && (head + t)[|head|..] == t;
    ProtocolNames(p, q);
    ItoaInjective(m, n);
    if s == t {
      SeparatedOnce(ProtocolName(p), ProtocolName(q), '_', Itoa(m), Itoa(n));
    }
  }

  lemma ProtocolNames(p: Protocol, q: Protocol)
    ensures '_' !in ProtocolName(p) && '_' !in ProtocolName(q)
    ensures ProtocolName(p) == ProtocolName(q) <==> p == q
  {
    assert ProtocolName(TCP)[0] == 't' && ProtocolName(UDP)[0] == 'u' && ProtocolName(SCTP)[0] == 's';
  }

  predicate Usable(p: ServicePort) {
    p.frontend.Some? && p.backend.Some?
  }

  /** servicePortToFrontend: the wanted frontend, with no identifier yet. */
  function FrontendTarget(svc: Service, p: ServicePort): ListedFrontend
    requires Usable(p)
  {
    Keyed(0, FrontendName(svc, p), p.port,
          FrontendBody(p.nodePort, p.frontend.value.settings, Items(p.frontend.value.certs)))
  }

  function BackendTarget(svc: Service, p: ServicePort, targets: Slice): ListedBackend
    requires Usable(p)
  {
    Keyed(0, BackendName(svc, p), p.nodePort,
          BackendBody(p.backend.value.settings, p.backend.value.healthCheck, targets))
  }

  /** The wanted frontends of the first n ports, by port; a later port overrides an earlier one. */
  function FrontendTargets(svc: Service, n: nat): map<int, ListedFrontend>
    requires n <= |svc.ports|
  {
    if n == 0 then map[]
    else
      var p := svc.ports[n - 1];
      var before := FrontendTargets(svc, n - 1);
      if p.protocol == TCP && Usable(p) then before[p.port := FrontendTarget(svc, p)] else before
  }

  /** The wanted backends of the first n ports, by node port. */
  function BackendTargets(svc: Service, n: nat, targets: Slice): map<int, ListedBackend>
    requires n <= |svc.ports|
  {
    if n == 0 then map[]
    else
      var p := svc.ports[n - 1];
      var before := BackendTargets(svc, n - 1, targets);
      if p.protocol == TCP && Usable(p) then before[p.nodePort := BackendTarget(svc, p, targets)] else before
  }

  predicate AnnotationsValid(svc: Service) {
    forall i | 0 <= i < |svc.ports| :: svc.ports[i].protocol == TCP ==> Usable(svc.ports[i])
  }

  datatype Wanted = Invalid | Wanted(frontends: map<int, ListedFrontend>, backends: map<int, ListedBackend>)

  /** serviceToLB: other protocols than TCP are skipped, an invalid annotation fails the lot. */
  method ServiceToLB(svc: Service, targets: Slice) returns (r: Wanted)
    ensures r == if AnnotationsValid(svc)
                 then Wanted(FrontendTargets(svc, |svc.ports|), BackendTargets(svc, |svc.ports|, targets))
                 else Invalid
  {
    var frontends: map<int, ListedFrontend> := map[];
    var backends: map<int, ListedBackend> := map[];
    for i := 0 to |svc.ports|
      invariant forall j | 0 <= j < i :: svc.ports[j].protocol == TCP ==> Usable(svc.ports[j])
      invariant frontends == FrontendTargets(svc, i)
      invariant backends == BackendTargets(svc, i, targets)
    {
      var p := svc.ports[i];
      if p.protocol != TCP {
        continue;
      }
      if p.frontend.None? {
        return Invalid;
      }
      if p.backend.None? {
        return Invalid;
      }
      frontends := frontends[p.port := FrontendTarget(svc, p)];
      backends := backends[p.nodePort := BackendTarget(svc, p, targets)];
    }
    return Wanted(frontends, backends);
  }

  /** The n-port prefix serves p: a TCP port below n carries it. */
  ghost predicate ServedPort(svc: Service, n: nat, port: int)
    requires n <= |svc.ports|
  {
    exists i | 0 <= i < n :: svc.ports[i].protocol == TCP && Usable(svc.ports[i]) && svc.ports[i].port == port
  }

  ghost predicate ServedNodePort(svc: Service, n: nat, nodePort: int)
    requires n <= |svc.ports|
  {
    exists i | 0 <= i < n :: svc.ports[i].protocol == TCP && Usable(svc.ports[i]) && svc.ports[i].nodePort == nodePort
  }

  lemma {:induction false} FrontendTargetsDomain(svc: Service, n: nat, port: int)
    requires n <= |svc.ports|
    ensures port in FrontendTargets(svc, n) <==> ServedPort(svc, n, port)
    ensures port in FrontendTargets(svc, n) ==> FrontendTargets(svc, n)[port].port == port
  {
    if n > 0 {
      FrontendTargetsDomain(svc, n - 1, port);
    }
  }

  lemma {:induction false} BackendTargetsDomain(svc: Service, n: nat, targets: Slice, port: int)
    requires n <= |svc.ports|
    ensures port in BackendTargets(svc, n, targets) <==> ServedNodePort(svc, n, port)
    ensures port in BackendTargets(svc, n, targets) ==> BackendTargets(svc, n, targets)[port].port == port
  {
    if n > 0 {
      BackendTargetsDomain(svc, n - 1, targets, port);
    }
  }

  /** Distinct ports each get their own target. */
  lemma {:induction false} TargetsOf(svc: Service, n: nat, targets: Slice, i: nat)
    requires DistinctPorts(svc) && i < n <= |svc.ports|
    requires svc.ports[i].protocol == TCP && Usable(svc.ports[i])
    ensures var p := svc.ports[i];
            && p.port in FrontendTargets(svc, n) && FrontendTargets(svc, n)[p.port] == FrontendTarget(svc, p)
            && p.nodePort in BackendTargets(svc, n, targets)
            && BackendTargets(svc, n, targets)[p.nodePort] == BackendTarget(svc, p, targets)
  {
    if i < n - 1 {
      TargetsOf(svc, n - 1, targets, i);
    }
  }

  // ---- The turns of the apply loop ----

  /** The settings prepared for a port number, if there is a TCP port of that number among the first n. */
  function FrontendFor(svc: Service, n: nat, port: int): Option<FrontendConfig>
    requires n <= |svc.ports|
  {
    if n == 0 then None
    else if svc.ports[n - 1].protocol == TCP && svc.ports[n - 1].port == port then svc.ports[n - 1].frontend
    else FrontendFor(svc, n - 1, port)
  }

  function BackendFor(svc: Service, n: nat, nodePort: int): Option<BackendConfig>
    requires n <= |svc.ports|
  {
    if n == 0 then None
    else if svc.ports[n - 1].protocol == TCP && svc.ports[n - 1].nodePort == nodePort then svc.ports[n - 1].backend
    else BackendFor(svc, n - 1, nodePort)
  }

  /** The apply loop looks prepared objects up by number only, whatever the protocol of the port whose
      turn it is: this is the port it acts for. */
  function Turn(svc: Service, k: nat): ServicePort
    requires k < |svc.ports|
  {
    var p := svc.ports[k];
    ServicePort(TCP, p.port, p.nodePort, FrontendFor(svc, |svc.ports|, p.port),
        BackendFor(svc, |svc.ports|, p.nodePort))
  }

  /** Some TCP port carries the number. */
  ghost predicate TcpPort(svc: Service, port: int) {
    exists i | 0 <= i < |svc.ports| :: svc.ports[i].protocol == TCP && svc.ports[i].port == port
  }

  ghost predicate TcpNodePort(svc: Service, nodePort: int) {
    exists i | 0 <= i < |svc.ports| :: svc.ports[i].protocol == TCP && svc.ports[i].nodePort == nodePort
  }

  lemma {:induction false} FrontendForIs(svc: Service, n: nat, port: int)
    requires n <= |svc.ports| && AnnotationsValid(svc)
    ensures FrontendFor(svc, n, port).Some?
            <==> exists i | 0 <= i < n :: svc.ports[i].protocol == TCP && svc.ports[i].port == port
    ensures DistinctPorts(svc) ==>
              forall i | 0 <= i < n && svc.ports[i].protocol == TCP && svc.ports[i].port == port ::
                    FrontendFor(svc, n, port) == svc.ports[i].frontend
  {
    if n > 0 {
      FrontendForIs(svc, n - 1, port);
    }
  }

  lemma {:induction false} BackendForIs(svc: Service, n: nat, nodePort: int)
    requires n <= |svc.ports| && AnnotationsValid(svc)
    ensures BackendFor(svc, n, nodePort).Some?
            <==> exists i | 0 <= i < n :: svc.ports[i].protocol == TCP && svc.ports[i].nodePort == nodePort
    ensures DistinctPorts(svc) ==>
              forall i | 0 <= i < n && svc.ports[i].protocol == TCP && svc.ports[i].nodePort == nodePort ::
                BackendFor(svc, n, nodePort) == svc.ports[i].backend
  {
    if n > 0 {
      BackendForIs(svc, n - 1, nodePort);
    }
  }

  /** A turn finds a frontend, or a backend, exactly when a TCP port carries its number; the turn of a
      TCP port acts for that port. */
  lemma TurnIs(svc: Service, k: nat)
    requires k < |svc.ports| && AnnotationsValid(svc) && DistinctPorts(svc)
    ensures Turn(svc, k).frontend.Some? <==> TcpPort(svc, svc.ports[k].port)
    ensures Turn(svc, k).backend.Some? <==> TcpNodePort(svc, svc.ports[k].nodePort)
    ensures svc.ports[k].protocol == TCP ==> Turn(svc, k) == svc.ports[k]
  {
    FrontendForIs(svc, |svc.ports|, svc.ports[k].port);
    BackendForIs(svc, |svc.ports|, svc.ports[k].nodePort);
  }
}
