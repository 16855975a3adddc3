/** The load balancer of a service over its lifetime: fetched by annotation or by name, created,
    deleted, recreated when its addresses do not fit. */
module Lifecycle {
  import opened Basics
  import opened Sorting

  datatype IP = IP(id: string, address: string)

  datatype Lb = Lb(name: string, ips: seq<IP>, typ: string, ssl: string)

  /** The annotation that names a service's load balancer: missing, without an identifier
      ("zone/"), not of the form "zone/id", or "zone/id". */
  datatype IdAnnotation = Absent | Blank | Malformed | Ref(id: Id)

  /** What the controller reads of a service.  `id` is the annotation of the copy in hand, which may be
      older than the API server's.  None stands for a value that does not parse. */
  datatype Svc = Svc(
    id: IdAnnotation,
    hasClass: bool,
    deleting: bool,
    external: Option<bool>,
    private: Option<bool>,
    ipIDs: string,
    loadBalancerIP: string,
    flexible: string,
    typ: string,
    ssl: Option<string>)

  predicate Bears(name: string, lbs: map<Id, Lb>, x: Id) {
    x in lbs && lbs[x].name == name
  }

  ghost predicate NoneBears(name: string, lbs: map<Id, Lb>) {
    forall x :: !Bears(name, lbs, x)
  }

  ghost predicate OnlyBears(name: string, lbs: map<Id, Lb>, x: Id) {
    forall y | Bears(name, lbs, y) :: y == x
  }

  ghost predicate AtMostOneBears(name: string, lbs: map<Id, Lb>) {
    forall x, y | Bears(name, lbs, x) && Bears(name, lbs, y) :: x == y
  }

  /** At most one load balancer bears the name, and if the annotation is set, it can only be the one
      the annotation points to.  The annotation may dangle; then there is none. */
  ghost predicate Single(name: string, lbs: map<Id, Lb>, annotation: IdAnnotation) {
    AtMostOneBears(name, lbs) && (annotation.Ref? ==> OnlyBears(name, lbs, annotation.id))
  }

  /** The annotation points to nothing, yet there is a load balancer of the name. */
  ghost predicate Orphan(name: string, lbs: map<Id, Lb>, annotation: IdAnnotation) {
    annotation.Ref? && annotation.id !in lbs && exists x :: Bears(name, lbs, x)
  }

  /** The cloud's load balancers in the service's zone, and the API server's copy of the annotation. */
  class World {
    const prefix: string
    const uid: string
    const pnID: string
    const defaultType: string
    var lbs: map<Id, Lb>
    var annotation: IdAnnotation
    var nextId: Id
    /** The reserved flexible addresses. */
    var reserved: map<string, string>

    /** Load balancers created and deleted, changes to their type or TLS level, calls that failed, and
        among these the patches that the API server turned down. */
    ghost var creates: nat
    ghost var deletes: nat
    ghost var changes: nat
    ghost var outages: nat
    ghost var failedPatches: nat
    /** Load balancers created whose identifier could not be written over an older one. */
    ghost var lost: nat

    constructor (prefix: string, uid: string, pnID: string, defaultType: string, reserved: map<string, string>)
      ensures Invariant() && lbs == map[] && annotation == Absent
      ensures this.prefix == prefix && this.uid == uid && this.pnID == pnID && this.defaultType == defaultType
              && this.reserved == reserved
      ensures creates == deletes == changes == outages == failedPatches == lost == 0
    {
      this.prefix, this.uid, this.pnID, this.defaultType, this.reserved := prefix, uid, pnID, defaultType, reserved;
      lbs, annotation, nextId := map[], Absent, 1;
      creates, deletes, changes, outages, failedPatches, lost := 0, 0, 0, 0, 0, 0;
    }

    /** GetLoadBalancerName */
    function LbName(): string {
      prefix + uid
    }

    ghost predicate Valid()
      reads this
    {
      forall x | x in lbs :: x < nextId
    }

    ghost predicate Invariant()
      reads this
    {
      Valid() && Single(LbName(), lbs, annotation)
    }

    ghost predicate Orphaned()
      reads this
    {
      Valid() && Orphan(LbName(), lbs, annotation)
    }

    twostate predicate SameLbs()
      reads this
    {
      lbs == old(lbs) && nextId == old(nextId) && reserved == old(reserved) && creates == old(creates)
      && deletes == old(deletes) && changes == old(changes)
    }

    /** No more patches failed than calls did. */
    twostate predicate OutageIff(failed: bool)
      reads this
    {
      && old(outages) <= outages && (failed <==> outages != old(outages)) && lost == old(lost)
      && old(failedPatches) <= failedPatches && failedPatches - old(failedPatches) <= outages - old(outages)
    }

    /** An identifier is only lost to a patch that failed. */
    twostate predicate LossesExplained()
      reads this
    {
      && old(lost) <= lost && lost - old(lost) <= failedPatches - old(failedPatches)
      && old(outages) <= outages && failedPatches - old(failedPatches) <= outages - old(outages)
    }

    /** What is counted never decreases. */
    twostate predicate Counted()
      reads this
    {
      old(creates) <= creates && old(deletes) <= deletes && old(changes) <= changes
    }

    method GetLB(x: Id) returns (r: Outcome<Option<Lb>>)
      requires Valid()
      modifies this
      ensures Valid() && SameLbs() && annotation == old(annotation) && OutageIff(r.Failed?)
              && failedPatches == old(failedPatches)
      ensures r.Done? ==> r.value == if x in lbs then Some(lbs[x]) else None
    {
      var outage: bool := *;
      if outage {
        outages := outages + 1;
        return Failed;
      }
      return Done(if x in lbs then Some(lbs[x]) else None);
    }

    /** The load balancers whose names match a filter, in some order; here, all of them. */
    method ListLBs() returns (r: Outcome<seq<Id>>)
      requires Valid()
      modifies this
      ensures Valid() && SameLbs() && annotation == old(annotation) && OutageIff(r.Failed?)
              && failedPatches == old(failedPatches)
      ensures r.Done? ==> forall x :: x in r.value <==> x in lbs
      ensures r.Done? ==> forall i, j | 0 <= i < j < |r.value| :: r.value[i] != r.value[j]
    {
      var outage: bool := *;
      if outage {
        outages := outages + 1;
        return Failed;
      }
      var rest := lbs.Keys;
      var found: seq<Id> := [];
      while exists x :: x in rest
        invariant rest <= lbs.Keys
        invariant forall x :: x in found <==> x in lbs && x !in rest
        invariant forall i, j | 0 <= i < j < |found| :: found[i] != found[j]
        decreases rest
      {
        var x :| x in rest;
        found := found + [x];
        rest := rest - {x};
      }
      return Done(found);
    }

    /** A load balancer holds the address. */
    predicate Held(ip: string)
      reads this
    {
      exists x :: x in lbs.Keys && ip in IpIds(lbs[x].ips)
    }

    /** The reserved addresses equal to a given one, in some order. */
    method ListIPs(address: string) returns (r: Outcome<seq<string>>)
      requires Valid()
      modifies this
      ensures Valid() && SameLbs() && annotation == old(annotation) && OutageIff(r.Failed?)
              && failedPatches == old(failedPatches)
      ensures r.Done? ==> forall ip :: ip in r.value <==> ip in reserved && reserved[ip] == address
    {
      var outage: bool := *;
      if outage {
        outages := outages + 1;
        return Failed;
      }
      var rest := reserved.Keys;
      var found: seq<string> := [];
      while exists ip :: ip in rest
        invariant rest <= reserved.Keys
        invariant forall ip :: ip in found <==> ip in reserved && ip !in rest && reserved[ip] == address
        decreases rest
      {
        var ip :| ip in rest;
        if reserved[ip] == address {
          found := found + [ip];
        }
        rest := rest - {ip};
      }
      return Done(found);
    }

    /** Creates a load balancer with the given reserved addresses, or with flexible ones.  The API
        refuses addresses that are unknown, held by another load balancer or given twice. */
    method CreateLB(name: string, ipIDs: seq<string>, v4: bool, v6: bool, typ: string, ssl: string)
      returns (r: Outcome<Id>)
      requires Valid()
      modifies this
      ensures Valid() && annotation == old(annotation) && OutageIff(r.Failed?) && failedPatches == old(failedPatches)
      ensures r.Failed? ==> SameLbs()
      ensures r.Done? ==> old(nextId) <= r.value && r.value in lbs && lbs == old(lbs)[r.value := lbs[r.value]]
      ensures r.Done? ==>
                creates == old(creates) + 1 && deletes == old(deletes) && changes == old(changes)
                && reserved == old(reserved)
      ensures r.Done? ==> lbs[r.value].name == name && lbs[r.value].typ == typ && lbs[r.value].ssl == ssl
      ensures r.Done? ==> Distinct(ipIDs)
      ensures r.Done? && ipIDs != [] ==> multiset(IpIds(lbs[r.value].ips)) == multiset(ipIDs)
      ensures r.Done? && ipIDs != [] ==>
                forall ip | ip in lbs[r.value].ips :: ip.id in reserved && ip.address == reserved[ip.id]
      ensures r.Done? && ipIDs == [] ==> |lbs[r.value].ips| == (if v4 then 1 else 0) + (if v6 then 1 else 0)
    {
      var outage: bool := *;
      if outage || (exists i :: 0 <= i < |ipIDs| && (ipIDs[i] !in reserved || Held(ipIDs[i]))) || !Distinct(ipIDs) {
        outages := outages + 1;
        return Failed;
      }
      var known := reserved;
      var ips := seq(|ipIDs|, i requires 0 <= i < |ipIDs| && ipIDs[i] in known => IP(ipIDs[i], known[ipIDs[i]]));
      assert IpIds(ips) == ipIDs;
      if ipIDs == [] {
        var four: IP, six: IP := *, *;
        ips := (if v4 then [four] else []) + (if v6 then [six] else []);
      }
      lbs := lbs[nextId := Lb(name, ips, typ, ssl)];
      r := Done(nextId);
      nextId := nextId + 1;
      creates := creates + 1;
    }

    /** Deletes a load balancer and, if asked to, gives up the addresses it held. */
    method DeleteLB(x: Id, releaseIP: bool) returns (ok: bool)
      requires Valid() && x in lbs
      modifies this
      ensures Valid() && annotation == old(annotation) && OutageIff(!ok) && failedPatches == old(failedPatches)
      ensures !ok ==> SameLbs()
      ensures ok ==>
                nextId == old(nextId) && lbs == old(lbs) - {x} && creates == old(creates)
                && deletes == old(deletes) + 1 && changes == old(changes)
      ensures ok ==> reserved == if releaseIP then Without(old(reserved), IpIds(old(lbs)[x].ips)) else old(reserved)
    {
      ok := *;
      if ok {
        if releaseIP {
          reserved := Without(reserved, IpIds(lbs[x].ips));
        }
        lbs := lbs - {x};
        deletes := deletes + 1;
      } else {
        outages := outages + 1;
      }
    }

    /** MigrateLB and UpdateLB, which set the type and the TLS level. */
    method ChangeLB(x: Id, typ: string, ssl: string) returns (ok: bool)
      requires Valid() && x in lbs
      modifies this
      ensures Valid() && annotation == old(annotation) && OutageIff(!ok) && failedPatches == old(failedPatches)
      ensures !ok ==> SameLbs()
      ensures ok ==> lbs == old(lbs)[x := old(lbs)[x].(typ := typ, ssl := ssl)]
      ensures ok ==>
                nextId == old(nextId) && creates == old(creates) && deletes == old(deletes)
                && changes == old(changes) + 1 && reserved == old(reserved)
    {
      ok := *;
      if ok {
        lbs := lbs[x := lbs[x].(typ := typ, ssl := ssl)];
        changes := changes + 1;
      } else {
        outages := outages + 1;
      }
    }

    /** Sends the API server the difference between two copies of the annotation: nothing at all when
        they agree, whatever the server's own copy says. */
    method Patch(origin: IdAnnotation, final: IdAnnotation) returns (ok: bool)
      requires Valid()
      modifies this
      ensures Valid() && SameLbs() && OutageIff(!ok)
      ensures annotation == if ok && origin != final then final else old(annotation)
      ensures origin == final ==> ok
      ensures failedPatches == old(failedPatches) + (if ok then 0 else 1)
    {
      if origin == final {
        return true;
      }
      ok := *;
      if ok {
        annotation := final;
      } else {
        outages, failedPatches := outages + 1, failedPatches + 1;
      }
    }
  }

  /** The reserved addresses that are left when some are given up. */
  function Without(reserved: map<string, string>, ids: seq<string>): map<string, string> {
    map ip | ip in reserved && ip !in ids :: reserved[ip]
  }

  /** No address is given twice. */
  predicate Distinct(ids: seq<string>) {
    forall i, j | 0 <= i < j < |ids| :: ids[i] != ids[j]
  }

  function IpIds(ips: seq<IP>): (ids: seq<string>)
    ensures |ids| == |ips| && forall i | 0 <= i < |ips| :: ids[i] == ips[i].id
  {
    seq(|ips|, i requires 0 <= i < |ips| => ips[i].id)
  }

  // ---- Reading the service ----

  /** getIPIDs */
  function GetIPIDs(svc: Svc): seq<string> {
    if svc.ipIDs == "" then [] else Split(svc.ipIDs, ',')
  }

  /** hasLoadBalancerStaticIPs */
  predicate HasStaticIPs(svc: Svc) {
    GetIPIDs(svc) != [] || svc.loadBalancerIP != ""
  }

  /** hasEqualLoadBalancerStaticIPs */
  predicate HasEqualStaticIPs(svc: Svc, lb: Lb) {
    var ids := GetIPIDs(svc);
    if ids != [] then |ids| == |lb.ips| && Sort(ids) == Sort(IpIds(lb.ips))
    else if svc.loadBalancerIP != "" then |lb.ips| == 1 && svc.loadBalancerIP == lb.ips[0].address
    else true
  }

  /** What the three say: the annotation lists identifiers, a static address comes from it or from the
      service itself. */
  lemma StaticIPsMean(svc: Svc)
    ensures GetIPIDs(svc) == if svc.ipIDs == "" then [] else Split(svc.ipIDs, ',')
    ensures HasStaticIPs(svc) <==> svc.ipIDs != "" || svc.loadBalancerIP != ""
    ensures !HasStaticIPs(svc) ==> forall lb: Lb :: HasEqualStaticIPs(svc, lb)
  {
    assert svc.ipIDs != "" ==> |Split(svc.ipIDs, ',')| >= 1;
  }

  /** The annotated addresses are compared as a multiset. */
  lemma {:induction false} StaticIPsAsMultiset(svc: Svc, lb: Lb)
    requires GetIPIDs(svc) != []
    ensures HasEqualStaticIPs(svc, lb) <==> multiset(GetIPIDs(svc)) == multiset(IpIds(lb.ips))
  {
    var ids := GetIPIDs(svc);
    SortCanonical(ids, IpIds(lb.ips));
    if multiset(ids) == multiset(IpIds(lb.ips)) {
      assert |ids| == |multiset(ids)|;
      assert |lb.ips| == |multiset(IpIds(lb.ips))|;
    }
  }

  function FlexibleType(part: string): string {
    ToLower(TrimSpace(part))
  }

  /** The annotation names IPv6 among its types. */
  ghost predicate AsksIPv6(annotation: string) {
    annotation != "" && exists p :: p in Split(annotation, ',') && FlexibleType(p) == "ipv6"
  }

  /** getFlexibleIPTypes: whether to book an IPv4, whether to book an IPv6.  Whenever it succeeds there
      is an IPv4. */
  method GetFlexibleIPTypes(annotation: string) returns (r: Option<(bool, bool)>)
    ensures r.Some? <==> annotation == "" ||
                         var parts := Split(annotation, ',');
                         (forall p | p in parts :: FlexibleType(p) == "ipv4" || FlexibleType(p) == "ipv6")
                         && exists p :: p in parts && FlexibleType(p) == "ipv4"
    ensures r.Some? ==> r.value.0
    ensures r.Some? ==> (r.value.1 <==> AsksIPv6(annotation))
  {
    if annotation == "" {
      return Some((true, false));
    }
    var v4, v6 := false, false;
    var parts := Split(annotation, ',');
    for i := 0 to |parts|
      invariant forall j | 0 <= j < i :: FlexibleType(parts[j]) == "ipv4" || FlexibleType(parts[j]) == "ipv6"
      invariant v4 <==> exists j :: 0 <= j < i && FlexibleType(parts[j]) == "ipv4"
      invariant v6 <==> exists j :: 0 <= j < i && FlexibleType(parts[j]) == "ipv6"
    {
      var t := FlexibleType(parts[i]);
      if t == "ipv4" {
        v4 := true;
      } else if t == "ipv6" {
        v6 := true;
      } else {
        assert parts[i] in parts;
        return None;
      }
    }
    if !v4 {
      return None;
    }
    return Some((v4, v6));
  }

  // ---- The operations ----

  datatype Error =
    | NotFound | Duplicated | NotReady | BadService | NotAccepted | NoSuchIP | IPInUse | NotReconciled | Unavailable

  predicate IsExternal(svc: Svc) {
    svc.external == Some(true)
  }

  /** The load balancer fits the service: public or private as wanted, with the wanted addresses. */
  predicate Fits(svc: Svc, lb: Lb) {
    svc.private.Some? && svc.private.value == (lb.ips == []) && (HasStaticIPs(svc) ==> HasEqualStaticIPs(svc, lb))
  }

  /** The load balancer is as the service asks: without any address if it is to be private, with one if it
      is not; with the annotated addresses, each as often as annotated; without any annotated, with exactly the one
      of the service itself. */
  ghost predicate AsAsked(svc: Svc, lb: Lb) {
    && (svc.private == Some(true) ==> lb.ips == [])
    && (svc.private == Some(false) ==> lb.ips != [])
    && (svc.ipIDs != "" ==> multiset(IpIds(lb.ips)) == multiset(Split(svc.ipIDs, ',')))
    && (svc.ipIDs == "" && svc.loadBalancerIP != "" ==> |lb.ips| == 1 && lb.ips[0].address == svc.loadBalancerIP)
  }

  lemma FitsMeans(svc: Svc, lb: Lb)
    ensures Fits(svc, lb) <==> svc.private.Some? && AsAsked(svc, lb)
  {
    hide HasEqualStaticIPs, HasStaticIPs, GetIPIDs;
    StaticIPsMean(svc);
    if svc.ipIDs != "" {
      StaticIPsAsMultiset(svc, lb);
    } else if svc.loadBalancerIP != "" {
      NoIdentifiers(svc, lb);
    }
  }

  lemma NoIdentifiers(svc: Svc, lb: Lb)
    requires svc.ipIDs == "" && svc.loadBalancerIP != ""
    ensures HasEqualStaticIPs(svc, lb) <==> |lb.ips| == 1 && lb.ips[0].address == svc.loadBalancerIP
  {
  }

  /** Ensure's guards. */
  predicate Acceptable(w: World, svc: Svc) {
    && !svc.hasClass && svc.external.Some? && svc.private.Some?
    && (svc.private.value ==> w.pnID != "" && !HasStaticIPs(svc))
  }

  /** annotateAndPatch */
  method Annotate(w: World, svc: Svc, x: Id) returns (ok: bool)
    requires w.Valid()
    modifies w
    ensures w.Valid() && w.SameLbs() && w.OutageIff(!ok)
            && w.failedPatches == old(w.failedPatches) + (if ok then 0 else 1)
    ensures w.annotation == if ok && svc.id != Ref(x) then Ref(x) else old(w.annotation)
    ensures svc.id == Ref(x) ==> ok
  {
    ok := w.Patch(svc.id, Ref(x));
  }

  /** unannotateAndPatch */
  method Unannotate(w: World, svc: Svc) returns (ok: bool)
    requires w.Valid()
    modifies w
    ensures w.Valid() && w.SameLbs() && w.OutageIff(!ok)
    ensures w.annotation == if ok && svc.id != Absent then Absent else old(w.annotation)
  {
    ok := w.Patch(svc.id, Absent);
  }

  /** getLoadbalancerByName */
  method GetByName(w: World, svc: Svc) returns (r: Result<Id, Error>)
    requires w.Valid()
    modifies w
    ensures w.Valid() && w.SameLbs() && w.OutageIff(r == Err(Unavailable))
    ensures r.Ok? ==> Bears(w.LbName(), w.lbs, r.value) && OnlyBears(w.LbName(), w.lbs, r.value)
    ensures r.Ok? ==> w.annotation == if svc.id != Ref(r.value) then Ref(r.value) else old(w.annotation)
    ensures r.Err? ==> w.annotation == old(w.annotation) && r.error in {NotFound, Duplicated, Unavailable}
    ensures r == Err(NotFound) ==> NoneBears(w.LbName(), w.lbs)
    ensures r == Err(Duplicated) ==> !AtMostOneBears(w.LbName(), w.lbs)
  {
    var listed := w.ListLBs();
    if listed.Failed? {
      return Err(Unavailable);
    }
    var name := w.LbName();
    var found: Option<Id> := None;
    for i := 0 to |listed.value|
      invariant found.None? ==> forall j | 0 <= j < i :: !Bears(name, w.lbs, listed.value[j])
      invariant found.Some? ==> Bears(name, w.lbs, found.value) && found.value in listed.value[..i]
      invariant found.Some? ==>
                  forall j | 0 <= j < i && Bears(name, w.lbs, listed.value[j]) :: listed.value[j] == found.value
    {
      var x := listed.value[i];
      if w.lbs[x].name == name {
        if found.Some? {
          assert Bears(name, w.lbs, x) && x != found.value;
          return Err(Duplicated);
        }
        found := Some(x);
      }
    }
    if found.None? {
      return Err(NotFound);
    }
    var ok := Annotate(w, svc, found.value);
    if !ok {
      return Err(Unavailable);
    }
    return Ok(found.value);
  }

  /** fetchLoadBalancer: by the annotation if it holds an identifier, by name otherwise.  A load
      balancer managed elsewhere is accepted exactly if its name lacks the cluster prefix. */
  method FetchLoadBalancer(w: World, svc: Svc) returns (r: Result<Id, Error>)
    requires w.Valid()
    modifies w
    ensures w.Valid() && w.SameLbs() && w.OutageIff(r == Err(Unavailable))
    ensures r.Ok? ==> r.value in w.lbs && (svc.id.Ref? ==> r.value == svc.id.id) && svc.external.Some?
    ensures svc.external.Some? && svc.id.Ref? && r != Err(Unavailable) ==>
              (r.Ok? <==> svc.id.id in w.lbs && (IsExternal(svc) ==> !HasPrefix(w.lbs[svc.id.id].name, w.prefix)))
    ensures IsExternal(svc) && !svc.id.Ref? ==> r == Err(BadService)
    ensures r.Ok? && !svc.id.Ref? ==>
              w.annotation == Ref(r.value) && Bears(w.LbName(), w.lbs, r.value) && OnlyBears(w.LbName(), w.lbs, r.value)
    ensures svc.id.Ref? || IsExternal(svc) || r.Err? ==> w.annotation == old(w.annotation)
    ensures r == Err(NotFound) ==> if svc.id.Ref? then svc.id.id !in w.lbs else NoneBears(w.LbName(), w.lbs)
    ensures r == Err(Duplicated) ==> !AtMostOneBears(w.LbName(), w.lbs)
    ensures r.Err? ==> r.error in {NotFound, Duplicated, Unavailable, NotAccepted, BadService}
    ensures svc.id.Ref? ==> r != Err(Duplicated)
    ensures svc.external == Some(false) && !svc.id.Malformed? ==>
              r.Ok? || r.error in {NotFound, Duplicated, Unavailable}
  {
    if svc.external.None? || svc.id.Malformed? {
      return Err(BadService);
    }
    if svc.external.value && !svc.id.Ref? {
      return Err(BadService);
    }
    if svc.id.Ref? {
      var got := w.GetLB(svc.id.id);
      if got.Failed? {
        return Err(Unavailable);
      }
      if got.value.None? {
        return Err(NotFound);
      }
      if svc.external.value && HasPrefix(got.value.value.name, w.prefix) {
        return Err(NotAccepted);
      }
      return Ok(svc.id.id);
    }
    r := GetByName(w, svc);
  }

  /** getLoadBalancerStaticIPIDs */
  method GetStaticIPIDs(w: World, svc: Svc) returns (r: Result<seq<string>, Error>)
    requires w.Valid()
    modifies w
    ensures w.Valid() && w.SameLbs() && w.annotation == old(w.annotation) && w.OutageIff(r == Err(Unavailable))
            && w.failedPatches == old(w.failedPatches)
    ensures r.Ok? && GetIPIDs(svc) != [] ==> r.value == GetIPIDs(svc)
    ensures r.Ok? && GetIPIDs(svc) == [] && svc.loadBalancerIP != "" ==>
              |r.value| == 1 && r.value[0] in w.reserved && w.reserved[r.value[0]] == svc.loadBalancerIP
    ensures r.Ok? && GetIPIDs(svc) == [] && svc.loadBalancerIP != "" ==>
              forall x, ip | x in w.lbs && ip in w.lbs[x].ips :: ip.id != r.value[0]
    ensures r.Ok? && !HasStaticIPs(svc) ==> r.value == []
    ensures r.Err? ==> r.error in {Unavailable, NoSuchIP, IPInUse} && HasStaticIPs(svc)
    ensures r == Err(NoSuchIP) ==> forall ip | ip in w.reserved :: w.reserved[ip] != svc.loadBalancerIP
    ensures r == Err(IPInUse) ==>
              exists x, ip :: x in w.lbs && ip in w.lbs[x].ips && ip.id in w.reserved
                              && w.reserved[ip.id] == svc.loadBalancerIP
  {
    if GetIPIDs(svc) != [] {
      return Ok(GetIPIDs(svc));
    }
    if svc.loadBalancerIP != "" {
      var listed := w.ListIPs(svc.loadBalancerIP);
      if listed.Failed? {
        return Err(Unavailable);
      }
      if listed.value == [] {
        return Err(NoSuchIP);
      }
      assert listed.value[0] in listed.value;
      if w.Held(listed.value[0]) {
        return Err(IPInUse);
      }
      return Ok([listed.value[0]]);
    }
    return Ok([]);
  }

  /** A load balancer was added, and nothing else about the load balancers changed. */
  twostate predicate Added(w: World, x: Id)
    reads w
  {
    && old(w.nextId) <= x < w.nextId && x in w.lbs && w.lbs == old(w.lbs)[x := w.lbs[x]] && w.lbs[x].name == w.LbName()
    && w.creates == old(w.creates) + 1 && w.deletes == old(w.deletes) && w.changes == old(w.changes)
    && w.reserved == old(w.reserved)
  }

  /** The addresses to create a load balancer with are those the service asks for. */
  ghost predicate Addressed(w: World, svc: Svc, ipIDs: seq<string>, v4: bool, v6: bool)
    requires svc.private.Some?
    reads w
  {
    && (svc.private.value ==> ipIDs == [] && !v4 && !v6)
    && (!svc.private.value && ipIDs == [] ==> v4 && !HasStaticIPs(svc) && (v6 <==> AsksIPv6(svc.flexible)))
    && (ipIDs != [] && GetIPIDs(svc) != [] ==> ipIDs == GetIPIDs(svc))
    && (ipIDs != [] && GetIPIDs(svc) == [] ==>
          |ipIDs| == 1 && ipIDs[0] in w.reserved && w.reserved[ipIDs[0]] == svc.loadBalancerIP)
    && (ipIDs != [] ==> HasStaticIPs(svc) && !v4 && !v6)
  }

  /** The part of createLoadBalancer that picks the addresses: none for a private load balancer, the
      reserved ones if there are any, flexible ones otherwise. */
  method ChooseAddresses(w: World, svc: Svc) returns (r: Result<(seq<string>, bool, bool), Error>)
    requires w.Valid() && svc.private.Some?
    modifies w
    ensures w.Valid() && w.SameLbs() && w.annotation == old(w.annotation) && w.OutageIff(r == Err(Unavailable))
            && w.failedPatches == old(w.failedPatches)
    ensures r.Ok? ==> Addressed(w, svc, r.value.0, r.value.1, r.value.2)
    ensures r.Err? ==> r.error in {BadService, NoSuchIP, IPInUse, Unavailable}
    ensures Plain(svc) ==> r.Ok?
  {
    if svc.private.value {
      return Ok(([], false, false));
    }
    var reserved := GetStaticIPIDs(w, svc);
    if reserved.Err? {
      return Err(reserved.error);
    }
    if reserved.value != [] {
      return Ok((reserved.value, false, false));
    }
    var flexible := GetFlexibleIPTypes(svc.flexible);
    if flexible.None? {
      return Err(BadService);
    }
    return Ok(([], flexible.value.0, flexible.value.1));
  }

  lemma AddressesOf(w: World, svc: Svc, ipIDs: seq<string>, v4: bool, v6: bool)
    requires svc.private.Some? && Addressed(w, svc, ipIDs, v4, v6)
    ensures svc.private == Some(false) && ipIDs == [] ==> v4 && (v6 <==> AsksIPv6(svc.flexible))
    ensures ipIDs != [] ==> svc.ipIDs != "" || svc.loadBalancerIP != ""
  {
    hide AsksIPv6;
    StaticIPsMean(svc);
  }

  lemma CreatedFits(w: World, svc: Svc, lb: Lb, ipIDs: seq<string>, v4: bool, v6: bool)
    requires Acceptable(w, svc) && Addressed(w, svc, ipIDs, v4, v6)
    requires ipIDs != [] ==> multiset(IpIds(lb.ips)) == multiset(ipIDs)
    requires ipIDs != [] ==> forall ip | ip in lb.ips :: ip.id in w.reserved && ip.address == w.reserved[ip.id]
    requires ipIDs == [] ==> |lb.ips| == (if v4 then 1 else 0) + (if v6 then 1 else 0)
    ensures Fits(svc, lb)
  {
    if ipIDs != [] {
      assert |lb.ips| == |multiset(IpIds(lb.ips))| == |multiset(ipIDs)| == |ipIDs|;
      if GetIPIDs(svc) != [] {
        StaticIPsAsMultiset(svc, lb);
      } else {
        assert IpIds(lb.ips)[0] in multiset(IpIds(lb.ips));
        assert lb.ips[0] in lb.ips && lb.ips[0].id == ipIDs[0];
      }
    }
  }

  /** What a load balancer is created with: the cluster's prefix and the service's identity for a name; the
      type asked for, or the default one; flexible addresses, where no static one is asked for. */
  ghost predicate MadeFor(w: World, svc: Svc, lb: Lb) {
    && lb.name == w.prefix + w.uid
    && lb.typ == (if svc.typ == "" then w.defaultType else ToLower(svc.typ))
    && svc.ssl == Some(lb.ssl)
    && (svc.private == Some(false) && svc.ipIDs == "" && svc.loadBalancerIP == "" ==>
          |lb.ips| == if AsksIPv6(svc.flexible) then 2 else 1)
  }

  lemma MadeAsAsked(w: World, svc: Svc, lb: Lb, ipIDs: seq<string>, v4: bool, v6: bool)
    requires lb.name == w.LbName() && svc.ssl == Some(lb.ssl)
    requires lb.typ == if ToLower(svc.typ) == "" then w.defaultType else ToLower(svc.typ)
    requires svc.private == Some(false) && ipIDs == [] ==> v4 && (v6 <==> AsksIPv6(svc.flexible))
    requires ipIDs != [] ==> svc.ipIDs != "" || svc.loadBalancerIP != ""
    requires ipIDs == [] ==> |lb.ips| == (if v4 then 1 else 0) + (if v6 then 1 else 0)
    ensures MadeFor(w, svc, lb) && Offness(svc, lb) == 0
  {
    hide AsksIPv6, ToLower;
    ToLowerTwice(svc.typ);
    assert |ToLower(svc.typ)| == |svc.typ|;
  }

  /** createLoadBalancer.  `made` is the load balancer that was created, also when writing its
      identifier to the service failed afterwards. */
  method CreateLoadBalancer(w: World, svc: Svc) returns (r: Result<Id, Error>, ghost made: Option<Id>)
    requires w.Valid()
    modifies w
    ensures w.Valid() && w.LossesExplained() && (r == Err(Unavailable) <==> w.outages != old(w.outages))
    ensures IsExternal(svc) ==> r == Err(BadService)
    ensures r.Err? ==> r.error in {BadService, NoSuchIP, IPInUse, Unavailable}
    ensures made.None? ==> r.Err? && w.SameLbs() && w.annotation == old(w.annotation) && w.lost == old(w.lost)
    ensures made.Some? ==> Added(w, made.value) && (Acceptable(w, svc) ==> Fits(svc, w.lbs[made.value]))
    ensures made.Some? ==> MadeFor(w, svc, w.lbs[made.value]) && Offness(svc, w.lbs[made.value]) == 0
    ensures r.Ok? ==> made == Some(r.value) && w.lost == old(w.lost)
                      && w.annotation == if svc.id != Ref(r.value) then Ref(r.value) else old(w.annotation)
    ensures r.Err? && made.Some? ==>
              r == Err(Unavailable) && svc.id != Ref(made.value) && w.annotation == old(w.annotation)
                                     && w.lost == old(w.lost) + (if w.annotation.Ref?
                                         && w.annotation != Ref(made.value) then 1 else 0)
    ensures w.failedPatches == old(w.failedPatches) + (if r.Err? && made.Some? then 1 else 0)
    ensures Plain(svc) ==> r.Ok? || r == Err(Unavailable)
  {
    hide GetIPIDs, Fits, ToLower, World.LbName, Addressed, HasStaticIPs, AsksIPv6, MadeFor, Offness,
         Acceptable, IpIds, Distinct;
    made := None;
    if svc.external != Some(false) || svc.private.None? || svc.ssl.None? {
      return Err(BadService), made;
    }
    var addresses := ChooseAddresses(w, svc);
    if addresses.Err? {
      return Err(addresses.error), made;
    }
    var (ipIDs, v4, v6) := addresses.value;
    AddressesOf(w, svc, ipIDs, v4, v6);
    var typ := ToLower(svc.typ);
    if typ == "" {
      typ := w.defaultType;
    }
    var created := w.CreateLB(w.LbName(), ipIDs, v4, v6, typ, svc.ssl.value);
    if created.Failed? {
      return Err(Unavailable), made;
    }
    made := Some(created.value);
    MadeAsAsked(w, svc, w.lbs[created.value], ipIDs, v4, v6);
    if Acceptable(w, svc) {
      CreatedFits(w, svc, w.lbs[created.value], ipIDs, v4, v6);
    }
    var ok := Annotate(w, svc, created.value);
    if !ok {
      if w.annotation.Ref? && w.annotation != Ref(created.value) {
        w.lost := w.lost + 1;
      }
      return Err(Unavailable), made;
    }
    return Ok(created.value), made;
  }

  /** A service whose annotations leave nothing to refuse. */
  predicate Plain(svc: Svc) {
    !svc.hasClass && svc.external == Some(false) && svc.private == Some(false) && svc.ssl.Some? && !HasStaticIPs(svc)
    && svc.flexible == ""
  }

  /** deleteLoadBalancer: forget the identifier, then delete the load balancer unless it was renamed. */
  method DeleteLoadBalancer(w: World, svc: Svc, x: Id) returns (r: Result<(), Error>)
    requires w.Valid() && x in w.lbs
    modifies w
    ensures w.Valid() && w.OutageIff(r.Err?) && (r.Err? ==> r.error == Unavailable)
    ensures r.Err? ==> w.SameLbs() && (w.annotation == old(w.annotation) || w.annotation == Absent)
    ensures r.Ok? ==> w.annotation == if svc.id != Absent then Absent else old(w.annotation)
    ensures r.Ok? && old(w.lbs)[x].name != w.LbName() ==> w.SameLbs()
    ensures r.Ok? && old(w.lbs)[x].name == w.LbName() ==>
              w.nextId == old(w.nextId) && w.lbs == old(w.lbs) - {x} && w.creates == old(w.creates)
              && w.deletes == old(w.deletes) + 1 && w.changes == old(w.changes)
              && w.reserved == if svc.ipIDs != "" || svc.loadBalancerIP != "" then old(w.reserved)
                  else Without(old(w.reserved), IpIds(old(w.lbs)[x].ips))
  {
    StaticIPsMean(svc);
    var ok := Unannotate(w, svc);
    if !ok {
      return Err(Unavailable);
    }
    if w.lbs[x].name != w.LbName() {
      return Ok(());
    }
    ok := w.DeleteLB(x, !HasStaticIPs(svc));
    if !ok {
      return Err(Unavailable);
    }
    return Ok(());
  }

  /** Only the type and the TLS level of one load balancer may have changed. */
  ghost predicate Retuned(before: map<Id, Lb>, after: map<Id, Lb>, x: Id) {
    && after.Keys == before.Keys
    && (forall y | y in before && y != x :: after[y] == before[y])
    && (x in before ==> after[x].name == before[x].name && after[x].ips == before[x].ips)
  }

  /** The load balancer has the type and the TLS level the service asks for. */
  predicate Tuned(svc: Svc, lb: Lb) {
    svc.ssl.Some? && lb.ssl == svc.ssl.value && (svc.typ != "" ==> ToLower(lb.typ) == ToLower(svc.typ))
  }

  /** How many of type and TLS level are not as the service asks for. */
  function Offness(svc: Svc, lb: Lb): nat {
    (if svc.typ != "" && ToLower(lb.typ) != ToLower(svc.typ) then 1 else 0)
    + (if svc.ssl.Some? && lb.ssl != svc.ssl.value then 1 else 0)
  }

  /** updateLoadBalancer as far as the load balancer itself goes: its frontends, backends and networks
      may fail to come about, then its type and TLS level are set unless it is managed elsewhere. */
  method Tune(w: World, svc: Svc, x: Id) returns (r: Result<(), Error>)
    requires w.Valid() && x in w.lbs
    modifies w
    ensures w.Valid() && w.annotation == old(w.annotation) && w.lost == old(w.lost) && w.LossesExplained()
            && w.failedPatches == old(w.failedPatches)
    ensures Retuned(old(w.lbs), w.lbs, x) && w.reserved == old(w.reserved) && w.creates == old(w.creates)
            && w.deletes == old(w.deletes)
    ensures IsExternal(svc) || svc.deleting ==> w.SameLbs()
    ensures r.Ok? && !IsExternal(svc) && !svc.deleting ==> Tuned(svc, w.lbs[x])
    ensures w.changes + Offness(svc, w.lbs[x]) == old(w.changes + Offness(svc, w.lbs[x])) && w.Counted()
    ensures w.lbs[x].typ == old(w.lbs)[x].typ || (svc.typ != "" && w.lbs[x].typ == ToLower(svc.typ))
    ensures w.lbs[x].ssl == old(w.lbs)[x].ssl || svc.ssl == Some(w.lbs[x].ssl)
    ensures r.Ok? && !IsExternal(svc) && !svc.deleting ==>
              svc.ssl == Some(w.lbs[x].ssl) && (svc.typ != "" ==> ToLower(w.lbs[x].typ) == ToLower(svc.typ))
    ensures Tuned(svc, old(w.lbs)[x]) || w.changes == old(w.changes) ==> w.SameLbs()
    ensures r.Err? ==> r.error in {Unavailable, BadService, NotReconciled}
    ensures r == Err(BadService) ==> svc.external.None? || svc.ssl.None?
    ensures r == Err(Unavailable) <==> w.outages != old(w.outages)
  {
    if svc.deleting {
      return Ok(());
    }
    if svc.external.None? {
      return Err(BadService);
    }
    var contents: bool := *;
    if !contents {
      return Err(NotReconciled);
    }
    if svc.external.value {
      return Ok(());
    }
    var lb := w.lbs[x];
    var typ := ToLower(svc.typ);
    ToLowerTwice(svc.typ);
    if typ != "" && ToLower(lb.typ) != typ {
      var ok := w.ChangeLB(x, typ, lb.ssl);
      if !ok {
        return Err(Unavailable);
      }
    }
    if svc.ssl.None? {
      return Err(BadService);
    }
    if lb.ssl != svc.ssl.value {
      var ok := w.ChangeLB(x, w.lbs[x].typ, svc.ssl.value);
      if !ok {
        return Err(Unavailable);
      }
    }
    return Ok(());
  }

  lemma ToLowerTwice(s: string)
    ensures ToLower(ToLower(s)) == ToLower(s)
  {
  }

  // ---- Progress towards a fitting load balancer ----

  /** The load balancer that the next fetch would find. */
  ghost predicate Finds(name: string, lbs: map<Id, Lb>, annotation: IdAnnotation, x: Id) {
    x in lbs && if annotation.Ref? then x == annotation.id else Bears(name, lbs, x)
  }

  /** The fetch finds a load balancer that is tuned as well. */
  ghost predicate FindsTuned(name: string, lbs: map<Id, Lb>, annotation: IdAnnotation, svc: Svc) {
    exists x :: Finds(name, lbs, annotation, x) && Tuned(svc, lbs[x])
  }

  ghost predicate FindsAny(name: string, lbs: map<Id, Lb>, annotation: IdAnnotation) {
    exists x :: Finds(name, lbs, annotation, x)
  }

  ghost predicate FindsFitting(name: string, lbs: map<Id, Lb>, annotation: IdAnnotation, svc: Svc) {
    exists x :: Finds(name, lbs, annotation, x) && Fits(svc, lbs[x])
  }

  ghost predicate FindsMisfit(name: string, lbs: map<Id, Lb>, annotation: IdAnnotation, svc: Svc) {
    exists x :: Finds(name, lbs, annotation, x) && !Fits(svc, lbs[x])
  }

  /** How many load balancers may still have to be created, or deleted, for a service. */
  ghost function ToCreate(w: World, svc: Svc): nat
    reads w
  {
    if FindsFitting(w.LbName(), w.lbs, w.annotation, svc) then 0 else 1
  }

  ghost function ToDelete(w: World, svc: Svc): nat
    reads w
  {
    if FindsMisfit(w.LbName(), w.lbs, w.annotation, svc) then 1 else 0
  }

  /** How many changes the load balancer found may still need. */
  ghost function LeftToTune(name: string, lbs: map<Id, Lb>, annotation: IdAnnotation, svc: Svc): nat {
    if FindsAny(name, lbs, annotation) then var x :| Finds(name, lbs, annotation, x); Offness(svc, lbs[x]) else 0
  }

  ghost function ToChange(w: World, svc: Svc): nat
    reads w
  {
    LeftToTune(w.LbName(), w.lbs, w.annotation, svc)
  }

  lemma LeftOfFound(name: string, lbs: map<Id, Lb>, annotation: IdAnnotation, x: Id, svc: Svc)
    requires Single(name, lbs, annotation) && Finds(name, lbs, annotation, x)
    ensures LeftToTune(name, lbs, annotation, svc) == Offness(svc, lbs[x])
    ensures FindsTuned(name, lbs, annotation, svc) <==> Tuned(svc, lbs[x])
  {
    hide Offness, Tuned;
    forall y | Finds(name, lbs, annotation, y) ensures y == x {
      assert !annotation.Ref? ==> Bears(name, lbs, x) && Bears(name, lbs, y);
    }
  }

  lemma LeftOfNothing(name: string, lbs: map<Id, Lb>, annotation: IdAnnotation, svc: Svc)
    requires NoneBears(name, lbs) && (annotation.Ref? ==> annotation.id !in lbs)
    ensures LeftToTune(name, lbs, annotation, svc) == 0
  {
  }

  /** Forgetting the identifier leaves no more to change. */
  lemma LeftWhenForgotten(name: string, lbs: map<Id, Lb>, x: Id, svc: Svc)
    requires Single(name, lbs, Ref(x)) && x in lbs
    ensures LeftToTune(name, lbs, Absent, svc) <= LeftToTune(name, lbs, Ref(x), svc)
  {
    hide Offness;
    LeftOfFound(name, lbs, Ref(x), x, svc);
    forall y | Finds(name, lbs, Absent, y) ensures y == x {
    }
  }

  /** A load balancer of another name keeps its name and addresses. */
  ghost predicate OthersKept(name: string, before: map<Id, Lb>, after: map<Id, Lb>) {
    forall x | x in before && before[x].name != name ::
          x in after && after[x].name == before[x].name && after[x].ips == before[x].ips
  }

  twostate predicate Untouched(w: World)
    reads w
  {
    w.SameLbs() && w.annotation == old(w.annotation)
  }

  /** Nothing bears the name once a fetch found nothing. */
  lemma FoundNothing(name: string, lbs: map<Id, Lb>, annotation: IdAnnotation)
    requires Single(name, lbs, annotation)
    requires if annotation.Ref? then annotation.id !in lbs else NoneBears(name, lbs)
    ensures NoneBears(name, lbs)
  {
  }

  /** A load balancer created where none bears the name, and what became of its identifier. */
  lemma CreatedOnly(name: string, before: map<Id, Lb>, x: Id, lb: Lb, annotation: IdAnnotation)
    requires NoneBears(name, before) && x !in before && lb.name == name
    ensures Single(name, before[x := lb], Ref(x)) && Finds(name, before[x := lb], Ref(x), x)
    ensures !annotation.Ref? ==>
              Single(name, before[x := lb], annotation) && Finds(name, before[x := lb], annotation, x)
    ensures annotation.Ref? && annotation != Ref(x) && annotation.id !in before ==>
              Orphan(name, before[x := lb], annotation)
  {
    var after := before[x := lb];
    assert Bears(name, after, x);
    forall y | Bears(name, after, y) ensures y == x {
      assert Bears(name, before, y) || y == x;
    }
  }

  lemma NoneIsSingle(name: string, lbs: map<Id, Lb>, annotation: IdAnnotation)
    requires NoneBears(name, lbs)
    ensures Single(name, lbs, annotation)
  {
  }

  /** Forgetting the identifier keeps the invariant, and if it named a load balancer of another name,
      then none bears the name. */
  lemma Forgotten(name: string, lbs: map<Id, Lb>, x: Id)
    requires Single(name, lbs, Ref(x)) && x in lbs
    ensures Single(name, lbs, Absent) && (lbs[x].name != name ==> NoneBears(name, lbs))
    ensures NoneBears(name, lbs - {x})
  {
    forall y ensures !Bears(name, lbs - {x}, y) {
      assert Bears(name, lbs - {x}, y) ==> Bears(name, lbs, y);
    }
  }

  /** Nothing bears the service's name, the annotation is empty or dangles, and no identifier the copy
      in hand may hold will be given out next, unless it is the server's own. */
  ghost predicate Vacant(w: World, svc: Svc)
    reads w
  {
    && w.Valid() && NoneBears(w.LbName(), w.lbs)
    && (w.annotation.Ref? ==> w.annotation.id !in w.lbs && (svc.id == w.annotation || w.annotation.id < w.nextId))
    && (svc.id.Ref? ==> svc.id == w.annotation || svc.id.id < w.nextId)
  }

  lemma VacantFindsNothing(name: string, lbs: map<Id, Lb>, annotation: IdAnnotation, svc: Svc)
    requires NoneBears(name, lbs) && (annotation.Ref? ==> annotation.id !in lbs)
    ensures Single(name, lbs, annotation) && !FindsMisfit(name, lbs, annotation, svc)
            && !FindsFitting(name, lbs, annotation, svc)
  {
    NoneIsSingle(name, lbs, annotation);
  }

  lemma FindsOnly(name: string, lbs: map<Id, Lb>, annotation: IdAnnotation, x: Id, svc: Svc)
    requires Single(name, lbs, annotation) && Finds(name, lbs, annotation, x)
    ensures FindsFitting(name, lbs, annotation, svc) <==> Fits(svc, lbs[x])
    ensures FindsMisfit(name, lbs, annotation, svc) <==> !Fits(svc, lbs[x])
  {
    forall y | Finds(name, lbs, annotation, y) ensures y == x {
      assert !annotation.Ref? ==> Bears(name, lbs, x) && Bears(name, lbs, y);
    }
  }

  /** The invariant holds, unless an identifier was lost, in which case it certainly does not; and what
      was created and deleted is made up for by what need not be any more. */
  twostate predicate Progressed(w: World, svc: Svc)
    reads w
  {
    && (w.lost == old(w.lost) ==> w.Invariant())
    && (w.lost != old(w.lost) ==> w.Orphaned())
    && (w.lost == old(w.lost) ==> w.creates + ToCreate(w, svc) <= old(w.creates + ToCreate(w, svc)))
    && (w.lost == old(w.lost) ==> w.deletes + ToDelete(w, svc) <= old(w.deletes + ToDelete(w, svc)))
  }

  /** And every change is made up for by one that need not be any more. */
  twostate predicate Calmed(w: World, svc: Svc)
    reads w
  {
    w.lost == old(w.lost) ==> w.changes + ToChange(w, svc) <= old(w.changes + ToChange(w, svc))
  }

  /** And the result is the load balancer in hand. */
  twostate predicate Advanced(w: World, svc: Svc, new r: Result<Id, Error>)
    reads w
  {
    && Progressed(w, svc)
    && (r.Ok? ==> w.lost == old(w.lost) && Finds(w.LbName(), w.lbs, w.annotation, r.value))
    && (r.Ok? && !IsExternal(svc) ==> r.value in w.lbs && Fits(svc, w.lbs[r.value]))
    && r != Err(Duplicated)
  }

  method CreateFirst(w: World, svc: Svc) returns (r: Result<Id, Error>)
    requires w.Valid() && Acceptable(w, svc)
    modifies w
    ensures w.reserved == old(w.reserved)
    ensures w.Valid() && (old(Vacant(w, svc)) ==> Advanced(w, svc, r) && Calmed(w, svc)) && w.LossesExplained()
            && w.Counted()
    ensures OthersKept(w.LbName(), old(w.lbs), w.lbs) && w.changes == old(w.changes)
    ensures w.failedPatches != old(w.failedPatches) ==> w.creates != old(w.creates)
    ensures old(Vacant(w, svc)) ==>
              (w.lost != old(w.lost) <==> w.failedPatches != old(w.failedPatches) && old(w.annotation).Ref?)
    ensures IsExternal(svc) ==> Untouched(w) && w.lost == old(w.lost)
    ensures Plain(svc) ==> r.Ok? || r == Err(Unavailable)
    ensures old(w.outages) <= w.outages && (r == Err(Unavailable) <==> w.outages != old(w.outages))
    ensures r.Ok? ==>
              r.value !in old(w.lbs) && Bears(w.LbName(), w.lbs, r.value)
              && w.lbs == old(w.lbs)[r.value := w.lbs[r.value]] && !IsExternal(svc)
    ensures r.Ok? ==> Fits(svc, w.lbs[r.value]) && MadeFor(w, svc, w.lbs[r.value])
  {
    hide MadeFor;
    hide Single, Orphan, Fits, Acceptable, NoneBears, Finds, FindsMisfit, FindsFitting, IsExternal, Plain, World.LbName,
         LeftToTune, Offness;
    ghost var name, before, annotation := w.LbName(), w.lbs, w.annotation;
    if Vacant(w, svc) {
      VacantFindsNothing(name, before, annotation, svc);
      LeftOfNothing(name, before, annotation, svc);
    }
    ghost var made;
    r, made := CreateLoadBalancer(w, svc);
    if made.Some? && old(Vacant(w, svc)) {
      CreatedOnly(name, before, made.value, w.lbs[made.value], annotation);
      if w.lost == old(w.lost) {
        FindsOnly(name, w.lbs, w.annotation, made.value, svc);
        LeftOfFound(name, w.lbs, w.annotation, made.value, svc);
      }
    }
  }

  lemma GoneIsVacant(name: string, lbs: map<Id, Lb>, x: Id)
    requires Single(name, lbs, Ref(x)) && x in lbs
    ensures NoneBears(name, if lbs[x].name == name then lbs - {x} else lbs)
  {
    Forgotten(name, lbs, x);
  }

  lemma FindsHeld(name: string, lbs: map<Id, Lb>, x: Id)
    requires x in lbs
    ensures Finds(name, lbs, Ref(x), x)
  {
  }

  lemma StillMisfit(name: string, lbs: map<Id, Lb>, x: Id, svc: Svc)
    requires Single(name, lbs, Ref(x)) && x in lbs && !Fits(svc, lbs[x])
    ensures !FindsFitting(name, lbs, Absent, svc)
  {
  }

  /** deleteLoadBalancer followed by createLoadBalancer. */
  method Recreate(w: World, svc: Svc, x: Id) returns (r: Result<Id, Error>)
    requires w.Valid() && x in w.lbs && Acceptable(w, svc) && !IsExternal(svc) && !Fits(svc, w.lbs[x])
    modifies w
    ensures svc.ipIDs != "" || svc.loadBalancerIP != "" ==> w.reserved == old(w.reserved)
    ensures w.Valid() && w.LossesExplained() && w.Counted()
    ensures r.Ok? ==> r.value in w.lbs && Fits(svc, w.lbs[r.value]) && MadeFor(w, svc, w.lbs[r.value])
    ensures OthersKept(w.LbName(), old(w.lbs), w.lbs) && w.changes == old(w.changes)
    ensures old(w.outages) <= w.outages && (r == Err(Unavailable) <==> w.outages != old(w.outages))
    ensures old(Single(w.LbName(), w.lbs, w.annotation)) && old(w.annotation) == Ref(x)
            && (svc.id.Ref? ==> svc.id == Ref(x))
            && (!svc.id.Ref? ==> old(w.lbs)[x].name == w.LbName())
            ==> Advanced(w, svc, r) && Calmed(w, svc)
                && (w.lost != old(w.lost)
                    <==> w.failedPatches != old(w.failedPatches) && w.creates != old(w.creates) && svc.id == Absent)
  {
    hide Single, Orphan, Fits, Acceptable, NoneBears, Finds, FindsMisfit, FindsFitting, IsExternal, Plain, World.LbName,
         LeftToTune, MadeFor;
    ghost var name, before, annotation := w.LbName(), w.lbs, w.annotation;
    var deleted := DeleteLoadBalancer(w, svc, x);
    ghost var tracked := Single(name, before, annotation) && annotation == Ref(x) && (svc.id.Ref? ==> svc.id == Ref(x))
        && (!svc.id.Ref? ==> before[x].name == name);
    if tracked {
      Forgotten(name, before, x);
      GoneIsVacant(name, before, x);
      FindsHeld(name, before, x);
      FindsOnly(name, before, annotation, x, svc);
    }
    if deleted.Err? {
      if tracked && w.annotation == Absent {
        StillMisfit(name, before, x, svc);
        LeftWhenForgotten(name, before, x, svc);
      }
      return Err(deleted.error);
    }
    if tracked {
      VacantFindsNothing(name, w.lbs, w.annotation, svc);
      LeftOfNothing(name, w.lbs, w.annotation, svc);
    }
    r := CreateFirst(w, svc);
  }

  /** The service was read afresh and the invariant holds. */
  ghost predicate Ready(w: World, svc: Svc)
    reads w
  {
    w.Invariant() && svc.id == w.annotation
  }

  lemma FoundMeans(name: string, lbs: map<Id, Lb>, annotation: IdAnnotation, svc: Svc, x: Id)
    requires Single(name, lbs, annotation) && x in lbs
    requires if annotation.Ref? then annotation == Ref(x) else Bears(name, lbs, x) && OnlyBears(name, lbs, x)
    ensures Single(name, lbs, Ref(x)) && Finds(name, lbs, Ref(x), x)
    ensures FindsFitting(name, lbs, Ref(x), svc) <==> Fits(svc, lbs[x])
    ensures FindsMisfit(name, lbs, Ref(x), svc) <==> !Fits(svc, lbs[x])
    ensures FindsFitting(name, lbs, annotation, svc) <==> Fits(svc, lbs[x])
    ensures FindsMisfit(name, lbs, annotation, svc) <==> !Fits(svc, lbs[x])
    ensures LeftToTune(name, lbs, Ref(x), svc) == LeftToTune(name, lbs, annotation, svc) == Offness(svc, lbs[x])
    ensures FindsTuned(name, lbs, annotation, svc) <==> Tuned(svc, lbs[x])
  {
    hide Tuned, Fits, Offness, FindsTuned, LeftToTune;
    FindsOnly(name, lbs, Ref(x), x, svc);
    FindsOnly(name, lbs, annotation, x, svc);
    LeftOfFound(name, lbs, Ref(x), x, svc);
    LeftOfFound(name, lbs, annotation, x, svc);
  }

  /** A fetch that found nothing leaves the world vacant. */
  lemma NothingFound(w: World, svc: Svc)
    requires Ready(w, svc)
    requires if svc.id.Ref? then svc.id.id !in w.lbs else NoneBears(w.LbName(), w.lbs)
    ensures Vacant(w, svc)
  {
    FoundNothing(w.LbName(), w.lbs, w.annotation);
  }

  /** The annotation dangles, or is missing although there is a load balancer of the name: a creation
      now happens over an identifier the controller's copy of the service does not know to replace. */
  ghost predicate Exposed(w: World)
    reads w
  {
    if w.annotation.Ref? then w.annotation.id !in w.lbs else w.annotation.Absent? && !NoneBears(w.LbName(), w.lbs)
  }

  /** Exactly then is the identifier of a created load balancer lost. */
  twostate predicate LostWhenExposed(w: World)
    reads w
  {
    w.lost != old(w.lost) <==> w.failedPatches != old(w.failedPatches) && w.creates != old(w.creates) && old(Exposed(w))
  }

  lemma VacantNothing(w: World, svc: Svc)
    requires Vacant(w, svc)
    ensures !FindsFitting(w.LbName(), w.lbs, w.annotation, svc)
  {
    hide Fits;
    VacantFindsNothing(w.LbName(), w.lbs, w.annotation, svc);
  }

  /** A fetch found nothing. */
  ghost predicate Missing(w: World, svc: Svc)
    reads w
  {
    if svc.id.Ref? then svc.id.id !in w.lbs else NoneBears(w.LbName(), w.lbs)
  }

  /** The branch of EnsureLoadBalancer for a service that has no load balancer. */
  method ObtainNew(w: World, svc: Svc) returns (r: Result<Id, Error>)
    requires w.Valid() && Acceptable(w, svc) && Missing(w, svc)
    modifies w
    ensures w.reserved == old(w.reserved)
    ensures w.Valid() && OthersKept(w.LbName(), old(w.lbs), w.lbs) && w.changes == old(w.changes) && w.LossesExplained()
    ensures old(w.outages) <= w.outages && (r == Err(Unavailable) <==> w.outages != old(w.outages))
    ensures IsExternal(svc) ==> Untouched(w) && w.lost == old(w.lost)
    ensures r.Ok? ==> r.value in w.lbs && !IsExternal(svc)
    ensures r.Ok? ==> Fits(svc, w.lbs[r.value]) && MadeFor(w, svc, w.lbs[r.value])
    ensures old(Ready(w, svc)) ==> Advanced(w, svc, r) && LostWhenExposed(w) && Calmed(w, svc)
    ensures old(Ready(w, svc)) ==> !old(FindsFitting(w.LbName(), w.lbs, w.annotation, svc))
    ensures w.Counted()
    ensures old(w.Orphaned()) && svc.id == old(w.annotation) && Plain(svc) ==>
              (r.Ok? && !AtMostOneBears(w.LbName(), w.lbs)) || r == Err(Unavailable)
  {
    hide Single, Orphan, Fits, NoneBears, Finds, FindsMisfit, FindsFitting, AtMostOneBears, World.LbName, Vacant;
    hide LeftToTune, Offness, HasPrefix, MadeFor;
    ghost var name, before := w.LbName(), w.lbs;
    if Ready(w, svc) {
      NothingFound(w, svc);
      VacantNothing(w, svc);
    }
    r := CreateFirst(w, svc);
    if r.Ok? && old(w.Orphaned()) {
      SecondBears(name, before, old(w.annotation), r.value, w.lbs[r.value]);
    }
  }

  /** EnsureLoadBalancer up to the point where a fitting load balancer is in hand. */
  method Obtain(w: World, svc: Svc) returns (r: Result<Id, Error>)
    requires w.Valid() && Acceptable(w, svc)
    modifies w
    ensures svc.ipIDs != "" || svc.loadBalancerIP != "" ==> w.reserved == old(w.reserved)
    ensures w.Valid() && OthersKept(w.LbName(), old(w.lbs), w.lbs) && w.changes == old(w.changes) && w.LossesExplained()
    ensures old(w.outages) <= w.outages && (r == Err(Unavailable) <==> w.outages != old(w.outages))
    ensures IsExternal(svc) ==> Untouched(w) && w.lost == old(w.lost)
    ensures r.Ok? ==> r.value in w.lbs && (IsExternal(svc) ==> !HasPrefix(w.lbs[r.value].name, w.prefix))
    ensures r.Ok? && !IsExternal(svc) ==> AsAsked(svc, w.lbs[r.value])
    ensures r.Ok? && old(Missing(w, svc)) ==> MadeFor(w, svc, w.lbs[r.value])
    ensures old(Ready(w, svc)) ==> Advanced(w, svc, r) && LostWhenExposed(w) && Calmed(w, svc)
    ensures old(Ready(w, svc) && FindsFitting(w.LbName(), w.lbs, w.annotation, svc)) ==>
              w.SameLbs() && (r.Ok? ==>
                    (Tuned(svc, w.lbs[r.value]) <==> old(FindsTuned(w.LbName(), w.lbs, w.annotation, svc))))
    ensures w.Counted()
    ensures old(w.Orphaned()) && svc.id == old(w.annotation) && Plain(svc) ==>
              (r.Ok? && !AtMostOneBears(w.LbName(), w.lbs)) || r == Err(Unavailable)
  {
    hide Single, Orphan, Fits, NoneBears, Finds, FindsMisfit, FindsFitting, OnlyBears, AtMostOneBears, World.LbName,
         Vacant, HasStaticIPs;
    hide LeftToTune, FindsTuned, Offness, Tuned, HasPrefix, MadeFor, AsAsked;
    ghost var name, before := w.LbName(), w.lbs;
    if w.Orphaned() {
      OrphanDangles(name, before, w.annotation);
    }
    r := FetchLoadBalancer(w, svc);
    if r.Err? {
      if old(Ready(w, svc)) {
        SingleNotDuplicated(name, before, old(w.annotation));
      }
      if r.error != NotFound {
        return;
      }
      r := ObtainNew(w, svc);
      if r.Ok? {
        FitsMeans(svc, w.lbs[r.value]);
      }
      return;
    }
    if old(Ready(w, svc)) {
      FoundMeans(name, before, old(w.annotation), svc, r.value);
    }
    if !svc.id.Ref? {
      SomeBears(name, before, r.value);
    }
    if !svc.external.value && !Fits(svc, w.lbs[r.value]) {
      r := Recreate(w, svc, r.value);
    }
    if r.Ok? {
      FitsMeans(svc, w.lbs[r.value]);
    }
  }

  lemma SomeBears(name: string, lbs: map<Id, Lb>, x: Id)
    requires Bears(name, lbs, x)
    ensures !NoneBears(name, lbs)
  {
  }

  lemma SingleNotDuplicated(name: string, lbs: map<Id, Lb>, annotation: IdAnnotation)
    requires Single(name, lbs, annotation)
    ensures AtMostOneBears(name, lbs)
  {
  }

  lemma OrphanDangles(name: string, lbs: map<Id, Lb>, annotation: IdAnnotation)
    requires Orphan(name, lbs, annotation)
    ensures annotation.Ref? && annotation.id !in lbs
  {
  }

  /** Creating a load balancer next to an orphan makes two of the name. */
  lemma SecondBears(name: string, before: map<Id, Lb>, annotation: IdAnnotation, x: Id, lb: Lb)
    requires Orphan(name, before, annotation) && x !in before && lb.name == name
    ensures !AtMostOneBears(name, before[x := lb])
  {
    var y :| Bears(name, before, y);
    assert Bears(name, before[x := lb], y) && Bears(name, before[x := lb], x);
  }

  lemma OrphanNotSingle(name: string, lbs: map<Id, Lb>, annotation: IdAnnotation)
    requires Orphan(name, lbs, annotation)
    ensures !Single(name, lbs, annotation)
  {
    var x :| Bears(name, lbs, x);
  }

  /** Changing types and TLS levels does not affect any of this. */
  lemma RetunedSame(name: string, before: map<Id, Lb>, after: map<Id, Lb>, x: Id, annotation: IdAnnotation, svc: Svc)
    requires Retuned(before, after, x)
    ensures Single(name, after, annotation) <==> Single(name, before, annotation)
    ensures Orphan(name, after, annotation) <==> Orphan(name, before, annotation)
    ensures AtMostOneBears(name, after) <==> AtMostOneBears(name, before)
    ensures FindsFitting(name, after, annotation, svc) <==> FindsFitting(name, before, annotation, svc)
    ensures FindsMisfit(name, after, annotation, svc) <==> FindsMisfit(name, before, annotation, svc)
  {
    hide Fits;
    forall y ensures Bears(name, after, y) <==> Bears(name, before, y)
             ensures Finds(name, after, annotation, y) <==> Finds(name, before, annotation, y)
             ensures y in before ==> (Fits(svc, after[y]) <==> Fits(svc, before[y]))
    {
      if y in before {
        RetunedFits(svc, before[y], after[y]);
      }
    }
  }

  lemma RetunedFits(svc: Svc, lb: Lb, lb': Lb)
    requires lb.ips == lb'.ips
    ensures Fits(svc, lb) <==> Fits(svc, lb')
  {
  }

  lemma LeftOfRetuned(name: string, before: map<Id, Lb>, after: map<Id, Lb>, annotation: IdAnnotation, x: Id, svc: Svc)
    requires Single(name, before, annotation) && Finds(name, before, annotation, x) && Retuned(before, after, x)
    ensures x in after && LeftToTune(name, after, annotation, svc) == Offness(svc, after[x])
  {
    hide Single, Offness, LeftToTune, FindsTuned, Tuned;
    RetunedSame(name, before, after, x, annotation, svc);
    LeftOfFound(name, after, annotation, x, svc);
  }

  lemma TunedFound(name: string, before: map<Id, Lb>, after: map<Id, Lb>, annotation: IdAnnotation, x: Id, svc: Svc)
    requires Finds(name, before, annotation, x) && Retuned(before, after, x) && Tuned(svc, after[x])
    ensures FindsTuned(name, after, annotation, svc)
  {
    assert Finds(name, after, annotation, x);
  }

  lemma RetunedKept(name: string, before: map<Id, Lb>, after: map<Id, Lb>, x: Id)
    requires Retuned(before, after, x)
    ensures OthersKept(name, before, after) && after.Keys == before.Keys
  {
  }

  /** A load balancer made for a service needs no tuning. */
  lemma MadeTuned(w: World, svc: Svc, lb: Lb)
    requires MadeFor(w, svc, lb)
    ensures Tuned(svc, lb)
  {
    hide ToLower, AsksIPv6;
    ToLowerTwice(svc.typ);
  }

  /** Tune, with what it means for the load balancer that the next fetch finds. */
  method TuneFound(w: World, svc: Svc, x: Id) returns (r: Result<(), Error>)
    requires w.Valid() && x in w.lbs
    modifies w
    ensures w.Valid() && w.annotation == old(w.annotation) && w.lost == old(w.lost) && w.LossesExplained()
            && w.failedPatches == old(w.failedPatches) && w.Counted()
    ensures w.reserved == old(w.reserved) && w.creates == old(w.creates) && w.deletes == old(w.deletes)
            && w.lbs.Keys == old(w.lbs).Keys && OthersKept(w.LbName(), old(w.lbs), w.lbs)
    ensures IsExternal(svc) || Tuned(svc, old(w.lbs)[x]) ==> w.SameLbs()
    ensures r.Err? ==> r.error in {Unavailable, BadService, NotReconciled}
    ensures r == Err(BadService) ==> svc.external.None? || svc.ssl.None?
    ensures r == Err(Unavailable) <==> w.outages != old(w.outages)
    ensures Single(w.LbName(), w.lbs, w.annotation) <==> old(Single(w.LbName(), w.lbs, w.annotation))
    ensures Orphan(w.LbName(), w.lbs, w.annotation) <==> old(Orphan(w.LbName(), w.lbs, w.annotation))
    ensures AtMostOneBears(w.LbName(), w.lbs) <==> old(AtMostOneBears(w.LbName(), w.lbs))
    ensures ToCreate(w, svc) == old(ToCreate(w, svc)) && ToDelete(w, svc) == old(ToDelete(w, svc))
    ensures FindsFitting(w.LbName(), w.lbs, w.annotation, svc)
            <==> old(FindsFitting(w.LbName(), w.lbs, w.annotation, svc))
    ensures AsAsked(svc, old(w.lbs)[x]) ==> AsAsked(svc, w.lbs[x])
    ensures MadeFor(w, svc, old(w.lbs)[x]) ==> MadeFor(w, svc, w.lbs[x])
    ensures old(Single(w.LbName(), w.lbs, w.annotation) && Finds(w.LbName(), w.lbs, w.annotation, x)) ==>
              && (r.Ok? && !IsExternal(svc) && !svc.deleting ==> FindsTuned(w.LbName(), w.lbs, w.annotation, svc))
              && w.changes + ToChange(w, svc) == old(w.changes + ToChange(w, svc))
              && forall y | Finds(w.LbName(), w.lbs, w.annotation, y) :: y == x
  {
    hide Tuned, FindsTuned, LeftToTune, Offness, Single, Orphan, Fits, Finds, FindsMisfit, FindsFitting, AtMostOneBears,
         World.LbName, OthersKept, MadeFor;
    ghost var name, before := w.LbName(), w.lbs;
    ghost var found := Single(name, before, w.annotation) && Finds(name, before, w.annotation, x);
    if found {
      LeftOfFound(name, before, w.annotation, x, svc);
    }
    if MadeFor(w, svc, before[x]) {
      MadeTuned(w, svc, before[x]);
    }
    r := Tune(w, svc, x);
    RetunedSame(name, before, w.lbs, x, w.annotation, svc);
    RetunedKept(name, before, w.lbs, x);
    if found {
      LeftOfRetuned(name, before, w.lbs, w.annotation, x, svc);
      OnlyFound(name, before, w.lbs, w.annotation, x);
      if r.Ok? && !IsExternal(svc) && !svc.deleting {
        TunedFound(name, before, w.lbs, w.annotation, x, svc);
      }
    }
  }

  lemma OnlyFound(name: string, before: map<Id, Lb>, after: map<Id, Lb>, annotation: IdAnnotation, x: Id)
    requires Single(name, before, annotation) && Finds(name, before, annotation, x) && Retuned(before, after, x)
    ensures forall y | Finds(name, after, annotation, y) :: y == x
  {
    forall y | Finds(name, after, annotation, y) ensures y == x {
      assert !annotation.Ref? ==> Bears(name, before, x) && Bears(name, before, y);
    }
  }

  /** EnsureLoadBalancer, without the status it reports. */
  method EnsureLoadBalancer(w: World, svc: Svc) returns (r: Result<(), Error>)
    requires w.Valid()
    modifies w
    ensures svc.ipIDs != "" || svc.loadBalancerIP != "" ==> w.reserved == old(w.reserved)
    ensures w.Valid() && OthersKept(w.LbName(), old(w.lbs), w.lbs) && w.LossesExplained()
    ensures IsExternal(svc) ==> Untouched(w) && w.lost == old(w.lost)
    ensures old(Ready(w, svc)) ==> Progressed(w, svc) && r != Err(Duplicated) && LostWhenExposed(w)
    ensures old(Ready(w, svc)) && r.Ok? && !IsExternal(svc) ==> FindsFitting(w.LbName(), w.lbs, w.annotation, svc)
    ensures old(Ready(w, svc)) && r.Ok? && !IsExternal(svc) ==>
              forall x | Finds(w.LbName(), w.lbs, w.annotation, x) :: AsAsked(svc, w.lbs[x])
    ensures old(Ready(w, svc) && Missing(w, svc)) && r.Ok? ==>
              forall x | Finds(w.LbName(), w.lbs, w.annotation, x) :: MadeFor(w, svc, w.lbs[x])
    ensures old(Ready(w, svc)) && r.Ok? && !IsExternal(svc) && !svc.deleting ==>
              FindsTuned(w.LbName(), w.lbs, w.annotation, svc)
    ensures old(Ready(w, svc)) ==> Calmed(w, svc)
    ensures old(Ready(w, svc) && FindsFitting(w.LbName(), w.lbs, w.annotation, svc)
            && FindsTuned(w.LbName(), w.lbs, w.annotation, svc)) ==>
              w.SameLbs()
    ensures w.Counted()
    ensures !Acceptable(w, svc) ==> r == Err(BadService) && Untouched(w) && w.lost == old(w.lost)
    ensures svc.hasClass || svc.external.None? || svc.private.None?
            || (svc.private == Some(true) && (w.pnID == "" || svc.ipIDs != "" || svc.loadBalancerIP != "")) ==>
              r == Err(BadService) && Untouched(w)
    ensures old(w.Orphaned()) && svc.id == old(w.annotation) && Plain(svc) && w.outages == old(w.outages) ==>
              !AtMostOneBears(w.LbName(), w.lbs)
    ensures r == Err(NotReady) ==> w.changes == old(w.changes)
  {
    hide Tuned, FindsTuned, LeftToTune, Offness;
    hide Single, Orphan, Fits, NoneBears, Finds, FindsMisfit, FindsFitting, OnlyBears, AtMostOneBears, World.LbName,
         HasStaticIPs, Retuned, OthersKept, AsAsked, MadeFor, Missing;
    StaticIPsMean(svc);
    OthersKeptReflexive(w.LbName(), w.lbs);
    if svc.hasClass || svc.external.None? || svc.private.None? {
      return Err(BadService);
    }
    if svc.private.value && (w.pnID == "" || HasStaticIPs(svc)) {
      return Err(BadService);
    }
    var lb := Obtain(w, svc);
    if lb.Err? {
      return Err(lb.error);
    }
    var ready: bool := *;
    if !ready {
      return Err(NotReady);
    }
    ghost var between := w.lbs;
    if old(Ready(w, svc)) && !IsExternal(svc) {
      FittingFound(w.LbName(), w.lbs, w.annotation, lb.value, svc);
    }
    r := TuneFound(w, svc, lb.value);
    OthersKeptTransitive(w.LbName(), old(w.lbs), between, w.lbs);
  }

  lemma OthersKeptReflexive(name: string, lbs: map<Id, Lb>)
    ensures OthersKept(name, lbs, lbs)
  {
  }

  lemma OthersKeptTransitive(name: string, before: map<Id, Lb>, between: map<Id, Lb>, after: map<Id, Lb>)
    requires OthersKept(name, before, between) && OthersKept(name, between, after)
    ensures OthersKept(name, before, after)
  {
  }

  /** Whether a fetch finds anything. */
  lemma FoundAny(name: string, lbs: map<Id, Lb>, annotation: IdAnnotation, x: Option<Id>)
    requires if x.Some? then Finds(name, lbs, annotation, x.value)
             else NoneBears(name, lbs) && (annotation.Ref? ==> annotation.id !in lbs)
    ensures FindsAny(name, lbs, annotation) <==> x.Some?
  {
  }

  lemma FittingFound(name: string, lbs: map<Id, Lb>, annotation: IdAnnotation, x: Id, svc: Svc)
    requires Finds(name, lbs, annotation, x) && Fits(svc, lbs[x])
    ensures FindsFitting(name, lbs, annotation, svc)
  {
  }

  /** UpdateLoadBalancer */
  method UpdateLoadBalancer(w: World, svc: Svc) returns (r: Result<(), Error>)
    requires w.Valid()
    modifies w
    ensures w.reserved == old(w.reserved)
    ensures w.Valid() && OthersKept(w.LbName(), old(w.lbs), w.lbs) && old(w.lost) == w.lost && w.LossesExplained()
    ensures w.creates == old(w.creates) && w.deletes == old(w.deletes) && w.lbs.Keys == old(w.lbs).Keys
    ensures IsExternal(svc) ==> Untouched(w)
    ensures old(Ready(w, svc)) ==> Progressed(w, svc) && r != Err(Duplicated)
    ensures old(Ready(w, svc)) && r.Ok? && !IsExternal(svc) && !svc.deleting ==>
              FindsTuned(w.LbName(), w.lbs, w.annotation, svc)
    ensures old(Ready(w, svc)) ==> Calmed(w, svc)
    ensures old(Ready(w, svc) && FindsTuned(w.LbName(), w.lbs, w.annotation, svc)) ==> w.SameLbs()
    ensures w.Counted()
    ensures svc.hasClass ==> r == Err(BadService) && Untouched(w)
    ensures !svc.hasClass && svc.external == Some(false) && !svc.id.Malformed? && svc.ssl.Some? ==>
              r != Err(BadService)
  {
    hide Tuned, FindsTuned, LeftToTune, Offness;
    hide Single, Orphan, Fits, NoneBears, Finds, FindsMisfit, FindsFitting, OnlyBears, AtMostOneBears, World.LbName,
         HasStaticIPs, Retuned, OthersKept;
    OthersKeptReflexive(w.LbName(), w.lbs);
    if svc.hasClass {
      return Err(BadService);
    }
    var lb := FetchLoadBalancer(w, svc);
    if old(Ready(w, svc)) {
      SingleNotDuplicated(w.LbName(), w.lbs, old(w.annotation));
    }
    if lb.Err? {
      return Err(lb.error);
    }
    if old(Ready(w, svc)) {
      FoundMeans(w.LbName(), w.lbs, old(w.annotation), svc, lb.value);
    }
    r := TuneFound(w, svc, lb.value);
  }

  /** GetLoadBalancer, without the status it reports. */
  method GetLoadBalancer(w: World, svc: Svc) returns (r: Result<bool, Error>)
    requires w.Valid()
    modifies w
    ensures w.Valid() && w.SameLbs() && old(w.lost) == w.lost && w.LossesExplained()
    ensures IsExternal(svc) ==> Untouched(w)
    ensures old(Ready(w, svc)) ==> Progressed(w, svc) && r != Err(Duplicated)
    ensures old(Ready(w, svc)) && r.Ok? && !svc.hasClass ==> (r.value <==> FindsAny(w.LbName(), w.lbs, w.annotation))
    ensures svc.hasClass ==> r == Ok(false) && Untouched(w)
  {
    hide FindsAny;
    hide Single, Orphan, Fits, NoneBears, Finds, FindsMisfit, FindsFitting, OnlyBears, AtMostOneBears, World.LbName,
         HasStaticIPs;
    if svc.hasClass {
      return Ok(false);
    }
    var lb := FetchLoadBalancer(w, svc);
    if old(Ready(w, svc)) {
      SingleNotDuplicated(w.LbName(), w.lbs, old(w.annotation));
      if lb.Ok? {
        FoundMeans(w.LbName(), w.lbs, old(w.annotation), svc, lb.value);
      }
    }
    if old(Ready(w, svc)) {
      if lb.Ok? {
        FoundAny(w.LbName(), w.lbs, w.annotation, Some(lb.value));
      } else if lb.error == NotFound {
        FoundNothing(w.LbName(), w.lbs, w.annotation);
        FoundAny(w.LbName(), w.lbs, w.annotation, None);
      }
    }
    if lb.Err? {
      return if lb.error == NotFound then Ok(false) else Err(lb.error);
    }
    return Ok(true);
  }

  /** EnsureLoadBalancerDeleted.  When it succeeds on a load balancer of our own, none of the service's
      name is left. */
  method EnsureLoadBalancerDeleted(w: World, svc: Svc) returns (r: Result<(), Error>)
    requires w.Valid()
    modifies w
    ensures svc.ipIDs != "" || svc.loadBalancerIP != "" ==> w.reserved == old(w.reserved)
    ensures old(Ready(w, svc)) && r.Ok? && !svc.hasClass && !IsExternal(svc) && svc.ipIDs == ""
            && svc.loadBalancerIP == "" ==>
              forall x, ip | Bears(w.LbName(), old(w.lbs), x) && ip in IpIds(old(w.lbs)[x].ips) :: ip !in w.reserved
    ensures w.Valid() && OthersKept(w.LbName(), old(w.lbs), w.lbs) && old(w.lost) == w.lost && w.LossesExplained()
            && w.creates == old(w.creates) && w.changes == old(w.changes)
    ensures IsExternal(svc) ==> Untouched(w)
    ensures old(Ready(w, svc)) ==> w.Invariant() && r != Err(Duplicated)
    ensures old(Ready(w, svc)) && r.Ok? && !svc.hasClass && !IsExternal(svc) ==> NoneBears(w.LbName(), w.lbs)
    ensures old(Ready(w, svc)) && w.outages == old(w.outages) ==>
              (!svc.hasClass && svc.external == Some(false) && !svc.id.Malformed? ==> r.Ok?)
    ensures svc.hasClass ==> r == Ok(()) && Untouched(w)
  {
    hide Single, Orphan, Fits, NoneBears, Finds, FindsMisfit, FindsFitting, OnlyBears, AtMostOneBears, World.LbName,
         OthersKept;
    ghost var name := w.LbName();
    OthersKeptReflexive(name, w.lbs);
    if svc.hasClass {
      return Ok(());
    }
    var lb := FetchLoadBalancer(w, svc);
    if old(Ready(w, svc)) {
      SingleNotDuplicated(name, w.lbs, old(w.annotation));
    }
    if lb.Err? {
      if lb.error == NotFound {
        if Ready(w, svc) {
          FoundNothing(name, w.lbs, w.annotation);
        }
        return Ok(());
      }
      return Err(lb.error);
    }
    if svc.external.value {
      var contents: bool := *;
      return if contents then Ok(()) else Err(NotReconciled);
    }
    ghost var between := w.lbs;
    if old(Ready(w, svc)) {
      FoundMeans(name, between, old(w.annotation), svc, lb.value);
      Forgotten(name, between, lb.value);
      GoneIsVacant(name, between, lb.value);
    }
    if old(Ready(w, svc)) {
      BearsFound(name, between, old(w.annotation), lb.value);
    }
    r := DeleteLoadBalancer(w, svc, lb.value);
    DeletedKept(name, between, w.lbs, lb.value);
    if old(Ready(w, svc)) && r.Ok? {
      NoneIsSingle(name, w.lbs, w.annotation);
    }
  }

  lemma BearsFound(name: string, lbs: map<Id, Lb>, annotation: IdAnnotation, x: Id)
    requires Single(name, lbs, annotation)
    requires if annotation.Ref? then annotation == Ref(x) else Bears(name, lbs, x) && OnlyBears(name, lbs, x)
    ensures forall y | Bears(name, lbs, y) :: y == x
  {
  }

  lemma DeletedKept(name: string, before: map<Id, Lb>, after: map<Id, Lb>, x: Id)
    requires after == before || (x in before && before[x].name == name && after == before - {x})
    ensures OthersKept(name, before, after)
  {
  }

  // ---- Whole histories ----

  /** Calls of the controller, each on a freshly read service, and what others may do meanwhile: rename
      load balancers, remove them, bring their own, and set the identifier by hand. */
  datatype Event =
    | Ensure(svc: Svc)
    | Update(svc: Svc)
    | Delete(svc: Svc)
    | Get(svc: Svc)
    | Rename(x: Id, name: string)
    | Remove(x: Id)
    | Import(lb: Lb)
    | SetId(annotation: IdAnnotation)

  /** Only an identifier that leaves no load balancer of the service's name behind may be set by hand,
      and nobody else takes that name. */
  predicate Allowed(w: World, e: Event)
    reads w
  {
    match e
    case Rename(x, name) => x in w.lbs && name != w.LbName()
    case Remove(x) => x in w.lbs
    case Import(lb) => lb.name != w.LbName()
    case SetId(annotation) => annotation.Ref? ==>
          forall x | x in w.lbs.Keys && Bears(w.LbName(), w.lbs, x) :: x == annotation.id
    case _ => true
  }

  lemma RenamedSingle(name: string, before: map<Id, Lb>, after: map<Id, Lb>, annotation: IdAnnotation)
    requires Single(name, before, annotation)
    requires forall x | Bears(name, after, x) :: Bears(name, before, x)
    ensures Single(name, after, annotation)
  {
  }

  /** One event. */
  method Step(w: World, e: Event)
    requires w.Valid()
    modifies w
    ensures w.Valid() && w.LossesExplained()
    ensures old(w.Invariant()) && w.lost == old(w.lost) ==> w.Invariant()
    ensures old(w.Invariant()) && w.lost != old(w.lost) ==> w.Orphaned()
    ensures old(w.Invariant()) ==> if e.Ensure? then LostWhenExposed(w) else w.lost == old(w.lost)
    ensures forall x | x in old(w.lbs) && old(w.lbs)[x].name != w.LbName() ::
              e == Remove(x) || (x in w.lbs && w.lbs[x].name != w.LbName())
    ensures old(w.Invariant()) && w.failedPatches == old(w.failedPatches) ==> w.Invariant()
    ensures External(e) ==> Untouched(w) && w.lost == old(w.lost)
  {
    hide Single, Orphan, NoneBears, FindsMisfit, FindsFitting, OnlyBears, AtMostOneBears, HasStaticIPs;
    match e {
      case Ensure(svc) => var _ := EnsureLoadBalancer(w, svc.(id := w.annotation));
      case Update(svc) => var _ := UpdateLoadBalancer(w, svc.(id := w.annotation));
      case Delete(svc) => var _ := EnsureLoadBalancerDeleted(w, svc.(id := w.annotation));
      case Get(svc) => var _ := GetLoadBalancer(w, svc.(id := w.annotation));
      case _ => Meddle(w, e);
    }
  }

  predicate External(e: Event) {
    match e
    case Ensure(svc) => IsExternal(svc)
    case Update(svc) => IsExternal(svc)
    case Delete(svc) => IsExternal(svc)
    case Get(svc) => IsExternal(svc)
    case _ => false
  }

  method Meddle(w: World, e: Event)
    requires w.Valid()
    modifies w`lbs, w`annotation, w`nextId
    ensures w.Valid()
    ensures old(w.Invariant()) ==> w.Invariant()
    ensures forall x | x in old(w.lbs) && old(w.lbs)[x].name != w.LbName() ::
              e == Remove(x) || (x in w.lbs && w.lbs[x].name != w.LbName())
  {
    ghost var name, before := w.LbName(), w.lbs;
    if !Allowed(w, e) {
      return;
    }
    match e {
      case Rename(x, to) => w.lbs := w.lbs[x := w.lbs[x].(name := to)];
      case Remove(x) => w.lbs := w.lbs - {x};
      case Import(lb) =>
        w.lbs := w.lbs[w.nextId := lb];
        w.nextId := w.nextId + 1;
      case SetId(annotation) =>
        SetByHand(name, before, w.annotation, annotation);
        w.annotation := annotation;
      case _ =>
    }
    if old(w.Invariant()) && !e.SetId? {
      RenamedSingle(name, before, w.lbs, w.annotation);
    }
  }

  lemma SetByHand(name: string, lbs: map<Id, Lb>, annotation0: IdAnnotation, annotation: IdAnnotation)
    requires annotation.Ref? ==> forall x | x in lbs.Keys && Bears(name, lbs, x) :: x == annotation.id
    ensures Single(name, lbs, annotation0) ==> Single(name, lbs, annotation)
  {
  }

  /** Over any history of calls and meddling in which the API server takes every patch, whatever other
      calls fail, there is never more than one load balancer of the service's name; nor is there if a
      patch failed but no identifier was lost, and never more identifiers are lost than patches failed;
      load balancers of other names are never deleted by the controller, whatever the annotations say along
      the way; and a history of calls with the load balancer managed elsewhere changes none. */
  method Run(w: World, events: seq<Event>)
    requires w.Valid()
    modifies w
    ensures w.Valid() && w.LossesExplained()
    ensures old(w.Invariant()) && w.failedPatches == old(w.failedPatches) ==>
              w.Invariant() && AtMostOneBears(w.LbName(), w.lbs)
    ensures old(w.Invariant()) && w.lost == old(w.lost) ==> w.Invariant() && AtMostOneBears(w.LbName(), w.lbs)
    ensures forall x | x in old(w.lbs) && old(w.lbs)[x].name != w.LbName() && Remove(x) !in events ::
              x in w.lbs && w.lbs[x].name != w.LbName()
    ensures (forall e | e in events :: External(e)) ==> Untouched(w)
  {
    hide Single, AtMostOneBears, External, Allowed;
    for i := 0 to |events|
      invariant w.Valid() && w.LossesExplained()
      invariant old(w.Invariant()) && w.lost == old(w.lost) ==> w.Invariant()
      invariant forall x | x in old(w.lbs) && old(w.lbs)[x].name != w.LbName() && Remove(x) !in events[..i] ::
                  x in w.lbs && w.lbs[x].name != w.LbName()
      invariant (forall e | e in events[..i] :: External(e)) ==> Untouched(w)
    {
      assert events[..i + 1] == events[..i] + [events[i]];
      Step(w, events[i]);
    }
    assert events[..|events|] == events;
    if w.Invariant() {
      SingleNotDuplicated(w.LbName(), w.lbs, w.annotation);
    }
  }

  /** A load balancer managed elsewhere is accepted exactly if it is named by its identifier, exists and
      lacks the cluster prefix; so with an empty prefix none is.  An accepted one does not bear the
      service's name, so no call ever deletes it, also after the annotation is dropped. */
  method Adopt(w: World, svc: Svc, events: seq<Event>) returns (r: Result<Id, Error>)
    requires w.Valid() && IsExternal(svc)
    modifies w
    ensures r != Err(Unavailable) ==>
              (r.Ok? <==> svc.id.Ref? && svc.id.id in old(w.lbs) && !HasPrefix(old(w.lbs)[svc.id.id].name, w.prefix))
    ensures w.prefix == "" ==> r.Err?
    ensures r.Ok? ==> r.value in old(w.lbs) && (Remove(r.value) !in events ==> r.value in w.lbs)
  {
    r := FetchLoadBalancer(w, svc);
    if r.Ok? {
      assert HasPrefix(w.LbName(), w.prefix);
      Run(w, events);
    }
  }

  /** What fits a service does not depend on the copy of the identifier in hand. */
  lemma OtherCopy(name: string, lbs: map<Id, Lb>, annotation: IdAnnotation, svc: Svc, id: IdAnnotation)
    ensures FindsFitting(name, lbs, annotation, svc.(id := id)) <==> FindsFitting(name, lbs, annotation, svc)
    ensures FindsMisfit(name, lbs, annotation, svc.(id := id)) <==> FindsMisfit(name, lbs, annotation, svc)
    ensures LeftToTune(name, lbs, annotation, svc.(id := id)) == LeftToTune(name, lbs, annotation, svc)
  {
    forall lb: Lb ensures Fits(svc.(id := id), lb) <==> Fits(svc, lb) {
    }
    forall lb: Lb ensures Offness(svc.(id := id), lb) == Offness(svc, lb) {
    }
  }

  /** However often a service is ensured, at most one load balancer is created for it and at most one
      deleted, none at all once a fitting one was found, unless a patch fails and an identifier with it;
      type and TLS level are changed no more often than the load balancer found at the start needs, which
      is at most twice, and not at all if it has to be created. */
  method EnsureRepeatedly(w: World, svc: Svc, n: nat)
    requires w.Invariant()
    modifies w
    ensures w.LossesExplained()
    ensures w.lost == old(w.lost) || w.failedPatches == old(w.failedPatches) ==> w.Invariant()
    ensures w.Counted()
    ensures w.lost == old(w.lost) || w.failedPatches == old(w.failedPatches) ==>
              && w.creates <= old(w.creates + ToCreate(w, svc)) && w.deletes <= old(w.deletes + ToDelete(w, svc))
              && w.changes <= old(w.changes + ToChange(w, svc))
  {
    hide Single, Orphan, FindsFitting, FindsMisfit, NoneBears, AtMostOneBears, Fits;
    for i := 0 to n
      invariant w.Valid() && w.LossesExplained()
      invariant w.lost == old(w.lost) ==> w.Invariant()
      invariant w.lost == old(w.lost) ==> w.creates + ToCreate(w, svc) <= old(w.creates + ToCreate(w, svc))
      invariant w.lost == old(w.lost) ==> w.deletes + ToDelete(w, svc) <= old(w.deletes + ToDelete(w, svc))
      invariant w.Counted() && Calmed(w, svc)
    {
      var now := svc.(id := w.annotation);
      OtherCopy(w.LbName(), w.lbs, w.annotation, svc, now.id);
      var _ := EnsureLoadBalancer(w, now);
      OtherCopy(w.LbName(), w.lbs, w.annotation, svc, now.id);
    }
  }
}
