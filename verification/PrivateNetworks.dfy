/** attachPrivateNetworks: resolving the requested private IPs to networks, then attaching,
    detaching and reattaching networks. */
module PrivateNetworks {
  import opened Basics
  import opened Sorting

  type NetworkId = string
  type IpId = string

  /** A listed attachment: a network and the addresses held in it. */
  datatype Nic = Nic(network: NetworkId, ips: seq<IpId>)

  ghost predicate ListsNics(xs: seq<Nic>, nics: map<NetworkId, seq<IpId>>, networks: set<NetworkId>) {
    && (forall i | 0 <= i < |xs| ::
          xs[i].network in networks && xs[i].network in nics && xs[i].ips == nics[xs[i].network])
    && (forall pn | pn in networks && pn in nics :: Nic(pn, nics[pn]) in xs)
    && (forall i, j | 0 <= i < j < |xs| :: xs[i].network != xs[j].network)
  }

  /** The load balancer's network attachments and the IPAM behind them.  Every IPAM address lives in
      one network; an attachment holds addresses of its own network, each once. */
  class Networks {
    const ipam: map<IpId, NetworkId>
    var nics: map<NetworkId, seq<IpId>>

    /** Calls that change attachments or query IPAM, and calls of any kind that failed. */
    ghost var calls: nat
    ghost var outages: nat

    ghost predicate Valid()
      reads this
    {
      forall pn | pn in nics :: ValidNic(pn, nics[pn])
    }

    ghost predicate ValidNic(pn: NetworkId, ips: seq<IpId>) {
      && (forall ip | ip in ips :: ip in ipam && ipam[ip] == pn)
      && (forall i, j | 0 <= i < j < |ips| :: ips[i] != ips[j])
    }

    constructor (ipam: map<IpId, NetworkId>)
      ensures Valid() && nics == map[] && this.ipam == ipam && calls == 0 && outages == 0
    {
      this.ipam := ipam;
      nics := map[];
      calls, outages := 0, 0;
    }

    /** All attachments, in some order. */
    method ListLBPrivateNetworks() returns (r: Outcome<seq<Nic>>)
      requires Valid()
      modifies `outages
      ensures r.Done? ==> outages == old(outages) && ListsNics(r.value, nics, nics.Keys)
      ensures r.Failed? ==> outages == old(outages) + 1
    {
      var outage: bool := *;
      if outage {
        outages := outages + 1;
        return Failed;
      }
      var rest := nics.Keys;
      var found: seq<Nic> := [];
      while exists pn :: pn in rest
        invariant rest <= nics.Keys
        invariant ListsNics(found, nics, nics.Keys - rest)
        decreases rest
      {
        var pn :| pn in rest;
        found := found + [Nic(pn, nics[pn])];
        rest := rest - {pn};
      }
      return Done(found);
    }

    method DetachPrivateNetwork(pn: NetworkId) returns (ok: bool)
      requires Valid() && pn in nics
      modifies this
      ensures Valid() && calls == old(calls) + 1
      ensures ok ==> nics == old(nics) - {pn} && outages == old(outages)
      ensures !ok ==> nics == old(nics) && outages == old(outages) + 1
    {
      calls := calls + 1;
      ok := *;
      if ok {
        nics := nics - {pn};
      } else {
        outages := outages + 1;
      }
    }

    /** Without an explicit address the API may book one of the network itself. */
    method AttachPrivateNetwork(pn: NetworkId, ips: seq<IpId>) returns (ok: bool)
      requires Valid() && pn !in nics && ValidNic(pn, ips)
      modifies this
      ensures Valid() && calls == old(calls) + 1
      ensures ok ==>
                pn in nics && nics == old(nics)[pn := nics[pn]] && (ips != [] ==> nics[pn] == ips)
                && outages == old(outages)
      ensures !ok ==> nics == old(nics) && outages == old(outages) + 1
    {
      calls := calls + 1;
      ok := *;
      if ok {
        var booked := ips;
        if ips == [] {
          var some: bool := *;
          if some && exists ip :: ip in ipam.Keys && ipam[ip] == pn {
            var ip :| ip in ipam.Keys && ipam[ip] == pn;
            booked := [ip];
          }
        }
        nics := nics[pn := booked];
      } else {
        outages := outages + 1;
      }
    }

    /** The addresses of a network among `filter`; an empty filter does not filter. */
    method ListIPs(pn: NetworkId, filter: set<IpId>) returns (r: Outcome<seq<IpId>>)
      requires Valid()
      modifies `calls, `outages
      ensures calls == old(calls) + 1
      ensures r.Done? ==> outages == old(outages)
                          && Lists(r.value, set ip | ip in ipam.Keys && ipam[ip] == pn
                              && (filter == {} || ip in filter))
      ensures r.Failed? ==> outages == old(outages) + 1
    {
      calls := calls + 1;
      var outage: bool := *;
      if outage {
        outages := outages + 1;
        return Failed;
      }
      var all := set ip | ip in ipam.Keys && ipam[ip] == pn && (filter == {} || ip in filter);
      var rest := all;
      var ips: seq<IpId> := [];
      while exists ip :: ip in rest
        invariant rest <= all
        invariant Lists(ips, all - rest)
        decreases rest
      {
        var ip :| ip in rest;
        ips := ips + [ip];
        rest := rest - {ip};
      }
      return Done(ips);
    }
  }

  /** The elements of a set, each once. */
  ghost predicate Lists(xs: seq<string>, s: set<string>) {
    && (forall x :: x in xs <==> x in s)
    && (forall i, j | 0 <= i < j < |xs| :: xs[i] != xs[j])
  }

  datatype Status = Status(attached: bool, attachedIPs: seq<IpId>, desiredIPs: seq<IpId>)

  // ---- What is asked for ----

  /** The requested addresses that live in a network. */
  ghost function Wanted(ipam: map<IpId, NetworkId>, requested: set<IpId>, pn: NetworkId): set<IpId> {
    set ip | ip in requested && ip in ipam && ipam[ip] == pn
  }

  /** Every requested address lives in one of the networks, and no network is asked for two. */
  ghost predicate Satisfiable(ipam: map<IpId, NetworkId>, networks: set<NetworkId>, requested: set<IpId>) {
    && (forall ip | ip in requested :: ip in ipam && ipam[ip] in networks)
    && (forall ip, ip' | ip in requested && ip' in requested && ip in ipam && ip' in ipam && ipam[ip] == ipam[ip']
        && ipam[ip] in networks :: ip == ip')
  }

  /** The networks to be attached: those the service names, or the cluster's own. */
  function DesiredNetworks(pnID: NetworkId, named: seq<NetworkId>, externallyManaged: bool): set<NetworkId> {
    if externallyManaged || named == [] then {pnID} else set pn | pn in named
  }

  /** Exactly the desired networks are attached (others may stay on a load balancer managed
      elsewhere), and where an address was asked for, it is the one attached. */
  ghost predicate Attached(ipam: map<IpId, NetworkId>, before: map<NetworkId, seq<IpId>>,
                           after: map<NetworkId, seq<IpId>>,
                           networks: set<NetworkId>, requested: set<IpId>, externallyManaged: bool)
  {
    && after.Keys == (if externallyManaged then before.Keys + networks else networks)
    && (forall pn | pn in networks && pn in after :: AttachedAs(ipam, before, after, requested, pn))
    && (forall pn | pn in after && pn !in networks :: pn in before && after[pn] == before[pn])
  }

  ghost predicate AttachedAs(ipam: map<IpId, NetworkId>, before: map<NetworkId, seq<IpId>>,
                             after: map<NetworkId, seq<IpId>>,
                             requested: set<IpId>, pn: NetworkId)
    requires pn in after
  {
    var wanted := Wanted(ipam, requested, pn);
    if wanted == {} then pn in before ==> after[pn] == before[pn]
    else |after[pn]| == 1 && wanted == {after[pn][0]}
  }

  /** Nothing left to do. */
  ghost predicate Settled(ipam: map<IpId, NetworkId>, nics: map<NetworkId, seq<IpId>>,
                          networks: set<NetworkId>, requested: set<IpId>, externallyManaged: bool)
  {
    Satisfiable(ipam, networks, requested) && Attached(ipam, nics, nics, networks, requested, externallyManaged)
  }

  // ---- The phases ----

  /** The status of a network right after the attachments were listed. */
  function Surveyed(before: map<NetworkId, seq<IpId>>, pn: NetworkId): Status {
    if pn in before then Status(true, before[pn], []) else Status(false, [], [])
  }

  ghost predicate Surveys(status: map<NetworkId, Status>, before: map<NetworkId, seq<IpId>>, networks: set<NetworkId>) {
    status.Keys == networks && forall pn | pn in networks :: status[pn] == Surveyed(before, pn)
  }

  /** What is attached once the undesired networks are gone. */
  function Trimmed(before: map<NetworkId, seq<IpId>>, networks: set<NetworkId>,
                   externallyManaged: bool): map<NetworkId, seq<IpId>>
  {
    if externallyManaged then before else map pn | pn in before && pn in networks :: before[pn]
  }

  /** What the first n listed attachments say of a network. */
  function StatusAfter(nics: seq<Nic>, n: nat, pn: NetworkId): Status
    requires n <= |nics|
  {
    if n == 0 then Status(false, [], [])
    else if nics[n - 1].network == pn then Status(true, nics[n - 1].ips, [])
    else StatusAfter(nics, n - 1, pn)
  }

  /** The undesired networks among the first n listed. */
  function UndesiredAmong(nics: seq<Nic>, n: nat, networks: set<NetworkId>): set<NetworkId>
    requires n <= |nics|
  {
    if n == 0 then {}
    else UndesiredAmong(nics, n - 1, networks) + if nics[n - 1].network in networks then {} else {nics[n - 1].network}
  }

  lemma {:induction false} StatusUnlisted(nics: seq<Nic>, n: nat, pn: NetworkId)
    requires n <= |nics| && forall k | 0 <= k < n :: nics[k].network != pn
    ensures StatusAfter(nics, n, pn) == Status(false, [], [])
  {
    if n > 0 {
      StatusUnlisted(nics, n - 1, pn);
    }
  }

  lemma {:induction false} StatusListed(nics: seq<Nic>, n: nat, k: nat)
    requires k < n <= |nics| && forall j | k < j < n :: nics[j].network != nics[k].network
    ensures StatusAfter(nics, n, nics[k].network) == Status(true, nics[k].ips, [])
  {
    if k < n - 1 {
      StatusListed(nics, n - 1, k);
    }
  }

  lemma SurveyStep(nics: seq<Nic>, n: nat, networks: set<NetworkId>)
    requires n < |nics|
    ensures forall pn {:trigger StatusAfter(nics, n + 1, pn)} {:trigger StatusAfter(nics, n, pn)} ::
              StatusAfter(nics, n + 1, pn) ==
                         if nics[n].network == pn then Status(true, nics[n].ips, []) else StatusAfter(nics, n, pn)
    ensures UndesiredAmong(nics, n + 1, networks) ==
            UndesiredAmong(nics, n, networks) + if nics[n].network in networks then {} else {nics[n].network}
  {
    forall pn ensures StatusAfter(nics, n + 1, pn) ==
                      if nics[n].network == pn then Status(true, nics[n].ips, []) else StatusAfter(nics, n, pn)
    {
      StatusStep(nics, n, pn);
    }
  }

  lemma StatusStep(nics: seq<Nic>, n: nat, pn: NetworkId)
    requires n < |nics|
    ensures StatusAfter(nics, n + 1, pn) ==
            if nics[n].network == pn then Status(true, nics[n].ips, []) else StatusAfter(nics, n, pn)
  {
  }

  lemma SurveyEmpty(nics: seq<Nic>, networks: set<NetworkId>)
    ensures UndesiredAmong(nics, 0, networks) == {}
    ensures forall pn :: StatusAfter(nics, 0, pn) == Status(false, [], [])
  {
  }

  lemma {:induction false} UndesiredAmongIn(nics: seq<Nic>, n: nat, networks: set<NetworkId>, pn: NetworkId)
    requires n <= |nics|
    ensures pn in UndesiredAmong(nics, n, networks)
            <==> pn !in networks && exists k :: 0 <= k < n && nics[k].network == pn
  {
    if n > 0 {
      UndesiredAmongIn(nics, n - 1, networks, pn);
    }
  }

  lemma SurveyComplete(nics: seq<Nic>, before: map<NetworkId, seq<IpId>>, networks: set<NetworkId>, pn: NetworkId)
    requires ListsNics(nics, before, before.Keys)
    ensures StatusAfter(nics, |nics|, pn) == Surveyed(before, pn)
    ensures pn in UndesiredAmong(nics, |nics|, networks) <==> pn in before && pn !in networks
  {
    UndesiredAmongIn(nics, |nics|, networks, pn);
    if pn in before {
      assert Nic(pn, before[pn]) in nics;
      var k :| 0 <= k < |nics| && nics[k] == Nic(pn, before[pn]);
      StatusListed(nics, |nics|, k);
    } else {
      StatusUnlisted(nics, |nics|, pn);
    }
  }

  lemma TrimmedIs(nics: seq<Nic>, before: map<NetworkId, seq<IpId>>, networks: set<NetworkId>)
    requires ListsNics(nics, before, before.Keys)
    ensures before - UndesiredAmong(nics, |nics|, networks) == Trimmed(before, networks, false)
    ensures Trimmed(before, networks, true) == before
    ensures UndesiredAmong(nics, |nics|, networks) == {} <==> before.Keys <= networks
    ensures forall pn :: StatusAfter(nics, |nics|, pn) == Surveyed(before, pn)
  {
    hide StatusAfter, UndesiredAmong, ListsNics;
    forall pn ensures StatusAfter(nics, |nics|, pn) == Surveyed(before, pn)
              ensures pn in UndesiredAmong(nics, |nics|, networks) <==> pn in before && pn !in networks
    {
      SurveyComplete(nics, before, networks, pn);
    }
  }

  lemma NotYetGone(nics: seq<Nic>, before: map<NetworkId, seq<IpId>>, networks: set<NetworkId>, i: nat)
    requires ListsNics(nics, before, before.Keys) && i < |nics|
    ensures nics[i].network in before && nics[i].network !in UndesiredAmong(nics, i, networks)
  {
    UndesiredAmongIn(nics, i, networks, nics[i].network);
  }

  /** Phase 1: mark the desired networks that are attached, detach the others. */
  method Survey(net: Networks, networks: set<NetworkId>, externallyManaged: bool)
    returns (ok: bool, status: map<NetworkId, Status>)
    requires net.Valid()
    modifies net
    ensures net.Valid() && net.calls >= old(net.calls) && net.outages >= old(net.outages)
    ensures ok <==> net.outages == old(net.outages)
    ensures ok ==>
              Surveys(status, old(net.nics), networks)
              && net.nics == Trimmed(old(net.nics), networks, externallyManaged)
    ensures externallyManaged ==> net.nics == old(net.nics)
    ensures (externallyManaged || old(net.nics).Keys <= networks) ==> net.calls == old(net.calls)
    ensures ok && net.calls == old(net.calls) ==> externallyManaged || old(net.nics).Keys <= networks
  {
    hide ListsNics, StatusAfter, UndesiredAmong, Trimmed, Surveyed;
    status := map pn | pn in networks :: Status(false, [], []);
    var listed := net.ListLBPrivateNetworks();
    if listed.Failed? {
      return false, status;
    }
    var nics := listed.value;
    ghost var before := net.nics;
    TrimmedIs(nics, before, networks);
    ghost var gone: set<NetworkId> := {};
    assert before - gone == before;
    SurveyEmpty(nics, networks);
    for i := 0 to |nics|
      invariant net.Valid() && net.calls >= old(net.calls) && net.outages == old(net.outages)
      invariant status.Keys == networks
      invariant forall pn | pn in networks :: status[pn] == StatusAfter(nics, i, pn)
      invariant gone == if externallyManaged then {} else UndesiredAmong(nics, i, networks)
      invariant net.nics == before - gone
      invariant net.calls == old(net.calls) <==> gone == {}
    {
      var nic := nics[i];
      NotYetGone(nics, before, networks, i);
      SurveyStep(nics, i, networks);
      if nic.network in status {
        UnmarkedSoFar(nics, before, i);
        status := status[nic.network := status[nic.network].(attached := true, attachedIPs := nic.ips)];
        continue;
      }
      if !externallyManaged {
        var detached := net.DetachPrivateNetwork(nic.network);
        if !detached {
          return false, status;
        }
        assert before - gone - {nic.network} == before - (gone + {nic.network});
        gone := gone + {nic.network};
      }
    }
    ok := true;
  }

  lemma UnmarkedSoFar(nics: seq<Nic>, before: map<NetworkId, seq<IpId>>, i: nat)
    requires ListsNics(nics, before, before.Keys) && i < |nics|
    ensures StatusAfter(nics, i, nics[i].network) == Status(false, [], [])
  {
    StatusUnlisted(nics, i, nics[i].network);
  }

  // ---- Resolving addresses ----

  predicate Claimed(ipam: map<IpId, NetworkId>, status: map<NetworkId, Status>, ip: IpId) {
    ip in ipam && ipam[ip] in status && ip in status[ipam[ip]].desiredIPs
  }

  ghost predicate NoDuplicates(xs: seq<string>) {
    forall i, j | 0 <= i < j < |xs| :: xs[i] != xs[j]
  }

  /** Every requested address is either still open or claimed, once, by the network it lives in. */
  ghost predicate Conserved(ipam: map<IpId, NetworkId>, requested: set<IpId>, open: set<IpId>,
                            status: map<NetworkId, Status>)
  {
    && (forall ip :: ip in open <==> ip in requested && !Claimed(ipam, status, ip))
    && (forall pn | pn in status :: NoDuplicates(status[pn].desiredIPs))
    && (forall pn | pn in status ::
          forall ip | ip in status[pn].desiredIPs :: ip in requested && ip in ipam && ipam[ip] == pn)
  }

  function Claim(s: Status, ip: IpId): Status {
    s.(desiredIPs := s.desiredIPs + [ip])
  }

  lemma ClaimConserves(ipam: map<IpId, NetworkId>, requested: set<IpId>, open: set<IpId>,
                       status: map<NetworkId, Status>, pn: NetworkId, ip: IpId)
    requires Conserved(ipam, requested, open, status) && pn in status
    requires ip in open && ip in ipam && ipam[ip] == pn
    ensures Conserved(ipam, requested, open - {ip}, status[pn := Claim(status[pn], ip)])
  {
    var status' := status[pn := Claim(status[pn], ip)];
    assert ip !in status[pn].desiredIPs;
    forall x ensures Claimed(ipam, status', x) <==> Claimed(ipam, status, x) || x == ip {
    }
  }

  /** The statuses agree on what is attached. */
  ghost predicate SameAttachments(status: map<NetworkId, Status>, status': map<NetworkId, Status>) {
    && status.Keys == status'.Keys
    && forall pn | pn in status ::
          status[pn].attached == status'[pn].attached && status[pn].attachedIPs == status'[pn].attachedIPs
  }

  /** Attached addresses live in the network they are attached to. */
  ghost predicate Placed(ipam: map<IpId, NetworkId>, status: map<NetworkId, Status>) {
    forall pn | pn in status :: forall ip | ip in status[pn].attachedIPs :: ip in ipam && ipam[ip] == pn
  }

  /** One network's turn to claim, among the open addresses, those in a list. */
  method ClaimFrom(pn: NetworkId, status0: map<NetworkId, Status>, ips: seq<IpId>, open0: set<IpId>,
                   ghost ipam: map<IpId, NetworkId>, ghost requested: set<IpId>)
    returns (s: Status, open: set<IpId>)
    requires pn in status0 && Conserved(ipam, requested, open0, status0)
    requires forall ip | ip in ips :: ip in ipam && ipam[ip] == pn
    ensures Conserved(ipam, requested, open, status0[pn := s])
    ensures s.attached == status0[pn].attached && s.attachedIPs == status0[pn].attachedIPs
    ensures open <= open0 && forall ip | ip in ips :: ip !in open
  {
    s, open := status0[pn], open0;
    assert status0[pn := s] == status0;
    for j := 0 to |ips|
      invariant Conserved(ipam, requested, open, status0[pn := s])
      invariant s.attached == status0[pn].attached && s.attachedIPs == status0[pn].attachedIPs
      invariant open <= open0 && forall k | 0 <= k < j :: ips[k] !in open
    {
      if ips[j] in open {
        ClaimConserves(ipam, requested, open, status0[pn := s], pn, ips[j]);
        assert status0[pn := s][pn := Claim(s, ips[j])] == status0[pn := Claim(s, ips[j])];
        s := Claim(s, ips[j]);
        open := open - {ips[j]};
      }
    }
  }

  /** Phase 2: the networks, in any order, claim the requested addresses they already hold. */
  method MatchAttached(status0: map<NetworkId, Status>, requested: set<IpId>, ghost ipam: map<IpId, NetworkId>)
    returns (status: map<NetworkId, Status>, open: set<IpId>)
    requires Placed(ipam, status0) && forall pn | pn in status0 :: status0[pn].desiredIPs == []
    ensures SameAttachments(status0, status) && Conserved(ipam, requested, open, status)
    ensures forall pn | pn in status :: forall ip | ip in status[pn].attachedIPs :: ip !in open
  {
    hide Conserved;
    status, open := status0, requested;
    NothingClaimed(ipam, requested, status0);
    var rest := status0.Keys;
    while exists pn :: pn in rest
      invariant rest <= status0.Keys
      invariant SameAttachments(status0, status) && Conserved(ipam, requested, open, status)
      invariant forall pn | pn in status && pn !in rest :: forall ip | ip in status[pn].attachedIPs :: ip !in open
      decreases rest
    {
      var pn :| pn in rest;
      var s, open' := ClaimFrom(pn, status, status[pn].attachedIPs, open, ipam, requested);
      status, open := status[pn := s], open';
      rest := rest - {pn};
    }
  }

  lemma NothingClaimed(ipam: map<IpId, NetworkId>, requested: set<IpId>, status: map<NetworkId, Status>)
    requires forall pn | pn in status :: status[pn].desiredIPs == []
    ensures Conserved(ipam, requested, requested, status)
  {
  }

  /** Phase 3: ask IPAM, network by network in any order, for the addresses still open.  The filter
      shrinks along the way and may become empty, which IPAM takes as no filter at all. */
  method QueryIpam(net: Networks, status0: map<NetworkId, Status>, open0: set<IpId>, ghost requested: set<IpId>)
    returns (ok: bool, status: map<NetworkId, Status>, open: set<IpId>)
    requires net.Valid() && Conserved(net.ipam, requested, open0, status0)
    modifies net
    ensures net.Valid() && net.nics == old(net.nics) && net.calls >= old(net.calls) && net.outages >= old(net.outages)
    ensures ok <==> net.outages == old(net.outages)
    ensures ok ==> SameAttachments(status0, status) && Conserved(net.ipam, requested, open, status)
                   && forall ip | ip in open :: ip !in net.ipam || net.ipam[ip] !in status
    ensures ok && status0.Keys != {} ==> net.calls > old(net.calls)
  {
    hide Conserved;
    status, open := status0, open0;
    var rest := status0.Keys;
    while exists pn :: pn in rest
      invariant rest <= status0.Keys
      invariant net.Valid() && net.nics == old(net.nics) && net.calls >= old(net.calls)
                && net.outages == old(net.outages)
      invariant SameAttachments(status0, status) && Conserved(net.ipam, requested, open, status)
      invariant forall ip | ip in open && ip in net.ipam :: net.ipam[ip] !in status || net.ipam[ip] in rest
      invariant rest != status0.Keys ==> net.calls > old(net.calls)
      decreases rest
    {
      var pn :| pn in rest;
      var found := net.ListIPs(pn, open);
      if found.Failed? {
        return false, status, open;
      }
      ghost var before := open;
      var s, open' := ClaimFrom(pn, status, found.value, open, net.ipam, requested);
      assert forall ip | ip in open' && ip in net.ipam && net.ipam[ip] == pn :: ip in before && ip in found.value;
      status, open := status[pn := s], open';
      rest := rest - {pn};
    }
    ok := true;
  }

  // ---- Reattaching ----

  /** A call failed; a requested address is in none of the networks; a network is asked for several. */
  datatype Error = Unavailable | NotFound | TooMany

  /** Nothing is open any more: each network's desired list is what was requested of it. */
  lemma Resolved(ipam: map<IpId, NetworkId>, requested: set<IpId>, status: map<NetworkId, Status>, pn: NetworkId)
    requires Conserved(ipam, requested, {}, status) && pn in status
    ensures Lists(status[pn].desiredIPs, Wanted(ipam, requested, pn))
  {
    forall ip | ip in Wanted(ipam, requested, pn) ensures ip in status[pn].desiredIPs {
      assert ip !in {};
    }
  }

  predicate Unambiguous(status: map<NetworkId, Status>) {
    forall pn | pn in status :: |status[pn].desiredIPs| <= 1
  }

  lemma AloneOrTwo(xs: seq<string>, s: set<string>)
    requires Lists(xs, s)
    ensures |xs| <= 1 || exists x, y :: x in s && y in s && x != y
  {
    if |xs| > 1 {
      assert xs[0] in s && xs[1] in s;
    }
  }

  /** The requested addresses are the disjoint union of the networks' desired lists, and the request
      can be met exactly when each list has at most one entry. */
  lemma Conservation(ipam: map<IpId, NetworkId>, requested: set<IpId>, status: map<NetworkId, Status>)
    requires Conserved(ipam, requested, {}, status)
    ensures requested == set pn, ip | pn in status && ip in status[pn].desiredIPs :: ip
    ensures forall pn, pn', ip | pn in status && pn' in status && ip in status[pn].desiredIPs
            && ip in status[pn'].desiredIPs :: pn == pn'
    ensures Unambiguous(status) <==> Satisfiable(ipam, status.Keys, requested)
  {
    forall pn | pn in status ensures Lists(status[pn].desiredIPs, Wanted(ipam, requested, pn)) {
      Resolved(ipam, requested, status, pn);
    }
    forall ip | ip in requested
      ensures ip in ipam && ipam[ip] in status && ip in status[ipam[ip]].desiredIPs
    {
      assert ip !in {} && Claimed(ipam, status, ip);
    }
    if Satisfiable(ipam, status.Keys, requested) {
      forall pn | pn in status ensures |status[pn].desiredIPs| <= 1 {
        AloneOrTwo(status[pn].desiredIPs, Wanted(ipam, requested, pn));
      }
    }
    if Unambiguous(status) {
      forall ip, ip' | ip in requested && ip' in requested && ipam[ip] == ipam[ip'] ensures ip == ip' {
        var d := status[ipam[ip]].desiredIPs;
        assert ip in d && ip' in d;
      }
    }
  }

  /** What the attachments of a network must be before phase 4 leaves it alone. */
  predicate InPlace(s: Status) {
    s.attached && (s.desiredIPs == [] || Sort(s.attachedIPs) == Sort(s.desiredIPs))
  }

  lemma SingletonSorted(a: seq<IpId>, ip: IpId)
    ensures Sort(a) == Sort([ip]) <==> a == [ip]
  {
    SortCanonical(a, [ip]);
    if multiset(a) == multiset([ip]) {
      assert |a| == |multiset(a)| == 1;
      assert a[0] in multiset(a);
    }
  }

  /** The status reflects the attachments of a network. */
  ghost predicate Reflects(s: Status, nics: map<NetworkId, seq<IpId>>, pn: NetworkId) {
    (s.attached <==> pn in nics) && (s.attached ==> s.attachedIPs == nics[pn])
  }

  lemma InPlaceMeansAttached(ipam: map<IpId, NetworkId>, nics: map<NetworkId, seq<IpId>>, requested: set<IpId>,
                             pn: NetworkId, s: Status)
    requires Reflects(s, nics, pn) && Lists(s.desiredIPs, Wanted(ipam, requested, pn)) && |s.desiredIPs| <= 1
    ensures InPlace(s) <==> pn in nics && AttachedAs(ipam, nics, nics, requested, pn)
  {
    var wanted := Wanted(ipam, requested, pn);
    if s.desiredIPs == [] {
      assert wanted == {};
    } else {
      assert s.desiredIPs == [s.desiredIPs[0]];
      assert wanted == {s.desiredIPs[0]};
      if s.attached {
        SingletonSorted(s.attachedIPs, s.desiredIPs[0]);
      }
    }
  }

  /** One network done right: it may stay as it is, or be attached afresh with its one address. */
  lemma AttachedAfresh(ipam: map<IpId, NetworkId>, before: map<NetworkId, seq<IpId>>, after: map<NetworkId, seq<IpId>>,
                       requested: set<IpId>, pn: NetworkId, s: Status)
    requires Reflects(s, before, pn) && Lists(s.desiredIPs, Wanted(ipam, requested, pn)) && |s.desiredIPs| <= 1
    requires !InPlace(s) && pn in after && (s.desiredIPs != [] ==> after[pn] == s.desiredIPs)
    ensures AttachedAs(ipam, before, after, requested, pn)
  {
    if s.desiredIPs != [] {
      assert s.desiredIPs == [s.desiredIPs[0]];
      assert Wanted(ipam, requested, pn) == {s.desiredIPs[0]};
    } else {
      assert Wanted(ipam, requested, pn) == {};
    }
  }

  /** What phase 4 knows of each network. */
  ghost predicate Ready(ipam: map<IpId, NetworkId>, requested: set<IpId>, nics: map<NetworkId, seq<IpId>>,
                        status: map<NetworkId, Status>)
  {
    forall pn | pn in status ::
          Reflects(status[pn], nics, pn) && Lists(status[pn].desiredIPs, Wanted(ipam, requested, pn))
  }

  /** One network's turn in phase 4. */
  method ReattachOne(net: Networks, pn: NetworkId, s: Status, ghost requested: set<IpId>) returns (ok: bool)
    requires net.Valid() && Reflects(s, net.nics, pn)
    requires Lists(s.desiredIPs, Wanted(net.ipam, requested, pn)) && |s.desiredIPs| <= 1
    modifies net
    ensures net.Valid() && net.calls >= old(net.calls) && net.outages >= old(net.outages)
    ensures ok <==> net.outages == old(net.outages)
    ensures OnlyAt(old(net.nics), net.nics, pn)
    ensures ok ==> pn in net.nics && AttachedAs(net.ipam, old(net.nics), net.nics, requested, pn)
    ensures net.calls == old(net.calls) <==> InPlace(s)
    ensures InPlace(s) ==> net.nics == old(net.nics)
    ensures ok && !InPlace(s) && s.desiredIPs != [] ==> net.nics[pn] == s.desiredIPs
  {
    InPlaceMeansAttached(net.ipam, net.nics, requested, pn, s);
    if s.attached {
      if s.desiredIPs == [] || Sort(s.attachedIPs) == Sort(s.desiredIPs) {
        return true;
      }
      ok := net.DetachPrivateNetwork(pn);
      if !ok {
        return;
      }
    }
    ok := net.AttachPrivateNetwork(pn, s.desiredIPs);
    if ok {
      AttachedAfresh(net.ipam, old(net.nics), net.nics, requested, pn, s);
    }
  }

  /** What a network holds: the addresses listed or asked for, or whatever the API booked itself. */
  datatype Held = Listed(ips: seq<IpId>) | Booked

  ghost function AllListed(nics: map<NetworkId, seq<IpId>>): map<NetworkId, Held> {
    map pn | pn in nics :: Listed(nics[pn])
  }

  ghost predicate Realises(held: map<NetworkId, Held>, nics: map<NetworkId, seq<IpId>>) {
    held.Keys == nics.Keys && forall pn | pn in held && held[pn].Listed? :: nics[pn] == held[pn].ips
  }

  /** What attaching a network afresh leaves it holding. */
  function Afresh(s: Status): Held {
    if s.desiredIPs == [] then Booked else Listed(s.desiredIPs)
  }

  /** Phase 4 over the networks in a given order, when no call fails: it stops at the first network that
      is asked for several addresses, attaches the ones not in place, and leaves the others alone. */
  ghost function Visited(status: map<NetworkId, Status>, order: seq<NetworkId>,
                         held: map<NetworkId, Held>): map<NetworkId, Held>
  {
    if order == [] || order[0] !in status || |status[order[0]].desiredIPs| > 1 then held
    else
      var s := status[order[0]];
      Visited(status, order[1..], if InPlace(s) then held else held[order[0] := Afresh(s)])
  }

  lemma VisitedStep(status: map<NetworkId, Status>, order: seq<NetworkId>, i: nat, held: map<NetworkId, Held>)
    requires i < |order| && order[i] in status
    ensures var s := status[order[i]];
            Visited(status, order[i..], held) ==
            if |s.desiredIPs| > 1 then held
            else Visited(status, order[i + 1..], if InPlace(s) then held else held[order[i] := Afresh(s)])
  {
    hide InPlace;
    assert order[i..][1..] == order[i + 1..];
  }

  lemma RealisesStep(held: map<NetworkId, Held>, before: map<NetworkId, seq<IpId>>, after: map<NetworkId, seq<IpId>>,
                     pn: NetworkId, s: Status)
    requires Realises(held, before) && OnlyAt(before, after, pn) && pn in after
    requires s.desiredIPs != [] ==> after[pn] == s.desiredIPs
    ensures Realises(held[pn := Afresh(s)], after)
  {
  }

  /** The order in which a map happens to be iterated. */
  method InSomeOrder(keys: set<NetworkId>) returns (order: seq<NetworkId>)
    ensures Lists(order, keys)
  {
    order := [];
    var rest := keys;
    while exists pn :: pn in rest
      invariant rest <= keys && Lists(order, keys - rest)
      decreases rest
    {
      var pn :| pn in rest;
      order := order + [pn];
      rest := rest - {pn};
    }
  }

  lemma TurnsLeft(order: seq<NetworkId>, i: nat, rest: set<NetworkId>)
    requires i < |order| && NoDuplicates(order) && forall pn :: pn in rest <==> pn in order[i..]
    ensures order[i] in rest && forall pn :: pn in rest - {order[i]} <==> pn in order[i + 1..]
  {
    assert order[i..] == [order[i]] + order[i + 1..];
  }

  /** Phase 4: attach, or detach and reattach, network by network in the order given. */
  method Reattach(net: Networks, status: map<NetworkId, Status>, order: seq<NetworkId>, ghost requested: set<IpId>)
    returns (r: Result<(), Error>)
    requires net.Valid() && Ready(net.ipam, requested, net.nics, status) && Lists(order, status.Keys)
    modifies net
    ensures net.Valid() && net.calls >= old(net.calls) && net.outages >= old(net.outages)
    ensures r.Err? && r.error == Unavailable <==> net.outages != old(net.outages)
    ensures r.Ok? ==> Unambiguous(status) && net.nics.Keys == old(net.nics).Keys + status.Keys
    ensures r.Ok? ==> forall pn | pn in status && pn in net.nics ::
              AttachedAs(net.ipam, old(net.nics), net.nics, requested, pn)
    ensures r.Err? && r.error != Unavailable ==> r.error == TooMany && !Unambiguous(status)
    ensures Kept(old(net.nics), net.nics, status) && old(net.nics).Keys - status.Keys <= net.nics.Keys
    ensures (forall pn | pn in status :: InPlace(status[pn])) ==> net.calls == old(net.calls)
    ensures net.calls == old(net.calls) ==> net.nics == old(net.nics)
    ensures net.outages == old(net.outages) ==> Realises(Visited(status, order, AllListed(old(net.nics))), net.nics)
  {
    hide Phase4, Reflects, Lists, InPlace, Visited, Realises;
    ghost var before := net.nics;
    ghost var rest, held := status.Keys, AllListed(net.nics);
    Phase4Starts(net.ipam, before, requested, status);
    AllTurnsLeft(order, status.Keys, before);
    for i := 0 to |order|
      invariant rest <= status.Keys && forall pn :: pn in rest <==> pn in order[i..]
      invariant net.Valid() && net.calls >= old(net.calls) && net.outages == old(net.outages)
      invariant Phase4(net.ipam, before, net.nics, requested, status, rest)
      invariant (forall pn | pn in status :: InPlace(status[pn])) ==> net.calls == old(net.calls)
      invariant net.calls == old(net.calls) ==> net.nics == before
      invariant Realises(held, net.nics)
                && Visited(status, order, AllListed(before)) == Visited(status, order[i..], held)
    {
      var pn := order[i];
      TurnsLeft(order, i, rest);
      VisitedStep(status, order, i, held);
      ghost var mid := net.nics;
      if |status[pn].desiredIPs| > 1 {
        Phase4Frame(net.ipam, before, mid, mid, requested, status, rest, pn);
        return Err(TooMany);
      }
      Phase4Turn(net.ipam, before, mid, requested, status, rest, pn);
      var ok := ReattachOne(net, pn, status[pn], requested);
      if !ok {
        Phase4Frame(net.ipam, before, mid, net.nics, requested, status, rest, pn);
        return Err(Unavailable);
      }
      Phase4Step(net.ipam, before, mid, net.nics, requested, status, rest, pn);
      if !InPlace(status[pn]) {
        RealisesStep(held, mid, net.nics, pn, status[pn]);
        held := held[pn := Afresh(status[pn])];
      }
      rest := rest - {pn};
    }
    AllVisited(status, order, held);
    assert rest == {};
    Phase4Ends(net.ipam, before, net.nics, requested, status);
    return Ok(());
  }

  lemma AllTurnsLeft(order: seq<NetworkId>, keys: set<NetworkId>, nics: map<NetworkId, seq<IpId>>)
    requires Lists(order, keys)
    ensures order[0..] == order && NoDuplicates(order) && forall pn :: pn in keys <==> pn in order
    ensures Realises(AllListed(nics), nics)
  {
  }

  lemma AllVisited(status: map<NetworkId, Status>, order: seq<NetworkId>, held: map<NetworkId, Held>)
    ensures Visited(status, order[|order|..], held) == held
  {
  }

  // ---- Whether the order matters ----

  /** Every order of visiting the networks leaves the same behind. */
  ghost predicate AnyOrder(status: map<NetworkId, Status>, held: map<NetworkId, Held>) {
    forall o, o' | Lists(o, status.Keys) && Lists(o', status.Keys) ::
          Visited(status, o, held) == Visited(status, o', held)
  }

  /** Every network not asked for several addresses is already as it should be. */
  predicate NothingToAttach(status: map<NetworkId, Status>) {
    forall pn | pn in status && |status[pn].desiredIPs| <= 1 :: InPlace(status[pn])
  }

  /** With no network asked for several addresses, what is left behind is read off the statuses. */
  lemma {:induction false} VisitedUnambiguous(status: map<NetworkId, Status>, order: seq<NetworkId>,
                                              held: map<NetworkId, Held>, pn: NetworkId)
    requires Unambiguous(status) && NoDuplicates(order) && forall q | q in order :: q in status
    ensures var v, mine := Visited(status, order, held), pn in order && !InPlace(status[pn]);
            (pn in v <==> pn in held || mine) && (pn in v ==> v[pn] == if mine then Afresh(status[pn]) else held[pn])
  {
    hide InPlace;
    if order != [] {
      var s := status[order[0]];
      var held' := if InPlace(s) then held else held[order[0] := Afresh(s)];
      assert order == [order[0]] + order[1..];
      assert order[0] !in order[1..];
      VisitedUnambiguous(status, order[1..], held', pn);
    }
  }

  lemma {:induction false} VisitedInPlace(status: map<NetworkId, Status>, order: seq<NetworkId>,
                                          held: map<NetworkId, Held>)
    requires NothingToAttach(status)
    ensures Visited(status, order, held) == held
  {
    hide InPlace;
    if order != [] && order[0] in status {
      VisitedInPlace(status, order[1..], held);
    }
  }

  /** Any two elements of a finite set may come first in a listing of it. */
  lemma {:induction false} SomeListing(s: set<string>) returns (xs: seq<string>)
    ensures Lists(xs, s)
    decreases s
  {
    if s == {} {
      xs := [];
    } else {
      var x :| x in s;
      var rest := SomeListing(s - {x});
      xs := [x] + rest;
    }
  }

  lemma ListingFrom(s: set<string>, a: string, b: string) returns (xs: seq<string>)
    requires a in s && b in s && a != b
    ensures Lists(xs, s) && |xs| >= 2 && xs[0] == a && xs[1] == b
  {
    var rest := SomeListing(s - {a, b});
    xs := [a, b] + rest;
  }

  /** Visiting an ambiguous network first changes nothing; visiting it second, what the first needed. */
  lemma OneBeforeTheOther(status: map<NetworkId, Status>, order: seq<NetworkId>, held: map<NetworkId, Held>)
    requires |order| >= 2 && order[0] in status && order[1] in status
    requires |status[order[0]].desiredIPs| > 1 || |status[order[1]].desiredIPs| > 1
    ensures Visited(status, order, held) ==
            var s := status[order[0]];
            if |s.desiredIPs| > 1 || InPlace(s) then held else held[order[0] := Afresh(s)]
  {
    hide InPlace;
    var s := status[order[0]];
    if |s.desiredIPs| <= 1 {
      var held' := if InPlace(s) then held else held[order[0] := Afresh(s)];
      assert order[1..][0] == order[1];
      assert Visited(status, order[1..], held') == held';
    }
  }

  /** A network not in place does not hold what attaching it afresh leaves it holding. */
  lemma AfreshDiffers(s: Status, nics: map<NetworkId, seq<IpId>>, pn: NetworkId)
    requires Reflects(s, nics, pn) && !InPlace(s)
    ensures AllListed(nics)[pn := Afresh(s)] != AllListed(nics)
  {
    if pn in nics {
      assert s.desiredIPs != s.attachedIPs;
      assert AllListed(nics)[pn] == Listed(s.attachedIPs);
    } else {
      assert pn in AllListed(nics)[pn := Afresh(s)];
    }
  }

  /** What phase 4 leaves attached when no call fails is the same for every order of visiting the networks
      exactly when no network is asked for several addresses, or every other one is in place already:
      both known before it starts.  What the API books itself is left open either way. */
  lemma OrderMatters(ipam: map<IpId, NetworkId>, requested: set<IpId>, nics: map<NetworkId, seq<IpId>>,
                     status: map<NetworkId, Status>)
    requires Ready(ipam, requested, nics, status)
    ensures AnyOrder(status, AllListed(nics)) <==> Unambiguous(status) || NothingToAttach(status)
  {
    hide Visited, InPlace, Lists, Reflects;
    var held := AllListed(nics);
    if Unambiguous(status) {
      forall o, o' | Lists(o, status.Keys) && Lists(o', status.Keys)
          ensures Visited(status, o, held) == Visited(status, o', held)
      {
        AnyOrderUnambiguous(status, o, o', held);
      }
    } else if NothingToAttach(status) {
      forall o, o' | Lists(o, status.Keys) && Lists(o', status.Keys)
          ensures Visited(status, o, held) == Visited(status, o', held)
      {
        VisitedInPlace(status, o, held);
        VisitedInPlace(status, o', held);
      }
    } else {
      var a :| a in status && |status[a].desiredIPs| > 1;
      var b :| b in status && |status[b].desiredIPs| <= 1 && !InPlace(status[b]);
      var o := ListingFrom(status.Keys, a, b);
      var o' := ListingFrom(status.Keys, b, a);
      OneBeforeTheOther(status, o, held);
      OneBeforeTheOther(status, o', held);
      AfreshDiffers(status[b], nics, b);
    }
  }

  lemma AnyOrderUnambiguous(status: map<NetworkId, Status>, o: seq<NetworkId>, o': seq<NetworkId>,
                            held: map<NetworkId, Held>)
    requires Unambiguous(status) && Lists(o, status.Keys) && Lists(o', status.Keys)
    ensures Visited(status, o, held) == Visited(status, o', held)
  {
    hide Visited, InPlace, Unambiguous;
    var v, v' := Visited(status, o, held), Visited(status, o', held);
    forall pn ensures (pn in v <==> pn in v') && (pn in v ==> v[pn] == v'[pn]) {
      VisitedUnambiguous(status, o, held, pn);
      VisitedUnambiguous(status, o', held, pn);
    }
  }

  /** Two addresses asked for in network "a", one in network "b", neither attached: "b" ends up attached
      if it is visited first, and unattached otherwise. */
  lemma OrderMattersExample()
    ensures var ipam := map["x" := "a", "y" := "a", "z" := "b"];
            var status := map["a" := Status(false, [], ["x", "y"]), "b" := Status(false, [], ["z"])];
            && Ready(ipam, {"x", "y", "z"}, map[], status)
            && Lists(["a", "b"], status.Keys) && Visited(status, ["a", "b"], map[]) == map[]
            && Lists(["b", "a"], status.Keys) && Visited(status, ["b", "a"], map[]) == map["b" := Listed(["z"])]
  {
    var status := map["a" := Status(false, [], ["x", "y"]), "b" := Status(false, [], ["z"])];
    OneBeforeTheOther(status, ["a", "b"], map[]);
    OneBeforeTheOther(status, ["b", "a"], map[]);
  }

  /** Phase 4 under way: the networks in `rest` are still as they were. */
  ghost predicate Phase4(ipam: map<IpId, NetworkId>, before: map<NetworkId, seq<IpId>>, now: map<NetworkId, seq<IpId>>,
                         requested: set<IpId>, status: map<NetworkId, Status>, rest: set<NetworkId>)
  {
    && now.Keys == before.Keys + (status.Keys - rest)
    && (forall pn | pn in status && pn !in rest :: |status[pn].desiredIPs| <= 1)
    && (forall pn | pn in status && pn !in rest && pn in now :: AttachedAs(ipam, before, now, requested, pn))
    && (forall pn | pn in now && (pn !in status || pn in rest) :: pn in before && now[pn] == before[pn])
  }

  lemma Phase4Starts(ipam: map<IpId, NetworkId>, before: map<NetworkId, seq<IpId>>, requested: set<IpId>,
                     status: map<NetworkId, Status>)
    ensures Phase4(ipam, before, before, requested, status, status.Keys)
  {
  }

  lemma Phase4Turn(ipam: map<IpId, NetworkId>, before: map<NetworkId, seq<IpId>>, now: map<NetworkId, seq<IpId>>,
                   requested: set<IpId>, status: map<NetworkId, Status>, rest: set<NetworkId>, pn: NetworkId)
    requires Phase4(ipam, before, now, requested, status, rest) && Ready(ipam, requested, before, status)
    requires pn in rest && pn in status
    ensures Reflects(status[pn], now, pn) && Lists(status[pn].desiredIPs, Wanted(ipam, requested, pn))
  {
    hide Lists, AttachedAs;
  }

  ghost predicate OnlyAt(before: map<NetworkId, seq<IpId>>, after: map<NetworkId, seq<IpId>>, pn: NetworkId) {
    forall q | q != pn :: (q in after <==> q in before) && (q in after ==> after[q] == before[q])
  }

  lemma Phase4Step(ipam: map<IpId, NetworkId>, before: map<NetworkId, seq<IpId>>, mid: map<NetworkId, seq<IpId>>,
                   now: map<NetworkId, seq<IpId>>,
                   requested: set<IpId>, status: map<NetworkId, Status>, rest: set<NetworkId>, pn: NetworkId)
    requires Phase4(ipam, before, mid, requested, status, rest) && OnlyAt(mid, now, pn)
    requires pn in rest && pn in status && |status[pn].desiredIPs| <= 1
    requires pn in now && AttachedAs(ipam, mid, now, requested, pn)
    ensures Phase4(ipam, before, now, requested, status, rest - {pn})
  {
    hide AttachedAs;
    AttachedSince(ipam, before, mid, now, requested, pn);
    forall q | q in status && q !in rest && q in now ensures AttachedAs(ipam, before, now, requested, q) {
      AttachedStill(ipam, before, mid, now, requested, q);
    }
  }

  lemma Phase4Frame(ipam: map<IpId, NetworkId>, before: map<NetworkId, seq<IpId>>, mid: map<NetworkId, seq<IpId>>,
                    now: map<NetworkId, seq<IpId>>,
                    requested: set<IpId>, status: map<NetworkId, Status>, rest: set<NetworkId>, pn: NetworkId)
    requires Phase4(ipam, before, mid, requested, status, rest) && OnlyAt(mid, now, pn)
    requires pn in rest && pn in status && (|status[pn].desiredIPs| <= 1 || now == mid)
    ensures Kept(before, now, status) && before.Keys - status.Keys <= now.Keys
  {
    assert forall q | q in before && q !in status :: q in mid && q in now;
  }

  lemma Phase4Ends(ipam: map<IpId, NetworkId>, before: map<NetworkId, seq<IpId>>, now: map<NetworkId, seq<IpId>>,
                   requested: set<IpId>, status: map<NetworkId, Status>)
    requires Phase4(ipam, before, now, requested, status, {})
    ensures Unambiguous(status) && now.Keys == before.Keys + status.Keys && Kept(before, now, status)
    ensures forall pn | pn in status && pn in now :: AttachedAs(ipam, before, now, requested, pn)
  {
    hide AttachedAs;
  }

  /** Networks not asked for, and those asked for too many addresses, are left alone. */
  ghost predicate Kept(before: map<NetworkId, seq<IpId>>, after: map<NetworkId, seq<IpId>>,
                       status: map<NetworkId, Status>)
  {
    forall pn | pn in after && (pn !in status || |status[pn].desiredIPs| > 1) :: pn in before && after[pn] == before[pn]
  }

  lemma AttachedSince(ipam: map<IpId, NetworkId>, before: map<NetworkId, seq<IpId>>, mid: map<NetworkId, seq<IpId>>,
                      after: map<NetworkId, seq<IpId>>, requested: set<IpId>, pn: NetworkId)
    requires pn in after && AttachedAs(ipam, mid, after, requested, pn)
    requires pn in before ==> pn in mid && mid[pn] == before[pn]
    ensures AttachedAs(ipam, before, after, requested, pn)
  {
  }

  lemma AttachedStill(ipam: map<IpId, NetworkId>, before: map<NetworkId, seq<IpId>>, mid: map<NetworkId, seq<IpId>>,
                      after: map<NetworkId, seq<IpId>>, requested: set<IpId>, pn: NetworkId)
    requires pn in mid && pn in after && after[pn] == mid[pn] && AttachedAs(ipam, before, mid, requested, pn)
    ensures AttachedAs(ipam, before, after, requested, pn)
  {
  }

  // ---- The whole ----

  lemma ReadyForPhase4(ipam: map<IpId, NetworkId>, before: map<NetworkId, seq<IpId>>, networks: set<NetworkId>,
                       requested: set<IpId>,
                       externallyManaged: bool, status0: map<NetworkId, Status>, status1: map<NetworkId, Status>,
                           status2: map<NetworkId, Status>)
    requires Surveys(status0, before, networks) && SameAttachments(status0, status1)
             && SameAttachments(status1, status2)
    requires Conserved(ipam, requested, {}, status2)
    ensures Ready(ipam, requested, Trimmed(before, networks, externallyManaged), status2)
  {
    hide Lists, Conserved;
    forall pn | pn in status2 ensures Reflects(status2[pn], Trimmed(before, networks, externallyManaged), pn) {
      assert status0[pn] == Surveyed(before, pn);
    }
    forall pn | pn in status2 ensures Lists(status2[pn].desiredIPs, Wanted(ipam, requested, pn)) {
      Resolved(ipam, requested, status2, pn);
    }
  }

  lemma SurveyedPlaced(net: Networks, before: map<NetworkId, seq<IpId>>, status: map<NetworkId, Status>,
                       networks: set<NetworkId>)
    requires forall pn | pn in before :: net.ValidNic(pn, before[pn])
    requires Surveys(status, before, networks)
    ensures Placed(net.ipam, status) && forall pn | pn in status :: status[pn].desiredIPs == []
  {
    forall pn | pn in status ensures status[pn] == Surveyed(before, pn) {
    }
  }

  /** A requested address that IPAM does not place in any of the networks stays open to the end. */
  lemma OpenMeansMissing(ipam: map<IpId, NetworkId>, requested: set<IpId>, open: set<IpId>,
                         status: map<NetworkId, Status>)
    requires Conserved(ipam, requested, open, status)
    requires forall ip | ip in open :: ip !in ipam || ipam[ip] !in status
    ensures open == {} <==> AllFound(ipam, requested, status.Keys)
  {
    if AllFound(ipam, requested, status.Keys) {
      forall ip ensures ip !in open {
      }
    }
    if open == {} {
      forall ip | ip in requested ensures Claimed(ipam, status, ip) {
        assert ip !in open;
      }
    }
  }

  ghost predicate AllFound(ipam: map<IpId, NetworkId>, requested: set<IpId>, networks: set<NetworkId>) {
    forall ip | ip in requested :: ip in ipam && ipam[ip] in networks
  }

  /** On a settled load balancer every requested address is already attached. */
  lemma SettledAllAttached(ipam: map<IpId, NetworkId>, nics: map<NetworkId, seq<IpId>>, networks: set<NetworkId>,
                           requested: set<IpId>,
                           externallyManaged: bool, status0: map<NetworkId, Status>, status: map<NetworkId, Status>,
                               open: set<IpId>)
    requires Settled(ipam, nics, networks, requested, externallyManaged)
    requires Surveys(status0, nics, networks) && SameAttachments(status0, status)
             && Conserved(ipam, requested, open, status)
    requires forall pn | pn in status :: forall ip | ip in status[pn].attachedIPs :: ip !in open
    ensures open == {}
  {
    forall ip ensures ip !in open {
      if ip in requested {
        var pn := ipam[ip];
        assert ip in Wanted(ipam, requested, pn);
        assert pn in nics && AttachedAs(ipam, nics, nics, requested, pn);
        assert status0[pn] == Surveyed(nics, pn);
        assert status[pn].attachedIPs == nics[pn];
        assert ip == nics[pn][0];
      }
    }
  }

  lemma SettledInPlace(ipam: map<IpId, NetworkId>, nics: map<NetworkId, seq<IpId>>, networks: set<NetworkId>,
                       requested: set<IpId>,
                       externallyManaged: bool, status: map<NetworkId, Status>)
    requires Settled(ipam, nics, networks, requested, externallyManaged)
    requires status.Keys == networks && Ready(ipam, requested, nics, status) && Unambiguous(status)
    ensures forall pn | pn in status :: InPlace(status[pn])
  {
    hide Lists, AttachedAs, InPlace;
    forall pn | pn in status ensures InPlace(status[pn]) {
      InPlaceMeansAttached(ipam, nics, requested, pn, status[pn]);
    }
  }

  /** The final attachments, measured against what phase 4 started from, answer the request. */
  lemma ReattachedIsAttached(ipam: map<IpId, NetworkId>, before: map<NetworkId, seq<IpId>>,
                             after: map<NetworkId, seq<IpId>>,
                             networks: set<NetworkId>, requested: set<IpId>, externallyManaged: bool,
                                 status: map<NetworkId, Status>)
    requires status.Keys == networks
    requires var mid := Trimmed(before, networks, externallyManaged);
             && after.Keys == mid.Keys + networks && Kept(mid, after, status)
             && forall pn | pn in networks && pn in after :: AttachedAs(ipam, mid, after, requested, pn)
    ensures Attached(ipam, before, after, networks, requested, externallyManaged)
  {
    hide AttachedAs;
    var mid := Trimmed(before, networks, externallyManaged);
    forall pn | pn in networks && pn in after ensures AttachedAs(ipam, before, after, requested, pn) {
      AttachedSince(ipam, before, mid, after, requested, pn);
    }
  }

  lemma AttachedIsSettled(ipam: map<IpId, NetworkId>, before: map<NetworkId, seq<IpId>>,
                          after: map<NetworkId, seq<IpId>>,
                          networks: set<NetworkId>, requested: set<IpId>, externallyManaged: bool)
    requires Satisfiable(ipam, networks, requested)
             && Attached(ipam, before, after, networks, requested, externallyManaged)
    ensures Settled(ipam, after, networks, requested, externallyManaged)
  {
    hide Satisfiable;
    forall pn | pn in networks && pn in after ensures AttachedAs(ipam, after, after, requested, pn) {
      assert AttachedAs(ipam, before, after, requested, pn);
    }
  }

  /** Which networks are attached in the end, and with which addresses. */
  lemma AttachedMeans(ipam: map<IpId, NetworkId>, before: map<NetworkId, seq<IpId>>,
                      after: map<NetworkId, seq<IpId>>,
                      networks: set<NetworkId>, requested: set<IpId>, externallyManaged: bool)
    requires Attached(ipam, before, after, networks, requested, externallyManaged)
    requires Satisfiable(ipam, networks, requested)
    ensures after.Keys == if externallyManaged then before.Keys + networks else networks
    ensures forall ip | ip in requested :: ip in ipam && ipam[ip] in after && after[ipam[ip]] == [ip]
    ensures forall pn | pn in before && pn in after && (forall ip | ip in requested && ip in ipam :: ipam[ip] != pn) ::
              after[pn] == before[pn]
  {
    forall ip | ip in requested ensures ipam[ip] in after && after[ipam[ip]] == [ip] {
      assert AttachedAs(ipam, before, after, requested, ipam[ip]);
      assert ip in Wanted(ipam, requested, ipam[ip]);
    }
    forall pn | pn in before && pn in after && (forall ip | ip in requested && ip in ipam :: ipam[ip] != pn)
        ensures after[pn] == before[pn]
    {
      if pn in networks {
        assert AttachedAs(ipam, before, after, requested, pn);
        assert Wanted(ipam, requested, pn) == {};
      }
    }
  }

  /** There is nothing to do exactly when the right networks are attached and every requested address is the
      only one of its network. */
  lemma SettledMeans(ipam: map<IpId, NetworkId>, nics: map<NetworkId, seq<IpId>>, networks: set<NetworkId>,
                     requested: set<IpId>, externallyManaged: bool)
    ensures Settled(ipam, nics, networks, requested, externallyManaged) <==>
            && (if externallyManaged then networks <= nics.Keys else nics.Keys == networks)
            && forall ip | ip in requested ::
                 ip in ipam && ipam[ip] in networks && ipam[ip] in nics && nics[ipam[ip]] == [ip]
  {
    if Settled(ipam, nics, networks, requested, externallyManaged) {
      AttachedMeans(ipam, nics, nics, networks, requested, externallyManaged);
    }
    if && (if externallyManaged then networks <= nics.Keys else nics.Keys == networks)
       && forall ip | ip in requested ::
            ip in ipam && ipam[ip] in networks && ipam[ip] in nics && nics[ipam[ip]] == [ip]
    {
      forall ip, ip' | ip in requested && ip' in requested && ipam[ip] == ipam[ip'] ensures ip == ip' {
        assert [ip][0] == [ip'][0];
      }
      forall pn | pn in networks ensures AttachedAs(ipam, nics, nics, requested, pn) {
        var wanted := Wanted(ipam, requested, pn);
        if wanted != {} {
          var ip :| ip in wanted;
          assert nics[pn] == [ip];
        }
      }
    }
  }

  lemma SatisfiableAllFound(ipam: map<IpId, NetworkId>, requested: set<IpId>, networks: set<NetworkId>)
    requires Satisfiable(ipam, networks, requested)
    ensures AllFound(ipam, requested, networks)
  {
  }

  lemma SettledUntrimmed(ipam: map<IpId, NetworkId>, nics: map<NetworkId, seq<IpId>>, networks: set<NetworkId>,
                         requested: set<IpId>, externallyManaged: bool)
    requires Settled(ipam, nics, networks, requested, externallyManaged)
    ensures externallyManaged || nics.Keys <= networks
  {
  }

  lemma Untrimmed(nics: map<NetworkId, seq<IpId>>, networks: set<NetworkId>, externallyManaged: bool)
    requires externallyManaged || nics.Keys <= networks
    ensures Trimmed(nics, networks, externallyManaged) == nics
  {
  }

  lemma KeysStay(before: map<NetworkId, seq<IpId>>, networks: set<NetworkId>, status0: map<NetworkId, Status>,
                 status1: map<NetworkId, Status>, status2: map<NetworkId, Status>)
    requires Surveys(status0, before, networks) && SameAttachments(status0, status1)
             && SameAttachments(status1, status2)
    ensures status0.Keys == status1.Keys == status2.Keys == networks
  {
  }

  lemma SameAttachmentsReflexive(status: map<NetworkId, Status>)
    ensures SameAttachments(status, status)
  {
  }

  /** What the addresses resolved so far say about the request. */
  lemma ResolvedMeans(ipam: map<IpId, NetworkId>, requested: set<IpId>, status: map<NetworkId, Status>,
                      networks: set<NetworkId>)
    requires Conserved(ipam, requested, {}, status) && status.Keys == networks
    ensures AllFound(ipam, requested, networks)
    ensures Unambiguous(status) <==> Satisfiable(ipam, networks, requested)
  {
    hide Conserved, Unambiguous, Satisfiable, AllFound;
    OpenMeansMissing(ipam, requested, {}, status);
    Conservation(ipam, requested, status);
  }

  /** A load balancer that was settled needs nothing in phase 4. */
  lemma SettledNeedsNothing(ipam: map<IpId, NetworkId>, before: map<NetworkId, seq<IpId>>, networks: set<NetworkId>,
                            requested: set<IpId>,
                            externallyManaged: bool, status: map<NetworkId, Status>)
    requires Settled(ipam, before, networks, requested, externallyManaged)
    requires status.Keys == networks && Ready(ipam, requested, Trimmed(before, networks, externallyManaged), status)
    requires Unambiguous(status) <==> Satisfiable(ipam, networks, requested)
    ensures forall pn | pn in status :: InPlace(status[pn])
  {
    hide Satisfiable, Attached, InPlace, Unambiguous, Ready, Trimmed;
    SettledUntrimmed(ipam, before, networks, requested, externallyManaged);
    Untrimmed(before, networks, externallyManaged);
    SettledInPlace(ipam, before, networks, requested, externallyManaged, status);
  }

  /** A quiet successful run leaves the attachments as they were. */
  lemma QuietMeansSame(before: map<NetworkId, seq<IpId>>, after: map<NetworkId, seq<IpId>>, networks: set<NetworkId>,
                       externallyManaged: bool)
    requires externallyManaged || before.Keys <= networks
    requires after == Trimmed(before, networks, externallyManaged)
    ensures after == before
  {
  }

  lemma SettledWhereItWas(ipam: map<IpId, NetworkId>, before: map<NetworkId, seq<IpId>>,
                          after: map<NetworkId, seq<IpId>>,
                          networks: set<NetworkId>, requested: set<IpId>, externallyManaged: bool)
    requires Settled(ipam, after, networks, requested, externallyManaged) && after == before
    ensures Settled(ipam, before, networks, requested, externallyManaged)
  {
  }

  ghost predicate OutsideKept(before: map<NetworkId, seq<IpId>>, after: map<NetworkId, seq<IpId>>,
                              networks: set<NetworkId>)
  {
    forall pn | pn !in networks :: (pn in after <==> pn in before) && (pn in after ==> after[pn] == before[pn])
  }

  lemma OutsideKeptReflexive(nics: map<NetworkId, seq<IpId>>, networks: set<NetworkId>)
    ensures OutsideKept(nics, nics, networks)
  {
  }

  lemma KeptOutside(before: map<NetworkId, seq<IpId>>, after: map<NetworkId, seq<IpId>>, status: map<NetworkId, Status>,
                    networks: set<NetworkId>)
    requires status.Keys == networks && Kept(before, after, status) && before.Keys - networks <= after.Keys
    ensures OutsideKept(before, after, networks)
  {
    forall pn | pn !in networks && pn in before ensures pn in after {
      assert pn in before.Keys - networks;
    }
  }

  /** Phases 2 to 4, from the surveyed statuses. */
  method Resolve(net: Networks, networks: set<NetworkId>, status0: map<NetworkId, Status>, requested: set<IpId>,
                 externallyManaged: bool,
                 ghost before: map<NetworkId, seq<IpId>>) returns (r: Result<(), Error>)
    requires net.Valid() && forall pn | pn in before :: net.ValidNic(pn, before[pn])
    requires networks != {} && Surveys(status0, before, networks)
             && net.nics == Trimmed(before, networks, externallyManaged)
    modifies net
    ensures net.Valid() && net.calls >= old(net.calls) && net.outages >= old(net.outages)
    ensures r == Err(Unavailable) <==> net.outages != old(net.outages)
    ensures r == Err(NotFound) ==> !AllFound(net.ipam, requested, networks)
    ensures r == Err(TooMany) ==> AllFound(net.ipam, requested, networks) && !Satisfiable(net.ipam, networks, requested)
    ensures r.Ok? ==>
              Satisfiable(net.ipam, networks, requested)
              && Attached(net.ipam, before, net.nics, networks, requested, externallyManaged)
    ensures Settled(net.ipam, before, networks, requested, externallyManaged) ==> net.calls == old(net.calls)
    ensures net.calls == old(net.calls) ==> net.nics == old(net.nics)
    ensures OutsideKept(old(net.nics), net.nics, networks)
  {
    hide *;
    SurveyedPlaced(net, before, status0, networks);
    var status, open := MatchAttached(status0, requested, net.ipam);
    ghost var status1 := status;
    if Settled(net.ipam, before, networks, requested, externallyManaged) {
      SettledAllAttached(net.ipam, before, networks, requested, externallyManaged, status0, status1, open);
    }
    SameAttachmentsReflexive(status1);
    KeysStay(before, networks, status0, status1, status1);
    OutsideKeptReflexive(net.nics, networks);
    if open != {} {
      var ok;
      ok, status, open := QueryIpam(net, status, open, requested);
      if !ok {
        return Err(Unavailable);
      }
      KeysStay(before, networks, status0, status1, status);
      OpenMeansMissing(net.ipam, requested, open, status);
      if open != {} {
        return Err(NotFound);
      }
    }
    ReadyForPhase4(net.ipam, before, networks, requested, externallyManaged, status0, status1, status);
    ResolvedMeans(net.ipam, requested, status, networks);
    if Settled(net.ipam, before, networks, requested, externallyManaged) {
      SettledNeedsNothing(net.ipam, before, networks, requested, externallyManaged, status);
    }
    ghost var mid := net.nics;
    var order := InSomeOrder(status.Keys);
    r := Reattach(net, status, order, requested);
    KeptOutside(mid, net.nics, status, networks);
    if r.Ok? {
      ReattachedIsAttached(net.ipam, before, net.nics, networks, requested, externallyManaged, status);
    }
  }

  /** The attachments of a load balancer, brought to what the service asks for.  Without failing
      calls the run succeeds exactly when the request can be met, whatever the order in which the
      networks are visited; success means exactly the desired networks and addresses; and a run
      makes no call that changes attachments or queries IPAM exactly when there is nothing to do. */
  method AttachPrivateNetworks(net: Networks, pnID: NetworkId, named: seq<NetworkId>, requested: set<IpId>,
                               externallyManaged: bool)
    returns (r: Result<(), Error>)
    requires net.Valid()
    modifies net
    ensures net.Valid() && net.calls >= old(net.calls)
    ensures pnID == "" ==> r == Ok(()) && net.nics == old(net.nics) && net.calls == old(net.calls)
    ensures r == Err(Unavailable) <==> net.outages != old(net.outages)
    ensures pnID != "" ==> var networks := DesiredNetworks(pnID, named, externallyManaged);
      && (r == Err(NotFound) ==> !AllFound(net.ipam, requested, networks))
      && (r == Err(TooMany) ==> AllFound(net.ipam, requested, networks) && !Satisfiable(net.ipam, networks, requested))
      && (r.Ok? ==> Satisfiable(net.ipam, networks, requested)
                    && Attached(net.ipam, old(net.nics), net.nics, networks, requested, externallyManaged)
                    && Settled(net.ipam, net.nics, networks, requested, externallyManaged))
      && (Settled(net.ipam, old(net.nics), networks, requested, externallyManaged) ==> net.calls == old(net.calls))
      && (r.Ok? && net.calls == old(net.calls) ==>
            Settled(net.ipam, old(net.nics), networks, requested, externallyManaged))
    ensures pnID != "" && r.Ok? ==>
              net.nics.Keys == if externallyManaged then old(net.nics).Keys + {pnID}
                               else if named == [] then {pnID} else set pn | pn in named
    ensures pnID != "" && r.Ok? ==>
              && (forall ip | ip in requested ::
                    ip in net.ipam && net.ipam[ip] in net.nics && net.nics[net.ipam[ip]] == [ip])
              && (forall pn | pn in old(net.nics) && pn in net.nics
                    && (forall ip | ip in requested && ip in net.ipam :: net.ipam[ip] != pn) ::
                    net.nics[pn] == old(net.nics)[pn])
    ensures externallyManaged ==> OutsideKept(old(net.nics), net.nics, {pnID})
  {
    hide Satisfiable, Attached, Settled, Surveys, AllFound, OutsideKept, Trimmed;
    if pnID == "" {
      OutsideKeptReflexive(net.nics, {pnID});
      return Ok(());
    }
    var networks := DesiredNetworks(pnID, named, externallyManaged);
    assert (if externallyManaged || named == [] then pnID else named[0]) in networks;
    ghost var before := net.nics;
    if Settled(net.ipam, before, networks, requested, externallyManaged) {
      SettledUntrimmed(net.ipam, before, networks, requested, externallyManaged);
    }
    if externallyManaged {
      OutsideKeptReflexive(before, networks);
    }
    var ok, status := Survey(net, networks, externallyManaged);
    if !ok {
      return Err(Unavailable);
    }
    if externallyManaged {
      Untrimmed(before, networks, externallyManaged);
    }
    r := Resolve(net, networks, status, requested, externallyManaged, before);
    if r.Ok? {
      AttachedIsSettled(net.ipam, before, net.nics, networks, requested, externallyManaged);
      AttachedMeans(net.ipam, before, net.nics, networks, requested, externallyManaged);
      if net.calls == old(net.calls) {
        QuietMeansSame(before, net.nics, networks, externallyManaged);
        SettledWhereItWas(net.ipam, before, net.nics, networks, requested, externallyManaged);
      }
    }
  }

  /** Two runs that succeed on the same attachments, whatever order each took, agree on which networks
      are attached and on every address that was asked for or was there before; they can differ only
      in what the API itself booked on a network newly attached without an address. */
  lemma OrderIndependent(ipam: map<IpId, NetworkId>, before: map<NetworkId, seq<IpId>>,
                         after: map<NetworkId, seq<IpId>>,
                         after': map<NetworkId, seq<IpId>>, networks: set<NetworkId>, requested: set<IpId>,
                             externallyManaged: bool)
    requires Attached(ipam, before, after, networks, requested, externallyManaged)
    requires Attached(ipam, before, after', networks, requested, externallyManaged)
    ensures after.Keys == after'.Keys
    ensures forall pn | pn in after :: pn in before || Wanted(ipam, requested, pn) != {} ==> after[pn] == after'[pn]
  {
    forall pn | pn in after && (pn in before || Wanted(ipam, requested, pn) != {}) ensures after[pn] == after'[pn] {
      assert pn in after';
      if pn in networks {
        assert AttachedAs(ipam, before, after, requested, pn) && AttachedAs(ipam, before, after', requested, pn);
        if Wanted(ipam, requested, pn) != {} {
          assert after[pn][0] in {after'[pn][0]};
          assert after[pn] == [after[pn][0]] && after'[pn] == [after'[pn][0]];
        }
      }
    }
  }

  /** After a successful run, a second one with the same service changes no attachment and queries
      no address: it makes no such call at all, and succeeds unless the listing itself fails. */
  method AttachTwice(net: Networks, pnID: NetworkId, named: seq<NetworkId>, requested: set<IpId>,
                     externallyManaged: bool)
    returns (first: Result<(), Error>, second: Result<(), Error>, ghost between: nat)
    requires net.Valid()
    modifies net
    ensures old(net.calls) <= between <= net.calls
    ensures first.Ok? ==> net.calls == between && (second.Ok? || second == Err(Unavailable))
  {
    first := AttachPrivateNetworks(net, pnID, named, requested, externallyManaged);
    between := net.calls;
    second := AttachPrivateNetworks(net, pnID, named, requested, externallyManaged);
    if Satisfiable(net.ipam, DesiredNetworks(pnID, named, externallyManaged), requested) {
      SatisfiableAllFound(net.ipam, requested, DesiredNetworks(pnID, named, externallyManaged));
    }
    assert second.Err? && second.error.Unavailable? ==> second == Err(Unavailable);
    assert second.Err? && second.error.NotFound? ==> second == Err(NotFound);
    assert second.Err? && second.error.TooMany? ==> second == Err(TooMany);
  }
}
