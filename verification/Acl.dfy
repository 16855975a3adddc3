/** scaleway/acl.go: compiling a whitelist into ACL rules, and comparing rule lists. */
module Acl {
  import opened Basics
  import opened Sorting

  datatype AddressKind = InternalIP | ExternalIP | OtherAddress
  datatype Address = Address(kind: AddressKind, ip: string)
  datatype Node = Node(addresses: seq<Address>)

  /** An entry of LoadBalancerSourceRanges; `parses` is the verdict of net.ParseCIDR on its text. */
  datatype Range = Range(text: string, parses: bool)

  datatype Action = Allow | Deny
  datatype Match = Match(subnets: Slice, invert: bool)
  datatype Rule = Rule(name: string, index: int, action: Option<Action>, match_: Option<Match>)

  const MAX_ENTRIES_PER_ACL: nat := 60
  const EVERYONE: seq<string> := ["0.0.0.0/0", "::/0"]

  /** extractNodesInternalIps and extractNodesExternalIps */
  function ExtractIps(nodes: seq<Node>, kind: AddressKind): seq<string> {
    if nodes == [] then [] else AddressIps(nodes[0].addresses, kind) + ExtractIps(nodes[1..], kind)
  }

  function AddressIps(addresses: seq<Address>, kind: AddressKind): seq<string> {
    if addresses == [] then []
    else (if addresses[0].kind == kind then [addresses[0].ip] else []) + AddressIps(addresses[1..], kind)
  }

  /** All addresses of the nodes, each as often as it occurs. */
  ghost function AllAddresses(nodes: seq<Node>): multiset<Address> {
    if nodes == [] then multiset{} else multiset(nodes[0].addresses) + AllAddresses(nodes[1..])
  }

  lemma ConsCount<T>(x: T, s: seq<T>, y: T)
    ensures multiset([x] + s)[y] == (if x == y then 1 else 0) + multiset(s)[y]
  {
  }

  lemma {:induction false} AddressIpsCount(addresses: seq<Address>, kind: AddressKind, x: string)
    ensures multiset(AddressIps(addresses, kind))[x] == multiset(addresses)[Address(kind, x)]
  {
    if addresses != [] {
      var a, rest := addresses[0], addresses[1..];
      AddressIpsCount(rest, kind, x);
      assert addresses == [a] + rest;
      ConsCount(a, rest, Address(kind, x));
      ConsCount(a.ip, AddressIps(rest, kind), x);
      assert [] + AddressIps(rest, kind) == AddressIps(rest, kind);
    }
  }

  /** Of every kind, each address is extracted as often as nodes have it. */
  lemma {:induction false} ExtractIpsCount(nodes: seq<Node>, kind: AddressKind, x: string)
    ensures multiset(ExtractIps(nodes, kind))[x] == AllAddresses(nodes)[Address(kind, x)]
  {
    if nodes != [] {
      ExtractIpsCount(nodes[1..], kind, x);
      AddressIpsCount(nodes[0].addresses, kind, x);
    }
  }

  function TrimHostSuffix(text: string): string {
    TrimSuffix(text, if ':' in text then "/128" else "/32")
  }

  /** A host length, "/32" for IPv4 and "/128" for IPv6, is cut off; anything else is listed as it is. */
  lemma TrimHostSuffixMeans(text: string)
    ensures forall x | ':' !in x && text == x + "/32" :: TrimHostSuffix(text) == x
    ensures forall x | ':' in x && text == x + "/128" :: TrimHostSuffix(text) == x
    ensures TrimHostSuffix(text) == text || text == TrimHostSuffix(text) + if ':' in text then "/128" else "/32"
    ensures ':' in TrimHostSuffix(text) <==> ':' in text
  {
    HasSuffixMeans(text, if ':' in text then "/128" else "/32");
    forall x | ':' !in x && text == x + "/32" ensures TrimHostSuffix(text) == x {
      assert x + "/32" == TrimHostSuffix(text) + "/32";
      assert (x + "/32")[..|x|] == x;
    }
    forall x | ':' in x && text == x + "/128" ensures TrimHostSuffix(text) == x {
      assert x + "/128" == TrimHostSuffix(text) + "/128";
      assert (x + "/128")[..|x|] == x;
    }
  }

  /** How a range is listed: without its host length, if it has one. */
  ghost predicate ListedAs(text: string, x: string) {
    var host := if ':' in text then "/128" else "/32";
    text == x + host || (text == x && forall y :: text != y + host)
  }

  lemma TrimIsListed(text: string, x: string)
    ensures ListedAs(text, x) <==> TrimHostSuffix(text) == x
  {
    var host := if ':' in text then "/128" else "/32";
    HasSuffixMeans(text, host);
    if text == x + host {
      assert (x + host)[..|x|] == x;
    }
  }

  function ValidRanges(ranges: seq<Range>): seq<string> {
    if ranges == [] then []
    else
      var init := ValidRanges(ranges[..|ranges| - 1]);
      var last := ranges[|ranges| - 1];
      if last.parses then init + [TrimHostSuffix(last.text)] else init
  }

  function Whitelist(ranges: seq<Range>, nodes: seq<Node>): seq<string> {
    ExtractIps(nodes, InternalIP) + ExtractIps(nodes, ExternalIP) + ValidRanges(ranges)
  }

  function AclPrefix(frontend: Id): string {
    Itoa(frontend) + "-lb-source-range"
  }

  function Chunks(s: seq<string>, size: nat): seq<seq<string>>
    requires size > 0
  {
    if s == [] then []
    else if |s| <= size then [s]
    else [s[..size]] + Chunks(s[size..], size)
  }

  function AllowRule(frontend: Id, index: nat, subnets: seq<string>): Rule {
    Rule(AclPrefix(frontend) + "-" + Itoa(index), index, Some(Allow), Some(Match(Items(subnets), false)))
  }

  function DenyRule(frontend: Id, index: nat): Rule {
    Rule(AclPrefix(frontend) + "-end", index, Some(Deny), Some(Match(Items(EVERYONE), false)))
  }

  /** The rule list makeACLSpecs emits. */
  function Specs(ranges: seq<Range>, nodes: seq<Node>, frontend: Id): seq<Rule> {
    if ranges == [] then []
    else
      RulesFor(Chunks(Sort(Whitelist(ranges, nodes)), MAX_ENTRIES_PER_ACL), frontend)
  }

  function RulesFor(chunks: seq<seq<string>>, frontend: Id): seq<Rule> {
    seq(|chunks|, i requires 0 <= i < |chunks| => AllowRule(frontend, i, chunks[i]))
    + [DenyRule(frontend, |chunks|)]
  }

  method ChunkArray(input: seq<string>, size: nat) returns (result: seq<seq<string>>)
    requires size > 0
    ensures result == Chunks(input, size)
  {
    hide Chunks;
    result := [];
    var rest := input;
    ChunksNone(size);
    while |rest| > 0
      invariant result + Chunks(rest, size) == Chunks(input, size)
      decreases |rest|
    {
      var n := if |rest| < size then |rest| else size;
      ChunksUnfold(rest, size);
      result := result + [rest[..n]];
      rest := rest[n..];
    }
  }

  lemma ChunksNone(size: nat)
    requires size > 0
    ensures Chunks([], size) == []
  {
  }

  lemma ChunksUnfold(s: seq<string>, size: nat)
    requires size > 0 && s != []
    ensures var n := if |s| < size then |s| else size;
            Chunks(s, size) == [s[..n]] + Chunks(s[n..], size)
  {
    if |s| <= size {
      assert s[..|s|] == s;
      assert s[|s|..] == [];
    }
  }

  /** A node has the address, inside or outside. */
  ghost predicate OnNode(nodes: seq<Node>, x: string) {
    exists n, a | n in nodes && a in n.addresses :: (a.kind == InternalIP || a.kind == ExternalIP) && a.ip == x
  }

  ghost predicate InRanges(ranges: seq<Range>, x: string) {
    exists r | r in ranges :: r.parses && ListedAs(r.text, x)
  }

  /** One of the rules before the last lists the entry. */
  ghost predicate InRules(specs: seq<Rule>, x: string) {
    exists i | 0 <= i < |specs| - 1 :: specs[i].match_.Some? && x in specs[i].match_.value.subnets.Elems()
  }

  /** The rules list the nodes' internal and external addresses and the ranges that parse, in rules that
      allow between 1 and 60 entries each, followed by one that denies everyone. */
  ghost predicate Compiles(specs: seq<Rule>, ranges: seq<Range>, nodes: seq<Node>, frontend: Id)
    requires specs != []
  {
    && Numbered(specs, frontend)
    && forall x :: InRules(specs, x) <==> OnNode(nodes, x) || InRanges(ranges, x)
  }

  ghost predicate Numbered(specs: seq<Rule>, frontend: Id)
    requires specs != []
  {
    var k := |specs| - 1;
    && specs[k] == Rule(Itoa(frontend) + "-lb-source-range-end", k, Some(Deny),
                        Some(Match(Items(["0.0.0.0/0", "::/0"]), false)))
    && (forall i | 0 <= i < k :: Allows(specs[i], Itoa(frontend) + "-lb-source-range-" + Itoa(i), i))
  }

  ghost predicate Allows(rule: Rule, name: string, index: nat) {
    && rule.match_.Some? && rule.match_.value.subnets.Items?
    && rule == Rule(name, index, Some(Allow), Some(Match(rule.match_.value.subnets, false)))
    && 1 <= |rule.match_.value.subnets.list| <= 60
  }

  method MakeACLSpecs(ranges: seq<Range>, nodes: seq<Node>, frontend: Id) returns (specs: seq<Rule>)
    ensures specs == Specs(ranges, nodes, frontend)
    ensures ranges == [] <==> specs == []
    ensures ranges != [] ==> Compiles(specs, ranges, nodes, frontend)
  {
    if ranges != [] {
      SpecsCompile(ranges, nodes, frontend);
    }
    if |ranges| == 0 {
      return [];
    }
    var sourceRanges := SourceRanges(ranges);
    var whitelist := ExtractIps(nodes, InternalIP);
    whitelist := whitelist + ExtractIps(nodes, ExternalIP);
    whitelist := whitelist + sourceRanges;
    whitelist := Sort(whitelist);

    var chunks := ChunkArray(whitelist, MAX_ENTRIES_PER_ACL);
    specs := BuildRules(chunks, frontend);
  }

  method SourceRanges(ranges: seq<Range>) returns (sourceRanges: seq<string>)
    ensures sourceRanges == ValidRanges(ranges)
  {
    sourceRanges := [];
    for i := 0 to |ranges|
      invariant sourceRanges == ValidRanges(ranges[..i])
    {
      assert ranges[..i + 1][..i] == ranges[..i];
      if ranges[i].parses {
        sourceRanges := sourceRanges + [TrimHostSuffix(ranges[i].text)];
      }
    }
    assert ranges[..|ranges|] == ranges;
  }

  method BuildRules(chunks: seq<seq<string>>, frontend: Id) returns (specs: seq<Rule>)
    ensures specs == RulesFor(chunks, frontend)
  {
    var acls := new Rule[|chunks| + 1];
    for i := 0 to |chunks|
      invariant forall k | 0 <= k < i :: acls[k] == AllowRule(frontend, k, chunks[k])
    {
      acls[i] := AllowRule(frontend, i, chunks[i]);
    }
    acls[acls.Length - 1] := DenyRule(frontend, acls.Length - 1);
    specs := acls[..];
  }

  // ---- Shape of the emitted list ----

  function Flatten(chunks: seq<seq<string>>): seq<string> {
    if chunks == [] then [] else chunks[0] + Flatten(chunks[1..])
  }

  /** Chunking loses nothing, reorders nothing, makes ceil(n/size) non-empty chunks of at most
      `size` entries, all but the last of them full. */
  lemma {:induction false} ChunksPartition(s: seq<string>, size: nat)
    requires size > 0
    ensures Flatten(Chunks(s, size)) == s
    ensures |Chunks(s, size)| == (|s| + size - 1) / size
    ensures forall c | c in Chunks(s, size) :: 1 <= |c| <= size
    ensures forall i | 0 <= i < |Chunks(s, size)| - 1 :: |Chunks(s, size)[i]| == size
  {
    hide Flatten, Chunks;
    ChunksDefined(s, size);
    FlattenUnfold(Chunks(s, size));
    FlattenUnfold([]);
    if |s| <= size {
      CeilingSmall(|s|, size);
      assert [s][1..] == [] && s + [] == s;
    } else {
      CeilingStep(|s|, size);
      var rest := Chunks(s[size..], size);
      ChunksPartition(s[size..], size);
      assert ([s[..size]] + rest)[1..] == rest;
      assert s[..size] + s[size..] == s;
    }
  }

  lemma ChunksDefined(s: seq<string>, size: nat)
    requires size > 0
    ensures Chunks(s, size) == if s == [] then [] else if |s| <= size then [s]
            else [s[..size]] + Chunks(s[size..], size)
  {
  }

  lemma FlattenUnfold(chunks: seq<seq<string>>)
    ensures Flatten(chunks) == if chunks == [] then [] else chunks[0] + Flatten(chunks[1..])
  {
  }

  lemma CeilingSmall(n: nat, size: nat)
    requires n <= size && size > 0
    ensures (n + size - 1) / size == if n == 0 then 0 else 1
  {
    if n > 0 { assert n + size - 1 == size + (n - 1); }
  }

  lemma CeilingStep(n: nat, size: nat)
    requires size > 0 && n > size
    ensures (n + size - 1) / size == 1 + (n - size + size - 1) / size
  {
    DivStep(n - 1, size);
  }

  lemma DivStep(m: nat, size: nat)
    requires size > 0
    ensures (m + size) / size == 1 + m / size
  {
    var q, r := m / size, m % size;
    assert m + size == (q + 1) * size + r;
    DivUnique(m + size, size, q + 1, r);
  }

  lemma DivUnique(x: nat, size: nat, q: nat, r: nat)
    requires size > 0 && x == q * size + r && r < size
    ensures x / size == q
  {
    var d := x / size - q;
    assert d * size == r - x % size;
    MulAtLeast(d, size);
  }

  lemma MulAtLeast(d: int, size: nat)
    ensures d >= 1 ==> d * size >= size
    ensures d <= -1 ==> d * size <= 0 - size
  {
  }

  /** Indices are 0..k, the last rule denies everyone, and the k = ceil(n/60) others allow
      between 1 and 60 entries each; together they list the whole sorted whitelist. */
  lemma {:induction false} SpecsShape(ranges: seq<Range>, nodes: seq<Node>, frontend: Id)
    requires ranges != []
    ensures var specs := Specs(ranges, nodes, frontend);
            var n := |Whitelist(ranges, nodes)|;
            var k := |specs| - 1;
            && k == (n + 59) / 60
            && specs[k].action == Some(Deny) && specs[k].match_ == Some(Match(Items(EVERYONE), false))
            && (forall i | 0 <= i <= k :: specs[i].index == i)
            && (forall i | 0 <= i < k :: specs[i].action == Some(Allow) && specs[i].match_.Some?
                  && specs[i].match_.value.subnets.Items? && !specs[i].match_.value.invert
                  && 1 <= |specs[i].match_.value.subnets.list| <= 60)
            && Flatten(seq(k, i requires 0 <= i < k => specs[i].match_.value.subnets.list))
               == Sort(Whitelist(ranges, nodes))
  {
    hide Sort, Chunks, Flatten, RulesFor, Whitelist;
    var sorted := Sort(Whitelist(ranges, nodes));
    var chunks := Chunks(sorted, 60);
    SortedLength(Whitelist(ranges, nodes));
    ChunksPartition(sorted, 60);
    RulesShape(chunks, frontend);
    assert forall i | 0 <= i < |chunks| :: chunks[i] in chunks;
  }

  lemma SortedLength(s: seq<string>)
    ensures |Sort(s)| == |s|
  {
    hide Sort;
    SortSorts(s);
    assert |multiset(Sort(s))| == |multiset(s)|;
  }

  lemma {:induction false} RulesShape(chunks: seq<seq<string>>, frontend: Id)
    ensures var specs := RulesFor(chunks, frontend);
            var k := |chunks|;
            && |specs| == k + 1
            && specs[k].action == Some(Deny) && specs[k].match_ == Some(Match(Items(EVERYONE), false))
            && (forall i | 0 <= i <= k :: specs[i].index == i)
            && (forall i | 0 <= i < k ::
                  specs[i].action == Some(Allow) && specs[i].match_ == Some(Match(Items(chunks[i]), false)))
            && seq(k, i requires 0 <= i < k => specs[i].match_.value.subnets.list) == chunks
  {
  }

  // ---- Meaning ----

  predicate AnyCovers(entries: seq<string>, addr: string, covers: (string, string) -> bool) {
    exists i | 0 <= i < |entries| :: covers(entries[i], addr)
  }

  predicate Fires(rule: Rule, addr: string, covers: (string, string) -> bool) {
    rule.match_.Some? && AnyCovers(rule.match_.value.subnets.Elems(), addr, covers) != rule.match_.value.invert
  }

  /** How the load balancer applies a frontend's rules, given in increasing index order: the first
      rule that fires decides; without one the address is let through. */
  function FirstMatch(rules: seq<Rule>, addr: string, covers: (string, string) -> bool): Option<Action> {
    if rules == [] then Some(Allow)
    else if Fires(rules[0], addr, covers) then rules[0].action
    else FirstMatch(rules[1..], addr, covers)
  }

  /** A frontend's verdict on an address: rules are ranked by index whatever order they come in. */
  function Decide(rules: seq<Rule>, addr: string, covers: (string, string) -> bool): Option<Action> {
    FirstMatch(SortByIndex(rules), addr, covers)
  }

  /** Who the service means to admit. */
  ghost predicate Intended(ranges: seq<Range>, nodes: seq<Node>, addr: string, covers: (string, string) -> bool) {
    || (exists n, a | n in nodes && a in n.addresses ::
          (a.kind == InternalIP || a.kind == ExternalIP) && covers(a.ip, addr))
    || (exists r | r in ranges :: r.parses && covers(r.text, addr))
  }

  lemma {:induction false} AddressIpsIn(addresses: seq<Address>, kind: AddressKind, x: string)
    ensures x in AddressIps(addresses, kind) <==> exists a | a in addresses :: a.kind == kind && a.ip == x
  {
    if addresses != [] {
      AddressIpsIn(addresses[1..], kind, x);
      assert addresses == [addresses[0]] + addresses[1..];
    }
  }

  lemma {:induction false} ExtractIpsIn(nodes: seq<Node>, kind: AddressKind, x: string)
    ensures x in ExtractIps(nodes, kind)
            <==> exists n, a | n in nodes && a in n.addresses :: a.kind == kind && a.ip == x
  {
    if nodes != [] {
      ExtractIpsIn(nodes[1..], kind, x);
      AddressIpsIn(nodes[0].addresses, kind, x);
      assert nodes == [nodes[0]] + nodes[1..];
    }
  }

  lemma {:induction false} ValidRangesIn(ranges: seq<Range>, x: string)
    ensures x in ValidRanges(ranges) <==> exists r | r in ranges :: r.parses && TrimHostSuffix(r.text) == x
  {
    if ranges != [] {
      var n := |ranges| - 1;
      ValidRangesIn(ranges[..n], x);
      assert ranges == ranges[..n] + [ranges[n]];
    }
  }

  lemma WhitelistIn(ranges: seq<Range>, nodes: seq<Node>, x: string)
    ensures x in Whitelist(ranges, nodes) <==> OnNode(nodes, x) || InRanges(ranges, x)
  {
    hide ListedAs, TrimHostSuffix, ExtractIps, ValidRanges;
    ExtractIpsIn(nodes, InternalIP, x);
    ExtractIpsIn(nodes, ExternalIP, x);
    ValidRangesIn(ranges, x);
    forall r: Range ensures ListedAs(r.text, x) <==> TrimHostSuffix(r.text) == x {
      TrimIsListed(r.text, x);
    }
  }

  lemma AllowName(frontend: Id, index: nat, subnets: seq<string>)
    ensures AllowRule(frontend, index, subnets).name == Itoa(frontend) + "-lb-source-range-" + Itoa(index)
    ensures DenyRule(frontend, index).name == Itoa(frontend) + "-lb-source-range-end"
  {
    hide Itoa;
    assert AclPrefix(frontend) + "-" == Itoa(frontend) + "-lb-source-range-";
    assert AclPrefix(frontend) + "-end" == Itoa(frontend) + "-lb-source-range-end";
  }

  lemma RulesNumbered(chunks: seq<seq<string>>, frontend: Id)
    requires forall i | 0 <= i < |chunks| :: 1 <= |chunks[i]| <= 60
    ensures Numbered(RulesFor(chunks, frontend), frontend)
  {
    hide Itoa, AclPrefix;
    var specs, k := RulesFor(chunks, frontend), |chunks|;
    AllowName(frontend, k, []);
    forall i | 0 <= i < k ensures Allows(specs[i], Itoa(frontend) + "-lb-source-range-" + Itoa(i), i) {
      AllowName(frontend, i, chunks[i]);
    }
  }

  lemma RulesList(chunks: seq<seq<string>>, frontend: Id, x: string)
    ensures InRules(RulesFor(chunks, frontend), x) <==> x in Flatten(chunks)
  {
    hide Itoa, AclPrefix, Flatten, RulesFor;
    RulesShape(chunks, frontend);
    FlattenIn(chunks, x);
    if x in Flatten(chunks) {
      var c :| c in chunks && x in c;
      var i :| 0 <= i < |chunks| && chunks[i] == c;
      assert x in RulesFor(chunks, frontend)[i].match_.value.subnets.Elems();
    }
  }

  lemma SpecsCompile(ranges: seq<Range>, nodes: seq<Node>, frontend: Id)
    requires ranges != []
    ensures Specs(ranges, nodes, frontend) != []
            && Compiles(Specs(ranges, nodes, frontend), ranges, nodes, frontend)
  {
    hide Sort, Chunks, Flatten, Whitelist, Itoa, InRules, OnNode, InRanges, Numbered, AclPrefix;
    var sorted := Sort(Whitelist(ranges, nodes));
    var chunks := Chunks(sorted, 60);
    ChunksPartition(sorted, 60);
    assert forall i | 0 <= i < |chunks| :: chunks[i] in chunks;
    RulesNumbered(chunks, frontend);
    SortedMembers(Whitelist(ranges, nodes));
    forall x ensures InRules(RulesFor(chunks, frontend), x) <==> OnNode(nodes, x) || InRanges(ranges, x) {
      RulesList(chunks, frontend, x);
      WhitelistIn(ranges, nodes, x);
    }
  }

  /** The ranges that are listed as a given entry. */
  ghost function ListedBy(ranges: seq<Range>, x: string): set<nat> {
    set i: nat | i < |ranges| && ranges[i].parses && ListedAs(ranges[i].text, x)
  }

  lemma {:induction false} ValidRangesCount(ranges: seq<Range>, x: string)
    ensures multiset(ValidRanges(ranges))[x] == |ListedBy(ranges, x)|
  {
    hide ListedAs, TrimHostSuffix;
    if ranges == [] {
      assert ListedBy(ranges, x) == {};
    } else {
      var n := |ranges| - 1;
      ValidRangesCount(ranges[..n], x);
      TrimIsListed(ranges[n].text, x);
      var before := ListedBy(ranges[..n], x);
      assert ListedBy(ranges, x) ==
             if ranges[n].parses && ListedAs(ranges[n].text, x) then before + {n} else before;
    }
  }

  /** Each entry is listed as often as nodes have the address and ranges come down to it. */
  lemma SpecsEntries(ranges: seq<Range>, nodes: seq<Node>, frontend: Id, x: string)
    requires ranges != []
    ensures var specs := Specs(ranges, nodes, frontend);
            var k := |specs| - 1;
            && k >= 0 && (forall i | 0 <= i < k :: specs[i].match_.Some? && specs[i].match_.value.subnets.Items?)
            && multiset(Flatten(seq(k, i requires 0 <= i < k => specs[i].match_.value.subnets.list)))[x]
               == AllAddresses(nodes)[Address(InternalIP, x)] + AllAddresses(nodes)[Address(ExternalIP, x)]
                  + |ListedBy(ranges, x)|
  {
    hide Sort, Flatten, Specs, ExtractIps, ValidRanges, AllAddresses, ListedBy;
    SpecsShape(ranges, nodes, frontend);
    SortSorts(Whitelist(ranges, nodes));
    ExtractIpsCount(nodes, InternalIP, x);
    ExtractIpsCount(nodes, ExternalIP, x);
    ValidRangesCount(ranges, x);
  }

  lemma NoDash(frontend: Id)
    ensures '-' !in Itoa(frontend)
  {
    hide Itoa, ValueOf;
    ItoaMeans(frontend);
  }

  /** The filter by which a frontend's rules are listed does not match those compiled for another one. */
  lemma AclPrefixApart(f: Id, g: Id, tail: string)
    ensures HasPrefix(Itoa(g) + "-lb-source-range-" + tail, AclPrefix(f)) <==> f == g
  {
    hide Itoa, HasPrefix;
    var name, a, b := Itoa(g) + "-lb-source-range-" + tail, Itoa(f), Itoa(g);
    NoDash(f);
    NoDash(g);
    assert AclPrefix(f) == a + ['-'] + "lb-source-range";
    assert name == b + ['-'] + ("lb-source-range-" + tail);
    if HasPrefix(name, AclPrefix(f)) {
      SeparatedPrefix(a, b, '-', "lb-source-range", "lb-source-range-" + tail);
      ItoaInjective(f, g);
    }
    if f == g {
      assert name == AclPrefix(f) + ("-" + tail);
      HasPrefixMeans(name, AclPrefix(f));
    }
  }

  /** A host length makes no difference to what a range covers. */
  ghost predicate HostLengthsIdle(ranges: seq<Range>, addr: string, covers: (string, string) -> bool) {
    && (forall r, x | r in ranges && r.parses && ':' !in x && r.text == x + "/32" ::
          covers(x, addr) == covers(r.text, addr))
    && (forall r, x | r in ranges && r.parses && ':' in x && r.text == x + "/128" ::
          covers(x, addr) == covers(r.text, addr))
  }

  lemma TrimmedCovers(ranges: seq<Range>, r: Range, addr: string, covers: (string, string) -> bool)
    requires HostLengthsIdle(ranges, addr, covers) && r in ranges && r.parses
    ensures covers(TrimHostSuffix(r.text), addr) == covers(r.text, addr)
  {
    hide TrimHostSuffix;
    TrimHostSuffixMeans(r.text);
  }

  lemma {:induction false} WhitelistCovers(ranges: seq<Range>, nodes: seq<Node>, addr: string,
                                           covers: (string, string) -> bool)
    requires HostLengthsIdle(ranges, addr, covers)
    ensures (exists x | x in Whitelist(ranges, nodes) :: covers(x, addr)) <==> Intended(ranges, nodes, addr, covers)
  {
    forall r | r in ranges && r.parses ensures covers(TrimHostSuffix(r.text), addr) == covers(r.text, addr) {
      TrimmedCovers(ranges, r, addr, covers);
    }
    forall x ensures x in Whitelist(ranges, nodes) <==>
                     || (exists n, a | n in nodes && a in n.addresses ::
                           (a.kind == InternalIP || a.kind == ExternalIP) && a.ip == x)
                     || (exists r | r in ranges :: r.parses && TrimHostSuffix(r.text) == x)
    {
      ExtractIpsIn(nodes, InternalIP, x);
      ExtractIpsIn(nodes, ExternalIP, x);
      ValidRangesIn(ranges, x);
    }
    if Intended(ranges, nodes, addr, covers) {
      if n, a :| && n in nodes && a in n.addresses && (a.kind == InternalIP || a.kind == ExternalIP)
                 && covers(a.ip, addr)
      {
        assert a.ip in Whitelist(ranges, nodes);
      } else {
        var r :| r in ranges && r.parses && covers(r.text, addr);
        assert TrimHostSuffix(r.text) in Whitelist(ranges, nodes);
      }
    }
  }

  lemma {:induction false} FlattenIn(chunks: seq<seq<string>>, x: string)
    ensures x in Flatten(chunks) <==> exists c | c in chunks :: x in c
  {
    if chunks != [] {
      FlattenIn(chunks[1..], x);
      assert chunks == [chunks[0]] + chunks[1..];
    }
  }

  /** A run of allow rules ending in a deny-everyone rule admits exactly what the run covers. */
  lemma {:induction false} AllowThenDeny(rules: seq<Rule>, chunks: seq<seq<string>>, addr: string,
                                         covers: (string, string) -> bool)
    requires |rules| == |chunks| + 1
    requires forall i | 0 <= i < |chunks| ::
               rules[i].action == Some(Allow) && rules[i].match_ == Some(Match(Items(chunks[i]), false))
    requires rules[|chunks|].action == Some(Deny) && Fires(rules[|chunks|], addr, covers)
    ensures FirstMatch(rules, addr, covers) ==
            Some(if exists c | c in chunks :: AnyCovers(c, addr, covers) then Allow else Deny)
  {
    if chunks != [] {
      AllowThenDeny(rules[1..], chunks[1..], addr, covers);
      assert chunks == [chunks[0]] + chunks[1..];
    }
  }

  /** The meaning of the compiled list: once a service restricts its source ranges, an address
      gets through exactly when a node address or a well-formed range covers it.  `covers` says
      which addresses an entry matches; it is assumed not to care about the host length of a range, and
      to have the two catch-all ranges cover everything. */
  lemma {:induction false} SpecsMeaning(ranges: seq<Range>, nodes: seq<Node>, frontend: Id, addr: string,
                                        covers: (string, string) -> bool)
    requires |Whitelist(ranges, nodes)| <= 60 * 0x7fff_ffff  // so that rule indices fit in an int32
    requires AnyCovers(EVERYONE, addr, covers)
    requires HostLengthsIdle(ranges, addr, covers)
    ensures Decide(Specs(ranges, nodes, frontend), addr, covers) ==
            Some(if ranges == [] || Intended(ranges, nodes, addr, covers) then Allow else Deny)
  {
    if ranges != [] {
      var sorted := Sort(Whitelist(ranges, nodes));
      var chunks := Chunks(sorted, MAX_ENTRIES_PER_ACL);
      SpecsInIndexOrder(ranges, nodes, frontend);
      RulesShape(chunks, frontend);
      AllowThenDeny(RulesFor(chunks, frontend), chunks, addr, covers);
      WhitelistCovers(ranges, nodes, addr, covers);
      ChunksCover(sorted, addr, covers);
      SortedMembers(Whitelist(ranges, nodes));
    }
  }

  lemma {:induction false} SortedMembers(s: seq<string>)
    ensures forall x :: x in Sort(s) <==> x in s
  {
    SortSorts(s);
    forall x ensures x in Sort(s) <==> x in s {
      assert x in Sort(s) <==> x in multiset(Sort(s));
    }
  }

  lemma {:induction false} ChunksCover(s: seq<string>, addr: string, covers: (string, string) -> bool)
    ensures (exists c | c in Chunks(s, MAX_ENTRIES_PER_ACL) :: AnyCovers(c, addr, covers))
            <==> exists x | x in s :: covers(x, addr)
  {
    var chunks := Chunks(s, MAX_ENTRIES_PER_ACL);
    ChunksPartition(s, MAX_ENTRIES_PER_ACL);
    if c :| c in chunks && AnyCovers(c, addr, covers) {
      var i :| 0 <= i < |c| && covers(c[i], addr);
      FlattenIn(chunks, c[i]);
    }
    if x :| x in s && covers(x, addr) {
      FlattenIn(chunks, x);
      var c :| c in chunks && x in c;
      assert AnyCovers(c, addr, covers);
    }
  }

  // ---- Canonical form ----

  /** Only the multiset of whitelist entries matters: reordering nodes, addresses or ranges
      yields the very same rules. */
  lemma SpecsCanonical(ranges: seq<Range>, nodes: seq<Node>, ranges': seq<Range>, nodes': seq<Node>, frontend: Id)
    requires ranges == [] <==> ranges' == []
    requires multiset(Whitelist(ranges, nodes)) == multiset(Whitelist(ranges', nodes'))
    ensures Specs(ranges, nodes, frontend) == Specs(ranges', nodes', frontend)
  {
    SortCanonical(Whitelist(ranges, nodes), Whitelist(ranges', nodes'));
  }

  // ---- Comparison ----

  /** int32 arithmetic wraps around. */
  function Int32(n: int): int {
    (n + 0x8000_0000) % 0x1_0000_0000 - 0x8000_0000
  }

  /** The comparator handed to slices.SortStableFunc. */
  function CompareIndex(a: Rule, b: Rule): int {
    Int32(a.index - b.index)
  }

  function InsertRule(x: Rule, s: seq<Rule>): seq<Rule> {
    if s == [] || CompareIndex(x, s[0]) <= 0 then [x] + s else [s[0]] + InsertRule(x, s[1..])
  }

  function SortByIndex(s: seq<Rule>): seq<Rule> {
    if s == [] then [] else InsertRule(s[0], SortByIndex(s[1..]))
  }

  /** The loop body of aclsEquals. */
  predicate SameRule(got: Rule, want: Rule) {
    && want.name == got.name
    && want.index == got.index
    && want.action == got.action
    && want.match_.Some? == got.match_.Some?
    && (want.match_.Some? ==>
          && StringArrayEqual(want.match_.value.subnets, got.match_.value.subnets)
          && want.match_.value.invert == got.match_.value.invert)
  }

  predicate RulesEqual(got: seq<Rule>, want: seq<Rule>) {
    && |got| == |want|
    && var g, w := SortByIndex(got), SortByIndex(want);
      Pairwise(g, w)
  }

  predicate Pairwise(g: seq<Rule>, w: seq<Rule>) {
    |g| == |w| && forall i | 0 <= i < |w| :: SameRule(g[i], w[i])
  }

  /** One pass of the comparison loop, test by test. */
  method RuleEquals(got: Rule, want: Rule) returns (r: bool)
    ensures r <==> SameRule(got, want)
  {
    if want.name != got.name {
      return false;
    }
    if want.index != got.index {
      return false;
    }
    if want.action.Some? != got.action.Some? {
      return false;
    }
    if want.action.Some? && want.action.value != got.action.value {
      return false;
    }
    if want.match_.Some? != got.match_.Some? {
      return false;
    }
    if want.match_.Some? && !StringArrayEqual(want.match_.value.subnets, got.match_.value.subnets) {
      return false;
    }
    if want.match_.Some? && want.match_.value.invert != got.match_.value.invert {
      return false;
    }
    return true;
  }

  method AclsEquals(got: seq<Rule>, want: seq<Rule>) returns (r: bool)
    ensures r <==> RulesEqual(got, want)
  {
    if |got| != |want| {
      return false;
    }
    var g, w := SortByIndex(got), SortByIndex(want);
    SortByIndexLength(got);
    SortByIndexLength(want);
    r := AllSame(g, w);
  }

  method AllSame(g: seq<Rule>, w: seq<Rule>) returns (r: bool)
    requires |g| == |w|
    ensures r <==> Pairwise(g, w)
  {
    for i := 0 to |w|
      invariant Pairwise(g[..i], w[..i])
    {
      var same := RuleEquals(g[i], w[i]);
      assert g[..i + 1][i] == g[i] && w[..i + 1][i] == w[i];
      if !same {
        return false;
      }
    }
    assert g[..|w|] == g && w[..|w|] == w;
    return true;
  }

  lemma {:induction false} InsertRuleLength(x: Rule, s: seq<Rule>)
    ensures multiset(InsertRule(x, s)) == multiset{x} + multiset(s)
    ensures |InsertRule(x, s)| == |s| + 1
  {
    if !(s == [] || CompareIndex(x, s[0]) <= 0) {
      InsertRuleLength(x, s[1..]);
      assert s == [s[0]] + s[1..];
    }
  }

  lemma {:induction false} SortByIndexLength(s: seq<Rule>)
    ensures multiset(SortByIndex(s)) == multiset(s)
    ensures |SortByIndex(s)| == |s|
  {
    if s != [] {
      SortByIndexLength(s[1..]);
      InsertRuleLength(s[0], SortByIndex(s[1..]));
      assert s == [s[0]] + s[1..];
    }
  }

  /** Rule lists as the API and makeACLSpecs produce them: non-negative int32 indices, no two equal. */
  ghost predicate Indexed(s: seq<Rule>) {
    && (forall i | 0 <= i < |s| :: 0 <= s[i].index < 0x8000_0000)
    && (forall i, j | 0 <= i < j < |s| :: s[i].index != s[j].index)
  }

  ghost predicate Increasing(s: seq<Rule>) {
    forall i, j | 0 <= i < j < |s| :: s[i].index < s[j].index
  }

  lemma CompareIndexSound(a: Rule, b: Rule)
    requires 0 <= a.index < 0x8000_0000 && 0 <= b.index < 0x8000_0000
    ensures CompareIndex(a, b) <= 0 <==> a.index <= b.index
  {
  }

  /** On any two int32 indices the comparator orders them exactly unless their difference overflows. */
  lemma CompareIndexExactly(a: Rule, b: Rule)
    requires -0x8000_0000 <= a.index < 0x8000_0000 && -0x8000_0000 <= b.index < 0x8000_0000
    ensures (CompareIndex(a, b) <= 0 <==> a.index <= b.index) <==> -0x8000_0000 <= a.index - b.index < 0x8000_0000
    ensures -0x8000_0000 <= CompareIndex(a, b) < 0x8000_0000
  {
  }

  lemma ConsIncreasing(x: Rule, s: seq<Rule>)
    requires Increasing(s) && forall i | 0 <= i < |s| :: x.index < s[i].index
    ensures Increasing([x] + s)
  {
  }

  lemma InsertRuleAbove(x: Rule, low: Rule, s: seq<Rule>)
    requires low.index < x.index && forall i | 0 <= i < |s| :: low.index < s[i].index
    ensures forall j | 0 <= j < |InsertRule(x, s)| :: low.index < InsertRule(x, s)[j].index
  {
    var r := InsertRule(x, s);
    InsertRuleLength(x, s);
    forall j | 0 <= j < |r| ensures low.index < r[j].index {
      assert r[j] in multiset(r);
      assert r[j] == x || r[j] in s;
    }
  }

  lemma {:induction false} InsertRuleIncreasing(x: Rule, s: seq<Rule>)
    requires Increasing(s)
    requires 0 <= x.index < 0x8000_0000
    requires forall i | 0 <= i < |s| :: 0 <= s[i].index < 0x8000_0000 && s[i].index != x.index
    ensures Increasing(InsertRule(x, s))
  {
    if s != [] {
      CompareIndexSound(x, s[0]);
      if CompareIndex(x, s[0]) > 0 {
        InsertRuleIncreasing(x, s[1..]);
        InsertRuleAbove(x, s[0], s[1..]);
        ConsIncreasing(s[0], InsertRule(x, s[1..]));
      } else {
        ConsIncreasing(x, s);
      }
    }
  }

  lemma {:induction false} SortByIndexIncreasing(s: seq<Rule>)
    requires Indexed(s)
    ensures Increasing(SortByIndex(s))
  {
    if s != [] {
      var r := SortByIndex(s[1..]);
      SortByIndexIncreasing(s[1..]);
      SortByIndexLength(s[1..]);
      forall i | 0 <= i < |r| ensures 0 <= r[i].index < 0x8000_0000 && r[i].index != s[0].index {
        assert r[i] in multiset(r);
        assert r[i] in s[1..];
      }
      InsertRuleIncreasing(s[0], r);
    }
  }

  lemma {:induction false} IncreasingIsSorted(s: seq<Rule>)
    requires Increasing(s) && Indexed(s)
    ensures SortByIndex(s) == s
  {
    if s != [] {
      assert Indexed(s[1..]) && Increasing(s[1..]);
      IncreasingIsSorted(s[1..]);
      if |s| > 1 { CompareIndexSound(s[0], s[1]); }
      assert s == [s[0]] + s[1..];
    }
  }

  lemma {:induction false} SpecsInIndexOrder(ranges: seq<Range>, nodes: seq<Node>, frontend: Id)
    requires |Whitelist(ranges, nodes)| <= 60 * 0x7fff_ffff
    ensures var specs := Specs(ranges, nodes, frontend);
            Indexed(specs) && SortByIndex(specs) == specs
  {
    var specs := Specs(ranges, nodes, frontend);
    if ranges != [] {
      SpecsShape(ranges, nodes, frontend);
    }
    IncreasingIsSorted(specs);
  }

  /** Two rules say the same thing: same index, name, action and polarity, same subnets in any order. */
  ghost predicate Agree(g: Rule, w: Rule) {
    && g.name == w.name && g.index == w.index && g.action == w.action
    && g.match_.Some? == w.match_.Some?
    && (g.match_.Some? ==>
          && g.match_.value.invert == w.match_.value.invert
          && g.match_.value.subnets.Nil? == w.match_.value.subnets.Nil?
          && multiset(g.match_.value.subnets.Elems()) == multiset(w.match_.value.subnets.Elems()))
  }

  lemma SameRuleIsAgree(g: Rule, w: Rule)
    ensures SameRule(g, w) <==> Agree(g, w)
  {
    if g.match_.Some? && w.match_.Some? {
      StringArrayEqualIsPermutation(w.match_.value.subnets, g.match_.value.subnets);
    }
  }

  ghost function Indices(s: seq<Rule>): set<int> {
    set i | 0 <= i < |s| :: s[i].index
  }

  /** The same rules, matched up by index. */
  ghost predicate SameByIndex(got: seq<Rule>, want: seq<Rule>) {
    && Indices(got) == Indices(want)
    && forall g, w | g in got && w in want && g.index == w.index :: Agree(g, w)
  }

  lemma IndicesTail(s: seq<Rule>)
    requires Increasing(s) && s != []
    ensures Increasing(s[1..]) && Indices(s[1..]) == Indices(s) - {s[0].index}
  {
    var t := s[1..];
    forall x ensures x in Indices(t) <==> x in Indices(s) - {s[0].index} {
      if x in Indices(t) {
        var i :| 0 <= i < |t| && t[i].index == x;
        assert s[i + 1].index == x;
      }
      if x in Indices(s) - {s[0].index} {
        var i :| 0 <= i < |s| && s[i].index == x;
        assert t[i - 1].index == x;
      }
    }
  }

  lemma HeadLowest(s: seq<Rule>, x: int)
    requires Increasing(s) && x in Indices(s)
    ensures s != [] && s[0].index in Indices(s) && s[0].index <= x
  {
  }

  lemma SomeIndex(s: seq<Rule>)
    ensures s != [] ==> Indices(s) != {}
  {
    if s != [] { assert s[0].index in Indices(s); }
  }

  lemma {:induction false} IndicesAlign(g: seq<Rule>, w: seq<Rule>)
    requires Increasing(g) && Increasing(w) && Indices(g) == Indices(w)
    ensures |g| == |w|
    ensures forall i | 0 <= i < |g| :: g[i].index == w[i].index
  {
    if g == [] {
      SomeIndex(w);
    } else {
      HeadLowest(g, g[0].index);
      HeadLowest(w, g[0].index);
      HeadLowest(g, w[0].index);
      IndicesTail(g);
      IndicesTail(w);
      IndicesAlign(g[1..], w[1..]);
      assert forall i | 1 <= i < |g| :: g[i] == g[1..][i - 1] && w[i] == w[1..][i - 1];
    }
  }

  lemma SortedRuleMembers(s: seq<Rule>)
    ensures forall r :: r in SortByIndex(s) <==> r in s
    ensures Indices(SortByIndex(s)) == Indices(s)
  {
    var t := SortByIndex(s);
    SortByIndexLength(s);
    forall r ensures r in t <==> r in s {
      assert r in t <==> r in multiset(t);
    }
    forall x ensures x in Indices(t) <==> x in Indices(s) {
      if i :| 0 <= i < |t| && t[i].index == x { assert t[i] in s; }
      if i :| 0 <= i < |s| && s[i].index == x { assert s[i] in t; }
    }
  }

  lemma PairwiseAgree(g: seq<Rule>, w: seq<Rule>, i: nat, j: nat)
    requires Increasing(g) && Increasing(w) && Pairwise(g, w)
    requires i < |g| && j < |w| && g[i].index == w[j].index
    ensures Agree(g[i], w[j])
  {
    hide Agree, StringArrayEqual;
    assert SameRule(g[i], w[i]);
    SameRuleIsAgree(g[i], w[i]);
    assert w[i].index == w[j].index;
    assert i == j;
  }

  lemma PairwiseIndices(g: seq<Rule>, w: seq<Rule>)
    requires Pairwise(g, w)
    ensures Indices(g) == Indices(w)
  {
    hide StringArrayEqual;
    assert forall i | 0 <= i < |w| :: SameRule(g[i], w[i]) && g[i].index == w[i].index;
  }

  lemma PairwiseSameByIndex(g: seq<Rule>, w: seq<Rule>)
    requires Increasing(g) && Increasing(w) && Pairwise(g, w)
    ensures SameByIndex(g, w)
  {
    hide Increasing, Pairwise, Agree, Indices;
    PairwiseIndices(g, w);
    forall x, y | x in g && y in w && x.index == y.index ensures Agree(x, y) {
      var i: nat :| i < |g| && g[i] == x;
      var j: nat :| j < |w| && w[j] == y;
      PairwiseAgree(g, w, i, j);
    }
  }

  /** aclsEquals decides whether the two lists hold the same rules index by index; neither list
      needs to come in order. */
  lemma RulesEqualIsSameByIndex(got: seq<Rule>, want: seq<Rule>)
    requires Indexed(got) && Indexed(want)
    ensures RulesEqual(got, want) <==> SameByIndex(got, want)
  {
    var g, w := SortByIndex(got), SortByIndex(want);
    SortByIndexLength(got);
    SortByIndexLength(want);
    SortedRuleMembers(got);
    SortedRuleMembers(want);
    SortByIndexIncreasing(got);
    SortByIndexIncreasing(want);
    if Pairwise(g, w) {
      PairwiseSameByIndex(g, w);
    }
    if SameByIndex(g, w) {
      IndicesAlign(g, w);
      forall i | 0 <= i < |g| ensures SameRule(g[i], w[i]) {
        assert g[i] in g && w[i] in w;
        SameRuleIsAgree(g[i], w[i]);
      }
    }
    assert SameByIndex(g, w) <==> SameByIndex(got, want);
  }

  lemma AgreeFires(g: Rule, w: Rule, addr: string, covers: (string, string) -> bool)
    requires Agree(g, w)
    ensures Fires(g, addr, covers) == Fires(w, addr, covers)
  {
    if g.match_.Some? {
      var a, b := g.match_.value.subnets.Elems(), w.match_.value.subnets.Elems();
      if i :| 0 <= i < |a| && covers(a[i], addr) { assert a[i] in multiset(b); }
      if i :| 0 <= i < |b| && covers(b[i], addr) { assert b[i] in multiset(a); }
    }
  }

  lemma {:induction false} PairwiseDecides(g: seq<Rule>, w: seq<Rule>, addr: string, covers: (string, string) -> bool)
    requires Pairwise(g, w)
    ensures FirstMatch(g, addr, covers) == FirstMatch(w, addr, covers)
  {
    if g != [] {
      SameRuleIsAgree(g[0], w[0]);
      AgreeFires(g[0], w[0], addr, covers);
      PairwiseDecides(g[1..], w[1..], addr, covers);
    }
  }

  /** When aclsEquals skips SetACLs, the rules in place treat every address as the wanted ones would. */
  lemma RulesEqualDecide(got: seq<Rule>, want: seq<Rule>, addr: string, covers: (string, string) -> bool)
    requires RulesEqual(got, want)
    ensures Decide(got, addr, covers) == Decide(want, addr, covers)
  {
    PairwiseDecides(SortByIndex(got), SortByIndex(want), addr, covers);
  }

  /** A rule list equals itself, whatever its indices. */
  lemma RulesEqualReflexive(s: seq<Rule>)
    ensures RulesEqual(s, s)
  {
    var g := SortByIndex(s);
    forall i | 0 <= i < |g| ensures SameRule(g[i], g[i]) {
      SameRuleIsAgree(g[i], g[i]);
    }
  }

  /** What ListACLs returns when filtered by the frontend's ACL prefix. */
  function ListNamed(rules: seq<Rule>, prefix: string): seq<Rule> {
    if rules == [] then []
    else (if HasPrefix(rules[0].name, prefix) then [rules[0]] else []) + ListNamed(rules[1..], prefix)
  }

  lemma {:induction false} ListNamedAll(rules: seq<Rule>, prefix: string)
    requires forall i | 0 <= i < |rules| :: HasPrefix(rules[i].name, prefix)
    ensures ListNamed(rules, prefix) == rules
  {
    if rules != [] {
      ListNamedAll(rules[1..], prefix);
      assert rules == [rules[0]] + rules[1..];
    }
  }

  /** After SetACLs, the filtered listing is the whole emitted list, so the next comparison succeeds. */
  lemma SpecsListed(ranges: seq<Range>, nodes: seq<Node>, frontend: Id)
    ensures var specs := Specs(ranges, nodes, frontend);
            RulesEqual(ListNamed(specs, AclPrefix(frontend)), specs)
  {
    var specs := Specs(ranges, nodes, frontend);
    forall i | 0 <= i < |specs| ensures HasPrefix(specs[i].name, AclPrefix(frontend)) {
    }
    ListNamedAll(specs, AclPrefix(frontend));
    RulesEqualReflexive(specs);
  }

  // ---- Rules without identifiers ----

  /** A rule without its name, which holds the frontend's identifier, and without the order of its subnets. */
  datatype RuleFacts = RuleFacts(index: int, action: Option<Action>, match_: Option<MatchFacts>)
  datatype MatchFacts = MatchFacts(unset: bool, subnets: multiset<string>, invert: bool)

  ghost function FactsOfRule(r: Rule): RuleFacts {
    RuleFacts(r.index, r.action,
              if r.match_.None? then None
              else Some(MatchFacts(r.match_.value.subnets.Nil?, multiset(r.match_.value.subnets.Elems()),
                  r.match_.value.invert)))
  }

  ghost function FactsOfRules(s: seq<Rule>): (t: seq<RuleFacts>)
    ensures |t| == |s| && forall i | 0 <= i < |s| :: t[i] == FactsOfRule(s[i])
  {
    seq(|s|, i requires 0 <= i < |s| => FactsOfRule(s[i]))
  }

  lemma {:induction false} InsertAlike(x: Rule, y: Rule, s: seq<Rule>, t: seq<Rule>)
    requires FactsOfRule(x) == FactsOfRule(y) && FactsOfRules(s) == FactsOfRules(t)
    ensures FactsOfRules(InsertRule(x, s)) == FactsOfRules(InsertRule(y, t))
  {
    assert |s| == |FactsOfRules(s)| == |t|;
    if s != [] {
      assert FactsOfRules(s)[0] == FactsOfRules(t)[0];
      assert FactsOfRules(s[1..]) == FactsOfRules(s)[1..] && FactsOfRules(t[1..]) == FactsOfRules(t)[1..];
      InsertAlike(x, y, s[1..], t[1..]);
    }
  }

  lemma {:induction false} SortAlike(s: seq<Rule>, t: seq<Rule>)
    requires FactsOfRules(s) == FactsOfRules(t)
    ensures FactsOfRules(SortByIndex(s)) == FactsOfRules(SortByIndex(t))
  {
    assert |s| == |FactsOfRules(s)| == |t|;
    if s != [] {
      assert FactsOfRules(s)[0] == FactsOfRules(t)[0];
      assert FactsOfRules(s[1..]) == FactsOfRules(s)[1..] && FactsOfRules(t[1..]) == FactsOfRules(t)[1..];
      SortAlike(s[1..], t[1..]);
      InsertAlike(s[0], t[0], SortByIndex(s[1..]), SortByIndex(t[1..]));
    }
  }

  /** Rule lists that aclsEquals takes for equal hold the same facts in the same order. */
  lemma RulesEqualFacts(got: seq<Rule>, want: seq<Rule>)
    requires RulesEqual(got, want)
    ensures FactsOfRules(SortByIndex(got)) == FactsOfRules(SortByIndex(want))
  {
    var g, w := SortByIndex(got), SortByIndex(want);
    forall i | 0 <= i < |g| ensures FactsOfRule(g[i]) == FactsOfRule(w[i]) {
      SameRuleIsAgree(g[i], w[i]);
    }
  }

  /** The compiled rules differ between frontends in nothing but their names. */
  lemma SpecsFacts(ranges: seq<Range>, nodes: seq<Node>, f: Id, g: Id)
    ensures FactsOfRules(SortByIndex(Specs(ranges, nodes, f))) == FactsOfRules(SortByIndex(Specs(ranges, nodes, g)))
  {
    hide Chunks, Sort, Whitelist, AclPrefix, Itoa, SortByIndex;
    SortAlike(Specs(ranges, nodes, f), Specs(ranges, nodes, g));
  }
}
