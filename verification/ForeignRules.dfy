/** What a frontend does to an address when it holds rules that are not the controller's, which the
    comparison of rule lists does not see. */
module ForeignRules {
  import opened Basics
  import opened Sorting
  import opened Acl

  /** Indices as the comparator orders them; several rules may share one. */
  ghost predicate Ranked(s: seq<Rule>) {
    forall i | 0 <= i < |s| :: 0 <= s[i].index < 0x8000_0000
  }

  /** The rule at d decides on an address: it fires, and every other one that does has a higher index, or
      the same index further down the list. */
  ghost predicate Decides(rules: seq<Rule>, d: nat, addr: string, covers: (string, string) -> bool) {
    && d < |rules| && Fires(rules[d], addr, covers)
    && forall j | 0 <= j < |rules| && j != d && Fires(rules[j], addr, covers) ::
         rules[d].index < rules[j].index || (rules[d].index == rules[j].index && d < j)
  }

  /** The deciding rule, if any fires. */
  function DecidingRule(rules: seq<Rule>, addr: string, covers: (string, string) -> bool): Option<Rule> {
    if rules == [] then None
    else
      var later := DecidingRule(rules[1..], addr, covers);
      if Fires(rules[0], addr, covers) && (later.None? || rules[0].index <= later.value.index) then Some(rules[0])
      else later
  }

  function VerdictOf(rule: Option<Rule>): Option<Action> {
    if rule.None? then Some(Allow) else rule.value.action
  }

  lemma {:induction false} DecidingFires(rules: seq<Rule>, addr: string, covers: (string, string) -> bool)
    ensures var r := DecidingRule(rules, addr, covers);
            && (r.Some? ==> r.value in rules && Fires(r.value, addr, covers))
            && forall x | x in rules && Fires(x, addr, covers) :: r.Some? && r.value.index <= x.index
  {
    hide Fires;
    if rules != [] {
      DecidingFires(rules[1..], addr, covers);
      assert rules == [rules[0]] + rules[1..];
    }
  }

  /** The definition by recursion finds the rule that decides. */
  lemma {:induction false} DecidingIs(rules: seq<Rule>, addr: string, covers: (string, string) -> bool)
    ensures DecidingRule(rules, addr, covers).Some? ==>
              exists d: nat ::
                d < |rules| && Decides(rules, d, addr, covers) && DecidingRule(rules, addr, covers) == Some(rules[d])
  {
    hide Fires;
    if rules != [] {
      var x, rest := rules[0], rules[1..];
      DecidingIs(rest, addr, covers);
      DecidingFires(rest, addr, covers);
      assert forall j | 1 <= j < |rules| :: rules[j] == rest[j - 1] && rules[j] in rest;
      var later := DecidingRule(rest, addr, covers);
      if Fires(x, addr, covers) && (later.None? || x.index <= later.value.index) {
        assert Decides(rules, 0, addr, covers);
      } else if later.Some? {
        var d: nat :| d < |rest| && Decides(rest, d, addr, covers) && later == Some(rest[d]);
        assert rest[d] == rules[d + 1];
        assert Decides(rules, d + 1, addr, covers);
      }
    }
  }

  lemma DecidesOnce(rules: seq<Rule>, d: nat, e: nat, addr: string, covers: (string, string) -> bool)
    requires Decides(rules, d, addr, covers) && Decides(rules, e, addr, covers)
    ensures d == e
  {
    hide Fires;
  }

  ghost predicate NonDecreasing(s: seq<Rule>) {
    forall i, j | 0 <= i < j < |s| :: s[i].index <= s[j].index
  }

  lemma {:induction false} InsertedOrdered(x: Rule, s: seq<Rule>)
    requires 0 <= x.index < 0x8000_0000 && Ranked(s) && NonDecreasing(s)
    ensures NonDecreasing(InsertRule(x, s))
  {
    hide CompareIndex;
    if s == [] || CompareIndex(x, s[0]) <= 0 {
      if s != [] {
        CompareIndexSound(x, s[0]);
      }
      ConsOrdered(x, s);
    } else {
      CompareIndexSound(x, s[0]);
      InsertedOrdered(x, s[1..]);
      InsertedAbove(x, s);
      ConsOrdered(s[0], InsertRule(x, s[1..]));
    }
  }

  lemma ConsOrdered(x: Rule, s: seq<Rule>)
    requires NonDecreasing(s) && forall i | 0 <= i < |s| :: x.index <= s[i].index
    ensures NonDecreasing([x] + s)
  {
  }

  lemma InsertedAbove(x: Rule, s: seq<Rule>)
    requires s != [] && s[0].index <= x.index && NonDecreasing(s)
    ensures forall j | 0 <= j < |InsertRule(x, s[1..])| :: s[0].index <= InsertRule(x, s[1..])[j].index
  {
    hide CompareIndex, InsertRule;
    var r := InsertRule(x, s[1..]);
    InsertRuleLength(x, s[1..]);
    forall j | 0 <= j < |r| ensures s[0].index <= r[j].index {
      assert r[j] in multiset(r);
      assert r[j] == x || r[j] in s[1..];
    }
  }

  /** Some rule of a lower index fires. */
  ghost predicate Undercut(x: Rule, s: seq<Rule>, addr: string, covers: (string, string) -> bool) {
    exists y | y in s :: Fires(y, addr, covers) && y.index < x.index
  }

  lemma UndercutTail(x: Rule, s: seq<Rule>, addr: string, covers: (string, string) -> bool)
    requires s != []
    ensures Undercut(x, s, addr, covers)
            <==> (Fires(s[0], addr, covers) && s[0].index < x.index) || Undercut(x, s[1..], addr, covers)
  {
    hide Fires;
    assert s == [s[0]] + s[1..];
  }

  /** Inserting a rule into a sorted list: it decides if it fires and nothing below it does. */
  lemma {:induction false} InsertedDecides(x: Rule, s: seq<Rule>, addr: string, covers: (string, string) -> bool)
    requires 0 <= x.index < 0x8000_0000 && Ranked(s) && NonDecreasing(s)
    ensures FirstMatch(InsertRule(x, s), addr, covers) ==
            if Fires(x, addr, covers) && !Undercut(x, s, addr, covers) then x.action else FirstMatch(s, addr, covers)
  {
    hide Fires, CompareIndex, Undercut;
    if s == [] || CompareIndex(x, s[0]) <= 0 {
      NotUndercut(x, s, addr, covers);
      assert ([x] + s)[1..] == s;
    } else {
      CompareIndexSound(x, s[0]);
      InsertedDecides(x, s[1..], addr, covers);
      UndercutTail(x, s, addr, covers);
      assert ([s[0]] + InsertRule(x, s[1..]))[1..] == InsertRule(x, s[1..]);
    }
  }

  lemma NotUndercut(x: Rule, s: seq<Rule>, addr: string, covers: (string, string) -> bool)
    requires 0 <= x.index < 0x8000_0000 && Ranked(s) && NonDecreasing(s)
    requires s == [] || CompareIndex(x, s[0]) <= 0
    ensures !Undercut(x, s, addr, covers)
  {
    hide Fires, CompareIndex;
    if s != [] {
      CompareIndexSound(x, s[0]);
    }
  }

  /** Sorting by index and taking the first rule that fires gives the verdict of the deciding rule. */
  lemma {:induction false} DecideIs(rules: seq<Rule>, addr: string, covers: (string, string) -> bool)
    requires Ranked(rules)
    ensures Decide(rules, addr, covers) == VerdictOf(DecidingRule(rules, addr, covers))
    ensures NonDecreasing(SortByIndex(rules))
  {
    hide Fires, InsertRule;
    if rules != [] {
      var rest := rules[1..];
      DecideIs(rest, addr, covers);
      SortedRuleMembers(rest);
      assert forall i | 0 <= i < |SortByIndex(rest)| :: SortByIndex(rest)[i] in rest;
      InsertedOrdered(rules[0], SortByIndex(rest));
      InsertedDecides(rules[0], SortByIndex(rest), addr, covers);
      DecidingFires(rest, addr, covers);
    }
  }

  lemma {:induction false} ListNamedIn(rules: seq<Rule>, prefix: string)
    ensures forall r :: r in ListNamed(rules, prefix) <==> r in rules && HasPrefix(r.name, prefix)
  {
    hide HasPrefix;
    if rules != [] {
      ListNamedIn(rules[1..], prefix);
      assert rules == [rules[0]] + rules[1..];
    }
  }

  /** Leaving out the rules of others: a deciding rule that bears the prefix still decides. */
  lemma {:induction false} DecidingOwn(rules: seq<Rule>, prefix: string, addr: string, covers: (string, string) -> bool)
    ensures var all, own := DecidingRule(rules, addr, covers), DecidingRule(ListNamed(rules, prefix), addr, covers);
            && (own.Some? ==> all.Some? && all.value.index <= own.value.index)
            && (all.Some? && HasPrefix(all.value.name, prefix) ==> own == all)
  {
    hide Fires, HasPrefix;
    if rules != [] {
      var own := ListNamed(rules[1..], prefix);
      DecidingOwn(rules[1..], prefix, addr, covers);
      assert ([rules[0]] + own)[1..] == own && [] + own == own;
    }
  }

  /** The rule of someone else that decides on an address, against a given verdict. */
  ghost predicate Overrides(rules: seq<Rule>, prefix: string, d: nat, verdict: Option<Action>,
                            addr: string, covers: (string, string) -> bool)
  {
    d < |rules| && Decides(rules, d, addr, covers) && !HasPrefix(rules[d].name, prefix) && rules[d].action != verdict
  }

  /** A frontend treats an address as its own rules alone would, exactly if no rule of someone else both
      decides on the address and says otherwise. */
  lemma ForeignRulesDecide(rules: seq<Rule>, prefix: string, addr: string, covers: (string, string) -> bool)
    requires Ranked(rules)
    ensures var own := Decide(ListNamed(rules, prefix), addr, covers);
            Decide(rules, addr, covers) == own <==> !exists d: nat :: Overrides(rules, prefix, d, own, addr, covers)
  {
    hide Fires, HasPrefix, Decide, DecidingRule, Decides;
    ListNamedIn(rules, prefix);
    var named := ListNamed(rules, prefix);
    forall i | 0 <= i < |named| ensures 0 <= named[i].index < 0x8000_0000 {
      assert named[i] in named && named[i] in rules;
    }
    DecideIs(rules, addr, covers);
    DecideIs(named, addr, covers);
    DecidingOwn(rules, prefix, addr, covers);
    DecidingFires(named, addr, covers);
    DecidingIs(rules, addr, covers);
    DecidingNone(rules, addr, covers);
    var own := Decide(named, addr, covers);
    forall e: nat | e < |rules| && Decides(rules, e, addr, covers)
        ensures DecidingRule(rules, addr, covers) == Some(rules[e])
    {
      DecidingSome(rules, e, addr, covers);
      var d: nat :| d < |rules| && Decides(rules, d, addr, covers)
          && DecidingRule(rules, addr, covers) == Some(rules[d]);
      DecidesOnce(rules, d, e, addr, covers);
    }
    if DecidingRule(rules, addr, covers).Some? {
      var d: nat :| d < |rules| && Decides(rules, d, addr, covers)
          && DecidingRule(rules, addr, covers) == Some(rules[d]);
      assert Overrides(rules, prefix, d, own, addr, covers)
             <==> !HasPrefix(rules[d].name, prefix) && rules[d].action != own;
    }
  }

  lemma DecidingSome(rules: seq<Rule>, d: nat, addr: string, covers: (string, string) -> bool)
    requires Decides(rules, d, addr, covers)
    ensures DecidingRule(rules, addr, covers).Some?
  {
    hide Fires;
    DecidingFires(rules, addr, covers);
    assert rules[d] in rules;
  }

  lemma DecidingNone(rules: seq<Rule>, addr: string, covers: (string, string) -> bool)
    ensures DecidingRule(rules, addr, covers).None? ==> forall x | x in rules :: !Fires(x, addr, covers)
  {
    hide Fires;
    DecidingFires(rules, addr, covers);
  }

  /** Who is to be let through. */
  ghost function Verdict(ranges: seq<Range>, nodes: seq<Node>, addr: string,
                         covers: (string, string) -> bool): Option<Action>
  {
    Some(if ranges == [] || Intended(ranges, nodes, addr, covers) then Allow else Deny)
  }

  /** What the verdict on an address rests on: an entry of catch-all ranges covers everything, and a
      host-length suffix makes no difference. */
  ghost predicate Sensible(ranges: seq<Range>, nodes: seq<Node>, addr: string, covers: (string, string) -> bool) {
    && |Whitelist(ranges, nodes)| <= 60 * 0x7fff_ffff
    && AnyCovers(EVERYONE, addr, covers)
    && HostLengthsIdle(ranges, addr, covers)
  }

  /** A frontend whose own rules compare equal to the compiled ones admits an address exactly as the
      service means it to, exactly if no rule of someone else decides on it otherwise. */
  lemma AdmitsIntended(acls: seq<Rule>, ranges: seq<Range>, nodes: seq<Node>, frontend: Id, addr: string,
                       covers: (string, string) -> bool)
    requires Ranked(acls) && RulesEqual(ListNamed(acls, AclPrefix(frontend)), Specs(ranges, nodes, frontend))
    requires Sensible(ranges, nodes, addr, covers)
    ensures var v := Verdict(ranges, nodes, addr, covers);
            Decide(acls, addr, covers) == v
            <==> !exists d: nat :: Overrides(acls, AclPrefix(frontend), d, v, addr, covers)
  {
    hide Specs, Decide, Whitelist, HasPrefix, RulesEqual, AnyCovers, Intended, Overrides, AclPrefix;
    RulesEqualDecide(ListNamed(acls, AclPrefix(frontend)), Specs(ranges, nodes, frontend), addr, covers);
    SpecsMeaning(ranges, nodes, frontend, addr, covers);
    ForeignRulesDecide(acls, AclPrefix(frontend), addr, covers);
  }

  /** Rules that compare equal to ranked ones are ranked. */
  lemma RankedAlike(got: seq<Rule>, want: seq<Rule>)
    requires RulesEqual(got, want) && Ranked(want)
    ensures Ranked(got)
  {
    var g, w := SortByIndex(got), SortByIndex(want);
    SortedRuleMembers(got);
    SortedRuleMembers(want);
    forall i | 0 <= i < |got| ensures 0 <= got[i].index < 0x8000_0000 {
      assert got[i] in got && got[i] in g;
      var j :| 0 <= j < |g| && g[j] == got[i];
      assert SameRule(g[j], w[j]) && w[j] in w && w[j] in want;
    }
  }

  /** Where all rules of a frontend bear its ACL prefix, it admits exactly whom the service means to. */
  lemma OwnRulesDecide(acls: seq<Rule>, ranges: seq<Range>, nodes: seq<Node>, frontend: Id, addr: string,
                       covers: (string, string) -> bool)
    requires RulesEqual(ListNamed(acls, AclPrefix(frontend)), Specs(ranges, nodes, frontend))
    requires forall i | 0 <= i < |acls| :: HasPrefix(acls[i].name, AclPrefix(frontend))
    requires Sensible(ranges, nodes, addr, covers)
    ensures Decide(acls, addr, covers) == Verdict(ranges, nodes, addr, covers)
  {
    hide Specs, Decide, Whitelist, HasPrefix, RulesEqual, AnyCovers, Intended, AclPrefix;
    ListNamedAll(acls, AclPrefix(frontend));
    SpecsInIndexOrder(ranges, nodes, frontend);
    RankedAlike(acls, Specs(ranges, nodes, frontend));
    AdmitsIntended(acls, ranges, nodes, frontend, addr, covers);
  }

  /** The compiled rules of a restricted service hold a rule for each index below their number, and the
      last one fires on everything. */
  lemma SpecsIndices(ranges: seq<Range>, nodes: seq<Node>, frontend: Id, addr: string, covers: (string, string) -> bool)
    requires ranges != [] && Sensible(ranges, nodes, addr, covers)
    ensures var specs := Specs(ranges, nodes, frontend);
            && specs != [] && SortByIndex(specs) == specs
            && (forall i | 0 <= i < |specs| :: specs[i].index == i)
            && Fires(specs[|specs| - 1], addr, covers)
  {
    hide AnyCovers, Whitelist;
    SpecsInIndexOrder(ranges, nodes, frontend);
    SpecsShape(ranges, nodes, frontend);
  }

  /** So do the own rules of a frontend that compare equal to them. */
  lemma OwnIndices(own: seq<Rule>, ranges: seq<Range>, nodes: seq<Node>, frontend: Id, addr: string,
                   covers: (string, string) -> bool)
    requires ranges != [] && Sensible(ranges, nodes, addr, covers) && RulesEqual(own, Specs(ranges, nodes, frontend))
    ensures own != [] && forall i | 0 <= i < |own| :: i in Indices(own)
    ensures exists x | x in own :: x.index == |own| - 1 && Fires(x, addr, covers)
  {
    hide Specs, Fires, Whitelist, AnyCovers, Sensible;
    var specs := Specs(ranges, nodes, frontend);
    SpecsIndices(ranges, nodes, frontend, addr, covers);
    SortedRuleMembers(own);
    var g := SortByIndex(own);
    forall i | 0 <= i < |own| ensures i in Indices(own) {
      assert SameRule(g[i], specs[i]) && g[i] in g;
      assert g[i].index in Indices(g);
    }
    var last := g[|own| - 1];
    assert SameRule(last, specs[|own| - 1]) && last in g;
    SameRuleIsAgree(last, specs[|own| - 1]);
    AgreeFires(last, specs[|own| - 1], addr, covers);
  }

  /** Rules of others behind the deny-everyone rule change nothing. */
  lemma BehindDenyEveryone(acls: seq<Rule>, ranges: seq<Range>, nodes: seq<Node>, frontend: Id, addr: string,
                           covers: (string, string) -> bool)
    requires Ranked(acls) && RulesEqual(ListNamed(acls, AclPrefix(frontend)), Specs(ranges, nodes, frontend))
    requires ranges != [] && Sensible(ranges, nodes, addr, covers)
    requires forall x | x in acls && !HasPrefix(x.name, AclPrefix(frontend)) ::
               x.index >= |ListNamed(acls, AclPrefix(frontend))|
    ensures Decide(acls, addr, covers) == Verdict(ranges, nodes, addr, covers)
  {
    hide Specs, Decide, Fires, HasPrefix, RulesEqual, Verdict, Sensible, AclPrefix;
    var own := ListNamed(acls, AclPrefix(frontend));
    OwnIndices(own, ranges, nodes, frontend, addr, covers);
    var last :| last in own && last.index == |own| - 1 && Fires(last, addr, covers);
    ListNamedIn(acls, AclPrefix(frontend));
    var j :| 0 <= j < |acls| && acls[j] == last;
    AdmitsIntended(acls, ranges, nodes, frontend, addr, covers);
    forall d: nat ensures !Overrides(acls, AclPrefix(frontend), d, Verdict(ranges, nodes, addr, covers), addr, covers) {
      if d < |acls| && !HasPrefix(acls[d].name, AclPrefix(frontend)) {
        assert acls[d] in acls && acls[d].index > acls[j].index;
      }
    }
  }

  lemma ForeignIndex(acls: seq<Rule>, prefix: string, x: Rule)
    requires Indexed(acls) && x in acls && !HasPrefix(x.name, prefix)
    ensures x.index >= 0 && x.index !in Indices(ListNamed(acls, prefix))
  {
    hide HasPrefix;
    var own := ListNamed(acls, prefix);
    ListNamedIn(acls, prefix);
    var i :| 0 <= i < |acls| && acls[i] == x;
    forall j | 0 <= j < |own| ensures own[j].index != x.index {
      assert own[j] in own;
      var k :| 0 <= k < |acls| && acls[k] == own[j];
    }
  }

  /** Where no two rules share an index, a restricted service has all rules of others behind its own. */
  lemma DistinctIndicesDecide(acls: seq<Rule>, ranges: seq<Range>, nodes: seq<Node>, frontend: Id, addr: string,
                              covers: (string, string) -> bool)
    requires Indexed(acls) && RulesEqual(ListNamed(acls, AclPrefix(frontend)), Specs(ranges, nodes, frontend))
    requires ranges != [] && Sensible(ranges, nodes, addr, covers)
    ensures Decide(acls, addr, covers) == Verdict(ranges, nodes, addr, covers)
  {
    hide Specs, Decide, Fires, HasPrefix, RulesEqual, Verdict, Sensible, AclPrefix;
    var own := ListNamed(acls, AclPrefix(frontend));
    OwnIndices(own, ranges, nodes, frontend, addr, covers);
    forall x | x in acls && !HasPrefix(x.name, AclPrefix(frontend)) ensures x.index >= |own| {
      assert 0 <= x.index < |own| ==> x.index in Indices(own);
      ForeignIndex(acls, AclPrefix(frontend), x);
    }
    BehindDenyEveryone(acls, ranges, nodes, frontend, addr, covers);
  }

  /** A rule of someone else listed first, with an index no other one undercuts, decides whatever it fires
      on, and the comparison does not see it. */
  lemma ForeignRuleOverrides(x: Rule, acls: seq<Rule>, ranges: seq<Range>, nodes: seq<Node>, frontend: Id, addr: string,
                             covers: (string, string) -> bool)
    requires !HasPrefix(x.name, AclPrefix(frontend)) && Fires(x, addr, covers)
    requires 0 <= x.index < 0x8000_0000 && forall i | 0 <= i < |acls| :: x.index <= acls[i].index < 0x8000_0000
    ensures Decide([x] + acls, addr, covers) == x.action
    ensures RulesEqual(ListNamed([x] + acls, AclPrefix(frontend)), Specs(ranges, nodes, frontend))
            <==> RulesEqual(ListNamed(acls, AclPrefix(frontend)), Specs(ranges, nodes, frontend))
  {
    hide Specs, RulesEqual, HasPrefix, Fires, Decide;
    assert ([x] + acls)[1..] == acls;
    DecideIs([x] + acls, addr, covers);
    DecidingFires(acls, addr, covers);
    assert [] + ListNamed(acls, AclPrefix(frontend)) == ListNamed(acls, AclPrefix(frontend));
  }

  // ---- Two frontends on which a rule of someone else has the last word ----

  /** Entries cover the address they spell; the catch-all ranges cover everything. */
  function Spelt(entry: string, addr: string): bool {
    entry == addr || entry in EVERYONE
  }

  /** A service open to all compiles to no rule, so whatever someone else's rule denies stays out. */
  lemma OpenServiceDenied()
    ensures var x := Rule("ban", 0, Some(Deny), Some(Match(Items(["192.0.2.1"]), false)));
            && RulesEqual(ListNamed([x], AclPrefix(7)), Specs([], [], 7)) && Ranked([x])
            && Sensible([], [], "192.0.2.1", Spelt)
            && Verdict([], [], "192.0.2.1", Spelt) == Some(Allow) && Decide([x], "192.0.2.1", Spelt) == Some(Deny)
  {
    var x := Rule("ban", 0, Some(Deny), Some(Match(Items(["192.0.2.1"]), false)));
    ForeignToAll("ban", 7);
    assert Spelt(["192.0.2.1"][0], "192.0.2.1") && Spelt(EVERYONE[0], "192.0.2.1");
    ForeignRuleOverrides(x, [], [], [], 7, "192.0.2.1", Spelt);
    assert [x] + [] == [x] && ListNamed([], AclPrefix(7)) == [];
  }

  function ExampleRange(): Range {
    Range("198.51.100.0/24", true)
  }

  /** On a restricted service, someone else's rule that shares index 0 and is listed first lets everyone in. */
  lemma RestrictedServiceOpened()
    ensures var ranges := [ExampleRange()];
            var x := Rule("open", 0, Some(Allow), Some(Match(Items(EVERYONE), false)));
            var acls := [x] + Specs(ranges, [], 7);
            && RulesEqual(ListNamed(acls, AclPrefix(7)), Specs(ranges, [], 7))
            && Ranked(acls) && Sensible(ranges, [], "192.0.2.1", Spelt)
            && Verdict(ranges, [], "192.0.2.1", Spelt) == Some(Deny) && Decide(acls, "192.0.2.1", Spelt) == Some(Allow)
  {
    hide Specs, Decide, RulesEqual, ListNamed, Sensible, AclPrefix, HasPrefix, Fires, Intended, ExampleRange, Spelt;
    var ranges, specs := [ExampleRange()], Specs([ExampleRange()], [], 7);
    var x := Rule("open", 0, Some(Allow), Some(Match(Items(EVERYONE), false)));
    ForeignToAll("open", 7);
    ExampleSensible();
    AllFires(x, "192.0.2.1");
    SpecsIndices(ranges, [], 7, "192.0.2.1", Spelt);
    SpecsFew(ranges, [], 7);
    SpecsListed(ranges, [], 7);
    ForeignRuleOverrides(x, specs, ranges, [], 7, "192.0.2.1", Spelt);
  }

  lemma AllFires(x: Rule, addr: string)
    requires x.match_ == Some(Match(Items(EVERYONE), false))
    ensures Fires(x, addr, Spelt)
  {
    assert Spelt(EVERYONE[0], addr);
  }

  lemma SpecsFew(ranges: seq<Range>, nodes: seq<Node>, frontend: Id)
    requires |Whitelist(ranges, nodes)| <= 60 * 0x7fff_ffff
    ensures Ranked(Specs(ranges, nodes, frontend))
  {
    hide Specs, Whitelist;
    SpecsInIndexOrder(ranges, nodes, frontend);
  }

  lemma ExampleSensible()
    ensures Sensible([ExampleRange()], [], "192.0.2.1", Spelt) && !Intended([ExampleRange()], [], "192.0.2.1", Spelt)
    ensures |Whitelist([ExampleRange()], [])| <= 60 * 0x7fff_ffff
  {
    hide Spelt, EVERYONE, TrimHostSuffix, ValidRanges, HostLengthsIdle;
    var r := ExampleRange();
    ExampleUncovered();
    ExampleHosts("192.0.2.1", Spelt);
    assert ValidRanges([r]) == [TrimHostSuffix(r.text)] by {
      ExampleValid(r);
    }
  }

  lemma ExampleHosts(addr: string, covers: (string, string) -> bool)
    ensures HostLengthsIdle([ExampleRange()], addr, covers)
  {
    var text := ExampleRange().text;
    assert text[|text| - 1] == '4';
    forall x ensures text != x + "/32" && text != x + "/128" {
      assert (x + "/32")[|x| + 2] == '2' && (x + "/128")[|x| + 3] == '8';
    }
  }

  lemma ExampleValid(r: Range)
    ensures ValidRanges([r]) == if r.parses then [TrimHostSuffix(r.text)] else []
  {
    hide TrimHostSuffix;
    assert ValidRanges([]) == [] && [r][..0] == [];
  }

  lemma ExampleUncovered()
    ensures var r := ExampleRange();
            && !Spelt(r.text, "192.0.2.1")
    ensures AnyCovers(EVERYONE, "192.0.2.1", Spelt)
  {
    var r := ExampleRange();
    assert Spelt(EVERYONE[0], "192.0.2.1");
    assert r.text[0] == '1' && r.text[2] == '8' && "192.0.2.1"[2] == '2' && EVERYONE[0][0] == '0'
           && EVERYONE[1][0] == ':';
  }

  lemma ForeignToAll(name: string, frontend: Id)
    requires |name| == 3 || |name| == 4
    ensures !HasPrefix(name, AclPrefix(frontend))
  {
  }
}
