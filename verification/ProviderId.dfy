/** Provider identifiers of nodes: "scaleway://product/zone/uuid", or "scaleway://uuid" for old ones. */
module ProviderId {
  import opened Basics

  const SCHEME := "scaleway://"
  const INSTANCE := "instance"
  const BAREMETAL := "baremetal"

  /** The position of the first occurrence. */
  function FirstIndex(s: string, c: char): (n: nat)
    ensures n <= |s|
    ensures c !in s[..n]
    ensures n < |s| ==> s[n] == c
    ensures n == |s| <==> c !in s
  {
    if s == "" || s[0] == c then 0 else 1 + FirstIndex(s[1..], c)
  }

  /** What follows the first occurrence of the scheme, if there is one. */
  function AfterScheme(s: string): Option<string> {
    if HasPrefix(s, SCHEME) then Some(s[|SCHEME|..])
    else if s == "" then None
    else AfterScheme(s[1..])
  }

  /** The rest of the line, which is as far as a dot in the pattern reaches. */
  function Line(s: string): (r: string)
    ensures '\n' !in r
  {
    s[..FirstIndex(s, '\n')]
  }

  /** The named groups of providerIDRegexp: product, localization and identifier when there are two
      slashes, else the identifier alone. */
  datatype Groups = Groups(product: string, localization: string, uuid: string, loneUuid: string)

  function GroupsOf(line: string): Groups {
    var i := FirstIndex(line, '/');
    if i == |line| then Groups("", "", "", line)
    else
      var tail := line[i + 1..];
      var j := FirstIndex(tail, '/');
      if j == |tail| then Groups("", "", "", line)
      else Groups(line[..i], tail[..j], tail[j + 1..], "")
  }

  function Match(s: string): Option<Groups> {
    var rest := AfterScheme(s);
    if rest.None? then None else Some(GroupsOf(Line(rest.value)))
  }

  datatype ServerInfo = ServerInfo(product: string, zone: string, uuid: string)

  /** What an identifier says: None for one without the scheme. */
  function Parse(s: string): Option<ServerInfo> {
    match Match(s)
    case None => None
    case Some(g) =>
      Some(ServerInfo(if g.product == "" then INSTANCE else g.product,
                      g.localization,
                      if g.loneUuid != "" then g.loneUuid else g.uuid))
  }

  /** The names of the groups; two groups share the last. */
  datatype GroupName = Product | Localization | Uuid

  function Lookup(m: map<GroupName, string>, k: GroupName): string {
    if k in m then m[k] else ""
  }

  /** ServerInfoFromProviderID */
  method ServerInfoFromProviderID(providerID: string) returns (r: Option<ServerInfo>)
    ensures r == Parse(providerID)
  {
    hide Match;
    var g := Match(providerID);
    if g.None? {
      return None;
    }
    var names := [Product, Localization, Uuid, Uuid];
    var groups := [g.value.product, g.value.localization, g.value.uuid, g.value.loneUuid];
    var result: map<GroupName, string> := map[];
    for i := 0 to 4
      invariant Lookup(result, Product) == if i >= 1 then groups[0] else ""
      invariant Lookup(result, Localization) == if i >= 2 then groups[1] else ""
      invariant Lookup(result, Uuid) == if i == 4
                && groups[3] != "" then groups[3] else if i >= 3 then groups[2] else ""
      invariant Product in result ==> result[Product] != ""
    {
      if groups[i] != "" {
        result := result[names[i] := groups[i]];
      }
    }
    if Product !in result {
      result := result[Product := INSTANCE];
    }
    return Some(ServerInfo(Lookup(result, Product), Lookup(result, Localization), Lookup(result, Uuid)));
  }

  /** BuildProviderID */
  function Build(product: string, zone: string, id: string): string {
    SCHEME + product + "/" + zone + "/" + id
  }

  /** getImplementationByProviderID: whether the bare-metal implementation is chosen. */
  predicate ServedByBaremetal(providerID: string) {
    HasPrefix(providerID, SCHEME + BAREMETAL)
  }

  // ---- Properties ----

  /** The scheme occurs at a position. */
  ghost predicate SchemeAt(s: string, i: nat) {
    i + |SCHEME| <= |s| && s[i..i + |SCHEME|] == SCHEME
  }

  /** What is looked at begins behind the first occurrence of the scheme. */
  lemma {:induction false} AfterSchemeMeans(s: string)
    ensures AfterScheme(s).None? <==> forall i: nat :: !SchemeAt(s, i)
    ensures forall i: nat | SchemeAt(s, i) && (forall j: nat | j < i :: !SchemeAt(s, j)) ::
              AfterScheme(s) == Some(s[i + |SCHEME|..])
  {
    assert HasPrefix(s, SCHEME) <==> SchemeAt(s, 0) by {
      assert SchemeAt(s, 0) ==> s[..|SCHEME|] == SCHEME;
      assert s[0..] == s;
    }
    if s != "" && !HasPrefix(s, SCHEME) {
      var t := s[1..];
      AfterSchemeMeans(t);
      forall i: nat ensures i > 0 ==> (SchemeAt(s, i) <==> SchemeAt(t, i - 1)) {
        SchemeShifts(s, i);
      }
      if i: nat :| SchemeAt(t, i) {
        assert SchemeAt(s, i + 1);
      }
      forall i: nat | SchemeAt(s, i) && (forall j: nat | j < i :: !SchemeAt(s, j))
          ensures AfterScheme(s) == Some(s[i + |SCHEME|..])
      {
        assert t[i - 1 + |SCHEME|..] == s[i + |SCHEME|..];
        forall j: nat | j < i - 1 ensures !SchemeAt(t, j) {
          assert !SchemeAt(s, j + 1);
        }
      }
    }
  }

  lemma SliceShifts(s: string, i: nat, n: nat)
    requires 0 < i && i + n <= |s|
    ensures s[i..i + n] == s[1..][i - 1..i - 1 + n]
  {
    var a, b := s[i..i + n], s[1..][i - 1..i - 1 + n];
    forall k | 0 <= k < n ensures a[k] == b[k] {
      assert s[1..][i - 1 + k] == s[i + k];
    }
    assert |a| == |b| == n;
  }

  lemma SchemeShifts(s: string, i: nat)
    requires s != ""
    ensures i > 0 ==> (SchemeAt(s, i) <==> SchemeAt(s[1..], i - 1))
  {
    if i > 0 && i + |SCHEME| <= |s| {
      SliceShifts(s, i, |SCHEME|);
    }
  }

  /** What is parsed never holds a line break; product and zone hold no slash, and there is always a
      product. */
  lemma ParsedParts(s: string)
    requires Parse(s).Some?
    ensures var i := Parse(s).value;
            && i.product != "" && '/' !in i.product && '/' !in i.zone
            && '\n' !in i.product && '\n' !in i.zone && '\n' !in i.uuid
  {
    hide AfterScheme, Line, GroupsOf;
    PartsOfLine(Line(AfterScheme(s).value));
    assert INSTANCE != "" && '/' !in INSTANCE && '\n' !in INSTANCE;
  }

  lemma PartsOfLine(line: string)
    requires '\n' !in line
    ensures var g := GroupsOf(line);
            && '/' !in g.product && '/' !in g.localization
            && '\n' !in g.product && '\n' !in g.localization && '\n' !in g.uuid && '\n' !in g.loneUuid
  {
    hide FirstIndex;
  }

  predicate OneLine(product: string, zone: string, id: string) {
    '\n' !in product && '\n' !in zone && '\n' !in id
  }

  lemma {:induction false} FirstIndexIs(a: string, c: char, b: string)
    requires c !in a
    ensures FirstIndex(a + [c] + b, c) == |a|
  {
    if a != "" {
      FirstIndexIs(a[1..], c, b);
      assert (a + [c] + b)[1..] == a[1..] + [c] + b;
    }
  }

  lemma BuiltMatches(product: string, zone: string, id: string)
    requires '/' !in product && '/' !in zone && OneLine(product, zone, id)
    ensures Match(Build(product, zone, id)) == Some(Groups(product, zone, id, ""))
  {
    hide FirstIndex;
    var s := Build(product, zone, id);
    var line := product + ['/'] + (zone + ['/'] + id);
    assert s == SCHEME + line;
    assert AfterScheme(s) == Some(line) by {
      assert s[|SCHEME|..] == line;
    }
    assert '\n' !in line;
    assert Line(line) == line by {
      assert FirstIndex(line, '\n') == |line|;
      assert line[..|line|] == line;
    }
    FirstIndexIs(product, '/', zone + ['/'] + id);
    assert line[..|product|] == product && line[|product| + 1..] == zone + ['/'] + id;
    var tail := zone + ['/'] + id;
    FirstIndexIs(zone, '/', id);
    assert tail[..|zone|] == zone && tail[|zone| + 1..] == id;
  }

  /** A built identifier is parsed back to what it was built from exactly when there is a product,
      product and zone hold no slash and nothing holds a line break.  The identifier itself may hold
      slashes. */
  lemma RoundTrip(product: string, zone: string, id: string)
    ensures Parse(Build(product, zone, id)) == Some(ServerInfo(product, zone, id)) <==>
            product != "" && '/' !in product && '/' !in zone && OneLine(product, zone, id)
  {
    hide Match, Build;
    if '/' !in product && '/' !in zone && OneLine(product, zone, id) {
      BuiltMatches(product, zone, id);
    }
    if Parse(Build(product, zone, id)).Some? {
      ParsedParts(Build(product, zone, id));
    }
  }

  /** Whatever the identifier, old or new, building one from what it says loses nothing. */
  lemma Rebuilt(s: string)
    requires Parse(s).Some?
    ensures var i := Parse(s).value; Parse(Build(i.product, i.zone, i.uuid)) == Parse(s)
  {
    hide Match, Build;
    ParsedParts(s);
    var i := Parse(s).value;
    RoundTrip(i.product, i.zone, i.uuid);
  }

  lemma PrefixOfBuilt(product: string, zone: string, id: string)
    requires '/' !in product
    ensures ServedByBaremetal(Build(product, zone, id)) <==> HasPrefix(product, BAREMETAL)
  {
    var s := Build(product, zone, id);
    assert s == SCHEME + (product + "/" + zone + "/" + id);
    var t := product + "/" + zone + "/" + id;
    assert HasPrefix(s, SCHEME + BAREMETAL) <==> HasPrefix(t, BAREMETAL) by {
      PrefixUnder(SCHEME, BAREMETAL, t);
    }
    if HasPrefix(t, BAREMETAL) {
      assert t[|product|] == '/';
      assert forall i | 0 <= i < |BAREMETAL| :: t[i] == BAREMETAL[i] && t[i] != '/';
      assert t[..|BAREMETAL|] == BAREMETAL;
      assert product[..|BAREMETAL|] == t[..|BAREMETAL|];
    }
    if HasPrefix(product, BAREMETAL) {
      assert t[..|BAREMETAL|] == product[..|BAREMETAL|];
    }
  }

  lemma PrefixUnder(scheme: string, a: string, b: string)
    ensures HasPrefix(scheme + b, scheme + a) <==> HasPrefix(b, a)
  {
    if HasPrefix(scheme + b, scheme + a) {
      var t := scheme + b;
      assert t[..|scheme + a|] == scheme + a;
      assert t[..|scheme + a|][|scheme|..] == a;
      assert t[|scheme|..] == b;
      assert a == b[..|a|];
    }
    if HasPrefix(b, a) {
      assert (scheme + b)[..|scheme + a|] == scheme + a;
    }
  }

  /** Choosing the implementation by the start of the text agrees with the product that is parsed,
      exactly unless the product is something longer that starts with "baremetal". */
  lemma DispatchAgrees(product: string, zone: string, id: string)
    requires product != "" && '/' !in product && '/' !in zone && OneLine(product, zone, id)
    ensures var s := Build(product, zone, id);
            Parse(s).Some? && ((ServedByBaremetal(s) <==> Parse(s).value.product == BAREMETAL)
                               <==> product == BAREMETAL || !HasPrefix(product, BAREMETAL))
    ensures product == INSTANCE ==> !ServedByBaremetal(Build(product, zone, id))
    ensures product == BAREMETAL ==> ServedByBaremetal(Build(product, zone, id))
  {
    hide Match, Build, ServedByBaremetal, Parse;
    RoundTrip(product, zone, id);
    PrefixOfBuilt(product, zone, id);
    assert INSTANCE[0] == 'i' && BAREMETAL[0] == 'b';
  }

  /** What follows the scheme names the bare-metal product: it starts with it and a slash, and there is
      another slash on the same line. */
  predicate NamesBaremetal(t: string) {
    HasPrefix(Line(t), BAREMETAL + "/") && '/' in Line(t)[|BAREMETAL| + 1..]
  }

  lemma GroupsNameBaremetal(line: string)
    ensures GroupsOf(line).product == BAREMETAL <==> HasPrefix(line, BAREMETAL + "/") && '/' in line[|BAREMETAL| + 1..]
  {
    hide FirstIndex;
    var i := FirstIndex(line, '/');
    var head := BAREMETAL + "/";
    BaremetalHead();
    if HasPrefix(line, head) {
      assert line[|BAREMETAL|] == head[|BAREMETAL|] == '/';
      assert line[..|BAREMETAL|] == head[..|BAREMETAL|] == BAREMETAL;
      assert i == |BAREMETAL| by {
        FirstIndexIs(BAREMETAL, '/', line[|BAREMETAL| + 1..]);
        assert line == BAREMETAL + ['/'] + line[|BAREMETAL| + 1..];
      }
    }
    if i < |line| && line[..i] == BAREMETAL {
      assert line[..i + 1] == line[..i] + ['/'];
    }
  }

  lemma BaremetalHead()
    ensures '/' !in BAREMETAL && BAREMETAL != "" && BAREMETAL != INSTANCE
  {
    assert INSTANCE[0] == 'i' && BAREMETAL[0] == 'b';
  }

  lemma ParsesBaremetal(s: string)
    ensures Parse(s).Some? && Parse(s).value.product == BAREMETAL
            <==> AfterScheme(s).Some? && NamesBaremetal(AfterScheme(s).value)
  {
    hide AfterScheme, Line, GroupsOf, HasPrefix;
    BaremetalHead();
    if AfterScheme(s).Some? {
      GroupsNameBaremetal(Line(AfterScheme(s).value));
    }
  }

  lemma LineStart(t: string)
    requires HasPrefix(Line(t), BAREMETAL + "/")
    ensures HasPrefix(t, BAREMETAL)
  {
    hide FirstIndex;
    var head := BAREMETAL + "/";
    assert head[..|BAREMETAL|] == BAREMETAL;
    assert Line(t)[..|head|] == t[..|head|];
    assert t[..|BAREMETAL|] == t[..|head|][..|BAREMETAL|];
  }

  /** On any text at all the two agree, exactly unless it starts with the scheme and "baremetal" but goes on
      otherwise than with a slash and, on the same line, a second one; or has the scheme only further on,
      with the bare-metal product behind it. */
  lemma DispatchAgreesOnText(s: string)
    ensures (ServedByBaremetal(s) <==> Parse(s).Some? && Parse(s).value.product == BAREMETAL) <==>
            if HasPrefix(s, SCHEME + BAREMETAL) then NamesBaremetal(s[|SCHEME|..])
            else HasPrefix(s, SCHEME) || AfterScheme(s).None? || !NamesBaremetal(AfterScheme(s).value)
  {
    hide Line, Match, Parse;
    ParsesBaremetal(s);
    if HasPrefix(s, SCHEME) {
      var t := s[|SCHEME|..];
      assert s == SCHEME + t;
      assert AfterScheme(s) == Some(t);
      PrefixUnder(SCHEME, BAREMETAL, t);
      if NamesBaremetal(t) {
        LineStart(t);
      }
    } else {
      SchemeFirst(s);
    }
  }

  lemma SchemeFirst(s: string)
    ensures HasPrefix(s, SCHEME + BAREMETAL) ==> HasPrefix(s, SCHEME)
  {
    if HasPrefix(s, SCHEME + BAREMETAL) {
      assert s[..|SCHEME|] == (SCHEME + BAREMETAL)[..|SCHEME|] == SCHEME;
    }
  }

  /** An old identifier that happens to start like the product goes to the bare-metal implementation. */
  lemma OldIdentifierMisled()
    ensures var s := "scaleway://baremetal7";
            ServedByBaremetal(s) && Parse(s) == Some(ServerInfo(INSTANCE, "", "baremetal7"))
  {
    hide AfterScheme, Line, FirstIndex;
    var s, t := "scaleway://baremetal7", "baremetal7";
    assert s == SCHEME + t && s[|SCHEME|..] == t;
    PrefixUnder(SCHEME, BAREMETAL, t);
    assert HasPrefix(t, BAREMETAL);
    StartsWithScheme(s);
    WholeLine(t);
    assert '/' !in t;
  }

  lemma StartsWithScheme(s: string)
    requires HasPrefix(s, SCHEME)
    ensures AfterScheme(s) == Some(s[|SCHEME|..])
  {
  }

  lemma WholeLine(t: string)
    requires '\n' !in t
    ensures Line(t) == t
  {
    hide FirstIndex;
    assert t[..|t|] == t;
  }

  lemma LineMeans(s: string)
    ensures Line(s) <= s && (Line(s) == s || s[|Line(s)|] == '\n')
  {
    hide FirstIndex;
    if FirstIndex(s, '\n') == |s| {
      assert s[..|s|] == s;
    }
  }

  /** With two slashes on the line, the parts before, between and behind them are the product, the zone and
      the identifier. */
  lemma TwoSlashes(before: string, a: string, b: string, c: string)
    requires forall j: nat | j < |before| :: !SchemeAt(before + "scaleway://" + a + "/" + b + "/" + c, j)
    requires '/' !in a && '/' !in b && OneLine(a, b, c)
    ensures Parse(before + "scaleway://" + a + "/" + b + "/" + c)
            == Some(ServerInfo(if a == "" then "instance" else a, b, c))
  {
    hide AfterScheme, Match, FirstIndex, SchemeAt;
    var s, line := before + "scaleway://" + a + "/" + b + "/" + c, a + "/" + b + "/" + c;
    assert s == before + SCHEME + line;
    FoundBehind(before, line);
    assert Build(a, b, c) == SCHEME + line;
    FoundAtStart(line);
    BuiltMatches(a, b, c);
    SameRest(s, Build(a, b, c));
  }

  lemma FoundAtStart(line: string)
    ensures AfterScheme(SCHEME + line) == Some(line)
  {
    assert (SCHEME + line)[|SCHEME|..] == line;
  }

  lemma SameRest(s: string, s': string)
    requires AfterScheme(s) == AfterScheme(s')
    ensures Match(s) == Match(s')
  {
  }

  lemma FoundBehind(before: string, line: string)
    requires forall j: nat | j < |before| :: !SchemeAt(before + SCHEME + line, j)
    ensures AfterScheme(before + SCHEME + line) == Some(line)
  {
    hide AfterScheme;
    var s := before + SCHEME + line;
    AfterSchemeMeans(s);
    assert s[|before|..|before| + |SCHEME|] == SCHEME;
    assert SchemeAt(s, |before|);
    assert s[|before| + |SCHEME|..] == line;
  }

  /** With fewer, the whole line is the identifier of an instance of unknown zone. */
  lemma FewSlashes(before: string, line: string)
    requires forall j: nat | j < |before| :: !SchemeAt(before + "scaleway://" + line, j)
    requires '\n' !in line && forall i, j | 0 <= i < j < |line| :: line[i] != '/' || line[j] != '/'
    ensures Parse(before + "scaleway://" + line) == Some(ServerInfo("instance", "", line))
  {
    hide AfterScheme, Line, FirstIndex, SchemeAt;
    FoundBehind(before, line);
    WholeLine(line);
    LoneGroup(line);
  }

  lemma LoneGroup(line: string)
    requires forall i, j | 0 <= i < j < |line| :: line[i] != '/' || line[j] != '/'
    ensures GroupsOf(line) == Groups("", "", "", line)
  {
    hide FirstIndex;
    var i := FirstIndex(line, '/');
    if i < |line| {
      var tail := line[i + 1..];
      forall j | 0 <= j < |tail| ensures tail[j] != '/' {
        assert line[i + 1 + j] == tail[j];
      }
    }
  }

  /** What follows a line break is not looked at. */
  lemma LineBreakEnds(before: string, line: string, rest: string)
    requires forall j: nat | j < |before| :: !SchemeAt(before + "scaleway://" + (line + "\n" + rest), j)
    requires '\n' !in line
    ensures Parse(before + "scaleway://" + (line + "\n" + rest)) == Parse("scaleway://" + line)
  {
    hide AfterScheme, Line, FirstIndex, SchemeAt, GroupsOf;
    FoundBehind(before, line + "\n" + rest);
    FoundAtStart(line);
    WholeLine(line);
    CutLine(line, rest);
  }

  lemma CutLine(line: string, rest: string)
    requires '\n' !in line
    ensures Line(line + "\n" + rest) == line
  {
    hide FirstIndex;
    FirstIndexIs(line, '\n', rest);
    assert line + "\n" + rest == line + ['\n'] + rest;
  }

  /** Without the scheme there is nothing to parse. */
  lemma NoScheme(s: string)
    ensures Parse(s).None? <==> forall i: nat :: !SchemeAt(s, i)
  {
    hide AfterScheme, GroupsOf, Line, SchemeAt;
    AfterSchemeMeans(s);
  }
}
