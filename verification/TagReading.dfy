/** Exactly which tags are read as which labels and taints, from the characters up. */
module TagReading {
  import opened Basics
  import opened TagParser

  // ---- Names, by their alphabets ----

  const DIGITS := "0123456789"

  lemma DigitsAre(k: nat)
    requires k < 10
    ensures DIGITS[k] as int == '0' as int + k
  {
  }

  lemma InAlphabet(c: char)
    ensures c in UPPER <==> 'A' <= c <= 'Z'
    ensures c in LOWER <==> 'a' <= c <= 'z'
    ensures c in DIGITS <==> '0' <= c <= '9'
  {
    hide *;
    AlphabetSizes();
    forall k | 0 <= k < 26 ensures UPPER[k] as int == 'A' as int + k && LOWER[k] as int == 'a' as int + k {
      Alphabet(k);
    }
    forall k | 0 <= k < 10 ensures DIGITS[k] as int == '0' as int + k {
      DigitsAre(k);
    }
    if 'A' <= c <= 'Z' { assert UPPER[c as int - 'A' as int] == c; }
    if 'a' <= c <= 'z' { assert LOWER[c as int - 'a' as int] == c; }
    if '0' <= c <= '9' { assert DIGITS[c as int - '0' as int] == c; }
  }

  lemma AlphabetSizes()
    ensures |UPPER| == 26 && |LOWER| == 26 && |DIGITS| == 10
  {
  }

  lemma CharactersMean(c: char)
    ensures IsAlnum(c) <==> c in UPPER + LOWER + DIGITS
    ensures IsNameChar(c) <==> c in UPPER + LOWER + DIGITS + "-_."
    ensures IsDnsChar(c) <==> c in LOWER + DIGITS + "-"
    ensures IsSep(c) <==> c in ":= "
  {
    hide UPPER, LOWER, DIGITS;
    InAlphabet(c);
  }

  /** A letter or digit at both ends, and letters, digits, dashes, underscores and dots in between. */
  ghost predicate Named(s: string) {
    && |s| >= 1 && s[0] in UPPER + LOWER + DIGITS && s[|s| - 1] in UPPER + LOWER + DIGITS
    && forall c | c in s :: c in UPPER + LOWER + DIGITS + "-_."
  }

  /** A lower-case letter or digit at both ends, and lower-case letters, digits and dashes in between. */
  ghost predicate NamedDns(s: string) {
    && |s| >= 1 && s[0] in LOWER + DIGITS && s[|s| - 1] in LOWER + DIGITS
    && forall c | c in s :: c in LOWER + DIGITS + "-"
  }

  lemma QualifiedNameMeans(s: string)
    ensures QualifiedName(s) <==> Named(s)
  {
    hide IsAlnum, IsNameChar, UPPER, LOWER, DIGITS;
    forall c ensures IsAlnum(c) <==> c in UPPER + LOWER + DIGITS
             ensures IsNameChar(c) <==> c in UPPER + LOWER + DIGITS + "-_."
    {
      CharactersMean(c);
    }
  }

  lemma DnsLabelMeans(s: string)
    ensures DnsLabel(s) <==> NamedDns(s)
  {
    hide UPPER, LOWER, DIGITS;
    forall c ensures IsDnsChar(c) <==> c in LOWER + DIGITS + "-" {
      CharactersMean(c);
    }
    InAlphabet('-');
  }

  /** What makes a label valid: a name of at most 63 characters, a value that is empty or of the same form, and
      a prefix of at most 253 characters whose parts between dots are labels of a domain name. */
  lemma ValidPartsMean(p: Prefix, name: string, value: string)
    ensures ValidParts(p, name, value) <==>
            && Named(name) && |name| <= 63
            && (value == "" || (Named(value) && |value| <= 63))
            && (p.Dns? ==> |p.domain| <= 253 && forall part | part in Split(p.domain, '.') :: NamedDns(part))
  {
    hide QualifiedName, Named, DnsLabel, NamedDns, Split;
    QualifiedNameMeans(name);
    QualifiedNameMeans(value);
    forall s: string ensures DnsLabel(s) <==> NamedDns(s) {
      DnsLabelMeans(s);
    }
  }

  // ---- Labels ----

  /** The text is a name, or a name and a value with separators between them and anything after further
      separators. */
  ghost predicate Reads(s: string, name: string, value: string) {
    || (s == name && value == "")
    || exists sep, rest :: ReadsAs(s, name, sep, value, rest)
  }

  ghost predicate ReadsAs(s: string, name: string, sep: string, value: string, rest: string) {
    && s == name + sep + value + rest
    && sep != "" && (forall c | c in sep :: c in ":= ")
    && (rest == "" || (value != "" && rest[0] in ":= "))
  }

  lemma {:induction false} SkipSepsCuts(s: string) returns (sep: string)
    ensures s == sep + SkipSeps(s) && forall i | 0 <= i < |sep| :: IsSep(sep[i])
    ensures SkipSeps(s) == "" || !IsSep(SkipSeps(s)[0])
  {
    hide IsSep;
    sep := "";
    if s != "" && IsSep(s[0]) {
      sep := SkipSepsCuts(s[1..]);
      sep := [s[0]] + sep;
      assert s == [s[0]] + s[1..];
    }
  }

  lemma SeparatorsMean()
    ensures forall c :: IsSep(c) <==> c in ":= "
  {
    hide UPPER, LOWER, DIGITS;
    forall c ensures IsSep(c) <==> c in ":= " {
      CharactersMean(c);
    }
  }

  /** The first pieces of a text, and what it is made of. */
  lemma PiecesRead(s: string)
    ensures var r := Pieces(s); Reads(s, r[0], if |r| == 1 then "" else r[1])
  {
    hide IsSep, Pieces, SkipSeps, FirstSep;
    SeparatorsMean();
    var n := FirstSep(s);
    FirstSepFirst(s);
    assert s == s[..n] + s[n..];
    FirstPiece(s[..n], s[n..]);
    if n < |s| {
      var sep := SkipSepsCuts(s[n..]);
      var tail := SkipSeps(s[n..]);
      var m := FirstSep(tail);
      FirstSepFirst(tail);
      assert tail == tail[..m] + tail[m..];
      FirstPiece(tail[..m], tail[m..]);
      assert s == s[..n] + sep + tail[..m] + tail[m..];
      assert s[n..] == sep + tail && s[n..][0] == s[n];
      assert forall c | c in sep :: IsSep(c);
      assert ReadsAs(s, s[..n], sep, tail[..m], tail[m..]);
    } else {
      assert s[..n] == s;
    }
  }

  lemma EmptyValue()
    ensures LabelValue("")
  {
  }

  /** A text yields a name and a value exactly if it is made of them and they are valid. */
  lemma NameValueExactly(prefix: string, s: string, name: string, value: string)
    requires name != ""
    ensures NameValue(prefix, s) == Parsed(prefix + name, value)
            <==> ValidParts(Bare, name, value) && Reads(s, name, value)
  {
    hide QualifiedName, LabelValue, Pieces, Reads;
    EmptyValue();
    PiecesRead(s);
    var r := Pieces(s);
    if NameValue(prefix, s) == Parsed(prefix + name, value) {
      assert prefix + name != "";
      assert prefix + name == prefix + r[0];
      assert (prefix + name)[|prefix|..] == name && (prefix + r[0])[|prefix|..] == r[0];
    }
    if ValidParts(Bare, name, value) && Reads(s, name, value) {
      ReadsYields(prefix, s, name, value);
    }
  }

  lemma ReadsYields(prefix: string, s: string, name: string, value: string)
    requires ValidParts(Bare, name, value) && Reads(s, name, value)
    ensures NameValue(prefix, s) == Parsed(prefix + name, value)
  {
    hide QualifiedName, LabelValue, NameValue, IsSep;
    SeparatorsMean();
    if s == name && value == "" {
      NameValuePlain(prefix, name);
    } else {
      var sep, rest :| ReadsAs(s, name, sep, value, rest);
      NameValueSeparated(prefix, name, sep, value, rest);
    }
  }

  /** How a tag spells a label: under the controller's own prefix as it is, under none behind a marker, under
      a domain behind the marker, the domain and a slash. */
  ghost predicate Spells(tag: string, p: Prefix, name: string, value: string) {
    match p
    case Own => !("noprefix=" <= tag) && Reads(tag, name, value)
    case Bare => exists s :: tag == "noprefix=" + s && '/' !in s && Reads(s, name, value)
    case Dns(d) => exists s :: tag == "noprefix=" + d + "/" + s && '/' !in d && '/' !in s && Reads(s, name, value)
  }

  ghost predicate SpellsLabel(tag: string, p: Prefix, name: string, k: string, value: string) {
    ValidParts(p, name, value) && Spells(tag, p, name, value) && k == KeyPrefix(p) + name
  }

  lemma MarkersAre()
    ensures NO_PREFIX == "noprefix=" && TAINT_PREFIX == "taint=" && LABELS_PREFIX == "k8s.scaleway.com/"
  {
  }

  lemma BareParts(bare: string)
    ensures |Split(bare, '/')| == 1 <==> '/' !in bare
    ensures |Split(bare, '/')| == 2 ==>
              var parts := Split(bare, '/');
              bare == parts[0] + "/" + parts[1] && '/' !in parts[0] && '/' !in parts[1]
  {
    hide Split;
    SplitJoins(bare, '/');
    var parts := Split(bare, '/');
    if |parts| == 1 {
      assert bare == parts[0];
    } else if |parts| == 2 {
      assert parts[1..] == [parts[1]];
    }
    if '/' !in bare {
      SplitNone(bare, '/');
    }
  }

  lemma OwnExactly(tag: string, k: string, v: string)
    requires k != "" && !("noprefix=" <= tag)
    ensures TagLabelParser(tag) == Parsed(k, v) <==> exists name :: SpellsLabel(tag, Own, name, k, v)
  {
    hide NameValue, ValidParts, Reads, Pieces, LABELS_PREFIX;
    OwnIsNameValue(tag);
    if TagLabelParser(tag) == Parsed(k, v) {
      var name := Pieces(tag)[0];
      NamedPiece(LABELS_PREFIX, tag);
      NameValueExactly(LABELS_PREFIX, tag, name, v);
      SameParts(Own, name, v);
      assert SpellsLabel(tag, Own, name, k, v);
    }
    if name :| SpellsLabel(tag, Own, name, k, v) {
      NameNotEmpty(Own, name, v);
      SameParts(Own, name, v);
      NameValueExactly(LABELS_PREFIX, tag, name, v);
    }
  }

  lemma OwnIsNameValue(tag: string)
    requires !("noprefix=" <= tag)
    ensures TagLabelParser(tag) == NameValue(LABELS_PREFIX, tag)
  {
    hide NameValue;
    MarkersAre();
  }

  lemma NamedPiece(prefix: string, s: string)
    requires NameValue(prefix, s).key != ""
    ensures Pieces(s)[0] != "" && NameValue(prefix, s).key == prefix + Pieces(s)[0]
  {
    hide Pieces;
  }

  lemma NameNotEmpty(p: Prefix, name: string, value: string)
    requires ValidParts(p, name, value)
    ensures name != "" && (p.Dns? ==> DnsSubdomain(p.domain) && p.domain != "")
  {
    if p.Dns? {
      DnsNotEmpty(p.domain);
    }
  }

  lemma SameParts(p: Prefix, name: string, value: string)
    ensures ValidParts(p, name, value) <==> ValidParts(Bare, name, value) && (p.Dns? ==> DnsSubdomain(p.domain))
  {
  }

  lemma BareExactly(s: string, k: string, v: string)
    requires k != "" && '/' !in s
    ensures TagLabelParser("noprefix=" + s) == Parsed(k, v) <==> ValidParts(Bare, k, v) && Reads(s, k, v)
  {
    hide NameValue, ValidParts, Reads, TagLabelParser;
    MarkersAre();
    BareTag(s);
    assert "" + k == k;
    NameValueExactly("", s, k, v);
  }

  lemma DnsExactly(d: string, s: string, k: string, v: string)
    requires k != "" && '/' !in d && '/' !in s
    ensures TagLabelParser("noprefix=" + d + "/" + s) == Parsed(k, v)
            <==> exists name :: ValidParts(Dns(d), name, v) && Reads(s, name, v) && k == d + "/" + name
  {
    hide NameValue, ValidParts, Reads, Pieces, DnsSubdomain, TagLabelParser;
    SlashedTag(d, s);
    if TagLabelParser("noprefix=" + d + "/" + s) == Parsed(k, v) {
      var name := Pieces(s)[0];
      NamedPiece(d + "/", s);
      NameValueExactly(d + "/", s, name, v);
      SameParts(Dns(d), name, v);
    }
    if name :| ValidParts(Dns(d), name, v) && Reads(s, name, v) && k == d + "/" + name {
      NameNotEmpty(Dns(d), name, v);
      SameParts(Dns(d), name, v);
      NameValueExactly(d + "/", s, name, v);
    }
  }

  lemma SlashedTag(d: string, s: string)
    requires '/' !in d && '/' !in s
    ensures TagLabelParser("noprefix=" + d + "/" + s) ==
            if d == "" || !DnsSubdomain(d) then NOTHING else NameValue(d + "/", s)
  {
    hide NameValue, DnsSubdomain, Split;
    MarkersAre();
    SplitNone(s, '/');
    SplitOne(d, s, '/');
    var tag := NO_PREFIX + d + "/" + s;
    assert tag == NO_PREFIX + (d + ['/'] + s);
    assert tag[|NO_PREFIX|..] == d + ['/'] + s;
  }

  /** More than one slash behind the marker is too many. */
  lemma TooManySlashes(bare: string)
    requires |Split(bare, '/')| > 2
    ensures TagLabelParser("noprefix=" + bare) == NOTHING
  {
    hide NameValue, DnsSubdomain, Split;
    MarkersAre();
    assert (NO_PREFIX + bare)[|NO_PREFIX|..] == bare;
  }

  lemma TwoParts(d: string, s: string)
    requires '/' !in d && '/' !in s
    ensures |Split(d + "/" + s, '/')| == 2
  {
    hide Split;
    SplitNone(s, '/');
    SplitOne(d, s, '/');
    assert d + "/" + s == d + ['/'] + s;
  }

  /** A tag is read as a label exactly if it spells it, one way or another. */
  lemma LabelExactly(tag: string, k: string, v: string)
    requires k != ""
    ensures TagLabelParser(tag) == Parsed(k, v) <==> exists p, name :: SpellsLabel(tag, p, name, k, v)
  {
    hide TagLabelParser, ValidParts, Reads, Split;
    if "noprefix=" <= tag {
      MarkedExactly(tag[9..], k, v);
      assert tag == "noprefix=" + tag[9..];
    } else {
      OwnExactly(tag, k, v);
      forall p, name | SpellsLabel(tag, p, name, k, v) ensures p.Own? {
        Unmarked(tag, p, name, v);
      }
    }
  }

  lemma Unmarked(tag: string, p: Prefix, name: string, v: string)
    requires Spells(tag, p, name, v)
    ensures p.Own? <==> !("noprefix=" <= tag)
  {
    hide Reads;
  }

  lemma MarkedExactly(bare: string, k: string, v: string)
    requires k != ""
    ensures TagLabelParser("noprefix=" + bare) == Parsed(k, v)
            <==> exists p, name :: SpellsLabel("noprefix=" + bare, p, name, k, v)
  {
    hide TagLabelParser, ValidParts, Reads, Split, KeyPrefix;
    var tag := "noprefix=" + bare;
    BareParts(bare);
    var parts := Split(bare, '/');
    if |parts| == 1 {
      BareExactly(bare, k, v);
      BareSpelt(bare, k, v);
    } else if |parts| == 2 {
      DnsExactly(parts[0], parts[1], k, v);
      DnsSpelt(parts[0], parts[1], k, v);
      assert tag == "noprefix=" + parts[0] + "/" + parts[1];
    } else {
      TooManySlashes(bare);
      NotSpelt(bare, k, v);
    }
  }

  lemma BareSpelt(s: string, k: string, v: string)
    requires '/' !in s
    ensures (exists p, name :: SpellsLabel("noprefix=" + s, p, name, k, v))
            <==> ValidParts(Bare, k, v) && Reads(s, k, v)
  {
    hide ValidParts, Reads;
    var tag := "noprefix=" + s;
    if p, name :| SpellsLabel(tag, p, name, k, v) {
      Unmarked(tag, p, name, v);
      OnlyBare(s, p, name, v);
      assert "" + name == name;
    }
    if ValidParts(Bare, k, v) && Reads(s, k, v) {
      assert "" + k == k;
      assert SpellsLabel(tag, Bare, k, k, v);
    }
  }

  lemma SlashSpelt(bare: string, p: Prefix, name: string, v: string)
    requires Spells("noprefix=" + bare, p, name, v)
    ensures p.Bare? ==> '/' !in bare
    ensures p.Dns? ==> '/' in bare
  {
    hide Reads;
    var tag := "noprefix=" + bare;
    assert tag[9..] == bare;
    match p {
      case Own =>
      case Bare =>
        var s :| tag == "noprefix=" + s && '/' !in s && Reads(s, name, v);
        assert ("noprefix=" + s)[9..] == s;
      case Dns(d) =>
        var s :| tag == "noprefix=" + d + "/" + s && '/' !in d && '/' !in s && Reads(s, name, v);
        assert ("noprefix=" + d + "/" + s)[9..] == d + "/" + s;
        assert bare[|d|] == '/';
    }
  }

  lemma OnlyBare(s: string, p: Prefix, name: string, v: string)
    requires '/' !in s && Spells("noprefix=" + s, p, name, v)
    ensures p.Bare? && Reads(s, name, v)
  {
    hide Reads;
    var tag := "noprefix=" + s;
    Unmarked(tag, p, name, v);
    assert tag[9..] == s;
    SlashSpelt(s, p, name, v);
    match p {
      case Own =>
      case Bare =>
        var s' :| tag == "noprefix=" + s' && '/' !in s' && Reads(s', name, v);
        assert ("noprefix=" + s')[9..] == s';
      case Dns(d) =>
    }
  }

  lemma DnsSpelt(d: string, s: string, k: string, v: string)
    requires '/' !in d && '/' !in s
    ensures (exists p, name :: SpellsLabel("noprefix=" + d + "/" + s, p, name, k, v))
            <==> exists name :: ValidParts(Dns(d), name, v) && Reads(s, name, v) && k == d + "/" + name
  {
    hide ValidParts, Reads;
    var tag := "noprefix=" + d + "/" + s;
    if p, name :| SpellsLabel(tag, p, name, k, v) {
      OnlyDns(d, s, p, name, v);
    }
    if name :| ValidParts(Dns(d), name, v) && Reads(s, name, v) && k == d + "/" + name {
      assert SpellsLabel(tag, Dns(d), name, k, v);
    }
  }

  lemma OnlyDns(d: string, s: string, p: Prefix, name: string, v: string)
    requires '/' !in d && '/' !in s && Spells("noprefix=" + d + "/" + s, p, name, v)
    ensures p == Dns(d) && Reads(s, name, v)
  {
    hide Reads;
    var tag := "noprefix=" + d + "/" + s;
    Unmarked(tag, p, name, v);
    assert tag[9..] == d + ['/'] + s;
    assert tag == "noprefix=" + (d + ['/'] + s);
    SlashSpelt(d + ['/'] + s, p, name, v);
    match p {
      case Own =>
      case Bare =>
      case Dns(d') =>
        var s' :| tag == "noprefix=" + d' + "/" + s' && '/' !in d' && '/' !in s' && Reads(s', name, v);
        assert ("noprefix=" + d' + "/" + s')[9..] == d' + ['/'] + s';
        SeparatedOnce(d, d', '/', s, s');
    }
  }

  lemma NotSpelt(bare: string, k: string, v: string)
    requires |Split(bare, '/')| > 2
    ensures !exists p, name :: SpellsLabel("noprefix=" + bare, p, name, k, v)
  {
    hide ValidParts, Reads, Split;
    var tag := "noprefix=" + bare;
    forall p, name ensures !SpellsLabel(tag, p, name, k, v) {
      if Spells(tag, p, name, v) {
        Unmarked(tag, p, name, v);
        FewSlashes(bare, p, name, v);
      }
    }
  }

  lemma FewSlashes(bare: string, p: Prefix, name: string, v: string)
    requires Spells("noprefix=" + bare, p, name, v)
    ensures |Split(bare, '/')| <= 2
  {
    hide Reads, Split;
    var tag := "noprefix=" + bare;
    assert tag[9..] == bare;
    match p {
      case Own => Unmarked(tag, p, name, v);
      case Bare =>
        var s' :| tag == "noprefix=" + s' && '/' !in s' && Reads(s', name, v);
        assert ("noprefix=" + s')[9..] == s';
        SplitNone(s', '/');
      case Dns(d') =>
        var s' :| tag == "noprefix=" + d' + "/" + s' && '/' !in d' && '/' !in s' && Reads(s', name, v);
        assert ("noprefix=" + d' + "/" + s')[9..] == d' + "/" + s';
        TwoParts(d', s');
    }
  }

  // ---- Taints ----

  lemma {:induction false} JoinSnoc(parts: seq<string>, last: string, sep: char)
    requires parts != []
    ensures Join(parts + [last], sep) == Join(parts, sep) + [sep] + last
  {
    if |parts| > 1 {
      JoinSnoc(parts[1..], last, sep);
      assert (parts + [last])[1..] == parts[1..] + [last];
    } else {
      assert (parts + [last])[1..] == [last];
    }
  }

  lemma EmptyTag()
    ensures TagLabelParser("") == NOTHING
  {
    hide Pieces;
    FirstPiece("", "");
    assert "" + "" == "";
  }

  lemma EffectIs(s: string, e: Effect)
    requires EffectOf(s) == Some(e)
    ensures s == EffectName(e)
  {
  }

  /** What ends in a colon and an effect is all that yields a key. */
  lemma EffectEnds(bare: string) returns (inner: string, e: Effect)
    requires TagTaintParser(TAINT_PREFIX + bare).0.key != ""
    ensures bare == inner + ":" + EffectName(e)
  {
    hide Split, TagLabelParser, EffectOf, EffectName, Join, Joined;
    var parts := Split(bare, ':');
    var n := |parts| - 1;
    assert (TAINT_PREFIX + bare)[|TAINT_PREFIX|..] == bare;
    e := EffectOf(parts[n]).value;
    EffectIs(parts[n], e);
    SplitJoins(bare, ':');
    if n == 0 {
      NothingJoined(parts);
      EmptyTag();
    }
    inner := Join(parts[..n], ':');
    assert parts == parts[..n] + [parts[n]];
    if n > 0 {
      JoinSnoc(parts[..n], parts[n], ':');
    }
  }

  lemma NothingJoined(parts: seq<string>)
    ensures Joined(parts[..0]) == ""
  {
  }

  /** A taint tag is read as a taint exactly if it ends in a colon and the effect, and what comes before, without
      any colon, is read as the label. */
  lemma TaintExactly(tag: string, k: string, v: string, e: Effect)
    requires k != "" && "taint=" <= tag
    ensures TagTaintParser(tag) == (Parsed(k, v), Some(e)) <==>
            exists inner :: tag == "taint=" + inner + ":" + EffectName(e)
                            && TagLabelParser(Without(inner, ':')) == Parsed(k, v)
  {
    hide TagTaintParser, TagLabelParser, EffectName, Without;
    MarkersAre();
    assert tag == "taint=" + tag[6..];
    if TagTaintParser(tag) == (Parsed(k, v), Some(e)) {
      var inner, e' := EffectEnds(tag[6..]);
      TaintIsLabel(inner, e');
      assert tag == "taint=" + inner + ":" + EffectName(e');
    }
    if inner :| tag == "taint=" + inner + ":" + EffectName(e) && TagLabelParser(Without(inner, ':')) == Parsed(k, v) {
      TaintIsLabel(inner, e);
    }
  }
}
