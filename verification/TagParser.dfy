/** Tags of cloud resources read as Kubernetes labels and taints. */
module TagParser {
  import opened Basics

  const LABELS_PREFIX := "k8s.scaleway.com/"
  const NO_PREFIX := "noprefix="
  const TAINT_PREFIX := "taint="
  const MAX_NAME := 63
  const MAX_DNS := 253

  datatype Effect = NoExecute | NoSchedule | PreferNoSchedule

  function EffectName(e: Effect): string {
    match e
    case NoExecute => "NoExecute"
    case NoSchedule => "NoSchedule"
    case PreferNoSchedule => "PreferNoSchedule"
  }

  // ---- Characters and names ----

  predicate IsAlnum(c: char) {
    'a' <= c <= 'z' || 'A' <= c <= 'Z' || '0' <= c <= '9'
  }

  predicate IsNameChar(c: char) {
    IsAlnum(c) || c == '-' || c == '_' || c == '.'
  }

  predicate IsDnsChar(c: char) {
    'a' <= c <= 'z' || '0' <= c <= '9' || c == '-'
  }

  predicate IsSep(c: char) {
    c == ':' || c == '=' || c == ' '
  }

  /** qualifiedNameRegexp */
  predicate QualifiedName(s: string) {
    s != "" && IsAlnum(s[0]) && IsAlnum(s[|s| - 1]) && forall i | 0 <= i < |s| :: IsNameChar(s[i])
  }

  /** validation.IsValidLabelValue */
  predicate LabelValue(s: string) {
    |s| <= MAX_NAME && (s == "" || QualifiedName(s))
  }

  predicate DnsLabel(s: string) {
    s != "" && s[0] != '-' && s[|s| - 1] != '-' && forall i | 0 <= i < |s| :: IsDnsChar(s[i])
  }

  /** validation.IsDNS1123Subdomain, after section 2.1 of RFC 1123 */
  predicate DnsSubdomain(s: string) {
    |s| <= MAX_DNS && forall i | 0 <= i < |Split(s, '.')| :: DnsLabel(Split(s, '.')[i])
  }

  // ---- Splitting at runs of separators ----

  function FirstSep(s: string): (n: nat)
    ensures n <= |s|
  {
    if s == "" || IsSep(s[0]) then 0 else 1 + FirstSep(s[1..])
  }

  function SkipSeps(s: string): (r: string)
    ensures |r| <= |s|
    ensures s != "" && IsSep(s[0]) ==> |r| < |s|
  {
    if s != "" && IsSep(s[0]) then SkipSeps(s[1..]) else s
  }

  lemma {:induction false} FirstSepIs(a: string, b: string)
    requires forall i | 0 <= i < |a| :: !IsSep(a[i])
    requires b == "" || IsSep(b[0])
    ensures FirstSep(a + b) == |a|
  {
    if a == "" {
      assert a + b == b;
    } else {
      FirstSepIs(a[1..], b);
      assert (a + b)[1..] == a[1..] + b;
    }
  }

  lemma {:induction false} SkipSepsIs(a: string, b: string)
    requires forall i | 0 <= i < |a| :: IsSep(a[i])
    requires b == "" || !IsSep(b[0])
    ensures SkipSeps(a + b) == b
  {
    if a == "" {
      assert a + b == b;
    } else {
      SkipSepsIs(a[1..], b);
      assert (a + b)[1..] == a[1..] + b;
    }
  }

  lemma {:induction false} FirstSepFirst(s: string)
    ensures forall i | 0 <= i < FirstSep(s) :: !IsSep(s[i])
    ensures FirstSep(s) < |s| ==> IsSep(s[FirstSep(s)])
  {
    if s != "" && !IsSep(s[0]) {
      FirstSepFirst(s[1..]);
    }
  }

  /** splitRegexp.Split(s, -1) */
  function Pieces(s: string): (r: seq<string>)
    ensures |r| >= 1
    decreases |s|
  {
    var n := FirstSep(s);
    if n == |s| then [s]
    else
      FirstSepFirst(s);
      [s[..n]] + Pieces(SkipSeps(s[n..]))
  }

  // ---- The parsers ----

  datatype Parsed = Parsed(key: string, value: string)

  const NOTHING := Parsed("", "")

  /** tagLabelParser from the split on. */
  function NameValue(prefix: string, s: string): Parsed {
    var pieces := Pieces(s);
    if |pieces[0]| == 0 || |pieces[0]| > MAX_NAME || !QualifiedName(pieces[0]) then NOTHING
    else if |pieces| == 1 then Parsed(prefix + pieces[0], "")
    else if !LabelValue(pieces[1]) then NOTHING
    else Parsed(prefix + pieces[0], pieces[1])
  }

  /** tagLabelParser */
  function TagLabelParser(tag: string): Parsed {
    if HasPrefix(tag, NO_PREFIX) then
      var bare := TrimPrefix(tag, NO_PREFIX);
      var parts := Split(bare, '/');
      if |parts| > 2 then NOTHING
      else if |parts| == 2 then
        if parts[0] == "" || !DnsSubdomain(parts[0]) then NOTHING
        else NameValue(parts[0] + "/", parts[1])
      else NameValue("", bare)
    else NameValue(LABELS_PREFIX, tag)
  }

  function EffectOf(s: string): Option<Effect> {
    if s == "NoExecute" then Some(NoExecute)
    else if s == "NoSchedule" then Some(NoSchedule)
    else if s == "PreferNoSchedule" then Some(PreferNoSchedule)
    else None
  }

  /** strings.Join(parts, "") */
  function Joined(parts: seq<string>): string {
    if parts == [] then "" else parts[0] + Joined(parts[1..])
  }

  /** tagTaintParser: the label and the effect, if there is one. */
  function TagTaintParser(tag: string): (Parsed, Option<Effect>) {
    var parts := Split(TrimPrefix(tag, TAINT_PREFIX), ':');
    var effect := EffectOf(parts[|parts| - 1]);
    if effect.None? then (NOTHING, None)
    else (TagLabelParser(Joined(parts[..|parts| - 1])), effect)
  }

  // ---- Printing ----

  /** How a tag places its key: under the controller's own prefix, without prefix, or under another. */
  datatype Prefix = Own | Bare | Dns(domain: string)

  function KeyPrefix(p: Prefix): string {
    match p
    case Own => LABELS_PREFIX
    case Bare => ""
    case Dns(d) => d + "/"
  }

  /** How a tag with such a key starts. */
  function Opening(p: Prefix): string {
    match p
    case Own => ""
    case Bare => NO_PREFIX
    case Dns(d) => NO_PREFIX + d + "/"
  }

  function PrintLabel(p: Prefix, name: string, value: string): string {
    Opening(p) + (name + "=" + value)
  }

  function PrintTaint(p: Prefix, name: string, value: string, effect: Effect): string {
    TAINT_PREFIX + PrintLabel(p, name, value) + ":" + EffectName(effect)
  }

  predicate ValidParts(p: Prefix, name: string, value: string) {
    QualifiedName(name) && |name| <= MAX_NAME && LabelValue(value) && (p.Dns? ==> DnsSubdomain(p.domain))
  }

  // ---- Round trips ----

  lemma FirstPiece(a: string, b: string)
    requires forall i | 0 <= i < |a| :: !IsSep(a[i])
    requires b == "" || IsSep(b[0])
    ensures Pieces(a + b)[0] == a && (|Pieces(a + b)| == 1 <==> b == "")
    ensures b != "" ==> Pieces(a + b) == [a] + Pieces(SkipSeps(b))
  {
    FirstSepIs(a, b);
    assert (a + b)[..|a|] == a && (a + b)[|a|..] == b;
  }

  /** Any run of separators will do, and what follows a second run is ignored. */
  lemma NameValueSeparated(prefix: string, name: string, sep: string, value: string, rest: string)
    requires QualifiedName(name) && |name| <= MAX_NAME && LabelValue(value)
    requires sep != "" && forall i | 0 <= i < |sep| :: IsSep(sep[i])
    requires rest == "" || (value != "" && IsSep(rest[0]))
    ensures NameValue(prefix, name + sep + value + rest) == Parsed(prefix + name, value)
  {
    hide Pieces, SkipSeps, FirstSep;
    var tail := value + rest;
    assert tail == "" || !IsSep(tail[0]);
    assert name + sep + value + rest == name + (sep + tail);
    FirstPiece(name, sep + tail);
    SkipSepsIs(sep, tail);
    FirstPiece(value, rest);
  }

  lemma NameValuePlain(prefix: string, name: string)
    requires QualifiedName(name) && |name| <= MAX_NAME
    ensures NameValue(prefix, name) == Parsed(prefix + name, "")
  {
    FirstSepIs(name, "");
    assert name + "" == name;
  }

  lemma DnsChars(s: string)
    requires forall i | 0 <= i < |Split(s, '.')| :: DnsLabel(Split(s, '.')[i])
    ensures forall c | c in s :: IsDnsChar(c) || c == '.'
  {
    hide Split, IsDnsChar;
    forall c | c in s ensures IsDnsChar(c) || c == '.' {
      if c != '.' {
        SplitKeeps(s, '.', c);
      }
    }
  }

  /** Every character but the separator is in one of the parts. */
  lemma {:induction false} SplitKeeps(s: string, sep: char, c: char)
    requires c in s && c != sep
    ensures exists part | part in Split(s, sep) :: c in part
  {
    if s[0] == c {
      assert c in Split(s, sep)[0];
    } else {
      assert s == [s[0]] + s[1..];
      SplitKeeps(s[1..], sep, c);
      SplitGrows(s, sep, c);
    }
  }

  lemma SplitGrows(s: string, sep: char, c: char)
    requires s != "" && exists part | part in Split(s[1..], sep) :: c in part
    ensures exists part | part in Split(s, sep) :: c in part
  {
    var parts, rest := Split(s, sep), Split(s[1..], sep);
    var part :| part in rest && c in part;
    if s[0] == sep {
      assert part in parts;
    } else if part == rest[0] {
      assert c in parts[0];
    } else {
      assert part in rest[1..] && parts == [[s[0]] + rest[0]] + rest[1..];
      assert part in parts;
    }
  }

  /** A tag of the controller's own prefix starts with a marker exactly if its name and first separator
      spell it. */
  lemma MarkerSeen(word: string, name: string, sep: string, value: string)
    requires QualifiedName(word) && QualifiedName(name) && sep != "" && IsSep(sep[0])
    ensures HasPrefix(name + sep + value, word + "=") <==> name == word && sep[0] == '='
  {
    var s, marker := name + sep + value, word + "=";
    assert s[|name|] == sep[0];
    assert forall i | 0 <= i < |name| :: s[i] == name[i] && IsNameChar(s[i]);
    assert forall i | 0 <= i < |word| :: marker[i] == word[i] && IsNameChar(marker[i]);
    assert marker[|word|] == '=';
    if HasPrefix(s, marker) {
      assert forall i | 0 <= i <= |word| :: s[i] == marker[i];
      assert |name| == |word|;
      assert name == s[..|name|] == word;
    }
    if name == word && sep[0] == '=' {
      assert s[..|marker|] == marker;
    }
  }

  lemma PartsAreClean(name: string, value: string, c: char)
    requires QualifiedName(name) && LabelValue(value) && !IsNameChar(c)
    ensures c !in name && c !in value
  {
  }

  ghost predicate Separator(sep: string) {
    sep != "" && forall c | c in sep :: IsSep(c)
  }

  /** A name and a value with any run of separators between them are parsed back, except for a label of
      the controller's own prefix called noprefix when the run starts with an equals sign. */
  lemma LabelSeparated(p: Prefix, name: string, sep: string, value: string)
    requires ValidParts(p, name, value) && Separator(sep)
    ensures TagLabelParser(Opening(p) + (name + sep + value)) == Parsed(KeyPrefix(p) + name, value)
            <==> !(p.Own? && name == "noprefix" && sep[0] == '=')
  {
    hide TagLabelParser, QualifiedName, LabelValue, DnsSubdomain, IsSep;
    match p {
      case Own =>
        assert "" + (name + sep + value) == name + sep + value;
        if name == "noprefix" && sep[0] == '=' {
          NoprefixLost(sep, value);
        } else {
          OwnSeparated(name, sep, value);
        }
      case Bare =>
        BareSeparated(name, sep, value);
        assert KeyPrefix(p) + name == name;
      case Dns(d) => DnsSeparated(d, name, sep, value);
    }
  }

  /** A printed label is parsed back, except a label of the controller's own prefix called noprefix. */
  lemma LabelRoundTrip(p: Prefix, name: string, value: string)
    requires ValidParts(p, name, value)
    ensures TagLabelParser(PrintLabel(p, name, value)) == Parsed(KeyPrefix(p) + name, value)
            <==> !(p.Own? && name == "noprefix")
  {
    hide TagLabelParser, ValidParts, Opening;
    LabelSeparated(p, name, "=", value);
  }

  lemma Separated(prefix: string, name: string, sep: string, value: string)
    requires QualifiedName(name) && |name| <= MAX_NAME && LabelValue(value) && Separator(sep)
    ensures NameValue(prefix, name + sep + value) == Parsed(prefix + name, value)
    ensures '/' !in name + sep + value
  {
    hide NameValue, QualifiedName, LabelValue;
    NameValueSeparated(prefix, name, sep, value, "");
    assert name + sep + value + "" == name + sep + value;
    PartsAreClean(name, value, '/');
  }

  lemma NoprefixIsName()
    ensures NO_PREFIX == "noprefix" + "=" && QualifiedName("noprefix")
  {
  }

  lemma OwnSeparated(name: string, sep: string, value: string)
    requires ValidParts(Own, name, value) && Separator(sep) && !(name == "noprefix" && sep[0] == '=')
    ensures TagLabelParser(name + sep + value) == Parsed(LABELS_PREFIX + name, value)
  {
    hide NameValue, QualifiedName, LabelValue, HasPrefix;
    assert sep[0] in sep;
    NoprefixIsName();
    MarkerSeen("noprefix", name, sep, value);
    Separated(LABELS_PREFIX, name, sep, value);
  }

  /** What follows the marker of tags without prefix, if it holds no slash. */
  lemma BareTag(nv: string)
    requires '/' !in nv
    ensures TagLabelParser(NO_PREFIX + nv) == NameValue("", nv)
  {
    hide NameValue, Split;
    SplitNone(nv, '/');
    assert (NO_PREFIX + nv)[|NO_PREFIX|..] == nv;
  }

  lemma DnsTag(d: string, nv: string)
    requires '/' !in nv && DnsSubdomain(d)
    ensures TagLabelParser(NO_PREFIX + d + "/" + nv) == NameValue(d + "/", nv)
  {
    hide NameValue, Split;
    SplitNone(nv, '/');
    DnsChars(d);
    SplitOne(d, nv, '/');
    DnsNotEmpty(d);
    var tag := NO_PREFIX + d + "/" + nv;
    assert tag == NO_PREFIX + (d + ['/'] + nv);
    assert tag[|NO_PREFIX|..] == d + ['/'] + nv;
  }

  lemma BareSeparated(name: string, sep: string, value: string)
    requires ValidParts(Bare, name, value) && Separator(sep)
    ensures TagLabelParser(NO_PREFIX + (name + sep + value)) == Parsed(name, value)
  {
    hide NameValue, TagLabelParser, QualifiedName, LabelValue, Separator;
    Separated("", name, sep, value);
    assert "" + name == name;
    BareTag(name + sep + value);
  }

  lemma DnsSeparated(d: string, name: string, sep: string, value: string)
    requires ValidParts(Dns(d), name, value) && Separator(sep)
    ensures TagLabelParser(NO_PREFIX + d + "/" + (name + sep + value)) == Parsed(d + "/" + name, value)
  {
    hide NameValue, TagLabelParser, QualifiedName, LabelValue, DnsSubdomain, Separator;
    Separated(d + "/", name, sep, value);
    DnsTag(d, name + sep + value);
  }

  lemma DnsNotEmpty(d: string)
    requires DnsSubdomain(d)
    ensures d != ""
  {
    assert Split("", '.') == [""];
    assert d == "" ==> !DnsLabel(Split(d, '.')[0]);
  }

  /** The tag "noprefix=value" is read as the key `value` without prefix. */
  lemma NoprefixLost(sep: string, value: string)
    requires LabelValue(value) && Separator(sep) && sep[0] == '='
    ensures TagLabelParser("noprefix" + sep + value).key != LABELS_PREFIX + "noprefix"
  {
    hide NameValue, TagLabelParser, LabelValue;
    var rest := sep[1..] + value;
    assert "noprefix" + sep + value == NO_PREFIX + rest;
    assert forall c | c in sep[1..] :: c in sep;
    PartsAreClean("a", value, '/');
    BareTag(rest);
    BareKey(rest);
    assert (LABELS_PREFIX + "noprefix")[16] == '/';
  }

  lemma BareKey(s: string)
    ensures '/' !in NameValue("", s).key
  {
    hide Pieces;
    assert "" + Pieces(s)[0] == Pieces(s)[0];
  }

  lemma EffectRoundTrip(effect: Effect)
    ensures EffectOf(EffectName(effect)) == Some(effect) && ':' !in EffectName(effect)
  {
  }

  lemma PrintedHasNoColon(p: Prefix, name: string, value: string)
    requires ValidParts(p, name, value)
    ensures ':' !in PrintLabel(p, name, value)
  {
    PartsAreClean(name, value, ':');
    if p.Dns? {
      DnsChars(p.domain);
    }
  }

  /** A printed taint is parsed back, with the same exception. */
  lemma TaintRoundTrip(p: Prefix, name: string, value: string, effect: Effect)
    requires ValidParts(p, name, value)
    ensures HasPrefix(PrintTaint(p, name, value, effect), TAINT_PREFIX)
    ensures TagTaintParser(PrintTaint(p, name, value, effect)) == (Parsed(KeyPrefix(p) + name, value), Some(effect))
            <==> !(p.Own? && name == "noprefix")
  {
    hide ValidParts, TagLabelParser, KeyPrefix, PrintLabel, Opening;
    var inner := PrintLabel(p, name, value);
    var tag := PrintTaint(p, name, value, effect);
    assert tag == TAINT_PREFIX + (inner + ":" + EffectName(effect));
    assert TrimPrefix(tag, TAINT_PREFIX) == inner + [':'] + EffectName(effect);
    PrintedHasNoColon(p, name, value);
    EffectRoundTrip(effect);
    SplitOne(inner, EffectName(effect), ':');
    SplitNone(EffectName(effect), ':');
    var parts := [inner] + [EffectName(effect)];
    assert parts[..1] == [inner];
    JoinedSingle(inner);
    LabelRoundTrip(p, name, value);
  }

  lemma JoinedSingle(s: string)
    ensures Joined([s]) == s
  {
    assert Joined([]) == "";
    assert s + "" == s;
  }

  // ---- Soundness ----

  /** Whatever the tag, a non-empty key is a valid qualified name under a valid prefix, and its value is
      a valid label value. */
  lemma LabelSound(tag: string)
    requires TagLabelParser(tag).key != ""
    ensures exists p, name ::
              ValidParts(p, name, TagLabelParser(tag).value) && TagLabelParser(tag).key == KeyPrefix(p) + name
    ensures TagLabelParser(tag).key != "" && LabelValue(TagLabelParser(tag).value)
  {
    var r := TagLabelParser(tag);
    if HasPrefix(tag, NO_PREFIX) {
      var bare := TrimPrefix(tag, NO_PREFIX);
      var parts := Split(bare, '/');
      if |parts| == 2 {
        NameValueSound(parts[0] + "/", parts[1]);
        assert ValidParts(Dns(parts[0]), Pieces(parts[1])[0], r.value);
        assert r.key == KeyPrefix(Dns(parts[0])) + Pieces(parts[1])[0];
      } else {
        NameValueSound("", bare);
        assert ValidParts(Bare, Pieces(bare)[0], r.value);
        assert r.key == KeyPrefix(Bare) + Pieces(bare)[0];
      }
    } else {
      NameValueSound(LABELS_PREFIX, tag);
      assert ValidParts(Own, Pieces(tag)[0], r.value);
      assert r.key == KeyPrefix(Own) + Pieces(tag)[0];
    }
  }

  lemma NameValueSound(prefix: string, s: string)
    requires NameValue(prefix, s).key != ""
    ensures QualifiedName(Pieces(s)[0]) && |Pieces(s)[0]| <= MAX_NAME && LabelValue(NameValue(prefix, s).value)
    ensures NameValue(prefix, s).key == prefix + Pieces(s)[0]
  {
  }

  /** Every label a tag can express has a tag in normal form, also the one called noprefix. */
  lemma LabelHasNormalForm(tag: string) returns (normal: string)
    requires TagLabelParser(tag).key != ""
    ensures TagLabelParser(normal) == TagLabelParser(tag)
    ensures HasPrefix(normal, NO_PREFIX)
  {
    LabelSound(tag);
    var p, name :| ValidParts(p, name, TagLabelParser(tag).value) && TagLabelParser(tag).key == KeyPrefix(p) + name;
    var q := if p.Own? then Dns("k8s.scaleway.com") else p;
    if p.Own? {
      OwnIsDns();
      assert KeyPrefix(q) == KeyPrefix(p);
    }
    normal := PrintLabel(q, name, TagLabelParser(tag).value);
    LabelRoundTrip(q, name, TagLabelParser(tag).value);
    PrintedStart(q, name, TagLabelParser(tag).value);
  }

  lemma PrintedStart(p: Prefix, name: string, value: string)
    requires !p.Own?
    ensures HasPrefix(PrintLabel(p, name, value), NO_PREFIX)
  {
  }

  lemma OwnIsDns()
    ensures DnsSubdomain("k8s.scaleway.com")
  {
    hide Split, DnsLabel;
    var a, b, c := "k8s", "scaleway", "com";
    SplitOne(a, b + "." + c, '.');
    SplitOne(b, c, '.');
    SplitNone(c, '.');
    assert "k8s.scaleway.com" == a + "." + (b + "." + c);
    assert Split("k8s.scaleway.com", '.') == [a, b, c];
    OwnLabels();
  }

  lemma OwnLabels()
    ensures DnsLabel("k8s") && DnsLabel("scaleway") && DnsLabel("com")
  {
  }

  /** A taint tag yields a key only with one of the three effects and a valid label. */
  lemma TaintSound(tag: string)
    requires TagTaintParser(tag).0.key != ""
    ensures TagTaintParser(tag).1.Some?
    ensures exists p, name ::
              ValidParts(p, name, TagTaintParser(tag).0.value) && TagTaintParser(tag).0.key == KeyPrefix(p) + name
  {
    var parts := Split(TrimPrefix(tag, TAINT_PREFIX), ':');
    LabelSound(Joined(parts[..|parts| - 1]));
  }

  // ---- Colons in taint tags ----

  function Without(s: string, c: char): string {
    if s == "" then "" else (if s[0] == c then "" else [s[0]]) + Without(s[1..], c)
  }

  lemma {:induction false} WithoutHas(s: string, c: char, x: char)
    ensures x in Without(s, c) <==> x in s && x != c
  {
    if s != "" {
      assert s == [s[0]] + s[1..];
      WithoutHas(s[1..], c, x);
    }
  }

  lemma {:induction false} WithoutNone(s: string, c: char)
    requires c !in s
    ensures Without(s, c) == s
  {
    if s != "" {
      assert s == [s[0]] + s[1..];
      WithoutNone(s[1..], c);
    }
  }

  lemma {:induction false} WithoutConcat(a: string, b: string, c: char)
    ensures Without(a + b, c) == Without(a, c) + Without(b, c)
  {
    if a == "" {
      assert a + b == b;
    } else {
      assert (a + b)[1..] == a[1..] + b;
      WithoutConcat(a[1..], b, c);
    }
  }

  /** Splitting and joining with nothing in between drops the separators. */
  lemma {:induction false} JoinedSplit(s: string, sep: char)
    ensures Joined(Split(s, sep)) == Without(s, sep)
  {
    if s == "" {
      JoinedSingle("");
    } else {
      var rest := Split(s[1..], sep);
      JoinedSplit(s[1..], sep);
      if s[0] == sep {
        assert ([""] + rest)[1..] == rest;
      } else {
        assert Split(s, sep)[1..] == rest[1..];
        assert [s[0]] + rest[0] + Joined(rest[1..]) == [s[0]] + Joined(rest);
      }
    }
  }

  lemma SplitCons(s: string, sep: char)
    requires s != ""
    ensures var rest := Split(s[1..], sep); Split(s, sep) == if s[0] == sep then [""] + rest
            else [[s[0]] + rest[0]] + rest[1..]
  {
  }

  lemma {:induction false} SplitConcat(a: string, b: string, sep: char)
    ensures Split(a + [sep] + b, sep) == Split(a, sep) + Split(b, sep)
  {
    hide Split;
    var s := a + [sep] + b;
    SplitCons(s, sep);
    if a == "" {
      SplitNone("", sep);
      assert s[1..] == b;
    } else {
      SplitConcat(a[1..], b, sep);
      SplitCons(a, sep);
      assert s[1..] == a[1..] + [sep] + b;
    }
  }

  /** A taint tag is the label tag without its colons, and the effect after the last one. */
  lemma TaintIsLabel(inner: string, effect: Effect)
    ensures TagTaintParser(TAINT_PREFIX + inner + ":" + EffectName(effect))
            == (TagLabelParser(Without(inner, ':')), Some(effect))
  {
    hide TagLabelParser, Split, Joined, EffectName, EffectOf;
    var end := EffectName(effect);
    var tag := TAINT_PREFIX + inner + ":" + end;
    assert tag == TAINT_PREFIX + (inner + [':'] + end);
    assert TrimPrefix(tag, TAINT_PREFIX) == inner + [':'] + end;
    EffectRoundTrip(effect);
    SplitConcat(inner, end, ':');
    SplitNone(end, ':');
    var parts := Split(inner, ':') + [end];
    assert parts[..|parts| - 1] == Split(inner, ':');
    JoinedSplit(inner, ':');
  }

  lemma NoSeparator(s: string, prefix: string)
    requires forall c | c in s :: !IsSep(c)
    ensures NameValue(prefix, s).value == ""
  {
    hide Pieces, IsSep;
    FirstPiece(s, "");
    assert s + "" == s;
  }

  /** Name and value glued together are no longer read as both. */
  lemma GluedValue(p: Prefix, name: string, value: string)
    requires ValidParts(p, name, value)
    ensures TagLabelParser(Opening(p) + (name + value)).value == ""
  {
    hide NameValue, QualifiedName, LabelValue, TagLabelParser, DnsSubdomain;
    var nv := name + value;
    forall c | c in nv ensures IsNameChar(c) {
      PartsAreCharacters(name, value, c);
    }
    match p {
      case Own =>
        assert "" + nv == nv;
        OwnGlued(nv);
      case Bare =>
        BareTag(nv);
        NoSeparator(nv, "");
      case Dns(d) =>
        DnsTag(d, nv);
        NoSeparator(nv, d + "/");
    }
  }

  lemma PartsAreCharacters(name: string, value: string, c: char)
    requires QualifiedName(name) && LabelValue(value) && c in name + value
    ensures IsNameChar(c)
  {
  }

  lemma OwnGlued(nv: string)
    requires forall c | c in nv :: IsNameChar(c)
    ensures TagLabelParser(nv).value == "" && !HasPrefix(nv, NO_PREFIX)
  {
    hide NameValue, Split;
    NoSeparator(nv, LABELS_PREFIX);
    assert NO_PREFIX[8] == '=' && (|nv| > 8 ==> nv[8] in nv);
  }

  lemma NamePlain(p: Prefix, name: string)
    requires ValidParts(p, name, "")
    ensures TagLabelParser(Opening(p) + name) == Parsed(KeyPrefix(p) + name, "")
  {
    hide NameValue, TagLabelParser, DnsSubdomain;
    PartsAreClean(name, "", '/');
    match p {
      case Own =>
        assert "" + name == name;
        OwnGlued(name);
        OwnTag(name);
        NameValuePlain(LABELS_PREFIX, name);
      case Bare =>
        assert "" + name == name;
        BareTag(name);
        NameValuePlain("", name);
      case Dns(d) =>
        DnsTag(d, name);
        NameValuePlain(d + "/", name);
    }
  }

  lemma OwnTag(tag: string)
    requires !HasPrefix(tag, NO_PREFIX)
    ensures TagLabelParser(tag) == NameValue(LABELS_PREFIX, tag)
  {
  }

  lemma OpeningHasNoColon(p: Prefix)
    requires p.Dns? ==> DnsSubdomain(p.domain)
    ensures ':' !in Opening(p)
  {
    if p.Dns? {
      DnsChars(p.domain);
    }
  }

  /** Of the separators between name and value of a taint tag only the equals signs and blanks remain. */
  lemma SeparatorLeft(p: Prefix, name: string, sep: string, value: string)
    requires ValidParts(p, name, value) && Separator(sep)
    ensures Without(Opening(p) + (name + sep + value), ':') == Opening(p) + (name + Without(sep, ':') + value)
    ensures Without(sep, ':') != "" <==> '=' in sep || ' ' in sep
    ensures Without(sep, ':') != "" ==> Separator(Without(sep, ':'))
  {
    hide QualifiedName, LabelValue, DnsSubdomain, Without, Opening;
    OpeningHasNoColon(p);
    PartsAreClean(name, value, ':');
    WithoutConcat(Opening(p), name + sep + value, ':');
    WithoutConcat(name + sep, value, ':');
    WithoutConcat(name, sep, ':');
    WithoutNone(Opening(p), ':');
    WithoutNone(name, ':');
    WithoutNone(value, ':');
    forall c ensures c in Without(sep, ':') <==> c in sep && c != ':' {
      WithoutHas(sep, ':', c);
    }
    if Without(sep, ':') != "" {
      assert Without(sep, ':')[0] in Without(sep, ':');
    }
  }

  /** A taint tag drops the colons between name and value, so they are read back exactly if there is no
      value, or a separator other than a colon; with the same exception as for labels. */
  lemma ColonInTaint(p: Prefix, name: string, sep: string, value: string, effect: Effect)
    requires ValidParts(p, name, value) && Separator(sep)
    ensures TagTaintParser(TAINT_PREFIX + (Opening(p) + (name + sep + value)) + ":" + EffectName(effect))
            == (Parsed(KeyPrefix(p) + name, value), Some(effect))
            <==> && (value == "" || '=' in sep || ' ' in sep)
                 && !(p.Own? && name == "noprefix" && "=" <= Without(sep, ':'))
  {
    hide TagTaintParser, TagLabelParser, EffectName, ValidParts, Separator, Without, Opening, KeyPrefix;
    TaintIsLabel(Opening(p) + (name + sep + value), effect);
    SeparatorLeft(p, name, sep, value);
    var left := Without(sep, ':');
    if left != "" {
      LabelSeparated(p, name, left, value);
    } else {
      assert name + left + value == name + value;
      GluedValue(p, name, value);
      if value == "" {
        assert name + value == name;
        NamePlain(p, name);
      }
    }
  }

  /** What a colon alone makes of name and value: one name. */
  lemma GluedTaint(name: string, value: string, effect: Effect)
    requires QualifiedName(name) && QualifiedName(value) && |name + value| <= MAX_NAME
    ensures TagTaintParser(TAINT_PREFIX + (name + ":" + value) + ":" + EffectName(effect))
            == (Parsed(LABELS_PREFIX + (name + value), ""), Some(effect))
  {
    hide QualifiedName, EffectName, TagTaintParser, TagLabelParser;
    TaintIsLabel(name + ":" + value, effect);
    SeparatorLeft(Own, name, ":", value);
    assert "" + (name + ":" + value) == name + ":" + value && "" + (name + "" + value) == name + value;
    GluedName(name, value);
    NamePlain(Own, name + value);
    assert "" + (name + value) == name + value;
  }

  lemma GluedName(name: string, value: string)
    requires QualifiedName(name) && QualifiedName(value)
    ensures QualifiedName(name + value) && LabelValue("")
  {
  }
}
