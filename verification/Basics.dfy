/** Go-level vocabulary shared by the other modules: options, strings and nil-able string slices. */
module Basics {

  datatype Option<+T> = None | Some(value: T)

  datatype Result<+T, +E> = Ok(value: T) | Err(error: E)

  /** What a call to an API gives back when the caller does not tell failures apart. */
  datatype Outcome<+T> = Done(value: T) | Failed

  /** Identifiers handed out by the cloud.  0 stands for the empty identifier of a resource that
      has not been created yet. */
  type Id = nat

  /** strings.HasPrefix */
  predicate HasPrefix(s: string, prefix: string) {
    prefix <= s
  }

  /** strings.TrimPrefix */
  function TrimPrefix(s: string, prefix: string): string {
    if HasPrefix(s, prefix) then s[|prefix|..] else s
  }

  predicate HasSuffix(s: string, suffix: string) {
    |suffix| <= |s| && s[|s| - |suffix|..] == suffix
  }

  /** strings.TrimSuffix */
  function TrimSuffix(s: string, suffix: string): string {
    if HasSuffix(s, suffix) then s[..|s| - |suffix|] else s
  }

  /** strings.Split with a one-character separator: always at least one part. */
  function Split(s: string, sep: char): (parts: seq<string>)
    ensures |parts| >= 1
    ensures forall i | 0 <= i < |parts| :: sep !in parts[i]
  {
    if s == "" then [""]
    else if s[0] == sep then [""] + Split(s[1..], sep)
    else
      var rest := Split(s[1..], sep);
      [[s[0]] + rest[0]] + rest[1..]
  }

  lemma {:induction false} SplitNone(s: string, sep: char)
    requires sep !in s
    ensures Split(s, sep) == [s]
  {
    if s != "" {
      SplitNone(s[1..], sep);
      assert [s[0]] + s[1..] == s;
    }
  }

  lemma {:induction false} SplitOne(a: string, b: string, sep: char)
    requires sep !in a
    ensures Split(a + [sep] + b, sep) == [a] + Split(b, sep)
  {
    var s := a + [sep] + b;
    if a == "" {
      assert s[1..] == b;
    } else {
      SplitOne(a[1..], b, sep);
      assert s[1..] == a[1..] + [sep] + b;
      assert [a[0]] + a[1..] == a;
    }
  }

  /** strings.ToLower on ASCII. */
  function ToLower(s: string): (r: string)
    ensures |r| == |s|
  {
    seq(|s|, i requires 0 <= i < |s| => if 'A' <= s[i] <= 'Z' then (s[i] as int + 32) as char else s[i])
  }

  predicate IsSpace(c: char) {
    c == ' ' || c == '\t' || c == '\n' || c == '\r' || c as int == 11 || c as int == 12
  }

  /** strings.TrimSpace on ASCII. */
  function TrimSpace(s: string): string {
    if s != "" && IsSpace(s[0]) then TrimSpace(s[1..])
    else if s != "" && IsSpace(s[|s| - 1]) then TrimSpace(s[..|s| - 1])
    else s
  }

  /** The decimal rendering used by fmt.Sprintf("%d"). */
  function Itoa(n: int): string {
    if n < 0 then "-" + Digits(-n) else Digits(n)
  }

  function Digits(n: nat): string {
    var last := [('0' as int + n % 10) as char];
    if n < 10 then last else Digits(n / 10) + last
  }

  // ---- What these functions mean ----

  lemma HasPrefixMeans(s: string, prefix: string)
    ensures HasPrefix(s, prefix) <==> exists rest :: s == prefix + rest
    ensures HasPrefix(s, prefix) ==> s == prefix + TrimPrefix(s, prefix)
    ensures !HasPrefix(s, prefix) ==> TrimPrefix(s, prefix) == s
  {
    if HasPrefix(s, prefix) {
      assert s == prefix + s[|prefix|..];
    }
  }

  lemma HasSuffixMeans(s: string, suffix: string)
    ensures HasSuffix(s, suffix) <==> exists rest :: s == rest + suffix
    ensures HasSuffix(s, suffix) ==> s == TrimSuffix(s, suffix) + suffix
    ensures !HasSuffix(s, suffix) ==> TrimSuffix(s, suffix) == s
  {
    if HasSuffix(s, suffix) {
      assert s == s[..|s| - |suffix|] + suffix;
    }
  }

  /** The parts with the separator between them. */
  function Join(parts: seq<string>, sep: char): string {
    if parts == [] then "" else if |parts| == 1 then parts[0] else parts[0] + [sep] + Join(parts[1..], sep)
  }

  /** Split takes a text apart into the parts that give it back, none of which holds a separator. */
  lemma {:induction false} SplitJoins(s: string, sep: char)
    ensures Join(Split(s, sep), sep) == s
  {
    if s != "" {
      var rest := Split(s[1..], sep);
      SplitJoins(s[1..], sep);
      assert s == [s[0]] + s[1..];
      if s[0] == sep {
        assert ([""] + rest)[1..] == rest;
      } else {
        assert ([[s[0]] + rest[0]] + rest[1..])[1..] == rest[1..];
      }
    }
  }

  /** What comes before the first separator is determined by the text, and so is what follows. */
  lemma SeparatedOnce(a: string, b: string, sep: char, rest: string, rest': string)
    requires sep !in a && sep !in b && a + [sep] + rest == b + [sep] + rest'
    ensures a == b && rest == rest'
  {
    var s := a + [sep] + rest;
    assert s[|a|] == sep && s[|b|] == sep;
    assert forall i | 0 <= i < |a| :: s[i] == a[i];
    assert forall i | 0 <= i < |b| :: s[i] == b[i];
    assert |a| == |b|;
    assert s[..|a|] == a && s[..|b|] == b;
    assert s[|a| + 1..] == rest && s[|b| + 1..] == rest';
  }

  /** A text that starts like another one up to its first separator has the same part before it. */
  lemma SeparatedPrefix(a: string, b: string, sep: char, rest: string, rest': string)
    requires sep !in a && sep !in b && HasPrefix(b + [sep] + rest', a + [sep] + rest)
    ensures a == b
  {
    var s, start := b + [sep] + rest', a + [sep] + rest;
    var tail := s[|start|..];
    assert s == a + [sep] + (rest + tail);
    SeparatedOnce(a, b, sep, rest + tail, rest');
  }

  const UPPER := "ABCDEFGHIJKLMNOPQRSTUVWXYZ"
  const LOWER := "abcdefghijklmnopqrstuvwxyz"

  /** Upper-case letters give way to their lower-case ones, everything else stays. */
  lemma ToLowerMeans(s: string, i: nat)
    requires i < |s|
    ensures forall k | 0 <= k < 26 && s[i] == UPPER[k] :: ToLower(s)[i] == LOWER[k]
    ensures s[i] !in UPPER ==> ToLower(s)[i] == s[i]
  {
    forall k | 0 <= k < 26 ensures UPPER[k] as int == 'A' as int + k && LOWER[k] as int == 'a' as int + k {
      Alphabet(k);
    }
    if 'A' <= s[i] <= 'Z' {
      assert UPPER[s[i] as int - 'A' as int] == s[i];
    }
  }

  lemma Alphabet(k: nat)
    requires k < 26
    ensures UPPER[k] as int == 'A' as int + k && LOWER[k] as int == 'a' as int + k
  {
  }

  /** Nothing but tabs, line breaks, form feeds and blanks. */
  ghost predicate Blank(s: string) {
    forall c | c in s :: c as int == 32 || 9 <= c as int <= 13
  }

  lemma BlankChar(c: char, s: string)
    ensures Blank([c]) <==> IsSpace(c)
    ensures Blank(s) && IsSpace(c) ==> Blank([c] + s) && Blank(s + [c])
  {
    assert c in [c];
  }

  /** Trimming takes away blanks at both ends, and all of them. */
  lemma {:induction false} TrimSpaceMeans(s: string) returns (before: string, after: string)
    ensures s == before + TrimSpace(s) + after && Blank(before) && Blank(after)
    ensures var r := TrimSpace(s); r != "" ==> !Blank([r[0]]) && !Blank([r[|r| - 1]])
  {
    hide IsSpace, Blank;
    before, after := "", "";
    if s != "" && IsSpace(s[0]) {
      before, after := TrimSpaceMeans(s[1..]);
      BlankChar(s[0], before);
      before := [s[0]] + before;
      assert s == [s[0]] + s[1..];
    } else if s != "" && IsSpace(s[|s| - 1]) {
      before, after := TrimSpaceMeans(s[..|s| - 1]);
      BlankChar(s[|s| - 1], after);
      after := after + [s[|s| - 1]];
      assert s == s[..|s| - 1] + [s[|s| - 1]];
    } else {
      NothingBlank();
      if s != "" {
        BlankChar(s[0], "");
        BlankChar(s[|s| - 1], "");
      }
    }
  }

  lemma NothingBlank()
    ensures Blank("")
  {
  }

  /** The number that decimal digits stand for. */
  function ValueOf(digits: string): int {
    if digits == "" then 0 else 10 * ValueOf(digits[..|digits| - 1]) + (digits[|digits| - 1] as int - '0' as int)
  }

  /** A number is rendered in digits that stand for it, without a leading zero. */
  lemma {:induction false} DigitsMean(n: nat)
    ensures ValueOf(Digits(n)) == n
    ensures Digits(n) != "" && forall c | c in Digits(n) :: '0' <= c <= '9'
    ensures n > 0 ==> Digits(n)[0] != '0'
    ensures n == 0 ==> Digits(n) == "0"
  {
    var last := [('0' as int + n % 10) as char];
    if n >= 10 {
      DigitsMean(n / 10);
      assert (Digits(n / 10) + last)[..|Digits(n / 10)|] == Digits(n / 10);
    } else {
      assert last[..0] == "";
    }
  }

  lemma ItoaMeans(n: int)
    ensures n < 0 ==> Itoa(n) == "-" + Itoa(-n)
    ensures n >= 0 ==> ValueOf(Itoa(n)) == n && forall c | c in Itoa(n) :: '0' <= c <= '9'
    ensures Itoa(n) != ""
  {
    DigitsMean(if n < 0 then -n else n);
  }

  lemma ItoaSign(n: int)
    ensures Itoa(n) != "" && (n < 0 <==> Itoa(n)[0] == '-')
    ensures n < 0 ==> Itoa(n)[1..] == Itoa(-n)
  {
    hide Itoa, ValueOf;
    ItoaMeans(n);
    if n >= 0 {
      assert Itoa(n)[0] in Itoa(n);
    }
  }

  /** Different numbers are rendered differently. */
  lemma ItoaInjective(m: int, n: int)
    ensures Itoa(m) == Itoa(n) <==> m == n
  {
    hide Itoa, ValueOf;
    ItoaSign(m);
    ItoaSign(n);
    ItoaMeans(if m < 0 then -m else m);
    ItoaMeans(if n < 0 then -n else n);
  }

  /** A Go []string, where the nil slice is distinct from the empty one. */
  datatype Slice = Nil | Items(list: seq<string>)
  {
    function Elems(): seq<string> {
      if Nil? then [] else list
    }
  }
}
