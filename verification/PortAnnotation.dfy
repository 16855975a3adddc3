/** Annotations that give a value per port, such as "80:http;443,8443:https;tcp". */
module PortAnnotation {
  import opened Basics

  datatype Coverage = Covered | Uncovered | Bad

  /** strconv.ParseBool */
  function ParseBool(s: string): Option<bool> {
    if s in {"1", "t", "T", "TRUE", "true", "True"} then Some(true)
    else if s in {"0", "f", "F", "FALSE", "false", "False"} then Some(false)
    else None
  }

  function WithoutSpaces(s: string): string {
    if s == "" then "" else (if s[0] == ' ' then "" else [s[0]]) + WithoutSpaces(s[1..])
  }

  /** strconv.ParseInt, which also takes other bases, is a parameter. */
  type IntParser = string -> Option<int>

  predicate PortListed(part: string, parse: IntParser) {
    parse(part).Some? && 1 <= parse(part).value <= 65535
  }

  /** The list names the port before anything that is not a port. */
  ghost predicate ListsPort(parts: seq<string>, port: int, parse: IntParser) {
    exists j :: 0 <= j < |parts| && ListsAt(parts, port, parse, j)
  }

  ghost predicate ListsAt(parts: seq<string>, port: int, parse: IntParser, j: int)
    requires 0 <= j < |parts|
  {
    parse(parts[j]) == Some(port) && forall i | 0 <= i <= j :: PortListed(parts[i], parse)
  }

  /** Spaces are dropped, and nothing else. */
  lemma {:induction false} WithoutSpacesMeans(a: string, b: string)
    ensures WithoutSpaces(a + " " + b) == WithoutSpaces(a) + WithoutSpaces(b)
    ensures ' ' !in a ==> WithoutSpaces(a) == a
    decreases a
  {
    if a == "" {
      assert a + " " + b == " " + b && (" " + b)[1..] == b;
    } else {
      assert (a + " " + b)[1..] == a[1..] + " " + b;
      assert a == [a[0]] + a[1..];
      WithoutSpacesMeans(a[1..], b);
    }
  }

  /** isPortInRange: booleans other than 0 and 1, a star, or a list of ports. */
  method IsPortInRange(r: string, port: int, parse: IntParser) returns (range: Coverage)
    ensures range == RangeOf(r, port, parse)
    ensures r in {"*", "t", "T", "TRUE", "true", "True"} ==> range == Covered
    ensures r in {"", "f", "F", "FALSE", "false", "False"} ==> range == Uncovered
    ensures r !in {"*", "t", "T", "TRUE", "true", "True", "", "f", "F", "FALSE", "false", "False"} ==>
              range == ListedRange(Split(WithoutSpaces(r), ','), port, parse)
  {
    Booleans(r);
    hide ParseBool;
    var b := ParseBool(r);
    if b.Some? && r != "1" && r != "0" {
      return if b.value then Covered else Uncovered;
    }
    if r == "*" {
      return Covered;
    }
    if r == "" {
      return Uncovered;
    }
    var parts := Split(WithoutSpaces(r), ',');
    for i := 0 to |parts|
      invariant forall j | 0 <= j < i :: PortListed(parts[j], parse) && parse(parts[j]) != Some(port)
    {
      var n := parse(parts[i]);
      if n.None? || n.value < 1 || n.value > 65535 {
        assert !PortListed(parts[i], parse);
        return Bad;
      }
      if n.value == port {
        assert ListsAt(parts, port, parse, i);
        return Covered;
      }
    }
    return Uncovered;
  }

  lemma Booleans(r: string)
    ensures ParseBool(r).Some? && r != "1" && r != "0"
            <==> r in {"t", "T", "TRUE", "true", "True", "f", "F", "FALSE", "false", "False"}
    ensures r in {"t", "T", "TRUE", "true", "True"} ==> ParseBool(r) == Some(true)
    ensures r in {"f", "F", "FALSE", "false", "False"} ==> ParseBool(r) == Some(false)
  {
  }

  /** A list of ports covers the port if it names it before anything that is not a port between 1 and 65535;
      it is bad if it goes wrong earlier. */
  ghost function ListedRange(parts: seq<string>, port: int, parse: IntParser): Coverage {
    if ListsPort(parts, port, parse) then Covered
    else if exists i :: 0 <= i < |parts| && !PortListed(parts[i], parse) then Bad
    else Uncovered
  }

  ghost function RangeOf(r: string, port: int, parse: IntParser): Coverage {
    if ParseBool(r).Some? && r != "1" && r != "0" then (if ParseBool(r).value then Covered else Uncovered)
    else if r == "*" then Covered
    else if r == "" then Uncovered
    else ListedRange(Split(WithoutSpaces(r), ','), port, parse)
  }

  // ---- Entries ----

  /** An entry of the annotation: a default, a value for some ports (ours or not), or nonsense. */
  datatype Entry = Default(value: string) | ForPorts(ours: bool, value: string) | Invalid

  ghost function EntryOf(s: string, port: int, parse: IntParser): Entry {
    var parts := Split(s, ':');
    if |parts| == 1 then Default(parts[0])
    else if |parts| > 2 then Invalid
    else match RangeOf(parts[0], port, parse)
      case Covered => ForPorts(true, parts[1])
      case Uncovered => ForPorts(false, parts[1])
      case Bad => Invalid
  }

  ghost function Entries(full: string, port: int, parse: IntParser): (es: seq<Entry>)
    ensures |es| == |Split(full, ';')|
  {
    seq(|Split(full, ';')|, i requires 0 <= i < |Split(full, ';')| => EntryOf(Split(full, ';')[i], port, parse))
  }

  /** One turn of the loop. */
  function Next(value: string, e: Entry): string {
    match e
    case Default(v) => if value == "" then v else value
    case ForPorts(ours, v) => if ours then v else value
    case Invalid => value
  }

  function Fold(es: seq<Entry>): string {
    if es == [] then "" else Next(Fold(es[..|es| - 1]), es[|es| - 1])
  }

  datatype PortNumbers = PortNumbers(port: int, nodePort: int)

  /** The port is that of the last entry for the node port, or -1 where there is none. */
  ghost predicate Behind(ports: seq<PortNumbers>, nodePort: int, port: int) {
    || (port == -1 && forall i | 0 <= i < |ports| :: ports[i].nodePort != nodePort)
    || exists i :: 0 <= i < |ports| && LastFor(ports, nodePort, i) && ports[i].port == port
  }

  ghost predicate LastFor(ports: seq<PortNumbers>, nodePort: int, i: int)
    requires 0 <= i < |ports|
  {
    ports[i].nodePort == nodePort && forall j | i < j < |ports| :: ports[j].nodePort != nodePort
  }

  /** The first loop of getValueForPort. */
  method FindPort(ports: seq<PortNumbers>, nodePort: int) returns (svcPort: int)
    ensures Behind(ports, nodePort, svcPort)
    ensures forall port | Behind(ports, nodePort, port) :: port == svcPort
  {
    svcPort := -1;
    ghost var found := -1;
    for i := 0 to |ports|
      invariant -1 <= found < i
      invariant svcPort == if found == -1 then -1 else ports[found].port
      invariant found >= 0 ==> ports[found].nodePort == nodePort
      invariant forall j | found < j < i :: ports[j].nodePort != nodePort
    {
      if ports[i].nodePort == nodePort {
        svcPort := ports[i].port;
        found := i;
      }
    }
    assert found >= 0 ==> LastFor(ports, nodePort, found);
  }

  /** getValueForPort: None for an annotation it rejects.  The value is that for the service port behind the
      node port. */
  method GetValueForPort(ports: seq<PortNumbers>, nodePort: int, full: string, parse: IntParser)
    returns (r: Option<string>, ghost svcPort: int)
    ensures Behind(ports, nodePort, svcPort)
    ensures r.None? <==> Invalid in Entries(full, svcPort, parse)
    ensures r.Some? ==> r.value == Wanted(Entries(full, svcPort, parse))
  {
    hide RangeOf, Wanted, ParseBool, Split;
    var port := FindPort(ports, nodePort);
    svcPort := port;
    var value := "";
    var perPorts := Split(full, ';');
    ghost var es := Entries(full, svcPort, parse);
    for i := 0 to |perPorts|
      invariant value == Fold(es[..i]) && Invalid !in es[..i]
    {
      assert es[i] == EntryOf(perPorts[i], svcPort, parse);
      assert es[..i + 1][..i] == es[..i] && es[..i + 1] == es[..i] + [es[i]];
      var split := Split(perPorts[i], ':');
      if |split| == 1 {
        if value == "" {
          value := split[0];
        }
        continue;
      }
      if |split| > 2 {
        assert es[i] in es;
        return None, svcPort;
      }
      var range := IsPortInRange(split[0], port, parse);
      if range == Bad {
        assert es[i] in es;
        return None, svcPort;
      }
      if range == Covered {
        value := split[1];
      }
    }
    assert es[..|perPorts|] == es;
    FoldIsWanted(es);
    return Some(value), svcPort;
  }

  // ---- The rule ----

  predicate Ours(e: Entry) {
    e.ForPorts? && e.ours
  }

  /** The first default that is not empty. */
  function FirstDefault(es: seq<Entry>): string {
    if es == [] then ""
    else if es[0].Default? && es[0].value != "" then es[0].value
    else FirstDefault(es[1..])
  }

  /** The number of entries up to and including the last one for our port; 0 if there is none. */
  function UpToLastOurs(es: seq<Entry>): (n: nat)
    ensures n <= |es|
    ensures n > 0 ==> Ours(es[n - 1])
    ensures forall i | n <= i < |es| :: !Ours(es[i])
  {
    if es == [] then 0
    else if Ours(es[|es| - 1]) then |es|
    else UpToLastOurs(es[..|es| - 1])
  }

  /** What the loop computes: the value of the last entry for the port; where there is none, or it is
      empty, the first default that is not empty, counting only those after it. */
  function Wanted(es: seq<Entry>): string {
    var n := UpToLastOurs(es);
    if n > 0 && es[n - 1].value != "" then es[n - 1].value
    else FirstDefault(es[n..])
  }

  /** What the documentation promises: the last entry for the port, else the first default. */
  function Documented(es: seq<Entry>): string {
    var n := UpToLastOurs(es);
    if n > 0 then es[n - 1].value else FirstDefault(es)
  }

  lemma {:induction false} FirstDefaultSnoc(es: seq<Entry>, e: Entry)
    ensures FirstDefault(es + [e]) ==
            if FirstDefault(es) == "" && e.Default? then e.value else FirstDefault(es)
  {
    if es == [] {
      assert (es + [e])[1..] == [];
    } else {
      FirstDefaultSnoc(es[1..], e);
      assert (es + [e])[1..] == es[1..] + [e];
    }
  }

  /** The fold over the entries and the declarative rule agree, however defaults and entries for ports
      are interleaved. */
  lemma {:induction false} FoldIsWanted(es: seq<Entry>)
    ensures Fold(es) == Wanted(es)
  {
    if es != [] {
      var init, last := es[..|es| - 1], es[|es| - 1];
      FoldIsWanted(init);
      if Ours(last) {
        assert es[|es|..] == [];
      } else {
        var n := UpToLastOurs(init);
        assert es[n..] == init[n..] + [last];
        FirstDefaultSnoc(init[n..], last);
      }
    }
  }

  /** The loop keeps the documented promise exactly when it is not the case that the last entry for the
      port is empty and a default that is not follows it. */
  lemma DocumentedWhen(es: seq<Entry>)
    ensures Fold(es) == Documented(es) <==>
            var n := UpToLastOurs(es);
            !(n > 0 && es[n - 1].value == "" && FirstDefault(es[n..]) != "")
  {
    FoldIsWanted(es);
    assert es[0..] == es;
  }

  /** "80:;tcp": the empty value for port 80 gives way to the default behind it. */
  lemma EmptyValueGivesWay(parse: IntParser)
    requires parse("80") == Some(80)
    ensures var es := Entries("80:;tcp", 80, parse); Fold(es) == "tcp" && Documented(es) == ""
  {
    hide RangeOf, Split;
    var es := Entries("80:;tcp", 80, parse);
    ExampleEntries(parse);
    assert es == [es[0], es[1]] == [ForPorts(true, ""), Default("tcp")];
    assert es[..1] == [es[0]] && es[..1][..0] == [];
  }

  lemma ExampleEntries(parse: IntParser)
    requires parse("80") == Some(80)
    ensures var es := Entries("80:;tcp", 80, parse); |es| == 2 && es[0] == ForPorts(true, "") && es[1] == Default("tcp")
  {
    hide RangeOf, Split;
    SplitOne("80:", "tcp", ';');
    SplitNone("tcp", ';');
    assert "80:" + [';'] + "tcp" == "80:;tcp";
    SplitOne("80", "", ':');
    SplitNone("", ':');
    SplitNone("tcp", ':');
    assert "80" + [':'] + "" == "80:";
    ExampleRange(parse);
  }

  lemma ExampleRange(parse: IntParser)
    requires parse("80") == Some(80)
    ensures RangeOf("80", 80, parse) == Covered
  {
    hide Split;
    assert WithoutSpaces("0") == "0" && WithoutSpaces("80") == "80";
    SplitNone("80", ',');
    assert ListsAt(["80"], 80, parse, 0);
  }
}
