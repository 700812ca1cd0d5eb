/** The texts in which published ports are shown, and what a reader of these texts gets. */
module PortTexts {
  import opened Wrappers
  import opened Numerals
  import opened Ports

  // ---------- reading a text ----------

  /** Where `c` occurs last. */
  function LastAt(s: string, c: char): (r: Option<nat>)
    ensures r.Some? ==> r.value < |s| && s[r.value] == c && c !in s[r.value + 1..]
    ensures r.None? ==> c !in s
  {
    if s == "" then None
    else if s[|s| - 1] == c then Some(|s| - 1)
    else LastAt(s[..|s| - 1], c)
  }

  lemma {:induction false} CutsAt(a: string, c: char, b: string)
    requires c !in b
    ensures LastAt(a + [c] + b, c) == Some(|a|) && (a + [c] + b)[..|a|] == a && (a + [c] + b)[|a| + 1..] == b
  {
    if b != "" {
      var n := |b| - 1;
      CutsAt(a, c, b[..n]);
      assert (a + [c] + b)[..|a + [c] + b| - 1] == a + [c] + b[..n];
    }
  }

  /** The host ports from `hostFirst` on are the container ports from `first` to `last`. */
  datatype Reading = Reading(host: string, hostFirst: nat, first: nat, last: nat, protocol: string)

  /** A number, or two with a dash in between. */
  function ReadRange(s: string): Option<(nat, nat)> {
    match LastAt(s, '-')
    case None => if IsNumber(s) then Some((ReadNumber(s), ReadNumber(s))) else None
    case Some(k) =>
      if IsNumber(s[..k]) && IsNumber(s[k + 1..]) then Some((ReadNumber(s[..k]), ReadNumber(s[k + 1..]))) else None
  }

  /** The part of a text before its protocol: container ports, with a host and its ports or without. */
  function ReadPorts(s: string, protocol: string): Option<Reading> {
    match LastAt(s, '>')
    case None => (match ReadRange(s)
      case None => None
      case Some(r) => Some(Reading("", r.0, r.0, r.1, protocol)))
    case Some(k) =>
      if k == 0 || s[k - 1] != '-' then None
      else match (LastAt(s[..k - 1], ':'), ReadRange(s[k + 1..]))
        case (Some(colon), Some(r)) => (match ReadRange(s[..k - 1][colon + 1..])
          case None => None
          case Some(h) => Some(Reading(s[..k - 1][..colon], h.0, r.0, r.1, protocol)))
        case _ => None
  }

  function Read(text: string): Option<Reading> {
    match LastAt(text, '/')
    case None => None
    case Some(k) => ReadPorts(text[..k], text[k + 1..])
  }

  // ---------- what is written is read back ----------

  predicate Natural(l: Line) {
    match l
    case Range(_, _, first, last) => first >= 0 && last >= 0
    case Mapping(p) => p.hostPort >= 0 && p.containerPort >= 0
  }

  function ProtocolOf(l: Line): string {
    match l case Range(_, protocol, _, _) => protocol case Mapping(p) => p.protocol
  }

  function Meaning(l: Line): Reading
    requires Natural(l)
  {
    match l
    case Range(host, protocol, first, last) => Reading(host, first, first, last, protocol)
    case Mapping(p) => Reading(p.host, p.hostPort, p.containerPort, p.containerPort, p.protocol)
  }

  lemma RangeReads(first: int, last: int)
    requires first >= 0 && last >= 0
    ensures ReadRange(RangeText(first, last)) == Some((first, last))
    ensures forall c :: c in RangeText(first, last) ==> IsDigit(c) || c == '-'
  {
    hide Itoa;
    hide ReadNumber;
    NumberReads(first);
    NumberReads(last);
    if first != last {
      CutsAt(Itoa(first), '-', Itoa(last));
      assert RangeText(first, last) == Itoa(first) + ['-'] + Itoa(last);
    }
  }

  lemma PortsRead(host: string, ports: string, inner: string, protocol: string, h: (nat, nat), r: (nat, nat))
    requires ReadRange(ports) == Some(h) && ReadRange(inner) == Some(r)
    requires forall c :: c in ports || c in inner ==> IsDigit(c) || c == '-'
    ensures ReadPorts(host + ":" + ports + "->" + inner, protocol) == Some(Reading(host, h.0, r.0, r.1, protocol))
  {
    hide ReadRange;
    hide LastAt;
    var before := host + ":" + ports + "-";
    assert host + ":" + ports + "->" + inner == before + ['>'] + inner;
    CutsAt(before, '>', inner);
    assert before[..|before| - 1] == host + [':'] + ports;
    assert (before + ['>'] + inner)[..|before| - 1] == before[..|before| - 1];
    CutsAt(host, ':', ports);
  }

  lemma NoneLast(s: string, c: char)
    requires c !in s
    ensures LastAt(s, c) == None
  {
  }

  lemma TextReads(ports: string, protocol: string)
    requires NoSlash(protocol)
    ensures Read(ports + "/" + protocol) == ReadPorts(ports, protocol)
  {
    hide ReadPorts;
    hide LastAt;
    CutsAt(ports, '/', protocol);
    assert ports + "/" + protocol == ports + ['/'] + protocol;
  }

  lemma RangeReadsBack(host: string, protocol: string, first: int, last: int)
    requires first >= 0 && last >= 0 && NoSlash(protocol)
    ensures Read(Text(Range(host, protocol, first, last))) == Some(Reading(host, first, first, last, protocol))
  {
    hide Read;
    hide RangeText;
    hide ReadRange;
    RangeReads(first, last);
    var range := RangeText(first, last);
    if host != "" {
      PortsRead(host, range, range, protocol, (first, last), (first, last));
      TextReads(host + ":" + range + "->" + range, protocol);
    } else {
      TextReads(range, protocol);
      NoneLast(range, '>');
    }
  }

  lemma MappingReadsBack(p: Published)
    requires p.hostPort >= 0 && p.containerPort >= 0 && NoSlash(p.protocol)
    ensures Read(Text(Mapping(p))) == Some(Reading(p.host, p.hostPort, p.containerPort, p.containerPort, p.protocol))
  {
    hide Read;
    hide Itoa;
    hide ReadRange;
    hide ReadPorts;
    var ports, inner := Itoa(p.hostPort), Itoa(p.containerPort);
    RangeReads(p.hostPort, p.hostPort);
    RangeReads(p.containerPort, p.containerPort);
    assert RangeText(p.hostPort, p.hostPort) == ports && RangeText(p.containerPort, p.containerPort) == inner;
    PortsRead(p.host, ports, inner, p.protocol, (p.hostPort, p.hostPort), (p.containerPort, p.containerPort));
    TextReads(p.host + ":" + ports + "->" + inner, p.protocol);
  }

  /** The text of every line whose protocol has no slash is read back as what the line stands for. */
  lemma ReadsBackLine(l: Line)
    requires Natural(l) && NoSlash(ProtocolOf(l))
    ensures Read(Text(l)) == Some(Meaning(l))
  {
    hide Read;
    hide Text;
    match l
    case Range(host, protocol, first, last) => RangeReadsBack(host, protocol, first, last);
    case Mapping(p) => MappingReadsBack(p);
  }

  /** What is read is never of a protocol with a slash. */
  lemma ReadsNoSlash(text: string)
    ensures Read(text).Some? ==> NoSlash(Read(text).value.protocol)
  {
  }

  // ---------- what the texts show ----------

  /** Whether a text is read as one that shows the published port. */
  predicate TextShows(text: string, p: Published) {
    Read(text).Some? &&
    var r := Read(text).value;
    p.host == r.host && p.protocol == r.protocol && r.first <= p.containerPort <= r.last && p.hostPort - r.hostFirst == p.containerPort - r.first
  }

  /** How many of the texts show it. */
  function TextsShow(texts: seq<string>, p: Published): nat {
    if texts == [] then 0 else TextsShow(texts[..|texts| - 1], p) + if TextShows(texts[|texts| - 1], p) then 1 else 0
  }

  /** The port publishes this: on the given name if there is one, else on its own address, else on all. */
  predicate Publishes(port: Port, fqdn: string, p: Published) {
    && p.hostPort == port.hostPort && p.containerPort == port.containerPort && p.protocol == port.protocol
    && (fqdn != "" ==> p.host == fqdn)
    && (fqdn == "" && port.hostIP != "" ==> p.host == port.hostIP)
    && (fqdn == "" && port.hostIP == "" ==> p.host == "0.0.0.0")
  }

  function TimesPublished(ports: seq<Port>, fqdn: string, p: Published): nat {
    if ports == [] then 0
    else TimesPublished(ports[..|ports| - 1], fqdn, p) + if Publishes(ports[|ports| - 1], fqdn, p) then 1 else 0
  }

  /** No protocol has a slash in it, and no host of a port that is published as it is. */
  predicate Readable(ports: seq<Port>, fqdn: string) {
    forall i :: 0 <= i < |ports| ==>
      && NoSlash(ports[i].protocol)
      && (ports[i].hostPort == ports[i].containerPort ==> NoSlash(fqdn) && (fqdn == "" ==> NoSlash(ports[i].hostIP)))
  }

  lemma {:induction false} TimesIsOccurs(ports: seq<Port>, fqdn: string, p: Published)
    ensures TimesPublished(ports, fqdn, p) == Occurs(ports, fqdn, p)
  {
    if ports != [] {
      TimesIsOccurs(ports[..|ports| - 1], fqdn, p);
    }
  }

  ghost predicate AreTexts(texts: seq<string>, lines: seq<Line>) {
    |texts| == |lines| && forall i :: 0 <= i < |texts| ==> texts[i] == Text(lines[i])
  }

  ghost predicate ReadLines(lines: seq<Line>) {
    forall i :: 0 <= i < |lines| ==> Natural(lines[i]) && NoSlash(ProtocolOf(lines[i]))
  }

  lemma {:induction false} TextsShowLines(texts: seq<string>, lines: seq<Line>, p: Published)
    requires AreTexts(texts, lines) && ReadLines(lines)
    ensures TextsShow(texts, p) == Shown(lines, p)
  {
    if texts != [] {
      var n := |texts| - 1;
      TextsShowLines(texts[..n], lines[..n], p);
      ReadsBackLine(lines[n]);
      assert TextShows(texts[n], p) <==> Stands(lines[n], p) == 1;
    }
  }

  lemma {:induction false} NoTextShows(texts: seq<string>, p: Published)
    requires !NoSlash(p.protocol)
    ensures TextsShow(texts, p) == 0
  {
    if texts != [] {
      NoTextShows(texts[..|texts| - 1], p);
      ReadsNoSlash(texts[|texts| - 1]);
    }
  }

  // ---------- the lines of a list of ports ----------

  lemma {:induction false} GroupedReads(ports: seq<Port>, fqdn: string)
    requires forall i :: 0 <= i < |ports| ==> NoSlash(ports[i].protocol)
    ensures ReadLines(Grouped(ports, fqdn).result) && ReadLines(Grouped(ports, fqdn).mappings)
  {
    if ports != [] {
      var n := |ports| - 1;
      var g, key := Grouped(ports[..n], fqdn), KeyOf(HostOf(ports[n], fqdn), ports[n].protocol);
      GroupedReads(ports[..n], fqdn);
      if key in g.groups {
        FormGroupReads(key, g.groups[key]);
      }
    }
  }

  lemma FormGroupReads(key: string, g: Group)
    ensures Natural(FormGroup(key, g)) && NoSlash(ProtocolOf(FormGroup(key, g)))
  {
    UpToSlashHasNone(AfterSlash(key));
  }

  lemma LinesRead(ports: seq<Port>, fqdn: string)
    requires forall i :: 0 <= i < |ports| ==> NoSlash(ports[i].protocol)
    ensures ReadLines(LinesOf(ports, fqdn))
  {
    var sorted := SortedPorts(ports);
    SortedPortsSorts(ports);
    forall i | 0 <= i < |sorted|
      ensures NoSlash(sorted[i].protocol)
    {
      assert sorted[i] in multiset(ports);
    }
    GroupedReads(sorted, fqdn);
    var g := Grouped(sorted, fqdn);
    forall i | 0 <= i < |OpenLines(g.keys, g.groups)|
      ensures Natural(OpenLines(g.keys, g.groups)[i]) && NoSlash(ProtocolOf(OpenLines(g.keys, g.groups)[i]))
    {
      FormGroupReads(g.keys[i], g.groups[g.keys[i]]);
    }
  }

  lemma SlashIsLost(ports: seq<Port>, fqdn: string, texts: seq<string>, i: nat)
    requires i < |ports| && !NoSlash(ports[i].protocol)
    ensures exists p :: TextsShow(texts, p) != TimesPublished(ports, fqdn, p)
  {
    var p := PublishedBy(ports[i], fqdn);
    OccursAt(ports, fqdn, i);
    TimesIsOccurs(ports, fqdn, p);
    NoTextShows(texts, p);
    assert TextsShow(texts, p) != TimesPublished(ports, fqdn, p);
  }

  /**
   * A reader of the texts gets every published port exactly as often as it is in the list, and nothing else, iff
   * no protocol and no host of a port published as it is has a slash in it.
   */
  lemma TextsShowIffReadable(ports: seq<Port>, fqdn: string, texts: seq<string>)
    requires AreTexts(texts, LinesOf(ports, fqdn))
    ensures (forall p :: TextsShow(texts, p) == TimesPublished(ports, fqdn, p)) <==> Readable(ports, fqdn)
  {
    hide LinesOf;
    hide Text;
    hide TextShows;
    hide Publishes;
    hide Separable;
    hide Readable;
    if i :| 0 <= i < |ports| && !NoSlash(ports[i].protocol) {
      NotReadable(ports, fqdn, i);
      SlashIsLost(ports, fqdn, texts, i);
    } else {
      LinesRead(ports, fqdn);
      forall p
        ensures TextsShow(texts, p) == Shown(LinesOf(ports, fqdn), p) && TimesPublished(ports, fqdn, p) == Occurs(ports, fqdn, p)
      {
        TextsShowLines(texts, LinesOf(ports, fqdn), p);
        TimesIsOccurs(ports, fqdn, p);
      }
      ShownIffSeparable(ports, fqdn);
      SeparableIsReadable(ports, fqdn);
      if Readable(ports, fqdn) {
        assert forall p :: Shown(LinesOf(ports, fqdn), p) == Occurs(ports, fqdn, p);
      } else {
        var p :| Shown(LinesOf(ports, fqdn), p) != Occurs(ports, fqdn, p);
        assert TextsShow(texts, p) != TimesPublished(ports, fqdn, p);
      }
    }
  }

  lemma NotReadable(ports: seq<Port>, fqdn: string, i: nat)
    requires i < |ports| && !NoSlash(ports[i].protocol)
    ensures !Readable(ports, fqdn)
  {
  }

  lemma SeparableIsReadable(ports: seq<Port>, fqdn: string)
    requires forall i :: 0 <= i < |ports| ==> NoSlash(ports[i].protocol)
    ensures Separable(ports, fqdn) <==> Readable(ports, fqdn)
  {
    if Separable(ports, fqdn) {
      forall i | 0 <= i < |ports|
        ensures ReadsWell(ports[i], fqdn)
      {
        assert ports[i] in ports;
      }
    }
  }

  lemma {:induction false} GroupedKinds(ports: seq<Port>, fqdn: string)
    ensures forall i :: 0 <= i < |Grouped(ports, fqdn).result| ==> Grouped(ports, fqdn).result[i].Range?
    ensures forall i :: 0 <= i < |Grouped(ports, fqdn).mappings| ==> Grouped(ports, fqdn).mappings[i].Mapping?
  {
    if ports != [] {
      GroupedKinds(ports[..|ports| - 1], fqdn);
    }
  }

  /** Ports published as others come last. */
  lemma MappedLast(ports: seq<Port>, fqdn: string, i: nat, j: nat)
    requires i < j < |LinesOf(ports, fqdn)| && LinesOf(ports, fqdn)[i].Mapping?
    ensures LinesOf(ports, fqdn)[j].Mapping?
  {
    GroupedKinds(SortedPorts(ports), fqdn);
  }

  // ---------- writing them ----------

  /** The body of the loop. */
  method GroupPort(port: Port, fqdn: string, lines: seq<Line>, keys: seq<string>, groups: map<string, Group>, mappings: seq<Line>)
    returns (lines': seq<Line>, keys': seq<string>, groups': map<string, Group>, mappings': seq<Line>)
    requires forall key :: key in keys ==> key in groups
    ensures Grouping(lines', keys', groups', mappings') == Step(Grouping(lines, keys, groups, mappings), port, fqdn)
  {
    lines', keys', groups', mappings' := lines, keys, groups, mappings;
    var hostIP := "0.0.0.0";
    if port.hostIP != "" {
      hostIP := port.hostIP;
    }
    if fqdn != "" {
      hostIP := fqdn;
    }
    if port.hostPort != port.containerPort {
      mappings' := mappings + [Mapping(Published(hostIP, port.hostPort, port.containerPort, port.protocol))];
      return;
    }
    var current, portKey := port.containerPort, hostIP + "/" + port.protocol;
    if portKey !in groups {
      groups' := groups[portKey := Group(current, current)];
      keys' := keys + [portKey];
      return;
    }
    var group := groups[portKey];
    if current == (group.last + 1) % 0x1_0000_0000 {
      groups' := groups[portKey := group.(last := current)];
      return;
    }
    lines' := lines + [FormGroup(portKey, group)];
    groups' := groups[portKey := Group(current, current)];
  }

  lemma NothingGrouped(fqdn: string)
    ensures Grouped([], fqdn) == Grouping([], [], map[], [])
  {
  }

  lemma GroupedSnoc(ports: seq<Port>, port: Port, fqdn: string)
    ensures Grouped(ports + [port], fqdn) == Step(Grouped(ports, fqdn), port, fqdn)
  {
    assert (ports + [port])[..|ports|] == ports;
  }

  /**
   * `PortsToStrings`: sorts the ports in place and writes out the lines. What a reader of the texts gets are the
   * published ports, each as often as it is there, iff no protocol and no host of a port published as it is has a
   * slash in it.
   */
  method PortsToStrings(ports: array<Port>, fqdn: string) returns (result: seq<string>)
    modifies ports
    ensures ports[..] == SortedPorts(old(ports[..]))
    ensures |result| == |LinesOf(old(ports[..]), fqdn)|
    ensures forall i :: 0 <= i < |result| ==> result[i] == Text(LinesOf(old(ports[..]), fqdn)[i])
    ensures (forall p :: TextsShow(result, p) == TimesPublished(old(ports[..]), fqdn, p)) <==> Readable(old(ports[..]), fqdn)
  {
    hide Step;
    hide Text;
    hide Grouped;
    hide SortedPorts;
    hide FormGroup;
    Sort(ports);
    NothingGrouped(fqdn);
    var lines: seq<Line> := [];
    var hostMappings: seq<Line>, groupMapKeys: seq<string>, groupMap: map<string, Group> := [], [], map[];
    for i := 0 to ports.Length
      invariant ports[..] == SortedPorts(old(ports[..]))
      invariant Grouping(lines, groupMapKeys, groupMap, hostMappings) == Grouped(ports[..i], fqdn)
    {
      GroupedSnoc(ports[..i], ports[i], fqdn);
      assert ports[..i + 1] == ports[..i] + [ports[i]];
      lines, groupMapKeys, groupMap, hostMappings := GroupPort(ports[i], fqdn, lines, groupMapKeys, groupMap, hostMappings);
    }
    assert ports[..ports.Length] == ports[..];
    result := WriteOut(lines, groupMapKeys, groupMap, hostMappings);
    TextsShowIffReadable(old(ports[..]), fqdn, result);
  }

  /** The closed groups, then the open ones in the order of their keys, then the mappings. */
  method WriteOut(lines: seq<Line>, keys: seq<string>, groups: map<string, Group>, mappings: seq<Line>) returns (result: seq<string>)
    requires forall key :: key in keys ==> key in groups
    ensures var all := lines + OpenLines(keys, groups) + mappings;
      |result| == |all| && forall i :: 0 <= i < |result| ==> result[i] == Text(all[i])
  {
    var all := lines;
    for i := 0 to |keys|
      invariant all == lines + OpenLines(keys, groups)[..i]
    {
      all := all + [FormGroup(keys[i], groups[keys[i]])];
      NextLine(lines, OpenLines(keys, groups), i);
    }
    WholeLines(lines, OpenLines(keys, groups));
    result := Texts(all + mappings);
  }

  lemma NextLine(lines: seq<Line>, more: seq<Line>, i: nat)
    requires i < |more|
    ensures lines + more[..i] + [more[i]] == lines + more[..i + 1]
  {
  }

  lemma WholeLines(lines: seq<Line>, more: seq<Line>)
    ensures lines + more[..|more|] == lines + more
  {
    assert more[..|more|] == more;
  }

  method Texts(lines: seq<Line>) returns (result: seq<string>)
    ensures |result| == |lines| && forall i :: 0 <= i < |result| ==> result[i] == Text(lines[i])
  {
    result := [];
    for i := 0 to |lines|
      invariant |result| == i && forall k :: 0 <= k < i ==> result[k] == Text(lines[k])
    {
      result := result + [Text(lines[i])];
    }
  }
}
