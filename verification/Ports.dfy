/** Published ports as they are shown: sorted, and runs of equal host and container ports drawn together. */
module Ports {
  import opened Numerals

  type Uint32 = n: int | 0 <= n < 0x1_0000_0000

  datatype Port = Port(hostPort: Uint32, containerPort: Uint32, protocol: string, hostIP: string)

  /** What a port publishes, once the address shown for its host has been chosen. */
  datatype Published = Published(host: string, hostPort: int, containerPort: int, protocol: string)

  datatype Group = Group(first: Uint32, last: Uint32)

  /** A line of the result: a range of ports published as they are, or one port published as another. */
  datatype Line = Range(host: string, protocol: string, first: int, last: int) | Mapping(port: Published)

  // ---------- order ----------

  /** Go's order on strings. */
  predicate Before(s: string, t: string) {
    t != "" && (s == "" || s[0] < t[0] || (s[0] == t[0] && Before(s[1..], t[1..])))
  }

  lemma {:induction false} BeforeIsTotal(s: string, t: string)
    ensures Before(s, t) || Before(t, s) || s == t
    ensures !(Before(s, t) && Before(t, s)) && !Before(s, s)
  {
    if s != "" && t != "" {
      BeforeIsTotal(s[1..], t[1..]);
      assert s == [s[0]] + s[1..] && t == [t[0]] + t[1..];
    }
    if s != "" {
      BeforeIsTotal(s[1..], s[1..]);
    }
  }

  lemma {:induction false} BeforeIsTransitive(s: string, t: string, u: string)
    requires Before(s, t) && Before(t, u)
    ensures Before(s, u)
  {
    if s != "" && s[0] == t[0] && t[0] == u[0] {
      BeforeIsTransitive(s[1..], t[1..], u[1..]);
    }
  }

  /** `comparePorts`. */
  predicate ComparePorts(i: Port, j: Port) {
    if i.containerPort != j.containerPort then i.containerPort < j.containerPort
    else if i.hostIP != j.hostIP then Before(i.hostIP, j.hostIP)
    else if i.hostPort != j.hostPort then i.hostPort < j.hostPort
    else Before(i.protocol, j.protocol)
  }

  /** `comparePorts` orders all ports strictly. */
  lemma CompareIsTotal(i: Port, j: Port)
    ensures ComparePorts(i, j) || ComparePorts(j, i) || i == j
    ensures !(ComparePorts(i, j) && ComparePorts(j, i)) && !ComparePorts(i, i)
  {
    BeforeIsTotal(i.hostIP, j.hostIP);
    BeforeIsTotal(i.protocol, j.protocol);
    BeforeIsTotal(i.protocol, i.protocol);
  }

  lemma CompareIsTransitive(i: Port, j: Port, k: Port)
    requires ComparePorts(i, j) && ComparePorts(j, k)
    ensures ComparePorts(i, k)
  {
    BeforeIsTotal(i.hostIP, j.hostIP);
    if Before(i.hostIP, j.hostIP) && Before(j.hostIP, k.hostIP) {
      BeforeIsTransitive(i.hostIP, j.hostIP, k.hostIP);
      BeforeIsTotal(i.hostIP, k.hostIP);
    }
    if Before(i.protocol, j.protocol) && Before(j.protocol, k.protocol) {
      BeforeIsTransitive(i.protocol, j.protocol, k.protocol);
    }
  }

  predicate NoLater(i: Port, j: Port) {
    i == j || ComparePorts(i, j)
  }

  predicate Sorted(s: seq<Port>) {
    forall i, j :: 0 <= i < j < |s| ==> NoLater(s[i], s[j])
  }

  /** Sorted ports go up by container port, then by address, then by host port. */
  lemma SortedGoUp(s: seq<Port>, i: nat, j: nat)
    requires Sorted(s) && i < j < |s|
    ensures s[i].containerPort <= s[j].containerPort
    ensures s[i].containerPort == s[j].containerPort && s[i].hostIP == s[j].hostIP ==> s[i].hostPort <= s[j].hostPort
    ensures s[i].containerPort == s[j].containerPort && s[i].hostIP != "" ==> s[j].hostIP != "" && s[i].hostIP[0] <= s[j].hostIP[0]
  {
    assert NoLater(s[i], s[j]);
  }

  function Insert(s: seq<Port>, p: Port): seq<Port> {
    if s == [] || ComparePorts(s[|s| - 1], p) then s + [p]
    else Insert(s[..|s| - 1], p) + [s[|s| - 1]]
  }

  lemma {:induction false} InsertSorts(s: seq<Port>, p: Port)
    requires Sorted(s)
    ensures Sorted(Insert(s, p)) && multiset(Insert(s, p)) == multiset(s) + multiset{p} && |Insert(s, p)| == |s| + 1
    ensures forall x :: x in Insert(s, p) ==> x in s || x == p
  {
    if s != [] {
      var n := |s| - 1;
      assert s == s[..n] + [s[n]];
      CompareIsTotal(s[n], p);
      if ComparePorts(s[n], p) {
        forall i | 0 <= i < n
          ensures NoLater(s[i], p)
        {
          assert NoLater(s[i], s[n]);
          if ComparePorts(s[i], s[n]) {
            CompareIsTransitive(s[i], s[n], p);
          }
        }
      } else {
        InsertSorts(s[..n], p);
        var rest := Insert(s[..n], p);
        forall i | 0 <= i < |rest|
          ensures NoLater(rest[i], s[n])
        {
          assert rest[i] in s[..n] || rest[i] == p;
        }
      }
    }
  }

  function SortedPorts(s: seq<Port>): seq<Port> {
    if s == [] then [] else Insert(SortedPorts(s[..|s| - 1]), s[|s| - 1])
  }

  lemma {:induction false} SortedPortsSorts(s: seq<Port>)
    ensures Sorted(SortedPorts(s)) && multiset(SortedPorts(s)) == multiset(s) && |SortedPorts(s)| == |s|
  {
    if s != [] {
      var n := |s| - 1;
      SortedPortsSorts(s[..n]);
      InsertSorts(SortedPorts(s[..n]), s[n]);
      assert s == s[..n] + [s[n]];
    }
  }

  /** `sort.Slice` with `comparePorts`, which leaves no choice of order. */
  method Sort(ports: array<Port>)
    modifies ports
    ensures ports[..] == SortedPorts(old(ports[..]))
    ensures Sorted(ports[..]) && multiset(ports[..]) == multiset(old(ports[..]))
  {
    SortedPortsSorts(ports[..]);
    WriteBack(ports, SortedPorts(ports[..]));
  }

  method WriteBack(ports: array<Port>, s: seq<Port>)
    requires |s| == ports.Length
    modifies ports
    ensures ports[..] == s
  {
    for i := 0 to ports.Length
      invariant ports[..i] == s[..i]
    {
      ports[i] := s[i];
    }
  }

  // ---------- keys ----------

  function HostOf(p: Port, fqdn: string): string {
    if fqdn != "" then fqdn else if p.hostIP != "" then p.hostIP else "0.0.0.0"
  }

  function PublishedBy(p: Port, fqdn: string): Published {
    Published(HostOf(p, fqdn), p.hostPort, p.containerPort, p.protocol)
  }

  function KeyOf(host: string, protocol: string): string {
    host + "/" + protocol
  }

  predicate NoSlash(s: string) {
    '/' !in s
  }

  /** A port that goes through a key has no slash in its host or protocol; mapped ports go through none. */
  predicate ReadsWell(p: Port, fqdn: string) {
    p.hostPort == p.containerPort ==> NoSlash(HostOf(p, fqdn)) && NoSlash(p.protocol)
  }

  predicate Separable(ports: seq<Port>, fqdn: string) {
    forall p :: p in ports ==> ReadsWell(p, fqdn)
  }

  function UpToSlash(s: string): string {
    if s == "" || s[0] == '/' then "" else [s[0]] + UpToSlash(s[1..])
  }

  function AfterSlash(s: string): string {
    if s == "" then "" else if s[0] == '/' then s[1..] else AfterSlash(s[1..])
  }

  lemma {:induction false} KeySplits(host: string, protocol: string)
    requires NoSlash(host) && NoSlash(protocol)
    ensures UpToSlash(KeyOf(host, protocol)) == host
    ensures AfterSlash(KeyOf(host, protocol)) == protocol && UpToSlash(protocol) == protocol
  {
    if host == "" {
      assert KeyOf(host, protocol)[1..] == protocol;
      WholeUpToSlash(protocol);
    } else {
      KeySplits(host[1..], protocol);
      assert KeyOf(host, protocol)[1..] == KeyOf(host[1..], protocol);
    }
  }

  lemma {:induction false} WholeUpToSlash(s: string)
    requires NoSlash(s)
    ensures UpToSlash(s) == s
  {
    if s != "" {
      WholeUpToSlash(s[1..]);
    }
  }

  /** `formGroup`, before its result is written out: the key is taken apart at its slashes. */
  function FormGroup(key: string, g: Group): Line {
    Range(UpToSlash(key), UpToSlash(AfterSlash(key)), g.first, g.last)
  }

  function RangeText(first: int, last: int): string {
    if first == last then Itoa(first) else Itoa(first) + "-" + Itoa(last)
  }

  /** A line as it is shown. */
  function Text(l: Line): string {
    match l
    case Range(host, protocol, first, last) =>
      (if host != "" then host + ":" + RangeText(first, last) + "->" + RangeText(first, last) else RangeText(first, last)) + "/" + protocol
    case Mapping(p) => p.host + ":" + Itoa(p.hostPort) + "->" + Itoa(p.containerPort) + "/" + p.protocol
  }

  // ---------- what lines stand for ----------

  /** How many times a line stands for a published port. */
  function Stands(l: Line, p: Published): nat {
    match l
    case Range(host, protocol, first, last) =>
      if p.host == host && p.protocol == protocol && p.hostPort == p.containerPort && first <= p.containerPort <= last then 1 else 0
    case Mapping(port) => if p == port then 1 else 0
  }

  function Shown(lines: seq<Line>, p: Published): nat {
    if lines == [] then 0 else Shown(lines[..|lines| - 1], p) + Stands(lines[|lines| - 1], p)
  }

  /** How many of the ports publish it. */
  function Occurs(ports: seq<Port>, fqdn: string, p: Published): nat {
    if ports == [] then 0
    else Occurs(ports[..|ports| - 1], fqdn, p) + if PublishedBy(ports[|ports| - 1], fqdn) == p then 1 else 0
  }

  lemma {:induction false} ShownConcat(a: seq<Line>, b: seq<Line>, p: Published)
    ensures Shown(a + b, p) == Shown(a, p) + Shown(b, p)
  {
    if b == [] {
      assert a + b == a;
    } else {
      var n := |b| - 1;
      ShownConcat(a, b[..n], p);
      assert (a + b)[..|a + b| - 1] == a + b[..n];
    }
  }

  lemma ShownSnoc(a: seq<Line>, l: Line, p: Published)
    ensures Shown(a + [l], p) == Shown(a, p) + Stands(l, p)
  {
    assert (a + [l])[..|a|] == a;
  }

  lemma {:induction false} InsertOccurs(s: seq<Port>, port: Port, fqdn: string, p: Published)
    ensures Occurs(Insert(s, port), fqdn, p) == Occurs(s + [port], fqdn, p)
  {
    assert (s + [port])[..|s|] == s;
    var n := |s| - 1;
    if s != [] && !ComparePorts(s[n], port) {
      InsertOccurs(s[..n], port, fqdn, p);
      assert (s[..n] + [port])[..n] == s[..n];
      assert (Insert(s[..n], port) + [s[n]])[..|Insert(s[..n], port)|] == Insert(s[..n], port);
    }
  }

  /** Sorting changes nothing about what is published. */
  lemma {:induction false} SortingOccurs(s: seq<Port>, fqdn: string, p: Published)
    ensures Occurs(SortedPorts(s), fqdn, p) == Occurs(s, fqdn, p)
  {
    if s != [] {
      var n := |s| - 1;
      SortingOccurs(s[..n], fqdn, p);
      InsertOccurs(SortedPorts(s[..n]), s[n], fqdn, p);
      assert (SortedPorts(s[..n]) + [s[n]])[..|SortedPorts(s[..n])|] == SortedPorts(s[..n]);
    }
  }

  // ---------- the loop ----------

  predicate AsIs(p: Published) {
    p.hostPort == p.containerPort
  }

  /** The variables of the loop; `keys` are in the order in which groups were first made. */
  datatype Grouping = Grouping(result: seq<Line>, keys: seq<string>, groups: map<string, Group>, mappings: seq<Line>)

  ghost predicate WellKept(g: Grouping) {
    && (forall i, k :: 0 <= i < k < |g.keys| ==> g.keys[i] != g.keys[k])
    && (forall key :: key in g.groups <==> key in g.keys)
    && (forall key :: key in g.groups ==> g.groups[key].first <= g.groups[key].last)
    && (forall i :: 0 <= i < |g.mappings| ==> g.mappings[i].Mapping? && !AsIs(g.mappings[i].port))
    && (forall i :: 0 <= i < |g.result| ==> g.result[i].Range? && g.result[i].first <= g.result[i].last)
  }

  /** The lines of the groups that are still open, in the order of the keys. */
  function OpenLines(keys: seq<string>, groups: map<string, Group>): seq<Line>
    requires forall key :: key in keys ==> key in groups
  {
    seq(|keys|, i requires 0 <= i < |keys| => FormGroup(keys[i], groups[keys[i]]))
  }

  function AllLines(g: Grouping): seq<Line>
    requires WellKept(g)
  {
    g.result + OpenLines(g.keys, g.groups) + g.mappings
  }

  function GroupingShown(g: Grouping, p: Published): nat
    requires WellKept(g)
  {
    Shown(g.result, p) + Shown(OpenLines(g.keys, g.groups), p) + Shown(g.mappings, p)
  }

  lemma LastOpenLine(rest: seq<string>, last: string, groups: map<string, Group>, p: Published)
    requires forall x :: x in rest + [last] ==> x in groups
    ensures last in groups && forall x :: x in rest ==> x in groups
    ensures Shown(OpenLines(rest + [last], groups), p) == Shown(OpenLines(rest, groups), p) + Stands(FormGroup(last, groups[last]), p)
  {
    assert (rest + [last])[|rest|] == last;
    assert forall x :: x in rest ==> x in rest + [last];
    assert OpenLines(rest + [last], groups) == OpenLines(rest, groups) + [FormGroup(last, groups[last])];
    ShownSnoc(OpenLines(rest, groups), FormGroup(last, groups[last]), p);
  }

  /** Changing one group changes one line. */
  lemma {:induction false} OneOpenLine(keys: seq<string>, groups: map<string, Group>, key: string, g: Group, p: Published)
    requires forall i, k :: 0 <= i < k < |keys| ==> keys[i] != keys[k]
    requires (forall x :: x in keys ==> x in groups) && key in keys
    ensures Shown(OpenLines(keys, groups[key := g]), p) + Stands(FormGroup(key, groups[key]), p)
            == Shown(OpenLines(keys, groups), p) + Stands(FormGroup(key, g), p)
    decreases |keys|
  {
    var n := |keys| - 1;
    var rest, last := keys[..n], keys[n];
    assert keys == rest + [last];
    LastOpenLine(rest, last, groups, p);
    LastOpenLine(rest, last, groups[key := g], p);
    if last == key {
      assert OpenLines(rest, groups) == OpenLines(rest, groups[key := g]);
    } else {
      assert key in rest;
      OneOpenLine(rest, groups, key, g, p);
    }
  }

  /** One pass of the loop; the end of a group is compared in 32 bits. */
  function Step(g: Grouping, p: Port, fqdn: string): Grouping
    requires forall key :: key in g.keys ==> key in g.groups
  {
    var key, current := KeyOf(HostOf(p, fqdn), p.protocol), p.containerPort;
    if p.hostPort != p.containerPort then g.(mappings := g.mappings + [Mapping(PublishedBy(p, fqdn))])
    else if key !in g.groups then g.(keys := g.keys + [key], groups := g.groups[key := Group(current, current)])
    else
      var group := g.groups[key];
      if current == (group.last + 1) % 0x1_0000_0000 then g.(groups := g.groups[key := Group(group.first, current)])
      else g.(result := g.result + [FormGroup(key, group)], groups := g.groups[key := Group(current, current)])
  }

  /** The ports still to come are not below the end of an open group. */
  ghost predicate Below(g: Grouping, p: Port, fqdn: string) {
    var key := KeyOf(HostOf(p, fqdn), p.protocol);
    key in g.groups ==> g.groups[key].last <= p.containerPort
  }

  lemma StepKeeps(g: Grouping, p: Port, fqdn: string)
    requires WellKept(g) && Below(g, p, fqdn)
    ensures WellKept(Step(g, p, fqdn))
  {
  }

  lemma NewGroupShows(g: Grouping, port: Port, fqdn: string, key: string, p: Published)
    requires WellKept(g) && key == KeyOf(HostOf(port, fqdn), port.protocol) && key !in g.groups
    requires UpToSlash(key) == HostOf(port, fqdn) && UpToSlash(AfterSlash(key)) == port.protocol
    requires port.hostPort == port.containerPort && WellKept(Step(g, port, fqdn))
    ensures GroupingShown(Step(g, port, fqdn), p) == GroupingShown(g, p) + if PublishedBy(port, fqdn) == p then 1 else 0
  {
    hide UpToSlash;
    hide AfterSlash;
    hide Shown;
    var group := Group(port.containerPort, port.containerPort);
    LastOpenLine(g.keys, key, g.groups[key := group], p);
    assert OpenLines(g.keys, g.groups[key := group]) == OpenLines(g.keys, g.groups);
  }

  lemma ExtendedShows(key: string, first: Uint32, last: Uint32, p: Published)
    requires first <= last && last + 1 < 0x1_0000_0000
    ensures Stands(FormGroup(key, Group(first, last + 1)), p)
            == Stands(FormGroup(key, Group(first, last)), p) + Stands(FormGroup(key, Group(last + 1, last + 1)), p)
  {
  }

  lemma AloneShows(key: string, port: Port, fqdn: string, p: Published)
    requires port.hostPort == port.containerPort
    requires UpToSlash(key) == HostOf(port, fqdn) && UpToSlash(AfterSlash(key)) == port.protocol
    ensures Stands(FormGroup(key, Group(port.containerPort, port.containerPort)), p) == if PublishedBy(port, fqdn) == p then 1 else 0
  {
  }

  lemma KnownGroupShows(g: Grouping, port: Port, fqdn: string, key: string, p: Published)
    requires WellKept(g) && key == KeyOf(HostOf(port, fqdn), port.protocol) && key in g.groups
    requires UpToSlash(key) == HostOf(port, fqdn) && UpToSlash(AfterSlash(key)) == port.protocol
    requires port.hostPort == port.containerPort && WellKept(Step(g, port, fqdn)) && Below(g, port, fqdn)
    ensures GroupingShown(Step(g, port, fqdn), p) == GroupingShown(g, p) + if PublishedBy(port, fqdn) == p then 1 else 0
  {
    AloneShows(key, port, fqdn, p);
    var group := g.groups[key];
    if port.containerPort == (group.last + 1) % 0x1_0000_0000 {
      StepExtends(g, port, fqdn, key);
      ExtensionShows(g, key, p);
    } else {
      StepCloses(g, port, fqdn, key);
      ClosingShows(g, key, Group(port.containerPort, port.containerPort), p);
    }
  }

  lemma StepExtends(g: Grouping, port: Port, fqdn: string, key: string)
    requires WellKept(g) && key == KeyOf(HostOf(port, fqdn), port.protocol) && key in g.groups && port.hostPort == port.containerPort
    requires Below(g, port, fqdn) && port.containerPort == (g.groups[key].last + 1) % 0x1_0000_0000
    ensures port.containerPort == g.groups[key].last + 1
    ensures Step(g, port, fqdn) == g.(groups := g.groups[key := Group(g.groups[key].first, g.groups[key].last + 1)])
  {
  }

  lemma StepCloses(g: Grouping, port: Port, fqdn: string, key: string)
    requires WellKept(g) && key == KeyOf(HostOf(port, fqdn), port.protocol) && key in g.groups && port.hostPort == port.containerPort
    requires port.containerPort != (g.groups[key].last + 1) % 0x1_0000_0000
    ensures Step(g, port, fqdn)
            == g.(result := g.result + [FormGroup(key, g.groups[key])], groups := g.groups[key := Group(port.containerPort, port.containerPort)])
  {
  }

  lemma ExtensionShows(g: Grouping, key: string, p: Published)
    requires WellKept(g) && key in g.groups && g.groups[key].last + 1 < 0x1_0000_0000
    ensures var group := g.groups[key];
      var g' := g.(groups := g.groups[key := Group(group.first, group.last + 1)]);
      WellKept(g') && GroupingShown(g', p) == GroupingShown(g, p) + Stands(FormGroup(key, Group(group.last + 1, group.last + 1)), p)
  {
    var group := g.groups[key];
    ExtendedShows(key, group.first, group.last, p);
    ChangedShows(g, key, Group(group.first, group.last + 1), p);
  }

  lemma ClosingShows(g: Grouping, key: string, group: Group, p: Published)
    requires WellKept(g) && key in g.groups && group.first <= group.last
    ensures var g' := g.(result := g.result + [FormGroup(key, g.groups[key])], groups := g.groups[key := group]);
      WellKept(g') && GroupingShown(g', p) == GroupingShown(g, p) + Stands(FormGroup(key, group), p)
  {
    ChangedShows(g, key, group, p);
    ShownSnoc(g.result, FormGroup(key, g.groups[key]), p);
  }

  lemma ChangedShows(g: Grouping, key: string, group: Group, p: Published)
    requires WellKept(g) && key in g.groups
    ensures forall x :: x in g.keys ==> x in g.groups[key := group]
    ensures Shown(OpenLines(g.keys, g.groups[key := group]), p) + Stands(FormGroup(key, g.groups[key]), p)
            == Shown(OpenLines(g.keys, g.groups), p) + Stands(FormGroup(key, group), p)
  {
    OneOpenLine(g.keys, g.groups, key, group, p);
  }

  /** One pass accounts for exactly the port it looked at. */
  lemma StepShows(g: Grouping, port: Port, fqdn: string, p: Published)
    requires WellKept(g) && Below(g, port, fqdn) && ReadsWell(port, fqdn)
    ensures WellKept(Step(g, port, fqdn))
    ensures GroupingShown(Step(g, port, fqdn), p) == GroupingShown(g, p) + if PublishedBy(port, fqdn) == p then 1 else 0
  {
    StepKeeps(g, port, fqdn);
    var key := KeyOf(HostOf(port, fqdn), port.protocol);
    if port.hostPort != port.containerPort {
      ShownSnoc(g.mappings, Mapping(PublishedBy(port, fqdn)), p);
    } else {
      KeySplits(HostOf(port, fqdn), port.protocol);
      if key !in g.groups {
        NewGroupShows(g, port, fqdn, key, p);
      } else {
        KnownGroupShows(g, port, fqdn, key, p);
      }
    }
  }

  function NoGroups(): Grouping {
    Grouping([], [], map[], [])
  }

  /** An open group ends at the last port it was given. */
  ghost predicate EndsAtPort(g: Grouping, ports: seq<Port>, fqdn: string, key: string)
    requires key in g.groups
  {
    exists i :: 0 <= i < |ports| && ports[i].hostPort == ports[i].containerPort == g.groups[key].last
                && KeyOf(HostOf(ports[i], fqdn), ports[i].protocol) == key
  }

  ghost predicate Accounted(g: Grouping, ports: seq<Port>, fqdn: string) {
    && WellKept(g)
    && (forall p :: GroupingShown(g, p) == Occurs(ports, fqdn, p))
    && (forall key :: key in g.groups ==> EndsAtPort(g, ports, fqdn, key))
  }

  lemma StartAccounted(fqdn: string)
    ensures Accounted(NoGroups(), [], fqdn)
  {
    assert OpenLines([], map[]) == [];
  }

  lemma StepEnds(g: Grouping, ports: seq<Port>, p: Port, fqdn: string, key: string)
    requires WellKept(g) && key in Step(g, p, fqdn).groups
    requires key in g.groups ==> EndsAtPort(g, ports, fqdn, key)
    ensures EndsAtPort(Step(g, p, fqdn), ports + [p], fqdn, key)
  {
    if p.hostPort == p.containerPort && key == KeyOf(HostOf(p, fqdn), p.protocol) {
      assert (ports + [p])[|ports|] == p;
    } else {
      var i :| 0 <= i < |ports| && ports[i].hostPort == ports[i].containerPort == g.groups[key].last
               && KeyOf(HostOf(ports[i], fqdn), ports[i].protocol) == key;
      assert (ports + [p])[i] == ports[i];
    }
  }

  lemma SortedBelow(g: Grouping, ports: seq<Port>, p: Port, fqdn: string)
    requires Accounted(g, ports, fqdn) && Sorted(ports + [p])
    ensures Below(g, p, fqdn)
  {
    var key := KeyOf(HostOf(p, fqdn), p.protocol);
    if key in g.groups {
      assert EndsAtPort(g, ports, fqdn, key);
      var i :| 0 <= i < |ports| && ports[i].containerPort == g.groups[key].last && ports[i].hostPort == ports[i].containerPort
               && KeyOf(HostOf(ports[i], fqdn), ports[i].protocol) == key;
      assert NoLater((ports + [p])[i], (ports + [p])[|ports|]);
    }
  }

  lemma StepAccounts(g: Grouping, ports: seq<Port>, p: Port, fqdn: string)
    requires Accounted(g, ports, fqdn) && Sorted(ports + [p]) && Separable(ports + [p], fqdn)
    ensures Accounted(Step(g, p, fqdn), ports + [p], fqdn)
  {
    assert (ports + [p])[|ports|] == p;
    SortedBelow(g, ports, p, fqdn);
    StepKeeps(g, p, fqdn);
    assert (ports + [p])[..|ports|] == ports;
    forall x
      ensures GroupingShown(Step(g, p, fqdn), x) == Occurs(ports + [p], fqdn, x)
    {
      StepShows(g, p, fqdn, x);
    }
    forall key | key in Step(g, p, fqdn).groups
      ensures EndsAtPort(Step(g, p, fqdn), ports + [p], fqdn, key)
    {
      StepEnds(g, ports, p, fqdn, key);
    }
  }

  lemma AllLinesShow(g: Grouping, p: Published)
    requires WellKept(g)
    ensures Shown(AllLines(g), p) == GroupingShown(g, p)
  {
    ShownConcat(g.result, OpenLines(g.keys, g.groups), p);
    ShownConcat(g.result + OpenLines(g.keys, g.groups), g.mappings, p);
  }

  // ---------- ranges that do not touch ----------

  /** Ranges of the same host and protocol come in increasing order and no two could be drawn together. */
  ghost predicate Separated(lines: seq<Line>) {
    forall i, k :: 0 <= i < k < |lines| && SameKey(lines[i], lines[k]) ==> lines[i].last + 1 < lines[k].first
  }

  predicate SameKey(l: Line, m: Line) {
    l.Range? && m.Range? && l.host == m.host && l.protocol == m.protocol
  }

  /** No port published as it is occurs twice. */
  ghost predicate NoDuplicates(ports: seq<Port>, fqdn: string) {
    forall p :: AsIs(p) ==> Occurs(ports, fqdn, p) <= 1
  }

  /** Keys can be read back from the lines made of them. */
  predicate ReadsBack(key: string) {
    KeyOf(UpToSlash(key), UpToSlash(AfterSlash(key))) == key
  }

  ghost predicate Apart(g: Grouping)
    requires WellKept(g)
  {
    && Separated(g.result)
    && (forall key :: key in g.groups ==> ReadsBack(key))
    && (forall i :: 0 <= i < |g.result| ==> ClosedBefore(g, g.result[i]))
  }

  /** The group of a line's key is open, and begins where the line cannot be drawn on. */
  ghost predicate ClosedBefore(g: Grouping, l: Line) {
    l.Range? &&
    var key := KeyOf(l.host, l.protocol);
    key in g.groups && l.last + 1 < g.groups[key].first && l == Range(UpToSlash(key), UpToSlash(AfterSlash(key)), l.first, l.last)
  }

  lemma {:induction false} OccursAt(ports: seq<Port>, fqdn: string, i: nat)
    requires i < |ports|
    ensures Occurs(ports, fqdn, PublishedBy(ports[i], fqdn)) >= 1
  {
    if i < |ports| - 1 {
      OccursAt(ports[..|ports| - 1], fqdn, i);
    }
  }

  lemma {:induction false} OccursLess(ports: seq<Port>, n: nat, fqdn: string, p: Published)
    requires n <= |ports|
    ensures Occurs(ports[..n], fqdn, p) <= Occurs(ports, fqdn, p)
  {
    if n < |ports| {
      OccursLess(ports[..|ports| - 1], n, fqdn, p);
      assert ports[..|ports| - 1][..n] == ports[..n];
    } else {
      assert ports[..n] == ports;
    }
  }

  lemma SameKeySamePort(p: Port, q: Port, fqdn: string)
    requires p.hostPort == p.containerPort && q.hostPort == q.containerPort && ReadsWell(p, fqdn) && ReadsWell(q, fqdn)
    requires KeyOf(HostOf(p, fqdn), p.protocol) == KeyOf(HostOf(q, fqdn), q.protocol) && p.containerPort == q.containerPort
    ensures PublishedBy(p, fqdn) == PublishedBy(q, fqdn)
  {
    KeySplits(HostOf(p, fqdn), p.protocol);
    KeySplits(HostOf(q, fqdn), q.protocol);
  }

  /** Without duplicates the next port of a group lies beyond its end. */
  lemma BeyondTheEnd(g: Grouping, ports: seq<Port>, port: Port, fqdn: string, key: string)
    requires Accounted(g, ports, fqdn) && Separable(ports + [port], fqdn) && NoDuplicates(ports + [port], fqdn)
    requires port.hostPort == port.containerPort && key == KeyOf(HostOf(port, fqdn), port.protocol) && key in g.groups
    ensures port.containerPort != g.groups[key].last
  {
    assert EndsAtPort(g, ports, fqdn, key);
    var i :| 0 <= i < |ports| && ports[i].hostPort == ports[i].containerPort == g.groups[key].last
             && KeyOf(HostOf(ports[i], fqdn), ports[i].protocol) == key;
    assert ports[i] == (ports + [port])[i] && port == (ports + [port])[|ports|];
    assert ReadsWell(ports[i], fqdn) && ReadsWell(port, fqdn);
    if port.containerPort == ports[i].containerPort {
      SameKeySamePort(ports[i], port, fqdn);
    }
    assert (ports + [port])[..|ports|] == ports;
    OccursAt(ports, fqdn, i);
    assert AsIs(PublishedBy(port, fqdn));
  }

  lemma SeparatedSnoc(lines: seq<Line>, l: Line)
    requires Separated(lines) && forall i :: 0 <= i < |lines| && SameKey(lines[i], l) ==> lines[i].last + 1 < l.first
    ensures Separated(lines + [l])
  {
  }

  lemma CloseApart(g: Grouping, key: string, group: Group)
    requires WellKept(g) && Apart(g) && key in g.groups && g.groups[key].last + 1 < group.first <= group.last
    ensures var g' := g.(result := g.result + [FormGroup(key, g.groups[key])], groups := g.groups[key := group]);
      WellKept(g') && Apart(g')
  {
    var line := FormGroup(key, g.groups[key]);
    forall i | 0 <= i < |g.result| && SameKey(g.result[i], line)
      ensures g.result[i].last + 1 < line.first
    {
      assert ClosedBefore(g, g.result[i]) && ReadsBack(key);
    }
    SeparatedSnoc(g.result, line);
    var g' := g.(result := g.result + [line], groups := g.groups[key := group]);
    forall i | 0 <= i < |g'.result|
      ensures ClosedBefore(g', g'.result[i])
    {
      assert ReadsBack(key);
      assert i < |g.result| ==> ClosedBefore(g, g.result[i]);
    }
  }

  lemma StepApart(g: Grouping, port: Port, fqdn: string)
    requires WellKept(g) && Apart(g) && Below(g, port, fqdn) && ReadsWell(port, fqdn)
    requires var key := KeyOf(HostOf(port, fqdn), port.protocol);
      port.hostPort == port.containerPort && key in g.groups ==> port.containerPort != g.groups[key].last
    ensures WellKept(Step(g, port, fqdn)) && Apart(Step(g, port, fqdn))
  {
    StepKeeps(g, port, fqdn);
    var key := KeyOf(HostOf(port, fqdn), port.protocol);
    if port.hostPort == port.containerPort {
      KeySplits(HostOf(port, fqdn), port.protocol);
    }
    if port.hostPort == port.containerPort && key in g.groups && port.containerPort != g.groups[key].last + 1 {
      CloseApart(g, key, Group(port.containerPort, port.containerPort));
    } else {
      OpenApart(g, Step(g, port, fqdn), key);
    }
  }

  /** Groups that are made or only grow at their end. */
  lemma OpenApart(g: Grouping, g': Grouping, key: string)
    requires WellKept(g) && Apart(g) && WellKept(g') && g'.result == g.result
    requires forall x :: x in g'.groups ==> x in g.groups || (x == key && ReadsBack(key))
    requires forall x :: x in g.groups ==> x in g'.groups && g'.groups[x].first == g.groups[x].first
    ensures Apart(g')
  {
    forall i | 0 <= i < |g'.result|
      ensures ClosedBefore(g', g'.result[i])
    {
      assert ClosedBefore(g, g.result[i]);
    }
  }

  lemma OpenLinesDiffer(g: Grouping, i: nat, k: nat)
    requires WellKept(g) && Apart(g) && i < k < |g.keys|
    ensures !SameKey(FormGroup(g.keys[i], g.groups[g.keys[i]]), FormGroup(g.keys[k], g.groups[g.keys[k]]))
  {
    assert ReadsBack(g.keys[i]) && ReadsBack(g.keys[k]);
  }

  /** With every group closed the ranges are still separated. */
  lemma LinesSeparated(g: Grouping)
    requires WellKept(g) && Apart(g)
    ensures Separated(AllLines(g))
  {
    var lines, n := AllLines(g), |g.result|;
    forall i, k | 0 <= i < k < |g.keys|
      ensures !SameKey(OpenLines(g.keys, g.groups)[i], OpenLines(g.keys, g.groups)[k])
    {
      OpenLinesDiffer(g, i, k);
    }
    forall i, k | n <= i < k < n + |g.keys|
      ensures !SameKey(lines[i], lines[k])
    {
      assert lines[i] == OpenLines(g.keys, g.groups)[i - n] && lines[k] == OpenLines(g.keys, g.groups)[k - n];
    }
    forall i, k | 0 <= i < k < |lines| && SameKey(lines[i], lines[k])
      ensures lines[i].last + 1 < lines[k].first
    {
      assert k < n + |g.keys|;
      if n <= k {
        var key := g.keys[k - n];
        assert lines[k] == FormGroup(key, g.groups[key]) && ReadsBack(key);
        if i < n {
          assert ClosedBefore(g, g.result[i]);
        }
      }
    }
  }

  lemma {:induction false} SomeLineStands(lines: seq<Line>, p: Published)
    requires Shown(lines, p) > 0
    ensures exists i :: 0 <= i < |lines| && Stands(lines[i], p) > 0
  {
    var n := |lines| - 1;
    if Stands(lines[n], p) == 0 {
      SomeLineStands(lines[..n], p);
      var i :| 0 <= i < n && Stands(lines[..n][i], p) > 0;
      assert Stands(lines[i], p) > 0;
    }
  }

  /** Separated ranges show no port twice. */
  lemma {:induction false} SeparatedShowsOnce(lines: seq<Line>, p: Published)
    requires Separated(lines) && forall i :: 0 <= i < |lines| && lines[i].Mapping? ==> lines[i].port != p
    requires forall i :: 0 <= i < |lines| && lines[i].Range? ==> lines[i].first <= lines[i].last
    ensures Shown(lines, p) <= 1
  {
    if lines != [] {
      var n := |lines| - 1;
      SeparatedShowsOnce(lines[..n], p);
      if Shown(lines[..n], p) > 0 {
        SomeLineStands(lines[..n], p);
        var i :| 0 <= i < n && Stands(lines[..n][i], p) > 0;
        assert lines[i] == lines[..n][i] && (SameKey(lines[i], lines[n]) ==> lines[i].last + 1 < lines[n].first);
      }
    }
  }

  // ---------- the whole function ----------

  /** The loop over sorted ports. */
  function Grouped(ports: seq<Port>, fqdn: string): (g: Grouping)
    ensures forall key :: key in g.keys ==> key in g.groups
  {
    if ports == [] then NoGroups() else Step(Grouped(ports[..|ports| - 1], fqdn), ports[|ports| - 1], fqdn)
  }

  lemma {:induction false} GroupedAccounts(ports: seq<Port>, fqdn: string)
    requires Sorted(ports) && Separable(ports, fqdn)
    ensures Accounted(Grouped(ports, fqdn), ports, fqdn)
  {
    if ports == [] {
      StartAccounted(fqdn);
    } else {
      var n := |ports| - 1;
      assert ports == ports[..n] + [ports[n]];
      GroupedAccounts(ports[..n], fqdn);
      StepAccounts(Grouped(ports[..n], fqdn), ports[..n], ports[n], fqdn);
    }
  }

  lemma {:induction false} GroupedIsApart(ports: seq<Port>, fqdn: string)
    requires Sorted(ports) && Separable(ports, fqdn) && NoDuplicates(ports, fqdn)
    ensures WellKept(Grouped(ports, fqdn)) && Apart(Grouped(ports, fqdn))
  {
    if ports != [] {
      var n := |ports| - 1;
      var before, port := ports[..n], ports[n];
      var key := KeyOf(HostOf(port, fqdn), port.protocol);
      assert ports == before + [port];
      FewerDuplicates(ports, n, fqdn);
      GroupedIsApart(before, fqdn);
      GroupedAccounts(before, fqdn);
      SortedBelow(Grouped(before, fqdn), before, port, fqdn);
      if port.hostPort == port.containerPort && key in Grouped(before, fqdn).groups {
        BeyondTheEnd(Grouped(before, fqdn), before, port, fqdn, key);
      }
      StepApart(Grouped(before, fqdn), port, fqdn);
    }
  }

  lemma FewerDuplicates(ports: seq<Port>, n: nat, fqdn: string)
    requires n <= |ports| && NoDuplicates(ports, fqdn)
    ensures NoDuplicates(ports[..n], fqdn)
  {
    forall p | AsIs(p)
      ensures Occurs(ports[..n], fqdn, p) <= 1
    {
      OccursLess(ports, n, fqdn, p);
    }
  }

  lemma {:induction false} SortedStaySeparable(ports: seq<Port>, fqdn: string)
    requires Separable(ports, fqdn)
    ensures Separable(SortedPorts(ports), fqdn)
  {
    SortedPortsSorts(ports);
    forall p | p in SortedPorts(ports)
      ensures p in ports
    {
      assert p in multiset(SortedPorts(ports));
    }
  }

  /** The lines for the given ports, in any order of the ports. */
  function LinesOf(ports: seq<Port>, fqdn: string): seq<Line> {
    var g := Grouped(SortedPorts(ports), fqdn);
    g.result + OpenLines(g.keys, g.groups) + g.mappings
  }

  /** Every published port is shown exactly as often as it occurs: nothing is lost, added or moved to another host. */
  lemma EverythingIsShown(ports: seq<Port>, fqdn: string, p: Published)
    requires Separable(ports, fqdn)
    ensures Shown(LinesOf(ports, fqdn), p) == Occurs(ports, fqdn, p)
  {
    SortedPortsSorts(ports);
    SortedStaySeparable(ports, fqdn);
    GroupedAccounts(SortedPorts(ports), fqdn);
    AllLinesShow(Grouped(SortedPorts(ports), fqdn), p);
    SortingOccurs(ports, fqdn, p);
  }

  lemma SameDuplicates(ports: seq<Port>, fqdn: string)
    ensures NoDuplicates(SortedPorts(ports), fqdn) <==> NoDuplicates(ports, fqdn)
  {
    forall p
      ensures Occurs(SortedPorts(ports), fqdn, p) == Occurs(ports, fqdn, p)
    {
      SortingOccurs(ports, fqdn, p);
    }
  }

  /**
   * The ranges of each host and protocol increase and could not be drawn together any further exactly when no
   * port is published twice as it is.
   */
  lemma SeparatedIffNoDuplicates(ports: seq<Port>, fqdn: string)
    requires Separable(ports, fqdn)
    ensures Separated(LinesOf(ports, fqdn)) <==> NoDuplicates(ports, fqdn)
  {
    SortedPortsSorts(ports);
    SortedStaySeparable(ports, fqdn);
    SameDuplicates(ports, fqdn);
    if NoDuplicates(ports, fqdn) {
      GroupedIsApart(SortedPorts(ports), fqdn);
      LinesSeparated(Grouped(SortedPorts(ports), fqdn));
    }
    if Separated(LinesOf(ports, fqdn)) {
      SeparatedHasNone(ports, fqdn);
    }
  }

  lemma SeparatedHasNone(ports: seq<Port>, fqdn: string)
    requires Separable(ports, fqdn) && Separated(LinesOf(ports, fqdn))
    ensures NoDuplicates(ports, fqdn)
  {
    forall p | AsIs(p)
      ensures Occurs(ports, fqdn, p) <= 1
    {
      ShownAtMostOnce(ports, fqdn, p);
    }
  }

  lemma ShownAtMostOnce(ports: seq<Port>, fqdn: string, p: Published)
    requires Separable(ports, fqdn) && Separated(LinesOf(ports, fqdn)) && AsIs(p)
    ensures Occurs(ports, fqdn, p) <= 1
  {
    EverythingIsShown(ports, fqdn, p);
    var g := GroupingBehind(ports, fqdn);
    AtMostOnce(g, p);
  }

  lemma GroupingBehind(ports: seq<Port>, fqdn: string) returns (g: Grouping)
    requires Separable(ports, fqdn)
    ensures WellKept(g) && AllLines(g) == LinesOf(ports, fqdn)
  {
    SortedPortsSorts(ports);
    SortedStaySeparable(ports, fqdn);
    GroupedAccounts(SortedPorts(ports), fqdn);
    g := Grouped(SortedPorts(ports), fqdn);
  }

  lemma AtMostOnce(g: Grouping, p: Published)
    requires WellKept(g) && Separated(AllLines(g)) && AsIs(p)
    ensures Shown(AllLines(g), p) <= 1
  {
    AsIsAreRanges(g, p);
    SeparatedShowsOnce(AllLines(g), p);
  }

  lemma AsIsAreRanges(g: Grouping, p: Published)
    requires WellKept(g) && AsIs(p)
    ensures forall i :: 0 <= i < |AllLines(g)| && AllLines(g)[i].Mapping? ==> AllLines(g)[i].port != p
    ensures forall i :: 0 <= i < |AllLines(g)| && AllLines(g)[i].Range? ==> AllLines(g)[i].first <= AllLines(g)[i].last
  {
    var lines, n := AllLines(g), |g.result|;
    forall i | 0 <= i < |lines|
      ensures lines[i].Mapping? ==> lines[i].port != p
      ensures lines[i].Range? ==> lines[i].first <= lines[i].last
    {
      if i < n {
        assert lines[i] == g.result[i];
      } else if i < n + |g.keys| {
        assert lines[i] == FormGroup(g.keys[i - n], g.groups[g.keys[i - n]]);
      } else {
        assert lines[i] == g.mappings[i - n - |g.keys|];
      }
    }
  }

  lemma {:induction false} UpToSlashHasNone(s: string)
    ensures NoSlash(UpToSlash(s))
  {
    if s != "" && s[0] != '/' {
      UpToSlashHasNone(s[1..]);
    }
  }

  /** What is shown of a range has no slash in it, and what is mapped is not published as it is. */
  ghost predicate Slashless(lines: seq<Line>) {
    forall i :: 0 <= i < |lines| ==>
      match lines[i]
      case Range(host, protocol, _, _) => NoSlash(host) && NoSlash(protocol)
      case Mapping(port) => !AsIs(port)
  }

  lemma FormGroupIsSlashless(key: string, g: Group)
    ensures Slashless([FormGroup(key, g)])
  {
    UpToSlashHasNone(key);
    UpToSlashHasNone(AfterSlash(key));
  }

  /** Whatever the ports are, also ones whose hosts or protocols hold a slash. */
  lemma {:induction false} GroupedIsSlashless(ports: seq<Port>, fqdn: string)
    ensures Slashless(Grouped(ports, fqdn).result) && Slashless(Grouped(ports, fqdn).mappings)
  {
    if ports != [] {
      var n := |ports| - 1;
      var g, key := Grouped(ports[..n], fqdn), KeyOf(HostOf(ports[n], fqdn), ports[n].protocol);
      GroupedIsSlashless(ports[..n], fqdn);
      if key in g.groups {
        FormGroupIsSlashless(key, g.groups[key]);
        assert Slashless(g.result + [FormGroup(key, g.groups[key])]);
      }
    }
  }

  lemma LinesAreSlashless(ports: seq<Port>, fqdn: string)
    ensures Slashless(LinesOf(ports, fqdn))
  {
    var g := Grouped(SortedPorts(ports), fqdn);
    GroupedIsSlashless(SortedPorts(ports), fqdn);
    var open := OpenLines(g.keys, g.groups);
    forall i | 0 <= i < |open|
      ensures Slashless([open[i]])
    {
      FormGroupIsSlashless(g.keys[i], g.groups[g.keys[i]]);
    }
    assert forall i :: 0 <= i < |open| ==> [open[i]][0] == open[i];
  }

  lemma {:induction false} NeverShown(lines: seq<Line>, p: Published)
    requires Slashless(lines) && AsIs(p) && !(NoSlash(p.host) && NoSlash(p.protocol))
    ensures Shown(lines, p) == 0
  {
    if lines != [] {
      NeverShown(lines[..|lines| - 1], p);
    }
  }

  /**
   * Every published port is shown exactly as often as it occurs iff no port published as it is has a slash in
   * its host or protocol; such a port is not shown at all.
   */
  lemma ShownIffSeparable(ports: seq<Port>, fqdn: string)
    ensures (forall p :: Shown(LinesOf(ports, fqdn), p) == Occurs(ports, fqdn, p)) <==> Separable(ports, fqdn)
  {
    if Separable(ports, fqdn) {
      forall p
        ensures Shown(LinesOf(ports, fqdn), p) == Occurs(ports, fqdn, p)
      {
        EverythingIsShown(ports, fqdn, p);
      }
    } else {
      var i :| 0 <= i < |ports| && !ReadsWell(ports[i], fqdn);
      var p := PublishedBy(ports[i], fqdn);
      OccursAt(ports, fqdn, i);
      LinesAreSlashless(ports, fqdn);
      NeverShown(LinesOf(ports, fqdn), p);
      assert Shown(LinesOf(ports, fqdn), p) != Occurs(ports, fqdn, p);
    }
  }
}
