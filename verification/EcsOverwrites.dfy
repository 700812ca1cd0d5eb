/** Services whose names normalise alike write the same resource: the last one's stays. */
module EcsOverwrites {
  import opened Wrappers
  import opened Digraph
  import opened EcsNames
  import opened EcsTemplate
  import opened EcsReferences
  import opened EcsClosedness

  /** The last of these services that writes the resource `k`. */
  function LastOf(services: seq<ServiceConfig>, k: string): Option<ServiceConfig> {
    if services == [] then None
    else
      var n := |services| - 1;
      if ServiceName(services[n].name) == k then Some(services[n]) else LastOf(services[..n], k)
  }

  lemma {:induction false} LastOfFacts(services: seq<ServiceConfig>, k: string)
    ensures LastOf(services, k).Some? <==> exists s :: s in services && ServiceName(s.name) == k
    ensures LastOf(services, k).Some? ==> LastOf(services, k).value in services && ServiceName(LastOf(services, k).value.name) == k
  {
    if services != [] {
      var n := |services| - 1;
      LastOfFacts(services[..n], k);
      assert services == services[..n] + [services[n]];
    }
  }

  lemma {:induction false} NotWrittenAfter(before: seq<Write>, after: seq<Write>, k: string)
    requires forall w :: w in after ==> w.name != k
    ensures k in Built(before + after) <==> k in Built(before)
    ensures k in Built(before) ==> Built(before + after)[k] == Built(before)[k]
    decreases |after|
  {
    if after == [] {
      assert before + after == before;
    } else {
      var n := |after| - 1;
      assert (before + after)[..|before + after| - 1] == before + after[..n];
      NotWrittenAfter(before, after[..n], k);
    }
  }

  lemma LastWriteStays(before: seq<Write>, w: Write, after: seq<Write>)
    requires forall x :: x in after ==> x.name != w.name
    ensures w.name in Built(before + [w] + after) && Built(before + [w] + after)[w.name] == w.resource
  {
    BuiltSnoc(before, w);
    NotWrittenAfter(before + [w], after, w.name);
  }

  // ---------- which names a service writes ----------

  lemma PortNames(p: Project, a: Account, s: ServiceConfig, w: Write)
    requires w in PortsWrites(p, a, s)
    ensures Level(w.name) != 6
  {
    InPorts(p, a, s, w);
    var i :| 0 <= i < |s.ports| && w in PortWrites(p, a, s, s.ports[i]);
    var port := s.ports[i];
    PortLevels(s.name, port.protocol, port.published);
    PortLevels(s.name, port.protocol, port.target);
    if w in IngressWrites(p, a, s.networks, port) {
      InIngresses(p, a, s.networks, port, w);
      var n :| 0 <= n < |s.networks| && w == IngressWrite(p, a, s.networks[n], port);
      PortLevels(s.networks[n], port.protocol, port.target);
    }
  }

  /** A service writes one name at the level of services: its own. */
  lemma ServiceNamesWritten(p: Project, a: Account, s: ServiceConfig, w: Write)
    requires w in ServiceWrites(p, a, s)
    ensures Level(w.name) == 6 ==> w == Write(ServiceName(s.name), ServiceResource(p, a, s))
  {
    ServiceWriteCases(p, a, s, w);
    ResourceLevels(s.name);
    if w in PortsWrites(p, a, s) {
      PortNames(p, a, s, w);
    }
  }

  lemma ScalingNames(a: Account, s: ServiceConfig, w: Write)
    requires w in ScalingWrites(a, s)
    ensures Level(w.name) != 6
  {
    ScalingLevels(s.name);
  }

  lemma CapacityNames(p: Project, a: Account, w: Write)
    requires w in CapacityWrites(p, a)
    ensures Level(w.name) != 6
  {
    ConstantLevels();
  }

  // ---------- the last service of a name ----------

  /** What one service adds to what has been written. */
  lemma OneServiceWrites(p: Project, a: Account, before: seq<Write>, s: ServiceConfig, k: string)
    requires Level(k) == 6
    ensures var t := Built(before + (ServiceWrites(p, a, s) + ScalingWrites(a, s)));
      if ServiceName(s.name) == k then k in t && t[k] == ServiceResource(p, a, s)
      else (k in t <==> k in Built(before)) && (k in t ==> t[k] == Built(before)[k])
  {
    var writes, scaling := ServiceWrites(p, a, s), ScalingWrites(a, s);
    forall w | w in scaling
      ensures w.name != k
    {
      ScalingNames(a, s, w);
    }
    if ServiceName(s.name) == k {
      var own := AllButLast(writes, Write(k, ServiceResource(p, a, s)));
      assert before + (writes + scaling) == before + own + [Write(k, ServiceResource(p, a, s))] + scaling;
      LastWriteStays(before + own, Write(k, ServiceResource(p, a, s)), scaling);
    } else {
      forall w | w in writes
        ensures w.name != k
      {
        ServiceNamesWritten(p, a, s, w);
      }
      NotWrittenAfter(before, writes + scaling, k);
    }
  }

  lemma AllButLast(writes: seq<Write>, w: Write) returns (own: seq<Write>)
    requires |writes| > 0 && writes[|writes| - 1] == w
    ensures writes == own + [w]
  {
    own := writes[..|writes| - 1];
  }

  /** What the first `n` services leave of a resource of this name. */
  lemma {:induction false} FirstServicesLeave(p: Project, a: Account, start: seq<Write>, n: nat, k: string)
    requires Level(k) == 6 && n <= |p.services| && LastOf(p.services[..n], k).Some?
    ensures var t := Built(start + Joined(ServicePieces(p, a)[..n]));
      k in t && t[k] == ServiceResource(p, a, LastOf(p.services[..n], k).value)
  {
    var s := p.services[n - 1];
    assert p.services[..n][..n - 1] == p.services[..n - 1];
    JoinedNext(start, ServicePieces(p, a), n - 1);
    PieceOf(p, a, n - 1);
    OneServiceWrites(p, a, start + Joined(ServicePieces(p, a)[..n - 1]), s, k);
    NextWrites(start + Joined(ServicePieces(p, a)[..n - 1]), ServiceWrites(p, a, s), ScalingWrites(a, s));
    if ServiceName(s.name) != k {
      FirstServicesLeave(p, a, start, n - 1, k);
    }
  }

  lemma PieceOf(p: Project, a: Account, i: nat)
    requires i < |p.services|
    ensures ServicePieces(p, a)[i] == ServiceWrites(p, a, p.services[i]) + ScalingWrites(a, p.services[i])
  {
  }

  lemma NextWrites(before: seq<Write>, x: seq<Write>, y: seq<Write>)
    ensures before + x + y == before + (x + y)
  {
  }

  /** The template holds, under the name of a service's resource, that of the last service of this name. */
  lemma LastServiceStays(p: Project, a: Account, k: string)
    requires LastOf(p.services, k).Some?
    ensures k in TemplateOf(p, a) && TemplateOf(p, a)[k] == ServiceResource(p, a, LastOf(p.services, k).value)
  {
    LastOfFacts(p.services, k);
    ResourceLevels(LastOf(p.services, k).value.name);
    var start, n := EnsuredWrites(p, a) + SharedWrites(p, a), |p.services|;
    assert p.services[..n] == p.services && ServicePieces(p, a)[..n] == ServicePieces(p, a);
    FirstServicesLeave(p, a, start, n, k);
    forall w | w in CapacityWrites(p, a)
      ensures w.name != k
    {
      CapacityNames(p, a, w);
    }
    NotWrittenAfter(start + AllServiceWrites(p, a), CapacityWrites(p, a), k);
  }

  // ---------- what these resources depend on ----------

  /** For the resource of every service, the names by which the last service of its name refers to its dependencies. */
  function Links(p: Project): (r: Relation)
    ensures forall k :: k in r <==> exists s :: s in p.services && ServiceName(s.name) == k
  {
    map k | k in ServiceKeys(p) :: LinksOf(LastOf(p.services, k))
  }

  function ServiceKeys(p: Project): (keys: set<string>)
    ensures forall k :: k in keys <==> exists s :: s in p.services && ServiceName(s.name) == k
  {
    set s | s in p.services :: ServiceName(s.name)
  }

  function LinksOf(last: Option<ServiceConfig>): set<string> {
    if last.None? then {} else set d | d in last.value.dependsOn :: ServiceName(d)
  }

  lemma InServiceNames(names: seq<string>, x: string)
    ensures x in ServiceNames(names) <==> exists d :: d in names && ServiceName(d) == x
  {
    if x in ServiceNames(names) {
      var i :| 0 <= i < |names| && ServiceNames(names)[i] == x;
      assert names[i] in names;
    }
    if d :| d in names && ServiceName(d) == x {
      var i :| 0 <= i < |names| && names[i] == d;
      assert ServiceNames(names)[i] == x;
    }
  }

  lemma {:induction false} MountTargetNames(a: Account, volumes: seq<string>, x: string)
    requires SubnetsNamed(a) && x in AllMountTargets(a, volumes)
    ensures Level(x) == 1
  {
    var n := |volumes| - 1;
    if x in AllMountTargets(a, volumes[..n]) {
      MountTargetNames(a, volumes[..n], x);
    } else {
      var i :| 0 <= i < |a.subnets| && MountTargets(a, volumes[n])[i] == x;
      assert a.subnets[i] in a.subnets;
      MountTargetLevel(volumes[n], a.subnets[i]);
    }
  }

  lemma ListenerNames(s: ServiceConfig, x: string)
    requires x in Listeners(s)
    ensures Level(x) == 2
  {
    var i :| 0 <= i < |s.ports| && Listeners(s)[i] == x;
    PortLevels(s.name, s.ports[i].protocol, s.ports[i].target);
  }

  /** What a service's resource waits for at the level of services are its dependencies. */
  lemma ServiceDependsOn(p: Project, a: Account, s: ServiceConfig, x: string)
    requires SubnetsNamed(a) && Level(x) == 6
    ensures x in ServiceResource(p, a, s).dependsOn <==> x in ServiceNames(s.dependsOn)
  {
    if x in Listeners(s) {
      ListenerNames(s, x);
    }
    if x in AllMountTargets(a, s.volumes) {
      MountTargetNames(a, s.volumes, x);
    }
  }

  lemma DependencyLevel(s: ServiceConfig, x: string)
    requires x in ServiceNames(s.dependsOn)
    ensures Level(x) == 6
  {
    InServiceNames(s.dependsOn, x);
    var d :| d in s.dependsOn && ServiceName(d) == x;
    ResourceLevels(d);
  }

  /** Between resources of services the template mentions the links and nothing else. */
  lemma LinksAreMentions(p: Project, a: Account, k: string, x: string)
    requires Convertible(p, a) && SubnetsNamed(a) && k in Links(p) && Level(x) == 6
    ensures k in TemplateOf(p, a)
    ensures Mentions(TemplateOf(p, a)[k], x) <==> x in Links(p)[k]
  {
    LastOfFacts(p.services, k);
    LastServiceStays(p, a, k);
    var s := LastOf(p.services, k).value;
    InServiceNames(s.dependsOn, x);
    ServiceDependsOn(p, a, s, x);
    ResourceLevels(s.name);
    if Mentions(TemplateOf(p, a)[k], x) {
      ReferenceFacts(p, a, k, x);
      var u :| IsService(p, k, TemplateOf(p, a)[k], a, u) && x in ServiceNames(u.dependsOn);
      ServiceDependsOn(p, a, u, x);
    }
  }

  lemma LinksAreReferences(p: Project, a: Account, k: string, x: string)
    requires Convertible(p, a) && SubnetsNamed(a) && k in Links(p) && Level(x) == 6
    ensures k in References(TemplateOf(p, a))
    ensures x in References(TemplateOf(p, a))[k] <==> x in Links(p)[k]
  {
    LinksAreMentions(p, a, k, x);
    MentionSetIsMentions(TemplateOf(p, a)[k], x);
  }

  lemma LinksAreServices(p: Project, k: string)
    requires k in Links(p)
    ensures Level(k) == 6
    ensures forall x :: x in Links(p)[k] ==> Level(x) == 6
  {
    LastOfFacts(p.services, k);
    var s := LastOf(p.services, k).value;
    ResourceLevels(s.name);
    forall d | d in s.dependsOn
      ensures Level(ServiceName(d)) == 6
    {
      ResourceLevels(d);
    }
  }

  // ---------- closedness for all names ----------

  /** Every dependency of a service that is not overwritten names the resource of some service. */
  ghost predicate LinksResolve(p: Project) {
    forall k, x :: k in Links(p) && x in Links(p)[k] ==> x in Links(p)
  }

  /** Every reference of the template is to a resource of the template iff the links resolve. */
  lemma ClosedIffLinksResolve(p: Project, a: Account)
    requires Convertible(p, a) && SubnetsNamed(a)
    ensures ClosedTemplate(TemplateOf(p, a)) <==> LinksResolve(p)
  {
    var t := TemplateOf(p, a);
    if LinksResolve(p) {
      forall k, x | k in t && Mentions(t[k], x)
        ensures x in t
      {
        MentionResolves(p, a, k, x);
      }
    }
    if ClosedTemplate(t) {
      forall k, x | k in Links(p) && x in Links(p)[k]
        ensures x in Links(p)
      {
        LinksAreServices(p, k);
        LinksAreMentions(p, a, k, x);
        var s := OnlyServices(p, a, x);
      }
    }
  }

  lemma MentionResolves(p: Project, a: Account, k: string, x: string)
    requires Convertible(p, a) && SubnetsNamed(a) && LinksResolve(p) && k in TemplateOf(p, a) && Mentions(TemplateOf(p, a)[k], x)
    ensures x in TemplateOf(p, a)
  {
    ReferenceFacts(p, a, k, x);
    forall s | IsService(p, k, TemplateOf(p, a)[k], a, s) && x in ServiceNames(s.dependsOn)
      ensures x in TemplateOf(p, a)
    {
      LinkIsThere(p, a, s, x);
    }
  }

  lemma LinkIsThere(p: Project, a: Account, s: ServiceConfig, x: string)
    requires Convertible(p, a) && SubnetsNamed(a) && LinksResolve(p) && s in p.services && x in ServiceNames(s.dependsOn)
    requires ServiceName(s.name) in TemplateOf(p, a) && Mentions(TemplateOf(p, a)[ServiceName(s.name)], x)
    ensures x in TemplateOf(p, a)
  {
    DependencyLevel(s, x);
    LinksAreMentions(p, a, ServiceName(s.name), x);
    LinkedIsWritten(p, a, x);
  }

  lemma LinkedIsWritten(p: Project, a: Account, x: string)
    requires x in Links(p)
    ensures x in TemplateOf(p, a)
  {
    LastOfFacts(p.services, x);
    LastServiceStays(p, a, x);
  }
}
