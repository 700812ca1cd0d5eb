/** When references inside the template form a cycle. */
module EcsAcyclicity {
  import opened Wrappers
  import opened Digraph
  import DependencyGraph
  import opened EcsNames
  import opened EcsTemplate
  import opened EcsReferences
  import opened EcsClosedness
  import opened EcsOverwrites

  // ---------- cycles of the template ----------

  lemma EdgeFalls(p: Project, a: Account, k: string, name: string)
    requires Convertible(p, a) && SubnetsNamed(a) && k in References(TemplateOf(p, a)) && name in References(TemplateOf(p, a))[k]
    ensures Level(name) < Level(k) || (Level(name) == Level(k) == 6)
  {
    MentionSetIsMentions(TemplateOf(p, a)[k], name);
    ReferenceFacts(p, a, k, name);
    if s :| IsService(p, k, TemplateOf(p, a)[k], a, s) && name in ServiceNames(s.dependsOn) {
      ResourceLevels(s.name);
      DependencyLevel(s, name);
    }
  }

  lemma {:induction false} LevelsFall(p: Project, a: Account, q: seq<string>, i: nat)
    requires Convertible(p, a) && SubnetsNamed(a) && Walk(References(TemplateOf(p, a)), q) && i < |q|
    ensures Level(q[i]) <= Level(q[0])
    ensures Level(q[|q| - 1]) <= Level(q[i])
    decreases |q|, i
  {
    var r := References(TemplateOf(p, a));
    if i > 0 {
      LevelsFall(p, a, q, i - 1);
      EdgeFalls(p, a, q[i - 1], q[i]);
    }
    LevelsFallTo(p, a, q, i);
  }

  lemma {:induction false} LevelsFallTo(p: Project, a: Account, q: seq<string>, i: nat)
    requires Convertible(p, a) && SubnetsNamed(a) && Walk(References(TemplateOf(p, a)), q) && i < |q|
    ensures Level(q[|q| - 1]) <= Level(q[i])
    decreases |q| - i
  {
    if i < |q| - 1 {
      EdgeFalls(p, a, q[i], q[i + 1]);
      LevelsFallTo(p, a, q, i + 1);
    }
  }

  /** Everything on a cycle of the template is a service. */
  lemma CyclesAreOfServices(p: Project, a: Account, q: seq<string>, i: nat)
    requires Convertible(p, a) && SubnetsNamed(a) && Walk(References(TemplateOf(p, a)), q) && |q| >= 2 && q[0] == q[|q| - 1] && i < |q|
    ensures Level(q[i]) == 6 && q[i] in TemplateOf(p, a)
  {
    LevelsFall(p, a, q, i);
    LevelsFall(p, a, q, if i < |q| - 1 then i + 1 else i - 1);
    if i < |q| - 1 {
      EdgeFalls(p, a, q[i], q[i + 1]);
    } else {
      EdgeFalls(p, a, q[i - 1], q[i]);
    }
  }

  /** A cycle of the template is one of links. */
  lemma CycleIsOfLinks(p: Project, a: Account, q: seq<string>)
    requires Convertible(p, a) && SubnetsNamed(a) && Walk(References(TemplateOf(p, a)), q) && |q| >= 2 && q[0] == q[|q| - 1]
    ensures Walk(Links(p), q)
  {
    forall i | 0 <= i < |q|
      ensures Level(q[i]) == 6 && q[i] in Links(p)
    {
      CyclesAreOfServices(p, a, q, i);
      var s := OnlyServices(p, a, q[i]);
    }
    forall i | 0 <= i < |q| - 1
      ensures q[i + 1] in Links(p)[q[i]]
    {
      LinksAreReferences(p, a, q[i], q[i + 1]);
    }
  }

  lemma LinkedWalk(p: Project, a: Account, q: seq<string>)
    requires Convertible(p, a) && SubnetsNamed(a) && Walk(Links(p), q)
    ensures Walk(References(TemplateOf(p, a)), q)
  {
    LinksAreServices(p, q[0]);
    LinksAreReferences(p, a, q[0], q[0]);
    forall i | 0 <= i < |q| - 1
      ensures q[i] in References(TemplateOf(p, a)) && q[i + 1] in References(TemplateOf(p, a))[q[i]]
    {
      LinksAreServices(p, q[i]);
      LinksAreReferences(p, a, q[i], q[i + 1]);
    }
  }

  /**
   * References inside the template form a cycle iff the links do, by which the last service of each
   * normalised name depends on normalised names; whether names collide or dependencies exist does not matter.
   */
  lemma CyclicIffLinksAre(p: Project, a: Account)
    requires Convertible(p, a) && SubnetsNamed(a)
    ensures Cyclic(References(TemplateOf(p, a))) <==> Cyclic(Links(p))
  {
    if Cyclic(References(TemplateOf(p, a))) {
      var q :| Walk(References(TemplateOf(p, a)), q) && |q| >= 2 && q[0] == q[|q| - 1];
      CycleIsOfLinks(p, a, q);
    }
    if Cyclic(Links(p)) {
      var q :| Walk(Links(p), q) && |q| >= 2 && q[0] == q[|q| - 1];
      LinkedWalk(p, a, q);
    }
  }

  // ---------- names that do not collide ----------

  /** The project's services as the dependency graph sees them. */
  function DependsOn(p: Project): seq<DependencyGraph.Service> {
    seq(|p.services|, i requires 0 <= i < |p.services| => DependencyGraph.Service(p.services[i].name, p.services[i].dependsOn))
  }

  /** Every dependency is on a service of the project, as the loader of compose files checks. */
  predicate DependenciesDefined(p: Project) {
    forall s :: s in p.services ==> forall d :: d in s.dependsOn ==> DefinesService(p, d)
  }

  lemma DependsIs(p: Project, v: string, d: string)
    ensures DependencyGraph.Named(DependsOn(p), v) <==> DefinesService(p, v)
    ensures DependencyGraph.Depends(DependsOn(p), v, d) <==>
              DefinesService(p, d) && exists s :: s in p.services && s.name == v && d in s.dependsOn
  {
    var services := DependsOn(p);
    if DefinesService(p, v) {
      var s :| s in p.services && s.name == v;
      var i :| 0 <= i < |p.services| && p.services[i] == s;
      assert services[i].name == v;
    }
    if DefinesService(p, d) {
      var s :| s in p.services && s.name == d;
      var i :| 0 <= i < |p.services| && p.services[i] == s;
      assert services[i].name == d;
    }
    if s :| s in p.services && s.name == v && d in s.dependsOn {
      var i :| 0 <= i < |p.services| && p.services[i] == s;
      assert services[i].name == v && d in services[i].dependencies;
    }
    if DependencyGraph.DeclaredIn(services, v, d) {
      var i :| 0 <= i < |services| && services[i].name == v && d in services[i].dependencies;
      assert p.services[i] in p.services;
    }
  }

  /** Edges between services are named after edges between normalised names, and the other way round. */
  ghost predicate Corresponds(deps: Relation, r: Relation) {
    Carried(deps, r) && Reflected(deps, r) && Injective(deps)
  }

  ghost predicate Carried(deps: Relation, r: Relation) {
    forall v, d :: v in deps && d in deps[v] ==> d in deps && EdgeBetween(r, v, d)
  }

  predicate EdgeBetween(r: Relation, v: string, d: string) {
    ServiceName(v) in r && ServiceName(d) in r[ServiceName(v)]
  }

  ghost predicate Reflected(deps: Relation, r: Relation) {
    forall v, d :: v in deps && d in deps && EdgeBetween(r, v, d) ==> d in deps[v]
  }

  ghost predicate Injective(deps: Relation) {
    forall v, d :: v in deps && d in deps && ServiceName(v) == ServiceName(d) ==> v == d
  }

  ghost predicate NamesService(deps: Relation, k: string) {
    exists v :: v in deps && ServiceName(v) == k
  }

  /** A walk through services, by their own names. */
  lemma {:induction false} Unname(deps: Relation, r: Relation, q: seq<string>) returns (names: seq<string>)
    requires Corresponds(deps, r) && Walk(r, q) && forall i :: 0 <= i < |q| ==> NamesService(deps, q[i])
    ensures |names| == |q| && Walk(deps, names)
    ensures forall i :: 0 <= i < |q| ==> names[i] in deps && q[i] == ServiceName(names[i])
  {
    hide Carried;
    hide ServiceName;
    assert NamesService(deps, q[0]);
    var v :| v in deps && ServiceName(v) == q[0];
    if |q| == 1 {
      names := [v];
    } else {
      assert q[1] in r[q[0]] && NamesService(deps, q[1]);
      if q[1] in r {
        var rest := Unname(deps, r, q[1..]);
        WalkCons(deps, v, rest);
        names := [v] + rest;
      } else {
        assert |q| == 2;
        var d :| d in deps && ServiceName(d) == q[1];
        names := [v, d];
      }
    }
  }

  lemma WalkCons(r: Relation, v: string, q: seq<string>)
    requires v in r && Walk(r, q) && q[0] in r[v]
    ensures Walk(r, [v] + q)
  {
    var walk := [v] + q;
    forall i | 0 <= i < |walk| - 1
      ensures walk[i] in r && walk[i + 1] in r[walk[i]]
    {
      assert i > 0 ==> q[i - 1] in r && q[i] in r[q[i - 1]];
    }
  }

  lemma Rename(deps: Relation, r: Relation, names: seq<string>)
    requires Corresponds(deps, r) && Walk(deps, names) && |names| >= 2
    ensures Walk(r, ServiceNames(names))
  {
    var q := ServiceNames(names);
    assert names[1] in deps[names[0]] && EdgeBetween(r, names[0], names[1]);
    forall i | 0 <= i < |q| - 1
      ensures q[i] in r && q[i + 1] in r[q[i]]
    {
      assert names[i + 1] in deps[names[i]] && EdgeBetween(r, names[i], names[i + 1]);
    }
  }

  lemma CycleIsCarried(deps: Relation, r: Relation, names: seq<string>)
    requires Corresponds(deps, r) && Walk(deps, names) && |names| >= 2 && names[0] == names[|names| - 1]
    ensures Cyclic(r)
  {
    Rename(deps, r, names);
    var q := ServiceNames(names);
    assert |q| == |names| && q[0] == q[|q| - 1];
  }

  lemma CycleIsReflected(deps: Relation, r: Relation, q: seq<string>)
    requires Corresponds(deps, r) && Walk(r, q) && |q| >= 2 && q[0] == q[|q| - 1]
    requires forall i :: 0 <= i < |q| ==> NamesService(deps, q[i])
    ensures Cyclic(deps)
  {
    var names := Unname(deps, r, q);
    assert names[0] == names[|names| - 1];
  }

  lemma SameName(p: Project, v: string, d: string)
    requires DistinctServices(p) && DefinesService(p, v) && DefinesService(p, d) && ServiceName(v) == ServiceName(d)
    ensures v == d
  {
    var s :| s in p.services && s.name == v;
    var t :| t in p.services && t.name == d;
    SameService(p, s, t);
  }

  lemma CyclesCorrespond(deps: Relation, r: Relation)
    requires Corresponds(deps, r) && forall k :: k in r ==> NamesService(deps, k)
    ensures Cyclic(r) <==> Cyclic(deps)
  {
    if Cyclic(r) {
      var q :| Walk(r, q) && |q| >= 2 && q[0] == q[|q| - 1];
      forall i | 0 <= i < |q|
        ensures NamesService(deps, q[i])
      {
        assert q[i] in r;
      }
      CycleIsReflected(deps, r, q);
    }
    if Cyclic(deps) {
      var names :| Walk(deps, names) && |names| >= 2 && names[0] == names[|names| - 1];
      CycleIsCarried(deps, r, names);
    }
  }

  lemma DependencyFacts(p: Project, v: string, d: string)
    ensures v in DependencyGraph.Dependencies(DependsOn(p)) <==> DefinesService(p, v)
    ensures v in DependencyGraph.Dependencies(DependsOn(p)) ==>
              (d in DependencyGraph.Dependencies(DependsOn(p))[v] <==> DependencyGraph.Depends(DependsOn(p), v, d))
    ensures DependencyGraph.Depends(DependsOn(p), v, d) ==> DefinesService(p, d)
  {
    DependsIs(p, v, d);
  }

  /** With distinct names every service is the last of its own. */
  lemma OwnLinks(p: Project, s: ServiceConfig)
    requires DistinctServices(p) && s in p.services
    ensures ServiceName(s.name) in Links(p) && Links(p)[ServiceName(s.name)] == set d | d in s.dependsOn :: ServiceName(d)
  {
    LastOfFacts(p.services, ServiceName(s.name));
    SameService(p, s, LastOf(p.services, ServiceName(s.name)).value);
  }

  lemma CarriedEdge(p: Project, v: string, d: string)
    requires DistinctServices(p) && DependencyGraph.Depends(DependsOn(p), v, d)
    ensures EdgeBetween(Links(p), v, d)
  {
    DependsIs(p, v, d);
    var s :| s in p.services && s.name == v && d in s.dependsOn;
    OwnLinks(p, s);
  }

  lemma ReflectedEdge(p: Project, v: string, d: string)
    requires DistinctServices(p) && DependenciesDefined(p) && DefinesService(p, v) && DefinesService(p, d)
    requires EdgeBetween(Links(p), v, d)
    ensures DependencyGraph.Depends(DependsOn(p), v, d)
  {
    var s :| s in p.services && s.name == v;
    OwnLinks(p, s);
    var e :| e in s.dependsOn && ServiceName(e) == ServiceName(d);
    SameName(p, e, d);
    DependsIs(p, v, d);
  }

  lemma ProjectCorresponds(p: Project)
    requires DistinctServices(p) && DependenciesDefined(p)
    ensures Corresponds(DependencyGraph.Dependencies(DependsOn(p)), Links(p))
  {
    var deps := DependencyGraph.Dependencies(DependsOn(p));
    forall v, d | v in deps && d in deps[v]
      ensures d in deps && EdgeBetween(Links(p), v, d)
    {
      DependencyFacts(p, v, d);
      DependencyFacts(p, d, d);
      CarriedEdge(p, v, d);
    }
    forall v, d | v in deps && d in deps && EdgeBetween(Links(p), v, d)
      ensures d in deps[v]
    {
      DependencyFacts(p, v, d);
      DependencyFacts(p, d, d);
      ReflectedEdge(p, v, d);
    }
    IsInjective(p);
  }

  lemma IsInjective(p: Project)
    requires DistinctServices(p)
    ensures Injective(DependencyGraph.Dependencies(DependsOn(p)))
  {
    var deps := DependencyGraph.Dependencies(DependsOn(p));
    forall v, d | v in deps && d in deps && ServiceName(v) == ServiceName(d)
      ensures v == d
    {
      DependencyFacts(p, v, d);
      DependencyFacts(p, d, d);
      SameName(p, v, d);
    }
  }

  lemma LinkNamesService(p: Project, k: string)
    requires k in Links(p)
    ensures NamesService(DependencyGraph.Dependencies(DependsOn(p)), k)
  {
    var s :| s in p.services && ServiceName(s.name) == k;
    DependencyFacts(p, s.name, s.name);
  }

  /** With distinct normalised names, the links are cyclic iff the project's dependencies are. */
  lemma LinksAreDependencies(p: Project)
    requires DistinctServices(p) && DependenciesDefined(p)
    ensures Cyclic(Links(p)) <==> Cyclic(DependencyGraph.Dependencies(DependsOn(p)))
  {
    ProjectCorresponds(p);
    forall k | k in Links(p)
      ensures NamesService(DependencyGraph.Dependencies(DependsOn(p)), k)
    {
      LinkNamesService(p, k);
    }
    CyclesCorrespond(DependencyGraph.Dependencies(DependsOn(p)), Links(p));
  }

  /** With distinct normalised names, the template's references are acyclic iff the project's dependencies are. */
  lemma AcyclicIff(p: Project, a: Account)
    requires Convertible(p, a) && SubnetsNamed(a) && DistinctServices(p) && DependenciesDefined(p)
    ensures Cyclic(References(TemplateOf(p, a))) <==> Cyclic(DependencyGraph.Dependencies(DependsOn(p)))
  {
    CyclicIffLinksAre(p, a);
    LinksAreDependencies(p);
  }

  // ---------- names that collide ----------

  /**
   * Two services whose names normalise to the same share one resource. If the last one depends on the other,
   * that resource depends on itself, however acyclic the project's dependencies are.
   */
  lemma CollidingNamesMakeACycle(p: Project, a: Account, s: ServiceConfig, d: string)
    requires Convertible(p, a) && SubnetsNamed(a) && LastOf(p.services, ServiceName(s.name)) == Some(s)
    requires d in s.dependsOn && ServiceName(d) == ServiceName(s.name)
    ensures Cyclic(References(TemplateOf(p, a)))
  {
    LastOfFacts(p.services, ServiceName(s.name));
    SelfLink(Links(p), ServiceName(s.name));
    CyclicIffLinksAre(p, a);
  }

  lemma SelfLink(r: Relation, k: string)
    requires k in r && k in r[k]
    ensures Cyclic(r)
  {
    assert Walk(r, [k, k]);
  }
}
