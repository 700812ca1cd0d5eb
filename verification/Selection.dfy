/** Restricting a project to the services named on the command line and everything they need. */
module Selection {
  import opened Wrappers
  import opened Sequences
  import opened Digraph
  import opened DependencyGraph

  /** `GetService`: the first service of that name. */
  function Lookup(services: seq<Service>, name: Name): Option<Service> {
    if services == [] then None
    else if services[0].name == name then Some(services[0])
    else Lookup(services[1..], name)
  }

  /** It is the first of that name. */
  lemma {:induction false} LookupFindsFirst(services: seq<Service>, name: Name, i: nat)
    requires i < |services| && services[i].name == name && forall j :: 0 <= j < i ==> services[j].name != name
    ensures Lookup(services, name) == Some(services[i])
  {
    if i > 0 {
      LookupFindsFirst(services[1..], name, i - 1);
    }
  }

  lemma {:induction false} LookupFinds(services: seq<Service>, name: Name)
    ensures Lookup(services, name).Some? <==> Named(services, name)
    ensures Lookup(services, name).Some? ==> Lookup(services, name).value in services && Lookup(services, name).value.name == name
  {
    if services != [] {
      LookupFinds(services[1..], name);
      if Named(services, name) && services[0].name != name {
        var i :| 0 <= i < |services| && services[i].name == name;
        assert services[1..][i - 1].name == name;
      }
      if Named(services[1..], name) {
        var i :| 0 <= i < |services[1..]| && services[1..][i].name == name;
        assert services[i + 1].name == name;
      }
    }
  }

  /** Each name of the chain is one the service before it depends on. */
  ghost predicate Chain(services: seq<Service>, p: seq<Name>) {
    |p| > 0 && forall i :: 0 <= i < |p| - 1 ==> Needs(services, p[i], p[i + 1])
  }

  predicate Needs(services: seq<Service>, v: Name, d: Name) {
    Lookup(services, v).Some? && d in Lookup(services, v).value.dependencies
  }

  /** `x` is requested, or needed by something requested, directly or not. */
  ghost predicate Wanted(services: seq<Service>, requested: seq<Name>, x: Name) {
    exists p :: Chain(services, p) && p[0] in requested && p[|p| - 1] == x
  }

  /** Everything that is wanted is a service of the project. */
  ghost predicate AllDefined(services: seq<Service>, requested: seq<Name>) {
    forall x :: Wanted(services, requested, x) ==> Named(services, x)
  }

  lemma RequestedIsWanted(services: seq<Service>, requested: seq<Name>, x: Name)
    requires x in requested
    ensures Wanted(services, requested, x)
  {
    assert Chain(services, [x]) && [x][0] in requested;
  }

  lemma WantedMore(services: seq<Service>, a: seq<Name>, b: seq<Name>, x: Name)
    ensures Wanted(services, a + b, x) <==> Wanted(services, a, x) || Wanted(services, b, x)
  {
    if p :| Chain(services, p) && p[0] in a + b && p[|p| - 1] == x {
      assert p[0] in a || p[0] in b;
    }
  }

  /** What one name asks for: itself, and what its service's dependencies ask for. */
  lemma WantedByOne(services: seq<Service>, name: Name, x: Name)
    ensures Wanted(services, [name], x) <==>
              x == name || (Lookup(services, name).Some? && Wanted(services, Lookup(services, name).value.dependencies, x))
  {
    if Wanted(services, [name], x) {
      var p :| Chain(services, p) && p[0] in [name] && p[|p| - 1] == x;
      ChainTail(services, p);
    }
    if x == name {
      RequestedIsWanted(services, [name], x);
    } else if Lookup(services, name).Some? && Wanted(services, Lookup(services, name).value.dependencies, x) {
      var p :| Chain(services, p) && p[0] in Lookup(services, name).value.dependencies && p[|p| - 1] == x;
      ChainCons(services, name, p);
    }
  }

  lemma ChainTail(services: seq<Service>, p: seq<Name>)
    requires Chain(services, p)
    ensures |p| == 1 || (Lookup(services, p[0]).Some? && Wanted(services, Lookup(services, p[0]).value.dependencies, p[|p| - 1]))
  {
    if |p| > 1 {
      var q := p[1..];
      assert Needs(services, p[0], p[1]);
      assert Chain(services, q) && q[0] in Lookup(services, p[0]).value.dependencies && q[|q| - 1] == p[|p| - 1];
    }
  }

  lemma ChainCons(services: seq<Service>, name: Name, p: seq<Name>)
    requires Chain(services, p) && Needs(services, name, p[0])
    ensures Wanted(services, [name], p[|p| - 1])
  {
    var q := [name] + p;
    forall i | 0 <= i < |q| - 1
      ensures Needs(services, q[i], q[i + 1])
    {
      assert i > 0 ==> Needs(services, p[i - 1], p[i]);
    }
    assert Chain(services, q) && q[0] in [name] && q[|q| - 1] == p[|p| - 1];
  }

  /** The map `addServiceNames` fills. */
  class NameSet {
    var names: set<Name>

    constructor ()
      ensures names == {}
    {
      names := {};
    }
  }

  /** The dependencies of a service come before it in the numbering. */
  lemma NeededIsBelow(services: seq<Service>, rank: map<Name, nat>, v: Name, d: Name)
    requires Ranks(Dependencies(services), rank) && Needs(services, v, d) && Named(services, d)
    ensures v in rank && d in rank && rank[d] < rank[v]
  {
    LookupFinds(services, v);
    var s := Lookup(services, v).value;
    var i :| 0 <= i < |services| && services[i] == s;
    assert DeclaredIn(services, v, d) && Depends(services, v, d);
    assert v in Dependencies(services) && d in Dependencies(services)[v];
  }

  /** A numbering of what is wanted, dependencies first. */
  ghost predicate RanksWanted(services: seq<Service>, requested: seq<Name>, rank: map<Name, nat>) {
    && (forall x :: Wanted(services, requested, x) && Named(services, x) ==> x in rank)
    && (forall x, d :: Wanted(services, requested, x) && Needs(services, x, d) && Named(services, d)
          ==> x in rank && d in rank && rank[d] < rank[x])
  }

  /** A numbering of a whole project without cycles is one of whatever is wanted. */
  lemma RanksOfAll(services: seq<Service>, requested: seq<Name>, rank: map<Name, nat>)
    requires Ranks(Dependencies(services), rank)
    ensures RanksWanted(services, requested, rank)
  {
    forall x | Wanted(services, requested, x) && Named(services, x)
      ensures x in rank
    {
      assert x in Dependencies(services);
    }
    forall x, d | Wanted(services, requested, x) && Needs(services, x, d) && Named(services, d)
      ensures x in rank && d in rank && rank[d] < rank[x]
    {
      NeededIsBelow(services, rank, x, d);
    }
  }

  lemma RanksFewer(services: seq<Service>, a: seq<Name>, b: seq<Name>, rank: map<Name, nat>)
    requires RanksWanted(services, a, rank) && forall x :: Wanted(services, b, x) ==> Wanted(services, a, x)
    ensures RanksWanted(services, b, rank)
  {
  }

  ghost predicate RanksBelow(services: seq<Service>, rank: map<Name, nat>, requested: seq<Name>, bound: nat) {
    forall name :: name in requested && Named(services, name) ==> name in rank && rank[name] < bound
  }

  /**
   * `addServiceNames`, for names that reach no dependency cycle: it collects exactly what is wanted, and fails
   * iff something wanted is not a service of the project.
   */
  method AddServiceNames(services: seq<Service>, requested: seq<Name>, names: NameSet, ghost rank: map<Name, nat>, ghost bound: nat)
    returns (ok: bool)
    requires RanksWanted(services, requested, rank) && RanksBelow(services, rank, requested, bound)
    modifies names
    ensures ok <==> AllDefined(services, requested)
    ensures ok ==> forall x :: x in names.names <==> x in old(names.names) || Wanted(services, requested, x)
    decreases bound
  {
    for i := 0 to |requested|
      invariant AllDefined(services, requested[..i])
      invariant forall x :: x in names.names <==> x in old(names.names) || Wanted(services, requested[..i], x)
    {
      OneMore(services, requested, i);
      RanksFewer(services, requested, [requested[i]], rank);
      ok := AddServiceName(services, requested[i], names, rank, bound);
      if !ok {
        return;
      }
    }
    assert requested[..|requested|] == requested;
    ok := true;
  }

  /** One pass of the loop: the name, its service and, in turn, the service's dependencies. */
  method AddServiceName(services: seq<Service>, name: Name, names: NameSet, ghost rank: map<Name, nat>, ghost bound: nat)
    returns (ok: bool)
    requires RanksWanted(services, [name], rank) && RanksBelow(services, rank, [name], bound)
    modifies names
    ensures ok <==> AllDefined(services, [name])
    ensures ok ==> forall x :: x in names.names <==> x in old(names.names) || Wanted(services, [name], x)
    decreases bound, 0
  {
    names.names := names.names + {name};
    var service := Lookup(services, name);
    LookupFinds(services, name);
    if service == None {
      RequestedIsWanted(services, [name], name);
      return false;
    }
    var dependencies := service.value.dependencies;
    forall x
      ensures Wanted(services, [name], x) <==> x == name || Wanted(services, dependencies, x)
    {
      WantedByOne(services, name, x);
    }
    RanksFewer(services, [name], dependencies, rank);
    assert forall d :: d in dependencies ==> Needs(services, name, d);
    assert name in [name];
    ok := AddServiceNames(services, dependencies, names, rank, rank[name]);
  }

  lemma OneMore(services: seq<Service>, requested: seq<Name>, i: nat)
    requires i < |requested|
    ensures forall x :: Wanted(services, requested[..i + 1], x) <==> Wanted(services, requested[..i], x) || Wanted(services, [requested[i]], x)
    ensures forall x :: Wanted(services, [requested[i]], x) ==> Wanted(services, requested, x)
  {
    forall x
      ensures Wanted(services, requested[..i + 1], x) <==> Wanted(services, requested[..i], x) || Wanted(services, [requested[i]], x)
      ensures Wanted(services, [requested[i]], x) ==> Wanted(services, requested, x)
    {
      assert requested[..i + 1] == requested[..i] + [requested[i]];
      WantedMore(services, requested[..i], [requested[i]], x);
      assert requested == requested[..i] + ([requested[i]] + requested[i + 1..]);
      WantedMore(services, requested[..i], [requested[i]] + requested[i + 1..], x);
      WantedMore(services, [requested[i]], requested[i + 1..], x);
    }
  }

  /** The services with these names, in order. */
  function Kept(services: seq<Service>, names: set<Name>): seq<Service> {
    if services == [] then []
    else
      var n := |services| - 1;
      var rest := Kept(services[..n], names);
      if services[n].name in names then rest + [services[n]] else rest
  }

  /** They are all there, once each and in the order of the project. */
  lemma {:induction false} KeptInOrder(services: seq<Service>, names: set<Name>) returns (at: seq<nat>)
    ensures PickedAt(Kept(services, names), services, at)
    ensures forall i: nat :: i in at <==> i < |services| && services[i].name in names
  {
    if services == [] {
      at := [];
    } else {
      var n := |services| - 1;
      at := KeptInOrder(services[..n], names);
      OneMorePicked(Kept(services[..n], names), services, at, n);
      if services[n].name in names {
        at := at + [n];
      }
    }
  }

  class Project {
    var services: seq<Service>

    constructor (services: seq<Service>)
      ensures this.services == services
    {
      this.services := services;
    }

    /**
     * `filter`: no names select everything; otherwise what is wanted stays, each service once and in its order,
     * and nothing changes if something wanted is not there. `at` are the places of what stays.
     */
    method Filter(requested: seq<Name>, ghost rank: map<Name, nat>) returns (ok: bool, ghost names: set<Name>, ghost at: seq<nat>)
      requires RanksWanted(services, requested, rank)
      modifies this
      ensures requested == [] ==> ok && services == old(services)
      ensures requested != [] ==> (ok <==> AllDefined(old(services), requested))
      ensures !ok ==> services == old(services)
      ensures ok && requested != [] ==> services == Kept(old(services), names)
      ensures ok && requested != [] ==> forall x :: x in names <==> Wanted(old(services), requested, x)
      ensures ok && requested != [] ==> PickedAt(services, old(services), at)
      ensures ok && requested != [] ==>
                forall i: nat :: i in at <==> i < |old(services)| && Wanted(old(services), requested, old(services)[i].name)
    {
      names, at := {}, [];
      if |requested| == 0 {
        return true, names, at;
      }
      var collected := new NameSet();
      ghost var bound := HighestRank(rank) + 1;
      assert RanksBelow(services, rank, requested, bound) by {
        forall name | name in requested && Named(services, name)
          ensures name in rank && rank[name] < bound
        {
          RequestedIsWanted(services, requested, name);
        }
      }
      ok := AddServiceNames(services, requested, collected, rank, bound);
      if !ok {
        return;
      }
      names := collected.names;
      var filtered := [];
      for i := 0 to |services|
        invariant filtered == Kept(services[..i], collected.names)
        invariant services == old(services) && collected.names == names
      {
        assert services[..i + 1][..i] == services[..i];
        if services[i].name in collected.names {
          filtered := filtered + [services[i]];
        }
      }
      assert services[..|services|] == services;
      at := KeptInOrder(services, names);
      services := filtered;
    }
  }

  lemma {:induction false} KeptMembers(services: seq<Service>, names: set<Name>, s: Service)
    ensures s in Kept(services, names) <==> s in services && s.name in names
  {
    if services != [] {
      var n := |services| - 1;
      KeptMembers(services[..n], names, s);
      assert services == services[..n] + [services[n]];
    }
  }

  ghost predicate UniqueNames(services: seq<Service>) {
    forall i, k :: 0 <= i < k < |services| ==> services[i].name != services[k].name
  }

  lemma WantedIsClosed(services: seq<Service>, requested: seq<Name>, v: Name, d: Name)
    requires Wanted(services, requested, v) && Needs(services, v, d)
    ensures Wanted(services, requested, d)
  {
    var p :| Chain(services, p) && p[0] in requested && p[|p| - 1] == v;
    var q := p + [d];
    forall i | 0 <= i < |q| - 1
      ensures Needs(services, q[i], q[i + 1])
    {
      assert i < |p| - 1 ==> Needs(services, p[i], p[i + 1]);
    }
    assert Chain(services, q) && q[0] in requested && q[|q| - 1] == d;
  }

  /** A project restricted without error still holds every service its services depend on. */
  lemma RestrictionIsClosed(services: seq<Service>, requested: seq<Name>, names: set<Name>, s: Service, d: Name)
    requires UniqueNames(services) && AllDefined(services, requested)
    requires forall x :: x in names <==> Wanted(services, requested, x)
    requires s in Kept(services, names) && d in s.dependencies
    ensures Named(Kept(services, names), d)
  {
    KeptMembers(services, names, s);
    var i :| 0 <= i < |services| && services[i] == s;
    LookupFinds(services, s.name);
    assert Named(services, s.name);
    var found := Lookup(services, s.name).value;
    var k :| 0 <= k < |services| && services[k] == found;
    assert found == s;
    WantedIsClosed(services, requested, s.name, d);
    LookupFinds(services, d);
    var t := Lookup(services, d).value;
    KeptMembers(services, names, t);
    var j :| 0 <= j < |Kept(services, names)| && Kept(services, names)[j] == t;
    assert Kept(services, names)[j].name == d;
  }
}
