/** The two-way dependency graph of a project and its cycle check. */
module DependencyGraph {
  import opened Wrappers
  import opened Digraph

  datatype ServiceStatus = Stopped | Started

  /** A project's service; `dependencies` is the list its GetDependencies returns. */
  datatype Service = Service(name: Name, dependencies: seq<Name>)

  ghost predicate Named(services: seq<Service>, v: Name) {
    exists i :: 0 <= i < |services| && services[i].name == v
  }

  /** `v` depends on `d`, and `d` is itself a service of the project. */
  ghost predicate Depends(services: seq<Service>, v: Name, d: Name) {
    Named(services, d) && DeclaredIn(services, v, d)
  }

  ghost predicate DeclaredIn(services: seq<Service>, v: Name, d: Name) {
    exists i :: 0 <= i < |services| && services[i].name == v && d in services[i].dependencies
  }

  ghost function Names(services: seq<Service>): (names: set<Name>)
    ensures forall v :: v in names <==> Named(services, v)
  {
    set i | 0 <= i < |services| :: services[i].name
  }

  /** For each service, the services it depends on. */
  ghost function Dependencies(services: seq<Service>): Relation {
    map v | v in Names(services) :: set d | d in Names(services) && Depends(services, v, d)
  }

  /** For each service, the services that depend on it. */
  ghost function Dependents(services: seq<Service>): Relation {
    map v | v in Names(services) :: set u | u in Names(services) && Depends(services, u, v)
  }

  /** A vertex; its Children and Parents maps are kept as the sets of vertices they point to. */
  class Vertex {
    const key: Name
    var status: ServiceStatus
    var children: set<Vertex>
    var parents: set<Vertex>

    constructor (key: Name, initialStatus: ServiceStatus)
      ensures this.key == key && status == initialStatus
      ensures children == {} && parents == {}
    {
      this.key := key;
      this.status := initialStatus;
      this.children := {};
      this.parents := {};
    }
  }

  /** The names under which the vertices of a set are stored. */
  function Keys(vs: set<Vertex>): (names: set<Name>) {
    set v | v in vs :: v.key
  }

  lemma NoKeys(vs: set<Vertex>)
    ensures Keys(vs) == {} <==> vs == {}
  {
    if vs != {} {
      var v :| v in vs;
      assert v.key in Keys(vs);
    }
  }

  class Graph {
    var vertices: map<Name, Vertex>

    /** Vertices are stored under their own key, and Children and Parents are exact inverses. */
    ghost predicate Valid()
      reads this, vertices.Values
    {
      && (forall k :: k in vertices ==> vertices[k].key == k)
      && (forall v :: v in vertices.Values ==> v.children <= vertices.Values && v.parents <= vertices.Values)
      && (forall v, u :: v in vertices.Values && u in vertices.Values ==> (u in v.children <==> v in u.parents))
    }

    function Children(): (r: Relation)
      reads this, vertices.Values
    {
      map k | k in vertices :: Keys(vertices[k].children)
    }

    function Parents(): (r: Relation)
      reads this, vertices.Values
    {
      map k | k in vertices :: Keys(vertices[k].parents)
    }

    function Status(): (s: map<Name, ServiceStatus>)
      reads this, vertices.Values
    {
      map k | k in vertices :: vertices[k].status
    }

    lemma ChildrenAndParentsAreInverse()
      requires Valid()
      ensures Inverse(Children(), Parents())
      ensures forall u, v :: u in vertices && v in vertices ==>
                (v in Children()[u] <==> vertices[v] in vertices[u].children)
    {
      forall u, v | u in vertices && v in vertices
        ensures v in Children()[u] <==> vertices[v] in vertices[u].children
        ensures u in Parents()[v] <==> vertices[u] in vertices[v].parents
      {
        assert v in Children()[u] ==> exists w :: w in vertices[u].children && w.key == v;
        assert u in Parents()[v] ==> exists w :: w in vertices[v].parents && w.key == u;
      }
    }

    lemma ChildrenAreClosed()
      requires Valid()
      ensures Closed(Children())
    {
      ChildrenAndParentsAreInverse();
    }

    /** The graph of `services`, with every vertex still at its initial status. */
    ghost predicate Represents(services: seq<Service>, initialStatus: ServiceStatus)
      reads this, vertices.Values
    {
      && (forall v :: v in vertices <==> Named(services, v))
      && (forall v :: v in vertices.Values ==> v.status == initialStatus)
      && (forall v, d :: v in vertices && d in vertices ==>
            (vertices[d] in vertices[v].children <==> DeclaredIn(services, v, d)))
    }

    lemma GraphOfProject(services: seq<Service>, initialStatus: ServiceStatus)
      requires Valid() && Represents(services, initialStatus)
      ensures Children() == Dependencies(services) && Parents() == Dependents(services)
      ensures Status() == map v | v in Dependencies(services) :: initialStatus
    {
      forall v | v in vertices
        ensures Children()[v] == Dependencies(services)[v] && Parents()[v] == Dependents(services)[v]
      {
        LinksOfVertex(services, initialStatus, v);
      }
    }

    lemma LinksOfVertex(services: seq<Service>, initialStatus: ServiceStatus, v: Name)
      requires Valid() && Represents(services, initialStatus) && v in vertices
      ensures Keys(vertices[v].children) == set d | d in Names(services) && Depends(services, v, d)
      ensures Keys(vertices[v].parents) == set u | u in Names(services) && Depends(services, u, v)
    {
      forall d
        ensures d in Keys(vertices[v].children) <==> d in vertices && vertices[d] in vertices[v].children
        ensures d in Keys(vertices[v].parents) <==> d in vertices && vertices[d] in vertices[v].parents
      {
      }
    }

    constructor NewGraph(services: seq<Service>, initialStatus: ServiceStatus)
      ensures Valid() && fresh(vertices.Values) && Represents(services, initialStatus)
    {
      vertices := map[];
      new;
      AddVertices(services, initialStatus);
      AddAllEdges(services, initialStatus);
    }

    method AddVertices(services: seq<Service>, initialStatus: ServiceStatus)
      requires Valid() && vertices == map[]
      modifies this
      ensures Valid() && fresh(vertices.Values)
      ensures forall v :: v in vertices <==> Named(services, v)
      ensures forall v :: v in vertices.Values ==> v.children == {} && v.parents == {} && v.status == initialStatus
    {
      for i := 0 to |services|
        invariant Valid() && fresh(vertices.Values)
        invariant forall v :: v in vertices <==> Named(services[..i], v)
        invariant forall v :: v in vertices.Values ==>
                    v.children == {} && v.parents == {} && v.status == initialStatus
      {
        AddVertex(services[i].name, initialStatus);
        assert fresh(vertices.Values);
        assert services[..i + 1] == services[..i] + [services[i]];
      }
      assert services[..|services|] == services;
    }

    method AddAllEdges(services: seq<Service>, ghost initialStatus: ServiceStatus)
      requires Valid() && forall i :: 0 <= i < |services| ==> services[i].name in vertices
      requires forall v :: v in vertices.Values ==> v.children == {} && v.status == initialStatus
      modifies vertices.Values
      ensures Valid() && vertices == old(vertices)
      ensures forall v :: v in vertices.Values ==> v.status == initialStatus
      ensures forall v, d :: v in vertices && d in vertices ==>
                (vertices[d] in vertices[v].children <==> DeclaredIn(services, v, d))
    {
      for i := 0 to |services|
        invariant Valid() && vertices == old(vertices)
        invariant forall v :: v in vertices.Values ==> v.status == initialStatus
        invariant forall v, d :: v in vertices && d in vertices ==>
                    (vertices[d] in vertices[v].children <==> DeclaredIn(services[..i], v, d))
      {
        AddEdges(services[i]);
        assert services[..i + 1] == services[..i] + [services[i]];
      }
      assert services[..|services|] == services;
    }

    /** The vertex under this key has no neighbour but perhaps itself. */
    predicate Unconnected(key: Name)
      requires key in vertices
      reads this, vertices[key]
    {
      vertices[key].children <= {vertices[key]} && vertices[key].parents <= {vertices[key]}
    }

    /** A new vertex, which takes the place of an earlier one of the same name; that one's neighbours are left as they are. */
    method AddVertex(key: Name, initialStatus: ServiceStatus)
      requires Valid()
      modifies this
      ensures key in vertices && vertices == old(vertices)[key := vertices[key]]
      ensures vertices.Values <= old(vertices).Values + {vertices[key]}
      ensures fresh(vertices[key]) && vertices[key].key == key && vertices[key].status == initialStatus
      ensures vertices[key].children == {} && vertices[key].parents == {}
      ensures Valid() <==> key !in old(vertices) || old(Unconnected(key))
    {
      var v := new Vertex(key, initialStatus);
      vertices := vertices[key := v];
      ReplacedVertex(old(vertices), key, v);
      if key in old(vertices) && Valid() {
        var gone := old(vertices)[key];
        forall u | u in gone.children + gone.parents
          ensures u == gone
        {
          assert u in old(vertices).Values;
          assert gone !in vertices.Values;
        }
      }
    }

    /** A vertex is in the map under its own key only. */
    lemma ReplacedVertex(before: map<Name, Vertex>, key: Name, v: Vertex)
      requires v !in before.Values && vertices == before[key := v] && v.key == key
      requires forall k :: k in before ==> before[k].key == k
      ensures vertices.Values == before.Values - (if key in before then {before[key]} else {}) + {v}
    {
      forall u | u in before.Values && (key in before ==> u != before[key])
        ensures u in vertices.Values
      {
        var k :| k in before && before[k] == u;
        assert k in vertices && vertices[k] == u;
      }
      assert key in vertices && vertices[key] == v;
      forall u | u in vertices.Values
        ensures u == v || (u in before.Values && (key in before ==> u != before[key]))
      {
        var k :| k in vertices && vertices[k] == u;
      }
    }

    /** The edges of one service: one to each of its dependencies that is a vertex. */
    method AddEdges(s: Service)
      requires Valid() && s.name in vertices
      modifies vertices.Values
      ensures Valid() && vertices == old(vertices)
      ensures forall v :: v in vertices.Values ==> v.status == old(v.status)
      ensures forall v, d :: v in vertices && d in vertices ==>
                (vertices[d] in vertices[v].children <==>
                 vertices[d] in old(vertices[v].children) || (v == s.name && d in s.dependencies))
    {
      for j := 0 to |s.dependencies|
        invariant Valid() && vertices == old(vertices)
        invariant forall v :: v in vertices.Values ==> v.status == old(v.status)
        invariant forall v, d :: v in vertices && d in vertices ==>
                    (vertices[d] in vertices[v].children <==>
                     vertices[d] in old(vertices[v].children) || (v == s.name && d in s.dependencies[..j]))
      {
        var _ := AddEdge(s.name, s.dependencies[j]);
      }
      assert s.dependencies[..|s.dependencies|] == s.dependencies;
    }

    /** Adds one edge to both sides, or changes nothing and reports that an end is missing. */
    method AddEdge(source: Name, destination: Name) returns (ok: bool)
      requires Valid()
      modifies vertices.Values
      ensures Valid() && vertices == old(vertices)
      ensures ok <==> source in vertices && destination in vertices
      ensures forall v :: v in vertices.Values ==> v.status == old(v.status)
      ensures forall v, d :: v in vertices && d in vertices ==>
                (vertices[d] in vertices[v].children <==>
                 vertices[d] in old(vertices[v].children) || (v == source && d == destination))
    {
      if source !in vertices || destination !in vertices {
        return false;
      }
      var from, to := vertices[source], vertices[destination];
      if to in from.children {
        return true;
      }
      from.children := from.children + {to};
      to.parents := to.parents + {from};
      ok := true;
    }

    method UpdateStatus(key: Name, status: ServiceStatus)
      requires Valid() && key in vertices
      modifies vertices[key]
      ensures Valid() && vertices == old(vertices)
      ensures Children() == old(Children()) && Parents() == old(Parents())
      ensures Status() == old(Status())[key := status]
    {
      hide Valid;
      hide Keys;
      WriteStatus(key, status);
    }

    method WriteStatus(key: Name, status: ServiceStatus)
      requires Valid() && key in vertices
      modifies vertices[key]
      ensures Valid() && vertices == old(vertices)
      ensures forall k :: k in vertices ==> vertices[k].children == old(vertices[k].children) && vertices[k].parents == old(vertices[k].parents)
      ensures forall k :: k in vertices ==> vertices[k].status == if k == key then status else old(vertices[k].status)
    {
      vertices[key].status := status;
    }

    method FilterChildren(key: Name, status: ServiceStatus) returns (res: set<Name>)
      requires Valid() && key in vertices
      ensures res == set c | c in Children()[key] && Status()[c] == status
    {
      res := FilterByStatus(vertices[key].children, status);
    }

    method FilterParents(key: Name, status: ServiceStatus) returns (res: set<Name>)
      requires Valid() && key in vertices
      ensures res == set p | p in Parents()[key] && Status()[p] == status
    {
      res := FilterByStatus(vertices[key].parents, status);
    }

    /** The names of the linked vertices that are in a certain status. */
    method FilterByStatus(links: set<Vertex>, status: ServiceStatus) returns (res: set<Name>)
      requires Valid() && links <= vertices.Values
      ensures res == set c | c in Keys(links) && c in vertices && vertices[c].status == status
    {
      res := {};
      var todo := links;
      while todo != {}
        invariant todo <= links
        invariant forall c :: c in res <==> exists v :: v in links - todo && v.key == c && v.status == status
      {
        var v :| v in todo;
        if v.status == status {
          res := res + {v.key};
        }
        todo := todo - {v};
      }
    }

    method Leaves() returns (res: set<Name>)
      requires Valid()
      ensures res == set v | v in vertices && Children()[v] == {}
    {
      res := {};
      var todo := vertices.Keys;
      while todo != {}
        invariant todo <= vertices.Keys
        invariant res == set v | v in vertices.Keys - todo && Keys(vertices[v].children) == {}
      {
        var v :| v in todo;
        NoKeys(vertices[v].children);
        if |vertices[v].children| == 0 {
          res := res + {v};
        }
        todo := todo - {v};
      }
    }

    method Roots() returns (res: set<Name>)
      requires Valid()
      ensures res == set v | v in vertices && Parents()[v] == {}
    {
      res := {};
      var todo := vertices.Keys;
      while todo != {}
        invariant todo <= vertices.Keys
        invariant res == set v | v in vertices.Keys - todo && Keys(vertices[v].parents) == {}
      {
        var v :| v in todo;
        NoKeys(vertices[v].parents);
        if |vertices[v].parents| == 0 {
          res := res + {v};
        }
        todo := todo - {v};
      }
    }

    /**
     * Exact cycle detection. A reported path is a walk along dependencies that ends at a vertex it has
     * already passed; without a report the graph has a topological numbering.
     */
    method HasCycles() returns (cyclic: bool, path: seq<Name>)
      requires Valid()
      ensures cyclic <==> Cyclic(Children())
      ensures cyclic ==> CycleReport(Children(), path)
      ensures !cyclic ==> exists rank :: Ranks(Children(), rank)
    {
      ChildrenAreClosed();
      cyclic, path := Search(Children());
    }
  }

  method Search(r: Relation) returns (cyclic: bool, path: seq<Name>)
    requires Closed(r)
    ensures cyclic <==> Cyclic(r)
    ensures cyclic ==> CycleReport(r, path)
    ensures !cyclic ==> exists rank :: Ranks(r, rank)
  {
    var discovered: seq<Name>, finished: seq<Name> := [], [];
    var todo := r.Keys;
    while todo != {}
      invariant todo <= r.Keys
      invariant discovered == [] && (forall v :: v in finished ==> v in r && Bounded(r, v))
      invariant forall v :: v in r && v !in todo ==> v in finished
    {
      var key :| key in todo;
      if key !in discovered && key !in finished {
        var err, d, f := Visit(r, key, [key], discovered, finished);
        if err.Some? {
          return true, err.value;
        }
        discovered, finished := d, f;
      }
      todo := todo - {key};
    }
    BoundedIsRanked(r);
    ghost var rank :| Ranks(r, rank);
    RankedIsAcyclic(r, rank);
    return false, [];
  }

  /** The depth-first search below `key`; `discovered` holds the vertices on the current path. */
  method Visit(r: Relation, key: Name, path: seq<Name>, discovered: seq<Name>, finished: seq<Name>)
    returns (err: Option<seq<Name>>, discovered': seq<Name>, finished': seq<Name>)
    requires Closed(r) && key in r && key !in discovered
    requires path == discovered + [key] && Walk(r, path)
    requires forall v :: v in finished ==> v in r && Bounded(r, v)
    ensures err.Some? ==> CycleReport(r, err.value) && Cyclic(r)
    ensures err.None? ==> Bounded(r, key)
    ensures err.None? ==> discovered' == discovered && finished' == finished + [key]
    decreases r.Keys - Elements(discovered)
  {
    var onPath := discovered + [key];
    assert Elements(onPath) == Elements(discovered) + {key};
    var todo := r[key];
    while todo != {}
      invariant todo <= r[key]
      invariant forall u :: u in r[key] && u !in todo ==> Bounded(r, u)
    {
      var child :| child in todo;
      var longer := path + [child];
      ExtendWalk(r, path, child);
      if child in onPath {
        var i :| 0 <= i < |onPath| && onPath[i] == child;
        assert longer[i] == longer[|longer| - 1];
        RepeatedVertexIsCyclic(r, longer, i);
        return Some(longer), [], [];
      }
      if child !in finished {
        var childErr, _, _ := Visit(r, child, longer, onPath, finished);
        if childErr.Some? {
          return childErr, [], [];
        }
      }
      todo := todo - {child};
    }
    BoundedChildren(r, key);
    RemoveLast(discovered, key);
    return None, Remove(onPath, key), finished + [key];
  }

  /** The names of a list. */
  function Elements(s: seq<Name>): (e: set<Name>)
    ensures forall x :: x in e <==> x in s
  {
    set x | x in s
  }

  /** `path` follows dependencies and its last vertex occurs earlier on it. */
  ghost predicate CycleReport(r: Relation, path: seq<Name>) {
    Walk(r, path) && |path| >= 2 && path[|path| - 1] in path[..|path| - 1]
  }

  lemma ExtendWalk(r: Relation, p: seq<Name>, u: Name)
    requires Walk(r, p) && p[|p| - 1] in r && u in r[p[|p| - 1]]
    ensures Walk(r, p + [u])
  {
    var q := p + [u];
    forall i | 0 <= i < |q| - 1
      ensures q[i] in r && q[i + 1] in r[q[i]]
    {
      if i < |p| - 1 {
        assert p[i] in r && p[i + 1] in r[p[i]];
      }
    }
  }

  /** `remove`: the list without any occurrence of `item`. */
  function Remove(s: seq<Name>, item: Name): (r: seq<Name>)
    ensures item !in r && (item !in s ==> r == s)
  {
    if s == [] then []
    else if s[0] == item then Remove(s[1..], item)
    else [s[0]] + Remove(s[1..], item)
  }

  lemma {:induction false} RemoveLast(s: seq<Name>, item: Name)
    requires item !in s
    ensures Remove(s + [item], item) == s
  {
    if s != [] {
      assert (s + [item])[1..] == s[1..] + [item];
      RemoveLast(s[1..], item);
    }
  }
}
