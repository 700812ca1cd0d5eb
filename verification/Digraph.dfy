/** Finite relations between service names: walks, cycles and ranks. */
module Digraph {
  type Name = string

  /** For each vertex, the set of vertices it points to. */
  type Relation = map<Name, set<Name>>

  ghost predicate Closed(r: Relation) {
    forall v, u :: v in r && u in r[v] ==> u in r
  }

  /** Consecutive vertices of `p` are joined by an edge of `r`. */
  ghost predicate Walk(r: Relation, p: seq<Name>) {
    && |p| > 0
    && p[0] in r
    && forall i :: 0 <= i < |p| - 1 ==> p[i] in r && p[i + 1] in r[p[i]]
  }

  ghost predicate Cyclic(r: Relation) {
    exists p :: Walk(r, p) && |p| >= 2 && p[0] == p[|p| - 1]
  }

  /** `to` lies at the end of a walk of at least one edge from `from`. */
  ghost predicate Reaches(r: Relation, from: Name, to: Name) {
    exists p :: Walk(r, p) && |p| >= 2 && p[0] == from && p[|p| - 1] == to
  }

  /** A topological numbering: every edge goes to a strictly smaller number. */
  ghost predicate Ranks(r: Relation, rank: map<Name, nat>) {
    && rank.Keys == r.Keys
    && forall v, u :: v in r && u in r[v] ==> u in rank && rank[u] < rank[v]
  }

  ghost predicate Inverse(a: Relation, b: Relation) {
    && a.Keys == b.Keys
    && Closed(a)
    && Closed(b)
    && forall u, v :: u in a && v in a ==> (v in a[u] <==> u in b[v])
  }

  /** Along a walk of a ranked relation the rank falls by at least one per edge. */
  lemma {:induction false} RankFalls(r: Relation, rank: map<Name, nat>, p: seq<Name>)
    requires Ranks(r, rank) && Walk(r, p)
    ensures p[|p| - 1] in rank && p[0] in rank
    ensures rank[p[|p| - 1]] + |p| - 1 <= rank[p[0]]
  {
    if |p| > 1 {
      assert p[1] in r[p[0]];
      RankFalls(r, rank, p[1..]);
    }
  }

  lemma RankedIsAcyclic(r: Relation, rank: map<Name, nat>)
    requires Ranks(r, rank)
    ensures !Cyclic(r)
  {
    forall p | Walk(r, p) && |p| >= 2
      ensures p[0] != p[|p| - 1]
    {
      RankFalls(r, rank, p);
    }
  }

  /** A walk that comes back to an earlier vertex contains a closed walk. */
  lemma RepeatedVertexIsCyclic(r: Relation, p: seq<Name>, i: nat)
    requires Walk(r, p) && i < |p| - 1 && p[i] == p[|p| - 1]
    ensures Cyclic(r)
  {
    var q := p[i..];
    assert Walk(r, q) && |q| >= 2 && q[0] == q[|q| - 1];
  }

  lemma EdgeReaches(r: Relation, v: Name, u: Name)
    requires v in r && u in r[v]
    ensures Reaches(r, v, u)
  {
    var p := [v, u];
    assert Walk(r, p) && p[0] == v && p[|p| - 1] == u;
  }

  /** Every walk from `v` has at most `n` edges. */
  ghost predicate Grounded(r: Relation, v: Name, n: nat)
    requires Closed(r) && v in r
    decreases n
  {
    forall u :: u in r[v] ==> n > 0 && Grounded(r, u, n - 1)
  }

  lemma {:induction false} GroundedMonotone(r: Relation, v: Name, n: nat, m: nat)
    requires Closed(r) && v in r && n <= m && Grounded(r, v, n)
    ensures Grounded(r, v, m)
    decreases n
  {
    forall u | u in r[v]
      ensures m > 0 && Grounded(r, u, m - 1)
    {
      assert n > 0 && Grounded(r, u, n - 1);
      GroundedMonotone(r, u, n - 1, m - 1);
    }
  }

  ghost predicate Bounded(r: Relation, v: Name)
    requires Closed(r) && v in r
  {
    exists n: nat :: Grounded(r, v, n)
  }

  lemma {:induction false} CommonBound(r: Relation, vs: set<Name>) returns (n: nat)
    requires Closed(r) && vs <= r.Keys
    requires forall v :: v in vs ==> Bounded(r, v)
    ensures forall v :: v in vs ==> Grounded(r, v, n)
  {
    if vs == {} {
      n := 0;
    } else {
      var v :| v in vs;
      var k := CommonBound(r, vs - {v});
      var m: nat :| Grounded(r, v, m);
      n := k + m;
      forall u | u in vs
        ensures Grounded(r, u, n)
      {
        GroundedMonotone(r, u, if u == v then m else k, n);
      }
    }
  }

  lemma BoundedChildren(r: Relation, v: Name)
    requires Closed(r) && v in r
    requires forall u :: u in r[v] ==> Bounded(r, u)
    ensures Bounded(r, v)
  {
    var n := CommonBound(r, r[v]);
    assert Grounded(r, v, n + 1);
  }

  ghost function Height(r: Relation, v: Name, n: nat): (k: nat)
    requires Closed(r) && v in r && Grounded(r, v, n)
    ensures k <= n && Grounded(r, v, k) && (k == 0 || !Grounded(r, v, k - 1))
    decreases n
  {
    if n > 0 && Grounded(r, v, n - 1) then Height(r, v, n - 1) else n
  }

  /** When every walk is bounded, a topological numbering exists. */
  lemma BoundedIsRanked(r: Relation)
    requires Closed(r)
    requires forall v :: v in r ==> Bounded(r, v)
    ensures exists rank :: Ranks(r, rank)
  {
    var n := CommonBound(r, r.Keys);
    var rank := map v | v in r :: Height(r, v, n);
    forall v, u | v in r && u in r[v]
      ensures rank[u] < rank[v]
    {
      var k := Height(r, v, n);
      assert Grounded(r, u, k - 1);
      if rank[u] > k - 1 {
        GroundedMonotone(r, u, k - 1, rank[u] - 1);
      }
    }
    assert Ranks(r, rank);
  }

  /** Reversing all edges turns a topological numbering upside down. */
  lemma TransposeRanks(a: Relation, b: Relation, rank: map<Name, nat>)
    requires Inverse(a, b) && Ranks(a, rank)
    ensures exists rank' :: Ranks(b, rank')
  {
    var top := HighestRank(rank);
    var rank' := map v | v in b :: top - rank[v];
    forall v, u | v in b && u in b[v]
      ensures u in rank' && rank'[u] < rank'[v]
    {
      assert v in a[u];
    }
    assert Ranks(b, rank');
  }

  ghost function HighestRank(rank: map<Name, nat>): (top: nat)
    ensures forall v :: v in rank ==> rank[v] <= top
    decreases |rank|
  {
    if rank == map[] then 0
    else
      var v :| v in rank;
      var rest := map u | u in rank && u != v :: rank[u];
      assert rest.Keys == rank.Keys - {v};
      assert forall u :: u in rank && u != v ==> u in rest && rest[u] == rank[u];
      var t := HighestRank(rest);
      if t >= rank[v] then t else rank[v]
  }
}
