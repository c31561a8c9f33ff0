/** Topological orders and exact layering of a graph, restricted to a scope. */
module Layering {
  import opened Types
  import opened Driver

  predicate WellFormed(g: Graph) {
    forall e | e in g.edges :: e.0 in g.nodes && e.1 in g.nodes
  }

  // ----- Walks -----

  /** A non-empty sequence of scoped nodes joined by edges. */
  predicate IsWalk(g: Graph, scope: set<JobId>, p: seq<JobId>) {
    && |p| > 0
    && (forall i | 0 <= i < |p| :: p[i] in scope)
    && (forall i | 0 < i < |p| :: (p[i - 1], p[i]) in g.edges)
  }

  /** `id` lies on a cycle. */
  ghost predicate OnCycle(g: Graph, id: JobId) {
    exists p :: IsWalk(g, g.nodes, p) && |p| > 1 && p[0] == id && p[|p| - 1] == id
  }

  /** Every node once, every edge forwards. */
  ghost predicate IsTopological(g: Graph, order: seq<JobId>) {
    && Distinct(order) && Members(order) == g.nodes
    && forall i, j | 0 <= i < |order| && 0 <= j < |order| && (order[i], order[j]) in g.edges :: i < j
  }

  /** A topological order leaves no room for a cycle. */
  lemma TopologicalMeansAcyclic(g: Graph, order: seq<JobId>, id: JobId)
    requires IsTopological(g, order)
    ensures !OnCycle(g, id)
  {
    if OnCycle(g, id) {
      var p :| IsWalk(g, g.nodes, p) && |p| > 1 && p[0] == id && p[|p| - 1] == id;
      assert p[0] in Members(order);
      var i :| 0 <= i < |order| && order[i] == p[0];
      var j := WalkGoesForward(g, order, p, i);
    }
  }

  lemma {:induction false} WalkGoesForward(g: Graph, order: seq<JobId>, p: seq<JobId>, i: nat) returns (j: nat)
    requires IsTopological(g, order) && IsWalk(g, g.nodes, p) && i < |order| && order[i] == p[0]
    ensures j < |order| && order[j] == p[|p| - 1] && j >= i + |p| - 1
    decreases |p|
  {
    j := i;
    if |p| > 1 {
      var q := p[..|p| - 1];
      var k := WalkGoesForward(g, order, q, i);
      var last := p[|p| - 1];
      assert last in Members(order);
      j :| 0 <= j < |order| && order[j] == last;
      assert (order[k], order[j]) in g.edges;
    }
  }

  /** Where every node of a set has a predecessor in the set, walking back finds a cycle. */
  method WalkBack(g: Graph, rest: set<JobId>, p: seq<JobId>) returns (id: JobId)
    requires rest <= g.nodes && IsWalk(g, rest, p) && Distinct(p)
    requires forall x | x in rest :: exists y :: y in rest && (y, x) in g.edges
    ensures OnCycle(g, id) && id in rest
    decreases |rest| - |p|
  {
    assert p[0] in rest;
    var y :| y in rest && (y, p[0]) in g.edges;
    hide OnCycle;
    var longer := [y] + p;
    WalkExtendBack(g, rest, p, y);
    if y in p {
      var i :| 0 <= i < |p| && p[i] == y;
      id := y;
      CycleFound(g, rest, longer, i + 1);
    } else {
      DistinctSize(longer, rest);
      id := WalkBack(g, rest, longer);
    }
  }

  lemma WalkExtendBack(g: Graph, scope: set<JobId>, p: seq<JobId>, y: JobId)
    requires IsWalk(g, scope, p) && y in scope && (y, p[0]) in g.edges
    ensures IsWalk(g, scope, [y] + p)
  {
    var longer := [y] + p;
    forall k | 0 < k < |longer| ensures (longer[k - 1], longer[k]) in g.edges {
      assert k > 1 ==> (p[k - 2], p[k - 1]) in g.edges;
    }
  }

  lemma CycleFound(g: Graph, scope: set<JobId>, p: seq<JobId>, i: nat)
    requires IsWalk(g, scope, p) && scope <= g.nodes && 0 < i < |p| && p[i] == p[0]
    ensures OnCycle(g, p[0])
  {
    var cycle := p[..i + 1];
    assert IsWalk(g, g.nodes, cycle) && cycle[|cycle| - 1] == p[0];
  }

  lemma {:induction false} DistinctSize(p: seq<JobId>, rest: set<JobId>)
    requires Distinct(p) && forall i | 0 <= i < |p| :: p[i] in rest
    ensures |p| <= |rest|
    decreases |p|
  {
    if p != [] {
      DistinctSize(p[1..], rest - {p[0]});
    }
  }

  // ----- Depths -----

  /** `d` is the length of the longest walk in the scope that ends at `id`. */
  ghost predicate DepthIs(g: Graph, scope: set<JobId>, id: JobId, d: nat) {
    && (exists p :: IsWalk(g, scope, p) && p[|p| - 1] == id && |p| == d + 1)
    && (forall p | IsWalk(g, scope, p) && p[|p| - 1] == id :: |p| <= d + 1)
  }

  lemma DepthUnique(g: Graph, scope: set<JobId>, id: JobId, d: nat, e: nat)
    requires DepthIs(g, scope, id, d) && DepthIs(g, scope, id, e)
    ensures d == e
  {
  }

  lemma WalkExtend(g: Graph, scope: set<JobId>, p: seq<JobId>, id: JobId)
    requires IsWalk(g, scope, p) && id in scope && (p[|p| - 1], id) in g.edges
    ensures IsWalk(g, scope, p + [id])
  {
  }

  lemma WalkJoin(g: Graph, scope: set<JobId>, p: seq<JobId>, q: seq<JobId>)
    requires IsWalk(g, scope, p) && IsWalk(g, scope, q) && p[|p| - 1] == q[0]
    ensures IsWalk(g, scope, p + q[1..])
  {
    var r := p + q[1..];
    forall i | 0 < i < |r| ensures (r[i - 1], r[i]) in g.edges {
      if i >= |p| {
        assert r[i] == q[i - |p| + 1] && r[i - 1] == q[i - |p|];
      }
    }
  }

  predicate Feeds(g: Graph, scope: set<JobId>, u: JobId, id: JobId) {
    u in scope && (u, id) in g.edges
  }

  /** One more than the deepest scoped predecessor, or zero without any, is the depth. */
  lemma DepthFromParents(g: Graph, scope: set<JobId>, id: JobId, depths: map<JobId, nat>, d: nat)
    requires id in scope
    requires forall u | Feeds(g, scope, u, id) :: u in depths && depths[u] < d && DepthIs(g, scope, u, depths[u])
    requires d > 0 ==> exists u :: Feeds(g, scope, u, id) && depths[u] + 1 == d
    ensures DepthIs(g, scope, id, d)
  {
    if d == 0 {
      assert IsWalk(g, scope, [id]);
    } else {
      var u :| Feeds(g, scope, u, id) && depths[u] + 1 == d;
      var p :| IsWalk(g, scope, p) && p[|p| - 1] == u && |p| == depths[u] + 1;
      WalkExtend(g, scope, p, id);
      assert (p + [id])[|p + [id]| - 1] == id;
    }
    forall p | IsWalk(g, scope, p) && p[|p| - 1] == id ensures |p| <= d + 1 {
      if |p| > 1 {
        var q := p[..|p| - 1];
        var u := q[|q| - 1];
        assert Feeds(g, scope, u, id);
        assert IsWalk(g, scope, q);
      }
    }
  }

  /** An edge inside the scope leads strictly deeper. */
  lemma EdgeGoesDeeper(g: Graph, scope: set<JobId>, a: JobId, b: JobId, da: nat, db: nat)
    requires DepthIs(g, scope, a, da) && DepthIs(g, scope, b, db)
    requires b in scope && (a, b) in g.edges
    ensures da < db
  {
    var p :| IsWalk(g, scope, p) && p[|p| - 1] == a && |p| == da + 1;
    WalkExtend(g, scope, p, b);
    assert (p + [b])[|p + [b]| - 1] == b;
  }

  /** On a longest walk, the k-th node has depth k: no depth below is unused. */
  lemma PrefixDepth(g: Graph, scope: set<JobId>, p: seq<JobId>, k: nat)
    requires IsWalk(g, scope, p) && DepthIs(g, scope, p[|p| - 1], |p| - 1) && k < |p|
    ensures DepthIs(g, scope, p[k], k)
  {
    var front := p[..k + 1];
    assert IsWalk(g, scope, front) && front[|front| - 1] == p[k];
    forall q | IsWalk(g, scope, q) && q[|q| - 1] == p[k] ensures |q| <= k + 1 {
      var back := p[k..];
      assert IsWalk(g, scope, back);
      WalkJoin(g, scope, q, back);
      var joined := q + back[1..];
      assert joined[|joined| - 1] == p[|p| - 1];
    }
  }

  // ----- Layerings -----

  /** Wave k holds exactly the scoped nodes of depth k, once each, and every scoped
      node has a wave. With an empty scope there is one empty wave; otherwise none is empty. */
  ghost predicate Layered(g: Graph, scope: set<JobId>, waves: seq<seq<JobId>>) {
    && |waves| >= 1
    && AllDistinct(waves)
    && (forall k, id | 0 <= k < |waves| :: id in waves[k] <==> id in scope && DepthIs(g, scope, id, k))
    && (forall id | id in scope :: exists k :: 0 <= k < |waves| && DepthIs(g, scope, id, k))
    && (if scope == {} then |waves| == 1 else forall k | 0 <= k < |waves| :: waves[k] != [])
  }

  /** Waves are disjoint, cover the scope, and edges lead to strictly later waves. */
  lemma LayeredFacts(g: Graph, scope: set<JobId>, waves: seq<seq<JobId>>)
    requires Layered(g, scope, waves)
    ensures AllDisjoint(waves) && Union(waves) == scope
    ensures forall j, k, a, b |
              0 <= j < |waves| && 0 <= k < |waves| && a in waves[j] && b in waves[k] && (a, b) in g.edges :: j < k
  {
    forall j, k | 0 <= j < k < |waves| ensures Members(waves[j]) !! Members(waves[k]) {
      forall id | id in Members(waves[j]) ensures id !in Members(waves[k]) {
        if id in waves[k] {
          DepthUnique(g, scope, id, j, k);
        }
      }
    }
    forall id ensures id in Union(waves) <==> id in scope {
      if id in scope {
        var k :| 0 <= k < |waves| && DepthIs(g, scope, id, k);
        assert id in waves[k];
      }
    }
    forall j, k, a, b |
      0 <= j < |waves| && 0 <= k < |waves| && a in waves[j] && b in waves[k] && (a, b) in g.edges
      ensures j < k
    {
      EdgeGoesDeeper(g, scope, a, b, j, k);
    }
  }

  /** The layering of a whole graph is what the driver relies on. */
  lemma LayeredIsStratified(g: Graph, waves: seq<seq<JobId>>)
    requires WellFormed(g) && Layered(g, g.nodes, waves)
    ensures Stratified(g, waves)
  {
    LayeredFacts(g, g.nodes, waves);
    forall k, id | 0 <= k < |waves| && id in waves[k]
      ensures g.Predecessors(id) <= Union(waves[..k])
    {
      forall u | u in g.Predecessors(id) ensures u in Union(waves[..k]) {
        assert (u, id) in g.edges;
        assert u in Union(waves);
        var j :| 0 <= j < |waves| && u in waves[j];
        assert waves[..k][j] == waves[j];
      }
    }
  }

  /** The wave sets do not depend on the topological order they were built from. */
  lemma LayeringUnique(g: Graph, scope: set<JobId>, waves1: seq<seq<JobId>>, waves2: seq<seq<JobId>>)
    requires Layered(g, scope, waves1) && Layered(g, scope, waves2)
    ensures |waves1| == |waves2|
    ensures forall k | 0 <= k < |waves1| :: Members(waves1[k]) == Members(waves2[k])
  {
    hide Layered;
    LayeringNoLonger(g, scope, waves1, waves2);
    LayeringNoLonger(g, scope, waves2, waves1);
    forall k | 0 <= k < |waves1| ensures Members(waves1[k]) == Members(waves2[k]) {
      WaveSame(g, scope, waves1, waves2, k);
    }
  }

  lemma WaveSame(g: Graph, scope: set<JobId>, waves1: seq<seq<JobId>>, waves2: seq<seq<JobId>>, k: nat)
    requires Layered(g, scope, waves1) && Layered(g, scope, waves2)
    requires k < |waves1| && k < |waves2|
    ensures Members(waves1[k]) == Members(waves2[k])
  {
    hide DepthIs;
    forall id ensures id in Members(waves1[k]) <==> id in Members(waves2[k]) {
      assert id in waves1[k] <==> id in scope && DepthIs(g, scope, id, k);
      assert id in waves2[k] <==> id in scope && DepthIs(g, scope, id, k);
    }
  }

  lemma LayeringNoLonger(g: Graph, scope: set<JobId>, waves1: seq<seq<JobId>>, waves2: seq<seq<JobId>>)
    requires Layered(g, scope, waves1) && Layered(g, scope, waves2)
    ensures |waves1| <= |waves2|
  {
    if scope != {} {
      var k := |waves1| - 1;
      var id := waves1[k][0];
      assert id in waves1[k];
      var j :| 0 <= j < |waves2| && DepthIs(g, scope, id, j);
      DepthUnique(g, scope, id, j, k);
    }
  }
}
