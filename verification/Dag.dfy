/** The dependency graph: an arena of interned job ids, edges between arena
    indices, and the layering into waves. */
module Dag {
  import opened Types
  import opened Ordering
  import opened Driver
  import opened Layering

  datatype DagError = Cycle(id: JobId) | DanglingEdge(id: JobId)

  // ----- The within-wave order -----

  function ScopeKey(scope: JobScope): string {
    match scope
    case Global => "global"
    case Workspace(name) => "ws:" + name
    case Repo(workspace, repo) => "repo:" + workspace + "/" + repo
  }

  function SubjectKey(subject: JobSubject): string {
    match subject
    case NoSubject => ""
    case RepoSubject(repo) => "repo:" + repo
    case OrgSubject(org) => "org:" + org
    case PathSubject(path) => "path:" + path
    case PinnedSubject(pin) => "pin:" + pin
  }

  function StableKey(id: JobId): string {
    ScopeKey(id.scope) + "|" + id.kind.name + "|" + SubjectKey(id.subject)
  }

  /** How the key of every id is spelt: scope, kind, subject. */
  lemma StableKeySpelt(kind: string, workspace: string, repo: string, text: string)
    ensures StableKey(JobId(Global, JobKindId(kind), NoSubject)) == "global|" + kind + "|"
    ensures StableKey(JobId(Workspace(workspace), JobKindId(kind), RepoSubject(text))) ==
            "ws:" + workspace + "|" + kind + "|repo:" + text
    ensures StableKey(JobId(Repo(workspace, repo), JobKindId(kind), OrgSubject(text))) ==
            "repo:" + workspace + "/" + repo + "|" + kind + "|org:" + text
    ensures StableKey(JobId(Global, JobKindId(kind), PathSubject(text))) == "global|" + kind + "|path:" + text
    ensures StableKey(JobId(Global, JobKindId(kind), PinnedSubject(text))) == "global|" + kind + "|pin:" + text
  {
  }

  function ByStableKey(): (JobId, JobId) -> bool {
    (a, b) => LexLe(StableKey(a), StableKey(b))
  }

  lemma StableKeyOrders()
    ensures TotalPreorder(ByStableKey())
  {
    forall a: JobId, b: JobId ensures ByStableKey()(a, b) || ByStableKey()(b, a) {
      LexTotal(StableKey(a), StableKey(b));
    }
    forall a: JobId, b: JobId, c: JobId | ByStableKey()(a, b) && ByStableKey()(b, c) ensures ByStableKey()(a, c) {
      LexTransitive(StableKey(a), StableKey(b), StableKey(c));
    }
  }

  /** The key does not separate all ids: separators may occur inside the strings. */
  lemma StableKeysCollide()
    ensures exists a, b :: a != b && StableKey(a) == StableKey(b)
  {
    var a := JobId(Workspace("x|y"), JobKindId("z"), NoSubject);
    var b := JobId(Workspace("x"), JobKindId("y|z"), NoSubject);
    assert StableKey(a) == "ws:x|y|z|";
    assert StableKey(b) == "ws:x|y|z|";
    assert a != b;
  }

  predicate KeysSeparate(ids: set<JobId>) {
    forall a, b | a in ids && b in ids && StableKey(a) == StableKey(b) :: a == b
  }

  ghost predicate AllSorted(waves: seq<seq<JobId>>) {
    forall k | 0 <= k < |waves| :: Ascending(ByStableKey(), waves[k])
  }

  lemma {:induction false} DistinctSameMultiset(xs: seq<JobId>, ys: seq<JobId>)
    requires Distinct(xs) && Distinct(ys) && Members(xs) == Members(ys)
    ensures multiset(xs) == multiset(ys)
  {
    DistinctCounts(xs);
    DistinctCounts(ys);
    forall x ensures multiset(xs)[x] == multiset(ys)[x] {
      assert x in xs <==> x in multiset(xs);
      assert x in ys <==> x in multiset(ys);
      assert x in Members(xs) <==> x in Members(ys);
    }
  }

  predicate WavesSeparate(waves: seq<seq<JobId>>) {
    forall k | 0 <= k < |waves| :: KeysSeparate(Members(waves[k]))
  }

  /** No two scoped nodes of the same depth share a key. */
  ghost predicate KeysSeparateDepths(g: Graph, scope: set<JobId>) {
    forall a, b, d: nat |
      a in scope && b in scope && DepthIs(g, scope, a, d) && DepthIs(g, scope, b, d) && StableKey(a) == StableKey(b) ::
      a == b
  }

  lemma SeparateByDepth(g: Graph, scope: set<JobId>, waves: seq<seq<JobId>>)
    requires Layered(g, scope, waves)
    ensures WavesSeparate(waves) <==> KeysSeparateDepths(g, scope)
  {
    hide DepthIs, StableKey;
    if KeysSeparateDepths(g, scope) {
      forall k, a, b | 0 <= k < |waves| && a in waves[k] && b in waves[k] && StableKey(a) == StableKey(b)
        ensures a == b
      {
        assert DepthIs(g, scope, a, k) && DepthIs(g, scope, b, k);
      }
    }
    if WavesSeparate(waves) {
      forall a, b, d: nat |
        a in scope && b in scope && DepthIs(g, scope, a, d) && DepthIs(g, scope, b, d) && StableKey(a) == StableKey(b)
        ensures a == b
      {
        var k :| 0 <= k < |waves| && DepthIs(g, scope, a, k);
        DepthUnique(g, scope, a, d, k);
        assert a in Members(waves[k]) && b in Members(waves[k]);
      }
    }
  }

  /** No other list of waves is a sorted layering. */
  ghost predicate OnlyOrder(g: Graph, scope: set<JobId>, waves: seq<seq<JobId>>) {
    forall other | Layered(g, scope, other) && AllSorted(other) :: other == waves
  }

  lemma WavesDetermined(g: Graph, scope: set<JobId>, waves: seq<seq<JobId>>, other: seq<seq<JobId>>)
    requires Layered(g, scope, waves) && AllSorted(waves) && WavesSeparate(waves)
    requires Layered(g, scope, other) && AllSorted(other)
    ensures other == waves
  {
    LayeringUnique(g, scope, waves, other);
    forall k | 0 <= k < |waves| ensures other[k] == waves[k] {
      SortedWaveDetermined(waves[k], other[k]);
    }
  }

  /** Two jobs of one wave with the same key, the other way round. */
  lemma SwapSorted(wave: seq<JobId>, i: nat, j: nat) returns (swapped: seq<JobId>)
    requires i < j < |wave| && StableKey(wave[i]) == StableKey(wave[j])
    requires Distinct(wave) && Ascending(ByStableKey(), wave)
    ensures Distinct(swapped) && Ascending(ByStableKey(), swapped)
    ensures Members(swapped) == Members(wave) && swapped != wave
  {
    swapped := wave[i := wave[j]][j := wave[i]];
    forall m, n | 0 <= m < n < |swapped| ensures ByStableKey()(swapped[m], swapped[n]) {
      assert ByStableKey()(wave[m], wave[n]);
      assert StableKey(swapped[m]) == StableKey(wave[m]) && StableKey(swapped[n]) == StableKey(wave[n]);
    }
    forall x ensures x in swapped <==> x in wave {
      if x in wave {
        var k :| 0 <= k < |wave| && wave[k] == x;
        assert swapped[if k == i then j else if k == j then i else k] == x;
      }
    }
  }

  lemma SameSets(g: Graph, scope: set<JobId>, waves: seq<seq<JobId>>, k: nat, wave: seq<JobId>)
    requires Layered(g, scope, waves) && k < |waves|
    requires Distinct(wave) && Members(wave) == Members(waves[k])
    ensures Layered(g, scope, waves[k := wave])
  {
    hide DepthIs;
    var other := waves[k := wave];
    forall x ensures x in wave <==> x in waves[k] {
      assert x in Members(wave) <==> x in Members(waves[k]);
    }
    assert waves[k] != [] ==> waves[k][0] in wave;
  }

  /** The waves, order within each wave included, are determined by the graph and
      the scope exactly when no two scoped nodes of the same depth share a key. */
  lemma OrderDeterminedIff(g: Graph, scope: set<JobId>, waves: seq<seq<JobId>>)
    requires Layered(g, scope, waves) && AllSorted(waves)
    ensures OnlyOrder(g, scope, waves) <==> KeysSeparateDepths(g, scope)
  {
    SeparateByDepth(g, scope, waves);
    hide Layered, AllSorted;
    if WavesSeparate(waves) {
      forall other | Layered(g, scope, other) && AllSorted(other) ensures other == waves {
        WavesDetermined(g, scope, waves, other);
      }
    } else {
      var other := OtherOrder(g, scope, waves);
    }
  }

  lemma OtherOrder(g: Graph, scope: set<JobId>, waves: seq<seq<JobId>>) returns (other: seq<seq<JobId>>)
    requires Layered(g, scope, waves) && AllSorted(waves) && !WavesSeparate(waves)
    ensures Layered(g, scope, other) && AllSorted(other) && other != waves
  {
    hide StableKey, ByStableKey;
    var k :| 0 <= k < |waves| && !KeysSeparate(Members(waves[k]));
    var a, b :| a in Members(waves[k]) && b in Members(waves[k]) && StableKey(a) == StableKey(b) && a != b;
    var i :| 0 <= i < |waves[k]| && waves[k][i] == a;
    var j :| 0 <= j < |waves[k]| && waves[k][j] == b;
    var wave := SwapSorted(waves[k], if i < j then i else j, if i < j then j else i);
    other := waves[k := wave];
    SameSets(g, scope, waves, k, wave);
  }

  lemma SortedWaveDetermined(xs: seq<JobId>, ys: seq<JobId>)
    requires Distinct(xs) && Distinct(ys) && Members(xs) == Members(ys) && KeysSeparate(Members(xs))
    requires Ascending(ByStableKey(), xs) && Ascending(ByStableKey(), ys)
    ensures xs == ys
  {
    DistinctSameMultiset(xs, ys);
    forall a, b | a in xs && b in xs && ByStableKey()(a, b) && ByStableKey()(b, a) ensures a == b {
      LexAntisymmetric(StableKey(a), StableKey(b));
      assert a in Members(xs) && b in Members(xs);
    }
    OneArrangement(ByStableKey(), xs, ys);
  }

  // ----- The external topological sort -----

  predicate ReadyIn(g: Graph, rest: set<JobId>, x: JobId) {
    forall e | e in g.edges && e.1 == x :: e.0 !in rest
  }

  /** A topological order of the nodes outside `rest`, with all they depend on. */
  ghost predicate OrderedSoFar(g: Graph, order: seq<JobId>, rest: set<JobId>) {
    && Distinct(order) && Members(order) + rest == g.nodes && Members(order) !! rest
    && (forall i, j | 0 <= i < |order| && 0 <= j < |order| && (order[i], order[j]) in g.edges :: i < j)
    && (forall e | e in g.edges && e.1 in Members(order) :: e.0 in Members(order))
  }

  lemma OrderedNext(g: Graph, order: seq<JobId>, rest: set<JobId>, x: JobId)
    requires WellFormed(g) && OrderedSoFar(g, order, rest) && x in rest && ReadyIn(g, rest, x)
    ensures OrderedSoFar(g, order + [x], rest - {x})
  {
    var longer := order + [x];
    assert forall i | 0 <= i < |order| :: order[i] in Members(order);
    assert Members(longer) == Members(order) + {x};
    assert (x, x) !in g.edges;
    assert forall e | e in g.edges && e.1 in Members(order) :: e.0 != x;
    assert forall j | 0 <= j < |order| :: (x, order[j]) !in g.edges;
    forall i, j | 0 <= i < |longer| && 0 <= j < |longer| && (longer[i], longer[j]) in g.edges ensures i < j {
    }
    forall e | e in g.edges && e.1 in Members(longer) ensures e.0 in Members(longer) {
      assert e.0 in g.nodes;
    }
  }

  lemma OrderedStart(g: Graph)
    ensures OrderedSoFar(g, [], g.nodes)
  {
    assert Members<JobId>([]) == {};
  }

  lemma OrderedDone(g: Graph, order: seq<JobId>)
    requires OrderedSoFar(g, order, {})
    ensures IsTopological(g, order)
  {
  }

  lemma NoneReady(g: Graph, rest: set<JobId>)
    requires forall x | x in rest :: !ReadyIn(g, rest, x)
    ensures forall x | x in rest :: exists y :: y in rest && (y, x) in g.edges
  {
    forall x | x in rest ensures exists y :: y in rest && (y, x) in g.edges {
      var e :| e in g.edges && e.1 == x && e.0 in rest;
      assert (e.0, x) in g.edges;
    }
  }

  /** Some topological order, or a node on a cycle. The code calls a library for
      this; only this contract is relied on. */
  method Toposort(g: Graph) returns (r: Result<seq<JobId>, DagError>)
    requires WellFormed(g)
    ensures r.Ok? ==> IsTopological(g, r.value)
    ensures r.Err? ==> r.error.Cycle? && OnCycle(g, r.error.id)
  {
    hide OnCycle, ReadyIn, OrderedSoFar, IsTopological;
    var order, rest := [], g.nodes;
    OrderedStart(g);
    while rest != {}
      invariant OrderedSoFar(g, order, rest) && rest <= g.nodes
      decreases rest
    {
      var ready := FindReady(g, rest);
      if ready.None? {
        var id := FindCycle(g, rest);
        return Err(Cycle(id));
      }
      OrderedNext(g, order, rest, ready.value);
      order, rest := order + [ready.value], rest - {ready.value};
    }
    OrderedDone(g, order);
    return Ok(order);
  }

  method FindCycle(g: Graph, rest: set<JobId>) returns (id: JobId)
    requires rest != {} && rest <= g.nodes && forall x | x in rest :: !ReadyIn(g, rest, x)
    ensures OnCycle(g, id)
  {
    hide OnCycle, ReadyIn;
    NoneReady(g, rest);
    var start :| start in rest;
    id := WalkBack(g, rest, [start]);
  }

  method FindReady(g: Graph, rest: set<JobId>) returns (ready: Option<JobId>)
    ensures ready.Some? ==> ready.value in rest && ReadyIn(g, rest, ready.value)
    ensures ready.None? ==> forall x | x in rest :: !ReadyIn(g, rest, x)
  {
    hide ReadyIn;
    var todo := rest;
    while todo != {}
      invariant todo <= rest && forall x | x in rest - todo :: !ReadyIn(g, rest, x)
      decreases todo
    {
      var x :| x in todo;
      if ReadyIn(g, rest, x) {
        return Some(x);
      }
      todo := todo - {x};
    }
    return None;
  }

  // ----- The waves -----

  /** Depths of the scoped nodes among `done`. */
  ghost predicate DepthsOf(g: Graph, scope: set<JobId>, depths: map<JobId, nat>, done: set<JobId>) {
    depths.Keys == done * scope && forall id | id in depths :: DepthIs(g, scope, id, depths[id])
  }

  /** The deepest of the scoped predecessors seen so far, plus one. */
  method DepthAbove(parents: seq<JobId>, scope: set<JobId>, depths: map<JobId, nat>) returns (depth: nat)
    ensures forall u | u in parents && u in scope && u in depths :: depths[u] < depth
    ensures depth > 0 ==> exists u :: u in parents && u in scope && u in depths && depths[u] + 1 == depth
  {
    depth := 0;
    for i := 0 to |parents|
      invariant forall u | u in parents[..i] && u in scope && u in depths :: depths[u] < depth
      invariant depth > 0 ==> exists u :: u in parents[..i] && u in scope && u in depths && depths[u] + 1 == depth
    {
      var parent := parents[i];
      assert forall u :: u in parents[..i + 1] <==> u in parents[..i] || u == parent;
      if parent in scope && parent in depths && depths[parent] + 1 > depth {
        depth := depths[parent] + 1;
      }
    }
    assert parents[..|parents|] == parents;
  }

  method MaxDepth(depths: map<JobId, nat>) returns (deepest: nat)
    ensures forall id | id in depths :: depths[id] <= deepest
    ensures if depths == map[] then deepest == 0 else exists id :: id in depths && depths[id] == deepest
  {
    deepest := 0;
    var todo := depths.Keys;
    while todo != {}
      invariant todo <= depths.Keys
      invariant forall id | id in depths.Keys - todo :: depths[id] <= deepest
      invariant if todo == depths.Keys then deepest == 0 else exists id :: id in depths && depths[id] == deepest
      decreases todo
    {
      var id :| id in todo;
      todo := todo - {id};
      if depths[id] > deepest {
        deepest := depths[id];
      }
    }
  }

  /** The buckets after the ids outside `todo` have been dealt out. */
  ghost predicate Dealt(waves: seq<seq<JobId>>, depths: map<JobId, nat>, todo: set<JobId>) {
    && AllDistinct(waves)
    && forall k, id | 0 <= k < |waves| :: id in waves[k] <==> id in depths && id !in todo && depths[id] == k
  }

  lemma DealOne(waves: seq<seq<JobId>>, depths: map<JobId, nat>, todo: set<JobId>, id: JobId)
    requires Dealt(waves, depths, todo) && id in todo && id in depths && depths[id] < |waves|
    ensures Dealt(waves[depths[id] := waves[depths[id]] + [id]], depths, todo - {id})
  {
    var k := depths[id];
    assert id !in waves[k];
  }

  /** Deal the ids into buckets by depth, in whatever order the map hands them out. */
  method Deal(depths: map<JobId, nat>, count: nat) returns (waves: seq<seq<JobId>>)
    requires forall id | id in depths :: depths[id] < count
    ensures |waves| == count && Dealt(waves, depths, {})
  {
    waves := seq(count, _ => []);
    var todo := depths.Keys;
    while todo != {}
      invariant |waves| == count && todo <= depths.Keys && Dealt(waves, depths, todo)
      decreases todo
    {
      var id :| id in todo;
      DealOne(waves, depths, todo, id);
      waves := waves[depths[id] := waves[depths[id]] + [id]];
      todo := todo - {id};
    }
  }

  method SortWaves(dealt: seq<seq<JobId>>) returns (waves: seq<seq<JobId>>)
    requires AllDistinct(dealt)
    ensures |waves| == |dealt| && AllDistinct(waves) && AllSorted(waves)
    ensures forall k | 0 <= k < |waves| :: Members(waves[k]) == Members(dealt[k])
  {
    waves := dealt;
    StableKeyOrders();
    for i := 0 to |waves|
      invariant |waves| == |dealt| && forall k | i <= k < |waves| :: waves[k] == dealt[k]
      invariant forall k | 0 <= k < i ::
        Distinct(waves[k]) && Ascending(ByStableKey(), waves[k]) && Members(waves[k]) == Members(dealt[k])
    {
      SortAscends(ByStableKey(), dealt[i]);
      DistinctReordered(dealt[i], Sort(ByStableKey(), dealt[i]));
      waves := waves[i := Sort(ByStableKey(), waves[i])];
    }
  }

  lemma DealtIsLayered(g: Graph, scope: set<JobId>, depths: map<JobId, nat>, dealt: seq<seq<JobId>>,
                       waves: seq<seq<JobId>>)
    requires depths.Keys == scope && forall id | id in scope :: DepthIs(g, scope, id, depths[id])
    requires Dealt(dealt, depths, {})
    requires forall id | id in depths :: depths[id] < |dealt|
    requires if depths == map[] then |dealt| == 1 else exists id :: id in depths && depths[id] + 1 == |dealt|
    requires |waves| == |dealt| && AllDistinct(waves)
    requires forall k | 0 <= k < |waves| :: Members(waves[k]) == Members(dealt[k])
    ensures Layered(g, scope, waves)
  {
    forall k, id | 0 <= k < |waves| ensures id in waves[k] <==> id in scope && DepthIs(g, scope, id, k) {
      assert id in waves[k] <==> id in Members(waves[k]);
      assert id in dealt[k] <==> id in Members(dealt[k]);
      if id in scope && DepthIs(g, scope, id, k) {
        DepthUnique(g, scope, id, k, depths[id]);
      }
    }
    if scope != {} {
      var deepest :| deepest in depths && depths[deepest] + 1 == |dealt|;
      var p :| IsWalk(g, scope, p) && p[|p| - 1] == deepest && |p| == depths[deepest] + 1;
      forall k | 0 <= k < |waves| ensures waves[k] != [] {
        PrefixDepth(g, scope, p, k);
        assert p[k] in waves[k];
      }
    }
  }

  function ScopeOf(g: Graph, affected: Option<set<JobId>>): set<JobId> {
    if affected.Some? then affected.value * g.nodes else g.nodes
  }

  lemma ParentsDone(g: Graph, order: seq<JobId>, i: nat, u: JobId)
    requires WellFormed(g) && IsTopological(g, order) && i < |order| && (u, order[i]) in g.edges
    ensures u in order[..i]
  {
    assert u in Members(order);
    var j :| 0 <= j < |order| && order[j] == u;
    assert order[..i][j] == u;
  }

  /** The next node in topological order: its scoped predecessors have their depths. */
  lemma DepthNext(g: Graph, scope: set<JobId>, order: seq<JobId>, i: nat, depths: map<JobId, nat>, d: nat)
    requires WellFormed(g) && IsTopological(g, order) && i < |order|
    requires DepthsOf(g, scope, depths, Members(order[..i]))
    requires order[i] in scope
    requires forall u | u in g.Predecessors(order[i]) && u in scope && u in depths :: depths[u] < d
    requires d > 0 ==> exists u :: u in g.Predecessors(order[i]) && u in scope && u in depths && depths[u] + 1 == d
    ensures DepthsOf(g, scope, depths[order[i] := d], Members(order[..i + 1]))
  {
    hide DepthIs, IsTopological, WellFormed;
    var id := order[i];
    forall u | Feeds(g, scope, u, id) ensures u in depths && depths[u] < d && DepthIs(g, scope, u, depths[u]) {
      ParentsDone(g, order, i, u);
      assert u in Members(order[..i]);
      assert u in g.Predecessors(id);
    }
    if d > 0 {
      var u :| u in g.Predecessors(id) && u in scope && u in depths && depths[u] + 1 == d;
      assert Feeds(g, scope, u, id);
    }
    DepthFromParents(g, scope, id, depths, d);
    assert Members(order[..i + 1]) == Members(order[..i]) + {id};
  }

  lemma ParentsAre(g: Graph, id: JobId, parents: seq<JobId>, scope: set<JobId>, depths: map<JobId, nat>, d: nat)
    requires Members(parents) == g.Predecessors(id)
    requires forall u | u in parents && u in scope && u in depths :: depths[u] < d
    requires d > 0 ==> exists u :: u in parents && u in scope && u in depths && depths[u] + 1 == d
    ensures forall u | u in g.Predecessors(id) && u in scope && u in depths :: depths[u] < d
    ensures d > 0 ==> exists u :: u in g.Predecessors(id) && u in scope && u in depths && depths[u] + 1 == d
  {
    assert forall u :: u in parents <==> u in Members(parents);
  }

  // ----- The graph object -----

  /** The arena, its index and the edges fit together. */
  ghost predicate Consistent(nodes: seq<JobId>, edges: seq<(nat, nat)>, index: map<JobId, nat>, declared: set<JobId>) {
    && (forall id | id in index :: index[id] < |nodes| && nodes[index[id]] == id)
    && (forall i | 0 <= i < |nodes| :: nodes[i] in index && index[nodes[i]] == i)
    && (forall e | e in edges :: e.0 < |nodes| && e.1 < |nodes|)
    && Distinct(edges)
    && declared <= index.Keys
  }

  /** The graph an arena stands for. */
  function GraphOf(nodes: seq<JobId>, edges: seq<(nat, nat)>, index: map<JobId, nat>): Graph
    requires forall e | e in edges :: e.0 < |nodes| && e.1 < |nodes|
  {
    Graph(index.Keys, set e | e in edges :: (nodes[e.0], nodes[e.1]))
  }

  lemma ArenaGrows(nodes: seq<JobId>, edges: seq<(nat, nat)>, index: map<JobId, nat>, declared: set<JobId>, id: JobId)
    requires Consistent(nodes, edges, index, declared) && id !in index
    ensures Consistent(nodes + [id], edges, index[id := |nodes|], declared)
    ensures GraphOf(nodes + [id], edges, index[id := |nodes|]) ==
            GraphOf(nodes, edges, index).(nodes := index.Keys + {id})
  {
    var more := nodes + [id];
    assert forall e | e in edges :: more[e.0] == nodes[e.0] && more[e.1] == nodes[e.1];
  }

  lemma EdgeJoins(nodes: seq<JobId>, edges: seq<(nat, nat)>, index: map<JobId, nat>, declared: set<JobId>,
                  from: JobId, to: JobId)
    requires Consistent(nodes, edges, index, declared) && from in index && to in index
    ensures var e, g := (index[from], index[to]), GraphOf(nodes, edges, index);
            && (e in edges <==> (from, to) in g.edges)
            && (e !in edges ==>
                  && Consistent(nodes, edges + [e], index, declared)
                  && GraphOf(nodes, edges + [e], index) == g.(edges := g.edges + {(from, to)}))
  {
    var e, g := (index[from], index[to]), GraphOf(nodes, edges, index);
    if (from, to) in g.edges {
      var f :| f in edges && (nodes[f.0], nodes[f.1]) == (from, to);
      assert f == e;
    }
    if e !in edges {
      var more := edges + [e];
      assert forall f :: f in more <==> f in edges || f == e;
      var g' := GraphOf(nodes, more, index);
      forall x ensures x in g'.edges <==> x in g.edges + {(from, to)} {
        if x in g.edges {
          var f :| f in edges && (nodes[f.0], nodes[f.1]) == x;
          assert f in more;
        }
      }
    }
  }

  lemma GraphWellFormed(nodes: seq<JobId>, edges: seq<(nat, nat)>, index: map<JobId, nat>, declared: set<JobId>)
    requires Consistent(nodes, edges, index, declared)
    ensures WellFormed(GraphOf(nodes, edges, index))
  {
  }

  class Dag {
    var nodes: seq<JobId>
    var edges: seq<(nat, nat)>
    var index: map<JobId, nat>
    var declared: set<JobId>

    ghost predicate Valid()
      reads this
    {
      Consistent(nodes, edges, index, declared)
    }

    function Model(): Graph
      reads this
      requires Valid()
    {
      GraphOf(nodes, edges, index)
    }

    constructor ()
      ensures Valid() && Model() == Graph({}, {}) && declared == {}
    {
      nodes, edges, index, declared := [], [], map[], {};
    }

    /** Intern a node without declaring it. */
    method NodeIndex(id: JobId) returns (i: nat)
      requires Valid()
      modifies this`nodes, this`index
      ensures Valid() && Model() == Graph(old(Model()).nodes + {id}, old(Model()).edges)
      ensures id in index && i == index[id]
      ensures forall x | x in old(index) :: x in index && index[x] == old(index)[x]
    {
      if id in index {
        assert index.Keys + {id} == index.Keys;
        return index[id];
      }
      ArenaGrows(nodes, edges, index, declared, id);
      i := |nodes|;
      nodes, index := nodes + [id], index[id := i];
    }

    /** Add a node if absent, and declare it. */
    method EnsureNode(id: JobId) returns (i: nat)
      requires Valid()
      modifies this
      ensures Valid() && Model() == Graph(old(Model()).nodes + {id}, old(Model()).edges)
      ensures declared == old(declared) + {id} && id in index && i == index[id]
    {
      i := NodeIndex(id);
      declared := declared + {id};
    }

    /** Add an edge once; its end points are interned but not declared. */
    method AddEdge(from: JobId, to: JobId)
      requires Valid()
      modifies this
      ensures Valid() && declared == old(declared)
      ensures Model() == Graph(old(Model()).nodes + {from, to}, old(Model()).edges + {(from, to)})
      ensures |edges| == old(|edges|) + if (from, to) in old(Model()).edges then 0 else 1
    {
      hide Consistent, GraphOf;
      var f := NodeIndex(from);
      var t := NodeIndex(to);
      EdgeJoins(nodes, edges, index, declared, from, to);
      if (f, t) !in edges {
        edges := edges + [(f, t)];
      }
    }

    /** Direct predecessors; none for an unknown job. */
    method Predecessors(id: JobId) returns (preds: seq<JobId>)
      requires Valid()
      ensures Members(preds) == Model().Predecessors(id) && Distinct(preds)
    {
      preds := [];
      if id !in index {
        assert Model().Predecessors(id) == {};
        return;
      }
      for k := 0 to |edges|
        invariant Distinct(preds)
        invariant forall u :: u in preds <==> exists j :: 0 <= j < k && edges[j].1 == index[id] && nodes[edges[j].0] == u
      {
        if edges[k].1 == index[id] {
          forall j | 0 <= j < k && edges[j].1 == index[id] ensures nodes[edges[j].0] != nodes[edges[k].0] {
            assert edges[j] in edges && edges[k] in edges && edges[j] != edges[k];
            assert index[nodes[edges[j].0]] == edges[j].0 && index[nodes[edges[k].0]] == edges[k].0;
          }
          assert nodes[edges[k].0] !in preds;
          preds := preds + [nodes[edges[k].0]];
        }
      }
      forall u ensures u in Members(preds) <==> u in Model().Predecessors(id) {
        if u in Members(preds) {
          var j :| 0 <= j < |edges| && edges[j].1 == index[id] && nodes[edges[j].0] == u;
          assert (nodes[edges[j].0], nodes[edges[j].1]) in Model().edges;
          assert (u, id) in Model().edges;
        }
        if u in Model().Predecessors(id) {
          var x :| x in Model().edges && x.1 == id && x.0 == u;
          var e :| e in edges && (nodes[e.0], nodes[e.1]) == x;
          var j :| 0 <= j < |edges| && edges[j] == e;
        }
      }
    }

    /** Ok exactly for a graph whose nodes are all declared and that has no cycle;
        an undeclared node is reported before any cycle. */
    method Validate() returns (r: Result<(), DagError>)
      requires Valid()
      ensures r.Ok? <==> Model().nodes <= declared && forall id :: !OnCycle(Model(), id)
      ensures r.Err? && r.error.DanglingEdge? ==> r.error.id in Model().nodes - declared
      ensures r.Err? && r.error.Cycle? ==> Model().nodes <= declared && OnCycle(Model(), r.error.id)
    {
      var dangling := index.Keys - declared;
      if dangling != {} {
        var id :| id in dangling;
        return Err(DanglingEdge(id));
      }
      assert forall id | id in index.Keys :: id in declared || id in dangling;
      GraphWellFormed(nodes, edges, index, declared);
      var sorted := Toposort(Model());
      if sorted.Err? {
        return Err(sorted.error);
      }
      forall id ensures !OnCycle(Model(), id) {
        TopologicalMeansAcyclic(Model(), sorted.value, id);
      }
      return Ok(());
    }

    /** The scoped nodes by depth, each wave in key order; an error exactly for a
        cyclic graph, whatever the scope. */
    method Waves(affected: Option<set<JobId>>) returns (r: Result<seq<seq<JobId>>, DagError>)
      requires Valid()
      ensures r.Ok? ==> Layered(Model(), ScopeOf(Model(), affected), r.value) && AllSorted(r.value)
      ensures r.Ok? ==>
                Union(r.value) == if affected.None? then Model().nodes else affected.value * Model().nodes
      ensures r.Err? ==> r.error.Cycle? && OnCycle(Model(), r.error.id)
      ensures r.Ok? ==> forall id :: !OnCycle(Model(), id)
    {
      GraphWellFormed(nodes, edges, index, declared);
      var sorted := Toposort(Model());
      if sorted.Err? {
        return Err(sorted.error);
      }
      var order, scope := sorted.value, ScopeOf(Model(), affected);
      forall id ensures !OnCycle(Model(), id) {
        TopologicalMeansAcyclic(Model(), order, id);
      }
      var depths := Depths(order, scope);
      var deepest := MaxDepth(depths);
      var dealt := Deal(depths, deepest + 1);
      var waves := SortWaves(dealt);
      DealtIsLayered(Model(), scope, depths, dealt, waves);
      LayeredFacts(Model(), scope, waves);
      return Ok(waves);
    }

    /** The loop over the topological order that finds each scoped node's depth. */
    method Depths(order: seq<JobId>, scope: set<JobId>) returns (depths: map<JobId, nat>)
      requires Valid() && WellFormed(Model()) && IsTopological(Model(), order) && scope <= Model().nodes
      ensures depths.Keys == scope && forall id | id in scope :: DepthIs(Model(), scope, id, depths[id])
    {
      depths := map[];
      ghost var g := Model();
      for i := 0 to |order|
        invariant DepthsOf(g, scope, depths, Members(order[..i]))
      {
        var id := order[i];
        if id in scope {
          var parents := Predecessors(id);
          var d := DepthAbove(parents, scope, depths);
          ParentsAre(g, id, parents, scope, depths, d);
          DepthNext(g, scope, order, i, depths, d);
          depths := depths[id := d];
        } else {
          assert Members(order[..i + 1]) == Members(order[..i]) + {id};
        }
      }
      assert order[..|order|] == order;
    }
  }
}
