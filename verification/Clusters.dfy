/** Connected components of the relates_to relation: the breadth-first search of
    `find_relates_to_clusters`, proved against undirected reachability. */
module Clusters {
  import opened Ordering
  import opened Reachability
  import opened RelationGraph

  /** `adj`: the undirected neighbours of each document. */
  type Neighbours = map<string, set<string>>

  /** `adj.get(node, [])` */
  function Around(adj: Neighbours, node: string): set<string>
  {
    if node in adj then adj[node] else {}
  }

  /** The document takes part in a relates_to relation. */
  ghost predicate Endpoint(edges: seq<Edge>, x: string)
  {
    exists y :: Adjacent(edges, x, y)
  }

  ghost function Links(edges: seq<Edge>): (string, string) -> bool
  {
    (a, b) => Adjacent(edges, a, b)
  }

  /** An undirected relates_to path joins a and b. */
  ghost predicate Connected(edges: seq<Edge>, a: string, b: string)
  {
    Reach(Links(edges), a, b)
  }

  lemma ConnectedSelf(edges: seq<Edge>, a: string)
    ensures Connected(edges, a, a)
  {
    ReachSelf(Links(edges), a);
  }

  lemma ConnectedStep(edges: seq<Edge>, a: string, b: string, c: string)
    requires Connected(edges, a, b) && Adjacent(edges, b, c)
    ensures Connected(edges, a, c)
  {
    ReachOne(Links(edges), b, c);
    ReachJoin(Links(edges), a, b, c);
  }

  /** No relation leaves the set. */
  ghost predicate Closed(edges: seq<Edge>, s: set<string>)
  {
    forall x, y :: x in s && Adjacent(edges, x, y) ==> y in s
  }

  lemma ConnectedStaysInside(edges: seq<Edge>, s: set<string>, a: string, b: string)
    requires Closed(edges, s) && a in s && Connected(edges, a, b)
    ensures b in s
  {
    ReachKeeps(Links(edges), x => x in s, a, b);
  }

  lemma ConnectedBack(edges: seq<Edge>, a: string, b: string)
    requires Connected(edges, a, b)
    ensures Connected(edges, b, a)
  {
    ReachBack(Links(edges), a, b);
  }

  lemma ConnectedJoin(edges: seq<Edge>, a: string, b: string, c: string)
    requires Connected(edges, a, b) && Connected(edges, b, c)
    ensures Connected(edges, a, c)
  {
    ReachJoin(Links(edges), a, b, c);
  }

  // ---------------------------------------------------------------- the report

  /** Larger clusters first, equally large ones by their smallest member. */
  predicate Before(c: seq<string>, d: seq<string>)
  {
    |c| > |d| || (|c| == |d| > 0 && LexLt(c[0], d[0]))
  }

  ghost predicate InSome(cs: seq<seq<string>>, x: string)
  {
    exists k :: 0 <= k < |cs| && x in cs[k]
  }

  /** What `find_relates_to_clusters` promises of its result. */
  ghost predicate ClusterReport(edges: seq<Edge>, cs: seq<seq<string>>)
  {
    && (forall k :: 0 <= k < |cs| ==> cs[k] != [] && StrictlyIncreasing(cs[k]))
    && (forall x :: Endpoint(edges, x) <==> InSome(cs, x))
    && (forall i, j, x, y :: 0 <= i < |cs| && 0 <= j < |cs| && x in cs[i] && y in cs[j] ==>
          (Connected(edges, x, y) <==> i == j))
    && StrictlySorted(Before, cs)
  }

  lemma AdjacentGrows(edges: seq<Edge>, e: Edge, a: string, b: string)
    ensures Adjacent(edges + [e], a, b) <==>
            Adjacent(edges, a, b) || (e.kind == RELATES_TO && ((e.source == a && e.target == b) || (e.source == b && e.target == a)))
  {
    assert forall d :: d in edges + [e] <==> d in edges || d == e;
  }

  /** `adj` and `nodes` after one more relation. */
  function AddRelation(adj: Neighbours, e: Edge): Neighbours
  {
    var adj' := adj[e.source := Around(adj, e.source) + {e.target}];
    adj'[e.target := Around(adj', e.target) + {e.source}]
  }

  method BuildNeighbours(edges: seq<Edge>) returns (adj: Neighbours, nodes: set<string>)
    ensures forall a, b :: b in Around(adj, a) <==> Adjacent(edges, a, b)
    ensures forall x :: x in nodes <==> Endpoint(edges, x)
  {
    adj, nodes := map[], {};
    for n := 0 to |edges|
      invariant forall a, b :: b in Around(adj, a) <==> Adjacent(edges[..n], a, b)
      invariant forall x :: x in nodes <==> Around(adj, x) != {}
    {
      var e := edges[n];
      assert edges[..n + 1] == edges[..n] + [e];
      ghost var was := adj;
      if e.kind == RELATES_TO {
        adj := AddRelation(adj, e);
        nodes := nodes + {e.source, e.target};
      }
      forall a, b ensures b in Around(adj, a) <==> Adjacent(edges[..n + 1], a, b) {
        AdjacentGrows(edges[..n], e, a, b);
        assert b in Around(was, a) <==> Adjacent(edges[..n], a, b);
      }
    }
    assert edges[..|edges|] == edges;
    forall x ensures x in nodes <==> Endpoint(edges, x) {
      if x in nodes {
        var y :| y in Around(adj, x);
        assert Adjacent(edges, x, y);
      }
    }
  }

  // ---------------------------------------------------------------- one component

  ghost function Members(c: seq<string>): set<string>
  {
    set x | x in c
  }

  /** The breadth-first search from `root`, with everything already visited in `done`. */
  ghost predicate BfsState(edges: seq<Edge>, nodes: set<string>, done: set<string>, root: string, queue: seq<string>,
                           component: seq<string>, visited: set<string>)
  {
    && visited == done + Members(component)
    && Distinct(component)
    && (root in component || root in queue)
    && (forall x :: x in component ==> Connected(edges, root, x) && x !in done && x in nodes)
    && (forall x :: x in queue ==> Connected(edges, root, x) && x in nodes)
    && (forall x, y :: x in component && Adjacent(edges, x, y) ==> y in visited || y in queue)
  }

  /** `current` was popped and had not been visited: it joins the component. Its neighbours are
      the only documents whose membership is still open. */
  lemma VisitKeeps(edges: seq<Edge>, nodes: set<string>, done: set<string>, root: string, queue: seq<string>,
                   component: seq<string>, visited: set<string>, current: string, more: seq<string>)
    requires Closed(edges, done) && root !in done
    requires BfsState(edges, nodes, done, root, [current] + queue, component, visited) && current !in visited
    requires forall y :: y in nodes <==> Endpoint(edges, y)
    requires forall y :: y in more ==> Adjacent(edges, current, y)
    requires forall y :: Adjacent(edges, current, y) ==> y in more || y in visited + {current}
    ensures BfsState(edges, nodes, done, root, queue + more, component + [current], visited + {current})
  {
    var component', queue' := component + [current], queue + more;
    assert forall x :: x in component' <==> x in component || x == current;
    assert forall x :: x in queue' <==> x in queue || x in more;
    assert forall x :: x in [current] + queue <==> x == current || x in queue;
    forall y | y in more ensures Connected(edges, root, y) && y in nodes {
      ConnectedStep(edges, root, current, y);
      assert Adjacent(edges, y, current);
    }
  }

  /** The component of `root`, in the order of the queue. */
  method FindComponent(ghost edges: seq<Edge>, ghost nodes: set<string>, adj: Neighbours, root: string, visited: set<string>)
    returns (component: seq<string>, visited': set<string>)
    requires forall a, b :: b in Around(adj, a) <==> Adjacent(edges, a, b)
    requires forall x :: x in nodes <==> Endpoint(edges, x)
    requires root in nodes && root !in visited && Closed(edges, visited)
    ensures root in component && Distinct(component)
    ensures forall x :: x in component <==> Connected(edges, root, x)
    ensures forall x :: x in component ==> x in nodes && x !in visited
    ensures visited' == visited + Members(component)
    ensures Closed(edges, visited')
  {
    component, visited' := [], visited;
    var queue := [root];
    ConnectedSelf(edges, root);
    while queue != []
      invariant BfsState(edges, nodes, visited, root, queue, component, visited')
      decreases nodes - visited', |queue|
    {
      var current := queue[0];
      ghost var queue0 := queue;
      queue := queue[1..];
      assert queue0 == [current] + queue;
      if current in visited' {
        if current in visited {
          ConnectedBack(edges, root, current);
          ConnectedStaysInside(edges, visited, current, root);
        }
        continue;
      }
      ghost var was, before := component, visited';
      visited' := visited' + {current};
      component := component + [current];
      var neighbors := SortSet(Around(adj, current));
      ghost var more: seq<string> := [];
      ghost var below := queue;
      for n := 0 to |neighbors|
        invariant queue == below + more
        invariant forall y :: y in more <==> y in neighbors[..n] && y !in visited'
      {
        if neighbors[n] !in visited' {
          queue := queue + [neighbors[n]];
          more := more + [neighbors[n]];
        }
      }
      assert neighbors[..|neighbors|] == neighbors;
      VisitKeeps(edges, nodes, visited, root, below, was, before, current, more);
    }
    ComponentComplete(edges, nodes, visited, root, component, visited');
  }

  /** With an empty queue the component is everything that `root` reaches. */
  lemma ComponentComplete(edges: seq<Edge>, nodes: set<string>, done: set<string>, root: string,
                          component: seq<string>, visited: set<string>)
    requires BfsState(edges, nodes, done, root, [], component, visited)
    requires Closed(edges, done) && root !in done
    ensures root in component && Closed(edges, visited)
    ensures forall x :: x in component <==> Connected(edges, root, x)
  {
    var inside := Members(component);
    assert Closed(edges, inside) by {
      forall x, y | x in inside && Adjacent(edges, x, y) ensures y in inside {
        assert y in visited;
        if y in done {
          assert Adjacent(edges, y, x);
        }
      }
    }
    forall x | Connected(edges, root, x) ensures x in component {
      ConnectedStaysInside(edges, inside, root, x);
    }
  }

  // ---------------------------------------------------------------- all components

  /** The clusters found so far, in discovery order. */
  ghost predicate Found(edges: seq<Edge>, done: set<string>, cs: seq<seq<string>>)
  {
    && Closed(edges, done)
    && (forall k :: 0 <= k < |cs| ==> cs[k] != [] && StrictlyIncreasing(cs[k]))
    && (forall x :: x in done <==> InSome(cs, x))
    && (forall k, x :: 0 <= k < |cs| && x in cs[k] ==> Connected(edges, cs[k][0], x))
    && (forall k, x :: 0 <= k < |cs| && Connected(edges, cs[k][0], x) ==> x in cs[k])
    && (forall i, j :: 0 <= i < j < |cs| ==> LexLt(cs[i][0], cs[j][0]))
  }

  predicate NotSmaller(c: seq<string>, d: seq<string>)
  {
    |c| >= |d|
  }

  /** The smallest member orders the clusters of equal size. */
  predicate HeadBefore(c: seq<string>, d: seq<string>)
  {
    |c| > 0 && |d| > 0 && LexLt(c[0], d[0])
  }

  lemma SortedClusters(edges: seq<Edge>, done: set<string>, found: seq<seq<string>>)
    requires Found(edges, done, found)
    ensures var cs := StableSort(NotSmaller, found);
            && TieSorted(NotSmaller, HeadBefore, cs)
            && (forall c :: c in cs <==> c in found)
            && StrictlySorted(Before, cs)
  {
    var cs := StableSort(NotSmaller, found);
    assert TotalPreorder(NotSmaller);
    StableSortBreaksTies(NotSmaller, HeadBefore, found);
    forall c ensures c in cs <==> c in found {
      SortMember(NotSmaller, found, c);
    }
  }

  lemma ReportFromFound(edges: seq<Edge>, done: set<string>, found: seq<seq<string>>)
    requires Found(edges, done, found) && forall x :: x in done <==> Endpoint(edges, x)
    ensures ClusterReport(edges, StableSort(NotSmaller, found))
  {
    var cs := StableSort(NotSmaller, found);
    SortedClusters(edges, done, found);
    SameUnion(found, cs);
    ClustersPartition(edges, done, found, cs);
  }

  lemma ClustersPartition(edges: seq<Edge>, done: set<string>, found: seq<seq<string>>, cs: seq<seq<string>>)
    requires Found(edges, done, found) && TieSorted(NotSmaller, HeadBefore, cs)
    requires forall c :: c in cs ==> c in found
    ensures forall k :: 0 <= k < |cs| ==> cs[k] != [] && StrictlyIncreasing(cs[k])
    ensures forall i, j, x, y :: 0 <= i < |cs| && 0 <= j < |cs| && x in cs[i] && y in cs[j] ==>
              (Connected(edges, x, y) <==> i == j)
  {
    forall i, j, x, y | 0 <= i < |cs| && 0 <= j < |cs| && x in cs[i] && y in cs[j]
      ensures Connected(edges, x, y) <==> i == j
    {
      SameCluster(edges, done, found, cs, i, j, x, y);
    }
    forall k | 0 <= k < |cs| ensures cs[k] != [] && StrictlyIncreasing(cs[k]) {
      assert cs[k] in found;
    }
  }

  lemma SameUnion(found: seq<seq<string>>, cs: seq<seq<string>>)
    requires forall c :: c in cs <==> c in found
    ensures forall x :: InSome(cs, x) <==> InSome(found, x)
  {
    forall x ensures InSome(cs, x) <==> InSome(found, x) {
      if k :| 0 <= k < |cs| && x in cs[k] {
        assert cs[k] in found;
      }
      if k :| 0 <= k < |found| && x in found[k] {
        assert found[k] in cs;
      }
    }
  }

  lemma SameCluster(edges: seq<Edge>, done: set<string>, found: seq<seq<string>>, cs: seq<seq<string>>,
                    i: nat, j: nat, x: string, y: string)
    requires Found(edges, done, found) && TieSorted(NotSmaller, HeadBefore, cs)
    requires forall c :: c in cs ==> c in found
    requires i < |cs| && j < |cs| && x in cs[i] && y in cs[j]
    ensures Connected(edges, x, y) <==> i == j
  {
    assert cs[i] in found && cs[j] in found;
    var a :| 0 <= a < |found| && found[a] == cs[i];
    var b :| 0 <= b < |found| && found[b] == cs[j];
    if Connected(edges, x, y) {
      ConnectedJoin(edges, found[a][0], x, y);
      ConnectedBack(edges, found[b][0], y);
      ConnectedJoin(edges, found[a][0], y, found[b][0]);
      assert found[b][0] in found[a];
      ConnectedBack(edges, found[a][0], found[b][0]);
      assert found[a][0] in found[b];
      HeadsAgree(found[a], found[b]);
      assert found[a][0] == found[b][0];
      assert a == b;
      TieSortedDistinct(cs);
    } else if i == j {
      ConnectedBack(edges, found[a][0], x);
      ConnectedJoin(edges, x, found[a][0], y);
    }
  }

  lemma TieSortedDistinct(cs: seq<seq<string>>)
    requires TieSorted(NotSmaller, HeadBefore, cs)
    ensures forall i, j :: 0 <= i < j < |cs| ==> cs[i] != cs[j]
  {
    forall i, j | 0 <= i < j < |cs| ensures cs[i] != cs[j] {
      assert NotSmaller(cs[j], cs[i]) ==> HeadBefore(cs[i], cs[j]);
    }
  }

  lemma HeadsAgree(c: seq<string>, d: seq<string>)
    requires StrictlyIncreasing(c) && StrictlyIncreasing(d) && c != [] && d != []
    requires d[0] in c && c[0] in d
    ensures c[0] == d[0]
  {
    if c[0] != d[0] {
      var k :| 0 <= k < |c| && c[k] == d[0];
      var l :| 0 <= l < |d| && d[l] == c[0];
      assert LexLt(c[0], c[k]) && LexLt(d[0], d[l]);
      LexAntisymmetric(c[0], d[0]);
    }
  }

  /** What each iteration of `for node in sorted(nodes)` keeps. */
  ghost predicate OuterState(edges: seq<Edge>, nodes: set<string>, order: seq<string>, n: nat,
                             done: set<string>, cs: seq<seq<string>>)
  {
    && n <= |order|
    && Found(edges, done, cs)
    && done <= nodes
    && (forall k :: 0 <= k < n ==> order[k] in done)
    && (forall k, m :: 0 <= k < |cs| && n <= m < |order| ==> LexLt(cs[k][0], order[m]))
  }

  /** `find_relates_to_clusters` */
  method FindClusters(edges: seq<Edge>) returns (clusters: seq<seq<string>>)
    ensures ClusterReport(edges, clusters)
  {
    var adj, nodes := BuildNeighbours(edges);
    var visited: set<string> := {};
    clusters := [];
    var order := SortSet(nodes);
    for n := 0 to |order|
      invariant OuterState(edges, nodes, order, n, visited, clusters)
    {
      var node := order[n];
      if node in visited {
        SkipKeeps(edges, nodes, order, n, visited, clusters);
        continue;
      }
      ghost var before := visited;
      var component;
      component, visited := FindComponent(edges, nodes, adj, node, visited);
      var sorted := SortStrings(component);
      FoundGrows(edges, nodes, before, clusters, order, n, component, sorted);
      clusters := clusters + [sorted];
    }
    AllFound(edges, nodes, order, visited, clusters);
    clusters := StableSort(NotSmaller, clusters);
  }

  lemma SkipKeeps(edges: seq<Edge>, nodes: set<string>, order: seq<string>, n: nat, done: set<string>, cs: seq<seq<string>>)
    requires OuterState(edges, nodes, order, n, done, cs) && n < |order| && order[n] in done
    ensures OuterState(edges, nodes, order, n + 1, done, cs)
  {
  }

  lemma AllFound(edges: seq<Edge>, nodes: set<string>, order: seq<string>, done: set<string>, cs: seq<seq<string>>)
    requires OuterState(edges, nodes, order, |order|, done, cs) && SortedListOf(order, nodes)
    requires forall x :: x in nodes <==> Endpoint(edges, x)
    ensures ClusterReport(edges, StableSort(NotSmaller, cs))
  {
    assert forall x :: x in nodes <==> x in order;
    ReportFromFound(edges, done, cs);
  }

  /** The first unvisited node in order is the smallest member of its cluster. */
  lemma RootIsHead(nodes: set<string>, done: set<string>, order: seq<string>, n: nat, component: seq<string>, sorted: seq<string>)
    requires SortedListOf(order, nodes) && n < |order| && forall k :: 0 <= k < n ==> order[k] in done
    requires order[n] in component && SortedListOf(sorted, Members(component))
    requires forall x :: x in component ==> x in nodes && x !in done
    ensures sorted != [] && sorted[0] == order[n]
  {
    assert order[n] in sorted && sorted[0] in sorted;
    assert sorted[0] in component && sorted[0] in order;
    var k :| 0 <= k < |order| && order[k] == sorted[0];
    if k > n {
      assert LexLt(order[n], order[k]);
      var l :| 0 <= l < |sorted| && sorted[l] == order[n];
      assert LexLt(sorted[0], sorted[l]);
      LexAntisymmetric(sorted[0], order[n]);
    }
  }

  lemma FoundGrows(edges: seq<Edge>, nodes: set<string>, done: set<string>, cs: seq<seq<string>>, order: seq<string>,
                   n: nat, component: seq<string>, sorted: seq<string>)
    requires n < |order| && OuterState(edges, nodes, order, n, done, cs)
    requires Closed(edges, done + Members(component)) && SortedListOf(order, nodes)
    requires order[n] in component && SortedListOf(sorted, Members(component))
    requires forall x :: x in component <==> Connected(edges, order[n], x)
    requires forall x :: x in component ==> x in nodes && x !in done
    ensures OuterState(edges, nodes, order, n + 1, done + Members(component), cs + [sorted])
  {
    RootIsHead(nodes, done, order, n, component, sorted);
    var cs', done' := cs + [sorted], done + Members(component);
    assert forall x :: x in sorted <==> x in component;
    forall x ensures x in done' <==> InSome(cs', x) {
      if x in done {
        var k :| 0 <= k < |cs| && x in cs[k];
        assert x in cs'[k];
      } else if x in component {
        assert x in cs'[|cs|];
      }
    }
    forall k, m | 0 <= k < |cs'| && n + 1 <= m < |order| ensures LexLt(cs'[k][0], order[m]) {
      assert LexLt(order[n], order[m]);
    }
  }

  /** The report is determined by who relates to whom: order, repetition and direction of the
      relations make no difference. */
  lemma ReportIsUnique(e1: seq<Edge>, cs1: seq<seq<string>>, e2: seq<Edge>, cs2: seq<seq<string>>)
    requires ClusterReport(e1, cs1) && ClusterReport(e2, cs2)
    requires forall a, b :: Adjacent(e1, a, b) <==> Adjacent(e2, a, b)
    ensures cs1 == cs2
  {
    LexLtAsymmetric();
    forall c ensures c in cs1 <==> c in cs2 {
      if c in cs1 { ClusterCarries(e1, cs1, e2, cs2, c); }
      if c in cs2 { ClusterCarries(e2, cs2, e1, cs1, c); }
    }
    assert Asymmetric(Before);
    StrictlySortedUnique(Before, cs1, cs2);
  }

  lemma ConnectedCarries(e1: seq<Edge>, e2: seq<Edge>, a: string, b: string)
    requires forall x, y :: Adjacent(e1, x, y) ==> Adjacent(e2, x, y)
    requires Connected(e1, a, b)
    ensures Connected(e2, a, b)
  {
    ReachMore(Links(e1), Links(e2), a, b);
  }

  lemma ClusterCarries(e1: seq<Edge>, cs1: seq<seq<string>>, e2: seq<Edge>, cs2: seq<seq<string>>, c: seq<string>)
    requires ClusterReport(e1, cs1) && ClusterReport(e2, cs2) && c in cs1
    requires forall a, b :: Adjacent(e1, a, b) <==> Adjacent(e2, a, b)
    ensures c in cs2
  {
    var i :| 0 <= i < |cs1| && cs1[i] == c;
    var x := c[0];
    assert Endpoint(e1, x);
    var y :| Adjacent(e1, x, y);
    assert Adjacent(e2, x, y);
    assert Endpoint(e2, x);
    var j :| 0 <= j < |cs2| && x in cs2[j];
    forall z ensures z in c <==> z in cs2[j] {
      if z in c {
        InSameCluster(e1, cs1, e2, cs2, i, j, x, z);
      }
      if z in cs2[j] {
        InSameCluster(e2, cs2, e1, cs1, j, i, x, z);
      }
    }
    SortedListUnique(c, cs2[j], Members(c));
  }

  lemma InSameCluster(e1: seq<Edge>, cs1: seq<seq<string>>, e2: seq<Edge>, cs2: seq<seq<string>>,
                      i: nat, j: nat, x: string, z: string)
    requires ClusterReport(e1, cs1) && ClusterReport(e2, cs2) && i < |cs1| && j < |cs2|
    requires forall a, b :: Adjacent(e1, a, b) <==> Adjacent(e2, a, b)
    requires x in cs1[i] && x in cs2[j] && z in cs1[i]
    ensures z in cs2[j]
  {
    assert Connected(e1, x, z);
    ConnectedCarries(e1, e2, x, z);
    assert Endpoint(e1, z);
    var y :| Adjacent(e1, z, y);
    assert Adjacent(e2, z, y);
    assert Endpoint(e2, z);
    var k :| 0 <= k < |cs2| && z in cs2[k];
    assert k == j;
  }
}
