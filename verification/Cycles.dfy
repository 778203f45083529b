/** Cycle detection over depends_on relations: the explicit-stack depth-first search of
    `find_cycles`, proved against reachability in the relation graph. */
module Cycles {
  import opened Ordering
  import opened RelationGraph

  /** Insertion-ordered adjacency lists: the `defaultdict(list)` that the search reads. */
  type Rows = map<string, seq<string>>

  /** `graph.get(node, [])` */
  function Row(g: Rows, node: string): seq<string>
  {
    if node in g then g[node] else []
  }

  /** The depends_on targets of `source`, in declaration order. */
  function Targets(edges: seq<Edge>, source: string): (ts: seq<string>)
  {
    if |edges| == 0 then []
    else
      var e := edges[|edges| - 1];
      Targets(edges[..|edges| - 1], source) +
      if e.source == source && e.kind == DEPENDS_ON then [e.target] else []
  }

  lemma TargetsAreArcs(edges: seq<Edge>, source: string)
    ensures forall t :: t in Targets(edges, source) <==> DependsOn(edges, source, t)
  {
    if |edges| == 0 {
    } else {
      var init, e := edges[..|edges| - 1], edges[|edges| - 1];
      TargetsAreArcs(init, source);
      assert edges == init + [e];
      forall t ensures t in Targets(edges, source) <==> DependsOn(edges, source, t) {
        assert DependsOn(edges, source, t) <==>
               DependsOn(init, source, t) || e == Edge(source, DEPENDS_ON, t);
      }
    }
  }

  /** The adjacency rows agree with the relation list: every source with a depends_on
      relation is a key, and its row lists its targets in declaration order. */
  ghost predicate Represents(g: Rows, edges: seq<Edge>)
  {
    && (forall s :: Row(g, s) == Targets(edges, s))
    && (forall s :: s in g ==> |g[s]| > 0)
  }

  lemma AddRow(g: Rows, edges: seq<Edge>, n: nat)
    requires n < |edges| && Represents(g, edges[..n])
    ensures var e := edges[n];
            Represents(if e.kind == DEPENDS_ON then g[e.source := Row(g, e.source) + [e.target]] else g, edges[..n + 1])
  {
    var e := edges[n];
    var g' := if e.kind == DEPENDS_ON then g[e.source := Row(g, e.source) + [e.target]] else g;
    assert edges[..n + 1][..n] == edges[..n];
    forall s ensures Row(g', s) == Targets(edges[..n + 1], s) {
      assert Row(g, s) == Targets(edges[..n], s);
    }
  }

  method BuildRows(edges: seq<Edge>) returns (keys: seq<string>, g: Rows)
    ensures Represents(g, edges)
    ensures Distinct(keys) && keys == Sources(edges) && forall s :: s in keys <==> s in g
  {
    keys, g := [], map[];
    var n := 0;
    while n < |edges|
      invariant 0 <= n <= |edges|
      invariant Represents(g, edges[..n])
      invariant Distinct(keys) && keys == Sources(edges[..n]) && forall s :: s in keys <==> s in g
    {
      var e := edges[n];
      assert edges[..n + 1][..n] == edges[..n];
      AddRow(g, edges, n);
      if e.kind == DEPENDS_ON {
        if e.source !in g {
          keys := keys + [e.source];
        }
        g := g[e.source := Row(g, e.source) + [e.target]];
      }
      n := n + 1;
    }
    assert edges[..n] == edges;
  }

  // ---------------------------------------------------------------- what is reported

  /** A reported cycle: a closed walk of real relations that repeats only its endpoint. */
  ghost predicate SimpleCycle(edges: seq<Edge>, c: seq<string>)
  {
    ClosedWalk(edges, {}, c) && Distinct(c[..|c| - 1])
  }

  function ClosingArc(c: seq<string>): (string, string)
    requires |c| >= 2
  {
    (c[|c| - 2], c[|c| - 1])
  }

  /** The last arc of every reported cycle. */
  ghost function ClosingArcs(cycles: seq<seq<string>>): set<(string, string)>
  {
    set c | c in cycles && |c| >= 2 :: ClosingArc(c)
  }

  // ---------------------------------------------------------------- search state

  /** A stack entry `(node, path, idx)`. */
  datatype Frame = Frame(node: string, path: seq<string>, next: nat)

  /** `path.index(x)` */
  function IndexOf(s: seq<string>, x: string): (i: nat)
    requires x in s
    ensures i < |s| && s[i] == x && forall k :: 0 <= k < i ==> s[k] != x
  {
    if s[0] == x then 0 else
      var i := IndexOf(s[1..], x);
      assert forall k :: 0 < k < i + 1 ==> s[k] == s[1..][k - 1];
      i + 1
  }

  ghost predicate TrailStep(g: Rows, trail: seq<string>, k: nat)
    requires k + 1 < |trail|
  {
    trail[k + 1] in Row(g, trail[k])
  }

  /** The walk from the start node to the node being explored. */
  ghost predicate TrailOk(g: Rows, trail: seq<string>, visited: set<string>)
  {
    && Distinct(trail)
    && (forall k :: 0 <= k < |trail| - 1 ==> TrailStep(g, trail, k))
    && (forall x :: x in trail ==> x !in visited)
  }

  /** The first n arcs of `node` need no more work: each leads to a finished node, closes a
      reported cycle, or is the arc to `child` that is being explored now. */
  ghost predicate Explored(g: Rows, node: string, n: nat, child: seq<string>,
                           visited: set<string>, cut: set<(string, string)>)
  {
    && n <= |Row(g, node)|
    && forall j :: 0 <= j < n ==>
         var v := Row(g, node)[j];
         v in visited || (node, v) in cut || (j == n - 1 && child == [v])
  }

  /** A suspended frame at depth k of the trail. */
  ghost predicate SuspendedAt(g: Rows, f: Frame, k: nat, trail: seq<string>,
                              visited: set<string>, cut: set<(string, string)>)
    requires k < |trail|
  {
    && f.node == trail[k]
    && f.path == trail[..k + 1]
    && f.next > 0
    && Explored(g, f.node, f.next, if k + 1 < |trail| then [trail[k + 1]] else [], visited, cut)
  }

  ghost predicate Suspended(g: Rows, stack: seq<Frame>, trail: seq<string>,
                            visited: set<string>, cut: set<(string, string)>)
  {
    && |stack| <= |trail|
    && forall k {:trigger stack[k]} :: 0 <= k < |stack| ==> SuspendedAt(g, stack[k], k, trail, visited, cut)
  }

  /** Finish times rank the finished nodes: every arc that closes no reported cycle leads to an
      earlier finish. */
  ghost predicate Ranked(g: Rows, fin: map<string, nat>, cut: set<(string, string)>)
  {
    forall u, v {:trigger v in Row(g, u)} :: u in fin && v in Row(g, u) && (u, v) !in cut ==>
      v in fin && fin[v] < fin[u]
  }

  /** Arcs that run downhill in a ranking close no walk. */
  lemma {:induction false} WalkDescends(g: Rows, edges: seq<Edge>, fin: map<string, nat>, cut: set<(string, string)>,
                     w: seq<string>, n: nat)
    requires Represents(g, edges) && Ranked(g, fin, cut) && g.Keys <= fin.Keys
    requires ClosedWalk(edges, cut, w) && 1 <= n < |w|
    ensures w[0] in fin && w[n] in fin && fin[w[n]] < fin[w[0]]
  {
    if n > 1 {
      WalkDescends(g, edges, fin, cut, w, n - 1);
    }
    assert WalkStep(edges, cut, w, n - 1);
    TargetsAreArcs(edges, w[n - 1]);
    assert w[n] in Row(g, w[n - 1]);
    assert w[n - 1] in g;
  }

  lemma RankedIsAcyclic(g: Rows, edges: seq<Edge>, fin: map<string, nat>, cut: set<(string, string)>)
    requires Represents(g, edges) && Ranked(g, fin, cut) && g.Keys <= fin.Keys
    ensures AcyclicWithout(edges, cut)
  {
    forall w ensures !ClosedWalk(edges, cut, w) {
      if ClosedWalk(edges, cut, w) {
        WalkDescends(g, edges, fin, cut, w, |w| - 1);
      }
    }
  }

  lemma ArcIsRelation(g: Rows, edges: seq<Edge>, u: string, v: string)
    requires Represents(g, edges) && v in Row(g, u)
    ensures DependsOn(edges, u, v)
  {
    TargetsAreArcs(edges, u);
  }

  lemma TrailIsWalk(g: Rows, edges: seq<Edge>, trail: seq<string>, visited: set<string>, at: nat)
    requires Represents(g, edges) && TrailOk(g, trail, visited) && at < |trail|
    requires trail[at] in Row(g, trail[|trail| - 1])
    ensures var c := trail[at..] + [trail[at]];
            ClosedWalk(edges, {}, c) && ClosingArc(c) == (trail[|trail| - 1], trail[at])
  {
    var c := trail[at..] + [trail[at]];
    forall i | 0 <= i < |c| - 1 ensures WalkStep(edges, {}, c, i) {
      TrailStepIsWalkStep(g, edges, trail, visited, at, i);
    }
  }

  lemma TrailStepIsWalkStep(g: Rows, edges: seq<Edge>, trail: seq<string>, visited: set<string>, at: nat, i: nat)
    requires Represents(g, edges) && TrailOk(g, trail, visited) && at + i < |trail|
    requires trail[at] in Row(g, trail[|trail| - 1])
    ensures WalkStep(edges, {}, trail[at..] + [trail[at]], i)
  {
    var c, k := trail[at..] + [trail[at]], at + i;
    assert c[i] == trail[k];
    if k + 1 < |trail| {
      assert c[i + 1] == trail[k + 1];
      assert TrailStep(g, trail, k);
    }
    ArcIsRelation(g, edges, c[i], c[i + 1]);
  }

  /** A neighbour on the trail closes a simple cycle through the current node. */
  lemma TrailClosesCycle(g: Rows, edges: seq<Edge>, trail: seq<string>, visited: set<string>, v: string)
    requires Represents(g, edges) && TrailOk(g, trail, visited) && v in trail
    requires v in Row(g, trail[|trail| - 1])
    ensures var c := (trail + [v])[IndexOf(trail + [v], v)..];
            SimpleCycle(edges, c) && ClosingArc(c) == (trail[|trail| - 1], v)
  {
    var at := IndexOf(trail + [v], v);
    FirstIndex(trail, v);
    TrailIsWalk(g, edges, trail, visited, at);
    assert (trail[at..] + [v])[..|trail| - at] == trail[at..];
  }

  lemma FirstIndex(trail: seq<string>, v: string)
    requires v in trail
    ensures var at := IndexOf(trail + [v], v);
            at < |trail| && trail[at] == v && (trail + [v])[at..] == trail[at..] + [v]
  {
    var k :| 0 <= k < |trail| && trail[k] == v;
    assert (trail + [v])[k] == v;
  }

  ghost function Elements(s: seq<string>): set<string>
  {
    set x | x in s
  }

  ghost function AllNodes(edges: seq<Edge>): set<string>
  {
    (set e | e in edges :: e.source) + (set e | e in edges :: e.target)
  }

  lemma ArcsStayInside(g: Rows, edges: seq<Edge>, u: string, v: string)
    requires Represents(g, edges) && v in Row(g, u)
    ensures u in AllNodes(edges) && v in AllNodes(edges)
  {
    TargetsAreArcs(edges, u);
    assert DependsOn(edges, u, v);
  }

  /** The state between two iterations: only the top frame may be fresh, and the gray set is
      exactly the trail of suspended frames. */
  ghost predicate AtHead(g: Rows, stack: seq<Frame>, trail: seq<string>, inStack: set<string>,
                         visited: set<string>, cut: set<(string, string)>)
  {
    var n := |stack|;
    && |trail| == n
    && TrailOk(g, trail, visited)
    && if n > 0 && stack[n - 1].next == 0 then
         && Suspended(g, stack[..n - 1], trail, visited, cut)
         && stack[n - 1] == Frame(trail[n - 1], trail, 0)
         && inStack == Elements(trail[..n - 1])
       else
         Suspended(g, stack, trail, visited, cut) && inStack == Elements(trail)
  }

  /** The state while the popped node, the end of the trail, is being explored. */
  ghost predicate Exploring(g: Rows, stack: seq<Frame>, trail: seq<string>, n: nat, inStack: set<string>,
                            visited: set<string>, cut: set<(string, string)>)
  {
    && |trail| == |stack| + 1
    && TrailOk(g, trail, visited)
    && Suspended(g, stack, trail, visited, cut)
    && Explored(g, trail[|stack|], n, [], visited, cut)
    && inStack == Elements(trail)
  }

  lemma PopExplores(g: Rows, stack: seq<Frame>, trail: seq<string>, inStack: set<string>,
                    visited: set<string>, cut: set<(string, string)>)
    requires AtHead(g, stack, trail, inStack, visited, cut) && |stack| > 0
    ensures var n := |stack| - 1;
            var f := stack[n];
            && f.node == trail[n] && f.path == trail && f.node !in visited
            && (f.next == 0 ==> f.node !in inStack)
            && Exploring(g, stack[..n], trail, f.next, inStack + (if f.next == 0 then {f.node} else {}), visited, cut)
  {
    var n := |stack| - 1;
    assert trail == trail[..n] + [trail[n]];
    if stack[n].next > 0 {
      assert trail[..n + 1] == trail;
    }
  }

  lemma TrailGrows(g: Rows, trail: seq<string>, visited: set<string>, v: string)
    requires TrailOk(g, trail, visited) && |trail| > 0 && v in Row(g, trail[|trail| - 1])
    requires v !in trail && v !in visited
    ensures TrailOk(g, trail + [v], visited)
  {
    var trail' := trail + [v];
    forall k | 0 <= k < |trail'| - 1 ensures TrailStep(g, trail', k)
    {
      assert k + 1 < |trail| ==> TrailStep(g, trail, k);
    }
  }

  lemma PushKeepsHead(g: Rows, stack: seq<Frame>, trail: seq<string>, i: nat, inStack: set<string>,
                      visited: set<string>, cut: set<(string, string)>)
    requires Exploring(g, stack, trail, i, inStack, visited, cut)
    requires i < |Row(g, trail[|stack|])|
    requires Row(g, trail[|stack|])[i] !in inStack && Row(g, trail[|stack|])[i] !in visited
    ensures var v := Row(g, trail[|stack|])[i];
            AtHead(g, stack + [Frame(trail[|stack|], trail, i + 1), Frame(v, trail + [v], 0)],
                   trail + [v], inStack, visited, cut)
  {
    var v := Row(g, trail[|stack|])[i];
    var trail' := trail + [v];
    var below := stack + [Frame(trail[|stack|], trail, i + 1)];
    var stack' := stack + [Frame(trail[|stack|], trail, i + 1), Frame(v, trail', 0)];
    assert stack'[..|below|] == below;
    assert trail'[..|trail|] == trail;
    assert v !in trail;
    TrailGrows(g, trail, visited, v);
    forall k | 0 <= k < |below| ensures SuspendedAt(g, below[k], k, trail', visited, cut)
    {
      if k < |stack| {
        assert below[k] == stack[k];
        StaysSuspended(g, stack[k], k, trail, visited, cut, v);
      } else {
        assert trail'[..k + 1] == trail;
      }
    }
  }

  /** A frame further down does not see the trail grow. */
  lemma StaysSuspended(g: Rows, f: Frame, k: nat, trail: seq<string>, visited: set<string>,
                       cut: set<(string, string)>, v: string)
    requires k + 1 < |trail| && SuspendedAt(g, f, k, trail, visited, cut)
    ensures SuspendedAt(g, f, k, trail + [v], visited, cut)
  {
    assert (trail + [v])[..k + 1] == trail[..k + 1];
  }

  lemma FinishKeepsHead(g: Rows, stack: seq<Frame>, trail: seq<string>, inStack: set<string>,
                        visited: set<string>, fin: map<string, nat>, clock: nat, cut: set<(string, string)>)
    requires |trail| == |stack| + 1
    requires Exploring(g, stack, trail, |Row(g, trail[|stack|])|, inStack, visited, cut)
    requires visited == fin.Keys && Ranked(g, fin, cut) && forall u :: u in fin ==> fin[u] < clock
    ensures var node := trail[|stack|];
            && AtHead(g, stack, trail[..|stack|], inStack - {node}, visited + {node}, cut)
            && Ranked(g, fin[node := clock], cut)
            && Elements(trail[..|stack|]) == Elements(trail) - {node}
  {
    var node := trail[|stack|];
    var trail' := trail[..|stack|];
    assert trail == trail' + [node];
    assert node !in trail';
    forall k | 0 <= k < |stack|
      ensures SuspendedAt(g, stack[k], k, trail', visited + {node}, cut)
    {
      assert trail[..k + 1] == trail'[..k + 1];
    }
    forall k | 0 <= k < |trail'| - 1 ensures TrailStep(g, trail', k)
    {
      assert TrailStep(g, trail, k);
    }
    assert |stack| > 0 ==> stack[|stack| - 1].next > 0;
  }

  /** A longer list of reported cycles only relaxes what is still to be explored. */
  lemma CutGrows(g: Rows, stack: seq<Frame>, trail: seq<string>, n: nat, inStack: set<string>,
                 visited: set<string>, cut: set<(string, string)>, cut': set<(string, string)>)
    requires Exploring(g, stack, trail, n, inStack, visited, cut) && cut <= cut'
    ensures Exploring(g, stack, trail, n, inStack, visited, cut')
  {
    forall k | 0 <= k < |stack| ensures SuspendedAt(g, stack[k], k, trail, visited, cut') {
      assert SuspendedAt(g, stack[k], k, trail, visited, cut);
    }
  }

  // ---------------------------------------------------------------- how often an arc is reported

  /** The number of reported cycles that the arc closes. */
  function Reports(cycles: seq<seq<string>>, u: string, v: string): nat
  {
    if |cycles| == 0 then 0
    else
      var c := cycles[|cycles| - 1];
      Reports(cycles[..|cycles| - 1], u, v) + if |c| >= 2 && ClosingArc(c) == (u, v) then 1 else 0
  }

  /** How often v occurs among the first n targets of u. */
  function Seen(g: Rows, u: string, n: nat, v: string): nat
    requires n <= |Row(g, u)|
  {
    multiset(Row(g, u)[..n])[v]
  }

  /** Of the first n targets of u, each occurrence of a node on the trail up to u has been reported
      once, and nothing else. */
  ghost predicate CountedTo(g: Rows, u: string, n: nat, above: seq<string>, cycles: seq<seq<string>>)
  {
    && n <= |Row(g, u)|
    && forall v :: Reports(cycles, u, v) == if v in above then Seen(g, u, n, v) else 0
  }

  /** A finished node: each of its arcs has been reported never, or once for each occurrence. */
  ghost predicate CountedOut(g: Rows, u: string, cycles: seq<seq<string>>)
  {
    forall v :: Reports(cycles, u, v) == 0 || Reports(cycles, u, v) == multiset(Row(g, u))[v]
  }

  ghost predicate Untouched(u: string, cycles: seq<seq<string>>)
  {
    forall v :: Reports(cycles, u, v) == 0
  }

  /** The reports of all nodes: on the trail as far as their rows are scanned, finished ones
      completely, the others not at all. */
  ghost predicate Tallied(g: Rows, frames: seq<Frame>, trail: seq<string>, visited: set<string>, cycles: seq<seq<string>>)
  {
    && |frames| == |trail| && Distinct(trail) && (forall x :: x in trail ==> x !in visited)
    && (forall k {:trigger frames[k]} :: 0 <= k < |frames| ==>
          CountedTo(g, trail[k], frames[k].next, trail[..k + 1], cycles))
    && (forall u :: u in visited ==> CountedOut(g, u, cycles))
    && (forall u :: u !in visited && u !in trail ==> Untouched(u, cycles))
  }

  lemma ReportsSnoc(cycles: seq<seq<string>>, c: seq<string>, u: string, v: string)
    ensures Reports(cycles + [c], u, v) == Reports(cycles, u, v) + if |c| >= 2 && ClosingArc(c) == (u, v) then 1 else 0
  {
    assert (cycles + [c])[..|cycles|] == cycles;
  }

  lemma SeenSnoc(g: Rows, u: string, n: nat, v: string)
    requires n < |Row(g, u)|
    ensures Seen(g, u, n + 1, v) == Seen(g, u, n, v) + if Row(g, u)[n] == v then 1 else 0
  {
    assert Row(g, u)[..n + 1] == Row(g, u)[..n] + [Row(g, u)[n]];
  }

  /** The next target lies on the trail and its cycle is reported. */
  lemma CountReport(g: Rows, u: string, n: nat, above: seq<string>, cycles: seq<seq<string>>, c: seq<string>)
    requires CountedTo(g, u, n, above, cycles) && n < |Row(g, u)|
    requires Row(g, u)[n] in above && |c| >= 2 && ClosingArc(c) == (u, Row(g, u)[n])
    ensures CountedTo(g, u, n + 1, above, cycles + [c])
  {
    forall v ensures Reports(cycles + [c], u, v) == if v in above then Seen(g, u, n + 1, v) else 0 {
      ReportsSnoc(cycles, c, u, v);
      SeenSnoc(g, u, n, v);
    }
  }

  /** The next target does not lie on the trail. */
  lemma CountSkip(g: Rows, u: string, n: nat, above: seq<string>, cycles: seq<seq<string>>)
    requires CountedTo(g, u, n, above, cycles) && n < |Row(g, u)| && Row(g, u)[n] !in above
    ensures CountedTo(g, u, n + 1, above, cycles)
  {
    forall v ensures v in above ==> Seen(g, u, n + 1, v) == Seen(g, u, n, v) {
      SeenSnoc(g, u, n, v);
    }
  }

  /** Nothing changes for the other nodes. */
  lemma OthersKeep(cycles: seq<seq<string>>, c: seq<string>, u: string)
    requires |c| >= 2 && ClosingArc(c).0 != u
    ensures forall v :: Reports(cycles + [c], u, v) == Reports(cycles, u, v)
  {
    forall v ensures Reports(cycles + [c], u, v) == Reports(cycles, u, v) {
      ReportsSnoc(cycles, c, u, v);
    }
  }

  lemma TallyReport(g: Rows, stack: seq<Frame>, top: Frame, trail: seq<string>, visited: set<string>,
                    cycles: seq<seq<string>>, c: seq<string>)
    requires Tallied(g, stack + [top], trail, visited, cycles)
    requires top.next < |Row(g, trail[|stack|])| && Row(g, trail[|stack|])[top.next] in trail
    requires |c| >= 2 && ClosingArc(c) == (trail[|stack|], Row(g, trail[|stack|])[top.next])
    ensures Tallied(g, stack + [top.(next := top.next + 1)], trail, visited, cycles + [c])
  {
    var u, frames := trail[|stack|], stack + [top.(next := top.next + 1)];
    forall k | 0 <= k < |frames| ensures CountedTo(g, trail[k], frames[k].next, trail[..k + 1], cycles + [c]) {
      assert CountedTo(g, trail[k], (stack + [top])[k].next, trail[..k + 1], cycles);
      if k < |stack| {
        OthersKeep(cycles, c, trail[k]);
      } else {
        assert trail[..k + 1] == trail;
        CountReport(g, u, top.next, trail, cycles, c);
      }
    }
    forall x | x in visited ensures CountedOut(g, x, cycles + [c]) {
      OthersKeep(cycles, c, x);
      assert CountedOut(g, x, cycles);
    }
    forall x | x !in visited && x !in trail ensures Untouched(x, cycles + [c]) {
      OthersKeep(cycles, c, x);
      assert Untouched(x, cycles);
    }
  }

  lemma TallySkip(g: Rows, stack: seq<Frame>, top: Frame, trail: seq<string>, visited: set<string>,
                  cycles: seq<seq<string>>)
    requires Tallied(g, stack + [top], trail, visited, cycles)
    requires top.next < |Row(g, trail[|stack|])| && Row(g, trail[|stack|])[top.next] !in trail
    ensures Tallied(g, stack + [top.(next := top.next + 1)], trail, visited, cycles)
  {
    var u, frames := trail[|stack|], stack + [top.(next := top.next + 1)];
    forall k | 0 <= k < |frames| ensures CountedTo(g, trail[k], frames[k].next, trail[..k + 1], cycles) {
      assert CountedTo(g, trail[k], (stack + [top])[k].next, trail[..k + 1], cycles);
      if k == |stack| {
        assert trail[..k + 1] == trail;
        CountSkip(g, u, top.next, trail, cycles);
      }
    }
  }

  /** A fresh frame for a node that is neither on the trail nor finished. */
  lemma TallyPush(g: Rows, frames: seq<Frame>, trail: seq<string>, visited: set<string>, cycles: seq<seq<string>>,
                  f: Frame, v: string)
    requires Tallied(g, frames, trail, visited, cycles) && f.next == 0 && v !in trail && v !in visited
    ensures Tallied(g, frames + [f], trail + [v], visited, cycles)
  {
    var frames', trail' := frames + [f], trail + [v];
    forall k | 0 <= k < |frames'| ensures CountedTo(g, trail'[k], frames'[k].next, trail'[..k + 1], cycles) {
      if k < |frames| {
        assert trail'[..k + 1] == trail[..k + 1];
        assert CountedTo(g, trail[k], frames[k].next, trail[..k + 1], cycles);
      } else {
        assert Untouched(v, cycles);
        assert Row(g, v)[..0] == [];
      }
    }
    forall u | u !in visited && u !in trail' ensures Untouched(u, cycles) {
      assert u !in trail;
    }
  }

  /** The row of the top frame is scanned to its end. */
  lemma TallyFinish(g: Rows, stack: seq<Frame>, top: Frame, trail: seq<string>, visited: set<string>,
                    cycles: seq<seq<string>>)
    requires Tallied(g, stack + [top], trail, visited, cycles) && top.next == |Row(g, trail[|stack|])|
    ensures Tallied(g, stack, trail[..|stack|], visited + {trail[|stack|]}, cycles)
  {
    var u, trail', visited' := trail[|stack|], trail[..|stack|], visited + {trail[|stack|]};
    assert trail == trail' + [u];
    assert CountedTo(g, u, (stack + [top])[|stack|].next, trail[..|stack| + 1], cycles);
    assert Row(g, u)[..|Row(g, u)|] == Row(g, u);
    forall k | 0 <= k < |stack| ensures CountedTo(g, trail'[k], stack[k].next, trail'[..k + 1], cycles) {
      assert trail'[..k + 1] == trail[..k + 1];
      assert CountedTo(g, trail[k], (stack + [top])[k].next, trail[..k + 1], cycles);
    }
    forall x | x !in visited' && x !in trail' ensures Untouched(x, cycles) {
      assert x !in trail;
    }
  }

  lemma {:induction false} TargetsCount(edges: seq<Edge>, u: string, v: string)
    ensures multiset(Targets(edges, u))[v] == multiset(edges)[Edge(u, DEPENDS_ON, v)]
  {
    if |edges| > 0 {
      TargetsCount(edges[..|edges| - 1], u, v);
      assert edges == edges[..|edges| - 1] + [edges[|edges| - 1]];
    }
  }

  // ---------------------------------------------------------------- the recursive search

  /** The finished nodes and the reports so far. */
  datatype Found = Found(visited: set<string>, cycles: seq<seq<string>>)

  /** `cycle_path[cycle_path.index(neighbor):]` */
  function CycleFrom(path: seq<string>, v: string): seq<string>
  {
    (path + [v])[IndexOf(path + [v], v)..]
  }

  lemma TargetIsNode(edges: seq<Edge>, node: string, i: nat)
    requires i < |Targets(edges, node)|
    ensures Targets(edges, node)[i] in AllNodes(edges)
  {
    TargetsAreArcs(edges, node);
    assert DependsOn(edges, node, Targets(edges, node)[i]);
  }

  /** Depth-first search written as a recursion: look at the targets of the node from the i-th on,
      report those on the path, descend into the new ones, then finish the node. */
  ghost function Explore(edges: seq<Edge>, node: string, path: seq<string>, i: nat, s: Found): (r: Found)
    ensures s.visited + {node} <= r.visited
    decreases AllNodes(edges) - s.visited - Elements(path), |Targets(edges, node)| - i
  {
    if i >= |Targets(edges, node)| then s.(visited := s.visited + {node})
    else
      var v := Targets(edges, node)[i];
      if v in path then Explore(edges, node, path, i + 1, s.(cycles := s.cycles + [CycleFrom(path, v)]))
      else if v in s.visited then Explore(edges, node, path, i + 1, s)
      else
        assert v in AllNodes(edges) - s.visited - Elements(path) by { TargetIsNode(edges, node, i); }
        var below := Explore(edges, v, path + [v], 0, s);
        Explore(edges, node, path, i + 1, below)
  }

  /** The sources of depends_on relations, by first occurrence. */
  function Sources(edges: seq<Edge>): seq<string>
  {
    if |edges| == 0 then []
    else
      var init, e := Sources(edges[..|edges| - 1]), edges[|edges| - 1];
      if e.kind == DEPENDS_ON && e.source !in init then init + [e.source] else init
  }

  /** Start from each node that is not finished yet. */
  ghost function SearchAll(edges: seq<Edge>, starts: seq<string>): Found
  {
    if |starts| == 0 then Found({}, [])
    else
      var s, start := SearchAll(edges, starts[..|starts| - 1]), starts[|starts| - 1];
      if start in s.visited then s else Explore(edges, start, [start], 0, s)
  }

  /** What the frames on the stack still have to do, top first. */
  ghost function Resume(edges: seq<Edge>, stack: seq<Frame>, s: Found): Found
  {
    if |stack| == 0 then s
    else
      var f := stack[|stack| - 1];
      Resume(edges, stack[..|stack| - 1], Explore(edges, f.node, f.path, f.next, s))
  }

  lemma ResumeTop(edges: seq<Edge>, stack: seq<Frame>, f: Frame, s: Found)
    ensures Resume(edges, stack + [f], s) == Resume(edges, stack, Explore(edges, f.node, f.path, f.next, s))
  {
    assert (stack + [f])[..|stack|] == stack;
  }

  /** A property of the stack and of what was found so far. */
  type Property = (seq<Frame>, Found) -> bool

  /** Reporting the next target, which lies on the path, keeps the property. */
  ghost predicate ReportAt(g: Rows, K: Property, stack: seq<Frame>, node: string, path: seq<string>, i: nat, s: Found)
  {
    K(stack + [Frame(node, path, i)], s) && i < |Row(g, node)| && Row(g, node)[i] in path ==>
      K(stack + [Frame(node, path, i + 1)], s.(cycles := s.cycles + [CycleFrom(path, Row(g, node)[i])]))
  }

  /** So does passing over a finished target, */
  ghost predicate PassAt(g: Rows, K: Property, stack: seq<Frame>, node: string, path: seq<string>, i: nat, s: Found)
  {
    K(stack + [Frame(node, path, i)], s) && i < |Row(g, node)| && Row(g, node)[i] !in path && Row(g, node)[i] in s.visited ==>
      K(stack + [Frame(node, path, i + 1)], s)
  }

  /** descending to a new one, */
  ghost predicate PushAt(g: Rows, K: Property, stack: seq<Frame>, node: string, path: seq<string>, i: nat, s: Found)
  {
    K(stack + [Frame(node, path, i)], s) && i < |Row(g, node)| && Row(g, node)[i] !in path && Row(g, node)[i] !in s.visited ==>
      var v := Row(g, node)[i];
      K(stack + [Frame(node, path, i + 1)] + [Frame(v, path + [v], 0)], s)
  }

  /** and finishing the node at the end of its row. */
  ghost predicate FinishAt(g: Rows, K: Property, stack: seq<Frame>, node: string, path: seq<string>, s: Found)
  {
    K(stack + [Frame(node, path, |Row(g, node)|)], s) ==> K(stack, s.(visited := s.visited + {node}))
  }

  ghost predicate Kept(g: Rows, K: Property)
  {
    && (forall stack, node, path, i: nat, s :: ReportAt(g, K, stack, node, path, i, s))
    && (forall stack, node, path, i: nat, s :: PassAt(g, K, stack, node, path, i, s))
    && (forall stack, node, path, i: nat, s :: PushAt(g, K, stack, node, path, i, s))
    && (forall stack, node, path, s :: FinishAt(g, K, stack, node, path, s))
  }

  lemma KeptReport(g: Rows, K: Property, stack: seq<Frame>, node: string, path: seq<string>, i: nat, s: Found)
    requires Kept(g, K) && K(stack + [Frame(node, path, i)], s) && i < |Row(g, node)| && Row(g, node)[i] in path
    ensures K(stack + [Frame(node, path, i + 1)], s.(cycles := s.cycles + [CycleFrom(path, Row(g, node)[i])]))
  {
    assert ReportAt(g, K, stack, node, path, i, s);
  }

  lemma KeptPass(g: Rows, K: Property, stack: seq<Frame>, node: string, path: seq<string>, i: nat, s: Found)
    requires Kept(g, K) && K(stack + [Frame(node, path, i)], s) && i < |Row(g, node)|
    requires Row(g, node)[i] !in path && Row(g, node)[i] in s.visited
    ensures K(stack + [Frame(node, path, i + 1)], s)
  {
    assert PassAt(g, K, stack, node, path, i, s);
  }

  lemma KeptPush(g: Rows, K: Property, stack: seq<Frame>, node: string, path: seq<string>, i: nat, v: string, s: Found)
    requires Kept(g, K) && K(stack + [Frame(node, path, i)], s) && i < |Row(g, node)| && Row(g, node)[i] == v
    requires v !in path && v !in s.visited
    ensures K(stack + [Frame(node, path, i + 1), Frame(v, path + [v], 0)], s)
  {
    assert PushAt(g, K, stack, node, path, i, s);
    assert stack + [Frame(node, path, i + 1)] + [Frame(v, path + [v], 0)] ==
           stack + [Frame(node, path, i + 1), Frame(v, path + [v], 0)];
  }

  lemma KeptFinish(g: Rows, K: Property, stack: seq<Frame>, node: string, path: seq<string>, s: Found)
    requires Kept(g, K) && K(stack + [Frame(node, path, |Row(g, node)|)], s)
    ensures K(stack, s.(visited := s.visited + {node}))
  {
    assert FinishAt(g, K, stack, node, path, s);
  }

  // ---------------------------------------------------------------- the two properties

  /** The recursion, resumed from here, ends with this result. */
  ghost function LeadsTo(edges: seq<Edge>, result: Found): Property
  {
    (stack, s) => Resume(edges, stack, s) == result
  }

  lemma ExploreFinish(edges: seq<Edge>, node: string, path: seq<string>, s: Found)
    ensures Explore(edges, node, path, |Targets(edges, node)|, s) == s.(visited := s.visited + {node})
  {
  }

  lemma ExploreReport(edges: seq<Edge>, node: string, path: seq<string>, i: nat, v: string, s: Found)
    requires i < |Targets(edges, node)| && Targets(edges, node)[i] == v && v in path
    ensures Explore(edges, node, path, i, s) ==
            Explore(edges, node, path, i + 1, s.(cycles := s.cycles + [CycleFrom(path, v)]))
  {
  }

  lemma ExplorePass(edges: seq<Edge>, node: string, path: seq<string>, i: nat, v: string, s: Found)
    requires i < |Targets(edges, node)| && Targets(edges, node)[i] == v && v !in path && v in s.visited
    ensures Explore(edges, node, path, i, s) == Explore(edges, node, path, i + 1, s)
  {
  }

  lemma ExplorePush(edges: seq<Edge>, node: string, path: seq<string>, i: nat, v: string, s: Found)
    requires i < |Targets(edges, node)| && Targets(edges, node)[i] == v && v !in path && v !in s.visited
    ensures Explore(edges, node, path, i, s) ==
            Explore(edges, node, path, i + 1, Explore(edges, v, path + [v], 0, s))
  {
  }

  lemma LeadsToKept(edges: seq<Edge>, g: Rows, result: Found)
    requires Represents(g, edges)
    ensures Kept(g, LeadsTo(edges, result))
  {
    var K := LeadsTo(edges, result);
    forall stack, node, path, i: nat, s ensures ReportAt(g, K, stack, node, path, i, s) {
      if i < |Row(g, node)| && Row(g, node)[i] in path {
        ResumeReport(edges, stack, node, path, i, Row(g, node)[i], s);
      }
    }
    forall stack, node, path, i: nat, s ensures PassAt(g, K, stack, node, path, i, s) {
      if i < |Row(g, node)| && Row(g, node)[i] !in path && Row(g, node)[i] in s.visited {
        ResumePass(edges, stack, node, path, i, Row(g, node)[i], s);
      }
    }
    forall stack, node, path, i: nat, s ensures PushAt(g, K, stack, node, path, i, s) {
      if i < |Row(g, node)| && Row(g, node)[i] !in path && Row(g, node)[i] !in s.visited {
        ResumePush(edges, stack, node, path, i, Row(g, node)[i], s);
      }
    }
    forall stack, node, path, s ensures FinishAt(g, K, stack, node, path, s) {
      ResumeFinish(edges, stack, node, path, s);
    }
  }

  lemma ResumeReport(edges: seq<Edge>, stack: seq<Frame>, node: string, path: seq<string>, i: nat, v: string, s: Found)
    requires i < |Targets(edges, node)| && Targets(edges, node)[i] == v && v in path
    ensures Resume(edges, stack + [Frame(node, path, i)], s) ==
            Resume(edges, stack + [Frame(node, path, i + 1)], s.(cycles := s.cycles + [CycleFrom(path, v)]))
  {
    ExploreReport(edges, node, path, i, v, s);
    ResumeTop(edges, stack, Frame(node, path, i), s);
    ResumeTop(edges, stack, Frame(node, path, i + 1), s.(cycles := s.cycles + [CycleFrom(path, v)]));
  }

  lemma ResumePass(edges: seq<Edge>, stack: seq<Frame>, node: string, path: seq<string>, i: nat, v: string, s: Found)
    requires i < |Targets(edges, node)| && Targets(edges, node)[i] == v && v !in path && v in s.visited
    ensures Resume(edges, stack + [Frame(node, path, i)], s) == Resume(edges, stack + [Frame(node, path, i + 1)], s)
  {
    ExplorePass(edges, node, path, i, v, s);
    ResumeTop(edges, stack, Frame(node, path, i), s);
    ResumeTop(edges, stack, Frame(node, path, i + 1), s);
  }

  lemma ResumePush(edges: seq<Edge>, stack: seq<Frame>, node: string, path: seq<string>, i: nat, v: string, s: Found)
    requires i < |Targets(edges, node)| && Targets(edges, node)[i] == v && v !in path && v !in s.visited
    ensures Resume(edges, stack + [Frame(node, path, i)], s) ==
            Resume(edges, stack + [Frame(node, path, i + 1)] + [Frame(v, path + [v], 0)], s)
  {
    ExplorePush(edges, node, path, i, v, s);
    ResumeTop(edges, stack, Frame(node, path, i), s);
    ResumeTop(edges, stack, Frame(node, path, i + 1), Explore(edges, v, path + [v], 0, s));
    ResumeTop(edges, stack + [Frame(node, path, i + 1)], Frame(v, path + [v], 0), s);
  }

  lemma ResumeFinish(edges: seq<Edge>, stack: seq<Frame>, node: string, path: seq<string>, s: Found)
    ensures Resume(edges, stack + [Frame(node, path, |Targets(edges, node)|)], s) ==
            Resume(edges, stack, s.(visited := s.visited + {node}))
  {
    ExploreFinish(edges, node, path, s);
    ResumeTop(edges, stack, Frame(node, path, |Targets(edges, node)|), s);
  }

  /** The path of the top frame. */
  function Trail(stack: seq<Frame>): seq<string>
  {
    if |stack| == 0 then [] else stack[|stack| - 1].path
  }

  /** Each frame holds its node and the path to it, a part of the trail. */
  ghost predicate Framed(stack: seq<Frame>)
  {
    && |Trail(stack)| == |stack|
    && forall k {:trigger stack[k]} :: 0 <= k < |stack| ==>
         stack[k].node == Trail(stack)[k] && stack[k].path == Trail(stack)[..k + 1]
  }

  ghost predicate TallyState(g: Rows, stack: seq<Frame>, s: Found)
  {
    Framed(stack) && Tallied(g, stack, Trail(stack), s.visited, s.cycles)
  }

  ghost function Tallies(g: Rows): Property
  {
    (stack, s) => TallyState(g, stack, s)
  }

  lemma FramedTop(stack: seq<Frame>, node: string, path: seq<string>, i: nat)
    requires Framed(stack + [Frame(node, path, i)])
    ensures |path| == |stack| + 1 && path[|stack|] == node
    ensures forall k :: 0 <= k < |stack| ==> stack[k].node == path[k] && stack[k].path == path[..k + 1]
  {
    var frames := stack + [Frame(node, path, i)];
    assert Trail(frames) == path && frames[|stack|].node == path[|stack|];
    forall k | 0 <= k < |stack| ensures stack[k].node == path[k] && stack[k].path == path[..k + 1] {
      assert frames[k] == stack[k];
    }
  }

  lemma FramedBelow(stack: seq<Frame>, node: string, path: seq<string>, i: nat)
    requires Framed(stack + [Frame(node, path, i)])
    ensures |path| == |stack| + 1 && path[|stack|] == node
    ensures Framed(stack) && Trail(stack) == path[..|stack|]
  {
    FramedTop(stack, node, path, i);
    assert |stack| > 0 ==> Trail(stack) == path[..|stack|];
    forall k | 0 <= k < |stack| ensures stack[k].path == Trail(stack)[..k + 1] {
      assert path[..|stack|][..k + 1] == path[..k + 1];
    }
  }

  lemma FramedNext(stack: seq<Frame>, node: string, path: seq<string>, i: nat)
    requires |path| == |stack| + 1 && path[|stack|] == node
    requires forall k :: 0 <= k < |stack| ==> stack[k].node == path[k] && stack[k].path == path[..k + 1]
    ensures Framed(stack + [Frame(node, path, i + 1)])
  {
    assert path[..|stack| + 1] == path;
  }

  lemma FramedPush(frames: seq<Frame>, path: seq<string>, v: string)
    requires Framed(frames) && Trail(frames) == path
    ensures Framed(frames + [Frame(v, path + [v], 0)])
  {
    var path', frames' := path + [v], frames + [Frame(v, path + [v], 0)];
    assert Trail(frames') == path';
    forall k | 0 <= k < |frames'| ensures frames'[k].node == path'[k] && frames'[k].path == path'[..k + 1] {
      if k < |frames| {
        assert frames'[k] == frames[k] && path'[..k + 1] == path[..k + 1];
      } else {
        assert path'[..k + 1] == path';
      }
    }
  }

  lemma TalliesKept(g: Rows)
    ensures Kept(g, Tallies(g))
  {
    forall stack, node, path, i: nat, s ensures ReportAt(g, Tallies(g), stack, node, path, i, s) {
      if TallyState(g, stack + [Frame(node, path, i)], s) && i < |Row(g, node)| && Row(g, node)[i] in path {
        CycleCloses(path, Row(g, node)[i]);
        FramedTop(stack, node, path, i);
        TallyStateReport(g, stack, node, path, i, s, CycleFrom(path, Row(g, node)[i]));
      }
    }
    forall stack, node, path, i: nat, s ensures PassAt(g, Tallies(g), stack, node, path, i, s) {
      if TallyState(g, stack + [Frame(node, path, i)], s) && i < |Row(g, node)| && Row(g, node)[i] !in path {
        TallyStatePass(g, stack, node, path, i, s);
      }
    }
    forall stack, node, path, i: nat, s ensures PushAt(g, Tallies(g), stack, node, path, i, s) {
      if TallyState(g, stack + [Frame(node, path, i)], s) && i < |Row(g, node)| && Row(g, node)[i] !in path &&
         Row(g, node)[i] !in s.visited {
        TallyStatePass(g, stack, node, path, i, s);
        TallyStatePush(g, stack + [Frame(node, path, i + 1)], path, Row(g, node)[i], s);
      }
    }
    forall stack, node, path, s ensures FinishAt(g, Tallies(g), stack, node, path, s) {
      if TallyState(g, stack + [Frame(node, path, |Row(g, node)|)], s) {
        TallyStateFinish(g, stack, node, path, s);
      }
    }
  }

  lemma TallyStateReport(g: Rows, stack: seq<Frame>, node: string, path: seq<string>, i: nat, s: Found, c: seq<string>)
    requires TallyState(g, stack + [Frame(node, path, i)], s) && i < |Row(g, node)| && Row(g, node)[i] in path
    requires |c| >= 2 && ClosingArc(c) == (node, Row(g, node)[i])
    ensures TallyState(g, stack + [Frame(node, path, i + 1)], s.(cycles := s.cycles + [c]))
  {
    FramedTop(stack, node, path, i);
    FramedNext(stack, node, path, i);
    TallyReport(g, stack, Frame(node, path, i), path, s.visited, s.cycles, c);
  }

  lemma TallyStatePass(g: Rows, stack: seq<Frame>, node: string, path: seq<string>, i: nat, s: Found)
    requires TallyState(g, stack + [Frame(node, path, i)], s) && i < |Row(g, node)| && Row(g, node)[i] !in path
    ensures TallyState(g, stack + [Frame(node, path, i + 1)], s) && Trail(stack + [Frame(node, path, i + 1)]) == path
  {
    FramedTop(stack, node, path, i);
    FramedNext(stack, node, path, i);
    TallySkip(g, stack, Frame(node, path, i), path, s.visited, s.cycles);
  }

  lemma TallyStatePush(g: Rows, frames: seq<Frame>, path: seq<string>, v: string, s: Found)
    requires TallyState(g, frames, s) && Trail(frames) == path && v !in path && v !in s.visited
    ensures TallyState(g, frames + [Frame(v, path + [v], 0)], s)
  {
    FramedPush(frames, path, v);
    TallyPush(g, frames, path, s.visited, s.cycles, Frame(v, path + [v], 0), v);
  }

  lemma TallyStateFinish(g: Rows, stack: seq<Frame>, node: string, path: seq<string>, s: Found)
    requires TallyState(g, stack + [Frame(node, path, |Row(g, node)|)], s)
    ensures TallyState(g, stack, s.(visited := s.visited + {node}))
  {
    FramedBelow(stack, node, path, |Row(g, node)|);
    TallyFinish(g, stack, Frame(node, path, |Row(g, node)|), path, s.visited, s.cycles);
  }

  lemma CycleCloses(path: seq<string>, v: string)
    requires v in path
    ensures |CycleFrom(path, v)| >= 2 && ClosingArc(CycleFrom(path, v)) == (path[|path| - 1], v)
  {
    FirstIndex(path, v);
  }

  ghost function Both(K: Property, L: Property): Property
  {
    (stack, s) => K(stack, s) && L(stack, s)
  }

  lemma BothKept(g: Rows, K: Property, L: Property)
    requires Kept(g, K) && Kept(g, L)
    ensures Kept(g, Both(K, L))
  {
    forall stack, node, path, i: nat, s ensures ReportAt(g, Both(K, L), stack, node, path, i, s) {
      assert ReportAt(g, K, stack, node, path, i, s) && ReportAt(g, L, stack, node, path, i, s);
    }
    forall stack, node, path, i: nat, s ensures PassAt(g, Both(K, L), stack, node, path, i, s) {
      assert PassAt(g, K, stack, node, path, i, s) && PassAt(g, L, stack, node, path, i, s);
    }
    forall stack, node, path, i: nat, s ensures PushAt(g, Both(K, L), stack, node, path, i, s) {
      assert PushAt(g, K, stack, node, path, i, s) && PushAt(g, L, stack, node, path, i, s);
    }
    forall stack, node, path, s ensures FinishAt(g, Both(K, L), stack, node, path, s) {
      assert FinishAt(g, K, stack, node, path, s) && FinishAt(g, L, stack, node, path, s);
    }
  }

  // ---------------------------------------------------------------- the search

  /** One more arc of the top node needs no work. */
  lemma ExploringNext(g: Rows, stack: seq<Frame>, trail: seq<string>, n: nat, inStack: set<string>,
                      visited: set<string>, cut: set<(string, string)>)
    requires Exploring(g, stack, trail, n, inStack, visited, cut) && n < |Row(g, trail[|stack|])|
    requires Row(g, trail[|stack|])[n] in visited || (trail[|stack|], Row(g, trail[|stack|])[n]) in cut
    ensures Exploring(g, stack, trail, n + 1, inStack, visited, cut)
  {
  }

  /** What the scan of the neighbours keeps. */
  ghost predicate ScanState(edges: seq<Edge>, g: Rows, stack: seq<Frame>, path: seq<string>, i: nat,
                            inStack: set<string>, visited: set<string>, cycles: seq<seq<string>>)
  {
    && Exploring(g, stack, path, i, inStack, visited, ClosingArcs(cycles))
    && forall c :: c in cycles ==> SimpleCycle(edges, c)
  }

  /** The neighbour is on the trail: the arc closes a cycle, which is reported. */
  lemma ScanReports(edges: seq<Edge>, g: Rows, stack: seq<Frame>, path: seq<string>, i: nat,
                    inStack: set<string>, visited: set<string>, cycles: seq<seq<string>>, v: string)
    requires Represents(g, edges) && ScanState(edges, g, stack, path, i, inStack, visited, cycles)
    requires i < |Row(g, path[|stack|])| && Row(g, path[|stack|])[i] == v && v in inStack
    ensures v in path + [v]
    ensures var cycles' := cycles + [(path + [v])[IndexOf(path + [v], v)..]];
            && ScanState(edges, g, stack, path, i + 1, inStack, visited, cycles')
            && ClosingArcs(cycles) <= ClosingArcs(cycles')
  {
    assert v in path;
    TrailClosesCycle(g, edges, path, visited, v);
    var cycle := (path + [v])[IndexOf(path + [v], v)..];
    ReportAdds(cycles, cycle);
    CutGrows(g, stack, path, i, inStack, visited, ClosingArcs(cycles), ClosingArcs(cycles + [cycle]));
    ExploringNext(g, stack, path, i, inStack, visited, ClosingArcs(cycles + [cycle]));
  }

  /** The property holds with the popped frame still on top, its row scanned up to i. */
  ghost predicate Holds(K: Property, stack: seq<Frame>, node: string, path: seq<string>, i: nat, visited: set<string>,
                        cycles: seq<seq<string>>)
  {
    K(stack + [Frame(node, path, i)], Found(visited, cycles))
  }

  /** What is known while the row is scanned. */
  ghost predicate Scanning(edges: seq<Edge>, g: Rows, K: Property, stack: seq<Frame>, path: seq<string>, i: nat,
                           inStack: set<string>, visited: set<string>, cycles: seq<seq<string>>)
  {
    && Represents(g, edges) && Kept(g, K) && |path| == |stack| + 1
    && ScanState(edges, g, stack, path, i, inStack, visited, cycles)
    && Holds(K, stack, path[|stack|], path, i, visited, cycles)
  }

  lemma ReportStep(edges: seq<Edge>, g: Rows, K: Property, stack: seq<Frame>, path: seq<string>, i: nat,
                   inStack: set<string>, visited: set<string>, cycles: seq<seq<string>>, v: string)
    requires Scanning(edges, g, K, stack, path, i, inStack, visited, cycles)
    requires i < |Row(g, path[|stack|])| && Row(g, path[|stack|])[i] == v && v in inStack
    ensures v in path + [v]
    ensures Scanning(edges, g, K, stack, path, i + 1, inStack, visited, cycles + [CycleFrom(path, v)])
  {
    ScanReports(edges, g, stack, path, i, inStack, visited, cycles, v);
    assert v in path;
    KeptReport(g, K, stack, path[|stack|], path, i, Found(visited, cycles));
  }

  lemma PassStep(edges: seq<Edge>, g: Rows, K: Property, stack: seq<Frame>, path: seq<string>, i: nat,
                 inStack: set<string>, visited: set<string>, cycles: seq<seq<string>>, v: string)
    requires Scanning(edges, g, K, stack, path, i, inStack, visited, cycles)
    requires i < |Row(g, path[|stack|])| && Row(g, path[|stack|])[i] == v && v !in inStack && v in visited
    ensures Scanning(edges, g, K, stack, path, i + 1, inStack, visited, cycles)
  {
    assert v !in path;
    ExploringNext(g, stack, path, i, inStack, visited, ClosingArcs(cycles));
    KeptPass(g, K, stack, path[|stack|], path, i, Found(visited, cycles));
  }

  /** A property of the position in the row and the reports so far. */
  type ScanProperty = (nat, seq<seq<string>>) -> bool

  /** One neighbour keeps the property: a report if it is on the stack, nothing if it is finished. */
  ghost predicate NeighborKeeps(g: Rows, S: ScanProperty, node: string, path: seq<string>, inStack: set<string>,
                                visited: set<string>, i: nat, cycles: seq<seq<string>>)
  {
    S(i, cycles) && i < |Row(g, node)| ==>
      var v := Row(g, node)[i];
      && (v in inStack ==> S(i + 1, cycles + [CycleFrom(path, v)]))
      && (v !in inStack && v in visited ==> S(i + 1, cycles))
  }

  ghost predicate KeptByScan(g: Rows, S: ScanProperty, node: string, path: seq<string>, inStack: set<string>,
                             visited: set<string>)
  {
    forall i: nat, cycles :: NeighborKeeps(g, S, node, path, inStack, visited, i, cycles)
  }

  ghost function ScanningFrom(edges: seq<Edge>, g: Rows, K: Property, stack: seq<Frame>, path: seq<string>,
                              inStack: set<string>, visited: set<string>): ScanProperty
  {
    (i: nat, cycles: seq<seq<string>>) => Scanning(edges, g, K, stack, path, i, inStack, visited, cycles)
  }

  lemma ScanningKept(edges: seq<Edge>, g: Rows, K: Property, stack: seq<Frame>, path: seq<string>,
                     inStack: set<string>, visited: set<string>)
    requires |path| == |stack| + 1
    ensures KeptByScan(g, ScanningFrom(edges, g, K, stack, path, inStack, visited), path[|stack|], path, inStack, visited)
  {
    var S := ScanningFrom(edges, g, K, stack, path, inStack, visited);
    forall i: nat, cycles ensures NeighborKeeps(g, S, path[|stack|], path, inStack, visited, i, cycles) {
      if Scanning(edges, g, K, stack, path, i, inStack, visited, cycles) && i < |Row(g, path[|stack|])| {
        var v := Row(g, path[|stack|])[i];
        if v in inStack {
          ReportStep(edges, g, K, stack, path, i, inStack, visited, cycles, v);
        } else if v in visited {
          PassStep(edges, g, K, stack, path, i, inStack, visited, cycles, v);
        }
      }
    }
  }

  /** The inner loop over `neighbors[idx:]`: report the arcs that close a cycle and stop at the
      first neighbour that still has to be explored. */
  method ScanNeighbors(g: Rows, ghost S: ScanProperty, node: string, path: seq<string>, idx: nat,
                       inStack: set<string>, visited: set<string>, cycles: seq<seq<string>>)
    returns (cycles': seq<seq<string>>, foundNext: bool, i: nat)
    requires idx <= |Row(g, node)| && S(idx, cycles) && KeptByScan(g, S, node, path, inStack, visited)
    ensures S(i, cycles') && cycles <= cycles'
    ensures if foundNext
            then i < |Row(g, node)| && Row(g, node)[i] !in inStack && Row(g, node)[i] !in visited
            else i == |Row(g, node)|
  {
    var neighbors := Row(g, node);
    cycles', foundNext, i := cycles, false, idx;
    while i < |neighbors|
      invariant idx <= i <= |neighbors|
      invariant S(i, cycles') && cycles <= cycles'
    {
      var neighbor := neighbors[i];
      assert NeighborKeeps(g, S, node, path, inStack, visited, i, cycles');
      if neighbor in inStack {
        var cyclePath := path + [neighbor];
        cycles' := cycles' + [cyclePath[IndexOf(cyclePath, neighbor)..]];
      } else if neighbor !in visited {
        foundNext := true;
        return;
      }
      i := i + 1;
    }
  }

  /** The progress facts that every iteration keeps. */
  ghost predicate Progress(edges: seq<Edge>, g: Rows, visited: set<string>, fin: map<string, nat>, clock: nat,
                           cycles: seq<seq<string>>)
  {
    && visited == fin.Keys
    && Ranked(g, fin, ClosingArcs(cycles))
    && (forall u :: u in fin ==> fin[u] < clock)
    && (forall c :: c in cycles ==> SimpleCycle(edges, c))
  }

  /** What every iteration of `while stack` keeps. */
  ghost predicate SearchState(edges: seq<Edge>, g: Rows, start: string, stack: seq<Frame>, inStack: set<string>,
                              visited: set<string>, cycles: seq<seq<string>>, t: Trace)
  {
    && AtHead(g, stack, t.trail, inStack, visited, ClosingArcs(cycles))
    && Elements(t.trail) <= AllNodes(edges)
    && start in visited + Elements(t.trail)
    && Progress(edges, g, visited, t.fin, t.clock, cycles)
  }

  /** What the proof remembers of the search: the current trail and the finish times. */
  datatype Trace = Trace(trail: seq<string>, fin: map<string, nat>, clock: nat)

  /** The popped node is being explored; nothing else has changed. */
  ghost predicate ExploringState(edges: seq<Edge>, g: Rows, start: string, stack: seq<Frame>, n: nat,
                                 inStack: set<string>, visited: set<string>, cycles: seq<seq<string>>, t: Trace)
  {
    && Exploring(g, stack, t.trail, n, inStack, visited, ClosingArcs(cycles))
    && Elements(t.trail) <= AllNodes(edges)
    && start in visited + Elements(t.trail)
    && Progress(edges, g, visited, t.fin, t.clock, cycles)
  }

  ghost function Unseen(edges: seq<Edge>, visited: set<string>, t: Trace): set<string>
  {
    AllNodes(edges) - visited - Elements(t.trail)
  }

  lemma PushState(edges: seq<Edge>, g: Rows, start: string, stack: seq<Frame>, i: nat, inStack: set<string>,
                  visited: set<string>, cycles: seq<seq<string>>, t: Trace, node: string, v: string)
    requires Represents(g, edges) && ExploringState(edges, g, start, stack, i, inStack, visited, cycles, t)
    requires node == t.trail[|stack|] && i < |Row(g, node)| && Row(g, node)[i] == v
    requires v !in inStack && v !in visited
    ensures var t' := t.(trail := t.trail + [v]);
            && SearchState(edges, g, start, stack + [Frame(node, t.trail, i + 1), Frame(v, t.trail + [v], 0)],
                           inStack, visited, cycles, t')
            && Unseen(edges, visited, t') < Unseen(edges, visited, t)
  {
    PushKeepsHead(g, stack, t.trail, i, inStack, visited, ClosingArcs(cycles));
    PushIsSmaller(g, edges, t.trail, v, visited);
    assert Elements(t.trail) <= Elements(t.trail + [v]);
  }

  lemma FinishState(edges: seq<Edge>, g: Rows, start: string, stack: seq<Frame>, inStack: set<string>,
                    visited: set<string>, cycles: seq<seq<string>>, t: Trace, node: string)
    requires ExploringState(edges, g, start, stack, |Row(g, node)|, inStack, visited, cycles, t)
    requires node == t.trail[|stack|]
    ensures var t' := Trace(t.trail[..|stack|], t.fin[node := t.clock], t.clock + 1);
            && SearchState(edges, g, start, stack, inStack - {node}, visited + {node}, cycles, t')
            && Unseen(edges, visited + {node}, t') == Unseen(edges, visited, t)
  {
    FinishKeepsHead(g, stack, t.trail, inStack, visited, t.fin, t.clock, ClosingArcs(cycles));
  }

  lemma PopScanState(edges: seq<Edge>, g: Rows, start: string, stack: seq<Frame>, inStack: set<string>,
                     visited: set<string>, cycles: seq<seq<string>>, t: Trace)
    requires stack != [] && SearchState(edges, g, start, stack, inStack, visited, cycles, t)
    ensures var n, f := |stack| - 1, stack[|stack| - 1];
            && |t.trail| == n + 1 && f.node == t.trail[n] && f.path == t.trail && f.next <= |Row(g, f.node)|
            && f.node !in visited && (f.next == 0 ==> f.node !in inStack)
            && ScanState(edges, g, stack[..n], t.trail, f.next, inStack + (if f.next == 0 then {f.node} else {}),
                         visited, cycles)
  {
    PopExplores(g, stack, t.trail, inStack, visited, ClosingArcs(cycles));
  }

  lemma PopHolds(K: Property, stack: seq<Frame>, visited: set<string>, cycles: seq<seq<string>>)
    requires stack != [] && K(stack, Found(visited, cycles))
    ensures var n, f := |stack| - 1, stack[|stack| - 1]; Holds(K, stack[..n], f.node, f.path, f.next, visited, cycles)
  {
    assert stack == stack[..|stack| - 1] + [stack[|stack| - 1]];
  }

  lemma Scanned(edges: seq<Edge>, g: Rows, K: Property, start: string, stack: seq<Frame>, inStack: set<string>,
                inStack': set<string>, visited: set<string>, cycles: seq<seq<string>>, cycles': seq<seq<string>>,
                i: nat, t: Trace)
    requires stack != [] && SearchState(edges, g, start, stack, inStack, visited, cycles, t) && cycles <= cycles'
    requires Scanning(edges, g, K, stack[..|stack| - 1], t.trail, i, inStack', visited, cycles')
    ensures ExploringState(edges, g, start, stack[..|stack| - 1], i, inStack', visited, cycles', t)
    ensures Holds(K, stack[..|stack| - 1], t.trail[|stack| - 1], t.trail, i, visited, cycles')
  {
    ArcsStay(cycles, cycles');
    RankedStays(g, t.fin, ClosingArcs(cycles), ClosingArcs(cycles'));
  }

  /** Pop a frame, enter its node if the frame is fresh, and scan its neighbours. */
  method PopAndScan(ghost edges: seq<Edge>, g: Rows, ghost K: Property, ghost start: string, stack: seq<Frame>,
                    inStack: set<string>, visited: set<string>, cycles: seq<seq<string>>, ghost t: Trace)
    returns (node: string, path: seq<string>, inStack': set<string>, cycles': seq<seq<string>>, foundNext: bool, i: nat)
    requires Represents(g, edges) && stack != [] && Kept(g, K)
    requires SearchState(edges, g, start, stack, inStack, visited, cycles, t) && K(stack, Found(visited, cycles))
    ensures ExploringState(edges, g, start, stack[..|stack| - 1], i, inStack', visited, cycles', t)
    ensures path == t.trail && node == path[|stack| - 1]
    ensures Holds(K, stack[..|stack| - 1], node, path, i, visited, cycles')
    ensures if foundNext
            then i < |Row(g, node)| && Row(g, node)[i] !in inStack' && Row(g, node)[i] !in visited
            else i == |Row(g, node)|
  {
    PopScanState(edges, g, start, stack, inStack, visited, cycles, t);
    PopHolds(K, stack, visited, cycles);
    var n := |stack| - 1;
    var idx := stack[n].next;
    node, path, inStack' := stack[n].node, stack[n].path, inStack;
    if idx == 0 {
      // The re-checks of a fresh frame: neither branch is ever taken.
      if node in inStack' || node in visited {
        assert false;
      }
      inStack' := inStack' + {node};
    } else {
      assert inStack + {} == inStack;
    }
    ghost var S := ScanningFrom(edges, g, K, stack[..n], path, inStack', visited);
    ScanningKept(edges, g, K, stack[..n], path, inStack', visited);
    cycles', foundNext, i := ScanNeighbors(g, S, node, path, idx, inStack', visited, cycles);
    Scanned(edges, g, K, start, stack, inStack, inStack', visited, cycles, cycles', i, t);
  }

  /** One iteration of `while stack`: pop a frame, scan its neighbours, push or finish. */
  method Step(ghost edges: seq<Edge>, g: Rows, ghost K: Property, ghost start: string, stack: seq<Frame>,
              inStack: set<string>, visited: set<string>, cycles: seq<seq<string>>, ghost t: Trace)
    returns (stack': seq<Frame>, inStack': set<string>, visited': set<string>, cycles': seq<seq<string>>,
             ghost t': Trace)
    requires Represents(g, edges) && stack != []
    requires SearchState(edges, g, start, stack, inStack, visited, cycles, t)
    requires Kept(g, K) && K(stack, Found(visited, cycles))
    ensures SearchState(edges, g, start, stack', inStack', visited', cycles', t')
    ensures K(stack', Found(visited', cycles'))
    ensures visited <= visited'
    ensures Unseen(edges, visited', t') < Unseen(edges, visited, t) ||
            (Unseen(edges, visited', t') == Unseen(edges, visited, t) && |stack'| < |stack|)
  {
    var node, path, foundNext, i;
    node, path, inStack', cycles', foundNext, i := PopAndScan(edges, g, K, start, stack, inStack, visited, cycles, t);
    stack', visited' := stack[..|stack| - 1], visited;
    if foundNext {
      var neighbor := Row(g, node)[i];
      PushState(edges, g, start, stack', i, inStack', visited', cycles', t, node, neighbor);
      KeptPush(g, K, stack', node, path, i, neighbor, Found(visited', cycles'));
      stack' := stack' + [Frame(node, path, i + 1), Frame(neighbor, path + [neighbor], 0)];
      t' := t.(trail := t.trail + [neighbor]);
    } else {
      FinishState(edges, g, start, stack', inStack', visited', cycles', t, node);
      KeptFinish(g, K, stack', node, path, Found(visited', cycles'));
      inStack' := inStack' - {node};
      visited' := visited' + {node};
      t' := Trace(t.trail[..|stack'|], t.fin[node := t.clock], t.clock + 1);
    }
  }

  /** One start node: the `while stack` loop. */
  method SearchFrom(ghost edges: seq<Edge>, g: Rows, ghost K: Property, start: string, visited: set<string>,
                    cycles: seq<seq<string>>, ghost fin: map<string, nat>, ghost clock: nat)
    returns (visited': set<string>, cycles': seq<seq<string>>, ghost fin': map<string, nat>, ghost clock': nat)
    requires Represents(g, edges) && start in g && start !in visited
    requires Progress(edges, g, visited, fin, clock, cycles)
    requires Kept(g, K) && K([Frame(start, [start], 0)], Found(visited, cycles))
    ensures Progress(edges, g, visited', fin', clock', cycles')
    ensures visited + {start} <= visited'
    ensures K([], Found(visited', cycles'))
  {
    visited', cycles' := visited, cycles;
    var inStack: set<string> := {};
    var stack := [Frame(start, [start], 0)];
    ghost var t := Trace([start], fin, clock);
    StartIsNode(g, edges, start);
    while stack != []
      invariant SearchState(edges, g, start, stack, inStack, visited', cycles', t)
      invariant visited <= visited' && K(stack, Found(visited', cycles'))
      decreases Unseen(edges, visited', t), |stack|
    {
      stack, inStack, visited', cycles', t := Step(edges, g, K, start, stack, inStack, visited', cycles', t);
    }
    fin', clock' := t.fin, t.clock;
  }

  /** Between two start nodes: what the recursion found from the first n of them, fully tallied. */
  ghost predicate Started(edges: seq<Edge>, g: Rows, starts: seq<string>, n: nat, visited: set<string>,
                          cycles: seq<seq<string>>)
  {
    && n <= |starts| && Found(visited, cycles) == SearchAll(edges, starts[..n])
    && Tallied(g, [], [], visited, cycles)
  }

  /** A property for the search from the next start node: kept, true at its beginning, and enough
      at its end. */
  lemma NextGoal(edges: seq<Edge>, g: Rows, starts: seq<string>, n: nat, visited: set<string>, cycles: seq<seq<string>>)
    returns (K: Property)
    requires n < |starts| && Represents(g, edges) && Started(edges, g, starts, n, visited, cycles)
    requires starts[n] !in visited
    ensures Kept(g, K) && K([Frame(starts[n], [starts[n]], 0)], Found(visited, cycles))
    ensures forall r :: K([], r) ==> Started(edges, g, starts, n + 1, r.visited, r.cycles)
  {
    var s, start := Found(visited, cycles), starts[n];
    var result := Explore(edges, start, [start], 0, s);
    K := Both(LeadsTo(edges, result), Tallies(g));
    LeadsToKept(edges, g, result);
    TalliesKept(g);
    BothKept(g, LeadsTo(edges, result), Tallies(g));
    LeadsFromStart(edges, start, s);
    TalliesAtStart(g, start, s);
    forall r | K([], r) ensures Started(edges, g, starts, n + 1, r.visited, r.cycles) {
      GoalAtEnd(edges, g, starts, n, s, r);
    }
  }

  lemma LeadsFromStart(edges: seq<Edge>, start: string, s: Found)
    ensures LeadsTo(edges, Explore(edges, start, [start], 0, s))([Frame(start, [start], 0)], s)
  {
    var f := Frame(start, [start], 0);
    ResumeTop(edges, [], f, s);
    assert [] + [f] == [f];
  }

  lemma TalliesAtStart(g: Rows, start: string, s: Found)
    requires Tallied(g, [], [], s.visited, s.cycles) && start !in s.visited
    ensures Tallies(g)([Frame(start, [start], 0)], s)
  {
    var f := Frame(start, [start], 0);
    TallyPush(g, [], [], s.visited, s.cycles, f, start);
    assert [] + [f] == [f] && [] + [start] == [start];
    assert Framed([f]);
  }

  lemma GoalAtEnd(edges: seq<Edge>, g: Rows, starts: seq<string>, n: nat, s: Found, r: Found)
    requires n < |starts| && Started(edges, g, starts, n, s.visited, s.cycles) && starts[n] !in s.visited
    requires Resume(edges, [], r) == Explore(edges, starts[n], [starts[n]], 0, s) && Tallies(g)([], r)
    ensures Started(edges, g, starts, n + 1, r.visited, r.cycles)
  {
    assert starts[..n + 1][..n] == starts[..n];
  }

  lemma SkipStart(edges: seq<Edge>, g: Rows, starts: seq<string>, n: nat, visited: set<string>, cycles: seq<seq<string>>)
    requires n < |starts| && Started(edges, g, starts, n, visited, cycles) && starts[n] in visited
    ensures Started(edges, g, starts, n + 1, visited, cycles)
  {
    assert starts[..n + 1][..n] == starts[..n];
  }

  lemma NothingStarted(edges: seq<Edge>, g: Rows, starts: seq<string>)
    ensures Started(edges, g, starts, 0, {}, [])
  {
    assert starts[..0] == [];
  }

  lemma ArcsStay(cycles: seq<seq<string>>, cycles': seq<seq<string>>)
    requires cycles <= cycles'
    ensures ClosingArcs(cycles) <= ClosingArcs(cycles')
  {
    assert forall c :: c in cycles ==> c in cycles';
  }

  lemma RankedStays(g: Rows, fin: map<string, nat>, cut: set<(string, string)>, cut': set<(string, string)>)
    requires Ranked(g, fin, cut) && cut <= cut'
    ensures Ranked(g, fin, cut')
  {
  }

  lemma StartIsNode(g: Rows, edges: seq<Edge>, start: string)
    requires Represents(g, edges) && start in g
    ensures start in AllNodes(edges)
  {
    assert Row(g, start)[0] in Row(g, start);
    ArcsStayInside(g, edges, start, Row(g, start)[0]);
  }

  lemma PushIsSmaller(g: Rows, edges: seq<Edge>, trail: seq<string>, v: string, visited: set<string>)
    requires Represents(g, edges) && |trail| > 0 && v in Row(g, trail[|trail| - 1])
    requires v !in trail && v !in visited && Elements(trail) <= AllNodes(edges)
    ensures Elements(trail + [v]) <= AllNodes(edges)
    ensures AllNodes(edges) - visited - Elements(trail + [v]) < AllNodes(edges) - visited - Elements(trail)
  {
    ArcsStayInside(g, edges, trail[|trail| - 1], v);
    assert Elements(trail + [v]) == Elements(trail) + {v};
    assert v in AllNodes(edges) - visited - Elements(trail);
  }

  /** In the end the reports of every arc are none, or one for each of its occurrences. */
  lemma TalliedArcs(edges: seq<Edge>, g: Rows, visited: set<string>, cycles: seq<seq<string>>)
    requires Represents(g, edges) && Tallied(g, [], [], visited, cycles)
    ensures forall u, v :: Reports(cycles, u, v) == 0 || Reports(cycles, u, v) == multiset(edges)[Edge(u, DEPENDS_ON, v)]
  {
    forall u, v ensures Reports(cycles, u, v) == 0 || Reports(cycles, u, v) == multiset(edges)[Edge(u, DEPENDS_ON, v)] {
      assert CountedOut(g, u, cycles) || Untouched(u, cycles);
      assert Row(g, u) == Targets(edges, u);
      TargetsCount(edges, u, v);
    }
  }

  /** What holds before the n-th start node. */
  ghost predicate EachState(edges: seq<Edge>, g: Rows, keys: seq<string>, n: nat, visited: set<string>,
                            cycles: seq<seq<string>>, fin: map<string, nat>, clock: nat)
  {
    && Started(edges, g, keys, n, visited, cycles)
    && Progress(edges, g, visited, fin, clock, cycles)
    && forall k :: 0 <= k < n ==> keys[k] in visited
  }

  method SearchNext(ghost edges: seq<Edge>, keys: seq<string>, g: Rows, n: nat, visited: set<string>,
                    cycles: seq<seq<string>>, ghost fin: map<string, nat>, ghost clock: nat)
    returns (visited': set<string>, cycles': seq<seq<string>>, ghost fin': map<string, nat>, ghost clock': nat)
    requires n < |keys| && Represents(g, edges) && keys[n] in g
    requires EachState(edges, g, keys, n, visited, cycles, fin, clock)
    ensures EachState(edges, g, keys, n + 1, visited', cycles', fin', clock')
  {
    if keys[n] in visited {
      SkipStart(edges, g, keys, n, visited, cycles);
      return visited, cycles, fin, clock;
    }
    ghost var K := NextGoal(edges, g, keys, n, visited, cycles);
    visited', cycles', fin', clock' := SearchFrom(edges, g, K, keys[n], visited, cycles, fin, clock);
    assert Started(edges, g, keys, n + 1, visited', cycles') by {
      assert K([], Found(visited', cycles'));
    }
  }

  /** The loop over the start nodes. */
  method SearchEach(ghost edges: seq<Edge>, keys: seq<string>, g: Rows)
    returns (cycles: seq<seq<string>>, ghost visited: set<string>, ghost fin: map<string, nat>, ghost clock: nat)
    requires Represents(g, edges) && forall k :: k in keys ==> k in g
    ensures EachState(edges, g, keys, |keys|, visited, cycles, fin, clock)
  {
    var seen: set<string> := {};
    cycles, fin, clock := [], map[], 0;
    NothingStarted(edges, g, keys);
    for n := 0 to |keys|
      invariant EachState(edges, g, keys, n, seen, cycles, fin, clock)
    {
      seen, cycles, fin, clock := SearchNext(edges, keys, g, n, seen, cycles, fin, clock);
    }
    visited := seen;
  }

  /** `find_cycles`: every reported list is a simple cycle, removing the closing arc of each
      leaves no cycle, nothing is reported exactly when there is none, and an arc is reported never
      or once for each of its occurrences. The whole list is that of the recursive search. */
  method FindCycles(edges: seq<Edge>) returns (cycles: seq<seq<string>>)
    ensures forall c :: c in cycles ==> SimpleCycle(edges, c)
    ensures AcyclicWithout(edges, ClosingArcs(cycles))
    ensures cycles == [] <==> AcyclicWithout(edges, {})
    ensures forall u, v :: Reports(cycles, u, v) == 0 || Reports(cycles, u, v) == multiset(edges)[Edge(u, DEPENDS_ON, v)]
    ensures cycles == SearchAll(edges, Sources(edges)).cycles
  {
    var keys, g := BuildRows(edges);
    ghost var visited, fin, clock;
    cycles, visited, fin, clock := SearchEach(edges, keys, g);
    assert keys[..|keys|] == keys;
    RankedIsAcyclic(g, edges, fin, ClosingArcs(cycles));
    TalliedArcs(edges, g, visited, cycles);
    if cycles == [] {
      assert ClosingArcs(cycles) == {};
    } else {
      assert cycles[0] in cycles;
      assert ClosedWalk(edges, {}, cycles[0]);
    }
  }

  lemma ReportAdds(cycles: seq<seq<string>>, c: seq<string>)
    requires |c| >= 2
    ensures ClosingArcs(cycles + [c]) == ClosingArcs(cycles) + {ClosingArc(c)}
  {
    forall a ensures a in ClosingArcs(cycles + [c]) <==> a in ClosingArcs(cycles) || a == ClosingArc(c)
    {
      assert c in cycles + [c];
      assert forall d :: d in cycles + [c] <==> d in cycles || d == c;
    }
  }
}
