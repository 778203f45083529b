/** The typed document-relation graph that the analysis generators share. */
module RelationGraph {

  /** One `(source, type, target)` relation read from a document's frontmatter. */
  datatype Edge = Edge(source: string, kind: string, target: string)

  const DEPENDS_ON := "depends_on"
  const RELATES_TO := "relates_to"

  /** `source` declares a depends_on relation to `target`. */
  predicate DependsOn(edges: seq<Edge>, source: string, target: string)
  {
    Edge(source, DEPENDS_ON, target) in edges
  }

  ghost predicate WalkStep(edges: seq<Edge>, cut: set<(string, string)>, w: seq<string>, i: nat)
    requires i + 1 < |w|
  {
    DependsOn(edges, w[i], w[i + 1]) && (w[i], w[i + 1]) !in cut
  }

  /** A closed walk along depends_on relations that avoids the arcs in `cut`. */
  ghost predicate ClosedWalk(edges: seq<Edge>, cut: set<(string, string)>, w: seq<string>)
  {
    && |w| >= 2
    && w[0] == w[|w| - 1]
    && forall i :: 0 <= i < |w| - 1 ==> WalkStep(edges, cut, w, i)
  }

  ghost predicate AcyclicWithout(edges: seq<Edge>, cut: set<(string, string)>)
  {
    forall w :: !ClosedWalk(edges, cut, w)
  }

  /** Both documents are joined by a relates_to relation, in either direction. */
  predicate Adjacent(edges: seq<Edge>, a: string, b: string)
  {
    Edge(a, RELATES_TO, b) in edges || Edge(b, RELATES_TO, a) in edges
  }
}
