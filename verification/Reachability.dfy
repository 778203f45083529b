/** Reachability along a step relation, shared by the document graph and the schema graph. */
module Reachability {

  ghost predicate Hop<T>(step: (T, T) -> bool, p: seq<T>, i: nat)
    requires i + 1 < |p|
  {
    step(p[i], p[i + 1])
  }

  /** p leads from a to b, one step at a time. */
  ghost predicate Route<T>(step: (T, T) -> bool, p: seq<T>, a: T, b: T)
  {
    && |p| > 0 && p[0] == a && p[|p| - 1] == b
    && forall i :: 0 <= i < |p| - 1 ==> Hop(step, p, i)
  }

  ghost predicate Reach<T(!new)>(step: (T, T) -> bool, a: T, b: T)
  {
    exists p :: Route(step, p, a, b)
  }

  lemma ReachSelf<T(!new)>(step: (T, T) -> bool, a: T)
    ensures Reach(step, a, a)
  {
    assert Route(step, [a], a, a);
  }

  lemma ReachJoin<T(!new)>(step: (T, T) -> bool, a: T, b: T, c: T)
    requires Reach(step, a, b) && Reach(step, b, c)
    ensures Reach(step, a, c)
  {
    var p :| Route(step, p, a, b);
    var q :| Route(step, q, b, c);
    var r := p + q[1..];
    forall i | 0 <= i < |r| - 1 ensures Hop(step, r, i) {
      if i < |p| - 1 {
        assert Hop(step, p, i);
      } else {
        assert Hop(step, q, i - (|p| - 1));
      }
    }
    assert Route(step, r, a, c);
  }

  lemma ReachOne<T(!new)>(step: (T, T) -> bool, a: T, b: T)
    requires step(a, b)
    ensures Reach(step, a, b)
  {
    assert Hop(step, [a, b], 0);
    assert Route(step, [a, b], a, b);
  }

  lemma RouteTail<T>(step: (T, T) -> bool, p: seq<T>, a: T, b: T)
    requires Route(step, p, a, b) && |p| > 1
    ensures step(a, p[1]) && Route(step, p[1..], p[1], b)
  {
    assert Hop(step, p, 0);
    forall i | 0 <= i < |p[1..]| - 1 ensures Hop(step, p[1..], i) {
      assert Hop(step, p, i + 1);
    }
  }

  lemma ReachFirst<T(!new)>(step: (T, T) -> bool, a: T, b: T)
    requires Reach(step, a, b)
    ensures a == b || exists u :: step(a, u) && Reach(step, u, b)
  {
    var p :| Route(step, p, a, b);
    if |p| > 1 {
      RouteTail(step, p, a, b);
    }
  }

  /** What every step keeps holds wherever the steps lead. */
  lemma {:induction false} RouteKeeps<T(!new)>(step: (T, T) -> bool, keep: T -> bool, p: seq<T>, a: T, b: T)
    requires Route(step, p, a, b) && keep(a)
    requires forall x, y :: keep(x) && step(x, y) ==> keep(y)
    ensures keep(b)
    decreases |p|
  {
    if |p| > 1 {
      RouteTail(step, p, a, b);
      RouteKeeps(step, keep, p[1..], p[1], b);
    }
  }

  lemma ReachKeeps<T(!new)>(step: (T, T) -> bool, keep: T -> bool, a: T, b: T)
    requires Reach(step, a, b) && keep(a)
    requires forall x, y :: keep(x) && step(x, y) ==> keep(y)
    ensures keep(b)
  {
    var p :| Route(step, p, a, b);
    RouteKeeps(step, keep, p, a, b);
  }

  /** Along a symmetric relation every route can be walked back. */
  lemma ReachBack<T(!new)>(step: (T, T) -> bool, a: T, b: T)
    requires Reach(step, a, b) && forall x, y :: step(x, y) ==> step(y, x)
    ensures Reach(step, b, a)
  {
    var p :| Route(step, p, a, b);
    var q := seq(|p|, i requires 0 <= i < |p| => p[|p| - 1 - i]);
    forall i | 0 <= i < |q| - 1 ensures Hop(step, q, i) {
      assert Hop(step, p, |p| - 2 - i);
    }
    assert Route(step, q, b, a);
  }

  /** Steps of a smaller relation lead no further. */
  lemma ReachMore<T(!new)>(step: (T, T) -> bool, more: (T, T) -> bool, a: T, b: T)
    requires Reach(step, a, b) && forall x, y :: step(x, y) ==> more(x, y)
    ensures Reach(more, a, b)
  {
    var p :| Route(step, p, a, b);
    forall i | 0 <= i < |p| - 1 ensures Hop(more, p, i) {
      assert Hop(step, p, i);
    }
    assert Route(more, p, a, b);
  }

  /** Everything reachable from a has the property. */
  ghost predicate Throughout<T(!new)>(step: (T, T) -> bool, a: T, P: T -> bool)
  {
    forall t :: Reach(step, a, t) ==> P(t)
  }

  lemma ThroughoutUnfold<T(!new)>(step: (T, T) -> bool, a: T, P: T -> bool)
    ensures Throughout(step, a, P) <==> P(a) && forall u :: step(a, u) ==> Throughout(step, u, P)
  {
    ReachSelf(step, a);
    if Throughout(step, a, P) {
      forall u | step(a, u) ensures Throughout(step, u, P) {
        forall t | Reach(step, u, t) ensures P(t) {
          ReachOne(step, a, u);
          ReachJoin(step, a, u, t);
        }
      }
    }
    if P(a) && forall u :: step(a, u) ==> Throughout(step, u, P) {
      forall t | Reach(step, a, t) ensures P(t) {
        ReachFirst(step, a, t);
      }
    }
  }
}
