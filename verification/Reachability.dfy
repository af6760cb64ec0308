/** Walks in a finite directed graph given as a set of pairs. */
module Reachability {
  type Node = int
  type Rel = set<(Node, Node)>

  ghost predicate Walk(rel: Rel, p: seq<Node>) {
    |p| > 0 && forall i :: 0 <= i < |p| - 1 ==> (p[i], p[i + 1]) in rel
  }

  ghost predicate WalkFrom(rel: Rel, p: seq<Node>, u: Node, v: Node) {
    Walk(rel, p) && p[0] == u && p[|p| - 1] == v
  }

  ghost predicate Reach(rel: Rel, u: Node, v: Node) {
    exists p :: WalkFrom(rel, p, u, v)
  }

  ghost predicate Mutual(rel: Rel, u: Node, v: Node) {
    Reach(rel, u, v) && Reach(rel, v, u)
  }

  /** No edge of `rel` leaves `s`. */
  ghost predicate Closed(rel: Rel, s: set<Node>) {
    forall u, v :: u in s && (u, v) in rel ==> v in s
  }

  lemma ReachRefl(rel: Rel, u: Node)
    ensures Reach(rel, u, u)
  {
    assert WalkFrom(rel, [u], u, u);
  }

  lemma ReachEdge(rel: Rel, u: Node, v: Node)
    requires (u, v) in rel
    ensures Reach(rel, u, v)
  {
    assert WalkFrom(rel, [u, v], u, v);
  }

  lemma ReachTrans(rel: Rel, u: Node, v: Node, w: Node)
    requires Reach(rel, u, v) && Reach(rel, v, w)
    ensures Reach(rel, u, w)
  {
    var p :| WalkFrom(rel, p, u, v);
    var q :| WalkFrom(rel, q, v, w);
    var r := p + q[1..];
    forall i | 0 <= i < |r| - 1
      ensures (r[i], r[i + 1]) in rel
    {
      if i < |p| - 1 {
      } else if i == |p| - 1 {
        assert r[i] == q[0] && r[i + 1] == q[1];
      } else {
        var j := i - |p| + 1;
        assert r[i] == q[j] && r[i + 1] == q[j + 1];
      }
    }
    assert r[|r| - 1] == w;
    assert WalkFrom(rel, r, u, w);
  }

  /** A walk that starts inside a closed set never leaves it. */
  lemma {:induction false} ClosedWalk(rel: Rel, s: set<Node>, p: seq<Node>, k: nat)
    requires Closed(rel, s) && Walk(rel, p) && p[0] in s && k < |p|
    ensures p[k] in s
  {
    if k > 0 {
      ClosedWalk(rel, s, p, k - 1);
      var i := k - 1;
      var u, v := p[i], p[i + 1];
      assert (u, v) in rel;
    }
  }

  lemma ClosedReach(rel: Rel, s: set<Node>, u: Node, v: Node)
    requires Closed(rel, s) && u in s && Reach(rel, u, v)
    ensures v in s
  {
    var p :| WalkFrom(rel, p, u, v);
    ClosedWalk(rel, s, p, |p| - 1);
  }
}
