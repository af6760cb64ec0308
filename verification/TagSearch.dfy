/** Searching memories by tag: the view's own search, the daemon's second copy of it, and the
    bounded neighbourhood search. */
module TagSearch {
  import opened Wrappers
  import opened Reachability
  import opened MemoryTables
  import opened TagGraph

  // ---- Descendants

  ghost predicate IsDescendants(rel: Rel, root: Node, s: set<Node>) {
    forall v :: v in s <==> Reach(rel, root, v)
  }

  /** What the worklist loops keep: everything visited is reachable, and only stacked tags have
      children that were not visited. */
  ghost predicate Frontier(rel: Rel, root: Node, visited: set<Node>, stack: seq<Node>) {
    && root in visited
    && (forall u :: u in stack ==> u in visited)
    && (forall u :: u in visited ==> Reach(rel, root, u))
    && (forall u, v :: u in visited && u !in stack && (u, v) in rel ==> v in visited)
    && Distinct(stack)
  }

  lemma FrontierDone(rel: Rel, root: Node, visited: set<Node>)
    requires Frontier(rel, root, visited, [])
    ensures IsDescendants(rel, root, visited)
  {
    forall v | Reach(rel, root, v)
      ensures v in visited
    {
      ClosedReach(rel, visited, root, v);
    }
  }

  /** A set of reachable nodes is at most as large as the set of all of them. */
  lemma SubsetSize(a: set<Node>, b: set<Node>)
    requires a <= b
    ensures |a| <= |b|
  {
    assert b == a + (b - a);
  }

  /** One round of the worklist: `current` is popped and its unvisited children are pushed. */
  method Expand(edges: map<int, Edge>, ghost root: Node, visited: set<Node>, stack: seq<Node>, current: Node)
      returns (seen: set<Node>, rest: seq<Node>)
    requires stack != [] && stack[|stack| - 1] == current
    requires Frontier(ParentPairs(edges), root, visited, stack)
    ensures Frontier(ParentPairs(edges), root, seen, rest)
    ensures visited <= seen && |rest| == |stack| - 1 + |seen| - |visited|
  {
    ghost var rel := ParentPairs(edges);
    var children := SelectNeighbours(edges, current, false);
    seen, rest := visited, stack[..|stack| - 1];
    assert forall u :: u in stack ==> u in rest || u == current;
    for i := 0 to |children|
      invariant visited <= seen && |rest| == |stack| - 1 + |seen| - |visited|
      invariant root in seen && (forall u :: u in rest ==> u in seen && u != current) && Distinct(rest)
      invariant forall u :: u in seen ==> Reach(rel, root, u)
      invariant forall u, v :: u in seen && u !in rest && u != current && (u, v) in rel ==> v in seen
      invariant forall k :: 0 <= k < i ==> children[k] in seen
      invariant current in seen
    {
      var to_id := children[i];
      if to_id !in seen {
        assert (current, to_id) in rel;
        ReachEdge(rel, current, to_id);
        ReachTrans(rel, root, current, to_id);
        seen := seen + {to_id};
        rest := rest + [to_id];
      }
    }
  }

  /** Every node a walk from `root` can be at. */
  ghost function Span(rel: Rel, root: Node): set<Node> {
    {root} + set p | p in rel :: p.1
  }

  lemma ReachInSpan(rel: Rel, root: Node, v: Node)
    requires Reach(rel, root, v)
    ensures v in Span(rel, root)
  {
    forall a, b | (a, b) in rel
      ensures b in Span(rel, root)
    {
      assert (a, b).1 == b;
    }
    ClosedReach(rel, Span(rel, root), root, v);
  }

  /** The descendants of `root`, itself included, as one finite set. */
  ghost function Descendants(rel: Rel, root: Node): (s: set<Node>)
    ensures IsDescendants(rel, root, s)
  {
    var s := set v | v in Span(rel, root) && Reach(rel, root, v);
    assert forall v :: Reach(rel, root, v) ==> v in s by {
      forall v | Reach(rel, root, v)
        ensures v in s
      {
        ReachInSpan(rel, root, v);
      }
    }
    s
  }

  lemma FrontierInDescendants(rel: Rel, root: Node, visited: set<Node>, stack: seq<Node>)
    requires Frontier(rel, root, visited, stack)
    ensures visited <= Descendants(rel, root) <= Span(rel, root)
    ensures |visited| <= |Descendants(rel, root)|
    ensures stack == [] ==> visited == Descendants(rel, root)
  {
    var all := Descendants(rel, root);
    forall v | v in all
      ensures v in Span(rel, root)
    {
      ReachInSpan(rel, root, v);
    }
    forall v | v in visited
      ensures v in all
    {
      assert Reach(rel, root, v);
    }
    SubsetSize(visited, all);
    if stack == [] {
      FrontierDone(rel, root, visited);
    }
  }

  lemma StartFrontier(rel: Rel, root: Node)
    ensures Frontier(rel, root, {root}, [root])
  {
    ReachRefl(rel, root);
  }

  /** The view's traversal, which gives up once it has `limit` tags and more to look at. It
      collects exactly the descendants, and gives up exactly when there are `limit` of them. */
  method CollectDescendants(edges: map<int, Edge>, root: Node, limit: nat) returns (r: Result<set<Node>, Error>)
    ensures r.Success? <==> |Descendants(ParentPairs(edges), root)| < limit
    ensures r.Success? ==> r.value == Descendants(ParentPairs(edges), root)
  {
    ghost var rel := ParentPairs(edges);
    var visited := {root};
    var stack := [root];
    StartFrontier(rel, root);
    while |stack| > 0
      invariant Frontier(rel, root, visited, stack)
      invariant stack == [] ==> |visited| < limit
      decreases Span(rel, root) - visited, |stack|
    {
      FrontierInDescendants(rel, root, visited, stack);
      if |visited| >= limit {
        return Failure(Invalid);
      }
      var current := stack[|stack| - 1];
      ghost var before := visited;
      visited, stack := Expand(edges, root, visited, stack, current);
      FrontierInDescendants(rel, root, visited, stack);
      if visited == before {
      } else {
        assert Span(rel, root) - visited < Span(rel, root) - before;
      }
      SubsetSize(before, visited);
    }
    FrontierInDescendants(rel, root, visited, stack);
    r := Success(visited);
  }

  /** The daemon's own traversal, which has no limit. */
  method DaemonDescendants(edges: map<int, Edge>, root: Node) returns (visited: set<Node>)
    ensures visited == Descendants(ParentPairs(edges), root)
  {
    ghost var rel := ParentPairs(edges);
    visited := {root};
    var stack := [root];
    StartFrontier(rel, root);
    while |stack| > 0
      invariant Frontier(rel, root, visited, stack)
      decreases Span(rel, root) - visited, |stack|
    {
      ghost var before := visited;
      var cur := stack[|stack| - 1];
      visited, stack := Expand(edges, root, visited, stack, cur);
      FrontierInDescendants(rel, root, visited, stack);
      if visited == before {
      } else {
        assert Span(rel, root) - visited < Span(rel, root) - before;
      }
    }
    FrontierInDescendants(rel, root, visited, stack);
  }

  // ---- Memories by tag

  /** A tagged_with edge from memory `m` to a tag. */
  predicate TagsMemory(k: Key, m: int) {
    k.from == OnMemory(m) && k.kind == TaggedWith && k.to.OnTag?
  }

  /** Memory `m` carries a tagged_with edge to one of the tags. */
  predicate TaggedWithAny(t: Tables, m: int, tagIds: set<Node>) {
    && m in t.memories
    && exists i :: i in t.edges && TagsMemory(t.edges[i].key, m) && t.edges[i].key.to.id in tagIds
  }

  /** `SELECT DISTINCT m.* FROM memories m JOIN edges e ... e.to_id IN (tagIds)`. */
  function MemoriesTagged(t: Tables, tagIds: set<Node>): set<int> {
    set m | m in t.memories && TaggedWithAny(t, m, tagIds)
  }

  /** Tag `v` is the tag called `name` or, when asked for, one of its descendants. */
  ghost predicate CoveredBy(t: Tables, name: string, includeDescendants: bool, v: Node) {
    exists root :: root in t.tags && t.tags[root].name == name
      && (if includeDescendants then Reach(ParentPairs(t.edges), root, v) else v == root)
  }

  /** A memory is found when it carries a covered tag. */
  ghost predicate FoundByTag(t: Tables, name: string, includeDescendants: bool, m: int) {
    && m in t.memories
    && exists i :: i in t.edges && TagsMemory(t.edges[i].key, m)
                   && CoveredBy(t, name, includeDescendants, t.edges[i].key.to.id)
  }

  ghost predicate TooManyBelow(t: Tables, name: string, root: int) {
    && root in t.tags && t.tags[root].name == name
    && |Descendants(ParentPairs(t.edges), root)| >= 10_000
  }

  /** `findByTag` of the read-only view. */
  method FindByTag(t: Tables, tagName: string, includeDescendants: bool) returns (r: Result<set<int>, Error>)
    requires UniqueNames(t.tags)
    ensures r.Success? ==> forall m :: m in r.value <==> FoundByTag(t, tagName, includeDescendants, m)
    ensures r.Failure? <==> includeDescendants && exists root :: TooManyBelow(t, tagName, root)
  {
    if !HasName(t.tags, tagName) {
      return Success({});
    }
    var root :| root in t.tags && t.tags[root].name == tagName;
    var tagIds := {root};
    if includeDescendants {
      var collected := CollectDescendants(t.edges, root, MAX_TRAVERSAL_NODES);
      if collected.Failure? {
        assert TooManyBelow(t, tagName, root);
        return Failure(collected.error);
      }
      tagIds := collected.value;
    }
    r := Success(MemoriesTagged(t, tagIds));
    forall m
      ensures m in r.value <==> FoundByTag(t, tagName, includeDescendants, m)
    {
    }
  }

  /** The daemon's `findByTag`: the same answer, with no limit to run into. */
  method DaemonFindByTag(t: Tables, tagName: string, includeDescendants: bool) returns (r: set<int>)
    requires UniqueNames(t.tags)
    ensures forall m :: m in r <==> FoundByTag(t, tagName, includeDescendants, m)
  {
    if !HasName(t.tags, tagName) {
      return {};
    }
    var root :| root in t.tags && t.tags[root].name == tagName;
    var tagIds := {root};
    if includeDescendants {
      tagIds := DaemonDescendants(t.edges, root);
    }
    r := MemoriesTagged(t, tagIds);
    forall m
      ensures m in r <==> FoundByTag(t, tagName, includeDescendants, m)
    {
    }
  }

  // ---- findRelated

  /** The nodes at most `d` steps from `root`. */
  ghost function Ball(rel: Rel, root: Node, d: nat): set<Node> {
    if d == 0 then {root} else Ball(rel, root, d - 1) + StepFrom(rel, Ball(rel, root, d - 1))
  }

  ghost function StepFrom(rel: Rel, s: set<Node>): set<Node> {
    set p | p in rel && p.0 in s :: p.1
  }

  /** A walk of at most `d` edges. */
  ghost predicate Within(rel: Rel, root: Node, v: Node, d: nat) {
    exists p :: WalkFrom(rel, p, root, v) && |p| <= d + 1
  }

  lemma {:induction false} WalkTo(rel: Rel, root: Node, v: Node, d: nat) returns (p: seq<Node>)
    requires v in Ball(rel, root, d)
    ensures WalkFrom(rel, p, root, v) && |p| <= d + 1
    decreases d
  {
    if d == 0 {
      p := [root];
    } else if v in Ball(rel, root, d - 1) {
      p := WalkTo(rel, root, v, d - 1);
    } else {
      var e :| e in rel && e.0 in Ball(rel, root, d - 1) && e.1 == v;
      var q := WalkTo(rel, root, e.0, d - 1);
      p := q + [v];
    }
  }

  lemma {:induction false} WalkStays(rel: Rel, root: Node, v: Node, d: nat, p: seq<Node>)
    requires WalkFrom(rel, p, root, v) && |p| <= d + 1
    ensures v in Ball(rel, root, d)
    decreases |p|
  {
    if |p| == 1 {
      BallGrows(rel, root, 0, d);
    } else {
      hide Ball;
      var q := p[..|p| - 1];
      var u := q[|q| - 1];
      assert (p[|p| - 2], p[|p| - 2 + 1]) in rel;
      WalkStays(rel, root, u, d - 1, q);
      NeighboursInBall(rel, root, d - 1, u, v);
    }
  }

  /** The ball is the set of nodes at distance at most `d`. */
  lemma BallIsDistance(rel: Rel, root: Node, v: Node, d: nat)
    ensures v in Ball(rel, root, d) <==> Within(rel, root, v, d)
  {
    if v in Ball(rel, root, d) {
      var p := WalkTo(rel, root, v, d);
    }
    if Within(rel, root, v, d) {
      var p :| WalkFrom(rel, p, root, v) && |p| <= d + 1;
      WalkStays(rel, root, v, d, p);
    }
  }

  lemma {:induction false} BallGrows(rel: Rel, root: Node, d: nat, e: nat)
    requires d <= e
    ensures Ball(rel, root, d) <= Ball(rel, root, e)
    decreases e
  {
    if d < e {
      BallGrows(rel, root, d, e - 1);
    }
  }

  /** A ball that does not grow in one step never grows again. */
  lemma {:induction false} BallStable(rel: Rel, root: Node, d: nat, e: nat)
    requires d <= e && StepFrom(rel, Ball(rel, root, d)) <= Ball(rel, root, d)
    ensures Ball(rel, root, e) == Ball(rel, root, d)
    decreases e
  {
    hide Ball, StepFrom;
    if d < e {
      BallStable(rel, root, d, e - 1);
      BallUnfolds(rel, root, e);
    }
  }

  lemma BallUnfolds(rel: Rel, root: Node, d: nat)
    requires d > 0
    ensures Ball(rel, root, d) == Ball(rel, root, d - 1) + StepFrom(rel, Ball(rel, root, d - 1))
  {
  }

  /** The tags at distance exactly `d`. */
  ghost function Rim(rel: Rel, root: Node, d: nat): set<Node> {
    if d == 0 then {root} else Ball(rel, root, d) - Ball(rel, root, d - 1)
  }

  /** At distance `d` there are tags to go on from, and `limit` tags have been visited already. */
  ghost predicate Crowded(rel: Rel, root: Node, d: nat, limit: nat) {
    |Ball(rel, root, d)| >= limit && Rim(rel, root, d) != {}
  }

  /** When the search takes up `last`, the last tag of the rim, `limit` tags have been visited. */
  ghost predicate FullBy(rel: Rel, root: Node, d: nat, last: Node, limit: nat) {
    |Ball(rel, root, d) + StepFrom(rel, Rim(rel, root, d) - {last})| >= limit
  }

  /** Hop `hop` of the search has visited its ball; the frontier is its rim, and leads out of it alone. */
  ghost predicate Hopped(rel: Rel, root: Node, hop: nat, visited: set<Node>, frontier: seq<Node>) {
    && visited == Ball(rel, root, hop)
    && (forall u :: u in frontier <==> u in Rim(rel, root, hop)) && (forall u :: u in frontier ==> u in visited)
    && Distinct(frontier)
    && (forall u, v {:trigger (u, v) in rel} :: u in visited && u !in frontier && (u, v) in rel ==> v in visited)
  }

  /** The innermost loop: rows not seen before are noted and queued. */
  method Note(rows: seq<Node>, seen: set<Node>, queue: seq<Node>) returns (more: set<Node>, queued: seq<Node>)
    requires Distinct(queue) && forall u :: u in queue ==> u in seen
    ensures more == seen + Elements(rows)
    ensures Distinct(queued) && forall u :: u in queued <==> u in queue || (u in rows && u !in seen)
  {
    more, queued := seen, queue;
    for j := 0 to |rows|
      invariant more == seen + Elements(rows[..j])
      invariant Distinct(queued) && forall u :: u in queued <==> u in queue || (u in rows[..j] && u !in seen)
    {
      var to_id := rows[j];
      assert rows[..j + 1] == rows[..j] + [to_id];
      if to_id !in more {
        more, queued := more + {to_id}, queued + [to_id];
      }
    }
    assert rows[..|rows|] == rows;
  }

  function Elements(s: seq<Node>): set<Node> {
    set u | u in s
  }

  lemma NeighboursInBall(rel: Rel, root: Node, hop: nat, u: Node, v: Node)
    requires u in Ball(rel, root, hop) && (u, v) in rel
    ensures v in Ball(rel, root, hop + 1)
  {
    assert (u, v).0 in Ball(rel, root, hop);
  }

  /** What has been visited before the frontier tag at `i` is taken up. */
  ghost function SeenBefore(rel: Rel, visited: set<Node>, frontier: seq<Node>, i: nat): set<Node>
    requires i <= |frontier|
  {
    visited + StepFrom(rel, Elements(frontier[..i]))
  }

  lemma SeenMore(rel: Rel, visited: set<Node>, frontier: seq<Node>, i: nat, rows: seq<Node>)
    requires i < |frontier| && forall v :: v in rows <==> (frontier[i], v) in rel
    ensures SeenBefore(rel, visited, frontier, i + 1) == SeenBefore(rel, visited, frontier, i) + Elements(rows)
  {
    assert frontier[..i + 1] == frontier[..i] + [frontier[i]];
    forall v
      ensures v in SeenBefore(rel, visited, frontier, i + 1)
              <==> v in SeenBefore(rel, visited, frontier, i) + Elements(rows)
    {
      if v in rows {
        assert (frontier[i], v).0 in Elements(frontier[..i + 1]);
      }
    }
  }

  lemma SeenGrows(rel: Rel, visited: set<Node>, frontier: seq<Node>, i: nat, j: nat)
    requires i <= j <= |frontier|
    ensures |SeenBefore(rel, visited, frontier, i)| <= |SeenBefore(rel, visited, frontier, j)|
  {
    assert frontier[..i] == frontier[..j][..i];
    assert forall u :: u in frontier[..i] ==> u in frontier[..j];
    SubsetSize(SeenBefore(rel, visited, frontier, i), SeenBefore(rel, visited, frontier, j));
  }

  /** One hop over the whole frontier, unless `limit` tags have been visited before its last tag. */
  method Hop(edges: map<int, Edge>, ghost root: Node, ghost hop: nat, visited: set<Node>,
             frontier: seq<Node>, limit: nat)
      returns (r: Result<(set<Node>, seq<Node>), Error>)
    requires Hopped(LinkPairs(edges), root, hop, visited, frontier) && frontier != []
    ensures r.Success? ==> Hopped(LinkPairs(edges), root, hop + 1, r.value.0, r.value.1)
    ensures r.Failure? <==> |SeenBefore(LinkPairs(edges), visited, frontier, |frontier| - 1)| >= limit
  {
    hide LinkPairs, Ball, ParentPairs, SeenBefore;
    ghost var rel := LinkPairs(edges);
    BallGrows(rel, root, hop, hop + 1);
    SeenFirst(rel, visited, frontier);
    var seen, nextFrontier := visited, [];
    for i := 0 to |frontier|
      invariant visited <= seen <= Ball(rel, root, hop + 1) && seen == SeenBefore(rel, visited, frontier, i)
      invariant i > 0 ==> |SeenBefore(rel, visited, frontier, i - 1)| < limit
      invariant Distinct(nextFrontier) && forall u :: u in nextFrontier <==> u in seen && u !in visited
      invariant forall k, v {:trigger (frontier[k], v) in rel} :: 0 <= k < i && (frontier[k], v) in rel ==> v in seen
    {
      if |seen| >= limit {
        SeenGrows(rel, visited, frontier, i, |frontier| - 1);
        return Failure(Invalid);
      }
      var tagId := frontier[i];
      assert tagId in frontier;
      var rows := SelectNeighbours(edges, tagId, true);
      forall v | v in rows ensures v in Ball(rel, root, hop + 1) {
        NeighboursInBall(rel, root, hop, tagId, v);
      }
      SeenMore(rel, visited, frontier, i, rows);
      seen, nextFrontier := Note(rows, seen, nextFrontier);
    }
    HopReachesBall(rel, root, hop, visited, frontier, seen);
    r := Success((seen, nextFrontier));
  }

  lemma SeenFirst(rel: Rel, visited: set<Node>, frontier: seq<Node>)
    ensures SeenBefore(rel, visited, frontier, 0) == visited
  {
  }

  /** The hop gives up exactly if the rim fills the limit before its last tag. */
  lemma FullIsSeen(rel: Rel, root: Node, hop: nat, visited: set<Node>, frontier: seq<Node>, limit: nat)
    requires Hopped(rel, root, hop, visited, frontier) && frontier != []
    ensures var last := frontier[|frontier| - 1];
            && last in Rim(rel, root, hop)
            && (FullBy(rel, root, hop, last, limit) <==> |SeenBefore(rel, visited, frontier, |frontier| - 1)| >= limit)
  {
    var last := frontier[|frontier| - 1];
    var before := frontier[..|frontier| - 1];
    assert frontier == before + [last] && last in frontier;
    assert forall u :: u in frontier <==> u in Rim(rel, root, hop);
    hide Rim, Ball, StepFrom;
    assert Elements(before) == Rim(rel, root, hop) - {last};
  }

  lemma FullNeedsLimit(rel: Rel, root: Node, hop: nat, last: Node, limit: nat, depth: nat)
    requires FullBy(rel, root, hop, last, limit) && hop < depth
    ensures |Ball(rel, root, depth)| >= limit
  {
    BallUnfolds(rel, root, hop + 1);
    hide Ball;
    BallGrows(rel, root, hop + 1, depth);
    SubsetSize(Ball(rel, root, hop) + StepFrom(rel, Rim(rel, root, hop) - {last}), Ball(rel, root, depth));
  }

  lemma CrowdedIsFull(rel: Rel, root: Node, d: nat, last: Node, limit: nat)
    requires Crowded(rel, root, d, limit)
    ensures FullBy(rel, root, d, last, limit)
  {
    hide Ball, StepFrom, Rim;
    SubsetSize(Ball(rel, root, d), Ball(rel, root, d) + StepFrom(rel, Rim(rel, root, d) - {last}));
  }

  lemma HopReachesBall(rel: Rel, root: Node, hop: nat, visited: set<Node>, frontier: seq<Node>, seen: set<Node>)
    requires Hopped(rel, root, hop, visited, frontier)
    requires visited <= seen <= Ball(rel, root, hop + 1)
    requires forall k, v {:trigger (frontier[k], v) in rel} ::
               0 <= k < |frontier| && (frontier[k], v) in rel ==> v in seen
    ensures seen == Ball(rel, root, hop + 1)
    ensures forall u, v {:trigger (u, v) in rel} :: u in visited && (u, v) in rel ==> v in seen
  {
    forall u, v | u in visited && (u, v) in rel
      ensures v in seen
    {
      if u in frontier {
        var k :| 0 <= k < |frontier| && frontier[k] == u;
        assert (frontier[k], v) in rel;
      }
    }
    forall v | v in Ball(rel, root, hop + 1)
      ensures v in seen
    {
      if v !in visited {
        var e :| e in rel && e.0 in visited && e.1 == v;
        assert (e.0, e.1) in rel;
      }
    }
  }

  lemma NoRimBeyond(rel: Rel, root: Node, hop: nat, d: nat)
    requires StepFrom(rel, Ball(rel, root, hop)) <= Ball(rel, root, hop) && hop < d
    ensures Rim(rel, root, d) == {}
  {
    hide Ball, StepFrom;
    BallStable(rel, root, hop, d - 1);
    BallStable(rel, root, hop, d);
  }

  /** The search has come through the rims so far, taking up `lasts` last in each, without giving up. */
  ghost predicate CameThrough(rel: Rel, root: Node, lasts: seq<Node>, limit: nat) {
    forall d :: 0 <= d < |lasts| ==> lasts[d] in Rim(rel, root, d) && !FullBy(rel, root, d, lasts[d], limit)
  }

  /** The tags `findRelated` visits: exactly those at undirected distance at most `depth`. `lasts` are the tags that it
      took up last at each distance, which depends on the order of rows. It gives up exactly if, at some distance with
      tags to go on from, `limit` tags have been visited before the last of these is taken up. So it never gives up
      when fewer than `limit` tags are that near, and always when `limit` of them are at some smaller distance. */
  method CollectRelated(edges: map<int, Edge>, root: Node, depth: nat, limit: nat)
      returns (r: Result<set<Node>, Error>, ghost lasts: seq<Node>)
    ensures r.Success? ==> forall v :: v in r.value <==> Within(LinkPairs(edges), root, v, depth)
    ensures |lasts| <= depth && forall d :: 0 <= d < |lasts| ==> lasts[d] in Rim(LinkPairs(edges), root, d)
    ensures r.Success? ==> forall d :: |lasts| <= d < depth ==> Rim(LinkPairs(edges), root, d) == {}
    ensures r.Failure? <==> exists d :: 0 <= d < |lasts| && FullBy(LinkPairs(edges), root, d, lasts[d], limit)
    ensures |Ball(LinkPairs(edges), root, depth)| < limit ==> r.Success?
    ensures (exists d :: 0 <= d < depth && Crowded(LinkPairs(edges), root, d, limit)) ==> r.Failure?
  {
    hide Hopped, Within, LinkPairs, Crowded, Ball, StepFrom, FullBy, Rim, SeenBefore;
    ghost var rel := LinkPairs(edges);
    StartHop(rel, root);
    var visited := {root};
    var frontier := [root];
    var hop := 0;
    lasts := [];
    while hop < depth && |frontier| > 0
      invariant hop <= depth && Hopped(rel, root, hop, visited, frontier)
      invariant |lasts| == hop && CameThrough(rel, root, lasts, limit)
    {
      FullIsSeen(rel, root, hop, visited, frontier, limit);
      lasts := lasts + [frontier[|frontier| - 1]];
      var hopped := Hop(edges, root, hop, visited, frontier, limit);
      if hopped.Failure? {
        FullNeedsLimit(rel, root, hop, lasts[hop], limit, depth);
        return Failure(hopped.error), lasts;
      }
      visited, frontier := hopped.value.0, hopped.value.1;
      hop := hop + 1;
    }
    HoppedIsBall(rel, root, hop, visited, frontier);
    forall d | hop <= d < depth
      ensures Rim(rel, root, d) == {}
    {
      StoppedAtRim(rel, root, hop, visited, d);
    }
    CameThroughAll(rel, root, lasts, depth, limit);
    if hop < depth {
      NothingLeft(rel, root, hop, visited);
      BallStable(rel, root, hop, depth);
    }
    forall v
      ensures v in visited <==> Within(rel, root, v, depth)
    {
      BallIsDistance(rel, root, v, depth);
    }
    r := Success(visited);
  }

  /** A search that stops at an empty frontier has no rim from there on. */
  lemma StoppedAtRim(rel: Rel, root: Node, hop: nat, visited: set<Node>, d: nat)
    requires Hopped(rel, root, hop, visited, []) && hop <= d
    ensures Rim(rel, root, d) == {}
  {
    if d == hop {
      var none: seq<Node> := [];
      assert forall u :: u in Rim(rel, root, hop) ==> u in none;
    } else {
      NothingLeft(rel, root, hop, visited);
      NoRimBeyond(rel, root, hop, d);
    }
  }

  lemma CameThroughAll(rel: Rel, root: Node, lasts: seq<Node>, depth: nat, limit: nat)
    requires CameThrough(rel, root, lasts, limit) && |lasts| <= depth
    requires forall d :: |lasts| <= d < depth ==> Rim(rel, root, d) == {}
    ensures forall d :: 0 <= d < depth ==> !Crowded(rel, root, d, limit)
  {
    hide FullBy, Rim, Ball;
    forall d | 0 <= d < depth && Crowded(rel, root, d, limit)
      ensures false
    {
      if d < |lasts| {
        CrowdedIsFull(rel, root, d, lasts[d], limit);
      }
    }
  }

  lemma StartHop(rel: Rel, root: Node)
    ensures Hopped(rel, root, 0, {root}, [root])
  {
  }

  lemma HoppedIsBall(rel: Rel, root: Node, hop: nat, visited: set<Node>, frontier: seq<Node>)
    requires Hopped(rel, root, hop, visited, frontier)
    ensures visited == Ball(rel, root, hop)
  {
  }

  lemma NothingLeft(rel: Rel, root: Node, hop: nat, visited: set<Node>)
    requires Hopped(rel, root, hop, visited, [])
    ensures StepFrom(rel, Ball(rel, root, hop)) <= Ball(rel, root, hop)
  {
    forall v | v in StepFrom(rel, visited)
      ensures v in visited
    {
      var e :| e in rel && e.0 in visited && e.1 == v;
      var u, w := e.0, e.1;
      assert (u, w) in rel && u in visited;
    }
  }

  ghost predicate Near(t: Tables, name: string, depth: nat, v: Node) {
    exists root :: root in t.tags && t.tags[root].name == name && Within(LinkPairs(t.edges), root, v, depth)
  }

  /** Memory `m` carries a tag at undirected distance at most `depth` from the named one. */
  ghost predicate FoundNear(t: Tables, name: string, depth: nat, m: int) {
    m in t.memories && exists v :: Near(t, name, depth, v) && HasKey(t.edges, TaggedKey(m, v))
  }

  lemma TaggedIsNear(t: Tables, name: string, depth: nat, root: int, tagIds: set<Node>, m: int)
    requires UniqueNames(t.tags) && root in t.tags && t.tags[root].name == name
    requires forall v :: v in tagIds <==> Within(LinkPairs(t.edges), root, v, depth)
    ensures m in MemoriesTagged(t, tagIds) <==> FoundNear(t, name, depth, m)
  {
    hide Within, LinkPairs;
    forall v
      ensures v in tagIds <==> Near(t, name, depth, v)
    {
    }
  }

  /** `findRelated`: the memories tagged within `depth` hops of the named tag, over edges of every kind
      and direction. */
  method FindRelated(t: Tables, tagName: string, depth: nat)
      returns (r: Result<set<int>, Error>, ghost lasts: seq<Node>)
    requires UniqueNames(t.tags)
    ensures r.Success? ==> forall m :: m in r.value <==> FoundNear(t, tagName, depth, m)
    ensures r.Failure?
            <==> exists root, d :: root in t.tags && t.tags[root].name == tagName && 0 <= d < |lasts| <= depth
                                              && FullBy(LinkPairs(t.edges), root, d, lasts[d], MAX_TRAVERSAL_NODES)
    ensures forall root, d :: root in t.tags && t.tags[root].name == tagName && 0 <= d < |lasts| ==>
              lasts[d] in Rim(LinkPairs(t.edges), root, d)
    ensures (forall root :: root in t.tags && t.tags[root].name == tagName ==>
               |Ball(LinkPairs(t.edges), root, depth)| < MAX_TRAVERSAL_NODES) ==> r.Success?
    ensures forall root, d :: root in t.tags && t.tags[root].name == tagName && 0 <= d < depth ==>
              (Crowded(LinkPairs(t.edges), root, d, MAX_TRAVERSAL_NODES) ==> r.Failure?)
  {
    if !HasName(t.tags, tagName) {
      return Success({}), [];
    }
    hide Crowded, Ball, FullBy, Rim, LinkPairs;
    var root :| root in t.tags && t.tags[root].name == tagName;
    var collected;
    collected, lasts := CollectRelated(t.edges, root, depth, MAX_TRAVERSAL_NODES);
    if collected.Failure? {
      return Failure(collected.error), lasts;
    }
    r := Success(MemoriesTagged(t, collected.value));
    forall m
      ensures m in r.value <==> FoundNear(t, tagName, depth, m)
    {
      TaggedIsNear(t, tagName, depth, root, collected.value, m);
    }
  }
}
