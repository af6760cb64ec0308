/** Queries over the tag graph: loop detection, descendants and bounded neighbourhoods. */
module TagGraph {
  import opened Wrappers
  import opened Reachability
  import opened MemoryTables
  import Tarjan

  const MAX_TRAVERSAL_NODES: nat := 10000

  predicate IsTagEdge(k: Key, parentOnly: bool) {
    k.from.OnTag? && k.to.OnTag? && (parentOnly ==> k.kind == ParentOf)
  }

  /** The tag-to-tag edges, of kind parent_of only or of every kind. */
  ghost function TagPairs(edges: map<int, Edge>, parentOnly: bool): Rel {
    set i | i in edges && IsTagEdge(edges[i].key, parentOnly) :: (edges[i].key.from.id, edges[i].key.to.id)
  }

  ghost function ParentPairs(edges: map<int, Edge>): Rel {
    TagPairs(edges, true)
  }

  /** Every tag-to-tag edge, in both directions. */
  ghost function LinkPairs(edges: map<int, Edge>): Rel {
    TagPairs(edges, false) + set i | i in edges && IsTagEdge(edges[i].key, false) ::
      (edges[i].key.to.id, edges[i].key.from.id)
  }

  predicate Links(edges: map<int, Edge>, u: Node, v: Node, kind: Kind) {
    HasKey(edges, Key(OnTag(u), OnTag(v), kind)) || HasKey(edges, Key(OnTag(v), OnTag(u), kind))
  }

  /** Tag `u` is a parent of `v` when the table has that edge; tags are linked by an edge of any kind, either way. */
  lemma PairsAreEdges(edges: map<int, Edge>, u: Node, v: Node)
    ensures (u, v) in ParentPairs(edges) <==> HasKey(edges, Key(OnTag(u), OnTag(v), ParentOf))
    ensures (u, v) in LinkPairs(edges) <==> exists kind :: Links(edges, u, v, kind)
  {
    if (u, v) in LinkPairs(edges) {
      var i :| i in edges && IsTagEdge(edges[i].key, false) &&
        ((edges[i].key.from.id, edges[i].key.to.id) == (u, v) || (edges[i].key.to.id, edges[i].key.from.id) == (u, v));
      var k := edges[i].key;
      assert Links(edges, u, v, k.kind);
    }
  }

  /** `SELECT from_id, to_id FROM edges WHERE kind = 'parent_of' ...`, in any order. */
  method SelectPairs(edges: map<int, Edge>) returns (rows: seq<(Node, Node)>)
    ensures forall p :: p in rows <==> p in ParentPairs(edges)
  {
    rows := [];
    var rest := edges.Keys;
    while rest != {}
      invariant rest <= edges.Keys
      invariant forall p :: p in rows <==>
                  exists i :: i in edges && i !in rest && IsTagEdge(edges[i].key, true)
                              && p == (edges[i].key.from.id, edges[i].key.to.id)
      decreases rest
    {
      SomeMember(rest);
      var i :| i in rest;
      rest := rest - {i};
      if IsTagEdge(edges[i].key, true) {
        rows := rows + [(edges[i].key.from.id, edges[i].key.to.id)];
      }
    }
  }

  /** The tags at the far end of tag `u`'s edges: outgoing, and with `both` also incoming. */
  method SelectNeighbours(edges: map<int, Edge>, u: Node, both: bool) returns (rows: seq<Node>)
    ensures forall v :: v in rows <==> (u, v) in if both then LinkPairs(edges) else ParentPairs(edges)
  {
    rows := [];
    var rest := edges.Keys;
    while rest != {}
      invariant rest <= edges.Keys
      invariant forall v :: v in rows <==>
                  exists i :: i in edges && i !in rest && Joins(edges[i].key, u, v, both)
      decreases rest
    {
      SomeMember(rest);
      var i :| i in rest;
      rest := rest - {i};
      var k := edges[i].key;
      if IsTagEdge(k, !both) && k.from.id == u {
        rows := rows + [k.to.id];
      }
      if both && IsTagEdge(k, false) && k.to.id == u {
        rows := rows + [k.from.id];
      }
    }
  }

  predicate Joins(k: Key, u: Node, v: Node, both: bool) {
    || (IsTagEdge(k, !both) && k.from.id == u && k.to.id == v)
    || (both && IsTagEdge(k, false) && k.to.id == u && k.from.id == v)
  }

  // ---- detectLoops

  /** A closed walk through at least two different tags. */
  ghost predicate CycleWalk(rel: Rel, p: seq<Node>, i: nat) {
    Walk(rel, p) && i < |p| && p[0] == p[|p| - 1] && p[i] != p[0]
  }

  ghost predicate HasCycle(rel: Rel) {
    exists p, i :: CycleWalk(rel, p, i)
  }

  /** A relation has such a cycle exactly when two different nodes reach each other. */
  lemma CycleIffMutual(rel: Rel)
    ensures HasCycle(rel) <==> exists u, v :: u != v && Mutual(rel, u, v)
  {
    if HasCycle(rel) {
      var p, i: nat :| CycleWalk(rel, p, i);
      assert WalkFrom(rel, p[..i + 1], p[0], p[i]);
      assert WalkFrom(rel, p[i..], p[i], p[0]) by {
        var q := p[i..];
        forall k | 0 <= k < |q| - 1
          ensures (q[k], q[k + 1]) in rel
        {
          var j := i + k;
          assert (p[j], p[j + 1]) in rel;
        }
      }
      assert Mutual(rel, p[0], p[i]);
    }
    if exists u, v :: u != v && Mutual(rel, u, v) {
      var u, v :| u != v && Mutual(rel, u, v);
      var p :| WalkFrom(rel, p, u, v);
      var q :| WalkFrom(rel, q, v, u);
      var r := p + q[1..];
      forall k | 0 <= k < |r| - 1
        ensures (r[k], r[k + 1]) in rel
      {
        if k < |p| - 1 {
          assert (p[k], p[k + 1]) in rel;
        } else {
          var j := k - (|p| - 1);
          assert r[k] == q[j] && r[k + 1] == q[j + 1];
          assert (q[j], q[j + 1]) in rel;
        }
      }
      assert r[|p| - 1] == v && r[|r| - 1] == u;
      assert CycleWalk(rel, r, |p| - 1);
    }
  }

  /** An exact report is empty exactly when there is no cycle. */
  lemma ReportEmptyIffNoCycle(rel: Rel, sccs: seq<seq<Node>>)
    requires Tarjan.ExactCycleClasses(rel, sccs)
    ensures sccs == [] <==> !HasCycle(rel)
  {
    CycleIffMutual(rel);
    if sccs != [] {
      var c := sccs[0];
      assert Tarjan.CycleClass(rel, c);
      assert c[0] != c[1] && c[0] in c && c[1] in c;
      assert Mutual(rel, c[0], c[1]);
    }
    if exists u, v :: u != v && Mutual(rel, u, v) {
      var u, v :| u != v && Mutual(rel, u, v);
      assert Tarjan.InSome(sccs, u);
    }
  }

  /** Different entries of an exact report share no node. */
  lemma ReportIsDisjoint(rel: Rel, sccs: seq<seq<Node>>, i: nat, j: nat, u: Node)
    requires Tarjan.ExactCycleClasses(rel, sccs) && i < j < |sccs|
    ensures !(u in sccs[i] && u in sccs[j])
  {
    ReachRefl(rel, u);
  }

  ghost predicate AdjacencyOf(adj: Tarjan.Adjacency, rows: seq<(Node, Node)>) {
    && (forall p :: p in rows ==> p.0 in adj && p.1 in adj && p.1 in adj[p.0])
    && (forall u, v :: u in adj && v in adj[u] ==> (u, v) in rows)
  }

  /** The adjacency list of the parent_of rows, handed to `tarjanSCC`. */
  method FindLoops(edges: map<int, Edge>) returns (cycles: seq<seq<Node>>)
    ensures Tarjan.ExactCycleClasses(ParentPairs(edges), cycles)
    ensures cycles == [] <==> !HasCycle(ParentPairs(edges))
  {
    var rows := SelectPairs(edges);
    var adj: Tarjan.Adjacency := map[];
    var keys: seq<Node> := [];
    for i := 0 to |rows|
      invariant AdjacencyOf(adj, rows[..i])
      invariant forall u :: u in keys <==> u in adj
    {
      var from_id, to_id := rows[i].0, rows[i].1;
      if from_id !in adj {
        adj, keys := adj[from_id := []], keys + [from_id];
      }
      adj := adj[from_id := adj[from_id] + [to_id]];
      if to_id !in adj {
        adj, keys := adj[to_id := []], keys + [to_id];
      }
      assert rows[..i + 1] == rows[..i] + [rows[i]];
    }
    assert rows[..|rows|] == rows;
    assert Tarjan.EdgesOf(adj) == ParentPairs(edges) by {
      forall u, v
        ensures (u, v) in Tarjan.EdgesOf(adj) <==> (u, v) in ParentPairs(edges)
      {
        Tarjan.NeighbourIsEdge(adj, u, v);
        assert (u, v) in rows <==> (u, v) in ParentPairs(edges);
      }
    }
    cycles := Tarjan.TarjanSCC(keys, adj);
    ReportEmptyIffNoCycle(ParentPairs(edges), cycles);
  }

  /** One entry of the report; a tag without a row has no name and is shown as unknown. */
  datatype Cycle = Cycle(tagIds: seq<Node>, tagNames: seq<Option<string>>)

  function NameOf(tags: map<int, Tag>, id: Node): Option<string> {
    if id in tags then Some(tags[id].name) else None
  }

  function IdsOf(cycles: seq<Cycle>): seq<seq<Node>> {
    seq(|cycles|, i requires 0 <= i < |cycles| => cycles[i].tagIds)
  }

  /** Every entry names its tags in order. */
  ghost predicate NamedFrom(tags: map<int, Tag>, cycles: seq<Cycle>) {
    forall i {:trigger cycles[i]} :: 0 <= i < |cycles| ==>
      && |cycles[i].tagNames| == |cycles[i].tagIds|
      && forall k :: 0 <= k < |cycles[i].tagIds| ==> cycles[i].tagNames[k] == NameOf(tags, cycles[i].tagIds[k])
  }

  /** No entry of an exact report over live edges has an unknown tag. */
  lemma CyclesAreKnown(t: Tables, cycles: seq<Cycle>, i: nat, k: nat)
    requires EndpointsLive(t) && NamedFrom(t.tags, cycles)
             && Tarjan.ExactCycleClasses(ParentPairs(t.edges), IdsOf(cycles))
    requires i < |cycles| && k < |cycles[i].tagIds|
    ensures k < |cycles[i].tagNames| && cycles[i].tagNames[k].Some?
  {
    var rel := ParentPairs(t.edges);
    var c := cycles[i].tagIds;
    assert c == IdsOf(cycles)[i] && Tarjan.CycleClass(rel, c);
    var other := if k == 0 then 1 else 0;
    assert c[k] in c && c[other] in c && c[k] != c[other];
    assert Mutual(rel, c[k], c[other]);
    var p :| WalkFrom(rel, p, c[k], c[other]);
    assert (p[0], p[1]) in rel;
  }

  /** `detectLoops`: the cycle classes with their tags' names, and one audit row for each. */
  method DetectLoops(t: Tables) returns (cycles: seq<Cycle>, u: Tables)
    ensures Tarjan.ExactCycleClasses(ParentPairs(t.edges), IdsOf(cycles)) && NamedFrom(t.tags, cycles)
    ensures cycles == [] <==> !HasCycle(ParentPairs(t.edges))
    ensures EndpointsLive(t) ==>
              forall i, k :: 0 <= i < |cycles| && 0 <= k < |cycles[i].tagNames| ==> cycles[i].tagNames[k].Some?
    ensures u == t.(audit := t.audit + seq(|cycles|, i => Audit(None, DetectLoop)))
    ensures Consistent(t) ==> Consistent(u)
  {
    hide Tarjan.ExactCycleClasses, HasCycle, ParentPairs;
    var sccs := FindLoops(t.edges);
    cycles := [];
    for i := 0 to |sccs|
      invariant |cycles| == i && NamedFrom(t.tags, cycles)
      invariant forall j :: 0 <= j < i ==> cycles[j].tagIds == sccs[j]
    {
      var tagNames := ResolveNames(t.tags, sccs[i]);
      cycles := cycles + [Cycle(sccs[i], tagNames)];
    }
    assert IdsOf(cycles) == sccs;
    u := t;
    for i := 0 to |cycles|
      invariant u == t.(audit := t.audit + seq(i, j => Audit(None, DetectLoop)))
    {
      u := InsertAudit(u, Audit(None, DetectLoop));
    }
    if EndpointsLive(t) {
      forall i, k | 0 <= i < |cycles| && 0 <= k < |cycles[i].tagNames|
        ensures cycles[i].tagNames[k].Some?
      {
        CyclesAreKnown(t, cycles, i, k);
      }
    }
  }

  method ResolveNames(tags: map<int, Tag>, scc: seq<Node>) returns (tagNames: seq<Option<string>>)
    ensures |tagNames| == |scc| && forall k :: 0 <= k < |scc| ==> tagNames[k] == NameOf(tags, scc[k])
  {
    tagNames := [];
    for k := 0 to |scc|
      invariant |tagNames| == k && forall j :: 0 <= j < k ==> tagNames[j] == NameOf(tags, scc[j])
    {
      tagNames := tagNames + [if scc[k] in tags then Some(tags[scc[k]].name) else None];
    }
  }
}
