/** The iterative strongly-connected-components search over an adjacency map. */
module Tarjan {
  import opened Reachability

  type Adjacency = map<Node, seq<Node>>

  /** `adjList.get(node) || []`. */
  function Neighbours(adj: Adjacency, u: Node): seq<Node> {
    if u in adj then adj[u] else []
  }

  /** One entry of the explicit call stack: a node and its next neighbour's position. */
  datatype Frame = Frame(node: Node, next: nat)

  /** The graph seen by the proof: its nodes, and which node reaches which. */
  datatype Graph = Graph(adj: Adjacency, nodes: set<Node>, reach: set<(Node, Node)>)

  ghost predicate Reachable(g: Graph) {
    && (forall u, v {:trigger v in Neighbours(g.adj, u)} :: u in g.nodes && v in Neighbours(g.adj, u) ==>
        v in g.nodes && (u, v) in g.reach)
    && (forall u {:trigger (u, u) in g.reach} :: u in g.nodes ==> (u, u) in g.reach)
  }

  ghost predicate Transitive(g: Graph) {
    forall u, v, w :: (u, v) in g.reach && (v, w) in g.reach ==> (u, w) in g.reach
  }

  /** The search state between two iterations of the inner loop; `on` and `gray` are the
      contents of the node stack and of the call stack. */
  datatype State = State(
    index: nat, idx: map<Node, nat>, low: map<Node, nat>, on: set<Node>, gray: set<Node>, call: seq<Frame>)

  /** Discovery numbers increase along the call stack, whose nodes are on the node stack. */
  ghost predicate Numbered(g: Graph, st: State) {
    && st.low.Keys == st.idx.Keys <= g.nodes
    && (forall u :: u in st.idx ==> st.idx[u] < st.index)
    && st.gray <= st.on <= st.idx.Keys
    && (forall i :: 0 <= i < |st.call| ==>
          st.call[i].node in st.gray && st.call[i].next <= |Neighbours(g.adj, st.call[i].node)|)
    && (forall i, j :: 0 <= i < j < |st.call| ==> st.idx[st.call[i].node] < st.idx[st.call[j].node])
  }

  /** Only call-stack nodes are gray. */
  ghost predicate GrayIsCall(st: State) {
    forall u :: u in st.gray ==> exists i :: 0 <= i < |st.call| && st.call[i].node == u
  }

  /** Neighbours already looked at are discovered; popped nodes only lead to popped nodes. */
  ghost predicate Explored(g: Graph, st: State)
    requires Numbered(g, st)
  {
    && (forall u, v {:trigger v in Neighbours(g.adj, u)} ::
          u in st.idx && u !in st.gray && v in Neighbours(g.adj, u) ==> v in st.idx)
    && (forall i, k {:trigger Neighbours(g.adj, st.call[i].node)[k]} ::
          0 <= i < |st.call| && 0 <= k < st.call[i].next ==>
          Neighbours(g.adj, st.call[i].node)[k] in st.idx)
    && (forall u, v {:trigger v in Neighbours(g.adj, u)} ::
          u in st.idx && u !in st.on && v in Neighbours(g.adj, u) ==> v !in st.on)
  }

  ghost predicate Below(g: Graph, st: State, y: Node, z: Node) {
    z in st.on && z in st.idx && y in st.idx && st.idx[z] < st.idx[y] && (y, z) in g.reach
  }

  ghost predicate HasBelow(g: Graph, st: State, y: Node) {
    exists z :: Below(g, st, y, z)
  }

  /** A call-stack node reaches everything above it; a finished node on the stack reaches something below it. */
  ghost predicate Connected(g: Graph, st: State)
    requires Numbered(g, st)
  {
    && (forall x, y {:trigger (x, y) in g.reach} ::
          x in st.gray && y in st.on && st.idx[x] <= st.idx[y] ==> (x, y) in g.reach)
    && (forall y {:trigger HasBelow(g, st, y)} :: y in st.on && y !in st.gray ==> HasBelow(g, st, y))
  }

  ghost predicate LowWitness(g: Graph, st: State, u: Node, z: Node) {
    z in st.on && z in st.idx && u in st.low && st.idx[z] == st.low[u] && (u, z) in g.reach
  }

  ghost predicate HasWitness(g: Graph, st: State, u: Node) {
    exists z :: LowWitness(g, st, u, z)
  }

  /** `x` is on the stack at or above frame `i`, and below frame `i + 1`. */
  ghost predicate InSegment(g: Graph, st: State, i: int, x: Node)
    requires Numbered(g, st)
  {
    && 0 <= i < |st.call| && x in st.on
    && st.idx[st.call[i].node] <= st.idx[x]
    && (i + 1 < |st.call| ==> st.idx[x] < st.idx[st.call[i + 1].node])
  }

  /** The low link of a call-stack node is the number of a stack node it reaches. */
  ghost predicate LowIsReached(g: Graph, st: State)
    requires Numbered(g, st)
  {
    && (forall u :: u in st.gray ==> st.low[u] <= st.idx[u])
    && (forall u {:trigger HasWitness(g, st, u)} :: u in st.gray ==> HasWitness(g, st, u))
  }

  /** The low link of a frame bounds every edge from a finished node of its segment back into the stack. */
  ghost predicate LowBoundsFinished(g: Graph, st: State)
    requires Numbered(g, st)
  {
    forall i, x, v {:trigger InSegment(g, st, i, x), v in Neighbours(g.adj, x)} ::
      InSegment(g, st, i, x) && x !in st.gray && v in Neighbours(g.adj, x) && v in st.on ==>
        st.low[st.call[i].node] <= st.idx[v]
  }

  /** The low link of a frame bounds every edge it has itself looked at that leads into the stack. */
  ghost predicate LowBoundsFrame(g: Graph, st: State)
    requires Numbered(g, st)
  {
    forall i, k {:trigger Neighbours(g.adj, st.call[i].node)[k]} ::
      0 <= i < |st.call| && 0 <= k < st.call[i].next ==>
        var v := Neighbours(g.adj, st.call[i].node)[k];
        v in st.on ==> st.low[st.call[i].node] <= st.idx[v]
  }

  ghost predicate LowLinks(g: Graph, st: State)
    requires Numbered(g, st)
  {
    LowIsReached(g, st) && LowBoundsFinished(g, st) && LowBoundsFrame(g, st)
  }

  ghost predicate Inv(g: Graph, st: State) {
    Numbered(g, st) && GrayIsCall(st) && Explored(g, st) && Connected(g, st) && LowLinks(g, st)
  }

  /** Giving `w` the next number and pushing it on both stacks, above the frames `call`. */
  ghost function Discover(st: State, call: seq<Frame>, w: Node): State {
    State(st.index + 1, st.idx[w := st.index], st.low[w := st.index],
          st.on + {w}, st.gray + {w}, call + [Frame(w, 0)])
  }

  /** The frames after the top one has moved on to its next neighbour. */
  ghost function Advanced(call: seq<Frame>): seq<Frame>
    requires |call| > 0
  {
    var top := call[|call| - 1];
    call[|call| - 1 := Frame(top.node, top.next + 1)]
  }

  /** The top frame is about to look at `w`. */
  ghost predicate LooksAt(g: Graph, st: State, w: Node) {
    && |st.call| > 0
    && var top := st.call[|st.call| - 1];
       top.next < |Neighbours(g.adj, top.node)| && Neighbours(g.adj, top.node)[top.next] == w
  }

  // ---- Opening a frame

  /** Opening a search at an undiscovered key. */
  lemma StartKeepsInv(g: Graph, st: State, w: Node)
    requires Reachable(g) && Inv(g, st) && st.call == [] && st.on == {}
    requires w !in st.idx && w in g.nodes
    ensures Inv(g, Discover(st, [], w))
  {
    var d := Discover(st, [], w);
    assert d.call[0].node == w;
    assert Numbered(g, d);
    assert LowWitness(g, d, w, w);
  }

  ghost predicate TreeEdge(g: Graph, st: State, w: Node, d: State) {
    && Numbered(g, st) && LooksAt(g, st, w) && w !in st.idx
    && d == Discover(st, Advanced(st.call), w)
  }

  lemma TreeEdgeNumbered(g: Graph, st: State, w: Node, d: State)
    requires TreeEdge(g, st, w, d) && w in g.nodes
    ensures Numbered(g, d)
  {
    assert forall i :: 0 <= i < |st.call| ==> d.call[i].node == st.call[i].node && d.call[i].node != w;
    assert d.call[|st.call|] == Frame(w, 0);
  }

  lemma TreeEdgeGray(g: Graph, st: State, w: Node, d: State)
    requires TreeEdge(g, st, w, d) && GrayIsCall(st)
    ensures GrayIsCall(d)
  {
    forall u | u in d.gray
      ensures exists i :: 0 <= i < |d.call| && d.call[i].node == u
    {
      if u == w {
        assert d.call[|st.call|].node == w;
      } else {
        var i :| 0 <= i < |st.call| && st.call[i].node == u;
        assert d.call[i].node == u;
      }
    }
  }

  lemma TreeEdgeExplored(g: Graph, st: State, w: Node, d: State)
    requires TreeEdge(g, st, w, d) && Numbered(g, d) && Explored(g, st)
    ensures Explored(g, d)
  {
    var n := |st.call|;
    forall i, k | 0 <= i < |d.call| && 0 <= k < d.call[i].next
      ensures Neighbours(g.adj, d.call[i].node)[k] in d.idx
    {
      assert i < n && d.call[i].node == st.call[i].node;
      if i == n - 1 && k == st.call[i].next {
      } else {
        assert k < st.call[i].next;
      }
    }
  }

  lemma TreeEdgeConnected(g: Graph, st: State, w: Node, d: State)
    requires TreeEdge(g, st, w, d) && Numbered(g, d) && GrayIsCall(st) && Connected(g, st)
    requires (w, w) in g.reach && (st.call[|st.call| - 1].node, w) in g.reach && Transitive(g)
    ensures Connected(g, d)
  {
    var n := |st.call|;
    var top := st.call[n - 1].node;
    forall x, y | x in d.gray && y in d.on && d.idx[x] <= d.idx[y]
      ensures (x, y) in g.reach
    {
      if y == w && x != w {
        var i :| 0 <= i < n && st.call[i].node == x;
        assert st.idx[x] <= st.idx[top];
        assert (x, top) in g.reach;
      }
    }
    forall y | y in d.on && y !in d.gray
      ensures HasBelow(g, d, y)
    {
      assert HasBelow(g, st, y);
      var z :| Below(g, st, y, z);
      assert Below(g, d, y, z);
    }
  }

  lemma TreeEdgeLowIsReached(g: Graph, st: State, w: Node, d: State)
    requires TreeEdge(g, st, w, d) && Numbered(g, d) && LowIsReached(g, st)
    requires (w, w) in g.reach
    ensures LowIsReached(g, d)
  {
    assert LowWitness(g, d, w, w);
    forall u | u in d.gray
      ensures d.low[u] <= d.idx[u] && HasWitness(g, d, u)
    {
      if u != w {
        assert HasWitness(g, st, u);
        var z :| LowWitness(g, st, u, z);
        assert LowWitness(g, d, u, z);
      }
    }
  }

  lemma TreeEdgeLowBoundsFinished(g: Graph, st: State, w: Node, d: State)
    requires TreeEdge(g, st, w, d) && Numbered(g, d)
    requires LowIsReached(g, st) && LowBoundsFinished(g, st)
    ensures LowBoundsFinished(g, d)
  {
    var n := |st.call|;
    forall i, x, v | InSegment(g, d, i, x) && x !in d.gray && v in Neighbours(g.adj, x) && v in d.on
      ensures d.low[d.call[i].node] <= d.idx[v]
    {
      assert d.call[n] == Frame(w, 0);
      assert i < n && d.call[i].node == st.call[i].node;
      assert i + 1 < n ==> d.call[i + 1].node == st.call[i + 1].node;
      assert InSegment(g, st, i, x);
      assert st.low[st.call[i].node] <= st.idx[st.call[i].node];
    }
  }

  lemma TreeEdgeLowBoundsFrame(g: Graph, st: State, w: Node, d: State)
    requires TreeEdge(g, st, w, d) && Numbered(g, d)
    requires LowIsReached(g, st) && LowBoundsFrame(g, st)
    ensures LowBoundsFrame(g, d)
  {
    var n := |st.call|;
    forall i, k | 0 <= i < |d.call| && 0 <= k < d.call[i].next
      ensures var v := Neighbours(g.adj, d.call[i].node)[k]; v in d.on ==> d.low[d.call[i].node] <= d.idx[v]
    {
      assert i < n && d.call[i].node == st.call[i].node;
      assert st.low[st.call[i].node] <= st.idx[st.call[i].node];
      if Neighbours(g.adj, d.call[i].node)[k] != w {
        assert k < st.call[i].next;
      }
    }
  }

  /** Following an edge to an undiscovered node opens a frame for it. */
  lemma TreeEdgeKeepsInv(g: Graph, st: State, w: Node)
    requires Reachable(g) && Transitive(g) && Inv(g, st) && LooksAt(g, st, w) && w !in st.idx
    ensures Inv(g, Discover(st, Advanced(st.call), w))
  {
    var d := Discover(st, Advanced(st.call), w);
    assert w in Neighbours(g.adj, st.call[|st.call| - 1].node);
    TreeEdgeNumbered(g, st, w, d);
    TreeEdgeGray(g, st, w, d);
    TreeEdgeExplored(g, st, w, d);
    TreeEdgeConnected(g, st, w, d);
    TreeEdgeLowIsReached(g, st, w, d);
    TreeEdgeLowBoundsFinished(g, st, w, d);
    TreeEdgeLowBoundsFrame(g, st, w, d);
  }

  // ---- Looking at a discovered neighbour

  /** The low link of the top frame after it has looked at the discovered node `w`. */
  ghost function LookedLow(st: State, w: Node): nat
    requires |st.call| > 0 && st.call[|st.call| - 1].node in st.low && w in st.idx
  {
    var u := st.call[|st.call| - 1].node;
    if w in st.on && st.idx[w] < st.low[u] then st.idx[w] else st.low[u]
  }

  ghost function Looked(st: State, w: Node): State
    requires |st.call| > 0 && st.call[|st.call| - 1].node in st.low && w in st.idx
  {
    st.(call := Advanced(st.call), low := st.low[st.call[|st.call| - 1].node := LookedLow(st, w)])
  }

  ghost predicate Look(g: Graph, st: State, w: Node, d: State) {
    Numbered(g, st) && LooksAt(g, st, w) && w in st.idx && d == Looked(st, w)
  }

  lemma LookNumbered(g: Graph, st: State, w: Node, d: State)
    requires Look(g, st, w, d)
    ensures Numbered(g, d)
    ensures forall i :: 0 <= i < |st.call| ==> d.call[i].node == st.call[i].node
    ensures forall i :: 0 <= i < |st.call| - 1 ==> d.call[i] == st.call[i]
  {
  }

  lemma LookGray(g: Graph, st: State, w: Node, d: State)
    requires Look(g, st, w, d) && GrayIsCall(st)
    ensures GrayIsCall(d)
  {
    forall u | u in d.gray
      ensures exists i :: 0 <= i < |d.call| && d.call[i].node == u
    {
      var i :| 0 <= i < |st.call| && st.call[i].node == u;
      assert d.call[i].node == u;
    }
  }

  lemma LookExplored(g: Graph, st: State, w: Node, d: State)
    requires Look(g, st, w, d) && Numbered(g, d) && Explored(g, st)
    ensures Explored(g, d)
  {
    var n := |st.call|;
    forall i, k | 0 <= i < |d.call| && 0 <= k < d.call[i].next
      ensures Neighbours(g.adj, d.call[i].node)[k] in d.idx
    {
      assert d.call[i].node == st.call[i].node;
      if i == n - 1 && k == st.call[i].next {
      } else {
        assert k < st.call[i].next;
      }
    }
  }

  lemma LookConnected(g: Graph, st: State, w: Node, d: State)
    requires Look(g, st, w, d) && Numbered(g, d) && Connected(g, st)
    ensures Connected(g, d)
  {
    forall y | y in d.on && y !in d.gray
      ensures HasBelow(g, d, y)
    {
      assert HasBelow(g, st, y);
      var z :| Below(g, st, y, z);
      assert Below(g, d, y, z);
    }
  }

  lemma LookLowIsReached(g: Graph, st: State, w: Node, d: State)
    requires Look(g, st, w, d) && Numbered(g, d) && LowIsReached(g, st)
    requires (st.call[|st.call| - 1].node, w) in g.reach
    ensures LowIsReached(g, d)
  {
    forall u | u in d.gray
      ensures d.low[u] <= d.idx[u] && HasWitness(g, d, u)
    {
      assert HasWitness(g, st, u);
      var z :| LowWitness(g, st, u, z);
      if d.low[u] == st.low[u] {
        assert LowWitness(g, d, u, z);
      } else {
        assert LowWitness(g, d, u, w);
      }
    }
  }

  lemma LookLowBoundsFinished(g: Graph, st: State, w: Node, d: State)
    requires Look(g, st, w, d) && Numbered(g, d) && LowBoundsFinished(g, st)
    ensures LowBoundsFinished(g, d)
  {
    forall i, x, v | InSegment(g, d, i, x) && x !in d.gray && v in Neighbours(g.adj, x) && v in d.on
      ensures d.low[d.call[i].node] <= d.idx[v]
    {
      assert d.call[i].node == st.call[i].node;
      assert i + 1 < |st.call| ==> d.call[i + 1].node == st.call[i + 1].node;
      assert InSegment(g, st, i, x);
    }
  }

  lemma LookLowBoundsFrame(g: Graph, st: State, w: Node, d: State)
    requires Look(g, st, w, d) && Numbered(g, d) && LowBoundsFrame(g, st)
    ensures LowBoundsFrame(g, d)
  {
    var n := |st.call|;
    forall i, k | 0 <= i < |d.call| && 0 <= k < d.call[i].next
      ensures var v := Neighbours(g.adj, d.call[i].node)[k]; v in d.on ==> d.low[d.call[i].node] <= d.idx[v]
    {
      assert d.call[i].node == st.call[i].node;
      if i == n - 1 && k == st.call[i].next {
      } else {
        assert k < st.call[i].next;
      }
    }
  }

  /** Looking at a discovered node moves the frame on and, for a stack node, may lower its low link. */
  lemma LookKeepsInv(g: Graph, st: State, w: Node)
    requires Reachable(g) && Inv(g, st) && LooksAt(g, st, w) && w in st.idx
    ensures Inv(g, Looked(st, w))
  {
    var d := Looked(st, w);
    assert w in Neighbours(g.adj, st.call[|st.call| - 1].node);
    LookNumbered(g, st, w, d);
    LookGray(g, st, w, d);
    LookExplored(g, st, w, d);
    LookConnected(g, st, w, d);
    LookLowIsReached(g, st, w, d);
    LookLowBoundsFinished(g, st, w, d);
    LookLowBoundsFrame(g, st, w, d);
  }

  // ---- Finishing a frame

  /** The low links after the top frame has handed its own to its parent. */
  ghost function Propagated(st: State): map<Node, nat>
    requires |st.call| > 0 && st.call[|st.call| - 1].node in st.low
    requires |st.call| > 1 ==> st.call[|st.call| - 2].node in st.low
  {
    var u := st.call[|st.call| - 1].node;
    if |st.call| == 1 then st.low else
      var p := st.call[|st.call| - 2].node;
      st.low[p := if st.low[u] < st.low[p] then st.low[u] else st.low[p]]
  }

  /** The node stack from the top frame's node upwards. */
  ghost function Above(st: State, u: Node): set<Node>
    requires st.on <= st.idx.Keys && u in st.idx
  {
    set x | x in st.on && st.idx[x] >= st.idx[u]
  }

  /** Popping the top frame; the nodes `gone` leave the node stack. */
  ghost function Finished(st: State, gone: set<Node>): State
    requires |st.call| > 0 && st.call[|st.call| - 1].node in st.low
    requires |st.call| > 1 ==> st.call[|st.call| - 2].node in st.low
  {
    var n := |st.call| - 1;
    State(st.index, st.idx, Propagated(st), st.on - gone, st.gray - {st.call[n].node}, st.call[..n])
  }

  /** The top frame has looked at all its neighbours. */
  ghost predicate Exhausted(g: Graph, st: State) {
    |st.call| > 0 && var top := st.call[|st.call| - 1]; top.next == |Neighbours(g.adj, top.node)|
  }

  ghost predicate IsRoot(st: State) {
    && |st.call| > 0
    && var u := st.call[|st.call| - 1].node;
       u in st.low && u in st.idx && st.low[u] == st.idx[u]
  }

  /** What leaves the node stack when the top frame is popped. */
  ghost function Gone(st: State): set<Node>
    requires |st.call| > 0 && st.on <= st.idx.Keys && st.call[|st.call| - 1].node in st.idx
  {
    if IsRoot(st) then Above(st, st.call[|st.call| - 1].node) else {}
  }

  ghost predicate Finish(g: Graph, st: State, d: State) {
    && Numbered(g, st) && Exhausted(g, st)
    && d == Finished(st, Gone(st))
  }

  /** Every gray node other than the top lies strictly below it. */
  lemma GrayBelowTop(g: Graph, st: State, u: Node)
    requires Numbered(g, st) && GrayIsCall(st) && u in st.gray && |st.call| > 0
    ensures var top := st.call[|st.call| - 1].node; u == top || st.idx[u] < st.idx[top]
  {
    var i :| 0 <= i < |st.call| && st.call[i].node == u;
  }

  lemma FinishNumbered(g: Graph, st: State, d: State)
    requires Finish(g, st, d) && GrayIsCall(st)
    ensures Numbered(g, d)
  {
    forall u | u in d.gray
      ensures u in d.on
    {
      GrayBelowTop(g, st, u);
    }
    assert forall i :: 0 <= i < |d.call| ==> d.call[i] == st.call[i];
  }

  lemma FinishGray(g: Graph, st: State, d: State)
    requires Finish(g, st, d) && GrayIsCall(st)
    ensures GrayIsCall(d)
  {
    forall u | u in d.gray
      ensures exists i :: 0 <= i < |d.call| && d.call[i].node == u
    {
      var i :| 0 <= i < |st.call| && st.call[i].node == u;
      assert d.call[i].node == u;
    }
  }

  /** Every edge out of a root's segment leads into the segment or to popped nodes. */
  lemma RootSegmentClosed(g: Graph, st: State, x: Node, v: Node)
    requires Numbered(g, st) && GrayIsCall(st) && Explored(g, st) && LowLinks(g, st)
    requires Exhausted(g, st) && IsRoot(st)
    requires x in Above(st, st.call[|st.call| - 1].node) && v in Neighbours(g.adj, x)
    ensures v in st.idx && (v in st.on ==> v in Above(st, st.call[|st.call| - 1].node))
  {
    var n := |st.call| - 1;
    var top := st.call[n].node;
    if x == top {
      var k :| 0 <= k < |Neighbours(g.adj, top)| && Neighbours(g.adj, top)[k] == v;
      assert Neighbours(g.adj, st.call[n].node)[k] in st.idx;
    } else {
      if x in st.gray {
        GrayBelowTop(g, st, x);
      }
      assert InSegment(g, st, n, x);
    }
  }

  lemma FinishExplored(g: Graph, st: State, d: State)
    requires Finish(g, st, d) && GrayIsCall(st) && Explored(g, st) && LowLinks(g, st) && Numbered(g, d)
    ensures Explored(g, d)
  {
    var n := |st.call| - 1;
    var top := st.call[n].node;
    forall u, v | u in d.idx && u !in d.gray && v in Neighbours(g.adj, u)
      ensures v in d.idx
    {
      if u == top {
        var k :| 0 <= k < |Neighbours(g.adj, top)| && Neighbours(g.adj, top)[k] == v;
        assert Neighbours(g.adj, st.call[n].node)[k] in st.idx;
      }
    }
    forall i, k | 0 <= i < |d.call| && 0 <= k < d.call[i].next
      ensures Neighbours(g.adj, d.call[i].node)[k] in d.idx
    {
      assert d.call[i] == st.call[i];
    }
    forall u, v | u in d.idx && u !in d.on && v in Neighbours(g.adj, u)
      ensures v !in d.on
    {
      if u in st.on {
        RootSegmentClosed(g, st, u, v);
      }
    }
  }

  lemma FinishConnected(g: Graph, st: State, d: State)
    requires Finish(g, st, d) && Connected(g, st) && LowIsReached(g, st) && Numbered(g, d)
    ensures Connected(g, d)
  {
    var top := st.call[|st.call| - 1].node;
    forall y | y in d.on && y !in d.gray
      ensures HasBelow(g, d, y)
    {
      if y == top {
        assert HasWitness(g, st, top);
        var z :| LowWitness(g, st, top, z);
        assert Below(g, d, y, z);
      } else {
        assert HasBelow(g, st, y);
        var z :| Below(g, st, y, z);
        assert Below(g, d, y, z);
      }
    }
  }

  lemma FinishLowIsReached(g: Graph, st: State, d: State)
    requires Finish(g, st, d) && Connected(g, st) && LowIsReached(g, st) && GrayIsCall(st)
    requires Numbered(g, d) && Transitive(g)
    ensures LowIsReached(g, d)
  {
    var n := |st.call| - 1;
    var top := st.call[n].node;
    forall u | u in d.gray
      ensures d.low[u] <= d.idx[u] && HasWitness(g, d, u)
    {
      GrayBelowTop(g, st, u);
      if d.low[u] == st.low[u] {
        assert HasWitness(g, st, u);
        var z :| LowWitness(g, st, u, z);
        assert LowWitness(g, d, u, z);
      } else {
        assert (u, top) in g.reach;
        assert HasWitness(g, st, top);
        var z :| LowWitness(g, st, top, z);
        assert LowWitness(g, d, u, z);
      }
    }
  }

  lemma FinishLowBoundsFinished(g: Graph, st: State, d: State)
    requires Finish(g, st, d) && LowBoundsFinished(g, st) && LowBoundsFrame(g, st) && Numbered(g, d)
    ensures LowBoundsFinished(g, d)
  {
    var n := |st.call| - 1;
    var top := st.call[n].node;
    forall i, x, v | InSegment(g, d, i, x) && x !in d.gray && v in Neighbours(g.adj, x) && v in d.on
      ensures d.low[d.call[i].node] <= d.idx[v]
    {
      assert d.call[i] == st.call[i];
      assert i + 1 < n ==> d.call[i + 1] == st.call[i + 1];
      if x == top {
        var k :| 0 <= k < |Neighbours(g.adj, top)| && Neighbours(g.adj, top)[k] == v;
        assert Neighbours(g.adj, st.call[n].node)[k] in st.on;
      } else if i == n - 1 && st.idx[x] >= st.idx[top] {
        assert InSegment(g, st, n, x);
      } else {
        assert InSegment(g, st, i, x);
      }
    }
  }

  lemma FinishLowBoundsFrame(g: Graph, st: State, d: State)
    requires Finish(g, st, d) && LowBoundsFrame(g, st) && Numbered(g, d)
    ensures LowBoundsFrame(g, d)
  {
    forall i, k | 0 <= i < |d.call| && 0 <= k < d.call[i].next
      ensures var v := Neighbours(g.adj, d.call[i].node)[k]; v in d.on ==> d.low[d.call[i].node] <= d.idx[v]
    {
      assert d.call[i] == st.call[i];
    }
  }

  /** Popping an exhausted frame, together with its segment of the node stack when it is a root. */
  lemma FinishKeepsInv(g: Graph, st: State)
    requires Transitive(g) && Inv(g, st) && Exhausted(g, st)
    ensures Inv(g, Finished(st, Gone(st)))
  {
    var d := Finished(st, Gone(st));
    FinishNumbered(g, st, d);
    FinishGray(g, st, d);
    FinishExplored(g, st, d);
    FinishConnected(g, st, d);
    FinishLowIsReached(g, st, d);
    FinishLowBoundsFinished(g, st, d);
    FinishLowBoundsFrame(g, st, d);
  }

  // ---- Components

  ghost predicate Distinct<T>(s: seq<T>) {
    forall i, j :: 0 <= i < j < |s| ==> s[i] != s[j]
  }

  /** `c` lists, without repetition, one class of at least two nodes that reach each other. */
  ghost predicate Component(g: Graph, c: seq<Node>) {
    && |c| > 1 && Distinct(c)
    && forall u, v :: u in c ==> (v in c <==> (u, v) in g.reach && (v, u) in g.reach)
  }

  ghost predicate ListsPopped(st: State, c: seq<Node>) {
    forall u :: u in c ==> u in st.idx && u !in st.on
  }

  /** No node of an earlier component reaches one of a later component. */
  ghost predicate SinksFirst(g: Graph, sccs: seq<seq<Node>>) {
    forall i, j, u, v {:trigger u in sccs[i], v in sccs[j]} ::
      0 <= i < j < |sccs| && u in sccs[i] && v in sccs[j] ==> (u, v) !in g.reach
  }

  ghost predicate NoneMissed(g: Graph, st: State, sccs: seq<seq<Node>>) {
    forall u, v {:trigger (u, v) in g.reach} ::
      u in st.idx && u !in st.on && u != v && (u, v) in g.reach && (v, u) in g.reach ==> InSome(sccs, u)
  }

  /** The components found so far are exactly those of the popped nodes, sinks first. */
  ghost predicate Collected(g: Graph, st: State, sccs: seq<seq<Node>>) {
    && (forall i :: 0 <= i < |sccs| ==> Component(g, sccs[i]) && ListsPopped(st, sccs[i]))
    && SinksFirst(g, sccs)
    && NoneMissed(g, st, sccs)
  }

  ghost predicate InSome(sccs: seq<seq<Node>>, u: Node) {
    exists i :: 0 <= i < |sccs| && u in sccs[i]
  }

  ghost predicate ClosedIn(g: Graph, c: set<Node>) {
    forall u, v {:trigger v in Neighbours(g.adj, u)} :: u in c && v in Neighbours(g.adj, u) ==> v in c
  }

  /** What a node reaches stays inside every closed set that holds the node. */
  ghost predicate Confined(g: Graph) {
    forall c, u, v {:trigger ClosedIn(g, c), (u, v) in g.reach} ::
      ClosedIn(g, c) && u in c && (u, v) in g.reach ==> v in c
  }

  /** The popped nodes, with or without a root's segment, are closed. */
  lemma PoppedClosed(g: Graph, st: State)
    requires Numbered(g, st) && Explored(g, st)
    ensures ClosedIn(g, st.idx.Keys - st.on)
  {
  }

  lemma PoppedAndSegmentClosed(g: Graph, st: State)
    requires Numbered(g, st) && GrayIsCall(st) && Explored(g, st) && LowLinks(g, st)
    requires Exhausted(g, st) && IsRoot(st)
    ensures ClosedIn(g, (st.idx.Keys - st.on) + Above(st, st.call[|st.call| - 1].node))
  {
    var s := Above(st, st.call[|st.call| - 1].node);
    forall u, v | u in (st.idx.Keys - st.on) + s && v in Neighbours(g.adj, u)
      ensures v in (st.idx.Keys - st.on) + s
    {
      if u in s {
        RootSegmentClosed(g, st, u, v);
      }
    }
  }

  ghost predicate Descends(g: Graph, st: State, s: set<Node>, top: Node) {
    forall y {:trigger HasBelow(g, st, y)} :: y in s && y != top ==> HasBelow(g, st, y)
  }

  /** Every node of a root's segment reaches the root. */
  lemma {:induction false} SegmentReachesRoot(
      g: Graph, st: State, s: set<Node>, sink: set<Node>, top: Node, x: Node)
    requires Descends(g, st, s, top) && s <= st.on <= st.idx.Keys
    requires ClosedIn(g, sink + s) && sink !! st.on
    requires x in s && Confined(g) && Transitive(g) && (top, top) in g.reach
    ensures (x, top) in g.reach
    decreases st.idx[x]
  {
    if x == top {
    } else {
      assert HasBelow(g, st, x);
      var z :| Below(g, st, x, z);
      assert z in sink + s;
      SegmentReachesRoot(g, st, s, sink, top, z);
    }
  }

  lemma GoneDescends(g: Graph, st: State)
    requires Numbered(g, st) && GrayIsCall(st) && Connected(g, st) && IsRoot(st)
    ensures Descends(g, st, Gone(st), st.call[|st.call| - 1].node)
    ensures forall x :: x in Gone(st) ==> (st.call[|st.call| - 1].node, x) in g.reach
  {
    var top := st.call[|st.call| - 1].node;
    forall y | y in Gone(st) && y != top
      ensures HasBelow(g, st, y)
    {
      if y in st.gray {
        GrayBelowTop(g, st, y);
      }
      assert HasBelow(g, st, y);
    }
  }

  /** `s` is one whole class of mutual reachability. */
  ghost predicate IsClass(g: Graph, s: set<Node>) {
    forall u, v {:trigger (u, v) in g.reach} {:trigger u in s, v in s} ::
      u in s ==> (v in s <==> (u, v) in g.reach && (v, u) in g.reach)
  }

  /** A set whose nodes all reach and are reached from one of them, and which only leads to a
      closed set apart from itself, is a class. */
  lemma ClassAround(g: Graph, s: set<Node>, sink: set<Node>, top: Node)
    requires ClosedIn(g, sink) && ClosedIn(g, sink + s) && s !! sink && Confined(g) && Transitive(g)
    requires forall x :: x in s ==> (x, top) in g.reach && (top, x) in g.reach
    ensures IsClass(g, s)
  {
    forall u, v | u in s
      ensures v in s <==> (u, v) in g.reach && (v, u) in g.reach
    {
      if v in s {
        assert (u, top) in g.reach && (top, v) in g.reach;
        assert (v, top) in g.reach && (top, u) in g.reach;
      }
      if (u, v) in g.reach && (v, u) in g.reach {
        assert v in sink + s;
      }
    }
  }

  lemma SegmentIsClass(g: Graph, st: State, s: set<Node>, sink: set<Node>, top: Node)
    requires Descends(g, st, s, top) && s <= st.on <= st.idx.Keys
    requires ClosedIn(g, sink) && ClosedIn(g, sink + s) && sink !! st.on
    requires Confined(g) && Transitive(g) && (top, top) in g.reach
    requires forall x :: x in s ==> (top, x) in g.reach
    ensures IsClass(g, s)
  {
    forall x | x in s
      ensures (x, top) in g.reach
    {
      SegmentReachesRoot(g, st, s, sink, top, x);
    }
    ClassAround(g, s, sink, top);
  }

  lemma RootSegment(g: Graph, st: State)
    requires Inv(g, st) && Exhausted(g, st) && IsRoot(st)
    ensures var top := st.call[|st.call| - 1].node;
            && Descends(g, st, Gone(st), top)
            && ClosedIn(g, st.idx.Keys - st.on)
            && ClosedIn(g, (st.idx.Keys - st.on) + Gone(st))
            && top in g.nodes
            && forall x :: x in Gone(st) ==> (top, x) in g.reach
  {
    PoppedClosed(g, st);
    PoppedAndSegmentClosed(g, st);
    GoneDescends(g, st);
  }

  /** The segment of a root is one whole class of mutual reachability. */
  lemma GoneIsClass(g: Graph, st: State)
    requires Reachable(g) && Transitive(g) && Confined(g)
    requires Inv(g, st) && Exhausted(g, st) && IsRoot(st)
    ensures IsClass(g, Gone(st)) && Gone(st) <= st.on
  {
    RootSegment(g, st);
    SegmentIsClass(g, st, Gone(st), st.idx.Keys - st.on, st.call[|st.call| - 1].node);
  }

  ghost predicate Lists(c: seq<Node>, s: set<Node>) {
    Distinct(c) && forall u :: u in c <==> u in s
  }

  /** The classes found after a frame is finished, `c` being what left the node stack. */
  ghost function Extended(sccs: seq<seq<Node>>, c: seq<Node>): seq<seq<Node>> {
    if |c| > 1 then sccs + [c] else sccs
  }

  lemma CollectedStays(g: Graph, st: State, d: State, sccs: seq<seq<Node>>)
    requires Collected(g, st, sccs)
    requires forall u :: u in d.idx && u !in d.on <==> u in st.idx && u !in st.on
    ensures Collected(g, d, sccs)
  {
  }

  lemma ClassIsComponent(g: Graph, s: set<Node>, c: seq<Node>)
    requires IsClass(g, s) && Lists(c, s) && |c| > 1
    ensures Component(g, c)
  {
    forall u, v | u in c
      ensures v in c <==> (u, v) in g.reach && (v, u) in g.reach
    {
      assert u in s && (v in c <==> v in s);
    }
  }

  lemma SegmentIsLast(g: Graph, st: State, sccs: seq<seq<Node>>, c: seq<Node>)
    requires Numbered(g, st) && Explored(g, st) && Confined(g)
    requires SinksFirst(g, sccs) && forall i :: 0 <= i < |sccs| ==> ListsPopped(st, sccs[i])
    requires forall u :: u in c ==> u in st.on
    ensures SinksFirst(g, Extended(sccs, c))
  {
    var all := Extended(sccs, c);
    PoppedClosed(g, st);
    forall i, j, u, v | 0 <= i < j < |all| && u in all[i] && v in all[j]
      ensures (u, v) !in g.reach
    {
      if j == |sccs| {
        assert ListsPopped(st, sccs[i]) && u in st.idx.Keys - st.on;
      }
    }
  }

  lemma ClassMissesNone(g: Graph, st: State, sccs: seq<seq<Node>>, s: set<Node>, c: seq<Node>, u: Node, v: Node)
    requires IsClass(g, s) && s <= st.on && Lists(c, s) && NoneMissed(g, st, sccs)
    requires u in st.idx && u !in st.on - s
    requires u != v && (u, v) in g.reach && (v, u) in g.reach
    ensures InSome(Extended(sccs, c), u)
  {
    if u in st.on {
      assert u in c && v in c;
      var i :| 0 <= i < |c| && c[i] == u;
      var j :| 0 <= j < |c| && c[j] == v;
      assert Extended(sccs, c)[|sccs|] == c;
    } else {
      var i :| 0 <= i < |sccs| && u in sccs[i];
      assert u in Extended(sccs, c)[i];
    }
  }

  lemma RootIsCollected(g: Graph, st: State, sccs: seq<seq<Node>>, c: seq<Node>)
    requires Reachable(g) && Transitive(g) && Confined(g)
    requires Inv(g, st) && Exhausted(g, st) && IsRoot(st)
    requires Collected(g, st, sccs)
    requires Lists(c, Gone(st))
    ensures Collected(g, Finished(st, Gone(st)), Extended(sccs, c))
  {
    var d := Finished(st, Gone(st));
    var all := Extended(sccs, c);
    GoneIsClass(g, st);
    if |c| > 1 {
      ClassIsComponent(g, Gone(st), c);
    }
    SegmentIsLast(g, st, sccs, c);
    forall u, v | u in d.idx && u !in d.on && u != v && (u, v) in g.reach && (v, u) in g.reach
      ensures InSome(all, u)
    {
      ClassMissesNone(g, st, sccs, Gone(st), c, u, v);
    }
    forall i | 0 <= i < |all|
      ensures Component(g, all[i]) && ListsPopped(d, all[i])
    {
      assert i < |sccs| ==> all[i] == sccs[i];
    }
  }

  // ---- The graph of an adjacency map

  /** The edges of the adjacency map, as a set of pairs. */
  ghost function EdgesOf(adj: Adjacency): Rel {
    set u, i | u in adj && 0 <= i < |adj[u]| :: (u, adj[u][i])
  }

  /** Every node that occurs, as a key or as a neighbour. */
  ghost function Universe(adj: Adjacency): set<Node> {
    adj.Keys + set u, i | u in adj && 0 <= i < |adj[u]| :: adj[u][i]
  }

  ghost function GraphOf(adj: Adjacency): Graph {
    var nodes := Universe(adj);
    Graph(adj, nodes, set u, v | u in nodes && v in nodes && Reach(EdgesOf(adj), u, v) :: (u, v))
  }

  lemma NeighbourIsEdge(adj: Adjacency, u: Node, v: Node)
    ensures v in Neighbours(adj, u) <==> (u, v) in EdgesOf(adj)
    ensures v in Neighbours(adj, u) ==> u in Universe(adj) && v in Universe(adj)
  {
  }

  lemma ClosedStays(adj: Adjacency, c: set<Node>, u: Node, v: Node)
    requires ClosedIn(GraphOf(adj), c) && u in c && (u, v) in GraphOf(adj).reach
    ensures v in c
  {
    forall x, y | x in c && (x, y) in EdgesOf(adj)
      ensures y in c
    {
      NeighbourIsEdge(adj, x, y);
    }
    ClosedReach(EdgesOf(adj), c, u, v);
  }

  lemma GraphOfIsReachable(adj: Adjacency)
    ensures Reachable(GraphOf(adj)) && Transitive(GraphOf(adj)) && Confined(GraphOf(adj))
  {
    var g := GraphOf(adj);
    forall u, v | u in g.nodes && v in Neighbours(adj, u)
      ensures v in g.nodes && (u, v) in g.reach
    {
      NeighbourIsEdge(adj, u, v);
      ReachEdge(EdgesOf(adj), u, v);
    }
    forall u | u in g.nodes
      ensures (u, u) in g.reach
    {
      ReachRefl(EdgesOf(adj), u);
    }
    forall u, v, w | (u, v) in g.reach && (v, w) in g.reach
      ensures (u, w) in g.reach
    {
      ReachTrans(EdgesOf(adj), u, v, w);
    }
    forall c, u, v | ClosedIn(g, c) && u in c && (u, v) in g.reach
      ensures v in c
    {
      ClosedStays(adj, c, u, v);
    }
  }

  // ---- The search

  /** The node stack lists exactly the nodes of `on`, in order of discovery. */
  ghost predicate StackOk(st: State, stack: seq<Node>)
    requires st.on <= st.idx.Keys
  {
    && (forall i :: 0 <= i < |stack| ==> stack[i] in st.on)
    && (forall u :: u in st.on ==> u in stack)
    && (forall i, j :: 0 <= i < j < |stack| ==> st.idx[stack[i]] < st.idx[stack[j]])
  }

  ghost predicate Flags(onStack: map<Node, bool>, on: set<Node>) {
    forall u :: u in on <==> u in onStack && onStack[u]
  }

  /** `do { w = stack.pop(); ... } while (w !== node)`: `node` and all above it leave the stack,
      topmost first. */
  method PopComponent(stack: seq<Node>, onStack: map<Node, bool>, node: Node)
      returns (scc: seq<Node>, rest: seq<Node>, flags: map<Node, bool>)
    requires node in stack && Distinct(stack)
    ensures |rest| < |stack| && rest == stack[..|rest|] && stack[|rest|] == node
    ensures |scc| == |stack| - |rest| && forall i :: 0 <= i < |scc| ==> scc[i] == stack[|stack| - 1 - i]
    ensures forall u :: (u in flags && flags[u]) <==> (u in onStack && onStack[u] && u !in scc)
  {
    scc, rest, flags := [], stack, onStack;
    ghost var k :| 0 <= k < |stack| && stack[k] == node;
    while true
      invariant k < |rest| <= |stack| && rest == stack[..|rest|]
      invariant |scc| == |stack| - |rest| && forall i :: 0 <= i < |scc| ==> scc[i] == stack[|stack| - 1 - i]
      invariant forall u :: (u in flags && flags[u]) <==> (u in onStack && onStack[u] && u !in scc)
      decreases |rest|
    {
      var w := rest[|rest| - 1];
      rest := rest[..|rest| - 1];
      flags := flags[w := false];
      scc := scc + [w];
      if w == node {
        break;
      }
    }
  }

  lemma StackDistinct(st: State, stack: seq<Node>)
    requires st.on <= st.idx.Keys && StackOk(st, stack)
    ensures Distinct(stack)
  {
    forall i, j | 0 <= i < j < |stack|
      ensures stack[i] != stack[j]
    {
      assert st.idx[stack[i]] < st.idx[stack[j]];
    }
  }

  lemma PushedStack(g: Graph, st: State, call: seq<Frame>, w: Node, stack: seq<Node>)
    requires Numbered(g, st) && StackOk(st, stack) && w !in st.idx
    ensures Discover(st, call, w).on <= Discover(st, call, w).idx.Keys
    ensures StackOk(Discover(st, call, w), stack + [w])
  {
    var s := stack + [w];
    assert forall i :: 0 <= i < |stack| ==> s[i] == stack[i] && stack[i] != w;
    forall u | u in st.on + {w}
      ensures u in s
    {
      if u == w {
        assert s[|stack|] == w;
      } else {
        var i :| 0 <= i < |stack| && stack[i] == u;
        assert s[i] == u;
      }
    }
  }

  /** What a root pops off the stack is exactly its segment. */
  lemma PoppedStack(g: Graph, st: State, stack: seq<Node>, k: nat, scc: seq<Node>)
    requires Numbered(g, st) && StackOk(st, stack) && IsRoot(st)
    requires k < |stack| && stack[k] == st.call[|st.call| - 1].node
    requires |scc| == |stack| - k && forall i :: 0 <= i < |scc| ==> scc[i] == stack[|stack| - 1 - i]
    ensures Lists(scc, Gone(st))
    ensures Finished(st, Gone(st)).on <= st.idx.Keys && StackOk(Finished(st, Gone(st)), stack[..k])
  {
    var top := stack[k];
    StackDistinct(st, stack);
    forall u
      ensures u in scc <==> u in Gone(st)
    {
      if u in scc {
        var i :| 0 <= i < |scc| && scc[i] == u;
        assert stack[|stack| - 1 - i] == u;
      }
      if u in Gone(st) {
        var j :| 0 <= j < |stack| && stack[j] == u;
        assert scc[|stack| - 1 - j] == u;
      }
    }
    KeptStack(g, st, stack, k);
  }

  lemma KeptStack(g: Graph, st: State, stack: seq<Node>, k: nat)
    requires Numbered(g, st) && StackOk(st, stack) && IsRoot(st)
    requires k < |stack| && stack[k] == st.call[|st.call| - 1].node
    ensures StackOk(Finished(st, Gone(st)), stack[..k])
  {
    var d := Finished(st, Gone(st));
    var rest := stack[..k];
    assert forall i :: 0 <= i < k ==> rest[i] == stack[i];
    forall u | u in d.on
      ensures u in rest
    {
      var j :| 0 <= j < |stack| && stack[j] == u;
      assert j < k && rest[j] == u;
    }
  }

  /** Everything the two loops maintain. */
  ghost predicate Search(g: Graph, st: State, stack: seq<Node>, onStack: map<Node, bool>, sccs: seq<seq<Node>>) {
    Inv(g, st) && Collected(g, st, sccs) && StackOk(st, stack) && Flags(onStack, st.on)
  }

  ghost predicate Sound(g: Graph) {
    Reachable(g) && Transitive(g) && Confined(g)
  }

  /** `g` is the graph of `adj`. */
  ghost predicate Describes(g: Graph, adj: Adjacency) {
    && g.adj == adj && Sound(g) && (forall u :: u in adj ==> u in g.nodes)
    && (forall u, v {:trigger (u, v) in g.reach} {:trigger Reach(EdgesOf(adj), u, v)} ::
          (u, v) in g.reach <==> u in g.nodes && v in g.nodes && Reach(EdgesOf(adj), u, v))
    && (forall u, v {:trigger Reach(EdgesOf(adj), u, v)} ::
          u != v && Reach(EdgesOf(adj), u, v) ==> u in adj && v in g.nodes)
  }

  lemma NothingBelowBottom(g: Graph, st: State, stack: seq<Node>)
    requires st.on <= st.idx.Keys && StackOk(st, stack) && stack != []
    ensures !HasBelow(g, st, stack[0])
  {
    forall z | z in st.on
      ensures !Below(g, st, stack[0], z)
    {
      var j :| 0 <= j < |stack| && stack[j] == z;
    }
  }

  /** With no open frame the node stack is empty: its bottom node would have to reach something below it. */
  lemma NoFrameNoStack(g: Graph, st: State, stack: seq<Node>, onStack: map<Node, bool>, sccs: seq<seq<Node>>)
    requires Search(g, st, stack, onStack, sccs) && st.call == []
    ensures st.on == {} && stack == []
  {
    if stack != [] {
      NothingBelowBottom(g, st, stack);
    }
    assert forall u :: u in st.on ==> u in stack;
  }

  lemma StartSearch(
      adj: Adjacency, g: Graph, st: State, stack: seq<Node>, onStack: map<Node, bool>, sccs: seq<seq<Node>>, w: Node)
    requires Describes(g, adj) && Search(g, st, stack, onStack, sccs) && st.call == []
    requires w !in st.idx && w in g.nodes
    ensures Search(g, Discover(st, [], w), stack + [w], onStack[w := true], sccs)
  {
    NoFrameNoStack(g, st, stack, onStack, sccs);
    StartKeepsInv(g, st, w);
    PushedStack(g, st, [], w, stack);
    CollectedStays(g, st, Discover(st, [], w), sccs);
  }

  lemma TreeEdgeSearch(
      adj: Adjacency, g: Graph, st: State, stack: seq<Node>, onStack: map<Node, bool>, sccs: seq<seq<Node>>, w: Node)
    requires Describes(g, adj) && Search(g, st, stack, onStack, sccs)
    requires LooksAt(g, st, w) && w !in st.idx
    ensures w in g.nodes
    ensures Search(g, Discover(st, Advanced(st.call), w), stack + [w], onStack[w := true], sccs)
  {
    TreeEdgeKeepsInv(g, st, w);
    PushedStack(g, st, Advanced(st.call), w, stack);
    CollectedStays(g, st, Discover(st, Advanced(st.call), w), sccs);
  }

  lemma LookSearch(
      adj: Adjacency, g: Graph, st: State, stack: seq<Node>, onStack: map<Node, bool>, sccs: seq<seq<Node>>, w: Node)
    requires Describes(g, adj) && Search(g, st, stack, onStack, sccs)
    requires LooksAt(g, st, w) && w in st.idx
    ensures Search(g, Looked(st, w), stack, onStack, sccs)
  {
    LookKeepsInv(g, st, w);
    CollectedStays(g, st, Looked(st, w), sccs);
  }

  lemma FinishSearch(
      adj: Adjacency, g: Graph, st: State, stack: seq<Node>, onStack: map<Node, bool>, sccs: seq<seq<Node>>)
    requires Describes(g, adj) && Search(g, st, stack, onStack, sccs)
    requires Exhausted(g, st) && !IsRoot(st)
    ensures Search(g, Finished(st, Gone(st)), stack, onStack, sccs)
  {
    FinishKeepsInv(g, st);
    CollectedStays(g, st, Finished(st, Gone(st)), sccs);
  }

  lemma RootSearch(
      adj: Adjacency, g: Graph, st: State, stack: seq<Node>, sccs: seq<seq<Node>>, k: nat, scc: seq<Node>,
        flags: map<Node, bool>,
      onStack: map<Node, bool>)
    requires Describes(g, adj) && Search(g, st, stack, onStack, sccs)
    requires Exhausted(g, st) && IsRoot(st)
    requires k < |stack| && stack[k] == st.call[|st.call| - 1].node
    requires |scc| == |stack| - k && forall i :: 0 <= i < |scc| ==> scc[i] == stack[|stack| - 1 - i]
    requires forall u :: (u in flags && flags[u]) <==> (u in onStack && onStack[u] && u !in scc)
    ensures Search(g, Finished(st, Gone(st)), stack[..k], flags, Extended(sccs, scc))
  {
    FinishKeepsInv(g, st);
    PoppedStack(g, st, stack, k, scc);
    RootIsCollected(g, st, sccs, scc);
  }

  lemma EmptySearch(g: Graph)
    ensures Search(g, State(0, map[], map[], {}, {}, []), [], map[], [])
  {
  }

  /** What the method's own steps need to know about the bundle. */
  lemma SearchShape(g: Graph, st: State, stack: seq<Node>, onStack: map<Node, bool>, sccs: seq<seq<Node>>)
    requires Search(g, st, stack, onStack, sccs)
    ensures st.low.Keys == st.idx.Keys <= g.nodes && st.on <= st.idx.Keys
    ensures forall i :: 0 <= i < |st.call| ==>
              st.call[i].node in st.idx && st.call[i].node in stack
              && st.call[i].next <= |Neighbours(g.adj, st.call[i].node)|
    ensures forall u :: u in st.on <==> u in onStack && onStack[u]
    ensures Distinct(stack)
  {
    StackDistinct(st, stack);
  }

  lemma TopFrame(g: Graph, st: State, stack: seq<Node>, onStack: map<Node, bool>, sccs: seq<seq<Node>>)
    requires Search(g, st, stack, onStack, sccs) && |st.call| > 0
    ensures st.on <= st.idx.Keys <= g.nodes
    ensures var top := st.call[|st.call| - 1];
            top.node in st.idx && top.node in st.low && top.next <= |Neighbours(g.adj, top.node)|
    ensures Flags(onStack, st.on)
  {
  }

  /** `c` lists, without repetition, one class of at least two nodes on common cycles of `rel`. */
  ghost predicate CycleClass(rel: Rel, c: seq<Node>) {
    |c| > 1 && Distinct(c) && forall u, v :: u in c ==> (v in c <==> Mutual(rel, u, v))
  }

  /** `sccs` lists every such class exactly once, in reverse topological order. */
  ghost predicate ExactCycleClasses(rel: Rel, sccs: seq<seq<Node>>) {
    && (forall i :: 0 <= i < |sccs| ==> CycleClass(rel, sccs[i]))
    && (forall i, j, u, v {:trigger u in sccs[i], v in sccs[j]} ::
          0 <= i < j < |sccs| && u in sccs[i] && v in sccs[j] ==> !Reach(rel, u, v))
    && (forall u, v :: u != v && Mutual(rel, u, v) ==> InSome(sccs, u))
  }

  lemma DescribeGraph(adj: Adjacency) returns (g: Graph)
    ensures Describes(g, adj) && g.adj == adj && adj.Keys <= g.nodes
  {
    g := GraphOf(adj);
    GraphOfIsReachable(adj);
    forall u, v | u != v && Reach(EdgesOf(adj), u, v)
      ensures u in adj && v in g.nodes
    {
      MovesFromKey(adj, u, v);
    }
  }

  /** A node that reaches another one is a key, and both occur in the graph. */
  lemma MovesFromKey(adj: Adjacency, u: Node, v: Node)
    requires u != v && Reach(EdgesOf(adj), u, v)
    ensures u in adj && v in Universe(adj)
  {
    var p :| WalkFrom(EdgesOf(adj), p, u, v);
    var i := 0;
    var x := p[i + 1];
    assert (p[i], p[i + 1]) in EdgesOf(adj);
    NeighbourIsEdge(adj, u, x);
    forall x, y | (x, y) in EdgesOf(adj)
      ensures y in Universe(adj)
    {
      NeighbourIsEdge(adj, x, y);
    }
    ClosedReach(EdgesOf(adj), Universe(adj), u, v);
  }

  lemma ComponentIsCycleClass(g: Graph, adj: Adjacency, c: seq<Node>)
    requires Describes(g, adj) && Component(g, c) && forall u :: u in c ==> u in g.nodes
    ensures CycleClass(EdgesOf(adj), c)
  {
    forall u, v | u in c
      ensures v in c <==> Mutual(EdgesOf(adj), u, v)
    {
      if u == v {
        ReachRefl(EdgesOf(adj), u);
      }
    }
  }

  lemma ReportIsExact(
      adj: Adjacency, g: Graph, st: State, stack: seq<Node>, onStack: map<Node, bool>, sccs: seq<seq<Node>>)
    requires Describes(g, adj) && Search(g, st, stack, onStack, sccs) && st.on == {}
    requires forall u :: u in adj ==> u in st.idx
    ensures ExactCycleClasses(EdgesOf(adj), sccs)
  {
    forall i | 0 <= i < |sccs|
      ensures CycleClass(EdgesOf(adj), sccs[i])
    {
      assert ListsPopped(st, sccs[i]);
      ComponentIsCycleClass(g, adj, sccs[i]);
    }
    forall i, j, u, v | 0 <= i < j < |sccs| && u in sccs[i] && v in sccs[j]
      ensures !Reach(EdgesOf(adj), u, v)
    {
      assert ListsPopped(st, sccs[i]) && ListsPopped(st, sccs[j]);
    }
    forall u, v | u != v && Mutual(EdgesOf(adj), u, v)
      ensures InSome(sccs, u)
    {
      assert u in g.nodes && v in g.nodes && (u, v) in g.reach && (v, u) in g.reach;
    }
  }

  /** The end of a frame: pop it, hand its low link to the parent and, at a root, collect the component. */
  method FinishFrame(
      ghost adj: Adjacency, ghost g: Graph, ghost st: State, callStack: seq<Frame>, indices: map<Node, nat>,
      lowlinks: map<Node, nat>, stack: seq<Node>, onStack: map<Node, bool>, sccs: seq<seq<Node>>)
      returns (call: seq<Frame>, low: map<Node, nat>, rest: seq<Node>, flags: map<Node, bool>, found: seq<seq<Node>>)
    requires Describes(g, adj) && Search(g, st, stack, onStack, sccs) && Exhausted(g, st)
    requires st.idx == indices && st.low == lowlinks && st.call == callStack
    ensures st.on <= st.idx.Keys && call == callStack[..|callStack| - 1]
    ensures |call| > 0 ==> call[|call| - 1].node in lowlinks && callStack[|callStack| - 1].node in lowlinks
    ensures callStack[|callStack| - 1].node in st.low && callStack[|callStack| - 1].node in st.idx
    ensures low == Propagated(st)
    ensures Search(g, Finished(st, Gone(st)), rest, flags, found)
  {
    hide Search, Describes;
    SearchShape(g, st, stack, onStack, sccs);
    var node := callStack[|callStack| - 1].node;
    call, low, rest, flags, found := callStack[..|callStack| - 1], lowlinks, stack, onStack, sccs;
    if |call| > 0 {
      var parentNode := call[|call| - 1].node;
      low := low[parentNode := if low[node] < low[parentNode] then low[node] else low[parentNode]];
    }
    if low[node] == indices[node] {
      var scc;
      scc, rest, flags := PopComponent(stack, onStack, node);
      RootSearch(adj, g, st, stack, sccs, |rest|, scc, flags, onStack);
      if |scc| > 1 {
        found := found + [scc];
      }
    } else {
      FinishSearch(adj, g, st, stack, onStack, sccs);
    }
  }

  /** `tarjanSCC`: for every adjacency map, with `keys` its keys in iteration order, the classes of
      mutually reachable nodes with at least two members. */
  method TarjanSCC(keys: seq<Node>, adj: Adjacency) returns (sccs: seq<seq<Node>>)
    requires forall u :: u in keys <==> u in adj
    ensures ExactCycleClasses(EdgesOf(adj), sccs)
  {
    hide Search, Describes;
    var index: nat := 0;
    var indices: map<Node, nat> := map[];
    var lowlinks: map<Node, nat> := map[];
    var onStack: map<Node, bool> := map[];
    var stack: seq<Node> := [];
    sccs := [];
    ghost var g := DescribeGraph(adj);
    ghost var st := State(0, map[], map[], {}, {}, []);
    EmptySearch(g);
    for k := 0 to |keys|
      invariant Search(g, st, stack, onStack, sccs)
      invariant st.index == index && st.idx == indices && st.low == lowlinks && st.call == []
      invariant forall i :: 0 <= i < k ==> keys[i] in indices
    {
      var startNode := keys[k];
      if startNode !in indices {
        var callStack := [Frame(startNode, 0)];
        StartSearch(adj, g, st, stack, onStack, sccs, startNode);
        st := Discover(st, [], startNode);
        indices := indices[startNode := index];
        lowlinks := lowlinks[startNode := index];
        index := index + 1;
        stack := stack + [startNode];
        onStack := onStack[startNode := true];
        ghost var seen := indices.Keys;
        while |callStack| > 0
          invariant Search(g, st, stack, onStack, sccs)
          invariant st.index == index && st.idx == indices && st.low == lowlinks && st.call == callStack
          invariant seen <= indices.Keys
          decreases g.nodes - indices.Keys, |callStack|,
                    if callStack == [] then 0 else
                      |Neighbours(adj, callStack[|callStack| - 1].node)| - callStack[|callStack| - 1].next
        {
          TopFrame(g, st, stack, onStack, sccs);
          var top := |callStack| - 1;
          var node := callStack[top].node;
          var neighborIdx := callStack[top].next;
          var neighbors := Neighbours(adj, node);
          if neighborIdx < |neighbors| {
            callStack := callStack[top := Frame(node, neighborIdx + 1)];
            var neighbor := neighbors[neighborIdx];
            if neighbor !in indices {
              TreeEdgeSearch(adj, g, st, stack, onStack, sccs, neighbor);
              assert neighbor in g.nodes - indices.Keys;
              st := Discover(st, Advanced(st.call), neighbor);
              indices := indices[neighbor := index];
              lowlinks := lowlinks[neighbor := index];
              index := index + 1;
              stack := stack + [neighbor];
              onStack := onStack[neighbor := true];
              assert neighbor !in g.nodes - indices.Keys;
              callStack := callStack + [Frame(neighbor, 0)];
            } else {
              LookSearch(adj, g, st, stack, onStack, sccs, neighbor);
              st := Looked(st, neighbor);
              if neighbor in onStack && onStack[neighbor] {
                lowlinks := lowlinks[node :=
                  if indices[neighbor] < lowlinks[node] then indices[neighbor] else lowlinks[node]];
              }
            }
          } else {
            callStack, lowlinks, stack, onStack, sccs :=
              FinishFrame(adj, g, st, callStack, indices, lowlinks, stack, onStack, sccs);
            st := Finished(st, Gone(st));
          }
        }
      }
    }
    NoFrameNoStack(g, st, stack, onStack, sccs);
    ReportIsExact(adj, g, st, stack, onStack, sccs);
  }
}
