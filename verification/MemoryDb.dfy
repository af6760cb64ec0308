/** The memory views' mutators. Each runs inside `db.transaction`: it works on the tables as they
    stand and either commits all of its statements or, when one throws, none. */
module MemoryDb {
  import opened Wrappers
  import opened MemoryTables

  /** The names seen so far have been tagged onto memory `id`. */
  ghost predicate TaggedSoFar(base: Tables, t: Tables, id: int, names: seq<string>) {
    Tagged(base, t, id, names) && Distinct(names)
  }

  lemma TaggedNothing(base: Tables, id: int)
    requires Consistent(base) && id in base.memories
    ensures TaggedSoFar(base, base, id, [])
  {
  }

  /** `INSERT OR IGNORE` of the tag, then `SELECT id`. */
  lemma TagInserted(base: Tables, t: Tables, id: int, names: seq<string>, name: string)
    requires Consistent(base) && TaggedSoFar(base, t, id, names)
    ensures var w := InsertTagIgnore(t, name); TagsAdded(base, w, names + [name]) && HasName(w.tags, name)
  {
    var w := InsertTagIgnore(t, name);
    if !HasName(t.tags, name) {
      assert t.nextTag in w.tags && w.tags[t.nextTag].name == name;
      forall n | n in names + [name]
        ensures HasName(w.tags, n)
      {
        if n in names {
          var i :| i in t.tags && t.tags[i].name == n;
          assert i in w.tags && w.tags[i].name == n;
        }
      }
    }
  }

  /** The key is taken exactly when the name has come up before. */
  lemma KeyTakenIffRepeated(base: Tables, t: Tables, id: int, names: seq<string>, name: string, tag: int)
    requires Consistent(base) && Untagged(base.edges, id) && TaggedSoFar(base, t, id, names)
    requires var w := InsertTagIgnore(t, name); tag in w.tags && w.tags[tag].name == name
    ensures HasKey(t.edges, TaggedKey(id, tag)) <==> name in names
  {
    var w := InsertTagIgnore(t, name);
    if HasKey(t.edges, TaggedKey(id, tag)) {
      var i :| i in t.edges && t.edges[i].key == TaggedKey(id, tag);
      assert i !in base.edges;
      assert TagEdge(t, t.edges[i].key, id, names);
    }
    if name in names {
      assert HasName(t.tags, name);
      assert tag in t.tags && t.tags[tag].name in names;
    }
  }

  ghost function WithTagEdge(w: Tables, id: int, tag: int): Tables {
    w.(edges := w.edges[w.nextEdge := Edge(TaggedKey(id, tag), None, None)], nextEdge := w.nextEdge + 1)
  }

  lemma NamedTagsHaveEdges(base: Tables, t: Tables, u: Tables, id: int, names: seq<string>, name: string, tag: int)
    requires EdgesAdded(base, t, id, names)
    requires forall k :: k in u.tags && k != tag ==> u.tags[k].name != name && k in t.tags && u.tags[k] == t.tags[k]
    requires u.edges == t.edges[t.nextEdge := Edge(TaggedKey(id, tag), None, None)]
    ensures forall k :: k in u.tags && u.tags[k].name in names + [name] ==> HasKey(u.edges, TaggedKey(id, k))
  {
    forall k | k in u.tags && u.tags[k].name in names + [name]
      ensures HasKey(u.edges, TaggedKey(id, k))
    {
      if k == tag {
        assert u.edges[t.nextEdge].key == TaggedKey(id, k);
      } else {
        assert HasKey(t.edges, TaggedKey(id, k));
        var i :| i in t.edges && t.edges[i].key == TaggedKey(id, k);
        assert i in u.edges && u.edges[i].key == TaggedKey(id, k);
      }
    }
  }

  lemma EdgesStillAdded(base: Tables, t: Tables, w: Tables, id: int, names: seq<string>, name: string, tag: int)
    requires EdgesAdded(base, t, id, names) && base.nextEdge <= t.nextEdge
    requires forall k :: k in w.tags && k != tag ==> w.tags[k].name != name && k in t.tags && w.tags[k] == t.tags[k]
    requires forall k :: k in t.tags ==> k in w.tags && w.tags[k] == t.tags[k]
    requires w.edges == t.edges && w.nextEdge == t.nextEdge && tag in w.tags && w.tags[tag].name == name
    requires !HasKey(t.edges, TaggedKey(id, tag)) && forall i :: i in base.edges ==> i < base.nextEdge
    ensures EdgesAdded(base, WithTagEdge(w, id, tag), id, names + [name])
  {
    var u := WithTagEdge(w, id, tag);
    NamedTagsHaveEdges(base, t, u, id, names, name, tag);
    hide TagEdge, HasKey, UniqueKeys;
  }

  /** With its tag in place and its key free, one more name is linked to the memory. */
  lemma EdgeInserted(base: Tables, t: Tables, id: int, names: seq<string>, name: string, tag: int)
    requires Consistent(base) && TaggedSoFar(base, t, id, names) && base.nextEdge <= t.nextEdge
    requires var w := InsertTagIgnore(t, name);
             TagsAdded(base, w, names + [name]) && tag in w.tags && w.tags[tag].name == name
    requires !HasKey(t.edges, TaggedKey(id, tag)) && name !in names
    ensures TaggedSoFar(base, WithTagEdge(InsertTagIgnore(t, name), id, tag), id, names + [name])
  {
    var w := InsertTagIgnore(t, name);
    EdgesStillAdded(base, t, w, id, names, name, tag);
    hide Consistent, HasName, HasKey, TagsAdded, EdgesAdded;
  }

  lemma TaggedAll(base: Tables, t: Tables, id: int, names: seq<string>)
    requires TaggedSoFar(base, t, id, names)
    ensures Tagged(base, t, id, names) && Distinct(names)
  {
  }

  /** The tag loop that `write` and `update` share: each name is created if new and linked to
      memory `id`; a repeated name violates the UNIQUE key. */
  method TagMemory(base: Tables, id: int, names: seq<string>) returns (r: Result<Tables, Error>)
    requires Consistent(base) && id in base.memories && Untagged(base.edges, id)
    ensures r.Success? <==> Distinct(names)
    ensures r.Success? ==> Tagged(base, r.value, id, names)
  {
    hide Consistent, TaggedSoFar, TagsAdded, HasKey, Untagged;
    var t := base;
    TaggedNothing(base, id);
    for i := 0 to |names|
      invariant TaggedSoFar(base, t, id, names[..i]) && base.nextEdge <= t.nextEdge
    {
      var name := names[i];
      assert names[..i + 1] == names[..i] + [name];
      TagInserted(base, t, id, names[..i], name);
      var w := InsertTagIgnore(t, name);
      var tag :| tag in w.tags && w.tags[tag].name == name;
      KeyTakenIffRepeated(base, t, id, names[..i], name, tag);
      var inserted := InsertEdge(w, Edge(TaggedKey(id, tag), None, None));
      if inserted.Failure? {
        var j :| 0 <= j < i && names[..i][j] == name;
        assert names[j] == names[i];
        return Failure(UniqueViolation);
      }
      EdgeInserted(base, t, id, names[..i], name, tag);
      t := inserted.value;
    }
    assert names[..|names|] == names;
    TaggedAll(base, t, id, names);
    r := Success(t);
  }

  // ---- The edge rewriting of merge, one side at a time

  /** The side of an edge that a statement rewrites: `from_*` or `to_*`. */
  datatype Side = Outbound | Inbound

  function End(k: Key, side: Side): Endpoint {
    if side.Outbound? then k.from else k.to
  }

  function WithEnd(k: Key, side: Side, e: Endpoint): Key {
    if side.Outbound? then k.(from := e) else k.(to := e)
  }

  /** Step 1: `DELETE` the source's edges whose counterpart at the target exists. */
  function DropDuplicates(edges: map<int, Edge>, side: Side, source: int, target: int): map<int, Edge> {
    map i | i in edges
      && !(End(edges[i].key, side) == OnMemory(source) && HasKey(edges, WithEnd(edges[i].key, side, OnMemory(target))))
      :: edges[i]
  }

  function MovedKey(k: Key, side: Side, source: int, target: int): Key {
    if End(k, side) == OnMemory(source) then WithEnd(k, side, OnMemory(target)) else k
  }

  function Moved(edges: map<int, Edge>, side: Side, source: int, target: int): map<int, Edge> {
    map i | i in edges :: edges[i].(key := MovedKey(edges[i].key, side, source, target))
  }

  /** In some row order the `UPDATE` would give row `i` the key that another row has. */
  predicate Collides(edges: map<int, Edge>, side: Side, source: int, target: int) {
    exists i, j :: i in edges && j in edges && i != j && End(edges[i].key, side) == OnMemory(source)
      && (MovedKey(edges[i].key, side, source, target) == edges[j].key
          || MovedKey(edges[i].key, side, source, target) == MovedKey(edges[j].key, side, source, target))
  }

  /** Step 2: `UPDATE` the source's remaining edges to the target. */
  function MoveEdges(edges: map<int, Edge>, side: Side, source: int, target: int): Result<map<int, Edge>, Error> {
    if Collides(edges, side, source, target) then Failure(UniqueViolation)
    else Success(Moved(edges, side, source, target))
  }

  /** After step 1 the update of step 2 meets no UNIQUE key. */
  lemma NoCollision(edges: map<int, Edge>, side: Side, source: int, target: int)
    requires UniqueKeys(edges) && source != target
    ensures !Collides(DropDuplicates(edges, side, source, target), side, source, target)
  {
    var kept := DropDuplicates(edges, side, source, target);
    forall i, j | i in kept && j in kept && i != j && End(kept[i].key, side) == OnMemory(source)
      ensures MovedKey(kept[i].key, side, source, target) != kept[j].key
      ensures MovedKey(kept[i].key, side, source, target) != MovedKey(kept[j].key, side, source, target)
    {
      var k := WithEnd(edges[i].key, side, OnMemory(target));
      assert !HasKey(edges, k);
      assert edges[i].key != edges[j].key;
    }
  }

  /** What one side's two statements do to the edges. */
  ghost predicate HalfMerged(e: map<int, Edge>, f: map<int, Edge>, side: Side, source: int, target: int) {
    && UniqueKeys(f)
    && (forall i :: i in f ==> i in e && f[i] == e[i].(key := MovedKey(e[i].key, side, source, target)))
    && (forall i :: i in e && End(e[i].key, side) != OnMemory(source) ==> i in f)
    && (forall i :: i in e ==> HasKey(f, MovedKey(e[i].key, side, source, target)))
  }

  lemma HalfMergeIsQuotient(e: map<int, Edge>, side: Side, source: int, target: int)
    requires UniqueKeys(e) && source != target
    ensures var kept := DropDuplicates(e, side, source, target);
            MoveEdges(kept, side, source, target).Success?
            && HalfMerged(e, MoveEdges(kept, side, source, target).value, side, source, target)
  {
    NoCollision(e, side, source, target);
    var kept := DropDuplicates(e, side, source, target);
    var f := Moved(kept, side, source, target);
    forall i, j | i in f && j in f && i != j
      ensures f[i].key != f[j].key
    {
      assert e[i].key != e[j].key;
      assert End(kept[i].key, side) == OnMemory(source) ==> f[i].key != kept[j].key && f[i].key != f[j].key;
      assert End(kept[j].key, side) == OnMemory(source) ==> f[j].key != kept[i].key;
    }
    forall i | i in e
      ensures HasKey(f, MovedKey(e[i].key, side, source, target))
    {
      var k := MovedKey(e[i].key, side, source, target);
      if i in kept {
        assert f[i].key == k;
      } else {
        var j :| j in e && e[j].key == k;
        assert End(k, side) == OnMemory(target);
        assert j in kept && f[j].key == k;
      }
    }
  }

  /** Moving both ends of a key renames the source in it. */
  lemma MovedTwice(k: Key, source: int, target: int)
    ensures MovedKey(MovedKey(k, Outbound, source, target), Inbound, source, target) == RenameKey(k, source, target)
  {
  }

  /** No key is lost on the way through both sides. */
  lemma HalvesKeepKeys(e: map<int, Edge>, f: map<int, Edge>, g: map<int, Edge>, source: int, target: int, i: int)
    requires HalfMerged(e, f, Outbound, source, target) && HalfMerged(f, g, Inbound, source, target) && i in e
    ensures HasKey(g, RenameKey(e[i].key, source, target))
  {
    hide MovedKey, RenameKey;
    var half := MovedKey(e[i].key, Outbound, source, target);
    MovedTwice(e[i].key, source, target);
    assert HasKey(f, half);
    var j :| j in f && f[j].key == half;
    assert HasKey(g, MovedKey(f[j].key, Inbound, source, target));
  }

  /** What is left at the end is a row from the beginning, renamed. */
  lemma HalvesKeepRow(e: map<int, Edge>, f: map<int, Edge>, g: map<int, Edge>, source: int, target: int, i: int)
    requires HalfMerged(e, f, Outbound, source, target) && HalfMerged(f, g, Inbound, source, target) && i in g
    ensures i in e && g[i] == e[i].(key := RenameKey(e[i].key, source, target))
  {
    hide MovedKey, RenameKey, HasKey, UniqueKeys;
    assert i in f && i in e;
    MovedTwice(e[i].key, source, target);
  }

  /** Both sides together glue the source onto the target. */
  lemma HalvesMakeMerge(e: map<int, Edge>, f: map<int, Edge>, g: map<int, Edge>, source: int, target: int)
    requires HalfMerged(e, f, Outbound, source, target) && HalfMerged(f, g, Inbound, source, target)
    ensures KeysOf(g) == set k | k in KeysOf(e) :: RenameKey(k, source, target)
    ensures forall i :: i in g ==> i in e && g[i] == e[i].(key := RenameKey(e[i].key, source, target))
    ensures forall i :: i in e && !Touches(e[i].key, OnMemory(source)) ==> i in g
  {
    forall i | i in e && !Touches(e[i].key, OnMemory(source))
      ensures i in g
    {
      assert i in f && f[i].key == e[i].key;
    }
    hide HalfMerged, RenameKey, MovedKey;
    forall i | i in g
      ensures i in e && g[i] == e[i].(key := RenameKey(e[i].key, source, target))
    {
      HalvesKeepRow(e, f, g, source, target, i);
    }
    var image := set k | k in KeysOf(e) :: RenameKey(k, source, target);
    forall k | k in KeysOf(g)
      ensures k in image
    {
      var i :| i in g && g[i].key == k;
      assert e[i].key in KeysOf(e);
    }
    forall k | k in image
      ensures k in KeysOf(g)
    {
      var i :| i in e && RenameKey(e[i].key, source, target) == k;
      HalvesKeepKeys(e, f, g, source, target, i);
    }
  }

  // ---- The store

  class Store {
    var memories: map<int, Memory>
    var tags: map<int, Tag>
    var edges: map<int, Edge>
    var audit: seq<Audit>
    var nextMemory: nat
    var nextTag: nat
    var nextEdge: nat

    function Rows(): Tables
      reads this
    {
      Tables(memories, tags, edges, audit, nextMemory, nextTag, nextEdge)
    }

    ghost predicate Valid()
      reads this
    {
      Consistent(Rows())
    }

    constructor ()
      ensures Valid() && Rows() == EMPTY
    {
      memories, tags, edges, audit := map[], map[], map[], [];
      nextMemory, nextTag, nextEdge := 1, 1, 1;
    }

    /** The end of a transaction whose statements have all succeeded. */
    method Commit(t: Tables)
      modifies this
      ensures Rows() == t
    {
      memories, tags, edges, audit := t.memories, t.tags, t.edges, t.audit;
      nextMemory, nextTag, nextEdge := t.nextMemory, t.nextTag, t.nextEdge;
    }

    method Write(content: string, layer: Layer, names: seq<string>) returns (r: Result<int, Error>)
      requires Valid()
      modifies this
      ensures Valid()
      ensures r.Success? <==> Distinct(names)
      ensures r.Success? ==> Wrote(old(Rows()), Rows(), r.value, content, layer, names)
      ensures r.Failure? ==> Rows() == old(Rows())
    {
      hide Consistent, Tagged;
      ghost var before := Rows();
      var t := Rows();
      var id := t.nextMemory;
      var m := Memory(layer, content, 0, 1.0);
      InsertKeepsConsistent(t, m);
      NewMemoryUntagged(t);
      t := InsertMemory(t, m);
      var tagged := TagMemory(t, id, names);
      if tagged.Failure? {
        return Failure(tagged.error);
      }
      t := InsertAudit(tagged.value, Audit(Some(id), Create));
      Commit(t);
      WroteKeepsConsistent(before, t, id, content, layer, names);
      r := Success(id);
    }

    method Update(id: int, patch: Patch) returns (r: Result<(), Error>)
      requires Valid()
      modifies this
      ensures Valid()
      ensures r.Success? <==> id in old(memories) && (patch.tags.Some? ==> Distinct(patch.tags.value))
      ensures r.Success? ==> Updated(old(Rows()), Rows(), id, patch)
      ensures r.Failure? ==> Rows() == old(Rows())
    {
      hide Consistent, Tagged;
      ghost var before := Rows();
      var t := Rows();
      if id !in t.memories {
        return Failure(Invalid);
      }
      var m := Patched(t.memories[id], patch);
      PatchKeepsConsistent(t, id, m);
      t := t.(memories := t.memories[id := m]);
      if patch.tags.Some? {
        DeleteTaggedKeepsConsistent(t, id);
        t := t.(edges := DeleteTagged(t.edges, id));
        var tagged := TagMemory(t, id, patch.tags.value);
        if tagged.Failure? {
          return Failure(tagged.error);
        }
        t := tagged.value;
      }
      t := InsertAudit(t, Audit(Some(id), MemoryTables.Update));
      Commit(t);
      UpdatedKeepsConsistent(before, t, id, patch);
      r := Success(());
    }

    method RelateTags(from: string, to: string, kind: Kind, description: Option<string>, weight: Option<real>)
        returns (r: Result<(), Error>)
      requires Valid()
      modifies this
      ensures Valid()
      ensures r.Success? ==>
                exists f, g :: RelatedIds(old(Rows()), Rows(), from, to,
                                          Edge(Key(OnTag(f), OnTag(g), kind), description, weight), f, g)
      ensures r.Failure? ==> Rows() == old(Rows())
      ensures r.Success? <==>
                && (kind != TaggedWith ==> description.Some? && weight.Some?)
                && (weight.Some? ==> 0.0 <= weight.value <= 1.0)
                && exists f, g :: Relatable(old(Rows()), from, to, kind, f, g)
    {
      if kind != TaggedWith && (description.None? || weight.None?) {
        return Failure(Invalid);
      }
      if !HasName(tags, from) || !HasName(tags, to) {
        return Failure(NotFound);
      }
      ghost var before := Rows();
      var f :| f in tags && tags[f].name == from;
      var g :| g in tags && tags[g].name == to;
      var t := Rows();
      if kind == ParentOf {
        var newChildLevel := t.tags[f].level + 1;
        if newChildLevel > 1000 {
          return Failure(Invalid);
        }
        t := t.(tags := t.tags[g := t.tags[g].(level := newChildLevel)]);
      }
      var e := Edge(Key(OnTag(f), OnTag(g), kind), description, weight);
      if weight.Some? && !(0.0 <= weight.value <= 1.0) {
        return Failure(CheckViolation);
      }
      var inserted := InsertEdge(t, e);
      if inserted.Failure? {
        return Failure(Invalid);
      }
      Commit(inserted.value);
      assert RelatedIds(before, Rows(), from, to, e, f, g);
      assert Relatable(before, from, to, kind, f, g);
      RelatedKeepsConsistent(before, Rows(), from, to, e);
      r := Success(());
    }

    method UnrelateTags(fromId: int, toId: int, kind: Kind) returns (r: Result<(), Error>)
      requires Valid()
      modifies this
      ensures Valid()
      ensures r.Success? <==> HasKey(old(edges), Key(OnTag(fromId), OnTag(toId), kind))
      ensures r.Success? ==> Unrelated(old(Rows()), Rows(), Key(OnTag(fromId), OnTag(toId), kind))
      ensures r.Failure? ==> Rows() == old(Rows())
    {
      var k := Key(OnTag(fromId), OnTag(toId), kind);
      if !HasKey(edges, k) {
        return Failure(Invalid);
      }
      ghost var before := Rows();
      var id :| id in edges && edges[id].key == k;
      edges := edges - {id};
      audit := audit + [Audit(None, MemoryTables.UnrelateTags)];
      UnrelatedKeepsConsistent(before, Rows(), k);
      r := Success(());
    }

    method Delete(id: int) returns (r: Result<string, Error>)
      requires Valid()
      modifies this
      ensures Valid()
      ensures r.Success? <==> id in old(memories)
      ensures r.Success? ==>
              Dropped(old(Rows()), Rows(), {id}, MemoryTables.Delete) && r.value == old(memories)[id].content
      ensures r.Failure? ==> Rows() == old(Rows())
    {
      ghost var before := Rows();
      var t := Rows();
      if id !in t.memories {
        return Failure(NotFound);
      }
      var content := t.memories[id].content;
      t := t.(edges := DeleteEdgesAt(t.edges, {OnMemory(id)}));
      t := InsertAudit(t, Audit(Some(id), MemoryTables.Delete));
      t := DeleteMemories(t, {id});
      Commit(t);
      DropSteps(before, t, {id}, [id], MemoryTables.Delete);
      DroppedKeepsConsistent(before, t, {id}, MemoryTables.Delete);
      r := Success(content);
    }

    /** The rows that `prune` selects. */
    ghost predicate Decayed(t: Tables, id: int, belowDecayScore: real, layer: Option<Layer>) {
      id in t.memories && t.memories[id].decayScore < belowDecayScore
      && (layer.Some? ==> t.memories[id].layer == layer.value)
    }

    method Prune(belowDecayScore: real, layer: Option<Layer>) returns (deleted: set<int>)
      requires Valid()
      modifies this
      ensures Valid()
      ensures forall id :: id in deleted <==> Decayed(old(Rows()), id, belowDecayScore, layer)
      ensures Dropped(old(Rows()), Rows(), deleted, MemoryTables.Prune)
    {
      ghost var before := Rows();
      var t := Rows();
      deleted := set id | id in t.memories && t.memories[id].decayScore < belowDecayScore
                          && (layer.Some? ==> t.memories[id].layer == layer.value);
      var rest := deleted;
      ghost var order: seq<int> := [];
      while rest != {}
        invariant rest <= deleted && t == before.(audit := before.audit + PruneRows(order))
        invariant |order| == |deleted| - |rest| && forall i :: 0 <= i < |order| ==> order[i] in deleted
        decreases rest
      {
        SomeMember(rest);
        var c :| c in rest;
        rest := rest - {c};
        t := InsertAudit(t, Audit(Some(c), MemoryTables.Prune));
        order := order + [c];
      }
      t := t.(edges := DeleteEdgesAt(t.edges, set c | c in deleted :: OnMemory(c)));
      t := DeleteMemories(t, deleted);
      Commit(t);
      DropSteps(before, t, deleted, order, MemoryTables.Prune);
      DroppedKeepsConsistent(before, t, deleted, MemoryTables.Prune);
    }

    method Merge(source: int, target: int) returns (r: Result<int, Error>)
      requires Valid()
      modifies this
      ensures Valid()
      ensures r.Success? <==> source != target && source in old(memories) && target in old(memories)
      ensures r.Success? ==> r.value == target && Merged(old(Rows()), Rows(), source, target)
      ensures r.Failure? ==> Rows() == old(Rows())
    {
      ghost var before := Rows();
      var t := Rows();
      if source == target {
        return Failure(Invalid);
      }
      if source !in t.memories || target !in t.memories {
        return Failure(NotFound);
      }
      var mergedAccessCount := t.memories[source].accessCount + t.memories[target].accessCount;
      var summed := t.memories[target := t.memories[target].(accessCount := mergedAccessCount)];
      // Neither UPDATE can meet a UNIQUE key, so both results are values.
      HalfMergeIsQuotient(t.edges, Outbound, source, target);
      var out := MoveEdges(DropDuplicates(t.edges, Outbound, source, target), Outbound, source, target);
      HalfMergeIsQuotient(out.value, Inbound, source, target);
      var in_ := MoveEdges(DropDuplicates(out.value, Inbound, source, target), Inbound, source, target);
      HalvesMakeMerge(t.edges, out.value, in_.value, source, target);
      t := t.(memories := summed, edges := in_.value);
      t := InsertAudit(t, Audit(Some(target), MemoryTables.Merge));
      t := DeleteMemories(t, {source});
      Commit(t);
      assert Merged(before, t, source, target);
      MergedKeepsConsistent(before, t, source, target);
      r := Success(target);
    }

    /** Cleanup's `delete_tag` decision. */
    method DeleteTag(name: string)
      requires Valid()
      modifies this
      ensures Valid()
      ensures !HasName(old(tags), name) ==> Rows() == old(Rows())
      ensures HasName(old(tags), name) ==>
                exists tag :: tag in old(tags) && old(tags)[tag].name == name && TagDropped(old(Rows()), Rows(), tag)
    {
      if HasName(tags, name) {
        ghost var before := Rows();
        var tag :| tag in tags && tags[tag].name == name;
        edges := DeleteEdgesAt(edges, {OnTag(tag)});
        tags := tags - {tag};
        assert TagDropped(before, Rows(), tag);
        TagDroppedKeepsConsistent(before, Rows(), tag);
      }
    }
  }

  lemma NewMemoryUntagged(t: Tables)
    requires Consistent(t)
    ensures Untagged(t.edges, t.nextMemory)
  {
  }

  /** The named tags exist, the pair is not yet related, and the child's level stays in range. */
  ghost predicate Relatable(t: Tables, from: string, to: string, kind: Kind, f: int, g: int) {
    && f in t.tags && t.tags[f].name == from && g in t.tags && t.tags[g].name == to
    && !HasKey(t.edges, Key(OnTag(f), OnTag(g), kind))
    && (kind == ParentOf ==> t.tags[f].level + 1 <= 1000)
  }

  ghost function AuditRows(order: seq<int>, op: Operation): seq<Audit> {
    seq(|order|, i requires 0 <= i < |order| => Audit(Some(order[i]), op))
  }

  ghost function PruneRows(order: seq<int>): seq<Audit> {
    AuditRows(order, Prune)
  }

  /** Audit rows, then edges, then the memories themselves: together a `Dropped`. */
  lemma DropSteps(t: Tables, u: Tables, gone: set<int>, order: seq<int>, op: Operation)
    requires Consistent(t) && gone <= t.memories.Keys
    requires |order| == |gone| && forall i :: 0 <= i < |order| ==> order[i] in gone
    requires u == t.(memories := t.memories - gone,
                     edges := DeleteEdgesAt(t.edges, set c | c in gone :: OnMemory(c)),
                     audit := SetNull(t.audit + AuditRows(order, op), gone))
    ensures Dropped(t, u, gone, op)
  {
    var ends := set c | c in gone :: OnMemory(c);
    forall i | i in t.edges
      ensures (exists m :: m in gone && Touches(t.edges[i].key, OnMemory(m)))
              <==> t.edges[i].key.from in ends || t.edges[i].key.to in ends
    {
      var k := t.edges[i].key;
      if k.from in ends {
        var c :| c in gone && OnMemory(c) == k.from;
        assert Touches(k, OnMemory(c));
      }
      if k.to in ends {
        var c :| c in gone && OnMemory(c) == k.to;
        assert Touches(k, OnMemory(c));
      }
    }
    var all := t.audit + AuditRows(order, op);
    assert forall i :: 0 <= i < |t.audit| ==> all[i] == t.audit[i];
    assert u.audit[..|t.audit|] == SetNull(t.audit, gone);
  }
}
