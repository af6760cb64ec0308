/** The memory store's tables, the statements run against them, and what keeps them consistent.
    Edge endpoints are polymorphic, so no foreign key guards them: the code itself must. */
module MemoryTables {
  import opened Wrappers

  datatype Layer = Short | Long | ShortSkill | LongSkill
  datatype Kind = ParentOf | RelatedTo | SynonymOf | OppositeOf | TaggedWith
  datatype Operation = Create | Update | Delete | Prune | Merge | UnrelateTags | DetectLoop

  datatype Memory = Memory(layer: Layer, content: string, accessCount: int, decayScore: real)
  datatype Tag = Tag(name: string, level: int)

  /** `(from_type, from_id)` or `(to_type, to_id)`. */
  datatype Endpoint = OnMemory(id: int) | OnTag(id: int)
  /** The UNIQUE columns of an edge. */
  datatype Key = Key(from: Endpoint, to: Endpoint, kind: Kind)
  datatype Edge = Edge(key: Key, description: Option<string>, weight: Option<real>)
  datatype Audit = Audit(memory: Option<int>, operation: Operation)

  /** The tables; the `next` fields are the AUTOINCREMENT counters. */
  datatype Tables = Tables(
    memories: map<int, Memory>, tags: map<int, Tag>, edges: map<int, Edge>, audit: seq<Audit>,
    nextMemory: nat, nextTag: nat, nextEdge: nat)

  datatype Error = NotFound | UniqueViolation | CheckViolation | Invalid

  // ---- Consistency

  predicate Live(t: Tables, e: Endpoint) {
    match e
    case OnMemory(id) => id in t.memories
    case OnTag(id) => id in t.tags
  }

  ghost predicate IdsBelowCounters(t: Tables) {
    && (forall i :: i in t.memories ==> 0 <= i < t.nextMemory)
    && (forall i :: i in t.tags ==> i < t.nextTag)
    && (forall i :: i in t.edges ==> i < t.nextEdge)
  }

  ghost predicate UniqueNames(tags: map<int, Tag>) {
    forall i, j :: i in tags && j in tags && tags[i].name == tags[j].name ==> i == j
  }

  ghost predicate UniqueKeys(edges: map<int, Edge>) {
    forall i, j :: i in edges && j in edges && edges[i].key == edges[j].key ==> i == j
  }

  /** No edge endpoint dangles. */
  ghost predicate EndpointsLive(t: Tables) {
    forall i :: i in t.edges ==> Live(t, t.edges[i].key.from) && Live(t, t.edges[i].key.to)
  }

  /** Audit rows point to live memories or to NULL. */
  ghost predicate AuditLive(t: Tables) {
    forall i :: 0 <= i < |t.audit| && t.audit[i].memory.Some? ==> t.audit[i].memory.value in t.memories
  }

  ghost predicate Consistent(t: Tables) {
    IdsBelowCounters(t) && UniqueNames(t.tags) && UniqueKeys(t.edges) && EndpointsLive(t) && AuditLive(t)
  }

  ghost predicate Distinct<T>(s: seq<T>) {
    forall i, j :: 0 <= i < j < |s| ==> s[i] != s[j]
  }

  // ---- Statements

  predicate HasKey(edges: map<int, Edge>, k: Key) {
    exists i :: i in edges && edges[i].key == k
  }

  predicate HasName(tags: map<int, Tag>, name: string) {
    exists i :: i in tags && tags[i].name == name
  }

  /** `INSERT OR IGNORE INTO tags ... level 0`. */
  function InsertTagIgnore(t: Tables, name: string): Tables {
    if HasName(t.tags, name) then t
    else t.(tags := t.tags[t.nextTag := Tag(name, 0)], nextTag := t.nextTag + 1)
  }

  /** `INSERT INTO edges`, which fails when the UNIQUE key is taken. */
  function InsertEdge(t: Tables, e: Edge): Result<Tables, Error> {
    if HasKey(t.edges, e.key) then Failure(UniqueViolation)
    else Success(t.(edges := t.edges[t.nextEdge := e], nextEdge := t.nextEdge + 1))
  }

  function InsertAudit(t: Tables, row: Audit): Tables {
    t.(audit := t.audit + [row])
  }

  predicate Touches(k: Key, e: Endpoint) {
    k.from == e || k.to == e
  }

  /** ON DELETE SET NULL on `memory_audit.memory_id`. */
  function SetNull(audit: seq<Audit>, gone: set<int>): (r: seq<Audit>)
    ensures |r| == |audit|
    ensures forall i :: 0 <= i < |r| ==> r[i].operation == audit[i].operation
    ensures forall i :: 0 <= i < |r| ==>
              r[i].memory == (if audit[i].memory.Some? && audit[i].memory.value in gone then None else audit[i].memory)
  {
    seq(|audit|, i requires 0 <= i < |audit| =>
      if audit[i].memory.Some? && audit[i].memory.value in gone then audit[i].(memory := None) else audit[i])
  }

  /** `DELETE FROM memories WHERE id IN (gone)`. */
  function DeleteMemories(t: Tables, gone: set<int>): Tables {
    t.(memories := t.memories - gone, audit := SetNull(t.audit, gone))
  }

  /** `DELETE FROM edges` for every edge with an end at one of `gone`. */
  function DeleteEdgesAt(edges: map<int, Edge>, gone: set<Endpoint>): map<int, Edge> {
    map i | i in edges && edges[i].key.from !in gone && edges[i].key.to !in gone :: edges[i]
  }

  // ---- What each operation does to the tables

  /** Tags and tagged_with edges that `write` and `update` add for memory `id`. */
  ghost predicate TagsAdded(t: Tables, u: Tables, names: seq<string>) {
    && (forall i :: i in t.tags ==> i in u.tags && u.tags[i] == t.tags[i])
    && (forall i :: i in u.tags && i !in t.tags ==> u.tags[i].name in names && u.tags[i].level == 0)
    && (forall i :: i in u.tags ==> i < u.nextTag)
    && (forall n :: n in names ==> HasName(u.tags, n))
    && UniqueNames(u.tags)
  }

  function TaggedKey(id: int, tag: int): Key {
    Key(OnMemory(id), OnTag(tag), TaggedWith)
  }

  ghost predicate EdgesAdded(t: Tables, u: Tables, id: int, names: seq<string>) {
    && (forall i :: i in t.edges ==> i in u.edges && u.edges[i] == t.edges[i])
    && (forall i :: i in u.edges && i !in t.edges ==>
          i >= t.nextEdge && TagEdge(u, u.edges[i].key, id, names))
    && (forall i :: i in u.edges ==> i < u.nextEdge)
    && (forall k :: k in u.tags && u.tags[k].name in names ==> HasKey(u.edges, TaggedKey(id, k)))
    && UniqueKeys(u.edges)
  }

  ghost predicate TagEdge(u: Tables, k: Key, id: int, names: seq<string>) {
    k.to.OnTag? && k == TaggedKey(id, k.to.id) && k.to.id in u.tags && u.tags[k.to.id].name in names
  }

  ghost predicate Tagged(t: Tables, u: Tables, id: int, names: seq<string>) {
    && u.memories == t.memories && u.audit == t.audit && u.nextMemory == t.nextMemory
    && TagsAdded(t, u, names) && EdgesAdded(t, u, id, names)
  }

  /** No tagged_with edge leaves memory `id`. */
  ghost predicate Untagged(edges: map<int, Edge>, id: int) {
    forall i :: i in edges ==> !(edges[i].key.from == OnMemory(id) && edges[i].key.kind == TaggedWith)
  }

  /** `INSERT INTO memories`. */
  function InsertMemory(t: Tables, m: Memory): Tables {
    t.(memories := t.memories[t.nextMemory := m], nextMemory := t.nextMemory + 1)
  }

  /** `write`: a new memory, tagged with exactly the given names. */
  ghost predicate Wrote(t: Tables, u: Tables, id: int, content: string, layer: Layer, names: seq<string>) {
    && id == t.nextMemory
    && exists v :: Tagged(InsertMemory(t, Memory(layer, content, 0, 1.0)), v, id, names)
                   && u == InsertAudit(v, Audit(Some(id), Create))
  }

  datatype Patch = Patch(content: Option<string>, layer: Option<Layer>, tags: Option<seq<string>>)

  function Patched(m: Memory, patch: Patch): Memory {
    m.(content := patch.content.GetOr(m.content), layer := patch.layer.GetOr(m.layer))
  }

  /** `DELETE FROM edges WHERE from_type = 'memory' AND from_id = id AND kind = 'tagged_with'`. */
  function DeleteTagged(edges: map<int, Edge>, id: int): map<int, Edge> {
    map i | i in edges && !(edges[i].key.from == OnMemory(id) && edges[i].key.kind == TaggedWith) :: edges[i]
  }

  /** `update`: the patched fields change, and given tags replace the memory's tagged_with edges. */
  ghost predicate Updated(t: Tables, u: Tables, id: int, patch: Patch) {
    && id in t.memories
    && var w := t.(memories := t.memories[id := Patched(t.memories[id], patch)]);
       match patch.tags
       case None => u == InsertAudit(w, Audit(Some(id), Update))
       case Some(names) =>
         exists v :: Tagged(w.(edges := DeleteTagged(w.edges, id)), v, id, names)
                     && u == InsertAudit(v, Audit(Some(id), Update))
  }

  /** `relateTags`: one new edge between two named tags; a child's level follows its parent's. */
  ghost predicate Related(t: Tables, u: Tables, from: string, to: string, e: Edge) {
    exists f, g :: RelatedIds(t, u, from, to, e, f, g)
  }

  ghost predicate RelatedIds(t: Tables, u: Tables, from: string, to: string, e: Edge, f: int, g: int) {
    && f in t.tags && t.tags[f].name == from && g in t.tags && t.tags[g].name == to
    && e.key.from == OnTag(f) && e.key.to == OnTag(g) && !HasKey(t.edges, e.key)
    && (e.key.kind == ParentOf ==> t.tags[f].level + 1 <= 1000)
    && u == t.(
         tags := if e.key.kind == ParentOf then t.tags[g := t.tags[g].(level := t.tags[f].level + 1)] else t.tags,
         edges := t.edges[t.nextEdge := e], nextEdge := t.nextEdge + 1)
  }

  ghost predicate Unrelated(t: Tables, u: Tables, k: Key) {
    && HasKey(t.edges, k) && u.audit == t.audit + [Audit(None, UnrelateTags)]
    && u == t.(edges := u.edges, audit := u.audit)
    && (forall i :: i in u.edges <==> i in t.edges && t.edges[i].key != k)
    && (forall i :: i in u.edges ==> u.edges[i] == t.edges[i])
  }

  /** `delete`, and each deletion of `prune`: the memory, its edges and its audit links go. */
  ghost predicate Dropped(t: Tables, u: Tables, gone: set<int>, op: Operation) {
    && gone <= t.memories.Keys
    && u.memories == t.memories - gone && u.tags == t.tags
    && u.nextMemory == t.nextMemory && u.nextTag == t.nextTag && u.nextEdge == t.nextEdge
    && (forall i :: i in u.edges <==>
          i in t.edges && !(exists m :: m in gone && Touches(t.edges[i].key, OnMemory(m))))
    && (forall i :: i in u.edges ==> u.edges[i] == t.edges[i])
    && |u.audit| == |t.audit| + |gone|
    && u.audit[..|t.audit|] == SetNull(t.audit, gone)
    && (forall i :: |t.audit| <= i < |u.audit| ==> u.audit[i] == Audit(None, op))
  }

  /** Cleanup's tag deletion: the named tag and every edge at it. */
  ghost predicate TagDropped(t: Tables, u: Tables, tag: int) {
    && tag in t.tags
    && u == t.(tags := t.tags - {tag}, edges := DeleteEdgesAt(t.edges, {OnTag(tag)}))
  }

  // ---- merge

  function RenameEndpoint(e: Endpoint, source: int, target: int): Endpoint {
    if e == OnMemory(source) then OnMemory(target) else e
  }

  function RenameKey(k: Key, source: int, target: int): Key {
    Key(RenameEndpoint(k.from, source, target), RenameEndpoint(k.to, source, target), k.kind)
  }

  ghost function KeysOf(edges: map<int, Edge>): set<Key> {
    set i | i in edges :: edges[i].key
  }

  /** `merge` as a quotient: the graph with `source` glued onto `target`. */
  ghost predicate Merged(t: Tables, u: Tables, source: int, target: int) {
    && source != target && source in t.memories && target in t.memories
    && u.memories == (t.memories - {source})[target := t.memories[target].(
         accessCount := t.memories[source].accessCount + t.memories[target].accessCount)]
    && u.tags == t.tags && u.nextMemory == t.nextMemory && u.nextTag == t.nextTag && u.nextEdge == t.nextEdge
    && KeysOf(u.edges) == (set k | k in KeysOf(t.edges) :: RenameKey(k, source, target))
    && UniqueKeys(u.edges)
    && (forall i :: i in u.edges ==>
          i in t.edges && u.edges[i] == t.edges[i].(key := RenameKey(t.edges[i].key, source, target)))
    && (forall i :: i in t.edges && !Touches(t.edges[i].key, OnMemory(source)) ==> i in u.edges)
    && u.audit == SetNull(t.audit + [Audit(Some(target), Merge)], {source})
  }

  // ---- What the operations come to, row by row

  /** The names stand as tags, new ones at level 0 and the old ones as they were, and memory `id` is linked to each. */
  ghost predicate LinksNames(
      tags: map<int, Tag>, tagsAfter: map<int, Tag>, edgesAfter: map<int, Edge>, id: int, names: seq<string>)
  {
    && (forall i :: i in tags ==> i in tagsAfter && tagsAfter[i] == tags[i])
    && (forall i :: i in tagsAfter && i !in tags ==> tagsAfter[i].name in names && tagsAfter[i].level == 0)
    && (forall n :: n in names ==> exists k :: k in tagsAfter && tagsAfter[k].name == n)
    && (forall k :: k in tagsAfter && tagsAfter[k].name in names ==>
          exists i :: i in edgesAfter && edgesAfter[i].key == Key(OnMemory(id), OnTag(k), TaggedWith))
  }

  ghost predicate IsNewLink(tags: map<int, Tag>, k: Key, id: int, names: seq<string>) {
    && k.from == OnMemory(id) && k.kind == TaggedWith
    && k.to.OnTag? && k.to.id in tags && tags[k.to.id].name in names
  }

  /** Edge row `i` leaves memory `id` with kind tagged_with. */
  predicate TagsMemory(edges: map<int, Edge>, i: int, id: int) {
    i in edges && edges[i].key.from == OnMemory(id) && edges[i].key.kind == TaggedWith
  }

  lemma TaggedLinksNames(t: Tables, u: Tables, id: int, names: seq<string>)
    requires Tagged(t, u, id, names)
    ensures LinksNames(t.tags, u.tags, u.edges, id, names)
    ensures forall i :: i in t.edges ==> i in u.edges && u.edges[i] == t.edges[i]
    ensures forall i :: i in u.edges && i !in t.edges ==> IsNewLink(u.tags, u.edges[i].key, id, names)
    ensures forall i :: i in u.edges && i !in t.edges ==> i >= t.nextEdge
    ensures u.memories == t.memories && u.audit == t.audit && u.nextMemory == t.nextMemory
  {
    forall i | i in u.edges && i !in t.edges
      ensures IsNewLink(u.tags, u.edges[i].key, id, names)
    {
      assert TagEdge(u, u.edges[i].key, id, names);
    }
    forall k | k in u.tags && u.tags[k].name in names
      ensures exists i :: i in u.edges && u.edges[i].key == Key(OnMemory(id), OnTag(k), TaggedWith)
    {
      assert HasKey(u.edges, TaggedKey(id, k));
    }
    assert forall n :: n in names ==> HasName(u.tags, n);
  }

  /** `write`, row by row: one more memory with the given content and layer, and its tags; nothing else changes. */
  lemma WroteRows(t: Tables, u: Tables, id: int, content: string, layer: Layer, names: seq<string>)
    requires Wrote(t, u, id, content, layer, names)
    ensures id == t.nextMemory && u.nextMemory == id + 1
    ensures u.memories == t.memories[id := Memory(layer, content, 0, 1.0)]
    ensures LinksNames(t.tags, u.tags, u.edges, id, names)
    ensures forall i :: i in t.edges ==> i in u.edges && u.edges[i] == t.edges[i]
    ensures forall i :: i in u.edges && i !in t.edges ==> IsNewLink(u.tags, u.edges[i].key, id, names)
    ensures u.audit == t.audit + [Audit(Some(id), Create)]
  {
    hide Tagged, LinksNames;
    var w := InsertMemory(t, Memory(layer, content, 0, 1.0));
    var v :| Tagged(w, v, id, names) && u == InsertAudit(v, Audit(Some(id), Create));
    TaggedLinksNames(w, v, id, names);
  }

  /** The edges after an update with tags: those of memory `id` that tag it are replaced, and no others. */
  ghost predicate ReplacesLinks(edges: map<int, Edge>, u: Tables, id: int, names: seq<string>) {
    && (forall i :: i in edges && !TagsMemory(edges, i, id) ==> i in u.edges && u.edges[i] == edges[i])
    && (forall i :: TagsMemory(edges, i, id) ==> i !in u.edges)
    && (forall i :: i in u.edges && i !in edges ==> IsNewLink(u.tags, u.edges[i].key, id, names))
  }

  lemma TaggedReplaces(t: Tables, v: Tables, id: int, names: seq<string>)
    requires Consistent(t) && Tagged(t.(edges := DeleteTagged(t.edges, id)), v, id, names)
    ensures LinksNames(t.tags, v.tags, v.edges, id, names)
    ensures ReplacesLinks(t.edges, v, id, names)
  {
    TaggedLinksNames(t.(edges := DeleteTagged(t.edges, id)), v, id, names);
    hide Tagged, UniqueKeys, UniqueNames, EndpointsLive, AuditLive, IsNewLink;
  }

  /** `update`, row by row: the patched columns of one memory change; with tags in the patch, exactly its own
      tagged_with edges go and those to the named tags come, and without them no edge or tag changes. */
  lemma UpdatedRows(t: Tables, u: Tables, id: int, patch: Patch)
    requires Consistent(t) && Updated(t, u, id, patch)
    ensures u.memories.Keys == t.memories.Keys && id in u.memories && u.nextMemory == t.nextMemory
    ensures forall m :: m in u.memories && m != id ==> u.memories[m] == t.memories[m]
    ensures u.memories[id].content == if patch.content.Some? then patch.content.value else t.memories[id].content
    ensures u.memories[id].layer == if patch.layer.Some? then patch.layer.value else t.memories[id].layer
    ensures u.memories[id].accessCount == t.memories[id].accessCount
    ensures u.memories[id].decayScore == t.memories[id].decayScore
    ensures u.audit == t.audit + [Audit(Some(id), Update)]
    ensures patch.tags.None? ==> u.edges == t.edges && u.tags == t.tags
    ensures patch.tags.Some? ==>
              && LinksNames(t.tags, u.tags, u.edges, id, patch.tags.value)
              && ReplacesLinks(t.edges, u, id, patch.tags.value)
  {
    if patch.tags.Some? {
      hide Tagged, LinksNames, ReplacesLinks;
      var names := patch.tags.value;
      var m := Patched(t.memories[id], patch);
      PatchKeepsConsistent(t, id, m);
      var w := t.(memories := t.memories[id := m]);
      var v :| Tagged(w.(edges := DeleteTagged(w.edges, id)), v, id, names)
        && u == InsertAudit(v, Audit(Some(id), Update));
      TaggedLinksNames(w.(edges := DeleteTagged(w.edges, id)), v, id, names);
      TaggedReplaces(w, v, id, names);
      SameEdgesReplace(t.edges, v, u, id, names);
    }
  }

  lemma SameEdgesReplace(edges: map<int, Edge>, v: Tables, u: Tables, id: int, names: seq<string>)
    requires ReplacesLinks(edges, v, id, names) && u.edges == v.edges && u.tags == v.tags
    ensures ReplacesLinks(edges, u, id, names)
  {
  }

  /** Cleanup's tag deletion, row by row: the tag goes, and exactly the edges with an end at it. */
  lemma TagDroppedRows(t: Tables, u: Tables, tag: int)
    requires TagDropped(t, u, tag)
    ensures u.memories == t.memories && u.audit == t.audit
    ensures u.tags == t.tags - {tag}
    ensures forall i :: i in u.edges <==>
              i in t.edges && t.edges[i].key.from != OnTag(tag) && t.edges[i].key.to != OnTag(tag)
    ensures forall i :: i in u.edges ==> u.edges[i] == t.edges[i]
  {
  }

  // ---- Every operation keeps the tables consistent

  lemma TaggedKeepsConsistent(t: Tables, u: Tables, id: int, names: seq<string>)
    requires Consistent(t) && id in t.memories && Tagged(t, u, id, names)
    ensures Consistent(u) && u.memories == t.memories
  {
  }

  lemma AuditKeepsConsistent(t: Tables, id: int, op: Operation)
    requires Consistent(t) && id in t.memories
    ensures Consistent(InsertAudit(t, Audit(Some(id), op)))
  {
  }

  lemma InsertKeepsConsistent(t: Tables, m: Memory)
    requires Consistent(t)
    ensures Consistent(InsertMemory(t, m))
  {
  }

  lemma PatchKeepsConsistent(t: Tables, id: int, m: Memory)
    requires Consistent(t) && id in t.memories
    ensures Consistent(t.(memories := t.memories[id := m]))
  {
  }

  lemma DeleteTaggedKeepsConsistent(t: Tables, id: int)
    requires Consistent(t)
    ensures Consistent(t.(edges := DeleteTagged(t.edges, id)))
    ensures Untagged(DeleteTagged(t.edges, id), id)
  {
  }

  lemma WroteKeepsConsistent(t: Tables, u: Tables, id: int, content: string, layer: Layer, names: seq<string>)
    requires Consistent(t) && Wrote(t, u, id, content, layer, names)
    ensures Consistent(u)
  {
    hide Consistent, Tagged;
    var m := Memory(layer, content, 0, 1.0);
    var v :| Tagged(InsertMemory(t, m), v, id, names) && u == InsertAudit(v, Audit(Some(id), Create));
    InsertKeepsConsistent(t, m);
    TaggedKeepsConsistent(InsertMemory(t, m), v, id, names);
    AuditKeepsConsistent(v, id, Create);
  }

  lemma UpdatedKeepsConsistent(t: Tables, u: Tables, id: int, patch: Patch)
    requires Consistent(t) && Updated(t, u, id, patch)
    ensures Consistent(u)
  {
    hide Consistent, Tagged;
    var m := Patched(t.memories[id], patch);
    var w := t.(memories := t.memories[id := m]);
    PatchKeepsConsistent(t, id, m);
    match patch.tags
    case None =>
      AuditKeepsConsistent(w, id, Update);
    case Some(names) =>
      var x := w.(edges := DeleteTagged(w.edges, id));
      DeleteTaggedKeepsConsistent(w, id);
      var v :| Tagged(x, v, id, names) && u == InsertAudit(v, Audit(Some(id), Update));
      TaggedKeepsConsistent(x, v, id, names);
      AuditKeepsConsistent(v, id, Update);
  }

  lemma RelatedKeepsConsistent(t: Tables, u: Tables, from: string, to: string, e: Edge)
    requires Consistent(t) && Related(t, u, from, to, e)
    ensures Consistent(u)
  {
    var f, g :| RelatedIds(t, u, from, to, e, f, g);
    assert u.tags.Keys == t.tags.Keys && forall i :: i in t.tags ==> u.tags[i].name == t.tags[i].name;
  }

  lemma UnrelatedKeepsConsistent(t: Tables, u: Tables, k: Key)
    requires Consistent(t) && Unrelated(t, u, k)
    ensures Consistent(u)
  {
  }

  lemma DroppedKeepsConsistent(t: Tables, u: Tables, gone: set<int>, op: Operation)
    requires Consistent(t) && Dropped(t, u, gone, op)
    ensures Consistent(u)
  {
    forall i | i in u.edges
      ensures Live(u, u.edges[i].key.from) && Live(u, u.edges[i].key.to)
    {
      var k := u.edges[i].key;
      forall m | m in gone
        ensures k.from != OnMemory(m) && k.to != OnMemory(m)
      {
        assert !Touches(t.edges[i].key, OnMemory(m));
      }
    }
    forall i | 0 <= i < |u.audit| && u.audit[i].memory.Some?
      ensures u.audit[i].memory.value in u.memories
    {
      assert i < |t.audit| && u.audit[i] == u.audit[..|t.audit|][i];
    }
  }

  lemma TagDroppedKeepsConsistent(t: Tables, u: Tables, tag: int)
    requires Consistent(t) && TagDropped(t, u, tag)
    ensures Consistent(u)
  {
  }

  lemma MergedKeepsConsistent(t: Tables, u: Tables, source: int, target: int)
    requires Consistent(t) && Merged(t, u, source, target)
    ensures Consistent(u)
    ensures forall i :: i in u.edges ==> !Touches(u.edges[i].key, OnMemory(source))
  {
  }

  // ---- Access counts

  ghost function TotalBelow(m: map<int, Memory>, n: nat): int {
    if n == 0 then 0 else TotalBelow(m, n - 1) + if n - 1 in m then m[n - 1].accessCount else 0
  }

  /** `SELECT SUM(access_count) FROM memories`: ids are below the counter. */
  ghost function TotalAccess(t: Tables): int {
    TotalBelow(t.memories, t.nextMemory)
  }

  lemma {:induction false} MergeMovesBelow(t: Tables, u: Tables, source: int, target: int, n: nat)
    requires Merged(t, u, source, target) && source >= 0 && target >= 0
    ensures var moved := t.memories[source].accessCount;
            TotalBelow(u.memories, n) ==
              TotalBelow(t.memories, n) + (if target < n then moved else 0) - (if source < n then moved else 0)
  {
    if n > 0 {
      MergeMovesBelow(t, u, source, target, n - 1);
    }
  }

  /** `merge` moves access counts; it neither loses nor invents any. */
  lemma MergeConservesAccess(t: Tables, u: Tables, source: int, target: int)
    requires Consistent(t) && Merged(t, u, source, target)
    ensures TotalAccess(u) == TotalAccess(t)
  {
    MergeMovesBelow(t, u, source, target, t.nextMemory);
  }

  // ---- Whole histories

  /** One committed call of a mutator, or a call that threw. */
  ghost predicate Step(t: Tables, u: Tables) {
    || u == t
    || (exists id, content, layer, names :: Wrote(t, u, id, content, layer, names))
    || (exists id, patch :: Updated(t, u, id, patch))
    || (exists from, to, e :: Related(t, u, from, to, e))
    || (exists k :: Unrelated(t, u, k))
    || (exists gone, op :: Dropped(t, u, gone, op))
    || (exists source, target :: Merged(t, u, source, target))
    || (exists tag :: TagDropped(t, u, tag))
  }

  lemma StepKeepsConsistent(t: Tables, u: Tables)
    requires Consistent(t) && Step(t, u)
    ensures Consistent(u)
  {
    hide Consistent, Wrote, Updated, Related, Unrelated, Dropped, Merged, TagDropped;
    if u == t {
    } else if exists id, content, layer, names :: Wrote(t, u, id, content, layer, names) {
      var id, content, layer, names :| Wrote(t, u, id, content, layer, names);
      WroteKeepsConsistent(t, u, id, content, layer, names);
    } else if exists id, patch :: Updated(t, u, id, patch) {
      var id, patch :| Updated(t, u, id, patch);
      UpdatedKeepsConsistent(t, u, id, patch);
    } else if exists from, to, e :: Related(t, u, from, to, e) {
      var from, to, e :| Related(t, u, from, to, e);
      RelatedKeepsConsistent(t, u, from, to, e);
    } else if exists k :: Unrelated(t, u, k) {
      var k :| Unrelated(t, u, k);
      UnrelatedKeepsConsistent(t, u, k);
    } else if exists gone, op :: Dropped(t, u, gone, op) {
      var gone, op :| Dropped(t, u, gone, op);
      DroppedKeepsConsistent(t, u, gone, op);
    } else if exists source, target :: Merged(t, u, source, target) {
      var source, target :| Merged(t, u, source, target);
      MergedKeepsConsistent(t, u, source, target);
    } else {
      var tag :| TagDropped(t, u, tag);
      TagDroppedKeepsConsistent(t, u, tag);
    }
  }

  const EMPTY := Tables(map[], map[], map[], [], 1, 1, 1)

  /** A history of the store: it starts empty and every call is one step. */
  ghost predicate History(h: seq<Tables>) {
    |h| > 0 && h[0] == EMPTY && forall i :: 0 <= i < |h| - 1 ==> Step(h[i], h[i + 1])
  }

  lemma {:induction false} HistoryIsConsistent(h: seq<Tables>, n: nat)
    requires History(h) && n < |h|
    ensures Consistent(h[n])
  {
    if n == 0 {
      assert Consistent(EMPTY);
    } else {
      HistoryIsConsistent(h, n - 1);
      var i := n - 1;
      assert Step(h[i], h[i + 1]);
      StepKeepsConsistent(h[n - 1], h[n]);
    }
  }
}
