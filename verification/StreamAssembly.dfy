/** Assembling tool calls and text from the chunks of a streamed completion. */
module StreamAssembly {
  import opened Wrappers
  import opened ToolLoop

  /** One entry of `delta.tool_calls`; an absent index counts as 0 and absent strings as "". */
  datatype Delta = Delta(index: Option<int>, id: Option<string>, name: string, arguments: string)
  /** A legacy `delta.function_call`. */
  datatype Legacy = Legacy(name: string, arguments: string)
  /** `flushes` marks a finish reason of `tool_calls` or `function_call`. */
  datatype Choice = Choice(deltas: seq<Delta>, legacy: Option<Legacy>, flushes: bool, content: string)
  datatype Chunk = Chunk(usage: Option<Reported>, choices: seq<Choice>)

  datatype Entry = Entry(id: Option<string>, name: Option<string>, buffer: string)
  type Accumulator = map<int, Entry>

  /** What `onToolCall` receives. */
  datatype StreamedCall = StreamedCall(id: Option<string>, name: Option<string>, args: Json)

  const EMPTY_ENTRY := Entry(None, None, "")

  // ---- Deltas

  function IndexOf(d: Delta): int {
    d.index.GetOr(0)
  }

  /** First id and first name win; argument fragments are appended. */
  function Extend(e: Entry, d: Delta): Entry {
    Entry(if e.id.None? then d.id else e.id,
          if e.name.None? && d.name != "" then Some(d.name) else e.name,
          e.buffer + d.arguments)
  }

  function EntryAt(acc: Accumulator, i: int): Entry {
    if i in acc then acc[i] else EMPTY_ENTRY
  }

  function ApplyDelta(acc: Accumulator, d: Delta): Accumulator {
    acc[IndexOf(d) := Extend(EntryAt(acc, IndexOf(d)), d)]
  }

  function ApplyAll(acc: Accumulator, deltas: seq<Delta>): Accumulator
    decreases |deltas|
  {
    if deltas == [] then acc else ApplyAll(ApplyDelta(acc, deltas[0]), deltas[1..])
  }

  /** `applyToolCallDeltas`. */
  method ApplyToolCallDeltas(accumulator: Accumulator, deltaToolCalls: seq<Delta>) returns (acc: Accumulator)
    ensures acc == ApplyAll(accumulator, deltaToolCalls)
  {
    acc := accumulator;
    for k := 0 to |deltaToolCalls|
      invariant ApplyAll(accumulator, deltaToolCalls) == ApplyAll(acc, deltaToolCalls[k..])
    {
      var entry := deltaToolCalls[k];
      var existing := EntryAt(acc, IndexOf(entry));
      assert deltaToolCalls[k..][1..] == deltaToolCalls[k + 1..];
      if entry.id.Some? && existing.id.None? {
        existing := existing.(id := entry.id);
      }
      if entry.name != "" && existing.name.None? {
        existing := existing.(name := Some(entry.name));
      }
      existing := existing.(buffer := existing.buffer + entry.arguments);
      acc := acc[IndexOf(entry) := existing];
    }
  }

  /** A legacy `function_call` counts as a delta of index 0 without an id. */
  function LegacyDelta(l: Legacy): Delta {
    Delta(Some(0), None, l.name, l.arguments)
  }

  // ---- What accumulation means, index by index

  /** The deltas of one index, in order. */
  function At(deltas: seq<Delta>, i: int): seq<Delta>
    decreases |deltas|
  {
    if deltas == [] then [] else (if IndexOf(deltas[0]) == i then [deltas[0]] else []) + At(deltas[1..], i)
  }

  function FirstId(deltas: seq<Delta>): Option<string>
    decreases |deltas|
  {
    if deltas == [] then None else if deltas[0].id.Some? then deltas[0].id else FirstId(deltas[1..])
  }

  function FirstName(deltas: seq<Delta>): Option<string>
    decreases |deltas|
  {
    if deltas == [] then None else if deltas[0].name != "" then Some(deltas[0].name) else FirstName(deltas[1..])
  }

  function AllArguments(deltas: seq<Delta>): string
    decreases |deltas|
  {
    if deltas == [] then "" else deltas[0].arguments + AllArguments(deltas[1..])
  }

  /** The call that a provider has sent in the deltas of one index. */
  function Whole(deltas: seq<Delta>): Entry {
    Entry(FirstId(deltas), FirstName(deltas), AllArguments(deltas))
  }

  /** The id is that of the first delta that has one, and the name that of the first delta with a name not empty. */
  lemma {:induction false} FirstsAreFirst(deltas: seq<Delta>, k: nat)
    requires k <= |deltas|
    ensures (forall j :: 0 <= j < k ==> deltas[j].id.None?) ==>
              && (k == |deltas| ==> FirstId(deltas) == None)
              && (k < |deltas| && deltas[k].id.Some? ==> FirstId(deltas) == deltas[k].id)
    ensures (forall j :: 0 <= j < k ==> deltas[j].name == "") ==>
              && (k == |deltas| ==> FirstName(deltas) == None)
              && (k < |deltas| && deltas[k].name != "" ==> FirstName(deltas) == Some(deltas[k].name))
    decreases k
  {
    if k > 0 {
      FirstsAreFirst(deltas[1..], k - 1);
    }
  }

  /** The arguments are the texts of all deltas one after the other. */
  lemma {:induction false} ArgumentsInOrder(a: seq<Delta>, b: seq<Delta>)
    ensures AllArguments(a + b) == AllArguments(a) + AllArguments(b)
    decreases |a|
  {
    if a == [] {
      assert a + b == b;
    } else {
      assert (a + b)[1..] == a[1..] + b;
      ArgumentsInOrder(a[1..], b);
    }
  }

  lemma Regroup<T>(a: seq<T>, b: seq<T>, c: seq<T>)
    ensures (a + b) + c == a + (b + c)
  {
  }

  /** The deltas of an index keep their order. */
  lemma {:induction false} IndexInOrder(a: seq<Delta>, b: seq<Delta>, i: int)
    ensures At(a + b, i) == At(a, i) + At(b, i)
    decreases |a|
  {
    if a == [] {
      assert a + b == b;
    } else {
      assert (a + b)[0] == a[0] && (a + b)[1..] == a[1..] + b;
      var first := if IndexOf(a[0]) == i then [a[0]] else [];
      assert At(a + b, i) == first + At(a[1..] + b, i) && At(a, i) == first + At(a[1..], i);
      hide At;
      IndexInOrder(a[1..], b, i);
      Regroup(first, At(a[1..], i), At(b, i));
    }
  }

  /** A delta without an index is one of index 0, and so is a legacy function call, which has no id. */
  lemma OneDelta(d: Delta, l: Legacy, i: int)
    ensures AllArguments([d]) == d.arguments
    ensures At([d], i) == if (if d.index.Some? then d.index.value == i else i == 0) then [d] else []
    ensures At([LegacyDelta(l)], 0) == [LegacyDelta(l)] && LegacyDelta(l).id == None
    ensures LegacyDelta(l).name == l.name && LegacyDelta(l).arguments == l.arguments
  {
    assert [d][1..] == [] && [LegacyDelta(l)][1..] == [];
    assert AllArguments([d]) == d.arguments + AllArguments([]);
  }

  function Onto(e: Entry, rest: Entry): Entry {
    Entry(if e.id.None? then rest.id else e.id, if e.name.None? then rest.name else e.name, e.buffer + rest.buffer)
  }

  lemma {:induction false} AccumulatesAt(acc: Accumulator, deltas: seq<Delta>, i: int)
    ensures i in ApplyAll(acc, deltas) <==> i in acc || At(deltas, i) != []
    ensures EntryAt(ApplyAll(acc, deltas), i) == Onto(EntryAt(acc, i), Whole(At(deltas, i)))
    decreases |deltas|
  {
    if deltas != [] {
      var next := ApplyDelta(acc, deltas[0]);
      var rest := At(deltas[1..], i);
      AccumulatesAt(next, deltas[1..], i);
      if IndexOf(deltas[0]) == i {
        WholeCons(EntryAt(acc, i), deltas[0], rest);
        assert At(deltas, i) == [deltas[0]] + rest;
      } else {
        assert At(deltas, i) == rest;
      }
      hide Whole, Onto, Extend;
    }
  }

  /** Extending an entry by one delta and then by the rest. */
  lemma WholeCons(e: Entry, d: Delta, rest: seq<Delta>)
    ensures Onto(Extend(e, d), Whole(rest)) == Onto(e, Whole([d] + rest))
  {
    assert ([d] + rest)[1..] == rest;
    assert (e.buffer + d.arguments) + AllArguments(rest) == e.buffer + (d.arguments + AllArguments(rest));
  }

  /** Assembly: from an empty accumulator every index ends up with its first id, its first name and
      all of its argument fragments in order. */
  lemma AssemblyIsExact(deltas: seq<Delta>, i: int)
    ensures i in ApplyAll(map[], deltas) <==> At(deltas, i) != []
    ensures i in ApplyAll(map[], deltas) ==> ApplyAll(map[], deltas)[i] == Whole(At(deltas, i))
  {
    AccumulatesAt(map[], deltas, i);
  }

  /** Interleaving: only the order within each index matters. */
  lemma InterleavingIsInvisible(a: seq<Delta>, b: seq<Delta>)
    requires forall i :: At(a, i) == At(b, i)
    ensures ApplyAll(map[], a) == ApplyAll(map[], b)
  {
    forall i
      ensures i in ApplyAll(map[], a) <==> i in ApplyAll(map[], b)
      ensures i in ApplyAll(map[], a) ==> ApplyAll(map[], a)[i] == ApplyAll(map[], b)[i]
    {
      AssemblyIsExact(a, i);
      AssemblyIsExact(b, i);
      assert At(a, i) == At(b, i);
    }
  }

  lemma {:induction false} ApplyConcat(acc: Accumulator, a: seq<Delta>, b: seq<Delta>)
    ensures ApplyAll(acc, a + b) == ApplyAll(ApplyAll(acc, a), b)
    decreases |a|
  {
    if a == [] {
      assert a + b == b;
    } else {
      assert (a + b)[1..] == a[1..] + b;
      ApplyConcat(ApplyDelta(acc, a[0]), a[1..], b);
    }
  }

  /** Splitting: an argument text may be cut in two anywhere. */
  lemma SplittingIsInvisible(before: seq<Delta>, d: Delta, head: string, tail: string, after: seq<Delta>)
    requires d.arguments == head + tail
    ensures ApplyAll(map[], before + [d.(arguments := head), Delta(d.index, None, "", tail)] + after)
            == ApplyAll(map[], before + [d] + after)
  {
    var two := [d.(arguments := head), Delta(d.index, None, "", tail)];
    ApplyConcat(map[], before + two, after);
    ApplyConcat(map[], before, two);
    ApplyConcat(map[], before + [d], after);
    ApplyConcat(map[], before, [d]);
    var acc := ApplyAll(map[], before);
    var e := EntryAt(acc, IndexOf(d));
    var i := IndexOf(d);
    assert (e.buffer + head) + tail == e.buffer + (head + tail);
    ApplyConcat(acc, [two[0]], [two[1]]);
    assert two == [two[0]] + [two[1]];
    var half := ApplyAll(acc, [two[0]]);
    assert half == acc[i := Extend(e, two[0])];
    assert ApplyAll(half, [two[1]]) == half[i := Extend(Extend(e, two[0]), two[1])];
    assert Extend(Extend(e, two[0]), two[1]) == Extend(e, d);
    assert ApplyAll(acc, [d]) == acc[i := Extend(e, d)];
    assert half[i := Extend(e, d)] == acc[i := Extend(e, d)];
  }

  // ---- Flushing

  /** `[...keys].sort((a, b) => a - b)`. */
  ghost predicate Ascending(idx: seq<int>, keys: set<int>) {
    && (forall i, j :: 0 <= i < j < |idx| ==> idx[i] < idx[j])
    && (forall k :: k in keys ==> k in idx)
    && (forall i :: 0 <= i < |idx| ==> idx[i] in keys)
  }

  function InsertSorted(s: seq<int>, c: int): seq<int>
    decreases |s|
  {
    if s == [] || c < s[0] then [c] + s else [s[0]] + InsertSorted(s[1..], c)
  }

  lemma {:induction false} InsertKeepsAscending(s: seq<int>, keys: set<int>, c: int)
    requires Ascending(s, keys) && c !in keys
    ensures Ascending(InsertSorted(s, c), keys + {c})
    decreases |s|
  {
    if s == [] || c < s[0] {
    } else {
      var rest := keys - {s[0]};
      assert Ascending(s[1..], rest) by {
        assert forall k :: k in s <==> k == s[0] || k in s[1..];
      }
      InsertKeepsAscending(s[1..], rest, c);
      assert keys + {c} == (rest + {c}) + {s[0]};
      assert s[0] in keys && c != s[0];
      SmallerFirst(s[0], InsertSorted(s[1..], c), rest + {c});
    }
  }

  lemma SmallerFirst(x: int, s: seq<int>, keys: set<int>)
    requires Ascending(s, keys) && forall k :: k in keys ==> x < k
    ensures Ascending([x] + s, keys + {x})
  {
    var t := [x] + s;
    forall i, j | 0 <= i < j < |t|
      ensures t[i] < t[j]
    {
      assert t[j] == s[j - 1] && s[j - 1] in keys;
    }
    assert forall k :: k in s ==> k in t;
    assert t[0] == x;
  }

  method SortedIndices(keys: set<int>) returns (idx: seq<int>)
    ensures Ascending(idx, keys)
  {
    idx := [];
    var rest := keys;
    while rest != {}
      invariant rest <= keys && Ascending(idx, keys - rest)
      decreases rest
    {
      SomeMember(rest);
      var c :| c in rest;
      InsertKeepsAscending(idx, keys - rest, c);
      assert (keys - rest) + {c} == keys - (rest - {c});
      idx := InsertSorted(idx, c);
      rest := rest - {c};
    }
    assert keys - {} == keys;
  }

  lemma {:induction false} SortedExists(keys: set<int>) returns (idx: seq<int>)
    ensures Ascending(idx, keys)
  {
    if keys == {} {
      idx := [];
    } else {
      SomeMember(keys);
      var c :| c in keys;
      idx := SortedExists(keys - {c});
      InsertKeepsAscending(idx, keys - {c}, c);
      assert (keys - {c}) + {c} == keys;
      idx := InsertSorted(idx, c);
    }
  }

  lemma AscendingEmpty(idx: seq<int>, keys: set<int>)
    requires Ascending(idx, keys)
    ensures idx == [] <==> keys == {}
  {
    if |idx| > 0 {
      assert idx[0] in keys;
    } else {
      assert forall k :: k !in keys;
    }
  }

  lemma AscendingTail(a: seq<int>, keys: set<int>)
    requires Ascending(a, keys) && a != []
    ensures Ascending(a[1..], keys - {a[0]})
    ensures a[0] in keys && forall k :: k in keys ==> a[0] <= k
  {
    forall k | k in keys - {a[0]} ensures k in a[1..] {
      assert k in a;
      var i :| 0 <= i < |a| && a[i] == k;
      assert a[1..][i - 1] == k;
    }
    forall k | k in keys ensures a[0] <= k {
      assert k in a;
    }
  }

  /** There is only one ascending listing. */
  lemma {:induction false} AscendingUnique(a: seq<int>, b: seq<int>, keys: set<int>)
    requires Ascending(a, keys) && Ascending(b, keys)
    ensures a == b
    decreases |a|
  {
    AscendingEmpty(a, keys);
    AscendingEmpty(b, keys);
    if keys != {} {
      AscendingTail(a, keys);
      AscendingTail(b, keys);
      hide Ascending;
      AscendingUnique(a[1..], b[1..], keys - {a[0]});
      assert a == [a[0]] + a[1..] && b == [b[0]] + b[1..];
    }
  }

  ghost function SortedKeys(keys: set<int>): (idx: seq<int>)
    ensures Ascending(idx, keys)
  {
    assert exists idx :: Ascending(idx, keys) by {
      var idx := SortedExists(keys);
    }
    var idx :| Ascending(idx, keys);
    idx
  }

  function CallOf(w: World, e: Entry): StreamedCall {
    StreamedCall(e.id, e.name, ParseToolArgs(w, ArgText(e.buffer)))
  }

  /** The calls handed on when the accumulator is flushed: ascending by index. */
  ghost function Flushed(w: World, acc: Accumulator): seq<StreamedCall> {
    var idx := SortedKeys(acc.Keys);
    seq(|idx|, k requires 0 <= k < |idx| && idx[k] in acc => CallOf(w, acc[idx[k]]))
  }

  /** `flushToolCalls`; the caller clears the accumulator. */
  method FlushToolCalls(w: World, accumulator: Accumulator) returns (calls: seq<StreamedCall>)
    ensures calls == Flushed(w, accumulator)
  {
    var indices := SortedIndices(accumulator.Keys);
    AscendingUnique(indices, SortedKeys(accumulator.Keys), accumulator.Keys);
    calls := [];
    for k := 0 to |indices|
      invariant |calls| == k
      invariant forall j :: 0 <= j < k ==> calls[j] == Flushed(w, accumulator)[j]
    {
      assert indices[k] in accumulator.Keys;
      calls := calls + [CallOf(w, accumulator[indices[k]])];
    }
  }

  // ---- The consumer loop

  /** The deltas of one choice, a legacy function call last. */
  function DeltasOf(c: Choice): seq<Delta> {
    c.deltas + if c.legacy.Some? then [LegacyDelta(c.legacy.value)] else []
  }

  datatype Consumed = Consumed(acc: Accumulator, calls: seq<StreamedCall>, text: string)

  ghost function ConsumeChoice(w: World, s: Consumed, c: Choice): Consumed {
    var acc := ApplyAll(s.acc, DeltasOf(c));
    if c.flushes then Consumed(map[], s.calls + Flushed(w, acc), s.text + c.content)
    else Consumed(acc, s.calls, s.text + c.content)
  }

  ghost function ConsumeAll(w: World, s: Consumed, choices: seq<Choice>): Consumed
    decreases |choices|
  {
    if choices == [] then s else ConsumeAll(w, ConsumeChoice(w, s, choices[0]), choices[1..])
  }

  function ChoicesOf(chunks: seq<Chunk>): seq<Choice>
    decreases |chunks|
  {
    if chunks == [] then [] else chunks[0].choices + ChoicesOf(chunks[1..])
  }

  function UsagesOf(chunks: seq<Chunk>): seq<Reported>
    decreases |chunks|
  {
    if chunks == [] then [] else
      (if chunks[0].usage.Some? then [chunks[0].usage.value] else []) + UsagesOf(chunks[1..])
  }

  const NOTHING := Consumed(map[], [], "")

  ghost function StreamCalls(w: World, chunks: seq<Chunk>): seq<StreamedCall> {
    var s := ConsumeAll(w, NOTHING, ChoicesOf(chunks));
    s.calls + Flushed(w, s.acc)
  }

  ghost function StreamText(w: World, chunks: seq<Chunk>): string {
    ConsumeAll(w, NOTHING, ChoicesOf(chunks)).text
  }

  function Concat(texts: seq<string>): string
    decreases |texts|
  {
    if texts == [] then "" else texts[0] + Concat(texts[1..])
  }

  lemma {:induction false} ConcatAppend(texts: seq<string>, t: string)
    ensures Concat(texts + [t]) == Concat(texts) + t
    decreases |texts|
  {
    if texts == [] {
      assert texts + [t] == [t];
      assert Concat([t]) == t + Concat([]);
    } else {
      assert (texts + [t])[1..] == texts[1..] + [t];
      ConcatAppend(texts[1..], t);
      assert texts[0] + (Concat(texts[1..]) + t) == (texts[0] + Concat(texts[1..])) + t;
    }
  }

  /** One choice of the loop body: deltas, legacy call, flush, then text. */
  method Consume(w: World, toolAccumulator: Accumulator, queued: seq<StreamedCall>, texts: seq<string>, choice: Choice)
      returns (acc: Accumulator, calls: seq<StreamedCall>, out: seq<string>)
    requires forall t :: t in texts ==> t != ""
    ensures Consumed(acc, calls, Concat(out))
            == ConsumeChoice(w, Consumed(toolAccumulator, queued, Concat(texts)), choice)
    ensures forall t :: t in out ==> t != ""
  {
    acc, calls, out := toolAccumulator, queued, texts;
    if |choice.deltas| > 0 {
      acc := ApplyToolCallDeltas(acc, choice.deltas);
    }
    if choice.legacy.Some? {
      ApplyConcat(toolAccumulator, choice.deltas, [LegacyDelta(choice.legacy.value)]);
      acc := ApplyDelta(acc, LegacyDelta(choice.legacy.value));
    } else {
      assert DeltasOf(choice) == choice.deltas;
    }
    if choice.flushes {
      var flushed := FlushToolCalls(w, acc);
      calls := calls + flushed;
      acc := map[];
    }
    if choice.content != "" {
      ConcatAppend(texts, choice.content);
      out := out + [choice.content];
    } else {
      assert Concat(texts) + "" == Concat(texts);
    }
  }

  lemma {:induction false} ConsumeConcat(w: World, s: Consumed, a: seq<Choice>, b: seq<Choice>)
    ensures ConsumeAll(w, s, a + b) == ConsumeAll(w, ConsumeAll(w, s, a), b)
    decreases |a|
  {
    if a == [] {
      assert a + b == b;
    } else {
      assert (a + b)[1..] == a[1..] + b;
      ConsumeConcat(w, ConsumeChoice(w, s, a[0]), a[1..], b);
    }
  }

  /** The choices of one chunk. */
  method ConsumeChoices(w: World, toolAccumulator: Accumulator, queued: seq<StreamedCall>, texts: seq<string>,
                        choices: seq<Choice>)
      returns (acc: Accumulator, calls: seq<StreamedCall>, out: seq<string>)
    requires forall t :: t in texts ==> t != ""
    ensures Consumed(acc, calls, Concat(out))
            == ConsumeAll(w, Consumed(toolAccumulator, queued, Concat(texts)), choices)
    ensures forall t :: t in out ==> t != ""
  {
    hide ConsumeChoice;
    acc, calls, out := toolAccumulator, queued, texts;
    for j := 0 to |choices|
      invariant forall t :: t in out ==> t != ""
      invariant ConsumeAll(w, Consumed(toolAccumulator, queued, Concat(texts)), choices)
                == ConsumeAll(w, Consumed(acc, calls, Concat(out)), choices[j..])
    {
      assert choices[j..][1..] == choices[j + 1..];
      acc, calls, out := Consume(w, acc, calls, out, choices[j]);
    }
  }

  /** `streamChatCompletion` with its callbacks: the text it yields, the calls and the usage reports. */
  method StreamChatCompletion(w: World, providerStream: seq<Chunk>)
      returns (texts: seq<string>, calls: seq<StreamedCall>, usages: seq<Reported>)
    ensures calls == StreamCalls(w, providerStream)
    ensures Concat(texts) == StreamText(w, providerStream) && forall t :: t in texts ==> t != ""
    ensures usages == UsagesOf(providerStream)
  {
    hide ConsumeAll, Flushed;
    texts, calls, usages := [], [], [];
    var toolAccumulator: Accumulator := map[];
    for k := 0 to |providerStream|
      invariant forall t :: t in texts ==> t != ""
      invariant ConsumeAll(w, NOTHING, ChoicesOf(providerStream))
                == ConsumeAll(w, Consumed(toolAccumulator, calls, Concat(texts)), ChoicesOf(providerStream[k..]))
      invariant UsagesOf(providerStream) == usages + UsagesOf(providerStream[k..])
    {
      var chunk := providerStream[k];
      assert providerStream[k..][1..] == providerStream[k + 1..];
      if chunk.usage.Some? {
        usages := usages + [chunk.usage.value];
      }
      ConsumeConcat(w, Consumed(toolAccumulator, calls, Concat(texts)), chunk.choices,
                    ChoicesOf(providerStream[k + 1..]));
      toolAccumulator, calls, texts := ConsumeChoices(w, toolAccumulator, calls, texts, chunk.choices);
    }
    ConsumeNone(w, Consumed(toolAccumulator, calls, Concat(texts)));
    var flushed := FlushToolCalls(w, toolAccumulator);
    calls := calls + flushed;
  }

  lemma ConsumeNone(w: World, s: Consumed)
    ensures ConsumeAll(w, s, []) == s
  {
  }

  // ---- A stream keeps its order

  /** The text of the choices, one after the other. */
  function Written(choices: seq<Choice>): string
    decreases |choices|
  {
    if choices == [] then "" else choices[0].content + Written(choices[1..])
  }

  lemma {:induction false} TextIsWritten(w: World, s: Consumed, choices: seq<Choice>)
    ensures ConsumeAll(w, s, choices).text == s.text + Written(choices)
    decreases |choices|
  {
    if choices != [] {
      var next := ConsumeChoice(w, s, choices[0]);
      assert next.text == s.text + choices[0].content by { hide ApplyAll, Flushed, DeltasOf; }
      hide ConsumeChoice;
      TextIsWritten(w, next, choices[1..]);
    }
  }

  lemma {:induction false} WrittenInOrder(a: seq<Choice>, b: seq<Choice>)
    ensures Written(a + b) == Written(a) + Written(b)
    decreases |a|
  {
    if a == [] {
      assert a + b == b;
    } else {
      assert (a + b)[0] == a[0] && (a + b)[1..] == a[1..] + b;
      var first := a[0].content;
      assert Written(a + b) == first + Written(a[1..] + b) && Written(a) == first + Written(a[1..]);
      hide Written;
      WrittenInOrder(a[1..], b);
      Regroup(first, Written(a[1..]), Written(b));
    }
  }

  /** Calls that are queued already come first. */
  lemma {:induction false} QueuedComeFirst(w: World, s: Consumed, choices: seq<Choice>)
    ensures var r := ConsumeAll(w, Consumed(s.acc, [], ""), choices);
            ConsumeAll(w, s, choices).acc == r.acc && ConsumeAll(w, s, choices).calls == s.calls + r.calls
    decreases |choices|
  {
    if choices != [] {
      var next, bare := ConsumeChoice(w, s, choices[0]), ConsumeChoice(w, Consumed(s.acc, [], ""), choices[0]);
      assert next.acc == bare.acc && next.calls == s.calls + bare.calls by { hide ApplyAll, Flushed, DeltasOf; }
      hide ConsumeChoice;
      QueuedComeFirst(w, next, choices[1..]);
      QueuedComeFirst(w, bare, choices[1..]);
    }
  }

  lemma {:induction false} FinishEmpties(w: World, s: Consumed, choices: seq<Choice>)
    requires choices != [] && choices[|choices| - 1].flushes
    ensures ConsumeAll(w, s, choices).acc == map[]
    decreases |choices|
  {
    hide ApplyAll, Flushed, DeltasOf;
    if |choices| > 1 {
      FinishEmpties(w, ConsumeChoice(w, s, choices[0]), choices[1..]);
    }
  }

  lemma {:induction false} ChoicesInOrder(a: seq<Chunk>, b: seq<Chunk>)
    ensures ChoicesOf(a + b) == ChoicesOf(a) + ChoicesOf(b)
    decreases |a|
  {
    if a == [] {
      assert a + b == b;
    } else {
      assert (a + b)[0] == a[0] && (a + b)[1..] == a[1..] + b;
      var first := a[0].choices;
      assert ChoicesOf(a + b) == first + ChoicesOf(a[1..] + b) && ChoicesOf(a) == first + ChoicesOf(a[1..]);
      hide ChoicesOf;
      ChoicesInOrder(a[1..], b);
      Regroup(first, ChoicesOf(a[1..]), ChoicesOf(b));
    }
  }

  lemma {:induction false} UsagesInOrder(a: seq<Chunk>, b: seq<Chunk>)
    ensures UsagesOf(a + b) == UsagesOf(a) + UsagesOf(b)
    decreases |a|
  {
    if a == [] {
      assert a + b == b;
    } else {
      var first := if a[0].usage.Some? then [a[0].usage.value] else [];
      assert (a + b)[0] == a[0] && (a + b)[1..] == a[1..] + b;
      assert UsagesOf(a + b) == first + UsagesOf(a[1..] + b) && UsagesOf(a) == first + UsagesOf(a[1..]);
      hide UsagesOf;
      UsagesInOrder(a[1..], b);
      Regroup(first, UsagesOf(a[1..]), UsagesOf(b));
    }
  }

  /** Text comes in the order of the stream. */
  lemma TextInOrder(w: World, a: seq<Chunk>, b: seq<Chunk>)
    ensures StreamText(w, a + b) == StreamText(w, a) + StreamText(w, b)
  {
    var x, y := ChoicesOf(a), ChoicesOf(b);
    ChoicesInOrder(a, b);
    WrittenInOrder(x, y);
    TextIsWritten(w, NOTHING, x + y);
    TextIsWritten(w, NOTHING, x);
    TextIsWritten(w, NOTHING, y);
    hide ConsumeAll, ChoicesOf, Written;
  }

  lemma MarkedCallsComeFirst(w: World, x: seq<Choice>, y: seq<Choice>)
    requires x != [] && x[|x| - 1].flushes
    ensures var r, s, t := ConsumeAll(w, NOTHING, x), ConsumeAll(w, NOTHING, y), ConsumeAll(w, NOTHING, x + y);
            r.acc == map[] && t.acc == s.acc && t.calls == r.calls + s.calls
  {
    ConsumeConcat(w, NOTHING, x, y);
    FinishEmpties(w, NOTHING, x);
    QueuedComeFirst(w, ConsumeAll(w, NOTHING, x), y);
    hide ConsumeAll;
  }

  /** The calls on both sides of a finish marker come in order, too. */
  lemma CallsInOrder(w: World, a: seq<Chunk>, b: seq<Chunk>)
    requires var x := ChoicesOf(a); x != [] && x[|x| - 1].flushes
    ensures StreamCalls(w, a + b) == StreamCalls(w, a) + StreamCalls(w, b)
  {
    ChoicesInOrder(a, b);
    hide ConsumeAll, Flushed, ChoicesOf;
    var x, y := ChoicesOf(a), ChoicesOf(b);
    MarkedCallsComeFirst(w, x, y);
    EmptyFlush(w);
    var first, rest := ConsumeAll(w, NOTHING, x).calls, ConsumeAll(w, NOTHING, y);
    assert StreamCalls(w, a) == first + [] && StreamCalls(w, b) == rest.calls + Flushed(w, rest.acc);
    assert StreamCalls(w, a + b) == (first + rest.calls) + Flushed(w, rest.acc);
    hide StreamCalls;
    Regroup(first, rest.calls, Flushed(w, rest.acc));
  }

  /** A stream of one choice yields its text, its report and the calls of its deltas. */
  lemma OneChoiceStream(w: World, usage: Option<Reported>, c: Choice)
    ensures StreamText(w, [Chunk(usage, [c])]) == c.content
    ensures UsagesOf([Chunk(usage, [c])]) == if usage.Some? then [usage.value] else []
    ensures StreamCalls(w, [Chunk(usage, [c])]) == Flushed(w, ApplyAll(map[], DeltasOf(c)))
  {
    hide ApplyAll, Flushed, DeltasOf;
    var chunks := [Chunk(usage, [c])];
    assert ChoicesOf(chunks) == [c] && UsagesOf(chunks) == if usage.Some? then [usage.value] else [] by {
      assert chunks[1..] == [];
    }
    hide ChoicesOf, UsagesOf;
    var acc, s := ApplyAll(map[], DeltasOf(c)), ConsumeChoice(w, NOTHING, c);
    assert s.text == c.content && s.calls + Flushed(w, s.acc) == Flushed(w, acc) by {
      EmptyFlush(w);
    }
    assert ConsumeAll(w, NOTHING, [c]) == s by {
      hide ConsumeChoice;
      assert [c][1..] == [];
      ConsumeNone(w, s);
    }
  }

  // ---- Streams whose deltas all come before the finish marker

  function AllDeltas(choices: seq<Choice>): seq<Delta>
    decreases |choices|
  {
    if choices == [] then [] else DeltasOf(choices[0]) + AllDeltas(choices[1..])
  }

  /** No tool delta follows a finish marker. */
  ghost predicate WellMarked(choices: seq<Choice>) {
    forall i, j :: 0 <= i < j < |choices| && choices[i].flushes ==> DeltasOf(choices[j]) == []
  }

  lemma EmptyFlush(w: World)
    ensures Flushed(w, map[]) == []
  {
    var empty: Accumulator := map[];
    var keys := empty.Keys;
    AscendingEmpty(SortedKeys(keys), keys);
  }

  lemma {:induction false} NothingMore(w: World, s: Consumed, choices: seq<Choice>)
    requires s.acc == map[] && forall j :: 0 <= j < |choices| ==> DeltasOf(choices[j]) == []
    ensures ConsumeAll(w, s, choices).acc == map[] && ConsumeAll(w, s, choices).calls == s.calls
    decreases |choices|
  {
    if choices != [] {
      EmptyFlush(w);
      NothingMore(w, ConsumeChoice(w, s, choices[0]), choices[1..]);
    }
  }

  /** After the flushing choice nothing more comes. */
  lemma FlushedNow(w: World, s: Consumed, choices: seq<Choice>)
    requires WellMarked(choices) && choices != [] && choices[0].flushes && s.calls == []
    ensures AllDeltas(choices[1..]) == []
    ensures var t := ConsumeAll(w, s, choices);
            t.acc == map[] && t.calls == Flushed(w, ApplyAll(s.acc, DeltasOf(choices[0])))
  {
    hide ApplyAll, Flushed;
    var rest := choices[1..];
    forall j | 0 <= j < |rest| ensures DeltasOf(rest[j]) == [] {
      assert DeltasOf(choices[j + 1]) == [];
    }
    NothingMore(w, ConsumeChoice(w, s, choices[0]), rest);
    NoDeltas(rest);
  }

  lemma {:induction false} FlushedOnce(w: World, s: Consumed, choices: seq<Choice>)
    requires WellMarked(choices) && s.calls == []
    ensures var t := ConsumeAll(w, s, choices);
            t.calls + Flushed(w, t.acc) == Flushed(w, ApplyAll(s.acc, AllDeltas(choices)))
    decreases |choices|
  {
    hide ApplyAll, Flushed;
    if choices == [] {
      NothingApplied(s.acc);
    } else {
      ApplyConcat(s.acc, DeltasOf(choices[0]), AllDeltas(choices[1..]));
      if choices[0].flushes {
        FlushedNow(w, s, choices);
        NothingApplied(ApplyAll(s.acc, DeltasOf(choices[0])));
        EmptyFlush(w);
      } else {
        FlushedOnce(w, ConsumeChoice(w, s, choices[0]), choices[1..]);
      }
    }
  }

  lemma NothingApplied(acc: Accumulator)
    ensures ApplyAll(acc, []) == acc
  {
  }

  lemma {:induction false} NoDeltas(choices: seq<Choice>)
    requires forall j :: 0 <= j < |choices| ==> DeltasOf(choices[j]) == []
    ensures AllDeltas(choices) == []
    decreases |choices|
  {
    if choices != [] {
      NoDeltas(choices[1..]);
    }
  }

  /** For a well-marked stream the calls are those assembled from all of its deltas. */
  lemma StreamAssembles(w: World, chunks: seq<Chunk>)
    requires WellMarked(ChoicesOf(chunks))
    ensures StreamCalls(w, chunks) == Flushed(w, ApplyAll(map[], AllDeltas(ChoicesOf(chunks))))
  {
    FlushedOnce(w, NOTHING, ChoicesOf(chunks));
  }
}
