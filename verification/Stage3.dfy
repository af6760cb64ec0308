/** Stage 3: compress everything but the pinned messages, then drop the oldest until the estimate fits. */
module Stage3 {
  import opened Wrappers
  import opened ContextMessages
  import opened Breakpoints
  import opened Compaction

  /** The two attempts on one chunk; the chunks run independently of each other. */
  datatype Attempts = Attempts(first: Reply, second: Reply)

  /** `UnrecoverableOverflowError`: the estimate of everything and that of the pinned messages. */
  datatype Overflow = Overflow(total: nat, pinned: nat)

  datatype Compressed = Compressed(messages: seq<Message>, breakpoints: seq<Breakpoint>, truncated: bool)

  /** `Math.floor(contextLimit * 0.85)`: 85 percent of the limit, rounded down. */
  function Threshold(limit: nat): (t: nat)
    ensures 100 * t <= 85 * limit < 100 * (t + 1)
  {
    limit * 85 / 100
  }

  function VerdictOf(a: Attempts): Option<Verdict> {
    if a.first.Judged? then Some(a.first.verdict) else if a.second.Judged? then Some(a.second.verdict) else None
  }

  function Systems(ms: seq<Message>): (zs: seq<Message>)
    ensures |zs| <= |ms|
    decreases |ms|
  {
    if ms == [] then [] else (if ms[0].role == System then [ms[0]] else []) + Systems(ms[1..])
  }

  /** `messages.slice(1, zoneBEnd + 1)`. */
  function Slice(ms: seq<Message>, zoneBEnd: nat): seq<Message> {
    if |ms| <= 1 then [] else if zoneBEnd + 1 <= |ms| then (if zoneBEnd < 1 then [] else ms[1..zoneBEnd + 1])
      else ms[1..]
  }

  function ZoneB(ms: seq<Message>, zoneBEnd: Option<nat>): (zs: seq<Message>)
    requires |ms| > 0
    ensures 1 + |zs| <= |ms|
  {
    match zoneBEnd
    case Some(end) => Systems(Slice(ms, end))
    case None => if |ms| > 1 && ms[1].role == System then [ms[1]] else []
  }

  function Pinned(ms: seq<Message>, zoneBEnd: Option<nat>): (ps: seq<Message>)
    requires |ms| > 0
    ensures 0 < |ps| <= |ms|
  {
    [ms[0]] + ZoneB(ms, zoneBEnd)
  }

  function ZoneC(ms: seq<Message>, zoneBEnd: Option<nat>): seq<Message>
    requires |ms| > 0
  {
    ms[|Pinned(ms, zoneBEnd)|..]
  }

  /** Zone C after every chunk was compacted on its own. */
  function CompressedC(ms: seq<Message>, zoneBEnd: Option<nat>, attempts: nat -> Attempts): seq<Message>
    requires |ms| > 0
  {
    var chunks := Blocks(ZoneC(ms, zoneBEnd));
    Flat(Images(chunks, seq(|chunks|, i requires 0 <= i < |chunks| => VerdictOf(attempts(i)))))
  }

  // ----- do the zones partition the messages? -----

  /** The positions of the system messages of `ms`, from `from` on. */
  ghost predicate ListsSystems(at: seq<nat>, ms: seq<Message>, from: nat, to: nat) {
    && (forall i, j :: 0 <= i < j < |at| ==> at[i] < at[j])
    && (forall i :: 0 <= i < |at| ==> from <= at[i] < to && at[i] < |ms| && ms[at[i]].role == System)
    && (forall k :: from <= k < to && k < |ms| && ms[k].role == System ==> k in at)
  }

  function OneUp(at: seq<nat>): (up: seq<nat>)
    ensures |up| == |at| && forall i :: 0 <= i < |at| ==> up[i] == at[i] + 1
  {
    seq(|at|, i requires 0 <= i < |at| => at[i] + 1)
  }

  /** Positions in a stretch that begins at message 1 are one less than those in `ms`. */
  lemma OneUpLists(at: seq<nat>, part: seq<Message>, ms: seq<Message>, to: nat)
    requires ListsSystems(at, part, 0, |part|)
    requires |part| < |ms| && |part| < to && forall j :: 0 <= j < |part| ==> part[j] == ms[j + 1]
    requires to == |part| + 1 || |ms| == |part| + 1
    ensures ListsSystems(OneUp(at), ms, 1, to)
  {
    forall k | 1 <= k < to && k < |ms| && ms[k].role == System
      ensures k in OneUp(at)
    {
      assert part[k - 1] == ms[k] && k - 1 in at;
      var i :| 0 <= i < |at| && at[i] == k - 1;
      assert OneUp(at)[i] == k;
    }
  }

  lemma FirstIsListed(at: seq<nat>, ms: seq<Message>)
    requires ms != [] && ListsSystems(at, ms, 1, |ms|)
    ensures ListsSystems(if ms[0].role == System then [0] + at else at, ms, 0, |ms|)
  {
    if ms[0].role == System {
      var all := [0] + at;
      assert all[0] == 0;
      forall k | 0 <= k < |ms| && ms[k].role == System
        ensures k in all
      {
        if k > 0 {
          assert k in at;
        }
      }
    }
  }

  lemma {:induction false} SystemsAt(ms: seq<Message>) returns (at: seq<nat>)
    ensures ListsSystems(at, ms, 0, |ms|)
    ensures |at| == |Systems(ms)| && forall i :: 0 <= i < |at| ==> Systems(ms)[i] == ms[at[i]]
    decreases |ms|
  {
    hide ListsSystems;
    if ms == [] {
      at := [];
      assert ListsSystems(at, ms, 0, 0) by { NoneListed(ms); }
    } else {
      var rest := SystemsAt(ms[1..]);
      OneUpLists(rest, ms[1..], ms, |ms|);
      FirstIsListed(OneUp(rest), ms);
      InBounds(rest, ms[1..], 0, |ms| - 1);
      at := if ms[0].role == System then [0] + OneUp(rest) else OneUp(rest);
      InBounds(at, ms, 0, |ms|);
    }
  }

  lemma NoneListed(ms: seq<Message>)
    requires ms == []
    ensures ListsSystems([], ms, 0, 0)
  {
  }

  lemma InBounds(at: seq<nat>, ms: seq<Message>, from: nat, to: nat)
    requires ListsSystems(at, ms, from, to)
    ensures forall i :: 0 <= i < |at| ==> at[i] < |ms|
  {
  }

  /** What an explicit boundary pins: the first message and exactly the system messages from message 1
      to it, in order. */
  lemma PinnedExactly(ms: seq<Message>, zoneBEnd: nat) returns (at: seq<nat>, found: seq<Message>)
    requires |ms| > 0
    ensures Pinned(ms, Some(zoneBEnd)) == [ms[0]] + found && ListsSystems(at, ms, 1, zoneBEnd + 1)
    ensures |found| == |at| && forall i :: 0 <= i < |at| ==> at[i] < |ms| && found[i] == ms[at[i]]
  {
    var slice := Slice(ms, zoneBEnd);
    SliceIs(ms, zoneBEnd);
    var within := SystemsAt(slice);
    at, found := OneUp(within), Systems(slice);
    assert Pinned(ms, Some(zoneBEnd)) == [ms[0]] + found;
    hide ListsSystems, Systems, Slice, Pinned, OneUp;
    OneUpLists(within, slice, ms, zoneBEnd + 1);
    InBounds(within, slice, 0, |slice|);
    forall i | 0 <= i < |at| ensures at[i] < |ms| && found[i] == ms[at[i]] {
      assert at[i] == within[i] + 1 && found[i] == slice[within[i]];
    }
  }

  /** What the default boundary pins: the first message, and the second one if it is a system message; and what is left
      by either boundary: the messages after as many. */
  lemma PinnedByDefault(ms: seq<Message>, zoneBEnd: Option<nat>)
    requires |ms| > 0
    ensures Pinned(ms, None) == if |ms| >= 2 && ms[1].role == System then [ms[0], ms[1]] else [ms[0]]
    ensures Pinned(ms, zoneBEnd) != [] && ZoneC(ms, zoneBEnd) == ms[|Pinned(ms, zoneBEnd)|..]
  {
  }

  lemma SliceIs(ms: seq<Message>, zoneBEnd: nat)
    ensures var n := if |ms| == 0 then 0 else if zoneBEnd < |ms| then zoneBEnd else |ms| - 1;
            |Slice(ms, zoneBEnd)| == n && forall i :: 0 <= i < n ==> Slice(ms, zoneBEnd)[i] == ms[i + 1]
  {
  }

  /** The system messages of the slice come before the others. */
  predicate SystemsFirst(ms: seq<Message>) {
    forall i, j :: 0 <= i < j < |ms| && ms[j].role == System ==> ms[i].role == System
  }

  lemma {:induction false} SystemsAreSystem(ms: seq<Message>)
    ensures forall i :: 0 <= i < |Systems(ms)| ==> Systems(ms)[i].role == System
    ensures (exists i :: 0 <= i < |ms| && ms[i].role == System) ==> |Systems(ms)| > 0
    decreases |ms|
  {
    if ms != [] {
      SystemsAreSystem(ms[1..]);
      if exists i :: 0 <= i < |ms| && ms[i].role == System {
        var i :| 0 <= i < |ms| && ms[i].role == System;
        assert i > 0 ==> ms[1..][i - 1].role == System;
      }
    }
  }

  /** Filtering takes a prefix exactly when the system messages come first. */
  lemma {:induction false} FilterIsPrefixIff(ms: seq<Message>)
    ensures Systems(ms) == ms[..|Systems(ms)|] <==> SystemsFirst(ms)
    decreases |ms|
  {
    if ms != [] {
      var rest := ms[1..];
      FilterIsPrefixIff(rest);
      SystemsAreSystem(ms);
      SystemsAreSystem(rest);
      assert forall i :: 0 <= i < |rest| ==> rest[i] == ms[i + 1];
      if ms[0].role == System {
        assert ms[..|Systems(ms)|] == [ms[0]] + rest[..|Systems(rest)|];
        assert Systems(ms)[1..] == Systems(rest);
        HeadDoesNotMatter(ms);
      } else if SystemsFirst(ms) {
        assert forall i :: 0 <= i < |rest| ==> rest[i].role != System;
        NoSystems(rest);
      } else {
        var i, j :| 0 <= i < j < |ms| && ms[j].role == System && ms[i].role != System;
        assert rest[j - 1].role == System;
        assert ms[..|Systems(ms)|][0] == ms[0];
      }
    }
  }

  lemma HeadDoesNotMatter(ms: seq<Message>)
    requires ms != [] && ms[0].role == System
    ensures SystemsFirst(ms) <==> SystemsFirst(ms[1..])
  {
    var rest := ms[1..];
    assert forall i :: 0 <= i < |rest| ==> rest[i] == ms[i + 1];
    if SystemsFirst(rest) {
      forall i, j | 0 <= i < j < |ms| && ms[j].role == System ensures ms[i].role == System {
        if i > 0 {
          assert rest[j - 1].role == System && rest[i - 1] == ms[i];
        }
      }
    }
  }

  lemma {:induction false} NoSystems(ms: seq<Message>)
    requires forall i :: 0 <= i < |ms| ==> ms[i].role != System
    ensures Systems(ms) == []
    decreases |ms|
  {
    if ms != [] {
      NoSystems(ms[1..]);
    }
  }

  /** With the default boundary the pinned messages and Zone C are the conversation. */
  lemma DefaultPartition(ms: seq<Message>)
    requires |ms| > 0
    ensures Pinned(ms, None) + ZoneC(ms, None) == ms
  {
  }

  /**
    * With an explicit boundary they are the conversation if and only if, among messages 1 to zoneBEnd, the
    * system messages come first; otherwise some message is repeated or lost.
    */
  lemma ExplicitPartitionIff(ms: seq<Message>, zoneBEnd: nat)
    requires |ms| > 0
    ensures Pinned(ms, Some(zoneBEnd)) + ZoneC(ms, Some(zoneBEnd)) == ms <==> SystemsFirst(Slice(ms, zoneBEnd))
  {
    var slice := Slice(ms, zoneBEnd);
    var zs := Systems(slice);
    FilterIsPrefixIff(slice);
    assert slice[..|zs|] == ms[1..1 + |zs|];
    var p := Pinned(ms, Some(zoneBEnd));
    var whole := p + ZoneC(ms, Some(zoneBEnd));
    assert whole[1..1 + |zs|] == zs;
    if zs == ms[1..1 + |zs|] {
      assert p == ms[..1 + |zs|];
    }
  }

  // ----- compression -----

  /** The verdict on a chunk is that of its first attempt, or of its second if the first one threw. */
  ghost predicate Reached(v: Option<Verdict>, a: Attempts) {
    && (a.first.Judged? ==> v == Some(a.first.verdict))
    && (a.first.Broken? && a.second.Judged? ==> v == Some(a.second.verdict))
    && (a.first.Broken? && a.second.Broken? ==> v == None)
  }

  /** The compressed Zone C is one piece for each chunk, in order, and each stands for its chunk as its verdict says. */
  lemma CompressedIsComposed(ms: seq<Message>, zoneBEnd: Option<nat>, attempts: nat -> Attempts)
      returns (pieces: seq<seq<Message>>, vs: seq<Option<Verdict>>)
    requires |ms| > 0
    ensures Composed(CompressedC(ms, zoneBEnd, attempts), pieces, Blocks(ZoneC(ms, zoneBEnd)), vs)
    ensures forall i :: 0 <= i < |vs| ==> Reached(vs[i], attempts(i))
  {
    var chunks := Blocks(ZoneC(ms, zoneBEnd));
    vs := seq(|chunks|, i requires 0 <= i < |chunks| => VerdictOf(attempts(i)));
    pieces := Images(chunks, vs);
  }

  /** One chunk: `_compactOneBlockStage3`. */
  method CompactChunk(block: seq<Message>, a: Attempts) returns (messages: seq<Message>)
    ensures messages == Image(block, VerdictOf(a)) && StandsFor(messages, block, VerdictOf(a))
  {
    var reply := if a.first.Broken? then a.second else a.first;
    match reply {
      case Broken => messages := PlainAll(block);
      case Judged(Keep) => messages := PlainAll(block);
      case Judged(Delete) => messages := [];
      case Judged(Compact(text)) => messages := [Message(System, Text("[Compacted] " + text), [])];
    }
  }

  method CompressChunks(zoneC: seq<Message>, attempts: nat -> Attempts) returns (compressed: seq<Message>)
    ensures var chunks := Blocks(zoneC);
            compressed == Flat(Images(chunks, seq(|chunks|, i requires 0 <= i < |chunks| => VerdictOf(attempts(i)))))
  {
    var chunks := SplitBlocks(zoneC);
    compressed := [];
    ghost var vs := [];
    for i := 0 to |chunks|
      invariant |vs| == i && forall j :: 0 <= j < i ==> vs[j] == VerdictOf(attempts(j))
      invariant compressed == Flat(Images(chunks[..i], vs))
    {
      var part := CompactChunk(chunks[i], attempts(i));
      OneMoreImage(chunks, vs, VerdictOf(attempts(i)), i);
      compressed := compressed + part;
      vs := vs + [VerdictOf(attempts(i))];
    }
    assert chunks[..|chunks|] == chunks;
    assert vs == seq(|chunks|, i requires 0 <= i < |chunks| => VerdictOf(attempts(i)));
  }

  /** `kept` is the longest suffix of `all` that fits under the threshold behind the pinned messages. */
  predicate LongestFit(pinned: seq<Message>, all: seq<Message>, kept: seq<Message>, threshold: nat) {
    && |kept| <= |all| && kept == all[|all| - |kept|..]
    && Tokens(pinned + kept) <= threshold
    && forall k :: 0 <= k < |all| - |kept| ==> Tokens(pinned + all[k..]) > threshold
  }

  /**
    * `stage3ExtremeCompress`: it fails exactly when the pinned messages alone are over the threshold. Otherwise
    * the result is the pinned messages and the longest suffix of the compressed Zone C that fits, and
    * `truncated` tells exactly whether something was dropped.
    */
  method Stage3ExtremeCompress(ms: seq<Message>, attempts: nat -> Attempts, limit: nat, zoneBEnd: Option<nat>)
    returns (r: Result<Compressed, Overflow>)
    requires |ms| > 0
    ensures var pinned := Pinned(ms, zoneBEnd);
            if Tokens(pinned) > Threshold(limit) then r == Failure(Overflow(Tokens(ms), Tokens(pinned)))
            else
              && r.Success? && pinned <= r.value.messages
              && Tokens(r.value.messages) <= Threshold(limit)
              && LongestFit(pinned, CompressedC(ms, zoneBEnd, attempts), r.value.messages[|pinned|..], Threshold(limit))
              && (r.value.truncated <==> |r.value.messages| < |pinned| + |CompressedC(ms, zoneBEnd, attempts)|)
              && WellPlaced(r.value.breakpoints) && |r.value.breakpoints| == 4
              && forall i :: 0 <= i < 4 && r.value.breakpoints[i].position.Some? ==>
                   0 <= r.value.breakpoints[i].position.value < |r.value.messages|
  {
    hide WellPlaced, Images, Flat, Blocks, Tokens, Systems, Slice;
    var threshold := Threshold(limit);
    var zoneB := ZoneB(ms, zoneBEnd);
    var pinned := [ms[0]] + zoneB;
    var zoneC := ms[1 + |zoneB|..];
    var pinnedTokens := EstimateConversationTokens(pinned);
    if pinnedTokens > threshold {
      var total := EstimateConversationTokens(ms);
      return Failure(Overflow(total, pinnedTokens));
    }
    var all := CompressChunks(zoneC, attempts);
    var result, truncated := Truncate(pinned, all, threshold);
    var bps := [Breakpoint(1, Some(0)), Breakpoint(2, if |zoneB| > 0 then Some(1 + |zoneB| - 1) else None),
                Breakpoint(3, None), Breakpoint(4, None)];
    assert WellPlaced(bps) by { PinnedBreakpoints(|zoneB|); }
    var ok := AssertBpInvariant(bps);
    r := Success(Compressed(result, bps, truncated));
  }

  lemma PinnedBreakpoints(n: nat)
    ensures WellPlaced([Breakpoint(1, Some(0)), Breakpoint(2, if n > 0 then Some(1 + n - 1) else None),
                        Breakpoint(3, None), Breakpoint(4, None)])
  {
  }

  /** The hard-truncation loop. The check after the loop, which would throw, never holds. */
  method Truncate(pinned: seq<Message>, all: seq<Message>, threshold: nat)
    returns (result: seq<Message>, truncated: bool)
    requires Tokens(pinned) <= threshold
    ensures pinned <= result && LongestFit(pinned, all, result[|pinned|..], threshold)
    ensures Tokens(result) <= threshold
    ensures truncated <==> |result| < |pinned| + |all|
  {
    hide Tokens;
    var compressedC := all;
    ghost var dropped := 0;
    result := pinned + compressedC;
    truncated := false;
    var estimate := EstimateConversationTokens(result);
    while estimate > threshold && |compressedC| > 0
      invariant dropped <= |all| && compressedC == all[dropped..] && result == pinned + compressedC
      invariant estimate == Tokens(result) && (truncated <==> dropped > 0)
      invariant forall k :: 0 <= k < dropped ==> Tokens(pinned + all[k..]) > threshold
      decreases |compressedC|
    {
      compressedC := compressedC[1..];
      dropped := dropped + 1;
      result := pinned + compressedC;
      truncated := true;
      estimate := EstimateConversationTokens(result);
    }
    if compressedC == [] {
      assert result == pinned;
    }
    assert estimate <= threshold;
    assert result[|pinned|..] == compressedC;
  }

  /** No longer suffix would fit either: dropping the oldest first never drops more than it must. */
  lemma LongerSuffixesAreOver(pinned: seq<Message>, all: seq<Message>, kept: seq<Message>, threshold: nat, k: nat)
    requires LongestFit(pinned, all, kept, threshold) && k <= |all| && Tokens(pinned + all[k..]) <= threshold
    ensures |all[k..]| <= |kept|
  {
  }
}
