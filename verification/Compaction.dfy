/** Block-wise compaction of the middle of a conversation, and the breaker that pauses it after three failures. */
module Compaction {
  import opened Wrappers
  import opened ContextMessages

  const BLOCK := 5
  const FAILURE_LIMIT := 3

  datatype Verdict = Keep | Delete | Compact(text: string)

  /** What one call of the compaction channel comes to: it throws, or its text parses to a verdict. */
  datatype Reply = Broken | Judged(verdict: Verdict)

  datatype Breaker = Breaker(failures: nat, paused: bool, calls: nat)

  // ----- blocks -----

  function Blocks(turns: seq<Message>): (blocks: seq<seq<Message>>)
    decreases |turns|
  {
    if turns == [] then [] else if |turns| <= BLOCK then [turns] else [turns[..BLOCK]] + Blocks(turns[BLOCK..])
  }

  function Flat<T>(parts: seq<seq<T>>): seq<T>
    decreases |parts|
  {
    if parts == [] then [] else parts[0] + Flat(parts[1..])
  }

  lemma {:induction false} FlatSnoc<T>(parts: seq<seq<T>>, last: seq<T>)
    ensures Flat(parts + [last]) == Flat(parts) + last
    decreases |parts|
  {
    if parts == [] {
      assert parts + [last] == [last];
      assert Flat([last]) == last + Flat([last][1..]);
    } else {
      assert (parts + [last])[1..] == parts[1..] + [last];
      FlatSnoc(parts[1..], last);
    }
  }

  /** The blocks are the turns in order, cut into pieces of five, the last one of at most five and not empty. */
  lemma {:induction false} BlocksPartition(turns: seq<Message>)
    ensures Flat(Blocks(turns)) == turns
    ensures forall i :: 0 <= i < |Blocks(turns)| ==> 0 < |Blocks(turns)[i]| <= 5
    ensures forall i :: 0 <= i < |Blocks(turns)| - 1 ==> |Blocks(turns)[i]| == 5
    decreases |turns|
  {
    if turns != [] {
      if |turns| <= BLOCK {
        assert Flat([turns]) == turns + Flat([turns][1..]);
      } else {
        BlocksPartition(turns[BLOCK..]);
        assert Blocks(turns)[1..] == Blocks(turns[BLOCK..]);
      }
    }
  }

  lemma BlocksStep(turns: seq<Message>, i: nat)
    requires i < |turns|
    ensures var next := if i + BLOCK <= |turns| then i + BLOCK else |turns|;
            Blocks(turns[i..]) == [turns[i..next]] + Blocks(turns[next..])
  {
    var rest := turns[i..];
    if |rest| <= BLOCK {
      assert turns[i..|turns|] == rest;
    } else {
      assert rest[..BLOCK] == turns[i..i + BLOCK];
      assert rest[BLOCK..] == turns[i + BLOCK..];
    }
  }

  /** The splitting loop of `_compactZoneCMid` (and of Stage 3). */
  method SplitBlocks(turns: seq<Message>) returns (blocks: seq<seq<Message>>)
    ensures blocks == Blocks(turns)
  {
    blocks := [];
    var i := 0;
    while i < |turns|
      invariant 0 <= i <= |turns|
      invariant blocks + Blocks(turns[i..]) == Blocks(turns)
      decreases |turns| - i
    {
      BlocksStep(turns, i);
      var next := if i + BLOCK <= |turns| then i + BLOCK else |turns|;
      blocks := blocks + [turns[i..next]];
      i := next;
    }
    assert Blocks(turns[i..]) == [];
  }

  // ----- one block -----

  /** The verdict reached in at most two calls, starting with call number `calls`, and the number of calls by then. */
  function Tried(channel: nat -> Reply, calls: nat): (Option<Verdict>, nat) {
    if channel(calls).Judged? then (Some(channel(calls).verdict), calls + 1)
    else if channel(calls + 1).Judged? then (Some(channel(calls + 1).verdict), calls + 2)
    else (None, calls + 2)
  }

  /** What stands for a block in the output: itself, nothing, or its summary. */
  function Image(block: seq<Message>, v: Option<Verdict>): seq<Message> {
    match v
    case Some(Delete) => []
    case Some(Compact(text)) => [Message(System, Text("[Compacted] " + text), [])]
    case _ => PlainAll(block)
  }

  /** A kept block stands for itself, a deleted one leaves nothing, a compacted one a single system message; without
      a verdict the block is kept. */
  ghost predicate StandsFor(piece: seq<Message>, block: seq<Message>, v: Option<Verdict>) {
    match v
    case Some(Delete) => piece == []
    case Some(Compact(text)) => piece == [Message(System, Text("[Compacted] " + text), [])]
    case Some(Keep) => |piece| == |block| && forall j :: 0 <= j < |block| ==> IsPlain(piece[j], block[j])
    case None => |piece| == |block| && forall j :: 0 <= j < |block| ==> IsPlain(piece[j], block[j])
  }

  function Images(blocks: seq<seq<Message>>, vs: seq<Option<Verdict>>): (images: seq<seq<Message>>)
    requires |blocks| == |vs|
    ensures |images| == |blocks| && forall i :: 0 <= i < |blocks| ==> images[i] == Image(blocks[i], vs[i])
  {
    seq(|blocks|, i requires 0 <= i < |blocks| => Image(blocks[i], vs[i]))
  }

  // ----- the breaker -----

  function Nones(n: nat): (vs: seq<Option<Verdict>>)
    ensures |vs| == n && forall i :: 0 <= i < n ==> vs[i] == None
  {
    seq(n, i => None)
  }

  /** The verdicts on the `n` blocks still to do (None: kept because the channel failed or was not
      asked) and the breaker after. */
  function Decided(channel: nat -> Reply, b: Breaker, n: nat, first: bool): (r: (seq<Option<Verdict>>, Breaker))
    ensures |r.0| == n
    decreases n
  {
    if n == 0 then ([], b)
    else if b.paused && !first then (Nones(n), b)
    else
      var (v, calls) := Tried(channel, b.calls);
      if v.Some? then
        var (vs, after) := Decided(channel, Breaker(0, false, calls), n - 1, false);
        ([v] + vs, after)
      else if b.paused then (Nones(n), b.(calls := calls))
      else
        var failures := b.failures + 1;
        var (vs, after) := Decided(channel, Breaker(failures, failures >= FAILURE_LIMIT, calls), n - 1, false);
        ([None] + vs, after)
  }

  /** Paused exactly at three failures, never more. */
  predicate Sane(b: Breaker) {
    b.failures <= 3 && (b.paused <==> b.failures == 3)
  }

  lemma {:induction false} BreakerStaysSane(channel: nat -> Reply, b: Breaker, n: nat, first: bool)
    requires Sane(b)
    ensures Sane(Decided(channel, b, n, first).1)
    ensures b.calls <= Decided(channel, b, n, first).1.calls <= b.calls + 2 * n
    decreases n
  {
    if n > 0 && !(b.paused && !first) {
      var (v, calls) := Tried(channel, b.calls);
      if v.Some? {
        BreakerStaysSane(channel, Breaker(0, false, calls), n - 1, false);
      } else if !b.paused {
        BreakerStaysSane(channel, Breaker(b.failures + 1, b.failures + 1 >= FAILURE_LIMIT, calls), n - 1, false);
      }
    }
  }

  function Settings(channel: nat -> Reply, b: Breaker, calls: seq<nat>): Breaker
    decreases |calls|
  {
    if calls == [] then b else Settings(channel, Decided(channel, b, calls[0], true).1, calls[1..])
  }

  /** Over any sequence of compactions, of any numbers of blocks, with the channel failing in any pattern. */
  lemma {:induction false} BreakerIsSaneForever(channel: nat -> Reply, calls: seq<nat>)
    ensures Sane(Settings(channel, Breaker(0, false, 0), calls))
  {
    SaneAlong(channel, Breaker(0, false, 0), calls);
  }

  lemma {:induction false} SaneAlong(channel: nat -> Reply, b: Breaker, calls: seq<nat>)
    requires Sane(b)
    ensures Sane(Settings(channel, b, calls))
    decreases |calls|
  {
    if calls != [] {
      BreakerStaysSane(channel, b, calls[0], true);
      SaneAlong(channel, Decided(channel, b, calls[0], true).1, calls[1..]);
    }
  }

  /** The channel throws at both calls from number `calls` on. */
  predicate FailsTwice(channel: nat -> Reply, calls: nat) {
    channel(calls).Broken? && channel(calls + 1).Broken?
  }

  /**
    * A compaction that starts paused probes with its first block, at most twice. It keeps every block, and its pause,
    * exactly if the probe fails; otherwise the first block gets the probe's verdict and the other blocks are decided
    * from a breaker that has forgotten its failures.
    */
  lemma ProbeDecides(channel: nat -> Reply, b: Breaker, n: nat)
    requires Sane(b) && b.paused && n > 0
    ensures var (vs, after) := Decided(channel, b, n, true);
            var answered := if channel(b.calls).Broken? then b.calls + 1 else b.calls;
            && (vs == Nones(n) && after == b.(calls := b.calls + 2) <==> FailsTwice(channel, b.calls))
            && (!FailsTwice(channel, b.calls) ==>
                  && channel(answered).Judged? && vs[0] == Some(channel(answered).verdict)
                  && (vs[1..], after) == Decided(channel, Breaker(0, false, answered + 1), n - 1, false))
  {
    var (vs, after) := Decided(channel, b, n, true);
    if !FailsTwice(channel, b.calls) {
      assert vs[0].Some?;
    }
  }

  /** When as many blocks in a row fail as the breaker still allows, it trips, and the channel is not asked again. */
  lemma {:induction false} TripsAfterFailuresInARow(channel: nat -> Reply, b: Breaker, n: nat, k: nat)
    requires Sane(b) && !b.paused && k == FAILURE_LIMIT - b.failures && n >= k
    requires forall i :: 0 <= i < k ==> FailsTwice(channel, b.calls + 2 * i)
    ensures Decided(channel, b, n, true) == (Nones(n), Breaker(FAILURE_LIMIT, true, b.calls + 2 * k))
    ensures Decided(channel, b, n, false) == (Nones(n), Breaker(FAILURE_LIMIT, true, b.calls + 2 * k))
    decreases k
  {
    assert FailsTwice(channel, b.calls + 2 * 0);
    var next := Breaker(b.failures + 1, b.failures + 1 >= FAILURE_LIMIT, b.calls + 2);
    if k > 1 {
      forall i | 0 <= i < k - 1 ensures FailsTwice(channel, next.calls + 2 * i) {
        assert FailsTwice(channel, b.calls + 2 * (i + 1));
      }
      TripsAfterFailuresInARow(channel, next, n - 1, k - 1);
    }
    assert [None] + Nones(n - 1) == Nones(n);
  }

  /** With a channel that never fails, block i gets the verdict of call i and the count of failures is forgotten. */
  lemma {:induction false} HealthyChannelDecidesAll(channel: nat -> Reply, b: Breaker, n: nat, first: bool)
    requires n > 0 && (b.paused ==> first) && forall i :: b.calls <= i < b.calls + n ==> channel(i).Judged?
    ensures var (vs, after) := Decided(channel, b, n, first);
            && (forall i :: 0 <= i < n ==> vs[i].Some? && channel(b.calls + i) == Judged(vs[i].value))
            && after == Breaker(0, false, b.calls + n)
    decreases n
  {
    var next := Breaker(0, false, b.calls + 1);
    var rest := Decided(channel, next, n - 1, false);
    var vs := Decided(channel, b, n, first).0;
    assert vs == [Some(channel(b.calls).verdict)] + rest.0;
    if n > 1 {
      HealthyChannelDecidesAll(channel, next, n - 1, false);
      forall i | 0 <= i < n ensures vs[i].Some? && channel(b.calls + i) == Judged(vs[i].value) {
        if i > 0 {
          assert vs[i] == rest.0[i - 1];
          assert channel(next.calls + (i - 1)) == Judged(rest.0[i - 1].value);
        }
      }
    }
  }

  // ----- the output -----

  lemma {:induction false} FlatPlain(blocks: seq<seq<Message>>)
    ensures Flat(Images(blocks, Nones(|blocks|))) == PlainAll(Flat(blocks))
    decreases |blocks|
  {
    if blocks != [] {
      FlatPlain(blocks[1..]);
      assert Images(blocks, Nones(|blocks|))[1..] == Images(blocks[1..], Nones(|blocks| - 1));
      PlainAllSplits(blocks[0], Flat(blocks[1..]));
    }
  }

  /** With no verdict at all the turns come out as they went in. */
  lemma KeepsEverything(turns: seq<Message>)
    ensures Flat(Images(Blocks(turns), Nones(|Blocks(turns)|))) == PlainAll(turns)
  {
    BlocksPartition(turns);
    FlatPlain(Blocks(turns));
  }

  /** The middle of the conversation after compaction by an engine whose breaker is `b`. */
  function Middle(channel: nat -> Reply, b: Breaker, turns: seq<Message>): seq<Message> {
    var blocks := Blocks(turns);
    Flat(Images(blocks, Decided(channel, b, |blocks|, true).0))
  }

  /** The output is one piece for each block, in order, and each stands for its block as its verdict says. */
  ghost predicate Composed(out: seq<Message>, pieces: seq<seq<Message>>, blocks: seq<seq<Message>>,
                           vs: seq<Option<Verdict>>) {
    && out == Flat(pieces) && |pieces| == |blocks| == |vs|
    && forall i :: 0 <= i < |blocks| ==> StandsFor(pieces[i], blocks[i], vs[i])
  }

  lemma MiddleIsComposed(channel: nat -> Reply, b: Breaker, turns: seq<Message>) returns (pieces: seq<seq<Message>>)
    ensures Composed(Middle(channel, b, turns), pieces, Blocks(turns), Decided(channel, b, |Blocks(turns)|, true).0)
  {
    var blocks := Blocks(turns);
    pieces := Images(blocks, Decided(channel, b, |blocks|, true).0);
  }

  lemma {:induction false} FlatNothing(pieces: seq<seq<Message>>)
    requires forall i :: 0 <= i < |pieces| ==> pieces[i] == []
    ensures Flat(pieces) == []
    decreases |pieces|
  {
    if pieces != [] {
      FlatNothing(pieces[1..]);
    }
  }

  lemma {:induction false} FlatSingles(pieces: seq<seq<Message>>, m: Message)
    requires forall i :: 0 <= i < |pieces| ==> pieces[i] == [m]
    ensures |Flat(pieces)| == |pieces| && forall i :: 0 <= i < |pieces| ==> Flat(pieces)[i] == m
    decreases |pieces|
  {
    if pieces != [] {
      FlatSingles(pieces[1..], m);
    }
  }

  lemma {:induction false} FlatKept(pieces: seq<seq<Message>>, blocks: seq<seq<Message>>)
    requires |pieces| == |blocks|
    requires forall i :: 0 <= i < |blocks| ==> StandsFor(pieces[i], blocks[i], Some(Keep))
    ensures StandsFor(Flat(pieces), Flat(blocks), Some(Keep))
    decreases |blocks|
  {
    if blocks != [] {
      assert StandsFor(pieces[0], blocks[0], Some(Keep));
      forall i | 0 <= i < |blocks| - 1 ensures StandsFor(pieces[1..][i], blocks[1..][i], Some(Keep)) {
        assert StandsFor(pieces[i + 1], blocks[i + 1], Some(Keep));
      }
      FlatKept(pieces[1..], blocks[1..]);
    }
  }

  /** A channel that always gives the same verdict: Keep returns the turns, Delete nothing, and Compact one system
      message for each block. */
  lemma SameVerdictThroughout(channel: nat -> Reply, b: Breaker, turns: seq<Message>, v: Verdict)
    requires turns != [] && forall i :: b.calls <= i ==> channel(i) == Judged(v)
    ensures var out := Middle(channel, b, turns);
            && (v.Keep? ==> StandsFor(out, turns, Some(Keep)))
            && (v.Delete? ==> out == [])
            && (v.Compact? ==>
                  && |out| == |Blocks(turns)|
                  && forall i :: 0 <= i < |out| ==> out[i] == Message(System, Text("[Compacted] " + v.text), []))
  {
    var blocks := Blocks(turns);
    var vs := Decided(channel, b, |blocks|, true).0;
    var pieces := MiddleIsComposed(channel, b, turns);
    BlocksPartition(turns);
    HealthyChannelDecidesAll(channel, b, |blocks|, true);
    hide Blocks, Decided, Flat, Middle, StandsFor;
    forall i | 0 <= i < |blocks| ensures StandsFor(pieces[i], blocks[i], Some(v)) {
      assert vs[i] == Some(v);
    }
    match v
    case Keep => FlatKept(pieces, blocks);
    case Delete => AllDeleted(pieces, blocks);
    case Compact(text) => AllCompacted(pieces, blocks, text);
  }

  lemma AllDeleted(pieces: seq<seq<Message>>, blocks: seq<seq<Message>>)
    requires |pieces| == |blocks| && forall i :: 0 <= i < |blocks| ==> StandsFor(pieces[i], blocks[i], Some(Delete))
    ensures Flat(pieces) == []
  {
    forall i | 0 <= i < |pieces| ensures pieces[i] == [] {
      assert StandsFor(pieces[i], blocks[i], Some(Delete));
    }
    FlatNothing(pieces);
  }

  lemma AllCompacted(pieces: seq<seq<Message>>, blocks: seq<seq<Message>>, text: string)
    requires |pieces| == |blocks|
    requires forall i :: 0 <= i < |blocks| ==> StandsFor(pieces[i], blocks[i], Some(Compact(text)))
    ensures |Flat(pieces)| == |pieces|
    ensures forall i :: 0 <= i < |pieces| ==> Flat(pieces)[i] == Message(System, Text("[Compacted] " + text), [])
  {
    forall i | 0 <= i < |pieces| ensures pieces[i] == [Message(System, Text("[Compacted] " + text), [])] {
      assert StandsFor(pieces[i], blocks[i], Some(Compact(text)));
    }
    FlatSingles(pieces, Message(System, Text("[Compacted] " + text), []));
  }

  /** A failed probe leaves the conversation as it was. */
  lemma FailedProbeKeepsTurns(channel: nat -> Reply, b: Breaker, turns: seq<Message>)
    requires Sane(b) && b.paused && turns != [] && FailsTwice(channel, b.calls)
    ensures Middle(channel, b, turns) == PlainAll(turns)
    ensures Decided(channel, b, |Blocks(turns)|, true).1 == b.(calls := b.calls + 2)
  {
    ProbeDecides(channel, b, |Blocks(turns)|);
    KeepsEverything(turns);
  }

  class ContextEngine {
    const channel: nat -> Reply
    var failureCount: nat
    var paused: bool
    var calls: nat

    function State(): Breaker
      reads this
    {
      Breaker(failureCount, paused, calls)
    }

    constructor (channel: nat -> Reply)
      ensures State() == Breaker(0, false, 0) && this.channel == channel
    {
      this.channel := channel;
      failureCount, paused, calls := 0, false, 0;
    }

    /** `_compactOneBlock`: one retry; a None verdict is a failure, and the block is then kept. */
    method CompactOneBlock(block: seq<Message>)
      returns (succeeded: bool, messages: seq<Message>, ghost v: Option<Verdict>)
      modifies this`calls
      ensures (v, calls) == Tried(channel, old(calls))
      ensures succeeded == v.Some? && messages == Image(block, v) && StandsFor(messages, block, v)
    {
      var attempt := 0;
      v := None;
      while attempt < 2
        invariant 0 <= attempt <= 2 && calls == old(calls) + attempt
        invariant attempt > 0 ==> channel(old(calls)).Broken?
        invariant attempt > 1 ==> channel(old(calls) + 1).Broken?
        decreases 2 - attempt
      {
        var reply := channel(calls);
        calls := calls + 1;
        match reply {
          case Broken => attempt := attempt + 1;
          case Judged(verdict) =>
            v := Some(verdict);
            match verdict {
              case Keep => return true, PlainAll(block), v;
              case Delete => return true, [], v;
              case Compact(text) => return true, [Message(System, Text("[Compacted] " + text), [])], v;
            }
        }
      }
      return false, PlainAll(block), v;
    }

    /** `_compactZoneCMid`. */
    method CompactZoneCMid(turns: seq<Message>) returns (results: seq<Message>)
      requires Sane(State())
      modifies this`failureCount, this`paused, this`calls
      ensures results == Middle(channel, old(State()), turns)
      ensures State() == Decided(channel, old(State()), |Blocks(turns)|, true).1 && Sane(State())
    {
      hide Decided, Flat, Images, Blocks, Tried, KeepAll, Image, Nones, PlainAll;
      BreakerStaysSane(channel, State(), |Blocks(turns)|, true);
      var blocks := SplitBlocks(turns);
      ghost var goal := Decided(channel, State(), |blocks|, true);
      ghost var vs := [];
      results := [];
      NothingYet(blocks);
      var i := 0;
      while i < |blocks|
        invariant 0 <= i == |vs| <= |blocks|
        invariant Ahead(goal, vs, Decided(channel, State(), |blocks| - i, i == 0))
        invariant results == Flat(Images(blocks[..i], vs))
        decreases |blocks| - i
      {
        DecidedUnfolds(channel, State(), |blocks| - i, i == 0);
        if paused && i > 0 {
          KeptSuffix(blocks, vs, i);
          return results + KeepAll(blocks[i..]);
        }
        var succeeded, messages, v := CompactOneBlock(blocks[i]);
        if succeeded {
          paused, failureCount := false, 0;
        } else if paused {
          KeptSuffix(blocks, vs, i);
          return results + KeepAll(blocks[i..]);
        } else {
          failureCount := failureCount + 1;
          if failureCount >= FAILURE_LIMIT {
            paused := true;
          }
        }
        OneMoreImage(blocks, vs, v, i);
        results := results + messages;
        vs := vs + [v];
        i := i + 1;
      }
      DecidedUnfolds(channel, State(), 0, i == 0);
      assert vs == goal.0;
      assert blocks[..|blocks|] == blocks;
    }
  }

  /** `goal` is what was decided so far, followed by `rest`. */
  predicate Ahead(goal: (seq<Option<Verdict>>, Breaker), vs: seq<Option<Verdict>>,
                  rest: (seq<Option<Verdict>>, Breaker)) {
    goal.0 == vs + rest.0 && goal.1 == rest.1
  }

  lemma NothingYet(blocks: seq<seq<Message>>)
    ensures Flat(Images(blocks[..0], [])) == []
  {
  }

  lemma DecidedUnfolds(channel: nat -> Reply, b: Breaker, n: nat, first: bool)
    ensures n == 0 ==> Decided(channel, b, n, first) == ([], b)
    ensures n > 0 ==>
              var d := Decided(channel, b, n, first);
              var (v, calls) := Tried(channel, b.calls);
              if b.paused && !first then d == (Nones(n), b)
              else if v.Some? then
                var rest := Decided(channel, Breaker(0, false, calls), n - 1, false); d == ([v] + rest.0, rest.1)
              else if b.paused then d == (Nones(n), b.(calls := calls))
              else
                var rest := Decided(channel, Breaker(b.failures + 1, b.failures + 1 >= FAILURE_LIMIT, calls),
                                    n - 1, false);
                d == ([v] + rest.0, rest.1)
  {
  }

  /** The turns of `blocks`, kept. */
  function KeepAll(blocks: seq<seq<Message>>): seq<Message> {
    Flat(Images(blocks, Nones(|blocks|)))
  }

  lemma OneMoreImage(blocks: seq<seq<Message>>, vs: seq<Option<Verdict>>, v: Option<Verdict>, i: nat)
    requires i == |vs| < |blocks|
    ensures Flat(Images(blocks[..i + 1], vs + [v])) == Flat(Images(blocks[..i], vs)) + Image(blocks[i], v)
  {
    assert Images(blocks[..i + 1], vs + [v]) == Images(blocks[..i], vs) + [Image(blocks[i], v)];
    FlatSnoc(Images(blocks[..i], vs), Image(blocks[i], v));
  }

  lemma {:induction false} FlatAdd<T>(a: seq<seq<T>>, b: seq<seq<T>>)
    ensures Flat(a + b) == Flat(a) + Flat(b)
    decreases |a|
  {
    if a == [] {
      assert a + b == b;
    } else {
      assert (a + b)[1..] == a[1..] + b;
      FlatAdd(a[1..], b);
    }
  }

  lemma KeptSuffix(blocks: seq<seq<Message>>, vs: seq<Option<Verdict>>, i: nat)
    requires i == |vs| <= |blocks|
    ensures Flat(Images(blocks, vs + Nones(|blocks| - i))) == Flat(Images(blocks[..i], vs)) + KeepAll(blocks[i..])
  {
    assert Images(blocks, vs + Nones(|blocks| - i))
           == Images(blocks[..i], vs) + Images(blocks[i..], Nones(|blocks| - i));
    FlatAdd(Images(blocks[..i], vs), Images(blocks[i..], Nones(|blocks| - i)));
  }
}
