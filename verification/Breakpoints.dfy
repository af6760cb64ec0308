/** The four cache breakpoints: their invariant, the markers built from them, and the messages that carry them. */
module Breakpoints {
  import opened Wrappers
  import opened ContextMessages

  /** A position of None is a null breakpoint, whose zone is empty. */
  datatype Breakpoint = Breakpoint(id: nat, position: Option<int>)

  datatype Marker = Marker(id: nat, index: int)

  /** bp1 is set, null breakpoints form a tail, and the others do not decrease. */
  predicate WellPlaced(bps: seq<Breakpoint>) {
    && |bps| > 0 && bps[0].position.Some?
    && (forall i, j :: 0 <= i < j < |bps| && bps[j].position.Some? ==> bps[i].position.Some?)
    && (forall i, j :: 0 <= i < j < |bps| && bps[i].position.Some? && bps[j].position.Some? ==>
          bps[i].position.value <= bps[j].position.value)
  }

  /** `assertBpInvariant`: one pass, comparing with the last set position only; false when it throws. */
  method AssertBpInvariant(bps: seq<Breakpoint>) returns (ok: bool)
    requires |bps| > 0
    ensures ok <==> WellPlaced(bps)
  {
    if bps[0].position.None? {
      return false;
    }
    var seenNull := false;
    var last := bps[0].position.value;
    ghost var lastAt := 0;
    for i := 1 to |bps|
      invariant 0 <= lastAt < i && bps[lastAt].position == Some(last)
      invariant WellPlaced(bps[..i])
      invariant forall j :: 0 <= j < i && bps[j].position.Some? ==> bps[j].position.value <= last
      invariant seenNull <==> exists j :: 0 <= j < i && bps[j].position.None?
    {
      if bps[i].position.None? {
        seenNull := true;
      } else {
        if seenNull || bps[i].position.value < last {
          return false;
        }
        last, lastAt := bps[i].position.value, i;
      }
    }
    assert bps[..|bps|] == bps;
    ok := true;
  }

  // ----- markers -----

  /** The breakpoints that lie strictly beyond every one before them and beyond `last`. */
  function Records(bps: seq<Breakpoint>, last: int): seq<Marker>
    decreases |bps|
  {
    if bps == [] then []
    else if bps[0].position.None? || bps[0].position.value <= last then Records(bps[1..], last)
    else [Marker(bps[0].id, bps[0].position.value)] + Records(bps[1..], bps[0].position.value)
  }

  /** The last position used after scanning `bps`. */
  function Reached(bps: seq<Breakpoint>, last: int): int
    decreases |bps|
  {
    if bps == [] then last
    else Reached(bps[1..], if bps[0].position.None? || bps[0].position.value <= last then last
                 else bps[0].position.value)
  }

  lemma {:induction false} RecordsSnoc(bps: seq<Breakpoint>, b: Breakpoint, last: int)
    ensures var skip := b.position.None? || b.position.value <= Reached(bps, last);
            && Records(bps + [b], last) ==
               Records(bps, last) + (if skip then [] else [Marker(b.id, b.position.value)])
            && Reached(bps + [b], last) == (if skip then Reached(bps, last) else b.position.value)
    decreases |bps|
  {
    if bps == [] {
      assert bps + [b] == [b];
    } else {
      assert (bps + [b])[1..] == bps[1..] + [b];
      var next := if bps[0].position.None? || bps[0].position.value <= last then last else bps[0].position.value;
      RecordsSnoc(bps[1..], b, next);
    }
  }

  method BuildCacheControlMarkers(bps: seq<Breakpoint>) returns (r: Result<seq<Marker>, nat>)
    ensures r == if |Records(bps, -1)| > 4 then Failure(|Records(bps, -1)|) else Success(Records(bps, -1))
  {
    var markers := [];
    var last := -1;
    for i := 0 to |bps|
      invariant markers == Records(bps[..i], -1) && last == Reached(bps[..i], -1)
    {
      var bp := bps[i];
      assert bps[..i + 1] == bps[..i] + [bp];
      RecordsSnoc(bps[..i], bp, -1);
      if bp.position.Some? && bp.position.value > last {
        markers := markers + [Marker(bp.id, bp.position.value)];
        last := bp.position.value;
      }
    }
    assert bps[..|bps|] == bps;
    r := if |markers| > 4 then Failure(|markers|) else Success(markers);
  }

  /** Markers are strictly increasing, beyond `last`, and no more than the breakpoints. */
  lemma {:induction false} RecordsIncrease(bps: seq<Breakpoint>, last: int)
    ensures var ms := Records(bps, last);
            && |ms| <= |bps|
            && (forall i :: 0 <= i < |ms| ==> last < ms[i].index)
            && (forall i, j :: 0 <= i < j < |ms| ==> ms[i].index < ms[j].index)
    decreases |bps|
  {
    if bps != [] {
      if bps[0].position.None? || bps[0].position.value <= last {
        RecordsIncrease(bps[1..], last);
      } else {
        RecordsIncrease(bps[1..], bps[0].position.value);
      }
    }
  }

  predicate MarkedAt(markers: seq<Marker>, i: int) {
    exists k :: 0 <= k < |markers| && markers[k].index == i
  }

  lemma MarkedCons(m: Marker, rest: seq<Marker>, i: int)
    ensures MarkedAt([m] + rest, i) <==> m.index == i || MarkedAt(rest, i)
  {
    var ms := [m] + rest;
    assert ms[0] == m;
    if MarkedAt(rest, i) {
      var k :| 0 <= k < |rest| && rest[k].index == i;
      assert ms[k + 1] == rest[k];
    }
  }

  /** Of breakpoints in non-decreasing order no position beyond `last` is lost. */
  lemma {:induction false} RecordsMark(bps: seq<Breakpoint>, last: int, i: nat)
    requires forall j, k :: 0 <= j < k < |bps| && bps[j].position.Some? && bps[k].position.Some? ==>
               bps[j].position.value <= bps[k].position.value
    requires i < |bps| && bps[i].position.Some? && bps[i].position.value > last
    ensures MarkedAt(Records(bps, last), bps[i].position.value)
    decreases |bps|
  {
    var rest := bps[1..];
    if bps[0].position.None? || bps[0].position.value <= last {
      assert bps[i] == rest[i - 1];
      RecordsMark(rest, last, i - 1);
    } else {
      MarkedCons(Marker(bps[0].id, bps[0].position.value), Records(rest, bps[0].position.value), bps[i].position.value);
      if bps[i].position.value > bps[0].position.value {
        assert bps[i] == rest[i - 1];
        RecordsMark(rest, bps[0].position.value, i - 1);
      }
    }
  }

  /** Every marker is one of the breakpoints. */
  lemma {:induction false} RecordsAreBreakpoints(bps: seq<Breakpoint>, last: int, k: nat)
    requires k < |Records(bps, last)|
    ensures var m := Records(bps, last)[k]; Breakpoint(m.id, Some(m.index)) in bps
    decreases |bps|
  {
    if bps[0].position.None? || bps[0].position.value <= last {
      RecordsAreBreakpoints(bps[1..], last, k);
    } else if k > 0 {
      RecordsAreBreakpoints(bps[1..], bps[0].position.value, k - 1);
    } else {
      assert Records(bps, last)[0] == Marker(bps[0].id, bps[0].position.value);
      assert bps[0] == Breakpoint(bps[0].id, Some(bps[0].position.value));
    }
  }

  // ----- applying markers -----

  function MarkedContent(c: Content): Content {
    match c
    case NoContent => NoContent
    case Text(s) => Parts([Part(s, true)])
    case Parts(ps) => if ps == [] then c else Parts(ps[|ps| - 1 := ps[|ps| - 1].(cached := true)])
  }

  /** Marking keeps every text: plain text becomes a single cached part, of parts the last one is cached, and an empty
      content stays as it is. */
  lemma MarkingKeepsText(c: Content)
    ensures c.NoContent? || c == Parts([]) ==> MarkedContent(c) == c
    ensures c.Text? ==> MarkedContent(c) == Parts([Part(c.text, true)])
    ensures c.Parts? && c.parts != [] ==>
              var m := MarkedContent(c);
              && m.Parts? && |m.parts| == |c.parts|
              && (forall i :: 0 <= i < |c.parts| - 1 ==> m.parts[i] == c.parts[i])
              && m.parts[|c.parts| - 1] == Part(c.parts[|c.parts| - 1].text, true)
  {
  }

  lemma MarkTwice(c: Content)
    ensures MarkedContent(MarkedContent(c)) == MarkedContent(c)
  {
    if c.Parts? && c.parts != [] {
      var last := |c.parts| - 1;
      var marked := c.parts[last].(cached := true);
      assert c.parts[last := marked][last := marked] == c.parts[last := marked];
    } else if c.Text? {
      assert [Part(c.text, true)][0 := Part(c.text, true)] == [Part(c.text, true)];
    }
  }

  /** `applyCacheMarkers` for an Anthropic provider; it fails exactly when some marker lies outside the messages. */
  method ApplyCacheMarkers(ms: seq<Message>, markers: seq<Marker>) returns (r: Result<seq<Message>, Marker>)
    ensures r.Success? <==> forall k :: 0 <= k < |markers| ==> 0 <= markers[k].index < |ms|
    ensures r.Success? ==>
              && |r.value| == |ms|
              && forall i :: 0 <= i < |ms| ==>
                   r.value[i] == if MarkedAt(markers, i) then ms[i].(content := MarkedContent(ms[i].content)) else ms[i]
  {
    var result := ms;
    for n := 0 to |markers|
      invariant |result| == |ms|
      invariant forall k :: 0 <= k < n ==> 0 <= markers[k].index < |ms|
      invariant forall i :: 0 <= i < |ms| ==>
                  result[i] == if MarkedAt(markers[..n], i)
                    then ms[i].(content := MarkedContent(ms[i].content)) else ms[i]
    {
      var at := markers[n].index;
      if at < 0 || at >= |result| {
        return Failure(markers[n]);
      }
      MarkTwice(ms[at].content);
      var msg := result[at];
      match msg.content {
        case Text(s) => result := result[at := msg.(content := Parts([Part(s, true)]))];
        case Parts(ps) =>
          if ps != [] {
            result := result[at := msg.(content := Parts(ps[|ps| - 1 := ps[|ps| - 1].(cached := true)]))];
          }
        case NoContent =>
      }
    }
    assert markers[..|markers|] == markers;
    r := Success(result);
  }

  /** The four breakpoints of a payload: their markers never exceed the limit and, in range, can always be applied. */
  lemma FourAreFine(bps: seq<Breakpoint>, length: nat)
    requires |bps| <= 4 && WellPlaced(bps)
    requires forall i :: 0 <= i < |bps| && bps[i].position.Some? ==> 0 <= bps[i].position.value < length
    ensures var ms := Records(bps, -1);
            && 0 < |ms| <= 4
            && (forall i, j :: 0 <= i < j < |ms| ==> ms[i].index < ms[j].index)
            && (forall k :: 0 <= k < |ms| ==> 0 <= ms[k].index < length)
            && (forall i :: 0 <= i < |bps| && bps[i].position.Some? ==> MarkedAt(ms, bps[i].position.value))
  {
    hide MarkedAt;
    RecordsIncrease(bps, -1);
    forall i | 0 <= i < |bps| && bps[i].position.Some? ensures MarkedAt(Records(bps, -1), bps[i].position.value) {
      RecordsMark(bps, -1, i);
    }
    forall k | 0 <= k < |Records(bps, -1)| ensures 0 <= Records(bps, -1)[k].index < length {
      RecordsAreBreakpoints(bps, -1, k);
    }
  }
}
