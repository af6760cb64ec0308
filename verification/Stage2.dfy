/** Stage 2: how the history of a session is laid out into zones, and where the breakpoints then fall. */
module Stage2 {
  import opened Wrappers
  import opened ContextMessages
  import opened Breakpoints
  import opened Compaction

  const SEARCH_TURNS := 5
  const READ_TURNS := 20
  const MAX_BLOCKS := 5

  datatype Zones = Zones(aEnd: nat, bEnd: nat, frontEnd: nat, midEnd: nat)

  datatype Payload = Payload(messages: seq<Message>, zones: Zones, breakpoints: seq<Breakpoint>)

  function Min(a: int, b: int): int {
    if a < b then a else b
  }

  function Max(a: int, b: int): int {
    if a > b then a else b
  }

  /** Where reading starts: the last 20 turns, or everything the Cerebellum has not consumed if that is more. */
  function ReadStart(length: nat, cursor: nat): nat {
    Min(Max(0, length - READ_TURNS), cursor)
  }

  function BlocksToAnalyze(turnCount: nat, total: nat): nat {
    if turnCount <= 8 then 1 else if turnCount <= 16 then 2
    else Min(MAX_BLOCKS, Max(0, total - SEARCH_TURNS) / BLOCK)
  }

  /** `compactBoundaryTurn`. */
  function Boundary(turnCount: nat, total: nat): nat {
    Max(0, total - SEARCH_TURNS - BlocksToAnalyze(turnCount, total) * BLOCK)
  }

  /** The history that is read: front, mid and tail, in order. */
  function Front(turnCount: nat, full: seq<Message>): seq<Message> {
    full[..Min(Boundary(turnCount, |full|), |full|)]
  }

  function Tail(full: seq<Message>): seq<Message> {
    full[Max(0, |full| - SEARCH_TURNS)..]
  }

  function Mid(turnCount: nat, full: seq<Message>): seq<Message> {
    var start := Boundary(turnCount, |full|);
    var end := Max(start, |full| - SEARCH_TURNS);
    if end > start then full[start..end] else []
  }

  /** The three zones are the turns read, in order and without overlap, for every length and turn count: the last five
      are the tail, and before them the middle takes one block of five, two from 9 turns on, or from 17 on as many
      whole ones as there are, up to five. */
  lemma ZonesPartition(turnCount: nat, full: seq<Message>)
    ensures Front(turnCount, full) + Mid(turnCount, full) + Tail(full) == full
    ensures |Tail(full)| == if |full| < 5 then |full| else 5
    ensures var rest := if |full| < 5 then 0 else |full| - 5;
            |Mid(turnCount, full)| ==
              if turnCount <= 8 then (if rest < 5 then rest else 5)
              else if turnCount <= 16 then (if rest < 10 then rest else 10)
              else if rest < 25 then rest / 5 * 5 else 25
  {
    var n := |full|;
    var blocks := BlocksToAnalyze(turnCount, n);
    assert blocks <= MAX_BLOCKS;
    assert Boundary(turnCount, n) <= Max(0, n - SEARCH_TURNS);
  }

  /** What is read is a suffix of the history that holds the last 20 turns and everything at or after the cursor. */
  lemma ReadsEnough(length: nat, cursor: nat)
    ensures ReadStart(length, cursor) <= length
    ensures ReadStart(length, cursor) <= cursor
    ensures length - ReadStart(length, cursor) >= if length < 20 then length else 20
    ensures ReadStart(length, cursor) == cursor
            || length - ReadStart(length, cursor) == if length < 20 then length else 20
  {
  }

  /** Zone ends that do not decrease and lie within the messages. */
  predicate ZonesInOrder(z: Zones, length: nat) {
    0 == z.aEnd <= z.bEnd <= z.frontEnd <= z.midEnd < length
  }

  function Position(present: bool, at: int): Option<int> {
    if present then Some(at) else None
  }

  /** Each breakpoint is null when its own zone or the one before it is empty. */
  function BreakpointsFor(z: Zones, hasB: bool, hasFront: bool, hasMid: bool): seq<Breakpoint> {
    [Breakpoint(1, Some(z.aEnd)), Breakpoint(2, Position(hasB, z.bEnd)),
     Breakpoint(3, Position(hasB && hasFront, z.frontEnd)),
     Breakpoint(4, Position(hasB && hasFront && hasMid, z.midEnd))]
  }

  predicate InRange(bps: seq<Breakpoint>, length: nat) {
    forall i :: 0 <= i < |bps| && bps[i].position.Some? ==> 0 <= bps[i].position.value < length
  }

  lemma BreakpointsAreWellPlaced(z: Zones, length: nat, hasB: bool, hasFront: bool, hasMid: bool)
    requires ZonesInOrder(z, length)
    ensures var bps := BreakpointsFor(z, hasB, hasFront, hasMid); WellPlaced(bps) && InRange(bps, length)
  {
  }

  /** The last five turns of the history (all of them, if fewer) are the tail of what is read, wherever
      reading starts. */
  lemma TailIsHistoryTail(history: seq<Message>, cursor: nat)
    ensures ReadStart(|history|, cursor) <= |history|
    ensures Tail(history[ReadStart(|history|, cursor)..]) == Tail(history)
  {
    ReadsEnough(|history|, cursor);
    var full := history[ReadStart(|history|, cursor)..];
    assert |full| >= Min(SEARCH_TURNS, |history|);
  }

  /** The messages around the turns: the system prompt and, if there is any, the memory zone. */
  function Head(systemPrompt: Content, zoneB: string): seq<Message> {
    [Message(System, systemPrompt, [])] + (if zoneB != "" then [Message(System, Text(zoneB), [])] else [])
  }

  /** What `stage2OrganizeContext` lays out from the turns read and the compacted middle. */
  predicate LaidOut(p: Payload, systemPrompt: Content, zoneB: string, turnCount: nat, full: seq<Message>,
                    mid: seq<Message>) {
    var head, front, tail := Head(systemPrompt, zoneB), PlainAll(Front(turnCount, full)), PlainAll(Tail(full));
    && p.messages == head + front + mid + tail
    && p.zones == Zones(0, |head| - 1, |head + front| - 1, |head + front + mid| - 1)
    && p.breakpoints == BreakpointsFor(p.zones, zoneB != "", front != [], Mid(turnCount, full) != [])
  }

  lemma HeadIs(systemPrompt: Content, zoneB: string)
    ensures var head := Head(systemPrompt, zoneB);
            && |head| == (if zoneB != "" then 2 else 1) && head[0] == Message(System, systemPrompt, [])
            && (zoneB != "" ==> head[1] == Message(System, Text(zoneB), []))
  {
  }

  /** Where the four breakpoints stand: at the last message of their zone, if that zone and those
      before it are there. */
  ghost predicate Marked(p: Payload, zoneB: string, front: nat, hasMid: bool, tail: nat) {
    && |p.breakpoints| == 4
    && p.breakpoints[0] == Breakpoint(1, Some(0))
    && p.breakpoints[1] == Breakpoint(2, if zoneB != "" then Some(1) else None)
    && p.breakpoints[2] == Breakpoint(3, if zoneB != "" && front > 0 then Some(1 + front) else None)
    && p.breakpoints[3]
       == Breakpoint(4, if zoneB != "" && front > 0 && hasMid then Some(|p.messages| - tail - 1) else None)
  }

  /**
    * What the incoming payload contributes is its system prompt: the outcome is the same for all others that begin with
    * that prompt. In particular a user message it ended with is in the outcome only if it is among the laid-out
    * messages.
    */
  lemma OnlyThePromptIsTaken(
      incoming: seq<Message>, other: seq<Message>, p: Payload, q: Payload, zoneB: string, turnCount: nat,
        full: seq<Message>,
      mid: seq<Message>, m: Message)
    requires incoming != [] && other != [] && incoming[0].content == other[0].content
    requires LaidOut(p, incoming[0].content, zoneB, turnCount, full, mid)
    requires LaidOut(q, other[0].content, zoneB, turnCount, full, mid)
    ensures p == q
    ensures m in p.messages <==>
              || m in Head(incoming[0].content, zoneB) || m in PlainAll(Front(turnCount, full))
              || m in mid || m in PlainAll(Tail(full))
  {
    hide Front, Tail, Mid, PlainAll, Head;
  }

  /**
    * Steps 5 to 8 of `stage2OrganizeContext`, for every history, turn count and outcome of the compaction: the layout
    * is exact, the zone ends are in order and in range, and the assertion on the breakpoints never fails (`ok`).
    * `incoming` are the messages of the payload it was handed, of which it takes the first one's content.
    */
  method OrganizeContext(engine: ContextEngine, incoming: seq<Message>, zoneB: string, history: seq<Message>,
                         cursor: nat,
                         turnCount: nat) returns (p: Payload, ok: bool)
    requires incoming != [] && Sane(engine.State())
    modifies engine`failureCount, engine`paused, engine`calls
    ensures ok && Sane(engine.State())
    ensures var full := history[ReadStart(|history|, cursor)..];
            LaidOut(p, incoming[0].content, zoneB, turnCount, full,
                    Middle(engine.channel, old(engine.State()), Mid(turnCount, full)))
    ensures ZonesInOrder(p.zones, |p.messages|)
    ensures WellPlaced(p.breakpoints) && |p.breakpoints| == 4 && InRange(p.breakpoints, |p.messages|)
    ensures p.messages[0] == Message(System, incoming[0].content, [])
    ensures zoneB != "" ==> |p.messages| > 1 && p.messages[1] == Message(System, Text(zoneB), [])
    ensures var full := history[ReadStart(|history|, cursor)..];
            Marked(p, zoneB, |Front(turnCount, full)|, Mid(turnCount, full) != [], |Tail(full)|)
  {
    hide Middle, Sane, Front, Mid, Tail, PlainAll, WellPlaced;
    ReadsEnough(|history|, cursor);
    HeadIs(incoming[0].content, zoneB);
    var full := history[ReadStart(|history|, cursor)..];
    var systemPrompt := incoming[0].content;
    var messages := [Message(System, systemPrompt, [])];
    var zoneBEnd := 0;
    if zoneB != "" {
      messages := messages + [Message(System, Text(zoneB), [])];
      zoneBEnd := |messages| - 1;
    }
    assert messages == Head(systemPrompt, zoneB) && zoneBEnd == |messages| - 1;
    var zoneCFrontEnd, zoneCMidEnd, hasFront, hasMid;
    messages, zoneCFrontEnd, zoneCMidEnd, hasFront, hasMid := LayTurns(engine, messages, turnCount, full);
    var hasB := zoneB != "";
    var bps := [Breakpoint(1, Some(0)), Breakpoint(2, if hasB then Some(zoneBEnd) else None),
                Breakpoint(3, if hasB && hasFront then Some(zoneCFrontEnd) else None),
                Breakpoint(4, if hasB && hasFront && hasMid then Some(zoneCMidEnd) else None)];
    p := Payload(messages, Zones(0, zoneBEnd, zoneCFrontEnd, zoneCMidEnd), bps);
    BreakpointsAreWellPlaced(p.zones, |messages|, hasB, hasFront, hasMid);
    ok := AssertBpInvariant(bps);
  }

  lemma ZoneBounds(turnCount: nat, full: seq<Message>)
    ensures var total := |full|;
            var boundary := Boundary(turnCount, total);
            var midEnd := Max(boundary, total - SEARCH_TURNS);
            && boundary <= total && midEnd <= Max(boundary, total)
            && Front(turnCount, full) == full[0..boundary] && Tail(full) == full[Max(0, total - SEARCH_TURNS)..total]
            && (midEnd > boundary ==> Mid(turnCount, full) == full[boundary..midEnd])
            && (midEnd <= boundary ==> Mid(turnCount, full) == [])
  {
  }

  /** Zone C: the front turns, the compacted middle and the tail, pushed after `head`. */
  method LayTurns(engine: ContextEngine, head: seq<Message>, turnCount: nat, full: seq<Message>)
    returns (messages: seq<Message>, frontEnd: nat, midEnd: nat, hasFront: bool, hasMid: bool)
    requires Sane(engine.State()) && head != []
    modifies engine`failureCount, engine`paused, engine`calls
    ensures Sane(engine.State())
    ensures var front, tail := PlainAll(Front(turnCount, full)), PlainAll(Tail(full));
            var mid := Middle(engine.channel, old(engine.State()), Mid(turnCount, full));
            && messages == head + front + mid + tail
            && frontEnd == |head + front| - 1 && midEnd == |head + front + mid| - 1
            && hasFront == (front != []) && hasMid == (Mid(turnCount, full) != [])
  {
    hide Middle, Decided, Sane, Boundary, Front, Mid, Tail, PlainAll;
    var total := |full|;
    var boundary := Boundary(turnCount, total);
    ZoneBounds(turnCount, full);
    messages := PushTurns(head, full, 0, boundary);
    hasFront := boundary > 0;
    frontEnd := if hasFront then |messages| - 1 else |head| - 1;
    var end := Max(boundary, total - SEARCH_TURNS);
    hasMid := end > boundary;
    NothingToCompact(engine.channel, engine.State());
    if hasMid {
      var compacted := engine.CompactZoneCMid(full[boundary..end]);
      messages := messages + compacted;
    }
    midEnd := if hasMid then |messages| - 1 else frontEnd;
    messages := PushTurns(messages, full, Max(0, total - SEARCH_TURNS), total);
  }

  lemma NothingToCompact(channel: nat -> Reply, b: Breaker)
    ensures Middle(channel, b, []) == []
  {
  }

  /** The loops that push turns `from` to `to` verbatim. */
  method PushTurns(start: seq<Message>, full: seq<Message>, from: nat, to: nat) returns (messages: seq<Message>)
    requires from <= to <= |full|
    ensures messages == start + PlainAll(full[from..to])
  {
    messages := start;
    for i := from to to
      invariant messages == start + PlainAll(full[from..i])
    {
      assert full[from..i + 1] == full[from..i] + [full[i]];
      PlainAllSplits(full[from..i], [full[i]]);
      messages := messages
        + [Message(full[i].role, if full[i].content.NoContent? then Text("") else full[i].content, [])];
    }
  }

  /** `buildInitialPayload`: the system prompt first, the user's message last, and only the zones that
      exist get breakpoints. */
  method BuildInitialPayload(systemPrompt: string, zoneB: string, chatHistory: seq<Message>, userMessage: string)
    returns (p: Payload, ok: bool)
    ensures ok && WellPlaced(p.breakpoints) && InRange(p.breakpoints, |p.messages|)
    ensures p.messages == Head(Text(systemPrompt), zoneB) + seq(|chatHistory|, i requires 0 <= i < |chatHistory| =>
                            Message(chatHistory[i].role, chatHistory[i].content, []))
                              + [Message(User, Text(userMessage), [])]
    ensures ZonesInOrder(p.zones, |p.messages|)
            && p.zones.midEnd == p.zones.bEnd == |Head(Text(systemPrompt), zoneB)| - 1
    ensures p.breakpoints == BreakpointsFor(p.zones, zoneB != "", false, false)
  {
    hide WellPlaced;
    var messages := [Message(System, Text(systemPrompt), [])];
    var zoneBEnd := 0;
    if zoneB != "" {
      messages := messages + [Message(System, Text(zoneB), [])];
      zoneBEnd := |messages| - 1;
    }
    assert messages == Head(Text(systemPrompt), zoneB);
    for i := 0 to |chatHistory|
      invariant messages == Head(Text(systemPrompt), zoneB) + seq(i, j requires 0 <= j < i =>
                              Message(chatHistory[j].role, chatHistory[j].content, []))
    {
      messages := messages + [Message(chatHistory[i].role, chatHistory[i].content, [])];
    }
    messages := messages + [Message(User, Text(userMessage), [])];
    var zones := Zones(0, zoneBEnd, zoneBEnd, zoneBEnd);
    var bps := [Breakpoint(1, Some(0)), Breakpoint(2, if zoneB != "" then Some(zoneBEnd) else None),
                Breakpoint(3, None), Breakpoint(4, None)];
    BreakpointsAreWellPlaced(zones, |messages|, zoneB != "", false, false);
    ok := AssertBpInvariant(bps);
    p := Payload(messages, zones, bps);
  }
}
