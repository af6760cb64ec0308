/** The streaming twin of the tool loop, and its refinement of the non-streaming one. */
module ChatToolStream {
  import opened Wrappers
  import opened ToolLoop
  import opened StreamAssembly
  import opened Spelling
  import Suspensions
  import Transparency

  /** A stream that ends, or one that throws after some chunks. */
  datatype StreamReply = Streamed(chunks: seq<Chunk>) | Broken(chunks: seq<Chunk>, cause: string)

  /** The streamed provider next to everything else the handler calls out to. */
  datatype StreamWorld = StreamWorld(base: World, stream: Request -> StreamReply)

  datatype Emitted =
    | TextChunk(delta: string)
    | ToolUse(id: Option<string>, name: string, args: Json, round: nat)
    | ToolResult(id: Option<string>, name: string, result: string, isToolError: bool, round: nat)
    | ApprovalRequired(suspensionId: string, toolCallId: Option<string>, name: string, args: Json)

  // ---- Rounds of the streaming handler

  /** `serializeToolCallForAssistantMessage`. */
  function SerializeCall(c: StreamedCall): Call {
    Call(c.id, Some(c.name.GetOr("")), ArgText(SerializeArgs(c.args)))
  }

  function SerializeCalls(calls: seq<StreamedCall>): seq<Call> {
    seq(|calls|, i requires 0 <= i < |calls| => SerializeCall(calls[i]))
  }

  function DispatchStreamed(w: World, job: Job, messages: seq<Message>, calls: seq<StreamedCall>): BatchResult
    decreases |calls|
  {
    if calls == [] then Dispatched(messages) else
      match DispatchNamed(w, job, |messages|, calls[0].id, calls[0].name.GetOr(""), calls[0].args)
      case Said(m) => DispatchStreamed(w, job, messages + [m], calls[1..])
      case Suspends(name, args, approvalId) =>
        Stopped(messages, SerializeCall(calls[0]), name, args, approvalId, SerializeCalls(calls[1..]))
  }

  function AccumulateAll(target: Usage, usages: seq<Reported>): Usage
    decreases |usages|
  {
    if usages == [] then target else AccumulateAll(Accumulate(target, usages[0]), usages[1..])
  }

  datatype StreamRound = StreamOver(run: Run) | StreamGoesOn(usages: seq<Reported>, messages: seq<Message>)

  ghost function OneStreamRound(w: StreamWorld, job: Job, messages: seq<Message>): StreamRound {
    match w.stream(RequestFor(job, messages))
    case Broken(chunks, cause) =>
      StreamOver(Run(ProviderError(Some(cause)), messages, AccumulateAll(ZERO, UsagesOf(chunks)),
                     UsagesOf(chunks) != [], 1))
    case Streamed(chunks) =>
      var usages := UsagesOf(chunks);
      var text := StreamText(w.base, chunks);
      var calls := StreamCalls(w.base, chunks);
      var heard := messages + [Assistant(Some(text), SerializeCalls(calls))];
      if calls == [] then StreamOver(Run(Completed(text), heard, AccumulateAll(ZERO, usages), usages != [], 1)) else
        match DispatchStreamed(w.base, job, heard, calls)
        case Dispatched(said) => StreamGoesOn(usages, said)
        case Stopped(said, call, name, args, approvalId, abandoned) =>
          StreamOver(Run(Suspended(call, name, args, approvalId, abandoned), said, AccumulateAll(ZERO, usages),
                         usages != [], 1))
  }

  ghost function StreamRounds(w: StreamWorld, job: Job, messages: seq<Message>, left: nat): Run
    decreases left
  {
    if left == 0 then Run(OutOfRounds, messages, ZERO, false, 0) else
      match OneStreamRound(w, job, messages)
      case StreamOver(run) => run
      case StreamGoesOn(usages, said) =>
        Joined(AccumulateAll(ZERO, usages), usages != [], 1, StreamRounds(w, job, said, left - 1))
  }

  // ---- The handler's loop

  lemma {:induction false} AccumulateFrom(target: Usage, usages: seq<Reported>)
    ensures AccumulateAll(target, usages) == AddUsage(target, AccumulateAll(ZERO, usages))
    decreases |usages|
  {
    if usages != [] {
      AccumulateFrom(Accumulate(target, usages[0]), usages[1..]);
      AccumulateFrom(Accumulate(ZERO, usages[0]), usages[1..]);
    }
  }

  method AccumulateReports(target: Usage, usages: seq<Reported>) returns (u: Usage)
    ensures u == AddUsage(target, AccumulateAll(ZERO, usages))
  {
    u := target;
    for k := 0 to |usages|
      invariant AccumulateAll(target, usages) == AccumulateAll(u, usages[k..])
    {
      assert usages[k..][1..] == usages[k + 1..];
      u := Accumulate(u, usages[k]);
    }
    AccumulateFrom(target, usages);
  }

  /** The text of a run's chunks. */
  function TextOf(emitted: seq<Emitted>): string
    decreases |emitted|
  {
    if emitted == [] then "" else (if emitted[0].TextChunk? then emitted[0].delta else "") + TextOf(emitted[1..])
  }

  /** The tool messages that the `tool_result` chunks announce. */
  function ResultsOf(emitted: seq<Emitted>): seq<Message>
    decreases |emitted|
  {
    if emitted == [] then [] else
      (if emitted[0].ToolResult? then [ToolMessage(emitted[0].id, emitted[0].result, emitted[0].isToolError)] else [])
      + ResultsOf(emitted[1..])
  }

  /** The assistant text in a stretch of transcript. */
  function SpokenText(messages: seq<Message>): string
    decreases |messages|
  {
    if messages == [] then "" else
      (if messages[0].Assistant? then messages[0].text.GetOr("") else "") + SpokenText(messages[1..])
  }

  /** The tool messages in a stretch of transcript. */
  function ToolMessages(messages: seq<Message>): seq<Message>
    decreases |messages|
  {
    if messages == [] then []
      else (if messages[0].ToolMessage? then [messages[0]] else []) + ToolMessages(messages[1..])
  }

  /** What the caller has been sent mirrors what was appended to the transcript. */
  ghost predicate Mirrors(emitted: seq<Emitted>, appended: seq<Message>) {
    TextOf(emitted) == SpokenText(appended) && ResultsOf(emitted) == ToolMessages(appended)
  }

  /** Nobody is asked to approve anything. */
  ghost predicate AsksNothing(emitted: seq<Emitted>) {
    forall k :: 0 <= k < |emitted| ==> !emitted[k].ApprovalRequired?
  }

  lemma TextCons(m: Emitted, rest: seq<Emitted>)
    ensures TextOf([m] + rest) == TextOf([m]) + TextOf(rest)
  {
    assert ([m] + rest)[1..] == rest;
  }

  lemma {:induction false} TextMore(a: seq<Emitted>, b: seq<Emitted>)
    ensures TextOf(a + b) == TextOf(a) + TextOf(b)
    decreases |a|
  {
    if a == [] {
      assert a + b == b;
    } else {
      hide TextOf;
      var rest := a[1..];
      assert a == [a[0]] + rest && a + b == [a[0]] + (rest + b);
      TextCons(a[0], rest);
      TextCons(a[0], rest + b);
      TextMore(rest, b);
      assert TextOf([a[0]]) + (TextOf(rest) + TextOf(b)) == (TextOf([a[0]]) + TextOf(rest)) + TextOf(b);
    }
  }

  lemma ResultsCons(m: Emitted, rest: seq<Emitted>)
    ensures ResultsOf([m] + rest) == ResultsOf([m]) + ResultsOf(rest)
  {
    assert ([m] + rest)[1..] == rest;
  }

  lemma {:induction false} ResultsMore(a: seq<Emitted>, b: seq<Emitted>)
    ensures ResultsOf(a + b) == ResultsOf(a) + ResultsOf(b)
    decreases |a|
  {
    if a == [] {
      assert a + b == b;
    } else {
      hide ResultsOf;
      var rest := a[1..];
      assert a == [a[0]] + rest && a + b == [a[0]] + (rest + b);
      ResultsCons(a[0], rest);
      ResultsCons(a[0], rest + b);
      ResultsMore(rest, b);
      assert ResultsOf([a[0]]) + (ResultsOf(rest) + ResultsOf(b))
             == (ResultsOf([a[0]]) + ResultsOf(rest)) + ResultsOf(b);
    }
  }

  lemma EmitMore(a: seq<Emitted>, b: seq<Emitted>)
    ensures TextOf(a + b) == TextOf(a) + TextOf(b) && ResultsOf(a + b) == ResultsOf(a) + ResultsOf(b)
  {
    TextMore(a, b);
    ResultsMore(a, b);
  }

  lemma SpeakCons(m: Message, rest: seq<Message>)
    ensures SpokenText([m] + rest) == SpokenText([m]) + SpokenText(rest)
  {
    assert ([m] + rest)[1..] == rest;
  }

  lemma {:induction false} SpeakMore(a: seq<Message>, b: seq<Message>)
    ensures SpokenText(a + b) == SpokenText(a) + SpokenText(b)
    decreases |a|
  {
    if a == [] {
      assert a + b == b;
    } else {
      hide SpokenText;
      var rest := a[1..];
      assert a == [a[0]] + rest && a + b == [a[0]] + (rest + b);
      SpeakCons(a[0], rest);
      SpeakCons(a[0], rest + b);
      SpeakMore(rest, b);
      assert SpokenText([a[0]]) + (SpokenText(rest) + SpokenText(b))
             == (SpokenText([a[0]]) + SpokenText(rest)) + SpokenText(b);
    }
  }

  lemma ToolCons(m: Message, rest: seq<Message>)
    ensures ToolMessages([m] + rest) == ToolMessages([m]) + ToolMessages(rest)
  {
    assert ([m] + rest)[1..] == rest;
  }

  lemma {:induction false} ToolMore(a: seq<Message>, b: seq<Message>)
    ensures ToolMessages(a + b) == ToolMessages(a) + ToolMessages(b)
    decreases |a|
  {
    if a == [] {
      assert a + b == b;
    } else {
      hide ToolMessages;
      var rest := a[1..];
      assert a == [a[0]] + rest && a + b == [a[0]] + (rest + b);
      ToolCons(a[0], rest);
      ToolCons(a[0], rest + b);
      ToolMore(rest, b);
      assert ToolMessages([a[0]]) + (ToolMessages(rest) + ToolMessages(b))
             == (ToolMessages([a[0]]) + ToolMessages(rest)) + ToolMessages(b);
    }
  }

  lemma MirrorsMore(e: seq<Emitted>, m: seq<Message>, f: seq<Emitted>, n: seq<Message>)
    requires Mirrors(e, m) && Mirrors(f, n)
    ensures Mirrors(e + f, m + n)
  {
    EmitMore(e, f);
    SpeakMore(m, n);
    ToolMore(m, n);
  }

  /** Text deltas become `text_chunk` partials. */
  method EmitTexts(texts: seq<string>) returns (emitted: seq<Emitted>)
    ensures TextOf(emitted) == Concat(texts) && ResultsOf(emitted) == [] && AsksNothing(emitted)
    ensures |emitted| == |texts| && forall i :: 0 <= i < |texts| ==> emitted[i] == TextChunk(texts[i])
  {
    emitted := [];
    for k := 0 to |texts|
      invariant TextOf(emitted) == Concat(texts[..k]) && ResultsOf(emitted) == [] && AsksNothing(emitted)
      invariant |emitted| == k && forall i :: 0 <= i < k ==> emitted[i] == TextChunk(texts[i])
    {
      assert texts[..k + 1] == texts[..k] + [texts[k]];
      ConcatAppend(texts[..k], texts[k]);
      EmitMore(emitted, [TextChunk(texts[k])]);
      emitted := emitted + [TextChunk(texts[k])];
    }
    assert texts[..|texts|] == texts;
  }

  lemma AnnouncesNothing(calls: seq<StreamedCall>, round: nat)
    ensures AnnouncesCalls([], calls, [], round, false)
  {
  }

  lemma UseMirrors(id: Option<string>, name: string, args: Json, round: nat)
    ensures Mirrors([ToolUse(id, name, args, round)], [])
  {
    assert [ToolUse(id, name, args, round)][1..] == [];
  }

  lemma ResultMirrors(m: Message, name: string, round: nat)
    requires m.ToolMessage?
    ensures Mirrors([ToolResult(m.callId, name, m.content, m.isToolError, round)], [m])
  {
    assert [ToolResult(m.callId, name, m.content, m.isToolError, round)][1..] == [] && [m][1..] == [];
  }

  lemma SaysToolMessage(w: World, job: Job, time: nat, id: Option<string>, name: string, args: Json)
    ensures var r := DispatchNamed(w, job, time, id, name, args); r.Said? ==> r.message.ToolMessage?
  {
  }

  /** Each call that was dispatched is announced, and then its result; a call that waits for approval
      is announced last. */
  ghost predicate AnnouncesCalls(
      emitted: seq<Emitted>, calls: seq<StreamedCall>, said: seq<Message>, round: nat, waits: bool)
  {
    && |said| + (if waits then 1 else 0) <= |calls| && |emitted| == 2 * |said| + (if waits then 1 else 0)
    && (forall k :: 0 <= k < |said| + (if waits then 1 else 0) ==>
          emitted[2 * k] == ToolUse(calls[k].id, calls[k].name.GetOr(""), calls[k].args, round))
    && (forall k :: 0 <= k < |said| ==>
          && said[k].ToolMessage?
          && emitted[2 * k + 1]
             == ToolResult(said[k].callId, calls[k].name.GetOr(""), said[k].content, said[k].isToolError,
                                              round))
  }

  lemma AnnouncesOneMore(
      emitted: seq<Emitted>, calls: seq<StreamedCall>, said: seq<Message>, round: nat, m: Message)
    requires AnnouncesCalls(emitted, calls, said, round, false) && |said| < |calls| && m.ToolMessage?
    ensures var use := ToolUse(calls[|said|].id, calls[|said|].name.GetOr(""), calls[|said|].args, round);
            var result := ToolResult(m.callId, calls[|said|].name.GetOr(""), m.content, m.isToolError, round);
            && AnnouncesCalls(emitted + [use], calls, said, round, true)
            && AnnouncesCalls(emitted + [use] + [result], calls, said + [m], round, false)
  {
  }

  /** Dispatching the queued calls in order; each use and each result is announced. */
  method DispatchQueued(w: World, job: Job, messages: seq<Message>, queued: seq<StreamedCall>, round: nat)
      returns (r: BatchResult, emitted: seq<Emitted>)
    ensures r == DispatchStreamed(w, job, messages, queued)
    ensures messages <= r.messages && Mirrors(emitted, r.messages[|messages|..]) && AsksNothing(emitted)
    ensures AnnouncesCalls(emitted, queued, r.messages[|messages|..], round, r.Stopped?)
  {
    hide Mirrors, DispatchNamed, AnnouncesCalls;
    AnnouncesNothing(queued, round);
    var workingMessages := messages;
    emitted := [];
    MirrorsNothing();
    assert messages[|messages|..] == [];
    for k := 0 to |queued|
      invariant DispatchStreamed(w, job, messages, queued) == DispatchStreamed(w, job, workingMessages, queued[k..])
      invariant messages <= workingMessages && Mirrors(emitted, workingMessages[|messages|..])
      invariant AsksNothing(emitted) && |workingMessages| == |messages| + k
      invariant AnnouncesCalls(emitted, queued, workingMessages[|messages|..], round, false)
    {
      var call := queued[k];
      var fnName := call.name.GetOr("");
      assert queued[k..][1..] == queued[k + 1..];
      ghost var appended := workingMessages[|messages|..];
      AnnouncesOneMore(emitted, queued, appended, round, ToolMessage(None, "", false));
      ghost var before := emitted;
      UseMirrors(call.id, fnName, call.args, round);
      MirrorsMore(emitted, appended, [ToolUse(call.id, fnName, call.args, round)], []);
      assert appended + [] == appended;
      emitted := emitted + [ToolUse(call.id, fnName, call.args, round)];
      var result := DispatchNamed(w, job, |workingMessages|, call.id, fnName, call.args);
      SaysToolMessage(w, job, |workingMessages|, call.id, fnName, call.args);
      match result
      case Said(m) =>
        var announced := ToolResult(m.callId, fnName, m.content, m.isToolError, round);
        ResultMirrors(m, fnName, round);
        AnnouncesOneMore(before, queued, appended, round, m);
        MirrorsMore(emitted, appended, [announced], [m]);
        emitted := emitted + [announced];
        workingMessages := workingMessages + [m];
        assert workingMessages[|messages|..] == appended + [m];
      case Suspends(name, args, approvalId) =>
        return Stopped(workingMessages, SerializeCall(call), name, args, approvalId,
                       SerializeCalls(queued[k + 1..])), emitted;
    }
    r := Dispatched(workingMessages);
  }

  /** The rounds of `brain.chatToolStream`, with everything sent to the caller on the way. */
  method StreamToolRounds(w: StreamWorld, job: Job, messages: seq<Message>, maxToolRounds: nat)
      returns (run: Run, emitted: seq<Emitted>)
    ensures run == StreamRounds(w, job, messages, maxToolRounds)
    ensures !run.outcome.ProviderError? ==> messages <= run.messages && Mirrors(emitted, run.messages[|messages|..])
    ensures AsksNothing(emitted)
  {
    hide Mirrors, OneStreamRound, AccumulateAll, StreamRounds;
    var workingMessages := messages;
    var aggregatedUsage := ZERO;
    var observedAnyUsage := false;
    emitted := [];
    NothingJoined(StreamRounds(w, job, messages, maxToolRounds));
    MirrorsNothing();
    assert messages[|messages|..] == [];
    for round := 1 to maxToolRounds + 1
      invariant messages <= workingMessages && Mirrors(emitted, workingMessages[|messages|..]) && AsksNothing(emitted)
      invariant StreamRounds(w, job, messages, maxToolRounds)
                == Joined(aggregatedUsage, observedAnyUsage, round - 1,
                          StreamRounds(w, job, workingMessages, maxToolRounds - (round - 1)))
    {
      var result, sent := StreamOneRound(w, job, workingMessages, round);
      StreamUnfold(w, job, workingMessages, maxToolRounds - (round - 1));
      if result.StreamOver? {
        run := Joined(aggregatedUsage, observedAnyUsage, round - 1, result.run);
        if !run.outcome.ProviderError? {
          MirrorsOn(emitted, messages, workingMessages, sent, run.messages);
        }
        emitted := emitted + sent;
        return;
      }
      MirrorsOn(emitted, messages, workingMessages, sent, result.messages);
      JoinTwice(aggregatedUsage, observedAnyUsage, round - 1, AccumulateAll(ZERO, result.usages),
                result.usages != [], 1,
                StreamRounds(w, job, result.messages, maxToolRounds - round));
      emitted := emitted + sent;
      observedAnyUsage := observedAnyUsage || result.usages != [];
      aggregatedUsage := AccumulateReports(aggregatedUsage, result.usages);
      workingMessages := result.messages;
    }
    StreamUnfold(w, job, workingMessages, 0);
    run := Run(OutOfRounds, workingMessages, aggregatedUsage, observedAnyUsage, maxToolRounds);
  }

  lemma StreamUnfold(w: StreamWorld, job: Job, messages: seq<Message>, left: nat)
    ensures left == 0 ==> StreamRounds(w, job, messages, left) == Run(OutOfRounds, messages, ZERO, false, 0)
    ensures left > 0 ==>
              var r := OneStreamRound(w, job, messages);
              StreamRounds(w, job, messages, left) ==
                if r.StreamOver? then r.run
                else Joined(AccumulateAll(ZERO, r.usages), r.usages != [], 1,
                            StreamRounds(w, job, r.messages, left - 1))
  {
    hide OneStreamRound, AccumulateAll;
  }

  lemma MirrorsNothing()
    ensures Mirrors([], [])
  {
  }

  lemma MirrorsOn(e: seq<Emitted>, start: seq<Message>, middle: seq<Message>, f: seq<Emitted>, end: seq<Message>)
    requires start <= middle <= end && Mirrors(e, middle[|start|..]) && Mirrors(f, end[|middle|..])
    ensures start <= end && Mirrors(e + f, end[|start|..])
  {
    MirrorsMore(e, middle[|start|..], f, end[|middle|..]);
    assert end[|start|..] == middle[|start|..] + end[|middle|..];
  }

  lemma MirrorsHeard(emitted: seq<Emitted>, text: string, calls: seq<Call>)
    requires TextOf(emitted) == text && ResultsOf(emitted) == []
    ensures Mirrors(emitted, [Assistant(Some(text), calls)])
  {
    var m := [Assistant(Some(text), calls)];
    assert m[1..] == [];
    assert SpokenText(m) == text + SpokenText([]);
    assert text + "" == text;
  }

  /** First the pieces of text, none of them empty, and then the calls of the stream. */
  ghost predicate TextsThenCalls(
      emitted: seq<Emitted>, n: nat, calls: seq<StreamedCall>, messages: seq<Message>, said: seq<Message>, round: nat,
      waits: bool)
  {
    && n <= |emitted| && (forall i :: 0 <= i < n ==> emitted[i].TextChunk? && emitted[i].delta != "")
    && |said| > |messages| && AnnouncesCalls(emitted[n..], calls, said[|messages| + 1..], round, waits)
  }

  /** Everything sent to the caller in one round. */
  ghost predicate AnnouncesRound(
      emitted: seq<Emitted>, calls: seq<StreamedCall>, messages: seq<Message>, round: nat, r: StreamRound)
  {
    match r
    case StreamGoesOn(_, said) =>
      exists n :: TextsThenCalls(emitted, n, calls, messages, said, round, false)
    case StreamOver(run) =>
      if run.outcome.Suspended?
      then exists n :: TextsThenCalls(emitted, n, calls, messages, run.messages, round, true)
      else forall i :: 0 <= i < |emitted| ==> emitted[i].TextChunk? && emitted[i].delta != ""
  }

  lemma AnnouncedSoFar(
      texts: seq<Emitted>, sent: seq<Emitted>, calls: seq<StreamedCall>, messages: seq<Message>, heard: seq<Message>,
      batch: BatchResult, round: nat)
    requires forall i :: 0 <= i < |texts| ==> texts[i].TextChunk? && texts[i].delta != ""
    requires |heard| == |messages| + 1 && heard <= batch.messages
    requires AnnouncesCalls(sent, calls, batch.messages[|heard|..], round, batch.Stopped?)
    ensures TextsThenCalls(texts + sent, |texts|, calls, messages, batch.messages, round, batch.Stopped?)
  {
    assert (texts + sent)[|texts|..] == sent;
  }

  /** One round: the stream is consumed, the assistant message appended and the queued calls dispatched. */
  method StreamOneRound(w: StreamWorld, job: Job, messages: seq<Message>, round: nat)
      returns (r: StreamRound, emitted: seq<Emitted>)
    ensures r == OneStreamRound(w, job, messages)
    ensures r.StreamOver? && !r.run.outcome.ProviderError? ==>
              messages <= r.run.messages && Mirrors(emitted, r.run.messages[|messages|..])
    ensures r.StreamGoesOn? ==> messages <= r.messages && Mirrors(emitted, r.messages[|messages|..])
    ensures AsksNothing(emitted)
    ensures AnnouncesRound(emitted, StreamCalls(w.base, w.stream(RequestFor(job, messages)).chunks), messages, round, r)
  {
    hide Mirrors, StreamCalls, StreamText, RequestFor, DispatchStreamed, TextOf, ResultsOf, Concat, AccumulateAll,
      UsagesOf, SerializeCalls, AnnouncesCalls, TextsThenCalls;
    var reply := w.stream(RequestFor(job, messages));
    var texts, queuedToolCalls, usages := StreamChatCompletion(w.base, reply.chunks);
    emitted := EmitTexts(texts);
    forall i | 0 <= i < |texts| ensures emitted[i].TextChunk? && emitted[i].delta != "" {
      assert texts[i] in texts;
    }
    var usage := AccumulateReports(ZERO, usages);
    AddZero(AccumulateAll(ZERO, usages));
    if reply.Broken? {
      return StreamOver(Run(ProviderError(Some(reply.cause)), messages, usage, usages != [], 1)), emitted;
    }
    var roundText := JoinTexts(texts);
    var assistantMessage := Assistant(Some(roundText), SerializeCalls(queuedToolCalls));
    var heard := messages + [assistantMessage];
    MirrorsHeard(emitted, roundText, SerializeCalls(queuedToolCalls));
    assert heard[|messages|..] == [assistantMessage];
    if |queuedToolCalls| == 0 {
      return StreamOver(Run(Completed(roundText), heard, usage, usages != [], 1)), emitted;
    }
    var batch, sent := DispatchQueued(w.base, job, heard, queuedToolCalls, round);
    MirrorsOn(emitted, messages, heard, sent, batch.messages);
    AnnouncedSoFar(emitted, sent, queuedToolCalls, messages, heard, batch, round);
    emitted := emitted + sent;
    match batch
    case Dispatched(said) =>
      r := StreamGoesOn(usages, said);
    case Stopped(said, call, name, args, approvalId, abandoned) =>
      r := StreamOver(Run(Suspended(call, name, args, approvalId, abandoned), said, usage, usages != [], 1));
  }

  lemma AddZero(u: Usage)
    ensures AddUsage(ZERO, u) == u
  {
  }

  /** `roundText += delta` over the deltas of a round. */
  method JoinTexts(texts: seq<string>) returns (roundText: string)
    ensures roundText == Concat(texts)
  {
    roundText := "";
    for k := 0 to |texts|
      invariant roundText == Concat(texts[..k])
    {
      assert texts[..k + 1] == texts[..k] + [texts[k]];
      ConcatAppend(texts[..k], texts[k]);
      roundText := roundText + texts[k];
    }
    assert texts[..|texts|] == texts;
  }

  // ---- Refinement

  /** The deltas of one index spell out one call of the reply. */
  ghost predicate Spells(deltas: seq<Delta>, call: Call) {
    && FirstId(deltas) == call.id
    && FirstName(deltas).GetOr("") == call.name.GetOr("")
    && call.arguments == ArgText(AllArguments(deltas))
  }

  /** The chunks carry what a stream can spell of the reply: its text in pieces, each call's deltas in
      order at some ascending index, interleaved and cut in any way, and its usage report if any. */
  ghost predicate Encodes(w: World, chunks: seq<Chunk>, reply: Reply, idx: seq<int>) {
    && Spelled(reply).Answered?
    && WellMarked(ChoicesOf(chunks))
    && StreamText(w, chunks) == Spelled(reply).content.GetOr("")
    && UsagesOf(chunks) == (if reply.usage.Some? then [reply.usage.value] else [])
    && |idx| == |Spelled(reply).calls|
    && (forall i, j :: 0 <= i < j < |idx| ==> idx[i] < idx[j])
    && (forall i :: At(AllDeltas(ChoicesOf(chunks)), i) != [] <==> i in idx)
    && (forall k :: 0 <= k < |idx| ==> Spells(At(AllDeltas(ChoicesOf(chunks)), idx[k]), Spelled(reply).calls[k]))
  }

  /** The streamed calls are the reply's calls with their arguments parsed. */
  ghost predicate Carries(w: World, streamed: seq<StreamedCall>, calls: seq<Call>) {
    && |streamed| == |calls|
    && forall k :: 0 <= k < |calls| ==>
         && streamed[k].id == calls[k].id
         && streamed[k].name.GetOr("") == calls[k].name.GetOr("")
         && streamed[k].args == ParseToolArgs(w, calls[k].arguments)
  }

  /** Flushing all deltas gives the calls that they spell, in the order of their indices. */
  lemma SpeltCallsAreFlushed(w: World, deltas: seq<Delta>, calls: seq<Call>, idx: seq<int>)
    requires |idx| == |calls| && forall i, j :: 0 <= i < j < |idx| ==> idx[i] < idx[j]
    requires forall i :: At(deltas, i) != [] <==> i in idx
    requires forall k :: 0 <= k < |idx| ==> Spells(At(deltas, idx[k]), calls[k])
    ensures Carries(w, Flushed(w, ApplyAll(map[], deltas)), calls)
  {
    var acc := ApplyAll(map[], deltas);
    forall i
      ensures i in acc.Keys <==> i in idx
    {
      AssemblyIsExact(deltas, i);
    }
    assert Ascending(idx, acc.Keys);
    AscendingUnique(idx, SortedKeys(acc.Keys), acc.Keys);
    forall k | 0 <= k < |idx|
      ensures idx[k] in acc && acc[idx[k]] == Whole(At(deltas, idx[k]))
    {
      AssemblyIsExact(deltas, idx[k]);
    }
    hide ApplyAll, At, ParseToolArgs, Ascending;
  }

  /** However a reply is cut into chunks, the calls that come out are its calls as a stream spells them. */
  lemma EncodedCallsAreCarried(w: World, chunks: seq<Chunk>, reply: Reply, idx: seq<int>)
    requires Encodes(w, chunks, reply, idx)
    ensures Carries(w, StreamCalls(w, chunks), Spelled(reply).calls)
  {
    StreamAssembles(w, chunks);
    hide StreamCalls, StreamText, Carries, Flushed, ApplyAll, Spells, At, AllDeltas, ChoicesOf;
    SpeltCallsAreFlushed(w, AllDeltas(ChoicesOf(chunks)), Spelled(reply).calls, idx);
  }

  /** At transcript `h` the streamed provider, asked with the normalised transcript, streams what can
      be spelled of the reply that the non-streaming one gives, or fails as it does, if only after some chunks. */
  ghost predicate TwinAt(w: StreamWorld, job: Job, h: seq<Message>) {
    var reply := w.base.provider(RequestFor(job, h));
    var streamed := w.stream(RequestFor(job, Normal(w.base, h)));
    match reply
    case Threw(cause) => streamed.Broken? && streamed.cause == cause
    case NoMessage(_) => false
    case _ => streamed.Streamed? && exists idx :: Encodes(w.base, streamed.chunks, reply, idx)
  }

  /** A choice without text or calls. */
  predicate SaysNothing(c: Choice) {
    DeltasOf(c) == [] && c.content == ""
  }

  /** At transcript `h` the non-streaming provider answers without a message, and the streamed one
      says nothing either. */
  ghost predicate EmptyAt(w: StreamWorld, job: Job, h: seq<Message>) {
    var reply := w.base.provider(RequestFor(job, h));
    var streamed := w.stream(RequestFor(job, Normal(w.base, h)));
    && reply.NoMessage? && streamed.Streamed?
    && UsagesOf(streamed.chunks) == (if reply.usage.Some? then [reply.usage.value] else [])
    && forall k :: 0 <= k < |ChoicesOf(streamed.chunks)| ==> SaysNothing(ChoicesOf(streamed.chunks)[k])
  }

  ghost predicate SameAt(w: StreamWorld, job: Job, h: seq<Message>) {
    TwinAt(w, job, h) || EmptyAt(w, job, h)
  }

  ghost predicate Twins(w: StreamWorld, job: Job) {
    forall h {:trigger SameAt(w, job, h)} :: SameAt(w, job, h)
  }

  lemma CarriedIsNormal(w: World, streamed: seq<StreamedCall>, calls: seq<Call>)
    requires Carries(w, streamed, calls)
    ensures SerializeCalls(streamed) == NormalCalls(w, calls)
  {
  }

  ghost function NormalBatch(w: World, b: BatchResult): BatchResult {
    match b
    case Dispatched(messages) => Dispatched(Normal(w, messages))
    case Stopped(messages, call, name, args, approvalId, abandoned) =>
      Stopped(Normal(w, messages), NormalCall(w, call), name, args, approvalId, NormalCalls(w, abandoned))
  }

  lemma {:induction false} CarriedBatchRefines(
      w: World, job: Job, messages: seq<Message>, streamed: seq<StreamedCall>, calls: seq<Call>)
    requires Carries(w, streamed, calls)
    ensures DispatchStreamed(w, job, Normal(w, messages), streamed)
            == NormalBatch(w, DispatchBatch(w, job, messages, calls))
    decreases |calls|
  {
    if calls != [] {
      assert Carries(w, streamed[1..], calls[1..]);
      var r := DispatchCall(w, job, |messages|, calls[0]);
      assert r == DispatchNamed(w, job, |Normal(w, messages)|, streamed[0].id, streamed[0].name.GetOr(""),
                                streamed[0].args);
      if r.Said? {
        NormalAppend(w, messages, r.message);
        CarriedBatchRefines(w, job, messages + [r.message], streamed[1..], calls[1..]);
      } else {
        CarriedIsNormal(w, streamed[1..], calls[1..]);
        CarriedIsNormal(w, streamed, calls);
        assert SerializeCalls(streamed)[0] == NormalCalls(w, calls)[0];
      }
    }
  }

  /** Dispatching the streamed calls is dispatching the calls as a stream can spell them, up to
      normalisation; these are the calls themselves exactly if all of their arguments are strings, and
      otherwise the two handlers write different calls into their transcripts. */
  lemma BatchRefines(w: World, job: Job, messages: seq<Message>, streamed: seq<StreamedCall>, calls: seq<Call>)
    requires Carries(w, streamed, SpelledCalls(calls))
    ensures DispatchStreamed(w, job, Normal(w, messages), streamed)
            == NormalBatch(w, DispatchBatch(w, job, messages, SpelledCalls(calls)))
    ensures AllText(calls) ==> SpelledCalls(calls) == calls
    ensures AllText(calls) <==> SerializeCalls(streamed) == NormalCalls(w, calls)
  {
    CarriedBatchRefines(w, job, messages, streamed, SpelledCalls(calls));
    CarriedIsNormal(w, streamed, SpelledCalls(calls));
    SpelledCallsDiffer(w, calls);
  }

  lemma OneUsage(usage: Option<Reported>, usages: seq<Reported>)
    requires usages == if usage.Some? then [usage.value] else []
    ensures AccumulateAll(ZERO, usages) == UsageOf(usage) && (usages != [] <==> usage.Some?)
  {
    if usage.Some? {
      assert usages[1..] == [];
    }
  }

  /** What an answer can tell of a run: usage is not told of a run that failed. */
  function Told(run: Run): Run {
    if run.outcome.ProviderError? then run.(usage := ZERO, observed := false) else run
  }

  lemma ToldJoined(u: Usage, o: bool, n: nat, a: Run, b: Run)
    requires Told(a) == Told(b)
    ensures Told(Joined(u, o, n, a)) == Told(Joined(u, o, n, b))
  {
  }

  /** What one round of the streaming handler makes of a round of the loop. */
  ghost predicate RoundRefines(w: World, s: StreamRound, r: RoundResult) {
    match r
    case Over(run) => s.StreamOver? && Told(s.run) == Told(NormalRun(w, run))
    case GoesOn(usage, messages) =>
      && s.StreamGoesOn? && s.messages == Normal(w, messages)
      && AccumulateAll(ZERO, s.usages) == UsageOf(usage) && (s.usages != [] <==> usage.Some?)
  }

  lemma StreamRoundRefines(w: StreamWorld, job: Job, h: seq<Message>)
    requires TwinAt(w, job, h)
    ensures RoundRefines(w.base, OneStreamRound(w, job, Normal(w.base, h)), OneRound(SpellingWorld(w.base), job, h))
  {
    var reply := w.base.provider(RequestFor(job, h));
    var streamed := w.stream(RequestFor(job, Normal(w.base, h)));
    if Spelled(reply).Answered? {
      AnsweredRoundRefines(w, job, h, reply, streamed.chunks);
    }
  }

  /** What an encoded reply comes to: the streamed message is the spelled one, normalised. */
  lemma EncodedMessage(w: World, h: seq<Message>, reply: Reply, chunks: seq<Chunk>)
    requires exists idx :: Encodes(w, chunks, reply, idx)
    ensures var message := MessageOf(Spelled(reply));
            && Spelled(reply).Answered? && Carries(w, StreamCalls(w, chunks), message.calls)
            && Normal(w, h + [message])
               == Normal(w, h) + [Assistant(Some(StreamText(w, chunks)), SerializeCalls(StreamCalls(w, chunks)))]
            && StreamText(w, chunks) == message.text.GetOr("")
            && AccumulateAll(ZERO, UsagesOf(chunks)) == UsageOf(Spelled(reply).usage)
            && (UsagesOf(chunks) != [] <==> Spelled(reply).usage.Some?)
  {
    var idx :| Encodes(w, chunks, reply, idx);
    EncodedCallsAreCarried(w, chunks, reply, idx);
    OneUsage(reply.usage, UsagesOf(chunks));
    var message := MessageOf(Spelled(reply));
    CarriedIsNormal(w, StreamCalls(w, chunks), message.calls);
    NormalAppend(w, h, message);
    hide StreamCalls, StreamText, AccumulateAll, UsagesOf, SerializeCalls, Normal, NormalCalls, Carries;
  }

  lemma AnsweredRoundRefines(w: StreamWorld, job: Job, h: seq<Message>, reply: Reply, chunks: seq<Chunk>)
    requires reply == w.base.provider(RequestFor(job, h))
    requires w.stream(RequestFor(job, Normal(w.base, h))) == Streamed(chunks)
    requires exists idx :: Encodes(w.base, chunks, reply, idx)
    ensures RoundRefines(w.base, OneStreamRound(w, job, Normal(w.base, h)), OneRound(SpellingWorld(w.base), job, h))
  {
    hide StreamCalls, StreamText, RequestFor, DispatchStreamed, DispatchBatch, AccumulateAll, UsagesOf, UsageOf,
      SerializeCalls,
      Normal, NormalCalls, NormalCall, Encodes, Carries, Spelled, SpellingWorld;
    EncodedMessage(w.base, h, reply, chunks);
    SpellingProvider(w.base, RequestFor(job, h));
    var message, usage := MessageOf(Spelled(reply)), Spelled(reply).usage;
    var heard := h + [message];
    CarriedBatchRefines(w.base, job, heard, StreamCalls(w.base, chunks), message.calls);
    BatchSpelling(w.base, job, heard, message.calls);
    assert OneRound(SpellingWorld(w.base), job, h) ==
      if message.calls == []
        then Over(Run(Completed(message.text.GetOr("")), heard, UsageOf(usage), usage.Some?, 1)) else
        match DispatchBatch(w.base, job, heard, message.calls)
        case Dispatched(said) => GoesOn(usage, said)
        case Stopped(said, call, name, args, approvalId, abandoned) =>
          Over(Run(Suspended(call, name, args, approvalId, abandoned), said, UsageOf(usage), usage.Some?, 1));
    hide OneRound;
    CarriesAsMany(w.base, StreamCalls(w.base, chunks), message.calls);
  }

  lemma CarriesAsMany(w: World, streamed: seq<StreamedCall>, calls: seq<Call>)
    requires Carries(w, streamed, calls)
    ensures streamed == [] <==> calls == []
  {
  }

  lemma {:induction false} NothingSaid(w: World, s: Consumed, choices: seq<Choice>)
    requires forall k :: 0 <= k < |choices| ==> SaysNothing(choices[k])
    ensures ConsumeAll(w, s, choices).text == s.text
    decreases |choices|
  {
    if choices != [] {
      assert SaysNothing(choices[0]);
      NothingSaid(w, ConsumeChoice(w, s, choices[0]), choices[1..]);
      assert s.text + "" == s.text;
    }
  }

  lemma EmptyStream(w: World, chunks: seq<Chunk>)
    requires forall k :: 0 <= k < |ChoicesOf(chunks)| ==> SaysNothing(ChoicesOf(chunks)[k])
    ensures StreamText(w, chunks) == "" && StreamCalls(w, chunks) == []
  {
    NothingSaid(w, NOTHING, ChoicesOf(chunks));
    NothingMore(w, NOTHING, ChoicesOf(chunks));
    EmptyFlush(w);
  }

  /** Where the handlers differ: a stream that says nothing completes with empty text, where the
      loop reports a missing message. */
  lemma EmptyStreamCompletes(w: StreamWorld, job: Job, h: seq<Message>)
    requires EmptyAt(w, job, h)
    ensures var usage := w.base.provider(RequestFor(job, h)).usage;
            var nothing := Normal(w.base, h) + [Assistant(Some(""), [])];
            && OneRound(SpellingWorld(w.base), job, h) == OneRound(w.base, job, h)
            && OneRound(w.base, job, h) == Over(Run(ProviderError(None), h, UsageOf(usage), usage.Some?, 1))
            && OneStreamRound(w, job, Normal(w.base, h))
               == StreamOver(Run(Completed(""), nothing, UsageOf(usage), usage.Some?, 1))
  {
    var chunks := w.stream(RequestFor(job, Normal(w.base, h))).chunks;
    EmptyStream(w.base, chunks);
    OneUsage(w.base.provider(RequestFor(job, h)).usage, UsagesOf(chunks));
    assert SerializeCalls([]) == [];
    hide StreamCalls, StreamText, RequestFor, Normal, AccumulateAll, DispatchBatch, DispatchStreamed;
  }

  /** What streaming makes of a run: one that ends in a missing message completes with empty text. */
  function Completing(run: Run): Run {
    if run.outcome == ProviderError(None)
    then run.(outcome := Completed(""), messages := run.messages + [Assistant(Some(""), [])])
    else run
  }

  /** One round of a provider that streams what it says, or nothing when it has no message. */
  lemma RoundCompletes(w: StreamWorld, job: Job, h: seq<Message>)
    requires SameAt(w, job, h)
    ensures var r := OneRound(SpellingWorld(w.base), job, h);
            var s := OneStreamRound(w, job, Normal(w.base, h));
            if r.Over? then s.StreamOver? && Told(s.run) == Told(Completing(NormalRun(w.base, r.run)))
            else RoundRefines(w.base, s, r)
  {
    if TwinAt(w, job, h) {
      StreamRoundRefines(w, job, h);
      TwinHasMessage(w, job, h);
    } else {
      EmptyStreamCompletes(w, job, h);
    }
    hide OneRound, OneStreamRound, AccumulateAll, NormalMessage, TwinAt, EmptyAt, Normal, UsageOf, SpellingWorld;
  }

  /** However the replies are cut into chunks, the streaming handler makes the run of the loop on the
      replies as a stream can spell them, except that a missing message completes with empty text. */
  lemma {:induction false} StreamingSpells(w: StreamWorld, job: Job, messages: seq<Message>, left: nat)
    requires Twins(w, job)
    ensures Told(StreamRounds(w, job, Normal(w.base, messages), left))
            == Told(Completing(NormalRun(w.base, Rounds(SpellingWorld(w.base), job, messages, left))))
    decreases left
  {
    StreamUnfold(w, job, Normal(w.base, messages), left);
    Transparency.RoundsUnfold(SpellingWorld(w.base), job, messages, left);
    hide StreamRounds, Rounds, OneRound, OneStreamRound, AccumulateAll, Normal, UsageOf, SpellingWorld;
    if left > 0 {
      assert SameAt(w, job, messages);
      RoundCompletes(w, job, messages);
      var r := OneRound(SpellingWorld(w.base), job, messages);
      hide SameAt;
      if r.GoesOn? {
        StreamingSpells(w, job, r.messages, left - 1);
        var s := OneStreamRound(w, job, Normal(w.base, messages));
        ToldJoined(AccumulateAll(ZERO, s.usages), s.usages != [], 1, StreamRounds(w, job, s.messages, left - 1),
                   Completing(NormalRun(w.base, Rounds(SpellingWorld(w.base), job, r.messages, left - 1))));
      }
    }
  }

  /** Streaming refines non-streaming: the streaming handler makes the same run, up to the
      normalisation of assistant messages (and to the usage of a failed run, which is not told), if and
      only if every message that the run appends can be spelled by a stream and the run does not end in
      a missing message. If only the latter fails it completes with empty text; if the former fails, the
      transcripts differ. */
  lemma StreamingRefines(w: StreamWorld, job: Job, messages: seq<Message>, left: nat)
    requires Twins(w, job)
    ensures var run := Rounds(w.base, job, messages, left);
            var streamed := StreamRounds(w, job, Normal(w.base, messages), left);
            && (SpellableFrom(|messages|, run.messages) ==> Told(streamed) == Told(Completing(NormalRun(w.base, run))))
            && (!SpellableFrom(|messages|, run.messages) ==>
                  exists i :: PartAt(streamed.messages, Normal(w.base, run.messages), i))
            && (Told(streamed) == Told(NormalRun(w.base, run)) <==>
                  SpellableFrom(|messages|, run.messages) && run.outcome != ProviderError(None))
  {
    hide StreamRounds, Rounds, Normal, Twins, SpellableFrom;
    StreamingSpells(w, job, messages, left);
    var run := Rounds(w.base, job, messages, left);
    var spelled := Rounds(SpellingWorld(w.base), job, messages, left);
    if SpellableFrom(|messages|, run.messages) {
      SpellableRunIsSpelled(w.base, job, messages, left);
    } else {
      var i := UnspellableShows(w.base, job, messages, left);
      assert PartAt(Normal(w.base, spelled.messages), Normal(w.base, run.messages), i);
      assert PartAt(StreamRounds(w, job, Normal(w.base, messages), left).messages, Normal(w.base, run.messages), i);
    }
  }

  /** It happens: a provider without messages, at any transcript. */
  lemma SilenceDiffers(job: Job, messages: seq<Message>, left: nat) returns (w: StreamWorld)
    requires left > 0
    ensures Twins(w, job) && Rounds(w.base, job, messages, left).outcome == ProviderError(None)
    ensures StreamRounds(w, job, Normal(w.base, messages), left).outcome == Completed("")
  {
    var failing := (time: nat, name: string, args: Json, ctx: Context) => Raised("");
    w := StreamWorld(World((text: string) => None, (request: Request) => NoMessage(None), failing, failing),
                     (request: Request) => Streamed([]));
    assert ChoicesOf([]) == [] && UsagesOf([]) == [];
    forall h
      ensures SameAt(w, job, h)
    {
      assert EmptyAt(w, job, h);
    }
    Transparency.RoundsUnfold(w.base, job, messages, left);
    EmptyStreamCompletes(w, job, messages);
    StreamingRefines(w, job, messages, left);
  }

  const CALL := Call(Some("call"), Some("tool"), ArgText(""))
  const CALL_DELTA := Delta(Some(0), Some("call"), "tool", "")
  const CALL_CHUNK := Chunk(None, [Choice([CALL_DELTA], None, true, "")])

  /** One chunk of one delta that spells out one call. */
  lemma OneDeltaEncoded(w: World, choice: Choice, delta: Delta, reply: Reply, call: Call)
    requires DeltasOf(choice) == [delta] && IndexOf(delta) == 0 && choice.content == "" && Spells([delta], call)
    requires Spelled(reply) == Answered(None, None, [call]) && reply.usage == None
    ensures Encodes(w, [Chunk(None, [choice])], reply, [0])
  {
    var chunks := [Chunk(None, [choice])];
    assert WellMarked([choice]);
    hide Spelled, Spells, SpelledCalls, Flushed, ApplyAll, DeltasOf, WellMarked;
    assert chunks[1..] == [] && [choice] + [] == [choice] && [choice][1..] == [];
    assert ChoicesOf(chunks) == [choice];
    assert AllDeltas([choice]) == [delta] + AllDeltas([]);
    ConsumeNone(w, ConsumeChoice(w, NOTHING, choice));
    assert StreamText(w, chunks) == "" && UsagesOf(chunks) == [];
    assert AllDeltas(ChoicesOf(chunks)) == [delta];
    hide StreamText, UsagesOf, AllDeltas, ChoicesOf;
    forall i
      ensures At([delta], i) == if i == 0 then [delta] else []
    {
      assert [delta][1..] == [];
    }
  }

  lemma OneDeltaSpells(delta: Delta, call: Call)
    requires delta.name != "" && call == Call(delta.id, Some(delta.name), ArgText(delta.arguments))
    ensures Spells([delta], call)
  {
    assert [delta][1..] == [];
    assert AllArguments([delta]) == delta.arguments + AllArguments([]);
  }

  /** One chunk that encodes one call, with empty arguments or without any. */
  lemma OneCallEncoded(w: World, call: Call)
    requires SpelledCall(call) == CALL
    ensures Encodes(w, [CALL_CHUNK], Answered(None, None, [call]), [0])
  {
    assert SpelledCalls([call]) == [CALL];
    hide Encodes, Spells;
    OneDeltaSpells(CALL_DELTA, CALL);
    OneDeltaEncoded(w, CALL_CHUNK.choices[0], CALL_DELTA, Answered(None, None, [call]), CALL);
  }

  /** It happens: a provider whose every reply is a call without arguments, at any transcript. */
  lemma BareCallDiffers(job: Job, messages: seq<Message>, left: nat) returns (w: StreamWorld)
    requires left > 0
    ensures Twins(w, job) && Rounds(w.base, job, messages, left).outcome != ProviderError(None)
    ensures Told(StreamRounds(w, job, Normal(w.base, messages), left))
            != Told(NormalRun(w.base, Rounds(w.base, job, messages, left)))
  {
    var bare := CALL.(arguments := NoArgs);
    var reply := Answered(None, None, [bare]);
    var failing := (time: nat, name: string, args: Json, ctx: Context) => Raised("");
    w := StreamWorld(World((text: string) => None, (request: Request) => reply, failing, failing),
                     (request: Request) => Streamed([CALL_CHUNK]));
    OneCallEncoded(w.base, bare);
    assert !AllText([bare]) by {
      assert !([bare][0].arguments.ArgText?);
    }
    UnspellableReplyDiffers(w, job, messages, left, reply);
  }

  const LEGACY_CHUNK := Chunk(None, [Choice([], Some(Legacy("tool", "")), true, "")])

  /** It happens: a provider whose every reply is a legacy function call, at any transcript. */
  lemma LegacyCallDiffers(job: Job, messages: seq<Message>, left: nat) returns (w: StreamWorld)
    requires left > 0
    ensures Twins(w, job) && Rounds(w.base, job, messages, left).outcome != ProviderError(None)
    ensures Told(StreamRounds(w, job, Normal(w.base, messages), left))
            != Told(NormalRun(w.base, Rounds(w.base, job, messages, left)))
  {
    var reply := FunctionCalled(None, None, "tool", "");
    var failing := (time: nat, name: string, args: Json, ctx: Context) => Raised("");
    w := StreamWorld(World((text: string) => None, (request: Request) => reply, failing, failing),
                     (request: Request) => Streamed([LEGACY_CHUNK]));
    LegacyEncoded(w.base);
    UnspellableReplyDiffers(w, job, messages, left, reply);
  }

  lemma LegacyEncoded(w: World)
    ensures Encodes(w, [LEGACY_CHUNK], FunctionCalled(None, None, "tool", ""), [0])
  {
    var delta := LegacyDelta(Legacy("tool", ""));
    hide Encodes, Spells;
    OneDeltaSpells(delta, Call(None, Some("tool"), ArgText("")));
    OneDeltaEncoded(w, LEGACY_CHUNK.choices[0], delta, FunctionCalled(None, None, "tool", ""),
                    Call(None, Some("tool"), ArgText("")));
  }

  /** A provider that always gives the same reply, which a stream cannot spell. */
  lemma UnspellableReplyDiffers(w: StreamWorld, job: Job, messages: seq<Message>, left: nat, reply: Reply)
    requires left > 0 && (reply.Answered? || reply.FunctionCalled?) && !Spellable(MessageOf(reply))
    requires forall request :: w.base.provider(request) == reply
    requires forall request {:trigger w.stream(request)} ::
               w.stream(request).Streamed? && exists idx :: Encodes(w.base, w.stream(request).chunks, reply, idx)
    ensures Twins(w, job)
    ensures !SpellableFrom(|messages|, Rounds(w.base, job, messages, left).messages)
    ensures Rounds(w.base, job, messages, left).outcome != ProviderError(None)
    ensures Told(StreamRounds(w, job, Normal(w.base, messages), left))
            != Told(NormalRun(w.base, Rounds(w.base, job, messages, left)))
  {
    hide Encodes, StreamRounds, Rounds, Normal, Spellable, RequestFor;
    forall h
      ensures SameAt(w, job, h)
    {
      var streamed := w.stream(RequestFor(job, Normal(w.base, h)));
      assert w.base.provider(RequestFor(job, h)) == reply && streamed.Streamed?;
      assert TwinAt(w, job, h);
    }
    hide TwinAt, SameAt;
    FirstReplyIsHeard(w.base, job, messages, left);
    assert w.base.provider(RequestFor(job, messages)) == reply;
    assert Rounds(w.base, job, messages, left).messages[|messages|] == MessageOf(reply);
    AlwaysAnswered(w.base, job, messages, left);
    StreamingRefines(w, job, messages, left);
  }

  lemma FirstReplyIsHeard(w: World, job: Job, messages: seq<Message>, left: nat)
    requires left > 0
    ensures var reply := w.provider(RequestFor(job, messages));
            reply.Answered? || reply.FunctionCalled? ==>
              messages + [MessageOf(reply)] <= Rounds(w, job, messages, left).messages
  {
    Transparency.RoundsUnfold(w, job, messages, left);
    hide OneRound, Rounds, RequestFor;
    RoundHears(w, job, messages);
    var r := OneRound(w, job, messages);
    if r.GoesOn? {
      Transparency.RunExtends(w, job, r.messages, left - 1);
    }
  }

  /** A provider that always answers with a message never leaves one missing. */
  lemma {:induction false} AlwaysAnswered(w: World, job: Job, messages: seq<Message>, left: nat)
    requires forall request :: !w.provider(request).NoMessage?
    ensures Rounds(w, job, messages, left).outcome != ProviderError(None)
    decreases left
  {
    Transparency.RoundsUnfold(w, job, messages, left);
    hide DispatchBatch, Rounds;
    if left > 0 {
      var r := OneRound(w, job, messages);
      if r.GoesOn? {
        AlwaysAnswered(w, job, r.messages, left - 1);
      }
    }
  }

  lemma TwinHasMessage(w: StreamWorld, job: Job, h: seq<Message>)
    requires TwinAt(w, job, h)
    ensures var r := OneRound(SpellingWorld(w.base), job, h); r.Over? ==> r.run.outcome != ProviderError(None)
  {
    hide DispatchBatch, Normal, RequestFor, Encodes;
  }

  // ---- The handler and its suspension row

  /** Primary configuration, or the backup when that is unavailable. */
  function ResolveWithFallback(
      resolve: Option<Config> -> Option<Config>, primary: Option<Config>, backup: Option<Config>): Option<Config> {
    if resolve(primary).Some? || backup.None? then resolve(primary) else resolve(backup)
  }

  lemma StreamOverTakesOne(w: StreamWorld, job: Job, messages: seq<Message>)
    ensures OneStreamRound(w, job, messages).StreamOver? ==> OneStreamRound(w, job, messages).run.rounds == 1
  {
  }

  lemma {:induction false} StreamWithinCap(w: StreamWorld, job: Job, messages: seq<Message>, left: nat)
    ensures StreamRounds(w, job, messages, left).rounds <= left
    decreases left
  {
    StreamUnfold(w, job, messages, left);
    StreamOverTakesOne(w, job, messages);
    hide OneStreamRound, StreamRounds, AccumulateAll;
    if left > 0 {
      var r := OneStreamRound(w, job, messages);
      if r.StreamGoesOn? {
        StreamWithinCap(w, job, r.messages, left - 1);
      }
    }
  }

  /** The streaming provider next to what the daemon's other handlers use. */
  function Streaming(d: Suspensions.Daemon, stream: Request -> StreamReply): StreamWorld {
    StreamWorld(d.world, stream)
  }

  /** What a run does to the rows, and how it is answered. */
  ghost function Settle(
      d: Suspensions.Daemon, rows: Suspensions.Rows, p: Suspensions.StartParams, job: Job, run: Run, newId: string)
      : Suspensions.Effect
    requires run.rounds <= Suspensions.Cap(p.maxToolRounds)
  {
    var cap := Suspensions.Cap(p.maxToolRounds);
    match run.outcome
    case ProviderError(cause) =>
      Suspensions.Effect(rows, Suspensions.Rejected(Suspensions.ProviderFailed(cause)), run.rounds)
    case Suspended(_, _, _, _, _) =>
      (match Suspensions.Insert(rows, newId, d.agentId, run, cap, p.ctx, job.maxTokens, p.configOverride)
       case None => Suspensions.Effect(rows, Suspensions.Rejected(Suspensions.PersistFailed), run.rounds)
       case Some(after) =>
         Suspensions.Effect(after, Suspensions.Replied(Suspensions.PendingResponse(run, newId)), run.rounds))
    case _ => Suspensions.Effect(rows, Suspensions.Replied(Suspensions.FinalResponse(run, cap)), run.rounds)
  }

  /** What `brain.chatToolStream` does to the rows, and its answer. */
  ghost function StreamEffect(
      d: Suspensions.Daemon, stream: Request -> StreamReply, rows: Suspensions.Rows, p: Suspensions.StartParams,
      backup: Option<Config>, newId: string): Suspensions.Effect
  {
    if p.agentId != d.agentId then Suspensions.Effect(rows, Suspensions.Rejected(Suspensions.AgentMismatch), 0) else
      match ResolveWithFallback(d.resolve, p.configOverride, backup)
      case None => Suspensions.Effect(rows, Suspensions.Rejected(Suspensions.ConfigUnavailable), 0)
      case Some(config) =>
        var job := Suspensions.StartJob(d, p, config);
        var cap := Suspensions.Cap(p.maxToolRounds);
        StreamWithinCap(Streaming(d, stream), job, p.messages, cap);
        Settle(d, rows, p, job, StreamRounds(Streaming(d, stream), job, p.messages, cap), newId)
  }

  /** The caller is asked to approve the stored call, last of all, exactly when the answer is pending on it. */
  ghost predicate AsksForApproval(emitted: seq<Emitted>, a: Suspensions.Answer, rows: Suspensions.Rows) {
    if a.Replied? && a.response.status == Suspensions.IsApprovalPending then
      && a.response.suspensionId.Some? && a.response.suspensionId.value in rows
      && var row := rows[a.response.suspensionId.value];
         && emitted != [] && AsksNothing(emitted[..|emitted| - 1])
         && a.response.toolCallId == Some(row.toolCallId)
         && emitted[|emitted| - 1]
            == ApprovalRequired(a.response.suspensionId.value, a.response.toolCallId, row.toolName, row.args)
    else AsksNothing(emitted)
  }

  /** `brain.chatToolStream`: its answer, the suspension row if there is one, and everything emitted. */
  method ChatToolStream(
      d: Suspensions.Daemon, stream: Request -> StreamReply, store: Suspensions.SuspensionsStore,
      p: Suspensions.StartParams, backup: Option<Config>, newId: string)
      returns (a: Suspensions.Answer, emitted: seq<Emitted>)
    modifies store
    ensures var e := StreamEffect(d, stream, old(store.rows), p, backup, newId); a == e.answer && store.rows == e.rows
    ensures a.Replied? ==>
              p.messages <= a.response.messages && Mirrors(emitted, a.response.messages[|p.messages|..])
    ensures AsksForApproval(emitted, a, store.rows)
  {
    hide Mirrors, StreamRounds;
    emitted := [];
    if p.agentId != d.agentId {
      return Suspensions.Rejected(Suspensions.AgentMismatch), emitted;
    }
    var resolved := ResolveWithFallback(d.resolve, p.configOverride, backup);
    if resolved.None? {
      return Suspensions.Rejected(Suspensions.ConfigUnavailable), emitted;
    }
    var job := Suspensions.StartJob(d, p, resolved.value);
    var effectiveMaxToolRounds := Suspensions.Cap(p.maxToolRounds);
    StreamWithinCap(Streaming(d, stream), job, p.messages, effectiveMaxToolRounds);
    var run;
    run, emitted := StreamToolRounds(Streaming(d, stream), job, p.messages, effectiveMaxToolRounds);
    if run.outcome.ProviderError? {
      return Suspensions.Rejected(Suspensions.ProviderFailed(run.outcome.cause)), emitted;
    }
    if run.outcome.Suspended? {
      var inserted := store.InsertPending(
        newId, d.agentId, run, effectiveMaxToolRounds, p.ctx, job.maxTokens, p.configOverride);
      if !inserted {
        return Suspensions.Rejected(Suspensions.PersistFailed), emitted;
      }
      var request := ApprovalRequired(newId, run.outcome.call.id, run.outcome.name, run.outcome.args);
      AskLast(emitted, run.messages[|p.messages|..], request);
      emitted := emitted + [request];
      return Suspensions.Replied(Suspensions.PendingResponse(run, newId)), emitted;
    }
    a := Suspensions.Replied(Suspensions.FinalResponse(run, effectiveMaxToolRounds));
  }

  lemma AskLast(emitted: seq<Emitted>, appended: seq<Message>, request: Emitted)
    requires Mirrors(emitted, appended) && request.ApprovalRequired?
    ensures Mirrors(emitted + [request], appended)
    ensures (emitted + [request])[..|emitted|] == emitted
  {
    EmitMore(emitted, [request]);
    assert TextOf([request]) == "" && ResultsOf([request]) == [];
  }

  // ---- The two handlers compared

  /** An effect on `rows` with the transcripts of the answer and of a new row `id` normalised. */
  function NormalEffect(w: World, rows: Suspensions.Rows, e: Suspensions.Effect, id: string): Suspensions.Effect {
    Suspensions.Effect(
      if id in e.rows && id !in rows
      then e.rows[id := e.rows[id].(messages := Normal(w, e.rows[id].messages))]
      else e.rows,
      if e.answer.Replied?
      then Suspensions.Replied(e.answer.response.(messages := Normal(w, e.answer.response.messages)))
      else e.answer,
      e.rounds)
  }

  function Normalised(w: World, p: Suspensions.StartParams): Suspensions.StartParams {
    p.(messages := Normal(w, p.messages))
  }

  /** `StartEffect` as settling the run of the loop. */
  lemma StartSettles(d: Suspensions.Daemon, rows: Suspensions.Rows, p: Suspensions.StartParams, newId: string)
    requires p.agentId == d.agentId && d.resolve(p.configOverride).Some?
    ensures var job := Suspensions.StartJob(d, p, d.resolve(p.configOverride).value);
            var run := Rounds(d.world, job, p.messages, Suspensions.Cap(p.maxToolRounds));
            run.rounds <= Suspensions.Cap(p.maxToolRounds)
            && Suspensions.StartEffect(d, rows, p, newId) == Settle(d, rows, p, job, run, newId)
  {
    var job := Suspensions.StartJob(d, p, d.resolve(p.configOverride).value);
    Suspensions.RunWithinCap(d, job, p.messages, Suspensions.Cap(p.maxToolRounds));
    hide Rounds;
  }

  /** Settling a normalised run is the same up to normalisation. */
  lemma SettleNormal(
      d: Suspensions.Daemon, rows: Suspensions.Rows, p: Suspensions.StartParams, job: Job, run: Run, newId: string)
    requires run.rounds <= Suspensions.Cap(p.maxToolRounds)
    ensures Settle(d, rows, Normalised(d.world, p), job, NormalRun(d.world, run), newId)
            == NormalEffect(d.world, rows, Settle(d, rows, p, job, run, newId), newId)
  {
    hide Normal, NormalCalls;
  }

  /** The two handlers agree on a request up to normalisation: same row, same answer. */
  ghost predicate SameEffect(
      d: Suspensions.Daemon, stream: Request -> StreamReply, rows: Suspensions.Rows, p: Suspensions.StartParams,
      backup: Option<Config>, newId: string)
  {
    StreamEffect(d, stream, rows, Normalised(d.world, p), backup, newId)
    == NormalEffect(d.world, rows, Suspensions.StartEffect(d, rows, p, newId), newId)
  }

  /** The two handlers, given the same request up to normalisation, leave the same row and give the
      same answer up to normalisation exactly when
      both refuse the request for its agent or for want of a configuration, or the primary
      configuration is there, a stream can spell every message of the run, and the run does not end in
      a missing message. Of a run that a stream cannot spell this is said if the loop answers with its
      transcript; if it fails instead, no transcript is seen. */
  lemma SameSuspensionRow(
      d: Suspensions.Daemon, stream: Request -> StreamReply, rows: Suspensions.Rows, p: Suspensions.StartParams,
      backup: Option<Config>, newId: string)
    requires d.resolve(p.configOverride).Some? ==>
               Twins(Streaming(d, stream), Suspensions.StartJob(d, p, d.resolve(p.configOverride).value))
    ensures p.agentId != d.agentId || ResolveWithFallback(d.resolve, p.configOverride, backup).None? ==>
              SameEffect(d, stream, rows, p, backup, newId)
    ensures p.agentId == d.agentId && d.resolve(p.configOverride).None?
            && ResolveWithFallback(d.resolve, p.configOverride, backup).Some? ==>
              !SameEffect(d, stream, rows, p, backup, newId)
    ensures p.agentId == d.agentId && d.resolve(p.configOverride).Some? ==>
              var job := Suspensions.StartJob(d, p, d.resolve(p.configOverride).value);
              var run := Rounds(d.world, job, p.messages, Suspensions.Cap(p.maxToolRounds));
              if SpellableFrom(|p.messages|, run.messages)
              then SameEffect(d, stream, rows, p, backup, newId) <==> run.outcome != ProviderError(None)
              else Suspensions.StartEffect(d, rows, p, newId).answer.Replied? ==>
                     !SameEffect(d, stream, rows, p, backup, newId)
  {
    if p.agentId == d.agentId && d.resolve(p.configOverride).Some? {
      hide SameEffect, Rounds, Twins, SpellableFrom, StreamEffect, Suspensions.StartEffect;
      SameOnPrimary(d, stream, rows, p, backup, newId);
    } else {
      hide Rounds, StreamRounds, Normal, Twins;
    }
  }

  lemma SameOnPrimary(
      d: Suspensions.Daemon, stream: Request -> StreamReply, rows: Suspensions.Rows, p: Suspensions.StartParams,
      backup: Option<Config>, newId: string)
    requires p.agentId == d.agentId && d.resolve(p.configOverride).Some?
    requires Twins(Streaming(d, stream), Suspensions.StartJob(d, p, d.resolve(p.configOverride).value))
    ensures var job := Suspensions.StartJob(d, p, d.resolve(p.configOverride).value);
            var run := Rounds(d.world, job, p.messages, Suspensions.Cap(p.maxToolRounds));
            if SpellableFrom(|p.messages|, run.messages)
            then SameEffect(d, stream, rows, p, backup, newId) <==> run.outcome != ProviderError(None)
            else Suspensions.StartEffect(d, rows, p, newId).answer.Replied? ==>
                   !SameEffect(d, stream, rows, p, backup, newId)
  {
    hide Rounds, StreamRounds, Normal, Twins, SpellableFrom, Settle, Suspensions.StartEffect, NormalEffect;
    var job := Suspensions.StartJob(d, p, d.resolve(p.configOverride).value);
    var cap := Suspensions.Cap(p.maxToolRounds);
    var w := Streaming(d, stream);
    var run := Rounds(d.world, job, p.messages, cap);
    var streamed := StreamRounds(w, job, Normal(d.world, p.messages), cap);
    StartSettles(d, rows, p, newId);
    StreamWithinCap(w, job, Normal(d.world, p.messages), cap);
    StreamingRefines(w, job, p.messages, cap);
    SettleNormal(d, rows, p, job, run, newId);
    assert StreamEffect(d, stream, rows, Normalised(d.world, p), backup, newId)
        == Settle(d, rows, Normalised(d.world, p), job, streamed, newId);
    SettledApart(d, rows, p, job, run, streamed, newId);
    if Told(streamed) == Told(NormalRun(d.world, run)) {
      SettleTold(d, rows, Normalised(d.world, p), job, streamed, NormalRun(d.world, run), newId);
    }
  }

  /** Runs of which the same is told settle the same. */
  lemma SettleTold(
      d: Suspensions.Daemon, rows: Suspensions.Rows, p: Suspensions.StartParams, job: Job, a: Run, b: Run,
        newId: string)
    requires a.rounds <= Suspensions.Cap(p.maxToolRounds) && Told(a) == Told(b)
    ensures b.rounds <= Suspensions.Cap(p.maxToolRounds)
    ensures Settle(d, rows, p, job, a, newId) == Settle(d, rows, p, job, b, newId)
  {
  }

  /** Runs that end differently, or that are answered with different transcripts, settle differently. */
  lemma SettledApart(
      d: Suspensions.Daemon, rows: Suspensions.Rows, p: Suspensions.StartParams, job: Job, run: Run, streamed: Run,
      newId: string)
    requires run.rounds <= Suspensions.Cap(p.maxToolRounds) && streamed.rounds <= Suspensions.Cap(p.maxToolRounds)
    ensures var plain := NormalEffect(d.world, rows, Settle(d, rows, p, job, run, newId), newId);
            var twin := Settle(d, rows, Normalised(d.world, p), job, streamed, newId);
            && (Settle(d, rows, p, job, run, newId).answer.Replied?
                && streamed.messages != Normal(d.world, run.messages) ==>
                  twin != plain)
            && (run.outcome == ProviderError(None) && Told(streamed) == Told(Completing(NormalRun(d.world, run))) ==>
                  twin != plain)
  {
    hide Normal;
  }

  /** With the primary configuration unavailable, the handler does what it would do if the backup were
      the primary one. */
  lemma BackupIsUsed(
      d: Suspensions.Daemon, stream: Request -> StreamReply, rows: Suspensions.Rows, p: Suspensions.StartParams,
      backup: Option<Config>, newId: string)
    ensures var primary := d.resolve(p.configOverride);
            var config := if primary.Some? then primary else if backup.Some? then d.resolve(backup) else None;
            StreamEffect(d, stream, rows, p, backup, newId)
            == StreamEffect(d.(resolve := (wanted: Option<Config>) => config), stream, rows, p, None, newId)
  {
    hide StreamRounds, Suspensions.Insert;
  }

  /** A suspension keeps the requested configuration only, not the backup it ran on: its resume is
      refused for want of a configuration exactly when the primary, or the resume's own override, is
      unavailable then. */
  lemma BackupIsForgotten(
      d: Suspensions.Daemon, stream: Request -> StreamReply, rows: Suspensions.Rows, p: Suspensions.StartParams,
      backup: Option<Config>, newId: string, later: Suspensions.Daemon, r: Suspensions.ResumeParams, nextId: string)
    requires StreamEffect(d, stream, rows, p, backup, newId).answer.Replied?
    requires StreamEffect(d, stream, rows, p, backup, newId).answer.response.status == Suspensions.IsApprovalPending
    requires Suspensions.ValidResume(r) && r.suspensionId == newId && r.agentId == d.agentId == later.agentId
    ensures var after := StreamEffect(d, stream, rows, p, backup, newId).rows;
            var second := Suspensions.ResumeEffect(later, after, r, nextId);
            var wanted := if r.configOverride.Some? then r.configOverride else p.configOverride;
            && (second.answer == Suspensions.Rejected(Suspensions.ConfigUnavailable) <==> later.resolve(wanted).None?)
            && (later.resolve(wanted).None? ==> second.rows == after && second.rounds == 0)
  {
    hide Rounds, StreamRounds;
  }

  lemma OneCallStreamed(w: World)
    ensures var calls := StreamCalls(w, [CALL_CHUNK]);
            && |calls| == 1 && calls[0].id == CALL.id && calls[0].name.GetOr("") == "tool"
            && calls[0].args == ParseToolArgs(w, CALL.arguments)
  {
    OneCallEncoded(w, CALL);
    EncodedCallsAreCarried(w, [CALL_CHUNK], Answered(None, None, [CALL]), [0]);
    assert SpelledCalls([CALL]) == [CALL];
    hide StreamCalls, ParseToolArgs, Encodes, SpelledCalls;
    assert [CALL][0] == CALL;
  }

  /** A stream of that one call suspends when the tool asks for approval. */
  lemma OneCallSuspends(w: StreamWorld, job: Job)
    requires w.stream(RequestFor(job, [])) == Streamed([CALL_CHUNK])
    requires DispatchNamed(w.base, job, 1, CALL.id, "tool", ParseToolArgs(w.base, CALL.arguments)).Suspends?
    ensures var run := StreamRounds(w, job, [], 1);
            run.outcome.Suspended? && run.outcome.call.id == CALL.id && run.outcome.name == "tool" && run.rounds == 1
  {
    OneCallStreamed(w.base);
    hide ParseToolArgs, StreamCalls, StreamText, RequestFor, AccumulateAll, UsagesOf;
    DispatchedSuspends(w.base, job, 1, CALL.id, "tool", ParseToolArgs(w.base, CALL.arguments));
    hide DispatchNamed;
    StreamUnfold(w, job, [], 1);
  }

  lemma DispatchedSuspends(w: World, job: Job, time: nat, id: Option<string>, name: string, args: Json)
    ensures var r := DispatchNamed(w, job, time, id, name, args); r.Suspends? ==> r.name == name
  {
  }

  /** It happens: a suspension taken on the backup, with the primary unavailable, which the resume refuses. */
  lemma BackupSuspensionIsLost(agentId: string, newId: string, backup: Config)
      returns (d: Suspensions.Daemon, stream: Request -> StreamReply, p: Suspensions.StartParams,
               r: Suspensions.ResumeParams)
    requires agentId != "" && newId != ""
    ensures d.resolve(p.configOverride).None? && d.resolve(Some(backup)).Some?
    ensures var e := StreamEffect(d, stream, map[], p, Some(backup), newId);
            && e.answer.Replied? && e.answer.response.status == Suspensions.IsApprovalPending
            && Suspensions.ResumeEffect(d, e.rows, r, newId).answer
               == Suspensions.Rejected(Suspensions.ConfigUnavailable)
  {
    var pending := (time: nat, name: string, args: Json, ctx: Context) => Resolved(ApprovalPending(None));
    var world := World((text: string) => None, (request: Request) => Threw(""), pending, pending);
    d := Suspensions.Daemon(
      agentId, world, (wanted: Option<Config>) => if wanted == Some(backup) then wanted else None);
    stream := (request: Request) => Streamed([CALL_CHUNK]);
    p := Suspensions.StartParams(agentId, [], [ToolDef(Some("tool"), true, "")], Context(""), None, Some(1), None);
    r := Suspensions.ResumeParams(agentId, newId, "approval", None, true, [], None);
    hide StreamRounds, Suspensions.DriveEffect;
    OneCallSuspends(Streaming(d, stream), Suspensions.StartJob(d, p, backup));
    BackupIsForgotten(d, stream, map[], p, Some(backup), newId, d, r, newId);
  }
}
