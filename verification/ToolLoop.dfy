/** The multi-round tool loop: the provider is asked, its tool calls are dispatched in order, and
    the loop goes on until the provider stops calling, the rounds run out, or a call suspends. */
module ToolLoop {
  import opened Wrappers

  // ---- Messages

  /** A JSON value as far as tool arguments need it; `repr` is the value's serialised text. */
  datatype Json = JsonString(text: string) | JsonNull | JsonOther(repr: string)

  /** The serialised text of a JSON value is never empty. */
  type Repr = r: string | r != "" witness "0"

  /** The `arguments` field of a call: absent or null, a string, or some other JSON value. */
  datatype RawArgs = NoArgs | ArgText(text: string) | ArgValue(repr: Repr)

  /** One entry of `tool_calls`; other absent fields are None. */
  datatype Call = Call(id: Option<string>, name: Option<string>, arguments: RawArgs)

  datatype Message =
    | Plain(role: string, content: string)
    | Assistant(text: Option<string>, calls: seq<Call>)
    | FunctionCall(text: Option<string>, name: string, arguments: string)
    | ToolMessage(callId: Option<string>, content: string, isToolError: bool)

  // ---- Usage

  /** `usage` as a provider reports it; a total that is not positive counts as absent. */
  datatype Reported = Reported(prompt: int, completion: int, total: int)
  datatype Usage = Usage(prompt: int, completion: int, total: int)

  const ZERO := Usage(0, 0, 0)

  function Accumulate(target: Usage, usage: Reported): Usage {
    Usage(target.prompt + usage.prompt, target.completion + usage.completion,
          target.total + if usage.total > 0 then usage.total else usage.prompt + usage.completion)
  }

  function AddUsage(a: Usage, b: Usage): Usage {
    Usage(a.prompt + b.prompt, a.completion + b.completion, a.total + b.total)
  }

  function UsageOf(usage: Option<Reported>): Usage {
    if usage.Some? then Accumulate(ZERO, usage.value) else ZERO
  }

  // ---- The world outside the loop

  datatype Config = Config(repr: string, maxTokens: Option<int>)
  datatype Context = Context(repr: string)
  datatype ToolDef = ToolDef(name: Option<string>, isLocal: bool, definition: string)
  /** A tool as the provider sees it: without its executor. */
  datatype ProviderTool = ProviderTool(name: Option<string>, definition: string)

  datatype Request = Request(config: Config, messages: seq<Message>, tools: seq<ProviderTool>, maxTokens: Option<int>)

  /** `FunctionCalled` is a message with a legacy `function_call` field in place of `tool_calls`. */
  datatype Reply =
    | Threw(cause: string)
    | NoMessage(usage: Option<Reported>)
    | Answered(usage: Option<Reported>, content: Option<string>, calls: seq<Call>)
    | FunctionCalled(usage: Option<Reported>, content: Option<string>, name: string, arguments: string)

  /** What a tool dispatch resolves to. `Shell` is an object whose only key is `result`. */
  datatype Envelope =
    | ApprovalPending(approvalId: Option<string>)
    | Payload(content: Option<string>, isToolError: bool, json: string)
    | Text(text: string)
    | Shell(result: Envelope, json: string)

  datatype DispatchResult = Raised(message: string) | Resolved(envelope: Envelope)

  /** Everything the loop calls out to. A dispatch may depend on when it happens, which is counted
      by the length of the transcript at that point. */
  datatype World = World(
    parse: string -> Option<Json>,
    provider: Request -> Reply,
    local: (nat, string, Json, Context) -> DispatchResult,
    remote: (nat, string, Json, Context) -> DispatchResult)

  /** What stays fixed over the rounds of one run. */
  datatype Job = Job(config: Config, tools: seq<ToolDef>, ctx: Context, maxTokens: Option<int>)

  // ---- Pure helpers

  /** `parseToolArgs`. */
  function ParseToolArgs(w: World, raw: RawArgs): Json {
    match raw
    case NoArgs => JsonOther("{}")
    case ArgText(text) => if text == "" then JsonString("") else w.parse(text).GetOr(JsonString(text))
    case ArgValue(repr) => JsonOther(repr)
  }

  /** `stripExecutorFromTools`. */
  function StripExecutor(tools: seq<ToolDef>): seq<ProviderTool> {
    seq(|tools|, i requires 0 <= i < |tools| => ProviderTool(tools[i].name, tools[i].definition))
  }

  /** `toolsByName.get(name)`: the last definition of that name wins. */
  function Lookup(tools: seq<ToolDef>, name: string): Option<ToolDef> {
    if tools == [] || name == "" then None
    else if tools[|tools| - 1].name == Some(name) then Some(tools[|tools| - 1])
    else Lookup(tools[..|tools| - 1], name)
  }

  function RequestFor(job: Job, messages: seq<Message>): Request {
    Request(job.config, messages, StripExecutor(job.tools),
            if job.maxTokens.Some? && job.maxTokens.value > 0 then job.maxTokens else None)
  }

  /** A `{ result }` shell is opened once. */
  function Unwrap(e: Envelope): Envelope {
    if e.Shell? then e.result else e
  }

  function ContentOf(e: Envelope): string
    requires !e.ApprovalPending?
  {
    match e
    case Payload(content, _, json) => content.GetOr(json)
    case Text(text) => text
    case Shell(_, json) => json
  }

  function IsToolError(e: Envelope): bool {
    e.Payload? && e.isToolError
  }

  // ---- One call, one batch, all rounds

  datatype CallResult = Said(message: Message) | Suspends(name: string, args: Json, approvalId: Option<string>)

  /** Dispatching a named call when the transcript has `time` messages. */
  function DispatchNamed(w: World, job: Job, time: nat, id: Option<string>, name: string, args: Json): CallResult {
    match Lookup(job.tools, name)
    case None => Said(ToolMessage(id, "Unknown tool: " + name, true))
    case Some(def) =>
      match (if def.isLocal then w.local(time, name, args, job.ctx) else w.remote(time, name, args, job.ctx))
      case Raised(message) => Said(ToolMessage(id, "Tool execution failed: " + message, true))
      case Resolved(envelope) =>
        var e := Unwrap(envelope);
        if e.ApprovalPending? then Suspends(name, args, e.approvalId)
        else Said(ToolMessage(id, ContentOf(e), IsToolError(e)))
  }

  /** Dispatching one entry of `tool_calls`. */
  function DispatchCall(w: World, job: Job, time: nat, call: Call): CallResult {
    DispatchNamed(w, job, time, call.id, call.name.GetOr(""), ParseToolArgs(w, call.arguments))
  }

  datatype BatchResult =
    | Dispatched(messages: seq<Message>)
    | Stopped(messages: seq<Message>, call: Call, name: string, args: Json, approvalId: Option<string>,
              abandoned: seq<Call>)

  /** Dispatching the calls of one assistant message in order, up to the first that suspends. */
  function DispatchBatch(w: World, job: Job, messages: seq<Message>, calls: seq<Call>): BatchResult
    decreases |calls|
  {
    if calls == [] then Dispatched(messages) else
      match DispatchCall(w, job, |messages|, calls[0])
      case Said(m) => DispatchBatch(w, job, messages + [m], calls[1..])
      case Suspends(name, args, approvalId) => Stopped(messages, calls[0], name, args, approvalId, calls[1..])
  }

  predicate AnswerTo(m: Message, call: Call) {
    m.ToolMessage? && m.callId == call.id
  }

  /** `after` is `before` with one tool message for each of `calls`, in order and under its id. */
  ghost predicate Answers(before: seq<Message>, calls: seq<Call>, after: seq<Message>) {
    && |after| == |before| + |calls| && before <= after
    && forall k :: |before| <= k < |after| ==> AnswerTo(after[k], calls[k - |before|])
  }

  /** Every dispatched call is answered exactly once; a suspension names the first call without an answer. */
  lemma {:induction false} EveryCallIsAnswered(w: World, job: Job, messages: seq<Message>, calls: seq<Call>)
    ensures var r := DispatchBatch(w, job, messages, calls);
            && (r.Dispatched? ==> Answers(messages, calls, r.messages))
            && (r.Stopped? ==>
                  var k := |r.messages| - |messages|;
                  && 0 <= k < |calls| && r.call == calls[k] && r.abandoned == calls[k + 1..]
                  && Answers(messages, calls[..k], r.messages))
    decreases |calls|
  {
    hide DispatchCall, AnswerTo;
    if calls != [] && DispatchCall(w, job, |messages|, calls[0]).Said? {
      var said := DispatchCall(w, job, |messages|, calls[0]).message;
      var heard, rest := messages + [said], calls[1..];
      SaysItsId(w, job, |messages|, calls[0]);
      EveryCallIsAnswered(w, job, heard, rest);
      var r := DispatchBatch(w, job, heard, rest);
      if r.Dispatched? {
        AnswersOneMore(messages, said, calls[0], rest, r.messages);
        assert [calls[0]] + rest == calls;
      } else {
        var k := |r.messages| - |messages|;
        AnswersOneMore(messages, said, calls[0], rest[..k - 1], r.messages);
        assert [calls[0]] + rest[..k - 1] == calls[..k];
      }
    }
  }

  lemma AnswersOneMore(messages: seq<Message>, m: Message, call: Call, calls: seq<Call>, after: seq<Message>)
    requires AnswerTo(m, call) && Answers(messages + [m], calls, after)
    ensures Answers(messages, [call] + calls, after)
  {
    hide AnswerTo;
    assert after[|messages|] == (messages + [m])[|messages|];
  }

  lemma SaysItsId(w: World, job: Job, time: nat, call: Call)
    ensures var r := DispatchCall(w, job, time, call); r.Said? ==> AnswerTo(r.message, call)
  {
  }

  /** How a run ends. `abandoned` holds the later calls of a suspended batch, which nobody dispatches. */
  datatype Outcome =
    | Completed(text: string)
    | OutOfRounds
    | Suspended(call: Call, name: string, args: Json, approvalId: Option<string>, abandoned: seq<Call>)
    | ProviderError(cause: Option<string>)

  /** A run: its end, its transcript, its usage and the number of provider rounds it took. */
  datatype Run = Run(outcome: Outcome, messages: seq<Message>, usage: Usage, observed: bool, rounds: nat)

  /** How a round ends: the run is over, or the loop goes on from a longer transcript. */
  datatype RoundResult = Over(run: Run) | GoesOn(usage: Option<Reported>, messages: seq<Message>)

  /** The message of a reply, which goes into the transcript verbatim. */
  function MessageOf(reply: Reply): Message
    requires reply.Answered? || reply.FunctionCalled?
  {
    if reply.Answered? then Assistant(reply.content, reply.calls)
    else FunctionCall(reply.content, reply.name, reply.arguments)
  }

  function OneRound(w: World, job: Job, messages: seq<Message>): RoundResult {
    match w.provider(RequestFor(job, messages))
    case Threw(cause) => Over(Run(ProviderError(Some(cause)), messages, ZERO, false, 1))
    case NoMessage(usage) => Over(Run(ProviderError(None), messages, UsageOf(usage), usage.Some?, 1))
    case FunctionCalled(usage, content, name, arguments) =>
      var heard := messages + [FunctionCall(content, name, arguments)];
      Over(Run(Completed(content.GetOr("")), heard, UsageOf(usage), usage.Some?, 1))
    case Answered(usage, content, calls) =>
      var heard := messages + [Assistant(content, calls)];
      if calls == [] then Over(Run(Completed(content.GetOr("")), heard, UsageOf(usage), usage.Some?, 1)) else
        match DispatchBatch(w, job, heard, calls)
        case Dispatched(said) => GoesOn(usage, said)
        case Stopped(said, call, name, args, approvalId, abandoned) =>
          Over(Run(Suspended(call, name, args, approvalId, abandoned), said, UsageOf(usage), usage.Some?, 1))
  }

  /** What earlier rounds add to the rest of a run. */
  function Joined(usage: Usage, observed: bool, rounds: nat, rest: Run): Run {
    rest.(usage := AddUsage(usage, rest.usage), observed := observed || rest.observed, rounds := rounds + rest.rounds)
  }

  /** The whole loop with `left` rounds to go. */
  function Rounds(w: World, job: Job, messages: seq<Message>, left: nat): Run
    decreases left
  {
    if left == 0 then Run(OutOfRounds, messages, ZERO, false, 0) else
      match OneRound(w, job, messages)
      case Over(run) => run
      case GoesOn(usage, said) => Joined(UsageOf(usage), usage.Some?, 1, Rounds(w, job, said, left - 1))
  }

  // ---- The loop itself

  /** The inner loop over one message's tool calls; a suspension returns from the middle of it. */
  method DispatchToolCalls(w: World, job: Job, messages: seq<Message>, toolCalls: seq<Call>) returns (r: BatchResult)
    ensures r == DispatchBatch(w, job, messages, toolCalls)
  {
    var workingMessages := messages;
    for k := 0 to |toolCalls|
      invariant DispatchBatch(w, job, messages, toolCalls) == DispatchBatch(w, job, workingMessages, toolCalls[k..])
    {
      var result := DispatchCall(w, job, |workingMessages|, toolCalls[k]);
      assert toolCalls[k..][1..] == toolCalls[k + 1..];
      match result
      case Said(message) =>
        workingMessages := workingMessages + [message];
      case Suspends(name, args, approvalId) =>
        return Stopped(workingMessages, toolCalls[k], name, args, approvalId, toolCalls[k + 1..]);
    }
    r := Dispatched(workingMessages);
  }

  lemma JoinTwice(u: Usage, o: bool, n: nat, v: Usage, p: bool, m: nat, run: Run)
    ensures Joined(u, o, n, Joined(v, p, m, run)) == Joined(AddUsage(u, v), o || p, n + m, run)
  {
  }

  lemma NothingJoined(run: Run)
    ensures Joined(ZERO, false, 0, run) == run
  {
  }

  /** One round: the provider is asked, its message appended and its calls dispatched. */
  method PlayRound(w: World, job: Job, messages: seq<Message>) returns (r: RoundResult)
    ensures r == OneRound(w, job, messages)
  {
    hide DispatchBatch, RequestFor;
    var response := w.provider(RequestFor(job, messages));
    if response.Threw? {
      return Over(Run(ProviderError(Some(response.cause)), messages, ZERO, false, 1));
    }
    var usage := response.usage;
    if response.NoMessage? {
      return Over(Run(ProviderError(None), messages, UsageOf(usage), usage.Some?, 1));
    }
    var message := MessageOf(response);
    var heard := messages + [message];
    if message.FunctionCall? || |message.calls| == 0 {
      return Over(Run(Completed(message.text.GetOr("")), heard, UsageOf(usage), usage.Some?, 1));
    }
    var batch := DispatchToolCalls(w, job, heard, message.calls);
    match batch
    case Dispatched(said) =>
      r := GoesOn(usage, said);
    case Stopped(said, call, name, args, approvalId, abandoned) =>
      r := Over(Run(Suspended(call, name, args, approvalId, abandoned), said, UsageOf(usage), usage.Some?, 1));
  }

  /** `runToolLoopRounds`: usage and transcript accumulate over the rounds. */
  method RunToolLoopRounds(w: World, job: Job, messages: seq<Message>, maxToolRounds: nat) returns (run: Run)
    ensures run == Rounds(w, job, messages, maxToolRounds)
  {
    hide OneRound;
    var workingMessages := messages;
    var aggregatedUsage := ZERO;
    var observedAnyUsage := false;
    NothingJoined(Rounds(w, job, messages, maxToolRounds));
    for round := 1 to maxToolRounds + 1
      invariant Rounds(w, job, messages, maxToolRounds)
                == Joined(aggregatedUsage, observedAnyUsage, round - 1,
                          Rounds(w, job, workingMessages, maxToolRounds - (round - 1)))
    {
      var result := PlayRound(w, job, workingMessages);
      if result.Over? {
        return Joined(aggregatedUsage, observedAnyUsage, round - 1, result.run);
      }
      JoinTwice(aggregatedUsage, observedAnyUsage, round - 1, UsageOf(result.usage), result.usage.Some?, 1,
                Rounds(w, job, result.messages, maxToolRounds - round));
      if result.usage.Some? {
        observedAnyUsage := true;
        aggregatedUsage := Accumulate(aggregatedUsage, result.usage.value);
      }
      workingMessages := result.messages;
    }
    run := Run(OutOfRounds, workingMessages, aggregatedUsage, observedAnyUsage, maxToolRounds);
  }
}
