/** What one entry of `tool_calls` comes to: which dispatcher runs it, and what is said of its answer. */
module ToolDispatch {
  import opened Wrappers
  import opened ToolLoop

  /** Tool `k` is the last one of that name, which is not empty. */
  predicate LastNamed(tools: seq<ToolDef>, k: nat, name: Option<string>) {
    && k < |tools| && name.Some? && name != Some("") && tools[k].name == name
    && forall j :: k < j < |tools| ==> tools[j].name != name
  }

  /** The call names no tool. */
  predicate NamesNone(tools: seq<ToolDef>, name: Option<string>) {
    name.None? || name == Some("") || forall j :: 0 <= j < |tools| ==> tools[j].name != name
  }

  /** Arguments as the dispatcher gets them: text is parsed, and handed on as it is where that fails. */
  predicate ReadAs(w: World, raw: RawArgs, args: Json) {
    match raw
    case NoArgs => args == JsonOther("{}")
    case ArgValue(repr) => args == JsonOther(repr)
    case ArgText(text) =>
      && (text == "" || w.parse(text).None? ==> args == JsonString(text))
      && (text != "" && w.parse(text).Some? ==> args == w.parse(text).value)
  }

  /** The dispatcher's answer to a call of tool `k`: a local tool is never sent to the remote one, nor
      the other way round. */
  function AnswerOf(w: World, job: Job, k: nat, time: nat, args: Json): DispatchResult
    requires k < |job.tools| && job.tools[k].name.Some?
  {
    var name := job.tools[k].name.value;
    if job.tools[k].isLocal then w.local(time, name, args, job.ctx) else w.remote(time, name, args, job.ctx)
  }

  /** What a tool's answer says: an error, a pending approval, or a content with its error flag. */
  datatype Meaning = Fails(message: string) | Waits(approvalId: Option<string>) | Says(content: string,
      isToolError: bool)

  /** A shell is opened once; a payload without content, and a shell in a shell, stand as their JSON text. */
  ghost predicate Means(answer: DispatchResult, m: Meaning) {
    match answer
    case Raised(message) => m == Fails(message)
    case Resolved(e) => if e.Shell? then MeansOpen(e.result, m) else MeansOpen(e, m)
  }

  ghost predicate MeansOpen(e: Envelope, m: Meaning) {
    match e
    case ApprovalPending(approvalId) => m == Waits(approvalId)
    case Payload(content, isToolError, json) => m == Says(if content.Some? then content.value else json, isToolError)
    case Text(text) => m == Says(text, false)
    case Shell(_, json) => m == Says(json, false)
  }

  /** The tool message of an answer that does not wait. */
  function ToldAs(id: Option<string>, m: Meaning): Message
    requires !m.Waits?
  {
    if m.Fails? then ToolMessage(id, "Tool execution failed: " + m.message, true)
    else ToolMessage(id, m.content, m.isToolError)
  }

  lemma {:induction false} LookupFindsLast(tools: seq<ToolDef>, k: nat, name: string)
    requires LastNamed(tools, k, Some(name))
    ensures Lookup(tools, name) == Some(tools[k])
    decreases |tools|
  {
    if k < |tools| - 1 {
      assert tools[|tools| - 1].name != Some(name);
      LookupFindsLast(tools[..|tools| - 1], k, name);
    }
  }

  lemma {:induction false} LookupFindsNone(tools: seq<ToolDef>, name: string)
    requires NamesNone(tools, Some(name))
    ensures Lookup(tools, name) == None
    decreases |tools|
  {
    if tools != [] && name != "" {
      LookupFindsNone(tools[..|tools| - 1], name);
    }
  }

  lemma NamedToolIsRun(w: World, job: Job, time: nat, id: Option<string>, k: nat, args: Json, m: Meaning)
    requires k < |job.tools| && LastNamed(job.tools, k, job.tools[k].name) && Means(AnswerOf(w, job, k, time, args), m)
    ensures var name := job.tools[k].name.value;
            DispatchNamed(w, job, time, id, name, args)
            == if m.Waits? then Suspends(name, args, m.approvalId) else Said(ToldAs(id, m))
  {
    LookupFindsLast(job.tools, k, job.tools[k].name.value);
    hide Lookup;
  }

  lemma ReadIsParsed(w: World, raw: RawArgs, args: Json)
    requires ReadAs(w, raw, args)
    ensures ParseToolArgs(w, raw) == args
  {
  }

  /** The first call of a batch runs the last tool of its name, with the dispatcher that tool asks for. Its answer is
      told under the call's id, and the batch goes on; or it waits for approval, and the batch stops there. */
  lemma ToolIsRun(w: World, job: Job, messages: seq<Message>, calls: seq<Call>, k: nat, args: Json, m: Meaning)
    requires calls != [] && LastNamed(job.tools, k, calls[0].name) && ReadAs(w, calls[0].arguments, args)
    requires Means(AnswerOf(w, job, k, |messages|, args), m)
    ensures var call, r := calls[0], DispatchBatch(w, job, messages, calls);
            if m.Waits? then r == Stopped(messages, call, call.name.value, args, m.approvalId, calls[1..])
            else r == DispatchBatch(w, job, messages + [ToldAs(call.id, m)], calls[1..])
  {
    NamedToolIsRun(w, job, |messages|, calls[0].id, k, args, m);
    ReadIsParsed(w, calls[0].arguments, args);
    hide DispatchNamed, ParseToolArgs, Means, ReadAs, ToldAs, AnswerOf;
  }

  /** A call that names no tool is answered with an error. */
  lemma UnknownToolIsSaid(w: World, job: Job, messages: seq<Message>, calls: seq<Call>)
    requires calls != [] && NamesNone(job.tools, calls[0].name)
    ensures var said := ToolMessage(calls[0].id, "Unknown tool: " + calls[0].name.GetOr(""), true);
            DispatchBatch(w, job, messages, calls) == DispatchBatch(w, job, messages + [said], calls[1..])
  {
    LookupFindsNone(job.tools, calls[0].name.GetOr(""));
  }

  // ---- What the provider is asked

  /** The request holds the transcript, every tool without its executor, and a token limit only if it is positive. */
  ghost predicate AsksAbout(request: Request, job: Job, messages: seq<Message>) {
    && request.config == job.config && request.messages == messages
    && |request.tools| == |job.tools|
    && (forall i :: 0 <= i < |job.tools| ==>
          request.tools[i].name == job.tools[i].name && request.tools[i].definition == job.tools[i].definition)
    && (job.maxTokens.Some? && job.maxTokens.value > 0 ==> request.maxTokens == job.maxTokens)
    && (job.maxTokens.None? || job.maxTokens.value <= 0 ==> request.maxTokens == None)
  }

  /** What a round makes of the reply. */
  ghost predicate MakesOf(w: World, job: Job, messages: seq<Message>, reply: Reply, r: RoundResult) {
    match reply
    case Threw(cause) => r == Over(Run(ProviderError(Some(cause)), messages, ZERO, false, 1))
    case NoMessage(usage) => r == Over(Run(ProviderError(None), messages, UsageOf(usage), usage.Some?, 1))
    case FunctionCalled(usage, text, name, arguments) =>
      var heard := messages + [FunctionCall(text, name, arguments)];
      r == Over(Run(Completed(text.GetOr("")), heard, UsageOf(usage), usage.Some?, 1))
    case Answered(usage, text, calls) =>
      var heard := messages + [Assistant(text, calls)];
      if calls == [] then r == Over(Run(Completed(text.GetOr("")), heard, UsageOf(usage), usage.Some?, 1))
      else
        var b := DispatchBatch(w, job, heard, calls);
        if b.Dispatched? then r == GoesOn(usage, b.messages)
        else r == Over(Run(Suspended(b.call, b.name, b.args, b.approvalId, b.abandoned), b.messages, UsageOf(usage),
                           usage.Some?, 1))
  }

  /** A round asks the provider just that, and its reply decides the round. */
  lemma AsksThat(w: World, job: Job, messages: seq<Message>, request: Request)
    requires AsksAbout(request, job, messages)
    ensures MakesOf(w, job, messages, w.provider(request), OneRound(w, job, messages))
  {
    RequestIsThat(job, messages, request);
    hide DispatchBatch, RequestFor;
  }

  lemma RequestIsThat(job: Job, messages: seq<Message>, request: Request)
    requires AsksAbout(request, job, messages)
    ensures request == RequestFor(job, messages)
  {
    assert request.tools == StripExecutor(job.tools);
  }

  /** A round whose reply is a single call of a tool. */
  lemma OneCallRound(
      w: World, job: Job, messages: seq<Message>, usage: Option<Reported>, content: Option<string>, call: Call, k: nat,
      args: Json, m: Meaning, request: Request)
    requires AsksAbout(request, job, messages) && w.provider(request) == Answered(usage, content, [call])
    requires LastNamed(job.tools, k, call.name) && ReadAs(w, call.arguments, args)
    requires Means(AnswerOf(w, job, k, |messages| + 1, args), m)
    ensures var heard, r := messages + [Assistant(content, [call])], OneRound(w, job, messages);
            if m.Waits? then
              && r.Over? && r.run.outcome == Suspended(call, call.name.value, args, m.approvalId, [])
              && r.run.messages == heard && r.run.rounds == 1
            else r == GoesOn(usage, heard + [ToldAs(call.id, m)])
  {
    var heard := messages + [Assistant(content, [call])];
    ToolIsRun(w, job, heard, [call], k, args, m);
    assert [call][1..] == [];
    RequestIsThat(job, messages, request);
    hide RequestFor;
  }

  // ---- What is counted

  /** A report adds its own counts; where it gives no positive total, the two counts stand in for it. */
  lemma ReportIsCounted(before: Usage, report: Reported)
    ensures var after := Accumulate(before, report);
            && after.prompt - before.prompt == report.prompt
            && after.completion - before.completion == report.completion
            && (report.total > 0 ==> after.total - before.total == report.total)
            && (report.total <= 0 ==> after.total - before.total == report.prompt + report.completion)
  {
  }

  /** A run that a round does not end goes on as the rest of it does, one round more and with this report counted. */
  lemma RoundThenRest(
      w: World, job: Job, messages: seq<Message>, left: nat, usage: Option<Reported>, said: seq<Message>)
    requires left > 0 && OneRound(w, job, messages) == GoesOn(usage, said)
    ensures var whole, rest := Rounds(w, job, messages, left), Rounds(w, job, said, left - 1);
            && whole.outcome == rest.outcome && whole.messages == rest.messages && whole.rounds == rest.rounds + 1
            && (usage.None? ==> whole.usage == rest.usage && whole.observed == rest.observed)
            && (usage.Some? ==>
                  && whole.observed
                  && whole.usage.prompt == rest.usage.prompt + usage.value.prompt
                  && whole.usage.completion == rest.usage.completion + usage.value.completion
                  && (usage.value.total > 0 ==> whole.usage.total == rest.usage.total + usage.value.total))
  {
    hide OneRound;
  }

  /** A run ends with the round that ends it, or when no round is left. */
  lemma RunEnds(w: World, job: Job, messages: seq<Message>, left: nat)
    ensures left == 0 ==> Rounds(w, job, messages, left) == Run(OutOfRounds, messages, Usage(0, 0, 0), false, 0)
    ensures left > 0 && OneRound(w, job, messages).Over? ==>
              Rounds(w, job, messages, left) == OneRound(w, job, messages).run
  {
    hide OneRound;
  }

  /** The report of a reply, if it has one, gives no total or the sum of its counts. */
  predicate Sums(reply: Reply) {
    match reply
    case Threw(_) => true
    case NoMessage(usage) => usage.Some? ==> SumsUp(usage.value)
    case FunctionCalled(usage, _, _, _) => usage.Some? ==> SumsUp(usage.value)
    case Answered(usage, _, _) => usage.Some? ==> SumsUp(usage.value)
  }

  predicate SumsUp(report: Reported) {
    report.total <= 0 || report.total == report.prompt + report.completion
  }

  /** If each report sums up, so does the usage of the run. */
  lemma {:induction false} UsageSumsUp(w: World, job: Job, messages: seq<Message>, left: nat)
    requires forall request :: Sums(w.provider(request))
    ensures var usage := Rounds(w, job, messages, left).usage; usage.total == usage.prompt + usage.completion
    decreases left
  {
    if left > 0 {
      assert Sums(w.provider(RequestFor(job, messages)));
      match OneRound(w, job, messages)
      case Over(_) => hide DispatchBatch;
      case GoesOn(_, said) =>
        UsageSumsUp(w, job, said, left - 1);
        hide DispatchBatch;
    }
  }
}
