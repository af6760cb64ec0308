/** What the two suspending handlers answer and store, in every case. */
module HandlerEffects {
  import opened Wrappers
  import opened ToolLoop
  import opened Suspensions

  /** The answer to a run that was neither refused nor failed to be stored: its status and text, its transcript, its
      usage if any was reported, and the suspension's ids if it is pending. */
  ghost predicate Reports(a: Answer, run: Run, cap: nat, newId: string) {
    match run.outcome
    case ProviderError(cause) => a == Rejected(ProviderFailed(cause))
    case Completed(text) =>
      a.Replied? && Carries(a.response, run) && a.response.status == IsCompleted && a.response.text == Spoken(text)
      && a.response.suspensionId == None && a.response.toolCallId == None
    case OutOfRounds =>
      a.Replied? && Carries(a.response, run) && a.response.status == IsFailed && a.response.text == ExceededRounds(cap)
      && a.response.suspensionId == None && a.response.toolCallId == None
    case Suspended(call, _, _, _, _) =>
      a.Replied? && Carries(a.response, run) && a.response.status == IsApprovalPending && a.response.text == Spoken("")
      && a.response.suspensionId == Some(newId) && a.response.toolCallId == call.id
  }

  ghost predicate Carries(r: Response, run: Run) {
    r.messages == run.messages && (run.observed ==> r.usage == Some(run.usage)) && (!run.observed ==> r.usage == None)
  }

  lemma ResponsesReport(run: Run, cap: nat, newId: string)
    ensures run.outcome.ProviderError? ==> Reports(Rejected(ProviderFailed(run.outcome.cause)), run, cap, newId)
    ensures run.outcome.Completed? || run.outcome.OutOfRounds? ==>
            Reports(Replied(FinalResponse(run, cap)), run, cap, newId)
    ensures run.outcome.Suspended? ==> Reports(Replied(PendingResponse(run, newId)), run, cap, newId)
  {
  }

  /** A suspended run can be stored under `newId`. */
  predicate Storable(rows: Rows, run: Run, agentId: string, newId: string)
    requires run.outcome.Suspended?
  {
    && newId != "" && agentId != "" && newId !in rows
    && run.outcome.call.id.Some? && run.outcome.call.id != Some("") && run.outcome.name != ""
  }

  /** Column by column, the row that a suspended run leaves: pending, with what the resume will need. */
  ghost predicate RowOf(row: Row, run: Run, cap: nat, agentId: string, ctx: Context, maxTokens: Option<int>,
                        config: Option<Config>)
    requires run.outcome.Suspended?
  {
    && row.agentId == agentId && row.status == Pending && row.final == None
    && Some(row.toolCallId) == run.outcome.call.id && row.toolName == run.outcome.name && row.args == run.outcome.args
    && row.approvalId == run.outcome.approvalId && row.messages == run.messages && row.remaining == cap - run.rounds
    && row.ctx == ctx && row.maxTokens == maxTokens && row.config == config
  }

  lemma InsertEffect(
      rows: Rows, id: string, agentId: string, run: Run, cap: nat, ctx: Context, maxTokens: Option<int>,
      config: Option<Config>)
    requires run.outcome.Suspended? && run.rounds <= cap
    ensures var after := Insert(rows, id, agentId, run, cap, ctx, maxTokens, config);
            && (after.Some? <==> Storable(rows, run, agentId, id))
            && (after.Some? ==>
                  && id in after.value && after.value == rows[id := after.value[id]]
                  && RowOf(after.value[id], run, cap, agentId, ctx, maxTokens, config))
  {
  }

  /** The run of a request: at most 50 rounds, 25 without a wish, and the token limit of the request before that of the
      configuration. */
  function RequestedRun(d: Daemon, p: StartParams, config: Config): Run {
    var wanted := if p.maxToolRounds.Some? then p.maxToolRounds.value else 25;
    Rounds(d.world,
           Job(config, p.tools, p.ctx, if p.maxTokens.Some? then p.maxTokens else config.maxTokens), p.messages,
           if wanted > 50 then 50 else wanted)
  }

  /** What a stored or refused run comes to. */
  ghost predicate Stores(
      rows: Rows, e: Effect, run: Run, cap: nat, agentId: string, ctx: Context, maxTokens: Option<int>,
      config: Option<Config>, newId: string)
  {
    if !run.outcome.Suspended? then e.rows == rows && Reports(e.answer, run, cap, newId)
    else if !Storable(rows, run, agentId, newId) then e.rows == rows && e.answer == Rejected(PersistFailed)
    else
      && Reports(e.answer, run, cap, newId) && newId in e.rows && e.rows == rows[newId := e.rows[newId]]
      && RowOf(e.rows[newId], run, cap, agentId, ctx, maxTokens, config)
  }

  /** `brain.toolLoop`, in every case. */
  lemma StartIs(d: Daemon, rows: Rows, p: StartParams, newId: string)
    ensures var e := StartEffect(d, rows, p, newId);
            var config := d.resolve(p.configOverride);
            if p.agentId != d.agentId then e == Effect(rows, Rejected(AgentMismatch), 0)
            else if config.None? then e == Effect(rows, Rejected(ConfigUnavailable), 0)
            else
              var run := RequestedRun(d, p, config.value);
              var wanted := if p.maxToolRounds.Some? then p.maxToolRounds.value else 25;
              e.rounds == run.rounds
              && Stores(rows, e, run, if wanted > 50 then 50 else wanted, d.agentId, p.ctx,
                        if p.maxTokens.Some? then p.maxTokens else config.value.maxTokens, p.configOverride, newId)
  {
    hide Stores, RequestedRun;
    if p.agentId == d.agentId && d.resolve(p.configOverride).Some? {
      StartDrives(d, rows, p, newId, d.resolve(p.configOverride).value);
      hide StartEffect;
    }
  }

  lemma StartDrives(d: Daemon, rows: Rows, p: StartParams, newId: string, config: Config)
    requires p.agentId == d.agentId && d.resolve(p.configOverride) == Some(config)
    ensures var e, run := StartEffect(d, rows, p, newId), RequestedRun(d, p, config);
            var wanted := if p.maxToolRounds.Some? then p.maxToolRounds.value else 25;
            e.rounds == run.rounds
            && Stores(rows, e, run, if wanted > 50 then 50 else wanted, d.agentId, p.ctx,
                      if p.maxTokens.Some? then p.maxTokens else config.maxTokens, p.configOverride, newId)
  {
    var job := StartJob(d, p, config);
    RunWithinCap(d, job, p.messages, Cap(p.maxToolRounds));
    var run := Rounds(d.world, job, p.messages, Cap(p.maxToolRounds));
    assert run == RequestedRun(d, p, config);
    ResponsesReport(run, Cap(p.maxToolRounds), newId);
    hide Rounds, RequestedRun, RowOf, Storable, Insert, Reports, FinalResponse, PendingResponse;
    if run.outcome.Suspended? {
      InsertEffect(rows, newId, d.agentId, run, Cap(p.maxToolRounds), p.ctx, job.maxTokens, p.configOverride);
    }
  }

  /** The run of a resume: the stored transcript with the result under the stored call's id, the stored context and
      token limit, and the rounds that are left. */
  function ResumedRun(d: Daemon, row: Row, p: ResumeParams, config: Config): Run {
    var result := ToolMessage(Some(row.toolCallId), if p.content.Some? then p.content.value else "", p.isToolError);
    Rounds(d.world, Job(config, p.tools, row.ctx, row.maxTokens), row.messages + [result], row.remaining)
  }

  /** `brain.toolLoop.resume` on a request that it refuses, or answers from the row: first the request itself, then its
      agent, the row, the row's agent, and the row's status. None of these changes a row or runs a round. */
  lemma ResumeRefuses(d: Daemon, rows: Rows, p: ResumeParams, newId: string)
    ensures var a, id := ResumeEffect(d, rows, p, newId).answer, p.suspensionId;
            if id == "" || p.approvalId == "" || (p.content.None? && !p.isToolError) then a == Rejected(InvalidRequest)
            else if p.agentId != d.agentId then a == Rejected(AgentMismatch)
            else if id !in rows then a == Rejected(NotFound)
            else if rows[id].agentId != p.agentId then a == Rejected(RowAgentMismatch)
            else if rows[id].status == Cancelled then a == Rejected(InvalidState(Cancelled))
            else if rows[id].status == Expired then a == Rejected(InvalidState(Expired))
            else rows[id].status == Resumed ==>
                   if rows[id].approvalId == Some(p.approvalId) && rows[id].final.Some?
                   then a == Replied(rows[id].final.value) else a == Rejected(Conflict)
    ensures !Drives(d, rows, p) ==>
              ResumeEffect(d, rows, p, newId).rows == rows && ResumeEffect(d, rows, p, newId).rounds == 0
  {
    hide DriveEffect;
  }

  /** The request gets as far as its row, and that is pending. */
  predicate Drives(d: Daemon, rows: Rows, p: ResumeParams) {
    && p.suspensionId != "" && p.approvalId != "" && (p.content.Some? || p.isToolError) && p.agentId == d.agentId
    && p.suspensionId in rows && rows[p.suspensionId].agentId == p.agentId && rows[p.suspensionId].status == Pending
  }

  /** The row of a committed resume: closed with its approval id and the answer, all else as it was. */
  ghost predicate Closes(row: Row, after: Row, p: ResumeParams, a: Answer) {
    a.Replied? && after == row.(status := Resumed, approvalId := Some(p.approvalId), final := Some(a.response))
  }

  /** `brain.toolLoop.resume` on a pending row, in every case: the request's configuration comes before
      the stored one. */
  lemma ResumeDrives(d: Daemon, rows: Rows, p: ResumeParams, newId: string)
    requires Drives(d, rows, p)
    ensures var e, row := ResumeEffect(d, rows, p, newId), rows[p.suspensionId];
            var config := d.resolve(if p.configOverride.Some? then p.configOverride else row.config);
            if config.None? then e == Effect(rows, Rejected(ConfigUnavailable), 0)
            else
              var run := ResumedRun(d, row, p, config.value);
              && e.rounds == run.rounds
              && (if run.outcome.ProviderError? then e.rows == rows && Reports(e.answer, run, row.remaining, newId)
                  else if run.outcome.Suspended? then
                    if !Storable(rows, run, d.agentId, newId) then e.rows == rows && e.answer == Rejected(PersistFailed)
                    else
                      && Reports(e.answer, run, row.remaining, newId) && newId in e.rows && p.suspensionId in e.rows
                      && e.rows == rows[newId := e.rows[newId]][p.suspensionId := e.rows[p.suspensionId]]
                      && RowOf(e.rows[newId], run, row.remaining, d.agentId, row.ctx, row.maxTokens, row.config)
                      && Closes(row, e.rows[p.suspensionId], p, e.answer)
                  else
                    && Reports(e.answer, run, row.remaining, newId) && p.suspensionId in e.rows
                    && e.rows == rows[p.suspensionId := e.rows[p.suspensionId]]
                    && Closes(row, e.rows[p.suspensionId], p, e.answer))
  {
    var row := rows[p.suspensionId];
    if d.resolve(ResumeOverride(row, p)).Some? {
      var config := d.resolve(ResumeOverride(row, p)).value;
      RunWithinCap(d, Job(config, p.tools, row.ctx, row.maxTokens), ResumeTranscript(row, p), row.remaining);
      var run := ResumedRun(d, row, p, config);
      ResponsesReport(run, row.remaining, newId);
      hide Rounds, RowOf, Storable, Insert, Reports, FinalResponse, PendingResponse;
      if run.outcome.Suspended? {
        InsertEffect(rows, newId, d.agentId, run, row.remaining, row.ctx, row.maxTokens, row.config);
      }
    }
  }
}
