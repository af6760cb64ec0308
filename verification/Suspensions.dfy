/** The durable suspensions store and the two handlers that write to it: `brain.toolLoop` and
    `brain.toolLoop.resume`. */
module Suspensions {
  import opened Wrappers
  import opened ToolLoop
  import Transparency

  const DEFAULT_MAX_TOOL_ROUNDS: nat := 25
  const HARD_CAP_MAX_TOOL_ROUNDS: nat := 50

  // ---- Rows and replies

  datatype RowStatus = Pending | Resumed | Cancelled | Expired

  datatype ReplyText = Spoken(text: string) | ExceededRounds(cap: nat)
  datatype ReplyStatus = IsCompleted | IsFailed | IsApprovalPending

  /** The response envelope of both handlers. */
  datatype Response = Response(
    text: ReplyText, status: ReplyStatus, messages: seq<Message>, usage: Option<Usage>,
    suspensionId: Option<string>, toolCallId: Option<string>)

  datatype Row = Row(
    agentId: string, status: RowStatus, toolCallId: string, toolName: string, args: Json, ctx: Context,
    messages: seq<Message>, maxTokens: Option<int>, remaining: nat, approvalId: Option<string>,
    config: Option<Config>, final: Option<Response>)

  type Rows = map<string, Row>

  datatype Code =
    | InvalidRequest | AgentMismatch | ConfigUnavailable | ProviderFailed(cause: Option<string>)
    | PersistFailed | NotFound | RowAgentMismatch | InvalidState(status: RowStatus) | Conflict

  datatype Answer = Replied(response: Response) | Rejected(code: Code)

  // ---- Requests

  datatype StartParams = StartParams(
    agentId: string, messages: seq<Message>, tools: seq<ToolDef>, ctx: Context, maxTokens: Option<int>,
    maxToolRounds: Option<nat>, configOverride: Option<Config>)

  datatype ResumeParams = ResumeParams(
    agentId: string, suspensionId: string, approvalId: string, content: Option<string>, isToolError: bool,
    tools: seq<ToolDef>, configOverride: Option<Config>)

  /** The agent a handler is bound to, and what it can call. */
  datatype Daemon = Daemon(agentId: string, world: World, resolve: Option<Config> -> Option<Config>)

  function Cap(maxToolRounds: Option<nat>): nat {
    var requested := maxToolRounds.GetOr(DEFAULT_MAX_TOOL_ROUNDS);
    if requested < HARD_CAP_MAX_TOOL_ROUNDS then requested else HARD_CAP_MAX_TOOL_ROUNDS
  }

  function UsageField(run: Run): Option<Usage> {
    if run.observed then Some(run.usage) else None
  }

  /** The reply to a run that did not suspend. */
  function FinalResponse(run: Run, cap: nat): Response
    requires run.outcome.Completed? || run.outcome.OutOfRounds?
  {
    if run.outcome.Completed?
    then Response(Spoken(run.outcome.text), IsCompleted, run.messages, UsageField(run), None, None)
    else Response(ExceededRounds(cap), IsFailed, run.messages, UsageField(run), None, None)
  }

  function PendingResponse(run: Run, suspensionId: string): Response
    requires run.outcome.Suspended?
  {
    Response(Spoken(""), IsApprovalPending, run.messages, UsageField(run), Some(suspensionId), run.outcome.call.id)
  }

  // ---- The store

  /** `insertPending`: refuses empty fields and, as the primary key does, a taken id. */
  function Insert(
      rows: Rows, id: string, agentId: string, run: Run, cap: nat, ctx: Context, maxTokens: Option<int>,
      config: Option<Config>): Option<Rows>
    requires run.outcome.Suspended? && run.rounds <= cap
  {
    var callId := run.outcome.call.id.GetOr("");
    if id == "" || agentId == "" || callId == "" || run.outcome.name == "" || id in rows then None
    else Some(rows[id := Row(agentId, Pending, callId, run.outcome.name, run.outcome.args, ctx, run.messages,
                             maxTokens, cap - run.rounds, run.outcome.approvalId, config, None)])
  }

  function SetStatus(rows: Rows, id: string, status: RowStatus): Rows {
    if id in rows then rows[id := rows[id].(status := status)] else rows
  }

  class SuspensionsStore {
    var rows: Rows

    constructor ()
      ensures rows == map[]
    {
      rows := map[];
    }

    method InsertPending(
        id: string, agentId: string, run: Run, cap: nat, ctx: Context, maxTokens: Option<int>, config: Option<Config>)
        returns (inserted: bool)
      requires run.outcome.Suspended? && run.rounds <= cap
      modifies this
      ensures var after := Insert(old(rows), id, agentId, run, cap, ctx, maxTokens, config);
              inserted == after.Some? && rows == after.GetOr(old(rows))
      ensures inserted <==>
                && id != "" && agentId != "" && run.outcome.call.id.GetOr("") != "" && run.outcome.name != ""
                && id !in old(rows)
      ensures inserted ==>
                && id in rows && rows == old(rows)[id := rows[id]]
                && rows[id].status == Pending && rows[id].remaining == cap - run.rounds
                && rows[id].messages == run.messages && rows[id].agentId == agentId
                && Some(rows[id].toolCallId) == run.outcome.call.id && rows[id].final == None
    {
      var toolCallId := run.outcome.call.id.GetOr("");
      if id == "" || agentId == "" || toolCallId == "" || run.outcome.name == "" {
        return false;
      }
      if id in rows {
        return false;
      }
      var row := Row(agentId, Pending, toolCallId, run.outcome.name, run.outcome.args, ctx, run.messages, maxTokens,
                     cap - run.rounds, run.outcome.approvalId, config, None);
      rows := rows[id := row];
      inserted := true;
    }

    method GetById(id: string) returns (row: Option<Row>)
      ensures row == if id in rows && id != "" then Some(rows[id]) else None
    {
      row := if id in rows && id != "" then Some(rows[id]) else None;
    }

    /** One transactional update of status, approval id and cached response. */
    method MarkResumed(id: string, approvalId: string, final: Response)
      modifies this
      ensures id in old(rows) ==>
                rows == old(rows)[id := old(rows)[id].(
                  status := Resumed, approvalId := Some(approvalId), final := Some(final))]
      ensures id !in old(rows) ==> rows == old(rows)
    {
      if id in rows {
        rows := rows[id := rows[id].(status := Resumed, approvalId := Some(approvalId), final := Some(final))];
      }
    }

    method MarkCancelled(id: string)
      modifies this
      ensures rows.Keys == old(rows).Keys
      ensures id in rows ==> rows[id] == old(rows)[id].(status := Cancelled)
      ensures forall other :: other in rows && other != id ==> rows[other] == old(rows)[other]
    {
      if id in rows {
        rows := rows[id := rows[id].(status := Cancelled)];
      }
    }

    method MarkExpired(id: string)
      modifies this
      ensures rows.Keys == old(rows).Keys
      ensures id in rows ==> rows[id] == old(rows)[id].(status := Expired)
      ensures forall other :: other in rows && other != id ==> rows[other] == old(rows)[other]
    {
      if id in rows {
        rows := rows[id := rows[id].(status := Expired)];
      }
    }
  }

  // ---- What the handlers do to the rows

  /** The rows afterwards, the answer, and the provider rounds that were driven. */
  datatype Effect = Effect(rows: Rows, answer: Answer, rounds: nat)

  function StartJob(d: Daemon, p: StartParams, config: Config): Job {
    Job(config, p.tools, p.ctx, if p.maxTokens.Some? then p.maxTokens else config.maxTokens)
  }

  lemma RunWithinCap(d: Daemon, job: Job, messages: seq<Message>, cap: nat)
    ensures Rounds(d.world, job, messages, cap).rounds <= cap
    ensures Rounds(d.world, job, messages, cap).outcome.Suspended? ==> Rounds(d.world, job, messages, cap).rounds > 0
  {
    Transparency.RunExtends(d.world, job, messages, cap);
  }

  function StartEffect(d: Daemon, rows: Rows, p: StartParams, newId: string): Effect {
    if p.agentId != d.agentId then Effect(rows, Rejected(AgentMismatch), 0) else
      match d.resolve(p.configOverride)
      case None => Effect(rows, Rejected(ConfigUnavailable), 0)
      case Some(config) =>
        var job := StartJob(d, p, config);
        var cap := Cap(p.maxToolRounds);
        var run := Rounds(d.world, job, p.messages, cap);
        match run.outcome
        case ProviderError(cause) => Effect(rows, Rejected(ProviderFailed(cause)), run.rounds)
        case Suspended(_, _, _, _, _) =>
          RunWithinCap(d, job, p.messages, cap);
          (match Insert(rows, newId, d.agentId, run, cap, p.ctx, job.maxTokens, p.configOverride)
           case None => Effect(rows, Rejected(PersistFailed), run.rounds)
           case Some(after) => Effect(after, Replied(PendingResponse(run, newId)), run.rounds))
        case _ => Effect(rows, Replied(FinalResponse(run, cap)), run.rounds)
  }

  /** The transcript a resume starts from. */
  function ResumeTranscript(row: Row, p: ResumeParams): seq<Message> {
    row.messages + [ToolMessage(Some(row.toolCallId), p.content.GetOr(""), p.isToolError)]
  }

  function ResumeOverride(row: Row, p: ResumeParams): Option<Config> {
    if p.configOverride.Some? then p.configOverride else row.config
  }

  function Close(rows: Rows, p: ResumeParams, response: Response): Rows
    requires p.suspensionId in rows
  {
    rows[p.suspensionId := rows[p.suspensionId].(
      status := Resumed, approvalId := Some(p.approvalId), final := Some(response))]
  }

  /** Driving the rounds that a pending row has left. */
  function DriveEffect(d: Daemon, rows: Rows, p: ResumeParams, newId: string): Effect
    requires p.suspensionId in rows
  {
    var row := rows[p.suspensionId];
    match d.resolve(ResumeOverride(row, p))
    case None => Effect(rows, Rejected(ConfigUnavailable), 0)
    case Some(config) =>
      var job := Job(config, p.tools, row.ctx, row.maxTokens);
      var messages := ResumeTranscript(row, p);
      var run := Rounds(d.world, job, messages, row.remaining);
      match run.outcome
      case ProviderError(cause) => Effect(rows, Rejected(ProviderFailed(cause)), run.rounds)
      case Suspended(_, _, _, _, _) =>
        RunWithinCap(d, job, messages, row.remaining);
        (match Insert(rows, newId, d.agentId, run, row.remaining, row.ctx, row.maxTokens, row.config)
         case None => Effect(rows, Rejected(PersistFailed), run.rounds)
         case Some(after) =>
           var response := PendingResponse(run, newId);
           Effect(Close(after, p, response), Replied(response), run.rounds))
      case _ =>
        var response := FinalResponse(run, row.remaining);
        Effect(Close(rows, p, response), Replied(response), run.rounds)
  }

  /** The request contract of `brain.toolLoop.resume`. */
  predicate ValidResume(p: ResumeParams) {
    p.suspensionId != "" && p.approvalId != "" && (p.content.Some? || p.isToolError)
  }

  function ResumeEffect(d: Daemon, rows: Rows, p: ResumeParams, newId: string): Effect {
    if !ValidResume(p) then Effect(rows, Rejected(InvalidRequest), 0)
    else if p.agentId != d.agentId then Effect(rows, Rejected(AgentMismatch), 0)
    else if p.suspensionId !in rows then Effect(rows, Rejected(NotFound), 0)
    else
      var row := rows[p.suspensionId];
      if row.agentId != p.agentId then Effect(rows, Rejected(RowAgentMismatch), 0)
      else match row.status
        case Cancelled => Effect(rows, Rejected(InvalidState(row.status)), 0)
        case Expired => Effect(rows, Rejected(InvalidState(row.status)), 0)
        case Resumed =>
          if row.approvalId == Some(p.approvalId) && row.final.Some? then Effect(rows, Replied(row.final.value), 0)
          else Effect(rows, Rejected(Conflict), 0)
        case Pending => DriveEffect(d, rows, p, newId)
  }

  // ---- The handlers

  class Handlers {
    const store: SuspensionsStore

    constructor (store: SuspensionsStore)
      ensures this.store == store
    {
      this.store := store;
    }

    /** `brain.toolLoop`; `newId` is the random id it would draw. */
    method ToolLoop(d: Daemon, p: StartParams, newId: string) returns (a: Answer)
      modifies store
      ensures var e := StartEffect(d, old(store.rows), p, newId); a == e.answer && store.rows == e.rows
    {
      if p.agentId != d.agentId {
        return Rejected(AgentMismatch);
      }
      var resolved := d.resolve(p.configOverride);
      if resolved.None? {
        return Rejected(ConfigUnavailable);
      }
      var job := StartJob(d, p, resolved.value);
      var effectiveMaxToolRounds := Cap(p.maxToolRounds);
      var outcome := RunToolLoopRounds(d.world, job, p.messages, effectiveMaxToolRounds);
      if outcome.outcome.ProviderError? {
        return Rejected(ProviderFailed(outcome.outcome.cause));
      }
      if outcome.outcome.Suspended? {
        RunWithinCap(d, job, p.messages, effectiveMaxToolRounds);
        var inserted := store.InsertPending(
          newId, d.agentId, outcome, effectiveMaxToolRounds, p.ctx, job.maxTokens, p.configOverride);
        if !inserted {
          return Rejected(PersistFailed);
        }
        return Replied(PendingResponse(outcome, newId));
      }
      a := Replied(FinalResponse(outcome, effectiveMaxToolRounds));
    }

    /** `brain.toolLoop.resume`. */
    method Resume(d: Daemon, p: ResumeParams, newId: string) returns (a: Answer)
      modifies store
      ensures var e := ResumeEffect(d, old(store.rows), p, newId); a == e.answer && store.rows == e.rows
    {
      if !ValidResume(p) {
        return Rejected(InvalidRequest);
      }
      if p.agentId != d.agentId {
        return Rejected(AgentMismatch);
      }
      var found := store.GetById(p.suspensionId);
      if found.None? {
        return Rejected(NotFound);
      }
      var row := found.value;
      if row.agentId != p.agentId {
        return Rejected(RowAgentMismatch);
      }
      if row.status == Cancelled || row.status == Expired {
        return Rejected(InvalidState(row.status));
      }
      if row.status == Resumed {
        if row.approvalId == Some(p.approvalId) && row.final.Some? {
          return Replied(row.final.value);
        }
        return Rejected(Conflict);
      }
      var resolved := d.resolve(ResumeOverride(row, p));
      if resolved.None? {
        return Rejected(ConfigUnavailable);
      }
      var job := Job(resolved.value, p.tools, row.ctx, row.maxTokens);
      var workingMessages := ResumeTranscript(row, p);
      var outcome := RunToolLoopRounds(d.world, job, workingMessages, row.remaining);
      if outcome.outcome.ProviderError? {
        return Rejected(ProviderFailed(outcome.outcome.cause));
      }
      var finalEnvelope;
      if outcome.outcome.Suspended? {
        RunWithinCap(d, job, workingMessages, row.remaining);
        var inserted := store.InsertPending(
          newId, d.agentId, outcome, row.remaining, row.ctx, row.maxTokens, row.config);
        if !inserted {
          return Rejected(PersistFailed);
        }
        finalEnvelope := PendingResponse(outcome, newId);
      } else {
        finalEnvelope := FinalResponse(outcome, row.remaining);
      }
      store.MarkResumed(p.suspensionId, p.approvalId, finalEnvelope);
      a := Replied(finalEnvelope);
    }
  }

  // ---- Whole histories

  datatype Op =
    | Start(d: Daemon, start: StartParams, newId: string)
    | Resume(d: Daemon, resume: ResumeParams, newId: string)
    | Cancel(id: string)
    | Expire(id: string)

  function Apply(rows: Rows, op: Op): Effect {
    match op
    case Start(d, p, newId) => StartEffect(d, rows, p, newId)
    case Resume(d, p, newId) => ResumeEffect(d, rows, p, newId)
    case Cancel(id) => Effect(SetStatus(rows, id, Cancelled), Rejected(InvalidState(Cancelled)), 0)
    case Expire(id) => Effect(SetStatus(rows, id, Expired), Rejected(InvalidState(Expired)), 0)
  }

  function RunOps(rows: Rows, ops: seq<Op>): Rows
    decreases |ops|
  {
    if ops == [] then rows else RunOps(Apply(rows, ops[0]).rows, ops[1..])
  }

  /** The operation cancels or expires row `id`. */
  predicate Ends(op: Op, id: string) {
    (op.Cancel? || op.Expire?) && op.id == id
  }

  /** What one operation can do to an existing row. */
  lemma RowAfter(rows: Rows, op: Op, id: string)
    requires id in rows
    ensures id in Apply(rows, op).rows
    ensures var after := Apply(rows, op).rows[id];
            || after == rows[id]
            || (Ends(op, id) && (after.status == Cancelled || after.status == Expired))
            || (op.Resume? && op.resume.suspensionId == id && rows[id].status == Pending && after.status == Resumed)
  {
  }

  /** No operation returns a row to pending. */
  lemma {:induction false} NeverPendingAgain(rows: Rows, ops: seq<Op>, id: string)
    requires id in rows && rows[id].status != Pending
    ensures id in RunOps(rows, ops) && RunOps(rows, ops)[id].status != Pending
    decreases |ops|
  {
    if ops != [] {
      RowAfter(rows, ops[0], id);
      NeverPendingAgain(Apply(rows, ops[0]).rows, ops[1..], id);
    }
  }

  /** A resumed row stays as it is until it is cancelled or expires. */
  lemma {:induction false} ResumedStays(rows: Rows, ops: seq<Op>, id: string)
    requires id in rows && rows[id].status == Resumed
    requires forall k :: 0 <= k < |ops| ==> !Ends(ops[k], id)
    ensures id in RunOps(rows, ops) && RunOps(rows, ops)[id] == rows[id]
    decreases |ops|
  {
    if ops != [] {
      assert !Ends(ops[0], id);
      RowAfter(rows, ops[0], id);
      ResumedStays(Apply(rows, ops[0]).rows, ops[1..], id);
    }
  }

  predicate Ended(row: Row) {
    row.status == Cancelled || row.status == Expired
  }

  /** A cancelled or expired row never leaves those two statuses. */
  lemma {:induction false} EndedStays(rows: Rows, ops: seq<Op>, id: string)
    requires id in rows && Ended(rows[id])
    ensures id in RunOps(rows, ops) && Ended(RunOps(rows, ops)[id]) && RunOps(rows, ops)[id].agentId == rows[id].agentId
    decreases |ops|
  {
    hide Apply;
    if ops != [] {
      RowAfter(rows, ops[0], id);
      KeepsOwner(rows, ops[0], id);
      EndedStays(Apply(rows, ops[0]).rows, ops[1..], id);
    }
  }

  lemma KeepsOwner(rows: Rows, op: Op, id: string)
    requires id in rows
    ensures id in Apply(rows, op).rows && Apply(rows, op).rows[id].agentId == rows[id].agentId
  {
  }

  /** Once cancelled or expired, even after it was resumed, a row refuses every later resume, the
      winning one included. */
  lemma EndedRefusesForGood(rows: Rows, end: Op, id: string, ops: seq<Op>, d: Daemon, p: ResumeParams, newId: string)
    requires id in rows && Ends(end, id)
    requires ValidResume(p) && p.suspensionId == id && d.agentId == p.agentId == rows[id].agentId
    ensures var later := RunOps(Apply(rows, end).rows, ops);
            var r := ResumeEffect(d, later, p, newId);
            && r.rows == later && r.rounds == 0
            && (r.answer == Rejected(InvalidState(Cancelled)) || r.answer == Rejected(InvalidState(Expired)))
  {
    hide RunOps, DriveEffect;
    EndedStays(Apply(rows, end).rows, ops, id);
  }

  /** A committed resume closes its row and caches exactly the answer it gives. */
  lemma CommitCaches(d: Daemon, rows: Rows, p: ResumeParams, newId: string)
    requires p.suspensionId in rows && rows[p.suspensionId].status == Pending
    requires ResumeEffect(d, rows, p, newId).answer.Replied?
    ensures var e := ResumeEffect(d, rows, p, newId);
            && p.suspensionId in e.rows
            && e.rows[p.suspensionId].status == Resumed
            && e.rows[p.suspensionId].approvalId == Some(p.approvalId)
            && e.rows[p.suspensionId].final == Some(e.answer.response)
            && e.rows[p.suspensionId].agentId == d.agentId == p.agentId
  {
  }

  /** Idempotent resume: whatever happens in between, short of a cancel or expire, a repeat of the
      winning pair returns the identical answer and any other approval id conflicts; neither drives
      a round or changes a row. */
  lemma ReplayIsIdempotent(
      d: Daemon, rows: Rows, p: ResumeParams, newId: string, ops: seq<Op>,
      e: Daemon, again: ResumeParams, otherId: string)
    requires p.suspensionId in rows && rows[p.suspensionId].status == Pending
    requires ResumeEffect(d, rows, p, newId).answer.Replied?
    requires forall k :: 0 <= k < |ops| ==> !Ends(ops[k], p.suspensionId)
    requires ValidResume(again) && again.suspensionId == p.suspensionId
    requires again.agentId == p.agentId && e.agentId == d.agentId
    ensures var first := ResumeEffect(d, rows, p, newId);
            var later := RunOps(first.rows, ops);
            var r := ResumeEffect(e, later, again, otherId);
            && r.rows == later && r.rounds == 0
            && (again.approvalId == p.approvalId ==> r.answer == first.answer)
            && (again.approvalId != p.approvalId ==> r.answer == Rejected(Conflict))
  {
    CommitCaches(d, rows, p, newId);
    hide DriveEffect, RunOps;
    var first := ResumeEffect(d, rows, p, newId);
    ResumedStays(first.rows, ops, p.suspensionId);
  }

  /** A pending row accepts whatever approval id it is resumed with: its own is never compared. */
  lemma PendingAcceptsAnyApproval(d: Daemon, rows: Rows, p: ResumeParams, newId: string, approvalId: string)
    requires p.suspensionId in rows && rows[p.suspensionId].status == Pending
    requires ValidResume(p) && approvalId != ""
    ensures ResumeEffect(d, rows, p.(approvalId := approvalId), newId).answer == ResumeEffect(d, rows, p, newId).answer
    ensures ResumeEffect(d, rows, p.(approvalId := approvalId), newId).rounds == ResumeEffect(d, rows, p, newId).rounds
  {
  }

  /** The legs that a history commits for row `id`. */
  ghost function CommittedLegs(rows: Rows, ops: seq<Op>, id: string): nat
    decreases |ops|
  {
    if ops == [] then 0 else
      var after := Apply(rows, ops[0]).rows;
      (if id in rows && rows[id].status == Pending && id in after && after[id].status == Resumed then 1 else 0)
      + CommittedLegs(after, ops[1..], id)
  }

  lemma {:induction false} NoLegAfterClose(rows: Rows, ops: seq<Op>, id: string)
    requires id in rows && rows[id].status != Pending
    ensures CommittedLegs(rows, ops, id) == 0
    decreases |ops|
  {
    if ops != [] {
      RowAfter(rows, ops[0], id);
      NoLegAfterClose(Apply(rows, ops[0]).rows, ops[1..], id);
    }
  }

  /** Each row drives at most one committed leg, over every history. */
  lemma {:induction false} AtMostOneLeg(rows: Rows, ops: seq<Op>, id: string)
    ensures CommittedLegs(rows, ops, id) <= 1
    decreases |ops|
  {
    if ops != [] {
      var after := Apply(rows, ops[0]).rows;
      if id in rows && rows[id].status == Pending && id in after && after[id].status == Resumed {
        NoLegAfterClose(after, ops[1..], id);
      } else {
        AtMostOneLeg(after, ops[1..], id);
      }
    }
  }
}
