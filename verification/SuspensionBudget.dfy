/** The round budget along chains of suspensions, and transparency at the level of the handlers. */
module SuspensionBudget {
  import opened Wrappers
  import opened ToolLoop
  import opened Transparency
  import opened Suspensions

  /** Where a row's budget comes from: the cap of the first request of its chain, the provider
      rounds of all legs up to the row, and how many legs those are. A record of the history that
      the store itself does not keep. */
  datatype Origin = Origin(cap: nat, spent: nat, depth: nat)
  type Origins = map<string, Origin>

  ghost function Track(rows: Rows, origins: Origins, op: Op): Origins {
    var e := Apply(rows, op);
    match op
    case Start(_, p, newId) =>
      if newId in e.rows && newId !in rows then origins[newId := Origin(Cap(p.maxToolRounds), e.rounds, 1)] else origins
    case Resume(_, p, newId) =>
      if newId in e.rows && newId !in rows && p.suspensionId in origins
      then
        var o := origins[p.suspensionId];
        origins[newId := Origin(o.cap, o.spent + e.rounds, o.depth + 1)]
      else origins
    case _ => origins
  }

  /** Spent and remaining rounds add up to the cap, and every leg has spent at least one. */
  ghost predicate Balanced(row: Row, o: Origin) {
    o.spent + row.remaining == o.cap <= HARD_CAP_MAX_TOOL_ROUNDS && 1 <= o.depth <= o.spent
  }

  /** The row that row `id`'s cached reply points on to. */
  function Next(rows: Rows, id: string): Option<string> {
    if id in rows && rows[id].final.Some? then rows[id].final.value.suspensionId else None
  }

  ghost predicate Follows(o: Origin, next: Origin) {
    next.cap == o.cap && next.depth == o.depth + 1 && next.spent > o.spent
  }

  ghost predicate Tracked(rows: Rows, origins: Origins) {
    && (forall id :: id in rows ==> id in origins && Balanced(rows[id], origins[id]))
    && (forall id :: id in rows && Next(rows, id).Some? ==>
          Next(rows, id).value in rows && Next(rows, id).value in origins
            && Follows(origins[id], origins[Next(rows, id).value]))
  }

  /** The cap is the request, or the hard cap if that is less; without a request it is the default. */
  lemma CapIsHard(maxToolRounds: Option<nat>)
    ensures Cap(maxToolRounds) <= HARD_CAP_MAX_TOOL_ROUNDS
    ensures maxToolRounds.Some? ==>
            Cap(maxToolRounds) == maxToolRounds.value || Cap(maxToolRounds) == HARD_CAP_MAX_TOOL_ROUNDS
    ensures maxToolRounds.Some? ==> Cap(maxToolRounds) <= maxToolRounds.value
    ensures maxToolRounds.None? ==> Cap(maxToolRounds) == DEFAULT_MAX_TOOL_ROUNDS
  {
  }

  /** What a first leg does to the store: nothing, or one new row that carries what the leg left of the cap. */
  lemma StartFits(d: Daemon, rows: Rows, p: StartParams, newId: string)
    ensures var e := StartEffect(d, rows, p, newId);
            e.rows == rows
            || (&& newId !in rows && newId in e.rows && e.rows == rows[newId := e.rows[newId]]
                && e.rows[newId].final == None && e.rounds > 0
                && e.rounds + e.rows[newId].remaining == Cap(p.maxToolRounds))
  {
    var e := StartEffect(d, rows, p, newId);
    if e.rows != rows {
      RunWithinCap(d, StartJob(d, p, d.resolve(p.configOverride).value), p.messages, Cap(p.maxToolRounds));
    }
  }

  lemma StartKeepsTracked(d: Daemon, rows: Rows, origins: Origins, p: StartParams, newId: string)
    requires Tracked(rows, origins)
    ensures Tracked(StartEffect(d, rows, p, newId).rows, Track(rows, origins, Op.Start(d, p, newId)))
  {
    hide StartEffect, Cap;
    CapIsHard(p.maxToolRounds);
    StartFits(d, rows, p, newId);
  }

  /** What a driven leg does: its rounds fit what was left, and a chained row carries on from there. */
  lemma LegFits(d: Daemon, rows: Rows, p: ResumeParams, newId: string)
    requires p.suspensionId in rows
    ensures var e := DriveEffect(d, rows, p, newId);
            var id := p.suspensionId;
            && e.rounds <= rows[id].remaining
            && (e.answer.Rejected? ==> e.rows == rows)
            && (e.answer.Replied? ==>
                  && id in e.rows && e.rows[id] == rows[id].(
                       status := Resumed, approvalId := Some(p.approvalId), final := Some(e.answer.response)))
            && (e.answer.Replied? && e.answer.response.suspensionId.None? ==> e.rows == rows[id := e.rows[id]])
            && (e.answer.Replied? && e.answer.response.suspensionId.Some? ==>
                  && e.answer.response.suspensionId == Some(newId) && newId !in rows && e.rounds > 0
                  && newId in e.rows && e.rows == rows[newId := e.rows[newId]][id := e.rows[id]]
                  && e.rows[newId].final == None && e.rows[newId].status == Pending
                  && e.rows[newId].remaining == rows[id].remaining - e.rounds)
  {
    var row := rows[p.suspensionId];
    if d.resolve(ResumeOverride(row, p)).Some? {
      var job := Job(d.resolve(ResumeOverride(row, p)).value, p.tools, row.ctx, row.maxTokens);
      RunWithinCap(d, job, ResumeTranscript(row, p), row.remaining);
    }
  }

  lemma LegKeepsTracked(rows: Rows, origins: Origins, id: string, closed: Row, after: Rows)
    requires Tracked(rows, origins) && id in rows && after == rows[id := closed]
    requires closed.remaining == rows[id].remaining
    requires closed.final.Some? ==> closed.final.value.suspensionId.None?
    ensures Tracked(after, origins)
  {
  }

  lemma ChainKeepsTracked(
      rows: Rows, origins: Origins, id: string, closed: Row, newId: string, chained: Row, rounds: nat, after: Rows)
    requires Tracked(rows, origins) && id in rows && newId !in rows
    requires after == rows[newId := chained][id := closed]
    requires closed.remaining == rows[id].remaining && closed.final.Some?
    requires closed.final.value.suspensionId == Some(newId) && chained.final == None
    requires 0 < rounds <= rows[id].remaining && chained.remaining == rows[id].remaining - rounds
    ensures var o := origins[id];
            Tracked(after, origins[newId := Origin(o.cap, o.spent + rounds, o.depth + 1)])
  {
  }

  lemma ResumeKeepsTracked(d: Daemon, rows: Rows, origins: Origins, p: ResumeParams, newId: string)
    requires Tracked(rows, origins)
    ensures Tracked(ResumeEffect(d, rows, p, newId).rows, Track(rows, origins, Op.Resume(d, p, newId)))
  {
    hide DriveEffect, Tracked;
    var e := ResumeEffect(d, rows, p, newId);
    if p.suspensionId in rows && rows[p.suspensionId].status == Pending && e == DriveEffect(d, rows, p, newId) {
      var id := p.suspensionId;
      LegFits(d, rows, p, newId);
      if e.answer.Replied? {
        if e.answer.response.suspensionId.None? {
          LegKeepsTracked(rows, origins, id, e.rows[id], e.rows);
        } else {
          IsTracked(rows, origins, id);
          ChainKeepsTracked(rows, origins, id, e.rows[id], newId, e.rows[newId], e.rounds, e.rows);
        }
      }
    } else {
      assert e.rows == rows;
    }
  }

  lemma IsTracked(rows: Rows, origins: Origins, id: string)
    requires Tracked(rows, origins) && id in rows
    ensures id in origins && Balanced(rows[id], origins[id])
  {
  }

  lemma OpKeepsTracked(rows: Rows, origins: Origins, op: Op)
    requires Tracked(rows, origins)
    ensures Tracked(Apply(rows, op).rows, Track(rows, origins, op))
  {
    match op
    case Start(d, p, newId) => StartKeepsTracked(d, rows, origins, p, newId);
    case Resume(d, p, newId) => ResumeKeepsTracked(d, rows, origins, p, newId);
    case Cancel(id) => StatusKeepsTracked(rows, origins, id, Cancelled);
    case Expire(id) => StatusKeepsTracked(rows, origins, id, Expired);
  }

  lemma StatusKeepsTracked(rows: Rows, origins: Origins, id: string, status: RowStatus)
    requires Tracked(rows, origins)
    ensures Tracked(SetStatus(rows, id, status), origins)
  {
  }

  ghost function TrackAll(rows: Rows, origins: Origins, ops: seq<Op>): Origins
    decreases |ops|
  {
    if ops == [] then origins else TrackAll(Apply(rows, ops[0]).rows, Track(rows, origins, ops[0]), ops[1..])
  }

  /** Budget conservation over every history: for each row, the rounds its chain has spent and the
      rounds it has left add up to the first request's cap. */
  lemma {:induction false} BudgetIsConserved(rows: Rows, origins: Origins, ops: seq<Op>)
    requires Tracked(rows, origins)
    ensures Tracked(RunOps(rows, ops), TrackAll(rows, origins, ops))
    decreases |ops|
  {
    if ops != [] {
      OpKeepsTracked(rows, origins, ops[0]);
      BudgetIsConserved(Apply(rows, ops[0]).rows, Track(rows, origins, ops[0]), ops[1..]);
    }
  }

  /** However a resume ends, the provider rounds of its whole chain stay within the cap, and a
      chained suspension has strictly fewer rounds left. */
  lemma ChainStaysWithinCap(d: Daemon, rows: Rows, origins: Origins, p: ResumeParams, newId: string)
    requires Tracked(rows, origins) && p.suspensionId in rows
    ensures var e := ResumeEffect(d, rows, p, newId);
            && p.suspensionId in origins
            && origins[p.suspensionId].spent + e.rounds <= origins[p.suspensionId].cap <= HARD_CAP_MAX_TOOL_ROUNDS
            && (newId in e.rows && newId !in rows ==> e.rows[newId].remaining < rows[p.suspensionId].remaining)
  {
    LegFits(d, rows, p, newId);
    hide DriveEffect;
  }

  /** A path of cached links from row to row. */
  ghost predicate Chain(rows: Rows, ids: seq<string>) {
    && (forall i :: 0 <= i < |ids| ==> ids[i] in rows)
    && (forall i :: 0 <= i < |ids| - 1 ==> Next(rows, ids[i]) == Some(ids[i + 1]))
  }

  lemma {:induction false} ChainDepth(rows: Rows, origins: Origins, ids: seq<string>, k: nat)
    requires Tracked(rows, origins) && Chain(rows, ids) && k < |ids|
    ensures ids[0] in origins && ids[k] in origins
    ensures origins[ids[k]].depth == origins[ids[0]].depth + k && origins[ids[k]].cap == origins[ids[0]].cap
  {
    if k > 0 {
      ChainDepth(rows, origins, ids, k - 1);
      var i := k - 1;
      assert Next(rows, ids[i]) == Some(ids[i + 1]);
    }
  }

  /** Chains of suspensions are acyclic and no longer than the original cap. */
  lemma ChainsAreShort(rows: Rows, origins: Origins, ids: seq<string>)
    requires Tracked(rows, origins) && Chain(rows, ids) && ids != []
    ensures ids[0] in origins && |ids| <= origins[ids[0]].cap <= HARD_CAP_MAX_TOOL_ROUNDS
    ensures forall i, j :: 0 <= i < j < |ids| ==> ids[i] != ids[j]
  {
    ChainDepth(rows, origins, ids, |ids| - 1);
    IsTracked(rows, origins, ids[|ids| - 1]);
    IsTracked(rows, origins, ids[0]);
    forall i, j | 0 <= i < j < |ids|
      ensures ids[i] != ids[j]
    {
      ChainDepth(rows, origins, ids, i);
      ChainDepth(rows, origins, ids, j);
    }
  }

  // ---- Transparency through the store

  /** The answer tells how the run ended, with its transcript and the given usage. */
  ghost predicate Tells(a: Answer, run: Run, usage: Option<Usage>) {
    match run.outcome
    case Completed(text) => && a.Replied? && a.response.status == IsCompleted && a.response.text == Spoken(text)
                            && a.response.messages == run.messages && a.response.usage == usage
    case OutOfRounds => && a.Replied? && a.response.status == IsFailed
                        && a.response.messages == run.messages && a.response.usage == usage
    case ProviderError(cause) => a == Rejected(ProviderFailed(cause))
    case Suspended(call, _, _, _, _) =>
      a.Replied? ==> && a.response.status == IsApprovalPending && a.response.toolCallId == call.id
                     && a.response.messages == run.messages && a.response.usage == usage
  }

  lemma TellsTheSame(a: Answer, run: Run, same: Run, usage: Option<Usage>)
    requires Tells(a, run, usage) && run.outcome == same.outcome && run.messages == same.messages
    ensures Tells(a, same, usage)
  {
  }

  /** Driving a pending row tells how its run ended; a chained row holds the rounds left over. */
  lemma DriveTells(d: Daemon, rows: Rows, p: ResumeParams, newId: string, config: Config)
    requires p.suspensionId in rows && d.resolve(ResumeOverride(rows[p.suspensionId], p)) == Some(config)
    ensures var row := rows[p.suspensionId];
            var run := Rounds(d.world, Job(config, p.tools, row.ctx, row.maxTokens), ResumeTranscript(row, p),
                              row.remaining);
            var e := DriveEffect(d, rows, p, newId);
            && e.rounds == run.rounds && run.rounds <= row.remaining && Tells(e.answer, run, UsageField(run))
            && (run.outcome.Suspended? && e.answer.Replied? ==>
                  newId in e.rows && e.rows[newId].remaining == row.remaining - run.rounds)
  {
    var row := rows[p.suspensionId];
    RunWithinCap(d, Job(config, p.tools, row.ctx, row.maxTokens), ResumeTranscript(row, p), row.remaining);
    hide Rounds;
  }

  /** The row that a suspending request leaves. */
  lemma StartLeaves(d: Daemon, rows: Rows, p: StartParams, newId: string, job: Job)
    requires d.resolve(p.configOverride).Some? && job == StartJob(d, p, d.resolve(p.configOverride).value)
    requires Rounds(d.world, job, p.messages, Cap(p.maxToolRounds)).outcome.Suspended?
    requires StartEffect(d, rows, p, newId).answer.Replied?
    ensures var leg := Rounds(d.world, job, p.messages, Cap(p.maxToolRounds));
            var e := StartEffect(d, rows, p, newId);
            && leg.rounds <= Cap(p.maxToolRounds) && e.rounds == leg.rounds
            && e.answer == Replied(PendingResponse(leg, newId))
            && newId in e.rows && e.rows[newId].agentId == d.agentId && e.rows[newId].status == Pending
            && e.rows[newId].messages == leg.messages && Some(e.rows[newId].toolCallId) == leg.outcome.call.id
            && e.rows[newId].ctx == job.ctx && e.rows[newId].maxTokens == job.maxTokens
            && e.rows[newId].config == p.configOverride
            && e.rows[newId].remaining == Cap(p.maxToolRounds) - leg.rounds
  {
    RunWithinCap(d, job, p.messages, Cap(p.maxToolRounds));
    hide Rounds;
  }

  /** The first request suspends, its row is stored with a single unanswered call, and `r` resumes that
      row with the same tools. */
  ghost predicate SuspendsAndResumes(d: Daemon, rows: Rows, p: StartParams, newId: string, r: ResumeParams, job: Job) {
    && d.resolve(p.configOverride).Some? && job == StartJob(d, p, d.resolve(p.configOverride).value)
    && Rounds(d.world, job, p.messages, Cap(p.maxToolRounds)).outcome.Suspended?
    && StartEffect(d, rows, p, newId).answer.Replied?
    && newId in StartEffect(d, rows, p, newId).rows
    && |Unanswered(StartEffect(d, rows, p, newId).rows[newId].messages)| == 1
    && r.suspensionId == newId && r.agentId == d.agentId && ValidResume(r)
    && r.tools == p.tools && r.configOverride == None
  }

  /** The run that the resumed leg makes. */
  ghost function SecondRun(d: Daemon, p: StartParams, r: ResumeParams, job: Job): Run
    requires Rounds(d.world, job, p.messages, Cap(p.maxToolRounds)).outcome.Suspended?
  {
    var leg := Rounds(d.world, job, p.messages, Cap(p.maxToolRounds));
    RunExtends(d.world, job, p.messages, Cap(p.maxToolRounds));
    Rounds(d.world, job, ResumeMessages(leg, r.content.GetOr(""), r.isToolError), Cap(p.maxToolRounds) - leg.rounds)
  }

  /** The first handler reports the first leg. */
  lemma FirstLegTold(d: Daemon, rows: Rows, p: StartParams, newId: string, r: ResumeParams, job: Job)
    requires SuspendsAndResumes(d, rows, p, newId, r, job)
    ensures var leg := Rounds(d.world, job, p.messages, Cap(p.maxToolRounds));
            var first := StartEffect(d, rows, p, newId);
            && leg.rounds <= Cap(p.maxToolRounds) && first.rounds == leg.rounds && first.answer.Replied?
            && first.answer.response.usage.GetOr(ZERO) == leg.usage
  {
    hide Rounds, StartEffect, Cap;
    StartLeaves(d, rows, p, newId, job);
    UnobservedIsZero(d.world, job, p.messages, Cap(p.maxToolRounds));
  }

  /** The resume handler drives the second run. */
  lemma SecondLegTold(d: Daemon, rows: Rows, p: StartParams, newId: string, r: ResumeParams, nextId: string, job: Job)
    requires SuspendsAndResumes(d, rows, p, newId, r, job)
    ensures var first := StartEffect(d, rows, p, newId);
            var second := ResumeEffect(d, first.rows, r, nextId);
            var rest := SecondRun(d, p, r, job);
            && second.rounds == rest.rounds && Tells(second.answer, rest, UsageField(rest))
            && (rest.outcome.Suspended? && second.answer.Replied? ==>
                  nextId in second.rows
                  && second.rows[nextId].remaining == Cap(p.maxToolRounds) - first.rounds - rest.rounds)
  {
    hide Rounds, StartEffect, Cap, DriveEffect, Tells;
    StartLeaves(d, rows, p, newId, job);
    var first := StartEffect(d, rows, p, newId);
    var row := first.rows[newId];
    assert Job(job.config, r.tools, row.ctx, row.maxTokens) == job;
    DriveTells(d, first.rows, r, nextId, job.config);
  }

  /** The uninterrupted run is the first leg followed by the second run. */
  lemma WholeIsBothLegs(d: Daemon, p: StartParams, r: ResumeParams, job: Job)
    requires Rounds(d.world, job, p.messages, Cap(p.maxToolRounds)).outcome.Suspended?
    requires |Unanswered(Rounds(d.world, job, p.messages, Cap(p.maxToolRounds)).messages)| == 1
    ensures var leg := Rounds(d.world, job, p.messages, Cap(p.maxToolRounds));
            var rest := SecondRun(d, p, r, job);
            var whole := Uninterrupted(d.world, job, p.messages, Cap(p.maxToolRounds), r.content.GetOr(""),
                                       r.isToolError);
            && whole.rounds == leg.rounds + rest.rounds
            && whole.usage == AddUsage(leg.usage, UsageField(rest).GetOr(ZERO))
            && whole.outcome == rest.outcome && whole.messages == rest.messages
  {
    hide Rounds, Uninterrupted, Cap, Unanswered;
    var cap := Cap(p.maxToolRounds);
    var content := r.content.GetOr("");
    TransparentIffLastInBatch(d.world, job, p.messages, cap, content, r.isToolError);
    var leg := Rounds(d.world, job, p.messages, cap);
    UnobservedIsZero(d.world, job, ResumeMessages(leg, content, r.isToolError), cap - leg.rounds);
  }

  /** Suspending through the store and resuming with the same tools: the second reply tells how the
      uninterrupted run would have ended, the rounds add up and so does the usage. */
  lemma HandlersAreTransparent(
      d: Daemon, rows: Rows, p: StartParams, newId: string, r: ResumeParams, nextId: string, job: Job)
    requires SuspendsAndResumes(d, rows, p, newId, r, job)
    ensures var first := StartEffect(d, rows, p, newId);
            var second := ResumeEffect(d, first.rows, r, nextId);
            var reported := UsageField(SecondRun(d, p, r, job));
            var whole := Uninterrupted(d.world, job, p.messages, Cap(p.maxToolRounds), r.content.GetOr(""),
                                       r.isToolError);
            && first.answer.Replied? && whole.rounds == first.rounds + second.rounds
            && Tells(second.answer, whole, reported)
            && whole.usage == AddUsage(first.answer.response.usage.GetOr(ZERO), reported.GetOr(ZERO))
            && (whole.outcome.Suspended? && second.answer.Replied? ==>
                  nextId in second.rows && second.rows[nextId].remaining == Cap(p.maxToolRounds) - whole.rounds)
  {
    hide Rounds, StartEffect, ResumeEffect, Tells, Uninterrupted, Cap, StartJob, ValidResume, SecondRun,
      UsageField, Unanswered;
    StartLeaves(d, rows, p, newId, job);
    FirstLegTold(d, rows, p, newId, r, job);
    SecondLegTold(d, rows, p, newId, r, nextId, job);
    WholeIsBothLegs(d, p, r, job);
    var rest := SecondRun(d, p, r, job);
    var whole := Uninterrupted(d.world, job, p.messages, Cap(p.maxToolRounds), r.content.GetOr(""), r.isToolError);
    TellsTheSame(ResumeEffect(d, StartEffect(d, rows, p, newId).rows, r, nextId).answer, rest, whole, UsageField(rest));
  }

  /** Usage is reported whenever there is any. */
  lemma {:induction false} UnobservedIsZero(w: World, job: Job, messages: seq<Message>, left: nat)
    ensures !Rounds(w, job, messages, left).observed ==> Rounds(w, job, messages, left).usage == ZERO
    decreases left
  {
    RoundsUnfold(w, job, messages, left);
    hide Rounds, OneRound;
    if left > 0 {
      var r := OneRound(w, job, messages);
      UnobservedRound(w, job, messages);
      if r.GoesOn? {
        UnobservedIsZero(w, job, r.messages, left - 1);
      }
    }
  }

  lemma UnobservedRound(w: World, job: Job, messages: seq<Message>)
    ensures var r := OneRound(w, job, messages); r.Over? && !r.run.observed ==> r.run.usage == ZERO
  {
    hide DispatchBatch;
  }
}
