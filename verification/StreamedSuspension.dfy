/** A suspension taken while streaming, resumed by `brain.toolLoop.resume`, which does not stream. */
module StreamedSuspension {
  import opened Wrappers
  import opened ToolLoop
  import opened Transparency
  import opened Suspensions
  import opened SuspensionBudget
  import opened Spelling
  import opened ChatToolStream

  /** The provider makes no difference between the two beginnings of a transcript. */
  ghost predicate SameFrom(w: World, job: Job, h: seq<Message>, g: seq<Message>) {
    |h| == |g| && forall t: seq<Message> :: w.provider(RequestFor(job, h + t)) == w.provider(RequestFor(job, g + t))
  }

  lemma {:induction false} BatchFrom(w: World, job: Job, h: seq<Message>, g: seq<Message>, t: seq<Message>,
                                     calls: seq<Call>)
      returns (rest: seq<Message>)
    requires |h| == |g|
    ensures var r := DispatchBatch(w, job, h + t, calls);
            r.messages == h + rest && DispatchBatch(w, job, g + t, calls) == r.(messages := g + rest)
    decreases |calls|
  {
    rest := t;
    if calls != [] && DispatchCall(w, job, |h + t|, calls[0]).Said? {
      var said := DispatchCall(w, job, |h + t|, calls[0]).message;
      assert h + t + [said] == h + (t + [said]) && g + t + [said] == g + (t + [said]);
      rest := BatchFrom(w, job, h, g, t + [said], calls[1..]);
    }
  }

  lemma RoundFrom(w: World, job: Job, h: seq<Message>, g: seq<Message>, t: seq<Message>) returns (rest: seq<Message>)
    requires SameFrom(w, job, h, g)
    ensures var r := OneRound(w, job, h + t);
            match r
            case GoesOn(usage, messages) => messages == h + rest && OneRound(w, job, g + t) == GoesOn(usage, g + rest)
            case Over(run) => run.messages == h + rest && OneRound(w, job, g + t) == Over(run.(messages := g + rest))
  {
    hide DispatchBatch, RequestFor;
    rest := t;
    var reply := w.provider(RequestFor(job, h + t));
    if reply.Answered? || reply.FunctionCalled? {
      var message := MessageOf(reply);
      assert h + t + [message] == h + (t + [message]) && g + t + [message] == g + (t + [message]);
      rest := t + [message];
      if reply.Answered? && reply.calls != [] {
        rest := BatchFrom(w, job, h, g, t + [message], reply.calls);
      }
    }
  }

  /** Runs from two such beginnings are the same but for the beginning. */
  lemma {:induction false} RunFrom(w: World, job: Job, h: seq<Message>, g: seq<Message>, t: seq<Message>, left: nat)
      returns (rest: seq<Message>)
    requires SameFrom(w, job, h, g)
    ensures var run := Rounds(w, job, h + t, left);
            run.messages == h + rest && Rounds(w, job, g + t, left) == run.(messages := g + rest)
    decreases left
  {
    RoundsUnfold(w, job, h + t, left);
    RoundsUnfold(w, job, g + t, left);
    rest := t;
    hide Rounds, SameFrom, OneRound, UsageOf;
    if left > 0 {
      rest := RoundFrom(w, job, h, g, t);
      if OneRound(w, job, h + t).GoesOn? {
        rest := RunFrom(w, job, h, g, rest, left - 1);
      }
    }
  }

  /** The row that the streamed request leaves is that of the other handler, its transcript normalised. */
  lemma StreamedLeaves(
      d: Daemon, stream: Request -> StreamReply, rows: Rows, p: StartParams, backup: Option<Config>, newId: string,
      r: ResumeParams, job: Job)
    requires SuspendsAndResumes(d, rows, p, newId, r, job) && Twins(Streaming(d, stream), job)
    requires SpellableFrom(|p.messages|, Rounds(d.world, job, p.messages, Cap(p.maxToolRounds)).messages)
    ensures var plain := StartEffect(d, rows, p, newId);
            var first := StreamEffect(d, stream, rows, Normalised(d.world, p), backup, newId);
            && first.answer.Replied? && first.rounds == plain.rounds && newId in plain.rows && newId in first.rows
            && first.rows[newId] == plain.rows[newId].(messages := Normal(d.world, plain.rows[newId].messages))
  {
    SameSuspensionRow(d, stream, rows, p, backup, newId);
    StartFits(d, rows, p, newId);
    StartLeaves(d, rows, p, newId, job);
    NewRow(d, rows, p, newId, job);
    assert SameEffect(d, stream, rows, p, backup, newId);
    hide SpellableFrom, Rounds, StartEffect, StreamEffect, Twins, Normal, Cap, Unanswered;
  }

  lemma NewRow(d: Daemon, rows: Rows, p: StartParams, newId: string, job: Job)
    requires d.resolve(p.configOverride).Some? && job == StartJob(d, p, d.resolve(p.configOverride).value)
    requires Rounds(d.world, job, p.messages, Cap(p.maxToolRounds)).outcome.Suspended?
    requires StartEffect(d, rows, p, newId).answer.Replied?
    ensures newId !in rows && p.agentId == d.agentId
  {
    hide Rounds;
  }

  /** The resume handler drives the second run of the other handler, from the normalised beginning. */
  lemma StreamedSecondLeg(
      d: Daemon, stream: Request -> StreamReply, rows: Rows, p: StartParams, backup: Option<Config>, newId: string,
      r: ResumeParams, nextId: string, job: Job)
    requires SuspendsAndResumes(d, rows, p, newId, r, job) && Twins(Streaming(d, stream), job)
    requires SpellableFrom(|p.messages|, Rounds(d.world, job, p.messages, Cap(p.maxToolRounds)).messages)
    requires var leg := Rounds(d.world, job, p.messages, Cap(p.maxToolRounds));
             SameFrom(d.world, job, leg.messages, Normal(d.world, leg.messages))
    ensures var leg := Rounds(d.world, job, p.messages, Cap(p.maxToolRounds));
            var first := StreamEffect(d, stream, rows, Normalised(d.world, p), backup, newId);
            var second := ResumeEffect(d, first.rows, r, nextId);
            var rest := SecondRun(d, p, r, job);
            && second.rounds == rest.rounds && leg.messages <= rest.messages
            && Tells(second.answer,
                     rest.(messages := Normal(d.world, leg.messages) + rest.messages[|leg.messages|..]),
                       UsageField(rest))
  {
    hide SpellableFrom, Rounds, StartEffect, StreamEffect, Cap, DriveEffect, Tells, SameFrom, Normal, Unanswered;
    StartLeaves(d, rows, p, newId, job);
    StreamedLeaves(d, stream, rows, p, backup, newId, r, job);
    var leg := Rounds(d.world, job, p.messages, Cap(p.maxToolRounds));
    var first := StreamEffect(d, stream, rows, Normalised(d.world, p), backup, newId);
    var row := first.rows[newId];
    assert Job(job.config, r.tools, row.ctx, row.maxTokens) == job;
    DriveTells(d, first.rows, r, nextId, job.config);
    var answer := [ToolMessage(leg.outcome.call.id, r.content.GetOr(""), r.isToolError)];
    var tail := RunFrom(d.world, job, leg.messages, Normal(d.world, leg.messages), answer, row.remaining);
    assert (leg.messages + tail)[|leg.messages|..] == tail;
  }

  /** Suspending a stream and resuming it without one: if the provider makes nothing of the normalised beginning, the
      second reply tells how the uninterrupted run without streaming would have ended, and the rounds add up. */
  lemma StreamedSuspensionResumes(
      d: Daemon, stream: Request -> StreamReply, rows: Rows, p: StartParams, backup: Option<Config>, newId: string,
      r: ResumeParams, nextId: string, job: Job)
    requires SuspendsAndResumes(d, rows, p, newId, r, job) && Twins(Streaming(d, stream), job)
    requires SpellableFrom(|p.messages|, Rounds(d.world, job, p.messages, Cap(p.maxToolRounds)).messages)
    requires var leg := Rounds(d.world, job, p.messages, Cap(p.maxToolRounds));
             SameFrom(d.world, job, leg.messages, Normal(d.world, leg.messages))
    ensures var leg := Rounds(d.world, job, p.messages, Cap(p.maxToolRounds));
            var first := StreamEffect(d, stream, rows, Normalised(d.world, p), backup, newId);
            var second := ResumeEffect(d, first.rows, r, nextId);
            var whole := Uninterrupted(d.world, job, p.messages, Cap(p.maxToolRounds), r.content.GetOr(""),
                                       r.isToolError);
            && whole.rounds == first.rounds + second.rounds && leg.messages <= whole.messages
            && Tells(second.answer,
                     whole.(messages := Normal(d.world, leg.messages) + whole.messages[|leg.messages|..]),
                     UsageField(SecondRun(d, p, r, job)))
  {
    hide Rounds, StartEffect, StreamEffect, ResumeEffect, Tells, Uninterrupted, Cap, StartJob, ValidResume, SecondRun,
      UsageField, Unanswered, SameFrom, Normal, Twins, SpellableFrom;
    StartLeaves(d, rows, p, newId, job);
    StreamedLeaves(d, stream, rows, p, backup, newId, r, job);
    StreamedSecondLeg(d, stream, rows, p, backup, newId, r, nextId, job);
    WholeIsBothLegs(d, p, r, job);
    var leg := Rounds(d.world, job, p.messages, Cap(p.maxToolRounds));
    var rest := SecondRun(d, p, r, job);
    var whole := Uninterrupted(d.world, job, p.messages, Cap(p.maxToolRounds), r.content.GetOr(""), r.isToolError);
    var first := StreamEffect(d, stream, rows, Normalised(d.world, p), backup, newId);
    var messages := Normal(d.world, leg.messages) + rest.messages[|leg.messages|..];
    TellsTheSame(ResumeEffect(d, first.rows, r, nextId).answer, rest.(messages := messages),
                 whole.(messages := messages),
                 UsageField(rest));
  }
}
