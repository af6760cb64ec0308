/** Suspending a tool call and resuming it with its result, against never having suspended. */
module Transparency {
  import opened Wrappers
  import opened ToolLoop

  /** The world in which the dispatch made at `time` answers with the approved result directly. */
  function Approving(w: World, time: nat, content: string, isToolError: bool): World {
    w.(local := (t: nat, name, args, ctx) =>
         if t == time then Resolved(Payload(Some(content), isToolError, "")) else w.local(t, name, args, ctx),
       remote := (t: nat, name, args, ctx) =>
         if t == time then Resolved(Payload(Some(content), isToolError, "")) else w.remote(t, name, args, ctx))
  }

  // ---- The transcript only grows

  lemma {:induction false} BatchExtends(w: World, job: Job, messages: seq<Message>, calls: seq<Call>)
    ensures messages <= DispatchBatch(w, job, messages, calls).messages
    ensures DispatchBatch(w, job, messages, calls).Dispatched? ==>
              |DispatchBatch(w, job, messages, calls).messages| == |messages| + |calls|
    decreases |calls|
  {
    if calls != [] {
      var r := DispatchCall(w, job, |messages|, calls[0]);
      if r.Said? {
        BatchExtends(w, job, messages + [r.message], calls[1..]);
      }
    }
  }

  lemma RoundExtends(w: World, job: Job, messages: seq<Message>)
    ensures var r := OneRound(w, job, messages);
            && messages <= (if r.Over? then r.run.messages else r.messages)
            && (r.GoesOn? ==> |r.messages| > |messages|)
            && (r.Over? ==> r.run.rounds == 1)
  {
    var reply := w.provider(RequestFor(job, messages));
    if reply.Answered? {
      BatchExtends(w, job, messages + [Assistant(reply.content, reply.calls)], reply.calls);
    }
  }

  lemma RoundsUnfold(w: World, job: Job, messages: seq<Message>, left: nat)
    ensures left == 0 ==> Rounds(w, job, messages, left) == Run(OutOfRounds, messages, ZERO, false, 0)
    ensures left > 0 ==>
              var r := OneRound(w, job, messages);
              Rounds(w, job, messages, left) ==
                if r.Over? then r.run
                  else Joined(UsageOf(r.usage), r.usage.Some?, 1, Rounds(w, job, r.messages, left - 1))
  {
    hide OneRound;
  }

  lemma {:induction false} RunExtends(w: World, job: Job, messages: seq<Message>, left: nat)
    ensures messages <= Rounds(w, job, messages, left).messages
    ensures Rounds(w, job, messages, left).rounds <= left
    ensures !Rounds(w, job, messages, left).outcome.OutOfRounds? ==> Rounds(w, job, messages, left).rounds > 0
    decreases left
  {
    RoundsUnfold(w, job, messages, left);
    hide OneRound, Rounds;
    if left > 0 {
      RoundExtends(w, job, messages);
      var r := OneRound(w, job, messages);
      if r.GoesOn? {
        RunExtends(w, job, r.messages, left - 1);
        var rest := Rounds(w, job, r.messages, left - 1);
        assert messages <= r.messages <= rest.messages;
      }
    }
  }

  // ---- Worlds that differ at one moment agree at all others

  lemma CallAgrees(w: World, at: nat, content: string, isToolError: bool, job: Job, time: nat, call: Call)
    requires time != at
    ensures DispatchCall(Approving(w, at, content, isToolError), job, time, call) == DispatchCall(w, job, time, call)
  {
  }

  lemma {:induction false} BatchAgreesBefore(
      w: World, at: nat, content: string, isToolError: bool, job: Job, messages: seq<Message>, calls: seq<Call>)
    requires DispatchBatch(w, job, messages, calls).Dispatched?
    requires |messages| + |calls| <= at
    ensures DispatchBatch(Approving(w, at, content, isToolError), job, messages, calls)
            == DispatchBatch(w, job, messages, calls)
    decreases |calls|
  {
    if calls != [] {
      CallAgrees(w, at, content, isToolError, job, |messages|, calls[0]);
      var m := DispatchCall(w, job, |messages|, calls[0]).message;
      BatchAgreesBefore(w, at, content, isToolError, job, messages + [m], calls[1..]);
    }
  }

  lemma {:induction false} BatchAgreesAfter(
      w: World, at: nat, content: string, isToolError: bool, job: Job, messages: seq<Message>, calls: seq<Call>)
    requires |messages| > at
    ensures DispatchBatch(Approving(w, at, content, isToolError), job, messages, calls)
            == DispatchBatch(w, job, messages, calls)
    decreases |calls|
  {
    if calls != [] {
      CallAgrees(w, at, content, isToolError, job, |messages|, calls[0]);
      var r := DispatchCall(w, job, |messages|, calls[0]);
      if r.Said? {
        BatchAgreesAfter(w, at, content, isToolError, job, messages + [r.message], calls[1..]);
      }
    }
  }

  lemma RoundAgreesAfter(w: World, at: nat, content: string, isToolError: bool, job: Job, messages: seq<Message>)
    requires |messages| > at
    ensures OneRound(Approving(w, at, content, isToolError), job, messages) == OneRound(w, job, messages)
  {
    var reply := w.provider(RequestFor(job, messages));
    if reply.Answered? {
      BatchAgreesAfter(w, at, content, isToolError, job, messages + [Assistant(reply.content, reply.calls)],
                       reply.calls);
    }
  }

  lemma RoundAgreesBefore(w: World, at: nat, content: string, isToolError: bool, job: Job, messages: seq<Message>)
    requires OneRound(w, job, messages).GoesOn? && |OneRound(w, job, messages).messages| <= at
    ensures OneRound(Approving(w, at, content, isToolError), job, messages) == OneRound(w, job, messages)
  {
    var reply := w.provider(RequestFor(job, messages));
    var heard := messages + [Assistant(reply.content, reply.calls)];
    BatchExtends(w, job, heard, reply.calls);
    BatchAgreesBefore(w, at, content, isToolError, job, heard, reply.calls);
  }

  lemma {:induction false} RunAgreesAfter(
      w: World, at: nat, content: string, isToolError: bool, job: Job, messages: seq<Message>, left: nat)
    requires |messages| > at
    ensures Rounds(Approving(w, at, content, isToolError), job, messages, left) == Rounds(w, job, messages, left)
    decreases left
  {
    if left > 0 {
      RoundAgreesAfter(w, at, content, isToolError, job, messages);
      RoundExtends(w, job, messages);
      var r := OneRound(w, job, messages);
      if r.GoesOn? {
        RunAgreesAfter(w, at, content, isToolError, job, r.messages, left - 1);
      }
    }
  }

  // ---- The approved call

  /** Where the suspended batch stopped, the approving world carries on with the abandoned calls. */
  lemma {:induction false} BatchApproved(
      w: World, content: string, isToolError: bool, job: Job, messages: seq<Message>, calls: seq<Call>)
    requires DispatchBatch(w, job, messages, calls).Stopped?
    ensures var s := DispatchBatch(w, job, messages, calls);
            var w' := Approving(w, |s.messages|, content, isToolError);
            DispatchBatch(w', job, messages, calls)
            == DispatchBatch(w', job, s.messages + [ToolMessage(s.call.id, content, isToolError)], s.abandoned)
    decreases |calls|
  {
    var s := DispatchBatch(w, job, messages, calls);
    var w' := Approving(w, |s.messages|, content, isToolError);
    var r := DispatchCall(w, job, |messages|, calls[0]);
    if r.Said? {
      BatchExtends(w, job, messages + [r.message], calls[1..]);
      CallAgrees(w, |s.messages|, content, isToolError, job, |messages|, calls[0]);
      BatchApproved(w, content, isToolError, job, messages + [r.message], calls[1..]);
    } else {
      assert DispatchCall(w', job, |messages|, calls[0]) == Said(ToolMessage(calls[0].id, content, isToolError));
    }
  }

  /** The transcript a resume works on: the suspended one and the approved result. */
  function ResumeMessages(run: Run, content: string, isToolError: bool): seq<Message>
    requires run.outcome.Suspended?
  {
    run.messages + [ToolMessage(run.outcome.call.id, content, isToolError)]
  }

  /** The run whose dispatcher answers the suspended call directly. */
  function Uninterrupted(
      w: World, job: Job, messages: seq<Message>, cap: nat, content: string, isToolError: bool): Run
    requires Rounds(w, job, messages, cap).outcome.Suspended?
  {
    Rounds(Approving(w, |Rounds(w, job, messages, cap).messages|, content, isToolError), job, messages, cap)
  }

  /** The suspended leg followed by the resumed one. */
  function InTwoLegs(
      w: World, job: Job, messages: seq<Message>, cap: nat, content: string, isToolError: bool): Run
    requires Rounds(w, job, messages, cap).outcome.Suspended? && Rounds(w, job, messages, cap).rounds <= cap
  {
    var leg := Rounds(w, job, messages, cap);
    Joined(leg.usage, leg.observed, leg.rounds,
           Rounds(w, job, ResumeMessages(leg, content, isToolError), cap - leg.rounds))
  }

  /** A round that suspends: in the approving world it goes on where the resume starts, provided
      nothing was abandoned. */
  lemma SuspendingRound(w: World, job: Job, messages: seq<Message>, content: string, isToolError: bool)
    requires OneRound(w, job, messages).Over? && OneRound(w, job, messages).run.outcome.Suspended?
    ensures var leg := OneRound(w, job, messages).run;
            var w' := Approving(w, |leg.messages|, content, isToolError);
            leg.outcome.abandoned == [] ==>
              && OneRound(w', job, messages).GoesOn?
              && OneRound(w', job, messages).messages == ResumeMessages(leg, content, isToolError)
              && leg.usage == UsageOf(OneRound(w', job, messages).usage)
              && leg.observed == OneRound(w', job, messages).usage.Some?
              && leg.rounds == 1
  {
    var reply := w.provider(RequestFor(job, messages));
    var heard := messages + [Assistant(reply.content, reply.calls)];
    BatchApproved(w, content, isToolError, job, heard, reply.calls);
  }

  ghost predicate LegsAgree(w: World, job: Job, messages: seq<Message>, cap: nat, content: string, isToolError: bool) {
    && Rounds(w, job, messages, cap).outcome.Suspended? && Rounds(w, job, messages, cap).rounds <= cap
    && Uninterrupted(w, job, messages, cap, content, isToolError)
       == InTwoLegs(w, job, messages, cap, content, isToolError)
  }

  /** The round that suspends. */
  lemma LastRoundAgrees(w: World, job: Job, messages: seq<Message>, cap: nat, content: string, isToolError: bool)
    requires cap > 0 && OneRound(w, job, messages).Over?
    requires OneRound(w, job, messages).run.outcome.Suspended? && OneRound(w, job, messages).run.outcome.abandoned == []
    ensures LegsAgree(w, job, messages, cap, content, isToolError)
  {
    var leg := OneRound(w, job, messages).run;
    var at := |leg.messages|;
    SuspendingRound(w, job, messages, content, isToolError);
    RoundsUnfold(w, job, messages, cap);
    RoundsUnfold(Approving(w, at, content, isToolError), job, messages, cap);
    hide OneRound, Rounds, Approving;
    RunAgreesAfter(w, at, content, isToolError, job, ResumeMessages(leg, content, isToolError), cap - 1);
  }

  /** A round before it. */
  lemma LaterRoundsAgree(w: World, job: Job, messages: seq<Message>, cap: nat, content: string, isToolError: bool)
    requires cap > 0 && OneRound(w, job, messages).GoesOn?
    requires LegsAgree(w, job, OneRound(w, job, messages).messages, cap - 1, content, isToolError)
    ensures LegsAgree(w, job, messages, cap, content, isToolError)
  {
    hide OneRound, Rounds, Approving;
    RoundsUnfold(w, job, messages, cap);
    var leg := Rounds(w, job, messages, cap);
    var r := OneRound(w, job, messages);
    RunExtends(w, job, r.messages, cap - 1);
    RoundAgreesBefore(w, |leg.messages|, content, isToolError, job, messages);
    RoundsUnfold(Approving(w, |leg.messages|, content, isToolError), job, messages, cap);
    var rest := Rounds(w, job, r.messages, cap - 1);
    JoinTwice(UsageOf(r.usage), r.usage.Some?, 1, rest.usage, rest.observed, rest.rounds,
              Rounds(w, job, ResumeMessages(leg, content, isToolError), cap - leg.rounds));
  }

  /** Transparency: when the suspended call is the last of its batch, the two legs add up to the
      uninterrupted run, in outcome, transcript, usage and rounds. */
  lemma {:induction false} ResumeIsTransparent(
      w: World, job: Job, messages: seq<Message>, cap: nat, content: string, isToolError: bool)
    requires Rounds(w, job, messages, cap).outcome.Suspended?
    requires Rounds(w, job, messages, cap).outcome.abandoned == []
    ensures LegsAgree(w, job, messages, cap, content, isToolError)
    decreases cap
  {
    hide OneRound, Rounds, LegsAgree;
    RoundsUnfold(w, job, messages, cap);
    var r := OneRound(w, job, messages);
    if r.Over? {
      LastRoundAgrees(w, job, messages, cap, content, isToolError);
    } else {
      ResumeIsTransparent(w, job, r.messages, cap - 1, content, isToolError);
      LaterRoundsAgree(w, job, messages, cap, content, isToolError);
    }
  }

  // ---- Abandoned siblings

  /** A run that adds anything starts with a message of the provider's. */
  lemma NextIsNoToolMessage(w: World, job: Job, messages: seq<Message>, left: nat)
    ensures var run := Rounds(w, job, messages, left);
            || (run.messages == messages && !run.outcome.Suspended?)
            || (|run.messages| > |messages| && !run.messages[|messages|].ToolMessage?)
  {
    if left > 0 {
      var reply := w.provider(RequestFor(job, messages));
      if reply.Answered? {
        var heard := messages + [Assistant(reply.content, reply.calls)];
        BatchExtends(w, job, heard, reply.calls);
        var r := OneRound(w, job, messages);
        if r.GoesOn? {
          RunExtends(w, job, r.messages, left - 1);
          assert heard <= r.messages <= Rounds(w, job, messages, left).messages;
        }
      }
    }
  }

  /** Dispatching a sibling either suspends at once or adds a tool message. */
  lemma NextIsToolMessage(w: World, job: Job, messages: seq<Message>, calls: seq<Call>)
    requires calls != []
    ensures var b := DispatchBatch(w, job, messages, calls);
            || (b.Stopped? && b.messages == messages)
            || (|b.messages| > |messages| && b.messages[|messages|].ToolMessage?)
  {
    var r := DispatchCall(w, job, |messages|, calls[0]);
    if r.Said? {
      BatchExtends(w, job, messages + [r.message], calls[1..]);
    }
  }

  ghost predicate Differ(a: Run, b: Run) {
    a.messages != b.messages || a.outcome != b.outcome
  }

  /** A round that abandons calls: the approving world dispatches them, the resume asks the provider. */
  lemma AbandoningRound(w: World, job: Job, messages: seq<Message>, cap: nat, content: string, isToolError: bool)
    requires cap > 0 && OneRound(w, job, messages).Over?
    requires OneRound(w, job, messages).run.outcome.Suspended?
    requires OneRound(w, job, messages).run.outcome.abandoned != []
    ensures var leg := OneRound(w, job, messages).run;
            Differ(Rounds(Approving(w, |leg.messages|, content, isToolError), job, messages, cap),
                   Rounds(w, job, ResumeMessages(leg, content, isToolError), cap - 1))
  {
    var leg := OneRound(w, job, messages).run;
    var w' := Approving(w, |leg.messages|, content, isToolError);
    var reply := w.provider(RequestFor(job, messages));
    var heard := messages + [Assistant(reply.content, reply.calls)];
    BatchApproved(w, content, isToolError, job, heard, reply.calls);
    var resume := ResumeMessages(leg, content, isToolError);
    NextIsToolMessage(w', job, resume, leg.outcome.abandoned);
    NextIsNoToolMessage(w, job, resume, cap - 1);
    var batch := DispatchBatch(w', job, resume, leg.outcome.abandoned);
    assert OneRound(w', job, messages) ==
      match batch
      case Dispatched(said) => GoesOn(reply.usage, said)
      case Stopped(said, call, name, args, approvalId, abandoned) =>
        Over(Run(Suspended(call, name, args, approvalId, abandoned), said, UsageOf(reply.usage), reply.usage.Some?, 1));
    hide OneRound, DispatchBatch;
    if batch.Dispatched? {
      RunExtends(w', job, batch.messages, cap - 1);
    }
  }

  ghost predicate LegsDiffer(w: World, job: Job, messages: seq<Message>, cap: nat, content: string, isToolError: bool) {
    && Rounds(w, job, messages, cap).outcome.Suspended? && Rounds(w, job, messages, cap).rounds <= cap
    && Differ(Uninterrupted(w, job, messages, cap, content, isToolError),
              InTwoLegs(w, job, messages, cap, content, isToolError))
  }

  /** The abandoning round itself. */
  lemma LastRoundDiffers(w: World, job: Job, messages: seq<Message>, cap: nat, content: string, isToolError: bool)
    requires cap > 0 && OneRound(w, job, messages).Over?
    requires OneRound(w, job, messages).run.outcome.Suspended? && OneRound(w, job, messages).run.outcome.abandoned != []
    ensures LegsDiffer(w, job, messages, cap, content, isToolError)
  {
    hide OneRound, Rounds, Approving;
    RoundsUnfold(w, job, messages, cap);
    RoundExtends(w, job, messages);
    AbandoningRound(w, job, messages, cap, content, isToolError);
    var leg := OneRound(w, job, messages).run;
    JoinKeepsEnd(leg, Rounds(w, job, ResumeMessages(leg, content, isToolError), cap - 1));
  }

  /** With abandoned siblings the two legs never add up to the uninterrupted run. */
  lemma {:induction false} AbandonedSiblingsShow(
      w: World, job: Job, messages: seq<Message>, cap: nat, content: string, isToolError: bool)
    requires Rounds(w, job, messages, cap).outcome.Suspended?
    requires Rounds(w, job, messages, cap).outcome.abandoned != []
    ensures LegsDiffer(w, job, messages, cap, content, isToolError)
    decreases cap
  {
    hide OneRound, Rounds, LegsDiffer;
    RoundsUnfold(w, job, messages, cap);
    var r := OneRound(w, job, messages);
    if r.Over? {
      LastRoundDiffers(w, job, messages, cap, content, isToolError);
    } else {
      AbandonedSiblingsShow(w, job, r.messages, cap - 1, content, isToolError);
      LaterRoundsShow(w, job, messages, cap, content, isToolError);
    }
  }

  lemma JoinKeepsEnd(leg: Run, rest: Run)
    ensures Joined(leg.usage, leg.observed, leg.rounds, rest).outcome == rest.outcome
    ensures Joined(leg.usage, leg.observed, leg.rounds, rest).messages == rest.messages
  {
  }

  /** A round that goes on changes neither how the two runs end nor their transcripts. */
  lemma LaterRoundsShow(w: World, job: Job, messages: seq<Message>, cap: nat, content: string, isToolError: bool)
    requires cap > 0 && OneRound(w, job, messages).GoesOn?
    requires LegsDiffer(w, job, OneRound(w, job, messages).messages, cap - 1, content, isToolError)
    ensures LegsDiffer(w, job, messages, cap, content, isToolError)
  {
    hide OneRound, Rounds, ResumeMessages, Approving;
    RoundsUnfold(w, job, messages, cap);
    var leg := Rounds(w, job, messages, cap);
    var r := OneRound(w, job, messages);
    RunExtends(w, job, r.messages, cap - 1);
    RoundAgreesBefore(w, |leg.messages|, content, isToolError, job, messages);
    RoundsUnfold(Approving(w, |leg.messages|, content, isToolError), job, messages, cap);
    SameEndSameResume(leg, Rounds(w, job, r.messages, cap - 1), content, isToolError);
  }

  lemma SameEndSameResume(a: Run, b: Run, content: string, isToolError: bool)
    requires a.outcome.Suspended? && a.outcome == b.outcome && a.messages == b.messages
    ensures ResumeMessages(a, content, isToolError) == ResumeMessages(b, content, isToolError)
  {
  }

  // ---- The condition, read off the transcript

  /** The calls of the last assistant message that no tool message has answered yet. */
  function Unanswered(t: seq<Message>): seq<Call>
    decreases |t|
  {
    if t == [] then []
    else match t[|t| - 1]
      case Assistant(_, calls) => calls
      case ToolMessage(_, _, _) => var before := Unanswered(t[..|t| - 1]); if before == [] then [] else before[1..]
      case _ => []
  }

  lemma {:induction false} AnswersLeave(heard: seq<Message>, text: Option<string>, calls: seq<Call>, k: nat,
                                        after: seq<Message>)
    requires k <= |calls| && heard != [] && heard[|heard| - 1] == Assistant(text, calls)
    requires Answers(heard, calls[..k], after)
    ensures Unanswered(after) == calls[k..]
    decreases k
  {
    if k == 0 {
      assert after == heard;
    } else {
      var before := after[..|after| - 1];
      assert calls[..k][..k - 1] == calls[..k - 1];
      forall i | |heard| <= i < |before| ensures AnswerTo(before[i], calls[..k - 1][i - |heard|]) {
        assert AnswerTo(after[i], calls[..k][i - |heard|]);
      }
      AnswersLeave(heard, text, calls, k - 1, before);
      assert AnswerTo(after[|after| - 1], calls[..k][k - 1]);
      assert calls[k - 1..][1..] == calls[k..];
    }
  }

  lemma SuspendedRoundLeaves(w: World, job: Job, messages: seq<Message>)
    requires OneRound(w, job, messages).Over? && OneRound(w, job, messages).run.outcome.Suspended?
    ensures var leg := OneRound(w, job, messages).run;
            Unanswered(leg.messages) == [leg.outcome.call] + leg.outcome.abandoned
  {
    var reply := w.provider(RequestFor(job, messages));
    var heard := messages + [Assistant(reply.content, reply.calls)];
    EveryCallIsAnswered(w, job, heard, reply.calls);
    var leg := OneRound(w, job, messages).run;
    var k := |leg.messages| - |heard|;
    hide OneRound, DispatchBatch;
    AnswersLeave(heard, reply.content, reply.calls, k, leg.messages);
    assert reply.calls[k..] == [reply.calls[k]] + reply.calls[k + 1..];
  }

  /** A suspended transcript ends with the suspended call and the abandoned ones unanswered, and no others. */
  lemma {:induction false} SuspendedTranscriptTells(w: World, job: Job, messages: seq<Message>, cap: nat)
    requires Rounds(w, job, messages, cap).outcome.Suspended?
    ensures var leg := Rounds(w, job, messages, cap);
            Unanswered(leg.messages) == [leg.outcome.call] + leg.outcome.abandoned
    decreases cap
  {
    hide OneRound, Unanswered, Rounds;
    RoundsUnfold(w, job, messages, cap);
    var r := OneRound(w, job, messages);
    if r.Over? {
      SuspendedRoundLeaves(w, job, messages);
    } else {
      SuspendedTranscriptTells(w, job, r.messages, cap - 1);
    }
  }

  /** Resuming is observationally the same as never suspending exactly when, in the stored transcript, a single
      call of the last assistant message is unanswered. */
  lemma TransparentIffLastInBatch(
      w: World, job: Job, messages: seq<Message>, cap: nat, content: string, isToolError: bool)
    requires Rounds(w, job, messages, cap).outcome.Suspended?
    ensures Rounds(w, job, messages, cap).rounds <= cap
    ensures Uninterrupted(w, job, messages, cap, content, isToolError)
            == InTwoLegs(w, job, messages, cap, content, isToolError)
            <==> |Unanswered(Rounds(w, job, messages, cap).messages)| == 1
  {
    hide Rounds, Uninterrupted, InTwoLegs, Unanswered;
    SuspendedTranscriptTells(w, job, messages, cap);
    if Rounds(w, job, messages, cap).outcome.abandoned == [] {
      ResumeIsTransparent(w, job, messages, cap, content, isToolError);
    } else {
      AbandonedSiblingsShow(w, job, messages, cap, content, isToolError);
    }
  }

  /** It happens: a batch of two calls of which the first suspends, so that the second is abandoned. */
  lemma SiblingIsAbandoned(config: Config, content: string, isToolError: bool) returns (w: World, job: Job)
    ensures var leg := Rounds(w, job, [], 1);
            && leg.outcome.Suspended? && leg.rounds <= 1 && |Unanswered(leg.messages)| == 2
            && Uninterrupted(w, job, [], 1, content, isToolError) != InTwoLegs(w, job, [], 1, content, isToolError)
  {
    var call := Call(Some("call"), Some("tool"), NoArgs);
    var calls := [call, call];
    var pending := (time: nat, name: string, args: Json, ctx: Context) => Resolved(ApprovalPending(None));
    w := World((text: string) => None, (request: Request) => Answered(None, None, calls), pending, pending);
    job := Job(config, [ToolDef(Some("tool"), true, "")], Context(""), None);
    assert DispatchCall(w, job, 1, call).Suspends?;
    RoundsUnfold(w, job, [], 1);
    assert OneRound(w, job, []).run.outcome.abandoned == [call];
    hide OneRound, Rounds, Uninterrupted, InTwoLegs, DispatchBatch;
    SuspendedTranscriptTells(w, job, [], 1);
    TransparentIffLastInBatch(w, job, [], 1, content, isToolError);
  }
}
