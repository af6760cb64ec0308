/** Any number of suspensions, each resumed with its approved result, against one run that never suspends for them. */
module SuspensionChain {
  import opened ToolLoop
  import opened Transparency

  /** The approved result of one suspended call. */
  datatype Approval = Approval(content: string, isToolError: bool)

  /** The leg from `messages`, and while it suspends and there are approvals the legs after it, added up. */
  function Legs(w: World, job: Job, messages: seq<Message>, cap: nat, approvals: seq<Approval>): Run
    decreases |approvals|
  {
    var leg := Rounds(w, job, messages, cap);
    if approvals == [] || !leg.outcome.Suspended? || leg.rounds > cap then leg
    else Joined(leg.usage, leg.observed, leg.rounds,
                Legs(w, job, Resumed(leg, approvals[0]), cap - leg.rounds, approvals[1..]))
  }

  function Resumed(leg: Run, a: Approval): seq<Message>
    requires leg.outcome.Suspended?
  {
    ResumeMessages(leg, a.content, a.isToolError)
  }

  /** The world that answers in place of each suspension in turn, each found by running anew from `messages`. */
  function Approved(w: World, job: Job, messages: seq<Message>, cap: nat, approvals: seq<Approval>): World
    decreases |approvals|
  {
    var leg := Rounds(w, job, messages, cap);
    if approvals == [] || !leg.outcome.Suspended? then w
    else Approved(Approving(w, |leg.messages|, approvals[0].content, approvals[0].isToolError), job, messages, cap,
                  approvals[1..])
  }

  /** Every leg that is resumed leaves a single call of its last assistant message unanswered. */
  predicate NothingAbandoned(w: World, job: Job, messages: seq<Message>, cap: nat, approvals: seq<Approval>)
    decreases |approvals|
  {
    var leg := Rounds(w, job, messages, cap);
    approvals == [] || !leg.outcome.Suspended? || leg.rounds > cap
    || (&& |Unanswered(leg.messages)| == 1
        && NothingAbandoned(w, job, Resumed(leg, approvals[0]), cap - leg.rounds, approvals[1..]))
  }

  /** An approval given at an earlier moment makes no difference to later legs. */
  lemma {:induction false} LegsAgreeAfter(
      w: World, at: nat, a: Approval, job: Job, messages: seq<Message>, cap: nat, approvals: seq<Approval>)
    requires |messages| > at
    ensures var w' := Approving(w, at, a.content, a.isToolError);
            && Legs(w', job, messages, cap, approvals) == Legs(w, job, messages, cap, approvals)
            && NothingAbandoned(w', job, messages, cap, approvals) == NothingAbandoned(w, job, messages, cap, approvals)
    decreases |approvals|
  {
    hide Rounds, Approving, Unanswered;
    RunAgreesAfter(w, at, a.content, a.isToolError, job, messages, cap);
    var leg := Rounds(w, job, messages, cap);
    if approvals != [] && leg.outcome.Suspended? && leg.rounds <= cap {
      RunExtends(w, job, messages, cap);
      LegsAgreeAfter(w, at, a, job, Resumed(leg, approvals[0]), cap - leg.rounds, approvals[1..]);
    }
  }

  /** With the first suspension approved, the legs from the start are the first leg followed by the later ones. */
  lemma FirstLegMerges(w: World, job: Job, messages: seq<Message>, cap: nat, a: Approval, rest: seq<Approval>)
    requires Rounds(w, job, messages, cap).outcome.Suspended?
             && |Unanswered(Rounds(w, job, messages, cap).messages)| == 1
    ensures var leg := Rounds(w, job, messages, cap);
            var w' := Approving(w, |leg.messages|, a.content, a.isToolError);
            && leg.rounds <= cap
            && Legs(w', job, messages, cap, rest)
               == Joined(leg.usage, leg.observed, leg.rounds, Legs(w, job, Resumed(leg, a), cap - leg.rounds, rest))
            && (NothingAbandoned(w, job, Resumed(leg, a), cap - leg.rounds, rest)
                <==> NothingAbandoned(w', job, messages, cap, rest))
  {
    hide Rounds, Approving, Unanswered;
    var leg := Rounds(w, job, messages, cap);
    var w' := Approving(w, |leg.messages|, a.content, a.isToolError);
    TransparentIffLastInBatch(w, job, messages, cap, a.content, a.isToolError);
    var second := Rounds(w, job, Resumed(leg, a), cap - leg.rounds);
    RunExtends(w, job, Resumed(leg, a), cap - leg.rounds);
    assert Rounds(w', job, messages, cap) == Joined(leg.usage, leg.observed, leg.rounds, second);
    if rest != [] && second.outcome.Suspended? {
      var m := Resumed(second, rest[0]);
      var left := cap - leg.rounds - second.rounds;
      LegsAgreeAfter(w, |leg.messages|, a, job, m, left, rest[1..]);
      JoinTwice(leg.usage, leg.observed, leg.rounds, second.usage, second.observed, second.rounds,
                Legs(w, job, m, left, rest[1..]));
    }
  }

  // ---- A leg that abandons calls

  /** After `r`, the run goes on with a tool message, or it suspends right there. */
  ghost predicate Dispatches(run: Run, r: seq<Message>) {
    r <= run.messages && if |run.messages| > |r| then run.messages[|r|].ToolMessage? else run.outcome.Suspended?
  }

  /** After `r`, the run goes on with a message of the provider's, or it ends right there. */
  ghost predicate Asks(run: Run, r: seq<Message>) {
    r <= run.messages && if |run.messages| > |r| then !run.messages[|r|].ToolMessage? else !run.outcome.Suspended?
  }

  /** In the approving world the suspended run goes on with the approved result, and with what was abandoned. */
  lemma ApprovedRound(w: World, job: Job, messages: seq<Message>, left: nat, a: Approval)
    requires OneRound(w, job, messages).Over? && OneRound(w, job, messages).run.outcome.Suspended?
    ensures var leg := OneRound(w, job, messages).run;
            var run := Rounds(Approving(w, |leg.messages|, a.content, a.isToolError), job, messages, left + 1);
            && Resumed(leg, a) <= run.messages
            && (leg.outcome.abandoned != [] ==> Dispatches(run, Resumed(leg, a)))
  {
    var leg := OneRound(w, job, messages).run;
    var w' := Approving(w, |leg.messages|, a.content, a.isToolError);
    var reply := w.provider(RequestFor(job, messages));
    var heard := messages + [Assistant(reply.content, reply.calls)];
    BatchApproved(w, a.content, a.isToolError, job, heard, reply.calls);
    var resume := Resumed(leg, a);
    var batch := DispatchBatch(w', job, resume, leg.outcome.abandoned);
    BatchExtends(w', job, resume, leg.outcome.abandoned);
    assert OneRound(w', job, messages) ==
      match batch
      case Dispatched(said) => GoesOn(reply.usage, said)
      case Stopped(said, call, name, args, approvalId, abandoned) =>
        Over(Run(Suspended(call, name, args, approvalId, abandoned), said, UsageOf(reply.usage), reply.usage.Some?, 1));
    if leg.outcome.abandoned != [] {
      NextIsToolMessage(w', job, resume, leg.outcome.abandoned);
    }
    RoundsUnfold(w', job, messages, left + 1);
    hide OneRound, DispatchBatch, Rounds, Approving;
    if batch.Dispatched? {
      RunExtends(w', job, batch.messages, left);
    }
  }

  lemma {:induction false} ApprovedGoesOn(w: World, job: Job, messages: seq<Message>, cap: nat, a: Approval)
    requires Rounds(w, job, messages, cap).outcome.Suspended?
    ensures var leg := Rounds(w, job, messages, cap);
            var run := Rounds(Approving(w, |leg.messages|, a.content, a.isToolError), job, messages, cap);
            && Resumed(leg, a) <= run.messages
            && (leg.outcome.abandoned != [] ==> Dispatches(run, Resumed(leg, a)))
    decreases cap
  {
    hide OneRound, Rounds, Approving;
    RoundsUnfold(w, job, messages, cap);
    var r := OneRound(w, job, messages);
    if r.Over? {
      ApprovedRound(w, job, messages, cap - 1, a);
    } else {
      var leg := Rounds(w, job, messages, cap);
      RunExtends(w, job, r.messages, cap - 1);
      ApprovedGoesOn(w, job, r.messages, cap - 1, a);
      RoundAgreesBefore(w, |leg.messages|, a.content, a.isToolError, job, messages);
      RoundsUnfold(Approving(w, |leg.messages|, a.content, a.isToolError), job, messages, cap);
    }
  }

  /** Later approvals do not take back a dispatch. */
  lemma {:induction false} StillDispatches(
      w: World, job: Job, messages: seq<Message>, cap: nat, approvals: seq<Approval>, r: seq<Message>)
    requires Dispatches(Rounds(w, job, messages, cap), r)
    ensures Dispatches(Rounds(Approved(w, job, messages, cap, approvals), job, messages, cap), r)
    decreases |approvals|
  {
    hide Rounds, Approving;
    var leg := Rounds(w, job, messages, cap);
    if approvals != [] && leg.outcome.Suspended? {
      ApprovedGoesOn(w, job, messages, cap, approvals[0]);
      var w' := Approving(w, |leg.messages|, approvals[0].content, approvals[0].isToolError);
      var next := Rounds(w', job, messages, cap).messages;
      assert next[..|leg.messages|] == leg.messages && next[|leg.messages|].ToolMessage?;
      StillDispatches(w', job, messages, cap, approvals[1..], r);
    }
  }

  lemma {:induction false} LegsExtend(w: World, job: Job, messages: seq<Message>, cap: nat, approvals: seq<Approval>)
    ensures Rounds(w, job, messages, cap).messages <= Legs(w, job, messages, cap, approvals).messages
    decreases |approvals|
  {
    hide Rounds;
    var leg := Rounds(w, job, messages, cap);
    if approvals != [] && leg.outcome.Suspended? && leg.rounds <= cap {
      LegsExtend(w, job, Resumed(leg, approvals[0]), cap - leg.rounds, approvals[1..]);
      RunExtends(w, job, Resumed(leg, approvals[0]), cap - leg.rounds);
    }
  }

  /** A resumed leg begins by asking the provider. */
  lemma LegsAsk(w: World, job: Job, r: seq<Message>, cap: nat, approvals: seq<Approval>)
    ensures Asks(Legs(w, job, r, cap, approvals), r)
  {
    NextIsNoToolMessage(w, job, r, cap);
    RunExtends(w, job, r, cap);
    LegsExtend(w, job, r, cap, approvals);
    hide Rounds;
  }

  /** Once a leg that is resumed has abandoned calls, the chain differs from the run that never suspends. */
  lemma AbandoningLegShows(w: World, job: Job, messages: seq<Message>, cap: nat, approvals: seq<Approval>)
    requires approvals != [] && Rounds(w, job, messages, cap).outcome.Suspended?
    requires |Unanswered(Rounds(w, job, messages, cap).messages)| != 1
    ensures Differ(Rounds(Approved(w, job, messages, cap, approvals), job, messages, cap),
                   Legs(w, job, messages, cap, approvals))
  {
    hide Rounds, Approving, Unanswered;
    var leg := Rounds(w, job, messages, cap);
    SuspendedTranscriptTells(w, job, messages, cap);
    RunExtends(w, job, messages, cap);
    var resume := Resumed(leg, approvals[0]);
    var w' := Approving(w, |leg.messages|, approvals[0].content, approvals[0].isToolError);
    ApprovedGoesOn(w, job, messages, cap, approvals[0]);
    StillDispatches(w', job, messages, cap, approvals[1..], resume);
    LegsAsk(w, job, resume, cap - leg.rounds, approvals[1..]);
  }

  /**
    * A chain of suspensions of any length adds up in outcome, transcript, usage and rounds to the single run whose
    * dispatcher gives every approved result directly, if and only if no leg that is resumed abandons calls. Otherwise
    * the two differ in outcome or transcript.
    */
  lemma {:induction false} ChainIsTransparent(
      w: World, job: Job, messages: seq<Message>, cap: nat, approvals: seq<Approval>)
    ensures var whole := Rounds(Approved(w, job, messages, cap, approvals), job, messages, cap);
            var legs := Legs(w, job, messages, cap, approvals);
            if NothingAbandoned(w, job, messages, cap, approvals) then whole == legs else Differ(whole, legs)
    decreases |approvals|
  {
    hide Rounds, Approving, Unanswered, Differ;
    var leg := Rounds(w, job, messages, cap);
    if approvals != [] && leg.outcome.Suspended? {
      RunExtends(w, job, messages, cap);
      if |Unanswered(leg.messages)| == 1 {
        FirstLegMerges(w, job, messages, cap, approvals[0], approvals[1..]);
        var w' := Approving(w, |leg.messages|, approvals[0].content, approvals[0].isToolError);
        ChainIsTransparent(w', job, messages, cap, approvals[1..]);
      } else {
        AbandoningLegShows(w, job, messages, cap, approvals);
      }
    }
  }
}
