/** What a stream can spell of a reply, and when that is all of it. */
module Spelling {
  import opened Wrappers
  import opened ToolLoop
  import Transparency

  // ---- What a stream spells

  /** A stream carries text arguments only; without any it leaves the empty text. */
  function SpelledCall(c: Call): Call {
    c.(arguments := if c.arguments.ArgText? then c.arguments else ArgText(""))
  }

  function SpelledCalls(calls: seq<Call>): seq<Call> {
    seq(|calls|, i requires 0 <= i < |calls| => SpelledCall(calls[i]))
  }

  /** A legacy function call arrives as a call without an id. */
  function Spelled(reply: Reply): Reply {
    match reply
    case Answered(usage, content, calls) => Answered(usage, content, SpelledCalls(calls))
    case FunctionCalled(usage, content, name, arguments) =>
      Answered(usage, content, [Call(None, Some(name), ArgText(arguments))])
    case _ => reply
  }

  /** The world whose provider says what a stream can spell of its replies. */
  function SpellingWorld(w: World): World {
    w.(provider := (request: Request) => Spelled(w.provider(request)))
  }

  lemma SpellingProvider(w: World, request: Request)
    ensures SpellingWorld(w).provider(request) == Spelled(w.provider(request))
  {
  }

  ghost predicate AllText(calls: seq<Call>) {
    forall k :: 0 <= k < |calls| ==> calls[k].arguments.ArgText?
  }

  /** A message of which a stream loses nothing. */
  ghost predicate Spellable(m: Message) {
    !m.FunctionCall? && (m.Assistant? ==> AllText(m.calls))
  }

  ghost predicate SpellableFrom(n: nat, messages: seq<Message>) {
    forall k :: n <= k < |messages| ==> Spellable(messages[k])
  }

  // ---- What the streaming handler writes back

  /** The text of `call.args` that goes back into the transcript. */
  function SerializeArgs(args: Json): string {
    match args
    case JsonString(text) => text
    case JsonNull => "{}"
    case JsonOther(repr) => repr
  }

  /** A call as the streaming handler writes it back: name present, arguments parsed and re-serialised. */
  function NormalCall(w: World, c: Call): Call {
    Call(c.id, Some(c.name.GetOr("")), ArgText(SerializeArgs(ParseToolArgs(w, c.arguments))))
  }

  function NormalCalls(w: World, calls: seq<Call>): seq<Call> {
    seq(|calls|, i requires 0 <= i < |calls| => NormalCall(w, calls[i]))
  }

  function NormalMessage(w: World, m: Message): Message {
    if m.Assistant? then Assistant(Some(m.text.GetOr("")), NormalCalls(w, m.calls)) else m
  }

  function Normal(w: World, messages: seq<Message>): seq<Message> {
    seq(|messages|, i requires 0 <= i < |messages| => NormalMessage(w, messages[i]))
  }

  function NormalOutcome(w: World, o: Outcome): Outcome {
    if o.Suspended? then o.(call := NormalCall(w, o.call), abandoned := NormalCalls(w, o.abandoned)) else o
  }

  function NormalRun(w: World, run: Run): Run {
    run.(messages := Normal(w, run.messages), outcome := NormalOutcome(w, run.outcome))
  }

  /** The transcripts hold different messages at `i`. */
  predicate PartAt(a: seq<Message>, b: seq<Message>, i: nat) {
    i < |a| && i < |b| && a[i] != b[i]
  }

  lemma NormalAppend(w: World, messages: seq<Message>, m: Message)
    ensures Normal(w, messages + [m]) == Normal(w, messages) + [NormalMessage(w, m)]
  {
  }

  lemma SpelledCallsDiffer(w: World, calls: seq<Call>)
    ensures AllText(calls) ==> SpelledCalls(calls) == calls
    ensures AllText(calls) <==> NormalCalls(w, SpelledCalls(calls)) == NormalCalls(w, calls)
  {
    forall k | 0 <= k < |calls|
      ensures NormalCalls(w, SpelledCalls(calls))[k] == NormalCalls(w, calls)[k] <==> calls[k].arguments.ArgText?
    {
    }
  }

  lemma {:induction false} BatchSpelling(w: World, job: Job, messages: seq<Message>, calls: seq<Call>)
    ensures DispatchBatch(SpellingWorld(w), job, messages, calls) == DispatchBatch(w, job, messages, calls)
    decreases |calls|
  {
    if calls != [] {
      var r := DispatchCall(w, job, |messages|, calls[0]);
      if r.Said? {
        BatchSpelling(w, job, messages + [r.message], calls[1..]);
      }
    }
  }

  // ---- The loop on the replies as they are and as they are spelled

  /** The messages after the provider's own in a round are tool messages. */
  lemma RoundHears(w: World, job: Job, messages: seq<Message>)
    ensures var r := OneRound(w, job, messages);
            var said := if r.Over? then r.run.messages else r.messages;
            var reply := w.provider(RequestFor(job, messages));
            && (reply.Threw? || reply.NoMessage? ==> r.Over? && said == messages)
            && (reply.Answered? || reply.FunctionCalled? ==> messages + [MessageOf(reply)] <= said)
            && forall k :: |messages| < k < |said| ==> said[k].ToolMessage?
  {
    var reply := w.provider(RequestFor(job, messages));
    if reply.Answered? {
      var heard := messages + [MessageOf(reply)];
      EveryCallIsAnswered(w, job, heard, reply.calls);
      BatchHears(w, job, heard, reply.calls);
    }
  }

  lemma BatchHears(w: World, job: Job, heard: seq<Message>, calls: seq<Call>)
    ensures var r := DispatchBatch(w, job, heard, calls);
            heard <= r.messages && forall k :: |heard| <= k < |r.messages| ==> r.messages[k].ToolMessage?
  {
    hide DispatchBatch;
    EveryCallIsAnswered(w, job, heard, calls);
    var r := DispatchBatch(w, job, heard, calls);
    forall k | |heard| <= k < |r.messages|
      ensures r.messages[k].ToolMessage?
    {
      var answered := if r.Dispatched? then calls else calls[..|r.messages| - |heard|];
      assert AnswerTo(r.messages[k], answered[k - |heard|]);
    }
  }

  /** A round whose message can be spelled is the same round. */
  lemma RoundSpelled(w: World, job: Job, messages: seq<Message>)
    requires var reply := w.provider(RequestFor(job, messages));
             reply.Answered? || reply.FunctionCalled? ==> Spellable(MessageOf(reply))
    ensures OneRound(SpellingWorld(w), job, messages) == OneRound(w, job, messages)
  {
    var reply := w.provider(RequestFor(job, messages));
    if reply.Answered? {
      SpelledCallsDiffer(w, reply.calls);
      BatchSpelling(w, job, messages + [MessageOf(reply)], reply.calls);
    }
    hide DispatchBatch, RequestFor, SpelledCalls;
  }

  /** A run whose appended messages can all be spelled is the run on the replies as they are spelled. */
  lemma {:induction false} SpellableRunIsSpelled(w: World, job: Job, messages: seq<Message>, left: nat)
    requires SpellableFrom(|messages|, Rounds(w, job, messages, left).messages)
    ensures Rounds(SpellingWorld(w), job, messages, left) == Rounds(w, job, messages, left)
    decreases left
  {
    Transparency.RoundsUnfold(w, job, messages, left);
    Transparency.RoundsUnfold(SpellingWorld(w), job, messages, left);
    hide OneRound, Rounds, SpellingWorld, Spellable;
    if left > 0 {
      RoundHears(w, job, messages);
      var r := OneRound(w, job, messages);
      if r.GoesOn? {
        Transparency.RunExtends(w, job, r.messages, left - 1);
      }
      var run := Rounds(w, job, messages, left);
      var reply := w.provider(RequestFor(job, messages));
      if reply.Answered? || reply.FunctionCalled? {
        assert run.messages[|messages|] == MessageOf(reply);
      }
      RoundSpelled(w, job, messages);
      if r.GoesOn? {
        SpellableRunIsSpelled(w, job, r.messages, left - 1);
      }
    }
  }

  /** The first message that cannot be spelled is a different one when spelled, normalised or not. */
  lemma UnspellableRoundShows(w: World, job: Job, messages: seq<Message>)
    requires var reply := w.provider(RequestFor(job, messages));
             (reply.Answered? || reply.FunctionCalled?) && !Spellable(MessageOf(reply))
    ensures var reply := w.provider(RequestFor(job, messages));
            && Spelled(reply).Answered?
            && NormalMessage(w, MessageOf(Spelled(reply))) != NormalMessage(w, MessageOf(reply))
  {
    var reply := w.provider(RequestFor(job, messages));
    if reply.Answered? {
      SpelledCallsDiffer(w, reply.calls);
    }
  }

  /** If some appended message cannot be spelled, the spelled run parts from the run there, and no
      normalisation hides it. */
  lemma {:induction false} UnspellableShows(w: World, job: Job, messages: seq<Message>, left: nat) returns (i: nat)
    requires !SpellableFrom(|messages|, Rounds(w, job, messages, left).messages)
    ensures PartAt(Normal(w, Rounds(SpellingWorld(w), job, messages, left).messages),
                   Normal(w, Rounds(w, job, messages, left).messages), i)
    decreases left
  {
    Transparency.RoundsUnfold(w, job, messages, left);
    Transparency.RoundsUnfold(SpellingWorld(w), job, messages, left);
    hide OneRound, Rounds, Spellable, NormalMessage, RequestFor;
    RoundHears(w, job, messages);
    RoundHears(SpellingWorld(w), job, messages);
    var r, s := OneRound(w, job, messages), OneRound(SpellingWorld(w), job, messages);
    if r.GoesOn? {
      Transparency.RunExtends(w, job, r.messages, left - 1);
    }
    if s.GoesOn? {
      Transparency.RunExtends(SpellingWorld(w), job, s.messages, left - 1);
    }
    var run, spelled := Rounds(w, job, messages, left), Rounds(SpellingWorld(w), job, messages, left);
    var reply := w.provider(RequestFor(job, messages));
    if (reply.Answered? || reply.FunctionCalled?) && !Spellable(MessageOf(reply)) {
      UnspellableRoundShows(w, job, messages);
      i := |messages|;
      assert run.messages[i] == MessageOf(reply) && spelled.messages[i] == MessageOf(Spelled(reply));
    } else {
      RoundSpelled(w, job, messages);
      OnlyLaterUnspellable(w, job, messages, left);
      i := UnspellableShows(w, job, r.messages, left - 1);
    }
  }

  /** After a round whose message can be spelled, any other is later. */
  lemma OnlyLaterUnspellable(w: World, job: Job, messages: seq<Message>, left: nat)
    requires !SpellableFrom(|messages|, Rounds(w, job, messages, left).messages)
    requires var reply := w.provider(RequestFor(job, messages));
             reply.Answered? || reply.FunctionCalled? ==> Spellable(MessageOf(reply))
    ensures left > 0 && OneRound(w, job, messages).GoesOn?
    ensures var r := OneRound(w, job, messages);
            !SpellableFrom(|r.messages|, Rounds(w, job, r.messages, left - 1).messages)
  {
    Transparency.RoundsUnfold(w, job, messages, left);
    hide OneRound, Rounds, RequestFor;
    RoundHears(w, job, messages);
    var r := OneRound(w, job, messages);
    var run := Rounds(w, job, messages, left);
    var k :| |messages| <= k < |run.messages| && !Spellable(run.messages[k]);
    if left > 0 && r.GoesOn? {
      Transparency.RunExtends(w, job, r.messages, left - 1);
      if k < |r.messages| {
        assert run.messages[k] == r.messages[k];
      }
    }
  }
}
