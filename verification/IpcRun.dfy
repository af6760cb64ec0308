/**
  * Two adapters joined by FIFO channels: every interleaving of requests, deliveries, timers, start and stop,
  * handler steps, chunk callbacks and settlements.
  */
module IpcRun {
  import opened Wrappers
  import opened IpcView

  type Id = int

  /** The caller's side of one request: its pending entry, its timer, its chunk chain and its promise. */
  datatype Caller = Caller(
    streaming: bool, pending: bool, armed: bool, queue: seq<Maybe>, final: Option<Outcome>,
    delivered: seq<Maybe>, settled: seq<Outcome>)

  // ----- steps of the caller -----

  function Opened(streaming: bool): Caller {
    Caller(streaming, true, true, [], None, [], [])
  }

  /** The entry leaves the pending map, its timer is cleared and its promise settles. */
  function Cut(c: Caller, reason: Reason): Caller {
    c.(pending := false, armed := false, settled := c.settled + [Rejected(reason)])
  }

  /** `_handleResponse`. */
  function OnEnvelope(c: Caller, e: Envelope): Caller {
    if !c.pending then c
    else match Route(c.streaming, e)
      case Skip => c
      case Deliver(chunk) => c.(queue := c.queue + [chunk])
      case End(Rejected(reason)) => Cut(c, reason)
      case End(o) =>
        if c.streaming then c.(pending := false, armed := false, final := Some(o))
        else c.(pending := false, armed := false, settled := c.settled + [o])
  }

  /** The timer fires; its callback ignores an entry that is gone. */
  function OnTimer(c: Caller): Caller {
    if !c.armed then c else if !c.pending then c.(armed := false) else Cut(c, TimedOut)
  }

  function OnStop(c: Caller): Caller {
    if c.pending then Cut(c, Stopped) else c
  }

  /** The next link of the chunk chain runs `onChunk`. */
  function OnChunk(c: Caller): Caller {
    if c.queue == [] then c else c.(queue := c.queue[1..], delivered := c.delivered + [c.queue[0]])
  }

  /** The end of the chunk chain resolves the promise. */
  function OnDrained(c: Caller): Caller {
    if c.final.None? || c.queue != [] then c else c.(final := None, settled := c.settled + [c.final.value])
  }

  // ----- one request is always in exactly one place -----

  function One(b: bool): nat {
    if b then 1 else 0
  }

  /** A promise settled by the peer's answer rather than by a timeout, a stop or a failed send. */
  predicate ByPeer(o: Outcome) {
    o.Resolved? || o.reason.Remote?
  }

  /** The caller agrees with its view of the envelopes `w` that reached it. */
  predicate Agrees(c: Caller, w: seq<Envelope>) {
    var v := View(c.streaming, w);
    var seen := c.delivered + c.queue;
    && c.armed == c.pending
    && |c.settled| + One(c.pending) + One(c.final.Some?) == 1
    && (c.pending || c.final.Some? ==> v == Sight(seen, c.final))
    && (c.final.Some? ==> c.streaming && c.final.value.Resolved?)
    && (c.settled != [] ==>
          if ByPeer(c.settled[0])
          then v == Sight(seen, Some(c.settled[0])) && (c.settled[0].Resolved? ==> c.queue == [])
          else seen <= v.chunks)
    && (!c.streaming ==> seen == [])
  }

  lemma EnvelopeKeepsAgreement(c: Caller, w: seq<Envelope>, e: Envelope)
    requires Agrees(c, w)
    ensures Agrees(OnEnvelope(c, e), w + [e])
  {
    ViewSnoc(c.streaming, w, e);
    var v := View(c.streaming, w);
    if c.pending && Route(c.streaming, e).Deliver? {
      var chunk := Route(c.streaming, e).chunk;
      assert c.delivered + (c.queue + [chunk]) == (c.delivered + c.queue) + [chunk];
    }
  }

  lemma CallerStepKeepsAgreement(c: Caller, w: seq<Envelope>)
    requires Agrees(c, w)
    ensures Agrees(OnTimer(c), w) && Agrees(OnStop(c), w) && Agrees(OnChunk(c), w) && Agrees(OnDrained(c), w)
  {
    if c.queue != [] {
      assert (c.delivered + [c.queue[0]]) + c.queue[1..] == c.delivered + c.queue;
    }
  }

  /** An envelope lost while the entry is not pending makes no difference. */
  lemma LossIsHarmlessIfGone(c: Caller, w: seq<Envelope>, e: Envelope)
    requires Agrees(c, w) && !c.pending
    ensures Agrees(c, w + [e])
  {
    ViewSnoc(c.streaming, w, e);
  }

  // ----- the whole system -----

  /**
    * One request on both sides. `sent` logs the peer's envelopes for it and `got` counts those that have left the
    * channel; `early` says that it was made while its adapter was not listening.
    */
  datatype Req = Req(caller: Caller, handler: Option<Handler>, sent: seq<Envelope>, got: nat, early: bool, lost: bool)

  datatype Sys = Sys(
    listening: bool, kernel: bool, reqs: map<Id, Req>, toPeer: seq<Id>, toCaller: seq<(Id, Envelope)>)

  datatype Op =
    | Start
    | Stop
    | Send(id: Id, streaming: bool, throws: bool)
    | PeerReceives
    | PeerLoses
    | Emit(id: Id, chunk: Maybe)
    | Finish(id: Id, reply: Reply)
    | CallerReceives
    | CallerLoses
    | TimerFires(id: Id)
    | ChunkRuns(id: Id)
    | Drains(id: Id)

  const METHOD_NOT_FOUND := -32601

  function WithCaller(s: Sys, id: Id, c: Caller): Sys
    requires id in s.reqs
  {
    s.(reqs := s.reqs[id := s.reqs[id].(caller := c)])
  }

  /** `_sendRequest`; an id in use is never drawn again. */
  function Sent(s: Sys, id: Id, streaming: bool, throws: bool): Sys {
    if id in s.reqs then s
    else
      var c := if throws then Cut(Opened(streaming), SendFailed) else Opened(streaming);
      s.(reqs := s.reqs[id := Req(c, None, [], 0, !s.listening, false)],
         toPeer := if throws then s.toPeer else s.toPeer + [id])
  }

  /** The handler's next envelope enters the channel. */
  function Posted(s: Sys, id: Id, h: Handler, e: Envelope): Sys
    requires id in s.reqs
  {
    s.(reqs := s.reqs[id := s.reqs[id].(handler := Some(h), sent := s.reqs[id].sent + [e])],
       toCaller := s.toCaller + [(id, e)])
  }

  /** `_handleRequest`: start the handler, or refuse when no kernel is attached. */
  function PeerReceived(s: Sys): Sys {
    if s.toPeer == [] || s.toPeer[0] !in s.reqs then s
    else
      var id := s.toPeer[0];
      var t := s.(toPeer := s.toPeer[1..]);
      if s.kernel then t.(reqs := t.reqs[id := t.reqs[id].(handler := Some(Handler([], None, [])))])
      else Posted(t, id, Handler([], Some(Threw(METHOD_NOT_FOUND)), []), Fault(METHOD_NOT_FOUND))
  }

  function Emitted(s: Sys, id: Id, chunk: Maybe): Sys {
    if id !in s.reqs || s.reqs[id].handler.None? then s
    else
      var h := s.reqs[id].handler.value;
      var g := if h.reply.None? then h.(emitted := h.emitted + [chunk]) else h.(late := h.late + [chunk]);
      Posted(s, id, g, Piece(chunk))
  }

  function Finished(s: Sys, id: Id, reply: Reply): Sys {
    if id !in s.reqs || s.reqs[id].handler.None? || s.reqs[id].handler.value.reply.Some? then s
    else
      var h := s.reqs[id].handler.value;
      Posted(s, id, h.(reply := Some(reply)), Closing(h.emitted != [], reply))
  }

  function CallerReceived(s: Sys): Sys {
    if !s.listening || s.toCaller == [] || s.toCaller[0].0 !in s.reqs then s
    else
      var (id, e) := s.toCaller[0];
      var r := s.reqs[id];
      s.(toCaller := s.toCaller[1..], reqs := s.reqs[id := r.(caller := OnEnvelope(r.caller, e), got := r.got + 1)])
  }

  /** A message that arrives while no listener is attached may be gone. */
  function CallerLost(s: Sys): Sys {
    if s.listening || s.toCaller == [] || s.toCaller[0].0 !in s.reqs then s
    else
      var id := s.toCaller[0].0;
      var r := s.reqs[id];
      s.(toCaller := s.toCaller[1..], reqs := s.reqs[id := r.(got := r.got + 1, lost := r.lost || r.caller.pending)])
  }

  /** `stop`, which does nothing on an adapter that was not started. */
  function StoppedAll(s: Sys): Sys {
    if !s.listening then s
    else s.(listening := false, reqs := map id | id in s.reqs :: s.reqs[id].(caller := OnStop(s.reqs[id].caller)))
  }

  function Step(s: Sys, op: Op): Sys {
    match op
    case Start => s.(listening := true)
    case Stop => StoppedAll(s)
    case Send(id, streaming, throws) => Sent(s, id, streaming, throws)
    case PeerReceives => PeerReceived(s)
    case PeerLoses => if s.toPeer == [] then s else s.(toPeer := s.toPeer[1..])
    case Emit(id, chunk) => Emitted(s, id, chunk)
    case Finish(id, reply) => Finished(s, id, reply)
    case CallerReceives => CallerReceived(s)
    case CallerLoses => CallerLost(s)
    case TimerFires(id) => if id in s.reqs then WithCaller(s, id, OnTimer(s.reqs[id].caller)) else s
    case ChunkRuns(id) => if id in s.reqs then WithCaller(s, id, OnChunk(s.reqs[id].caller)) else s
    case Drains(id) => if id in s.reqs then WithCaller(s, id, OnDrained(s.reqs[id].caller)) else s
  }

  function Run(s: Sys, ops: seq<Op>): Sys
    decreases |ops|
  {
    if ops == [] then s else Run(Step(s, ops[0]), ops[1..])
  }

  /** Two adapters before anything was sent; the peer may or may not have a kernel attached. */
  function Idle(kernel: bool): Sys {
    Sys(false, kernel, map[], [], [])
  }

  // ----- the invariant, one request at a time -----

  /** The envelopes for `id` in the channel, in order. */
  function For(id: Id, ch: seq<(Id, Envelope)>): seq<Envelope>
    decreases |ch|
  {
    if ch == [] then [] else if ch[0].0 == id then [ch[0].1] + For(id, ch[1..]) else For(id, ch[1..])
  }

  function Asked(id: Id, ch: seq<Id>): nat
    decreases |ch|
  {
    if ch == [] then 0 else One(ch[0] == id) + Asked(id, ch[1..])
  }

  lemma {:induction false} ForSnoc(id: Id, ch: seq<(Id, Envelope)>, m: (Id, Envelope))
    ensures For(id, ch + [m]) == For(id, ch) + (if m.0 == id then [m.1] else [])
    decreases |ch|
  {
    if ch == [] {
      assert ch + [m] == [m];
    } else {
      assert (ch + [m])[1..] == ch[1..] + [m];
      ForSnoc(id, ch[1..], m);
    }
  }

  lemma {:induction false} AskedSnoc(id: Id, ch: seq<Id>, x: Id)
    ensures Asked(id, ch + [x]) == Asked(id, ch) + One(x == id)
    decreases |ch|
  {
    if ch == [] {
      assert ch + [x] == [x];
    } else {
      assert (ch + [x])[1..] == ch[1..] + [x];
      AskedSnoc(id, ch[1..], x);
    }
  }

  /** The envelopes for a request that have left the channel. */
  function Read(r: Req): seq<Envelope> {
    if r.got <= |r.sent| then r.sent[..r.got] else r.sent
  }

  /** What holds at `id` in every reachable state. */
  predicate Ok(s: Sys, id: Id) {
    if id !in s.reqs then For(id, s.toCaller) == [] && Asked(id, s.toPeer) == 0
    else
      var r := s.reqs[id];
      && Asked(id, s.toPeer) + One(r.handler.Some?) <= 1
      && r.sent == (if r.handler.None? then [] else Script(r.handler.value))
      && (r.handler.Some? && r.handler.value.reply.None? ==> r.handler.value.late == [])
      && r.got <= |r.sent|
      && For(id, s.toCaller) == r.sent[r.got..]
      && (r.lost ==> r.early)
      && (!r.early && r.caller.pending ==> s.listening)
      && Counted(r.caller)
      && (!r.lost ==> Agrees(r.caller, Read(r)))
  }

  /** The part of the agreement that survives even lost messages. */
  predicate Counted(c: Caller) {
    c.armed == c.pending && |c.settled| + One(c.pending) + One(c.final.Some?) == 1
  }

  ghost predicate Sound(s: Sys) {
    forall id {:trigger Ok(s, id)} :: Ok(s, id)
  }

  lemma OkHere(s: Sys, id: Id)
    requires Sound(s)
    ensures Ok(s, id)
  {
  }

  lemma SentKeeps(s: Sys, id: Id, streaming: bool, throws: bool, x: Id)
    requires Ok(s, x)
    ensures Ok(Sent(s, id, streaming, throws), x)
  {
    AskedSnoc(x, s.toPeer, id);
  }

  lemma ScriptGrows(h: Handler, chunk: Maybe, reply: Reply)
    ensures h.reply.None? ==> Script(h.(emitted := h.emitted + [chunk])) == Script(h) + [Piece(chunk)]
    ensures h.reply.Some? ==> Script(h.(late := h.late + [chunk])) == Script(h) + [Piece(chunk)]
    ensures h.reply.None? && h.late == [] ==>
            Script(h.(reply := Some(reply))) == Script(h) + [Closing(h.emitted != [], reply)]
  {
    PiecesSnoc(h.emitted, chunk);
    PiecesSnoc(h.late, chunk);
  }

  lemma ReadPosted(r: Req, h: Handler, e: Envelope)
    requires r.got <= |r.sent|
    ensures Read(r.(handler := Some(h), sent := r.sent + [e])) == Read(r)
    ensures (r.sent + [e])[r.got..] == r.sent[r.got..] + [e]
  {
    assert (r.sent + [e])[..r.got] == r.sent[..r.got];
  }

  lemma PostedKeeps(s: Sys, id: Id, h: Handler, e: Envelope, x: Id)
    requires Ok(s, x) && Ok(s, id) && id in s.reqs
    requires Script(h) == s.reqs[id].sent + [e]
    requires s.reqs[id].handler.None? ==> Asked(id, s.toPeer) == 0
    requires h.reply.None? ==> h.late == []
    ensures Ok(Posted(s, id, h, e), x)
  {
    hide Agrees, Script, Counted, Read, Asked;
    ForSnoc(x, s.toCaller, (id, e));
    if x == id {
      var r := s.reqs[id];
      ReadPosted(r, h, e);
    }
  }

  lemma PeerReceivedIsSound(s: Sys)
    requires Sound(s)
    ensures Sound(PeerReceived(s))
  {
    hide Agrees, Counted, Posted;
    if s.toPeer != [] && s.toPeer[0] in s.reqs {
      var id := s.toPeer[0];
      var t := s.(toPeer := s.toPeer[1..]);
      OkHere(s, id);
      assert Asked(id, s.toPeer) == 1 + Asked(id, t.toPeer);
      forall x ensures Ok(PeerReceived(s), x) {
        OkHere(s, x);
        assert Asked(x, s.toPeer) == One(id == x) + Asked(x, t.toPeer);
        if !s.kernel {
          PostedKeeps(t, id, Handler([], Some(Threw(METHOD_NOT_FOUND)), []), Fault(METHOD_NOT_FOUND), x);
        }
      }
    }
  }

  lemma EmittedIsSound(s: Sys, id: Id, chunk: Maybe)
    requires Sound(s)
    ensures Sound(Emitted(s, id, chunk))
  {
    hide Agrees, Counted, Posted, Script;
    OkHere(s, id);
    if id in s.reqs && s.reqs[id].handler.Some? {
      var h := s.reqs[id].handler.value;
      ScriptGrows(h, chunk, Threw(0));
      var g := if h.reply.None? then h.(emitted := h.emitted + [chunk]) else h.(late := h.late + [chunk]);
      forall x ensures Ok(Posted(s, id, g, Piece(chunk)), x) {
        OkHere(s, x);
        PostedKeeps(s, id, g, Piece(chunk), x);
      }
    }
  }

  lemma FinishedIsSound(s: Sys, id: Id, reply: Reply)
    requires Sound(s)
    ensures Sound(Finished(s, id, reply))
  {
    hide Agrees, Counted, Posted, Script;
    OkHere(s, id);
    if id in s.reqs && s.reqs[id].handler.Some? && s.reqs[id].handler.value.reply.None? {
      var h := s.reqs[id].handler.value;
      ScriptGrows(h, None, reply);
      var e := Closing(h.emitted != [], reply);
      forall x ensures Ok(Posted(s, id, h.(reply := Some(reply)), e), x) {
        OkHere(s, x);
        PostedKeeps(s, id, h.(reply := Some(reply)), e, x);
      }
    }
  }

  /** The head of the channel is the next unread envelope of its request. */
  lemma HeadIsNext(s: Sys)
    requires s.toCaller != [] && s.toCaller[0].0 in s.reqs && Ok(s, s.toCaller[0].0)
    ensures var (id, e) := s.toCaller[0];
            var r := s.reqs[id];
            && r.got < |r.sent| && e == r.sent[r.got] && For(id, s.toCaller[1..]) == r.sent[r.got + 1..]
            && r.sent[..r.got + 1] == r.sent[..r.got] + [e]
  {
    hide Agrees, Counted, Script;
    var (id, e) := s.toCaller[0];
    var r := s.reqs[id];
    assert For(id, s.toCaller) == [e] + For(id, s.toCaller[1..]);
    assert r.sent[r.got..][0] == e;
    assert r.sent[r.got..][1..] == r.sent[r.got + 1..];
  }

  lemma CountedKept(c: Caller, e: Envelope)
    requires Counted(c)
    ensures Counted(OnEnvelope(c, e)) && Counted(OnTimer(c)) && Counted(OnStop(c)) && Counted(OnChunk(c))
            && Counted(OnDrained(c))
    ensures !OnStop(c).pending
    ensures OnEnvelope(c, e).pending ==> c.pending
    ensures OnTimer(c).pending ==> c.pending
    ensures OnChunk(c).pending == c.pending && OnDrained(c).pending == c.pending
  {
  }

  /** The head of the channel has been taken out, and its request's caller is now `c`. */
  function Taken(s: Sys, c: Caller, lost: bool): Sys
    requires s.toCaller != [] && s.toCaller[0].0 in s.reqs
  {
    var id := s.toCaller[0].0;
    s.(toCaller := s.toCaller[1..],
       reqs := s.reqs[id := s.reqs[id].(caller := c, got := s.reqs[id].got + 1, lost := lost)])
  }

  lemma TakenIsSound(s: Sys, c: Caller, lost: bool)
    requires Sound(s) && s.toCaller != [] && s.toCaller[0].0 in s.reqs
    requires var (id, e) := s.toCaller[0];
             var r := s.reqs[id];
             && Counted(c) && (c.pending ==> r.caller.pending) && (lost ==> r.early)
             && (!lost ==> Agrees(c, Read(r) + [e]))
    ensures Sound(Taken(s, c, lost))
  {
    hide Agrees, Counted, Script;
    var id := s.toCaller[0].0;
    OkHere(s, id);
    HeadIsNext(s);
    forall x ensures Ok(Taken(s, c, lost), x) {
      OkHere(s, x);
    }
  }

  lemma CallerReceivedIsSound(s: Sys)
    requires Sound(s)
    ensures Sound(CallerReceived(s))
  {
    hide Agrees, Counted, Script, OnEnvelope, Sound, Read;
    if s.listening && s.toCaller != [] && s.toCaller[0].0 in s.reqs {
      var (id, e) := s.toCaller[0];
      var r := s.reqs[id];
      ReadAgrees(s, id);
      OkHere(s, id);
      CountedKept(r.caller, e);
      if !r.lost {
        EnvelopeKeepsAgreement(r.caller, Read(r), e);
      }
      TakenIsSound(s, OnEnvelope(r.caller, e), r.lost);
    }
  }

  lemma CallerLostIsSound(s: Sys)
    requires Sound(s)
    ensures Sound(CallerLost(s))
  {
    hide Agrees, Counted, Script, Sound, Read;
    if !s.listening && s.toCaller != [] && s.toCaller[0].0 in s.reqs {
      var (id, e) := s.toCaller[0];
      var r := s.reqs[id];
      ReadAgrees(s, id);
      OkHere(s, id);
      if !r.lost && !r.caller.pending {
        LossIsHarmlessIfGone(r.caller, Read(r), e);
      }
      TakenIsSound(s, r.caller, r.lost || r.caller.pending);
    }
  }

  lemma StoppedIsSound(s: Sys)
    requires Sound(s)
    ensures Sound(StoppedAll(s))
  {
    hide Agrees, Counted, Script, OnStop;
    forall x ensures Ok(StoppedAll(s), x) {
      OkHere(s, x);
      if x in s.reqs {
        CountedKept(s.reqs[x].caller, Answer(None));
        if !s.reqs[x].lost {
          CallerStepKeepsAgreement(s.reqs[x].caller, s.reqs[x].sent[..s.reqs[x].got]);
        }
      }
    }
  }

  /** A step of one caller alone. */
  lemma CallerMoveIsSound(s: Sys, id: Id, c: Caller)
    requires Sound(s) && id in s.reqs && Counted(c) && (c.pending ==> s.reqs[id].caller.pending)
    requires !s.reqs[id].lost ==> Agrees(c, Read(s.reqs[id]))
    ensures Sound(WithCaller(s, id, c))
  {
    hide Agrees, Counted, Script;
    forall x ensures Ok(WithCaller(s, id, c), x) {
      OkHere(s, x);
    }
  }

  lemma ReadAgrees(s: Sys, id: Id)
    requires Sound(s) && id in s.reqs
    ensures Counted(s.reqs[id].caller) && (!s.reqs[id].lost ==> Agrees(s.reqs[id].caller, Read(s.reqs[id])))
  {
    hide Agrees, Counted, Script;
    OkHere(s, id);
  }

  lemma CallerStepIsSound(s: Sys, id: Id)
    requires Sound(s) && id in s.reqs
    ensures Sound(WithCaller(s, id, OnTimer(s.reqs[id].caller)))
    ensures Sound(WithCaller(s, id, OnChunk(s.reqs[id].caller)))
    ensures Sound(WithCaller(s, id, OnDrained(s.reqs[id].caller)))
  {
    hide Agrees, Counted, Sound, Read, WithCaller, OnTimer, OnChunk, OnDrained;
    var c := s.reqs[id].caller;
    ReadAgrees(s, id);
    CountedKept(c, Answer(None));
    if !s.reqs[id].lost {
      CallerStepKeepsAgreement(c, Read(s.reqs[id]));
    }
    CallerMoveIsSound(s, id, OnTimer(c));
    CallerMoveIsSound(s, id, OnChunk(c));
    CallerMoveIsSound(s, id, OnDrained(c));
  }

  lemma OtherStepIsSound(s: Sys, op: Op)
    requires Sound(s) && (op.Start? || op.Send? || op.PeerLoses?)
    ensures Sound(Step(s, op))
  {
    hide Agrees, Counted, Script, Sent;
    forall x ensures Ok(Step(s, op), x) {
      OkHere(s, x);
      match op
      case Send(id, streaming, throws) => SentKeeps(s, id, streaming, throws, x);
      case _ =>
    }
  }

  lemma StepIsSound(s: Sys, op: Op)
    requires Sound(s)
    ensures Sound(Step(s, op))
  {
    hide Sound, PeerReceived, Emitted, Finished, CallerReceived, CallerLost, StoppedAll, Sent, OnTimer,
      OnChunk, OnDrained;
    match op
    case Stop => StoppedIsSound(s);
    case PeerReceives => PeerReceivedIsSound(s);
    case Emit(id, chunk) => EmittedIsSound(s, id, chunk);
    case Finish(id, reply) => FinishedIsSound(s, id, reply);
    case CallerReceives => CallerReceivedIsSound(s);
    case CallerLoses => CallerLostIsSound(s);
    case TimerFires(id) => if id in s.reqs { CallerStepIsSound(s, id); }
    case ChunkRuns(id) => if id in s.reqs { CallerStepIsSound(s, id); }
    case Drains(id) => if id in s.reqs { CallerStepIsSound(s, id); }
    case _ => OtherStepIsSound(s, op);
  }

  lemma {:induction false} RunIsSound(s: Sys, ops: seq<Op>)
    requires Sound(s)
    ensures Sound(Run(s, ops))
    decreases |ops|
  {
    hide Sound, Step;
    if ops != [] {
      StepIsSound(s, ops[0]);
      RunIsSound(Step(s, ops[0]), ops[1..]);
    }
  }

  lemma ReachableIsOk(kernel: bool, ops: seq<Op>, id: Id)
    ensures Ok(Run(Idle(kernel), ops), id)
  {
    hide Run;
    forall x ensures Ok(Idle(kernel), x) {}
    RunIsSound(Idle(kernel), ops);
  }

  // ----- the results -----

  /**
    * Under every interleaving a request is pending with its timer armed, or draining its chunks, or settled,
    * and never in two of these at once: so it settles at most once and is out of the pending map by then.
    */
  lemma SettlesAtMostOnce(kernel: bool, ops: seq<Op>, id: Id)
    ensures var s := Run(Idle(kernel), ops);
            id in s.reqs ==>
              var c := s.reqs[id].caller;
              && |c.settled| <= 1
              && (c.settled != [] ==> !c.pending && c.final.None?)
              && (c.pending <==> c.armed)
              && (!c.pending && c.final.None? ==> c.settled != [])
  {
    hide Run;
    ReachableIsOk(kernel, ops, id);
  }

  /**
    * A stream whose handler emitted at least one chunk delivers the emitted chunks in order, and all of them before
    * it resolves, with the handler's own value. It needs only that the adapter was listening when the request was made.
    */
  lemma StreamIsExact(kernel: bool, ops: seq<Op>, id: Id)
    ensures var s := Run(Idle(kernel), ops);
            id in s.reqs && !s.reqs[id].early && s.reqs[id].caller.streaming
            && s.reqs[id].handler.Some? && s.reqs[id].handler.value.emitted != [] ==>
              var c := s.reqs[id].caller;
              var h := s.reqs[id].handler.value;
              && c.delivered <= h.emitted
              && (c.settled != [] && c.settled[0].Resolved? ==>
                    h.reply == Some(Returned(c.settled[0].value)) && c.delivered == h.emitted)
              && (c.settled != [] && c.settled[0].Rejected? && c.settled[0].reason.Remote? ==>
                    h.reply == Some(Threw(c.settled[0].reason.error)) && c.delivered + c.queue == h.emitted)
  {
    hide Run, Script;
    ReachableIsOk(kernel, ops, id);
    var s := Run(Idle(kernel), ops);
    if id in s.reqs && !s.reqs[id].early && s.reqs[id].caller.streaming
       && s.reqs[id].handler.Some? && s.reqs[id].handler.value.emitted != [] {
      StreamSeesAll(s.reqs[id].handler.value, s.reqs[id].got);
    }
  }

  lemma RunMore(s: Sys, op: Op, ops: seq<Op>)
    ensures Run(s, [op] + ops) == Run(Step(s, op), ops)
  {
    assert ([op] + ops)[1..] == ops;
  }

  /** A stream requested early whose first chunk was lost. */
  const MISSED := Sys(false, true,
    map[7 := Req(Opened(true), Some(Handler([Some(Atom(1))], None, [])), [Piece(Some(Atom(1)))], 1, true, true)],
    [], [])

  lemma FirstChunkIsLost()
    ensures Run(Idle(true), [Send(7, true, false), PeerReceives, Emit(7, Some(Atom(1))), CallerLoses]) == MISSED
  {
    hide Run;
    RunSteps(Idle(true), [Send(7, true, false), PeerReceives, Emit(7, Some(Atom(1))), CallerLoses]);
    var s1 := Sent(Idle(true), 7, true, false);
    assert s1 == Sys(false, true, map[7 := Req(Opened(true), None, [], 0, true, false)], [7], []);
    var s2 := PeerReceived(s1);
    assert s2 == Sys(false, true, map[7 := Req(Opened(true), Some(Handler([], None, [])), [], 0, true, false)], [], []);
    var s3 := Emitted(s2, 7, Some(Atom(1)));
    assert s3.toCaller == [(7, Piece(Some(Atom(1))))];
    assert s3.reqs[7].sent == [Piece(Some(Atom(1)))] && s3.reqs[7].handler.value.emitted == [Some(Atom(1))];
    assert CallerLost(s3) == MISSED;
  }

  lemma TheRestArrives()
    ensures var s := Run(MISSED, [Start, Finish(7, Returned(Some(Atom(2)))), CallerReceives, Drains(7)]);
            && 7 in s.reqs && s.reqs[7].handler == Some(Handler([Some(Atom(1))], Some(Returned(Some(Atom(2)))), []))
            && s.reqs[7].caller.settled == [Resolved(Some(Atom(2)))] && s.reqs[7].caller.delivered == []
               && s.reqs[7].caller.streaming
  {
    hide Run;
    RunSteps(MISSED, [Start, Finish(7, Returned(Some(Atom(2)))), CallerReceives, Drains(7)]);
    var s1 := MISSED.(listening := true);
    var s2 := Finished(s1, 7, Returned(Some(Atom(2))));
    assert s2.toCaller == [(7, Closing(true, Returned(Some(Atom(2)))))];
    var s3 := CallerReceived(s2);
    assert s3.reqs[7].caller.final == Some(Resolved(Some(Atom(2))));
  }

  /** Why the adapter must listen when the request is made: otherwise a stream can resolve without its first chunk. */
  lemma EarlyStreamCanMissAChunk()
    ensures exists ops, id ::
              var s := Run(Idle(true), ops);
              && id in s.reqs && s.reqs[id].caller.streaming && s.reqs[id].handler.Some?
              && s.reqs[id].caller.settled != [] && s.reqs[id].caller.settled[0].Resolved?
              && s.reqs[id].handler.value.emitted != []
                 && s.reqs[id].caller.delivered != s.reqs[id].handler.value.emitted
  {
    hide Run;
    var a := [Send(7, true, false), PeerReceives, Emit(7, Some(Atom(1))), CallerLoses];
    var b := [Start, Finish(7, Returned(Some(Atom(2)))), CallerReceives, Drains(7)];
    FirstChunkIsLost();
    TheRestArrives();
    RunSplit(Idle(true), a, b);
    var s := Run(Idle(true), a + b);
    assert 7 in s.reqs;
  }

  lemma RunSteps(s: Sys, ops: seq<Op>)
    requires |ops| == 4
    ensures Run(s, ops) == Step(Step(Step(Step(s, ops[0]), ops[1]), ops[2]), ops[3])
  {
    hide Step;
    assert ops == [ops[0]] + ([ops[1]] + ([ops[2]] + ([ops[3]] + [])));
    RunMore(s, ops[0], [ops[1]] + ([ops[2]] + ([ops[3]] + [])));
    var s1 := Step(s, ops[0]);
    RunMore(s1, ops[1], [ops[2]] + ([ops[3]] + []));
    RunMore(Step(s1, ops[1]), ops[2], [ops[3]] + []);
    RunMore(Step(Step(s1, ops[1]), ops[2]), ops[3], []);
  }

  lemma {:induction false} RunSplit(s: Sys, a: seq<Op>, b: seq<Op>)
    ensures Run(s, a + b) == Run(Run(s, a), b)
    decreases |a|
  {
    hide Step;
    if a == [] {
      assert a + b == b;
    } else {
      assert (a + b)[1..] == a[1..] + b;
      RunSplit(Step(s, a[0]), a[1..], b);
    }
  }
}
