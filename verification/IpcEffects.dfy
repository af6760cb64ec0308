/** What each step of the two adapters comes to, for the request it is about and for all others. */
module IpcEffects {
  import opened Wrappers
  import opened IpcView
  import opened IpcRun

  /** Requests other than `id` stay as they are. */
  ghost predicate OthersStay(s: Sys, t: Sys, id: Id) {
    t.reqs.Keys == s.reqs.Keys && forall x :: x in s.reqs && x != id ==> t.reqs[x] == s.reqs[x]
  }

  /** Only the caller of `id` changes; channels and peers do not. */
  ghost predicate OnlyCaller(s: Sys, t: Sys, id: Id) {
    && OthersStay(s, t, id) && id in s.reqs
    && t.reqs[id] == s.reqs[id].(caller := t.reqs[id].caller)
    && t == s.(reqs := t.reqs)
  }

  /** The request is over, with this as its one settlement; what was delivered stays. */
  ghost predicate SettledAs(c: Caller, d: Caller, o: Outcome) {
    d == Caller(c.streaming, false, false, c.queue, c.final, c.delivered, [o])
  }

  /** A timer that fires on a pending request rejects it as timed out; on any other it does nothing. */
  lemma TimerEffect(kernel: bool, ops: seq<Op>, id: Id)
    requires id in Run(Idle(kernel), ops).reqs
    ensures var s := Run(Idle(kernel), ops);
            var t := Step(s, TimerFires(id));
            var c := s.reqs[id].caller;
            && OnlyCaller(s, t, id)
            && (if c.pending then SettledAs(c, t.reqs[id].caller, Rejected(TimedOut)) else t.reqs[id].caller == c)
            && !t.reqs[id].caller.pending && !t.reqs[id].caller.armed
  {
    hide Run, OnTimer;
    CountedHere(kernel, ops, id);
    TimerOnCaller(Run(Idle(kernel), ops).reqs[id].caller);
  }

  lemma CountedHere(kernel: bool, ops: seq<Op>, id: Id)
    requires id in Run(Idle(kernel), ops).reqs
    ensures Counted(Run(Idle(kernel), ops).reqs[id].caller)
  {
    hide Run, Agrees, Counted;
    ReachableIsOk(kernel, ops, id);
  }

  lemma TimerOnCaller(c: Caller)
    requires Counted(c)
    ensures if c.pending then SettledAs(c, OnTimer(c), Rejected(TimedOut)) else OnTimer(c) == c
    ensures OnTimer(c).streaming == c.streaming && !OnTimer(c).pending && !OnTimer(c).armed
  {
  }

  lemma StopOnCaller(c: Caller)
    requires Counted(c)
    ensures if c.pending then SettledAs(c, OnStop(c), Rejected(Stopped)) else OnStop(c) == c
  {
  }

  lemma DrainOnCaller(c: Caller)
    requires Counted(c)
    ensures OnDrained(c) ==
              if c.final.Some? && c.queue == []
              then Caller(c.streaming, c.pending, c.armed, [], None, c.delivered, [c.final.value]) else c
  {
  }

  /** Stopping a listening adapter rejects every pending request and no other; one that does not listen
      is left alone. */
  lemma StopEffect(kernel: bool, ops: seq<Op>)
    ensures var s := Run(Idle(kernel), ops);
            var t := Step(s, Stop);
            if !s.listening then t == s
            else
              && t == s.(listening := false, reqs := t.reqs) && t.reqs.Keys == s.reqs.Keys
              && forall id :: id in s.reqs ==>
                   && t.reqs[id] == s.reqs[id].(caller := t.reqs[id].caller)
                   && (if s.reqs[id].caller.pending
                       then SettledAs(s.reqs[id].caller, t.reqs[id].caller, Rejected(Stopped))
                       else t.reqs[id].caller == s.reqs[id].caller)
  {
    hide Run;
    var s := Run(Idle(kernel), ops);
    forall id | id in s.reqs && s.reqs[id].caller.pending
      ensures s.listening ==>
                SettledAs(s.reqs[id].caller, Step(s, Stop).reqs[id].caller, Rejected(Stopped))
    {
      CountedHere(kernel, ops, id);
      StopOnCaller(s.reqs[id].caller);
    }
  }

  lemma StartEffect(s: Sys)
    ensures Step(s, Start) == s.(listening := true)
  {
  }

  /** A new request waits for its answer with its timer armed, and is on its way to the peer; if sending throws it is
      rejected at once and nothing is on the way. */
  lemma SendEffect(s: Sys, id: Id, streaming: bool, throws: bool)
    requires id !in s.reqs
    ensures var t := Step(s, Send(id, streaming, throws));
            && t.reqs.Keys == s.reqs.Keys + {id} && (forall x :: x in s.reqs ==> t.reqs[x] == s.reqs[x])
            && t.listening == s.listening && t.toCaller == s.toCaller
            && t.reqs[id].handler == None && t.reqs[id].sent == [] && (t.reqs[id].early <==> !s.listening)
            && (if throws
                then t.reqs[id].caller == Caller(streaming, false, false, [], None, [], [Rejected(SendFailed)])
                     && t.toPeer == s.toPeer
                else t.reqs[id].caller == Caller(streaming, true, true, [], None, [], [])
                     && t.toPeer == s.toPeer + [id])
  {
  }

  /** The chunk chain: one chunk at a time, in the order of arrival. */
  lemma ChunkEffect(s: Sys, id: Id)
    requires id in s.reqs
    ensures var t := Step(s, ChunkRuns(id));
            var c, d := s.reqs[id].caller, t.reqs[id].caller;
            && OnlyCaller(s, t, id)
            && (c.queue == [] ==> d == c)
            && (c.queue != [] ==> d == c.(queue := d.queue, delivered := d.delivered)
                                  && [c.queue[0]] + d.queue == c.queue && d.delivered == c.delivered + [c.queue[0]])
  {
  }

  /** Once the chain is empty, a stream that has its end settles with it. */
  lemma DrainEffect(kernel: bool, ops: seq<Op>, id: Id)
    requires id in Run(Idle(kernel), ops).reqs
    ensures var s := Run(Idle(kernel), ops);
            var t := Step(s, Drains(id));
            var c := s.reqs[id].caller;
            && OnlyCaller(s, t, id)
            && t.reqs[id].caller ==
                 if c.final.Some? && c.queue == []
                 then Caller(c.streaming, c.pending, c.armed, [], None, c.delivered, [c.final.value]) else c
  {
    hide Run, OnDrained;
    CountedHere(kernel, ops, id);
    DrainOnCaller(Run(Idle(kernel), ops).reqs[id].caller);
  }

  // ----- what an envelope does -----

  /** What a pending caller makes of an envelope. */
  datatype Taking = Ignores | Queues(chunk: Maybe) | Ends(value: Maybe) | Fails(error: int)

  /** Errors fail the request. A stream takes `partial` frames for chunks, opens a `done` frame, and ends with anything
      else; a plain request ignores chunk frames and ends with anything else. No result at all is no response. */
  ghost predicate Takes(streaming: bool, e: Envelope, k: Taking) {
    match e
    case Fault(error) => k == Fails(error)
    case Answer(result) =>
      if result.None? then k == Ignores
      else if !result.value.Obj? then k == Ends(result)
      else if streaming then
        if result.value.partial then k == Queues(result.value.chunk)
        else if result.value.done then k == Ends(result.value.value)
        else k == Ends(result)
      else if result.value.partial && result.value.chunk.Some? then k == Ignores
      else k == Ends(result)
  }

  /** What becomes of the pending caller: the end of a stream waits for its chunks, any other settles at once. */
  ghost predicate Taken(c: Caller, d: Caller, k: Taking) {
    match k
    case Ignores => d == c
    case Queues(chunk) => d == c.(queue := c.queue + [chunk])
    case Fails(error) => SettledAs(c, d, Rejected(Remote(error)))
    case Ends(value) =>
      if c.streaming then d == Caller(true, false, false, c.queue, Some(Resolved(value)), c.delivered, [])
      else SettledAs(c, d, Resolved(value))
  }

  /** The next envelope leaves the channel; a pending caller takes it as above, and any other ignores it. */
  lemma DeliveryEffect(kernel: bool, ops: seq<Op>, k: Taking)
    requires var s := Run(Idle(kernel), ops);
             && s.listening && s.toCaller != [] && s.toCaller[0].0 in s.reqs
             && Takes(s.reqs[s.toCaller[0].0].caller.streaming, s.toCaller[0].1, k)
    ensures var s := Run(Idle(kernel), ops);
            var t := Step(s, CallerReceives);
            var id := s.toCaller[0].0;
            var c, d := s.reqs[id].caller, t.reqs[id].caller;
            && OthersStay(s, t, id) && t == s.(toCaller := s.toCaller[1..], reqs := t.reqs)
            && t.reqs[id] == s.reqs[id].(caller := d, got := s.reqs[id].got + 1)
            && (if c.pending then Taken(c, d, k) else d == c)
  {
    hide Run, OnEnvelope, Takes, Taken;
    var s := Run(Idle(kernel), ops);
    CountedHere(kernel, ops, s.toCaller[0].0);
    EnvelopeOnCaller(s.reqs[s.toCaller[0].0].caller, s.toCaller[0].1, k);
  }

  lemma EnvelopeOnCaller(c: Caller, e: Envelope, k: Taking)
    requires Counted(c) && Takes(c.streaming, e, k)
    ensures if c.pending then Taken(c, OnEnvelope(c, e), k) else OnEnvelope(c, e) == c
  {
  }

  /** An envelope that arrives while nobody listens is gone; its caller does not change. */
  lemma LossEffect(s: Sys)
    requires !s.listening && s.toCaller != [] && s.toCaller[0].0 in s.reqs
    ensures var t := Step(s, CallerLoses);
            var id := s.toCaller[0].0;
            && OthersStay(s, t, id) && t == s.(toCaller := s.toCaller[1..], reqs := t.reqs)
            && t.reqs[id].caller == s.reqs[id].caller && t.reqs[id].got == s.reqs[id].got + 1
            && (t.reqs[id].lost <==> s.reqs[id].lost || s.reqs[id].caller.pending)
  {
  }

  /** A request on its way may be gone before the peer sees it. */
  lemma RequestLossEffect(s: Sys)
    requires s.toPeer != []
    ensures var t := Step(s, PeerLoses); t == s.(toPeer := t.toPeer) && [s.toPeer[0]] + t.toPeer == s.toPeer
  {
  }

  // ----- the peer -----

  /** The peer's next envelope is logged and enters the channel; the caller does not notice yet. */
  ghost predicate Posts(s: Sys, t: Sys, id: Id, h: Handler, e: Envelope) {
    && OthersStay(s, t, id) && id in s.reqs && t.listening == s.listening && t.kernel == s.kernel
    && t.toCaller == s.toCaller + [(id, e)]
    && t.reqs[id] == s.reqs[id].(handler := Some(h), sent := s.reqs[id].sent + [e])
  }

  /** A request that reaches the peer starts a handler there, or is refused when no kernel is attached. */
  lemma ArrivalEffect(s: Sys)
    requires s.toPeer != [] && s.toPeer[0] in s.reqs
    ensures var t := Step(s, PeerReceives);
            var id := s.toPeer[0];
            && t.toPeer == s.toPeer[1..]
            && (if s.kernel
                then OthersStay(s, t, id) && t.toCaller == s.toCaller && t.listening == s.listening
                     && t.reqs[id] == s.reqs[id].(handler := Some(Handler([], None, [])))
                else Posts(s, t, id, Handler([], Some(Threw(-32601)), []), Fault(-32601)))
  {
  }

  /** A chunk goes out as a partial frame, before the reply or after it. */
  lemma EmitEffect(s: Sys, id: Id, chunk: Maybe)
    requires id in s.reqs && s.reqs[id].handler.Some?
    ensures var h := s.reqs[id].handler.value;
            var g := if h.reply.None? then Handler(h.emitted + [chunk], h.reply, h.late)
                     else Handler(h.emitted, h.reply, h.late + [chunk]);
            Posts(s, Step(s, Emit(id, chunk)), id, g, Answer(Some(Obj(true, chunk, false, None, 0))))
            && Step(s, Emit(id, chunk)).toPeer == s.toPeer
  {
  }

  /** The reply goes out last: an error as it is, a value as it is or, if a chunk was emitted, in a done frame. */
  lemma FinishEffect(s: Sys, id: Id, reply: Reply)
    requires id in s.reqs && s.reqs[id].handler.Some? && s.reqs[id].handler.value.reply.None?
    ensures var h := s.reqs[id].handler.value;
            var t := Step(s, Finish(id, reply));
            && t.toPeer == s.toPeer
            && (reply.Threw? ==> Posts(s, t, id, Handler(h.emitted, Some(reply), h.late), Fault(reply.error)))
            && (reply.Returned? && h.emitted == [] ==>
                  Posts(s, t, id, Handler(h.emitted, Some(reply), h.late), Answer(reply.value)))
            && (reply.Returned? && h.emitted != [] ==>
                  Posts(s, t, id, Handler(h.emitted, Some(reply), h.late),
                        Answer(Some(Obj(false, None, true, reply.value, 0)))))
  {
  }
}
