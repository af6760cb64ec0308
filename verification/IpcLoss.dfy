/** What a stream loses when envelopes are lost: a caller that resolves has all chunks exactly if none was lost. */
module IpcLoss {
  import opened Wrappers
  import opened IpcView
  import opened IpcRun

  /** The end of its stream that the caller has: it resolved, or will once its chunks have run. */
  function EndOf(c: Caller): Option<Outcome> {
    if c.final.Some? then c.final else if c.settled != [] && c.settled[0].Resolved? then Some(c.settled[0]) else None
  }

  /** The end that the caller has is the handler's, and if anything was lost before it, a chunk is missing. */
  predicate EndedThin(r: Req, o: Outcome) {
    && r.handler.Some? && r.handler.value.reply.Some?
    && (r.handler.value.emitted != [] ==>
          && o == Said(r.handler.value.reply.value)
          && (r.lost ==> |r.caller.delivered| + |r.caller.queue| < |r.handler.value.emitted|))
  }

  /** A stream's chunks are among the envelopes that reached it, and so is none of those that were lost. */
  predicate Thin(r: Req) {
    r.caller.streaming ==>
      && (r.caller.pending ==> |r.caller.delivered| + |r.caller.queue| + One(r.lost) <= r.got)
      && (EndOf(r.caller).Some? ==> EndedThin(r, EndOf(r.caller).value))
  }

  ghost predicate ThinAt(s: Sys, id: Id) {
    id in s.reqs ==> Thin(s.reqs[id])
  }

  ghost predicate AllThin(s: Sys) {
    forall id {:trigger ThinAt(s, id)} :: ThinAt(s, id)
  }

  // ----- one request -----

  lemma {:induction false} PieceAt(chunks: seq<Maybe>, k: nat)
    requires k < |chunks|
    ensures Pieces(chunks)[k] == Piece(chunks[k])
    decreases k
  {
    if k > 0 {
      PieceAt(chunks[1..], k - 1);
    }
  }

  /** Once a chunk was emitted, the one envelope of a handler that resolves a stream is its last, after all chunks. */
  lemma OnlyClosingEnds(h: Handler, k: nat)
    requires h.reply.None? ==> h.late == []
    requires k < |Script(h)| && Route(true, Script(h)[k]).End?
    ensures h.reply.Some?
    ensures h.emitted != [] ==> k == |h.emitted| && Route(true, Script(h)[k]) == End(Said(h.reply.value))
  {
    if k < |h.emitted| {
      PieceAt(h.emitted, k);
    } else if k > |h.emitted| {
      PieceAt(h.late, k - |h.emitted| - 1);
    }
  }

  lemma EnvelopeIsThin(r: Req, e: Envelope)
    requires Thin(r) && Counted(r.caller) && r.handler.Some? && r.got < |Script(r.handler.value)|
    requires e == Script(r.handler.value)[r.got]
    requires r.handler.value.reply.None? ==> r.handler.value.late == []
    ensures Thin(r.(caller := OnEnvelope(r.caller, e), got := r.got + 1))
  {
    hide Script;
    if r.caller.streaming && r.caller.pending && Route(true, e).End? {
      OnlyClosingEnds(r.handler.value, r.got);
    }
  }

  /** Thinness looks at the caller, the loss, and the handler's reply and chunks. */
  lemma ThinStays(r: Req, t: Req)
    requires Thin(r) && t.caller == r.caller && r.got <= t.got
    requires !t.lost || r.lost || (t.caller.pending && r.got < t.got && Counted(r.caller))
    requires r.handler.Some? && r.handler.value.reply.Some? ==>
               t.handler.Some? && t.handler.value.reply == r.handler.value.reply
                 && t.handler.value.emitted == r.handler.value.emitted
    ensures Thin(t)
  {
  }

  lemma CallerMoves(r: Req)
    requires Thin(r) && Counted(r.caller)
    ensures Thin(r.(caller := OnTimer(r.caller))) && Thin(r.(caller := OnStop(r.caller)))
    ensures Thin(r.(caller := OnChunk(r.caller))) && Thin(r.(caller := OnDrained(r.caller)))
  {
  }

  // ----- every step -----

  lemma ReceivedIsThin(s: Sys, x: Id)
    requires Sound(s) && ThinAt(s, x)
    ensures ThinAt(CallerReceived(s), x)
  {
    hide Agrees, OnEnvelope, Thin, Script;
    OkHere(s, x);
    if s.listening && s.toCaller != [] && s.toCaller[0].0 == x && x in s.reqs {
      HeadIsNext(s);
      EnvelopeIsThin(s.reqs[x], s.toCaller[0].1);
    }
  }

  lemma LostIsThin(s: Sys, x: Id)
    requires Sound(s) && ThinAt(s, x)
    ensures ThinAt(CallerLost(s), x)
  {
    hide Agrees, Thin, Script;
    OkHere(s, x);
    if x in s.reqs && CallerLost(s).reqs[x] != s.reqs[x] {
      ThinStays(s.reqs[x], CallerLost(s).reqs[x]);
    }
  }

  /** What the peer does leaves the caller alone, and an ended handler's reply and chunks. */
  lemma PostedIsThin(s: Sys, id: Id, h: Handler, e: Envelope, x: Id)
    requires ThinAt(s, x) && id in s.reqs
    requires var was := s.reqs[id].handler;
             was.Some? && was.value.reply.Some? ==> h.reply == was.value.reply && h.emitted == was.value.emitted
    ensures ThinAt(Posted(s, id, h, e), x)
  {
    hide Thin;
    if x == id {
      ThinStays(s.reqs[id], Posted(s, id, h, e).reqs[id]);
    }
  }

  lemma ReceivingPeerIsThin(s: Sys, x: Id)
    requires Sound(s) && ThinAt(s, x)
    ensures ThinAt(PeerReceived(s), x)
  {
    hide Agrees, Thin, Script, Counted, Posted, Sound;
    if s.toPeer != [] && s.toPeer[0] in s.reqs {
      var id := s.toPeer[0];
      OkHere(s, id);
      assert s.reqs[id].handler.None?;
      hide Ok;
      var t := s.(toPeer := s.toPeer[1..]);
      PostedIsThin(t, id, Handler([], Some(Threw(METHOD_NOT_FOUND)), []), Fault(METHOD_NOT_FOUND), x);
      if id == x {
        ThinStays(s.reqs[id], s.reqs[id].(handler := Some(Handler([], None, []))));
      }
    }
  }

  lemma PeerIsThin(s: Sys, op: Op, x: Id)
    requires Sound(s) && ThinAt(s, x) && (op.PeerReceives? || op.PeerLoses? || op.Emit? || op.Finish? || op.Start?)
    ensures ThinAt(Step(s, op), x)
  {
    hide Thin, Posted, PeerReceived, Sound;
    match op
    case PeerReceives => ReceivingPeerIsThin(s, x);
    case Emit(id, chunk) =>
      if id in s.reqs && s.reqs[id].handler.Some? {
        var h := s.reqs[id].handler.value;
        var g := if h.reply.None? then h.(emitted := h.emitted + [chunk]) else h.(late := h.late + [chunk]);
        PostedIsThin(s, id, g, Piece(chunk), x);
      }
    case Finish(id, reply) =>
      if id in s.reqs && s.reqs[id].handler.Some? && s.reqs[id].handler.value.reply.None? {
        var h := s.reqs[id].handler.value;
        PostedIsThin(s, id, h.(reply := Some(reply)), Closing(h.emitted != [], reply), x);
      }
    case _ =>
  }

  lemma StepIsThin(s: Sys, op: Op, x: Id)
    requires Sound(s) && ThinAt(s, x)
    ensures ThinAt(Step(s, op), x)
  {
    hide Agrees, Thin, Script, OnTimer, OnStop, OnChunk, OnDrained, PeerReceived, Emitted, Finished,
      CallerReceived, CallerLost;
    OkHere(s, x);
    if x in s.reqs {
      CallerMoves(s.reqs[x]);
    }
    match op
    case CallerReceives => ReceivedIsThin(s, x);
    case CallerLoses => LostIsThin(s, x);
    case Send(id, streaming, throws) => SentIsThin(s, id, streaming, throws, x);
    case Stop =>
    case TimerFires(id) =>
    case ChunkRuns(id) =>
    case Drains(id) =>
    case _ => PeerIsThin(s, op, x);
  }

  lemma SentIsThin(s: Sys, id: Id, streaming: bool, throws: bool, x: Id)
    requires ThinAt(s, x)
    ensures ThinAt(Sent(s, id, streaming, throws), x)
  {
  }

  lemma {:induction false} RunIsThin(s: Sys, ops: seq<Op>)
    requires Sound(s) && AllThin(s)
    ensures Sound(Run(s, ops)) && AllThin(Run(s, ops))
    decreases |ops|
  {
    hide Sound, Step, ThinAt;
    if ops != [] {
      StepIsSound(s, ops[0]);
      forall x ensures ThinAt(Step(s, ops[0]), x) {
        assert ThinAt(s, x);
        StepIsThin(s, ops[0], x);
      }
      RunIsThin(Step(s, ops[0]), ops[1..]);
    }
  }

  /**
    * Under every interleaving, for a stream whose handler emitted a chunk: it resolves with the handler's own value
    * only, and then it has delivered exactly the emitted chunks if and only if no envelope was lost while it was
    * pending.
    */
  lemma StreamIsExactIff(kernel: bool, ops: seq<Op>, id: Id)
    ensures var s := Run(Idle(kernel), ops);
            id in s.reqs && s.reqs[id].caller.streaming
            && s.reqs[id].handler.Some? && s.reqs[id].handler.value.emitted != []
            && s.reqs[id].caller.settled != [] && s.reqs[id].caller.settled[0].Resolved? ==>
              var c := s.reqs[id].caller;
              var h := s.reqs[id].handler.value;
              && h.reply == Some(Returned(c.settled[0].value))
              && (c.delivered == h.emitted <==> !s.reqs[id].lost)
  {
    hide Run, Script;
    forall x ensures Ok(Idle(kernel), x) && ThinAt(Idle(kernel), x) {}
    RunIsThin(Idle(kernel), ops);
    var s := Run(Idle(kernel), ops);
    OkHere(s, id);
    assert ThinAt(s, id);
    if id in s.reqs && s.reqs[id].caller.streaming
       && s.reqs[id].handler.Some? && s.reqs[id].handler.value.emitted != []
       && s.reqs[id].caller.settled != [] && s.reqs[id].caller.settled[0].Resolved? {
      if !s.reqs[id].lost {
        StreamSeesAll(s.reqs[id].handler.value, s.reqs[id].got);
      }
    }
  }
}
