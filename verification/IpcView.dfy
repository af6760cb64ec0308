/** What a caller makes of the envelopes that come back for its request, in order. */
module IpcView {
  import opened Wrappers

  /** A JSON value; of an object only the four fields that the routers look at are kept apart from the rest. */
  datatype Value = Atom(n: int) | Obj(partial: bool, chunk: Option<Value>, done: bool, value: Option<Value>, rest: int)

  /** JSON has no undefined: a field holding it is not transmitted. */
  type Maybe = Option<Value>

  datatype Envelope = Answer(result: Maybe) | Fault(error: int)

  datatype Reason = Remote(error: int) | TimedOut | Stopped | SendFailed

  datatype Outcome = Resolved(value: Maybe) | Rejected(reason: Reason)

  datatype Reply = Returned(value: Maybe) | Threw(error: int)

  /** A handler at work on the peer: what it emitted before it ended, how it ended, what it emitted afterwards. */
  datatype Handler = Handler(emitted: seq<Maybe>, reply: Option<Reply>, late: seq<Maybe>)

  datatype Routing = Skip | Deliver(chunk: Maybe) | End(outcome: Outcome)

  /** `_handleResponse` for a pending request. An answer without a result field is not taken for a response. */
  function Route(streaming: bool, e: Envelope): Routing {
    match e
    case Fault(error) => End(Rejected(Remote(error)))
    case Answer(None) => Skip
    case Answer(Some(r)) =>
      if streaming then
        if r.Obj? && r.partial then Deliver(r.chunk)
        else if r.Obj? && r.done then End(Resolved(r.value))
        else End(Resolved(Some(r)))
      else if r.Obj? && r.partial && r.chunk.Some? then Skip
      else End(Resolved(Some(r)))
  }

  datatype Sight = Sight(chunks: seq<Maybe>, end: Option<Outcome>)

  /** The chunks and the end a caller sees in the envelopes `w`. */
  function View(streaming: bool, w: seq<Envelope>): Sight
    decreases |w|
  {
    if w == [] then Sight([], None)
    else match Route(streaming, w[0])
      case Skip => View(streaming, w[1..])
      case Deliver(c) => var v := View(streaming, w[1..]); Sight([c] + v.chunks, v.end)
      case End(o) => Sight([], Some(o))
  }

  /** `emitChunk`. */
  function Piece(chunk: Maybe): Envelope {
    Answer(Some(Obj(true, chunk, false, None, 0)))
  }

  function Pieces(chunks: seq<Maybe>): (w: seq<Envelope>)
    ensures |w| == |chunks|
    decreases |chunks|
  {
    if chunks == [] then [] else [Piece(chunks[0])] + Pieces(chunks[1..])
  }

  /** The last envelope of `_handleRequest`: wrapped exactly when a chunk was emitted. */
  function Closing(used: bool, reply: Reply): Envelope {
    match reply
    case Threw(error) => Fault(error)
    case Returned(value) => Answer(if used then Some(Obj(false, None, true, value, 0)) else value)
  }

  /** Everything a handler has sent so far. */
  function Script(h: Handler): seq<Envelope> {
    match h.reply
    case None => Pieces(h.emitted)
    case Some(reply) => Pieces(h.emitted) + [Closing(h.emitted != [], reply)] + Pieces(h.late)
  }

  // ----- one envelope more -----

  lemma {:induction false} ViewSnoc(streaming: bool, w: seq<Envelope>, e: Envelope)
    ensures var v := View(streaming, w);
            View(streaming, w + [e]) ==
            (if v.end.Some? then v
             else match Route(streaming, e)
               case Skip => v
               case Deliver(c) => Sight(v.chunks + [c], None)
               case End(o) => Sight(v.chunks, Some(o)))
    decreases |w|
  {
    if w == [] {
      assert w + [e] == [e];
      assert View(streaming, [e][1..]) == Sight([], None);
    } else {
      assert (w + [e])[1..] == w[1..] + [e];
      ViewSnoc(streaming, w[1..], e);
    }
  }

  lemma {:induction false} PiecesSnoc(chunks: seq<Maybe>, c: Maybe)
    ensures Pieces(chunks + [c]) == Pieces(chunks) + [Piece(c)]
    decreases |chunks|
  {
    if chunks == [] {
      assert chunks + [c] == [c];
    } else {
      assert (chunks + [c])[1..] == chunks[1..] + [c];
      PiecesSnoc(chunks[1..], c);
    }
  }

  lemma ViewCons(chunk: Maybe, w: seq<Envelope>)
    ensures View(true, [Piece(chunk)] + w) == Sight([chunk] + View(true, w).chunks, View(true, w).end)
  {
    assert ([Piece(chunk)] + w)[1..] == w;
  }

  lemma {:induction false} ViewOfPieces(chunks: seq<Maybe>, rest: seq<Envelope>)
    ensures var v := View(true, rest); View(true, Pieces(chunks) + rest) == Sight(chunks + v.chunks, v.end)
    decreases |chunks|
  {
    hide View;
    var seen := View(true, rest).chunks;
    if chunks == [] {
      assert Pieces(chunks) + rest == rest;
    } else {
      var w := Pieces(chunks[1..]) + rest;
      assert Pieces(chunks) + rest == [Piece(chunks[0])] + w;
      ViewOfPieces(chunks[1..], rest);
      ViewCons(chunks[0], w);
      assert [chunks[0]] + (chunks[1..] + seen) == chunks + seen;
    }
  }

  lemma {:induction false} PlainViewOfPieces(chunks: seq<Maybe>, rest: seq<Envelope>)
    requires forall c :: c in chunks ==> c.Some?
    ensures View(false, Pieces(chunks) + rest) == View(false, rest)
    decreases |chunks|
  {
    if chunks == [] {
      assert Pieces(chunks) + rest == rest;
    } else {
      assert (Pieces(chunks) + rest)[1..] == Pieces(chunks[1..]) + rest;
      PlainViewOfPieces(chunks[1..], rest);
    }
  }

  // ----- what a streaming caller can see -----

  lemma {:induction false} PiecesTake(chunks: seq<Maybe>, k: nat)
    requires k <= |chunks|
    ensures Pieces(chunks)[..k] == Pieces(chunks[..k])
    decreases k
  {
    if k > 0 {
      PiecesTake(chunks[1..], k - 1);
      assert chunks[..k][1..] == chunks[1..][..k - 1];
      assert Pieces(chunks)[..k] == [Piece(chunks[0])] + Pieces(chunks[1..])[..k - 1];
    }
  }

  /** Once a chunk was emitted, a streaming caller that sees an end sees all chunks in order, then the
      handler's own reply. */
  lemma StreamSeesAll(h: Handler, k: nat)
    requires h.emitted != [] && k <= |Script(h)|
    ensures var v := View(true, Script(h)[..k]);
            if k <= |h.emitted| then v == Sight(h.emitted[..k], None)
            else h.reply.Some? && v == Sight(h.emitted, Some(Said(h.reply.value)))
  {
    if k <= |h.emitted| {
      PiecesTake(h.emitted, k);
      assert Script(h)[..k] == Pieces(h.emitted)[..k];
      ViewOfPieces(h.emitted[..k], []);
      assert Pieces(h.emitted[..k]) + [] == Pieces(h.emitted[..k]);
    } else {
      var n := |h.emitted|;
      var last := Closing(true, h.reply.value);
      var rest := [last] + Pieces(h.late)[..k - n - 1];
      assert Script(h)[..k] == Pieces(h.emitted) + rest;
      ViewOfPieces(h.emitted, rest);
    }
  }

  /** The outcome that reports the handler's reply as it is. */
  function Said(reply: Reply): Outcome {
    match reply
    case Returned(value) => Resolved(value)
    case Threw(error) => Rejected(Remote(error))
  }

  /** A reply that carries the marks of the streaming protocol, or nothing at all. */
  predicate LooksLikeFrame(value: Maybe) {
    value.None? || (value.value.Obj? && (value.value.partial || value.value.done))
  }

  function Size(v: Maybe): nat {
    match v
    case None => 0
    case Some(Atom(_)) => 1
    case Some(Obj(_, _, _, value, _)) => 1 + Size(value)
  }

  /**
    * Exactly when a streaming caller sees the emitted chunks and the handler's own reply: a chunk was
    * emitted, or the reply is an error, or the returned value does not look like a frame of the protocol.
    */
  lemma StreamIsFaithfulIff(h: Handler)
    requires h.reply.Some?
    ensures View(true, Script(h)) == Sight(h.emitted, Some(Said(h.reply.value)))
            <==> h.emitted != [] || h.reply.value.Threw? || !LooksLikeFrame(h.reply.value.value)
  {
    if h.emitted != [] {
      StreamSeesAll(h, |Script(h)|);
      assert Script(h)[..|Script(h)|] == Script(h);
    } else {
      var rest := Pieces(h.late);
      assert Script(h) == [Closing(false, h.reply.value)] + rest;
      assert Script(h)[1..] == rest;
      match h.reply.value
      case Threw(_) =>
      case Returned(None) =>
        ViewOfPieces(h.late, []);
        assert rest + [] == rest;
      case Returned(Some(r)) =>
        if r.Obj? && r.partial {
          assert View(true, Script(h)).chunks != [];
        } else if r.Obj? && r.done {
          assert Size(r.value) < Size(Some(r));
        }
    }
  }

  /** The outcome that reports what the handler put on the wire last, as it stands there. */
  function Wired(used: bool, reply: Reply): Outcome {
    match Closing(used, reply)
    case Fault(error) => Rejected(Remote(error))
    case Answer(result) => Resolved(result)
  }

  /**
    * Exactly when a caller that did not ask for a stream is given what the handler put on the wire last: every emitted
    * chunk has a payload, and the handler throws or what it returns without emitting is present and no chunk frame.
    */
  lemma PlainIsFaithfulIff(h: Handler)
    requires h.reply.Some?
    ensures View(false, Script(h)) == Sight([], Some(Wired(h.emitted != [], h.reply.value)))
            <==>
            && (forall c :: c in h.emitted ==> c.Some?)
            && (h.emitted == [] && h.reply.value.Returned? ==>
                  var value := h.reply.value.value;
                  value.Some? && !(value.value.Obj? && value.value.partial && value.value.chunk.Some?))
  {
    var rest := [Closing(h.emitted != [], h.reply.value)] + Pieces(h.late);
    assert Script(h) == Pieces(h.emitted) + rest;
    assert rest[1..] == Pieces(h.late);
    if h.emitted == [] {
      assert Script(h) == rest;
      LateEndsDiffer(h.late);
    } else if forall c :: c in h.emitted ==> c.Some? {
      PlainViewOfPieces(h.emitted, rest);
    } else {
      EmptyPieceEnds(h.emitted, rest);
    }
  }

  /** To a plain caller a chunk without payload looks like the answer. */
  lemma {:induction false} EmptyPieceEnds(chunks: seq<Maybe>, rest: seq<Envelope>)
    requires exists c :: c in chunks && c.None?
    ensures View(false, Pieces(chunks) + rest) == Sight([], Some(Resolved(Piece(None).result)))
    decreases |chunks|
  {
    assert (Pieces(chunks) + rest)[1..] == Pieces(chunks[1..]) + rest;
    if chunks[0].Some? {
      EmptyPieceEnds(chunks[1..], rest);
    }
  }

  /** After a frame-like reply only late chunks follow, and a plain caller cannot take them for that reply. */
  lemma {:induction false} LateEndsDiffer(late: seq<Maybe>)
    ensures var v := View(false, Pieces(late));
            v.chunks == [] && (v.end.Some? ==> v.end == Some(Resolved(Piece(None).result)))
    decreases |late|
  {
    if late != [] {
      assert Pieces(late)[1..] == Pieces(late[1..]);
      LateEndsDiffer(late[1..]);
    }
  }
}
