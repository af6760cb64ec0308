/** The adapter as an object: its pending map, its timers, and the promises it has handed out. */
module IpcAdapter {
  import opened Wrappers
  import opened IpcView
  import opened IpcRun

  /** A promise and the chunk chain in front of it, which outlive the pending entry. */
  datatype Promise = Promise(
    streaming: bool, queue: seq<Maybe>, final: Option<Outcome>, delivered: seq<Maybe>, settled: seq<Outcome>)

  function AllStopped(callers: map<Id, Caller>): map<Id, Caller> {
    map id | id in callers :: OnStop(callers[id])
  }

  /** `promises` with those in `pending`, except the ones still `left`, rejected by a stop. */
  function Turned(promises: map<Id, Promise>, pending: set<Id>, left: set<Id>): map<Id, Promise> {
    map id | id in promises ::
      if id in pending && id !in left then promises[id].(settled := promises[id].settled + [Rejected(Stopped)])
      else promises[id]
  }

  lemma TurnOne(promises: map<Id, Promise>, pending: set<Id>, left: set<Id>, id: Id)
    requires id in left && left <= pending <= promises.Keys
    ensures var t := Turned(promises, pending, left);
            id in t && Turned(promises, pending, left - {id})
                       == t[id := t[id].(settled := t[id].settled + [Rejected(Stopped)])]
  {
  }

  lemma TurnNone(promises: map<Id, Promise>, pending: set<Id>)
    ensures Turned(promises, pending, pending) == promises
  {
  }

  class BaseIpcAdapter {
    var started: bool
    /** From the id of each pending request to its `streaming` flag. */
    var pendingRequests: map<Id, bool>
    var timers: set<Id>
    var promises: map<Id, Promise>

    predicate Valid()
      reads this
    {
      && pendingRequests.Keys <= promises.Keys
      && (forall id :: id in pendingRequests ==> pendingRequests[id] == promises[id].streaming)
      && timers == pendingRequests.Keys
    }

    /** Every request made so far, as its caller sees it. */
    function Callers(): map<Id, Caller>
      reads this
    {
      map id | id in promises ::
        Caller(promises[id].streaming, id in pendingRequests, id in timers, promises[id].queue, promises[id].final,
               promises[id].delivered, promises[id].settled)
    }

    constructor ()
      ensures Valid() && Callers() == map[] && !started
    {
      started, pendingRequests, timers, promises := false, map[], {}, map[];
    }

    method Start()
      modifies this`started
      ensures started && Callers() == old(Callers())
    {
      started := true;
    }

    /** Reject the promise of a pending entry and forget the entry. */
    method RejectPending(id: Id, reason: Reason)
      requires Valid() && id in pendingRequests
      modifies this`pendingRequests, this`timers, this`promises
      ensures Valid() && pendingRequests == old(pendingRequests) - {id}
      ensures Callers() == old(Callers())[id := Cut(old(Callers())[id], reason)]
      ensures timers == old(timers) - {id} && id in old(promises)
      ensures promises == old(promises)[id := old(promises)[id].(
                settled := old(promises)[id].settled + [Rejected(reason)])]
    {
      timers := timers - {id};
      pendingRequests := pendingRequests - {id};
      promises := promises[id := promises[id].(settled := promises[id].settled + [Rejected(reason)])];
    }

    /** `stop`: a second call, or a call before `start`, leaves pending requests alone. */
    method Stop()
      requires Valid()
      modifies this
      ensures Valid() && !started
      ensures Callers() ==
              if old(started) then AllStopped(old(Callers())) else old(Callers())
      ensures old(started) ==> pendingRequests == map[] && timers == {} && promises.Keys == old(promises).Keys
      ensures old(started) ==> forall id :: id in old(promises) ==>
                promises[id] == if id in old(pendingRequests)
                  then old(promises)[id].(settled := old(promises)[id].settled + [Rejected(Stopped)])
                  else old(promises)[id]
      ensures !old(started) ==>
                pendingRequests == old(pendingRequests) && timers == old(timers) && promises == old(promises)
    {
      if !started {
        return;
      }
      started := false;
      RejectAll();
      ghost var now, goal := Callers(), AllStopped(old(Callers()));
      assert now.Keys == goal.Keys;
      forall id | id in now ensures now[id] == goal[id] {
        assert promises[id] == Turned(old(promises), old(pendingRequests).Keys, {})[id];
      }
    }

    /** The loop of `stop`: every pending promise is rejected, then the map is cleared. */
    method RejectAll()
      requires Valid()
      modifies this`pendingRequests, this`timers, this`promises
      ensures Valid() && pendingRequests == map[] && promises == Turned(old(promises), old(pendingRequests).Keys, {})
    {
      hide Turned;
      var left := pendingRequests.Keys;
      TurnNone(promises, left);
      while left != {}
        invariant pendingRequests == old(pendingRequests) && promises.Keys == old(promises).Keys
        invariant left <= pendingRequests.Keys && timers == left
        invariant promises == Turned(old(promises), pendingRequests.Keys, left)
        decreases |left|
      {
        SomeMember(left);
        var id :| id in left;
        TurnOne(old(promises), pendingRequests.Keys, left, id);
        timers := timers - {id};
        promises := promises[id := promises[id].(settled := promises[id].settled + [Rejected(Stopped)])];
        left := left - {id};
      }
      assert left == {};
      pendingRequests := map[];
    }

    /** `_sendRequest` for an id that was never used before; `throws` says whether the transport threw. */
    method SendRequest(id: Id, streaming: bool, throws: bool)
      requires Valid() && id !in promises
      modifies this`pendingRequests, this`timers, this`promises
      ensures Valid()
      ensures Callers() ==
              old(Callers())[id := if throws then Cut(Opened(streaming), SendFailed) else Opened(streaming)]
      ensures promises ==
              old(promises)[id := Promise(streaming, [], None, [], if throws then [Rejected(SendFailed)] else [])]
      ensures pendingRequests == if throws then old(pendingRequests) else old(pendingRequests)[id := streaming]
      ensures timers == if throws then old(timers) else old(timers) + {id}
    {
      promises := promises[id := Promise(streaming, [], None, [], [])];
      timers := timers + {id};
      pendingRequests := pendingRequests[id := streaming];
      assert Callers() == old(Callers())[id := Opened(streaming)];
      if throws {
        assert promises[id].settled + [Rejected(SendFailed)] == [Rejected(SendFailed)];
        RejectPending(id, SendFailed);
        assert old(pendingRequests)[id := streaming] - {id} == old(pendingRequests);
      }
    }

    /** The inbound router, for envelopes that carry an id and no method. */
    method HandleResponse(id: Id, e: Envelope)
      requires Valid()
      modifies this`pendingRequests, this`timers, this`promises
      ensures Valid()
      ensures Callers() ==
                if id in old(Callers()) then old(Callers())[id := OnEnvelope(old(Callers())[id], e)] else old(Callers())
    {
      if e.Answer? && e.result.None? {
        return;
      }
      if id !in pendingRequests {
        return;
      }
      if e.Fault? {
        RejectPending(id, Remote(e.error));
        return;
      }
      var result := e.result.value;
      if pendingRequests[id] {
        if result.Obj? && result.partial {
          timers := timers + {id};
          promises := promises[id := promises[id].(queue := promises[id].queue + [result.chunk])];
          return;
        }
        timers := timers - {id};
        pendingRequests := pendingRequests - {id};
        var value := if result.Obj? && result.done then result.value else Some(result);
        promises := promises[id := promises[id].(final := Some(Resolved(value)))];
        return;
      }
      if result.Obj? && result.partial && result.chunk.Some? {
        return;
      }
      timers := timers - {id};
      pendingRequests := pendingRequests - {id};
      promises := promises[id := promises[id].(settled := promises[id].settled + [Resolved(Some(result))])];
    }

    method HandleTimeout(id: Id)
      requires Valid() && id in timers
      modifies this`pendingRequests, this`timers, this`promises
      ensures Valid()
      ensures id in old(Callers()) && Callers() == old(Callers())[id := OnTimer(old(Callers())[id])]
      ensures id in old(pendingRequests) && pendingRequests == old(pendingRequests) - {id}
              && timers == old(timers) - {id}
      ensures id in old(promises) && promises == old(promises)[id := old(promises)[id].(
                settled := old(promises)[id].settled + [Rejected(TimedOut)])]
    {
      if id !in pendingRequests {
        return;
      }
      RejectPending(id, TimedOut);
    }

    /** The chunk chain of one request runs to its end, each callback after the one before, and then
        the promise resolves. */
    method DrainChain(id: Id)
      requires Valid() && id in promises && id !in pendingRequests && promises[id].final.Some?
      modifies this`promises
      ensures Valid()
      ensures var p := old(promises)[id];
              promises == old(promises)[id := p.(queue := [], final := None, delivered := p.delivered + p.queue,
                                                 settled := p.settled + [p.final.value])]
    {
      ghost var p0 := promises[id];
      while promises[id].queue != []
        invariant Valid() && id in promises && id !in pendingRequests
        invariant promises == old(promises)[id := p0.(queue := promises[id].queue, delivered := promises[id].delivered)]
        invariant promises[id].delivered + promises[id].queue == p0.delivered + p0.queue
        decreases |promises[id].queue|
      {
        var p := promises[id];
        assert (p.delivered + [p.queue[0]]) + p.queue[1..] == p.delivered + p.queue;
        promises := promises[id := p.(queue := p.queue[1..], delivered := p.delivered + [p.queue[0]])];
      }
      assert promises[id].delivered == p0.delivered + p0.queue;
      promises := promises[id := promises[id].(
        final := None, settled := promises[id].settled + [promises[id].final.value])];
    }

    /** The partial frames that `emitChunk` sends. */
    method EmitChunks(chunks: seq<Maybe>) returns (sent: seq<Envelope>)
      ensures sent == Pieces(chunks)
    {
      sent := [];
      for i := 0 to |chunks|
        invariant sent == Pieces(chunks[..i])
      {
        assert chunks[..i + 1] == chunks[..i] + [chunks[i]];
        PiecesSnoc(chunks[..i], chunks[i]);
        sent := sent + [Answer(Some(Obj(true, chunks[i], false, None, 0)))];
      }
      assert chunks[..|chunks|] == chunks;
    }

    /** `_handleRequest`, given whether a kernel is attached and what its handler emits, replies, and
        emits afterwards. */
    method HandleRequest(kernel: bool, chunks: seq<Maybe>, reply: Reply, late: seq<Maybe>) returns (sent: seq<Envelope>)
      ensures sent ==
                Script(if kernel then Handler(chunks, Some(reply), late)
                        else Handler([], Some(Threw(METHOD_NOT_FOUND)), []))
    {
      if !kernel {
        return [Fault(METHOD_NOT_FOUND)];
      }
      var used := |chunks| > 0;
      sent := EmitChunks(chunks);
      match reply {
        case Returned(value) =>
          var result := if used then Some(Obj(false, None, true, value, 0)) else value;
          sent := sent + [Answer(result)];
        case Threw(error) => sent := sent + [Fault(error)];
      }
      var after := EmitChunks(late);
      sent := sent + after;
    }
  }
}
