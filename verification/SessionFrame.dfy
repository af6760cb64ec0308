/** What the Supervisor's steps leave alone at a session that they are not about. */
module SessionFrame {
  import opened Wrappers
  import opened SessionMachine
  import opened Supervision

  predicate SameKeepAlive(a: Meta, b: Meta) {
    a.pending == b.pending && a.renewals == b.renewals && a.start == b.start
  }

  predicate SameLinger(a: Meta, b: Meta) {
    a.linger == b.linger && a.lingerCount == b.lingerCount
  }

  /** From `s` to `t` the keep-alive fields of `id` (its linger fields too, if `strict`) stay; its
      timer may be set to `now`. */
  predicate Alike(s: Sup, t: Sup, id: SessionId, now: nat, strict: bool) {
    && (id in s.meta ==>
          id in t.meta && SameKeepAlive(s.meta[id], t.meta[id]) && (strict ==> SameLinger(s.meta[id], t.meta[id])))
    && (id !in s.meta && id in t.meta ==> !strict && t.meta[id].pending == 0)
    && (id in s.timers ==> id in t.timers)
    && (id in t.timers ==>
          t.timers[id].created == now || (id in s.timers && t.timers[id].created == s.timers[id].created))
  }

  lemma AlikeTrans(s: Sup, t: Sup, u: Sup, id: SessionId, now: nat, strict: bool)
    requires Alike(s, t, id, now, strict) && Alike(t, u, id, now, strict)
    ensures Alike(s, u, id, now, strict)
  {
  }

  lemma DemotedAlike(s: Sup, who: Option<SessionId>, id: SessionId, now: nat, strict: bool)
    ensures Alike(s, DemotedIfAwake(s, who), id, now, strict)
  {
  }

  lemma SessionCreatedAlike(s: Sup, who: SessionId, id: SessionId, now: nat, strict: bool)
    ensures Alike(s, SessionCreated(s, who, now).0, id, now, strict)
  {
    DemotedAlike(s, s.machine.current, id, now, strict);
  }

  lemma SettledAlike(s: Sup, v: Verdict, id: SessionId, now: nat, strict: bool)
    requires strict ==> v.session != Some(id)
    ensures Alike(s, Settled(s, v, now), id, now, strict)
  {
    hide DemotedIfAwake, ContextSwitched, Alike;
    var r := Refreshed(s, v, now);
    assert Alike(s, r, id, now, strict) by { RefreshedAlike(s, v, id, now, strict); }
    var l := LingerReset(r, v.session);
    var w := SwitchedTo(l, v, now);
    SwitchedToAlike(l, v, id, now, strict);
    DemotedAlike(w, v.replaced, id, now, strict);
    AlikeTrans(s, r, l, id, now, strict);
    AlikeTrans(s, l, w, id, now, strict);
    AlikeTrans(s, w, DemotedIfAwake(w, v.replaced), id, now, strict);
  }

  lemma RefreshedAlike(s: Sup, v: Verdict, id: SessionId, now: nat, strict: bool)
    ensures Alike(s, Refreshed(s, v, now), id, now, strict)
  {
  }

  lemma SwitchedToAlike(s: Sup, v: Verdict, id: SessionId, now: nat, strict: bool)
    ensures Alike(s, SwitchedTo(s, v, now), id, now, strict)
  {
  }

  lemma JudgedAlike(s: Sup, v: Verdict, id: SessionId, now: nat, strict: bool)
    requires strict ==> v.session != Some(id)
    ensures EngineRows(s.meta, v).Some? ==> Alike(s, s.(meta := EngineRows(s.meta, v).value), id, now, strict)
  {
  }

  lemma ReceivedAlike(s: Sup, v: Verdict, id: SessionId, now: nat, strict: bool)
    requires strict ==> v.session != Some(id)
    ensures Alike(s, Received(s, v, now), id, now, strict)
  {
    hide Settled, SessionCreated, EngineRows;
    if EngineRows(s.meta, v).Some? {
      var judged := s.(meta := EngineRows(s.meta, v).value);
      JudgedAlike(s, v, id, now, strict);
      if v.action == CreateNew && v.session.Some? {
        var created := SessionCreated(judged, v.session.value, now).0;
        SessionCreatedAlike(judged, v.session.value, id, now, strict);
        SettledAlike(created, v, id, now, strict);
      } else {
        SettledAlike(judged, v, id, now, strict);
      }
    }
  }

  lemma OverflowedAlike(s: Sup, session: Option<SessionId>, newId: SessionId, id: SessionId, now: nat, strict: bool)
    requires strict ==> newId != id
    ensures Alike(s, Overflowed(s, session, newId, now), id, now, strict)
  {
    hide SessionCreated, DemotedIfAwake;
    var judged := s.(meta := s.meta[newId := NEW_ROW]);
    DemotedAlike(judged, session, id, now, strict);
    SessionCreatedAlike(DemotedIfAwake(judged, session), newId, id, now, strict);
  }

  lemma AwakeExpiredAlike(c: Config, s: Sup, who: SessionId, id: SessionId, now: nat, strict: bool)
    ensures Alike(s, AwakeExpired(c, s, who, now), id, now, strict)
  {
  }

  lemma OtherExpiryAlike(c: Config, s: Sup, who: SessionId, id: SessionId, now: nat, spoke: bool, strict: bool)
    requires who != id
    ensures Alike(s, DrowsyExpired(c, s, who, now, spoke), id, now, strict)
  {
    hide OnExpiry;
  }

  /** Raising or lowering the pending count, or an expiry of the session itself. */
  predicate KeepAliveOp(s: Sup, op: Op, id: SessionId) {
    match op
    case IncPending(session) => Target(s, session) == Some(id)
    case DecPending(session) => Target(s, session) == Some(id)
    case DrowsyTimer(who, _) => who == id
    case _ => false
  }

  /** The step brings nothing new to the session: no event routed to it and no request made on its behalf. */
  predicate Quiet(s: Sup, op: Op, id: SessionId) {
    match op
    case ReceiveEvent(v) => v.session != Some(id)
    case IncPending(session) => Target(s, session) != Some(id)
    case _ => true
  }

  lemma StepAlike(c: Config, s: Sup, t: Timed, id: SessionId, strict: bool)
    requires Safe(s) && NamesFresh(s, t.op) && !KeepAliveOp(s, t.op, id)
    requires strict ==> Quiet(s, t.op, id) && id in s.machine.states
    ensures Alike(s, Step(c, s, t), id, t.at, strict)
  {
    hide Received, Overflowed, SessionCreated, AwakeExpired, DrowsyExpired, Safe, Alike;
    match t.op
    case ReceiveEvent(v) => ReceivedAlike(s, v, id, t.at, strict);
    case Overflow(session, newId) => OverflowedAlike(s, session, newId, id, t.at, strict);
    case NewSession(who) => SessionCreatedAlike(s, who, id, t.at, strict);
    case AwakeTimer(who) => AwakeExpiredAlike(c, s, who, id, t.at, strict);
    case DrowsyTimer(who, spoke) => OtherExpiryAlike(c, s, who, id, t.at, spoke, strict);
    case _ => BookkeepingAlike(c, s, t, id, strict);
  }

  lemma BookkeepingAlike(c: Config, s: Sup, t: Timed, id: SessionId, strict: bool)
    requires t.op.CheckArchived? || t.op.IncPending? || t.op.DecPending? || t.op.AppendTurn? || t.op.MoveCursors?
    requires !KeepAliveOp(s, t.op, id)
    ensures Alike(s, Step(c, s, t), id, t.at, strict)
  {
  }
}
