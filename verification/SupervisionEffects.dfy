/** What each step of the Supervisor comes to, table by table and session by session. */
module SupervisionEffects {
  import opened Wrappers
  import opened SessionMachine
  import opened Supervision

  /** Outside `but`, rows stay with their columns, except that each holds the status its session has now. */
  ghost predicate RowsFollow(s: Sup, t: Sup, but: set<SessionId>) {
    && (forall x :: x !in but ==> (x in t.meta <==> x in s.meta))
    && (forall x :: x in s.meta && x in t.meta && x !in but ==>
          && x in t.machine.states && t.meta[x].status == t.machine.states[x]
          && t.meta[x] == s.meta[x].(status := t.meta[x].status))
  }

  /** The statuses once `id` has become Awake and the session that was so has become Drowsy. */
  ghost predicate TakesOver(s: Machine, t: Machine, id: SessionId) {
    && t.current == Some(id) && t.states.Keys == s.states.Keys + {id} && t.states[id] == Awake
    && (forall x :: x in s.states && x != id ==>
          x in t.states && t.states[x] == if s.states[x] == Awake then Drowsy else s.states[x])
  }

  const FRESH_ROW := Meta(Awake, false, 0, 0, 0, None, 0, 0)

  /** A session of an unused name takes over, with a new row, new timers and wake conditions. */
  ghost predicate Opens(s: Sup, t: Sup, id: SessionId, now: nat) {
    && TakesOver(s.machine, t.machine, id)
    && t.timers == s.timers[id := Timer(now, false, false)] && t.wake == s.wake + {id} && t.turns == s.turns
    && id in t.meta && t.meta[id] == FRESH_ROW && RowsFollow(s, t, {id})
  }

  lemma OnlyOneAwake(m: Machine)
    requires Exact(m)
    ensures forall x :: x in m.states ==> (m.states[x] == Awake <==> m.current == Some(x))
  {
  }

  lemma CreatedTakesOver(s: Sup, id: SessionId, now: nat)
    requires Exact(s.machine) && id !in s.machine.states
    requires forall x :: x in s.meta && x != id ==> x in s.machine.states && s.meta[x].status == s.machine.states[x]
    ensures var t := SessionCreated(s, id, now).0;
            && TakesOver(s.machine, t.machine, id)
            && t.timers == s.timers[id := Timer(now, false, false)] && t.wake == s.wake + {id} && t.turns == s.turns
            && RowsFollow(s, t, {id})
            && (id in t.meta <==> id in s.meta)
            && (id in s.meta ==> t.meta[id] == s.meta[id].(status := Awake))
  {
    CurrentIsAwake(s.machine);
  }

  lemma RowsAgree(s: Sup)
    requires Safe(s)
    ensures forall x :: x in s.meta ==> x in s.machine.states && s.meta[x].status == s.machine.states[x]
  {
    forall x | x in s.meta
      ensures x in s.machine.states && s.meta[x].status == s.machine.states[x]
    {
      SafeHere(s, x);
    }
  }

  /** `createSession` under an unused name. */
  lemma NewSessionTakesOver(c: Config, s: Sup, id: SessionId, now: nat)
    requires Safe(s) && id !in s.machine.states
    ensures var t := Step(c, s, Timed(now, NewSession(id)));
            && TakesOver(s.machine, t.machine, id)
            && t.timers == s.timers[id := Timer(now, false, false)] && t.wake == s.wake + {id} && t.turns == s.turns
            && RowsFollow(s, t, {id}) && id !in t.meta
  {
    RowsAgree(s);
    SafeHere(s, id);
    CreatedTakesOver(s, id, now);
  }

  /** `createSession` under a name in use throws, after it has sent the Awake session to Drowsy. */
  lemma NewSessionThrows(c: Config, s: Sup, id: SessionId, now: nat)
    requires Safe(s) && id in s.machine.states
    ensures var t := Step(c, s, Timed(now, NewSession(id)));
            && t.machine.current == None && t.machine.states.Keys == s.machine.states.Keys
            && (forall x :: x in s.machine.states ==>
                  t.machine.states[x] == if s.machine.states[x] == Awake then Drowsy else s.machine.states[x])
            && t.timers == s.timers && t.wake == s.wake && t.turns == s.turns && RowsFollow(s, t, {})
  {
    RowsAgree(s);
    CurrentIsAwake(s.machine);
  }

  /** The overflow callback opens a session in place of the overflowing one; without a row for that one, or with a row
      under the new name, it throws and changes nothing. */
  lemma OverflowOpens(c: Config, s: Sup, session: Option<SessionId>, newId: SessionId, now: nat)
    requires Safe(s) && newId !in s.machine.states
    ensures var t := Step(c, s, Timed(now, Overflow(session, newId)));
            if session.Some? && session.value in s.meta then Opens(s, t, newId, now) else t == s
  {
    RowsAgree(s);
    SafeHere(s, newId);
    if session.Some? && session.value in s.meta {
      var judged := s.(meta := s.meta[newId := NEW_ROW]);
      var d := DemotedIfAwake(judged, session);
      DemotedOutcome(judged, session.value, newId);
      hide DemotedIfAwake, SessionCreated, Safe, SafeAt;
      CreatedTakesOver(d, newId, now);
      var t := SessionCreated(d, newId, now).0;
      StillTakesOver(s.machine, d.machine, t.machine, session.value, newId);
      hide TakesOver, Exact;
      RowsFollowOn(s, d, t, newId);
      hide RowsFollow;
      assert FRESH_ROW == NEW_ROW.(status := Awake);
    }
  }

  lemma StillTakesOver(m: Machine, d: Machine, n: Machine, id: SessionId, newId: SessionId)
    requires Exact(m) && id in m.states && id != newId && newId !in m.states && TakesOver(d, n, newId)
    requires d == m || (m.current == Some(id) && d.states == m.states[id := Drowsy])
    ensures TakesOver(m, n, newId)
  {
    OnlyOneAwake(m);
  }

  lemma RowsFollowOn(s: Sup, d: Sup, t: Sup, newId: SessionId)
    requires newId !in s.meta && d.meta.Keys == s.meta.Keys + {newId} && RowsFollow(d, t, {newId})
    requires forall x :: x in s.meta ==> d.meta[x] == s.meta[x].(status := d.meta[x].status)
    ensures RowsFollow(s, t, {newId})
  {
    forall x | x in s.meta && x in t.meta
      ensures t.meta[x] == s.meta[x].(status := t.meta[x].status)
    {
      assert x != newId && d.meta[x] == s.meta[x].(status := d.meta[x].status);
    }
  }

  /** Sending a session to Drowsy, while a row may wait for `unborn`. */
  lemma DemotedOutcome(s: Sup, id: SessionId, unborn: SessionId)
    requires Exact(s.machine) && id != unborn && id in s.machine.states && unborn !in s.machine.states
    requires forall x :: x in s.meta && x != unborn ==> x in s.machine.states && s.meta[x].status == s.machine.states[x]
    ensures var t := DemotedIfAwake(s, Some(id));
            && Exact(t.machine) && t.timers == s.timers && t.wake == s.wake && t.turns == s.turns
            && t.meta.Keys == s.meta.Keys
            && (if s.machine.current == Some(id)
                then t.machine.current == None && t.machine.states == s.machine.states[id := Drowsy]
                else t == s)
            && (forall x :: x in s.meta && x != unborn ==>
                  && x in t.machine.states && t.meta[x].status == t.machine.states[x]
                  && t.meta[x] == s.meta[x].(status := t.meta[x].status))
            && (unborn in s.meta ==> t.meta[unborn] == s.meta[unborn])
  {
    if s.machine.states[id] == Awake {
      TransitionedIsExact(s.machine, id, Drowsy);
    }
    CurrentIsAwake(s.machine);
  }

  // ----- events -----

  /** What the engine's judgement leaves in the row of the session it names: the linger flag, and a count from zero. */
  ghost predicate Judged(m: Meta, n: Meta, linger: bool) {
    n == m.(status := n.status, linger := linger, lingerCount := 0)
  }

  /** An event without a session changes nothing; one for no action at all only restarts the linger count. */
  lemma IdleEvent(c: Config, s: Sup, v: Verdict, now: nat)
    requires Safe(s) && v.replaced.None? && (v.session.None? || v.action == NoSession)
    ensures var t := Step(c, s, Timed(now, ReceiveEvent(v)));
            && t == s.(meta := t.meta) && t.meta.Keys == s.meta.Keys
            && (forall x :: x in s.meta && v.session != Some(x) ==> t.meta[x] == s.meta[x])
            && (v.session.Some? && v.session.value in s.meta ==>
                  t.meta[v.session.value] == s.meta[v.session.value].(lingerCount := 0))
  {
  }

  /** An event for a session: its row is judged; if it is Awake its timers start anew. Nothing else changes. */
  lemma AppendedEvent(c: Config, s: Sup, v: Verdict, now: nat)
    requires Safe(s) && v.replaced.None? && v.action == AppendTo && v.session.Some?
    ensures var id, t := v.session.value, Step(c, s, Timed(now, ReceiveEvent(v)));
            && t.machine == s.machine && t.wake == s.wake && t.turns == s.turns
            && t.timers == (if s.machine.current == Some(id) then s.timers[id := Timer(now, false, false)]
                            else s.timers)
            && t.meta.Keys == s.meta.Keys
            && (forall x :: x in s.meta && x != id ==> t.meta[x] == s.meta[x])
            && (id in s.meta ==> t.meta[id].status == s.meta[id].status && Judged(s.meta[id], t.meta[id], v.linger))
  {
    OnlyOneAwake(s.machine);
  }

  /** An event that goes back to a session: a Drowsy one takes over with new timers, any other is only judged. */
  lemma SwitchingEvent(c: Config, s: Sup, v: Verdict, now: nat)
    requires Safe(s) && v.replaced.None? && v.action == SwitchTo && v.session.Some?
    ensures var id, t := v.session.value, Step(c, s, Timed(now, ReceiveEvent(v)));
            && t.wake == s.wake && t.turns == s.turns && t.meta.Keys == s.meta.Keys
            && (if HasStatus(s, Some(id), Drowsy)
                then TakesOver(s.machine, t.machine, id) && t.timers == s.timers[id := Timer(now, false, false)]
                else t.machine == s.machine && t.timers == s.timers)
            && RowsFollow(s, t, {id})
            && (id in s.meta ==> HasStatus(t, Some(id), t.meta[id].status) && Judged(s.meta[id], t.meta[id], v.linger))
  {
    RowsAgree(s);
    JudgedIsSafe(s, v);
    JudgedFirst(s, v, now);
    var l := LingerReset(Refreshed(s.(meta := EngineRows(s.meta, v).value), v, now), v.session);
    hide Safe, SafeAt, ContextSwitched, TakesOver, LingerReset, Refreshed, EngineRows;
    if HasStatus(s, v.session, Drowsy) {
      SwitchedOutcome(l, v.session.value, now);
    }
  }

  lemma JudgedFirst(s: Sup, v: Verdict, now: nat)
    requires v.action == SwitchTo && v.session.Some? && EngineRows(s.meta, v).Some?
    ensures var id, l :=
            v.session.value, LingerReset(Refreshed(s.(meta := EngineRows(s.meta, v).value), v, now), v.session);
            && l == s.(meta := l.meta) && l.meta.Keys == s.meta.Keys
            && (forall x :: x in s.meta && x != id ==> l.meta[x] == s.meta[x])
            && (id in s.meta ==> l.meta[id].status == s.meta[id].status && Judged(s.meta[id], l.meta[id], v.linger))
  {
  }

  lemma SwitchedOutcome(s: Sup, id: SessionId, now: nat)
    requires Exact(s.machine) && HasStatus(s, Some(id), Drowsy)
    requires forall x :: x in s.meta ==> x in s.machine.states && s.meta[x].status == s.machine.states[x]
    ensures var t := ContextSwitched(s, id, now);
            && TakesOver(s.machine, t.machine, id) && t.timers == s.timers[id := Timer(now, false, false)]
            && t.wake == s.wake && t.turns == s.turns && RowsFollow(s, t, {}) && t.meta.Keys == s.meta.Keys
  {
    SwitchedIsExact(s.machine, id);
    CurrentIsAwake(s.machine);
  }

  /** An event that opens a session. */
  lemma OpeningEvent(c: Config, s: Sup, v: Verdict, now: nat)
    requires Safe(s) && v.replaced.None? && v.action == CreateNew && v.session.Some?
    requires v.session.value !in s.machine.states
    ensures Opens(s, Step(c, s, Timed(now, ReceiveEvent(v))), v.session.value, now)
  {
    RowsAgree(s);
    var id := v.session.value;
    SafeHere(s, id);
    CreatedTakesOver(s.(meta := s.meta[id := NEW_ROW]), id, now);
  }

  lemma ReplacedLast(s: Sup, v: Verdict, now: nat)
    requires Safe(s) && NamesFresh(s, ReceiveEvent(v))
    ensures Received(s, v, now) == DemotedIfAwake(Received(s, v.(replaced := None), now), v.replaced)
  {
    var plain := v.(replaced := None);
    assert EngineRows(s.meta, v) == EngineRows(s.meta, plain);
    if v.action == CreateNew && v.session.Some? {
      RowComesFirst(s, v.session.value);
    } else {
      JudgedIsSafe(s, v);
    }
    hide SessionCreated, DemotedIfAwake, ContextSwitched, Safe, SafeBefore, SafeAt, Follows;
    if EngineRows(s.meta, v).Some? {
      var judged := s.(meta := EngineRows(s.meta, v).value);
      NoneIsDemoted(SwitchedTo(LingerReset(Refreshed(judged, plain, now), v.session), plain, now));
      if v.action == CreateNew && v.session.Some? {
        var created := SessionCreated(judged, v.session.value, now).0;
        SessionCreatedIsSafe(judged, v.session.value, now);
        NoneIsDemoted(SwitchedTo(LingerReset(Refreshed(created, plain, now), v.session), plain, now));
      }
    }
  }

  lemma NoneIsDemoted(s: Sup)
    ensures DemotedIfAwake(s, None) == s
  {
  }

  /** A session that the event replaces becomes Drowsy if it is Awake after all the rest. */
  lemma ReplacingEvent(c: Config, s: Sup, v: Verdict, now: nat)
    requires Safe(s) && NamesFresh(s, ReceiveEvent(v)) && v.replaced.Some?
    ensures var u := Step(c, s, Timed(now, ReceiveEvent(v.(replaced := None))));
            var t := Step(c, s, Timed(now, ReceiveEvent(v)));
            var gone := v.replaced.value;
            && t.timers == u.timers && t.wake == u.wake && t.turns == u.turns
            && (if u.machine.current != Some(gone) then t == u
                else t.machine.current == None && t.machine.states == u.machine.states[gone := Drowsy]
                     && RowsFollow(u, t, {}) && t.meta.Keys == u.meta.Keys)
  {
    var plain := v.(replaced := None);
    ReceivedIsSafe(s, plain, now);
    ReplacedLast(s, v, now);
    var u := Received(s, plain, now);
    DemotingEffect(u, v.replaced.value);
    hide Received, DemotedIfAwake, RowsFollow, Safe;
  }

  lemma DemotingEffect(s: Sup, id: SessionId)
    requires Safe(s)
    ensures var t := DemotedIfAwake(s, Some(id));
            && t.timers == s.timers && t.wake == s.wake && t.turns == s.turns
            && (if s.machine.current != Some(id) then t == s
                else t.machine.current == None && t.machine.states == s.machine.states[id := Drowsy]
                     && RowsFollow(s, t, {}) && t.meta.Keys == s.meta.Keys)
  {
    RowsAgree(s);
    OnlyOneAwake(s.machine);
    CurrentIsAwake(s.machine);
  }

  // ----- timers -----

  /** `setTimeout` waits one millisecond at least. */
  function AtLeastOne(ms: int): int {
    if ms >= 1 then ms else 1
  }

  /** The Awake timer runs once, at its deadline: it marks itself and sends its session to Drowsy if it is Awake. */
  lemma AwakeTimerEffect(c: Config, s: Sup, id: SessionId, now: nat)
    requires Safe(s)
    ensures var t := Step(c, s, Timed(now, AwakeTimer(id)));
            if id in s.timers && !s.timers[id].awakeFired
               && now >= s.timers[id].created + AtLeastOne(c.cacheTtlMs - 2 * c.bufferMs)
            then
              && t.timers == s.timers[id := Timer(s.timers[id].created, true, s.timers[id].drowsyFired)]
              && t.wake == s.wake && t.turns == s.turns && t.meta.Keys == s.meta.Keys && RowsFollow(s, t, {})
              && (if s.machine.current == Some(id)
                  then t.machine.current == None && t.machine.states == s.machine.states[id := Drowsy]
                  else t.machine == s.machine)
            else t == s
  {
    RowsAgree(s);
    OnlyOneAwake(s.machine);
    CurrentIsAwake(s.machine);
  }

  /** The session goes down: no timers and no wake conditions are left of it. */
  ghost predicate GoesDown(s: Sup, t: Sup, id: SessionId) {
    && t.machine.states == s.machine.states[id := Dormant] && t.machine.current == s.machine.current
    && t.timers == s.timers - {id} && t.wake == s.wake - {id} && t.turns == s.turns
  }

  /** The session stays up with new timers; what the Brain said, if anything, is one more turn. */
  ghost predicate StaysUp(s: Sup, t: Sup, id: SessionId, now: nat, spoke: bool) {
    && t.machine == s.machine && t.timers == s.timers[id := Timer(now, false, false)] && t.wake == s.wake
    && (if spoke
        then id in t.turns && t.turns == s.turns[id := t.turns[id]]
             && t.turns[id] == (if id in s.turns then s.turns[id] else 0) + 1
        else t.turns == s.turns)
  }

  /** What an expired Drowsy timer does: a linger tick if one is due, else a keep-alive renewal if a request is pending
      and may still be waited for, else the fall to Dormant, where a request no longer waited for is forgotten. */
  lemma DrowsyTimerEffect(c: Config, s: Sup, id: SessionId, now: nat, spoke: bool)
    requires Safe(s) && id in s.meta
    ensures var t, m := Step(c, s, Timed(now, DrowsyTimer(id, spoke))), s.meta[id];
            if id in s.timers && s.timers[id].awakeFired
              && now >= s.timers[id].created + AtLeastOne(c.cacheTtlMs - c.bufferMs)
            then
              var lingers := c.lingerEnabled && c.masterSwitch && m.linger && m.lingerCount < c.maxLinger;
              var overdue := m.renewals >= 5 && m.start.Some? && m.start.value != 0
                             && now - m.start.value >= 30 * 60 * 1000;
              var flag := m.linger && m.lingerCount < c.maxLinger;
              && t.meta.Keys == s.meta.Keys && (forall x :: x in s.meta && x != id ==> t.meta[x] == s.meta[x])
              && (if lingers then
                    StaysUp(s, t, id, now, spoke) && t.meta[id] == m.(lingerCount := m.lingerCount + 1)
                  else if m.pending > 0 && !overdue then
                    StaysUp(s, t, id, now, spoke) && t.meta[id] == m.(linger := flag, renewals := m.renewals + 1)
                  else if m.pending > 0 then
                    GoesDown(s, t, id)
                    && t.meta[id] == m.(status := Dormant, linger := flag, pending := 0, renewals := 0, start := None)
                  else GoesDown(s, t, id) && t.meta[id] == m.(status := Dormant, linger := flag))
            else t == s
  {
    SafeHere(s, id);
  }

  /** The same for a session without a row, which goes down at once. */
  lemma DrowsyTimerWithoutRow(c: Config, s: Sup, id: SessionId, now: nat, spoke: bool)
    requires Safe(s) && id !in s.meta
    ensures var t := Step(c, s, Timed(now, DrowsyTimer(id, spoke)));
            if id in s.timers && s.timers[id].awakeFired
              && now >= s.timers[id].created + AtLeastOne(c.cacheTtlMs - c.bufferMs)
            then GoesDown(s, t, id) && t.meta == s.meta
            else t == s
  {
    SafeHere(s, id);
  }

  // ----- the other entry points -----

  /** The archiving check changes the session's status and nothing else, and that only under its condition. */
  lemma CheckEffect(c: Config, s: Sup, id: SessionId, now: nat)
    requires Safe(s)
    ensures var t := Step(c, s, Timed(now, CheckArchived(id)));
            var length := if id in s.turns then s.turns[id] else 0;
            if HasStatus(s, Some(id), Dormant) && id in s.meta && s.meta[id].l1Cursor >= length
              && s.meta[id].l2Cursor >= length
            then
              && t == s.(machine := t.machine, meta := s.meta[id := s.meta[id].(status := Archived)])
              && t.machine.states == s.machine.states[id := Archived] && t.machine.current == s.machine.current
            else t == s
  {
    OnlyOneAwake(s.machine);
  }

  /** The session that a request is counted for: the one named, or the Awake one. */
  ghost predicate CountedFor(s: Sup, session: Option<SessionId>, id: SessionId) {
    if session.Some? then session.value == id else s.machine.current == Some(id)
  }

  /** Only the row of `id` changes. */
  ghost predicate OnlyRow(s: Sup, t: Sup, id: SessionId) {
    t == s.(meta := t.meta) && t.meta.Keys == s.meta.Keys && forall x :: x in s.meta && x != id ==>
      t.meta[x] == s.meta[x]
  }

  /** One more request: the count goes up, the clock starts now, and renewals are counted from zero. */
  lemma RaisingEffect(c: Config, s: Sup, session: Option<SessionId>, id: SessionId, now: nat)
    requires CountedFor(s, session, id)
    ensures var t := Step(c, s, Timed(now, IncPending(session)));
            if id !in s.meta then t == s
            else OnlyRow(s, t, id)
                 && t.meta[id] == s.meta[id].(pending := s.meta[id].pending + 1, renewals := 0, start := Some(now))
  {
  }

  /** One request less: the count goes down but not below zero, and the last one takes the keep-alive state with it. */
  lemma LoweringEffect(c: Config, s: Sup, session: Option<SessionId>, id: SessionId, now: nat)
    requires CountedFor(s, session, id)
    ensures var t := Step(c, s, Timed(now, DecPending(session)));
            if id !in s.meta || s.meta[id].pending == 0 then t == s
            else OnlyRow(s, t, id)
                 && (if s.meta[id].pending == 1
                     then t.meta[id] == s.meta[id].(pending := 0, renewals := 0, start := None)
                     else t.meta[id] == s.meta[id].(pending := s.meta[id].pending - 1))
  {
  }

  lemma CountedForNone(c: Config, s: Sup, now: nat)
    requires s.machine.current == None
    ensures Step(c, s, Timed(now, IncPending(None))) == s && Step(c, s, Timed(now, DecPending(None))) == s
  {
  }

  /** One more turn of the session's history. */
  lemma AppendingEffect(c: Config, s: Sup, id: SessionId, now: nat)
    ensures var t := Step(c, s, Timed(now, AppendTurn(id)));
            && t == s.(turns := t.turns) && id in t.turns && t.turns == s.turns[id := t.turns[id]]
            && t.turns[id] == (if id in s.turns then s.turns[id] else 0) + 1
  {
  }
}
