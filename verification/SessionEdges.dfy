/** Which transitions each step of the Supervisor takes: one at most for each session. */
module SessionEdges {
  import opened Wrappers
  import opened SessionMachine
  import opened Supervision

  predicate Up(status: Status) {
    status == Awake || status == Drowsy
  }

  /** Sessions only change between Awake and Drowsy, and new ones begin there. */
  ghost predicate OnlySwaps(m: Machine, n: Machine) {
    && (forall id :: id in m.states ==>
        id in n.states && (n.states[id] == m.states[id] || (Up(m.states[id]) && Up(n.states[id]))))
    && (forall id :: id in n.states && id !in m.states ==> Up(n.states[id]))
  }

  lemma SwapsTrans(a: Machine, b: Machine, c: Machine)
    requires OnlySwaps(a, b) && OnlySwaps(b, c)
    ensures OnlySwaps(a, c)
  {
  }

  lemma DemotedSwaps(s: Sup, id: Option<SessionId>)
    ensures OnlySwaps(s.machine, DemotedIfAwake(s, id).machine)
  {
  }

  lemma CreatedSwaps(s: Sup, id: SessionId, now: nat)
    ensures OnlySwaps(s.machine, SessionCreated(s, id, now).0.machine)
  {
    hide DemotedIfAwake;
    DemotedSwaps(s, s.machine.current);
  }

  lemma SwitchedSwaps(s: Sup, v: Verdict, now: nat)
    ensures OnlySwaps(s.machine, SwitchedTo(s, v, now).machine)
  {
  }

  lemma SettledSwaps(s: Sup, v: Verdict, now: nat)
    ensures OnlySwaps(s.machine, Settled(s, v, now).machine)
  {
    var l := LingerReset(Refreshed(s, v, now), v.session);
    assert l.machine == s.machine;
    hide LingerReset, Refreshed, SwitchedTo, DemotedIfAwake, OnlySwaps;
    var w := SwitchedTo(l, v, now);
    SwitchedSwaps(l, v, now);
    DemotedSwaps(w, v.replaced);
    SwapsTrans(s.machine, w.machine, Settled(s, v, now).machine);
  }

  lemma ReceivedSwaps(s: Sup, v: Verdict, now: nat)
    ensures OnlySwaps(s.machine, Received(s, v, now).machine)
  {
    hide Settled, SessionCreated;
    if EngineRows(s.meta, v).Some? {
      var judged := s.(meta := EngineRows(s.meta, v).value);
      if v.action == CreateNew && v.session.Some? {
        var created := SessionCreated(judged, v.session.value, now).0;
        CreatedSwaps(judged, v.session.value, now);
        SettledSwaps(created, v, now);
        hide EngineRows;
      } else {
        SettledSwaps(judged, v, now);
      }
    }
  }

  lemma OverflowedSwaps(s: Sup, session: Option<SessionId>, newId: SessionId, now: nat)
    ensures OnlySwaps(s.machine, Overflowed(s, session, newId, now).machine)
  {
    hide SessionCreated, DemotedIfAwake;
    if session.Some? && session.value in s.meta && newId !in s.meta {
      var judged := s.(meta := s.meta[newId := NEW_ROW]);
      var d := DemotedIfAwake(judged, session);
      DemotedSwaps(judged, session);
      CreatedSwaps(d, newId, now);
    }
  }

  /** The one session that the step may take down for good: Drowsy to Dormant when its timer expires, Dormant to
      Archived when it is checked. */
  predicate TakesDown(m: Machine, n: Machine, id: SessionId, from: Status, to: Status) {
    n == m || (id in m.states && m.states[id] == from && n.states == m.states[id := to] && n.current == m.current)
  }

  lemma StepEdges(c: Config, s: Sup, t: Timed)
    ensures var m, n := s.machine, Step(c, s, t).machine;
            match t.op
            case DrowsyTimer(id, _) => TakesDown(m, n, id, Drowsy, Dormant)
            case CheckArchived(id) => TakesDown(m, n, id, Dormant, Archived)
            case _ => OnlySwaps(m, n)
  {
    hide Received, Overflowed, SessionCreated, OnExpiry, DrowsyDue, OnlySwaps, DemotedIfAwake;
    match t.op
    case ReceiveEvent(v) => ReceivedSwaps(s, v, t.at);
    case Overflow(session, newId) => OverflowedSwaps(s, session, newId, t.at);
    case NewSession(id) => CreatedSwaps(s, id, t.at);
    case AwakeTimer(id) => AwakeExpiredSwaps(c, s, id, t.at);
    case _ => NothingSwaps(s.machine);
  }

  lemma AwakeExpiredSwaps(c: Config, s: Sup, id: SessionId, now: nat)
    ensures OnlySwaps(s.machine, AwakeExpired(c, s, id, now).machine)
  {
  }

  lemma NothingSwaps(m: Machine)
    ensures OnlySwaps(m, m)
  {
  }

  /** In one step a session stays as it is or takes a single allowed transition, and a new one is Awake or Drowsy. */
  lemma StepTakesOneEdge(c: Config, s: Sup, t: Timed, id: SessionId)
    ensures var m, n := s.machine.states, Step(c, s, t).machine.states;
            && (id in m ==> id in n && (n[id] == m[id] || Allowed(m[id], n[id])))
            && (id !in m && id in n ==> Up(n[id]))
  {
    hide Step;
    StepEdges(c, s, t);
  }
}
