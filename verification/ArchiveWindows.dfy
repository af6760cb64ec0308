/**
  * The Supervisor together with the two Cerebellum layers at one session: what the archiving check finds there.
  * The other sessions' cursors may be moved by anyone at any time.
  */
module ArchiveWindows {
  import opened Wrappers
  import opened SessionMachine
  import opened Supervision
  import opened SessionEdges
  import W = CursorWindows

  /** The tables, and what each layer has consumed of the session. */
  datatype Joint = Joint(sup: Sup, l1: W.Layer, l2: W.Layer)

  /** A step of the Supervisor, or part of a layer's tick at the session. */
  datatype JointOp = Supervises(t: Timed) | Layer1(part: W.Event) | Layer2(part: W.Event)

  const FRESH := Joint(FRESH_STORE, W.FRESH_LAYER, W.FRESH_LAYER)

  /** The layers alone move this session's cursors, and a tick reads and writes a stored row only. Which rows a tick
      lists depends on their status when it starts; here it may take up the session in any status. */
  predicate Allowed(id: SessionId, j: Joint, op: JointOp) {
    match op
    case Supervises(t) => NamesFresh(j.sup, t.op) && !(t.op.MoveCursors? && t.op.id == id)
    case Layer1(part) => !part.Appended? && id in j.sup.meta
    case Layer2(part) => !part.Appended? && id in j.sup.meta
  }

  /** A commit stores the layer's own cursor; the other column keeps its value. */
  function JointStep(c: Config, id: SessionId, j: Joint, op: JointOp): Joint
    requires Allowed(id, j, op)
  {
    match op
    case Supervises(t) => j.(sup := Step(c, j.sup, t))
    case Layer1(part) =>
      var l := W.Next(Length(j.sup, id), j.l1, part).1;
      j.(l1 := l, sup := if part.Commits? then CursorsMoved(j.sup, id, l.cursor, j.sup.meta[id].l2Cursor) else j.sup)
    case Layer2(part) =>
      var l := W.Next(Length(j.sup, id), j.l2, part).1;
      j.(l2 := l, sup := if part.Commits? then CursorsMoved(j.sup, id, j.sup.meta[id].l1Cursor, l.cursor) else j.sup)
  }

  predicate AllAllowed(c: Config, id: SessionId, j: Joint, ops: seq<JointOp>)
    decreases |ops|
  {
    ops == [] || (Allowed(id, j, ops[0]) && AllAllowed(c, id, JointStep(c, id, j, ops[0]), ops[1..]))
  }

  function JointRun(c: Config, id: SessionId, j: Joint, ops: seq<JointOp>): Joint
    requires AllAllowed(c, id, j, ops)
    decreases |ops|
  {
    if ops == [] then j else JointRun(c, id, JointStep(c, id, j, ops[0]), ops[1..])
  }

  // ----- what the Supervisor leaves alone -----

  /** A row keeps its cursors, a new row starts at 0, and the history does not shrink. */
  ghost predicate KeepsCursors(s: Sup, t: Sup, id: SessionId) {
    && Length(s, id) <= Length(t, id)
    && (id in s.meta ==>
          id in t.meta && t.meta[id].l1Cursor == s.meta[id].l1Cursor && t.meta[id].l2Cursor == s.meta[id].l2Cursor)
    && (id !in s.meta && id in t.meta ==> t.meta[id].l1Cursor == 0 && t.meta[id].l2Cursor == 0)
  }

  lemma KeepsTrans(s: Sup, t: Sup, u: Sup, id: SessionId)
    requires KeepsCursors(s, t, id) && KeepsCursors(t, u, id)
    ensures KeepsCursors(s, u, id)
  {
  }

  lemma SessionCreatedKeeps(s: Sup, newId: SessionId, now: nat, id: SessionId)
    ensures KeepsCursors(s, SessionCreated(s, newId, now).0, id)
  {
  }

  lemma SettledKeeps(s: Sup, v: Verdict, now: nat, id: SessionId)
    ensures KeepsCursors(s, Settled(s, v, now), id)
  {
    hide LingerReset, Refreshed, SwitchedTo, DemotedIfAwake, KeepsCursors;
    var l := LingerReset(Refreshed(s, v, now), v.session);
    var w := SwitchedTo(l, v, now);
    RefreshedKeeps(s, v, now, id);
    SwitchedKeeps(l, v, now, id);
    DemotedKeeps(w, v.replaced, id);
    KeepsTrans(s, l, w, id);
    KeepsTrans(s, w, Settled(s, v, now), id);
  }

  lemma RefreshedKeeps(s: Sup, v: Verdict, now: nat, id: SessionId)
    ensures KeepsCursors(s, LingerReset(Refreshed(s, v, now), v.session), id)
  {
  }

  lemma DemotedKeeps(s: Sup, other: Option<SessionId>, id: SessionId)
    ensures KeepsCursors(s, DemotedIfAwake(s, other), id)
  {
    hide Transitioned;
  }

  lemma SwitchedKeeps(s: Sup, v: Verdict, now: nat, id: SessionId)
    ensures KeepsCursors(s, SwitchedTo(s, v, now), id)
  {
    hide Switched;
  }

  lemma ReceivedKeeps(s: Sup, v: Verdict, now: nat, id: SessionId)
    ensures KeepsCursors(s, Received(s, v, now), id)
  {
    hide Settled, SessionCreated;
    if EngineRows(s.meta, v).Some? {
      var judged := s.(meta := EngineRows(s.meta, v).value);
      assert KeepsCursors(s, judged, id);
      if v.action == CreateNew && v.session.Some? {
        var created := SessionCreated(judged, v.session.value, now).0;
        SessionCreatedKeeps(judged, v.session.value, now, id);
        SettledKeeps(created, v, now, id);
        KeepsTrans(s, judged, created, id);
        KeepsTrans(s, created, Settled(created, v, now), id);
      } else {
        SettledKeeps(judged, v, now, id);
        KeepsTrans(s, judged, Settled(judged, v, now), id);
      }
    }
  }

  lemma OverflowedKeeps(s: Sup, session: Option<SessionId>, newId: SessionId, now: nat, id: SessionId)
    ensures KeepsCursors(s, Overflowed(s, session, newId, now), id)
  {
    hide SessionCreated;
    if session.Some? && session.value in s.meta && newId !in s.meta {
      var d := DemotedIfAwake(s.(meta := s.meta[newId := NEW_ROW]), session);
      assert KeepsCursors(s, d, id);
      SessionCreatedKeeps(d, newId, now, id);
      KeepsTrans(s, d, SessionCreated(d, newId, now).0, id);
    }
  }

  /** Whatever the Supervisor does, it leaves a session's cursors alone. */
  lemma StepKeepsCursors(c: Config, s: Sup, t: Timed, id: SessionId)
    requires !(t.op.MoveCursors? && t.op.id == id)
    ensures KeepsCursors(s, Step(c, s, t), id)
  {
    hide Received, Overflowed, SessionCreated, OnExpiry;
    match t.op
    case ReceiveEvent(v) => ReceivedKeeps(s, v, t.at, id);
    case Overflow(session, newId) => OverflowedKeeps(s, session, newId, t.at, id);
    case NewSession(newId) => SessionCreatedKeeps(s, newId, t.at, id);
    case DrowsyTimer(expired, spoke) => DrowsyExpiredKeeps(c, s, expired, t.at, spoke, id);
    case _ =>
  }

  lemma DrowsyExpiredKeeps(c: Config, s: Sup, expired: SessionId, now: nat, spoke: bool, id: SessionId)
    ensures KeepsCursors(s, DrowsyExpired(c, s, expired, now, spoke), id)
  {
    hide DrowsyDue, Transitioned;
    if expired in s.meta {
      ExpiryKeepsCursors(c, s.meta[expired], now);
      hide OnExpiry;
    }
  }

  lemma ExpiryKeepsCursors(c: Config, m: Meta, now: nat)
    ensures var n := OnExpiry(c, m, now).0; n.l1Cursor == m.l1Cursor && n.l2Cursor == m.l2Cursor
  {
  }

  // ----- the stored cursors are the layers' own -----

  /** Both layers are sound, and the row holds their cursors; without a row neither has done anything. */
  ghost predicate Tied(id: SessionId, j: Joint) {
    && W.Good(Length(j.sup, id), j.l1) && W.Good(Length(j.sup, id), j.l2)
    && (if id in j.sup.meta then j.sup.meta[id].l1Cursor == j.l1.cursor && j.sup.meta[id].l2Cursor == j.l2.cursor
        else j.l1 == W.FRESH_LAYER && j.l2 == W.FRESH_LAYER)
  }

  lemma StepIsTied(c: Config, id: SessionId, j: Joint, op: JointOp)
    requires Tied(id, j) && Allowed(id, j, op)
    ensures Tied(id, JointStep(c, id, j, op))
  {
    hide Step, W.Contiguous, NamesFresh;
    match op
    case Supervises(t) => StepKeepsCursors(c, j.sup, t, id);
    case Layer1(part) => W.NextIsGood(Length(j.sup, id), j.l1, part);
    case Layer2(part) => W.NextIsGood(Length(j.sup, id), j.l2, part);
  }

  /** After any run the row's cursors are those up to which the layers have consumed the history. */
  lemma {:induction false} RunIsTied(c: Config, id: SessionId, j: Joint, ops: seq<JointOp>)
    requires Tied(id, j) && AllAllowed(c, id, j, ops)
    ensures Tied(id, JointRun(c, id, j, ops))
    decreases |ops|
  {
    hide Tied, JointStep, Allowed;
    if ops != [] {
      StepIsTied(c, id, j, ops[0]);
      RunIsTied(c, id, JointStep(c, id, j, ops[0]), ops[1..]);
    }
  }

  // ----- archiving -----

  /** Turn `k` lies in exactly one of the windows. */
  ghost predicate Once(ws: seq<W.Window>, k: nat) {
    && (exists i :: 0 <= i < |ws| && W.Within(ws[i], k))
    && (forall i, j :: 0 <= i < |ws| && 0 <= j < |ws| && W.Within(ws[i], k) && W.Within(ws[j], k) ==> i == j)
  }

  /** Each turn of the history lies in exactly one window that the layer has committed. */
  ghost predicate Consumed(l: W.Layer, length: nat) {
    forall k: nat :: k < length ==> Once(l.committed, k)
  }

  lemma ConsumedIffPast(l: W.Layer, length: nat)
    requires W.Good(length, l)
    ensures Consumed(l, length) <==> l.cursor >= length
  {
    forall k: nat
      ensures Once(l.committed, k) <==> k < l.cursor
    {
      W.WindowsCoverExactly(l.committed, l.cursor, k);
    }
    assert l.cursor < length ==> !Once(l.committed, l.cursor);
  }

  /** After any run from the empty store, the check archives a Dormant session exactly if it has a row and each of its
      turns lies in exactly one window of each layer. */
  lemma ArchivedIffConsumed(c: Config, id: SessionId, ops: seq<JointOp>, at: nat)
    requires AllAllowed(c, id, FRESH, ops)
    requires HasStatus(JointRun(c, id, FRESH, ops).sup, Some(id), Dormant)
    ensures var j := JointRun(c, id, FRESH, ops);
            HasStatus(Step(c, j.sup, Timed(at, CheckArchived(id))), Some(id), Archived)
            <==> id in j.sup.meta && Consumed(j.l1, Length(j.sup, id)) && Consumed(j.l2, Length(j.sup, id))
  {
    hide JointRun, AllAllowed, Consumed;
    RunIsTied(c, id, FRESH, ops);
    var j := JointRun(c, id, FRESH, ops);
    ConsumedIffPast(j.l1, Length(j.sup, id));
    ConsumedIffPast(j.l2, Length(j.sup, id));
  }

  /** No step but the check of a session archives it. */
  lemma OnlyTheCheckArchives(c: Config, s: Sup, t: Timed, id: SessionId)
    requires t.op != CheckArchived(id) && HasStatus(Step(c, s, t), Some(id), Archived)
    ensures HasStatus(s, Some(id), Archived)
  {
    hide Step;
    StepEdges(c, s, t);
  }

  /** Whenever a step of a run archives the session, each of its turns lies in exactly one window of each layer. */
  lemma ArchivingFindsAllConsumed(c: Config, id: SessionId, ops: seq<JointOp>, op: JointOp)
    requires AllAllowed(c, id, FRESH, ops) && Allowed(id, JointRun(c, id, FRESH, ops), op)
    requires !HasStatus(JointRun(c, id, FRESH, ops).sup, Some(id), Archived)
    requires HasStatus(JointStep(c, id, JointRun(c, id, FRESH, ops), op).sup, Some(id), Archived)
    ensures var j := JointRun(c, id, FRESH, ops);
            Consumed(j.l1, Length(j.sup, id)) && Consumed(j.l2, Length(j.sup, id))
  {
    hide JointRun, AllAllowed, Consumed, NamesFresh;
    var j := JointRun(c, id, FRESH, ops);
    assert op.Supervises?;
    if op.t.op != CheckArchived(id) {
      OnlyTheCheckArchives(c, j.sup, op.t, id);
      assert false;
    }
    ArchivedIffConsumed(c, id, ops, op.t.at);
  }
}
