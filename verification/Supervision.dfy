/**
  * What the Supervisor does to the state machine, the timers, the stored rows and the wake conditions,
  * one atomic step at a time, and what holds in every state that any run of such steps reaches.
  */
module Supervision {
  import opened Wrappers
  import opened SessionMachine

  const FORCED_RENEWAL_LIMIT := 5
  const FORCED_TIME_LIMIT_MS := 1800000

  /** One entry of the TTL manager: when it was armed and which of its two timers have fired. */
  datatype Timer = Timer(created: nat, awakeFired: bool, drowsyFired: bool)

  /** The columns of `session_meta` that the supervisor reads or writes. */
  datatype Meta = Meta(
    status: Status, linger: bool, lingerCount: nat, pending: nat, renewals: nat, start: Option<nat>,
    l1Cursor: nat, l2Cursor: nat)

  datatype Config = Config(cacheTtlMs: int, bufferMs: nat, maxLinger: int, lingerEnabled: bool, masterSwitch: bool)

  datatype Sup = Sup(
    machine: Machine, timers: map<SessionId, Timer>, meta: map<SessionId, Meta>, wake: set<SessionId>,
    turns: map<SessionId, nat>)

  datatype Action = AppendTo | SwitchTo | CreateNew | NoSession

  /** What the context engine decided about an event, and the linger flag it stored while deciding. */
  datatype Verdict = Verdict(action: Action, session: Option<SessionId>, replaced: Option<SessionId>, linger: bool)

  datatype Op =
    | ReceiveEvent(verdict: Verdict)
    | Overflow(session: Option<SessionId>, newId: SessionId)
    | NewSession(id: SessionId)
    | AwakeTimer(id: SessionId)
    | DrowsyTimer(id: SessionId, spoke: bool)
    | CheckArchived(id: SessionId)
    | IncPending(session: Option<SessionId>)
    | DecPending(session: Option<SessionId>)
    | AppendTurn(id: SessionId)
    | MoveCursors(id: SessionId, l1: nat, l2: nat)

  datatype Timed = Timed(at: nat, op: Op)

  const FRESH_STORE := Sup(Machine(map[], None), map[], map[], {}, map[])

  const NEW_ROW := Meta(Awake, false, 0, 0, 0, None, 0, 0)

  /** `setTimeout` waits at least one millisecond. */
  function Delay(ms: int): nat {
    if ms < 1 then 1 else ms
  }

  function AwakeDelay(c: Config): nat {
    Delay(c.cacheTtlMs - 2 * c.bufferMs)
  }

  function DrowsyDelay(c: Config): nat {
    Delay(c.cacheTtlMs - c.bufferMs)
  }

  // ----- the private steps -----

  /** `_updateStatus`: an UPDATE, so it does nothing to a session without a row. */
  function WithStatus(meta: map<SessionId, Meta>, id: SessionId, status: Status): map<SessionId, Meta> {
    if id in meta then meta[id := meta[id].(status := status)] else meta
  }

  /** `_demoteToDrowsy`; the source calls it on Awake sessions only. */
  function Demoted(s: Sup, id: SessionId): Sup
    requires id in s.machine.states && s.machine.states[id] == Awake
  {
    s.(machine := Transitioned(s.machine, id, Drowsy).value, meta := WithStatus(s.meta, id, Drowsy))
  }

  function DemotedIfAwake(s: Sup, id: Option<SessionId>): Sup {
    if id.Some? && id.value in s.machine.states && s.machine.states[id.value] == Awake then Demoted(s, id.value) else s
  }

  /** `_startTtl`. */
  function Armed(s: Sup, id: SessionId, now: nat): Sup {
    s.(timers := s.timers[id := Timer(now, false, false)])
  }

  /** `createSession`: the state it leaves and whether it completed; it demotes before it can throw. */
  function SessionCreated(s: Sup, id: SessionId, now: nat): (Sup, bool) {
    var d := DemotedIfAwake(s, s.machine.current);
    match Created(d.machine, id)
    case None => (d, false)
    case Some(machine) =>
      (Armed(d.(machine := machine, meta := WithStatus(d.meta, id, Awake), wake := d.wake + {id}), id, now), true)
  }

  /** The rows `_switchContext` rewrites after the machine has switched. */
  function Synced(meta: map<SessionId, Meta>, machine: Machine, target: SessionId): map<SessionId, Meta> {
    map id | id in meta ::
      if id in machine.states && (id == target || machine.states[id] == Drowsy)
      then meta[id].(status := machine.states[id]) else meta[id]
  }

  /** `_switchContext`, which the source calls on Drowsy targets only. */
  function ContextSwitched(s: Sup, target: SessionId, now: nat): Sup {
    match Switched(s.machine, target)
    case None => s
    case Some(machine) => Armed(s.(machine := machine, meta := Synced(s.meta, machine, target)), target, now)
  }

  // ----- receiving an event -----

  /** The rows the context engine writes while it judges the event; None when its INSERT throws. */
  function EngineRows(meta: map<SessionId, Meta>, v: Verdict): Option<map<SessionId, Meta>> {
    match v.session
    case None => Some(meta)
    case Some(id) =>
      match v.action
      case CreateNew => if id in meta then None else Some(meta[id := NEW_ROW])
      case NoSession => Some(meta)
      case _ => Some(if id in meta then meta[id := meta[id].(linger := v.linger)] else meta)
  }

  function LingerReset(s: Sup, session: Option<SessionId>): Sup {
    if session.Some? && session.value in s.meta && s.meta[session.value].lingerCount > 0
    then s.(meta := s.meta[session.value := s.meta[session.value].(lingerCount := 0)]) else s
  }

  predicate HasStatus(s: Sup, id: Option<SessionId>, status: Status) {
    id.Some? && id.value in s.machine.states && s.machine.states[id.value] == status
  }

  function Refreshed(s: Sup, v: Verdict, now: nat): Sup {
    if v.action == AppendTo && HasStatus(s, v.session, Awake) then Armed(s, v.session.value, now) else s
  }

  function SwitchedTo(s: Sup, v: Verdict, now: nat): Sup {
    if v.action == SwitchTo && HasStatus(s, v.session, Drowsy) then ContextSwitched(s, v.session.value, now) else s
  }

  /** What `receiveEvent` does once a new session, if one was wanted, exists. */
  function Settled(s: Sup, v: Verdict, now: nat): Sup {
    DemotedIfAwake(SwitchedTo(LingerReset(Refreshed(s, v, now), v.session), v, now), v.replaced)
  }

  /** `receiveEvent` up to the call of the Brain. */
  function Received(s: Sup, v: Verdict, now: nat): Sup {
    match EngineRows(s.meta, v)
    case None => s
    case Some(rows) =>
      var judged := s.(meta := rows);
      if v.action == CreateNew && v.session.Some? then
        var (created, ok) := SessionCreated(judged, v.session.value, now);
        if ok then Settled(created, v, now) else created
      else Settled(judged, v, now)
  }

  /** The overflow callback handed to the Brain: a new session takes over from the overflowing one. */
  function Overflowed(s: Sup, session: Option<SessionId>, newId: SessionId, now: nat): Sup {
    if session.None? || session.value !in s.meta || newId in s.meta then s
    else SessionCreated(DemotedIfAwake(s.(meta := s.meta[newId := NEW_ROW]), session), newId, now).0
  }

  // ----- timers -----

  function AwakeExpired(c: Config, s: Sup, id: SessionId, now: nat): Sup {
    if id !in s.timers || s.timers[id].awakeFired || now < s.timers[id].created + AwakeDelay(c) then s
    else DemotedIfAwake(s.(timers := s.timers[id := s.timers[id].(awakeFired := true)]), Some(id))
  }

  /** The Drowsy timer runs once, when due and after the Awake timer of the same entry, whose deadline is no later. */
  predicate DrowsyDue(c: Config, s: Sup, id: SessionId, now: nat) {
    && id in s.timers && s.timers[id].awakeFired && !s.timers[id].drowsyFired
    && now >= s.timers[id].created + DrowsyDelay(c)
  }

  /** `_checkLingerConditions`, which clears the flag once the count is exhausted. */
  function LingerCheck(c: Config, m: Meta): (Meta, bool) {
    if !m.linger then (m, false)
    else if m.lingerCount >= c.maxLinger then (m.(linger := false), false)
    else (m, true)
  }

  /** `startTime ? (now - startTime) : 0`: a start time of 0 reads as unset. */
  function Elapsed(m: Meta, now: nat): int {
    if m.start.Some? && m.start.value != 0 then now - m.start.value else 0
  }

  predicate Forced(m: Meta, now: nat) {
    m.renewals >= FORCED_RENEWAL_LIMIT && Elapsed(m, now) >= FORCED_TIME_LIMIT_MS
  }

  /** `_checkKeepAliveConditions`, which clears the pending state once renewal is refused for good. */
  function KeepAliveCheck(m: Meta, now: nat): (Meta, bool) {
    if m.pending == 0 then (m, false)
    else if Forced(m, now) then (m.(pending := 0, renewals := 0, start := None), false)
    else (m, true)
  }

  datatype Expiry = LingerTick | Renewal | GoDormant

  /** What an expired Drowsy timer does to the session's row, linger being looked at before keep-alive. */
  function OnExpiry(c: Config, m: Meta, now: nat): (Meta, Expiry) {
    var (m1, lingers) := LingerCheck(c, m);
    if c.lingerEnabled && c.masterSwitch && lingers then (m1.(lingerCount := m1.lingerCount + 1), LingerTick)
    else
      var (m2, renews) := KeepAliveCheck(m1, now);
      if renews then (m2.(renewals := m2.renewals + 1), Renewal) else (m2.(status := Dormant), GoDormant)
  }

  function Length(s: Sup, id: SessionId): nat {
    if id in s.turns then s.turns[id] else 0
  }

  function Appended(s: Sup, id: SessionId): Sup {
    s.(turns := s.turns[id := Length(s, id) + 1])
  }

  function FellDormant(s: Sup, id: SessionId): Sup
    requires HasStatus(s, Some(id), Drowsy)
  {
    s.(machine := Transitioned(s.machine, id, Dormant).value, timers := s.timers - {id}, wake := s.wake - {id})
  }

  /** `_handleDrowsyTtlExpired`; `spoke` tells whether the Brain returned text to append. */
  function DrowsyExpired(c: Config, s: Sup, id: SessionId, now: nat, spoke: bool): Sup {
    if !DrowsyDue(c, s, id, now) then s
    else
      var fired := s.(timers := s.timers[id := s.timers[id].(drowsyFired := true)]);
      if !HasStatus(s, Some(id), Drowsy) then fired
      else if id !in s.meta then FellDormant(fired, id)
      else
        var (m, next) := OnExpiry(c, s.meta[id], now);
        var written := fired.(meta := s.meta[id := m]);
        if next == GoDormant then FellDormant(written, id)
        else Armed(if spoke then Appended(written, id) else written, id, now)
  }

  // ----- the remaining entry points -----

  function ArchiveChecked(s: Sup, id: SessionId): Sup {
    if !HasStatus(s, Some(id), Dormant) || id !in s.meta then s
    else if s.meta[id].l1Cursor < Length(s, id) || s.meta[id].l2Cursor < Length(s, id) then s
    else s.(machine := Transitioned(s.machine, id, Archived).value, meta := WithStatus(s.meta, id, Archived))
  }

  /** `sessionId || getCurrentAwake()`. */
  function Target(s: Sup, session: Option<SessionId>): Option<SessionId> {
    if session.Some? then session else s.machine.current
  }

  function PendingRaised(s: Sup, session: Option<SessionId>, now: nat): Sup {
    match Target(s, session)
    case None => s
    case Some(id) =>
      if id !in s.meta then s
      else s.(meta := s.meta[id := s.meta[id].(pending := s.meta[id].pending + 1, start := Some(now), renewals := 0)])
  }

  function PendingLowered(s: Sup, session: Option<SessionId>): Sup {
    match Target(s, session)
    case None => s
    case Some(id) =>
      if id !in s.meta || s.meta[id].pending == 0 then s
      else
        var m := s.meta[id].(pending := s.meta[id].pending - 1);
        s.(meta := s.meta[id := if m.pending == 0 then m.(renewals := 0, start := None) else m])
  }

  function CursorsMoved(s: Sup, id: SessionId, l1: nat, l2: nat): Sup {
    if id in s.meta then s.(meta := s.meta[id := s.meta[id].(l1Cursor := l1, l2Cursor := l2)]) else s
  }

  function Step(c: Config, s: Sup, t: Timed): Sup {
    match t.op
    case ReceiveEvent(v) => Received(s, v, t.at)
    case Overflow(session, newId) => Overflowed(s, session, newId, t.at)
    case NewSession(id) => SessionCreated(s, id, t.at).0
    case AwakeTimer(id) => AwakeExpired(c, s, id, t.at)
    case DrowsyTimer(id, spoke) => DrowsyExpired(c, s, id, t.at, spoke)
    case CheckArchived(id) => ArchiveChecked(s, id)
    case IncPending(session) => PendingRaised(s, session, t.at)
    case DecPending(session) => PendingLowered(s, session)
    case AppendTurn(id) => Appended(s, id)
    case MoveCursors(id, l1, l2) => CursorsMoved(s, id, l1, l2)
  }

  function Run(c: Config, s: Sup, ops: seq<Timed>): Sup
    decreases |ops|
  {
    if ops == [] then s else Run(c, Step(c, s, ops[0]), ops[1..])
  }

  /** The context engine names new sessions by random UUIDs, so such a name is not in use yet. */
  predicate NamesFresh(s: Sup, op: Op) {
    match op
    case ReceiveEvent(v) => v.action == CreateNew && v.session.Some? ==> v.session.value !in s.machine.states
    case Overflow(_, newId) => newId !in s.machine.states
    case _ => true
  }

  predicate AllNamesFresh(c: Config, s: Sup, ops: seq<Timed>)
    decreases |ops|
  {
    ops == [] || (NamesFresh(s, ops[0].op) && AllNamesFresh(c, Step(c, s, ops[0]), ops[1..]))
  }

  // ----- safety -----

  /** Everything that ties the four tables together at one session. */
  ghost predicate SafeAt(s: Sup, id: SessionId) {
    && (id in s.timers <==> HasStatus(s, Some(id), Awake) || HasStatus(s, Some(id), Drowsy))
    && (id in s.wake <==> id in s.timers)
    && (id in s.timers ==> !s.timers[id].drowsyFired && (HasStatus(s, Some(id), Awake) ==> !s.timers[id].awakeFired))
    && (id in s.meta ==> id in s.machine.states && s.meta[id].status == s.machine.states[id])
    && (id in s.meta ==> (s.meta[id].pending > 0 <==> s.meta[id].start.Some?))
  }

  ghost predicate Safe(s: Sup) {
    Exact(s.machine) && forall id {:trigger SafeAt(s, id)} :: SafeAt(s, id)
  }

  /** Safe, except that the context engine may already have stored a row for a session not yet created. */
  ghost predicate SafeBefore(s: Sup, id: SessionId) {
    && Exact(s.machine)
    && (forall other {:trigger SafeAt(s, other)} :: other != id ==> SafeAt(s, other))
    && (SafeAt(s, id) || Unborn(s, id))
  }

  ghost predicate Unborn(s: Sup, id: SessionId) {
    && id !in s.machine.states && id !in s.timers && id !in s.wake
    && (id in s.meta ==> s.meta[id] == NEW_ROW)
  }

  lemma SafeIsSafeBefore(s: Sup, id: SessionId)
    requires Safe(s)
    ensures SafeBefore(s, id)
  {
    assert SafeAt(s, id);
  }

  lemma RowComesFirst(s: Sup, id: SessionId)
    requires Safe(s) && id !in s.machine.states
    ensures id !in s.meta && SafeBefore(s.(meta := s.meta[id := NEW_ROW]), id)
  {
    var j := s.(meta := s.meta[id := NEW_ROW]);
    assert SafeAt(s, id);
    forall other | other != id ensures SafeAt(j, other) {
      assert SafeAt(s, other);
    }
  }

  lemma CurrentIsAwake(m: Machine)
    requires Exact(m)
    ensures m.current.Some? ==> m.current.value in m.states && m.states[m.current.value] == Awake
  {
    if m.current.Some? {
      var k := m.current.value;
      assert k in m.states && m.current == Some(k);
    }
  }

  lemma DemotedIsSafeBefore(s: Sup, id: Option<SessionId>, unborn: SessionId)
    requires SafeBefore(s, unborn)
    ensures var d := DemotedIfAwake(s, id);
            && SafeBefore(d, unborn) && Follows(s.machine, d.machine)
            && d.machine.states.Keys == s.machine.states.Keys
            && !HasStatus(d, id, Awake)
            && (id == s.machine.current ==> d.machine.current.None?)
  {
    var d := DemotedIfAwake(s, id);
    if HasStatus(s, id, Awake) {
      TransitionedIsExact(s.machine, id.value, Drowsy);
    }
    CurrentIsAwake(s.machine);
    forall other | other != unborn ensures SafeAt(d, other) {
      assert SafeAt(s, other);
    }
  }

  lemma DemotedIsSafe(s: Sup, id: Option<SessionId>)
    requires Safe(s)
    ensures Safe(DemotedIfAwake(s, id)) && Follows(s.machine, DemotedIfAwake(s, id).machine)
  {
    var d := DemotedIfAwake(s, id);
    if HasStatus(s, id, Awake) {
      TransitionedIsExact(s.machine, id.value, Drowsy);
    }
    forall other ensures SafeAt(d, other) {
      assert SafeAt(s, other);
    }
  }

  /** Creating a session is safe from both kinds of state, and it completes exactly when the name is unused. */
  lemma SessionCreatedIsSafe(s: Sup, id: SessionId, now: nat)
    requires SafeBefore(s, id)
    requires id in s.machine.states ==> SafeAt(s, id)
    ensures var (t, ok) := SessionCreated(s, id, now);
            && Safe(t) && Follows(s.machine, t.machine)
            && (ok <==> id !in s.machine.states)
            && (ok ==> t.machine.current == Some(id))
  {
    var d := DemotedIfAwake(s, s.machine.current);
    DemotedIsSafeBefore(s, s.machine.current, id);
    var t := SessionCreated(s, id, now).0;
    if id !in s.machine.states {
      assert Created(d.machine, id).Some?;
      CreatedIsExact(d.machine, id);
      FollowsTrans(s.machine, d.machine, t.machine);
    }
    forall other ensures SafeAt(t, other) {
      if other != id {
        assert SafeAt(d, other);
      }
    }
  }

  lemma ContextSwitchedIsSafe(s: Sup, target: SessionId, now: nat)
    requires Safe(s)
    ensures Safe(ContextSwitched(s, target, now)) && Follows(s.machine, ContextSwitched(s, target, now).machine)
    ensures HasStatus(s, Some(target), Drowsy) ==> ContextSwitched(s, target, now).machine.current == Some(target)
  {
    SwitchedIsExact(s.machine, target);
    var t := ContextSwitched(s, target, now);
    if Switched(s.machine, target).Some? {
      forall other ensures SafeAt(t, other) {
        assert SafeAt(s, other);
      }
    }
  }

  /** A change of a session's row that keeps its status and the pending discipline is safe. */
  lemma RowChangeIsSafe(s: Sup, id: SessionId, m: Meta)
    requires Safe(s) && id in s.meta && m.status == s.meta[id].status && (m.pending > 0 <==> m.start.Some?)
    ensures Safe(s.(meta := s.meta[id := m]))
  {
    var t := s.(meta := s.meta[id := m]);
    forall other ensures SafeAt(t, other) {
      assert SafeAt(s, other);
    }
  }

  lemma ArmedIsSafe(s: Sup, id: SessionId, now: nat)
    requires Safe(s) && id in s.timers
    ensures Safe(Armed(s, id, now))
  {
    forall other ensures SafeAt(Armed(s, id, now), other) {
      assert SafeAt(s, other);
    }
  }

  lemma JudgedIsSafe(s: Sup, v: Verdict)
    requires Safe(s) && !(v.action == CreateNew && v.session.Some?)
    ensures EngineRows(s.meta, v).Some? && Safe(s.(meta := EngineRows(s.meta, v).value))
  {
    if v.session.Some? && v.session.value in s.meta && v.action != NoSession {
      var id := v.session.value;
      assert SafeAt(s, id);
      RowChangeIsSafe(s, id, s.meta[id].(linger := v.linger));
    }
  }

  lemma SettledIsSafe(s: Sup, v: Verdict, now: nat)
    requires Safe(s)
    ensures Safe(Settled(s, v, now)) && Follows(s.machine, Settled(s, v, now).machine)
  {
    hide DemotedIfAwake, ContextSwitched, Follows, Exact;
    var r := Refreshed(s, v, now);
    if HasStatus(s, v.session, Awake) {
      assert SafeAt(s, v.session.value);
      ArmedIsSafe(s, v.session.value, now);
    }
    var l := LingerReset(r, v.session);
    if v.session.Some? && v.session.value in r.meta {
      var id := v.session.value;
      assert SafeAt(r, id);
      RowChangeIsSafe(r, id, r.meta[id].(lingerCount := 0));
    }
    assert Safe(l) && l.machine == s.machine;
    var w := SwitchedTo(l, v, now);
    FollowsRefl(s.machine);
    if v.session.Some? {
      ContextSwitchedIsSafe(l, v.session.value, now);
    }
    DemotedIsSafe(w, v.replaced);
    FollowsTrans(s.machine, w.machine, Settled(s, v, now).machine);
  }

  lemma ReceivedIsSafe(s: Sup, v: Verdict, now: nat)
    requires Safe(s) && NamesFresh(s, ReceiveEvent(v))
    ensures Safe(Received(s, v, now)) && Follows(s.machine, Received(s, v, now).machine)
  {
    hide Safe, SafeBefore, SafeAt, SessionCreated, Settled, Follows;
    if v.action == CreateNew && v.session.Some? {
      var id := v.session.value;
      RowComesFirst(s, id);
      var judged := s.(meta := s.meta[id := NEW_ROW]);
      SessionCreatedIsSafe(judged, id, now);
      var created := SessionCreated(judged, id, now).0;
      SettledIsSafe(created, v, now);
      FollowsTrans(s.machine, created.machine, Received(s, v, now).machine);
    } else {
      JudgedIsSafe(s, v);
      SettledIsSafe(s.(meta := EngineRows(s.meta, v).value), v, now);
    }
  }

  lemma OverflowedIsSafe(s: Sup, session: Option<SessionId>, newId: SessionId, now: nat)
    requires Safe(s) && NamesFresh(s, Overflow(session, newId))
    ensures Safe(Overflowed(s, session, newId, now)) && Follows(s.machine, Overflowed(s, session, newId, now).machine)
  {
    hide Safe, SafeBefore, SafeAt, SessionCreated, DemotedIfAwake, Follows;
    FollowsRefl(s.machine);
    RowComesFirst(s, newId);
    var judged := s.(meta := s.meta[newId := NEW_ROW]);
    DemotedIsSafeBefore(judged, session, newId);
    var d := DemotedIfAwake(judged, session);
    SessionCreatedIsSafe(d, newId, now);
    FollowsTrans(s.machine, d.machine, SessionCreated(d, newId, now).0.machine);
  }

  lemma AwakeExpiredIsSafe(c: Config, s: Sup, id: SessionId, now: nat)
    requires Safe(s)
    ensures Safe(AwakeExpired(c, s, id, now)) && Follows(s.machine, AwakeExpired(c, s, id, now).machine)
  {
    FollowsRefl(s.machine);
    var t := AwakeExpired(c, s, id, now);
    if t != s {
      if HasStatus(s, Some(id), Awake) {
        TransitionedIsExact(s.machine, id, Drowsy);
      }
      forall other ensures SafeAt(t, other) {
        assert SafeAt(s, other);
      }
    }
  }

  /** An expired Drowsy timer always finds its session Drowsy, so its callback never returns without acting. */
  lemma ExpiryFindsDrowsy(c: Config, s: Sup, id: SessionId, now: nat)
    requires Safe(s) && DrowsyDue(c, s, id, now)
    ensures HasStatus(s, Some(id), Drowsy)
  {
    assert SafeAt(s, id);
  }

  lemma FellDormantIsSafe(s: Sup, t: Sup, id: SessionId)
    requires Safe(s) && HasStatus(s, Some(id), Drowsy) && t.machine == s.machine && t.wake == s.wake
             && t.turns == s.turns
    requires t.timers.Keys == s.timers.Keys && t.timers - {id} == s.timers - {id}
    requires t.meta.Keys == s.meta.Keys && t.meta - {id} == s.meta - {id}
    requires id in t.meta ==> t.meta[id].status == Dormant && (t.meta[id].pending > 0 <==> t.meta[id].start.Some?)
    ensures Safe(FellDormant(t, id)) && Follows(s.machine, FellDormant(t, id).machine)
  {
    TransitionedIsExact(s.machine, id, Dormant);
    var u := FellDormant(t, id);
    forall other ensures SafeAt(u, other) {
      assert SafeAt(s, other);
      if other != id {
        assert other in t.meta ==> other in t.meta - {id} && (t.meta - {id})[other] == (s.meta - {id})[other];
        assert other in t.timers ==> other in t.timers - {id} && (t.timers - {id})[other] == (s.timers - {id})[other];
      }
    }
  }

  lemma RenewedIsSafe(s: Sup, t: Sup, id: SessionId, now: nat)
    requires Safe(s) && HasStatus(s, Some(id), Drowsy) && t.machine == s.machine && t.wake == s.wake
    requires t.timers.Keys == s.timers.Keys && t.timers - {id} == s.timers - {id}
    requires t.meta.Keys == s.meta.Keys && t.meta - {id} == s.meta - {id}
    requires id in t.meta ==> t.meta[id].status == Drowsy && (t.meta[id].pending > 0 <==> t.meta[id].start.Some?)
    ensures Safe(Armed(t, id, now)) && Follows(s.machine, Armed(t, id, now).machine)
  {
    var u := Armed(t, id, now);
    forall other ensures SafeAt(u, other) {
      assert SafeAt(s, other);
      if other != id {
        assert other in t.meta ==> other in t.meta - {id} && (t.meta - {id})[other] == (s.meta - {id})[other];
        assert other in t.timers ==> other in t.timers - {id} && (t.timers - {id})[other] == (s.timers - {id})[other];
      }
    }
  }

  lemma DrowsyExpiredIsSafe(c: Config, s: Sup, id: SessionId, now: nat, spoke: bool)
    requires Safe(s)
    ensures Safe(DrowsyExpired(c, s, id, now, spoke)) && Follows(s.machine, DrowsyExpired(c, s, id, now, spoke).machine)
  {
    hide Safe, Follows, FellDormant;
    FollowsRefl(s.machine);
    if DrowsyDue(c, s, id, now) {
      ExpiryFindsDrowsy(c, s, id, now);
      SafeHere(s, id);
      var fired := s.(timers := s.timers[id := s.timers[id].(drowsyFired := true)]);
      if id !in s.meta {
        FellDormantIsSafe(s, fired, id);
      } else {
        var (m, next) := OnExpiry(c, s.meta[id], now);
        var written := fired.(meta := s.meta[id := m]);
        if next == GoDormant {
          FellDormantIsSafe(s, written, id);
        } else {
          RenewedIsSafe(s, if spoke then Appended(written, id) else written, id, now);
        }
      }
    }
  }

  lemma SafeHere(s: Sup, id: SessionId)
    requires Safe(s)
    ensures SafeAt(s, id)
  {
  }

  lemma FollowsRefl(m: Machine)
    ensures Follows(m, m)
  {
  }

  lemma ArchiveCheckedIsSafe(s: Sup, id: SessionId)
    requires Safe(s)
    ensures Safe(ArchiveChecked(s, id)) && Follows(s.machine, ArchiveChecked(s, id).machine)
  {
    var t := ArchiveChecked(s, id);
    FollowsRefl(s.machine);
    if t != s {
      TransitionedIsExact(s.machine, id, Archived);
      forall other ensures SafeAt(t, other) {
        assert SafeAt(s, other);
      }
    }
  }

  lemma BookkeepingIsSafe(c: Config, s: Sup, t: Timed)
    requires Safe(s) && (t.op.IncPending? || t.op.DecPending? || t.op.AppendTurn? || t.op.MoveCursors?)
    ensures Safe(Step(c, s, t)) && Step(c, s, t).machine == s.machine
  {
    var u := Step(c, s, t);
    forall other ensures SafeAt(u, other) {
      assert SafeAt(s, other);
    }
  }

  /** One step of any kind keeps the tables tied together and moves sessions only along allowed transitions. */
  lemma StepIsSafe(c: Config, s: Sup, t: Timed)
    requires Safe(s) && NamesFresh(s, t.op)
    ensures Safe(Step(c, s, t)) && Follows(s.machine, Step(c, s, t).machine)
  {
    hide Safe, Follows, SafeBefore, Received, Overflowed, SessionCreated, AwakeExpired, DrowsyExpired, ArchiveChecked;
    FollowsRefl(s.machine);
    match t.op
    case ReceiveEvent(v) => ReceivedIsSafe(s, v, t.at);
    case Overflow(session, newId) => OverflowedIsSafe(s, session, newId, t.at);
    case NewSession(id) =>
      SafeIsSafeBefore(s, id);
      SafeHere(s, id);
      SessionCreatedIsSafe(s, id, t.at);
    case AwakeTimer(id) => AwakeExpiredIsSafe(c, s, id, t.at);
    case DrowsyTimer(id, spoke) => DrowsyExpiredIsSafe(c, s, id, t.at, spoke);
    case CheckArchived(id) => ArchiveCheckedIsSafe(s, id);
    case _ => BookkeepingIsSafe(c, s, t);
  }

  /** Safety over every run: one Awake session at most, rows that agree, timers exactly for Awake and
      Drowsy sessions. */
  lemma {:induction false} RunIsSafe(c: Config, s: Sup, ops: seq<Timed>)
    requires Safe(s) && AllNamesFresh(c, s, ops)
    ensures Safe(Run(c, s, ops)) && Follows(s.machine, Run(c, s, ops).machine)
    decreases |ops|
  {
    hide Safe, Follows, Step;
    FollowsRefl(s.machine);
    if ops != [] {
      var t := Step(c, s, ops[0]);
      StepIsSafe(c, s, ops[0]);
      RunIsSafe(c, t, ops[1..]);
      FollowsTrans(s.machine, t.machine, Run(c, s, ops).machine);
    }
  }

  /** The same from the empty store, spelled out. */
  lemma FreshRunIsSafe(c: Config, ops: seq<Timed>, id: SessionId, other: SessionId)
    requires AllNamesFresh(c, FRESH_STORE, ops)
    ensures var s := Run(c, FRESH_STORE, ops);
            && (HasStatus(s, Some(id), Awake) && HasStatus(s, Some(other), Awake) ==> id == other)
            && (HasStatus(s, Some(id), Awake) <==> s.machine.current == Some(id))
            && (id in s.timers <==> HasStatus(s, Some(id), Awake) || HasStatus(s, Some(id), Drowsy))
            && (id in s.meta ==> HasStatus(s, Some(id), s.meta[id].status))
            && (id in s.meta ==> (s.meta[id].pending > 0 <==> s.meta[id].start.Some?))
  {
    hide Run, AllNamesFresh;
    forall x ensures SafeAt(FRESH_STORE, x) {}
    RunIsSafe(c, FRESH_STORE, ops);
    SafeHere(Run(c, FRESH_STORE, ops), id);
  }

  /** A session never leaves Dormant except to be archived, and Archived is final. */
  lemma DormantIsNeverRevived(c: Config, s: Sup, ops: seq<Timed>, id: SessionId)
    requires Safe(s) && AllNamesFresh(c, s, ops)
    requires HasStatus(s, Some(id), Dormant) || HasStatus(s, Some(id), Archived)
    ensures var u := Run(c, s, ops);
            && (HasStatus(u, Some(id), Dormant) || HasStatus(u, Some(id), Archived))
            && (HasStatus(s, Some(id), Archived) ==> HasStatus(u, Some(id), Archived))
            && id !in u.timers
  {
    hide Run, AllNamesFresh;
    RunIsSafe(c, s, ops);
    SafeHere(Run(c, s, ops), id);
  }

  /** An archiving step finds both Cerebellum cursors at or past the end of the session's history, and only then. */
  lemma ArchivedIffBothCursorsDone(c: Config, s: Sup, id: SessionId, at: nat)
    requires Safe(s) && HasStatus(s, Some(id), Dormant)
    ensures HasStatus(Step(c, s, Timed(at, CheckArchived(id))), Some(id), Archived)
            <==> id in s.meta && s.meta[id].l1Cursor >= Length(s, id) && s.meta[id].l2Cursor >= Length(s, id)
  {
    SafeHere(s, id);
  }

  // ----- what the operations are for -----

  /** The session's timers start anew at `now`, and its linger count from zero. */
  ghost predicate Refreshes(t: Sup, id: SessionId, now: nat) {
    && id in t.timers && t.timers[id] == Timer(now, false, false)
    && (id in t.meta ==> t.meta[id].lingerCount == 0)
  }

  /** An event for the Awake session refreshes it and leaves every status alone. */
  lemma AppendedEventRefreshes(s: Sup, v: Verdict, now: nat)
    requires Safe(s) && v.action == AppendTo && v.replaced.None? && HasStatus(s, v.session, Awake)
    ensures Refreshes(Received(s, v, now), v.session.value, now)
    ensures Received(s, v, now).machine == s.machine
  {
  }

  /** An event for a Drowsy session wakes it with fresh timers, and sends the Awake session, if any, to Drowsy. */
  lemma SwitchingEventWakes(s: Sup, v: Verdict, now: nat)
    requires Safe(s) && v.action == SwitchTo && v.replaced.None? && HasStatus(s, v.session, Drowsy)
    ensures var t := Received(s, v, now);
            && Refreshes(t, v.session.value, now) && t.machine.current == v.session
            && HasStatus(t, v.session, Awake)
            && (s.machine.current.Some? ==> HasStatus(t, s.machine.current, Drowsy))
            && (v.session.value in t.meta ==> t.meta[v.session.value].status == Awake)
  {
    hide Safe, SafeAt, ContextSwitched;
    JudgedIsSafe(s, v);
    var judged := s.(meta := EngineRows(s.meta, v).value);
    var l := LingerReset(Refreshed(judged, v, now), v.session);
    SwitchOutcome(l, v.session.value, now);
  }

  lemma SwitchOutcome(s: Sup, target: SessionId, now: nat)
    requires Exact(s.machine) && HasStatus(s, Some(target), Drowsy)
    ensures var t := ContextSwitched(s, target, now);
            && t.timers == s.timers[target := Timer(now, false, false)] && t.machine.current == Some(target)
            && HasStatus(t, Some(target), Awake)
            && (s.machine.current.Some? ==> HasStatus(t, s.machine.current, Drowsy))
            && (target in s.meta <==> target in t.meta)
            && (target in t.meta ==>
                t.meta[target].status == Awake && t.meta[target].lingerCount == s.meta[target].lingerCount)
  {
    SwitchedIsExact(s.machine, target);
    CurrentIsAwake(s.machine);
  }

  /** An event that opens a session leaves it Awake with a row and fresh timers, and the old one Drowsy. */
  lemma CreatingEventWakes(s: Sup, v: Verdict, now: nat)
    requires Safe(s) && NamesFresh(s, ReceiveEvent(v)) && v.action == CreateNew && v.session.Some? && v.replaced.None?
    ensures var t := Received(s, v, now);
            && Refreshes(t, v.session.value, now) && t.machine.current == v.session
            && v.session.value in t.meta && t.meta[v.session.value] == NEW_ROW
            && (s.machine.current.Some? ==> HasStatus(t, s.machine.current, Drowsy))
  {
    hide Safe, SafeAt;
    var id := v.session.value;
    RowComesFirst(s, id);
    CurrentIsAwake(s.machine);
  }

  /**
    * Exactly when an expired Drowsy timer sends its session to Dormant: no linger tick is due, and nothing is
    * pending, or it was renewed five times and half an hour has passed since a start time other than 0.
    */
  lemma GoesDormantIff(c: Config, s: Sup, id: SessionId, now: nat, spoke: bool)
    requires Safe(s) && DrowsyDue(c, s, id, now) && id in s.meta
    ensures var m := s.meta[id];
            HasStatus(DrowsyExpired(c, s, id, now, spoke), Some(id), Dormant) <==>
            && !(c.lingerEnabled && c.masterSwitch && m.linger && m.lingerCount < c.maxLinger)
            && (m.pending == 0
                || (m.renewals >= 5 && m.start.Some? && m.start.value != 0 && now - m.start.value >= 30 * 60 * 1000))
  {
    SafeHere(s, id);
  }

  /** While a linger tick is due, keep-alive is not even looked at; an exhausted count clears the flag. */
  lemma LingerComesFirst(c: Config, m: Meta, now: nat)
    ensures var (n, what) := OnExpiry(c, m, now);
            && (c.lingerEnabled && c.masterSwitch && m.linger && m.lingerCount < c.maxLinger ==>
                  what == LingerTick && n == m.(lingerCount := m.lingerCount + 1))
            && (what == LingerTick ==> n.pending == m.pending && n.renewals == m.renewals && n.start == m.start)
            && (m.linger && m.lingerCount >= c.maxLinger ==> !n.linger)
            && (what == Renewal ==> n.renewals == m.renewals + 1 && n.pending == m.pending > 0 && n.start == m.start)
            && (what == GoDormant && m.start.Some? && m.pending > 0 ==>
                n.pending == 0 && n.renewals == 0 && n.start.None?)
  {
  }

  /** Counting one request up and down again restores a session that had none pending. */
  lemma PendingUpAndDown(s: Sup, id: SessionId, now: nat)
    requires Safe(s) && id in s.meta && s.meta[id].pending == 0 && s.meta[id].renewals == 0
    ensures PendingLowered(PendingRaised(s, Some(id), now), Some(id)) == s
  {
    SafeHere(s, id);
    var u := PendingLowered(PendingRaised(s, Some(id), now), Some(id));
    assert u.meta == s.meta;
  }
}
