/** The Supervisor and its TTL manager as objects, proved to take exactly the steps of module Supervision. */
module SupervisorHost {
  import opened Wrappers
  import opened SessionMachine
  import opened Supervision

  class TtlManager {
    var timers: map<SessionId, Timer>

    constructor ()
      ensures timers == map[]
    {
      timers := map[];
    }

    method Clear(id: SessionId)
      modifies this
      ensures timers == old(timers) - {id}
    {
      if id in timers {
        timers := timers - {id};
      }
    }

    method StartAwake(id: SessionId, now: nat)
      modifies this
      ensures timers == old(timers)[id := Timer(now, false, false)]
    {
      Clear(id);
      timers := timers[id := Timer(now, false, false)];
    }
  }

  class Supervisor {
    const config: Config
    const machine: SessionStateMachine
    const ttl: TtlManager
    var meta: map<SessionId, Meta>
    var wake: set<SessionId>
    var turns: map<SessionId, nat>

    function Value(): Sup
      reads this, machine, ttl
    {
      Sup(machine.Value(), ttl.timers, meta, wake, turns)
    }

    ghost predicate Valid()
      reads this, machine, ttl
    {
      Safe(Value())
    }

    constructor (c: Config)
      ensures Valid() && Value() == FRESH_STORE && config == c && fresh(machine) && fresh(ttl)
    {
      config := c;
      var m := new SessionStateMachine();
      var t := new TtlManager();
      machine, ttl := m, t;
      meta, wake, turns := map[], {}, map[];
      new;
      forall x ensures SafeAt(FRESH_STORE, x) {}
    }

    method UpdateStatus(id: SessionId, status: Status)
      modifies this`meta
      ensures meta == WithStatus(old(meta), id, status)
    {
      if id in meta {
        meta := meta[id := meta[id].(status := status)];
      }
    }

    /** `if status is awake then _demoteToDrowsy`, the form in which every caller but one uses it. */
    method DemoteIfAwake(id: Option<SessionId>)
      modifies this`meta, machine
      ensures Value() == DemotedIfAwake(old(Value()), id)
    {
      if id.Some? && id.value in machine.states && machine.states[id.value] == Awake {
        var ok := machine.Transition(id.value, Drowsy);
        UpdateStatus(id.value, Drowsy);
      }
    }

    method CreateSession(id: SessionId, now: nat) returns (ok: bool)
      requires Exact(machine.Value())
      modifies this, machine, ttl
      ensures (Value(), ok) == SessionCreated(old(Value()), id, now)
    {
      DemoteIfAwake(machine.currentAwake);
      ok := machine.Create(id);
      if ok {
        UpdateStatus(id, Awake);
        ttl.StartAwake(id, now);
        wake := wake + {id};
      }
    }

    method SwitchContext(target: SessionId, now: nat)
      requires Exact(machine.Value())
      requires HasStatus(Value(), Some(target), Drowsy)
      modifies this`meta, machine, ttl
      ensures Value() == ContextSwitched(old(Value()), target, now)
    {
      SwitchedIsExact(machine.Value(), target);
      var ok := machine.SwitchContext(target);
      RewriteRows(target);
      ttl.StartAwake(target, now);
    }

    /** The loop over all sessions that stores the target's status and every Drowsy one. */
    method RewriteRows(target: SessionId)
      modifies this`meta
      ensures meta == Synced(old(meta), machine.Value(), target)
    {
      var left := machine.states.Keys;
      ghost var was := meta;
      ghost var goal := Synced(meta, machine.Value(), target);
      assert goal.Keys == was.Keys;
      while left != {}
        invariant left <= machine.states.Keys && meta.Keys == was.Keys
        invariant forall id :: id in was && id in left ==> meta[id] == was[id]
        invariant forall id :: id in was && id !in left ==> meta[id] == goal[id]
        decreases |left|
      {
        SomeMember(left);
        var id :| id in left;
        var status := machine.states[id];
        if id == target || status == Drowsy {
          UpdateStatus(id, status);
        }
        left := left - {id};
      }
      assert left == {};
      assert meta.Keys == goal.Keys;
      forall id | id in meta ensures meta[id] == goal[id] {
        assert id in was && id !in left;
      }
    }

    /** `receiveEvent` up to the call of the Brain, for the verdict `v` of the context engine. */
    method ReceiveEvent(v: Verdict, now: nat)
      requires Valid() && NamesFresh(Value(), Op.ReceiveEvent(v))
      modifies this, machine, ttl
      ensures Value() == Received(old(Value()), v, now)
      ensures Valid() && Follows(old(machine.Value()), machine.Value())
    {
      ghost var s := Value();
      ReceivedIsSafe(s, v, now);
      var judged := EngineRows(meta, v);
      if judged.None? {
        return;
      }
      meta := judged.value;
      if v.action == CreateNew && v.session.Some? {
        var ok := CreateSession(v.session.value, now);
        if !ok {
          return;
        }
        assert Exact(machine.Value());
      } else {
        JudgedIsSafe(s, v);
      }
      Settle(v, now);
    }

    /** Steps 2b to 4 of `receiveEvent`. */
    method Settle(v: Verdict, now: nat)
      requires Exact(machine.Value())
      modifies this`meta, machine, ttl
      ensures Value() == Settled(old(Value()), v, now)
    {
      if v.action == AppendTo && HasStatus(Value(), v.session, Awake) {
        ttl.StartAwake(v.session.value, now);
      }
      if v.session.Some? && v.session.value in meta && meta[v.session.value].lingerCount > 0 {
        meta := meta[v.session.value := meta[v.session.value].(lingerCount := 0)];
      }
      assert Value() == LingerReset(Refreshed(old(Value()), v, now), v.session);
      if v.action == SwitchTo && HasStatus(Value(), v.session, Drowsy) {
        SwitchContext(v.session.value, now);
      }
      DemoteIfAwake(v.replaced);
    }

    /** The overflow callback given to the Brain; the context engine stores the new session's row first. */
    method OnOverflow(session: Option<SessionId>, newId: SessionId, now: nat)
      requires Valid() && NamesFresh(Value(), Op.Overflow(session, newId))
      modifies this, machine, ttl
      ensures Value() == Overflowed(old(Value()), session, newId, now)
      ensures Valid() && Follows(old(machine.Value()), machine.Value())
    {
      OverflowedIsSafe(Value(), session, newId, now);
      if session.None? || session.value !in meta || newId in meta {
        return;
      }
      RowComesFirst(Value(), newId);
      meta := meta[newId := NEW_ROW];
      DemotedIsSafeBefore(Value(), session, newId);
      DemoteIfAwake(session);
      var ok := CreateSession(newId, now);
    }

    method HandleAwakeTtlExpired(id: SessionId, now: nat)
      requires Valid()
      requires id in ttl.timers && !ttl.timers[id].awakeFired && now >= ttl.timers[id].created + AwakeDelay(config)
      modifies this, machine, ttl
      ensures Value() == AwakeExpired(config, old(Value()), id, now)
      ensures Valid() && Follows(old(machine.Value()), machine.Value())
    {
      AwakeExpiredIsSafe(config, Value(), id, now);
      ttl.timers := ttl.timers[id := ttl.timers[id].(awakeFired := true)];
      DemoteIfAwake(Some(id));
    }

    method CheckLingerConditions(id: SessionId) returns (lingers: bool)
      modifies this`meta
      ensures id !in old(meta) ==> !lingers && meta == old(meta)
      ensures id in old(meta) ==>
                var (m, met) := LingerCheck(config, old(meta[id])); lingers == met && meta == old(meta)[id := m]
    {
      if id !in meta || !meta[id].linger {
        return false;
      }
      if meta[id].lingerCount >= config.maxLinger {
        meta := meta[id := meta[id].(linger := false)];
        return false;
      }
      return true;
    }

    method CheckKeepAliveConditions(id: SessionId, now: nat) returns (renews: bool)
      modifies this`meta
      ensures id !in old(meta) ==> !renews && meta == old(meta)
      ensures id in old(meta) ==>
                var (m, met) := KeepAliveCheck(old(meta[id]), now); renews == met && meta == old(meta)[id := m]
    {
      if id !in meta || meta[id].pending == 0 {
        return false;
      }
      var elapsed := if meta[id].start.Some? && meta[id].start.value != 0 then now - meta[id].start.value else 0;
      if meta[id].renewals >= FORCED_RENEWAL_LIMIT && elapsed >= FORCED_TIME_LIMIT_MS {
        meta := meta[id := meta[id].(pending := 0, renewals := 0, start := None)];
        return false;
      }
      return true;
    }

    method AppendHistory(id: SessionId)
      modifies this`turns
      ensures Value() == Appended(old(Value()), id)
    {
      turns := turns[id := (if id in turns then turns[id] else 0) + 1];
    }

    method HandleDrowsyTtlExpired(id: SessionId, now: nat, spoke: bool)
      requires Valid() && DrowsyDue(config, Value(), id, now)
      modifies this, machine, ttl
      ensures Value() == DrowsyExpired(config, old(Value()), id, now, spoke)
      ensures Valid() && Follows(old(machine.Value()), machine.Value())
    {
      hide Safe, Follows, DrowsyExpired, LingerCheck, DrowsyDue, RenewedOrLetGo;
      ghost var s := Value();
      ExpiryFindsDrowsy(config, s, id, now);
      DrowsyExpiredIsSafe(config, s, id, now, spoke);
      ExpiryUnfolds(config, s, id, now, spoke);
      ttl.timers := ttl.timers[id := ttl.timers[id].(drowsyFired := true)];
      var lingers := CheckLingerConditions(id);
      if config.lingerEnabled && config.masterSwitch && lingers {
        Tick(id, now, spoke);
        return;
      }
      RenewOrLetGo(id, now, spoke);
    }

    /** The second check of `_handleDrowsyTtlExpired` and its default. */
    method RenewOrLetGo(id: SessionId, now: nat, spoke: bool)
      requires HasStatus(Value(), Some(id), Drowsy)
      modifies this, machine, ttl
      ensures Value() == RenewedOrLetGo(old(Value()), id, now, spoke)
    {
      hide KeepAliveCheck;
      var renews := CheckKeepAliveConditions(id, now);
      if renews {
        Renew(id, now, spoke);
        return;
      }
      LetGo(id);
    }

    /** The default of `_handleDrowsyTtlExpired`: on to Dormant. */
    method LetGo(id: SessionId)
      requires HasStatus(Value(), Some(id), Drowsy)
      modifies this, machine, ttl
      ensures Value() == FellDormant(old(Value()).(meta := WithStatus(old(meta), id, Dormant)), id)
    {
      var ok := machine.Transition(id, Dormant);
      UpdateStatus(id, Dormant);
      ttl.Clear(id);
      wake := wake - {id};
    }

    /** `_triggerLingerTick`. */
    method Tick(id: SessionId, now: nat, spoke: bool)
      requires id in meta
      modifies this`meta, this`turns, ttl
      ensures machine.Value() == old(machine.Value())
      ensures var m := old(meta[id]).(lingerCount := old(meta[id]).lingerCount + 1);
              var w := old(Value()).(meta := old(meta)[id := m]);
              Value() == Armed(if spoke then Appended(w, id) else w, id, now)
    {
      if spoke {
        AppendHistory(id);
      }
      meta := meta[id := meta[id].(lingerCount := meta[id].lingerCount + 1)];
      ttl.StartAwake(id, now);
    }

    /** `_triggerKeepAlive`. */
    method Renew(id: SessionId, now: nat, spoke: bool)
      requires id in meta
      modifies this`meta, this`turns, ttl
      ensures machine.Value() == old(machine.Value())
      ensures var w := old(Value()).(meta := old(meta)[id := old(meta[id]).(renewals := old(meta[id]).renewals + 1)]);
              Value() == Armed(if spoke then Appended(w, id) else w, id, now)
    {
      if spoke {
        AppendHistory(id);
      }
      meta := meta[id := meta[id].(renewals := meta[id].renewals + 1)];
      ttl.StartAwake(id, now);
    }

    method CheckArchivedTrigger(id: SessionId) returns (archived: bool)
      requires Valid()
      modifies this`meta, machine
      ensures Value() == ArchiveChecked(old(Value()), id) && Valid()
      ensures archived <==> HasStatus(old(Value()), Some(id), Dormant) && HasStatus(Value(), Some(id), Archived)
    {
      ArchiveCheckedIsSafe(Value(), id);
      if id !in machine.states || machine.states[id] != Dormant || id !in meta {
        return false;
      }
      var length := if id in turns then turns[id] else 0;
      if meta[id].l1Cursor >= length && meta[id].l2Cursor >= length {
        var ok := machine.Transition(id, Archived);
        UpdateStatus(id, Archived);
        return true;
      }
      return false;
    }

    method IncrementPendingRequests(session: Option<SessionId>, now: nat)
      requires Valid()
      modifies this`meta
      ensures Value() == PendingRaised(old(Value()), session, now) && Valid()
    {
      BookkeepingIsSafe(config, Value(), Timed(now, IncPending(session)));
      var target := if session.Some? then session else machine.currentAwake;
      if target.Some? && target.value in meta {
        var m := meta[target.value];
        meta := meta[target.value := m.(pending := m.pending + 1, start := Some(now), renewals := 0)];
      }
    }

    method DecrementPendingRequests(session: Option<SessionId>)
      requires Valid()
      modifies this`meta
      ensures Value() == PendingLowered(old(Value()), session) && Valid()
    {
      BookkeepingIsSafe(config, Value(), Timed(0, DecPending(session)));
      var target := if session.Some? then session else machine.currentAwake;
      if target.None? || target.value !in meta || meta[target.value].pending == 0 {
        return;
      }
      var m := meta[target.value].(pending := meta[target.value].pending - 1);
      if m.pending == 0 {
        m := m.(renewals := 0, start := None);
      }
      meta := meta[target.value := m];
    }
  }

  function RenewedOrLetGo(s: Sup, id: SessionId, now: nat, spoke: bool): Sup
    requires HasStatus(s, Some(id), Drowsy)
  {
    if id !in s.meta then FellDormant(s, id)
    else
      var (m, renews) := KeepAliveCheck(s.meta[id], now);
      if renews then
        var w := s.(meta := s.meta[id := m.(renewals := m.renewals + 1)]);
        Armed(if spoke then Appended(w, id) else w, id, now)
      else FellDormant(s.(meta := s.meta[id := m.(status := Dormant)]), id)
  }

  /** The outcomes of an expiry, written with the two checks the handler makes. */
  lemma ExpiryUnfolds(c: Config, s: Sup, id: SessionId, now: nat, spoke: bool)
    requires DrowsyDue(c, s, id, now) && HasStatus(s, Some(id), Drowsy)
    ensures id in s.timers
    ensures var fired := s.(timers := s.timers[id := s.timers[id].(drowsyFired := true)]);
            var t := DrowsyExpired(c, s, id, now, spoke);
            if id !in s.meta then t == RenewedOrLetGo(fired, id, now, spoke)
            else
              var (m, lingers) := LingerCheck(c, s.meta[id]);
              if c.lingerEnabled && c.masterSwitch && lingers then
                var w := fired.(meta := s.meta[id := m.(lingerCount := m.lingerCount + 1)]);
                t == Armed(if spoke then Appended(w, id) else w, id, now)
              else t == RenewedOrLetGo(fired.(meta := s.meta[id := m]), id, now, spoke)
  {
    hide LingerCheck, KeepAliveCheck, FellDormant;
    if id in s.meta {
      var (m, lingers) := LingerCheck(c, s.meta[id]);
      var (n, renews) := KeepAliveCheck(m, now);
      assert s.meta[id := m][id := n.(status := Dormant)] == s.meta[id := n.(status := Dormant)];
      assert s.meta[id := m][id := n.(renewals := n.renewals + 1)] == s.meta[id := n.(renewals := n.renewals + 1)];
    }
  }
}
