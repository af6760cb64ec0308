/** Keep-alive renewals take time: how much the stored start time and the armed timer say about it. */
module SessionPace {
  import opened Wrappers
  import opened SessionMachine
  import opened Supervision
  import opened SessionFrame

  /** Every renewal since the last request took at least one Drowsy delay, except perhaps the first. */
  predicate Paced(c: Config, s: Sup, id: SessionId, now: nat) {
    id in s.timers ==>
      && s.timers[id].created <= now
      && (id in s.meta && s.meta[id].start.Some? ==>
            && s.meta[id].start.value <= now
            && (s.meta[id].renewals > 0 ==>
                  s.timers[id].created >= s.meta[id].start.value + Spent(c, s.meta[id].renewals - 1)))
  }

  /** The time `renewals` full Drowsy delays take. */
  function Spent(c: Config, renewals: nat): nat {
    renewals * DrowsyDelay(c)
  }

  lemma OneMore(c: Config, renewals: nat)
    ensures Spent(c, renewals + 1) == Spent(c, renewals) + DrowsyDelay(c) && Spent(c, 0) == 0
  {
    assert (renewals + 1) * DrowsyDelay(c) == renewals * DrowsyDelay(c) + DrowsyDelay(c);
  }

  /** When the timer expires, all renewals so far have been paid for in full. */
  lemma PaidAtExpiry(c: Config, s: Sup, id: SessionId, before: nat, now: nat)
    requires Paced(c, s, id, before) && before <= now && DrowsyDue(c, s, id, now)
    requires id in s.meta && s.meta[id].start.Some?
    ensures now >= s.meta[id].start.value + Spent(c, s.meta[id].renewals)
  {
    if s.meta[id].renewals > 0 {
      OneMore(c, s.meta[id].renewals - 1);
    } else {
      OneMore(c, 0);
    }
  }

  lemma AlikeKeepsPace(c: Config, s: Sup, t: Sup, id: SessionId, before: nat, now: nat)
    requires Alike(s, t, id, now, false) && Safe(s) && Safe(t) && Follows(s.machine, t.machine)
    requires Paced(c, s, id, before) && before <= now
    ensures Paced(c, t, id, now)
  {
    SafeHere(s, id);
    SafeHere(t, id);
    if id in s.machine.states && id !in s.timers {
      assert Leads(s.machine.states[id], t.machine.states[id]);
    }
  }

  /** What an expiry leaves when it does not send the session to Dormant. */
  lemma ExpiryShape(c: Config, s: Sup, id: SessionId, now: nat, spoke: bool)
    requires Safe(s) && DrowsyDue(c, s, id, now)
    ensures var t := DrowsyExpired(c, s, id, now, spoke);
            && (id in t.timers <==> id in s.meta && OnExpiry(c, s.meta[id], now).1 != GoDormant)
            && (id in t.timers ==>
                t.timers[id] == Timer(now, false, false) && id in t.meta
                  && t.meta[id] == OnExpiry(c, s.meta[id], now).0)
            && (id !in t.timers ==> HasStatus(t, Some(id), Dormant))
  {
    hide OnExpiry, Safe;
    ExpiryFindsDrowsy(c, s, id, now);
  }

  lemma ExpiryKeepsPace(c: Config, s: Sup, id: SessionId, before: nat, now: nat, spoke: bool)
    requires Safe(s) && DrowsyDue(c, s, id, now) && Paced(c, s, id, before) && before <= now
    ensures Paced(c, DrowsyExpired(c, s, id, now, spoke), id, now)
  {
    hide DrowsyExpired, Safe, Spent;
    ExpiryShape(c, s, id, now, spoke);
    if id in s.meta && s.meta[id].start.Some? {
      PaidAtExpiry(c, s, id, before, now);
      OneMore(c, s.meta[id].renewals);
    }
  }

  lemma CountingKeepsPace(c: Config, s: Sup, t: Timed, id: SessionId, before: nat)
    requires Safe(s) && Paced(c, s, id, before) && before <= t.at && (t.op.IncPending? || t.op.DecPending?)
    ensures Paced(c, Step(c, s, t), id, t.at)
  {
    SafeHere(s, id);
  }

  lemma StepKeepsPace(c: Config, s: Sup, t: Timed, id: SessionId, before: nat)
    requires Safe(s) && NamesFresh(s, t.op) && Paced(c, s, id, before) && before <= t.at
    ensures Paced(c, Step(c, s, t), id, t.at)
  {
    hide Safe, Paced, Alike, Received, Overflowed, SessionCreated, AwakeExpired, DrowsyExpired, Follows;
    if KeepAliveOp(s, t.op, id) {
      match t.op
      case DrowsyTimer(_, spoke) =>
        if DrowsyDue(c, s, id, t.at) {
          ExpiryKeepsPace(c, s, id, before, t.at, spoke);
        } else {
          NotDue(c, s, id, t.at, spoke);
          PaceLasts(c, s, id, before, t.at);
        }
      case _ => CountingKeepsPace(c, s, t, id, before);
    } else {
      StepIsSafe(c, s, t);
      StepAlike(c, s, t, id, false);
      AlikeKeepsPace(c, s, Step(c, s, t), id, before, t.at);
    }
  }

  lemma NotDue(c: Config, s: Sup, id: SessionId, now: nat, spoke: bool)
    requires !DrowsyDue(c, s, id, now)
    ensures DrowsyExpired(c, s, id, now, spoke) == s
  {
  }

  lemma PaceLasts(c: Config, s: Sup, id: SessionId, before: nat, now: nat)
    requires Paced(c, s, id, before) && before <= now
    ensures Paced(c, s, id, now)
  {
  }

  /** The steps carry non-decreasing clock readings, none before `now`. */
  predicate Timely(now: nat, ops: seq<Timed>)
    decreases |ops|
  {
    ops == [] || (now <= ops[0].at && Timely(ops[0].at, ops[1..]))
  }

  function Ends(now: nat, ops: seq<Timed>): nat {
    if ops == [] then now else ops[|ops| - 1].at
  }

  lemma {:induction false} RunKeepsPace(c: Config, s: Sup, ops: seq<Timed>, id: SessionId, now: nat)
    requires Safe(s) && AllNamesFresh(c, s, ops) && Timely(now, ops) && Paced(c, s, id, now)
    ensures Paced(c, Run(c, s, ops), id, Ends(now, ops))
    decreases |ops|
  {
    hide Safe, Paced, Step;
    if ops != [] {
      StepIsSafe(c, s, ops[0]);
      StepKeepsPace(c, s, ops[0], id, now);
      RunKeepsPace(c, Step(c, s, ops[0]), ops[1..], id, ops[0].at);
    }
  }
}
