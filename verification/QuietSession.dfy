/**
  * How long a session that receives nothing new can stay out of Dormant: every expiry of its Drowsy timer
  * that does not send it to Dormant uses up a linger tick or a keep-alive renewal, and both run out.
  */
module QuietSession {
  import opened Wrappers
  import opened SessionMachine
  import opened Supervision
  import opened SessionPace
  import opened SessionFrame

  /** The renewals after which 30 minutes have certainly passed, and at least five. */
  function Quota(c: Config): nat {
    var needed := (FORCED_TIME_LIMIT_MS + DrowsyDelay(c) - 1) / DrowsyDelay(c);
    if needed < FORCED_RENEWAL_LIMIT then FORCED_RENEWAL_LIMIT else needed
  }

  function LingerLeft(c: Config, m: Meta): nat {
    if c.lingerEnabled && c.masterSwitch && m.linger && m.lingerCount < c.maxLinger
      then c.maxLinger - m.lingerCount else 0
  }

  function RenewalsLeft(c: Config, m: Meta): nat {
    if m.pending == 0 || m.renewals >= Quota(c) then 0 else Quota(c) - m.renewals
  }

  /** How many more expiries can keep the session out of Dormant. */
  function Left(c: Config, s: Sup, id: SessionId): nat {
    if id in s.meta then LingerLeft(c, s.meta[id]) + RenewalsLeft(c, s.meta[id]) else 0
  }

  /** A request recorded by a clock that read 0: the start time is then taken for unset. */
  predicate ZeroStart(s: Sup, id: SessionId) {
    id in s.meta && s.meta[id].start == Some(0)
  }

  predicate Expires(c: Config, s: Sup, t: Timed, id: SessionId) {
    t.op.DrowsyTimer? && t.op.id == id && DrowsyDue(c, s, id, t.at)
  }

  /** How often the Drowsy timer of `id` expires in the run. */
  function Expiries(c: Config, s: Sup, ops: seq<Timed>, id: SessionId): nat
    decreases |ops|
  {
    if ops == [] then 0
    else (if Expires(c, s, ops[0], id) then 1 else 0) + Expiries(c, Step(c, s, ops[0]), ops[1..], id)
  }

  predicate QuietRun(c: Config, s: Sup, ops: seq<Timed>, id: SessionId)
    decreases |ops|
  {
    ops == [] || (Quiet(s, ops[0].op, id) && QuietRun(c, Step(c, s, ops[0]), ops[1..], id))
  }

  predicate NoLowering(c: Config, s: Sup, ops: seq<Timed>, id: SessionId)
    decreases |ops|
  {
    ops == [] ||
    ((ops[0].op.DecPending? ==> Target(s, ops[0].op.session) != Some(id))
     && NoLowering(c, Step(c, s, ops[0]), ops[1..], id))
  }

  // ----- the results -----

  /**
    * After any run from the empty store, a session that receives nothing new is Dormant (or already archived)
    * once its Drowsy timer has expired more often than its linger ticks and renewals still left allow, which are
    * never more than max_linger_count + max(5, ceil(30 min / Drowsy TTL)).
    */
  lemma QuietSessionReachesDormant(c: Config, before: seq<Timed>, after: seq<Timed>, id: SessionId)
    requires Timely(0, before) && AllNamesFresh(c, FRESH_STORE, before)
    requires var s := Run(c, FRESH_STORE, before);
             && Timely(Ends(0, before), after) && AllNamesFresh(c, s, after) && QuietRun(c, s, after, id)
             && id in s.machine.states && !ZeroStart(s, id)
             && Expiries(c, s, after, id) > Left(c, s, id)
    ensures var u := Run(c, Run(c, FRESH_STORE, before), after);
            HasStatus(u, Some(id), Dormant) || HasStatus(u, Some(id), Archived)
    ensures Left(c, Run(c, FRESH_STORE, before), id) <= (if c.maxLinger > 0 then c.maxLinger else 0) + Quota(c)
  {
    hide Run, AllNamesFresh, QuietRun, Timely, Expiries, Left, ZeroStart, Quota, Paced;
    var s := Run(c, FRESH_STORE, before);
    forall x ensures SafeAt(FRESH_STORE, x) {}
    RunIsSafe(c, FRESH_STORE, before);
    assert Paced(c, FRESH_STORE, id, 0) by { FreshIsPaced(c, id); }
    RunKeepsPace(c, FRESH_STORE, before, id, 0);
    RunIsSafe(c, s, after);
    LeftIsBounded(c, s, id);
    if id in s.timers {
      QuietRunPays(c, s, after, id, Ends(0, before));
    } else {
      PastIsPast(c, s, after, id);
    }
    SafeHere(Run(c, s, after), id);
  }

  /**
    * Exactly when the bound is kept: with no request finished meanwhile, a session that was Awake or Drowsy and
    * whose timer has expired more often than was left is down if and only if its request was not recorded at clock
    * reading 0.
    */
  lemma QuietSessionDormantIff(c: Config, before: seq<Timed>, after: seq<Timed>, id: SessionId)
    requires Timely(0, before) && AllNamesFresh(c, FRESH_STORE, before)
    requires var s := Run(c, FRESH_STORE, before);
             && Timely(Ends(0, before), after) && AllNamesFresh(c, s, after) && QuietRun(c, s, after, id)
             && NoLowering(c, s, after, id) && id in s.timers
             && Expiries(c, s, after, id) > Left(c, s, id)
    ensures var s := Run(c, FRESH_STORE, before);
            var u := Run(c, s, after);
            (HasStatus(u, Some(id), Dormant) || HasStatus(u, Some(id), Archived)) <==> !ZeroStart(s, id)
  {
    hide Run, AllNamesFresh, QuietRun, Timely, Expiries, ZeroStart, Quota, NoLowering, Left;
    var s := Run(c, FRESH_STORE, before);
    forall x ensures SafeAt(FRESH_STORE, x) {}
    RunIsSafe(c, FRESH_STORE, before);
    SafeHere(s, id);
    if ZeroStart(s, id) {
      ZeroStartStaysUp(c, s, after, id);
      RunIsSafe(c, s, after);
      SafeHere(Run(c, s, after), id);
    } else {
      QuietSessionReachesDormant(c, before, after, id);
    }
  }

  // ----- over a run -----

  /** Each expiry that leaves the session out of Dormant is paid for out of what was left at the start. */
  lemma {:induction false} QuietRunPays(c: Config, s: Sup, ops: seq<Timed>, id: SessionId, now: nat)
    requires Safe(s) && AllNamesFresh(c, s, ops) && QuietRun(c, s, ops, id) && Timely(now, ops) && Paced(c, s, id, now)
    requires id in s.timers && !ZeroStart(s, id)
    ensures id in Run(c, s, ops).timers ==> Expiries(c, s, ops, id) + Left(c, Run(c, s, ops), id) <= Left(c, s, id)
    ensures Expiries(c, s, ops, id) <= Left(c, s, id) + 1
    decreases |ops|
  {
    hide Safe, Paced, Left, ZeroStart, NamesFresh, Quiet, Step, Expires;
    if ops != [] {
      var t := Step(c, s, ops[0]);
      StepIsSafe(c, s, ops[0]);
      QuietStep(c, s, ops[0], id, now);
      StepKeepsPace(c, s, ops[0], id, now);
      if id in t.timers {
        QuietRunPays(c, t, ops[1..], id, ops[0].at);
      } else {
        SafeHere(s, id);
        assert id in t.machine.states;
        PastIsPast(c, t, ops[1..], id);
      }
    }
  }

  lemma {:induction false} ZeroStartStaysUp(c: Config, s: Sup, ops: seq<Timed>, id: SessionId)
    requires Safe(s) && AllNamesFresh(c, s, ops) && QuietRun(c, s, ops, id) && NoLowering(c, s, ops, id)
    requires id in s.timers && ZeroStart(s, id)
    ensures id in Run(c, s, ops).timers
    decreases |ops|
  {
    hide Safe, ZeroStart, NamesFresh, Quiet, Step, Target;
    if ops != [] {
      StepIsSafe(c, s, ops[0]);
      ZeroStartStep(c, s, ops[0], id);
      ZeroStartStaysUp(c, Step(c, s, ops[0]), ops[1..], id);
    }
  }

  /** A session without a timer is past its Drowsy life for good, and nothing of it expires again. */
  lemma {:induction false} PastIsPast(c: Config, s: Sup, ops: seq<Timed>, id: SessionId)
    requires Safe(s) && AllNamesFresh(c, s, ops) && id in s.machine.states && id !in s.timers
    ensures id !in Run(c, s, ops).timers && Expiries(c, s, ops, id) == 0
    decreases |ops|
  {
    hide Safe, Step;
    if ops != [] {
      var t := Step(c, s, ops[0]);
      StepIsSafe(c, s, ops[0]);
      SafeHere(s, id);
      SafeHere(t, id);
      assert Leads(s.machine.states[id], t.machine.states[id]);
      PastIsPast(c, t, ops[1..], id);
    }
  }

  // ----- one step -----

  lemma QuietStep(c: Config, s: Sup, t: Timed, id: SessionId, before: nat)
    requires Safe(s) && NamesFresh(s, t.op) && Quiet(s, t.op, id) && Paced(c, s, id, before) && before <= t.at
    requires id in s.timers && !ZeroStart(s, id)
    ensures var u := Step(c, s, t);
            id in u.timers ==>
              !ZeroStart(u, id) && Left(c, u, id) + (if Expires(c, s, t, id) then 1 else 0) <= Left(c, s, id)
  {
    hide Safe, Paced, Alike, Left, Received, Overflowed, SessionCreated, AwakeExpired, DrowsyExpired;
    SafeHere(s, id);
    if KeepAliveOp(s, t.op, id) {
      match t.op
      case DrowsyTimer(_, spoke) =>
        if DrowsyDue(c, s, id, t.at) {
          ExpiryUsesUp(c, s, id, before, t.at, spoke);
        } else {
          NotDue(c, s, id, t.at, spoke);
        }
      case DecPending(session) => LoweringKeepsLeft(s, session, c, id);
    } else {
      StepAlike(c, s, t, id, true);
      AlikeKeepsLeft(c, s, Step(c, s, t), id, t.at);
    }
  }

  lemma ExpiryUsesUp(c: Config, s: Sup, id: SessionId, before: nat, now: nat, spoke: bool)
    requires Safe(s) && DrowsyDue(c, s, id, now) && Paced(c, s, id, before) && before <= now && !ZeroStart(s, id)
    ensures var t := DrowsyExpired(c, s, id, now, spoke);
            id in t.timers ==> Left(c, t, id) + 1 <= Left(c, s, id) && !ZeroStart(t, id)
  {
    hide DrowsyExpired, Safe, Quota, Spent, Paced;
    SafeHere(s, id);
    ExpiryShape(c, s, id, now, spoke);
    if id in s.meta && s.meta[id].pending > 0 {
      var m := s.meta[id];
      PaidAtExpiry(c, s, id, before, now);
      if m.renewals >= Quota(c) {
        QuotaIsEnough(c, m.renewals);
        assert Forced(m, now);
      }
    }
  }

  lemma TimesGrows(a: nat, b: nat, d: nat)
    requires a <= b
    ensures a * d <= b * d
  {
    assert b * d == a * d + (b - a) * d;
  }

  /** Rounding up covers the whole. */
  lemma RoundedUpCovers(t: nat, d: nat)
    requires d > 0
    ensures (t + d - 1) / d * d >= t
  {
    assert t + d - 1 == (t + d - 1) / d * d + (t + d - 1) % d;
  }

  lemma QuotaIsEnough(c: Config, renewals: nat)
    requires renewals >= Quota(c)
    ensures renewals >= FORCED_RENEWAL_LIMIT && Spent(c, renewals) >= FORCED_TIME_LIMIT_MS
  {
    var d := DrowsyDelay(c);
    DelayIsPositive(c);
    var needed := (FORCED_TIME_LIMIT_MS + d - 1) / d;
    assert needed <= renewals;
    hide DrowsyDelay, Quota;
    RoundedUpCovers(FORCED_TIME_LIMIT_MS, d);
    TimesGrows(needed, renewals, d);
  }

  /** As long as the count is not lowered, a session whose start time reads 0 is renewed at every expiry. */
  lemma ZeroStartStep(c: Config, s: Sup, t: Timed, id: SessionId)
    requires Safe(s) && NamesFresh(s, t.op) && Quiet(s, t.op, id) && id in s.timers && ZeroStart(s, id)
    requires t.op.DecPending? ==> Target(s, t.op.session) != Some(id)
    ensures id in Step(c, s, t).timers && ZeroStart(Step(c, s, t), id)
  {
    hide Safe, Received, Overflowed, SessionCreated, AwakeExpired, DrowsyExpired;
    SafeHere(s, id);
    if KeepAliveOp(s, t.op, id) {
      if DrowsyDue(c, s, id, t.at) {
        ExpiryShape(c, s, id, t.at, t.op.spoke);
      } else {
        NotDue(c, s, id, t.at, t.op.spoke);
      }
    } else {
      StepAlike(c, s, t, id, true);
    }
  }

  lemma LeftIsBounded(c: Config, s: Sup, id: SessionId)
    ensures Left(c, s, id) <= (if c.maxLinger > 0 then c.maxLinger else 0) + Quota(c)
  {
  }

  lemma DelayIsPositive(c: Config)
    ensures DrowsyDelay(c) > 0
  {
  }

  lemma AlikeKeepsLeft(c: Config, s: Sup, t: Sup, id: SessionId, now: nat)
    requires Alike(s, t, id, now, true)
    ensures Left(c, t, id) == Left(c, s, id) && ZeroStart(t, id) == ZeroStart(s, id)
  {
  }

  lemma LoweringKeepsLeft(s: Sup, session: Option<SessionId>, c: Config, id: SessionId)
    requires Safe(s) && !ZeroStart(s, id)
    ensures var t := PendingLowered(s, session); Left(c, t, id) <= Left(c, s, id) && !ZeroStart(t, id)
  {
    hide Quota;
  }

  lemma FreshIsPaced(c: Config, id: SessionId)
    ensures Paced(c, FRESH_STORE, id, 0)
  {
  }

  // ----- the session that never comes down -----

  /** A late Awake timer and then a late Drowsy timer of the session. */
  lemma ExpiryComes(c: Config, s: Sup, id: SessionId, now: nat) returns (at: nat)
    requires Safe(s) && id in s.timers
    ensures now <= at && Expires(c, Step(c, s, Timed(at, AwakeTimer(id))), Timed(at, DrowsyTimer(id, false)), id)
  {
    SafeHere(s, id);
    at := now + s.timers[id].created + AwakeDelay(c) + DrowsyDelay(c);
  }

  /** With a start time of 0 the timer may expire any number of times. */
  lemma {:induction false} ExpiriesGoOn(c: Config, s: Sup, id: SessionId, now: nat, n: nat) returns (after: seq<Timed>)
    requires Safe(s) && id in s.timers && ZeroStart(s, id)
    ensures Timely(now, after) && AllNamesFresh(c, s, after) && QuietRun(c, s, after, id) && NoLowering(c, s, after, id)
    ensures Expiries(c, s, after, id) >= n
    decreases n
  {
    after := [];
    if n > 0 {
      var at := ExpiryComes(c, s, id, now);
      var first, second := Timed(at, AwakeTimer(id)), Timed(at, DrowsyTimer(id, false));
      hide Safe, ZeroStart, Step, Expires;
      var t := Step(c, s, first);
      StepIsSafe(c, s, first);
      ZeroStartStep(c, s, first, id);
      var u := Step(c, t, second);
      StepIsSafe(c, t, second);
      ZeroStartStep(c, t, second, id);
      var rest := ExpiriesGoOn(c, u, id, at, n - 1);
      after := [first] + ([second] + rest);
      assert after[1..] == [second] + rest && ([second] + rest)[1..] == rest;
    }
  }

  /** A session opened at clock reading 0, and a request counted there. */
  lemma AskedAtZero(c: Config, id: SessionId) returns (before: seq<Timed>)
    ensures Timely(0, before) && AllNamesFresh(c, FRESH_STORE, before)
    ensures var s := Run(c, FRESH_STORE, before); Safe(s) && ZeroStart(s, id) && id in s.timers
  {
    var opens := Timed(0, ReceiveEvent(Verdict(CreateNew, Some(id), None, false)));
    var asks := Timed(0, IncPending(Some(id)));
    before := [opens] + [asks];
    var t := Step(c, FRESH_STORE, opens);
    FreshIsSafe();
    CreatingEventWakes(FRESH_STORE, opens.op.verdict, 0);
    StepIsSafe(c, FRESH_STORE, opens);
    StepIsSafe(c, t, asks);
    assert ZeroStart(Step(c, t, asks), id) && id in Step(c, t, asks).timers;
    hide Step, Safe, ZeroStart;
    OneStep(c, t, asks);
    assert before[1..] == [asks];
  }

  lemma OneStep(c: Config, s: Sup, t: Timed)
    requires NamesFresh(s, t.op)
    ensures AllNamesFresh(c, s, [t]) && Run(c, s, [t]) == Step(c, s, t) && Timely(t.at, [t])
  {
    hide Step, NamesFresh;
    assert [t][1..] == [];
  }

  /** It happens: a request recorded at clock reading 0, after which the session stays up whatever its allowance. */
  lemma ZeroStartHappens(c: Config, id: SessionId) returns (before: seq<Timed>, after: seq<Timed>)
    ensures Timely(0, before) && AllNamesFresh(c, FRESH_STORE, before)
    ensures var s := Run(c, FRESH_STORE, before);
            && ZeroStart(s, id) && id in s.timers
            && Timely(Ends(0, before), after) && AllNamesFresh(c, s, after) && QuietRun(c, s, after, id)
            && NoLowering(c, s, after, id) && Expiries(c, s, after, id) > Left(c, s, id)
            && var u := Run(c, s, after); !HasStatus(u, Some(id), Dormant) && !HasStatus(u, Some(id), Archived)
  {
    hide Run, Step, ZeroStart, Safe, Left, Expires, Quiet, NoLowering, QuietRun, AllNamesFresh, Timely, Expiries;
    before := AskedAtZero(c, id);
    var s := Run(c, FRESH_STORE, before);
    after := ExpiriesGoOn(c, s, id, Ends(0, before), Left(c, s, id) + 1);
    ZeroStartStaysUp(c, s, after, id);
    RunIsSafe(c, s, after);
    SafeHere(Run(c, s, after), id);
  }

  lemma FreshIsSafe()
    ensures Safe(FRESH_STORE)
  {
    forall x ensures SafeAt(FRESH_STORE, x) {}
  }
}
