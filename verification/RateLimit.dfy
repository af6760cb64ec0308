/** The sliding-window rate limiter: a list of recent calls per model, pruned and extended by every caller. */
module RateLimit {
  import opened Wrappers

  const WINDOW_MS := 60000
  const MARGIN_MS := 100

  /** The stored list of one model, and the ghost record of every admission so far. */
  datatype Track = Track(calls: seq<nat>, admitted: seq<nat>)

  /** One stretch of a caller without waiting: its first and its second reading of the clock. */
  datatype Try = Try(now: nat, later: nat)

  function Pruned(calls: seq<nat>, now: nat): seq<nat>
    decreases |calls|
  {
    if calls != [] && calls[0] + WINDOW_MS <= now then Pruned(calls[1..], now) else calls
  }

  function WaitFor(calls: seq<nat>, now: nat): int
    requires calls != []
  {
    calls[0] + WINDOW_MS - now + MARGIN_MS
  }

  /** Whether the caller is admitted in this stretch, rather than put to sleep. */
  predicate Admits(t: Track, rpm: nat, s: Try) {
    var calls := Pruned(t.calls, s.now);
    |calls| < rpm || calls == [] || WaitFor(calls, s.now) <= 0
  }

  function Step(t: Track, rpm: nat, s: Try): Track {
    var calls := Pruned(t.calls, s.now);
    if Admits(t, rpm, s) then Track(calls + [s.later], t.admitted + [s.later]) else Track(calls, t.admitted)
  }

  function Run(t: Track, rpm: nat, tries: seq<Try>): Track
    decreases |tries|
  {
    if tries == [] then t else Run(Step(t, rpm, tries[0]), rpm, tries[1..])
  }

  /** A clock that never runs backwards, read by any interleaving of callers. */
  predicate Monotone(last: nat, tries: seq<Try>)
    decreases |tries|
  {
    tries == [] || (last <= tries[0].now <= tries[0].later && Monotone(tries[0].later, tries[1..]))
  }

  /** Admissions that are rpm or more apart in order are a window or more apart in time. */
  predicate Spaced(admitted: seq<nat>, rpm: nat) {
    forall i, j :: 0 <= i < |admitted| && 0 <= j < |admitted| && j - i >= rpm ==> admitted[j] >= admitted[i] + 60000
  }

  predicate Ascending(s: seq<nat>, last: nat) {
    (forall i, j :: 0 <= i <= j < |s| ==> s[i] <= s[j]) && (forall i :: 0 <= i < |s| ==> s[i] <= last)
  }

  /** The stored list is a suffix of all admissions, no longer than the limit, and what it left out is
      out of the window. */
  predicate Good(t: Track, rpm: nat, last: nat) {
    && |t.calls| <= |t.admitted| && t.calls == t.admitted[|t.admitted| - |t.calls|..]
    && |t.calls| <= rpm
    && Ascending(t.admitted, last)
    && (forall k :: 0 <= k < |t.admitted| - |t.calls| ==> t.admitted[k] + WINDOW_MS <= last)
    && Spaced(t.admitted, rpm)
  }

  lemma {:induction false} PrunedIsSuffix(calls: seq<nat>, now: nat)
    ensures var p := Pruned(calls, now);
            && |p| <= |calls| && p == calls[|calls| - |p|..]
            && (forall k :: 0 <= k < |calls| - |p| ==> calls[k] + WINDOW_MS <= now)
            && (p != [] ==> p[0] + WINDOW_MS > now)
    decreases |calls|
  {
    if calls != [] && calls[0] + WINDOW_MS <= now {
      PrunedIsSuffix(calls[1..], now);
      var p := Pruned(calls, now);
      forall k | 0 <= k < |calls| - |p| ensures calls[k] + WINDOW_MS <= now {
        if k > 0 {
          assert calls[1..][k - 1] == calls[k];
        }
      }
    }
  }

  /** A full list always asks for a positive wait, so nobody is admitted beyond the limit. */
  lemma WaitIsPositive(calls: seq<nat>, rpm: nat, now: nat)
    requires rpm > 0
    ensures Admits(Track(calls, calls), rpm, Try(now, now)) <==> |Pruned(calls, now)| < rpm
  {
    PrunedIsSuffix(calls, now);
  }

  lemma PruneIsGood(t: Track, rpm: nat, now: nat, last: nat)
    requires Good(t, rpm, last) && last <= now
    ensures Good(Track(Pruned(t.calls, now), t.admitted), rpm, now)
  {
    PrunedIsSuffix(t.calls, now);
    var calls := Pruned(t.calls, now);
    var before, gone := |t.admitted| - |t.calls|, |t.admitted| - |calls|;
    assert calls == t.admitted[gone..];
    forall k | 0 <= k < gone ensures t.admitted[k] + WINDOW_MS <= now {
      if k >= before {
        assert t.calls[k - before] == t.admitted[k];
      }
    }
  }

  lemma AdmitIsGood(t: Track, rpm: nat, at: nat, last: nat)
    requires Good(t, rpm, last) && last <= at && |t.calls| < rpm
    ensures Good(Track(t.calls + [at], t.admitted + [at]), rpm, at)
  {
    var admitted, calls := t.admitted + [at], t.calls + [at];
    assert admitted[|admitted| - |calls|..] == calls;
  }

  lemma StepIsGood(t: Track, rpm: nat, s: Try, last: nat)
    requires rpm > 0 && Good(t, rpm, last) && last <= s.now <= s.later
    ensures Good(Step(t, rpm, s), rpm, s.later)
  {
    hide Good, Spaced, Ascending;
    PruneIsGood(t, rpm, s.now, last);
    PrunedIsSuffix(t.calls, s.now);
    var p := Track(Pruned(t.calls, s.now), t.admitted);
    if Admits(t, rpm, s) {
      AdmitIsGood(p, rpm, s.later, s.now);
    } else {
      GoodLater(p, rpm, s.now, s.later);
    }
  }

  lemma GoodLater(t: Track, rpm: nat, last: nat, later: nat)
    requires Good(t, rpm, last) && last <= later
    ensures Good(t, rpm, later)
  {
  }

  /** What one stretch records: an admission at its second reading of the clock, or nothing; and of the calls before it
      exactly those less than a minute old are left, in order. */
  lemma StepRecords(t: Track, rpm: nat, s: Try)
    ensures var u := Step(t, rpm, s);
            var left := if Admits(t, rpm, s) then u.calls[..|u.calls| - 1] else u.calls;
            && (if Admits(t, rpm, s)
                then u.admitted == t.admitted + [s.later] && u.calls != [] && u.calls[|u.calls| - 1] == s.later
                else u.admitted == t.admitted)
            && |left| <= |t.calls| && left == t.calls[|t.calls| - |left|..]
            && (forall k :: 0 <= k < |t.calls| - |left| ==> s.now - t.calls[k] >= 60000)
            && (left != [] ==> s.now - left[0] < 60000)
  {
    PrunedIsSuffix(t.calls, s.now);
  }

  /** A caller is told to sleep until a tenth of a second after the oldest call is a minute old. */
  lemma WaitIsExact(calls: seq<nat>, now: nat)
    requires calls != []
    ensures now + WaitFor(calls, now) == calls[0] + 60 * 1000 + 100
  {
  }

  function End(last: nat, tries: seq<Try>): nat {
    if tries == [] then last else tries[|tries| - 1].later
  }

  lemma {:induction false} RunIsGood(t: Track, rpm: nat, tries: seq<Try>, last: nat)
    requires rpm > 0 && Good(t, rpm, last) && Monotone(last, tries)
    ensures Good(Run(t, rpm, tries), rpm, End(last, tries))
    decreases |tries|
  {
    hide Good, Step;
    if tries != [] {
      StepIsGood(t, rpm, tries[0], last);
      RunIsGood(Step(t, rpm, tries[0]), rpm, tries[1..], tries[0].later);
    }
  }

  /**
    * From an empty list, under any interleaving of callers: no window holds more than rpm admissions, and the stored
    * list is always a suffix of them, no longer than rpm.
    */
  lemma AdmissionsAreSpaced(rpm: nat, tries: seq<Try>)
    requires rpm > 0 && Monotone(0, tries)
    ensures var t := Run(Track([], []), rpm, tries);
            && Spaced(t.admitted, rpm)
            && |t.calls| <= rpm && |t.calls| <= |t.admitted| && t.calls == t.admitted[|t.admitted| - |t.calls|..]
  {
    hide Run;
    RunIsGood(Track([], []), rpm, tries, 0);
    GoodMeans(Run(Track([], []), rpm, tries), rpm, End(0, tries));
  }

  lemma GoodMeans(t: Track, rpm: nat, last: nat)
    requires Good(t, rpm, last)
    ensures Spaced(t.admitted, rpm) && |t.calls| <= rpm && |t.calls| <= |t.admitted|
    ensures t.calls == t.admitted[|t.admitted| - |t.calls|..]
  {
  }

  /** A caller that slept as long as it was told is admitted, unless another took its place meanwhile. */
  lemma WaitIsEnough(t: Track, rpm: nat, last: nat, s: Try, again: Try)
    requires rpm > 0 && Good(t, rpm, last) && last <= s.now && !Admits(t, rpm, s)
    requires Pruned(t.calls, s.now) != []
    requires again.now >= s.now + WaitFor(Pruned(t.calls, s.now), s.now)
    ensures Admits(Step(t, rpm, s), rpm, again)
  {
    PrunedIsSuffix(t.calls, s.now);
    var calls := Pruned(t.calls, s.now);
    PrunedIsSuffix(calls[1..], again.now);
  }

  class RateLimiter {
    var timestamps: map<string, seq<nat>>
    ghost var admitted: map<string, seq<nat>>

    constructor ()
      ensures timestamps == map[] && admitted == map[]
    {
      timestamps, admitted := map[], map[];
    }

    /** The stored list and the admissions of one model. */
    ghost function Of(model: string): Track
      reads this
    {
      Track(if model in timestamps then timestamps[model] else [], if model in admitted then admitted[model] else [])
    }

    /**
      * One stretch of `waitForRateLimit`. `wait` is the time to sleep before trying again, None on admission;
      * without a model or a positive limit the caller passes and leaves no trace.
      */
    method WaitForRateLimit(model: string, rpm: nat, now: nat, later: nat) returns (wait: Option<nat>)
      modifies this
      ensures model == "" || rpm == 0 ==> wait == None && timestamps == old(timestamps) && admitted == old(admitted)
      ensures model != "" && rpm > 0 ==>
                && Of(model) == Step(old(Of(model)), rpm, Try(now, later))
                && (wait.None? <==> Admits(old(Of(model)), rpm, Try(now, later)))
                && (wait.Some? ==> wait.value == WaitFor(Of(model).calls, now))
                && forall other :: other != model ==> Of(other) == old(Of(other))
    {
      if model == "" || rpm == 0 {
        return None;
      }
      if model !in timestamps {
        timestamps := timestamps[model := []];
      }
      var calls := timestamps[model];
      ghost var start := calls;
      while |calls| > 0 && calls[0] + WINDOW_MS <= now
        invariant Pruned(calls, now) == Pruned(start, now)
        decreases |calls|
      {
        calls := calls[1..];
      }
      if |calls| >= rpm {
        var waitMs := calls[0] + WINDOW_MS - now + MARGIN_MS;
        if waitMs > 0 {
          timestamps := timestamps[model := calls];
          return Some(waitMs);
        }
      }
      timestamps := timestamps[model := calls + [later]];
      admitted := admitted[model := (if model in admitted then admitted[model] else []) + [later]];
      wait := None;
    }
  }
}
