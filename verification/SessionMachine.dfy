/** The session state machine: one Awake session at most, and only the allowed transitions. */
module SessionMachine {
  import opened Wrappers

  type SessionId = int
  datatype Status = Awake | Drowsy | Dormant | Archived

  datatype Machine = Machine(states: map<SessionId, Status>, current: Option<SessionId>)

  /** `VALID_TRANSITIONS`. */
  predicate Allowed(from: Status, to: Status) {
    match from
    case Awake => to == Drowsy
    case Drowsy => to == Awake || to == Dormant
    case Dormant => to == Archived
    case Archived => false
  }

  /** `create`; None when it throws. */
  function Created(m: Machine, id: SessionId): Option<Machine> {
    if id in m.states || m.current.Some? then None
    else Some(Machine(m.states[id := Awake], Some(id)))
  }

  /** `transition`; None when it throws. */
  function Transitioned(m: Machine, id: SessionId, status: Status): Option<Machine> {
    if id !in m.states || !Allowed(m.states[id], status) then None
    else if status == Awake && m.current.Some? && m.current != Some(id) then None
    else
      var current := if status == Awake then Some(id) else m.current;
      Some(Machine(m.states[id := status], if m.states[id] == Awake && current == Some(id) then None else current))
  }

  /** `switchContext`; None when it throws. */
  function Switched(m: Machine, target: SessionId): Option<Machine> {
    if target !in m.states || m.states[target] != Drowsy then None
    else if m.current.None? then Transitioned(m, target, Awake)
    else match Transitioned(m, m.current.value, Drowsy)
      case None => None
      case Some(demoted) => Transitioned(demoted, target, Awake)
  }

  /** `_currentAwake` names the Awake session exactly, so there is at most one. */
  ghost predicate Exact(m: Machine) {
    && (m.current.Some? ==> m.current.value in m.states)
    && forall id :: id in m.states ==> (m.states[id] == Awake <==> m.current == Some(id))
  }

  /** No session is lost, and each one stays put or takes allowed transitions. */
  ghost predicate Follows(a: Machine, b: Machine) {
    forall id :: id in a.states ==> id in b.states && Leads(a.states[id], b.states[id])
  }

  /** `to` can be reached from `from` by allowed transitions. */
  predicate Leads(from: Status, to: Status) {
    match from
    case Awake => true
    case Drowsy => true
    case Dormant => to == Dormant || to == Archived
    case Archived => to == Archived
  }

  ghost predicate Path(p: seq<Status>) {
    |p| > 0 && forall i :: 0 <= i < |p| - 1 ==> Allowed(p[i], p[i + 1])
  }

  lemma {:induction false} PathLeads(p: seq<Status>, k: nat)
    requires Path(p) && k < |p|
    ensures Leads(p[0], p[k])
  {
    if k > 0 {
      PathLeads(p, k - 1);
      var i := k - 1;
      assert Allowed(p[i], p[i + 1]);
    }
  }

  /** `Leads` is exactly reachability: in particular a Dormant session is never revived. */
  lemma LeadsIsReachability(from: Status, to: Status)
    ensures Leads(from, to) <==> exists p :: Path(p) && p[0] == from && p[|p| - 1] == to
  {
    if exists p :: Path(p) && p[0] == from && p[|p| - 1] == to {
      var p :| Path(p) && p[0] == from && p[|p| - 1] == to;
      PathLeads(p, |p| - 1);
    }
    if Leads(from, to) {
      var p := Route(from, to);
      assert Path(p) && p[0] == from && p[|p| - 1] == to;
    }
  }

  function Route(from: Status, to: Status): seq<Status>
    requires Leads(from, to)
  {
    if from == to then [from]
    else match (from, to)
      case (Awake, Drowsy) => [Awake, Drowsy]
      case (Awake, Dormant) => [Awake, Drowsy, Dormant]
      case (Awake, Archived) => [Awake, Drowsy, Dormant, Archived]
      case (Drowsy, Awake) => [Drowsy, Awake]
      case (Drowsy, Dormant) => [Drowsy, Dormant]
      case (Drowsy, Archived) => [Drowsy, Dormant, Archived]
      case (_, _) => [Dormant, Archived]
  }

  lemma FollowsTrans(a: Machine, b: Machine, c: Machine)
    requires Follows(a, b) && Follows(b, c)
    ensures Follows(a, c)
  {
    forall id | id in a.states
      ensures id in c.states && Leads(a.states[id], c.states[id])
    {
      assert id in b.states && Leads(a.states[id], b.states[id]) && Leads(b.states[id], c.states[id]);
    }
  }

  lemma CreatedIsExact(m: Machine, id: SessionId)
    requires Exact(m) && Created(m, id).Some?
    ensures Exact(Created(m, id).value) && Follows(m, Created(m, id).value)
    ensures Created(m, id).value.current == Some(id)
  {
  }

  lemma TransitionedIsExact(m: Machine, id: SessionId, status: Status)
    requires Exact(m) && Transitioned(m, id, status).Some?
    ensures Exact(Transitioned(m, id, status).value) && Follows(m, Transitioned(m, id, status).value)
    ensures Transitioned(m, id, status).value.states == m.states[id := status]
  {
  }

  lemma SwitchedIsExact(m: Machine, target: SessionId)
    requires Exact(m)
    ensures Switched(m, target).Some? <==> target in m.states && m.states[target] == Drowsy
    ensures Switched(m, target).Some? ==>
              var n := Switched(m, target).value;
              && Exact(n) && Follows(m, n) && n.current == Some(target)
              && n.states == (if m.current.Some? then m.states[m.current.value := Drowsy]
                              else m.states)[target := Awake]
  {
  }

  class SessionStateMachine {
    var states: map<SessionId, Status>
    var currentAwake: Option<SessionId>

    function Value(): Machine
      reads this
    {
      Machine(states, currentAwake)
    }

    constructor ()
      ensures Value() == Machine(map[], None)
    {
      states, currentAwake := map[], None;
    }

    method Create(id: SessionId) returns (ok: bool)
      modifies this
      ensures ok == Created(old(Value()), id).Some? && Value() == Created(old(Value()), id).GetOr(old(Value()))
    {
      if id in states || currentAwake.Some? {
        return false;
      }
      states := states[id := Awake];
      currentAwake := Some(id);
      ok := true;
    }

    method Transition(id: SessionId, newStatus: Status) returns (ok: bool)
      modifies this
      ensures ok == Transitioned(old(Value()), id, newStatus).Some?
      ensures Value() == Transitioned(old(Value()), id, newStatus).GetOr(old(Value()))
    {
      if id !in states {
        return false;
      }
      var currentStatus := states[id];
      if !Allowed(currentStatus, newStatus) {
        return false;
      }
      if newStatus == Awake {
        if currentAwake.Some? && currentAwake != Some(id) {
          return false;
        }
        currentAwake := Some(id);
      }
      if currentStatus == Awake && currentAwake == Some(id) {
        currentAwake := None;
      }
      states := states[id := newStatus];
      ok := true;
    }

    method SwitchContext(target: SessionId) returns (ok: bool)
      requires Exact(Value())
      modifies this
      ensures ok == Switched(old(Value()), target).Some?
      ensures Value() == Switched(old(Value()), target).GetOr(old(Value()))
    {
      SwitchedIsExact(Value(), target);
      if target !in states || states[target] != Drowsy {
        return false;
      }
      if currentAwake.Some? {
        ok := Transition(currentAwake.value, Drowsy);
      }
      ok := Transition(target, Awake);
    }
  }
}
