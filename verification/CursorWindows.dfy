/** The append-only history, and the windows of it that a Cerebellum layer consumes by moving its cursor. */
module CursorWindows {
  import opened Wrappers

  type Session = int

  datatype Turn = Turn(role: string, content: string)

  datatype Row = Row(session: Session, index: nat, turn: Turn)

  // ----- the history store -----

  /** The turns of one session, in the order of their insertion. */
  function TurnsOf(rows: seq<Row>, session: Session): seq<Turn>
    decreases |rows|
  {
    if rows == [] then []
    else
      var last := rows[|rows| - 1];
      TurnsOf(rows[..|rows| - 1], session) + (if last.session == session then [last.turn] else [])
  }

  /** Every row's index is the number of earlier rows of its session. */
  predicate Dense(rows: seq<Row>)
    decreases |rows|
  {
    rows == [] ||
    (var last, before := rows[|rows| - 1], rows[..|rows| - 1];
     Dense(before) && last.index == |TurnsOf(before, last.session)|)
  }

  /** In a dense history row i of a session carries index i and turn i: none is missing and none repeated. */
  lemma {:induction false} DenseIndices(rows: seq<Row>, session: Session, k: nat)
    requires Dense(rows) && k < |rows| && rows[k].session == session
    ensures rows[k].index < |TurnsOf(rows, session)| && TurnsOf(rows, session)[rows[k].index] == rows[k].turn
    decreases |rows|
  {
    var before := rows[..|rows| - 1];
    if k < |before| {
      DenseIndices(before, session, k);
      assert before[k] == rows[k];
    }
  }

  lemma {:induction false} EachIndexOnce(rows: seq<Row>, j: nat, k: nat)
    requires Dense(rows) && j < k < |rows| && rows[j].session == rows[k].session
    ensures rows[j].index < rows[k].index
    decreases |rows|
  {
    var before := rows[..|rows| - 1];
    if k < |before| {
      EachIndexOnce(before, j, k);
    } else {
      DenseIndices(before, rows[k].session, j);
    }
  }

  class SessionHistoryStore {
    var rows: seq<Row>
    var frozen: set<Session>

    predicate Valid()
      reads this
    {
      Dense(rows)
    }

    constructor ()
      ensures Valid() && rows == [] && frozen == {}
    {
      rows, frozen := [], {};
    }

    /** `append`: the next index is one more than the largest of the session; None when the session is frozen. */
    method Append(session: Session, turn: Turn) returns (index: Option<nat>)
      requires Valid()
      modifies this`rows
      ensures Valid()
      ensures session in frozen ==> index == None && rows == old(rows)
      ensures session !in frozen ==>
                && index == Some(|TurnsOf(old(rows), session)|)
                && TurnsOf(rows, session) == TurnsOf(old(rows), session) + [turn]
                && forall other :: other != session ==> TurnsOf(rows, other) == TurnsOf(old(rows), other)
    {
      if session in frozen {
        return None;
      }
      var next := NextIndex(session);
      ghost var before := rows;
      rows := rows + [Row(session, next, turn)];
      assert rows[..|rows| - 1] == before;
      index := Some(next);
    }

    /** `COALESCE(MAX(turn_index), -1) + 1`. */
    method NextIndex(session: Session) returns (next: nat)
      requires Valid()
      ensures next == |TurnsOf(rows, session)|
    {
      next := 0;
      for i := 0 to |rows|
        invariant Dense(rows[..i])
        invariant next == |TurnsOf(rows[..i], session)|
      {
        assert rows[..i + 1][..i] == rows[..i];
        DensePrefix(rows, i + 1);
        if rows[i].session == session && rows[i].index + 1 > next {
          next := rows[i].index + 1;
        }
      }
      assert rows[..|rows|] == rows;
    }

    /** `readRange`, whose end is inclusive. */
    method ReadRange(session: Session, start: nat, end: int) returns (turns: seq<Turn>)
      requires Valid()
      ensures turns == Between(TurnsOf(rows, session), start, end)
    {
      hide Between, Dense, TurnsOf;
      turns := [];
      NothingBetween(rows, session, start, end);
      for i := 0 to |rows|
        invariant turns == Between(TurnsOf(rows[..i], session), start, end)
      {
        RowStep(rows, i, session);
        if rows[i].session == session {
          BetweenSnoc(TurnsOf(rows[..i], session), rows[i].turn, start, end);
          if start <= rows[i].index <= end {
            turns := turns + [rows[i].turn];
          }
        }
      }
      assert rows[..|rows|] == rows;
    }

    method Length(session: Session) returns (count: nat)
      ensures count == |TurnsOf(rows, session)|
    {
      count := 0;
      for i := 0 to |rows|
        invariant count == |TurnsOf(rows[..i], session)|
      {
        assert rows[..i + 1][..i] == rows[..i];
        if rows[i].session == session {
          count := count + 1;
        }
      }
      assert rows[..|rows|] == rows;
    }

    method Freeze(session: Session)
      modifies this`frozen
      ensures frozen == old(frozen) + {session}
    {
      frozen := frozen + {session};
    }
  }

  lemma {:induction false} DensePrefix(rows: seq<Row>, k: nat)
    requires Dense(rows) && k <= |rows|
    ensures Dense(rows[..k])
    decreases |rows|
  {
    if k == |rows| {
      assert rows[..k] == rows;
    } else {
      DensePrefix(rows[..|rows| - 1], k);
      assert rows[..|rows| - 1][..k] == rows[..k];
    }
  }

  lemma RowStep(rows: seq<Row>, i: nat, session: Session)
    requires Dense(rows) && i < |rows|
    ensures TurnsOf(rows[..i + 1], session)
            == if rows[i].session == session then TurnsOf(rows[..i], session) + [rows[i].turn]
              else TurnsOf(rows[..i], session)
    ensures rows[i].index == |TurnsOf(rows[..i], rows[i].session)|
  {
    DensePrefix(rows, i + 1);
    assert rows[..i + 1][..i] == rows[..i];
  }

  lemma NothingBetween(rows: seq<Row>, session: Session, start: nat, end: int)
    ensures Between(TurnsOf(rows[..0], session), start, end) == []
  {
  }

  /** Turns `start` to `end`, both included, as far as they exist. */
  function Between(turns: seq<Turn>, start: nat, end: int): seq<Turn> {
    var stop := if end + 1 <= |turns| then end + 1 else |turns|;
    if start < stop then turns[start..stop] else []
  }

  lemma BetweenSnoc(turns: seq<Turn>, t: Turn, start: nat, end: int)
    ensures Between(turns + [t], start, end)
            == if start <= |turns| <= end then Between(turns, start, end) + [t] else Between(turns, start, end)
  {
  }

  // ----- the windows of one layer -----

  /** Turns `from` up to but not including `to`. */
  datatype Window = Window(from: nat, to: nat)

  /** A layer's cursor, the window of a tick under way, and the windows it has committed. */
  datatype Layer = Layer(cursor: nat, open: Option<Window>, committed: seq<Window>)

  datatype Event = Appended | Begins | Commits | Fails

  /** One event at a session with `length` turns; appends may come at any point of a tick. */
  function Next(length: nat, l: Layer, e: Event): (nat, Layer) {
    match e
    case Appended => (length + 1, l)
    case Begins =>
      if l.open.Some? || length <= l.cursor then (length, l) else (length, l.(open := Some(Window(l.cursor, length))))
    case Commits =>
      if l.open.None? then (length, l)
      else (length, Layer(l.open.value.to, None, l.committed + [l.open.value]))
    case Fails => (length, l.(open := None))
  }

  /** What each part of a tick does: it opens the window from the cursor to the end of the history as it is then, unless
      one is open or there is nothing new; a commit closes it and moves the cursor to its end; a failure only closes
      it. */
  lemma TickEffect(length: nat, l: Layer)
    ensures Next(length, l, Appended) == (length + 1, l)
    ensures var (n, m) := Next(length, l, Begins);
            && n == length && m.cursor == l.cursor && m.committed == l.committed
            && (l.open.None? && l.cursor < length ==> m.open == Some(Window(l.cursor, length)))
            && (l.open.Some? || l.cursor >= length ==> m.open == l.open)
    ensures var (n, m) := Next(length, l, Commits);
            && n == length && (l.open.None? ==> m == l)
            && (l.open.Some? ==>
                  && m.cursor == l.open.value.to && m.open.None?
                  && |m.committed| == |l.committed| + 1 && l.committed <= m.committed
                  && m.committed[|l.committed|] == l.open.value)
    ensures var (n, m) := Next(length, l, Fails);
            n == length && m.cursor == l.cursor && m.committed == l.committed && m.open.None?
  {
  }

  function Run(length: nat, l: Layer, es: seq<Event>): (nat, Layer)
    decreases |es|
  {
    if es == [] then (length, l) else var (n, m) := Next(length, l, es[0]); Run(n, m, es[1..])
  }

  /** The windows follow each other without gap or overlap from 0 to `cursor`. */
  predicate Contiguous(ws: seq<Window>, cursor: nat) {
    && (forall i :: 0 <= i < |ws| ==> ws[i].from < ws[i].to)
    && (forall i :: 0 <= i < |ws| - 1 ==> ws[i].to == ws[i + 1].from)
    && (if ws == [] then cursor == 0 else ws[0].from == 0 && ws[|ws| - 1].to == cursor)
  }

  predicate Good(length: nat, l: Layer) {
    && l.cursor <= length && Contiguous(l.committed, l.cursor)
    && (l.open.Some? ==> l.open.value.from == l.cursor < l.open.value.to <= length)
  }

  const FRESH_LAYER := Layer(0, None, [])

  lemma NextIsGood(length: nat, l: Layer, e: Event)
    requires Good(length, l)
    ensures var (n, m) := Next(length, l, e);
            Good(n, m) && length <= n && l.cursor <= m.cursor && l.committed <= m.committed
  {
  }

  lemma {:induction false} RunIsGood(length: nat, l: Layer, es: seq<Event>)
    requires Good(length, l)
    ensures var (n, m) := Run(length, l, es); Good(n, m) && l.committed <= m.committed
    decreases |es|
  {
    if es != [] {
      var (n, m) := Next(length, l, es[0]);
      NextIsGood(length, l, es[0]);
      RunIsGood(n, m, es[1..]);
    }
  }

  predicate Within(w: Window, k: nat) {
    w.from <= k < w.to
  }

  lemma {:induction false} LaterStartsLater(ws: seq<Window>, cursor: nat, i: nat, j: nat)
    requires Contiguous(ws, cursor) && i < j < |ws|
    ensures ws[i].to <= ws[j].from
    decreases j
  {
    if i + 1 < j {
      LaterStartsLater(ws, cursor, i, j - 1);
      assert ws[j - 1].to == ws[j - 1 + 1].from;
    } else {
      assert ws[i].to == ws[i + 1].from;
    }
  }

  lemma {:induction false} SomeWindowHolds(ws: seq<Window>, cursor: nat, k: nat) returns (i: nat)
    requires Contiguous(ws, cursor) && k < cursor
    ensures i < |ws| && Within(ws[i], k)
    decreases |ws|
  {
    var last := ws[|ws| - 1];
    if last.from <= k {
      i := |ws| - 1;
    } else {
      var before := ws[..|ws| - 1];
      assert |before| > 0 ==> ws[|ws| - 2].to == ws[|ws| - 2 + 1].from;
      assert forall n :: 0 <= n < |before| ==> before[n] == ws[n];
      i := SomeWindowHolds(before, last.from, k);
    }
  }

  /** The committed windows cover exactly the turns before the cursor, each of them once. */
  lemma WindowsCoverExactly(ws: seq<Window>, cursor: nat, k: nat)
    requires Contiguous(ws, cursor)
    ensures k < cursor <==> exists i :: 0 <= i < |ws| && Within(ws[i], k)
    ensures forall i, j :: 0 <= i < |ws| && 0 <= j < |ws| && Within(ws[i], k) && Within(ws[j], k) ==> i == j
  {
    if k < cursor {
      var i := SomeWindowHolds(ws, cursor, k);
    }
    forall i | 0 <= i < |ws| && Within(ws[i], k) ensures k < cursor {
      if i < |ws| - 1 {
        LaterStartsLater(ws, cursor, i, |ws| - 1);
      }
    }
    forall i, j | 0 <= i < j < |ws| && Within(ws[i], k) ensures !Within(ws[j], k) {
      LaterStartsLater(ws, cursor, i, j);
    }
  }

  /**
    * After any run of ticks, failures and appends: the layer has consumed exactly the turns before its cursor, each in
    * one window. If the cursor is at the end of the history, the condition for archiving, that is every turn there is.
    */
  lemma EveryTurnOnce(es: seq<Event>, k: nat)
    ensures var (length, l) := Run(0, FRESH_LAYER, es);
            && l.cursor <= length
            && (k < l.cursor <==> exists i :: 0 <= i < |l.committed| && Within(l.committed[i], k))
            && (forall i, j :: 0 <= i < |l.committed| && 0 <= j < |l.committed| ==>
                  (Within(l.committed[i], k) && Within(l.committed[j], k) ==> i == j))
            && (l.cursor >= length ==>
                (k < length <==> exists i :: 0 <= i < |l.committed| && Within(l.committed[i], k)))
  {
    hide Run;
    RunIsGood(0, FRESH_LAYER, es);
    var (length, l) := Run(0, FRESH_LAYER, es);
    WindowsCoverExactly(l.committed, l.cursor, k);
  }

  /** The cursor of one layer at one session, with its windows. */
  class CursorLayer {
    var cursor: nat
    ghost var open: Option<Window>
    ghost var committed: seq<Window>

    ghost function Value(): Layer
      reads this
    {
      Layer(cursor, open, committed)
    }

    constructor ()
      ensures Value() == FRESH_LAYER
    {
      cursor, open, committed := 0, None, [];
    }

    /** The first half of `_processSession` and `_summarizeSession`: read the new turns, None if there are none. */
    method BeginTick(history: SessionHistoryStore, session: Session) returns (turns: Option<seq<Turn>>, length: nat)
      requires history.Valid() && open == None
      modifies this`open
      ensures length == |TurnsOf(history.rows, session)|
      ensures (length, Value()) == Next(length, old(Value()), Begins)
      ensures turns == if open.None? then None else Some(TurnsOf(history.rows, session)[cursor..])
    {
      length := history.Length(session);
      if length <= cursor {
        return None, length;
      }
      var read := history.ReadRange(session, cursor, length - 1);
      open := Some(Window(cursor, length));
      assert TurnsOf(history.rows, session)[cursor..length] == TurnsOf(history.rows, session)[cursor..];
      turns := Some(read);
    }

    /** The second half, once everything was written: the cursor goes to the length read at the beginning. */
    method CommitTick(length: nat)
      requires open.Some? && open.value.to == length
      modifies this
      ensures Value() == Next(length, old(Value()), Commits).1
    {
      cursor := length;
      committed := committed + [open.value];
      open := None;
    }

    /** A tick that throws leaves the cursor where it was. */
    method AbandonTick()
      modifies this`open
      ensures Value() == Next(0, old(Value()), Fails).1
    {
      open := None;
    }
  }
}
