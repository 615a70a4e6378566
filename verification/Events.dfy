/**
 Control events over SQL: a subscriber polls a table for rows newer than the last one
 it looked at, and yields the first it can decode. Rows are inserted meanwhile.
 */
module Events {
  import opened Tasks

  /** A stored event; `data` is None when it cannot be decoded. */
  datatype EventRow = EventRow(sent: Timestamp, data: Option<string>)

  predicate Ascending(rows: seq<EventRow>) {
    forall i, j | 0 <= i < j < |rows| :: rows[i].sent <= rows[j].sent
  }

  predicate Increasing(rows: seq<EventRow>) {
    forall i, j | 0 <= i < j < |rows| :: rows[i].sent < rows[j].sent
  }

  function After(rows: seq<EventRow>, offset: Timestamp): seq<EventRow> {
    if rows == [] then []
    else
      var last := rows[|rows| - 1];
      After(rows[..|rows| - 1], offset) + if last.sent > offset then [last] else []
  }

  /** The rows newer than `from`, up to and including `to`. */
  function Window(rows: seq<EventRow>, from: Timestamp, to: Timestamp): seq<EventRow> {
    if rows == [] then []
    else
      var last := rows[|rows| - 1];
      Window(rows[..|rows| - 1], from, to) + if from < last.sent <= to then [last] else []
  }

  function Decoded(rows: seq<EventRow>): seq<string> {
    if rows == [] then []
    else
      var last := rows[|rows| - 1];
      Decoded(rows[..|rows| - 1]) + if last.data.Some? then [last.data.value] else []
  }

  /** What the query may return: the newer rows by `sent`, equal ones in any order. */
  ghost predicate IsFetch(rows: seq<EventRow>, offset: Timestamp, fetched: seq<EventRow>) {
    Ascending(fetched) && multiset(fetched) == multiset(After(rows, offset))
  }

  function FirstDecodable(rows: seq<EventRow>): (k: nat)
    ensures k <= |rows| && (k < |rows| ==> rows[k].data.Some?)
    ensures forall i | 0 <= i < k :: rows[i].data.None?
  {
    if rows == [] || rows[0].data.Some? then 0 else 1 + FirstDecodable(rows[1..])
  }

  function Yield(fetched: seq<EventRow>): Option<string> {
    var k := FirstDecodable(fetched);
    if k < |fetched| then fetched[k].data else None
  }

  function NextOffset(fetched: seq<EventRow>, offset: Timestamp): Timestamp {
    var k := FirstDecodable(fetched);
    if k < |fetched| then fetched[k].sent
    else if fetched != [] then fetched[|fetched| - 1].sent
    else offset
  }

  class EventStream {
    var offset: Timestamp

    constructor (now: Timestamp)
      ensures offset == now
    {
      offset := now;
    }

    /** One turn of the polling loop over what a query returned. */
    method Poll(fetched: seq<EventRow>) returns (event: Option<string>)
      modifies this
      ensures event == Yield(fetched) && offset == NextOffset(fetched, old(offset))
    {
      for i := 0 to |fetched|
        invariant forall j | 0 <= j < i :: fetched[j].data.None?
        invariant offset == if i == 0 then old(offset) else fetched[i - 1].sent
      {
        offset := fetched[i].sent;
        if fetched[i].data.Some? {
          return fetched[i].data;
        }
      }
      return None;
    }
  }

  // ---- any number of inserts and polls ----

  datatype State = State(table: seq<EventRow>, offset: Timestamp, yielded: seq<string>)

  datatype Step = Insert(row: EventRow) | Poll(fetched: seq<EventRow>)

  ghost predicate Next(s: State, step: Step, s': State) {
    match step
    case Insert(row) => s' == s.(table := s.table + [row])
    case Poll(fetched) =>
      && IsFetch(s.table, s.offset, fetched)
      && s'.table == s.table && s'.offset == NextOffset(fetched, s.offset)
      && s'.yielded == s.yielded + if Yield(fetched).Some? then [Yield(fetched).value] else []
  }

  ghost predicate IsRun(states: seq<State>, steps: seq<Step>) {
    && |states| == |steps| + 1 && states[0].yielded == []
    && forall i | 0 <= i < |steps| :: Next(states[i], steps[i], states[i + 1])
  }

  lemma {:induction false} AfterIs(rows: seq<EventRow>, offset: Timestamp)
    ensures forall r :: r in After(rows, offset) <==> r in rows && r.sent > offset
    ensures Increasing(rows) ==> Increasing(After(rows, offset))
  {
    if rows != [] {
      AfterIs(rows[..|rows| - 1], offset);
      assert rows == rows[..|rows| - 1] + [rows[|rows| - 1]];
      var rest := After(rows[..|rows| - 1], offset);
      assert forall i | 0 <= i < |rest| :: rest[i] in rest;
    }
  }

  lemma SortedLast(a: seq<EventRow>, b: seq<EventRow>)
    requires a != [] && |a| == |b| && Ascending(a) && Increasing(b) && multiset(a) == multiset(b)
    ensures a[|a| - 1] == b[|b| - 1]
  {
    var n := |a| - 1;
    assert a[n] in multiset(b) && b[n] in multiset(a);
    var i :| 0 <= i < |b| && b[i] == a[n];
    var j :| 0 <= j < |a| && a[j] == b[n];
    assert a[j].sent <= a[n].sent;
    assert i == n;
  }

  lemma ButLast(a: seq<EventRow>)
    requires a != []
    ensures multiset(a[..|a| - 1]) == multiset(a) - multiset{a[|a| - 1]}
  {
    assert a == a[..|a| - 1] + [a[|a| - 1]];
  }

  /** With distinct times there is only one way to sort a fetch. */
  lemma {:induction false} SortedIsUnique(a: seq<EventRow>, b: seq<EventRow>)
    requires Ascending(a) && Increasing(b) && multiset(a) == multiset(b)
    ensures a == b
    decreases |a|
  {
    SameLength(a, b);
    if a != [] {
      var n := |a| - 1;
      SameBut(a, b);
      SortedIsUnique(a[..n], b[..n]);
      assert a == a[..n] + [a[n]];
      assert b == b[..n] + [b[n]];
    }
  }

  lemma SameBut(a: seq<EventRow>, b: seq<EventRow>)
    requires a != [] && |a| == |b| && Ascending(a) && Increasing(b) && multiset(a) == multiset(b)
    ensures var n := |a| - 1;
            a[n] == b[n] && Ascending(a[..n]) && Increasing(b[..n]) && multiset(a[..n]) == multiset(b[..n])
  {
    SortedLast(a, b);
    ButLast(a);
    ButLast(b);
  }

  lemma SameLength(a: seq<EventRow>, b: seq<EventRow>)
    requires multiset(a) == multiset(b)
    ensures |a| == |b|
  {
    assert |multiset(a)| == |a| && |multiset(b)| == |b|;
  }

  lemma FetchedIsNewer(table: seq<EventRow>, offset: Timestamp, fetched: seq<EventRow>)
    requires IsFetch(table, offset, fetched)
    ensures forall r :: r in fetched <==> r in table && r.sent > offset
  {
    AfterIs(table, offset);
    assert forall r :: r in fetched <==> r in multiset(fetched);
    assert forall r :: r in After(table, offset) <==> r in multiset(After(table, offset));
  }

  lemma {:induction false} WindowIsEmpty(rows: seq<EventRow>, from: Timestamp, to: Timestamp)
    requires forall r | r in rows :: r.sent <= from || r.sent > to
    ensures Window(rows, from, to) == []
  {
    if rows != [] {
      WindowIsEmpty(rows[..|rows| - 1], from, to);
    }
  }

  lemma {:induction false} WindowSplits(rows: seq<EventRow>, from: Timestamp, mid: Timestamp, to: Timestamp)
    requires Increasing(rows) && from <= mid <= to
    ensures Window(rows, from, to) == Window(rows, from, mid) + Window(rows, mid, to)
  {
    if rows != [] {
      var n := |rows| - 1;
      WindowSplits(rows[..n], from, mid, to);
      if rows[n].sent <= mid {
        WindowIsEmpty(rows[..n], mid, to);
      }
    }
  }

  lemma {:induction false} PrefixIsWindow(rows: seq<EventRow>, offset: Timestamp, k: nat)
    requires Increasing(rows) && k < |After(rows, offset)|
    ensures After(rows, offset)[..k + 1] == Window(rows, offset, After(rows, offset)[k].sent)
  {
    var n := |rows| - 1;
    var after, rest := After(rows, offset), After(rows[..n], offset);
    if k < |rest| {
      PrefixIsWindow(rows[..n], offset, k);
      AfterIs(rows[..n], offset);
      assert rest[k] in rest;
      assert after[k] == rest[k] && rest[k].sent < rows[n].sent;
      assert after[..k + 1] == rest[..k + 1];
    } else {
      WholeIsWindow(rows[..n], offset, rows[n].sent);
      assert after == rest + [rows[n]];
      assert after[..k + 1] == after;
    }
  }

  lemma {:induction false} WholeIsWindow(rows: seq<EventRow>, offset: Timestamp, to: Timestamp)
    requires forall r | r in rows :: r.sent <= to
    ensures After(rows, offset) == Window(rows, offset, to)
  {
    if rows != [] {
      WholeIsWindow(rows[..|rows| - 1], offset, to);
    }
  }

  lemma {:induction false} DecodedJoins(a: seq<EventRow>, b: seq<EventRow>)
    ensures Decoded(a + b) == Decoded(a) + Decoded(b)
  {
    if b == [] {
      assert a + b == a;
    } else {
      var n := |b| - 1;
      assert (a + b)[..|a + b| - 1] == a + b[..n];
      DecodedJoins(a, b[..n]);
    }
  }

  lemma {:induction false} NoneDecoded(rows: seq<EventRow>)
    requires forall i | 0 <= i < |rows| :: rows[i].data.None?
    ensures Decoded(rows) == []
  {
    if rows != [] {
      NoneDecoded(rows[..|rows| - 1]);
    }
  }

  /** The rows a poll looks at are those of the window it moves over. */
  lemma PollMovesOver(table: seq<EventRow>, offset: Timestamp, fetched: seq<EventRow>) returns (looked: nat)
    requires Increasing(table) && IsFetch(table, offset, fetched)
    ensures looked == (if FirstDecodable(fetched) < |fetched| then FirstDecodable(fetched) + 1 else |fetched|)
    ensures fetched == After(table, offset)
    ensures offset <= NextOffset(fetched, offset)
    ensures fetched[..looked] == Window(table, offset, NextOffset(fetched, offset))
  {
    AfterIs(table, offset);
    SortedIsUnique(fetched, After(table, offset));
    looked := if FirstDecodable(fetched) < |fetched| then FirstDecodable(fetched) + 1 else |fetched|;
    if fetched == [] {
      WindowIsEmpty(table, offset, offset);
    } else {
      assert fetched[looked - 1] in fetched;
      PrefixIsWindow(table, offset, looked - 1);
    }
  }

  lemma FirstDecoded(rows: seq<EventRow>)
    ensures var k := FirstDecodable(rows);
            if k < |rows| then Decoded(rows[..k + 1]) == [rows[k].data.value] else Decoded(rows) == []
  {
    var k := FirstDecodable(rows);
    NoneDecoded(rows[..k]);
    if k < |rows| {
      assert rows[..k + 1][..k] == rows[..k];
    } else {
      assert rows[..k] == rows;
    }
  }

  /** And it yields what is decodable there. */
  lemma PollYieldsWindow(table: seq<EventRow>, offset: Timestamp, fetched: seq<EventRow>)
    requires Increasing(table) && IsFetch(table, offset, fetched)
    ensures Decoded(Window(table, offset, NextOffset(fetched, offset)))
         == if Yield(fetched).Some? then [Yield(fetched).value] else []
  {
    var looked := PollMovesOver(table, offset, fetched);
    FirstDecoded(fetched);
    if looked == |fetched| {
      assert fetched[..looked] == fetched;
    }
  }

  /** A poll that yields nothing has looked at everything. */
  lemma QuietPollSeesAll(table: seq<EventRow>, offset: Timestamp, fetched: seq<EventRow>)
    requires Increasing(table) && IsFetch(table, offset, fetched) && Yield(fetched).None?
    ensures forall r | r in table :: r.sent <= NextOffset(fetched, offset)
  {
    FetchedIsNewer(table, offset, fetched);
    forall r | r in table ensures r.sent <= NextOffset(fetched, offset) {
      if r.sent > offset {
        var i :| 0 <= i < |fetched| && fetched[i] == r;
      }
    }
  }

  predicate SentIn(table: seq<EventRow>, t: Timestamp) {
    exists i :: 0 <= i < |table| && table[i].sent == t
  }

  ghost predicate Delivered(s: State, since: Timestamp) {
    && Increasing(s.table) && since <= s.offset && (s.offset == since || SentIn(s.table, s.offset))
    && s.yielded == Decoded(Window(s.table, since, s.offset))
  }

  lemma InsertDelivers(s: State, row: EventRow, since: Timestamp)
    requires Delivered(s, since) && Increasing(s.table + [row])
    ensures Delivered(s.(table := s.table + [row]), since)
  {
    var table := s.table + [row];
    assert table[..|table| - 1] == s.table && table[|table| - 1] == row;
    if s.offset != since {
      var i :| 0 <= i < |s.table| && s.table[i].sent == s.offset;
      assert table[i].sent == s.offset && table[i].sent < row.sent;
    }
    assert Window(table, since, s.offset) == Window(s.table, since, s.offset);
  }

  lemma PollDelivers(s: State, fetched: seq<EventRow>, s': State, since: Timestamp)
    requires Delivered(s, since) && Next(s, Poll(fetched), s')
    ensures Delivered(s', since)
  {
    var looked := PollMovesOver(s.table, s.offset, fetched);
    PollYieldsWindow(s.table, s.offset, fetched);
    WindowSplits(s.table, since, s.offset, s'.offset);
    DecodedJoins(Window(s.table, since, s.offset), Window(s.table, s.offset, s'.offset));
    OffsetIsSent(s.table, s.offset, fetched);
  }

  lemma OffsetIsSent(table: seq<EventRow>, offset: Timestamp, fetched: seq<EventRow>)
    requires IsFetch(table, offset, fetched)
    ensures NextOffset(fetched, offset) == offset || SentIn(table, NextOffset(fetched, offset))
  {
    FetchedIsNewer(table, offset, fetched);
    if fetched != [] {
      var k := FirstDecodable(fetched);
      var row := if k < |fetched| then fetched[k] else fetched[|fetched| - 1];
      assert row in fetched;
      var i :| 0 <= i < |table| && table[i] == row;
    }
  }

  /** Events sent at strictly increasing times: each poll keeps the yielded ones exactly those passed over. */
  lemma {:induction false} DeliversInOrder(states: seq<State>, steps: seq<Step>, k: nat)
    requires IsRun(states, steps) && k < |states| && forall i | 0 <= i <= k :: Increasing(states[i].table)
    ensures Delivered(states[k], states[0].offset)
  {
    if k == 0 {
      WindowIsEmpty(states[0].table, states[0].offset, states[0].offset);
    } else {
      DeliversInOrder(states, steps, k - 1);
      assert Next(states[k - 1], steps[k - 1], states[k]);
      match steps[k - 1]
      case Insert(row) => InsertDelivers(states[k - 1], row, states[0].offset);
      case Poll(fetched) => PollDelivers(states[k - 1], fetched, states[k], states[0].offset);
    }
  }

  /** So they are a prefix, without repeats or gaps, of the decodable events since the subscription. */
  lemma YieldsPrefix(states: seq<State>, steps: seq<Step>, k: nat)
    requires IsRun(states, steps) && k < |states| && forall i | 0 <= i <= k :: Increasing(states[i].table)
    ensures states[k].yielded <= Decoded(After(states[k].table, states[0].offset))
  {
    DeliversInOrder(states, steps, k);
    var s, since := states[k], states[0].offset;
    var n := |s.table|;
    var top := if n == 0 || s.table[n - 1].sent < s.offset then s.offset else s.table[n - 1].sent;
    WholeIsWindow(s.table, since, top);
    WindowSplits(s.table, since, s.offset, top);
    DecodedJoins(Window(s.table, since, s.offset), Window(s.table, s.offset, top));
  }

  /** And once a poll finds nothing to yield, they are all of them. */
  lemma QuietPollHasYieldedAll(states: seq<State>, steps: seq<Step>, k: nat)
    requires IsRun(states, steps) && k < |steps| && forall i | 0 <= i <= k + 1 :: Increasing(states[i].table)
    requires steps[k].Poll? && Yield(steps[k].fetched).None?
    ensures states[k + 1].yielded == Decoded(After(states[k + 1].table, states[0].offset))
  {
    DeliversInOrder(states, steps, k + 1);
    assert Next(states[k], steps[k], states[k + 1]);
    QuietPollSeesAll(states[k].table, states[k].offset, steps[k].fetched);
    WholeIsWindow(states[k + 1].table, states[0].offset, states[k + 1].offset);
  }

  // ---- equal times ----

  lemma {:induction false} OffsetNeverFalls(states: seq<State>, steps: seq<Step>, i: nat, j: nat)
    requires IsRun(states, steps) && i <= j < |states|
    ensures states[i].offset <= states[j].offset
    decreases j
  {
    if i < j {
      OffsetNeverFalls(states, steps, i, j - 1);
      var s, step := states[j - 1], steps[j - 1];
      assert Next(s, step, states[j]);
      if step.Poll? {
        FetchedIsNewer(s.table, s.offset, step.fetched);
      }
    }
  }

  /**
   Whatever the times, a row not newer than the offset is never fetched again. So of
   several rows with the time of a yielded one, only the yielded one is delivered.
   */
  lemma PassedRowsAreGone(states: seq<State>, steps: seq<Step>, i: nat, j: nat, r: EventRow)
    requires IsRun(states, steps) && i <= j < |steps| && r.sent <= states[i].offset && steps[j].Poll?
    ensures r !in steps[j].fetched
  {
    OffsetNeverFalls(states, steps, i, j);
    assert Next(states[j], steps[j], states[j + 1]);
    FetchedIsNewer(states[j].table, states[j].offset, steps[j].fetched);
  }

  /** A poll passes over a decodable row without yielding it exactly when the row shares the yielded one's time. */
  lemma PollSkipsExactlyTies(table: seq<EventRow>, offset: Timestamp, fetched: seq<EventRow>, i: nat)
    requires IsFetch(table, offset, fetched) && i < |fetched| && fetched[i].data.Some? && i != FirstDecodable(fetched)
    ensures fetched[i].sent <= NextOffset(fetched, offset) <==> fetched[i].sent == fetched[FirstDecodable(fetched)].sent
  {
    assert FirstDecodable(fetched) < i;
  }
}
