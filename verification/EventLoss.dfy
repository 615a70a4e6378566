/**
 Which control events a subscriber of the SQL stream gets, whatever their times: one
 stored behind the offset is lost, and of several with one time the poll that yields
 one of them loses the rest. Nothing else is lost.
 */
module EventLoss {
  import opened Tasks
  import opened Events

  /** The poll yields this very row. */
  predicate Yields(step: Step, r: EventRow) {
    && step.Poll? && FirstDecodable(step.fetched) < |step.fetched|
    && step.fetched[FirstDecodable(step.fetched)] == r
  }

  /** The poll looks at the row but yields another one of its time. */
  predicate Ties(step: Step, r: EventRow) {
    && step.Poll? && r in step.fetched && FirstDecodable(step.fetched) < |step.fetched|
    && var first := step.fetched[FirstDecodable(step.fetched)];
       first != r && first.sent == r.sent
  }

  /** The row is stored when the offset has already reached its time. */
  predicate ComesLate(s: State, step: Step, r: EventRow) {
    step == Insert(r) && r.sent <= s.offset
  }

  ghost predicate WasYielded(steps: seq<Step>, m: nat, r: EventRow) {
    exists j :: 0 <= j < m && j < |steps| && Yields(steps[j], r)
  }

  ghost predicate WasTied(steps: seq<Step>, m: nat, r: EventRow) {
    exists j :: 0 <= j < m && j < |steps| && Ties(steps[j], r)
  }

  /** It was there, or came, at or behind the offset; a subscriber is not owed what it had before. */
  ghost predicate CameLate(states: seq<State>, steps: seq<Step>, m: nat, r: EventRow)
    requires |states| == |steps| + 1
  {
    || (r in states[0].table && r.sent <= states[0].offset)
    || exists j :: 0 <= j < m && j < |steps| && ComesLate(states[j], steps[j], r)
  }

  /** What has become of a row stored at most once. */
  ghost predicate Fate(states: seq<State>, steps: seq<Step>, m: nat, r: EventRow)
    requires |states| == |steps| + 1 && m < |states|
  {
    if r in states[m].table && r.sent <= states[m].offset
    then WasYielded(steps, m, r) <==> !CameLate(states, steps, m, r) && !WasTied(steps, m, r)
    else !WasYielded(steps, m, r) && !CameLate(states, steps, m, r) && !WasTied(steps, m, r)
  }

  // ---- one step ----

  lemma YieldedLater(steps: seq<Step>, m: nat, r: EventRow)
    requires m < |steps|
    ensures WasYielded(steps, m + 1, r) <==> WasYielded(steps, m, r) || Yields(steps[m], r)
  {
    if j :| 0 <= j < m + 1 && j < |steps| && Yields(steps[j], r) {
      assert j < m ==> WasYielded(steps, m, r);
    }
  }

  lemma TiedLater(steps: seq<Step>, m: nat, r: EventRow)
    requires m < |steps|
    ensures WasTied(steps, m + 1, r) <==> WasTied(steps, m, r) || Ties(steps[m], r)
  {
    if j :| 0 <= j < m + 1 && j < |steps| && Ties(steps[j], r) {
      assert j < m ==> WasTied(steps, m, r);
    }
  }

  lemma LateLater(states: seq<State>, steps: seq<Step>, m: nat, r: EventRow)
    requires |states| == |steps| + 1 && m < |steps|
    ensures CameLate(states, steps, m + 1, r) <==> CameLate(states, steps, m, r) || ComesLate(states[m], steps[m], r)
  {
    if j :| 0 <= j < m + 1 && j < |steps| && ComesLate(states[j], steps[j], r) {
      assert j < m ==> CameLate(states, steps, m, r);
    }
  }

  /** A decodable row that a poll moves past is yielded or tied, and exactly one of the two. */
  lemma PollDecides(s: State, step: Step, s': State, r: EventRow)
    requires step.Poll? && Events.Next(s, step, s') && r in s.table && r.data.Some?
    ensures s.offset <= s'.offset
    ensures r.sent > s.offset && r.sent <= s'.offset ==> (Yields(step, r) <==> !Ties(step, r))
    ensures r.sent <= s.offset || r.sent > s'.offset ==> !Yields(step, r) && !Ties(step, r)
  {
    var fetched := step.fetched;
    FetchedIsNewer(s.table, s.offset, fetched);
    if r in fetched {
      var i :| 0 <= i < |fetched| && fetched[i] == r;
      var k := FirstDecodable(fetched);
      assert k <= i && fetched[k] in fetched;
      if k < i {
        PollSkipsExactlyTies(s.table, s.offset, fetched, i);
      }
    }
    OffsetMoves(s.table, s.offset, fetched);
  }

  lemma OffsetMoves(table: seq<EventRow>, offset: Timestamp, fetched: seq<EventRow>)
    requires IsFetch(table, offset, fetched)
    ensures offset <= NextOffset(fetched, offset)
  {
    FetchedIsNewer(table, offset, fetched);
    forall i | 0 <= i < |fetched| ensures fetched[i].sent > offset {
      assert fetched[i] in fetched;
    }
  }

  lemma UnknownIsNotPolled(s: State, step: Step, s': State, r: EventRow)
    requires step.Poll? && Events.Next(s, step, s') && r !in s.table
    ensures !Yields(step, r) && !Ties(step, r)
  {
    FetchedIsNewer(s.table, s.offset, step.fetched);
    assert FirstDecodable(step.fetched) < |step.fetched| ==>
        step.fetched[FirstDecodable(step.fetched)] in step.fetched;
  }

  lemma InsertedOnce(table: seq<EventRow>, row: EventRow, r: EventRow)
    ensures multiset(table + [row])[r] == multiset(table)[r] + if row == r then 1 else 0
    ensures r in table <==> multiset(table)[r] > 0
  {
    assert r in table <==> r in multiset(table);
  }

  lemma StepKeepsFate(states: seq<State>, steps: seq<Step>, m: nat, r: EventRow)
    requires Events.IsRun(states, steps) && m < |steps| && r.data.Some?
    requires multiset(states[m + 1].table)[r] <= 1 && Fate(states, steps, m, r)
    ensures Fate(states, steps, m + 1, r)
  {
    var s, step, s' := states[m], steps[m], states[m + 1];
    assert Events.Next(s, step, s');
    YieldedLater(steps, m, r);
    TiedLater(steps, m, r);
    LateLater(states, steps, m, r);
    match step
    case Insert(row) => InsertedOnce(s.table, row, r);
    case Poll(_) =>
      if r in s.table {
        PollDecides(s, step, s', r);
      } else {
        UnknownIsNotPolled(s, step, s', r);
      }
  }

  lemma TableGrows(s: State, step: Step, s': State, r: EventRow)
    requires Events.Next(s, step, s')
    ensures multiset(s.table)[r] <= multiset(s'.table)[r]
  {
    if step.Insert? {
      InsertedOnce(s.table, step.row, r);
    }
  }

  // ---- whole runs ----

  /**
   In every run, a decodable row stored once that the offset has reached was yielded
   if and only if it was not stored behind the offset and no poll yielded another row
   of its time instead. Until the offset reaches it, it is neither yielded nor lost.
   */
  lemma {:induction false} YieldedUnlessLateOrTied(states: seq<State>, steps: seq<Step>, m: nat, r: EventRow)
    requires Events.IsRun(states, steps) && m < |states| && r.data.Some? && multiset(states[m].table)[r] <= 1
    ensures Fate(states, steps, m, r)
    decreases m
  {
    if m > 0 {
      TableGrows(states[m - 1], steps[m - 1], states[m], r);
      YieldedUnlessLateOrTied(states, steps, m - 1, r);
      StepKeepsFate(states, steps, m - 1, r);
    }
  }

  // ---- both losses occur ----

  const EARLY := EventRow(3, Some("early"))
  const FIRST := EventRow(5, Some("first"))
  const OTHER := EventRow(5, Some("other"))

  lemma FetchOne(offset: Timestamp, r: EventRow)
    requires r.sent > offset
    ensures IsFetch([r], offset, [r])
  {
    assert After([r][..0], offset) == [];
    assert After([r], offset) == [r];
  }

  lemma FetchBoth()
    ensures IsFetch([FIRST, OTHER], 0, [FIRST, OTHER])
  {
    FetchOne(0, FIRST);
    assert [FIRST, OTHER][..1] == [FIRST];
    assert After([FIRST, OTHER], 0) == [FIRST, OTHER];
  }

  /** Two events of one time: the first is yielded, the other never fetched again. */
  lemma TiedEventIsLost() returns (states: seq<State>, steps: seq<Step>)
    ensures Events.IsRun(states, steps) && states[0].offset < OTHER.sent
    ensures OTHER in states[|steps|].table && multiset(states[|steps|].table)[OTHER] == 1
    ensures OTHER.sent <= states[|steps|].offset && !WasYielded(steps, |steps|, OTHER)
  {
    FetchBoth();
    steps := [Insert(FIRST), Insert(OTHER), Poll([FIRST, OTHER])];
    states := [State([], 0, []), State([FIRST], 0, []), State([FIRST, OTHER], 0, []),
               State([FIRST, OTHER], 5, ["first"])];
    assert FirstDecodable([FIRST, OTHER]) == 0;
    assert OTHER in states[3].table && multiset(states[3].table) == multiset{FIRST, OTHER};
    assert Ties(steps[2], OTHER);
  }

  function LateStates(): (states: seq<State>)
    ensures |states| == 4
  {
    [State([], 0, []), State([FIRST], 0, []), State([FIRST], 5, ["first"]), State([FIRST, EARLY], 5, ["first"])]
  }

  function LateSteps(): (steps: seq<Step>)
    ensures |steps| == 3
  {
    [Insert(FIRST), Poll([FIRST]), Insert(EARLY)]
  }

  lemma LateFollows(i: nat)
    requires i < 3
    ensures Events.Next(LateStates()[i], LateSteps()[i], LateStates()[i + 1])
  {
    FetchOne(0, FIRST);
    assert FirstDecodable([FIRST]) == 0;
  }

  lemma LateTable()
    ensures EARLY in [FIRST, EARLY] && multiset([FIRST, EARLY])[EARLY] == 1
  {
    assert multiset([FIRST, EARLY]) == multiset{FIRST, EARLY};
  }

  /** All times differ, and still an event stored after a later one was polled is never fetched. */
  lemma LateEventIsLost() returns (states: seq<State>, steps: seq<Step>)
    ensures Events.IsRun(states, steps) && states[0].offset < EARLY.sent
    ensures forall i, j | 0 <= i < j < |states[|steps|].table| ::
              states[|steps|].table[i].sent != states[|steps|].table[j].sent
    ensures EARLY in states[|steps|].table && multiset(states[|steps|].table)[EARLY] == 1
    ensures EARLY.sent <= states[|steps|].offset && !WasYielded(steps, |steps|, EARLY)
  {
    states, steps := LateStates(), LateSteps();
    forall i | 0 <= i < |steps| ensures Events.Next(states[i], steps[i], states[i + 1]) {
      LateFollows(i);
    }
    LateTable();
  }
}
