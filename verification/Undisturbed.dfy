/**
 What the heartbeat services come to where nobody disturbs them: from any state whatever
 a refresh, a purge and a sweep can run to their end, and do what they are for.
 */
module Undisturbed {
  import opened Tasks
  import opened Lifecycle
  import opened Detector
  import Runner

  /** Some steps lead from one state to another. */
  ghost predicate Leads(gap: nat, states: seq<State>, steps: seq<Step>, from: State, to: State) {
    && |states| == |steps| + 1 && states[0] == from && states[|steps|] == to
    && forall i | 0 <= i < |steps| :: Detector.Next(gap, states[i], steps[i], states[i + 1])
  }

  lemma OneMoreBefore(gap: nat, states: seq<State>, steps: seq<Step>, from: State, step: Step, mid: State, to: State)
    requires Detector.Next(gap, from, step, mid) && Leads(gap, states, steps, mid, to)
    ensures Leads(gap, [from] + states, [step] + steps, from, to)
  {
    var more, did := [from] + states, [step] + steps;
    forall i | 0 <= i < |did| ensures Detector.Next(gap, more[i], did[i], more[i + 1]) {
      if i > 0 {
        assert Detector.Next(gap, states[i - 1], steps[i - 1], states[i]);
      }
    }
  }

  /** A refresh registers the worker for fifteen seconds from now. */
  lemma RefreshRegisters(gap: nat, s: State, w: WorkerId) returns (states: seq<State>, steps: seq<Step>, t: State)
    requires w !in s.stopped && forall i | 0 <= i < |s.refreshes| :: w !in s.refreshes[i].workers
    ensures Leads(gap, states, steps, s, t) && t.now == s.now
    ensures t.expiry == s.expiry[w := s.now + 15_000] && t.board == s.board
  {
    var n := |s.refreshes|;
    var r := Refresh({w} - s.stopped, s.now + WORKER_TTL);
    var a := s.(refreshes := s.refreshes + [r]);
    var landed := Register(s.landed, r.workers, r.expiry);
    t := a.(refreshes := Without(a.refreshes, n), expiry := Register(s.expiry, r.workers, r.expiry),
            landed := landed, lapsed := s.lapsed + Overdue(landed, s.now + gap));
    states, steps := [s, a, t], [BeginRefresh({w}), LandRefresh(n)];
  }

  /** A purge removes exactly the registrations that have run out. */
  lemma PurgeRemovesOverdue(gap: nat, s: State) returns (states: seq<State>, steps: seq<Step>, t: State)
    ensures Leads(gap, states, steps, s, t)
    ensures t == s.(expiry := map w | w in s.expiry && s.expiry[w] >= s.now :: s.expiry[w])
  {
    var n := |s.purges|;
    var a := s.(purges := s.purges + [Seen(s.expiry, s.now)]);
    var b := s.(purges := s.purges + [Dead(Overdue(s.expiry, s.now))]);
    t := s.(expiry := s.expiry - Overdue(s.expiry, s.now));
    assert a.purges[n := Dead(Overdue(s.expiry, s.now))] == b.purges && Without(b.purges, n) == s.purges;
    states, steps := [s, a, b, t], [ReadWorkers, ChooseDead(n), PurgeDead(n)];
  }

  /** A worker can settle what it holds, stopped or not, and registered or not. */
  lemma HolderCanSettle(gap: nat, s: State, w: WorkerId, r: TaskRecord, op: Op)
    requires StagedFor(s.board, w, r.info.id) && s.board[r.info.id].record == r && Runner.Settles(op, r)
    ensures exists b' :: Detector.Next(gap, s, Work(w, Event(op, [])), s.(board := b')) && !IsStagedIn(b', r.info.id)
  {
    var b := s.board;
    var b' := match op
      case RetryTask(retried) => b[r.info.id := Row(retried, Queued)]
      case DiscardTasks(ids) => b - (set id | id in ids)
      case Finish(_, outcome, now) => b[r.info.id := Row(r, Done(now, now + r.info.ttl, outcome))]
      case _ => b;
    assert Moves(b, Event(op, []), b');
    assert Detector.Next(gap, s, Work(w, Event(op, [])), s.(board := b'));
  }

  // ---- a sweep ----

  /** The row is listed for a worker that is not registered any more, or ran out. */
  predicate IsAbandoned(s: State, row: StageRow) {
    row.worker !in s.expiry || s.expiry[row.worker] < s.now
  }

  predicate IsListedFor(rows: seq<StageRow>, id: TaskId, worker: WorkerId) {
    StageRow(id, worker) in rows
  }

  /** Of the rows, those of workers outside `active` are queued again; nothing else changes. */
  ghost predicate Sweeps(b: Board, rows: seq<StageRow>, active: set<WorkerId>, b': Board) {
    && b'.Keys == b.Keys
    && forall id | id in b ::
         b'[id] == if exists w :: w !in active && IsListedFor(rows, id, w) then b[id].(phase := Queued) else b[id]
  }

  lemma SweepsOneMore(b: Board, rows: seq<StageRow>, active: set<WorkerId>, b': Board)
    requires rows != [] && IsStageList(b, rows)
    requires var mid := if rows[0].worker in active then b else Restored(b, rows[0].id, false);
             Sweeps(mid, rows[1..], active, b')
    ensures Sweeps(b, rows, active, b')
  {
    var first, rest := rows[0], rows[1..];
    var mid := if first.worker in active then b else Restored(b, first.id, false);
    forall id | id in b
      ensures (exists w :: w !in active && IsListedFor(rows, id, w))
              <==> (id == first.id && first.worker !in active) || exists w :: w !in active && IsListedFor(rest, id, w)
    {
      if w :| w !in active && IsListedFor(rows, id, w) {
        assert StageRow(id, w) == first || StageRow(id, w) in rest;
      }
      if w :| w !in active && IsListedFor(rest, id, w) {
        assert IsListedFor(rows, id, w);
      }
      if id == first.id && first.worker !in active {
        assert IsListedFor(rows, id, first.worker);
      }
    }
  }

  lemma RestIsStageList(b: Board, rows: seq<StageRow>, active: set<WorkerId>)
    requires rows != [] && IsStageList(b, rows)
    ensures var mid := if rows[0].worker in active then b else Restored(b, rows[0].id, false);
            IsStageList(mid, rows[1..])
  {
    assert forall i | 0 <= i < |rows| - 1 :: rows[1..][i] == rows[i + 1];
  }

  lemma {:induction false} SweepEnds(gap: nat, s: State, i: nat)
    returns (states: seq<State>, steps: seq<Step>, t: State)
    requires i < |s.sweeps| && s.sweeps[i].Restoring? && IsStageList(s.board, s.sweeps[i].rows)
    ensures Leads(gap, states, steps, s, t) && Sweeps(s.board, s.sweeps[i].rows, s.sweeps[i].active, t.board)
    ensures i < |t.sweeps| && t.sweeps[i].Idle?
    decreases |s.sweeps[i].rows|
  {
    var rows, active := s.sweeps[i].rows, s.sweeps[i].active;
    if rows == [] {
      t := s.(sweeps := s.sweeps[i := Idle]);
      states, steps := [s, t], [EndSweep(i)];
    } else {
      var mid := s.(sweeps := s.sweeps[i := Restoring(rows[1..], active)],
                    board := if rows[0].worker in active then s.board else Restored(s.board, rows[0].id, false));
      RestIsStageList(s.board, rows, active);
      states, steps, t := SweepEnds(gap, mid, i);
      OneMoreBefore(gap, states, steps, s, RestoreNext(i, false), mid, t);
      SweepsOneMore(s.board, rows, active, t.board);
      states, steps := [s] + states, [RestoreNext(i, false)] + steps;
    }
  }

  lemma SweepBegins(gap: nat, s: State, i: nat, rows: seq<StageRow>)
    returns (states: seq<State>, steps: seq<Step>, t: State)
    requires i < |s.sweeps| && s.sweeps[i].Idle? && IsStageList(s.board, rows)
    ensures Leads(gap, states, steps, s, t) && Sweeps(s.board, rows, Active(s.expiry, s.now), t.board)
    ensures i < |t.sweeps| && t.sweeps[i].Idle?
  {
    var prompt := s.landed.Keys - s.lapsed;
    var a := s.(sweeps := s.sweeps[i := Listed(rows, s.now, prompt)]);
    var b := a.(sweeps := a.sweeps[i := Timed(rows, s.now, prompt, s.now)]);
    var c := b.(sweeps := b.sweeps[i := Restoring(rows, Active(s.expiry, s.now))]);
    states, steps, t := SweepEnds(gap, c, i);
    OneMoreBefore(gap, states, steps, b, ListWorkers(i), c, t);
    OneMoreBefore(gap, [b] + states, [ListWorkers(i)] + steps, a, ReadClock(i), b, t);
    OneMoreBefore(gap, [a] + ([b] + states), [ReadClock(i)] + ([ListWorkers(i)] + steps), s, ListStage(i, rows), a, t);
    states, steps := [s] + ([a] + ([b] + states)), [ListStage(i, rows)] + ([ReadClock(i)] + ([ListWorkers(i)] + steps));
  }

  /** A sweep queues exactly those of its listed tasks that are held by workers not registered, or run out. */
  lemma SweepRestoresAbandoned(gap: nat, s: State, i: nat, rows: seq<StageRow>)
    returns (states: seq<State>, steps: seq<Step>, t: State)
    requires i < |s.sweeps| && s.sweeps[i].Idle? && IsStageList(s.board, rows)
    ensures Leads(gap, states, steps, s, t) && t.board.Keys == s.board.Keys && i < |t.sweeps| && t.sweeps[i].Idle?
    ensures forall row | row in rows ::
              t.board[row.id] == if IsAbandoned(s, row) then s.board[row.id].(phase := Queued) else s.board[row.id]
    ensures forall id | id in s.board && (forall row | row in rows :: row.id != id) :: t.board[id] == s.board[id]
  {
    states, steps, t := SweepBegins(gap, s, i, rows);
    var active := Active(s.expiry, s.now);
    forall row | row in rows
      ensures t.board[row.id] == if IsAbandoned(s, row) then s.board[row.id].(phase := Queued) else s.board[row.id]
    {
      assert IsListedFor(rows, row.id, row.worker);
      if w :| w !in active && IsListedFor(rows, row.id, w) {
        assert w == row.worker;
      }
    }
  }
}
