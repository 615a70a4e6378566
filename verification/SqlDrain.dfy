/**
 A group's runner over the SQL backends. Its claim is a call of `SqlRace`, one
 transaction at a time, between those of any number of other calls and operations. When
 the runner is joined, the rows begun in its worker's name are those a failed claim left.
 */
module SqlDrain {
  import opened Tasks
  import opened Lifecycle
  import opened SqlRows
  import Runner
  import SqlCalls
  import SqlHistory
  import SqlRace

  /** The runner, the shared rows with all calls on them, and which call is the runner's last. */
  datatype State = State(runner: Runner.State, db: SqlRace.System, own: nat)

  /** A step of the runner and the transaction it makes, if any; `Elsewhere` leaves the runner as it is. */
  datatype Step = Step(move: Runner.Step, query: Option<SqlRace.Step>)

  /** The runner's call is in progress and makes this transaction. */
  predicate OwnTurn(s: State, q: SqlRace.Step) {
    s.runner.pc.Assigning? && (q.List? || q.Try?) && q.call == s.own < |s.db.calls|
  }

  /** Somebody else's transaction. */
  predicate OthersTurn(c: Runner.Config, s: State, q: SqlRace.Step) {
    match q
    case Begin(_, worker, _) => worker != c.worker
    case List(i, _, _) => i < |s.db.calls| && s.db.calls[i].worker != c.worker
    case Try(i, _, _) => i < |s.db.calls| && s.db.calls[i].worker != c.worker
    case Other(_) => true
  }

  /**
   Which transaction goes with a step of the runner. A claim begins when the free permits
   are read, and each row its call takes is a `Take`; it is done when the call returns,
   and may fail at any time before.
   */
  ghost predicate Goes(c: Runner.Config, s: State, step: Step, s': State) {
    match step.move
    case CheckPermits =>
      if s.runner.permits == 0 then step.query.None? && s'.own == s.own
      else step.query == Some(SqlRace.Begin(c.group, c.worker, s.runner.permits)) && s'.own == |s.db.calls|
    case Assign(_, _) => false
    case AssignLost(_, _) => false
    case Take(claim, at) =>
      && s'.own == s.own && step.query == Some(SqlRace.Try(s.own, at, false)) && OwnTurn(s, step.query.value)
      && SqlRace.Takes(s.db, step.query.value)
      && claim == Claim(s.db.rows[SqlHistory.HeadId(s.db.calls[s.own])].record, at)
    case AssignDone =>
      step.query.None? && s'.own == s.own && s.own < |s.db.calls| && s.db.calls[s.own].phase.Returned?
    case Settle(_, op) => !op.AssignTasks? && step.query == Some(SqlRace.Other(op)) && s'.own == s.own
    case Elsewhere(event) =>
      && step.query.Some? && s'.own == s.own && event == SqlHistory.EventOf(s.db, step.query.value)
      && if OwnTurn(s, step.query.value) then !SqlRace.Takes(s.db, step.query.value)
         else OthersTurn(c, s, step.query.value)
    case _ => step.query.None? && s'.own == s.own
  }

  /** Others use the backend as it asks to be, and leave the worker's rows alone. */
  ghost predicate OthersBehave(c: Runner.Config, s: State, step: Step, s': State)
    requires SqlRows.Inv(s.db.rows)
  {
    step.move.Elsewhere? && step.query.Some? && step.query.value.Other? ==>
      && Disciplined(View(s.db.rows), step.query.value.op)
      && (SqlRows.Inv(s'.db.rows) ==> Runner.LeavesAlone(View(s.db.rows), View(s'.db.rows), c.worker))
  }

  ghost predicate Next(c: Runner.Config, s: State, step: Step, s': State) {
    && Runner.Control(c, s.runner, step.move, s'.runner) && Goes(c, s, step, s')
    && s.db.tickets.Keys == s.db.rows.Keys
    && (if step.query.Some? then SqlRace.Next(s.db, step.query.value, s'.db) else s'.db == s.db)
    && (SqlRows.Inv(s.db.rows) ==> OthersBehave(c, s, step, s'))
    && (SqlRows.Inv(s'.db.rows) ==> s'.runner.board == View(s'.db.rows))
  }

  /** While a claim is made, the runner's new claims are those of its call. */
  predicate Coupled(c: Runner.Config, s: State) {
    s.runner.pc.Assigning? ==>
      && s.own < |s.db.calls|
      && var call := s.db.calls[s.own];
         && call.worker == c.worker && call.group == c.group && call.limit == s.runner.pc.free
         && |s.runner.claims| == s.runner.pc.first + |call.claimed|
  }

  ghost predicate Inv(c: Runner.Config, s: State) {
    && Runner.Inv(c, s.runner) && SqlRace.Inv(s.db) && SqlRows.Inv(s.db.rows)
    && s.runner.board == View(s.db.rows) && Coupled(c, s)
  }

  lemma NoneLeavesAlone(b: Board, e: Event, b': Board, worker: WorkerId)
    requires e.op.AssignTasks? && Moves(b, e, b') && (e.op.worker != worker || e.claims == [])
    ensures Runner.LeavesAlone(b, b', worker)
  {
    forall id
      ensures StagedFor(b, worker, id) ==> id in b' && b'[id] == b[id]
      ensures StagedFor(b', worker, id) ==> StagedFor(b, worker, id)
    {
      if id in ClaimedIds(e.claims) {
        var i :| 0 <= i < |e.claims| && e.claims[i].Id() == id;
      }
    }
  }

  lemma SettlesDisciplined(c: Runner.Config, s: State, step: Step, s': State)
    requires Runner.Inv(c, s.runner) && Runner.Control(c, s.runner, step.move, s'.runner) && step.move.Settle?
    requires Goes(c, s, step, s')
    ensures step.query.Some? && step.query.value.Other? && Disciplined(s.runner.board, step.query.value.op)
  {
    Runner.SettleIsDisciplined(c, s.runner, step.move);
  }

  lemma QueryIsDisciplined(c: Runner.Config, s: State, step: Step, s': State)
    requires Inv(c, s) && Next(c, s, step, s') && step.query.Some? && step.query.value.Other?
    ensures Disciplined(s.runner.board, step.query.value.op)
  {
    if step.move.Settle? {
      SettlesDisciplined(c, s, step, s');
    } else {
      assert step.move.Elsewhere?;
    }
  }

  /** A transaction is a step of the lifecycle on the rows. */
  lemma QueryMoves(c: Runner.Config, s: State, step: Step, s': State)
    requires Inv(c, s) && Next(c, s, step, s') && step.query.Some?
    ensures SqlRace.Inv(s'.db) && SqlRows.Inv(s'.db.rows)
    ensures Disciplined(s.runner.board, SqlHistory.EventOf(s.db, step.query.value).op)
    ensures Moves(s.runner.board, SqlHistory.EventOf(s.db, step.query.value), s'.runner.board)
  {
    if step.query.value.Other? {
      QueryIsDisciplined(c, s, step, s');
    }
    SqlRace.StepKeepsInv(s.db, step.query.value, s'.db);
    SqlHistory.StepIsMove(s.db, step.query.value, s'.db);
  }

  lemma ElsewhereIsNext(c: Runner.Config, s: State, step: Step, s': State)
    requires Inv(c, s) && Next(c, s, step, s') && step.move.Elsewhere?
    ensures Runner.Next(c, s.runner, step.move, s'.runner)
  {
    QueryMoves(c, s, step, s');
    if !step.query.value.Other? {
      NoneLeavesAlone(s.runner.board, step.move.event, s'.runner.board, c.worker);
    }
  }

  lemma TakeIsNext(c: Runner.Config, s: State, step: Step, s': State)
    requires Inv(c, s) && Next(c, s, step, s') && step.move.Take?
    ensures Runner.Next(c, s.runner, step.move, s'.runner)
  {
    QueryMoves(c, s, step, s');
    assert SqlRace.CallOk(s.db, s.db.calls[s.own]);
  }

  lemma BeginIsNext(c: Runner.Config, s: State, step: Step, s': State)
    requires Inv(c, s) && Next(c, s, step, s') && step.move.CheckPermits? && step.query.Some?
    ensures Runner.Next(c, s.runner, step.move, s'.runner)
  {
    QueryMoves(c, s, step, s');
  }

  /** Each step of the pair is a step of the fetch loop on the rows' lifecycle table. */
  lemma StepIsNext(c: Runner.Config, s: State, step: Step, s': State)
    requires Inv(c, s) && Next(c, s, step, s')
    ensures SqlRace.Inv(s'.db) && SqlRows.Inv(s'.db.rows) && s'.runner.board == View(s'.db.rows)
    ensures Runner.Next(c, s.runner, step.move, s'.runner)
  {
    if step.query.Some? {
      QueryMoves(c, s, step, s');
      if step.move.Elsewhere? {
        ElsewhereIsNext(c, s, step, s');
      } else if step.move.Take? {
        TakeIsNext(c, s, step, s');
      } else if step.move.CheckPermits? {
        BeginIsNext(c, s, step, s');
      }
    }
  }

  lemma OwnCallKept(db: SqlRace.System, q: SqlRace.Step, db': SqlRace.System, own: nat)
    requires db.tickets.Keys == db.rows.Keys && SqlRace.Next(db, q, db') && own < |db.calls|
    ensures own < |db'.calls| && SqlCalls.RequestOf(db'.calls[own]) == SqlCalls.RequestOf(db.calls[own])
    ensures |db'.calls[own].claimed|
         == |db.calls[own].claimed| + if SqlRace.Takes(db, q) && q.call == own then 1 else 0
  {
    if SqlCalls.IsTurn(q, own) {
      SqlCalls.TurnKeepsRequest(db, q, db', own);
      if q.List? {
        SqlCalls.ListTakesNone(db, q, db');
      } else {
        SqlCalls.TryTakesOne(db, q, db');
      }
    } else {
      SqlCalls.OtherStepsKeepCall(db, q, db', own);
    }
  }

  lemma BeginCouples(c: Runner.Config, s: State, step: Step, s': State)
    requires Next(c, s, step, s') && step.move.CheckPermits?
    ensures Coupled(c, s')
  {
  }

  lemma TakeKeepsCoupled(c: Runner.Config, s: State, step: Step, s': State)
    requires Coupled(c, s) && Next(c, s, step, s') && step.move.Take?
    ensures Coupled(c, s')
  {
    TakeIsOwn(c, s, step, s');
    OwnCallKept(s.db, step.query.value, s'.db, s.own);
  }

  lemma TakeIsOwn(c: Runner.Config, s: State, step: Step, s': State)
    requires Runner.Control(c, s.runner, step.move, s'.runner) && Goes(c, s, step, s') && step.move.Take?
    ensures step.query.Some? && s'.own == s.own < |s.db.calls| && s'.runner.pc == s.runner.pc
    ensures SqlRace.Takes(s.db, step.query.value) && step.query.value.call == s.own
    ensures |s'.runner.claims| == |s.runner.claims| + 1
  {
  }

  /** Whether another's turn, or a turn of its own that takes nothing, the call has claimed as many as before. */
  lemma OthersKeepCoupled(c: Runner.Config, s: State, step: Step, s': State)
    requires Coupled(c, s) && Next(c, s, step, s') && (step.move.Elsewhere? || step.move.Settle?)
    ensures Coupled(c, s')
  {
    if s.runner.pc.Assigning? {
      OthersTakeElsewhere(c, s, step, s');
      OwnCallKept(s.db, step.query.value, s'.db, s.own);
    }
  }

  lemma OthersTakeElsewhere(c: Runner.Config, s: State, step: Step, s': State)
    requires Coupled(c, s) && Goes(c, s, step, s') && (step.move.Elsewhere? || step.move.Settle?)
    requires s.runner.pc.Assigning?
    requires Runner.Control(c, s.runner, step.move, s'.runner)
    ensures step.query.Some? && s'.own == s.own
    ensures s'.runner.pc == s.runner.pc && |s'.runner.claims| == |s.runner.claims|
    ensures !(SqlRace.Takes(s.db, step.query.value) && step.query.value.call == s.own)
  {
  }

  lemma LoopKeepsCoupled(c: Runner.Config, s: State, step: Step, s': State)
    requires Coupled(c, s) && Next(c, s, step, s') && step.query.None? && !step.move.CheckPermits?
    ensures Coupled(c, s')
  {
  }

  lemma StepKeepsCoupled(c: Runner.Config, s: State, step: Step, s': State)
    requires Inv(c, s) && Next(c, s, step, s')
    ensures Coupled(c, s')
  {
    if step.move.CheckPermits? {
      BeginCouples(c, s, step, s');
    } else if step.move.Take? {
      TakeKeepsCoupled(c, s, step, s');
    } else if step.move.Elsewhere? || step.move.Settle? {
      OthersKeepCoupled(c, s, step, s');
    } else {
      LoopKeepsCoupled(c, s, step, s');
    }
  }

  lemma StepKeepsInv(c: Runner.Config, s: State, step: Step, s': State)
    requires Inv(c, s) && Next(c, s, step, s')
    ensures Inv(c, s')
  {
    StepIsNext(c, s, step, s');
    Runner.StepKeepsInv(c, s.runner, step.move, s'.runner);
    StepKeepsCoupled(c, s, step, s');
  }

  ghost predicate Starts(c: Runner.Config, s: State) {
    && SqlRace.Inv(s.db) && SqlRows.Inv(s.db.rows)
    && Runner.Starts(c, s.runner) && s.runner.board == View(s.db.rows)
  }

  ghost predicate IsRun(c: Runner.Config, states: seq<State>, steps: seq<Step>) {
    && |states| == |steps| + 1 && Starts(c, states[0])
    && forall i | 0 <= i < |steps| :: Next(c, states[i], steps[i], states[i + 1])
  }

  ghost predicate InvAt(c: Runner.Config, states: seq<State>, k: nat) {
    k < |states| && Inv(c, states[k])
  }

  lemma {:induction false} InvFrom(c: Runner.Config, states: seq<State>, k: nat)
    requires InvAt(c, states, 0)
    requires forall j | 0 <= j < k :: InvAt(c, states, j) ==> InvAt(c, states, j + 1)
    ensures InvAt(c, states, k)
  {
    if k > 0 {
      InvFrom(c, states, k - 1);
    }
  }

  lemma RunKeepsInv(c: Runner.Config, states: seq<State>, steps: seq<Step>, k: nat)
    requires IsRun(c, states, steps) && k < |states|
    ensures Inv(c, states[k])
  {
    forall j | 0 <= j < k ensures InvAt(c, states, j) ==> InvAt(c, states, j + 1) {
      if InvAt(c, states, j) {
        StepKeepsInv(c, states[j], steps[j], states[j + 1]);
      }
    }
    InvFrom(c, states, k);
  }

  /** The runner over SQL is the fetch loop of `Runner`, on a backend that follows the lifecycle. */
  lemma RunIsRun(c: Runner.Config, states: seq<State>, steps: seq<Step>)
    returns (runners: seq<Runner.State>, moves: seq<Runner.Step>)
    requires IsRun(c, states, steps)
    ensures Runner.IsRun(c, runners, moves) && |runners| == |states|
    ensures forall i | 0 <= i < |states| :: runners[i] == states[i].runner
    ensures forall i | 0 <= i < |steps| :: moves[i] == steps[i].move
  {
    runners := seq(|states|, i requires 0 <= i < |states| => states[i].runner);
    moves := seq(|steps|, i requires 0 <= i < |steps| => steps[i].move);
    forall i | 0 <= i < |moves| ensures Runner.Next(c, runners[i], moves[i], runners[i + 1]) {
      RunKeepsInv(c, states, steps, i);
      StepIsNext(c, states[i], steps[i], states[i + 1]);
    }
  }

  /** The row is begun in the worker's name and not done. */
  predicate BegunBy(rows: Rows, worker: WorkerId, id: TaskId) {
    id in rows && rows[id].began.Some? && rows[id].done.None? && rows[id].assignee == Some(worker)
  }

  lemma BegunIsStaged(rows: Rows, worker: WorkerId, id: TaskId)
    requires SqlRows.Inv(rows)
    ensures BegunBy(rows, worker, id) <==> StagedFor(View(rows), worker, id)
  {
  }

  /**
   Joined over a SQL backend: the rows begun in the worker's name and not done are
   exactly those taken by a claim that then failed, and the loop never heard of.
   */
  lemma SqlDrains(c: Runner.Config, states: seq<State>, steps: seq<Step>, k: nat)
    requires IsRun(c, states, steps) && k < |states| && states[k].runner.pc.Joined?
    ensures forall id :: BegunBy(states[k].db.rows, c.worker, id) <==> Runner.IsStranded(states[k].runner, id)
  {
    RunKeepsInv(c, states, steps, k);
    Runner.JoinedHasSettled(c, states[k].runner);
    forall id ensures BegunBy(states[k].db.rows, c.worker, id) <==> Runner.IsStranded(states[k].runner, id) {
      BegunIsStaged(states[k].db.rows, c.worker, id);
    }
  }
}
