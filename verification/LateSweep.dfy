/**
 What a sweep does to a task that was finished after it had been listed. The in-memory
 backend leaves it alone; Redis and SQL requeue it, and it is handed out a second time.
 */
module LateSweep {
  import opened Tasks
  import opened Lifecycle
  import opened Detector
  import opened SlowSweep

  predicate IsDone(b: Board, id: TaskId) {
    id in b && b[id].phase.Done?
  }

  /** The step requeues the task whatever its state: a sweep listed it for a worker it found inactive. */
  predicate Revives(s: State, step: Step, id: TaskId) {
    && step.RestoreNext? && step.blind && step.sweep < |s.sweeps|
    && s.sweeps[step.sweep].Restoring? && s.sweeps[step.sweep].rows != []
    && s.sweeps[step.sweep].rows[0].id == id && s.sweeps[step.sweep].rows[0].worker !in s.sweeps[step.sweep].active
  }

  /** A worker settles the task although it does not hold it. */
  predicate Meddles(s: State, step: Step, id: TaskId) {
    step.Work? && !Rightful(s.board, step.worker, step.event.op) && id in Targets(step.event.op)
  }

  predicate Drops(step: Step, id: TaskId) {
    step.Client? && Discards(step.event.op, id)
  }

  /** Nobody discards the task, or settles it without holding it. */
  predicate Respected(states: seq<State>, steps: seq<Step>, id: TaskId, i: nat, j: nat) {
    && j <= |steps| && j <= |states|
    && forall k | i <= k < j :: !Meddles(states[k], steps[k], id) && !Drops(steps[k], id)
  }

  lemma StepKeepsKeyed(gap: nat, s: State, step: Step, s': State)
    requires Keyed(s.board) && Detector.Next(gap, s, step, s')
    ensures Keyed(s'.board)
  {
    if step.Client? || (step.Work? && Rightful(s.board, step.worker, step.event.op)) {
      StepKeepsKeys(s.board, step.event, s'.board);
    }
  }

  lemma {:induction false} RunKeyed(gap: nat, states: seq<State>, steps: seq<Step>, k: nat)
    requires Detector.IsRun(gap, states, steps) && k < |states|
    ensures Keyed(states[k].board)
  {
    if k > 0 {
      RunKeyed(gap, states, steps, k - 1);
      StepKeepsKeyed(gap, states[k - 1], steps[k - 1], states[k]);
    }
  }

  /** A finished task stays as it is, or a blind restore requeues it. */
  lemma StepOnDone(gap: nat, s: State, step: Step, s': State, id: TaskId)
    requires Keyed(s.board) && Detector.Next(gap, s, step, s')
    requires IsDone(s.board, id) && !Meddles(s, step, id) && !Drops(step, id)
    ensures id in s'.board
    ensures s'.board[id] == if Revives(s, step, id) then s.board[id].(phase := Queued) else s.board[id]
  {
    match step
    case Work(w, event) =>
      if Rightful(s.board, w, event.op) {
        RightfulSparesDone(s.board, w, event, s'.board, id);
      }
    case Client(event) => ClientSparesDone(s.board, event, s'.board, id);
    case _ =>
  }

  lemma ClientSparesDone(b: Board, e: Event, b': Board, id: TaskId)
    requires Keyed(b) && IsClient(b, e.op) && Lifecycle.Next(b, e, b') && IsDone(b, id) && !Discards(e.op, id)
    ensures id in b' && b'[id] == b[id]
  {
    if e.op.PutTasks? {
      PutAllKeeps(b, e.op.records);
    }
  }

  lemma RightfulSparesDone(b: Board, w: WorkerId, e: Event, b': Board, id: TaskId)
    requires IsWork(w, e.op) && Rightful(b, w, e.op) && Moves(b, e, b') && IsDone(b, id)
    ensures id in b' && b'[id] == b[id]
  {
    assert id !in Targets(e.op);
    assert id !in ClaimedIds(e.claims);
  }

  lemma RunStepOnDone(gap: nat, states: seq<State>, steps: seq<Step>, id: TaskId, k: nat)
    requires Detector.IsRun(gap, states, steps) && k < |steps|
    requires IsDone(states[k].board, id) && !Meddles(states[k], steps[k], id) && !Drops(steps[k], id)
    ensures id in states[k + 1].board
    ensures states[k + 1].board[id] == if Revives(states[k], steps[k], id) then states[k].board[id].(phase := Queued)
                                       else states[k].board[id]
  {
    RunKeyed(gap, states, steps, k);
    StepOnDone(gap, states[k], steps[k], states[k + 1], id);
  }

  lemma {:induction false} DoneUntilRevived(gap: nat, states: seq<State>, steps: seq<Step>, id: TaskId, i: nat, j: nat)
    requires Detector.IsRun(gap, states, steps) && i <= j && Respected(states, steps, id, i, j)
    requires IsDone(states[i].board, id) && forall k | i <= k < j :: !Revives(states[k], steps[k], id)
    ensures IsDone(states[j].board, id) && states[j].board[id] == states[i].board[id]
    decreases j
  {
    if i < j {
      DoneUntilRevived(gap, states, steps, id, i, j - 1);
      RunStepOnDone(gap, states, steps, id, j - 1);
    }
  }

  predicate RevivedAt(states: seq<State>, steps: seq<Step>, id: TaskId, k: nat) {
    k < |states| && k < |steps| && Revives(states[k], steps[k], id)
  }

  predicate LostAt(states: seq<State>, id: TaskId, k: nat) {
    k < |states| && !IsDone(states[k].board, id)
  }

  /**
   A finished task that nobody discards or settles again stops being finished exactly
   if a restore takes it blindly. Nothing else undoes a result.
   */
  lemma FinishedUnlessRevived(gap: nat, states: seq<State>, steps: seq<Step>, id: TaskId, i: nat, j: nat)
    requires Detector.IsRun(gap, states, steps) && i <= j && Respected(states, steps, id, i, j)
    requires IsDone(states[i].board, id)
    ensures (exists k :: i <= k <= j && LostAt(states, id, k))
            <==> (exists k :: i <= k < j && RevivedAt(states, steps, id, k))
  {
    if k: nat :| i <= k < j && RevivedAt(states, steps, id, k) {
      if IsDone(states[k].board, id) {
        RunStepOnDone(gap, states, steps, id, k);
        assert LostAt(states, id, k + 1);
      } else {
        assert LostAt(states, id, k);
      }
    } else {
      forall k | i <= k <= j ensures !LostAt(states, id, k) {
        forall m | i <= m < k ensures !Revives(states[m], steps[m], id) {
          assert !RevivedAt(states, steps, id, m);
        }
        DoneUntilRevived(gap, states, steps, id, i, k);
      }
    }
  }

  /** Where calls and sweeps are timely, this does not happen: what is restored is still held. */
  lemma SafeSweepsSpareResults(gap: nat, s: State, step: Step, id: TaskId)
    requires Safe(gap, s) && IsDone(s.board, id)
    ensures !Revives(s, step, id)
  {
    if Revives(s, step, id) {
      SafeRestores(gap, s, step, s.sweeps[step.sweep].rows[0]);
    }
  }

  // ---- it does happen ----

  function Finished(r: TaskRecord): Board {
    map["task" := Row(r, Done(0, r.info.ttl, Succeeded([])))]
  }

  function LateState(now: Timestamp, b: Board, sweep: Sweep, lapsed: set<WorkerId>): State {
    At(now, b, map["a" := 15000], [], sweep, lapsed)
  }

  /** The task is listed while "a" holds it, "a" finishes it and exits, and then the sweep goes on. */
  function LateStates(): (states: seq<State>)
    ensures |states| == 12
  {
    var rows := [StageRow("task", "a")];
    States()[..6]
    + [LateState(0, Finished(FIRST), Listed(rows, 0, {"a"}), {}),
       LateState(15001, Finished(FIRST), Listed(rows, 0, {"a"}), {"a"}),
       LateState(15001, Finished(FIRST), Timed(rows, 0, {"a"}, 15001), {"a"}),
       LateState(15001, Finished(FIRST), Restoring(rows, {}), {"a"}),
       LateState(15001, Queueing(FIRST), Restoring([], {}), {"a"}),
       LateState(15001, Staging(FIRST, "b", 15001), Restoring([], {}), {"a"})]
  }

  function LateSteps(): (steps: seq<Step>)
    ensures |steps| == 11
  {
    SlowSweep.Steps()[..5]
    + [Work("a", Event(Finish(FIRST, Succeeded([]), 0), [])), Tick(15001), ReadClock(0), ListWorkers(0),
       RestoreNext(0, true), Work("b", Claiming("b", FIRST, 15001))]
  }

  lemma Starting(i: nat)
    requires i < 5
    ensures Detector.Next(0, LateStates()[i], LateSteps()[i], LateStates()[i + 1])
  {
    SlowSweep.StepsFollow(i);
  }

  lemma Finishes(i: nat)
    requires i == 5
    ensures Detector.Next(0, LateStates()[i], LateSteps()[i], LateStates()[i + 1])
  {
    assert Staging(FIRST, "a", 0)["task" := Row(FIRST, Done(0, 0, Succeeded([])))] == Finished(FIRST);
  }

  lemma Lapses(i: nat)
    requires i == 6
    ensures Detector.Next(0, LateStates()[i], LateSteps()[i], LateStates()[i + 1])
  {
    Ticks(0, 15001, Finished(FIRST), map["a" := 15000], Listed([StageRow("task", "a")], 0, {"a"}), {"a"});
  }

  lemma SweepsOn(i: nat)
    requires i == 7
    ensures Detector.Next(0, LateStates()[i], LateSteps()[i], LateStates()[i + 1])
  {
    ReadsClock(15001, Finished(FIRST), map["a" := 15000], [StageRow("task", "a")], 0, {"a"}, {"a"});
  }

  lemma FindsNobody(i: nat)
    requires i == 8
    ensures Detector.Next(0, LateStates()[i], LateSteps()[i], LateStates()[i + 1])
  {
    ReadsWorkers(15001, Finished(FIRST), map["a" := 15000], [StageRow("task", "a")], 0, {"a"}, {"a"}, {});
  }

  lemma Requeuing(i: nat)
    requires i == 9
    ensures Detector.Next(0, LateStates()[i], LateSteps()[i], LateStates()[i + 1])
  {
    PutsBack(15001, Finished(FIRST), map["a" := 15000], "a", {}, {"a"}, true);
    assert Restored(Finished(FIRST), "task", true) == Queueing(FIRST);
  }

  lemma BClaims(i: nat)
    requires i == 10
    ensures Detector.Next(0, LateStates()[i], LateSteps()[i], LateStates()[i + 1])
  {
    SlowSweep.Takes(15001, FIRST, map["a" := 15000], Restoring([], {}), {"a"}, "b");
  }

  lemma StepsFollow(i: nat)
    requires i < 11
    ensures Detector.Next(0, LateStates()[i], LateSteps()[i], LateStates()[i + 1])
  {
    match i
    case 5 => Finishes(i);
    case 6 => Lapses(i);
    case 7 => SweepsOn(i);
    case 8 => FindsNobody(i);
    case 9 => Requeuing(i);
    case 10 => BClaims(i);
    case _ => Starting(i);
  }

  lemma CallersHold(i: nat)
    requires i < 11 && LateSteps()[i].Work?
    ensures Rightful(LateStates()[i].board, LateSteps()[i].worker, LateSteps()[i].event.op)
  {
    assert i == 3 || i == 5 || i == 10;
  }

  lemma LateRun()
    ensures Detector.IsRun(0, LateStates(), LateSteps())
  {
    forall i | 0 <= i < 11 ensures Detector.Next(0, LateStates()[i], LateSteps()[i], LateStates()[i + 1]) {
      StepsFollow(i);
    }
  }

  lemma ClaimedTwice()
    ensures LateSteps()[3].Work? && "task" in ClaimedIds(LateSteps()[3].event.claims)
    ensures IsDone(LateStates()[6].board, "task") && Revives(LateStates()[9], LateSteps()[9], "task")
    ensures LateSteps()[10].Work? && "task" in ClaimedIds(LateSteps()[10].event.claims)
  {
    assert [Claim(FIRST, 0)][0].Id() == "task" && [Claim(FIRST, 15001)][0].Id() == "task";
  }

  lemma NeverPutBack()
    ensures forall i | 0 <= i < 11 ::
              !Drops(LateSteps()[i], "task") && !(LateSteps()[i].Work? && LateSteps()[i].event.op.RetryTask?)
  {
  }

  /** Every call settles what its worker holds, and yet the finished task is claimed a second time. */
  lemma FinishedIsClaimedAgain() returns (states: seq<State>, steps: seq<Step>)
    ensures Detector.IsRun(0, states, steps) && |steps| == 11
    ensures forall i | 0 <= i < |steps| && steps[i].Work? ::
              Rightful(states[i].board, steps[i].worker, steps[i].event.op)
    ensures steps[3].Work? && "task" in ClaimedIds(steps[3].event.claims)
    ensures IsDone(states[6].board, "task") && Revives(states[9], steps[9], "task")
    ensures steps[10].Work? && "task" in ClaimedIds(steps[10].event.claims)
    ensures forall i | 0 <= i < |steps| ::
              !Drops(steps[i], "task") && !(steps[i].Work? && steps[i].event.op.RetryTask?)
  {
    states, steps := LateStates(), LateSteps();
    LateRun();
    forall i | 0 <= i < |steps| && steps[i].Work?
      ensures Rightful(states[i].board, steps[i].worker, steps[i].event.op)
    {
      CallersHold(i);
    }
    ClaimedTwice();
    NeverPutBack();
  }
}
