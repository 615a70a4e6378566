/**
 What `Detector.DrainingLapses` leads to: a worker that was stopped goes on with its
 task, its last expiry passes since nobody refreshes it, and a sweep takes the task.
 */
module Draining {
  import opened Tasks
  import opened Lifecycle
  import opened Detector
  import opened SlowSweep

  function Held(now: Timestamp, sweep: Sweep, lapsed: set<WorkerId>): State {
    At(now, Staging(FIRST, "a", 0), map["a" := 15000], [], sweep, lapsed).(stopped := {"a"})
  }

  /** Worker "a" is refreshed, claims the task and is stopped; a sweep comes by after its expiry. */
  function DrainStates(): (states: seq<State>)
    ensures |states| == 10
  {
    var rows := [StageRow("task", "a")];
    States()[..5]
    + [Held(0, Idle, {}), Held(15001, Idle, {"a"}), Held(15001, Listed(rows, 15001, {}), {"a"}),
       Held(15001, Timed(rows, 15001, {}, 15001), {"a"}), Held(15001, Restoring(rows, {}), {"a"})]
  }

  function DrainSteps(): (steps: seq<Step>)
    ensures |steps| == 9
  {
    SlowSweep.Steps()[..4]
    + [Stop("a"), Tick(15001), ListStage(0, [StageRow("task", "a")]), ReadClock(0), ListWorkers(0)]
  }

  lemma Starting(i: nat)
    requires i < 5
    ensures Detector.Next(0, DrainStates()[i], DrainSteps()[i], DrainStates()[i + 1])
  {
    if i < 4 {
      SlowSweep.StepsFollow(i);
    } else {
      assert {} + {"a"} == {"a"};
    }
  }

  lemma Expires(i: nat)
    requires i == 5
    ensures Detector.Next(0, DrainStates()[i], DrainSteps()[i], DrainStates()[i + 1])
  {
    var expiry: map<WorkerId, Timestamp> := map["a" := 15000];
    assert {} + Overdue(expiry, 15001) == {"a"};
  }

  lemma Lists(i: nat)
    requires i == 6
    ensures Detector.Next(0, DrainStates()[i], DrainSteps()[i], DrainStates()[i + 1])
  {
    var expiry: map<WorkerId, Timestamp> := map["a" := 15000];
    assert IsStageList(Staging(FIRST, "a", 0), [StageRow("task", "a")]) && expiry.Keys - {"a"} == {};
  }

  lemma Reads(i: nat)
    requires i == 7
    ensures Detector.Next(0, DrainStates()[i], DrainSteps()[i], DrainStates()[i + 1])
  {
  }

  lemma FindsNobody(i: nat)
    requires i == 8
    ensures Detector.Next(0, DrainStates()[i], DrainSteps()[i], DrainStates()[i + 1])
  {
    var expiry: map<WorkerId, Timestamp> := map["a" := 15000];
    assert Active(expiry, 15001) == {};
  }

  lemma StepsFollow(i: nat)
    requires i < 9
    ensures Detector.Next(0, DrainStates()[i], DrainSteps()[i], DrainStates()[i + 1])
  {
    match i
    case 5 => Expires(i);
    case 6 => Lists(i);
    case 7 => Reads(i);
    case 8 => FindsNobody(i);
    case _ => Starting(i);
  }

  lemma Loss()
    ensures var s := DrainStates()[9];
            Detector.Next(0, s, RestoreNext(0, false), s.(board := Queueing(FIRST), sweeps := [Restoring([], {})]))
  {
    assert Restored(Staging(FIRST, "a", 0), "task", false) == Queueing(FIRST);
    assert [StageRow("task", "a")][1..] == [];
  }

  lemma DrainRun()
    ensures Detector.IsRun(0, DrainStates(), DrainSteps())
  {
    forall i | 0 <= i < 9 ensures Detector.Next(0, DrainStates()[i], DrainSteps()[i], DrainStates()[i + 1]) {
      StepsFollow(i);
    }
  }

  /** The worker is stopped, never settled its task, and the task is queued for others again. */
  lemma DrainingLosesTask() returns (states: seq<State>, steps: seq<Step>, after: Board)
    ensures Detector.IsRun(0, states, steps) && |steps| == 9
    ensures steps[3].Work? && steps[3].worker == "a" && steps[3].event.claims != []
    ensures forall i | 3 < i < |steps| :: !steps[i].Work?
    ensures var s := states[|steps|];
            && "a" in s.stopped && Frozen(s, "a", 15000) && StagedFor(s.board, "a", "task")
            && Detector.Next(0, s, RestoreNext(0, false), s.(board := after, sweeps := [Restoring([], {})]))
            && "task" in after && after["task"].phase.Queued?
  {
    states, steps, after := DrainStates(), DrainSteps(), Queueing(FIRST);
    DrainRun();
    Loss();
  }
}
