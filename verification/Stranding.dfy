/**
 Why a joined runner may leave a task staged: its claim took the task, the call then
 failed, and the loop, which never saw the record, has nothing to wait for.
 */
module Stranding {
  import opened Tasks
  import opened Lifecycle
  import opened Runner

  function Queueing(r: TaskRecord): Board {
    map[r.info.id := Row(r, Queued)]
  }

  function Staging(r: TaskRecord, c: Config, at: Timestamp): Board {
    map[r.info.id := Row(r, Staged(c.worker, at))]
  }

  /** The loop is stopped after a claim of one transaction that failed once the row was taken. */
  function StateAt(c: Config, r: TaskRecord, at: Timestamp, i: nat): State {
    var n, stranded := c.concurrency, [Claimed(r, Status.Stranded)];
    if i == 0 then State(n, CheckingStop, [], false, false, Queueing(r))
    else if i == 1 then State(n, CheckingPause, [], false, false, Queueing(r))
    else if i == 2 then State(n, CheckingPermits, [], false, false, Queueing(r))
    else if i == 3 then State(n, Assigning(n, 0), [], false, false, Queueing(r))
    else if i == 4 then State(n, Assigning(n, 0), [Claimed(r, Waiting)], false, false, Staging(r, c, at))
    else if i == 5 then State(n, Spawning(1), stranded, false, false, Staging(r, c, at))
    else if i == 6 then State(n, Backoff, stranded, false, false, Staging(r, c, at))
    else if i == 7 then State(n, Backoff, stranded, true, false, Staging(r, c, at))
    else if i == 8 then State(n, Draining, stranded, true, false, Staging(r, c, at))
    else State(n, Joined, stranded, true, false, Staging(r, c, at))
  }

  function StepAt(r: TaskRecord, at: Timestamp, i: nat): Step {
    if i == 0 then CheckStop
    else if i == 1 then CheckPause
    else if i == 2 then CheckPermits
    else if i == 3 then Take(Claim(r, at), at)
    else if i == 4 then AssignFailed
    else if i == 5 then EndBatch
    else if i == 6 then RequestStop
    else if i == 7 then WakeFromBackoff
    else Join
  }

  lemma TakeStep(c: Config, r: TaskRecord, at: Timestamp, i: nat)
    requires c.concurrency > 0 && i == 3
    ensures Runner.Next(c, StateAt(c, r, at, i), StepAt(r, at, i), StateAt(c, r, at, i + 1))
  {
    var claims := [Claim(r, at)];
    assert claims[0].Id() == r.info.id && ClaimedIds(claims) == {r.info.id};
    assert [] + Added(claims, Waiting) == [Claimed(r, Waiting)];
    assert Moves(Queueing(r), Event(AssignTasks(c.group, c.worker, 1, at), claims), Staging(r, c, at));
  }

  lemma FailStep(c: Config, r: TaskRecord, at: Timestamp, i: nat)
    requires i == 4
    ensures Runner.Next(c, StateAt(c, r, at, i), StepAt(r, at, i), StateAt(c, r, at, i + 1))
  {
    assert StrandedFrom([Claimed(r, Waiting)], 0) == [Claimed(r, Status.Stranded)];
  }

  lemma OtherStep(c: Config, r: TaskRecord, at: Timestamp, i: nat)
    requires c.concurrency > 0 && i < 9 && i != 3 && i != 4
    ensures Runner.Next(c, StateAt(c, r, at, i), StepAt(r, at, i), StateAt(c, r, at, i + 1))
  {
  }

  /** Joined, with a task still staged in its worker's name. */
  lemma FailedClaimStrands(c: Config, r: TaskRecord, at: Timestamp) returns (states: seq<State>, steps: seq<Step>)
    requires c.concurrency > 0
    ensures Runner.IsRun(c, states, steps) && |steps| == 9 && states[9].pc.Joined?
    ensures StagedFor(states[9].board, c.worker, r.info.id)
  {
    states := seq(10, i requires 0 <= i => StateAt(c, r, at, i));
    steps := seq(9, i requires 0 <= i => StepAt(r, at, i));
    forall i | 0 <= i < |steps| ensures Runner.Next(c, states[i], steps[i], states[i + 1]) {
      if i == 3 {
        TakeStep(c, r, at, i);
      } else if i == 4 {
        FailStep(c, r, at, i);
      } else {
        OtherStep(c, r, at, i);
      }
    }
  }
}
