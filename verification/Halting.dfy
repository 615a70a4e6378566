/**
 What pausing and stopping a group's runner do. A pause or a stop lets at most the claim
 that is already under way through; a stopped loop comes to its end in a bounded number
 of its own steps; and a loop that is neither goes on claiming for every free permit.
 */
module Halting {
  import opened Tasks
  import Lifecycle
  import opened Runner

  /** The steps of the fetch loop itself; the others are handlers, requests and other users. */
  predicate IsOwn(step: Step) {
    !step.Settle? && !step.Release? && !step.RequestStop? && !step.SetPaused? && !step.Elsewhere?
  }

  /** The loop has passed the check for a pause and has a claim before it or under way. */
  predicate PastPause(pc: Pc) {
    pc.CheckingPermits? || pc.Assigning?
  }

  /** The same for the check for a stop. */
  predicate PastStop(pc: Pc) {
    pc.CheckingPause? || PastPause(pc)
  }

  ghost predicate PausedBetween(states: seq<State>, i: nat, j: nat) {
    i <= j <= |states| && forall k | i <= k < j :: states[k].paused
  }

  lemma OthersLeaveLoop(c: Config, s: State, step: Step, s': State)
    requires Next(c, s, step, s') && !IsOwn(step)
    ensures s'.pc == s.pc && |s'.claims| == |s.claims|
  {
  }

  // ---- the two flags ----

  lemma FlagsAfter(c: Config, s: State, step: Step, s': State)
    requires Next(c, s, step, s')
    ensures s'.paused == if step.SetPaused? then step.on else s.paused
    ensures s'.stop == (s.stop || step.RequestStop?)
  {
  }

  /** The last request before the j-th step was to pause. */
  predicate AskedToPause(steps: seq<Step>, j: nat)
    requires j <= |steps|
  {
    exists i :: 0 <= i < j && steps[i] == SetPaused(true) && forall k | i < k < j :: !steps[k].SetPaused?
  }

  predicate AskedToStop(steps: seq<Step>, j: nat)
    requires j <= |steps|
  {
    exists i :: 0 <= i < j && steps[i].RequestStop?
  }

  lemma AskedLater(steps: seq<Step>, j: nat)
    requires j < |steps|
    ensures AskedToPause(steps, j + 1) <==> if steps[j].SetPaused? then steps[j].on else AskedToPause(steps, j)
    ensures AskedToStop(steps, j + 1) <==> AskedToStop(steps, j) || steps[j].RequestStop?
  {
    if AskedToPause(steps, j) && !steps[j].SetPaused? {
      var i :| 0 <= i < j && steps[i] == SetPaused(true) && forall k | i < k < j :: !steps[k].SetPaused?;
      assert forall k | i < k < j + 1 :: !steps[k].SetPaused?;
    }
    if AskedToPause(steps, j + 1) {
      var i :| 0 <= i < j + 1 && steps[i] == SetPaused(true) && forall k | i < k < j + 1 :: !steps[k].SetPaused?;
      assert i < j ==> AskedToPause(steps, j);
    }
    if i :| 0 <= i < j + 1 && steps[i].RequestStop? {
      assert i < j ==> AskedToStop(steps, j);
    }
  }

  predicate FlagsAt(states: seq<State>, steps: seq<Step>, j: nat) {
    && j <= |steps| < |states|
    && (states[j].paused <==> AskedToPause(steps, j)) && (states[j].stop <==> AskedToStop(steps, j))
  }

  lemma RunAsks(c: Config, states: seq<State>, steps: seq<Step>, j: nat)
    requires IsRun(c, states, steps) && j < |steps|
    ensures FlagsAt(states, steps, j) ==> FlagsAt(states, steps, j + 1)
  {
    FlagsAfter(c, states[j], steps[j], states[j + 1]);
    AskedLater(steps, j);
  }

  lemma {:induction false} FlagsFrom(states: seq<State>, steps: seq<Step>, j: nat)
    requires FlagsAt(states, steps, 0)
    requires forall k | 0 <= k < j :: FlagsAt(states, steps, k) ==> FlagsAt(states, steps, k + 1)
    ensures FlagsAt(states, steps, j)
  {
    if j > 0 {
      FlagsFrom(states, steps, j - 1);
    }
  }

  /** A runner is paused while the last request was to pause, and stopped once it was asked to stop. */
  lemma FlagsAreRequests(c: Config, states: seq<State>, steps: seq<Step>, j: nat)
    requires IsRun(c, states, steps) && j <= |steps|
    ensures states[j].paused <==> AskedToPause(steps, j)
    ensures states[j].stop <==> AskedToStop(steps, j)
  {
    forall k | 0 <= k < j ensures FlagsAt(states, steps, k) ==> FlagsAt(states, steps, k + 1) {
      RunAsks(c, states, steps, k);
    }
    FlagsFrom(states, steps, j);
  }

  // ---- pause ----

  lemma PausedStep(c: Config, s: State, step: Step, s': State)
    requires Next(c, s, step, s') && s.paused && !PastPause(s.pc)
    ensures !PastPause(s'.pc) && !IsClaiming(step) && |s'.claims| == |s.claims|
  {
    if !IsOwn(step) {
      OthersLeaveLoop(c, s, step, s');
    }
  }

  lemma RunPausedStep(c: Config, states: seq<State>, steps: seq<Step>, k: nat)
    requires IsRun(c, states, steps) && k < |steps| && states[k].paused && !PastPause(states[k].pc)
    ensures !PastPause(states[k + 1].pc) && !IsClaiming(steps[k]) && |states[k + 1].claims| == |states[k].claims|
  {
    PausedStep(c, states[k], steps[k], states[k + 1]);
  }

  /** No claim has been made since state `i`, and none is coming, by one of the two checks. */
  predicate NoClaimSince(states: seq<State>, steps: seq<Step>, i: nat, j: nat, stopping: bool) {
    && i <= j <= |steps| && j < |states| && |states[j].claims| == |states[i].claims|
    && (forall k | i <= k < j :: !IsClaiming(steps[k]))
    && !if stopping then PastStop(states[j].pc) else PastPause(states[j].pc)
  }

  lemma {:induction false} NoClaimFrom(states: seq<State>, steps: seq<Step>, i: nat, j: nat, stopping: bool)
    requires i <= j && NoClaimSince(states, steps, i, i, stopping)
    requires forall k | i <= k < j ::
               NoClaimSince(states, steps, i, k, stopping) ==> NoClaimSince(states, steps, i, k + 1, stopping)
    ensures NoClaimSince(states, steps, i, j, stopping)
    decreases j
  {
    if i < j {
      NoClaimFrom(states, steps, i, j - 1, stopping);
    }
  }

  lemma OneStepMore(states: seq<State>, steps: seq<Step>, i: nat, k: nat, stopping: bool)
    requires NoClaimSince(states, steps, i, k, stopping) && k < |steps| && k + 1 < |states|
    requires !IsClaiming(steps[k]) && |states[k + 1].claims| == |states[k].claims|
    requires !if stopping then PastStop(states[k + 1].pc) else PastPause(states[k + 1].pc)
    ensures NoClaimSince(states, steps, i, k + 1, stopping)
  {
  }

  lemma PausedStaysQuiet(c: Config, states: seq<State>, steps: seq<Step>, i: nat, k: nat)
    requires IsRun(c, states, steps) && k < |steps| && states[k].paused
    ensures NoClaimSince(states, steps, i, k, false) ==> NoClaimSince(states, steps, i, k + 1, false)
  {
    if NoClaimSince(states, steps, i, k, false) {
      RunPausedStep(c, states, steps, k);
      OneStepMore(states, steps, i, k, false);
    }
  }

  lemma StoppedStaysQuiet(c: Config, states: seq<State>, steps: seq<Step>, i: nat, k: nat)
    requires IsRun(c, states, steps) && k < |steps| && states[k].stop
    ensures NoClaimSince(states, steps, i, k, true) ==> NoClaimSince(states, steps, i, k + 1, true)
  {
    if NoClaimSince(states, steps, i, k, true) {
      RunStoppedStep(c, states, steps, k);
      OneStepMore(states, steps, i, k, true);
    }
  }

  /** While it is paused, a runner that has not passed the check makes no claim. */
  lemma PausedClaimsNothing(c: Config, states: seq<State>, steps: seq<Step>, i: nat, j: nat)
    requires IsRun(c, states, steps) && i <= j <= |steps| && PausedBetween(states, i, j)
    requires !PastPause(states[i].pc)
    ensures !PastPause(states[j].pc) && |states[j].claims| == |states[i].claims|
    ensures forall k | i <= k < j :: !IsClaiming(steps[k])
  {
    forall k | i <= k < j
      ensures NoClaimSince(states, steps, i, k, false) ==> NoClaimSince(states, steps, i, k + 1, false)
    {
      PausedStaysQuiet(c, states, steps, i, k);
    }
    NoClaimFrom(states, steps, i, j, false);
  }

  lemma ClaimingStep(c: Config, s: State, step: Step, s': State)
    requires Next(c, s, step, s') && s.pc.Assigning?
    ensures s'.pc == s.pc || s'.pc.Spawning?
    ensures IsClaiming(step) && !step.Take? ==> s'.pc.Spawning?
  {
    if !IsOwn(step) {
      OthersLeaveLoop(c, s, step, s');
    }
  }

  /** Two claiming steps of one call: transactions, with the loop claiming all the while. */
  predicate SameCall(states: seq<State>, steps: seq<Step>, a: nat, b: nat)
    requires a < b < |steps| && |steps| < |states|
  {
    states[a].pc.Assigning? && steps[a].Take? && forall k | a <= k <= b :: states[k].pc == states[a].pc
  }

  lemma {:induction false} CallGoesOnWhilePaused(c: Config, states: seq<State>, steps: seq<Step>, a: nat, k: nat)
    requires IsRun(c, states, steps) && a <= k <= |steps| && PausedBetween(states, a, k)
    requires states[a].pc.Assigning?
    ensures states[k].pc == states[a].pc || !PastPause(states[k].pc)
    decreases k
  {
    if a < k {
      CallGoesOnWhilePaused(c, states, steps, a, k - 1);
      if states[k - 1].pc == states[a].pc {
        ClaimingStep(c, states[k - 1], steps[k - 1], states[k]);
      } else {
        PausedStep(c, states[k - 1], steps[k - 1], states[k]);
      }
    }
  }

  lemma ClaimingIsAssigning(c: Config, s: State, step: Step, s': State)
    requires Next(c, s, step, s') && IsClaiming(step)
    ensures s.pc.Assigning?
  {
  }

  /** Wherever it was caught by the pause, it makes no more than one claim. */
  lemma PausedClaimsOnce(c: Config, states: seq<State>, steps: seq<Step>, i: nat, j: nat, a: nat, b: nat)
    requires IsRun(c, states, steps) && i <= a < b < j <= |steps| && PausedBetween(states, i, j)
    requires IsClaiming(steps[a]) && IsClaiming(steps[b])
    ensures SameCall(states, steps, a, b)
  {
    ClaimingIsAssigning(c, states[a], steps[a], states[a + 1]);
    ClaimingIsAssigning(c, states[b], steps[b], states[b + 1]);
    ClaimingStep(c, states[a], steps[a], states[a + 1]);
    forall k | a <= k <= b ensures PastPause(states[k].pc) {
      if !PastPause(states[k].pc) {
        PausedClaimsNothing(c, states, steps, k, b + 1);
      }
    }
    forall k | a <= k <= b ensures states[k].pc == states[a].pc {
      CallGoesOnWhilePaused(c, states, steps, a, k);
    }
    assert PastPause(states[a + 1].pc);
  }

  // ---- stop ----

  lemma {:induction false} StopStays(c: Config, states: seq<State>, steps: seq<Step>, i: nat, j: nat)
    requires IsRun(c, states, steps) && i <= j <= |steps| && states[i].stop
    ensures states[j].stop
    decreases j
  {
    if i < j {
      StopStays(c, states, steps, i, j - 1);
      StopStep(c, states[j - 1], steps[j - 1], states[j]);
    }
  }

  lemma StopStep(c: Config, s: State, step: Step, s': State)
    requires Next(c, s, step, s') && s.stop
    ensures s'.stop
  {
  }

  lemma StoppedStep(c: Config, s: State, step: Step, s': State)
    requires Next(c, s, step, s') && s.stop && !PastStop(s.pc)
    ensures !PastStop(s'.pc) && !IsClaiming(step) && |s'.claims| == |s.claims|
  {
    if !IsOwn(step) {
      OthersLeaveLoop(c, s, step, s');
    }
  }

  lemma RunStoppedStep(c: Config, states: seq<State>, steps: seq<Step>, k: nat)
    requires IsRun(c, states, steps) && k < |steps| && states[k].stop && !PastStop(states[k].pc)
    ensures !PastStop(states[k + 1].pc) && !IsClaiming(steps[k]) && |states[k + 1].claims| == |states[k].claims|
  {
    StoppedStep(c, states[k], steps[k], states[k + 1]);
  }

  /** Once it is stopped, a runner that has not passed the check never claims again. */
  lemma StoppedClaimsNothing(c: Config, states: seq<State>, steps: seq<Step>, i: nat, j: nat)
    requires IsRun(c, states, steps) && i <= j <= |steps| && states[i].stop && !PastStop(states[i].pc)
    ensures !PastStop(states[j].pc) && |states[j].claims| == |states[i].claims|
    ensures forall k | i <= k < j :: !IsClaiming(steps[k])
  {
    forall k | i <= k < j
      ensures NoClaimSince(states, steps, i, k, true) ==> NoClaimSince(states, steps, i, k + 1, true)
    {
      StopStays(c, states, steps, i, k);
      StoppedStaysQuiet(c, states, steps, i, k);
    }
    NoClaimFrom(states, steps, i, j, true);
  }

  lemma {:induction false} CallGoesOnWhileStopped(c: Config, states: seq<State>, steps: seq<Step>, a: nat, k: nat)
    requires IsRun(c, states, steps) && a <= k <= |steps| && states[a].stop && states[a].pc.Assigning?
    ensures states[k].pc == states[a].pc || !PastStop(states[k].pc)
    decreases k
  {
    if a < k {
      CallGoesOnWhileStopped(c, states, steps, a, k - 1);
      StopStays(c, states, steps, a, k - 1);
      if states[k - 1].pc == states[a].pc {
        ClaimingStep(c, states[k - 1], steps[k - 1], states[k]);
      } else {
        StoppedStep(c, states[k - 1], steps[k - 1], states[k]);
      }
    }
  }

  /** And wherever it was caught by the stop, it makes no more than one claim. */
  lemma StoppedClaimsOnce(c: Config, states: seq<State>, steps: seq<Step>, i: nat, a: nat, b: nat)
    requires IsRun(c, states, steps) && i <= a < b < |steps| && states[i].stop
    requires IsClaiming(steps[a]) && IsClaiming(steps[b])
    ensures SameCall(states, steps, a, b)
  {
    StopStays(c, states, steps, i, a);
    ClaimingIsAssigning(c, states[a], steps[a], states[a + 1]);
    ClaimingIsAssigning(c, states[b], steps[b], states[b + 1]);
    ClaimingStep(c, states[a], steps[a], states[a + 1]);
    forall k | a <= k <= b ensures PastStop(states[k].pc) {
      if !PastStop(states[k].pc) {
        StopStays(c, states, steps, a, k);
        StoppedClaimsNothing(c, states, steps, k, b + 1);
      }
    }
    forall k | a <= k <= b ensures states[k].pc == states[a].pc {
      CallGoesOnWhileStopped(c, states, steps, a, k);
    }
    assert PastStop(states[a + 1].pc);
  }

  // ---- the end of a stopped loop ----

  /** How many of its own steps a stopped loop makes at most before it drains. */
  function StepsLeft(c: Config, s: State): nat
    requires PermitsInv(c, s)
  {
    match s.pc
    case CheckingStop => 1
    case CheckingPause => 2 * c.concurrency + 5
    case CheckingPermits => 2 * c.concurrency + 4
    case PauseWait => 1
    case Saturated => 3
    case SaturatedHolding => 2
    case Assigning(free, first) => 2 * free + 3 - (|s.claims| - first)
    case Spawning(next) => |s.claims| - next + 2
    case Backoff => 1
    case Draining => 0
    case Joined => 0
  }

  function CountOwn(steps: seq<Step>, i: nat, j: nat): nat
    requires i <= j <= |steps|
  {
    if i == j then 0 else CountOwn(steps, i, j - 1) + if IsOwn(steps[j - 1]) && !steps[j - 1].Join? then 1 else 0
  }

  lemma OwnStepCounts(c: Config, s: State, step: Step, s': State)
    requires PermitsInv(c, s) && PermitsInv(c, s') && Next(c, s, step, s') && s.stop
    ensures StepsLeft(c, s') + (if IsOwn(step) && !step.Join? then 1 else 0) <= StepsLeft(c, s)
  {
    if !IsOwn(step) {
      OthersLeaveLoop(c, s, step, s');
    } else if IsClaiming(step) || step.AssignDone? || step.AssignFailed? {
      ClaimCounts(c, s, step, s');
    } else {
      CheckCounts(c, s, step, s');
    }
  }

  lemma ClaimCounts(c: Config, s: State, step: Step, s': State)
    requires PermitsInv(c, s) && PermitsInv(c, s') && Next(c, s, step, s')
    requires IsClaiming(step) || step.AssignDone? || step.AssignFailed?
    ensures StepsLeft(c, s') + 1 <= StepsLeft(c, s)
  {
    if step.Take? {
      TakeMoves(c, s, step, s');
    } else {
      ClaimEnds(c, s, step, s');
    }
  }

  lemma TakeMoves(c: Config, s: State, step: Step, s': State)
    requires PermitsInv(c, s) && PermitsInv(c, s') && Next(c, s, step, s') && step.Take?
    ensures s.pc.Assigning? && s'.pc == s.pc && |s'.claims| == |s.claims| + 1 <= s.pc.first + s.pc.free
  {
  }

  lemma ClaimEnds(c: Config, s: State, step: Step, s': State)
    requires PermitsInv(c, s) && PermitsInv(c, s') && Next(c, s, step, s')
    requires step.Assign? || step.AssignLost? || step.AssignDone? || step.AssignFailed?
    ensures s.pc.Assigning? && s.pc.first <= |s.claims| <= |s'.claims| <= s.pc.first + s.pc.free
    ensures s'.pc.Spawning? && s'.pc.next >= s.pc.first
  {
  }

  lemma CheckCounts(c: Config, s: State, step: Step, s': State)
    requires PermitsInv(c, s) && PermitsInv(c, s') && Next(c, s, step, s') && s.stop && IsOwn(step)
    requires !IsClaiming(step) && !step.AssignDone? && !step.AssignFailed?
    ensures StepsLeft(c, s') + (if step.Join? then 0 else 1) <= StepsLeft(c, s)
  {
  }

  ghost predicate CountedTo(c: Config, states: seq<State>, steps: seq<Step>, i: nat, j: nat) {
    && i <= j <= |steps| && j < |states| && PermitsInv(c, states[i]) && PermitsInv(c, states[j])
    && CountOwn(steps, i, j) + StepsLeft(c, states[j]) <= StepsLeft(c, states[i])
  }

  lemma RunStepCounts(c: Config, states: seq<State>, steps: seq<Step>, i: nat, j: nat)
    requires IsRun(c, states, steps) && i <= j < |steps| && states[i].stop && CountedTo(c, states, steps, i, j)
    ensures CountedTo(c, states, steps, i, j + 1)
  {
    StopStays(c, states, steps, i, j);
    RunStepLeaves(c, states, steps, j);
  }

  lemma RunStepLeaves(c: Config, states: seq<State>, steps: seq<Step>, j: nat)
    requires IsRun(c, states, steps) && j < |steps| && states[j].stop
    ensures PermitsInv(c, states[j]) && PermitsInv(c, states[j + 1])
    ensures StepsLeft(c, states[j + 1]) + (if IsOwn(steps[j]) && !steps[j].Join? then 1 else 0)
         <= StepsLeft(c, states[j])
  {
    RunKeepsInv(c, states, steps, j);
    RunKeepsInv(c, states, steps, j + 1);
    OwnStepCounts(c, states[j], steps[j], states[j + 1]);
  }

  lemma {:induction false} CountedFrom(c: Config, states: seq<State>, steps: seq<Step>, i: nat, j: nat)
    requires i <= j && CountedTo(c, states, steps, i, i)
    requires forall k | i <= k < j :: CountedTo(c, states, steps, i, k) ==> CountedTo(c, states, steps, i, k + 1)
    ensures CountedTo(c, states, steps, i, j)
    decreases j
  {
    if i < j {
      CountedFrom(c, states, steps, i, j - 1);
    }
  }

  lemma StepsLeftIs(c: Config, s: State)
    requires PermitsInv(c, s)
    ensures StepsLeft(c, s) <= 2 * c.concurrency + 5
    ensures StepsLeft(c, s) == 0 <==> s.pc.Draining? || s.pc.Joined?
  {
  }

  /** A stopped loop makes at most as many steps of its own as are left, and with none left it drains. */
  lemma StoppedLoopEnds(c: Config, states: seq<State>, steps: seq<Step>, i: nat, j: nat)
    requires IsRun(c, states, steps) && i <= j <= |steps| && states[i].stop
    ensures PermitsInv(c, states[i]) && PermitsInv(c, states[j])
    ensures CountOwn(steps, i, j) + StepsLeft(c, states[j]) <= StepsLeft(c, states[i]) <= 2 * c.concurrency + 5
    ensures StepsLeft(c, states[j]) == 0 <==> states[j].pc.Draining? || states[j].pc.Joined?
  {
    RunKeepsInv(c, states, steps, i);
    forall k | i <= k < j ensures CountedTo(c, states, steps, i, k) ==> CountedTo(c, states, steps, i, k + 1) {
      if CountedTo(c, states, steps, i, k) {
        RunStepCounts(c, states, steps, i, k);
      }
    }
    CountedFrom(c, states, steps, i, j);
    StepsLeftIs(c, states[i]);
    StepsLeftIs(c, states[j]);
  }

  // ---- the loop goes on ----

  /** What the loop can do next on its own, needing nobody. */
  function OwnNext(s: State): (Step, State)
    requires !s.pc.Draining? && !s.pc.Joined?
    requires s.pc.Spawning? && s.pc.next < |s.claims| ==> s.permits > 0
  {
    match s.pc
    case CheckingStop => (CheckStop, s.(pc := if s.stop then Draining else CheckingPause))
    case CheckingPause => (CheckPause, s.(pc := if s.paused then PauseWait else CheckingPermits))
    case CheckingPermits =>
      (CheckPermits, s.(pc := if s.permits == 0 then Saturated else Assigning(s.permits, |s.claims|)))
    case PauseWait => (WakeFromPause, s.(pc := if s.stop then Draining else CheckingStop))
    case Saturated => (SaturationTimeout, s.(pc := CheckingStop))
    case SaturatedHolding => (DropPermit, s.(permits := s.permits + 1, pc := CheckingStop))
    case Assigning(_, first) =>
      (AssignFailed, s.(pc := Spawning(|s.claims|), claims := StrandedFrom(s.claims, first)))
    case Spawning(next) =>
      if next < |s.claims|
      then (Spawn, s.(permits := s.permits - 1, pc := Spawning(next + 1),
                      claims := s.claims[next := s.claims[next].(status := Running)]))
      else (EndBatch, s.(pc := Backoff))
    case Backoff => (WakeFromBackoff, s.(pc := if s.stop then Draining else CheckingStop))
  }

  /** In every reachable state the loop can go on, unless it drains; and then it is joined once no handler is busy. */
  lemma LoopIsNeverStuck(c: Config, states: seq<State>, steps: seq<Step>, k: nat)
    requires IsRun(c, states, steps) && k < |states|
    ensures !states[k].pc.Draining? && !states[k].pc.Joined? ==>
              exists step, s' :: IsOwn(step) && Next(c, states[k], step, s')
    ensures states[k].pc.Draining? && CountBusy(states[k].claims) == 0 ==> exists s' :: Next(c, states[k], Join, s')
  {
    RunKeepsInv(c, states, steps, k);
    var s := states[k];
    if s.pc.Draining? {
      if CountBusy(s.claims) == 0 {
        assert Next(c, s, Join, s.(pc := Joined));
      }
    } else if !s.pc.Joined? {
      if s.pc.Spawning? && s.pc.next == |s.claims| {
        assert Next(c, s, EndBatch, s.(pc := Backoff));
      } else {
        OwnNextIsNext(c, s);
      }
    }
  }

  lemma OwnNextIsNext(c: Config, s: State)
    requires PermitsInv(c, s) && !s.pc.Draining? && !s.pc.Joined?
    ensures var (step, s') := OwnNext(s); IsOwn(step) && Next(c, s, step, s')
  {
  }

  ghost predicate NoOwnBetween(steps: seq<Step>, a: nat, b: nat) {
    b <= |steps| && forall k | a < k < b :: !IsOwn(steps[k])
  }

  lemma {:induction false} LoopWaits(c: Config, states: seq<State>, steps: seq<Step>, a: nat, b: nat)
    requires IsRun(c, states, steps) && a < b <= |steps| && NoOwnBetween(steps, a, b)
    ensures states[b].pc == states[a + 1].pc
    decreases b
  {
    if a + 1 < b {
      LoopWaits(c, states, steps, a, b - 1);
      OthersLeaveLoop(c, states[b - 1], steps[b - 1], states[b]);
    }
  }

  /**
   A runner that is neither stopped nor paused when it looks claims for every permit free
   at its third step from the top, or waits if none is.
   */
  lemma FreeRunnerClaims(c: Config, states: seq<State>, steps: seq<Step>, i: nat, j: nat, k: nat)
    requires IsRun(c, states, steps) && i < j < k < |steps|
    requires IsOwn(steps[i]) && IsOwn(steps[j]) && IsOwn(steps[k])
    requires NoOwnBetween(steps, i, j) && NoOwnBetween(steps, j, k)
    requires states[i].pc.CheckingStop? && !states[i].stop && !states[j].paused
    ensures states[k + 1].pc == if states[k].permits == 0 then Saturated
                                else Assigning(states[k].permits, |states[k].claims|)
  {
    assert Next(c, states[i], steps[i], states[i + 1]);
    LoopWaits(c, states, steps, i, j);
    assert Next(c, states[j], steps[j], states[j + 1]);
    LoopWaits(c, states, steps, j, k);
    assert Next(c, states[k], steps[k], states[k + 1]);
  }

  /** And it comes back to the top: after a batch, or a wait for a permit or the end of a pause. */
  lemma UnstoppedComesBack(c: Config, states: seq<State>, steps: seq<Step>, k: nat)
    requires IsRun(c, states, steps) && k < |steps| && IsOwn(steps[k]) && !states[k].stop
    requires states[k].pc.Backoff? || states[k].pc.PauseWait? || states[k].pc.SaturatedHolding?
    ensures states[k + 1].pc.CheckingStop?
  {
    assert Next(c, states[k], steps[k], states[k + 1]);
  }

  /** A permit that comes free wakes a saturated loop at once, and is there for its next claim. */
  lemma FreedPermitWakes(c: Config, s: State) returns (holding: State, awake: State)
    requires s.pc.Saturated? && s.permits > 0
    ensures Next(c, s, AcquireWhileSaturated, holding) && Next(c, holding, DropPermit, awake)
    ensures awake.permits == s.permits && awake.pc.CheckingStop? && awake.claims == s.claims
  {
    holding := s.(permits := s.permits - 1, pc := SaturatedHolding);
    awake := s.(pc := CheckingStop);
  }

  /** What a runner claims is of its own group, wherever its claims are single calls. */
  lemma ClaimsOwnGroup(c: Config, states: seq<State>, steps: seq<Step>, k: nat, i: nat)
    requires IsRun(c, states, steps) && k < |steps| && steps[k].Assign? && i < |steps[k].claims|
    ensures steps[k].claims[i].record.info.group == c.group && steps[k].claims[i].record.info.due <= steps[k].upTo
    ensures |states[k].claims| + i < |states[k + 1].claims|
    ensures states[k + 1].claims[|states[k].claims| + i] == Claimed(steps[k].claims[i].record, Waiting)
  {
    RunKeepsInv(c, states, steps, k);
    assert Next(c, states[k], steps[k], states[k + 1]);
    assert steps[k].claims[i].Id() in Lifecycle.Ready(states[k].board, c.group, steps[k].upTo);
  }
}
