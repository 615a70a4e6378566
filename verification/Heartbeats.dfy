/**
 How long a heartbeat lasts: a refresh is good for fifteen seconds from the clock
 reading it was computed with, and is repeated every five.
 */
module Heartbeats {
  import opened Tasks
  import opened Detector

  /** The step computes a refresh that names the worker. */
  predicate Refreshes(s: State, step: Step, w: WorkerId) {
    step.BeginRefresh? && w in step.workers && w !in s.stopped
  }

  /** A refresh on its way was computed at step `b`. */
  predicate SentAt(states: seq<State>, steps: seq<Step>, w: WorkerId, k: nat, n: nat, b: nat) {
    && b < k < |states| && b < |steps| && n < |states[k].refreshes|
    && Refreshes(states[b], steps[b], w) && states[k].refreshes[n].expiry == states[b].now + WORKER_TTL
  }

  lemma RefreshesBefore(gap: nat, s: State, step: Step, s': State, n: nat) returns (m: Option<nat>)
    requires Detector.Next(gap, s, step, s') && n < |s'.refreshes|
    ensures m.Some? ==> m.value < |s.refreshes| && s'.refreshes[n] == s.refreshes[m.value]
    ensures m.None? ==> step.BeginRefresh?
                        && s'.refreshes[n] == Refresh(step.workers - s.stopped, s.now + WORKER_TTL)
  {
    if step.LandRefresh? || step.LoseRefresh? {
      m := Some(if n < step.index then n else n + 1);
    } else if n < |s.refreshes| {
      m := Some(n);
    } else {
      m := None;
    }
  }

  lemma {:induction false} SentSomewhere(gap: nat, states: seq<State>, steps: seq<Step>, w: WorkerId, k: nat, n: nat)
    returns (b: nat)
    requires IsRun(gap, states, steps) && k < |states| && n < |states[k].refreshes|
    requires w in states[k].refreshes[n].workers
    ensures SentAt(states, steps, w, k, n, b)
    decreases k
  {
    var m := RefreshesBefore(gap, states[k - 1], steps[k - 1], states[k], n);
    match m
    case Some(i) => b := SentSomewhere(gap, states, steps, w, k - 1, i);
    case None => b := k - 1;
  }

  /** The refresh stored last for the worker was computed at step `b`. */
  predicate StoredFrom(states: seq<State>, steps: seq<Step>, w: WorkerId, k: nat, b: nat) {
    && b < k < |states| && b < |steps| && w in states[k].landed
    && Refreshes(states[b], steps[b], w) && states[k].landed[w] == states[b].now + WORKER_TTL
  }

  lemma LandedBefore(gap: nat, s: State, step: Step, s': State, w: WorkerId) returns (n: Option<nat>)
    requires Detector.Next(gap, s, step, s') && w in s'.landed
    ensures n.Some? ==> n.value < |s.refreshes| && w in s.refreshes[n.value].workers
                        && s'.landed[w] == s.refreshes[n.value].expiry
    ensures n.None? ==> w in s.landed && s'.landed[w] == s.landed[w]
  {
    if step.LandRefresh? && w in s.refreshes[step.index].workers {
      n := Some(step.index);
    } else {
      n := None;
    }
  }

  /** Every stored expiry comes from a refresh that named the worker while it ran. */
  lemma {:induction false} StoredSomewhere(gap: nat, states: seq<State>, steps: seq<Step>, w: WorkerId, k: nat)
    returns (b: nat)
    requires IsRun(gap, states, steps) && k < |states| && w in states[k].landed
    ensures StoredFrom(states, steps, w, k, b)
    decreases k
  {
    var n := LandedBefore(gap, states[k - 1], steps[k - 1], states[k], w);
    match n
    case Some(i) => b := SentSomewhere(gap, states, steps, w, k - 1, i);
    case None => b := StoredSomewhere(gap, states, steps, w, k - 1);
  }

  predicate LateNow(gap: nat, s: State, w: WorkerId) {
    w in s.landed && s.landed[w] < s.now + gap
  }

  lemma LapsesNow(gap: nat, s: State, step: Step, s': State, w: WorkerId)
    requires Detector.Next(gap, s, step, s') && (LateNow(gap, s, w) ==> w in s.lapsed)
    ensures w in s'.lapsed <==> w in s.lapsed || LateNow(gap, s', w)
  {
  }

  lemma {:induction false} LapsedWasLate(gap: nat, states: seq<State>, steps: seq<Step>, w: WorkerId, k: nat)
    requires IsRun(gap, states, steps) && k < |states|
    ensures w in states[k].lapsed <==> exists j :: 0 <= j <= k && LateNow(gap, states[j], w)
  {
    if k > 0 {
      LapsedWasLate(gap, states, steps, w, k - 1);
      LapsesNow(gap, states[k - 1], steps[k - 1], states[k], w);
    }
  }

  /** The refresh stored last was computed more than fifteen seconds, less the margin, ago. */
  predicate OutOfDate(gap: nat, states: seq<State>, steps: seq<Step>, w: WorkerId, j: nat, b: nat) {
    StoredFrom(states, steps, w, j, b) && states[j].now > states[b].now + 15000 - gap
  }

  /** A worker lapses exactly when, at some moment, the last refresh stored for it is that old. */
  lemma LapsesWhenOutOfDate(gap: nat, states: seq<State>, steps: seq<Step>, w: WorkerId, k: nat)
    requires IsRun(gap, states, steps) && k < |states|
    ensures w in states[k].lapsed <==> exists j, b: nat :: 0 <= j <= k && OutOfDate(gap, states, steps, w, j, b)
  {
    LapsedWasLate(gap, states, steps, w, k);
    if w in states[k].lapsed {
      var j: nat :| j <= k && LateNow(gap, states[j], w);
      var b := StoredSomewhere(gap, states, steps, w, j);
      assert OutOfDate(gap, states, steps, w, j, b);
    }
    if j, b: nat :| 0 <= j <= k && OutOfDate(gap, states, steps, w, j, b) {
      assert LateNow(gap, states[j], w);
    }
  }

  /** So refreshes every five seconds keep it punctual, with five to spare, even if every other one is lost. */
  lemma EveryThirdKeepsPunctual(gap: nat, states: seq<State>, steps: seq<Step>, w: WorkerId, k: nat)
    requires IsRun(gap, states, steps) && k < |states| && gap <= WORKER_TTL / 3
    requires forall j, b: nat | 0 <= j <= k && StoredFrom(states, steps, w, j, b) ::
               states[j].now <= states[b].now + 2 * (WORKER_TTL / 3)
    ensures w !in states[k].lapsed
  {
    LapsesWhenOutOfDate(gap, states, steps, w, k);
  }
}
