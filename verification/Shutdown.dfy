/**
 A shutdown can always be brought to its end: whatever a claim brings the loop takes,
 whatever its handlers come to they can settle, and a draining runner is joined once
 they all have.
 */
module Shutdown {
  import opened Tasks
  import opened Lifecycle
  import opened Runner

  /** Whatever the backend's claim brings, a runner that is claiming takes it. */
  lemma ClaimIsTaken(c: Config, s: State, claims: seq<Claim>, upTo: Timestamp, b': Board) returns (s': State)
    requires s.pc.Assigning? && s.pc.first == |s.claims|
    requires Lifecycle.Next(s.board, Event(AssignTasks(c.group, c.worker, s.pc.free, upTo), claims), b')
    ensures Runner.Next(c, s, Assign(claims, upTo), s') && s'.board == b' && |s'.claims| == |s.claims| + |claims|
  {
    s' := s.(pc := Spawning(|s.claims|), claims := s.claims + Added(claims, Waiting), board := b');
  }

  /** A claim made of transactions goes on while permits are left, and can return with all it took. */
  lemma TakesCanGoOn(c: Config, s: State, claim: Claim, at: Timestamp, b': Board) returns (more: State, done: State)
    requires s.pc.Assigning? && s.pc.first <= |s.claims| < s.pc.first + s.pc.free
    requires IsTaking(s.board, [claim]) && IsStaging(s.board, c.worker, [claim], b')
    ensures Runner.Next(c, s, Take(claim, at), more) && more.board == b'
    ensures more.claims == s.claims + [Claimed(claim.record, Waiting)]
    ensures Runner.Next(c, more, AssignDone, done) && done.claims == more.claims && done.pc == Spawning(s.pc.first)
  {
    more := s.(claims := s.claims + Added([claim], Waiting), board := b');
    done := more.(pc := Spawning(s.pc.first));
  }

  // ---- draining ----

  /** A handler can settle its task in whichever way it ends. */
  lemma HandlerCanSettle(c: Config, s: State, i: nat, op: Op) returns (s': State)
    requires Inv(c, s) && i < |s.claims| && s.claims[i].status.Running? && Settles(op, s.claims[i].record)
    ensures Runner.Next(c, s, Settle(i, op), s') && s'.claims == s.claims[i := Claimed(s.claims[i].record, Settled(op))]
    ensures s'.pc == s.pc && s'.permits == s.permits
  {
    var b := s.board;
    var b' := match op
      case RetryTask(r) => b[r.info.id := Row(r, Queued)]
      case DiscardTasks(ids) => b - (set id | id in ids)
      case Finish(r, outcome, now) => b[r.info.id := Row(r, Done(now, now + r.info.ttl, outcome))]
      case _ => b;
    s' := s.(claims := s.claims[i := Claimed(s.claims[i].record, Settled(op))], board := b');
  }

  /** And gives its slot back. */
  lemma SlotComesBack(c: Config, s: State, i: nat) returns (s': State)
    requires i < |s.claims| && s.claims[i].status.Settled?
    ensures Runner.Next(c, s, Release(i), s') && s'.permits == s.permits + 1 && s'.pc == s.pc
    ensures s'.claims == s.claims[i := Claimed(s.claims[i].record, Released(s.claims[i].status.op))]
  {
    s' := s.(permits := s.permits + 1,
             claims := s.claims[i := s.claims[i].(status := Released(s.claims[i].status.op))]);
  }

  lemma {:induction false} BusyIndex(claims: seq<Claimed>) returns (i: nat)
    requires CountBusy(claims) > 0
    ensures i < |claims| && Busy(claims[i].status)
  {
    i := |claims| - 1;
    if !Busy(claims[i].status) {
      i := BusyIndex(claims[..i]);
    }
  }

  /** Some steps lead from one state to another. */
  ghost predicate Leads(c: Config, states: seq<State>, steps: seq<Step>, from: State, to: State) {
    && |states| == |steps| + 1 && states[0] == from && states[|steps|] == to
    && forall i | 0 <= i < |steps| :: Runner.Next(c, states[i], steps[i], states[i + 1])
  }

  lemma OneMoreBefore(c: Config, states: seq<State>, steps: seq<Step>, from: State, step: Step, mid: State, to: State)
    requires Runner.Next(c, from, step, mid) && Leads(c, states, steps, mid, to)
    ensures Leads(c, [from] + states, [step] + steps, from, to)
  {
    var more, did := [from] + states, [step] + steps;
    forall i | 0 <= i < |did| ensures Runner.Next(c, more[i], did[i], more[i + 1]) {
      if i > 0 {
        assert Runner.Next(c, states[i - 1], steps[i - 1], states[i]);
      }
    }
  }

  /** A busy handler ends: it settles its task, here by discarding it, and its slot comes back. */
  lemma HandlerCanEnd(c: Config, s: State, i: nat) returns (states: seq<State>, steps: seq<Step>, s': State)
    requires Inv(c, s) && s.pc.Draining? && i < |s.claims| && Busy(s.claims[i].status)
    ensures Leads(c, states, steps, s, s') && Inv(c, s') && s'.pc.Draining?
    ensures CountBusy(s'.claims) + 1 == CountBusy(s.claims)
  {
    var settled := s;
    states, steps := [s], [];
    if s.claims[i].status.Running? {
      var op := DiscardTasks([s.claims[i].record.info.id]);
      settled := HandlerCanSettle(c, s, i, op);
      StepKeepsInv(c, s, Settle(i, op), settled);
      CountAfterUpdate(s.claims, i, Settled(op));
    }
    s' := SlotComesBack(c, settled, i);
    StepKeepsInv(c, settled, Release(i), s');
    CountAfterUpdate(settled.claims, i, s'.claims[i].status);
    assert Leads(c, [s'], [], s', s');
    OneMoreBefore(c, [s'], [], settled, Release(i), s', s');
    states, steps := [settled] + [s'], [Release(i)] + [];
    if s.claims[i].status.Running? {
      var op := DiscardTasks([s.claims[i].record.info.id]);
      OneMoreBefore(c, states, steps, s, Settle(i, op), settled, s');
      states, steps := [s] + states, [Settle(i, op)] + steps;
    }
  }

  lemma LeadsOn(c: Config, first: seq<State>, did: seq<Step>, rest: seq<State>, does: seq<Step>,
                from: State, mid: State, to: State)
    requires Leads(c, first, did, from, mid) && Leads(c, rest, does, mid, to)
    ensures Leads(c, first + rest[1..], did + does, from, to)
  {
    var states, steps := first + rest[1..], did + does;
    forall i | 0 <= i < |steps| ensures Runner.Next(c, states[i], steps[i], states[i + 1]) {
      if i < |did| {
        assert Runner.Next(c, first[i], did[i], first[i + 1]);
      } else {
        assert Runner.Next(c, rest[i - |did|], does[i - |did|], rest[i - |did| + 1]);
      }
    }
  }

  lemma {:induction false} DrainingCanJoin(c: Config, s: State)
    returns (states: seq<State>, steps: seq<Step>, s': State)
    requires Inv(c, s) && s.pc.Draining?
    ensures Leads(c, states, steps, s, s') && s'.pc.Joined?
    decreases CountBusy(s.claims)
  {
    if CountBusy(s.claims) == 0 {
      s' := s.(pc := Joined);
      states, steps := [s, s'], [Join];
    } else {
      var i := BusyIndex(s.claims);
      var first, did, mid := HandlerCanEnd(c, s, i);
      var rest, does;
      rest, does, s' := DrainingCanJoin(c, mid);
      LeadsOn(c, first, did, rest, does, s, mid, s');
      states, steps := first + rest[1..], did + does;
    }
  }

  /** From every reachable state in which it drains, a runner can be joined. */
  lemma DrainingEnds(c: Config, states: seq<State>, steps: seq<Step>, k: nat)
    requires Runner.IsRun(c, states, steps) && k < |states| && states[k].pc.Draining?
    ensures exists more, did, joined :: Leads(c, more, did, states[k], joined) && joined.pc.Joined?
  {
    RunKeepsInv(c, states, steps, k);
    var more, did, joined := DrainingCanJoin(c, states[k]);
  }
}
