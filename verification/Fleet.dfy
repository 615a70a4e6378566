/**
 Any number of group runners on one board, together with the services that keep them
 registered, purge them and restore their tasks. Runners call the backend for what
 their claims returned; that they still hold it is a theorem here, not an assumption.
 */
module Fleet {
  import opened Tasks
  import opened Lifecycle
  import Detector
  import Runner

  /** The runners, by their worker ids. */
  type Configs = map<WorkerId, Runner.Config>

  /** `services` holds the board; the copies inside `runners` are not looked at. */
  datatype State = State(services: Detector.State, runners: map<WorkerId, Runner.State>)

  datatype Step = Service(step: Detector.Step) | Run(worker: WorkerId, move: Runner.Step)

  /** A runner as it stands on the shared board. */
  function At(s: State, w: WorkerId): Runner.State
    requires w in s.runners
  {
    s.runners[w].(board := s.services.board)
  }

  const NO_CALL := Event(PutTasks([]), [])

  /** What a step of the fleet is to the services: a stop, a worker's call, or nothing. */
  function ServiceStep(cs: Configs, s: State, step: Step): Detector.Step
    requires cs.Keys == s.runners.Keys
  {
    match step
    case Service(d) => d
    case Run(w, move) =>
      if w !in cs then Detector.Client(NO_CALL)
      else if move.RequestStop? then Detector.Stop(w)
      else match Runner.EventOf(cs[w], At(s, w), move)
        case Some(event) => Detector.Work(w, event)
        case None => Detector.Client(NO_CALL)
  }

  ghost predicate Next(gap: nat, cs: Configs, s: State, step: Step, s': State)
    requires cs.Keys == s.runners.Keys
  {
    && s'.runners.Keys == s.runners.Keys
    && Detector.Next(gap, s.services, ServiceStep(cs, s, step), s'.services)
    && match step
       case Service(d) => !d.Work? && !d.Stop? && s'.runners == s.runners
       case Run(w, move) =>
         && w in cs && !move.Elsewhere? && Runner.Control(cs[w], At(s, w), move, At(s', w))
         && (var event := Runner.EventOf(cs[w], At(s, w), move);
             event.Some? && Disciplined(s.services.board, event.value.op) ==>
               Runner.Serves(At(s, w), move, event.value, s'.services.board))
         && forall v | v in s.runners && v != w :: s'.runners[v] == s.runners[v]
  }

  /** Runners call the backend only while punctual; sweeps and purges read quickly. */
  predicate Timely(gap: nat, cs: Configs, s: State, step: Step)
    requires cs.Keys == s.runners.Keys
  {
    match step
    case Service(d) => Detector.Timely(gap, s.services, d)
    case Run(w, move) =>
      w in cs && Runner.EventOf(cs[w], At(s, w), move).Some? ==> w in s.services.landed && w !in s.services.lapsed
  }

  /** One restorer, nothing staged, and every runner at its start. */
  ghost predicate Starts(cs: Configs, s: State) {
    && cs.Keys == s.runners.Keys && Detector.Starts(s.services) && |s.services.sweeps| == 1
    && forall w | w in cs :: cs[w].worker == w && Runner.Starts(cs[w], At(s, w))
  }

  ghost predicate IsRun(gap: nat, cs: Configs, states: seq<State>, steps: seq<Step>) {
    && |states| == |steps| + 1 && Starts(cs, states[0])
    && forall i | 0 <= i < |steps| ::
         && cs.Keys == states[i].runners.Keys
         && Next(gap, cs, states[i], steps[i], states[i + 1]) && Timely(gap, cs, states[i], steps[i])
  }

  // ---- the joint invariant ----

  ghost predicate Inv(gap: nat, cs: Configs, s: State) {
    && cs.Keys == s.runners.Keys && Detector.Safe(gap, s.services)
    && forall w | w in cs :: cs[w].worker == w && (w !in s.services.lapsed ==> Runner.Inv(cs[w], At(s, w)))
  }

  lemma SettleIsRightful(c: Runner.Config, r: Runner.State, move: Runner.Step)
    requires Runner.Inv(c, r) && move.Settle? && move.claim < |r.claims|
    requires r.claims[move.claim].status.Running? && Runner.Settles(move.op, r.claims[move.claim].record)
    ensures Detector.Rightful(r.board, c.worker, move.op)
  {
    Runner.SettleIsDisciplined(c, r, move);
    assert Runner.OpenOk(c, r, move.claim);
  }

  /** A runner's call settles a task it holds, with the record it holds. */
  lemma CallIsRightful(gap: nat, cs: Configs, s: State, step: Step, s': State)
    requires Inv(gap, cs, s) && step.Run? && Next(gap, cs, s, step, s') && Timely(gap, cs, s, step)
    ensures var event := Runner.EventOf(cs[step.worker], At(s, step.worker), step.move);
            event.Some? ==> Detector.Rightful(s.services.board, step.worker, event.value.op)
  {
    if step.move.Settle? {
      SettleIsRightful(cs[step.worker], At(s, step.worker), step.move);
    }
  }

  lemma ServiceIsTimely(gap: nat, cs: Configs, s: State, step: Step, s': State)
    requires Inv(gap, cs, s) && Next(gap, cs, s, step, s') && Timely(gap, cs, s, step)
    ensures Detector.Timely(gap, s.services, ServiceStep(cs, s, step))
  {
    if step.Run? {
      CallIsRightful(gap, cs, s, step, s');
    }
  }

  lemma NoCallIsNothing(gap: nat, s: Detector.State, s': Detector.State)
    requires Detector.Next(gap, s, Detector.Client(NO_CALL), s')
    ensures s' == s
  {
    assert PutAll(s.board, []) == s.board;
  }

  lemma LapsedStays(gap: nat, s: Detector.State, step: Detector.Step, s': Detector.State)
    requires Detector.Next(gap, s, step, s')
    ensures s.lapsed <= s'.lapsed
  {
  }

  /** A punctual runner's own step is a step of its loop, on a backend that follows the lifecycle. */
  lemma OwnStepIsNext(gap: nat, cs: Configs, s: State, step: Step, s': State)
    requires Inv(gap, cs, s) && step.Run? && Next(gap, cs, s, step, s') && Timely(gap, cs, s, step)
    ensures Runner.Next(cs[step.worker], At(s, step.worker), step.move, At(s', step.worker))
  {
    CallIsRightful(gap, cs, s, step, s');
    if ServiceStep(cs, s, step) == Detector.Client(NO_CALL) {
      NoCallIsNothing(gap, s.services, s'.services);
    }
  }

  /** What everybody else does is a step elsewhere, or nothing, to a punctual runner. */
  lemma OthersKeepRunner(gap: nat, cs: Configs, s: State, step: Step, s': State, w: WorkerId)
    requires Inv(gap, cs, s) && Next(gap, cs, s, step, s') && Timely(gap, cs, s, step)
    requires w in cs && w !in s.services.lapsed && !(step.Run? && step.worker == w)
    ensures Runner.Inv(cs[w], At(s', w))
  {
    var d := ServiceStep(cs, s, step);
    ServiceIsTimely(gap, cs, s, step, s');
    Detector.SafeCalls(gap, s.services, d, s'.services);
    match Detector.EventOf(s.services, d)
    case None => assert At(s', w) == At(s, w);
    case Some(event) =>
      Detector.SafeLeavesAlone(gap, s.services, d, s'.services, w);
      ElsewhereKeepsRunner(cs[w], At(s, w), event, s'.services.board);
  }

  lemma ElsewhereKeepsRunner(c: Runner.Config, r: Runner.State, event: Event, b': Board)
    requires Runner.Inv(c, r) && Disciplined(r.board, event.op) && Moves(r.board, event, b')
    requires Runner.LeavesAlone(r.board, b', c.worker)
    ensures Runner.Inv(c, r.(board := b'))
  {
    Runner.StepKeepsInv(c, r, Runner.Elsewhere(event), r.(board := b'));
  }

  lemma StepKeepsInv(gap: nat, cs: Configs, s: State, step: Step, s': State)
    requires Inv(gap, cs, s) && Next(gap, cs, s, step, s') && Timely(gap, cs, s, step)
    ensures Inv(gap, cs, s')
  {
    ServiceIsTimely(gap, cs, s, step, s');
    Detector.StepKeepsSafe(gap, s.services, ServiceStep(cs, s, step), s'.services);
    LapsedStays(gap, s.services, ServiceStep(cs, s, step), s'.services);
    forall w | w in cs && w !in s'.services.lapsed ensures Runner.Inv(cs[w], At(s', w)) {
      if step.Run? && step.worker == w {
        OwnStepIsNext(gap, cs, s, step, s');
        Runner.StepKeepsInv(cs[w], At(s, w), step.move, At(s', w));
      } else {
        OthersKeepRunner(gap, cs, s, step, s', w);
      }
    }
  }

  lemma StartKeepsInv(gap: nat, cs: Configs, s: State)
    requires Starts(cs, s)
    ensures Inv(gap, cs, s)
  {
    Detector.StartIsSafe(gap, s.services);
  }

  ghost predicate InvAt(gap: nat, cs: Configs, states: seq<State>, k: nat) {
    k < |states| && Inv(gap, cs, states[k])
  }

  lemma {:induction false} InvFrom(gap: nat, cs: Configs, states: seq<State>, k: nat)
    requires InvAt(gap, cs, states, 0)
    requires forall j | 0 <= j < k :: InvAt(gap, cs, states, j) ==> InvAt(gap, cs, states, j + 1)
    ensures InvAt(gap, cs, states, k)
  {
    if k > 0 {
      InvFrom(gap, cs, states, k - 1);
    }
  }

  lemma RunStepKeepsInv(gap: nat, cs: Configs, states: seq<State>, steps: seq<Step>, k: nat)
    requires IsRun(gap, cs, states, steps) && k < |steps| && InvAt(gap, cs, states, k)
    ensures InvAt(gap, cs, states, k + 1)
  {
    StepKeepsInv(gap, cs, states[k], steps[k], states[k + 1]);
  }

  /**
   In every state the services are safe, and the rows staged for a worker that never
   lapsed are exactly its unsettled claims.
   */
  lemma RunKeepsInv(gap: nat, cs: Configs, states: seq<State>, steps: seq<Step>, k: nat)
    requires IsRun(gap, cs, states, steps) && k < |states|
    ensures Inv(gap, cs, states[k])
  {
    StartKeepsInv(gap, cs, states[0]);
    forall j | 0 <= j < k ensures InvAt(gap, cs, states, j) ==> InvAt(gap, cs, states, j + 1) {
      if InvAt(gap, cs, states, j) {
        RunStepKeepsInv(gap, cs, states, steps, j);
      }
    }
    InvFrom(gap, cs, states, k);
  }

  // ---- theorems ----

  /** What is restored is still held by the worker it was listed for, and that worker has lapsed. */
  lemma OnlyLapsedAreRestored(gap: nat, cs: Configs, states: seq<State>, steps: seq<Step>, k: nat,
                              row: Detector.StageRow)
    requires IsRun(gap, cs, states, steps) && k < |steps| && steps[k].Service?
    requires Detector.Restores(states[k].services, steps[k].step, row)
    ensures row.worker in states[k].services.lapsed && StagedFor(states[k].services.board, row.worker, row.id)
  {
    RunKeepsInv(gap, cs, states, steps, k);
    Detector.SafeRestores(gap, states[k].services, steps[k].step, row);
  }

  /** A worker that has not lapsed keeps its tasks until its own runner settles them. */
  lemma PunctualKeepsItsTasks(gap: nat, cs: Configs, states: seq<State>, steps: seq<Step>, w: WorkerId, k: nat,
                              id: TaskId)
    requires IsRun(gap, cs, states, steps) && k < |steps| && !(steps[k].Run? && steps[k].worker == w)
    requires w !in states[k].services.lapsed && StagedFor(states[k].services.board, w, id)
    ensures StagedFor(states[k + 1].services.board, w, id)
  {
    RunKeepsInv(gap, cs, states, steps, k);
    var s, s' := states[k], states[k + 1];
    ServiceIsTimely(gap, cs, s, steps[k], s');
    Detector.SafeKeepsTasks(gap, s.services, ServiceStep(cs, s, steps[k]), s'.services, w, id);
  }

  /**
   When its runner is joined, a worker that has not lapsed has settled every claim it was
   given by one call, and holds exactly what a failed claim has stranded.
   */
  lemma PunctualDrains(gap: nat, cs: Configs, states: seq<State>, steps: seq<Step>, w: WorkerId, k: nat)
    requires IsRun(gap, cs, states, steps) && k < |states| && w in cs && w !in states[k].services.lapsed
    requires w in states[k].runners && states[k].runners[w].pc.Joined?
    ensures forall i | 0 <= i < |states[k].runners[w].claims| ::
              var claim := states[k].runners[w].claims[i];
              claim.status.Stranded? || (claim.status.Released? && Runner.Settles(claim.status.op, claim.record))
    ensures forall id :: StagedFor(states[k].services.board, w, id) <==> Runner.IsStranded(states[k].runners[w], id)
  {
    RunKeepsInv(gap, cs, states, steps, k);
    Runner.JoinedHasSettled(cs[w], At(states[k], w));
  }

  /** The backend call of a step; a put of nothing if there is none. */
  function EventOf(cs: Configs, s: State, step: Step): Event
    requires cs.Keys == s.runners.Keys
  {
    match Detector.EventOf(s.services, ServiceStep(cs, s, step))
    case Some(event) => event
    case None => NO_CALL
  }

  lemma CallIsDisciplined(gap: nat, cs: Configs, s: State, step: Step, s': State)
    requires Inv(gap, cs, s) && Next(gap, cs, s, step, s') && Timely(gap, cs, s, step)
    ensures var e := EventOf(cs, s, step);
            Disciplined(s.services.board, e.op) && Moves(s.services.board, e, s'.services.board)
  {
    ServiceIsTimely(gap, cs, s, step, s');
    Detector.SafeCalls(gap, s.services, ServiceStep(cs, s, step), s'.services);
    assert PutAll(s.services.board, []) == s.services.board;
  }

  lemma WholeCallIsNext(gap: nat, cs: Configs, s: State, step: Step, s': State)
    requires Inv(gap, cs, s) && Next(gap, cs, s, step, s') && Timely(gap, cs, s, step)
    requires !(step.Run? && step.move.Take?)
    ensures Lifecycle.Next(s.services.board, EventOf(cs, s, step), s'.services.board)
  {
    CallIsDisciplined(gap, cs, s, step, s');
  }

  lemma RunCall(gap: nat, cs: Configs, states: seq<State>, steps: seq<Step>, i: nat)
    requires IsRun(gap, cs, states, steps) && i < |steps|
    ensures var b, e, b' := states[i].services.board, EventOf(cs, states[i], steps[i]), states[i + 1].services.board;
            && Disciplined(b, e.op) && Moves(b, e, b')
            && (!(steps[i].Run? && steps[i].move.Take?) ==> Lifecycle.Next(b, e, b'))
  {
    RunKeepsInv(gap, cs, states, steps, i);
    CallIsDisciplined(gap, cs, states[i], steps[i], states[i + 1]);
    if !(steps[i].Run? && steps[i].move.Take?) {
      WholeCallIsNext(gap, cs, states[i], steps[i], states[i + 1]);
    }
  }

  /**
   Every call of runners, clients and restorers together is one the backends allow, so
   their runs are histories of the lifecycle and its whole-run theorems hold of them;
   where every claim is one call, they are its runs.
   */
  lemma CallsAreDisciplined(gap: nat, cs: Configs, states: seq<State>, steps: seq<Step>)
    returns (boards: seq<Board>, events: seq<Event>)
    requires IsRun(gap, cs, states, steps)
    ensures IsHistory(boards, events) && |events| == |steps|
    ensures (forall i | 0 <= i < |steps| :: !(steps[i].Run? && steps[i].move.Take?)) ==> Lifecycle.IsRun(boards, events)
    ensures forall i | 0 <= i < |states| :: boards[i] == states[i].services.board
    ensures forall i | 0 <= i < |steps| ::
              cs.Keys == states[i].runners.Keys && events[i] == EventOf(cs, states[i], steps[i])
  {
    boards := seq(|states|, i requires 0 <= i < |states| => states[i].services.board);
    events := seq(|steps|, i requires 0 <= i < |steps| && cs.Keys == states[i].runners.Keys =>
      EventOf(cs, states[i], steps[i]));
    forall i | 0 <= i < |steps|
      ensures Disciplined(boards[i], events[i].op) && Moves(boards[i], events[i], boards[i + 1])
      ensures !(steps[i].Run? && steps[i].move.Take?) ==> Lifecycle.Next(boards[i], events[i], boards[i + 1])
    {
      RunCall(gap, cs, states, steps, i);
    }
  }
}
