/**
 One task group's runner: a fetch loop claims as many tasks as it has free slots and
 spawns a handler for each; handlers settle their task and give the slot back. The
 loop, the handlers, pause and stop requests and everyone else using the backend
 interleave step by step.
 */
module Runner {
  import opened Tasks
  import opened Lifecycle

  /**
   A claimed record: waiting to be spawned, with its handler, settled by one operation,
   slot returned; or stranded, its claim having failed after the backend made it.
   */
  datatype Status = Waiting | Running | Settled(op: Op) | Released(op: Op) | Stranded

  datatype Claimed = Claimed(record: TaskRecord, status: Status)

  /**
   Where the fetch loop stands: the three checks at its top are separate reads. While it
   is claiming, `first` is where its new claims start.
   */
  datatype Pc =
    | CheckingStop
    | CheckingPause
    | CheckingPermits
    | PauseWait
    | Saturated
    | SaturatedHolding
    | Assigning(free: nat, first: nat)
    | Spawning(next: nat)
    | Backoff
    | Draining
    | Joined

  datatype State = State(
    permits: nat,
    pc: Pc,
    claims: seq<Claimed>,
    stop: bool,
    paused: bool,
    board: Board
  )

  datatype Config = Config(group: Group, worker: WorkerId, concurrency: nat)

  datatype Step =
    | CheckStop
    | CheckPause
    | CheckPermits
    | WakeFromPause
    | AcquireWhileSaturated
    | SaturationTimeout
    | DropPermit
    | Assign(claims: seq<Claim>, upTo: Timestamp)
    | AssignLost(claims: seq<Claim>, upTo: Timestamp)
    | Take(taken: Claim, at: Timestamp)
    | AssignDone
    | AssignFailed
    | Spawn
    | EndBatch
    | WakeFromBackoff
    | Join
    | Settle(claim: nat, op: Op)
    | Release(claim: nat)
    | RequestStop
    | SetPaused(on: bool)
    | Elsewhere(event: Event)

  /** The four ways a handler ends: succeed or fail, retry, or discard. */
  predicate Settles(op: Op, r: TaskRecord) {
    match op
    case Finish(finished, _, _) => finished == r
    case RetryTask(retried) => IsRetryOf(retried, r)
    case DiscardTasks(ids) => ids == [r.info.id]
    case _ => false
  }

  /** Others leave this worker's staged rows alone and stage nothing in its name. */
  ghost predicate LeavesAlone(b: Board, b': Board, worker: WorkerId) {
    forall id :: (StagedFor(b, worker, id) ==> id in b' && b'[id] == b[id])
              && (StagedFor(b', worker, id) ==> StagedFor(b, worker, id))
  }

  function Added(claims: seq<Claim>, status: Status): (added: seq<Claimed>)
    ensures |added| == |claims| && forall i | 0 <= i < |added| :: added[i] == Claimed(claims[i].record, status)
  {
    seq(|claims|, i requires 0 <= i < |claims| => Claimed(claims[i].record, status))
  }

  function StrandedFrom(claims: seq<Claimed>, first: nat): (after: seq<Claimed>)
    ensures |after| == |claims|
    ensures forall i | 0 <= i < |claims| :: after[i] == if i < first then claims[i] else claims[i].(status := Stranded)
  {
    seq(|claims|, i requires 0 <= i < |claims| => if i < first then claims[i] else claims[i].(status := Stranded))
  }

  /**
   What a step does to the loop and its claims; `BoardStep` says what it does to the
   tasks. A claim is one call (`Assign`), whose answer can get lost (`AssignLost`), or
   one transaction per task (`Take`) until it is done or fails.
   */
  ghost predicate Control(c: Config, s: State, step: Step, s': State) {
    match step
    case CheckStop => s.pc.CheckingStop? && s' == s.(pc := if s.stop then Draining else CheckingPause)
    case CheckPause => s.pc.CheckingPause? && s' == s.(pc := if s.paused then PauseWait else CheckingPermits)
    case CheckPermits =>
      s.pc.CheckingPermits? && s' == s.(pc := if s.permits == 0 then Saturated else Assigning(s.permits, |s.claims|))
    case WakeFromPause => s.pc.PauseWait? && s' == s.(pc := if s.stop then Draining else CheckingStop)
    case AcquireWhileSaturated =>
      s.pc.Saturated? && s.permits > 0 && s' == s.(permits := s.permits - 1, pc := SaturatedHolding)
    case SaturationTimeout => s.pc.Saturated? && s' == s.(pc := CheckingStop)
    case DropPermit => s.pc.SaturatedHolding? && s' == s.(permits := s.permits + 1, pc := CheckingStop)
    case Assign(claims, upTo) =>
      && s.pc.Assigning? && s.pc.first == |s.claims|
      && s' == s.(pc := Spawning(|s.claims|), claims := s.claims + Added(claims, Waiting), board := s'.board)
    case AssignLost(claims, upTo) =>
      && s.pc.Assigning? && s.pc.first == |s.claims|
      && s' == s.(pc := Spawning(|s'.claims|), claims := s.claims + Added(claims, Stranded), board := s'.board)
    case Take(claim, _) =>
      s.pc.Assigning? && s' == s.(claims := s.claims + Added([claim], Waiting), board := s'.board)
    case AssignDone => s.pc.Assigning? && s' == s.(pc := Spawning(s.pc.first))
    case AssignFailed =>
      s.pc.Assigning? && s' == s.(pc := Spawning(|s.claims|), claims := StrandedFrom(s.claims, s.pc.first))
    case Spawn =>
      && s.pc.Spawning? && s.pc.next < |s.claims| && s.permits > 0
      && s' == s.(permits := s.permits - 1, pc := Spawning(s.pc.next + 1),
                  claims := s.claims[s.pc.next := s.claims[s.pc.next].(status := Running)])
    case EndBatch => s.pc.Spawning? && s.pc.next == |s.claims| && s' == s.(pc := Backoff)
    case WakeFromBackoff => s.pc.Backoff? && s' == s.(pc := if s.stop then Draining else CheckingStop)
    case Join => s.pc.Draining? && s.permits == c.concurrency && s' == s.(pc := Joined)
    case Settle(i, op) =>
      && i < |s.claims| && s.claims[i].status.Running? && Settles(op, s.claims[i].record)
      && s' == s.(claims := s.claims[i := s.claims[i].(status := Settled(op))], board := s'.board)
    case Release(i) =>
      && i < |s.claims| && s.claims[i].status.Settled?
      && s' == s.(permits := s.permits + 1,
                  claims := s.claims[i := s.claims[i].(status := Released(s.claims[i].status.op))])
    case RequestStop => s' == s.(stop := true)
    case SetPaused(on) => s' == s.(paused := on)
    case Elsewhere(event) => s' == s.(board := s'.board)
  }

  /** The backend call a step makes, if any. */
  function EventOf(c: Config, s: State, step: Step): Option<Event> {
    match step
    case Assign(claims, upTo) =>
      if s.pc.Assigning? then Some(Event(AssignTasks(c.group, c.worker, s.pc.free, upTo), claims)) else None
    case AssignLost(claims, upTo) =>
      if s.pc.Assigning? then Some(Event(AssignTasks(c.group, c.worker, s.pc.free, upTo), claims)) else None
    case Take(claim, at) => Some(Event(AssignTasks(c.group, c.worker, 1, at), [claim]))
    case Settle(_, op) => Some(Event(op, []))
    case Elsewhere(event) => Some(event)
    case _ => None
  }

  /**
   A claim in one call is the lifecycle's; one made of transactions takes any queued
   tasks, never more than were asked for. Other operations are the lifecycle's.
   */
  ghost predicate Serves(s: State, step: Step, event: Event, b': Board) {
    if step.Assign? || step.AssignLost? then Lifecycle.Next(s.board, event, b')
    else
      && Moves(s.board, event, b')
      && (step.Take? && s.pc.Assigning? ==> |s.claims| < s.pc.first + s.pc.free)
  }

  /** The backend follows the lifecycle where it is used as it asks to be. */
  ghost predicate BoardStep(c: Config, s: State, step: Step, s': State) {
    match EventOf(c, s, step)
    case None => s'.board == s.board
    case Some(event) =>
      && (step.Elsewhere? ==> Disciplined(s.board, event.op) && LeavesAlone(s.board, s'.board, c.worker))
      && (Disciplined(s.board, event.op) ==> Serves(s, step, event, s'.board))
  }

  ghost predicate Next(c: Config, s: State, step: Step, s': State) {
    Control(c, s, step, s') && BoardStep(c, s, step, s')
  }

  // ---- permits ----

  predicate Busy(status: Status) {
    status.Running? || status.Settled?
  }

  function CountBusy(claims: seq<Claimed>): nat {
    if claims == [] then 0
    else CountBusy(claims[..|claims| - 1]) + if Busy(claims[|claims| - 1].status) then 1 else 0
  }

  lemma {:induction false} CountAfterUpdate(claims: seq<Claimed>, i: nat, status: Status)
    requires i < |claims|
    ensures CountBusy(claims[i := claims[i].(status := status)]) + (if Busy(claims[i].status) then 1 else 0)
         == CountBusy(claims) + if Busy(status) then 1 else 0
  {
    var n, after := |claims| - 1, claims[i := claims[i].(status := status)];
    if i < n {
      CountAfterUpdate(claims[..n], i, status);
      assert after[..n] == claims[..n][i := claims[i].(status := status)];
    } else {
      assert after[..n] == claims[..n];
    }
  }

  lemma {:induction false} CountAfterAdd(claims: seq<Claimed>, added: seq<Claimed>)
    requires forall i | 0 <= i < |added| :: !Busy(added[i].status)
    ensures CountBusy(claims + added) == CountBusy(claims)
  {
    if added == [] {
      assert claims + added == claims;
    } else {
      CountAfterAdd(claims, added[..|added| - 1]);
      assert (claims + added)[..|claims + added| - 1] == claims + added[..|added| - 1];
    }
  }

  lemma {:induction false} NoneBusy(claims: seq<Claimed>)
    requires CountBusy(claims) == 0
    ensures forall i | 0 <= i < |claims| :: !Busy(claims[i].status)
  {
    if claims != [] {
      NoneBusy(claims[..|claims| - 1]);
      assert forall i | 0 <= i < |claims| - 1 :: claims[..|claims| - 1][i] == claims[i];
    }
  }

  // ---- the invariant ----

  /** The claim's row is still staged for the worker. */
  predicate Open(status: Status) {
    status.Waiting? || status.Running? || status.Stranded?
  }

  /** Which claims the loop has yet to spawn. */
  predicate WaitingFrom(s: State, i: nat) {
    (s.pc.Spawning? && s.pc.next <= i) || (s.pc.Assigning? && s.pc.first <= i)
  }

  ghost predicate PermitsInv(c: Config, s: State) {
    && s.permits + CountBusy(s.claims) + (if s.pc.SaturatedHolding? then 1 else 0) == c.concurrency
    && (s.pc.Assigning? ==> s.pc.free <= s.permits && s.pc.first <= |s.claims| <= s.pc.first + s.pc.free)
    && (s.pc.Spawning? ==> s.pc.next <= |s.claims| && |s.claims| - s.pc.next <= s.permits)
    && (forall i | 0 <= i < |s.claims| :: s.claims[i].status.Waiting? <==> WaitingFrom(s, i))
    && (s.pc.Joined? ==> forall i | 0 <= i < |s.claims| :: s.claims[i].status.Released? || s.claims[i].status.Stranded?)
  }

  predicate OpenOk(c: Config, s: State, i: nat)
    requires i < |s.claims|
  {
    var r := s.claims[i].record;
    Open(s.claims[i].status) ==> StagedFor(s.board, c.worker, r.info.id) && s.board[r.info.id].record == r
  }

  predicate ClosedOk(s: State, i: nat)
    requires i < |s.claims|
  {
    match s.claims[i].status
    case Settled(op) => Settles(op, s.claims[i].record)
    case Released(op) => Settles(op, s.claims[i].record)
    case _ => true
  }

  predicate IsOpenClaim(s: State, id: TaskId) {
    exists i :: 0 <= i < |s.claims| && Open(s.claims[i].status) && s.claims[i].record.info.id == id
  }

  /** The rows staged for this worker are exactly its open claims, each claimed once. */
  ghost predicate BoardInv(c: Config, s: State) {
    && Keyed(s.board)
    && (forall i | 0 <= i < |s.claims| :: OpenOk(c, s, i) && ClosedOk(s, i))
    && (forall id | StagedFor(s.board, c.worker, id) :: IsOpenClaim(s, id))
    && (forall i, j | 0 <= i < j < |s.claims| && Open(s.claims[i].status) && Open(s.claims[j].status) ::
          s.claims[i].record.info.id != s.claims[j].record.info.id)
  }

  ghost predicate Inv(c: Config, s: State) {
    PermitsInv(c, s) && BoardInv(c, s)
  }

  predicate IsClaiming(step: Step) {
    step.Assign? || step.AssignLost? || step.Take?
  }

  /** The remaining steps move the loop only, or happen elsewhere. */
  predicate KeepsClaims(step: Step) {
    !IsClaiming(step) && !step.AssignFailed? && !step.Settle? && !step.Spawn? && !step.Release?
  }

  lemma AddingKeepsPermits(c: Config, s: State, s': State, claims: seq<Claim>, status: Status)
    requires PermitsInv(c, s) && s.pc.Assigning? && (status.Waiting? || status.Stranded?)
    requires s'.claims == s.claims + Added(claims, status) && s'.permits == s.permits
    requires |s'.claims| <= s.pc.first + s.pc.free
    requires if status.Waiting? then s'.pc == s.pc || s'.pc == Spawning(s.pc.first)
             else s.pc.first == |s.claims| && s'.pc == Spawning(|s'.claims|)
    ensures PermitsInv(c, s')
  {
    CountAfterAdd(s.claims, Added(claims, status));
  }

  lemma ClaimKeepsPermits(c: Config, s: State, step: Step, s': State)
    requires PermitsInv(c, s) && IsClaiming(step) && Next(c, s, step, s')
    ensures PermitsInv(c, s')
  {
    match step
    case Assign(claims, _) => AddingKeepsPermits(c, s, s', claims, Waiting);
    case AssignLost(claims, _) => AddingKeepsPermits(c, s, s', claims, Stranded);
    case Take(claim, _) => AddingKeepsPermits(c, s, s', [claim], Waiting);
  }

  lemma {:induction false} CountSame(a: seq<Claimed>, b: seq<Claimed>)
    requires |a| == |b| && forall i | 0 <= i < |a| :: Busy(a[i].status) <==> Busy(b[i].status)
    ensures CountBusy(a) == CountBusy(b)
  {
    if a != [] {
      CountSame(a[..|a| - 1], b[..|b| - 1]);
    }
  }

  lemma FailureKeepsPermits(c: Config, s: State, s': State)
    requires PermitsInv(c, s) && s.pc.Assigning?
    requires s' == s.(pc := Spawning(|s.claims|), claims := StrandedFrom(s.claims, s.pc.first))
    ensures PermitsInv(c, s')
  {
    forall i | s.pc.first <= i < |s.claims| ensures !Busy(s.claims[i].status) {
      assert WaitingFrom(s, i);
    }
    CountSame(s.claims, s'.claims);
    forall i | 0 <= i < |s'.claims| ensures !s'.claims[i].status.Waiting? {
      assert s.claims[i].status.Waiting? <==> WaitingFrom(s, i);
    }
  }

  lemma StatusKeepsPermits(c: Config, s: State, s': State, i: nat, status: Status)
    requires PermitsInv(c, s) && i < |s.claims| && s'.claims == s.claims[i := s.claims[i].(status := status)]
    requires s.permits + (if Busy(s.claims[i].status) then 1 else 0) == s'.permits + (if Busy(status) then 1 else 0)
    requires !status.Waiting?
    requires if s.claims[i].status.Waiting? then s.pc == Spawning(i) && s'.pc == Spawning(i + 1)
             else s'.pc == s.pc && s'.permits >= s.permits
    ensures PermitsInv(c, s')
  {
    CountAfterUpdate(s.claims, i, status);
  }

  lemma SpawnKeepsPermits(c: Config, s: State, s': State)
    requires PermitsInv(c, s) && Next(c, s, Spawn, s')
    ensures PermitsInv(c, s')
  {
    assert WaitingFrom(s, s.pc.next);
    StatusKeepsPermits(c, s, s', s.pc.next, Running);
  }

  lemma JoinKeepsPermits(c: Config, s: State, s': State)
    requires PermitsInv(c, s) && Next(c, s, Join, s')
    ensures PermitsInv(c, s')
  {
    NoneBusy(s.claims);
  }

  lemma LoopKeepsClaims(c: Config, s: State, step: Step, s': State)
    requires Control(c, s, step, s') && KeepsClaims(step)
    ensures s'.claims == s.claims
  {
  }

  lemma LoopKeepsPermits(c: Config, s: State, step: Step, s': State)
    requires PermitsInv(c, s) && Control(c, s, step, s') && KeepsClaims(step) && !step.Join?
    ensures PermitsInv(c, s')
  {
    LoopKeepsClaims(c, s, step, s');
  }

  lemma HandlerKeepsPermits(c: Config, s: State, step: Step, s': State)
    requires PermitsInv(c, s) && (step.Settle? || step.Release?) && Control(c, s, step, s')
    ensures PermitsInv(c, s')
  {
    if step.Settle? {
      StatusKeepsPermits(c, s, s', step.claim, Settled(step.op));
    } else {
      StatusKeepsPermits(c, s, s', step.claim, Released(s.claims[step.claim].status.op));
    }
  }

  lemma PermitsKept(c: Config, s: State, step: Step, s': State)
    requires PermitsInv(c, s) && Next(c, s, step, s')
    ensures PermitsInv(c, s')
  {
    if IsClaiming(step) {
      ClaimKeepsPermits(c, s, step, s');
    } else if KeepsClaims(step) {
      if step.Join? {
        JoinKeepsPermits(c, s, s');
      } else {
        LoopKeepsPermits(c, s, step, s');
      }
    } else if step.AssignFailed? {
      FailureKeepsPermits(c, s, s');
    } else if step.Spawn? {
      SpawnKeepsPermits(c, s, s');
    } else {
      HandlerKeepsPermits(c, s, step, s');
    }
  }

  /** Distinct queued tasks become staged for this worker and are added to its claims. */
  ghost predicate Adds(c: Config, s: State, s': State, claims: seq<Claim>, status: Status) {
    && IsTaking(s.board, claims) && IsStaging(s.board, c.worker, claims, s'.board)
    && s'.claims == s.claims + Added(claims, status) && Open(status)
  }

  lemma NewIsOpen(c: Config, s: State, s': State, claims: seq<Claim>, status: Status, id: TaskId)
    requires Adds(c, s, s', claims, status) && id in ClaimedIds(claims)
    ensures IsOpenClaim(s', id)
  {
    var k :| 0 <= k < |claims| && claims[k].Id() == id;
    assert s'.claims[|s.claims| + k] == Claimed(claims[k].record, status);
  }

  lemma AddedIsOpen(c: Config, s: State, s': State, claims: seq<Claim>, status: Status, id: TaskId)
    requires BoardInv(c, s) && Adds(c, s, s', claims, status) && StagedFor(s'.board, c.worker, id)
    ensures IsOpenClaim(s', id)
  {
    var n := |s.claims|;
    if id in ClaimedIds(claims) {
      NewIsOpen(c, s, s', claims, status, id);
    } else {
      assert StagedFor(s.board, c.worker, id);
      var i :| 0 <= i < n && Open(s.claims[i].status) && s.claims[i].record.info.id == id;
      assert s'.claims[i] == s.claims[i];
    }
  }

  lemma AddedApart(c: Config, s: State, s': State, claims: seq<Claim>, status: Status, i: nat, j: nat)
    requires BoardInv(c, s) && Adds(c, s, s', claims, status)
    requires i < j < |s'.claims| && Open(s'.claims[i].status) && Open(s'.claims[j].status)
    ensures s'.claims[i].record.info.id != s'.claims[j].record.info.id
  {
    var n := |s.claims|;
    if i < n <= j {
      assert OpenOk(c, s, i);
      assert claims[j - n].Id() in s.board;
    } else if n <= i {
      assert claims[i - n].Id() != claims[j - n].Id();
    }
  }

  lemma AddedOk(c: Config, s: State, s': State, claims: seq<Claim>, status: Status, i: nat)
    requires BoardInv(c, s) && Adds(c, s, s', claims, status) && i < |s'.claims|
    ensures OpenOk(c, s', i) && ClosedOk(s', i)
  {
    var n := |s.claims|;
    if i < n {
      assert OpenOk(c, s, i) && ClosedOk(s, i);
      if Open(s.claims[i].status) {
        forall k | 0 <= k < |claims| ensures claims[k].Id() != s.claims[i].record.info.id {
          assert s.board[claims[k].Id()].phase.Queued?;
        }
      }
    } else {
      assert s'.claims[i] == Claimed(claims[i - n].record, status);
      assert claims[i - n].Id() in s.board;
    }
  }

  lemma AddingKeepsBoard(c: Config, s: State, s': State, claims: seq<Claim>, status: Status)
    requires BoardInv(c, s) && Adds(c, s, s', claims, status) && Keyed(s'.board)
    ensures BoardInv(c, s')
  {
    forall i | 0 <= i < |s'.claims| ensures OpenOk(c, s', i) && ClosedOk(s', i) {
      AddedOk(c, s, s', claims, status, i);
    }
    forall id | StagedFor(s'.board, c.worker, id) ensures IsOpenClaim(s', id) {
      AddedIsOpen(c, s, s', claims, status, id);
    }
    forall i, j | 0 <= i < j < |s'.claims| && Open(s'.claims[i].status) && Open(s'.claims[j].status)
      ensures s'.claims[i].record.info.id != s'.claims[j].record.info.id
    {
      AddedApart(c, s, s', claims, status, i, j);
    }
  }

  lemma ClaimKeepsBoard(c: Config, s: State, step: Step, s': State)
    requires Inv(c, s) && IsClaiming(step) && Next(c, s, step, s')
    ensures BoardInv(c, s')
  {
    StepKeepsKeys(s.board, EventOf(c, s, step).value, s'.board);
    match step
    case Assign(claims, _) => AddingKeepsBoard(c, s, s', claims, Waiting);
    case AssignLost(claims, _) => AddingKeepsBoard(c, s, s', claims, Stranded);
    case Take(claim, _) => AddingKeepsBoard(c, s, s', [claim], Waiting);
  }

  lemma FailureKeepsBoard(c: Config, s: State, s': State)
    requires Inv(c, s) && Next(c, s, AssignFailed, s')
    ensures BoardInv(c, s')
  {
    assert forall i | 0 <= i < |s.claims| :: s.claims[i].status.Waiting? <==> WaitingFrom(s, i);
    StatusKeepsBoard(c, s, s');
  }

  /** The settling operation is one the backends allow: its task is staged with that record. */
  lemma SettleIsDisciplined(c: Config, s: State, step: Step)
    requires Inv(c, s) && step.Settle? && step.claim < |s.claims|
    requires s.claims[step.claim].status.Running? && Settles(step.op, s.claims[step.claim].record)
    ensures Disciplined(s.board, step.op)
  {
    assert OpenOk(c, s, step.claim);
  }

  lemma SettlesOnly(b: Board, op: Op, r: TaskRecord, b': Board)
    requires Keyed(b) && Settles(op, r) && Moves(b, Event(op, []), b')
    ensures forall other | other != r.info.id ::
              (other in b <==> other in b') && (other in b ==> b'[other] == b[other])
    ensures !IsStagedIn(b', r.info.id)
  {
  }

  lemma SettleKeepsBoard(c: Config, s: State, step: Step, s': State)
    requires Inv(c, s) && step.Settle? && Next(c, s, step, s')
    ensures BoardInv(c, s')
  {
    var k, id := step.claim, s.claims[step.claim].record.info.id;
    SettleIsDisciplined(c, s, step);
    StepKeepsKeys(s.board, Event(step.op, []), s'.board);
    assert OpenOk(c, s, k);
    SettlesOnly(s.board, step.op, s.claims[k].record, s'.board);
    forall i | 0 <= i < |s'.claims| ensures OpenOk(c, s', i) && ClosedOk(s', i) {
      assert OpenOk(c, s, i) && ClosedOk(s, i);
    }
    forall other | StagedFor(s'.board, c.worker, other) ensures IsOpenClaim(s', other) {
      assert other != id && StagedFor(s.board, c.worker, other);
      OpenElsewhere(s, s', k, other);
    }
  }

  lemma OpenElsewhere(s: State, s': State, k: nat, id: TaskId)
    requires k < |s.claims| && s.claims[k].record.info.id != id && IsOpenClaim(s, id)
    requires |s'.claims| == |s.claims| && forall i | 0 <= i < |s.claims| && i != k :: s'.claims[i] == s.claims[i]
    ensures IsOpenClaim(s', id)
  {
    var i :| 0 <= i < |s.claims| && Open(s.claims[i].status) && s.claims[i].record.info.id == id;
    assert s'.claims[i] == s.claims[i];
  }

  lemma StatusKeepsBoard(c: Config, s: State, s': State)
    requires BoardInv(c, s) && s'.board == s.board && |s'.claims| == |s.claims|
    requires forall i | 0 <= i < |s.claims| ::
               && s'.claims[i].record == s.claims[i].record
               && (Open(s'.claims[i].status) <==> Open(s.claims[i].status))
               && (ClosedOk(s, i) ==> ClosedOk(s', i))
    ensures BoardInv(c, s')
  {
    forall i | 0 <= i < |s'.claims| ensures OpenOk(c, s', i) && ClosedOk(s', i) {
      assert OpenOk(c, s, i);
    }
    forall id | StagedFor(s'.board, c.worker, id) ensures IsOpenClaim(s', id) {
      var i :| 0 <= i < |s.claims| && Open(s.claims[i].status) && s.claims[i].record.info.id == id;
      assert s'.claims[i].record == s.claims[i].record;
    }
  }

  lemma ElsewhereKeepsBoard(c: Config, s: State, step: Step, s': State)
    requires Inv(c, s) && step.Elsewhere? && Next(c, s, step, s')
    ensures BoardInv(c, s')
  {
    StepKeepsKeys(s.board, step.event, s'.board);
    forall i | 0 <= i < |s'.claims| ensures OpenOk(c, s', i) && ClosedOk(s', i) {
      assert OpenOk(c, s, i) && ClosedOk(s, i);
    }
    forall id | StagedFor(s'.board, c.worker, id) ensures IsOpenClaim(s', id) {
      assert StagedFor(s.board, c.worker, id);
      var i :| 0 <= i < |s.claims| && Open(s.claims[i].status) && s.claims[i].record.info.id == id;
    }
  }

  lemma SpawnKeepsBoard(c: Config, s: State, s': State)
    requires Inv(c, s) && Next(c, s, Spawn, s')
    ensures BoardInv(c, s')
  {
    assert WaitingFrom(s, s.pc.next);
    StatusKeepsBoard(c, s, s');
  }

  lemma ReleaseKeepsBoard(c: Config, s: State, i: nat, s': State)
    requires Inv(c, s) && Next(c, s, Release(i), s')
    ensures BoardInv(c, s')
  {
    StatusKeepsBoard(c, s, s');
  }

  lemma LoopKeepsBoard(c: Config, s: State, step: Step, s': State)
    requires Inv(c, s) && Next(c, s, step, s') && KeepsClaims(step) && !step.Elsewhere?
    ensures BoardInv(c, s')
  {
    assert s'.claims == s.claims && s'.board == s.board;
    StatusKeepsBoard(c, s, s');
  }

  lemma StatusStepKeepsBoard(c: Config, s: State, step: Step, s': State)
    requires Inv(c, s) && Next(c, s, step, s') && !IsClaiming(step) && !KeepsClaims(step)
    ensures BoardInv(c, s')
  {
    if step.AssignFailed? {
      FailureKeepsBoard(c, s, s');
    } else if step.Settle? {
      SettleKeepsBoard(c, s, step, s');
    } else if step.Spawn? {
      SpawnKeepsBoard(c, s, s');
    } else {
      ReleaseKeepsBoard(c, s, step.claim, s');
    }
  }

  lemma StepKeepsBoard(c: Config, s: State, step: Step, s': State)
    requires Inv(c, s) && Next(c, s, step, s')
    ensures BoardInv(c, s')
  {
    if IsClaiming(step) {
      ClaimKeepsBoard(c, s, step, s');
    } else if !KeepsClaims(step) {
      StatusStepKeepsBoard(c, s, step, s');
    } else if step.Elsewhere? {
      ElsewhereKeepsBoard(c, s, step, s');
    } else {
      LoopKeepsBoard(c, s, step, s');
    }
  }

  lemma StepKeepsInv(c: Config, s: State, step: Step, s': State)
    requires Inv(c, s) && Next(c, s, step, s')
    ensures Inv(c, s')
  {
    PermitsKept(c, s, step, s');
    StepKeepsBoard(c, s, step, s');
  }

  predicate IsStranded(s: State, id: TaskId) {
    exists i :: 0 <= i < |s.claims| && s.claims[i].status.Stranded? && s.claims[i].record.info.id == id
  }

  /** A joined runner has settled and released every claim it was given; staged are only the stranded ones. */
  lemma JoinedHasSettled(c: Config, s: State)
    requires Inv(c, s) && s.pc.Joined?
    ensures forall i | 0 <= i < |s.claims| :: s.claims[i].status.Stranded?
              || (s.claims[i].status.Released? && Settles(s.claims[i].status.op, s.claims[i].record))
    ensures forall id :: StagedFor(s.board, c.worker, id) <==> IsStranded(s, id)
  {
    forall i | 0 <= i < |s.claims|
      ensures s.claims[i].status.Stranded?
              || (s.claims[i].status.Released? && Settles(s.claims[i].status.op, s.claims[i].record))
    {
      assert ClosedOk(s, i);
    }
    forall id ensures StagedFor(s.board, c.worker, id) <==> IsStranded(s, id) {
      if StagedFor(s.board, c.worker, id) {
        var i :| 0 <= i < |s.claims| && Open(s.claims[i].status) && s.claims[i].record.info.id == id;
      }
      if i :| 0 <= i < |s.claims| && s.claims[i].status.Stranded? && s.claims[i].record.info.id == id {
        assert OpenOk(c, s, i);
      }
    }
  }

  /** A runner starts with all permits and a worker id nobody has used. */
  ghost predicate Starts(c: Config, s: State) {
    && s == State(c.concurrency, CheckingStop, [], false, false, s.board)
    && Keyed(s.board) && forall id :: !StagedFor(s.board, c.worker, id)
  }

  ghost predicate IsRun(c: Config, states: seq<State>, steps: seq<Step>) {
    && |states| == |steps| + 1
    && Starts(c, states[0])
    && forall i | 0 <= i < |steps| :: Next(c, states[i], steps[i], states[i + 1])
  }

  lemma {:induction false} RunKeepsInv(c: Config, states: seq<State>, steps: seq<Step>, k: nat)
    requires IsRun(c, states, steps) && k < |states|
    ensures Inv(c, states[k])
  {
    if k > 0 {
      RunKeepsInv(c, states, steps, k - 1);
      StepKeepsInv(c, states[k - 1], steps[k - 1], states[k]);
    }
  }

  /**
   Free permits, busy handlers and the saturation wait always add up to the limit; no
   more handlers run than allowed; and claimed records never outnumber the free
   permits, so spawning never waits.
   */
  lemma PermitsAddUp(c: Config, states: seq<State>, steps: seq<Step>, k: nat)
    requires IsRun(c, states, steps) && k < |states|
    ensures var s := states[k];
            && s.permits + CountBusy(s.claims) + (if s.pc.SaturatedHolding? then 1 else 0) == c.concurrency
            && CountBusy(s.claims) <= c.concurrency
            && (s.pc.Spawning? && s.pc.next < |s.claims| ==>
                  s.permits > 0 && exists s' :: Next(c, s, Spawn, s'))
  {
    RunKeepsInv(c, states, steps, k);
    var s := states[k];
    if s.pc.Spawning? && s.pc.next < |s.claims| {
      var s' := s.(permits := s.permits - 1, pc := Spawning(s.pc.next + 1),
                   claims := s.claims[s.pc.next := s.claims[s.pc.next].(status := Running)]);
      assert Next(c, s, Spawn, s');
    }
  }

  /**
   When a runner is joined, every task it was given went to a handler and was settled by
   exactly one operation; and the rows staged in its worker's name are exactly those
   stranded by a claim that failed after the backend had made it.
   */
  lemma JoinedIsDrained(c: Config, states: seq<State>, steps: seq<Step>, k: nat)
    requires IsRun(c, states, steps) && k < |states| && states[k].pc.Joined?
    ensures forall i | 0 <= i < |states[k].claims| :: states[k].claims[i].status.Stranded?
              || (states[k].claims[i].status.Released?
                  && Settles(states[k].claims[i].status.op, states[k].claims[i].record))
    ensures forall id :: StagedFor(states[k].board, c.worker, id) <==> IsStranded(states[k], id)
  {
    RunKeepsInv(c, states, steps, k);
    JoinedHasSettled(c, states[k]);
  }

  /** Nothing is stranded, and nothing is half claimed. */
  predicate Whole(s: State) {
    && (forall i | 0 <= i < |s.claims| :: !s.claims[i].status.Stranded?)
    && (s.pc.Assigning? ==> s.pc.first == |s.claims|)
  }

  lemma StepKeepsWhole(c: Config, s: State, step: Step, s': State)
    requires Whole(s) && Control(c, s, step, s') && !step.AssignLost? && !step.Take?
    ensures Whole(s')
  {
  }

  /** Where each claim is one call that fails only as a whole, nothing is stranded. */
  lemma {:induction false} NoneStranded(c: Config, states: seq<State>, steps: seq<Step>, k: nat)
    requires IsRun(c, states, steps) && k < |states|
    requires forall i | 0 <= i < k :: !steps[i].AssignLost? && !steps[i].Take?
    ensures Whole(states[k])
  {
    if k > 0 {
      NoneStranded(c, states, steps, k - 1);
      StepKeepsWhole(c, states[k - 1], steps[k - 1], states[k]);
    }
  }
}
