/**
 The heartbeat services: workers are kept registered with an expiry, the restorer
 requeues the staged tasks of unregistered or expired workers, and the purger drops
 expired registrations. All of them read and write in separate steps, and interleave
 with each other and with the workers.
 */
module Detector {
  import opened Tasks
  import opened Lifecycle
  import Runner

  const WORKER_TTL: nat := 15000

  /** A heartbeat on its way: the expiry was computed from the clock, and has yet to be stored. */
  datatype Refresh = Refresh(workers: set<WorkerId>, expiry: Timestamp)

  datatype StageRow = StageRow(id: TaskId, worker: WorkerId)

  /**
   One sweep of a restorer. `listedAt` and `prompt` only record when the stage was
   listed and which workers were punctual then.
   */
  datatype Sweep =
    | Idle
    | Listed(rows: seq<StageRow>, listedAt: Timestamp, prompt: set<WorkerId>)
    | Timed(rows: seq<StageRow>, listedAt: Timestamp, prompt: set<WorkerId>, now: Timestamp)
    | Restoring(rows: seq<StageRow>, active: set<WorkerId>)

  /** A purge: what it read and when, then whom it will remove. */
  datatype Purge = Seen(expiry: map<WorkerId, Timestamp>, at: Timestamp) | Dead(workers: set<WorkerId>)

  /**
   `landed` records the last expiry stored for each worker, and `lapsed` the workers
   who at some moment were within `gap` of it; no step depends on either.
   */
  datatype State = State(
    now: Timestamp,
    board: Board,
    expiry: map<WorkerId, Timestamp>,
    stopped: set<WorkerId>,
    refreshes: seq<Refresh>,
    sweeps: seq<Sweep>,
    purges: seq<Purge>,
    landed: map<WorkerId, Timestamp>,
    lapsed: set<WorkerId>
  )

  datatype Step =
    | Tick(to: Timestamp)
    | Stop(worker: WorkerId)
    | BeginRefresh(workers: set<WorkerId>)
    | LandRefresh(index: nat)
    | LoseRefresh(index: nat)
    | Work(worker: WorkerId, event: Event)
    | Client(event: Event)
    | ListStage(sweep: nat, rows: seq<StageRow>)
    | ReadClock(sweep: nat)
    | ListWorkers(sweep: nat)
    | RestoreNext(sweep: nat, blind: bool)
    | EndSweep(sweep: nat)
    | ReadWorkers
    | ChooseDead(purge: nat)
    | PurgeDead(purge: nat)

  /** A worker's calls: claims in its name, and settling tasks. */
  predicate IsWork(worker: WorkerId, op: Op) {
    match op
    case AssignTasks(_, w, _, _) => w == worker
    case RetryTask(_) => true
    case Finish(_, _, _) => true
    case DiscardTasks(_) => true
    case _ => false
  }

  function Targets(op: Op): set<TaskId> {
    match op
    case RetryTask(r) => {r.info.id}
    case Finish(r, _, _) => {r.info.id}
    case DiscardTasks(ids) => set id | id in ids
    case _ => {}
  }

  /** The worker holds what it settles, with the record it settles. */
  predicate Rightful(b: Board, worker: WorkerId, op: Op) {
    Disciplined(b, op) && forall id | id in Targets(op) :: StagedFor(b, worker, id)
  }

  /** What a backend may make of settling tasks that are not the worker's: they leave the stage, others stay. */
  ghost predicate Disposes(b: Board, ids: set<TaskId>, b': Board) {
    && Keyed(b') && (forall id | id in ids :: !IsStagedIn(b', id))
    && forall id | id !in ids :: (id in b' <==> id in b) && (id in b ==> b'[id] == b[id])
  }

  /** Everyone else's calls: new tasks, and discarding finished ones. */
  predicate IsClient(b: Board, op: Op) {
    match op
    case PutTasks(_) => true
    case DiscardTasks(ids) => forall id | id in ids && id in b :: b[id].phase.Done?
    case _ => false
  }

  function Register(m: map<WorkerId, Timestamp>, workers: set<WorkerId>, expiry: Timestamp): map<WorkerId, Timestamp> {
    map v | v in m.Keys + workers :: if v in workers then expiry else m[v]
  }

  function Overdue(landed: map<WorkerId, Timestamp>, until: Timestamp): set<WorkerId> {
    set v | v in landed && landed[v] < until
  }

  function Active(expiry: map<WorkerId, Timestamp>, now: Timestamp): set<WorkerId> {
    set v | v in expiry && expiry[v] >= now
  }

  /**
   The task goes back to the queue if it is staged. One that is not staged is left alone
   in memory, and requeued blindly, whatever its state, by the Redis and SQL backends.
   */
  function Restored(b: Board, id: TaskId, blind: bool): Board {
    if id in b && (b[id].phase.Staged? || blind) then b[id := b[id].(phase := Queued)] else b
  }

  /** Rows of the stage, each listed once, in any order and not necessarily all. */
  predicate IsStageList(b: Board, rows: seq<StageRow>) {
    && (forall i | 0 <= i < |rows| :: StagedFor(b, rows[i].worker, rows[i].id))
    && (forall i, j | 0 <= i < j < |rows| :: rows[i].id != rows[j].id)
  }

  function Without<T>(s: seq<T>, i: nat): seq<T>
    requires i < |s|
  {
    s[..i] + s[i + 1..]
  }

  ghost predicate Next(gap: nat, s: State, step: Step, s': State) {
    match step
    case Tick(to) => s.now <= to && s' == s.(now := to, lapsed := s.lapsed + Overdue(s.landed, to + gap))
    case Stop(w) => s' == s.(stopped := s.stopped + {w})
    case BeginRefresh(workers) =>
      && (forall i | 0 <= i < |s.refreshes| :: s.refreshes[i].workers !! workers)
      && s' == s.(refreshes := s.refreshes + [Refresh(workers - s.stopped, s.now + WORKER_TTL)])
    case LandRefresh(i) =>
      && i < |s.refreshes|
      && var r := s.refreshes[i];
         var landed := Register(s.landed, r.workers, r.expiry);
         s' == s.(refreshes := Without(s.refreshes, i), expiry := Register(s.expiry, r.workers, r.expiry),
                  landed := landed, lapsed := s.lapsed + Overdue(landed, s.now + gap))
    case LoseRefresh(i) => i < |s.refreshes| && s' == s.(refreshes := Without(s.refreshes, i))
    case Work(w, event) =>
      && IsWork(w, event.op) && s' == s.(board := s'.board)
      && if Rightful(s.board, w, event.op) then Moves(s.board, event, s'.board)
         else Disposes(s.board, Targets(event.op), s'.board)
    case Client(event) =>
      && IsClient(s.board, event.op)
      && Lifecycle.Next(s.board, event, s'.board) && s' == s.(board := s'.board)
    case ListStage(i, rows) =>
      && i < |s.sweeps| && s.sweeps[i].Idle? && IsStageList(s.board, rows)
      && s' == s.(sweeps := s.sweeps[i := Listed(rows, s.now, s.landed.Keys - s.lapsed)])
    case ReadClock(i) =>
      && i < |s.sweeps| && s.sweeps[i].Listed?
      && var sw := s.sweeps[i];
         s' == s.(sweeps := s.sweeps[i := Timed(sw.rows, sw.listedAt, sw.prompt, s.now)])
    case ListWorkers(i) =>
      && i < |s.sweeps| && s.sweeps[i].Timed?
      && s' == s.(sweeps := s.sweeps[i := Restoring(s.sweeps[i].rows, Active(s.expiry, s.sweeps[i].now))])
    case RestoreNext(i, blind) =>
      && i < |s.sweeps| && s.sweeps[i].Restoring? && s.sweeps[i].rows != []
      && var sw := s.sweeps[i];
         s' == s.(sweeps := s.sweeps[i := Restoring(sw.rows[1..], sw.active)],
                  board := if sw.rows[0].worker in sw.active then s.board
                           else Restored(s.board, sw.rows[0].id, blind))
    case EndSweep(i) => i < |s.sweeps| && s' == s.(sweeps := s.sweeps[i := Idle])
    case ReadWorkers => s' == s.(purges := s.purges + [Seen(s.expiry, s.now)])
    case ChooseDead(i) =>
      && i < |s.purges| && s.purges[i].Seen?
      && s' == s.(purges := s.purges[i := Dead(Overdue(s.purges[i].expiry, s.now))])
    case PurgeDead(i) =>
      && i < |s.purges| && s.purges[i].Dead?
      && s' == s.(purges := Without(s.purges, i), expiry := s.expiry - s.purges[i].workers)
  }

  ghost predicate Starts(s: State) {
    && Keyed(s.board) && (forall id :: !IsStagedIn(s.board, id))
    && s.expiry == s.landed == map[] && s.refreshes == [] && s.purges == [] && s.lapsed == {}
    && forall i | 0 <= i < |s.sweeps| :: s.sweeps[i].Idle?
  }

  ghost predicate IsRun(gap: nat, states: seq<State>, steps: seq<Step>) {
    && |states| == |steps| + 1 && Starts(states[0])
    && forall i | 0 <= i < |steps| :: Next(gap, states[i], steps[i], states[i + 1])
  }

  // ---- the tasks a worker holds ----

  /** Calls by others leave a worker's tasks staged, and never stage one in its name. */
  lemma StagedUnlessOwn(b: Board, e: Event, b': Board, actor: WorkerId, w: WorkerId, id: TaskId)
    requires Keyed(b) && Disciplined(b, e.op) && Moves(b, e, b')
    requires IsClient(b, e.op) || (IsWork(actor, e.op) && Rightful(b, actor, e.op) && actor != w)
    ensures StagedFor(b', w, id) <==> StagedFor(b, w, id)
    ensures StagedFor(b, w, id) ==> b'[id] == b[id]
  {
    match e.op
    case PutTasks(rs) => PutAllKeeps(b, rs);
    case AssignTasks(_, _, _, _) =>
      if id in ClaimedIds(e.claims) {
        var i :| 0 <= i < |e.claims| && e.claims[i].Id() == id;
      }
    case RetryTask(r) => assert r.info.id in Targets(e.op);
    case Finish(r, _, _) => assert r.info.id in Targets(e.op);
    case DiscardTasks(ids) => assert id in ids ==> id in Targets(e.op);
    case _ =>
  }

  // ---- one punctual worker ----

  predicate PurgeOk(gap: nat, s: State, p: Purge, w: WorkerId) {
    match p
    case Seen(m, at) => at <= s.now && (w in m && w !in s.lapsed ==> m[w] >= at + gap)
    case Dead(workers) => w in workers ==> w in s.lapsed
  }

  predicate SweepOk(s: State, sw: Sweep, w: WorkerId) {
    match sw
    case Idle => true
    case Listed(rows, _, _) => forall i | 0 <= i < |rows| && rows[i].worker == w :: w in s.landed
    case Timed(rows, _, _, at) => at <= s.now && forall i | 0 <= i < |rows| && rows[i].worker == w :: w in s.landed
    case Restoring(rows, active) => forall i | 0 <= i < |rows| && rows[i].worker == w && w !in s.lapsed :: w in active
  }

  predicate Live(gap: nat, s: State, w: WorkerId) {
    && (w in s.expiry ==> w in s.landed && s.expiry[w] == s.landed[w])
    && (w in s.landed && w !in s.lapsed ==> w in s.expiry && s.now + gap <= s.landed[w])
  }

  ghost predicate HoldsAfterLanding(s: State, w: WorkerId) {
    Keyed(s.board) && forall id | StagedFor(s.board, w, id) :: w in s.landed
  }

  ghost predicate Watched(gap: nat, s: State, w: WorkerId) {
    && (forall i | 0 <= i < |s.purges| :: PurgeOk(gap, s, s.purges[i], w))
    && (forall i | 0 <= i < |s.sweeps| :: SweepOk(s, s.sweeps[i], w))
  }

  /** The worker is registered while punctual, and no purge or sweep is about to miss it. */
  ghost predicate Registered(gap: nat, s: State, w: WorkerId) {
    Live(gap, s, w) && HoldsAfterLanding(s, w) && Watched(gap, s, w)
  }

  /** What one worker needs: refreshed before it works, and purges read the clock within `gap`. */
  predicate Prudent(gap: nat, s: State, step: Step, w: WorkerId) {
    && (step.Work? && step.worker == w ==> w in s.landed)
    && (step.ChooseDead? && step.purge < |s.purges| && s.purges[step.purge].Seen? ==>
          s.now <= s.purges[step.purge].at + gap)
  }

  lemma StepKeepsLive(gap: nat, s: State, step: Step, s': State, w: WorkerId)
    requires Registered(gap, s, w) && Next(gap, s, step, s')
    ensures Live(gap, s', w)
  {
    if step.PurgeDead? {
      assert PurgeOk(gap, s, s.purges[step.purge], w);
    } else if step.LandRefresh? {
      LandKeepsLive(gap, s, step.index, s', w);
    }
  }

  lemma LandKeepsLive(gap: nat, s: State, i: nat, s': State, w: WorkerId)
    requires Live(gap, s, w) && Next(gap, s, LandRefresh(i), s')
    ensures Live(gap, s', w)
  {
  }

  lemma WorkKeepsHolding(gap: nat, s: State, step: Step, s': State, w: WorkerId)
    requires HoldsAfterLanding(s, w) && Next(gap, s, step, s') && Prudent(gap, s, step, w) && step.Work?
    ensures HoldsAfterLanding(s', w)
  {
    var v, event := step.worker, step.event;
    if Rightful(s.board, v, event.op) {
      StepKeepsKeys(s.board, event, s'.board);
      forall id | StagedFor(s'.board, w, id) ensures w in s.landed {
        if v != w {
          StagedUnlessOwn(s.board, event, s'.board, v, w, id);
        }
      }
    } else {
      forall id | StagedFor(s'.board, w, id) ensures StagedFor(s.board, w, id) {
        assert IsStagedIn(s'.board, id);
      }
    }
  }

  lemma StepKeepsHolding(gap: nat, s: State, step: Step, s': State, w: WorkerId)
    requires Registered(gap, s, w) && Next(gap, s, step, s') && Prudent(gap, s, step, w)
    ensures HoldsAfterLanding(s', w)
  {
    match step
    case Work(_, _) => WorkKeepsHolding(gap, s, step, s', w);
    case Client(event) =>
      StepKeepsKeys(s.board, event, s'.board);
      forall id | StagedFor(s'.board, w, id) ensures w in s.landed {
        StagedUnlessOwn(s.board, event, s'.board, "", w, id);
      }
    case RestoreNext(_, _) =>
      assert forall id | StagedFor(s'.board, w, id) :: StagedFor(s.board, w, id);
    case _ =>
  }

  predicate IsSweeping(step: Step) {
    step.ListStage? || step.ReadClock? || step.ListWorkers? || step.RestoreNext? || step.EndSweep?
  }

  lemma ClocksOnlyAdvance(gap: nat, s: State, step: Step, s': State)
    requires Next(gap, s, step, s')
    ensures s.now <= s'.now && s.landed.Keys <= s'.landed.Keys && s.lapsed <= s'.lapsed
    ensures !IsSweeping(step) ==> s'.sweeps == s.sweeps
  {
  }

  lemma PurgingKeepsPurges(gap: nat, s: State, step: Step, s': State, w: WorkerId, i: nat)
    requires Registered(gap, s, w) && Next(gap, s, step, s') && Prudent(gap, s, step, w) && i < |s'.purges|
    requires step.ReadWorkers? || step.ChooseDead?
    ensures PurgeOk(gap, s', s'.purges[i], w)
  {
    if i < |s.purges| {
      assert PurgeOk(gap, s, s.purges[i], w);
    }
  }

  lemma StepKeepsPurges(gap: nat, s: State, step: Step, s': State, w: WorkerId, i: nat)
    requires Registered(gap, s, w) && Next(gap, s, step, s') && Prudent(gap, s, step, w) && i < |s'.purges|
    ensures PurgeOk(gap, s', s'.purges[i], w)
  {
    ClocksOnlyAdvance(gap, s, step, s');
    if step.ReadWorkers? || step.ChooseDead? {
      PurgingKeepsPurges(gap, s, step, s', w, i);
    } else {
      assert PurgeOk(gap, s, s.purges[if step.PurgeDead? && i >= step.purge then i + 1 else i], w);
    }
  }

  lemma StepKeepsSweeps(gap: nat, s: State, step: Step, s': State, w: WorkerId, i: nat)
    requires Registered(gap, s, w) && Next(gap, s, step, s') && i < |s'.sweeps|
    ensures SweepOk(s', s'.sweeps[i], w)
  {
    ClocksOnlyAdvance(gap, s, step, s');
    if IsSweeping(step) {
      SweepingKeepsSweeps(gap, s, step, s', w, i);
    } else {
      assert SweepOk(s, s.sweeps[i], w);
    }
  }

  lemma SweepingKeepsSweeps(gap: nat, s: State, step: Step, s': State, w: WorkerId, i: nat)
    requires Registered(gap, s, w) && Next(gap, s, step, s') && IsSweeping(step) && i < |s'.sweeps|
    ensures SweepOk(s', s'.sweeps[i], w)
  {
    assert SweepOk(s, s.sweeps[i], w);
    if i == step.sweep {
      SweepMovesOn(gap, s, step, s', w);
    } else {
      assert s'.sweeps[i] == s.sweeps[i];
    }
  }

  lemma SweepMovesOn(gap: nat, s: State, step: Step, s': State, w: WorkerId)
    requires Live(gap, s, w) && HoldsAfterLanding(s, w) && Next(gap, s, step, s') && IsSweeping(step)
    requires step.sweep < |s.sweeps| && SweepOk(s, s.sweeps[step.sweep], w)
    ensures step.sweep < |s'.sweeps| && SweepOk(s', s'.sweeps[step.sweep], w)
  {
  }

  lemma StepKeepsRegistered(gap: nat, s: State, step: Step, s': State, w: WorkerId)
    requires Registered(gap, s, w) && Next(gap, s, step, s') && Prudent(gap, s, step, w)
    ensures Registered(gap, s', w)
  {
    StepKeepsLive(gap, s, step, s', w);
    StepKeepsHolding(gap, s, step, s', w);
    forall i | 0 <= i < |s'.purges| ensures PurgeOk(gap, s', s'.purges[i], w) {
      StepKeepsPurges(gap, s, step, s', w, i);
    }
    forall i | 0 <= i < |s'.sweeps| ensures SweepOk(s', s'.sweeps[i], w) {
      StepKeepsSweeps(gap, s, step, s', w, i);
    }
  }

  lemma StartIsRegistered(gap: nat, s: State, w: WorkerId)
    requires Starts(s)
    ensures Registered(gap, s, w)
  {
    assert forall id :: StagedFor(s.board, w, id) ==> IsStagedIn(s.board, id);
  }

  lemma {:induction false} RunKeepsRegistered(gap: nat, states: seq<State>, steps: seq<Step>, w: WorkerId, k: nat)
    requires IsRun(gap, states, steps) && k < |states|
    requires forall i | 0 <= i < k :: Prudent(gap, states[i], steps[i], w)
    ensures Registered(gap, states[k], w)
  {
    if k == 0 {
      StartIsRegistered(gap, states[0], w);
    } else {
      RunKeepsRegistered(gap, states, steps, w, k - 1);
      StepKeepsRegistered(gap, states[k - 1], steps[k - 1], states[k], w);
    }
  }

  /** A punctual worker is never purged, whatever the other workers do. */
  lemma PunctualIsNeverPurged(gap: nat, states: seq<State>, steps: seq<Step>, w: WorkerId, k: nat)
    requires IsRun(gap, states, steps) && k < |states|
    requires forall i | 0 <= i < k :: Prudent(gap, states[i], steps[i], w)
    requires w in states[k].landed && w !in states[k].lapsed
    ensures w in states[k].expiry && states[k].expiry[w] == states[k].landed[w] >= states[k].now + gap
  {
    RunKeepsRegistered(gap, states, steps, w, k);
  }

  /** The step restores a row that a worker holds, but that was listed as another, inactive worker's. */
  predicate TakesOver(s: State, step: Step, w: WorkerId, id: TaskId) {
    && step.RestoreNext? && step.sweep < |s.sweeps|
    && s.sweeps[step.sweep].Restoring? && s.sweeps[step.sweep].rows != []
    && var row := s.sweeps[step.sweep].rows[0];
       row.id == id && row.worker != w && row.worker !in s.sweeps[step.sweep].active
  }

  /** Another worker settles the task although it does not hold it (any more). */
  predicate Intrudes(s: State, step: Step, w: WorkerId, id: TaskId) {
    step.Work? && step.worker != w && !Rightful(s.board, step.worker, step.event.op) && id in Targets(step.event.op)
  }

  /**
   A punctual worker loses a task exactly when a sweep restores a row that changed
   hands after it was listed, or when another worker settles what it lost itself;
   never on its own account.
   */
  lemma PunctualLosesWhatChangedHands(gap: nat, states: seq<State>, steps: seq<Step>, w: WorkerId, k: nat, id: TaskId)
    requires IsRun(gap, states, steps) && k < |steps|
    requires forall i | 0 <= i < k :: Prudent(gap, states[i], steps[i], w)
    requires w !in states[k].lapsed && StagedFor(states[k].board, w, id) && !(steps[k].Work? && steps[k].worker == w)
    ensures !StagedFor(states[k + 1].board, w, id)
            <==> TakesOver(states[k], steps[k], w, id) || Intrudes(states[k], steps[k], w, id)
  {
    RunKeepsRegistered(gap, states, steps, w, k);
    StepLoses(gap, states[k], steps[k], states[k + 1], w, id);
  }

  lemma StepLoses(gap: nat, s: State, step: Step, s': State, w: WorkerId, id: TaskId)
    requires Registered(gap, s, w) && Next(gap, s, step, s')
    requires w !in s.lapsed && StagedFor(s.board, w, id) && !(step.Work? && step.worker == w)
    ensures !StagedFor(s'.board, w, id) <==> TakesOver(s, step, w, id) || Intrudes(s, step, w, id)
    ensures StagedFor(s'.board, w, id) ==> s'.board[id] == s.board[id]
  {
    match step
    case Work(v, event) =>
      if Rightful(s.board, v, event.op) {
        StagedUnlessOwn(s.board, event, s'.board, v, w, id);
      }
    case Client(event) => StagedUnlessOwn(s.board, event, s'.board, "", w, id);
    case RestoreNext(i, _) => assert SweepOk(s, s.sweeps[i], w);
    case _ =>
  }

  // ---- all workers, one restorer ----

  /** Workers call the backend only while punctual, and for what they hold; sweeps and purges read quickly. */
  predicate Timely(gap: nat, s: State, step: Step) {
    match step
    case Work(w, event) => w in s.landed && w !in s.lapsed && Rightful(s.board, w, event.op)
    case ChooseDead(i) => i < |s.purges| && s.purges[i].Seen? ==> s.now <= s.purges[i].at + gap
    case ListWorkers(i) => i < |s.sweeps| && s.sweeps[i].Timed? ==> s.now <= s.sweeps[i].listedAt + gap
    case _ => true
  }

  /** Heartbeats are stored in the order they were computed. */
  ghost predicate Ordered(s: State) {
    && (forall v | v in s.landed :: s.landed[v] <= s.now + WORKER_TTL)
    && (forall i | 0 <= i < |s.refreshes| ::
          var r := s.refreshes[i];
          r.expiry <= s.now + WORKER_TTL && forall v | v in r.workers && v in s.landed :: s.landed[v] <= r.expiry)
    && (forall i, j | 0 <= i < j < |s.refreshes| :: s.refreshes[i].workers !! s.refreshes[j].workers)
  }

  lemma LandingKeepsOrdered(gap: nat, s: State, step: Step, s': State)
    requires Ordered(s) && Next(gap, s, step, s') && (step.LandRefresh? || step.LoseRefresh?)
    ensures Ordered(s')
  {
    var n := step.index;
    forall i | 0 <= i < |s'.refreshes|
      ensures s'.refreshes[i] == s.refreshes[if i < n then i else i + 1]
    {
    }
  }

  lemma StepKeepsOrdered(gap: nat, s: State, step: Step, s': State)
    requires Ordered(s) && Next(gap, s, step, s')
    ensures Ordered(s')
  {
    if step.LandRefresh? || step.LoseRefresh? {
      LandingKeepsOrdered(gap, s, step, s');
    } else if step.BeginRefresh? {
      BeginKeepsOrdered(gap, s, step.workers, s');
    }
  }

  lemma BeginKeepsOrdered(gap: nat, s: State, workers: set<WorkerId>, s': State)
    requires Ordered(s) && Next(gap, s, BeginRefresh(workers), s')
    ensures Ordered(s')
  {
  }

  /** Rows whose worker is not trusted are still held by it, and it has lapsed. */
  predicate RowsOk(s: State, rows: seq<StageRow>, trusted: set<WorkerId>) {
    && (forall i | 0 <= i < |rows| && rows[i].worker !in trusted ::
          rows[i].worker in s.lapsed && StagedFor(s.board, rows[i].worker, rows[i].id))
    && (forall i, j | 0 <= i < j < |rows| :: rows[i].id != rows[j].id)
  }

  predicate Spares(gap: nat, s: State, p: Purge, listedAt: Timestamp, v: WorkerId) {
    match p
    case Seen(m, at) => v in m ==> m[v] >= at + gap || m[v] >= listedAt + gap
    case Dead(workers) => s.now <= listedAt + gap ==> v !in workers
  }

  /** A worker punctual at the listing stays registered for `gap` after it. */
  ghost predicate Kept(gap: nat, s: State, listedAt: Timestamp, v: WorkerId) {
    && v in s.landed && s.landed[v] >= listedAt + gap
    && (s.now <= listedAt + gap ==> v in s.expiry)
    && forall i | 0 <= i < |s.purges| :: Spares(gap, s, s.purges[i], listedAt, v)
  }

  ghost predicate SweepIsSafe(gap: nat, s: State, sw: Sweep) {
    match sw
    case Idle => true
    case Listed(rows, listedAt, prompt) =>
      RowsOk(s, rows, prompt) && forall v | v in prompt :: Kept(gap, s, listedAt, v)
    case Timed(rows, listedAt, prompt, now) =>
      now <= s.now && RowsOk(s, rows, prompt) && forall v | v in prompt :: Kept(gap, s, listedAt, v)
    case Restoring(rows, active) => RowsOk(s, rows, active)
  }

  ghost predicate Safe(gap: nat, s: State) {
    && Ordered(s) && (forall w :: Registered(gap, s, w))
    && |s.sweeps| == 1 && SweepIsSafe(gap, s, s.sweeps[0])
  }

  lemma PurgingSpares(gap: nat, s: State, step: Step, s': State, listedAt: Timestamp, v: WorkerId, i: nat)
    requires Registered(gap, s, v) && Next(gap, s, step, s') && Timely(gap, s, step)
    requires Kept(gap, s, listedAt, v) && i < |s'.purges| && (step.ReadWorkers? || step.ChooseDead?)
    ensures Spares(gap, s', s'.purges[i], listedAt, v)
  {
    if i < |s.purges| {
      assert Spares(gap, s, s.purges[i], listedAt, v);
    }
  }

  lemma PurgeStillSpares(gap: nat, s: State, step: Step, s': State, listedAt: Timestamp, v: WorkerId, i: nat)
    requires Registered(gap, s, v) && Next(gap, s, step, s') && Timely(gap, s, step)
    requires Kept(gap, s, listedAt, v) && i < |s'.purges|
    ensures Spares(gap, s', s'.purges[i], listedAt, v)
  {
    ClocksOnlyAdvance(gap, s, step, s');
    if step.ReadWorkers? || step.ChooseDead? {
      PurgingSpares(gap, s, step, s', listedAt, v, i);
    } else {
      assert Spares(gap, s, s.purges[if step.PurgeDead? && i >= step.purge then i + 1 else i], listedAt, v);
    }
  }

  lemma StepKeepsKept(gap: nat, s: State, step: Step, s': State, listedAt: Timestamp, v: WorkerId)
    requires Ordered(s) && Registered(gap, s, v) && Next(gap, s, step, s') && Timely(gap, s, step)
    requires Kept(gap, s, listedAt, v)
    ensures Kept(gap, s', listedAt, v)
  {
    forall i | 0 <= i < |s'.purges| ensures Spares(gap, s', s'.purges[i], listedAt, v) {
      PurgeStillSpares(gap, s, step, s', listedAt, v, i);
    }
    if step.PurgeDead? {
      assert Spares(gap, s, s.purges[step.purge], listedAt, v);
    }
    KeptStaysStored(gap, s, step, s', listedAt, v);
  }

  lemma KeptStaysStored(gap: nat, s: State, step: Step, s': State, listedAt: Timestamp, v: WorkerId)
    requires Ordered(s) && Next(gap, s, step, s') && Kept(gap, s, listedAt, v)
    requires step.PurgeDead? ==> step.purge < |s.purges| && Spares(gap, s, s.purges[step.purge], listedAt, v)
    ensures v in s'.landed && s'.landed[v] >= listedAt + gap && (s'.now <= listedAt + gap ==> v in s'.expiry)
  {
  }

  lemma StepKeepsRows(gap: nat, s: State, step: Step, s': State, rows: seq<StageRow>, trusted: set<WorkerId>)
    requires Keyed(s.board) && Next(gap, s, step, s') && Timely(gap, s, step) && !step.RestoreNext?
    requires RowsOk(s, rows, trusted)
    ensures RowsOk(s', rows, trusted)
  {
    forall i | 0 <= i < |rows| && rows[i].worker !in trusted
      ensures rows[i].worker in s'.lapsed && StagedFor(s'.board, rows[i].worker, rows[i].id)
    {
      match step
      case Work(v, event) => StagedUnlessOwn(s.board, event, s'.board, v, rows[i].worker, rows[i].id);
      case Client(event) => StagedUnlessOwn(s.board, event, s'.board, "", rows[i].worker, rows[i].id);
      case _ =>
    }
  }

  lemma RestoringIsSafe(gap: nat, s: State, step: Step, s': State)
    requires Safe(gap, s) && Next(gap, s, step, s') && step.RestoreNext?
    ensures |s'.sweeps| == 1 && SweepIsSafe(gap, s', s'.sweeps[0])
  {
  }

  lemma ListingIsSafe(gap: nat, s: State, step: Step, s': State)
    requires Safe(gap, s) && Next(gap, s, step, s') && step.ListStage?
    ensures |s'.sweeps| == 1 && SweepIsSafe(gap, s', s'.sweeps[0])
  {
    var prompt := s.landed.Keys - s.lapsed;
    forall v | v in prompt ensures Kept(gap, s', s.now, v) {
      assert Registered(gap, s, v);
      forall i | 0 <= i < |s'.purges| ensures Spares(gap, s', s'.purges[i], s.now, v) {
        assert PurgeOk(gap, s, s.purges[i], v);
      }
    }
    forall i | 0 <= i < |step.rows| && step.rows[i].worker !in prompt ensures step.rows[i].worker in s'.lapsed {
      assert Registered(gap, s, step.rows[i].worker);
    }
  }

  lemma ActiveIsSafe(gap: nat, s: State, step: Step, s': State)
    requires Safe(gap, s) && Next(gap, s, step, s') && Timely(gap, s, step) && step.ListWorkers?
    ensures |s'.sweeps| == 1 && SweepIsSafe(gap, s', s'.sweeps[0])
  {
    var sw := s.sweeps[0];
    forall v | v in sw.prompt ensures v in Active(s.expiry, sw.now) {
      assert Kept(gap, s, sw.listedAt, v);
      assert Registered(gap, s, v);
    }
  }

  lemma PromptAreKept(gap: nat, s: State, step: Step, s': State, prompt: set<WorkerId>, listedAt: Timestamp)
    requires Safe(gap, s) && Next(gap, s, step, s') && Timely(gap, s, step)
    requires forall v | v in prompt :: Kept(gap, s, listedAt, v)
    ensures forall v | v in prompt :: Kept(gap, s', listedAt, v)
  {
    forall v | v in prompt ensures Kept(gap, s', listedAt, v) {
      assert Registered(gap, s, v);
      StepKeepsKept(gap, s, step, s', listedAt, v);
    }
  }

  lemma StepKeepsSweepSafe(gap: nat, s: State, step: Step, s': State)
    requires Safe(gap, s) && Next(gap, s, step, s') && Timely(gap, s, step)
    requires !step.ListStage? && !step.ListWorkers? && !step.RestoreNext?
    ensures |s'.sweeps| == 1 && SweepIsSafe(gap, s', s'.sweeps[0])
  {
    assert Registered(gap, s, "");
    var sw := s.sweeps[0];
    if !sw.Idle? {
      StepKeepsRows(gap, s, step, s', sw.rows, if sw.Restoring? then sw.active else sw.prompt);
    }
    if sw.Listed? || sw.Timed? {
      PromptAreKept(gap, s, step, s', sw.prompt, sw.listedAt);
    }
  }

  lemma StepKeepsSafe(gap: nat, s: State, step: Step, s': State)
    requires Safe(gap, s) && Next(gap, s, step, s') && Timely(gap, s, step)
    ensures Safe(gap, s')
  {
    StepKeepsOrdered(gap, s, step, s');
    forall w ensures Registered(gap, s', w) {
      assert Registered(gap, s, w);
      StepKeepsRegistered(gap, s, step, s', w);
    }
    if step.ListStage? {
      ListingIsSafe(gap, s, step, s');
    } else if step.ListWorkers? {
      ActiveIsSafe(gap, s, step, s');
    } else if step.RestoreNext? {
      RestoringIsSafe(gap, s, step, s');
    } else {
      StepKeepsSweepSafe(gap, s, step, s');
    }
  }

  lemma StartIsSafe(gap: nat, s: State)
    requires Starts(s) && |s.sweeps| == 1
    ensures Safe(gap, s)
  {
    forall w ensures Registered(gap, s, w) {
      StartIsRegistered(gap, s, w);
    }
  }

  /** The backend call a step makes, if any. */
  function EventOf(s: State, step: Step): Option<Event> {
    match step
    case Work(_, event) => Some(event)
    case Client(event) => Some(event)
    case RestoreNext(i, _) =>
      if i < |s.sweeps| && s.sweeps[i].Restoring? && s.sweeps[i].rows != []
         && s.sweeps[i].rows[0].worker !in s.sweeps[i].active
      then Some(Event(Restore(s.sweeps[i].rows[0].id), []))
      else None
    case _ => None
  }

  /** The row a sweep restores, if the step does. */
  ghost predicate Restores(s: State, step: Step, row: StageRow) {
    && step.RestoreNext? && step.sweep < |s.sweeps|
    && s.sweeps[step.sweep].Restoring? && s.sweeps[step.sweep].rows != []
    && s.sweeps[step.sweep].rows[0] == row && row.worker !in s.sweeps[step.sweep].active
  }

  /** What is restored is still held by the worker it was listed for, and that worker has lapsed. */
  lemma SafeRestores(gap: nat, s: State, step: Step, row: StageRow)
    requires Safe(gap, s) && Restores(s, step, row)
    ensures EventOf(s, step) == Some(Event(Restore(row.id), []))
    ensures row.worker in s.lapsed && StagedFor(s.board, row.worker, row.id) && Disciplined(s.board, Restore(row.id))
  {
  }

  /** So a punctual worker keeps its tasks until it settles them itself. */
  lemma SafeKeepsTasks(gap: nat, s: State, step: Step, s': State, w: WorkerId, id: TaskId)
    requires Safe(gap, s) && Next(gap, s, step, s') && Timely(gap, s, step)
    requires w !in s.lapsed && StagedFor(s.board, w, id) && !(step.Work? && step.worker == w)
    ensures StagedFor(s'.board, w, id) && s'.board[id] == s.board[id]
  {
    assert Registered(gap, s, w);
    StepLoses(gap, s, step, s', w, id);
    if TakesOver(s, step, w, id) {
      SafeRestores(gap, s, step, s.sweeps[step.sweep].rows[0]);
    }
  }

  lemma NoneAppears(gap: nat, s: State, step: Step, s': State, w: WorkerId, id: TaskId)
    requires Keyed(s.board) && Next(gap, s, step, s') && Timely(gap, s, step)
    requires !(step.Work? && step.worker == w) && StagedFor(s'.board, w, id)
    ensures StagedFor(s.board, w, id)
  {
    match step
    case Work(v, event) => StagedUnlessOwn(s.board, event, s'.board, v, w, id);
    case Client(event) => StagedUnlessOwn(s.board, event, s'.board, "", w, id);
    case _ =>
  }

  /** This is what the fetch loop of a punctual worker assumes of everyone else. */
  lemma SafeLeavesAlone(gap: nat, s: State, step: Step, s': State, w: WorkerId)
    requires Safe(gap, s) && Next(gap, s, step, s') && Timely(gap, s, step)
    requires w !in s.lapsed && !(step.Work? && step.worker == w)
    ensures Runner.LeavesAlone(s.board, s'.board, w)
  {
    assert Registered(gap, s, w);
    forall id
      ensures StagedFor(s.board, w, id) ==> id in s'.board && s'.board[id] == s.board[id]
      ensures StagedFor(s'.board, w, id) ==> StagedFor(s.board, w, id)
    {
      if StagedFor(s.board, w, id) {
        SafeKeepsTasks(gap, s, step, s', w, id);
      }
      if StagedFor(s'.board, w, id) {
        NoneAppears(gap, s, step, s', w, id);
      }
    }
  }

  /** And a call, restores included, is one the backends' invariants allow. */
  lemma SafeCalls(gap: nat, s: State, step: Step, s': State)
    requires Safe(gap, s) && Next(gap, s, step, s') && Timely(gap, s, step)
    ensures match EventOf(s, step)
            case None => s'.board == s.board
            case Some(event) => Disciplined(s.board, event.op) && Moves(s.board, event, s'.board)
  {
    if EventOf(s, step).Some? && step.RestoreNext? {
      SafeRestores(gap, s, step, s.sweeps[step.sweep].rows[0]);
    }
  }

  // ---- draining workers ----

  predicate InFlight(s: State, w: WorkerId) {
    exists i :: 0 <= i < |s.refreshes| && w in s.refreshes[i].workers
  }

  predicate Frozen(s: State, w: WorkerId, last: Timestamp) {
    w in s.stopped && w in s.landed && s.landed[w] == last && !InFlight(s, w)
  }

  lemma LandingSkipsStopped(gap: nat, s: State, step: Step, s': State, w: WorkerId, last: Timestamp)
    requires Next(gap, s, step, s') && Frozen(s, w, last) && (step.LandRefresh? || step.LoseRefresh?)
    ensures Frozen(s', w, last)
  {
    forall n | 0 <= n < |s'.refreshes| ensures w !in s'.refreshes[n].workers {
      assert s'.refreshes[n] == s.refreshes[if n < step.index then n else n + 1];
    }
  }

  lemma StepSkipsStopped(gap: nat, s: State, step: Step, s': State, w: WorkerId, last: Timestamp)
    requires Next(gap, s, step, s') && Frozen(s, w, last)
    ensures Frozen(s', w, last)
  {
    if step.LandRefresh? || step.LoseRefresh? {
      LandingSkipsStopped(gap, s, step, s', w, last);
    } else {
      forall n | 0 <= n < |s'.refreshes| ensures w !in s'.refreshes[n].workers {
        if n < |s.refreshes| {
          assert s'.refreshes[n] == s.refreshes[n];
        }
      }
    }
  }

  lemma {:induction false} FrozenFrom(states: seq<State>, w: WorkerId, i: nat, j: nat, last: Timestamp)
    requires i <= j < |states| && Frozen(states[i], w, last)
    requires forall k | i <= k < j :: Frozen(states[k], w, last) ==> Frozen(states[k + 1], w, last)
    ensures Frozen(states[j], w, last)
    decreases j
  {
    if i < j {
      FrozenFrom(states, w, i, j - 1, last);
    }
  }

  /** A stopped worker is not refreshed any more, even while it finishes its tasks. */
  lemma StoppedIsNotRefreshed(gap: nat, states: seq<State>, steps: seq<Step>, w: WorkerId, i: nat, j: nat,
                              last: Timestamp)
    requires IsRun(gap, states, steps) && i <= j < |states| && Frozen(states[i], w, last)
    ensures Frozen(states[j], w, last)
  {
    forall k | i <= k < j ensures Frozen(states[k], w, last) ==> Frozen(states[k + 1], w, last) {
      if Frozen(states[k], w, last) {
        StepSkipsStopped(gap, states[k], steps[k], states[k + 1], w, last);
      }
    }
    FrozenFrom(states, w, i, j, last);
  }

  /**
   A sweep finds a stopped worker inactive exactly when its registration is gone or its
   last expiry has passed, however busy it still is with its tasks.
   */
  lemma DrainingLapses(gap: nat, states: seq<State>, steps: seq<Step>, w: WorkerId, i: nat, j: nat, last: Timestamp)
    requires IsRun(gap, states, steps) && i <= j < |steps| && steps[j].ListWorkers? && Frozen(states[i], w, last)
    requires forall k | 0 <= k < j :: Prudent(gap, states[k], steps[k], w)
    ensures steps[j].sweep < |states[j].sweeps| && states[j].sweeps[steps[j].sweep].Timed?
    ensures steps[j].sweep < |states[j + 1].sweeps| && states[j + 1].sweeps[steps[j].sweep].Restoring?
    ensures w !in states[j + 1].sweeps[steps[j].sweep].active
            <==> w !in states[j].expiry || last < states[j].sweeps[steps[j].sweep].now
  {
    StoppedIsNotRefreshed(gap, states, steps, w, i, j, last);
    RunKeepsRegistered(gap, states, steps, w, j);
    assert Next(gap, states[j], steps[j], states[j + 1]);
  }

  /** The sweep takes a row it listed for a worker that still holds it exactly when it found the worker inactive. */
  lemma ListedIsTaken(gap: nat, s: State, step: Step, s': State, w: WorkerId, id: TaskId)
    requires Next(gap, s, step, s') && step.RestoreNext? && StagedFor(s.board, w, id)
    requires s.sweeps[step.sweep].rows[0] == StageRow(id, w)
    ensures StagedFor(s'.board, w, id) <==> w in s.sweeps[step.sweep].active
    ensures w !in s.sweeps[step.sweep].active ==> id in s'.board && s'.board[id].phase.Queued?
  {
  }
}
