/**
 The task lifecycle every backend implements: a task is queued, staged for one
 worker, done, or forgotten. `Next` is the contract of the backend operations on
 that simple table. The whole-run theorems need less of a claim (`Moves`): the memory
 and Redis backends follow `Next`, and interleaved SQL transactions follow `Moves`.
 */
module Lifecycle {
  import opened Tasks

  datatype Outcome = Succeeded(result: Bytes) | Failed(message: Bytes)

  datatype Phase =
    | Queued
    | Staged(worker: WorkerId, began: Timestamp)
    | Done(at: Timestamp, disposable: Timestamp, outcome: Outcome)

  datatype Row = Row(record: TaskRecord, phase: Phase)

  type Board = map<TaskId, Row>

  datatype Op =
    | PutTasks(records: seq<TaskRecord>)
    | AssignTasks(group: Group, worker: WorkerId, limit: nat, upTo: Timestamp)
    | RetryTask(retried: TaskRecord)
    | DiscardTasks(ids: seq<TaskId>)
    | Finish(finished: TaskRecord, outcome: Outcome, now: Timestamp)
    | Restore(id: TaskId)

  /** A record handed to a worker, and the time stored as its start. */
  datatype Claim = Claim(record: TaskRecord, began: Timestamp) {
    function Id(): TaskId { record.info.id }
  }

  datatype Event = Event(op: Op, claims: seq<Claim>)

  datatype ResultView =
    | NotFound
    | NoResult(record: TaskRecord)
    | FailedWith(record: TaskRecord, message: Bytes)
    | Value(record: TaskRecord, result: Bytes)

  // ---- one step ----

  function Put(b: Board, r: TaskRecord): Board {
    if r.info.id in b then b else b[r.info.id := Row(r, Queued)]
  }

  function PutAll(b: Board, rs: seq<TaskRecord>): Board {
    if rs == [] then b else Put(PutAll(b, rs[..|rs| - 1]), rs[|rs| - 1])
  }

  function Result(b: Board, id: TaskId): ResultView {
    if id !in b then NotFound
    else match b[id].phase
      case Done(_, _, Succeeded(result)) => Value(b[id].record, result)
      case Done(_, _, Failed(message)) => FailedWith(b[id].record, message)
      case _ => NoResult(b[id].record)
  }

  /** Tasks of a group that are queued and due. */
  function Ready(b: Board, group: Group, upTo: Timestamp): set<TaskId> {
    set id | id in b && b[id].phase.Queued? && b[id].record.info.group == group && b[id].record.info.due <= upTo
  }

  function ClaimedIds(claims: seq<Claim>): set<TaskId> {
    set i | 0 <= i < |claims| :: claims[i].Id()
  }

  /** Distinct queued tasks, with the records the board holds. */
  predicate IsTaking(b: Board, claims: seq<Claim>) {
    && (forall i | 0 <= i < |claims| ::
          claims[i].Id() in b && b[claims[i].Id()].phase.Queued? && b[claims[i].Id()].record == claims[i].record)
    && (forall i, j | 0 <= i < j < |claims| :: claims[i].Id() != claims[j].Id())
  }

  /** The claims are the earliest due tasks, in due order, as many as asked for or as there are. */
  ghost predicate IsClaim(b: Board, group: Group, limit: nat, upTo: Timestamp, claims: seq<Claim>) {
    var ready := Ready(b, group, upTo);
    && IsTaking(b, claims)
    && (forall i | 0 <= i < |claims| :: claims[i].Id() in ready)
    && (forall i, j | 0 <= i < j < |claims| :: claims[i].record.info.due <= claims[j].record.info.due)
    && |claims| == Min(limit, |ready|)
    && (forall i, id | 0 <= i < |claims| && id in ready && id !in ClaimedIds(claims) ::
          claims[i].record.info.due <= b[id].record.info.due)
  }

  /** The claimed rows become staged for the worker, every other row stays as it was. */
  ghost predicate IsStaging(b: Board, worker: WorkerId, claims: seq<Claim>, b': Board) {
    && b'.Keys == b.Keys
    && (forall i | 0 <= i < |claims| ::
          claims[i].Id() in b && b'[claims[i].Id()] == Row(claims[i].record, Staged(worker, claims[i].began)))
    && (forall id | id in b && id !in ClaimedIds(claims) :: b'[id] == b[id])
  }

  ghost predicate Next(b: Board, e: Event, b': Board) {
    match e.op
    case PutTasks(rs) => e.claims == [] && b' == PutAll(b, rs)
    case AssignTasks(group, worker, limit, upTo) =>
      IsClaim(b, group, limit, upTo, e.claims) && IsStaging(b, worker, e.claims, b')
    case RetryTask(r) => e.claims == [] && b' == b[r.info.id := Row(r, Queued)]
    case DiscardTasks(ids) => e.claims == [] && b' == b - (set id | id in ids)
    case Finish(r, outcome, now) =>
      e.claims == [] && b' == b[r.info.id := Row(r, Done(now, now + r.info.ttl, outcome))]
    case Restore(id) =>
      e.claims == [] && b' == if id in b && b[id].phase.Staged? then b[id := b[id].(phase := Queued)] else b
  }

  /** As `Next`, but a claim may take any distinct queued tasks, or none. */
  ghost predicate Moves(b: Board, e: Event, b': Board) {
    match e.op
    case AssignTasks(_, worker, _, _) => IsTaking(b, e.claims) && IsStaging(b, worker, e.claims, b')
    case _ => Next(b, e, b')
  }

  predicate Keyed(b: Board) {
    forall id | id in b :: b[id].record.info.id == id
  }

  predicate IsStagedIn(b: Board, id: TaskId) {
    id in b && b[id].phase.Staged?
  }

  predicate StagedFor(b: Board, worker: WorkerId, id: TaskId) {
    id in b && b[id].phase.Staged? && b[id].phase.worker == worker
  }

  predicate IsRetryOf(r: TaskRecord, stored: TaskRecord) {
    && r.data == stored.data
    && r.info == stored.info.(due := r.info.due, scheduled := None, retryCount := stored.info.retryCount + 1)
  }

  /**
   What the backends ask of their callers: retry, finish and restore target a task
   that is staged, and are given the stored record, or its next attempt for a retry.
   */
  predicate Disciplined(b: Board, op: Op) {
    match op
    case RetryTask(r) =>
      && IsStagedIn(b, r.info.id)
      && (r == b[r.info.id].record || IsRetryOf(r, b[r.info.id].record))
    case Finish(r, _, _) => IsStagedIn(b, r.info.id) && b[r.info.id].record == r
    case Restore(id) => IsStagedIn(b, id)
    case _ => true
  }

  // ---- whole runs ----

  ghost predicate IsRun(boards: seq<Board>, events: seq<Event>) {
    && |boards| == |events| + 1
    && Keyed(boards[0])
    && forall i | 0 <= i < |events| :: Disciplined(boards[i], events[i].op) && Next(boards[i], events[i], boards[i + 1])
  }

  /** A run whose claims may stop short or skip tasks, as those made of several transactions do. */
  ghost predicate IsHistory(boards: seq<Board>, events: seq<Event>) {
    && |boards| == |events| + 1
    && Keyed(boards[0])
    && forall i | 0 <= i < |events| ::
         Disciplined(boards[i], events[i].op) && Moves(boards[i], events[i], boards[i + 1])
  }

  lemma RunIsHistory(boards: seq<Board>, events: seq<Event>)
    requires IsRun(boards, events)
    ensures IsHistory(boards, events)
  {
    forall i | 0 <= i < |events| ensures Moves(boards[i], events[i], boards[i + 1]) {
      assert Next(boards[i], events[i], boards[i + 1]);
    }
  }

  /** The step ends the claim a worker holds on the task. */
  predicate Closes(b: Board, op: Op, id: TaskId) {
    match op
    case RetryTask(r) => r.info.id == id
    case Finish(r, _, _) => r.info.id == id
    case Restore(i) => i == id
    case DiscardTasks(ids) => id in ids && IsStagedIn(b, id)
    case _ => false
  }

  /** The step may make the task runnable again. */
  predicate Requeues(op: Op, id: TaskId) {
    match op
    case RetryTask(r) => r.info.id == id
    case Restore(i) => i == id
    case DiscardTasks(ids) => id in ids
    case _ => false
  }

  predicate Discards(op: Op, id: TaskId) {
    op.DiscardTasks? && id in op.ids
  }

  function Held(b: Board, id: TaskId): nat {
    if IsStagedIn(b, id) then 1 else 0
  }

  function CountClaims(events: seq<Event>, id: TaskId): nat {
    if events == [] then 0
    else CountClaims(events[..|events| - 1], id) + if id in ClaimedIds(events[|events| - 1].claims) then 1 else 0
  }

  function CountCloses(boards: seq<Board>, events: seq<Event>, id: TaskId): nat
    requires |boards| == |events| + 1
  {
    if events == [] then 0 else
      var n := |events| - 1;
      CountCloses(boards[..|boards| - 1], events[..n], id) + if Closes(boards[n], events[n].op, id) then 1 else 0
  }

  function CountRetries(events: seq<Event>, id: TaskId): nat {
    if events == [] then 0
    else
      var op := events[|events| - 1].op;
      CountRetries(events[..|events| - 1], id) + if op.RetryTask? && op.retried.info.id == id then 1 else 0
  }

  lemma {:induction false} PutAllKeeps(b: Board, rs: seq<TaskRecord>)
    requires Keyed(b)
    ensures Keyed(PutAll(b, rs))
    ensures forall id | id in b :: id in PutAll(b, rs) && PutAll(b, rs)[id] == b[id]
    ensures forall id | id in PutAll(b, rs) && id !in b :: PutAll(b, rs)[id].phase.Queued?
    ensures forall id :: id in PutAll(b, rs) <==> id in b || exists i | 0 <= i < |rs| :: rs[i].info.id == id
  {
    if rs != [] {
      PutAllKeeps(b, rs[..|rs| - 1]);
      assert forall i | 0 <= i < |rs| - 1 :: rs[..|rs| - 1][i] == rs[i];
    }
  }

  lemma StepKeepsKeys(b: Board, e: Event, b': Board)
    requires Keyed(b) && Disciplined(b, e.op) && Moves(b, e, b')
    ensures Keyed(b')
  {
    match e.op
    case PutTasks(rs) => PutAllKeeps(b, rs);
    case AssignTasks(_, _, _, _) =>
      forall id | id in b' ensures b'[id].record.info.id == id {
        if id in ClaimedIds(e.claims) {
          var i :| 0 <= i < |e.claims| && e.claims[i].Id() == id;
        }
      }
    case _ =>
  }

  lemma {:induction false} RunKeyed(boards: seq<Board>, events: seq<Event>, k: nat)
    requires IsHistory(boards, events) && k < |boards|
    ensures Keyed(boards[k])
  {
    if k > 0 {
      RunKeyed(boards, events, k - 1);
      StepKeepsKeys(boards[k - 1], events[k - 1], boards[k]);
    }
  }

  lemma StepBalance(b: Board, e: Event, b': Board, id: TaskId)
    requires Keyed(b) && Disciplined(b, e.op) && Moves(b, e, b')
    ensures Held(b, id) + (if id in ClaimedIds(e.claims) then 1 else 0)
         == Held(b', id) + (if Closes(b, e.op, id) then 1 else 0)
  {
    match e.op
    case PutTasks(rs) => PutAllKeeps(b, rs);
    case AssignTasks(_, _, _, _) =>
      if id in ClaimedIds(e.claims) {
        var i :| 0 <= i < |e.claims| && e.claims[i].Id() == id;
      }
    case _ =>
  }

  lemma RunPrefix(boards: seq<Board>, events: seq<Event>, n: nat)
    requires IsHistory(boards, events) && n <= |events|
    ensures IsHistory(boards[..n + 1], events[..n])
  {
  }

  /** Every claim of a task is closed exactly once, except the one still held. */
  lemma {:induction false} ClaimsBalance(boards: seq<Board>, events: seq<Event>, id: TaskId)
    requires IsHistory(boards, events)
    ensures Held(boards[0], id) + CountClaims(events, id)
         == Held(boards[|events|], id) + CountCloses(boards, events, id)
    decreases |events|
  {
    if events != [] {
      var n := |events| - 1;
      RunPrefix(boards, events, n);
      ClaimsBalance(boards[..n + 1], events[..n], id);
      RunKeyed(boards, events, n);
      StepBalance(boards[n], events[n], boards[n + 1], id);
    }
  }

  lemma StepKeepsTaken(b: Board, e: Event, b': Board, id: TaskId)
    requires Keyed(b) && Disciplined(b, e.op) && Moves(b, e, b')
    requires id in b && !b[id].phase.Queued? && !Requeues(e.op, id)
    ensures id in b' && !b'[id].phase.Queued?
    ensures b[id].phase.Done? ==> b'[id] == b[id]
    ensures id !in ClaimedIds(e.claims)
  {
    match e.op
    case PutTasks(rs) => PutAllKeeps(b, rs);
    case AssignTasks(_, _, _, _) =>
      assert id !in ClaimedIds(e.claims);
    case _ =>
  }

  lemma RunStepKeepsTaken(boards: seq<Board>, events: seq<Event>, id: TaskId, k: nat)
    requires IsHistory(boards, events) && k < |events|
    requires id in boards[k] && !boards[k][id].phase.Queued? && !Requeues(events[k].op, id)
    ensures id in boards[k + 1] && !boards[k + 1][id].phase.Queued?
    ensures boards[k][id].phase.Done? ==> boards[k + 1][id] == boards[k][id]
  {
    RunKeyed(boards, events, k);
    StepKeepsTaken(boards[k], events[k], boards[k + 1], id);
  }

  lemma {:induction false} TakenUntilRequeued(boards: seq<Board>, events: seq<Event>, id: TaskId, i: nat, j: nat)
    requires IsHistory(boards, events) && i <= j <= |events|
    requires id in boards[i] && !boards[i][id].phase.Queued?
    requires forall k | i <= k < j :: !Requeues(events[k].op, id)
    ensures id in boards[j] && !boards[j][id].phase.Queued?
    ensures boards[i][id].phase.Done? ==> boards[j][id] == boards[i][id]
    decreases j
  {
    if i < j {
      TakenUntilRequeued(boards, events, id, i, j - 1);
      RunStepKeepsTaken(boards, events, id, j - 1);
    }
  }

  lemma ClaimTakes(b: Board, e: Event, b': Board, id: TaskId)
    requires Moves(b, e, b') && id in ClaimedIds(e.claims)
    ensures id in b && b[id].phase.Queued? && id in b' && b'[id].phase.Staged?
  {
    var i :| 0 <= i < |e.claims| && e.claims[i].Id() == id;
  }

  /** No task is handed out twice unless something put it back in between. */
  lemma NoDoubleClaim(boards: seq<Board>, events: seq<Event>, id: TaskId, i: nat, j: nat)
    requires IsHistory(boards, events) && i < j < |events|
    requires id in ClaimedIds(events[i].claims) && id in ClaimedIds(events[j].claims)
    ensures exists k :: i < k < j && Requeues(events[k].op, id)
  {
    ClaimTakes(boards[i], events[i], boards[i + 1], id);
    ClaimTakes(boards[j], events[j], boards[j + 1], id);
    if forall k | i + 1 <= k < j :: !Requeues(events[k].op, id) {
      TakenUntilRequeued(boards, events, id, i + 1, j);
    }
  }

  lemma StepKeepsDone(b: Board, e: Event, b': Board, id: TaskId)
    requires Keyed(b) && Disciplined(b, e.op) && Moves(b, e, b')
    requires id in b && b[id].phase.Done? && !Discards(e.op, id)
    ensures id in b' && b'[id] == b[id] && id !in ClaimedIds(e.claims) && !Closes(b, e.op, id)
  {
    StepKeepsTaken(b, e, b', id);
  }

  lemma {:induction false} DoneStays(boards: seq<Board>, events: seq<Event>, id: TaskId, i: nat, j: nat)
    requires IsHistory(boards, events) && i <= j <= |events|
    requires id in boards[i] && boards[i][id].phase.Done?
    requires forall k | i <= k < j :: !Discards(events[k].op, id)
    ensures id in boards[j] && boards[j][id] == boards[i][id]
    decreases j
  {
    if i < j {
      DoneStays(boards, events, id, i, j - 1);
      RunKeyed(boards, events, j - 1);
      StepKeepsDone(boards[j - 1], events[j - 1], boards[j], id);
    }
  }

  /** A finished task keeps its outcome until it is discarded, and nobody claims it again. */
  lemma DoneIsFinal(boards: seq<Board>, events: seq<Event>, id: TaskId, i: nat, j: nat)
    requires IsHistory(boards, events) && i <= j <= |events|
    requires id in boards[i] && boards[i][id].phase.Done?
    requires forall k | i <= k < j :: !Discards(events[k].op, id)
    ensures id in boards[j] && boards[j][id] == boards[i][id]
    ensures forall k | i <= k < j :: id !in ClaimedIds(events[k].claims) && !Closes(boards[k], events[k].op, id)
  {
    DoneStays(boards, events, id, i, j);
    forall k | i <= k < j ensures id !in ClaimedIds(events[k].claims) && !Closes(boards[k], events[k].op, id) {
      DoneStays(boards, events, id, i, k);
      RunKeyed(boards, events, k);
      StepKeepsDone(boards[k], events[k], boards[k + 1], id);
    }
  }

  predicate SameTask(a: TaskRecord, b: TaskRecord) {
    && a.data == b.data
    && a.info == b.info.(due := a.info.due, scheduled := a.info.scheduled, retryCount := a.info.retryCount)
  }

  /** Workers retry with the next attempt of the record they hold. */
  ghost predicate RetriesCount(boards: seq<Board>, events: seq<Event>)
    requires |boards| == |events| + 1
  {
    forall i | 0 <= i < |events| && events[i].op.RetryTask? ::
      var r := events[i].op.retried;
      r.info.id in boards[i] && IsRetryOf(r, boards[i][r.info.id].record)
  }

  lemma StepLineage(b: Board, e: Event, b': Board, id: TaskId)
    requires Keyed(b) && Disciplined(b, e.op) && Moves(b, e, b')
    requires id in b && !Discards(e.op, id)
    ensures id in b' && SameTask(b[id].record, b'[id].record)
    ensures !(e.op.RetryTask? && e.op.retried.info.id == id) ==> b'[id].record == b[id].record
  {
    match e.op
    case PutTasks(rs) => PutAllKeeps(b, rs);
    case AssignTasks(_, _, _, _) =>
      if id in ClaimedIds(e.claims) {
        var i :| 0 <= i < |e.claims| && e.claims[i].Id() == id;
      }
    case _ =>
  }

  lemma RunStepLineage(boards: seq<Board>, events: seq<Event>, k: nat, id: TaskId)
    requires IsHistory(boards, events) && RetriesCount(boards, events) && k < |events|
    requires id in boards[k] && !Discards(events[k].op, id)
    ensures id in boards[k + 1] && SameTask(boards[k][id].record, boards[k + 1][id].record)
    ensures boards[k + 1][id].record.info.retryCount == boards[k][id].record.info.retryCount
            + if events[k].op.RetryTask? && events[k].op.retried.info.id == id then 1 else 0
  {
    RunKeyed(boards, events, k);
    StepLineage(boards[k], events[k], boards[k + 1], id);
  }

  /** A retry chain keeps the task's identity, and its retry count is the number of retries. */
  lemma {:induction false} Lineage(boards: seq<Board>, events: seq<Event>, id: TaskId)
    requires IsHistory(boards, events) && RetriesCount(boards, events)
    requires id in boards[0] && forall k | 0 <= k < |events| :: !Discards(events[k].op, id)
    ensures id in boards[|events|] && SameTask(boards[0][id].record, boards[|events|][id].record)
    ensures boards[|events|][id].record.info.retryCount
         == boards[0][id].record.info.retryCount + CountRetries(events, id)
    decreases |events|
  {
    if events != [] {
      var n := |events| - 1;
      RunPrefix(boards, events, n);
      Lineage(boards[..n + 1], events[..n], id);
      RunStepLineage(boards, events, n, id);
    }
  }
}
