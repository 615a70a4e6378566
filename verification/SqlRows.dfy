/**
 The SQL backends' task table as a value: one row per task, its state encoded in
 nullable columns, and its refinement of the task lifecycle.
 */
module SqlRows {
  import opened Tasks
  import opened Ordering
  import opened Lifecycle
  import Claiming

  datatype DbTask = DbTask(
    record: TaskRecord,
    assignee: Option<WorkerId>,
    began: Option<Timestamp>,
    result: Option<Bytes>,
    error: Option<Bytes>,
    done: Option<Timestamp>,
    disposable: Option<Timestamp>
  )

  type Rows = map<TaskId, DbTask>

  function FromRecord(r: TaskRecord): DbTask {
    DbTask(r, None, None, None, None, None, None)
  }

  // ---- statements ----

  /** An insert that leaves a row with the same key alone. */
  function Upsert(rows: Rows, r: TaskRecord): Rows {
    if r.info.id in rows then rows else rows[r.info.id := FromRecord(r)]
  }

  function UpsertAll(rows: Rows, rs: seq<TaskRecord>): Rows {
    if rs == [] then rows else Upsert(UpsertAll(rows, rs[..|rs| - 1]), rs[|rs| - 1])
  }

  function UpdateAssignment(rows: Rows, id: TaskId, worker: WorkerId, began: Timestamp): Rows {
    if id in rows then rows[id := rows[id].(assignee := Some(worker), began := Some(began))] else rows
  }

  function UpdateDone(rows: Rows, id: TaskId, began: Timestamp, done: Timestamp, result: Option<Bytes>,
                      error: Option<Bytes>, disposable: Timestamp): Rows {
    if id in rows
    then rows[id := rows[id].(done := Some(done), began := Some(began), result := result, error := error,
                              disposable := Some(disposable))]
    else rows
  }

  function ClearBegan(rows: Rows, id: TaskId): Rows {
    if id in rows then rows[id := rows[id].(began := None)] else rows
  }

  /** Unstarted rows of a group that were due before `now`, ranked with the database's tie order. */
  function DueRanks(rows: Rows, group: Group, now: Timestamp, tie: TaskId -> nat): set<Rank> {
    set id | id in rows && rows[id].began.None? && rows[id].record.info.group == group && rows[id].record.info.due < now
      :: Rank(rows[id].record.info.due, tie(id), id)
  }

  function IdsOf(ranks: seq<Rank>): (ids: seq<TaskId>)
    ensures |ids| == |ranks| && forall i | 0 <= i < |ids| :: ids[i] == ranks[i].id
  {
    seq(|ranks|, i requires 0 <= i < |ranks| => ranks[i].id)
  }

  function ListDueTaskIds(rows: Rows, group: Group, now: Timestamp, limit: nat, tie: TaskId -> nat): seq<TaskId> {
    IdsOf(Take(Sort(DueRanks(rows, group, now, tie)), limit))
  }

  // ---- backend operations other than the claim loop ----

  function Retry(rows: Rows, r: TaskRecord): Rows {
    Upsert(rows - {r.info.id}, r)
  }

  function Complete(rows: Rows, r: TaskRecord, outcome: Outcome, now: Timestamp): Rows {
    var id := r.info.id;
    var began := if id in rows && rows[id].began.Some? then rows[id].began.value else now;
    UpdateDone(rows, id, began, now,
               if outcome.Succeeded? then Some(outcome.result) else None,
               if outcome.Failed? then Some(outcome.message) else None,
               now + r.info.ttl)
  }

  function GetResult(rows: Rows, id: TaskId): ResultView {
    if id !in rows then NotFound
    else if rows[id].done.None? then NoResult(rows[id].record)
    else match rows[id].result
      case Some(result) => Value(rows[id].record, result)
      case None => FailedWith(rows[id].record, match rows[id].error case Some(m) => m case None => [])
  }

  /** Every operation but the claim, which is a loop of transactions. */
  function Exec(rows: Rows, op: Op): Rows {
    match op
    case PutTasks(rs) => UpsertAll(rows, rs)
    case AssignTasks(_, _, _, _) => rows
    case RetryTask(r) => Retry(rows, r)
    case DiscardTasks(ids) => rows - set id | id in ids
    case Finish(r, outcome, now) => Complete(rows, r, outcome, now)
    case Restore(id) => ClearBegan(rows, id)
  }

  // ---- the encoding ----

  predicate Coherent(t: DbTask) {
    && (t.done.Some? ==> t.began.Some?)
    && (t.done.Some? <==> t.disposable.Some?)
    && (t.done.Some? ==> t.disposable.value == t.done.value + t.record.info.ttl)
    && (t.done.Some? <==> t.result.Some? || t.error.Some?)
    && !(t.result.Some? && t.error.Some?)
    && (t.began.Some? && t.done.None? ==> t.assignee.Some?)
  }

  predicate Inv(rows: Rows) {
    forall id | id in rows :: rows[id].record.info.id == id && Coherent(rows[id])
  }

  function PhaseOf(t: DbTask): Phase
    requires Coherent(t)
  {
    if t.done.Some?
    then Done(t.done.value, t.disposable.value,
              if t.result.Some? then Succeeded(t.result.value) else Failed(t.error.value))
    else if t.began.Some? then Staged(t.assignee.value, t.began.value)
    else Queued
  }

  function View(rows: Rows): Board
    requires Inv(rows)
  {
    map id | id in rows :: Row(rows[id].record, PhaseOf(rows[id]))
  }

  /** `began IS NULL` alone selects the queued tasks. */
  lemma UnstartedIsQueued(rows: Rows, id: TaskId)
    requires Inv(rows) && id in rows
    ensures rows[id].began.None? <==> View(rows)[id].phase.Queued?
  {
  }

  lemma {:induction false} UpsertAllSimulates(rows: Rows, rs: seq<TaskRecord>)
    requires Inv(rows)
    ensures Inv(UpsertAll(rows, rs)) && View(UpsertAll(rows, rs)) == PutAll(View(rows), rs)
  {
    if rs != [] {
      UpsertAllSimulates(rows, rs[..|rs| - 1]);
    }
  }

  lemma CompleteSimulates(rows: Rows, r: TaskRecord, outcome: Outcome, now: Timestamp)
    requires Inv(rows) && r.info.id in rows && rows[r.info.id].record == r
    ensures Inv(Complete(rows, r, outcome, now))
    ensures View(Complete(rows, r, outcome, now))
         == View(rows)[r.info.id := Row(r, Done(now, now + r.info.ttl, outcome))]
  {
  }

  /** Restoring a row keeps the encoding exactly when the task is not finished. */
  lemma RestoreNeedsUnfinished(rows: Rows, id: TaskId)
    requires Inv(rows)
    ensures Inv(ClearBegan(rows, id)) <==> (id in rows ==> rows[id].done.None?)
  {
    if id in rows {
      assert ClearBegan(rows, id)[id].began.None?;
      if rows[id].done.Some? {
        assert !Coherent(ClearBegan(rows, id)[id]);
      }
    }
  }

  lemma RestoreSimulates(rows: Rows, id: TaskId)
    requires Inv(rows) && IsStagedIn(View(rows), id)
    ensures Inv(ClearBegan(rows, id))
    ensures View(ClearBegan(rows, id)) == View(rows)[id := View(rows)[id].(phase := Queued)]
  {
    RestoreNeedsUnfinished(rows, id);
  }

  /** Every disciplined operation but the claim does to the rows what the lifecycle says. */
  lemma Simulates(rows: Rows, op: Op)
    requires Inv(rows) && !op.AssignTasks? && Disciplined(View(rows), op)
    ensures Inv(Exec(rows, op)) && Next(View(rows), Event(op, []), View(Exec(rows, op)))
  {
    match op
    case PutTasks(rs) => UpsertAllSimulates(rows, rs);
    case RetryTask(r) =>
    case DiscardTasks(_) =>
    case Finish(r, outcome, now) => CompleteSimulates(rows, r, outcome, now);
    case Restore(id) => RestoreSimulates(rows, id);
    case AssignTasks(_, _, _, _) =>
  }

  lemma ResultAgrees(rows: Rows, id: TaskId)
    requires Inv(rows)
    ensures GetResult(rows, id) == Result(View(rows), id)
  {
  }

  lemma DueRanksCoverReady(rows: Rows, group: Group, now: Timestamp, tie: TaskId -> nat)
    requires Inv(rows)
    ensures Claiming.RanksFor(View(rows), Ready(View(rows), group, now - 1), DueRanks(rows, group, now, tie))
  {
    var ranks, ready := DueRanks(rows, group, now, tie), Ready(View(rows), group, now - 1);
    forall id | id in ready ensures exists r :: r in ranks && r.id == id {
      UnstartedIsQueued(rows, id);
      assert Rank(rows[id].record.info.due, tie(id), id) in ranks;
    }
  }

  // ---- listings ----

  function Unstarted(rows: Rows, group: Group): set<TaskId> {
    set id | id in rows && rows[id].began.None? && rows[id].record.info.group == group
  }

  /** The rows a listing at `now` would find, were it long enough. */
  function DueIds(rows: Rows, group: Group, now: Timestamp): set<TaskId> {
    set id | id in Unstarted(rows, group) && rows[id].record.info.due < now
  }

  lemma {:induction false} RankedCount(ranks: set<Rank>, ids: set<TaskId>)
    requires forall r | r in ranks :: r.id in ids
    requires forall r, q | r in ranks && q in ranks && r.id == q.id :: r == q
    ensures |ranks| <= |ids|
  {
    if ranks != {} {
      var r :| r in ranks;
      RankedCount(ranks - {r}, ids - {r.id});
    }
  }

  /** A listing holds distinct due rows, and all of them when it is short. */
  lemma ListingIs(rows: Rows, group: Group, now: Timestamp, scan: nat, tie: TaskId -> nat)
    ensures var pks := ListDueTaskIds(rows, group, now, scan, tie);
            && |pks| <= scan && |pks| <= |DueIds(rows, group, now)|
            && (forall p | 0 <= p < |pks| :: pks[p] in DueIds(rows, group, now))
            && (forall p, r | 0 <= p < r < |pks| :: pks[p] != pks[r])
            && (|pks| < scan ==> forall id | id in DueIds(rows, group, now) :: id in pks)
  {
    var ranks := DueRanks(rows, group, now, tie);
    var xs := Take(Sort(ranks), scan);
    var pks := ListDueTaskIds(rows, group, now, scan, tie);
    SortedPrefixIsLeast(ranks, scan);
    forall p | 0 <= p < |pks| ensures pks[p] in DueIds(rows, group, now) {
      assert xs[p] in xs && xs[p] in ranks;
    }
    forall p, r | 0 <= p < r < |pks| ensures pks[p] != pks[r] {
      AscendingDistinct(xs, p, r);
      assert xs[p] in xs && xs[r] in xs;
    }
    RankedCount(ranks, DueIds(rows, group, now));
    if |pks| < scan {
      forall id | id in DueIds(rows, group, now) ensures id in pks {
        ShortListing(rows, group, now, scan, tie, id);
      }
    }
  }

  lemma ShortListing(rows: Rows, group: Group, now: Timestamp, scan: nat, tie: TaskId -> nat, id: TaskId)
    requires |ListDueTaskIds(rows, group, now, scan, tie)| < scan && id in DueIds(rows, group, now)
    ensures id in ListDueTaskIds(rows, group, now, scan, tie)
  {
    var ranks := DueRanks(rows, group, now, tie);
    var r := Rank(rows[id].record.info.due, tie(id), id);
    assert r in ranks && r in Sort(ranks);
    var i :| 0 <= i < |Sort(ranks)| && Sort(ranks)[i] == r;
    assert ListDueTaskIds(rows, group, now, scan, tie)[i] == id;
  }

  lemma OneRowListing(r: TaskRecord, now: Timestamp, tie: TaskId -> nat)
    requires r.info.due < now
    ensures ListDueTaskIds(map[r.info.id := FromRecord(r)], r.info.group, now, 8, tie) == [r.info.id]
  {
    var id, rows := r.info.id, map[r.info.id := FromRecord(r)];
    var ranks := DueRanks(rows, r.info.group, now, tie);
    assert Rank(r.info.due, tie(id), id) in ranks;
    assert ranks == {Rank(r.info.due, tie(id), id)};
    assert Sort(ranks)[0] in ranks;
  }
}
