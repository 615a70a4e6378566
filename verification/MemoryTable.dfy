/**
 The in-memory backend's table as a value: what each operation makes of it, the
 invariant of its entries, and its refinement of the task lifecycle.
 */
module MemoryTable {
  import opened Tasks
  import opened Ordering
  import opened Lifecycle
  import Claiming

  datatype Entry = Entry(
    seqNo: nat,
    record: TaskRecord,
    began: Option<Timestamp>,
    assignee: Option<WorkerId>,
    done: Option<Timestamp>,
    disposable: Option<Timestamp>,
    result: Option<Bytes>,
    error: Option<Bytes>
  ) {
    predicate IsQueued() { began.None? && done.None? }
  }

  datatype Table = Table(seqNo: nat, tasks: map<TaskId, Entry>)

  function NewEntry(seqNo: nat, r: TaskRecord): Entry {
    Entry(seqNo, r, None, None, None, None, None, None)
  }

  // ---- operations ----

  function Put(t: Table, r: TaskRecord): Table {
    if r.info.id in t.tasks then t
    else Table(t.seqNo + 1, t.tasks[r.info.id := NewEntry(t.seqNo + 1, r)])
  }

  function PutAll(t: Table, rs: seq<TaskRecord>): Table {
    if rs == [] then t else Put(PutAll(t, rs[..|rs| - 1]), rs[|rs| - 1])
  }

  function DueRanks(t: Table, group: Group, now: Timestamp): set<Rank> {
    set id | id in t.tasks && t.tasks[id].IsQueued()
             && t.tasks[id].record.info.group == group && t.tasks[id].record.info.due <= now
      :: Rank(t.tasks[id].record.info.due, t.tasks[id].seqNo, id)
  }

  function Picked(t: Table, group: Group, limit: nat, now: Timestamp): seq<Rank> {
    Take(Sort(DueRanks(t, group, now)), limit)
  }

  function Ids(ranks: seq<Rank>): set<TaskId> {
    set i | 0 <= i < |ranks| :: ranks[i].id
  }

  function ClaimsOf(t: Table, picked: seq<Rank>, now: Timestamp): (claims: seq<Claim>)
    requires forall r | r in picked :: r.id in t.tasks
    ensures |claims| == |picked|
    ensures forall i | 0 <= i < |picked| :: claims[i] == Claim(t.tasks[picked[i].id].record, now)
  {
    seq(|picked|, i requires 0 <= i < |picked| => Claim(t.tasks[picked[i].id].record, now))
  }

  function Assign(t: Table, worker: WorkerId, ids: set<TaskId>, now: Timestamp): Table {
    Table(t.seqNo, map id | id in t.tasks ::
      if id in ids then t.tasks[id].(began := Some(now), assignee := Some(worker)) else t.tasks[id])
  }

  function Retry(t: Table, r: TaskRecord): Table {
    if r.info.id in t.tasks
    then t.(tasks := t.tasks[r.info.id := NewEntry(t.tasks[r.info.id].seqNo, r)])
    else Table(t.seqNo + 1, t.tasks[r.info.id := NewEntry(t.seqNo + 1, r)])
  }

  function FinishEntry(e: Entry, outcome: Outcome, now: Timestamp): Entry {
    e.(began := None, assignee := None, done := Some(now), disposable := Some(now + e.record.info.ttl),
       result := if outcome.Succeeded? then Some(outcome.result) else None,
       error := if outcome.Failed? then Some(outcome.message) else None)
  }

  function Complete(t: Table, r: TaskRecord, outcome: Outcome, now: Timestamp): Table {
    var known := Put(t, r);
    known.(tasks := known.tasks[r.info.id := FinishEntry(known.tasks[r.info.id], outcome, now)])
  }

  function Unstage(t: Table, id: TaskId): Table {
    if id in t.tasks then t.(tasks := t.tasks[id := t.tasks[id].(began := None, assignee := None)]) else t
  }

  function GetResult(t: Table, id: TaskId): ResultView {
    if id !in t.tasks then NotFound
    else
      var e := t.tasks[id];
      match e.error
      case Some(message) => FailedWith(e.record, message)
      case None =>
        match e.result
        case Some(result) => Value(e.record, result)
        case None => NoResult(e.record)
  }

  ghost function Exec(t: Table, op: Op): (Table, seq<Claim>) {
    match op
    case PutTasks(rs) => (PutAll(t, rs), [])
    case AssignTasks(group, worker, limit, now) =>
      PickedAreDue(t, group, limit, now);
      var picked := Picked(t, group, limit, now);
      (Assign(t, worker, Ids(picked), now),
       ClaimsOf(t, picked, now))
    case RetryTask(r) => (Retry(t, r), [])
    case DiscardTasks(ids) => (t.(tasks := t.tasks - set id | id in ids), [])
    case Finish(r, outcome, now) => (Complete(t, r, outcome, now), [])
    case Restore(id) => (Unstage(t, id), [])
  }

  // ---- the invariant ----

  predicate Coherent(e: Entry) {
    && (e.began.Some? <==> e.assignee.Some?)
    && !(e.began.Some? && e.done.Some?)
    && (e.done.Some? <==> e.disposable.Some?)
    && (e.done.Some? ==> e.disposable.value == e.done.value + e.record.info.ttl)
    && (e.done.Some? <==> e.result.Some? || e.error.Some?)
    && !(e.result.Some? && e.error.Some?)
  }

  predicate Inv(t: Table) {
    && (forall id | id in t.tasks ::
          t.tasks[id].record.info.id == id && t.tasks[id].seqNo <= t.seqNo && Coherent(t.tasks[id]))
    && (forall a, b | a in t.tasks && b in t.tasks && a != b :: t.tasks[a].seqNo != t.tasks[b].seqNo)
  }

  lemma PickedAreDue(t: Table, group: Group, limit: nat, now: Timestamp)
    ensures IsLeast(Picked(t, group, limit, now), DueRanks(t, group, now), limit)
    ensures forall r | r in Picked(t, group, limit, now) :: r.id in t.tasks && t.tasks[r.id].IsQueued()
  {
    SortedPrefixIsLeast(DueRanks(t, group, now), limit);
  }

  /** Replacing one entry under its sequence number keeps the invariant. */
  lemma SetKeepsInv(t: Table, id: TaskId, e: Entry)
    requires Inv(t) && id in t.tasks && e.seqNo == t.tasks[id].seqNo && e.record.info.id == id && Coherent(e)
    ensures Inv(t.(tasks := t.tasks[id := e]))
  {
  }

  lemma PutKeepsInv(t: Table, r: TaskRecord)
    requires Inv(t)
    ensures Inv(Put(t, r))
  {
  }

  /** Due earlier, or as early and put earlier. */
  predicate Earlier(a: Entry, b: Entry) {
    || a.record.info.due < b.record.info.due
    || (a.record.info.due == b.record.info.due && a.seqNo < b.seqNo)
  }

  predicate IsDue(t: Table, group: Group, now: Timestamp, id: TaskId) {
    && id in t.tasks && t.tasks[id].IsQueued()
    && t.tasks[id].record.info.group == group && t.tasks[id].record.info.due <= now
  }

  /** The first entries by due time and then by the order of their puts, none of those due left out for a later one. */
  predicate IsFirst(t: Table, ranks: seq<Rank>, limit: nat, due: set<TaskId>) {
    && (forall i | 0 <= i < |ranks| :: ranks[i].id in due && ranks[i].id in t.tasks)
    && (forall i, j | 0 <= i < j < |ranks| :: Earlier(t.tasks[ranks[i].id], t.tasks[ranks[j].id]))
    && (forall id | id in due && id in t.tasks && id !in Ids(ranks) ::
          |ranks| == limit && forall i | 0 <= i < |ranks| :: Earlier(t.tasks[ranks[i].id], t.tasks[id]))
  }

  function RankOf(t: Table, id: TaskId): Rank
    requires id in t.tasks
  {
    Rank(t.tasks[id].record.info.due, t.tasks[id].seqNo, id)
  }

  lemma RanksAreEarlier(t: Table, a: TaskId, b: TaskId)
    requires Inv(t) && a in t.tasks && b in t.tasks && a != b && Less(RankOf(t, a), RankOf(t, b))
    ensures Earlier(t.tasks[a], t.tasks[b])
  {
  }

  /** A sorted listing of some entries' ranks is that. */
  lemma LeastAreFirst(t: Table, ids: set<TaskId>, ranks: set<Rank>, xs: seq<Rank>, limit: nat)
    requires Inv(t) && IsLeast(xs, ranks, limit)
    requires forall id | id in ids :: id in t.tasks
    requires ranks == set id | id in ids :: RankOf(t, id)
    ensures IsFirst(t, xs, limit, ids)
  {
    forall i | 0 <= i < |xs| ensures xs[i].id in ids && xs[i] == RankOf(t, xs[i].id) {
      assert xs[i] in xs && xs[i] in ranks;
    }
    forall i, j | 0 <= i < j < |xs| ensures Earlier(t.tasks[xs[i].id], t.tasks[xs[j].id]) {
      AscendingDistinct(xs, i, j);
      RanksAreEarlier(t, xs[i].id, xs[j].id);
    }
    forall id | id in ids && id !in Ids(xs)
      ensures |xs| == limit && forall i | 0 <= i < |xs| :: Earlier(t.tasks[xs[i].id], t.tasks[id])
    {
      LeftOutIsLater(t, ranks, xs, limit, id);
    }
  }

  lemma LeftOutIsLater(t: Table, ranks: set<Rank>, xs: seq<Rank>, limit: nat, id: TaskId)
    requires Inv(t) && IsLeast(xs, ranks, limit) && id in t.tasks && RankOf(t, id) in ranks && id !in Ids(xs)
    requires forall i | 0 <= i < |xs| :: xs[i].id in t.tasks && xs[i] == RankOf(t, xs[i].id)
    ensures |xs| == limit && forall i | 0 <= i < |xs| :: Earlier(t.tasks[xs[i].id], t.tasks[id])
  {
    var left := RankOf(t, id);
    assert left !in xs;
    forall i | 0 <= i < |xs| ensures Earlier(t.tasks[xs[i].id], t.tasks[id]) {
      assert xs[i] in xs && Less(xs[i], left);
      RanksAreEarlier(t, xs[i].id, id);
    }
    if |xs| < limit {
      AscendingCount(xs);
      var listed := set x | x in xs;
      assert listed < ranks;
      SubsetSize(listed + {left}, ranks);
    }
  }

  function DueIds(t: Table, group: Group, now: Timestamp): set<TaskId> {
    set id | id in t.tasks && IsDue(t, group, now, id)
  }

  lemma DueRanksAre(t: Table, group: Group, now: Timestamp)
    ensures DueRanks(t, group, now) == set id | id in DueIds(t, group, now) :: RankOf(t, id)
  {
    forall r | r in DueRanks(t, group, now) ensures r.id in DueIds(t, group, now) && r == RankOf(t, r.id) {
    }
    forall id | id in DueIds(t, group, now) ensures RankOf(t, id) in DueRanks(t, group, now) {
    }
  }

  /**
   A claim lists due tasks by due time, equally due ones in the order they were put, and
   leaves none out for a later one.
   */
  lemma PickedInOrder(t: Table, group: Group, limit: nat, now: Timestamp)
    requires Inv(t)
    ensures IsFirst(t, Picked(t, group, limit, now), limit, DueIds(t, group, now))
  {
    PickedAreDue(t, group, limit, now);
    DueRanksAre(t, group, now);
    LeastAreFirst(t, DueIds(t, group, now), DueRanks(t, group, now), Picked(t, group, limit, now), limit);
  }

  lemma {:induction false} PutAllKeepsInv(t: Table, rs: seq<TaskRecord>)
    requires Inv(t)
    ensures Inv(PutAll(t, rs))
  {
    if rs != [] {
      PutAllKeepsInv(t, rs[..|rs| - 1]);
      PutKeepsInv(PutAll(t, rs[..|rs| - 1]), rs[|rs| - 1]);
    }
  }

  lemma AssignKeepsInv(t: Table, worker: WorkerId, ids: set<TaskId>, now: Timestamp)
    requires Inv(t) && forall id | id in ids :: id in t.tasks && t.tasks[id].IsQueued()
    ensures Inv(Assign(t, worker, ids, now))
  {
    var t' := Assign(t, worker, ids, now);
    forall id | id in t'.tasks
      ensures t'.tasks[id].record.info.id == id && t'.tasks[id].seqNo <= t'.seqNo && Coherent(t'.tasks[id])
    {
      assert Coherent(t.tasks[id]);
    }
    forall a, b | a in t'.tasks && b in t'.tasks && a != b ensures t'.tasks[a].seqNo != t'.tasks[b].seqNo {
      assert t.tasks[a].seqNo != t.tasks[b].seqNo;
    }
  }

  lemma RetryKeepsInv(t: Table, r: TaskRecord)
    requires Inv(t)
    ensures Inv(Retry(t, r))
  {
  }

  lemma CompleteKeepsInv(t: Table, r: TaskRecord, outcome: Outcome, now: Timestamp)
    requires Inv(t)
    ensures Inv(Complete(t, r, outcome, now))
  {
    var known, id := Put(t, r), r.info.id;
    PutKeepsInv(t, r);
    SetKeepsInv(known, id, FinishEntry(known.tasks[id], outcome, now));
  }

  /** Every operation keeps the invariant, whatever task and record it is given. */
  lemma ExecKeepsInv(t: Table, op: Op)
    requires Inv(t)
    ensures Inv(Exec(t, op).0)
  {
    match op
    case PutTasks(rs) => PutAllKeepsInv(t, rs);
    case AssignTasks(group, worker, limit, now) =>
      PickedAreDue(t, group, limit, now);
      AssignKeepsInv(t, worker, Ids(Picked(t, group, limit, now)), now);
    case RetryTask(r) => RetryKeepsInv(t, r);
    case DiscardTasks(_) =>
    case Finish(r, outcome, now) => CompleteKeepsInv(t, r, outcome, now);
    case Restore(_) =>
  }

  // ---- refinement ----

  function PhaseOf(e: Entry): Phase
    requires Coherent(e)
  {
    if e.done.Some?
    then Done(e.done.value, e.disposable.value,
              if e.result.Some? then Succeeded(e.result.value) else Failed(e.error.value))
    else if e.began.Some? then Staged(e.assignee.value, e.began.value)
    else Queued
  }

  function View(t: Table): Board
    requires Inv(t)
  {
    map id | id in t.tasks :: Row(t.tasks[id].record, PhaseOf(t.tasks[id]))
  }

  lemma SetView(t: Table, id: TaskId, e: Entry)
    requires Inv(t) && id in t.tasks && Coherent(e) && Inv(t.(tasks := t.tasks[id := e]))
    ensures View(t.(tasks := t.tasks[id := e])) == View(t)[id := Row(e.record, PhaseOf(e))]
  {
  }

  lemma PutSimulates(t: Table, r: TaskRecord)
    requires Inv(t)
    ensures Inv(Put(t, r)) && View(Put(t, r)) == Lifecycle.Put(View(t), r)
  {
    PutKeepsInv(t, r);
  }

  lemma {:induction false} PutAllSimulates(t: Table, rs: seq<TaskRecord>)
    requires Inv(t)
    ensures Inv(PutAll(t, rs)) && View(PutAll(t, rs)) == Lifecycle.PutAll(View(t), rs)
  {
    if rs != [] {
      PutAllSimulates(t, rs[..|rs| - 1]);
      PutSimulates(PutAll(t, rs[..|rs| - 1]), rs[|rs| - 1]);
    }
  }

  lemma DueRanksCoverReady(t: Table, group: Group, now: Timestamp)
    requires Inv(t)
    ensures Claiming.RanksFor(View(t), Ready(View(t), group, now), DueRanks(t, group, now))
  {
    var b, ranks := View(t), DueRanks(t, group, now);
    forall id | id in Ready(b, group, now) ensures exists r :: r in ranks && r.id == id {
      assert t.tasks[id].IsQueued();
      assert Rank(t.tasks[id].record.info.due, t.tasks[id].seqNo, id) in ranks;
    }
  }

  lemma AssignStages(t: Table, worker: WorkerId, claims: seq<Claim>, ids: set<TaskId>, now: Timestamp)
    requires Inv(t) && ids == ClaimedIds(claims) && Inv(Assign(t, worker, ids, now))
    requires forall i | 0 <= i < |claims| ::
               && claims[i].Id() in t.tasks && t.tasks[claims[i].Id()].IsQueued()
               && claims[i] == Claim(t.tasks[claims[i].Id()].record, now)
    ensures IsStaging(View(t), worker, claims, View(Assign(t, worker, ids, now)))
  {
    var t' := Assign(t, worker, ids, now);
    forall i | 0 <= i < |claims|
      ensures View(t')[claims[i].Id()] == Row(claims[i].record, Staged(worker, claims[i].began))
    {
      assert claims[i].Id() in ids;
    }
    forall id | id in View(t) && id !in ids ensures View(t')[id] == View(t)[id] {
      assert t'.tasks[id] == t.tasks[id];
    }
  }

  lemma AssignClaims(t: Table, group: Group, limit: nat, now: Timestamp, picked: seq<Rank>)
    requires Inv(t) && IsLeast(picked, DueRanks(t, group, now), limit)
    requires forall r | r in picked :: r.id in t.tasks
    ensures IsClaim(View(t), group, limit, now, ClaimsOf(t, picked, now))
  {
    DueRanksCoverReady(t, group, now);
    Claiming.LeastIsClaim(View(t), group, limit, now, DueRanks(t, group, now), picked, ClaimsOf(t, picked, now));
  }

  lemma AssignSimulates(t: Table, group: Group, worker: WorkerId, limit: nat, now: Timestamp, picked: seq<Rank>)
    requires Inv(t) && IsLeast(picked, DueRanks(t, group, now), limit)
    requires forall r | r in picked :: r.id in t.tasks && t.tasks[r.id].IsQueued()
    ensures Inv(Assign(t, worker, Ids(picked), now))
    ensures IsClaim(View(t), group, limit, now, ClaimsOf(t, picked, now))
    ensures IsStaging(View(t), worker, ClaimsOf(t, picked, now), View(Assign(t, worker, Ids(picked), now)))
  {
    AssignClaims(t, group, limit, now, picked);
    var claims := ClaimsOf(t, picked, now);
    assert ClaimedIds(claims) == Ids(picked);
    AssignKeepsInv(t, worker, Ids(picked), now);
    AssignStages(t, worker, claims, Ids(picked), now);
  }

  lemma DiscardSimulates(t: Table, ids: set<TaskId>)
    requires Inv(t)
    ensures Inv(t.(tasks := t.tasks - ids)) && View(t.(tasks := t.tasks - ids)) == View(t) - ids
  {
  }

  lemma RetrySimulates(t: Table, r: TaskRecord)
    requires Inv(t)
    ensures Inv(Retry(t, r)) && View(Retry(t, r)) == View(t)[r.info.id := Row(r, Queued)]
  {
    RetryKeepsInv(t, r);
  }

  lemma CompleteSimulates(t: Table, r: TaskRecord, outcome: Outcome, now: Timestamp)
    requires Inv(t) && r.info.id in t.tasks && t.tasks[r.info.id].record == r
    ensures Inv(Complete(t, r, outcome, now))
    ensures View(Complete(t, r, outcome, now)) == View(t)[r.info.id := Row(r, Done(now, now + r.info.ttl, outcome))]
  {
    CompleteKeepsInv(t, r, outcome, now);
    SetView(t, r.info.id, FinishEntry(t.tasks[r.info.id], outcome, now));
  }

  lemma UnstageSimulates(t: Table, id: TaskId)
    requires Inv(t) && Inv(Unstage(t, id)) && IsStagedIn(View(t), id)
    ensures View(Unstage(t, id)) == View(t)[id := View(t)[id].(phase := Queued)]
  {
  }

  lemma ClaimSimulates(t: Table, op: Op)
    requires Inv(t) && op.AssignTasks?
    ensures Inv(Exec(t, op).0)
    ensures Next(View(t), Event(op, Exec(t, op).1), View(Exec(t, op).0))
  {
    PickedAreDue(t, op.group, op.limit, op.upTo);
    AssignSimulates(t, op.group, op.worker, op.limit, op.upTo, Picked(t, op.group, op.limit, op.upTo));
  }

  /** Every disciplined operation does to the table what the lifecycle says. */
  lemma Simulates(t: Table, op: Op)
    requires Inv(t) && Disciplined(View(t), op)
    ensures Inv(Exec(t, op).0)
    ensures Next(View(t), Event(op, Exec(t, op).1), View(Exec(t, op).0))
  {
    ExecKeepsInv(t, op);
    match op
    case PutTasks(rs) => PutAllSimulates(t, rs);
    case AssignTasks(_, _, _, _) => ClaimSimulates(t, op);
    case RetryTask(r) => RetrySimulates(t, r);
    case DiscardTasks(ids) => DiscardSimulates(t, set id | id in ids);
    case Finish(r, outcome, now) => CompleteSimulates(t, r, outcome, now);
    case Restore(id) => UnstageSimulates(t, id);
  }

  lemma ResultAgrees(t: Table, id: TaskId)
    requires Inv(t)
    ensures GetResult(t, id) == Result(View(t), id)
  {
  }

  /** A run of the table, with what each step handed out. */
  ghost predicate IsTrace(tables: seq<Table>, events: seq<Event>) {
    && |tables| == |events| + 1
    && Inv(tables[0])
    && forall i | 0 <= i < |events| :: Exec(tables[i], events[i].op) == (tables[i + 1], events[i].claims)
  }

  ghost predicate DisciplinedTrace(tables: seq<Table>, events: seq<Event>)
    requires |tables| == |events| + 1
  {
    forall i | 0 <= i < |events| :: Inv(tables[i]) && Disciplined(View(tables[i]), events[i].op)
  }

  lemma {:induction false} TraceKeepsInv(tables: seq<Table>, events: seq<Event>, k: nat)
    requires IsTrace(tables, events) && k < |tables|
    ensures Inv(tables[k])
  {
    if k > 0 {
      TraceKeepsInv(tables, events, k - 1);
      ExecKeepsInv(tables[k - 1], events[k - 1].op);
    }
  }

  /** Every disciplined run of the table is a run of the lifecycle. */
  lemma TraceRefines(tables: seq<Table>, boards: seq<Board>, events: seq<Event>)
    requires IsTrace(tables, events) && DisciplinedTrace(tables, events)
    requires |boards| == |tables|
    requires forall i | 0 <= i < |tables| :: Inv(tables[i]) ==> boards[i] == View(tables[i])
    ensures IsRun(boards, events)
  {
    forall i | 0 <= i < |events|
      ensures Disciplined(boards[i], events[i].op) && Next(boards[i], events[i], boards[i + 1])
    {
      TraceKeepsInv(tables, events, i);
      TraceKeepsInv(tables, events, i + 1);
      Simulates(tables[i], events[i].op);
    }
  }
}
