/**
 The heartbeat services against the in-memory backend: what one call of each does
 when nothing interferes. `Detector` interleaves their steps.
 */
module Services {
  import opened Tasks
  import opened Ordering
  import opened MemoryTable
  import opened MemoryBackend
  import opened Detector
  import opened Lifecycle

  const LISTED_AT_ONCE: nat := 100

  class Tracker {
    var workers: map<WorkerId, Timestamp>

    constructor ()
      ensures workers == map[]
    {
      workers := map[];
    }

    method SetWorkerTtl(ids: seq<WorkerId>, expiresAt: Timestamp)
      modifies this
      ensures workers == Register(old(workers), (set w | w in ids), expiresAt)
    {
      for i := 0 to |ids|
        invariant workers == Register(old(workers), (set w | w in ids[..i]), expiresAt)
      {
        workers := workers[ids[i] := expiresAt];
      }
      assert ids[..|ids|] == ids;
    }

    method PurgeWorkers(ids: set<WorkerId>)
      modifies this
      ensures workers == old(workers) - ids
    {
      workers := workers - ids;
    }

    /** One refresh: the runners still alive get the full lifetime from `now`. */
    method RefreshWorkerLifetime(runners: seq<(WorkerId, bool)>, now: Timestamp)
      modifies this
      ensures forall w :: w in workers <==> w in old(workers) || (w, true) in runners
      ensures forall w | w in workers ::
                workers[w] == if (w, true) in runners then now + WORKER_TTL else old(workers)[w]
    {
      var alive := [];
      for i := 0 to |runners|
        invariant forall w :: w in alive <==> (w, true) in runners[..i]
      {
        if runners[i].1 {
          alive := alive + [runners[i].0];
        }
      }
      assert runners[..|runners|] == runners;
      SetWorkerTtl(alive, now + WORKER_TTL);
    }

    /** One purge: exactly the registrations that ran out before `now` go. */
    method PurgeDeadWorkers(now: Timestamp)
      modifies this
      ensures workers == map w | w in old(workers) && old(workers)[w] >= now :: old(workers)[w]
      ensures workers.Keys == Active(old(workers), now)
    {
      var dead := Overdue(workers, now);
      PurgeWorkers(dead);
    }
  }

  // ---- the restorer ----

  function StagedRanks(t: Table): set<Rank> {
    set id | id in t.tasks && t.tasks[id].began.Some? :: Rank(t.tasks[id].record.info.due, t.tasks[id].seqNo, id)
  }

  /** The rows of the stage the backend lists, earliest due first. */
  function StageInfo(t: Table, limit: nat): (rows: seq<StageRow>)
    requires Inv(t)
    ensures IsStageList(View(t), rows) && |rows| == Min(limit, |StagedRanks(t)|)
  {
    ListedAreStaged(t, limit);
    var listed := Take(Sort(StagedRanks(t)), limit);
    seq(|listed|, i requires 0 <= i < |listed| => StageRow(listed[i].id, t.tasks[listed[i].id].assignee.value))
  }

  lemma ListedAreStaged(t: Table, limit: nat)
    requires Inv(t)
    ensures var listed := Take(Sort(StagedRanks(t)), limit);
            && |listed| == Min(limit, |StagedRanks(t)|)
            && (forall i | 0 <= i < |listed| ::
                  && listed[i].id in t.tasks && t.tasks[listed[i].id].assignee.Some?
                  && StagedFor(View(t), t.tasks[listed[i].id].assignee.value, listed[i].id))
            && (forall i, j | 0 <= i < j < |listed| :: listed[i].id != listed[j].id)
  {
    var ranks := StagedRanks(t);
    SortedPrefixIsLeast(ranks, limit);
    var listed := Take(Sort(ranks), limit);
    forall i | 0 <= i < |listed|
      ensures listed[i].id in t.tasks && t.tasks[listed[i].id].assignee.Some?
      ensures StagedFor(View(t), t.tasks[listed[i].id].assignee.value, listed[i].id)
      ensures listed[i] == Rank(t.tasks[listed[i].id].record.info.due, t.tasks[listed[i].id].seqNo, listed[i].id)
    {
      assert listed[i] in listed;
      assert listed[i] in ranks;
      assert Coherent(t.tasks[listed[i].id]);
    }
    forall i, j | 0 <= i < j < |listed| ensures listed[i].id != listed[j].id {
      AscendingDistinct(listed, i, j);
    }
  }

  function AbandonedIds(rows: seq<StageRow>, active: set<WorkerId>): set<TaskId> {
    set i | 0 <= i < |rows| && rows[i].worker !in active :: rows[i].id
  }

  function UnstageAll(t: Table, ids: set<TaskId>): Table {
    t.(tasks := map id | id in t.tasks ::
      if id in ids then t.tasks[id].(began := None, assignee := None) else t.tasks[id])
  }

  lemma UnstageAllKeepsInv(t: Table, ids: set<TaskId>)
    requires Inv(t)
    ensures Inv(UnstageAll(t, ids))
  {
    var t' := UnstageAll(t, ids);
    forall id | id in t'.tasks
      ensures t'.tasks[id].record.info.id == id && t'.tasks[id].seqNo <= t'.seqNo && Coherent(t'.tasks[id])
    {
      assert Coherent(t.tasks[id]);
    }
  }

  /** The listed tasks of inactive workers, and no others, become queued again. */
  lemma UnstageAllRequeues(t: Table, rows: seq<StageRow>, active: set<WorkerId>)
    requires Inv(t) && IsStageList(View(t), rows)
    ensures Inv(UnstageAll(t, AbandonedIds(rows, active)))
    ensures forall id | id in View(t) :: View(UnstageAll(t, AbandonedIds(rows, active)))[id]
              == if id in AbandonedIds(rows, active) then View(t)[id].(phase := Queued) else View(t)[id]
    ensures forall id, w | StagedFor(View(t), w, id) && w in active ::
              StagedFor(View(UnstageAll(t, AbandonedIds(rows, active))), w, id)
  {
    var ids := AbandonedIds(rows, active);
    UnstageAllKeepsInv(t, ids);
    forall id | id in ids ensures id in View(t) && View(t)[id].phase.Staged? && View(t)[id].phase.worker !in active {
      var i :| 0 <= i < |rows| && rows[i].worker !in active && rows[i].id == id;
      assert StagedFor(View(t), rows[i].worker, rows[i].id);
    }
  }

  /** The assigned entries that are due earlier than the given one, or as early and put earlier. */
  function AssignedBefore(t: Table, id: TaskId): set<TaskId>
    requires id in t.tasks
  {
    set other | other in t.tasks && t.tasks[other].began.Some? && Earlier(t.tasks[other], t.tasks[id])
  }

  predicate HeldByInactive(t: Table, active: set<WorkerId>, id: TaskId) {
    id in t.tasks && t.tasks[id].assignee.Some? && t.tasks[id].assignee.value !in active
  }

  lemma StagedRanksAre(t: Table)
    ensures StagedRanks(t) == set id | id in AssignedIds(t) :: RankOf(t, id)
  {
    forall r | r in StagedRanks(t) ensures r.id in AssignedIds(t) && r == RankOf(t, r.id) {
    }
    forall id | id in AssignedIds(t) ensures RankOf(t, id) in StagedRanks(t) {
    }
  }

  function AssignedIds(t: Table): set<TaskId> {
    set id | id in t.tasks && t.tasks[id].began.Some?
  }

  lemma ListingIsFirst(t: Table, limit: nat)
    requires Inv(t)
    ensures IsFirst(t, Take(Sort(StagedRanks(t)), limit), limit, AssignedIds(t))
  {
    SortedPrefixIsLeast(StagedRanks(t), limit);
    StagedRanksAre(t);
    LeastAreFirst(t, AssignedIds(t), StagedRanks(t), Take(Sort(StagedRanks(t)), limit), limit);
  }

  /** The listing is full, and of earlier entries, if it leaves an assigned one out. */
  lemma LeftOutOfListing(t: Table, limit: nat, id: TaskId)
    requires Inv(t) && id in AssignedIds(t)
    requires forall i | 0 <= i < |StageInfo(t, limit)| :: StageInfo(t, limit)[i].id != id
    ensures |AssignedBefore(t, id)| >= limit
  {
    var listed := Take(Sort(StagedRanks(t)), limit);
    ListingIsFirst(t, limit);
    forall i | 0 <= i < |listed| ensures listed[i].id != id {
      assert StageInfo(t, limit)[i].id == listed[i].id;
    }
    FullListing(t, listed, limit, id);
  }

  lemma FullListing(t: Table, listed: seq<Rank>, limit: nat, id: TaskId)
    requires IsFirst(t, listed, limit, AssignedIds(t)) && id in AssignedIds(t) && id !in Ids(listed)
    ensures |AssignedBefore(t, id)| >= limit
  {
    DistinctIdsCount(listed);
    assert forall other | other in Ids(listed) :: other in AssignedBefore(t, id);
    SubsetSize(Ids(listed), AssignedBefore(t, id));
  }

  lemma FewBeforeListed(t: Table, listed: seq<Rank>, limit: nat, k: nat)
    requires IsFirst(t, listed, limit, AssignedIds(t)) && k < |listed| <= limit
    ensures |AssignedBefore(t, listed[k].id)| < limit
  {
    var id := listed[k].id;
    forall other | other in AssignedBefore(t, id) ensures other in Ids(listed) && other != id {
      assert other in AssignedIds(t) && !Earlier(t.tasks[id], t.tasks[other]);
    }
    DistinctIdsCount(listed);
    SubsetSize(AssignedBefore(t, id) + {id}, Ids(listed));
  }

  /** What the listing shows has fewer assigned entries before it than the listing may hold. */
  lemma ListedIsEarly(t: Table, limit: nat, k: nat)
    requires Inv(t) && k < |StageInfo(t, limit)|
    ensures StageInfo(t, limit)[k].id in t.tasks && |AssignedBefore(t, StageInfo(t, limit)[k].id)| < limit
  {
    ListingIsFirst(t, limit);
    ListedAreStaged(t, limit);
    FewBeforeListed(t, Take(Sort(StagedRanks(t)), limit), limit, k);
  }

  lemma {:induction false} DistinctIdsCount(ranks: seq<Rank>)
    requires forall i, j | 0 <= i < j < |ranks| :: ranks[i].id != ranks[j].id
    ensures |Ids(ranks)| == |ranks|
  {
    if ranks == [] {
      assert Ids(ranks) == {};
    } else {
      var n := |ranks| - 1;
      DistinctIdsCount(ranks[..n]);
      assert ranks[n].id !in Ids(ranks[..n]);
      IdsOfAll(ranks);
    }
  }

  lemma IdsOfAll(ranks: seq<Rank>)
    requires ranks != []
    ensures Ids(ranks) == Ids(ranks[..|ranks| - 1]) + {ranks[|ranks| - 1].id}
  {
    var n := |ranks| - 1;
    forall i | 0 <= i < n ensures ranks[..n][i] == ranks[i] {
    }
    forall id | id in Ids(ranks[..n]) ensures id in Ids(ranks) {
      var i :| 0 <= i < n && ranks[..n][i].id == id;
      assert ranks[i].id == id;
    }
  }

  lemma ListedIsFree(t: Table, active: set<WorkerId>, i: nat)
    requires Inv(t) && i < |StageInfo(t, LISTED_AT_ONCE)|
    ensures !HeldByInactive(Swept(t, active), active, StageInfo(t, LISTED_AT_ONCE)[i].id)
  {
    var row := StageInfo(t, LISTED_AT_ONCE)[i];
    assert StagedFor(View(t), row.worker, row.id);
    if row.worker !in active {
      assert row.id in AbandonedIds(StageInfo(t, LISTED_AT_ONCE), active);
    }
  }

  /** An inactive worker still holds a task after a sweep exactly if a hundred assigned entries were before it. */
  lemma SweepLeaves(t: Table, active: set<WorkerId>, id: TaskId)
    requires Inv(t) && Inv(Swept(t, active))
    ensures HeldByInactive(Swept(t, active), active, id)
       <==> HeldByInactive(t, active, id) && |AssignedBefore(t, id)| >= LISTED_AT_ONCE
  {
    var rows := StageInfo(t, LISTED_AT_ONCE);
    if i :| 0 <= i < |rows| && rows[i].id == id {
      ListedIsFree(t, active, i);
      ListedIsEarly(t, LISTED_AT_ONCE, i);
    } else if HeldByInactive(t, active, id) {
      assert Coherent(t.tasks[id]);
      LeftOutOfListing(t, LISTED_AT_ONCE, id);
      assert id !in AbandonedIds(rows, active);
    }
  }

  function Swept(t: Table, active: set<WorkerId>): Table
    requires Inv(t)
  {
    UnstageAll(t, AbandonedIds(StageInfo(t, LISTED_AT_ONCE), active))
  }

  lemma BeforeIsFewer(t: Table, id: TaskId)
    requires id in AssignedIds(t)
    ensures |AssignedBefore(t, id)| < |AssignedIds(t)|
  {
    SubsetSize(AssignedBefore(t, id) + {id}, AssignedIds(t));
  }

  /** One sweep: requeues what the first rows of the stage show as held by an inactive worker. */
  method RestoreAbandonedTasks(tracker: Tracker, backend: Memory, now: Timestamp)
    requires Inv(backend.Contents())
    modifies backend`tasks
    ensures Inv(backend.Contents())
    ensures var rows := StageInfo(old(backend.Contents()), LISTED_AT_ONCE);
            backend.Contents() == UnstageAll(old(backend.Contents()), AbandonedIds(rows, Active(tracker.workers, now)))
    ensures forall id :: HeldByInactive(backend.Contents(), Active(tracker.workers, now), id)
              <==> && HeldByInactive(old(backend.Contents()), Active(tracker.workers, now), id)
                   && |AssignedBefore(old(backend.Contents()), id)| >= 100
    ensures |AssignedIds(old(backend.Contents()))| <= 100 ==>
              forall id :: !HeldByInactive(backend.Contents(), Active(tracker.workers, now), id)
  {
    ghost var t := backend.Contents();
    var rows := StageInfo(backend.Contents(), LISTED_AT_ONCE);
    var active := Active(tracker.workers, now);
    RestoreEach(backend, rows, active);
    UnstageAllRequeues(t, rows, active);
    SweepIsThorough(t, active);
  }

  lemma SweepIsThorough(t: Table, active: set<WorkerId>)
    requires Inv(t) && Inv(Swept(t, active))
    ensures forall id :: HeldByInactive(Swept(t, active), active, id)
                         <==> HeldByInactive(t, active, id) && |AssignedBefore(t, id)| >= 100
    ensures |AssignedIds(t)| <= 100 ==> forall id :: !HeldByInactive(Swept(t, active), active, id)
  {
    forall id
      ensures HeldByInactive(Swept(t, active), active, id)
              <==> HeldByInactive(t, active, id) && |AssignedBefore(t, id)| >= 100
      ensures HeldByInactive(Swept(t, active), active, id) ==> |AssignedIds(t)| > 100
    {
      SweepLeaves(t, active, id);
      if HeldByInactive(t, active, id) {
        assert Coherent(t.tasks[id]);
        BeforeIsFewer(t, id);
      }
    }
  }

  /** The sweep's loop over the listed rows. */
  method RestoreEach(backend: Memory, rows: seq<StageRow>, active: set<WorkerId>)
    modifies backend`tasks
    ensures backend.Contents() == UnstageAll(old(backend.Contents()), AbandonedIds(rows, active))
  {
    ghost var t := backend.Contents();
    UnstageNone(t, rows, active);
    for i := 0 to |rows|
      invariant backend.Contents() == UnstageAll(t, AbandonedIds(rows[..i], active))
    {
      AbandonedOneMore(rows, active, i);
      if rows[i].worker !in active {
        UnstageOneMore(t, AbandonedIds(rows[..i], active), rows[i].id);
        backend.Restore(rows[i].id);
      }
    }
    assert rows[..|rows|] == rows;
  }

  lemma UnstageNone(t: Table, rows: seq<StageRow>, active: set<WorkerId>)
    ensures UnstageAll(t, AbandonedIds(rows[..0], active)) == t
  {
    assert AbandonedIds([], active) == {};
  }

  lemma UnstageOneMore(t: Table, ids: set<TaskId>, id: TaskId)
    ensures Unstage(UnstageAll(t, ids), id) == UnstageAll(t, ids + {id})
  {
  }

  lemma AbandonedOneMore(rows: seq<StageRow>, active: set<WorkerId>, i: nat)
    requires i < |rows|
    ensures AbandonedIds(rows[..i + 1], active)
         == AbandonedIds(rows[..i], active) + if rows[i].worker in active then {} else {rows[i].id}
  {
    var before, after := rows[..i], rows[..i + 1];
    forall k | 0 <= k < i ensures before[k] == after[k] {
    }
    forall id | id in AbandonedIds(before, active) ensures id in AbandonedIds(after, active) {
      var k :| 0 <= k < i && before[k].worker !in active && before[k].id == id;
      assert after[k] == before[k];
    }
    if rows[i].worker !in active {
      assert after[i] == rows[i];
    }
  }
}
