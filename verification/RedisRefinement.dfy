/**
 The nine Redis structures agree with each other after every operation, and in
 disciplined runs they are one table of queued, staged and done tasks.
 */
module RedisRefinement {
  import opened Tasks
  import opened Ordering
  import opened Lifecycle
  import opened RedisStore
  import Claiming

  // ---- agreement of the structures ----

  predicate KeysAgree(s: Store) {
    && s.info.Keys == s.data.Keys
    && s.stageQueue.Keys == s.stageInfo.Keys
    && s.doneQueue.Keys == s.disposableQueue.Keys
    && s.doneQueue.Keys == s.result.Keys + s.error.Keys
    && s.doneQueue.Keys <= s.info.Keys
    && s.stageInfo.Keys <= s.info.Keys
  }

  predicate Located(s: Store, id: TaskId)
    requires id in s.info
  {
    id in Queue(s.queues, s.info[id].group) || id in s.stageInfo || id in s.doneQueue
  }

  /** A member of a group's queue is known, of that group, scored by its due time, and not staged. */
  predicate QueuedOk(s: Store, group: Group, id: TaskId) {
    id in Queue(s.queues, group) ==>
      && id in s.info && s.info[id].group == group && s.info[id].due == Queue(s.queues, group)[id]
      && id !in s.stageInfo
  }

  predicate StagedOk(s: Store, id: TaskId) {
    id in s.stageInfo ==>
      s.stageInfo[id].task == id && id in s.info && id in s.stageQueue && s.stageQueue[id] == s.info[id].due
  }

  predicate PlacedOk(s: Store, id: TaskId) {
    (id in s.info ==> s.info[id].id == id && Located(s, id)) && StagedOk(s, id)
  }

  ghost predicate IdOk(s: Store, id: TaskId) {
    PlacedOk(s, id) && forall group :: QueuedOk(s, group, id)
  }

  ghost predicate RepInv(s: Store) {
    KeysAgree(s) && forall id :: IdOk(s, id)
  }

  /** Records name the group under which the task is stored. */
  predicate StableGroups(s: Store, op: Op) {
    match op
    case RetryTask(r) => r.info.id in s.info ==> s.info[r.info.id].group == r.info.group
    case Finish(r, _, _) => r.info.id in s.info ==> s.info[r.info.id].group == r.info.group
    case _ => true
  }

  function Replace(s: Store, r: TaskRecord): Store {
    var id := r.info.id;
    s.(stageQueue := s.stageQueue - {id}, stageInfo := s.stageInfo - {id},
       info := s.info[id := r.info], data := s.data[id := r.data],
       queues := ZAdd(s.queues, r.info.group, id, r.info.due))
  }

  lemma ReplaceKeepsQueued(s: Store, r: TaskRecord, group: Group, id: TaskId)
    requires QueuedOk(s, group, id) && StableGroups(s, RetryTask(r))
    ensures QueuedOk(Replace(s, r), group, id)
  {
  }

  lemma ReplaceKeepsPlaced(s: Store, r: TaskRecord, id: TaskId)
    requires PlacedOk(s, id)
    ensures PlacedOk(Replace(s, r), id)
  {
  }

  lemma ReplaceKeepsRep(s: Store, r: TaskRecord)
    requires RepInv(s) && StableGroups(s, RetryTask(r))
    ensures RepInv(Replace(s, r))
  {
    forall id ensures IdOk(Replace(s, r), id) {
      assert IdOk(s, id);
      ReplaceKeepsPlaced(s, r, id);
      forall group ensures QueuedOk(Replace(s, r), group, id) {
        ReplaceKeepsQueued(s, r, group, id);
      }
    }
  }

  lemma RetryIs(s: Store, r: TaskRecord)
    ensures EnqueueAll(s, [r], true) == Replace(s, r)
  {
    assert [r][..0] == [];
    assert (s.info - {r.info.id})[r.info.id := r.info] == s.info[r.info.id := r.info];
  }

  lemma InsertKeepsRep(s: Store, r: TaskRecord)
    requires RepInv(s)
    ensures RepInv(Insert(s, r))
  {
    if r.info.id !in s.info {
      ReplaceKeepsRep(s, r);
      assert s.stageQueue - {r.info.id} == s.stageQueue && s.stageInfo - {r.info.id} == s.stageInfo;
      assert Replace(s, r) == Insert(s, r);
    }
  }

  lemma {:induction false} PutAllKeepsRep(s: Store, rs: seq<TaskRecord>)
    requires RepInv(s)
    ensures RepInv(EnqueueAll(s, rs, false))
  {
    if rs != [] {
      PutAllKeepsRep(s, rs[..|rs| - 1]);
      InsertKeepsRep(EnqueueAll(s, rs[..|rs| - 1], false), rs[|rs| - 1]);
    }
  }

  lemma CompleteKeepsKeys(s: Store, r: TaskRecord, outcome: Outcome, now: Timestamp)
    requires KeysAgree(s)
    ensures KeysAgree(Complete(s, r, outcome, now))
  {
    var s', id := Complete(s, r, outcome, now), r.info.id;
    assert s'.result.Keys + s'.error.Keys == s.result.Keys + s.error.Keys + {id};
  }

  lemma CompleteKeepsQueued(s: Store, r: TaskRecord, outcome: Outcome, now: Timestamp, group: Group, id: TaskId)
    requires QueuedOk(s, group, id) && StableGroups(s, Finish(r, outcome, now))
    ensures QueuedOk(Complete(s, r, outcome, now), group, id)
  {
  }

  lemma CompleteKeepsPlaced(s: Store, r: TaskRecord, outcome: Outcome, now: Timestamp, id: TaskId)
    requires PlacedOk(s, id)
    ensures PlacedOk(Complete(s, r, outcome, now), id)
  {
  }

  lemma CompleteKeepsId(s: Store, r: TaskRecord, outcome: Outcome, now: Timestamp, id: TaskId)
    requires IdOk(s, id) && StableGroups(s, Finish(r, outcome, now))
    ensures IdOk(Complete(s, r, outcome, now), id)
  {
    CompleteKeepsPlaced(s, r, outcome, now, id);
    forall group ensures QueuedOk(Complete(s, r, outcome, now), group, id) {
      CompleteKeepsQueued(s, r, outcome, now, group, id);
    }
  }

  lemma CompleteKeepsRep(s: Store, r: TaskRecord, outcome: Outcome, now: Timestamp)
    requires RepInv(s) && StableGroups(s, Finish(r, outcome, now))
    ensures RepInv(Complete(s, r, outcome, now))
  {
    CompleteKeepsKeys(s, r, outcome, now);
    forall id ensures IdOk(Complete(s, r, outcome, now), id) {
      assert IdOk(s, id);
      CompleteKeepsId(s, r, outcome, now, id);
    }
  }

  lemma DequeueIs(s: Store, ids: set<TaskId>, group: Group, id: TaskId)
    requires RepInv(s)
    ensures id in Queue(Dequeue(s, ids), group) <==> id in Queue(s.queues, group) && id !in ids
    ensures id in Queue(Dequeue(s, ids), group) ==> Queue(Dequeue(s, ids), group)[id] == Queue(s.queues, group)[id]
  {
    assert IdOk(s, id);
    assert QueuedOk(s, group, id);
  }

  lemma DiscardKeepsId(s: Store, ids: set<TaskId>, id: TaskId)
    requires RepInv(s)
    ensures IdOk(Discard(s, ids), id)
  {
    var s' := Discard(s, ids);
    assert IdOk(s, id);
    if id in s'.info {
      DequeueIs(s, ids, s.info[id].group, id);
    }
    forall group ensures QueuedOk(s', group, id) {
      assert QueuedOk(s, group, id);
      DequeueIs(s, ids, group, id);
    }
  }

  lemma DiscardKeepsRep(s: Store, ids: set<TaskId>)
    requires RepInv(s)
    ensures RepInv(Discard(s, ids))
  {
    forall id ensures IdOk(Discard(s, ids), id) {
      DiscardKeepsId(s, ids, id);
    }
  }

  lemma AssignKeepsQueued(s: Store, group: Group, worker: WorkerId, picked: seq<Rank>, now: Timestamp, g: Group,
                          id: TaskId)
    requires Ids(picked) <= Queue(s.queues, group).Keys && QueuedOk(s, group, id) && QueuedOk(s, g, id)
    ensures QueuedOk(Assign(s, group, worker, picked, now), g, id)
  {
  }

  lemma AssignKeepsPlaced(s: Store, group: Group, worker: WorkerId, picked: seq<Rank>, now: Timestamp, id: TaskId)
    requires Ids(picked) <= Queue(s.queues, group).Keys && PlacedOk(s, id) && QueuedOk(s, group, id)
    ensures PlacedOk(Assign(s, group, worker, picked, now), id)
  {
  }

  lemma AssignKeepsKeys(s: Store, group: Group, worker: WorkerId, picked: seq<Rank>, now: Timestamp)
    requires RepInv(s) && Ids(picked) <= Queue(s.queues, group).Keys
    ensures KeysAgree(Assign(s, group, worker, picked, now))
  {
    forall id | id in Ids(picked) ensures id in s.info {
      assert IdOk(s, id);
      assert QueuedOk(s, group, id);
    }
  }

  lemma AssignKeepsRep(s: Store, group: Group, worker: WorkerId, picked: seq<Rank>, now: Timestamp)
    requires RepInv(s) && Ids(picked) <= Queue(s.queues, group).Keys
    ensures RepInv(Assign(s, group, worker, picked, now))
  {
    AssignKeepsKeys(s, group, worker, picked, now);
    forall id ensures IdOk(Assign(s, group, worker, picked, now), id) {
      assert IdOk(s, id);
      AssignKeepsPlaced(s, group, worker, picked, now, id);
      forall g ensures QueuedOk(Assign(s, group, worker, picked, now), g, id) {
        AssignKeepsQueued(s, group, worker, picked, now, g, id);
      }
    }
  }

  /** What a lookup found is still what is stored. */
  predicate StillStored(s: Store, found: TaskInfo) {
    found.id in s.info && s.info[found.id].group == found.group && s.info[found.id].due == found.due
  }

  lemma RestoreKeepsQueued(s: Store, found: TaskInfo, group: Group, id: TaskId)
    requires QueuedOk(s, group, id) && StillStored(s, found)
    ensures QueuedOk(RestoreCommit(s, found), group, id)
  {
  }

  lemma RestoreKeepsPlaced(s: Store, found: TaskInfo, id: TaskId)
    requires PlacedOk(s, id) && StillStored(s, found)
    ensures PlacedOk(RestoreCommit(s, found), id)
  {
  }

  lemma RestoreKeepsRep(s: Store, found: TaskInfo)
    requires RepInv(s) && StillStored(s, found)
    ensures RepInv(RestoreCommit(s, found))
  {
    forall id ensures IdOk(RestoreCommit(s, found), id) {
      assert IdOk(s, id);
      RestoreKeepsPlaced(s, found, id);
      forall group ensures QueuedOk(RestoreCommit(s, found), group, id) {
        RestoreKeepsQueued(s, found, group, id);
      }
    }
  }

  /**
   A restore looks the task up and then moves it in a second step. The structures
   still agree afterwards exactly when nothing changed the task's queue key or due
   time, or forgot the task, between the two.
   */
  lemma RestoreNeedsFreshLookup(s: Store, found: TaskInfo)
    requires RepInv(s)
    ensures RepInv(RestoreCommit(s, found)) <==> StillStored(s, found)
  {
    var s' := RestoreCommit(s, found);
    if StillStored(s, found) {
      RestoreKeepsRep(s, found);
    }
    if RepInv(s') {
      assert IdOk(s', found.id);
      assert QueuedOk(s', found.group, found.id);
    }
  }

  /** Every atomic operation keeps the structures in agreement, disciplined or not. */
  lemma ExecKeepsRep(s: Store, op: Op)
    requires RepInv(s) && StableGroups(s, op)
    ensures RepInv(Exec(s, op).0)
  {
    match op
    case PutTasks(rs) => PutAllKeepsRep(s, rs);
    case AssignTasks(group, worker, limit, now) =>
      ClaimIsSafe(s, group, limit, now);
      AssignKeepsRep(s, group, worker, Picked(s, group, limit, now), now);
    case RetryTask(r) =>
      RetryIs(s, r);
      ReplaceKeepsRep(s, r);
    case DiscardTasks(ids) => DiscardKeepsRep(s, set id | id in ids);
    case Finish(r, outcome, now) => CompleteKeepsRep(s, r, outcome, now);
    case Restore(id) =>
      assert IdOk(s, id);
      if id in s.info {
        RestoreKeepsRep(s, s.info[id]);
      }
  }

  // ---- one table ----

  predicate DoneOk(s: Store, id: TaskId) {
    id in s.doneQueue ==>
      && id in s.info && id in s.disposableQueue
      && s.disposableQueue[id] == s.doneQueue[id] + s.info[id].ttl
      && id !in Queue(s.queues, s.info[id].group) && id !in s.stageInfo
      && !(id in s.result && id in s.error)
  }

  /** The structures agree and every task is in exactly one of queue, stage and done. */
  ghost predicate Sync(s: Store) {
    RepInv(s) && forall id :: DoneOk(s, id)
  }

  predicate InQueue(s: Store, id: TaskId) {
    id in s.info && id in Queue(s.queues, s.info[id].group)
  }

  /** In a disciplined run a known task is in one place, and in no queue but its own group's. */
  lemma OnePlace(s: Store, id: TaskId, group: Group)
    requires Sync(s)
    ensures id in s.info <==> InQueue(s, id) || id in s.stageInfo || id in s.doneQueue
    ensures !(InQueue(s, id) && id in s.stageInfo) && !(InQueue(s, id) && id in s.doneQueue)
    ensures !(id in s.stageInfo && id in s.doneQueue)
    ensures id in Queue(s.queues, group) ==> InQueue(s, id) && s.info[id].group == group
    ensures id in s.doneQueue <==> id in s.result || id in s.error
  {
    assert IdOk(s, id);
    assert QueuedOk(s, group, id);
    assert DoneOk(s, id);
    if id in s.info {
      assert QueuedOk(s, s.info[id].group, id);
    }
  }

  function PhaseOf(s: Store, id: TaskId): Phase
    requires KeysAgree(s) && id in s.info
  {
    if id in s.doneQueue
    then Done(s.doneQueue[id], s.disposableQueue[id],
              if id in s.result then Succeeded(s.result[id]) else Failed(s.error[id]))
    else if id in s.stageInfo then Staged(s.stageInfo[id].worker, s.stageInfo[id].assignedAt)
    else Queued
  }

  function RowOf(s: Store, id: TaskId): Row
    requires KeysAgree(s) && id in s.info
  {
    Row(TaskRecord(s.info[id], s.data[id]), PhaseOf(s, id))
  }

  function View(s: Store): Board
    requires KeysAgree(s)
  {
    map id | id in s.info :: RowOf(s, id)
  }

  lemma ViewKeyed(s: Store)
    requires RepInv(s)
    ensures Keyed(View(s))
  {
    forall id | id in View(s) ensures View(s)[id].record.info.id == id {
      assert IdOk(s, id);
    }
  }

  lemma OneRowSet(b: Board, id: TaskId, row: Row, b': Board)
    requires forall i :: i in b' <==> i in b || i == id
    requires forall i | i in b' :: b'[i] == if i == id then row else b[i]
    ensures b' == b[id := row]
  {
  }

  lemma ReplaceKeepsDone(s: Store, r: TaskRecord, id: TaskId)
    requires DoneOk(s, id) && StableGroups(s, RetryTask(r)) && r.info.id !in s.doneQueue
    ensures DoneOk(Replace(s, r), id)
  {
  }

  lemma ReplacedView(s: Store, r: TaskRecord)
    requires KeysAgree(s) && KeysAgree(Replace(s, r)) && r.info.id !in s.doneQueue
    ensures View(Replace(s, r)) == View(s)[r.info.id := Row(r, Queued)]
  {
    var b', row := View(Replace(s, r)), Row(r, Queued);
    forall id | id in b' ensures b'[id] == if id == r.info.id then row else View(s)[id] {
    }
    OneRowSet(View(s), r.info.id, row, b');
  }

  lemma ReplaceSimulates(s: Store, r: TaskRecord)
    requires Sync(s) && StableGroups(s, RetryTask(r)) && (r.info.id in s.stageInfo || r.info.id !in s.info)
    ensures Sync(Replace(s, r)) && View(Replace(s, r)) == View(s)[r.info.id := Row(r, Queued)]
  {
    assert DoneOk(s, r.info.id);
    ReplaceKeepsRep(s, r);
    forall id ensures DoneOk(Replace(s, r), id) {
      ReplaceKeepsDone(s, r, id);
    }
    ReplacedView(s, r);
  }

  lemma InsertSimulates(s: Store, r: TaskRecord)
    requires Sync(s)
    ensures Sync(Insert(s, r)) && View(Insert(s, r)) == Put(View(s), r)
  {
    if r.info.id !in s.info {
      ReplaceSimulates(s, r);
      assert s.stageQueue - {r.info.id} == s.stageQueue && s.stageInfo - {r.info.id} == s.stageInfo;
      assert Replace(s, r) == Insert(s, r);
    }
  }

  lemma {:induction false} PutAllSimulates(s: Store, rs: seq<TaskRecord>)
    requires Sync(s)
    ensures Sync(EnqueueAll(s, rs, false)) && View(EnqueueAll(s, rs, false)) == PutAll(View(s), rs)
  {
    if rs != [] {
      PutAllSimulates(s, rs[..|rs| - 1]);
      InsertSimulates(EnqueueAll(s, rs[..|rs| - 1], false), rs[|rs| - 1]);
    }
  }

  lemma CompletedRow(s: Store, r: TaskRecord, outcome: Outcome, now: Timestamp, id: TaskId)
    requires KeysAgree(s) && KeysAgree(Complete(s, r, outcome, now)) && id in Complete(s, r, outcome, now).info
    requires id == r.info.id ==> id !in s.doneQueue
    ensures RowOf(Complete(s, r, outcome, now), id)
         == if id == r.info.id then Row(r, Done(now, now + r.info.ttl, outcome)) else RowOf(s, id)
  {
  }

  lemma CompleteKeepsDone(s: Store, r: TaskRecord, outcome: Outcome, now: Timestamp, id: TaskId)
    requires RepInv(s) && DoneOk(s, id) && StableGroups(s, Finish(r, outcome, now)) && r.info.id !in s.doneQueue
    ensures DoneOk(Complete(s, r, outcome, now), id)
  {
  }

  lemma CompleteSimulates(s: Store, r: TaskRecord, outcome: Outcome, now: Timestamp)
    requires Sync(s) && StableGroups(s, Finish(r, outcome, now)) && r.info.id in s.stageInfo
    ensures Sync(Complete(s, r, outcome, now))
    ensures View(Complete(s, r, outcome, now)) == View(s)[r.info.id := Row(r, Done(now, now + r.info.ttl, outcome))]
  {
    assert DoneOk(s, r.info.id);
    CompleteKeepsRep(s, r, outcome, now);
    var s' := Complete(s, r, outcome, now);
    forall id ensures DoneOk(s', id) {
      assert DoneOk(s, id);
      CompleteKeepsDone(s, r, outcome, now, id);
    }
    CompletedView(s, r, outcome, now);
  }

  lemma CompletedView(s: Store, r: TaskRecord, outcome: Outcome, now: Timestamp)
    requires KeysAgree(s) && KeysAgree(Complete(s, r, outcome, now)) && r.info.id !in s.doneQueue
    ensures View(Complete(s, r, outcome, now)) == View(s)[r.info.id := Row(r, Done(now, now + r.info.ttl, outcome))]
  {
    var b', row := View(Complete(s, r, outcome, now)), Row(r, Done(now, now + r.info.ttl, outcome));
    forall id | id in b' ensures b'[id] == if id == r.info.id then row else View(s)[id] {
      CompletedRow(s, r, outcome, now, id);
    }
    OneRowSet(View(s), r.info.id, row, b');
  }

  lemma DiscardKeepsDone(s: Store, ids: set<TaskId>, id: TaskId)
    requires RepInv(s) && DoneOk(s, id)
    ensures DoneOk(Discard(s, ids), id)
  {
    if id in s.info {
      DequeueIs(s, ids, s.info[id].group, id);
    }
  }

  lemma DiscardedView(s: Store, ids: set<TaskId>)
    requires KeysAgree(s) && KeysAgree(Discard(s, ids))
    ensures View(Discard(s, ids)) == View(s) - ids
  {
  }

  lemma DiscardSimulates(s: Store, ids: set<TaskId>)
    requires Sync(s)
    ensures Sync(Discard(s, ids)) && View(Discard(s, ids)) == View(s) - ids
  {
    DiscardKeepsRep(s, ids);
    forall id ensures DoneOk(Discard(s, ids), id) {
      DiscardKeepsDone(s, ids, id);
    }
    DiscardedView(s, ids);
  }

  lemma UnstageSimulates(s: Store, id: TaskId)
    requires Sync(s) && id in s.stageInfo
    ensures Sync(Unstage(s, id)) && View(Unstage(s, id)) == View(s)[id := View(s)[id].(phase := Queued)]
  {
    assert IdOk(s, id);
    RestoreKeepsRep(s, s.info[id]);
    var s' := Unstage(s, id);
    assert DoneOk(s, id);
    forall i ensures DoneOk(s', i) {
      assert DoneOk(s, i);
    }
  }

  /**
   Restoring a known task keeps the structures standing for one table exactly when the
   task is not finished; a finished one would be queued and done at once.
   */
  lemma RestoreNeedsUnfinished(s: Store, id: TaskId)
    requires Sync(s) && id in s.info
    ensures Sync(Unstage(s, id)) <==> id !in s.doneQueue
  {
    assert IdOk(s, id);
    RestoreKeepsRep(s, s.info[id]);
    var s' := Unstage(s, id);
    assert id in Queue(s'.queues, s.info[id].group);
    if id !in s.doneQueue {
      forall i ensures DoneOk(s', i) {
        assert DoneOk(s, i);
      }
    } else if Sync(s') {
      OnePlace(s', id, s.info[id].group);
    }
  }

  /**
   A restore looks the task up and moves it in a second step. The structures still
   stand for one table exactly when in between nothing forgot the task, changed its
   group or due time, or finished it.
   */
  lemma RestoreNeedsWaitingTask(s: Store, found: TaskInfo)
    requires Sync(s)
    ensures Sync(RestoreCommit(s, found)) <==> StillStored(s, found) && found.id !in s.doneQueue
  {
    var s' := RestoreCommit(s, found);
    RestoreNeedsFreshLookup(s, found);
    if StillStored(s, found) && found.id !in s.doneQueue {
      forall i ensures DoneOk(s', i) {
        assert DoneOk(s, i);
      }
    } else if Sync(s') {
      OnePlace(s', found.id, found.group);
    }
  }

  /** Then it is the lifecycle's restore, whether or not the task is still staged. */
  lemma LateRestoreSimulates(s: Store, found: TaskInfo)
    requires Sync(s) && StillStored(s, found) && found.id !in s.doneQueue
    ensures Sync(RestoreCommit(s, found))
    ensures Next(View(s), Event(Restore(found.id), []), View(RestoreCommit(s, found)))
  {
    RestoreNeedsWaitingTask(s, found);
    OnePlace(s, found.id, found.group);
    var s' := RestoreCommit(s, found);
    if found.id in s.stageInfo {
      UnstageSimulates(s, found.id);
      assert IdOk(s, found.id);
      assert Unstage(s, found.id) == s';
    } else {
      assert View(s') == View(s);
    }
  }

  /** Everything queued among the discarded ids was looked up in the queue it is in now. */
  predicate StillFound(s: Store, ids: set<TaskId>, found: Found) {
    forall id | id in ids && InQueue(s, id) :: (id, s.info[id].group) in found
  }

  /**
   A discard, too, looks the tasks up and removes them in a second step. The structures
   still agree exactly when no id was queued in between where it was not found.
   */
  lemma DiscardNeedsFreshLookup(s: Store, ids: set<TaskId>, found: Found)
    requires RepInv(s) && forall p | p in found :: p.0 in ids
    ensures RepInv(DiscardCommit(s, ids, found)) <==> StillFound(s, ids, found)
  {
    var s' := DiscardCommit(s, ids, found);
    if StillFound(s, ids, found) {
      FreshDiscard(s, ids, found);
      DiscardKeepsRep(s, ids);
    } else {
      var id :| id in ids && InQueue(s, id) && (id, s.info[id].group) !in found;
      assert id in Queue(s'.queues, s.info[id].group) && id !in s'.info;
      assert !QueuedOk(s', s.info[id].group, id);
      assert !IdOk(s', id);
    }
  }

  /** Then it discards as one step would. */
  lemma FreshDiscard(s: Store, ids: set<TaskId>, found: Found)
    requires RepInv(s) && StillFound(s, ids, found) && forall p | p in found :: p.0 in ids
    ensures DiscardCommit(s, ids, found) == Discard(s, ids)
  {
    forall group | group in s.queues ensures DequeueFound(s.queues, found)[group] == Dequeue(s, ids)[group] {
      forall id ensures id in DequeueFound(s.queues, found)[group] <==> id in Dequeue(s, ids)[group] {
        DequeueIs(s, ids, group, id);
        assert IdOk(s, id);
        assert QueuedOk(s, group, id);
        FoundGoes(s.queues, found, group, id);
      }
    }
  }

  lemma FoundGoes(queues: map<Group, ZSet>, found: Found, group: Group, id: TaskId)
    requires group in queues
    ensures id in DequeueFound(queues, found)[group] <==> id in queues[group] && (id, group) !in found
  {
    if (id, group) in found {
      assert (id, group).0 == id;
    }
  }

  /** Queued and due in the table means listed and due in the group's sorted set. */
  lemma ReadyIsQueued(s: Store, group: Group, now: Timestamp, id: TaskId)
    requires Sync(s)
    ensures id in Ready(View(s), group, now) <==> id in Queue(s.queues, group) && Queue(s.queues, group)[id] <= now
  {
    assert IdOk(s, id);
    assert QueuedOk(s, group, id);
    assert DoneOk(s, id);
  }

  function DueRanks(s: Store, group: Group, now: Timestamp): set<Rank> {
    set r | r in Ranks(Queue(s.queues, group)) && r.due <= now
  }

  /** The script's scan of the `limit` lowest scores finds exactly the first due ids. */
  lemma PickedIsExact(s: Store, group: Group, limit: nat, now: Timestamp)
    requires RepInv(s)
    ensures IsLeast(Picked(s, group, limit, now), DueRanks(s, group, now), limit)
  {
    var all := Ranks(Queue(s.queues, group));
    var candidates := ZRange(Queue(s.queues, group), limit);
    SortedPrefixIsLeast(all, limit);
    TakeableIs(s, candidates, now);
    forall r | r in all ensures r.id in s.info && r.id in s.data {
      assert IdOk(s, r.id);
      assert QueuedOk(s, group, r.id);
    }
    DuePartIsLeast(Picked(s, group, limit, now), candidates, all, DueRanks(s, group, now), limit, now);
  }

  /** So the claim lists due tasks by due time and then by name, and leaves none out for a later one. */
  lemma PickedInOrder(s: Store, group: Group, limit: nat, now: Timestamp)
    requires RepInv(s)
    ensures var picked := Picked(s, group, limit, now);
            && (forall i, j | 0 <= i < j < |picked| :: FirstBy(picked[i], picked[j]))
            && forall id | id in Queue(s.queues, group) && Queue(s.queues, group)[id] <= now && id !in Ids(picked) ::
                 |picked| == limit
                 && forall i | 0 <= i < |picked| :: FirstBy(picked[i], Rank(Queue(s.queues, group)[id], 0, id))
  {
    var picked, due := Picked(s, group, limit, now), DueRanks(s, group, now);
    PickedIsExact(s, group, limit, now);
    forall r | r in picked ensures r.seqNo == 0 {
      assert r in due;
    }
    forall i, j | 0 <= i < j < |picked| ensures FirstBy(picked[i], picked[j]) {
      assert picked[i] in picked && picked[j] in picked && Less(picked[i], picked[j]);
    }
    forall id | id in Queue(s.queues, group) && Queue(s.queues, group)[id] <= now && id !in Ids(picked)
      ensures |picked| == limit
      ensures forall i | 0 <= i < |picked| :: FirstBy(picked[i], Rank(Queue(s.queues, group)[id], 0, id))
    {
      var left := Rank(Queue(s.queues, group)[id], 0, id);
      assert left in due && left !in picked;
      forall i | 0 <= i < |picked| ensures FirstBy(picked[i], left) {
        assert picked[i] in picked && Less(picked[i], left);
      }
      LeftOutMeansFull(picked, due, limit, left);
    }
  }

  /** Due earlier, or as early with the name that comes first. */
  predicate FirstBy(a: Rank, b: Rank) {
    a.due < b.due || (a.due == b.due && Before(a.id, b.id))
  }

  lemma LeftOutMeansFull(xs: seq<Rank>, s: set<Rank>, limit: nat, left: Rank)
    requires IsLeast(xs, s, limit) && left in s && left !in xs
    ensures |xs| == limit
  {
    AscendingCount(xs);
    var listed := set x | x in xs;
    SubsetSize(listed + {left}, s);
  }

  lemma DuePartIsLeast(picked: seq<Rank>, candidates: seq<Rank>, all: set<Rank>, due: set<Rank>, limit: nat,
                       now: Timestamp)
    requires IsLeast(candidates, all, limit)
    requires due == set r | r in all && r.due <= now
    requires Ascending(picked)
    requires forall r :: r in picked <==> r in candidates && r.due <= now
    ensures IsLeast(picked, due, limit)
  {
    forall x, y | x in due && x !in picked && y in picked ensures Less(y, x) {
      assert x !in candidates;
    }
    var members, scanned := set r | r in picked, set r | r in candidates;
    AscendingCount(picked);
    AscendingCount(candidates);
    SubsetSize(members, scanned);
    SubsetSize(members, due);
    if !(due <= members) {
      // A due member was left out, so every candidate precedes it and is due.
      var x :| x in due && x !in members;
      forall r | r in candidates ensures r in members {
        assert Less(r, x);
      }
      assert scanned == members;
      SubsetSize(due, all);
      SubsetSize(scanned + {x}, all);
    } else {
      assert members == due;
    }
  }

  lemma DueRanksCoverReady(s: Store, group: Group, now: Timestamp)
    requires Sync(s)
    ensures Claiming.RanksFor(View(s), Ready(View(s), group, now), DueRanks(s, group, now))
  {
    var b, ranks, z := View(s), DueRanks(s, group, now), Queue(s.queues, group);
    forall r | r in ranks ensures r.id in Ready(b, group, now) && r.id in b && r.due == b[r.id].record.info.due {
      ReadyIsQueued(s, group, now, r.id);
      assert IdOk(s, r.id);
      assert QueuedOk(s, group, r.id);
    }
    forall id | id in Ready(b, group, now) ensures exists r :: r in ranks && r.id == id {
      ReadyIsQueued(s, group, now, id);
      assert Rank(z[id], 0, id) in ranks;
    }
  }

  lemma AssignClaims(s: Store, group: Group, limit: nat, now: Timestamp)
    requires Sync(s)
    ensures forall r | r in Picked(s, group, limit, now) :: r.id in s.info && r.id in s.data
    ensures IsClaim(View(s), group, limit, now, ClaimsOf(s, Picked(s, group, limit, now), now))
  {
    ClaimIsSafe(s, group, limit, now);
    PickedIsExact(s, group, limit, now);
    DueRanksCoverReady(s, group, now);
    ViewKeyed(s);
    var picked := Picked(s, group, limit, now);
    Claiming.LeastIsClaim(View(s), group, limit, now, DueRanks(s, group, now), picked, ClaimsOf(s, picked, now));
  }

  lemma AssignKeepsSync(s: Store, group: Group, worker: WorkerId, picked: seq<Rank>, now: Timestamp)
    requires Sync(s) && Ids(picked) <= Queue(s.queues, group).Keys
    ensures Sync(Assign(s, group, worker, picked, now))
    ensures forall id | id in Ids(picked) :: id !in s.doneQueue
  {
    AssignKeepsRep(s, group, worker, picked, now);
    forall id ensures DoneOk(Assign(s, group, worker, picked, now), id) && (id in Ids(picked) ==> id !in s.doneQueue) {
      assert DoneOk(s, id);
      assert IdOk(s, id);
      assert QueuedOk(s, group, id);
    }
  }

  lemma AssignedRow(s: Store, group: Group, worker: WorkerId, picked: seq<Rank>, now: Timestamp, id: TaskId)
    requires Ids(picked) <= Queue(s.queues, group).Keys && id in s.info
    requires KeysAgree(s) && KeysAgree(Assign(s, group, worker, picked, now))
    requires id in Ids(picked) ==> id !in s.doneQueue
    ensures RowOf(Assign(s, group, worker, picked, now), id)
         == if id in Ids(picked) then RowOf(s, id).(phase := Staged(worker, now)) else RowOf(s, id)
  {
  }

  lemma ClaimIds(s: Store, picked: seq<Rank>, now: Timestamp)
    requires RepInv(s) && forall r | r in picked :: r.id in s.info && r.id in s.data
    ensures forall i | 0 <= i < |picked| :: ClaimsOf(s, picked, now)[i].Id() == picked[i].id
    ensures ClaimedIds(ClaimsOf(s, picked, now)) == Ids(picked)
  {
    forall i | 0 <= i < |picked| ensures ClaimsOf(s, picked, now)[i].Id() == picked[i].id {
      assert picked[i] in picked;
      assert IdOk(s, picked[i].id);
    }
  }

  lemma AssignStages(s: Store, group: Group, worker: WorkerId, picked: seq<Rank>, now: Timestamp)
    requires Sync(s) && Ids(picked) <= Queue(s.queues, group).Keys
    requires forall r | r in picked :: r.id in s.info && r.id in s.data
    ensures Sync(Assign(s, group, worker, picked, now))
    ensures IsStaging(View(s), worker, ClaimsOf(s, picked, now), View(Assign(s, group, worker, picked, now)))
  {
    var b', claims := View(Assign(s, group, worker, picked, now)), ClaimsOf(s, picked, now);
    AssignKeepsSync(s, group, worker, picked, now);
    ClaimIds(s, picked, now);
    forall i | 0 <= i < |claims|
      ensures claims[i].Id() in View(s) && b'[claims[i].Id()] == Row(claims[i].record, Staged(worker, claims[i].began))
    {
      assert picked[i] in picked && picked[i].id in Ids(picked);
      AssignedRow(s, group, worker, picked, now, picked[i].id);
    }
    forall id | id in View(s) && id !in ClaimedIds(claims) ensures b'[id] == View(s)[id] {
      AssignedRow(s, group, worker, picked, now, id);
    }
  }

  lemma AssignSimulates(s: Store, group: Group, worker: WorkerId, limit: nat, now: Timestamp)
    requires Sync(s)
    ensures var (s', claims) := Exec(s, AssignTasks(group, worker, limit, now));
            Sync(s') && IsClaim(View(s), group, limit, now, claims) && IsStaging(View(s), worker, claims, View(s'))
  {
    ClaimIsSafe(s, group, limit, now);
    AssignClaims(s, group, limit, now);
    AssignStages(s, group, worker, Picked(s, group, limit, now), now);
  }

  lemma DisciplineOf(s: Store, op: Op, id: TaskId)
    requires Sync(s)
    ensures IsStagedIn(View(s), id) <==> id in s.stageInfo
    ensures Disciplined(View(s), op) ==> StableGroups(s, op)
  {
    assert IdOk(s, id);
    assert DoneOk(s, id);
  }

  /** Every disciplined operation does to the structures what the lifecycle says of the table. */
  lemma Simulates(s: Store, op: Op)
    requires Sync(s) && Disciplined(View(s), op)
    ensures Sync(Exec(s, op).0)
    ensures Next(View(s), Event(op, Exec(s, op).1), View(Exec(s, op).0))
  {
    match op
    case PutTasks(rs) => PutAllSimulates(s, rs);
    case AssignTasks(group, worker, limit, now) => AssignSimulates(s, group, worker, limit, now);
    case RetryTask(r) =>
      DisciplineOf(s, op, r.info.id);
      RetryIs(s, r);
      ReplaceSimulates(s, r);
    case DiscardTasks(ids) => DiscardSimulates(s, set id | id in ids);
    case Finish(r, outcome, now) =>
      DisciplineOf(s, op, r.info.id);
      CompleteSimulates(s, r, outcome, now);
    case Restore(id) =>
      DisciplineOf(s, op, id);
      UnstageSimulates(s, id);
  }

  lemma ResultAgrees(s: Store, id: TaskId)
    requires Sync(s)
    ensures GetResult(s, id) == Result(View(s), id)
  {
    assert DoneOk(s, id);
  }

  // ---- whole runs ----

  ghost predicate IsTrace(stores: seq<Store>, events: seq<Event>) {
    && |stores| == |events| + 1
    && Sync(stores[0])
    && forall i | 0 <= i < |events| :: Exec(stores[i], events[i].op) == (stores[i + 1], events[i].claims)
  }

  /** Each step is disciplined with respect to the table its structures stand for. */
  ghost predicate DisciplinedTrace(stores: seq<Store>, boards: seq<Board>, events: seq<Event>)
    requires |stores| == |boards| == |events| + 1
  {
    && (forall i | 0 <= i < |stores| && KeysAgree(stores[i]) :: boards[i] == View(stores[i]))
    && (forall i | 0 <= i < |events| :: Disciplined(boards[i], events[i].op))
  }

  lemma {:induction false} TraceKeepsSync(stores: seq<Store>, boards: seq<Board>, events: seq<Event>, k: nat)
    requires IsTrace(stores, events) && |boards| == |stores| && DisciplinedTrace(stores, boards, events)
    requires k < |stores|
    ensures Sync(stores[k])
  {
    if k > 0 {
      TraceKeepsSync(stores, boards, events, k - 1);
      Simulates(stores[k - 1], events[k - 1].op);
    }
  }

  /** Every disciplined run of the Redis backend is a run of the lifecycle. */
  lemma TraceRefines(stores: seq<Store>, boards: seq<Board>, events: seq<Event>)
    requires IsTrace(stores, events) && |boards| == |stores| && DisciplinedTrace(stores, boards, events)
    ensures IsRun(boards, events)
  {
    forall i | 0 <= i < |events|
      ensures Disciplined(boards[i], events[i].op) && Next(boards[i], events[i], boards[i + 1])
    {
      TraceKeepsSync(stores, boards, events, i);
      TraceKeepsSync(stores, boards, events, i + 1);
      Simulates(stores[i], events[i].op);
    }
    ViewKeyed(stores[0]);
  }
}
