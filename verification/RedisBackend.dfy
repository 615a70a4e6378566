/** The Redis backend: each method is a Lua script or a transaction over its keys. */
module RedisBackend {
  import opened Tasks
  import opened Ordering
  import opened Lifecycle
  import opened Grid
  import opened RedisStore

  class Redis {
    var keys: Store
    var schedulerStates: map<string, SchedulerState>

    constructor ()
      ensures keys == Store(map[], map[], map[], map[], map[], map[], map[], map[], map[])
      ensures schedulerStates == map[]
    {
      keys := Store(map[], map[], map[], map[], map[], map[], map[], map[], map[]);
      schedulerStates := map[];
    }

    /** Writes tasks onto their group queues, with an optional scheduler state, in one script. */
    method EnqueueTasks(name: string, state: Option<SchedulerState>, tasks: seq<TaskRecord>, replace: bool)
      modifies this
      ensures keys == EnqueueAll(old(keys), tasks, replace)
      ensures schedulerStates == if state.Some? then old(schedulerStates)[name := state.value] else old(schedulerStates)
    {
      if state.Some? {
        schedulerStates := schedulerStates[name := state.value];
      }
      for i := 0 to |tasks|
        invariant keys == EnqueueAll(old(keys), tasks[..i], replace)
        invariant schedulerStates
               == if state.Some? then old(schedulerStates)[name := state.value] else old(schedulerStates)
      {
        var task := tasks[i];
        var id := task.info.id;
        assert tasks[..i + 1][..i] == tasks[..i];
        if replace {
          keys := keys.(stageQueue := keys.stageQueue - {id});
          keys := keys.(stageInfo := keys.stageInfo - {id});
          keys := keys.(info := keys.info - {id});
        }
        if id !in keys.info {
          keys := keys.(info := keys.info[id := task.info]);
          keys := keys.(data := keys.data[id := task.data]);
          keys := keys.(queues := ZAdd(keys.queues, task.info.group, id, task.info.due));
        }
      }
      assert tasks[..|tasks|] == tasks;
    }

    method PutTasks(tasks: seq<TaskRecord>)
      modifies this
      ensures keys == EnqueueAll(old(keys), tasks, false) && schedulerStates == old(schedulerStates)
    {
      if tasks == [] {
        return;
      }
      EnqueueTasks("", None, tasks, false);
    }

    method RetryTask(record: TaskRecord)
      modifies this
      ensures keys == EnqueueAll(old(keys), [record], true) && schedulerStates == old(schedulerStates)
    {
      EnqueueTasks("", None, [record], true);
    }

    method PersistSchedulerStateAndPutTasks(name: string, state: SchedulerState, tasks: seq<TaskRecord>)
      modifies this
      ensures keys == EnqueueAll(old(keys), tasks, false)
      ensures schedulerStates == old(schedulerStates)[name := state]
    {
      EnqueueTasks(name, Some(state), tasks, false);
    }

    method MoveToStage(group: Group, worker: WorkerId, id: TaskId, score: Timestamp, now: Timestamp)
      modifies this
      ensures keys == Moved(old(keys), group, worker, id, score, now) && schedulerStates == old(schedulerStates)
    {
      keys := keys.(queues := ZRem(keys.queues, group, id));
      keys := keys.(stageQueue := keys.stageQueue[id := score]);
      keys := keys.(stageInfo := keys.stageInfo[id := StageInfo(worker, id, now)]);
    }

    method AssignTasks(group: Group, worker: WorkerId, limit: nat, now: Timestamp) returns (claimed: seq<TaskRecord>)
      modifies this
      ensures var s, picked := old(keys), Picked(old(keys), group, limit, now);
              && Claimable(s, group, picked)
              && keys == Assign(s, group, worker, picked, now)
              && claimed == RecordsOf(s, picked)
      ensures schedulerStates == old(schedulerStates)
    {
      if limit == 0 {
        NothingTaken(keys, group, worker, now);
        return [];
      }
      var candidates := ZRange(Queue(keys.queues, group), limit);
      SortedPrefixIsLeast(Ranks(Queue(keys.queues, group)), limit);
      claimed := TakeDue(group, worker, candidates, now);
    }

    /** The loop of the claim script: walk the candidates until one is not due. */
    method TakeDue(group: Group, worker: WorkerId, candidates: seq<Rank>, now: Timestamp)
      returns (claimed: seq<TaskRecord>)
      requires Ascending(candidates) && forall c | c in candidates :: c in Ranks(Queue(keys.queues, group))
      modifies this
      ensures var s, picked := old(keys), Takeable(old(keys), candidates, now);
              && Claimable(s, group, picked)
              && keys == Assign(s, group, worker, picked, now)
              && claimed == RecordsOf(s, picked)
      ensures schedulerStates == old(schedulerStates)
    {
      ghost var s, picked := keys, [];
      claimed := [];
      var i := 0;
      while i < |candidates|
        invariant 0 <= i <= |candidates|
        invariant picked == Takeable(s, candidates[..i], now) && Claimable(s, group, picked)
        invariant keys == Assign(s, group, worker, picked, now)
        invariant claimed == RecordsOf(s, picked)
        invariant schedulerStates == old(schedulerStates)
      {
        var candidate := candidates[i];
        var id, score := candidate.id, candidate.due;
        if score > now {
          NothingDueAfter(s, candidates, i, now);
          return;
        }
        TakeableStep(s, candidates, i, now);
        if id in keys.info && id in keys.data {
          AssignOneMore(s, group, worker, picked, candidate, now);
          RecordsOneMore(s, picked, candidate);
          MoveToStage(group, worker, id, score, now);
          claimed := claimed + [TaskRecord(keys.info[id], keys.data[id])];
          picked := picked + [candidate];
        }
        i := i + 1;
      }
      assert candidates[..i] == candidates;
    }

    method LookupTasks(ids: seq<TaskId>) returns (found: seq<Option<TaskRecord>>)
      ensures |found| == |ids|
      ensures forall i | 0 <= i < |ids| :: found[i] == Lookup(keys, ids[i])
    {
      found := [];
      for i := 0 to |ids|
        invariant |found| == i
        invariant forall k | 0 <= k < i :: found[k] == Lookup(keys, ids[k])
      {
        var id := ids[i];
        if id in keys.info && id in keys.data {
          found := found + [Some(TaskRecord(keys.info[id], keys.data[id]))];
        } else {
          found := found + [None];
        }
      }
    }

    /** Looks the tasks up, and then, after whatever `others` did meanwhile, removes them. */
    method DiscardTasks(ids: seq<TaskId>, others: Store -> Store)
      modifies this
      ensures keys == DiscardCommit(others(old(keys)), Members(ids), FoundIn(old(keys), ids))
      ensures others(old(keys)) == old(keys) ==> keys == Discard(old(keys), Members(ids))
      ensures schedulerStates == old(schedulerStates)
    {
      var tasks := LookupTasks(ids);
      DiscardIsCommit(keys, ids, tasks);
      FoundByLookup(keys, ids, tasks);
      keys := others(keys);
      DiscardFound(ids, tasks);
    }

    method DiscardFound(ids: seq<TaskId>, tasks: seq<Option<TaskRecord>>)
      requires |tasks| == |ids|
      modifies this
      ensures keys == DiscardCommit(old(keys), Members(ids), FoundBy(ids, tasks))
      ensures schedulerStates == old(schedulerStates)
    {
      ghost var s := keys;
      DequeueNone(s);
      for i := 0 to |ids|
        invariant keys == s.(queues := DequeueFound(s.queues, FoundBy(ids[..i], tasks[..i])))
        invariant schedulerStates == old(schedulerStates)
      {
        DequeueOneMore(s, ids, tasks, i);
        if tasks[i].Some? {
          keys := keys.(queues := ZRem(keys.queues, tasks[i].value.info.group, ids[i]));
        }
      }
      assert ids[..|ids|] == ids && tasks[..|ids|] == tasks;
      var gone := Members(ids);
      keys := keys.(stageQueue := keys.stageQueue - gone);
      keys := keys.(stageInfo := keys.stageInfo - gone);
      keys := keys.(data := keys.data - gone);
      keys := keys.(info := keys.info - gone);
      keys := keys.(doneQueue := keys.doneQueue - gone);
      keys := keys.(disposableQueue := keys.disposableQueue - gone);
      keys := keys.(result := keys.result - gone);
      keys := keys.(error := keys.error - gone);
    }

    method Succeed(record: TaskRecord, output: Bytes, now: Timestamp)
      modifies this
      ensures keys == Complete(old(keys), record, Succeeded(output), now)
      ensures schedulerStates == old(schedulerStates)
    {
      var id := record.info.id;
      keys := keys.(queues := ZRem(keys.queues, record.info.group, id));
      keys := keys.(stageQueue := keys.stageQueue - {id});
      keys := keys.(stageInfo := keys.stageInfo - {id});
      keys := keys.(doneQueue := keys.doneQueue[id := now]);
      keys := keys.(disposableQueue := keys.disposableQueue[id := now + record.info.ttl]);
      keys := keys.(result := keys.result[id := output]);
      keys := keys.(data := keys.data[id := record.data]);
      keys := keys.(info := keys.info[id := record.info]);
    }

    method Fail(record: TaskRecord, message: Bytes, now: Timestamp)
      modifies this
      ensures keys == Complete(old(keys), record, Failed(message), now)
      ensures schedulerStates == old(schedulerStates)
    {
      var id := record.info.id;
      keys := keys.(queues := ZRem(keys.queues, record.info.group, id));
      keys := keys.(stageQueue := keys.stageQueue - {id});
      keys := keys.(stageInfo := keys.stageInfo - {id});
      keys := keys.(doneQueue := keys.doneQueue[id := now]);
      keys := keys.(disposableQueue := keys.disposableQueue[id := now + record.info.ttl]);
      keys := keys.(error := keys.error[id := message]);
      keys := keys.(data := keys.data[id := record.data]);
      keys := keys.(info := keys.info[id := record.info]);
    }

    /** Looks the task up, and then, after whatever `others` did meanwhile, moves it as it was found. */
    method Restore(id: TaskId, others: Store -> Store)
      modifies this
      ensures keys == match Lookup(old(keys), id)
                      case Some(found) => RestoreCommit(others(old(keys)), found.info)
                      case None => others(old(keys))
      ensures others(old(keys)) == old(keys) ==> keys == Unstage(old(keys), id)
      ensures schedulerStates == old(schedulerStates)
    {
      var tasks := LookupTasks([id]);
      keys := others(keys);
      if tasks[0].Some? {
        RestoreFound(tasks[0].value.info);
      }
    }

    method RestoreFound(found: TaskInfo)
      modifies this
      ensures keys == RestoreCommit(old(keys), found) && schedulerStates == old(schedulerStates)
    {
      keys := keys.(stageQueue := keys.stageQueue - {found.id});
      keys := keys.(stageInfo := keys.stageInfo - {found.id});
      keys := keys.(queues := ZAdd(keys.queues, found.group, found.id, found.due));
    }

    method FetchResult(id: TaskId) returns (r: ResultView)
      ensures r == GetResult(keys, id)
    {
      var tasks := LookupTasks([id]);
      if tasks[0].None? {
        return NotFound;
      }
      if id in keys.result {
        return Value(tasks[0].value, keys.result[id]);
      }
      if id in keys.error {
        return FailedWith(tasks[0].value, keys.error[id]);
      }
      return NoResult(tasks[0].value);
    }
  }

  function Lookup(s: Store, id: TaskId): Option<TaskRecord> {
    if id in s.info && id in s.data then Some(TaskRecord(s.info[id], s.data[id])) else None
  }

  function Members(ids: seq<TaskId>): set<TaskId> {
    set id | id in ids
  }

  function Moved(s: Store, group: Group, worker: WorkerId, id: TaskId, score: Timestamp, now: Timestamp): Store {
    s.(queues := ZRem(s.queues, group, id), stageQueue := s.stageQueue[id := score],
       stageInfo := s.stageInfo[id := StageInfo(worker, id, now)])
  }

  predicate Claimable(s: Store, group: Group, picked: seq<Rank>) {
    && (forall r | r in picked :: r.id in s.info && r.id in s.data)
    && Ids(picked) <= Queue(s.queues, group).Keys
  }

  function RecordsOf(s: Store, picked: seq<Rank>): (records: seq<TaskRecord>)
    requires forall r | r in picked :: r.id in s.info && r.id in s.data
    ensures |records| == |picked|
    ensures forall i | 0 <= i < |picked| :: records[i] == TaskRecord(s.info[picked[i].id], s.data[picked[i].id])
  {
    seq(|picked|, i requires 0 <= i < |picked| => TaskRecord(s.info[picked[i].id], s.data[picked[i].id]))
  }

  function FoundBy(ids: seq<TaskId>, tasks: seq<Option<TaskRecord>>): Found
    requires |ids| == |tasks|
  {
    set i | 0 <= i < |ids| && tasks[i].Some? :: (ids[i], tasks[i].value.info.group)
  }

  /** The queues a lookup on `s` finds the tasks in. */
  function FoundIn(s: Store, ids: seq<TaskId>): Found {
    set id | id in ids && id in s.info && id in s.data :: (id, s.info[id].group)
  }

  lemma FoundByLookup(s: Store, ids: seq<TaskId>, tasks: seq<Option<TaskRecord>>)
    requires |tasks| == |ids| && forall i | 0 <= i < |ids| :: tasks[i] == Lookup(s, ids[i])
    ensures FoundBy(ids, tasks) == FoundIn(s, ids)
  {
    forall p | p in FoundIn(s, ids) ensures p in FoundBy(ids, tasks) {
      var i :| 0 <= i < |ids| && ids[i] == p.0;
      assert tasks[i] == Lookup(s, ids[i]);
    }
  }

  lemma DequeueNone(s: Store)
    ensures DequeueFound(s.queues, FoundBy([], [])) == s.queues
  {
    assert FoundBy([], []) == {};
    forall group | group in s.queues ensures DequeueFound(s.queues, {})[group] == s.queues[group] {
      assert (set p: (TaskId, Group) | p in {} && p.1 == group :: p.0) == {};
    }
  }

  lemma FoundOneMore(ids: seq<TaskId>, tasks: seq<Option<TaskRecord>>, i: nat)
    requires i < |ids| == |tasks|
    ensures FoundBy(ids[..i + 1], tasks[..i + 1])
         == FoundBy(ids[..i], tasks[..i]) + if tasks[i].Some? then {(ids[i], tasks[i].value.info.group)} else {}
  {
    var was, now := FoundBy(ids[..i], tasks[..i]), FoundBy(ids[..i + 1], tasks[..i + 1]);
    forall p | p in was ensures p in now {
      var k :| 0 <= k < i && tasks[..i][k].Some? && p == (ids[..i][k], tasks[..i][k].value.info.group);
      assert tasks[..i + 1][k] == tasks[k] && ids[..i + 1][k] == ids[k];
    }
    if tasks[i].Some? {
      assert tasks[..i + 1][i] == tasks[i] && ids[..i + 1][i] == ids[i];
    }
    forall p | p in now ensures p in was || (tasks[i].Some? && p == (ids[i], tasks[i].value.info.group)) {
      var k :| 0 <= k < i + 1 && tasks[..i + 1][k].Some? && p == (ids[..i + 1][k], tasks[..i + 1][k].value.info.group);
      if k < i {
        assert tasks[..i][k] == tasks[k] && ids[..i][k] == ids[k];
      }
    }
  }

  lemma DequeueFoundMore(queues: map<Group, ZSet>, found: Found, id: TaskId, group: Group)
    ensures DequeueFound(queues, found + {(id, group)}) == ZRem(DequeueFound(queues, found), group, id)
  {
    var was, now := DequeueFound(queues, found), DequeueFound(queues, found + {(id, group)});
    forall g | g in queues ensures now[g] == if g == group then was[g] - {id} else was[g] {
      assert (set p | p in found + {(id, group)} && p.1 == g :: p.0)
          == (set p | p in found && p.1 == g :: p.0) + if g == group then {id} else {};
    }
  }

  lemma DequeueOneMore(s: Store, ids: seq<TaskId>, tasks: seq<Option<TaskRecord>>, i: nat)
    requires i < |ids| == |tasks|
    ensures DequeueFound(s.queues, FoundBy(ids[..i + 1], tasks[..i + 1]))
         == if tasks[i].Some?
            then ZRem(DequeueFound(s.queues, FoundBy(ids[..i], tasks[..i])), tasks[i].value.info.group, ids[i])
            else DequeueFound(s.queues, FoundBy(ids[..i], tasks[..i]))
  {
    var was := FoundBy(ids[..i], tasks[..i]);
    FoundOneMore(ids, tasks, i);
    if tasks[i].Some? {
      DequeueFoundMore(s.queues, was, ids[i], tasks[i].value.info.group);
    } else {
      assert was + {} == was;
    }
  }

  /** With nothing in between, the two steps discard as one. */
  lemma DiscardIsCommit(s: Store, ids: seq<TaskId>, tasks: seq<Option<TaskRecord>>)
    requires |tasks| == |ids| && forall i | 0 <= i < |ids| :: tasks[i] == Lookup(s, ids[i])
    ensures DiscardCommit(s, Members(ids), FoundBy(ids, tasks)) == Discard(s, Members(ids))
  {
    var found := FoundBy(ids, tasks);
    forall group | group in s.queues
      ensures DequeueFound(s.queues, found)[group] == Dequeue(s, Members(ids))[group]
    {
      FoundInGroup(s, ids, tasks, group);
    }
  }

  lemma FoundInGroup(s: Store, ids: seq<TaskId>, tasks: seq<Option<TaskRecord>>, group: Group)
    requires |tasks| == |ids| && forall i | 0 <= i < |ids| :: tasks[i] == Lookup(s, ids[i])
    ensures (set p | p in FoundBy(ids, tasks) && p.1 == group :: p.0)
         == (set id | id in Members(ids) && id in s.info && id in s.data && s.info[id].group == group)
  {
    var found := FoundBy(ids, tasks);
    forall id | id in Members(ids) && id in s.info && id in s.data && s.info[id].group == group
      ensures (id, group) in found && (id, group).0 == id
    {
      var i :| 0 <= i < |ids| && ids[i] == id;
      assert tasks[i] == Lookup(s, id);
    }
  }

  /** Scores ascend, so once one is not due none of the rest is taken. */
  lemma NothingTaken(s: Store, group: Group, worker: WorkerId, now: Timestamp)
    ensures Picked(s, group, 0, now) == [] && Claimable(s, group, []) && Assign(s, group, worker, [], now) == s
  {
    assert ZRange(Queue(s.queues, group), 0) == [];
    assert Ids([]) == {};
    assert StageScores(s.stageQueue, Queue(s.queues, group), {}) == s.stageQueue;
    assert StageRows(s.stageInfo, worker, {}, now) == s.stageInfo;
  }

  lemma {:induction false} NothingDueAfter(s: Store, candidates: seq<Rank>, i: nat, now: Timestamp)
    requires Ascending(candidates) && i < |candidates| && candidates[i].due > now
    ensures Takeable(s, candidates, now) == Takeable(s, candidates[..i], now)
  {
    var n := |candidates| - 1;
    if i < n {
      assert Less(candidates[i], candidates[n]);
      NothingDueAfter(s, candidates[..n], i, now);
      assert candidates[..n][..i] == candidates[..i];
    }
  }

  lemma TakeableStep(s: Store, candidates: seq<Rank>, i: nat, now: Timestamp)
    requires i < |candidates|
    ensures var before, c := Takeable(s, candidates[..i], now), candidates[i];
            Takeable(s, candidates[..i + 1], now)
            == if c.due <= now && c.id in s.info && c.id in s.data then before + [c] else before
  {
    assert candidates[..i + 1][..i] == candidates[..i];
  }

  lemma RecordsOneMore(s: Store, picked: seq<Rank>, c: Rank)
    requires (forall r | r in picked :: r.id in s.info && r.id in s.data) && c.id in s.info && c.id in s.data
    ensures RecordsOf(s, picked + [c]) == RecordsOf(s, picked) + [TaskRecord(s.info[c.id], s.data[c.id])]
  {
  }

  lemma IdsOneMore(picked: seq<Rank>, c: Rank)
    ensures Ids(picked + [c]) == Ids(picked) + {c.id}
  {
    forall k | 0 <= k < |picked| ensures (picked + [c])[k].id == picked[k].id {
    }
    assert (picked + [c])[|picked|].id == c.id;
  }

  lemma QueuesOneMore(s: Store, group: Group, worker: WorkerId, picked: seq<Rank>, c: Rank, now: Timestamp)
    requires Ids(picked) <= Queue(s.queues, group).Keys && c.id in Queue(s.queues, group)
    requires Ids(picked + [c]) == Ids(picked) + {c.id}
    ensures Assign(s, group, worker, picked + [c], now).queues
         == ZRem(Assign(s, group, worker, picked, now).queues, group, c.id)
  {
    var queue := Queue(s.queues, group);
    var was := Assign(s, group, worker, picked, now).queues;
    assert queue - Ids(picked) - {c.id} == queue - (Ids(picked) + {c.id});
    if picked == [] {
      assert queue - Ids(picked) == queue;
    }
    assert group in was && was[group] == queue - Ids(picked);
    assert ZRem(was, group, c.id) == s.queues[group := queue - (Ids(picked) + {c.id})];
  }

  lemma ScoresOneMore(stage: ZSet, queue: ZSet, ids: set<TaskId>, id: TaskId)
    requires ids <= queue.Keys && id in queue
    ensures StageScores(stage, queue, ids + {id}) == StageScores(stage, queue, ids)[id := queue[id]]
  {
  }

  lemma RowsOneMore(stage: map<TaskId, StageInfo>, worker: WorkerId, ids: set<TaskId>, id: TaskId, now: Timestamp)
    ensures StageRows(stage, worker, ids + {id}, now)
         == StageRows(stage, worker, ids, now)[id := StageInfo(worker, id, now)]
  {
  }

  /** Taking one more candidate is one more removal and two more writes. */
  lemma AssignOneMore(s: Store, group: Group, worker: WorkerId, picked: seq<Rank>, c: Rank, now: Timestamp)
    requires Ids(picked) <= Queue(s.queues, group).Keys && c in Ranks(Queue(s.queues, group))
    ensures Ids(picked + [c]) <= Queue(s.queues, group).Keys
    ensures Assign(s, group, worker, picked + [c], now)
         == Moved(Assign(s, group, worker, picked, now), group, worker, c.id, c.due, now)
  {
    IdsOneMore(picked, c);
    QueuesOneMore(s, group, worker, picked, c, now);
    ScoresOneMore(s.stageQueue, Queue(s.queues, group), Ids(picked), c.id);
    RowsOneMore(s.stageInfo, worker, Ids(picked), c.id, now);
  }
}
