/** The in-memory backend: one table of entries, changed in place by each method. */
module MemoryBackend {
  import opened Tasks
  import opened Ordering
  import opened Lifecycle
  import opened Grid
  import opened MemoryTable

  class Memory {
    var seqNo: nat
    var tasks: map<TaskId, Entry>
    var schedulerStates: map<string, SchedulerState>

    constructor ()
      ensures Contents() == Table(0, map[]) && schedulerStates == map[]
    {
      seqNo, tasks, schedulerStates := 0, map[], map[];
    }

    function Contents(): Table
      reads this
    {
      Table(seqNo, tasks)
    }

    method PutTask(record: TaskRecord)
      modifies this`seqNo, this`tasks
      ensures Contents() == MemoryTable.Put(old(Contents()), record)
    {
      if record.info.id in tasks {
        return;
      }
      seqNo := seqNo + 1;
      tasks := tasks[record.info.id := NewEntry(seqNo, record)];
    }

    method PutTasks(records: seq<TaskRecord>)
      modifies this`seqNo, this`tasks
      ensures Contents() == MemoryTable.PutAll(old(Contents()), records)
    {
      for i := 0 to |records|
        invariant Contents() == MemoryTable.PutAll(old(Contents()), records[..i])
      {
        assert records[..i + 1][..i] == records[..i];
        PutTask(records[i]);
      }
      assert records[..|records|] == records;
    }

    method PersistSchedulerStateAndPutTasks(name: string, state: SchedulerState, records: seq<TaskRecord>)
      modifies this
      ensures Contents() == MemoryTable.PutAll(old(Contents()), records)
      ensures schedulerStates == old(schedulerStates)[name := state]
    {
      schedulerStates := schedulerStates[name := state];
      PutTasks(records);
    }

    method AssignTasks(group: Group, worker: WorkerId, limit: nat, now: Timestamp) returns (claimed: seq<TaskRecord>)
      modifies this`tasks
      ensures var t, picked := old(Contents()), Picked(old(Contents()), group, limit, now);
              && (forall r | r in picked :: r.id in t.tasks)
              && Contents() == Assign(t, worker, Ids(picked), now)
              && claimed == RecordsOf(t, picked)
    {
      ghost var t := Contents();
      PickedAreDue(t, group, limit, now);
      var due := Picked(Contents(), group, limit, now);
      assert forall k | 0 <= k < |due| :: due[k] in due;
      claimed := Stage(due, worker, now);
    }

    /** The loop of the claim: mark each due entry as begun by the worker. */
    method Stage(due: seq<Rank>, worker: WorkerId, now: Timestamp) returns (claimed: seq<TaskRecord>)
      requires forall k | 0 <= k < |due| :: due[k].id in tasks
      modifies this`tasks
      ensures Contents() == Assign(old(Contents()), worker, Ids(due), now)
      ensures |claimed| == |due| && forall k | 0 <= k < |due| :: claimed[k] == old(tasks)[due[k].id].record
    {
      ghost var t := Contents();
      claimed := [];
      AssignNone(t, worker, now);
      for i := 0 to |due|
        invariant Contents() == Assign(t, worker, Ids(due[..i]), now)
        invariant |claimed| == i && forall k | 0 <= k < i :: claimed[k] == t.tasks[due[k].id].record
      {
        var id := due[i].id;
        AssignOneMore(t, worker, due, i, now);
        tasks := tasks[id := tasks[id].(began := Some(now), assignee := Some(worker))];
        claimed := claimed + [tasks[id].record];
      }
      assert due[..|due|] == due;
    }

    method RetryTask(record: TaskRecord)
      modifies this`seqNo, this`tasks
      ensures Contents() == Retry(old(Contents()), record)
    {
      var id := record.info.id;
      if id in tasks {
        var previous := tasks[id];
        tasks := tasks - {id};
        tasks := tasks[id := NewEntry(previous.seqNo, record)];
      } else {
        seqNo := seqNo + 1;
        tasks := tasks[id := NewEntry(seqNo, record)];
      }
    }

    method DiscardTasks(ids: seq<TaskId>)
      modifies this`tasks
      ensures Contents() == old(Contents()).(tasks := old(tasks) - set id | id in ids)
    {
      for i := 0 to |ids|
        invariant tasks == old(tasks) - set id | id in ids[..i]
      {
        tasks := tasks - {ids[i]};
      }
      assert ids[..|ids|] == ids;
    }

    method FinishTask(record: TaskRecord, result: Option<Bytes>, error: Option<Bytes>, now: Timestamp)
      requires result.Some? <==> error.None?
      modifies this`seqNo, this`tasks
      ensures Contents() == Complete(old(Contents()), record,
                                     if result.Some? then Succeeded(result.value) else Failed(error.value), now)
    {
      var id := record.info.id;
      PutTask(record);
      var entry := tasks[id];
      tasks := tasks[id := entry.(began := None, assignee := None, done := Some(now),
                                  disposable := Some(now + entry.record.info.ttl), result := result, error := error)];
    }

    method Succeed(record: TaskRecord, output: Bytes, now: Timestamp)
      modifies this`seqNo, this`tasks
      ensures Contents() == Complete(old(Contents()), record, Succeeded(output), now)
    {
      FinishTask(record, Some(output), None, now);
    }

    method Fail(record: TaskRecord, message: Bytes, now: Timestamp)
      modifies this`seqNo, this`tasks
      ensures Contents() == Complete(old(Contents()), record, Failed(message), now)
    {
      FinishTask(record, None, Some(message), now);
    }

    method Restore(id: TaskId)
      modifies this`tasks
      ensures Contents() == Unstage(old(Contents()), id)
    {
      if id in tasks {
        tasks := tasks[id := tasks[id].(began := None, assignee := None)];
      }
    }

    method FetchResult(id: TaskId) returns (r: ResultView)
      ensures r == GetResult(Contents(), id)
    {
      if id !in tasks {
        return NotFound;
      }
      var entry := tasks[id];
      if entry.error.Some? {
        return FailedWith(entry.record, entry.error.value);
      }
      if entry.result.Some? {
        return Value(entry.record, entry.result.value);
      }
      return NoResult(entry.record);
    }
  }

  function RecordsOf(t: Table, picked: seq<Rank>): (records: seq<TaskRecord>)
    requires forall r | r in picked :: r.id in t.tasks
    ensures |records| == |picked|
    ensures forall i | 0 <= i < |picked| :: records[i] == t.tasks[picked[i].id].record
  {
    seq(|picked|, i requires 0 <= i < |picked| => t.tasks[picked[i].id].record)
  }

  lemma AssignNone(t: Table, worker: WorkerId, now: Timestamp)
    ensures Assign(t, worker, Ids([]), now) == t
  {
    assert Ids([]) == {};
  }

  lemma AssignOneMore(t: Table, worker: WorkerId, due: seq<Rank>, i: nat, now: Timestamp)
    requires i < |due| && due[i].id in t.tasks
    ensures var was := Assign(t, worker, Ids(due[..i]), now);
            && Assign(t, worker, Ids(due[..i + 1]), now)
               == was.(tasks := was.tasks[due[i].id :=
                         was.tasks[due[i].id].(began := Some(now), assignee := Some(worker))])
            && was.tasks[due[i].id].record == t.tasks[due[i].id].record
  {
    var before, after := Ids(due[..i]), Ids(due[..i + 1]);
    assert after == before + {due[i].id} by {
      forall k | 0 <= k < i ensures due[..i + 1][k] == due[..i][k] {
      }
      assert due[..i + 1][i] == due[i];
    }
    AssignMore(t, worker, before, due[i].id, now);
  }

  lemma AssignMore(t: Table, worker: WorkerId, ids: set<TaskId>, id: TaskId, now: Timestamp)
    requires id in t.tasks
    ensures var was := Assign(t, worker, ids, now);
            Assign(t, worker, ids + {id}, now)
            == was.(tasks := was.tasks[id := was.tasks[id].(began := Some(now), assignee := Some(worker))])
  {
    var was, now' := Assign(t, worker, ids, now), Assign(t, worker, ids + {id}, now);
    forall i | i in t.tasks
      ensures now'.tasks[i]
           == if i == id then was.tasks[i].(began := Some(now), assignee := Some(worker)) else was.tasks[i]
    {
    }
  }
}
