/** One scheduler process: read the state, walk the entries, persist state and tasks together. */
module Scheduler {
  import opened Tasks
  import opened Grid
  import opened Planning
  import MemoryTable
  import opened MemoryBackend

  class SchedulerService {
    const config: Config
    const backend: Memory

    constructor (config: Config, backend: Memory)
      requires UniqueKeys(config)
      ensures this.config == config && this.backend == backend
    {
      this.config := config;
      this.backend := backend;
    }

    function GetState(): Option<SchedulerState>
      reads this, backend
    {
      if config.name in backend.schedulerStates then Some(backend.schedulerStates[config.name]) else None
    }

    method ScheduleEntries(now: Timestamp, created: Timestamp)
      requires UniqueKeys(config)
      modifies backend
      ensures match Plan(config, old(GetState()), now, created)
              case Skip =>
                && backend.Contents() == old(backend.Contents())
                && backend.schedulerStates == old(backend.schedulerStates)
                && GetState() == old(GetState())
              case Persist(state, tasks) =>
                && backend.Contents() == MemoryTable.PutAll(old(backend.Contents()), tasks)
                && backend.schedulerStates == old(backend.schedulerStates)[config.name := state]
                && GetState() == Some(state)
    {
      var state := GetState();
      var points := ListSchedulePoints(state, now);
      if points == [] {
        return;
      }
      var lasts, tasks := WalkEntries(state, points, created);
      backend.PersistSchedulerStateAndPutTasks(config.name, SchedulerState(points[|points| - 1], lasts), tasks);
    }

    method WalkEntries(state: Option<SchedulerState>, points: seq<Timestamp>, created: Timestamp)
      returns (lasts: map<string, Timestamp>, tasks: seq<TaskRecord>)
      ensures lasts == NewLasts(config, state, points) && tasks == NewTasks(config, state, points, created)
    {
      lasts, tasks := map[], [];
      ghost var slots := NewSlots(config, state, points);
      ghost var batches := Batches(config, state, points, created);
      for i := 0 to |config.entries|
        invariant lasts == RecordAll(config.entries[..i], slots[..i])
        invariant tasks == Flatten(batches[..i])
      {
        EntryStep(config.entries, slots, batches, i);
        lasts, tasks := ScheduleEntry(config.entries[i], state, points, created, lasts, tasks);
      }
      assert config.entries[..|config.entries|] == config.entries && slots[..|slots|] == slots;
      assert batches[..|batches|] == batches;
    }

    /** One entry's turn: carry its last point over, then record and submit each scheduled point. */
    method ScheduleEntry(entry: ScheduleEntry, state: Option<SchedulerState>, points: seq<Timestamp>,
                         created: Timestamp, lasts: map<string, Timestamp>, tasks: seq<TaskRecord>)
      returns (lasts': map<string, Timestamp>, tasks': seq<TaskRecord>)
      ensures var last := LastOf(state, entry.key);
              var scheduled := Scheduled(config, entry, points, last);
              && lasts' == Record(lasts, entry.key, NewLast(scheduled, last))
              && tasks' == tasks + TasksAt(config, entry, scheduled, created)
    {
      var last := LastOf(state, entry.key);
      lasts', tasks' := lasts, tasks;
      if last.Some? {
        lasts' := lasts'[entry.key := last.value];
      }
      var scheduled := Scheduled(config, entry, points, last);
      for j := 0 to |scheduled|
        invariant lasts' == Record(lasts, entry.key, NewLast(scheduled[..j], last))
        invariant tasks' == tasks + TasksAt(config, entry, scheduled[..j], created)
      {
        TasksOneMore(config, entry, scheduled, created, j);
        LastOneMore(lasts, entry.key, scheduled, last, j);
        lasts' := lasts'[entry.key := WholeSecond(scheduled[j])];
        tasks' := tasks' + [TaskFor(config, entry, scheduled[j], created)];
      }
      assert scheduled[..|scheduled|] == scheduled;
    }
  }

  lemma TasksOneMore(config: Config, entry: ScheduleEntry, scheduled: seq<Timestamp>, created: Timestamp, j: nat)
    requires j < |scheduled|
    ensures TasksAt(config, entry, scheduled[..j + 1], created)
         == TasksAt(config, entry, scheduled[..j], created) + [TaskFor(config, entry, scheduled[j], created)]
  {
    var more := TasksAt(config, entry, scheduled[..j + 1], created);
    var before := TasksAt(config, entry, scheduled[..j], created);
    forall i | 0 <= i < j ensures more[i] == before[i] {
      assert scheduled[..j + 1][i] == scheduled[..j][i];
    }
  }

  lemma LastOneMore(lasts: map<string, Timestamp>, key: string, scheduled: seq<Timestamp>, last: Option<Timestamp>,
                    j: nat)
    requires j < |scheduled|
    ensures Record(lasts, key, NewLast(scheduled[..j + 1], last))
         == Record(lasts, key, NewLast(scheduled[..j], last))[key := WholeSecond(scheduled[j])]
  {
    assert NewLast(scheduled[..j + 1], last) == Some(WholeSecond(scheduled[j]));
  }

  lemma EntryStep(entries: seq<ScheduleEntry>, slots: seq<Option<Timestamp>>, batches: seq<seq<TaskRecord>>, i: nat)
    requires i < |entries| == |slots| == |batches|
    ensures RecordAll(entries[..i + 1], slots[..i + 1])
         == Record(RecordAll(entries[..i], slots[..i]), entries[i].key, slots[i])
    ensures Flatten(batches[..i + 1]) == Flatten(batches[..i]) + batches[i]
  {
    assert entries[..i + 1][..i] == entries[..i] && slots[..i + 1][..i] == slots[..i];
    assert batches[..i + 1][..i] == batches[..i];
  }
}
