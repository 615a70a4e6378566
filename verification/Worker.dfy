/**
 A worker: it claims tasks for its group and ends each of them in exactly one backend
 call, chosen by what the task's handler came to. Driven by its runner over the
 in-memory or the Redis backend, it leaves nothing staged once it is joined, save what
 it was handed and never told of.
 */
module Worker {
  import opened Tasks
  import opened Lifecycle
  import opened MemoryBackend
  import MemoryTable
  import RedisStore
  import RedisRefinement
  import Runner

  /** What running a task's handler came to. */
  datatype Verdict =
    | Output(bytes: Bytes)
    | Discard
    | RetryAfter(interval: nat)
    | Fatal(reason: Option<Bytes>)
    | Panicked(description: Bytes)

  class TaskWorker {
    const id: WorkerId
    const group: Group
    const registry: set<(Group, string)>
    const noExecutor: Bytes
    const fatalError: Bytes
    const backend: Memory

    constructor (id: WorkerId, group: Group, registry: set<(Group, string)>, noExecutor: Bytes, fatalError: Bytes,
                 backend: Memory)
      ensures this.id == id && this.group == group && this.registry == registry && this.backend == backend
      ensures this.noExecutor == noExecutor && this.fatalError == fatalError
    {
      this.id, this.group, this.registry := id, group, registry;
      this.noExecutor, this.fatalError, this.backend := noExecutor, fatalError, backend;
    }

    /**
     One settling operation, whatever the handler did. A task nobody can run, a fatal
     error and a panic all fail it; only a retry stores a different record.
     */
    method HandleTask(record: TaskRecord, verdict: Verdict, now: Timestamp) returns (ghost op: Op)
      modifies backend`seqNo, backend`tasks
      ensures Runner.Settles(op, record)
      ensures backend.Contents() == MemoryTable.Exec(old(backend.Contents()), op).0
      ensures var runnable := (record.info.group, record.info.name) in registry;
              && (op.Finish? && op.outcome.Succeeded? <==> runnable && verdict.Output?)
              && (op.DiscardTasks? <==> runnable && verdict.Discard?)
              && (op.RetryTask? <==> runnable && verdict.RetryAfter?)
      ensures op.RetryTask? ==> op.retried.info.due == now + verdict.interval
      ensures op.Finish? ==> op.now == now
      ensures op.Finish? && op.outcome.Failed? ==>
                op.outcome.message == if (record.info.group, record.info.name) !in registry then noExecutor
                                      else if verdict.Panicked? then verdict.description
                                      else if verdict.reason.Some? then verdict.reason.value
                                      else fatalError
      ensures op.Finish? && op.outcome.Succeeded? ==> op.outcome.result == verdict.bytes
    {
      var info, data := record.info, record.data;
      if (info.group, info.name) !in registry {
        backend.Fail(TaskRecord(info, data), noExecutor, now);
        return Finish(record, Failed(noExecutor), now);
      }
      var result := if verdict.Panicked? then Fatal(Some(verdict.description)) else verdict;
      match result {
        case Output(bytes) =>
          backend.Succeed(TaskRecord(info, data), bytes, now);
          op := Finish(record, Succeeded(bytes), now);
        case Discard =>
          backend.DiscardTasks([info.id]);
          op := Op.DiscardTasks([info.id]);
        case RetryAfter(interval) =>
          var retried := TaskRecord(info.CloneForRetry(now, interval), data);
          backend.RetryTask(retried);
          op := Op.RetryTask(retried);
        case Fatal(reason) =>
          var message := if reason.Some? then reason.value else fatalError;
          backend.Fail(TaskRecord(info, data), message, now);
          op := Finish(record, Failed(message), now);
      }
    }

    /** The records of a claim for this worker's group, staged in its name. */
    method Assign(limit: nat, now: Timestamp) returns (records: seq<TaskRecord>, ghost claims: seq<Claim>)
      requires MemoryTable.Inv(backend.Contents())
      modifies backend`tasks
      ensures MemoryTable.Inv(backend.Contents())
      ensures |records| == |claims| && forall i | 0 <= i < |claims| :: records[i] == claims[i].record
      ensures IsClaim(MemoryTable.View(old(backend.Contents())), group, limit, now, claims)
      ensures IsStaging(MemoryTable.View(old(backend.Contents())), id, claims, MemoryTable.View(backend.Contents()))
    {
      ghost var t := backend.Contents();
      MemoryTable.Simulates(t, AssignTasks(group, id, limit, now));
      records := backend.AssignTasks(group, id, limit, now);
      claims := MemoryTable.Exec(t, AssignTasks(group, id, limit, now)).1;
    }
  }

  // ---- a runner over a whole store ----

  /** What is left to the runner and to the other users of the backend in a step. */
  ghost predicate Drives(c: Runner.Config, s: Runner.State, step: Runner.Step, s': Runner.State) {
    && Runner.Control(c, s, step, s')
    && (step.Elsewhere? ==> Disciplined(s.board, step.event.op) && Runner.LeavesAlone(s.board, s'.board, c.worker))
  }

  /** A claim in memory is one call, and its answer is not lost. */
  ghost predicate MemoryStep(c: Runner.Config, s: Runner.State, step: Runner.Step, s': Runner.State,
                             t: MemoryTable.Table, t': MemoryTable.Table)
  {
    && Drives(c, s, step, s') && !step.AssignLost? && !step.Take?
    && match Runner.EventOf(c, s, step)
       case None => t' == t
       case Some(event) => MemoryTable.Exec(t, event.op) == (t', event.claims)
  }

  ghost predicate MemoryRun(c: Runner.Config, states: seq<Runner.State>, steps: seq<Runner.Step>,
                            tables: seq<MemoryTable.Table>) {
    && |states| == |steps| + 1 == |tables|
    && Runner.Starts(c, states[0]) && MemoryTable.Inv(tables[0])
    && (forall i | 0 <= i < |states| && MemoryTable.Inv(tables[i]) :: states[i].board == MemoryTable.View(tables[i]))
    && forall i | 0 <= i < |steps| :: MemoryStep(c, states[i], steps[i], states[i + 1], tables[i], tables[i + 1])
  }

  /** A claim in Redis is one script; the loop may not get its answer. */
  ghost predicate RedisStep(c: Runner.Config, s: Runner.State, step: Runner.Step, s': Runner.State,
                            t: RedisStore.Store, t': RedisStore.Store)
  {
    && Drives(c, s, step, s') && !step.Take?
    && match Runner.EventOf(c, s, step)
       case None => t' == t
       case Some(event) => RedisStore.Exec(t, event.op) == (t', event.claims)
  }

  ghost predicate RedisRun(c: Runner.Config, states: seq<Runner.State>, steps: seq<Runner.Step>,
                           stores: seq<RedisStore.Store>) {
    && |states| == |steps| + 1 == |stores|
    && Runner.Starts(c, states[0]) && RedisRefinement.Sync(stores[0])
    && (forall i | 0 <= i < |states| && RedisRefinement.KeysAgree(stores[i]) ::
          states[i].board == RedisRefinement.View(stores[i]))
    && forall i | 0 <= i < |steps| :: RedisStep(c, states[i], steps[i], states[i + 1], stores[i], stores[i + 1])
  }

  lemma RunnerIsDisciplined(c: Runner.Config, s: Runner.State, step: Runner.Step, s': Runner.State)
    requires Runner.Inv(c, s) && Drives(c, s, step, s')
    ensures var event := Runner.EventOf(c, s, step); event.Some? ==> Disciplined(s.board, event.value.op)
  {
    if step.Settle? {
      Runner.SettleIsDisciplined(c, s, step);
    }
  }

  lemma MemoryStepIsNext(c: Runner.Config, s: Runner.State, step: Runner.Step, s': Runner.State,
                         t: MemoryTable.Table, t': MemoryTable.Table)
    requires Runner.Inv(c, s) && MemoryStep(c, s, step, s', t, t')
    requires MemoryTable.Inv(t) && s.board == MemoryTable.View(t)
    requires MemoryTable.Inv(t') ==> s'.board == MemoryTable.View(t')
    ensures MemoryTable.Inv(t') && Runner.Next(c, s, step, s')
  {
    RunnerIsDisciplined(c, s, step, s');
    match Runner.EventOf(c, s, step)
    case None =>
    case Some(event) => MemoryTable.Simulates(t, event.op);
  }

  lemma RedisStepIsNext(c: Runner.Config, s: Runner.State, step: Runner.Step, s': Runner.State,
                        t: RedisStore.Store, t': RedisStore.Store)
    requires Runner.Inv(c, s) && RedisStep(c, s, step, s', t, t')
    requires RedisRefinement.Sync(t) && s.board == RedisRefinement.View(t)
    requires RedisRefinement.KeysAgree(t') ==> s'.board == RedisRefinement.View(t')
    ensures RedisRefinement.Sync(t') && Runner.Next(c, s, step, s')
  {
    RunnerIsDisciplined(c, s, step, s');
    match Runner.EventOf(c, s, step)
    case None =>
    case Some(event) => RedisRefinement.Simulates(t, event.op);
  }

  lemma RunGrows(c: Runner.Config, states: seq<Runner.State>, steps: seq<Runner.Step>, k: nat)
    requires k < |steps| && k + 1 < |states| && Runner.IsRun(c, states[..k + 1], steps[..k])
    requires Runner.Next(c, states[k], steps[k], states[k + 1])
    ensures Runner.IsRun(c, states[..k + 2], steps[..k + 1])
  {
    var was, did, now, done := states[..k + 1], steps[..k], states[..k + 2], steps[..k + 1];
    assert now[0] == was[0];
    forall i | 0 <= i < |done| ensures Runner.Next(c, now[i], done[i], now[i + 1]) {
      if i < k {
        assert Runner.Next(c, was[i], did[i], was[i + 1]);
      }
    }
  }

  lemma {:induction false} MemoryRunIsRun(c: Runner.Config, states: seq<Runner.State>, steps: seq<Runner.Step>,
                                          tables: seq<MemoryTable.Table>, k: nat)
    requires MemoryRun(c, states, steps, tables) && k <= |steps|
    ensures MemoryTable.Inv(tables[k]) && Runner.IsRun(c, states[..k + 1], steps[..k])
  {
    if k > 0 {
      var i := k - 1;
      MemoryRunIsRun(c, states, steps, tables, i);
      Runner.RunKeepsInv(c, states[..k], steps[..i], i);
      MemoryStepIsNext(c, states[i], steps[i], states[k], tables[i], tables[k]);
      RunGrows(c, states, steps, i);
    }
  }

  lemma {:induction false} RedisRunIsRun(c: Runner.Config, states: seq<Runner.State>, steps: seq<Runner.Step>,
                                         stores: seq<RedisStore.Store>, k: nat)
    requires RedisRun(c, states, steps, stores) && k <= |steps|
    ensures RedisRefinement.Sync(stores[k]) && Runner.IsRun(c, states[..k + 1], steps[..k])
  {
    if k > 0 {
      var i := k - 1;
      RedisRunIsRun(c, states, steps, stores, i);
      Runner.RunKeepsInv(c, states[..k], steps[..i], i);
      RedisStepIsNext(c, states[i], steps[i], states[k], stores[i], stores[k]);
      RunGrows(c, states, steps, i);
    }
  }

  /** Joined over the in-memory backend: no entry is assigned to the worker any more. */
  lemma MemoryDrains(c: Runner.Config, states: seq<Runner.State>, steps: seq<Runner.Step>,
                     tables: seq<MemoryTable.Table>, k: nat)
    requires MemoryRun(c, states, steps, tables) && k <= |steps| && states[k].pc.Joined?
    ensures forall id | id in tables[k].tasks :: tables[k].tasks[id].assignee != Some(c.worker)
  {
    MemoryRunIsRun(c, states, steps, tables, k);
    Runner.JoinedIsDrained(c, states[..k + 1], steps[..k], k);
    forall i | 0 <= i < k ensures !steps[..k][i].AssignLost? && !steps[..k][i].Take? {
      assert MemoryStep(c, states[i], steps[i], states[i + 1], tables[i], tables[i + 1]);
    }
    Runner.NoneStranded(c, states[..k + 1], steps[..k], k);
    forall id | id in tables[k].tasks ensures tables[k].tasks[id].assignee != Some(c.worker) {
      assert !Runner.IsStranded(states[k], id);
      assert !StagedFor(MemoryTable.View(tables[k]), c.worker, id);
      assert MemoryTable.Coherent(tables[k].tasks[id]);
    }
  }

  /** Joined over the Redis backend: the worker's entries in the stage are those of scripts whose answer was lost. */
  lemma RedisDrains(c: Runner.Config, states: seq<Runner.State>, steps: seq<Runner.Step>,
                    stores: seq<RedisStore.Store>, k: nat)
    requires RedisRun(c, states, steps, stores) && k <= |steps| && states[k].pc.Joined?
    ensures forall id :: id in stores[k].stageInfo && stores[k].stageInfo[id].worker == c.worker
                         <==> Runner.IsStranded(states[k], id)
  {
    RedisRunIsRun(c, states, steps, stores, k);
    Runner.JoinedIsDrained(c, states[..k + 1], steps[..k], k);
    forall id
      ensures id in stores[k].stageInfo && stores[k].stageInfo[id].worker == c.worker
              <==> Runner.IsStranded(states[k], id)
    {
      RedisRefinement.OnePlace(stores[k], id, c.group);
      assert StagedFor(RedisRefinement.View(stores[k]), c.worker, id) <==> Runner.IsStranded(states[k], id);
    }
  }
}
