/**
 From a scheduler run to a claim: what is stored for each scheduled point, and who can
 be handed the task.
 */
module Submission {
  import opened Tasks
  import opened Grid
  import opened Planning
  import opened ScheduleIds
  import Fifo
  import Lifecycle
  import MemoryTable

  /** The record of a scheduled point: for the entry's group and name, due at the point, as its first attempt. */
  predicate IsTaskOf(e: ScheduleEntry, p: Timestamp, created: Timestamp, r: TaskRecord) {
    && r.info.group == e.group && r.info.name == e.name && r.data == e.data
    && r.info.due == p / 1000 * 1000 && r.info.scheduled == Some(r.info.due) && (Aligned(p) ==> r.info.due == p)
    && r.info.retryCount == 0 && r.info.created == created
    && r.info.ttl == (if e.resultTtl.Some? then e.resultTtl.value else 604_800_000)
  }

  lemma TaskIsOf(c: Config, e: ScheduleEntry, p: Timestamp, created: Timestamp)
    ensures IsTaskOf(e, p, created, TaskFor(c, e, p, created))
  {
    if Aligned(p) {
      WholeSecondOfPoint(p);
    }
  }

  /** Tasks with one id are one task: ids of different points differ. */
  lemma SameIdSameTask(c: Config, i: nat, p: Timestamp, j: nat, q: Timestamp, created: Timestamp)
    requires UniqueKeys(c) && NUL !in c.name && i < |c.entries| && j < |c.entries|
    requires PointId(c, c.entries[i].key, p) == PointId(c, c.entries[j].key, q)
    ensures TaskFor(c, c.entries[i], p, created) == TaskFor(c, c.entries[j], q, created)
  {
    IdsAreInjective(c.name, c.entries[i].key, WholeSecond(p), c.name, c.entries[j].key, WholeSecond(q));
  }

  /** A put of new ids stores, under each, the first record that has it. */
  lemma {:induction false} PutStores(t: MemoryTable.Table, rs: seq<TaskRecord>, id: TaskId)
    requires id !in t.tasks && exists k :: 0 <= k < |rs| && rs[k].info.id == id
    ensures var t' := MemoryTable.PutAll(t, rs);
            id in t'.tasks && t'.tasks[id].IsQueued()
            && exists k :: 0 <= k < |rs| && rs[k].info.id == id && t'.tasks[id].record == rs[k]
  {
    var n := |rs| - 1;
    var before := MemoryTable.PutAll(t, rs[..n]);
    Fifo.PutAllKnows(t, rs[..n]);
    if id in before.tasks {
      var k :| 0 <= k < n && rs[..n][k].info.id == id;
      PutStores(t, rs[..n], id);
      var m :| 0 <= m < n && rs[..n][m].info.id == id && before.tasks[id].record == rs[..n][m];
      assert rs[m] == rs[..n][m];
    } else {
      assert rs[n].info.id == id by {
        forall k | 0 <= k < n ensures rs[k].info.id != id {
          assert rs[..n][k] == rs[k];
        }
      }
    }
  }

  /** All records of a run with the id of a point are that point's task. */
  lemma RunHasOneTask(c: Config, state: Option<SchedulerState>, points: seq<Timestamp>, created: Timestamp, i: nat,
                      p: Timestamp, k: nat)
    requires UniqueKeys(c) && NUL !in c.name && i < |c.entries| && k < |NewTasks(c, state, points, created)|
    requires NewTasks(c, state, points, created)[k].info.id == PointId(c, c.entries[i].key, p)
    ensures NewTasks(c, state, points, created)[k] == TaskFor(c, c.entries[i], p, created)
  {
    var task := NewTasks(c, state, points, created)[k];
    var j, q := TaskOrigin(c, state, points, created, task);
    SameIdSameTask(c, i, p, j, q, created);
  }

  /**
   After a run that persists, each scheduled point whose id was unknown is a queued row
   with the entry's group, name and data, due at the point, with retry count 0 and the
   entry's lifetime.
   */
  lemma ScheduledIsStored(c: Config, state: Option<SchedulerState>, now: Timestamp, created: Timestamp,
                          t: MemoryTable.Table, i: nat, p: Timestamp)
    requires UniqueKeys(c) && NUL !in c.name && i < |c.entries| && Plan(c, state, now, created).Persist?
    requires p in ScheduledOf(c, state, ListSchedulePoints(state, now), i)
    requires PointId(c, c.entries[i].key, p) !in t.tasks
    ensures var id := PointId(c, c.entries[i].key, p);
            var t' := MemoryTable.PutAll(t, Plan(c, state, now, created).tasks);
            && id in t'.tasks && t'.tasks[id].IsQueued() && IsTaskOf(c.entries[i], p, created, t'.tasks[id].record)
  {
    var points, id := ListSchedulePoints(state, now), PointId(c, c.entries[i].key, p);
    var tasks := NewTasks(c, state, points, created);
    ScheduledIsSubmitted(c, state, points, created, i, p);
    var k :| 0 <= k < |tasks| && tasks[k] == TaskFor(c, c.entries[i], p, created);
    PutStores(t, tasks, id);
    var m :| 0 <= m < |tasks| && tasks[m].info.id == id && MemoryTable.PutAll(t, tasks).tasks[id].record == tasks[m];
    RunHasOneTask(c, state, points, created, i, p, m);
    TaskIsOf(c, c.entries[i], p, created);
  }

  /** Nothing else is stored: each new row is that of a scheduled point. */
  lemma StoredIsScheduled(c: Config, state: Option<SchedulerState>, now: Timestamp, created: Timestamp,
                          t: MemoryTable.Table, id: TaskId)
    returns (i: nat, p: Timestamp)
    requires Plan(c, state, now, created).Persist? && id !in t.tasks
    requires id in MemoryTable.PutAll(t, Plan(c, state, now, created).tasks).tasks
    ensures i < |c.entries| && p in ScheduledOf(c, state, ListSchedulePoints(state, now), i)
    ensures var t' := MemoryTable.PutAll(t, Plan(c, state, now, created).tasks);
            id == PointId(c, c.entries[i].key, p) && IsTaskOf(c.entries[i], p, created, t'.tasks[id].record)
  {
    var points := ListSchedulePoints(state, now);
    var tasks := NewTasks(c, state, points, created);
    Fifo.PutAllKnows(t, tasks);
    PutStores(t, tasks, id);
    var k :| 0 <= k < |tasks| && tasks[k].info.id == id && MemoryTable.PutAll(t, tasks).tasks[id].record == tasks[k];
    i, p := TaskOrigin(c, state, points, created, tasks[k]);
    TaskIsOf(c, c.entries[i], p, created);
  }

  /** A claim that asks for as many as are ready takes all of them, and only those. */
  lemma LargeClaimTakesAll(b: Lifecycle.Board, group: Group, limit: nat, upTo: Timestamp, claims: seq<Lifecycle.Claim>)
    requires Lifecycle.IsClaim(b, group, limit, upTo, claims) && limit >= |Lifecycle.Ready(b, group, upTo)|
    ensures Lifecycle.ClaimedIds(claims) == Lifecycle.Ready(b, group, upTo)
  {
    var ids, ready := Lifecycle.ClaimedIds(claims), Lifecycle.Ready(b, group, upTo);
    ClaimedCount(claims);
    assert ids <= ready;
    forall id | id in ready ensures id in ids {
      if id !in ids {
        SmallerSubset(ids, ready, id);
      }
    }
  }

  lemma SmallerSubset(a: set<TaskId>, b: set<TaskId>, id: TaskId)
    requires a <= b && id in b && id !in a
    ensures |a| < |b|
  {
    assert b == a + (b - a) && id in b - a;
  }

  lemma {:induction false} ClaimedCount(claims: seq<Lifecycle.Claim>)
    requires forall i, j | 0 <= i < j < |claims| :: claims[i].Id() != claims[j].Id()
    ensures |Lifecycle.ClaimedIds(claims)| == |claims|
  {
    if claims == [] {
      assert Lifecycle.ClaimedIds(claims) == {};
    } else {
      var n := |claims| - 1;
      ClaimedCount(claims[..n]);
      forall i | 0 <= i < n ensures claims[..n][i] == claims[i] {
      }
      assert Lifecycle.ClaimedIds(claims) == Lifecycle.ClaimedIds(claims[..n]) + {claims[n].Id()} by {
        forall id | id in Lifecycle.ClaimedIds(claims[..n]) ensures id in Lifecycle.ClaimedIds(claims) {
          var i :| 0 <= i < n && claims[..n][i].Id() == id;
          assert claims[i].Id() == id;
        }
      }
      assert claims[n].Id() !in Lifecycle.ClaimedIds(claims[..n]);
    }
  }

  lemma QueuedIsReady(t: MemoryTable.Table, id: TaskId, group: Group, due: Timestamp, at: Timestamp)
    requires MemoryTable.Inv(t) && id in t.tasks && t.tasks[id].IsQueued()
    requires t.tasks[id].record.info.group == group && t.tasks[id].record.info.due == due
    ensures id in Lifecycle.Ready(MemoryTable.View(t), group, at) <==> due <= at
  {
  }

  /**
   And a claim by the entry's group that is large enough returns the task exactly from
   its point on.
   */
  lemma StoredIsClaimable(c: Config, state: Option<SchedulerState>, now: Timestamp, created: Timestamp,
                          t: MemoryTable.Table, t': MemoryTable.Table, i: nat, p: Timestamp, worker: WorkerId,
                          limit: nat, at: Timestamp)
    requires MemoryTable.Inv(t) && UniqueKeys(c) && NUL !in c.name && i < |c.entries|
    requires Plan(c, state, now, created).Persist? && Aligned(p)
    requires p in ScheduledOf(c, state, ListSchedulePoints(state, now), i)
    requires PointId(c, c.entries[i].key, p) !in t.tasks
    requires t' == MemoryTable.PutAll(t, Plan(c, state, now, created).tasks) && MemoryTable.Inv(t')
    requires limit >= |Lifecycle.Ready(MemoryTable.View(t'), c.entries[i].group, at)|
    ensures PointId(c, c.entries[i].key, p) in Lifecycle.ClaimedIds(
              MemoryTable.Exec(t', Lifecycle.AssignTasks(c.entries[i].group, worker, limit, at)).1)
            <==> p <= at
  {
    ScheduledIsStored(c, state, now, created, t, i, p);
    QueuedIsReady(t', PointId(c, c.entries[i].key, p), c.entries[i].group, p, at);
    ClaimReturnsReady(t', c.entries[i].group, worker, limit, at);
  }

  lemma ClaimReturnsReady(t: MemoryTable.Table, group: Group, w: WorkerId, limit: nat, at: Timestamp)
    requires MemoryTable.Inv(t) && limit >= |Lifecycle.Ready(MemoryTable.View(t), group, at)|
    ensures Lifecycle.ClaimedIds(MemoryTable.Exec(t, Lifecycle.AssignTasks(group, w, limit, at)).1)
         == Lifecycle.Ready(MemoryTable.View(t), group, at)
  {
    var op := Lifecycle.AssignTasks(group, w, limit, at);
    MemoryTable.Simulates(t, op);
    LargeClaimTakesAll(MemoryTable.View(t), group, limit, at, MemoryTable.Exec(t, op).1);
  }
}
