/**
 First in, first out: over whole runs of the in-memory table, equally due tasks of a
 group are handed out in the order they were put, retries included.
 */
module Fifo {
  import opened Tasks
  import opened Lifecycle
  import opened MemoryTable
  import opened Ordering

  /** Known tasks keep their sequence number, new ones get higher ones than any before. */
  predicate Grows(t: Table, t': Table) {
    && t.seqNo <= t'.seqNo
    && forall id | id in t'.tasks ::
         if id in t.tasks then t'.tasks[id].seqNo == t.tasks[id].seqNo else t'.tasks[id].seqNo > t.seqNo
  }

  lemma {:induction false} PutAllGrows(t: Table, rs: seq<TaskRecord>)
    ensures Grows(t, MemoryTable.PutAll(t, rs)) && t.tasks.Keys <= MemoryTable.PutAll(t, rs).tasks.Keys
  {
    if rs != [] {
      PutAllGrows(t, rs[..|rs| - 1]);
    }
  }

  lemma {:induction false} PutAllKnows(t: Table, rs: seq<TaskRecord>)
    ensures forall id :: id in MemoryTable.PutAll(t, rs).tasks
                     <==> id in t.tasks || exists i :: 0 <= i < |rs| && rs[i].info.id == id
  {
    if rs != [] {
      PutAllKnows(t, rs[..|rs| - 1]);
      assert forall i | 0 <= i < |rs| - 1 :: rs[..|rs| - 1][i] == rs[i];
    }
  }

  lemma {:induction false} PutAllConcat(t: Table, a: seq<TaskRecord>, b: seq<TaskRecord>)
    ensures MemoryTable.PutAll(t, a + b) == MemoryTable.PutAll(MemoryTable.PutAll(t, a), b)
  {
    if b == [] {
      assert a + b == a;
    } else {
      PutAllConcat(t, a, b[..|b| - 1]);
      assert (a + b)[..|a + b| - 1] == a + b[..|b| - 1];
    }
  }

  /** Within a batch the order of the records is the order of the puts. */
  lemma BatchInOrder(t: Table, rs: seq<TaskRecord>, p: nat, q: nat)
    requires MemoryTable.Inv(t) && p < q < |rs| && rs[q].info.id !in t.tasks
    requires forall m | 0 <= m <= p :: rs[m].info.id != rs[q].info.id
    ensures var t' := MemoryTable.PutAll(t, rs);
            && rs[p].info.id in t'.tasks && rs[q].info.id in t'.tasks
            && t'.tasks[rs[p].info.id].seqNo < t'.tasks[rs[q].info.id].seqNo
  {
    var first := MemoryTable.PutAll(t, rs[..p + 1]);
    PutAllKnows(t, rs[..p + 1]);
    assert rs[..p + 1][p] == rs[p];
    PutAllKeepsInv(t, rs[..p + 1]);
    PutAllConcat(t, rs[..p + 1], rs[p + 1..]);
    assert rs[..p + 1] + rs[p + 1..] == rs;
    PutAllGrows(first, rs[p + 1..]);
    PutAllKnows(t, rs);
  }

  lemma StepGrows(t: Table, op: Op)
    requires MemoryTable.Inv(t)
    ensures Grows(t, Exec(t, op).0)
  {
    if op.PutTasks? {
      PutAllGrows(t, op.records);
    } else if op.AssignTasks? {
      AssignGrows(t, op);
    } else if op.Finish? {
      FinishGrows(t, op.finished, op.outcome, op.now);
    }
  }

  lemma AssignGrows(t: Table, op: Op)
    requires op.AssignTasks?
    ensures Grows(t, Exec(t, op).0)
  {
  }

  lemma FinishGrows(t: Table, r: TaskRecord, outcome: Outcome, now: Timestamp)
    ensures Grows(t, Complete(t, r, outcome, now))
  {
  }

  /** A task that was not known at step `j` is numbered after everything that was. */
  lemma {:induction false} NumberedAfter(tables: seq<Table>, events: seq<Event>, j: nat, k: nat, id: TaskId)
    requires IsTrace(tables, events) && j <= k < |tables| && id !in tables[j].tasks
    ensures tables[j].seqNo <= tables[k].seqNo
    ensures id in tables[k].tasks ==> tables[j].seqNo < tables[k].tasks[id].seqNo
    decreases k
  {
    if j < k {
      NumberedAfter(tables, events, j, k - 1, id);
      TraceKeepsInv(tables, events, k - 1);
      StepGrows(tables[k - 1], events[k - 1].op);
    }
  }

  /** A task keeps its number while it is known, through claims, retries and restores. */
  lemma {:induction false} NumberStays(tables: seq<Table>, events: seq<Event>, j: nat, k: nat, id: TaskId)
    requires IsTrace(tables, events) && j <= k < |tables|
    requires forall m | j <= m <= k :: id in tables[m].tasks
    ensures tables[k].tasks[id].seqNo == tables[j].tasks[id].seqNo
    decreases k
  {
    if j < k {
      NumberStays(tables, events, j, k - 1, id);
      TraceKeepsInv(tables, events, k - 1);
      StepGrows(tables[k - 1], events[k - 1].op);
    }
  }

  /** A claim that takes the later of two tasks has taken the earlier one before it. */
  lemma EarlierIsTaken(t: Table, op: Op, a: TaskId, b: TaskId) returns (p: nat, q: nat)
    requires MemoryTable.Inv(t) && op.AssignTasks? && b in ClaimedIds(Exec(t, op).1)
    requires IsDue(t, op.group, op.upTo, a) && b in t.tasks && Earlier(t.tasks[a], t.tasks[b])
    ensures var claims := Exec(t, op).1;
            p < q < |claims| && claims[p].Id() == a && claims[q].Id() == b
  {
    var picked, claims := Picked(t, op.group, op.limit, op.upTo), Exec(t, op).1;
    PickedInOrder(t, op.group, op.limit, op.upTo);
    forall i | 0 <= i < |claims| ensures claims[i].Id() == picked[i].id {
    }
    q :| 0 <= q < |claims| && claims[q].Id() == b;
    assert a in Ids(picked) by {
      NotLeftOut(t, picked, op.limit, DueIds(t, op.group, op.upTo), a, q);
    }
    p :| 0 <= p < |picked| && picked[p].id == a;
    EarlierComesFirst(t, picked, op.limit, DueIds(t, op.group, op.upTo), p, q);
  }

  lemma NotLeftOut(t: Table, ranks: seq<Rank>, limit: nat, due: set<TaskId>, a: TaskId, q: nat)
    requires IsFirst(t, ranks, limit, due) && a in due && a in t.tasks && q < |ranks|
    requires Earlier(t.tasks[a], t.tasks[ranks[q].id])
    ensures a in Ids(ranks)
  {
  }

  lemma EarlierComesFirst(t: Table, ranks: seq<Rank>, limit: nat, due: set<TaskId>, p: nat, q: nat)
    requires IsFirst(t, ranks, limit, due) && p < |ranks| && q < |ranks|
    requires Earlier(t.tasks[ranks[p].id], t.tasks[ranks[q].id])
    ensures p < q
  {
  }

  /**
   Of two equally due tasks of a group, the one put first is claimed no later: when a
   claim takes the other, it has been taken, in the same batch before it or earlier.
   */
  lemma PutFirstClaimedFirst(tables: seq<Table>, events: seq<Event>, j: nat, k: nat, a: TaskId, b: TaskId)
    requires IsTrace(tables, events) && j <= k < |events| && events[k].op.AssignTasks?
    requires b !in tables[j].tasks && forall m | j <= m <= k :: a in tables[m].tasks
    requires b in tables[k].tasks && b in ClaimedIds(events[k].claims)
    requires tables[k].tasks[a].record.info.group == tables[k].tasks[b].record.info.group
    requires tables[k].tasks[a].record.info.due == tables[k].tasks[b].record.info.due
    ensures tables[k].tasks[a].IsQueued() ==>
              exists p, q :: 0 <= p < q < |events[k].claims|
                          && events[k].claims[p].Id() == a && events[k].claims[q].Id() == b
  {
    TraceKeepsInv(tables, events, j);
    TraceKeepsInv(tables, events, k);
    NumberedAfter(tables, events, j, k, b);
    NumberStays(tables, events, j, k, a);
    assert Exec(tables[k], events[k].op) == (tables[k + 1], events[k].claims);
    if tables[k].tasks[a].IsQueued() {
      ClaimedIsDue(tables[k], events[k].op, b);
      var p, q := EarlierIsTaken(tables[k], events[k].op, a, b);
    }
  }

  lemma ClaimedIsDue(t: Table, op: Op, id: TaskId)
    requires MemoryTable.Inv(t) && op.AssignTasks? && id in ClaimedIds(Exec(t, op).1)
    ensures IsDue(t, op.group, op.upTo, id)
  {
    var picked, claims := Picked(t, op.group, op.limit, op.upTo), Exec(t, op).1;
    PickedInOrder(t, op.group, op.limit, op.upTo);
    var q :| 0 <= q < |claims| && claims[q].Id() == id;
    assert picked[q].id == id;
  }
}
