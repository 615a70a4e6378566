/**
 Any number of processes run the same scheduler without a working lock: each reads
 the persisted state, plans from it, and later writes its state and tasks in one
 atomic step, possibly over a newer state. Workers act on the tasks in between.
 */
module SchedulerRace {
  import opened Tasks
  import opened Grid
  import opened Schedules
  import opened Planning
  import ScheduleIds
  import L = Lifecycle

  datatype System = System(
    stored: SchedulerState,
    board: L.Board,
    pending: map<nat, Run>,
    log: seq<TaskId>
  )

  datatype Step =
    | Read(process: nat, now: Timestamp, created: Timestamp)
    | Commit(process: nat)
    | Lose(process: nat)
    | Work(event: L.Event)

  /** The ids a batch adds to the board; ids it already knows are left alone. */
  function Inserted(b: L.Board, rs: seq<TaskRecord>): seq<TaskId> {
    if rs == [] then []
    else
      var n := |rs| - 1;
      Inserted(b, rs[..n]) + if rs[n].info.id in L.PutAll(b, rs[..n]) then [] else [rs[n].info.id]
  }

  ghost predicate Next(c: Config, s: System, step: Step, s': System) {
    match step
    case Read(process, now, created) =>
      s' == s.(pending := match Plan(c, Some(s.stored), now, created)
                          case Skip => s.pending - {process}
                          case Persist(state, tasks) => s.pending[process := Persist(state, tasks)])
    case Commit(process) =>
      && process in s.pending && s.pending[process].Persist?
      && var run := s.pending[process];
         s' == System(run.state, L.PutAll(s.board, run.tasks), s.pending - {process},
                      s.log + Inserted(s.board, run.tasks))
    case Lose(process) => s' == s.(pending := s.pending - {process})
    case Work(event) =>
      && L.Disciplined(s.board, event.op) && !event.op.DiscardTasks?
      && L.Next(s.board, event, s'.board) && s' == s.(board := s'.board)
  }

  ghost predicate IsRun(c: Config, seed: SchedulerState, states: seq<System>, steps: seq<Step>) {
    && |states| == |steps| + 1
    && Aligned(seed.lastRunAt)
    && (exists board :: L.Keyed(board) && states[0] == System(seed, board, map[], []))
    && forall i | 0 <= i < |steps| :: Next(c, states[i], steps[i], states[i + 1])
  }

  ghost predicate NoHit(hit: Timestamp -> bool, from: Timestamp, to: Timestamp) {
    forall q | Aligned(q) && from < q <= to :: !hit(q)
  }

  predicate IsHitIn(hit: Timestamp -> bool, from: Timestamp, to: Timestamp, p: Timestamp) {
    Aligned(p) && from < p <= to && hit(p)
  }

  /**
   For an entry with `OnlyEarliest`: its earliest match since the seed has been submitted,
   and its slot names a match that has been submitted too.
   */
  ghost predicate CoversEarliest(c: Config, seed: SchedulerState, s: SchedulerState, e: ScheduleEntry,
                                 ids: set<TaskId>)
  {
    && (forall p | IsEarliest(Hit(c, e), seed.lastRunAt, s.lastRunAt, p) :: PointId(c, e.key, p) in ids)
    && var slot := Slot(s.lastScheduledAt, e.key);
       if NoHit(Hit(c, e), seed.lastRunAt, s.lastRunAt) then slot == Slot(seed.lastScheduledAt, e.key)
       else
         && slot.Some? && IsHitIn(Hit(c, e), seed.lastRunAt, s.lastRunAt, slot.value)
         && PointId(c, e.key, slot.value) in ids
  }

  ghost predicate CoversEntry(c: Config, seed: SchedulerState, s: SchedulerState, i: nat, ids: set<TaskId>)
    requires i < |c.entries|
  {
    var e := c.entries[i];
    && (KeepsAll(e.schedule.policy) ==>
          forall p | Aligned(p) && seed.lastRunAt < p <= s.lastRunAt && Hit(c, e)(p) :: PointId(c, e.key, p) in ids)
    && (e.schedule.policy.OnlyLatest? ==>
          && Slot(s.lastScheduledAt, e.key)
             == LatestHit(Hit(c, e), seed.lastRunAt, s.lastRunAt, Slot(seed.lastScheduledAt, e.key))
          && (LatestHit(Hit(c, e), seed.lastRunAt, s.lastRunAt, None).Some? ==>
                PointId(c, e.key, LatestHit(Hit(c, e), seed.lastRunAt, s.lastRunAt, None).value) in ids))
    && (e.schedule.policy.OnlyEarliest? ==> CoversEarliest(c, seed, s, e, ids))
  }

  /** The tasks in `ids` account for everything the state claims to have scheduled since the seed. */
  ghost predicate Covers(c: Config, seed: SchedulerState, s: SchedulerState, ids: set<TaskId>) {
    && Aligned(s.lastRunAt) && seed.lastRunAt <= s.lastRunAt
    && forall i | 0 <= i < |c.entries| :: CoversEntry(c, seed, s, i, ids)
  }

  ghost predicate IsPointOf(c: Config, seed: SchedulerState, id: TaskId, i: nat, p: Timestamp)
    requires i < |c.entries|
  {
    Aligned(p) && seed.lastRunAt < p && Hit(c, c.entries[i])(p) && id == PointId(c, c.entries[i].key, p)
  }

  /** The id names a matching grid point of one of the entries. */
  ghost predicate IsPointId(c: Config, seed: SchedulerState, id: TaskId) {
    exists i, p :: 0 <= i < |c.entries| && IsPointOf(c, seed, id, i, p)
  }

  function IdsOf(rs: seq<TaskRecord>): set<TaskId> {
    set i | 0 <= i < |rs| :: rs[i].info.id
  }

  ghost predicate Distinct(ids: seq<TaskId>) {
    forall i, j | 0 <= i < j < |ids| :: ids[i] != ids[j]
  }

  ghost predicate PendingOk(c: Config, seed: SchedulerState, run: Run, ids: set<TaskId>) {
    && run.Persist?
    && Covers(c, seed, run.state, ids + IdsOf(run.tasks))
    && forall id | id in IdsOf(run.tasks) :: IsPointId(c, seed, id)
  }

  ghost predicate Inv(c: Config, seed: SchedulerState, s: System) {
    && L.Keyed(s.board)
    && Covers(c, seed, s.stored, s.board.Keys)
    && (forall process | process in s.pending :: PendingOk(c, seed, s.pending[process], s.board.Keys))
    && Distinct(s.log)
    && (forall id | id in s.log :: id in s.board && IsPointId(c, seed, id))
  }

  lemma MoreIdsCover(c: Config, seed: SchedulerState, s: SchedulerState, ids: set<TaskId>, more: set<TaskId>)
    requires Covers(c, seed, s, ids) && ids <= more
    ensures Covers(c, seed, s, more)
  {
    forall i | 0 <= i < |c.entries| ensures CoversEntry(c, seed, s, i, more) {
      assert CoversEntry(c, seed, s, i, ids);
    }
  }

  lemma SeedCovers(c: Config, seed: SchedulerState, ids: set<TaskId>)
    requires Aligned(seed.lastRunAt)
    ensures Covers(c, seed, seed, ids)
  {
    forall i | 0 <= i < |c.entries| ensures CoversEntry(c, seed, seed, i, ids) {
      assert GridBetween(seed.lastRunAt, seed.lastRunAt) == [];
    }
  }

  /** A point scheduled for an entry is among the planned task ids. */
  lemma ScheduledIsPlanned(c: Config, state: SchedulerState, points: seq<Timestamp>, created: Timestamp, i: nat,
                           p: Timestamp)
    requires i < |c.entries| && p in ScheduledOf(c, Some(state), points, i)
    ensures PointId(c, c.entries[i].key, p) in IdsOf(NewTasks(c, Some(state), points, created))
  {
    ScheduledIsSubmitted(c, Some(state), points, created, i, p);
    var tasks := NewTasks(c, Some(state), points, created);
    var k :| 0 <= k < |tasks| && tasks[k] == TaskFor(c, c.entries[i], p, created);
  }

  lemma KeepAllExtends(c: Config, seed: SchedulerState, s: SchedulerState, to: Timestamp, created: Timestamp,
                       i: nat, ids: set<TaskId>, p: Timestamp)
    requires i < |c.entries| && KeepsAll(c.entries[i].schedule.policy)
    requires Covers(c, seed, s, ids) && Aligned(to)
    requires Aligned(p) && seed.lastRunAt < p <= to && Hit(c, c.entries[i])(p)
    ensures PointId(c, c.entries[i].key, p)
         in ids + IdsOf(NewTasks(c, Some(s), GridBetween(s.lastRunAt, to), created))
  {
    assert CoversEntry(c, seed, s, i, ids);
    if p > s.lastRunAt {
      GridMembers(s.lastRunAt, to);
      ScheduledIsPlanned(c, s, GridBetween(s.lastRunAt, to), created, i, p);
    }
  }

  lemma OnlyLatestSlotExtends(c: Config, seed: SchedulerState, s: SchedulerState, to: Timestamp,
                              i: nat, ids: set<TaskId>)
    requires UniqueKeys(c) && i < |c.entries| && c.entries[i].schedule.policy.OnlyLatest?
    requires Aligned(seed.lastRunAt) && Covers(c, seed, s, ids) && Aligned(to) && s.lastRunAt < to
    ensures Slot(NewLasts(c, Some(s), GridBetween(s.lastRunAt, to)), c.entries[i].key)
         == LatestHit(Hit(c, c.entries[i]), seed.lastRunAt, to, Slot(seed.lastScheduledAt, c.entries[i].key))
  {
    var e := c.entries[i];
    assert CoversEntry(c, seed, s, i, ids);
    OnlyLatestSlot(c, s, to, i);
    LatestHitComposes(Hit(c, e), seed.lastRunAt, s.lastRunAt, to, Slot(seed.lastScheduledAt, e.key));
  }

  lemma OnlyLatestExtends(c: Config, seed: SchedulerState, s: SchedulerState, to: Timestamp, created: Timestamp,
                          i: nat, ids: set<TaskId>)
    requires i < |c.entries| && c.entries[i].schedule.policy.OnlyLatest?
    requires Aligned(seed.lastRunAt) && Covers(c, seed, s, ids) && Aligned(to) && s.lastRunAt < to
    ensures var e, points := c.entries[i], GridBetween(s.lastRunAt, to);
            var best := LatestHit(Hit(c, e), seed.lastRunAt, to, None);
            best.Some? ==> PointId(c, e.key, best.value) in ids + IdsOf(NewTasks(c, Some(s), points, created))
  {
    assert CoversEntry(c, seed, s, i, ids);
    LatestIsOldOrNew(Hit(c, c.entries[i]), seed.lastRunAt, s.lastRunAt, to);
    LatestIsPlanned(c, s, to, created, i);
  }

  /** The latest hit up to `to` is that of the part before, or the last of the new ones. */
  lemma LatestIsOldOrNew(hit: Timestamp -> bool, start: Timestamp, mid: Timestamp, to: Timestamp)
    requires Aligned(start) && Aligned(mid) && Aligned(to) && start <= mid < to
    ensures var hits := Filter(hit, GridBetween(mid, to));
            LatestHit(hit, start, to, None)
            == if hits == [] then LatestHit(hit, start, mid, None) else Some(hits[|hits| - 1])
  {
    LatestHitComposes(hit, start, mid, to, None);
  }

  lemma LatestIsPlanned(c: Config, s: SchedulerState, to: Timestamp, created: Timestamp, i: nat)
    requires i < |c.entries| && c.entries[i].schedule.policy.OnlyLatest?
    ensures var points := GridBetween(s.lastRunAt, to);
            var hits := Filter(Hit(c, c.entries[i]), points);
            hits != [] ==>
              PointId(c, c.entries[i].key, hits[|hits| - 1]) in IdsOf(NewTasks(c, Some(s), points, created))
  {
    var points, hits := GridBetween(s.lastRunAt, to), Filter(Hit(c, c.entries[i]), GridBetween(s.lastRunAt, to));
    if hits != [] {
      ScheduledIsPlanned(c, s, points, created, i, hits[|hits| - 1]);
    }
  }

  lemma OldEarliest(hit: Timestamp -> bool, from: Timestamp, mid: Timestamp, to: Timestamp, p: Timestamp)
    requires IsEarliest(hit, from, to, p) && from <= mid <= to
    ensures p <= mid ==> IsEarliest(hit, from, mid, p)
    ensures p > mid ==> NoHit(hit, from, mid) && IsEarliest(hit, mid, to, p)
  {
    if p > mid {
      forall q | Aligned(q) && from < q <= mid ensures !hit(q) {
        assert hit(q) ==> p <= q;
      }
    }
  }

  lemma EarliestIsSubmitted(c: Config, seed: SchedulerState, s: SchedulerState, to: Timestamp, created: Timestamp,
                            i: nat, ids: set<TaskId>, p: Timestamp)
    requires UniqueKeys(c) && i < |c.entries| && c.entries[i].schedule.policy.OnlyEarliest?
    requires Covers(c, seed, s, ids) && Aligned(to) && s.lastRunAt < to
    requires IsEarliest(Hit(c, c.entries[i]), seed.lastRunAt, to, p)
    ensures PointId(c, c.entries[i].key, p)
         in ids + IdsOf(NewTasks(c, Some(s), GridBetween(s.lastRunAt, to), created))
  {
    var e := c.entries[i];
    assert CoversEntry(c, seed, s, i, ids);
    OldEarliest(Hit(c, e), seed.lastRunAt, s.lastRunAt, to, p);
    if p > s.lastRunAt {
      OnlyEarliestSchedules(c, s, to, i);
      ScheduledIsPlanned(c, s, GridBetween(s.lastRunAt, to), created, i, p);
    }
  }

  lemma EarliestSlotExtends(c: Config, seed: SchedulerState, s: SchedulerState, to: Timestamp, created: Timestamp,
                            i: nat, ids: set<TaskId>)
    requires UniqueKeys(c) && i < |c.entries| && c.entries[i].schedule.policy.OnlyEarliest?
    requires Covers(c, seed, s, ids) && Aligned(to) && s.lastRunAt < to
    ensures var e, points := c.entries[i], GridBetween(s.lastRunAt, to);
            var slot := Slot(NewLasts(c, Some(s), points), e.key);
            if NoHit(Hit(c, e), seed.lastRunAt, to) then slot == Slot(seed.lastScheduledAt, e.key)
            else
              && slot.Some? && IsHitIn(Hit(c, e), seed.lastRunAt, to, slot.value)
              && PointId(c, e.key, slot.value) in ids + IdsOf(NewTasks(c, Some(s), points, created))
  {
    var e, points := c.entries[i], GridBetween(s.lastRunAt, to);
    assert CoversEntry(c, seed, s, i, ids);
    OnlyEarliestSchedules(c, s, to, i);
    EarliestOrNone(Hit(c, e), s.lastRunAt, to);
    if p :| IsEarliest(Hit(c, e), s.lastRunAt, to, p) {
      ScheduledIsPlanned(c, s, points, created, i, p);
      assert IsHitIn(Hit(c, e), seed.lastRunAt, to, p);
    } else {
      NoHitsTogether(Hit(c, e), seed.lastRunAt, s.lastRunAt, to);
    }
  }

  lemma EarliestOrNone(hit: Timestamp -> bool, from: Timestamp, to: Timestamp)
    requires Aligned(from) && Aligned(to)
    ensures NoHit(hit, from, to) || exists p :: IsEarliest(hit, from, to, p)
  {
    FirstHitIsEarliest(hit, from, to);
  }

  lemma NoHitsTogether(hit: Timestamp -> bool, from: Timestamp, mid: Timestamp, to: Timestamp)
    requires from <= mid <= to && NoHit(hit, mid, to)
    ensures NoHit(hit, from, to) <==> NoHit(hit, from, mid)
  {
    if NoHit(hit, from, mid) {
      forall q | Aligned(q) && from < q <= to ensures !hit(q) {
        assert q <= mid ==> !hit(q);
      }
    }
  }

  lemma EarliestExtends(c: Config, seed: SchedulerState, s: SchedulerState, to: Timestamp, created: Timestamp,
                        i: nat, ids: set<TaskId>)
    requires UniqueKeys(c) && i < |c.entries| && c.entries[i].schedule.policy.OnlyEarliest?
    requires Covers(c, seed, s, ids) && Aligned(to) && s.lastRunAt < to
    ensures var points := GridBetween(s.lastRunAt, to);
            CoversEarliest(c, seed, SchedulerState(to, NewLasts(c, Some(s), points)), c.entries[i],
                           ids + IdsOf(NewTasks(c, Some(s), points, created)))
  {
    EarliestSlotExtends(c, seed, s, to, created, i, ids);
    forall p | IsEarliest(Hit(c, c.entries[i]), seed.lastRunAt, to, p)
      ensures PointId(c, c.entries[i].key, p)
           in ids + IdsOf(NewTasks(c, Some(s), GridBetween(s.lastRunAt, to), created))
    {
      EarliestIsSubmitted(c, seed, s, to, created, i, ids, p);
    }
  }

  /** A plan made from a state that is accounted for is accounted for once its tasks are in. */
  lemma PlanCovers(c: Config, seed: SchedulerState, s: SchedulerState, to: Timestamp, created: Timestamp,
                   ids: set<TaskId>)
    requires UniqueKeys(c) && Aligned(seed.lastRunAt) && Covers(c, seed, s, ids) && Aligned(to) && s.lastRunAt < to
    ensures var points := GridBetween(s.lastRunAt, to);
            Covers(c, seed, SchedulerState(to, NewLasts(c, Some(s), points)),
                   ids + IdsOf(NewTasks(c, Some(s), points, created)))
  {
    var points := GridBetween(s.lastRunAt, to);
    var s' := SchedulerState(to, NewLasts(c, Some(s), points));
    var more := ids + IdsOf(NewTasks(c, Some(s), points, created));
    forall i | 0 <= i < |c.entries| ensures CoversEntry(c, seed, s', i, more) {
      var e := c.entries[i];
      if KeepsAll(e.schedule.policy) {
        forall p | Aligned(p) && seed.lastRunAt < p <= to && Hit(c, e)(p) ensures PointId(c, e.key, p) in more {
          KeepAllExtends(c, seed, s, to, created, i, ids, p);
        }
      } else if e.schedule.policy.OnlyLatest? {
        OnlyLatestSlotExtends(c, seed, s, to, i, ids);
        OnlyLatestExtends(c, seed, s, to, created, i, ids);
      } else if e.schedule.policy.OnlyEarliest? {
        EarliestExtends(c, seed, s, to, created, i, ids);
      }
    }
  }

  lemma SelectsAmong(policy: Policy, hits: seq<Timestamp>, last: Option<Timestamp>, p: Timestamp)
    requires policy.OnlyEarliest? || policy.OnlyLatest? || KeepsAll(policy)
    requires p in Select(policy, hits, last)
    ensures p in hits
  {
  }

  /** A plan submits matching grid points only. */
  lemma PlanIsSound(c: Config, seed: SchedulerState, s: SchedulerState, to: Timestamp, created: Timestamp, id: TaskId)
    requires Standard(c) && Aligned(s.lastRunAt) && seed.lastRunAt <= s.lastRunAt && Aligned(to)
    requires id in IdsOf(NewTasks(c, Some(s), GridBetween(s.lastRunAt, to), created))
    ensures IsPointId(c, seed, id)
  {
    var points := GridBetween(s.lastRunAt, to);
    var tasks := NewTasks(c, Some(s), points, created);
    var k :| 0 <= k < |tasks| && tasks[k].info.id == id;
    var i, p := TaskOrigin(c, Some(s), points, created, tasks[k]);
    PointOfEntry(c, seed, s, to, i, p);
    assert IsPointOf(c, seed, id, i, p);
  }

  lemma PointOfEntry(c: Config, seed: SchedulerState, s: SchedulerState, to: Timestamp, i: nat, p: Timestamp)
    requires Standard(c) && Aligned(s.lastRunAt) && seed.lastRunAt <= s.lastRunAt && Aligned(to)
    requires i < |c.entries| && p in ScheduledOf(c, Some(s), GridBetween(s.lastRunAt, to), i)
    ensures Aligned(p) && seed.lastRunAt < p && Hit(c, c.entries[i])(p)
  {
    var e := c.entries[i];
    var hits := Filter(Hit(c, e), GridBetween(s.lastRunAt, to));
    SelectsAmong(e.schedule.policy, hits, LastOf(Some(s), e.key), p);
    GridMembers(s.lastRunAt, to);
  }

  lemma PlanIsPending(c: Config, seed: SchedulerState, s: SchedulerState, to: Timestamp, created: Timestamp,
                      ids: set<TaskId>)
    requires UniqueKeys(c) && Standard(c) && Aligned(seed.lastRunAt)
    requires Covers(c, seed, s, ids) && Aligned(to) && s.lastRunAt < to
    ensures var points := GridBetween(s.lastRunAt, to);
            var run := Persist(SchedulerState(to, NewLasts(c, Some(s), points)), NewTasks(c, Some(s), points, created));
            PendingOk(c, seed, run, ids)
  {
    PlanCovers(c, seed, s, to, created, ids);
    var tasks := NewTasks(c, Some(s), GridBetween(s.lastRunAt, to), created);
    forall id | id in IdsOf(tasks) ensures IsPointId(c, seed, id) {
      PlanIsSound(c, seed, s, to, created, id);
    }
  }

  lemma {:induction false} InsertedIs(b: L.Board, rs: seq<TaskRecord>)
    requires L.Keyed(b)
    ensures Distinct(Inserted(b, rs))
    ensures forall id :: id in Inserted(b, rs) <==> id in L.PutAll(b, rs) && id !in b
    ensures forall id :: id in L.PutAll(b, rs) <==> id in b || id in IdsOf(rs)
  {
    L.PutAllKeeps(b, rs);
    if rs != [] {
      InsertedIs(b, rs[..|rs| - 1]);
      L.PutAllKeeps(b, rs[..|rs| - 1]);
    }
  }

  lemma ReadKeepsInv(c: Config, seed: SchedulerState, s: System, step: Step, s': System)
    requires UniqueKeys(c) && Standard(c) && Aligned(seed.lastRunAt)
    requires Inv(c, seed, s) && step.Read? && Next(c, s, step, s')
    ensures Inv(c, seed, s')
  {
    var run := Plan(c, Some(s.stored), step.now, step.created);
    ReadIsPending(c, seed, s.stored, step.now, step.created, s.board.Keys);
    PlannedKeepsInv(c, seed, s, step.process, run,
                    s.(pending := match run
                                  case Skip => s.pending - {step.process}
                                  case Persist(_, _) => s.pending[step.process := run]));
  }

  lemma PlannedKeepsInv(c: Config, seed: SchedulerState, s: System, process: nat, run: Run, s': System)
    requires Inv(c, seed, s) && (run.Persist? ==> PendingOk(c, seed, run, s.board.Keys))
    requires s' == s.(pending := match run
                                 case Skip => s.pending - {process}
                                 case Persist(_, _) => s.pending[process := run])
    ensures Inv(c, seed, s')
  {
  }

  lemma ReadIsPending(c: Config, seed: SchedulerState, stored: SchedulerState, now: Timestamp, created: Timestamp,
                      ids: set<TaskId>)
    requires UniqueKeys(c) && Standard(c) && Aligned(seed.lastRunAt) && Covers(c, seed, stored, ids)
    ensures var run := Plan(c, Some(stored), now, created); run.Persist? ==> PendingOk(c, seed, run, ids)
  {
    PlanFrom(c, stored, now, created);
    if Round(now) > stored.lastRunAt {
      PlanIsPending(c, seed, stored, Round(now), created, ids);
    }
  }

  lemma PendingKeeps(c: Config, seed: SchedulerState, run: Run, ids: set<TaskId>, more: set<TaskId>)
    requires PendingOk(c, seed, run, ids) && ids <= more
    ensures PendingOk(c, seed, run, more)
  {
    MoreIdsCover(c, seed, run.state, ids + IdsOf(run.tasks), more + IdsOf(run.tasks));
  }

  lemma DistinctConcat(a: seq<TaskId>, b: seq<TaskId>)
    requires Distinct(a) && Distinct(b) && forall id | id in b :: id !in a
    ensures Distinct(a + b)
  {
    forall i, j | 0 <= i < j < |a + b| ensures (a + b)[i] != (a + b)[j] {
      if i < |a| <= j {
        assert b[j - |a|] in b;
        assert a[i] in a;
      }
    }
  }

  lemma CommitKeepsInv(c: Config, seed: SchedulerState, s: System, step: Step, s': System)
    requires Inv(c, seed, s) && step.Commit? && Next(c, s, step, s')
    ensures Inv(c, seed, s') && s.board.Keys <= s'.board.Keys
  {
    var run := s.pending[step.process];
    L.PutAllKeeps(s.board, run.tasks);
    InsertedIs(s.board, run.tasks);
    assert s'.board.Keys == s.board.Keys + IdsOf(run.tasks);
    forall process | process in s'.pending ensures PendingOk(c, seed, s'.pending[process], s'.board.Keys) {
      PendingKeeps(c, seed, s.pending[process], s.board.Keys, s'.board.Keys);
    }
    CommittedLog(c, seed, s, run);
  }

  lemma CommittedLog(c: Config, seed: SchedulerState, s: System, run: Run)
    requires Inv(c, seed, s) && run.Persist? && PendingOk(c, seed, run, s.board.Keys)
    ensures Distinct(s.log + Inserted(s.board, run.tasks))
    ensures forall id | id in s.log + Inserted(s.board, run.tasks) ::
              id in L.PutAll(s.board, run.tasks) && IsPointId(c, seed, id)
  {
    L.PutAllKeeps(s.board, run.tasks);
    InsertedIs(s.board, run.tasks);
    DistinctConcat(s.log, Inserted(s.board, run.tasks));
  }

  lemma WorkKeepsInv(c: Config, seed: SchedulerState, s: System, step: Step, s': System)
    requires Inv(c, seed, s) && step.Work? && Next(c, s, step, s')
    ensures Inv(c, seed, s') && s.board.Keys <= s'.board.Keys
  {
    L.StepKeepsKeys(s.board, step.event, s'.board);
    forall id | id in s.board ensures id in s'.board {
      L.StepLineage(s.board, step.event, s'.board, id);
    }
    MoreIdsCover(c, seed, s.stored, s.board.Keys, s'.board.Keys);
    forall process | process in s'.pending ensures PendingOk(c, seed, s'.pending[process], s'.board.Keys) {
      PendingKeeps(c, seed, s.pending[process], s.board.Keys, s'.board.Keys);
    }
  }

  lemma StepKeepsInv(c: Config, seed: SchedulerState, s: System, step: Step, s': System)
    requires UniqueKeys(c) && Standard(c) && Aligned(seed.lastRunAt)
    requires Inv(c, seed, s) && Next(c, s, step, s')
    ensures Inv(c, seed, s') && s.board.Keys <= s'.board.Keys
  {
    match step
    case Read(_, _, _) => ReadKeepsInv(c, seed, s, step, s');
    case Commit(_) => CommitKeepsInv(c, seed, s, step, s');
    case Lose(_) =>
    case Work(_) => WorkKeepsInv(c, seed, s, step, s');
  }

  lemma {:induction false} RunKeepsInv(c: Config, seed: SchedulerState, states: seq<System>, steps: seq<Step>, k: nat)
    requires UniqueKeys(c) && Standard(c) && IsRun(c, seed, states, steps) && k < |states|
    ensures Inv(c, seed, states[k])
  {
    if k == 0 {
      SeedCovers(c, seed, states[0].board.Keys);
    } else {
      RunKeepsInv(c, seed, states, steps, k - 1);
      StepKeepsInv(c, seed, states[k - 1], steps[k - 1], states[k]);
    }
  }

  lemma RunStepGrows(c: Config, seed: SchedulerState, states: seq<System>, steps: seq<Step>, k: nat)
    requires UniqueKeys(c) && Standard(c) && IsRun(c, seed, states, steps) && k < |steps|
    ensures states[k].board.Keys <= states[k + 1].board.Keys
  {
    RunKeepsInv(c, seed, states, steps, k);
    StepKeepsInv(c, seed, states[k], steps[k], states[k + 1]);
  }

  lemma {:induction false} KeysOnlyGrow(states: seq<System>, j: nat, k: nat)
    requires j <= k < |states|
    requires forall i | j <= i < k :: states[i].board.Keys <= states[i + 1].board.Keys
    ensures states[j].board.Keys <= states[k].board.Keys
    decreases k
  {
    if j < k {
      KeysOnlyGrow(states, j, k - 1);
    }
  }

  lemma IdsOnlyGrow(c: Config, seed: SchedulerState, states: seq<System>, steps: seq<Step>, j: nat, k: nat)
    requires UniqueKeys(c) && Standard(c) && IsRun(c, seed, states, steps) && j <= k < |states|
    ensures states[j].board.Keys <= states[k].board.Keys
  {
    forall i | j <= i < k ensures states[i].board.Keys <= states[i + 1].board.Keys {
      RunStepGrows(c, seed, states, steps, i);
    }
    KeysOnlyGrow(states, j, k);
  }

  /** A commit puts a task into the table that was not there. */
  predicate Creates(s: System, step: Step, s': System, id: TaskId) {
    step.Commit? && id !in s.board && id in s'.board
  }

  lemma {:induction false} InsertedIsNew(b: L.Board, rs: seq<TaskRecord>, id: TaskId)
    ensures id in Inserted(b, rs) <==> id in L.PutAll(b, rs) && id !in b
    ensures id in b ==> id in L.PutAll(b, rs)
  {
    if rs != [] {
      InsertedIsNew(b, rs[..|rs| - 1], id);
    }
  }

  lemma StepLogs(c: Config, s: System, step: Step, s': System, id: TaskId)
    requires Next(c, s, step, s')
    ensures id in s'.log <==> id in s.log || Creates(s, step, s', id)
  {
    if step.Commit? {
      InsertedIsNew(s.board, s.pending[step.process].tasks, id);
    }
  }

  ghost predicate WasCreated(states: seq<System>, steps: seq<Step>, k: nat, id: TaskId)
    requires k <= |steps| < |states|
  {
    exists j :: 0 <= j < k && Creates(states[j], steps[j], states[j + 1], id)
  }

  lemma CreatedLater(states: seq<System>, steps: seq<Step>, k: nat, id: TaskId)
    requires k < |steps| < |states|
    ensures WasCreated(states, steps, k + 1, id)
       <==> WasCreated(states, steps, k, id) || Creates(states[k], steps[k], states[k + 1], id)
  {
    if j :| 0 <= j < k + 1 && Creates(states[j], steps[j], states[j + 1], id) {
      assert j < k ==> WasCreated(states, steps, k, id);
    }
  }

  ghost predicate LoggedAt(states: seq<System>, steps: seq<Step>, k: nat, id: TaskId) {
    k <= |steps| < |states| && (id in states[k].log <==> WasCreated(states, steps, k, id))
  }

  lemma RunLogs(c: Config, seed: SchedulerState, states: seq<System>, steps: seq<Step>, k: nat, id: TaskId)
    requires IsRun(c, seed, states, steps) && k < |steps|
    ensures LoggedAt(states, steps, k, id) ==> LoggedAt(states, steps, k + 1, id)
  {
    StepLogs(c, states[k], steps[k], states[k + 1], id);
    CreatedLater(states, steps, k, id);
  }

  lemma {:induction false} LoggedFrom(states: seq<System>, steps: seq<Step>, k: nat, id: TaskId)
    requires LoggedAt(states, steps, 0, id)
    requires forall j | 0 <= j < k :: LoggedAt(states, steps, j, id) ==> LoggedAt(states, steps, j + 1, id)
    ensures LoggedAt(states, steps, k, id)
  {
    if k > 0 {
      LoggedFrom(states, steps, k - 1, id);
    }
  }

  /** The log lists exactly the tasks that some commit has created. */
  lemma LogIsWhatWasCreated(c: Config, seed: SchedulerState, states: seq<System>, steps: seq<Step>, k: nat, id: TaskId)
    requires IsRun(c, seed, states, steps) && k <= |steps|
    ensures id in states[k].log <==> WasCreated(states, steps, k, id)
  {
    forall j | 0 <= j < k ensures LoggedAt(states, steps, j, id) ==> LoggedAt(states, steps, j + 1, id) {
      RunLogs(c, seed, states, steps, j, id);
    }
    LoggedFrom(states, steps, k, id);
  }

  /** Each scheduled point of each entry becomes at most one task, whatever the interleaving. */
  lemma EachPointOnce(c: Config, seed: SchedulerState, states: seq<System>, steps: seq<Step>,
                      i: nat, p: Timestamp, a: nat, b: nat)
    requires UniqueKeys(c) && Standard(c) && IsRun(c, seed, states, steps) && i < |c.entries|
    requires a < |states[|steps|].log| && b < |states[|steps|].log|
    requires states[|steps|].log[a] == PointId(c, c.entries[i].key, p) == states[|steps|].log[b]
    ensures a == b
  {
    RunKeepsInv(c, seed, states, steps, |steps|);
  }

  /** Nothing but matching points becomes a task, and its row stays known. */
  lemma OnlyPointsBecomeTasks(c: Config, seed: SchedulerState, states: seq<System>, steps: seq<Step>, id: TaskId)
    requires UniqueKeys(c) && Standard(c) && IsRun(c, seed, states, steps)
    requires id in states[|steps|].log
    ensures IsPointId(c, seed, id) && id in states[|steps|].board
  {
    RunKeepsInv(c, seed, states, steps, |steps|);
  }

  /** Different points of different entries never share an id, so none shadows another. */
  lemma PointsKeepApart(c: Config, seed: SchedulerState, id: TaskId, i: nat, p: Timestamp, j: nat, q: Timestamp)
    requires UniqueKeys(c) && ScheduleIds.NUL !in c.name && i < |c.entries| && j < |c.entries|
    requires IsPointOf(c, seed, id, i, p) && IsPointOf(c, seed, id, j, q)
    ensures i == j && p == q
  {
    WholeSecondOfPoint(p);
    WholeSecondOfPoint(q);
    ScheduleIds.IdsAreInjective(c.name, c.entries[i].key, p, c.name, c.entries[j].key, q);
  }

  /** With a keep-all policy, every matching point up to any state ever persisted has been submitted. */
  lemma KeepAllMissesNothing(c: Config, seed: SchedulerState, states: seq<System>, steps: seq<Step>, k: nat, m: nat,
                             i: nat, p: Timestamp)
    requires UniqueKeys(c) && Standard(c) && IsRun(c, seed, states, steps) && k <= m < |states|
    requires i < |c.entries| && KeepsAll(c.entries[i].schedule.policy)
    requires Aligned(p) && seed.lastRunAt < p <= states[k].stored.lastRunAt && Hit(c, c.entries[i])(p)
    ensures PointId(c, c.entries[i].key, p) in states[m].board
  {
    RunKeepsInv(c, seed, states, steps, k);
    IdsOnlyGrow(c, seed, states, steps, k, m);
    assert CoversEntry(c, seed, states[k].stored, i, states[k].board.Keys);
  }

  /**
   With `OnlyLatest`, every state ever persisted names the latest matching point up to
   its last run, and that point has been submitted.
   */
  lemma OnlyLatestIsLatest(c: Config, seed: SchedulerState, states: seq<System>, steps: seq<Step>, k: nat, m: nat,
                           i: nat, p: Timestamp)
    requires UniqueKeys(c) && Standard(c) && IsRun(c, seed, states, steps) && k <= m < |states|
    requires i < |c.entries| && c.entries[i].schedule.policy.OnlyLatest?
    requires Aligned(p) && seed.lastRunAt < p <= states[k].stored.lastRunAt && Hit(c, c.entries[i])(p)
    ensures var key, stored := c.entries[i].key, states[k].stored;
            && key in stored.lastScheduledAt
            && var latest := stored.lastScheduledAt[key];
               && p <= latest <= stored.lastRunAt && Aligned(latest) && Hit(c, c.entries[i])(latest)
               && PointId(c, key, latest) in states[m].board
  {
    RunKeepsInv(c, seed, states, steps, k);
    IdsOnlyGrow(c, seed, states, steps, k, m);
    var e, stored := c.entries[i], states[k].stored;
    assert CoversEntry(c, seed, stored, i, states[k].board.Keys);
    LatestHitIsLatest(Hit(c, e), seed.lastRunAt, stored.lastRunAt, None);
    LatestHitIsLatest(Hit(c, e), seed.lastRunAt, stored.lastRunAt, Slot(seed.lastScheduledAt, e.key));
  }

  /**
   With `OnlyEarliest`, the earliest matching point up to any state ever persisted has been
   submitted, and the state names a match that has been, too.
   */
  lemma OnlyEarliestIsSubmitted(c: Config, seed: SchedulerState, states: seq<System>, steps: seq<Step>, k: nat, m: nat,
                                i: nat, p: Timestamp)
    requires UniqueKeys(c) && Standard(c) && IsRun(c, seed, states, steps) && k <= m < |states|
    requires i < |c.entries| && c.entries[i].schedule.policy.OnlyEarliest?
    requires IsEarliest(Hit(c, c.entries[i]), seed.lastRunAt, states[k].stored.lastRunAt, p)
    ensures var e, stored := c.entries[i], states[k].stored;
            && PointId(c, e.key, p) in states[m].board
            && e.key in stored.lastScheduledAt
            && var slot := stored.lastScheduledAt[e.key];
               && p <= slot && IsHitIn(Hit(c, e), seed.lastRunAt, stored.lastRunAt, slot)
               && PointId(c, e.key, slot) in states[m].board
  {
    RunKeepsInv(c, seed, states, steps, k);
    IdsOnlyGrow(c, seed, states, steps, k, m);
    assert CoversEntry(c, seed, states[k].stored, i, states[k].board.Keys);
  }

  /** A planned run can be persisted over any state, however new, and is not replanned. */
  lemma PendingCanCommit(c: Config, s: System, process: nat) returns (s': System)
    requires L.Keyed(s.board) && process in s.pending && s.pending[process].Persist?
    ensures Next(c, s, Commit(process), s') && s'.stored == s.pending[process].state && process !in s'.pending
    ensures forall id :: id in s'.board <==> id in s.board || Submits(s.pending[process], id)
  {
    var run := s.pending[process];
    s' := System(run.state, L.PutAll(s.board, run.tasks), s.pending - {process}, s.log + Inserted(s.board, run.tasks));
    L.PutAllKeeps(s.board, run.tasks);
  }

  // ---- first runs ----

  predicate Submits(run: Run, id: TaskId) {
    run.Persist? && id in IdsOf(run.tasks)
  }

  lemma FirstSubmitsItsPoint(c: Config, now: Timestamp, created: Timestamp, i: nat, p: Timestamp)
    requires UniqueKeys(c) && Standard(c) && ScheduleIds.NUL !in c.name && i < |c.entries| && Aligned(p)
    requires Submits(Plan(c, None, now, created), PointId(c, c.entries[i].key, p))
    ensures p == Round(now)
  {
    RoundIsLatestPoint(now);
    assert ListSchedulePoints(None, now) == [Round(now)];
    OnePointOnly(c, Round(now), created, i, p);
  }

  lemma OnePointOnly(c: Config, at: Timestamp, created: Timestamp, i: nat, p: Timestamp)
    requires UniqueKeys(c) && Standard(c) && ScheduleIds.NUL !in c.name && i < |c.entries| && Aligned(p) && Aligned(at)
    requires PointId(c, c.entries[i].key, p) in IdsOf(NewTasks(c, None, [at], created))
    ensures p == at
  {
    var t :| t in NewTasks(c, None, [at], created) && t.info.id == PointId(c, c.entries[i].key, p);
    var j, q := TaskOrigin(c, None, [at], created, t);
    FirstPoints(c, at);
    SamePoint(c, i, p, j, q);
  }

  lemma SamePoint(c: Config, i: nat, p: Timestamp, j: nat, q: Timestamp)
    requires ScheduleIds.NUL !in c.name && i < |c.entries| && j < |c.entries| && Aligned(p) && Aligned(q)
    requires PointId(c, c.entries[i].key, p) == PointId(c, c.entries[j].key, q)
    ensures p == q
  {
    WholeSecondOfPoint(p);
    WholeSecondOfPoint(q);
    ScheduleIds.IdsAreInjective(c.name, c.entries[i].key, p, c.name, c.entries[j].key, q);
  }

  lemma LaterSubmitsLater(c: Config, s: SchedulerState, now: Timestamp, created: Timestamp, i: nat, p: Timestamp)
    requires UniqueKeys(c) && Standard(c) && ScheduleIds.NUL !in c.name && i < |c.entries| && Aligned(p)
    requires Aligned(s.lastRunAt) && Submits(Plan(c, Some(s), now, created), PointId(c, c.entries[i].key, p))
    ensures s.lastRunAt < p
  {
    PlanFrom(c, s, now, created);
    var id := PointId(c, c.entries[i].key, p);
    PlanIsSound(c, s, s, Round(now), created, id);
    var j, q :| 0 <= j < |c.entries| && IsPointOf(c, s, id, j, q);
    SamePoint(c, i, p, j, q);
  }

  /**
   Two processes that both find no state submit nothing for the points between theirs. A
   run from the state of the earlier one makes up for that, one from the later one's never.
   */
  lemma FirstRunsSkip(c: Config, early: Timestamp, late: Timestamp, created: Timestamp, i: nat, p: Timestamp)
    requires UniqueKeys(c) && Standard(c) && ScheduleIds.NUL !in c.name && i < |c.entries|
    requires Aligned(p) && Round(early) < p < Round(late) && Hit(c, c.entries[i])(p)
    ensures var id, first, second := PointId(c, c.entries[i].key, p),
                                     Plan(c, None, early, created), Plan(c, None, late, created);
            && !Submits(first, id) && !Submits(second, id) && first.Persist? && second.Persist?
            && (KeepsAll(c.entries[i].schedule.policy) ==>
                  forall now, at | p <= now :: Submits(Plan(c, Some(first.state), now, at), id))
            && forall now, at :: !Submits(Plan(c, Some(second.state), now, at), id)
  {
    var first, second := Plan(c, None, early, created), Plan(c, None, late, created);
    FirstRun(c, early, created);
    FirstRun(c, late, created);
    RoundIsLatestPoint(early);
    RoundIsLatestPoint(late);
    var id := PointId(c, c.entries[i].key, p);
    if Submits(first, id) {
      FirstSubmitsItsPoint(c, early, created, i, p);
    }
    if Submits(second, id) {
      FirstSubmitsItsPoint(c, late, created, i, p);
    }
    forall now, at ensures !Submits(Plan(c, Some(second.state), now, at), id) {
      if Submits(Plan(c, Some(second.state), now, at), id) {
        LaterSubmitsLater(c, second.state, now, at, i, p);
      }
    }
    if KeepsAll(c.entries[i].schedule.policy) {
      forall now, at | p <= now ensures Submits(Plan(c, Some(first.state), now, at), id) {
        MakesUp(c, first.state, now, at, i, p);
      }
    }
  }

  lemma MakesUp(c: Config, s: SchedulerState, now: Timestamp, created: Timestamp, i: nat, p: Timestamp)
    requires i < |c.entries| && KeepsAll(c.entries[i].schedule.policy) && Hit(c, c.entries[i])(p)
    requires Aligned(s.lastRunAt) && Aligned(p) && s.lastRunAt < p <= now
    ensures Submits(Plan(c, Some(s), now, created), PointId(c, c.entries[i].key, p))
  {
    RoundIsLatestPoint(now);
    PlanFrom(c, s, now, created);
    var points := GridBetween(s.lastRunAt, Round(now));
    GridMembers(s.lastRunAt, Round(now));
    assert p in ScheduledOf(c, Some(s), points, i);
    ScheduledIsSubmitted(c, Some(s), points, created, i, p);
  }
}
