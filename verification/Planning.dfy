/** What one scheduler run decides: the state to persist and the tasks to submit. */
module Planning {
  import opened Tasks
  import opened Grid
  import opened Schedules
  import opened ScheduleIds

  /** Seven days. */
  const DEFAULT_TASK_TTL: nat := 604_800_000

  datatype ScheduleEntry = ScheduleEntry(
    key: string,
    schedule: RegularSchedule,
    group: Group,
    name: string,
    data: Bytes,
    resultTtl: Option<nat>
  )

  datatype Config = Config(
    name: string,
    entries: seq<ScheduleEntry>,
    tz: Option<int>,
    localTz: int,
    calendar: Calendar
  )

  datatype Run = Skip | Persist(state: SchedulerState, tasks: seq<TaskRecord>)

  predicate UniqueKeys(c: Config) {
    forall i, j | 0 <= i < j < |c.entries| :: c.entries[i].key != c.entries[j].key
  }

  /** The entry's own zone, else the scheduler's, else the local one. */
  function Zone(c: Config, e: ScheduleEntry): int {
    match e.schedule.tz
    case Some(tz) => tz
    case None => match c.tz case Some(tz) => tz case None => c.localTz
  }

  function Hit(c: Config, e: ScheduleEntry): Timestamp -> bool {
    p => Matches(e.schedule, c.calendar, Zone(c, e), p)
  }

  function Slot(lasts: map<string, Timestamp>, key: string): Option<Timestamp> {
    if key in lasts then Some(lasts[key]) else None
  }

  function LastOf(state: Option<SchedulerState>, key: string): Option<Timestamp> {
    match state case None => None case Some(s) => Slot(s.lastScheduledAt, key)
  }

  function Scheduled(c: Config, e: ScheduleEntry, points: seq<Timestamp>, last: Option<Timestamp>): seq<Timestamp> {
    Select(e.schedule.policy, Filter(Hit(c, e), points), last)
  }

  /** Converting a point to a date and back keeps whole seconds only. */
  function WholeSecond(t: Timestamp): Timestamp {
    t / 1000 * 1000
  }

  function PointId(c: Config, key: string, p: Timestamp): TaskId {
    ForSchedulePoint(c.name, key, WholeSecond(p))
  }

  function TaskFor(c: Config, e: ScheduleEntry, p: Timestamp, created: Timestamp): TaskRecord {
    var at := WholeSecond(p);
    var ttl := match e.resultTtl case Some(ttl) => ttl case None => DEFAULT_TASK_TTL;
    TaskRecord(TaskInfo(PointId(c, e.key, p), e.group, e.name, at, created, Some(at), 0, ttl), e.data)
  }

  /** The tasks of one entry, one per scheduled point. */
  function TasksAt(c: Config, e: ScheduleEntry, scheduled: seq<Timestamp>, created: Timestamp): (ts: seq<TaskRecord>)
    ensures |ts| == |scheduled| && forall i | 0 <= i < |ts| :: ts[i] == TaskFor(c, e, scheduled[i], created)
  {
    seq(|scheduled|, i requires 0 <= i < |scheduled| => TaskFor(c, e, scheduled[i], created))
  }

  function ScheduledOf(c: Config, state: Option<SchedulerState>, points: seq<Timestamp>, i: nat): seq<Timestamp>
    requires i < |c.entries|
  {
    Scheduled(c, c.entries[i], points, LastOf(state, c.entries[i].key))
  }

  /** What an entry contributes to the new state: its last point this time, else its previous one. */
  function NewLast(scheduled: seq<Timestamp>, last: Option<Timestamp>): Option<Timestamp> {
    if scheduled == [] then last else Some(WholeSecond(scheduled[|scheduled| - 1]))
  }

  function NewSlot(c: Config, state: Option<SchedulerState>, points: seq<Timestamp>, i: nat): Option<Timestamp>
    requires i < |c.entries|
  {
    NewLast(ScheduledOf(c, state, points, i), LastOf(state, c.entries[i].key))
  }

  function Record(m: map<string, Timestamp>, key: string, last: Option<Timestamp>): map<string, Timestamp> {
    match last case Some(t) => m[key := t] case None => m
  }

  /** The slots of all entries, recorded under their keys in entry order. */
  function RecordAll(entries: seq<ScheduleEntry>, slots: seq<Option<Timestamp>>): map<string, Timestamp>
    requires |entries| == |slots|
  {
    if entries == [] then map[]
    else
      var n := |entries| - 1;
      Record(RecordAll(entries[..n], slots[..n]), entries[n].key, slots[n])
  }

  function Flatten(batches: seq<seq<TaskRecord>>): seq<TaskRecord> {
    if batches == [] then [] else Flatten(batches[..|batches| - 1]) + batches[|batches| - 1]
  }

  function NewSlots(c: Config, state: Option<SchedulerState>, points: seq<Timestamp>): (slots: seq<Option<Timestamp>>)
    ensures |slots| == |c.entries|
    ensures forall i | 0 <= i < |slots| :: slots[i] == NewSlot(c, state, points, i)
  {
    seq(|c.entries|, i requires 0 <= i < |c.entries| => NewSlot(c, state, points, i))
  }

  function Batches(c: Config, state: Option<SchedulerState>, points: seq<Timestamp>, created: Timestamp)
    : (batches: seq<seq<TaskRecord>>)
    ensures |batches| == |c.entries|
    ensures forall i | 0 <= i < |batches| ::
              batches[i] == TasksAt(c, c.entries[i], ScheduledOf(c, state, points, i), created)
  {
    seq(|c.entries|, i requires 0 <= i < |c.entries| =>
      TasksAt(c, c.entries[i], ScheduledOf(c, state, points, i), created))
  }

  function NewLasts(c: Config, state: Option<SchedulerState>, points: seq<Timestamp>): map<string, Timestamp> {
    RecordAll(c.entries, NewSlots(c, state, points))
  }

  function NewTasks(c: Config, state: Option<SchedulerState>, points: seq<Timestamp>, created: Timestamp)
    : seq<TaskRecord>
  {
    Flatten(Batches(c, state, points, created))
  }

  function Plan(c: Config, state: Option<SchedulerState>, now: Timestamp, created: Timestamp): Run {
    var points := ListSchedulePoints(state, now);
    if points == [] then Skip
    else Persist(SchedulerState(points[|points| - 1], NewLasts(c, state, points)), NewTasks(c, state, points, created))
  }

  predicate IsEntryKey(entries: seq<ScheduleEntry>, key: string) {
    exists i :: 0 <= i < |entries| && entries[i].key == key
  }

  lemma {:induction false} RecordAllAre(entries: seq<ScheduleEntry>, slots: seq<Option<Timestamp>>)
    requires |entries| == |slots|
    requires forall i, j | 0 <= i < j < |entries| :: entries[i].key != entries[j].key
    ensures forall i | 0 <= i < |entries| :: Slot(RecordAll(entries, slots), entries[i].key) == slots[i]
    ensures forall key | key in RecordAll(entries, slots) :: IsEntryKey(entries, key)
  {
    if entries != [] {
      var n := |entries| - 1;
      RecordAllAre(entries[..n], slots[..n]);
      var before, after := RecordAll(entries[..n], slots[..n]), RecordAll(entries, slots);
      assert entries[n].key !in before;
      forall i | 0 <= i < n ensures Slot(after, entries[i].key) == slots[i] {
        assert Slot(before, entries[..n][i].key) == slots[..n][i];
      }
      forall key | key in after ensures IsEntryKey(entries, key) {
        if key in before {
          var i :| 0 <= i < n && entries[..n][i].key == key;
        }
      }
    }
  }

  /** The new state holds one slot per entry and nothing else. */
  lemma LastsAre(c: Config, state: Option<SchedulerState>, points: seq<Timestamp>)
    requires UniqueKeys(c)
    ensures forall i | 0 <= i < |c.entries| ::
              Slot(NewLasts(c, state, points), c.entries[i].key) == NewSlot(c, state, points, i)
    ensures forall key | key in NewLasts(c, state, points) :: IsEntryKey(c.entries, key)
  {
    RecordAllAre(c.entries, NewSlots(c, state, points));
  }

  lemma {:induction false} FlattenMembers(batches: seq<seq<TaskRecord>>)
    ensures forall t :: t in Flatten(batches) <==> exists i :: 0 <= i < |batches| && t in batches[i]
  {
    if batches != [] {
      FlattenMembers(batches[..|batches| - 1]);
    }
  }

  /** A task is submitted for each scheduled point of each entry. */
  lemma ScheduledIsSubmitted(c: Config, state: Option<SchedulerState>, points: seq<Timestamp>, created: Timestamp,
                             i: nat, p: Timestamp)
    requires i < |c.entries| && p in ScheduledOf(c, state, points, i)
    ensures TaskFor(c, c.entries[i], p, created) in NewTasks(c, state, points, created)
  {
    var batches := Batches(c, state, points, created);
    FlattenMembers(batches);
    var k :| 0 <= k < |ScheduledOf(c, state, points, i)| && ScheduledOf(c, state, points, i)[k] == p;
    assert batches[i][k] == TaskFor(c, c.entries[i], p, created);
  }

  /** Every submitted task comes from a scheduled point of an entry. */
  lemma TaskOrigin(c: Config, state: Option<SchedulerState>, points: seq<Timestamp>, created: Timestamp, t: TaskRecord)
    returns (i: nat, p: Timestamp)
    requires t in NewTasks(c, state, points, created)
    ensures i < |c.entries| && p in ScheduledOf(c, state, points, i) && t == TaskFor(c, c.entries[i], p, created)
  {
    var batches := Batches(c, state, points, created);
    FlattenMembers(batches);
    i :| 0 <= i < |batches| && t in batches[i];
    var k :| 0 <= k < |batches[i]| && batches[i][k] == t;
    p := ScheduledOf(c, state, points, i)[k];
  }

  // ---- the latest match ----

  /** The latest hit in `(from, to]`, or `otherwise` when there is none. */
  function LatestHit(hit: Timestamp -> bool, from: Timestamp, to: Timestamp,
                     otherwise: Option<Timestamp>): Option<Timestamp> {
    var hits := Filter(hit, GridBetween(from, to));
    if hits == [] then otherwise else Some(hits[|hits| - 1])
  }

  /** Looking at a range in two pieces finds the same latest hit as looking at it at once. */
  lemma LatestHitComposes(hit: Timestamp -> bool, a: Timestamp, b: Timestamp, c: Timestamp,
                          otherwise: Option<Timestamp>)
    requires Aligned(a) && Aligned(b) && Aligned(c) && a <= b <= c
    ensures LatestHit(hit, b, c, LatestHit(hit, a, b, otherwise)) == LatestHit(hit, a, c, otherwise)
  {
    GridConcat(a, b, c);
    FilterConcat(hit, GridBetween(a, b), GridBetween(b, c));
  }

  lemma GridMembers(from: Timestamp, to: Timestamp)
    requires Aligned(from) && Aligned(to)
    ensures forall p :: p in GridBetween(from, to) <==> Aligned(p) && from < p <= to
  {
    WindowIsGrid(from, to);
    RoundIsLatestPoint(to);
  }

  lemma {:induction false} FilterLast(hit: Timestamp -> bool, points: seq<Timestamp>)
    requires forall i, j | 0 <= i < j < |points| :: points[i] <= points[j]
    ensures var hits := Filter(hit, points); hits != [] ==> forall q | q in hits :: q <= hits[|hits| - 1]
  {
    if points != [] {
      var n := |points| - 1;
      var before := Filter(hit, points[..n]);
      FilterLast(hit, points[..n]);
      if hit(points[n]) {
        assert Filter(hit, points) == before + [points[n]];
        forall q | q in before + [points[n]] ensures q <= points[n] {
          assert q in Filter(hit, points) && q in points;
        }
      } else {
        assert Filter(hit, points) == before;
      }
    }
  }

  lemma FilterKeepsOrder(hit: Timestamp -> bool, from: Timestamp, to: Timestamp)
    requires Aligned(from) && Aligned(to)
    ensures var hits := Filter(hit, GridBetween(from, to));
            hits != [] ==> forall q | q in hits :: q <= hits[|hits| - 1]
  {
    GridAscends(from, to);
    FilterLast(hit, GridBetween(from, to));
  }

  lemma GridAscends(from: Timestamp, to: Timestamp)
    requires Aligned(from) && Aligned(to)
    ensures forall i, j | 0 <= i < j < |GridBetween(from, to)| :: GridBetween(from, to)[i] <= GridBetween(from, to)[j]
  {
    GridBetweenAt(from, to);
  }

  /** `LatestHit` is the latest matching grid point of the range. */
  lemma LatestHitIsLatest(hit: Timestamp -> bool, from: Timestamp, to: Timestamp, otherwise: Option<Timestamp>)
    requires Aligned(from) && Aligned(to)
    ensures (forall q | Aligned(q) && from < q <= to :: !hit(q)) ==> LatestHit(hit, from, to, otherwise) == otherwise
    ensures forall q | Aligned(q) && from < q <= to && hit(q) ::
              var best := LatestHit(hit, from, to, otherwise);
              best.Some? && Aligned(best.value) && q <= best.value <= to && hit(best.value)
  {
    GridMembers(from, to);
    FilterKeepsOrder(hit, from, to);
    var hits := Filter(hit, GridBetween(from, to));
    if hits != [] {
      assert hits[|hits| - 1] in hits;
    }
  }

  lemma WholeSecondOfPoint(p: Timestamp)
    requires Aligned(p)
    ensures WholeSecond(p) == p
  {
    AlignedSecond(p, 0);
  }

  /** From an aligned state, a run plans for exactly the grid points since then. */
  lemma PlanFrom(c: Config, s: SchedulerState, now: Timestamp, created: Timestamp)
    requires Aligned(s.lastRunAt)
    ensures Aligned(Round(now))
    ensures Plan(c, Some(s), now, created)
         == if Round(now) <= s.lastRunAt then Skip else
              var points := GridBetween(s.lastRunAt, Round(now));
              Persist(SchedulerState(Round(now), NewLasts(c, Some(s), points)),
                      NewTasks(c, Some(s), points, created))
  {
    StateWindow(s, now);
    WindowIsGrid(s.lastRunAt, now);
    RoundIsLatestPoint(now);
  }

  lemma LatestOfHits(hit: Timestamp -> bool, from: Timestamp, to: Timestamp, last: Option<Timestamp>)
    requires Aligned(from) && Aligned(to)
    ensures NewLast(Select(OnlyLatest, Filter(hit, GridBetween(from, to)), last), last)
         == LatestHit(hit, from, to, last)
  {
    var hits := Filter(hit, GridBetween(from, to));
    if hits != [] {
      GridMembers(from, to);
      assert hits[|hits| - 1] in hits;
      WholeSecondOfPoint(hits[|hits| - 1]);
    }
  }

  /** An `OnlyLatest` entry's slot moves to the latest hit since the last run. */
  lemma OnlyLatestSlot(c: Config, s: SchedulerState, to: Timestamp, i: nat)
    requires UniqueKeys(c) && i < |c.entries| && c.entries[i].schedule.policy.OnlyLatest?
    requires Aligned(s.lastRunAt) && Aligned(to)
    ensures Slot(NewLasts(c, Some(s), GridBetween(s.lastRunAt, to)), c.entries[i].key)
         == LatestHit(Hit(c, c.entries[i]), s.lastRunAt, to, Slot(s.lastScheduledAt, c.entries[i].key))
  {
    LastsAre(c, Some(s), GridBetween(s.lastRunAt, to));
    LatestOfHits(Hit(c, c.entries[i]), s.lastRunAt, to, Slot(s.lastScheduledAt, c.entries[i].key));
  }

  /** The earliest match in `(from, to]`. */
  ghost predicate IsEarliest(hit: Timestamp -> bool, from: Timestamp, to: Timestamp, p: Timestamp) {
    && Aligned(p) && from < p <= to && hit(p)
    && forall q | Aligned(q) && from < q <= to && hit(q) :: p <= q
  }

  ghost predicate IsLatest(hit: Timestamp -> bool, from: Timestamp, to: Timestamp, p: Timestamp) {
    && Aligned(p) && from < p <= to && hit(p)
    && forall q | Aligned(q) && from < q <= to && hit(q) :: q <= p
  }

  lemma {:induction false} FilterFirst(hit: Timestamp -> bool, points: seq<Timestamp>)
    requires forall i, j | 0 <= i < j < |points| :: points[i] <= points[j]
    ensures var hits := Filter(hit, points); hits != [] ==> forall q | q in hits :: hits[0] <= q
  {
    if points != [] {
      var n := |points| - 1;
      var before := Filter(hit, points[..n]);
      FilterFirst(hit, points[..n]);
      assert Filter(hit, points) == before + if hit(points[n]) then [points[n]] else [];
      if before != [] {
        assert before[0] in before;
      }
    }
  }

  lemma FirstHitIsEarliest(hit: Timestamp -> bool, from: Timestamp, to: Timestamp)
    requires Aligned(from) && Aligned(to)
    ensures var hits := Filter(hit, GridBetween(from, to));
            && (hits == [] <==> forall q | Aligned(q) && from < q <= to :: !hit(q))
            && (hits != [] ==> IsEarliest(hit, from, to, hits[0]))
  {
    var hits := Filter(hit, GridBetween(from, to));
    GridMembers(from, to);
    GridAscends(from, to);
    FilterFirst(hit, GridBetween(from, to));
    if hits != [] {
      assert hits[0] in hits;
    }
  }

  lemma OneEarliest(hit: Timestamp -> bool, from: Timestamp, to: Timestamp, p: Timestamp, q: Timestamp)
    requires IsEarliest(hit, from, to, p) && IsEarliest(hit, from, to, q)
    ensures p == q
  {
  }

  /** What `OnlyEarliest` keeps of the matches in a range: the earliest, if there is any. */
  lemma EarliestIsKept(hit: Timestamp -> bool, from: Timestamp, to: Timestamp, last: Option<Timestamp>)
    requires Aligned(from) && Aligned(to)
    ensures var kept := Select(OnlyEarliest, Filter(hit, GridBetween(from, to)), last);
            && |kept| <= 1 && (forall p :: p in kept <==> IsEarliest(hit, from, to, p))
            && (kept == [] <==> forall q | Aligned(q) && from < q <= to :: !hit(q))
  {
    var hits := Filter(hit, GridBetween(from, to));
    FirstHitIsEarliest(hit, from, to);
    forall p | IsEarliest(hit, from, to, p) ensures hits != [] && p == hits[0] {
      OneEarliest(hit, from, to, p, hits[0]);
    }
  }

  /** And what `OnlyLatest` keeps: the latest. */
  lemma LatestIsKept(hit: Timestamp -> bool, from: Timestamp, to: Timestamp, last: Option<Timestamp>)
    requires Aligned(from) && Aligned(to)
    ensures var kept := Select(OnlyLatest, Filter(hit, GridBetween(from, to)), last);
            && |kept| <= 1 && (forall p :: p in kept <==> IsLatest(hit, from, to, p))
            && (kept == [] <==> forall q | Aligned(q) && from < q <= to :: !hit(q))
  {
    var hits := Filter(hit, GridBetween(from, to));
    GridMembers(from, to);
    FilterKeepsOrder(hit, from, to);
    if hits != [] {
      assert hits[|hits| - 1] in hits && IsLatest(hit, from, to, hits[|hits| - 1]);
    }
  }

  /**
   From an aligned state, an `OnlyEarliest` entry schedules its earliest match since the
   last run, if there is one, and nothing else; its slot moves to that point.
   */
  lemma OnlyEarliestSchedules(c: Config, s: SchedulerState, to: Timestamp, i: nat)
    requires UniqueKeys(c) && i < |c.entries| && c.entries[i].schedule.policy.OnlyEarliest?
    requires Aligned(s.lastRunAt) && Aligned(to)
    ensures var e, points := c.entries[i], GridBetween(s.lastRunAt, to);
            && (forall p :: p in ScheduledOf(c, Some(s), points, i) <==> IsEarliest(Hit(c, e), s.lastRunAt, to, p))
            && (forall p | IsEarliest(Hit(c, e), s.lastRunAt, to, p) ::
                  Slot(NewLasts(c, Some(s), points), e.key) == Some(p))
            && ((forall q | Aligned(q) && s.lastRunAt < q <= to :: !Hit(c, e)(q)) ==>
                  Slot(NewLasts(c, Some(s), points), e.key) == Slot(s.lastScheduledAt, e.key))
  {
    var e, points := c.entries[i], GridBetween(s.lastRunAt, to);
    EarliestIsKept(Hit(c, e), s.lastRunAt, to, LastOf(Some(s), e.key));
    LastsAre(c, Some(s), points);
    var scheduled := ScheduledOf(c, Some(s), points, i);
    if scheduled != [] {
      assert scheduled[0] in scheduled;
      WholeSecondOfPoint(scheduled[0]);
    }
  }

  // ---- the first run ----

  /** Policies that pick among the points they are given. */
  ghost predicate Standard(c: Config) {
    forall i | 0 <= i < |c.entries| ::
      var policy := c.entries[i].schedule.policy;
      policy.OnlyEarliest? || policy.OnlyLatest? || KeepsAll(policy)
  }

  ghost predicate KeepsAll(policy: Policy) {
    policy.Custom? && forall points, last :: policy.select(points, last) == points
  }

  lemma OnePointFilter(hit: Timestamp -> bool, p: Timestamp)
    ensures Filter(hit, [p]) == if hit(p) then [p] else []
  {
    assert [p][..0] == [];
    assert Filter(hit, []) == [];
  }

  /**
   Without a stored state a run always persists one, whose last run is the latest grid
   point not after the clock reading; it submits a task for exactly the entries that
   match that point, and records it in their slots.
   */
  lemma FirstRun(c: Config, now: Timestamp, created: Timestamp)
    requires UniqueKeys(c) && Standard(c)
    ensures var run := Plan(c, None, now, created);
            && run.Persist? && Aligned(run.state.lastRunAt) && run.state.lastRunAt <= now
            && (forall q | Aligned(q) && q <= now :: q <= run.state.lastRunAt)
            && (forall i | 0 <= i < |c.entries| ::
                  Slot(run.state.lastScheduledAt, c.entries[i].key)
                  == if Hit(c, c.entries[i])(run.state.lastRunAt) then Some(run.state.lastRunAt) else None)
            && (forall t :: t in run.tasks <==>
                  exists i :: 0 <= i < |c.entries| && Hit(c, c.entries[i])(run.state.lastRunAt)
                           && t == TaskFor(c, c.entries[i], run.state.lastRunAt, created))
  {
    var run, p := Plan(c, None, now, created), Round(now);
    RoundIsLatestPoint(now);
    FirstPoints(c, p);
    forall t ensures t in run.tasks <==> exists i :: 0 <= i < |c.entries| && Hit(c, c.entries[i])(p)
                                                  && t == TaskFor(c, c.entries[i], p, created)
    {
      FirstTasks(c, p, created, t);
    }
  }

  lemma FirstPoints(c: Config, p: Timestamp)
    requires UniqueKeys(c) && Standard(c) && Aligned(p)
    ensures forall i | 0 <= i < |c.entries| ::
              && ScheduledOf(c, None, [p], i) == (if Hit(c, c.entries[i])(p) then [p] else [])
              && Slot(NewLasts(c, None, [p]), c.entries[i].key) == if Hit(c, c.entries[i])(p) then Some(p) else None
  {
    LastsAre(c, None, [p]);
    WholeSecondOfPoint(p);
    forall i | 0 <= i < |c.entries|
      ensures ScheduledOf(c, None, [p], i) == if Hit(c, c.entries[i])(p) then [p] else []
    {
      OnePointFilter(Hit(c, c.entries[i]), p);
    }
  }

  lemma FirstTasks(c: Config, p: Timestamp, created: Timestamp, t: TaskRecord)
    requires forall i | 0 <= i < |c.entries| ::
               ScheduledOf(c, None, [p], i) == if Hit(c, c.entries[i])(p) then [p] else []
    ensures t in NewTasks(c, None, [p], created) <==>
              exists i :: 0 <= i < |c.entries| && Hit(c, c.entries[i])(p) && t == TaskFor(c, c.entries[i], p, created)
  {
    if t in NewTasks(c, None, [p], created) {
      var i, q := TaskOrigin(c, None, [p], created, t);
      assert q == p;
    }
    if i: nat :| i < |c.entries| && Hit(c, c.entries[i])(p) && t == TaskFor(c, c.entries[i], p, created) {
      ScheduledIsSubmitted(c, None, [p], created, i, p);
    }
  }

  // ---- whose zone ----

  function InZone(e: ScheduleEntry, tz: int): ScheduleEntry {
    e.(schedule := e.schedule.(tz := Some(tz)))
  }

  /**
   An entry's own zone decides whatever the others are; without one the scheduler's does,
   and without that the local one.
   */
  lemma ZoneOfEntry(c: Config, d: Config, e: ScheduleEntry, p: Timestamp)
    requires c.calendar == d.calendar
    ensures e.schedule.tz.Some? ==> Hit(c, e)(p) == Hit(d, e)(p)
    ensures e.schedule.tz.None? && c.tz.Some? ==> Hit(c, e)(p) == Hit(d, InZone(e, c.tz.value))(p)
    ensures e.schedule.tz.None? && c.tz.None? ==> Hit(c, e)(p) == Hit(d, InZone(e, c.localTz))(p)
  {
  }

  // ---- cadence ----

  function Apply(c: Config, s: SchedulerState, now: Timestamp): SchedulerState {
    match Plan(c, Some(s), now, now)
    case Skip => s
    case Persist(s', _) => s'
  }

  function ApplyAll(c: Config, s: SchedulerState, readings: seq<Timestamp>): SchedulerState {
    if readings == [] then s else Apply(c, ApplyAll(c, s, readings[..|readings| - 1]), readings[|readings| - 1])
  }

  predicate AllOnlyLatest(c: Config) {
    forall i | 0 <= i < |c.entries| :: c.entries[i].schedule.policy.OnlyLatest?
  }

  lemma SlotsDetermine(c: Config, a: map<string, Timestamp>, b: map<string, Timestamp>)
    requires forall key | key in a || key in b :: IsEntryKey(c.entries, key)
    requires forall i | 0 <= i < |c.entries| :: Slot(a, c.entries[i].key) == Slot(b, c.entries[i].key)
    ensures a == b
  {
    forall key | key in a || key in b ensures key in a && key in b && a[key] == b[key] {
      var i :| 0 <= i < |c.entries| && c.entries[i].key == key;
      assert Slot(a, c.entries[i].key) == Slot(b, c.entries[i].key);
    }
  }

  /** The slots of two successive windows are those of the joint window. */
  lemma WindowsCompose(c: Config, s: SchedulerState, mid: Timestamp, to: Timestamp)
    requires UniqueKeys(c) && AllOnlyLatest(c)
    requires Aligned(s.lastRunAt) && Aligned(mid) && Aligned(to) && s.lastRunAt <= mid <= to
    ensures var n := |c.entries|;
            var s1 := SchedulerState(mid, NewLasts(c, Some(s), GridBetween(s.lastRunAt, mid)));
            NewLasts(c, Some(s1), GridBetween(mid, to)) == NewLasts(c, Some(s), GridBetween(s.lastRunAt, to))
  {
    var n := |c.entries|;
    var s1 := SchedulerState(mid, NewLasts(c, Some(s), GridBetween(s.lastRunAt, mid)));
    var twice := NewLasts(c, Some(s1), GridBetween(mid, to));
    var once := NewLasts(c, Some(s), GridBetween(s.lastRunAt, to));
    forall i | 0 <= i < n ensures Slot(twice, c.entries[i].key) == Slot(once, c.entries[i].key) {
      OnlyLatestSlot(c, s, mid, i);
      OnlyLatestSlot(c, s1, to, i);
      OnlyLatestSlot(c, s, to, i);
      LatestHitComposes(Hit(c, c.entries[i]), s.lastRunAt, mid, to, Slot(s.lastScheduledAt, c.entries[i].key));
    }
    LastsAre(c, Some(s1), GridBetween(mid, to));
    LastsAre(c, Some(s), GridBetween(s.lastRunAt, to));
    SlotsDetermine(c, twice, once);
  }

  /** The state after a run that looked at everything up to the point `to`. */
  function Advanced(c: Config, s: SchedulerState, to: Timestamp): SchedulerState {
    SchedulerState(to, NewLasts(c, Some(s), GridBetween(s.lastRunAt, to)))
  }

  /** What a run leaves of an aligned state. */
  lemma ApplyIs(c: Config, s: SchedulerState, now: Timestamp)
    requires Aligned(s.lastRunAt)
    ensures Aligned(Round(now))
    ensures Apply(c, s, now) == if Round(now) <= s.lastRunAt then s else Advanced(c, s, Round(now))
  {
    PlanFrom(c, s, now, now);
  }

  lemma AdvancedTwice(c: Config, s: SchedulerState, mid: Timestamp, to: Timestamp)
    requires UniqueKeys(c) && AllOnlyLatest(c)
    requires Aligned(s.lastRunAt) && Aligned(mid) && Aligned(to) && s.lastRunAt <= mid <= to
    ensures Advanced(c, Advanced(c, s, mid), to) == Advanced(c, s, to)
  {
    WindowsCompose(c, s, mid, to);
  }

  /** Two runs at successive readings leave what one run at the later reading leaves. */
  lemma TwoRunsAreOne(c: Config, s: SchedulerState, first: Timestamp, second: Timestamp)
    requires UniqueKeys(c) && AllOnlyLatest(c) && Aligned(s.lastRunAt) && first <= second
    ensures Apply(c, Apply(c, s, first), second) == Apply(c, s, second)
  {
    RoundIsLatestPoint(first);
    RoundIsLatestPoint(second);
    ApplyIs(c, s, first);
    ApplyIs(c, s, second);
    if Round(first) > s.lastRunAt {
      var mid := Advanced(c, s, Round(first));
      ApplyIs(c, mid, second);
      if Round(first) < Round(second) {
        AdvancedTwice(c, s, Round(first), Round(second));
      }
    }
  }

  lemma {:induction false} ApplyAllAligned(c: Config, s: SchedulerState, readings: seq<Timestamp>)
    requires Aligned(s.lastRunAt)
    ensures Aligned(ApplyAll(c, s, readings).lastRunAt)
  {
    if readings != [] {
      var n := |readings| - 1;
      ApplyAllAligned(c, s, readings[..n]);
      PlanFrom(c, ApplyAll(c, s, readings[..n]), readings[n], readings[n]);
    }
  }

  /** With `OnlyLatest` entries, how often the scheduler runs does not matter: only the last reading does. */
  lemma {:induction false} CadenceIndependent(c: Config, s: SchedulerState, readings: seq<Timestamp>)
    requires UniqueKeys(c) && AllOnlyLatest(c) && Aligned(s.lastRunAt)
    requires readings != [] && forall i, j | 0 <= i < j < |readings| :: readings[i] <= readings[j]
    ensures ApplyAll(c, s, readings) == Apply(c, s, readings[|readings| - 1])
  {
    var n := |readings| - 1;
    if n == 0 {
      assert readings[..n] == [];
    } else {
      CadenceIndependent(c, s, readings[..n]);
      TwoRunsAreOne(c, s, readings[n - 1], readings[n]);
    }
  }
}
