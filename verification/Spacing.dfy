/**
 A custom duplication policy is told the point its entry was last scheduled for, so one
 that schedules a single point a run, at least so long after the last, keeps its tasks
 that far apart over any number of runs.
 */
module Spacing {
  import opened Tasks
  import opened Grid
  import opened Schedules
  import opened Planning

  ghost predicate IsSpaced(policy: Policy, gap: nat) {
    policy.Custom? && forall points, last :: IsSpacedChoice(policy.select(points, last), points, last, gap)
  }

  predicate IsSpacedChoice(chosen: seq<Timestamp>, points: seq<Timestamp>, last: Option<Timestamp>, gap: nat) {
    && |chosen| <= 1
    && forall p | p in chosen :: p in points && (last.Some? ==> last.value + gap <= p)
  }

  /** The points a run schedules for an entry; `ScheduledIsSubmitted` and `TaskOrigin` tell its tasks. */
  function PointsOf(c: Config, s: SchedulerState, now: Timestamp, i: nat): seq<Timestamp>
    requires i < |c.entries|
  {
    ScheduledOf(c, Some(s), ListSchedulePoints(Some(s), now), i)
  }

  predicate SlotReaches(s: SchedulerState, key: string, p: Timestamp) {
    key in s.lastScheduledAt && p <= s.lastScheduledAt[key]
  }

  lemma ChoiceIsSlot(chosen: seq<Timestamp>, points: seq<Timestamp>, last: Option<Timestamp>, gap: nat)
    requires IsSpacedChoice(chosen, points, last, gap) && forall p | p in points :: Aligned(p)
    ensures forall p | p in chosen :: NewLast(chosen, last) == Some(p) && (last.Some? ==> last.value + gap <= p)
  {
    forall p | p in chosen ensures NewLast(chosen, last) == Some(p) {
      WholeSecondOfPoint(p);
    }
  }

  /** What an entry's turn makes of its slot. */
  lemma TurnIsSpaced(c: Config, last: Option<Timestamp>, points: seq<Timestamp>, e: ScheduleEntry, gap: nat)
    requires IsSpaced(e.schedule.policy, gap) && forall p | p in points :: Aligned(p)
    ensures var scheduled := Scheduled(c, e, points, last);
            && (forall p | p in scheduled ::
                  NewLast(scheduled, last) == Some(p) && (last.Some? ==> last.value + gap <= p))
            && (scheduled == [] ==> NewLast(scheduled, last) == last)
  {
    var hits := Filter(Hit(c, e), points);
    ChoiceIsSlot(e.schedule.policy.select(hits, last), hits, last, gap);
  }

  lemma PointsAreGrid(s: SchedulerState, now: Timestamp)
    requires Aligned(s.lastRunAt)
    ensures forall p | p in ListSchedulePoints(Some(s), now) :: Aligned(p)
  {
    StateWindow(s, now);
    WindowIsGrid(s.lastRunAt, now);
  }

  lemma SlotAfter(c: Config, s: SchedulerState, now: Timestamp, i: nat)
    requires UniqueKeys(c) && i < |c.entries|
    ensures var key, last := c.entries[i].key, Slot(s.lastScheduledAt, c.entries[i].key);
            var points := ListSchedulePoints(Some(s), now);
            Slot(Apply(c, s, now).lastScheduledAt, key)
            == if points == [] then last else NewLast(PointsOf(c, s, now, i), last)
  {
    LastsAre(c, Some(s), ListSchedulePoints(Some(s), now));
  }

  /** A run's point is the entry's new slot, and comes so long after the old one. */
  lemma RunIsSpaced(c: Config, s: SchedulerState, now: Timestamp, i: nat, gap: nat)
    requires UniqueKeys(c) && Aligned(s.lastRunAt) && i < |c.entries| && IsSpaced(c.entries[i].schedule.policy, gap)
    ensures forall p | p in PointsOf(c, s, now, i) ::
              && SlotReaches(Apply(c, s, now), c.entries[i].key, p)
              && forall q | SlotReaches(s, c.entries[i].key, q) :: q + gap <= p
    ensures forall q | SlotReaches(s, c.entries[i].key, q) :: SlotReaches(Apply(c, s, now), c.entries[i].key, q)
  {
    var e, points := c.entries[i], ListSchedulePoints(Some(s), now);
    PointsAreGrid(s, now);
    SlotAfter(c, s, now, i);
    TurnIsSpaced(c, Slot(s.lastScheduledAt, e.key), points, e, gap);
    var scheduled := PointsOf(c, s, now, i);
    if scheduled != [] {
      assert scheduled[0] in scheduled;
    }
  }

  lemma OneMoreReading(c: Config, s: SchedulerState, readings: seq<Timestamp>, k: nat)
    requires k < |readings| && Aligned(s.lastRunAt)
    ensures Aligned(ApplyAll(c, s, readings[..k]).lastRunAt)
    ensures ApplyAll(c, s, readings[..k + 1]) == Apply(c, ApplyAll(c, s, readings[..k]), readings[k])
  {
    ApplyAllAligned(c, s, readings[..k]);
    assert readings[..k + 1][..k] == readings[..k];
  }

  predicate ReachesAt(c: Config, s: SchedulerState, readings: seq<Timestamp>, key: string, p: Timestamp, k: nat) {
    k <= |readings| && SlotReaches(ApplyAll(c, s, readings[..k]), key, p)
  }

  lemma ReachesNext(c: Config, s: SchedulerState, readings: seq<Timestamp>, i: nat, gap: nat, p: Timestamp, k: nat)
    requires UniqueKeys(c) && Aligned(s.lastRunAt) && i < |c.entries| && IsSpaced(c.entries[i].schedule.policy, gap)
    requires k < |readings|
    ensures ReachesAt(c, s, readings, c.entries[i].key, p, k) ==> ReachesAt(c, s, readings, c.entries[i].key, p, k + 1)
  {
    OneMoreReading(c, s, readings, k);
    RunIsSpaced(c, ApplyAll(c, s, readings[..k]), readings[k], i, gap);
  }

  lemma {:induction false} ReachesFrom(c: Config, s: SchedulerState, readings: seq<Timestamp>, key: string,
                                       p: Timestamp, k: nat, m: nat)
    requires k <= m && ReachesAt(c, s, readings, key, p, k)
    requires forall j | k <= j < m :: ReachesAt(c, s, readings, key, p, j) ==> ReachesAt(c, s, readings, key, p, j + 1)
    ensures ReachesAt(c, s, readings, key, p, m)
    decreases m
  {
    if k < m {
      ReachesFrom(c, s, readings, key, p, k, m - 1);
    }
  }

  /** Whatever the clock readings, the points of two runs are so far apart. */
  lemma PointsAreApart(c: Config, s: SchedulerState, readings: seq<Timestamp>, i: nat, gap: nat,
                       a: nat, p: Timestamp, b: nat, q: Timestamp)
    requires UniqueKeys(c) && Aligned(s.lastRunAt) && i < |c.entries| && IsSpaced(c.entries[i].schedule.policy, gap)
    requires a < b < |readings|
    requires p in PointsOf(c, ApplyAll(c, s, readings[..a]), readings[a], i)
    requires q in PointsOf(c, ApplyAll(c, s, readings[..b]), readings[b], i)
    ensures p + gap <= q
  {
    OneMoreReading(c, s, readings, a);
    RunIsSpaced(c, ApplyAll(c, s, readings[..a]), readings[a], i, gap);
    forall k | a + 1 <= k < b
      ensures ReachesAt(c, s, readings, c.entries[i].key, p, k) ==>
                ReachesAt(c, s, readings, c.entries[i].key, p, k + 1)
    {
      ReachesNext(c, s, readings, i, gap, p, k);
    }
    ReachesFrom(c, s, readings, c.entries[i].key, p, a + 1, b);
    OneMoreReading(c, s, readings, b);
    RunIsSpaced(c, ApplyAll(c, s, readings[..b]), readings[b], i, gap);
  }
}
