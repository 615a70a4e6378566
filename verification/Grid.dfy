/**
 The schedule-point grid: every scheduler evaluates its entries at multiples of
 five seconds, and each run looks at the points since the last persisted run.
 */
module Grid {
  import opened Tasks

  /** Milliseconds between schedule points. */
  const POINT_INTERVAL: int := 5000

  datatype SchedulerState = SchedulerState(lastRunAt: Timestamp, lastScheduledAt: map<string, Timestamp>)

  /** Snaps a time down to the grid. */
  function Round(ts: Timestamp): Timestamp {
    ts / POINT_INTERVAL * POINT_INTERVAL
  }

  predicate Aligned(ts: Timestamp) {
    ts % POINT_INTERVAL == 0
  }

  /** Every schedule point after the state's last run up to `now`. */
  function ListSchedulePoints(state: Option<SchedulerState>, now: Timestamp): seq<Timestamp> {
    var at := Round(now);
    match state
    case None => [at]
    case Some(s) =>
      if s.lastRunAt >= at then []
      else seq((at - s.lastRunAt) / POINT_INTERVAL, i requires 0 <= i => s.lastRunAt + (i + 1) * POINT_INTERVAL)
  }

  /** The points of one run that starts from `last`. */
  function Window(last: Timestamp, now: Timestamp): seq<Timestamp> {
    ListSchedulePoints(Some(SchedulerState(last, map[])), now)
  }

  lemma StateWindow(s: SchedulerState, now: Timestamp)
    ensures ListSchedulePoints(Some(s), now) == Window(s.lastRunAt, now)
  {
  }

  /** The grid points in `(from, to]`, in order. */
  function GridBetween(from: Timestamp, to: Timestamp): seq<Timestamp>
    decreases to - from
  {
    if to <= from then [] else GridBetween(from, to - POINT_INTERVAL) + [to]
  }

  lemma RoundIsLatestPoint(ts: Timestamp)
    ensures Aligned(Round(ts)) && Round(ts) <= ts < Round(ts) + POINT_INTERVAL
    ensures forall p | Aligned(p) && p <= ts :: p <= Round(ts)
  {
    forall p | Aligned(p) && p <= ts ensures p <= Round(ts) {
      assert p == p / POINT_INTERVAL * POINT_INTERVAL;
    }
  }

  lemma {:induction false} GridBetweenAt(from: Timestamp, to: Timestamp)
    requires Aligned(from) && Aligned(to)
    ensures |GridBetween(from, to)| == if to <= from then 0 else (to - from) / POINT_INTERVAL
    ensures forall i | 0 <= i < |GridBetween(from, to)| ::
              GridBetween(from, to)[i] == from + (i + 1) * POINT_INTERVAL
    decreases if to > from then to - from else 0
  {
    if to > from {
      var steps := to / POINT_INTERVAL - from / POINT_INTERVAL;
      assert to - from == steps * POINT_INTERVAL;
      GridBetweenAt(from, to - POINT_INTERVAL);
    }
  }

  /** From an aligned state, a run looks at exactly the grid points since then. */
  lemma WindowIsGrid(last: Timestamp, now: Timestamp)
    requires Aligned(last)
    ensures Window(last, now) == GridBetween(last, Round(now))
    ensures forall p :: p in Window(last, now) <==> Aligned(p) && last < p <= now
    ensures Window(last, now) != [] ==> Window(last, now)[|Window(last, now)| - 1] == Round(now)
    ensures Window(last, now) == [] <==> Round(now) <= last
  {
    var w, at := Window(last, now), Round(now);
    RoundIsLatestPoint(now);
    GridBetweenAt(last, at);
    forall p ensures p in w <==> Aligned(p) && last < p <= now {
      if Aligned(p) && last < p <= now {
        var i := (p - last) / POINT_INTERVAL - 1;
        assert 0 <= i < |w| && w[i] == p;
      }
    }
  }

  lemma {:induction false} GridConcat(a: Timestamp, b: Timestamp, c: Timestamp)
    requires Aligned(a) && Aligned(b) && Aligned(c) && a <= b <= c
    ensures GridBetween(a, b) + GridBetween(b, c) == GridBetween(a, c)
    decreases if c > b then c - b else 0
  {
    if b < c {
      GridConcat(a, b, c - POINT_INTERVAL);
      assert GridBetween(a, b) + (GridBetween(b, c - POINT_INTERVAL) + [c])
          == (GridBetween(a, b) + GridBetween(b, c - POINT_INTERVAL)) + [c];
    }
  }

  // ---- whole runs of one scheduler ----

  /** One call: the clock reading, and whether persisting (if it came to that) succeeded. */
  datatype Tick = Tick(now: Timestamp, stored: bool)

  function LastAfter(last: Timestamp, ticks: seq<Tick>): Timestamp {
    if ticks == [] then last else
      var before := LastAfter(last, ticks[..|ticks| - 1]);
      var tick := ticks[|ticks| - 1];
      var w := Window(before, tick.now);
      if tick.stored && w != [] then w[|w| - 1] else before
  }

  /** The points of all runs that persisted, in run order. */
  function Covered(last: Timestamp, ticks: seq<Tick>): seq<Timestamp> {
    if ticks == [] then [] else
      var n := |ticks| - 1;
      Covered(last, ticks[..n])
      + if ticks[n].stored then Window(LastAfter(last, ticks[..n]), ticks[n].now) else []
  }

  function LatestReading(last: Timestamp, ticks: seq<Tick>): Timestamp {
    if ticks == [] then last else
      var n := |ticks| - 1;
      var before := LatestReading(last, ticks[..n]);
      if ticks[n].stored && Round(ticks[n].now) > before then Round(ticks[n].now) else before
  }

  /**
   Whatever the clock reads and whichever runs fail, the runs that persisted cover
   every grid point once, in order, up to the latest reading among them.
   */
  lemma {:induction false} WindowsTile(last: Timestamp, ticks: seq<Tick>)
    requires Aligned(last)
    ensures Aligned(LastAfter(last, ticks)) && last <= LastAfter(last, ticks)
    ensures LastAfter(last, ticks) == LatestReading(last, ticks)
    ensures Covered(last, ticks) == GridBetween(last, LastAfter(last, ticks))
  {
    if ticks != [] {
      var n := |ticks| - 1;
      WindowsTile(last, ticks[..n]);
      var before := LastAfter(last, ticks[..n]);
      WindowIsGrid(before, ticks[n].now);
      RoundIsLatestPoint(ticks[n].now);
      if ticks[n].stored && Round(ticks[n].now) > before {
        GridConcat(last, before, Round(ticks[n].now));
      }
    }
  }
}
