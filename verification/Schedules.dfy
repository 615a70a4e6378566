/** Schedule fields, the wall-clock filter of a regular schedule, and duplication policies. */
module Schedules {
  import opened Tasks
  import opened Grid

  // ---- fields ----

  datatype FieldRange = FieldRange(min: nat, max: nat, step: nat)

  const SECONDS := FieldRange(0, 59, 5)
  const MINUTES := FieldRange(0, 59, 1)
  const HOURS := FieldRange(0, 23, 1)
  const DAYS := FieldRange(1, 31, 1)
  const WEEKDAYS := FieldRange(0, 6, 1)
  const MONTHS := FieldRange(1, 12, 1)

  type Field = set<nat>

  predicate Accepts(f: FieldRange, v: nat)
    requires f.step > 0
  {
    f.min <= v <= f.max && (v - f.min) % f.step == 0
  }

  /** The values counted from the minimum in steps. */
  function All(f: FieldRange): Field
    requires f.step > 0 && f.min <= f.max
  {
    set i: nat | i <= (f.max - f.min) / f.step :: f.min + i * f.step
  }

  function NewField(f: FieldRange, values: set<nat>): Option<Field>
    requires f.step > 0
  {
    if forall v | v in values :: Accepts(f, v) then Some(values) else None
  }

  /** Counting in steps reaches every accepted value and no other. */
  lemma AllIsAccepted(f: FieldRange, v: nat)
    requires f in {SECONDS, MINUTES, HOURS, DAYS, WEEKDAYS, MONTHS}
    ensures v in All(f) <==> Accepts(f, v)
  {
    if Accepts(f, v) {
      var i: nat := (v - f.min) / f.step;
      assert v == f.min + i * f.step;
    }
  }

  /** A field's constructor takes exactly the subsets of its default. */
  lemma NewFieldTakesSubsets(f: FieldRange, values: set<nat>)
    requires f in {SECONDS, MINUTES, HOURS, DAYS, WEEKDAYS, MONTHS}
    ensures NewField(f, values) == if values <= All(f) then Some(values) else None
  {
    forall v | v in values ensures v in All(f) <==> Accepts(f, v) {
      AllIsAccepted(f, v);
    }
  }

  /** A value is of a field's default set exactly if a clock or a calendar can show it, seconds in fives. */
  lemma FieldsAreOfClock(v: nat)
    ensures v in All(SECONDS) <==> v < 60 && v % 5 == 0
    ensures v in All(MINUTES) <==> v < 60
    ensures v in All(HOURS) <==> v < 24
    ensures v in All(DAYS) <==> 1 <= v <= 31
    ensures v in All(WEEKDAYS) <==> v < 7
    ensures v in All(MONTHS) <==> 1 <= v <= 12
  {
    AllIsAccepted(SECONDS, v);
    AllIsAccepted(MINUTES, v);
    AllIsAccepted(HOURS, v);
    AllIsAccepted(DAYS, v);
    AllIsAccepted(WEEKDAYS, v);
    AllIsAccepted(MONTHS, v);
  }

  // ---- wall clock ----

  const SECONDS_PER_DAY: int := 86400

  /** Day of month, weekday and month of a local day, counted in days since the epoch. */
  datatype Calendar = Calendar(dayOfMonth: int -> nat, weekday: int -> nat, month: int -> nat)

  /** Wall-clock seconds of a time at an offset of `tz` seconds east of UTC. */
  function Local(p: Timestamp, tz: int): int { p / 1000 + tz }

  function Second(p: Timestamp, tz: int): nat { Local(p, tz) % 60 }

  function Minute(p: Timestamp, tz: int): nat { Local(p, tz) / 60 % 60 }

  function Hour(p: Timestamp, tz: int): nat { Local(p, tz) / 3600 % 24 }

  function Day(p: Timestamp, tz: int): int { Local(p, tz) / SECONDS_PER_DAY }

  datatype Policy =
    | OnlyEarliest
    | OnlyLatest
    | Custom(select: (seq<Timestamp>, Option<Timestamp>) -> seq<Timestamp>)

  datatype RegularSchedule = RegularSchedule(
    seconds: Field,
    minutes: Field,
    hours: Field,
    days: Field,
    weekdays: Field,
    months: Field,
    tz: Option<int>,
    policy: Policy
  )

  predicate Matches(s: RegularSchedule, cal: Calendar, tz: int, p: Timestamp) {
    && Second(p, tz) in s.seconds
    && Minute(p, tz) in s.minutes
    && Hour(p, tz) in s.hours
    && cal.dayOfMonth(Day(p, tz)) in s.days
    && cal.weekday(Day(p, tz)) in s.weekdays
    && cal.month(Day(p, tz)) in s.months
  }

  function Filter(keep: Timestamp -> bool, points: seq<Timestamp>): (kept: seq<Timestamp>)
    ensures forall p :: p in kept <==> p in points && keep(p)
  {
    if points == [] then []
    else Filter(keep, points[..|points| - 1])
         + if keep(points[|points| - 1]) then [points[|points| - 1]] else []
  }

  function Select(policy: Policy, points: seq<Timestamp>, last: Option<Timestamp>): seq<Timestamp> {
    match policy
    case OnlyEarliest => if points == [] then [] else [points[0]]
    case OnlyLatest => if points == [] then [] else [points[|points| - 1]]
    case Custom(select) => select(points, last)
  }

  lemma {:induction false} FilterConcat(keep: Timestamp -> bool, a: seq<Timestamp>, b: seq<Timestamp>)
    ensures Filter(keep, a + b) == Filter(keep, a) + Filter(keep, b)
  {
    if b == [] {
      assert a + b == a;
    } else {
      var n := |b| - 1;
      var last := if keep(b[n]) then [b[n]] else [];
      FilterConcat(keep, a, b[..n]);
      assert (a + b)[..|a + b| - 1] == a + b[..n];
      assert Filter(keep, a + b) == Filter(keep, a + b[..n]) + last;
      assert Filter(keep, b) == Filter(keep, b[..n]) + last;
    }
  }

  // ---- what schedules can hit ----

  lemma AlignedSecond(p: Timestamp, tz: int)
    requires Aligned(p)
    ensures Second(p, tz) % 5 == tz % 5 && p == p / 1000 * 1000
  {
    var q := p / POINT_INTERVAL;
    assert p == q * POINT_INTERVAL;
    assert p / 1000 == q * 5;
    var minutes := Local(p, tz) / 60;
    assert Second(p, tz) == 5 * (q - 12 * minutes) + tz;
    WholeFivesVanish(q - 12 * minutes, tz);
  }

  lemma WholeFivesVanish(q: int, rest: int)
    ensures (5 * q + rest) % 5 == rest % 5
  {
  }

  lemma PointAt(local: int, tz: int) returns (p: Timestamp)
    requires local % 5 == tz % 5
    ensures Aligned(p) && Local(p, tz) == local
  {
    var q := (local - tz) / 5;
    p := q * POINT_INTERVAL;
  }

  /**
   The seconds of grid points are all accepted by the seconds field exactly when the
   zone's offset is a multiple of five seconds, and then every accepted second occurs.
   */
  lemma SecondsMatchGrid(tz: int)
    ensures (forall p | Aligned(p) :: Accepts(SECONDS, Second(p, tz))) <==> tz % 5 == 0
    ensures tz % 5 == 0 ==>
              forall v: nat | Accepts(SECONDS, v) :: exists p :: Aligned(p) && Second(p, tz) == v
  {
    forall p | Aligned(p) ensures Accepts(SECONDS, Second(p, tz)) <==> tz % 5 == 0 {
      AlignedSecond(p, tz);
    }
    assert Aligned(0);
    if tz % 5 == 0 {
      forall v: nat | Accepts(SECONDS, v) ensures exists p :: Aligned(p) && Second(p, tz) == v {
        var p := PointAt(v, tz);
      }
    }
  }

  predicate DailyMatch(second: nat, minute: nat, hour: nat, tz: int, day: int, p: Timestamp) {
    Aligned(p) && Day(p, tz) == day && Second(p, tz) == second && Minute(p, tz) == minute && Hour(p, tz) == hour
  }

  function LocalAt(day: int, hour: nat, minute: nat, second: nat): int {
    ((day * 24 + hour) * 60 + minute) * 60 + second
  }

  lemma DailyMatchIs(second: nat, minute: nat, hour: nat, tz: int, day: int, p: Timestamp)
    requires hour < 24 && minute < 60 && second < 60
    ensures DailyMatch(second, minute, hour, tz, day, p)
       <==> Aligned(p) && Local(p, tz) == LocalAt(day, hour, minute, second)
  {
    Recompose(Local(p, tz), day, hour, minute, second);
  }

  lemma LocalIsInjective(p: Timestamp, q: Timestamp, tz: int)
    requires Aligned(p) && Aligned(q) && Local(p, tz) == Local(q, tz)
    ensures p == q
  {
    AlignedSecond(p, tz);
    AlignedSecond(q, tz);
  }

  lemma WholeFives(minutes: int, second: nat, tz: int)
    requires second % 5 == 0 && tz % 5 == 0
    ensures (minutes * 60 + second) % 5 == tz % 5
  {
    assert minutes * 60 + second == 5 * (12 * minutes + second / 5);
  }

  /** A single accepted second, minute and hour occur at some grid point of every local day. */
  lemma OncePerDay(second: nat, minute: nat, hour: nat, tz: int, day: int) returns (at: Timestamp)
    requires Accepts(SECONDS, second) && minute < 60 && hour < 24 && tz % 5 == 0
    ensures DailyMatch(second, minute, hour, tz, day, at)
  {
    WholeFives((day * 24 + hour) * 60 + minute, second, tz);
    at := PointAt(LocalAt(day, hour, minute, second), tz);
    DailyMatchIs(second, minute, hour, tz, day, at);
  }

  /** They occur at one grid point of the day only. */
  lemma AtMostOncePerDay(second: nat, minute: nat, hour: nat, tz: int, day: int, p: Timestamp, q: Timestamp)
    requires second < 60 && minute < 60 && hour < 24
    requires DailyMatch(second, minute, hour, tz, day, p) && DailyMatch(second, minute, hour, tz, day, q)
    ensures p == q
  {
    DailyMatchIs(second, minute, hour, tz, day, p);
    DailyMatchIs(second, minute, hour, tz, day, q);
    LocalIsInjective(p, q, tz);
  }

  /** The calendar gives the day a date and weekday the fields know. */
  predicate InRange(cal: Calendar, day: int) {
    Accepts(DAYS, cal.dayOfMonth(day)) && Accepts(WEEKDAYS, cal.weekday(day)) && Accepts(MONTHS, cal.month(day))
  }

  predicate IsDaily(s: RegularSchedule, second: nat, minute: nat, hour: nat) {
    && s.seconds == {second} && s.minutes == {minute} && s.hours == {hour}
    && s.days == All(DAYS) && s.weekdays == All(WEEKDAYS) && s.months == All(MONTHS)
  }

  lemma MatchesOn(s: RegularSchedule, cal: Calendar, tz: int, second: nat, minute: nat, hour: nat, p: Timestamp)
    requires IsDaily(s, second, minute, hour) && Aligned(p)
    ensures Matches(s, cal, tz, p) <==> DailyMatch(second, minute, hour, tz, Day(p, tz), p) && InRange(cal, Day(p, tz))
  {
    AllIsAccepted(DAYS, cal.dayOfMonth(Day(p, tz)));
    AllIsAccepted(WEEKDAYS, cal.weekday(Day(p, tz)));
    AllIsAccepted(MONTHS, cal.month(Day(p, tz)));
  }

  /**
   A schedule with one second, minute and hour, as their constructors accept them, and
   all days matches one grid point of a local day, and no other, exactly if the
   calendar's date of that day is in range.
   */
  lemma DailyMatchesOnce(s: RegularSchedule, cal: Calendar, tz: int, second: nat, minute: nat, hour: nat, day: int)
    returns (at: Timestamp)
    requires IsDaily(s, second, minute, hour) && tz % 5 == 0
    requires NewField(SECONDS, {second}).Some? && NewField(MINUTES, {minute}).Some? && NewField(HOURS, {hour}).Some?
    ensures Aligned(at) && Day(at, tz) == day
    ensures forall p | Aligned(p) && Day(p, tz) == day :: Matches(s, cal, tz, p) <==> p == at && InRange(cal, day)
  {
    assert Accepts(SECONDS, second) && Accepts(MINUTES, minute) && Accepts(HOURS, hour);
    at := OncePerDay(second, minute, hour, tz, day);
    forall p | Aligned(p) && Day(p, tz) == day ensures Matches(s, cal, tz, p) <==> p == at && InRange(cal, day) {
      MatchesOn(s, cal, tz, second, minute, hour, p);
      if DailyMatch(second, minute, hour, tz, day, p) {
        AtMostOncePerDay(second, minute, hour, tz, day, p, at);
      }
    }
  }

  /** A schedule that leaves everything but the seconds at its default matches every minute of every calendar. */
  lemma DefaultsMatchEveryMinute(s: RegularSchedule, cal: Calendar, tz: int, p: Timestamp)
    requires s.minutes == All(MINUTES) && s.hours == All(HOURS)
    requires s.days == All(DAYS) && s.weekdays == All(WEEKDAYS) && s.months == All(MONTHS)
    requires 1 <= cal.dayOfMonth(Day(p, tz)) <= 31
    requires cal.weekday(Day(p, tz)) < 7 && 1 <= cal.month(Day(p, tz)) <= 12
    ensures Matches(s, cal, tz, p) <==> Second(p, tz) in s.seconds
  {
    FieldsAreOfClock(Minute(p, tz));
    FieldsAreOfClock(Hour(p, tz));
    FieldsAreOfClock(cal.dayOfMonth(Day(p, tz)));
    FieldsAreOfClock(cal.weekday(Day(p, tz)));
    FieldsAreOfClock(cal.month(Day(p, tz)));
  }

  lemma Recompose(local: int, day: int, hour: nat, minute: nat, second: nat)
    requires hour < 24 && minute < 60 && second < 60
    ensures local == LocalAt(day, hour, minute, second)
       <==> && local / SECONDS_PER_DAY == day && local / 3600 % 24 == hour
            && local / 60 % 60 == minute && local % 60 == second
  {
    var minutes, hours := local / 60, local / 3600;
    assert hours == minutes / 60;
    assert local / SECONDS_PER_DAY == hours / 24;
  }
}
