/**
 Task ids derived from schedule points. The id is modelled as the joined name that
 the repository hashes: scheduler, NUL, entry key, NUL, point in decimal seconds.
 */
module ScheduleIds {
  import opened Tasks

  const NUL := '\0'

  function Digit(d: nat): char
    requires d < 10
  {
    '0' + d as char
  }

  function Digits(n: nat): (s: string)
    ensures s != [] && forall c | c in s :: '0' <= c <= '9'
  {
    if n < 10 then [Digit(n)] else Digits(n / 10) + [Digit(n % 10)]
  }

  /** Seconds with three decimals. */
  function Unsigned(at: nat): (s: string)
    ensures NUL !in s && |s| >= 4 && s[0] != '-'
  {
    var ms, whole := at % 1000, Digits(at / 1000);
    assert whole[0] in whole;
    whole + ['.', Digit(ms / 100), Digit(ms / 10 % 10), Digit(ms % 10)]
  }

  function Decimal(at: Timestamp): (s: string)
    ensures NUL !in s && |s| >= 4
  {
    if at < 0 then ['-'] + Unsigned(-at) else Unsigned(at)
  }

  function ForSchedulePoint(scheduler: string, key: string, at: Timestamp): TaskId {
    scheduler + [NUL] + key + [NUL] + Decimal(at)
  }

  // ---- reading a name back ----

  function Value(c: char): nat {
    if c < '0' then 0 else c as nat - '0' as nat
  }

  function ParseDigits(s: string): nat {
    if s == [] then 0 else ParseDigits(s[..|s| - 1]) * 10 + Value(s[|s| - 1])
  }

  function ParseUnsigned(s: string): nat
    requires |s| >= 4
  {
    var n := |s|;
    ParseDigits(s[..n - 4]) * 1000 + Value(s[n - 3]) * 100 + Value(s[n - 2]) * 10 + Value(s[n - 1])
  }

  function ParseDecimal(s: string): Timestamp
    requires |s| >= 4
  {
    if s[0] == '-' && |s| >= 5 then -(ParseUnsigned(s[1..]) as int) else ParseUnsigned(s)
  }

  function FirstNul(s: string): nat {
    if s == [] || s[0] == NUL then 0 else 1 + FirstNul(s[1..])
  }

  function AfterLastNul(s: string): string {
    if s == [] || s[|s| - 1] == NUL then [] else AfterLastNul(s[..|s| - 1]) + [s[|s| - 1]]
  }

  lemma {:induction false} DigitsRoundTrip(n: nat)
    ensures ParseDigits(Digits(n)) == n
  {
    if n < 10 {
      assert Digits(n)[..0] == [];
    } else {
      DigitsRoundTrip(n / 10);
      assert Digits(n)[..|Digits(n)| - 1] == Digits(n / 10);
    }
  }

  lemma UnsignedRoundTrip(at: nat)
    ensures ParseUnsigned(Unsigned(at)) == at
  {
    DigitsRoundTrip(at / 1000);
    assert Unsigned(at)[..|Unsigned(at)| - 4] == Digits(at / 1000);
  }

  lemma DecimalRoundTrip(at: Timestamp)
    ensures ParseDecimal(Decimal(at)) == at
  {
    UnsignedRoundTrip(if at < 0 then -at else at);
    if at < 0 {
      assert Decimal(at)[1..] == Unsigned(-at);
    }
  }

  lemma {:induction false} FirstNulIs(a: string, b: string)
    requires NUL !in a
    ensures FirstNul(a + [NUL] + b) == |a|
  {
    if a != [] {
      FirstNulIs(a[1..], b);
      assert (a + [NUL] + b)[1..] == a[1..] + [NUL] + b;
    }
  }

  lemma {:induction false} AfterLastNulIs(a: string, b: string)
    requires NUL !in b
    ensures AfterLastNul(a + [NUL] + b) == b
  {
    var s := a + [NUL] + b;
    if b != [] {
      AfterLastNulIs(a, b[..|b| - 1]);
      assert s[..|s| - 1] == a + [NUL] + b[..|b| - 1];
    }
  }

  /** A name reads back as these three parts. */
  ghost predicate ReadsAs(name: string, scheduler: string, key: string, at: Timestamp) {
    var i, point := FirstNul(name), AfterLastNul(name);
    && i + 2 + |point| <= |name| && |point| >= 4
    && name[..i] == scheduler
    && name[i + 1..|name| - |point| - 1] == key
    && ParseDecimal(point) == at
  }

  /** Scheduler, key and point can be read back from a name. */
  lemma NameRoundTrip(scheduler: string, key: string, at: Timestamp)
    requires NUL !in scheduler
    ensures ReadsAs(ForSchedulePoint(scheduler, key, at), scheduler, key, at)
  {
    var name, point := ForSchedulePoint(scheduler, key, at), Decimal(at);
    var rest := key + [NUL] + point;
    assert name == scheduler + [NUL] + rest;
    FirstNulIs(scheduler, rest);
    AfterLastNulIs(scheduler + [NUL] + key, point);
    DecimalRoundTrip(at);
    MiddleOf(scheduler, key, point);
  }

  lemma MiddleOf(scheduler: string, key: string, point: string)
    ensures var name := scheduler + [NUL] + (key + [NUL] + point);
            && name == scheduler + [NUL] + key + [NUL] + point
            && name[..|scheduler|] == scheduler
            && name[|scheduler| + 1..|name| - |point| - 1] == key
  {
  }

  /** No two schedule points share an id, as long as scheduler names hold no NUL. */
  lemma IdsAreInjective(s1: string, k1: string, at1: Timestamp, s2: string, k2: string, at2: Timestamp)
    requires NUL !in s1 && NUL !in s2
    requires ForSchedulePoint(s1, k1, at1) == ForSchedulePoint(s2, k2, at2)
    ensures s1 == s2 && k1 == k2 && at1 == at2
  {
    NameRoundTrip(s1, k1, at1);
    NameRoundTrip(s2, k2, at2);
  }

  /** A scheduler name that holds a NUL shares every one of its ids with another scheduler. */
  lemma NulCollides(scheduler: string, i: nat, key: string, at: Timestamp)
    requires i < |scheduler| && scheduler[i] == NUL
    ensures ForSchedulePoint(scheduler, key, at)
         == ForSchedulePoint(scheduler[..i], scheduler[i + 1..] + [NUL] + key, at)
  {
    assert scheduler == scheduler[..i] + [NUL] + scheduler[i + 1..];
  }
}
