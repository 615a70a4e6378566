/**
 The claim calls of an interleaved run are runs of the claim loop: each call of
 `SqlRace` is a call of `SqlBackend` under the environment that the other steps form.
 What is proved of either therefore holds of both.
 */
module SqlCalls {
  import opened Tasks
  import opened Ordering
  import opened Lifecycle
  import opened SqlRows
  import SqlBackend
  import SqlHistory
  import SqlRace

  /** The step is a transaction of the call. */
  predicate IsTurn(step: SqlRace.Step, i: nat) {
    (step.List? || step.Try?) && step.call == i
  }

  /** The steps before `k` that are transactions of the call, in order. */
  function TurnsOf(steps: seq<SqlRace.Step>, i: nat, k: nat): (turns: seq<nat>)
    requires k <= |steps|
    ensures forall n | 0 <= n < |turns| :: turns[n] < k && IsTurn(steps[turns[n]], i)
  {
    if k == 0 then [] else TurnsOf(steps, i, k - 1) + if IsTurn(steps[k - 1], i) then [k - 1] else []
  }

  lemma {:induction false} TurnsGrow(steps: seq<SqlRace.Step>, i: nat, k: nat, m: nat)
    requires k <= m <= |steps|
    ensures TurnsOf(steps, i, k) <= TurnsOf(steps, i, m)
    decreases m
  {
    if k < m {
      TurnsGrow(steps, i, k, m - 1);
    }
  }

  // ---- the environment of a call ----

  function RowsAt(states: seq<SqlRace.System>, turns: seq<nat>, n: nat, rows: Rows): Rows {
    if n < |turns| && turns[n] < |states| then states[turns[n]].rows else rows
  }

  function LockedAt(steps: seq<SqlRace.Step>, turns: seq<nat>, n: nat): bool {
    n < |turns| && turns[n] < |steps| && steps[turns[n]].Try? && steps[turns[n]].locked
  }

  function ClockAt(steps: seq<SqlRace.Step>, turns: seq<nat>, n: nat): Timestamp {
    if n < |turns| && turns[n] < |steps| && (steps[turns[n]].List? || steps[turns[n]].Try?) then steps[turns[n]].now
    else 0
  }

  function TieAt(steps: seq<SqlRace.Step>, turns: seq<nat>, n: nat, id: TaskId): nat {
    if n < |turns| && turns[n] < |steps| && steps[turns[n]].List? then steps[turns[n]].tie(id) else 0
  }

  /** At each of its turns the call finds the shared rows as the other steps left them. */
  function EnvOf(states: seq<SqlRace.System>, steps: seq<SqlRace.Step>, turns: seq<nat>): SqlBackend.Environment {
    SqlBackend.Environment(
      (n: nat, rows: Rows) => RowsAt(states, turns, n, rows),
      (n: nat) => LockedAt(steps, turns, n),
      (n: nat) => ClockAt(steps, turns, n),
      (n: nat, id: TaskId) => TieAt(steps, turns, n, id))
  }

  function RequestOf(c: SqlRace.Call): SqlBackend.Request {
    SqlBackend.Request(c.group, c.worker, c.limit)
  }

  // ---- the same call ----

  predicate SameStage(phase: SqlRace.Phase, stage: SqlBackend.Stage) {
    && (phase.Listing? <==> stage.Listing?) && (phase.Trying? <==> stage.Trying?)
    && (phase.Returned? <==> stage.Returned?)
  }

  /** The loop's call has listed, tried and claimed the rows that the run's call has. */
  predicate Mirrors(r: SqlRace.Call, c: SqlBackend.Call) {
    && SameStage(r.phase, c.stage) && r.scan == c.scan && r.pos == c.pos
    && |r.listing| == |c.listing| && (forall p | 0 <= p < |r.listing| :: r.listing[p].id == c.listing[p])
    && |r.claimed| == |c.claims| && (forall a | 0 <= a < |r.claimed| :: r.claimed[a].id == c.claims[a].Id())
  }

  lemma SameTies(rows: Rows, group: Group, now: Timestamp, scan: nat, tie: TaskId -> nat, tie': TaskId -> nat)
    requires forall id :: tie(id) == tie'(id)
    ensures ListDueTaskIds(rows, group, now, scan, tie) == ListDueTaskIds(rows, group, now, scan, tie')
  {
    assert DueRanks(rows, group, now, tie) == DueRanks(rows, group, now, tie');
  }

  lemma SettledMirrors(q: SqlBackend.Request, r: SqlRace.Call, c: SqlBackend.Call)
    requires Mirrors(r, c) && q == RequestOf(r) && r.phase.Trying?
    ensures Mirrors(SqlRace.AfterTry(r), SqlBackend.Settled(q, c))
    ensures SqlBackend.Settled(q, c).rows == c.rows
  {
  }

  lemma ListMirrors(s: SqlRace.System, step: SqlRace.Step, s': SqlRace.System, env: SqlBackend.Environment, n: nat,
                    c: SqlBackend.Call)
    requires s.tickets.Keys == s.rows.Keys && SqlRace.Next(s, step, s') && step.List? && step.call < |s.calls|
    requires Mirrors(s.calls[step.call], c)
    requires env.act(n, c.rows) == s.rows && env.clock(n) == step.now && forall id :: env.tie(n, id) == step.tie(id)
    ensures step.call < |s'.calls|
    ensures var c' := SqlBackend.Turn(RequestOf(s.calls[step.call]), env, n, c);
            Mirrors(s'.calls[step.call], c') && c'.rows == s'.rows
  {
    var r := s.calls[step.call];
    var q, ids := RequestOf(r), ListDueTaskIds(s.rows, r.group, step.now, r.scan, step.tie);
    SameTies(s.rows, r.group, step.now, r.scan, step.tie, env.TieAt(n));
    SettledMirrors(q, SqlRace.Relisted(s, r, ids, step.now), SqlBackend.Listed(q, env, n, c));
  }

  lemma TriedMirrors(s: SqlRace.System, step: SqlRace.Step, env: SqlBackend.Environment, n: nat, c: SqlBackend.Call)
    requires s.tickets.Keys == s.rows.Keys && SqlRows.Inv(s.rows) && step.Try? && step.call < |s.calls|
    requires Mirrors(s.calls[step.call], c) && c.stage.Trying? && c.pos < |c.listing|
    requires env.act(n, c.rows) == s.rows && env.clock(n) == step.now && env.locked(n) == step.locked
    ensures var r, c' := s.calls[step.call], SqlBackend.Tried(RequestOf(s.calls[step.call]), env, n, c);
            var id := r.listing[r.pos].id;
            if SqlRace.Takes(s, step)
            then Mirrors(SqlRace.Claimed(r, SqlRace.Ticket(id, s.tickets[id])), c')
                 && c'.rows == UpdateAssignment(s.rows, id, r.worker, step.now)
            else Mirrors(SqlRace.Passed(r, step.locked), c') && c'.rows == s.rows
  {
  }

  lemma TryMirrors(s: SqlRace.System, step: SqlRace.Step, s': SqlRace.System, env: SqlBackend.Environment, n: nat,
                   c: SqlBackend.Call)
    requires s.tickets.Keys == s.rows.Keys && SqlRows.Inv(s.rows)
    requires SqlRace.Next(s, step, s') && step.Try? && step.call < |s.calls| && Mirrors(s.calls[step.call], c)
    requires env.act(n, c.rows) == s.rows && env.clock(n) == step.now && env.locked(n) == step.locked
    ensures step.call < |s'.calls|
    ensures var c' := SqlBackend.Turn(RequestOf(s.calls[step.call]), env, n, c);
            Mirrors(s'.calls[step.call], c') && c'.rows == s'.rows
  {
    var r := s.calls[step.call];
    var q, id := RequestOf(r), r.listing[r.pos].id;
    TriedMirrors(s, step, env, n, c);
    if SqlRace.Takes(s, step) {
      SettledMirrors(q, SqlRace.Claimed(r, SqlRace.Ticket(id, s.tickets[id])), SqlBackend.Tried(q, env, n, c));
    } else {
      SettledMirrors(q, SqlRace.Passed(r, step.locked), SqlBackend.Tried(q, env, n, c));
    }
  }

  /** The turn is the step: it starts from the rows before it and meets its clock, lock and ties. */
  predicate Meets(env: SqlBackend.Environment, n: nat, rows: Rows, s: SqlRace.System, step: SqlRace.Step)
    requires step.List? || step.Try?
  {
    env.act(n, rows) == s.rows && env.clock(n) == step.now && (step.Try? ==> env.locked(n) == step.locked)
  }

  lemma EnvMeets(states: seq<SqlRace.System>, steps: seq<SqlRace.Step>, i: nat, turns: seq<nat>, n: nat, rows: Rows)
    requires n < |turns| && turns[n] < |steps| && turns[n] < |states| && IsTurn(steps[turns[n]], i)
    ensures Meets(EnvOf(states, steps, turns), n, rows, states[turns[n]], steps[turns[n]])
    ensures steps[turns[n]].List? ==>
              forall id :: EnvOf(states, steps, turns).tie(n, id) == steps[turns[n]].tie(id)
  {
  }

  lemma StepMirrors(s: SqlRace.System, step: SqlRace.Step, s': SqlRace.System, i: nat, env: SqlBackend.Environment,
                    n: nat, c: SqlBackend.Call)
    requires s.tickets.Keys == s.rows.Keys && SqlRows.Inv(s.rows) && SqlRace.Next(s, step, s') && IsTurn(step, i)
    requires i < |s.calls| && Mirrors(s.calls[i], c) && Meets(env, n, c.rows, s, step)
    requires step.List? ==> forall id :: env.tie(n, id) == step.tie(id)
    ensures i < |s'.calls|
    ensures var c' := SqlBackend.Turn(RequestOf(s.calls[i]), env, n, c); Mirrors(s'.calls[i], c') && c'.rows == s'.rows
  {
    if step.List? {
      ListMirrors(s, step, s', env, n, c);
    } else {
      TryMirrors(s, step, s', env, n, c);
    }
  }

  lemma TryKeepsRequest(s: SqlRace.System, step: SqlRace.Step, s': SqlRace.System)
    requires s.tickets.Keys == s.rows.Keys && SqlRace.Next(s, step, s') && step.Try?
    ensures step.call < |s.calls| && step.call < |s'.calls|
    ensures RequestOf(s'.calls[step.call]) == RequestOf(s.calls[step.call])
  {
    var c := s.calls[step.call];
    if SqlRace.Takes(s, step) {
      var id := SqlHistory.HeadId(c);
      SqlRace.AfterTryOnly(SqlRace.Claimed(c, SqlRace.Ticket(id, s.tickets[id])));
    } else {
      SqlRace.AfterTryOnly(SqlRace.Passed(c, step.locked));
    }
  }

  lemma ListKeepsRequest(s: SqlRace.System, step: SqlRace.Step, s': SqlRace.System)
    requires s.tickets.Keys == s.rows.Keys && SqlRace.Next(s, step, s') && step.List?
    ensures step.call < |s.calls| && step.call < |s'.calls|
    ensures RequestOf(s'.calls[step.call]) == RequestOf(s.calls[step.call])
  {
    var c := s.calls[step.call];
    var ids := ListDueTaskIds(s.rows, c.group, step.now, c.scan, step.tie);
    SqlRace.AfterTryOnly(SqlRace.Relisted(s, c, ids, step.now));
  }

  lemma TurnKeepsRequest(s: SqlRace.System, step: SqlRace.Step, s': SqlRace.System, i: nat)
    requires s.tickets.Keys == s.rows.Keys && SqlRace.Next(s, step, s') && IsTurn(step, i) && i < |s.calls|
    ensures i < |s'.calls| && !s.calls[i].phase.Returned? && RequestOf(s'.calls[i]) == RequestOf(s.calls[i])
  {
    if step.List? {
      ListKeepsRequest(s, step, s');
    } else {
      TryKeepsRequest(s, step, s');
    }
  }

  lemma OtherStepsKeepCall(s: SqlRace.System, step: SqlRace.Step, s': SqlRace.System, i: nat)
    requires s.tickets.Keys == s.rows.Keys && SqlRace.Next(s, step, s') && i < |s.calls| && !IsTurn(step, i)
    ensures i < |s'.calls| && s'.calls[i] == s.calls[i]
  {
  }

  // ---- a whole call ----

  /** Step `m` begins the call. */
  predicate BeganAt(states: seq<SqlRace.System>, steps: seq<SqlRace.Step>, i: nat, m: nat) {
    m < |steps| && m < |states| && steps[m].Begin? && |states[m].calls| == i
  }

  lemma {:induction false} FindBegin(states: seq<SqlRace.System>, steps: seq<SqlRace.Step>, i: nat, k: nat)
    returns (m: nat)
    requires SqlRace.IsRun(states, steps) && k < |states| && i < |states[k].calls|
    ensures m < k && BeganAt(states, steps, i, m)
    decreases k
  {
    if i < |states[k - 1].calls| {
      m := FindBegin(states, steps, i, k - 1);
    } else {
      m := k - 1;
    }
  }

  lemma CallsOnlyGrow(s: SqlRace.System, step: SqlRace.Step, s': SqlRace.System, i: nat)
    requires s.tickets.Keys == s.rows.Keys && SqlRace.Next(s, step, s')
    ensures |s.calls| <= |s'.calls| && (IsTurn(step, i) ==> i < |s.calls|)
  {
  }

  lemma {:induction false} NoTurnsYet(states: seq<SqlRace.System>, steps: seq<SqlRace.Step>, i: nat, k: nat)
    requires SqlRace.IsRun(states, steps) && k < |states| && |states[k].calls| <= i
    ensures TurnsOf(steps, i, k) == []
  {
    if k > 0 {
      CallsOnlyGrow(states[k - 1], steps[k - 1], states[k], i);
      NoTurnsYet(states, steps, i, k - 1);
    }
  }

  /** After turn `n` the rows of the loop are the shared rows. */
  predicate RowsAfter(states: seq<SqlRace.System>, turns: seq<nat>, calls: seq<SqlBackend.Call>, n: nat) {
    && n < |turns| && turns[n] + 1 < |states| && n + 1 < |calls|
    && calls[n + 1].rows == states[turns[n] + 1].rows
  }

  /** How far the call has come by step `k`, as a course of the loop. */
  ghost predicate IsCourse(states: seq<SqlRace.System>, steps: seq<SqlRace.Step>, env: SqlBackend.Environment, i: nat,
                           m: nat, k: nat, calls: seq<SqlBackend.Call>)
    requires k <= |steps| && m < |states|
  {
    && k < |states| && i < |states[k].calls|
    && SqlBackend.IsCallRun(RequestOf(states[k].calls[i]), env, states[m].rows, calls)
    && |calls| == |TurnsOf(steps, i, k)| + 1 && Mirrors(states[k].calls[i], SqlBackend.Last(calls))
    && forall n | 0 <= n < |calls| - 1 :: RowsAfter(states, TurnsOf(steps, i, k), calls, n)
  }

  lemma BeginMirrors(s: SqlRace.System, step: SqlRace.Step, s': SqlRace.System, i: nat)
    requires s.tickets.Keys == s.rows.Keys && SqlRace.Next(s, step, s') && step.Begin? && i == |s.calls|
    ensures i < |s'.calls| && Mirrors(s'.calls[i], SqlBackend.Begin(RequestOf(s'.calls[i]), s.rows))
  {
  }

  lemma CourseBegins(states: seq<SqlRace.System>, steps: seq<SqlRace.Step>, env: SqlBackend.Environment, i: nat, m: nat)
    returns (calls: seq<SqlBackend.Call>)
    requires SqlRace.IsRun(states, steps) && BeganAt(states, steps, i, m)
    ensures IsCourse(states, steps, env, i, m, m + 1, calls)
  {
    NoTurnsYet(states, steps, i, m);
    BeginMirrors(states[m], steps[m], states[m + 1], i);
    calls := [SqlBackend.Begin(RequestOf(states[m + 1].calls[i]), states[m].rows)];
    assert |TurnsOf(steps, i, m + 1)| == 0;
  }

  /** Step `k` is a step of the run, from rows that encode a table. */
  ghost predicate IsStepOf(states: seq<SqlRace.System>, steps: seq<SqlRace.Step>, k: nat) {
    && k < |steps| && |states| == |steps| + 1 && states[k].tickets.Keys == states[k].rows.Keys
    && SqlRows.Inv(states[k].rows) && SqlRace.Next(states[k], steps[k], states[k + 1])
  }

  lemma RunSteps(states: seq<SqlRace.System>, steps: seq<SqlRace.Step>, k: nat)
    requires SqlHistory.IsDisciplinedRun(states, steps) && k < |steps|
    ensures IsStepOf(states, steps, k)
  {
    SqlHistory.RowsStayCoherent(states, steps, k);
  }

  lemma TurnMirrors(states: seq<SqlRace.System>, steps: seq<SqlRace.Step>, i: nat, turns: seq<nat>, n: nat, k: nat,
                    c: SqlBackend.Call)
    requires IsStepOf(states, steps, k) && IsTurn(steps[k], i)
    requires n < |turns| && turns[n] == k && i < |states[k].calls| && Mirrors(states[k].calls[i], c)
    ensures i < |states[k + 1].calls| && !states[k].calls[i].phase.Returned?
    ensures RequestOf(states[k + 1].calls[i]) == RequestOf(states[k].calls[i])
    ensures var c' := SqlBackend.Turn(RequestOf(states[k].calls[i]), EnvOf(states, steps, turns), n, c);
            Mirrors(states[k + 1].calls[i], c') && c'.rows == states[k + 1].rows
  {
    EnvMeets(states, steps, i, turns, n, c.rows);
    TurnKeepsRequest(states[k], steps[k], states[k + 1], i);
    StepMirrors(states[k], steps[k], states[k + 1], i, EnvOf(states, steps, turns), n, c);
  }

  lemma CourseGrows(states: seq<SqlRace.System>, steps: seq<SqlRace.Step>, i: nat, m: nat, k: nat, turns: seq<nat>,
                    was: seq<SqlBackend.Call>)
    returns (calls: seq<SqlBackend.Call>)
    requires IsStepOf(states, steps, k) && m < k && IsTurn(steps[k], i)
    requires TurnsOf(steps, i, k + 1) <= turns
    requires IsCourse(states, steps, EnvOf(states, steps, turns), i, m, k, was)
    ensures IsCourse(states, steps, EnvOf(states, steps, turns), i, m, k + 1, calls)
  {
    var n, env, q := |was| - 1, EnvOf(states, steps, turns), RequestOf(states[k].calls[i]);
    var before, now := TurnsOf(steps, i, k), TurnsOf(steps, i, k + 1);
    assert now == before + [k] && turns[n] == now[n] == k;
    TurnMirrors(states, steps, i, turns, n, k, SqlBackend.Last(was));
    calls := SqlBackend.OneTurnMore(q, env, states[m].rows, was);
    Prefix(q, env, states[m].rows, was, calls);
    RowsFollow(states, before, was, k, calls);
  }

  lemma RowsFollow(states: seq<SqlRace.System>, turns: seq<nat>, was: seq<SqlBackend.Call>, k: nat,
                   calls: seq<SqlBackend.Call>)
    requires |was| == |turns| + 1 && forall n | 0 <= n < |was| - 1 :: RowsAfter(states, turns, was, n)
    requires |calls| == |was| + 1 && calls[..|was|] == was
    requires k + 1 < |states| && SqlBackend.Last(calls).rows == states[k + 1].rows
    ensures forall n | 0 <= n < |calls| - 1 :: RowsAfter(states, turns + [k], calls, n)
  {
    forall n | 0 <= n < |calls| - 1 ensures RowsAfter(states, turns + [k], calls, n) {
      if n < |was| - 1 {
        assert RowsAfter(states, turns, was, n) && calls[..|was|][n + 1] == calls[n + 1];
      }
    }
  }

  lemma Prefix(q: SqlBackend.Request, env: SqlBackend.Environment, rows: Rows, was: seq<SqlBackend.Call>,
               calls: seq<SqlBackend.Call>)
    requires SqlBackend.IsCallRun(q, env, rows, was) && SqlBackend.IsCallRun(q, env, rows, calls) && |was| <= |calls|
    ensures calls[..|was|] == was
  {
    forall k | 0 <= k < |was| ensures calls[k] == was[k] {
      SqlBackend.CallsAgree(q, env, rows, calls, was, k);
    }
  }

  lemma CourseStays(states: seq<SqlRace.System>, steps: seq<SqlRace.Step>, i: nat, m: nat, k: nat,
                    env: SqlBackend.Environment, calls: seq<SqlBackend.Call>)
    requires IsStepOf(states, steps, k) && m < k && !IsTurn(steps[k], i)
    requires IsCourse(states, steps, env, i, m, k, calls)
    ensures IsCourse(states, steps, env, i, m, k + 1, calls)
  {
    OtherStepsKeepCall(states[k], steps[k], states[k + 1], i);
    assert TurnsOf(steps, i, k + 1) == TurnsOf(steps, i, k);
  }

  lemma CourseGoesOn(states: seq<SqlRace.System>, steps: seq<SqlRace.Step>, env: SqlBackend.Environment, i: nat, m: nat,
                     k: nat, turns: seq<nat>, was: seq<SqlBackend.Call>)
    returns (calls: seq<SqlBackend.Call>)
    requires IsStepOf(states, steps, k) && m < k && TurnsOf(steps, i, k + 1) <= turns
    requires env == EnvOf(states, steps, turns) && IsCourse(states, steps, env, i, m, k, was)
    ensures IsCourse(states, steps, env, i, m, k + 1, calls)
  {
    if IsTurn(steps[k], i) {
      calls := CourseGrows(states, steps, i, m, k, turns, was);
    } else {
      calls := was;
      CourseStays(states, steps, i, m, k, env, calls);
    }
  }

  ghost predicate HasCourse(states: seq<SqlRace.System>, steps: seq<SqlRace.Step>, env: SqlBackend.Environment, i: nat,
                            m: nat, k: nat)
  {
    k <= |steps| && m < |states| && exists calls :: IsCourse(states, steps, env, i, m, k, calls)
  }

  lemma {:induction false} HasCourseFrom(states: seq<SqlRace.System>, steps: seq<SqlRace.Step>,
                                         env: SqlBackend.Environment, i: nat, m: nat, k: nat)
    requires m < k && HasCourse(states, steps, env, i, m, m + 1)
    requires forall j | m < j < k ::
               HasCourse(states, steps, env, i, m, j) ==> HasCourse(states, steps, env, i, m, j + 1)
    ensures HasCourse(states, steps, env, i, m, k)
    decreases k
  {
    if k > m + 1 {
      HasCourseFrom(states, steps, env, i, m, k - 1);
      assert HasCourse(states, steps, env, i, m, k - 1) ==> HasCourse(states, steps, env, i, m, k);
    }
  }

  /** The environment of the call up to step `k`. */
  function EnvUpTo(states: seq<SqlRace.System>, steps: seq<SqlRace.Step>, i: nat, k: nat): SqlBackend.Environment
    requires k <= |steps|
  {
    EnvOf(states, steps, TurnsOf(steps, i, k))
  }

  lemma CourseGoesOnFrom(states: seq<SqlRace.System>, steps: seq<SqlRace.Step>, env: SqlBackend.Environment, i: nat,
                         m: nat, j: nat, turns: seq<nat>, was: seq<SqlBackend.Call>)
    requires IsStepOf(states, steps, j) && m < j && env == EnvOf(states, steps, turns)
    requires TurnsStart(steps, i, j + 1, turns) && IsCourse(states, steps, env, i, m, j, was)
    ensures HasCourse(states, steps, env, i, m, j + 1)
  {
    var calls := CourseGoesOn(states, steps, env, i, m, j, turns, was);
    CourseIsOne(states, steps, env, i, m, j + 1, calls);
  }

  lemma CourseStep(states: seq<SqlRace.System>, steps: seq<SqlRace.Step>, env: SqlBackend.Environment, i: nat, m: nat,
                   j: nat, turns: seq<nat>)
    requires IsStepOf(states, steps, j) && m < j && env == EnvOf(states, steps, turns)
    requires TurnsStart(steps, i, j + 1, turns) && HasCourse(states, steps, env, i, m, j)
    ensures HasCourse(states, steps, env, i, m, j + 1)
  {
    var was := CourseOf(states, steps, env, i, m, j);
    CourseGoesOnFrom(states, steps, env, i, m, j, turns, was);
  }

  lemma CourseOf(states: seq<SqlRace.System>, steps: seq<SqlRace.Step>, env: SqlBackend.Environment, i: nat, m: nat,
                 k: nat)
    returns (calls: seq<SqlBackend.Call>)
    requires HasCourse(states, steps, env, i, m, k)
    ensures k <= |steps| && m < |states| && IsCourse(states, steps, env, i, m, k, calls)
  {
    calls :| IsCourse(states, steps, env, i, m, k, calls);
  }

  lemma CourseIsOne(states: seq<SqlRace.System>, steps: seq<SqlRace.Step>, env: SqlBackend.Environment, i: nat, m: nat,
                    k: nat, calls: seq<SqlBackend.Call>)
    requires k <= |steps| && m < |states| && IsCourse(states, steps, env, i, m, k, calls)
    ensures HasCourse(states, steps, env, i, m, k)
  {
  }

  lemma CourseOpens(states: seq<SqlRace.System>, steps: seq<SqlRace.Step>, env: SqlBackend.Environment, i: nat, m: nat)
    requires SqlRace.IsRun(states, steps) && BeganAt(states, steps, i, m)
    ensures HasCourse(states, steps, env, i, m, m + 1)
  {
    var calls := CourseBegins(states, steps, env, i, m);
  }

  /** The turns before step `k` come first among these. */
  predicate TurnsStart(steps: seq<SqlRace.Step>, i: nat, k: nat, turns: seq<nat>) {
    k <= |steps| && TurnsOf(steps, i, k) <= turns
  }

  lemma CourseUpTo(states: seq<SqlRace.System>, steps: seq<SqlRace.Step>, env: SqlBackend.Environment, i: nat, m: nat,
                   k: nat, turns: seq<nat>)
    requires SqlHistory.IsDisciplinedRun(states, steps) && BeganAt(states, steps, i, m) && m < k <= |steps|
    requires env == EnvOf(states, steps, turns)
    requires forall j | 0 <= j <= k :: TurnsStart(steps, i, j, turns)
    ensures HasCourse(states, steps, env, i, m, k)
  {
    CourseOpens(states, steps, env, i, m);
    forall j | m < j < k
      ensures HasCourse(states, steps, env, i, m, j) ==> HasCourse(states, steps, env, i, m, j + 1)
    {
      if HasCourse(states, steps, env, i, m, j) {
        RunSteps(states, steps, j);
        assert TurnsStart(steps, i, j + 1, turns);
        CourseStep(states, steps, env, i, m, j, turns);
      }
    }
    HasCourseFrom(states, steps, env, i, m, k);
  }

  /**
   A call of an interleaved run is a call of the claim loop: same listings, same tries,
   same claims, and after each of its transactions the rows are the shared ones.
   */
  lemma CallIsLoop(states: seq<SqlRace.System>, steps: seq<SqlRace.Step>, i: nat, m: nat, k: nat)
    returns (calls: seq<SqlBackend.Call>)
    requires SqlHistory.IsDisciplinedRun(states, steps) && BeganAt(states, steps, i, m) && m < k <= |steps|
    ensures i < |states[k].calls|
    ensures var turns, r := TurnsOf(steps, i, k), states[k].calls[i];
            && SqlBackend.IsCallRun(RequestOf(r), EnvUpTo(states, steps, i, k), states[m].rows, calls)
            && Mirrors(r, SqlBackend.Last(calls)) && |calls| == |turns| + 1
            && (r.phase.Returned? <==> SqlBackend.Last(calls).stage.Returned?)
            && forall n | 0 <= n < |turns| :: RowsAfter(states, turns, calls, n)
  {
    var turns, env := TurnsOf(steps, i, k), EnvUpTo(states, steps, i, k);
    forall j | 0 <= j <= k ensures TurnsStart(steps, i, j, turns) {
      TurnsGrow(steps, i, j, k);
    }
    CourseUpTo(states, steps, env, i, m, k, turns);
    calls := CourseOf(states, steps, env, i, m, k);
  }

  /** The loop, run to its end in the place of the call. */
  ghost predicate RunsAs(states: seq<SqlRace.System>, steps: seq<SqlRace.Step>, i: nat, m: nat, k: nat,
                         calls: seq<SqlBackend.Call>)
    requires k <= |steps|
  {
    && BeganAt(states, steps, i, m) && m < k < |states| && i < |states[k].calls| && states[k].calls[i].phase.Returned?
    && SqlBackend.IsWholeCall(RequestOf(states[k].calls[i]), EnvUpTo(states, steps, i, k), states[m].rows,
                              calls)
  }

  /** So what the loop returns there is what the call of the run has claimed. */
  lemma LoopReturnsClaimed(states: seq<SqlRace.System>, steps: seq<SqlRace.Step>, i: nat, m: nat, k: nat,
                           calls: seq<SqlBackend.Call>)
    requires SqlHistory.IsDisciplinedRun(states, steps) && k <= |steps| && RunsAs(states, steps, i, m, k, calls)
    ensures var batch := SqlBackend.RecordsOf(SqlBackend.Last(calls).claims);
            && |batch| == |states[k].calls[i].claimed|
            && forall a | 0 <= a < |batch| :: batch[a].info.id == states[k].calls[i].claimed[a].id
  {
    var course := CallIsLoop(states, steps, i, m, k);
    var env := EnvUpTo(states, steps, i, k);
    SqlBackend.WholeCallIsUnique(RequestOf(states[k].calls[i]), env, states[m].rows, calls, course);
  }

  /** Step `m` takes the row of the call's claim at position `a`. */
  predicate TakesAt(states: seq<SqlRace.System>, steps: seq<SqlRace.Step>, i: nat, a: nat, id: TaskId, m: nat) {
    && m < |steps| && m < |states| && SqlRace.Takes(states[m], steps[m]) && steps[m].call == i
    && |states[m].calls[i].claimed| == a && SqlHistory.HeadId(states[m].calls[i]) == id
  }

  lemma TakenNow(s: SqlRace.System, step: SqlRace.Step, s': SqlRace.System, i: nat, a: nat)
    requires s.tickets.Keys == s.rows.Keys && SqlRace.Next(s, step, s') && i < |s'.calls| && a < |s'.calls[i].claimed|
    ensures (i < |s.calls| && a < |s.calls[i].claimed| && s'.calls[i].claimed[a] == s.calls[i].claimed[a])
            || (SqlRace.Takes(s, step) && step.call == i && |s.calls[i].claimed| == a
                && SqlHistory.HeadId(s.calls[i]) == s'.calls[i].claimed[a].id)
  {
    if !IsTurn(step, i) {
      if i < |s.calls| {
        OtherStepsKeepCall(s, step, s', i);
      }
    } else if step.List? {
      ListTakesNone(s, step, s');
    } else {
      TryTakesOne(s, step, s');
    }
  }

  lemma ListTakesNone(s: SqlRace.System, step: SqlRace.Step, s': SqlRace.System)
    requires s.tickets.Keys == s.rows.Keys && SqlRace.Next(s, step, s') && step.List?
    ensures step.call < |s.calls| && step.call < |s'.calls|
    ensures s'.calls[step.call].claimed == s.calls[step.call].claimed
  {
    var c := s.calls[step.call];
    var ids := ListDueTaskIds(s.rows, c.group, step.now, c.scan, step.tie);
    SqlRace.AfterTryOnly(SqlRace.Relisted(s, c, ids, step.now));
  }

  lemma TryTakesOne(s: SqlRace.System, step: SqlRace.Step, s': SqlRace.System)
    requires s.tickets.Keys == s.rows.Keys && SqlRace.Next(s, step, s') && step.Try?
    ensures step.call < |s.calls| && step.call < |s'.calls|
    ensures var c, c' := s.calls[step.call], s'.calls[step.call];
            if SqlRace.Takes(s, step)
            then |c'.claimed| == |c.claimed| + 1 && c'.claimed[..|c.claimed|] == c.claimed
                 && c'.claimed[|c.claimed|].id == SqlHistory.HeadId(c)
            else c'.claimed == c.claimed
  {
    var c := s.calls[step.call];
    if SqlRace.Takes(s, step) {
      var id := SqlHistory.HeadId(c);
      SqlRace.AfterTryOnly(SqlRace.Claimed(c, SqlRace.Ticket(id, s.tickets[id])));
    } else {
      SqlRace.AfterTryOnly(SqlRace.Passed(c, step.locked));
    }
  }

  lemma {:induction false} ClaimWasTaken(states: seq<SqlRace.System>, steps: seq<SqlRace.Step>, k: nat, i: nat, a: nat)
    returns (m: nat)
    requires SqlRace.IsRun(states, steps) && k < |states| && i < |states[k].calls|
    requires a < |states[k].calls[i].claimed|
    ensures m < k && TakesAt(states, steps, i, a, states[k].calls[i].claimed[a].id, m)
    decreases k
  {
    TakenNow(states[k - 1], steps[k - 1], states[k], i, a);
    if i < |states[k - 1].calls| && a < |states[k - 1].calls[i].claimed|
       && states[k].calls[i].claimed[a] == states[k - 1].calls[i].claimed[a] {
      m := ClaimWasTaken(states, steps, k - 1, i, a);
    } else {
      m := k - 1;
    }
  }

  lemma ClaimsApart(states: seq<SqlRace.System>, steps: seq<SqlRace.Step>, k: nat, i: nat, a: nat, j: nat, b: nat)
    returns (l: nat)
    requires SqlHistory.IsDisciplinedRun(states, steps) && k < |states|
    requires i < |states[k].calls| && j < |states[k].calls|
    requires a < |states[k].calls[i].claimed| && b < |states[k].calls[j].claimed| && (i != j || a != b)
    requires states[k].calls[i].claimed[a].id == states[k].calls[j].claimed[b].id
    ensures l < k && Requeues(SqlHistory.EventOf(states[l], steps[l]).op, states[k].calls[i].claimed[a].id)
  {
    var m := ClaimWasTaken(states, steps, k, i, a);
    var n := ClaimWasTaken(states, steps, k, j, b);
    if m < n {
      SqlHistory.NoTaskClaimedTwice(states, steps, m, n);
      l :| m < l < n && Requeues(SqlHistory.EventOf(states[l], steps[l]).op, states[k].calls[i].claimed[a].id);
    } else {
      SqlHistory.NoTaskClaimedTwice(states, steps, n, m);
      l :| n < l < m && Requeues(SqlHistory.EventOf(states[l], steps[l]).op, states[k].calls[i].claimed[a].id);
    }
  }

  /**
   Loops run side by side hand out a task once: if two batches, or two places of one
   batch, hold the same task, then some step retried, restored or discarded it.
   */
  lemma BatchesApart(states: seq<SqlRace.System>, steps: seq<SqlRace.Step>, k: nat, i: nat, m: nat,
                     x: seq<SqlBackend.Call>, a: nat, j: nat, n: nat, y: seq<SqlBackend.Call>, b: nat)
    returns (l: nat)
    requires SqlHistory.IsDisciplinedRun(states, steps) && k <= |steps|
    requires RunsAs(states, steps, i, m, k, x) && RunsAs(states, steps, j, n, k, y) && (i != j || a != b)
    requires a < |SqlBackend.Last(x).claims| && b < |SqlBackend.Last(y).claims|
    requires SqlBackend.RecordsOf(SqlBackend.Last(x).claims)[a].info.id
          == SqlBackend.RecordsOf(SqlBackend.Last(y).claims)[b].info.id
    ensures l < k && l < |steps|
    ensures Requeues(SqlHistory.EventOf(states[l], steps[l]).op, SqlBackend.Last(x).claims[a].Id())
  {
    LoopReturnsClaimed(states, steps, i, m, k, x);
    LoopReturnsClaimed(states, steps, j, n, k, y);
    assert SqlBackend.RecordsOf(SqlBackend.Last(x).claims)[a].info.id == SqlBackend.Last(x).claims[a].Id();
    l := ClaimsApart(states, steps, k, i, a, j, b);
  }
}
