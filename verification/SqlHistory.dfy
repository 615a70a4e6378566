/**
 Whole runs of interleaved SQL claim calls. Each transaction is a step of the task
 lifecycle, so its whole-run theorems hold of the rows; a batch that falls short leaves
 nothing behind but locked rows; and a claim takes a due row unless the row was
 written again since the listing.
 */
module SqlHistory {
  import opened Tasks
  import opened Lifecycle
  import opened SqlRows
  import opened SqlRace

  // ---- the rows follow the lifecycle ----

  /** What a transaction is to the lifecycle; one that takes no row claims nothing. */
  function EventOf(s: System, step: Step): Event {
    match step
    case Begin(group, worker, limit) => Event(AssignTasks(group, worker, limit, 0), [])
    case List(i, now, _) =>
      if i < |s.calls| then Event(AssignTasks(s.calls[i].group, s.calls[i].worker, s.calls[i].limit, now), [])
      else Event(PutTasks([]), [])
    case Try(i, now, _) =>
      if i < |s.calls|
      then Event(AssignTasks(s.calls[i].group, s.calls[i].worker, 1, now),
                 if Takes(s, step) then [Claim(s.rows[HeadId(s.calls[i])].record, now)] else [])
      else Event(PutTasks([]), [])
    case Other(op) => Event(op, [])
  }

  function HeadId(c: Call): TaskId
    requires c.pos < |c.listing|
  {
    c.listing[c.pos].id
  }

  /** Taking an unstarted row stages it for the call's worker. */
  lemma TakeStages(rows: Rows, id: TaskId, worker: WorkerId, now: Timestamp)
    requires SqlRows.Inv(rows) && id in rows && rows[id].began.None?
    ensures var rows', claims := UpdateAssignment(rows, id, worker, now), [Claim(rows[id].record, now)];
            && SqlRows.Inv(rows')
            && IsTaking(View(rows), claims) && IsStaging(View(rows), worker, claims, View(rows'))
  {
    var claims := [Claim(rows[id].record, now)];
    assert claims[0].Id() == id && ClaimedIds(claims) == {id};
  }

  lemma NothingTaken(b: Board, worker: WorkerId)
    ensures IsTaking(b, []) && IsStaging(b, worker, [], b)
  {
    assert ClaimedIds([]) == {};
  }

  lemma StepIsMove(s: System, step: Step, s': System)
    requires s.tickets.Keys == s.rows.Keys && SqlRace.Next(s, step, s') && SqlRows.Inv(s.rows)
    requires step.Other? ==> Disciplined(View(s.rows), step.op)
    ensures SqlRows.Inv(s'.rows)
    ensures Disciplined(View(s.rows), EventOf(s, step).op) && Moves(View(s.rows), EventOf(s, step), View(s'.rows))
  {
    match step
    case Begin(_, worker, _) => NothingTaken(View(s.rows), worker);
    case List(i, _, _) => NothingTaken(View(s.rows), s.calls[i].worker);
    case Try(i, now, _) =>
      NothingTaken(View(s.rows), s.calls[i].worker);
      if Takes(s, step) {
        TakeStages(s.rows, HeadId(s.calls[i]), s.calls[i].worker, now);
      }
    case Other(op) => SqlRows.Simulates(s.rows, op);
  }

  /** Apart from the claims, the backend is used as it asks to be. */
  ghost predicate IsDisciplinedRun(states: seq<System>, steps: seq<Step>) {
    && SqlRace.IsRun(states, steps) && SqlRows.Inv(states[0].rows)
    && forall i | 0 <= i < |steps| && steps[i].Other? && SqlRows.Inv(states[i].rows) ::
         Disciplined(View(states[i].rows), steps[i].op)
  }

  lemma StepStaysCoherent(states: seq<System>, steps: seq<Step>, k: nat)
    requires IsDisciplinedRun(states, steps) && k < |steps| && SqlRows.Inv(states[k].rows)
    ensures SqlRows.Inv(states[k + 1].rows)
  {
    StepIsMove(states[k], steps[k], states[k + 1]);
  }

  /** However the transactions interleave, a done row stays begun and the rows encode a table. */
  lemma {:induction false} RowsStayCoherent(states: seq<System>, steps: seq<Step>, k: nat)
    requires IsDisciplinedRun(states, steps) && k < |states|
    ensures SqlRows.Inv(states[k].rows)
  {
    if k > 0 {
      RowsStayCoherent(states, steps, k - 1);
      StepStaysCoherent(states, steps, k - 1);
    }
  }

  /** Every run of interleaved transactions is a history of the lifecycle. */
  lemma RunRefines(states: seq<System>, steps: seq<Step>) returns (boards: seq<Board>, events: seq<Event>)
    requires IsDisciplinedRun(states, steps)
    ensures IsHistory(boards, events) && |events| == |steps|
    ensures forall i | 0 <= i < |states| :: SqlRows.Inv(states[i].rows) && boards[i] == View(states[i].rows)
    ensures forall i | 0 <= i < |steps| :: events[i] == EventOf(states[i], steps[i])
  {
    forall i | 0 <= i < |states| ensures SqlRows.Inv(states[i].rows) {
      RowsStayCoherent(states, steps, i);
    }
    boards := seq(|states|, i requires 0 <= i < |states| => View(states[i].rows));
    events := seq(|steps|, i requires 0 <= i < |steps| => EventOf(states[i], steps[i]));
    forall i | 0 <= i < |events|
      ensures Disciplined(boards[i], events[i].op) && Moves(boards[i], events[i], boards[i + 1])
    {
      StepIsMove(states[i], steps[i], states[i + 1]);
    }
  }

  /** So no task is handed out twice, by whichever calls, unless something put it back in between. */
  lemma NoTaskClaimedTwice(states: seq<System>, steps: seq<Step>, i: nat, j: nat)
    requires IsDisciplinedRun(states, steps) && i < j < |steps|
    requires Takes(states[i], steps[i]) && Takes(states[j], steps[j])
    requires HeadId(states[i].calls[steps[i].call]) == HeadId(states[j].calls[steps[j].call])
    ensures exists k :: i < k < j && Requeues(EventOf(states[k], steps[k]).op, HeadId(states[i].calls[steps[i].call]))
  {
    var id := HeadId(states[i].calls[steps[i].call]);
    var boards, events := RunRefines(states, steps);
    TakenIsClaimed(states[i], steps[i], events[i]);
    TakenIsClaimed(states[j], steps[j], events[j]);
    NoDoubleClaim(boards, events, id, i, j);
    var k :| i < k < j && Requeues(events[k].op, id);
    assert events[k] == EventOf(states[k], steps[k]);
  }

  lemma TakenIsClaimed(s: System, step: Step, e: Event)
    requires SqlRows.Inv(s.rows) && Takes(s, step) && e == EventOf(s, step)
    ensures HeadId(s.calls[step.call]) in ClaimedIds(e.claims)
  {
    assert e.claims[0].Id() == HeadId(s.calls[step.call]);
  }

  // ---- short batches ----

  lemma AfterKeepsPass(s: System, c: Call)
    requires s.tickets.Keys == s.rows.Keys && PassOk(s, c) && c.phase == Trying
    ensures PassOk(s, AfterTry(c))
  {
    var c' := AfterTry(c);
    assert forall id :: Waiting(s, c', id) <==> Waiting(s, c, id);
  }

  lemma ShortListingCovers(s: System, c: Call, ids: seq<TaskId>, now: Timestamp, id: TaskId)
    requires s.tickets.Keys == s.rows.Keys && forall p | 0 <= p < |ids| :: ids[p] in s.tickets
    requires forall i | i in DueIds(s.rows, c.group, now) :: i in ids
    requires Waiting(s, Relisted(s, c, ids, now), id)
    ensures Ticket(id, s.tickets[id]) in Relisted(s, c, ids, now).listing
  {
    assert id in DueIds(s.rows, c.group, now);
    var p :| 0 <= p < |ids| && ids[p] == id;
    assert Relisted(s, c, ids, now).listing[p] == Ticket(id, s.tickets[id]);
  }

  lemma RelistedPass(s: System, c: Call, ids: seq<TaskId>, now: Timestamp)
    requires SqlRace.Inv(s) && forall p | 0 <= p < |ids| :: ids[p] in s.tickets
    requires |ids| < c.scan ==> forall i | i in DueIds(s.rows, c.group, now) :: i in ids
    ensures PassOk(s, Relisted(s, c, ids, now))
  {
    var c' := Relisted(s, c, ids, now);
    forall t | t in c'.listing ensures t.number < c'.freshFrom {
      var p :| 0 <= p < |c'.listing| && c'.listing[p] == t;
    }
    if |ids| < c.scan {
      forall id | Waiting(s, c', id) ensures Ticket(id, s.tickets[id]) in c'.listing {
        ShortListingCovers(s, c, ids, now, id);
      }
    }
  }

  lemma ListKeepsPass(s: System, c: Call, now: Timestamp, tie: TaskId -> nat, ids: seq<TaskId>)
    requires SqlRace.Inv(s) && ids == ListDueTaskIds(s.rows, c.group, now, c.scan, tie)
    requires forall p | 0 <= p < |ids| :: ids[p] in s.tickets
    ensures PassOk(s, AfterTry(Relisted(s, c, ids, now)))
  {
    ListingIs(s.rows, c.group, now, c.scan, tie);
    RelistedPass(s, c, ids, now);
    AfterKeepsPass(s, Relisted(s, c, ids, now));
  }

  /** Rows only move on: what was spent stays spent, and what waits has waited. */
  ghost predicate MovesOn(s: System, s': System) {
    && s.tickets.Keys == s.rows.Keys && s'.tickets.Keys == s'.rows.Keys && s.next <= s'.next
    && forall id | id in s'.rows ::
         if id in s.rows && s'.tickets[id] == s.tickets[id]
         then s'.rows[id].record == s.rows[id].record && (s.rows[id].began.Some? ==> s'.rows[id].began.Some?)
         else s'.tickets[id] >= s.next
  }

  lemma StepMovesOn(s: System, step: Step, s': System)
    requires SqlRace.Inv(s) && SqlRace.Next(s, step, s')
    ensures MovesOn(s, s')
  {
  }

  lemma MovingKeepsPass(s: System, s': System, c: Call)
    requires SqlRace.Inv(s) && MovesOn(s, s') && PassOk(s, c)
    ensures PassOk(s', c)
  {
    forall p | 0 <= p < c.pos ensures c.listing[p] in c.locked || Spent(s', c.listing[p]) {
      assert c.listing[p] in c.locked || Spent(s, c.listing[p]);
    }
    forall id | Waiting(s', c, id) ensures Waiting(s, c, id) && s'.tickets[id] == s.tickets[id] {
    }
  }

  lemma SameRowsPass(s: System, s': System, c: Call)
    requires s.tickets.Keys == s.rows.Keys && s'.rows == s.rows && s'.tickets == s.tickets && s'.next == s.next
    requires PassOk(s, c)
    ensures PassOk(s', c)
  {
    forall p | 0 <= p < c.pos ensures c.listing[p] in c.locked || Spent(s', c.listing[p]) {
      assert c.listing[p] in c.locked || Spent(s, c.listing[p]);
    }
    assert forall id :: Waiting(s', c, id) <==> Waiting(s, c, id);
  }

  lemma ClaimedPass(s: System, c: Call, t: Ticket)
    requires s.tickets.Keys == s.rows.Keys && PassOk(s, c) && c.pos < |c.listing| && Spent(s, c.listing[c.pos])
    requires c.phase == Trying
    ensures PassOk(s, Claimed(c, t))
  {
    assert forall id :: Waiting(s, Claimed(c, t), id) <==> Waiting(s, c, id);
  }

  lemma PassedPass(s: System, c: Call, locked: bool)
    requires s.tickets.Keys == s.rows.Keys && PassOk(s, c) && c.pos < |c.listing|
    requires locked || Spent(s, c.listing[c.pos])
    requires c.phase == Trying
    ensures PassOk(s, Passed(c, locked))
  {
    assert forall id :: Waiting(s, Passed(c, locked), id) <==> Waiting(s, c, id);
  }

  /** A ticket whose row is gone, begun or renewed at its try is spent. */
  lemma TriedIsSpent(s: System, c: Call)
    requires SqlRace.Inv(s) && PassOk(s, c) && c.pos < |c.listing|
    requires HeadId(c) !in s.rows || s.rows[HeadId(c)].began.Some? || s.tickets[HeadId(c)] != c.listing[c.pos].number
    ensures Spent(s, c.listing[c.pos])
  {
    assert c.listing[c.pos] in c.listing;
  }

  lemma TryKeepsPass(s: System, step: Step, s': System)
    requires SqlRace.Inv(s) && step.Try? && SqlRace.Next(s, step, s') && PassOk(s, s.calls[step.call])
    ensures SqlRace.Inv(s') && PassOk(s', s'.calls[step.call])
  {
    SqlRace.StepKeepsInv(s, step, s');
    StepMovesOn(s, step, s');
    var c := s.calls[step.call];
    MovingKeepsPass(s, s', c);
    if Takes(s, step) {
      TriedIsSpent(s', c);
      ClaimedPass(s', c, Ticket(HeadId(c), s.tickets[HeadId(c)]));
      AfterKeepsPass(s', Claimed(c, Ticket(HeadId(c), s.tickets[HeadId(c)])));
    } else {
      if !step.locked {
        TriedIsSpent(s', c);
      }
      PassedPass(s', c, step.locked);
      AfterKeepsPass(s', Passed(c, step.locked));
    }
  }

  lemma StepKeepsPass(s: System, step: Step, s': System, i: nat)
    requires SqlRace.Inv(s) && SqlRace.Next(s, step, s') && i < |s'.calls| && (i < |s.calls| ==> PassOk(s, s.calls[i]))
    ensures PassOk(s', s'.calls[i])
  {
    SqlRace.StepKeepsInv(s, step, s');
    StepMovesOn(s, step, s');
    if step.Try? && step.call == i {
      TryKeepsPass(s, step, s');
    } else if step.List? && step.call == i {
      var c := s.calls[i];
      var ids := ListDueTaskIds(s.rows, c.group, step.now, c.scan, step.tie);
      ListKeepsPass(s, c, step.now, step.tie, ids);
      SameRowsPass(s, s', s'.calls[i]);
    } else if i < |s.calls| {
      MovingKeepsPass(s, s', s.calls[i]);
    }
  }

  ghost predicate PassesOk(s: System) {
    SqlRace.Inv(s) && forall i | 0 <= i < |s.calls| :: PassOk(s, s.calls[i])
  }

  lemma StepKeepsPasses(s: System, step: Step, s': System)
    requires PassesOk(s) && SqlRace.Next(s, step, s')
    ensures PassesOk(s')
  {
    SqlRace.StepKeepsInv(s, step, s');
    forall i | 0 <= i < |s'.calls| ensures PassOk(s', s'.calls[i]) {
      StepKeepsPass(s, step, s', i);
    }
  }

  lemma {:induction false} RunKeepsPasses(states: seq<System>, steps: seq<Step>, k: nat)
    requires SqlRace.IsRun(states, steps) && k < |states|
    ensures PassesOk(states[k])
  {
    if k > 0 {
      RunKeepsPasses(states, steps, k - 1);
      StepKeepsPasses(states[k - 1], steps[k - 1], states[k]);
    }
  }

  /**
   Whatever the others do, puts, retries and restores included: after a call returned
   with a short batch, the rows of its group that were due and runnable at its last
   listing and still wait are exactly those that were locked when it tried them.
   */
  lemma ShortBatchLeavesLocked(states: seq<System>, steps: seq<Step>, k: nat, i: nat, id: TaskId)
    requires SqlRace.IsRun(states, steps) && k < |states| && i < |states[k].calls|
    requires states[k].calls[i].phase == Returned && |states[k].calls[i].claimed| < states[k].calls[i].limit
    ensures var s, c := states[k], states[k].calls[i];
            && s.tickets.Keys == s.rows.Keys
            && (Waiting(s, c, id) <==>
                  id in s.rows && s.rows[id].began.None? && Ticket(id, s.tickets[id]) in c.locked)
  {
    RunKeepsPasses(states, steps, k);
    var s, c := states[k], states[k].calls[i];
    assert CallOk(s, c);
    if Waiting(s, c, id) {
      var p :| 0 <= p < |c.listing| && c.listing[p] == Ticket(id, s.tickets[id]);
      assert c.listing[p] in c.locked || Spent(s, c.listing[p]);
    }
    if id in s.rows && s.rows[id].began.None? && Ticket(id, s.tickets[id]) in c.locked {
      assert StillDue(s, c, Ticket(id, s.tickets[id]));
    }
  }

  /** The step is a locked try of the ticket by the call. */
  predicate LockedTry(s: System, step: Step, i: nat, t: Ticket) {
    && step.Try? && step.call == i && step.locked && i < |s.calls|
    && s.calls[i].pos < |s.calls[i].listing| && s.calls[i].listing[s.calls[i].pos] == t
  }

  lemma LockedBefore(s: System, step: Step, s': System, i: nat, t: Ticket)
    requires s.tickets.Keys == s.rows.Keys && SqlRace.Next(s, step, s') && i < |s'.calls| && t in s'.calls[i].locked
    ensures LockedTry(s, step, i, t) || (i < |s.calls| && t in s.calls[i].locked)
  {
    if step.List? && step.call == i {
      ListForgetsLocked(s, step, s');
    } else if step.Try? && step.call == i {
      TryAddsLocked(s, step, s', t);
    }
  }

  lemma ListForgetsLocked(s: System, step: Step, s': System)
    requires s.tickets.Keys == s.rows.Keys && SqlRace.Next(s, step, s') && step.List?
    ensures step.call < |s'.calls| && s'.calls[step.call].locked == {}
  {
    var c := s.calls[step.call];
    AfterTryOnly(Relisted(s, c, ListDueTaskIds(s.rows, c.group, step.now, c.scan, step.tie), step.now));
  }

  lemma TryAddsLocked(s: System, step: Step, s': System, t: Ticket)
    requires s.tickets.Keys == s.rows.Keys && SqlRace.Next(s, step, s') && step.Try?
    ensures step.call < |s.calls| && step.call < |s'.calls|
    ensures t in s'.calls[step.call].locked ==> LockedTry(s, step, step.call, t) || t in s.calls[step.call].locked
  {
    var c := s.calls[step.call];
    if Takes(s, step) {
      AfterTryOnly(Claimed(c, Ticket(HeadId(c), s.tickets[HeadId(c)])));
    } else {
      AfterTryOnly(Passed(c, step.locked));
    }
  }

  /** A ticket recorded as locked was locked at a try of this call. */
  lemma {:induction false} LockedWasLocked(states: seq<System>, steps: seq<Step>, k: nat, i: nat, t: Ticket)
    returns (m: nat)
    requires SqlRace.IsRun(states, steps) && k < |states| && i < |states[k].calls| && t in states[k].calls[i].locked
    ensures m < k && LockedTry(states[m], steps[m], i, t)
    decreases k
  {
    LockedBefore(states[k - 1], steps[k - 1], states[k], i, t);
    if LockedTry(states[k - 1], steps[k - 1], i, t) {
      m := k - 1;
    } else {
      m := LockedWasLocked(states, steps, k - 1, i, t);
    }
  }

  // ---- was it due? ----

  /** The step stores a new record for the id: a retry, or a put of an id nobody has. */
  predicate Writes(s: System, step: Step, id: TaskId) {
    step.Other? &&
      match step.op
      case RetryTask(r) => r.info.id == id
      case PutTasks(rs) => id !in s.rows && exists i :: 0 <= i < |rs| && rs[i].info.id == id
      case _ => false
  }

  lemma {:induction false} UpsertAllIs(rows: Rows, rs: seq<TaskRecord>, id: TaskId)
    ensures id in rows ==> id in UpsertAll(rows, rs) && UpsertAll(rows, rs)[id] == rows[id]
    ensures id in UpsertAll(rows, rs) <==> id in rows || exists i :: 0 <= i < |rs| && rs[i].info.id == id
  {
    if rs != [] {
      UpsertAllIs(rows, rs[..|rs| - 1], id);
      assert forall i | 0 <= i < |rs| - 1 :: rs[..|rs| - 1][i] == rs[i];
    }
  }

  lemma StepKeepsRecord(s: System, step: Step, s': System, id: TaskId)
    requires s.tickets.Keys == s.rows.Keys && SqlRace.Next(s, step, s')
    ensures Writes(s, step, id) ==> id in s'.rows
    ensures !Writes(s, step, id) && id in s'.rows ==> id in s.rows && s'.rows[id].record == s.rows[id].record
  {
    if step.Other? {
      ExecKeepsRecord(s, step, id);
    }
  }

  lemma ExecKeepsRecord(s: System, step: Step, id: TaskId)
    requires step.Other? && !step.op.AssignTasks?
    ensures var rows' := Exec(s.rows, step.op);
            && (Writes(s, step, id) ==> id in rows')
            && (!Writes(s, step, id) && id in rows' ==> id in s.rows && rows'[id].record == s.rows[id].record)
  {
    if step.op.PutTasks? {
      UpsertAllIs(s.rows, step.op.records, id);
    }
  }

  lemma {:induction false} RecordSince(states: seq<System>, steps: seq<Step>, id: TaskId, m: nat, k: nat)
    requires SqlRace.IsRun(states, steps) && m <= k < |states| && id in states[k].rows
    requires forall j | m <= j < k :: !Writes(states[j], steps[j], id)
    ensures id in states[m].rows && states[m].rows[id].record == states[k].rows[id].record
    decreases k
  {
    if m < k {
      StepKeepsRecord(states[k - 1], steps[k - 1], states[k], id);
      RecordSince(states, steps, id, m, k - 1);
    }
  }

  /** Since step `m`, which listed for the call, it has not listed again. */
  predicate ListedAtStep(states: seq<System>, steps: seq<Step>, i: nat, m: nat, k: nat) {
    && m < k <= |steps| && steps[m].List? && steps[m].call == i
    && forall j | m < j < k :: !(steps[j].List? && steps[j].call == i)
  }

  /** The call still works on what was listed from these rows at `now`. */
  ghost predicate WorksOn(c: Call, group: Group, rows: Rows, now: Timestamp) {
    c.group == group && c.listedAt == now && forall t | t in c.listing :: t.id in DueIds(rows, group, now)
  }

  lemma JustListed(s: System, step: Step, s': System)
    requires s.tickets.Keys == s.rows.Keys && step.List? && SqlRace.Next(s, step, s')
    ensures step.call < |s.calls| && step.call < |s'.calls|
    ensures WorksOn(s'.calls[step.call], s.calls[step.call].group, s.rows, step.now)
  {
    var c := s.calls[step.call];
    RelistedWorksOn(s, c, ListDueTaskIds(s.rows, c.group, step.now, c.scan, step.tie), step.now, step.tie);
  }

  lemma RelistedWorksOn(s: System, c: Call, ids: seq<TaskId>, now: Timestamp, tie: TaskId -> nat)
    requires ids == ListDueTaskIds(s.rows, c.group, now, c.scan, tie)
    requires forall p | 0 <= p < |ids| :: ids[p] in s.tickets
    ensures WorksOn(AfterTry(Relisted(s, c, ids, now)), c.group, s.rows, now)
  {
    var c' := AfterTry(Relisted(s, c, ids, now));
    ListingIs(s.rows, c.group, now, c.scan, tie);
    forall t | t in c'.listing ensures t.id in DueIds(s.rows, c.group, now) {
      var p :| 0 <= p < |c'.listing| && c'.listing[p] == t;
    }
  }

  lemma StepKeepsListing(s: System, step: Step, s': System, i: nat)
    requires s.tickets.Keys == s.rows.Keys && SqlRace.Next(s, step, s')
    requires i < |s.calls| && !(step.List? && step.call == i)
    ensures i < |s'.calls| && s'.calls[i].listing == s.calls[i].listing
    ensures s'.calls[i].listedAt == s.calls[i].listedAt && s'.calls[i].group == s.calls[i].group
  {
  }

  ghost predicate CallWorksOn(s: System, i: nat, group: Group, rows: Rows, now: Timestamp) {
    i < |s.calls| && WorksOn(s.calls[i], group, rows, now)
  }

  lemma {:induction false} WorksOnFrom(states: seq<System>, i: nat, group: Group, rows: Rows, now: Timestamp, m: nat,
                                       k: nat)
    requires m <= k < |states| && CallWorksOn(states[m], i, group, rows, now)
    requires forall j | m <= j < k ::
               CallWorksOn(states[j], i, group, rows, now) ==> CallWorksOn(states[j + 1], i, group, rows, now)
    ensures CallWorksOn(states[k], i, group, rows, now)
    decreases k
  {
    if m < k {
      WorksOnFrom(states, i, group, rows, now, m, k - 1);
    }
  }

  lemma ListingStays(states: seq<System>, steps: seq<Step>, i: nat, m: nat, k: nat)
    requires SqlRace.IsRun(states, steps) && ListedAtStep(states, steps, i, m, k)
    ensures i < |states[m].calls| && CallWorksOn(states[k], i, states[m].calls[i].group, states[m].rows, steps[m].now)
  {
    JustListed(states[m], steps[m], states[m + 1]);
    var group, rows, now := states[m].calls[i].group, states[m].rows, steps[m].now;
    forall j | m < j < k
      ensures CallWorksOn(states[j], i, group, rows, now) ==> CallWorksOn(states[j + 1], i, group, rows, now)
    {
      if CallWorksOn(states[j], i, group, rows, now) {
        StepKeepsListing(states[j], steps[j], states[j + 1], i);
      }
    }
    WorksOnFrom(states, i, group, rows, now, m + 1, k);
  }

  predicate IsDueFor(c: Call, r: TaskRecord) {
    r.info.group == c.group && r.info.due < c.listedAt
  }

  /** Step `j` is the last before `k` to store a record for the id. */
  predicate LastWrite(states: seq<System>, steps: seq<Step>, id: TaskId, j: nat, k: nat) {
    && j < k <= |steps| && k <= |states| && Writes(states[j], steps[j], id)
    && forall l | j < l < k :: !Writes(states[l], steps[l], id)
  }

  lemma {:induction false} FindLastWrite(states: seq<System>, steps: seq<Step>, id: TaskId, m: nat, k: nat)
    returns (j: Option<nat>)
    requires m <= k <= |steps| && k <= |states|
    ensures j.Some? ==> m <= j.value && LastWrite(states, steps, id, j.value, k)
    ensures j.None? ==> forall l | m <= l < k :: !Writes(states[l], steps[l], id)
    decreases k
  {
    if m == k {
      j := None;
    } else if Writes(states[k - 1], steps[k - 1], id) {
      j := Some(k - 1);
    } else {
      j := FindLastWrite(states, steps, id, m, k - 1);
    }
  }

  /**
   The row a call takes is of its group and was due at its listing exactly if the last
   retry of the task, or the last put after a discard, since that listing (if there was
   one) stored such a record. Restores make no difference.
   */
  lemma TakenRowIsDue(states: seq<System>, steps: seq<Step>, m: nat, k: nat)
    requires SqlRace.IsRun(states, steps) && k < |steps| && Takes(states[k], steps[k])
    requires ListedAtStep(states, steps, steps[k].call, m, k)
    ensures var c := states[k].calls[steps[k].call];
            var id := HeadId(c);
            && c.listedAt == steps[m].now
            && (IsDueFor(c, states[k].rows[id].record) <==>
                  forall j | m < j < k && LastWrite(states, steps, id, j, k) ::
                    id in states[j + 1].rows && IsDueFor(c, states[j + 1].rows[id].record))
  {
    var i := steps[k].call;
    var c := states[k].calls[i];
    var id := HeadId(c);
    ListingStays(states, steps, i, m, k);
    assert c.listing[c.pos] in c.listing;
    var j := FindLastWrite(states, steps, id, m + 1, k);
    match j
    case Some(w) =>
      RecordSince(states, steps, id, w + 1, k);
      forall l | m < l < k && LastWrite(states, steps, id, l, k) ensures l == w {
      }
    case None =>
      RecordSince(states, steps, id, m + 1, k);
      StepKeepsRecord(states[m], steps[m], states[m + 1], id);
  }
}
