/**
 Any number of SQL claim calls interleaved one transaction at a time with every other
 operation on the table, including retries, restores, discards and repeated puts.
 Each time a row becomes runnable it is given a fresh ticket number, so a claim is
 identified by its id and ticket.
 */
module SqlRace {
  import opened Tasks
  import opened Ordering
  import opened Lifecycle
  import opened SqlRows

  datatype Ticket = Ticket(id: TaskId, number: nat)

  datatype Phase = Listing | Trying | Returned

  /**
   One `assign_tasks` call in progress. Only for the theorems it records which tickets
   of its listing were locked when tried, and the next ticket number at the listing.
   */
  datatype Call = Call(
    group: Group,
    worker: WorkerId,
    limit: nat,
    scan: nat,
    listing: seq<Ticket>,
    listedAt: Timestamp,
    pos: nat,
    claimed: seq<Ticket>,
    phase: Phase,
    locked: set<Ticket>,
    freshFrom: nat
  )

  datatype System = System(rows: Rows, tickets: map<TaskId, nat>, next: nat, calls: seq<Call>)

  datatype Step =
    | Begin(group: Group, worker: WorkerId, limit: nat)
    | List(call: nat, now: Timestamp, tie: TaskId -> nat)
    | Try(call: nat, now: Timestamp, locked: bool)
    | Other(op: Op)

  function TicketsOf(s: System, ids: seq<TaskId>): (ts: seq<Ticket>)
    requires forall i | 0 <= i < |ids| :: ids[i] in s.tickets
    ensures |ts| == |ids| && forall i | 0 <= i < |ts| :: ts[i] == Ticket(ids[i], s.tickets[ids[i]])
  {
    seq(|ids|, i requires 0 <= i < |ids| => Ticket(ids[i], s.tickets[ids[i]]))
  }

  function Relisted(s: System, c: Call, ids: seq<TaskId>, now: Timestamp): Call
    requires forall i | 0 <= i < |ids| :: ids[i] in s.tickets
  {
    c.(listing := TicketsOf(s, ids), listedAt := now, pos := 0, phase := Trying, locked := {}, freshFrom := s.next)
  }

  function Claimed(c: Call, t: Ticket): Call {
    c.(pos := c.pos + 1, claimed := c.claimed + [t])
  }

  function Passed(c: Call, locked: bool): Call
    requires c.pos < |c.listing|
  {
    c.(pos := c.pos + 1, locked := c.locked + if locked then {c.listing[c.pos]} else {})
  }

  /** The try finds its row unlocked and not begun. */
  predicate Takes(s: System, step: Step) {
    && step.Try? && step.call < |s.calls| && s.calls[step.call].pos < |s.calls[step.call].listing|
    && var id := s.calls[step.call].listing[s.calls[step.call].pos].id;
       !step.locked && id in s.rows && s.rows[id].began.None?
  }

  /** The end of a pass: return when the batch is full or the listing was short, else widen. */
  function AfterTry(c: Call): Call {
    if |c.claimed| == c.limit then c.(phase := Returned)
    else if c.pos < |c.listing| then c
    else if |c.listing| < c.scan then c.(phase := Returned)
    else c.(phase := Listing, scan := c.scan * 2)
  }

  lemma AfterTryOnly(c: Call)
    ensures var c' := AfterTry(c);
            && c'.group == c.group && c'.worker == c.worker && c'.limit == c.limit && c'.locked == c.locked
            && c'.listing == c.listing && c'.pos == c.pos && c'.claimed == c.claimed && c'.listedAt == c.listedAt
  {
  }

  /** Rows that became runnable in a step get fresh tickets; the rest keep theirs. */
  ghost predicate Retickets(s: System, rows': Rows, s': System)
    requires s.tickets.Keys == s.rows.Keys
  {
    && s'.rows == rows' && s'.calls == s.calls && s'.next >= s.next && s'.tickets.Keys == rows'.Keys
    && forall id | id in rows' ::
         if id in s.rows && rows'[id].record == s.rows[id].record && (s.rows[id].began.Some? ==> rows'[id].began.Some?)
         then s'.tickets[id] == s.tickets[id]
         else s.next <= s'.tickets[id] < s'.next
  }

  ghost predicate Next(s: System, step: Step, s': System)
    requires s.tickets.Keys == s.rows.Keys
  {
    match step
    case Begin(group, worker, limit) =>
      s' == s.(calls := s.calls + [Call(group, worker, limit, if limit >= 8 then limit else 8, [], 0, 0, [],
                                        if limit == 0 then Returned else Listing, {}, 0)])
    case List(i, now, tie) =>
      && i < |s.calls| && s.calls[i].phase == Listing
      && var c, ids := s.calls[i], ListDueTaskIds(s.rows, s.calls[i].group, now, s.calls[i].scan, tie);
         && (forall k | 0 <= k < |ids| :: ids[k] in s.rows)
         && s' == s.(calls := s.calls[i := AfterTry(Relisted(s, c, ids, now))])
    case Try(i, now, locked) =>
      && i < |s.calls| && s.calls[i].phase == Trying && s.calls[i].pos < |s.calls[i].listing|
      && var c := s.calls[i];
         var id := c.listing[c.pos].id;
         if Takes(s, step)
         then s' == s.(rows := UpdateAssignment(s.rows, id, c.worker, now),
                       calls := s.calls[i := AfterTry(Claimed(c, Ticket(id, s.tickets[id])))])
         else s' == s.(calls := s.calls[i := AfterTry(Passed(c, locked))])
    case Other(op) => !op.AssignTasks? && Retickets(s, Exec(s.rows, op), s')
  }

  /** A ticket a call holds is spent: its row has been started, or has moved on. */
  predicate Spent(s: System, t: Ticket)
    requires s.tickets.Keys == s.rows.Keys
  {
    t.number < s.next && (t.id in s.rows && s.tickets[t.id] == t.number ==> s.rows[t.id].began.Some?)
  }

  /** A listed ticket still current is still a row of the group that was due at the listing. */
  predicate StillDue(s: System, c: Call, t: Ticket)
    requires s.tickets.Keys == s.rows.Keys
  {
    t.number < s.next
    && (t.id in s.rows && s.tickets[t.id] == t.number ==>
          s.rows[t.id].record.info.group == c.group && s.rows[t.id].record.info.due < c.listedAt)
  }

  /** The row could be listed by this call, and became runnable before its listing. */
  predicate Waiting(s: System, c: Call, id: TaskId)
    requires s.tickets.Keys == s.rows.Keys
  {
    && id in s.rows && s.rows[id].began.None? && s.tickets[id] < c.freshFrom
    && s.rows[id].record.info.group == c.group && s.rows[id].record.info.due < c.listedAt
  }

  predicate CallOk(s: System, c: Call)
    requires s.tickets.Keys == s.rows.Keys
  {
    && (forall t | t in c.claimed :: Spent(s, t))
    && (forall t | t in c.listing :: StillDue(s, c, t))
    && (forall a, b | 0 <= a < b < |c.claimed| :: c.claimed[a] != c.claimed[b])
    && |c.claimed| <= c.limit && (c.phase != Returned ==> |c.claimed| < c.limit)
  }

  /** A pass leaves tickets that are spent or were locked, and nothing unlisted if its listing was short. */
  ghost predicate PassOk(s: System, c: Call)
    requires s.tickets.Keys == s.rows.Keys
  {
    && c.pos <= |c.listing| && c.freshFrom <= s.next
    && (c.phase == Returned ==> |c.claimed| == c.limit || c.pos == |c.listing| < c.scan)
    && (forall t | t in c.locked :: t in c.listing)
    && (forall t | t in c.listing :: t.number < c.freshFrom)
    && (forall p | 0 <= p < c.pos :: c.listing[p] in c.locked || Spent(s, c.listing[p]))
    && (c.phase != Listing && |c.listing| < c.scan ==>
          forall id | Waiting(s, c, id) :: Ticket(id, s.tickets[id]) in c.listing)
  }

  ghost predicate Inv(s: System) {
    && s.tickets.Keys == s.rows.Keys
    && (forall id | id in s.tickets :: s.tickets[id] < s.next)
    && (forall i | 0 <= i < |s.calls| :: CallOk(s, s.calls[i]))
    && (forall i, j, t | 0 <= i < j < |s.calls| && t in s.calls[i].claimed :: t !in s.calls[j].claimed)
  }

  lemma ListedStillDue(s: System, c: Call, now: Timestamp, tie: TaskId -> nat)
    requires Inv(s)
    ensures var ids := ListDueTaskIds(s.rows, c.group, now, c.scan, tie);
            forall k | 0 <= k < |ids| ::
              ids[k] in s.rows && StillDue(s, c.(listedAt := now), Ticket(ids[k], s.tickets[ids[k]]))
  {
    ListingIs(s.rows, c.group, now, c.scan, tie);
  }

  lemma ReplaceCall(s: System, i: nat, c: Call)
    requires Inv(s) && i < |s.calls| && CallOk(s, c) && c.claimed == s.calls[i].claimed
    ensures Inv(s.(calls := s.calls[i := c]))
  {
    var s' := s.(calls := s.calls[i := c]);
    forall j | 0 <= j < |s'.calls| ensures CallOk(s', s'.calls[j]) {
      if j == i {
        SameRows(s, s', c);
      } else {
        SameRows(s, s', s.calls[j]);
      }
    }
  }

  lemma SameRows(s: System, s': System, c: Call)
    requires s.tickets.Keys == s.rows.Keys && CallOk(s, c)
    requires s'.rows == s.rows && s'.tickets == s.tickets && s'.next == s.next
    ensures CallOk(s', c)
  {
    forall t | t in c.claimed ensures Spent(s', t) {
      assert Spent(s, t);
    }
    forall t | t in c.listing ensures StillDue(s', c, t) {
      assert StillDue(s, c, t);
    }
  }

  lemma ListKeepsInv(s: System, step: Step, s': System)
    requires Inv(s) && step.List? && Next(s, step, s')
    ensures Inv(s')
  {
    var c, c' := s.calls[step.call], s'.calls[step.call];
    assert CallOk(s, c);
    ListedStillDue(s, c, step.now, step.tie);
    forall t | t in c'.listing ensures StillDue(s, c', t) {
      var k :| 0 <= k < |c'.listing| && c'.listing[k] == t;
    }
    ReplaceCall(s, step.call, c');
  }

  lemma ClaimKeepsOthers(s: System, c: Call, id: TaskId, worker: WorkerId, now: Timestamp)
    requires Inv(s) && CallOk(s, c) && id in s.rows
    ensures CallOk(s.(rows := UpdateAssignment(s.rows, id, worker, now)), c)
  {
    var s' := s.(rows := UpdateAssignment(s.rows, id, worker, now));
    forall t | t in c.claimed ensures Spent(s', t) {
      assert Spent(s, t);
    }
    forall t | t in c.listing ensures StillDue(s', c, t) {
      assert StillDue(s, c, t);
    }
  }

  /** A runnable row's current ticket is in no call's claims, and taking it upsets none of them. */
  lemma ClaimIsNew(s: System, i: nat, id: TaskId, worker: WorkerId, now: Timestamp)
    requires Inv(s) && i < |s.calls| && id in s.rows && s.rows[id].began.None?
    ensures Ticket(id, s.tickets[id]) !in s.calls[i].claimed
    ensures CallOk(s.(rows := UpdateAssignment(s.rows, id, worker, now)), s.calls[i])
  {
    assert CallOk(s, s.calls[i]);
    ClaimKeepsOthers(s, s.calls[i], id, worker, now);
  }

  lemma ClaimedOk(s: System, c: Call, t: Ticket)
    requires s.tickets.Keys == s.rows.Keys && CallOk(s, c) && Spent(s, t) && t !in c.claimed
    requires c.phase == Trying && c.pos < |c.listing|
    ensures CallOk(s, AfterTry(c.(pos := c.pos + 1, claimed := c.claimed + [t])))
  {
  }

  lemma TakeKeepsInv(s: System, step: Step, s': System)
    requires Inv(s) && step.Try? && Next(s, step, s')
    requires var c := s.calls[step.call]; var id := c.listing[c.pos].id;
             !step.locked && id in s.rows && s.rows[id].began.None?
    ensures Inv(s')
  {
    var c := s.calls[step.call];
    var id := c.listing[c.pos].id;
    var taken, mid := Ticket(id, s.tickets[id]), s.(rows := UpdateAssignment(s.rows, id, c.worker, step.now));
    forall i | 0 <= i < |s.calls| ensures taken !in s.calls[i].claimed && CallOk(mid, s.calls[i]) {
      ClaimIsNew(s, i, id, c.worker, step.now);
    }
    assert CallOk(mid, c);
    ClaimedOk(mid, c, taken);
    forall i | 0 <= i < |s'.calls| ensures CallOk(s', s'.calls[i]) {
      SameRows(mid, s', s'.calls[i]);
    }
  }

  lemma TryKeepsInv(s: System, step: Step, s': System)
    requires Inv(s) && step.Try? && Next(s, step, s')
    ensures Inv(s')
  {
    var c := s.calls[step.call];
    var id := c.listing[c.pos].id;
    if !step.locked && id in s.rows && s.rows[id].began.None? {
      TakeKeepsInv(s, step, s');
    } else {
      assert CallOk(s, c);
      ReplaceCall(s, step.call, s'.calls[step.call]);
    }
  }

  lemma OtherKeepsInv(s: System, step: Step, s': System)
    requires Inv(s) && step.Other? && Next(s, step, s')
    ensures Inv(s')
  {
    forall i | 0 <= i < |s'.calls| ensures CallOk(s', s'.calls[i]) {
      var c := s.calls[i];
      assert CallOk(s, c);
      forall t | t in c.claimed ensures Spent(s', t) {
        assert Spent(s, t);
      }
      forall t | t in c.listing ensures StillDue(s', c, t) {
        assert StillDue(s, c, t);
      }
    }
  }

  lemma StepKeepsInv(s: System, step: Step, s': System)
    requires Inv(s) && Next(s, step, s')
    ensures Inv(s')
  {
    match step
    case Begin(_, _, _) =>
      forall i | 0 <= i < |s'.calls| ensures CallOk(s', s'.calls[i]) {
        if i < |s.calls| {
          assert CallOk(s, s.calls[i]);
        }
      }
    case List(_, _, _) => ListKeepsInv(s, step, s');
    case Try(_, _, _) => TryKeepsInv(s, step, s');
    case Other(_) => OtherKeepsInv(s, step, s');
  }

  ghost predicate IsRun(states: seq<System>, steps: seq<Step>) {
    && |states| == |steps| + 1
    && Inv(states[0]) && states[0].calls == []
    && forall i | 0 <= i < |steps| ::
         states[i].tickets.Keys == states[i].rows.Keys && Next(states[i], steps[i], states[i + 1])
  }

  lemma {:induction false} RunKeepsInv(states: seq<System>, steps: seq<Step>, k: nat)
    requires IsRun(states, steps) && k < |states|
    ensures Inv(states[k])
  {
    if k > 0 {
      RunKeepsInv(states, steps, k - 1);
      StepKeepsInv(states[k - 1], steps[k - 1], states[k]);
    }
  }

  /** However the transactions interleave, no runnable row is returned by two calls, or twice by one. */
  lemma NoRowClaimedTwice(states: seq<System>, steps: seq<Step>, k: nat, i: nat, a: nat, j: nat, b: nat)
    requires IsRun(states, steps) && k < |states| && i < |states[k].calls| && j < |states[k].calls|
    requires a < |states[k].calls[i].claimed| && b < |states[k].calls[j].claimed|
    requires states[k].calls[i].claimed[a] == states[k].calls[j].claimed[b]
    ensures i == j && a == b
  {
    RunKeepsInv(states, steps, k);
    assert CallOk(states[k], states[k].calls[i]) && CallOk(states[k], states[k].calls[j]);
    assert states[k].calls[i].claimed[a] in states[k].calls[i].claimed;
    assert states[k].calls[j].claimed[b] in states[k].calls[j].claimed;
  }

  function NewCall(group: Group, worker: WorkerId): Call {
    Call(group, worker, 1, 8, [], 0, 0, [], Listing, {}, 0)
  }

  function Listed(group: Group, worker: WorkerId, id: TaskId): Call {
    NewCall(group, worker).(listing := [Ticket(id, 0)], phase := Trying, freshFrom := 1)
  }

  function Later(r: TaskRecord): TaskRecord {
    TaskRecord(r.info.(due := 1000, scheduled := None, retryCount := r.info.retryCount + 1), r.data)
  }

  /** Two calls list the same row, one claims it, its worker retries it, the other claims the retry. */
  function EarlyClaim(r: TaskRecord, k: nat): System {
    var id, group := r.info.id, r.info.group;
    var rows, tickets := map[id := FromRecord(r)], map[id := 0];
    var claimed := Listed(group, "v", id).(pos := 1, claimed := [Ticket(id, 0)], phase := Returned);
    var retried := map[id := FromRecord(Later(r))];
    if k == 0 then System(rows, tickets, 1, [])
    else if k == 1 then System(rows, tickets, 1, [NewCall(group, "w")])
    else if k == 2 then System(rows, tickets, 1, [Listed(group, "w", id)])
    else if k == 3 then System(rows, tickets, 1, [Listed(group, "w", id), NewCall(group, "v")])
    else if k == 4 then System(rows, tickets, 1, [Listed(group, "w", id), Listed(group, "v", id)])
    else if k == 5 then System(UpdateAssignment(rows, id, "v", 0), tickets, 1, [Listed(group, "w", id), claimed])
    else if k == 6 then System(retried, map[id := 1], 2, [Listed(group, "w", id), claimed])
    else System(UpdateAssignment(retried, id, "w", 1), map[id := 1], 2,
                [Listed(group, "w", id).(pos := 1, claimed := [Ticket(id, 1)], phase := Returned), claimed])
  }

  function EarlySteps(r: TaskRecord): seq<Step> {
    var tie := (i: TaskId) => 0;
    [Begin(r.info.group, "w", 1), List(0, 0, tie), Begin(r.info.group, "v", 1), List(1, 0, tie), Try(1, 0, false),
     Other(RetryTask(Later(r))), Try(0, 1, false)]
  }

  lemma EarlyBegin(r: TaskRecord, k: nat)
    requires k == 0 || k == 2
    ensures Next(EarlyClaim(r, k), EarlySteps(r)[k], EarlyClaim(r, k + 1))
  {
  }

  lemma FirstListing(r: TaskRecord, k: nat)
    requires r.info.due < 0 && k == 1
    ensures Next(EarlyClaim(r, k), EarlySteps(r)[k], EarlyClaim(r, k + 1))
  {
    ListsOne(r, [NewCall(r.info.group, "w")], 0, "w");
  }

  lemma SecondListing(r: TaskRecord, k: nat)
    requires r.info.due < 0 && k == 3
    ensures Next(EarlyClaim(r, k), EarlySteps(r)[k], EarlyClaim(r, k + 1))
  {
    ListsOne(r, [Listed(r.info.group, "w", r.info.id), NewCall(r.info.group, "v")], 1, "v");
  }

  lemma ListsOne(r: TaskRecord, calls: seq<Call>, n: nat, worker: WorkerId)
    requires r.info.due < 0 && n < |calls| && calls[n] == NewCall(r.info.group, worker)
    ensures var s := System(map[r.info.id := FromRecord(r)], map[r.info.id := 0], 1, calls);
            Next(s, List(n, 0, (i: TaskId) => 0), s.(calls := calls[n := Listed(r.info.group, worker, r.info.id)]))
  {
    var s := System(map[r.info.id := FromRecord(r)], map[r.info.id := 0], 1, calls);
    OneRowListing(r, 0, (i: TaskId) => 0);
    assert TicketsOf(s, [r.info.id]) == [Ticket(r.info.id, 0)];
  }

  lemma FirstTry(r: TaskRecord, k: nat)
    requires k == 4
    ensures Next(EarlyClaim(r, k), EarlySteps(r)[k], EarlyClaim(r, k + 1))
  {
    var s, s' := EarlyClaim(r, k), EarlyClaim(r, k + 1);
    var c := s.calls[1];
    assert c.claimed + [Ticket(r.info.id, 0)] == [Ticket(r.info.id, 0)];
    assert AfterTry(c.(pos := 1, claimed := c.claimed + [Ticket(r.info.id, 0)])) == s'.calls[1];
    assert s'.calls == s.calls[1 := s'.calls[1]];
  }

  lemma EarlyRetry(r: TaskRecord, k: nat)
    requires k == 5
    ensures Next(EarlyClaim(r, k), EarlySteps(r)[k], EarlyClaim(r, k + 1))
  {
    assert Exec(EarlyClaim(r, k).rows, RetryTask(Later(r))) == EarlyClaim(r, k + 1).rows;
  }

  lemma SecondTry(r: TaskRecord, k: nat)
    requires k == 6
    ensures Next(EarlyClaim(r, k), EarlySteps(r)[k], EarlyClaim(r, k + 1))
  {
    var s, s' := EarlyClaim(r, k), EarlyClaim(r, k + 1);
    var c := s.calls[0];
    assert c.claimed + [Ticket(r.info.id, 1)] == [Ticket(r.info.id, 1)];
    assert AfterTry(c.(pos := 1, claimed := c.claimed + [Ticket(r.info.id, 1)])) == s'.calls[0];
    assert s'.calls == s.calls[0 := s'.calls[0]];
  }

  lemma EarlyStep(r: TaskRecord, k: nat)
    requires r.info.due < 0 && k < 7
    ensures EarlyClaim(r, k).tickets.Keys == EarlyClaim(r, k).rows.Keys
    ensures Next(EarlyClaim(r, k), EarlySteps(r)[k], EarlyClaim(r, k + 1))
  {
    match k
    case 1 => FirstListing(r, k);
    case 3 => SecondListing(r, k);
    case 4 => FirstTry(r, k);
    case 5 => EarlyRetry(r, k);
    case 6 => SecondTry(r, k);
    case _ => EarlyBegin(r, k);
  }

  /**
   The exception does occur: the claim does not look at the due time again. A row that
   another worker claimed and retried after the listing is claimed at time 1 although
   its retry is due at time 1000.
   */
  lemma RetriedRowIsClaimedEarly(r: TaskRecord) returns (states: seq<System>, steps: seq<Step>)
    requires r.info.due < 0
    ensures IsRun(states, steps) && |steps| == 7 && |states[7].calls| == 2
    ensures |states[6].calls| == 2 && states[6].calls[0].claimed == []
    ensures r.info.id in states[6].rows && states[6].rows[r.info.id].record.info.due == 1000
    ensures steps[6] == Try(0, 1, false) && Takes(states[6], steps[6])
    ensures |states[7].calls[0].claimed| == 1 && states[7].calls[0].claimed[0].id == r.info.id
    ensures r.info.id in states[7].rows && states[7].rows[r.info.id].record.info.due == 1000
  {
    states, steps := seq(8, k requires 0 <= k => EarlyClaim(r, k)), EarlySteps(r);
    forall k | 0 <= k < |steps|
      ensures states[k].tickets.Keys == states[k].rows.Keys && Next(states[k], steps[k], states[k + 1])
    {
      EarlyStep(r, k);
    }
  }
}
