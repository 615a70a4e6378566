/**
 The SQL backends' claim loop: list due ids, then try to claim them one transaction
 at a time. Before each transaction an arbitrary environment may have done anything
 to the rows, and it says what is locked, what the clock reads and how ties sort.
 */
module SqlBackend {
  import opened Tasks
  import opened Ordering
  import opened Lifecycle
  import opened SqlRows

  /** The rest of the world, one choice per transaction of this call. */
  datatype Environment = Environment(
    act: (nat, Rows) -> Rows,
    locked: nat -> bool,
    clock: nat -> Timestamp,
    tie: (nat, TaskId) -> nat
  ) {
    function TieAt(k: nat): TaskId -> nat {
      id => tie(k, id)
    }
  }

  /** The table never outgrows `capacity`. */
  ghost predicate Bounded(env: Environment, capacity: nat) {
    forall k, rows :: |rows| <= capacity ==> |env.act(k, rows)| <= capacity
  }

  function Max(a: nat, b: nat): nat {
    if a >= b then a else b
  }

  /** The listing size of a pass: at least 8, doubled with every pass before it. */
  function ScanOf(limit: nat, pass: nat): (scan: nat)
    ensures scan >= limit && scan > 0
  {
    if pass == 0 then Max(limit, 8) else 2 * ScanOf(limit, pass - 1)
  }

  function Pow2(n: nat): nat {
    if n == 0 then 1 else 2 * Pow2(n - 1)
  }

  lemma {:induction false} ScanDoubles(limit: nat, pass: nat)
    ensures ScanOf(limit, pass) == Max(limit, 8) * Pow2(pass)
  {
    if pass > 0 {
      ScanDoubles(limit, pass - 1);
    }
  }

  // ---- a call, one transaction per turn ----

  datatype Request = Request(group: Group, worker: WorkerId, limit: nat)

  datatype Stage = Listing | Trying | Returned

  /** For the theorems only: the turn of the last listing, the rows it saw, and its ids that were locked when tried. */
  datatype Log = Log(turn: nat, seen: Rows, locked: set<TaskId>)

  /** A call in progress; `scans` are the sizes of the listings made so far. */
  datatype Call = Call(
    rows: Rows,
    stage: Stage,
    scan: nat,
    listing: seq<TaskId>,
    pos: nat,
    claims: seq<Claim>,
    scans: seq<nat>,
    log: Log
  )

  function Begin(q: Request, rows: Rows): Call {
    Call(rows, if q.limit == 0 then Returned else Listing, Max(q.limit, 8), [], 0, [], [], Log(0, map[], {}))
  }

  /** Return when the batch is full or a short listing is used up; widen when a full one is. */
  function Settled(q: Request, c: Call): Call {
    if |c.claims| == q.limit then c.(stage := Returned)
    else if c.pos < |c.listing| then c
    else if |c.listing| < c.scan then c.(stage := Returned)
    else c.(stage := Listing, scan := c.scan * 2)
  }

  function Listed(q: Request, env: Environment, k: nat, c: Call): Call {
    var seen := env.act(k, c.rows);
    c.(rows := seen, stage := Trying, pos := 0,
       listing := ListDueTaskIds(seen, q.group, env.clock(k), c.scan, env.TieAt(k)),
       scans := c.scans + [c.scan], log := Log(k, seen, {}))
  }

  function Tried(q: Request, env: Environment, k: nat, c: Call): Call
    requires c.pos < |c.listing|
  {
    var seen, id := env.act(k, c.rows), c.listing[c.pos];
    var c' := c.(rows := seen, pos := c.pos + 1);
    if env.locked(k) then c'.(log := c.log.(locked := c.log.locked + {id}))
    else if id in seen && seen[id].began.None?
    then c'.(rows := UpdateAssignment(seen, id, q.worker, env.clock(k)),
             claims := c.claims + [Claim(seen[id].record, env.clock(k))])
    else c'
  }

  /** The transaction a call makes at its `k`-th turn. */
  function Turn(q: Request, env: Environment, k: nat, c: Call): Call {
    if c.stage == Listing then Settled(q, Listed(q, env, k, c))
    else if c.stage == Trying && c.pos < |c.listing| then Settled(q, Tried(q, env, k, c))
    else c
  }

  /** The states of a call, turn by turn, up to its return at the latest. */
  ghost predicate IsCallRun(q: Request, env: Environment, rows: Rows, calls: seq<Call>) {
    && |calls| > 0 && calls[0] == Begin(q, rows)
    && forall k | 0 <= k < |calls| - 1 :: calls[k].stage != Returned && calls[k + 1] == Turn(q, env, k, calls[k])
  }

  function Last(calls: seq<Call>): Call
    requires |calls| > 0
  {
    calls[|calls| - 1]
  }

  ghost predicate IsWholeCall(q: Request, env: Environment, rows: Rows, calls: seq<Call>) {
    IsCallRun(q, env, rows, calls) && Last(calls).stage == Returned
  }

  lemma {:induction false} CallsAgree(q: Request, env: Environment, rows: Rows, a: seq<Call>, b: seq<Call>, k: nat)
    requires IsCallRun(q, env, rows, a) && IsCallRun(q, env, rows, b) && k < |a| && k < |b|
    ensures a[k] == b[k]
  {
    if k > 0 {
      CallsAgree(q, env, rows, a, b, k - 1);
    }
  }

  /** A call has only one course. */
  lemma WholeCallIsUnique(q: Request, env: Environment, rows: Rows, a: seq<Call>, b: seq<Call>)
    requires IsWholeCall(q, env, rows, a) && IsWholeCall(q, env, rows, b)
    ensures a == b
  {
    CallsAgree(q, env, rows, a, b, Min(|a|, |b|) - 1);
    assert |a| == |b|;
    forall k | 0 <= k < |a| ensures a[k] == b[k] {
      CallsAgree(q, env, rows, a, b, k);
    }
  }

  class Sql {
    var rows: Rows

    constructor ()
      ensures rows == map[]
    {
      rows := map[];
    }

    method Apply(op: Op)
      requires !op.AssignTasks?
      modifies this
      ensures rows == Exec(old(rows), op)
    {
      match op {
        case PutTasks(records) =>
          for i := 0 to |records|
            invariant rows == UpsertAll(old(rows), records[..i])
          {
            assert records[..i + 1][..i] == records[..i];
            rows := Upsert(rows, records[i]);
          }
          assert records[..|records|] == records;
        case RetryTask(record) =>
          rows := rows - {record.info.id};
          rows := Upsert(rows, record);
        case DiscardTasks(ids) =>
          rows := rows - set id | id in ids;
        case Finish(record, outcome, now) =>
          var id := record.info.id;
          var began := if id in rows && rows[id].began.Some? then rows[id].began.value else now;
          match outcome {
            case Succeeded(result) =>
              rows := UpdateDone(rows, id, began, now, Some(result), None, now + record.info.ttl);
            case Failed(message) =>
              rows := UpdateDone(rows, id, began, now, None, Some(message), now + record.info.ttl);
          }
        case Restore(id) =>
          rows := ClearBegan(rows, id);
      }
    }

    /** Widens the listing until the batch is full or the listing is short. */
    method AssignTasks(q: Request, env: Environment, ghost capacity: nat)
      returns (claimed: seq<TaskRecord>, ghost calls: seq<Call>)
      requires |rows| <= capacity && Bounded(env, capacity)
      modifies this
      ensures IsWholeCall(q, env, old(rows), calls)
      ensures rows == Last(calls).rows && claimed == RecordsOf(Last(calls).claims)
    {
      ghost var start := rows;
      calls := [Begin(q, rows)];
      claimed := [];
      if q.limit == 0 {
        return;
      }
      var scan := Max(q.limit, 8);
      var k, over := 0, false;
      while !over
        invariant IsCallRun(q, env, start, calls) && |calls| == k + 1 && scan > 0 && |rows| <= capacity
        invariant if over then IsOver(Last(calls), rows, claimed)
                  else AtListing(Last(calls), rows, scan, claimed) && |claimed| < q.limit
        decreases if over then 0 else 1, capacity - scan
      {
        claimed, k, over, calls := Pass(q, env, scan, claimed, k, start, calls, capacity);
        scan := scan * 2;
      }
    }

    /** One turn of the loop: a listing of up to `scan` ids and a pass over it. */
    method Pass(q: Request, env: Environment, scan: nat, before: seq<TaskRecord>, k: nat,
                ghost start: Rows, ghost calls: seq<Call>, ghost capacity: nat)
      returns (claimed: seq<TaskRecord>, k': nat, over: bool, ghost calls': seq<Call>)
      requires IsCallRun(q, env, start, calls) && |calls| == k + 1 && AtListing(Last(calls), rows, scan, before)
      requires |before| < q.limit && |rows| <= capacity && Bounded(env, capacity)
      modifies this
      ensures IsCallRun(q, env, start, calls') && |calls'| == k' + 1 && |rows| <= capacity
      ensures if over then IsOver(Last(calls'), rows, claimed)
              else AtListing(Last(calls'), rows, scan * 2, claimed) && |claimed| < q.limit && scan <= capacity
    {
      ghost var c := Last(calls);
      calls' := OneTurnMore(q, env, start, calls);
      ListedIs(q, env, k, c);
      rows := env.act(k, rows);
      var pks := ListDueTaskIds(rows, q.group, env.clock(k), scan, env.TieAt(k));
      ListingSize(rows, q.group, env.clock(k), scan, env.TieAt(k));
      c := Listed(q, env, k, c);
      claimed, k', c, calls' := ClaimListed(q, env, pks, before, k + 1, start, c, calls', capacity);
      PassEnds(q, c);
      over := |claimed| == q.limit || |pks| < scan;
    }

    /** One pass over a listing: a transaction per id, until the batch is full. */
    method ClaimListed(q: Request, env: Environment, pks: seq<TaskId>, before: seq<TaskRecord>, k: nat,
                       ghost start: Rows, ghost c: Call, ghost calls: seq<Call>, ghost capacity: nat)
      returns (claimed: seq<TaskRecord>, k': nat, ghost c': Call, ghost calls': seq<Call>)
      requires InPass(c, rows, pks, 0, before) && |before| < q.limit
      requires IsCallRun(q, env, start, calls) && |calls| == k + 1 && Last(calls) == Settled(q, c)
      requires |rows| <= capacity && Bounded(env, capacity)
      modifies this
      ensures |rows| <= capacity && c'.scan == c.scan && |claimed| <= q.limit
      ensures c'.pos <= |pks| && InPass(c', rows, pks, c'.pos, claimed)
      ensures IsCallRun(q, env, start, calls') && |calls'| == k' + 1 && Last(calls') == Settled(q, c')
      ensures |claimed| == q.limit || c'.pos == |pks|
    {
      claimed, k', c', calls' := before, k, c, calls;
      var i := 0;
      while i < |pks|
        invariant i <= |pks| && InPass(c', rows, pks, i, claimed) && |claimed| < q.limit
        invariant IsCallRun(q, env, start, calls') && |calls'| == k' + 1 && Last(calls') == Settled(q, c')
        invariant |rows| <= capacity && c'.scan == c.scan
      {
        TryTurn(q, env, k', c');
        calls' := OneTurnMore(q, env, start, calls');
        TryIsBounded(q, env, k', c', capacity);
        var claim := TryClaim(pks[i], q.worker, k', env);
        TriedPasses(q, env, k', c', claimed);
        c', k', i := Tried(q, env, k', c'), k' + 1, i + 1;
        if claim.Some? {
          claimed := claimed + [claim.value.record];
        }
        if |claimed| == q.limit {
          return;
        }
      }
    }

    /** One transaction: fetch the row unless it is locked, and take it if it has not been started. */
    method TryClaim(pk: TaskId, worker: WorkerId, step: nat, env: Environment) returns (claim: Option<Claim>)
      modifies this
      ensures var seen := env.act(step, old(rows));
              && (claim.Some? <==> !env.locked(step) && pk in seen && seen[pk].began.None?)
              && (claim.Some? ==> claim.value == Claim(seen[pk].record, env.clock(step))
                                  && rows == UpdateAssignment(seen, pk, worker, env.clock(step)))
              && (claim.None? ==> rows == seen)
    {
      rows := env.act(step, rows);
      if !env.locked(step) && pk in rows && rows[pk].began.None? {
        claim := Some(Claim(rows[pk].record, env.clock(step)));
        rows := UpdateAssignment(rows, pk, worker, env.clock(step));
      } else {
        claim := None;
      }
    }

  }

  predicate AtListing(c: Call, rows: Rows, scan: nat, claimed: seq<TaskRecord>) {
    c.stage == Listing && c.rows == rows && c.scan == scan && claimed == RecordsOf(c.claims)
  }

  predicate IsOver(c: Call, rows: Rows, claimed: seq<TaskRecord>) {
    c.stage == Returned && c.rows == rows && claimed == RecordsOf(c.claims)
  }

  predicate InPass(c: Call, rows: Rows, pks: seq<TaskId>, pos: nat, claimed: seq<TaskRecord>) {
    && c.stage == Trying && c.rows == rows && c.listing == pks && c.pos == pos <= |pks|
    && claimed == RecordsOf(c.claims)
  }

  function RecordsOf(claims: seq<Claim>): (records: seq<TaskRecord>)
    ensures |records| == |claims| && forall i | 0 <= i < |claims| :: records[i] == claims[i].record
  {
    seq(|claims|, i requires 0 <= i < |claims| => claims[i].record)
  }

  lemma OneTurnMore(q: Request, env: Environment, rows: Rows, calls: seq<Call>) returns (calls': seq<Call>)
    requires IsCallRun(q, env, rows, calls) && Last(calls).stage != Returned
    ensures IsCallRun(q, env, rows, calls') && |calls'| == |calls| + 1
    ensures Last(calls') == Turn(q, env, |calls| - 1, Last(calls))
  {
    var n, next := |calls|, Turn(q, env, |calls| - 1, Last(calls));
    calls' := calls + [next];
    forall k | 0 <= k < n ensures calls'[k].stage != Returned && calls'[k + 1] == Turn(q, env, k, calls'[k]) {
      assert calls'[k] == calls[k];
      if k < n - 1 {
        assert calls'[k + 1] == calls[k + 1];
      }
    }
  }

  lemma ListedIs(q: Request, env: Environment, k: nat, c: Call)
    ensures var seen := env.act(k, c.rows);
            var pks := ListDueTaskIds(seen, q.group, env.clock(k), c.scan, env.TieAt(k));
            InPass(Listed(q, env, k, c), seen, pks, 0, RecordsOf(c.claims))
    ensures Listed(q, env, k, c).scan == c.scan
  {
  }

  lemma PassEnds(q: Request, c: Call)
    requires c.stage == Trying && |c.claims| <= q.limit && (|c.claims| == q.limit || c.pos == |c.listing|)
    ensures Settled(q, c).rows == c.rows && Settled(q, c).claims == c.claims
    ensures Settled(q, c).stage == if |c.claims| == q.limit || |c.listing| < c.scan then Returned else Listing
    ensures Settled(q, c).stage == Listing ==> Settled(q, c).scan == c.scan * 2
  {
  }

  lemma TryTurn(q: Request, env: Environment, k: nat, c: Call)
    requires c.stage == Trying && c.pos < |c.listing| && |c.claims| < q.limit
    ensures Settled(q, c) == c && Turn(q, env, k, c) == Settled(q, Tried(q, env, k, c))
  {
  }

  lemma TriedPasses(q: Request, env: Environment, k: nat, c: Call, claimed: seq<TaskRecord>)
    requires InPass(c, c.rows, c.listing, c.pos, claimed) && c.pos < |c.listing|
    ensures var seen, id := env.act(k, c.rows), c.listing[c.pos];
            if !env.locked(k) && id in seen && seen[id].began.None?
            then InPass(Tried(q, env, k, c), UpdateAssignment(seen, id, q.worker, env.clock(k)), c.listing, c.pos + 1,
                        claimed + [seen[id].record])
            else InPass(Tried(q, env, k, c), seen, c.listing, c.pos + 1, claimed)
    ensures Tried(q, env, k, c).scan == c.scan
  {
  }

  lemma TryIsBounded(q: Request, env: Environment, k: nat, c: Call, capacity: nat)
    requires c.pos < |c.listing| && |c.rows| <= capacity && Bounded(env, capacity)
    ensures |Tried(q, env, k, c).rows| <= capacity
  {
    var seen, id := env.act(k, c.rows), c.listing[c.pos];
    assert |seen| <= capacity;
    if id in seen {
      assert UpdateAssignment(seen, id, q.worker, env.clock(k)).Keys == seen.Keys;
      assert |seen.Keys| == |seen|;
    }
  }

  lemma ListingSize(rows: Rows, group: Group, now: Timestamp, scan: nat, tie: TaskId -> nat)
    ensures |ListDueTaskIds(rows, group, now, scan, tie)| <= |rows|
  {
    ListingIs(rows, group, now, scan, tie);
    SubsetSize(DueIds(rows, group, now), rows.Keys);
  }
}
