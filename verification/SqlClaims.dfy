/**
 What the SQL claim loop guarantees: with anything at all happening to the rows between
 its transactions, with others that never put rows back, and with nobody else.
 */
module SqlClaims {
  import opened Tasks
  import opened Ordering
  import opened Lifecycle
  import opened SqlRows
  import opened SqlBackend
  import Claiming

  // ---- what holds whatever the others do ----

  predicate SoundPosition(q: Request, c: Call) {
    && c.pos <= |c.listing| && |c.claims| <= q.limit
    && (c.stage != Returned ==> |c.claims| < q.limit)
    && (c.stage == Trying ==> c.pos < |c.listing| && |c.scans| > 0)
    && (c.stage == Returned && |c.claims| < q.limit ==> |c.scans| > 0 && c.pos == |c.listing| < c.scan)
    && (c.stage == Listing && |c.scans| > 0 ==> c.pos == |c.listing| >= c.scans[|c.scans| - 1])
  }

  /** The sizes of the first listings of a call. */
  function ScansOf(limit: nat, passes: nat): (scans: seq<nat>)
    ensures |scans| == passes && forall p | 0 <= p < passes :: scans[p] == ScanOf(limit, p)
  {
    seq(passes, p requires 0 <= p => ScanOf(limit, p))
  }

  predicate SoundScans(q: Request, c: Call) {
    && c.scans == ScansOf(q.limit, |c.scans|)
    && c.scan == ScanOf(q.limit, if c.stage == Listing || |c.scans| == 0 then |c.scans| else |c.scans| - 1)
  }

  lemma ScansGrow(limit: nat, passes: nat)
    ensures ScansOf(limit, passes) + [ScanOf(limit, passes)] == ScansOf(limit, passes + 1)
  {
  }

  predicate LockedAt(env: Environment, log: Log, listing: seq<TaskId>, pos: nat, p: nat, id: TaskId) {
    p < pos && p < |listing| && listing[p] == id && env.locked(log.turn + 1 + p)
  }

  /** What was listed when. */
  predicate SoundListing(q: Request, env: Environment, log: Log, listing: seq<TaskId>, scan: nat) {
    listing == ListDueTaskIds(log.seen, q.group, env.clock(log.turn), scan, env.TieAt(log.turn))
  }

  /** The ids recorded as locked are exactly those whose try met a lock. */
  ghost predicate SoundLog(env: Environment, log: Log, listing: seq<TaskId>, pos: nat) {
    forall id :: id in log.locked <==> exists p :: LockedAt(env, log, listing, pos, p, id)
  }

  predicate SoundTurn(n: nat, c: Call) {
    c.log.turn + 1 + c.pos <= n && (c.stage != Returned ==> n == c.log.turn + 1 + c.pos)
  }

  ghost predicate SoundHistory(q: Request, env: Environment, c: Call) {
    |c.scans| > 0 ==>
      SoundLog(env, c.log, c.listing, c.pos) && SoundListing(q, env, c.log, c.listing, c.scans[|c.scans| - 1])
  }

  ghost predicate Sound(q: Request, env: Environment, n: nat, c: Call) {
    SoundPosition(q, c) && SoundScans(q, c) && SoundHistory(q, env, c) && (|c.scans| > 0 ==> SoundTurn(n, c))
  }

  lemma SettledKeepsPosition(q: Request, c: Call)
    requires c.stage == Trying && c.pos <= |c.listing| && |c.claims| <= q.limit
    requires |c.scans| > 0 && c.scan == c.scans[|c.scans| - 1]
    ensures SoundPosition(q, Settled(q, c))
  {
  }

  lemma SettledKeepsScans(q: Request, c: Call)
    requires c.stage == Trying && |c.scans| > 0 && SoundScans(q, c)
    ensures SoundScans(q, Settled(q, c))
  {
  }

  lemma ListedIsSound(q: Request, env: Environment, k: nat, c: Call)
    requires SoundPosition(q, c) && SoundScans(q, c) && c.stage == Listing
    ensures var c' := Settled(q, Listed(q, env, k, c)); SoundPosition(q, c') && SoundScans(q, c')
  {
    var c' := Listed(q, env, k, c);
    assert SoundScans(q, c') by {
      ScansGrow(q.limit, |c.scans|);
    }
    SettledKeepsPosition(q, c');
    SettledKeepsScans(q, c');
  }

  lemma TriedIsSound(q: Request, env: Environment, k: nat, c: Call)
    requires SoundPosition(q, c) && SoundScans(q, c) && c.stage == Trying
    ensures var c' := Settled(q, Tried(q, env, k, c)); SoundPosition(q, c') && SoundScans(q, c')
  {
    SettledKeepsPosition(q, Tried(q, env, k, c));
    SettledKeepsScans(q, Tried(q, env, k, c));
  }

  lemma TriedIsLogged(q: Request, env: Environment, k: nat, c: Call)
    requires c.pos < |c.listing| && k == c.log.turn + 1 + c.pos && SoundLog(env, c.log, c.listing, c.pos)
    ensures var c' := Tried(q, env, k, c); SoundLog(env, c'.log, c'.listing, c'.pos)
  {
    var c' := Tried(q, env, k, c);
    forall id ensures id in c'.log.locked <==> exists p :: LockedAt(env, c'.log, c'.listing, c'.pos, p, id) {
      LockedGrows(env, c, k, c', id);
    }
  }

  lemma LockedGrows(env: Environment, c: Call, k: nat, c': Call, id: TaskId)
    requires c.pos < |c.listing| && k == c.log.turn + 1 + c.pos
    requires c'.log.turn == c.log.turn && c'.listing == c.listing && c'.pos == c.pos + 1
    requires c'.log.locked == c.log.locked + if env.locked(k) then {c.listing[c.pos]} else {}
    requires id in c.log.locked <==> exists p :: LockedAt(env, c.log, c.listing, c.pos, p, id)
    ensures id in c'.log.locked <==> exists p :: LockedAt(env, c'.log, c'.listing, c'.pos, p, id)
  {
    if id in c.log.locked {
      var p :| LockedAt(env, c.log, c.listing, c.pos, p, id);
      assert LockedAt(env, c'.log, c'.listing, c'.pos, p, id);
    }
    if env.locked(k) && id == c.listing[c.pos] {
      assert LockedAt(env, c'.log, c'.listing, c'.pos, c.pos, id);
    }
    if p: nat :| LockedAt(env, c'.log, c'.listing, c'.pos, p, id) {
      if p < c.pos {
        assert LockedAt(env, c.log, c.listing, c.pos, p, id);
      }
    }
  }

  lemma SettledOnly(q: Request, c: Call)
    ensures var c' := Settled(q, c);
            && c'.log == c.log && c'.listing == c.listing && c'.pos == c.pos && c'.scans == c.scans
            && c'.claims == c.claims && c'.rows == c.rows
  {
  }

  lemma ListTurnIsSound(q: Request, env: Environment, k: nat, c: Call)
    requires Sound(q, env, k, c) && c.stage == Listing
    ensures Sound(q, env, k + 1, Settled(q, Listed(q, env, k, c)))
  {
    ListedIsSound(q, env, k, c);
    SettledOnly(q, Listed(q, env, k, c));
    var c' := Listed(q, env, k, c);
    assert SoundLog(env, c'.log, c'.listing, c'.pos);
    assert SoundListing(q, env, c'.log, c'.listing, c'.scans[|c'.scans| - 1]);
  }

  lemma SameListing(q: Request, env: Environment, c: Call, c': Call)
    requires SoundHistory(q, env, c) && SoundLog(env, c'.log, c'.listing, c'.pos)
    requires c'.listing == c.listing && c'.scans == c.scans && c'.log.turn == c.log.turn && c'.log.seen == c.log.seen
    ensures SoundHistory(q, env, c')
  {
  }

  lemma TriedOnly(q: Request, env: Environment, k: nat, c: Call)
    requires c.pos < |c.listing|
    ensures var c' := Tried(q, env, k, c);
            && c'.listing == c.listing && c'.scans == c.scans && c'.pos == c.pos + 1
            && c'.log.turn == c.log.turn && c'.log.seen == c.log.seen
  {
  }

  lemma TryTurnKeepsHistory(q: Request, env: Environment, k: nat, c: Call, c': Call)
    requires SoundHistory(q, env, c) && |c.scans| > 0 && c.pos < |c.listing| && k == c.log.turn + 1 + c.pos
    requires c' == Settled(q, Tried(q, env, k, c))
    ensures SoundHistory(q, env, c') && c'.log.turn == c.log.turn && c'.pos == c.pos + 1 && c'.scans == c.scans
  {
    var t := Tried(q, env, k, c);
    TriedIsLogged(q, env, k, c);
    TriedOnly(q, env, k, c);
    SettledOnly(q, t);
    SameListing(q, env, c, c');
  }

  lemma TryTurnIsSound(q: Request, env: Environment, k: nat, c: Call, c': Call)
    requires Sound(q, env, k, c) && c.stage == Trying && c' == Settled(q, Tried(q, env, k, c))
    ensures Sound(q, env, k + 1, c')
  {
    TriedIsSound(q, env, k, c);
    TryTurnKeepsHistory(q, env, k, c, c');
    assert SoundPosition(q, c') && SoundScans(q, c');
    assert c'.stage != Listing ==> SoundTurn(k + 1, c');
  }

  lemma TurnIsSound(q: Request, env: Environment, k: nat, c: Call)
    requires Sound(q, env, k, c)
    ensures Sound(q, env, k + 1, Turn(q, env, k, c))
  {
    if c.stage == Listing {
      ListTurnIsSound(q, env, k, c);
    } else if c.stage == Trying {
      TryTurnIsSound(q, env, k, c, Settled(q, Tried(q, env, k, c)));
    }
  }

  /**
   In every state of a call, whatever the others do: the listing sizes have doubled from
   pass to pass, the last listing is what its turn's query gave, its ids were tried in
   order at the turns since, and the call returns only with a full batch or once a
   short listing is used up.
   */
  lemma {:induction false} CallIsSound(q: Request, env: Environment, rows: Rows, calls: seq<Call>, n: nat)
    requires IsCallRun(q, env, rows, calls) && n < |calls|
    ensures Sound(q, env, n, calls[n])
  {
    if n > 0 {
      CallIsSound(q, env, rows, calls, n - 1);
      TurnIsSound(q, env, n - 1, calls[n - 1]);
    }
  }

  lemma ListTurnSaw(q: Request, env: Environment, k: nat, c: Call)
    requires c.stage == Listing
    ensures var c' := Turn(q, env, k, c); c'.log.turn == k && c'.log.seen == env.act(k, c.rows)
  {
    SettledOnly(q, Listed(q, env, k, c));
  }

  lemma OtherTurnSaw(q: Request, env: Environment, k: nat, c: Call)
    requires c.stage != Listing
    ensures var c' := Turn(q, env, k, c); c'.log.turn == c.log.turn && c'.log.seen == c.log.seen && c'.scans == c.scans
  {
    if c.stage == Trying && c.pos < |c.listing| {
      TriedOnly(q, env, k, c);
      SettledOnly(q, Tried(q, env, k, c));
    }
  }

  /** The last listing saw the rows as they stood at its turn. */
  lemma {:induction false} ListingSaw(q: Request, env: Environment, rows: Rows, calls: seq<Call>, n: nat)
    requires IsCallRun(q, env, rows, calls) && n < |calls| && |calls[n].scans| > 0
    ensures var log := calls[n].log;
            log.turn < n && calls[log.turn].stage == Listing && log.seen == env.act(log.turn, calls[log.turn].rows)
  {
    if calls[n - 1].stage == Listing {
      ListTurnSaw(q, env, n - 1, calls[n - 1]);
    } else {
      OtherTurnSaw(q, env, n - 1, calls[n - 1]);
      ListingSaw(q, env, rows, calls, n - 1);
    }
  }

  lemma TryingIsReady(q: Request, env: Environment, rows: Rows, calls: seq<Call>, n: nat)
    requires IsCallRun(q, env, rows, calls) && n < |calls|
    ensures calls[n].stage == Trying ==> calls[n].pos < |calls[n].listing| && |calls[n].scans| > 0
  {
    CallIsSound(q, env, rows, calls, n);
  }

  /** Turn `k` tries the id on these rows. */
  predicate Tries(calls: seq<Call>, k: nat, id: TaskId) {
    && k < |calls| && calls[k].stage == Trying && calls[k].pos < |calls[k].listing|
    && calls[k].listing[calls[k].pos] == id
  }

  function SeenAt(env: Environment, calls: seq<Call>, k: nat): Rows
    requires k < |calls|
  {
    env.act(k, calls[k].rows)
  }

  /** The row can be taken at turn `k`: there, not begun and not locked. */
  predicate IsFree(env: Environment, calls: seq<Call>, k: nat, id: TaskId)
    requires k < |calls|
  {
    !env.locked(k) && id in SeenAt(env, calls, k) && SeenAt(env, calls, k)[id].began.None?
  }

  function ClaimAt(env: Environment, calls: seq<Call>, k: nat, id: TaskId): Claim
    requires k < |calls| && IsFree(env, calls, k, id)
  {
    Claim(SeenAt(env, calls, k)[id].record, env.clock(k))
  }

  lemma TryTurnMoves(q: Request, env: Environment, k: nat, c: Call)
    requires c.stage == Trying && c.pos < |c.listing|
    ensures var c' := Turn(q, env, k, c);
            c'.listing == c.listing && c'.pos == c.pos + 1 && c'.log.turn == c.log.turn && c'.scans == c.scans
  {
    TriedOnly(q, env, k, c);
    SettledOnly(q, Tried(q, env, k, c));
  }

  lemma ListTurnMoves(q: Request, env: Environment, k: nat, c: Call)
    requires c.stage == Listing
    ensures Turn(q, env, k, c).pos == 0 && Turn(q, env, k, c).log.turn == k
  {
    SettledOnly(q, Listed(q, env, k, c));
  }

  predicate TriesAt(calls: seq<Call>, k: nat, listing: seq<TaskId>, p: nat) {
    k < |calls| && calls[k].stage == Trying && calls[k].listing == listing && calls[k].pos == p < |listing|
  }

  /** The turn for the listing's position `p` has come, and has tried it. */
  predicate TriedSince(calls: seq<Call>, turn: nat, listing: seq<TaskId>, p: nat, n: nat) {
    turn + 1 + p < n && TriesAt(calls, turn + 1 + p, listing, p)
  }

  /** Up to turn `n`, the turns since the last listing have tried its ids in order. */
  predicate TriedInOrder(calls: seq<Call>, n: nat)
    requires n < |calls|
  {
    |calls[n].scans| > 0 ==>
      forall p | 0 <= p < calls[n].pos :: TriedSince(calls, calls[n].log.turn, calls[n].listing, p, n)
  }

  predicate TriedInOrderAt(calls: seq<Call>, n: nat) {
    n < |calls| && TriedInOrder(calls, n)
  }

  lemma TryKeepsOrder(q: Request, env: Environment, calls: seq<Call>, n: nat)
    requires n + 1 < |calls| && calls[n + 1] == Turn(q, env, n, calls[n]) && calls[n].stage == Trying
    requires calls[n].pos < |calls[n].listing| && |calls[n].scans| > 0 && SoundTurn(n, calls[n])
    requires TriedInOrder(calls, n)
    ensures TriedInOrder(calls, n + 1)
  {
    TryTurnMoves(q, env, n, calls[n]);
    var m := n + 1;
    var c, c' := calls[n], calls[m];
    forall p | 0 <= p < c'.pos ensures TriedSince(calls, c'.log.turn, c'.listing, p, m) {
      if p < c.pos {
        assert TriedSince(calls, c.log.turn, c.listing, p, n);
      }
    }
  }

  lemma TurnKeepsOrder(q: Request, env: Environment, rows: Rows, calls: seq<Call>, n: nat)
    requires IsCallRun(q, env, rows, calls) && n + 1 < |calls|
    ensures TriedInOrderAt(calls, n) ==> TriedInOrderAt(calls, n + 1)
  {
    CallIsSound(q, env, rows, calls, n);
    if calls[n].stage == Listing {
      ListTurnMoves(q, env, n, calls[n]);
    } else if TriedInOrderAt(calls, n) {
      TryKeepsOrder(q, env, calls, n);
    }
  }

  lemma {:induction false} OrderFrom(calls: seq<Call>, n: nat)
    requires TriedInOrderAt(calls, 0)
    requires forall k | 0 <= k < n :: TriedInOrderAt(calls, k) ==> TriedInOrderAt(calls, k + 1)
    ensures TriedInOrderAt(calls, n)
  {
    if n > 0 {
      OrderFrom(calls, n - 1);
    }
  }

  /** The turns since the listing have tried its ids in order. */
  lemma TurnsTryInOrder(q: Request, env: Environment, rows: Rows, calls: seq<Call>, n: nat, p: nat)
    requires IsCallRun(q, env, rows, calls) && n < |calls| && |calls[n].scans| > 0 && p < calls[n].pos
    ensures calls[n].log.turn + 1 + p < n
    ensures TriesAt(calls, calls[n].log.turn + 1 + p, calls[n].listing, p)
  {
    forall k | 0 <= k < n ensures TriedInOrderAt(calls, k) ==> TriedInOrderAt(calls, k + 1) {
      TurnKeepsOrder(q, env, rows, calls, k);
    }
    OrderFrom(calls, n);
    assert TriedSince(calls, calls[n].log.turn, calls[n].listing, p, n);
  }

  /** A turn adds the claim of the row it tries, if that is free, and no other. */
  lemma TurnClaims(q: Request, env: Environment, calls: seq<Call>, k: nat)
    requires k + 1 < |calls| && calls[k + 1] == Turn(q, env, k, calls[k]) && calls[k].stage != Returned
    requires calls[k].stage == Trying ==> calls[k].pos < |calls[k].listing|
    ensures calls[k + 1].claims == calls[k].claims + (
              if calls[k].stage == Trying && IsFree(env, calls, k, calls[k].listing[calls[k].pos])
              then [ClaimAt(env, calls, k, calls[k].listing[calls[k].pos])]
              else [])
  {
    if calls[k].stage == Listing {
      SettledOnly(q, Listed(q, env, k, calls[k]));
    } else {
      SettledOnly(q, Tried(q, env, k, calls[k]));
    }
  }

  lemma {:induction false} ClaimsGrow(calls: seq<Call>, k: nat, n: nat)
    requires k <= n < |calls| && forall j | k <= j < n :: calls[j].claims <= calls[j + 1].claims
    ensures calls[k].claims <= calls[n].claims
    decreases n
  {
    if k < n {
      ClaimsGrow(calls, k, n - 1);
      assert calls[n - 1].claims <= calls[n].claims;
    }
  }

  lemma TurnsKeepClaims(q: Request, env: Environment, rows: Rows, calls: seq<Call>, k: nat, n: nat)
    requires IsCallRun(q, env, rows, calls) && k <= n < |calls|
    ensures calls[k].claims <= calls[n].claims
  {
    forall j | k <= j < n ensures calls[j].claims <= calls[j + 1].claims {
      TryingIsReady(q, env, rows, calls, j);
      TurnClaims(q, env, calls, j);
    }
    ClaimsGrow(calls, k, n);
  }

  /** A row that is free when tried is claimed, with the record it had and the time of the try. */
  lemma FreeIsClaimed(q: Request, env: Environment, rows: Rows, calls: seq<Call>, k: nat, n: nat, id: TaskId)
    requires IsCallRun(q, env, rows, calls) && k < n < |calls| && Tries(calls, k, id) && IsFree(env, calls, k, id)
    ensures ClaimAt(env, calls, k, id) in calls[n].claims
  {
    TurnClaims(q, env, calls, k);
    TurnsKeepClaims(q, env, rows, calls, k + 1, n);
    var m := |calls[k].claims|;
    assert calls[k + 1].claims[m] == ClaimAt(env, calls, k, id) && calls[n].claims[m] == calls[k + 1].claims[m];
  }

  /** And nothing else is: each claim was made at a turn that found its row free. */
  lemma {:induction false} ClaimedWasFree(q: Request, env: Environment, rows: Rows, calls: seq<Call>, n: nat, m: nat)
    returns (k: nat, id: TaskId)
    requires IsCallRun(q, env, rows, calls) && n < |calls| && m < |calls[n].claims|
    ensures k < n && Tries(calls, k, id) && IsFree(env, calls, k, id)
    ensures calls[n].claims[m] == ClaimAt(env, calls, k, id)
    decreases n
  {
    assert n > 0;
    TryingIsReady(q, env, rows, calls, n - 1);
    TurnClaims(q, env, calls, n - 1);
    if m < |calls[n - 1].claims| {
      k, id := ClaimedWasFree(q, env, rows, calls, n - 1, m);
    } else {
      k, id := n - 1, calls[n - 1].listing[calls[n - 1].pos];
    }
  }

  lemma ShortBatchTried(q: Request, env: Environment, rows: Rows, calls: seq<Call>, id: TaskId) returns (k: nat)
    requires IsWholeCall(q, env, rows, calls) && |Last(calls).claims| < q.limit && id in Last(calls).listing
    ensures Last(calls).log.turn < k < |calls| - 1 && Tries(calls, k, id)
  {
    var n, c := |calls| - 1, Last(calls);
    CallIsSound(q, env, rows, calls, n);
    UsedUp(q, c);
    var p: nat :| p < |c.listing| && c.listing[p] == id;
    k := c.log.turn + 1 + p;
    TurnsTryInOrder(q, env, rows, calls, n, p);
  }

  /**
   Whatever the others do, a short batch means that every row the last listing could
   have found was tried in that pass, and was then locked, gone, begun or claimed.
   */
  lemma ShortBatchTriedAll(q: Request, env: Environment, rows: Rows, calls: seq<Call>, id: TaskId) returns (k: nat)
    requires IsWholeCall(q, env, rows, calls) && |Last(calls).claims| < q.limit
    requires id in DueIds(Last(calls).log.seen, q.group, env.clock(Last(calls).log.turn))
    ensures id in Last(calls).listing && Last(calls).log.turn < k < |calls| - 1 && Tries(calls, k, id)
    ensures var seen := SeenAt(env, calls, k);
            || env.locked(k) || id !in seen || seen[id].began.Some?
            || Claim(seen[id].record, env.clock(k)) in Last(calls).claims
  {
    var n := |calls| - 1;
    assert id in Last(calls).listing by {
      CallIsSound(q, env, rows, calls, n);
      UsedUpCovers(q, env, n, Last(calls), id);
    }
    k := ShortBatchTried(q, env, rows, calls, id);
    if IsFree(env, calls, k, id) {
      FreeIsClaimed(q, env, rows, calls, k, n, id);
    }
  }

  lemma UsedUp(q: Request, c: Call)
    requires SoundPosition(q, c) && SoundScans(q, c) && c.stage == Returned && |c.claims| < q.limit
    ensures |c.scans| > 0 && c.pos == |c.listing| < c.scans[|c.scans| - 1]
  {
  }

  lemma UsedUpCovers(q: Request, env: Environment, n: nat, c: Call, id: TaskId)
    requires Sound(q, env, n, c) && c.stage == Returned && |c.claims| < q.limit
    ensures id in DueIds(c.log.seen, q.group, env.clock(c.log.turn)) ==> id in c.listing
  {
    UsedUp(q, c);
    ListingIs(c.log.seen, q.group, env.clock(c.log.turn), c.scans[|c.scans| - 1], env.TieAt(c.log.turn));
  }

  /** A pass is repeated only if the due rows it could list were at least as many as it asked for. */
  lemma RepeatedPassWasFull(q: Request, env: Environment, rows: Rows, calls: seq<Call>, n: nat)
    requires IsCallRun(q, env, rows, calls) && n < |calls| && calls[n].stage == Listing && |calls[n].scans| > 0
    ensures var c := calls[n];
            ScanOf(q.limit, |c.scans| - 1) <= |DueIds(c.log.seen, q.group, env.clock(c.log.turn))|
  {
    var c := calls[n];
    CallIsSound(q, env, rows, calls, n);
    ListingIs(c.log.seen, q.group, env.clock(c.log.turn), c.scans[|c.scans| - 1], env.TieAt(c.log.turn));
  }

  // ---- others that claim, finish, discard and lock ----

  predicate IdsMatch(rows: Rows) {
    forall id | id in rows :: rows[id].record.info.id == id
  }

  /** Others started, finished or removed rows, and put none back. */
  predicate OthersClaim(rows: Rows, rows': Rows) {
    && rows'.Keys <= rows.Keys
    && forall id | id in rows' ::
         rows'[id].record == rows[id].record && (rows[id].began.Some? ==> rows'[id].began.Some?)
  }

  predicate PoliteAt(env: Environment, k: nat, rows: Rows) {
    OthersClaim(rows, env.act(k, rows))
  }

  ghost predicate Polite(env: Environment) {
    && (forall k, rows :: PoliteAt(env, k, rows))
    && (forall j, k | j <= k :: env.clock(j) <= env.clock(k))
  }

  /** What the claims made so far are, relative to the rows at the start of the call. */
  ghost predicate Progress(start: Rows, rows: Rows, group: Group, now: Timestamp, claims: seq<Claim>) {
    && OthersClaim(start, rows)
    && (forall i | 0 <= i < |claims| ::
          var id := claims[i].Id();
          && id in start && start[id].began.None? && start[id].record == claims[i].record
          && claims[i].record.info.group == group && claims[i].record.info.due < now
          && (id in rows ==> rows[id].began.Some?))
    && (forall i, j | 0 <= i < j < |claims| :: claims[i].Id() != claims[j].Id())
  }

  /** The row is out of reach of this call: started, gone, or locked when it was tried. */
  predicate Resolved(rows: Rows, locked: set<TaskId>, id: TaskId) {
    id !in rows || rows[id].began.Some? || id in locked
  }

  ghost predicate ListedDue(start: Rows, group: Group, now: Timestamp, pks: seq<TaskId>) {
    forall p | 0 <= p < |pks| :: pks[p] in DueIds(start, group, now)
  }

  /** How a call stands towards the rows it started with, while nobody puts rows back. */
  ghost predicate Fair(q: Request, env: Environment, start: Rows, n: nat, c: Call) {
    && Progress(start, c.rows, q.group, if |c.scans| == 0 then env.clock(0) else env.clock(c.log.turn), c.claims)
    && (|c.scans| > 0 ==>
          && c.log.turn < n && OthersClaim(start, c.log.seen) && OthersClaim(c.log.seen, c.rows)
          && ListedDue(start, q.group, env.clock(c.log.turn), c.listing)
          && (forall p | 0 <= p < c.pos && p < |c.listing| :: Resolved(c.rows, c.log.locked, c.listing[p])))
  }

  lemma SeenByOthers(start: Rows, begin: Rows, was: Rows, seen: Rows, group: Group, now: Timestamp, claims: seq<Claim>)
    requires OthersClaim(begin, was) && OthersClaim(was, seen) && Progress(start, was, group, now, claims)
    ensures OthersClaim(begin, seen) && Progress(start, seen, group, now, claims)
  {
  }

  /** Taking an unstarted row that was listed adds one claim. */
  lemma ClaimOne(start: Rows, begin: Rows, seen: Rows, group: Group, worker: WorkerId, now: Timestamp,
                 claims: seq<Claim>, pk: TaskId, claim: Claim)
    requires IdsMatch(start) && OthersClaim(begin, seen) && Progress(start, seen, group, now, claims)
    requires pk in DueIds(start, group, now)
    requires pk in seen && seen[pk].began.None? && claim.record == seen[pk].record
    ensures var rows := UpdateAssignment(seen, pk, worker, claim.began);
            OthersClaim(begin, rows) && Progress(start, rows, group, now, claims + [claim]) && rows[pk].began.Some?
  {
  }

  lemma LaterProgress(start: Rows, rows: Rows, group: Group, now: Timestamp, later: Timestamp, claims: seq<Claim>)
    requires Progress(start, rows, group, now, claims) && now <= later
    ensures Progress(start, rows, group, later, claims)
  {
  }

  lemma ListedIsFair(q: Request, env: Environment, start: Rows, k: nat, c: Call)
    requires Polite(env) && Fair(q, env, start, k, c)
    ensures Fair(q, env, start, k + 1, Listed(q, env, k, c))
  {
    var seen := env.act(k, c.rows);
    assert PoliteAt(env, k, c.rows);
    var was := if |c.scans| == 0 then env.clock(0) else env.clock(c.log.turn);
    SeenByOthers(start, start, c.rows, seen, q.group, was, c.claims);
    LaterProgress(start, seen, q.group, was, env.clock(k), c.claims);
    ListingIs(seen, q.group, env.clock(k), c.scan, env.TieAt(k));
  }

  lemma ResolvedStays(rows: Rows, rows': Rows, locked: set<TaskId>, more: set<TaskId>, id: TaskId)
    requires OthersClaim(rows, rows') && locked <= more && Resolved(rows, locked, id)
    ensures Resolved(rows', more, id)
  {
  }

  lemma TriedProgresses(q: Request, env: Environment, start: Rows, k: nat, c: Call)
    requires IdsMatch(start) && Polite(env) && Fair(q, env, start, k, c) && c.pos < |c.listing| && |c.scans| > 0
    ensures var c' := Tried(q, env, k, c);
            && Progress(start, c'.rows, q.group, env.clock(c.log.turn), c'.claims)
            && OthersClaim(c.log.seen, c'.rows) && OthersClaim(c.rows, c'.rows)
  {
    var seen, id, now := env.act(k, c.rows), c.listing[c.pos], env.clock(c.log.turn);
    assert PoliteAt(env, k, c.rows);
    SeenByOthers(start, c.log.seen, c.rows, seen, q.group, now, c.claims);
    if !env.locked(k) && id in seen && seen[id].began.None? {
      ClaimOne(start, c.log.seen, seen, q.group, q.worker, now, c.claims, id, Claim(seen[id].record, env.clock(k)));
    }
  }

  lemma TriedResolves(q: Request, env: Environment, k: nat, c: Call)
    requires c.pos < |c.listing| && OthersClaim(c.rows, Tried(q, env, k, c).rows)
    requires forall p | 0 <= p < c.pos :: Resolved(c.rows, c.log.locked, c.listing[p])
    ensures var c' := Tried(q, env, k, c);
            forall p | 0 <= p < c'.pos :: Resolved(c'.rows, c'.log.locked, c'.listing[p])
  {
    var c' := Tried(q, env, k, c);
    forall p | 0 <= p < c'.pos ensures Resolved(c'.rows, c'.log.locked, c'.listing[p]) {
      if p < c.pos {
        ResolvedStays(c.rows, c'.rows, c.log.locked, c'.log.locked, c.listing[p]);
      }
    }
  }

  lemma TriedIsFair(q: Request, env: Environment, start: Rows, k: nat, c: Call)
    requires IdsMatch(start) && Polite(env) && Fair(q, env, start, k, c) && c.pos < |c.listing| && |c.scans| > 0
    ensures Fair(q, env, start, k + 1, Tried(q, env, k, c))
  {
    TriedProgresses(q, env, start, k, c);
    TriedResolves(q, env, k, c);
    TriedOnly(q, env, k, c);
  }

  lemma SettledIsFair(q: Request, env: Environment, start: Rows, n: nat, c: Call)
    requires Fair(q, env, start, n, c)
    ensures Fair(q, env, start, n, Settled(q, c))
  {
    SettledOnly(q, c);
  }

  lemma TurnIsFair(q: Request, env: Environment, start: Rows, k: nat, c: Call, c': Call)
    requires IdsMatch(start) && Polite(env) && Fair(q, env, start, k, c) && c' == Turn(q, env, k, c)
    requires c.stage == Trying ==> c.pos < |c.listing| && |c.scans| > 0
    ensures Fair(q, env, start, k + 1, c')
  {
    if c.stage == Listing {
      ListedIsFair(q, env, start, k, c);
      SettledIsFair(q, env, start, k + 1, Listed(q, env, k, c));
    } else if c.stage == Trying {
      TriedIsFair(q, env, start, k, c);
      SettledIsFair(q, env, start, k + 1, Tried(q, env, k, c));
    }
  }

  ghost predicate FairAt(q: Request, env: Environment, start: Rows, calls: seq<Call>, n: nat) {
    n < |calls| && Fair(q, env, start, n, calls[n])
  }

  lemma {:induction false} FairFrom(q: Request, env: Environment, start: Rows, calls: seq<Call>, n: nat)
    requires FairAt(q, env, start, calls, 0) && n < |calls|
    requires forall k | 0 <= k < n :: FairAt(q, env, start, calls, k) ==> FairAt(q, env, start, calls, k + 1)
    ensures FairAt(q, env, start, calls, n)
  {
    if n > 0 {
      FairFrom(q, env, start, calls, n - 1);
    }
  }

  lemma CallTurnIsFair(q: Request, env: Environment, start: Rows, calls: seq<Call>, k: nat)
    requires IsCallRun(q, env, start, calls) && k + 1 < |calls| && IdsMatch(start) && Polite(env)
    requires FairAt(q, env, start, calls, k)
    ensures FairAt(q, env, start, calls, k + 1)
  {
    TryingIsReady(q, env, start, calls, k);
    TurnIsFair(q, env, start, k, calls[k], calls[k + 1]);
  }

  /** The rows claimed so far are distinct, and were unstarted and due when listed, with the records returned. */
  lemma CallIsFair(q: Request, env: Environment, start: Rows, calls: seq<Call>, n: nat)
    requires IsCallRun(q, env, start, calls) && n < |calls| && IdsMatch(start) && Polite(env)
    ensures Fair(q, env, start, n, calls[n])
  {
    forall k | 0 <= k < n ensures FairAt(q, env, start, calls, k) ==> FairAt(q, env, start, calls, k + 1) {
      if FairAt(q, env, start, calls, k) {
        CallTurnIsFair(q, env, start, calls, k);
      }
    }
    FairFrom(q, env, start, calls, n);
  }

  lemma LeftWasLocked(q: Request, env: Environment, start: Rows, n: nat, c: Call, id: TaskId)
    requires Fair(q, env, start, n, c) && |c.scans| > 0 && c.pos == |c.listing| && id in c.listing
    requires id in DueIds(c.rows, q.group, env.clock(c.log.turn))
    ensures id in c.log.locked
  {
    var p :| 0 <= p < |c.listing| && c.listing[p] == id;
    assert Resolved(c.rows, c.log.locked, c.listing[p]);
  }

  lemma LockedIsDue(q: Request, env: Environment, start: Rows, n: nat, c: Call, id: TaskId)
    requires Fair(q, env, start, n, c) && |c.scans| > 0 && SoundLog(env, c.log, c.listing, c.pos)
    requires id in c.log.locked && id in c.rows && c.rows[id].began.None?
    ensures id in DueIds(c.rows, q.group, env.clock(c.log.turn))
  {
    var p: nat :| LockedAt(env, c.log, c.listing, c.pos, p, id);
    assert c.listing[p] in DueIds(start, q.group, env.clock(c.log.turn));
  }

  /**
   When a short batch is returned, the due rows still waiting are exactly the unstarted
   ones among those that were locked when tried.
   */
  lemma ShortBatchLeavesLocked(q: Request, env: Environment, start: Rows, calls: seq<Call>, id: TaskId)
    requires IdsMatch(start) && Polite(env)
    requires IsWholeCall(q, env, start, calls) && |Last(calls).claims| < q.limit
    ensures var c := Last(calls);
            id in DueIds(c.rows, q.group, env.clock(c.log.turn))
            <==> id in c.log.locked && id in c.rows && c.rows[id].began.None?
  {
    var n := |calls| - 1;
    var c := calls[n];
    CallIsFair(q, env, start, calls, n);
    CallIsSound(q, env, start, calls, n);
    if id in DueIds(c.rows, q.group, env.clock(c.log.turn)) {
      UsedUp(q, c);
      UsedUpCovers(q, env, n, c, id);
      LeftWasLocked(q, env, start, n, c, id);
    }
    if id in c.log.locked && id in c.rows && c.rows[id].began.None? {
      LockedIsDue(q, env, start, n, c, id);
    }
  }

  /** So a short batch means a drained queue exactly when every row that was locked when tried is started or gone. */
  lemma ShortBatchDrained(q: Request, env: Environment, start: Rows, calls: seq<Call>)
    requires IdsMatch(start) && Polite(env)
    requires IsWholeCall(q, env, start, calls) && |Last(calls).claims| < q.limit
    ensures var c := Last(calls);
            DueIds(c.rows, q.group, env.clock(c.log.turn)) == {}
            <==> forall id | id in c.log.locked :: id !in c.rows || c.rows[id].began.Some?
  {
    var c := Last(calls);
    forall id
      ensures id in DueIds(c.rows, q.group, env.clock(c.log.turn))
              <==> id in c.log.locked && id in c.rows && c.rows[id].began.None?
    {
      ShortBatchLeavesLocked(q, env, start, calls, id);
    }
  }

  /** The number of unstarted rows at the start bounds every listing size that was outgrown. */
  lemma PassesAreBounded(q: Request, env: Environment, start: Rows, calls: seq<Call>, n: nat)
    requires IdsMatch(start) && Polite(env) && IsCallRun(q, env, start, calls)
    requires n < |calls| && calls[n].stage == Listing && |calls[n].scans| > 0
    ensures ScanOf(q.limit, |calls[n].scans| - 1) <= |Unstarted(start, q.group)|
  {
    var c := calls[n];
    RepeatedPassWasFull(q, env, start, calls, n);
    CallIsFair(q, env, start, calls, n);
    SubsetSize(DueIds(c.log.seen, q.group, env.clock(c.log.turn)), Unstarted(start, q.group));
  }

  // ---- nobody else ----

  /** The first `n` listed rows have been claimed, in order, and nothing else changed. */
  ghost predicate TakenInOrder(begin: Rows, rows: Rows, worker: WorkerId, pks: seq<TaskId>, n: nat,
                               claims: seq<Claim>) {
    && |claims| == n <= |pks|
    && (forall k | 0 <= k < n :: pks[k] in begin && claims[k].record == begin[pks[k]].record)
    && rows.Keys == begin.Keys
    && (forall k | 0 <= k < n ::
          rows[pks[k]] == begin[pks[k]].(assignee := Some(worker), began := Some(claims[k].began)))
    && (forall id | id in rows && id !in pks[..n] :: rows[id] == begin[id])
  }

  lemma QuietStep(begin: Rows, was: Rows, worker: WorkerId, pks: seq<TaskId>, i: nat, claims: seq<Claim>,
                  began: Timestamp)
    requires i < |pks| && TakenInOrder(begin, was, worker, pks, i, claims)
    requires forall j, k | 0 <= j < k < |pks| :: pks[j] != pks[k]
    requires forall k | 0 <= k < |pks| :: pks[k] in begin && begin[pks[k]].began.None?
    ensures pks[i] in was && was[pks[i]] == begin[pks[i]] && was[pks[i]].began.None?
    ensures TakenInOrder(begin, UpdateAssignment(was, pks[i], worker, began), worker, pks, i + 1,
                         claims + [Claim(was[pks[i]].record, began)])
  {
    assert pks[i] !in pks[..i];
    assert pks[..i + 1] == pks[..i] + [pks[i]];
  }

  /** An undisturbed call lists once, and takes the listed rows in order. */
  ghost predicate Undisturbed(q: Request, env: Environment, start: Rows, c: Call) {
    && c.stage != Listing && c.scan == Max(q.limit, 8) && c.scans == [c.scan] && c.log.turn == 0 && c.log.locked == {}
    && c.listing == ListDueTaskIds(start, q.group, env.clock(0), Max(q.limit, 8), env.TieAt(0))
    && TakenInOrder(start, c.rows, q.worker, c.listing, c.pos, c.claims)
  }

  predicate QuietAt(env: Environment, k: nat, rows: Rows) {
    env.act(k, rows) == rows
  }

  ghost predicate Quiet(env: Environment) {
    (forall k, rows :: QuietAt(env, k, rows)) && (forall k :: !env.locked(k))
  }

  lemma QuietListing(q: Request, env: Environment, start: Rows)
    requires Quiet(env) && q.limit > 0
    ensures Undisturbed(q, env, start, Settled(q, Listed(q, env, 0, Begin(q, start))))
  {
    assert QuietAt(env, 0, start);
    var c := Listed(q, env, 0, Begin(q, start));
    ListingIs(start, q.group, env.clock(0), c.scan, env.TieAt(0));
    SettledOnly(q, c);
  }

  lemma QuietTried(q: Request, env: Environment, start: Rows, k: nat, c: Call)
    requires Undisturbed(q, env, start, c) && c.pos < |c.listing|
    requires QuietAt(env, k, c.rows) && !env.locked(k)
    requires forall p, r | 0 <= p < r < |c.listing| :: c.listing[p] != c.listing[r]
    requires forall p | 0 <= p < |c.listing| :: c.listing[p] in start && start[c.listing[p]].began.None?
    ensures Undisturbed(q, env, start, Tried(q, env, k, c))
  {
    QuietStep(start, c.rows, q.worker, c.listing, c.pos, c.claims, env.clock(k));
  }

  lemma QuietTry(q: Request, env: Environment, start: Rows, k: nat, c: Call)
    requires Quiet(env) && Undisturbed(q, env, start, c) && c.pos < |c.listing| && |c.claims| < q.limit
    ensures Undisturbed(q, env, start, Settled(q, Tried(q, env, k, c)))
  {
    assert QuietAt(env, k, c.rows);
    ListingIs(start, q.group, env.clock(0), Max(q.limit, 8), env.TieAt(0));
    QuietTried(q, env, start, k, c);
    QuietSettles(q, env, start, Tried(q, env, k, c));
  }

  lemma QuietSettles(q: Request, env: Environment, start: Rows, c: Call)
    requires Undisturbed(q, env, start, c) && |c.claims| <= q.limit
    ensures Undisturbed(q, env, start, Settled(q, c))
  {
    SettledOnly(q, c);
    ListingIs(start, q.group, env.clock(0), Max(q.limit, 8), env.TieAt(0));
  }

  ghost predicate UndisturbedAt(q: Request, env: Environment, start: Rows, calls: seq<Call>, n: nat) {
    n < |calls| && Undisturbed(q, env, start, calls[n])
  }

  lemma QuietTurn(q: Request, env: Environment, start: Rows, calls: seq<Call>, n: nat)
    requires Quiet(env) && IsCallRun(q, env, start, calls) && n + 1 < |calls|
    ensures UndisturbedAt(q, env, start, calls, n) ==> UndisturbedAt(q, env, start, calls, n + 1)
  {
    if UndisturbedAt(q, env, start, calls, n) {
      TryingIsReady(q, env, start, calls, n);
      CallIsSound(q, env, start, calls, n);
      QuietTry(q, env, start, n, calls[n]);
    }
  }

  lemma {:induction false} QuietFrom(q: Request, env: Environment, start: Rows, calls: seq<Call>, n: nat)
    requires n > 0 && UndisturbedAt(q, env, start, calls, 1)
    requires forall k | 1 <= k < n ::
               UndisturbedAt(q, env, start, calls, k) ==> UndisturbedAt(q, env, start, calls, k + 1)
    ensures UndisturbedAt(q, env, start, calls, n)
  {
    if n > 1 {
      QuietFrom(q, env, start, calls, n - 1);
    }
  }

  lemma QuietCall(q: Request, env: Environment, start: Rows, calls: seq<Call>, n: nat)
    requires Quiet(env) && q.limit > 0 && IsCallRun(q, env, start, calls) && 0 < n < |calls|
    ensures Undisturbed(q, env, start, calls[n])
  {
    QuietListing(q, env, start);
    forall k | 1 <= k < n
      ensures UndisturbedAt(q, env, start, calls, k) ==> UndisturbedAt(q, env, start, calls, k + 1)
    {
      QuietTurn(q, env, start, calls, k);
    }
    QuietFrom(q, env, start, calls, n);
  }

  lemma ListingStartsLeast(rows: Rows, group: Group, now: Timestamp, limit: nat, scan: nat, tie: TaskId -> nat)
    returns (xs: seq<Rank>)
    requires limit <= scan
    ensures IsLeast(xs, DueRanks(rows, group, now, tie), limit)
    ensures var pks := ListDueTaskIds(rows, group, now, scan, tie);
            |xs| == Min(limit, |pks|) && forall i | 0 <= i < |xs| :: pks[i] == xs[i].id
  {
    var ranks := DueRanks(rows, group, now, tie);
    xs := Take(Sort(ranks), limit);
    SortedPrefixIsLeast(ranks, limit);
    PrefixOfListing(Sort(ranks), limit, scan);
  }

  lemma QuietIsClaim(q: Request, env: Environment, start: Rows, pks: seq<TaskId>, claims: seq<Claim>)
    requires Inv(start) && pks == ListDueTaskIds(start, q.group, env.clock(0), Max(q.limit, 8), env.TieAt(0))
    requires |claims| == Min(q.limit, |pks|)
    requires forall k | 0 <= k < |claims| :: pks[k] in start && claims[k].record == start[pks[k]].record
    ensures IsClaim(View(start), q.group, q.limit, env.clock(0) - 1, claims)
  {
    ListedIsClaim(q, env.clock(0), env.TieAt(0), start, pks, claims);
  }

  lemma ListedIsClaim(q: Request, now: Timestamp, tie: TaskId -> nat, start: Rows, pks: seq<TaskId>, claims: seq<Claim>)
    requires Inv(start) && pks == ListDueTaskIds(start, q.group, now, Max(q.limit, 8), tie)
    requires |claims| == Min(q.limit, |pks|)
    requires forall k | 0 <= k < |claims| :: pks[k] in start && claims[k].record == start[pks[k]].record
    ensures IsClaim(View(start), q.group, q.limit, now - 1, claims)
  {
    var xs := ListingStartsLeast(start, q.group, now, q.limit, Max(q.limit, 8), tie);
    DueRanksCoverReady(start, q.group, now, tie);
    LeastClaims(start, q, now - 1, DueRanks(start, q.group, now, tie), xs, claims);
  }

  lemma LeastClaims(start: Rows, q: Request, upTo: Timestamp, ranks: set<Rank>, xs: seq<Rank>, claims: seq<Claim>)
    requires Inv(start) && Claiming.RanksFor(View(start), Ready(View(start), q.group, upTo), ranks)
    requires IsLeast(xs, ranks, q.limit)
    requires |claims| == |xs|
    requires forall i | 0 <= i < |xs| :: xs[i].id in start && claims[i].record == start[xs[i].id].record
    ensures IsClaim(View(start), q.group, q.limit, upTo, claims)
  {
    RanksAreClaims(View(start), q, upTo, ranks, xs, claims);
  }

  lemma PrefixOfListing(all: seq<Rank>, limit: nat, scan: nat)
    requires limit <= scan
    ensures |Take(all, limit)| == Min(limit, |IdsOf(Take(all, scan))|)
    ensures forall i | 0 <= i < |Take(all, limit)| :: IdsOf(Take(all, scan))[i] == Take(all, limit)[i].id
  {
  }

  lemma RanksAreClaims(b: Board, q: Request, upTo: Timestamp, ranks: set<Rank>, xs: seq<Rank>, claims: seq<Claim>)
    requires Keyed(b) && Claiming.RanksFor(b, Ready(b, q.group, upTo), ranks) && IsLeast(xs, ranks, q.limit)
    requires |claims| == |xs| && forall i | 0 <= i < |xs| :: xs[i].id in b && claims[i].record == b[xs[i].id].record
    ensures IsClaim(b, q.group, q.limit, upTo, claims)
  {
    Claiming.LeastIsClaim(b, q.group, q.limit, upTo, ranks, xs, claims);
  }

  lemma QuietIsStaging(start: Rows, rows: Rows, worker: WorkerId, pks: seq<TaskId>, claims: seq<Claim>)
    requires Inv(start) && TakenInOrder(start, rows, worker, pks, |claims|, claims)
    requires forall k | 0 <= k < |claims| :: start[pks[k]].began.None?
    ensures Inv(rows) && IsStaging(View(start), worker, claims, View(rows))
  {
    forall k | 0 <= k < |claims| ensures claims[k].Id() == pks[k] {
    }
    forall id | id in rows ensures rows[id].record.info.id == id && Coherent(rows[id]) {
      if id in pks[..|claims|] {
        var k :| 0 <= k < |claims| && pks[k] == id;
      }
    }
    assert forall id :: id in ClaimedIds(claims) <==> id in pks[..|claims|];
  }

  lemma QuietEnd(q: Request, env: Environment, start: Rows, calls: seq<Call>)
    requires Quiet(env) && q.limit > 0 && IsWholeCall(q, env, start, calls)
    ensures Undisturbed(q, env, start, Last(calls)) && |Last(calls).claims| == Min(q.limit, |Last(calls).listing|)
  {
    QuietCall(q, env, start, calls, |calls| - 1);
    CallIsSound(q, env, start, calls, |calls| - 1);
    ListingIs(start, q.group, env.clock(0), Max(q.limit, 8), env.TieAt(0));
  }

  lemma UndisturbedStages(q: Request, env: Environment, start: Rows, c: Call)
    requires Inv(start) && Undisturbed(q, env, start, c) && |c.claims| == Min(q.limit, |c.listing|)
    ensures Inv(c.rows) && IsStaging(View(start), q.worker, c.claims, View(c.rows))
  {
    ListingIs(start, q.group, env.clock(0), Max(q.limit, 8), env.TieAt(0));
    QuietIsStaging(start, c.rows, q.worker, c.listing, c.claims);
  }

  lemma UndisturbedRecords(q: Request, env: Environment, start: Rows, c: Call)
    requires Undisturbed(q, env, start, c)
    ensures c.listing == ListDueTaskIds(start, q.group, env.clock(0), Max(q.limit, 8), env.TieAt(0))
    ensures |c.claims| <= |c.listing|
    ensures forall k | 0 <= k < |c.claims| :: c.listing[k] in start && c.claims[k].record == start[c.listing[k]].record
  {
  }

  /** Undisturbed, a call is one pass over the earliest due tasks: exactly the claim of the lifecycle. */
  lemma QuietCallIsClaim(q: Request, env: Environment, start: Rows, calls: seq<Call>)
    requires Quiet(env) && q.limit > 0 && Inv(start) && IsWholeCall(q, env, start, calls)
    ensures var c := Last(calls);
            && |c.scans| == 1 && c.log.turn == 0 && Inv(c.rows)
            && Next(View(start), Event(AssignTasks(q.group, q.worker, q.limit, env.clock(0) - 1), c.claims),
                    View(c.rows))
  {
    var c := Last(calls);
    QuietEnd(q, env, start, calls);
    UndisturbedStages(q, env, start, c);
    assert IsClaim(View(start), q.group, q.limit, env.clock(0) - 1, c.claims) by {
      UndisturbedRecords(q, env, start, c);
      QuietIsClaim(q, env, start, c.listing, c.claims);
    }
  }

  // ---- a short batch that does not mean a drained queue ----

  /** One row, locked at the turn that tries it. */
  function LockedOnce(): Environment {
    Environment((k, rows) => rows, k => k == 1, k => 0, (k, id) => 0)
  }

  lemma LockedCourse(q: Request, rows: Rows, listed: Call)
    requires listed == Listed(q, LockedOnce(), 0, Begin(q, rows)) && q.limit == 1 && |listed.listing| == 1
    ensures Settled(q, listed) == listed
    ensures var last := Settled(q, Tried(q, LockedOnce(), 1, listed));
            && IsWholeCall(q, LockedOnce(), rows, [Begin(q, rows), listed, last])
            && last.claims == [] && last.rows == rows
  {
  }

  /** A due row that another transaction has locked is left unclaimed by a batch that came back empty. */
  lemma ShortBatchNotDrained(r: TaskRecord, worker: WorkerId) returns (env: Environment, calls: seq<Call>)
    requires r.info.due < 0
    ensures Polite(env) && IsWholeCall(Request(r.info.group, worker, 1), env, map[r.info.id := FromRecord(r)], calls)
    ensures Last(calls).claims == [] && r.info.id in DueIds(Last(calls).rows, r.info.group, 0)
  {
    env := LockedOnce();
    var q, rows := Request(r.info.group, worker, 1), map[r.info.id := FromRecord(r)];
    OneRowListing(r, 0, env.TieAt(0));
    var listed := Listed(q, env, 0, Begin(q, rows));
    LockedCourse(q, rows, listed);
    calls := [Begin(q, rows), listed, Settled(q, Tried(q, env, 1, listed))];
    assert forall k, rows :: PoliteAt(env, k, rows);
  }
}
