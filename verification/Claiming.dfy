/** From a sorted listing of candidates to the claim contract of `Lifecycle`. */
module Claiming {
  import opened Tasks
  import opened Ordering
  import opened Lifecycle

  /** `ranks` holds one rank per id, carrying the due time the board records. */
  ghost predicate RanksFor(b: Board, ids: set<TaskId>, ranks: set<Rank>) {
    && (forall r | r in ranks :: r.id in ids && r.id in b && r.due == b[r.id].record.info.due)
    && (forall id | id in ids :: exists r :: r in ranks && r.id == id)
    && (forall r, q | r in ranks && q in ranks && r.id == q.id :: r == q)
  }

  lemma {:induction false} RankCount(b: Board, ids: set<TaskId>, ranks: set<Rank>)
    requires RanksFor(b, ids, ranks)
    ensures |ids| == |ranks|
  {
    if ids == {} {
      assert ranks == {} by {
        forall r ensures r !in ranks {
        }
      }
    } else {
      var id :| id in ids;
      var r :| r in ranks && r.id == id;
      assert RanksFor(b, ids - {id}, ranks - {r}) by {
        forall i | i in ids - {id} ensures exists q :: q in ranks - {r} && q.id == i {
          var q :| q in ranks && q.id == i;
          assert q in ranks - {r};
        }
      }
      RankCount(b, ids - {id}, ranks - {r});
    }
  }

  lemma LeastIsClaim(b: Board, group: Group, limit: nat, upTo: Timestamp,
                     ranks: set<Rank>, xs: seq<Rank>, claims: seq<Claim>)
    requires Keyed(b)
    requires RanksFor(b, Ready(b, group, upTo), ranks)
    requires IsLeast(xs, ranks, limit)
    requires |claims| == |xs|
    requires forall i | 0 <= i < |xs| :: xs[i].id in b && claims[i].record == b[xs[i].id].record
    ensures IsClaim(b, group, limit, upTo, claims)
  {
    var ready := Ready(b, group, upTo);
    RankCount(b, ready, ranks);
    forall i | 0 <= i < |claims| ensures claims[i].Id() == xs[i].id && xs[i] in ranks {
    }
    forall i, j | 0 <= i < j < |claims|
      ensures claims[i].Id() != claims[j].Id() && claims[i].record.info.due <= claims[j].record.info.due
    {
      AscendingDistinct(xs, i, j);
      assert Less(xs[i], xs[j]);
    }
    forall i, id | 0 <= i < |claims| && id in ready && id !in ClaimedIds(claims)
      ensures claims[i].record.info.due <= b[id].record.info.due
    {
      var r :| r in ranks && r.id == id;
      assert r !in xs by {
        forall k | 0 <= k < |xs| ensures xs[k] != r {
          assert claims[k].Id() in ClaimedIds(claims);
        }
      }
      assert Less(xs[i], r);
    }
  }
}
