/**
 The Redis backend's nine structures as a value: a sorted set per group queue, and
 hashes and sorted sets for the stage, finished tasks, their results and errors.
 Each operation is what one Lua script or transaction does to them.
 */
module RedisStore {
  import opened Tasks
  import opened Ordering
  import opened Lifecycle

  /** A sorted set: the score of each member. */
  type ZSet = map<TaskId, Timestamp>

  datatype StageInfo = StageInfo(worker: WorkerId, task: TaskId, assignedAt: Timestamp)

  datatype Store = Store(
    queues: map<Group, ZSet>,
    info: map<TaskId, TaskInfo>,
    data: map<TaskId, Bytes>,
    stageQueue: ZSet,
    stageInfo: map<TaskId, StageInfo>,
    doneQueue: ZSet,
    disposableQueue: ZSet,
    result: map<TaskId, Bytes>,
    error: map<TaskId, Bytes>
  )

  /** A missing key reads as an empty sorted set. */
  function Queue(queues: map<Group, ZSet>, group: Group): ZSet {
    if group in queues then queues[group] else map[]
  }

  function ZAdd(queues: map<Group, ZSet>, group: Group, id: TaskId, score: Timestamp): map<Group, ZSet> {
    queues[group := Queue(queues, group)[id := score]]
  }

  function ZRem(queues: map<Group, ZSet>, group: Group, id: TaskId): map<Group, ZSet> {
    if group in queues then queues[group := queues[group] - {id}] else queues
  }

  function Ranks(z: ZSet): set<Rank> {
    set id | id in z :: Rank(z[id], 0, id)
  }

  /** The members with the `count` lowest scores, ties in member order. */
  function ZRange(z: ZSet, count: nat): seq<Rank> {
    Take(Sort(Ranks(z)), count)
  }

  // ---- operations ----

  function Forget(s: Store, id: TaskId): Store {
    s.(stageQueue := s.stageQueue - {id}, stageInfo := s.stageInfo - {id}, info := s.info - {id})
  }

  function Insert(s: Store, r: TaskRecord): Store {
    if r.info.id in s.info then s
    else s.(info := s.info[r.info.id := r.info], data := s.data[r.info.id := r.data],
            queues := ZAdd(s.queues, r.info.group, r.info.id, r.info.due))
  }

  function Enqueue(s: Store, r: TaskRecord, replace: bool): Store {
    Insert(if replace then Forget(s, r.info.id) else s, r)
  }

  function EnqueueAll(s: Store, rs: seq<TaskRecord>, replace: bool): Store {
    if rs == [] then s else Enqueue(EnqueueAll(s, rs[..|rs| - 1], replace), rs[|rs| - 1], replace)
  }

  /** The candidates the claim script takes: due, and with metadata and data at hand. */
  function Takeable(s: Store, candidates: seq<Rank>, now: Timestamp): seq<Rank> {
    if candidates == [] then []
    else
      var n := |candidates| - 1;
      var c := candidates[n];
      Takeable(s, candidates[..n], now) + if c.due <= now && c.id in s.info && c.id in s.data then [c] else []
  }

  function Picked(s: Store, group: Group, limit: nat, now: Timestamp): seq<Rank> {
    Takeable(s, ZRange(Queue(s.queues, group), limit), now)
  }

  function Ids(ranks: seq<Rank>): set<TaskId> {
    set i | 0 <= i < |ranks| :: ranks[i].id
  }

  function StageScores(stage: ZSet, queue: ZSet, ids: set<TaskId>): ZSet
    requires ids <= queue.Keys
  {
    stage + map id | id in ids :: queue[id]
  }

  function StageRows(stage: map<TaskId, StageInfo>, worker: WorkerId, ids: set<TaskId>, now: Timestamp)
    : map<TaskId, StageInfo>
  {
    stage + map id | id in ids :: StageInfo(worker, id, now)
  }

  /** The picked members move from the group's queue to the stage, keeping their score. */
  function Assign(s: Store, group: Group, worker: WorkerId, picked: seq<Rank>, now: Timestamp): Store
    requires Ids(picked) <= Queue(s.queues, group).Keys
  {
    var ids, queue := Ids(picked), Queue(s.queues, group);
    s.(queues := if picked == [] then s.queues else s.queues[group := queue - ids],
       stageQueue := StageScores(s.stageQueue, queue, ids),
       stageInfo := StageRows(s.stageInfo, worker, ids, now))
  }

  function ClaimsOf(s: Store, picked: seq<Rank>, now: Timestamp): (claims: seq<Claim>)
    requires forall r | r in picked :: r.id in s.info && r.id in s.data
    ensures |claims| == |picked|
    ensures forall i | 0 <= i < |picked| ::
              claims[i] == Claim(TaskRecord(s.info[picked[i].id], s.data[picked[i].id]), now)
  {
    seq(|picked|, i requires 0 <= i < |picked| =>
      Claim(TaskRecord(s.info[picked[i].id], s.data[picked[i].id]), now))
  }

  /** `ids` leave the queue of the group their metadata names. */
  function Dequeue(s: Store, ids: set<TaskId>): map<Group, ZSet> {
    map group | group in s.queues ::
      s.queues[group] - set id | id in ids && id in s.info && id in s.data && s.info[id].group == group
  }

  function Discard(s: Store, ids: set<TaskId>): Store {
    Store(Dequeue(s, ids), s.info - ids, s.data - ids, s.stageQueue - ids, s.stageInfo - ids,
          s.doneQueue - ids, s.disposableQueue - ids, s.result - ids, s.error - ids)
  }

  /** Which queue a lookup found each task in. */
  type Found = set<(TaskId, Group)>

  function DequeueFound(queues: map<Group, ZSet>, found: Found): map<Group, ZSet> {
    map group | group in queues :: queues[group] - set p | p in found && p.1 == group :: p.0
  }

  /** The second half of a discard, given what its lookup found. */
  function DiscardCommit(s: Store, ids: set<TaskId>, found: Found): Store {
    Store(DequeueFound(s.queues, found), s.info - ids, s.data - ids, s.stageQueue - ids, s.stageInfo - ids,
          s.doneQueue - ids, s.disposableQueue - ids, s.result - ids, s.error - ids)
  }

  function Complete(s: Store, r: TaskRecord, outcome: Outcome, now: Timestamp): Store {
    var id := r.info.id;
    Store(ZRem(s.queues, r.info.group, id), s.info[id := r.info], s.data[id := r.data],
          s.stageQueue - {id}, s.stageInfo - {id},
          s.doneQueue[id := now], s.disposableQueue[id := now + r.info.ttl],
          if outcome.Succeeded? then s.result[id := outcome.result] else s.result,
          if outcome.Failed? then s.error[id := outcome.message] else s.error)
  }

  /** The second half of a restore, given what its lookup found. */
  function RestoreCommit(s: Store, found: TaskInfo): Store {
    s.(stageQueue := s.stageQueue - {found.id}, stageInfo := s.stageInfo - {found.id},
       queues := ZAdd(s.queues, found.group, found.id, found.due))
  }

  function Unstage(s: Store, id: TaskId): Store {
    if id in s.info && id in s.data then RestoreCommit(s, s.info[id]) else s
  }

  function GetResult(s: Store, id: TaskId): ResultView {
    if id !in s.info || id !in s.data then NotFound
    else
      var record := TaskRecord(s.info[id], s.data[id]);
      if id in s.result then Value(record, s.result[id])
      else if id in s.error then FailedWith(record, s.error[id])
      else NoResult(record)
  }

  ghost function Exec(s: Store, op: Op): (Store, seq<Claim>) {
    match op
    case PutTasks(rs) => (EnqueueAll(s, rs, false), [])
    case AssignTasks(group, worker, limit, now) =>
      var picked := Picked(s, group, limit, now);
      ClaimIsSafe(s, group, limit, now);
      (Assign(s, group, worker, picked, now), ClaimsOf(s, picked, now))
    case RetryTask(r) => (EnqueueAll(s, [r], true), [])
    case DiscardTasks(ids) => (Discard(s, set id | id in ids), [])
    case Finish(r, outcome, now) => (Complete(s, r, outcome, now), [])
    case Restore(id) => (Unstage(s, id), [])
  }

  // ---- the claim script alone ----

  lemma {:induction false} TakeableIs(s: Store, candidates: seq<Rank>, now: Timestamp)
    ensures forall r :: r in Takeable(s, candidates, now)
                   <==> r in candidates && r.due <= now && r.id in s.info && r.id in s.data
    ensures |Takeable(s, candidates, now)| <= |candidates|
    ensures Ascending(candidates) ==> Ascending(Takeable(s, candidates, now))
  {
    if candidates != [] {
      var n := |candidates| - 1;
      TakeableIs(s, candidates[..n], now);
      var before := Takeable(s, candidates[..n], now);
      if Ascending(candidates) {
        forall i | 0 <= i < |before| ensures Less(before[i], candidates[n]) {
          assert before[i] in candidates[..n];
        }
      }
    }
  }

  /** Even on a store in disarray, a claim takes at most `limit` distinct, due, fully stored tasks. */
  lemma ClaimIsSafe(s: Store, group: Group, limit: nat, now: Timestamp)
    ensures var picked := Picked(s, group, limit, now);
            && |picked| <= limit
            && (forall r | r in picked :: r.id in Queue(s.queues, group) && r.due == Queue(s.queues, group)[r.id] <= now
                                       && r.id in s.info && r.id in s.data)
            && (forall i, j | 0 <= i < j < |picked| :: picked[i].id != picked[j].id && picked[i].due <= picked[j].due)
  {
    var z := Queue(s.queues, group);
    SortedPrefixIsLeast(Ranks(z), limit);
    TakeableIs(s, ZRange(z, limit), now);
    var picked := Picked(s, group, limit, now);
    forall i, j | 0 <= i < j < |picked| ensures picked[i].id != picked[j].id && picked[i].due <= picked[j].due {
      assert picked[i] in picked && picked[j] in picked;
      AscendingDistinct(picked, i, j);
      assert Less(picked[i], picked[j]);
    }
  }
}
