/**
 Why `Detector` asks sweeps to be quick. One restorer runs, every worker calls the
 backend only while its heartbeat is valid, and still a punctual worker loses its task:
 the listed holder retries the task and dies before the sweep reads the workers.
 */
module SlowSweep {
  import opened Tasks
  import opened Lifecycle
  import opened Detector

  const FIRST := TaskRecord(TaskInfo("task", "group", "name", 0, 0, None, 0, 0), [])
  const SECOND := TaskRecord(FIRST.info.CloneForRetry(0, 0), [])

  function Staging(r: TaskRecord, worker: WorkerId, began: Timestamp): Board {
    map["task" := Row(r, Staged(worker, began))]
  }

  function Queueing(r: TaskRecord): Board {
    map["task" := Row(r, Queued)]
  }

  function Claiming(worker: WorkerId, r: TaskRecord, now: Timestamp): Event {
    Event(AssignTasks("group", worker, 1, now), [Claim(r, now)])
  }

  lemma ClaimStep(worker: WorkerId, r: TaskRecord, now: Timestamp)
    requires r.info.id == "task" && r.info.group == "group" && r.info.due <= now
    ensures Lifecycle.Next(Queueing(r), Claiming(worker, r, now), Staging(r, worker, now))
  {
    assert Ready(Queueing(r), "group", now) == {"task"};
    var claims := [Claim(r, now)];
    assert claims[0].Id() == "task" && "task" in ClaimedIds(claims);
  }

  function At(now: Timestamp, b: Board, expiry: map<WorkerId, Timestamp>, refreshes: seq<Refresh>, sweep: Sweep,
              lapsed: set<WorkerId>): State
  {
    State(now, b, expiry, {}, refreshes, [sweep], [], expiry, lapsed)
  }

  /** The states of the run: worker "a" is listed as the holder, worker "b" ends up with the task. */
  function States(): (states: seq<State>)
    ensures |states| == 14
  {
    var rows := [StageRow("task", "a")];
    var a, both := map["a" := 15000], map["a" := 15000, "b" := 25000];
    [ At(0, map[], map[], [], Idle, {}),
      At(0, map[], map[], [Refresh({"a"}, 15000)], Idle, {}),
      At(0, map[], a, [], Idle, {}),
      At(0, Queueing(FIRST), a, [], Idle, {}),
      At(0, Staging(FIRST, "a", 0), a, [], Idle, {}),
      At(0, Staging(FIRST, "a", 0), a, [], Listed(rows, 0, {"a"}), {}),
      At(0, Queueing(SECOND), a, [], Listed(rows, 0, {"a"}), {}),
      At(10000, Queueing(SECOND), a, [], Listed(rows, 0, {"a"}), {}),
      At(10000, Queueing(SECOND), a, [Refresh({"b"}, 25000)], Listed(rows, 0, {"a"}), {}),
      At(10000, Queueing(SECOND), both, [], Listed(rows, 0, {"a"}), {}),
      At(10000, Staging(SECOND, "b", 10000), both, [], Listed(rows, 0, {"a"}), {}),
      At(15001, Staging(SECOND, "b", 10000), both, [], Listed(rows, 0, {"a"}), {"a"}),
      At(15001, Staging(SECOND, "b", 10000), both, [], Timed(rows, 0, {"a"}, 15001), {"a"}),
      At(15001, Staging(SECOND, "b", 10000), both, [], Restoring(rows, {"b"}), {"a"}) ]
  }

  function Steps(): (steps: seq<Step>)
    ensures |steps| == 13
  {
    [ BeginRefresh({"a"}), LandRefresh(0), Client(Event(PutTasks([FIRST]), [])), Work("a", Claiming("a", FIRST, 0)),
      ListStage(0, [StageRow("task", "a")]), Work("a", Event(RetryTask(SECOND), [])), Tick(10000),
      BeginRefresh({"b"}), LandRefresh(0), Work("b", Claiming("b", SECOND, 10000)), Tick(15001),
      ReadClock(0), ListWorkers(0) ]
  }

  lemma Begins(now: Timestamp, b: Board, expiry: map<WorkerId, Timestamp>, sweep: Sweep, w: WorkerId)
    ensures Detector.Next(0, At(now, b, expiry, [], sweep, {}), BeginRefresh({w}),
                          At(now, b, expiry, [Refresh({w}, now + 15000)], sweep, {}))
  {
    assert {w} - {} == {w};
    assert [] + [Refresh({w}, now + 15000)] == [Refresh({w}, now + 15000)];
  }

  lemma Lands(now: Timestamp, b: Board, expiry: map<WorkerId, Timestamp>, sweep: Sweep, w: WorkerId, until: Timestamp)
    requires now <= until && forall v | v in expiry :: now <= expiry[v]
    ensures Detector.Next(0, At(now, b, expiry, [Refresh({w}, until)], sweep, {}), LandRefresh(0),
                          At(now, b, expiry[w := until], [], sweep, {}))
  {
    var refreshes := [Refresh({w}, until)];
    assert Without(refreshes, 0) == [];
    assert Register(expiry, {w}, until) == expiry[w := until];
    assert {} + Overdue(expiry[w := until], now) == {};
  }

  lemma Ticks(now: Timestamp, to: Timestamp, b: Board, expiry: map<WorkerId, Timestamp>, sweep: Sweep,
              lapsed: set<WorkerId>)
    requires now <= to && lapsed == Overdue(expiry, to)
    ensures Detector.Next(0, At(now, b, expiry, [], sweep, {}), Tick(to), At(to, b, expiry, [], sweep, lapsed))
  {
    assert {} + Overdue(expiry, to) == lapsed;
  }

  lemma Takes(now: Timestamp, r: TaskRecord, expiry: map<WorkerId, Timestamp>, sweep: Sweep, lapsed: set<WorkerId>,
              w: WorkerId)
    requires r.info.id == "task" && r.info.group == "group" && r.info.due <= now
    ensures Detector.Next(0, At(now, Queueing(r), expiry, [], sweep, lapsed), Work(w, Claiming(w, r, now)),
                          At(now, Staging(r, w, now), expiry, [], sweep, lapsed))
  {
    ClaimStep(w, r, now);
  }

  lemma ReadsClock(now: Timestamp, b: Board, expiry: map<WorkerId, Timestamp>, rows: seq<StageRow>, at: Timestamp,
                   prompt: set<WorkerId>, lapsed: set<WorkerId>)
    ensures Detector.Next(0, At(now, b, expiry, [], Listed(rows, at, prompt), lapsed), ReadClock(0),
                          At(now, b, expiry, [], Timed(rows, at, prompt, now), lapsed))
  {
  }

  lemma ReadsWorkers(now: Timestamp, b: Board, expiry: map<WorkerId, Timestamp>, rows: seq<StageRow>, at: Timestamp,
                     prompt: set<WorkerId>, lapsed: set<WorkerId>, active: set<WorkerId>)
    requires active == Active(expiry, now)
    ensures Detector.Next(0, At(now, b, expiry, [], Timed(rows, at, prompt, now), lapsed), ListWorkers(0),
                          At(now, b, expiry, [], Restoring(rows, active), lapsed))
  {
  }

  /** A restore of the one row listed, which was found inactive. */
  lemma PutsBack(now: Timestamp, b: Board, expiry: map<WorkerId, Timestamp>, w: WorkerId, active: set<WorkerId>,
                 lapsed: set<WorkerId>, blind: bool)
    requires w !in active
    ensures Detector.Next(0, At(now, b, expiry, [], Restoring([StageRow("task", w)], active), lapsed),
                          RestoreNext(0, blind),
                          At(now, Restored(b, "task", blind), expiry, [], Restoring([], active), lapsed))
  {
    assert [StageRow("task", w)][1..] == [];
  }

  lemma ABegins(i: nat)
    requires i == 0
    ensures Detector.Next(0, States()[i], Steps()[i], States()[i + 1])
  {
    Begins(0, map[], map[], Idle, "a");
  }

  lemma ALands(i: nat)
    requires i == 1
    ensures Detector.Next(0, States()[i], Steps()[i], States()[i + 1])
  {
    var none: map<WorkerId, Timestamp> := map[];
    Lands(0, map[], none, Idle, "a", 15000);
    assert none["a" := 15000] == map["a" := 15000];
  }

  lemma Puts(i: nat)
    requires i == 2
    ensures Detector.Next(0, States()[i], Steps()[i], States()[i + 1])
  {
    var none: Board := map[];
    assert [FIRST][..0] == [];
    assert PutAll(none, []) == none;
    assert PutAll(none, [FIRST]) == Queueing(FIRST);
  }

  lemma AClaims(i: nat)
    requires i == 3
    ensures Detector.Next(0, States()[i], Steps()[i], States()[i + 1])
  {
    Takes(0, FIRST, map["a" := 15000], Idle, {}, "a");
  }

  lemma Lists(i: nat)
    requires i == 4
    ensures Detector.Next(0, States()[i], Steps()[i], States()[i + 1])
  {
    var rows := [StageRow("task", "a")];
    assert IsStageList(Staging(FIRST, "a", 0), rows);
    assert map["a" := 15000].Keys - {} == {"a"};
  }

  lemma Retries(i: nat)
    requires i == 5
    ensures Detector.Next(0, States()[i], Steps()[i], States()[i + 1])
  {
    assert Staging(FIRST, "a", 0)["task" := Row(SECOND, Queued)] == Queueing(SECOND);
    assert IsRetryOf(SECOND, FIRST);
  }

  lemma Waits(i: nat)
    requires i == 6
    ensures Detector.Next(0, States()[i], Steps()[i], States()[i + 1])
  {
    Ticks(0, 10000, Queueing(SECOND), map["a" := 15000], Listed([StageRow("task", "a")], 0, {"a"}), {});
  }

  lemma BBegins(i: nat)
    requires i == 7
    ensures Detector.Next(0, States()[i], Steps()[i], States()[i + 1])
  {
    Begins(10000, Queueing(SECOND), map["a" := 15000], Listed([StageRow("task", "a")], 0, {"a"}), "b");
  }

  lemma BLands(i: nat)
    requires i == 8
    ensures Detector.Next(0, States()[i], Steps()[i], States()[i + 1])
  {
    var a := map["a" := 15000];
    Lands(10000, Queueing(SECOND), a, Listed([StageRow("task", "a")], 0, {"a"}), "b", 25000);
    assert a["b" := 25000] == map["a" := 15000, "b" := 25000];
  }

  lemma BClaims(i: nat)
    requires i == 9
    ensures Detector.Next(0, States()[i], Steps()[i], States()[i + 1])
  {
    var both := map["a" := 15000, "b" := 25000];
    Takes(10000, SECOND, both, Listed([StageRow("task", "a")], 0, {"a"}), {}, "b");
  }

  lemma Lapses(i: nat)
    requires i == 10
    ensures Detector.Next(0, States()[i], Steps()[i], States()[i + 1])
  {
    var both, listed := map["a" := 15000, "b" := 25000], Listed([StageRow("task", "a")], 0, {"a"});
    Ticks(10000, 15001, Staging(SECOND, "b", 10000), both, listed, {"a"});
  }

  lemma SweepsOn(i: nat)
    requires i == 11
    ensures Detector.Next(0, States()[i], Steps()[i], States()[i + 1])
  {
    var both := map["a" := 15000, "b" := 25000];
    ReadsClock(15001, Staging(SECOND, "b", 10000), both, [StageRow("task", "a")], 0, {"a"}, {"a"});
  }

  lemma FindsActive(i: nat)
    requires i == 12
    ensures Detector.Next(0, States()[i], Steps()[i], States()[i + 1])
  {
    var both := map["a" := 15000, "b" := 25000];
    ReadsWorkers(15001, Staging(SECOND, "b", 10000), both, [StageRow("task", "a")], 0, {"a"}, {"a"}, {"b"});
  }

  lemma StepsFollow(i: nat)
    requires i < 13
    ensures Detector.Next(0, States()[i], Steps()[i], States()[i + 1])
  {
    match i
    case 0 => ABegins(i);
    case 1 => ALands(i);
    case 2 => Puts(i);
    case 3 => AClaims(i);
    case 4 => Lists(i);
    case 5 => Retries(i);
    case 6 => Waits(i);
    case 7 => BBegins(i);
    case 8 => BLands(i);
    case 9 => BClaims(i);
    case 10 => Lapses(i);
    case 11 => SweepsOn(i);
    case _ => FindsActive(i);
  }

  lemma Restoration()
    ensures var s := States()[13];
            Detector.Next(0, s, RestoreNext(0, false), s.(board := Queueing(SECOND), sweeps := [Restoring([], {"b"})]))
  {
    var both := map["a" := 15000, "b" := 25000];
    PutsBack(15001, Staging(SECOND, "b", 10000), both, "a", {"b"}, {"a"}, false);
    assert Restored(Staging(SECOND, "b", 10000), "task", false) == Queueing(SECOND);
  }

  /** Every call in the run is made by a punctual worker, for a task it holds. */
  lemma CallersArePunctual(i: nat)
    requires i < 13 && Steps()[i].Work?
    ensures var s, step := States()[i], Steps()[i];
            step.worker in s.landed && step.worker !in s.lapsed && Rightful(s.board, step.worker, step.event.op)
  {
    assert i == 3 || i == 5 || i == 9;
  }

  lemma PunctualLosesToSlowSweep() returns (states: seq<State>, steps: seq<Step>, after: Board)
    ensures Detector.IsRun(0, states, steps) && |states[0].sweeps| == 1
    ensures forall i | 0 <= i < |steps| && steps[i].Work? ::
              && steps[i].worker in states[i].landed && steps[i].worker !in states[i].lapsed
              && Rightful(states[i].board, steps[i].worker, steps[i].event.op)
    ensures var s := states[|steps|];
            && Detector.Next(0, s, RestoreNext(0, false), s.(board := after, sweeps := [Restoring([], {"b"})]))
            && "b" in s.landed && "b" !in s.lapsed && StagedFor(s.board, "b", "task") && !StagedFor(after, "b", "task")
  {
    states, steps, after := States(), Steps(), Queueing(SECOND);
    forall i | 0 <= i < |steps| ensures Detector.Next(0, states[i], steps[i], states[i + 1]) {
      StepsFollow(i);
    }
    forall i | 0 <= i < |steps| && steps[i].Work?
      ensures steps[i].worker in states[i].landed && steps[i].worker !in states[i].lapsed
      ensures Rightful(states[i].board, steps[i].worker, steps[i].event.op)
    {
      CallersArePunctual(i);
    }
    Restoration();
  }
}
