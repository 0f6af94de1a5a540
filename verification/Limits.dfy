/** Where the guarantees end: claims that do not hold in general, with a run or
    an input that breaks each, and exactly when they do hold. */
module Limits {
  import opened Order
  import opened Api
  import opened Load
  import opened StoreState
  import opened Discipline
  import opened Handlers
  import opened Scheduling
  import opened Runtimes
  import opened Agents
  import opened Clusters
  import opened ClusterSafety

  // --- Labels --------------------------------------------------------------

  predicate HasLabels(labels: map<string, string>, required: map<string, string>) {
    forall key | key in required :: key in labels && labels[key] == required[key]
  }

  /** A required label with an empty value also matches a node without the
      label. A match means the labels are there exactly if no required value is empty. */
  lemma MatchMeansPresent(required: map<string, string>)
    ensures (forall labels | MatchesPlacement(labels, required) :: HasLabels(labels, required))
        <==> (forall key | key in required :: required[key] != "")
    ensures forall labels | HasLabels(labels, required) :: MatchesPlacement(labels, required)
  {
    if key :| key in required && required[key] == "" {
      var labels := required - {key};
      assert MatchesPlacement(labels, required) && !HasLabels(labels, required);
    }
  }

  // --- A small cluster -----------------------------------------------------

  const TEMPLATE := Template("image", [], map[], [])
  const ONE := Node("n1", map[], Resources(1, 1), 0)
  const TWO := Node("n2", map[], Resources(1, 1), 0)
  const WEB := Service("web", TEMPLATE, 1, Resources(0, 0), map[], [], ServiceStatus(1, 0, 0, [], 0))
  const BATCH := Job("batch", TEMPLATE, Resources(0, 0), map[], 1, JobStatus("", "", false, 0, "", None))
  const REPLICA := Assignment("web-1", ServiceKind, "web", "n1", TEMPLATE, Resources(0, 0), [], 1, Pending, "", 0, None, None)
  const FIRST := Assignment("batch-1", JobKind, "batch", "n1", TEMPLATE, Resources(0, 0), [], 1, Pending, "", 0, None, None)
  const IDLE := Machine(Resources(1, 1), map[], {}, Idle)

  lemma Extend(strict: bool, c: Cluster, steps: seq<Step>, step: Step)
    requires Run(strict, c, steps) && Enabled(strict, After(c, steps), step)
    ensures Run(strict, c, steps + [step]) && After(c, steps + [step]) == Take(After(c, steps), step)
  {
    assert (steps + [step])[..|steps|] == steps;
  }

  // Node n1 and the service, nothing placed yet.
  const BEFORE := [Join(ONE, 0), Operate(UpsertService(WEB))]

  lemma BeforeRuns(strict: bool)
    ensures Run(strict, START, BEFORE)
    ensures var c := After(START, BEFORE);
      && c.world == World(State(map["n1" := ONE], map["web" := WEB], map[], map[]), map[])
      && c.machines == map["n1" := IDLE] && c.sent == []
  {
    assert Run(strict, START, []);
    Extend(strict, START, [], Join(ONE, 0));
    assert [] + [Join(ONE, 0)] == [Join(ONE, 0)];
    Extend(strict, START, [Join(ONE, 0)], Operate(UpsertService(WEB)));
    assert BEFORE == [Join(ONE, 0)] + [Operate(UpsertService(WEB))];
  }

  // An assignment that asks for nothing fits on an empty store's node.
  lemma FitsEmpty(strict: bool, w: World, a: Assignment)
    requires a.id !in w.born && w.store.assignments == map[] && a.nodeId in w.store.nodes
    requires a.phase == Pending && a.startedAt.None? && a.finishedAt.None? && a.resources == Resources(0, 0)
    requires w.store.nodes[a.nodeId].capacity.NonNegative()
    requires strict ==> OwnerExists(w.store, a)
    requires a.ownerKind == JobKind ==> (strict ==> a.attempt == 1) && 1 <= RunLimit(w.store, a.ownerName)
    ensures Guarded(strict, w, SaveAssignment(a))
  {
    hide HasRoom, MayRun;
    RoomWhenEmpty(w.store, a.nodeId, Demand(a.resources, a.ports));
    if a.ownerKind == JobKind { FirstRun(strict, w.store, a); }
  }

  lemma RoomWhenEmpty(s: State, n: string, d: Demand)
    requires s.assignments == map[] && n in s.nodes && s.nodes[n].capacity.NonNegative() && d.resources == Resources(0, 0)
    ensures HasRoom(LoadOf(s.assignments, n), s.nodes[n].capacity, d)
  {
    assert LoadOf(s.assignments, n) == map[];
  }

  lemma FirstRun(strict: bool, s: State, a: Assignment)
    requires s.assignments == map[] && 1 <= RunLimit(s, a.ownerName) && (strict ==> a.attempt == 1)
    ensures MayRun(strict, s, a)
  {
    assert ActiveIds(s.assignments, JobKind, a.ownerName) == {} && WonIds(s.assignments, a.ownerName) == {};
    assert FailedIds(s.assignments, a.ownerName) == {};
  }

  // a is the one assignment, its machine is idle and holds nothing.
  ghost predicate OnlyOne(c: Cluster, a: Assignment) {
    && c.world.store.assignments == map[a.id := a] && a.phase == Pending && c.world.store in c.archive
    && a.nodeId in c.machines && c.machines[a.nodeId].stage == Idle
    && c.machines[a.nodeId].held == map[] && c.machines[a.nodeId].tracked == {}
  }

  // The replica is placed.
  lemma ReplicaPlaced(strict: bool) returns (steps: seq<Step>)
    ensures Run(strict, START, steps) && NoRestore(steps)
    ensures var c := After(START, steps);
      OnlyOne(c, REPLICA) && c.machines == map["n1" := IDLE] && c.sent == []
  {
    hide Run, After, Guarded;
    BeforeRuns(strict);
    FitsEmpty(strict, After(START, BEFORE).world, REPLICA);
    assert Enabled(strict, After(START, BEFORE), Operate(SaveAssignment(REPLICA)));
    Extend(strict, START, BEFORE, Operate(SaveAssignment(REPLICA)));
    steps := BEFORE + [Operate(SaveAssignment(REPLICA))];
  }

  lemma FetchOfOne(strict: bool, c: Cluster, a: Assignment)
    requires OnlyOne(c, a)
    ensures Enabled(strict, c, Fetch(a.nodeId))
    ensures Take(c, Fetch(a.nodeId)) == WithMachine(c, a.nodeId, c.machines[a.nodeId].(stage := Stopping(map[a.id := a], {})))
  {
    assert WantedOn(c.world.store.assignments, a.nodeId) == map[a.id := a];
    assert c.machines[a.nodeId].held.Keys - map[a.id := a].Keys == {};
  }

  lemma NothingToStop(strict: bool, c: Cluster, n: string, a: Assignment)
    requires n in c.machines && c.machines[n].stage == Stopping(map[a.id := a], {})
    ensures Enabled(strict, c, BeginStarts(n))
    ensures Take(c, BeginStarts(n)) == WithMachine(c, n, c.machines[n].(stage := Starting(map[a.id := a], {a.id})))
  {
    assert c.machines[n].stage.want.Keys == {a.id};
  }

  // An agent fetches its list of one and is about to start it.
  lemma ListFetched(strict: bool, c: Cluster, before: seq<Step>, a: Assignment) returns (steps: seq<Step>)
    requires Run(strict, c, before) && OnlyOne(After(c, before), a)
    ensures Run(strict, c, steps) && before <= steps && (NoRestore(before) ==> NoRestore(steps))
    ensures var b, d := After(c, before), After(c, steps); var p := b.machines[a.nodeId];
      && d.world == b.world && d.archive == b.archive && d.sent == b.sent
      && d.machines == b.machines[a.nodeId := p.(stage := Starting(map[a.id := a], {a.id}))]
  {
    hide Run, After, Enabled, Take;
    var n, b := a.nodeId, After(c, before);
    FetchOfOne(strict, b, a);
    Extend(strict, c, before, Fetch(n));
    steps := before + [Fetch(n)];
    NothingToStop(strict, After(c, steps), n, a);
    Extend(strict, c, steps, BeginStarts(n));
    steps := steps + [BeginStarts(n)];
  }

  lemma StepsOfOne(n: string, a: Assignment)
    ensures SyncSteps(n, [], [a]) == [Fetch(n), BeginStarts(n), StartNext(n, a.id), EndSync(n)]
    ensures NoRestore(SyncSteps(n, [], [a]))
  {
    assert StartSteps(n, [a]) == [StartNext(n, a.id)] by { assert [a][..0] == []; }
  }

  lemma BooksOfOne(b: Books, a: Assignment)
    requires b.held.Keys <= {a.id}
    ensures IsSync(b, map[a.id := a], [], [a])
    ensures Synced(b, [], [a]) == StartStep(b, a) && SyncOut(b, [], [a]) == StartReport(b, a)
  {
    hide StartStep, StartReport;
    NoStops(b);
    NoStarts(b);
    OneMoreStart(b, [], a);
    assert [] + [a] == [a];
  }

  // A whole sync where a is the one assignment and nothing else is held.
  lemma SyncOfOne(strict: bool, c: Cluster, a: Assignment)
    requires Shaped(c, Fetch(a.nodeId)) && c.world.store.assignments == map[a.id := a] && a.Active()
    requires c.machines[a.nodeId].held.Keys <= {a.id}
    ensures var steps := SyncSteps(a.nodeId, [], [a]); var p := c.machines[a.nodeId];
      && Run(strict, c, steps) && NoRestore(steps) && |steps| == 4 && Fetch(a.nodeId) == steps[0]
      && After(c, steps) == Moved(c, a.nodeId, WithBooks(p, StartStep(BooksOf(p), a), Idle), StartReport(BooksOf(p), a))
  {
    hide Run, After, StartStep, StartReport, SyncSteps, IsSync, Synced, SyncOut, NoRestore, Letters;
    var n, b := a.nodeId, BooksOf(c.machines[a.nodeId]);
    assert WantedOn(c.world.store.assignments, n) == map[a.id := a];
    BooksOfOne(b, a);
    SyncIsRun(strict, c, n, [], [a]);
    StepsOfOne(n, a);
  }

  lemma FirstBooks(a: Assignment)
    ensures StartStep(Books(map[], {}), a) == Books(map[a.id := Runtimes.Started(a)], {a.id})
    ensures StartReport(Books(map[], {}), a) == [Report(a.id, Running, STARTED)]
  {
  }

  // It starts, and the sync ends.
  lemma FirstStarted(strict: bool, c: Cluster, before: seq<Step>, a: Assignment) returns (steps: seq<Step>)
    requires Run(strict, c, before) && OnlyOne(After(c, before), a)
    ensures Run(strict, c, steps) && before <= steps && (NoRestore(before) ==> NoRestore(steps))
    ensures var b, d := After(c, before), After(c, steps); var p := b.machines[a.nodeId];
      && d.world == b.world && d.archive == b.archive
      && d.machines == b.machines[a.nodeId := Machine(p.capacity, map[a.id := Runtimes.Started(a)], {a.id}, Idle)]
      && d.sent == b.sent + [Letter(a.nodeId, Report(a.id, Running, STARTED))]
  {
    hide Run, After, SyncSteps, StartStep, StartReport;
    steps := before + SyncSteps(a.nodeId, [], [a]);
    FirstBooks(a);
    SyncOfOne(strict, After(c, before), a);
    RunsJoin(strict, c, before, SyncSteps(a.nodeId, [], [a]));
  }

  // --- Times ---------------------------------------------------------------

  predicate StartsFirst(a: Assignment) {
    a.startedAt.Some? && a.finishedAt.Some? ==> a.startedAt.value <= a.finishedAt.value
  }

  ghost predicate TimesInOrder(s: State) { forall id | id in s.assignments :: StartsFirst(s.assignments[id]) }

  // The operation finishes an assignment at a time before its start.
  predicate StampsBack(s: State, op: Op) {
    op.UpdateAssignmentStatus? && IsTerminalPhase(op.phase) && op.id in s.assignments && s.assignments[op.id].Active()
      && s.assignments[op.id].startedAt.Some? && op.now < s.assignments[op.id].startedAt.value
  }

  /** Lost is stamped with the tick's time, which can lie before the time its
      Running report was handled: a run ends with a finish before the start. */
  lemma FinishBeforeStart(strict: bool) returns (steps: seq<Step>)
    ensures Run(strict, START, steps) && NoRestore(steps)
    ensures var m := After(START, steps).world.store.assignments;
      "web-1" in m && m["web-1"].phase == Lost && m["web-1"].startedAt == Some(10) && m["web-1"].finishedAt == Some(5)
  {
    hide Run, After, StoreInv;
    var placed := ReplicaPlaced(strict);
    steps := FirstStarted(strict, START, placed, REPLICA);
    var letter := Letter("n1", Report("web-1", Running, STARTED));
    assert letter in After(START, steps).sent;
    Extend(strict, START, steps, Deliver(letter, 10));
    steps := steps + [Deliver(letter, 10)];
    Extend(strict, START, steps, Operate(UpdateAssignmentStatus("web-1", Lost, "", 5)));
    steps := steps + [Operate(UpdateAssignmentStatus("web-1", Lost, "", 5))];
  }

  /** Exactly then: a guarded operation keeps every finish after its start if and
      only if it does not finish an assignment with a time before its start. */
  lemma TimesInOrderExactly(strict: bool, w: World, op: Op)
    requires WorldInv(strict, w) && Guarded(strict, w, op) && TimesInOrder(w.store)
    ensures TimesInOrder(Apply(w.store, op)) <==> !StampsBack(w.store, op)
  {
    hide Placed, KnownNodes, JobCounts, StrictInv, HasRoom, MayRun, Quantities;
    var t := Apply(w.store, op);
    if StampsBack(w.store, op) {
      assert !StartsFirst(t.assignments[op.id]);
    } else {
      forall id | id in t.assignments ensures StartsFirst(t.assignments[id]) {
        assert id in w.store.assignments ==> StartsFirst(w.store.assignments[id]);
      }
    }
  }

  /** A lost Running report is not sent again while its agent tracks the ID: a run
      ends with the replica running, a whole further sync behind it that sent
      nothing, and the controller still showing it as Pending. */
  lemma RunsButPending(strict: bool) returns (before: seq<Step>, steps: seq<Step>)
    ensures before <= steps && Run(strict, START, steps) && NoRestore(steps) && Fetch("n1") in steps[|before|..]
    ensures var b, c := After(START, before), After(START, steps);
      && "n1" in c.machines && c.machines["n1"].stage == Idle && c.sent == b.sent
      && "web-1" in c.machines["n1"].held && c.machines["n1"].held["web-1"].phase == Running
      && "web-1" in c.world.store.assignments && c.world.store.assignments["web-1"].phase == Pending
  {
    var placed := ReplicaPlaced(strict);
    before := FirstStarted(strict, START, placed, REPLICA);
    var b := After(START, before);
    steps := SyncedAgain(strict, before);
  }

  lemma SyncedAgain(strict: bool, before: seq<Step>) returns (steps: seq<Step>)
    requires Run(strict, START, before) && NoRestore(before)
    requires var b := After(START, before);
      && b.world.store.assignments == map["web-1" := REPLICA]
      && "n1" in b.machines && b.machines["n1"] == Machine(Resources(1, 1), map["web-1" := Runtimes.Started(REPLICA)], {"web-1"}, Idle)
    ensures before <= steps && Run(strict, START, steps) && NoRestore(steps) && Fetch("n1") in steps[|before|..]
    ensures var b, c := After(START, before), After(START, steps);
      c.world == b.world && c.machines == b.machines && c.sent == b.sent
  {
    hide Run, After, SyncSteps;
    var b := After(START, before);
    SyncOfOne(strict, b, REPLICA);
    steps := before + SyncSteps("n1", [], [REPLICA]);
    RunsJoin(strict, START, before, SyncSteps("n1", [], [REPLICA]));
    assert steps[|before|..][0] == Fetch("n1");
    assert After(START, steps).machines == b.machines;
  }

  // --- Owners --------------------------------------------------------------

  /** An admin delete that falls between the check and the save leaves an
      assignment without an owner. */
  lemma OwnerlessIsReachable() returns (steps: seq<Step>)
    ensures Run(false, START, steps) && !OwnersExist(After(START, steps).world.store)
  {
    BeforeRuns(false);
    Extend(false, START, BEFORE, Operate(DeleteService("web")));
    steps := BEFORE + [Operate(DeleteService("web"))];
    var w := After(START, steps).world;
    assert w.store.assignments == map[];
    FitsEmpty(false, w, REPLICA);
    Extend(false, START, steps, Operate(SaveAssignment(REPLICA)));
    steps := steps + [Operate(SaveAssignment(REPLICA))];
    assert "web-1" in After(START, steps).world.store.assignments;
  }

  /** Exactly then: a guarded operation keeps every owner in place if and only
      if it is not the save of an assignment whose owner is gone. */
  lemma OwnersKeptExactly(w: World, op: Op)
    requires WorldInv(false, w) && Guarded(false, w, op) && OwnersExist(w.store)
    ensures OwnersExist(Apply(w.store, op)) <==> (op.SaveAssignment? ==> OwnerExists(w.store, op.assignment))
  {
    hide Placed, KnownNodes, JobCounts, SaneSpecs, HasRoom, MayRun;
    if op.SaveAssignment? { assert Apply(w.store, op).assignments[op.assignment.id] == op.assignment; }
  }

  // --- Attempt numbers -----------------------------------------------------

  ghost predicate AllNumbered(s: State) {
    forall name :: AttemptsNumbered(s.assignments, name) && FailuresApart(s.assignments, name)
  }

  // The job's first run has failed, and the controller knows.
  lemma FirstFailed() returns (steps: seq<Step>)
    ensures Run(false, START, steps)
    ensures var c := After(START, steps);
      && c.world.store.assignments.Keys == {"batch-1"} == c.world.born.Keys && c.world.store.nodes == map["n1" := ONE]
      && c.world.store.assignments["batch-1"].OwnedBy(JobKind, "batch") && c.world.store.assignments["batch-1"].phase == Failed
      && c.world.store.jobs == map["batch" := BATCH]
  {
    var placed := FirstPlaced();
    steps := FirstEnds(placed);
  }

  lemma FirstPlaced() returns (steps: seq<Step>)
    ensures Run(false, START, steps) && NoRestore(steps)
    ensures var c := After(START, steps);
      && OnlyOne(c, FIRST) && c.machines == map["n1" := IDLE] && c.world.born.Keys == {"batch-1"}
      && c.world.store.nodes == map["n1" := ONE] && c.world.store.jobs == map["batch" := BATCH]
  {
    hide Run, After, Guarded;
    steps := JobApplied();
    var w := After(START, steps).world;
    FitsEmpty(false, w, FIRST);
    assert Enabled(false, After(START, steps), Operate(SaveAssignment(FIRST)));
    Extend(false, START, steps, Operate(SaveAssignment(FIRST)));
    steps := steps + [Operate(SaveAssignment(FIRST))];
  }

  // Node n1 and the job, nothing placed yet.
  lemma JobApplied() returns (steps: seq<Step>)
    ensures Run(false, START, steps) && NoRestore(steps)
    ensures var c := After(START, steps);
      && c.world == World(State(map["n1" := ONE], map[], map["batch" := BATCH], map[]), map[])
      && c.machines == map["n1" := IDLE] && c.sent == []
  {
    assert Run(false, START, []);
    Extend(false, START, [], Join(ONE, 0));
    steps := [Join(ONE, 0)];
    assert steps == [] + [Join(ONE, 0)];
    Extend(false, START, steps, Operate(UpsertJob(BATCH)));
    steps := steps + [Operate(UpsertJob(BATCH))];
  }

  lemma FirstEnds(before: seq<Step>) returns (steps: seq<Step>)
    requires Run(false, START, before) && OnlyOne(After(START, before), FIRST)
    ensures Run(false, START, steps)
    ensures var b, c := After(START, before), After(START, steps);
      && c.world.store == b.world.store.(assignments := c.world.store.assignments) && c.world.born == b.world.born
      && c.world.store.assignments.Keys == {"batch-1"}
      && c.world.store.assignments["batch-1"].OwnedBy(JobKind, "batch") && c.world.store.assignments["batch-1"].phase == Failed
  {
    hide Run, After, StoreInv, WorldInv;
    steps := FirstStarted(false, START, before, FIRST);
    var c := After(START, steps);
    var end := JobEnds("n1", "batch-1", true, "");
    Extend(false, START, steps, end);
    steps := steps + [end];
    EndHeard(c, Take(c, end));
    var letter := Letter("n1", Report("batch-1", Failed, ""));
    Extend(false, START, steps, Deliver(letter, 1));
    steps := steps + [Deliver(letter, 1)];
  }

  // The controller hears that the first run failed.
  lemma EndHeard(b: Cluster, c: Cluster)
    requires b.world.store.assignments == map["batch-1" := FIRST] && Shaped(b, JobEnds("n1", "batch-1", true, ""))
    requires c == Take(b, JobEnds("n1", "batch-1", true, ""))
    ensures var letter := Letter("n1", Report("batch-1", Failed, "")); var d := Take(c, Deliver(letter, 1));
      && letter in c.sent && d.world.born == b.world.born
      && d.world.store == b.world.store.(assignments := d.world.store.assignments)
      && d.world.store.assignments.Keys == {"batch-1"}
      && d.world.store.assignments["batch-1"].OwnedBy(JobKind, "batch") && d.world.store.assignments["batch-1"].phase == Failed
  {
    hide StartedHeld, WantedOn;
    var letter := Letter("n1", Report("batch-1", Failed, ""));
    assert c.world == b.world && c.sent == b.sent + [letter];
    assert Heard(c.world.store, letter, 1) == Some(UpdateAssignmentStatus("batch-1", Failed, "", 1));
  }

  /** A job deleted and applied again inside a reconcile that has already counted
      its failures gets a run numbered as if they still stood. */
  lemma MisnumberedIsReachable() returns (steps: seq<Step>)
    ensures Run(false, START, steps) && !AllNumbered(After(START, steps).world.store)
  {
    hide Run, After, Guarded;
    var failed := FirstFailed();
    steps := AppliedAgain(failed);
    var w := After(START, steps).world;
    var second := FIRST.(id := "batch-2", attempt := 2);
    FitsEmpty(false, w, second);
    assert Enabled(false, After(START, steps), Operate(SaveAssignment(second)));
    Extend(false, START, steps, Operate(SaveAssignment(second)));
    steps := steps + [Operate(SaveAssignment(second))];
    SecondIsFirst(After(START, steps).world.store, second);
  }

  lemma AppliedAgain(before: seq<Step>) returns (steps: seq<Step>)
    requires Run(false, START, before)
    requires var b := After(START, before);
      && b.world.store.assignments.Keys == {"batch-1"} == b.world.born.Keys && b.world.store.nodes == map["n1" := ONE]
      && b.world.store.assignments["batch-1"].OwnedBy(JobKind, "batch") && b.world.store.jobs == map["batch" := BATCH]
    ensures Run(false, START, steps)
    ensures var c := After(START, steps);
      && c.world.store.assignments == map[] && c.world.born.Keys == {"batch-1"}
      && c.world.store.nodes == map["n1" := ONE] && c.world.store.jobs == map["batch" := BATCH]
  {
    hide Run, After;
    Extend(false, START, before, Operate(DeleteJob("batch")));
    steps := before + [Operate(DeleteJob("batch"))];
    assert After(START, steps).world.store.assignments == map[];
    Extend(false, START, steps, Operate(UpsertJob(BATCH)));
    steps := steps + [Operate(UpsertJob(BATCH))];
  }

  lemma SecondIsFirst(s: State, a: Assignment)
    requires s.assignments == map[a.id := a] && a.OwnedBy(JobKind, "batch") && a.phase == Pending && a.attempt == 2
    ensures !AllNumbered(s)
  {
    assert FailedIds(s.assignments, "batch") == {};
    assert !AttemptsNumbered(s.assignments, "batch") by { assert !NumberedAfter(s.assignments[a.id], 0); }
  }

  /** Exactly then: a guarded operation keeps all runs numbered if and only if it
      is not the save of a run with another number than the one due. */
  lemma NumbersKeptExactly(w: World, op: Op)
    requires WorldInv(false, w) && Guarded(false, w, op) && AllNumbered(w.store)
    ensures AllNumbered(Apply(w.store, op)) <==> (op.SaveAssignment? ==> NextAttempt(w.store, op.assignment))
  {
    hide WorldInv, Guarded, AttemptsNumbered, FailuresApart;
    if op.SaveAssignment? && !NextAttempt(w.store, op.assignment) {
      WrongNumber(w, op.assignment);
    } else {
      forall name ensures AttemptsNumbered(Apply(w.store, op).assignments, name) && FailuresApart(Apply(w.store, op).assignments, name) {
        KeepsAttempts(w, op, name);
      }
    }
  }

  lemma WrongNumber(w: World, a: Assignment)
    requires WorldInv(false, w) && Guarded(false, w, SaveAssignment(a)) && !NextAttempt(w.store, a)
    ensures !AttemptsNumbered(Apply(w.store, SaveAssignment(a)).assignments, a.ownerName)
  {
    hide Placed, KnownNodes, JobCounts, SaneSpecs, HasRoom, FailedIds, ActiveIds, WonIds;
    SetsAfterSave(w.store.assignments, a, a.ownerName);
    var m := Apply(w.store, SaveAssignment(a)).assignments;
    assert m[a.id] == a && !NumberedAfter(m[a.id], |FailedIds(m, a.ownerName)|);
  }

  // --- Late reports --------------------------------------------------------

  // The store has the assignment of the report active on its sender.
  predicate ActiveOnSender(s: State, letter: Letter) {
    var id := letter.report.id;
    id in s.assignments && s.assignments[id].nodeId == letter.sender && s.assignments[id].Active()
  }

  /** What a report does, whenever it arrives: it finishes an assignment exactly if
      its phase is a final one and the store has the assignment active on the
      sender. A Running report needs the same to change anything, and changes
      nothing that already says the same. */
  lemma ReportBites(c: Cluster, letter: Letter, now: int)
    requires IsAgentReportablePhase(letter.report.phase) && letter.report.id != ""
    ensures var id, m, later := letter.report.id, c.world.store.assignments, Take(c, Deliver(letter, now)).world.store.assignments;
      && ((id in m && m[id].Active() && !later[id].Active()) <==> ActiveOnSender(c.world.store, letter) && letter.report.phase != Running)
      && (Take(c, Deliver(letter, now)).world.store != c.world.store <==>
            ActiveOnSender(c.world.store, letter)
            && (letter.report.phase == Running ==> m[id].phase == Pending || m[id].message != letter.report.message || m[id].startedAt.None?))
  {
    var id, s := letter.report.id, c.world.store;
    var t := Take(c, Deliver(letter, now)).world.store;
    if id in s.assignments && s.assignments[id].nodeId == letter.sender {
      var a, b := s.assignments[id], t.assignments[id];
      assert b == ApplyStatus(a, letter.report.phase, letter.report.message, now);
      assert b == a ==> s.assignments[id := b] == s.assignments;
    }
  }

  /** A late report can take a live replica down with no restore at all: its start
      failed once and the agent said so, a later sync started it, and the old Failed
      report arrives last. The replica runs on; the controller has it as Failed. */
  lemma FailedWhileRunning(strict: bool) returns (steps: seq<Step>)
    ensures Run(strict, START, steps) && NoRestore(steps)
    ensures var c := After(START, steps);
      && "n1" in c.machines && "web-1" in c.machines["n1"].held && c.machines["n1"].held["web-1"].phase == Running
      && "web-1" in c.world.store.assignments && c.world.store.assignments["web-1"].phase == Failed
  {
    hide Run, After, StoreInv;
    var placed := ReplicaPlaced(strict);
    var failed := StartFailed(strict, placed);
    steps := FirstStarted(strict, START, failed, REPLICA);
    var letter := Letter("n1", Report("web-1", Failed, "no image"));
    assert letter in After(START, steps).sent;
    Extend(strict, START, steps, Deliver(letter, 1));
    steps := steps + [Deliver(letter, 1)];
  }

  // A sync in which the start fails leaves all but the report as it was.
  lemma StartFailed(strict: bool, before: seq<Step>) returns (steps: seq<Step>)
    requires Run(strict, START, before) && NoRestore(before) && OnlyOne(After(START, before), REPLICA)
    ensures Run(strict, START, steps) && NoRestore(steps)
    ensures var b, c := After(START, before), After(START, steps);
      && OnlyOne(c, REPLICA) && c.world == b.world && c.machines == b.machines
      && c.sent == b.sent + [Letter("n1", Report("web-1", Failed, "no image"))]
  {
    hide Run, After;
    var b := After(START, before);
    steps := ListFetched(strict, START, before, REPLICA);
    Extend(strict, START, steps, StartFails("n1", "web-1", "no image"));
    steps := steps + [StartFails("n1", "web-1", "no image")];
    assert After(START, steps).machines["n1"].stage.todo == {};
    Extend(strict, START, steps, EndSync("n1"));
    steps := steps + [EndSync("n1")];
    assert After(START, steps).machines == b.machines;
  }

  /** So can the result of a job: the run ended and said so, its machine crashed,
      the run was started over, and the old result arrives while it is under way. */
  lemma SucceededWhileRunning() returns (steps: seq<Step>)
    ensures Run(false, START, steps) && NoRestore(steps)
    ensures var c := After(START, steps);
      && "n1" in c.machines && "batch-1" in c.machines["n1"].held && c.machines["n1"].held["batch-1"].phase == Running
      && "batch-1" in c.world.store.assignments && c.world.store.assignments["batch-1"].phase == Succeeded
  {
    hide Run, After, Guarded, StoreInv;
    var placed := FirstPlaced();
    var started := FirstStarted(false, START, placed, FIRST);
    var crashed := EndedAndCrashed(started);
    steps := FirstStarted(false, START, crashed, FIRST);
    var letter := Letter("n1", Report("batch-1", Succeeded, ""));
    assert letter in After(START, steps).sent;
    Extend(false, START, steps, Deliver(letter, 1));
    steps := steps + [Deliver(letter, 1)];
  }

  lemma EndedAndCrashed(before: seq<Step>) returns (steps: seq<Step>)
    requires Run(false, START, before) && NoRestore(before)
    requires var b := After(START, before);
      && b.world.store.assignments == map["batch-1" := FIRST] && b.world.store in b.archive
      && "n1" in b.machines && b.machines["n1"] == Machine(Resources(1, 1), map["batch-1" := Runtimes.Started(FIRST)], {"batch-1"}, Idle)
    ensures Run(false, START, steps) && NoRestore(steps) && OnlyOne(After(START, steps), FIRST)
    ensures Letter("n1", Report("batch-1", Succeeded, "")) in After(START, steps).sent
  {
    hide Run, After, Guarded, StoreInv;
    Extend(false, START, before, JobEnds("n1", "batch-1", false, ""));
    steps := before + [JobEnds("n1", "batch-1", false, "")];
    Extend(false, START, steps, Crash("n1"));
    steps := steps + [Crash("n1")];
  }

  /** With a restore a Stopped report can do the same: a run ends with a replica
      Stopped by a report that was sent before the store was put back. */
  lemma StoppedAfterRestore(strict: bool) returns (steps: seq<Step>)
    ensures Run(strict, START, steps)
    ensures var m := After(START, steps).world.store.assignments; "web-1" in m && m["web-1"].phase == Stopped
  {
    hide Run, After, Take, StoreInv;
    var placed := ReplicaPlaced(strict);
    var saved := After(START, placed).world.store;
    var started := FirstStarted(strict, START, placed, REPLICA);
    steps := ReplicaDropped(strict, started);
    var letter := Letter("n1", Report("web-1", Stopped, STOPPED));
    var c := After(START, steps);
    assert Enabled(strict, c, Restore(saved));
    Extend(strict, START, steps, Restore(saved));
    RestoredAndStopped(strict, c, saved, letter);
    steps := steps + [Restore(saved)];
    Extend(strict, START, steps, Deliver(letter, 0));
    steps := steps + [Deliver(letter, 0)];
  }

  lemma ReplicaDropped(strict: bool, before: seq<Step>) returns (steps: seq<Step>)
    requires Run(strict, START, before)
    requires var b := After(START, before);
      && b.world.store.assignments == map["web-1" := REPLICA]
      && "n1" in b.machines && "web-1" in b.machines["n1"].held && b.machines["n1"].held["web-1"].phase == Running
      && b.machines["n1"].stage == Idle
    ensures Run(strict, START, steps)
    ensures var b, c := After(START, before), After(START, steps);
      b.archive <= c.archive && Letter("n1", Report("web-1", Stopped, STOPPED)) in c.sent
  {
    hide Run, After, StoreInv;
    Extend(strict, START, before, Operate(DeleteAssignment("web-1")));
    steps := before + [Operate(DeleteAssignment("web-1"))];
    assert After(START, steps).world.store.assignments == map[];
    assert WantedOn(After(START, steps).world.store.assignments, "n1") == map[];
    Extend(strict, START, steps, Fetch("n1"));
    steps := steps + [Fetch("n1")];
    Extend(strict, START, steps, StopNext("n1", "web-1"));
    steps := steps + [StopNext("n1", "web-1")];
  }

  lemma RestoredAndStopped(strict: bool, c: Cluster, saved: State, letter: Letter)
    requires letter == Letter("n1", Report("web-1", Stopped, STOPPED)) && letter in c.sent
    requires saved.assignments == map["web-1" := REPLICA]
    ensures var d := Take(c, Restore(saved));
      && Enabled(strict, d, Deliver(letter, 0))
      && (var m := Take(d, Deliver(letter, 0)).world.store.assignments; "web-1" in m && m["web-1"].phase == Stopped)
  {
    hide StoreInv;
    var d := Take(c, Restore(saved));
    assert d.sent == c.sent && d.world.store == saved;
    assert Heard(saved, letter, 0) == Some(UpdateAssignmentStatus("web-1", Stopped, STOPPED, 0));
  }

  // --- IDs -----------------------------------------------------------------

  /** What the program checks before it saves: the ID is not in the present store.
      Whether it was ever used before it cannot see. */
  ghost predicate PassesCheck(strict: bool, c: Cluster, a: Assignment) {
    Guarded(strict, World(c.world.store, c.world.store.assignments), SaveAssignment(a))
  }

  ghost predicate AllHoldOwn(c: Cluster) {
    forall n | n in c.machines :: HoldsOwn(c.world.born, n, c.machines[n].held)
  }

  // Whoever holds the ID holds this very assignment.
  ghost predicate NotHeldOtherwise(c: Cluster, a: Assignment) {
    forall n | n in c.machines && a.id in c.machines[n].held ::
      n == a.nodeId && SameSpec(a, c.machines[n].held[a.id].assignment)
  }

  /** That every machine holds only what was placed on it survives a save that
      passes the program's check exactly if no machine holds the ID as anything
      else; an ID never used before never is. */
  lemma FreshnessNeededExactly(strict: bool, c: Cluster, a: Assignment)
    requires ClusterInv(strict, c) && PassesCheck(strict, c, a)
    ensures AllHoldOwn(Take(c, Operate(SaveAssignment(a)))) <==> NotHeldOtherwise(c, a)
    ensures a.id !in c.world.born ==> NotHeldOtherwise(c, a)
  {
    hide WorldInv, Based, StageInv, HasRoom, MayRun;
    var c' := Take(c, Operate(SaveAssignment(a)));
    forall n | n in c.machines ensures HoldsOwn(c.world.born, n, c.machines[n].held) {
      assert MachineInv(c.world.born, c.archive, n, c.machines[n]);
    }
    if AllHoldOwn(c') {
      forall n | n in c.machines && a.id in c.machines[n].held
        ensures n == a.nodeId && SameSpec(a, c.machines[n].held[a.id].assignment)
      {
        assert HoldsOwn(c'.world.born, n, c'.machines[n].held);
      }
    }
  }

  /** A restore brings the two apart: the ID of a replica that still runs is free in
      the restored store, is drawn again for another node, and then runs on both. */
  lemma ReusedIdRunsTwice(strict: bool) returns (steps: seq<Step>, again: Assignment, more: seq<Step>)
    ensures Run(strict, START, steps) && PassesCheck(strict, After(START, steps), again)
    ensures var c := Take(After(START, steps), Operate(SaveAssignment(again)));
      && Run(strict, c, more) && (var d := After(c, more);
        && "n1" in d.machines && "n2" in d.machines
        && again.id in d.machines["n1"].held && again.id in d.machines["n2"].held)
  {
    hide Run, After, StoreInv, Guarded, Take, OnlyOne;
    again := REPLICA.(nodeId := "n2");
    steps := HeldAndForgotten(strict);
    var c := After(START, steps);
    FitsEmpty(strict, World(c.world.store, c.world.store.assignments), again);
    var d := Take(c, Operate(SaveAssignment(again)));
    SavedAgain(c, again);
    NoStep(strict, d);
    more := FirstStarted(strict, d, [], again);
  }

  lemma SavedAgain(c: Cluster, a: Assignment)
    requires c.world.store.assignments == map[] && a.phase == Pending && a.nodeId in c.machines && c.machines[a.nodeId] == IDLE
    ensures var d := Take(c, Operate(SaveAssignment(a))); OnlyOne(d, a) && d.machines == c.machines
  {
  }

  // The replica is placed, and the store was saved just before.
  lemma SavedAndPlaced(strict: bool) returns (steps: seq<Step>, saved: State)
    ensures Run(strict, START, steps)
    ensures saved == State(map["n1" := ONE, "n2" := TWO], map["web" := WEB], map[], map[])
    ensures var c := After(START, steps);
      saved in c.archive && OnlyOne(c, REPLICA) && c.machines == map["n1" := IDLE, "n2" := IDLE]
  {
    hide Run, After, StoreInv;
    BeforeRuns(strict);
    Extend(strict, START, BEFORE, Join(TWO, 0));
    steps := BEFORE + [Join(TWO, 0)];
    var c := After(START, steps);
    saved := c.world.store;
    assert saved.nodes == map["n1" := ONE, "n2" := TWO] && c.machines == map["n1" := IDLE, "n2" := IDLE];
    FitsEmpty(strict, c.world, REPLICA);
    Extend(strict, START, steps, Operate(SaveAssignment(REPLICA)));
    steps := steps + [Operate(SaveAssignment(REPLICA))];
  }

  // n1 holds the replica, and the store is back where it was before it was placed.
  lemma HeldAndForgotten(strict: bool) returns (steps: seq<Step>)
    ensures Run(strict, START, steps)
    ensures var c := After(START, steps);
      && c.world.store.assignments == map[] && c.world.store.nodes == map["n1" := ONE, "n2" := TWO]
      && c.world.store.services == map["web" := WEB]
      && c.machines.Keys == {"n1", "n2"} && c.machines["n2"] == IDLE && "web-1" in c.machines["n1"].held
  {
    hide Run, After, StoreInv;
    var placed, saved := SavedAndPlaced(strict);
    steps := FirstStarted(strict, START, placed, REPLICA);
    Extend(strict, START, steps, Restore(saved));
    steps := steps + [Restore(saved)];
  }
}
