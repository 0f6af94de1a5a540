/** What holds over every run of the cluster. */
module ClusterSafety {
  import opened Order
  import opened Api
  import opened Load
  import opened StoreState
  import opened Discipline
  import opened Handlers
  import opened Interference
  import opened MemoryStores
  import opened Reconciling
  import opened Outcomes
  import opened Runtimes
  import opened Agents
  import opened Clusters

  // --- Placement and runtime -----------------------------------------------

  lemma Reachable(strict: bool, steps: seq<Step>)
    requires Run(strict, START, steps)
    ensures ClusterInv(strict, After(START, steps))
  {
    StartHolds(strict);
    RunKeeps(strict, START, steps);
  }

  lemma HeldIsSafe(strict: bool, c: Cluster, n: string)
    requires ClusterInv(strict, c) && n in c.machines
    ensures Safe(DemandsOf(c.machines[n].held), c.machines[n].capacity)
  {
    var p := c.machines[n];
    assert MachineInv(c.world.born, c.archive, n, p);
    var s :| s in c.archive && Within(DemandsOf(p.held), LoadOf(s.assignments, n));
    assert WorldInv(strict, World(s, c.world.born));
    ListIsSafe(s, n, p.capacity) by { assert Carries(c.machines, s); }
    LoadIsSane(s, n);
    SafeWithin(DemandsOf(p.held), LoadOf(s.assignments, n), p.capacity);
  }

  lemma LoadIsSane(s: State, n: string)
    requires StoreInv(s)
    ensures NonNegative(LoadOf(s.assignments, n))
  {
  }

  lemma NoLoad(m: map<string, Assignment>, n: string, capacity: Resources)
    requires capacity.NonNegative() && forall id | id in m :: m[id].nodeId != n
    ensures Safe(LoadOf(m, n), capacity)
  {
    assert LoadOf(m, n) == map[];
  }

  /** What any state of the store has active on a node fits the machine. */
  lemma ListIsSafe(s: State, n: string, capacity: Resources)
    requires StoreInv(s) && capacity.NonNegative()
    requires n in s.nodes ==> s.nodes[n].capacity.AtMost(capacity)
    ensures Safe(LoadOf(s.assignments, n), capacity)
  {
    hide JobCounts, SaneSpecs, Keyed, LoadOf, PortsApart;
    if n !in s.nodes { NoLoad(s.assignments, n, capacity); }
  }

  /** Whatever happens (partitions, lost or late reports, agent and controller
      restarts, crashes, restores, in the middle of a sync), the workloads on a
      machine never exceed its CPU and memory and never share a port. */
  lemma RuntimeSafety(strict: bool, steps: seq<Step>, n: string)
    requires Run(strict, START, steps) && n in After(START, steps).machines
    ensures var p := After(START, steps).machines[n];
      Safe(DemandsOf(p.held), p.capacity)
  {
    Reachable(strict, steps);
    HeldIsSafe(strict, After(START, steps), n);
  }

  /** An assignment only ever runs on the node it was placed on: nowhere twice. */
  lemma HeldWherePlaced(strict: bool, steps: seq<Step>, n1: string, n2: string, id: string)
    requires Run(strict, START, steps)
    requires var c := After(START, steps); n1 in c.machines && n2 in c.machines && id in c.machines[n1].held && id in c.machines[n2].held
    ensures n1 == n2
    ensures id in After(START, steps).world.born && After(START, steps).world.born[id].nodeId == n1
  {
    Reachable(strict, steps);
    var c := After(START, steps);
    assert MachineInv(c.world.born, c.archive, n1, c.machines[n1]);
    assert MachineInv(c.world.born, c.archive, n2, c.machines[n2]);
  }

  /** The store's invariant over every run: placements fit, every assignment's
      node is known, jobs keep their budget; and with no admin delete inside a
      reconcile, owners exist and attempts are numbered. */
  lemma StoreAlwaysSound(strict: bool, steps: seq<Step>, s: State)
    requires Run(strict, START, steps) && s in After(START, steps).archive + {After(START, steps).world.store}
    ensures Placed(s) && KnownNodes(s) && SaneSpecs(s) && (forall name :: JobCounts(s, name))
    ensures strict ==> OwnersExist(s) && forall name :: AttemptsNumbered(s.assignments, name) && FailuresApart(s.assignments, name)
  {
    hide Run, After, Carries, MachineInv, Remembers;
    Reachable(strict, steps);
    assert WorldInv(strict, World(s, After(START, steps).world.born));
  }

  // The handler's list, read the way the agent reads it.
  lemma HandedOutList(s: State, n: string)
    requires Keyed(s)
    ensures Desired(Listing(ActiveOn(s.assignments, n), AssignmentLess)) == WantedOn(s.assignments, n)
  {
    ApiOrders();
    var on := ActiveOn(s.assignments, n);
    AssignmentsTotal(on);
    ListingExists(on, AssignmentLess);
    DesiredOfListing(Listing(on, AssignmentLess), WantedOn(s.assignments, n));
  }

  lemma {:induction false} DesiredOfListing(list: seq<Assignment>, want: map<string, Assignment>)
    requires forall a | a in list :: a.Active() && a.id in want && want[a.id] == a
    requires forall id | id in want :: want[id] in list && want[id].id == id
    ensures Desired(list) == want
  {
    DesiredIs(list, want);
    DesiredKeyed(list);
    forall id | id in want ensures id in Desired(list) { assert want[id] in list; }
  }

  lemma {:induction false} DesiredIs(list: seq<Assignment>, want: map<string, Assignment>)
    requires forall a | a in list :: a.Active() && a.id in want && want[a.id] == a
    ensures forall a | a in list :: a.id in Desired(list)
    ensures forall id | id in Desired(list) :: id in want && Desired(list)[id] == want[id]
  {
    if list != [] {
      var k := |list| - 1;
      assert list == list[..k] + [list[k]];
      DesiredIs(list[..k], want);
    }
  }

  // --- The controller is among the steps -----------------------------------

  // What a request the controller serves is to the cluster.
  function RequestStep(caller: string, request: ApiRequest, now: int, op: Op): Step {
    match request
    case Register(node) => Join(node, now)
    case ReportStatus(id, phase, message) => Deliver(Letter(caller, Report(id, phase, message)), now)
    case _ => Operate(op)
  }

  // What the store cannot see: a report was sent, a machine has not shrunk.
  predicate Carried(c: Cluster, step: Step) {
    match step
    case Deliver(letter, _) => letter in c.sent
    case Join(node, _) => node.id in c.machines ==> c.machines[node.id].capacity.AtMost(node.capacity)
    case _ => true
  }

  predicate AllCarried(c: Cluster, steps: seq<Step>) {
    steps == [] || (AllCarried(c, steps[..|steps| - 1]) && Carried(After(c, steps[..|steps| - 1]), steps[|steps| - 1]))
  }

  // An operation of a trace is a step of the cluster with that effect on the store.
  lemma OpIsStep(mode: Mode, c: Cluster, op: Op) returns (step: Step)
    requires Guarded(Strict(mode), c.world, op) && Allowed(mode, c.world.store, op)
    ensures Take(c, step).world == ApplyWorld(c.world, op) && Take(c, step).sent == c.sent
    ensures Carried(c, step) ==> Enabled(Strict(mode), c, step)
    ensures mode.Quiet? ==> step == Operate(op)
  {
    if IsLoopOp(op) {
      step := Operate(op);
    } else {
      var caller, request, now :| Asked(mode, c.world.store, caller, request, now, op);
      step := RequestStep(caller, request, now, op);
      RequestIsStep(mode, c, caller, request, now, op);
    }
  }

  lemma RequestIsStep(mode: Mode, c: Cluster, caller: string, request: ApiRequest, now: int, op: Op)
    requires Asked(mode, c.world.store, caller, request, now, op) && Guarded(Strict(mode), c.world, op)
    ensures var step := RequestStep(caller, request, now, op);
      && Take(c, step).world == ApplyWorld(c.world, op) && Take(c, step).sent == c.sent
      && (Carried(c, step) ==> Enabled(Strict(mode), c, step))
  {
    hide HasRoom, MayRun, LoadOf;
  }

  /** Whatever handlers ran in between, the trace a reconcile leaves behind is a
      run of the cluster to the same store, provided the reports among it were
      sent and no machine registered with less than it had. */
  lemma {:induction false} TraceRuns(mode: Mode, c: Cluster, ops: seq<Op>) returns (steps: seq<Step>)
    requires InOrder(mode, c.world, ops, 0)
    ensures |steps| == |ops| && After(c, steps).world == Replay(c.world, ops) && After(c, steps).sent == c.sent
    ensures AllCarried(c, steps) ==> Run(Strict(mode), c, steps)
    ensures mode.Quiet? ==> steps == Operations(ops)
    decreases |ops|
  {
    hide Guarded, Allowed, Enabled, Take, Carried;
    if ops == [] {
      steps := [];
    } else {
      var k := |ops| - 1;
      var before := TraceRuns(mode, c, ops[..k]);
      var step := OpIsStep(mode, After(c, before), ops[k]);
      steps := before + [step];
      assert steps[..k] == before;
    }
  }

  function Operations(ops: seq<Op>): seq<Step> {
    if ops == [] then [] else Operations(ops[..|ops| - 1]) + [Operate(ops[|ops| - 1])]
  }

  lemma {:induction false} OperationsCarried(c: Cluster, ops: seq<Op>)
    ensures AllCarried(c, Operations(ops)) && After(c, Operations(ops)).machines == c.machines
  {
    if ops != [] {
      var k := |ops| - 1;
      OperationsCarried(c, ops[..k]);
      assert Operations(ops)[..|Operations(ops[..k])|] == Operations(ops[..k]);
    }
  }

  /** An undisturbed reconcile is a run of the cluster, operation by operation. */
  lemma LoopRuns(mode: Mode, c: Cluster, ops: seq<Op>, v: World)
    requires mode.Quiet? && IsTrace(mode, c.world, ops, v)
    ensures Run(Strict(mode), c, Operations(ops)) && After(c, Operations(ops)).world == v
    ensures After(c, Operations(ops)).machines == c.machines && After(c, Operations(ops)).sent == c.sent
  {
    var steps := TraceRuns(mode, c, ops);
    OperationsCarried(c, ops);
  }

  // --- Runs without a restore ----------------------------------------------

  predicate NoRestore(steps: seq<Step>) { forall step | step in steps :: !step.Restore? }

  // What became of c's assignments by d: later versions, or gone for good.
  ghost predicate Follows(w: World, v: World) {
    && BornGrows(w.born, v.born)
    && forall id | id in w.born && id in v.store.assignments ::
         id in w.store.assignments && Evolves(w.store.assignments[id], v.store.assignments[id])
  }

  lemma FollowsTrans(u: World, v: World, w: World)
    requires Follows(u, v) && Follows(v, w)
    ensures Follows(u, w)
  {
    forall id | id in u.born && id in w.store.assignments
      ensures id in u.store.assignments && Evolves(u.store.assignments[id], w.store.assignments[id])
    {
      EvolvesTrans(u.store.assignments[id], v.store.assignments[id], w.store.assignments[id]);
    }
  }

  lemma FollowsRefl(w: World)
    ensures Follows(w, w)
  {
  }

  lemma OperationFollows(strict: bool, w: World, op: Op)
    requires WorldInv(strict, w) && Guarded(strict, w, op)
    ensures Follows(w, ApplyWorld(w, op))
  {
    hide Placed, KnownNodes, JobCounts, StrictInv, HasRoom, MayRun, Quantities;
    if !op.SaveAssignment? { NonSaveShrinks(w.store, op); }
  }

  // The operation a step performs on the store, if any.
  function Performed(c: Cluster, step: Step): Option<Op> {
    match step
    case Operate(op) => Some(op)
    case Join(node, now) => Some(UpsertNode(node.(lastHeartbeat := now)))
    case Deliver(letter, now) => Heard(c.world.store, letter, now)
    case _ => None
  }

  lemma WorldAfter(strict: bool, c: Cluster, step: Step)
    requires ClusterInv(strict, c) && Enabled(strict, c, step) && !step.Restore?
    ensures var op := Performed(c, step);
      if op.Some? then Guarded(strict, c.world, op.value) && Take(c, step).world == ApplyWorld(c.world, op.value)
      else Take(c, step).world == c.world
  {
    hide WorldInv, MachineInv;
    match step
    case Deliver(letter, now) =>
      EffectIsGuarded(strict, c.world, letter.sender, ReportStatus(letter.report.id, letter.report.phase, letter.report.message), now);
    case Join(node, now) => JoinGrows(strict, c, node);
    case _ =>
  }

  lemma InvHasWorld(strict: bool, c: Cluster)
    requires ClusterInv(strict, c)
    ensures WorldInv(strict, c.world)
  {
    assert WorldInv(strict, World(c.world.store, c.world.born));
    assert World(c.world.store, c.world.born) == c.world;
  }

  lemma StepFollows(strict: bool, c: Cluster, step: Step)
    requires ClusterInv(strict, c) && Enabled(strict, c, step) && !step.Restore?
    ensures Follows(c.world, Take(c, step).world)
  {
    hide ClusterInv, Enabled, Take, Performed, WorldInv, Guarded, Follows;
    WorldAfter(strict, c, step);
    InvHasWorld(strict, c);
    var op := Performed(c, step);
    FollowsRefl(c.world);
    if op.Some? { OperationFollows(strict, c.world, op.value); }
  }

  lemma {:induction false} RunFollows(strict: bool, c: Cluster, steps: seq<Step>)
    requires ClusterInv(strict, c) && Run(strict, c, steps) && NoRestore(steps)
    ensures Follows(c.world, After(c, steps).world)
  {
    hide ClusterInv, Enabled, Take, Follows;
    if steps == [] {
      FollowsRefl(c.world);
    } else {
      var k := |steps| - 1;
      RunFollows(strict, c, steps[..k]);
      RunKeeps(strict, c, steps[..k]);
      StepFollows(strict, After(c, steps[..k]), steps[k]);
      FollowsTrans(c.world, After(c, steps[..k]).world, After(c, steps).world);
    }
  }

  /** Finished is final: from any reachable state on, for as long as nothing is
      restored, an assignment that has finished or is gone is never changed, never
      handed to an agent, and never comes back. */
  lemma TerminalAbsorbs(strict: bool, history: seq<Step>, steps: seq<Step>, id: string, n: string)
    requires Run(strict, START, history) && Run(strict, After(START, history), steps) && NoRestore(steps)
    requires Dead(After(START, history).world, id)
    ensures var m, later := After(START, history).world.store.assignments, After(After(START, history), steps).world.store.assignments;
      && (id in later ==> id in m && later[id] == m[id])
      && id !in WantedOn(later, n)
  {
    hide ClusterInv, Run, After, StoreInv, StrictInv;
    Reachable(strict, history);
    RunFollows(strict, After(START, history), steps);
    InvHasWorld(strict, After(START, history));
  }

  /** Start times too: from any reachable state on, for as long as nothing is
      restored, an assignment keeps its specification, its first start time, and
      times that match its phase. */
  lemma FirstStartStands(strict: bool, history: seq<Step>, steps: seq<Step>, id: string)
    requires Run(strict, START, history) && Run(strict, After(START, history), steps) && NoRestore(steps)
    requires id in After(START, history).world.store.assignments
    requires id in After(After(START, history), steps).world.store.assignments
    ensures var a, b := After(START, history).world.store.assignments[id], After(After(START, history), steps).world.store.assignments[id];
      && SameSpec(a, b) && TimesMatchPhase(a) && TimesMatchPhase(b)
      && (a.startedAt.Some? ==> b.startedAt == a.startedAt)
  {
    hide ClusterInv, Run, After, WorldInv;
    var c := After(START, history);
    Reachable(strict, history);
    RunFollows(strict, c, steps);
    RunKeeps(strict, c, steps);
    InvHasWorld(strict, c);
    InvHasWorld(strict, After(c, steps));
    TimesSound(strict, c.world, id);
    TimesSound(strict, After(c, steps).world, id);
  }

  lemma TimesSound(strict: bool, w: World, id: string)
    requires WorldInv(strict, w) && id in w.store.assignments
    ensures id in w.born && TimesMatchPhase(w.store.assignments[id])
  {
  }

  // --- Times told ----------------------------------------------------------

  // The step brought word at that time that id runs.
  predicate ToldRunning(step: Step, id: string, at: int) {
    step.Deliver? && step.now == at && step.letter.report.id == id && step.letter.report.phase == Running
  }

  // The step set id to the phase at that time: a report, or the loop's verdict.
  predicate ToldOver(step: Step, id: string, phase: Phase, at: int) {
    || (step.Deliver? && step.now == at && step.letter.report.id == id && step.letter.report.phase == phase)
    || (step.Operate? && step.op.UpdateAssignmentStatus? && step.op.id == id && step.op.phase == phase && step.op.now == at)
  }

  ghost predicate TimesTold(steps: seq<Step>, a: Assignment) {
    && (a.startedAt.Some? ==> exists step | step in steps :: ToldRunning(step, a.id, a.startedAt.value))
    && (a.finishedAt.Some? ==> exists step | step in steps :: ToldOver(step, a.id, a.phase, a.finishedAt.value))
  }

  ghost predicate AllTold(steps: seq<Step>, s: State) {
    forall id | id in s.assignments :: TimesTold(steps, s.assignments[id])
  }

  lemma ToldStays(steps: seq<Step>, step: Step, a: Assignment)
    requires TimesTold(steps, a)
    ensures TimesTold(steps + [step], a)
  {
    assert forall x | x in steps :: x in steps + [step];
  }

  // A status update that the step stands for.
  lemma UpdateTold(steps: seq<Step>, step: Step, a: Assignment, b: Assignment, phase: Phase, message: string, now: int)
    requires TimesTold(steps, a) && StatusMoved(a, phase, message, now, b)
    requires a.phase == Pending || a.phase == Running ==> a.finishedAt == None
    requires phase == Running ==> ToldRunning(step, a.id, now)
    requires ToldOver(step, a.id, phase, now)
    ensures TimesTold(steps + [step], b)
  {
    hide ToldRunning, ToldOver;
    ToldStays(steps, step, a);
    assert step in steps + [step];
  }

  lemma OperationTold(strict: bool, w: World, op: Op, steps: seq<Step>, step: Step)
    requires WorldInv(strict, w) && Guarded(strict, w, op) && AllTold(steps, w.store)
    requires op.UpdateAssignmentStatus? ==> ToldOver(step, op.id, op.phase, op.now)
    requires op.UpdateAssignmentStatus? && op.phase == Running ==> ToldRunning(step, op.id, op.now)
    ensures AllTold(steps + [step], Apply(w.store, op))
  {
    hide ToldRunning, ToldOver, TimesTold, StatusMoved, ApplyStatus, WorldInv, Guarded;
    var t := Apply(w.store, op);
    forall id | id in t.assignments ensures TimesTold(steps + [step], t.assignments[id]) {
      if op.UpdateAssignmentStatus? && op.id == id {
        StatusExactly(w.store.assignments[id], op.phase, op.message, op.now);
        WhileUnderWay(strict, w, id);
        UpdateTold(steps, step, w.store.assignments[id], t.assignments[id], op.phase, op.message, op.now);
      } else if op.SaveAssignment? && op.assignment.id == id {
        JustSaved(strict, w, op.assignment, steps + [step]);
      } else {
        ToldStays(steps, step, w.store.assignments[id]);
      }
    }
  }

  lemma WhileUnderWay(strict: bool, w: World, id: string)
    requires WorldInv(strict, w) && id in w.store.assignments
    ensures var a := w.store.assignments[id]; a.id == id && (a.phase == Pending || a.phase == Running ==> a.finishedAt == None)
  {
  }

  lemma JustSaved(strict: bool, w: World, a: Assignment, steps: seq<Step>)
    requires Guarded(strict, w, SaveAssignment(a))
    ensures TimesTold(steps, a)
  {
  }

  lemma StepTold(strict: bool, c: Cluster, step: Step, steps: seq<Step>)
    requires ClusterInv(strict, c) && Enabled(strict, c, step) && forall s | s in c.archive :: AllTold(steps, s)
    ensures forall s | s in Take(c, step).archive :: AllTold(steps + [step], s)
  {
    hide ClusterInv, Guarded, AllTold, Apply;
    forall s | s in c.archive ensures AllTold(steps + [step], s) { AllStillTold(steps, step, s); }
    if !step.Restore? {
      InvHasWorld(strict, c);
      InArchive(strict, c);
      WorldAfter(strict, c, step);
      var op := Performed(c, step);
      if op.Some? { OperationTold(strict, c.world, op.value, steps, step); }
    }
  }

  lemma AllStillTold(steps: seq<Step>, step: Step, s: State)
    requires AllTold(steps, s)
    ensures AllTold(steps + [step], s)
  {
    forall id | id in s.assignments ensures TimesTold(steps + [step], s.assignments[id]) { ToldStays(steps, step, s.assignments[id]); }
  }

  lemma InArchive(strict: bool, c: Cluster)
    requires ClusterInv(strict, c)
    ensures c.world.store in c.archive
  {
  }

  lemma {:induction false} RunTold(strict: bool, steps: seq<Step>)
    requires Run(strict, START, steps)
    ensures forall s | s in After(START, steps).archive :: AllTold(steps, s)
  {
    hide ClusterInv, Enabled, Take, TimesTold;
    if steps != [] {
      var k := |steps| - 1;
      RunTold(strict, steps[..k]);
      Reachable(strict, steps[..k]);
      StepTold(strict, After(START, steps[..k]), steps[k], steps[..k]);
      assert steps == steps[..k] + [steps[k]];
    }
  }

  /** No time without its word: in every run, restores included, an assignment has a
      start time only if a report that it runs arrived at that very time, and a
      finish only if a report or the loop set its present phase at that time. */
  lemma EveryTimeWasTold(strict: bool, steps: seq<Step>, id: string)
    requires Run(strict, START, steps) && id in After(START, steps).world.store.assignments
    ensures var a := After(START, steps).world.store.assignments[id];
      && (a.startedAt.Some? ==> exists step | step in steps :: ToldRunning(step, id, a.startedAt.value))
      && (a.finishedAt.Some? ==> exists step | step in steps :: ToldOver(step, id, a.phase, a.finishedAt.value))
  {
    hide ClusterInv, Run, After, ToldRunning, ToldOver;
    var c := After(START, steps);
    Reachable(strict, steps);
    InArchive(strict, c);
    RunTold(strict, steps);
    InvHasWorld(strict, c);
    WhileUnderWay(strict, c.world, id);
    assert TimesTold(steps, c.world.store.assignments[id]);
  }

  // --- Late reports --------------------------------------------------------

  // Gone or finished: no report about it can change anything any more.
  predicate Dead(w: World, id: string) {
    id in w.born && (id in w.store.assignments ==> IsTerminalPhase(w.store.assignments[id].phase))
  }

  lemma DeadStays(w: World, v: World, id: string)
    requires Follows(w, v) && Dead(w, id)
    ensures Dead(v, id)
  {
  }

  ghost predicate StopsOnlyDead(w: World, sent: seq<Letter>) {
    forall letter | letter in sent && letter.report.phase == Stopped :: Dead(w, letter.report.id)
  }

  ghost predicate DroppingDead(w: World, p: Machine) {
    && (p.stage.Stopping? ==> forall id | id in p.stage.todo :: Dead(w, id))
    && forall id | id in p.held :: p.held[id].phase != Stopped
  }

  ghost predicate NoneStopped(s: State) {
    forall id | id in s.assignments :: s.assignments[id].phase != Stopped
  }

  ghost predicate LateInv(c: Cluster) {
    && StopsOnlyDead(c.world, c.sent)
    && NoneStopped(c.world.store)
    && forall n | n in c.machines :: DroppingDead(c.world, c.machines[n])
  }

  // A Stopped report about dead work leaves the store as it is.
  lemma DeadReportIdle(s: State, born: map<string, Assignment>, letter: Letter, now: int)
    requires Dead(World(s, born), letter.report.id)
    ensures Heard(s, letter, now).Some? ==> Apply(s, Heard(s, letter, now).value) == s
  {
    var id := letter.report.id;
    if id in s.assignments { assert s.assignments[id := s.assignments[id]] == s.assignments; }
  }

  lemma OperationStopsNone(strict: bool, w: World, op: Op)
    requires Guarded(strict, w, op) && NoneStopped(w.store) && !(op.UpdateAssignmentStatus? && op.phase == Stopped)
    ensures NoneStopped(Apply(w.store, op))
  {
  }

  lemma NoneStoppedStep(strict: bool, c: Cluster, step: Step)
    requires ClusterInv(strict, c) && Enabled(strict, c, step) && !step.Restore? && LateInv(c)
    ensures NoneStopped(Take(c, step).world.store)
  {
    hide ClusterInv, Take, Apply, Guarded, StopsOnlyDead, DroppingDead, NoneStopped;
    WorldAfter(strict, c, step);
    var op := Performed(c, step);
    if step.Deliver? && step.letter.report.phase == Stopped {
      DeadLetter(c, step.letter);
      DeadReportIdle(c.world.store, c.world.born, step.letter, step.now);
    } else if op.Some? {
      OperationStopsNone(strict, c.world, op.value);
    }
  }

  lemma DeadLetter(c: Cluster, letter: Letter)
    requires LateInv(c) && letter in c.sent && letter.report.phase == Stopped
    ensures Dead(World(c.world.store, c.world.born), letter.report.id)
  {
    assert World(c.world.store, c.world.born) == c.world;
  }

  // What is held but not handed out is dead.
  lemma UnwantedIsDead(strict: bool, c: Cluster, n: string, id: string)
    requires ClusterInv(strict, c) && n in c.machines && id in c.machines[n].held
    requires id !in WantedOn(c.world.store.assignments, n)
    ensures Dead(c.world, id)
  {
    hide StoreInv, StrictInv, Based, StageInv;
    InvHasWorld(strict, c);
    assert MachineInv(c.world.born, c.archive, n, c.machines[n]);
  }

  lemma DroppingStays(w: World, v: World, p: Machine)
    requires DroppingDead(w, p) && Follows(w, v)
    ensures DroppingDead(v, p)
  {
    if p.stage.Stopping? {
      forall id | id in p.stage.todo ensures Dead(v, id) { DeadStays(w, v, id); }
    }
  }

  lemma LettersStay(w: World, v: World, sent: seq<Letter>)
    requires StopsOnlyDead(w, sent) && Follows(w, v)
    ensures StopsOnlyDead(v, sent)
  {
    forall letter | letter in sent && letter.report.phase == Stopped ensures Dead(v, letter.report.id) { DeadStays(w, v, letter.report.id); }
  }

  // The machine a step works on.
  predicate Touches(step: Step, n: string) {
    match step
    case Operate(_) | Deliver(_, _) | Restore(_) | LateEnd(_, _, _, _) => false
    case Join(node, _) => node.id == n
    case _ => step.n == n
  }

  lemma UntouchedMachine(c: Cluster, step: Step, n: string)
    requires !Touches(step, n)
    ensures n in Take(c, step).machines <==> n in c.machines
    ensures n in c.machines ==> Take(c, step).machines[n] == c.machines[n]
  {
  }

  lemma TouchedMachine(strict: bool, c: Cluster, step: Step, n: string)
    requires ClusterInv(strict, c) && Enabled(strict, c, step) && LateInv(c)
    requires Touches(step, n) && n in Take(c, step).machines && !step.Fetch?
    ensures DroppingDead(c.world, Take(c, step).machines[n])
  {
    hide MachineInv, WorldInv, StopsOnlyDead, NoneStopped, Guarded;
  }

  lemma FetchedMachine(strict: bool, c: Cluster, n: string)
    requires ClusterInv(strict, c) && Shaped(c, Fetch(n)) && LateInv(c)
    ensures DroppingDead(c.world, Take(c, Fetch(n)).machines[n])
  {
    hide ClusterInv, StopsOnlyDead, NoneStopped, WantedOn;
    var p := Take(c, Fetch(n)).machines[n];
    forall id | id in p.stage.todo ensures Dead(c.world, id) { UnwantedIsDead(strict, c, n, id); }
  }

  lemma LettersStep(c: Cluster, step: Step)
    requires Shaped(c, step) && LateInv(c)
    ensures StopsOnlyDead(c.world, Take(c, step).sent)
  {
    hide NoneStopped, Guarded, Apply;
    match step
    case StartNext(n, id) => assert DroppingDead(c.world, c.machines[n]);
    case StopNext(n, id) => assert DroppingDead(c.world, c.machines[n]);
    case _ =>
  }

  lemma LateStep(strict: bool, c: Cluster, step: Step)
    requires ClusterInv(strict, c) && Enabled(strict, c, step) && !step.Restore? && LateInv(c)
    ensures LateInv(Take(c, step))
  {
    hide ClusterInv, Enabled, Take, Follows, StopsOnlyDead, DroppingDead, NoneStopped;
    var c' := Take(c, step);
    StepFollows(strict, c, step);
    NoneStoppedStep(strict, c, step);
    ShapedIfEnabled(strict, c, step);
    LettersStep(c, step);
    LettersStay(c.world, c'.world, c'.sent);
    forall n | n in c'.machines ensures DroppingDead(c'.world, c'.machines[n]) {
      if !Touches(step, n) {
        UntouchedMachine(c, step, n);
      } else if step.Fetch? {
        FetchedMachine(strict, c, n);
      } else {
        TouchedMachine(strict, c, step, n);
      }
      DroppingStays(c.world, c'.world, c'.machines[n]);
    }
  }

  lemma ShapedIfEnabled(strict: bool, c: Cluster, step: Step)
    requires Enabled(strict, c, step)
    ensures Shaped(c, step)
  {
  }

  lemma {:induction false} LateRun(strict: bool, steps: seq<Step>)
    requires Run(strict, START, steps) && NoRestore(steps)
    ensures LateInv(After(START, steps))
  {
    hide ClusterInv, Enabled, Take;
    if steps != [] {
      var k := |steps| - 1;
      LateRun(strict, steps[..k]);
      Reachable(strict, steps[..k]);
      LateStep(strict, After(START, steps[..k]), steps[k]);
    }
  }

  /** In every run without a restore, a Stopped report, however late and however
      often it arrives, leaves the store unchanged; so no assignment is ever Stopped. */
  lemma LateReportsAreHarmless(strict: bool, steps: seq<Step>, letter: Letter, now: int)
    requires Run(strict, START, steps) && NoRestore(steps)
    requires letter in After(START, steps).sent && letter.report.phase == Stopped
    ensures var c := After(START, steps);
      && Take(c, Deliver(letter, now)).world == c.world
      && forall id | id in c.world.store.assignments :: c.world.store.assignments[id].phase != Stopped
  {
    hide Run, ClusterInv, StopsOnlyDead;
    var c := After(START, steps);
    LateRun(strict, steps);
    DeadLetter(c, letter);
    DeadReportIdle(c.world.store, c.world.born, letter, now);
  }

  // --- Attempts over a run -------------------------------------------------

  function FailedBefore(s: State, name: string, before: set<string>): set<string> {
    FailedIds(s.assignments, name) * before
  }

  // Runs of one job leave the store together.
  lemma SameFate(strict: bool, w: World, op: Op, i: string, j: string, name: string)
    requires Guarded(strict, w, op)
    requires i in w.store.assignments && w.store.assignments[i].OwnedBy(JobKind, name)
    requires j in w.store.assignments && w.store.assignments[j].OwnedBy(JobKind, name)
    ensures j in Apply(w.store, op).assignments ==> i in Apply(w.store, op).assignments
  {
    hide MayPlace;
  }

  lemma StillThere(w: World, v: World, id: string)
    requires Follows(w, v) && id in w.born && id in v.store.assignments
    ensures id in w.store.assignments
  {
  }

  lemma {:induction false} RunsStayTogether(strict: bool, c: Cluster, steps: seq<Step>, i: string, j: string, name: string)
    requires ClusterInv(strict, c) && Run(strict, c, steps) && NoRestore(steps)
    requires i in c.world.store.assignments && c.world.store.assignments[i].OwnedBy(JobKind, name)
    requires j in c.world.store.assignments && c.world.store.assignments[j].OwnedBy(JobKind, name)
    requires j in After(c, steps).world.store.assignments
    ensures i in After(c, steps).world.store.assignments
  {
    hide Enabled, Take, ClusterInv, WorldInv, Guarded, Apply, Performed, Follows;
    if steps != [] {
      var k := |steps| - 1;
      var d := After(c, steps[..k]);
      RunKeeps(strict, c, steps[..k]);
      StepFollows(strict, d, steps[k]);
      RunFollows(strict, c, steps[..k]);
      InvHasWorld(strict, c);
      InvHasWorld(strict, d);
      StillOwned(strict, c.world, d.world, i, name);
      StillOwned(strict, c.world, d.world, j, name);
      WorldAfter(strict, d, steps[k]);
      var op := Performed(d, steps[k]);
      StillThere(d.world, Take(d, steps[k]).world, j);
      RunsStayTogether(strict, c, steps[..k], i, j, name);
      if op.Some? { SameFate(strict, d.world, op.value, i, j, name); }
    }
  }

  lemma StillOwned(strict: bool, w: World, v: World, id: string, name: string)
    requires WorldInv(strict, w) && Follows(w, v)
    requires id in w.store.assignments && w.store.assignments[id].OwnedBy(JobKind, name)
    ensures id in w.born && id in v.born
    ensures id in v.store.assignments ==> v.store.assignments[id].OwnedBy(JobKind, name)
  {
    hide StoreInv, StrictInv;
  }

  /** A run of a job carries the number 1 + the failed runs created before it,
      for as long as it is in the store: whatever happened before it was saved and
      whatever happens later without a restore. Lost runs created before it do not
      count. */
  lemma AttemptCountsEarlierFailures(history: seq<Step>, a: Assignment, steps: seq<Step>)
    requires Run(true, START, history + [Operate(SaveAssignment(a))]) && a.ownerKind == JobKind
    requires var saved := After(START, history + [Operate(SaveAssignment(a))]);
      Run(true, saved, steps) && NoRestore(steps) && a.id in After(saved, steps).world.store.assignments
    ensures var before, later := After(START, history), After(After(START, history + [Operate(SaveAssignment(a))]), steps);
      && later.world.store.assignments[a.id].attempt == a.attempt
      && a.attempt == 1 + |FailedBefore(later.world.store, a.ownerName, before.world.born.Keys)|
  {
    hide ClusterInv, WorldInv, Enabled, Follows, Take;
    var all := history + [Operate(SaveAssignment(a))];
    assert all[..|history|] == history;
    Reachable(true, history);
    Reachable(true, all);
    SavedRunCounts(After(START, history), a, steps);
  }

  lemma SavedRunCounts(c: Cluster, a: Assignment, steps: seq<Step>)
    requires ClusterInv(true, c) && a.ownerKind == JobKind
    requires Enabled(true, c, Operate(SaveAssignment(a)))
    requires var c1 := Take(c, Operate(SaveAssignment(a)));
      Run(true, c1, steps) && NoRestore(steps) && a.id in After(c1, steps).world.store.assignments
    ensures var d := After(Take(c, Operate(SaveAssignment(a))), steps);
      && d.world.store.assignments[a.id].attempt == a.attempt
      && a.attempt == 1 + |FailedBefore(d.world.store, a.ownerName, c.world.born.Keys)|
  {
    hide ClusterInv, WorldInv, Enabled, Follows, Run;
    var c1 := Take(c, Operate(SaveAssignment(a)));
    var d := After(c1, steps);
    StepKeeps(true, c, Operate(SaveAssignment(a)));
    RunFollows(true, c1, steps);
    SavedRun(c, a);
    forall id | id in FailedIds(c.world.store.assignments, a.ownerName) ensures id in d.world.store.assignments {
      RunsStayTogether(true, c1, steps, id, a.id, a.ownerName);
    }
    EarlierFailuresStand(c.world, c1.world, d.world, a);
    SavedStands(c1.world, d.world, a);
  }

  lemma SavedRun(c: Cluster, a: Assignment)
    requires ClusterInv(true, c) && a.ownerKind == JobKind && Enabled(true, c, Operate(SaveAssignment(a)))
    ensures WorldInv(true, c.world) && MayRun(true, c.world.store, a) && a.id !in c.world.born
  {
    hide ClusterInv, WorldInv, HasRoom, MayRun, Take;
    InvHasWorld(true, c);
  }

  lemma SavedStands(w: World, v: World, a: Assignment)
    requires Follows(w, v) && a.id in w.born && a.id in w.store.assignments && w.store.assignments[a.id] == a
    ensures a.id in v.store.assignments ==> v.store.assignments[a.id].attempt == a.attempt
  {
  }

  lemma EarlierFailuresStand(w: World, w1: World, v: World, a: Assignment)
    requires WorldInv(true, w) && MayRun(true, w.store, a) && a.ownerKind == JobKind && a.id !in w.born
    requires w1 == ApplyWorld(w, SaveAssignment(a)) && Follows(w1, v)
    requires forall id | id in FailedIds(w.store.assignments, a.ownerName) :: id in v.store.assignments
    ensures FailedBefore(v.store, a.ownerName, w.born.Keys) == FailedIds(w.store.assignments, a.ownerName)
  {
    hide StoreInv, StrictInv;
    var failed := FailedIds(w.store.assignments, a.ownerName);
    forall id ensures id in FailedBefore(v.store, a.ownerName, w.born.Keys) <==> id in failed {
      if id in w.store.assignments && w.store.assignments[id].OwnedBy(JobKind, a.ownerName) {
        assert id !in ActiveIds(w.store.assignments, JobKind, a.ownerName);
        assert IsTerminalPhase(w.store.assignments[id].phase);
        assert w1.store.assignments[id] == w.store.assignments[id];
      }
    }
  }

  /** Numbering without a history: in any sound store the number of a run is 1 +
      the failed runs numbered below it. */
  lemma AttemptCountsFailuresBelow(s: State, name: string, id: string)
    requires AttemptsNumbered(s.assignments, name) && FailuresApart(s.assignments, name)
    requires id in s.assignments && s.assignments[id].OwnedBy(JobKind, name)
    ensures var m := s.assignments;
      m[id].attempt == 1 + |set i | i in FailedIds(m, name) && m[i].attempt < m[id].attempt|
  {
    var m, failed, k := s.assignments, FailedIds(s.assignments, name), s.assignments[id].attempt;
    var below := set i | i in failed && m[i].attempt < k;
    var rest := failed - below;
    assert NumberedAfter(m[id], |failed|);
    forall i | i in failed ensures 1 <= m[i].attempt <= |failed| { assert NumberedAfter(m[i], |failed|); }
    assert |failed| == |below| + |rest| by { assert failed == below + rest; }
    AtMostSpan(m, below, 1, k - 1);
    AtMostSpan(m, rest, k, |failed|);
  }

  // Different attempts within lo..hi are at most hi - lo + 1 many.
  lemma {:induction false} AtMostSpan(m: map<string, Assignment>, ids: set<string>, lo: int, hi: int)
    requires lo <= hi + 1
    requires forall i | i in ids :: i in m && lo <= m[i].attempt <= hi
    requires forall i, j | i in ids && j in ids && i != j :: m[i].attempt != m[j].attempt
    ensures |ids| <= hi - lo + 1
    decreases hi - lo + 1
  {
    if lo <= hi {
      if i :| i in ids && m[i].attempt == hi {
        AtMostSpan(m, ids - {i}, lo, hi - 1);
      } else {
        AtMostSpan(m, ids, lo, hi - 1);
      }
    } else if i :| i in ids {
      assert false;
    }
  }

  /** A success is the last run: nothing else of the job is under way, no other
      run of it has succeeded, and no step can add another. */
  lemma SuccessIsLast(strict: bool, steps: seq<Step>, name: string, won: string, a: Assignment)
    requires Run(strict, START, steps) && won in WonIds(After(START, steps).world.store.assignments, name)
    requires a.OwnedBy(JobKind, name)
    ensures var m := After(START, steps).world.store.assignments;
      WonIds(m, name) == {won} && ActiveIds(m, JobKind, name) == {}
    ensures !Enabled(strict, After(START, steps), Operate(SaveAssignment(a)))
  {
    hide ClusterInv, Run, After, Placed, KnownNodes, SaneSpecs, StrictInv, Remembers, HasRoom;
    var c := After(START, steps);
    Reachable(strict, steps);
    InvHasWorld(strict, c);
    var winners, active := WonIds(c.world.store.assignments, name), ActiveIds(c.world.store.assignments, JobKind, name);
    assert JobCounts(c.world.store, name);
    assert |winners - {won}| + |active| == 0;
    assert winners - {won} == {} && active == {};
  }

  /** Lost costs a job no retry: marking a run Lost frees its place and leaves
      the failures as they were. */
  lemma LostCostsNoRetry(m: map<string, Assignment>, id: string, message: string, now: int, name: string)
    requires id in m && m[id].OwnedBy(JobKind, name) && m[id].Active()
    ensures var m' := m[id := ApplyStatus(m[id], Lost, message, now)];
      && FailedIds(m', name) == FailedIds(m, name)
      && ActiveIds(m', JobKind, name) == ActiveIds(m, JobKind, name) - {id}
      && WonIds(m', name) == WonIds(m, name)
  {
    SetsAfterStatus(m, id, ApplyStatus(m[id], Lost, message, now), name);
  }

  /** Deleting an owner takes exactly its own assignments: those of a same-named
      owner of the other kind, and of everyone else, stay. */
  lemma DeleteTakesExactly(s: State, op: Op, kind: WorkloadKind, name: string)
    requires (op.DeleteService? && op.name in s.services) || (op.DeleteJob? && op.name in s.jobs)
    ensures var t := Apply(s, op); var gone := kind == (if op.DeleteService? then ServiceKind else JobKind) && name == op.name;
      Owned(t.assignments, kind, name) == if gone then {} else Owned(s.assignments, kind, name)
  {
    var m, m' := s.assignments, Apply(s, op).assignments;
    var gone := kind == (if op.DeleteService? then ServiceKind else JobKind) && name == op.name;
    forall a | !gone && a in Owned(m, kind, name) ensures a in Owned(m', kind, name) {
      var id :| id in m && m[id].OwnedBy(kind, name) && m[id] == a;
      assert m'[id] == a;
    }
  }

  // --- Restarts and restores -----------------------------------------------

  ghost predicate KeptOrNew(s: State, t: State) {
    && t.nodes == s.nodes
    && forall id | id in t.assignments ::
         t.assignments[id].phase == Pending || (id in s.assignments && t.assignments[id] == s.assignments[id])
  }

  lemma ServiceKeepsOrAdds(ctx: Ctx, service: Service, s: State, t: State)
    requires ServiceRun(ctx, service, s, t)
    ensures KeptOrNew(s, t)
  {
    ServiceOutcome(ctx, service, s, t);
  }

  lemma JobKeepsOrAdds(ctx: Ctx, job: Job, s: State, t: State)
    requires JobRun(ctx, job, s, t)
    ensures KeptOrNew(s, t)
  {
    hide JobSettled, JobStatusOf, RunsOf, IsPick;
  }

  lemma {:induction false} ServicesKeepOrAdd(ctx: Ctx, services: seq<Service>, run: seq<State>, k: nat)
    requires ServicesRun(ctx, services, run) && k <= |services|
    ensures KeptOrNew(run[0], run[k])
  {
    hide ServiceRun;
    if k > 0 {
      ServicesKeepOrAdd(ctx, services, run, k - 1);
      ServiceKeepsOrAdds(ctx, services[k - 1], run[k - 1], run[k]);
    }
  }

  lemma {:induction false} JobsKeepOrAdd(ctx: Ctx, jobs: seq<Job>, run: seq<State>, k: nat)
    requires JobsRun(ctx, jobs, run) && k <= |jobs|
    ensures KeptOrNew(run[0], run[k])
  {
    hide JobRun;
    if k > 0 {
      JobsKeepOrAdd(ctx, jobs, run, k - 1);
      JobKeepsOrAdds(ctx, jobs[k - 1], run[k - 1], run[k]);
    }
  }

  lemma TickKeepsOrAdds(ctx: Ctx, s: State, t: State)
    requires Tick(ctx, s, t)
    ensures KeptOrNew(MarkedLost(ctx, s), t)
  {
    hide ServicesRun, JobsRun;
    var run1: seq<State>, run2: seq<State> :| TickBy(ctx, s, t, run1, run2);
    var services := Listing(run1[0].services.Values, ServiceLess);
    var jobs := Listing(run2[0].jobs.Values, JobLess);
    RunLengths(ctx, services, run1, jobs, run2);
    ServicesKeepOrAdd(ctx, services, run1, |services|);
    JobsKeepOrAdd(ctx, jobs, run2, |jobs|);
  }

  lemma RunLengths(ctx: Ctx, services: seq<Service>, run1: seq<State>, jobs: seq<Job>, run2: seq<State>)
    requires ServicesRun(ctx, services, run1) && JobsRun(ctx, jobs, run2)
    ensures |run1| == |services| + 1 && |run2| == |jobs| + 1
  {
  }

  /** A restart or a restore is not an outage: whatever the cluster went through
      before, a reconcile declares work Lost only if its node is registered and has
      been silent for longer than the timeout, counted from the node's last
      heartbeat and also from this controller's start. */
  lemma RestartIsNoOutage(strict: bool, steps: seq<Step>, ctx: Ctx, t: State, id: string)
    requires Run(strict, START, steps) && Tick(ctx, After(START, steps).world.store, t)
    requires id in t.assignments && t.assignments[id].phase == Lost
    ensures var s := After(START, steps).world.store;
      && id in s.assignments
      && (s.assignments[id].phase == Lost
          || (&& s.assignments[id].nodeId in s.nodes
              && ctx.now > s.nodes[s.assignments[id].nodeId].lastHeartbeat + ctx.timeout
              && ctx.now > ctx.started + ctx.timeout))
  {
    hide ClusterInv, Run, Tick, After;
    Reachable(strict, steps);
    InvHasWorld(strict, After(START, steps));
    TickKeepsOrAdds(ctx, After(START, steps).world.store, t);
    LostWereDead(ctx, After(START, steps).world.store, t, id);
  }

  lemma LostWereDead(ctx: Ctx, s: State, t: State, id: string)
    requires StoreInv(s) && KeptOrNew(MarkedLost(ctx, s), t) && id in t.assignments && t.assignments[id].phase == Lost
    ensures id in s.assignments && s.assignments[id].nodeId in s.nodes
    ensures s.assignments[id].phase == Lost || !Live(ctx, s.nodes, s.assignments[id].nodeId)
  {
    hide Placed, SaneSpecs, JobCounts;
  }

  // --- Results of jobs -----------------------------------------------------

  // The report of what n's runtime has for id.
  function ResultLetter(c: Cluster, n: string, id: string): Letter
    requires n in c.machines && id in c.machines[n].held
  {
    Letter(n, ReportOf(id, c.machines[n].held[id]))
  }

  /** A finished task whose report was lost: for as long as the controller has
      the assignment active it hands it out again, the agent does not count it as
      handled and reports the result anew when it gets to it, and the report, once
      it arrives, is accepted. */
  lemma ResultIsReportedAgain(strict: bool, steps: seq<Step>, n: string, id: string, now: int)
    requires Run(strict, START, steps)
    requires var c := After(START, steps); n in c.machines && id in c.machines[n].held
    requires id != "" && After(START, steps).machines[n].held[id].phase in {Succeeded, Failed}
    requires var m := After(START, steps).world.store.assignments; id in m && m[id].Active()
    ensures var c := After(START, steps);
      && id in WantedOn(c.world.store.assignments, n) && id !in c.machines[n].tracked
      && (Shaped(c, StartNext(n, id)) ==> Take(c, StartNext(n, id)).sent == c.sent + [ResultLetter(c, n, id)])
    ensures var c := After(START, steps); var later := Take(c, Deliver(ResultLetter(c, n, id), now)).world.store.assignments;
      id in later && later[id].phase == c.machines[n].held[id].phase && later[id].message == c.machines[n].held[id].message
        && later[id].finishedAt == Some(now)
  {
    hide ClusterInv, WantedOn, StopsOnlyDead, Run, After;
    var c := After(START, steps);
    Reachable(strict, steps);
    StillWanted(strict, c, n, id);
    ResultAccepted(c.world.store, ResultLetter(c, n, id), now);
  }

  lemma StillWanted(strict: bool, c: Cluster, n: string, id: string)
    requires ClusterInv(strict, c) && n in c.machines && id in c.machines[n].held
    requires IsTerminalPhase(c.machines[n].held[id].phase)
    requires id in c.world.store.assignments && c.world.store.assignments[id].Active()
    ensures id in WantedOn(c.world.store.assignments, n) && id !in c.machines[n].tracked
    ensures c.world.store.assignments[id].nodeId == n
  {
    hide StoreInv, StrictInv, Based, StageInv;
    InvHasWorld(strict, c);
    assert MachineInv(c.world.born, c.archive, n, c.machines[n]);
  }

  lemma ResultAccepted(s: State, letter: Letter, now: int)
    requires letter.report.id != "" && letter.report.phase in {Succeeded, Failed}
    requires letter.report.id in s.assignments && s.assignments[letter.report.id].Active()
    requires s.assignments[letter.report.id].nodeId == letter.sender
    ensures Heard(s, letter, now).Some?
    ensures var later := Apply(s, Heard(s, letter, now).value).assignments;
      letter.report.id in later && later[letter.report.id].phase == letter.report.phase
        && later[letter.report.id].message == letter.report.message && later[letter.report.id].finishedAt == Some(now)
  {
  }

  // --- Which reports take work down -----------------------------------------

  // What may be on its way about a service: its start, its stop, or a start that failed.
  ghost predicate ServiceLetter(born: map<string, Assignment>, steps: seq<Step>, letter: Letter) {
    var id := letter.report.id;
    && id in born
    && (born[id].ownerKind == ServiceKind ==>
          || letter.report.phase == Running || letter.report.phase == Stopped
          || (letter.report.phase == Failed && StartFails(letter.sender, id, letter.report.message) in steps))
  }

  lemma NewLetter(strict: bool, c: Cluster, step: Step) returns (news: seq<Letter>)
    requires ClusterInv(strict, c) && Enabled(strict, c, step)
    ensures Take(c, step).sent == c.sent + news
    ensures forall letter | letter in news :: ServiceLetter(c.world.born, [step], letter)
  {
    hide ClusterInv, Guarded, StartedHeld;
    news := Take(c, step).sent[|c.sent|..];
    match step
    case StopNext(n, id) => HeldKnown(strict, c, n, id);
    case StartNext(n, id) => StartedKnown(strict, c, n, id);
    case StartFails(n, id, message) => WantedKnown(strict, c, n, id);
    case JobEnds(n, id, _, _) => HeldKnown(strict, c, n, id);
    case _ =>
  }

  lemma HeldKnown(strict: bool, c: Cluster, n: string, id: string)
    requires ClusterInv(strict, c) && n in c.machines && id in c.machines[n].held
    ensures id in c.world.born && c.world.born[id].ownerKind == c.machines[n].held[id].assignment.ownerKind
    ensures c.world.born[id].ownerKind == ServiceKind ==> c.machines[n].held[id].phase == Running
  {
    hide WorldInv, Based, HandedOut;
    assert MachineInv(c.world.born, c.archive, n, c.machines[n]);
  }

  lemma WantedKnown(strict: bool, c: Cluster, n: string, id: string)
    requires ClusterInv(strict, c) && n in c.machines && c.machines[n].stage.Starting? && id in c.machines[n].stage.todo
    ensures id in c.machines[n].stage.want && id in c.world.born
    ensures c.world.born[id].ownerKind == c.machines[n].stage.want[id].ownerKind
  {
    hide WorldInv, Based, HandedOut;
    assert MachineInv(c.world.born, c.archive, n, c.machines[n]);
    WantedIsOwn(strict, c, n, c.machines[n].stage.want);
  }

  lemma StartedKnown(strict: bool, c: Cluster, n: string, id: string)
    requires ClusterInv(strict, c) && Shaped(c, StartNext(n, id))
    ensures id in c.world.born
    ensures var p := c.machines[n];
      c.world.born[id].ownerKind == ServiceKind ==> StartedHeld(p.held, p.stage.want[id])[id].phase == Running
  {
    hide ClusterInv;
    WantedKnown(strict, c, n, id);
    if id in c.machines[n].held { HeldKnown(strict, c, n, id); }
  }

  lemma {:induction false} ServiceLetters(strict: bool, steps: seq<Step>)
    requires Run(strict, START, steps) && NoRestore(steps)
    ensures forall letter | letter in After(START, steps).sent :: ServiceLetter(After(START, steps).world.born, steps, letter)
  {
    hide ClusterInv, Enabled, Take, Follows;
    if steps != [] {
      var k := |steps| - 1;
      var c := After(START, steps[..k]);
      ServiceLetters(strict, steps[..k]);
      Reachable(strict, steps[..k]);
      var news := NewLetter(strict, c, steps[k]);
      StepFollows(strict, c, steps[k]);
      assert steps == steps[..k] + [steps[k]];
      LettersKept(c.world, Take(c, steps[k]).world, steps, k, c.sent);
      LettersNew(c.world, Take(c, steps[k]).world, steps, k, news);
    }
  }

  lemma LettersKept(w: World, v: World, steps: seq<Step>, k: nat, sent: seq<Letter>)
    requires Follows(w, v) && |steps| == k + 1
    requires forall letter | letter in sent :: ServiceLetter(w.born, steps[..k], letter)
    ensures forall letter | letter in sent :: ServiceLetter(v.born, steps, letter)
  {
    assert forall step | step in steps[..k] :: step in steps;
  }

  lemma LettersNew(w: World, v: World, steps: seq<Step>, k: nat, sent: seq<Letter>)
    requires Follows(w, v) && |steps| == k + 1
    requires forall letter | letter in sent :: ServiceLetter(w.born, [steps[k]], letter)
    ensures forall letter | letter in sent :: ServiceLetter(v.born, steps, letter)
  {
    assert steps[k] in steps;
  }

  /** Without a restore a report takes active work down exactly if it says
      Succeeded or Failed. A Running report changes no more than phase and message,
      and a Stopped one never reaches active work. On a service only a Failed report
      can be on its way, and it comes from a start on that very node that failed. */
  lemma TakenDownExactly(strict: bool, steps: seq<Step>, letter: Letter, now: int)
    requires Run(strict, START, steps) && NoRestore(steps) && letter in After(START, steps).sent
    requires var m := After(START, steps).world.store.assignments; var id := letter.report.id;
      id != "" && id in m && m[id].Active() && m[id].nodeId == letter.sender
    ensures var later := Take(After(START, steps), Deliver(letter, now)).world.store.assignments;
      && letter.report.id in later
      && (!later[letter.report.id].Active() <==> letter.report.phase == Succeeded || letter.report.phase == Failed)
    ensures var a := After(START, steps).world.store.assignments[letter.report.id];
      a.ownerKind == ServiceKind ==>
        && letter.report.phase != Succeeded
        && (letter.report.phase == Failed ==> StartFails(letter.sender, letter.report.id, letter.report.message) in steps)
  {
    hide ClusterInv, Run, After, LateInv, Take, StoreInv, StrictInv;
    var c := After(START, steps);
    Reachable(strict, steps);
    InvHasWorld(strict, c);
    ServiceLetters(strict, steps);
    LateRun(strict, steps);
    assert ServiceLetter(c.world.born, steps, letter);
    if letter.report.phase == Stopped {
      DeadLetter(c, letter);
      assert false;
    }
    DeliveredToActive(c, letter, now);
  }

  lemma DeliveredToActive(c: Cluster, letter: Letter, now: int)
    requires letter.report.phase != Stopped
    requires var m := c.world.store.assignments; var id := letter.report.id;
      id != "" && id in m && m[id].Active() && m[id].nodeId == letter.sender
    ensures var later := Take(c, Deliver(letter, now)).world.store.assignments;
      && letter.report.id in later
      && (!later[letter.report.id].Active() <==> letter.report.phase == Succeeded || letter.report.phase == Failed)
  {
  }

  /** Runs follow one another. */
  lemma {:induction false} RunsJoin(strict: bool, c: Cluster, first: seq<Step>, more: seq<Step>)
    requires Run(strict, c, first) && Run(strict, After(c, first), more)
    ensures Run(strict, c, first + more) && After(c, first + more) == After(After(c, first), more)
  {
    hide Enabled, Take;
    if more == [] {
      assert first + more == first;
    } else {
      var k := |more| - 1;
      RunsJoin(strict, c, first, more[..k]);
      assert (first + more)[..|first| + k] == first + more[..k];
    }
  }

  // --- The agent is among the steps ----------------------------------------

  function StopSteps(n: string, ids: seq<string>): seq<Step> {
    if ids == [] then [] else StopSteps(n, ids[..|ids| - 1]) + [StopNext(n, ids[|ids| - 1])]
  }

  function StartSteps(n: string, xs: seq<Assignment>): seq<Step> {
    if xs == [] then [] else StartSteps(n, xs[..|xs| - 1]) + [StartNext(n, xs[|xs| - 1].id)]
  }

  // One sync of n's agent, step by step.
  function SyncSteps(n: string, stops: seq<string>, starts: seq<Assignment>): seq<Step> {
    [Fetch(n)] + StopSteps(n, stops) + [BeginStarts(n)] + StartSteps(n, starts) + [EndSync(n)]
  }

  function Letters(n: string, out: seq<Report>): seq<Letter> {
    seq(|out|, i requires 0 <= i < |out| => Letter(n, out[i]))
  }

  lemma LettersJoin(n: string, out: seq<Report>, more: seq<Report>)
    ensures Letters(n, out + more) == Letters(n, out) + Letters(n, more)
  {
  }

  function BooksOf(p: Machine): Books { Books(p.held, p.tracked) }

  function WithBooks(p: Machine, b: Books, stage: Stage): Machine { p.(held := b.held, tracked := b.tracked, stage := stage) }

  // The cluster with one machine further on and more sent.
  function Moved(c: Cluster, n: string, p: Machine, out: seq<Report>): Cluster {
    WithMachine(c, n, p).(sent := c.sent + Letters(n, out))
  }

  lemma MovedTwice(c: Cluster, n: string, p: Machine, out: seq<Report>, q: Machine, more: seq<Report>)
    ensures Moved(Moved(c, n, p, out), n, q, more) == Moved(c, n, q, out + more)
  {
    LettersJoin(n, out, more);
    assert c.machines[n := p][n := q] == c.machines[n := q];
  }

  lemma NoStep(strict: bool, c: Cluster)
    ensures Run(strict, c, []) && After(c, []) == c
  {
  }

  lemma OneStep(strict: bool, c: Cluster, step: Step)
    requires Enabled(strict, c, step)
    ensures Run(strict, c, [step]) && After(c, [step]) == Take(c, step)
  {
    assert [step][..0] == [];
    assert Run(strict, c, []);
  }

  lemma StopIsStep(strict: bool, c: Cluster, n: string, id: string)
    requires Shaped(c, StopNext(n, id))
    ensures Enabled(strict, c, StopNext(n, id))
    ensures var p := c.machines[n];
      Take(c, StopNext(n, id))
      == Moved(c, n, WithBooks(p, StopStep(BooksOf(p), id), Stopping(p.stage.want, p.stage.todo - {id})), StopReport(BooksOf(p), id))
  {
  }

  lemma StartIsStep(strict: bool, c: Cluster, n: string, a: Assignment)
    requires Shaped(c, StartNext(n, a.id)) && c.machines[n].stage.want[a.id] == a
    ensures Enabled(strict, c, StartNext(n, a.id))
    ensures var p := c.machines[n];
      Take(c, StartNext(n, a.id))
      == Moved(c, n, WithBooks(p, StartStep(BooksOf(p), a), Starting(p.stage.want, p.stage.todo - {a.id})), StartReport(BooksOf(p), a))
  {
    hide StartedHeld, TrackedAfter;
  }

  lemma MembersLast(ids: seq<string>, k: nat)
    requires |ids| == k + 1 && Distinct(ids)
    ensures Members(ids) == Members(ids[..k]) + {ids[k]} && ids[k] !in Members(ids[..k]) && Distinct(ids[..k])
  {
    assert ids == ids[..k] + [ids[k]];
  }

  lemma {:induction false} StopsRun(strict: bool, c: Cluster, n: string, ids: seq<string>)
    requires n in c.machines && c.machines[n].stage.Stopping? && Distinct(ids)
    requires Members(ids) <= c.machines[n].stage.todo <= c.machines[n].held.Keys
    ensures Run(strict, c, StopSteps(n, ids))
    ensures var p := c.machines[n];
      After(c, StopSteps(n, ids))
      == Moved(c, n, WithBooks(p, AfterStops(BooksOf(p), ids), Stopping(p.stage.want, p.stage.todo - Members(ids))), StopOut(BooksOf(p), ids))
  {
    hide Enabled, Take, StopStep, StopReport, Shaped;
    var p := c.machines[n];
    if ids == [] {
      assert c.machines[n := p] == c.machines && p.stage.todo - {} == p.stage.todo && Members(ids) == {};
    } else {
      var k := |ids| - 1;
      MembersLast(ids, k);
      StopsRun(strict, c, n, ids[..k]);
      var b := AfterStops(BooksOf(p), ids[..k]);
      StopsCome(BooksOf(p), ids[..k]);
      var q := WithBooks(p, b, Stopping(p.stage.want, p.stage.todo - Members(ids[..k])));
      var d := Moved(c, n, q, StopOut(BooksOf(p), ids[..k]));
      assert Shaped(d, StopNext(n, ids[k])) by { StopShaped(d, n, ids[k]); }
      StopIsStep(strict, d, n, ids[k]);
      assert StopSteps(n, ids)[..|StopSteps(n, ids[..k])|] == StopSteps(n, ids[..k]);
      MovedTwice(c, n, q, StopOut(BooksOf(p), ids[..k]),
                 WithBooks(p, AfterStops(BooksOf(p), ids), Stopping(p.stage.want, p.stage.todo - Members(ids))), StopReport(b, ids[k]));
      assert q.stage.todo - {ids[k]} == p.stage.todo - Members(ids);
    }
  }

  lemma StopShaped(c: Cluster, n: string, id: string)
    requires n in c.machines && c.machines[n].stage.Stopping? && id in c.machines[n].stage.todo && id in c.machines[n].held
    ensures Shaped(c, StopNext(n, id))
  {
  }

  lemma StartShaped(c: Cluster, n: string, a: Assignment)
    requires n in c.machines && c.machines[n].stage.Starting? && a.id in c.machines[n].stage.todo
    requires a.id in c.machines[n].stage.want && c.machines[n].stage.want[a.id] == a
    ensures Shaped(c, StartNext(n, a.id))
  {
  }

  lemma {:induction false} StartsRun(strict: bool, c: Cluster, n: string, xs: seq<Assignment>)
    requires n in c.machines && c.machines[n].stage.Starting? && IdsApart(xs)
    requires IdsOf(xs) <= c.machines[n].stage.todo && AllWanted(xs, c.machines[n].stage.want)
    ensures Run(strict, c, StartSteps(n, xs))
    ensures var p := c.machines[n];
      After(c, StartSteps(n, xs))
      == Moved(c, n, WithBooks(p, AfterStarts(BooksOf(p), xs), Starting(p.stage.want, p.stage.todo - IdsOf(xs))), StartOut(BooksOf(p), xs))
  {
    hide Enabled, Take, StartStep, StartReport, Shaped, Run, After, IdsApart;
    var p := c.machines[n];
    if xs == [] {
      NoStep(strict, c);
      assert c.machines[n := p] == c.machines && IdsOf(xs) == {} && p.stage.todo - {} == p.stage.todo;
    } else {
      var k := |xs| - 1;
      Agents.IdsStep(xs, k);
      IdsApartBefore(xs, k);
      assert forall a | a in xs[..k] :: a in xs;
      StartsRun(strict, c, n, xs[..k]);
      var b, todo := AfterStarts(BooksOf(p), xs[..k]), p.stage.todo - IdsOf(xs[..k]);
      var q := WithBooks(p, b, Starting(p.stage.want, todo));
      var d := Moved(c, n, q, StartOut(BooksOf(p), xs[..k]));
      assert xs[k] in xs && todo - {xs[k].id} == p.stage.todo - IdsOf(xs);
      StartShaped(d, n, xs[k]);
      StartIsStep(strict, d, n, xs[k]);
      OneStep(strict, d, StartNext(n, xs[k].id));
      RunsJoin(strict, c, StartSteps(n, xs[..k]), [StartNext(n, xs[k].id)]);
      MovedTwice(c, n, q, StartOut(BooksOf(p), xs[..k]),
                 WithBooks(p, StartStep(b, xs[k]), Starting(p.stage.want, todo - {xs[k].id})), StartReport(b, xs[k]));
    }
  }

  lemma IdsApartBefore(xs: seq<Assignment>, k: nat)
    requires k <= |xs| && IdsApart(xs)
    ensures IdsApart(xs[..k])
  {
  }

  /** A sync of the agent, call by call and in any order of its stops and its
      starts, is a run of the cluster: it fetches, stops, starts and ends, leaves its
      books as the agent's are, and sends the same reports in the same order. */
  lemma SyncIsRun(strict: bool, c: Cluster, n: string, stops: seq<string>, starts: seq<Assignment>)
    requires Shaped(c, Fetch(n)) && IsSync(BooksOf(c.machines[n]), WantedOn(c.world.store.assignments, n), stops, starts)
    ensures Run(strict, c, SyncSteps(n, stops, starts))
    ensures var p := c.machines[n]; var b := BooksOf(p);
      After(c, SyncSteps(n, stops, starts)) == Moved(c, n, WithBooks(p, Synced(b, stops, starts), Idle), SyncOut(b, stops, starts))
  {
    hide AfterStops, AfterStarts, StopOut, StartOut, StopSteps, StartSteps, WantedOn, Members, IdsOf, Letters, Run, After;
    var p := c.machines[n];
    var b, want := BooksOf(p), WantedOn(c.world.store.assignments, n);
    var kept, out := AfterStops(b, stops), StopOut(b, stops);
    OneStep(strict, c, Fetch(n));
    var c1 := After(c, [Fetch(n)]);
    StopsRun(strict, c1, n, stops);
    var c2 := After(c1, StopSteps(n, stops));
    assert p.held.Keys - want.Keys - Members(stops) == {};
    RunsJoin(strict, c, [Fetch(n)], StopSteps(n, stops));
    OneStep(strict, c2, BeginStarts(n));
    var c3 := After(c2, [BeginStarts(n)]);
    RunsJoin(strict, c, [Fetch(n)] + StopSteps(n, stops), [BeginStarts(n)]);
    StartsRun(strict, c3, n, starts);
    var c4 := After(c3, StartSteps(n, starts));
    assert want.Keys - IdsOf(starts) == {};
    RunsJoin(strict, c, [Fetch(n)] + StopSteps(n, stops) + [BeginStarts(n)], StartSteps(n, starts));
    OneStep(strict, c4, EndSync(n));
    RunsJoin(strict, c, [Fetch(n)] + StopSteps(n, stops) + [BeginStarts(n)] + StartSteps(n, starts), [EndSync(n)]);
    SyncMoves(c, n, want, kept, out, starts);
  }

  lemma SyncMoves(c: Cluster, n: string, want: map<string, Assignment>, kept: Books, out: seq<Report>, starts: seq<Assignment>)
    requires n in c.machines
    ensures var p := c.machines[n];
      var c1 := WithMachine(c, n, p.(stage := Stopping(want, p.held.Keys - want.Keys)));
      var c2 := Moved(c1, n, WithBooks(p, kept, Stopping(want, {})), out);
      var c3 := WithMachine(c2, n, WithBooks(p, kept, Starting(want, want.Keys)));
      var c4 := Moved(c3, n, WithBooks(p, AfterStarts(kept, starts), Starting(want, {})), StartOut(kept, starts));
      WithMachine(c4, n, WithBooks(p, AfterStarts(kept, starts), Idle))
      == Moved(c, n, WithBooks(p, AfterStarts(kept, starts), Idle), out + StartOut(kept, starts))
  {
    LettersJoin(n, out, StartOut(kept, starts));
    var p, m := c.machines[n], c.machines;
    var p1, p2 := p.(stage := Stopping(want, p.held.Keys - want.Keys)), WithBooks(p, kept, Stopping(want, {}));
    var p3, p4 := WithBooks(p, kept, Starting(want, want.Keys)), WithBooks(p, AfterStarts(kept, starts), Starting(want, {}));
    var p5 := WithBooks(p, AfterStarts(kept, starts), Idle);
    assert m[n := p1][n := p2][n := p3][n := p4][n := p5] == m[n := p5];
  }

  /** The agent itself does just that: where the cluster's machine agrees with the
      agent and the list is the machine's, they agree again after the sync, the
      cluster by a run of steps, and the letters on their way are what was sent. */
  method SyncInCluster(agent: Agent, list: seq<Assignment>, ghost strict: bool, ghost c: Cluster) returns (ghost steps: seq<Step>)
    requires agent.Valid() && Shaped(c, Fetch(agent.nodeId)) && BooksOf(c.machines[agent.nodeId]) == agent.Now()
    requires Desired(list) == WantedOn(c.world.store.assignments, agent.nodeId)
    modifies agent, agent.executor, agent.executor.tasks.Values
    ensures agent.Valid() && Run(strict, c, steps)
    ensures exists stops, starts :: steps == SyncSteps(agent.nodeId, stops, starts)
    ensures var d := After(c, steps);
      && d.world == c.world && agent.nodeId in d.machines && d.machines[agent.nodeId].stage == Idle
      && BooksOf(d.machines[agent.nodeId]) == agent.Now()
      && old(agent.sent) <= agent.sent && d.sent == c.sent + Letters(agent.nodeId, agent.sent[|old(agent.sent)|..])
  {
    hide Agent.Valid, SimExecutor.Valid, Desired, WantedOn, IsSync, Synced, SyncOut, SyncHistory, SyncSteps,
         SyncReports, StopsFirst, Reports, SyncedHeld, Run, After, Letters;
    ghost var stops, starts := agent.SyncAssignments(list);
    steps := SyncSteps(agent.nodeId, stops, starts);
    SyncIsRun(strict, c, agent.nodeId, stops, starts);
  }

  /** So does the end of a job's task: it is the JobEnds step of that machine. */
  method JobEndsInCluster(agent: Agent, id: string, ghost strict: bool, ghost c: Cluster) returns (ghost step: Step)
    requires agent.Valid() && agent.nodeId in c.machines && BooksOf(c.machines[agent.nodeId]) == agent.Now()
    requires id in agent.executor.tasks
    requires agent.executor.tasks[id].assignment.ownerKind == JobKind && !IsTerminalPhase(agent.executor.tasks[id].phase)
    modifies agent, agent.executor.tasks[id]
    ensures agent.Valid() && step.JobEnds? && step.n == agent.nodeId && step.id == id && Enabled(strict, c, step)
    ensures var d := Take(c, step);
      && d.world == c.world && agent.nodeId in d.machines && BooksOf(d.machines[agent.nodeId]) == agent.Now()
      && d.machines[agent.nodeId].stage == c.machines[agent.nodeId].stage
      && old(agent.sent) <= agent.sent && d.sent == c.sent + Letters(agent.nodeId, agent.sent[|old(agent.sent)|..])
  {
    hide Agent.Valid, SimExecutor.Valid;
    agent.executor.HeldAt(id);
    var report := agent.JobEnds(id);
    step := JobEnds(agent.nodeId, id, report.phase == Failed, report.message);
    assert EndReport(id, report.phase == Failed, report.message) == report;
    assert agent.sent[|old(agent.sent)|..] == [report];
  }

  /** And a new process of the agent is the RestartAgent step. */
  method RestartInCluster(agent: Agent, ghost strict: bool, ghost c: Cluster)
    requires agent.Valid() && agent.nodeId in c.machines && BooksOf(c.machines[agent.nodeId]) == agent.Now()
    modifies agent
    ensures agent.Valid() && Enabled(strict, c, RestartAgent(agent.nodeId))
    ensures var d := Take(c, RestartAgent(agent.nodeId));
      && d.world == c.world && d.sent == c.sent && agent.sent == old(agent.sent)
      && BooksOf(d.machines[agent.nodeId]) == agent.Now() && d.machines[agent.nodeId].stage == Idle
  {
    hide Agent.Valid, SimExecutor.Valid;
    agent.Restart();
  }

  // --- Results, sync after sync --------------------------------------------

  // The result has been sent since, or the sync under way has yet to come to it.
  ghost predicate Owed(c: Cluster, n: string, id: string, task: Task, from: nat) {
    && from <= |c.sent|
    && (|| Letter(n, ReportOf(id, task)) in c.sent[from..]
        || (&& n in c.machines && id in c.machines[n].held && c.machines[n].held[id] == task
            && match c.machines[n].stage
               case Idle => false
               case Stopping(want, todo) => id in want && id !in todo
               case Starting(want, todo) => id in want && id in todo))
  }

  // The step neither ends n's agent or machine nor makes the look at id fail.
  predicate LetsSync(step: Step, n: string, id: string) {
    !(step.RestartAgent? && step.n == n) && !(step.Crash? && step.n == n) && !(step.StartFails? && step.n == n && step.id == id)
  }

  lemma SentGrows(c: Cluster, step: Step)
    ensures c.sent <= Take(c, step).sent
  {
  }

  lemma StillSent(a: seq<Letter>, b: seq<Letter>, from: nat, letter: Letter)
    requires from <= |a| && a <= b && letter in a[from..]
    ensures letter in b[from..]
  {
    assert b[from..] == a[from..] + b[|a|..];
  }

  lemma OwedStep(strict: bool, c: Cluster, step: Step, n: string, id: string, task: Task, from: nat)
    requires ClusterInv(strict, c) && Enabled(strict, c, step) && LetsSync(step, n, id)
    requires Owed(c, n, id, task, from) && IsTerminalPhase(task.phase)
    ensures Owed(Take(c, step), n, id, task, from)
  {
    hide ClusterInv, Enabled;
    SentGrows(c, step);
    ShapedIfEnabled(strict, c, step);
    if Letter(n, ReportOf(id, task)) in c.sent[from..] {
      StillSent(c.sent, Take(c, step).sent, from, Letter(n, ReportOf(id, task)));
    } else if !Touches(step, n) {
      UntouchedMachine(c, step, n);
    } else {
      NotTracked(strict, c, n, id);
      OwedHere(c, step, n, id, task, from);
    }
  }

  lemma NotTracked(strict: bool, c: Cluster, n: string, id: string)
    requires ClusterInv(strict, c) && n in c.machines && id in c.machines[n].held && IsTerminalPhase(c.machines[n].held[id].phase)
    ensures id !in c.machines[n].tracked
    ensures c.machines[n].stage.Starting? && id in c.machines[n].stage.want ==> c.machines[n].stage.want[id].id == id
  {
    hide WorldInv, Based, HandedOut, HoldsOwn;
    assert MachineInv(c.world.born, c.archive, n, c.machines[n]);
    if c.machines[n].stage.Starting? { WantedIsOwn(strict, c, n, c.machines[n].stage.want); }
  }

  lemma OwedHere(c: Cluster, step: Step, n: string, id: string, task: Task, from: nat)
    requires Shaped(c, step) && LetsSync(step, n, id) && Touches(step, n)
    requires n in c.machines && id in c.machines[n].held && c.machines[n].held[id] == task && IsTerminalPhase(task.phase)
    requires id !in c.machines[n].tracked && from <= |c.sent|
    requires match c.machines[n].stage
      case Idle => false
      case Stopping(want, todo) => id in want && id !in todo
      case Starting(want, todo) => id in want && id in todo && want[id].id == id
    ensures Owed(Take(c, step), n, id, task, from)
  {
    var d := Take(c, step);
    if step == StartNext(n, id) {
      assert d.sent == c.sent + [Letter(n, ReportOf(id, task))];
      assert d.sent[|c.sent|] == Letter(n, ReportOf(id, task)) && d.sent[from..][|c.sent| - from] == d.sent[|c.sent|];
    }
  }

  lemma {:induction false} OwedOn(strict: bool, c: Cluster, steps: seq<Step>, n: string, id: string, task: Task, from: nat)
    requires ClusterInv(strict, c) && Run(strict, c, steps) && forall step | step in steps :: LetsSync(step, n, id)
    requires Owed(c, n, id, task, from) && IsTerminalPhase(task.phase)
    ensures Owed(After(c, steps), n, id, task, from)
  {
    hide ClusterInv, Enabled, Take, Owed, LetsSync;
    if steps != [] {
      var k := |steps| - 1;
      assert steps == steps[..k] + [steps[k]];
      OwedOn(strict, c, steps[..k], n, id, task, from);
      RunKeeps(strict, c, steps[..k]);
      OwedStep(strict, After(c, steps[..k]), steps[k], n, id, task, from);
    }
  }

  /** Every later sync reports a lost result again: from any reachable cluster in
      which the controller still has a finished job's assignment active, whatever
      else goes on (reports, reconciles, restores, other nodes), once the node's
      agent has fetched its list and its sync is over, the result has been sent anew,
      unless the agent or the machine went down or looking at the task failed. */
  lemma EverySyncReports(strict: bool, history: seq<Step>, n: string, id: string, steps: seq<Step>)
    requires Run(strict, START, history)
    requires var c := After(START, history);
      && n in c.machines && id in c.machines[n].held && c.machines[n].held[id].phase in {Succeeded, Failed}
      && id in c.world.store.assignments && c.world.store.assignments[id].Active()
      && Run(strict, c, [Fetch(n)]) && Run(strict, After(c, [Fetch(n)]), steps)
    requires forall step | step in steps :: LetsSync(step, n, id)
    requires var d := After(After(After(START, history), [Fetch(n)]), steps); n in d.machines && d.machines[n].stage == Idle
    ensures var c := After(START, history); var d := After(After(c, [Fetch(n)]), steps);
      |c.sent| <= |d.sent| && ResultLetter(c, n, id) in d.sent[|c.sent|..]
  {
    hide ClusterInv, WantedOn;
    var c := After(START, history);
    Reachable(strict, history);
    StillWanted(strict, c, n, id);
    var c1 := After(c, [Fetch(n)]);
    assert [Fetch(n)][..0] == [];
    assert c1 == Take(c, Fetch(n));
    FetchKeeps(strict, c, n);
    OwedOn(strict, c1, steps, n, id, c.machines[n].held[id], |c.sent|);
  }
}
