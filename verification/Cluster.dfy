/** The whole cluster as a state machine: the controller's store, every state it
    ever had, and on each node an agent, its runtime and the reports on their
    way. Steps interleave in any order; reports may be lost, late or repeated. */
module Clusters {
  import opened Order
  import opened Api
  import opened Load
  import opened StoreState
  import opened Discipline
  import opened Handlers
  import opened Runtimes
  import opened Agents

  // Where a node's agent is in a sync: want is the list it fetched, todo what
  // the current loop has yet to go over.
  datatype Stage =
    | Idle
    | Stopping(want: map<string, Assignment>, todo: set<string>)
    | Starting(want: map<string, Assignment>, todo: set<string>)

  // One machine: its capacity, what its runtime holds, what its agent tracks.
  datatype Machine = Machine(capacity: Resources, held: Held, tracked: set<string>, stage: Stage)

  datatype Letter = Letter(sender: string, report: Report)

  // archive holds every state the store was ever in: what a backup may hold.
  // sent holds every report ever sent.
  datatype Cluster = Cluster(world: World, archive: set<State>, machines: map<string, Machine>, sent: seq<Letter>)

  const START := Cluster(World(EMPTY, map[]), {EMPTY}, map[], [])

  datatype Step =
    | Operate(op: Op)
    | Join(node: Node, now: int)
    | Deliver(letter: Letter, now: int)
    | Fetch(n: string)
    | StopNext(n: string, id: string)
    | BeginStarts(n: string)
    | StartNext(n: string, id: string)
    | StartFails(n: string, id: string, message: string)
    | EndSync(n: string)
    | JobEnds(n: string, id: string, failed: bool, message: string)
    | LateEnd(n: string, id: string, failed: bool, message: string)
    | RestartAgent(n: string)
    | Crash(n: string)
    | Restore(saved: State)

  // What the controller hands to the agent of node n.
  function WantedOn(m: map<string, Assignment>, n: string): map<string, Assignment> {
    map id | id in m && m[id].nodeId == n && m[id].Active() :: m[id]
  }

  // A step fits the stage its machine is in.
  predicate Shaped(c: Cluster, step: Step) {
    match step
    case Operate(_) | Join(_, _) | Deliver(_, _) | Restore(_) => true
    case LateEnd(n, id, _, _) => true
    case Fetch(n) => n in c.machines && c.machines[n].stage.Idle?
    case StopNext(n, id) =>
      n in c.machines && c.machines[n].stage.Stopping? && id in c.machines[n].stage.todo && id in c.machines[n].held
    case BeginStarts(n) => n in c.machines && c.machines[n].stage.Stopping? && c.machines[n].stage.todo == {}
    case StartNext(n, id) =>
      && n in c.machines && c.machines[n].stage.Starting? && id in c.machines[n].stage.todo
      && id in c.machines[n].stage.want && c.machines[n].stage.want[id].id == id
    case StartFails(n, id, _) =>
      n in c.machines && c.machines[n].stage.Starting? && id in c.machines[n].stage.todo && id !in c.machines[n].tracked
    case EndSync(n) => n in c.machines && c.machines[n].stage.Starting? && c.machines[n].stage.todo == {}
    case JobEnds(n, id, _, _) =>
      && n in c.machines && id in c.machines[n].held && c.machines[n].held[id].assignment.ownerKind == JobKind
      && !IsTerminalPhase(c.machines[n].held[id].phase)
    case RestartAgent(n) => n in c.machines
    case Crash(n) => n in c.machines
  }

  /** Which steps may happen. Operate is any operation of the reconcile loop, an
      administrator or a heartbeat; Lost is the only status the loop sets itself.
      A machine never registers with less capacity than it had. */
  ghost predicate Enabled(strict: bool, c: Cluster, step: Step) {
    Shaped(c, step) &&
    match step
    case Operate(op) =>
      Guarded(strict, c.world, op) && !op.UpsertNode? && (op.UpdateAssignmentStatus? ==> op.phase == Lost)
    case Join(node, now) =>
      && node.capacity.NonNegative()
      && (node.id in c.machines ==> c.machines[node.id].capacity.AtMost(node.capacity))
      && (node.id in c.world.store.nodes ==> c.world.store.nodes[node.id].lastHeartbeat <= now)
    case Deliver(letter, _) => letter in c.sent
    case LateEnd(n, id, _, _) => id in c.world.born && c.world.born[id].ownerKind == JobKind && c.world.born[id].nodeId == n
    case Restore(saved) => saved in c.archive
    case _ => true
  }

  function Stored(c: Cluster, w: World): Cluster { c.(world := w, archive := c.archive + {w.store}) }

  function WithMachine(c: Cluster, n: string, p: Machine): Cluster { c.(machines := c.machines[n := p]) }

  function Send(c: Cluster, n: string, report: Report): Cluster { c.(sent := c.sent + [Letter(n, report)]) }

  function EndReport(id: string, failed: bool, message: string): Report {
    Report(id, if failed then Failed else Succeeded, message)
  }

  // The operation a delivered report leads to.
  function Heard(s: State, letter: Letter, now: int): Option<Op> {
    Effect(s, letter.sender, ReportStatus(letter.report.id, letter.report.phase, letter.report.message), now)
  }

  function Joined(c: Cluster, node: Node): Machine {
    if node.id in c.machines then c.machines[node.id].(capacity := node.capacity) else Machine(node.capacity, map[], {}, Idle)
  }

  function Fetched(p: Machine, want: map<string, Assignment>): Machine {
    p.(stage := Stopping(want, p.held.Keys - want.Keys))
  }

  function StoppedOne(p: Machine, id: string): Machine
    requires p.stage.Stopping?
  {
    p.(held := p.held - {id}, tracked := p.tracked - {id}, stage := Stopping(p.stage.want, p.stage.todo - {id}))
  }

  // Gone over one wanted ID; skipped if it is tracked already.
  function StartedOne(p: Machine, id: string): Machine
    requires p.stage.Starting? && id in p.stage.want && p.stage.want[id].id == id
  {
    var a := p.stage.want[id];
    var q := Passed(p, id);
    if id in p.tracked then q else q.(held := StartedHeld(p.held, a), tracked := TrackedAfter(p.held, p.tracked, a))
  }

  function Passed(p: Machine, id: string): Machine
    requires p.stage.Starting?
  {
    p.(stage := Starting(p.stage.want, p.stage.todo - {id}))
  }

  function EndedJob(p: Machine, report: Report): Machine
    requires report.id in p.held
  {
    var task := p.held[report.id].(phase := report.phase, message := report.message);
    p.(held := p.held[report.id := task], tracked := p.tracked - {report.id})
  }

  function Take(c: Cluster, step: Step): Cluster {
    if !Shaped(c, step) then c else
    match step
    case Operate(op) => Stored(c, ApplyWorld(c.world, op))
    case Join(node, now) =>
      WithMachine(Stored(c, ApplyWorld(c.world, UpsertNode(node.(lastHeartbeat := now)))), node.id, Joined(c, node))
    case Deliver(letter, now) =>
      var heard := Heard(c.world.store, letter, now);
      if heard.Some? then Stored(c, ApplyWorld(c.world, heard.value)) else c
    case Fetch(n) => WithMachine(c, n, Fetched(c.machines[n], WantedOn(c.world.store.assignments, n)))
    case StopNext(n, id) =>
      var p := c.machines[n];
      var c' := WithMachine(c, n, StoppedOne(p, id));
      if IsTerminalPhase(p.held[id].phase) then c' else Send(c', n, Report(id, Stopped, STOPPED))
    case BeginStarts(n) =>
      var p := c.machines[n];
      WithMachine(c, n, p.(stage := Starting(p.stage.want, p.stage.want.Keys)))
    case StartNext(n, id) =>
      var p := c.machines[n];
      var c' := WithMachine(c, n, StartedOne(p, id));
      if id in p.tracked then c' else Send(c', n, ReportOf(id, StartedHeld(p.held, p.stage.want[id])[id]))
    case StartFails(n, id, message) => Send(WithMachine(c, n, Passed(c.machines[n], id)), n, Report(id, Failed, message))
    case EndSync(n) => WithMachine(c, n, c.machines[n].(stage := Idle))
    case JobEnds(n, id, failed, message) =>
      var report := EndReport(id, failed, message);
      Send(WithMachine(c, n, EndedJob(c.machines[n], report)), n, report)
    case LateEnd(n, id, failed, message) => Send(c, n, EndReport(id, failed, message))
    case RestartAgent(n) => WithMachine(c, n, c.machines[n].(tracked := {}, stage := Idle))
    case Crash(n) => WithMachine(c, n, c.machines[n].(held := map[], tracked := {}, stage := Idle))
    case Restore(saved) => c.(world := World(saved, c.world.born))
  }

  function After(c: Cluster, steps: seq<Step>): Cluster {
    if steps == [] then c else Take(After(c, steps[..|steps| - 1]), steps[|steps| - 1])
  }

  // The steps may be taken from c one after the other.
  ghost predicate Run(strict: bool, c: Cluster, steps: seq<Step>) {
    steps == [] || (
      && Run(strict, c, steps[..|steps| - 1])
      && Enabled(strict, After(c, steps[..|steps| - 1]), steps[|steps| - 1]))
  }

  // --- The invariant -------------------------------------------------------

  function DemandsOf(held: Held): NodeLoad {
    map id | id in held :: Demand(held[id].assignment.resources, held[id].assignment.ports)
  }

  // want was handed to n's agent at some time.
  ghost predicate HandedOut(archive: set<State>, n: string, want: map<string, Assignment>) {
    exists s | s in archive :: want == WantedOn(s.assignments, n)
  }

  // All that is held was active on n together, in one state of the store.
  ghost predicate Based(archive: set<State>, n: string, held: Held) {
    exists s | s in archive :: Within(DemandsOf(held), LoadOf(s.assignments, n))
  }

  // Held tasks were placed on this node, and run what was placed.
  ghost predicate HoldsOwn(born: map<string, Assignment>, n: string, held: Held) {
    forall id | id in held :: id in born && SameSpec(born[id], held[id].assignment) && born[id].nodeId == n
  }

  ghost predicate TracksHeld(p: Machine) {
    forall id | id in p.tracked :: id in p.held && !IsTerminalPhase(p.held[id].phase)
  }

  // The runtime ends no service by itself.
  ghost predicate ServicesGoOn(held: Held) {
    forall id | id in held && held[id].assignment.ownerKind == ServiceKind :: held[id].phase == Running
  }

  ghost predicate StageInv(archive: set<State>, n: string, p: Machine) {
    match p.stage
    case Idle => true
    case Stopping(want, todo) => HandedOut(archive, n, want) && todo == p.held.Keys - want.Keys
    case Starting(want, todo) => HandedOut(archive, n, want) && p.held.Keys <= want.Keys && todo <= want.Keys
  }

  ghost predicate MachineInv(born: map<string, Assignment>, archive: set<State>, n: string, p: Machine) {
    && p.capacity.NonNegative()
    && HoldsOwn(born, n, p.held) && Based(archive, n, p.held)
    && TracksHeld(p) && ServicesGoOn(p.held) && StageInv(archive, n, p)
  }

  ghost predicate Carries(machines: map<string, Machine>, s: State) {
    forall n | n in s.nodes :: n in machines && s.nodes[n].capacity.AtMost(machines[n].capacity)
  }

  ghost predicate ArchiveInv(strict: bool, c: Cluster) {
    forall s | s in c.archive :: WorldInv(strict, World(s, c.world.born)) && Carries(c.machines, s)
  }

  ghost predicate ClusterInv(strict: bool, c: Cluster) {
    && c.world.store in c.archive
    && ArchiveInv(strict, c)
    && (forall id | id in c.world.born :: c.world.born[id].resources.NonNegative())
    && (forall n | n in c.machines :: MachineInv(c.world.born, c.archive, n, c.machines[n]))
  }

  // --- The store's side ----------------------------------------------------

  // Assignments once created are remembered for good.
  ghost predicate BornGrows(b1: map<string, Assignment>, b2: map<string, Assignment>) {
    forall id | id in b1 :: id in b2 && b2[id] == b1[id]
  }

  lemma RememberedStill(strict: bool, s: State, b1: map<string, Assignment>, b2: map<string, Assignment>)
    requires WorldInv(strict, World(s, b1)) && BornGrows(b1, b2) && forall id | id in b2 :: b2[id].id == id
    ensures WorldInv(strict, World(s, b2))
  {
  }

  lemma BornStep(strict: bool, w: World, op: Op)
    requires Guarded(strict, w, op) && forall id | id in w.born :: w.born[id].resources.NonNegative()
    ensures BornGrows(w.born, ApplyWorld(w, op).born)
    ensures forall id | id in ApplyWorld(w, op).born :: ApplyWorld(w, op).born[id].resources.NonNegative()
  {
  }

  lemma MachineStill(b1: map<string, Assignment>, b2: map<string, Assignment>, a1: set<State>, a2: set<State>, n: string, p: Machine)
    requires MachineInv(b1, a1, n, p) && BornGrows(b1, b2) && a1 <= a2
    ensures MachineInv(b2, a2, n, p)
  {
    var s :| s in a1 && Within(DemandsOf(p.held), LoadOf(s.assignments, n));
    assert s in a2;
    if !p.stage.Idle? {
      var s' :| s' in a1 && p.stage.want == WantedOn(s'.assignments, n);
      assert s' in a2;
    }
  }

  // A guarded operation on the store, with the machines as they will be.
  lemma StoreStep(strict: bool, c: Cluster, op: Op, machines: map<string, Machine>)
    requires ClusterInv(strict, c) && Guarded(strict, c.world, op)
    requires machines.Keys >= c.machines.Keys
    requires forall n | n in c.machines :: c.machines[n].capacity.AtMost(machines[n].capacity)
    requires Carries(machines, Apply(c.world.store, op))
    ensures ArchiveInv(strict, Stored(c, ApplyWorld(c.world, op)).(machines := machines))
    ensures forall id | id in ApplyWorld(c.world, op).born :: ApplyWorld(c.world, op).born[id].resources.NonNegative()
    ensures BornGrows(c.world.born, ApplyWorld(c.world, op).born)
  {
    hide StoreInv, StrictInv, Guarded, Apply;
    var w := ApplyWorld(c.world, op);
    KeepsWorldInv(strict, c.world, op);
    BornStep(strict, c.world, op);
    forall s | s in c.archive + {w.store} ensures WorldInv(strict, World(s, w.born)) && Carries(machines, s) {
      if s in c.archive { RememberedStill(strict, s, c.world.born, w.born); }
    }
  }

  // Operations that leave the nodes' capacities alone.
  lemma OperationKeeps(strict: bool, c: Cluster, op: Op)
    requires ClusterInv(strict, c) && Guarded(strict, c.world, op) && !op.UpsertNode?
    ensures ClusterInv(strict, Stored(c, ApplyWorld(c.world, op)))
  {
    hide WorldInv, Guarded, MachineInv;
    var c' := Stored(c, ApplyWorld(c.world, op));
    assert Carries(c.machines, Apply(c.world.store, op));
    StoreStep(strict, c, op, c.machines);
    forall n | n in c.machines ensures MachineInv(c'.world.born, c'.archive, n, c.machines[n]) {
      MachineStill(c.world.born, c'.world.born, c.archive, c'.archive, n, c.machines[n]);
    }
  }

  lemma JoinedIsSound(born: map<string, Assignment>, archive: set<State>, c: Cluster, node: Node)
    requires node.capacity.NonNegative() && archive != {}
    requires node.id in c.machines ==> MachineInv(born, archive, node.id, c.machines[node.id])
    ensures MachineInv(born, archive, node.id, Joined(c, node))
  {
    var s :| s in archive;
    assert Within(DemandsOf(map[]), LoadOf(s.assignments, node.id));
    if node.id in c.machines {
      FewerHeld(archive, node.id, c.machines[node.id].held, Joined(c, node).held);
    }
  }

  lemma JoinKeeps(strict: bool, c: Cluster, node: Node, now: int)
    requires ClusterInv(strict, c) && Enabled(strict, c, Join(node, now))
    ensures ClusterInv(strict, Take(c, Join(node, now)))
  {
    hide WorldInv, MachineInv, Joined;
    var op := UpsertNode(node.(lastHeartbeat := now));
    var stored := Stored(c, ApplyWorld(c.world, op));
    var machines := c.machines[node.id := Joined(c, node)];
    JoinGrows(strict, c, node);
    assert Carries(machines, Apply(c.world.store, op));
    StoreStep(strict, c, op, machines);
    forall n | n in c.machines ensures MachineInv(stored.world.born, stored.archive, n, c.machines[n]) {
      MachineStill(c.world.born, stored.world.born, c.archive, stored.archive, n, c.machines[n]);
    }
    assert stored.world.store in stored.archive;
    JoinedIsSound(stored.world.born, stored.archive, c, node);
    assert Take(c, Join(node, now)) == stored.(machines := machines);
  }

  lemma JoinGrows(strict: bool, c: Cluster, node: Node)
    requires ClusterInv(strict, c) && (node.id in c.machines ==> c.machines[node.id].capacity.AtMost(node.capacity))
    ensures Joined(c, node).capacity == node.capacity
    ensures Carries(c.machines, c.world.store)
    ensures node.id in c.world.store.nodes ==> c.world.store.nodes[node.id].capacity.AtMost(node.capacity)
  {
  }

  lemma DeliverKeeps(strict: bool, c: Cluster, letter: Letter, now: int)
    requires ClusterInv(strict, c)
    ensures ClusterInv(strict, Take(c, Deliver(letter, now)))
  {
    hide ClusterInv, Guarded;
    EffectIsGuarded(strict, c.world, letter.sender, ReportStatus(letter.report.id, letter.report.phase, letter.report.message), now);
    var heard := Heard(c.world.store, letter, now);
    if heard.Some? { OperationKeeps(strict, c, heard.value); }
  }

  // --- The machines' side --------------------------------------------------

  // A step that only changes one machine and what is sent.
  lemma MachineStepKeeps(strict: bool, c: Cluster, n: string, p: Machine, sent: seq<Letter>)
    requires ClusterInv(strict, c) && n in c.machines && p.capacity == c.machines[n].capacity
    requires MachineInv(c.world.born, c.archive, n, p)
    ensures ClusterInv(strict, WithMachine(c, n, p).(sent := sent))
  {
    hide WorldInv, MachineInv;
  }

  lemma FewerHeld(archive: set<State>, n: string, held: Held, less: Held)
    requires Based(archive, n, held) && forall id | id in less :: id in held && less[id].assignment == held[id].assignment
    ensures Based(archive, n, less)
  {
    var s :| s in archive && Within(DemandsOf(held), LoadOf(s.assignments, n));
    assert Within(DemandsOf(less), LoadOf(s.assignments, n));
  }

  // What is held and wanted is based on the state the list came from.
  lemma WantedIsBase(strict: bool, c: Cluster, n: string, want: map<string, Assignment>, held: Held)
    requires ArchiveInv(strict, c) && HandedOut(c.archive, n, want)
    requires held.Keys <= want.Keys && HoldsOwn(c.world.born, n, held)
    ensures Based(c.archive, n, held)
  {
    hide StoreInv, StrictInv;
    var s :| s in c.archive && want == WantedOn(s.assignments, n);
    assert WorldInv(strict, World(s, c.world.born));
    assert Within(DemandsOf(held), LoadOf(s.assignments, n));
  }

  lemma WantedIsOwn(strict: bool, c: Cluster, n: string, want: map<string, Assignment>)
    requires ArchiveInv(strict, c) && HandedOut(c.archive, n, want)
    ensures forall id | id in want ::
              id in c.world.born && SameSpec(c.world.born[id], want[id]) && want[id].nodeId == n && want[id].id == id
  {
    hide StoreInv, StrictInv;
    var s :| s in c.archive && want == WantedOn(s.assignments, n);
    assert WorldInv(strict, World(s, c.world.born));
    KeyedInWorld(strict, World(s, c.world.born));
  }

  lemma KeyedInWorld(strict: bool, w: World)
    requires WorldInv(strict, w)
    ensures Keyed(w.store)
  {
  }

  lemma StartedOneOwn(born: map<string, Assignment>, n: string, p: Machine, id: string)
    requires p.stage.Starting? && id in p.stage.want && p.stage.want[id].id == id
    requires HoldsOwn(born, n, p.held) && TracksHeld(p) && ServicesGoOn(p.held) && p.held.Keys <= p.stage.want.Keys
    requires id in born && SameSpec(born[id], p.stage.want[id]) && born[id].nodeId == n
    ensures HoldsOwn(born, n, StartedOne(p, id).held) && TracksHeld(StartedOne(p, id)) && ServicesGoOn(StartedOne(p, id).held)
    ensures StartedOne(p, id).held.Keys <= p.stage.want.Keys
  {
  }

  lemma StartKeeps(strict: bool, c: Cluster, n: string, id: string)
    requires ClusterInv(strict, c) && Shaped(c, StartNext(n, id))
    ensures ClusterInv(strict, Take(c, StartNext(n, id)))
  {
    hide WorldInv, StartedHeld, TrackedAfter, HoldsOwn, Based, TracksHeld, ServicesGoOn, HandedOut, StartedOne;
    var c', p := Take(c, StartNext(n, id)), c.machines[n];
    var p' := StartedOne(p, id);
    StartedOneFrame(p, id);
    WantedIsOwn(strict, c, n, p.stage.want);
    StartedOneOwn(c.world.born, n, p, id);
    WantedIsBase(strict, c, n, p.stage.want, p'.held);
    MachineStepKeeps(strict, c, n, p', c'.sent);
    assert c' == WithMachine(c, n, p').(sent := c'.sent);
  }

  lemma StartedOneFrame(p: Machine, id: string)
    requires p.stage.Starting? && id in p.stage.want && p.stage.want[id].id == id
    ensures var p' := StartedOne(p, id);
      p'.capacity == p.capacity && p'.stage == Starting(p.stage.want, p.stage.todo - {id})
  {
  }

  lemma StoppedOneOwn(born: map<string, Assignment>, n: string, p: Machine, id: string)
    requires p.stage.Stopping? && HoldsOwn(born, n, p.held) && TracksHeld(p) && ServicesGoOn(p.held)
    ensures var p' := StoppedOne(p, id);
      && HoldsOwn(born, n, p'.held) && TracksHeld(p') && ServicesGoOn(p'.held)
      && p'.held == p.held - {id} && p'.capacity == p.capacity && p'.stage == Stopping(p.stage.want, p.stage.todo - {id})
  {
  }

  lemma StopKeeps(strict: bool, c: Cluster, n: string, id: string)
    requires ClusterInv(strict, c) && Shaped(c, StopNext(n, id))
    ensures ClusterInv(strict, Take(c, StopNext(n, id)))
  {
    hide WorldInv, Based, HandedOut, HoldsOwn, TracksHeld, ServicesGoOn, StoppedOne;
    var c', p := Take(c, StopNext(n, id)), c.machines[n];
    var p' := StoppedOne(p, id);
    StoppedOneOwn(c.world.born, n, p, id);
    FewerHeld(c.archive, n, p.held, p'.held);
    MachineStepKeeps(strict, c, n, p', c'.sent);
    assert c' == WithMachine(c, n, p').(sent := c'.sent);
  }

  lemma FetchKeeps(strict: bool, c: Cluster, n: string)
    requires ClusterInv(strict, c) && Shaped(c, Fetch(n))
    ensures ClusterInv(strict, Take(c, Fetch(n)))
  {
    hide WorldInv, WantedOn, Based;
    var c' := Take(c, Fetch(n));
    assert HandedOut(c.archive, n, WantedOn(c.world.store.assignments, n));
    MachineStepKeeps(strict, c, n, c'.machines[n], c'.sent);
  }

  // The remaining steps leave the held assignments as they are, or drop them.
  lemma OtherKeeps(strict: bool, c: Cluster, step: Step)
    requires ClusterInv(strict, c) && Enabled(strict, c, step)
    requires step.BeginStarts? || step.StartFails? || step.EndSync? || step.RestartAgent? || step.Crash?
    ensures ClusterInv(strict, Take(c, step))
  {
    hide WorldInv, WantedOn, Based, HandedOut;
    var c', n := Take(c, step), step.n;
    FewerHeld(c.archive, n, c.machines[n].held, c'.machines[n].held);
    if step.BeginStarts? { NothingUnwanted(c.machines[n].held, c.machines[n].stage.want); }
    MachineStepKeeps(strict, c, n, c'.machines[n], c'.sent);
  }

  lemma NothingUnwanted(held: Held, want: map<string, Assignment>)
    ensures held.Keys - want.Keys == {} ==> held.Keys <= want.Keys
  {
    forall id | id in held && held.Keys - want.Keys == {} ensures id in want { assert id !in held.Keys - want.Keys; }
  }

  lemma JobEndKeeps(strict: bool, c: Cluster, n: string, report: Report, sent: seq<Letter>)
    requires ClusterInv(strict, c) && n in c.machines && report.id in c.machines[n].held
    requires c.machines[n].held[report.id].assignment.ownerKind == JobKind
    ensures ClusterInv(strict, WithMachine(c, n, EndedJob(c.machines[n], report)).(sent := sent))
  {
    hide WorldInv, WantedOn, Based, HandedOut;
    var p, p' := c.machines[n], EndedJob(c.machines[n], report);
    assert p'.held.Keys == p.held.Keys;
    FewerHeld(c.archive, n, p.held, p'.held);
    MachineStepKeeps(strict, c, n, p', sent);
  }

  lemma RestoreKeeps(strict: bool, c: Cluster, saved: State)
    requires ClusterInv(strict, c) && saved in c.archive
    ensures ClusterInv(strict, Take(c, Restore(saved)))
  {
    hide WorldInv, MachineInv;
  }

  /** Every step keeps the invariant. */
  lemma StepKeeps(strict: bool, c: Cluster, step: Step)
    requires ClusterInv(strict, c) && Enabled(strict, c, step)
    ensures ClusterInv(strict, Take(c, step))
  {
    hide ClusterInv, Guarded;
    match step
    case Operate(op) => OperationKeeps(strict, c, op);
    case Join(node, now) => JoinKeeps(strict, c, node, now);
    case Deliver(letter, now) => DeliverKeeps(strict, c, letter, now);
    case Fetch(n) => FetchKeeps(strict, c, n);
    case StopNext(n, id) => StopKeeps(strict, c, n, id);
    case StartNext(n, id) => StartKeeps(strict, c, n, id);
    case JobEnds(n, id, failed, message) => JobEndKeeps(strict, c, n, EndReport(id, failed, message), Take(c, step).sent);
    case LateEnd(n, id, failed, message) => LateEndKeeps(strict, c, step);
    case Restore(saved) => RestoreKeeps(strict, c, saved);
    case _ => OtherKeeps(strict, c, step);
  }

  lemma LateEndKeeps(strict: bool, c: Cluster, step: Step)
    requires ClusterInv(strict, c) && step.LateEnd?
    ensures ClusterInv(strict, Take(c, step))
  {
    hide WorldInv, MachineInv;
  }

  lemma StartHolds(strict: bool)
    ensures ClusterInv(strict, START)
  {
    var s := EMPTY;
    assert forall name :: ActiveIds(s.assignments, JobKind, name) == WonIds(s.assignments, name) == FailedIds(s.assignments, name) == {};
  }

  lemma {:induction false} RunKeeps(strict: bool, c: Cluster, steps: seq<Step>)
    requires ClusterInv(strict, c) && Run(strict, c, steps)
    ensures ClusterInv(strict, After(c, steps))
  {
    hide ClusterInv, Enabled, Take;
    if steps != [] {
      var k := |steps| - 1;
      RunKeeps(strict, c, steps[..k]);
      StepKeeps(strict, After(c, steps[..k]), steps[k]);
    }
  }
}
