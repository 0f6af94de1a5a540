/** After any history the cluster converges: two reconciles and one sync per node
    bring the running services to exactly what the controller has active. */
module Convergence {
  import opened Order
  import opened Api
  import opened StoreState
  import opened Discipline
  import opened Handlers
  import opened MemoryStores
  import opened Interference
  import opened Reconciling
  import opened Outcomes
  import opened FixedPoint
  import opened Runtimes
  import opened Agents
  import opened Clusters
  import opened ClusterSafety
  import opened Controllers

  // --- A calm time ---------------------------------------------------------

  // A report that takes no active service away.
  predicate Benign(w: World, letter: Letter) {
    var id := letter.report.id;
    id in w.born && (w.born[id].ownerKind == ServiceKind ==>
      letter.report.phase == Running || id !in ServicesOn(w.store.assignments, letter.sender))
  }

  /** What goes on in a calm time: agents sync and heartbeat, nodes register, jobs
      end, and reports arrive, or do not: those sent by a sync begun since then
      (recent) as they come, any other that takes no active service away. */
  predicate Calm(recent: set<Letter>, c: Cluster, step: Step) {
    match step
    case Fetch(_) | StopNext(_, _) | BeginStarts(_) | StartNext(_, _) | EndSync(_) | JobEnds(_, _, _, _) => true
    case Deliver(letter, _) => letter in recent || (letter in c.sent && Benign(c.world, letter))
    case Operate(op) =>
      op.TouchNode? && (op.nodeId in c.world.store.nodes ==> c.world.store.nodes[op.nodeId].lastHeartbeat <= op.now)
    case Join(node, now) =>
      && node.capacity.NonNegative()
      && (node.id in c.machines ==> c.machines[node.id].capacity.AtMost(node.capacity))
      && (node.id in c.world.store.nodes ==> c.world.store.nodes[node.id].lastHeartbeat <= now)
    case _ => false
  }

  // The letters a step adds that belong to a sync begun in the calm.
  function NewRecent(fetched: set<string>, c: Cluster, step: Step): set<Letter> {
    var sent := Take(c, step).sent;
    if (step.StopNext? || step.StartNext?) && step.n in fetched && |c.sent| <= |sent|
    then set letter | letter in sent[|c.sent|..] else {}
  }

  function Recent(c0: Cluster, steps: seq<Step>): set<Letter> {
    if steps == [] then {} else
      var k := |steps| - 1;
      Recent(c0, steps[..k]) + NewRecent(Fetches(steps[..k]), After(c0, steps[..k]), steps[k])
  }

  predicate CalmRun(c0: Cluster, steps: seq<Step>) {
    steps == [] || (
      var k := |steps| - 1;
      var c := After(c0, steps[..k]);
      CalmRun(c0, steps[..k]) && Shaped(c, steps[k]) && Calm(Recent(c0, steps[..k]), c, steps[k]))
  }

  function Fetches(steps: seq<Step>): set<string> { set step | step in steps && step.Fetch? :: step.n }

  lemma CalmAppend(c0: Cluster, steps: seq<Step>, step: Step)
    requires CalmRun(c0, steps) && Shaped(After(c0, steps), step) && Calm(Recent(c0, steps), After(c0, steps), step)
    ensures CalmRun(c0, steps + [step]) && After(c0, steps + [step]) == Take(After(c0, steps), step)
  {
    assert (steps + [step])[..|steps|] == steps;
  }

  lemma {:induction false} CalmIsRun(strict: bool, c0: Cluster, steps: seq<Step>)
    requires CalmRun(c0, steps)
    ensures Run(strict, c0, steps) && NoRestore(steps)
  {
    hide Take, Calm, Shaped, Enabled, Recent;
    if steps != [] {
      var k := |steps| - 1;
      CalmIsRun(strict, c0, steps[..k]);
      assert steps == steps[..k] + [steps[k]];
      RecentSent(c0, steps[..k]);
      CalmIsEnabled(strict, Recent(c0, steps[..k]), After(c0, steps[..k]), steps[k]);
    }
  }

  lemma CalmIsEnabled(strict: bool, recent: set<Letter>, c: Cluster, step: Step)
    requires Shaped(c, step) && Calm(recent, c, step) && forall letter | letter in recent :: letter in c.sent
    ensures Enabled(strict, c, step) && !step.Restore?
  {
  }

  lemma {:induction false} RecentSent(c0: Cluster, steps: seq<Step>)
    ensures forall letter | letter in Recent(c0, steps) :: letter in After(c0, steps).sent
  {
    hide Take;
    if steps != [] {
      var k := |steps| - 1;
      RecentSent(c0, steps[..k]);
      SentGrows(After(c0, steps[..k]), steps[k]);
      assert forall letter | letter in After(c0, steps[..k]).sent :: letter in After(c0, steps).sent;
    }
  }

  // --- What a calm time keeps ----------------------------------------------

  // The services the controller has active on n.
  function ServicesOn(m: map<string, Assignment>, n: string): set<string> {
    set id | id in m && m[id].nodeId == n && m[id].Active() && m[id].ownerKind == ServiceKind
  }

  function ServicesIn(want: map<string, Assignment>): set<string> {
    set id | id in want && want[id].ownerKind == ServiceKind
  }

  function ServicesHeld(held: Held): set<string> {
    set id | id in held && held[id].assignment.ownerKind == ServiceKind
  }

  // How far an agent that has fetched its list since the calm began has come:
  // goal are its node's services.
  ghost predicate Progress(goal: set<string>, p: Machine) {
    match p.stage
    case Idle => ServicesHeld(p.held) == goal
    case Stopping(want, _) => ServicesIn(want) == goal
    case Starting(want, todo) => ServicesIn(want) == goal && goal <= p.held.Keys + todo
  }

  ghost predicate SameServices(w: World, v: World) {
    && v.born == w.born && v.store.services == w.store.services && v.store.jobs == w.store.jobs
    && forall n :: ServicesOn(v.store.assignments, n) == ServicesOn(w.store.assignments, n)
  }

  ghost predicate AllBenign(c0: Cluster, recent: set<Letter>) {
    forall letter | letter in recent :: Benign(c0.world, letter)
  }

  ghost predicate AllProgress(c0: Cluster, c: Cluster, fetched: set<string>) {
    forall n | n in c.machines && n in fetched :: Progress(ServicesOn(c0.world.store.assignments, n), c.machines[n])
  }

  ghost predicate CalmInv(c0: Cluster, c: Cluster, fetched: set<string>, recent: set<Letter>) {
    && fetched <= c.machines.Keys
    && SameServices(c0.world, c.world) && AllBenign(c0, recent) && AllProgress(c0, c, fetched)
  }

  // A delivered report of the calm time changes no active service.
  lemma DeliveryKeepsServices(strict: bool, w: World, letter: Letter, now: int, op: Op)
    requires WorldInv(strict, w) && Benign(w, letter) && Heard(w.store, letter, now) == Some(op)
    ensures SameServices(w, ApplyWorld(w, op))
  {
    hide StoreInv, StrictInv;
    var id := letter.report.id;
    var m, m' := w.store.assignments, Apply(w.store, op).assignments;
    assert w.born[id].ownerKind == m[id].ownerKind;
    forall n ensures ServicesOn(m', n) == ServicesOn(m, n) {
      assert m'[id].nodeId == m[id].nodeId && m'[id].ownerKind == m[id].ownerKind;
      if m[id].ownerKind == ServiceKind {
        assert m'[id].Active() <==> m[id].Active() by { assert id in ServicesOn(m, letter.sender) <==> m[id].Active(); }
      }
    }
  }

  lemma SameServicesTrans(u: World, v: World, w: World)
    requires SameServices(u, v) && SameServices(v, w)
    ensures SameServices(u, w)
  {
  }

  lemma SameAssignments(u: World, v: World, w: World)
    requires SameServices(u, v) && w.born == v.born
    requires w.store == v.store.(nodes := w.store.nodes)
    ensures SameServices(u, w)
  {
  }

  lemma BenignStill(w: World, v: World, letter: Letter)
    requires SameServices(w, v) && Benign(w, letter)
    ensures Benign(v, letter)
  {
  }

  lemma WorldCalm(strict: bool, c0: Cluster, c: Cluster, step: Step, fetched: set<string>, recent: set<Letter>)
    requires ClusterInv(strict, c) && CalmInv(c0, c, fetched, recent) && Calm(recent, c, step) && Shaped(c, step)
    ensures SameServices(c0.world, Take(c, step).world)
  {
    hide ClusterInv, WorldInv, AllProgress, Benign;
    match step
    case Deliver(letter, now) =>
      var heard := Heard(c.world.store, letter, now);
      if heard.Some? {
        InvHasWorld(strict, c);
        if letter in recent { BenignStill(c0.world, c.world, letter); }
        DeliveryKeepsServices(strict, c.world, letter, now, heard.value);
        SameServicesTrans(c0.world, c.world, ApplyWorld(c.world, heard.value));
      }
    case Operate(op) => SameAssignments(c0.world, c.world, ApplyWorld(c.world, op));
    case Join(node, now) => SameAssignments(c0.world, c.world, ApplyWorld(c.world, UpsertNode(node.(lastHeartbeat := now))));
    case _ =>
  }

  // The reports of syncs begun in the calm time are benign.
  lemma StopIsBenign(strict: bool, c: Cluster, n: string, id: string)
    requires ClusterInv(strict, c) && Shaped(c, StopNext(n, id))
    requires ServicesIn(c.machines[n].stage.want) == ServicesOn(c.world.store.assignments, n)
    ensures Benign(c.world, Letter(n, Report(id, Stopped, STOPPED)))
  {
    hide WorldInv, Based, HandedOut;
    var p := c.machines[n];
    assert MachineInv(c.world.born, c.archive, n, p);
    assert id !in p.stage.want;
  }

  lemma StartIsBenign(strict: bool, c: Cluster, n: string, id: string)
    requires ClusterInv(strict, c) && Shaped(c, StartNext(n, id))
    ensures Benign(c.world, Letter(n, ReportOf(id, StartedHeld(c.machines[n].held, c.machines[n].stage.want[id])[id])))
  {
    hide WorldInv, Based, HandedOut;
    var p := c.machines[n];
    assert MachineInv(c.world.born, c.archive, n, p);
    WantedIsOwn(strict, c, n, p.stage.want);
  }

  lemma SameServicesOn(w: World, v: World, n: string)
    requires SameServices(w, v)
    ensures ServicesOn(v.store.assignments, n) == ServicesOn(w.store.assignments, n)
  {
  }

  lemma BenignBack(w: World, v: World, letter: Letter)
    requires SameServices(w, v) && Benign(v, letter)
    ensures Benign(w, letter)
  {
  }

  lemma LettersCalm(strict: bool, c0: Cluster, c: Cluster, step: Step, fetched: set<string>, recent: set<Letter>)
    requires ClusterInv(strict, c) && CalmInv(c0, c, fetched, recent) && Calm(recent, c, step) && Shaped(c, step)
    ensures AllBenign(c0, recent + NewRecent(fetched, c, step))
  {
    hide ClusterInv, Benign, SameServices;
    if (step.StopNext? || step.StartNext?) && step.n in fetched {
      assert Progress(ServicesOn(c0.world.store.assignments, step.n), c.machines[step.n]);
      SameServicesOn(c0.world, c.world, step.n);
      var letter := NewLetterBenign(strict, c, step);
      BenignBack(c0.world, c.world, letter);
    }
  }

  // The one letter a stop or start may send.
  lemma NewLetterBenign(strict: bool, c: Cluster, step: Step) returns (letter: Letter)
    requires ClusterInv(strict, c) && Shaped(c, step) && (step.StopNext? || step.StartNext?)
    requires step.StopNext? ==> ServicesIn(c.machines[step.n].stage.want) == ServicesOn(c.world.store.assignments, step.n)
    ensures Benign(c.world, letter)
    ensures Take(c, step).sent == c.sent || Take(c, step).sent == c.sent + [letter]
  {
    hide ClusterInv, Benign;
    match step
    case StopNext(n, id) =>
      StopIsBenign(strict, c, n, id);
      letter := Letter(n, Report(id, Stopped, STOPPED));
    case StartNext(n, id) =>
      StartIsBenign(strict, c, n, id);
      letter := Letter(n, ReportOf(id, StartedHeld(c.machines[n].held, c.machines[n].stage.want[id])[id]));
  }

  // --- Each machine's progress ---------------------------------------------

  lemma FetchProgress(strict: bool, c: Cluster, n: string)
    requires ClusterInv(strict, c) && Shaped(c, Fetch(n))
    ensures Progress(ServicesOn(c.world.store.assignments, n), Take(c, Fetch(n)).machines[n])
  {
    hide ClusterInv;
    assert ServicesIn(WantedOn(c.world.store.assignments, n)) == ServicesOn(c.world.store.assignments, n);
  }

  lemma EndProgress(strict: bool, c: Cluster, n: string, goal: set<string>)
    requires ClusterInv(strict, c) && Shaped(c, EndSync(n))
    requires Progress(goal, c.machines[n])
    ensures Progress(goal, c.machines[n].(stage := Idle))
  {
    hide WorldInv, Based, HandedOut;
    var p := c.machines[n];
    assert MachineInv(c.world.born, c.archive, n, p);
    WantedIsOwn(strict, c, n, p.stage.want);
    forall id ensures id in ServicesHeld(p.held) <==> id in goal {
      assert id in p.held ==> id in p.stage.want && p.stage.want[id].ownerKind == p.held[id].assignment.ownerKind;
    }
  }

  lemma StartProgress(c: Cluster, n: string, id: string, goal: set<string>)
    requires Shaped(c, StartNext(n, id)) && TracksHeld(c.machines[n])
    requires Progress(goal, c.machines[n])
    ensures Progress(goal, StartedOne(c.machines[n], id))
  {
    var p, q := c.machines[n], StartedOne(c.machines[n], id);
    assert q.held.Keys == p.held.Keys + {id};
  }

  // The machine a calm step other than a fetch leaves behind.
  function MachineAfter(p: Machine, step: Step): Machine {
    match step
    case StopNext(_, id) => if p.stage.Stopping? then StoppedOne(p, id) else p
    case BeginStarts(_) => if p.stage.Stopping? then p.(stage := Starting(p.stage.want, p.stage.want.Keys)) else p
    case StartNext(_, id) =>
      if p.stage.Starting? && id in p.stage.want && p.stage.want[id].id == id then StartedOne(p, id) else p
    case EndSync(_) => p.(stage := Idle)
    case JobEnds(_, id, failed, message) => if id in p.held then EndedJob(p, EndReport(id, failed, message)) else p
    case _ => p
  }

  lemma TakenMachine(recent: set<Letter>, c: Cluster, step: Step, n: string)
    requires Calm(recent, c, step) && Shaped(c, step) && Touches(step, n) && !step.Fetch? && !step.Join?
    ensures n in c.machines && n in Take(c, step).machines && Take(c, step).machines[n] == MachineAfter(c.machines[n], step)
  {
    hide StoppedOne, StartedOne, EndedJob;
  }

  lemma MachineCalm(strict: bool, recent: set<Letter>, c: Cluster, step: Step, n: string, goal: set<string>)
    requires ClusterInv(strict, c) && Calm(recent, c, step) && Shaped(c, step) && n in c.machines
    requires Touches(step, n) && !step.Fetch? && !step.Join? && n in Take(c, step).machines
    requires Progress(goal, c.machines[n])
    ensures Progress(goal, Take(c, step).machines[n])
  {
    hide WorldInv, ServicesIn, ServicesHeld, Based, HandedOut, HoldsOwn, ServicesGoOn, StartedOne, EndedJob, Take;
    TakenMachine(recent, c, step, n);
    match step
    case BeginStarts(_) => WantedServices(c.machines[n].stage.want);
    case EndSync(_) => EndProgress(strict, c, n, goal);
    case StartNext(_, id) =>
      assert MachineInv(c.world.born, c.archive, n, c.machines[n]);
      StartProgress(c, n, id, goal);
    case JobEnds(_, id, failed, message) => JobEndProgress(c.machines[n], EndReport(id, failed, message), goal);
    case _ =>
  }

  lemma WantedServices(want: map<string, Assignment>)
    ensures ServicesIn(want) <= want.Keys
  {
  }

  lemma JobEndProgress(p: Machine, report: Report, goal: set<string>)
    requires report.id in p.held && Progress(goal, p)
    ensures Progress(goal, EndedJob(p, report))
  {
    var q := EndedJob(p, report);
    assert q.held.Keys == p.held.Keys;
    assert ServicesHeld(q.held) == ServicesHeld(p.held);
  }

  function FetchedBy(fetched: set<string>, step: Step): set<string> {
    if step.Fetch? then fetched + {step.n} else fetched
  }

  // A machine that registers goes on as it was.
  lemma JoinProgress(c: Cluster, node: Node, goal: set<string>)
    requires node.id in c.machines && Progress(goal, c.machines[node.id])
    ensures Progress(goal, Joined(c, node))
  {
  }

  lemma JoinedMachine(c: Cluster, step: Step, n: string)
    requires step.Join? && Touches(step, n)
    ensures step.node.id == n && n in Take(c, step).machines && Take(c, step).machines[n] == Joined(c, step.node)
  {
  }

  lemma ProgressCalm(strict: bool, c0: Cluster, c: Cluster, step: Step, fetched: set<string>, recent: set<Letter>)
    requires ClusterInv(strict, c) && CalmInv(c0, c, fetched, recent) && Calm(recent, c, step) && Shaped(c, step)
    ensures AllProgress(c0, Take(c, step), FetchedBy(fetched, step))
  {
    hide ClusterInv, Take, AllBenign, SameServices, Calm, Shaped, Progress;
    var c' := Take(c, step);
    forall n | n in c'.machines && n in FetchedBy(fetched, step)
      ensures Progress(ServicesOn(c0.world.store.assignments, n), c'.machines[n])
    {
      if !Touches(step, n) {
        UntouchedMachine(c, step, n);
        assert step.Fetch? ==> step.n != n;
      } else if step.Join? {
        JoinedMachine(c, step, n);
        JoinProgress(c, step.node, ServicesOn(c0.world.store.assignments, n));
      } else if step.Fetch? {
        SameServicesOn(c0.world, c.world, n);
        TouchedFetch(step, n);
        FetchProgress(strict, c, n);
      } else {
        TakenMachine(recent, c, step, n);
        MachineCalm(strict, recent, c, step, n, ServicesOn(c0.world.store.assignments, n));
      }
    }
  }

  lemma TouchedFetch(step: Step, n: string)
    requires step.Fetch? && Touches(step, n)
    ensures step == Fetch(n)
  {
  }

  lemma CalmMachines(recent: set<Letter>, c: Cluster, step: Step)
    requires Calm(recent, c, step) && Shaped(c, step)
    ensures c.machines.Keys <= Take(c, step).machines.Keys && (step.Fetch? ==> step.n in c.machines)
  {
  }

  lemma CalmStep(strict: bool, c0: Cluster, c: Cluster, step: Step, fetched: set<string>, recent: set<Letter>)
    requires ClusterInv(strict, c) && CalmInv(c0, c, fetched, recent) && Calm(recent, c, step) && Shaped(c, step)
    ensures CalmInv(c0, Take(c, step), FetchedBy(fetched, step), recent + NewRecent(fetched, c, step))
  {
    hide ClusterInv, Take, Calm, Shaped, SameServices, AllBenign, AllProgress, NewRecent;
    CalmMachines(recent, c, step);
    WorldCalm(strict, c0, c, step, fetched, recent);
    LettersCalm(strict, c0, c, step, fetched, recent);
    ProgressCalm(strict, c0, c, step, fetched, recent);
  }

  lemma FetchesStep(steps: seq<Step>, k: nat)
    requires |steps| == k + 1
    ensures Fetches(steps) == FetchedBy(Fetches(steps[..k]), steps[k])
  {
    assert steps == steps[..k] + [steps[k]];
  }

  lemma {:induction false} CalmKeeps(strict: bool, c0: Cluster, steps: seq<Step>)
    requires ClusterInv(strict, c0) && CalmRun(c0, steps)
    ensures CalmInv(c0, After(c0, steps), Fetches(steps), Recent(c0, steps)) && ClusterInv(strict, After(c0, steps))
  {
    hide ClusterInv, Take, Calm, Shaped, Fetches, NewRecent;
    CalmIsRun(strict, c0, steps);
    RunKeeps(strict, c0, steps);
    if steps == [] {
      NothingYet(c0);
    } else {
      var k := |steps| - 1;
      CalmKeeps(strict, c0, steps[..k]);
      CalmStep(strict, c0, After(c0, steps[..k]), steps[k], Fetches(steps[..k]), Recent(c0, steps[..k]));
      FetchesStep(steps, k);
    }
  }

  /** What the calm leaves out is only what was on its way before: a report sent by
      a sync begun since then never takes an active service away. */
  lemma RecentIsBenign(strict: bool, c0: Cluster, steps: seq<Step>, letter: Letter)
    requires ClusterInv(strict, c0) && CalmRun(c0, steps) && letter in Recent(c0, steps)
    ensures Benign(After(c0, steps).world, letter)
  {
    hide ClusterInv, CalmRun, Recent, Benign;
    CalmKeeps(strict, c0, steps);
    BenignStill(c0.world, After(c0, steps).world, letter);
  }

  lemma NothingYet(c0: Cluster)
    ensures CalmInv(c0, c0, Fetches([]), Recent(c0, []))
  {
  }

  // --- The services settle -------------------------------------------------

  /** After two reconciles at one time, from any sound store: every active
      service assignment is on a live node, there are no more of them than
      replicas wanted, and fewer only if no node can take one more. */
  lemma ServicesSettle(ctx: Ctx, s: State, s1: State, s2: State, name: string)
    requires Keyed(s) && Quantities(s) && Tick(ctx, s, s1) && Tick(ctx, s1, s2) && name in s2.services
    ensures var ids := ActiveIds(s2.assignments, ServiceKind, name);
      && (forall id | id in ids :: Live(ctx, s2.nodes, s2.assignments[id].nodeId))
      && |ids| <= s2.services[name].replicas
      && (|ids| < s2.services[name].replicas ==> NoHost(ctx, s2, ServiceRequest(s2.services[name])))
  {
    hide Tick, NoHost, Good, ServiceOK, ServiceFull, NoExcess, SameSpecs, JobDone, JobCurrent, Keyed, Quantities, Replicas;
    TickOutcome(ctx, s, s1);
    SoundAfterTick(ctx, s1);
    TickOutcome(ctx, s1, s2);
    assert ServiceOK(ctx, s2, name) && ServiceFull(ctx, s2, name);
    SettledReplicas(ctx, s2, name);
  }

  lemma SoundAfterTick(ctx: Ctx, s: State)
    requires Good(ctx, s)
    ensures Keyed(s) && Quantities(s)
  {
  }

  lemma SettledReplicas(ctx: Ctx, s: State, name: string)
    requires Good(ctx, s) && name in s.services && ServiceOK(ctx, s, name) && ServiceFull(ctx, s, name)
    ensures var ids := ActiveIds(s.assignments, ServiceKind, name);
      && (forall id | id in ids :: Live(ctx, s.nodes, s.assignments[id].nodeId))
      && |ids| <= s.services[name].replicas
      && (|ids| < s.services[name].replicas ==> NoHost(ctx, s, ServiceRequest(s.services[name])))
  {
    hide Keyed, Quantities, NoHost;
    assert ActiveIds(s.assignments, ServiceKind, name) == Replicas(ctx, s, name);
  }

  /** The agreement reached on one node: its runtime holds a service exactly if
      the controller has it active there. */
  lemma NodeConverges(strict: bool, c0: Cluster, steps: seq<Step>, n: string)
    requires ClusterInv(strict, c0) && CalmRun(c0, steps)
    requires n in Fetches(steps) && n in After(c0, steps).machines && After(c0, steps).machines[n].stage == Idle
    ensures var d := After(c0, steps);
      && ServicesHeld(d.machines[n].held) == ServicesOn(d.world.store.assignments, n)
      && ServicesOn(d.world.store.assignments, n) == ServicesOn(c0.world.store.assignments, n)
  {
    hide ClusterInv, CalmRun, After, Fetches;
    CalmKeeps(strict, c0, steps);
    assert Progress(ServicesOn(c0.world.store.assignments, n), After(c0, steps).machines[n]);
  }

  // Somewhere a runtime holds the service assignment id.
  predicate Runs(c: Cluster, id: string) {
    exists n | n in c.machines :: id in ServicesHeld(c.machines[n].held)
  }

  predicate IsActiveService(s: State, id: string) {
    id in s.assignments && s.assignments[id].Active() && s.assignments[id].ownerKind == ServiceKind
  }

  /** What Controller.Reconcile leaves behind when nobody else runs: a trace of the
      loop's own guarded operations that amounts to a Tick. */
  ghost predicate Reconciled(strict: bool, ctx: Ctx, w: World, ops: seq<Op>, v: World) {
    IsTrace(Quiet(strict), w, ops, v) && Tick(ctx, w.store, v.store)
  }

  // The cluster once the controller has done these operations.
  function Done(c: Cluster, ops: seq<Op>): Cluster { After(c, Operations(ops)) }

  /** The controller does that, twice in a row at one time, from any sound store. */
  method ReconcileTwice(controller: Controller, now: int)
    returns (ghost ctx: Ctx, ghost ops1: seq<Op>, ghost w: World, ghost ops2: seq<Op>)
    requires controller.Sound() && controller.mode.Quiet?
    modifies controller, controller.store
    ensures controller.Sound() && ctx == controller.At(now)
    ensures Reconciled(controller.mode.strict, ctx, old(controller.store.Now()), ops1, w)
    ensures Reconciled(controller.mode.strict, ctx, w, ops2, controller.store.Now())
  {
    hide Tick, Controller.Sound, IsTrace, Rely;
    ghost var start := controller.store.trace;
    ghost var seen := controller.Reconcile(now);
    ctx, w, ops1 := controller.At(now), controller.store.Now(), controller.store.trace[|start|..];
    ghost var middle := controller.store.trace;
    seen := controller.Reconcile(now);
    ops2 := controller.store.trace[|middle|..];
  }

  /** Convergence. Take any reachable cluster, whatever it went through: lost
      reports, crashes, restarts, restores, syncs cut short. Let the controller
      reconcile twice at one time; then let every node's agent fetch its list and
      finish its sync, while agents heartbeat, nodes register, jobs end and reports
      arrive or are lost. Now a service assignment runs somewhere exactly if the
      controller has it active, it runs on its own node and nowhere else, no Lost
      or deleted copy is left, and each service has its replicas: never more, and
      fewer only if no live node could take one more. */
  lemma ClusterConverges(strict: bool, history: seq<Step>, ctx: Ctx, ops1: seq<Op>, w1: World, ops2: seq<Op>, w2: World, steps: seq<Step>)
    requires Run(strict, START, history)
    requires Reconciled(strict, ctx, After(START, history).world, ops1, w1) && Reconciled(strict, ctx, w1, ops2, w2)
    requires var c := Done(Done(After(START, history), ops1), ops2);
      CalmRun(c, steps) && forall n | n in After(c, steps).machines :: n in Fetches(steps) && After(c, steps).machines[n].stage == Idle
    ensures var d := After(Done(Done(After(START, history), ops1), ops2), steps);
      && (forall id :: Runs(d, id) <==> IsActiveService(d.world.store, id))
      && (forall n, id | n in d.machines && id in ServicesHeld(d.machines[n].held) ::
            id in d.world.store.assignments && d.world.store.assignments[id].nodeId == n)
      && d.world.store.services == w2.store.services
      && (forall name | name in d.world.store.services ::
            var ids, service := ActiveIds(d.world.store.assignments, ServiceKind, name), d.world.store.services[name];
            && |ids| <= service.replicas
            && (|ids| < service.replicas ==> NoHost(ctx, w2.store, ServiceRequest(service))))
  {
    hide ClusterInv, Run, CalmRun, After, Tick, NoHost, Fetches, ServicesHeld, IsTrace;
    var c := After(START, history);
    var c1 := Done(c, ops1);
    Reachable(strict, history);
    LoopRuns(Quiet(strict), c, ops1, w1);
    RunKeeps(strict, c, Operations(ops1));
    LoopRuns(Quiet(strict), c1, ops2, w2);
    RunKeeps(strict, c1, Operations(ops2));
    SaneStore(strict, c);
    ConvergesFrom(strict, Done(c1, ops2), ctx, c.world.store, w1.store, steps);
  }

  lemma ConvergesFrom(strict: bool, c: Cluster, ctx: Ctx, s: State, s1: State, steps: seq<Step>)
    requires ClusterInv(strict, c) && Keyed(s) && Quantities(s)
    requires Tick(ctx, s, s1) && Tick(ctx, s1, c.world.store) && CalmRun(c, steps)
    requires var d := After(c, steps); forall n | n in d.machines :: n in Fetches(steps) && d.machines[n].stage == Idle
    ensures var d := After(c, steps);
      && (forall id :: Runs(d, id) <==> IsActiveService(d.world.store, id))
      && (forall n, id | n in d.machines && id in ServicesHeld(d.machines[n].held) ::
            id in d.world.store.assignments && d.world.store.assignments[id].nodeId == n)
      && d.world.store.services == c.world.store.services
      && (forall name | name in d.world.store.services ::
            var ids, service := ActiveIds(d.world.store.assignments, ServiceKind, name), d.world.store.services[name];
            && |ids| <= service.replicas
            && (|ids| < service.replicas ==> NoHost(ctx, c.world.store, ServiceRequest(service))))
  {
    hide ClusterInv, WorldInv, Run, CalmRun, After, Tick, NoHost, Fetches, ServicesHeld, Follows;
    var d := After(c, steps);
    CalmKeeps(strict, c, steps);
    CalmIsRun(strict, c, steps);
    RunFollows(strict, c, steps);
    InvHasWorld(strict, d);
    RunsIffActive(strict, c, steps);
    forall name | name in d.world.store.services
      ensures var ids, service := ActiveIds(d.world.store.assignments, ServiceKind, name), d.world.store.services[name];
        |ids| <= service.replicas && (|ids| < service.replicas ==> NoHost(ctx, c.world.store, ServiceRequest(service)))
    {
      ServicesSettle(ctx, s, s1, c.world.store, name);
      SameReplicas(strict, c.world, d.world, name);
    }
  }

  lemma SaneStore(strict: bool, c: Cluster)
    requires ClusterInv(strict, c)
    ensures Keyed(c.world.store) && Quantities(c.world.store)
  {
    InvHasWorld(strict, c);
  }

  lemma SameReplicas(strict: bool, w: World, v: World, name: string)
    requires SameServices(w, v) && Follows(w, v) && WorldInv(strict, v)
    ensures ActiveIds(v.store.assignments, ServiceKind, name) == ActiveIds(w.store.assignments, ServiceKind, name)
  {
    hide StoreInv, StrictInv;
    var m, m' := w.store.assignments, v.store.assignments;
    forall id ensures id in ActiveIds(m', ServiceKind, name) <==> id in ActiveIds(m, ServiceKind, name) {
      if id in m && m[id].OwnedBy(ServiceKind, name) && m[id].Active() {
        assert id in ServicesOn(m, m[id].nodeId);
        assert id in ServicesOn(m', m[id].nodeId);
      }
    }
  }

  // Every active assignment's node is one of the machines.
  lemma HostsExist(strict: bool, c: Cluster, id: string)
    requires ClusterInv(strict, c) && id in c.world.store.assignments
    ensures c.world.store.assignments[id].nodeId in c.machines
  {
    hide Placed, SaneSpecs, JobCounts, StrictInv, MachineInv;
    InvHasWorld(strict, c);
    assert Carries(c.machines, c.world.store);
  }

  lemma RunsIffActive(strict: bool, c: Cluster, steps: seq<Step>)
    requires ClusterInv(strict, c) && CalmRun(c, steps)
    requires var d := After(c, steps); forall n | n in d.machines :: n in Fetches(steps) && d.machines[n].stage == Idle
    ensures var d := After(c, steps); forall id :: Runs(d, id) <==> IsActiveService(d.world.store, id)
    ensures var d := After(c, steps); forall n, id | n in d.machines && id in ServicesHeld(d.machines[n].held) ::
              id in d.world.store.assignments && d.world.store.assignments[id].nodeId == n
  {
    hide ClusterInv, CalmRun, After, Fetches, ServicesHeld;
    var d := After(c, steps);
    CalmKeeps(strict, c, steps);
    forall n | n in d.machines ensures ServicesHeld(d.machines[n].held) == ServicesOn(d.world.store.assignments, n) {
      NodeConverges(strict, c, steps, n);
    }
    forall id | IsActiveService(d.world.store, id) ensures Runs(d, id) {
      var n := d.world.store.assignments[id].nodeId;
      HostsExist(strict, d, id);
      assert id in ServicesOn(d.world.store.assignments, n);
    }
  }

  // --- Syncs can always be finished ----------------------------------------

  // d is c but for machine n and the reports sent.
  predicate OnlyMachine(c: Cluster, d: Cluster, n: string) {
    && n in c.machines && n in d.machines
    && d.world == c.world && d.archive == c.archive && d.machines == c.machines[n := d.machines[n]]
  }

  lemma AppendOne(strict: bool, c0: Cluster, before: seq<Step>, step: Step, n: string)
    requires ClusterInv(strict, c0) && CalmRun(c0, before) && Shaped(After(c0, before), step) && Calm(Recent(c0, before), After(c0, before), step)
    requires Touches(step, n) && !step.Join?
    ensures var c, d := After(c0, before), After(c0, before + [step]);
      && CalmRun(c0, before + [step]) && d == Take(c, step) && OnlyMachine(c, d, n)
      && (!step.Fetch? ==> d.machines[n] == MachineAfter(c.machines[n], step))
      && ClusterInv(strict, c) && ClusterInv(strict, d)
  {
    hide ClusterInv, StoppedOne, StartedOne, EndedJob, CalmInv;
    CalmAppend(c0, before, step);
    CalmKeeps(strict, c0, before);
    CalmKeeps(strict, c0, before + [step]);
  }

  lemma {:induction false} StopAll(strict: bool, c0: Cluster, before: seq<Step>, n: string) returns (steps: seq<Step>)
    requires ClusterInv(strict, c0) && CalmRun(c0, before)
    requires var c := After(c0, before); n in c.machines && c.machines[n].stage.Stopping?
    ensures before <= steps && CalmRun(c0, steps) && OnlyMachine(After(c0, before), After(c0, steps), n)
    ensures var p, q := After(c0, before).machines[n], After(c0, steps).machines[n];
      q.stage == Stopping(p.stage.want, {}) && q.held == Kept(p.held, p.stage.want)
    decreases After(c0, before).machines[n].stage.todo
  {
    hide ClusterInv, CalmRun, After, Take, CalmInv;
    var p := After(c0, before).machines[n];
    CalmKeeps(strict, c0, before);
    StoppingStage(strict, After(c0, before), n);
    if p.stage.todo == {} {
      steps := before;
      NothingUnwanted(p.held, p.stage.want);
    } else {
      var id :| id in p.stage.todo;
      AppendOne(strict, c0, before, StopNext(n, id), n);
      steps := StopAll(strict, c0, before + [StopNext(n, id)], n);
      assert Kept(StoppedOne(p, id).held, p.stage.want) == Kept(p.held, p.stage.want);
    }
  }

  lemma StoppingStage(strict: bool, c: Cluster, n: string)
    requires ClusterInv(strict, c) && n in c.machines
    ensures var p := c.machines[n];
      match p.stage
      case Idle => true
      case Stopping(want, todo) => todo == p.held.Keys - want.Keys
      case Starting(want, todo) => p.held.Keys <= want.Keys && todo <= want.Keys && TracksHeld(p) && forall id | id in want :: want[id].id == id
  {
    hide WorldInv, Based, HoldsOwn, HandedOut;
    assert MachineInv(c.world.born, c.archive, n, c.machines[n]);
    if c.machines[n].stage.Starting? { WantedIsOwn(strict, c, n, c.machines[n].stage.want); }
  }

  lemma StartedTowards(p: Machine, id: string)
    requires p.stage.Starting? && id in p.stage.want && p.stage.want[id].id == id && TracksHeld(p)
    ensures var q := StartedOne(p, id);
      && q.held.Keys == p.held.Keys + {id} && q.stage == Starting(p.stage.want, p.stage.todo - {id})
      && SyncedHeld(q.held, p.stage.want) == SyncedHeld(p.held, p.stage.want)
  {
  }

  lemma {:induction false} StartAll(strict: bool, c0: Cluster, before: seq<Step>, n: string) returns (steps: seq<Step>)
    requires ClusterInv(strict, c0) && CalmRun(c0, before)
    requires var c := After(c0, before); n in c.machines && c.machines[n].stage.Starting?
    ensures before <= steps && CalmRun(c0, steps) && OnlyMachine(After(c0, before), After(c0, steps), n)
    ensures var p, q := After(c0, before).machines[n], After(c0, steps).machines[n];
      && q.stage == Starting(p.stage.want, {})
      && (p.stage.want.Keys <= p.held.Keys + p.stage.todo ==> q.held == SyncedHeld(p.held, p.stage.want))
    decreases After(c0, before).machines[n].stage.todo
  {
    hide ClusterInv, CalmRun, After, Take, CalmInv, StartedOne, TracksHeld;
    var p := After(c0, before).machines[n];
    CalmKeeps(strict, c0, before);
    StoppingStage(strict, After(c0, before), n);
    if p.stage.todo == {} {
      steps := before;
    } else {
      var id :| id in p.stage.todo;
      AppendOne(strict, c0, before, StartNext(n, id), n);
      StartedTowards(p, id);
      steps := StartAll(strict, c0, before + [StartNext(n, id)], n);
    }
  }

  lemma {:induction false} FetchesGrow(a: seq<Step>, b: seq<Step>)
    requires a <= b
    ensures Fetches(a) <= Fetches(b)
  {
    forall n | n in Fetches(a) ensures n in Fetches(b) {
      var step :| step in a && step.Fetch? && step.n == n;
      assert step in b;
    }
  }

  lemma OnlyMachineTrans(c: Cluster, d: Cluster, e: Cluster, n: string)
    requires OnlyMachine(c, d, n) && OnlyMachine(d, e, n)
    ensures OnlyMachine(c, e, n)
  {
  }

  lemma KeptThenSynced(held: Held, want: map<string, Assignment>)
    ensures SyncedHeld(Kept(held, want), want) == SyncedHeld(held, want) && Kept(held, want).Keys <= want.Keys
  {
  }

  // From the stops to the starts.
  lemma StopsEnd(strict: bool, c0: Cluster, before: seq<Step>, n: string) returns (steps: seq<Step>)
    requires ClusterInv(strict, c0) && CalmRun(c0, before)
    requires var c := After(c0, before); n in c.machines && c.machines[n].stage.Stopping?
    ensures before <= steps && CalmRun(c0, steps) && OnlyMachine(After(c0, before), After(c0, steps), n)
    ensures var p, q := After(c0, before).machines[n], After(c0, steps).machines[n];
      q.stage == Starting(p.stage.want, p.stage.want.Keys) && q.held == Kept(p.held, p.stage.want)
  {
    hide ClusterInv, CalmRun, After, Kept;
    var stopped := StopAll(strict, c0, before, n);
    AppendOne(strict, c0, stopped, BeginStarts(n), n);
    steps := stopped + [BeginStarts(n)];
    OnlyMachineTrans(After(c0, before), After(c0, stopped), After(c0, steps), n);
  }

  // From the starts to the end.
  lemma StartsEnd(strict: bool, c0: Cluster, before: seq<Step>, n: string) returns (steps: seq<Step>)
    requires ClusterInv(strict, c0) && CalmRun(c0, before)
    requires var c := After(c0, before); n in c.machines && c.machines[n].stage.Starting?
    ensures before <= steps && CalmRun(c0, steps) && OnlyMachine(After(c0, before), After(c0, steps), n)
    ensures var p, q := After(c0, before).machines[n], After(c0, steps).machines[n];
      && q.stage == Idle
      && (p.stage.want.Keys <= p.held.Keys + p.stage.todo ==> q.held == SyncedHeld(p.held, p.stage.want))
  {
    hide ClusterInv, CalmRun, After, SyncedHeld;
    var started := StartAll(strict, c0, before, n);
    AppendOne(strict, c0, started, EndSync(n), n);
    steps := started + [EndSync(n)];
    OnlyMachineTrans(After(c0, before), After(c0, started), After(c0, steps), n);
  }

  /** An idle agent can always finish a sync, and an undisturbed sync leaves the
      runtime with exactly what was handed out, tasks already there untouched. */
  lemma SyncFinishes(strict: bool, c0: Cluster, before: seq<Step>, n: string) returns (steps: seq<Step>)
    requires ClusterInv(strict, c0) && CalmRun(c0, before)
    requires var c := After(c0, before); n in c.machines && c.machines[n].stage.Idle?
    ensures before <= steps && CalmRun(c0, steps) && n in Fetches(steps)
    ensures var c, d := After(c0, before), After(c0, steps);
      && OnlyMachine(c, d, n) && d.machines[n].stage == Idle
      && d.machines[n].held == SyncedHeld(c.machines[n].held, WantedOn(c.world.store.assignments, n))
  {
    hide ClusterInv, CalmRun, After, WantedOn, SyncedHeld, Kept;
    var c := After(c0, before);
    AppendOne(strict, c0, before, Fetch(n), n);
    var fetched := before + [Fetch(n)];
    assert Fetch(n) in fetched && n in Fetches(fetched);
    var stopped := StopsEnd(strict, c0, fetched, n);
    OnlyMachineTrans(c, After(c0, fetched), After(c0, stopped), n);
    steps := StartsEnd(strict, c0, stopped, n);
    OnlyMachineTrans(c, After(c0, stopped), After(c0, steps), n);
    KeptThenSynced(c.machines[n].held, WantedOn(c.world.store.assignments, n));
    FetchesGrow(fetched, steps);
  }

  /** An agent in the middle of a sync, wherever it stands, can finish it. */
  lemma SyncEnds(strict: bool, c0: Cluster, before: seq<Step>, n: string) returns (steps: seq<Step>)
    requires ClusterInv(strict, c0) && CalmRun(c0, before) && n in After(c0, before).machines
    ensures before <= steps && CalmRun(c0, steps) && OnlyMachine(After(c0, before), After(c0, steps), n)
    ensures After(c0, steps).machines[n].stage == Idle
  {
    hide ClusterInv, CalmRun, After, SyncedHeld, Kept;
    var c := After(c0, before);
    steps := before;
    if c.machines[n].stage.Stopping? { steps := StopsEnd(strict, c0, steps, n); }
    if !c.machines[n].stage.Idle? {
      var begun := steps;
      steps := StartsEnd(strict, c0, begun, n);
      OnlyMachineTrans(c, After(c0, begun), After(c0, steps), n);
    }
  }

  lemma {:induction false} AllSync(strict: bool, c0: Cluster, before: seq<Step>, left: set<string>) returns (steps: seq<Step>)
    requires ClusterInv(strict, c0) && CalmRun(c0, before)
    requires var c := After(c0, before);
      left <= c.machines.Keys && forall n | n in c.machines :: n in left || (n in Fetches(before) && c.machines[n].stage.Idle?)
    ensures CalmRun(c0, steps)
    ensures var d := After(c0, steps); forall n | n in d.machines :: n in Fetches(steps) && d.machines[n].stage == Idle
    decreases left
  {
    hide ClusterInv, CalmRun, After, Fetches, WantedOn, SyncedHeld;
    if left == {} {
      steps := before;
    } else {
      var n :| n in left;
      var idle := SyncEnds(strict, c0, before, n);
      steps := SyncFinishes(strict, c0, idle, n);
      FetchesGrow(before, steps);
      steps := AllSync(strict, c0, steps, left - {n});
    }
  }

  /** The calm time convergence asks for can always be had: from any reachable
      cluster, with agents anywhere in their syncs, there is a calm run in which
      every one fetches and finishes a sync. */
  lemma EveryAgentCanSync(strict: bool, history: seq<Step>) returns (steps: seq<Step>)
    requires Run(strict, START, history)
    ensures CalmRun(After(START, history), steps)
    ensures var d := After(After(START, history), steps); forall n | n in d.machines :: n in Fetches(steps) && d.machines[n].stage == Idle
  {
    Reachable(strict, history);
    steps := AllSync(strict, After(START, history), [], After(START, history).machines.Keys);
  }

  /** The premises of convergence can always be had together: after any history
      and any two reconciles at one time there is a calm run in which every agent
      fetches and finishes a sync, and so the cluster converges. */
  lemma ConvergenceIsReached(strict: bool, history: seq<Step>, ctx: Ctx, ops1: seq<Op>, w1: World, ops2: seq<Op>, w2: World)
    returns (steps: seq<Step>)
    requires Run(strict, START, history)
    requires Reconciled(strict, ctx, After(START, history).world, ops1, w1) && Reconciled(strict, ctx, w1, ops2, w2)
    ensures var c := Done(Done(After(START, history), ops1), ops2);
      CalmRun(c, steps) && forall n | n in After(c, steps).machines :: n in Fetches(steps) && After(c, steps).machines[n].stage == Idle
    ensures var d := After(Done(Done(After(START, history), ops1), ops2), steps);
      forall id :: Runs(d, id) <==> IsActiveService(d.world.store, id)
  {
    hide Run, CalmRun, After, Tick, Fetches, IsTrace, Runs, IsActiveService;
    var c := After(START, history);
    LoopRuns(Quiet(strict), c, ops1, w1);
    RunsJoin(strict, START, history, Operations(ops1));
    LoopRuns(Quiet(strict), Done(c, ops1), ops2, w2);
    RunsJoin(strict, START, history + Operations(ops1), Operations(ops2));
    steps := EveryAgentCanSync(strict, history + Operations(ops1) + Operations(ops2));
    ClusterConverges(strict, history, ctx, ops1, w1, ops2, w2, steps);
  }
}
