/** What the control plane owes its users, said of the fields of stored objects, of
    sets and of times only. The functions the program is modelled with are not used
    here; they are measured against this. */
module Requirements {
  import opened Order
  import opened Api
  import opened Load
  import opened StoreState
  import opened Discipline
  import opened Scheduling
  import opened MemoryStores
  import opened Reconciling

  predicate UnderWay(a: Assignment) { a.phase == Pending || a.phase == Running }

  // A known node counts as up until the timeout has passed both since its last
  // heartbeat and since the controller's start.
  predicate InTouch(ctx: Ctx, nodes: map<string, Node>, n: string) {
    n in nodes && (ctx.now <= nodes[n].lastHeartbeat + ctx.timeout || ctx.now <= ctx.started + ctx.timeout)
  }

  // --- Hosts ---------------------------------------------------------------

  ghost function Sum(q: map<string, int>): int {
    if q == map[] then 0 else
      var id :| id in q;
      assert (q - {id}).Keys < q.Keys;
      q[id] + Sum(q - {id})
  }

  function CpuOn(m: map<string, Assignment>, n: string): map<string, int> {
    map id | id in m && UnderWay(m[id]) && m[id].nodeId == n :: m[id].resources.cpu
  }

  function MemoryOn(m: map<string, Assignment>, n: string): map<string, int> {
    map id | id in m && UnderWay(m[id]) && m[id].nodeId == n :: m[id].resources.memory
  }

  // Every required label is there with its value; one that is missing reads as "".
  predicate Labelled(labels: map<string, string>, required: map<string, string>) {
    forall key | key in required :: if key in labels then labels[key] == required[key] else required[key] == ""
  }

  predicate PortsFree(m: map<string, Assignment>, n: string, ports: seq<int>) {
    forall id, p | id in m && UnderWay(m[id]) && m[id].nodeId == n && p in ports :: p !in m[id].ports
  }

  /** n can take work that asks for these resources, labels and ports, on top of
      the work in m. */
  ghost predicate CanTake(ctx: Ctx, nodes: map<string, Node>, m: map<string, Assignment>,
                          asked: Resources, labels: map<string, string>, ports: seq<int>, n: string) {
    && InTouch(ctx, nodes, n)
    && Labelled(nodes[n].labels, labels)
    && Sum(CpuOn(m, n)) + asked.cpu <= nodes[n].capacity.cpu
    && Sum(MemoryOn(m, n)) + asked.memory <= nodes[n].capacity.memory
    && PortsFree(m, n, ports)
  }

  // The first by ID that can.
  ghost predicate FirstToTake(ctx: Ctx, nodes: map<string, Node>, m: map<string, Assignment>,
                              asked: Resources, labels: map<string, string>, ports: seq<int>, n: string) {
    && CanTake(ctx, nodes, m, asked, labels, ports, n)
    && forall k | CanTake(ctx, nodes, m, asked, labels, ports, k) :: k == n || StrLess(n, k)
  }

  // --- What is started -----------------------------------------------------

  // a is what a service has started at a time, wherever it is placed.
  predicate IsReplicaOf(service: Service, now: int, a: Assignment) {
    && a.ownerKind == ServiceKind && a.ownerName == service.name
    && a.template.image == service.template.image && a.template.command == service.template.command
    && a.template.env == service.template.env && a.template.volumes == service.template.volumes
    && a.resources == service.resources && a.ports == service.ports
    && a.attempt == 1 && JustCreated(now, a)
  }

  // a is what a job has started at a time, as its attempt of that number.
  predicate IsRunOf(job: Job, attempt: int, now: int, a: Assignment) {
    && a.ownerKind == JobKind && a.ownerName == job.name
    && a.template.image == job.template.image && a.template.command == job.template.command
    && a.template.env == job.template.env && a.template.volumes == job.template.volumes
    && a.resources == job.resources && a.ports == []
    && a.attempt == attempt && JustCreated(now, a)
  }

  predicate JustCreated(now: int, a: Assignment) {
    a.phase == Pending && a.message == "" && a.createdAt == now && a.startedAt == None && a.finishedAt == None
  }

  function RunsFailed(m: map<string, Assignment>, name: string): set<string> {
    set id | id in m && m[id].ownerKind == JobKind && m[id].ownerName == name && m[id].phase == Failed
  }

  // Going by the runs in m, the job needs another: none has succeeded, none is
  // under way on a node in touch, and retries are left.
  predicate NeedsRun(ctx: Ctx, nodes: map<string, Node>, m: map<string, Assignment>, job: Job) {
    && (forall id | id in m && m[id].ownerKind == JobKind && m[id].ownerName == job.name ::
          m[id].phase != Succeeded && !(UnderWay(m[id]) && InTouch(ctx, nodes, m[id].nodeId)))
    && |RunsFailed(m, job.name)| <= job.retries
  }

  // --- Every save of a tick is called for ----------------------------------

  // The store after the first j operations.
  ghost function StoreAt(origin: World, ops: seq<Op>, j: nat): State
    requires j <= |ops|
  {
    Replay(origin, ops[..j]).store
  }

  // Since then, the service or job was stored like this; the node was the first that
  // could take the work; the job needed a run of that number.
  ghost predicate ServiceWas(origin: World, ops: seq<Op>, since: nat, service: Service) {
    exists j | since <= j <= |ops| :: StoresService(StoreAt(origin, ops, j), service)
  }

  predicate StoresService(s: State, service: Service) { service.name in s.services && s.services[service.name] == service }

  ghost predicate JobWas(origin: World, ops: seq<Op>, since: nat, job: Job) {
    exists j | since <= j <= |ops| :: StoresJob(StoreAt(origin, ops, j), job)
  }

  predicate StoresJob(s: State, job: Job) { job.name in s.jobs && s.jobs[job.name] == job }

  ghost predicate Chosen(ctx: Ctx, origin: World, ops: seq<Op>, since: nat,
                         asked: Resources, labels: map<string, string>, ports: seq<int>, n: string) {
    exists j, k | since <= j <= k <= |ops| ::
      FirstToTake(ctx, StoreAt(origin, ops, j).nodes, StoreAt(origin, ops, k).assignments, asked, labels, ports, n)
  }

  ghost predicate RunNeeded(ctx: Ctx, origin: World, ops: seq<Op>, since: nat, job: Job, attempt: int) {
    exists j, k | since <= j <= k <= |ops| ::
      NeedsNumber(ctx, StoreAt(origin, ops, k).nodes, StoreAt(origin, ops, j).assignments, job, attempt)
  }

  predicate NeedsNumber(ctx: Ctx, nodes: map<string, Node>, m: map<string, Assignment>, job: Job, attempt: int) {
    NeedsRun(ctx, nodes, m, job) && attempt == |RunsFailed(m, job.name)| + 1
  }

  // Saving a after ops is called for.
  ghost predicate SaveDue(ctx: Ctx, origin: World, ops: seq<Op>, since: nat, a: Assignment) {
    || (exists service :: ReplicaDue(ctx, origin, ops, since, service, a))
    || (exists job :: RunDue(ctx, origin, ops, since, job, a))
  }

  ghost predicate ReplicaDue(ctx: Ctx, origin: World, ops: seq<Op>, since: nat, service: Service, a: Assignment) {
    && ServiceWas(origin, ops, since, service) && IsReplicaOf(service, ctx.now, a)
    && Chosen(ctx, origin, ops, since, service.resources, service.requiredLabels, service.ports, a.nodeId)
  }

  ghost predicate RunDue(ctx: Ctx, origin: World, ops: seq<Op>, since: nat, job: Job, a: Assignment) {
    && JobWas(origin, ops, since, job) && IsRunOf(job, a.attempt, ctx.now, a)
    && RunNeeded(ctx, origin, ops, since, job, a.attempt)
    && Chosen(ctx, origin, ops, since, job.resources, job.requiredLabels, [], a.nodeId)
  }

  // Every save since then was called for when it was made.
  ghost predicate SavesDue(ctx: Ctx, origin: World, ops: seq<Op>, since: nat) {
    |ops| <= since || (
      var k := |ops| - 1;
      && SavesDue(ctx, origin, ops[..k], since)
      && (ops[k].SaveAssignment? ==> SaveDue(ctx, origin, ops[..k], since, ops[k].assignment)))
  }

  lemma SavesDueStep(ctx: Ctx, origin: World, ops: seq<Op>, since: nat, op: Op)
    requires SavesDue(ctx, origin, ops, since) && (op.SaveAssignment? ==> SaveDue(ctx, origin, ops, since, op.assignment))
    ensures SavesDue(ctx, origin, ops + [op], since)
  {
    assert (ops + [op])[..|ops|] == ops;
  }

  lemma StoreStillAt(origin: World, ops: seq<Op>, more: seq<Op>, j: nat)
    requires ops <= more && j <= |ops|
    ensures StoreAt(origin, more, j) == StoreAt(origin, ops, j)
  {
    assert more[..j] == ops[..j];
  }

  /** What was seen in a tick stays seen as the tick goes on. */
  lemma SeenStays(ctx: Ctx, origin: World, ops: seq<Op>, more: seq<Op>, since: nat)
    requires ops <= more
    ensures forall service | ServiceWas(origin, ops, since, service) :: ServiceWas(origin, more, since, service)
    ensures forall job | JobWas(origin, ops, since, job) :: JobWas(origin, more, since, job)
    ensures forall job, attempt | RunNeeded(ctx, origin, ops, since, job, attempt) :: RunNeeded(ctx, origin, more, since, job, attempt)
    ensures forall asked, labels, ports, n | Chosen(ctx, origin, ops, since, asked, labels, ports, n) ::
              Chosen(ctx, origin, more, since, asked, labels, ports, n)
  {
    hide FirstToTake, NeedsNumber, Replay;
    forall j: nat | j <= |ops| ensures StoreAt(origin, more, j) == StoreAt(origin, ops, j) { StoreStillAt(origin, ops, more, j); }
    forall service | ServiceWas(origin, ops, since, service) ensures ServiceWas(origin, more, since, service) {
      var j :| since <= j <= |ops| && StoresService(StoreAt(origin, ops, j), service);
      assert StoresService(StoreAt(origin, more, j), service);
    }
    forall job | JobWas(origin, ops, since, job) ensures JobWas(origin, more, since, job) {
      var j :| since <= j <= |ops| && StoresJob(StoreAt(origin, ops, j), job);
      assert StoresJob(StoreAt(origin, more, j), job);
    }
    forall job, attempt | RunNeeded(ctx, origin, ops, since, job, attempt) ensures RunNeeded(ctx, origin, more, since, job, attempt) {
      var j, k :| since <= j <= k <= |ops| && NeedsNumber(ctx, StoreAt(origin, ops, k).nodes, StoreAt(origin, ops, j).assignments, job, attempt);
      assert NeedsNumber(ctx, StoreAt(origin, more, k).nodes, StoreAt(origin, more, j).assignments, job, attempt);
    }
    forall asked, labels, ports, n | Chosen(ctx, origin, ops, since, asked, labels, ports, n)
      ensures Chosen(ctx, origin, more, since, asked, labels, ports, n)
    {
      var j, k :| since <= j <= k <= |ops| &&
        FirstToTake(ctx, StoreAt(origin, ops, j).nodes, StoreAt(origin, ops, k).assignments, asked, labels, ports, n);
      assert FirstToTake(ctx, StoreAt(origin, more, j).nodes, StoreAt(origin, more, k).assignments, asked, labels, ports, n);
    }
  }

  // --- The same tick, told from its own start ------------------------------

  lemma {:induction false} ReplayFrom(origin: World, ops: seq<Op>, since: nat, j: nat)
    requires since <= j <= |ops|
    ensures Replay(Replay(origin, ops[..since]), ops[since..j]) == Replay(origin, ops[..j])
    decreases j
  {
    hide ApplyWorld;
    if j > since {
      ReplayFrom(origin, ops, since, j - 1);
      assert ops[since..j][..j - 1 - since] == ops[since..j - 1];
      assert ops[..j][..j - 1] == ops[..j - 1];
    } else {
      assert ops[since..j] == [];
    }
  }

  lemma StoreFrom(origin: World, ops: seq<Op>, since: nat, j: nat)
    requires since <= j <= |ops|
    ensures StoreAt(Replay(origin, ops[..since]), ops[since..], j - since) == StoreAt(origin, ops, j)
  {
    hide Replay;
    assert ops[since..][..j - since] == ops[since..j];
    ReplayFrom(origin, ops, since, j);
  }

  lemma SaveDueFrom(ctx: Ctx, origin: World, ops: seq<Op>, since: nat, a: Assignment)
    requires since <= |ops| && SaveDue(ctx, origin, ops, since, a)
    ensures SaveDue(ctx, Replay(origin, ops[..since]), ops[since..], 0, a)
  {
    hide Chosen, ServiceWas, JobWas, RunNeeded, Replay, IsReplicaOf, IsRunOf;
    var base, tail := Replay(origin, ops[..since]), ops[since..];
    if service :| ReplicaDue(ctx, origin, ops, since, service, a) {
      ChosenFrom(ctx, origin, ops, since, service.resources, service.requiredLabels, service.ports, a.nodeId);
      ServiceWasFrom(origin, ops, since, service);
      assert ReplicaDue(ctx, base, tail, 0, service, a);
    } else {
      var job :| RunDue(ctx, origin, ops, since, job, a);
      ChosenFrom(ctx, origin, ops, since, job.resources, job.requiredLabels, [], a.nodeId);
      JobWasFrom(origin, ops, since, job);
      RunNeededFrom(ctx, origin, ops, since, job, a.attempt);
      assert RunDue(ctx, base, tail, 0, job, a);
    }
  }

  lemma ServiceWasFrom(origin: World, ops: seq<Op>, since: nat, service: Service)
    requires since <= |ops| && ServiceWas(origin, ops, since, service)
    ensures ServiceWas(Replay(origin, ops[..since]), ops[since..], 0, service)
  {
    hide Replay, StoresService;
    var j :| since <= j <= |ops| && StoresService(StoreAt(origin, ops, j), service);
    StoreFrom(origin, ops, since, j);
    assert StoresService(StoreAt(Replay(origin, ops[..since]), ops[since..], j - since), service);
  }

  lemma JobWasFrom(origin: World, ops: seq<Op>, since: nat, job: Job)
    requires since <= |ops| && JobWas(origin, ops, since, job)
    ensures JobWas(Replay(origin, ops[..since]), ops[since..], 0, job)
  {
    hide Replay, StoresJob;
    var j :| since <= j <= |ops| && StoresJob(StoreAt(origin, ops, j), job);
    StoreFrom(origin, ops, since, j);
    assert StoresJob(StoreAt(Replay(origin, ops[..since]), ops[since..], j - since), job);
  }

  lemma RunNeededFrom(ctx: Ctx, origin: World, ops: seq<Op>, since: nat, job: Job, attempt: int)
    requires since <= |ops| && RunNeeded(ctx, origin, ops, since, job, attempt)
    ensures RunNeeded(ctx, Replay(origin, ops[..since]), ops[since..], 0, job, attempt)
  {
    hide Replay, NeedsNumber;
    var base, tail := Replay(origin, ops[..since]), ops[since..];
    var j, k :| since <= j <= k <= |ops| && NeedsNumber(ctx, StoreAt(origin, ops, k).nodes, StoreAt(origin, ops, j).assignments, job, attempt);
    StoreFrom(origin, ops, since, j);
    StoreFrom(origin, ops, since, k);
    assert NeedsNumber(ctx, StoreAt(base, tail, k - since).nodes, StoreAt(base, tail, j - since).assignments, job, attempt);
  }

  lemma ChosenFrom(ctx: Ctx, origin: World, ops: seq<Op>, since: nat, asked: Resources, labels: map<string, string>, ports: seq<int>, n: string)
    requires since <= |ops| && Chosen(ctx, origin, ops, since, asked, labels, ports, n)
    ensures Chosen(ctx, Replay(origin, ops[..since]), ops[since..], 0, asked, labels, ports, n)
  {
    hide FirstToTake, Replay;
    var base, tail := Replay(origin, ops[..since]), ops[since..];
    var j, k :| since <= j <= k <= |ops| &&
      FirstToTake(ctx, StoreAt(origin, ops, j).nodes, StoreAt(origin, ops, k).assignments, asked, labels, ports, n);
    StoreFrom(origin, ops, since, j);
    StoreFrom(origin, ops, since, k);
    assert FirstToTake(ctx, StoreAt(base, tail, j - since).nodes, StoreAt(base, tail, k - since).assignments, asked, labels, ports, n);
  }

  lemma {:induction false} SavesDueFrom(ctx: Ctx, origin: World, ops: seq<Op>, since: nat)
    requires since <= |ops| && SavesDue(ctx, origin, ops, since)
    ensures SavesDue(ctx, Replay(origin, ops[..since]), ops[since..], 0)
    decreases |ops|
  {
    hide SaveDue, Replay;
    if |ops| > since {
      var k := |ops| - 1;
      SavesDueFrom(ctx, origin, ops[..k], since);
      assert ops[..k][..since] == ops[..since];
      assert ops[since..][..k - since] == ops[..k][since..];
      if ops[k].SaveAssignment? { SaveDueFrom(ctx, origin, ops[..k], since, ops[k].assignment); }
    }
  }

  /** Read out for one operation: a save in a tick was called for. */
  lemma {:induction false} EverySaveDue(ctx: Ctx, origin: World, ops: seq<Op>, since: nat, i: nat)
    requires SavesDue(ctx, origin, ops, since) && since <= i < |ops| && ops[i].SaveAssignment?
    ensures SaveDue(ctx, origin, ops[..i], since, ops[i].assignment)
    decreases |ops|
  {
    var k := |ops| - 1;
    if i < k {
      assert ops[..k][..i] == ops[..i];
      EverySaveDue(ctx, origin, ops[..k], since, i);
    }
  }

  // --- The model's own terms -----------------------------------------------

  /** A node is live in the model exactly if it is in touch. */
  lemma LiveExactly(ctx: Ctx, nodes: map<string, Node>, n: string)
    ensures Live(ctx, nodes, n) <==> InTouch(ctx, nodes, n)
  {
  }

  lemma {:induction false} SumRemove(q: map<string, int>, id: string)
    requires id in q
    ensures Sum(q) == q[id] + Sum(q - {id})
    decreases |q|
  {
    var k :| k in q && Sum(q) == q[k] + Sum(q - {k});
    if k != id {
      assert (q - {k}).Keys == q.Keys - {k} && (q - {id}).Keys == q.Keys - {id};
      SumRemove(q - {k}, id);
      SumRemove(q - {id}, k);
      assert q - {k} - {id} == q - {id} - {k};
    }
  }

  lemma {:induction false} TotalIsSum(load: NodeLoad, cpu: map<string, int>, memory: map<string, int>)
    requires cpu.Keys == load.Keys == memory.Keys
    requires forall id | id in load :: cpu[id] == load[id].resources.cpu && memory[id] == load[id].resources.memory
    ensures Total(load) == Resources(Sum(cpu), Sum(memory))
    decreases |load|
  {
    if id :| id in load {
      Smaller(load, id);
      TotalRemove(load, id);
      SumRemove(cpu, id);
      SumRemove(memory, id);
      TotalIsSum(load - {id}, cpu - {id}, memory - {id});
    } else {
      assert load == map[] && cpu == map[] && memory == map[];
    }
  }

  /** The scheduler's rule, with the grace of a restart, is CanTake. */
  lemma FitsExactly(ctx: Ctx, nodes: map<string, Node>, m: map<string, Assignment>, request: Request, n: string)
    ensures Fits(ctx.now, ctx.timeout, GracedNodes(ctx, nodes), m, request, n)
       <==> CanTake(ctx, nodes, m, request.resources, request.requiredLabels, request.ports, n)
  {
    var load := LoadOf(m, n);
    TotalIsSum(load, CpuOn(m, n), MemoryOn(m, n));
    RoomExactly(m, n, request.ports);
    LiveExactly(ctx, nodes, n);
    if n in nodes { LabelsExactly(nodes[n].labels, request.requiredLabels); }
  }

  lemma RoomExactly(m: map<string, Assignment>, n: string, ports: seq<int>)
    ensures (forall id | id in LoadOf(m, n) :: !SharePort(ports, LoadOf(m, n)[id].ports)) <==> PortsFree(m, n, ports)
  {
    var load := LoadOf(m, n);
    if PortsFree(m, n, ports) {
      forall id | id in load ensures !SharePort(ports, load[id].ports) {
        forall p | p in ports ensures p !in load[id].ports { assert p !in m[id].ports; }
      }
    } else {
      var id, p :| id in m && UnderWay(m[id]) && m[id].nodeId == n && p in ports && p in m[id].ports;
      assert id in load && SharePort(ports, load[id].ports);
    }
  }

  /** A node matches exactly if it is labelled as required. */
  lemma LabelsExactly(labels: map<string, string>, required: map<string, string>)
    ensures MatchesPlacement(labels, required) <==> Labelled(labels, required)
  {
    if Labelled(labels, required) {
      forall key | key in required ensures LabelOf(labels, key) == required[key] {
        assert if key in labels then labels[key] == required[key] else required[key] == "";
      }
    } else {
      var key :| key in required && !(if key in labels then labels[key] == required[key] else required[key] == "");
      assert LabelOf(labels, key) != required[key];
    }
  }

  // What the assignments of a list add up to, one entry each.
  function ListSum(q: seq<int>): int { if q == [] then 0 else ListSum(q[..|q| - 1]) + q[|q| - 1] }

  function CpuListed(xs: seq<Assignment>, n: string): seq<int> {
    seq(|xs|, i requires 0 <= i < |xs| => if UnderWay(xs[i]) && xs[i].nodeId == n then xs[i].resources.cpu else 0)
  }

  function MemoryListed(xs: seq<Assignment>, n: string): seq<int> {
    seq(|xs|, i requires 0 <= i < |xs| => if UnderWay(xs[i]) && xs[i].nodeId == n then xs[i].resources.memory else 0)
  }

  /** The scheduler's rule on the lists it is given: heard from within the timeout,
      labelled as required, free CPU and memory on top of the pending and running
      assignments listed for it, and none of the ports among theirs. */
  predicate NodeCanTake(now: int, timeout: int, node: Node, xs: seq<Assignment>, request: Request) {
    && now <= node.lastHeartbeat + timeout
    && Labelled(node.labels, request.requiredLabels)
    && ListSum(CpuListed(xs, node.id)) + request.resources.cpu <= node.capacity.cpu
    && ListSum(MemoryListed(xs, node.id)) + request.resources.memory <= node.capacity.memory
    && forall a, p | a in xs && UnderWay(a) && a.nodeId == node.id && p in request.ports :: p !in a.ports
  }

  lemma {:induction false} UsedIsSum(xs: seq<Assignment>, n: string)
    ensures Used(xs, n) == Resources(ListSum(CpuListed(xs, n)), ListSum(MemoryListed(xs, n)))
  {
    if xs != [] {
      var k := |xs| - 1;
      UsedIsSum(xs[..k], n);
      assert CpuListed(xs, n)[..k] == CpuListed(xs[..k], n) && MemoryListed(xs, n)[..k] == MemoryListed(xs[..k], n);
    }
  }

  lemma EligibleExactly(now: int, timeout: int, node: Node, xs: seq<Assignment>, request: Request)
    ensures Eligible(now, timeout, node, xs, request) <==> NodeCanTake(now, timeout, node, xs, request)
  {
    UsedIsSum(xs, node.id);
    LabelsExactly(node.labels, request.requiredLabels);
    if PortsClash(UsedPorts(xs, node.id), request.ports) {
      var p :| p in request.ports && p in UsedPorts(xs, node.id);
      var a :| a in xs && RunsOn(a, node.id) && p in a.ports;
      assert UnderWay(a);
    } else {
      forall a, p | a in xs && UnderWay(a) && a.nodeId == node.id && p in request.ports ensures p !in a.ports {
        assert p !in UsedPorts(xs, node.id);
      }
    }
  }

  /** The scheduler's choice: the least ID among the nodes that can take the work;
      none exactly if there is no such node. */
  lemma ChoiceMeans(now: int, timeout: int, nodes: seq<Node>, xs: seq<Assignment>, request: Request, r: Option<string>)
    requires IsChoice(now, timeout, nodes, xs, request, r)
    ensures r.None? <==> forall node | node in nodes :: !NodeCanTake(now, timeout, node, xs, request)
    ensures r.Some? ==>
              && (exists node | node in nodes :: node.id == r.value && NodeCanTake(now, timeout, node, xs, request))
              && (forall node | node in nodes && NodeCanTake(now, timeout, node, xs, request) :: node.id == r.value || StrLess(r.value, node.id))
  {
    hide Eligible, NodeCanTake;
    forall node ensures Eligible(now, timeout, node, xs, request) <==> NodeCanTake(now, timeout, node, xs, request) {
      EligibleExactly(now, timeout, node, xs, request);
    }
    if r.Some? {
      forall node | node in nodes && NodeCanTake(now, timeout, node, xs, request) ensures node.id == r.value || StrLess(r.value, node.id) {
        StrTotal(node.id, r.value);
      }
    }
  }

  lemma PickExactly(ctx: Ctx, nodes: map<string, Node>, m: map<string, Assignment>, request: Request, n: string)
    requires Fits(ctx.now, ctx.timeout, GracedNodes(ctx, nodes), m, request, n)
    requires forall k | Fits(ctx.now, ctx.timeout, GracedNodes(ctx, nodes), m, request, k) :: !StrLess(k, n)
    ensures FirstToTake(ctx, nodes, m, request.resources, request.requiredLabels, request.ports, n)
  {
    hide Fits, CanTake;
    FitsExactly(ctx, nodes, m, request, n);
    forall k | CanTake(ctx, nodes, m, request.resources, request.requiredLabels, request.ports, k) ensures k == n || StrLess(n, k) {
      FitsExactly(ctx, nodes, m, request, k);
      StrTotal(k, n);
    }
  }

  /** What the loop starts is what is asked for. */
  lemma StartedExactly(service: Service, job: Job, attempt: int, id: string, n: string, now: int)
    ensures IsReplicaOf(service, now, NewReplica(service, id, n, now))
    ensures NewReplica(service, id, n, now).id == id && NewReplica(service, id, n, now).nodeId == n
    ensures IsRunOf(job, attempt, now, NewRun(job, attempt, id, n, now))
    ensures NewRun(job, attempt, id, n, now).id == id && NewRun(job, attempt, id, n, now).nodeId == n
  {
  }
}
