/** What one uninterrupted reconcile does to the store (internal/controller),
    step by step, as relations between store values. */
module Reconciling {
  import opened Order
  import opened Api
  import opened Load
  import opened StoreState
  import opened Discipline
  import opened Scheduling

  // A tick: its time, the node timeout, and when this controller first ran.
  datatype Ctx = Ctx(now: int, timeout: int, started: int)

  function Graced(ctx: Ctx, node: Node): Node {
    if node.lastHeartbeat < ctx.started then node.(lastHeartbeat := ctx.started) else node
  }

  function GracedNodes(ctx: Ctx, nodes: map<string, Node>): map<string, Node> {
    map id | id in nodes :: Graced(ctx, nodes[id])
  }

  predicate Live(ctx: Ctx, nodes: map<string, Node>, n: string) {
    n in nodes && IsLive(ctx.now, ctx.timeout, Graced(ctx, nodes[n]))
  }

  // n can take the request in s.
  ghost predicate MayHost(ctx: Ctx, s: State, request: Request, n: string) {
    Fits(ctx.now, ctx.timeout, GracedNodes(ctx, s.nodes), s.assignments, request, n)
  }

  ghost predicate NoHost(ctx: Ctx, s: State, request: Request) {
    forall n :: !MayHost(ctx, s, request, n)
  }

  // n is the node the scheduler picks in s.
  ghost predicate IsPick(ctx: Ctx, s: State, request: Request, n: string) {
    MayHost(ctx, s, request, n) && forall k | MayHost(ctx, s, request, k) :: !StrLess(k, n)
  }

  function LostMessage(nodeId: string): string {
    "node " + nodeId + " stopped heartbeating"
  }

  // Active work on dead nodes becomes Lost.
  function MarkedLost(ctx: Ctx, s: State): State {
    s.(assignments := map id | id in s.assignments ::
         var a := s.assignments[id];
         if a.Active() && !Live(ctx, s.nodes, a.nodeId) then ApplyStatus(a, Lost, LostMessage(a.nodeId), ctx.now) else a)
  }

  ghost predicate AllActiveLive(ctx: Ctx, s: State) {
    forall id | id in s.assignments && s.assignments[id].Active() :: Live(ctx, s.nodes, s.assignments[id].nodeId)
  }

  // --- Services ------------------------------------------------------------

  // The replicas a service counts: its active assignments on live nodes.
  function Replicas(ctx: Ctx, s: State, name: string): set<string> {
    set id | id in s.assignments && s.assignments[id].OwnedBy(ServiceKind, name) && s.assignments[id].Active()
          && Live(ctx, s.nodes, s.assignments[id].nodeId)
  }

  function ServiceRequest(service: Service): Request {
    Request(service.resources, service.requiredLabels, service.ports)
  }

  function NewReplica(service: Service, id: string, nodeId: string, now: int): Assignment {
    Assignment(id, ServiceKind, service.name, nodeId, service.template, service.resources, service.ports,
               1, Pending, "", now, None, None)
  }

  // Pending before Running, then newest first, then larger ID first.
  predicate VictimLess(a: Assignment, b: Assignment) {
    if a.phase != b.phase then a.phase == Pending
    else if a.createdAt == b.createdAt then StrLess(b.id, a.id)
    else b.createdAt < a.createdAt
  }

  // victims are the first count members of the group in removal order.
  ghost predicate AreVictims(m: map<string, Assignment>, group: set<string>, victims: set<string>, count: int) {
    && victims <= group && |victims| == count
    && forall v, k | v in victims && k in group - victims :: v in m && k in m && VictimLess(m[v], m[k])
  }

  datatype Placement = Placement(id: string, nodeId: string)

  function AddReplica(ctx: Ctx, service: Service, s: State, p: Placement): State {
    s.(assignments := s.assignments[p.id := NewReplica(service, p.id, p.nodeId, ctx.now)])
  }

  function AddReplicas(ctx: Ctx, service: Service, s: State, ps: seq<Placement>): State {
    if ps == [] then s
    else AddReplica(ctx, service, AddReplicas(ctx, service, s, ps[..|ps| - 1]), ps[|ps| - 1])
  }

  // Each placement is made while the service is short, with an unused ID, on the scheduler's pick.
  ghost predicate Greedy(ctx: Ctx, service: Service, s: State, ps: seq<Placement>) {
    ps == [] || (
      var before, p := AddReplicas(ctx, service, s, ps[..|ps| - 1]), ps[|ps| - 1];
      && Greedy(ctx, service, s, ps[..|ps| - 1])
      && |Replicas(ctx, before, service.name)| < service.replicas
      && p.id !in before.assignments
      && IsPick(ctx, before, ServiceRequest(service), p.nodeId))
  }

  function InPhase(s: State, ids: set<string>, phase: Phase): set<string> {
    set id | id in ids && id in s.assignments && s.assignments[id].phase == phase
  }

  ghost function ServiceStatusOf(ctx: Ctx, s: State, service: Service): ServiceStatus {
    var ids := Replicas(ctx, s, service.name);
    ServiceStatus(service.replicas, |InPhase(s, ids, Pending)|, |InPhase(s, ids, Running)|,
                  Listing(ids, StrLess), ctx.now / 1_000_000_000)
  }

  ghost predicate ServiceRunBy(ctx: Ctx, service: Service, s: State, t: State, victims: set<string>, ps: seq<Placement>) {
    var group := Replicas(ctx, s, service.name);
    var kept := s.(assignments := s.assignments - victims);
    var full := AddReplicas(ctx, service, kept, ps);
    && (if |group| > service.replicas
        then AreVictims(s.assignments, group, victims, |group| - service.replicas)
        else victims == {})
    && Greedy(ctx, service, kept, ps)
    && (|Replicas(ctx, full, service.name)| >= service.replicas || NoHost(ctx, full, ServiceRequest(service)))
    && t == Apply(full, UpdateServiceStatus(service.name, ServiceStatusOf(ctx, full, service)))
  }

  // One service reconciled, s to t.
  ghost predicate ServiceRun(ctx: Ctx, service: Service, s: State, t: State) {
    exists victims, ps :: ServiceRunBy(ctx, service, s, t, victims, ps)
  }

  // --- Jobs ----------------------------------------------------------------

  function JobRequest(job: Job): Request {
    Request(job.resources, job.requiredLabels, [])
  }

  function NewRun(job: Job, attempt: int, id: string, nodeId: string, now: int): Assignment {
    Assignment(id, JobKind, job.name, nodeId, job.template, job.resources, [], attempt, Pending, "", now, None, None)
  }

  predicate HasFailed(a: Assignment) { a.phase == Failed }

  function Failures(xs: seq<Assignment>): seq<Assignment> { Filter(xs, HasFailed) }

  function LastMessage(xs: seq<Assignment>): string {
    if xs == [] then "" else xs[|xs| - 1].message
  }

  function FirstWon(xs: seq<Assignment>): (r: Option<nat>)
    ensures r.Some? ==> r.value < |xs| && xs[r.value].phase == Succeeded
    ensures r.None? <==> forall a | a in xs :: a.phase != Succeeded
  {
    if xs == [] then None else
      var k := |xs| - 1;
      assert xs == xs[..k] + [xs[k]];
      var before := FirstWon(xs[..k]);
      if before.Some? then before else if xs[k].phase == Succeeded then Some(k) else None
  }

  predicate IsLiveRun(ctx: Ctx, nodes: map<string, Node>, a: Assignment) {
    a.Active() && Live(ctx, nodes, a.nodeId)
  }

  function LastLive(ctx: Ctx, nodes: map<string, Node>, xs: seq<Assignment>): (r: Option<Assignment>)
    ensures r.Some? ==> r.value in xs && IsLiveRun(ctx, nodes, r.value)
    ensures r.None? <==> forall a | a in xs :: !IsLiveRun(ctx, nodes, a)
  {
    if xs == [] then None else
      var k := |xs| - 1;
      assert xs == xs[..k] + [xs[k]];
      if IsLiveRun(ctx, nodes, xs[k]) then Some(xs[k]) else LastLive(ctx, nodes, xs[..k])
  }

  // The finished run created last; among equals the one listed first.
  function LatestTerminal(xs: seq<Assignment>): Option<Assignment> {
    if xs == [] then None else
      var k := |xs| - 1;
      var before := LatestTerminal(xs[..k]);
      if !xs[k].Active() && (before.None? || before.value.createdAt < xs[k].createdAt) then Some(xs[k]) else before
  }

  function Max(a: int, b: int): int { if a > b then a else b }

  // The status of a job whose assignments, in list order, are xs.
  function StatusFrom(ctx: Ctx, nodes: map<string, Node>, xs: seq<Assignment>): JobStatus {
    match FirstWon(xs)
    case Some(k) =>
      var failed := Failures(xs[..k]);
      JobStatus("", xs[k].id, true, |failed|, LastMessage(failed), xs[k].finishedAt)
    case None =>
      var failed := Failures(xs);
      match LastLive(ctx, nodes, xs)
      case Some(a) => JobStatus(a.id, a.id, false, Max(|failed|, a.attempt - 1), LastMessage(failed), None)
      case None =>
        var last := LatestTerminal(xs);
        JobStatus("", if last.Some? then last.value.id else "", false, |failed|, LastMessage(failed), None)
  }

  ghost function RunsOf(s: State, name: string): seq<Assignment> {
    Listing(Owned(s.assignments, JobKind, name), AssignmentLess)
  }

  ghost function JobStatusOf(ctx: Ctx, s: State, name: string): JobStatus {
    StatusFrom(ctx, s.nodes, RunsOf(s, name))
  }

  // Nothing to start: the job has succeeded, is under way, is out of retries, or fits nowhere.
  ghost predicate JobSettled(ctx: Ctx, s: State, job: Job) {
    var xs := RunsOf(s, job.name);
    || FirstWon(xs).Some?
    || LastLive(ctx, s.nodes, xs).Some?
    || |Failures(xs)| > job.retries
    || NoHost(ctx, s, JobRequest(job))
  }

  function AddRun(ctx: Ctx, job: Job, s: State, failures: nat, p: Placement): State {
    s.(assignments := s.assignments[p.id := NewRun(job, failures + 1, p.id, p.nodeId, ctx.now)])
  }

  ghost predicate JobRunBy(ctx: Ctx, job: Job, s: State, t: State, p: Option<Placement>) {
    var failures := |Failures(RunsOf(s, job.name))|;
    var u := if p.Some? then AddRun(ctx, job, s, failures, p.value) else s;
    && (p.None? <==> JobSettled(ctx, s, job))
    && (p.Some? ==> p.value.id !in s.assignments && IsPick(ctx, s, JobRequest(job), p.value.nodeId))
    && t == Apply(u, UpdateJobStatus(job.name, JobStatusOf(ctx, u, job.name)))
  }

  // One job reconciled, s to t. The status written is that of the state left behind.
  ghost predicate JobRun(ctx: Ctx, job: Job, s: State, t: State) {
    exists p :: JobRunBy(ctx, job, s, t, p)
  }

  // --- A whole reconcile ---------------------------------------------------

  ghost predicate ServicesRun(ctx: Ctx, services: seq<Service>, run: seq<State>) {
    && |run| == |services| + 1
    && forall i | 0 <= i < |services| :: ServiceRun(ctx, services[i], run[i], run[i + 1])
  }

  ghost predicate JobsRun(ctx: Ctx, jobs: seq<Job>, run: seq<State>) {
    && |run| == |jobs| + 1
    && forall i | 0 <= i < |jobs| :: JobRun(ctx, jobs[i], run[i], run[i + 1])
  }

  ghost predicate TickBy(ctx: Ctx, s: State, t: State, run1: seq<State>, run2: seq<State>) {
    && run1 != [] && run1[0] == MarkedLost(ctx, s)
    && ServicesRun(ctx, Listing(run1[0].services.Values, ServiceLess), run1)
    && run2 != [] && run2[0] == run1[|run1| - 1]
    && JobsRun(ctx, Listing(run2[0].jobs.Values, JobLess), run2)
    && t == run2[|run2| - 1]
  }

  // An uninterrupted Reconcile may take the store from s to t.
  ghost predicate Tick(ctx: Ctx, s: State, t: State) {
    exists run1, run2 :: TickBy(ctx, s, t, run1, run2)
  }
}
