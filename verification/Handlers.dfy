/** The controller's HTTP handlers (internal/controller/handlers.go), reduced to
    their guards, their effect on the store and their answer. */
module Handlers {
  import opened Order
  import opened Api
  import opened StoreState
  import opened Discipline
  import opened MemoryStores

  datatype ApiRequest =
    | ApplyService(service: Service)
    | RemoveService(name: string)
    | ApplyJob(job: Job)
    | RemoveJob(name: string)
    | Register(node: Node)
    | Heartbeat(nodeId: string)
    | GetAssignments(nodeId: string)
    | ReportStatus(id: string, phase: Phase, message: string)
    | GetServices
    | GetJobs
    | GetNodes
    | GetState

  datatype Answer =
    | Done
    | BadRequest
    | NotFound
    | Forbidden
    | StoredService(service: Service)
    | StoredJob(job: Job)
    | StoredNode(node: Node)
    | StoredAssignment(assignment: Assignment)
    | Assignments(list: seq<Assignment>)
    | Services(services: seq<Service>)
    | Jobs(jobs: seq<Job>)
    | Nodes(nodes: seq<Node>)
    | Snapshot(nodes: seq<Node>, services: seq<Service>, jobs: seq<Job>, assignments: seq<Assignment>)

  // The phases a report may carry: all but the two that only the reconcile loop writes.
  predicate IsAgentReportablePhase(phase: Phase) {
    match phase
    case Running | Succeeded | Failed | Stopped => true
    case _ => false
  }

  predicate IsPlainName(name: string) {
    name != "" && '/' !in name
  }

  function ActiveOn(m: map<string, Assignment>, nodeId: string): set<Assignment> {
    set id | id in m && m[id].nodeId == nodeId && m[id].Active() :: m[id]
  }

  function Normalized(service: Service): Service {
    var replicas := if service.replicas <= 0 then 1 else service.replicas;
    service.(replicas := replicas, status := service.status.(desiredReplicas := replicas))
  }

  // The store operation a request leads to, if its guards let it through.
  function Effect(s: State, caller: string, request: ApiRequest, now: int): Option<Op> {
    match request
    case ApplyService(service) =>
      if service.name == "" || service.template.image == "" then None else Some(UpsertService(Normalized(service)))
    case RemoveService(name) => if IsPlainName(name) then Some(DeleteService(name)) else None
    case ApplyJob(job) => if job.name == "" || job.template.image == "" then None else Some(UpsertJob(job))
    case RemoveJob(name) => if IsPlainName(name) then Some(DeleteJob(name)) else None
    case Register(node) => if node.id != caller then None else Some(UpsertNode(node.(lastHeartbeat := now)))
    case Heartbeat(id) => if id != caller then None else Some(TouchNode(id, now))
    case GetAssignments(_) | GetServices | GetJobs | GetNodes | GetState => None
    case ReportStatus(id, phase, message) =>
      if id != "" && IsAgentReportablePhase(phase) && id in s.assignments && s.assignments[id].nodeId == caller
      then Some(UpdateAssignmentStatus(id, phase, message, now)) else None
  }

  // The answer once op has found its object: what was written, where the program sends it back.
  function Written(s: State, op: Op): Answer
    requires Found(s, op)
  {
    match op
    case UpsertService(service) => StoredService(service)
    case UpsertJob(job) => StoredJob(job)
    case UpsertNode(node) => StoredNode(node)
    case UpdateAssignmentStatus(id, _, _, _) => StoredAssignment(Apply(s, op).assignments[id])
    case _ => Done
  }

  ghost function AnswerTo(s: State, caller: string, request: ApiRequest, now: int): Answer {
    match request
    case GetAssignments(id) =>
      if id == "" then NotFound
      else if id != caller then Forbidden
      else Assignments(Listing(ActiveOn(s.assignments, id), AssignmentLess))
    case ReportStatus(id, phase, _) =>
      var effect := Effect(s, caller, request, now);
      if effect.Some? then Written(s, effect.value)
      else if id != "" && !IsAgentReportablePhase(phase) then BadRequest else NotFound
    case GetServices => Services(Listing(s.services.Values, ServiceLess))
    case GetJobs => Jobs(Listing(s.jobs.Values, JobLess))
    case GetNodes => Nodes(Listing(s.nodes.Values, NodeLess))
    case GetState =>
      Snapshot(Listing(s.nodes.Values, NodeLess), Listing(s.services.Values, ServiceLess),
               Listing(s.jobs.Values, JobLess), Listing(All(s.assignments), AssignmentLess))
    case _ =>
      match Effect(s, caller, request, now)
      case Some(op) => if Found(s, op) then Written(s, op) else NotFound
      case None => if request.Register? || request.Heartbeat? then Forbidden else BadRequest
  }

  // What a report leads to.
  lemma ReportAnswer(s: State, caller: string, id: string, phase: Phase, message: string, now: int)
    ensures var request, op := ReportStatus(id, phase, message), UpdateAssignmentStatus(id, phase, message, now);
      if id != "" && IsAgentReportablePhase(phase) && id in s.assignments && s.assignments[id].nodeId == caller
      then Effect(s, caller, request, now) == Some(op) && Found(s, op) && AnswerTo(s, caller, request, now) == Written(s, op)
      else Effect(s, caller, request, now) == None
           && AnswerTo(s, caller, request, now) == if id != "" && !IsAgentReportablePhase(phase) then BadRequest else NotFound
  {
  }

  function AfterEffect(s: State, caller: string, request: ApiRequest, now: int): State {
    match Effect(s, caller, request, now)
    case Some(op) => Apply(s, op)
    case None => s
  }

  // --- The answers, field by field -----------------------------------------

  // What is stored of a posted service: all of it, but for a replica count of at least 1.
  predicate StoredAsPosted(posted: Service, stored: Service) {
    && stored.name == posted.name && stored.template == posted.template && stored.resources == posted.resources
    && stored.requiredLabels == posted.requiredLabels && stored.ports == posted.ports
    && (if posted.replicas >= 1 then stored.replicas == posted.replicas else stored.replicas == 1)
    && stored.status.desiredReplicas == stored.replicas
    && stored.status.pendingReplicas == posted.status.pendingReplicas
    && stored.status.runningReplicas == posted.status.runningReplicas
    && stored.status.assignmentIds == posted.status.assignmentIds
    && stored.status.lastReconciledUnix == posted.status.lastReconciledUnix
  }

  // A registered node: as it describes itself, heard from now.
  predicate StoredAsRegistered(posted: Node, now: int, stored: Node) {
    stored.id == posted.id && stored.labels == posted.labels && stored.capacity == posted.capacity && stored.lastHeartbeat == now
  }

  // xs holds the values of a table, each once, by increasing key.
  ghost predicate TableByKey<T(!new)>(xs: seq<T>, table: map<string, T>, keys: seq<string>) {
    && |keys| == |xs| && (forall i, j | 0 <= i < j < |keys| :: StrLess(keys[i], keys[j]))
    && (forall key :: key in keys <==> key in table)
    && (forall i | 0 <= i < |xs| :: keys[i] in table && xs[i] == table[keys[i]])
  }

  ghost predicate Tabled<T(!new)>(xs: seq<T>, table: map<string, T>) { exists keys :: TableByKey(xs, table, keys) }

  // xs holds the assignments of a node that are pending or running, oldest first.
  ghost predicate ListsWork(xs: seq<Assignment>, m: map<string, Assignment>, nodeId: string) {
    && OldestFirst(xs)
    && forall a :: a in xs <==> a.id in m && m[a.id] == a && a.nodeId == nodeId && (a.phase == Pending || a.phase == Running)
  }

  /** Serving a request may take the store from s to t with this answer: for every
      request and every reason to refuse it, what is stored and what is sent back. */
  ghost predicate Answered(s: State, t: State, caller: string, request: ApiRequest, now: int, answer: Answer) {
    match request
    case ApplyService(service) =>
      if service.name == "" || service.template.image == "" then t == s && answer == BadRequest else
        && answer.StoredService? && StoredAsPosted(service, answer.service)
        && t == s.(services := s.services[service.name := answer.service])
    case RemoveService(name) =>
      if name == "" || '/' in name then t == s && answer == BadRequest
      else if name !in s.services then t == s && answer == NotFound
      else answer == Done && t == s.(services := s.services - {name}, assignments := t.assignments)
           && LeavesOthers(s.assignments, t.assignments, ServiceKind, name)
    case ApplyJob(job) =>
      if job.name == "" || job.template.image == "" then t == s && answer == BadRequest
      else t == s.(jobs := s.jobs[job.name := job]) && answer == StoredJob(job)
    case RemoveJob(name) =>
      if name == "" || '/' in name then t == s && answer == BadRequest
      else if name !in s.jobs then t == s && answer == NotFound
      else answer == Done && t == s.(jobs := s.jobs - {name}, assignments := t.assignments)
           && LeavesOthers(s.assignments, t.assignments, JobKind, name)
    case Register(node) =>
      if node.id != caller then t == s && answer == Forbidden else
        && answer.StoredNode? && StoredAsRegistered(node, now, answer.node)
        && t == s.(nodes := s.nodes[node.id := answer.node])
    case Heartbeat(id) =>
      if id != caller then t == s && answer == Forbidden
      else if id !in s.nodes then t == s && answer == NotFound
      else answer == Done && id in t.nodes && StoredAsRegistered(s.nodes[id], now, t.nodes[id])
           && t == s.(nodes := s.nodes[id := t.nodes[id]])
    case GetAssignments(id) =>
      && t == s
      && (if id == "" then answer == NotFound
          else if id != caller then answer == Forbidden
          else answer.Assignments? && ListsWork(answer.list, s.assignments, id))
    case ReportStatus(id, phase, message) =>
      if id == "" then t == s && answer == NotFound
      else if phase == Pending || phase == Lost then t == s && answer == BadRequest
      else if id !in s.assignments || s.assignments[id].nodeId != caller then t == s && answer == NotFound
      else answer.StoredAssignment? && StatusMoved(s.assignments[id], phase, message, now, answer.assignment)
           && t == s.(assignments := s.assignments[id := answer.assignment])
    case GetServices => t == s && answer.Services? && Tabled(answer.services, s.services)
    case GetJobs => t == s && answer.Jobs? && Tabled(answer.jobs, s.jobs)
    case GetNodes => t == s && answer.Nodes? && Tabled(answer.nodes, s.nodes)
    case GetState =>
      && t == s && answer.Snapshot?
      && Tabled(answer.nodes, s.nodes) && Tabled(answer.services, s.services) && Tabled(answer.jobs, s.jobs)
      && OldestFirst(answer.assignments) && forall a :: a in answer.assignments <==> a.id in s.assignments && s.assignments[a.id] == a
  }

  lemma WorkListed(s: State, n: string)
    requires Keyed(s)
    ensures ListsWork(Listing(ActiveOn(s.assignments, n), AssignmentLess), s.assignments, n)
  {
    ApiOrders();
    AssignmentsTotal(ActiveOn(s.assignments, n));
    ListingExists(ActiveOn(s.assignments, n), AssignmentLess);
    SortedIsOldestFirst(Listing(ActiveOn(s.assignments, n), AssignmentLess));
  }

  lemma AllListed(s: State)
    requires Keyed(s)
    ensures var xs := Listing(All(s.assignments), AssignmentLess);
      OldestFirst(xs) && forall a :: a in xs <==> a.id in s.assignments && s.assignments[a.id] == a
  {
    ApiOrders();
    AssignmentsTotal(All(s.assignments));
    ListingExists(All(s.assignments), AssignmentLess);
    SortedIsOldestFirst(Listing(All(s.assignments), AssignmentLess));
  }

  // A listing in key order is the table by its keys.
  lemma ListedByKey<T(!new)>(table: map<string, T>, less: (T, T) -> bool, key: T -> string)
    requires forall k | k in table :: key(table[k]) == k
    requires forall x, y :: less(x, y) <==> StrLess(key(x), key(y))
    ensures Tabled(Listing(table.Values, less), table)
  {
    StrOrder();
    forall x ensures !less(x, x) { assert !StrLess(key(x), key(x)); }
    forall x, y, z | less(x, y) && less(y, z) ensures less(x, z) { assert StrLess(key(x), key(y)) && StrLess(key(y), key(z)); }
    forall x, y | x in table.Values && y in table.Values && x != y ensures less(x, y) || less(y, x) { StrTotal(key(x), key(y)); }
    ListingExists(table.Values, less);
    var xs := Listing(table.Values, less);
    var keys := seq(|xs|, i requires 0 <= i < |xs| => key(xs[i]));
    forall i | 0 <= i < |xs| ensures keys[i] in table && xs[i] == table[keys[i]] { assert xs[i] in xs; }
    forall k | k in table ensures k in keys {
      assert table[k] in xs;
      var i :| 0 <= i < |xs| && xs[i] == table[k];
      assert keys[i] == k;
    }
    assert TableByKey(xs, table, keys);
  }

  lemma TablesListed(s: State)
    requires Keyed(s)
    ensures Tabled(Listing(s.services.Values, ServiceLess), s.services)
    ensures Tabled(Listing(s.jobs.Values, JobLess), s.jobs)
    ensures Tabled(Listing(s.nodes.Values, NodeLess), s.nodes)
  {
    ListedByKey(s.services, ServiceLess, (x: Service) => x.name);
    ListedByKey(s.jobs, JobLess, (x: Job) => x.name);
    ListedByKey(s.nodes, NodeLess, (x: Node) => x.id);
  }

  predicate IsRead(request: ApiRequest) {
    request.GetAssignments? || request.GetServices? || request.GetJobs? || request.GetNodes? || request.GetState?
  }

  lemma ReadAnswered(s: State, caller: string, request: ApiRequest, now: int)
    requires Keyed(s) && IsRead(request)
    ensures Answered(s, s, caller, request, now, AnswerTo(s, caller, request, now))
  {
    hide Keyed, Tabled, ListsWork, OldestFirst;
    match request
    case GetAssignments(id) => WorkListed(s, id);
    case GetState => TablesListed(s); AllListed(s);
    case _ => TablesListed(s);
  }

  lemma WriteAnswered(s: State, t: State, caller: string, request: ApiRequest, now: int)
    requires !IsRead(request) && t == AfterEffect(s, caller, request, now)
    ensures Answered(s, t, caller, request, now, AnswerTo(s, caller, request, now))
  {
    hide LeavesOthers, WithoutOwner, StatusMoved, ApplyStatus, Tabled, ListsWork, OldestFirst;
    match request
    case RemoveService(name) => LeavesOthersIs(s.assignments, t.assignments, ServiceKind, name);
    case RemoveJob(name) => LeavesOthersIs(s.assignments, t.assignments, JobKind, name);
    case ReportStatus(id, phase, message) =>
      if id in s.assignments { StatusExactly(s.assignments[id], phase, message, now); }
    case _ =>
  }

  lemma AnsweredAsServed(s: State, t: State, caller: string, request: ApiRequest, now: int)
    requires Keyed(s) && t == AfterEffect(s, caller, request, now)
    ensures Answered(s, t, caller, request, now, AnswerTo(s, caller, request, now))
  {
    hide Keyed, Answered, AnswerTo;
    if IsRead(request) { ReadAnswered(s, caller, request, now); } else { WriteAnswered(s, t, caller, request, now); }
  }

  // What operators and nodes are relied on to send: no negative quantities, no
  // node that shrinks, no job with fewer retries than before, no clock that runs back.
  predicate Reasonable(s: State, request: ApiRequest, now: int) {
    match request
    case ApplyService(service) => service.resources.NonNegative()
    case ApplyJob(job) =>
      && job.retries >= 0 && job.resources.NonNegative()
      && (job.name in s.jobs ==> s.jobs[job.name].retries <= job.retries)
    case Register(node) =>
      && node.capacity.NonNegative()
      && (node.id in s.nodes ==> s.nodes[node.id].capacity.AtMost(node.capacity) && s.nodes[node.id].lastHeartbeat <= now)
    case Heartbeat(id) => id in s.nodes ==> s.nodes[id].lastHeartbeat <= now
    case _ => true
  }

  /** A reasonable request only ever leads to a guarded operation. */
  lemma EffectIsGuarded(strict: bool, w: World, caller: string, request: ApiRequest, now: int)
    requires Reasonable(w.store, request, now)
    ensures Effect(w.store, caller, request, now).Some? ==> Guarded(strict, w, Effect(w.store, caller, request, now).value)
  {
  }

  /** A report is served in two store calls: who owns the assignment, then the
      update. Whatever happens in between, even a restore, an update that was let
      through does at its own time exactly what serving the whole report then would:
      no assignment ever changes its node. */
  lemma ReportServedInTwo(s: State, v: State, born: map<string, Assignment>, born': map<string, Assignment>,
                          caller: string, id: string, phase: Phase, message: string, now: int)
    requires Remembers(born, s.assignments) && Remembers(born', v.assignments)
    requires forall i | i in born :: i in born' && born'[i] == born[i]
    requires Effect(s, caller, ReportStatus(id, phase, message), now).Some?
    ensures var op := UpdateAssignmentStatus(id, phase, message, now);
      && Apply(v, op) == (match Effect(v, caller, ReportStatus(id, phase, message), now) case Some(whole) => Apply(v, whole) case None => v)
      && AnswerTo(v, caller, ReportStatus(id, phase, message), now) == if Found(v, op) then Written(v, op) else NotFound
  {
    assert id in v.assignments ==> SameSpec(born[id], s.assignments[id]) && SameSpec(born[id], v.assignments[id]);
  }

  predicate FromNode(request: ApiRequest) {
    request.Register? || request.Heartbeat? || request.GetAssignments? || request.ReportStatus?
  }

  /** A node acts only as itself: what it sends changes nothing but its own node
      entry and the status of assignments placed on it, and never a placement. */
  lemma NodeActsAsItself(s: State, caller: string, request: ApiRequest, now: int, op: Op)
    requires FromNode(request) && Effect(s, caller, request, now) == Some(op)
    ensures var t := Apply(s, op);
      && t.services == s.services && t.jobs == s.jobs
      && t.nodes.Keys - {caller} == s.nodes.Keys - {caller} && t.assignments.Keys == s.assignments.Keys
      && (forall n | n in s.nodes && n != caller :: t.nodes[n] == s.nodes[n])
      && (forall id | id in s.assignments :: t.assignments[id] == s.assignments[id]
            || (s.assignments[id].nodeId == caller && Evolves(s.assignments[id], t.assignments[id])
                && t.assignments[id].phase != Pending && t.assignments[id].phase != Lost))
  {
    hide Evolves, ApplyStatus;
    if request.ReportStatus? { ReportActs(s, request.id, request.phase, request.message, now); }
  }

  lemma ReportActs(s: State, id: string, phase: Phase, message: string, now: int)
    requires id in s.assignments && IsAgentReportablePhase(phase)
    ensures var m, m' := s.assignments, Apply(s, UpdateAssignmentStatus(id, phase, message, now)).assignments;
      && m'.Keys == m.Keys && (forall i | i in m && i != id :: m'[i] == m[i])
      && (m'[id] == m[id] || (Evolves(m[id], m'[id]) && m'[id].phase != Pending && m'[id].phase != Lost))
  {
  }

  class HTTPServer {
    const store: MemoryStore

    constructor (store: MemoryStore)
      ensures this.store == store
    {
      this.store := store;
    }

    // What a handler promises: its answer, and its effect or none.
    twostate predicate Served(caller: string, request: ApiRequest, now: int, answer: Answer)
      reads store
    {
      && answer == AnswerTo(old(store.Contents()), caller, request, now)
      && match Effect(old(store.Contents()), caller, request, now)
         case Some(op) => store.Did(op)
         case None => unchanged(store)
    }

    method Handle(caller: string, request: ApiRequest, now: int) returns (answer: Answer)
      requires store.Valid()
      modifies store
      ensures Served(caller, request, now, answer)
      ensures Answered(old(store.Contents()), store.Contents(), caller, request, now, answer)
    {
      AnsweredAsServed(store.Contents(), AfterEffect(store.Contents(), caller, request, now), caller, request, now);
      match request
      case ApplyService(service) => answer := HandleServicePost(caller, service, now);
      case RemoveService(name) => answer := HandleServiceDelete(caller, name, now);
      case ApplyJob(job) => answer := HandleJobPost(caller, job, now);
      case RemoveJob(name) => answer := HandleJobDelete(caller, name, now);
      case Register(node) => answer := HandleNodeRegister(caller, node, now);
      case Heartbeat(id) => answer := HandleNodeHeartbeat(caller, id, now);
      case GetAssignments(id) => answer := HandleNodeAssignments(caller, id, now);
      case ReportStatus(id, phase, message) => answer := HandleAssignmentStatus(caller, id, phase, message, now);
      case GetServices => var services := store.ListServices(); answer := Services(services);
      case GetJobs => var jobs := store.ListJobs(); answer := Jobs(jobs);
      case GetNodes => var nodes := store.ListNodes(); answer := Nodes(nodes);
      case GetState => answer := HandleState(caller, now);
    }

    method HandleState(caller: string, now: int) returns (answer: Answer)
      requires store.Valid()
      ensures Served(caller, GetState, now, answer)
    {
      var nodes := store.ListNodes();
      var services := store.ListServices();
      var jobs := store.ListJobs();
      var list := store.ListAssignments();
      answer := Snapshot(nodes, services, jobs, list);
    }

    method HandleServicePost(caller: string, service: Service, now: int) returns (answer: Answer)
      requires store.Valid()
      modifies store
      ensures Served(caller, ApplyService(service), now, answer)
    {
      if service.name == "" || service.template.image == "" { return BadRequest; }
      store.UpsertService(Normalized(service));
      answer := StoredService(Normalized(service));
    }

    method HandleServiceDelete(caller: string, name: string, now: int) returns (answer: Answer)
      requires store.Valid()
      modifies store
      ensures Served(caller, RemoveService(name), now, answer)
    {
      if name == "" || '/' in name { return BadRequest; }
      var found := store.DeleteService(name);
      answer := if found then Done else NotFound;
    }

    method HandleJobPost(caller: string, job: Job, now: int) returns (answer: Answer)
      requires store.Valid()
      modifies store
      ensures Served(caller, ApplyJob(job), now, answer)
    {
      if job.name == "" || job.template.image == "" { return BadRequest; }
      store.UpsertJob(job);
      answer := StoredJob(job);
    }

    method HandleJobDelete(caller: string, name: string, now: int) returns (answer: Answer)
      requires store.Valid()
      modifies store
      ensures Served(caller, RemoveJob(name), now, answer)
    {
      if name == "" || '/' in name { return BadRequest; }
      var found := store.DeleteJob(name);
      answer := if found then Done else NotFound;
    }

    method HandleNodeRegister(caller: string, node: Node, now: int) returns (answer: Answer)
      requires store.Valid()
      modifies store
      ensures Served(caller, Register(node), now, answer)
    {
      if node.id != caller { return Forbidden; }
      store.UpsertNode(node.(lastHeartbeat := now));
      answer := StoredNode(node.(lastHeartbeat := now));
    }

    method HandleNodeHeartbeat(caller: string, id: string, now: int) returns (answer: Answer)
      requires store.Valid()
      modifies store
      ensures Served(caller, Heartbeat(id), now, answer)
    {
      if id != caller { return Forbidden; }
      var found := store.TouchNode(id, now);
      answer := if found then Done else NotFound;
    }

    method HandleNodeAssignments(caller: string, id: string, now: int) returns (answer: Answer)
      requires store.Valid()
      ensures Served(caller, GetAssignments(id), now, answer)
    {
      if id == "" { return NotFound; }
      if id != caller { return Forbidden; }
      var list := ActiveAssignments(id);
      answer := Assignments(list);
    }

    method HandleAssignmentStatus(caller: string, id: string, phase: Phase, message: string, now: int)
      returns (answer: Answer)
      requires store.Valid()
      modifies store
      ensures Served(caller, ReportStatus(id, phase, message), now, answer)
    {
      hide AnswerTo, Effect;
      ReportAnswer(store.Contents(), caller, id, phase, message, now);
      if id == "" { return NotFound; }
      if !IsAgentReportablePhase(phase) { return BadRequest; }
      var owns := OwnsAssignment(caller, id);
      if !owns { return NotFound; }
      var updated := store.UpdateAssignmentStatus(id, phase, message, now);
      answer := if updated.Some? then StoredAssignment(updated.value) else NotFound;
    }

    // The list handed to a node's agent: only active assignments.
    method ActiveAssignments(nodeId: string) returns (active: seq<Assignment>)
      requires store.Valid()
      ensures active == Listing(ActiveOn(store.assignments, nodeId), AssignmentLess)
    {
      hide Filter, Listing, OldestFirst, Keyed;
      ApiOrders();
      var assignments := store.ListNodeAssignments(nodeId);
      var p := (a: Assignment) => a.Active();
      active := [];
      FilterNone(assignments, p);
      for i := 0 to |assignments|
        invariant active == Filter(assignments[..i], p)
      {
        FilterStep(assignments, i, p);
        if IsActivePhase(assignments[i].phase) {
          active := active + [assignments[i]];
        }
      }
      assert assignments[..|assignments|] == assignments;
      FilterLists(assignments, OnNode(store.assignments, nodeId), p, ActiveOn(store.assignments, nodeId), AssignmentLess);
    }

    method OwnsAssignment(nodeId: string, assignmentId: string) returns (owns: bool)
      requires store.Valid()
      ensures owns <==> assignmentId in store.assignments && store.assignments[assignmentId].nodeId == nodeId
    {
      var assignments := store.ListNodeAssignments(nodeId);
      assert assignmentId in store.assignments && store.assignments[assignmentId].nodeId == nodeId
             ==> store.assignments[assignmentId] in OnNode(store.assignments, nodeId);
      for i := 0 to |assignments|
        invariant forall a | a in assignments[..i] :: a.id != assignmentId
      {
        assert assignments[i] in assignments;
        if assignments[i].id == assignmentId { return true; }
      }
      return false;
    }
  }
}
