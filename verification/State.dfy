/** The value a store holds, its operations and its queries. The in-memory store
    follows these directly; the SQL store is shown to behave the same. */
module StoreState {
  import opened Order
  import opened Api

  datatype State = State(nodes: map<string, Node>, services: map<string, Service>,
                         jobs: map<string, Job>, assignments: map<string, Assignment>)

  const EMPTY := State(map[], map[], map[], map[])

  datatype Op =
    | UpsertNode(node: Node)
    | TouchNode(nodeId: string, now: int)
    | UpsertService(service: Service)
    | UpdateServiceStatus(name: string, serviceStatus: ServiceStatus)
    | DeleteService(name: string)
    | UpsertJob(job: Job)
    | UpdateJobStatus(name: string, jobStatus: JobStatus)
    | DeleteJob(name: string)
    | SaveAssignment(assignment: Assignment)
    | DeleteAssignment(id: string)
    | UpdateAssignmentStatus(id: string, phase: Phase, message: string, now: int)

  // Every object is stored under its own key.
  ghost predicate Keyed(s: State) {
    && (forall id | id in s.nodes :: s.nodes[id].id == id)
    && (forall name | name in s.services :: s.services[name].name == name)
    && (forall name | name in s.jobs :: s.jobs[name].name == name)
    && (forall id | id in s.assignments :: s.assignments[id].id == id)
  }

  // Moves an assignment to phase, unless it has already finished.
  function ApplyStatus(a: Assignment, phase: Phase, message: string, now: int): Assignment {
    if IsTerminalPhase(a.phase) then a
    else a.(phase := phase,
            message := message,
            startedAt := if phase == Running && a.startedAt.None? then Some(now) else a.startedAt,
            finishedAt := if IsTerminalPhase(phase) then Some(now) else a.finishedAt)
  }

  function WithoutOwner(m: map<string, Assignment>, kind: WorkloadKind, name: string): map<string, Assignment> {
    map id | id in m && !m[id].OwnedBy(kind, name) :: m[id]
  }

  function Apply(s: State, op: Op): State {
    match op
    case UpsertNode(node) => s.(nodes := s.nodes[node.id := node])
    case TouchNode(id, now) =>
      if id in s.nodes then s.(nodes := s.nodes[id := s.nodes[id].(lastHeartbeat := now)]) else s
    case UpsertService(service) => s.(services := s.services[service.name := service])
    case UpdateServiceStatus(name, status) =>
      if name in s.services then s.(services := s.services[name := s.services[name].(status := status)]) else s
    case DeleteService(name) =>
      if name in s.services
      then s.(services := s.services - {name}, assignments := WithoutOwner(s.assignments, ServiceKind, name)) else s
    case UpsertJob(job) => s.(jobs := s.jobs[job.name := job])
    case UpdateJobStatus(name, status) =>
      if name in s.jobs then s.(jobs := s.jobs[name := s.jobs[name].(status := status)]) else s
    case DeleteJob(name) =>
      if name in s.jobs
      then s.(jobs := s.jobs - {name}, assignments := WithoutOwner(s.assignments, JobKind, name)) else s
    case SaveAssignment(a) => s.(assignments := s.assignments[a.id := a])
    case DeleteAssignment(id) => s.(assignments := s.assignments - {id})
    case UpdateAssignmentStatus(id, phase, message, now) =>
      if id in s.assignments
      then s.(assignments := s.assignments[id := ApplyStatus(s.assignments[id], phase, message, now)]) else s
  }

  // Whether the operation reports that its object was there (the bool results).
  predicate Found(s: State, op: Op) {
    match op
    case TouchNode(id, _) => id in s.nodes
    case UpdateServiceStatus(name, _) => name in s.services
    case DeleteService(name) => name in s.services
    case UpdateJobStatus(name, _) => name in s.jobs
    case DeleteJob(name) => name in s.jobs
    case DeleteAssignment(id) => id in s.assignments
    case UpdateAssignmentStatus(id, _, _, _) => id in s.assignments
    case _ => true
  }

  function All(m: map<string, Assignment>): set<Assignment> {
    set id | id in m :: m[id]
  }

  function OnNode(m: map<string, Assignment>, nodeId: string): set<Assignment> {
    set id | id in m && m[id].nodeId == nodeId :: m[id]
  }

  function Owned(m: map<string, Assignment>, kind: WorkloadKind, name: string): set<Assignment> {
    set id | id in m && m[id].OwnedBy(kind, name) :: m[id]
  }

  // An assignment and its later self differ at most in phase, message and times.
  predicate SameSpec(a: Assignment, b: Assignment) {
    b == a.(phase := b.phase, message := b.message, startedAt := b.startedAt, finishedAt := b.finishedAt)
  }

  // b is a later version of a: the specification is fixed, a finished
  // assignment is frozen, and the first start time is kept.
  predicate Evolves(a: Assignment, b: Assignment) {
    && SameSpec(a, b)
    && (IsTerminalPhase(a.phase) ==> b == a)
    && (a.startedAt.Some? ==> b.startedAt == a.startedAt)
  }

  // Start and finish times say what the phase says.
  predicate TimesMatchPhase(a: Assignment) {
    && (a.finishedAt.Some? <==> IsTerminalPhase(a.phase))
    && (a.phase == Running ==> a.startedAt.Some?)
    && (a.phase == Pending ==> a.startedAt.None?)
  }

  // --- The operations, field by field --------------------------------------

  // b is a after a status update: a finished assignment is as it was; any other
  // takes phase and message, its start the first time it is Running, its finish
  // when it finishes, and nothing else.
  predicate StatusMoved(a: Assignment, phase: Phase, message: string, now: int, b: Assignment) {
    if a.phase == Pending || a.phase == Running then
      && b.phase == phase && b.message == message
      && (if phase == Running && a.startedAt == None then b.startedAt == Some(now) else b.startedAt == a.startedAt)
      && (if phase == Pending || phase == Running then b.finishedAt == a.finishedAt else b.finishedAt == Some(now))
      && b.id == a.id && b.ownerKind == a.ownerKind && b.ownerName == a.ownerName && b.nodeId == a.nodeId
      && b.template == a.template && b.resources == a.resources && b.ports == a.ports
      && b.attempt == a.attempt && b.createdAt == a.createdAt
    else b == a
  }

  // m' is m without the assignments of one owner.
  ghost predicate LeavesOthers(m: map<string, Assignment>, m': map<string, Assignment>, kind: WorkloadKind, name: string) {
    && (forall id :: id in m' <==> id in m && !(m[id].ownerKind == kind && m[id].ownerName == name))
    && forall id | id in m' :: m'[id] == m[id]
  }

  // m' differs from m at key at most.
  ghost predicate SameBut<T>(m: map<string, T>, m': map<string, T>, key: string) {
    forall k | k != key :: (k in m' <==> k in m) && (k in m ==> m'[k] == m[k])
  }

  // The operation may take s to t: what it changes, and that it changes nothing else.
  ghost predicate Does(s: State, op: Op, t: State) {
    match op
    case UpsertNode(node) =>
      SameBut(s.nodes, t.nodes, node.id) && node.id in t.nodes && t.nodes[node.id] == node && t == s.(nodes := t.nodes)
    case TouchNode(id, now) =>
      && SameBut(s.nodes, t.nodes, id) && (id in t.nodes <==> id in s.nodes) && t == s.(nodes := t.nodes)
      && (id in t.nodes ==> && t.nodes[id].lastHeartbeat == now && t.nodes[id].id == s.nodes[id].id
                            && t.nodes[id].labels == s.nodes[id].labels && t.nodes[id].capacity == s.nodes[id].capacity)
    case UpsertService(service) =>
      && SameBut(s.services, t.services, service.name) && service.name in t.services
      && t.services[service.name] == service && t == s.(services := t.services)
    case UpdateServiceStatus(name, status) =>
      && SameBut(s.services, t.services, name) && (name in t.services <==> name in s.services) && t == s.(services := t.services)
      && (name in t.services ==> t.services[name].status == status && SameServiceSpec(s.services[name], t.services[name]))
    case DeleteService(name) =>
      if name !in s.services then t == s else
        && SameBut(s.services, t.services, name) && name !in t.services && t.nodes == s.nodes && t.jobs == s.jobs
        && LeavesOthers(s.assignments, t.assignments, ServiceKind, name)
    case UpsertJob(job) =>
      SameBut(s.jobs, t.jobs, job.name) && job.name in t.jobs && t.jobs[job.name] == job && t == s.(jobs := t.jobs)
    case UpdateJobStatus(name, status) =>
      && SameBut(s.jobs, t.jobs, name) && (name in t.jobs <==> name in s.jobs) && t == s.(jobs := t.jobs)
      && (name in t.jobs ==> t.jobs[name].status == status && SameJobSpec(s.jobs[name], t.jobs[name]))
    case DeleteJob(name) =>
      if name !in s.jobs then t == s else
        && SameBut(s.jobs, t.jobs, name) && name !in t.jobs && t.nodes == s.nodes && t.services == s.services
        && LeavesOthers(s.assignments, t.assignments, JobKind, name)
    case SaveAssignment(a) =>
      && SameBut(s.assignments, t.assignments, a.id) && a.id in t.assignments && t.assignments[a.id] == a
      && t == s.(assignments := t.assignments)
    case DeleteAssignment(id) =>
      SameBut(s.assignments, t.assignments, id) && id !in t.assignments && t == s.(assignments := t.assignments)
    case UpdateAssignmentStatus(id, phase, message, now) =>
      && SameBut(s.assignments, t.assignments, id) && (id in t.assignments <==> id in s.assignments)
      && (id in t.assignments ==> StatusMoved(s.assignments[id], phase, message, now, t.assignments[id]))
      && t == s.(assignments := t.assignments)
  }

  // Everything of a service or a job but its status.
  predicate SameServiceSpec(a: Service, b: Service) {
    && b.name == a.name && b.template == a.template && b.replicas == a.replicas && b.resources == a.resources
    && b.requiredLabels == a.requiredLabels && b.ports == a.ports
  }

  predicate SameJobSpec(a: Job, b: Job) {
    && b.name == a.name && b.template == a.template && b.resources == a.resources
    && b.requiredLabels == a.requiredLabels && b.retries == a.retries
  }

  lemma SameButIs<T>(m: map<string, T>, m': map<string, T>, key: string)
    ensures SameBut(m, m', key) <==> m' == if key in m' then m[key := m'[key]] else m - {key}
  {
  }

  lemma LeavesOthersIs(m: map<string, Assignment>, m': map<string, Assignment>, kind: WorkloadKind, name: string)
    ensures LeavesOthers(m, m', kind, name) <==> m' == WithoutOwner(m, kind, name)
  {
  }

  lemma NodeOpDoes(s: State, op: Op, t: State)
    requires op.UpsertNode? || op.TouchNode?
    ensures Does(s, op, t) <==> t == Apply(s, op)
  {
    hide StatusMoved, ApplyStatus, SameBut, LeavesOthers, WithoutOwner;
    match op
    case UpsertNode(node) => SameButIs(s.nodes, t.nodes, node.id);
    case TouchNode(id, _) => SameButIs(s.nodes, t.nodes, id);
  }

  lemma ServiceOpDoes(s: State, op: Op, t: State)
    requires op.UpsertService? || op.UpdateServiceStatus? || op.DeleteService?
    ensures Does(s, op, t) <==> t == Apply(s, op)
  {
    hide StatusMoved, ApplyStatus, SameBut, LeavesOthers, WithoutOwner;
    match op
    case UpsertService(service) => SameButIs(s.services, t.services, service.name);
    case UpdateServiceStatus(name, _) => SameButIs(s.services, t.services, name);
    case DeleteService(name) =>
      SameButIs(s.services, t.services, name);
      LeavesOthersIs(s.assignments, t.assignments, ServiceKind, name);
  }

  lemma JobOpDoes(s: State, op: Op, t: State)
    requires op.UpsertJob? || op.UpdateJobStatus? || op.DeleteJob?
    ensures Does(s, op, t) <==> t == Apply(s, op)
  {
    hide StatusMoved, ApplyStatus, SameBut, LeavesOthers, WithoutOwner;
    match op
    case UpsertJob(job) => SameButIs(s.jobs, t.jobs, job.name);
    case UpdateJobStatus(name, _) => SameButIs(s.jobs, t.jobs, name);
    case DeleteJob(name) =>
      SameButIs(s.jobs, t.jobs, name);
      LeavesOthersIs(s.assignments, t.assignments, JobKind, name);
  }

  lemma AssignmentOpDoes(s: State, op: Op, t: State)
    requires op.SaveAssignment? || op.DeleteAssignment? || op.UpdateAssignmentStatus?
    ensures Does(s, op, t) <==> t == Apply(s, op)
  {
    hide StatusMoved, ApplyStatus, SameBut, LeavesOthers, WithoutOwner;
    match op
    case SaveAssignment(a) => SameButIs(s.assignments, t.assignments, a.id);
    case DeleteAssignment(id) => SameButIs(s.assignments, t.assignments, id);
    case UpdateAssignmentStatus(id, phase, message, now) =>
      SameButIs(s.assignments, t.assignments, id);
      if id in s.assignments { StatusExactly(s.assignments[id], phase, message, now); }
  }

  /** What each operation does to a store, on the fields alone; nothing else fits. */
  lemma ApplyDoes(s: State, op: Op, t: State)
    ensures Does(s, op, t) <==> t == Apply(s, op)
  {
    hide Does, Apply;
    match op
    case UpsertNode(_) | TouchNode(_, _) => NodeOpDoes(s, op, t);
    case UpsertService(_) | UpdateServiceStatus(_, _) | DeleteService(_) => ServiceOpDoes(s, op, t);
    case UpsertJob(_) | UpdateJobStatus(_, _) | DeleteJob(_) => JobOpDoes(s, op, t);
    case SaveAssignment(_) | DeleteAssignment(_) | UpdateAssignmentStatus(_, _, _, _) => AssignmentOpDoes(s, op, t);
  }

  /** Which result a status update has, on the fields alone; no other result fits. */
  lemma StatusExactly(a: Assignment, phase: Phase, message: string, now: int)
    ensures forall b :: StatusMoved(a, phase, message, now, b) <==> b == ApplyStatus(a, phase, message, now)
  {
  }
}
