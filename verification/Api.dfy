/** The entities exchanged between controller, scheduler, store and agents. */
module Api {
  import opened Order

  datatype WorkloadKind = ServiceKind | JobKind

  datatype Phase = Pending | Running | Succeeded | Failed | Stopped | Lost

  predicate IsTerminalPhase(phase: Phase) {
    match phase
    case Succeeded | Failed | Stopped | Lost => true
    case _ => false
  }

  predicate IsActivePhase(phase: Phase) {
    phase == Pending || phase == Running
  }

  datatype Resources = Resources(cpu: int, memory: int) {
    function Plus(other: Resources): Resources { Resources(cpu + other.cpu, memory + other.memory) }
    predicate AtMost(other: Resources) { cpu <= other.cpu && memory <= other.memory }
    predicate NonNegative() { 0 <= cpu && 0 <= memory }
  }

  datatype Volume = Volume(name: string, hostPath: string, mountPath: string)

  // What to run: the part of a specification that is only carried along.
  datatype Template = Template(image: string, command: seq<string>, env: map<string, string>, volumes: seq<Volume>)

  // Times are nanoseconds since the Unix epoch.
  datatype Node = Node(id: string, labels: map<string, string>, capacity: Resources, lastHeartbeat: int)

  datatype ServiceStatus = ServiceStatus(desiredReplicas: int, pendingReplicas: int, runningReplicas: int,
                                         assignmentIds: seq<string>, lastReconciledUnix: int)

  datatype Service = Service(name: string, template: Template, replicas: int, resources: Resources,
                             requiredLabels: map<string, string>, ports: seq<int>, status: ServiceStatus)

  datatype JobStatus = JobStatus(activeAssignmentId: string, lastAssignmentId: string, succeeded: bool,
                                 failedAttempts: int, lastFailure: string, completedAt: Option<int>)

  datatype Job = Job(name: string, template: Template, resources: Resources, requiredLabels: map<string, string>,
                     retries: int, status: JobStatus)

  datatype Assignment = Assignment(id: string, ownerKind: WorkloadKind, ownerName: string, nodeId: string,
                                   template: Template, resources: Resources, ports: seq<int>, attempt: int,
                                   phase: Phase, message: string, createdAt: int,
                                   startedAt: Option<int>, finishedAt: Option<int>)
  {
    predicate Active() { IsActivePhase(phase) }
    predicate OwnedBy(kind: WorkloadKind, name: string) { ownerKind == kind && ownerName == name }
  }

  predicate NodeLess(a: Node, b: Node) { StrLess(a.id, b.id) }
  predicate ServiceLess(a: Service, b: Service) { StrLess(a.name, b.name) }
  predicate JobLess(a: Job, b: Job) { StrLess(a.name, b.name) }

  // Creation time, then ID: the order of every assignment list.
  predicate AssignmentLess(a: Assignment, b: Assignment) {
    if a.createdAt == b.createdAt then StrLess(a.id, b.id) else a.createdAt < b.createdAt
  }

  // The order lists are promised in, on the fields themselves.
  ghost predicate OldestFirst(xs: seq<Assignment>) {
    forall i, j | 0 <= i < j < |xs| ::
      xs[i].createdAt < xs[j].createdAt || (xs[i].createdAt == xs[j].createdAt && StrLess(xs[i].id, xs[j].id))
  }

  lemma SortedIsOldestFirst(xs: seq<Assignment>)
    ensures SortedBy(xs, AssignmentLess) <==> OldestFirst(xs)
  {
    if OldestFirst(xs) {
      forall i, j | 0 <= i < j < |xs| ensures AssignmentLess(xs[i], xs[j]) {
        assert xs[i].createdAt < xs[j].createdAt || (xs[i].createdAt == xs[j].createdAt && StrLess(xs[i].id, xs[j].id));
      }
    }
  }

  lemma ApiOrders()
    ensures StrictOrder(NodeLess) && StrictOrder(ServiceLess) && StrictOrder(JobLess) && StrictOrder(AssignmentLess)
  {
    StrOrder();
  }

  /** Assignments with different IDs are comparable, whatever else they hold. */
  lemma AssignmentsTotal(s: set<Assignment>)
    requires forall a, b | a in s && b in s && a != b :: a.id != b.id
    ensures TotalOn(s, AssignmentLess)
  {
    forall a, b | a in s && b in s && a != b ensures AssignmentLess(a, b) || AssignmentLess(b, a) {
      StrTotal(a.id, b.id);
    }
  }
}
