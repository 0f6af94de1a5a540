/** What a reconcile achieves, stated without retracing its steps. */
module Outcomes {
  import opened Order
  import opened Api
  import opened Load
  import opened StoreState
  import opened Discipline
  import opened Scheduling
  import opened Reconciling

  // m and m' agree on everything the owner does not own.
  ghost predicate OthersKept(m: map<string, Assignment>, m': map<string, Assignment>, kind: WorkloadKind, name: string) {
    forall id | (id in m && !m[id].OwnedBy(kind, name)) || (id in m' && !m'[id].OwnedBy(kind, name)) ::
      id in m && id in m' && m[id] == m'[id]
  }

  ghost predicate AddsOnly(m: map<string, Assignment>, m': map<string, Assignment>) {
    forall id | id in m :: id in m' && m'[id] == m[id]
  }

  // s and t differ in assignments and statuses only.
  ghost predicate SameSpecs(s: State, t: State) {
    && t.nodes == s.nodes
    && t.services.Keys == s.services.Keys && t.jobs.Keys == s.jobs.Keys
    && (forall n | n in s.services :: t.services[n] == s.services[n].(status := t.services[n].status))
    && (forall n | n in s.jobs :: t.jobs[n] == s.jobs[n].(status := t.jobs[n].status))
  }

  // --- Scaling up ----------------------------------------------------------

  // What every replica added by this tick looks like.
  ghost predicate IsNewReplica(ctx: Ctx, service: Service, s: State, a: Assignment) {
    && a == NewReplica(service, a.id, a.nodeId, ctx.now)
    && Live(ctx, s.nodes, a.nodeId)
  }

  lemma {:induction false} ScaleUpAdds(ctx: Ctx, service: Service, s: State, ps: seq<Placement>)
    requires Greedy(ctx, service, s, ps)
    ensures var t := AddReplicas(ctx, service, s, ps);
      && t == s.(assignments := t.assignments)
      && AddsOnly(s.assignments, t.assignments)
      && (forall id | id in t.assignments && id !in s.assignments ::
            t.assignments[id].id == id && IsNewReplica(ctx, service, s, t.assignments[id]))
  {
    if ps != [] {
      var k := |ps| - 1;
      ScaleUpAdds(ctx, service, s, ps[..k]);
      var before := AddReplicas(ctx, service, s, ps[..k]);
      assert MayHost(ctx, before, ServiceRequest(service), ps[k].nodeId);
    }
  }

  lemma {:induction false} ScaleUpCounts(ctx: Ctx, service: Service, s: State, ps: seq<Placement>)
    requires Greedy(ctx, service, s, ps)
    ensures var t := AddReplicas(ctx, service, s, ps);
      && |Replicas(ctx, t, service.name)| == |Replicas(ctx, s, service.name)| + |ps|
      && (ps != [] ==> |Replicas(ctx, t, service.name)| <= service.replicas)
  {
    if ps != [] {
      var k := |ps| - 1;
      ScaleUpCounts(ctx, service, s, ps[..k]);
      ScaleUpAdds(ctx, service, s, ps[..k]);
      var before := AddReplicas(ctx, service, s, ps[..k]);
      OneMoreReplica(ctx, service, before, ps[k]);
    }
  }

  lemma OneMoreReplica(ctx: Ctx, service: Service, s: State, p: Placement)
    requires p.id !in s.assignments && IsPick(ctx, s, ServiceRequest(service), p.nodeId)
    ensures var t := AddReplica(ctx, service, s, p);
      Replicas(ctx, t, service.name) == Replicas(ctx, s, service.name) + {p.id} && p.id !in Replicas(ctx, s, service.name)
  {
    assert MayHost(ctx, s, ServiceRequest(service), p.nodeId);
  }

  // --- One service ---------------------------------------------------------

  lemma ScaleDownLeaves(ctx: Ctx, s: State, name: string, victims: set<string>)
    requires victims <= Replicas(ctx, s, name)
    ensures var kept := s.(assignments := s.assignments - victims);
      && Replicas(ctx, kept, name) == Replicas(ctx, s, name) - victims
      && |Replicas(ctx, kept, name)| == |Replicas(ctx, s, name)| - |victims|
  {
    assert Replicas(ctx, s, name) == (Replicas(ctx, s, name) - victims) + victims;
  }

  lemma VictimsAreOwn(ctx: Ctx, s: State, name: string, victims: set<string>)
    requires victims <= Replicas(ctx, s, name)
    ensures OthersKept(s.assignments, s.assignments - victims, ServiceKind, name)
  {
  }

  // What depends only on nodes and assignments.
  lemma SameTables(ctx: Ctx, s: State, t: State)
    requires t.nodes == s.nodes && t.assignments == s.assignments
    ensures forall name :: Replicas(ctx, t, name) == Replicas(ctx, s, name)
    ensures forall request :: NoHost(ctx, t, request) <==> NoHost(ctx, s, request)
    ensures forall service :: ServiceStatusOf(ctx, t, service) == ServiceStatusOf(ctx, s, service)
    ensures forall name :: RunsOf(t, name) == RunsOf(s, name)
    ensures forall job :: JobSettled(ctx, t, job) <==> JobSettled(ctx, s, job)
  {
    forall request ensures NoHost(ctx, t, request) <==> NoHost(ctx, s, request) {
      assert forall n :: MayHost(ctx, t, request, n) <==> MayHost(ctx, s, request, n);
    }
    forall service ensures ServiceStatusOf(ctx, t, service) == ServiceStatusOf(ctx, s, service) {
      var ids := Replicas(ctx, s, service.name);
      assert InPhase(t, ids, Pending) == InPhase(s, ids, Pending) && InPhase(t, ids, Running) == InPhase(s, ids, Running);
    }
  }

  // What the assignments are after a service's run, before its status is written.
  ghost predicate ServiceSettled(ctx: Ctx, service: Service, s: State, full: State) {
    && full == s.(assignments := full.assignments)
    && (|Replicas(ctx, full, service.name)| == service.replicas
        || (|Replicas(ctx, full, service.name)| < service.replicas && NoHost(ctx, full, ServiceRequest(service))))
    && OthersKept(s.assignments, full.assignments, ServiceKind, service.name)
    && (forall id | id in full.assignments ::
          if id in s.assignments then full.assignments[id] == s.assignments[id]
          else full.assignments[id].id == id && IsNewReplica(ctx, service, s, full.assignments[id]))
    && (|Replicas(ctx, s, service.name)| <= service.replicas ==> AddsOnly(s.assignments, full.assignments))
  }

  lemma ServiceSteps(ctx: Ctx, service: Service, s: State, t: State) returns (full: State)
    requires ServiceRun(ctx, service, s, t)
    ensures ServiceSettled(ctx, service, s, full)
    ensures t == Apply(full, UpdateServiceStatus(service.name, ServiceStatusOf(ctx, full, service)))
  {
    var victims, ps :| ServiceRunBy(ctx, service, s, t, victims, ps);
    full := AddReplicas(ctx, service, s.(assignments := s.assignments - victims), ps);
    SettledBy(ctx, service, s, t, victims, ps);
  }

  lemma SettledBy(ctx: Ctx, service: Service, s: State, t: State, victims: set<string>, ps: seq<Placement>)
    requires ServiceRunBy(ctx, service, s, t, victims, ps)
    ensures ServiceSettled(ctx, service, s, AddReplicas(ctx, service, s.(assignments := s.assignments - victims), ps))
  {
    var kept := s.(assignments := s.assignments - victims);
    assert victims == {} ==> kept == s;
    ScaleDownLeaves(ctx, s, service.name, victims);
    VictimsAreOwn(ctx, s, service.name, victims);
    ScaleUpAdds(ctx, service, kept, ps);
    ScaleUpCounts(ctx, service, kept, ps);
  }

  lemma StatusWritten(s: State, t: State, name: string, status: ServiceStatus)
    requires t == Apply(s, UpdateServiceStatus(name, status))
    ensures SameSpecs(s, t) && t.assignments == s.assignments && t.jobs == s.jobs
    ensures forall n | n in s.services && n != name :: t.services[n] == s.services[n]
    ensures name in s.services ==> t.services[name].status == status
  {
  }

  /** An uninterrupted reconcile of a service ends with exactly the wanted
      number of replicas on live nodes, or with fewer and no node that could
      take one more. It touches no other owner's assignments, and the status it
      writes is the status of what it leaves. */
  lemma ServiceOutcome(ctx: Ctx, service: Service, s: State, t: State)
    requires ServiceRun(ctx, service, s, t)
    ensures ServiceSettled(ctx, service, s, t.(services := s.services))
    ensures SameSpecs(s, t) && t.jobs == s.jobs
    ensures forall n | n in s.services && n != service.name :: t.services[n] == s.services[n]
    ensures service.name in s.services ==> t.services[service.name].status == ServiceStatusOf(ctx, t, service)
  {
    var full := ServiceSteps(ctx, service, s, t);
    StatusWritten(full, t, service.name, ServiceStatusOf(ctx, full, service));
    SameTables(ctx, full, t);
    assert t.(services := s.services) == full;
  }

  /** The status a service carries lists its replicas, sorted, and counts each once. */
  lemma StatusIsExact(ctx: Ctx, s: State, service: Service)
    ensures var status := ServiceStatusOf(ctx, s, service); var ids := Replicas(ctx, s, service.name);
      && IsListing(status.assignmentIds, ids, StrLess)
      && |status.assignmentIds| == |ids| == status.pendingReplicas + status.runningReplicas
  {
    var ids := Replicas(ctx, s, service.name);
    StrOrder();
    assert TotalOn(ids, StrLess);
    ListingExists(ids, StrLess);
    ListingDistinct(Listing(ids, StrLess), ids, StrLess);
    assert InPhase(s, ids, Pending) + InPhase(s, ids, Running) == ids;
    assert InPhase(s, ids, Pending) !! InPhase(s, ids, Running);
  }

  /** Victims are the right ones: no replica that is kept would have been
      removed before one that goes, so no Running replica goes while a Pending one
      stays, and among equals the oldest stay. */
  lemma VictimsAreRight(m: map<string, Assignment>, group: set<string>, victims: set<string>, count: int, v: string, k: string)
    requires AreVictims(m, group, victims, count) && v in victims && k in group - victims
    requires forall id | id in group :: id in m && m[id].Active()
    ensures m[v].phase == Running ==> m[k].phase == Running
    ensures m[v].phase == m[k].phase ==> m[k].createdAt <= m[v].createdAt
    ensures m[v].phase == m[k].phase && m[k].createdAt == m[v].createdAt ==> StrLess(m[k].id, m[v].id)
  {
  }

  // --- One job -------------------------------------------------------------

  lemma RunsListed(s: State, name: string)
    requires Keyed(s)
    ensures IsListing(RunsOf(s, name), Owned(s.assignments, JobKind, name), AssignmentLess)
  {
    ApiOrders();
    AssignmentsTotal(Owned(s.assignments, JobKind, name));
    ListingExists(Owned(s.assignments, JobKind, name), AssignmentLess);
  }

  // The failures in list order are fixed by the set of failed runs.
  lemma FailuresListed(s: State, name: string)
    requires Keyed(s)
    ensures Failures(RunsOf(s, name)) == Listing(set id | id in FailedIds(s.assignments, name) :: s.assignments[id], AssignmentLess)
    ensures |Failures(RunsOf(s, name))| == |FailedIds(s.assignments, name)|
  {
    var failed := set id | id in FailedIds(s.assignments, name) :: s.assignments[id];
    ApiOrders();
    RunsListed(s, name);
    FilterLists(RunsOf(s, name), Owned(s.assignments, JobKind, name), HasFailed, failed, AssignmentLess);
    ListingDistinct(Failures(RunsOf(s, name)), failed, AssignmentLess);
    SameCount(FailedIds(s.assignments, name), s.assignments);
  }

  lemma {:induction false} SameCount(ids: set<string>, m: map<string, Assignment>)
    requires forall id | id in ids :: id in m && m[id].id == id
    ensures |set id | id in ids :: m[id]| == |ids|
  {
    if id :| id in ids {
      SameCount(ids - {id}, m);
      assert (set i | i in ids :: m[i]) == (set i | i in ids - {id} :: m[i]) + {m[id]};
    }
  }

  /** What a job's status says, in any store whose attempts are numbered: it
      succeeded exactly if a run succeeded; otherwise it names the live run exactly
      if there is one, and counts exactly the failed runs. */
  lemma JobStatusIsExact(ctx: Ctx, s: State, name: string)
    requires Keyed(s) && JobCounts(s, name) && AttemptsNumbered(s.assignments, name)
    ensures var m := s.assignments; var status := JobStatusOf(ctx, s, name);
      && (status.succeeded <==> WonIds(m, name) != {})
      && (status.succeeded ==> WonIds(m, name) == {status.lastAssignmentId} && status.completedAt == m[status.lastAssignmentId].finishedAt)
      && (!status.succeeded ==> status.failedAttempts == |FailedIds(m, name)|)
      && (forall id | id in ActiveIds(m, JobKind, name) && Live(ctx, s.nodes, m[id].nodeId) ::
            status.activeAssignmentId == status.lastAssignmentId == id)
  {
    var m, xs := s.assignments, RunsOf(s, name);
    RunsListed(s, name);
    FailuresListed(s, name);
    RunsByID(s, name);
    match FirstWon(xs)
    case Some(k) =>
      assert xs[k] in xs;
      OneOfOne(WonIds(m, name), ActiveIds(m, JobKind, name), xs[k].id);
    case None =>
      forall id ensures id !in WonIds(m, name) {
        if id in m && m[id].OwnedBy(JobKind, name) { assert m[id] in xs; }
      }
      assert WonIds(m, name) == {};
      LiveRunIsTheOne(ctx, s, name);
  }

  lemma RunsByID(s: State, name: string)
    requires Keyed(s)
    ensures forall a | a in RunsOf(s, name) :: a.id in s.assignments && s.assignments[a.id] == a && a.OwnedBy(JobKind, name)
    ensures forall id | id in s.assignments && s.assignments[id].OwnedBy(JobKind, name) :: s.assignments[id] in RunsOf(s, name)
  {
    RunsListed(s, name);
    forall id | id in s.assignments && s.assignments[id].OwnedBy(JobKind, name) ensures s.assignments[id] in RunsOf(s, name) {
      assert s.assignments[id] in Owned(s.assignments, JobKind, name);
    }
  }

  lemma OneOfOne(a: set<string>, b: set<string>, x: string)
    requires |a| + |b| <= 1 && x in a
    ensures a == {x} && b == {}
  {
    assert |a - {x}| + |b| == 0;
    assert a - {x} == {} && b == {};
  }

  // The run found by the pass is the only one under way, and carries the next number.
  lemma LiveRunIsTheOne(ctx: Ctx, s: State, name: string)
    requires Keyed(s) && JobCounts(s, name) && AttemptsNumbered(s.assignments, name)
    ensures match LastLive(ctx, s.nodes, RunsOf(s, name))
      case None => forall id | id in ActiveIds(s.assignments, JobKind, name) :: !Live(ctx, s.nodes, s.assignments[id].nodeId)
      case Some(a) => ActiveIds(s.assignments, JobKind, name) == {a.id} && a.attempt == |FailedIds(s.assignments, name)| + 1
  {
    RunsByID(s, name);
    match LastLive(ctx, s.nodes, RunsOf(s, name))
    case None =>
      forall id | id in ActiveIds(s.assignments, JobKind, name) ensures !Live(ctx, s.nodes, s.assignments[id].nodeId) {
        assert s.assignments[id] in RunsOf(s, name);
      }
    case Some(a) =>
      OneOfOne(ActiveIds(s.assignments, JobKind, name), WonIds(s.assignments, name), a.id);
      assert NumberedAfter(a, |FailedIds(s.assignments, name)|);
  }

  lemma OwnedAfterAdd(m: map<string, Assignment>, a: Assignment, kind: WorkloadKind, name: string)
    requires a.id !in m && a.OwnedBy(kind, name)
    ensures Owned(m[a.id := a], kind, name) == Owned(m, kind, name) + {a}
  {
    var m' := m[a.id := a];
    forall x | x in Owned(m, kind, name) ensures x in Owned(m', kind, name) {
      var id :| id in m && m[id].OwnedBy(kind, name) && m[id] == x;
      assert m'[id] == x;
    }
    assert m'[a.id] == a;
  }

  lemma NewRunIsOnlyLive(ctx: Ctx, s: State, name: string, a: Assignment)
    requires Keyed(s) && a.id !in s.assignments && a.OwnedBy(JobKind, name)
    requires FirstWon(RunsOf(s, name)).None? && LastLive(ctx, s.nodes, RunsOf(s, name)).None?
    requires IsLiveRun(ctx, s.nodes, a)
    ensures var u := s.(assignments := s.assignments[a.id := a]);
      FirstWon(RunsOf(u, name)).None? && LastLive(ctx, u.nodes, RunsOf(u, name)) == Some(a)
  {
    var u := s.(assignments := s.assignments[a.id := a]);
    RunsListed(s, name);
    RunsListed(u, name);
    OwnedAfterAdd(s.assignments, a, JobKind, name);
    assert forall x | x in RunsOf(u, name) :: x in RunsOf(s, name) || x == a;
    assert a in RunsOf(u, name);
  }

  lemma NewRunKeepsFailures(s: State, name: string, a: Assignment)
    requires Keyed(s) && a.id !in s.assignments && a.phase == Pending
    ensures Failures(RunsOf(s.(assignments := s.assignments[a.id := a]), name)) == Failures(RunsOf(s, name))
  {
    var u := s.(assignments := s.assignments[a.id := a]);
    FailuresListed(s, name);
    FailuresListed(u, name);
    assert FailedIds(u.assignments, name) == FailedIds(s.assignments, name);
    assert (set id | id in FailedIds(u.assignments, name) :: u.assignments[id])
        == (set id | id in FailedIds(s.assignments, name) :: s.assignments[id]);
  }

  /** Starting a run leaves the job settled, and its status is what the
      reconcile writes: the new run is active, failures and last failure stand. */
  lemma NewRunStatus(ctx: Ctx, job: Job, s: State, p: Placement)
    requires Keyed(s) && !JobSettled(ctx, s, job)
    requires p.id !in s.assignments && Live(ctx, s.nodes, p.nodeId)
    ensures var failed := Failures(RunsOf(s, job.name)); var u := AddRun(ctx, job, s, |failed|, p);
      && JobSettled(ctx, u, job)
      && JobStatusOf(ctx, u, job.name) == JobStatus(p.id, p.id, false, |failed|, LastMessage(failed), None)
  {
    var a := NewRun(job, |Failures(RunsOf(s, job.name))| + 1, p.id, p.nodeId, ctx.now);
    NewRunIsOnlyLive(ctx, s, job.name, a);
    NewRunKeepsFailures(s, job.name, a);
  }

  // What the assignments are after a job's run, before its status is written.
  ghost predicate JobAdvanced(ctx: Ctx, job: Job, s: State, u: State) {
    && u == s.(assignments := u.assignments)
    && JobSettled(ctx, u, job)
    && OthersKept(s.assignments, u.assignments, JobKind, job.name) && AddsOnly(s.assignments, u.assignments)
    && (forall id | id in u.assignments && id !in s.assignments ::
          && u.assignments[id] == NewRun(job, |FailedIds(s.assignments, job.name)| + 1, id, u.assignments[id].nodeId, ctx.now)
          && Live(ctx, s.nodes, u.assignments[id].nodeId))
    && (JobSettled(ctx, s, job) <==> u.assignments == s.assignments)
  }

  lemma HostIsLive(ctx: Ctx, s: State, request: Request, n: string)
    requires MayHost(ctx, s, request, n)
    ensures Live(ctx, s.nodes, n)
  {
  }

  lemma JobSteps(ctx: Ctx, job: Job, s: State, t: State) returns (u: State)
    requires JobRun(ctx, job, s, t) && Keyed(s)
    ensures JobAdvanced(ctx, job, s, u)
    ensures t == Apply(u, UpdateJobStatus(job.name, JobStatusOf(ctx, u, job.name)))
  {
    hide JobSettled, JobStatusOf, RunsOf, Fits, Keyed, FailedIds, Failures;
    var p :| JobRunBy(ctx, job, s, t, p);
    if p.Some? {
      assert MayHost(ctx, s, JobRequest(job), p.value.nodeId);
      HostIsLive(ctx, s, JobRequest(job), p.value.nodeId);
      FailuresListed(s, job.name);
      NewRunStatus(ctx, job, s, p.value);
      u := AddRun(ctx, job, s, |Failures(RunsOf(s, job.name))|, p.value);
      assert p.value.id in u.assignments;
    } else {
      u := s;
    }
  }

  lemma JobStatusWritten(s: State, t: State, name: string, status: JobStatus)
    requires t == Apply(s, UpdateJobStatus(name, status))
    ensures SameSpecs(s, t) && t.assignments == s.assignments && t.services == s.services
    ensures forall n | n in s.jobs && n != name :: t.jobs[n] == s.jobs[n]
    ensures name in s.jobs ==> t.jobs[name].status == status
  {
  }

  /** An uninterrupted reconcile of a job leaves it settled, touches no other
      owner's assignments, adds a run exactly when the job was not settled, numbered
      after its failures, and writes the status of what it leaves. */
  lemma JobOutcome(ctx: Ctx, job: Job, s: State, t: State)
    requires JobRun(ctx, job, s, t) && Keyed(s)
    ensures JobAdvanced(ctx, job, s, t.(jobs := s.jobs))
    ensures JobSettled(ctx, t, job)
    ensures SameSpecs(s, t) && t.services == s.services
    ensures forall n | n in s.jobs && n != job.name :: t.jobs[n] == s.jobs[n]
    ensures job.name in s.jobs ==> t.jobs[job.name].status == JobStatusOf(ctx, t, job.name)
  {
    var u := JobSteps(ctx, job, s, t);
    JobStatusWritten(u, t, job.name, JobStatusOf(ctx, u, job.name));
    SameTables(ctx, u, t);
    assert t.(jobs := s.jobs) == u;
  }
}
