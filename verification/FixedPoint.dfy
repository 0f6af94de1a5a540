/** Repeated reconciles at one time settle: the third changes nothing, and
    already the second changes nothing when no service starts above its count. */
module FixedPoint {
  import opened Order
  import opened Api
  import opened Load
  import opened StoreState
  import opened Discipline
  import opened Scheduling
  import opened Reconciling
  import opened Outcomes

  ghost predicate Good(ctx: Ctx, s: State) {
    Keyed(s) && Quantities(s) && AllActiveLive(ctx, s)
  }

  // Service n is not above its count and its status is current.
  ghost predicate ServiceOK(ctx: Ctx, s: State, n: string) {
    n in s.services ==>
      && |Replicas(ctx, s, n)| <= s.services[n].replicas
      && s.services[n].status == ServiceStatusOf(ctx, s, s.services[n])
  }

  ghost predicate ServiceFull(ctx: Ctx, s: State, n: string) {
    n in s.services ==>
      |Replicas(ctx, s, n)| >= s.services[n].replicas || NoHost(ctx, s, ServiceRequest(s.services[n]))
  }

  ghost predicate JobCurrent(ctx: Ctx, s: State, n: string) {
    n in s.jobs ==> s.jobs[n].status == JobStatusOf(ctx, s, n)
  }

  ghost predicate JobDone(ctx: Ctx, s: State, n: string) {
    n in s.jobs ==> JobSettled(ctx, s, s.jobs[n])
  }

  ghost predicate NoExcess(ctx: Ctx, s: State) {
    forall n | n in s.services :: |Replicas(ctx, s, n)| <= s.services[n].replicas
  }

  ghost predicate Settled(ctx: Ctx, s: State) {
    forall n :: ServiceOK(ctx, s, n) && ServiceFull(ctx, s, n) && JobCurrent(ctx, s, n) && JobDone(ctx, s, n)
  }

  // --- Frames --------------------------------------------------------------

  lemma KeptService(ctx: Ctx, s: State, t: State, kind: WorkloadKind, name: string, service: Service)
    requires t.nodes == s.nodes && OthersKept(s.assignments, t.assignments, kind, name)
    requires kind == JobKind || name != service.name
    ensures Replicas(ctx, t, service.name) == Replicas(ctx, s, service.name)
    ensures ServiceStatusOf(ctx, t, service) == ServiceStatusOf(ctx, s, service)
  {
    var ids := Replicas(ctx, s, service.name);
    assert Replicas(ctx, t, service.name) == ids;
    assert InPhase(t, ids, Pending) == InPhase(s, ids, Pending) && InPhase(t, ids, Running) == InPhase(s, ids, Running);
  }

  lemma KeptRuns(s: State, t: State, kind: WorkloadKind, name: string, job: string)
    requires OthersKept(s.assignments, t.assignments, kind, name)
    requires kind == ServiceKind || name != job
    ensures RunsOf(t, job) == RunsOf(s, job)
  {
    var m, m' := s.assignments, t.assignments;
    assert Owned(m', JobKind, job) == Owned(m, JobKind, job) by {
      forall x ensures x in Owned(m', JobKind, job) <==> x in Owned(m, JobKind, job) {
        if x in Owned(m, JobKind, job) { var id :| id in m && m[id].OwnedBy(JobKind, job) && m[id] == x; assert m'[id] == x; }
        if x in Owned(m', JobKind, job) { var id :| id in m' && m'[id].OwnedBy(JobKind, job) && m'[id] == x; assert m[id] == x; }
      }
    }
  }

  lemma NoHostGrows(ctx: Ctx, s: State, t: State, request: Request)
    requires t.nodes == s.nodes && AddsOnly(s.assignments, t.assignments) && Quantities(t)
    requires NoHost(ctx, s, request)
    ensures NoHost(ctx, t, request)
  {
    forall n ensures !MayHost(ctx, t, request, n) {
      if MayHost(ctx, t, request, n) { HostedBefore(ctx, s, t, request, n); }
    }
  }

  lemma HostedBefore(ctx: Ctx, s: State, t: State, request: Request, n: string)
    requires t.nodes == s.nodes && AddsOnly(s.assignments, t.assignments) && Quantities(t)
    requires MayHost(ctx, t, request, n)
    ensures MayHost(ctx, s, request, n)
  {
    assert Within(LoadOf(s.assignments, n), LoadOf(t.assignments, n));
    FitsIsAntitone(ctx.now, ctx.timeout, GracedNodes(ctx, s.nodes), s.assignments, t.assignments, request, n);
  }

  lemma FullGrows(ctx: Ctx, s: State, t: State, kind: WorkloadKind, name: string, n: string)
    requires SameSpecs(s, t) && Quantities(t)
    requires OthersKept(s.assignments, t.assignments, kind, name) && AddsOnly(s.assignments, t.assignments)
    requires kind == JobKind || name != n
    requires Keyed(s) && ServiceFull(ctx, s, n)
    ensures ServiceFull(ctx, t, n)
  {
    if n in s.services {
      KeptService(ctx, s, t, kind, name, s.services[n]);
      if NoHost(ctx, s, ServiceRequest(s.services[n])) { NoHostGrows(ctx, s, t, ServiceRequest(s.services[n])); }
    }
  }

  lemma DoneGrows(ctx: Ctx, s: State, t: State, kind: WorkloadKind, name: string, n: string)
    requires SameSpecs(s, t) && Quantities(t)
    requires OthersKept(s.assignments, t.assignments, kind, name) && AddsOnly(s.assignments, t.assignments)
    requires kind == ServiceKind || name != n
    requires Keyed(s) && JobDone(ctx, s, n)
    ensures JobDone(ctx, t, n)
  {
    if n in s.jobs {
      KeptRuns(s, t, kind, name, n);
      if NoHost(ctx, s, JobRequest(s.jobs[n])) { NoHostGrows(ctx, s, t, JobRequest(s.jobs[n])); }
    }
  }

  // --- Single steps --------------------------------------------------------

  // Assignments are kept as they were or are new, sane and on live nodes.
  lemma GoodAfter(ctx: Ctx, s: State, t: State)
    requires Good(ctx, s) && SameSpecs(s, t)
    requires forall id | id in t.assignments :: (id in s.assignments && t.assignments[id] == s.assignments[id])
               || (t.assignments[id].id == id && t.assignments[id].resources.NonNegative() && Live(ctx, s.nodes, t.assignments[id].nodeId))
    ensures Good(ctx, t)
  {
    SpecsStaySane(s, t);
  }

  lemma SpecsStaySane(s: State, t: State)
    requires SameSpecs(s, t)
    ensures forall n | n in t.services :: t.services[n].name == s.services[n].name && t.services[n].replicas == s.services[n].replicas
                                       && t.services[n].resources == s.services[n].resources
    ensures forall n | n in t.jobs :: t.jobs[n].name == s.jobs[n].name && t.jobs[n].retries == s.jobs[n].retries
                                   && t.jobs[n].resources == s.jobs[n].resources
  {
  }

  lemma ServiceKeepsGood(ctx: Ctx, service: Service, s: State, t: State)
    requires Good(ctx, s) && SameSpecs(s, t) && service.resources.NonNegative()
    requires ServiceSettled(ctx, service, s, t.(services := s.services))
    ensures Good(ctx, t)
  {
    forall id | id in t.assignments && id !in s.assignments
      ensures t.assignments[id].id == id && t.assignments[id].resources.NonNegative() && Live(ctx, s.nodes, t.assignments[id].nodeId)
    {
      assert IsNewReplica(ctx, service, s, t.assignments[id]);
    }
    GoodAfter(ctx, s, t);
  }

  lemma OtherServiceOK(ctx: Ctx, service: Service, s: State, t: State, n: string)
    requires SameSpecs(s, t) && OthersKept(s.assignments, t.assignments, ServiceKind, service.name)
    requires Keyed(s) && n in s.services && n != service.name && t.services[n] == s.services[n]
    ensures Replicas(ctx, t, n) == Replicas(ctx, s, n)
    ensures ServiceOK(ctx, s, n) ==> ServiceOK(ctx, t, n)
  {
    KeptService(ctx, s, t, ServiceKind, service.name, s.services[n]);
  }

  lemma ServiceStep(ctx: Ctx, service: Service, s: State, t: State)
    requires Good(ctx, s) && ServiceRun(ctx, service, s, t)
    requires service.name in s.services && s.services[service.name] == service
    ensures Good(ctx, t) && SameSpecs(s, t) && t.jobs == s.jobs
    ensures OthersKept(s.assignments, t.assignments, ServiceKind, service.name)
    ensures ServiceOK(ctx, t, service.name)
    ensures forall n | n in s.services && n != service.name :: t.services[n] == s.services[n]
  {
    ServiceOutcome(ctx, service, s, t);
    ServiceKeepsGood(ctx, service, s, t);
    SameTables(ctx, t.(services := s.services), t);
    assert t.services[service.name] == service.(status := t.services[service.name].status);
    assert ServiceStatusOf(ctx, t, t.services[service.name]) == ServiceStatusOf(ctx, t, service);
  }

  lemma ServiceStepRest(ctx: Ctx, service: Service, s: State, t: State, done: set<string>)
    requires Good(ctx, s) && ServiceRun(ctx, service, s, t)
    requires service.name in s.services && s.services[service.name] == service && service.name !in done
    requires forall n | n in done :: ServiceOK(ctx, s, n)
    ensures forall n | n in done + {service.name} :: ServiceOK(ctx, t, n)
  {
    hide ServiceRun, OthersKept, NoHost, Replicas;
    ServiceStep(ctx, service, s, t);
    forall n | n in done ensures ServiceOK(ctx, t, n) {
      if n in s.services { OtherServiceOK(ctx, service, s, t, n); }
    }
  }

  lemma ServiceStepNoExcess(ctx: Ctx, service: Service, s: State, t: State)
    requires Good(ctx, s) && ServiceRun(ctx, service, s, t)
    requires service.name in s.services && s.services[service.name] == service
    requires NoExcess(ctx, s)
    ensures NoExcess(ctx, t)
  {
    ServiceStep(ctx, service, s, t);
    forall n | n in t.services ensures |Replicas(ctx, t, n)| <= t.services[n].replicas {
      if n != service.name { OtherServiceOK(ctx, service, s, t, n); }
    }
  }

  lemma ServiceStepFills(ctx: Ctx, service: Service, s: State, t: State, done: set<string>)
    requires Good(ctx, s) && ServiceRun(ctx, service, s, t)
    requires service.name in s.services && s.services[service.name] == service && service.name !in done
    requires forall n | n in done :: ServiceFull(ctx, s, n)
    requires NoExcess(ctx, s)
    ensures forall n | n in done + {service.name} :: ServiceFull(ctx, t, n)
    ensures AddsOnly(s.assignments, t.assignments)
  {
    hide ServiceStatusOf, NoHost, IsNewReplica, OthersKept;
    ServiceOutcome(ctx, service, s, t);
    ServiceKeepsGood(ctx, service, s, t);
    SameTables(ctx, t.(services := s.services), t);
    forall n | n in done ensures ServiceFull(ctx, t, n) { FullGrows(ctx, s, t, ServiceKind, service.name, n); }
    assert ServiceRequest(t.services[service.name]) == ServiceRequest(service);
  }

  lemma JobKeepsGood(ctx: Ctx, job: Job, s: State, t: State)
    requires Good(ctx, s) && SameSpecs(s, t) && job.resources.NonNegative()
    requires JobAdvanced(ctx, job, s, t.(jobs := s.jobs))
    ensures Good(ctx, t)
  {
    GoodAfter(ctx, s, t);
  }

  lemma JobSparesServices(ctx: Ctx, job: Job, s: State, t: State)
    requires Good(ctx, s) && SameSpecs(s, t) && t.services == s.services && Quantities(t)
    requires OthersKept(s.assignments, t.assignments, JobKind, job.name) && AddsOnly(s.assignments, t.assignments)
    ensures forall n | ServiceOK(ctx, s, n) :: ServiceOK(ctx, t, n)
    ensures forall n | ServiceFull(ctx, s, n) :: ServiceFull(ctx, t, n)
  {
    forall n | ServiceOK(ctx, s, n) ensures ServiceOK(ctx, t, n) {
      if n in s.services { KeptService(ctx, s, t, JobKind, job.name, s.services[n]); }
    }
    forall n | ServiceFull(ctx, s, n) ensures ServiceFull(ctx, t, n) { FullGrows(ctx, s, t, JobKind, job.name, n); }
  }

  lemma JobStep(ctx: Ctx, job: Job, s: State, t: State, done: set<string>)
    requires Good(ctx, s) && JobRun(ctx, job, s, t)
    requires job.name in s.jobs && s.jobs[job.name] == job && job.name !in done
    requires forall n | n in done :: JobCurrent(ctx, s, n) && JobDone(ctx, s, n)
    requires forall n :: ServiceOK(ctx, s, n)
    ensures Good(ctx, t) && SameSpecs(s, t) && AddsOnly(s.assignments, t.assignments)
    ensures forall n | n in done + {job.name} :: JobCurrent(ctx, t, n) && JobDone(ctx, t, n)
    ensures forall n | n in s.jobs && n != job.name :: t.jobs[n] == s.jobs[n]
    ensures forall n :: ServiceOK(ctx, t, n)
    ensures forall n | ServiceFull(ctx, s, n) :: ServiceFull(ctx, t, n)
  {
    hide ServiceOK, ServiceFull, JobRun, NoHost, OthersKept, AddsOnly, RunsOf;
    JobOutcome(ctx, job, s, t);
    JobKeepsGood(ctx, job, s, t);
    forall n | n in done ensures JobCurrent(ctx, t, n) && JobDone(ctx, t, n) {
      KeptRuns(s, t, JobKind, job.name, n);
      DoneGrows(ctx, s, t, JobKind, job.name, n);
    }
    JobSparesServices(ctx, job, s, t);
    assert JobSettled(ctx, t, t.jobs[job.name]);
  }

  // --- Whole stages --------------------------------------------------------

  function Names(services: seq<Service>): set<string> { set x | x in services :: x.name }
  function JobNames(jobs: seq<Job>): set<string> { set x | x in jobs :: x.name }

  ghost predicate ServicesAhead(s: State, services: seq<Service>, k: nat) {
    && (forall i | 0 <= i < |services| :: services[i].name in s.services)
    && (forall i | k <= i < |services| :: s.services[services[i].name] == services[i])
    && (forall i, j | 0 <= i < j < |services| :: services[i].name != services[j].name)
  }

  ghost predicate JobsAhead(s: State, jobs: seq<Job>, k: nat) {
    && (forall i | 0 <= i < |jobs| :: jobs[i].name in s.jobs)
    && (forall i | k <= i < |jobs| :: s.jobs[jobs[i].name] == jobs[i])
    && (forall i, j | 0 <= i < j < |jobs| :: jobs[i].name != jobs[j].name)
  }

  lemma ListedServices(s: State)
    requires Keyed(s)
    ensures var xs := Listing(s.services.Values, ServiceLess); ServicesAhead(s, xs, 0) && Names(xs) == s.services.Keys
  {
    ApiOrders();
    var xs := Listing(s.services.Values, ServiceLess);
    assert TotalOn(s.services.Values, ServiceLess) by {
      forall a, b | a in s.services.Values && b in s.services.Values && a != b ensures ServiceLess(a, b) || ServiceLess(b, a) {
        StrTotal(a.name, b.name);
      }
    }
    ListingExists(s.services.Values, ServiceLess);
    forall i | 0 <= i < |xs| ensures xs[i].name in s.services && s.services[xs[i].name] == xs[i] { assert xs[i] in xs; }
    forall i, j | 0 <= i < j < |xs| ensures xs[i].name != xs[j].name { assert ServiceLess(xs[i], xs[j]); StrIrreflexive(xs[i].name); }
    forall n | n in s.services ensures n in Names(xs) { assert s.services[n] in xs; }
  }

  lemma ListedJobs(s: State)
    requires Keyed(s)
    ensures var xs := Listing(s.jobs.Values, JobLess); JobsAhead(s, xs, 0) && JobNames(xs) == s.jobs.Keys
  {
    ApiOrders();
    var xs := Listing(s.jobs.Values, JobLess);
    assert TotalOn(s.jobs.Values, JobLess) by {
      forall a, b | a in s.jobs.Values && b in s.jobs.Values && a != b ensures JobLess(a, b) || JobLess(b, a) {
        StrTotal(a.name, b.name);
      }
    }
    ListingExists(s.jobs.Values, JobLess);
    forall i | 0 <= i < |xs| ensures xs[i].name in s.jobs && s.jobs[xs[i].name] == xs[i] { assert xs[i] in xs; }
    forall i, j | 0 <= i < j < |xs| ensures xs[i].name != xs[j].name { assert JobLess(xs[i], xs[j]); StrIrreflexive(xs[i].name); }
    forall n | n in s.jobs ensures n in JobNames(xs) { assert s.jobs[n] in xs; }
  }

  lemma SameSpecsTrans(s: State, t: State, u: State)
    requires SameSpecs(s, t) && SameSpecs(t, u)
    ensures SameSpecs(s, u)
  {
  }

  lemma NextService(s: State, services: seq<Service>, k: nat)
    requires ServicesAhead(s, services, k) && k < |services|
    ensures services[k].name in s.services && s.services[services[k].name] == services[k]
    ensures Names(services[..k + 1]) == Names(services[..k]) + {services[k].name} && services[k].name !in Names(services[..k])
  {
    assert services[..k + 1] == services[..k] + [services[k]];
  }

  lemma NextJob(s: State, jobs: seq<Job>, k: nat)
    requires JobsAhead(s, jobs, k) && k < |jobs|
    ensures jobs[k].name in s.jobs && s.jobs[jobs[k].name] == jobs[k]
    ensures JobNames(jobs[..k + 1]) == JobNames(jobs[..k]) + {jobs[k].name} && jobs[k].name !in JobNames(jobs[..k])
  {
    assert jobs[..k + 1] == jobs[..k] + [jobs[k]];
  }

  lemma ServicesAheadStep(s: State, t: State, services: seq<Service>, k: nat)
    requires ServicesAhead(s, services, k) && k < |services| && t.services.Keys == s.services.Keys
    requires forall n | n in s.services && n != services[k].name :: t.services[n] == s.services[n]
    ensures ServicesAhead(t, services, k + 1)
  {
  }

  lemma JobsAheadStep(s: State, t: State, jobs: seq<Job>, k: nat)
    requires JobsAhead(s, jobs, k) && k < |jobs| && t.jobs.Keys == s.jobs.Keys
    requires forall n | n in s.jobs && n != jobs[k].name :: t.jobs[n] == s.jobs[n]
    ensures JobsAhead(t, jobs, k + 1)
  {
  }

  lemma {:induction false} ServicesStage(ctx: Ctx, services: seq<Service>, run: seq<State>, k: nat)
    requires ServicesRun(ctx, services, run) && k <= |services|
    requires Good(ctx, run[0]) && ServicesAhead(run[0], services, 0)
    ensures Good(ctx, run[k]) && SameSpecs(run[0], run[k]) && ServicesAhead(run[k], services, k)
    ensures forall n | n in Names(services[..k]) :: ServiceOK(ctx, run[k], n)
  {
    if k > 0 {
      ServicesStage(ctx, services, run, k - 1);
      var s, t := run[k - 1], run[k];
      NextService(s, services, k - 1);
      ServiceStep(ctx, services[k - 1], s, t);
      ServiceStepRest(ctx, services[k - 1], s, t, Names(services[..k - 1]));
      ServicesAheadStep(s, t, services, k - 1);
      SameSpecsTrans(run[0], s, t);
    }
  }

  lemma FillStep(ctx: Ctx, services: seq<Service>, k: nat, s: State, t: State)
    requires k < |services| && ServicesAhead(s, services, k) && Good(ctx, s) && ServiceRun(ctx, services[k], s, t)
    requires NoExcess(ctx, s) && forall n | n in Names(services[..k]) :: ServiceFull(ctx, s, n)
    ensures NoExcess(ctx, t) && forall n | n in Names(services[..k + 1]) :: ServiceFull(ctx, t, n)
  {
    NextService(s, services, k);
    ServiceStepNoExcess(ctx, services[k], s, t);
    ServiceStepFills(ctx, services[k], s, t, Names(services[..k]));
  }

  lemma {:induction false} ServicesStageFills(ctx: Ctx, services: seq<Service>, run: seq<State>, k: nat)
    requires ServicesRun(ctx, services, run) && k <= |services|
    requires Good(ctx, run[0]) && ServicesAhead(run[0], services, 0) && NoExcess(ctx, run[0])
    ensures NoExcess(ctx, run[k])
    ensures forall n | n in Names(services[..k]) :: ServiceFull(ctx, run[k], n)
  {
    if k > 0 {
      var j := k - 1;
      var s, t := run[j], run[k];
      assert ServiceRun(ctx, services[j], s, run[j + 1]);
      ServicesStage(ctx, services, run, j);
      ServicesStageFills(ctx, services, run, j);
      FillStep(ctx, services, j, s, t);
    }
  }

  lemma {:induction false} JobsStage(ctx: Ctx, jobs: seq<Job>, run: seq<State>, k: nat)
    requires JobsRun(ctx, jobs, run) && k <= |jobs|
    requires Good(ctx, run[0]) && JobsAhead(run[0], jobs, 0) && forall n :: ServiceOK(ctx, run[0], n)
    ensures Good(ctx, run[k]) && SameSpecs(run[0], run[k]) && JobsAhead(run[k], jobs, k)
    ensures forall n :: ServiceOK(ctx, run[k], n)
    ensures forall n | ServiceFull(ctx, run[0], n) :: ServiceFull(ctx, run[k], n)
    ensures forall n | n in JobNames(jobs[..k]) :: JobCurrent(ctx, run[k], n) && JobDone(ctx, run[k], n)
  {
    if k > 0 {
      JobsStage(ctx, jobs, run, k - 1);
      var s, t := run[k - 1], run[k];
      NextJob(s, jobs, k - 1);
      JobStep(ctx, jobs[k - 1], s, t, JobNames(jobs[..k - 1]));
      JobsAheadStep(s, t, jobs, k - 1);
      SameSpecsTrans(run[0], s, t);
    }
  }

  // --- Identity on a settled store -----------------------------------------

  lemma {:induction false} FirstPlacement(ctx: Ctx, service: Service, s: State, ps: seq<Placement>)
    requires Greedy(ctx, service, s, ps) && ps != []
    ensures |Replicas(ctx, s, service.name)| < service.replicas && !NoHost(ctx, s, ServiceRequest(service))
  {
    var k := |ps| - 1;
    if k > 0 {
      FirstPlacement(ctx, service, s, ps[..k]);
    } else {
      assert ps[..k] == [];
      assert MayHost(ctx, s, ServiceRequest(service), ps[0].nodeId);
    }
  }

  lemma ServiceRunIdle(ctx: Ctx, service: Service, s: State, t: State)
    requires ServiceRun(ctx, service, s, t)
    requires service.name in s.services && s.services[service.name] == service
    requires ServiceOK(ctx, s, service.name) && ServiceFull(ctx, s, service.name)
    ensures t == s
  {
    hide ServiceStatusOf, NoHost, AreVictims, IsPick, Greedy;
    var victims, ps :| ServiceRunBy(ctx, service, s, t, victims, ps);
    assert s.(assignments := s.assignments - {}) == s;
    NothingToPlace(ctx, service, s, ps);
    assert s.services[service.name := service.(status := service.status)] == s.services;
  }

  lemma NothingToPlace(ctx: Ctx, service: Service, s: State, ps: seq<Placement>)
    requires Greedy(ctx, service, s, ps)
    requires |Replicas(ctx, s, service.name)| >= service.replicas || NoHost(ctx, s, ServiceRequest(service))
    ensures ps == []
  {
    if ps != [] { FirstPlacement(ctx, service, s, ps); }
  }

  lemma JobRunIdle(ctx: Ctx, job: Job, s: State, t: State)
    requires JobRun(ctx, job, s, t)
    requires job.name in s.jobs && s.jobs[job.name] == job
    requires JobCurrent(ctx, s, job.name) && JobDone(ctx, s, job.name)
    ensures t == s
  {
    hide JobSettled, JobStatusOf, RunsOf, IsPick;
    assert s.jobs[job.name := job.(status := job.status)] == s.jobs;
  }

  lemma {:induction false} ServicesIdle(ctx: Ctx, services: seq<Service>, run: seq<State>, k: nat)
    requires ServicesRun(ctx, services, run) && k <= |services|
    requires ServicesAhead(run[0], services, 0) && Settled(ctx, run[0])
    ensures run[k] == run[0]
  {
    if k > 0 {
      ServicesIdle(ctx, services, run, k - 1);
      ServiceRunIdle(ctx, services[k - 1], run[k - 1], run[k]);
    }
  }

  lemma {:induction false} JobsIdle(ctx: Ctx, jobs: seq<Job>, run: seq<State>, k: nat)
    requires JobsRun(ctx, jobs, run) && k <= |jobs|
    requires JobsAhead(run[0], jobs, 0) && Settled(ctx, run[0])
    ensures run[k] == run[0]
  {
    if k > 0 {
      JobsIdle(ctx, jobs, run, k - 1);
      JobRunIdle(ctx, jobs[k - 1], run[k - 1], run[k]);
    }
  }

  // --- Whole reconciles ----------------------------------------------------

  lemma MarkingMakesGood(ctx: Ctx, s: State)
    requires Keyed(s) && Quantities(s)
    ensures Good(ctx, MarkedLost(ctx, s))
    ensures AllActiveLive(ctx, s) ==> MarkedLost(ctx, s) == s
    ensures forall n :: Replicas(ctx, MarkedLost(ctx, s), n) == Replicas(ctx, s, n)
  {
  }

  // After the services' turn.
  lemma ServicesOutcome(ctx: Ctx, s: State, run: seq<State>)
    requires Good(ctx, s) && run != [] && run[0] == s
    requires ServicesRun(ctx, Listing(s.services.Values, ServiceLess), run)
    ensures var t := run[|run| - 1];
      && Good(ctx, t) && SameSpecs(s, t)
      && (forall n :: ServiceOK(ctx, t, n))
      && (NoExcess(ctx, s) ==> forall n :: ServiceFull(ctx, t, n))
  {
    var services := Listing(s.services.Values, ServiceLess);
    ListedServices(s);
    ServicesStage(ctx, services, run, |services|);
    if NoExcess(ctx, s) { ServicesStageFills(ctx, services, run, |services|); }
    assert services[..|services|] == services;
    var t := run[|run| - 1];
    forall n ensures ServiceOK(ctx, t, n) && (NoExcess(ctx, s) ==> ServiceFull(ctx, t, n)) {
      assert n in t.services ==> n in Names(services);
    }
  }

  // After the jobs' turn.
  lemma JobsOutcome(ctx: Ctx, s: State, run: seq<State>)
    requires Good(ctx, s) && run != [] && run[0] == s && forall n :: ServiceOK(ctx, s, n)
    requires JobsRun(ctx, Listing(s.jobs.Values, JobLess), run)
    ensures var t := run[|run| - 1];
      && Good(ctx, t) && SameSpecs(s, t)
      && (forall n :: ServiceOK(ctx, t, n) && JobCurrent(ctx, t, n) && JobDone(ctx, t, n))
      && (forall n | ServiceFull(ctx, s, n) :: ServiceFull(ctx, t, n))
  {
    var jobs := Listing(s.jobs.Values, JobLess);
    ListedJobs(s);
    JobsStage(ctx, jobs, run, |jobs|);
    assert jobs[..|jobs|] == jobs;
    var t := run[|run| - 1];
    forall n ensures ServiceOK(ctx, t, n) && JobCurrent(ctx, t, n) && JobDone(ctx, t, n) {
      assert n in t.jobs ==> n in JobNames(jobs);
    }
  }

  lemma MarkingKeepsExcess(ctx: Ctx, s: State)
    requires Keyed(s) && Quantities(s) && NoExcess(ctx, s)
    ensures NoExcess(ctx, MarkedLost(ctx, s))
  {
    MarkingMakesGood(ctx, s);
  }

  /** After any reconcile: all active work is on live nodes, no service is above
      its count, every status is current; and if no service was above its count
      before, everything that can run does. */
  lemma TickOutcome(ctx: Ctx, s: State, t: State)
    requires Tick(ctx, s, t) && Keyed(s) && Quantities(s)
    ensures Good(ctx, t) && SameSpecs(s, t) && NoExcess(ctx, t)
    ensures forall n :: ServiceOK(ctx, t, n) && JobCurrent(ctx, t, n) && JobDone(ctx, t, n)
    ensures NoExcess(ctx, s) ==> Settled(ctx, t)
  {
    var run1: seq<State>, run2: seq<State> :| TickBy(ctx, s, t, run1, run2);
    MarkingMakesGood(ctx, s);
    if NoExcess(ctx, s) { MarkingKeepsExcess(ctx, s); }
    ServicesOutcome(ctx, run1[0], run1);
    JobsOutcome(ctx, run2[0], run2);
    NoExcessIfOK(ctx, t);
  }

  lemma NoExcessIfOK(ctx: Ctx, t: State)
    requires forall n :: ServiceOK(ctx, t, n)
    ensures NoExcess(ctx, t)
  {
    forall n | n in t.services ensures |Replicas(ctx, t, n)| <= t.services[n].replicas { assert ServiceOK(ctx, t, n); }
  }

  /** A reconcile of a settled store changes nothing. */
  lemma SettledStays(ctx: Ctx, s: State, t: State)
    requires Tick(ctx, s, t) && Good(ctx, s) && Settled(ctx, s)
    ensures t == s
  {
    var run1: seq<State>, run2: seq<State> :| TickBy(ctx, s, t, run1, run2);
    MarkingMakesGood(ctx, s);
    ListedServices(s);
    ServicesIdle(ctx, Listing(run1[0].services.Values, ServiceLess), run1, |run1| - 1);
    ListedJobs(s);
    JobsIdle(ctx, Listing(run2[0].jobs.Values, JobLess), run2, |run2| - 1);
  }

  /** Whatever IDs each reconcile draws, the third in a row at one time changes
      nothing, and already the second when no service starts above its count. */
  lemma ReconcileSettles(ctx: Ctx, s: State, s1: State, s2: State, s3: State)
    requires Keyed(s) && Quantities(s)
    requires Tick(ctx, s, s1) && Tick(ctx, s1, s2) && Tick(ctx, s2, s3)
    ensures s3 == s2
    ensures NoExcess(ctx, s) ==> s2 == s1
  {
    TickOutcome(ctx, s, s1);
    TickOutcome(ctx, s1, s2);
    SettledStays(ctx, s2, s3);
    if NoExcess(ctx, s) { SettledStays(ctx, s1, s2); }
  }
}
