/** What an undisturbed reconcile does, told in the fields, sets and times of
    Requirements alone: a second account of the loop, which the first must meet. */
module Promises {
  import opened Order
  import opened Api
  import opened StoreState
  import opened Discipline
  import opened Scheduling
  import opened Reconciling
  import opened Outcomes
  import opened FixedPoint
  import opened Interference
  import opened LoopFacts
  import opened Requirements

  // --- A service -----------------------------------------------------------

  // The replicas that count: under way, on nodes in touch.
  function Counted(ctx: Ctx, s: State, name: string): set<string> {
    set id | id in s.assignments && s.assignments[id].ownerKind == ServiceKind && s.assignments[id].ownerName == name
          && UnderWay(s.assignments[id]) && InTouch(ctx, s.nodes, s.assignments[id].nodeId)
  }

  // Of two replicas too many, a goes first: one that has not started yet, else the
  // younger, else the one with the larger ID.
  predicate GoesFirst(a: Assignment, b: Assignment) {
    || (a.phase == Pending && b.phase == Running)
    || (a.phase == b.phase && (a.createdAt > b.createdAt || (a.createdAt == b.createdAt && StrLess(b.id, a.id))))
  }

  // The excess over the wanted number.
  ghost predicate AreExcess(ctx: Ctx, s: State, service: Service, gone: set<string>) {
    var all := Counted(ctx, s, service.name);
    && gone <= all
    && |gone| == (if |all| > service.replicas then |all| - service.replicas else 0)
    && forall v, k | v in gone && k in all && k !in gone :: GoesFirst(s.assignments[v], s.assignments[k])
  }

  function With(m: map<string, Assignment>, xs: seq<Assignment>): map<string, Assignment> {
    if xs == [] then m else With(m, xs[..|xs| - 1])[xs[|xs| - 1].id := xs[|xs| - 1]]
  }

  // Added one by one, each a replica under a new ID on the first node that can take it then.
  ghost predicate StartedInTurn(ctx: Ctx, service: Service, nodes: map<string, Node>, m: map<string, Assignment>, xs: seq<Assignment>) {
    xs == [] || (
      var before, a := With(m, xs[..|xs| - 1]), xs[|xs| - 1];
      && StartedInTurn(ctx, service, nodes, m, xs[..|xs| - 1])
      && a.id !in before && IsReplicaOf(service, ctx.now, a)
      && FirstToTake(ctx, nodes, before, service.resources, service.requiredLabels, service.ports, a.nodeId))
  }

  // The status tells how many replicas are wanted, which there are, and when.
  ghost predicate TellsReplicas(ctx: Ctx, t: State, service: Service, status: ServiceStatus) {
    var all := Counted(ctx, t, service.name);
    && status.desiredReplicas == service.replicas
    && status.pendingReplicas == |set id | id in all && t.assignments[id].phase == Pending|
    && status.runningReplicas == |set id | id in all && t.assignments[id].phase == Running|
    && (forall i, j | 0 <= i < j < |status.assignmentIds| :: StrLess(status.assignmentIds[i], status.assignmentIds[j]))
    && (forall id :: id in status.assignmentIds <==> id in all)
    && status.lastReconciledUnix * 1_000_000_000 <= ctx.now < (status.lastReconciledUnix + 1) * 1_000_000_000
  }

  lemma CountedExactly(ctx: Ctx, s: State, name: string)
    ensures Replicas(ctx, s, name) == Counted(ctx, s, name)
  {
    hide Live, InTouch;
    forall n ensures Live(ctx, s.nodes, n) <==> InTouch(ctx, s.nodes, n) { LiveExactly(ctx, s.nodes, n); }
  }

  lemma HostExactly(ctx: Ctx, s: State, request: Request)
    ensures NoHost(ctx, s, request)
       <==> forall n :: !CanTake(ctx, s.nodes, s.assignments, request.resources, request.requiredLabels, request.ports, n)
    ensures forall n | IsPick(ctx, s, request, n) ::
              FirstToTake(ctx, s.nodes, s.assignments, request.resources, request.requiredLabels, request.ports, n)
  {
    hide Fits, CanTake, FirstToTake;
    forall n ensures MayHost(ctx, s, request, n)
                <==> CanTake(ctx, s.nodes, s.assignments, request.resources, request.requiredLabels, request.ports, n)
    {
      FitsExactly(ctx, s.nodes, s.assignments, request, n);
    }
    forall n | IsPick(ctx, s, request, n)
      ensures FirstToTake(ctx, s.nodes, s.assignments, request.resources, request.requiredLabels, request.ports, n)
    {
      forall k | Fits(ctx.now, ctx.timeout, GracedNodes(ctx, s.nodes), s.assignments, request, k) ensures !StrLess(k, n) {
        assert MayHost(ctx, s, request, k);
      }
      PickExactly(ctx, s.nodes, s.assignments, request, n);
    }
  }

  lemma VictimsAreExcess(ctx: Ctx, s: State, service: Service, victims: set<string>)
    requires var group := Replicas(ctx, s, service.name);
      if |group| > service.replicas then AreVictims(s.assignments, group, victims, |group| - service.replicas) else victims == {}
    ensures AreExcess(ctx, s, service, victims)
  {
    CountedExactly(ctx, s, service.name);
  }

  // The replicas that placements stand for.
  function Placements(service: Service, now: int, ps: seq<Placement>): seq<Assignment> {
    seq(|ps|, i requires 0 <= i < |ps| => NewReplica(service, ps[i].id, ps[i].nodeId, now))
  }

  lemma {:induction false} PlacedInTurn(ctx: Ctx, service: Service, s: State, ps: seq<Placement>)
    requires Greedy(ctx, service, s, ps)
    ensures var xs := Placements(service, ctx.now, ps);
      && AddReplicas(ctx, service, s, ps) == s.(assignments := With(s.assignments, xs))
      && StartedInTurn(ctx, service, s.nodes, s.assignments, xs)
  {
    hide FirstToTake, IsReplicaOf, IsPick, NewReplica;
    var xs := Placements(service, ctx.now, ps);
    if ps != [] {
      var k := |ps| - 1;
      PlacedInTurn(ctx, service, s, ps[..k]);
      assert xs[..k] == Placements(service, ctx.now, ps[..k]);
      var before := AddReplicas(ctx, service, s, ps[..k]);
      HostExactly(ctx, before, ServiceRequest(service));
      ReplicaExactly(service, ps[k], ctx.now);
    }
  }

  lemma ReplicaExactly(service: Service, p: Placement, now: int)
    ensures var a := NewReplica(service, p.id, p.nodeId, now); a.id == p.id && a.nodeId == p.nodeId && IsReplicaOf(service, now, a)
  {
  }

  lemma StatusTellsReplicas(ctx: Ctx, t: State, service: Service)
    ensures TellsReplicas(ctx, t, service, ServiceStatusOf(ctx, t, service))
  {
    StatusIsExact(ctx, t, service);
    CountedExactly(ctx, t, service.name);
    var ids := Replicas(ctx, t, service.name);
    assert InPhase(t, ids, Pending) == set id | id in ids && t.assignments[id].phase == Pending;
    assert InPhase(t, ids, Running) == set id | id in ids && t.assignments[id].phase == Running;
  }

  /** One service reconciled, undisturbed: exactly the excess goes, Pending before
      Running and younger before older; what is missing is started one by one, with
      the service's template, resources and ports, each on the first node that can
      take it; it stops short of the wanted number only when no node can take one
      more; and the status tells what is there. */
  lemma ServiceRunMeans(ctx: Ctx, service: Service, s: State, t: State) returns (gone: set<string>, xs: seq<Assignment>)
    requires ServiceRun(ctx, service, s, t)
    ensures AreExcess(ctx, s, service, gone)
    ensures t.assignments == With(s.assignments - gone, xs) && StartedInTurn(ctx, service, s.nodes, s.assignments - gone, xs)
    ensures |Counted(ctx, t, service.name)| <= service.replicas
    ensures |Counted(ctx, t, service.name)| < service.replicas ==>
              forall n :: !CanTake(ctx, t.nodes, t.assignments, service.resources, service.requiredLabels, service.ports, n)
    ensures t.nodes == s.nodes && t.jobs == s.jobs && SameBut(s.services, t.services, service.name)
    ensures service.name in t.services <==> service.name in s.services
    ensures service.name in s.services ==>
              && SameServiceSpec(s.services[service.name], t.services[service.name])
              && TellsReplicas(ctx, t, service, t.services[service.name].status)
  {
    hide CanTake, NoHost, ServiceStatusOf, TellsReplicas, AreExcess, StartedInTurn, With, ServiceRun, SameSpecs, SameBut, SameServiceSpec;
    gone, xs := ServiceRunPlaces(ctx, service, s, t);
    ServiceOutcome(ctx, service, s, t);
    CountedExactly(ctx, t, service.name);
    HostExactly(ctx, t, ServiceRequest(service));
    SameTables(ctx, t.(services := s.services), t);
    StatusTellsReplicas(ctx, t, service);
    ServiceFrame(s, t, service.name);
  }

  lemma ServiceFrame(s: State, t: State, name: string)
    requires SameSpecs(s, t) && forall n | n in s.services && n != name :: t.services[n] == s.services[n]
    ensures t.nodes == s.nodes && SameBut(s.services, t.services, name) && (name in t.services <==> name in s.services)
    ensures name in s.services ==> SameServiceSpec(s.services[name], t.services[name])
  {
  }

  // What goes and what is placed.
  lemma ServiceRunPlaces(ctx: Ctx, service: Service, s: State, t: State) returns (gone: set<string>, xs: seq<Assignment>)
    requires ServiceRun(ctx, service, s, t)
    ensures AreExcess(ctx, s, service, gone)
    ensures t.assignments == With(s.assignments - gone, xs) && StartedInTurn(ctx, service, s.nodes, s.assignments - gone, xs)
  {
    hide FirstToTake, CanTake, IsReplicaOf, Greedy, NoHost, AreVictims, ServiceStatusOf, AreExcess, StartedInTurn, With, AddReplicas;
    var victims, ps :| ServiceRunBy(ctx, service, s, t, victims, ps);
    gone, xs := victims, Placements(service, ctx.now, ps);
    VictimsAreExcess(ctx, s, service, victims);
    PlacedInTurn(ctx, service, s.(assignments := s.assignments - victims), ps);
  }

  // --- A job ---------------------------------------------------------------

  function RunsStored(m: map<string, Assignment>, name: string): set<string> {
    set id | id in m && m[id].ownerKind == JobKind && m[id].ownerName == name
  }

  predicate Earlier(a: Assignment, b: Assignment) {
    a.createdAt < b.createdAt || (a.createdAt == b.createdAt && StrLess(a.id, b.id))
  }

  predicate IsFirst(m: map<string, Assignment>, ids: set<string>, id: string) {
    id in ids && id in m && forall k | k in ids && k != id :: k in m && Earlier(m[id], m[k])
  }

  predicate IsLast(m: map<string, Assignment>, ids: set<string>, id: string) {
    id in ids && id in m && forall k | k in ids && k != id :: k in m && Earlier(m[k], m[id])
  }

  // The message of the last of them, if any.
  ghost predicate TellsLast(m: map<string, Assignment>, ids: set<string>, message: string) {
    if ids == {} then message == "" else exists id :: IsLast(m, ids, id) && m[id].message == message
  }

  function RunsWon(m: map<string, Assignment>, name: string): set<string> {
    set id | id in RunsStored(m, name) && m[id].phase == Succeeded
  }

  function RunsLive(ctx: Ctx, nodes: map<string, Node>, m: map<string, Assignment>, name: string): set<string> {
    set id | id in RunsStored(m, name) && UnderWay(m[id]) && InTouch(ctx, nodes, m[id].nodeId)
  }

  // The first success, with the failures before it.
  ghost predicate TellsSuccess(m: map<string, Assignment>, name: string, status: JobStatus) {
    var w := status.lastAssignmentId;
    && IsFirst(m, RunsWon(m, name), w)
    && var before := set id | id in RunsFailed(m, name) && Earlier(m[id], m[w]);
    && status.succeeded && status.activeAssignmentId == "" && status.completedAt == m[w].finishedAt
    && status.failedAttempts == |before| && TellsLast(m, before, status.lastFailure)
  }

  // The run under way, or the last one finished, with all failures so far.
  ghost predicate TellsProgress(ctx: Ctx, nodes: map<string, Node>, m: map<string, Assignment>, name: string, status: JobStatus) {
    var live, failed := RunsLive(ctx, nodes, m, name), RunsFailed(m, name);
    && !status.succeeded && status.completedAt == None && TellsLast(m, failed, status.lastFailure)
    && (if live != {} then
          && IsLast(m, live, status.lastAssignmentId) && status.activeAssignmentId == status.lastAssignmentId
          && status.failedAttempts == Max(|failed|, m[status.lastAssignmentId].attempt - 1)
        else
          && status.activeAssignmentId == "" && status.failedAttempts == |failed|
          && TellsFinished(m, name, status.lastAssignmentId))
  }

  // The run that finished and was created last; of several, the least ID.
  ghost predicate TellsFinished(m: map<string, Assignment>, name: string, id: string) {
    var over := set k | k in RunsStored(m, name) && !UnderWay(m[k]);
    if over == {} then id == "" else
      id in over && forall k | k in over && k != id :: m[k].createdAt < m[id].createdAt || (m[k].createdAt == m[id].createdAt && StrLess(id, k))
  }

  ghost predicate TellsRuns(ctx: Ctx, nodes: map<string, Node>, m: map<string, Assignment>, name: string, status: JobStatus) {
    if RunsWon(m, name) != {} then TellsSuccess(m, name, status) else TellsProgress(ctx, nodes, m, name, status)
  }

  // xs holds the given assignments of m, earliest first.
  ghost predicate InTimeOrder(xs: seq<Assignment>, m: map<string, Assignment>, ids: set<string>) {
    && (forall i, j | 0 <= i < j < |xs| :: Earlier(xs[i], xs[j]))
    && (forall a | a in xs :: a.id in ids && a.id in m && m[a.id] == a)
    && (forall id | id in ids :: id in m && m[id].id == id && m[id] in xs)
  }

  lemma RunsInTimeOrder(s: State, name: string)
    requires Keyed(s)
    ensures InTimeOrder(RunsOf(s, name), s.assignments, RunsStored(s.assignments, name))
  {
    RunsListed(s, name);
    RunsByID(s, name);
  }

  lemma EarlierApart(a: Assignment, b: Assignment)
    requires Earlier(a, b)
    ensures a != b && !Earlier(b, a)
  {
    StrIrreflexive(a.id);
    if Earlier(b, a) && a.createdAt == b.createdAt { StrTransitive(a.id, b.id, a.id); }
  }

  // The failures of a stretch of runs, in time order again.
  lemma FailuresInTimeOrder(xs: seq<Assignment>, m: map<string, Assignment>, ids: set<string>)
    requires InTimeOrder(xs, m, ids)
    ensures InTimeOrder(Failures(xs), m, set id | id in ids && m[id].phase == Failed)
  {
    hide Earlier;
    FilterMembers(xs, HasFailed);
    FilterSorted(xs, HasFailed, Earlier);
  }

  lemma OrderedCount(xs: seq<Assignment>, m: map<string, Assignment>, ids: set<string>)
    requires InTimeOrder(xs, m, ids)
    ensures |xs| == |ids|
  {
    hide Earlier;
    forall i, j | 0 <= i < j < |xs| ensures xs[i].id != xs[j].id {
      EarlierApart(xs[i], xs[j]);
      assert xs[i] in xs && xs[j] in xs;
    }
    CountIds(xs, ids);
  }

  lemma LastIsTold(xs: seq<Assignment>, m: map<string, Assignment>, ids: set<string>)
    requires InTimeOrder(xs, m, ids)
    ensures TellsLast(m, ids, LastMessage(xs))
  {
    hide Earlier;
    if xs == [] {
      assert ids == {};
    } else {
      var last := xs[|xs| - 1];
      assert last in xs;
      forall k | k in ids && k != last.id ensures Earlier(m[k], m[last.id]) {
        assert m[k] in xs;
        var i :| 0 <= i < |xs| && xs[i] == m[k];
      }
      assert IsLast(m, ids, last.id);
    }
  }

  lemma FailuresTold(xs: seq<Assignment>, m: map<string, Assignment>, ids: set<string>)
    requires InTimeOrder(xs, m, ids)
    ensures var failed := set id | id in ids && m[id].phase == Failed;
      |Failures(xs)| == |failed| && TellsLast(m, failed, LastMessage(Failures(xs)))
  {
    hide InTimeOrder, Failures, LastMessage, TellsLast;
    KnownIds(xs, m, ids);
    var failed := set id | id in ids && m[id].phase == Failed;
    FailuresInTimeOrder(xs, m, ids);
    OrderedCount(Failures(xs), m, failed);
    LastIsTold(Failures(xs), m, failed);
  }

  lemma KnownIds(xs: seq<Assignment>, m: map<string, Assignment>, ids: set<string>)
    requires InTimeOrder(xs, m, ids)
    ensures ids <= m.Keys
  {
  }

  lemma {:induction false} FirstWonIsFirst(xs: seq<Assignment>)
    requires FirstWon(xs).Some?
    ensures forall i | 0 <= i < FirstWon(xs).value :: xs[i].phase != Succeeded
  {
    var k := |xs| - 1;
    if FirstWon(xs[..k]).Some? {
      FirstWonIsFirst(xs[..k]);
      assert forall i | 0 <= i < FirstWon(xs).value :: xs[i] == xs[..k][i];
    } else {
      forall i | 0 <= i < k ensures xs[i].phase != Succeeded { assert xs[..k][i] in xs[..k]; }
    }
  }

  lemma {:induction false} LastLiveIsLast(ctx: Ctx, nodes: map<string, Node>, xs: seq<Assignment>) returns (i: nat)
    requires LastLive(ctx, nodes, xs).Some?
    ensures i < |xs| && xs[i] == LastLive(ctx, nodes, xs).value
    ensures forall j | i < j < |xs| :: !IsLiveRun(ctx, nodes, xs[j])
  {
    hide IsLiveRun;
    i := |xs| - 1;
    if !IsLiveRun(ctx, nodes, xs[i]) {
      var k := i;
      i := LastLiveIsLast(ctx, nodes, xs[..k]);
      assert forall j | i < j < k :: xs[j] == xs[..k][j];
    }
  }

  lemma {:induction false} LatestTerminalIsLatest(xs: seq<Assignment>)
    requires forall i, j | 0 <= i < j < |xs| :: Earlier(xs[i], xs[j])
    ensures match LatestTerminal(xs)
      case None => forall a | a in xs :: a.Active()
      case Some(a) =>
        && a in xs && !a.Active()
        && forall x | x in xs && !x.Active() && x != a :: x.createdAt < a.createdAt || (x.createdAt == a.createdAt && StrLess(a.id, x.id))
  {
    if xs != [] {
      var k := |xs| - 1;
      LatestTerminalIsLatest(xs[..k]);
      assert xs == xs[..k] + [xs[k]];
      assert forall x | x in xs[..k] :: Earlier(x, xs[k]);
    }
  }

  // The runs before the k-th.
  lemma RunsBefore(m: map<string, Assignment>, xs: seq<Assignment>, ids: set<string>, k: nat)
    requires InTimeOrder(xs, m, ids) && k < |xs|
    ensures InTimeOrder(xs[..k], m, set id | id in ids && Earlier(m[id], xs[k]))
  {
    hide Earlier;
    forall i, j | 0 <= i < |xs| && 0 <= j < |xs| ensures Earlier(xs[i], xs[j]) <==> i < j {
      if i > j { EarlierApart(xs[j], xs[i]); }
      if i == j { NotEarlier(xs[i]); }
    }
    var before := set id | id in ids && Earlier(m[id], xs[k]);
    forall a | a in xs[..k] ensures a.id in before && a.id in m && m[a.id] == a { assert a in xs; }
    forall id | id in before ensures m[id] in xs[..k] {
      assert m[id] in xs;
      var i :| 0 <= i < |xs| && xs[i] == m[id];
      assert i < k;
    }
  }

  lemma NotEarlier(a: Assignment)
    ensures !Earlier(a, a)
  {
    StrIrreflexive(a.id);
  }

  lemma SuccessTold(m: map<string, Assignment>, xs: seq<Assignment>, name: string, k: nat)
    requires InTimeOrder(xs, m, RunsStored(m, name)) && FirstWon(xs) == Some(k)
    ensures var failed := Failures(xs[..k]);
      TellsSuccess(m, name, JobStatus("", xs[k].id, true, |failed|, LastMessage(failed), xs[k].finishedAt))
  {
    hide TellsLast, Earlier, Failures, LastMessage;
    var w := xs[k].id;
    assert xs[k] in xs;
    RunsBefore(m, xs, RunsStored(m, name), k);
    var ids := set id | id in RunsStored(m, name) && Earlier(m[id], m[w]);
    FailuresTold(xs[..k], m, ids);
    assert (set id | id in ids && m[id].phase == Failed) == set id | id in RunsFailed(m, name) && Earlier(m[id], m[w]);
    FirstWonFirst(m, xs, name, k);
  }

  lemma FirstWonFirst(m: map<string, Assignment>, xs: seq<Assignment>, name: string, k: nat)
    requires InTimeOrder(xs, m, RunsStored(m, name)) && FirstWon(xs) == Some(k)
    ensures IsFirst(m, RunsWon(m, name), xs[k].id)
  {
    hide Earlier;
    FirstWonIsFirst(xs);
    assert xs[k] in xs;
    forall id | id in RunsWon(m, name) && id != xs[k].id ensures Earlier(m[xs[k].id], m[id]) {
      assert m[id] in xs;
      var i :| 0 <= i < |xs| && xs[i] == m[id];
      assert i > k;
    }
  }

  lemma NoneLive(ctx: Ctx, nodes: map<string, Node>, m: map<string, Assignment>, xs: seq<Assignment>, name: string)
    requires InTimeOrder(xs, m, RunsStored(m, name)) && LastLive(ctx, nodes, xs).None?
    ensures RunsLive(ctx, nodes, m, name) == {}
  {
    hide Live, InTouch, Earlier;
    forall id ensures id !in RunsLive(ctx, nodes, m, name) {
      if id in RunsStored(m, name) {
        assert m[id] in xs;
        LiveExactly(ctx, nodes, m[id].nodeId);
      }
    }
  }

  lemma LiveTold(ctx: Ctx, nodes: map<string, Node>, m: map<string, Assignment>, xs: seq<Assignment>, name: string, a: Assignment)
    requires InTimeOrder(xs, m, RunsStored(m, name)) && LastLive(ctx, nodes, xs) == Some(a)
    ensures IsLast(m, RunsLive(ctx, nodes, m, name), a.id) && m[a.id] == a
  {
    hide Live, InTouch, Earlier;
    LiveExactly(ctx, nodes, a.nodeId);
    assert a in xs;
    var i := LastLiveIsLast(ctx, nodes, xs);
    forall id | id in RunsLive(ctx, nodes, m, name) && id != a.id ensures Earlier(m[id], a) {
      assert m[id] in xs;
      var j :| 0 <= j < |xs| && xs[j] == m[id];
      LiveExactly(ctx, nodes, m[id].nodeId);
      assert j < i;
    }
  }

  lemma FinishedTold(m: map<string, Assignment>, xs: seq<Assignment>, name: string)
    requires InTimeOrder(xs, m, RunsStored(m, name))
    ensures TellsFinished(m, name, match LatestTerminal(xs) case None => "" case Some(a) => a.id)
  {
    LatestTerminalIsLatest(xs);
    var over := set k | k in RunsStored(m, name) && !UnderWay(m[k]);
    forall k | k in over ensures m[k] in xs && !m[k].Active() { }
    if LatestTerminal(xs).Some? {
      var a := LatestTerminal(xs).value;
      assert a.id in over;
    }
  }

  /** What the status of a job tells, in any store: the first success and the
      failures before it; else the run under way or the last one finished, all
      failures so far, and the message of the last one. */
  lemma JobStatusTells(ctx: Ctx, s: State, name: string)
    requires Keyed(s)
    ensures TellsRuns(ctx, s.nodes, s.assignments, name, JobStatusOf(ctx, s, name))
  {
    hide TellsSuccess, TellsProgress, Keyed, RunsOf, InTimeOrder, RunsStored, Failures, LastMessage;
    var m, xs := s.assignments, RunsOf(s, name);
    RunsInTimeOrder(s, name);
    var first := FirstWon(xs);
    if first.Some? {
      SuccessTold(m, xs, name, first.value);
      SomeWon(m, xs, name, first.value);
    } else {
      NoneWon(m, xs, name);
      ProgressTold(ctx, s.nodes, m, xs, name);
    }
  }

  lemma ProgressTold(ctx: Ctx, nodes: map<string, Node>, m: map<string, Assignment>, xs: seq<Assignment>, name: string)
    requires InTimeOrder(xs, m, RunsStored(m, name)) && FirstWon(xs).None?
    ensures TellsProgress(ctx, nodes, m, name, StatusFrom(ctx, nodes, xs))
  {
    hide TellsLast, TellsFinished, IsLast, InTouch, Live, InTimeOrder, Failures, LastMessage, LastLive, LatestTerminal, FirstWon;
    FailuresTold(xs, m, RunsStored(m, name));
    assert (set id | id in RunsStored(m, name) && m[id].phase == Failed) == RunsFailed(m, name);
    FinishedTold(m, xs, name);
    var live := LastLive(ctx, nodes, xs);
    if live.Some? {
      LiveTold(ctx, nodes, m, xs, name, live.value);
      LiveIsThere(ctx, nodes, m, name, live.value.id);
    } else {
      NoneLive(ctx, nodes, m, xs, name);
    }
  }

  lemma SomeWon(m: map<string, Assignment>, xs: seq<Assignment>, name: string, k: nat)
    requires InTimeOrder(xs, m, RunsStored(m, name)) && FirstWon(xs) == Some(k)
    ensures RunsWon(m, name) != {}
  {
    assert xs[k] in xs && xs[k].id in RunsWon(m, name);
  }

  lemma LiveIsThere(ctx: Ctx, nodes: map<string, Node>, m: map<string, Assignment>, name: string, id: string)
    ensures IsLast(m, RunsLive(ctx, nodes, m, name), id) ==> RunsLive(ctx, nodes, m, name) != {} && id in m
  {
  }

  lemma NoneWon(m: map<string, Assignment>, xs: seq<Assignment>, name: string)
    requires InTimeOrder(xs, m, RunsStored(m, name)) && FirstWon(xs).None?
    ensures RunsWon(m, name) == {}
  {
    forall id ensures id !in RunsWon(m, name) { if id in RunsStored(m, name) { assert m[id] in xs; } }
  }

  /** One job reconciled, undisturbed: a run is started exactly if the job needs one
      (no success, none under way on a node in touch, retries left) and some node can
      take it; it has the job's template and resources and the number after the
      failed ones, and is on the first such node; nothing else of the assignments
      changes, and the status tells the runs there are. */
  lemma JobRunMeans(ctx: Ctx, job: Job, s: State, t: State) returns (started: Option<Assignment>)
    requires JobRun(ctx, job, s, t) && Keyed(s)
    ensures started.Some? <==>
      && NeedsRun(ctx, s.nodes, s.assignments, job)
      && exists n :: CanTake(ctx, s.nodes, s.assignments, job.resources, job.requiredLabels, [], n)
    ensures started.Some? ==> var a := started.value;
      && a.id !in s.assignments && IsRunOf(job, |RunsFailed(s.assignments, job.name)| + 1, ctx.now, a)
      && FirstToTake(ctx, s.nodes, s.assignments, job.resources, job.requiredLabels, [], a.nodeId)
    ensures t.assignments == if started.Some? then s.assignments[started.value.id := started.value] else s.assignments
    ensures t.nodes == s.nodes && t.services == s.services && SameBut(s.jobs, t.jobs, job.name)
    ensures job.name in t.jobs <==> job.name in s.jobs
    ensures job.name in s.jobs ==>
              && SameJobSpec(s.jobs[job.name], t.jobs[job.name])
              && TellsRuns(ctx, t.nodes, t.assignments, job.name, t.jobs[job.name].status)
  {
    hide FirstToTake, CanTake, IsRunOf, NeedsRun, TellsRuns, JobRun, SameSpecs, SameBut, SameJobSpec, JobStatusOf, JobSettled;
    started := JobRunStarts(ctx, job, s, t);
    JobOutcome(ctx, job, s, t);
    JobFrame(s, t, job.name);
    StillKeyed(ctx, job, s, t);
    JobStatusTells(ctx, t, job.name);
  }

  lemma JobFrame(s: State, t: State, name: string)
    requires SameSpecs(s, t) && forall n | n in s.jobs && n != name :: t.jobs[n] == s.jobs[n]
    ensures t.nodes == s.nodes && SameBut(s.jobs, t.jobs, name) && (name in t.jobs <==> name in s.jobs)
    ensures name in s.jobs ==> SameJobSpec(s.jobs[name], t.jobs[name])
  {
  }

  // Whether a run is started, and which.
  lemma JobRunStarts(ctx: Ctx, job: Job, s: State, t: State) returns (started: Option<Assignment>)
    requires JobRun(ctx, job, s, t) && Keyed(s)
    ensures started.Some? <==>
      && NeedsRun(ctx, s.nodes, s.assignments, job)
      && exists n :: CanTake(ctx, s.nodes, s.assignments, job.resources, job.requiredLabels, [], n)
    ensures started.Some? ==> var a := started.value;
      && a.id !in s.assignments && IsRunOf(job, |RunsFailed(s.assignments, job.name)| + 1, ctx.now, a)
      && FirstToTake(ctx, s.nodes, s.assignments, job.resources, job.requiredLabels, [], a.nodeId)
    ensures t.assignments == if started.Some? then s.assignments[started.value.id := started.value] else s.assignments
  {
    hide FirstToTake, CanTake, IsRunOf, NoHost, NeedsRun, RunsOf, JobStatusOf, IsPick, Failures, FirstWon, LastLive, RunsFailed, NewRun;
    var p :| JobRunBy(ctx, job, s, t, p);
    NeedExactly(ctx, s.nodes, s, job);
    HostExactly(ctx, s, JobRequest(job));
    started := None;
    if p.Some? {
      var attempt := |Failures(RunsOf(s, job.name))| + 1;
      started := Some(NewRun(job, attempt, p.value.id, p.value.nodeId, ctx.now));
      RunExactly(job, attempt, p.value, ctx.now);
    }
  }

  lemma RunExactly(job: Job, attempt: int, p: Placement, now: int)
    ensures var a := NewRun(job, attempt, p.id, p.nodeId, now); a.id == p.id && a.nodeId == p.nodeId && IsRunOf(job, attempt, now, a)
  {
  }

  lemma StillKeyed(ctx: Ctx, job: Job, s: State, t: State)
    requires JobRun(ctx, job, s, t) && Keyed(s)
    ensures Keyed(t)
  {
    hide RunsOf, JobStatusOf, IsPick, JobSettled, Failures, Keyed, NewRun;
    var p :| JobRunBy(ctx, job, s, t, p);
    if p.Some? {
      var a := NewRun(job, |Failures(RunsOf(s, job.name))| + 1, p.value.id, p.value.nodeId, ctx.now);
      RunExactly(job, |Failures(RunsOf(s, job.name))| + 1, p.value, ctx.now);
      KeepsKeys(s, SaveAssignment(a));
      KeepsKeys(Apply(s, SaveAssignment(a)), UpdateJobStatus(job.name, JobStatusOf(ctx, Apply(s, SaveAssignment(a)), job.name)));
    } else {
      KeepsKeys(s, UpdateJobStatus(job.name, JobStatusOf(ctx, s, job.name)));
    }
  }

  // --- A whole tick --------------------------------------------------------

  // a was started in a tick that began with these services and jobs.
  predicate IsStarted(ctx: Ctx, s: State, a: Assignment) {
    && InTouch(ctx, s.nodes, a.nodeId)
    && (|| (a.ownerName in s.services && IsReplicaOf(s.services[a.ownerName], ctx.now, a))
        || (a.ownerName in s.jobs && IsRunOf(s.jobs[a.ownerName], a.attempt, ctx.now, a)))
  }

  predicate MayBeExcess(ctx: Ctx, s: State, a: Assignment) {
    a.ownerKind == ServiceKind && UnderWay(a) && InTouch(ctx, s.nodes, a.nodeId)
  }

  // The turns of services and jobs: what is there is kept, but for excess replicas;
  // what is new was started for its owner.
  ghost predicate Turned(ctx: Ctx, s: State, t: State) {
    && SameSpecs(s, t)
    && (forall id | id in s.assignments ::
          (id in t.assignments && t.assignments[id] == s.assignments[id]) || MayBeExcess(ctx, s, s.assignments[id]))
    && (forall id | id in t.assignments ::
          (id in s.assignments && t.assignments[id] == s.assignments[id]) || IsStarted(ctx, s, t.assignments[id]))
  }

  lemma TurnedTrans(ctx: Ctx, s: State, t: State, u: State)
    requires Turned(ctx, s, t) && Turned(ctx, t, u)
    ensures Turned(ctx, s, u)
  {
    hide InTouch, IsStarted, SameSpecs;
    TurnedNodes(s, t);
    SameSpecsTrans(s, t, u);
    forall id | id in u.assignments ensures (id in s.assignments && u.assignments[id] == s.assignments[id]) || IsStarted(ctx, s, u.assignments[id]) {
      if IsStarted(ctx, t, u.assignments[id]) { StillStarted(ctx, s, t, u.assignments[id]); }
    }
  }

  lemma TurnedNodes(s: State, t: State)
    requires SameSpecs(s, t)
    ensures t.nodes == s.nodes
  {
  }

  lemma StillStarted(ctx: Ctx, s: State, t: State, a: Assignment)
    requires SameSpecs(s, t) && IsStarted(ctx, t, a)
    ensures IsStarted(ctx, s, a)
  {
  }

  lemma ServiceTurned(ctx: Ctx, service: Service, s: State, t: State)
    requires ServiceRun(ctx, service, s, t) && service.name in s.services && s.services[service.name] == service
    ensures Turned(ctx, s, t)
  {
    hide NoHost, Replicas, ServiceStatusOf, InTouch, Live, NewReplica;
    ServiceOutcome(ctx, service, s, t);
    forall n ensures Live(ctx, s.nodes, n) <==> InTouch(ctx, s.nodes, n) { LiveExactly(ctx, s.nodes, n); }
    forall id | id in t.assignments && id !in s.assignments ensures IsStarted(ctx, s, t.assignments[id]) {
      assert IsNewReplica(ctx, service, s, t.assignments[id]);
      ReplicaExactly(service, Placement(id, t.assignments[id].nodeId), ctx.now);
    }
    var gone, xs := ServiceRunMeans(ctx, service, s, t);
    forall id | id in s.assignments && id !in t.assignments ensures MayBeExcess(ctx, s, s.assignments[id]) {
      WithKeeps(s.assignments - gone, xs);
      assert id in Counted(ctx, s, service.name);
    }
  }

  lemma {:induction false} WithKeeps(m: map<string, Assignment>, xs: seq<Assignment>)
    ensures m.Keys <= With(m, xs).Keys
  {
    if xs != [] { WithKeeps(m, xs[..|xs| - 1]); }
  }

  lemma JobTurned(ctx: Ctx, job: Job, s: State, t: State)
    requires JobRun(ctx, job, s, t) && Keyed(s) && job.name in s.jobs && s.jobs[job.name] == job
    ensures Turned(ctx, s, t)
  {
    hide CanTake, NeedsRun, TellsRuns, JobRun, InTouch, JobSettled, JobStatusOf;
    JobOutcome(ctx, job, s, t);
    var started := JobRunMeans(ctx, job, s, t);
    if started.Some? { FirstIsInTouch(ctx, s, job, started.value.nodeId); }
  }

  lemma FirstIsInTouch(ctx: Ctx, s: State, job: Job, n: string)
    requires FirstToTake(ctx, s.nodes, s.assignments, job.resources, job.requiredLabels, [], n)
    ensures InTouch(ctx, s.nodes, n)
  {
  }

  lemma TurnedRefl(ctx: Ctx, s: State)
    ensures Turned(ctx, s, s)
  {
  }

  lemma {:induction false} ServicesTurned(ctx: Ctx, services: seq<Service>, run: seq<State>, k: nat)
    requires ServicesRun(ctx, services, run) && k <= |services|
    requires Good(ctx, run[0]) && ServicesAhead(run[0], services, 0)
    ensures Turned(ctx, run[0], run[k])
  {
    hide ServiceRun, Turned, Good, ServicesAhead;
    if k == 0 {
      TurnedRefl(ctx, run[0]);
    } else {
      ServicesTurned(ctx, services, run, k - 1);
      ServicesStage(ctx, services, run, k - 1);
      NextService(run[k - 1], services, k - 1);
      assert ServiceRun(ctx, services[k - 1], run[k - 1], run[k]);
      ServiceTurned(ctx, services[k - 1], run[k - 1], run[k]);
      TurnedTrans(ctx, run[0], run[k - 1], run[k]);
    }
  }

  lemma {:induction false} JobsTurned(ctx: Ctx, jobs: seq<Job>, run: seq<State>, k: nat)
    requires JobsRun(ctx, jobs, run) && k <= |jobs|
    requires Good(ctx, run[0]) && JobsAhead(run[0], jobs, 0) && forall n :: ServiceOK(ctx, run[0], n)
    ensures Turned(ctx, run[0], run[k])
  {
    hide JobRun, Turned, Good, JobsAhead, ServiceOK, ServiceFull;
    if k == 0 {
      TurnedRefl(ctx, run[0]);
    } else {
      JobsTurned(ctx, jobs, run, k - 1);
      JobsStage(ctx, jobs, run, k - 1);
      NextJob(run[k - 1], jobs, k - 1);
      assert JobRun(ctx, jobs[k - 1], run[k - 1], run[k]);
      KeyedIfGood(ctx, run[k - 1]);
      JobTurned(ctx, jobs[k - 1], run[k - 1], run[k]);
      TurnedTrans(ctx, run[0], run[k - 1], run[k]);
    }
  }

  lemma KeyedIfGood(ctx: Ctx, s: State)
    requires Good(ctx, s)
    ensures Keyed(s)
  {
  }

  // What a tick makes of an assignment it finds: Lost if it is under way on a node
  // out of touch, else kept as it is, or dropped as excess.
  ghost predicate Accounted(ctx: Ctx, s: State, t: State, id: string)
    requires id in s.assignments
  {
    var a := s.assignments[id];
    if UnderWay(a) && !InTouch(ctx, s.nodes, a.nodeId) then
      id in t.assignments && StatusMoved(a, Lost, "node " + a.nodeId + " stopped heartbeating", ctx.now, t.assignments[id])
    else (id in t.assignments && t.assignments[id] == a) || MayBeExcess(ctx, s, a)
  }

  lemma MarkedExactly(ctx: Ctx, s: State)
    ensures var m := MarkedLost(ctx, s);
      && m == s.(assignments := m.assignments) && m.assignments.Keys == s.assignments.Keys
      && forall id | id in s.assignments :: var a := s.assignments[id];
           if UnderWay(a) && !InTouch(ctx, s.nodes, a.nodeId)
           then StatusMoved(a, Lost, "node " + a.nodeId + " stopped heartbeating", ctx.now, m.assignments[id])
           else m.assignments[id] == a
  {
    hide InTouch, Live, StatusMoved, ApplyStatus;
    forall id | id in s.assignments ensures var a := s.assignments[id]; var b := MarkedLost(ctx, s).assignments[id];
      if UnderWay(a) && !InTouch(ctx, s.nodes, a.nodeId)
      then StatusMoved(a, Lost, "node " + a.nodeId + " stopped heartbeating", ctx.now, b) else b == a
    {
      LiveExactly(ctx, s.nodes, s.assignments[id].nodeId);
      StatusExactly(s.assignments[id], Lost, LostMessage(s.assignments[id].nodeId), ctx.now);
    }
  }

  lemma TickTurned(ctx: Ctx, s: State, t: State)
    requires Tick(ctx, s, t) && Keyed(s) && Quantities(s)
    ensures Turned(ctx, MarkedLost(ctx, s), t)
  {
    hide ServicesRun, JobsRun, Turned, Good, ServiceOK, ServiceFull, NoExcess, MarkedLost, ServicesAhead, JobsAhead, JobDone, JobCurrent, SameSpecs;
    var run1: seq<State>, run2: seq<State> :| TickBy(ctx, s, t, run1, run2);
    var services, jobs := Listing(run1[0].services.Values, ServiceLess), Listing(run2[0].jobs.Values, JobLess);
    MarkingMakesGood(ctx, s);
    KeyedIfGood(ctx, run1[0]);
    ListedServices(run1[0]);
    Lengths(ctx, services, run1, jobs, run2);
    ServicesTurned(ctx, services, run1, |services|);
    ServicesOutcome(ctx, run1[0], run1);
    KeyedIfGood(ctx, run2[0]);
    ListedJobs(run2[0]);
    JobsTurned(ctx, jobs, run2, |jobs|);
    TurnedTrans(ctx, run1[0], run2[0], t);
  }

  lemma Lengths(ctx: Ctx, services: seq<Service>, run1: seq<State>, jobs: seq<Job>, run2: seq<State>)
    requires ServicesRun(ctx, services, run1) && JobsRun(ctx, jobs, run2)
    ensures |run1| == |services| + 1 && |run2| == |jobs| + 1
  {
  }

  /** One undisturbed tick accounts for every assignment. Work under way becomes
      Lost, at the tick's time and with its node named, exactly if the node is
      unknown or silent for longer than the timeout, from its heartbeat and from the
      controller's start; all else is kept untouched, but for excess replicas; and
      what is new was started for a service or job there was, as it asks, on a node
      in touch. */
  lemma TickMeans(ctx: Ctx, s: State, t: State)
    requires Tick(ctx, s, t) && Keyed(s) && Quantities(s)
    ensures forall id | id in s.assignments :: Accounted(ctx, s, t, id)
    ensures forall id | id in t.assignments ::
              || (id in s.assignments && (t.assignments[id] == s.assignments[id] || t.assignments[id].phase == Lost))
              || IsStarted(ctx, s, t.assignments[id])
    ensures forall id | id in t.assignments :: t.assignments[id].phase == Lost <==>
      && id in s.assignments
      && (s.assignments[id].phase == Lost || (UnderWay(s.assignments[id]) && !InTouch(ctx, s.nodes, s.assignments[id].nodeId)))
  {
    hide Tick, InTouch, MarkedLost;
    TickTurned(ctx, s, t);
    MarkedExactly(ctx, s);
    var m := MarkedLost(ctx, s);
    forall a | IsStarted(ctx, m, a) ensures IsStarted(ctx, s, a) && a.phase == Pending { }
  }
}
