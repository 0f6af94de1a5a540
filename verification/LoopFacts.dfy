/** Facts about store values that the reconcile loop's steps rest on: what each
    step may assume of lists read earlier, and what it leaves behind. */
module LoopFacts {
  import opened Order
  import opened Api
  import opened Load
  import opened StoreState
  import opened Discipline
  import opened Scheduling
  import opened MemoryStores
  import opened Handlers
  import opened Reconciling
  import opened Outcomes
  import opened Interference
  import opened Requirements

  // --- Lists ---------------------------------------------------------------

  function LiveIds(ctx: Ctx, nodes: map<string, Node>): set<string> {
    set n | n in nodes && Live(ctx, nodes, n)
  }

  // The assignments of a service that are active and on one of the given nodes.
  function ReplicasOn(m: map<string, Assignment>, live: set<string>, name: string): set<string> {
    set id | id in m && m[id].OwnedBy(ServiceKind, name) && m[id].Active() && m[id].nodeId in live
  }

  ghost predicate ListsNodes(xs: seq<Node>, nodes: map<string, Node>) {
    && (forall x | x in xs :: x.id in nodes && nodes[x.id] == x)
    && (forall n | n in nodes :: nodes[n] in xs)
  }

  // xs holds, once each, the assignments of m with the given IDs.
  ghost predicate ListsIds(xs: seq<Assignment>, m: map<string, Assignment>, ids: set<string>) {
    && (forall i, j | 0 <= i < j < |xs| :: xs[i].id != xs[j].id)
    && (forall a | a in xs :: a.id in ids && a.id in m && m[a.id] == a)
    && (forall id | id in ids :: id in m && m[id].id == id && m[id] in xs)
    && |xs| == |ids|
  }

  function Ids(xs: seq<Assignment>): set<string> { set a | a in xs :: a.id }

  lemma IdsStep(xs: seq<Assignment>, i: nat)
    requires i < |xs|
    ensures Ids(xs[..i + 1]) == Ids(xs[..i]) + {xs[i].id} && xs[i] in xs
  {
    assert xs[..i + 1] == xs[..i] + [xs[i]];
  }

  lemma SameIdSame(xs: seq<Assignment>, a: Assignment, b: Assignment)
    requires forall i, j | 0 <= i < j < |xs| :: xs[i].id != xs[j].id
    requires a in xs && b in xs && VictimLess(a, b)
    ensures a.id != b.id
  {
    if a == b { StrIrreflexive(a.id); }
  }

  lemma VictimOrder()
    ensures StrictOrder(VictimLess)
  {
    forall a ensures !VictimLess(a, a) { StrIrreflexive(a.id); }
    forall a, b, c | VictimLess(a, b) && VictimLess(b, c) ensures VictimLess(a, c) {
      if a.phase == b.phase == c.phase && a.createdAt == b.createdAt == c.createdAt { StrTransitive(c.id, b.id, a.id); }
    }
  }

  lemma VictimSort(xs: seq<Assignment>)
    requires forall i, j | 0 <= i < j < |xs| :: xs[i].id != xs[j].id
    requires forall a | a in xs :: a.Active()
    ensures SortedBy(Sort(xs, VictimLess), VictimLess)
    ensures forall x :: x in Sort(xs, VictimLess) <==> x in xs
    ensures |Sort(xs, VictimLess)| == |xs|
  {
    VictimOrder();
    forall a, b | a in xs && b in xs && a != b ensures VictimLess(a, b) || VictimLess(b, a) {
      var i :| 0 <= i < |xs| && xs[i] == a;
      var j :| 0 <= j < |xs| && xs[j] == b;
      StrTotal(a.id, b.id);
    }
    SortLists(xs, VictimLess);
  }

  lemma ActiveListed(xs: seq<Assignment>, m: map<string, Assignment>, name: string, live: set<string>, p: Assignment -> bool)
    requires forall id | id in m :: m[id].id == id
    requires IsListing(xs, Owned(m, ServiceKind, name), AssignmentLess)
    requires forall a :: p(a) <==> a.Active() && a.nodeId in live
    ensures ListsIds(Filter(xs, p), m, ReplicasOn(m, live, name))
  {
    var r, ids := Filter(xs, p), ReplicasOn(m, live, name);
    ApiOrders();
    FilterMembers(xs, p);
    FilterSorted(xs, p, AssignmentLess);
    forall a | a in r ensures a.id in ids && m[a.id] == a { assert a in Owned(m, ServiceKind, name); }
    forall id | id in ids ensures m[id] in r { assert m[id] in Owned(m, ServiceKind, name); }
    forall i, j | 0 <= i < j < |r| ensures r[i].id != r[j].id {
      assert AssignmentLess(r[i], r[j]) && r[i] in r && r[j] in r;
    }
    CountIds(r, ids);
  }

  lemma {:induction false} CountIds(xs: seq<Assignment>, ids: set<string>)
    requires forall i, j | 0 <= i < j < |xs| :: xs[i].id != xs[j].id
    requires forall id :: id in ids <==> exists a | a in xs :: a.id == id
    ensures |xs| == |ids|
  {
    if xs != [] {
      var x, t := xs[0], xs[1..];
      forall id ensures id in ids - {x.id} <==> exists a | a in t :: a.id == id {
        if id in ids - {x.id} { var a :| a in xs && a.id == id; assert a in t; }
        if a :| a in t && a.id == id { var i :| 0 <= i < |t| && t[i] == a; assert xs[i + 1] == a; }
      }
      assert x in xs;
      CountIds(t, ids - {x.id});
    } else {
      assert ids == {};
    }
  }

  lemma NotSeenBefore(xs: seq<Assignment>, i: nat, m: map<string, Assignment>)
    requires i < |xs| && SortedBy(xs, AssignmentLess)
    requires forall a | a in xs :: a.id in m && m[a.id] == a
    ensures forall a | a in xs[..i] :: a.id != xs[i].id
  {
    ApiOrders();
    forall a | a in xs[..i] ensures a.id != xs[i].id {
      var j :| 0 <= j < i && xs[j] == a;
      assert AssignmentLess(xs[j], xs[i]);
      assert a in xs && xs[i] in xs;
    }
  }

  lemma OneMoreInPhase(s: State, seen: set<string>, id: string)
    requires id !in seen && id in s.assignments
    ensures forall phase :: |InPhase(s, seen + {id}, phase)|
                         == |InPhase(s, seen, phase)| + if s.assignments[id].phase == phase then 1 else 0
  {
    forall phase ensures |InPhase(s, seen + {id}, phase)|
                         == |InPhase(s, seen, phase)| + if s.assignments[id].phase == phase then 1 else 0
    {
      assert InPhase(s, seen + {id}, phase) == InPhase(s, seen, phase) + if s.assignments[id].phase == phase then {id} else {};
    }
  }

  // --- The tick's own trace ------------------------------------------------

  // All operations so far were guarded; those of the present tick are accounted
  // for, and what they saved was called for.
  ghost predicate InTick(mode: Mode, ctx: Ctx, origin: World, ops: seq<Op>, since: nat) {
    InOrder(mode, origin, ops, since) && SavesDue(ctx, origin, ops, since)
  }

  lemma TickBegins(mode: Mode, ctx: Ctx, origin: World, ops: seq<Op>)
    requires Disciplined(Strict(mode), origin, ops)
    ensures InTick(mode, ctx, origin, ops, |ops|)
  {
    BeginsInOrder(mode, origin, ops);
  }

  lemma InTickStep(mode: Mode, ctx: Ctx, origin: World, ops: seq<Op>, since: nat, op: Op)
    requires InTick(mode, ctx, origin, ops, since) && WorldInv(Strict(mode), Replay(origin, ops))
    requires Guarded(Strict(mode), Replay(origin, ops), op) && Allowed(mode, Replay(origin, ops).store, op)
    requires op.SaveAssignment? ==> SaveDue(ctx, origin, ops, since, op.assignment)
    ensures InTick(mode, ctx, origin, ops + [op], since) && WorldInv(Strict(mode), Replay(origin, ops + [op]))
  {
    hide InOrder, SavesDue, SaveDue, WorldInv, Guarded, Allowed, Replay;
    InOrderStep(mode, origin, ops, since, op);
    SavesDueStep(ctx, origin, ops, since, op);
  }

  /** A finished tick, told from its own start. */
  lemma TickEnds(mode: Mode, ctx: Ctx, origin: World, ops: seq<Op>, since: nat)
    requires InTick(mode, ctx, origin, ops, since)
    ensures since <= |ops| && Disciplined(Strict(mode), origin, ops)
    ensures IsTrace(mode, Replay(origin, ops[..since]), ops[since..], Replay(origin, ops))
    ensures SavesDue(ctx, Replay(origin, ops[..since]), ops[since..], 0)
  {
    hide SavesDue, Accounted, Disciplined, IsTrace, Replay;
    TraceSince(mode, origin, ops, since);
    WasInOrder(mode, origin, ops, since);
    SavesDueFrom(ctx, origin, ops, since);
  }

  lemma BeganBefore(mode: Mode, ctx: Ctx, origin: World, ops: seq<Op>, since: nat)
    requires InTick(mode, ctx, origin, ops, since)
    ensures since <= |ops|
  {
  }

  lemma MayPlaceIsGuarded(mode: Mode, w: World, a: Assignment)
    requires MayPlace(Strict(mode), w, a)
    ensures Guarded(Strict(mode), w, SaveAssignment(a)) && Allowed(mode, w.store, SaveAssignment(a))
  {
  }

  lemma StoreIsNow(origin: World, ops: seq<Op>)
    ensures StoreAt(origin, ops, |ops|) == Replay(origin, ops).store
  {
    assert ops[..|ops|] == ops;
  }

  // The scheduler's pick from what was read after ops and after more.
  lemma ChosenNow(ctx: Ctx, origin: World, ops: seq<Op>, more: seq<Op>, since: nat, nodesRead: State, listRead: State,
                  request: Request, n: string)
    requires since <= |ops| && ops <= more
    requires nodesRead == Replay(origin, ops).store && listRead == Replay(origin, more).store
    requires Fits(ctx.now, ctx.timeout, GracedNodes(ctx, nodesRead.nodes), listRead.assignments, request, n)
    requires forall k | Fits(ctx.now, ctx.timeout, GracedNodes(ctx, nodesRead.nodes), listRead.assignments, request, k) :: !StrLess(k, n)
    ensures Chosen(ctx, origin, more, since, request.resources, request.requiredLabels, request.ports, n)
  {
    hide Fits, FirstToTake, Replay;
    PickExactly(ctx, nodesRead.nodes, listRead.assignments, request, n);
    StoreIsNow(origin, ops);
    StoreStillAt(origin, ops, more, |ops|);
    StoreIsNow(origin, more);
    assert FirstToTake(ctx, StoreAt(origin, more, |ops|).nodes, StoreAt(origin, more, |more|).assignments,
                       request.resources, request.requiredLabels, request.ports, n);
  }

  lemma ReplicaIsDue(ctx: Ctx, origin: World, ops: seq<Op>, since: nat, service: Service, a: Assignment)
    requires ServiceWas(origin, ops, since, service) && a == NewReplica(service, a.id, a.nodeId, ctx.now)
    requires Chosen(ctx, origin, ops, since, service.resources, service.requiredLabels, service.ports, a.nodeId)
    ensures SaveDue(ctx, origin, ops, since, a)
  {
    hide Chosen, ServiceWas;
    assert ReplicaDue(ctx, origin, ops, since, service, a);
  }

  lemma RunIsDue(ctx: Ctx, origin: World, ops: seq<Op>, since: nat, job: Job, a: Assignment)
    requires JobWas(origin, ops, since, job) && a == NewRun(job, a.attempt, a.id, a.nodeId, ctx.now)
    requires RunNeeded(ctx, origin, ops, since, job, a.attempt)
    requires Chosen(ctx, origin, ops, since, job.resources, job.requiredLabels, [], a.nodeId)
    ensures SaveDue(ctx, origin, ops, since, a)
  {
    hide Chosen, JobWas, RunNeeded;
    assert RunDue(ctx, origin, ops, since, job, a);
  }

  /** The pass over the runs leaves it to the scheduler exactly if the job needs a run. */
  lemma NeedExactly(ctx: Ctx, nodes: map<string, Node>, s: State, job: Job)
    requires Keyed(s)
    ensures RunsDecide(ctx, job, nodes, RunsOf(s, job.name)) <==> !NeedsRun(ctx, nodes, s.assignments, job)
    ensures |Failures(RunsOf(s, job.name))| == |RunsFailed(s.assignments, job.name)|
  {
    hide Live, InTouch;
    var list := RunsOf(s, job.name);
    RunsByID(s, job.name);
    FailuresListed(s, job.name);
    assert RunsFailed(s.assignments, job.name) == FailedIds(s.assignments, job.name);
    forall n ensures Live(ctx, nodes, n) <==> InTouch(ctx, nodes, n) { LiveExactly(ctx, nodes, n); }
    if NeedsRun(ctx, nodes, s.assignments, job) {
      forall a | a in list ensures a.phase != Succeeded && !IsLiveRun(ctx, nodes, a) { assert s.assignments[a.id] == a; }
    } else if |RunsFailed(s.assignments, job.name)| <= job.retries {
      var id :| id in s.assignments && s.assignments[id].ownerKind == JobKind && s.assignments[id].ownerName == job.name
        && (s.assignments[id].phase == Succeeded || (UnderWay(s.assignments[id]) && InTouch(ctx, nodes, s.assignments[id].nodeId)));
      assert s.assignments[id] in list;
    }
  }

  lemma RunIsNeeded(ctx: Ctx, origin: World, ops: seq<Op>, more: seq<Op>, since: nat, job: Job, read: State, seen: State, list: seq<Assignment>)
    requires since <= |ops| && ops <= more && Keyed(read)
    requires read == Replay(origin, ops).store && seen == Replay(origin, more).store
    requires list == RunsOf(read, job.name) && !RunsDecide(ctx, job, seen.nodes, list)
    ensures RunNeeded(ctx, origin, more, since, job, |Failures(list)| + 1)
  {
    hide RunsDecide, NeedsRun, Replay;
    NeedExactly(ctx, seen.nodes, read, job);
    StoreIsNow(origin, ops);
    StoreStillAt(origin, ops, more, |ops|);
    StoreIsNow(origin, more);
    assert NeedsNumber(ctx, StoreAt(origin, more, |more|).nodes, StoreAt(origin, more, |ops|).assignments, job, |Failures(list)| + 1);
  }

  // All work under way is on nodes in touch.
  ghost predicate AllInTouch(ctx: Ctx, s: State) {
    forall id | id in s.assignments && UnderWay(s.assignments[id]) :: InTouch(ctx, s.nodes, s.assignments[id].nodeId)
  }

  lemma ActiveInTouch(ctx: Ctx, s: State)
    ensures AllActiveLive(ctx, s) <==> AllInTouch(ctx, s)
  {
    hide Live, InTouch;
    forall id | id in s.assignments ensures Live(ctx, s.nodes, s.assignments[id].nodeId) <==> InTouch(ctx, s.nodes, s.assignments[id].nodeId) {
      LiveExactly(ctx, s.nodes, s.assignments[id].nodeId);
    }
  }

  // --- Facts about the loop's own steps ------------------------------------

  // What still holds after any step of the loop or of the handlers.
  ghost predicate Onward(strict: bool, s: State, t: State) {
    && NodesGrow(s, t)
    && (forall name :: KeepsJob(name, s, t))
    && KeepsAllOwners(strict, s, t)
    && NoNewLost(s, t)
  }

  lemma OnwardTrans(strict: bool, s: State, t: State, u: State)
    requires Onward(strict, s, t) && Onward(strict, t, u)
    ensures Onward(strict, s, u)
  {
    NodesGrowTrans(s, t, u);
    forall name ensures KeepsJob(name, s, u) { KeepsJobTrans(name, s, t, u); }
  }

  lemma GracedNodesListed(ctx: Ctx, xs: seq<Node>, s: State)
    requires Keyed(s) && ListsNodes(xs, GracedNodes(ctx, s.nodes))
    ensures (set x | x in xs && IsLive(ctx.now, ctx.timeout, x) :: x.id) == LiveIds(ctx, s.nodes)
  {
    var nodes := GracedNodes(ctx, s.nodes);
    forall n ensures n in LiveIds(ctx, s.nodes) <==> exists x | x in xs && IsLive(ctx.now, ctx.timeout, x) :: x.id == n {
      if n in LiveIds(ctx, s.nodes) { assert nodes[n] in xs && nodes[n].id == n; }
    }
  }

  /** The scheduler's choice from listings is the pick of the tables they list. */
  lemma ChoiceIsPick(ctx: Ctx, nodes: seq<Node>, xs: seq<Assignment>, nodesRead: State, listRead: State,
                     request: Request, r: Option<string>)
    requires Keyed(nodesRead) && Keyed(listRead)
    requires ListsNodes(nodes, GracedNodes(ctx, nodesRead.nodes))
    requires IsListing(xs, All(listRead.assignments), AssignmentLess)
    requires IsChoice(ctx.now, ctx.timeout, nodes, xs, request, r)
    ensures var table := GracedNodes(ctx, nodesRead.nodes);
      match r
      case None => forall n :: !Fits(ctx.now, ctx.timeout, table, listRead.assignments, request, n)
      case Some(id) =>
        && Fits(ctx.now, ctx.timeout, table, listRead.assignments, request, id)
        && forall n | Fits(ctx.now, ctx.timeout, table, listRead.assignments, request, n) :: !StrLess(n, id)
  {
    var table := GracedNodes(ctx, nodesRead.nodes);
    ListingIsTable(xs, listRead);
    forall n | n in table
      ensures table[n] in nodes
      ensures Eligible(ctx.now, ctx.timeout, table[n], xs, request)
         <==> Fits(ctx.now, ctx.timeout, table, listRead.assignments, request, n)
    {
      EligibleIsFits(ctx.now, ctx.timeout, table, xs, listRead.assignments, request, n);
    }
  }

  lemma ListingIsTable(xs: seq<Assignment>, s: State)
    requires Keyed(s) && IsListing(xs, All(s.assignments), AssignmentLess)
    ensures ListsTable(xs, s.assignments)
  {
    ApiOrders();
    ListingDistinct(xs, All(s.assignments), AssignmentLess);
    forall a ensures a in xs <==> a.id in s.assignments && s.assignments[a.id] == a {
      if a.id in s.assignments && s.assignments[a.id] == a { assert a in All(s.assignments); }
    }
  }

  lemma ReplicasOnLive(ctx: Ctx, s: State, name: string)
    ensures ReplicasOn(s.assignments, LiveIds(ctx, s.nodes), name) == Replicas(ctx, s, name)
  {
  }

  // --- Placing -------------------------------------------------------------

  lemma PickInOneState(ctx: Ctx, s: State, request: Request, pick: Option<string>)
    requires match pick
      case None => forall n :: !Fits(ctx.now, ctx.timeout, GracedNodes(ctx, s.nodes), s.assignments, request, n)
      case Some(id) =>
        && Fits(ctx.now, ctx.timeout, GracedNodes(ctx, s.nodes), s.assignments, request, id)
        && forall n | Fits(ctx.now, ctx.timeout, GracedNodes(ctx, s.nodes), s.assignments, request, n) :: !StrLess(n, id)
    ensures match pick case None => NoHost(ctx, s, request) case Some(n) => IsPick(ctx, s, request, n)
  {
    if pick.Some? {
      forall k | MayHost(ctx, s, request, k) ensures !StrLess(k, pick.value) {
        assert Fits(ctx.now, ctx.timeout, GracedNodes(ctx, s.nodes), s.assignments, request, k);
      }
    }
  }

  // One turn of the scale-up loop with nobody else around.
  ghost predicate PlacedQuietly(ctx: Ctx, service: Service, s: State, t: State, placed: Option<Assignment>) {
    match placed
    case None => t == s && NoHost(ctx, s, ServiceRequest(service))
    case Some(a) =>
      && a.id !in s.assignments && IsPick(ctx, s, ServiceRequest(service), a.nodeId)
      && t == AddReplica(ctx, service, s, Placement(a.id, a.nodeId))
  }

  // A check made on nodesRead and read, seen from the later store t.
  lemma CheckStands(ctx: Ctx, strict: bool, nodesRead: State, read: State, t: State, request: Request, n: string)
    requires Drift(strict, nodesRead, read) && Drift(strict, read, t) && SaneSpecs(read) && AllActiveLive(ctx, read)
    requires Fits(ctx.now, ctx.timeout, GracedNodes(ctx, nodesRead.nodes), read.assignments, request, n)
    ensures n in t.nodes && HasRoom(LoadOf(t.assignments, n), t.nodes[n].capacity, request.Asked())
    ensures Live(ctx, t.nodes, n) && AllActiveLive(ctx, t)
  {
    NodesGrowTrans(nodesRead, read, t);
    CheckStays(ctx, nodesRead, read, t, request, n);
    LiveStays(ctx, nodesRead, t, n);
    ActiveLiveStays(ctx, read, t);
  }

  lemma ReplicaMayGo(ctx: Ctx, strict: bool, nodesRead: State, read: State, w: World, service: Service, a: Assignment)
    requires Drift(strict, nodesRead, read) && Drift(strict, read, w.store) && SaneSpecs(read) && AllActiveLive(ctx, read)
    requires Fits(ctx.now, ctx.timeout, GracedNodes(ctx, nodesRead.nodes), read.assignments, ServiceRequest(service), a.nodeId)
    requires a.id !in w.born && a == NewReplica(service, a.id, a.nodeId, ctx.now) && service.resources.NonNegative()
    requires (strict ==> service.name in read.services) && a.id !in w.store.assignments
    ensures MayPlace(strict, w, a)
    ensures var t := Apply(w.store, SaveAssignment(a));
      && t == AddReplica(ctx, service, w.store, Placement(a.id, a.nodeId))
      && Onward(strict, read, t) && AllActiveLive(ctx, t)
  {
    hide Drift, SaneSpecs, AllActiveLive, Fits, Onward, HasRoom, Live;
    CheckStands(ctx, strict, nodesRead, read, w.store, ServiceRequest(service), a.nodeId);
    ReplicaAdded(ctx, strict, w.store, a);
    ServiceStays(strict, read, w.store, service.name);
    DriftIsOnwardAll(ctx, strict, read, w.store);
    OnwardTrans(strict, read, w.store, Apply(w.store, SaveAssignment(a)));
  }

  lemma ServiceStays(strict: bool, s: State, t: State, name: string)
    requires Drift(strict, s, t) && (strict ==> name in s.services)
    ensures strict ==> name in t.services
  {
  }

  lemma ReplicaAdded(ctx: Ctx, strict: bool, s: State, a: Assignment)
    requires AllActiveLive(ctx, s) && Live(ctx, s.nodes, a.nodeId)
    requires a.ownerKind == ServiceKind && a.id !in s.assignments && a.phase == Pending
    ensures Onward(strict, s, Apply(s, SaveAssignment(a))) && AllActiveLive(ctx, Apply(s, SaveAssignment(a)))
  {
  }

  // --- Scaling -------------------------------------------------------------

  ghost predicate ScalingUp(ctx: Ctx, service: Service, s: State, t: State, ps: seq<Placement>, counted: nat) {
    && Greedy(ctx, service, s, ps) && t == AddReplicas(ctx, service, s, ps) && t.nodes == s.nodes
    && counted == |Replicas(ctx, t, service.name)|
  }

  ghost predicate ScaledUp(ctx: Ctx, service: Service, s: State, t: State, ps: seq<Placement>) {
    && Greedy(ctx, service, s, ps) && t == AddReplicas(ctx, service, s, ps) && t.nodes == s.nodes
    && (|Replicas(ctx, t, service.name)| >= service.replicas || NoHost(ctx, t, ServiceRequest(service)))
  }

  ghost predicate ScaledDown(s: State, live: set<string>, service: Service, t: State, victims: set<string>) {
    var group := ReplicasOn(s.assignments, live, service.name);
    && (if |group| > service.replicas
        then AreVictims(s.assignments, group, victims, |group| - service.replicas)
        else victims == {})
    && t == s.(assignments := s.assignments - victims)
  }

  lemma RemovedStep(s: State, victims: set<string>, id: string)
    ensures Apply(s.(assignments := s.assignments - victims), DeleteAssignment(id))
         == s.(assignments := s.assignments - (victims + {id}))
  {
    assert s.assignments - victims - {id} == s.assignments - (victims + {id});
  }

  lemma DriftThrice(strict: bool, s: State, t: State, u: State, v: State)
    requires Drift(strict, s, t) && Drift(strict, t, u) && Drift(strict, u, v)
    ensures Drift(strict, s, v)
  {
    DriftTrans(strict, s, t, u);
    DriftTrans(strict, s, u, v);
  }

  // A replica of what was read is no job's run now, whoever else was served.
  lemma StillAReplica(mode: Mode, read: State, s: State, t: State, live: set<string>, name: string, id: string)
    requires Drift(Strict(mode), read, s) && Rely(mode, s, t) && id in ReplicasOn(read.assignments, live, name)
    ensures Drift(Strict(mode), read, t) && (mode.Quiet? ==> t == s)
    ensures id in t.assignments ==> t.assignments[id].ownerKind == ServiceKind
  {
    DriftTrans(Strict(mode), read, s, t);
  }

  lemma DriftKeepsLive(ctx: Ctx, strict: bool, s: State, t: State, u: State, v: State)
    requires Drift(strict, s, t) && Drift(strict, t, u) && Drift(strict, u, v) && AllActiveLive(ctx, s)
    ensures Onward(strict, s, v) && AllActiveLive(ctx, v) && KeepsAllOwners(strict, s, v)
  {
    DriftThrice(strict, s, t, u, v);
    ActiveLiveStays(ctx, s, v);
  }

  lemma ScalingUpStep(ctx: Ctx, service: Service, s: State, t: State, ps: seq<Placement>, counted: nat, a: Assignment)
    requires ScalingUp(ctx, service, s, t, ps, counted) && counted < service.replicas
    requires a.id !in t.assignments && IsPick(ctx, t, ServiceRequest(service), a.nodeId)
    ensures var p := Placement(a.id, a.nodeId);
      ScalingUp(ctx, service, s, AddReplica(ctx, service, t, p), ps + [p], counted + 1)
  {
    var p := Placement(a.id, a.nodeId);
    assert (ps + [p])[..|ps|] == ps;
    OneMoreReplica(ctx, service, t, p);
  }

  lemma ReplicasListed(xs: seq<Assignment>, m: map<string, Assignment>, live: set<string>, name: string)
    requires ListsIds(xs, m, ReplicasOn(m, live, name))
    ensures |xs| == |ReplicasOn(m, live, name)|
    ensures forall a | a in xs :: a.Active() && a.id in ReplicasOn(m, live, name)
    ensures forall i, j | 0 <= i < j < |xs| :: xs[i].id != xs[j].id
  {
  }

  lemma PickedAreVictims(m: map<string, Assignment>, active: seq<Assignment>, excess: seq<Assignment>, victims: set<string>, group: set<string>)
    requires ListsIds(active, m, group) && victims == Ids(excess)
    requires forall i, j | 0 <= i < j < |excess| :: excess[i].id != excess[j].id
    requires forall v | v in excess :: v in active
    requires forall v, k | v in excess && k in active && k !in excess :: VictimLess(v, k)
    ensures AreVictims(m, group, victims, |excess|)
  {
    CountIds(excess, victims);
    forall v, k | v in victims && k in group - victims ensures v in m && k in m && VictimLess(m[v], m[k]) {
      var a :| a in excess && a.id == v;
      assert a in active && m[k] in active && m[k].id == k;
    }
  }

  lemma ServiceRunDone(ctx: Ctx, service: Service, s: State, live: set<string>, victims: set<string>, ps: seq<Placement>,
                       kept: State, full: State, t: State)
    requires live == LiveIds(ctx, s.nodes) && ScaledDown(s, live, service, kept, victims)
    requires ScaledUp(ctx, service, kept, full, ps)
    requires t == Apply(full, UpdateServiceStatus(service.name, ServiceStatusOf(ctx, full, service)))
    ensures ServiceRun(ctx, service, s, t)
  {
    ReplicasOnLive(ctx, s, service.name);
    assert ServiceRunBy(ctx, service, s, t, victims, ps);
  }

  // --- Runs of jobs --------------------------------------------------------

  // Onward, save for the runs of one job.
  ghost predicate OnwardBut(strict: bool, name: string, s: State, t: State) {
    && NodesGrow(s, t)
    && (forall n | n != name :: KeepsJob(n, s, t))
    && KeepsAllOwners(strict, s, t)
    && NoNewLost(s, t)
  }

  lemma OnwardButTrans(strict: bool, name: string, s: State, t: State, u: State)
    requires OnwardBut(strict, name, s, t) && OnwardBut(strict, name, t, u)
    ensures OnwardBut(strict, name, s, u)
  {
    NodesGrowTrans(s, t, u);
    forall n | n != name ensures KeepsJob(n, s, u) { KeepsJobTrans(n, s, t, u); }
  }

  lemma OnwardButRefl(strict: bool, name: string, s: State)
    ensures OnwardBut(strict, name, s, s)
  {
  }

  lemma DriftIsOnward(ctx: Ctx, strict: bool, name: string, s: State, t: State)
    requires Drift(strict, s, t) && AllActiveLive(ctx, s)
    ensures OnwardBut(strict, name, s, t) && AllActiveLive(ctx, t)
  {
    ActiveLiveStays(ctx, s, t);
  }

  // The job as listed is still at least as strict as the stored one, or owns nothing.
  ghost predicate JobStands(strict: bool, job: Job, s: State) {
    && ((job.name in s.jobs && job.retries <= s.jobs[job.name].retries) || NoRuns(s, job.name))
    && (strict ==> job.name in s.jobs)
  }

  lemma JobStandsOn(strict: bool, job: Job, s: State, t: State)
    requires JobStands(strict, job, s) && KeepsJob(job.name, s, t) && KeepsAllOwners(strict, s, t)
    ensures JobStands(strict, job, t)
  {
  }

  // The job's runs settle the matter without the scheduler.
  ghost predicate RunsDecide(ctx: Ctx, job: Job, nodes: map<string, Node>, list: seq<Assignment>) {
    FirstWon(list).Some? || LastLive(ctx, nodes, list).Some? || |Failures(list)| > job.retries
  }

  // No run of the job is under way or has succeeded.
  ghost predicate AllOver(m: map<string, Assignment>, name: string) {
    forall id | id in m && m[id].OwnedBy(JobKind, name) :: !m[id].Active() && m[id].phase != Succeeded
  }

  // The job may start run number failures + 1.
  ghost predicate Startable(strict: bool, job: Job, failures: nat, s: State) {
    && AllOver(s.assignments, job.name)
    && |FailedIds(s.assignments, job.name)| + 1 <= RunLimit(s, job.name)
    && (strict ==> job.name in s.jobs && failures == |FailedIds(s.assignments, job.name)|)
  }

  lemma OverStays(m: map<string, Assignment>, m': map<string, Assignment>, name: string)
    requires AllOver(m, name) && Shrinks(m, m')
    ensures AllOver(m', name) && |FailedIds(m', name)| <= |FailedIds(m, name)|
    ensures m.Keys <= m'.Keys ==> FailedIds(m', name) == FailedIds(m, name)
  {
    assert FailedIds(m', name) <= FailedIds(m, name);
    Subset(FailedIds(m', name), FailedIds(m, name));
  }

  lemma Subset(a: set<string>, b: set<string>)
    requires a <= b
    ensures |a| <= |b|
  {
    assert b == a + (b - a);
  }

  lemma StartableStays(mode: Mode, job: Job, failures: nat, s: State, t: State)
    requires Startable(Strict(mode), job, failures, s) && Rely(mode, s, t) && SaneSpecs(t) && SaneSpecs(s)
    ensures Startable(Strict(mode), job, failures, t)
  {
    OverStays(s.assignments, t.assignments, job.name);
    assert KeepsJob(job.name, s, t);
    if NoRuns(t, job.name) { assert FailedIds(t.assignments, job.name) == {}; }
  }

  // With nothing decided by the runs read, the job may start one.
  lemma NowStartable(ctx: Ctx, mode: Mode, job: Job, start: State, read: State, seen: State, list: seq<Assignment>)
    requires Rely(mode, start, read) && Rely(mode, read, seen) && AllActiveLive(ctx, start)
    requires Keyed(read) && SaneSpecs(read) && SaneSpecs(seen) && JobStands(Strict(mode), job, start)
    requires IsListing(list, Owned(read.assignments, JobKind, job.name), AssignmentLess) && list == RunsOf(read, job.name)
    requires !RunsDecide(ctx, job, seen.nodes, list)
    ensures Startable(Strict(mode), job, |Failures(list)|, seen)
  {
    ActiveLiveStays(ctx, start, read);
    JobStandsOn(Strict(mode), job, start, read);
    FailuresListed(read, job.name);
    forall id | id in read.assignments && read.assignments[id].OwnedBy(JobKind, job.name)
      ensures !read.assignments[id].Active() && read.assignments[id].phase != Succeeded
    {
      var a := read.assignments[id];
      assert a in Owned(read.assignments, JobKind, job.name) && a in list;
      if a.Active() { LiveStays(ctx, read, seen, a.nodeId); }
    }
    if NoRuns(read, job.name) { assert FailedIds(read.assignments, job.name) == {}; }
    StartableStays(mode, job, |Failures(list)|, read, seen);
  }

  lemma RunMayGo(ctx: Ctx, strict: bool, nodesRead: State, read: State, w: World, job: Job, failures: nat, a: Assignment)
    requires Drift(strict, nodesRead, read) && Drift(strict, read, w.store) && SaneSpecs(read) && AllActiveLive(ctx, read)
    requires Fits(ctx.now, ctx.timeout, GracedNodes(ctx, nodesRead.nodes), read.assignments, JobRequest(job), a.nodeId)
    requires a.id !in w.born && a == NewRun(job, failures + 1, a.id, a.nodeId, ctx.now) && job.resources.NonNegative()
    requires Startable(strict, job, failures, w.store) && a.id !in w.store.assignments
    ensures MayPlace(strict, w, a)
    ensures var t := Apply(w.store, SaveAssignment(a));
      && t == AddRun(ctx, job, w.store, failures, Placement(a.id, a.nodeId))
      && OnwardBut(strict, job.name, read, t) && AllActiveLive(ctx, t)
  {
    hide Drift, SaneSpecs, AllActiveLive, Fits, Startable, OnwardBut, HasRoom, Live;
    CheckStands(ctx, strict, nodesRead, read, w.store, JobRequest(job), a.nodeId);
    RunAdded(ctx, strict, w.store, a);
    StartableMayRun(strict, job, failures, w.store, a);
    DriftIsOnward(ctx, strict, job.name, read, w.store);
    OnwardButTrans(strict, job.name, read, w.store, Apply(w.store, SaveAssignment(a)));
  }

  lemma StartableMayRun(strict: bool, job: Job, failures: nat, s: State, a: Assignment)
    requires Startable(strict, job, failures, s)
    requires a.ownerKind == JobKind && a.ownerName == job.name && a.attempt == failures + 1
    ensures MayRun(strict, s, a) && (strict ==> OwnerExists(s, a))
  {
    assert ActiveIds(s.assignments, JobKind, job.name) == {} && WonIds(s.assignments, job.name) == {};
  }

  lemma RunAdded(ctx: Ctx, strict: bool, s: State, a: Assignment)
    requires AllActiveLive(ctx, s) && Live(ctx, s.nodes, a.nodeId) && a.ownerKind == JobKind && a.id !in s.assignments && a.phase == Pending
    ensures OnwardBut(strict, a.ownerName, s, Apply(s, SaveAssignment(a))) && AllActiveLive(ctx, Apply(s, SaveAssignment(a)))
  {
  }

  // StartRun with nobody else around.
  ghost predicate StartedQuietly(ctx: Ctx, job: Job, failures: nat, s: State, t: State, placed: Option<Assignment>) {
    match placed
    case None => t == s && NoHost(ctx, s, JobRequest(job))
    case Some(a) =>
      && a.id !in s.assignments && IsPick(ctx, s, JobRequest(job), a.nodeId)
      && t == AddRun(ctx, job, s, failures, Placement(a.id, a.nodeId))
  }

  lemma JobRunDone(ctx: Ctx, job: Job, s: State, u: State, t: State, done: bool, placed: Option<Assignment>, status: JobStatus)
    requires Keyed(s) && t == Apply(u, UpdateJobStatus(job.name, status))
    requires done <==> RunsDecide(ctx, job, s.nodes, RunsOf(s, job.name))
    requires done ==> u == s && placed.None?
    requires !done ==> StartedQuietly(ctx, job, |Failures(RunsOf(s, job.name))|, s, u, placed)
    requires var base := StatusFrom(ctx, s.nodes, RunsOf(s, job.name));
      status == match placed
                case None => base
                case Some(a) => base.(activeAssignmentId := a.id, lastAssignmentId := a.id)
    ensures JobRun(ctx, job, s, t)
  {
    if placed.Some? {
      var p := Placement(placed.value.id, placed.value.nodeId);
      assert MayHost(ctx, s, JobRequest(job), p.nodeId);
      NewRunStatus(ctx, job, s, p);
      assert JobRunBy(ctx, job, s, t, Some(p));
    } else {
      assert JobRunBy(ctx, job, s, t, None);
    }
  }

  lemma {:induction false} FirstWonAt(xs: seq<Assignment>, i: nat)
    requires i < |xs| && FirstWon(xs[..i]).None? && xs[i].phase == Succeeded
    ensures FirstWon(xs) == Some(i)
    decreases |xs|
  {
    var k := |xs| - 1;
    if i < k {
      assert xs[..k][..i] == xs[..i];
      FirstWonAt(xs[..k], i);
    }
  }

  // --- Stages --------------------------------------------------------------

  ghost predicate RunFromTo(run: seq<State>, s: State, t: State) {
    run != [] && run[0] == s && run[|run| - 1] == t
  }

  ghost predicate ListedSane(s: State, service: Service) {
    service.name in s.services && service.replicas >= 1 && service.resources.NonNegative()
  }

  lemma OnwardRefl(strict: bool, s: State)
    ensures Onward(strict, s, s)
  {
  }

  lemma DriftIsOnwardAll(ctx: Ctx, strict: bool, s: State, t: State)
    requires Drift(strict, s, t) && AllActiveLive(ctx, s)
    ensures Onward(strict, s, t) && AllActiveLive(ctx, t)
  {
    ActiveLiveStays(ctx, s, t);
  }

  lemma ServicesRunStep(ctx: Ctx, services: seq<Service>, i: nat, run: seq<State>, t: State)
    requires i < |services| && ServicesRun(ctx, services[..i], run) && ServiceRun(ctx, services[i], run[|run| - 1], t)
    ensures ServicesRun(ctx, services[..i + 1], run + [t])
  {
    hide ServiceRun;
  }

  lemma JobsRunStep(ctx: Ctx, jobs: seq<Job>, i: nat, run: seq<State>, t: State)
    requires i < |jobs| && JobsRun(ctx, jobs[..i], run) && JobRun(ctx, jobs[i], run[|run| - 1], t)
    ensures JobsRun(ctx, jobs[..i + 1], run + [t])
  {
    hide JobRun;
  }

  ghost predicate JobsAheadStand(strict: bool, jobs: seq<Job>, k: nat, s: State) {
    && (forall i, j | 0 <= i < j < |jobs| :: jobs[i].name != jobs[j].name)
    && (forall i | k <= i < |jobs| :: JobStands(strict, jobs[i], s) && jobs[i].resources.NonNegative())
  }

  lemma JobsListedStand(strict: bool, s: State, jobs: seq<Job>)
    requires Keyed(s) && SaneSpecs(s) && IsListing(jobs, s.jobs.Values, JobLess)
    ensures JobsAheadStand(strict, jobs, 0, s)
  {
    ApiOrders();
    forall i, j | 0 <= i < j < |jobs| ensures jobs[i].name != jobs[j].name { assert JobLess(jobs[i], jobs[j]); StrIrreflexive(jobs[i].name); }
    forall i | 0 <= i < |jobs| ensures JobStands(strict, jobs[i], s) && jobs[i].resources.NonNegative() { assert jobs[i] in jobs; }
  }

  lemma NextJobsStand(strict: bool, jobs: seq<Job>, k: nat, s: State, t: State)
    requires k < |jobs| && JobsAheadStand(strict, jobs, k, s) && OnwardBut(strict, jobs[k].name, s, t)
    ensures JobsAheadStand(strict, jobs, k + 1, t)
  {
    forall i | k + 1 <= i < |jobs| ensures JobStands(strict, jobs[i], t) { JobStandsOn(strict, jobs[i], s, t); }
  }

  // --- Marking -------------------------------------------------------------

  // Every assignment that is Lost now but was not before sits on a known node that was dead in seen.
  ghost predicate NewlyLostWereDead(ctx: Ctx, before: State, after: State, seen: State) {
    forall id | id in after.assignments && after.assignments[id].phase == Lost ::
      || (id in before.assignments && before.assignments[id].phase == Lost)
      || (after.assignments[id].nodeId in seen.nodes && !Live(ctx, seen.nodes, after.assignments[id].nodeId))
  }

  // Of the assignments read, those in xs have been dealt with.
  ghost predicate Marking(live: set<string>, xs: seq<Assignment>, read: State, s: State) {
    && (forall id | id in s.assignments && s.assignments[id].Active() ::
          id in read.assignments && (read.assignments[id] !in xs || read.assignments[id].nodeId in live))
    && (forall id | id in s.assignments && s.assignments[id].phase == Lost ::
          id in read.assignments && (read.assignments[id].phase == Lost || read.assignments[id].nodeId !in live))
  }

  function MarkOne(live: set<string>, a: Assignment, now: int): Assignment {
    if a.Active() && a.nodeId !in live then ApplyStatus(a, Lost, LostMessage(a.nodeId), now) else a
  }

  function MarkedIn(live: set<string>, xs: seq<Assignment>, s: State, now: int): State {
    s.(assignments := map id | id in s.assignments ::
         if s.assignments[id] in xs then MarkOne(live, s.assignments[id], now) else s.assignments[id])
  }

  lemma MarkingStarts(live: set<string>, read: State)
    ensures Marking(live, [], read, read) && forall now :: MarkedIn(live, [], read, now) == read
    ensures forall strict :: Wane(strict, read, read)
  {
    forall now ensures MarkedIn(live, [], read, now) == read {
      assert MarkedIn(live, [], read, now).assignments == read.assignments;
    }
  }

  lemma ListedFrom(list: seq<Assignment>, i: nat, read: State)
    requires Keyed(read) && IsListing(list, All(read.assignments), AssignmentLess) && i < |list|
    ensures list[i].id in read.assignments && read.assignments[list[i].id] == list[i]
    ensures forall x | x in list[..i] :: x.id != list[i].id
  {
    forall a | a in list ensures a.id in read.assignments && read.assignments[a.id] == a { assert a in All(read.assignments); }
    assert list[i] in list;
    NotSeenBefore(list, i, read.assignments);
  }

  lemma MarkingSkips(live: set<string>, xs: seq<Assignment>, a: Assignment, read: State, s: State)
    requires Marking(live, xs, read, s) && Shrinks(read.assignments, s.assignments)
    requires !a.Active() || a.nodeId in live
    ensures Marking(live, xs + [a], read, s)
  {
  }

  lemma MarkedInSkips(live: set<string>, xs: seq<Assignment>, a: Assignment, read: State, now: int)
    requires !a.Active() || a.nodeId in live
    ensures MarkedIn(live, xs + [a], read, now) == MarkedIn(live, xs, read, now)
  {
    assert MarkedIn(live, xs + [a], read, now).assignments == MarkedIn(live, xs, read, now).assignments;
  }

  lemma MarkingStands(live: set<string>, xs: seq<Assignment>, read: State, s: State, t: State)
    requires Marking(live, xs, read, s) && Shrinks(s.assignments, t.assignments) && NoNewLost(s, t)
    ensures Marking(live, xs, read, t)
  {
  }

  lemma MarkingSteps(live: set<string>, xs: seq<Assignment>, a: Assignment, read: State, s: State, now: int)
    requires Keyed(read) && a.id in read.assignments && read.assignments[a.id] == a && a.nodeId !in live
    requires Marking(live, xs, read, s)
    ensures Marking(live, xs + [a], read, Apply(s, UpdateAssignmentStatus(a.id, Lost, LostMessage(a.nodeId), now)))
  {
    hide LostMessage;
  }

  lemma MarkedInSteps(live: set<string>, xs: seq<Assignment>, a: Assignment, read: State, now: int)
    requires Keyed(read) && a.id in read.assignments && read.assignments[a.id] == a
    requires a.Active() && a.nodeId !in live && forall x | x in xs :: x.id != a.id
    ensures Apply(MarkedIn(live, xs, read, now), UpdateAssignmentStatus(a.id, Lost, LostMessage(a.nodeId), now))
         == MarkedIn(live, xs + [a], read, now)
  {
    assert Apply(MarkedIn(live, xs, read, now), UpdateAssignmentStatus(a.id, Lost, LostMessage(a.nodeId), now)).assignments
        == MarkedIn(live, xs + [a], read, now).assignments;
  }

  lemma WaneOn(strict: bool, s: State, t: State, u: State, v: State)
    requires Drift(strict, s, t) && Drift(strict, t, u) && Wane(strict, u, v)
    ensures Wane(strict, s, v)
  {
    hide Wane, NoNewLost;
    WaneTrans(strict, s, t, u);
    WaneTrans(strict, s, u, v);
  }

  lemma KnownInWorld(strict: bool, w: World)
    requires WorldInv(strict, w)
    ensures KnownNodes(w.store)
  {
  }

  lemma AllMarked(ctx: Ctx, strict: bool, live: set<string>, list: seq<Assignment>, seen: State, read: State, s: State)
    requires live == LiveIds(ctx, seen.nodes) && Drift(strict, seen, read) && Wane(strict, read, s)
    requires forall a :: a in list <==> a in All(read.assignments)
    requires Marking(live, list, read, s)
    ensures AllActiveLive(ctx, s)
  {
    forall id | id in s.assignments && s.assignments[id].Active() ensures Live(ctx, s.nodes, s.assignments[id].nodeId) {
      assert read.assignments[id] in All(read.assignments);
      LiveStays(ctx, seen, read, s.assignments[id].nodeId);
      LiveStays(ctx, read, s, s.assignments[id].nodeId);
    }
  }

  lemma AllMarkedIn(ctx: Ctx, list: seq<Assignment>, s: State)
    requires forall a :: a in list <==> a in All(s.assignments)
    ensures MarkedIn(LiveIds(ctx, s.nodes), list, s, ctx.now) == MarkedLost(ctx, s)
  {
    forall id | id in s.assignments ensures s.assignments[id] in list { assert s.assignments[id] in All(s.assignments); }
    assert MarkedIn(LiveIds(ctx, s.nodes), list, s, ctx.now).assignments == MarkedLost(ctx, s).assignments;
  }

  lemma NewlyLost(ctx: Ctx, strict: bool, live: set<string>, list: seq<Assignment>, start: State, seen: State, read: State, s: State)
    requires live == LiveIds(ctx, seen.nodes) && Drift(strict, start, seen) && Drift(strict, seen, read) && KnownNodes(seen)
    requires Marking(live, list, read, s) && Wane(strict, read, s)
    ensures NewlyLostWereDead(ctx, start, s, seen)
  {
    hide NodesGrow, KeepsJob, LostMessage;
  }

  // Later steps that make nothing Lost leave the verdict as it is.
  lemma VerdictStands(ctx: Ctx, before: State, s: State, t: State, seen: State)
    requires NewlyLostWereDead(ctx, before, s, seen) && NoNewLost(s, t)
    ensures NewlyLostWereDead(ctx, before, t, seen)
  {
  }

  lemma OnwardLosesNothing(strict: bool, s: State, t: State)
    requires Onward(strict, s, t)
    ensures NoNewLost(s, t)
  {
  }

  lemma OnwardButLosesNothing(strict: bool, name: string, s: State, t: State)
    requires OnwardBut(strict, name, s, t)
    ensures NoNewLost(s, t)
  {
  }

  /** What NewlyLostWereDead means: the node was registered and silent for longer
      than the timeout, from its last heartbeat and from the controller's start. */
  lemma LostMeansSilent(ctx: Ctx, before: State, after: State, seen: State, id: string)
    requires NewlyLostWereDead(ctx, before, after, seen)
    requires id in after.assignments && after.assignments[id].phase == Lost
    requires !(id in before.assignments && before.assignments[id].phase == Lost)
    ensures var n := after.assignments[id].nodeId;
      && n in seen.nodes
      && ctx.now > seen.nodes[n].lastHeartbeat + ctx.timeout && ctx.now > ctx.started + ctx.timeout
  {
  }
}
