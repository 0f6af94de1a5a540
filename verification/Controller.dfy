/** The controller and its reconcile loop (internal/controller). Between any two
    store operations of the loop the API handlers may run; Others() marks those points. */
module Controllers {
  import opened Order
  import opened Api
  import opened Load
  import opened StoreState
  import opened Discipline
  import opened Scheduling
  import opened MemoryStores
  import opened Handlers
  import opened Reconciling
  import opened Outcomes
  import opened Interference
  import opened LoopFacts
  import opened Requirements

  method LiveNodeSet(now: int, nodes: seq<Node>, timeout: int) returns (live: set<string>)
    ensures live == set x | x in nodes && IsLive(now, timeout, x) :: x.id
  {
    live := {};
    for i := 0 to |nodes|
      invariant live == set x | x in nodes[..i] && IsLive(now, timeout, x) :: x.id
    {
      assert forall x :: x in nodes[..i + 1] <==> x in nodes[..i] || x == nodes[i];
      if now - nodes[i].lastHeartbeat <= timeout {
        live := live + {nodes[i].id};
      }
    }
    assert nodes[..|nodes|] == nodes;
  }

  /** The count assignments to remove first: Pending before Running, newest first. */
  method PickAssignmentsToRemove(assignments: seq<Assignment>, count: nat) returns (removed: seq<Assignment>)
    requires forall i, j | 0 <= i < j < |assignments| :: assignments[i].id != assignments[j].id
    requires forall a | a in assignments :: a.Active()
    ensures |removed| == if count > |assignments| then |assignments| else count
    ensures forall i, j | 0 <= i < j < |removed| :: removed[i].id != removed[j].id
    ensures forall v | v in removed :: v in assignments
    ensures forall v, k | v in removed && k in assignments && k !in removed :: VictimLess(v, k)
  {
    var sorted := Sort(assignments, VictimLess);
    VictimSort(assignments);
    var n := if count > |sorted| then |sorted| else count;
    removed := sorted[..n];
    assert forall i | 0 <= i < n :: sorted[i] in removed;
    forall v, k | v in removed && k in assignments && k !in removed ensures VictimLess(v, k) {
      assert k in sorted;
      var i :| 0 <= i < |sorted| && sorted[i] == k;
      var j :| 0 <= j < n && sorted[j] == v;
    }
    forall i, j | 0 <= i < j < |removed| ensures removed[i].id != removed[j].id {
      SameIdSame(assignments, sorted[i], sorted[j]);
    }
  }

  // The active assignments of a list that are on live nodes.
  method ActiveOnLive(assignments: seq<Assignment>, live: set<string>, ghost m: map<string, Assignment>, ghost name: string)
    returns (active: seq<Assignment>)
    requires forall id | id in m :: m[id].id == id
    requires IsListing(assignments, Owned(m, ServiceKind, name), AssignmentLess)
    ensures ListsIds(active, m, ReplicasOn(m, live, name))
  {
    active := [];
    var p := (a: Assignment) => a.Active() && a.nodeId in live;
    for i := 0 to |assignments|
      invariant active == Filter(assignments[..i], p)
    {
      assert assignments[..i + 1][..i] == assignments[..i];
      if !IsActivePhase(assignments[i].phase) || assignments[i].nodeId !in live {
        continue;
      }
      active := active + [assignments[i]];
    }
    assert assignments[..|assignments|] == assignments;
    ActiveListed(assignments, m, name, live, p);
  }

  // The status a service's final listing adds up to.
  method CountReplicas(service: Service, now: int, assignments: seq<Assignment>, live: set<string>, ghost s: State)
    returns (status: ServiceStatus)
    requires Keyed(s)
    requires IsListing(assignments, Owned(s.assignments, ServiceKind, service.name), AssignmentLess)
    ensures var ids := ReplicasOn(s.assignments, live, service.name);
      status == ServiceStatus(service.replicas, |InPhase(s, ids, Pending)|, |InPhase(s, ids, Running)|,
                              Listing(ids, StrLess), now / 1_000_000_000)
  {
    var ids: seq<string> := [];
    var pending, running := 0, 0;
    ghost var seen: set<string> := {};
    ApiOrders();
    for i := 0 to |assignments|
      invariant Distinct(ids) && forall id :: id in ids <==> id in seen
      invariant forall id :: id in seen <==> id in ReplicasOn(s.assignments, live, service.name) && s.assignments[id] in assignments[..i]
      invariant pending == |InPhase(s, seen, Pending)| && running == |InPhase(s, seen, Running)|
    {
      var a := assignments[i];
      assert a in assignments && a in Owned(s.assignments, ServiceKind, service.name);
      NotSeenBefore(assignments, i, s.assignments);
      assert forall x :: x in assignments[..i + 1] <==> x in assignments[..i] || x == a;
      if !IsActivePhase(a.phase) || a.nodeId !in live {
        continue;
      }
      OneMoreInPhase(s, seen, a.id);
      ids := ids + [a.id];
      seen := seen + {a.id};
      match a.phase
      case Pending => pending := pending + 1;
      case Running => running := running + 1;
    }
    assert assignments[..|assignments|] == assignments;
    ghost var all := ReplicasOn(s.assignments, live, service.name);
    forall id | id in all ensures s.assignments[id] in assignments { assert s.assignments[id] in Owned(s.assignments, ServiceKind, service.name); }
    assert seen == all;
    StrOrder();
    assert TotalOn(all, StrLess);
    SortLists(ids, StrLess);
    ListingIs(Sort(ids, StrLess), all, StrLess);
    status := ServiceStatus(service.replicas, pending, running, Sort(ids, StrLess), now / 1_000_000_000);
  }

  class Controller {
    const store: MemoryStore
    const scheduler: Scheduler
    const server: HTTPServer
    const nodeTimeout: int
    // Which handlers may run inside a reconcile.
    const mode: Mode

    // The time of the first reconcile.
    var startedAt: Option<int>

    // Where in the store's history the present tick began, and its time.
    ghost var since: nat
    ghost var tick: int

    constructor (store: MemoryStore, scheduler: Scheduler, nodeTimeout: int, mode: Mode)
      requires store.Valid() && scheduler.nodeTimeout == nodeTimeout
      requires WorldInv(Strict(mode), store.Now()) && Disciplined(Strict(mode), store.origin, store.trace)
      ensures Sound() && startedAt == None
      ensures this.store == store && this.nodeTimeout == nodeTimeout && this.mode == mode
    {
      this.store, this.scheduler, this.nodeTimeout, this.mode := store, scheduler, nodeTimeout, mode;
      server := new HTTPServer(store);
      startedAt := None;
      since, tick := 0, 0;
    }

    // The store's invariant holds now, and every operation so far was guarded.
    ghost predicate Sound()
      reads this, store
    {
      && store.Valid() && server.store == store && scheduler.nodeTimeout == nodeTimeout
      && WorldInv(Strict(mode), store.Now()) && SaneSpecs(store.Contents())
      && Disciplined(Strict(mode), store.origin, store.trace)
    }

    // Within a tick: sound, and every operation since it began came from the loop
    // or from an admitted request.
    ghost predicate Ready()
      reads this, store
    {
      && store.Valid() && server.store == store && scheduler.nodeTimeout == nodeTimeout
      && WorldInv(Strict(mode), store.Now()) && SaneSpecs(store.Contents())
      && InTick(mode, At(tick), store.origin, store.trace, since)
    }

    ghost function At(now: int): Ctx
      reads `startedAt
    {
      Ctx(now, nodeTimeout, if startedAt.Some? then startedAt.value else now)
    }

    // Requests of operators and nodes served between two steps of the loop.
    method Others()
      requires Ready()
      modifies store
      ensures Ready() && old(store.trace) <= store.trace
      ensures Rely(mode, old(store.Contents()), store.Contents()) && store.born == old(store.born)
    {
      ghost var before := store.Contents();
      RelyRefl(mode, before);
      if mode.Quiet? { return; }
      var rounds: int :| rounds >= 0;
      for i := 0 to rounds
        invariant Ready() && old(store.trace) <= store.trace
        invariant Rely(mode, before, store.Contents()) && store.born == old(store.born)
      {
        ghost var s := store.Contents();
        var caller: string, request: ApiRequest, now: int := *, *, *;
        if Admits(mode, request) && Reasonable(store.Contents(), request, now) {
          ServeOne(caller, request, now);
          RelyTrans(mode, before, s, store.Contents());
        }
      }
    }

    method ServeOne(caller: string, request: ApiRequest, now: int)
      requires Ready() && Admits(mode, request) && Reasonable(store.Contents(), request, now)
      modifies store
      ensures Ready() && old(store.trace) <= store.trace
      ensures Rely(mode, old(store.Contents()), store.Contents()) && store.born == old(store.born)
    {
      hide Reasonable, Guarded, Rely, Asked, Allowed, Effect, AnswerTo;
      ghost var w, ops := store.Now(), store.trace;
      ghost var effect := Effect(w.store, caller, request, now);
      var _ := server.Handle(caller, request, now);
      if effect.Some? {
        EffectIsGuarded(Strict(mode), w, caller, request, now);
        RequestAllowed(mode, w.store, caller, request, now, effect.value);
        InTickStep(mode, At(tick), store.origin, ops, since, effect.value);
        RelyStep(mode, w, caller, request, now);
      } else {
        RelyRefl(mode, w.store);
      }
    }

    // --- The loop's own operations, each with the guard it must meet -------

    method MarkLost(id: string, message: string, now: int)
      requires Ready()
      modifies store
      ensures Ready() && old(store.trace) <= store.trace && store.born == old(store.born)
      ensures store.Contents() == Apply(old(store.Contents()), UpdateAssignmentStatus(id, Lost, message, now))
      ensures Wane(Strict(mode), old(store.Contents()), store.Contents())
    {
      ghost var w, ops, op := store.Now(), store.trace, UpdateAssignmentStatus(id, Lost, message, now);
      var _ := store.UpdateAssignmentStatus(id, Lost, message, now);
      InTickStep(mode, At(tick), store.origin, ops, since, op);
      WaneStep(Strict(mode), w, op);
    }

    method RemoveReplica(id: string)
      requires Ready() && (id in store.assignments ==> store.assignments[id].ownerKind == ServiceKind)
      modifies store
      ensures Ready() && old(store.trace) <= store.trace && store.born == old(store.born)
      ensures store.Contents() == Apply(old(store.Contents()), DeleteAssignment(id))
      ensures Drift(Strict(mode), old(store.Contents()), store.Contents())
    {
      ghost var w, ops, op := store.Now(), store.trace, DeleteAssignment(id);
      var _ := store.DeleteAssignment(id);
      InTickStep(mode, At(tick), store.origin, ops, since, op);
      DriftStep(Strict(mode), w, op);
    }

    method Place(assignment: Assignment)
      requires Ready() && MayPlace(Strict(mode), store.Now(), assignment)
      requires SaveDue(At(tick), store.origin, store.trace, since, assignment)
      modifies store
      ensures Ready() && old(store.trace) <= store.trace
      ensures store.Contents() == Apply(old(store.Contents()), SaveAssignment(assignment))
    {
      hide WorldInv, Guarded, Allowed, MayPlace, SaveDue, InTick, SaneSpecs;
      ghost var w, ops := store.Now(), store.trace;
      MayPlaceIsGuarded(mode, w, assignment);
      store.SaveAssignment(assignment);
      InTickStep(mode, At(tick), store.origin, ops, since, SaveAssignment(assignment));
      SoundSpecs(Strict(mode), store.Now());
    }

    method WriteServiceStatus(name: string, status: ServiceStatus)
      requires Ready()
      modifies store
      ensures Ready() && old(store.trace) <= store.trace
      ensures store.Contents() == Apply(old(store.Contents()), UpdateServiceStatus(name, status))
      ensures Drift(Strict(mode), old(store.Contents()), store.Contents())
    {
      ghost var w, ops, op := store.Now(), store.trace, UpdateServiceStatus(name, status);
      var _ := store.UpdateServiceStatus(name, status);
      InTickStep(mode, At(tick), store.origin, ops, since, op);
      DriftStep(Strict(mode), w, op);
    }

    method WriteJobStatus(name: string, status: JobStatus)
      requires Ready()
      modifies store
      ensures Ready() && old(store.trace) <= store.trace
      ensures store.Contents() == Apply(old(store.Contents()), UpdateJobStatus(name, status))
      ensures Drift(Strict(mode), old(store.Contents()), store.Contents())
    {
      ghost var w, ops, op := store.Now(), store.trace, UpdateJobStatus(name, status);
      var _ := store.UpdateJobStatus(name, status);
      InTickStep(mode, At(tick), store.origin, ops, since, op);
      DriftStep(Strict(mode), w, op);
    }

    // A listing of the node table in which no heartbeat lies before this controller's start.
    method Nodes(ghost now: int) returns (nodes: seq<Node>)
      requires Ready() && startedAt.Some?
      ensures ListsNodes(nodes, GracedNodes(At(now), store.nodes))
    {
      var listed := store.ListNodes();
      nodes := listed;
      for i := 0 to |nodes|
        invariant |nodes| == |listed|
        invariant forall k | 0 <= k < |nodes| :: nodes[k] == if k < i then Graced(At(now), listed[k]) else listed[k]
      {
        if nodes[i].lastHeartbeat < startedAt.value {
          nodes := nodes[i := nodes[i].(lastHeartbeat := startedAt.value)];
        }
      }
      ghost var table := GracedNodes(At(now), store.nodes);
      forall n | n in table ensures table[n] in nodes {
        assert store.nodes[n] in listed;
        var k :| 0 <= k < |listed| && listed[k] == store.nodes[n];
        assert nodes[k] == table[n];
      }
      forall x | x in nodes ensures x.id in table && table[x.id] == x {
        var k :| 0 <= k < |nodes| && nodes[k] == x;
        assert listed[k] in listed && listed[k].id == x.id;
      }
    }

    // The random suffix is drawn until the ID is unused; here, any ID never used before.
    method NextAssignmentID(owner: string, attempt: int) returns (id: string)
      requires Ready()
      ensures id !in store.born && !store.HasAssignment(id)
    {
      FreshExists(store.born.Keys);
      id :| id !in store.born.Keys;
    }

    // One turn of the marking loop: a is listed, active and on no live node.
    method MarkDead(a: Assignment, now: int, ghost live: set<string>, ghost dealt: seq<Assignment>, ghost read: State)
      requires Ready() && Keyed(read) && a.id in read.assignments && read.assignments[a.id] == a
      requires a.Active() && a.nodeId !in live && forall x | x in dealt :: x.id != a.id
      requires Wane(Strict(mode), read, store.Contents()) && Marking(live, dealt, read, store.Contents())
      requires mode.Quiet? ==> store.Contents() == MarkedIn(live, dealt, read, now)
      modifies store
      ensures Ready() && old(store.trace) <= store.trace
      ensures Wane(Strict(mode), read, store.Contents()) && Marking(live, dealt + [a], read, store.Contents())
      ensures mode.Quiet? ==> store.Contents() == MarkedIn(live, dealt + [a], read, now)
    {
      ghost var s := store.Contents();
      Others();
      ghost var t := store.Contents();
      MarkLost(a.id, LostMessage(a.nodeId), now);
      WaneTrans(Strict(mode), read, s, t);
      WaneTrans(Strict(mode), read, t, store.Contents());
      MarkingStands(live, dealt, read, s, t);
      MarkingSteps(live, dealt, a, read, t, now);
      if mode.Quiet? { MarkedInSteps(live, dealt, a, read, now); }
    }

    // The marking loop over a listing of what was read.
    method MarkListed(list: seq<Assignment>, now: int, live: set<string>)
      requires Ready()
      requires IsListing(list, All(store.assignments), AssignmentLess)
      modifies store
      ensures Ready() && old(store.trace) <= store.trace
      ensures Wane(Strict(mode), old(store.Contents()), store.Contents())
      ensures Marking(live, list, old(store.Contents()), store.Contents())
      ensures mode.Quiet? ==> store.Contents() == MarkedIn(live, list, old(store.Contents()), now)
    {
      hide WorldInv, SaneSpecs, InTick;
      ghost var read := store.Contents();
      MarkingStarts(live, read);
      for i := 0 to |list|
        invariant Ready() && old(store.trace) <= store.trace
        invariant Wane(Strict(mode), read, store.Contents())
        invariant Marking(live, list[..i], read, store.Contents())
        invariant mode.Quiet? ==> store.Contents() == MarkedIn(live, list[..i], read, now)
      {
        var a := list[i];
        assert list[..i + 1] == list[..i] + [a];
        ListedFrom(list, i, read);
        if !IsActivePhase(a.phase) || a.nodeId in live {
          MarkingSkips(live, list[..i], a, read, store.Contents());
          MarkedInSkips(live, list[..i], a, read, now);
          continue;
        }
        MarkDead(a, now, live, list[..i], read);
      }
      assert list[..|list|] == list;
    }

    /** Moves active work on dead nodes to Lost. Afterwards all active work is on
        live nodes, and nothing became Lost whose node was not dead when the nodes
        were read: silent for longer than the timeout, measured from the later of
        its last heartbeat and this controller's start. */
    method MarkLostAssignments(now: int) returns (ghost seen: State)
      requires Ready() && startedAt.Some?
      modifies store
      ensures Ready() && old(store.trace) <= store.trace
      ensures AllInTouch(Ctx(now, nodeTimeout, startedAt.value), store.Contents())
      ensures Wane(Strict(mode), old(store.Contents()), store.Contents())
      ensures AllActiveLive(At(now), store.Contents())
      ensures Rely(mode, old(store.Contents()), seen)
      ensures NewlyLostWereDead(At(now), old(store.Contents()), store.Contents(), seen)
      ensures mode.Quiet? ==> store.Contents() == MarkedLost(At(now), old(store.Contents()))
    {
      hide WorldInv, SaneSpecs, InTick, Drift, Wane, KnownNodes, AllActiveLive, MarkedLost, MarkedIn, Marking, NewlyLostWereDead;
      ghost var start := store.Contents();
      Others();
      seen := store.Contents();
      assert KnownNodes(seen) by { KnownInWorld(Strict(mode), store.Now()); }
      var nodes := Nodes(now);
      var live := LiveNodeSet(now, nodes, nodeTimeout);
      GracedNodesListed(At(now), nodes, seen);
      Others();
      var list := store.ListAssignments();
      ghost var read := store.Contents();
      MarkListed(list, now, live);
      WaneOn(Strict(mode), start, seen, read, store.Contents());
      AllMarked(At(now), Strict(mode), live, list, seen, read, store.Contents());
      if mode.Quiet? { AllMarkedIn(At(now), list, read); }
      NewlyLost(At(now), Strict(mode), live, list, start, seen, read, store.Contents());
      ActiveInTouch(At(now), store.Contents());
    }

    // --- Placing -----------------------------------------------------------

    // Reads the nodes, then the assignments, and asks the scheduler.
    method Choose(now: int, request: Request) returns (pick: Option<string>, ghost nodesRead: State)
      requires Ready() && startedAt.Some?
      modifies store
      ensures Ready() && old(store.trace) <= store.trace && store.born == old(store.born)
      ensures Rely(mode, old(store.Contents()), nodesRead) && Rely(mode, nodesRead, store.Contents())
      ensures pick.Some? ==> Fits(now, nodeTimeout, GracedNodes(At(now), nodesRead.nodes), store.assignments, request, pick.value)
      ensures pick.Some? ==> Chosen(At(now), store.origin, store.trace, since, request.resources, request.requiredLabels, request.ports, pick.value)
      ensures mode.Quiet? ==> match pick
                                case None => NoHost(At(now), store.Contents(), request)
                                case Some(n) => IsPick(At(now), store.Contents(), request, n)
    {
      Others();
      nodesRead := store.Contents();
      ghost var ops := store.trace;
      var nodes := Nodes(now);
      Others();
      var list := store.ListAssignments();
      pick := scheduler.ChooseNode(now, nodes, list, request);
      ghost var s := store.Contents();
      ChoiceIsPick(At(now), nodes, list, nodesRead, s, request, pick);
      if pick.Some? { ChosenNow(At(now), store.origin, ops, store.trace, since, nodesRead, s, request, pick.value); }
      if mode.Quiet? { PickInOneState(At(now), s, request, pick); }
    }

    // Places one more replica on the scheduler's pick, if there is one.
    method PlaceReplica(now: int, service: Service) returns (placed: Option<Assignment>)
      requires Ready() && startedAt.Some? && AllActiveLive(At(now), store.Contents())
      requires service.resources.NonNegative() && (Strict(mode) ==> service.name in store.services)
      requires tick == now && ServiceWas(store.origin, store.trace, since, service)
      modifies store
      ensures Ready() && old(store.trace) <= store.trace
      ensures Onward(Strict(mode), old(store.Contents()), store.Contents())
      ensures AllActiveLive(At(now), store.Contents())
      ensures placed.Some? ==> placed.value == NewReplica(service, placed.value.id, placed.value.nodeId, now)
      ensures mode.Quiet? ==> PlacedQuietly(At(now), service, old(store.Contents()), store.Contents(), placed)
    {
      hide WorldInv, SaneSpecs, InTick, Fits, NoNewLost, Chosen, ServiceWas;
      ghost var start := store.Contents();
      var pick, nodesRead := Choose(now, ServiceRequest(service));
      SeenStays(At(now), store.origin, old(store.trace), store.trace, since);
      ghost var read := store.Contents();
      DriftTrans(Strict(mode), start, nodesRead, read);
      ActiveLiveStays(At(now), start, read);
      if pick.None? { return None; }
      var assignment := SaveReplica(now, service, pick.value, nodesRead);
      OnwardTrans(Strict(mode), start, read, store.Contents());
      placed := Some(assignment);
    }

    // Saves a new replica on a node that fitted when the lists were read.
    method SaveReplica(now: int, service: Service, nodeId: string, ghost nodesRead: State) returns (assignment: Assignment)
      requires Ready() && startedAt.Some? && AllActiveLive(At(now), store.Contents())
      requires service.resources.NonNegative() && (Strict(mode) ==> service.name in store.services)
      requires Drift(Strict(mode), nodesRead, store.Contents())
      requires Fits(now, nodeTimeout, GracedNodes(At(now), nodesRead.nodes), store.assignments, ServiceRequest(service), nodeId)
      requires tick == now && ServiceWas(store.origin, store.trace, since, service)
      requires Chosen(At(now), store.origin, store.trace, since, service.resources, service.requiredLabels, service.ports, nodeId)
      modifies store
      ensures Ready() && old(store.trace) <= store.trace
      ensures Onward(Strict(mode), old(store.Contents()), store.Contents())
      ensures AllActiveLive(At(now), store.Contents())
      ensures assignment == NewReplica(service, assignment.id, nodeId, now)
      ensures mode.Quiet? ==>
                && assignment.id !in old(store.assignments)
                && store.Contents() == AddReplica(At(now), service, old(store.Contents()), Placement(assignment.id, nodeId))
    {
      hide SaneSpecs, InTick, Drift, Onward, OnwardBut, AllActiveLive, Fits, Startable, Chosen, ServiceWas, JobWas, RunNeeded, SaveDue;
      ghost var read := store.Contents();
      var id := NextAssignmentID(service.name, 1);
      assignment := NewReplica(service, id, nodeId, now);
      Others();
      ghost var w := store.Now();
      ReplicaMayGo(At(now), Strict(mode), nodesRead, read, w, service, assignment);
      SeenStays(At(now), store.origin, old(store.trace), store.trace, since);
      ReplicaIsDue(At(now), store.origin, store.trace, since, service, assignment);
      Place(assignment);
    }

    // --- Services ----------------------------------------------------------

    // The scale-up loop: active are the replicas counted so far.
    method ScaleUp(now: int, service: Service, active: seq<Assignment>) returns (ghost ps: seq<Placement>)
      requires Ready() && startedAt.Some? && AllActiveLive(At(now), store.Contents())
      requires service.resources.NonNegative() && (Strict(mode) ==> service.name in store.services)
      requires tick == now && ServiceWas(store.origin, store.trace, since, service)
      requires mode.Quiet? ==> |active| == |Replicas(At(now), store.Contents(), service.name)|
      modifies store
      ensures Ready() && old(store.trace) <= store.trace
      ensures Onward(Strict(mode), old(store.Contents()), store.Contents())
      ensures AllActiveLive(At(now), store.Contents())
      ensures mode.Quiet? ==> ScaledUp(At(now), service, old(store.Contents()), store.Contents(), ps)
    {
      ghost var start := store.Contents();
      ps := [];
      var counted := active;
      while |counted| < service.replicas
        invariant Ready() && old(store.trace) <= store.trace
        invariant Onward(Strict(mode), start, store.Contents()) && AllActiveLive(At(now), store.Contents())
        invariant ServiceWas(store.origin, store.trace, since, service)
        invariant mode.Quiet? ==> ScalingUp(At(now), service, start, store.Contents(), ps, |counted|)
        decreases service.replicas - |counted|
      {
        ghost var s, ops := store.Contents(), store.trace;
        var placed := PlaceReplica(now, service);
        SeenStays(At(now), store.origin, ops, store.trace, since);
        OnwardTrans(Strict(mode), start, s, store.Contents());
        if placed.None? { return; }
        if mode.Quiet? { ScalingUpStep(At(now), service, start, s, ps, |counted|, placed.value); }
        counted := counted + [placed.value];
        ps := ps + [Placement(placed.value.id, placed.value.nodeId)];
      }
    }

    // Deletes replicas in excess of the wanted number and counts again.
    method ScaleDown(service: Service, active: seq<Assignment>, live: set<string>, ghost read: State)
      returns (remaining: seq<Assignment>, ghost victims: set<string>)
      requires Ready() && service.replicas >= 0
      requires ListsIds(active, read.assignments, ReplicasOn(read.assignments, live, service.name))
      requires Drift(Strict(mode), read, store.Contents())
      modifies store
      ensures Ready() && old(store.trace) <= store.trace
      ensures Drift(Strict(mode), read, store.Contents())
      ensures mode.Quiet? && old(store.Contents()) == read ==>
                && ScaledDown(read, live, service, store.Contents(), victims)
                && |remaining| == |ReplicasOn(store.assignments, live, service.name)|
    {
      hide WorldInv, SaneSpecs, InTick, Drift, AreVictims, NoNewLost, MemoryStore.Valid, Keyed, ReplicasOn;
      victims := {};
      remaining := active;
      ReplicasListed(active, read.assignments, live, service.name);
      if |active| > service.replicas {
        var excess := PickAssignmentsToRemove(active, |active| - service.replicas);
        victims := RemoveAll(excess, live, service.name, read);
        ghost var s := store.Contents();
        remaining := Recount(service.name, live);
        DriftTrans(Strict(mode), read, s, store.Contents());
        PickedAreVictims(read.assignments, active, excess, victims, ReplicasOn(read.assignments, live, service.name));
      } else {
        assert read.assignments - {} == read.assignments;
      }
    }

    method Recount(name: string, live: set<string>) returns (remaining: seq<Assignment>)
      requires Ready()
      modifies store
      ensures Ready() && old(store.trace) <= store.trace
      ensures Rely(mode, old(store.Contents()), store.Contents())
      ensures |remaining| == |ReplicasOn(store.assignments, live, name)|
    {
      Others();
      var relisted := store.ListAssignmentsForOwner(ServiceKind, name);
      remaining := ActiveOnLive(relisted, live, store.assignments, name);
    }

    method RemoveAll(excess: seq<Assignment>, ghost live: set<string>, ghost name: string, ghost read: State)
      returns (ghost victims: set<string>)
      requires Ready() && Drift(Strict(mode), read, store.Contents())
      requires forall a | a in excess :: a.id in ReplicasOn(read.assignments, live, name)
      modifies store
      ensures Ready() && old(store.trace) <= store.trace
      ensures Drift(Strict(mode), read, store.Contents())
      ensures victims == Ids(excess)
      ensures mode.Quiet? && old(store.Contents()) == read ==>
                store.Contents() == read.(assignments := read.assignments - victims)
    {
      hide WorldInv, SaneSpecs, InTick, Drift, Rely, ReplicasOn;
      victims := {};
      assert read.assignments - {} == read.assignments;
      for i := 0 to |excess|
        invariant Ready() && old(store.trace) <= store.trace
        invariant Drift(Strict(mode), read, store.Contents())
        invariant victims == Ids(excess[..i])
        invariant mode.Quiet? && old(store.Contents()) == read ==>
                    store.Contents() == read.(assignments := read.assignments - victims)
      {
        ghost var s := store.Contents();
        Others();
        ghost var t := store.Contents();
        IdsStep(excess, i);
        StillAReplica(mode, read, s, t, live, name, excess[i].id);
        RemoveReplica(excess[i].id);
        DriftTrans(Strict(mode), read, t, store.Contents());
        RemovedStep(read, victims, excess[i].id);
        victims := victims + {excess[i].id};
      }
      assert excess[..|excess|] == excess;
    }

    /** Brings one service to its replica count. Nobody else running, it does
        exactly what ServiceRun says. */
    method ReconcileService(now: int, service: Service)
      requires Ready() && startedAt.Some? && AllActiveLive(At(now), store.Contents())
      requires service.replicas >= 1 && service.resources.NonNegative()
      requires Strict(mode) ==> service.name in store.services
      requires tick == now && ServiceWas(store.origin, store.trace, since, service)
      modifies store
      ensures Ready() && old(store.trace) <= store.trace
      ensures Onward(Strict(mode), old(store.Contents()), store.Contents())
      ensures AllActiveLive(At(now), store.Contents())
      ensures mode.Quiet? ==> ServiceRun(At(now), service, old(store.Contents()), store.Contents())
    {
      hide WorldInv, SaneSpecs, InTick, Drift, Onward, AllActiveLive, AreVictims, Greedy, ServiceRun, ServiceWas;
      ghost var start := store.Contents();
      Others();
      ghost var read := store.Contents();
      var assignments := store.ListAssignmentsForOwner(ServiceKind, service.name);
      var live := ReadLive(now);
      ghost var seen := store.Contents();
      var active := ActiveOnLive(assignments, live, read.assignments, service.name);
      var remaining, victims := ScaleDown(service, active, live, read);
      ghost var kept := store.Contents();
      DriftRefl(Strict(mode), start);
      DriftKeepsLive(At(now), Strict(mode), start, start, read, kept);
      ReplicasOnLive(At(now), kept, service.name);
      SeenStays(At(now), store.origin, old(store.trace), store.trace, since);
      var ps := ScaleUp(now, service, remaining);
      ghost var full := store.Contents();
      OnwardTrans(Strict(mode), start, kept, full);
      WriteStatus(now, service, live);
      OnwardTrans(Strict(mode), start, full, store.Contents());
      if mode.Quiet? { ServiceRunDone(At(now), service, start, live, victims, ps, kept, full, store.Contents()); }
    }

    // The nodes that are live at this tick.
    method ReadLive(now: int) returns (live: set<string>)
      requires Ready() && startedAt.Some?
      modifies store
      ensures Ready() && old(store.trace) <= store.trace && store.born == old(store.born)
      ensures Rely(mode, old(store.Contents()), store.Contents())
      ensures live == LiveIds(At(now), store.nodes)
    {
      Others();
      var nodes := Nodes(now);
      live := LiveNodeSet(now, nodes, nodeTimeout);
      GracedNodesListed(At(now), nodes, store.Contents());
    }

    // The final recount and status write.
    method WriteStatus(now: int, service: Service, live: set<string>)
      requires Ready() && startedAt.Some? && AllActiveLive(At(now), store.Contents())
      modifies store
      ensures Ready() && old(store.trace) <= store.trace
      ensures Onward(Strict(mode), old(store.Contents()), store.Contents())
      ensures AllActiveLive(At(now), store.Contents())
      ensures mode.Quiet? && live == LiveIds(At(now), old(store.nodes)) ==>
                store.Contents() == Apply(old(store.Contents()), UpdateServiceStatus(service.name, ServiceStatusOf(At(now), old(store.Contents()), service)))
    {
      hide WorldInv, SaneSpecs, InTick, Drift, Onward, AllActiveLive;
      ghost var start := store.Contents();
      Others();
      var final := store.ListAssignmentsForOwner(ServiceKind, service.name);
      ghost var s := store.Contents();
      var status := CountReplicas(service, now, final, live, s);
      ReplicasOnLive(At(now), s, service.name);
      Others();
      ghost var t := store.Contents();
      WriteServiceStatus(service.name, status);
      DriftKeepsLive(At(now), Strict(mode), start, s, t, store.Contents());
    }

    // --- Jobs --------------------------------------------------------------

    // The pass over a job's runs; it ends early at a success.
    method ScanRuns(now: int, list: seq<Assignment>, live: set<string>, ghost nodes: map<string, Node>)
      returns (won: bool, status: JobStatus, active: Option<Assignment>, latestTerminal: Option<Assignment>)
      requires live == LiveIds(At(now), nodes)
      ensures won <==> FirstWon(list).Some?
      ensures won ==> status == StatusFrom(At(now), nodes, list)
      ensures !won ==> status == JobStatus("", "", false, |Failures(list)|, LastMessage(Failures(list)), None)
      ensures !won ==> active == LastLive(At(now), nodes, list) && latestTerminal == LatestTerminal(list)
    {
      status := JobStatus("", "", false, 0, "", None);
      active, latestTerminal := None, None;
      for i := 0 to |list|
        invariant FirstWon(list[..i]).None?
        invariant status == JobStatus("", "", false, |Failures(list[..i])|, LastMessage(Failures(list[..i])), None)
        invariant active == LastLive(At(now), nodes, list[..i]) && latestTerminal == LatestTerminal(list[..i])
      {
        var a := list[i];
        assert list[..i + 1][..i] == list[..i];
        if a.phase == Succeeded {
          FirstWonAt(list, i);
          status := status.(succeeded := true, completedAt := a.finishedAt, lastAssignmentId := a.id);
          return true, status, active, latestTerminal;
        }
        if IsActivePhase(a.phase) {
          if a.nodeId in live { active := Some(a); }
          continue;
        }
        if latestTerminal.None? || latestTerminal.value.createdAt < a.createdAt { latestTerminal := Some(a); }
        if a.phase == Failed {
          status := status.(failedAttempts := status.failedAttempts + 1, lastFailure := a.message);
        }
      }
      assert list[..|list|] == list;
      won := false;
    }

    // Whether the job needs no new run, and its status as things stand.
    method JudgeJob(now: int, job: Job, list: seq<Assignment>, live: set<string>, ghost nodes: map<string, Node>)
      returns (done: bool, status: JobStatus)
      requires live == LiveIds(At(now), nodes)
      ensures status == StatusFrom(At(now), nodes, list)
      ensures done <==> RunsDecide(At(now), job, nodes, list)
      ensures !done ==> status.failedAttempts == |Failures(list)|
    {
      var won, active, latestTerminal;
      won, status, active, latestTerminal := ScanRuns(now, list, live, nodes);
      if won { return true, status; }
      if active.Some? {
        status := status.(activeAssignmentId := active.value.id, lastAssignmentId := active.value.id,
                          failedAttempts := Max(status.failedAttempts, active.value.attempt - 1));
        return true, status;
      }
      if latestTerminal.Some? { status := status.(lastAssignmentId := latestTerminal.value.id); }
      done := status.failedAttempts > job.retries;
    }

    // Saves a run of the job on the scheduler's pick, if there is one.
    method StartRun(now: int, job: Job, failures: nat) returns (placed: Option<Assignment>)
      requires Ready() && startedAt.Some? && AllActiveLive(At(now), store.Contents())
      requires job.resources.NonNegative() && Startable(Strict(mode), job, failures, store.Contents())
      requires tick == now && JobWas(store.origin, store.trace, since, job)
      requires RunNeeded(At(now), store.origin, store.trace, since, job, failures + 1)
      modifies store
      ensures Ready() && old(store.trace) <= store.trace
      ensures OnwardBut(Strict(mode), job.name, old(store.Contents()), store.Contents())
      ensures AllActiveLive(At(now), store.Contents())
      ensures mode.Quiet? ==> StartedQuietly(At(now), job, failures, old(store.Contents()), store.Contents(), placed)
    {
      hide WorldInv, SaneSpecs, InTick, Drift, OnwardBut, AllActiveLive, Startable, Fits, Chosen, JobWas, RunNeeded;
      ghost var start := store.Contents();
      var pick, nodesRead := Choose(now, JobRequest(job));
      SeenStays(At(now), store.origin, old(store.trace), store.trace, since);
      ghost var read := store.Contents();
      RelyTrans(mode, start, nodesRead, read);
      StartableStays(mode, job, failures, start, read);
      DriftIsOnward(At(now), Strict(mode), job.name, start, read);
      if pick.None? { return None; }
      var assignment := SaveRun(now, job, failures, pick.value, nodesRead);
      OnwardButTrans(Strict(mode), job.name, start, read, store.Contents());
      placed := Some(assignment);
    }

    // Starts the next run, as the runs read call for one.
    method StartNext(now: int, job: Job, list: seq<Assignment>, ghost start: State, ghost read: State, ghost ops: seq<Op>)
      returns (run: Option<Assignment>)
      requires Ready() && startedAt.Some? && AllActiveLive(At(now), store.Contents()) && AllActiveLive(At(now), start)
      requires Rely(mode, start, read) && Rely(mode, read, store.Contents())
      requires Keyed(read) && SaneSpecs(read) && JobStands(Strict(mode), job, start) && job.resources.NonNegative()
      requires IsListing(list, Owned(read.assignments, JobKind, job.name), AssignmentLess) && list == RunsOf(read, job.name)
      requires !RunsDecide(At(now), job, store.nodes, list)
      requires since <= |ops| && ops <= store.trace && read == Replay(store.origin, ops).store
      requires tick == now && JobWas(store.origin, store.trace, since, job)
      modifies store
      ensures Ready() && old(store.trace) <= store.trace
      ensures OnwardBut(Strict(mode), job.name, old(store.Contents()), store.Contents())
      ensures AllActiveLive(At(now), store.Contents())
      ensures mode.Quiet? ==> StartedQuietly(At(now), job, |Failures(list)|, old(store.Contents()), store.Contents(), run)
    {
      hide WorldInv, InTick, Drift, OnwardBut, AllActiveLive, JobStands, Startable, StartedQuietly, RunsDecide, JobWas, RunNeeded;
      NowStartable(At(now), mode, job, start, read, store.Contents(), list);
      RunIsNeeded(At(now), store.origin, ops, store.trace, since, job, read, store.Contents(), list);
      run := StartRun(now, job, |Failures(list)|);
    }

    method SaveRun(now: int, job: Job, failures: nat, nodeId: string, ghost nodesRead: State) returns (assignment: Assignment)
      requires Ready() && startedAt.Some? && AllActiveLive(At(now), store.Contents())
      requires job.resources.NonNegative() && Startable(Strict(mode), job, failures, store.Contents())
      requires Drift(Strict(mode), nodesRead, store.Contents())
      requires Fits(now, nodeTimeout, GracedNodes(At(now), nodesRead.nodes), store.assignments, JobRequest(job), nodeId)
      requires tick == now && JobWas(store.origin, store.trace, since, job)
      requires RunNeeded(At(now), store.origin, store.trace, since, job, failures + 1)
      requires Chosen(At(now), store.origin, store.trace, since, job.resources, job.requiredLabels, [], nodeId)
      modifies store
      ensures Ready() && old(store.trace) <= store.trace
      ensures OnwardBut(Strict(mode), job.name, old(store.Contents()), store.Contents())
      ensures AllActiveLive(At(now), store.Contents())
      ensures assignment == NewRun(job, failures + 1, assignment.id, nodeId, now)
      ensures mode.Quiet? ==>
                && assignment.id !in old(store.assignments)
                && store.Contents() == AddRun(At(now), job, old(store.Contents()), failures, Placement(assignment.id, nodeId))
    {
      hide SaneSpecs, InTick, Drift, Onward, OnwardBut, AllActiveLive, Fits, Startable, Chosen, ServiceWas, JobWas, RunNeeded, SaveDue;
      ghost var read := store.Contents();
      var id := NextAssignmentID(job.name, failures + 1);
      assignment := NewRun(job, failures + 1, id, nodeId, now);
      Others();
      ghost var w := store.Now();
      StartableStays(mode, job, failures, read, w.store);
      RunMayGo(At(now), Strict(mode), nodesRead, read, w, job, failures, assignment);
      SeenStays(At(now), store.origin, old(store.trace), store.trace, since);
      RunIsDue(At(now), store.origin, store.trace, since, job, assignment);
      Place(assignment);
    }

    method FinishJob(name: string, status: JobStatus)
      requires Ready()
      modifies store
      ensures Ready() && old(store.trace) <= store.trace
      ensures Drift(Strict(mode), old(store.Contents()), store.Contents())
      ensures mode.Quiet? ==> store.Contents() == Apply(old(store.Contents()), UpdateJobStatus(name, status))
    {
      hide WorldInv, SaneSpecs, InTick, Drift;
      ghost var start := store.Contents();
      Others();
      ghost var s := store.Contents();
      WriteJobStatus(name, status);
      DriftTrans(Strict(mode), start, s, store.Contents());
    }

    /** Starts a job's next run if there is one to start. Nobody else running, it
        does exactly what JobRun says. */
    method ReconcileJob(now: int, job: Job)
      requires Ready() && startedAt.Some? && AllActiveLive(At(now), store.Contents())
      requires job.resources.NonNegative() && JobStands(Strict(mode), job, store.Contents())
      requires tick == now && JobWas(store.origin, store.trace, since, job)
      modifies store
      ensures Ready() && old(store.trace) <= store.trace
      ensures OnwardBut(Strict(mode), job.name, old(store.Contents()), store.Contents())
      ensures AllActiveLive(At(now), store.Contents())
      ensures mode.Quiet? ==> JobRun(At(now), job, old(store.Contents()), store.Contents())
    {
      hide WorldInv, SaneSpecs, InTick, Drift, OnwardBut, AllActiveLive, JobRun, JobStands, Startable, StartedQuietly, StatusFrom, RunsDecide,
           NodesGrow, KeepsJob, NoNewLost, JobWas, RunNeeded;
      ghost var start := store.Contents();
      Others();
      ghost var read, ops := store.Contents(), store.trace;
      BeganBefore(mode, At(tick), store.origin, ops, since);
      var list := store.ListAssignmentsForOwner(JobKind, job.name);
      var live := ReadLive(now);
      ghost var seen := store.Contents();
      RelyTrans(mode, start, read, seen);
      DriftIsOnward(At(now), Strict(mode), job.name, start, seen);
      var done, status := JudgeJob(now, job, list, live, seen.nodes);
      ghost var placed: Option<Assignment> := None;
      if !done {
        SeenStays(At(now), store.origin, old(store.trace), store.trace, since);
        var run := StartNext(now, job, list, start, read, ops);
        placed := run;
        if run.Some? {
          status := status.(activeAssignmentId := run.value.id, lastAssignmentId := run.value.id);
        }
      }
      ghost var mid := store.Contents();
      if done { OnwardButRefl(Strict(mode), job.name, seen); }
      FinishJob(job.name, status);
      DriftIsOnward(At(now), Strict(mode), job.name, mid, store.Contents());
      OnwardButTrans(Strict(mode), job.name, start, seen, mid);
      OnwardButTrans(Strict(mode), job.name, start, mid, store.Contents());
      if mode.Quiet? { JobRunDone(At(now), job, start, mid, store.Contents(), done, placed, status); }
    }

    // --- The loop ----------------------------------------------------------

    method ServicesToDo() returns (listed: seq<Service>)
      requires Ready()
      ensures listed == Listing(store.services.Values, ServiceLess)
      ensures forall i | 0 <= i < |listed| :: ListedSane(store.Contents(), listed[i])
      ensures forall i | 0 <= i < |listed| :: ServiceWas(store.origin, store.trace, since, listed[i])
    {
      listed := store.ListServices();
      StoreIsNow(store.origin, store.trace);
      forall i | 0 <= i < |listed|
        ensures ListedSane(store.Contents(), listed[i]) && ServiceWas(store.origin, store.trace, since, listed[i])
      {
        assert listed[i] in listed;
        assert StoresService(StoreAt(store.origin, store.trace, |store.trace|), listed[i]);
      }
    }

    method JobsToDo() returns (listed: seq<Job>)
      requires Ready()
      ensures listed == Listing(store.jobs.Values, JobLess)
      ensures JobsAheadStand(Strict(mode), listed, 0, store.Contents())
      ensures forall i | 0 <= i < |listed| :: JobWas(store.origin, store.trace, since, listed[i])
    {
      listed := store.ListJobs();
      JobsListedStand(Strict(mode), store.Contents(), listed);
      StoreIsNow(store.origin, store.trace);
      forall i | 0 <= i < |listed| ensures JobWas(store.origin, store.trace, since, listed[i]) {
        assert listed[i] in listed;
        assert StoresJob(StoreAt(store.origin, store.trace, |store.trace|), listed[i]);
      }
    }

    method ReconcileServices(now: int) returns (ghost run: seq<State>)
      requires Ready() && startedAt.Some? && tick == now && AllActiveLive(At(now), store.Contents())
      modifies store
      ensures Ready() && old(store.trace) <= store.trace
      ensures Onward(Strict(mode), old(store.Contents()), store.Contents())
      ensures AllActiveLive(At(now), store.Contents())
      ensures mode.Quiet? ==>
                && RunFromTo(run, old(store.Contents()), store.Contents())
                && ServicesRun(At(now), Listing(old(store.services).Values, ServiceLess), run)
    {
      hide WorldInv, InTick, Drift, AllActiveLive, ServiceRun, NodesGrow, KeepsJob, SaneSpecs, MemoryStore.Valid;
      ghost var start := store.Contents();
      Others();
      ghost var read := store.Contents();
      ghost var ops := store.trace;
      var listed := ServicesToDo();
      run := [read];
      DriftIsOnwardAll(At(now), Strict(mode), start, read);
      OnwardRefl(Strict(mode), read);
      for i := 0 to |listed|
        invariant Ready() && old(store.trace) <= store.trace && ops <= store.trace
        invariant Onward(Strict(mode), read, store.Contents()) && AllActiveLive(At(now), store.Contents())
        invariant mode.Quiet? ==> RunFromTo(run, read, store.Contents()) && ServicesRun(At(now), listed[..i], run)
      {
        ghost var s := store.Contents();
        assert ListedSane(read, listed[i]);
        assert ServiceWas(store.origin, ops, since, listed[i]);
        SeenStays(At(now), store.origin, ops, store.trace, since);
        ReconcileService(now, listed[i]);
        OnwardTrans(Strict(mode), read, s, store.Contents());
        if mode.Quiet? { ServicesRunStep(At(now), listed, i, run, store.Contents()); }
        run := run + [store.Contents()];
      }
      assert listed[..|listed|] == listed;
      OnwardTrans(Strict(mode), start, read, store.Contents());
    }

    method ReconcileJobs(now: int) returns (ghost run: seq<State>)
      requires Ready() && startedAt.Some? && tick == now && AllActiveLive(At(now), store.Contents())
      modifies store
      ensures Ready() && old(store.trace) <= store.trace && NoNewLost(old(store.Contents()), store.Contents())
      ensures AllActiveLive(At(now), store.Contents())
      ensures mode.Quiet? ==>
                && RunFromTo(run, old(store.Contents()), store.Contents())
                && JobsRun(At(now), Listing(old(store.jobs).Values, JobLess), run)
    {
      hide WorldInv, InTick, Drift, AllActiveLive, JobRun, NodesGrow, SaneSpecs, JobStands, OnwardBut, Onward, NoNewLost, MemoryStore.Valid;
      ghost var start := store.Contents();
      Others();
      ghost var read := store.Contents();
      ghost var ops := store.trace;
      var listed := JobsToDo();
      DriftIsOnwardAll(At(now), Strict(mode), start, read);
      OnwardLosesNothing(Strict(mode), start, read);
      run := [read];
      for i := 0 to |listed|
        invariant Ready() && old(store.trace) <= store.trace && ops <= store.trace && AllActiveLive(At(now), store.Contents())
        invariant JobsAheadStand(Strict(mode), listed, i, store.Contents()) && NoNewLost(start, store.Contents())
        invariant mode.Quiet? ==> RunFromTo(run, read, store.Contents()) && JobsRun(At(now), listed[..i], run)
      {
        ghost var s := store.Contents();
        assert JobWas(store.origin, ops, since, listed[i]);
        SeenStays(At(now), store.origin, ops, store.trace, since);
        ReconcileJob(now, listed[i]);
        NextJobsStand(Strict(mode), listed, i, s, store.Contents());
        OnwardButLosesNothing(Strict(mode), listed[i].name, s, store.Contents());
        NoNewLostTrans(start, s, store.Contents());
        if mode.Quiet? { JobsRunStep(At(now), listed, i, run, store.Contents()); }
        run := run + [store.Contents()];
      }
      assert listed[..|listed|] == listed;
    }

    /** One tick. Whatever handlers run in between, every store operation is
        guarded, so the store's invariant holds after each one, and every operation
        is the loop's own or what an admitted request led to (IsTrace); nothing
        becomes Lost over the whole tick but work on nodes that were dead when the
        nodes were read; at the end all active work is on nodes in touch; and every
        save is of a replica or a run that a service or a job stored in this tick
        called for, field by field, on the first node that could take it (SavesDue).
        With nobody else running it is exactly a Tick. */
    method Reconcile(now: int) returns (ghost seen: State)
      requires Sound()
      modifies this`startedAt, this`since, this`tick, store
      ensures Sound() && old(store.trace) <= store.trace
      ensures startedAt == if old(startedAt).Some? then old(startedAt) else Some(now)
      ensures IsTrace(mode, old(store.Now()), store.trace[|old(store.trace)|..], store.Now())
      ensures var ctx := Ctx(now, nodeTimeout, startedAt.value);
        && AllInTouch(ctx, store.Contents()) && AllActiveLive(ctx, store.Contents())
        && SavesDue(ctx, old(store.Now()), store.trace[|old(store.trace)|..], 0)
        && Rely(mode, old(store.Contents()), seen) && NewlyLostWereDead(ctx, old(store.Contents()), store.Contents(), seen)
        && (mode.Quiet? ==> Tick(ctx, old(store.Contents()), store.Contents()))
    {
      hide WorldInv, SaneSpecs, InTick, IsTrace, Drift, Onward, AllActiveLive, ServicesRun, JobsRun, NewlyLostWereDead, NoNewLost,
           SavesDue, AllInTouch;
      ghost var start := store.Contents();
      if startedAt.None? {
        startedAt := Some(now);
      }
      since, tick := |store.trace|, now;
      TickBegins(mode, At(now), store.origin, store.trace);
      seen := MarkLostAssignments(now);
      ghost var marked := store.Contents();
      var run1 := ReconcileServices(now);
      ghost var served := store.Contents();
      var run2 := ReconcileJobs(now);
      OnwardLosesNothing(Strict(mode), marked, served);
      VerdictStands(At(now), start, marked, served, seen);
      VerdictStands(At(now), start, served, store.Contents(), seen);
      TickEnds(mode, At(now), store.origin, store.trace, since);
      assert store.trace[..since] == old(store.trace);
      ActiveInTouch(At(now), store.Contents());
      if mode.Quiet? { assert TickBy(At(now), start, store.Contents(), run1, run2); }
    }
  }
}
