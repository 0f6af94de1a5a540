/** What every store operation must respect, and what the store then always
    satisfies. The operations come from the API handlers and from the reconcile
    loop; both are shown to keep to this discipline where they are modelled. */
module Discipline {
  import opened Order
  import opened Api
  import opened Load
  import opened StoreState

  // The store together with every assignment ever created, as created.
  datatype World = World(store: State, born: map<string, Assignment>)

  function ApplyWorld(w: World, op: Op): World {
    World(Apply(w.store, op), if op.SaveAssignment? then w.born[op.assignment.id := op.assignment] else w.born)
  }

  // The demand of the active assignments on a node.
  function LoadOf(m: map<string, Assignment>, nodeId: string): NodeLoad {
    map id | id in m && m[id].Active() && m[id].nodeId == nodeId :: Demand(m[id].resources, m[id].ports)
  }

  function ActiveIds(m: map<string, Assignment>, kind: WorkloadKind, name: string): set<string> {
    set id | id in m && m[id].OwnedBy(kind, name) && m[id].Active()
  }

  function FailedIds(m: map<string, Assignment>, name: string): set<string> {
    set id | id in m && m[id].OwnedBy(JobKind, name) && m[id].phase == Failed
  }

  function WonIds(m: map<string, Assignment>, name: string): set<string> {
    set id | id in m && m[id].OwnedBy(JobKind, name) && m[id].phase == Succeeded
  }

  // How many runs of a job may have failed or be under way.
  function RunLimit(s: State, name: string): int {
    if name in s.jobs then s.jobs[name].retries + 1 else 1
  }

  // Placement: every node carries its active assignments.
  ghost predicate Placed(s: State) {
    forall n | n in s.nodes :: Safe(LoadOf(s.assignments, n), s.nodes[n].capacity)
  }

  ghost predicate KnownNodes(s: State) {
    forall id | id in s.assignments :: s.assignments[id].nodeId in s.nodes
  }

  ghost predicate SaneSpecs(s: State) {
    && Quantities(s)
    && (forall id | id in s.assignments :: TimesMatchPhase(s.assignments[id]))
  }

  ghost predicate Quantities(s: State) {
    && (forall id | id in s.assignments :: s.assignments[id].resources.NonNegative())
    && (forall n | n in s.services :: s.services[n].replicas >= 1 && s.services[n].resources.NonNegative())
    && (forall n | n in s.jobs :: s.jobs[n].retries >= 0 && s.jobs[n].resources.NonNegative())
  }

  // At most one run of a job is under way or has succeeded, and runs that
  // failed or are under way stay within the retry budget.
  ghost predicate JobCounts(s: State, name: string) {
    && |ActiveIds(s.assignments, JobKind, name)| + |WonIds(s.assignments, name)| <= 1
    && |FailedIds(s.assignments, name)| + |ActiveIds(s.assignments, JobKind, name)| <= RunLimit(s, name)
  }

  // The failed runs of a job are numbered 1..F; a run under way or successful
  // is number F + 1. Lost runs take no number of their own.
  ghost predicate AttemptsNumbered(m: map<string, Assignment>, name: string) {
    forall id | id in m && m[id].OwnedBy(JobKind, name) :: NumberedAfter(m[id], |FailedIds(m, name)|)
  }

  ghost predicate FailuresApart(m: map<string, Assignment>, name: string) {
    forall i, j | i in FailedIds(m, name) && j in FailedIds(m, name) && i != j :: m[i].attempt != m[j].attempt
  }

  predicate NumberedAfter(a: Assignment, failures: nat) {
    && 1 <= a.attempt <= failures + 1
    && (a.Active() || a.phase == Succeeded ==> a.attempt == failures + 1)
    && (a.phase == Failed ==> a.attempt <= failures)
  }

  ghost predicate OwnerExists(s: State, a: Assignment) {
    match a.ownerKind
    case ServiceKind => a.ownerName in s.services
    case JobKind => a.ownerName in s.jobs
  }

  ghost predicate OwnersExist(s: State) {
    forall id | id in s.assignments :: OwnerExists(s, s.assignments[id])
  }

  ghost predicate StoreInv(s: State) {
    && Keyed(s) && Placed(s) && KnownNodes(s) && SaneSpecs(s)
    && (forall name :: JobCounts(s, name))
  }

  // Holds as well when admin deletes never fall inside a reconcile.
  ghost predicate StrictInv(s: State) {
    && OwnersExist(s)
    && (forall name :: AttemptsNumbered(s.assignments, name) && FailuresApart(s.assignments, name))
  }

  ghost predicate Remembers(born: map<string, Assignment>, m: map<string, Assignment>) {
    forall id | id in m :: id in born && SameSpec(born[id], m[id])
  }

  ghost predicate WorldInv(strict: bool, w: World) {
    && StoreInv(w.store)
    && (strict ==> StrictInv(w.store))
    && Remembers(w.born, w.store.assignments)
    && (forall id | id in w.born :: w.born[id].id == id)
  }

  // When the reconcile loop may add an assignment.
  ghost predicate MayPlace(strict: bool, w: World, a: Assignment) {
    var s := w.store;
    && a.id !in w.born
    && a.phase == Pending && a.startedAt.None? && a.finishedAt.None?
    && a.resources.NonNegative()
    && a.nodeId in s.nodes
    && HasRoom(LoadOf(s.assignments, a.nodeId), s.nodes[a.nodeId].capacity, Demand(a.resources, a.ports))
    && (strict ==> OwnerExists(s, a))
    && (a.ownerKind == JobKind ==> MayRun(strict, s, a))
  }

  ghost predicate MayRun(strict: bool, s: State, a: Assignment) {
    && ActiveIds(s.assignments, JobKind, a.ownerName) == {}
    && WonIds(s.assignments, a.ownerName) == {}
    && |FailedIds(s.assignments, a.ownerName)| + 1 <= RunLimit(s, a.ownerName)
    && (strict ==> a.attempt == |FailedIds(s.assignments, a.ownerName)| + 1)
  }

  ghost predicate Guarded(strict: bool, w: World, op: Op) {
    var s := w.store;
    match op
    case UpsertNode(n) =>
      && n.capacity.NonNegative()
      && (n.id in s.nodes ==> s.nodes[n.id].capacity.AtMost(n.capacity) && s.nodes[n.id].lastHeartbeat <= n.lastHeartbeat)
    case TouchNode(id, now) => id in s.nodes ==> s.nodes[id].lastHeartbeat <= now
    case UpsertService(service) => service.replicas >= 1 && service.resources.NonNegative()
    case UpsertJob(job) =>
      && job.retries >= 0 && job.resources.NonNegative()
      && (job.name in s.jobs ==> s.jobs[job.name].retries <= job.retries)
    case SaveAssignment(a) => MayPlace(strict, w, a)
    case DeleteAssignment(id) => id in s.assignments ==> s.assignments[id].ownerKind == ServiceKind
    case UpdateAssignmentStatus(_, phase, _, _) => phase != Pending
    case _ => true
  }

  // m2 holds later versions of some of m1's assignments and nothing else.
  ghost predicate Shrinks(m1: map<string, Assignment>, m2: map<string, Assignment>) {
    forall id | id in m2 :: id in m1 && Evolves(m1[id], m2[id])
  }

  lemma LoadShrinks(m1: map<string, Assignment>, m2: map<string, Assignment>, n: string)
    requires Shrinks(m1, m2)
    ensures Within(LoadOf(m2, n), LoadOf(m1, n))
  {
  }

  lemma NodeShrinks(m1: map<string, Assignment>, m2: map<string, Assignment>, n: string, capacity: Resources, more: Resources)
    requires Shrinks(m1, m2) && NonNegative(LoadOf(m1, n))
    requires Safe(LoadOf(m1, n), capacity) && capacity.AtMost(more)
    ensures Safe(LoadOf(m2, n), more)
  {
    LoadShrinks(m1, m2, n);
    SafeWithin(LoadOf(m2, n), LoadOf(m1, n), capacity);
  }

  // Nodes are kept, and none loses capacity.
  ghost predicate NodesGrow(s: State, t: State) {
    && (forall n | n in s.nodes :: n in t.nodes && s.nodes[n].capacity.AtMost(t.nodes[n].capacity)
                                 && s.nodes[n].lastHeartbeat <= t.nodes[n].lastHeartbeat)
    && (forall n | n in t.nodes && n !in s.nodes :: t.nodes[n].capacity.NonNegative())
  }

  lemma ShrinkingIsSafe(s: State, t: State)
    requires Placed(s) && KnownNodes(s) && SaneSpecs(s) && Shrinks(s.assignments, t.assignments) && NodesGrow(s, t)
    ensures Placed(t) && KnownNodes(t)
  {
    hide Safe, LoadOf, TimesMatchPhase;
    forall n | n in t.nodes ensures Safe(LoadOf(t.assignments, n), t.nodes[n].capacity) {
      if n in s.nodes {
        LoadsAreSane(s, n);
        NodeShrinks(s.assignments, t.assignments, n, s.nodes[n].capacity, t.nodes[n].capacity);
      } else {
        NothingOn(s, t, n);
      }
    }
  }

  lemma LoadsAreSane(s: State, n: string)
    requires SaneSpecs(s)
    ensures NonNegative(LoadOf(s.assignments, n))
  {
  }

  lemma NothingOn(s: State, t: State, n: string)
    requires KnownNodes(s) && Shrinks(s.assignments, t.assignments) && NodesGrow(s, t) && n in t.nodes && n !in s.nodes
    ensures Safe(LoadOf(t.assignments, n), t.nodes[n].capacity)
  {
    assert LoadOf(t.assignments, n) == map[];
  }

  // No operation but a save adds assignments.
  lemma NonSaveShrinks(s: State, op: Op)
    requires Keyed(s) && SaneSpecs(s) && !op.SaveAssignment?
    requires op.UpdateAssignmentStatus? ==> op.phase != Pending
    ensures Shrinks(s.assignments, Apply(s, op).assignments)
  {
    hide Quantities, TimesMatchPhase, Keyed;
  }

  lemma TimesStay(s: State, op: Op)
    requires SaneSpecs(s) && !op.SaveAssignment? && (op.UpdateAssignmentStatus? ==> op.phase != Pending)
    ensures forall id | id in Apply(s, op).assignments :: TimesMatchPhase(Apply(s, op).assignments[id])
  {
    hide Quantities;
  }

  lemma SavingOnNode(m: map<string, Assignment>, a: Assignment, n: string, capacity: Resources)
    requires a.id !in m && a.Active() && Safe(LoadOf(m, n), capacity)
    requires a.nodeId == n ==> HasRoom(LoadOf(m, n), capacity, Demand(a.resources, a.ports))
    ensures Safe(LoadOf(m[a.id := a], n), capacity)
  {
    var before := LoadOf(m, n);
    if n == a.nodeId {
      SafeAdd(before, capacity, a.id, Demand(a.resources, a.ports));
      assert LoadOf(m[a.id := a], n) == before[a.id := Demand(a.resources, a.ports)];
    } else {
      assert LoadOf(m[a.id := a], n) == before;
    }
  }

  lemma SavingIsSafe(s: State, a: Assignment)
    requires Placed(s) && KnownNodes(s) && a.id !in s.assignments && a.Active() && a.nodeId in s.nodes
    requires HasRoom(LoadOf(s.assignments, a.nodeId), s.nodes[a.nodeId].capacity, Demand(a.resources, a.ports))
    ensures Placed(s.(assignments := s.assignments[a.id := a]))
  {
    forall n | n in s.nodes ensures Safe(LoadOf(s.assignments[a.id := a], n), s.nodes[n].capacity) {
      SavingOnNode(s.assignments, a, n, s.nodes[n].capacity);
    }
  }

  lemma KeepsPlacement(strict: bool, w: World, op: Op)
    requires WorldInv(strict, w) && Guarded(strict, w, op)
    ensures Placed(Apply(w.store, op)) && KnownNodes(Apply(w.store, op))
  {
    if op.SaveAssignment? {
      SavingIsSafe(w.store, op.assignment);
    } else {
      NonSaveShrinks(w.store, op);
      ShrinkingIsSafe(w.store, Apply(w.store, op));
    }
  }

  // The job counts after op are no larger, save for a guarded save.
  lemma JobCountsAfter(s: State, op: Op, name: string)
    requires Keyed(s) && !op.SaveAssignment? && !op.UpsertJob?
    requires op.UpdateAssignmentStatus? ==> op.phase != Pending
    requires op.DeleteAssignment? && op.id in s.assignments ==> s.assignments[op.id].ownerKind == ServiceKind
    ensures var m, m' := s.assignments, Apply(s, op).assignments;
      || (op == DeleteJob(name) && name in s.jobs && ActiveIds(m', JobKind, name) == FailedIds(m', name) == WonIds(m', name) == {})
      || (&& |ActiveIds(m', JobKind, name)| + |WonIds(m', name)| <= |ActiveIds(m, JobKind, name)| + |WonIds(m, name)|
          && |ActiveIds(m', JobKind, name)| + |FailedIds(m', name)| <= |ActiveIds(m, JobKind, name)| + |FailedIds(m, name)|
          && RunLimit(Apply(s, op), name) == RunLimit(s, name))
  {
    hide ActiveIds, FailedIds, WonIds, WithoutOwner, Keyed;
    var m := s.assignments;
    match op
    case UpdateAssignmentStatus(id, phase, message, now) =>
      if id in m { StatusCounts(m, id, ApplyStatus(m[id], phase, message, now), name); }
    case DeleteJob(n) => if n in s.jobs { SetsAfterDelete(m, JobKind, n, name); }
    case DeleteService(n) => if n in s.services { SetsAfterDelete(m, ServiceKind, n, name); }
    case DeleteAssignment(id) => SetsAfterRemove(m, id, name);
    case _ =>
  }

  lemma KeepsJobCounts(strict: bool, w: World, op: Op, name: string)
    requires WorldInv(strict, w) && Guarded(strict, w, op)
    ensures JobCounts(Apply(w.store, op), name)
  {
    hide Placed, KnownNodes, SaneSpecs, StrictInv, HasRoom, ActiveIds, FailedIds, WonIds;
    assert JobCounts(w.store, name);
    if op.SaveAssignment? {
      SetsAfterSave(w.store.assignments, op.assignment, name);
    } else if !op.UpsertJob? {
      JobCountsAfter(w.store, op, name);
    }
  }

  lemma SetsAfterSave(m: map<string, Assignment>, a: Assignment, name: string)
    requires a.id !in m && a.phase == Pending
    ensures FailedIds(m[a.id := a], name) == FailedIds(m, name) && WonIds(m[a.id := a], name) == WonIds(m, name)
    ensures ActiveIds(m[a.id := a], JobKind, name)
         == ActiveIds(m, JobKind, name) + (if a.OwnedBy(JobKind, name) then {a.id} else {})
  {
  }

  lemma SetsAfterRemove(m: map<string, Assignment>, id: string, name: string)
    requires id in m ==> m[id].ownerKind == ServiceKind
    ensures FailedIds(m - {id}, name) == FailedIds(m, name) && WonIds(m - {id}, name) == WonIds(m, name)
    ensures ActiveIds(m - {id}, JobKind, name) == ActiveIds(m, JobKind, name)
  {
  }

  // The run that a status change finishes, if it is one of this job's.
  ghost predicate Finishes(m: map<string, Assignment>, id: string, b: Assignment, name: string) {
    id in m && m[id].OwnedBy(JobKind, name) && m[id].Active() && !b.Active()
  }

  // A status change moves at most its own run from under way to finished.
  lemma SetsAfterStatus(m: map<string, Assignment>, id: string, b: Assignment, name: string)
    requires id in m && Evolves(m[id], b)
    ensures var done := if Finishes(m, id, b, name) then {id} else {};
      && ActiveIds(m[id := b], JobKind, name) == ActiveIds(m, JobKind, name) - done
      && FailedIds(m[id := b], name) == FailedIds(m, name) + (if b.phase == Failed then done else {})
      && WonIds(m[id := b], name) == WonIds(m, name) + (if b.phase == Succeeded then done else {})
  {
    assert m[id].OwnedBy(JobKind, name) <==> b.OwnedBy(JobKind, name);
  }

  lemma StatusCounts(m: map<string, Assignment>, id: string, b: Assignment, name: string)
    requires id in m && Evolves(m[id], b)
    ensures var m' := m[id := b];
      && |ActiveIds(m', JobKind, name)| + |WonIds(m', name)| <= |ActiveIds(m, JobKind, name)| + |WonIds(m, name)|
      && |ActiveIds(m', JobKind, name)| + |FailedIds(m', name)| <= |ActiveIds(m, JobKind, name)| + |FailedIds(m, name)|
  {
    SetsAfterStatus(m, id, b, name);
    if Finishes(m, id, b, name) { assert id in ActiveIds(m, JobKind, name); }
  }

  lemma SetsAfterDelete(m: map<string, Assignment>, kind: WorkloadKind, gone: string, name: string)
    ensures var m' := WithoutOwner(m, kind, gone);
      if kind == JobKind && name == gone then (
        ActiveIds(m', JobKind, name) == FailedIds(m', name) == WonIds(m', name) == {}
      ) else (
        && ActiveIds(m', JobKind, name) == ActiveIds(m, JobKind, name)
        && FailedIds(m', name) == FailedIds(m, name) && WonIds(m', name) == WonIds(m, name)
      )
  {
  }

  // The number a new run of a job is due.
  predicate NextAttempt(s: State, a: Assignment) {
    a.ownerKind == JobKind ==> a.attempt == |FailedIds(s.assignments, a.ownerName)| + 1
  }

  lemma KeepsAttempts(w: World, op: Op, name: string)
    requires WorldInv(false, w) && Guarded(false, w, op) && (op.SaveAssignment? ==> NextAttempt(w.store, op.assignment))
    requires AttemptsNumbered(w.store.assignments, name) && FailuresApart(w.store.assignments, name)
    ensures AttemptsNumbered(Apply(w.store, op).assignments, name) && FailuresApart(Apply(w.store, op).assignments, name)
  {
    hide Placed, KnownNodes, SaneSpecs, HasRoom;
    var s, m := w.store, w.store.assignments;
    assert JobCounts(s, name);
    match op
    case SaveAssignment(a) => SaveAttempts(s, a, name);
    case UpdateAssignmentStatus(id, phase, message, now) =>
      if id in m {
        var b := ApplyStatus(m[id], phase, message, now);
        StatusAttempts(m, id, b, name);
        StatusKeepsApart(m, id, b, name);
      }
    case DeleteJob(n) => if n in s.jobs { SetsAfterDelete(m, JobKind, n, name); }
    case DeleteService(n) => if n in s.services { SetsAfterDelete(m, ServiceKind, n, name); }
    case DeleteAssignment(id) => SetsAfterRemove(m, id, name);
    case _ =>
  }

  lemma SaveAttempts(s: State, a: Assignment, name: string)
    requires a.id !in s.assignments && a.phase == Pending
    requires AttemptsNumbered(s.assignments, name) && FailuresApart(s.assignments, name)
    requires a.OwnedBy(JobKind, name) ==> MayRun(true, s, a)
    ensures AttemptsNumbered(s.assignments[a.id := a], name) && FailuresApart(s.assignments[a.id := a], name)
  {
    SetsAfterSave(s.assignments, a, name);
  }

  lemma StatusAttempts(m: map<string, Assignment>, id: string, b: Assignment, name: string)
    requires id in m && Evolves(m[id], b) && AttemptsNumbered(m, name)
    requires |ActiveIds(m, JobKind, name)| + |WonIds(m, name)| <= 1
    ensures AttemptsNumbered(m[id := b], name)
  {
    hide ActiveIds, FailedIds, WonIds;
    var f, f' := |FailedIds(m, name)|, |FailedIds(m[id := b], name)|;
    OneMoreFailure(m, id, b, name);
    if Finishes(m, id, b, name) { OnlyRun(m, id, name); }
    forall i | i in m && m[i].OwnedBy(JobKind, name) && i != id ensures NumberedAfter(m[i], f') {
      assert NumberedAfter(m[i], f);
    }
    if m[id].OwnedBy(JobKind, name) { assert NumberedAfter(m[id], f); }
  }

  lemma OneMoreFailure(m: map<string, Assignment>, id: string, b: Assignment, name: string)
    requires id in m && Evolves(m[id], b)
    ensures |FailedIds(m[id := b], name)| == |FailedIds(m, name)| + if Finishes(m, id, b, name) && b.phase == Failed then 1 else 0
  {
    SetsAfterStatus(m, id, b, name);
  }

  lemma StatusKeepsApart(m: map<string, Assignment>, id: string, b: Assignment, name: string)
    requires id in m && Evolves(m[id], b) && AttemptsNumbered(m, name) && FailuresApart(m, name)
    ensures FailuresApart(m[id := b], name)
  {
    hide NumberedAfter, AttemptsNumbered;
    var m' := m[id := b];
    SetsAfterStatus(m, id, b, name);
    var failed, failed' := FailedIds(m, name), FailedIds(m', name);
    forall i | i in failed && Finishes(m, id, b, name) ensures m[i].attempt != b.attempt { LastAttempt(m, i, id, name); }
  }

  // A run under way is numbered above every failed one.
  lemma LastAttempt(m: map<string, Assignment>, i: string, id: string, name: string)
    requires AttemptsNumbered(m, name) && i in FailedIds(m, name)
    requires id in m && m[id].OwnedBy(JobKind, name) && m[id].Active()
    ensures m[i].attempt < m[id].attempt
  {
    assert NumberedAfter(m[i], |FailedIds(m, name)|) && NumberedAfter(m[id], |FailedIds(m, name)|);
  }

  // A run under way is the only one under way, and none has succeeded.
  lemma OnlyRun(m: map<string, Assignment>, id: string, name: string)
    requires id in m && m[id].OwnedBy(JobKind, name) && m[id].Active()
    requires |ActiveIds(m, JobKind, name)| + |WonIds(m, name)| <= 1
    ensures ActiveIds(m, JobKind, name) == {id} && WonIds(m, name) == {}
    ensures forall i | i in m && m[i].OwnedBy(JobKind, name) && i != id :: !m[i].Active() && m[i].phase != Succeeded
  {
    var active, won := ActiveIds(m, JobKind, name), WonIds(m, name);
    assert |active - {id}| + |won| == 0;
    assert active - {id} == {} && won == {};
    forall i | i in m && m[i].OwnedBy(JobKind, name) && i != id ensures !m[i].Active() && m[i].phase != Succeeded {
      assert (i in active <==> m[i].Active()) && (i in won <==> m[i].phase == Succeeded);
    }
  }

  lemma KeepsOwners(w: World, op: Op)
    requires WorldInv(true, w) && Guarded(true, w, op)
    ensures OwnersExist(Apply(w.store, op))
  {
    hide Placed, JobCounts, SaneSpecs, KnownNodes, HasRoom, MayRun, AttemptsNumbered, FailuresApart, Keyed;
  }

  lemma StrictIsMore(w: World, op: Op)
    requires WorldInv(true, w) && Guarded(true, w, op)
    ensures WorldInv(false, w) && Guarded(false, w, op) && (op.SaveAssignment? ==> NextAttempt(w.store, op.assignment))
    ensures forall name :: AttemptsNumbered(w.store.assignments, name) && FailuresApart(w.store.assignments, name)
  {
    hide Placed, JobCounts, SaneSpecs, KnownNodes, HasRoom, Keyed;
  }

  /** Every guarded operation keeps the world's invariant. */
  lemma KeepsWorldInv(strict: bool, w: World, op: Op)
    requires WorldInv(strict, w) && Guarded(strict, w, op)
    ensures WorldInv(strict, ApplyWorld(w, op))
  {
    var t := ApplyWorld(w, op);
    KeepsPlacement(strict, w, op);
    KeepsSpecs(strict, w, op);
    KeepsMemory(strict, w, op);
    forall name ensures JobCounts(t.store, name) { KeepsJobCounts(strict, w, op, name); }
    if strict {
      KeepsOwners(w, op);
      StrictIsMore(w, op);
      forall name ensures AttemptsNumbered(t.store.assignments, name) && FailuresApart(t.store.assignments, name) {
        KeepsAttempts(w, op, name);
      }
    }
  }

  lemma KeepsSpecs(strict: bool, w: World, op: Op)
    requires WorldInv(strict, w) && Guarded(strict, w, op)
    ensures Keyed(Apply(w.store, op)) && SaneSpecs(Apply(w.store, op))
  {
    hide WorldInv, Guarded, Keyed, Quantities, TimesMatchPhase, Apply;
    SoundSpecs(strict, w);
    KeepsKeys(w.store, op);
    KeepsQuantities(strict, w, op);
    KeepsTimes(strict, w, op);
  }

  lemma SoundSpecs(strict: bool, w: World)
    requires WorldInv(strict, w)
    ensures Keyed(w.store) && SaneSpecs(w.store)
  {
  }

  lemma KeepsKeys(s: State, op: Op)
    requires Keyed(s)
    ensures Keyed(Apply(s, op))
  {
  }

  lemma KeepsQuantities(strict: bool, w: World, op: Op)
    requires Keyed(w.store) && Quantities(w.store) && Guarded(strict, w, op)
    ensures Quantities(Apply(w.store, op))
  {
    hide HasRoom, MayRun;
  }

  lemma KeepsTimes(strict: bool, w: World, op: Op)
    requires SaneSpecs(w.store) && Guarded(strict, w, op)
    ensures forall id | id in Apply(w.store, op).assignments :: TimesMatchPhase(Apply(w.store, op).assignments[id])
  {
    hide HasRoom, MayRun, Quantities;
    if !op.SaveAssignment? { TimesStay(w.store, op); }
  }

  lemma KeepsMemory(strict: bool, w: World, op: Op)
    requires WorldInv(strict, w) && Guarded(strict, w, op)
    ensures Remembers(ApplyWorld(w, op).born, Apply(w.store, op).assignments)
    ensures forall id | id in ApplyWorld(w, op).born :: ApplyWorld(w, op).born[id].id == id
  {
    hide Placed, KnownNodes, JobCounts, StrictInv, HasRoom, MayRun, Quantities;
    if !op.SaveAssignment? { NonSaveShrinks(w.store, op); }
  }
}
