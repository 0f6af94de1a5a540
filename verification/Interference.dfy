/** What the API handlers may do to the store between two steps of the
    reconcile loop, and what survives it. */
module Interference {
  import opened Order
  import opened Api
  import opened Load
  import opened StoreState
  import opened Discipline
  import opened Scheduling
  import opened MemoryStores
  import opened Handlers
  import opened Reconciling

  // Nobody else runs; handlers run but no admin deletes; any handler runs.
  // strict: owners and attempt numbers were in order so far.
  datatype Mode = Quiet(strict: bool) | NoDeletes | Any

  predicate Strict(mode: Mode) {
    match mode
    case Quiet(strict) => strict
    case NoDeletes => true
    case Any => false
  }

  predicate Admits(mode: Mode, request: ApiRequest) {
    !mode.Quiet? && (mode == NoDeletes ==> !request.RemoveService? && !request.RemoveJob?)
  }

  ghost predicate NoRuns(s: State, name: string) {
    forall id | id in s.assignments :: !s.assignments[id].OwnedBy(JobKind, name)
  }

  // The job keeps its retry budget, or everything it owned is gone.
  ghost predicate KeepsJob(name: string, s: State, t: State) {
    && (name in s.jobs ==> (name in t.jobs && s.jobs[name].retries <= t.jobs[name].retries) || NoRuns(t, name))
    && (NoRuns(s, name) ==> NoRuns(t, name))
  }

  // Holds from any store to a later one within a reconcile, except what the loop adds.
  ghost predicate KeepsAllOwners(strict: bool, s: State, t: State) {
    strict ==> s.services.Keys <= t.services.Keys && s.jobs.Keys <= t.jobs.Keys
  }

  // What is Lost now was Lost then.
  ghost predicate NoNewLost(s: State, t: State) {
    forall id | id in t.assignments && t.assignments[id].phase == Lost :: id in s.assignments && s.assignments[id] == t.assignments[id]
  }

  // No active work is added, no node or owner's budget lost.
  ghost predicate Wane(strict: bool, s: State, t: State) {
    && NodesGrow(s, t)
    && Shrinks(s.assignments, t.assignments)
    && (forall name :: KeepsJob(name, s, t))
    && KeepsAllOwners(strict, s, t)
  }

  ghost predicate Drift(strict: bool, s: State, t: State) {
    Wane(strict, s, t) && NoNewLost(s, t)
  }

  // What other handlers can do in between.
  ghost predicate Rely(mode: Mode, s: State, t: State) {
    && (mode.Quiet? ==> t == s)
    && Drift(Strict(mode), s, t)
    && (Strict(mode) ==> s.assignments.Keys <= t.assignments.Keys)
  }

  lemma EvolvesTrans(a: Assignment, b: Assignment, c: Assignment)
    requires Evolves(a, b) && Evolves(b, c)
    ensures Evolves(a, c)
  {
  }

  lemma ShrinksTrans(m1: map<string, Assignment>, m2: map<string, Assignment>, m3: map<string, Assignment>)
    requires Shrinks(m1, m2) && Shrinks(m2, m3)
    ensures Shrinks(m1, m3)
  {
    forall id | id in m3 ensures id in m1 && Evolves(m1[id], m3[id]) { EvolvesTrans(m1[id], m2[id], m3[id]); }
  }

  lemma KeepsJobTrans(name: string, s: State, t: State, u: State)
    requires KeepsJob(name, s, t) && KeepsJob(name, t, u)
    ensures KeepsJob(name, s, u)
  {
  }

  lemma NodesGrowTrans(s: State, t: State, u: State)
    requires NodesGrow(s, t) && NodesGrow(t, u)
    ensures NodesGrow(s, u)
  {
  }

  lemma WaneTrans(strict: bool, s: State, t: State, u: State)
    requires Wane(strict, s, t) && Wane(strict, t, u)
    ensures Wane(strict, s, u)
  {
    ShrinksTrans(s.assignments, t.assignments, u.assignments);
    NodesGrowTrans(s, t, u);
    forall name ensures KeepsJob(name, s, u) { KeepsJobTrans(name, s, t, u); }
  }

  lemma NoNewLostTrans(s: State, t: State, u: State)
    requires NoNewLost(s, t) && NoNewLost(t, u)
    ensures NoNewLost(s, u)
  {
  }

  lemma DriftTrans(strict: bool, s: State, t: State, u: State)
    requires Drift(strict, s, t) && Drift(strict, t, u)
    ensures Drift(strict, s, u)
  {
    hide Wane, NoNewLost;
    WaneTrans(strict, s, t, u);
    NoNewLostTrans(s, t, u);
  }

  lemma RelyTrans(mode: Mode, s: State, t: State, u: State)
    requires Rely(mode, s, t) && Rely(mode, t, u)
    ensures Rely(mode, s, u)
  {
    DriftTrans(Strict(mode), s, t, u);
  }

  lemma DriftRefl(strict: bool, s: State)
    ensures Drift(strict, s, s)
  {
  }

  lemma RelyRefl(mode: Mode, s: State)
    ensures Rely(mode, s, s)
  {
  }

  // Operations that take no owner away and add no assignment only let the store drift.
  lemma NodesStep(s: State, op: Op, strict: bool, born: map<string, Assignment>)
    requires Keyed(s) && Guarded(strict, World(s, born), op)
    ensures NodesGrow(s, Apply(s, op))
  {
  }

  lemma RunsStep(s: State, op: Op, strict: bool, born: map<string, Assignment>, name: string)
    requires Keyed(s) && SaneSpecs(s) && Guarded(strict, World(s, born), op) && !op.SaveAssignment?
    ensures NoRuns(s, name) || (op == DeleteJob(name) && name in s.jobs) ==> NoRuns(Apply(s, op), name)
  {
    hide Quantities, TimesMatchPhase, MayPlace;
    NonSaveShrinks(s, op);
  }

  lemma JobStep(s: State, op: Op, strict: bool, born: map<string, Assignment>, name: string)
    requires Keyed(s) && SaneSpecs(s) && Guarded(strict, World(s, born), op) && !op.SaveAssignment?
    ensures KeepsJob(name, s, Apply(s, op))
  {
    hide Quantities, TimesMatchPhase, MayPlace, NoRuns;
    RunsStep(s, op, strict, born, name);
  }

  lemma WaneStep(strict: bool, w: World, op: Op)
    requires WorldInv(strict, w) && Guarded(strict, w, op) && !op.SaveAssignment?
    requires strict ==> !op.DeleteService? && !op.DeleteJob?
    ensures Wane(strict, w.store, Apply(w.store, op))
  {
    NonSaveShrinks(w.store, op);
    NodesStep(w.store, op, strict, w.born);
    forall name ensures KeepsJob(name, w.store, Apply(w.store, op)) { JobStep(w.store, op, strict, w.born, name); }
  }

  lemma NoNewLostStep(s: State, op: Op)
    requires !(op.UpdateAssignmentStatus? && op.phase == Lost) && !(op.SaveAssignment? && op.assignment.phase == Lost)
    ensures NoNewLost(s, Apply(s, op))
  {
  }

  lemma DriftStep(strict: bool, w: World, op: Op)
    requires WorldInv(strict, w) && Guarded(strict, w, op) && !op.SaveAssignment?
    requires strict ==> !op.DeleteService? && !op.DeleteJob?
    requires op.UpdateAssignmentStatus? ==> op.phase != Lost
    ensures Drift(strict, w.store, Apply(w.store, op))
  {
    hide WorldInv, Guarded, Wane, NoNewLost, Apply;
    WaneStep(strict, w, op);
    NoNewLostStep(w.store, op);
  }

  lemma RelyStep(mode: Mode, w: World, caller: string, request: ApiRequest, now: int)
    requires WorldInv(Strict(mode), w) && Admits(mode, request) && Reasonable(w.store, request, now)
    requires Effect(w.store, caller, request, now).Some?
    ensures Rely(mode, w.store, Apply(w.store, Effect(w.store, caller, request, now).value))
  {
    hide WorldInv, Guarded, Drift, Reasonable;
    var op := Effect(w.store, caller, request, now).value;
    EffectIsGuarded(Strict(mode), w, caller, request, now);
    DriftStep(Strict(mode), w, op);
  }

  // --- What survives -------------------------------------------------------

  lemma LiveStays(ctx: Ctx, s: State, t: State, n: string)
    requires NodesGrow(s, t) && Live(ctx, s.nodes, n)
    ensures Live(ctx, t.nodes, n)
  {
  }

  lemma ActiveLiveStays(ctx: Ctx, s: State, t: State)
    requires NodesGrow(s, t) && Shrinks(s.assignments, t.assignments) && AllActiveLive(ctx, s)
    ensures AllActiveLive(ctx, t)
  {
    forall id | id in t.assignments && t.assignments[id].Active() ensures Live(ctx, t.nodes, t.assignments[id].nodeId) {
      LiveStays(ctx, s, t, t.assignments[id].nodeId);
    }
  }

  /** The scheduler's check, made on lists read earlier, still holds when the
      assignment is saved: nobody but the loop adds active work. */
  lemma CheckStays(ctx: Ctx, nodesRead: State, listRead: State, t: State, request: Request, n: string)
    requires NodesGrow(nodesRead, t) && Shrinks(listRead.assignments, t.assignments)
    requires SaneSpecs(listRead)
    requires Fits(ctx.now, ctx.timeout, GracedNodes(ctx, nodesRead.nodes), listRead.assignments, request, n)
    ensures n in t.nodes && HasRoom(LoadOf(t.assignments, n), t.nodes[n].capacity, request.Asked())
  {
    LoadShrinks(listRead.assignments, t.assignments, n);
    RoomWithin(LoadOf(t.assignments, n), LoadOf(listRead.assignments, n), nodesRead.nodes[n].capacity,
               t.nodes[n].capacity, request.Asked());
  }

  // Every operation of a trace was guarded where it happened.
  ghost predicate Disciplined(strict: bool, origin: World, ops: seq<Op>) {
    ops == [] || (
      && Disciplined(strict, origin, ops[..|ops| - 1])
      && Guarded(strict, Replay(origin, ops[..|ops| - 1]), ops[|ops| - 1]))
  }

  lemma DisciplinedStep(strict: bool, origin: World, ops: seq<Op>, op: Op)
    requires Disciplined(strict, origin, ops) && WorldInv(strict, Replay(origin, ops))
    requires Guarded(strict, Replay(origin, ops), op)
    ensures Disciplined(strict, origin, ops + [op]) && WorldInv(strict, Replay(origin, ops + [op]))
  {
    assert (ops + [op])[..|ops|] == ops;
    KeepsWorldInv(strict, Replay(origin, ops), op);
  }

  // The operations of the reconcile loop itself.
  predicate IsLoopOp(op: Op) {
    match op
    case UpdateServiceStatus(_, _) | UpdateJobStatus(_, _) | SaveAssignment(_) | DeleteAssignment(_) => true
    case UpdateAssignmentStatus(_, phase, _, _) => phase == Lost
    case _ => false
  }

  // Where an operation on s comes from: the loop, or an admitted request.
  ghost predicate Allowed(mode: Mode, s: State, op: Op) {
    IsLoopOp(op) || exists caller, request, now :: Asked(mode, s, caller, request, now, op)
  }

  ghost predicate Asked(mode: Mode, s: State, caller: string, request: ApiRequest, now: int, op: Op) {
    Admits(mode, request) && Reasonable(s, request, now) && Effect(s, caller, request, now) == Some(op)
  }

  lemma RequestAllowed(mode: Mode, s: State, caller: string, request: ApiRequest, now: int, op: Op)
    requires Admits(mode, request) && Reasonable(s, request, now) && Effect(s, caller, request, now) == Some(op)
    ensures Allowed(mode, s, op) && !op.SaveAssignment?
  {
    assert Asked(mode, s, caller, request, now, op);
  }

  // Every operation of a trace from since on was allowed where it happened.
  ghost predicate Accounted(mode: Mode, origin: World, ops: seq<Op>, since: nat) {
    |ops| <= since || (
      && Accounted(mode, origin, ops[..|ops| - 1], since)
      && Allowed(mode, Replay(origin, ops[..|ops| - 1]).store, ops[|ops| - 1]))
  }

  // All of it was guarded, and what came since is accounted for.
  ghost predicate InOrder(mode: Mode, origin: World, ops: seq<Op>, since: nat) {
    Disciplined(Strict(mode), origin, ops) && since <= |ops| && Accounted(mode, origin, ops, since)
  }

  lemma BeginsInOrder(mode: Mode, origin: World, ops: seq<Op>)
    requires Disciplined(Strict(mode), origin, ops)
    ensures InOrder(mode, origin, ops, |ops|)
  {
  }

  lemma WasInOrder(mode: Mode, origin: World, ops: seq<Op>, since: nat)
    requires InOrder(mode, origin, ops, since)
    ensures Disciplined(Strict(mode), origin, ops)
  {
  }

  lemma InOrderStep(mode: Mode, origin: World, ops: seq<Op>, since: nat, op: Op)
    requires InOrder(mode, origin, ops, since) && WorldInv(Strict(mode), Replay(origin, ops))
    requires Guarded(Strict(mode), Replay(origin, ops), op) && Allowed(mode, Replay(origin, ops).store, op)
    ensures InOrder(mode, origin, ops + [op], since) && WorldInv(Strict(mode), Replay(origin, ops + [op]))
  {
    hide Guarded, WorldInv, Allowed;
    assert (ops + [op])[..|ops|] == ops;
    DisciplinedStep(Strict(mode), origin, ops, op);
  }

  // A trace from w to v, told from its first operation on.
  ghost predicate IsTrace(mode: Mode, w: World, ops: seq<Op>, v: World) {
    InOrder(mode, w, ops, 0) && v == Replay(w, ops)
  }

  /** What came since is a trace of its own. */
  lemma {:induction false} TraceSince(mode: Mode, origin: World, ops: seq<Op>, since: nat)
    requires InOrder(mode, origin, ops, since)
    ensures IsTrace(mode, Replay(origin, ops[..since]), ops[since..], Replay(origin, ops))
    decreases |ops|
  {
    hide Guarded, Allowed;
    if |ops| == since {
      assert ops[..since] == ops && ops[since..] == [];
    } else {
      var k := |ops| - 1;
      TraceSince(mode, origin, ops[..k], since);
      assert ops[..k][..since] == ops[..since];
      assert ops[since..][..k - since] == ops[..k][since..];
    }
  }

  /** Undisturbed, a trace holds the loop's operations only. */
  lemma {:induction false} QuietTrace(mode: Mode, w: World, ops: seq<Op>)
    requires mode.Quiet? && Accounted(mode, w, ops, 0)
    ensures forall op | op in ops :: IsLoopOp(op)
  {
    if ops != [] {
      QuietTrace(mode, w, ops[..|ops| - 1]);
      assert ops == ops[..|ops| - 1] + [ops[|ops| - 1]];
    }
  }

  /** Along a disciplined run the invariant holds after every single operation. */
  lemma {:induction false} DisciplineKeepsInv(strict: bool, origin: World, ops: seq<Op>, k: nat)
    requires WorldInv(strict, origin) && Disciplined(strict, origin, ops) && k <= |ops|
    ensures WorldInv(strict, Replay(origin, ops[..k]))
    decreases |ops|
  {
    if ops != [] {
      var init := ops[..|ops| - 1];
      DisciplineKeepsInv(strict, origin, init, |init|);
      assert init[..|init|] == init;
      if k < |ops| {
        DisciplineKeepsInv(strict, origin, init, k);
        assert ops[..k] == init[..k];
      } else {
        KeepsWorldInv(strict, Replay(origin, init), ops[|ops| - 1]);
        assert ops[..k] == ops;
      }
    } else {
      assert ops[..k] == [];
    }
  }

  // --- Fresh names ---------------------------------------------------------

  ghost function Longest(ids: set<string>): nat
    ensures forall id | id in ids :: |id| <= Longest(ids)
  {
    if ids == {} then 0 else
      var id :| id in ids;
      var rest := Longest(ids - {id});
      assert forall i | i in ids :: i == id || i in ids - {id};
      if |id| > rest then |id| else rest
  }

  lemma FreshExists(ids: set<string>)
    ensures exists id: string :: id !in ids
  {
    var id: string := seq(Longest(ids) + 1, i => 'x');
    assert id !in ids;
  }
}
