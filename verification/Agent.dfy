/** The node agent (internal/agent): it brings the runtime to what the controller lists. */
module Agents {
  import opened Order
  import opened Api
  import opened Runtimes

  // What a fetched list asks for; of equal IDs the last counts.
  function Desired(list: seq<Assignment>): map<string, Assignment> {
    if list == [] then map[] else
      var a := list[|list| - 1];
      var before := Desired(list[..|list| - 1]);
      if a.Active() then before[a.id := a] else before
  }

  // What is held once a sync has run through.
  function SyncedHeld(held: Held, desired: map<string, Assignment>): Held {
    map id | id in desired :: if id in held then held[id] else Started(desired[id])
  }

  function ReportOf(id: string, task: Task): Report { Report(id, task.phase, task.message) }

  // The reports a sync sends: one for each running task it stops, one for each
  // wanted assignment this process was not yet tracking.
  function SyncReports(held: Held, tracked: set<string>, desired: map<string, Assignment>): set<Report> {
    StopReports(held, desired) + StartReports(held, tracked, desired)
  }

  function StopReports(held: Held, desired: map<string, Assignment>): set<Report> {
    set id | id in held && id !in desired && !IsTerminalPhase(held[id].phase) :: Report(id, Stopped, STOPPED)
  }

  function StartReports(held: Held, tracked: set<string>, desired: map<string, Assignment>): set<Report> {
    set id | id in desired && id !in tracked :: ReportOf(id, SyncedHeld(held, desired)[id])
  }

  /** Exactly what a sync reports: unfinished work it stops, and wanted work this
      process did not track. A wanted task that is tracked is not reported again,
      so a lost Running report stays lost until the task ends or the agent restarts. */
  lemma ReportedExactly(held: Held, tracked: set<string>, desired: map<string, Assignment>, id: string)
    ensures (exists r | r in SyncReports(held, tracked, desired) :: r.id == id)
        <==> ((id in desired && id !in tracked) || (id in held && id !in desired && !IsTerminalPhase(held[id].phase)))
    ensures id in desired && id in held && id !in tracked ==> ReportOf(id, held[id]) in SyncReports(held, tracked, desired)
  {
    if id in desired && id !in tracked {
      assert ReportOf(id, SyncedHeld(held, desired)[id]) in StartReports(held, tracked, desired);
    } else if id in held && id !in desired && !IsTerminalPhase(held[id].phase) {
      assert Report(id, Stopped, STOPPED) in StopReports(held, desired);
    }
  }

  /** The same report by report, and what the sync leaves, on the fields alone: a
      wanted task that was held is kept as it is, another one is started; reported
      are those not tracked so far, in the phase they are in, and unfinished tasks
      that are dropped, as stopped by the agent. */
  lemma SyncExactly(held: Held, tracked: set<string>, desired: map<string, Assignment>)
    ensures var now := SyncedHeld(held, desired);
      now.Keys == desired.Keys && forall id | id in desired ::
        if id in held then now[id] == held[id]
        else now[id].assignment == desired[id] && now[id].phase == Running && now[id].message == "simulated runtime started assignment"
    ensures forall r :: r in SyncReports(held, tracked, desired) <==>
      || (r.id in desired && r.id !in tracked
          && (if r.id in held then r.phase == held[r.id].phase && r.message == held[r.id].message
              else r.phase == Running && r.message == "simulated runtime started assignment"))
      || (r.id in held && r.id !in desired && (held[r.id].phase == Pending || held[r.id].phase == Running)
          && r.phase == Stopped && r.message == "stopped by agent")
  {
    forall r ensures r in StartReports(held, tracked, desired) <==>
      r.id in desired && r.id !in tracked && r == ReportOf(r.id, SyncedHeld(held, desired)[r.id]) { }
    forall r ensures r in StopReports(held, desired) <==>
      r.id in held && r.id !in desired && !IsTerminalPhase(held[r.id].phase) && r == Report(r.id, Stopped, STOPPED) { }
  }

  // The last entry of the list for this ID that is pending or running.
  predicate LastFor(list: seq<Assignment>, id: string, i: nat) {
    && i < |list| && list[i].id == id && (list[i].phase == Pending || list[i].phase == Running)
    && forall j | i < j < |list| && list[j].id == id :: !(list[j].phase == Pending || list[j].phase == Running)
  }

  lemma LastBefore(list: seq<Assignment>, id: string, i: nat)
    requires list != [] && !(list[|list| - 1].id == id && (list[|list| - 1].phase == Pending || list[|list| - 1].phase == Running))
    ensures LastFor(list, id, i) <==> LastFor(list[..|list| - 1], id, i)
    ensures LastFor(list, id, i) ==> i < |list| - 1 && list[..|list| - 1][i] == list[i]
  {
    if LastFor(list[..|list| - 1], id, i) {
      forall j | i < j < |list| && list[j].id == id ensures !(list[j].phase == Pending || list[j].phase == Running) {
        if j < |list| - 1 { assert list[..|list| - 1][j] == list[j]; }
      }
    }
  }

  /** What a list asks for: of every ID the last pending or running entry. */
  lemma {:induction false} DesiredExactly(list: seq<Assignment>, id: string)
    ensures id in Desired(list) <==> exists i: nat :: LastFor(list, id, i)
    ensures forall i: nat | LastFor(list, id, i) :: id in Desired(list) && Desired(list)[id] == list[i]
  {
    hide LastFor;
    if list == [] {
      forall i: nat ensures !LastFor(list, id, i) { NoneLast(id, i); }
    } else {
      var k := |list| - 1;
      if list[k].Active() && list[k].id == id {
        LastIsLast(list, id);
        assert LastFor(list, id, k);
      } else {
        DesiredExactly(list[..k], id);
        forall i: nat ensures LastFor(list, id, i) <==> LastFor(list[..k], id, i)
                      ensures LastFor(list, id, i) ==> i < k && list[..k][i] == list[i]
        {
          LastBefore(list, id, i);
        }
      }
    }
  }

  lemma NoneLast(id: string, i: nat)
    ensures !LastFor([], id, i)
  {
  }

  lemma LastIsLast(list: seq<Assignment>, id: string)
    requires list != [] && list[|list| - 1].Active() && list[|list| - 1].id == id
    ensures forall i: nat :: LastFor(list, id, i) <==> i == |list| - 1
  {
  }

  function Kept(held: Held, desired: map<string, Assignment>): Held {
    map id | id in held && id in desired :: held[id]
  }

  function StartedHeld(held: Held, assignment: Assignment): Held {
    if assignment.id in held then held else held[assignment.id := Started(assignment)]
  }

  function TrackedAfter(held: Held, tracked: set<string>, assignment: Assignment): set<string> {
    if IsTerminalPhase(StartedHeld(held, assignment)[assignment.id].phase) then tracked - {assignment.id}
    else tracked + {assignment.id}
  }

  // What a runtime holds and what the agent tracks of it.
  datatype Books = Books(held: Held, tracked: set<string>)

  // Tracked tasks are held and unfinished.
  ghost predicate Tidy(b: Books) {
    forall id | id in b.tracked :: id in b.held && !IsTerminalPhase(b.held[id].phase)
  }

  // A held task has come to an end: it says so itself, and is tracked no more.
  function Ended(b: Books, report: Report): Books
    requires report.id in b.held
  {
    Books(b.held[report.id := Task(b.held[report.id].assignment, report.phase, report.message)], b.tracked - {report.id})
  }

  // --- One sync, call by call ----------------------------------------------

  function StopStep(b: Books, id: string): Books { Books(b.held - {id}, b.tracked - {id}) }

  function StopReport(b: Books, id: string): seq<Report> {
    if id in b.held && !IsTerminalPhase(b.held[id].phase) then [Report(id, Stopped, STOPPED)] else []
  }

  // One wanted assignment gone over; skipped if it is tracked already.
  function StartStep(b: Books, a: Assignment): Books {
    if a.id in b.tracked then b else Books(StartedHeld(b.held, a), TrackedAfter(b.held, b.tracked, a))
  }

  function StartReport(b: Books, a: Assignment): seq<Report> {
    if a.id in b.tracked then [] else [ReportOf(a.id, StartedHeld(b.held, a)[a.id])]
  }

  // The books once these IDs have been stopped, the reports sent on the way, and
  // what was held after each stop.
  function AfterStops(b: Books, ids: seq<string>): Books {
    if ids == [] then b else StopStep(AfterStops(b, ids[..|ids| - 1]), ids[|ids| - 1])
  }

  function StopOut(b: Books, ids: seq<string>): seq<Report> {
    if ids == [] then [] else StopOut(b, ids[..|ids| - 1]) + StopReport(AfterStops(b, ids[..|ids| - 1]), ids[|ids| - 1])
  }

  function StopHistory(b: Books, ids: seq<string>): seq<Held> {
    if ids == [] then [] else StopHistory(b, ids[..|ids| - 1]) + [AfterStops(b, ids).held]
  }

  // The same for wanted assignments gone over.
  function AfterStarts(b: Books, xs: seq<Assignment>): Books {
    if xs == [] then b else StartStep(AfterStarts(b, xs[..|xs| - 1]), xs[|xs| - 1])
  }

  function StartOut(b: Books, xs: seq<Assignment>): seq<Report> {
    if xs == [] then [] else StartOut(b, xs[..|xs| - 1]) + StartReport(AfterStarts(b, xs[..|xs| - 1]), xs[|xs| - 1])
  }

  function StartHistory(b: Books, xs: seq<Assignment>): seq<Held> {
    if xs == [] then [] else
      var before := AfterStarts(b, xs[..|xs| - 1]);
      StartHistory(b, xs[..|xs| - 1]) + if xs[|xs| - 1].id in before.tracked then [] else [AfterStarts(b, xs).held]
  }

  lemma OneMoreStop(b: Books, ids: seq<string>, id: string)
    ensures AfterStops(b, ids + [id]) == StopStep(AfterStops(b, ids), id)
    ensures StopOut(b, ids + [id]) == StopOut(b, ids) + StopReport(AfterStops(b, ids), id)
    ensures StopHistory(b, ids + [id]) == StopHistory(b, ids) + [AfterStops(b, ids + [id]).held]
  {
    assert (ids + [id])[..|ids|] == ids;
  }

  lemma OneMoreStart(b: Books, xs: seq<Assignment>, a: Assignment)
    ensures AfterStarts(b, xs + [a]) == StartStep(AfterStarts(b, xs), a)
    ensures StartOut(b, xs + [a]) == StartOut(b, xs) + StartReport(AfterStarts(b, xs), a)
    ensures StartHistory(b, xs + [a])
         == StartHistory(b, xs) + if a.id in AfterStarts(b, xs).tracked then [] else [AfterStarts(b, xs + [a]).held]
  {
    assert (xs + [a])[..|xs|] == xs;
  }

  function Members(ids: seq<string>): set<string> { set id | id in ids }

  function IdsOf(xs: seq<Assignment>): set<string> { set a | a in xs :: a.id }

  // Each ID once.
  ghost predicate IdsApart(xs: seq<Assignment>) {
    forall i, j | 0 <= i < j < |xs| :: xs[i].id != xs[j].id
  }

  ghost predicate AllWanted(xs: seq<Assignment>, desired: map<string, Assignment>) {
    forall a | a in xs :: a.id in desired && desired[a.id] == a
  }

  // --- What it comes to ----------------------------------------------------

  lemma {:induction false} StopsCome(b: Books, ids: seq<string>)
    ensures AfterStops(b, ids) == Books(b.held - Members(ids), b.tracked - Members(ids))
    ensures forall k | 0 <= k < |StopHistory(b, ids)| :: PartOf(StopHistory(b, ids)[k], b.held)
  {
    if ids != [] {
      StopsCome(b, ids[..|ids| - 1]);
      assert ids == ids[..|ids| - 1] + [ids[|ids| - 1]];
      assert Members(ids) == Members(ids[..|ids| - 1]) + {ids[|ids| - 1]};
    }
  }

  lemma {:induction false} StopsReport(b: Books, ids: seq<string>)
    requires Distinct(ids) && Members(ids) <= b.held.Keys
    ensures Reports(StopOut(b, ids)) == set id | id in ids && id in b.held && !IsTerminalPhase(b.held[id].phase) :: Report(id, Stopped, STOPPED)
  {
    hide AfterStops;
    if ids != [] {
      var k := |ids| - 1;
      var last := ids[k];
      assert ids == ids[..k] + [last] && last !in ids[..k];
      assert Members(ids[..k]) <= Members(ids);
      StopsReport(b, ids[..k]);
      StopsCome(b, ids[..k]);
      assert last in ids;
      ReportsJoin(StopOut(b, ids[..k]), StopReport(AfterStops(b, ids[..k]), last));
    }
  }

  // Books whose held and tracked parts are what is due after these starts.
  function Due(b: Books, desired: map<string, Assignment>, done: set<string>): Books {
    Books(map id | id in b.held.Keys + (desired.Keys * done) :: if id in b.held then b.held[id] else Started(desired[id]),
          b.tracked + set id | id in desired.Keys * done && !IsTerminalPhase(SyncedHeld(b.held, desired)[id].phase))
  }

  lemma DueStep(b: Books, desired: map<string, Assignment>, done: set<string>, a: Assignment)
    requires Tidy(b) && b.held.Keys <= desired.Keys && a.id in desired && desired[a.id] == a && a.id !in done
    ensures StartStep(Due(b, desired, done), a) == Due(b, desired, done + {a.id})
    ensures a.id in Due(b, desired, done).tracked <==> a.id in b.tracked
    ensures StartedHeld(Due(b, desired, done).held, a)[a.id] == SyncedHeld(b.held, desired)[a.id]
    ensures PartOf(Due(b, desired, done).held, SyncedHeld(b.held, desired))
  {
    var d, e := Due(b, desired, done), Due(b, desired, done + {a.id});
    assert desired.Keys * (done + {a.id}) == desired.Keys * done + {a.id};
    if a.id in b.tracked {
      assert a.id in b.held && d.held == e.held && d.tracked == e.tracked;
    } else {
      assert StartedHeld(d.held, a) == e.held;
      assert TrackedAfter(d.held, d.tracked, a) == e.tracked;
    }
  }

  lemma DueAtFirst(b: Books, desired: map<string, Assignment>)
    ensures Due(b, desired, {}) == b
  {
  }

  lemma DueAtLast(b: Books, desired: map<string, Assignment>)
    requires Tidy(b) && b.held.Keys <= desired.Keys
    ensures Due(b, desired, desired.Keys).held == SyncedHeld(b.held, desired)
    ensures Due(b, desired, desired.Keys).tracked == set id | id in desired && !IsTerminalPhase(SyncedHeld(b.held, desired)[id].phase)
  {
  }

  lemma IdsStep(xs: seq<Assignment>, k: nat)
    requires |xs| == k + 1 && IdsApart(xs)
    ensures IdsOf(xs) == IdsOf(xs[..k]) + {xs[k].id} && xs[k].id !in IdsOf(xs[..k])
  {
    assert xs == xs[..k] + [xs[k]];
  }

  lemma {:induction false} StartsCome(b: Books, desired: map<string, Assignment>, xs: seq<Assignment>)
    requires Tidy(b) && b.held.Keys <= desired.Keys && IdsApart(xs) && AllWanted(xs, desired)
    ensures AfterStarts(b, xs) == Due(b, desired, IdsOf(xs))
    ensures forall k | 0 <= k < |StartHistory(b, xs)| :: PartOf(StartHistory(b, xs)[k], SyncedHeld(b.held, desired))
  {
    hide Due, StartStep, SyncedHeld, PartOf;
    if xs == [] {
      assert IdsOf(xs) == {};
      DueAtFirst(b, desired);
    } else {
      var k := |xs| - 1;
      assert forall a | a in xs[..k] :: a in xs;
      StartsCome(b, desired, xs[..k]);
      IdsStep(xs, k);
      DueStep(b, desired, IdsOf(xs[..k]), xs[k]);
      DuePart(b, desired, IdsOf(xs));
    }
  }

  lemma DuePart(b: Books, desired: map<string, Assignment>, done: set<string>)
    requires b.held.Keys <= desired.Keys
    ensures PartOf(Due(b, desired, done).held, SyncedHeld(b.held, desired))
  {
  }

  lemma {:induction false} StartsReport(b: Books, desired: map<string, Assignment>, xs: seq<Assignment>)
    requires Tidy(b) && b.held.Keys <= desired.Keys && IdsApart(xs) && AllWanted(xs, desired)
    ensures Reports(StartOut(b, xs)) == StartReportsOf(b, desired, IdsOf(xs))
  {
    hide Due, StartStep, StartReport, SyncedHeld, AfterStarts, StartReportsOf, Reports, IdsOf;
    NoneReported(b, desired);
    if xs != [] {
      var k := |xs| - 1;
      assert forall a | a in xs[..k] :: a in xs;
      StartsReport(b, desired, xs[..k]);
      StartsCome(b, desired, xs[..k]);
      IdsStep(xs, k);
      DueStep(b, desired, IdsOf(xs[..k]), xs[k]);
      ReportsJoin(StartOut(b, xs[..k]), StartReport(AfterStarts(b, xs[..k]), xs[k]));
      OneReported(AfterStarts(b, xs[..k]), xs[k]);
      StartReportsStep(b, desired, IdsOf(xs[..k]), xs[k]);
    }
  }

  lemma NoneReported(b: Books, desired: map<string, Assignment>)
    ensures StartReportsOf(b, desired, IdsOf([])) == {} == Reports([])
  {
  }

  lemma OneReported(b: Books, a: Assignment)
    ensures Reports(StartReport(b, a)) == if a.id in b.tracked then {} else {ReportOf(a.id, StartedHeld(b.held, a)[a.id])}
  {
    ReportsJoin([], []);
  }

  function StartReportsOf(b: Books, desired: map<string, Assignment>, done: set<string>): set<Report> {
    set id | id in desired.Keys * done && id !in b.tracked :: ReportOf(id, SyncedHeld(b.held, desired)[id])
  }

  lemma StartReportsStep(b: Books, desired: map<string, Assignment>, done: set<string>, a: Assignment)
    requires a.id in desired && a.id !in done
    ensures StartReportsOf(b, desired, done + {a.id})
         == StartReportsOf(b, desired, done) + (if a.id in b.tracked then {} else {ReportOf(a.id, SyncedHeld(b.held, desired)[a.id])})
  {
    assert desired.Keys * (done + {a.id}) == desired.Keys * done + {a.id};
  }

  function Reports(out: seq<Report>): set<Report> { set r | r in out }

  lemma ReportsJoin(out: seq<Report>, more: seq<Report>)
    ensures Reports(out + more) == Reports(out) + Reports(more)
    ensures Reports([]) == {} && forall r :: Reports([r]) == {r}
  {
  }

  ghost predicate PartOf(part: Held, whole: Held) {
    forall id | id in part :: id in whole && part[id] == whole[id]
  }

  lemma {:induction false} DesiredKeyed(list: seq<Assignment>)
    ensures forall id | id in Desired(list) :: Desired(list)[id].id == id && Desired(list)[id] in list && Desired(list)[id].Active()
  {
    if list != [] {
      DesiredKeyed(list[..|list| - 1]);
      assert list == list[..|list| - 1] + [list[|list| - 1]];
    }
  }

  // The stops and starts of one sync: all that is unwanted, then all that is wanted, each once.
  ghost predicate IsSync(b: Books, desired: map<string, Assignment>, stops: seq<string>, starts: seq<Assignment>) {
    && Distinct(stops) && Members(stops) == b.held.Keys - desired.Keys
    && IdsApart(starts) && AllWanted(starts, desired) && IdsOf(starts) == desired.Keys
  }

  // The books after it, and the reports in the order they were sent.
  function Synced(b: Books, stops: seq<string>, starts: seq<Assignment>): Books {
    AfterStarts(AfterStops(b, stops), starts)
  }

  function SyncOut(b: Books, stops: seq<string>, starts: seq<Assignment>): seq<Report> {
    StopOut(b, stops) + StartOut(AfterStops(b, stops), starts)
  }

  function SyncHistory(b: Books, stops: seq<string>, starts: seq<Assignment>): seq<Held> {
    StopHistory(b, stops) + StartHistory(AfterStops(b, stops), starts)
  }

  // The books between the stops and the starts.
  lemma StopsLeave(b: Books, desired: map<string, Assignment>, stops: seq<string>)
    requires Tidy(b) && Members(stops) == b.held.Keys - desired.Keys
    ensures AfterStops(b, stops) == Books(Kept(b.held, desired), b.tracked * desired.Keys) && Tidy(AfterStops(b, stops))
    ensures SyncedHeld(Kept(b.held, desired), desired) == SyncedHeld(b.held, desired)
    ensures Kept(b.held, desired).Keys <= desired.Keys
  {
    StopsCome(b, stops);
    assert b.held - Members(stops) == Kept(b.held, desired);
    assert b.tracked - Members(stops) == b.tracked * desired.Keys;
  }

  /** In whatever order its stops and its starts are gone over, a sync ends with
      exactly what is wanted held, exactly the unfinished part of it tracked, and
      exactly the reports of SyncReports sent; and all stops come before any start. */
  lemma SyncComes(b: Books, desired: map<string, Assignment>, stops: seq<string>, starts: seq<Assignment>)
    requires Tidy(b) && IsSync(b, desired, stops, starts)
    ensures Synced(b, stops, starts)
         == Books(SyncedHeld(b.held, desired), set id | id in desired && !IsTerminalPhase(SyncedHeld(b.held, desired)[id].phase))
    ensures Reports(SyncOut(b, stops, starts)) == SyncReports(b.held, b.tracked, desired)
    ensures StopsFirst(SyncHistory(b, stops, starts), b.held, desired)
    ensures SyncedHeld(b.held, desired).Keys == desired.Keys
  {
    hide AfterStops, AfterStarts, StopOut, StartOut, StopHistory, StartHistory, SyncedHeld, PartOf, Due, StartReportsOf;
    AllReported(b.held, desired);
    var kept := AfterStops(b, stops);
    StopsLeave(b, desired, stops);
    StopsCome(b, stops);
    StopsReport(b, stops);
    StartsCome(kept, desired, starts);
    StartsReport(kept, desired, starts);
    DueAtLast(kept, desired);
    SyncReportsAre(b, desired, stops, kept);
    ReportsJoin(StopOut(b, stops), StartOut(kept, starts));
    HistoryIs(StopHistory(b, stops), StartHistory(kept, starts), b.held, desired);
  }

  lemma SyncReportsAre(b: Books, desired: map<string, Assignment>, stops: seq<string>, kept: Books)
    requires Members(stops) == b.held.Keys - desired.Keys
    requires kept.tracked == b.tracked * desired.Keys && SyncedHeld(kept.held, desired) == SyncedHeld(b.held, desired)
    ensures (set id | id in stops && id in b.held && !IsTerminalPhase(b.held[id].phase) :: Report(id, Stopped, STOPPED)) == StopReports(b.held, desired)
    ensures StartReportsOf(kept, desired, desired.Keys) == StartReports(b.held, b.tracked, desired)
  {
    assert forall id :: id in stops <==> id in Members(stops);
    assert desired.Keys * desired.Keys == desired.Keys;
  }

  lemma HistoryIs(stopped: seq<Held>, started: seq<Held>, held: Held, desired: map<string, Assignment>)
    requires forall k | 0 <= k < |stopped| :: PartOf(stopped[k], held)
    requires forall k | 0 <= k < |started| :: PartOf(started[k], SyncedHeld(held, desired))
    ensures StopsFirst(stopped + started, held, desired)
  {
    hide PartOf;
    assert StopsUntil(|stopped|, stopped + started, held, desired);
  }

  // Held while stopping: part of what was there. Held while starting: wanted only.
  ghost predicate StopsFirst(steps: seq<Held>, held: Held, desired: map<string, Assignment>) {
    exists n :: StopsUntil(n, steps, held, desired)
  }

  ghost predicate StopsUntil(n: nat, steps: seq<Held>, held: Held, desired: map<string, Assignment>) {
    && n <= |steps|
    && (forall k | 0 <= k < n :: PartOf(steps[k], held))
    && (forall k | n <= k < |steps| :: PartOf(steps[k], SyncedHeld(held, desired)))
  }

  class Agent {
    const nodeId: string
    const executor: SimExecutor

    // The books of this process: IDs held, unfinished, and reporting to it (see Valid).
    var tracked: set<string>
    // Counts restarts: each agent process is a new reporter.
    var process: nat
    // Every status update sent so far; the network may lose or delay any of them.
    ghost var sent: seq<Report>

    constructor (nodeId: string, executor: SimExecutor, process: nat)
      requires executor.Valid()
      ensures this.nodeId == nodeId && this.executor == executor && this.process == process
      ensures Valid() && tracked == {} && sent == []
    {
      this.nodeId, this.executor, this.process := nodeId, executor, process;
      tracked, sent := {}, [];
    }

    // Tracked tasks are held, unfinished, and report to this process.
    ghost predicate Valid()
      reads this, executor, executor.tasks.Values
    {
      && executor.Valid()
      && forall id | id in tracked ::
           id in executor.tasks && !IsTerminalPhase(executor.Held()[id].phase) && executor.tasks[id].reporter == process
    }

    ghost function Now(): Books
      reads this, executor, executor.tasks.Values
    {
      Books(executor.Held(), tracked)
    }

    lemma ValidIsTidy()
      requires Valid()
      ensures Tidy(Now()) && executor.tasks.Keys == executor.Held().Keys
      ensures executor.Valid() && forall id | id in tracked :: id in executor.tasks && executor.tasks[id].reporter == process
    {
    }

    lemma TidyIsValid()
      requires Tidy(Now()) && executor.Valid()
      requires forall id | id in tracked :: id in executor.tasks && executor.tasks[id].reporter == process
      ensures Valid()
    {
    }

    // Adds id to the books; the answer says whether it was missing there.
    method Track(id: string) returns (isNew: bool)
      modifies `tracked
      ensures isNew == (id !in old(tracked)) && tracked == old(tracked) + {id}
    {
      if id in tracked { return false; }
      tracked := tracked + {id};
      isNew := true;
    }

    method Untrack(id: string)
      modifies `tracked
      ensures tracked == old(tracked) - {id}
    {
      tracked := tracked - {id};
    }

    // What a reporter does: the update goes to the controller whichever process
    // the reporter came from; a finished ID leaves the books of that process only.
    method Send(report: Report, reporter: nat)
      modifies `tracked, `sent
      ensures sent == old(sent) + [report]
      ensures tracked == if reporter == process && IsTerminalPhase(report.phase) then old(tracked) - {report.id} else old(tracked)
    {
      sent := sent + [report];
      if reporter == process && IsTerminalPhase(report.phase) { Untrack(report.id); }
    }

    // The runtime's goroutine for a job task: its end goes to the task's reporter.
    method JobEnds(id: string) returns (report: Report)
      requires Valid() && id in executor.tasks
      requires executor.tasks[id].assignment.ownerKind == JobKind && !IsTerminalPhase(executor.tasks[id].phase)
      modifies this, executor.tasks[id]
      ensures Valid() && report.id == id && report.phase in {Succeeded, Failed}
      ensures Now() == Ended(old(Now()), report) && sent == old(sent) + [report]
    {
      hide ShouldFail, FailsAt, SimExecutor.Valid;
      var reporter;
      report, reporter := executor.RunJob(id);
      assert report == ReportOf(id, executor.Held()[id]);
      assert id in tracked ==> reporter == process;
      Send(report, reporter);
    }

    // A new agent process finds the runtime as the old one left it.
    method Restart()
      requires Valid()
      modifies this
      ensures Valid() && tracked == {} && process == old(process) + 1 && sent == old(sent)
    {
      tracked := {};
      process := process + 1;
    }

    /** Brings the runtime to the fetched list: first everything unwanted is
        stopped, then everything wanted is started or found again. Nothing that was
        already held is created a second time. stops and starts tell the order. */
    method SyncAssignments(list: seq<Assignment>) returns (ghost stops: seq<string>, ghost starts: seq<Assignment>)
      requires Valid()
      modifies this, executor, executor.tasks.Values
      ensures Valid() && process == old(process)
      ensures IsSync(old(Now()), Desired(list), stops, starts)
      ensures Now() == Synced(old(Now()), stops, starts)
      ensures sent == old(sent) + SyncOut(old(Now()), stops, starts)
      ensures executor.history == old(executor.history) + SyncHistory(old(Now()), stops, starts)
      ensures executor.Held() == SyncedHeld(old(executor.Held()), Desired(list))
      ensures executor.tasks.Keys == Desired(list).Keys
      ensures forall id | id in Desired(list) && id in old(executor.tasks) :: executor.tasks[id] == old(executor.tasks[id])
      ensures forall id | id in Desired(list) && id !in old(executor.tasks) :: fresh(executor.tasks[id])
      ensures tracked == set id | id in Desired(list) && !IsTerminalPhase(executor.Held()[id].phase)
      ensures Reports(sent[|old(sent)|..]) == SyncReports(old(executor.Held()), old(tracked), Desired(list))
      ensures StopsFirst(executor.history[|old(executor.history)|..], old(executor.Held()), Desired(list))
    {
      hide Agent.Valid, SimExecutor.Valid, SimExecutor.Held, Desired, StopsFirst, SyncReports, Reports, Tidy,
           IsSync, Synced, SyncOut, SyncHistory, SyncedHeld;
      ghost var b := Now();
      ValidIsTidy();
      var desired := WantedBy(list);
      DesiredKeyed(list);
      stops, starts := StopThenStart(desired);
      SyncComes(b, desired, stops, starts);
      ValidIsTidy();
      TailIs(old(sent), SyncOut(b, stops, starts));
      TailIs(old(executor.history), SyncHistory(b, stops, starts));
    }

    method StopThenStart(desired: map<string, Assignment>) returns (ghost stops: seq<string>, ghost starts: seq<Assignment>)
      requires Valid() && forall id | id in desired :: desired[id].id == id
      modifies this, executor, executor.tasks.Values
      ensures Valid() && process == old(process)
      ensures IsSync(old(Now()), desired, stops, starts)
      ensures Now() == Synced(old(Now()), stops, starts)
      ensures sent == old(sent) + SyncOut(old(Now()), stops, starts)
      ensures executor.history == old(executor.history) + SyncHistory(old(Now()), stops, starts)
      ensures forall id | id in desired && id in old(executor.tasks) :: id in executor.tasks && executor.tasks[id] == old(executor.tasks[id])
      ensures forall id | id in executor.tasks && id !in old(executor.tasks) :: fresh(executor.tasks[id])
    {
      hide Agent.Valid, SimExecutor.Valid, SimExecutor.Held, Tidy, AfterStops, AfterStarts, StopOut, StartOut, StopHistory, StartHistory, Kept,
           SyncedHeld, Members, IdsApart, AllWanted, IdsOf, Distinct;
      ghost var b := Now();
      ValidIsTidy();
      stops := StopUnwanted(desired);
      StopsLeave(b, desired, stops);
      ghost var kept := Now();
      starts := StartWanted(desired);
      JoinsAgain(old(sent), StopOut(b, stops), StartOut(kept, starts));
      JoinsAgain(old(executor.history), StopHistory(b, stops), StartHistory(kept, starts));
    }

    method WantedBy(list: seq<Assignment>) returns (desired: map<string, Assignment>)
      ensures desired == Desired(list)
    {
      desired := map[];
      for i := 0 to |list|
        invariant desired == Desired(list[..i])
      {
        assert list[..i + 1][..i] == list[..i];
        if IsActivePhase(list[i].phase) { desired := desired[list[i].id := list[i]]; }
      }
      assert list[..|list|] == list;
    }

    method StopUnwanted(desired: map<string, Assignment>) returns (ghost stops: seq<string>)
      requires Valid()
      modifies this, executor
      ensures Valid() && process == old(process)
      ensures Distinct(stops) && Members(stops) == old(Now()).held.Keys - desired.Keys
      ensures executor.tasks == old(executor.tasks) - Members(stops)
      ensures Now() == AfterStops(old(Now()), stops)
      ensures sent == old(sent) + StopOut(old(Now()), stops)
      ensures executor.history == old(executor.history) + StopHistory(old(Now()), stops)
    {
      hide Agent.Valid, SimExecutor.Valid, AfterStops, StopOut, StopHistory, StopStep, StopReport, Distinct, SortedBy, Members;
      ghost var b, tasks := Now(), executor.tasks;
      ValidIsTidy();
      var existing := executor.List();
      stops := [];
      NoStops(b);
      NoneSeen(existing);
      assert tasks - {} == tasks;
      for i := 0 to |existing|
        invariant Valid() && process == old(process)
        invariant Distinct(stops) && Members(stops) == Members(existing[..i]) - desired.Keys
        invariant executor.tasks == tasks - Members(stops)
        invariant Now() == AfterStops(b, stops)
        invariant sent == old(sent) + StopOut(b, stops)
        invariant executor.history == old(executor.history) + StopHistory(b, stops)
      {
        var id := existing[i];
        ListedOnce(existing, i);
        MembersStep(existing, i, stops, desired.Keys);
        if id in desired {
          continue;
        }
        assert id in existing && id in tasks;
        OneMoreStop(b, stops, id);
        JoinsAgain(old(sent), StopOut(b, stops), StopReport(Now(), id));
        JoinsAgain(old(executor.history), StopHistory(b, stops), [StopStep(Now(), id).held]);
        StopOne(id);
        assert executor.tasks == tasks - (Members(stops) + {id});
        stops := stops + [id];
      }
      assert existing[..|existing|] == existing;
      MembersOfListing(existing, tasks.Keys);
    }

    // Stops one task, reports it if it was still going, and forgets it.
    method StopOne(id: string)
      requires Valid() && id in executor.tasks
      modifies this, executor
      ensures Valid() && process == old(process)
      ensures executor.tasks == old(executor.tasks) - {id}
      ensures Now() == StopStep(old(Now()), id)
      ensures sent == old(sent) + StopReport(old(Now()), id)
      ensures executor.history == old(executor.history) + [Now().held]
    {
      hide Agent.Valid, SimExecutor.Valid, SimExecutor.Held, Tidy;
      ghost var b := Now();
      ValidIsTidy();
      executor.HeldAt(id);
      var report, reporter := executor.Stop(id);
      if report.Some? {
        Send(report.value, reporter);
      }
      Untrack(id);
      assert Now() == StopStep(b, id);
      StoppedIsTidy(b, id);
      TidyIsValid();
    }

    method StartWanted(desired: map<string, Assignment>) returns (ghost starts: seq<Assignment>)
      requires Valid() && forall id | id in desired :: desired[id].id == id
      modifies this, executor, executor.tasks.Values
      ensures Valid() && process == old(process)
      ensures IdsApart(starts) && AllWanted(starts, desired) && IdsOf(starts) == desired.Keys
      ensures forall id | id in old(executor.tasks) :: id in executor.tasks && executor.tasks[id] == old(executor.tasks)[id]
      ensures forall id | id in executor.tasks && id !in old(executor.tasks) :: fresh(executor.tasks[id])
      ensures Now() == AfterStarts(old(Now()), starts)
      ensures sent == old(sent) + StartOut(old(Now()), starts)
      ensures executor.history == old(executor.history) + StartHistory(old(Now()), starts)
    {
      hide Agent.Valid, SimExecutor.Valid, AfterStarts, StartOut, StartHistory, StartStep, StartReport;
      ghost var b := Now();
      starts := [];
      NoStarts(b);
      var rest := desired.Keys;
      while rest != {}
        invariant Valid() && process == old(process)
        invariant rest <= desired.Keys && IdsOf(starts) == desired.Keys - rest
        invariant IdsApart(starts) && AllWanted(starts, desired)
        invariant forall id | id in old(executor.tasks) :: id in executor.tasks && executor.tasks[id] == old(executor.tasks)[id]
        invariant forall id | id in executor.tasks && id !in old(executor.tasks) :: fresh(executor.tasks[id])
        invariant Now() == AfterStarts(b, starts)
        invariant sent == old(sent) + StartOut(b, starts)
        invariant executor.history == old(executor.history) + StartHistory(b, starts)
        decreases rest
      {
        var id :| id in rest;
        OneMoreStart(b, starts, desired[id]);
        OneMoreWanted(starts, desired, rest, id);
        StartOne(desired[id]);
        starts := starts + [desired[id]];
        rest := rest - {id};
      }
    }

    // Starts or finds again one assignment, unless this process already tracks it.
    method StartOne(assignment: Assignment)
      requires Valid()
      modifies this, executor, executor.tasks.Values
      ensures Valid() && process == old(process)
      ensures forall id | id in old(executor.tasks) :: id in executor.tasks && executor.tasks[id] == old(executor.tasks)[id]
      ensures forall id | id in executor.tasks && id !in old(executor.tasks) :: fresh(executor.tasks[id])
      ensures Now() == StartStep(old(Now()), assignment)
      ensures sent == old(sent) + StartReport(old(Now()), assignment)
      ensures executor.history == old(executor.history) + if assignment.id in old(tracked) then [] else [Now().held]
    {
      hide Agent.Valid, SimExecutor.Valid, SimExecutor.Held, StartStep, StartReport, Tidy;
      ghost var b := Now();
      ValidIsTidy();
      var isNew := Track(assignment.id);
      if !isNew {
        StartSkips(b, assignment);
        assert Now() == b;
        TidyIsValid();
        return;
      }
      var report := executor.Start(assignment, process);
      ghost var held := executor.Held();
      assert report == ReportOf(assignment.id, held[assignment.id]) by { executor.HeldAt(assignment.id); }
      StartTracks(b, assignment, held);
      Send(report, process);
      assert Now() == StartStep(b, assignment);
      TidyIsValid();
    }

    /** A new agent process syncs: what survived in the runtime is not created
        again, and everything wanted is reported, survivors in the phase they are in. */
    method RestartAndSync(list: seq<Assignment>) returns (ghost stops: seq<string>, ghost starts: seq<Assignment>)
      requires Valid()
      modifies this, executor, executor.tasks.Values
      ensures Valid() && process == old(process) + 1
      ensures executor.Held() == SyncedHeld(old(executor.Held()), Desired(list)) && executor.tasks.Keys == Desired(list).Keys
      ensures forall id | id in Desired(list) && id in old(executor.tasks) :: executor.tasks[id] == old(executor.tasks[id])
      ensures old(sent) <= sent
      ensures forall id | id in Desired(list) :: ReportOf(id, executor.Held()[id]) in Reports(sent[|old(sent)|..])
    {
      hide Agent.Valid, SimExecutor.Valid, Desired, IsSync, Synced, SyncOut, SyncHistory, StopsFirst, SyncReports, Reports;
      Restart();
      ghost var held := executor.Held();
      stops, starts := SyncAssignments(list);
      AllReported(held, Desired(list));
    }
  }

  lemma AllReported(held: Held, desired: map<string, Assignment>)
    ensures SyncedHeld(held, desired).Keys == desired.Keys
    ensures forall id | id in desired :: ReportOf(id, SyncedHeld(held, desired)[id]) in SyncReports(held, {}, desired)
  {
    forall id | id in desired ensures ReportOf(id, SyncedHeld(held, desired)[id]) in SyncReports(held, {}, desired) {
      assert ReportOf(id, SyncedHeld(held, desired)[id]) in StartReports(held, {}, desired);
    }
  }

  lemma StoppedIsTidy(b: Books, id: string)
    requires Tidy(b)
    ensures Tidy(StopStep(b, id))
  {
  }

  lemma StartSkips(b: Books, a: Assignment)
    requires a.id in b.tracked
    ensures StartStep(b, a) == b && StartReport(b, a) == []
  {
  }

  lemma StartTracks(b: Books, a: Assignment, held: Held)
    requires a.id !in b.tracked && held == if a.id in b.held then b.held else b.held[a.id := Started(a)]
    ensures StartReport(b, a) == [ReportOf(a.id, held[a.id])]
    ensures Tidy(b) ==> Tidy(StartStep(b, a))
    ensures StartStep(b, a) == Books(held, if IsTerminalPhase(held[a.id].phase) then b.tracked + {a.id} - {a.id} else b.tracked + {a.id})
  {
    assert b.tracked + {a.id} - {a.id} == b.tracked - {a.id};
  }

  lemma JoinsAgain<T>(a: seq<T>, b: seq<T>, c: seq<T>)
    ensures a + b + c == a + (b + c)
  {
  }

  lemma TailIs<T>(a: seq<T>, b: seq<T>)
    ensures (a + b)[|a|..] == b
  {
  }

  lemma NoStops(b: Books)
    ensures AfterStops(b, []) == b && StopOut(b, []) == [] && StopHistory(b, []) == [] && Members([]) == {}
  {
  }

  lemma NoneSeen(ids: seq<string>)
    ensures Members(ids[..0]) == {} && Distinct<string>([])
  {
  }

  lemma MembersOfListing(ids: seq<string>, all: set<string>)
    requires IsListing(ids, all, StrLess)
    ensures Members(ids) == all
  {
  }

  lemma NoStarts(b: Books)
    ensures AfterStarts(b, []) == b && StartOut(b, []) == [] && StartHistory(b, []) == [] && IdsOf([]) == {}
  {
  }

  lemma ListedOnce(ids: seq<string>, i: nat)
    requires i < |ids| && SortedBy(ids, StrLess)
    ensures ids[i] !in ids[..i]
  {
    StrOrder();
    forall j | 0 <= j < i ensures ids[j] != ids[i] { assert StrLess(ids[j], ids[i]); }
  }

  lemma MembersStep(ids: seq<string>, i: nat, stops: seq<string>, wanted: set<string>)
    requires i < |ids| && ids[i] !in ids[..i] && Distinct(stops) && Members(stops) == Members(ids[..i]) - wanted
    ensures Members(ids[..i + 1]) - wanted == if ids[i] in wanted then Members(stops) else Members(stops + [ids[i]])
    ensures Distinct(stops + [ids[i]]) && Members(stops + [ids[i]]) == Members(stops) + {ids[i]} && ids[i] !in Members(stops)
  {
    assert ids[..i + 1] == ids[..i] + [ids[i]];
    assert Members(ids[..i + 1]) == Members(ids[..i]) + {ids[i]} && ids[i] !in Members(ids[..i]);
    assert Members(stops + [ids[i]]) == Members(stops) + {ids[i]};
  }

  lemma OneMoreWanted(xs: seq<Assignment>, desired: map<string, Assignment>, rest: set<string>, id: string)
    requires IdsApart(xs) && AllWanted(xs, desired) && IdsOf(xs) == desired.Keys - rest
    requires id in rest && rest <= desired.Keys && desired[id].id == id
    ensures IdsApart(xs + [desired[id]]) && AllWanted(xs + [desired[id]], desired)
    ensures IdsOf(xs + [desired[id]]) == desired.Keys - (rest - {id})
  {
    assert forall a | a in xs :: a.id in IdsOf(xs);
    assert IdsOf(xs + [desired[id]]) == IdsOf(xs) + {id};
  }
}
