/** The in-memory store (internal/store): four maps updated in place. */
module MemoryStores {
  import opened Order
  import opened Api
  import opened StoreState
  import opened Discipline

  // The world after a sequence of operations.
  ghost function Replay(origin: World, ops: seq<Op>): World {
    if ops == [] then origin
    else ApplyWorld(Replay(origin, ops[..|ops| - 1]), ops[|ops| - 1])
  }

  lemma ReplayStep(origin: World, ops: seq<Op>, op: Op)
    ensures Replay(origin, ops + [op]) == ApplyWorld(Replay(origin, ops), op)
  {
    assert (ops + [op])[..|ops|] == ops;
  }

  lemma KeyedAssignmentsTotal(s: State)
    requires Keyed(s)
    ensures forall i, j | i in s.assignments && j in s.assignments && i != j :: s.assignments[i] != s.assignments[j]
    ensures TotalOn(All(s.assignments), AssignmentLess)
  {
    AssignmentsTotal(All(s.assignments));
  }

  // Listings of a keyed table, on the fields.
  lemma OnNodeListed(s: State, nodeId: string, xs: seq<Assignment>)
    requires Keyed(s) && IsListing(xs, OnNode(s.assignments, nodeId), AssignmentLess)
    ensures OldestFirst(xs) && forall a :: a in xs <==> a.id in s.assignments && s.assignments[a.id] == a && a.nodeId == nodeId
  {
    SortedIsOldestFirst(xs);
  }

  lemma OwnedListed(s: State, kind: WorkloadKind, name: string, xs: seq<Assignment>)
    requires Keyed(s) && IsListing(xs, Owned(s.assignments, kind, name), AssignmentLess)
    ensures OldestFirst(xs)
    ensures forall a :: a in xs <==> a.id in s.assignments && s.assignments[a.id] == a && a.ownerKind == kind && a.ownerName == name
  {
    SortedIsOldestFirst(xs);
  }

  class MemoryStore {
    var nodes: map<string, Node>
    var services: map<string, Service>
    var jobs: map<string, Job>
    var assignments: map<string, Assignment>

    // Not in the program: every assignment ever saved, as saved. It stands for the
    // random suffixes, which are what keeps an ID from ever being drawn twice.
    var born: map<string, Assignment>

    // History: where the store began and every operation since.
    ghost const origin: World
    ghost var trace: seq<Op>

    function Contents(): State
      reads `nodes, `services, `jobs, `assignments
    {
      State(nodes, services, jobs, assignments)
    }

    ghost function Now(): World
      reads `nodes, `services, `jobs, `assignments, `born
    {
      World(Contents(), born)
    }

    ghost predicate Valid()
      reads this
    {
      Keyed(Contents()) && Now() == Replay(origin, trace)
    }

    // The effect of one operation.
    twostate predicate Did(op: Op)
      reads this
    {
      Valid() && trace == old(trace) + [op] && Now() == ApplyWorld(old(Now()), op)
    }

    // A new store, or one reloaded from what an earlier controller persisted.
    constructor (saved: State, born: map<string, Assignment>)
      requires Keyed(saved)
      ensures Valid() && trace == [] && Now() == World(saved, born) == origin
    {
      nodes, services, jobs, assignments := saved.nodes, saved.services, saved.jobs, saved.assignments;
      this.born := born;
      trace := [];
      origin := World(saved, born);
    }

    // Notes op, which took w to the present world.
    ghost method Record(w: World, op: Op)
      requires w == Replay(origin, trace) && Keyed(w.store)
      modifies `trace
      ensures trace == old(trace) + [op]
      ensures Replay(origin, trace) == ApplyWorld(w, op) && Keyed(ApplyWorld(w, op).store)
    {
      ReplayStep(origin, trace, op);
      KeepsKeys(w.store, op);
      trace := trace + [op];
    }

    method UpsertNode(node: Node)
      requires Valid()
      modifies this
      ensures Did(Op.UpsertNode(node))
    {
      nodes := nodes[node.id := node];
      Record(old(Now()), Op.UpsertNode(node));
    }

    method TouchNode(id: string, now: int) returns (found: bool)
      requires Valid()
      modifies this
      ensures Did(Op.TouchNode(id, now)) && found == (id in old(nodes))
    {
      found := id in nodes;
      if found {
        nodes := nodes[id := nodes[id].(lastHeartbeat := now)];
      }
      Record(old(Now()), Op.TouchNode(id, now));
    }

    method ListNodes() returns (out: seq<Node>)
      requires Valid()
      ensures IsListing(out, nodes.Values, NodeLess) && out == Listing(nodes.Values, NodeLess)
    {
      ApiOrders();
      StrOrder();
      var items := Collect(nodes);
      SortLists(items, NodeLess) by {
        forall a, b | a in items && b in items && a != b ensures NodeLess(a, b) || NodeLess(b, a) { StrTotal(a.id, b.id); }
      }
      out := Sort(items, NodeLess);
      ListingIs(out, nodes.Values, NodeLess);
    }

    method UpsertService(service: Service)
      requires Valid()
      modifies this
      ensures Did(Op.UpsertService(service))
    {
      services := services[service.name := service];
      Record(old(Now()), Op.UpsertService(service));
    }

    method UpdateServiceStatus(name: string, status: ServiceStatus) returns (found: bool)
      requires Valid()
      modifies this
      ensures Did(Op.UpdateServiceStatus(name, status)) && found == (name in old(services))
    {
      found := name in services;
      if found {
        services := services[name := services[name].(status := status)];
      }
      Record(old(Now()), Op.UpdateServiceStatus(name, status));
    }

    method ListServices() returns (out: seq<Service>)
      requires Valid()
      ensures IsListing(out, services.Values, ServiceLess) && out == Listing(services.Values, ServiceLess)
    {
      ApiOrders();
      var items := Collect(services);
      SortLists(items, ServiceLess) by {
        forall a, b | a in items && b in items && a != b ensures ServiceLess(a, b) || ServiceLess(b, a) { StrTotal(a.name, b.name); }
      }
      out := Sort(items, ServiceLess);
      ListingIs(out, services.Values, ServiceLess);
    }

    method DeleteService(name: string) returns (found: bool)
      requires Valid()
      modifies this
      ensures Did(Op.DeleteService(name)) && found == (name in old(services))
    {
      hide Replay, Keyed;
      found := name in services;
      if found {
        services := services - {name};
        DeleteOwned(ServiceKind, name);
      }
      Record(old(Now()), Op.DeleteService(name));
    }

    method UpsertJob(job: Job)
      requires Valid()
      modifies this
      ensures Did(Op.UpsertJob(job))
    {
      jobs := jobs[job.name := job];
      Record(old(Now()), Op.UpsertJob(job));
    }

    method UpdateJobStatus(name: string, status: JobStatus) returns (found: bool)
      requires Valid()
      modifies this
      ensures Did(Op.UpdateJobStatus(name, status)) && found == (name in old(jobs))
    {
      found := name in jobs;
      if found {
        jobs := jobs[name := jobs[name].(status := status)];
      }
      Record(old(Now()), Op.UpdateJobStatus(name, status));
    }

    method ListJobs() returns (out: seq<Job>)
      requires Valid()
      ensures IsListing(out, jobs.Values, JobLess) && out == Listing(jobs.Values, JobLess)
    {
      ApiOrders();
      var items := Collect(jobs);
      SortLists(items, JobLess) by {
        forall a, b | a in items && b in items && a != b ensures JobLess(a, b) || JobLess(b, a) { StrTotal(a.name, b.name); }
      }
      out := Sort(items, JobLess);
      ListingIs(out, jobs.Values, JobLess);
    }

    method DeleteJob(name: string) returns (found: bool)
      requires Valid()
      modifies this
      ensures Did(Op.DeleteJob(name)) && found == (name in old(jobs))
    {
      hide Replay, Keyed;
      found := name in jobs;
      if found {
        jobs := jobs - {name};
        DeleteOwned(JobKind, name);
      }
      Record(old(Now()), Op.DeleteJob(name));
    }

    // The deletion loop shared by DeleteService and DeleteJob.
    method DeleteOwned(kind: WorkloadKind, name: string)
      modifies this`assignments
      ensures assignments == WithoutOwner(old(assignments), kind, name)
    {
      var before := assignments;
      var rest := assignments.Keys;
      while rest != {}
        invariant rest <= before.Keys
        invariant forall id :: id in assignments <==> id in before && (id in rest || !before[id].OwnedBy(kind, name))
        invariant forall id | id in assignments :: assignments[id] == before[id]
        decreases rest
      {
        var id :| id in rest;
        if before[id].ownerKind == kind && before[id].ownerName == name {
          assignments := assignments - {id};
        }
        rest := rest - {id};
      }
    }

    method SaveAssignment(assignment: Assignment)
      requires Valid()
      modifies this
      ensures Did(Op.SaveAssignment(assignment))
    {
      assignments := assignments[assignment.id := assignment];
      born := born[assignment.id := assignment];
      Record(old(Now()), Op.SaveAssignment(assignment));
    }

    function HasAssignment(id: string): bool
      reads this
    {
      id in assignments
    }

    method DeleteAssignment(id: string) returns (found: bool)
      requires Valid()
      modifies this
      ensures Did(Op.DeleteAssignment(id)) && found == (id in old(assignments))
    {
      found := id in assignments;
      if found {
        assignments := assignments - {id};
      }
      assert assignments == old(assignments) - {id};
      Record(old(Now()), Op.DeleteAssignment(id));
    }

    method UpdateAssignmentStatus(id: string, phase: Phase, message: string, now: int) returns (r: Option<Assignment>)
      requires Valid()
      modifies this
      ensures Did(Op.UpdateAssignmentStatus(id, phase, message, now))
      ensures Does(old(Contents()), Op.UpdateAssignmentStatus(id, phase, message, now), Contents())
      ensures r == if id in assignments then Some(assignments[id]) else None
    {
      if id !in assignments {
        r := None;
      } else {
        var assignment := assignments[id];
        if !IsTerminalPhase(assignment.phase) {
          assignment := ApplyStatus(assignment, phase, message, now);
          assignments := assignments[id := assignment];
        }
        r := Some(assignment);
      }
      assert id in old(assignments) ==> assignments == old(assignments)[id := ApplyStatus(old(assignments)[id], phase, message, now)];
      Record(old(Now()), Op.UpdateAssignmentStatus(id, phase, message, now));
      ApplyDoes(old(Contents()), Op.UpdateAssignmentStatus(id, phase, message, now), Contents());
    }

    method ListAssignments() returns (out: seq<Assignment>)
      requires Valid()
      ensures IsListing(out, All(assignments), AssignmentLess) && out == Listing(All(assignments), AssignmentLess)
      ensures OldestFirst(out) && forall a :: a in out <==> a.id in assignments && assignments[a.id] == a
    {
      ApiOrders();
      KeyedAssignmentsTotal(Contents());
      var items := Collect(assignments);
      assert All(assignments) == assignments.Values;
      SortLists(items, AssignmentLess);
      out := Sort(items, AssignmentLess);
      SortedIsOldestFirst(out);
      ListingIs(out, All(assignments), AssignmentLess);
    }

    method ListNodeAssignments(nodeId: string) returns (out: seq<Assignment>)
      requires Valid()
      ensures IsListing(out, OnNode(assignments, nodeId), AssignmentLess)
      ensures out == Listing(OnNode(assignments, nodeId), AssignmentLess)
      ensures OldestFirst(out) && forall a :: a in out <==> a.id in assignments && assignments[a.id] == a && a.nodeId == nodeId
    {
      hide Replay, Keyed, OldestFirst, Listing, Filter;
      ApiOrders();
      var items := ListAssignments();
      var p := (a: Assignment) => a.nodeId == nodeId;
      out := [];
      FilterNone(items, p);
      for i := 0 to |items|
        invariant out == Filter(items[..i], p)
      {
        FilterStep(items, i, p);
        if items[i].nodeId == nodeId {
          out := out + [items[i]];
        }
      }
      assert items[..|items|] == items;
      FilterLists(items, All(assignments), p, OnNode(assignments, nodeId), AssignmentLess);
      OnNodeListed(Contents(), nodeId, out);
    }

    method ListAssignmentsForOwner(kind: WorkloadKind, name: string) returns (out: seq<Assignment>)
      requires Valid()
      ensures IsListing(out, Owned(assignments, kind, name), AssignmentLess)
      ensures out == Listing(Owned(assignments, kind, name), AssignmentLess)
      ensures OldestFirst(out)
      ensures forall a :: a in out <==> a.id in assignments && assignments[a.id] == a && a.ownerKind == kind && a.ownerName == name
    {
      hide Replay, Keyed, OldestFirst, Listing, Filter;
      ApiOrders();
      var items := ListAssignments();
      var p := (a: Assignment) => a.OwnedBy(kind, name);
      out := [];
      FilterNone(items, p);
      for i := 0 to |items|
        invariant out == Filter(items[..i], p)
      {
        FilterStep(items, i, p);
        if items[i].ownerKind == kind && items[i].ownerName == name {
          out := out + [items[i]];
        }
      }
      assert items[..|items|] == items;
      FilterLists(items, All(assignments), p, Owned(assignments, kind, name), AssignmentLess);
      OwnedListed(Contents(), kind, name, out);
    }
  }

  // Ranging over a map: its values, in no particular order.
  method Collect<T(==)>(m: map<string, T>) returns (items: seq<T>)
    requires forall i, j | i in m && j in m && i != j :: m[i] != m[j]
    ensures Distinct(items) && forall x :: x in items <==> x in m.Values
  {
    items := [];
    var rest := m.Keys;
    while rest != {}
      invariant rest <= m.Keys
      invariant Distinct(items)
      invariant forall x :: x in items <==> exists id | id in m.Keys - rest :: m[id] == x
      decreases rest
    {
      var id :| id in rest;
      assert m[id] !in items;
      items := items + [m[id]];
      rest := rest - {id};
    }
  }
}
