/** The SQL store (internal/store/sqlite.go): one table per kind, each row an
    encoded object, with the columns that are queried on pulled out. Committed
    rows only; a transaction is one step. */
module SqliteStores {
  import opened Order
  import opened Api
  import opened StoreState
  import opened MemoryStores

  // A row of the assignments table. Encoding an object and decoding it again is the identity.
  datatype Row = Row(id: string, nodeId: string, ownerKind: string, ownerName: string, createdAt: int, data: Assignment)

  function KindText(kind: WorkloadKind): string {
    match kind
    case ServiceKind => "service"
    case JobKind => "job"
  }

  function RowOf(a: Assignment): Row {
    Row(a.id, a.nodeId, KindText(a.ownerKind), a.ownerName, a.createdAt, a)
  }

  // ORDER BY created_at, id: the columns decide, not the data.
  predicate RowLess(a: Row, b: Row) {
    if a.createdAt == b.createdAt then StrLess(a.id, b.id) else a.createdAt < b.createdAt
  }

  // DELETE ... WHERE owner_kind = ? AND owner_name = ?
  predicate RowOwnedBy(row: Row, kind: WorkloadKind, name: string) {
    row.ownerKind == KindText(kind) && row.ownerName == name
  }

  function Data(rows: map<string, Row>): map<string, Assignment> { map id | id in rows :: rows[id].data }

  // Every row's columns say what its data says.
  ghost predicate Indexed(rows: map<string, Row>) {
    forall id | id in rows :: rows[id] == RowOf(rows[id].data) && rows[id].id == id
  }

  lemma KindTextApart(kind: WorkloadKind, other: WorkloadKind)
    ensures KindText(kind) == KindText(other) <==> kind == other
  {
    assert "service"[0] != "job"[0];
  }

  /** Deleting by columns removes exactly that kind's and name's assignments. */
  lemma DeleteByColumns(rows: map<string, Row>, kind: WorkloadKind, name: string)
    requires Indexed(rows)
    ensures var left := map id | id in rows && !RowOwnedBy(rows[id], kind, name) :: rows[id];
      Indexed(left) && Data(left) == WithoutOwner(Data(rows), kind, name)
  {
    forall id | id in rows ensures RowOwnedBy(rows[id], kind, name) <==> rows[id].data.OwnedBy(kind, name) {
      KindTextApart(rows[id].data.ownerKind, kind);
    }
  }

  /** A status change rewrites the data alone, and the columns still match it. */
  lemma StatusKeepsColumns(rows: map<string, Row>, id: string, phase: Phase, message: string, now: int)
    requires Indexed(rows) && id in rows
    ensures var row := rows[id].(data := ApplyStatus(rows[id].data, phase, message, now));
      Indexed(rows[id := row]) && Data(rows[id := row]) == Data(rows)[id := row.data]
  {
  }

  lemma RowOrder()
    ensures StrictOrder(RowLess)
  {
    StrOrder();
  }

  lemma RowsTotal(rows: map<string, Row>)
    requires Indexed(rows)
    ensures TotalOn(rows.Values, RowLess)
    ensures forall i, j | i in rows && j in rows && i != j :: rows[i] != rows[j]
  {
    forall a, b | a in rows.Values && b in rows.Values && a != b ensures RowLess(a, b) || RowLess(b, a) { StrTotal(a.id, b.id); }
  }

  function Decoded(rows: seq<Row>): (out: seq<Assignment>)
    ensures |out| == |rows| && forall i | 0 <= i < |rows| :: out[i] == rows[i].data
  {
    if rows == [] then [] else Decoded(rows[..|rows| - 1]) + [rows[|rows| - 1].data]
  }

  // The rows a WHERE clause lets through.
  function Hits(rows: map<string, Row>, matches: Row -> bool): map<string, Row> {
    map id | id in rows && matches(rows[id]) :: rows[id]
  }

  // a is the data of some row.
  ghost predicate InRows(rows: map<string, Row>, a: Assignment) { exists id | id in rows :: rows[id].data == a }

  // a is an assignment that is wanted.
  ghost predicate Selected(m: map<string, Assignment>, wanted: Assignment -> bool, a: Assignment) {
    exists id | id in m && wanted(m[id]) :: m[id] == a
  }

  /** Filtering rows by their columns is filtering their data. */
  lemma MatchingData(rows: map<string, Row>, matches: Row -> bool, wanted: Assignment -> bool)
    requires forall id | id in rows :: matches(rows[id]) <==> wanted(rows[id].data)
    ensures forall a :: Selected(Data(rows), wanted, a) <==> InRows(Hits(rows, matches), a)
  {
    var hits := Hits(rows, matches);
    forall a ensures Selected(Data(rows), wanted, a) <==> InRows(hits, a) {
      if id :| id in Data(rows) && wanted(Data(rows)[id]) && Data(rows)[id] == a { assert hits[id].data == a; }
      if id :| id in hits && hits[id].data == a { assert Data(rows)[id] == a; }
    }
  }

  /** Rows sorted by their columns decode to the sorted listing of their data. */
  lemma DecodedListing(rows: seq<Row>, matching: map<string, Row>, part: set<Assignment>)
    requires Indexed(matching) && IsListing(rows, matching.Values, RowLess)
    requires forall a :: a in part <==> InRows(matching, a)
    ensures IsListing(Decoded(rows), part, AssignmentLess) && Decoded(rows) == Listing(part, AssignmentLess)
  {
    var out := Decoded(rows);
    ApiOrders();
    forall a ensures a in out <==> a in part {
      if a in out {
        var i :| 0 <= i < |out| && out[i] == a;
        assert rows[i] in rows;
      }
      if a in part {
        var id :| id in matching && matching[id].data == a;
        assert matching[id] in rows;
        var i :| 0 <= i < |rows| && rows[i] == matching[id];
        assert out[i] == a;
      }
    }
    forall i, j | 0 <= i < j < |out| ensures AssignmentLess(out[i], out[j]) { assert rows[i] in rows && rows[j] in rows; }
    ListingIs(out, part, AssignmentLess);
  }

  // SELECT data FROM a table ORDER BY its primary key.
  method SelectByKey<T>(table: map<string, T>) returns (keys: seq<string>, out: seq<T>)
    ensures IsListing(keys, table.Keys, StrLess)
    ensures |out| == |keys| && forall i | 0 <= i < |out| :: keys[i] in table && out[i] == table[keys[i]]
  {
    StrOrder();
    var ids := map id | id in table :: id;
    keys := Collect(ids);
    assert ids.Values == table.Keys by { forall id | id in table ensures id in ids.Values { assert ids[id] == id; } }
    assert TotalOn(table.Keys, StrLess);
    SortLists(keys, StrLess);
    keys := Sort(keys, StrLess);
    out := [];
    for i := 0 to |keys|
      invariant |out| == i && forall k | 0 <= k < i :: keys[k] in table && out[k] == table[keys[k]]
    {
      assert keys[i] in keys;
      out := out + [table[keys[i]]];
    }
  }

  lemma KeyedListing<T(!new)>(table: map<string, T>, keys: seq<string>, out: seq<T>, less: (T, T) -> bool)
    requires StrictOrder(less) && IsListing(keys, table.Keys, StrLess)
    requires |out| == |keys| && forall i | 0 <= i < |out| :: keys[i] in table && out[i] == table[keys[i]]
    requires forall i, j | i in table && j in table && StrLess(i, j) :: less(table[i], table[j])
    ensures out == Listing(table.Values, less) && IsListing(out, table.Values, less)
  {
    forall x ensures x in out <==> x in table.Values {
      if x in table.Values {
        var id :| id in table && table[id] == x;
        assert id in keys;
        var i :| 0 <= i < |keys| && keys[i] == id;
        assert out[i] == x;
      }
    }
    ListingIs(out, table.Values, less);
  }

  // A transaction on a single key: the row there becomes its image under mutate.
  method Update<T>(table: map<string, T>, key: string, mutate: T -> T) returns (out: map<string, T>, found: bool)
    ensures found == (key in table)
    ensures out == if found then table[key := mutate(table[key])] else table
  {
    if key !in table { return table, false; }
    var item := table[key];
    item := mutate(item);
    return table[key := item], true;
  }

  class SQLiteStore {
    // Primary key to row.
    var nodes: map<string, Node>
    var services: map<string, Service>
    var jobs: map<string, Job>
    var assignments: map<string, Row>

    function Contents(): State
      reads this
    {
      State(nodes, services, jobs, Data(assignments))
    }

    ghost predicate Valid()
      reads this
    {
      Keyed(Contents()) && Indexed(assignments)
    }

    // The effect of one operation.
    twostate predicate Did(op: Op)
      reads this
    {
      Valid() && Contents() == Apply(old(Contents()), op)
    }

    constructor ()
      ensures Valid() && Contents() == EMPTY
    {
      nodes, services, jobs, assignments := map[], map[], map[], map[];
      new;
      assert Data(assignments) == map[];
    }

    method UpsertNode(node: Node)
      requires Valid()
      modifies this
      ensures Did(Op.UpsertNode(node))
    {
      nodes := nodes[node.id := node];
    }

    method TouchNode(id: string, now: int) returns (found: bool)
      requires Valid()
      modifies this
      ensures Did(Op.TouchNode(id, now)) && found == Found(old(Contents()), Op.TouchNode(id, now))
    {
      nodes, found := Update(nodes, id, (node: Node) => node.(lastHeartbeat := now));
    }

    method ListNodes() returns (out: seq<Node>)
      requires Valid()
      ensures out == Listing(nodes.Values, NodeLess)
    {
      ApiOrders();
      var keys;
      keys, out := SelectByKey(nodes);
      KeyedListing(nodes, keys, out, NodeLess);
    }

    method UpsertService(service: Service)
      requires Valid()
      modifies this
      ensures Did(Op.UpsertService(service))
    {
      services := services[service.name := service];
    }

    method UpdateServiceStatus(name: string, status: ServiceStatus) returns (found: bool)
      requires Valid()
      modifies this
      ensures Did(Op.UpdateServiceStatus(name, status)) && found == Found(old(Contents()), Op.UpdateServiceStatus(name, status))
    {
      services, found := Update(services, name, (service: Service) => service.(status := status));
    }

    method ListServices() returns (out: seq<Service>)
      requires Valid()
      ensures out == Listing(services.Values, ServiceLess)
    {
      ApiOrders();
      var keys;
      keys, out := SelectByKey(services);
      KeyedListing(services, keys, out, ServiceLess);
    }

    method DeleteService(name: string) returns (found: bool)
      requires Valid()
      modifies this
      ensures Did(Op.DeleteService(name)) && found == Found(old(Contents()), Op.DeleteService(name))
    {
      found := name in services;
      if found {
        services := services - {name};
        DeleteOwned(ServiceKind, name);
      }
    }

    method UpsertJob(job: Job)
      requires Valid()
      modifies this
      ensures Did(Op.UpsertJob(job))
    {
      jobs := jobs[job.name := job];
    }

    method UpdateJobStatus(name: string, status: JobStatus) returns (found: bool)
      requires Valid()
      modifies this
      ensures Did(Op.UpdateJobStatus(name, status)) && found == Found(old(Contents()), Op.UpdateJobStatus(name, status))
    {
      jobs, found := Update(jobs, name, (job: Job) => job.(status := status));
    }

    method ListJobs() returns (out: seq<Job>)
      requires Valid()
      ensures out == Listing(jobs.Values, JobLess)
    {
      ApiOrders();
      var keys;
      keys, out := SelectByKey(jobs);
      KeyedListing(jobs, keys, out, JobLess);
    }

    method DeleteJob(name: string) returns (found: bool)
      requires Valid()
      modifies this
      ensures Did(Op.DeleteJob(name)) && found == Found(old(Contents()), Op.DeleteJob(name))
    {
      found := name in jobs;
      if found {
        jobs := jobs - {name};
        DeleteOwned(JobKind, name);
      }
    }

    // The second statement of deleteOwner's transaction.
    method DeleteOwned(kind: WorkloadKind, name: string)
      requires Indexed(assignments)
      modifies this`assignments
      ensures Indexed(assignments) && Data(assignments) == WithoutOwner(old(Data(assignments)), kind, name)
    {
      DeleteByColumns(assignments, kind, name);
      assignments := map id | id in assignments && !RowOwnedBy(assignments[id], kind, name) :: assignments[id];
    }

    method SaveAssignment(assignment: Assignment)
      requires Valid()
      modifies this
      ensures Did(Op.SaveAssignment(assignment))
    {
      ghost var before := assignments;
      assignments := assignments[assignment.id := RowOf(assignment)];
      assert Data(assignments) == Data(before)[assignment.id := assignment];
    }

    method DeleteAssignment(id: string) returns (found: bool)
      requires Valid()
      modifies this
      ensures Did(Op.DeleteAssignment(id)) && found == Found(old(Contents()), Op.DeleteAssignment(id))
    {
      ghost var before := assignments;
      found := id in assignments;
      assignments := assignments - {id};
      assert Data(assignments) == Data(before) - {id};
    }

    // The transaction changes the data of the row; its columns are not written.
    method UpdateAssignmentStatus(id: string, phase: Phase, message: string, now: int) returns (r: Option<Assignment>)
      requires Valid()
      modifies this
      ensures Did(Op.UpdateAssignmentStatus(id, phase, message, now))
      ensures Does(old(Contents()), Op.UpdateAssignmentStatus(id, phase, message, now), Contents())
      ensures r == if id in Contents().assignments then Some(Contents().assignments[id]) else None
    {
      if id in assignments { StatusKeepsColumns(assignments, id, phase, message, now); }
      var found;
      assignments, found := Update(assignments, id, (row: Row) => row.(data := ApplyStatus(row.data, phase, message, now)));
      r := if found then Some(assignments[id].data) else None;
      ApplyDoes(old(Contents()), Op.UpdateAssignmentStatus(id, phase, message, now), Contents());
    }

    // SELECT data FROM assignments WHERE ... ORDER BY created_at, id.
    method Select(matches: Row -> bool) returns (rows: seq<Row>)
      requires Valid()
      ensures Indexed(Hits(assignments, matches)) && IsListing(rows, Hits(assignments, matches).Values, RowLess)
    {
      var hits := Hits(assignments, matches);
      RowOrder();
      RowsTotal(hits);
      rows := Collect(hits);
      SortLists(rows, RowLess);
      rows := Sort(rows, RowLess);
    }

    method ListAssignments() returns (out: seq<Assignment>)
      requires Valid()
      ensures out == Listing(All(Contents().assignments), AssignmentLess)
    {
      var matches := (row: Row) => true;
      var rows := Select(matches);
      MatchingData(assignments, matches, (a: Assignment) => true);
      DecodedListing(rows, Hits(assignments, matches), All(Contents().assignments));
      out := Decoded(rows);
    }

    method ListNodeAssignments(nodeId: string) returns (out: seq<Assignment>)
      requires Valid()
      ensures out == Listing(OnNode(Contents().assignments, nodeId), AssignmentLess)
    {
      var matches := (row: Row) => row.nodeId == nodeId;
      var rows := Select(matches);
      MatchingData(assignments, matches, (a: Assignment) => a.nodeId == nodeId);
      DecodedListing(rows, Hits(assignments, matches), OnNode(Contents().assignments, nodeId));
      out := Decoded(rows);
    }

    method ListAssignmentsForOwner(kind: WorkloadKind, name: string) returns (out: seq<Assignment>)
      requires Valid()
      ensures out == Listing(Owned(Contents().assignments, kind, name), AssignmentLess)
    {
      var matches := (row: Row) => RowOwnedBy(row, kind, name);
      var rows := Select(matches);
      forall id | id in assignments ensures RowOwnedBy(assignments[id], kind, name) <==> assignments[id].data.OwnedBy(kind, name) {
        KindTextApart(assignments[id].data.ownerKind, kind);
      }
      MatchingData(assignments, matches, (a: Assignment) => a.OwnedBy(kind, name));
      DecodedListing(rows, Hits(assignments, matches), Owned(Contents().assignments, kind, name));
      out := Decoded(rows);
    }

    function HasAssignment(id: string): bool
      reads this
    {
      id in assignments
    }
  }
}

/** The two stores side by side. */
module StoreAgreement {
  import opened Order
  import opened Api
  import opened StoreState
  import opened MemoryStores
  import opened SqliteStores

  // Everything a caller can ask of a store.
  datatype Call =
    | Do(op: Op)
    | AllNodes
    | AllServices
    | AllJobs
    | AllAssignments
    | NodeAssignments(nodeId: string)
    | OwnerAssignments(kind: WorkloadKind, name: string)
    | Has(id: string)
    | TakeSnapshot

  datatype Reply =
    | Nothing
    | Flag(value: bool)
    | Updated(result: Option<Assignment>)
    | Nodes(nodes: seq<Node>)
    | Services(services: seq<Service>)
    | Jobs(jobs: seq<Job>)
    | Assignments(assignments: seq<Assignment>)
    | Snapshot(nodes: seq<Node>, services: seq<Service>, jobs: seq<Job>, assignments: seq<Assignment>)

  function After(s: State, call: Call): State { if call.Do? then Apply(s, call.op) else s }

  ghost function ReplyTo(s: State, call: Call): Reply {
    match call
    case Do(op) =>
      (match op
       case UpsertNode(_) | UpsertService(_) | UpsertJob(_) | SaveAssignment(_) => Nothing
       case UpdateAssignmentStatus(id, _, _, _) =>
         Updated(if id in s.assignments then Some(Apply(s, op).assignments[id]) else None)
       case _ => Flag(Found(s, op)))
    case AllNodes => Nodes(Listing(s.nodes.Values, NodeLess))
    case AllServices => Services(Listing(s.services.Values, ServiceLess))
    case AllJobs => Jobs(Listing(s.jobs.Values, JobLess))
    case AllAssignments => Assignments(Listing(All(s.assignments), AssignmentLess))
    case NodeAssignments(n) => Assignments(Listing(OnNode(s.assignments, n), AssignmentLess))
    case OwnerAssignments(kind, name) => Assignments(Listing(Owned(s.assignments, kind, name), AssignmentLess))
    case Has(id) => Flag(id in s.assignments)
    case TakeSnapshot =>
      Snapshot(Listing(s.nodes.Values, NodeLess), Listing(s.services.Values, ServiceLess),
               Listing(s.jobs.Values, JobLess), Listing(All(s.assignments), AssignmentLess))
  }

  method OperateMemory(store: MemoryStore, op: Op) returns (reply: Reply)
    requires store.Valid()
    modifies store
    ensures store.Valid() && store.Contents() == Apply(old(store.Contents()), op)
    ensures reply == ReplyTo(old(store.Contents()), Do(op))
  {
    hide Replay, Keyed;
    reply := Nothing;
    match op
    case UpsertNode(node) => store.UpsertNode(node);
    case TouchNode(id, now) => var found := store.TouchNode(id, now); reply := Flag(found);
    case UpsertService(service) => store.UpsertService(service);
    case UpdateServiceStatus(name, status) => var found := store.UpdateServiceStatus(name, status); reply := Flag(found);
    case DeleteService(name) => var found := store.DeleteService(name); reply := Flag(found);
    case UpsertJob(job) => store.UpsertJob(job);
    case UpdateJobStatus(name, status) => var found := store.UpdateJobStatus(name, status); reply := Flag(found);
    case DeleteJob(name) => var found := store.DeleteJob(name); reply := Flag(found);
    case SaveAssignment(a) => store.SaveAssignment(a);
    case DeleteAssignment(id) => var found := store.DeleteAssignment(id); reply := Flag(found);
    case UpdateAssignmentStatus(id, phase, message, now) =>
      var result := store.UpdateAssignmentStatus(id, phase, message, now); reply := Updated(result);
  }

  method OperateSqlite(store: SQLiteStore, op: Op) returns (reply: Reply)
    requires store.Valid()
    modifies store
    ensures store.Valid() && store.Contents() == Apply(old(store.Contents()), op)
    ensures reply == ReplyTo(old(store.Contents()), Do(op))
  {
    reply := Nothing;
    match op
    case UpsertNode(node) => store.UpsertNode(node);
    case TouchNode(id, now) => var found := store.TouchNode(id, now); reply := Flag(found);
    case UpsertService(service) => store.UpsertService(service);
    case UpdateServiceStatus(name, status) => var found := store.UpdateServiceStatus(name, status); reply := Flag(found);
    case DeleteService(name) => var found := store.DeleteService(name); reply := Flag(found);
    case UpsertJob(job) => store.UpsertJob(job);
    case UpdateJobStatus(name, status) => var found := store.UpdateJobStatus(name, status); reply := Flag(found);
    case DeleteJob(name) => var found := store.DeleteJob(name); reply := Flag(found);
    case SaveAssignment(a) => store.SaveAssignment(a);
    case DeleteAssignment(id) => var found := store.DeleteAssignment(id); reply := Flag(found);
    case UpdateAssignmentStatus(id, phase, message, now) =>
      var result := store.UpdateAssignmentStatus(id, phase, message, now); reply := Updated(result);
  }

  method AskMemory(store: MemoryStore, call: Call) returns (reply: Reply)
    requires store.Valid()
    modifies store
    ensures store.Valid() && store.Contents() == After(old(store.Contents()), call)
    ensures reply == ReplyTo(old(store.Contents()), call)
  {
    match call
    case Do(op) => reply := OperateMemory(store, op);
    case AllNodes => var nodes := store.ListNodes(); reply := Nodes(nodes);
    case AllServices => var services := store.ListServices(); reply := Services(services);
    case AllJobs => var jobs := store.ListJobs(); reply := Jobs(jobs);
    case AllAssignments => var list := store.ListAssignments(); reply := Assignments(list);
    case NodeAssignments(n) => var list := store.ListNodeAssignments(n); reply := Assignments(list);
    case OwnerAssignments(kind, name) => var list := store.ListAssignmentsForOwner(kind, name); reply := Assignments(list);
    case Has(id) => reply := Flag(store.HasAssignment(id));
    case TakeSnapshot =>
      var nodes := store.ListNodes();
      var services := store.ListServices();
      var jobs := store.ListJobs();
      var list := store.ListAssignments();
      reply := Snapshot(nodes, services, jobs, list);
  }

  method AskSqlite(store: SQLiteStore, call: Call) returns (reply: Reply)
    requires store.Valid()
    modifies store
    ensures store.Valid() && store.Contents() == After(old(store.Contents()), call)
    ensures reply == ReplyTo(old(store.Contents()), call)
  {
    match call
    case Do(op) => reply := OperateSqlite(store, op);
    case AllNodes => var nodes := store.ListNodes(); reply := Nodes(nodes);
    case AllServices => var services := store.ListServices(); reply := Services(services);
    case AllJobs => var jobs := store.ListJobs(); reply := Jobs(jobs);
    case AllAssignments => var list := store.ListAssignments(); reply := Assignments(list);
    case NodeAssignments(n) => var list := store.ListNodeAssignments(n); reply := Assignments(list);
    case OwnerAssignments(kind, name) => var list := store.ListAssignmentsForOwner(kind, name); reply := Assignments(list);
    case Has(id) => reply := Flag(store.HasAssignment(id));
    case TakeSnapshot =>
      var nodes := store.ListNodes();
      var services := store.ListServices();
      var jobs := store.ListJobs();
      var list := store.ListAssignments();
      reply := Snapshot(nodes, services, jobs, list);
  }

  /** For any sequence of operations and queries the two stores give the same
      answers in the same order, and hold the same at the end. */
  method InStep(memory: MemoryStore, sqlite: SQLiteStore, calls: seq<Call>) returns (fromMemory: seq<Reply>, fromSqlite: seq<Reply>)
    requires memory.Valid() && sqlite.Valid() && memory.Contents() == sqlite.Contents()
    modifies memory, sqlite
    ensures fromMemory == fromSqlite && |fromMemory| == |calls|
    ensures memory.Valid() && sqlite.Valid() && memory.Contents() == sqlite.Contents()
  {
    hide MemoryStore.Valid, SQLiteStore.Valid, Apply;
    fromMemory, fromSqlite := [], [];
    for i := 0 to |calls|
      invariant memory.Valid() && sqlite.Valid() && memory.Contents() == sqlite.Contents()
      invariant fromMemory == fromSqlite && |fromMemory| == i
    {
      var reply1 := AskMemory(memory, calls[i]);
      var reply2 := AskSqlite(sqlite, calls[i]);
      fromMemory, fromSqlite := fromMemory + [reply1], fromSqlite + [reply2];
    }
  }
}
