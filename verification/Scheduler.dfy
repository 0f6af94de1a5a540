/** Greedy, deterministic placement (internal/scheduler). */
module Scheduling {
  import opened Order
  import opened Api
  import opened Load
  import opened StoreState
  import opened Discipline

  // What one workload asks of a node.
  datatype Request = Request(resources: Resources, requiredLabels: map<string, string>, ports: seq<int>) {
    function Asked(): Demand { Demand(resources, ports) }
  }

  predicate IsLive(now: int, timeout: int, node: Node) {
    now - node.lastHeartbeat <= timeout
  }

  // A label the node does not have reads as "".
  function LabelOf(labels: map<string, string>, key: string): string {
    if key in labels then labels[key] else ""
  }

  predicate MatchesPlacement(labels: map<string, string>, required: map<string, string>) {
    forall key | key in required :: LabelOf(labels, key) == required[key]
  }

  predicate PortsClash(used: set<int>, wanted: seq<int>) {
    exists p | p in wanted :: p in used
  }

  predicate RunsOn(a: Assignment, nodeId: string) {
    a.Active() && a.nodeId == nodeId
  }

  // Resources and ports the active assignments of a list take on a node.
  function Used(xs: seq<Assignment>, nodeId: string): Resources {
    if xs == [] then Resources(0, 0) else
      var a := xs[|xs| - 1];
      Used(xs[..|xs| - 1], nodeId).Plus(Share(a, nodeId))
  }

  function Share(a: Assignment, nodeId: string): Resources {
    if RunsOn(a, nodeId) then a.resources else Resources(0, 0)
  }

  function UsedPorts(xs: seq<Assignment>, nodeId: string): set<int> {
    set a, p | a in xs && RunsOn(a, nodeId) && p in a.ports :: p
  }

  // Reading a Go map: a missing key reads as the zero value.
  function UsedAt(used: map<string, Resources>, id: string): Resources {
    if id in used then used[id] else Resources(0, 0)
  }

  function PortsAt(usedPorts: map<string, set<int>>, id: string): set<int> {
    if id in usedPorts then usedPorts[id] else {}
  }

  // The declared rule: a live node that matches placement, has the request
  // free, and has none of its ports taken.
  ghost predicate Eligible(now: int, timeout: int, node: Node, xs: seq<Assignment>, request: Request) {
    && IsLive(now, timeout, node)
    && MatchesPlacement(node.labels, request.requiredLabels)
    && Used(xs, node.id).Plus(request.resources).AtMost(node.capacity)
    && !PortsClash(UsedPorts(xs, node.id), request.ports)
  }

  // r is the least ID among the eligible nodes, or None when there is none.
  ghost predicate IsChoice(now: int, timeout: int, nodes: seq<Node>, xs: seq<Assignment>, request: Request, r: Option<string>) {
    match r
    case None => forall node | node in nodes :: !Eligible(now, timeout, node, xs, request)
    case Some(id) =>
      && (exists node | node in nodes :: node.id == id && Eligible(now, timeout, node, xs, request))
      && (forall node | node in nodes && Eligible(now, timeout, node, xs, request) :: !StrLess(node.id, id))
  }

  class Scheduler {
    const nodeTimeout: int

    constructor (nodeTimeout: int)
      ensures this.nodeTimeout == nodeTimeout
    {
      this.nodeTimeout := nodeTimeout;
    }

    method ChooseNode(now: int, nodes: seq<Node>, assignments: seq<Assignment>, request: Request)
      returns (r: Option<string>)
      ensures IsChoice(now, nodeTimeout, nodes, assignments, request, r)
    {
      var liveNodes: seq<Node> := [];
      var liveNodeIds: set<string> := {};
      for i := 0 to |nodes|
        invariant forall n :: n in liveNodes <==> n in nodes[..i] && IsLive(now, nodeTimeout, n)
        invariant forall id :: id in liveNodeIds <==> exists n | n in liveNodes :: n.id == id
      {
        if now - nodes[i].lastHeartbeat > nodeTimeout {
          continue;
        }
        liveNodes := liveNodes + [nodes[i]];
        liveNodeIds := liveNodeIds + {nodes[i].id};
      }
      var sorted := SortNodes(liveNodes);
      var used, usedPorts := TakenOn(assignments, liveNodeIds);
      for i := 0 to |sorted|
        invariant forall n | n in sorted[..i] :: !Eligible(now, nodeTimeout, n, assignments, request)
      {
        var node := sorted[i];
        assert node in liveNodes && node.id in liveNodeIds;
        if !MatchesPlacement(node.labels, request.requiredLabels) {
          continue;
        }
        var current := UsedAt(used, node.id);
        if node.capacity.cpu - current.cpu < request.resources.cpu || node.capacity.memory - current.memory < request.resources.memory {
          continue;
        }
        if PortsClash(PortsAt(usedPorts, node.id), request.ports) {
          continue;
        }
        FirstIsLeast(sorted, i, node);
        return Some(node.id);
      }
      return None;
    }

    // Stands for sort.Slice by node ID.
    method SortNodes(nodes: seq<Node>) returns (sorted: seq<Node>)
      ensures forall n :: n in sorted <==> n in nodes
      ensures forall i, j | 0 <= i < j < |sorted| :: !StrLess(sorted[j].id, sorted[i].id)
    {
      sorted := Sort(nodes, NodeLess);
      SortNodesByID(nodes);
    }

    // One accumulating pass over the assignments.
    method TakenOn(assignments: seq<Assignment>, liveNodeIds: set<string>)
      returns (used: map<string, Resources>, usedPorts: map<string, set<int>>)
      ensures forall id | id in liveNodeIds :: UsedAt(used, id) == Used(assignments, id)
      ensures forall id | id in liveNodeIds :: PortsAt(usedPorts, id) == UsedPorts(assignments, id)
    {
      hide Used, UsedPorts;
      used, usedPorts := map[], map[];
      NothingTaken();
      for i := 0 to |assignments|
        invariant forall id | id in liveNodeIds :: UsedAt(used, id) == Used(assignments[..i], id)
        invariant forall id | id in liveNodeIds :: PortsAt(usedPorts, id) == UsedPorts(assignments[..i], id)
      {
        var a := assignments[i];
        forall id | id in liveNodeIds { TakenStep(assignments, i, id); }
        if !IsActivePhase(a.phase) || a.nodeId !in liveNodeIds {
          continue;
        }
        var current := UsedAt(used, a.nodeId);
        used := used[a.nodeId := Resources(current.cpu + a.resources.cpu, current.memory + a.resources.memory)];
        usedPorts := AddPorts(usedPorts, a);
      }
      assert assignments[..|assignments|] == assignments;
    }

    method AddPorts(usedPorts: map<string, set<int>>, a: Assignment) returns (r: map<string, set<int>>)
      ensures forall id | id != a.nodeId :: id in r <==> id in usedPorts
      ensures forall id | id != a.nodeId && id in r :: r[id] == usedPorts[id]
      ensures PortsAt(r, a.nodeId) == PortsAt(usedPorts, a.nodeId) + set p | p in a.ports
    {
      r := usedPorts;
      for k := 0 to |a.ports|
        invariant forall id | id != a.nodeId :: id in r <==> id in usedPorts
        invariant forall id | id != a.nodeId && id in r :: r[id] == usedPorts[id]
        invariant PortsAt(r, a.nodeId) == PortsAt(usedPorts, a.nodeId) + set p | p in a.ports[..k]
      {
        r := r[a.nodeId := PortsAt(r, a.nodeId) + {a.ports[k]}];
      }
      assert a.ports[..|a.ports|] == a.ports;
    }
  }

  lemma NothingTaken()
    ensures forall id :: Used([], id) == Resources(0, 0) && UsedPorts([], id) == {}
  {
  }

  lemma TakenStep(xs: seq<Assignment>, i: nat, id: string)
    requires i < |xs|
    ensures Used(xs[..i + 1], id) == if RunsOn(xs[i], id) then Used(xs[..i], id).Plus(xs[i].resources) else Used(xs[..i], id)
    ensures UsedPorts(xs[..i + 1], id)
         == UsedPorts(xs[..i], id) + if RunsOn(xs[i], id) then (set p | p in xs[i].ports) else {}
  {
    assert xs[..i + 1][..i] == xs[..i];
    forall p ensures p in UsedPorts(xs[..i + 1], id)
                 <==> p in UsedPorts(xs[..i], id) || (RunsOn(xs[i], id) && p in xs[i].ports)
    {
      assert forall a :: a in xs[..i + 1] <==> a in xs[..i] || a == xs[i];
    }
  }

  lemma FirstIsLeast(sorted: seq<Node>, i: nat, node: Node)
    requires i < |sorted| && sorted[i] == node
    requires forall i, j | 0 <= i < j < |sorted| :: !StrLess(sorted[j].id, sorted[i].id)
    ensures forall n | n in sorted[i..] :: !StrLess(n.id, node.id)
    ensures forall n | n in sorted :: n in sorted[..i] || n in sorted[i..]
  {
    forall n | n in sorted[i..] ensures !StrLess(n.id, node.id) {
      var k :| 0 <= k < |sorted[i..]| && sorted[i..][k] == n;
      if k == 0 { StrIrreflexive(n.id); }
    }
  }

  lemma NotBelow(a: string, b: string, c: string)
    requires StrLess(b, c) && (a == c || !StrLess(a, c))
    ensures !StrLess(a, b)
  {
    if StrLess(a, b) { StrTransitive(a, b, c); StrIrreflexive(a); }
  }

  lemma {:induction false} InsertNode(x: Node, xs: seq<Node>)
    requires forall i, j | 0 <= i < j < |xs| :: !StrLess(xs[j].id, xs[i].id)
    ensures forall i, j | 0 <= i < j < |Insert(x, xs, NodeLess)| ::
              !StrLess(Insert(x, xs, NodeLess)[j].id, Insert(x, xs, NodeLess)[i].id)
    ensures forall n :: n in Insert(x, xs, NodeLess) <==> n == x || n in xs
  {
    StrOrder();
    InsertMembers(x, xs, NodeLess);
    if xs != [] && !NodeLess(x, xs[0]) {
      var t := Insert(x, xs[1..], NodeLess);
      InsertNode(x, xs[1..]);
      InsertMembers(x, xs[1..], NodeLess);
      forall j | 0 <= j < |t| ensures !StrLess(t[j].id, xs[0].id) {
        assert t[j] in t;
        if t[j] != x {
          var k :| 0 <= k < |xs[1..]| && xs[1..][k] == t[j];
          assert xs[k + 1] == t[j];
        }
      }
    } else if xs != [] {
      forall j | 0 <= j < |xs| ensures !StrLess(xs[j].id, x.id) {
        NotBelow(xs[j].id, x.id, xs[0].id);
      }
    }
  }

  lemma {:induction false} SortNodesByID(nodes: seq<Node>)
    ensures forall n :: n in Sort(nodes, NodeLess) <==> n in nodes
    ensures forall i, j | 0 <= i < j < |Sort(nodes, NodeLess)| ::
              !StrLess(Sort(nodes, NodeLess)[j].id, Sort(nodes, NodeLess)[i].id)
  {
    if nodes != [] {
      SortNodesByID(nodes[1..]);
      InsertNode(nodes[0], Sort(nodes[1..], NodeLess));
      assert nodes == [nodes[0]] + nodes[1..];
    }
  }

  // --- What the rule means -------------------------------------------------

  /** The outcome depends on neither the order of the nodes nor that of the assignments. */
  lemma ChoiceIgnoresOrder(now: int, timeout: int, nodes: seq<Node>, nodes': seq<Node>, xs: seq<Assignment>,
                           xs': seq<Assignment>, request: Request, r: Option<string>, r': Option<string>)
    requires multiset(nodes) == multiset(nodes') && multiset(xs) == multiset(xs')
    requires IsChoice(now, timeout, nodes, xs, request, r) && IsChoice(now, timeout, nodes', xs', request, r')
    ensures r == r'
  {
    SameMembers(nodes, nodes');
    forall n: Node ensures Eligible(now, timeout, n, xs, request) <==> Eligible(now, timeout, n, xs', request) {
      SameMembers(xs, xs');
      UsedIgnoresOrder(xs, xs', n.id);
      assert UsedPorts(xs, n.id) == UsedPorts(xs', n.id);
    }
    if r.Some? && r'.Some? { StrTotal(r.value, r'.value); }
  }

  lemma SameMembers<T(!new)>(xs: seq<T>, ys: seq<T>)
    requires multiset(xs) == multiset(ys)
    ensures |xs| == |ys| && forall x :: x in xs <==> x in ys
  {
    forall x ensures x in xs <==> x in ys { assert x in multiset(xs) <==> x in multiset(ys); }
    assert |xs| == |multiset(xs)| && |ys| == |multiset(ys)|;
  }

  lemma {:induction false} UsedIgnoresOrder(xs: seq<Assignment>, ys: seq<Assignment>, n: string)
    requires multiset(xs) == multiset(ys)
    ensures Used(xs, n) == Used(ys, n)
    decreases |xs|
  {
    SameMembers(xs, ys);
    if xs != [] {
      var k := |xs| - 1;
      var j := DropSame(xs, ys);
      UsedIgnoresOrder(xs[..k], ys[..j] + ys[j + 1..], n);
      UsedOut(ys, j, n);
    }
  }

  lemma DropSame<T(!new)>(xs: seq<T>, ys: seq<T>) returns (j: nat)
    requires xs != [] && multiset(xs) == multiset(ys)
    ensures j < |ys| && ys[j] == xs[|xs| - 1]
    ensures multiset(xs[..|xs| - 1]) == multiset(ys[..j] + ys[j + 1..])
  {
    var k := |xs| - 1;
    SameMembers(xs, ys);
    assert xs[k] in ys;
    j :| 0 <= j < |ys| && ys[j] == xs[k];
    assert xs == xs[..k] + [xs[k]];
    assert ys == ys[..j] + [ys[j]] + ys[j + 1..];
    Cancel(multiset(xs[..k]), multiset(ys[..j] + ys[j + 1..]), xs[k]);
  }

  lemma Cancel<T(!new)>(a: multiset<T>, b: multiset<T>, x: T)
    requires a + multiset{x} == b + multiset{x}
    ensures a == b
  {
    forall y ensures a[y] == b[y] { assert (a + multiset{x})[y] == (b + multiset{x})[y]; }
  }

  // Used is a sum: taking out any one assignment takes out its share.
  lemma {:induction false} UsedOut(ys: seq<Assignment>, j: nat, n: string)
    requires j < |ys|
    ensures Used(ys, n) == Used(ys[..j] + ys[j + 1..], n).Plus(Share(ys[j], n))
  {
    hide Share;
    var k := |ys| - 1;
    if j < k {
      var head := ys[..k];
      UsedOut(head, j, n);
      var rest := ys[..j] + ys[j + 1..];
      assert rest == head[..j] + head[j + 1..] + [ys[k]];
      assert rest[..|rest| - 1] == head[..j] + head[j + 1..];
      PlusLastTwo(Used(rest[..|rest| - 1], n), Share(ys[j], n), Share(ys[k], n));
    } else {
      assert ys[..j] + ys[j + 1..] == ys[..k];
    }
  }

  lemma PlusLastTwo(a: Resources, b: Resources, c: Resources)
    ensures a.Plus(b).Plus(c) == a.Plus(c).Plus(b)
  {
  }

  // --- The rule on stored state --------------------------------------------

  // The same rule over the node and assignment tables of a store.
  ghost predicate Fits(now: int, timeout: int, nodes: map<string, Node>, m: map<string, Assignment>, request: Request, n: string) {
    && n in nodes
    && IsLive(now, timeout, nodes[n])
    && MatchesPlacement(nodes[n].labels, request.requiredLabels)
    && HasRoom(LoadOf(m, n), nodes[n].capacity, request.Asked())
  }

  ghost predicate ListsTable(xs: seq<Assignment>, m: map<string, Assignment>) {
    && Distinct(xs)
    && (forall id | id in m :: m[id].id == id)
    && (forall a :: a in xs <==> a.id in m && m[a.id] == a)
  }

  lemma {:induction false} UsedIsTotal(xs: seq<Assignment>, m: map<string, Assignment>, n: string)
    requires ListsTable(xs, m)
    ensures Used(xs, n) == Total(LoadOf(m, n))
    decreases |xs|
  {
    if xs == [] {
      assert m.Values == {};
      assert LoadOf(m, n) == map[];
    } else {
      var k := |xs| - 1;
      var a := xs[k];
      RestLists(xs, m);
      UsedIsTotal(xs[..k], m - {a.id}, n);
      LoadRemove(m, a.id, n);
    }
  }

  lemma LoadRemove(m: map<string, Assignment>, id: string, n: string)
    requires id in m
    ensures Total(LoadOf(m, n)) == Total(LoadOf(m - {id}, n)).Plus(Share(m[id], n))
  {
    if RunsOn(m[id], n) {
      TotalRemove(LoadOf(m, n), id);
      assert LoadOf(m, n) - {id} == LoadOf(m - {id}, n);
    } else {
      assert LoadOf(m, n) == LoadOf(m - {id}, n);
    }
  }

  lemma RestLists(xs: seq<Assignment>, m: map<string, Assignment>)
    requires ListsTable(xs, m) && xs != []
    ensures xs[|xs| - 1].id in m && m[xs[|xs| - 1].id] == xs[|xs| - 1]
    ensures ListsTable(xs[..|xs| - 1], m - {xs[|xs| - 1].id})
  {
    var rest, a := xs[..|xs| - 1], xs[|xs| - 1];
    assert a in xs;
    forall b ensures b in rest <==> b.id in m - {a.id} && m[b.id] == b {
      if b in rest {
        assert b in xs && b != a;
      }
      if b.id in m - {a.id} && m[b.id] == b {
        assert b in xs;
      }
    }
  }

  /** On a listing of the store's assignments the list rule is the table rule. */
  lemma EligibleIsFits(now: int, timeout: int, nodes: map<string, Node>, xs: seq<Assignment>,
                       m: map<string, Assignment>, request: Request, n: string)
    requires ListsTable(xs, m) && n in nodes && nodes[n].id == n
    ensures Eligible(now, timeout, nodes[n], xs, request) <==> Fits(now, timeout, nodes, m, request, n)
  {
    UsedIsTotal(xs, m, n);
    var load := LoadOf(m, n);
    if PortsClash(UsedPorts(xs, n), request.ports) {
      var p :| p in request.ports && p in UsedPorts(xs, n);
      var a :| a in xs && RunsOn(a, n) && p in a.ports;
      assert SharePort(request.ports, load[a.id].ports);
    } else {
      forall id | id in load ensures !SharePort(request.ports, load[id].ports) {
        assert m[id] in xs;
        forall p | p in request.ports ensures p !in load[id].ports { assert p !in UsedPorts(xs, n); }
      }
    }
  }

  /** Adding active assignments never makes a node fit that did not fit before. */
  lemma FitsIsAntitone(now: int, timeout: int, nodes: map<string, Node>, fewer: map<string, Assignment>,
                       more: map<string, Assignment>, request: Request, n: string)
    requires Within(LoadOf(fewer, n), LoadOf(more, n)) && NonNegative(LoadOf(more, n))
    requires Fits(now, timeout, nodes, more, request, n)
    ensures Fits(now, timeout, nodes, fewer, request, n)
  {
    RoomWithin(LoadOf(fewer, n), LoadOf(more, n), nodes[n].capacity, nodes[n].capacity, request.Asked());
  }
}
