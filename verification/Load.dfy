/** The demand placed on one node, and when a node can carry it. The same notion
    serves the store (active assignments) and the runtime (workloads held). */
module Load {
  import opened Api

  datatype Demand = Demand(resources: Resources, ports: seq<int>)

  type NodeLoad = map<string, Demand>

  ghost predicate NonNegative(load: NodeLoad) {
    forall id | id in load :: load[id].resources.NonNegative()
  }

  ghost predicate Within(part: NodeLoad, whole: NodeLoad) {
    forall id | id in part :: id in whole && part[id] == whole[id]
  }

  ghost function Total(load: NodeLoad): Resources {
    if load == map[] then Resources(0, 0) else
      var id :| id in load;
      assert (load - {id}).Keys < load.Keys;
      load[id].resources.Plus(Total(load - {id}))
  }

  predicate SharePort(a: seq<int>, b: seq<int>) {
    exists p | p in a :: p in b
  }

  // No two workloads of the load listen on one port.
  ghost predicate PortsApart(load: NodeLoad) {
    forall i, j | i in load && j in load && i != j :: !SharePort(load[i].ports, load[j].ports)
  }

  ghost predicate Safe(load: NodeLoad, capacity: Resources) {
    Total(load).AtMost(capacity) && PortsApart(load)
  }

  // Room for d on top of load.
  ghost predicate HasRoom(load: NodeLoad, capacity: Resources, d: Demand) {
    && Total(load).Plus(d.resources).AtMost(capacity)
    && forall id | id in load :: !SharePort(d.ports, load[id].ports)
  }

  lemma {:induction false} TotalRemove(load: NodeLoad, id: string)
    requires id in load
    ensures Total(load) == load[id].resources.Plus(Total(load - {id}))
    decreases |load|
  {
    var k :| k in load && Total(load) == load[k].resources.Plus(Total(load - {k}));
    if k != id {
      Smaller(load, k);
      Smaller(load, id);
      TotalRemove(load - {k}, id);
      TotalRemove(load - {id}, k);
      var rest := load - {k} - {id};
      assert rest == load - {id} - {k};
      assert Total(load - {k}) == load[id].resources.Plus(Total(rest));
      assert Total(load - {id}) == load[k].resources.Plus(Total(rest));
      PlusSwap(load[k].resources, load[id].resources, Total(rest));
    }
  }

  lemma PlusSwap(a: Resources, b: Resources, c: Resources)
    ensures a.Plus(b.Plus(c)) == b.Plus(a.Plus(c))
  {
  }

  lemma Smaller(load: NodeLoad, id: string)
    requires id in load
    ensures |load - {id}| < |load|
  {
    assert (load - {id}).Keys == load.Keys - {id};
  }

  lemma TotalAdd(load: NodeLoad, id: string, d: Demand)
    requires id !in load
    ensures Total(load[id := d]) == Total(load).Plus(d.resources)
  {
    TotalRemove(load[id := d], id);
    assert load[id := d] - {id} == load;
  }

  lemma {:induction false} TotalWithin(part: NodeLoad, whole: NodeLoad)
    requires Within(part, whole) && NonNegative(whole)
    ensures Total(part).AtMost(Total(whole))
    decreases |whole|
  {
    if id :| id in whole && id !in part {
      Smaller(whole, id);
      TotalWithin(part, whole - {id});
      TotalRemove(whole, id);
    } else {
      assert part == whole;
    }
  }

  /** Taking workloads away keeps a node safe. */
  lemma SafeWithin(part: NodeLoad, whole: NodeLoad, capacity: Resources)
    requires Within(part, whole) && NonNegative(whole) && Safe(whole, capacity)
    ensures Safe(part, capacity)
  {
    TotalWithin(part, whole);
  }

  /** Room found on a larger load is still there on a smaller one. */
  lemma RoomWithin(part: NodeLoad, whole: NodeLoad, capacity: Resources, more: Resources, d: Demand)
    requires Within(part, whole) && NonNegative(whole) && HasRoom(whole, capacity, d) && capacity.AtMost(more)
    ensures HasRoom(part, more, d)
  {
    TotalWithin(part, whole);
  }

  lemma SafeAdd(load: NodeLoad, capacity: Resources, id: string, d: Demand)
    requires id !in load && Safe(load, capacity) && HasRoom(load, capacity, d)
    ensures Safe(load[id := d], capacity)
  {
    TotalAdd(load, id, d);
    forall i | i in load ensures !SharePort(load[i].ports, d.ports) {
      assert !SharePort(d.ports, load[i].ports);
    }
  }
}
