/**
 Kahn scheduling of a host plan. `ValidateGraph` and `TopologicalLevels` are two separate
 algorithms over the same graph; both are proved against path-based definitions of a
 cycle and of the longest dependency chain.
 */
module Graph {
  import opened Wrappers
  import opened PlanTypes
  import Text

  type Plan = map<Id, Node>

  datatype GraphError = DuplicateId | BadDependency | Cycle

  /** What the source demands of identities and dependency lists. */
  ghost predicate WellFormed(nodes: seq<Node>) {
    && UniqueIds(nodes)
    && forall i :: 0 <= i < |nodes| ==> DependenciesOk(nodes[i], NodeMap(nodes).Keys)
  }

  ghost predicate DependenciesOk(node: Node, ids: set<Id>) {
    && NoRepeats(node.dependsOn)
    && forall j :: 0 <= j < |node.dependsOn| ==> node.dependsOn[j] in ids
  }

  ghost predicate Closed(g: Plan) {
    && (forall id :: id in g ==> g[id].id == id)
    && forall id {:trigger DependenciesOk(g[id], g.Keys)} :: id in g ==> DependenciesOk(g[id], g.Keys)
  }

  lemma WellFormedClosed(nodes: seq<Node>)
    requires WellFormed(nodes)
    ensures Closed(NodeMap(nodes))
  {
    forall id | id in NodeMap(nodes)
      ensures NodeMap(nodes)[id].id == id && DependenciesOk(NodeMap(nodes)[id], NodeMap(nodes).Keys)
    {
      var i := NodeMapEntry(nodes, id);
    }
  }

  // ---------------------------------------------------------------- chains and cycles

  /** A dependency chain: every element depends directly on its successor. */
  ghost predicate Chain(g: Plan, p: seq<Id>) {
    && |p| > 0
    && (forall i :: 0 <= i < |p| ==> p[i] in g)
    && forall i :: 0 <= i < |p| - 1 ==> DependsOn(g, p[i], p[i + 1])
  }

  ghost predicate DependsOn(g: Plan, a: Id, b: Id) {
    a in g && b in g[a].dependsOn
  }

  ghost predicate Acyclic(g: Plan) {
    forall p :: Chain(g, p) && |p| > 1 ==> p[0] != p[|p| - 1]
  }

  /** `b` is a transitive dependency of `a`. */
  ghost predicate Ancestor(g: Plan, a: Id, b: Id) {
    exists p :: Chain(g, p) && |p| > 1 && p[0] == a && p[|p| - 1] == b
  }

  lemma ChainTail(g: Plan, p: seq<Id>)
    requires Chain(g, p) && |p| > 1
    ensures Chain(g, p[1..])
  {
    forall i | 0 <= i < |p| - 2 ensures DependsOn(g, p[1..][i], p[1..][i + 1]) {
      assert DependsOn(g, p[i + 1], p[i + 2]);
    }
  }

  lemma ChainSlice(g: Plan, p: seq<Id>, i: nat, j: nat)
    requires Chain(g, p) && i < j < |p|
    ensures Chain(g, p[i..j + 1])
  {
    var q := p[i..j + 1];
    forall k | 0 <= k < |q| - 1 ensures DependsOn(g, q[k], q[k + 1]) {
      assert DependsOn(g, p[i + k], p[i + k + 1]);
    }
  }

  lemma ChainCons(g: Plan, a: Id, p: seq<Id>)
    requires Chain(g, p) && DependsOn(g, a, p[0])
    ensures Chain(g, [a] + p)
  {
    var q := [a] + p;
    forall i | 0 <= i < |q| - 1 ensures DependsOn(g, q[i], q[i + 1]) {
      if i > 0 { assert DependsOn(g, p[i - 1], p[i]); }
    }
  }

  /** A strictly decreasing rank along every dependency rules out cycles. */
  lemma {:induction false} RankDecreases(g: Plan, rank: map<Id, nat>, p: seq<Id>)
    requires forall a, b :: DependsOn(g, a, b) && b in g ==> a in rank && b in rank && rank[b] < rank[a]
    requires Chain(g, p) && |p| > 1
    ensures p[0] in rank && p[|p| - 1] in rank && rank[p[|p| - 1]] < rank[p[0]]
  {
    assert DependsOn(g, p[0], p[1]);
    if |p| > 2 {
      ChainTail(g, p);
      RankDecreases(g, rank, p[1..]);
    }
  }

  lemma RankedIsAcyclic(g: Plan, rank: map<Id, nat>)
    requires forall a, b :: DependsOn(g, a, b) && b in g ==> a in rank && b in rank && rank[b] < rank[a]
    ensures Acyclic(g)
  {
    forall p | Chain(g, p) && |p| > 1 ensures p[0] != p[|p| - 1] {
      RankDecreases(g, rank, p);
    }
  }

  /** `a` still waits for a member of the set. */
  ghost predicate WaitsFor(g: Plan, a: Id, stuck: set<Id>) {
    exists b :: b in stuck && DependsOn(g, a, b)
  }

  /** A set in which everybody still waits for a member lets chains grow without end. */
  lemma {:induction false} StuckChain(g: Plan, stuck: set<Id>, n: nat) returns (p: seq<Id>)
    requires stuck != {} && stuck <= g.Keys
    requires forall a {:trigger WaitsFor(g, a, stuck)} :: a in stuck ==> WaitsFor(g, a, stuck)
    ensures Chain(g, p) && |p| == n + 1
    ensures forall i :: 0 <= i < |p| ==> p[i] in stuck
  {
    if n == 0 {
      var a :| a in stuck;
      p := [a];
    } else {
      var q := StuckChain(g, stuck, n - 1);
      var last := q[|q| - 1];
      assert WaitsFor(g, last, stuck);
      var b :| b in stuck && DependsOn(g, last, b);
      p := q + [b];
      ChainSnoc(g, q, b);
    }
  }

  lemma ChainSnoc(g: Plan, q: seq<Id>, b: Id)
    requires Chain(g, q) && b in g && DependsOn(g, q[|q| - 1], b)
    ensures Chain(g, q + [b])
  {
    var p := q + [b];
    forall i | 0 <= i < |p| - 1 ensures DependsOn(g, p[i], p[i + 1]) {
      if i < |q| - 1 { assert DependsOn(g, q[i], q[i + 1]); }
    }
  }

  lemma {:induction false} Pigeonhole(p: seq<Id>, s: set<Id>) returns (i: nat, j: nat)
    requires |p| > |s|
    requires forall k :: 0 <= k < |p| ==> p[k] in s
    ensures i < j < |p| && p[i] == p[j]
  {
    var last := |p| - 1;
    if k :| 0 <= k < last && p[k] == p[last] {
      return k, last;
    }
    var s' := s - {p[last]};
    assert |s'| == |s| - 1;
    i, j := Pigeonhole(p[..last], s');
  }

  lemma CycleRefutes(g: Plan, q: seq<Id>)
    requires Chain(g, q) && |q| > 1 && q[0] == q[|q| - 1]
    ensures !Acyclic(g)
  {
  }

  lemma StuckHasCycle(g: Plan, stuck: set<Id>)
    requires stuck != {} && stuck <= g.Keys
    requires forall a {:trigger WaitsFor(g, a, stuck)} :: a in stuck ==> WaitsFor(g, a, stuck)
    ensures !Acyclic(g)
  {
    var p := StuckChain(g, stuck, |stuck|);
    var i, j := Pigeonhole(p, stuck);
    ChainSlice(g, p, i, j);
    CycleRefutes(g, p[i..j + 1]);
  }

  // ---------------------------------------------------------------- building the graph

  datatype GraphData = GraphData(nodes: Plan, indegree: map<Id, int>, dependents: map<Id, seq<Id>>)

  function DependentsOf(dependents: map<Id, seq<Id>>, id: Id): seq<Id> {
    if id in dependents then dependents[id] else []
  }

  /** What a built graph records, stated on the plan alone. */
  ghost predicate Describes(data: GraphData) {
    && Closed(data.nodes)
    && data.indegree.Keys == data.nodes.Keys
    && (forall id :: id in data.nodes ==> data.indegree[id] == |data.nodes[id].dependsOn|)
    && forall id {:trigger ListsDependents(data.nodes, id, DependentsOf(data.dependents, id))} ::
      id in data.nodes ==> ListsDependents(data.nodes, id, DependentsOf(data.dependents, id))
  }

  ghost predicate ListsDependents(g: Plan, id: Id, list: seq<Id>) {
    && NoRepeats(list)
    && forall x :: x in list <==> DependsOn(g, x, id)
  }

  /** First pass of `buildGraph`: register every node or report a duplicate. */
  method IndexNodes(nodes: seq<Node>) returns (r: Result<Plan, GraphError>)
    ensures r.Ok? <==> UniqueIds(nodes)
    ensures r.Ok? ==> r.value == NodeMap(nodes)
    ensures r.Err? ==> r.error == DuplicateId
  {
    var index: Plan := map[];
    for i := 0 to |nodes|
      invariant index == NodeMap(nodes[..i])
      invariant UniqueIds(nodes[..i])
    {
      IndexNext(nodes, i);
      if nodes[i].id in index {
        return Err(DuplicateId);
      }
      index := index[nodes[i].id := nodes[i]];
    }
    assert nodes[..|nodes|] == nodes;
    return Ok(index);
  }

  /** The next node is a duplicate, or the index grows by it. */
  lemma IndexNext(nodes: seq<Node>, i: nat)
    requires i < |nodes| && UniqueIds(nodes[..i])
    ensures nodes[i].id in NodeMap(nodes[..i]) ==> !UniqueIds(nodes)
    ensures nodes[i].id !in NodeMap(nodes[..i]) ==> UniqueIds(nodes[..i + 1])
    ensures NodeMap(nodes[..i + 1]) == NodeMap(nodes[..i])[nodes[i].id := nodes[i]]
  {
    NodeMapKeys(nodes[..i]);
    assert nodes[..i + 1][..i] == nodes[..i];
    if nodes[i].id in NodeMap(nodes[..i]) {
      var k :| 0 <= k < i && nodes[..i][k].id == nodes[i].id;
      assert nodes[k].id == nodes[i].id;
    } else {
      var earlier, grown := nodes[..i], nodes[..i + 1];
      assert grown == earlier + [nodes[i]];
      forall a, b | 0 <= a < b < |grown| ensures grown[a].id != grown[b].id {
        assert earlier[a].id in NodeMap(earlier);
        if b < i { assert earlier[a].id != earlier[b].id; }
      }
    }
  }

  /** The edges contributed by the first `i` nodes and the first `j` dependencies of node `i`. */
  ghost predicate EdgeSeen(nodes: seq<Node>, i: nat, j: nat, x: Id, d: Id)
    requires i <= |nodes|
  {
    exists k, m :: 0 <= k < |nodes| && 0 <= m < |nodes[k].dependsOn|
                   && (k < i || (k == i && m < j)) && nodes[k].id == x && nodes[k].dependsOn[m] == d
  }

  ghost predicate EdgesRecorded(nodes: seq<Node>, i: nat, j: nat, dependents: map<Id, seq<Id>>)
    requires i <= |nodes|
  {
    forall d :: NoRepeats(DependentsOf(dependents, d))
                && forall x :: x in DependentsOf(dependents, d) <==> EdgeSeen(nodes, i, j, x, d)
  }

  /** Recording one more edge, which no earlier edge repeats. */
  lemma RecordEdge(nodes: seq<Node>, i: nat, j: nat, before: map<Id, seq<Id>>, after: map<Id, seq<Id>>)
    requires UniqueIds(nodes) && i < |nodes| && j < |nodes[i].dependsOn|
    requires nodes[i].dependsOn[j] !in nodes[i].dependsOn[..j]
    requires EdgesRecorded(nodes, i, j, before)
    requires var d := nodes[i].dependsOn[j]; after == before[d := DependentsOf(before, d) + [nodes[i].id]]
    ensures EdgesRecorded(nodes, i, j + 1, after)
  {
    var d, id := nodes[i].dependsOn[j], nodes[i].id;
    NewEdge(nodes, i, j);
    assert id !in DependentsOf(before, d);
    forall e ensures NoRepeats(DependentsOf(after, e))
             && forall x :: x in DependentsOf(after, e) <==> EdgeSeen(nodes, i, j + 1, x, e)
    {
      assert NoRepeats(DependentsOf(before, e));
      forall x ensures x in DependentsOf(after, e) <==> EdgeSeen(nodes, i, j + 1, x, e) {
        assert x in DependentsOf(before, e) <==> EdgeSeen(nodes, i, j, x, e);
        EdgeStep(nodes, i, j, x, e);
        if e == d { assert DependentsOf(after, e) == DependentsOf(before, e) + [id]; }
      }
    }
  }

  lemma NewEdge(nodes: seq<Node>, i: nat, j: nat)
    requires UniqueIds(nodes) && i < |nodes| && j < |nodes[i].dependsOn|
    requires nodes[i].dependsOn[j] !in nodes[i].dependsOn[..j]
    ensures !EdgeSeen(nodes, i, j, nodes[i].id, nodes[i].dependsOn[j])
  {
    assert forall m :: 0 <= m < j ==> nodes[i].dependsOn[m] == nodes[i].dependsOn[..j][m];
  }

  lemma EdgeStep(nodes: seq<Node>, i: nat, j: nat, x: Id, e: Id)
    requires i < |nodes| && j < |nodes[i].dependsOn|
    ensures EdgeSeen(nodes, i, j + 1, x, e) <==>
            EdgeSeen(nodes, i, j, x, e) || (x == nodes[i].id && e == nodes[i].dependsOn[j])
  {
    if EdgeSeen(nodes, i, j + 1, x, e) {
      var k, m :| 0 <= k < |nodes| && 0 <= m < |nodes[k].dependsOn|
                  && (k < i || (k == i && m < j + 1)) && nodes[k].id == x && nodes[k].dependsOn[m] == e;
    }
    if EdgeSeen(nodes, i, j, x, e) {
      var k, m :| 0 <= k < |nodes| && 0 <= m < |nodes[k].dependsOn|
                  && (k < i || (k == i && m < j)) && nodes[k].id == x && nodes[k].dependsOn[m] == e;
    }
  }

  /** Second pass of `buildGraph` for one node: check its dependency list and add its edges. */
  method AddDependencies(nodes: seq<Node>, i: nat, data: GraphData)
    returns (ok: bool, r: GraphData)
    requires UniqueIds(nodes) && i < |nodes| && data.nodes == NodeMap(nodes)
    requires nodes[i].id in data.indegree && data.indegree[nodes[i].id] == 0
    requires EdgesRecorded(nodes, i, 0, data.dependents)
    ensures ok <==> DependenciesOk(nodes[i], data.nodes.Keys)
    ensures r.nodes == data.nodes
    ensures ok ==> r.indegree == data.indegree[nodes[i].id := |nodes[i].dependsOn|]
    ensures ok ==> EdgesRecorded(nodes, i + 1, 0, r.dependents)
  {
    var node := nodes[i];
    r := data;
    var seen: set<Id> := {};
    for j := 0 to |node.dependsOn|
      invariant seen == set d | d in node.dependsOn[..j]
      invariant NoRepeats(node.dependsOn[..j])
      invariant forall d :: d in node.dependsOn[..j] ==> d in data.nodes
      invariant r.nodes == data.nodes
      invariant r.indegree == data.indegree[node.id := j]
      invariant EdgesRecorded(nodes, i, j, r.dependents)
    {
      var d := node.dependsOn[j];
      if d !in data.nodes {
        return false, r;
      }
      if d in seen {
        assert d in node.dependsOn[..j];
        return false, r;
      }
      assert node.dependsOn[..j + 1] == node.dependsOn[..j] + [d];
      seen := seen + {d};
      var after := r.dependents[d := DependentsOf(r.dependents, d) + [node.id]];
      RecordEdge(nodes, i, j, r.dependents, after);
      r := GraphData(r.nodes, r.indegree[node.id := r.indegree[node.id] + 1], after);
    }
    assert node.dependsOn[..|node.dependsOn|] == node.dependsOn;
    forall d ensures forall x :: x in DependentsOf(r.dependents, d) <==> EdgeSeen(nodes, i + 1, 0, x, d) {
      forall x ensures x in DependentsOf(r.dependents, d) <==> EdgeSeen(nodes, i + 1, 0, x, d) {
        assert x in DependentsOf(r.dependents, d) <==> EdgeSeen(nodes, i, |node.dependsOn|, x, d);
        EdgeSeenNext(nodes, i, x, d);
      }
    }
    ok := true;
  }

  lemma EdgeSeenNext(nodes: seq<Node>, i: nat, x: Id, d: Id)
    requires i < |nodes|
    ensures EdgeSeen(nodes, i, |nodes[i].dependsOn|, x, d) <==> EdgeSeen(nodes, i + 1, 0, x, d)
  {
    if EdgeSeen(nodes, i, |nodes[i].dependsOn|, x, d) {
      var k, m :| 0 <= k < |nodes| && 0 <= m < |nodes[k].dependsOn|
                  && (k < i || (k == i && m < |nodes[i].dependsOn|)) && nodes[k].id == x && nodes[k].dependsOn[m] == d;
    }
    if EdgeSeen(nodes, i + 1, 0, x, d) {
      var k, m :| 0 <= k < |nodes| && 0 <= m < |nodes[k].dependsOn|
                  && (k < i + 1 || (k == i + 1 && m < 0)) && nodes[k].id == x && nodes[k].dependsOn[m] == d;
    }
  }

  lemma RecordedDescribes(nodes: seq<Node>, data: GraphData)
    requires WellFormed(nodes) && data.nodes == NodeMap(nodes)
    requires data.indegree.Keys == data.nodes.Keys
    requires forall id :: id in data.nodes ==> data.indegree[id] == |data.nodes[id].dependsOn|
    requires EdgesRecorded(nodes, |nodes|, 0, data.dependents)
    ensures Describes(data)
  {
    WellFormedClosed(nodes);
    forall id | id in data.nodes ensures ListsDependents(data.nodes, id, DependentsOf(data.dependents, id)) {
      forall x ensures x in DependentsOf(data.dependents, id) <==> DependsOn(data.nodes, x, id) {
        assert x in DependentsOf(data.dependents, id) <==> EdgeSeen(nodes, |nodes|, 0, x, id);
        if EdgeSeen(nodes, |nodes|, 0, x, id) {
          var k, m :| 0 <= k < |nodes| && 0 <= m < |nodes[k].dependsOn| && nodes[k].id == x && nodes[k].dependsOn[m] == id;
          NodeMapFinds(nodes, k);
        }
        if DependsOn(data.nodes, x, id) {
          var k := NodeMapEntry(nodes, x);
          var m :| 0 <= m < |nodes[k].dependsOn| && nodes[k].dependsOn[m] == id;
        }
      }
    }
  }

  /** `buildGraph`: accepts exactly the well-formed documents and records their edges. */
  method BuildGraph(doc: Document) returns (r: Result<GraphData, GraphError>)
    ensures r.Ok? <==> WellFormed(doc.nodes)
    ensures r.Ok? ==> r.value.nodes == NodeMap(doc.nodes) && Describes(r.value)
    ensures r == Err(DuplicateId) <==> !UniqueIds(doc.nodes)
    ensures r.Err? ==> r.error != Cycle
  {
    var nodes := doc.nodes;
    var indexed := IndexNodes(nodes);
    if indexed.Err? {
      return Err(indexed.error);
    }
    var index := indexed.value;
    var data := GraphData(index, map id | id in index :: 0, map[]);
    assert EdgesRecorded(nodes, 0, 0, data.dependents);
    forall k | 0 <= k < |nodes| ensures nodes[k].id in index { NodeMapFinds(nodes, k); }
    for i := 0 to |nodes|
      invariant data.nodes == index && data.indegree.Keys == index.Keys
      invariant forall k :: 0 <= k < i ==> DependenciesOk(nodes[k], index.Keys)
      invariant forall k :: 0 <= k < |nodes| ==> nodes[k].id in index
      invariant forall k :: 0 <= k < i ==> data.indegree[nodes[k].id] == |nodes[k].dependsOn|
      invariant forall k :: i <= k < |nodes| ==> data.indegree[nodes[k].id] == 0
      invariant EdgesRecorded(nodes, i, 0, data.dependents)
    {
      var ok, next := AddDependencies(nodes, i, data);
      if !ok {
        return Err(BadDependency);
      }
      data := next;
    }
    forall id | id in index ensures data.indegree[id] == |index[id].dependsOn| {
      var k := NodeMapEntry(nodes, id);
    }
    RecordedDescribes(nodes, data);
    return Ok(data);
  }

  // ---------------------------------------------------------------- Kahn's invariant

  ghost function SetOf(ids: seq<Id>): set<Id> {
    set d | d in ids
  }

  lemma SetOfAppend(ids: seq<Id>, i: nat)
    requires i < |ids|
    ensures SetOf(ids[..i + 1]) == SetOf(ids[..i]) + {ids[i]}
  {
    assert ids[..i + 1] == ids[..i] + [ids[i]];
  }

  /** The dependencies of a node that have not been processed yet. */
  ghost function Open(node: Node, done: set<Id>): set<Id> {
    set d | d in node.dependsOn && d !in done
  }

  lemma {:induction false} DistinctCount(ids: seq<Id>)
    requires NoRepeats(ids)
    ensures |SetOf(ids)| == |ids|
  {
    if ids != [] {
      var last := |ids| - 1;
      DistinctCount(ids[..last]);
      SetOfAppend(ids, last);
      assert ids[..last + 1] == ids;
    }
  }

  lemma OpenAtStart(node: Node)
    requires NoRepeats(node.dependsOn)
    ensures |Open(node, {})| == |node.dependsOn|
  {
    DistinctCount(node.dependsOn);
    assert Open(node, {}) == SetOf(node.dependsOn);
  }

  lemma OpenStep(node: Node, done: set<Id>, id: Id)
    requires id !in done
    ensures id in node.dependsOn ==> |Open(node, done + {id})| == |Open(node, done)| - 1
    ensures id !in node.dependsOn ==> Open(node, done + {id}) == Open(node, done)
  {
    if id in node.dependsOn {
      assert Open(node, done + {id}) == Open(node, done) - {id};
    } else {
      assert Open(node, done + {id}) == Open(node, done);
    }
  }

  ghost predicate Counts(g: Plan, indegree: map<Id, int>, done: set<Id>) {
    forall x :: x in indegree ==> x in g && indegree[x] == |Open(g[x], done)|
  }

  lemma CountsAtStart(data: GraphData)
    requires Describes(data)
    ensures Counts(data.nodes, data.indegree, {})
  {
    forall x | x in data.indegree ensures data.indegree[x] == |Open(data.nodes[x], {})| {
      assert DependenciesOk(data.nodes[x], data.nodes.Keys);
      OpenAtStart(data.nodes[x]);
    }
  }

  /** Nothing processable is left while nodes remain: the remaining nodes hold a cycle. */
  lemma NoZeroMeansCycle(g: Plan, done: set<Id>)
    requires Closed(g) && done < g.Keys
    requires forall x :: x in g && x !in done ==> Open(g[x], done) != {}
    ensures !Acyclic(g)
  {
    var stuck := g.Keys - done;
    forall a | a in stuck ensures WaitsFor(g, a, stuck) {
      var d :| d in Open(g[a], done);
      assert DependenciesOk(g[a], g.Keys);
      assert d in stuck && DependsOn(g, a, d);
    }
    var x :| x in g.Keys && x !in done;
    assert x in stuck;
    StuckHasCycle(g, stuck);
  }

  /** The sorted identifiers of degree zero, gathered from the (unordered) indegree map. */
  method ZeroDegree(indegree: map<Id, int>) returns (ids: seq<Id>)
    ensures Text.Sorted(ids) && NoRepeats(ids)
    ensures forall x :: x in ids <==> x in indegree && indegree[x] == 0
  {
    var todo := indegree.Keys;
    var found: seq<Id> := [];
    while todo != {}
      invariant todo <= indegree.Keys
      invariant NoRepeats(found)
      invariant forall x :: x in found <==> x in indegree && x !in todo && indegree[x] == 0
      decreases |todo|
    {
      var x :| x in todo;
      todo := todo - {x};
      if indegree[x] == 0 {
        found := found + [x];
      }
    }
    ids := Text.Sort(found);
    SortedKeepsDistinct(found, ids);
  }

  lemma SortedKeepsDistinct(a: seq<Id>, b: seq<Id>)
    requires NoRepeats(a) && multiset(a) == multiset(b)
    ensures NoRepeats(b)
    ensures forall x :: x in b <==> x in a
  {
    forall x ensures multiset(a)[x] <= 1 { AtMostOnce(a, x); }
    forall x ensures x in b <==> x in a {
      assert x in multiset(b) <==> x in b;
      assert x in multiset(a) <==> x in a;
    }
    forall i, j | 0 <= i < j < |b| ensures b[i] != b[j] {
      TwiceIfEqual(b, i, j);
    }
  }

  lemma TwiceIfEqual(b: seq<Id>, i: nat, j: nat)
    requires i < j < |b|
    ensures b[i] == b[j] ==> multiset(b)[b[i]] >= 2
  {
    assert b == b[..i] + [b[i]] + b[i + 1..j] + [b[j]] + b[j + 1..];
  }

  lemma {:induction false} AtMostOnce(a: seq<Id>, x: Id)
    requires NoRepeats(a)
    ensures multiset(a)[x] <= 1
  {
    if a != [] {
      var last := |a| - 1;
      AtMostOnce(a[..last], x);
      assert a == a[..last] + [a[last]];
      if x == a[last] { assert x !in multiset(a[..last]); }
    }
  }

  // ---------------------------------------------------------------- ValidateGraph

  ghost predicate RankedBy(g: Plan, done: set<Id>, rank: map<Id, nat>) {
    && rank.Keys == done <= g.Keys
    && (forall a :: a in done ==> rank[a] < |done|)
    && forall a, b :: a in done && DependsOn(g, a, b) ==> b in done && rank[b] < rank[a]
  }

  /** Zero degree, and only that, puts a node into the queue or the processed set. */
  ghost predicate QueueExact(g: Plan, indegree: map<Id, int>, done: set<Id>, queue: seq<Id>) {
    && indegree.Keys == g.Keys
    && NoRepeats(queue)
    && (forall x :: x in queue ==> x in g && x !in done)
    && forall x :: x in g ==> (indegree[x] == 0 <==> x in done || x in queue)
  }

  /** The counters while the dependents of `id` are being released. */
  ghost predicate Releasing(g: Plan, indegree: map<Id, int>, done: set<Id>, id: Id, released: seq<Id>) {
    forall x :: x in indegree ==> (
      x in g && indegree[x] == |Open(g[x], if x in released then done + {id} else done)|)
  }

  lemma ReleaseComplete(g: Plan, indegree: map<Id, int>, done: set<Id>, id: Id, list: seq<Id>)
    requires Releasing(g, indegree, done, id, list) && id !in done
    requires ListsDependents(g, id, list)
    ensures Counts(g, indegree, done + {id})
  {
    forall x | x in indegree ensures indegree[x] == |Open(g[x], done + {id})| {
      if x !in list { OpenStep(g[x], done, id); assert !DependsOn(g, x, id); }
    }
  }

  lemma PopQueue(g: Plan, indegree: map<Id, int>, done: set<Id>, id: Id, queue: seq<Id>)
    requires QueueExact(g, indegree, done, [id] + queue)
    ensures id in g && id !in done && QueueExact(g, indegree, done + {id}, queue)
  {
    var all := [id] + queue;
    assert all[0] == id;
    assert forall k :: 0 <= k < |queue| ==> all[k + 1] == queue[k];
  }

  /** One decrement keeps the counters exact. */
  lemma ReleaseOne(g: Plan, indegree: map<Id, int>, done: set<Id>, id: Id, list: seq<Id>, j: nat)
    requires id !in done && ListsDependents(g, id, list) && j < |list| && list[j] in indegree
    requires Releasing(g, indegree, done, id, list[..j])
    ensures indegree[list[j]] > 0
    ensures Releasing(g, indegree[list[j] := indegree[list[j]] - 1], done, id, list[..j + 1])
  {
    var x := list[j];
    assert DependsOn(g, x, id);
    OpenStep(g[x], done, id);
    assert x !in list[..j];
    assert id in Open(g[x], done);
    assert list[..j + 1] == list[..j] + [x];
  }

  lemma Enqueue(g: Plan, indegree: map<Id, int>, done: set<Id>, queue: seq<Id>, x: Id)
    requires QueueExact(g, indegree, done, queue) && x in g && indegree[x] > 0
    ensures var next := indegree[x := indegree[x] - 1];
      QueueExact(g, next, done, if next[x] == 0 then queue + [x] else queue)
  {
  }

  method ReleaseInto(g: Plan, indegree: map<Id, int>, list: seq<Id>, id: Id, queue: seq<Id>, ghost done: set<Id>)
    returns (indegree': map<Id, int>, queue': seq<Id>)
    requires id !in done && ListsDependents(g, id, list)
    requires Counts(g, indegree, done) && QueueExact(g, indegree, done + {id}, queue)
    ensures Counts(g, indegree', done + {id}) && QueueExact(g, indegree', done + {id}, queue')
  {
    indegree', queue' := indegree, queue;
    for j := 0 to |list|
      invariant Releasing(g, indegree', done, id, list[..j])
      invariant QueueExact(g, indegree', done + {id}, queue')
    {
      var x := list[j];
      assert DependsOn(g, x, id);
      ReleaseOne(g, indegree', done, id, list, j);
      Enqueue(g, indegree', done + {id}, queue', x);
      indegree' := indegree'[x := indegree'[x] - 1];
      if indegree'[x] == 0 {
        queue' := queue' + [x];
      }
    }
    assert list[..|list|] == list;
    ReleaseComplete(g, indegree', done, id, list);
  }

  lemma RankNext(g: Plan, done: set<Id>, rank: map<Id, nat>, id: Id)
    requires RankedBy(g, done, rank) && id in g && id !in done && Open(g[id], done) == {}
    ensures RankedBy(g, done + {id}, rank[id := |done|])
  {
    forall b | DependsOn(g, id, b) ensures b in done { assert b !in Open(g[id], done); }
  }

  /** The queue loop of `ValidateGraph`: everything gets processed exactly when there is no cycle. */
  method ProcessQueue(data: GraphData) returns (processed: nat)
    requires Describes(data)
    ensures processed == |data.nodes| <==> Acyclic(data.nodes)
  {
    CountsAtStart(data);
    ghost var g := data.nodes;
    var indegree := data.indegree;
    var queue := ZeroDegree(indegree);
    processed := 0;
    ghost var done: set<Id> := {};
    ghost var rank: map<Id, nat> := map[];
    while queue != []
      invariant Counts(g, indegree, done) && QueueExact(g, indegree, done, queue)
      invariant RankedBy(g, done, rank) && processed == |done|
      decreases |g.Keys - done|
    {
      var id := queue[0];
      rank := HeadRank(g, indegree, done, queue, rank);
      indegree, queue := ProcessHead(data, indegree, queue, done);
      done := done + {id};
      processed := processed + 1;
    }
    QueueDrained(g, indegree, done, rank);
  }

  /** Takes the head off the queue and releases its dependents. */
  method ProcessHead(data: GraphData, indegree: map<Id, int>, queue: seq<Id>, ghost done: set<Id>)
    returns (indegree': map<Id, int>, queue': seq<Id>)
    requires Describes(data) && queue != []
    requires Counts(data.nodes, indegree, done) && QueueExact(data.nodes, indegree, done, queue)
    ensures Counts(data.nodes, indegree', done + {queue[0]})
    ensures QueueExact(data.nodes, indegree', done + {queue[0]}, queue')
  {
    var id := queue[0];
    assert queue == [id] + queue[1..];
    ZeroInQueue(data.nodes, indegree, done, id, queue[1..]);
    assert ListsDependents(data.nodes, id, DependentsOf(data.dependents, id));
    indegree', queue' := ReleaseInto(data.nodes, indegree, DependentsOf(data.dependents, id), id, queue[1..], done);
  }

  lemma HeadRank(g: Plan, indegree: map<Id, int>, done: set<Id>, queue: seq<Id>, rank: map<Id, nat>)
    returns (next: map<Id, nat>)
    requires queue != [] && Counts(g, indegree, done) && QueueExact(g, indegree, done, queue) && RankedBy(g, done, rank)
    ensures RankedBy(g, done + {queue[0]}, next) && queue[0] !in done
    ensures |g.Keys - (done + {queue[0]})| < |g.Keys - done|
  {
    var id := queue[0];
    assert queue == [id] + queue[1..];
    ZeroInQueue(g, indegree, done, id, queue[1..]);
    RankNext(g, done, rank, id);
    OneLess(g.Keys, done, id);
    next := rank[id := |done|];
  }

  lemma OneLess(all: set<Id>, done: set<Id>, id: Id)
    requires id in all && id !in done
    ensures |all - (done + {id})| < |all - done|
  {
    assert all - (done + {id}) == (all - done) - {id};
  }

  lemma ZeroInQueue(g: Plan, indegree: map<Id, int>, done: set<Id>, id: Id, queue: seq<Id>)
    requires Counts(g, indegree, done) && QueueExact(g, indegree, done, [id] + queue)
    ensures id in g && id !in done && Open(g[id], done) == {}
    ensures QueueExact(g, indegree, done + {id}, queue)
  {
    PopQueue(g, indegree, done, id, queue);
    assert ([id] + queue)[0] == id;
    assert indegree[id] == 0;
  }

  lemma QueueDrained(g: Plan, indegree: map<Id, int>, done: set<Id>, rank: map<Id, nat>)
    requires Closed(g) && Counts(g, indegree, done) && QueueExact(g, indegree, done, []) && RankedBy(g, done, rank)
    ensures |done| == |g| <==> Acyclic(g)
  {
    if |done| == |g| {
      SubsetFull(done, g.Keys);
      RankedIsAcyclic(g, rank);
    } else {
      assert done != g.Keys;
      forall x | x in g && x !in done ensures Open(g[x], done) != {} { assert indegree[x] != 0; }
      NoZeroMeansCycle(g, done);
    }
  }

  /** `ValidateGraph` accepts exactly the well-formed documents without a dependency cycle. */
  method ValidateGraph(doc: Document) returns (r: Result<(), GraphError>)
    ensures r.Ok? <==> WellFormed(doc.nodes) && Acyclic(NodeMap(doc.nodes))
    ensures r == Err(Cycle) <==> WellFormed(doc.nodes) && !Acyclic(NodeMap(doc.nodes))
  {
    var built := BuildGraph(doc);
    if built.Err? {
      return Err(built.error);
    }
    var processed := ProcessQueue(built.value);
    if processed != |built.value.nodes| {
      return Err(Cycle);
    }
    return Ok(());
  }

  lemma SubsetFull(a: set<Id>, b: set<Id>)
    requires a <= b && |a| == |b|
    ensures a == b
  {
    assert |b - a| == |b| - |a|;
    assert b == a + (b - a);
  }

  // ---------------------------------------------------------------- TopologicalLevels

  function IdsOf(level: seq<Node>): set<Id> {
    set i | 0 <= i < |level| :: level[i].id
  }

  /** The identities of the first `k` levels. */
  function Before(levels: seq<seq<Node>>, k: nat): set<Id>
    requires k <= |levels|
  {
    if k == 0 then {} else Before(levels, k - 1) + IdsOf(levels[k - 1])
  }

  ghost predicate LevelOk(g: Plan, level: seq<Node>, before: set<Id>) {
    && UniqueIds(level)
    && IdsOf(level) !! before
    && forall i :: 0 <= i < |level| ==>
      level[i].id in g && g[level[i].id] == level[i] && Open(level[i], before) == {}
  }

  /** The levels partition the plan and every dependency lies in a strictly earlier level. */
  ghost predicate Levelling(g: Plan, levels: seq<seq<Node>>) {
    && Before(levels, |levels|) == g.Keys
    && forall k :: 0 <= k < |levels| ==> LevelOkAt(g, levels, k)
  }

  ghost predicate LevelOkAt(g: Plan, levels: seq<seq<Node>>, k: nat)
    requires k < |levels|
  {
    LevelOk(g, levels[k], Before(levels, k))
  }

  /** A node sits no later than it must: it depends on something in the level just before. */
  ghost predicate Tight(levels: seq<seq<Node>>) {
    forall k :: 0 < k < |levels| ==> TightAt(levels, k)
  }

  ghost predicate TightAt(levels: seq<seq<Node>>, k: nat)
    requires 0 < k < |levels|
  {
    forall i :: 0 <= i < |levels[k]| ==> WaitsOnLevel(levels[k][i], levels[k - 1])
  }

  ghost predicate WaitsOnLevel(node: Node, level: seq<Node>) {
    exists d :: d in node.dependsOn && d in IdsOf(level)
  }

  ghost predicate LevelsSorted(levels: seq<seq<Node>>) {
    forall k :: 0 <= k < |levels| ==> LevelSorted(levels[k])
  }

  lemma {:induction false} BeforePrefix(a: seq<seq<Node>>, b: seq<seq<Node>>, k: nat)
    requires k <= |a| <= |b| && a == b[..|a|]
    ensures Before(a, k) == Before(b, k)
  {
    if k > 0 {
      BeforePrefix(a, b, k - 1);
      assert a[k - 1] == b[k - 1];
    }
  }

  lemma {:induction false} BeforeMonotone(levels: seq<seq<Node>>, j: nat, k: nat)
    requires j <= k <= |levels|
    ensures Before(levels, j) <= Before(levels, k)
    ensures j < k ==> IdsOf(levels[j]) <= Before(levels, k)
  {
    if j < k { BeforeMonotone(levels, j, k - 1); }
  }

  lemma {:induction false} BeforeMember(levels: seq<seq<Node>>, k: nat, id: Id) returns (j: nat)
    requires k <= |levels| && id in Before(levels, k)
    ensures j < k && id in IdsOf(levels[j])
  {
    if id in IdsOf(levels[k - 1]) { j := k - 1; } else { j := BeforeMember(levels, k - 1, id); }
  }

  method LevelNodes(g: Plan, ids: seq<Id>) returns (level: seq<Node>)
    requires Closed(g) && NoRepeats(ids) && forall x :: x in ids ==> x in g
    ensures |level| == |ids| && forall i :: 0 <= i < |ids| ==> level[i] == g[ids[i]]
    ensures UniqueIds(level) && IdsOf(level) == SetOf(ids)
  {
    level := [];
    for i := 0 to |ids|
      invariant |level| == i && forall j :: 0 <= j < i ==> level[j] == g[ids[j]]
    {
      level := level + [g[ids[i]]];
    }
    forall x | x in ids ensures x in IdsOf(level) {
      var i :| 0 <= i < |ids| && ids[i] == x;
      assert level[i].id == x;
    }
  }

  /** Decrements the dependents of one finished node. */
  method Release(g: Plan, indegree: map<Id, int>, list: seq<Id>, id: Id, ghost done: set<Id>)
    returns (indegree': map<Id, int>)
    requires id in g && id !in done && ListsDependents(g, id, list)
    requires Counts(g, indegree, done)
    requires forall x :: x in list ==> x in indegree
    ensures indegree'.Keys == indegree.Keys
    ensures Counts(g, indegree', done + {id})
  {
    indegree' := indegree;
    for j := 0 to |list|
      invariant indegree'.Keys == indegree.Keys
      invariant Releasing(g, indegree', done, id, list[..j])
    {
      var x := list[j];
      assert DependsOn(g, x, id);
      OpenStep(g[x], done, id);
      assert x !in list[..j];
      assert list[..j + 1] == list[..j] + [x];
      indegree' := indegree'[x := indegree'[x] - 1];
    }
    assert list[..|list|] == list;
    ReleaseComplete(g, indegree', done, id, list);
  }

  /** Decrements the dependents of a whole level after its entries were deleted. */
  method ReleaseLevel(data: GraphData, indegree: map<Id, int>, ids: seq<Id>, ghost done: set<Id>)
    returns (indegree': map<Id, int>)
    requires Describes(data) && NoRepeats(ids)
    requires indegree.Keys == data.nodes.Keys - done - SetOf(ids)
    requires Counts(data.nodes, indegree, done)
    requires SetOf(ids) <= data.nodes.Keys - done
    requires forall x :: x in data.nodes && x !in indegree ==> Open(data.nodes[x], done) == {}
    ensures indegree'.Keys == indegree.Keys
    ensures Counts(data.nodes, indegree', done + SetOf(ids))
  {
    indegree' := indegree;
    assert done + SetOf(ids[..0]) == done;
    for i := 0 to |ids|
      invariant indegree'.Keys == indegree.Keys
      invariant Counts(data.nodes, indegree', done + SetOf(ids[..i]))
    {
      var id := ids[i];
      assert id in SetOf(ids);
      var list := DependentsOf(data.dependents, id);
      assert ListsDependents(data.nodes, id, list);
      DependentsRemain(data.nodes, done, indegree.Keys, id, list);
      SetOfAppend(ids, i);
      Grows(done, ids, i);
      indegree' := Release(data.nodes, indegree', list, id, done + SetOf(ids[..i]));
    }
    assert ids[..|ids|] == ids;
  }

  lemma Grows(done: set<Id>, ids: seq<Id>, i: nat)
    requires NoRepeats(ids) && i < |ids| && SetOf(ids[..i + 1]) == SetOf(ids[..i]) + {ids[i]}
    ensures done + SetOf(ids[..i + 1]) == done + SetOf(ids[..i]) + {ids[i]} && ids[i] !in SetOf(ids[..i])
  {
  }

  lemma DependentsRemain(g: Plan, done: set<Id>, remaining: set<Id>, id: Id, list: seq<Id>)
    requires ListsDependents(g, id, list) && id !in done
    requires forall x :: x in g && x !in remaining ==> Open(g[x], done) == {}
    ensures forall x :: x in list ==> x in remaining
  {
    forall x | x in list ensures x in remaining {
      assert DependsOn(g, x, id);
      assert id in Open(g[x], done);
    }
  }

  /** The loop invariant of `TopologicalLevels`: the levels built so far ... */
  ghost predicate Shape(g: Plan, levels: seq<seq<Node>>) {
    && Before(levels, |levels|) <= g.Keys
    && (forall k :: 0 <= k < |levels| ==> LevelOkAt(g, levels, k))
    && Tight(levels) && LevelsSorted(levels)
  }

  /** ... and the indegree entries that remain. */
  ghost predicate Frontier(g: Plan, levels: seq<seq<Node>>, indegree: map<Id, int>) {
    && indegree.Keys == g.Keys - Before(levels, |levels|)
    && Counts(g, indegree, Before(levels, |levels|))
    && (|levels| > 0 ==> forall x :: x in indegree ==> Open(g[x], Before(levels, |levels| - 1)) != {})
  }

  ghost predicate LevelsSoFar(g: Plan, levels: seq<seq<Node>>, indegree: map<Id, int>) {
    Shape(g, levels) && Frontier(g, levels, indegree)
  }

  lemma NoLevelsYet(data: GraphData)
    requires Describes(data)
    ensures LevelsSoFar(data.nodes, [], data.indegree) && |data.indegree| == |data.nodes|
  {
    CountsAtStart(data);
    assert |data.indegree.Keys| == |data.nodes.Keys|;
  }

  lemma AppendKeepsOk(g: Plan, levels: seq<seq<Node>>, level: seq<Node>)
    requires forall k :: 0 <= k < |levels| ==> LevelOkAt(g, levels, k)
    requires LevelOk(g, level, Before(levels, |levels|))
    ensures Before(levels + [level], |levels|) == Before(levels, |levels|)
    ensures forall k :: 0 <= k <= |levels| ==> LevelOkAt(g, levels + [level], k)
  {
    var next := levels + [level];
    assert next[..|levels|] == levels;
    forall k | 0 <= k < |next| ensures LevelOkAt(g, next, k) {
      BeforePrefix(levels, next, k);
      if k < |levels| { assert next[k] == levels[k] && LevelOkAt(g, levels, k); }
    }
    BeforePrefix(levels, next, |levels|);
  }

  lemma WaitsOnPrevious(g: Plan, node: Node, levels: seq<seq<Node>>)
    requires |levels| > 0 && Open(node, Before(levels, |levels|)) == {}
    requires Open(node, Before(levels, |levels| - 1)) != {}
    ensures WaitsOnLevel(node, levels[|levels| - 1])
  {
    var d :| d in Open(node, Before(levels, |levels| - 1));
    assert d !in Open(node, Before(levels, |levels|));
  }

  lemma AppendKeepsTight(g: Plan, levels: seq<seq<Node>>, level: seq<Node>)
    requires Tight(levels) && LevelOk(g, level, Before(levels, |levels|))
    requires |levels| > 0 ==> forall i :: 0 <= i < |level| ==> Open(level[i], Before(levels, |levels| - 1)) != {}
    ensures Tight(levels + [level])
  {
    var next := levels + [level];
    forall k | 0 < k < |next| ensures TightAt(next, k) {
      if k < |levels| {
        assert TightAt(levels, k);
      } else {
        forall i | 0 <= i < |level| ensures WaitsOnLevel(level[i], levels[k - 1]) {
          WaitsOnPrevious(g, level[i], levels);
        }
      }
    }
  }

  ghost predicate LevelSorted(level: seq<Node>) {
    forall i, j :: 0 <= i < j < |level| ==> Text.Leq(level[i].id, level[j].id)
  }

  lemma AppendShape(g: Plan, levels: seq<seq<Node>>, level: seq<Node>)
    requires Shape(g, levels)
    requires LevelOk(g, level, Before(levels, |levels|)) && LevelSorted(level)
    requires |levels| > 0 ==> forall i :: 0 <= i < |level| ==> Open(level[i], Before(levels, |levels| - 1)) != {}
    ensures Shape(g, levels + [level])
  {
    AppendKeepsOk(g, levels, level);
    AppendKeepsTight(g, levels, level);
  }

  lemma AppendFrontier(g: Plan, levels: seq<seq<Node>>, indegree: map<Id, int>, level: seq<Node>, after: map<Id, int>)
    requires Frontier(g, levels, indegree)
    requires forall x :: x in IdsOf(level) <==> x in indegree && indegree[x] == 0
    requires after.Keys == indegree.Keys - IdsOf(level)
    requires Counts(g, after, Before(levels, |levels|) + IdsOf(level))
    ensures Frontier(g, levels + [level], after)
  {
    var next := levels + [level];
    assert next[..|levels|] == levels;
    BeforePrefix(levels, next, |levels|);
    forall x | x in after ensures Open(g[x], Before(levels, |levels|)) != {} {
      assert indegree[x] != 0;
    }
  }

  method GatherLevel(g: Plan, levels: seq<seq<Node>>, indegree: map<Id, int>, ids: seq<Id>)
    returns (level: seq<Node>)
    requires Closed(g) && Shape(g, levels) && Frontier(g, levels, indegree)
    requires Text.Sorted(ids) && NoRepeats(ids)
    requires forall x :: x in ids <==> x in indegree && indegree[x] == 0
    ensures Shape(g, levels + [level]) && IdsOf(level) == SetOf(ids)
    ensures forall x :: x in g && x !in indegree.Keys - SetOf(ids) ==> Open(g[x], Before(levels, |levels|)) == {}
  {
    level := LevelNodes(g, ids);
    ZeroLevelOk(g, levels, indegree, ids, level);
    AppendShape(g, levels, level);
  }

  /** Deletes the entries of a gathered level and releases its dependents. */
  method RetireLevel(data: GraphData, ghost levels: seq<seq<Node>>, indegree: map<Id, int>, ids: seq<Id>, ghost level: seq<Node>)
    returns (next: map<Id, int>)
    requires Describes(data) && Frontier(data.nodes, levels, indegree) && NoRepeats(ids)
    requires forall x :: x in ids <==> x in indegree && indegree[x] == 0
    requires IdsOf(level) == SetOf(ids)
    requires forall x :: x in data.nodes && x !in indegree.Keys - SetOf(ids)
               ==> Open(data.nodes[x], Before(levels, |levels|)) == {}
    ensures Frontier(data.nodes, levels + [level], next)
    ensures |next| == |indegree| - |ids|
  {
    ghost var done := Before(levels, |levels|);
    var trimmed := indegree - (set x | x in ids);
    assert (set x | x in ids) == SetOf(ids);
    next := ReleaseLevel(data, trimmed, ids, done);
    AppendFrontier(data.nodes, levels, indegree, level, next);
    DistinctCount(ids);
    TrimmedSize(indegree, next, SetOf(ids));
  }

  method NextLevel(data: GraphData, levels: seq<seq<Node>>, indegree: map<Id, int>, ids: seq<Id>)
    returns (level: seq<Node>, next: map<Id, int>)
    requires Describes(data) && LevelsSoFar(data.nodes, levels, indegree)
    requires Text.Sorted(ids) && NoRepeats(ids)
    requires forall x :: x in ids <==> x in indegree && indegree[x] == 0
    ensures LevelsSoFar(data.nodes, levels + [level], next)
    ensures |next| == |indegree| - |ids|
  {
    level := GatherLevel(data.nodes, levels, indegree, ids);
    next := RetireLevel(data, levels, indegree, ids, level);
  }

  lemma TrimmedSize(a: map<Id, int>, b: map<Id, int>, removed: set<Id>)
    requires removed <= a.Keys && b.Keys == a.Keys - removed
    ensures |b| == |a| - |removed|
  {
    assert |b.Keys| == |a.Keys| - |removed|;
  }

  method LevelsLoop(data: GraphData) returns (r: Result<seq<seq<Node>>, GraphError>)
    requires Describes(data)
    ensures r.Ok? <==> Acyclic(data.nodes)
    ensures r.Ok? ==> Levelling(data.nodes, r.value) && Tight(r.value) && LevelsSorted(r.value)
    ensures r.Err? ==> r.error == Cycle
  {
    NoLevelsYet(data);
    var indegree := data.indegree;
    var levels: seq<seq<Node>> := [];
    var remaining := |data.nodes|;
    while remaining > 0
      invariant LevelsSoFar(data.nodes, levels, indegree)
      invariant remaining == |indegree|
      decreases remaining
    {
      var ids := ZeroDegree(indegree);
      if |ids| == 0 {
        FrontierStuck(data.nodes, levels, indegree);
        return Err(Cycle);
      }
      var level, next := NextLevel(data, levels, indegree, ids);
      indegree := next;
      levels := levels + [level];
      remaining := remaining - |ids|;
    }
    FrontierEmpty(data.nodes, levels, indegree);
    return Ok(levels);
  }

  lemma FrontierEmpty(g: Plan, levels: seq<seq<Node>>, indegree: map<Id, int>)
    requires LevelsSoFar(g, levels, indegree) && |indegree| == 0
    ensures Levelling(g, levels) && Acyclic(g)
  {
    assert indegree.Keys == {};
    LevellingAcyclic(g, levels);
  }

  lemma FrontierStuck(g: Plan, levels: seq<seq<Node>>, indegree: map<Id, int>)
    requires Closed(g) && LevelsSoFar(g, levels, indegree) && |indegree| > 0
    requires forall x :: x in indegree ==> indegree[x] != 0
    ensures !Acyclic(g)
  {
    var done := Before(levels, |levels|);
    assert indegree.Keys != {};
    forall x | x in g && x !in done ensures Open(g[x], done) != {} { assert x in indegree; }
    NoZeroMeansCycle(g, done);
  }

  lemma ZeroLevelOk(g: Plan, levels: seq<seq<Node>>, indegree: map<Id, int>, ids: seq<Id>, level: seq<Node>)
    requires Closed(g) && Shape(g, levels) && Frontier(g, levels, indegree)
    requires Text.Sorted(ids)
    requires forall x :: x in ids <==> x in indegree && indegree[x] == 0
    requires |level| == |ids| && forall i :: 0 <= i < |ids| ==> level[i] == g[ids[i]]
    requires UniqueIds(level) && IdsOf(level) == SetOf(ids)
    ensures LevelOk(g, level, Before(levels, |levels|)) && LevelSorted(level)
    ensures |levels| > 0 ==> forall i :: 0 <= i < |level| ==> Open(level[i], Before(levels, |levels| - 1)) != {}
    ensures forall x :: x in g && x !in indegree.Keys - SetOf(ids) ==> Open(g[x], Before(levels, |levels|)) == {}
  {
    var done := Before(levels, |levels|);
    forall i | 0 <= i < |level| ensures level[i].id in g && Open(level[i], done) == {} { assert ids[i] in ids; }
    ClosedSoFar(g, levels, indegree, ids);
  }

  lemma ClosedSoFar(g: Plan, levels: seq<seq<Node>>, indegree: map<Id, int>, ids: seq<Id>)
    requires Closed(g) && Shape(g, levels) && Frontier(g, levels, indegree)
    requires forall x :: x in ids <==> x in indegree && indegree[x] == 0
    ensures forall x :: x in g && x !in indegree.Keys - SetOf(ids) ==> Open(g[x], Before(levels, |levels|)) == {}
  {
    var done := Before(levels, |levels|);
    forall x | x in g && x !in indegree.Keys - SetOf(ids) ensures Open(g[x], done) == {} {
      if x in done { ProcessedClosed(g, levels, x); }
    }
  }

  lemma ProcessedClosed(g: Plan, levels: seq<seq<Node>>, x: Id)
    requires forall k :: 0 <= k < |levels| ==> LevelOkAt(g, levels, k)
    requires x in Before(levels, |levels|)
    ensures x in g && Open(g[x], Before(levels, |levels|)) == {}
  {
    var k := BeforeMember(levels, |levels|, x);
    var i :| 0 <= i < |levels[k]| && levels[k][i].id == x;
    BeforeMonotone(levels, k, |levels|);
    assert LevelOkAt(g, levels, k);
    forall d | d in g[x].dependsOn ensures d in Before(levels, |levels|) {
      assert d !in Open(levels[k][i], Before(levels, k));
    }
  }

  /** `TopologicalLevels` succeeds exactly when `ValidateGraph` does. */
  method TopologicalLevels(doc: Document) returns (r: Result<seq<seq<Node>>, GraphError>)
    ensures r.Ok? <==> WellFormed(doc.nodes) && Acyclic(NodeMap(doc.nodes))
    ensures r == Err(Cycle) <==> WellFormed(doc.nodes) && !Acyclic(NodeMap(doc.nodes))
    ensures r.Ok? ==> Levelling(NodeMap(doc.nodes), r.value) && Tight(r.value) && LevelsSorted(r.value)
  {
    var built := BuildGraph(doc);
    if built.Err? {
      return Err(built.error);
    }
    r := LevelsLoop(built.value);
  }

  // ---------------------------------------------------------------- what the levels mean

  lemma DependencyEarlier(g: Plan, levels: seq<seq<Node>>, k: nat, a: Id, b: Id) returns (j: nat)
    requires Levelling(g, levels) && k < |levels| && a in IdsOf(levels[k]) && DependsOn(g, a, b)
    ensures j < k && b in IdsOf(levels[j])
  {
    var i :| 0 <= i < |levels[k]| && levels[k][i].id == a;
    assert LevelOkAt(g, levels, k);
    assert b !in Open(levels[k][i], Before(levels, k));
    j := BeforeMember(levels, k, b);
  }

  /** Every chain starting in level `k` has at most `k + 1` nodes. */
  lemma {:induction false} ChainFits(g: Plan, levels: seq<seq<Node>>, k: nat, p: seq<Id>)
    requires Levelling(g, levels) && k < |levels| && Chain(g, p) && p[0] in IdsOf(levels[k])
    ensures |p| <= k + 1
    decreases |p|
  {
    if |p| > 1 {
      assert DependsOn(g, p[0], p[1]);
      var j := DependencyEarlier(g, levels, k, p[0], p[1]);
      ChainTail(g, p);
      ChainFits(g, levels, j, p[1..]);
    }
  }

  /** The last node of a chain lies in a level strictly below that of the first. */
  lemma {:induction false} ChainDescends(g: Plan, levels: seq<seq<Node>>, k: nat, p: seq<Id>) returns (j: nat)
    requires Levelling(g, levels) && k < |levels| && Chain(g, p) && |p| > 1 && p[0] in IdsOf(levels[k])
    ensures j < k && p[|p| - 1] in IdsOf(levels[j])
    decreases |p|
  {
    assert DependsOn(g, p[0], p[1]);
    j := DependencyEarlier(g, levels, k, p[0], p[1]);
    if |p| > 2 {
      ChainTail(g, p);
      j := ChainDescends(g, levels, j, p[1..]);
    }
  }

  lemma LevelsDisjoint(g: Plan, levels: seq<seq<Node>>, j: nat, k: nat)
    requires Levelling(g, levels) && j < k < |levels|
    ensures IdsOf(levels[j]) !! IdsOf(levels[k])
  {
    BeforeMonotone(levels, j, k);
    assert LevelOkAt(g, levels, k);
  }

  lemma LevellingAcyclic(g: Plan, levels: seq<seq<Node>>)
    requires Levelling(g, levels)
    ensures Acyclic(g)
  {
    forall p | Chain(g, p) && |p| > 1 ensures p[0] != p[|p| - 1] {
      var k := BeforeMember(levels, |levels|, p[0]);
      var j := ChainDescends(g, levels, k, p);
      LevelsDisjoint(g, levels, j, k);
    }
  }

  lemma {:induction false} ChainReaches(g: Plan, levels: seq<seq<Node>>, k: nat, id: Id) returns (p: seq<Id>)
    requires Levelling(g, levels) && Tight(levels) && k < |levels| && id in IdsOf(levels[k])
    ensures Chain(g, p) && p[0] == id && |p| == k + 1
  {
    var i :| 0 <= i < |levels[k]| && levels[k][i].id == id;
    assert LevelOkAt(g, levels, k);
    if k == 0 {
      p := [id];
    } else {
      assert TightAt(levels, k);
      var d :| d in levels[k][i].dependsOn && d in IdsOf(levels[k - 1]);
      var q := ChainReaches(g, levels, k - 1, d);
      assert DependsOn(g, id, q[0]);
      ChainCons(g, id, q);
      p := [id] + q;
    }
  }

  /** A node's level index is the length of its longest dependency chain. */
  lemma LevelIsLongestChain(g: Plan, levels: seq<seq<Node>>, k: nat, id: Id)
    requires Levelling(g, levels) && Tight(levels) && k < |levels| && id in IdsOf(levels[k])
    ensures exists p :: Chain(g, p) && p[0] == id && |p| == k + 1
    ensures forall p :: Chain(g, p) && p[0] == id ==> |p| <= k + 1
  {
    var p := ChainReaches(g, levels, k, id);
    forall q | Chain(g, q) && q[0] == id ensures |q| <= k + 1 { ChainFits(g, levels, k, q); }
  }

  /** Transitive dependencies lie in strictly earlier levels. */
  lemma AncestorEarlier(g: Plan, levels: seq<seq<Node>>, k: nat, a: Id, b: Id)
    requires Levelling(g, levels) && k < |levels| && a in IdsOf(levels[k]) && Ancestor(g, a, b)
    ensures b in Before(levels, k) && b !in IdsOf(levels[k])
  {
    var p :| Chain(g, p) && |p| > 1 && p[0] == a && p[|p| - 1] == b;
    var j := ChainDescends(g, levels, k, p);
    BeforeMonotone(levels, j, k);
    LevelsDisjoint(g, levels, j, k);
  }

  // ---------------------------------------------------------------- reverse order

  /** Every node comes before each of its transitive dependencies, and nothing is repeated. */
  ghost predicate DependentsFirst(g: Plan, order: seq<Node>) {
    && UniqueIds(order)
    && IdsOf(order) == g.Keys
    && (forall i :: 0 <= i < |order| ==> order[i].id in g && g[order[i].id] == order[i])
    && forall i, j :: 0 <= i < |order| && 0 <= j < |order| && Ancestor(g, order[i].id, order[j].id) ==> i < j
  }

  /** What the outer loop has emitted once levels `k` and above are done. */
  ghost predicate ReversedFrom(g: Plan, levels: seq<seq<Node>>, k: nat, out: seq<Node>)
    requires k <= |levels|
  {
    && UniqueIds(out)
    && IdsOf(out) == g.Keys - Before(levels, k)
    && (forall i :: 0 <= i < |out| ==> out[i].id in g && g[out[i].id] == out[i])
    && forall i, j :: 0 <= i < |out| && 0 <= j < |out| && Ancestor(g, out[i].id, out[j].id) ==> i < j
  }

  method ReverseLevel(level: seq<Node>) returns (r: seq<Node>)
    ensures |r| == |level| && forall i :: 0 <= i < |level| ==> r[i] == level[|level| - 1 - i]
  {
    r := [];
    for index := |level| downto 0
      invariant |r| == |level| - index
      invariant forall i :: 0 <= i < |r| ==> r[i] == level[|level| - 1 - i]
    {
      r := r + [level[index]];
    }
  }

  lemma EmitLevel(g: Plan, levels: seq<seq<Node>>, k: nat, out: seq<Node>, rev: seq<Node>)
    requires Levelling(g, levels) && k < |levels| && ReversedFrom(g, levels, k + 1, out)
    requires |rev| == |levels[k]| && forall i :: 0 <= i < |rev| ==> rev[i] == levels[k][|rev| - 1 - i]
    ensures ReversedFrom(g, levels, k, out + rev)
  {
    var level, all := levels[k], out + rev;
    assert LevelOkAt(g, levels, k);
    BeforeMonotone(levels, k + 1, |levels|);
    assert IdsOf(level) <= g.Keys;
    forall x ensures x in IdsOf(rev) <==> x in IdsOf(level) {
      if x in IdsOf(level) { var i :| 0 <= i < |level| && level[i].id == x; assert rev[|rev| - 1 - i].id == x; }
    }
    forall x ensures x in IdsOf(all) <==> x in IdsOf(out) || x in IdsOf(rev) {
      if x in IdsOf(out) { var i :| 0 <= i < |out| && out[i].id == x; assert all[i].id == x; }
      if x in IdsOf(rev) { var i :| 0 <= i < |rev| && rev[i].id == x; assert all[|out| + i].id == x; }
    }
    forall i, j | 0 <= i < j < |all| ensures all[i].id != all[j].id {
      if i < |out| <= j { assert all[i].id in IdsOf(out) && rev[j - |out|].id in IdsOf(rev); }
    }
    forall i, j | 0 <= i < |all| && 0 <= j < |all| && Ancestor(g, all[i].id, all[j].id) ensures i < j {
      if i >= |out| {
        assert rev[i - |out|].id in IdsOf(rev);
        assert all[j].id in IdsOf(all);
        assert j < |out| ==> out[j].id in IdsOf(out);
        assert j >= |out| ==> rev[j - |out|].id in IdsOf(rev);
        AncestorEarlier(g, levels, k, all[i].id, all[j].id);
      }
    }
  }

  /** `ReverseTopologicalNodes`: the order in which an aborted run compensates. */
  method ReverseTopologicalNodes(doc: Document) returns (r: Result<seq<Node>, GraphError>)
    ensures r.Ok? <==> WellFormed(doc.nodes) && Acyclic(NodeMap(doc.nodes))
    ensures r.Ok? ==> DependentsFirst(NodeMap(doc.nodes), r.value)
  {
    var leveled := TopologicalLevels(doc);
    if leveled.Err? {
      return Err(leveled.error);
    }
    var levels := leveled.value;
    ghost var g := NodeMap(doc.nodes);
    var out: seq<Node> := [];
    for level := |levels| downto 0
      invariant ReversedFrom(g, levels, level, out)
    {
      var rev := ReverseLevel(levels[level]);
      EmitLevel(g, levels, level, out, rev);
      out := out + rev;
    }
    return Ok(out);
  }
}
