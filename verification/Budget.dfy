/** The attempt budget of an accepted plan bounds what any pass can dispatch. */
module Budget {
  import opened PlanTypes
  import opened RunSpec
  import opened PassSpec

  /** All calls of one kind made on behalf of the listed nodes. */
  function TotalCalls(nodes: seq<Node>, d: Events, kind: CallKind): nat {
    if nodes == [] then 0
    else TotalCalls(nodes[..|nodes| - 1], d, kind) + Calls(d, nodes[|nodes| - 1].id, kind)
  }

  lemma {:induction false} TotalCallsAdd(nodes: seq<Node>, a: Events, b: Events, kind: CallKind)
    ensures TotalCalls(nodes, a + b, kind) == TotalCalls(nodes, a, kind) + TotalCalls(nodes, b, kind)
  {
    if nodes != [] {
      TotalCallsAdd(nodes[..|nodes| - 1], a, b, kind);
    }
  }

  lemma {:induction false} TotalCallsNone(nodes: seq<Node>, d: Events, kind: CallKind)
    requires forall id, ok :: Call(id, kind, ok) !in d
    ensures TotalCalls(nodes, d, kind) == 0
  {
    if nodes != [] {
      TotalCallsNone(nodes[..|nodes| - 1], d, kind);
    }
  }

  /** Attempts times recovery attempts against the square of their weighted sum. */
  lemma ProductBound(f: nat, a: nat, r: nat)
    requires f >= 1
    ensures 4 * (f * (a * r)) <= (f * (a + r)) * (f * (a + r))
  {
    var x, y := f * a, f * r;
    assert f * (a + r) == x + y;
    SquareBound(x, y);
    assert x * y == f * (f * (a * r)) by { Regroup(f, a, r); }
    assert f * (f * (a * r)) >= f * (a * r) by { GrowsBy(f, f * (a * r)); }
  }

  lemma Regroup(f: nat, a: nat, r: nat)
    ensures (f * a) * (f * r) == f * (f * (a * r))
  {
  }

  lemma GrowsBy(f: nat, z: nat)
    requires f >= 1
    ensures f * z >= z
  {
  }

  lemma SquareBound(x: nat, y: nat)
    ensures 4 * (x * y) <= (x + y) * (x + y)
  {
    var z := x - y;
    assert z * z >= 0;
    assert (x + y) * (x + y) == z * z + 4 * (x * y);
  }

  lemma SumOfSquares(x: nat, y: nat)
    ensures x * x + y * y <= (x + y) * (x + y)
  {
    assert (x + y) * (x + y) == x * x + y * y + 2 * (x * y);
  }

  lemma {:induction false} PrefixBudget(doc: Document, nodes: seq<Node>, d: Events)
    requires forall i :: 0 <= i < |nodes| ==> BudgetRule(doc, nodes[i], d)
    ensures TotalCalls(nodes, d, ActionCall) <= TotalWeight(nodes, doc)
    ensures 4 * TotalCalls(nodes, d, RecoverCall) <= TotalWeight(nodes, doc) * TotalWeight(nodes, doc)
  {
    if nodes != [] {
      var init, last := nodes[..|nodes| - 1], nodes[|nodes| - 1];
      PrefixBudget(doc, init, d);
      var f, a, r := Fan(last), Attempts(last, doc), RecoveryAttempts(last);
      assert BudgetRule(doc, last, d);
      assert f * (a + r) == f * a + f * r;
      ProductBound(f, a, r);
      SumOfSquares(TotalWeight(init, doc), Weight(last, doc));
    }
  }

  /** At most 256 action and 16384 recovery dispatches in a pass, whatever the tools answer. */
  lemma PassBudget(doc: Document, d: Events)
    requires Accepted(doc) && Metered(doc, NodeMap(doc.nodes), d, NodeMap(doc.nodes).Keys)
    ensures TotalCalls(doc.nodes, d, ActionCall) <= 256
    ensures TotalCalls(doc.nodes, d, RecoverCall) <= 16384
  {
    var w := TotalWeight(doc.nodes, doc);
    forall i | 0 <= i < |doc.nodes| ensures BudgetRule(doc, doc.nodes[i], d) {
      NodeMapFinds(doc.nodes, i);
    }
    PrefixBudget(doc, doc.nodes, d);
    assert w * w <= 256 * 256 by { MonotoneSquare(w, 256); }
  }

  lemma MonotoneSquare(w: nat, limit: nat)
    requires w <= limit
    ensures w * w <= limit * limit
  {
    SumOfSquares(w, limit - w);
  }
}
