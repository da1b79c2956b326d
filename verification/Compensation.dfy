/** Compensating an aborted run: dependents first, every eligible node once, failures tolerated. */
module Compensation {
  import opened Choice
  import opened PlanTypes
  import opened RunSpec
  import opened Runner
  import opened Graph

  /** What an abort compensates: nodes that were applied and declare how to undo it. */
  predicate Eligible(g: Plan, n: Statuses, x: Id) {
    x in g && StatusOf(n, x) == Applied && g[x].compensate.Some?
  }

  predicate Undoes(e: Event) {
    e.Call? && e.kind == CompensateCall
  }

  predicate Reverts(e: Event) {
    Undoes(e) || e.Unresolved?
  }

  /** An event that compensating the eligible nodes of the set may add. */
  ghost predicate UndoEvent(g: Plan, n0: Statuses, handled: set<Id>, e: Event) {
    e.Emit? || (Reverts(e) && e.node in handled && Eligible(g, n0, e.node))
  }

  /** How one node leaves compensation; a node that is not eligible is not touched. */
  ghost predicate Handled(g: Plan, n0: Statuses, n: Statuses, d: Events, x: Id) {
    var q := StatusOf(n, x);
    if Eligible(g, n0, x) then UndoStatus(x, q, d) else q == StatusOf(n0, x)
  }

  /** Compensated exactly after a successful call, left Applied exactly when its arguments did not resolve. */
  ghost predicate UndoStatus(x: Id, q: Status, d: Events) {
    && q in {Compensated, CompensationFailed, Applied}
    && (q == Compensated <==> Call(x, CompensateCall, true) in d)
    && (q == Applied <==> Unresolved(x) in d)
  }

  ghost predicate CompensationBook(g: Plan, n0: Statuses, n: Statuses, d: Events, handled: set<Id>) {
    var book :=
      && (forall x :: x in handled ==> Handled(g, n0, n, d, x))
      && (forall x :: x !in handled ==> StatusOf(n, x) == StatusOf(n0, x))
      && (forall e :: e in d ==> UndoEvent(g, n0, handled, e))
      && (forall x :: Calls(d, x, CompensateCall) <= 1);
    book
  }

  /** In the log from a position on, a dependent is undone before anything it depends on. */
  ghost predicate UndoneInOrder(g: Plan, log: seq<Event>, from: nat) {
    forall i, j :: from <= i < |log| && from <= j < |log| ==>
      (Undoes(log[i]) && Undoes(log[j]) && Ancestor(g, log[i].node, log[j].node) ==> i < j)
  }

  /** `compensate` for one node. */
  method Compensate(node: Node, state: RunState, sink: bool) returns (ok: bool, ghost d: Events)
    requires node.compensate.Some? && StatusOf(state.nodes, node.id) == Applied
    modifies state`log, state`nodes
    ensures Grew(old(state.log), state.log, d)
    ensures SameElsewhere(old(state.nodes), state.nodes, node.id)
    ensures CompensateStep(node.id, StatusOf(state.nodes, node.id), d)
  {
    var resolved := Decide();
    if !resolved {
      state.Record(Unresolved(node.id));
      return false, multiset{Unresolved(node.id)};
    }
    ok, d := UndoNode(node, state, sink);
  }

  method UndoNode(node: Node, state: RunState, sink: bool) returns (ok: bool, ghost d: Events)
    modifies state`log, state`nodes
    ensures Grew(old(state.log), state.log, d)
    ensures SameElsewhere(old(state.nodes), state.nodes, node.id)
    ensures CompensateStep(node.id, StatusOf(state.nodes, node.id), d)
  {
    var done, undo := DispatchUndo(node, state);
    state.SetStatus(node.id, if done then Compensated else CompensationFailed);
    var written, emits := state.Emit(sink);
    UndoStep(node.id, done, undo, emits);
    return done && written, undo + emits;
  }

  lemma UndoStep(id: Id, ok: bool, undo: Events, emits: Events)
    requires undo == multiset{} || undo == multiset{Call(id, CompensateCall, ok)}
    requires ok ==> undo == multiset{Call(id, CompensateCall, true)}
    requires forall e :: e in emits ==> e.Emit?
    ensures CompensateStep(id, if ok then Compensated else CompensationFailed, undo + emits)
  {
  }

  method DispatchUndo(node: Node, state: RunState) returns (ok: bool, ghost d: Events)
    modifies state`log
    ensures Grew(old(state.log), state.log, d)
    ensures d == multiset{} || d == multiset{Call(node.id, CompensateCall, ok)}
    ensures ok ==> d == multiset{Call(node.id, CompensateCall, true)}
  {
    var schemaOk := Decide();
    if !schemaOk {
      return false, multiset{};
    }
    ok := Decide();
    state.Record(Call(node.id, CompensateCall, ok));
    d := multiset{Call(node.id, CompensateCall, ok)};
  }

  ghost predicate CompensateStep(id: Id, q: Status, d: Events) {
    var step := (forall e :: e in d ==> e.Emit? || (Reverts(e) && e.node == id))
      && Calls(d, id, CompensateCall) <= 1
      && UndoStatus(id, q, d);
    step
  }

  lemma StepIntoBook(g: Plan, n0: Statuses, n: Statuses, d: Events, handled: set<Id>, x: Id, q: Status, step: Events)
    requires CompensationBook(g, n0, n, d, handled) && x !in handled && Eligible(g, n0, x)
    requires CompensateStep(x, q, step)
    ensures CompensationBook(g, n0, n[x := q], d + step, handled + {x})
  {
    var n', d' := n[x := q], d + step;
    forall e | e in d' ensures UndoEvent(g, n0, handled + {x}, e) {
      if e in d { assert UndoEvent(g, n0, handled, e); }
    }
    forall y | y in handled ensures Handled(g, n0, n', d', y) {
      assert Handled(g, n0, n, d, y);
      OthersEvents(x, q, step, y);
    }
    NothingBefore(g, n0, d, handled, x);
    forall y ensures Calls(d', y, CompensateCall) <= 1 {
      assert Calls(d, y, CompensateCall) <= 1;
      if y == x {
        forall ok ensures Call(x, CompensateCall, ok) !in d { assert !UndoEvent(g, n0, handled, Call(x, CompensateCall, ok)); }
      }
    }
  }

  lemma OthersEvents(x: Id, q: Status, step: Events, y: Id)
    requires CompensateStep(x, q, step) && y != x
    ensures Call(y, CompensateCall, true) !in step && Unresolved(y) !in step
  {
  }

  lemma NothingBefore(g: Plan, n0: Statuses, d: Events, handled: set<Id>, x: Id)
    requires (forall e :: e in d ==> UndoEvent(g, n0, handled, e)) && x !in handled
    ensures Call(x, CompensateCall, true) !in d && Unresolved(x) !in d
  {
    assert !UndoEvent(g, n0, handled, Call(x, CompensateCall, true)) && !UndoEvent(g, n0, handled, Unresolved(x));
  }

  lemma SkipIntoBook(g: Plan, n0: Statuses, n: Statuses, d: Events, handled: set<Id>, x: Id)
    requires CompensationBook(g, n0, n, d, handled) && x !in handled && !Eligible(g, n0, x)
    ensures CompensationBook(g, n0, n, d, handled + {x})
  {
    forall e | e in d ensures UndoEvent(g, n0, handled + {x}, e) { assert UndoEvent(g, n0, handled, e); }
  }

  /** The undo of the next node in reverse topological order comes last and in place. */
  lemma OrderNext(g: Plan, order: seq<Node>, k: nat, n0: Statuses, before: seq<Event>, after: seq<Event>, from: nat,
                  d: Events, step: Events, q: Status)
    requires DependentsFirst(g, order) && k < |order|
    requires from <= |before| && Grew(before[..from], before, d) && Grew(before, after, step)
    requires forall e :: e in d ==> UndoEvent(g, n0, IdsOf(order[..k]), e)
    requires CompensateStep(order[k].id, q, step)
    requires UndoneInOrder(g, before, from)
    ensures UndoneInOrder(g, after, from)
  {
    NewPart(before[..from], before, d);
    NewPart(before, after, step);
    forall i, j | from <= i < |after| && from <= j < |after|
      && Undoes(after[i]) && Undoes(after[j]) && Ancestor(g, after[i].node, after[j].node)
      ensures i < j
    {
      if i >= |before| {
        NothingBelow(g, order, k, if j >= |before| then k else IndexOf(order, k, after[j].node));
      }
    }
  }

  ghost function IndexOf(order: seq<Node>, k: nat, x: Id): nat
    requires k <= |order| && x in IdsOf(order[..k])
    ensures IndexOf(order, k, x) < k && order[IndexOf(order, k, x)].id == x
  {
    var m :| 0 <= m < k && order[..k][m].id == x;
    m
  }

  lemma NothingBelow(g: Plan, order: seq<Node>, k: nat, m: nat)
    requires DependentsFirst(g, order) && m <= k < |order|
    ensures !Ancestor(g, order[k].id, order[m].id)
  {
  }

  /** Every eligible node was undone once, dependents first. */
  ghost predicate Undid(g: Plan, s0: Snapshot, s: Snapshot, d: Events) {
    var undid := Grew(s0.log, s.log, d) && CompensationBook(g, s0.nodes, s.nodes, d, g.Keys) && UndoneInOrder(g, s.log, |s0.log|);
    undid
  }

  /**
   `compensateApplied`: exactly the eligible nodes are compensated, each at most once, every
   one before its transitive dependencies, and a failure does not stop the rest.
   */
  method CompensateApplied(doc: Document, state: RunState, sink: bool) returns (ghost d: Events)
    requires WellFormed(doc.nodes) && Acyclic(NodeMap(doc.nodes))
    modifies state`log, state`nodes
    ensures Undid(NodeMap(doc.nodes), old(state.Now()), state.Now(), d)
  {
    var ordered := ReverseTopologicalNodes(doc);
    var order := ordered.value;
    ghost var g := NodeMap(doc.nodes);
    d := multiset{};
    for k := 0 to |order|
      invariant Grew(old(state.log), state.log, d)
      invariant CompensationBook(g, old(state.nodes), state.nodes, d, IdsOf(order[..k]))
      invariant UndoneInOrder(g, state.log, |old(state.log)|)
    {
      assert state.log[..|old(state.log)|] == old(state.log);
      ghost var step := CompensateNext(order, k, state, sink, g, old(state.nodes), d, |old(state.log)|);
      d := d + step;
    }
    assert order[..|order|] == order;
  }

  method CompensateNext(order: seq<Node>, k: nat, state: RunState, sink: bool, ghost g: Plan, ghost n0: Statuses, ghost d: Events, ghost from: nat)
    returns (ghost step: Events)
    requires DependentsFirst(g, order) && k < |order| && from <= |state.log| && Grew(state.log[..from], state.log, d)
    requires CompensationBook(g, n0, state.nodes, d, IdsOf(order[..k])) && UndoneInOrder(g, state.log, from)
    modifies state`log, state`nodes
    ensures Grew(old(state.log), state.log, step)
    ensures CompensationBook(g, n0, state.nodes, d + step, IdsOf(order[..k + 1]))
    ensures UndoneInOrder(g, state.log, from)
  {
    var node := order[k];
    PrefixStep(order, k);
    if StatusOf(state.nodes, node.id) != Applied || node.compensate.None? {
      SkipIntoBook(g, n0, state.nodes, d, IdsOf(order[..k]), node.id);
      step := multiset{};
      assert d + step == d;
      return;
    }
    var ok;
    ok, step := Compensate(node, state, sink);
    StepIntoBook(g, n0, old(state.nodes), d, IdsOf(order[..k]), node.id, StatusOf(state.nodes, node.id), step);
    OrderNext(g, order, k, n0, old(state.log), state.log, from, d, step, StatusOf(state.nodes, node.id));
  }

  lemma PrefixStep(order: seq<Node>, k: nat)
    requires UniqueIds(order) && k < |order|
    ensures order[k].id !in IdsOf(order[..k])
    ensures IdsOf(order[..k + 1]) == IdsOf(order[..k]) + {order[k].id}
  {
    var a, b := order[..k + 1], order[..k];
    forall x | x in IdsOf(b) ensures x in IdsOf(a) {
      var i :| 0 <= i < |b| && b[i].id == x;
      assert a[i].id == x;
    }
    forall x | x in IdsOf(a) ensures x in IdsOf(b) + {order[k].id} {
      var i :| 0 <= i < |a| && a[i].id == x;
      if i < k { assert b[i].id == x; }
    }
    assert a[k].id == order[k].id;
  }
}
