/**
 From one node to a whole pass: how node effects combine, in any order the levels allow,
 into the guarantees of a pass. A pass keeps two books: the events that happened, with
 the set of nodes that were touched, and the statuses, with the set of nodes that were
 settled. In a concurrent level the two move separately.
 */
module PassSpec {
  import opened PlanTypes
  import opened RunSpec
  import opened Graph

  // ---------------------------------------------------------------- what a pass keeps

  /** An event that running some node of the set may add. */
  predicate PassEvent(e: Event, touched: set<Id>) {
    match e
    case Call(n, kind, _) => n in touched && kind != CompensateCall
    case Check(n, _) => n in touched
    case Confirm(n, _) => n in touched
    case FanOut(n, _) => n in touched
    case Selected(n) => n in touched
    case Filtered(n) => n in touched
    case Cancelled(n) => n in touched
    case Excluded(n) => n in touched
    case Rejected(n) => n in touched
    case Fault(n) => n in touched
    case Emit(_) => true
    case _ => false
  }

  /** Every touched node stayed within its own limits, and nobody else did anything. */
  ghost predicate Metered(doc: Document, g: Plan, d: Events, touched: set<Id>) {
    && touched <= g.Keys
    && (forall e :: e in d ==> PassEvent(e, touched))
    && forall x :: x in touched ==> BudgetRule(doc, g[x], d)
  }

  /** Settled nodes reflect this pass; the others still have the status they came with. */
  ghost predicate Settled(g: Plan, n0: Statuses, n: Statuses, settled: set<Id>) {
    && (forall x :: x !in settled ==> StatusOf(n, x) == StatusOf(n0, x))
    && (forall x :: x in settled && x in g && StatusOf(n, x) == Satisfied ==> !DependencyApplied(g[x], n))
    && forall x :: x in settled && x in g && Blocked(g[x], n) ==> StatusOf(n, x) == Skipped || StatusOf(n, x) == Unknown
  }

  lemma BlockedSame(node: Node, a: Statuses, b: Statuses)
    requires forall i :: 0 <= i < |node.dependsOn| ==> StatusOf(a, node.dependsOn[i]) == StatusOf(b, node.dependsOn[i])
    ensures Blocked(node, a) == Blocked(node, b) && DependencyApplied(node, a) == DependencyApplied(node, b)
  {
  }

  /** A node's effect depends on the statuses of the node and of its dependencies only. */
  lemma EffectTransfers(doc: Document, node: Node, a: Statuses, b: Statuses, q: Status, d: Events, err: Outcome)
    requires NodeEffect(doc, node, a, q, d, err)
    requires StatusOf(a, node.id) == StatusOf(b, node.id)
    requires forall i :: 0 <= i < |node.dependsOn| ==> StatusOf(a, node.dependsOn[i]) == StatusOf(b, node.dependsOn[i])
    ensures NodeEffect(doc, node, b, q, d, err)
  {
    BlockedSame(node, a, b);
  }

  lemma MeterNode(doc: Document, g: Plan, d: Events, touched: set<Id>, node: Node, step: Events)
    requires Metered(doc, g, d, touched) && Closed(g) && node.id in g && g[node.id] == node && node.id !in touched
    requires Only(step, node.id) && BudgetRule(doc, node, step)
    ensures Metered(doc, g, d + step, touched + {node.id})
  {
    forall e | e in d + step ensures PassEvent(e, touched + {node.id}) {
      if e in d { assert PassEvent(e, touched); } else { assert Concerns(e, node.id); }
    }
    forall x | x in touched + {node.id} ensures BudgetRule(doc, g[x], d + step) {
      MeterOne(doc, g, d, touched, node, step, x);
    }
  }

  lemma MeterOne(doc: Document, g: Plan, d: Events, touched: set<Id>, node: Node, step: Events, x: Id)
    requires Metered(doc, g, d, touched) && Closed(g) && node.id in g && g[node.id] == node && node.id !in touched
    requires Only(step, node.id) && BudgetRule(doc, node, step)
    requires x in touched + {node.id}
    ensures BudgetRule(doc, g[x], d + step)
  {
    forall kind, ok ensures x == node.id ==> Call(x, kind, ok) !in d {
      assert !PassEvent(Call(x, kind, ok), touched) || x != node.id;
    }
    forall kind, ok ensures x != node.id ==> Call(x, kind, ok) !in step {
      assert !Concerns(Call(x, kind, ok), node.id) || x == node.id;
    }
  }

  /** Settling one more node after all its dependencies. */
  lemma SettleNode(doc: Document, g: Plan, n0: Statuses, n: Statuses, settled: set<Id>, node: Node, q: Status, d: Events, err: Outcome)
    requires Settled(g, n0, n, settled) && Acyclic(g)
    requires node.id in g && g[node.id] == node && node.id !in settled && Open(node, settled) == {}
    requires forall x :: x in settled ==> x in g && Open(g[x], settled) == {}
    requires NodeEffect(doc, node, n, q, d, err)
    ensures Settled(g, n0, n[node.id := q], settled + {node.id})
  {
    var n' := n[node.id := q];
    forall x | x in settled + {node.id} && x in g
      ensures StatusOf(n', x) == Satisfied ==> !DependencyApplied(g[x], n')
      ensures Blocked(g[x], n') ==> StatusOf(n', x) == Skipped || StatusOf(n', x) == Unknown
    {
      forall i | 0 <= i < |g[x].dependsOn| ensures StatusOf(n', g[x].dependsOn[i]) == StatusOf(n, g[x].dependsOn[i]) {
        var y := g[x].dependsOn[i];
        assert y !in Open(g[x], settled);
      }
      BlockedSame(g[x], n, n');
    }
  }

  // ---------------------------------------------------------------- the wait barrier

  /** A wait that has not been resumed and holds `x` back: `x` itself or something it depends on. */
  ghost predicate HeldBy(g: Plan, resumed: set<Id>, x: Id, w: Id) {
    x in g && w in g && g[w].wait.Some? && w !in resumed && (w == x || Ancestor(g, x, w))
  }

  ghost predicate Guarded(g: Plan, resumed: set<Id>, x: Id) {
    exists w :: HeldBy(g, resumed, x, w)
  }

  /** Nothing behind an open wait has been passed. */
  ghost predicate Dormant(g: Plan, resumed: set<Id>, n: Statuses) {
    forall x :: Guarded(g, resumed, x) ==> !Done(StatusOf(n, x))
  }

  /** Within the pass, everything behind an open wait is visibly blocked. */
  ghost predicate Barred(g: Plan, resumed: set<Id>, n: Statuses, settled: set<Id>) {
    forall x :: x in settled && Guarded(g, resumed, x) ==> StatusOf(n, x) == Skipped || StatusOf(n, x) == Unknown
  }

  /** No tool was touched on behalf of anything behind an open wait. */
  ghost predicate Quiet(g: Plan, resumed: set<Id>, d: Events) {
    forall e :: e in d && IsWork(e) ==> !Guarded(g, resumed, e.node)
  }

  /** A guarded node is an open wait itself or depends directly on a guarded node. */
  lemma GuardedBecause(g: Plan, resumed: set<Id>, x: Id)
    requires Closed(g) && Guarded(g, resumed, x)
    ensures x in g
    ensures (g[x].wait.Some? && x !in resumed) || exists y :: y in g[x].dependsOn && Guarded(g, resumed, y)
  {
    var w :| HeldBy(g, resumed, x, w);
    if w != x {
      var p :| Chain(g, p) && |p| > 1 && p[0] == x && p[|p| - 1] == w;
      assert DependsOn(g, p[0], p[1]);
      var y := p[1];
      if |p| > 2 {
        ChainTail(g, p);
        var q := p[1..];
        assert Chain(g, q) && |q| > 1 && q[0] == y && q[|q| - 1] == w;
        assert Ancestor(g, y, w);
      }
      assert HeldBy(g, resumed, y, w);
    }
  }

  /** A guarded node whose dependencies are settled does no work and stays blocked. */
  lemma GuardedNode(doc: Document, g: Plan, resumed: set<Id>, n: Statuses, settled: set<Id>, node: Node, q: Status, d: Events, err: Outcome)
    requires Closed(g) && node.id in g && g[node.id] == node && Open(node, settled) == {}
    requires Dormant(g, resumed, n) && Barred(g, resumed, n, settled) && Guarded(g, resumed, node.id)
    requires NodeEffect(doc, node, n, q, d, err)
    ensures NoWork(d, node.id) && !Done(q)
    ensures GoesOn(node, err) ==> q == Skipped || q == Unknown
    ensures err == WaitReached ==> forall y :: y in node.dependsOn ==> !Guarded(g, resumed, y)
  {
    GuardedBecause(g, resumed, node.id);
    if y :| y in node.dependsOn && Guarded(g, resumed, y) {
      assert y !in Open(node, settled);
      var i :| 0 <= i < |node.dependsOn| && node.dependsOn[i] == y;
      assert Blocks(StatusOf(n, node.dependsOn[i]));
      assert Blocked(node, n);
    }
  }

  lemma WorkIsCounted(d: Events, id: Id, e: Event)
    requires Only(d, id) && e in d && IsWork(e)
    ensures e.node == id && !NoWork(d, id)
  {
    assert Concerns(e, id);
    match e
    case Call(_, kind, ok) => assert Calls(d, id, kind) > 0;
    case Check(_, verdict) => match verdict { case Ready => case NotReady => case Errored => }
    case Confirm(_, verdict) => match verdict { case Ready => case NotReady => case Errored => }
  }

  lemma QuietNode(doc: Document, g: Plan, resumed: set<Id>, n: Statuses, settled: set<Id>, node: Node, q: Status, d: Events, step: Events, err: Outcome)
    requires Closed(g) && node.id in g && g[node.id] == node && Open(node, settled) == {}
    requires Dormant(g, resumed, n) && Barred(g, resumed, n, settled)
    requires NodeEffect(doc, node, n, q, step, err)
    requires Quiet(g, resumed, d)
    ensures Quiet(g, resumed, d + step)
  {
    if Guarded(g, resumed, node.id) {
      GuardedNode(doc, g, resumed, n, settled, node, q, step, err);
    }
    forall e | e in d + step && IsWork(e) ensures !Guarded(g, resumed, e.node) {
      if e !in d { WorkIsCounted(step, node.id, e); }
    }
  }

  /** Results after which the pass may go on; a failed or reached wait always ends it. */
  predicate GoesOn(node: Node, err: Outcome) {
    err == NoError || (err == Failure && node.wait.None?)
  }

  lemma BarNode(doc: Document, g: Plan, resumed: set<Id>, n: Statuses, settled: set<Id>, node: Node, q: Status, d: Events, err: Outcome)
    requires Closed(g) && node.id in g && g[node.id] == node && Open(node, settled) == {}
    requires Dormant(g, resumed, n) && Barred(g, resumed, n, settled)
    requires NodeEffect(doc, node, n, q, d, err)
    ensures Dormant(g, resumed, n[node.id := q])
    ensures GoesOn(node, err) ==> Barred(g, resumed, n[node.id := q], settled + {node.id})
  {
    if Guarded(g, resumed, node.id) {
      GuardedNode(doc, g, resumed, n, settled, node, q, d, err);
    }
  }

  // ---------------------------------------------------------------- repeating a finished run

  /** Every answer of the world was favourable. */
  ghost predicate Favourable(d: Events) {
    forall e :: e in d ==>
      !e.Cancelled? && !e.Excluded? && (e.Check? || e.Confirm? ==> e.verdict == Ready) && (e.Emit? ==> e.ok)
  }

  /** Settled nodes are satisfied, the rest is still done, and only checks were dispatched. */
  ghost predicate Repeating(g: Plan, n: Statuses, settled: set<Id>, d: Events) {
    && (forall x :: x in g ==> Done(StatusOf(n, x)))
    && (forall x :: x in settled ==> StatusOf(n, x) == Satisfied)
    && forall e :: e in d ==> Passive(e)
  }

  lemma RepeatNode(doc: Document, g: Plan, n: Statuses, settled: set<Id>, d: Events, node: Node, q: Status, step: Events, err: Outcome)
    requires node.id in g && g[node.id] == node && Open(node, settled) == {}
    requires Repeating(g, n, settled, d) && NodeEffect(doc, node, n, q, step, err) && Favourable(step)
    ensures err == NoError && Repeating(g, n[node.id := q], settled + {node.id}, d + step)
  {
    forall i | 0 <= i < |node.dependsOn| ensures StatusOf(n, node.dependsOn[i]) == Satisfied {
      assert node.dependsOn[i] !in Open(node, settled);
    }
    forall e | e in d + step ensures Passive(e) {
      if e !in d { assert Concerns(e, node.id); }
    }
  }

  // ---------------------------------------------------------------- nodes that fail

  /** Every node that failed declared that it may. */
  ghost predicate Tolerated(g: Plan, d: Events) {
    forall x :: Fault(x) in d ==> x in g && g[x].continueOnFailure
  }

  /** The faults of one node's run: its own, exactly if it failed. */
  ghost predicate FaultsOf(node: Node, step: Events, err: Outcome) {
    (forall x :: Fault(x) in step ==> x == node.id) && (Fault(node.id) in step <==> err == Failure)
  }

  lemma EffectFaults(doc: Document, node: Node, n: Statuses, q: Status, step: Events, err: Outcome)
    requires NodeEffect(doc, node, n, q, step, err)
    ensures FaultsOf(node, step, err)
  {
    forall x | Fault(x) in step ensures x == node.id { assert Concerns(Fault(x), node.id); }
  }

  lemma ToleratedNext(g: Plan, d: Events, node: Node, step: Events, err: Outcome)
    requires Tolerated(g, d) && FaultsOf(node, step, err) && node.id in g && g[node.id] == node
    requires err != Failure || node.continueOnFailure
    ensures Tolerated(g, d + step)
  {
    forall x | Fault(x) in d + step ensures x in g && g[x].continueOnFailure { if Fault(x) !in d { assert Fault(x) in step; } }
  }

  // ---------------------------------------------------------------- getting a plan done

  /** No waits, and nothing that can only be checked behind something that can be changed. */
  ghost predicate Actionable(g: Plan) {
    forall x :: x in g ==>
      && g[x].wait.None?
      && (g[x].action.None? ==> forall y :: y in g[x].dependsOn && y in g ==> g[y].action.None?)
  }

  /** Every call succeeded and every check passed, but for those an action could still answer. */
  predicate SmoothEvent(g: Plan, e: Event) {
    match e
    case Cancelled(_) => false
    case Excluded(_) => false
    case Rejected(_) => false
    case Call(_, _, ok) => ok
    case Check(x, verdict) => verdict == Ready || (verdict == NotReady && x in g && g[x].action.Some?)
    case Confirm(_, verdict) => verdict == Ready
    case Emit(ok) => ok
    case _ => true
  }

  ghost predicate Smooth(g: Plan, d: Events) {
    forall e :: e in d ==> SmoothEvent(g, e)
  }

  predicate Delivered(node: Node, q: Status) {
    Done(q) && (node.action.None? ==> q == Satisfied)
  }

  /** A node that is no fan-out was seen ready, called, or done before where it has no check. */
  ghost predicate Evident(node: Node, before: Status, d: Events) {
    node.forEach.None? ==>
      if node.validate.Some? then Check(node.id, Ready) in d || Confirm(node.id, Ready) in d
      else Done(before) || Call(node.id, ActionCall, true) in d
  }

  ghost predicate Progressing(g: Plan, start: Statuses, n: Statuses, settled: set<Id>, d: Events) {
    forall x :: x in settled ==> x in g && Delivered(g[x], StatusOf(n, x)) && Evident(g[x], StatusOf(start, x), d)
  }

  /** Under smooth answers a node whose dependencies are delivered is delivered too. */
  lemma ProgressNode(doc: Document, g: Plan, start: Statuses, n: Statuses, settled: set<Id>, d: Events, node: Node, q: Status, step: Events, err: Outcome)
    requires Actionable(g) && node.id in g && g[node.id] == node && Open(node, settled) == {}
    requires Progressing(g, start, n, settled, d) && StatusOf(n, node.id) == StatusOf(start, node.id)
    requires NodeEffect(doc, node, n, q, step, err) && Smooth(g, step)
    ensures err == NoError && Progressing(g, start, n[node.id := q], settled + {node.id}, d + step)
  {
    forall i | 0 <= i < |node.dependsOn|
      ensures Done(StatusOf(n, node.dependsOn[i])) && (node.action.None? ==> StatusOf(n, node.dependsOn[i]) == Satisfied)
    {
      var y := node.dependsOn[i];
      assert y !in Open(node, settled);
      assert Delivered(g[y], StatusOf(n, y));
    }
    assert !Blocked(node, n) && (node.action.None? ==> !DependencyApplied(node, n));
    SmoothNode(doc, g, node, n, q, step, err);
  }

  lemma SmoothNode(doc: Document, g: Plan, node: Node, n: Statuses, q: Status, step: Events, err: Outcome)
    requires node.id in g && g[node.id] == node && node.wait.None?
    requires !Blocked(node, n) && (node.action.None? ==> !DependencyApplied(node, n))
    requires NodeEffect(doc, node, n, q, step, err) && Smooth(g, step)
    ensures err == NoError && Delivered(node, q) && Evident(node, StatusOf(n, node.id), step)
  {
    assert !Hindered(step, node.id) && !InVain(step, node.id);
    assert node.action.None? ==> Check(node.id, NotReady) !in step;
  }

  // ---------------------------------------------------------------- the pass as a whole

  /** The fixed surroundings of a pass. */
  datatype Pass = Pass(doc: Document, g: Plan, resumed: set<Id>, start: Statuses)

  /** What good answers lead to: a finished run is only observed, and a plan gets done. */
  datatype Hope = Repeat | Progress

  ghost predicate Hopeful(c: Pass, hope: Hope, d: Events) {
    match hope
    case Repeat => AllDone(c.g, c.start) && Favourable(d)
    case Progress => Actionable(c.g) && Smooth(c.g, d)
  }

  ghost predicate Hopeless(c: Pass, d: Events) {
    forall hope :: !Hopeful(c, hope, d)
  }

  ghost predicate Pledge(c: Pass, hope: Hope, n: Statuses, settled: set<Id>, d: Events) {
    match hope
    case Repeat => Repeating(c.g, n, settled, d)
    case Progress => Progressing(c.g, c.start, n, settled, d)
  }

  lemma HopefulParts(c: Pass, a: Events, b: Events)
    ensures forall hope :: Hopeful(c, hope, a + b) <==> Hopeful(c, hope, a) && Hopeful(c, hope, b)
  {
    assert forall e :: e in a ==> e in a + b;
    assert forall e :: e in b ==> e in a + b;
  }

  lemma PledgeNode(c: Pass, hope: Hope, n: Statuses, settled: set<Id>, d: Events, node: Node, q: Status, step: Events, err: Outcome)
    requires Due(c.g, node, settled) && StatusBook(c, n, settled)
    requires Pledge(c, hope, n, settled, d) && Hopeful(c, hope, step) && NodeEffect(c.doc, node, n, q, step, err)
    ensures err == NoError && Pledge(c, hope, n[node.id := q], settled + {node.id}, d + step)
  {
    match hope
    case Repeat => RepeatNode(c.doc, c.g, n, settled, d, node, q, step, err);
    case Progress => ProgressNode(c.doc, c.g, c.start, n, settled, d, node, q, step, err);
  }

  ghost predicate PassOk(c: Pass) {
    Closed(c.g) && Acyclic(c.g)
  }

  ghost predicate AllDone(g: Plan, n: Statuses) {
    forall x :: x in g ==> Done(StatusOf(n, x))
  }

  ghost predicate ClosedUnder(g: Plan, settled: set<Id>) {
    forall x :: x in settled ==> x in g && Open(g[x], settled) == {}
  }

  /** The statuses book: `settled` nodes have been processed in this pass. */
  ghost predicate StatusBook(c: Pass, n: Statuses, settled: set<Id>) {
    var book := ClosedUnder(c.g, settled) && Settled(c.g, c.start, n, settled)
      && Dormant(c.g, c.resumed, n) && Barred(c.g, c.resumed, n, settled);
    book
  }

  /** The events book: `touched` nodes have produced the events. */
  ghost predicate EventBook(c: Pass, d: Events, touched: set<Id>) {
    var book := Metered(c.doc, c.g, d, touched) && Quiet(c.g, c.resumed, d);
    book
  }

  /** The hopes book: good answers so far have led where they should. */
  ghost predicate HopeBook(c: Pass, n: Statuses, settled: set<Id>, d: Events) {
    forall hope :: Hopeful(c, hope, d) ==> Pledge(c, hope, n, settled, d)
  }

  ghost predicate PassInv(c: Pass, n: Statuses, d: Events, settled: set<Id>) {
    var books := StatusBook(c, n, settled) && EventBook(c, d, settled) && HopeBook(c, n, settled, d);
    books
  }

  /** What is left to say when a pass ends early. */
  ghost predicate CutShort(c: Pass, n: Statuses, d: Events) {
    && Dormant(c.g, c.resumed, n)
    && EventBook(c, d, c.g.Keys)
    && Hopeless(c, d)
  }

  /** A node of the plan that is due: not processed yet, all dependencies processed. */
  ghost predicate Due(g: Plan, node: Node, settled: set<Id>) {
    node.id in g && g[node.id] == node && node.id !in settled && Open(node, settled) == {}
  }

  lemma MeterAll(c: Pass, d: Events, touched: set<Id>)
    requires PassOk(c) && EventBook(c, d, touched)
    ensures EventBook(c, d, c.g.Keys)
  {
    forall e | e in d ensures PassEvent(e, c.g.Keys) { assert PassEvent(e, touched); }
    forall x | x in c.g.Keys ensures BudgetRule(c.doc, c.g[x], d) {
      if x !in touched {
        forall kind, ok ensures Call(c.g[x].id, kind, ok) !in d {
          assert !PassEvent(Call(x, kind, ok), touched);
        }
      }
    }
  }

  lemma EventNode(c: Pass, n: Statuses, settled: set<Id>, d: Events, touched: set<Id>, node: Node, q: Status, step: Events, err: Outcome)
    requires PassOk(c) && StatusBook(c, n, settled) && EventBook(c, d, touched)
    requires Due(c.g, node, settled) && node.id !in touched
    requires NodeEffect(c.doc, node, n, q, step, err)
    ensures EventBook(c, d + step, touched + {node.id})
  {
    MeterNode(c.doc, c.g, d, touched, node, step);
    QuietNode(c.doc, c.g, c.resumed, n, settled, node, q, d, step, err);
  }

  lemma StatusNode(c: Pass, n: Statuses, settled: set<Id>, node: Node, q: Status, step: Events, err: Outcome)
    requires PassOk(c) && StatusBook(c, n, settled) && Due(c.g, node, settled)
    requires NodeEffect(c.doc, node, n, q, step, err)
    ensures Dormant(c.g, c.resumed, n[node.id := q])
    ensures GoesOn(node, err) ==> StatusBook(c, n[node.id := q], settled + {node.id})
  {
    SettleNode(c.doc, c.g, c.start, n, settled, node, q, step, err);
    BarNode(c.doc, c.g, c.resumed, n, settled, node, q, step, err);
    forall x | x in settled + {node.id} ensures x in c.g && Open(c.g[x], settled + {node.id}) == {} {
      if x in settled { OpenShrinks(c.g[x], settled, node.id); } else { OpenShrinks(node, settled, node.id); }
    }
  }

  lemma OpenShrinks(node: Node, settled: set<Id>, id: Id)
    requires Open(node, settled) == {}
    ensures Open(node, settled + {id}) == {}
  {
    forall d | d in node.dependsOn ensures d in settled { assert d !in Open(node, settled); }
  }

  /** One node run serially within a pass. */
  lemma PassNode(c: Pass, n: Statuses, d: Events, settled: set<Id>, node: Node, q: Status, step: Events, err: Outcome)
    requires PassOk(c) && PassInv(c, n, d, settled) && Due(c.g, node, settled)
    requires NodeEffect(c.doc, node, n, q, step, err)
    ensures GoesOn(node, err) ==> PassInv(c, n[node.id := q], d + step, settled + {node.id})
    ensures err != NoError ==> CutShort(c, n[node.id := q], d + step)
  {
    EventNode(c, n, settled, d, settled, node, q, step, err);
    StatusNode(c, n, settled, node, q, step, err);
    MeterAll(c, d + step, settled + {node.id});
    HopefulParts(c, d, step);
    forall hope | Hopeful(c, hope, d + step)
      ensures err == NoError && Pledge(c, hope, n[node.id := q], settled + {node.id}, d + step)
    {
      PledgeNode(c, hope, n, settled, d, node, q, step, err);
    }
  }

  /** A reached wait depends on resumed waits only. */
  lemma FenceReached(c: Pass, n: Statuses, settled: set<Id>, node: Node, q: Status, step: Events)
    requires PassOk(c) && StatusBook(c, n, settled) && Due(c.g, node, settled)
    requires NodeEffect(c.doc, node, n, q, step, WaitReached)
    ensures FenceOk(c.g, c.resumed, node.id)
  {
    forall w | w in c.g && c.g[w].wait.Some? && Ancestor(c.g, node.id, w) ensures w in c.resumed {
      if w !in c.resumed {
        assert HeldBy(c.g, c.resumed, node.id, w);
        GuardedNode(c.doc, c.g, c.resumed, n, settled, node, q, step, WaitReached);
        HeldThrough(c.g, c.resumed, node.id, w);
      }
    }
  }

  /** Every wait above `id` has been resumed. */
  ghost predicate FenceOk(g: Plan, resumed: set<Id>, id: Id) {
    forall w :: w in g && g[w].wait.Some? && Ancestor(g, id, w) ==> w in resumed
  }

  lemma HeldThrough(g: Plan, resumed: set<Id>, x: Id, w: Id)
    requires Closed(g) && HeldBy(g, resumed, x, w) && Ancestor(g, x, w)
    ensures exists y :: y in g[x].dependsOn && Guarded(g, resumed, y)
  {
    var p :| Chain(g, p) && |p| > 1 && p[0] == x && p[|p| - 1] == w;
    assert DependsOn(g, p[0], p[1]);
    if |p| > 2 {
      ChainTail(g, p);
      assert Chain(g, p[1..]) && |p[1..]| > 1 && p[1..][0] == p[1] && p[1..][|p[1..]| - 1] == w;
      assert Ancestor(g, p[1], w);
    }
    assert HeldBy(g, resumed, p[1], w);
  }
}
