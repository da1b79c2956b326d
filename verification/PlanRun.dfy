/** What surrounds a pass: its levels, the convergence sweep and the passes of a run. */
module PlanRun {
  import opened PlanTypes
  import opened RunSpec
  import opened PassSpec
  import opened Budget
  import opened Runner
  import opened Levels
  import opened Compensation
  import opened Graph

  // ---------------------------------------------------------------- one pass

  /** A plan with its levels, ready to run. */
  ghost predicate Planned(c: Pass, levels: seq<seq<Node>>) {
    var ready := Accepted(c.doc) && c.g == NodeMap(c.doc.nodes) && Levelling(c.g, levels) && Tight(levels);
    ready
  }

  lemma PlanOk(c: Pass, levels: seq<seq<Node>>)
    requires Planned(c, levels)
    ensures PassOk(c)
  {
    WellFormedClosed(c.doc.nodes);
  }

  lemma LevelRunnable(c: Pass, levels: seq<seq<Node>>, k: nat)
    requires Planned(c, levels) && k < |levels|
    ensures Runnable(c, levels[k], Before(levels, k))
  {
    PlanOk(c, levels);
    assert LevelOkAt(c.g, levels, k);
    forall i | 0 <= i < |levels[k]| ensures NodeShapeOk(levels[k][i]) {
      var j := NodeMapEntry(c.doc.nodes, levels[k][i].id);
    }
  }

  lemma PassStart(c: Pass)
    requires Dormant(c.g, c.resumed, c.start)
    ensures PassInv(c, c.start, multiset{}, {})
  {
  }

  /** Each level can run once the levels before it are settled. */
  ghost predicate AllRunnable(c: Pass, levels: seq<seq<Node>>) {
    forall k {:trigger RunnableAt(c, levels, k)} :: 0 <= k < |levels| ==> RunnableAt(c, levels, k)
  }

  ghost predicate RunnableAt(c: Pass, levels: seq<seq<Node>>, k: nat)
    requires k < |levels|
  {
    Runnable(c, levels[k], Before(levels, k))
  }

  lemma PlannedRunnable(c: Pass, levels: seq<seq<Node>>)
    requires Planned(c, levels)
    ensures AllRunnable(c, levels) && Before(levels, |levels|) == c.g.Keys
  {
    forall k | 0 <= k < |levels| ensures RunnableAt(c, levels, k) { LevelRunnable(c, levels, k); }
  }

  /** The state of a pass between levels. */
  ghost predicate Going(c: Pass, s0: Snapshot, s: Snapshot, d: Events, settled: set<Id>) {
    var going := Grew(s0.log, s.log, d) && PassInv(c, s.nodes, d, settled) && Tolerated(c.g, d)
      && s.status == s0.status && s.wait == s0.wait;
    going
  }

  /** How a level, or all of them, ended. */
  ghost predicate Ended(c: Pass, levels: seq<seq<Node>>, s0: Snapshot, s: Snapshot, d: Events, settled: set<Id>, err: Outcome) {
    var ended := Grew(s0.log, s.log, d) && if err == NoError then Going(c, s0, s, d, settled) else Stopped(c, levels, s, d, err);
    ended
  }

  /** The level loop of a pass. */
  method RunLevels(doc: Document, levels: seq<seq<Node>>, state: RunState, sink: bool, ghost c: Pass)
    returns (err: Outcome, ghost d: Events)
    requires c.doc == doc && AllRunnable(c, levels)
    requires PassInv(c, state.nodes, multiset{}, {})
    modifies state
    ensures Ended(c, levels, old(state.Now()), state.Now(), d, Before(levels, |levels|), err)
  {
    d := multiset{};
    for k := 0 to |levels|
      invariant Going(c, old(state.Now()), state.Now(), d, Before(levels, k))
    {
      assert RunnableAt(c, levels, k);
      err, d := RunLevelAt(doc, levels, k, state, sink, c, d, old(state.Now()));
      if err != NoError {
        return;
      }
    }
    err := NoError;
  }

  method RunLevelAt(doc: Document, levels: seq<seq<Node>>, k: nat, state: RunState, sink: bool,
                    ghost c: Pass, ghost d0: Events, ghost s0: Snapshot)
    returns (err: Outcome, ghost d: Events)
    requires c.doc == doc && k < |levels| && RunnableAt(c, levels, k)
    requires Going(c, s0, state.Now(), d0, Before(levels, k))
    modifies state
    ensures Ended(c, levels, s0, state.Now(), d, Before(levels, k + 1), err)
  {
    ghost var before := state.log;
    ghost var step: Events;
    err, step := RunLevel(doc, levels[k], state, sink, c, d0, Before(levels, k));
    d := d0 + step;
    GrewOn(s0.log, before, state.log, d0, step);
  }

  /** The run as a pass leaves it when it ends early. */
  ghost predicate Stopped(c: Pass, levels: seq<seq<Node>>, s: Snapshot, d: Events, err: Outcome) {
    var left := CutShort(c, s.nodes, d) && (err == WaitReached ==> Fenced(c, s.status, s.wait))
      && (err == Failure ==> exists k :: 0 <= k < |levels| && LevelBroken(levels[k], d));
    left
  }

  // ---------------------------------------------------------------- why a pass breaks off

  /** The number of nodes on the longest dependency chain down from a node. */
  ghost predicate Height(g: Plan, x: Id, n: nat) {
    && (exists p :: Chain(g, p) && p[0] == x && |p| == n)
    && forall p :: Chain(g, p) && p[0] == x ==> |p| <= n
  }

  /** The node runs in one level with a wait, where no failure is tolerated. */
  ghost predicate BesideWait(g: Plan, x: Id) {
    exists w, n :: w in g && g[w].wait.Some? && Height(g, x, n) && Height(g, w, n)
  }

  /** A node failed whose failure is not tolerated. */
  ghost predicate FatalFault(g: Plan, d: Events, x: Id) {
    Fault(x) in d && x in g && (!g[x].continueOnFailure || BesideWait(g, x))
  }

  /** What makes a run give up before its passes are used: the sink, such a node, or a sweep that finds an error. */
  ghost predicate Cause(g: Plan, d: Events) {
    Event.Emit(false) in d || (exists x :: FatalFault(g, d, x)) || exists x :: Confirm(x, Errored) in d
  }

  lemma BrokenMeans(c: Pass, levels: seq<seq<Node>>, k: nat, d: Events)
    requires Planned(c, levels) && k < |levels| && LevelBroken(levels[k], d)
    ensures Cause(c.g, d)
  {
    if Event.Emit(false) !in d {
      var level := levels[k];
      assert LevelOkAt(c.g, levels, k);
      var i :| 0 <= i < |level| && FatalAt(level, d, i);
      if level[i].continueOnFailure {
        var j :| 0 <= j < |level| && level[j].wait.Some?;
        LevelHeight(c, levels, k, i);
        LevelHeight(c, levels, k, j);
        assert BesideWait(c.g, level[i].id);
      }
      assert FatalFault(c.g, d, level[i].id);
    }
  }

  lemma LevelHeight(c: Pass, levels: seq<seq<Node>>, k: nat, i: nat)
    requires Planned(c, levels) && k < |levels| && i < |levels[k]|
    ensures Height(c.g, levels[k][i].id, k + 1)
  {
    assert levels[k][i].id in IdsOf(levels[k]);
    LevelIsLongestChain(c.g, levels, k, levels[k][i].id);
  }

  lemma CauseGrows(g: Plan, a: Events, d: Events, b: Events)
    requires Cause(g, d)
    ensures Cause(g, a + d + b)
  {
    var all := a + d + b;
    if x :| FatalFault(g, d, x) { assert FatalFault(g, all, x); }
    if x :| Confirm(x, Errored) in d { assert Confirm(x, Errored) in all; }
  }

  /**
   One pass over all levels. A pass that completes leaves every node settled: no node is
   Satisfied while a direct dependency is Applied (drift). Every pass, completed or not,
   stays within the dispatch budget.
   */
  method RunPass(doc: Document, levels: seq<seq<Node>>, state: RunState, sink: bool, ghost c: Pass)
    returns (err: Outcome, ghost d: Events)
    requires c.doc == doc && c.start == state.nodes && Planned(c, levels) && Dormant(c.g, c.resumed, c.start)
    modifies state
    ensures Grew(old(state.log), state.log, d)
    ensures err == NoError ==> PassInv(c, state.nodes, d, c.g.Keys)
    ensures err != NoError ==> Stopped(c, levels, state.Now(), d, err)
    ensures err == NoError ==> Tolerated(c.g, d)
    ensures err == Failure ==> Cause(c.g, d)
    ensures err == NoError ==> state.status == old(state.status) && state.wait == old(state.wait)
    ensures TotalCalls(doc.nodes, d, ActionCall) <= 256 && TotalCalls(doc.nodes, d, RecoverCall) <= 16384
  {
    PassStart(c);
    PlannedRunnable(c, levels);
    err, d := RunLevels(doc, levels, state, sink, c);
    if err == Failure {
      ghost var k :| 0 <= k < |levels| && LevelBroken(levels[k], d);
      BrokenMeans(c, levels, k, d);
    }
    PassBudget(doc, d);
  }

  /** What a completed pass says about drift, in the source's own terms. */
  lemma NoStaleObservation(c: Pass, n: Statuses, d: Events, x: Id, i: nat)
    requires PassInv(c, n, d, c.g.Keys) && x in c.g && i < |c.g[x].dependsOn|
    ensures !(StatusOf(n, x) == Satisfied && StatusOf(n, c.g[x].dependsOn[i]) == Applied)
  {
  }

  /** Nothing is done on top of a failure: behind a dependency that did not come through a node is passed over. */
  lemma NothingOnFailure(c: Pass, n: Statuses, d: Events, x: Id, i: nat)
    requires PassInv(c, n, d, c.g.Keys) && x in c.g && i < |c.g[x].dependsOn|
    requires StatusOf(n, c.g[x].dependsOn[i]) in {Failed, Unknown, Skipped, CompensationFailed, Waiting, Expired}
    ensures StatusOf(n, x) == Skipped || StatusOf(n, x) == Unknown
  {
    assert Blocked(c.g[x], n);
  }

  // ---------------------------------------------------------------- convergence sweep

  predicate Converged(status: Status) {
    status in {Applied, Satisfied, Skipped}
  }

  /** The sweep only checks nodes that are done, and only moves those. */
  ghost predicate Sweep(c: Pass, n0: Statuses, n1: Statuses, d: Events) {
    && (forall e :: e in d ==> e.Emit? || (e.Confirm? && e.node in c.g && !Guarded(c.g, c.resumed, e.node)))
    && (forall x :: StatusOf(n1, x) == StatusOf(n0, x) || (Done(StatusOf(n0, x)) && StatusOf(n1, x) in {Satisfied, Pending}))
  }

  datatype Swept = Fine | Drifted | Broken

  /** What the sweep of one node found. */
  ghost predicate SweptNode(node: Node, q0: Status, q: Status, r: Swept, d: Events) {
    var swept := (Done(q0) && Steady(d) ==> r == Fine && Done(q))
      && (q0 == Satisfied && r == Fine ==> q == Satisfied)
      && (r == Drifted && Converged(q0) ==> q == Pending && Confirm(node.id, NotReady) in d) && (r == Drifted ==> !Converged(q))
      && (r == Broken ==> Confirm(node.id, Errored) in d)
      && (r == Fine && Done(q0) ==> Done(q) && (node.validate.Some? ==> Confirm(node.id, Verdict.Ready) in d));
    swept
  }

  /** The sweep of one node. */
  method SweepNode(node: Node, state: RunState, sink: bool, ghost c: Pass) returns (r: Swept, ghost d: Events)
    requires node.id in c.g && Dormant(c.g, c.resumed, state.nodes)
    modifies state`log, state`nodes, state`outputs
    ensures Grew(old(state.log), state.log, d) && Sweep(c, old(state.nodes), state.nodes, d)
    ensures SameElsewhere(old(state.nodes), state.nodes, node.id) || state.nodes == old(state.nodes)
    ensures SweptNode(node, old(StatusOf(state.nodes, node.id)), StatusOf(state.nodes, node.id), r, d)
    ensures r == Drifted && old(Converged(StatusOf(state.nodes, node.id))) ==> node.id !in state.outputs
  {
    d := multiset{};
    var current := StatusOf(state.nodes, node.id);
    if !Converged(current) {
      return Drifted, d;
    }
    if node.validate.None? || current == Skipped {
      return Fine, d;
    }
    r, d := SweepDone(node, state, sink, c);
  }

  /** The check of a node that is done. */
  method SweepDone(node: Node, state: RunState, sink: bool, ghost c: Pass) returns (r: Swept, ghost d: Events)
    requires node.id in c.g && Dormant(c.g, c.resumed, state.nodes)
    requires node.validate.Some? && Done(StatusOf(state.nodes, node.id))
    modifies state`log, state`nodes, state`outputs
    ensures Grew(old(state.log), state.log, d) && Sweep(c, old(state.nodes), state.nodes, d)
    ensures SameElsewhere(old(state.nodes), state.nodes, node.id)
    ensures SweptNode(node, old(StatusOf(state.nodes, node.id)), StatusOf(state.nodes, node.id), r, d)
    ensures r == Drifted ==> node.id !in state.outputs
  {
    ghost var n0 := state.nodes;
    var verdict;
    verdict, d := PollReady(node, state, true);
    ghost var polled := state.log;
    ghost var emits: Events := multiset{};
    match verdict {
      case Errored =>
        r := Broken;
      case NotReady =>
        state.SetStatus(node.id, Pending);
        state.outputs := state.outputs - {node.id};
        var written;
        written, emits := state.Emit(sink);
        r := Drifted;
      case Ready =>
        state.SetStatus(node.id, Satisfied);
        var output := AnyOutput();
        state.outputs := state.outputs[node.id := output];
        r := Fine;
    }
    GrewOn(old(state.log), polled, state.log, d, emits);
    SweepEnds(c, node, n0, state.nodes, d, emits, verdict, r);
    d := d + emits;
  }

  lemma SweepEnds(c: Pass, node: Node, n0: Statuses, n: Statuses, checks: Events, emits: Events, verdict: Verdict, r: Swept)
    requires node.id in c.g && Dormant(c.g, c.resumed, n0) && Done(StatusOf(n0, node.id))
    requires Polled(checks, node.id, verdict, true) && forall e :: e in emits ==> e.Emit?
    requires match verdict
      case Errored => r == Broken && n == n0
      case NotReady => r == Drifted && n == n0[node.id := Pending]
      case Ready => r == Fine && n == n0[node.id := Satisfied]
    ensures Sweep(c, n0, n, checks + emits)
    ensures SweptNode(node, StatusOf(n0, node.id), StatusOf(n, node.id), r, checks + emits)
  {
    assert Observation(node.id, verdict, true) in checks + emits;
  }

  /** The nodes of the set that are done and can be checked were found ready. */
  ghost predicate Rechecked(g: Plan, n: Statuses, d: Events, covered: set<Id>) {
    forall x :: x in covered && x in g && g[x].validate.Some? && Done(StatusOf(n, x)) ==> Confirm(x, Verdict.Ready) in d
  }

  ghost predicate StillDone(n0: Statuses, n: Statuses) {
    forall x :: Done(StatusOf(n0, x)) ==> Done(StatusOf(n, x))
  }

  /** A sweep so far, over some nodes; steady checks keep what they find. */
  ghost predicate Sweeping(c: Pass, n0: Statuses, n: Statuses, d: Events, r: Swept, covered: set<Id>) {
    var sweeping := Sweep(c, n0, n, d) && (AllDone(c.g, n0) && Steady(d) ==> r == Fine && Holds(c.g, n0, n))
      && (r == Broken ==> exists x :: Confirm(x, Errored) in d)
      && (r == Drifted ==> exists x :: x in c.g && !Converged(StatusOf(n, x)))
      && (r == Fine ==> StillDone(n0, n) && Rechecked(c.g, n0, d, covered));
    sweeping
  }

  lemma NodeSwept(c: Pass, node: Node, n0: Statuses, n: Statuses, d: Events, r: Swept)
    requires node.id in c.g && c.g[node.id] == node && Sweep(c, n0, n, d) && (SameElsewhere(n0, n, node.id) || n == n0)
    requires SweptNode(node, StatusOf(n0, node.id), StatusOf(n, node.id), r, d)
    ensures Sweeping(c, n0, n, d, r, {node.id})
  {
  }

  lemma SweepOn(c: Pass, n0: Statuses, n1: Statuses, n2: Statuses, a: Events, b: Events, r: Swept, done: set<Id>, more: set<Id>)
    requires Sweeping(c, n0, n1, a, Fine, done) && Sweeping(c, n1, n2, b, r, more)
    ensures Sweeping(c, n0, n2, a + b, r, done + more)
  {
    SweepAdds(c, n0, n1, n2, a, b);
    SteadyParts(a, b);
  }

  lemma SweepAdds(c: Pass, n0: Statuses, n1: Statuses, n2: Statuses, a: Events, b: Events)
    requires Sweep(c, n0, n1, a) && Sweep(c, n1, n2, b)
    ensures Sweep(c, n0, n2, a + b)
  {
    forall x ensures StatusOf(n2, x) == StatusOf(n0, x) || (Done(StatusOf(n0, x)) && StatusOf(n2, x) in {Satisfied, Pending}) {
      assert StatusOf(n1, x) == StatusOf(n0, x) || (Done(StatusOf(n0, x)) && StatusOf(n1, x) in {Satisfied, Pending});
    }
  }

  lemma SweepDormant(c: Pass, n0: Statuses, n1: Statuses, d: Events)
    requires Sweep(c, n0, n1, d) && Dormant(c.g, c.resumed, n0)
    ensures Dormant(c.g, c.resumed, n1)
  {
  }

  ghost predicate AllSatisfied(g: Plan, n: Statuses) {
    forall x :: x in g ==> StatusOf(n, x) == Satisfied
  }

  /** No check of a sweep failed. */
  ghost predicate Steady(d: Events) {
    forall e :: e in d && e.Confirm? ==> e.verdict == Verdict.Ready
  }

  lemma SteadyParts(a: Events, b: Events)
    ensures Steady(a + b) <==> Steady(a) && Steady(b)
  {
    assert forall e :: e in a ==> e in a + b;
    assert forall e :: e in b ==> e in a + b;
  }

  /** What a pass under good answers leaves: everything satisfied, or everything done. */
  ghost predicate Held(g: Plan, hope: Hope, n: Statuses) {
    match hope
    case Repeat => AllSatisfied(g, n)
    case Progress => AllDone(g, n)
  }

  /** A steady sweep changes nothing of that. */
  ghost predicate Holds(g: Plan, n0: Statuses, n: Statuses) {
    (AllDone(g, n0) ==> AllDone(g, n)) && (AllSatisfied(g, n0) ==> AllSatisfied(g, n))
  }

  lemma Uncovered(c: Pass, n0: Statuses, n: Statuses, d: Events, r: Swept, covered: set<Id>, all: set<Id>)
    requires Sweeping(c, n0, n, d, r, covered) && r != Fine
    ensures Sweeping(c, n0, n, d, r, all)
  {
  }

  method SweepLevel(level: seq<Node>, state: RunState, sink: bool, ghost c: Pass) returns (r: Swept, ghost d: Events)
    requires forall i :: 0 <= i < |level| ==> level[i].id in c.g && c.g[level[i].id] == level[i]
    requires Dormant(c.g, c.resumed, state.nodes)
    modifies state`log, state`nodes, state`outputs
    ensures Grew(old(state.log), state.log, d) && Sweeping(c, old(state.nodes), state.nodes, d, r, IdsOf(level))
  {
    d := multiset{};
    for i := 0 to |level|
      invariant Grew(old(state.log), state.log, d) && Sweeping(c, old(state.nodes), state.nodes, d, Fine, IdsOf(level[..i]))
    {
      SweepDormant(c, old(state.nodes), state.nodes, d);
      ghost var n := state.nodes;
      ghost var step: Events;
      r, step := SweepNode(level[i], state, sink, c);
      NodeSwept(c, level[i], n, state.nodes, step, r);
      SweepOn(c, old(state.nodes), n, state.nodes, d, step, r, IdsOf(level[..i]), {level[i].id});
      IdsOfPrefix(level, i);
      d := d + step;
      if r != Fine {
        Uncovered(c, old(state.nodes), state.nodes, d, r, IdsOf(level[..i + 1]), IdsOf(level));
        return;
      }
    }
    assert level[..|level|] == level;
    r := Fine;
  }

  /** What the sweep found: the nodes have converged or not, unless a check erred. */
  ghost predicate Judged(c: Pass, n0: Statuses, n: Statuses, d: Events, recheck: bool, converged: bool, broken: bool) {
    var judged := Sweep(c, n0, n, d)
      && (broken ==> !converged && recheck && exists x :: Confirm(x, Errored) in d)
      && (!recheck ==> n == n0 && d == multiset{})
      && (!broken ==> (converged <==> AllNodesConverged(c.doc, n)))
      && (recheck && converged ==> Rechecked(c.g, n, d, c.g.Keys))
      && (AllDone(c.g, n0) && Steady(d) ==> converged && !broken && Holds(c.g, n0, n));
    judged
  }

  /** `checkConverged` */
  method CheckConverged(doc: Document, levels: seq<seq<Node>>, state: RunState, sink: bool, recheck: bool, ghost c: Pass)
    returns (converged: bool, broken: bool, ghost d: Events)
    requires c.doc == doc && Planned(c, levels) && Dormant(c.g, c.resumed, state.nodes)
    modifies state`log, state`nodes, state`outputs
    ensures Grew(old(state.log), state.log, d)
    ensures Judged(c, old(state.nodes), state.nodes, d, recheck, converged, broken)
  {
    d := multiset{};
    if recheck {
      var r;
      r, d := SweepLevels(levels, state, sink, c);
      if r != Fine {
        if r == Drifted { NotConverged(c, state.nodes); }
        return false, r == Broken, d;
      }
    }
    converged := AllConverged(doc, state.nodes);
    broken := false;
    DoneConverges(c, state.nodes);
  }

  lemma DoneConverges(c: Pass, n: Statuses)
    requires WellFormed(c.doc.nodes) && c.g == NodeMap(c.doc.nodes)
    ensures AllDone(c.g, n) ==> AllNodesConverged(c.doc, n)
  {
    forall i | 0 <= i < |c.doc.nodes| ensures c.doc.nodes[i].id in c.g { NodeMapFinds(c.doc.nodes, i); }
  }

  lemma NotConverged(c: Pass, n: Statuses)
    requires WellFormed(c.doc.nodes) && c.g == NodeMap(c.doc.nodes) && exists x :: x in c.g && !Converged(StatusOf(n, x))
    ensures !AllNodesConverged(c.doc, n)
  {
    var x :| x in c.g && !Converged(StatusOf(n, x));
    var i := NodeMapEntry(c.doc.nodes, x);
  }

  /** The run after a part of the sweep. */
  ghost predicate SweptTo(c: Pass, s0: Snapshot, s: Snapshot, d: Events, r: Swept, covered: set<Id>) {
    var swept := Grew(s0.log, s.log, d) && Sweeping(c, s0.nodes, s.nodes, d, r, covered);
    swept
  }

  method SweepLevels(levels: seq<seq<Node>>, state: RunState, sink: bool, ghost c: Pass) returns (r: Swept, ghost d: Events)
    requires Planned(c, levels) && Dormant(c.g, c.resumed, state.nodes)
    modifies state`log, state`nodes, state`outputs
    ensures SweptTo(c, old(state.Now()), state.Now(), d, r, c.g.Keys)
  {
    d := multiset{};
    for k := 0 to |levels|
      invariant SweptTo(c, old(state.Now()), state.Now(), d, Fine, Before(levels, k))
    {
      r, d := SweepLevelAt(levels, k, state, sink, c, old(state.Now()), d);
      if r != Fine {
        return;
      }
    }
    r := Fine;
  }

  method SweepLevelAt(levels: seq<seq<Node>>, k: nat, state: RunState, sink: bool, ghost c: Pass, ghost s0: Snapshot, ghost d: Events)
    returns (r: Swept, ghost all: Events)
    requires Planned(c, levels) && k < |levels| && Dormant(c.g, c.resumed, s0.nodes)
    requires SweptTo(c, s0, state.Now(), d, Fine, Before(levels, k))
    modifies state`log, state`nodes, state`outputs
    ensures SweptTo(c, s0, state.Now(), all, r, if r == Fine then Before(levels, k + 1) else c.g.Keys)
  {
    SweepDormant(c, s0.nodes, state.nodes, d);
    assert LevelOkAt(c.g, levels, k);
    ghost var n, log := state.nodes, state.log;
    ghost var step: Events;
    r, step := SweepLevel(levels[k], state, sink, c);
    GrewOn(s0.log, log, state.log, d, step);
    SweepOn(c, s0.nodes, n, state.nodes, d, step, r, Before(levels, k), IdsOf(levels[k]));
    all := d + step;
    if r != Fine {
      Uncovered(c, s0.nodes, state.nodes, all, r, Before(levels, k) + IdsOf(levels[k]), c.g.Keys);
    }
  }

  method AllConverged(doc: Document, nodes: Statuses) returns (yes: bool)
    ensures yes <==> forall i :: 0 <= i < |doc.nodes| ==> Converged(StatusOf(nodes, doc.nodes[i].id))
  {
    for i := 0 to |doc.nodes|
      invariant forall k :: 0 <= k < i ==> Converged(StatusOf(nodes, doc.nodes[k].id))
    {
      if !Converged(StatusOf(nodes, doc.nodes[i].id)) {
        return false;
      }
    }
    yes := true;
  }

  // ---------------------------------------------------------------- all passes of a run

  /** Nothing is resumed, and no tool is touched behind an open wait. */
  ghost predicate RunEvents(c: Pass, d: Events) {
    && (forall e :: e in d ==> !e.Resume?)
    && Quiet(c.g, c.resumed, d)
  }

  ghost predicate CallsWithin(doc: Document, d: Events, passes: nat) {
    && TotalCalls(doc.nodes, d, ActionCall) <= 256 * passes
    && TotalCalls(doc.nodes, d, RecoverCall) <= 16384 * passes
  }

  /** What any number of passes keeps. */
  ghost predicate RunBooks(c: Pass, n: Statuses, d: Events, passes: nat) {
    var books := Dormant(c.g, c.resumed, n) && RunEvents(c, d) && CallsWithin(c.doc, d, passes);
    books
  }

  lemma BooksAdd(c: Pass, n0: Statuses, n1: Statuses, a: Events, b: Events, p: nat, q: nat)
    requires RunBooks(c, n0, a, p) && RunBooks(c, n1, b, q)
    ensures RunBooks(c, n1, a + b, p + q)
  {
    TotalCallsAdd(c.doc.nodes, a, b, ActionCall);
    TotalCallsAdd(c.doc.nodes, a, b, RecoverCall);
    forall e | e in a + b ensures !e.Resume? && (IsWork(e) ==> !Guarded(c.g, c.resumed, e.node)) {
      if e in a { assert !e.Resume?; } else { assert e in b && !e.Resume?; }
    }
  }

  lemma SweepBooks(c: Pass, n0: Statuses, n1: Statuses, d: Events)
    requires Sweep(c, n0, n1, d) && Dormant(c.g, c.resumed, n0)
    ensures RunBooks(c, n1, d, 0)
  {
    SweepDormant(c, n0, n1, d);
    forall kind | kind == ActionCall || kind == RecoverCall ensures TotalCalls(c.doc.nodes, d, kind) == 0 {
      forall id, ok ensures Call(id, kind, ok) !in d { }
      TotalCallsNone(c.doc.nodes, d, kind);
    }
  }

  ghost predicate NoUndo(d: Events) {
    forall e :: e in d ==> !Reverts(e)
  }

  datatype PassEnd = Again | Suspended | Aborting | Settling

  /** A pass with its sweep, as it leaves the run. */
  ghost predicate Rounded(c: Pass, s: Snapshot, d: Events, end: PassEnd, recheck: bool) {
    var rounded := RunBooks(c, s.nodes, d, 1) && NoUndo(d) && PassBegun !in d
      && (end == Suspended ==> Fenced(c, s.status, s.wait))
      && (forall hope :: Hopeful(c, hope, d) ==> end == Settling && Kept(c, hope, s.nodes, d))
      && PassReason(c, s.nodes, d, end, recheck);
    rounded
  }

  /** A pass followed by its convergence sweep. */
  method PassAndSweep(doc: Document, levels: seq<seq<Node>>, state: RunState, sink: bool, recheck: bool, ghost c: Pass)
    returns (end: PassEnd, ghost d: Events)
    requires c.doc == doc && c.start == state.nodes && Planned(c, levels) && Dormant(c.g, c.resumed, c.start)
    modifies state
    ensures Grew(old(state.log), state.log, d)
    ensures Rounded(c, state.Now(), d, end, recheck)
    ensures end == Again || end == Settling ==> state.status == old(state.status)
  {
    var err;
    err, d := RunPass(doc, levels, state, sink, c);
    if err != NoError {
      end := if err == WaitReached then Suspended else Aborting;
      CutRound(c, levels, state.Now(), d, err, end, recheck);
      return;
    }
    ghost var ran := state.log;
    ghost var sweep: Events;
    end, sweep := SweepAfter(doc, levels, state, sink, recheck, c, d);
    GrewOn(old(state.log), ran, state.log, d, sweep);
    d := d + sweep;
  }

  lemma CutRound(c: Pass, levels: seq<seq<Node>>, s: Snapshot, d: Events, err: Outcome, end: PassEnd, recheck: bool)
    requires Stopped(c, levels, s, d, err) && CallsWithin(c.doc, d, 1) && err != NoError && (err == Failure ==> Cause(c.g, d))
    requires end == if err == WaitReached then Suspended else Aborting
    ensures Rounded(c, s, d, end, recheck)
  {
    CutBooks(c, levels, s, d, err);
  }

  /** The sweep after a completed pass. */
  method SweepAfter(doc: Document, levels: seq<seq<Node>>, state: RunState, sink: bool, recheck: bool, ghost c: Pass, ghost d: Events)
    returns (end: PassEnd, ghost sweep: Events)
    requires c.doc == doc && Planned(c, levels)
    requires PassInv(c, state.nodes, d, c.g.Keys) && CallsWithin(doc, d, 1) && Tolerated(c.g, d)
    modifies state`log, state`nodes, state`outputs
    ensures Grew(old(state.log), state.log, sweep)
    ensures Rounded(c, state.Now(), d + sweep, end, recheck) && end != Suspended
  {
    ghost var n := state.nodes;
    var converged, broken;
    converged, broken, sweep := CheckConverged(doc, levels, state, sink, recheck, c);
    end := if broken then Aborting else if converged then Settling else Again;
    SweptPass(c, n, state.Now(), d, sweep, recheck, converged, broken, end);
  }

  lemma SweptPass(c: Pass, n: Statuses, s: Snapshot, d: Events, sweep: Events, recheck: bool, converged: bool, broken: bool, end: PassEnd)
    requires PassInv(c, n, d, c.g.Keys) && CallsWithin(c.doc, d, 1) && Tolerated(c.g, d)
    requires Judged(c, n, s.nodes, sweep, recheck, converged, broken)
    requires end == if broken then Aborting else if converged then Settling else Again
    ensures Rounded(c, s, d + sweep, end, recheck)
  {
    PassThenSweep(c, n, s.nodes, d, sweep);
    SweepReason(c, n, s.nodes, d, sweep, broken);
    NoneBegun(c, n, s.nodes, d, sweep);
    JudgedReason(c, n, s.nodes, d, sweep, recheck, converged, broken, end);
    forall hope | Hopeful(c, hope, d + sweep) ensures end == Settling && Kept(c, hope, s.nodes, d + sweep) {
      SteadyKeeps(c, hope, n, s.nodes, d + sweep);
    }
  }

  lemma JudgedReason(c: Pass, n0: Statuses, n: Statuses, d: Events, sweep: Events, recheck: bool, converged: bool, broken: bool, end: PassEnd)
    requires Judged(c, n0, n, sweep, recheck, converged, broken) && Tolerated(c.g, d + sweep) && (broken ==> Cause(c.g, d + sweep))
    requires end == if broken then Aborting else if converged then Settling else Again
    ensures PassReason(c, n, d + sweep, end, recheck)
  {
  }

  lemma SteadyKeeps(c: Pass, hope: Hope, n: Statuses, n': Statuses, d: Events)
    requires Kept(c, hope, n, d)
    ensures AllDone(c.g, n) && (Holds(c.g, n, n') ==> Kept(c, hope, n', d))
  {
  }

  /** What each end of a pass says: given up for a cause, or only tolerated faults; and whether all nodes converged. */
  ghost predicate PassReason(c: Pass, n: Statuses, d: Events, end: PassEnd, recheck: bool) {
    var reason := match end
      case Suspended => true
      case Aborting => Cause(c.g, d)
      case Settling => Tolerated(c.g, d) && AllNodesConverged(c.doc, n) && (recheck ==> Rechecked(c.g, n, d, c.g.Keys))
      case Again => Tolerated(c.g, d) && !AllNodesConverged(c.doc, n);
    reason
  }

  lemma SweepReason(c: Pass, n0: Statuses, n: Statuses, d: Events, sweep: Events, broken: bool)
    requires Tolerated(c.g, d) && Sweep(c, n0, n, sweep) && (broken ==> exists x :: Confirm(x, Errored) in sweep)
    ensures Tolerated(c.g, d + sweep) && (broken ==> Cause(c.g, d + sweep))
  {
    forall x | Fault(x) in d + sweep ensures Fault(x) in d { assert Fault(x) !in sweep; }
    if broken {
      var x :| Confirm(x, Errored) in sweep;
      assert Confirm(x, Errored) in d + sweep;
    }
  }

  lemma CutBooks(c: Pass, levels: seq<seq<Node>>, s: Snapshot, d: Events, err: Outcome)
    requires Stopped(c, levels, s, d, err) && CallsWithin(c.doc, d, 1)
    ensures RunBooks(c, s.nodes, d, 1) && NoUndo(d) && PassBegun !in d
    ensures Hopeless(c, d)
  {
    assert !PassEvent(PassBegun, c.g.Keys);
    forall e | e in d ensures !e.Resume? && !Reverts(e) { assert PassEvent(e, c.g.Keys); }
  }

  ghost predicate AllNodesConverged(doc: Document, n: Statuses) {
    forall i :: 0 <= i < |doc.nodes| ==> Converged(StatusOf(n, doc.nodes[i].id))
  }

  /** Everything done, with evidence; repeating, everything satisfied without a single action, recovery or compensation. */
  ghost predicate Kept(c: Pass, hope: Hope, n: Statuses, d: Events) {
    Held(c.g, hope, n) && match hope { case Repeat => AllPassive(d) case Progress => AllEvident(c, d) }
  }

  ghost predicate AllPassive(d: Events) {
    forall e :: e in d ==> Passive(e)
  }

  ghost predicate AllEvident(c: Pass, d: Events) {
    forall x :: x in c.g ==> Evident(c.g[x], StatusOf(c.start, x), d)
  }

  lemma PassThenSweep(c: Pass, n: Statuses, n': Statuses, d: Events, sweep: Events)
    requires PassInv(c, n, d, c.g.Keys) && CallsWithin(c.doc, d, 1) && Sweep(c, n, n', sweep)
    ensures RunBooks(c, n', d + sweep, 1) && NoUndo(d + sweep)
    ensures forall hope :: Hopeful(c, hope, d + sweep) ==> Steady(sweep) && Kept(c, hope, n, d + sweep)
  {
    SweepBooks(c, n, n', sweep);
    PassBooks(c, n, d);
    BooksAdd(c, n, n', d, sweep, 1, 0);
    SweepUndoesNothing(c, n, n', d, sweep);
    SweepKeeps(c, n, n', d, sweep);
  }

  lemma SweepKeeps(c: Pass, n: Statuses, n': Statuses, d: Events, sweep: Events)
    requires Sweep(c, n, n', sweep) && forall hope :: Hopeful(c, hope, d) ==> Kept(c, hope, n, d)
    requires (forall e :: e in d ==> Passive(e)) ==> forall e :: e in d + sweep ==> Passive(e)
    ensures forall hope :: Hopeful(c, hope, d + sweep) ==> Steady(sweep) && Kept(c, hope, n, d + sweep)
  {
    HopefulParts(c, d, sweep);
  }

  lemma NoneBegun(c: Pass, n: Statuses, n': Statuses, d: Events, sweep: Events)
    requires EventBook(c, d, c.g.Keys) && Sweep(c, n, n', sweep)
    ensures PassBegun !in d + sweep
  {
    assert !PassEvent(PassBegun, c.g.Keys);
  }

  lemma PassBooks(c: Pass, n: Statuses, d: Events)
    requires PassInv(c, n, d, c.g.Keys) && CallsWithin(c.doc, d, 1)
    ensures RunBooks(c, n, d, 1) && NoUndo(d)
    ensures forall hope :: Hopeful(c, hope, d) ==> Kept(c, hope, n, d)
  {
    forall e | e in d ensures !e.Resume? && !Reverts(e) { assert PassEvent(e, c.g.Keys); }
  }

  lemma SweepUndoesNothing(c: Pass, n: Statuses, n': Statuses, d: Events, sweep: Events)
    requires NoUndo(d) && Sweep(c, n, n', sweep)
    ensures NoUndo(d + sweep)
    ensures (forall e :: e in d ==> Passive(e)) ==> forall e :: e in d + sweep ==> Passive(e)
  {
    forall e | e in d + sweep ensures !Reverts(e) && (!Passive(e) ==> e in d) {
      if e !in d { assert e in sweep; }
    }
  }

  lemma BooksOfPass(c: Pass, start: Statuses, n: Statuses, d: Events, passes: nat)
    ensures RunBooks(c.(start := start), n, d, passes) == RunBooks(c, n, d, passes)
  {
  }

  /** How the passes of a run end: for a cause, settled, or with all passes used and a node not converged. */
  ghost predicate RunReason(c: Pass, n: Statuses, d: Events, end: PassEnd) {
    var reason := 1 <= d[PassBegun] <= PassLimit(c.doc) && match end
      case Suspended => true
      case Aborting => Cause(c.g, d)
      case Settling => Tolerated(c.g, d) && AllNodesConverged(c.doc, n) && (d[PassBegun] < PassLimit(c.doc) ==> Rechecked(c.g, n, d, c.g.Keys))
      case Again => Tolerated(c.g, d) && d[PassBegun] == PassLimit(c.doc) && !AllNodesConverged(c.doc, n);
    reason
  }

  /** The passes up to the limit of the plan; `Again` means that they were exhausted. */
  method RunPasses(doc: Document, levels: seq<seq<Node>>, state: RunState, sink: bool, ghost c: Pass)
    returns (end: PassEnd, ghost d: Events)
    requires c.doc == doc && c.start == state.nodes && Planned(c, levels) && Dormant(c.g, c.resumed, c.start)
    modifies state
    ensures Grew(old(state.log), state.log, d)
    ensures RunBooks(c, state.nodes, d, PassLimit(doc)) && NoUndo(d)
    ensures end == Suspended ==> Fenced(c, state.status, state.wait)
    ensures end == Again || end == Settling ==> state.status == old(state.status)
    ensures forall hope :: Hopeful(c, hope, d) ==> end == Settling && Kept(c, hope, state.nodes, d) && d[PassBegun] == 1
    ensures RunReason(c, state.nodes, d, end)
  {
    d := multiset{};
    var maxPasses := PassLimit(doc);
    NoBooks(c, state.nodes);
    for pass := 0 to maxPasses
      invariant Grew(old(state.log), state.log, d)
      invariant RunBooks(c, state.nodes, d, pass) && NoUndo(d)
      invariant state.status == old(state.status)
      invariant if pass == 0 then d == multiset{} && state.nodes == c.start else Hopeless(c, d)
      invariant Tolerated(c.g, d) && d[PassBegun] == pass
      invariant pass > 0 ==> !AllNodesConverged(doc, state.nodes)
    {
      ghost var n, before := state.nodes, state.log;
      ghost var step: Events;
      end, step := OnePass(doc, levels, state, sink, pass + 1 < maxPasses, c);
      GrewOn(old(state.log), before, state.log, d, step);
      BooksAdd(c, n, state.nodes, d, step, pass, 1);
      HopefulParts(c, d, step);
      ReasonAdds(c, state.nodes, d, step, end, pass + 1 < maxPasses);
      assert pass == 0 ==> d + step == step;
      d := d + step;
      if end != Again {
        BooksRelax(c, state.nodes, d, pass + 1, maxPasses);
        return;
      }
    }
    end := Again;
  }

  /** One round of the loop: the beginning of a pass is recorded, then the pass is run and swept. */
  method OnePass(doc: Document, levels: seq<seq<Node>>, state: RunState, sink: bool, recheck: bool, ghost c: Pass)
    returns (end: PassEnd, ghost d: Events)
    requires c.doc == doc && Planned(c, levels) && Dormant(c.g, c.resumed, state.nodes)
    modifies state
    ensures Grew(old(state.log), state.log, d) && d[PassBegun] == 1
    ensures RunBooks(c, state.nodes, d, 1) && NoUndo(d)
    ensures end == Suspended ==> Fenced(c, state.status, state.wait)
    ensures end == Again || end == Settling ==> state.status == old(state.status)
    ensures old(state.nodes) == c.start ==> forall hope :: Hopeful(c, hope, d) ==> end == Settling && Kept(c, hope, state.nodes, d)
    ensures PassReason(c, state.nodes, d, end, recheck)
  {
    ghost var here, n, log := c.(start := state.nodes), state.nodes, state.log;
    state.Record(PassBegun);
    ghost var begun := state.log;
    end, d := PassAndSweep(doc, levels, state, sink, recheck, here);
    GrewOn(log, begun, state.log, multiset{PassBegun}, d);
    BeginsPass(c, n, state.Now(), d, end, recheck);
    d := multiset{PassBegun} + d;
  }

  /** The recorded beginning changes nothing about a pass. */
  lemma BeginsPass(c: Pass, start: Statuses, s: Snapshot, d: Events, end: PassEnd, recheck: bool)
    requires Dormant(c.g, c.resumed, start) && Rounded(c.(start := start), s, d, end, recheck)
    ensures RunBooks(c, s.nodes, multiset{PassBegun} + d, 1) && NoUndo(multiset{PassBegun} + d)
    ensures PassReason(c, s.nodes, multiset{PassBegun} + d, end, recheck) && (multiset{PassBegun} + d)[PassBegun] == 1
    ensures end == Suspended ==> Fenced(c, s.status, s.wait)
    ensures c.start == start ==> forall hope :: Hopeful(c, hope, multiset{PassBegun} + d) ==> end == Settling && Kept(c, hope, s.nodes, multiset{PassBegun} + d)
  {
    var one := multiset{PassBegun};
    TotalCallsNone(c.doc.nodes, one, ActionCall);
    TotalCallsNone(c.doc.nodes, one, RecoverCall);
    assert RunBooks(c, start, one, 0);
    BooksOfPass(c, start, s.nodes, d, 1);
    BooksAdd(c, start, s.nodes, one, d, 0, 1);
    forall e | e in one + d ensures e == PassBegun || e in d { }
    NoFaults(c, s.nodes, d, end, recheck);
    if c.start == start {
      HopefulParts(c, one, d);
      forall hope | Hopeful(c, hope, d) ensures Kept(c, hope, s.nodes, one + d) { KeptFirst(c, hope, s.nodes, d); }
    }
  }

  lemma NoFaults(c: Pass, n: Statuses, d: Events, end: PassEnd, recheck: bool)
    requires PassReason(c, n, d, end, recheck)
    ensures PassReason(c, n, multiset{PassBegun} + d, end, recheck)
  {
    if end == Aborting {
      CauseGrows(c.g, multiset{PassBegun}, d, multiset{});
      assert multiset{PassBegun} + d + multiset{} == multiset{PassBegun} + d;
    }
  }

  lemma KeptFirst(c: Pass, hope: Hope, n: Statuses, d: Events)
    requires Kept(c, hope, n, d)
    ensures Kept(c, hope, n, multiset{PassBegun} + d)
  {
    forall e | e in multiset{PassBegun} + d ensures e == PassBegun || e in d { }
  }

  lemma ReasonAdds(c: Pass, n: Statuses, d: Events, step: Events, end: PassEnd, recheck: bool)
    requires Tolerated(c.g, d) && PassReason(c, n, step, end, recheck)
    ensures PassReason(c, n, d + step, end, recheck)
  {
    if end == Aborting {
      CauseGrows(c.g, d, step, multiset{});
      assert d + step + multiset{} == d + step;
    } else if end != Suspended {
      forall x | Fault(x) in d + step ensures x in c.g && c.g[x].continueOnFailure { if Fault(x) !in d { assert Fault(x) in step; } }
    }
  }

  lemma NoBooks(c: Pass, n: Statuses)
    requires Dormant(c.g, c.resumed, n)
    ensures RunBooks(c, n, multiset{}, 0)
  {
    TotalCallsNone(c.doc.nodes, multiset{}, ActionCall);
    TotalCallsNone(c.doc.nodes, multiset{}, RecoverCall);
  }

  lemma BooksRelax(c: Pass, n: Statuses, d: Events, p: nat, q: nat)
    requires RunBooks(c, n, d, p) && p <= q
    ensures RunBooks(c, n, d, q)
  {
  }
}
