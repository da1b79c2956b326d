/** Running the levels of a pass: serially, or concurrently on clones of the state. */
module Levels {
  import opened Wrappers
  import opened Choice
  import opened Json
  import opened PlanTypes
  import opened RunSpec
  import opened PassSpec
  import opened Runner
  import opened Graph

  ghost predicate Shapes(level: seq<Node>) {
    forall i :: 0 <= i < |level| ==> NodeShapeOk(level[i])
  }

  /** The level can be run now: its nodes are new and all they depend on is settled. */
  ghost predicate Runnable(c: Pass, level: seq<Node>, settled: set<Id>) {
    var runnable := PassOk(c) && LevelOk(c.g, level, settled) && Shapes(level);
    runnable
  }

  /** The fence recorded when a wait is reached. */
  ghost predicate Fenced(c: Pass, status: RunStatus, wait: Option<WaitState>) {
    && status == RunWaiting && wait.Some? && wait.value.open
    && wait.value.node in c.g && c.g[wait.value.node].wait.Some?
    && FenceOk(c.g, c.resumed, wait.value.node)
  }

  lemma IdsOfPrefix(level: seq<Node>, i: nat)
    requires i < |level|
    ensures IdsOf(level[..i + 1]) == IdsOf(level[..i]) + {level[i].id}
  {
    var a, b := level[..i + 1], level[..i];
    forall x | x in IdsOf(a) ensures x in IdsOf(b) + {level[i].id} {
      var k :| 0 <= k < |a| && a[k].id == x;
      if k < i { assert b[k].id == x; }
    }
    forall x | x in IdsOf(b) ensures x in IdsOf(a) {
      var k :| 0 <= k < |b| && b[k].id == x;
      assert a[k].id == x;
    }
    assert a[i].id == level[i].id;
  }

  lemma OpenStays(node: Node, a: set<Id>, b: set<Id>)
    requires Open(node, a) == {}
    ensures Open(node, a + b) == {}
  {
    forall d | d in node.dependsOn ensures d in a { assert d !in Open(node, a); }
  }

  /** The next node of a level is due whatever part of the level already ran. */
  lemma NextIsDue(c: Pass, level: seq<Node>, settled: set<Id>, i: nat)
    requires LevelOk(c.g, level, settled) && i < |level|
    ensures Due(c.g, level[i], settled) && Due(c.g, level[i], settled + IdsOf(level[..i]))
  {
    assert level[i].id in IdsOf(level);
    assert level[i].id !in IdsOf(level[..i]);
    OpenStays(level[i], settled, IdsOf(level[..i]));
  }

  ghost predicate HoldsWait(level: seq<Node>) {
    exists i :: 0 <= i < |level| && level[i].wait.Some?
  }

  /** The level broke off because the sink failed or a node did whose failure is not tolerated there. */
  ghost predicate LevelBroken(level: seq<Node>, d: Events) {
    Event.Emit(false) in d || exists i :: 0 <= i < |level| && FatalAt(level, d, i)
  }

  ghost predicate FatalAt(level: seq<Node>, d: Events, i: nat)
    requires i < |level|
  {
    Fault(level[i].id) in d && (!level[i].continueOnFailure || HoldsWait(level))
  }

  /**
   A level run one node after the other. With `tolerant`, a failing node that declares
   continueOnFailure does not end the level; a level that holds a wait is never tolerant.
   */
  method RunSerial(doc: Document, level: seq<Node>, state: RunState, sink: bool, tolerant: bool,
                   ghost c: Pass, ghost d0: Events, ghost settled: set<Id>)
    returns (err: Outcome, ghost d: Events)
    requires c.doc == doc && Runnable(c, level, settled) && PassInv(c, state.nodes, d0, settled)
    requires tolerant <==> !HoldsWait(level)
    requires Tolerated(c.g, d0)
    modifies state
    ensures Grew(old(state.log), state.log, d)
    ensures err == NoError ==> Tolerated(c.g, d0 + d)
    ensures err == Failure ==> LevelBroken(level, d0 + d)
    ensures err == NoError ==> PassInv(c, state.nodes, d0 + d, settled + IdsOf(level))
    ensures err == NoError ==> state.status == old(state.status) && state.wait == old(state.wait)
    ensures err != NoError ==> CutShort(c, state.nodes, d0 + d)
    ensures err == WaitReached ==> Fenced(c, state.status, state.wait)
  {
    d := multiset{};
    NothingYet(level, settled, d0);
    for i := 0 to |level|
      invariant Along(c, old(state.Now()), state.Now(), d0, d, settled + IdsOf(level[..i]))
    {
      var on;
      on, err, d := RunAt(doc, level, i, state, sink, tolerant, c, d0, d, settled, old(state.Now()));
      if !on {
        return;
      }
    }
    assert level[..|level|] == level;
    err := NoError;
  }

  /** A serial level between two nodes. */
  ghost predicate Along(c: Pass, s0: Snapshot, s: Snapshot, d0: Events, d: Events, settled: set<Id>) {
    var along := Grew(s0.log, s.log, d) && PassInv(c, s.nodes, d0 + d, settled) && Tolerated(c.g, d0 + d)
      && s.status == s0.status && s.wait == s0.wait;
    along
  }

  /** A serial level that was broken off. */
  ghost predicate BrokenOff(c: Pass, level: seq<Node>, s0: Snapshot, s: Snapshot, d0: Events, d: Events, err: Outcome) {
    var off := Grew(s0.log, s.log, d) && err != NoError && CutShort(c, s.nodes, d0 + d)
      && (err == WaitReached ==> Fenced(c, s.status, s.wait)) && (err == Failure ==> LevelBroken(level, d0 + d));
    off
  }

  /** One round of a serial level. */
  method RunAt(doc: Document, level: seq<Node>, i: nat, state: RunState, sink: bool, tolerant: bool,
               ghost c: Pass, ghost d0: Events, ghost d: Events, ghost settled: set<Id>, ghost s0: Snapshot)
    returns (on: bool, err: Outcome, ghost all: Events)
    requires c.doc == doc && Runnable(c, level, settled) && i < |level| && (tolerant <==> !HoldsWait(level))
    requires Along(c, s0, state.Now(), d0, d, settled + IdsOf(level[..i]))
    modifies state
    ensures on ==> Along(c, s0, state.Now(), d0, all, settled + IdsOf(level[..i + 1]))
    ensures !on ==> BrokenOff(c, level, s0, state.Now(), d0, all, err)
  {
    ghost var step: Events;
    ghost var before := state.log;
    err, step := RunNext(doc, level, i, state, sink, c, d0 + d, settled);
    GrewOn(s0.log, before, state.log, d, step);
    Associate(d0, d, step);
    SerialNext(c, level, i, settled, d0 + d, step, err);
    all := d + step;
    on := err == NoError || (tolerant && level[i].continueOnFailure);
  }

  lemma SerialNext(c: Pass, level: seq<Node>, i: nat, settled: set<Id>, d: Events, step: Events, err: Outcome)
    requires LevelOk(c.g, level, settled) && i < |level| && Tolerated(c.g, d) && FaultsOf(level[i], step, err)
    ensures err == NoError || level[i].continueOnFailure ==> Tolerated(c.g, d + step)
    ensures err == Failure && (!level[i].continueOnFailure || HoldsWait(level)) ==> LevelBroken(level, d + step)
  {
    if err == NoError || level[i].continueOnFailure { ToleratedNext(c.g, d, level[i], step, err); }
    if err == Failure && (!level[i].continueOnFailure || HoldsWait(level)) { assert FatalAt(level, d + step, i); }
  }

  lemma NothingYet(level: seq<Node>, settled: set<Id>, d0: Events)
    ensures settled + IdsOf(level[..0]) == settled && d0 + multiset{} == d0
  {
  }

  lemma Associate(a: Events, b: Events, c: Events)
    ensures a + (b + c) == a + b + c
  {
  }

  /** The node at position `i` of a serial level. */
  method RunNext(doc: Document, level: seq<Node>, i: nat, state: RunState, sink: bool,
                 ghost c: Pass, ghost d0: Events, ghost settled: set<Id>)
    returns (err: Outcome, ghost step: Events)
    requires c.doc == doc && Runnable(c, level, settled) && i < |level|
    requires PassInv(c, state.nodes, d0, settled + IdsOf(level[..i]))
    modifies state
    ensures Grew(old(state.log), state.log, step)
    ensures GoesOn(level[i], err) ==> PassInv(c, state.nodes, d0 + step, settled + IdsOf(level[..i + 1]))
    ensures err == NoError || level[i].wait.None? ==> state.status == old(state.status) && state.wait == old(state.wait)
    ensures level[i].wait.None? ==> GoesOn(level[i], err)
    ensures FaultsOf(level[i], step, err)
    ensures err != NoError ==> CutShort(c, state.nodes, d0 + step)
    ensures err == WaitReached ==> Fenced(c, state.status, state.wait)
  {
    var node := level[i];
    ghost var n, due := state.nodes, settled + IdsOf(level[..i]);
    NextIsDue(c, level, settled, i);
    IdsOfPrefix(level, i);
    assert settled + IdsOf(level[..i + 1]) == due + {node.id};
    err, step := RunNodeWithPreconditions(doc, node, state, sink);
    PassNode(c, n, d0, due, node, StatusOf(state.nodes, node.id), step, err);
    EffectFaults(doc, node, n, StatusOf(state.nodes, node.id), step, err);
    if err == WaitReached {
      FenceReached(c, n, due, node, StatusOf(state.nodes, node.id), step);
    }
  }

  // ---------------------------------------------------------------- concurrent levels

  /** What one goroutine sends back; its state is a clone that only it has touched. */
  datatype LevelResult = LevelResult(node: Node, state: Snapshot, err: Outcome)

  ghost predicate ResultOk(doc: Document, base: Snapshot, node: Node, r: LevelResult, step: Events) {
    var right := r.node == node && node.wait.None?
      && NodeFrame(node, base, r.state)
      && multiset(r.state.log) == multiset(base.log) + step
      && NodeEffect(doc, node, base.nodes, StatusOf(r.state.nodes, node.id), step, r.err);
    right
  }

  ghost predicate ResultsOk(doc: Document, base: Snapshot, level: seq<Node>, results: seq<LevelResult>, steps: seq<Events>) {
    && |results| == |steps| <= |level|
    && AllOk(doc, base, level, results, steps)
  }

  ghost predicate AllOk(doc: Document, base: Snapshot, level: seq<Node>, results: seq<LevelResult>, steps: seq<Events>)
    requires |results| == |steps| <= |level|
  {
    forall i {:trigger ResultOk(doc, base, level[i], results[i], steps[i])} ::
      0 <= i < |results| ==> ResultOk(doc, base, level[i], results[i], steps[i])
  }

  lemma ResultsGrew(doc: Document, base: Snapshot, level: seq<Node>, results: seq<LevelResult>, steps: seq<Events>)
    requires ResultsOk(doc, base, level, results, steps)
    ensures forall i :: 0 <= i < |results| ==> Grew(base.log, results[i].state.log, steps[i])
  {
    forall i | 0 <= i < |results| ensures Grew(base.log, results[i].state.log, steps[i]) {
      assert ResultOk(doc, base, level[i], results[i], steps[i]);
    }
  }

  ghost function Sum(steps: seq<Events>): Events {
    if steps == [] then multiset{} else Sum(steps[..|steps| - 1]) + steps[|steps| - 1]
  }

  lemma SumSnoc(steps: seq<Events>, step: Events)
    ensures Sum(steps + [step]) == Sum(steps) + step
  {
    assert (steps + [step])[..|steps|] == steps;
  }

  lemma SumNext(steps: seq<Events>, i: nat)
    requires i < |steps|
    ensures Sum(steps[..i + 1]) == Sum(steps[..i]) + steps[i]
  {
    SumSnoc(steps[..i], steps[i]);
    assert steps[..i + 1] == steps[..i] + [steps[i]];
  }

  /** An order-preserving merge of two event sequences. */
  ghost predicate Interleaves(a: seq<Event>, b: seq<Event>, c: seq<Event>)
    decreases |c|
  {
    if c == [] then a == [] && b == []
    else
      var last, rest := c[|c| - 1], c[..|c| - 1];
      || (a != [] && a[|a| - 1] == last && Interleaves(a[..|a| - 1], b, rest))
      || (b != [] && b[|b| - 1] == last && Interleaves(a, b[..|b| - 1], rest))
  }

  /** Dispatches of concurrent nodes reach the tools in an arbitrary interleaving. */
  method Weave(a: seq<Event>, b: seq<Event>) returns (c: seq<Event>)
    ensures Interleaves(a, b, c)
    ensures multiset(c) == multiset(a) + multiset(b)
  {
    var i, j := 0, 0;
    c := [];
    while i < |a| || j < |b|
      invariant 0 <= i <= |a| && 0 <= j <= |b|
      invariant Interleaves(a[..i], b[..j], c)
      invariant multiset(c) == multiset(a[..i]) + multiset(b[..j])
      decreases |a| - i + |b| - j
    {
      var left := Decide();
      if j == |b| || (i < |a| && left) {
        WeaveLeft(a, b, c, i, j);
        c := c + [a[i]];
        i := i + 1;
      } else {
        WeaveRight(a, b, c, i, j);
        c := c + [b[j]];
        j := j + 1;
      }
    }
    assert a[..i] == a && b[..j] == b;
  }

  lemma WeaveLeft(a: seq<Event>, b: seq<Event>, c: seq<Event>, i: nat, j: nat)
    requires i < |a| && j <= |b| && Interleaves(a[..i], b[..j], c) && multiset(c) == multiset(a[..i]) + multiset(b[..j])
    ensures Interleaves(a[..i + 1], b[..j], c + [a[i]]) && multiset(c + [a[i]]) == multiset(a[..i + 1]) + multiset(b[..j])
  {
    var d := c + [a[i]];
    assert a[..i + 1] == a[..i] + [a[i]] && d[..|d| - 1] == c && a[..i + 1][..i] == a[..i];
  }

  lemma WeaveRight(a: seq<Event>, b: seq<Event>, c: seq<Event>, i: nat, j: nat)
    requires i <= |a| && j < |b| && Interleaves(a[..i], b[..j], c) && multiset(c) == multiset(a[..i]) + multiset(b[..j])
    ensures Interleaves(a[..i], b[..j + 1], c + [b[j]]) && multiset(c + [b[j]]) == multiset(a[..i]) + multiset(b[..j + 1])
  {
    var d := c + [b[j]];
    assert b[..j + 1] == b[..j] + [b[j]] && d[..|d| - 1] == c && b[..j + 1][..j] == b[..j];
  }

  /** Every node of the level runs on its own clone of the state, without a sink. */
  method RunClones(doc: Document, level: seq<Node>, base: Snapshot) returns (results: seq<LevelResult>, ghost steps: seq<Events>)
    requires Shapes(level) && forall i :: 0 <= i < |level| ==> level[i].wait.None?
    ensures |results| == |level| && ResultsOk(doc, base, level, results, steps)
  {
    results, steps := [], [];
    for i := 0 to |level|
      invariant |results| == i && ResultsOk(doc, base, level, results, steps)
    {
      var local := new RunState(base);
      var err, step := RunNodeWithPreconditions(doc, level[i], local, false);
      results := results + [LevelResult(level[i], local.Now(), err)];
      steps := steps + [step];
    }
  }

  lemma Cancel(a: Events, b: Events, c: Events)
    requires a + b == a + c
    ensures b == c
  {
    forall e ensures b[e] == c[e] { assert (a + b)[e] == (a + c)[e]; }
  }

  /** The tool log of a concurrent level: the clones' new events, woven together. */
  method WeaveAll(base: seq<Event>, results: seq<LevelResult>, ghost steps: seq<Events>) returns (woven: seq<Event>)
    requires |results| == |steps|
    requires forall i :: 0 <= i < |results| ==> Grew(base, results[i].state.log, steps[i])
    ensures multiset(woven) == Sum(steps)
  {
    woven := [];
    for i := 0 to |results|
      invariant multiset(woven) == Sum(steps[..i])
    {
      assert Grew(base, results[i].state.log, steps[i]);
      var added := results[i].state.log[|base|..];
      assert results[i].state.log == base + added;
      Cancel(multiset(base), multiset(added), steps[i]);
      SumSnoc(steps[..i], steps[i]);
      assert steps[..i + 1] == steps[..i] + [steps[i]];
      woven := Weave(woven, added);
    }
    assert steps[..|steps|] == steps;
  }

  /** The events of the first `k` clones, booked on the state the level started from. */
  ghost predicate Booked(c: Pass, level: seq<Node>, settled: set<Id>, d0: Events, steps: seq<Events>, k: nat)
    requires k <= |level| && k <= |steps|
  {
    EventBook(c, d0 + Sum(steps[..k]), settled + IdsOf(level[..k]))
  }

  lemma {:induction false} CloneEvents(c: Pass, base: Snapshot, settled: set<Id>, d0: Events, level: seq<Node>, results: seq<LevelResult>, steps: seq<Events>, k: nat)
    requires Runnable(c, level, settled) && StatusBook(c, base.nodes, settled) && EventBook(c, d0, settled)
    requires ResultsOk(c.doc, base, level, results, steps) && k <= |results|
    ensures Booked(c, level, settled, d0, steps, k)
  {
    if k == 0 {
      NothingYet(level, settled, d0);
      assert Sum(steps[..0]) == multiset{};
    } else {
      CloneEvents(c, base, settled, d0, level, results, steps, k - 1);
      assert ResultOk(c.doc, base, level[k - 1], results[k - 1], steps[k - 1]);
      CloneEvent(c, base, settled, d0, level, results[k - 1], steps, k - 1);
    }
  }

  lemma CloneEvent(c: Pass, base: Snapshot, settled: set<Id>, d0: Events, level: seq<Node>, r: LevelResult, steps: seq<Events>, i: nat)
    requires Runnable(c, level, settled) && StatusBook(c, base.nodes, settled)
    requires i < |level| && i < |steps| && ResultOk(c.doc, base, level[i], r, steps[i])
    requires Booked(c, level, settled, d0, steps, i)
    ensures Booked(c, level, settled, d0, steps, i + 1)
  {
    NextIsDue(c, level, settled, i);
    EventNode(c, base.nodes, settled, d0 + Sum(steps[..i]), settled + IdsOf(level[..i]), level[i],
              StatusOf(r.state.nodes, level[i].id), steps[i], r.err);
    Regrouped(level, settled, d0, steps, i);
  }

  /** The statuses while the first `k` results have been merged. */
  ghost predicate Merged(c: Pass, base: Snapshot, level: seq<Node>, settled: set<Id>, n: Statuses, k: nat)
    requires k <= |level|
  {
    && StatusBook(c, n, settled + IdsOf(level[..k]))
    && forall x :: x !in IdsOf(level[..k]) ==> StatusOf(n, x) == StatusOf(base.nodes, x)
  }

  lemma DependenciesSettled(node: Node, settled: set<Id>, i: nat)
    requires Open(node, settled) == {} && i < |node.dependsOn|
    ensures node.dependsOn[i] in settled
  {
    assert node.dependsOn[i] !in Open(node, settled);
  }

  /** A clone's effect, seen from the partly merged state. */
  lemma EffectAtMerge(c: Pass, base: Snapshot, level: seq<Node>, settled: set<Id>, n: Statuses, k: nat, q: Status, step: Events, err: Outcome)
    requires LevelOk(c.g, level, settled) && k < |level| && Merged(c, base, level, settled, n, k)
    requires NodeEffect(c.doc, level[k], base.nodes, q, step, err)
    ensures NodeEffect(c.doc, level[k], n, q, step, err)
  {
    var node := level[k];
    NextIsDue(c, level, settled, k);
    forall i | 0 <= i < |node.dependsOn| ensures StatusOf(base.nodes, node.dependsOn[i]) == StatusOf(n, node.dependsOn[i]) {
      DependenciesSettled(node, settled, i);
      PrefixIds(level, k);
    }
    EffectTransfers(c.doc, node, base.nodes, n, q, step, err);
  }

  lemma PrefixIds(level: seq<Node>, k: nat)
    requires k <= |level|
    ensures IdsOf(level[..k]) <= IdsOf(level)
  {
    forall x | x in IdsOf(level[..k]) ensures x in IdsOf(level) {
      var i :| 0 <= i < k && level[..k][i].id == x;
      assert level[i].id == x;
    }
  }

  lemma MergeNext(c: Pass, base: Snapshot, level: seq<Node>, settled: set<Id>, n: Statuses, k: nat, q: Status, step: Events, err: Outcome)
    requires Runnable(c, level, settled) && k < |level| && level[k].wait.None? && Merged(c, base, level, settled, n, k)
    requires NodeEffect(c.doc, level[k], base.nodes, q, step, err)
    ensures Merged(c, base, level, settled, n[level[k].id := q], k + 1)
  {
    NextIsDue(c, level, settled, k);
    IdsOfPrefix(level, k);
    EffectAtMerge(c, base, level, settled, n, k, q, step, err);
    StatusNode(c, n, settled + IdsOf(level[..k]), level[k], q, step, err);
    assert settled + IdsOf(level[..k]) + {level[k].id} == settled + IdsOf(level[..k + 1]);
  }

  // ---------------------------------------------------------------- merging

  lemma {:induction false} StepInSum(steps: seq<Events>, k: nat)
    requires k < |steps|
    ensures steps[k] <= Sum(steps)
  {
    if k < |steps| - 1 {
      assert steps[..|steps| - 1][k] == steps[k];
      StepInSum(steps[..|steps| - 1], k);
    }
  }

  /** While every answer is good, merging keeps what the answers lead to. */
  ghost predicate MergeKeeps(c: Pass, level: seq<Node>, settled: set<Id>, n: Statuses, d0: Events, steps: seq<Events>, k: nat)
    requires k <= |level| && k <= |steps|
  {
    forall hope :: Hopeful(c, hope, d0) && Hopeful(c, hope, Sum(steps)) ==>
      Pledge(c, hope, n, settled + IdsOf(level[..k]), d0 + Sum(steps[..k]))
  }

  lemma PledgeNext(c: Pass, base: Snapshot, level: seq<Node>, settled: set<Id>, n: Statuses, d0: Events, steps: seq<Events>, k: nat, q: Status, err: Outcome)
    requires Runnable(c, level, settled) && k < |level| && |steps| == |level|
    requires Merged(c, base, level, settled, n, k) && MergeKeeps(c, level, settled, n, d0, steps, k)
    requires NodeEffect(c.doc, level[k], base.nodes, q, steps[k], err)
    ensures MergeKeeps(c, level, settled, n[level[k].id := q], d0, steps, k + 1)
    ensures err != NoError ==> LevelHopeless(c, d0, steps)
  {
    NextIsDue(c, level, settled, k);
    EffectAtMerge(c, base, level, settled, n, k, q, steps[k], err);
    Regrouped(level, settled, d0, steps, k);
    forall hope | Hopeful(c, hope, d0) && Hopeful(c, hope, Sum(steps))
      ensures err == NoError && Pledge(c, hope, n[level[k].id := q], settled + IdsOf(level[..k + 1]), d0 + Sum(steps[..k + 1]))
    {
      StepHopeful(c, hope, steps, k);
      PledgeNode(c, hope, n, settled + IdsOf(level[..k]), d0 + Sum(steps[..k]), level[k], q, steps[k], err);
    }
  }

  /** Something in the level, or before it, went wrong. */
  ghost predicate LevelHopeless(c: Pass, d0: Events, steps: seq<Events>) {
    forall hope :: !(Hopeful(c, hope, d0) && Hopeful(c, hope, Sum(steps)))
  }

  lemma StepHopeful(c: Pass, hope: Hope, steps: seq<Events>, k: nat)
    requires k < |steps| && Hopeful(c, hope, Sum(steps))
    ensures Hopeful(c, hope, steps[k])
  {
    StepInSum(steps, k);
    assert forall e :: e in steps[k] ==> e in Sum(steps);
  }

  lemma Regrouped(level: seq<Node>, settled: set<Id>, d0: Events, steps: seq<Events>, k: nat)
    requires k < |level| && k < |steps|
    ensures settled + IdsOf(level[..k]) + {level[k].id} == settled + IdsOf(level[..k + 1])
    ensures d0 + Sum(steps[..k]) + steps[k] == d0 + Sum(steps[..k + 1])
  {
    IdsOfPrefix(level, k);
    SumNext(steps, k);
    assert d0 + Sum(steps[..k]) + steps[k] == d0 + (Sum(steps[..k]) + steps[k]);
  }

  /** Copies one result into the shared state and writes it to the sink. */
  method MergeOne(r: LevelResult, state: RunState, sink: bool) returns (ok: bool, ghost d: Events)
    modifies state`nodes, state`outputs, state`log
    ensures Grew(old(state.log), state.log, d)
    ensures d == multiset{} || d == multiset{Event.Emit(ok)}
    ensures !ok ==> d == multiset{Event.Emit(false)}
    ensures state.nodes == old(state.nodes)[r.node.id := StatusOf(r.state.nodes, r.node.id)]
    ensures state.outputs ==
      if r.node.id in r.state.outputs then old(state.outputs)[r.node.id := r.state.outputs[r.node.id]] else old(state.outputs)
  {
    state.SetStatus(r.node.id, StatusOf(r.state.nodes, r.node.id));
    if r.node.id in r.state.outputs {
      state.outputs := state.outputs[r.node.id := r.state.outputs[r.node.id]];
    }
    ok, d := state.Emit(sink);
  }

  ghost predicate EmitsOnly(d: Events) {
    forall e :: e in d ==> e.Emit?
  }

  /** The merge loop's invariant. */
  ghost predicate MergeInv(c: Pass, base: Snapshot, level: seq<Node>, settled: set<Id>, n: Statuses, d0: Events,
                           results: seq<LevelResult>, steps: seq<Events>, k: nat) {
    var inv := k <= |level| == |results| == |steps|
      && Merged(c, base, level, settled, n, k)
      && MergeKeeps(c, level, settled, n, d0, steps, k)
      && (LevelHopeless(c, d0, steps) || forall i :: 0 <= i < k ==> results[i].err == NoError);
    inv
  }

  lemma MergeStep(c: Pass, base: Snapshot, level: seq<Node>, settled: set<Id>, n: Statuses, d0: Events,
                  results: seq<LevelResult>, steps: seq<Events>, k: nat)
    requires Runnable(c, level, settled) && MergeInv(c, base, level, settled, n, d0, results, steps, k) && k < |level|
    requires ResultOk(c.doc, base, level[k], results[k], steps[k])
    ensures MergeInv(c, base, level, settled, n[level[k].id := StatusOf(results[k].state.nodes, level[k].id)], d0, results, steps, k + 1)
    ensures Dormant(c.g, c.resumed, n[level[k].id := StatusOf(results[k].state.nodes, level[k].id)])
  {
    var q := StatusOf(results[k].state.nodes, level[k].id);
    MergeNext(c, base, level, settled, n, k, q, steps[k], results[k].err);
    PledgeNext(c, base, level, settled, n, d0, steps, k, q, results[k].err);
  }

  lemma MergeStart(c: Pass, base: Snapshot, level: seq<Node>, settled: set<Id>, d0: Events,
                   results: seq<LevelResult>, steps: seq<Events>)
    requires |level| == |results| == |steps|
    requires StatusBook(c, base.nodes, settled) && HopeBook(c, base.nodes, settled, d0)
    ensures MergeInv(c, base, level, settled, base.nodes, d0, results, steps, 0)
  {
    assert settled + IdsOf(level[..0]) == settled && d0 + Sum(steps[..0]) == d0;
  }

  /** Merges the results in level order; a failing sink ends the level. */
  method MergeResults(level: seq<Node>, results: seq<LevelResult>, state: RunState, sink: bool,
                      ghost c: Pass, ghost base: Snapshot, ghost settled: set<Id>, ghost d0: Events, ghost steps: seq<Events>)
    returns (ok: bool, ghost d: Events)
    requires Runnable(c, level, settled) && ResultsOk(c.doc, base, level, results, steps)
    requires MergeInv(c, base, level, settled, state.nodes, d0, results, steps, 0) && Dormant(c.g, c.resumed, state.nodes)
    modifies state`nodes, state`outputs, state`log
    ensures Grew(old(state.log), state.log, d) && EmitsOnly(d)
    ensures Dormant(c.g, c.resumed, state.nodes)
    ensures ok ==> MergeInv(c, base, level, settled, state.nodes, d0, results, steps, |level|)
    ensures !ok ==> Event.Emit(false) in d
    ensures ok ==> OutputsMerged(results, state.outputs)
  {
    d := multiset{};
    for i := 0 to |results|
      invariant Grew(old(state.log), state.log, d) && EmitsOnly(d)
      invariant OutputsMerged(results[..i], state.outputs)
      invariant MergeInv(c, base, level, settled, state.nodes, d0, results, steps, i)
      invariant Dormant(c.g, c.resumed, state.nodes)
    {
      assert ResultOk(c.doc, base, level[i], results[i], steps[i]);
      MergeStep(c, base, level, settled, state.nodes, d0, results, steps, i);
      ghost var emits: Events;
      ghost var outputs := state.outputs;
      ok, emits := MergeOne(results[i], state, sink);
      MergedNext(c, base, level, settled, results, steps, i, outputs, state.outputs);
      d := d + emits;
      if !ok {
        return;
      }
    }
    assert results[..|results|] == results;
    ok := true;
  }

  /** Every output of a clone is in the shared state. */
  ghost predicate OutputsMerged(results: seq<LevelResult>, outputs: map<Id, Value>) {
    forall i {:trigger results[i]} :: 0 <= i < |results| && results[i].node.id in results[i].state.outputs ==>
      results[i].node.id in outputs && outputs[results[i].node.id] == results[i].state.outputs[results[i].node.id]
  }

  lemma MergedNext(c: Pass, base: Snapshot, level: seq<Node>, settled: set<Id>, results: seq<LevelResult>, steps: seq<Events>, i: nat,
                   o0: map<Id, Value>, o1: map<Id, Value>)
    requires LevelOk(c.g, level, settled) && ResultsOk(c.doc, base, level, results, steps) && i < |results| && OutputsMerged(results[..i], o0)
    requires o1 == if results[i].node.id in results[i].state.outputs then o0[results[i].node.id := results[i].state.outputs[results[i].node.id]] else o0
    ensures OutputsMerged(results[..i + 1], o1)
  {
    assert ResultOk(c.doc, base, level[i], results[i], steps[i]);
    forall k | 0 <= k < i ensures results[k].node.id != results[i].node.id {
      assert ResultOk(c.doc, base, level[k], results[k], steps[k]);
    }
    forall k | 0 <= k < i ensures results[..i][k] == results[k] && results[..i + 1][k] == results[k] { }
  }

  /** The first error, in level order, of a node that does not tolerate failure. */
  method FirstError(results: seq<LevelResult>) returns (err: Outcome)
    ensures err == NoError <==> forall i :: 0 <= i < |results| ==> results[i].err == NoError || results[i].node.continueOnFailure
    ensures err != NoError ==> exists i :: 0 <= i < |results| && results[i].err == err && !results[i].node.continueOnFailure
  {
    for i := 0 to |results|
      invariant forall k :: 0 <= k < i ==> results[k].err == NoError || results[k].node.continueOnFailure
    {
      if results[i].err != NoError && !results[i].node.continueOnFailure {
        return results[i].err;
      }
    }
    err := NoError;
  }

  /** The books after a concurrent level whose results were all merged. */
  lemma LevelMerged(c: Pass, base: Snapshot, level: seq<Node>, settled: set<Id>, n: Statuses, d0: Events,
                    results: seq<LevelResult>, steps: seq<Events>, emits: Events)
    requires MergeInv(c, base, level, settled, n, d0, results, steps, |level|)
    requires EventBook(c, d0 + Sum(steps), settled + IdsOf(level)) && EmitsOnly(emits)
    ensures PassInv(c, n, d0 + (Sum(steps) + emits), settled + IdsOf(level))
    ensures Hopeless(c, d0 + (Sum(steps) + emits)) || forall i :: 0 <= i < |results| ==> results[i].err == NoError
  {
    assert level[..|level|] == level && steps[..|steps|] == steps;
    EmitsKeepBook(c, d0 + Sum(steps), emits, settled + IdsOf(level));
    assert d0 + Sum(steps) + emits == d0 + (Sum(steps) + emits);
    EmitsKeepHopes(c, n, settled + IdsOf(level), d0, Sum(steps), emits);
  }

  lemma EmitsKeepHopes(c: Pass, n: Statuses, settled: set<Id>, d0: Events, work: Events, emits: Events)
    requires EmitsOnly(emits)
    requires forall hope :: Hopeful(c, hope, d0) && Hopeful(c, hope, work) ==> Pledge(c, hope, n, settled, d0 + work)
    ensures HopeBook(c, n, settled, d0 + (work + emits))
    ensures forall hope :: Hopeful(c, hope, d0 + (work + emits)) ==> Hopeful(c, hope, d0) && Hopeful(c, hope, work)
  {
    HopefulParts(c, d0, work + emits);
    HopefulParts(c, work, emits);
    forall hope | Hopeful(c, hope, d0 + (work + emits)) ensures Pledge(c, hope, n, settled, d0 + (work + emits)) {
      assert forall e :: e in d0 + (work + emits) ==> e in d0 + work || e in emits;
    }
  }

  lemma EmitsKeepBook(c: Pass, d: Events, emits: Events, touched: set<Id>)
    requires EventBook(c, d, touched) && EmitsOnly(emits)
    ensures EventBook(c, d + emits, touched)
  {
    forall e | e in d + emits ensures PassEvent(e, touched) { if e in d { assert PassEvent(e, touched); } }
    forall x | x in touched ensures BudgetRule(c.doc, c.g[x], d + emits) {
      assert forall kind, ok :: Call(c.g[x].id, kind, ok) !in emits;
    }
  }

  lemma LevelCutShort(c: Pass, level: seq<Node>, settled: set<Id>, n: Statuses, d: Events)
    requires PassOk(c) && EventBook(c, d, settled + IdsOf(level)) && Dormant(c.g, c.resumed, n)
    requires Hopeless(c, d)
    ensures CutShort(c, n, d)
  {
    MeterAll(c, d, settled + IdsOf(level));
  }

  /** The faults of the first `k` clones are tolerated if each of them failed only where it may. */
  lemma {:induction false} ClonesTolerated(c: Pass, base: Snapshot, level: seq<Node>, settled: set<Id>, d0: Events, results: seq<LevelResult>, steps: seq<Events>, k: nat)
    requires LevelOk(c.g, level, settled) && ResultsOk(c.doc, base, level, results, steps) && k <= |results| && Tolerated(c.g, d0)
    requires forall i :: 0 <= i < |results| ==> results[i].err == NoError || results[i].node.continueOnFailure
    ensures Tolerated(c.g, d0 + Sum(steps[..k]))
  {
    if k == 0 {
      assert Sum(steps[..0]) == multiset{} && d0 + multiset{} == d0;
    } else {
      ClonesTolerated(c, base, level, settled, d0, results, steps, k - 1);
      assert ResultOk(c.doc, base, level[k - 1], results[k - 1], steps[k - 1]);
      CloneFaults(c, base, level[k - 1], results[k - 1], steps[k - 1]);
      ToleratedNext(c.g, d0 + Sum(steps[..k - 1]), level[k - 1], steps[k - 1], results[k - 1].err);
      SumNext(steps, k - 1);
      assert d0 + Sum(steps[..k - 1]) + steps[k - 1] == d0 + Sum(steps[..k]);
    }
  }

  lemma CloneFaults(c: Pass, base: Snapshot, node: Node, r: LevelResult, step: Events)
    requires ResultOk(c.doc, base, node, r, step)
    ensures FaultsOf(node, step, r.err) && r.node == node && r.err != WaitReached
  {
    EffectFaults(c.doc, node, base.nodes, StatusOf(r.state.nodes, node.id), step, r.err);
  }

  /** What the end of a concurrent level says about the faults in it. */
  lemma LevelFaults(c: Pass, base: Snapshot, level: seq<Node>, settled: set<Id>, d0: Events, results: seq<LevelResult>, steps: seq<Events>, emits: Events, ok: bool, err: Outcome)
    requires LevelOk(c.g, level, settled) && ResultsOk(c.doc, base, level, results, steps) && |results| == |level| && Tolerated(c.g, d0) && EmitsOnly(emits)
    requires !ok ==> Event.Emit(false) in emits && err == Failure
    requires ok && err == NoError ==> forall i :: 0 <= i < |results| ==> results[i].err == NoError || results[i].node.continueOnFailure
    requires ok && err != NoError ==> exists i :: 0 <= i < |results| && results[i].err == err && !results[i].node.continueOnFailure
    ensures err == NoError ==> Tolerated(c.g, d0 + (Sum(steps) + emits))
    ensures err == Failure ==> LevelBroken(level, d0 + (Sum(steps) + emits))
  {
    var d := d0 + (Sum(steps) + emits);
    if !ok {
      assert Event.Emit(false) in d;
    } else if err == NoError {
      ClonesTolerated(c, base, level, settled, d0, results, steps, |level|);
      assert steps[..|steps|] == steps;
      forall x | Fault(x) in d ensures Fault(x) in d0 + Sum(steps) { assert Fault(x) !in emits; }
    } else {
      var i :| 0 <= i < |results| && results[i].err == err && !results[i].node.continueOnFailure;
      assert ResultOk(c.doc, base, level[i], results[i], steps[i]);
      CloneFaults(c, base, level[i], results[i], steps[i]);
      StepInSum(steps, i);
      assert FatalAt(level, d, i);
    }
  }

  /** The concurrent branch of `runLevel`. */
  method RunConcurrent(doc: Document, level: seq<Node>, state: RunState, sink: bool,
                       ghost c: Pass, ghost d0: Events, ghost settled: set<Id>)
    returns (err: Outcome, ghost d: Events)
    requires c.doc == doc && Runnable(c, level, settled) && PassInv(c, state.nodes, d0, settled)
    requires (forall i :: 0 <= i < |level| ==> level[i].wait.None?) && Tolerated(c.g, d0)
    modifies state
    ensures Grew(old(state.log), state.log, d)
    ensures state.status == old(state.status) && state.wait == old(state.wait)
    ensures err == NoError ==> Tolerated(c.g, d0 + d)
    ensures err == Failure ==> LevelBroken(level, d0 + d)
    ensures err == NoError ==> PassInv(c, state.nodes, d0 + d, settled + IdsOf(level))
    ensures err != NoError ==> err == Failure && CutShort(c, state.nodes, d0 + d)
  {
    ghost var base := state.Now();
    var results, steps := DispatchClones(doc, level, state, c, d0, settled);
    var ok, emits := MergeResults(level, results, state, sink, c, base, settled, d0, steps);
    d := Sum(steps) + emits;
    err := FinishLevel(level, results, ok, c, base, settled, state.nodes, d0, steps, emits);
  }

  /** Runs all clones to completion; only the tool log of the shared state moves. */
  method DispatchClones(doc: Document, level: seq<Node>, state: RunState, ghost c: Pass, ghost d0: Events, ghost settled: set<Id>)
    returns (results: seq<LevelResult>, ghost steps: seq<Events>)
    requires c.doc == doc && Runnable(c, level, settled) && PassInv(c, state.nodes, d0, settled)
    requires forall i :: 0 <= i < |level| ==> level[i].wait.None?
    modifies state`log
    ensures Grew(old(state.log), state.log, Sum(steps))
    ensures ResultsOk(doc, old(state.Now()), level, results, steps) && |results| == |level|
    ensures EventBook(c, d0 + Sum(steps), settled + IdsOf(level))
    ensures MergeInv(c, old(state.Now()), level, settled, state.nodes, d0, results, steps, 0)
  {
    var base := state.Now();
    results, steps := RunClones(doc, level, base);
    ResultsGrew(doc, base, level, results, steps);
    var woven := WeaveAll(base.log, results, steps);
    state.log := state.log + woven;
    CloneEvents(c, base, settled, d0, level, results, steps, |level|);
    assert level[..|level|] == level && steps[..|steps|] == steps;
    MergeStart(c, base, level, settled, d0, results, steps);
  }

  method FinishLevel(level: seq<Node>, results: seq<LevelResult>, ok: bool, ghost c: Pass, ghost base: Snapshot,
                     ghost settled: set<Id>, ghost n: Statuses, ghost d0: Events, ghost steps: seq<Events>, ghost emits: Events)
    returns (err: Outcome)
    requires Runnable(c, level, settled) && ResultsOk(c.doc, base, level, results, steps) && |results| == |level| && Tolerated(c.g, d0)
    requires EventBook(c, d0 + Sum(steps), settled + IdsOf(level)) && EmitsOnly(emits)
    requires Dormant(c.g, c.resumed, n)
    requires ok ==> MergeInv(c, base, level, settled, n, d0, results, steps, |level|)
    requires !ok ==> Event.Emit(false) in emits
    ensures err == NoError ==> Tolerated(c.g, d0 + (Sum(steps) + emits))
    ensures err == Failure ==> LevelBroken(level, d0 + (Sum(steps) + emits))
    ensures err == NoError ==> PassInv(c, n, d0 + (Sum(steps) + emits), settled + IdsOf(level))
    ensures err != NoError ==> err == Failure && CutShort(c, n, d0 + (Sum(steps) + emits))
  {
    EmitsKeepBook(c, d0 + Sum(steps), emits, settled + IdsOf(level));
    assert d0 + Sum(steps) + emits == d0 + (Sum(steps) + emits);
    if !ok {
      assert Event.Emit(false) in d0 + (Sum(steps) + emits);
      LevelCutShort(c, level, settled, n, d0 + (Sum(steps) + emits));
      LevelFaults(c, base, level, settled, d0, results, steps, emits, ok, Failure);
      return Failure;
    }
    LevelMerged(c, base, level, settled, n, d0, results, steps, emits);
    err := FirstError(results);
    LevelFaults(c, base, level, settled, d0, results, steps, emits, ok, err);
    if err != NoError {
      ghost var i :| 0 <= i < |results| && results[i].err == err;
      assert ResultOk(c.doc, base, level[i], results[i], steps[i]);
      LevelCutShort(c, level, settled, n, d0 + (Sum(steps) + emits));
    }
  }

  /** `runLevel` */
  method RunLevel(doc: Document, level: seq<Node>, state: RunState, sink: bool,
                  ghost c: Pass, ghost d0: Events, ghost settled: set<Id>)
    returns (err: Outcome, ghost d: Events)
    requires c.doc == doc && Runnable(c, level, settled) && PassInv(c, state.nodes, d0, settled) && Tolerated(c.g, d0)
    modifies state
    ensures Grew(old(state.log), state.log, d)
    ensures err == NoError ==> Tolerated(c.g, d0 + d)
    ensures err == Failure ==> LevelBroken(level, d0 + d)
    ensures err == NoError ==> PassInv(c, state.nodes, d0 + d, settled + IdsOf(level))
    ensures err == NoError ==> state.status == old(state.status) && state.wait == old(state.wait)
    ensures err != NoError ==> CutShort(c, state.nodes, d0 + d)
    ensures err == WaitReached ==> Fenced(c, state.status, state.wait)
  {
    var holdsWait := exists i :: 0 <= i < |level| && level[i].wait.Some?;
    var limit := if doc.maxConcurrency <= 0 then |level| else doc.maxConcurrency;
    if holdsWait {
      err, d := RunSerial(doc, level, state, sink, false, c, d0, settled);
    } else if limit <= 1 || |level| <= 1 {
      err, d := RunSerial(doc, level, state, sink, true, c, d0, settled);
    } else {
      err, d := RunConcurrent(doc, level, state, sink, c, d0, settled);
    }
  }
}
