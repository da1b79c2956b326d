/**
 What the plan runner does to a run, stated on values: the statuses of the nodes and the
 multiset of things that happened (calls to tools, readiness checks, writes to the sink).
 The methods of `Runner` are proved to refine these relations; the theorems about whole
 passes, runs and histories are lemmas about them.
 */
module RunSpec {
  import opened PlanTypes
  import Graph

  /** `Unset` is the zero status a Go map yields for a node it does not hold. */
  datatype Status =
    | Unset | Pending | Skipped | Satisfied | Applied | Failed | Unknown
    | Compensated | CompensationFailed | Waiting | Expired

  datatype RunStatus = NotStarted | Running | RunWaiting | RunExpired | Completed | RunFailed | RunUnknown

  /** The durable resume fence; `open` while its own status is still waiting. */
  datatype WaitState = WaitState(node: Id, revision: int, schemaRevision: string, trigger: string, open: bool)

  datatype CallKind = ActionCall | RecoverCall | CompensateCall

  datatype Verdict = Ready | NotReady | Errored

  /** Everything the outside world sees or answers. */
  datatype Event =
    | Call(node: Id, kind: CallKind, ok: bool)   // an action, recovery or compensation tool was dispatched
    | Check(node: Id, verdict: Verdict)          // the node's validation block, before its action
    | Confirm(node: Id, verdict: Verdict)        // the same block after the action, a recovery or a pass
    | FanOut(node: Id, items: nat)               // the items of a fan-out were resolved
    | Selected(node: Id)                         // an item passed the filter of the fan-out
    | Filtered(node: Id)                         // an item did not
    | Cancelled(node: Id)                        // the context was found cancelled before the node
    | Excluded(node: Id)                         // the node's `when` conditions did not hold
    | Rejected(node: Id)                         // the node was stopped otherwise: arguments, schema, output or deadline
    | Fault(node: Id)                            // running the node returned an error
    | PassBegun                                  // a pass over the levels began
    | Unresolved(node: Id)                       // compensation arguments did not interpolate
    | Emit(ok: bool)                             // a state was written to the sink
    | Resume(node: Id, ok: bool)                 // an accepted resume was written to the sink

  datatype Outcome = NoError | WaitReached | Failure

  type Statuses = map<Id, Status>
  type Events = multiset<Event>

  function StatusOf(nodes: Statuses, id: Id): Status {
    if id in nodes then nodes[id] else Unset
  }

  // ---------------------------------------------------------------- source predicates

  predicate Blocks(status: Status) {
    status in {Failed, Unknown, Skipped, CompensationFailed, Waiting, Expired}
  }

  predicate Done(status: Status) {
    status in {Applied, Satisfied}
  }

  /** `blockedByDependency` */
  predicate Blocked(node: Node, nodes: Statuses) {
    exists i :: 0 <= i < |node.dependsOn| && Blocks(StatusOf(nodes, node.dependsOn[i]))
  }

  /** `dependencyApplied` */
  predicate DependencyApplied(node: Node, nodes: Statuses) {
    exists i :: 0 <= i < |node.dependsOn| && StatusOf(nodes, node.dependsOn[i]) == Applied
  }

  /** `attemptsFor` */
  function Attempts(node: Node, doc: Document): (n: nat)
    ensures n >= 1
  {
    if node.maxAttempts > 0 then node.maxAttempts
    else if doc.defaultMaxAttempts > 0 then doc.defaultMaxAttempts
    else 1
  }

  function RecoveryAttempts(node: Node): nat {
    if node.recover.None? then 0
    else if node.recover.value.maxAttempts <= 0 then 1
    else node.recover.value.maxAttempts
  }

  /** The number of items a node may fan out to. */
  function Fan(node: Node): (n: nat)
    ensures n >= 1
  {
    if node.forEach.Some? then MAX_FAN_OUT else 1
  }

  function PassLimit(doc: Document): (n: nat)
    ensures n >= 1
  {
    if doc.convergeMaxPasses > 0 then doc.convergeMaxPasses
    else if doc.defaultMaxPasses > 0 then doc.defaultMaxPasses
    else 1
  }

  function Weight(node: Node, doc: Document): nat {
    Fan(node) * (Attempts(node, doc) + RecoveryAttempts(node))
  }

  function TotalWeight(nodes: seq<Node>, doc: Document): nat {
    if nodes == [] then 0 else TotalWeight(nodes[..|nodes| - 1], doc) + Weight(nodes[|nodes| - 1], doc)
  }

  ghost predicate NodeShapeOk(node: Node) {
    && (node.action.Some? || node.wait.Some? || node.validate.Some? || node.forEach.Some?)
    && (node.wait.Some? ==>
      node.action.None? && node.validate.None? && node.recover.None? && node.compensate.None? && node.forEach.None?)
    && (node.forEach.Some? ==> node.action.Some?)
    && 0 <= node.maxAttempts <= MAX_TOTAL_ATTEMPTS
    && (node.recover.Some? ==> 0 <= node.recover.value.maxAttempts <= MAX_TOTAL_ATTEMPTS)
  }

  ghost predicate PolicyOk(doc: Document) {
    && 0 < |doc.nodes| <= MAX_NODES
    && doc.convergeMaxPasses >= 0 && doc.defaultMaxPasses >= 0
    && PassLimit(doc) <= MAX_PASSES
    && 0 <= doc.maxConcurrency <= MAX_FAN_OUT
    && 0 <= doc.defaultMaxAttempts <= MAX_TOTAL_ATTEMPTS
  }

  /** The structural part of `Validate`: shape, graph and attempt budget. */
  ghost predicate Accepted(doc: Document) {
    && PolicyOk(doc)
    && Graph.WellFormed(doc.nodes) && Graph.Acyclic(NodeMap(doc.nodes))
    && (forall i :: 0 <= i < |doc.nodes| ==> NodeShapeOk(doc.nodes[i]))
    && TotalWeight(doc.nodes, doc) <= MAX_TOTAL_ATTEMPTS
  }

  // ---------------------------------------------------------------- counting events

  function Calls(d: Events, id: Id, kind: CallKind): nat {
    d[Call(id, kind, true)] + d[Call(id, kind, false)]
  }

  predicate IsWork(e: Event) {
    e.Call? || e.Check? || e.Confirm?
  }

  /** Neither a call nor a failure short of one: an observation or a write. */
  predicate Passive(e: Event) {
    !e.Call? && !e.Rejected? && !e.FanOut? && !e.Selected? && !e.Filtered? && !e.Fault?
  }

  /** Events a node's own execution may add. */
  predicate Concerns(e: Event, id: Id) {
    match e
    case Call(n, kind, _) => n == id && kind != CompensateCall
    case Check(n, _) => n == id
    case Confirm(n, _) => n == id
    case FanOut(n, _) => n == id
    case Selected(n) => n == id
    case Filtered(n) => n == id
    case Cancelled(n) => n == id
    case Excluded(n) => n == id
    case Rejected(n) => n == id
    case Fault(n) => n == id
    case Emit(_) => true
    case _ => false
  }

  ghost predicate Only(d: Events, id: Id) {
    forall e :: e in d ==> Concerns(e, id)
  }

  /** No action and no recovery. */
  ghost predicate NoCalls(d: Events, id: Id) {
    Calls(d, id, ActionCall) == 0 && Calls(d, id, RecoverCall) == 0
  }

  /** No tool of any kind. */
  ghost predicate NoWork(d: Events, id: Id) {
    && NoCalls(d, id)
    && Check(id, Ready) !in d && Check(id, NotReady) !in d && Check(id, Errored) !in d
    && Confirm(id, Ready) !in d && Confirm(id, NotReady) !in d && Confirm(id, Errored) !in d
  }

  /** Every answer the node got was favourable. */
  ghost predicate Benign(d: Events, id: Id) {
    && Cancelled(id) !in d && Excluded(id) !in d
    && Check(id, NotReady) !in d && Check(id, Errored) !in d
    && Confirm(id, NotReady) !in d && Confirm(id, Errored) !in d
    && Emit(false) !in d
  }

  ghost predicate SameElsewhere(n0: Statuses, n1: Statuses, id: Id) {
    n1 == n0[id := StatusOf(n1, id)]
  }

  // ---------------------------------------------------------------- one node, one pass

  /** A blocked node does nothing and stays blocked for its own dependents. */
  ghost predicate GateRule(node: Node, n0: Statuses, q: Status, d: Events, err: Outcome) {
    Blocked(node, n0) ==>
      && NoWork(d, node.id)
      && (q == Skipped || q == Unknown)
      && (q == Skipped ==> err == if node.continueOnFailure then NoError else Failure)
      && (q == Unknown ==> err == Failure && Cancelled(node.id) in d)
  }

  /** A wait node never touches a tool and is not passed unless it was resumed before. */
  ghost predicate WaitRule(node: Node, n0: Statuses, q: Status, d: Events, err: Outcome) {
    && (node.wait.Some? ==>
      && NoWork(d, node.id)
      && (err == NoError ==> q == Skipped || q == Satisfied)
      && (Done(q) ==> q == Satisfied && Done(StatusOf(n0, node.id)) && err == NoError)
      && (err == WaitReached ==> q == Waiting && !Blocked(node, n0)))
    && (node.wait.None? ==> err != WaitReached)
  }

  /** No stale observation on top of a fresh mutation. */
  ghost predicate DriftRule(node: Node, n0: Statuses, q: Status) {
    q == Satisfied ==> !DependencyApplied(node, n0)
  }

  /** What certifies the items of a fan-out: passed checks, or successful calls where there is no check. */
  function Certificates(node: Node, d: Events): nat {
    if node.validate.Some? then d[Check(node.id, Ready)] + d[Confirm(node.id, Ready)] else d[Call(node.id, ActionCall, true)]
  }

  /** Every item was selected or filtered out, and every selected one has its certificate. */
  ghost predicate FannedOut(node: Node, d: Events) {
    exists items: nat :: ItemsDone(node, d, items)
  }

  ghost predicate ItemsDone(node: Node, d: Events, items: nat) {
    && items <= MAX_FAN_OUT && FanOut(node.id, items) in d
    && d[Selected(node.id)] + d[Filtered(node.id)] == items && Certificates(node, d) >= d[Selected(node.id)]
  }

  /** Something other than the answers of the node's own tools stopped it. */
  ghost predicate Hindered(d: Events, id: Id) {
    Rejected(id) in d || Cancelled(id) in d || Check(id, Errored) in d || Emit(false) in d
  }

  /** A call failed, or the node was not ready after one. */
  ghost predicate InVain(d: Events, id: Id) {
    Call(id, ActionCall, false) in d || Confirm(id, NotReady) in d || Confirm(id, Errored) in d
  }

  /** After every successful call that did not make the node ready, all its recoveries were tried. */
  ghost predicate RecoveredFor(d: Events, id: Id, recoveries: nat) {
    Calls(d, id, RecoverCall) == d[Call(id, ActionCall, true)] * recoveries
  }

  /** Why a node that may run fails: it was hindered, or used all its attempts in vain, or has no action to offer. */
  ghost predicate FailureRule(doc: Document, node: Node, force: bool, d: Events, err: Outcome) {
    err == Failure && !Hindered(d, node.id) ==>
      && node.wait.None?
      && (node.action.Some? && node.forEach.None? ==> RecoveredFor(d, node.id, RecoveryAttempts(node)))
      && if node.action.Some? then Calls(d, node.id, ActionCall) >= Attempts(node, doc) && InVain(d, node.id)
         else Check(node.id, NotReady) in d || force
  }

  /** What giving up means in terms of the plan: the node's own number of attempts, or the plan's, or one, each with its recoveries. */
  lemma GivesUpAfter(doc: Document, node: Node, n0: Statuses, q: Status, d: Events)
    requires NodeEffect(doc, node, n0, q, d, Failure) && node.action.Some? && node.forEach.None?
    requires !Blocked(node, n0) && !Hindered(d, node.id)
    ensures var calls, recoveries := Calls(d, node.id, ActionCall), Calls(d, node.id, RecoverCall);
      && calls == (if node.maxAttempts > 0 then node.maxAttempts else if doc.defaultMaxAttempts > 0 then doc.defaultMaxAttempts else 1)
      && (node.recover.None? ==> recoveries == 0)
      && (node.recover.Some? && node.recover.value.maxAttempts > 0 ==>
        recoveries == node.recover.value.maxAttempts * d[Call(node.id, ActionCall, true)])
      && (node.recover.Some? && node.recover.value.maxAttempts <= 0 ==> recoveries == d[Call(node.id, ActionCall, true)])
  {
    assert Fan(node) * Attempts(node, doc) == Attempts(node, doc);
  }

  /** What each successful status certifies. */
  ghost predicate OutcomeRule(node: Node, n0: Statuses, q: Status, d: Events, err: Outcome) {
    && (err == NoError ==> q == Skipped || q == Satisfied || q == Applied)
    && (q == Satisfied && err == NoError ==>
      && NoCalls(d, node.id)
      && (if node.validate.Some? then Check(node.id, Ready) in d else Done(StatusOf(n0, node.id))))
    && (q == Applied && err == NoError ==> node.action.Some?)
    && (q == Applied && err == NoError && node.forEach.None? ==>
      && Call(node.id, ActionCall, true) in d
      && (node.validate.Some? ==> Confirm(node.id, Ready) in d))
    && (q == Applied && err == NoError && node.forEach.Some? ==> FannedOut(node, d))
    && (q == Skipped ==> NoWork(d, node.id) && (Blocked(node, n0) || Excluded(node.id) in d))
    && (Excluded(node.id) in d ==> node.hasWhen && q == Skipped && err == NoError)
  }

  ghost predicate BudgetRule(doc: Document, node: Node, d: Events) {
    && Calls(d, node.id, ActionCall) <= Fan(node) * Attempts(node, doc)
    && Calls(d, node.id, RecoverCall) <= Fan(node) * (Attempts(node, doc) * RecoveryAttempts(node))
  }

  /** Without a mutated dependency an action runs only after a readiness check that failed. */
  ghost predicate CauseRule(node: Node, n0: Statuses, d: Events) {
    !DependencyApplied(node, n0) && node.validate.Some? && Calls(d, node.id, ActionCall) > 0 ==>
      Check(node.id, NotReady) in d || Check(node.id, Errored) in d
  }

  /** A mutated dependency forces the action to run again. */
  ghost predicate ForceRule(node: Node, n0: Statuses, q: Status, d: Events, err: Outcome) {
    DependencyApplied(node, n0) && err == NoError && q != Skipped ==>
      && q == Applied
      && (node.forEach.None? ==> Call(node.id, ActionCall, true) in d)
  }

  /** A node that is done and stays ready is only observed. */
  ghost predicate RepeatRule(node: Node, n0: Statuses, q: Status, d: Events, err: Outcome) {
    Done(StatusOf(n0, node.id)) && !DependencyApplied(node, n0) && !Blocked(node, n0) && Benign(d, node.id) ==>
      err == NoError && q == Satisfied && forall e :: e in d ==> Passive(e)
  }

  /** From statuses `n0`, running the node ends in status `q` having caused the events `d`. */
  ghost predicate NodeEffect(doc: Document, node: Node, n0: Statuses, q: Status, d: Events, err: Outcome) {
    var effect := NodeRules(doc, node, n0, q, d, err) && (Fault(node.id) in d <==> err == Failure);
    effect
  }

  ghost predicate NodeRules(doc: Document, node: Node, n0: Statuses, q: Status, d: Events, err: Outcome) {
    var rules :=
      && Only(d, node.id)
      && GateRule(node, n0, q, d, err)
      && WaitRule(node, n0, q, d, err)
      && DriftRule(node, n0, q)
      && OutcomeRule(node, n0, q, d, err)
      && BudgetRule(doc, node, d)
      && CauseRule(node, n0, d)
      && ForceRule(node, n0, q, d, err)
      && RepeatRule(node, n0, q, d, err)
      && (!Blocked(node, n0) ==> FailureRule(doc, node, DependencyApplied(node, n0), d, err));
    rules
  }
}
