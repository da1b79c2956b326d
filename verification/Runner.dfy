/**
 The plan runner. A `RunState` is updated in place; every answer of the outside world
 (dispatcher, sink, context, assertions) is an arbitrary choice recorded in the log.
 */
module Runner {
  import opened Wrappers
  import opened Choice
  import opened Json
  import opened PlanTypes
  import opened RunSpec

  datatype Snapshot = Snapshot(
    status: RunStatus,
    nodes: Statuses,
    outputs: map<Id, Value>,
    wait: Option<WaitState>,
    log: seq<Event>
  )

  class RunState {
    var status: RunStatus
    var nodes: Statuses
    var outputs: map<Id, Value>
    var wait: Option<WaitState>
    var log: seq<Event>

    /** `cloneRunState`; also how a stored state is loaded. */
    constructor (view: Snapshot)
      ensures Now() == view
    {
      status, nodes, outputs, wait, log := view.status, view.nodes, view.outputs, view.wait, view.log;
    }

    function Now(): Snapshot
      reads this
    {
      Snapshot(status, nodes, outputs, wait, log)
    }

    /** Continues from a stored state. */
    method Load(view: Snapshot)
      modifies this
      ensures Now() == view
    {
      status, nodes, outputs, wait, log := view.status, view.nodes, view.outputs, view.wait, view.log;
    }

    method Record(e: Event)
      modifies this`log
      ensures Grew(old(log), log, multiset{e})
    {
      log := log + [e];
    }

    /** Writes the state to the sink, if there is one. */
    method Emit(sink: bool) returns (ok: bool, ghost d: Events)
      modifies this`log
      ensures d == if sink then multiset{Event.Emit(ok)} else multiset{}
      ensures Grew(old(log), log, d)
      ensures !sink ==> ok
    {
      if !sink {
        return true, multiset{};
      }
      ok := *;
      Record(Event.Emit(ok));
      d := multiset{Event.Emit(ok)};
    }

    method SetStatus(id: Id, status: Status)
      modifies this`nodes
      ensures nodes == old(nodes)[id := status]
    {
      nodes := nodes[id := status];
    }
  }

  method AnyOutput() returns (v: Value) {
    v := *;
  }

  /** What happened since an earlier log. */
  ghost predicate Grew(before: seq<Event>, after: seq<Event>, d: Events) {
    before <= after && multiset(after) == multiset(before) + d
  }

  /** The new events are exactly the part of the log after the old one. */
  lemma NewPart(before: seq<Event>, after: seq<Event>, d: Events)
    requires Grew(before, after, d)
    ensures multiset(after[|before|..]) == d
    ensures forall i :: |before| <= i < |after| ==> after[i] in d
  {
    var added := after[|before|..];
    assert after == before + added;
    forall e ensures multiset(added)[e] == d[e] {
      assert multiset(after)[e] == multiset(before)[e] + multiset(added)[e];
    }
    forall i | |before| <= i < |after| ensures after[i] in d {
      assert added[i - |before|] == after[i];
      assert after[i] in multiset(added);
    }
  }

  lemma GrewOn(a: seq<Event>, b: seq<Event>, c: seq<Event>, d: Events, e: Events)
    requires Grew(a, b, d) && Grew(b, c, e)
    ensures Grew(a, c, d + e)
  {
  }

  // ---------------------------------------------------------------- readiness

  /** A readiness check before the action, or one that confirms what was done. */
  function Observation(id: Id, verdict: Verdict, confirm: bool): Event {
    if confirm then Confirm(id, verdict) else Check(id, verdict)
  }

  /** `validateNode`: one dispatch of the validation tool and its assertions. */
  method CheckOnce(node: Node, state: RunState, confirm: bool) returns (verdict: Verdict)
    requires node.validate.Some?
    modifies state`log
    ensures Grew(old(state.log), state.log, multiset{Observation(node.id, verdict, confirm)})
  {
    verdict := *;
    state.Record(Observation(node.id, verdict, confirm));
  }

  /** Readiness checks of one node and nothing else, the last one with this verdict. */
  ghost predicate Polled(d: Events, id: Id, verdict: Verdict, confirm: bool) {
    && (forall e :: e in d ==> (if confirm then e.Confirm? else e.Check?) && e.node == id)
    && Observation(id, verdict, confirm) in d
  }

  ghost predicate Checked(d: Events, id: Id, verdict: Verdict) {
    Polled(d, id, verdict, false)
  }

  /** `validateNodeReady`: one check, then bounded polling when the block has a timeout. */
  method PollReady(node: Node, state: RunState, confirm: bool) returns (verdict: Verdict, ghost d: Events)
    requires node.validate.Some?
    modifies state`log
    ensures Grew(old(state.log), state.log, d) && Polled(d, node.id, verdict, confirm)
  {
    verdict := CheckOnce(node, state, confirm);
    d := multiset{Observation(node.id, verdict, confirm)};
    if verdict != NotReady || node.validate.value.timeoutMs <= 0 {
      return;
    }
    var ticks: nat :| 0 <= ticks;
    for tick := 0 to ticks
      invariant Grew(old(state.log), state.log, d) && Polled(d, node.id, verdict, confirm) && verdict == NotReady
    {
      verdict := CheckOnce(node, state, confirm);
      d := d + multiset{Observation(node.id, verdict, confirm)};
      if verdict != NotReady {
        return;
      }
    }
  }

  // ---------------------------------------------------------------- executing an action

  ghost predicate OutputsElsewhere(o0: map<Id, Value>, o1: map<Id, Value>, id: Id) {
    o1 - {id} == o0 - {id}
  }

  /** Events of running a node once it was decided to run it. */
  ghost predicate Load(d: Events, id: Id, actions: nat, recoveries: nat) {
    var load := Only(d, id) && Cancelled(id) !in d && Excluded(id) !in d && Fault(id) !in d
      && Calls(d, id, ActionCall) <= actions && Calls(d, id, RecoverCall) <= recoveries;
    load
  }

  /** The same without the bookkeeping of a fan-out. */
  ghost predicate Work(d: Events, id: Id, actions: nat, recoveries: nat) {
    var work := Load(d, id, actions, recoveries) && Selected(id) !in d && Filtered(id) !in d;
    work
  }

  /** The node was not ready after a call. */
  ghost predicate Unready(d: Events, id: Id) {
    Confirm(id, NotReady) in d || Confirm(id, Errored) in d
  }

  datatype Recovered = Ready | StillFailing | Aborted

  /** One recovery attempt. */
  method RecoverOnce(node: Node, state: RunState, sink: bool, last: bool)
    returns (r: Recovered, more: bool, ghost d: Events)
    requires node.validate.Some? && node.recover.Some?
    modifies state`log, state`nodes
    ensures Grew(old(state.log), state.log, d) && Work(d, node.id, 0, 1)
    ensures r == Recovered.Ready ==> Confirm(node.id, Verdict.Ready) in d
    ensures r != Aborted ==> state.nodes == old(state.nodes)
    ensures state.nodes == old(state.nodes) || state.nodes == old(state.nodes)[node.id := Unknown]
    ensures !Hindered(d, node.id) ==> r != Aborted && more && Calls(d, node.id, RecoverCall) == 1
  {
    var resolved := Decide();
    var schemaOk := Decide();
    if !resolved || !schemaOk {
      state.Record(Rejected(node.id));
      return if resolved then Aborted else StillFailing, false, multiset{Rejected(node.id)};
    }
    var ok := Decide();
    state.Record(Call(node.id, RecoverCall, ok));
    d := multiset{Call(node.id, RecoverCall, ok)};
    ghost var rest: Events;
    r, rest := AfterRecovery(node, state, sink, last, ok);
    more := true;
    d := d + rest;
  }

  method AfterRecovery(node: Node, state: RunState, sink: bool, last: bool, ok: bool) returns (r: Recovered, ghost d: Events)
    requires node.validate.Some?
    modifies state`log, state`nodes
    ensures Grew(old(state.log), state.log, d) && Work(d, node.id, 0, 0)
    ensures r == Recovered.Ready ==> Confirm(node.id, Verdict.Ready) in d
    ensures r != Aborted ==> state.nodes == old(state.nodes)
    ensures state.nodes == old(state.nodes) || state.nodes == old(state.nodes)[node.id := Unknown]
    ensures r == Aborted ==> Rejected(node.id) in d
  {
    if ok {
      var verdict;
      verdict, d := PollReady(node, state, true);
      return if verdict == Verdict.Ready then Recovered.Ready else StillFailing, d;
    }
    var expired := Decide();
    if expired {
      d := Expire(node, state, sink);
      return Aborted, d;
    }
    var slept := Decide();
    if last || slept {
      return StillFailing, multiset{};
    }
    state.Record(Rejected(node.id));
    return Aborted, multiset{Rejected(node.id)};
  }

  /** The node's deadline passed while a tool was called or a backoff slept. */
  method Expire(node: Node, state: RunState, sink: bool) returns (ghost d: Events)
    modifies state`log, state`nodes
    ensures Grew(old(state.log), state.log, d) && Work(d, node.id, 0, 0) && Rejected(node.id) in d
    ensures state.nodes == old(state.nodes)[node.id := Unknown]
  {
    state.Record(Rejected(node.id));
    state.SetStatus(node.id, Unknown);
    var written;
    written, d := state.Emit(sink);
    d := multiset{Rejected(node.id)} + d;
  }

  /** The recovery loop inside one attempt. */
  method Recover(node: Node, state: RunState, sink: bool) returns (r: Recovered, ghost d: Events)
    requires node.validate.Some? && node.recover.Some?
    modifies state`log, state`nodes
    ensures Grew(old(state.log), state.log, d) && Work(d, node.id, 0, RecoveryAttempts(node))
    ensures r == Recovered.Ready ==> Confirm(node.id, Verdict.Ready) in d
    ensures r != Aborted ==> state.nodes == old(state.nodes)
    ensures state.nodes == old(state.nodes) || state.nodes == old(state.nodes)[node.id := Unknown]
    ensures !Hindered(d, node.id) ==> r != Aborted && (r == StillFailing ==> Calls(d, node.id, RecoverCall) == RecoveryAttempts(node))
  {
    var attempts := RecoveryAttempts(node);
    d := multiset{};
    for attempt := 0 to attempts
      invariant Grew(old(state.log), state.log, d) && Work(d, node.id, 0, attempt)
      invariant state.nodes == old(state.nodes)
      invariant !Hindered(d, node.id) ==> Calls(d, node.id, RecoverCall) == attempt
    {
      var outcome, more, step := RecoverOnce(node, state, sink, attempt + 1 == attempts);
      WorkAdds(d, step, node.id, 0, attempt, 0, 1);
      d := d + step;
      if outcome != StillFailing {
        return outcome, d;
      }
      if !more {
        return StillFailing, d;
      }
    }
    return StillFailing, d;
  }

  datatype Attempted = Finished(err: Outcome) | TryAgain

  /** After a failed try: back off for the next attempt, or fail the node on the last one. */
  method GiveUpOrRetry(node: Node, state: RunState, sink: bool, last: bool) returns (r: Attempted, ghost d: Events)
    modifies state`log, state`nodes
    ensures Grew(old(state.log), state.log, d) && Work(d, node.id, 0, 0)
    ensures r == TryAgain ==> state.nodes == old(state.nodes) && !last
    ensures r != TryAgain ==> r == Finished(Failure)
    ensures state.nodes == old(state.nodes) || state.nodes == old(state.nodes)[node.id := Unknown]
         || state.nodes == old(state.nodes)[node.id := Failed]
    ensures GaveUp(d, node.id, r, last, StatusOf(state.nodes, node.id))
  {
    if last {
      state.SetStatus(node.id, Failed);
      var written;
      written, d := state.Emit(sink);
      return Finished(Failure), d;
    }
    var slept := Decide();
    if slept {
      return TryAgain, multiset{};
    }
    var expired := Decide();
    if expired {
      d := Expire(node, state, sink);
    } else {
      state.Record(Rejected(node.id));
      d := multiset{Rejected(node.id)};
    }
    r := Finished(Failure);
  }

  /** Unless something hindered it, a node gives up only on its last attempt, and is then Failed. */
  ghost predicate GaveUp(d: Events, id: Id, r: Attempted, last: bool, q: Status) {
    r == Finished(Failure) && !Hindered(d, id) ==> last && q == Failed
  }

  /** Marks the node applied and reports whether the sink took it. */
  method MarkApplied(node: Node, state: RunState, sink: bool) returns (r: Attempted, ghost d: Events)
    modifies state`log, state`nodes
    ensures Grew(old(state.log), state.log, d) && Work(d, node.id, 0, 0)
    ensures state.nodes == old(state.nodes)[node.id := Applied]
    ensures r.Finished? && r.err != WaitReached && (r.err == Failure ==> Event.Emit(false) in d)
  {
    state.SetStatus(node.id, Applied);
    var written;
    written, d := state.Emit(sink);
    return Finished(if written then NoError else Failure), d;
  }

  /** The status of a node while and after its attempts, and what an attempt may return. */
  ghost predicate AttemptResult(q: Status, r: Attempted, last: bool) {
    && q in {Pending, Unknown, Failed, Applied}
    && (r == TryAgain ==> q == Pending && !last)
    && (r.Finished? ==> r.err != WaitReached)
    && (r == Finished(NoError) ==> q == Applied)
  }

  /** What follows a successful dispatch within one attempt. */
  method AfterAction(node: Node, state: RunState, sink: bool, last: bool) returns (r: Attempted, ghost d: Events)
    requires StatusOf(state.nodes, node.id) == Pending
    modifies state`log, state`nodes
    ensures Grew(old(state.log), state.log, d) && Work(d, node.id, 0, RecoveryAttempts(node))
    ensures SameElsewhere(old(state.nodes), state.nodes, node.id)
    ensures AttemptResult(StatusOf(state.nodes, node.id), r, last)
    ensures StatusOf(state.nodes, node.id) == Applied && node.validate.Some? ==> Confirm(node.id, Verdict.Ready) in d
    ensures GaveUp(d, node.id, r, last, StatusOf(state.nodes, node.id))
    ensures r != Finished(NoError) && !Hindered(d, node.id) ==> Unready(d, node.id) && Calls(d, node.id, RecoverCall) == RecoveryAttempts(node)
  {
    if node.validate.None? {
      r, d := MarkApplied(node, state, sink);
      return;
    }
    var recovered;
    recovered, d := CheckOrRecover(node, state, sink);
    ghost var rest: Events;
    match recovered {
      case Ready => r, rest := MarkApplied(node, state, sink);
      case Aborted => r, rest := Finished(Failure), multiset{};
      case StillFailing => r, rest := GiveUpOrRetry(node, state, sink, last);
    }
    WorkAdds(d, rest, node.id, 0, RecoveryAttempts(node), 0, 0);
    d := d + rest;
  }

  /** The readiness check of an attempt, with the recovery block when it does not pass. */
  method CheckOrRecover(node: Node, state: RunState, sink: bool) returns (r: Recovered, ghost d: Events)
    requires node.validate.Some? && StatusOf(state.nodes, node.id) == Pending
    modifies state`log, state`nodes
    ensures Grew(old(state.log), state.log, d) && Work(d, node.id, 0, RecoveryAttempts(node))
    ensures SameElsewhere(old(state.nodes), state.nodes, node.id)
    ensures StatusOf(state.nodes, node.id) == Pending || (r == Aborted && StatusOf(state.nodes, node.id) in {Unknown, Failed})
    ensures r == Recovered.Ready ==> Confirm(node.id, Verdict.Ready) in d
    ensures r == Aborted ==> Hindered(d, node.id)
    ensures r == StillFailing ==> Unready(d, node.id)
    ensures r == StillFailing && !Hindered(d, node.id) ==> Calls(d, node.id, RecoverCall) == RecoveryAttempts(node)
  {
    var verdict;
    verdict, d := PollReady(node, state, true);
    if verdict == Verdict.Ready {
      return Recovered.Ready, d;
    }
    r := StillFailing;
    if node.recover.Some? {
      ghost var steps: Events;
      r, steps := Recover(node, state, sink);
      WorkAdds(d, steps, node.id, 0, 0, 0, RecoveryAttempts(node));
      d := d + steps;
    }
  }

  lemma WorkAdds(a: Events, b: Events, id: Id, actions1: nat, recoveries1: nat, actions2: nat, recoveries2: nat)
    requires Work(a, id, actions1, recoveries1) && Work(b, id, actions2, recoveries2)
    ensures Work(a + b, id, actions1 + actions2, recoveries1 + recoveries2)
  {
    forall e | e in a + b ensures Concerns(e, id) { if e in a { } else { assert e in b; } }
  }

  /** One attempt: dispatch the action, record its output, check readiness, recover. */
  method AttemptOnce(node: Node, state: RunState, sink: bool, last: bool) returns (r: Attempted, ghost d: Events)
    requires node.action.Some? && StatusOf(state.nodes, node.id) == Pending
    modifies state`log, state`nodes, state`outputs
    ensures Grew(old(state.log), state.log, d)
    ensures OutputsElsewhere(old(state.outputs), state.outputs, node.id)
    ensures SameElsewhere(old(state.nodes), state.nodes, node.id)
    ensures AttemptEffect(node, d, r, last, StatusOf(state.nodes, node.id))
  {
    var written;
    written, d := state.Emit(sink);
    if !written {
      AttemptRejected(node, d, last, Pending);
      return Finished(Failure), d;
    }
    ghost var rest: Events;
    ghost var emitted := state.log;
    r, rest := PrepareAction(node, state, sink, last);
    GrewOn(old(state.log), emitted, state.log, d, rest);
    EmitThenAttempt(node, d, rest, r, last, StatusOf(state.nodes, node.id));
    d := d + rest;
  }

  /** What one attempt leaves. */
  ghost predicate AttemptEffect(node: Node, d: Events, r: Attempted, last: bool, q: Status) {
    var effect := Work(d, node.id, 1, RecoveryAttempts(node)) && AttemptResult(q, r, last)
      && (q == Applied ==> Call(node.id, ActionCall, true) in d && (node.validate.Some? ==> Confirm(node.id, Verdict.Ready) in d))
      && Persisted(d, node.id, r, last, q, RecoveryAttempts(node));
    effect
  }

  lemma EmitThenAttempt(node: Node, emits: Events, d: Events, r: Attempted, last: bool, q: Status)
    requires AttemptEffect(node, d, r, last, q) && forall e :: e in emits ==> e == Event.Emit(true)
    ensures AttemptEffect(node, emits + d, r, last, q)
  {
    assert Work(emits, node.id, 0, 0);
    WorkAdds(emits, d, node.id, 0, 0, 1, RecoveryAttempts(node));
  }

  lemma AttemptRejected(node: Node, d: Events, last: bool, q: Status)
    requires q == Pending && (d == multiset{Rejected(node.id)} || (d == multiset{Event.Emit(false)}))
    ensures AttemptEffect(node, d, Finished(Failure), last, q)
  {
  }

  /** A dispatch and what follows it make an attempt. */
  lemma CallThenRest(node: Node, ok: bool, rest: Events, r: Attempted, last: bool, q: Status)
    requires Work(rest, node.id, 0, RecoveryAttempts(node)) && AttemptResult(q, r, last) && GaveUp(rest, node.id, r, last, q)
    requires ok && q == Applied && node.validate.Some? ==> Confirm(node.id, Verdict.Ready) in rest
    requires ok && r != Finished(NoError) && !Hindered(rest, node.id) ==> Unready(rest, node.id) && Calls(rest, node.id, RecoverCall) == RecoveryAttempts(node)
    requires !ok ==> q != Applied && Calls(rest, node.id, RecoverCall) == 0
    ensures AttemptEffect(node, multiset{Call(node.id, ActionCall, ok)} + rest, r, last, q)
  {
    var call := multiset{Call(node.id, ActionCall, ok)};
    WorkAdds(call, rest, node.id, 1, 0, 0, RecoveryAttempts(node));
  }

  /** An attempt dispatches the action once, and ends the node early only if something hindered it. */
  ghost predicate Persisted(d: Events, id: Id, r: Attempted, last: bool, q: Status, recoveries: nat) {
    && GaveUp(d, id, r, last, q)
    && (!Hindered(d, id) || r == TryAgain ==> Calls(d, id, ActionCall) == 1)
    && (r != Finished(NoError) && !Hindered(d, id) ==> InVain(d, id) && RecoveredFor(d, id, recoveries))
  }

  method PrepareAction(node: Node, state: RunState, sink: bool, last: bool) returns (r: Attempted, ghost d: Events)
    requires node.action.Some? && StatusOf(state.nodes, node.id) == Pending
    modifies state`log, state`nodes, state`outputs
    ensures Grew(old(state.log), state.log, d)
    ensures OutputsElsewhere(old(state.outputs), state.outputs, node.id)
    ensures SameElsewhere(old(state.nodes), state.nodes, node.id)
    ensures AttemptEffect(node, d, r, last, StatusOf(state.nodes, node.id))
  {
    var resolved := Decide();
    var schemaOk := Decide();
    if !resolved || !schemaOk {
      state.Record(Rejected(node.id));
      AttemptRejected(node, multiset{Rejected(node.id)}, last, Pending);
      return Finished(Failure), multiset{Rejected(node.id)};
    }
    r, d := DispatchAction(node, state, sink, last);
  }

  method DispatchAction(node: Node, state: RunState, sink: bool, last: bool) returns (r: Attempted, ghost d: Events)
    requires node.action.Some? && StatusOf(state.nodes, node.id) == Pending
    modifies state`log, state`nodes, state`outputs
    ensures Grew(old(state.log), state.log, d)
    ensures OutputsElsewhere(old(state.outputs), state.outputs, node.id)
    ensures SameElsewhere(old(state.nodes), state.nodes, node.id)
    ensures AttemptEffect(node, d, r, last, StatusOf(state.nodes, node.id))
  {
    var ok := Decide();
    state.Record(Call(node.id, ActionCall, ok));
    ghost var called := state.log;
    ghost var rest: Events;
    if ok {
      r, rest := AcceptOutput(node, state, sink, last);
    } else {
      r, rest := RejectCall(node, state, sink, last);
    }
    CallThenRest(node, ok, rest, r, last, StatusOf(state.nodes, node.id));
    d := multiset{Call(node.id, ActionCall, ok)};
    GrewOn(old(state.log), called, state.log, d, rest);
    d := d + rest;
  }

  /** After a failed dispatch. */
  method RejectCall(node: Node, state: RunState, sink: bool, last: bool) returns (r: Attempted, ghost d: Events)
    requires StatusOf(state.nodes, node.id) == Pending
    modifies state`log, state`nodes
    ensures Grew(old(state.log), state.log, d) && Work(d, node.id, 0, 0)
    ensures SameElsewhere(old(state.nodes), state.nodes, node.id)
    ensures AttemptResult(StatusOf(state.nodes, node.id), r, last) && StatusOf(state.nodes, node.id) != Applied
    ensures GaveUp(d, node.id, r, last, StatusOf(state.nodes, node.id))
  {
    var expired := Decide();
    if expired {
      d := Expire(node, state, sink);
      r := Finished(Failure);
    } else {
      r, d := GiveUpOrRetry(node, state, sink, last);
    }
  }

  method AcceptOutput(node: Node, state: RunState, sink: bool, last: bool) returns (r: Attempted, ghost d: Events)
    requires StatusOf(state.nodes, node.id) == Pending
    modifies state`log, state`nodes, state`outputs
    ensures Grew(old(state.log), state.log, d) && Work(d, node.id, 0, RecoveryAttempts(node))
    ensures OutputsElsewhere(old(state.outputs), state.outputs, node.id)
    ensures SameElsewhere(old(state.nodes), state.nodes, node.id)
    ensures AttemptResult(StatusOf(state.nodes, node.id), r, last)
    ensures StatusOf(state.nodes, node.id) == Applied && node.validate.Some? ==> Confirm(node.id, Verdict.Ready) in d
    ensures GaveUp(d, node.id, r, last, StatusOf(state.nodes, node.id))
    ensures r != Finished(NoError) && !Hindered(d, node.id) ==> Unready(d, node.id) && Calls(d, node.id, RecoverCall) == RecoveryAttempts(node)
  {
    var valid := Decide();
    if !valid {
      d := Refuse(node, state, sink);
      return Finished(Failure), d;
    }
    var output := AnyOutput();
    state.outputs := state.outputs[node.id := output];
    r, d := AfterAction(node, state, sink, last);
  }

  /** The attempt loop of `runNode`. */
  method RunAttempts(doc: Document, node: Node, state: RunState, sink: bool) returns (err: Outcome, ghost d: Events)
    requires node.action.Some? && StatusOf(state.nodes, node.id) == Pending
    modifies state`log, state`nodes, state`outputs
    ensures Grew(old(state.log), state.log, d)
    ensures Work(d, node.id, Attempts(node, doc), Attempts(node, doc) * RecoveryAttempts(node))
    ensures OutputsElsewhere(old(state.outputs), state.outputs, node.id)
    ensures SameElsewhere(old(state.nodes), state.nodes, node.id)
    ensures AttemptResult(StatusOf(state.nodes, node.id), Finished(err), true)
    ensures StatusOf(state.nodes, node.id) == Applied ==>
      Call(node.id, ActionCall, true) in d && (node.validate.Some? ==> Confirm(node.id, Verdict.Ready) in d)
    ensures err == Failure && !Hindered(d, node.id) ==>
      && Calls(d, node.id, ActionCall) == Attempts(node, doc) && StatusOf(state.nodes, node.id) == Failed && InVain(d, node.id)
      && RecoveredFor(d, node.id, RecoveryAttempts(node))
  {
    var attempts := Attempts(node, doc);
    d := multiset{};
    var r := TryAgain;
    var attempt := 0;
    while attempt < attempts && r == TryAgain
      invariant 0 <= attempt <= attempts
      invariant Grew(old(state.log), state.log, d)
      invariant OutputsElsewhere(old(state.outputs), state.outputs, node.id)
      invariant SameElsewhere(old(state.nodes), state.nodes, node.id)
      invariant AttemptBook(node, d, attempt, r, attempt == attempts, StatusOf(state.nodes, node.id))
    {
      ghost var step: Events;
      ghost var before := state.log;
      r, step := AttemptOnce(node, state, sink, attempt + 1 == attempts);
      GrewOn(old(state.log), before, state.log, d, step);
      AttemptNext(node, d, attempt, step, r, attempt + 1 == attempts, StatusOf(state.nodes, node.id));
      d := d + step;
      attempt := attempt + 1;
    }
    WorkWithin(d, node.id, attempt, attempts, RecoveryAttempts(node));
    err := r.err;
  }

  /** The events and the status after some attempts. */
  ghost predicate AttemptBook(node: Node, d: Events, n: nat, r: Attempted, last: bool, q: Status) {
    var book :=
      && Work(d, node.id, n, n * RecoveryAttempts(node)) && AttemptResult(q, r, last)
      && (q == Applied ==> Call(node.id, ActionCall, true) in d && (node.validate.Some? ==> Confirm(node.id, Verdict.Ready) in d))
      && GaveUp(d, node.id, r, last, q)
      && (!Hindered(d, node.id) ==> Calls(d, node.id, ActionCall) == n)
      && (!Hindered(d, node.id) && n > 0 && r != Finished(NoError) ==> InVain(d, node.id))
      && (!Hindered(d, node.id) && r != Finished(NoError) ==> RecoveredFor(d, node.id, RecoveryAttempts(node)));
    book
  }

  lemma AttemptNext(node: Node, d: Events, n: nat, step: Events, r: Attempted, last: bool, q: Status)
    requires exists q0 :: AttemptBook(node, d, n, TryAgain, false, q0)
    requires AttemptEffect(node, step, r, last, q)
    ensures AttemptBook(node, d + step, n + 1, r, last, q)
  {
    WorkNext(d, step, node.id, n, RecoveryAttempts(node));
    if !Hindered(d + step, node.id) && r != Finished(NoError) { RecoveredNext(d, step, node.id, RecoveryAttempts(node)); }
  }

  lemma RecoveredNext(d: Events, step: Events, id: Id, recoveries: nat)
    requires RecoveredFor(d, id, recoveries) && RecoveredFor(step, id, recoveries)
    ensures RecoveredFor(d + step, id, recoveries)
  {
    var a, b := d[Call(id, ActionCall, true)], step[Call(id, ActionCall, true)];
    assert (a + b) * recoveries == a * recoveries + b * recoveries;
  }

  lemma WorkNext(d: Events, step: Events, id: Id, n: nat, k: nat)
    requires Work(d, id, n, n * k) && Work(step, id, 1, k)
    ensures Work(d + step, id, n + 1, (n + 1) * k)
  {
    assert (n + 1) * k == n * k + k;
  }

  lemma WorkWithin(d: Events, id: Id, n: nat, limit: nat, k: nat)
    requires Work(d, id, n, n * k) && n <= limit
    ensures Work(d, id, limit, limit * k)
  {
    assert limit * k == n * k + (limit - n) * k;
  }

  // ---------------------------------------------------------------- forEach

  /** `recoverForEachItem`: its errors never end the item by themselves. */
  method RecoverItem(node: Node, state: RunState) returns (recovered: bool, ghost d: Events)
    requires node.validate.Some? && node.recover.Some?
    modifies state`log
    ensures Grew(old(state.log), state.log, d) && Work(d, node.id, 0, RecoveryAttempts(node))
    ensures recovered ==> Confirm(node.id, Verdict.Ready) in d
    ensures !recovered && Rejected(node.id) !in d ==> Calls(d, node.id, RecoverCall) == RecoveryAttempts(node)
  {
    var attempts := RecoveryAttempts(node);
    d := multiset{};
    for attempt := 0 to attempts
      invariant Grew(old(state.log), state.log, d) && Work(d, node.id, 0, attempt)
      invariant Rejected(node.id) !in d ==> Calls(d, node.id, RecoverCall) == attempt
    {
      var r, step := RecoverItemOnce(node, state, attempt + 1 == attempts);
      WorkAdds(d, step, node.id, 0, attempt, 0, 1);
      d := d + step;
      if r != ItemAgain {
        return r == ItemDone, d;
      }
    }
    return false, d;
  }

  /** One recovery attempt for an item, and the backoff before the next. */
  method RecoverItemOnce(node: Node, state: RunState, last: bool) returns (r: Item, ghost d: Events)
    requires node.validate.Some?
    modifies state`log
    ensures Grew(old(state.log), state.log, d) && Work(d, node.id, 0, 1)
    ensures r == ItemDone ==> Confirm(node.id, Verdict.Ready) in d
    ensures r == ItemFailed ==> Rejected(node.id) in d
    ensures r == ItemAgain ==> Calls(d, node.id, RecoverCall) == 1
  {
    var prepared := Decide();
    if !prepared {
      state.Record(Rejected(node.id));
      return ItemFailed, multiset{Rejected(node.id)};
    }
    r, d := DispatchItemRecovery(node, state);
    if r == ItemAgain && !last {
      var slept := Decide();
      if !slept {
        state.Record(Rejected(node.id));
        WorkAdds(d, multiset{Rejected(node.id)}, node.id, 0, 1, 0, 0);
        return ItemFailed, d + multiset{Rejected(node.id)};
      }
    }
  }

  datatype Item = ItemDone | ItemFailed | ItemAgain

  method DispatchItemRecovery(node: Node, state: RunState) returns (r: Item, ghost d: Events)
    requires node.validate.Some?
    modifies state`log
    ensures Grew(old(state.log), state.log, d) && ItemRecovery(node, d, r)
  {
    var ok := Decide();
    state.Record(Call(node.id, RecoverCall, ok));
    ghost var called := state.log;
    ghost var rest: Events := multiset{};
    r := ItemAgain;
    if ok {
      r, rest := ConfirmRecovery(node, state);
    }
    d := multiset{Call(node.id, RecoverCall, ok)};
    GrewOn(old(state.log), called, state.log, d, rest);
    RecoveryCalled(node, ok, rest, r);
    d := d + rest;
  }

  /** What one recovery call for an item leaves. */
  ghost predicate ItemRecovery(node: Node, d: Events, r: Item) {
    var recovery := Work(d, node.id, 0, 1) && Calls(d, node.id, RecoverCall) == 1
      && (r == ItemDone ==> Confirm(node.id, Verdict.Ready) in d) && (r == ItemFailed ==> Rejected(node.id) in d);
    recovery
  }

  lemma RecoveryCalled(node: Node, ok: bool, rest: Events, r: Item)
    requires Work(rest, node.id, 0, 0)
    requires (r == ItemDone ==> Confirm(node.id, Verdict.Ready) in rest) && (r == ItemFailed ==> Rejected(node.id) in rest)
    ensures ItemRecovery(node, multiset{Call(node.id, RecoverCall, ok)} + rest, r)
  {
    WorkAdds(multiset{Call(node.id, RecoverCall, ok)}, rest, node.id, 0, 1, 0, 0);
  }

  /** The output and the readiness check after a recovery call. */
  method ConfirmRecovery(node: Node, state: RunState) returns (r: Item, ghost d: Events)
    requires node.validate.Some?
    modifies state`log
    ensures Grew(old(state.log), state.log, d) && Work(d, node.id, 0, 0)
    ensures r == ItemDone ==> Confirm(node.id, Verdict.Ready) in d
    ensures r == ItemFailed ==> Rejected(node.id) in d
  {
    var outputOk := Decide();
    if !outputOk {
      state.Record(Rejected(node.id));
      return ItemFailed, multiset{Rejected(node.id)};
    }
    var verdict;
    verdict, d := PollReady(node, state, true);
    r := if verdict == Verdict.Ready then ItemDone else ItemAgain;
  }

  /** Without force an item's action follows a readiness check that did not pass. */
  ghost predicate Justified(node: Node, force: bool, d: Events) {
    !force && node.validate.Some? && Calls(d, node.id, ActionCall) > 0 ==>
      Check(node.id, NotReady) in d || Check(node.id, Errored) in d
  }

  /** An item is done with a certificate, stopped for a reason, or has made its call in vain. */
  ghost predicate ItemStep(node: Node, d: Events, r: Item) {
    match r
    case ItemDone => Certificates(node, d) >= 1
    case ItemFailed => Rejected(node.id) in d
    case ItemAgain =>
      && Calls(d, node.id, ActionCall) == 1 && InVain(d, node.id)
      && (Rejected(node.id) !in d ==> RecoveredFor(d, node.id, RecoveryAttempts(node)))
  }

  /** Dispatching the action for one item, with its readiness check and recovery. */
  method DispatchItem(node: Node, state: RunState) returns (r: Item, ghost d: Events)
    modifies state`log
    ensures Grew(old(state.log), state.log, d) && Work(d, node.id, 1, RecoveryAttempts(node))
    ensures ItemStep(node, d, r)
  {
    var prepared := Decide();
    if !prepared {
      state.Record(Rejected(node.id));
      return ItemFailed, multiset{Rejected(node.id)};
    }
    var ok := Decide();
    state.Record(Call(node.id, ActionCall, ok));
    d := multiset{Call(node.id, ActionCall, ok)};
    if !ok {
      return ItemAgain, d;
    }
    ghost var rest: Events;
    r, rest := ConfirmItem(node, state);
    WorkAdds(d, rest, node.id, 1, 0, 0, RecoveryAttempts(node));
    d := d + rest;
  }

  /** What follows a successful dispatch for one item. */
  method ConfirmItem(node: Node, state: RunState) returns (r: Item, ghost d: Events)
    modifies state`log
    ensures Grew(old(state.log), state.log, d) && Work(d, node.id, 0, RecoveryAttempts(node))
    ensures r == ItemDone && node.validate.Some? ==> Confirm(node.id, Verdict.Ready) in d
    ensures r == ItemFailed ==> Rejected(node.id) in d
    ensures r == ItemAgain ==> Unready(d, node.id)
    ensures r == ItemAgain && Rejected(node.id) !in d ==> Calls(d, node.id, RecoverCall) == RecoveryAttempts(node)
  {
    var outputOk := Decide();
    if !outputOk {
      state.Record(Rejected(node.id));
      return ItemFailed, multiset{Rejected(node.id)};
    }
    if node.validate.None? {
      return ItemDone, multiset{};
    }
    var verdict;
    verdict, d := PollReady(node, state, true);
    if verdict == Verdict.Ready {
      return ItemDone, d;
    }
    r := ItemAgain;
    if node.recover.Some? {
      var recovered, steps := RecoverItem(node, state);
      WorkAdds(d, steps, node.id, 0, 0, 0, RecoveryAttempts(node));
      d := d + steps;
      r := if recovered then ItemDone else ItemAgain;
    }
  }

  method AttemptItem(node: Node, state: RunState, force: bool, last: bool) returns (r: Item, ghost d: Events)
    modifies state`log
    ensures Grew(old(state.log), state.log, d) && Work(d, node.id, 1, RecoveryAttempts(node))
    ensures Justified(node, force, d) && ItemStep(node, d, r)
  {
    d := multiset{};
    var cancelled := Decide();
    if cancelled {
      state.Record(Rejected(node.id));
      return ItemFailed, multiset{Rejected(node.id)};
    }
    if node.validate.Some? && !force {
      var verdict;
      verdict, d := PollReady(node, state, false);
      if verdict == Verdict.Ready {
        return ItemDone, d;
      }
    }
    ghost var steps: Events;
    r, steps := DispatchOrStop(node, state, last);
    ItemAfterCheck(node, force, d, steps, r);
    d := d + steps;
  }

  lemma ItemAfterCheck(node: Node, force: bool, checks: Events, steps: Events, r: Item)
    requires checks == multiset{} || Checked(checks, node.id, NotReady) || Checked(checks, node.id, Errored)
    requires checks == multiset{} ==> force || node.validate.None?
    requires Work(steps, node.id, 1, RecoveryAttempts(node)) && ItemStep(node, steps, r)
    ensures Work(checks + steps, node.id, 1, RecoveryAttempts(node)) && Justified(node, force, checks + steps) && ItemStep(node, checks + steps, r)
  {
    assert Work(checks, node.id, 0, 0);
    WorkAdds(checks, steps, node.id, 0, 0, 1, RecoveryAttempts(node));
  }

  /** The dispatch of an attempt and the backoff after it. */
  method DispatchOrStop(node: Node, state: RunState, last: bool) returns (r: Item, ghost d: Events)
    modifies state`log
    ensures Grew(old(state.log), state.log, d) && Work(d, node.id, 1, RecoveryAttempts(node))
    ensures ItemStep(node, d, r)
  {
    r, d := DispatchItem(node, state);
    if r == ItemAgain && !last {
      var slept := Decide();
      if !slept {
        state.Record(Rejected(node.id));
        WorkAdds(d, multiset{Rejected(node.id)}, node.id, 1, RecoveryAttempts(node), 0, 0);
        d := d + multiset{Rejected(node.id)};
        r := ItemFailed;
      }
    }
  }

  /** `runForEachItem` */
  method RunForEachItem(doc: Document, node: Node, state: RunState, force: bool) returns (ok: bool, ghost d: Events)
    modifies state`log
    ensures Grew(old(state.log), state.log, d)
    ensures Work(d, node.id, Attempts(node, doc), Attempts(node, doc) * RecoveryAttempts(node))
    ensures Justified(node, force, d)
    ensures ok ==> Certificates(node, d) >= 1
    ensures !ok && Rejected(node.id) !in d ==>
      Calls(d, node.id, ActionCall) == Attempts(node, doc) && InVain(d, node.id) && RecoveredFor(d, node.id, RecoveryAttempts(node))
  {
    var attempts := Attempts(node, doc);
    d := multiset{};
    var r := ItemAgain;
    var attempt := 0;
    while attempt < attempts && r == ItemAgain
      invariant 0 <= attempt <= attempts
      invariant Grew(old(state.log), state.log, d)
      invariant Work(d, node.id, attempt, attempt * RecoveryAttempts(node))
      invariant Justified(node, force, d)
      invariant r == ItemAgain ==> Calls(d, node.id, ActionCall) == attempt && (attempt > 0 ==> InVain(d, node.id))
      invariant r == ItemAgain && Rejected(node.id) !in d ==> RecoveredFor(d, node.id, RecoveryAttempts(node))
      invariant r == ItemDone ==> Certificates(node, d) >= 1
      invariant r == ItemFailed ==> Rejected(node.id) in d
    {
      ghost var step: Events;
      ghost var before := state.log;
      r, step := AttemptItem(node, state, force, attempt + 1 == attempts);
      GrewOn(old(state.log), before, state.log, d, step);
      WorkNext(d, step, node.id, attempt, RecoveryAttempts(node));
      if r == ItemAgain && Rejected(node.id) !in d + step { RecoveredNext(d, step, node.id, RecoveryAttempts(node)); }
      d := d + step;
      attempt := attempt + 1;
    }
    WorkWithin(d, node.id, attempt, attempts, RecoveryAttempts(node));
    ok := r == ItemDone;
  }

  /** The item loop of `runForEach`: every item is selected and run, or filtered out. */
  method RunItems(doc: Document, node: Node, state: RunState, force: bool, items: nat) returns (ok: bool, ghost d: Events)
    requires items <= MAX_FAN_OUT
    modifies state`log
    ensures Grew(old(state.log), state.log, d)
    ensures Load(d, node.id, MAX_FAN_OUT * Attempts(node, doc), MAX_FAN_OUT * (Attempts(node, doc) * RecoveryAttempts(node)))
    ensures Justified(node, force, d)
    ensures ItemsSoFar(node, d, Attempts(node, doc), ok, items)
  {
    d := multiset{};
    ghost var a, k := Attempts(node, doc), Attempts(node, doc) * RecoveryAttempts(node);
    ok := true;
    var item := 0;
    while item < items && ok
      invariant 0 <= item <= items
      invariant Grew(old(state.log), state.log, d)
      invariant Load(d, node.id, item * a, item * k)
      invariant Justified(node, force, d)
      invariant ItemsSoFar(node, d, a, ok, item)
    {
      ghost var before := state.log;
      ghost var step: Events;
      ok, step := RunItem(doc, node, state, force);
      GrewOn(old(state.log), before, state.log, d, step);
      ItemCounted(node, d, step, a, ok, item);
      WorkItem(d, step, node.id, item, a, k);
      d := d + step;
      item := item + 1;
    }
    WorkItems(d, node.id, item, a, k);
  }

  /** What one item adds. */
  ghost predicate ItemEffect(node: Node, d: Events, attempts: nat, ok: bool) {
    && d[Selected(node.id)] + d[Filtered(node.id)] == 1
    && (ok ==> Certificates(node, d) >= d[Selected(node.id)])
    && (!ok && Rejected(node.id) !in d ==> Calls(d, node.id, ActionCall) >= attempts && InVain(d, node.id))
  }

  method RunItem(doc: Document, node: Node, state: RunState, force: bool) returns (ok: bool, ghost d: Events)
    modifies state`log
    ensures Grew(old(state.log), state.log, d)
    ensures Load(d, node.id, Attempts(node, doc), Attempts(node, doc) * RecoveryAttempts(node))
    ensures Justified(node, force, d) && ItemEffect(node, d, Attempts(node, doc), ok)
  {
    var matches := Decide();
    if !matches {
      state.Record(Filtered(node.id));
      return true, multiset{Filtered(node.id)};
    }
    state.Record(Selected(node.id));
    ghost var steps: Events;
    ok, steps := RunForEachItem(doc, node, state, force);
    d := multiset{Selected(node.id)} + steps;
    SelectedItem(node, force, steps, Attempts(node, doc), Attempts(node, doc) * RecoveryAttempts(node), ok);
  }

  lemma SelectedItem(node: Node, force: bool, steps: Events, attempts: nat, recoveries: nat, ok: bool)
    requires Work(steps, node.id, attempts, recoveries) && Justified(node, force, steps)
    requires ok ==> Certificates(node, steps) >= 1
    requires !ok && Rejected(node.id) !in steps ==> Calls(steps, node.id, ActionCall) == attempts && InVain(steps, node.id)
    ensures var d := multiset{Selected(node.id)} + steps;
      Load(d, node.id, attempts, recoveries) && Justified(node, force, d) && ItemEffect(node, d, attempts, ok)
  {
  }

  /** Every item so far has its certificate, or the last one gave up after all its attempts or for a reason. */
  ghost predicate ItemsSoFar(node: Node, d: Events, attempts: nat, ok: bool, items: nat) {
    && (ok ==> d[Selected(node.id)] + d[Filtered(node.id)] == items && Certificates(node, d) >= d[Selected(node.id)])
    && (!ok && Rejected(node.id) !in d ==> Calls(d, node.id, ActionCall) >= attempts && InVain(d, node.id))
  }

  lemma ItemCounted(node: Node, d: Events, step: Events, attempts: nat, ok: bool, items: nat)
    requires ItemsSoFar(node, d, attempts, true, items) && ItemEffect(node, step, attempts, ok)
    ensures ItemsSoFar(node, d + step, attempts, ok, items + 1)
  {
  }

  /** What a fan-out leaves behind, however it ends. */
  ghost predicate FanEffect(doc: Document, node: Node, force: bool, d: Events, err: Outcome) {
    var effect :=
      && Load(d, node.id, MAX_FAN_OUT * Attempts(node, doc), MAX_FAN_OUT * (Attempts(node, doc) * RecoveryAttempts(node)))
      && Justified(node, force, d)
      && err != WaitReached && (err == NoError ==> FannedOut(node, d))
      && FailureRule(doc, node, false, d, err);
    effect
  }

  /** `runForEach`: at most 64 items, each with its own attempts. */
  method RunForEach(doc: Document, node: Node, state: RunState, sink: bool, force: bool) returns (err: Outcome, ghost d: Events)
    requires node.action.Some? && node.wait.None? && node.forEach.Some?
    modifies state`log, state`nodes, state`outputs
    ensures Grew(old(state.log), state.log, d)
    ensures FanEffect(doc, node, force, d, err)
    ensures OutputsElsewhere(old(state.outputs), state.outputs, node.id)
    ensures state.nodes == old(state.nodes) || state.nodes == old(state.nodes)[node.id := Applied]
    ensures err == NoError ==> state.nodes == old(state.nodes)[node.id := Applied]
  {
    var resolved := Decide();
    var items: nat :| 0 <= items;
    if !resolved || items > MAX_FAN_OUT {
      state.Record(Rejected(node.id));
      return Failure, multiset{Rejected(node.id)};
    }
    ghost var before := state.log;
    state.Record(FanOut(node.id, items));
    ghost var recorded := state.log;
    err, d := RunAndPublish(doc, node, state, sink, force, items);
    GrewOn(before, recorded, state.log, multiset{FanOut(node.id, items)}, d);
    d := multiset{FanOut(node.id, items)} + d;
  }

  /** All items, and the list of their outputs when none failed. */
  method RunAndPublish(doc: Document, node: Node, state: RunState, sink: bool, force: bool, items: nat) returns (err: Outcome, ghost d: Events)
    requires node.action.Some? && node.wait.None? && node.forEach.Some? && items <= MAX_FAN_OUT
    modifies state`log, state`nodes, state`outputs
    ensures Grew(old(state.log), state.log, d)
    ensures FanEffect(doc, node, force, multiset{FanOut(node.id, items)} + d, err)
    ensures OutputsElsewhere(old(state.outputs), state.outputs, node.id)
    ensures state.nodes == old(state.nodes) || state.nodes == old(state.nodes)[node.id := Applied]
    ensures err == NoError ==> state.nodes == old(state.nodes)[node.id := Applied]
  {
    var ok;
    ok, d := RunItems(doc, node, state, force, items);
    ghost var ran := state.log;
    ghost var emits: Events := multiset{};
    if ok {
      err, emits := PublishItems(node, state, sink);
    } else {
      err := Failure;
    }
    FanEnds(doc, node, force, items, d, emits, ok, err);
    GrewOn(old(state.log), ran, state.log, d, emits);
    d := d + emits;
  }

  lemma FanEnds(doc: Document, node: Node, force: bool, items: nat, d: Events, emits: Events, ok: bool, err: Outcome)
    requires node.action.Some? && node.wait.None? && node.forEach.Some? && items <= MAX_FAN_OUT && forall e :: e in emits ==> e.Emit?
    requires Load(d, node.id, MAX_FAN_OUT * Attempts(node, doc), MAX_FAN_OUT * (Attempts(node, doc) * RecoveryAttempts(node)))
    requires Justified(node, force, d) && ItemsSoFar(node, d, Attempts(node, doc), ok, items)
    requires if ok then err != WaitReached && (err == Failure ==> Event.Emit(false) in emits) else err == Failure
    ensures FanEffect(doc, node, force, multiset{FanOut(node.id, items)} + (d + emits), err)
  {
    var all := multiset{FanOut(node.id, items)} + (d + emits);
    if ok && err == NoError { assert ItemsDone(node, all, items); }
  }

  method PublishItems(node: Node, state: RunState, sink: bool) returns (err: Outcome, ghost d: Events)
    modifies state`log, state`nodes, state`outputs
    ensures Grew(old(state.log), state.log, d) && forall e :: e in d ==> e.Emit?
    ensures OutputsElsewhere(old(state.outputs), state.outputs, node.id)
    ensures err != WaitReached && state.nodes == old(state.nodes)[node.id := Applied]
    ensures err == Failure ==> Event.Emit(false) in d
  {
    var output := AnyOutput();
    state.outputs := state.outputs[node.id := output];
    state.SetStatus(node.id, Applied);
    var written;
    written, d := state.Emit(sink);
    err := if written then NoError else Failure;
  }

  lemma LoadAdds(a: Events, b: Events, id: Id, actions1: nat, recoveries1: nat, actions2: nat, recoveries2: nat)
    requires Load(a, id, actions1, recoveries1) && Load(b, id, actions2, recoveries2)
    ensures Load(a + b, id, actions1 + actions2, recoveries1 + recoveries2)
  {
    forall e | e in a + b ensures Concerns(e, id) { if e in a { } else { assert e in b; } }
  }

  lemma WorkItem(d: Events, step: Events, id: Id, n: nat, a: nat, k: nat)
    requires Load(d, id, n * a, n * k) && Load(step, id, a, k)
    ensures Load(d + step, id, (n + 1) * a, (n + 1) * k)
  {
    LoadAdds(d, step, id, n * a, n * k, a, k);
    assert (n + 1) * a == n * a + a && (n + 1) * k == n * k + k;
  }

  lemma WorkItems(d: Events, id: Id, n: nat, a: nat, k: nat)
    requires Load(d, id, n * a, n * k) && n <= MAX_FAN_OUT
    ensures Load(d, id, MAX_FAN_OUT * a, MAX_FAN_OUT * k)
  {
    MoreItems(n, MAX_FAN_OUT, a);
    MoreItems(n, MAX_FAN_OUT, k);
    WorkRelax(d, id, n * a, n * k, MAX_FAN_OUT * a, MAX_FAN_OUT * k);
  }

  lemma MoreItems(n: nat, limit: nat, a: nat)
    requires n <= limit
    ensures n * a <= limit * a
  {
    var rest := limit - n;
    assert limit * a == n * a + rest * a;
    assert rest * a >= 0;
  }

  lemma WorkRelax(d: Events, id: Id, actions: nat, recoveries: nat, actions': nat, recoveries': nat)
    requires Load(d, id, actions, recoveries) && actions <= actions' && recoveries <= recoveries'
    ensures Load(d, id, actions', recoveries')
  {
  }

  // ---------------------------------------------------------------- one node

  /** What `runNode` guarantees, before the gate of `runNodeWithPreconditions` is added. */
  ghost predicate RunEffect(doc: Document, node: Node, force: bool, q: Status, d: Events, err: Outcome) {
    var effect :=
      && Load(d, node.id, Fan(node) * Attempts(node, doc), Fan(node) * (Attempts(node, doc) * RecoveryAttempts(node)))
      && (node.wait.Some? ==> NoWork(d, node.id) && err != NoError && !Done(q) && (err == WaitReached ==> q == Waiting))
      && (node.wait.None? ==> err != WaitReached)
      && q != Skipped && (force ==> q != Satisfied)
      && (err == NoError ==> Done(q))
      && (q == Satisfied && err == NoError ==>
        NoCalls(d, node.id) && node.validate.Some? && Check(node.id, Verdict.Ready) in d)
      && (q == Applied && err == NoError ==> node.action.Some?)
      && (q == Applied && err == NoError && node.forEach.None? ==>
        Call(node.id, ActionCall, true) in d && (node.validate.Some? ==> Confirm(node.id, Verdict.Ready) in d))
      && (q == Applied && err == NoError && node.forEach.Some? ==> FannedOut(node, d))
      && FailureRule(doc, node, force, d, err)
      && Justified(node, force, d);
    effect
  }

  /** Writing to the sink around a run changes nothing about its effect. */
  lemma EmitsAround(doc: Document, node: Node, force: bool, q: Status, emits: Events, d: Events, err: Outcome)
    requires RunEffect(doc, node, force, q, d, err)
    requires forall e :: e in emits ==> e.Emit?
    ensures RunEffect(doc, node, force, q, emits + d, err)
  {
    if FannedOut(node, d) {
      var items :| ItemsDone(node, d, items);
      assert ItemsDone(node, emits + d, items);
    }
  }

  /** A node that fails without touching a tool. */
  lemma QuietFailure(doc: Document, node: Node, force: bool, q: Status, d: Events)
    requires q in {Pending, Failed, Unknown}
    requires (forall e :: e in d ==> e.Emit? || e == Rejected(node.id)) && Hindered(d, node.id)
    ensures RunEffect(doc, node, force, q, d, Failure)
  {
  }

  /** The new fence: revisions count up while the same wait stays recorded. */
  function NextWait(node: Node, wait: Option<WaitState>): WaitState
    requires node.wait.Some?
  {
    WaitState(
      node.id,
      if wait.Some? && wait.value.node == node.id then wait.value.revision + 1 else 1,
      node.wait.value.schemaRevision,
      node.wait.value.trigger,
      true)
  }

  /** The wait branch of `runNode`. */
  method EnterWait(ghost doc: Document, node: Node, state: RunState, sink: bool, ghost force: bool)
    returns (err: Outcome, ghost d: Events)
    requires node.wait.Some?
    modifies state`log, state`nodes, state`wait, state`status
    ensures Grew(old(state.log), state.log, d)
    ensures SameElsewhere(old(state.nodes), state.nodes, node.id)
    ensures RunEffect(doc, node, force, StatusOf(state.nodes, node.id), d, err)
    ensures err == WaitReached ==> state.status == RunWaiting && state.wait == Some(NextWait(node, old(state.wait)))
  {
    var correlated := Decide();
    if !correlated {
      d := Refuse(node, state, sink);
      QuietFailure(doc, node, force, Failed, d);
      return Failure, d;
    }
    state.wait := Some(NextWait(node, state.wait));
    state.status := RunWaiting;
    state.SetStatus(node.id, Waiting);
    var written;
    written, d := state.Emit(sink);
    err := if written then WaitReached else Failure;
    WaitEffect(doc, node, force, Waiting, d, err);
  }

  /** A node that fails before anything is dispatched for it. */
  method Refuse(node: Node, state: RunState, sink: bool) returns (ghost d: Events)
    modifies state`log, state`nodes
    ensures Grew(old(state.log), state.log, d) && state.nodes == old(state.nodes)[node.id := Failed]
    ensures (forall e :: e in d ==> e.Emit? || e == Rejected(node.id)) && Rejected(node.id) in d
  {
    state.Record(Rejected(node.id));
    state.SetStatus(node.id, Failed);
    var written;
    written, d := state.Emit(sink);
    d := multiset{Rejected(node.id)} + d;
  }

  lemma WaitEffect(doc: Document, node: Node, force: bool, q: Status, d: Events, err: Outcome)
    requires node.wait.Some? && forall e :: e in d ==> e.Emit?
    requires q == Waiting && err != NoError && (err == Failure ==> Event.Emit(false) in d)
    ensures RunEffect(doc, node, force, q, d, err)
  {
  }

  lemma FanOutEffect(doc: Document, node: Node, force: bool, q: Status, d: Events, emits: Events, err: Outcome)
    requires forall e :: e in emits ==> e.Emit?
    requires node.action.Some? && node.forEach.Some? && node.wait.None?
    requires FanEffect(doc, node, force, d, err)
    requires err == NoError ==> q == Applied
    requires err != NoError ==> err == Failure && q in {Unknown, Failed}
    ensures RunEffect(doc, node, force, q, d + emits, err)
  {
    if FannedOut(node, d) {
      var items :| ItemsDone(node, d, items);
      assert ItemsDone(node, d + emits, items);
    }
  }

  /** The forEach branch of `runNode`, which also records how a fan-out failed. */
  method RunFanOut(doc: Document, node: Node, state: RunState, sink: bool, force: bool) returns (err: Outcome, ghost d: Events)
    requires node.action.Some? && node.forEach.Some? && node.wait.None?
    modifies state`log, state`nodes, state`outputs
    ensures Grew(old(state.log), state.log, d)
    ensures OutputsElsewhere(old(state.outputs), state.outputs, node.id)
    ensures SameElsewhere(old(state.nodes), state.nodes, node.id)
    ensures RunEffect(doc, node, force, StatusOf(state.nodes, node.id), d, err)
  {
    err, d := RunForEach(doc, node, state, sink, force);
    ghost var ran := state.log;
    ghost var emits: Events := multiset{};
    if err != NoError {
      emits := FailItems(node, state, sink);
    }
    GrewOn(old(state.log), ran, state.log, d, emits);
    FanOutEffect(doc, node, force, StatusOf(state.nodes, node.id), d, emits, err);
    d := d + emits;
  }

  method FailItems(node: Node, state: RunState, sink: bool) returns (ghost d: Events)
    modifies state`log, state`nodes
    ensures Grew(old(state.log), state.log, d) && forall e :: e in d ==> e.Emit?
    ensures state.nodes == old(state.nodes)[node.id := Unknown] || state.nodes == old(state.nodes)[node.id := Failed]
  {
    var expired := Decide();
    state.SetStatus(node.id, if expired then Unknown else Failed);
    var written;
    written, d := state.Emit(sink);
  }

  /** Records the verdict of the preflight; only `NotReady` lets the node go on to its action. */
  method SettlePreflight(node: Node, state: RunState, sink: bool, verdict: Verdict) returns (err: Outcome, ghost d: Events)
    requires StatusOf(state.nodes, node.id) == Pending
    modifies state`log, state`nodes, state`outputs
    ensures Grew(old(state.log), state.log, d) && forall e :: e in d ==> e.Emit?
    ensures OutputsElsewhere(old(state.outputs), state.outputs, node.id)
    ensures SameElsewhere(old(state.nodes), state.nodes, node.id)
    ensures StatusOf(state.nodes, node.id) ==
      match verdict case Ready => Satisfied case NotReady => Pending case Errored => Failed
    ensures err == NoError || err == Failure
    ensures verdict == Errored ==> err == Failure
    ensures verdict == NotReady ==> err == NoError
    ensures verdict == Verdict.Ready && err == Failure ==> Event.Emit(false) in d
  {
    var written;
    match verdict {
      case NotReady =>
        return NoError, multiset{};
      case Errored =>
        state.SetStatus(node.id, Failed);
        written, d := state.Emit(sink);
        return Failure, d;
      case Ready =>
        state.SetStatus(node.id, Satisfied);
        var output := AnyOutput();
        state.outputs := state.outputs[node.id := output];
        written, d := state.Emit(sink);
        return if written then NoError else Failure, d;
    }
  }

  /** A preflight check before an action; a node without an action is checked and then polled. */
  method PreflightCheck(node: Node, state: RunState) returns (verdict: Verdict, ghost d: Events)
    requires node.validate.Some?
    modifies state`log
    ensures Grew(old(state.log), state.log, d)
    ensures Checked(d, node.id, verdict)
  {
    verdict := CheckOnce(node, state, false);
    d := multiset{Check(node.id, verdict)};
    if node.action.None? {
      ghost var more: Events;
      verdict, more := PollReady(node, state, false);
      d := d + more;
    }
  }

  lemma SettledEffect(doc: Document, node: Node, verdict: Verdict, q: Status, checks: Events, emits: Events, err: Outcome)
    requires node.validate.Some? && node.wait.None? && Checked(checks, node.id, verdict)
    requires forall e :: e in emits ==> e.Emit?
    requires (verdict == Verdict.Ready && q == Satisfied && err != WaitReached && (err == Failure ==> Event.Emit(false) in emits))
      || (verdict == Errored && q == Failed && err == Failure)
    ensures RunEffect(doc, node, false, q, checks + emits, err)
  {
  }

  /** An action after a preflight that found the node not ready. */
  lemma AttemptedEffect(doc: Document, node: Node, force: bool, q: Status, before: Events, d: Events, err: Outcome)
    requires node.action.Some? && node.wait.None? && node.forEach.None?
    requires Work(d, node.id, Attempts(node, doc), Attempts(node, doc) * RecoveryAttempts(node))
    requires AttemptResult(q, Finished(err), true)
    requires q == Applied ==>
      Call(node.id, ActionCall, true) in d && (node.validate.Some? ==> Confirm(node.id, Verdict.Ready) in d)
    requires err == Failure && !Hindered(d, node.id) ==>
      Calls(d, node.id, ActionCall) == Attempts(node, doc) && InVain(d, node.id) && RecoveredFor(d, node.id, RecoveryAttempts(node))
    requires Work(before, node.id, 0, 0)
    requires node.validate.Some? && !force ==> Check(node.id, NotReady) in before
    ensures RunEffect(doc, node, force, q, before + d, err)
  {
  }

  /** The validation and action part of `runNode`. */
  method RunChecked(doc: Document, node: Node, state: RunState, sink: bool, force: bool) returns (err: Outcome, ghost d: Events)
    requires NodeShapeOk(node) && node.wait.None? && node.forEach.None?
    requires StatusOf(state.nodes, node.id) == Pending
    modifies state`log, state`nodes, state`outputs
    ensures Grew(old(state.log), state.log, d)
    ensures OutputsElsewhere(old(state.outputs), state.outputs, node.id)
    ensures SameElsewhere(old(state.nodes), state.nodes, node.id)
    ensures RunEffect(doc, node, force, StatusOf(state.nodes, node.id), d, err)
  {
    d := multiset{};
    if node.validate.Some? && !force {
      var verdict;
      verdict, d := PreflightCheck(node, state);
      if verdict != NotReady {
        ghost var emits: Events;
        err, emits := SettlePreflight(node, state, sink, verdict);
        SettledEffect(doc, node, verdict, StatusOf(state.nodes, node.id), d, emits, err);
        d := d + emits;
        return;
      }
    }
    ghost var rest: Events;
    err, rest := RunOrRefuse(doc, node, state, sink, force, d);
    d := d + rest;
  }

  method RunOrRefuse(doc: Document, node: Node, state: RunState, sink: bool, ghost force: bool, ghost before: Events)
    returns (err: Outcome, ghost d: Events)
    requires NodeShapeOk(node) && node.wait.None? && node.forEach.None?
    requires StatusOf(state.nodes, node.id) == Pending
    requires Work(before, node.id, 0, 0)
    requires node.validate.Some? && !force ==> Check(node.id, NotReady) in before
    modifies state`log, state`nodes, state`outputs
    ensures Grew(old(state.log), state.log, d)
    ensures OutputsElsewhere(old(state.outputs), state.outputs, node.id)
    ensures SameElsewhere(old(state.nodes), state.nodes, node.id)
    ensures RunEffect(doc, node, force, StatusOf(state.nodes, node.id), before + d, err)
  {
    if node.action.None? {
      state.SetStatus(node.id, Failed);
      var written;
      written, d := state.Emit(sink);
      err := Failure;
    } else {
      err, d := RunAttempts(doc, node, state, sink);
      AttemptedEffect(doc, node, force, StatusOf(state.nodes, node.id), before, d, err);
    }
  }

  /** Node-level frame: only this node's status and output change, and the fence only for a wait. */
  ghost predicate NodeFrame(node: Node, s: Snapshot, t: Snapshot) {
    && s.log <= t.log
    && SameElsewhere(s.nodes, t.nodes, node.id)
    && OutputsElsewhere(s.outputs, t.outputs, node.id)
    && (node.wait.None? ==> t.status == s.status && t.wait == s.wait)
  }

  /** The frame of a run, with the new fence when a wait was reached. */
  ghost predicate RunFrame(node: Node, s: Snapshot, t: Snapshot, err: Outcome) {
    var frame := NodeFrame(node, s, t)
      && (err == NoError ==> t.status == s.status && t.wait == s.wait)
      && (err == WaitReached ==> node.wait.Some? && t.status == RunWaiting && t.wait == Some(NextWait(node, s.wait)));
    frame
  }

  /** `runNode` */
  method RunNode(doc: Document, node: Node, state: RunState, sink: bool, force: bool) returns (err: Outcome, ghost d: Events)
    requires NodeShapeOk(node)
    modifies state
    ensures Grew(old(state.log), state.log, d)
    ensures RunFrame(node, old(state.Now()), state.Now(), err)
    ensures RunEffect(doc, node, force, StatusOf(state.nodes, node.id), d, err)
  {
    var written;
    written, d := MarkPending(node, state, sink);
    if !written {
      QuietFailure(doc, node, force, Pending, d);
      return Failure, d;
    }
    ghost var rest: Events;
    ghost var pending := state.Now();
    err, rest := RunKind(doc, node, state, sink, force);
    GrewOn(old(state.log), pending.log, state.log, d, rest);
    FrameThen(node, old(state.Now()), pending, state.Now(), err);
    EmitsAround(doc, node, force, StatusOf(state.nodes, node.id), d, rest, err);
    d := d + rest;
  }

  method MarkPending(node: Node, state: RunState, sink: bool) returns (written: bool, ghost d: Events)
    modifies state`log, state`nodes
    ensures Grew(old(state.log), state.log, d) && (forall e :: e in d ==> e.Emit?) && (!written ==> Event.Emit(false) in d)
    ensures StatusOf(state.nodes, node.id) == Pending && NodeFrame(node, old(state.Now()), state.Now())
  {
    state.SetStatus(node.id, Pending);
    written, d := state.Emit(sink);
  }

  lemma FrameThen(node: Node, s: Snapshot, m: Snapshot, t: Snapshot, err: Outcome)
    requires m == s || (NodeFrame(node, s, m) && m.status == s.status && m.wait == s.wait)
    requires RunFrame(node, m, t, err)
    ensures RunFrame(node, s, t, err)
  {
  }

  /** Target check, then the branch for the kind of node. */
  method RunKind(doc: Document, node: Node, state: RunState, sink: bool, force: bool) returns (err: Outcome, ghost d: Events)
    requires NodeShapeOk(node) && StatusOf(state.nodes, node.id) == Pending
    modifies state
    ensures Grew(old(state.log), state.log, d)
    ensures RunFrame(node, old(state.Now()), state.Now(), err)
    ensures RunEffect(doc, node, force, StatusOf(state.nodes, node.id), d, err)
  {
    var onTarget := true;
    if node.target.Some? {
      onTarget := Decide();
    }
    if !onTarget {
      d := Refuse(node, state, sink);
      QuietFailure(doc, node, force, Failed, d);
      err := Failure;
    } else if node.wait.Some? {
      err, d := EnterWait(doc, node, state, sink, force);
    } else if node.forEach.Some? {
      err, d := RunFanOut(doc, node, state, sink, force);
    } else {
      err, d := RunChecked(doc, node, state, sink, force);
    }
  }

  // ---------------------------------------------------------------- preconditions

  /** A node that is already done keeps its result only while it still looks ready. */
  method Reobserve(node: Node, state: RunState) returns (settled: bool, err: Outcome, ghost d: Events)
    requires Done(StatusOf(state.nodes, node.id))
    modifies state`log, state`nodes, state`outputs
    ensures Grew(old(state.log), state.log, d)
    ensures NodeFrame(node, old(state.Now()), state.Now())
    ensures ReobserveResult(node, old(state.nodes), StatusOf(state.nodes, node.id), settled, err, d)
  {
    d := multiset{};
    if node.validate.None? {
      state.SetStatus(node.id, Satisfied);
      return true, NoError, d;
    }
    var verdict;
    verdict, d := PollReady(node, state, false);
    match verdict {
      case Errored =>
        return true, Failure, d;
      case Ready =>
        state.SetStatus(node.id, Satisfied);
        var output := AnyOutput();
        state.outputs := state.outputs[node.id := output];
        return true, NoError, d;
      case NotReady =>
        state.SetStatus(node.id, Pending);
        state.outputs := state.outputs - {node.id};
        return false, NoError, d;
    }
  }

  ghost predicate ReobserveResult(node: Node, n0: Statuses, q: Status, settled: bool, err: Outcome, d: Events) {
    if node.validate.None? then settled && err == NoError && q == Satisfied && d == multiset{}
    else if !settled then Checked(d, node.id, NotReady) && q == Pending
    else if err == NoError then Checked(d, node.id, Verdict.Ready) && q == Satisfied
    else Checked(d, node.id, Errored) && err == Failure && q == StatusOf(n0, node.id)
  }

  /** The rules of one node, before its error is recorded. */
  ghost predicate Settles(doc: Document, node: Node, n0: Statuses, q: Status, d: Events, err: Outcome) {
    var settles := NodeRules(doc, node, n0, q, d, err) && Fault(node.id) !in d;
    settles
  }

  lemma SettledNodeEffect(doc: Document, node: Node, n0: Statuses, q: Status, d: Events, err: Outcome)
    requires NodeShapeOk(node)
    requires Done(StatusOf(n0, node.id)) && !DependencyApplied(node, n0) && !Blocked(node, n0)
    requires ReobserveResult(node, n0, q, true, err, d)
    ensures Settles(doc, node, n0, q, d, err)
  {
  }

  lemma RanNodeEffect(doc: Document, node: Node, n0: Statuses, q: Status, before: Events, d: Events, err: Outcome)
    requires NodeShapeOk(node) && !Blocked(node, n0)
    requires RunEffect(doc, node, DependencyApplied(node, n0), q, d, err)
    requires before == multiset{} || (Checked(before, node.id, NotReady) && node.validate.Some?)
    requires Done(StatusOf(n0, node.id)) && !DependencyApplied(node, n0) ==> before != multiset{}
    ensures Settles(doc, node, n0, q, before + d, err)
  {
    CheckedFirst(doc, node, DependencyApplied(node, n0), q, before, d, err);
    RanEffect(doc, node, n0, q, before, before + d, err);
  }

  /** Readiness checks that failed before the run change nothing about its effect. */
  lemma CheckedFirst(doc: Document, node: Node, force: bool, q: Status, before: Events, d: Events, err: Outcome)
    requires RunEffect(doc, node, force, q, d, err)
    requires before == multiset{} || (Checked(before, node.id, NotReady) && node.validate.Some? && node.wait.None?)
    ensures RunEffect(doc, node, force, q, before + d, err)
  {
    if FannedOut(node, d) {
      var items :| ItemsDone(node, d, items);
      assert ItemsDone(node, before + d, items);
    }
  }

  lemma RanEffect(doc: Document, node: Node, n0: Statuses, q: Status, before: Events, d: Events, err: Outcome)
    requires NodeShapeOk(node) && !Blocked(node, n0) && before <= d
    requires RunEffect(doc, node, DependencyApplied(node, n0), q, d, err)
    requires before == multiset{} || (Checked(before, node.id, NotReady) && node.validate.Some?)
    requires Done(StatusOf(n0, node.id)) && !DependencyApplied(node, n0) ==> before != multiset{}
    ensures Settles(doc, node, n0, q, d, err)
  {
  }

  /** `runNodeWithPreconditions`; the error it returns is recorded. */
  method RunNodeWithPreconditions(doc: Document, node: Node, state: RunState, sink: bool) returns (err: Outcome, ghost d: Events)
    requires NodeShapeOk(node)
    modifies state
    ensures Grew(old(state.log), state.log, d)
    ensures RunFrame(node, old(state.Now()), state.Now(), err)
    ensures NodeEffect(doc, node, old(state.nodes), StatusOf(state.nodes, node.id), d, err)
  {
    ghost var n0 := state.nodes;
    err, d := RunGated(doc, node, state, sink);
    if err == Failure {
      FaultRecorded(doc, node, n0, StatusOf(state.nodes, node.id), d);
      ghost var ran := state.log;
      state.Record(Fault(node.id));
      GrewOn(old(state.log), ran, state.log, d, multiset{Fault(node.id)});
      d := d + multiset{Fault(node.id)};
    }
  }

  lemma FaultRecorded(doc: Document, node: Node, n0: Statuses, q: Status, d: Events)
    requires Settles(doc, node, n0, q, d, Failure)
    ensures NodeEffect(doc, node, n0, q, d + multiset{Fault(node.id)}, Failure)
  {
  }

  /** The gates before a node, and the node. */
  method RunGated(doc: Document, node: Node, state: RunState, sink: bool) returns (err: Outcome, ghost d: Events)
    requires NodeShapeOk(node)
    modifies state
    ensures Grew(old(state.log), state.log, d)
    ensures RunFrame(node, old(state.Now()), state.Now(), err)
    ensures Settles(doc, node, old(state.nodes), StatusOf(state.nodes, node.id), d, err)
  {
    var cancelled := Decide();
    if cancelled {
      CancelledEffect(doc, node, state.nodes);
      err, d := PassOver(node, state, Cancelled(node.id), Unknown, Failure);
      return;
    }
    if Blocked(node, state.nodes) {
      err := if node.continueOnFailure then NoError else Failure;
      BlockedEffect(doc, node, state.nodes, err);
      state.SetStatus(node.id, Skipped);
      d := multiset{};
      return;
    }
    if node.hasWhen {
      var holds := Decide();
      if !holds {
        ExcludedEffect(doc, node, state.nodes);
        err, d := PassOver(node, state, Excluded(node.id), Skipped, NoError);
        return;
      }
    }
    err, d := RunUnblocked(doc, node, state, sink);
  }

  /** Records why the node is passed over and gives it its status. */
  method PassOver(node: Node, state: RunState, why: Event, status: Status, result: Outcome) returns (err: Outcome, ghost d: Events)
    modifies state`log, state`nodes
    ensures Grew(old(state.log), state.log, d) && d == multiset{why} && err == result
    ensures state.nodes == old(state.nodes)[node.id := status]
  {
    state.Record(why);
    state.SetStatus(node.id, status);
    return result, multiset{why};
  }

  lemma CancelledEffect(doc: Document, node: Node, n0: Statuses)
    ensures Settles(doc, node, n0, Unknown, multiset{Cancelled(node.id)}, Failure)
  {
  }

  lemma ExcludedEffect(doc: Document, node: Node, n0: Statuses)
    requires !Blocked(node, n0) && node.hasWhen
    ensures Settles(doc, node, n0, Skipped, multiset{Excluded(node.id)}, NoError)
  {
  }

  lemma BlockedEffect(doc: Document, node: Node, n0: Statuses, err: Outcome)
    requires Blocked(node, n0) && err == if node.continueOnFailure then NoError else Failure
    ensures Settles(doc, node, n0, Skipped, multiset{}, err)
  {
  }

  method RunUnblocked(doc: Document, node: Node, state: RunState, sink: bool) returns (err: Outcome, ghost d: Events)
    requires NodeShapeOk(node) && !Blocked(node, state.nodes)
    modifies state
    ensures Grew(old(state.log), state.log, d)
    ensures RunFrame(node, old(state.Now()), state.Now(), err)
    ensures Settles(doc, node, old(state.nodes), StatusOf(state.nodes, node.id), d, err)
  {
    ghost var s0 := state.Now();
    var force := DependencyApplied(node, state.nodes);
    d := multiset{};
    if Done(StatusOf(state.nodes, node.id)) && !force {
      var settled;
      settled, err, d := Reobserve(node, state);
      if settled {
        SettledNodeEffect(doc, node, s0.nodes, StatusOf(state.nodes, node.id), d, err);
        return;
      }
    }
    ghost var m := state.Now();
    ghost var rest: Events;
    err, rest := RunNode(doc, node, state, sink, force);
    GrewOn(s0.log, m.log, state.log, d, rest);
    FrameThen(node, s0, m, state.Now(), err);
    RanNodeEffect(doc, node, s0.nodes, StatusOf(state.nodes, node.id), d, rest, err);
    d := d + rest;
  }
}
