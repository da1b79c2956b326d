/**
 `Run` and `Resume`, and what they keep over whole histories: the dispatch budget of a
 run, the repetition of a finished run, and the wait barrier over any sequence of calls.
 */
module History {
  import opened Wrappers
  import opened Choice
  import opened Json
  import opened PlanTypes
  import opened RunSpec
  import opened PassSpec
  import opened Budget
  import opened Runner
  import opened Levels
  import opened Compensation
  import opened PlanRun
  import opened Validation
  import opened Graph

  // ---------------------------------------------------------------- the wait barrier over a log

  /** Waits whose accepted resume was handed to the sink; `strict` counts successful writes only. */
  ghost function ResumedIn(log: seq<Event>, strict: bool): set<Id> {
    set e | e in log && e.Resume? && (strict ==> e.ok) :: e.node
  }

  /** No tool call for a node at or behind a wait without an earlier resume of that wait. */
  ghost predicate Barrier(g: Plan, log: seq<Event>, strict: bool) {
    forall i :: 0 <= i < |log| && IsWork(log[i]) ==> !Guarded(g, ResumedIn(log[..i], strict), log[i].node)
  }

  /** The state fits the resumes recorded so far. */
  ghost predicate StateOk(g: Plan, resumed: set<Id>, s: Snapshot) {
    && Dormant(g, resumed, s.nodes)
    && (s.status == RunWaiting && s.wait.Some? && s.wait.value.open ==>
      s.wait.value.node in g && g[s.wait.value.node].wait.Some? && FenceOk(g, resumed, s.wait.value.node))
  }

  ghost predicate HistoryOk(g: Plan, s: Snapshot, strict: bool) {
    var fits := StateOk(g, ResumedIn(s.log, strict), s) && Barrier(g, s.log, strict);
    fits
  }

  /** The barrier in the words of its promise. */
  lemma BarrierMeans(g: Plan, log: seq<Event>, strict: bool, i: nat, w: Id)
    requires Barrier(g, log, strict) && i < |log| && IsWork(log[i])
    requires w in g && g[w].wait.Some? && Ancestor(g, log[i].node, w) && log[i].node in g
    ensures exists j :: 0 <= j < i && log[j].Resume? && log[j].node == w && (strict ==> log[j].ok)
  {
    var seen := ResumedIn(log[..i], strict);
    assert !HeldBy(g, seen, log[i].node, w);
    var e :| e in log[..i] && e.Resume? && (strict ==> e.ok) && e.node == w;
    var j :| 0 <= j < i && log[..i][j] == e;
    assert log[j] == e;
  }

  lemma GuardedShrinks(g: Plan, a: set<Id>, b: set<Id>, x: Id)
    requires a <= b && Guarded(g, b, x)
    ensures Guarded(g, a, x)
  {
    var w :| HeldBy(g, b, x, w);
    assert HeldBy(g, a, x, w);
  }

  lemma ResumedGrows(before: seq<Event>, after: seq<Event>, strict: bool)
    requires before <= after
    ensures ResumedIn(before, strict) <= ResumedIn(after, strict)
  {
  }

  /** Quiet events that resume nothing keep the barrier. */
  lemma BarrierKept(g: Plan, before: seq<Event>, after: seq<Event>, d: Events, strict: bool)
    requires Barrier(g, before, strict) && Grew(before, after, d)
    requires (forall e :: e in d ==> !e.Resume?) && Quiet(g, ResumedIn(before, strict), d)
    ensures Barrier(g, after, strict) && ResumedIn(after, strict) == ResumedIn(before, strict)
  {
    NewPart(before, after, d);
    forall i | 0 <= i < |after| && IsWork(after[i])
      ensures !Guarded(g, ResumedIn(after[..i], strict), after[i].node)
    {
      if i < |before| {
        assert after[..i] == before[..i] && after[i] == before[i];
      } else {
        ResumedGrows(before, after[..i], strict);
        assert after[i] in d;
        if Guarded(g, ResumedIn(after[..i], strict), after[i].node) {
          GuardedShrinks(g, ResumedIn(before, strict), ResumedIn(after[..i], strict), after[i].node);
        }
      }
    }
    forall x | x in ResumedIn(after, strict) ensures x in ResumedIn(before, strict) {
      var e :| e in after && e.Resume? && (strict ==> e.ok) && e.node == x;
      assert e in multiset(after);
      assert e !in d;
      assert e in multiset(before);
    }
    ResumedGrows(before, after, strict);
  }

  // ---------------------------------------------------------------- abort

  /** What an aborted run leaves: eligible nodes undone in order, counted from the snapshot. */
  ghost predicate RolledBack(g: Plan, at: Snapshot, s: Snapshot, d: Events) {
    Undid(g, at, s, d) && (s.status == RunFailed || s.status == RunUnknown)
  }

  /** Compensation touches nothing behind an open wait and adds no action or recovery. */
  lemma UndoBooks(c: Pass, n0: Statuses, n: Statuses, d: Events)
    requires CompensationBook(c.g, n0, n, d, c.g.Keys) && Dormant(c.g, c.resumed, n0)
    ensures RunBooks(c, n, d, 0)
  {
    forall e | e in d ensures !e.Resume? && (IsWork(e) ==> Undoes(e) && Eligible(c.g, n0, e.node)) {
      assert UndoEvent(c.g, n0, c.g.Keys, e);
    }
    forall x | Guarded(c.g, c.resumed, x) ensures !Done(StatusOf(n, x)) {
      assert x in c.g.Keys ==> Handled(c.g, n0, n, d, x);
    }
    forall kind | kind == ActionCall || kind == RecoverCall ensures TotalCalls(c.doc.nodes, d, kind) == 0 {
      forall id, ok ensures Call(id, kind, ok) !in d { }
      TotalCallsNone(c.doc.nodes, d, kind);
    }
  }

  /** `abortRun` */
  method AbortRun(doc: Document, state: RunState, sink: bool) returns (ghost d: Events)
    requires WellFormed(doc.nodes) && Acyclic(NodeMap(doc.nodes))
    modifies state
    ensures RolledBack(NodeMap(doc.nodes), old(state.Now()), state.Now(), d)
  {
    var cancelled := Decide();
    state.status := if cancelled then RunUnknown else RunFailed;
    var written, emits := state.Emit(sink);
    ghost var begun := state.Now();
    ghost var undo := CompensateApplied(doc, state, sink);
    d := emits + undo;
    EmitThenUndo(NodeMap(doc.nodes), old(state.Now()), begun, state.Now(), emits, undo);
  }

  lemma EmitThenUndo(g: Plan, s0: Snapshot, begun: Snapshot, s: Snapshot, emits: Events, undo: Events)
    requires Grew(s0.log, begun.log, emits) && begun.nodes == s0.nodes && Undid(g, begun, s, undo)
    requires forall e :: e in emits ==> e.Emit?
    requires s.status == RunFailed || s.status == RunUnknown
    ensures RolledBack(g, s0, s, emits + undo)
  {
    NewPart(s0.log, begun.log, emits);
    GrewOn(s0.log, begun.log, s.log, emits, undo);
    forall i | |s0.log| <= i < |begun.log| ensures !Undoes(s.log[i]) {
      assert s.log[i] == begun.log[i] && begun.log[i] in emits;
    }
    EmitsInBook(g, s0.nodes, s.nodes, emits, undo);
  }

  lemma EmitsInBook(g: Plan, n0: Statuses, n: Statuses, emits: Events, undo: Events)
    requires forall e :: e in emits ==> e.Emit?
    requires CompensationBook(g, n0, n, undo, g.Keys)
    ensures CompensationBook(g, n0, n, emits + undo, g.Keys)
  {
    forall x ensures Calls(emits + undo, x, CompensateCall) <= 1 {
      assert Calls(undo, x, CompensateCall) <= 1;
      assert Call(x, CompensateCall, true) !in emits && Call(x, CompensateCall, false) !in emits;
    }
    forall x | x in g.Keys ensures Handled(g, n0, n, emits + undo, x) { assert Handled(g, n0, n, undo, x); }
    forall e | e in emits + undo ensures UndoEvent(g, n0, g.Keys, e) {
      if e in undo { assert UndoEvent(g, n0, g.Keys, e); }
    }
  }

  // ---------------------------------------------------------------- Run

  datatype RunEnd = Refused | Parked | Unwritten | AtWait | GaveUp | Ran(converged: bool)

  /** The run after its passes. */
  ghost predicate Passed(c: Pass, s0: Snapshot, s: Snapshot, d: Events, end: PassEnd) {
    var passed := Grew(s0.log, s.log, d) && RunBooks(c, s.nodes, d, PassLimit(c.doc)) && NoUndo(d)
      && (end == Suspended ==> Fenced(c, s.status, s.wait))
      && RunReason(c, s.nodes, d, end)
      && forall hope :: Hopeful(c, hope, d) ==> end == Settling && Kept(c, hope, s.nodes, d) && d[PassBegun] == 1;
    passed
  }

  /** How a run that was started ends; `at` is its state when an abort began, if one did. */
  ghost predicate RanTo(c: Pass, s0: Snapshot, s: Snapshot, d: Events, end: RunEnd, at: Snapshot) {
    var ran := Grew(s0.log, s.log, d) && RunBooks(c, s.nodes, d, PassLimit(c.doc))
      && (if end == AtWait then Fenced(c, s.status, s.wait) else s.status != RunWaiting)
      && (end.Ran? ==> s.status == Completed)
      && EndReason(c, s.nodes, d, end, at.nodes)
      && (if end == GaveUp then UndoneSince(c.g, s0, at, s) else NoUndo(d))
      && forall hope :: Hopeful(c, hope, d) ==> end == Ran(true) && Kept(c, hope, s.nodes, d) && d[PassBegun] == 1;
    ran
  }

  /** All passes of the plan were used and some node has not converged. */
  ghost predicate Exhausted(doc: Document, n: Statuses, d: Events) {
    d[PassBegun] == PassLimit(doc) && !AllNodesConverged(doc, n)
  }

  /**
   Why a run ends as it does. It completes only if every failed node was tolerated, converged or
   with its passes used; it gives up for a cause, or when its passes are used and the plan says so.
   */
  ghost predicate EndReason(c: Pass, n: Statuses, d: Events, end: RunEnd, atAbort: Statuses) {
    var reason := d[PassBegun] <= PassLimit(c.doc) && match end
      case Ran(converged) =>
        && Tolerated(c.g, d) && (converged <==> AllNodesConverged(c.doc, n))
        && (converged && 0 < d[PassBegun] < PassLimit(c.doc) ==> Rechecked(c.g, n, d, c.g.Keys))
        && (!converged ==> Exhausted(c.doc, n, d) && !c.doc.abortOnExhaustion)
      case GaveUp => Cause(c.g, d) || (Exhausted(c.doc, atAbort, d) && c.doc.abortOnExhaustion)
      case Unwritten => Event.Emit(false) in d
      case AtWait => d[PassBegun] >= 1
      case _ => false;
    reason
  }

  /** The passes undid nothing; from `at` on the run was rolled back. */
  ghost predicate UndoneSince(g: Plan, s0: Snapshot, at: Snapshot, s: Snapshot) {
    exists d, undo :: Grew(s0.log, at.log, d) && NoUndo(d) && RolledBack(g, at, s, undo)
  }

  lemma EmitBooks(c: Pass, n: Statuses, d: Events)
    requires Dormant(c.g, c.resumed, n) && forall e :: e in d ==> e.Emit?
    ensures RunBooks(c, n, d, 0) && NoUndo(d)
  {
    TotalCallsNone(c.doc.nodes, d, ActionCall);
    TotalCallsNone(c.doc.nodes, d, RecoverCall);
  }

  /** Writes to the sink around the passes change nothing about them. */
  lemma EmitFirst(c: Pass, s0: Snapshot, s1: Snapshot, s: Snapshot, emits: Events, d: Events, end: PassEnd)
    requires Grew(s0.log, s1.log, emits) && (forall e :: e in emits ==> e.Emit?) && Dormant(c.g, c.resumed, s1.nodes)
    requires Passed(c, s1, s, d, end)
    ensures Passed(c, s0, s, emits + d, end)
  {
    GrewOn(s0.log, s1.log, s.log, emits, d);
    EmitBooks(c, s1.nodes, emits);
    BooksAdd(c, s1.nodes, s.nodes, emits, d, 0, PassLimit(c.doc));
    HopefulParts(c, emits, d);
    forall e | e in emits + d ensures !Reverts(e) { if e in d { assert !Reverts(e); } }
    forall e | e in emits + d ensures !Passive(e) ==> e in d { if e !in d { assert e in emits; } }
    EmitsKeepReason(c, s.nodes, emits, d, multiset{}, end);
    assert emits + d + multiset{} == emits + d;
  }

  /** Writes to the sink are no reason for anything else. */
  lemma EmitsKeepReason(c: Pass, n: Statuses, a: Events, d: Events, b: Events, end: PassEnd)
    requires RunReason(c, n, d, end) && forall e :: e in a + b ==> e.Emit?
    ensures RunReason(c, n, a + d + b, end)
  {
    assert PassBegun !in a + b;
    assert forall e :: e in a ==> e in a + b;
    assert forall e :: e in b ==> e in a + b;
    if end == Aborting { CauseGrows(c.g, a, d, b); }
    forall x | Fault(x) in a + d + b ensures Fault(x) in d { assert Fault(x) !in a + b; }
  }

  lemma FinishRun(c: Pass, s0: Snapshot, s: Snapshot, s2: Snapshot, d: Events, emits: Events, end: PassEnd, converged: bool, written: bool)
    requires Passed(c, s0, s, d, end) && (end == Settling || (end == Again && !c.doc.abortOnExhaustion)) && converged == (end == Settling)
    requires Grew(s.log, s2.log, emits) && s2.nodes == s.nodes && s2.status == Completed
    requires (forall e :: e in emits ==> e.Emit?) && (!written ==> Event.Emit(false) in emits)
    ensures RanTo(c, s0, s2, d + emits, if written then Ran(converged) else Unwritten, s2)
  {
    GrewOn(s0.log, s.log, s2.log, d, emits);
    EmitBooks(c, s.nodes, emits);
    BooksAdd(c, s.nodes, s.nodes, d, emits, PassLimit(c.doc), 0);
    HopefulParts(c, d, emits);
    forall e | e in d + emits ensures !Reverts(e) { if e in d { assert !Reverts(e); } }
    forall e | e in d + emits ensures !Passive(e) ==> e in d { if e !in d { assert e in emits; } }
    EmitsKeepReason(c, s.nodes, multiset{}, d, emits, end);
    assert multiset{} + d + emits == d + emits;
  }

  lemma AbortedRun(c: Pass, s0: Snapshot, s: Snapshot, s2: Snapshot, d: Events, undo: Events, end: PassEnd)
    requires Passed(c, s0, s, d, end) && (end == Aborting || (end == Again && c.doc.abortOnExhaustion))
    requires RolledBack(c.g, s, s2, undo)
    ensures RanTo(c, s0, s2, d + undo, GaveUp, s)
  {
    GrewOn(s0.log, s.log, s2.log, d, undo);
    UndoBooks(c, s.nodes, s2.nodes, undo);
    BooksAdd(c, s.nodes, s2.nodes, d, undo, PassLimit(c.doc), 0);
    HopefulParts(c, d, undo);
    assert UndoneSince(c.g, s0, s, s2);
    UndoKeepsReason(c, s.nodes, s2.nodes, d, undo, end);
  }

  lemma UndoKeepsReason(c: Pass, n: Statuses, n': Statuses, d: Events, undo: Events, end: PassEnd)
    requires RunReason(c, n, d, end) && (end == Aborting || (end == Again && c.doc.abortOnExhaustion))
    requires CompensationBook(c.g, n, n', undo, c.g.Keys)
    ensures EndReason(c, n', d + undo, GaveUp, n)
  {
    assert !UndoEvent(c.g, n, c.g.Keys, PassBegun);
    if end == Aborting {
      CauseGrows(c.g, multiset{}, d, undo);
      assert multiset{} + d + undo == d + undo;
    }
  }

  /** `Run` once the plan is validated and no wait is open: the passes and the end of the run. */
  method RunAccepted(doc: Document, levels: seq<seq<Node>>, state: RunState, sink: bool, ghost c: Pass)
    returns (end: RunEnd, ghost d: Events, ghost at: Snapshot)
    requires c.doc == doc && c.start == state.nodes && Planned(c, levels) && Dormant(c.g, c.resumed, c.start)
    modifies state
    ensures RanTo(c, old(state.Now()), state.Now(), d, end, at)
  {
    state.status := Running;
    var written, emits := state.Emit(sink);
    at := state.Now();
    if !written {
      EmitBooks(c, state.nodes, emits);
      BooksRelax(c, state.nodes, emits, 0, PassLimit(doc));
      return Unwritten, emits, at;
    }
    end, d, at := RunToEnd(doc, levels, state, sink, c, old(state.Now()), emits);
  }

  method RunToEnd(doc: Document, levels: seq<seq<Node>>, state: RunState, sink: bool,
                  ghost c: Pass, ghost s0: Snapshot, ghost emits: Events)
    returns (end: RunEnd, ghost d: Events, ghost at: Snapshot)
    requires c.doc == doc && c.start == state.nodes && Planned(c, levels) && Dormant(c.g, c.resumed, c.start)
    requires Grew(s0.log, state.log, emits) && forall e :: e in emits ==> e.Emit?
    modifies state
    ensures RanTo(c, s0, state.Now(), d, end, at)
  {
    ghost var s1 := state.Now();
    var last;
    last, d := RunPasses(doc, levels, state, sink, c);
    EmitFirst(c, s0, s1, state.Now(), emits, d, last);
    d := emits + d;
    at := state.Now();
    if last == Suspended {
      return AtWait, d, at;
    }
    end, d, at := EndRun(doc, state, sink, last, c, s0, d);
  }

  /** The end of a run that is not suspended. */
  method EndRun(doc: Document, state: RunState, sink: bool, last: PassEnd, ghost c: Pass, ghost s0: Snapshot, ghost d0: Events)
    returns (end: RunEnd, ghost d: Events, ghost at: Snapshot)
    requires c.doc == doc && c.g == NodeMap(doc.nodes) && WellFormed(doc.nodes) && Acyclic(c.g)
    requires Passed(c, s0, state.Now(), d0, last) && last != Suspended
    modifies state
    ensures RanTo(c, s0, state.Now(), d, end, at)
  {
    d, at := d0, state.Now();
    ghost var rest: Events;
    if last == Aborting || (last == Again && doc.abortOnExhaustion) {
      rest := AbortRun(doc, state, sink);
      AbortedRun(c, s0, at, state.Now(), d, rest, last);
      return GaveUp, d + rest, at;
    }
    state.status := Completed;
    var written;
    written, rest := state.Emit(sink);
    FinishRun(c, s0, at, state.Now(), d, rest, last, last == Settling, written);
    return if written then Ran(last == Settling) else Unwritten, d + rest, state.Now();
  }

  /** The resumes a run can rely on; for a state with another past, all waits. */
  ghost function Reliable(g: Plan, s: Snapshot, strict: bool): (resumed: set<Id>)
    ensures Dormant(g, resumed, s.nodes)
  {
    if Dormant(g, ResumedIn(s.log, strict), s.nodes) then ResumedIn(s.log, strict)
    else
      assert forall x :: !Guarded(g, g.Keys, x);
      g.Keys
  }

  ghost predicate WaitOpen(s: Snapshot) {
    s.status == RunWaiting && s.wait.Some? && s.wait.value.open
  }

  ghost function PassFor(doc: Document, s: Snapshot, strict: bool): Pass {
    var g := NodeMap(doc.nodes);
    Pass(doc, g, Reliable(g, s, strict), s.nodes)
  }

  /** What `Run` did. */
  ghost predicate RunResult(doc: Document, ready: bool, s0: Snapshot, s: Snapshot, d: Events, end: RunEnd, at: Snapshot, strict: bool) {
    var result :=
      if !ready then end == Refused && s == s0 && d == multiset{}
      else if WaitOpen(s0) then end == Parked && s == s0 && d == multiset{}
      else RanTo(PassFor(doc, s0, strict), s0, s, d, end, at);
    result
  }

  /**
   `Run`, from any state. Whatever the tools answer, it stays within the dispatch budget,
   an abort undoes dependents first, a finished run is only observed again, and the wait
   barrier is kept.
   */
  method Run(doc: Document, state: RunState, sink: bool, catalog: Catalog, ghost strict: bool)
    returns (end: RunEnd, ghost d: Events, ghost at: Snapshot)
    modifies state
    ensures RunResult(doc, Admissible(doc, catalog), old(state.Now()), state.Now(), d, end, at, strict)
    ensures old(HistoryOk(NodeMap(doc.nodes), state.Now(), strict)) ==> HistoryOk(NodeMap(doc.nodes), state.Now(), strict)
  {
    d, at := multiset{}, state.Now();
    var ok := Validate(doc, catalog);
    if !ok {
      return Refused, d, at;
    }
    if state.status == RunWaiting && state.wait.Some? && state.wait.value.open {
      return Parked, d, at;
    }
    var levels := TopologicalLevels(doc);
    ghost var c := PassFor(doc, at, strict);
    end, d, at := RunAccepted(doc, levels.value, state, sink, c);
    RunKeepsHistory(c, old(state.Now()), state.Now(), d, end, at, strict);
  }

  lemma RunKeepsHistory(c: Pass, s0: Snapshot, s: Snapshot, d: Events, end: RunEnd, at: Snapshot, strict: bool)
    requires RanTo(c, s0, s, d, end, at) && c == PassFor(c.doc, s0, strict)
    ensures HistoryOk(c.g, s0, strict) ==> HistoryOk(c.g, s, strict)
  {
    if HistoryOk(c.g, s0, strict) {
      BarrierKept(c.g, s0.log, s.log, d, strict);
    }
  }

  // ---------------------------------------------------------------- what a run promises

  /** At most 32 passes of 256 actions and 16384 recoveries, whatever the dispatcher answers. */
  lemma RunBudget(doc: Document, ready: bool, s0: Snapshot, s: Snapshot, d: Events, end: RunEnd, at: Snapshot)
    requires RunResult(doc, ready, s0, s, d, end, at, true) && (ready ==> Accepted(doc))
    ensures TotalCalls(doc.nodes, d, ActionCall) <= 32 * 256
    ensures TotalCalls(doc.nodes, d, RecoverCall) <= 32 * 16384
  {
    if !ready || WaitOpen(s0) {
      TotalCallsNone(doc.nodes, d, ActionCall);
      TotalCallsNone(doc.nodes, d, RecoverCall);
    }
  }

  /** Repeating a finished run under favourable answers observes and changes nothing. */
  lemma ReconcileIdempotent(doc: Document, s0: Snapshot, s: Snapshot, d: Events, end: RunEnd, at: Snapshot)
    requires RunResult(doc, true, s0, s, d, end, at, true) && Accepted(doc) && !WaitOpen(s0)
    requires AllDone(NodeMap(doc.nodes), s0.nodes) && Favourable(d)
    ensures end == Ran(true) && s.status == Completed
    ensures forall x :: x in NodeMap(doc.nodes) ==> StatusOf(s.nodes, x) == Satisfied
    ensures forall e :: e in d ==> e.Check? || e.Confirm? || e.Emit? || e.PassBegun?
    ensures d[PassBegun] == 1
  {
    assert Hopeful(PassFor(doc, s0, true), Repeat, d);
  }

  /**
   A run whose calls succeed gets the plan done, whatever state it starts from: it completes in one pass with
   every node Applied or Satisfied, each seen ready or called in this run unless it was done before.
   */
  lemma SmoothRunCompletes(doc: Document, s0: Snapshot, s: Snapshot, d: Events, end: RunEnd, at: Snapshot)
    requires RunResult(doc, true, s0, s, d, end, at, true) && Accepted(doc) && !WaitOpen(s0)
    requires Actionable(NodeMap(doc.nodes)) && Smooth(NodeMap(doc.nodes), d)
    ensures end == Ran(true) && s.status == Completed && d[PassBegun] == 1
    ensures forall x :: x in NodeMap(doc.nodes) ==>
      Done(StatusOf(s.nodes, x)) && Evident(NodeMap(doc.nodes)[x], StatusOf(s0.nodes, x), d)
  {
    assert Hopeful(PassFor(doc, s0, true), Progress, d);
  }

  /**
   Without a cause nothing that was done is undone: a run in which the sink took every state, no
   check erred and no node failed but where that is tolerated reaches a wait or completes, unless
   the plan wants exhausted passes to abort.
   */
  lemma GivesUpOnlyForCause(doc: Document, s0: Snapshot, s: Snapshot, d: Events, end: RunEnd, at: Snapshot)
    requires RunResult(doc, true, s0, s, d, end, at, true) && Accepted(doc) && !WaitOpen(s0) && !doc.abortOnExhaustion
    requires Event.Emit(false) !in d && forall x :: Confirm(x, Errored) !in d && !FatalFault(NodeMap(doc.nodes), d, x)
    ensures end == AtWait || (end.Ran? && s.status == Completed)
    ensures (forall x :: x in NodeMap(doc.nodes) ==> NodeMap(doc.nodes)[x].wait.None?) ==> end.Ran?
    ensures forall e :: e in d && e.Call? ==> e.kind != CompensateCall
  {
    assert !Cause(NodeMap(doc.nodes), d);
    forall e | e in d && e.Call? ensures e.kind != CompensateCall { assert !Reverts(e); }
  }

  /** A run that completes has used its passes or brought every node to an end, and tolerated every failure. */
  lemma CompletesOnlyTolerant(doc: Document, s0: Snapshot, s: Snapshot, d: Events, end: RunEnd, at: Snapshot, x: Id)
    requires RunResult(doc, true, s0, s, d, end, at, true) && Accepted(doc) && !WaitOpen(s0) && end.Ran?
    ensures Fault(x) in d ==> x in NodeMap(doc.nodes) && NodeMap(doc.nodes)[x].continueOnFailure
    ensures end.converged <==> forall i :: 0 <= i < |doc.nodes| ==> StatusOf(s.nodes, doc.nodes[i].id) in {Applied, Satisfied, Skipped}
    ensures !end.converged ==> !doc.abortOnExhaustion
    ensures !end.converged && doc.convergeMaxPasses > 0 ==> d[PassBegun] == doc.convergeMaxPasses
    ensures !end.converged && doc.convergeMaxPasses <= 0 ==> d[PassBegun] == if doc.defaultMaxPasses > 0 then doc.defaultMaxPasses else 1
  {
  }

  // ---------------------------------------------------------------- Resume

  /** A resume request; the last three fields are answers of the JSON and clock libraries. */
  datatype ResumeRequest = ResumeRequest(
    node: Id,
    revision: int,
    schemaRevision: string,
    source: string,
    correlates: bool,
    inTime: bool,
    inputFits: bool
  )

  datatype Fence = Accept | Conflict | TooLate

  predicate ProvenanceOk(delta: ContextDelta, source: string) {
    && !(delta.provenance == "operator" && source != "operator")
    && !(delta.provenance == "authenticated-event" && source != "authenticated-event")
  }

  /** `nodeByID` */
  method NodeById(doc: Document, id: Id) returns (r: Option<Node>)
    ensures UniqueIds(doc.nodes) ==> r == if id in NodeMap(doc.nodes) then Some(NodeMap(doc.nodes)[id]) else None
  {
    for i := 0 to |doc.nodes|
      invariant forall k :: 0 <= k < i ==> doc.nodes[k].id != id
    {
      if doc.nodes[i].id == id {
        if UniqueIds(doc.nodes) { NodeMapFinds(doc.nodes, i); }
        return Some(doc.nodes[i]);
      }
    }
    NodeMapKeys(doc.nodes);
    r := None;
  }

  /** What the fence of a waiting run demands of a request. */
  ghost predicate Fits(g: Plan, s: Snapshot, request: ResumeRequest) {
    && WaitOpen(s)
    && request.node == s.wait.value.node && request.revision == s.wait.value.revision
    && request.schemaRevision == s.wait.value.schemaRevision && request.correlates
    && request.source in {"operator", "authenticated-event"}
    && request.node in g && g[request.node].wait.Some?
    && (s.wait.value.trigger == "operator" ==> request.source == "operator")
    && forall delta :: delta in g[request.node].wait.value.contextDelta ==> ProvenanceOk(delta, request.source)
  }

  /** `ValidateResume`; a late request is told apart from an ill-fitting one. */
  method ValidateResume(doc: Document, state: RunState, request: ResumeRequest) returns (fence: Fence)
    requires UniqueIds(doc.nodes)
    ensures fence != Conflict ==> Fits(NodeMap(doc.nodes), state.Now(), request)
    ensures fence == Accept <==> Fits(NodeMap(doc.nodes), state.Now(), request) && request.inTime && request.inputFits
    ensures fence == TooLate <==> Fits(NodeMap(doc.nodes), state.Now(), request) && !request.inTime
  {
    if state.status != RunWaiting || state.wait.None? || !state.wait.value.open {
      return Conflict;
    }
    var wait := state.wait.value;
    if request.node != wait.node || request.revision != wait.revision || request.schemaRevision != wait.schemaRevision {
      return Conflict;
    }
    if !request.correlates || (request.source != "operator" && request.source != "authenticated-event") {
      return Conflict;
    }
    var node := NodeById(doc, wait.node);
    if node.None? || node.value.wait.None? || (wait.trigger == "operator" && request.source != "operator") {
      return Conflict;
    }
    var deltas := node.value.wait.value.contextDelta;
    for i := 0 to |deltas|
      invariant forall k :: 0 <= k < i ==> ProvenanceOk(deltas[k], request.source)
    {
      if !ProvenanceOk(deltas[i], request.source) {
        return Conflict;
      }
    }
    fence := if !request.inTime then TooLate else if !request.inputFits then Conflict else Accept;
  }

  datatype ResumeEnd = NotAccepted | Lapsed | DeltaFailed | NotRecorded | Resumed(run: RunEnd)

  /** Accepting a resume opens exactly the wait it names. */
  ghost predicate Opened(s0: Snapshot, s: Snapshot, w: Id, ok: bool) {
    && s.nodes == s0.nodes[w := Satisfied] && s.wait == None && s.status == Running
    && s.log == s0.log + [Event.Resume(w, ok)]
  }

  lemma OpenedKeeps(g: Plan, s0: Snapshot, s: Snapshot, w: Id, ok: bool, strict: bool)
    requires HistoryOk(g, s0, strict) && WaitOpen(s0) && w == s0.wait.value.node && Opened(s0, s, w, ok)
    requires strict ==> ok
    ensures HistoryOk(g, s, strict)
  {
    var before, after := ResumedIn(s0.log, strict), ResumedIn(s.log, strict);
    assert Event.Resume(w, ok) in s.log;
    ResumedGrows(s0.log, s.log, strict);
    forall x | Guarded(g, after, x) ensures !Done(StatusOf(s.nodes, x)) {
      GuardedShrinks(g, before, after, x);
      var v :| HeldBy(g, after, x, v);
      assert v != w && v !in before;
      assert FenceOk(g, before, w);
    }
    forall i | 0 <= i < |s.log| && IsWork(s.log[i]) ensures !Guarded(g, ResumedIn(s.log[..i], strict), s.log[i].node) {
      assert i < |s0.log| && s.log[..i] == s0.log[..i];
    }
  }

  /** The stored-first invariant survives opening a wait exactly when the resume was stored, now or before. */
  lemma OpenedKeepsExactly(g: Plan, s0: Snapshot, s: Snapshot, w: Id, ok: bool)
    requires HistoryOk(g, s0, true) && WaitOpen(s0) && w == s0.wait.value.node && Opened(s0, s, w, ok)
    ensures HistoryOk(g, s, true) <==> ok || w in ResumedIn(s0.log, true)
  {
    if ok {
      OpenedKeeps(g, s0, s, w, ok, true);
    } else {
      UnrecordedOk(g, s0, w);
      UnwrittenResumes(s0.log, w);
      if w in ResumedIn(s0.log, true) {
        StoredBefore(g, s0, s, w);
      } else {
        assert HeldBy(g, ResumedIn(s.log, true), w, w);
        assert Guarded(g, ResumedIn(s.log, true), w) && Done(StatusOf(s.nodes, w));
      }
    }
  }

  lemma UnwrittenResumes(log: seq<Event>, w: Id)
    ensures ResumedIn(log + [Event.Resume(w, false)], true) == ResumedIn(log, true)
  {
    var more := log + [Event.Resume(w, false)];
    forall x ensures x in ResumedIn(more, true) <==> x in ResumedIn(log, true) {
      if e :| e in more && e.Resume? && e.ok && e.node == x { assert e in log; }
    }
  }

  /** A wait whose resume is stored already may be satisfied again. */
  lemma StoredBefore(g: Plan, s0: Snapshot, s: Snapshot, w: Id)
    requires HistoryOk(g, s0, true) && WaitOpen(s0) && w == s0.wait.value.node && Opened(s0, s, w, false) && w in ResumedIn(s0.log, true)
    requires HistoryOk(g, s0.(log := s.log), true) && ResumedIn(s.log, true) == ResumedIn(s0.log, true)
    ensures HistoryOk(g, s, true)
  {
    var resumed := ResumedIn(s.log, true);
    forall x | Guarded(g, resumed, x) ensures !Done(StatusOf(s.nodes, x)) {
      var v :| HeldBy(g, resumed, x, v);
      assert FenceOk(g, resumed, w);
    }
  }

  lemma LapsedKeeps(g: Plan, s0: Snapshot, s: Snapshot, w: Id, d: Events, strict: bool)
    requires HistoryOk(g, s0, strict) && Grew(s0.log, s.log, d) && forall e :: e in d ==> e.Emit?
    requires s.status == RunExpired && (s.nodes == s0.nodes || s.nodes == s0.nodes[w := Expired])
    ensures HistoryOk(g, s, strict)
  {
    BarrierKept(g, s0.log, s.log, d, strict);
  }

  /** The expiry branch of `Resume`. */
  method Lapse(doc: Document, state: RunState, sink: bool, w: Id, ghost strict: bool)
    modifies state
    ensures old(HistoryOk(NodeMap(doc.nodes), state.Now(), strict)) ==> HistoryOk(NodeMap(doc.nodes), state.Now(), strict)
    ensures state.status == RunExpired && !WaitOpen(state.Now()) && old(state.log) <= state.log
    ensures state.nodes == if w in old(state.nodes) then old(state.nodes)[w := Expired] else old(state.nodes)
  {
    state.status := RunExpired;
    if state.wait.Some? {
      state.wait := Some(state.wait.value.(open := false));
    }
    if w in state.nodes {
      state.SetStatus(w, Expired);
    }
    var written, d := state.Emit(sink);
    if old(HistoryOk(NodeMap(doc.nodes), state.Now(), strict)) {
      LapsedKeeps(NodeMap(doc.nodes), old(state.Now()), state.Now(), w, d, strict);
    }
  }

  /** The acceptance branch of `Resume` up to its write to the sink. */
  method OpenWait(doc: Document, state: RunState, sink: bool, w: Id, ghost strict: bool) returns (written: bool)
    requires WaitOpen(state.Now()) && w == state.wait.value.node
    modifies state
    ensures Opened(old(state.Now()), state.Now(), w, written)
    ensures old(HistoryOk(NodeMap(doc.nodes), state.Now(), strict)) && (strict ==> written) ==>
      HistoryOk(NodeMap(doc.nodes), state.Now(), strict)
  {
    state.SetStatus(w, Satisfied);
    state.wait := None;
    state.status := Running;
    written := true;
    if sink {
      written := Decide();
    }
    state.log := state.log + [Event.Resume(w, written)];
    if old(HistoryOk(NodeMap(doc.nodes), state.Now(), strict)) && (strict ==> written) {
      OpenedKeeps(NodeMap(doc.nodes), old(state.Now()), state.Now(), w, written, strict);
    }
  }

  /**
   `Resume`: a request that does not fit changes nothing; one that fits opens the wait, is
   written before anything else happens, and only a written one goes on to run the plan.
   */
  method Resume(doc: Document, state: RunState, sink: bool, catalog: Catalog, request: ResumeRequest, ghost strict: bool)
    returns (end: ResumeEnd, ghost after: Snapshot)
    modifies state
    ensures end == NotAccepted || end == DeltaFailed ==> state.Now() == old(state.Now())
    ensures end != NotAccepted ==> Accepted(doc) && Fits(NodeMap(doc.nodes), old(state.Now()), request)
    ensures end == NotAccepted <==>
      !(Admissible(doc, catalog) && Fits(NodeMap(doc.nodes), old(state.Now()), request) && (request.inTime ==> request.inputFits))
    ensures end == Lapsed <==> Admissible(doc, catalog) && Fits(NodeMap(doc.nodes), old(state.Now()), request) && !request.inTime
    ensures end == Lapsed ==> state.status == RunExpired
    ensures end == NotRecorded ==> Opened(old(state.Now()), state.Now(), request.node, false)
    ensures end.Resumed? ==> Opened(old(state.Now()), after, request.node, true) && after.log <= state.log
    ensures old(state.log) <= state.log
    ensures old(HistoryOk(NodeMap(doc.nodes), state.Now(), strict)) && !(strict && end == NotRecorded) ==>
      HistoryOk(NodeMap(doc.nodes), state.Now(), strict)
  {
    after := state.Now();
    var ok := Validate(doc, catalog);
    if !ok {
      return NotAccepted, after;
    }
    var fence := ValidateResume(doc, state, request);
    if fence == TooLate {
      Lapse(doc, state, sink, request.node, strict);
      return Lapsed, after;
    }
    if fence == Conflict {
      return NotAccepted, after;
    }
    var projected := Decide();
    if !projected {
      return DeltaFailed, after;
    }
    var written := OpenWait(doc, state, sink, request.node, strict);
    after := state.Now();
    if !written {
      return NotRecorded, after;
    }
    var run, d, at := Run(doc, state, sink, catalog, strict);
    end := Resumed(run);
    RunExtends(doc, after, state.Now(), d, run, at, strict, Admissible(doc, catalog));
  }

  lemma RunExtends(doc: Document, s0: Snapshot, s: Snapshot, d: Events, end: RunEnd, at: Snapshot, strict: bool, ready: bool)
    requires RunResult(doc, ready, s0, s, d, end, at, strict)
    ensures s0.log <= s.log
  {
  }

  // ---------------------------------------------------------------- any sequence of calls

  datatype HostCall =
    | RunCall(catalog: Catalog)
    | ResumeCall(catalog: Catalog, request: ResumeRequest)
    | SaveCall
    | LoadCall

  /** A run that has not begun: nothing is done and nothing is waiting. */
  ghost predicate Fresh(g: Plan, s: Snapshot) {
    s.log == [] && s.status != RunWaiting && forall x :: x in g ==> !Done(StatusOf(s.nodes, x))
  }

  lemma FreshOk(g: Plan, s: Snapshot, strict: bool)
    requires Fresh(g, s)
    ensures HistoryOk(g, s, strict)
  {
  }

  lemma ReloadOk(g: Plan, saved: Snapshot, s: Snapshot, strict: bool)
    requires HistoryOk(g, saved, strict) && HistoryOk(g, s, strict) && saved.log <= s.log
    ensures HistoryOk(g, saved.(log := s.log), strict)
  {
    ResumedGrows(saved.log, s.log, strict);
    forall x | Guarded(g, ResumedIn(s.log, strict), x) ensures !Done(StatusOf(saved.nodes, x)) {
      GuardedShrinks(g, ResumedIn(saved.log, strict), ResumedIn(s.log, strict), x);
    }
  }

  /** One call of the host; after a resume that could not be written a durable host reloads. */
  method Serve(doc: Document, state: RunState, sink: bool, call: HostCall, saved: Snapshot, durable: bool)
    returns (kept: Snapshot)
    requires HistoryOk(NodeMap(doc.nodes), state.Now(), durable) && HistoryOk(NodeMap(doc.nodes), saved, durable)
    requires saved.log <= state.log
    modifies state
    ensures HistoryOk(NodeMap(doc.nodes), state.Now(), durable) && HistoryOk(NodeMap(doc.nodes), kept, durable)
    ensures kept.log <= state.log && old(state.log) <= state.log
  {
    kept := saved;
    match call
    case SaveCall =>
      kept := state.Now();
    case LoadCall =>
      ReloadOk(NodeMap(doc.nodes), saved, state.Now(), durable);
      state.Load(saved.(log := state.log));
    case RunCall(catalog) =>
      var end, d, at := Run(doc, state, sink, catalog, durable);
      RunExtends(doc, old(state.Now()), state.Now(), d, end, at, durable, Admissible(doc, catalog));
    case ResumeCall(catalog, request) =>
      ServeResume(doc, state, sink, catalog, request, durable);
  }

  method ServeResume(doc: Document, state: RunState, sink: bool, catalog: Catalog, request: ResumeRequest, durable: bool)
    requires HistoryOk(NodeMap(doc.nodes), state.Now(), durable)
    modifies state
    ensures HistoryOk(NodeMap(doc.nodes), state.Now(), durable) && old(state.log) <= state.log
  {
    var before := state.Now();
    var end, after := Resume(doc, state, sink, catalog, request, durable);
    if durable && end == NotRecorded {
      state.Load(before.(log := state.log));
      UnrecordedOk(NodeMap(doc.nodes), before, request.node);
    }
  }

  lemma UnrecordedOk(g: Plan, s: Snapshot, w: Id)
    requires HistoryOk(g, s, true)
    ensures HistoryOk(g, s.(log := s.log + [Event.Resume(w, false)]), true)
  {
    var log := s.log + [Event.Resume(w, false)];
    forall x ensures x in ResumedIn(log, true) <==> x in ResumedIn(s.log, true) {
      if e :| e in log && e.Resume? && e.ok && e.node == x { assert e in s.log; }
    }
    assert ResumedIn(log, true) == ResumedIn(s.log, true);
    forall i | 0 <= i < |log| && IsWork(log[i]) ensures !Guarded(g, ResumedIn(log[..i], true), log[i].node) {
      assert i < |s.log| && log[..i] == s.log[..i] && log[i] == s.log[i];
    }
  }

  /**
   The wait barrier over whole histories: for any sequence of runs, resumes, saved and
   reloaded states from a fresh run, every tool call behind a wait comes after a resume of
   that wait handed to the sink; a host that reloads after a failed write, after a resume
   the sink has stored.
   */
  method AnyHistory(doc: Document, sink: bool, first: Snapshot, calls: seq<HostCall>, durable: bool) returns (log: seq<Event>)
    requires Fresh(NodeMap(doc.nodes), first)
    ensures Barrier(NodeMap(doc.nodes), log, durable)
  {
    var state := new RunState(first);
    var saved := first;
    FreshOk(NodeMap(doc.nodes), first, durable);
    for i := 0 to |calls|
      invariant HistoryOk(NodeMap(doc.nodes), state.Now(), durable) && HistoryOk(NodeMap(doc.nodes), saved, durable)
      invariant saved.log <= state.log
    {
      saved := Serve(doc, state, sink, calls[i], saved, durable);
    }
    log := state.log;
  }

  // ---------------------------------------------------------------- what an abort undoes

  /** In an aborted run every node that was Applied and declares how is undone; all other nodes stay as they were. */
  lemma AbortMeans(g: Plan, at: Snapshot, s: Snapshot, d: Events, x: Id)
    requires RolledBack(g, at, s, d)
    ensures if x in g && StatusOf(at.nodes, x) == Applied && g[x].compensate.Some? then
        && (StatusOf(s.nodes, x) == Compensated <==> Call(x, CompensateCall, true) in d)
        && (StatusOf(s.nodes, x) == Applied <==> Unresolved(x) in d)
        && StatusOf(s.nodes, x) in {Compensated, CompensationFailed, Applied}
        && Calls(d, x, CompensateCall) <= 1
      else StatusOf(s.nodes, x) == StatusOf(at.nodes, x) && Calls(d, x, CompensateCall) == 0
  {
    if x in g { assert Handled(g, at.nodes, s.nodes, d, x); }
    assert Calls(d, x, CompensateCall) <= 1;
    forall ok | Call(x, CompensateCall, ok) in d ensures Eligible(g, at.nodes, x) { assert UndoEvent(g, at.nodes, g.Keys, Call(x, CompensateCall, ok)); }
  }

  // ---------------------------------------------------------------- requests and revisions

  /** The recorded fence is one of this wait. */
  ghost predicate FenceOf(node: Node, wait: WaitState) {
    && node.wait.Some? && wait.node == node.id && wait.open
    && wait.schemaRevision == node.wait.value.schemaRevision && wait.trigger == node.wait.value.trigger
  }

  /** A resume consumes the fence: no request fits the state it leaves. */
  lemma ResumeConsumes(g: Plan, s0: Snapshot, s: Snapshot, w: Id, ok: bool, request: ResumeRequest)
    requires Opened(s0, s, w, ok)
    ensures !Fits(g, s, request)
  {
  }

  /**
   When a wait is reached again, a request that fitted its fence before fits the new one exactly if the
   old fence was consumed in between and was the first: revisions count up only while a fence is recorded.
   */
  lemma OldRequestFits(g: Plan, node: Node, s0: Snapshot, s1: Snapshot, recorded: Option<WaitState>, request: ResumeRequest)
    requires node.id in g && g[node.id] == node && WaitOpen(s0) && FenceOf(node, s0.wait.value) && Fits(g, s0, request)
    requires recorded == None || recorded == s0.wait
    requires s1.status == RunWaiting && s1.wait == Some(NextWait(node, recorded))
    ensures FenceOf(node, s1.wait.value)
    ensures Fits(g, s1, request) <==> recorded == None && request.revision == 1
  {
  }

  // ---------------------------------------------------------------- an unstored resume

  function WaitNode(): Node {
    Node("w", [], false, None, None, Some(WaitSpec("", "", Null, [])), None, None, None, 0, false, None)
  }

  function BehindNode(): Node {
    Node("x", ["w"], false, None, Some(Action("t", Null)), None, None, None, None, 0, false, None)
  }

  function WaitPlan(): Document {
    Document([WaitNode(), BehindNode()], map[], 0, 0, 0, 0, false)
  }

  ghost function PlanOfWait(): Plan {
    map["w" := WaitNode(), "x" := BehindNode()]
  }

  /** The run is suspended at the wait. */
  function AtTheWait(): Snapshot {
    Snapshot(RunWaiting, map["w" := Waiting, "x" := Pending], map[], Some(WaitState("w", 1, "", "", true)), [])
  }

  /** The wait was resumed, and the write of that failed. */
  function ResumedUnstored(): Snapshot {
    Snapshot(Running, map["w" := Satisfied, "x" := Pending], map[], None, [Event.Resume("w", false)])
  }

  lemma BehindTheWait()
    ensures PlanOfWait() == NodeMap(WaitPlan().nodes) && Ancestor(PlanOfWait(), "x", "w")
    ensures forall v :: !Ancestor(PlanOfWait(), "w", v)
  {
    var g, nodes := PlanOfWait(), WaitPlan().nodes;
    assert nodes[..1] == [WaitNode()] && nodes[..1][..0] == [];
    assert NodeMap(nodes[..1]) == map["w" := WaitNode()];
    assert DependsOn(g, "x", "w");
    assert Chain(g, ["x", "w"]) && ["x", "w"][|["x", "w"]| - 1] == "w";
    forall v ensures !Ancestor(g, "w", v) {
      forall p | Chain(g, p) && |p| > 1 ensures p[0] != "w" { assert DependsOn(g, p[0], p[1]); }
    }
  }

  lemma WaitPlanAccepted()
    ensures Accepted(WaitPlan())
  {
    BehindTheWait();
    var g, nodes := PlanOfWait(), WaitPlan().nodes;
    forall p | Chain(g, p) && |p| > 1 ensures p[0] != p[|p| - 1] {
      assert DependsOn(g, p[0], p[1]);
      assert DependsOn(g, p[|p| - 2], p[|p| - 1]);
    }
    assert nodes[..1] == [WaitNode()] && nodes[..1][..0] == [];
    assert TotalWeight(nodes[..1], WaitPlan()) == 1 && TotalWeight(nodes, WaitPlan()) == 2;
  }

  /** Running the node behind the wait from there: its action can succeed, and nothing less counts as success. */
  lemma BehindRuns()
    ensures NodeEffect(WaitPlan(), BehindNode(), ResumedUnstored().nodes, Applied, multiset{Call("x", ActionCall, true)}, NoError)
    ensures AlwaysDispatched(BehindNode())
  {
    var n := ResumedUnstored().nodes;
    assert !Blocked(BehindNode(), n) && !DependencyApplied(BehindNode(), n);
  }

  /** However the node behind the wait ends from there. */
  ghost predicate AlwaysDispatched(node: Node) {
    forall q, d, err :: NodeEffect(WaitPlan(), node, ResumedUnstored().nodes, q, d, err) ==> BehindDispatched(q, d, err)
  }

  /** Unless its conditions exclude it or it is hindered, the action is dispatched; if nothing fails, it has succeeded. */
  ghost predicate BehindDispatched(q: Status, d: Events, err: Outcome) {
    Excluded("x") !in d ==>
      && (!Hindered(d, "x") ==> Calls(d, "x", ActionCall) >= 1)
      && (err == NoError ==> q == Applied && Call("x", ActionCall, true) in d)
  }

  /**
   A host that goes on from the state returned with a failed write: the history was in order,
   the wait is opened without being stored, and the runner dispatches the action behind it.
   The resume was handed to the sink first, but not stored first.
   */
  lemma UnstoredResumeLeaks()
    ensures var g, s0, s := NodeMap(WaitPlan().nodes), AtTheWait(), ResumedUnstored();
      && Accepted(WaitPlan()) && HistoryOk(g, s0, true) && WaitOpen(s0) && Opened(s0, s, "w", false)
      && NodeEffect(WaitPlan(), g["x"], s.nodes, Applied, multiset{Call("x", ActionCall, true)}, NoError)
      && AlwaysDispatched(g["x"])
      && Barrier(g, s.log + [Call("x", ActionCall, true)], false) && !Barrier(g, s.log + [Call("x", ActionCall, true)], true)
  {
    WaitPlanAccepted();
    BehindTheWait();
    BehindRuns();
    UnstoredBarrier();
    UnstoredOpens();
  }

  lemma UnstoredOpens()
    ensures HistoryOk(PlanOfWait(), AtTheWait(), true) && WaitOpen(AtTheWait()) && Opened(AtTheWait(), ResumedUnstored(), "w", false)
  {
    BehindTheWait();
    UnwrittenResumes([], "w");
    assert [] + [Event.Resume("w", false)] == ResumedUnstored().log;
  }

  lemma UnstoredBarrier()
    ensures var g, log := PlanOfWait(), ResumedUnstored().log + [Call("x", ActionCall, true)];
      Barrier(g, log, false) && !Barrier(g, log, true)
  {
    var g, s := PlanOfWait(), ResumedUnstored();
    var log := s.log + [Call("x", ActionCall, true)];
    BehindTheWait();
    assert log[..1] == s.log;
    assert HeldBy(g, ResumedIn(log[..1], true), "x", "w");
    assert Guarded(g, ResumedIn(log[..1], true), log[1].node);
    assert Event.Resume("w", false) in log[..1];
    assert "w" in ResumedIn(log[..1], false);
    assert forall v :: !HeldBy(g, ResumedIn(log[..1], false), "x", v);
  }
}
