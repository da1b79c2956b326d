/** Which call of the lifecycle manager moves what, stated without its guards and updates. */
module Transitions {
  import opened Text
  import opened Lifecycle

  /** A generation whose activation was undone never becomes active again and gains no session. */
  lemma RollbackIsFinal(ms: seq<Manager>, ops: seq<Op>, t: nat, u: nat, id: string, previous: string)
    requires Run(ms, ops) && t < u < |ms| && ops[t] == Rollback(id, previous) && ms[t + 1] != ms[t]
    ensures id in ms[u].generations && OutOfService(ms[u].generations[id].state) && HandlesOf(ms[u].open, id) == {}
    ensures forall p :: p in ms[u].active ==> ms[u].active[p] != id
  {
    RunInv(ms, ops, t);
    assert StepAt(ms, ops, t);
    RollbackKeeps(ms[t], id, previous);
    RunAbsorbs(ms, ops, t + 1, u, id);
    RunInv(ms, ops, u);
  }

  // ---------------------------------------------------------------- what each call moves

  ghost predicate Undoable(m: Manager, id: string, previous: string) {
    && id in m.generations && m.generations[id].state == Active && HandlesOf(m.open, id) == {}
    && (previous == "" || (
      previous in m.generations && m.generations[previous].state == Draining && m.generations[previous].provider.id == m.generations[id].provider.id))
  }

  /** The diagram of the states: which call moves which generation, under which condition. */
  lemma StateMoves(m: Manager, op: Op, x: string)
    requires Inv(m) && Regular(m, op) && x in m.generations
    ensures x in Apply(m, op).generations
    ensures var before, after := m.generations[x].state, Apply(m, op).generations[x].state;
      match op
      case MarkReady(id) => after == if x == id && before == Candidate then Ready else before
      case Activate(id) =>
        if id in m.generations && m.generations[id].state == Ready then
          after == if x == id then Active else if ActiveFor(m, m.generations[id].provider.id, x) then Draining else before
        else after == before
      case Rollback(id, previous) =>
        if Undoable(m, id, previous) then after == if x == id then Failed else if x == previous then Active else before
        else after == before
      case Fail(id) => after == if x == id then Failed else before
      case Dispose(id) => after == if x == id && HandlesOf(m.open, id) == {} then Stopped else before
      case _ => after == before
  {
    match op
    case MarkReady(id) =>
    case Activate(id) => ActivateMoves(m, id, x);
    case Rollback(id, previous) => RollbackMoves(m, id, previous, x);
    case Fail(id) =>
    case Dispose(id) => if id in m.generations { Idle(m, id); }
    case _ => NothingMoves(m, op, x);
  }

  /** Storing, creating, refreshing and sessions leave every state as it is. */
  lemma NothingMoves(m: Manager, op: Op, x: string)
    requires Inv(m) && Regular(m, op) && x in m.generations
    requires !op.MarkReady? && !op.Activate? && !op.Rollback? && !op.Fail? && !op.Dispose?
    ensures x in Apply(m, op).generations && Apply(m, op).generations[x].state == m.generations[x].state
  {
    if op.Create? { NextIdFresh(m, op.provider); }
  }

  lemma RollbackMoves(m: Manager, id: string, previous: string, x: string)
    requires Inv(m) && x in m.generations
    ensures var m' := Apply(m, Rollback(id, previous));
      && x in m'.generations
      && m'.generations[x].state ==
        (if Undoable(m, id, previous) then if x == id then Failed else if x == previous then Active else m.generations[x].state
         else m.generations[x].state)
  {
    if id in m.generations {
      Idle(m, id);
      ActiveIdMeans(m, id);
    }
  }

  lemma ActivateMoves(m: Manager, id: string, x: string)
    requires Inv(m) && x in m.generations
    ensures var m' := Apply(m, Activate(id));
      && x in m'.generations
      && m'.generations[x].state ==
        (if id in m.generations && m.generations[id].state == Ready then
           if x == id then Active else if ActiveFor(m, m.generations[id].provider.id, x) then Draining else m.generations[x].state
         else m.generations[x].state)
  {
    if CanActivate(m, id) {
      ActivateStates(m, id);
      DisplacedMeans(m, id);
    }
  }

  lemma Idle(m: Manager, id: string)
    requires Inv(m) && id in m.generations
    ensures m.generations[id].sessions <= 0 <==> HandlesOf(m.open, id) == {}
  {
  }

  /** Which calls open and close sessions, on which generation. */
  lemma SessionMoves(m: Manager, op: Op)
    requires Inv(m)
    ensures match op
      case OpenActive(provider, handle) =>
        && (forall id :: ActiveFor(m, provider, id) ==> Apply(m, op).open == m.open[handle := id])
        && ((forall id :: !ActiveFor(m, provider, id)) ==> Apply(m, op).open == m.open)
      case OpenOn(provider, id, handle) =>
        Apply(m, op).open ==
          (if id in m.generations && !Blank(id) && m.generations[id].provider.id == provider && !OutOfService(m.generations[id].state) && !m.generations[id].state.Other?
           then m.open[handle := id] else m.open)
      case Close(handle) => Apply(m, op).open == m.open - {handle}
      case _ => Apply(m, op).open == m.open
  {
    if op.OpenActive? && ServesActive(m, op.providerId) {
      assert ActiveFor(m, op.providerId, ActiveId(m, op.providerId));
    }
    if op.Close? && op.handle !in m.open { assert m.open - {op.handle} == m.open; }
  }
}
