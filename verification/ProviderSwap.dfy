/**
 Swapping the active generation of a provider. The replacement is mounted beside its
 predecessor, which is taken down last, so that a failure on the way can be undone.
 */
module ProviderSwap {
  import opened Wrappers
  import opened Choice
  import opened Lifecycle
  import opened ProviderMounts

  /** Keys are unique and every mount belongs to a generation of its provider. */
  ghost predicate MountsOk(generations: Generations, mounts: seq<Mount>) {
    && UniqueKeys(mounts)
    && forall m :: m in mounts ==> m.generation in generations && generations[m.generation].provider.id == m.provider
  }

  /** Whatever is mounted for the provider belongs to its active generation. */
  ghost predicate OnlyActive(m: Manager, mounts: seq<Mount>, provider: string) {
    forall x :: x in mounts && x.provider == provider ==> x.generation == ActiveId(m, provider)
  }

  lemma KeepOk(generations: Generations, mounts: seq<Mount>, f: Mount -> bool)
    requires MountsOk(generations, mounts)
    ensures MountsOk(generations, Keep(mounts, f))
  {
    KeepUnique(mounts, f);
  }

  // ---------------------------------------------------------------- what an activation does

  datatype SwapEnd = Refused | Reverted | Stuck | Swapped | Reaffirmed

  function ProviderOf(m: Manager, generation: string): string {
    if generation in m.generations then m.generations[generation].provider.id else ""
  }

  /** What an activation is asked to do. */
  datatype Request = Request(gid: string, services: seq<ServiceDef>, families: set<string>, connected: bool)

  function Added(r: Request, p: string): seq<Mount> {
    if r.connected then Fresh(p, r.services, r.gid) else []
  }

  /** The mounts after making room, if that was reached. */
  function Room(mounts: seq<Mount>, p: string, families: set<string>, displaced: bool): seq<Mount> {
    if displaced then AfterDisplacing(mounts, p, families) else mounts
  }

  /** The mounts once the predecessor is taken down. */
  function WithoutPrevious(mounts: seq<Mount>, p: string, previous: string): seq<Mount> {
    if previous == "" then mounts else Unmatched(mounts, p, previous)
  }

  /** The generations that were not moved are in the state they were in. */
  ghost predicate StatesBut(a: Generations, b: Generations, moved: set<string>) {
    forall id :: id in a && id in b && id !in moved ==> b[id].state == a[id].state
  }

  /** The generation that is activated and the one it displaces, if any. */
  function Movers(gid: string, previous: string): set<string> {
    if previous == "" then {gid} else {gid, previous}
  }

  /** Where an activation leaves the generations: the rejected one out of service, its predecessor as it was. */
  ghost predicate SwapStates(a: Generations, b: Generations, gid: string, last: string, r: SwapEnd) {
    match r
    case Reaffirmed => StatesBut(a, b, {})
    case Refused => StatesBut(a, b, {gid}) && (gid in a && gid in b ==> b[gid].state in {a[gid].state, Ready, Failed})
    case Reverted => StatesBut(a, b, {gid}) && gid in b && b[gid].state == Failed
    case _ =>
      && StatesBut(a, b, Movers(gid, last)) && gid in b && b[gid].state == Active
      && (last != "" ==> last in a && last in b && a[last].state == Active && b[last].state == Draining)
  }

  /** Generations keep their providers. */
  ghost predicate Carries(a: Generations, b: Generations) {
    a.Keys == b.Keys && forall id :: id in a ==> b[id].provider == a[id].provider
  }

  /**
   What each end of an activation does to the lifecycle and to the mounts of every provider,
   from any state; `displaced` says whether room was made before a failure.
   */
  ghost predicate SwapResult(before: Manager, mounts0: seq<Mount>, after: Manager, mounts1: seq<Mount>, q: Request, r: SwapEnd, displaced: bool) {
    var p, last := ProviderOf(before, q.gid), ActiveId(before, ProviderOf(before, q.gid));
    var result := Carries(before.generations, after.generations) && SwapStates(before.generations, after.generations, q.gid, last, r) && match r
      case Refused => after.active == before.active && mounts1 == mounts0
      case Reaffirmed => q.gid in before.generations && after.active == before.active && last == q.gid && mounts1 == mounts0 + Added(q, p)
      case Reverted =>
        && after.active == before.active && last != q.gid && SessionsOn(before, after, q.gid) && after.generations[q.gid].sessions == 0
        && mounts1 == Unmatched(Room(mounts0, p, q.families, displaced), p, q.gid)
      case Stuck =>
        && after.active == before.active[p := q.gid] && last != q.gid && SessionsOn(before, after, q.gid) && after.generations[q.gid].sessions > 0
        && mounts1 == Unmatched(Room(mounts0, p, q.families, displaced), p, q.gid)
      case Swapped =>
        && after.active == before.active[p := q.gid] && last != q.gid && q.gid in before.generations
        && UniqueKeys(Room(mounts0, p, q.families, q.connected) + Added(q, p))
        && mounts1 == WithoutPrevious(Room(mounts0, p, q.families, q.connected) + Added(q, p), p, last);
    result
  }

  /** The generation is known and lost no session. */
  ghost predicate SessionsOn(before: Manager, after: Manager, gid: string) {
    gid in before.generations && gid in after.generations && after.generations[gid].sessions >= before.generations[gid].sessions
  }

  /** Nothing changed but session counts, which only went up. */
  ghost predicate OnlySessions(a: Manager, b: Manager) {
    && b.active == a.active && b.generations.Keys == a.generations.Keys
    && forall id :: id in a.generations ==>
      b.generations[id] == a.generations[id].(sessions := b.generations[id].sessions) && b.generations[id].sessions >= a.generations[id].sessions
  }

  /** The middle of an activation: the new generation is active, its predecessor draining. */
  ghost predicate Switched(before: Manager, now: Manager, gid: string, previous: string) {
    var p := ProviderOf(before, gid);
    var switched :=
      && Carries(before.generations, now.generations) && SessionsOn(before, now, gid)
      && now.generations[gid].state == Active && now.active == before.active[p := gid] && previous == ActiveId(before, p) != gid
      && (p in before.active ==> before.active[p] != "")
      && (previous != "" ==>
        && previous in now.generations && now.generations[previous].state == Draining && now.generations[previous].provider.id == p
        && before.generations[previous].state == Active)
      && StatesBut(before.generations, now.generations, Movers(gid, previous));
    switched
  }

  /** The candidate is ready and nothing else has moved. */
  ghost predicate Prepared(before: Manager, now: Manager, gid: string) {
    && CanActivate(now, gid) && now.active == before.active && Carries(before.generations, now.generations)
    && SessionsOn(before, now, gid) && StatesBut(before.generations, now.generations, {gid}) && before.generations[gid].state in {Candidate, Ready}
  }

  /** The activation was refused before the switch. */
  ghost predicate Untouched(before: Manager, now: Manager, gid: string) {
    && Carries(before.generations, now.generations) && now.active == before.active
    && SwapStates(before.generations, now.generations, gid, "", Refused)
  }

  // ---------------------------------------------------------------- why an activation ends as it does

  /** The answers from outside that stand in the way of an activation. */
  datatype Obstacle =
    | RowNotStored         // the row of the ready generation
    | NotAdmitted
    | NothingToPublish     // the recipe selects no service of the manifest
    | NotRegistered        // the catalog refuses the services
    | RowsNotStored        // the rows of the two generations after the switch
    | NotDisplaced
    | NotResolved          // what a service injects

  const BEFORE_SWITCH := {RowNotStored, NotAdmitted, NothingToPublish, NotRegistered}

  /** The generation has a place to be activated from. */
  ghost predicate Awaits(m: Manager, gid: string) {
    gid in m.generations && m.generations[gid].state in {Candidate, Ready}
  }

  /** The keys of the new services are free. */
  ghost predicate Fits(mounts: seq<Mount>, q: Request, p: string) {
    q.connected ==> UniqueKeys(mounts + Fresh(p, q.services, q.gid))
  }

  /** Each end has its cause: the state of the generation, an answer from outside, or a key that is taken. */
  ghost predicate SwapCause(before: Manager, mounts0: seq<Mount>, after: Manager, q: Request, r: SwapEnd, displaced: bool, met: set<Obstacle>) {
    var p := ProviderOf(before, q.gid);
    var cause :=
      if ActiveFor(before, p, q.gid) then
        r == (if met == {} && Fits(mounts0, q, p) then Reaffirmed else Refused)
      else if !Awaits(before, q.gid) then r == Refused && met == {}
      else if met * BEFORE_SWITCH != {} then
        r == Refused && q.gid in after.generations && after.generations[q.gid].state == (if NotAdmitted in met || NotRegistered in met then Failed else Ready)
      else LateCause(before, mounts0, q, r, displaced, met);
    cause
  }

  /** The same for what follows the switch. */
  ghost predicate LateCause(before: Manager, mounts0: seq<Mount>, q: Request, r: SwapEnd, displaced: bool, met: set<Obstacle>) {
    var p := ProviderOf(before, q.gid);
    var cause := met * BEFORE_SWITCH == {}
      && if met == {} && Fits(Room(mounts0, p, q.families, q.connected), q, p) then r == Swapped
         else (r == Reverted || r == Stuck) && displaced == (q.connected && RowsNotStored !in met);
    cause
  }

  // ---------------------------------------------------------------- the lifecycle along the way

  lemma NoBlankActive(m: Manager, p: string)
    requires Inv(m) && p in m.active
    ensures m.active[p] != "" && m.active[p] in m.generations
  {
  }

  lemma SwitchedByActivate(before: Manager, ready: Manager, gid: string)
    requires Inv(before) && Inv(ready) && Prepared(before, ready, gid)
    ensures Inv(Activated(ready, gid))
    ensures Switched(before, Activated(ready, gid), gid, if Displaced(ready, gid).Some? then Displaced(ready, gid).value else "")
  {
    ActivateKeeps(ready, gid);
    ActiveIdMeans(ready, gid);
    if ProviderOf(before, gid) in before.active { NoBlankActive(before, ProviderOf(before, gid)); }
    SwitchedStates(before, ready, gid);
  }

  lemma SwitchedStates(before: Manager, ready: Manager, gid: string)
    requires Prepared(before, ready, gid) && ActiveId(ready, ready.generations[gid].provider.id) != gid
    requires var p := ready.generations[gid].provider.id;
      && Displaced(ready, gid) == (if p in ready.active then Some(ready.active[p]) else None)
      && (p in ready.active ==> ready.active[p] != "" && ready.active[p] in ready.generations && ready.generations[ready.active[p]].provider.id == p)
      && (p in ready.active ==> before.generations[ready.active[p]].state == Active)
    ensures Switched(before, Activated(ready, gid), gid, if Displaced(ready, gid).Some? then Displaced(ready, gid).value else "")
  {
    ActivateStates(ready, gid);
  }

  lemma TrafficKeepsSwitched(before: Manager, a: Manager, b: Manager, gid: string, previous: string)
    requires Switched(before, a, gid, previous) && OnlySessions(a, b)
    ensures Switched(before, b, gid, previous)
  {
  }

  /** The rollback of a switch succeeds exactly when no session is open, and gives back the active map. */
  lemma SwitchedRollsBack(before: Manager, now: Manager, gid: string, previous: string)
    requires Inv(now) && Switched(before, now, gid, previous)
    ensures CanRollback(now, gid, previous) <==> now.generations[gid].sessions == 0
    ensures CanRollback(now, gid, previous) ==>
      && RolledBack(now, gid, previous).active == before.active
      && Carries(before.generations, RolledBack(now, gid, previous).generations)
      && RolledBack(now, gid, previous).generations[gid].sessions == 0
      && SwapStates(before.generations, RolledBack(now, gid, previous).generations, gid, previous, Reverted)
  {
    RollbackAnswer(before, now, gid, previous);
    if CanRollback(now, gid, previous) {
      RolledBackActive(before, now, gid, previous);
      RolledBackCarries(before, now, gid, previous);
    }
  }

  lemma RollbackAnswer(before: Manager, now: Manager, gid: string, previous: string)
    requires Inv(now) && Switched(before, now, gid, previous)
    ensures CanRollback(now, gid, previous) <==> now.generations[gid].sessions == 0
    ensures now.generations[gid].provider.id == ProviderOf(before, gid)
    ensures Apply(now, Op.Rollback(gid, previous)) == if now.generations[gid].sessions == 0 then RolledBack(now, gid, previous) else now
  {
    SessionsNonNegative(now, gid);
  }

  lemma RolledBackCarries(before: Manager, now: Manager, gid: string, previous: string)
    requires Carries(before.generations, now.generations) && CanRollback(now, gid, previous)
    ensures Carries(before.generations, RolledBack(now, gid, previous).generations)
    ensures RolledBack(now, gid, previous).generations[gid].sessions == now.generations[gid].sessions
  {
  }

  lemma RolledBackActive(before: Manager, now: Manager, gid: string, previous: string)
    requires Switched(before, now, gid, previous) && CanRollback(now, gid, previous)
    ensures RolledBack(now, gid, previous).active == before.active
    ensures SwapStates(before.generations, RolledBack(now, gid, previous).generations, gid, previous, Reverted)
  {
    var p := ProviderOf(before, gid);
    if previous == "" {
      assert before.active[p := gid] - {p} == before.active;
    } else {
      assert before.active[p := gid][p := previous] == before.active;
    }
  }

  lemma SessionsNonNegative(m: Manager, id: string)
    requires Inv(m) && id in m.generations
    ensures m.generations[id].sessions >= 0
  {
  }

  lemma MountsCarry(a: Generations, b: Generations, mounts: seq<Mount>)
    requires MountsOk(a, mounts) && Carries(a, b)
    ensures MountsOk(b, mounts)
  {
  }

  lemma OpensCarry(m: Manager, id: string, handle: nat)
    requires id in m.generations
    ensures OnlySessions(m, Opened(m, id, handle)) && Carries(m.generations, Opened(m, id, handle).generations)
  {
  }

  lemma RollbackCarries(m: Manager, id: string, previous: string)
    ensures Carries(m.generations, Apply(m, Op.Rollback(id, previous)).generations)
  {
  }

  lemma RollbackMounts(m: Manager, mounts: seq<Mount>, p: string, gid: string, previous: string)
    requires MountsOk(m.generations, mounts)
    ensures MountsOk(Apply(m, Op.Rollback(gid, previous)).generations, Unmatched(mounts, p, gid))
  {
    RollbackCarries(m, gid, previous);
    KeepOk(m.generations, mounts, (x: Mount) => !Matches(KeyOf(x), p, gid));
    MountsCarry(m.generations, Apply(m, Op.Rollback(gid, previous)).generations, Unmatched(mounts, p, gid));
  }

  lemma OnlySessionsOn(a: Manager, b: Manager, c: Manager)
    requires OnlySessions(a, b) && OnlySessions(b, c)
    ensures OnlySessions(a, c)
  {
  }

  lemma MarkReadyPrepares(m: Manager, gid: string)
    requires gid in m.generations && m.generations[gid].state == Candidate
    ensures Prepared(m, Apply(m, Op.MarkReady(gid)), gid)
  {
  }

  lemma FailUntouched(before: Manager, now: Manager, gid: string)
    requires Inv(now) && Prepared(before, now, gid)
    ensures Untouched(before, Apply(now, Op.Fail(gid)), gid) && Apply(now, Op.Fail(gid)).generations[gid].state == Failed
  {
    ActiveIdMeans(now, gid);
  }

  lemma ActivateCarries(m: Manager, gid: string)
    ensures Carries(m.generations, Apply(m, Op.Activate(gid)).generations)
  {
    if CanActivate(m, gid) { ActivateStates(m, gid); }
  }

  lemma SwitchMounts(ready: Manager, gid: string, mounts: seq<Mount>)
    requires CanActivate(ready, gid) && MountsOk(ready.generations, mounts)
    ensures Apply(ready, Op.Activate(gid)) == Activated(ready, gid) && MountsOk(Activated(ready, gid).generations, mounts)
  {
    ActivateCarries(ready, gid);
    MountsCarry(ready.generations, Activated(ready, gid).generations, mounts);
  }

  lemma FreshOf(p: string, services: seq<ServiceDef>, gid: string)
    ensures forall m :: m in Fresh(p, services, gid) ==> m.provider == p && m.generation == gid
  {
  }

  lemma MountsWithFresh(generations: Generations, mounts: seq<Mount>, p: string, services: seq<ServiceDef>, gid: string)
    requires MountsOk(generations, mounts) && gid in generations && generations[gid].provider.id == p
    requires UniqueKeys(mounts + Fresh(p, services, gid))
    ensures MountsOk(generations, mounts + Fresh(p, services, gid))
  {
    FreshOf(p, services, gid);
  }

  /** Room was made and the services mounted, unless something stood in the way. */
  ghost predicate Installed(mounts0: seq<Mount>, p: string, q: Request, mounts1: seq<Mount>, ok: bool, met: set<Obstacle>) {
    var room := Room(mounts0, p, q.families, true);
    var installed := met <= {NotDisplaced, NotResolved}
      && mounts1 == room + (if ok then Fresh(p, q.services, q.gid) else [])
      && (ok <==> met == {} && UniqueKeys(room + Fresh(p, q.services, q.gid)));
    installed
  }

  lemma InstalledCause(before: Manager, mounts0: seq<Mount>, q: Request, mounts1: seq<Mount>, ok: bool, met: set<Obstacle>)
    requires q.connected && Installed(mounts0, ProviderOf(before, q.gid), q, mounts1, ok, met)
    ensures var p := ProviderOf(before, q.gid);
      mounts1 == if ok then Room(mounts0, p, q.families, true) + Added(q, p) else Room(mounts0, p, q.families, true)
    ensures forall r :: r == Swapped || r == Reverted || r == Stuck ==> (LateCause(before, mounts0, q, r, true, met) <==> (ok <==> r == Swapped))
  {
  }

  lemma NothingMounted(before: Manager, mounts0: seq<Mount>, q: Request)
    requires !q.connected
    ensures var p := ProviderOf(before, q.gid);
      Room(mounts0, p, q.families, q.connected) + Added(q, p) == mounts0 && LateCause(before, mounts0, q, Swapped, false, {})
  {
    assert mounts0 + [] == mounts0;
  }

  lemma RowsCause(before: Manager, mounts0: seq<Mount>, q: Request, r: SwapEnd)
    requires r == Reverted || r == Stuck
    ensures LateCause(before, mounts0, q, r, false, {RowsNotStored})
  {
  }

  /** Why a generation did not get to the switch, and where that leaves it. */
  ghost predicate Halted(before: Manager, now: Manager, gid: string, met: set<Obstacle>) {
    if met == {} then !Awaits(before, gid)
    else
      && met <= BEFORE_SWITCH && Awaits(before, gid) && gid in now.generations
      && now.generations[gid].state == if NotAdmitted in met || NotRegistered in met then Failed else Ready
  }

  // ---------------------------------------------------------------- the host

  class ProviderHost {
    const lifecycle: ProviderLifecycleManager
    const mounts: Mounts

    constructor (lifecycle: ProviderLifecycleManager, mounts: Mounts)
      ensures this.lifecycle == lifecycle && this.mounts == mounts
    {
      this.lifecycle, this.mounts := lifecycle, mounts;
    }

    ghost predicate Valid()
      reads this, lifecycle, mounts
    {
      lifecycle.Valid() && MountsOk(lifecycle.generations, mounts.all)
    }

    /** A session that somebody opens. */
    method OneSession(provider: string, generation: string)
      requires Valid()
      modifies lifecycle
      ensures Valid() && OnlySessions(old(lifecycle.View()), lifecycle.View())
    {
      if ServesOn(lifecycle.View(), provider, generation) {
        OpensCarry(lifecycle.View(), generation, lifecycle.issued);
        MountsCarry(lifecycle.generations, Opened(lifecycle.View(), generation, lifecycle.issued).generations, mounts.all);
      }
      var s := lifecycle.OpenSessionForGeneration(provider, generation);
    }

    /** Sessions that other callers open meanwhile, on any generation. */
    method Traffic()
      requires Valid()
      modifies lifecycle
      ensures Valid() && OnlySessions(old(lifecycle.View()), lifecycle.View())
    {
      var n: nat :| 0 <= n;
      for i := 0 to n
        invariant Valid() && OnlySessions(old(lifecycle.View()), lifecycle.View())
      {
        var provider: string := *;
        var generation: string := *;
        ghost var now := lifecycle.View();
        OneSession(provider, generation);
        OnlySessionsOn(old(lifecycle.View()), now, lifecycle.View());
      }
    }

    /** `rollbackProviderActivation` */
    method Rollback(gid: string, previous: string, ghost before: Manager) returns (r: SwapEnd)
      requires Valid() && Switched(before, lifecycle.View(), gid, previous)
      modifies lifecycle, mounts
      ensures Valid() && mounts.all == Unmatched(old(mounts.all), ProviderOf(before, gid), gid)
      ensures r == (if old(lifecycle.generations[gid].sessions) == 0 then Reverted else Stuck)
      ensures lifecycle.View() == (if r == Reverted then RolledBack(old(lifecycle.View()), gid, previous) else old(lifecycle.View()))
    {
      RollbackAnswer(before, lifecycle.View(), gid, previous);
      RollbackMounts(lifecycle.View(), mounts.all, ProviderOf(before, gid), gid, previous);
      var unmounted := mounts.UnmountGeneration(lifecycle.generations[gid].provider.id, gid);
      r := SwitchBack(gid, previous);
    }

    method SwitchBack(gid: string, previous: string) returns (r: SwapEnd)
      requires lifecycle.Valid()
      modifies lifecycle
      ensures lifecycle.Valid() && lifecycle.View() == old(Apply(lifecycle.View(), Op.Rollback(gid, previous)))
      ensures r == if old(CanRollback(lifecycle.View(), gid, previous)) then Reverted else Stuck
    {
      var ok := lifecycle.RollbackActivation(gid, previous);
      r := if ok then Reverted else Stuck;
    }

    /** From candidate to ready: lifecycle, durable row, admission, publication. */
    method Prepare(gid: string) returns (ok: bool, ghost met: set<Obstacle>)
      requires Valid()
      modifies lifecycle
      ensures Valid()
      ensures ok ==> Prepared(old(lifecycle.View()), lifecycle.View(), gid) && met == {}
      ensures !ok ==> Untouched(old(lifecycle.View()), lifecycle.View(), gid) && Halted(old(lifecycle.View()), lifecycle.View(), gid, met)
    {
      ghost var before := lifecycle.View();
      if gid !in lifecycle.generations || lifecycle.generations[gid].state != Ready {
        ok := MakeReady(gid);
        if !ok {
          return false, {};
        }
      }
      var stored := Decide();
      if !stored {
        return false, {RowNotStored};
      }
      ok, met := Publish(gid, before);
    }

    /** Admission, the choice of services and their registration. */
    method Publish(gid: string, ghost before: Manager) returns (ok: bool, ghost met: set<Obstacle>)
      requires Valid() && Prepared(before, lifecycle.View(), gid)
      modifies lifecycle
      ensures Valid()
      ensures ok ==> lifecycle.View() == old(lifecycle.View()) && met == {}
      ensures !ok ==> Untouched(before, lifecycle.View(), gid) && Halted(before, lifecycle.View(), gid, met)
    {
      var admitted := Decide();
      if !admitted {
        Withdraw(gid, before);
        return false, {NotAdmitted};
      }
      var chosen := Decide();
      if !chosen {
        return false, {NothingToPublish};
      }
      var registered := Decide();
      if !registered {
        Withdraw(gid, before);
        return false, {NotRegistered};
      }
      return true, {};
    }

    method MakeReady(gid: string) returns (ok: bool)
      requires Valid()
      modifies lifecycle
      ensures Valid()
      ensures ok ==> Prepared(old(lifecycle.View()), lifecycle.View(), gid)
      ensures !ok ==> lifecycle.View() == old(lifecycle.View())
      ensures ok <==> gid in old(lifecycle.generations) && old(lifecycle.generations[gid].state) == Candidate
    {
      if gid in lifecycle.generations && lifecycle.generations[gid].state == Candidate {
        MarkReadyPrepares(lifecycle.View(), gid);
        MountsCarry(lifecycle.generations, Apply(lifecycle.View(), Op.MarkReady(gid)).generations, mounts.all);
      }
      ok := lifecycle.MarkReady(gid);
    }

    /** A denied or unpublishable candidate fails. */
    method Withdraw(gid: string, ghost before: Manager)
      requires Valid() && Prepared(before, lifecycle.View(), gid)
      modifies lifecycle
      ensures Valid() && Untouched(before, lifecycle.View(), gid) && lifecycle.generations[gid].state == Failed
    {
      FailUntouched(before, lifecycle.View(), gid);
      MountsCarry(lifecycle.generations, Apply(lifecycle.View(), Op.Fail(gid)).generations, mounts.all);
      var failed := lifecycle.Fail(gid);
    }

    method SwitchOver(gid: string, ghost before: Manager) returns (previous: string)
      requires Valid() && Inv(before) && Prepared(before, lifecycle.View(), gid)
      modifies lifecycle
      ensures Valid() && Switched(before, lifecycle.View(), gid, previous)
    {
      SwitchedByActivate(before, lifecycle.View(), gid);
      SwitchMounts(lifecycle.View(), gid, mounts.all);
      var ok, displaced := lifecycle.Activate(gid);
      previous := if displaced.Some? then displaced.value else "";
    }

    /** Rolls back and says where that leaves everybody. */
    method Undo(q: Request, previous: string, ghost before: Manager, ghost mounts0: seq<Mount>, ghost displaced: bool) returns (r: SwapEnd)
      requires Valid() && Switched(before, lifecycle.View(), q.gid, previous)
      requires mounts.all == Room(mounts0, ProviderOf(before, q.gid), q.families, displaced)
      modifies lifecycle, mounts
      ensures Valid() && (r == Reverted || r == Stuck)
      ensures SwapResult(before, mounts0, lifecycle.View(), mounts.all, q, r, displaced)
    {
      SwitchedRollsBack(before, lifecycle.View(), q.gid, previous);
      SessionsNonNegative(lifecycle.View(), q.gid);
      r := Rollback(q.gid, previous, before);
    }

    /** Makes room for the new services and mounts them beside the old ones. */
    method Install(q: Request) returns (ok: bool, ghost met: set<Obstacle>)
      requires Valid() && q.gid in lifecycle.generations
      modifies mounts
      ensures Valid() && Installed(old(mounts.all), lifecycle.generations[q.gid].provider.id, q, mounts.all, ok, met)
    {
      var p := lifecycle.generations[q.gid].provider.id;
      ok := mounts.Displace(p, q.families);
      KeepOk(lifecycle.generations, old(mounts.all), (m: Mount) => !Displaceable(m, p, q.families));
      if !ok {
        return false, {NotDisplaced};
      }
      ghost var resolved;
      ok, resolved := mounts.MountGeneration(p, q.services, q.gid);
      met := if resolved then {} else {NotResolved};
      if ok {
        MountsWithFresh(lifecycle.generations, Room(old(mounts.all), p, q.families, true), p, q.services, q.gid);
      }
    }

    /** Takes the predecessor down, once nothing can fail any more. */
    method Retire(p: string, previous: string)
      requires Valid()
      modifies mounts
      ensures Valid() && mounts.all == WithoutPrevious(old(mounts.all), p, previous)
    {
      if previous != "" {
        KeepOk(lifecycle.generations, mounts.all, (m: Mount) => !Matches(KeyOf(m), p, previous));
        var ok := mounts.UnmountGeneration(p, previous);
      }
    }

    /** Everything after the switch. */
    method Complete(q: Request, previous: string, ghost before: Manager, ghost mounts0: seq<Mount>)
      returns (r: SwapEnd, ghost displaced: bool, ghost met: set<Obstacle>)
      requires Valid() && Switched(before, lifecycle.View(), q.gid, previous) && mounts.all == mounts0
      modifies lifecycle, mounts
      ensures Valid() && SwapResult(before, mounts0, lifecycle.View(), mounts.all, q, r, displaced)
      ensures LateCause(before, mounts0, q, r, displaced, met)
    {
      displaced, met := false, {};
      var stored := Decide();
      if !stored {
        r := Undo(q, previous, before, mounts0, displaced);
        RowsCause(before, mounts0, q, r);
        return r, displaced, {RowsNotStored};
      }
      if q.connected {
        r, met := Connect(q, previous, before, mounts0);
        return r, true, met;
      }
      NothingMounted(before, mounts0, q);
      r := Finish(q, previous, before, mounts0, displaced);
    }

    /** With a connected adapter the services are mounted, or the switch is undone. */
    method Connect(q: Request, previous: string, ghost before: Manager, ghost mounts0: seq<Mount>) returns (r: SwapEnd, ghost met: set<Obstacle>)
      requires Valid() && Switched(before, lifecycle.View(), q.gid, previous) && mounts.all == mounts0 && q.connected
      modifies lifecycle, mounts
      ensures Valid() && SwapResult(before, mounts0, lifecycle.View(), mounts.all, q, r, true)
      ensures LateCause(before, mounts0, q, r, true, met)
    {
      var ok;
      ok, met := Install(q);
      InstalledCause(before, mounts0, q, mounts.all, ok, met);
      if ok {
        r := Finish(q, previous, before, mounts0, true);
      } else {
        r := Undo(q, previous, before, mounts0, true);
      }
    }

    method Finish(q: Request, previous: string, ghost before: Manager, ghost mounts0: seq<Mount>, ghost displaced: bool) returns (r: SwapEnd)
      requires Valid() && Switched(before, lifecycle.View(), q.gid, previous)
      requires mounts.all == Room(mounts0, ProviderOf(before, q.gid), q.families, q.connected) + Added(q, ProviderOf(before, q.gid))
      modifies mounts
      ensures Valid() && r == Swapped && SwapResult(before, mounts0, lifecycle.View(), mounts.all, q, r, displaced)
    {
      Retire(lifecycle.generations[q.gid].provider.id, previous);
      r := Swapped;
    }

    /** Activating the generation that is active already publishes and mounts it again. */
    method Reaffirm(q: Request) returns (r: SwapEnd, ghost met: set<Obstacle>)
      requires Valid() && q.gid in lifecycle.generations
      modifies mounts
      ensures Valid() && (r == Refused || r == Reaffirmed)
      ensures var p := lifecycle.generations[q.gid].provider.id;
        && mounts.all == old(mounts.all) + (if r == Reaffirmed then Added(q, p) else [])
        && (r == Reaffirmed <==> met == {} && Fits(old(mounts.all), q, p))
    {
      var chosen := Decide();
      if !chosen {
        return Refused, {NothingToPublish};
      }
      var registered := Decide();
      if !registered {
        return Refused, {NotRegistered};
      }
      var ok := true;
      met := {};
      if q.connected {
        var p := lifecycle.generations[q.gid].provider.id;
        ghost var resolved;
        ok, resolved := mounts.MountGeneration(p, q.services, q.gid);
        met := if resolved then {} else {NotResolved};
        if ok {
          MountsWithFresh(lifecycle.generations, old(mounts.all), p, q.services, q.gid);
        }
      }
      r := if ok then Reaffirmed else Refused;
    }

    /**
     `activateProviderGeneration`, from any state, with the cause of every end. A generation on
     which a session is open beforehand is never reverted.
     */
    method Activate(q: Request) returns (r: SwapEnd, ghost displaced: bool, ghost met: set<Obstacle>)
      requires Valid()
      modifies lifecycle, mounts
      ensures Valid()
      ensures SwapResult(old(lifecycle.View()), old(mounts.all), lifecycle.View(), mounts.all, q, r, displaced)
      ensures SwapCause(old(lifecycle.View()), old(mounts.all), lifecycle.View(), q, r, displaced, met)
      ensures q.gid in old(lifecycle.generations) && old(lifecycle.generations[q.gid].sessions) > 0 ==> r != Reverted
    {
      ghost var before := lifecycle.View();
      displaced := false;
      if q.gid in lifecycle.generations {
        ActiveIdMeans(before, q.gid);
        var active := lifecycle.ActiveOf(lifecycle.generations[q.gid].provider.id);
        if active == q.gid {
          r, met := Reaffirm(q);
          return;
        }
      }
      var ok;
      ok, met := Prepare(q.gid);
      if !ok {
        return Refused, displaced, met;
      }
      r, displaced, met := Swap(q, before);
    }

    method Swap(q: Request, ghost before: Manager) returns (r: SwapEnd, ghost displaced: bool, ghost met: set<Obstacle>)
      requires Valid() && Inv(before) && Prepared(before, lifecycle.View(), q.gid)
      modifies lifecycle, mounts
      ensures Valid()
      ensures SwapResult(before, old(mounts.all), lifecycle.View(), mounts.all, q, r, displaced)
      ensures SwapCause(before, old(mounts.all), lifecycle.View(), q, r, displaced, met)
    {
      ghost var mounts0 := mounts.all;
      var previous := SwitchOver(q.gid, before);
      ghost var now := lifecycle.View();
      Traffic();
      TrafficKeepsSwitched(before, now, lifecycle.View(), q.gid, previous);
      r, displaced, met := Complete(q, previous, before, mounts0);
    }
  }
}
