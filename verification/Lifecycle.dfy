/**
 The life cycle of provider generations: which one is active, who still has a session on
 it, and under which name the next one is created.
 */
module Lifecycle {
  import opened Wrappers
  import opened Decimals
  import opened Text

  /** `Other` is any text a stored record may carry that the code does not know. */
  datatype State = Candidate | Ready | Active | Draining | Stopped | Failed | Other(text: string)

  datatype Provider = Provider(id: string, version: string)

  datatype Generation = Generation(
    id: string,
    provider: Provider,
    manifestHash: string,
    endpoint: string,
    catalogRevision: string,
    state: State,
    sessions: int
  )

  type Generations = map<string, Generation>

  /** What the manager holds; `open` names the generation of every unclosed session handle. */
  datatype Manager = Manager(
    generations: Generations,
    active: map<string, string>,
    sequence: nat,
    open: map<nat, string>
  )

  // ---------------------------------------------------------------- the invariant

  /** The unclosed handles of a generation. */
  ghost function HandlesOf(open: map<nat, string>, id: string): set<nat> {
    set n | n in open && open[n] == id
  }

  /** Entries of the active map and generations in state Active correspond one-to-one. */
  ghost predicate ActiveOk(generations: Generations, active: map<string, string>) {
    && (forall p :: p in active ==>
      active[p] in generations && generations[active[p]].provider.id == p && generations[active[p]].state == Active)
    && forall id :: id in generations && generations[id].state == Active ==>
      generations[id].provider.id in active && active[generations[id].provider.id] == id
  }

  /** The session counts are the numbers of unclosed handles. */
  ghost predicate SessionsOk(generations: Generations, open: map<nat, string>) {
    && (forall n :: n in open ==> open[n] in generations)
    && forall id :: id in generations ==> generations[id].sessions == |HandlesOf(open, id)|
  }

  ghost predicate GenerationsOk(generations: Generations) {
    forall id :: id in generations ==>
      && id != "" && generations[id].id == id && generations[id].provider.id != ""
      && (generations[id].state == Stopped ==> generations[id].sessions == 0)
  }

  /** The counter is at least every number a name ends in. */
  ghost predicate CounterOk(generations: Generations, sequence: nat) {
    sequence < WORD && forall id {:trigger SuffixNumber(id)} :: id in generations ==> SuffixNumber(id) <= sequence
  }

  ghost predicate Inv(m: Manager) {
    var inv := GenerationsOk(m.generations) && ActiveOk(m.generations, m.active)
      && SessionsOk(m.generations, m.open) && CounterOk(m.generations, m.sequence);
    inv
  }

  // ---------------------------------------------------------------- operations on values

  function WithState(m: Manager, id: string, state: State): Manager
    requires id in m.generations
  {
    m.(generations := m.generations[id := m.generations[id].(state := state)])
  }

  function ActiveId(m: Manager, provider: string): string {
    if provider in m.active then m.active[provider] else ""
  }

  predicate CompleteRecord(g: Generation) {
    g.id != "" && g.provider.id != "" && g.provider.version != "" && g.manifestHash != "" && g.endpoint != ""
  }

  /** `Restore` of a durable record; records carry no sessions. */
  function Restored(m: Manager, record: Generation): Manager
    requires CompleteRecord(record) && record.id !in m.generations
  {
    var g := record.(state := if record.state == Other("") then Candidate else record.state, sessions := 0);
    var stored := m.(generations := m.generations[g.id := g],
                     sequence := if SuffixNumber(g.id) > m.sequence then SuffixNumber(g.id) else m.sequence);
    if g.state == Active && !Collides(m, record)
    then stored.(active := m.active[g.provider.id := g.id])
    else stored
  }

  /** The record claims to be active for a provider that already has another active generation. */
  predicate Collides(m: Manager, record: Generation) {
    record.state == Active && ActiveId(m, record.provider.id) != "" && ActiveId(m, record.provider.id) != record.id
  }

  function NextSequence(m: Manager): nat {
    (m.sequence + 1) % WORD
  }

  function NextId(m: Manager, provider: Provider): string {
    provider.id + "-" + Print(NextSequence(m))
  }

  function Created(m: Manager, provider: Provider, manifestHash: string, endpoint: string, catalogRevision: string): Manager {
    var id := NextId(m, provider);
    m.(generations := m.generations[id := Generation(id, provider, manifestHash, endpoint, catalogRevision, Candidate, 0)],
       sequence := NextSequence(m))
  }

  predicate CanActivate(m: Manager, id: string) {
    id in m.generations && m.generations[id].state == Ready
  }

  /** The generation a successful activation puts into draining, if any. */
  function Displaced(m: Manager, id: string): Option<string>
    requires id in m.generations
  {
    var last := ActiveId(m, m.generations[id].provider.id);
    if last != "" && last != id && last in m.generations && m.generations[last].state == Active then Some(last) else None
  }

  function Activated(m: Manager, id: string): Manager
    requires CanActivate(m, id)
  {
    var drained := if Displaced(m, id).Some? then WithState(m, Displaced(m, id).value, Draining) else m;
    var switched := WithState(drained, id, Active);
    switched.(active := m.active[m.generations[id].provider.id := id])
  }

  predicate CanRollback(m: Manager, id: string, previous: string) {
    && id in m.generations && m.generations[id].state == Active
    && ActiveId(m, m.generations[id].provider.id) == id
    && m.generations[id].sessions <= 0
    && (previous != "" ==>
      && previous in m.generations && m.generations[previous].state == Draining
      && m.generations[previous].provider.id == m.generations[id].provider.id)
  }

  function RolledBack(m: Manager, id: string, previous: string): Manager
    requires CanRollback(m, id, previous)
  {
    var provider := m.generations[id].provider.id;
    if previous == "" then WithState(m, id, Failed).(active := m.active - {provider})
    else WithState(WithState(m, previous, Active), id, Failed).(active := m.active[provider := previous])
  }

  predicate AcceptsSession(state: State) {
    state in {Candidate, Ready, Active, Draining}
  }

  /** A new session handle on a generation. */
  function Opened(m: Manager, id: string, handle: nat): Manager
    requires id in m.generations
  {
    var g := m.generations[id];
    m.(generations := m.generations[id := g.(sessions := g.sessions + 1)], open := m.open[handle := id])
  }

  /** The first close of a handle. */
  function Closed(m: Manager, handle: nat): Manager
    requires handle in m.open
  {
    var id := m.open[handle];
    var counted := if id in m.generations && m.generations[id].sessions > 0
      then m.generations[id := m.generations[id].(sessions := m.generations[id].sessions - 1)]
      else m.generations;
    m.(generations := counted, open := m.open - {handle})
  }

  /** A generation taken out of service, failed or stopped. */
  function Retired(m: Manager, id: string, state: State): Manager
    requires id in m.generations
  {
    var provider := m.generations[id].provider.id;
    WithState(m, id, state).(active := if ActiveId(m, provider) == id then m.active - {provider} else m.active)
  }

  // ---------------------------------------------------------------- every operation keeps the invariant

  lemma ActiveIdMeans(m: Manager, id: string)
    requires Inv(m) && id in m.generations
    ensures ActiveId(m, m.generations[id].provider.id) == id <==> m.generations[id].state == Active
  {
  }

  /** The changed generations keep their names, providers and session counts. */
  ghost predicate SameBut(a: Generations, b: Generations) {
    && a.Keys == b.Keys
    && forall id :: id in a ==> b[id] == a[id].(state := b[id].state)
  }

  lemma StateChange(m: Manager, m': Manager)
    requires Inv(m) && SameBut(m.generations, m'.generations) && m'.open == m.open && m'.sequence == m.sequence
    requires ActiveOk(m'.generations, m'.active)
    requires NewlyStopped(m.generations, m'.generations)
    ensures Inv(m')
  {
  }

  /** Whatever is stopped now was stopped before or had no session. */
  ghost predicate NewlyStopped(a: Generations, b: Generations)
    requires a.Keys == b.Keys
  {
    forall id :: id in a && b[id].state == Stopped ==> a[id].state == Stopped || a[id].sessions == 0
  }

  lemma ActivateKeeps(m: Manager, id: string)
    requires Inv(m) && CanActivate(m, id)
    ensures Inv(Activated(m, id))
    ensures ActiveId(Activated(m, id), m.generations[id].provider.id) == id && Activated(m, id).generations[id].state == Active
    ensures Displaced(m, id).Some? ==> Activated(m, id).generations[Displaced(m, id).value].state == Draining
    ensures Displaced(m, id) == (if m.generations[id].provider.id in m.active then Some(m.active[m.generations[id].provider.id]) else None)
  {
    ActivateActive(m, id);
    StateChange(m, Activated(m, id));
  }

  lemma DisplacedMeans(m: Manager, id: string)
    requires GenerationsOk(m.generations) && ActiveOk(m.generations, m.active) && CanActivate(m, id)
    ensures Displaced(m, id) == (if m.generations[id].provider.id in m.active then Some(m.active[m.generations[id].provider.id]) else None)
  {
  }

  /** The state of every generation after an activation. */
  lemma ActivateStates(m: Manager, id: string)
    requires CanActivate(m, id)
    ensures SameBut(m.generations, Activated(m, id).generations)
    ensures forall x :: x in m.generations ==>
      Activated(m, id).generations[x].state == (if x == id then Active else if Displaced(m, id) == Some(x) then Draining else m.generations[x].state)
  {
  }

  lemma ActivateActive(m: Manager, id: string)
    requires GenerationsOk(m.generations) && ActiveOk(m.generations, m.active) && CanActivate(m, id)
    ensures ActiveOk(Activated(m, id).generations, Activated(m, id).active)
    ensures SameBut(m.generations, Activated(m, id).generations)
  {
    var m', p := Activated(m, id), m.generations[id].provider.id;
    DisplacedMeans(m, id);
    ActivateStates(m, id);
    OneActive(m.generations, m'.generations, m.active, p, id);
  }

  /** One generation of a provider becomes its only active one. */
  lemma OneActive(a: Generations, b: Generations, active: map<string, string>, p: string, id: string)
    requires ActiveOk(a, active) && SameBut(a, b) && id in a && a[id].provider.id == p
    requires b[id].state == Active
    requires forall x :: x in a && x != id ==>
      (b[x].state == Active <==> a[x].state == Active && a[x].provider.id != p)
    ensures ActiveOk(b, active[p := id])
  {
  }

  /** Undoing an activation: the rejected generation is out of service and the one before is active again. */
  lemma RollbackKeeps(m: Manager, id: string, previous: string)
    requires Inv(m) && CanRollback(m, id, previous)
    ensures Inv(RolledBack(m, id, previous))
    ensures ActiveId(RolledBack(m, id, previous), m.generations[id].provider.id) == previous
    ensures OutOfService(RolledBack(m, id, previous).generations[id].state)
    ensures previous != "" ==> RolledBack(m, id, previous).generations[previous].state == Active
  {
    RollbackActive(m, id, previous);
    StateChange(m, RolledBack(m, id, previous));
  }

  lemma RollbackActive(m: Manager, id: string, previous: string)
    requires ActiveOk(m.generations, m.active) && CanRollback(m, id, previous)
    ensures SameBut(m.generations, RolledBack(m, id, previous).generations)
    ensures ActiveOk(RolledBack(m, id, previous).generations, RolledBack(m, id, previous).active)
  {
    var m', p := RolledBack(m, id, previous), m.generations[id].provider.id;
    if previous == "" {
      NoneActive(m.generations, m'.generations, m.active, p);
    } else {
      OneActive(m.generations, m'.generations, m.active, p, previous);
    }
  }

  /** A provider is left without an active generation. */
  lemma NoneActive(a: Generations, b: Generations, active: map<string, string>, p: string)
    requires ActiveOk(a, active) && SameBut(a, b)
    requires forall x :: x in a ==> (b[x].state == Active <==> a[x].state == Active && a[x].provider.id != p)
    ensures ActiveOk(b, active - {p})
  {
  }

  lemma RetireKeeps(m: Manager, id: string, state: State)
    requires Inv(m) && id in m.generations && (state == Failed || (state == Stopped && m.generations[id].sessions == 0))
    ensures Inv(Retired(m, id, state))
  {
    StateChange(m, Retired(m, id, state));
  }

  lemma OpenKeeps(m: Manager, id: string, handle: nat)
    requires Inv(m) && id in m.generations && AcceptsSession(m.generations[id].state) && handle !in m.open
    ensures Inv(Opened(m, id, handle))
  {
    OpenCounts(m, id, handle);
    OpenStates(m, id, handle);
  }

  lemma OpenStates(m: Manager, id: string, handle: nat)
    requires GenerationsOk(m.generations) && ActiveOk(m.generations, m.active) && CounterOk(m.generations, m.sequence)
    requires id in m.generations && AcceptsSession(m.generations[id].state)
    ensures var m' := Opened(m, id, handle);
      GenerationsOk(m'.generations) && ActiveOk(m'.generations, m'.active) && CounterOk(m'.generations, m'.sequence)
  {
  }

  lemma OpenCounts(m: Manager, id: string, handle: nat)
    requires SessionsOk(m.generations, m.open) && id in m.generations && handle !in m.open
    ensures SessionsOk(Opened(m, id, handle).generations, Opened(m, id, handle).open)
  {
    var m' := Opened(m, id, handle);
    forall x | x in m'.generations ensures m'.generations[x].sessions == |HandlesOf(m'.open, x)| {
      if x == id {
        assert HandlesOf(m'.open, x) == HandlesOf(m.open, x) + {handle};
      } else {
        assert HandlesOf(m'.open, x) == HandlesOf(m.open, x);
      }
    }
  }

  lemma CloseKeeps(m: Manager, handle: nat)
    requires Inv(m) && handle in m.open
    ensures Inv(Closed(m, handle))
  {
    CloseCounts(m, handle);
  }

  lemma CloseCounts(m: Manager, handle: nat)
    requires SessionsOk(m.generations, m.open) && handle in m.open
    ensures SessionsOk(Closed(m, handle).generations, Closed(m, handle).open)
  {
    var m', id := Closed(m, handle), m.open[handle];
    assert handle in HandlesOf(m.open, id);
    forall x | x in m'.generations ensures m'.generations[x].sessions == |HandlesOf(m'.open, x)| {
      if x == id {
        assert HandlesOf(m'.open, x) == HandlesOf(m.open, x) - {handle};
      } else {
        assert HandlesOf(m'.open, x) == HandlesOf(m.open, x);
      }
    }
  }

  // ---------------------------------------------------------------- fresh names

  /** While the counter does not wrap, the next name is not in use. */
  lemma NextIdFresh(m: Manager, provider: Provider)
    requires CounterOk(m.generations, m.sequence) && m.sequence + 1 < WORD
    ensures NextId(m, provider) !in m.generations
  {
    SuffixRoundTrip(provider.id, NextSequence(m));
  }

  lemma CreateKeeps(m: Manager, provider: Provider, manifestHash: string, endpoint: string, catalogRevision: string)
    requires Inv(m) && m.sequence + 1 < WORD && provider.id != ""
    ensures Inv(Created(m, provider, manifestHash, endpoint, catalogRevision))
  {
    NextIdFresh(m, provider);
    var id := NextId(m, provider);
    SuffixRoundTrip(provider.id, NextSequence(m));
    AddKeeps(m, Generation(id, provider, manifestHash, endpoint, catalogRevision, Candidate, 0), NextSequence(m));
  }

  lemma AddKeeps(m: Manager, g: Generation, sequence: nat)
    requires Inv(m) && g.id !in m.generations && g.id != "" && g.provider.id != "" && g.state == Candidate && g.sessions == 0
    requires m.sequence <= sequence < WORD && SuffixNumber(g.id) <= sequence
    ensures Inv(m.(generations := m.generations[g.id := g], sequence := sequence))
  {
    assert HandlesOf(m.open, g.id) == {};
  }

  /** A stored record keeps the invariant exactly when it does not claim a taken place. */
  lemma RestoreKeeps(m: Manager, record: Generation)
    requires Inv(m) && CompleteRecord(record) && record.id !in m.generations
    ensures Inv(Restored(m, record)) <==> !Collides(m, record)
  {
    var m' := Restored(m, record);
    assert HandlesOf(m.open, record.id) == {};
    RestoreCounts(m, record);
    RestoreActive(m, record);
  }

  lemma RestoreCounts(m: Manager, record: Generation)
    requires CounterOk(m.generations, m.sequence) && CompleteRecord(record) && record.id !in m.generations
    ensures CounterOk(Restored(m, record).generations, Restored(m, record).sequence)
  {
    SuffixBounded(record.id);
  }

  lemma RestoreActive(m: Manager, record: Generation)
    requires GenerationsOk(m.generations) && ActiveOk(m.generations, m.active) && CompleteRecord(record) && record.id !in m.generations
    ensures ActiveOk(Restored(m, record).generations, Restored(m, record).active) <==> !Collides(m, record)
  {
    var m' := Restored(m, record);
    var p := record.provider.id;
    if Collides(m, record) {
      assert m'.generations[record.id].state == Active && m'.active[p] != record.id;
    } else {
      assert record.state == Active ==> p !in m.active;
      forall q | q in m'.active
        ensures m'.active[q] in m'.generations && m'.generations[m'.active[q]].provider.id == q && m'.generations[m'.active[q]].state == Active
      {
        if q in m.active { assert m'.active[q] == m.active[q]; }
      }
    }
  }

  lemma SuffixBounded(id: string)
    ensures SuffixNumber(id) < WORD
  {
  }

  // ---------------------------------------------------------------- runs

  datatype Op =
    | Restore(record: Generation)
    | Create(provider: Provider, manifestHash: string, endpoint: string, catalogRevision: string)
    | Refresh(id: string, manifestHash: string, catalogRevision: string)
    | MarkReady(id: string)
    | Activate(id: string)
    | Rollback(id: string, previous: string)
    | OpenActive(providerId: string, handle: nat)
    | OpenOn(providerId: string, id: string, handle: nat)
    | Close(handle: nat)
    | Fail(id: string)
    | Dispose(id: string)

  /** The effect of one call; a call that returns an error changes nothing, save a colliding restore. */
  function Apply(m: Manager, op: Op): Manager {
    match op
    case Restore(record) =>
      if CompleteRecord(record) && record.id !in m.generations then Restored(m, record) else m
    case Create(provider, hash, endpoint, revision) =>
      if provider.id == "" || provider.version == "" || hash == "" || endpoint == "" || Blank(revision) then m
      else Created(m, provider, hash, endpoint, revision)
    case Refresh(id, hash, revision) =>
      if Blank(id) || Blank(hash) || Blank(revision) || id !in m.generations || m.generations[id].state != Active then m
      else m.(generations := m.generations[id := m.generations[id].(manifestHash := hash, catalogRevision := revision)])
    case MarkReady(id) =>
      if id in m.generations && m.generations[id].state == Candidate then WithState(m, id, Ready) else m
    case Activate(id) => if CanActivate(m, id) then Activated(m, id) else m
    case Rollback(id, previous) => if CanRollback(m, id, previous) then RolledBack(m, id, previous) else m
    case OpenActive(provider, handle) =>
      if ServesActive(m, provider) then Opened(m, ActiveId(m, provider), handle) else m
    case OpenOn(provider, id, handle) =>
      if ServesOn(m, provider, id) then Opened(m, id, handle) else m
    case Close(handle) => if handle in m.open then Closed(m, handle) else m
    case Fail(id) => if id in m.generations then Retired(m, id, Failed) else m
    case Dispose(id) => if id in m.generations && m.generations[id].sessions <= 0 then Retired(m, id, Stopped) else m
  }

  predicate ServesActive(m: Manager, provider: string) {
    ActiveId(m, provider) in m.generations && m.generations[ActiveId(m, provider)].state == Active
  }

  predicate ServesOn(m: Manager, provider: string, id: string) {
    !Blank(id) && id in m.generations && m.generations[id].provider.id == provider && AcceptsSession(m.generations[id].state)
  }

  /** Restores succeed, the counter does not wrap, and a new handle is new. */
  predicate Regular(m: Manager, op: Op) {
    match op
    case Restore(record) => !(CompleteRecord(record) && record.id !in m.generations && Collides(m, record))
    case Create(_, _, _, _) => m.sequence + 1 < WORD
    case OpenActive(_, handle) => handle !in m.open
    case OpenOn(_, _, handle) => handle !in m.open
    case _ => true
  }

  lemma RefreshKeeps(m: Manager, id: string, hash: string, revision: string)
    requires Inv(m)
    ensures Inv(Apply(m, Refresh(id, hash, revision)))
  {
  }

  lemma MarkReadyKeeps(m: Manager, id: string)
    requires Inv(m)
    ensures Inv(Apply(m, MarkReady(id)))
  {
    if id in m.generations && m.generations[id].state == Candidate {
      StateChange(m, WithState(m, id, Ready));
    }
  }

  /** Every regular call keeps the invariant. */
  lemma LifecycleStep(m: Manager, op: Op)
    requires Inv(m) && Regular(m, op)
    ensures Inv(Apply(m, op))
  {
    match op
    case Restore(record) => if CompleteRecord(record) && record.id !in m.generations { RestoreKeeps(m, record); }
    case Create(provider, hash, endpoint, revision) =>
      if provider.id != "" { CreateKeeps(m, provider, hash, endpoint, revision); }
    case Refresh(id, hash, revision) => RefreshKeeps(m, id, hash, revision);
    case MarkReady(id) => MarkReadyKeeps(m, id);
    case Activate(id) => if CanActivate(m, id) { ActivateKeeps(m, id); }
    case Rollback(id, previous) => if CanRollback(m, id, previous) { RollbackKeeps(m, id, previous); }
    case OpenActive(provider, handle) => if ServesActive(m, provider) { OpenKeeps(m, ActiveId(m, provider), handle); }
    case OpenOn(provider, id, handle) => if ServesOn(m, provider, id) { OpenKeeps(m, id, handle); }
    case Close(handle) => if handle in m.open { CloseKeeps(m, handle); }
    case Fail(id) => if id in m.generations { RetireKeeps(m, id, Failed); }
    case Dispose(id) => if id in m.generations && m.generations[id].sessions <= 0 { RetireKeeps(m, id, Stopped); }
  }

  predicate OutOfService(state: State) {
    state == Stopped || state == Failed
  }

  /** A generation out of service stays out of service and gains no session. */
  lemma OutOfServiceAbsorbs(m: Manager, op: Op, id: string)
    requires Inv(m) && Regular(m, op) && id in m.generations && OutOfService(m.generations[id].state)
    ensures id in Apply(m, op).generations && OutOfService(Apply(m, op).generations[id].state)
    ensures Apply(m, op).generations[id].sessions <= m.generations[id].sessions
  {
    if op.Create? { NextIdFresh(m, op.provider); }
    StaysOut(m, op, id);
  }

  lemma StaysOut(m: Manager, op: Op, id: string)
    requires id in m.generations && OutOfService(m.generations[id].state) && (op.Create? ==> NextId(m, op.provider) != id)
    requires forall p :: p in m.active ==> m.active[p] in m.generations && m.generations[m.active[p]].state == Active
    ensures id in Apply(m, op).generations && OutOfService(Apply(m, op).generations[id].state)
    ensures Apply(m, op).generations[id].sessions <= m.generations[id].sessions
  {
  }

  /** A generation becomes Stopped only while nobody holds a session on it. */
  lemma StopsOnlyIdle(m: Manager, op: Op, id: string)
    requires Inv(m) && Regular(m, op) && id in m.generations && m.generations[id].state != Stopped
    requires id in Apply(m, op).generations && Apply(m, op).generations[id].state == Stopped
    ensures op == Dispose(id) && HandlesOf(m.open, id) == {} && HandlesOf(Apply(m, op).open, id) == {}
  {
    if op.Create? { NextIdFresh(m, op.provider); }
    OnlyDisposeStops(m, op, id);
    assert |HandlesOf(m.open, id)| == 0;
  }

  lemma OnlyDisposeStops(m: Manager, op: Op, id: string)
    requires id in m.generations && m.generations[id].state != Stopped
    requires op.Create? ==> NextId(m, op.provider) != id
    requires id in Apply(m, op).generations && Apply(m, op).generations[id].state == Stopped
    ensures op == Dispose(id) && m.generations[id].sessions <= 0 && Apply(m, op).open == m.open
  {
  }

  /** A run of regular calls from the empty manager. */
  ghost predicate Run(ms: seq<Manager>, ops: seq<Op>) {
    && |ms| == |ops| + 1 && ms[0] == Manager(map[], map[], 0, map[])
    && forall t :: 0 <= t < |ops| ==> StepAt(ms, ops, t)
  }

  ghost predicate StepAt(ms: seq<Manager>, ops: seq<Op>, t: nat)
    requires t < |ops| && t + 1 < |ms|
  {
    Regular(ms[t], ops[t]) && ms[t + 1] == Apply(ms[t], ops[t])
  }

  lemma {:induction false} RunInv(ms: seq<Manager>, ops: seq<Op>, t: nat)
    requires Run(ms, ops) && t < |ms|
    ensures Inv(ms[t])
  {
    if t > 0 {
      RunInv(ms, ops, t - 1);
      assert StepAt(ms, ops, t - 1);
      LifecycleStep(ms[t - 1], ops[t - 1]);
    }
  }

  /** Over any run: once out of service, for ever out of service, with ever fewer sessions. */
  lemma {:induction false} RunAbsorbs(ms: seq<Manager>, ops: seq<Op>, t: nat, u: nat, id: string)
    requires Run(ms, ops) && t <= u < |ms| && id in ms[t].generations && OutOfService(ms[t].generations[id].state)
    ensures id in ms[u].generations && OutOfService(ms[u].generations[id].state)
    ensures ms[u].generations[id].sessions <= ms[t].generations[id].sessions
  {
    if t < u {
      RunAbsorbs(ms, ops, t, u - 1, id);
      RunInv(ms, ops, u - 1);
      assert StepAt(ms, ops, u - 1);
      OutOfServiceAbsorbs(ms[u - 1], ops[u - 1], id);
    }
  }

  /** The provider has the generation in service as its active one. */
  ghost predicate ActiveFor(m: Manager, provider: string, id: string) {
    id in m.generations && m.generations[id].state == Active && m.generations[id].provider.id == provider
  }

  // ---------------------------------------------------------------- when names can be reused

  /** A stored candidate of a provider. */
  function Stored(id: string, provider: string): Generation {
    Generation(id, Provider(provider, "1"), "h", "e", "r", Candidate, 0)
  }

  /** Two restores after which the counter is at its maximum and the name after the wrap is in use. */
  lemma WrapReuses(provider: string) returns (ms: seq<Manager>, ops: seq<Op>)
    requires provider != ""
    ensures Run(ms, ops) && |ms| == 3 && ms[2].sequence == WORD - 1
    ensures forall p: Provider :: p.id == provider ==> NextId(ms[2], p) in ms[2].generations
  {
    var big, zero := "x" + "-" + Print(WORD - 1), provider + "-" + Print(0);
    SuffixRoundTrip("x", WORD - 1);
    SuffixRoundTrip(provider, 0);
    var m0 := Manager(map[], map[], 0, map[]);
    var m1 := m0.(generations := map[big := Stored(big, "x")], sequence := WORD - 1);
    var m2 := m1.(generations := m1.generations[zero := Stored(zero, provider)]);
    StoreCandidate(m0, big, "x");
    StoreCandidate(m1, zero, provider);
    ms, ops := [m0, m1, m2], [Restore(Stored(big, "x")), Restore(Stored(zero, provider))];
    assert StepAt(ms, ops, 0) && StepAt(ms, ops, 1);
    assert NextSequence(m2) == 0;
  }

  lemma StoreCandidate(m: Manager, id: string, provider: string)
    requires id !in m.generations && id != "" && provider != ""
    ensures Regular(m, Restore(Stored(id, provider)))
    ensures Apply(m, Restore(Stored(id, provider))) ==
      m.(generations := m.generations[id := Stored(id, provider)], sequence := if SuffixNumber(id) > m.sequence then SuffixNumber(id) else m.sequence)
  {
  }

  /** The next name is unused in every run that reaches a counter value exactly when that does not wrap. */
  lemma NextIdFreshExactly(sequence: nat, provider: Provider)
    requires sequence < WORD && provider.id != ""
    ensures sequence + 1 < WORD <==>
      forall ms: seq<Manager>, ops: seq<Op>, t: nat :: Run(ms, ops) && t < |ms| && ms[t].sequence == sequence ==> NextId(ms[t], provider) !in ms[t].generations
  {
    if sequence + 1 < WORD {
      forall ms: seq<Manager>, ops: seq<Op>, t: nat | Run(ms, ops) && t < |ms| && ms[t].sequence == sequence ensures NextId(ms[t], provider) !in ms[t].generations {
        RunInv(ms, ops, t);
        NextIdFresh(ms[t], provider);
      }
    } else {
      var ms, ops := WrapReuses(provider.id);
      assert Run(ms, ops) && 2 < |ms| && ms[2].sequence == sequence && NextId(ms[2], provider) in ms[2].generations;
    }
  }

  // ---------------------------------------------------------------- names over any run

  /** Any calls whatever, colliding restores among them, as long as no creation wraps the counter. */
  ghost predicate NamingRun(ms: seq<Manager>, ops: seq<Op>) {
    && |ms| == |ops| + 1 && ms[0] == Manager(map[], map[], 0, map[])
    && forall t :: 0 <= t < |ops| ==> NamingStep(ms, ops, t)
  }

  ghost predicate NamingStep(ms: seq<Manager>, ops: seq<Op>, t: nat)
    requires t < |ops| && t + 1 < |ms|
  {
    (ops[t].Create? ==> ms[t].sequence + 1 < WORD) && ms[t + 1] == Apply(ms[t], ops[t])
  }

  lemma CounterStep(m: Manager, op: Op)
    requires CounterOk(m.generations, m.sequence) && (op.Create? ==> m.sequence + 1 < WORD)
    ensures CounterOk(Apply(m, op).generations, Apply(m, op).sequence)
  {
    match op
    case Restore(record) => if CompleteRecord(record) && record.id !in m.generations { RestoreCounts(m, record); }
    case Create(provider, _, _, _) => SuffixRoundTrip(provider.id, NextSequence(m));
    case _ => SameNames(m, op);
  }

  lemma SameNames(m: Manager, op: Op)
    requires !op.Create? && !op.Restore?
    ensures Apply(m, op).generations.Keys == m.generations.Keys && Apply(m, op).sequence == m.sequence
  {
  }

  /** Over any mix of restores and creations no name is given out twice. */
  lemma {:induction false} NamesNeverReused(ms: seq<Manager>, ops: seq<Op>, t: nat, provider: Provider)
    requires NamingRun(ms, ops) && t < |ms|
    ensures CounterOk(ms[t].generations, ms[t].sequence)
    ensures ms[t].sequence + 1 < WORD ==> NextId(ms[t], provider) !in ms[t].generations
  {
    if t > 0 {
      NamesNeverReused(ms, ops, t - 1, provider);
      assert NamingStep(ms, ops, t - 1);
      CounterStep(ms[t - 1], ops[t - 1]);
    }
    if ms[t].sequence + 1 < WORD { NextIdFresh(ms[t], provider); }
  }

  // ---------------------------------------------------------------- the manager object

  /** A handle on a generation; its first close counts. */
  class GenerationSession {
    const generationId: string
    ghost const handle: nat
    var once: bool

    constructor (generationId: string, ghost handle: nat)
      ensures this.generationId == generationId && this.handle == handle && !once
    {
      this.generationId := generationId;
      this.handle := handle;
      once := false;
    }
  }

  class ProviderLifecycleManager {
    var generations: Generations
    var active: map<string, string>
    var sequence: nat
    ghost var open: map<nat, string>
    ghost var issued: nat

    ghost function View(): Manager
      reads this
    {
      Manager(generations, active, sequence, open)
    }

    ghost predicate Valid()
      reads this
    {
      Inv(View()) && forall n :: n in open ==> n < issued
    }

    constructor ()
      ensures Valid() && View() == Manager(map[], map[], 0, map[])
    {
      generations, active, sequence := map[], map[], 0;
      open, issued := map[], 0;
    }

    method ActiveOf(provider: string) returns (id: string)
      ensures id == ActiveId(View(), provider)
    {
      id := if provider in active then active[provider] else "";
    }

    method SetState(id: string, state: State)
      requires id in generations
      modifies this`generations
      ensures View() == old(WithState(View(), id, state))
    {
      generations := generations[id := generations[id].(state := state)];
    }

    /** A colliding record is stored before the error, which is when the invariant is lost. */
    method Restore(record: Generation) returns (ok: bool)
      requires Valid()
      modifies this
      ensures View() == old(Apply(View(), Op.Restore(record)))
      ensures ok == old(CompleteRecord(record) && (record.id in generations || !Collides(View(), record)))
      ensures ok ==> Valid()
      ensures !ok && CompleteRecord(record) ==> !Valid()
      ensures CompleteRecord(record) && record.id !in old(generations) && !record.state.Other? ==>
        generations == old(generations)[record.id := record.(sessions := 0)]
    {
      if !CompleteRecord(record) {
        return false;
      }
      if record.id in generations {
        return true;
      }
      RestoreKeeps(View(), record);
      var g := record.(state := if record.state == Other("") then Candidate else record.state, sessions := 0);
      var current := ActiveOf(g.provider.id);
      generations := generations[g.id := g];
      if SuffixNumber(g.id) > sequence {
        sequence := SuffixNumber(g.id);
      }
      if g.state == Active {
        if current != "" && current != g.id {
          return false;
        }
        active := active[g.provider.id := g.id];
      }
      ok := true;
    }

    method CreateCandidate(provider: Provider, manifestHash: string, endpoint: string, catalogRevision: string)
      returns (r: Option<Generation>)
      requires Valid()
      modifies this
      ensures View() == old(Apply(View(), Create(provider, manifestHash, endpoint, catalogRevision)))
      ensures r.Some? && old(sequence) + 1 < WORD ==> Valid() && r.value.id !in old(generations) && r.value in generations.Values
      ensures r.None? ==> View() == old(View())
      ensures r.Some? <==> provider.id != "" && provider.version != "" && manifestHash != "" && endpoint != "" && !Blank(catalogRevision)
      ensures r.Some? ==> r.value == Generation(r.value.id, provider, manifestHash, endpoint, catalogRevision, Candidate, 0)
    {
      if provider.id == "" || provider.version == "" || manifestHash == "" || endpoint == "" || Blank(catalogRevision) {
        return None;
      }
      if sequence + 1 < WORD {
        NextIdFresh(View(), provider);
        CreateKeeps(View(), provider, manifestHash, endpoint, catalogRevision);
      }
      var g := Number(provider, manifestHash, endpoint, catalogRevision);
      r := Some(g);
    }

    method Number(provider: Provider, manifestHash: string, endpoint: string, catalogRevision: string) returns (g: Generation)
      modifies this`sequence, this`generations
      ensures View() == old(Created(View(), provider, manifestHash, endpoint, catalogRevision))
      ensures g.id == old(NextId(View(), provider)) && generations[g.id] == g
      ensures g == Generation(g.id, provider, manifestHash, endpoint, catalogRevision, Candidate, 0)
    {
      sequence := (sequence + 1) % WORD;
      var id := provider.id + "-" + Print(sequence);
      g := Generation(id, provider, manifestHash, endpoint, catalogRevision, Candidate, 0);
      generations := generations[id := g];
    }

    /** `Refresh`: the declaration of an active generation after a live reconnect. */
    method Refresh(id: string, manifestHash: string, catalogRevision: string) returns (ok: bool)
      requires Valid()
      modifies this
      ensures Valid() && View() == old(Apply(View(), Op.Refresh(id, manifestHash, catalogRevision)))
      ensures ok == old(!Blank(id) && !Blank(manifestHash) && !Blank(catalogRevision) && id in generations && generations[id].state == Active)
      ensures ok ==> generations[id].manifestHash == manifestHash && generations[id].catalogRevision == catalogRevision
    {
      RefreshKeeps(View(), id, manifestHash, catalogRevision);
      if Blank(id) || Blank(manifestHash) || Blank(catalogRevision) || id !in generations || generations[id].state != Active {
        return false;
      }
      generations := generations[id := generations[id].(manifestHash := manifestHash, catalogRevision := catalogRevision)];
      ok := true;
    }

    method MarkReady(id: string) returns (ok: bool)
      requires Valid()
      modifies this
      ensures Valid() && View() == old(Apply(View(), Op.MarkReady(id)))
      ensures ok == old(id in generations && generations[id].state == Candidate)
    {
      LifecycleStep(View(), Op.MarkReady(id));
      if id !in generations || generations[id].state != Candidate {
        return false;
      }
      SetState(id, Ready);
      ok := true;
    }

    method Activate(id: string) returns (ok: bool, previous: Option<string>)
      requires Valid()
      modifies this
      ensures Valid() && View() == old(Apply(View(), Op.Activate(id)))
      ensures ok == old(CanActivate(View(), id))
      ensures ok ==> previous == old(Displaced(View(), id))
    {
      LifecycleStep(View(), Op.Activate(id));
      ok, previous := Switch(id);
    }

    method Switch(id: string) returns (ok: bool, previous: Option<string>)
      modifies this`generations, this`active
      ensures View() == old(Apply(View(), Op.Activate(id)))
      ensures ok == old(CanActivate(View(), id))
      ensures ok ==> previous == old(Displaced(View(), id))
    {
      if id !in generations || generations[id].state != Ready {
        return false, None;
      }
      var provider := generations[id].provider.id;
      var last := ActiveOf(provider);
      previous := None;
      if last != "" && last != id && last in generations && generations[last].state == Active {
        SetState(last, Draining);
        previous := Some(last);
      }
      SetState(id, Active);
      active := active[provider := id];
      ok := true;
    }

    method RollbackActivation(id: string, previous: string) returns (ok: bool)
      requires Valid()
      modifies this
      ensures Valid() && View() == old(Apply(View(), Rollback(id, previous)))
      ensures ok == old(CanRollback(View(), id, previous))
    {
      LifecycleStep(View(), Rollback(id, previous));
      ok := SwitchBack(id, previous);
    }

    method SwitchBack(id: string, previous: string) returns (ok: bool)
      modifies this`generations, this`active
      ensures View() == old(Apply(View(), Rollback(id, previous)))
      ensures ok == old(CanRollback(View(), id, previous))
    {
      if id !in generations {
        return false;
      }
      var provider := generations[id].provider.id;
      var current := ActiveOf(provider);
      if current != id || generations[id].state != Active || generations[id].sessions > 0 {
        return false;
      }
      if previous == "" {
        active := active - {provider};
        SetState(id, Failed);
        return true;
      }
      if previous !in generations || generations[previous].provider.id != provider || generations[previous].state != Draining {
        return false;
      }
      SetState(previous, Active);
      SetState(id, Failed);
      active := active[provider := previous];
      ok := true;
    }

    method NewSession(id: string) returns (s: GenerationSession)
      requires Valid() && id in generations && AcceptsSession(generations[id].state)
      modifies this
      ensures Valid() && fresh(s) && !s.once && s.generationId == id
      ensures s.handle !in old(open) && View() == old(Opened(View(), id, issued)) && s.handle == old(issued)
    {
      OpenKeeps(View(), id, issued);
      s := new GenerationSession(id, issued);
      CountSession(id);
    }

    method CountSession(id: string)
      requires id in generations && forall n :: n in open ==> n < issued
      modifies this
      ensures View() == old(Opened(View(), id, issued)) && issued == old(issued) + 1
      ensures forall n :: n in open ==> n < issued
    {
      generations := generations[id := generations[id].(sessions := generations[id].sessions + 1)];
      open := open[issued := id];
      issued := issued + 1;
    }

    method OpenSession(provider: string) returns (s: GenerationSession?)
      requires Valid()
      modifies this
      ensures Valid()
      ensures s == null ==> View() == old(View()) && !old(ServesActive(View(), provider))
      ensures s != null ==> fresh(s) && !s.once && s.handle !in old(open) && s.generationId == old(ActiveId(View(), provider))
      ensures s != null ==> old(ServesActive(View(), provider)) && View() == old(Opened(View(), ActiveId(View(), provider), issued))
    {
      var id := ActiveOf(provider);
      if id !in generations || generations[id].state != Active {
        return null;
      }
      s := NewSession(id);
    }

    method OpenSessionForGeneration(provider: string, id: string) returns (s: GenerationSession?)
      requires Valid()
      modifies this
      ensures Valid()
      ensures s == null ==> View() == old(View()) && !old(ServesOn(View(), provider, id))
      ensures s != null ==> fresh(s) && !s.once && s.handle !in old(open) && s.generationId == id
      ensures s != null ==> old(ServesOn(View(), provider, id)) && View() == old(Opened(View(), id, issued))
    {
      if Blank(id) || id !in generations || generations[id].provider.id != provider || !AcceptsSession(generations[id].state) {
        return null;
      }
      s := NewSession(id);
    }

    /** `GenerationSession.Close`: the first call gives the session back, later ones do nothing. */
    method Close(s: GenerationSession)
      requires Valid() && (!s.once ==> s.handle in open && open[s.handle] == s.generationId)
      modifies this, s
      ensures Valid() && s.once
      ensures View() == if old(s.once) then old(View()) else old(Apply(View(), Op.Close(s.handle)))
    {
      if s.once {
        return;
      }
      s.once := true;
      CloseKeeps(View(), s.handle);
      GiveBack(s.generationId, s.handle);
    }

    method GiveBack(id: string, ghost handle: nat)
      requires handle in open && open[handle] == id
      modifies this`generations, this`open
      ensures View() == old(Closed(View(), handle))
    {
      if id in generations && generations[id].sessions > 0 {
        generations := generations[id := generations[id].(sessions := generations[id].sessions - 1)];
      }
      open := open - {handle};
    }

    method Fail(id: string) returns (ok: bool)
      requires Valid()
      modifies this
      ensures Valid() && View() == old(Apply(View(), Op.Fail(id))) && ok == (id in old(generations))
    {
      LifecycleStep(View(), Op.Fail(id));
      if id !in generations {
        return false;
      }
      var provider := generations[id].provider.id;
      var current := ActiveOf(provider);
      SetState(id, Failed);
      if current == id {
        active := active - {provider};
      }
      ok := true;
    }

    method Dispose(id: string) returns (ok: bool)
      requires Valid()
      modifies this
      ensures Valid() && View() == old(Apply(View(), Op.Dispose(id)))
      ensures ok == old(id in generations && generations[id].sessions <= 0)
    {
      LifecycleStep(View(), Op.Dispose(id));
      if id !in generations || generations[id].sessions > 0 {
        return false;
      }
      var provider := generations[id].provider.id;
      var current := ActiveOf(provider);
      if current == id {
        active := active - {provider};
      }
      SetState(id, Stopped);
      ok := true;
    }

    /** The sessions other callers hold: each unclosed one has a handle of its own. */
    ghost predicate Holds(held: set<GenerationSession>)
      reads this, held
    {
      && (forall s :: s in held && !s.once ==> s.handle in open && open[s.handle] == s.generationId)
      && forall s, t :: s in held && t in held && s != t && !s.once && !t.once ==> s.handle != t.handle
    }

    /** A call of somebody else that moves a generation. */
    method OtherMove(id: string, other: string, kind: nat)
      requires Valid()
      modifies this
      ensures Valid() && open == old(open)
    {
      var ok;
      ghost var m := View();
      if kind == 0 {
        ok := Fail(id);
        KeepsOpen(m, Op.Fail(id));
      } else if kind == 1 {
        ok := Dispose(id);
        KeepsOpen(m, Op.Dispose(id));
      } else {
        OtherSwitch(id, other, kind);
      }
    }

    method OtherSwitch(id: string, other: string, kind: nat)
      requires Valid()
      modifies this
      ensures Valid() && open == old(open)
    {
      var ok;
      ghost var m := View();
      if kind == 2 {
        ok := RollbackActivation(id, other);
        KeepsOpen(m, Rollback(id, other));
      } else if kind == 3 {
        var previous;
        ok, previous := Activate(id);
        KeepsOpen(m, Op.Activate(id));
      } else {
        ok := MarkReady(id);
        KeepsOpen(m, Op.MarkReady(id));
      }
    }

    /** One call of somebody else: a move, a new session, or the close of a session they hold. */
    method OtherCall(id: string, other: string, kind: nat, held: set<GenerationSession>)
      requires Valid() && Holds(held)
      modifies this, held
      ensures Valid() && Holds(held)
    {
      if kind <= 4 {
        OtherMove(id, other, kind);
      } else if kind == 5 || held == {} {
        var s := OpenSessionForGeneration(other, id);
      } else {
        var s :| s in held;
        Close(s);
      }
    }

    /** Whatever other callers do while the mutex is free. */
    method Interfere(held: set<GenerationSession>)
      requires Valid() && Holds(held)
      modifies this, held
      ensures Valid() && Holds(held)
    {
      var calls: nat :| 0 <= calls;
      for i := 0 to calls
        invariant Valid() && Holds(held)
      {
        var id: string := *;
        var other: string := *;
        var kind: nat :| 0 <= kind;
        OtherCall(id, other, kind, held);
      }
    }

    /**
     `Drain`: polls until the generation has no session, then disposes of it. Success means
     that it is stopped and that nobody holds a session on it, whatever happened between;
     unless the caller or the deadline ends the wait, failure means that somebody does.
     */
    method Drain(id: string, cancelOnTimeout: bool, held: set<GenerationSession>) returns (ok: bool, ghost waitEnded: bool)
      requires Valid() && Holds(held)
      modifies this, held
      ensures Valid() && Holds(held)
      ensures ok ==> id in generations && generations[id].state == Stopped && HandlesOf(open, id) == {}
      ensures ok ==> forall s :: s in held && s.generationId == id ==> s.once
      ensures !ok && !waitEnded ==> id !in generations || HandlesOf(open, id) != {}
    {
      waitEnded := false;
      var rounds: nat :| 1 <= rounds;
      for round := 0 to rounds
        invariant Valid() && Holds(held) && !waitEnded
      {
        if id !in generations {
          return false, waitEnded;
        }
        var sessions := generations[id].sessions;
        Interfere(held);
        if sessions == 0 {
          ok := DisposeIdle(id);
          return;
        }
      }
      var timedOut: bool := *;
      if timedOut && cancelOnTimeout {
        ok := DisposeIdle(id);
      } else {
        ok, waitEnded := false, true;
      }
    }

    method DisposeIdle(id: string) returns (ok: bool)
      requires Valid()
      modifies this
      ensures Valid() && open == old(open)
      ensures ok ==> id in generations && generations[id].state == Stopped && HandlesOf(open, id) == {}
      ensures ok ==> forall n :: n in open ==> open[n] != id
      ensures !ok ==> id !in generations || HandlesOf(open, id) != {}
    {
      ok := Dispose(id);
      StoppedIsIdle(View(), id);
      assert forall n :: n in open && open[n] == id ==> n in HandlesOf(open, id);
    }
  }

  lemma KeepsOpen(m: Manager, op: Op)
    requires !op.OpenActive? && !op.OpenOn? && !op.Close?
    ensures Apply(m, op).open == m.open
  {
  }

  lemma StoppedIsIdle(m: Manager, id: string)
    requires Inv(m)
    ensures id in m.generations && m.generations[id].state == Stopped ==> HandlesOf(m.open, id) == {}
  {
    if id in m.generations && m.generations[id].state == Stopped {
      assert |HandlesOf(m.open, id)| == 0;
    }
  }
}
