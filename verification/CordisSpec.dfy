/**
 The plugin kernel on values: what a context holds, what applying a plugin may do to it and
 what disposing of a fiber takes away again.
 */
module CordisSpec {
  type Key = string
  type Effect = string

  datatype Service = Service(key: Key, instance: nat)

  datatype Registration = Registration(id: nat, owner: string)

  /** How to stop one listener: the event and the number of the registration. */
  datatype Stop = Stop(event: string, id: nat)

  datatype FiberView = FiberView(id: string, order: nat, injects: seq<Key>, effects: seq<Effect>, stops: seq<Stop>, services: seq<Key>)

  datatype Ctx = Ctx(
    services: map<Key, Service>,
    owners: map<Key, string>,
    plugins: map<string, FiberView>,
    listeners: map<string, seq<Registration>>,
    events: set<string>,
    nextId: nat,
    nextOrder: nat
  )

  /** One effect that was run: whose it was, and whether its plugin's services were there. */
  datatype Ran = Ran(effect: Effect, plugin: string, resolvable: bool)

  // ---------------------------------------------------------------- listeners

  function At(listeners: map<string, seq<Registration>>, event: string): seq<Registration> {
    if event in listeners then listeners[event] else []
  }

  ghost predicate SameListeners(a: map<string, seq<Registration>>, b: map<string, seq<Registration>>) {
    forall e :: At(a, e) == At(b, e)
  }

  /** The first registration with the number is taken out. */
  function Drop(regs: seq<Registration>, id: nat): seq<Registration> {
    if regs == [] then []
    else if regs[0].id == id then regs[1..]
    else [regs[0]] + Drop(regs[1..], id)
  }

  function Stopped(listeners: map<string, seq<Registration>>, stop: Stop): map<string, seq<Registration>> {
    if exists i :: 0 <= i < |At(listeners, stop.event)| && At(listeners, stop.event)[i].id == stop.id
    then listeners[stop.event := Drop(At(listeners, stop.event), stop.id)]
    else listeners
  }

  /** All stops of a fiber, the last one first. */
  function StoppedAll(listeners: map<string, seq<Registration>>, stops: seq<Stop>): map<string, seq<Registration>> {
    if stops == [] then listeners
    else StoppedAll(Stopped(listeners, stops[|stops| - 1]), stops[..|stops| - 1])
  }

  // ---------------------------------------------------------------- applying a plugin

  /** What a plugin's code may ask of the context while it is applied. */
  datatype Command =
    | Provide(service: Service)
    | AddEffect(effect: Effect)
    | On(event: string)
    | StopOwn(index: nat)
    | DefineEvent(name: string, supported: bool)

  datatype Applying = Applying(ctx: Ctx, fiber: FiberView)

  /** One command; a refused one changes nothing. */
  function Obey(a: Applying, command: Command): Applying {
    var c, f := a.ctx, a.fiber;
    match command
    case Provide(service) =>
      if service.key == "" || service.key in c.services then a
      else Applying(
        c.(services := c.services[service.key := service], owners := c.owners[service.key := f.id]),
        f.(services := f.services + [service.key]))
    case AddEffect(effect) => Applying(c, f.(effects := f.effects + [effect]))
    case On(event) =>
      if event == "" || event !in c.events then a
      else
        var id := c.nextId + 1;
        Applying(
          c.(nextId := id, listeners := c.listeners[event := At(c.listeners, event) + [Registration(id, f.id)]]),
          f.(stops := f.stops + [Stop(event, id)]))
    case StopOwn(index) =>
      if index < |f.stops| then Applying(c.(listeners := Stopped(c.listeners, f.stops[index])), f) else a
    case DefineEvent(name, supported) =>
      if name == "" || !supported || name in c.events then a else Applying(c.(events := c.events + {name}), f)
  }

  function ObeyAll(a: Applying, script: seq<Command>): Applying {
    if script == [] then a else Obey(ObeyAll(a, script[..|script| - 1]), script[|script| - 1])
  }

  /** What disposing of a fiber leaves of the context. */
  function Disposed(c: Ctx, f: FiberView): Ctx {
    var gone := set k | k in f.services && k in c.owners && c.owners[k] == f.id;
    c.(services := c.services - gone, owners := c.owners - gone, plugins := c.plugins - {f.id},
       listeners := StoppedAll(c.listeners, f.stops))
  }

  // ---------------------------------------------------------------- invariants

  /** The fiber owns exactly the services it lists. */
  ghost predicate Owns(c: Ctx, f: FiberView) {
    forall k :: k in f.services <==> k in c.owners && c.owners[k] == f.id
  }

  /** Everything the fiber injected is provided, by somebody mounted before it. */
  ghost predicate Injected(c: Ctx, f: FiberView) {
    forall k :: k in f.injects ==>
      k in c.services && k in c.owners && c.owners[k] in c.plugins && c.plugins[c.owners[k]].order < f.order
  }

  ghost predicate PluginsOk(c: Ctx) {
    && (forall id :: id in c.plugins ==>
      c.plugins[id].id == id && c.plugins[id].order <= c.nextOrder && Owns(c, c.plugins[id]))
    && forall a, b :: a in c.plugins && b in c.plugins && a != b ==> c.plugins[a].order != c.plugins[b].order
  }

  /** Numbers of one event are distinct and taken from the counter. */
  ghost predicate Numbered(regs: seq<Registration>, nextId: nat) {
    && (forall i :: 0 <= i < |regs| ==> regs[i].id <= nextId)
    && forall i, j :: 0 <= i < j < |regs| ==> regs[i].id != regs[j].id
  }

  /** Every registration belongs to a mounted plugin that knows how to stop it. */
  ghost predicate Stoppable(regs: seq<Registration>, e: string, plugins: map<string, FiberView>) {
    forall i :: 0 <= i < |regs| ==>
      regs[i].owner in plugins && Stop(e, regs[i].id) in plugins[regs[i].owner].stops
  }

  ghost predicate ListenersOk(c: Ctx) {
    forall e {:trigger At(c.listeners, e)} ::
      Numbered(At(c.listeners, e), c.nextId) && Stoppable(At(c.listeners, e), e, c.plugins)
  }

  ghost predicate Inv(c: Ctx) {
    var inv := c.services.Keys == c.owners.Keys && PluginsOk(c) && ListenersOk(c)
      && (forall k :: k in c.owners ==> c.owners[k] in c.plugins);
    inv
  }

  ghost predicate AllInjected(c: Ctx) {
    forall id :: id in c.plugins ==> Injected(c, c.plugins[id])
  }

  // ---------------------------------------------------------------- while a plugin is applied

  /** What the commands of a plugin have added to the context it found. */
  ghost predicate Added(c0: Ctx, a: Applying) {
    var added := a.ctx.plugins == c0.plugins && c0.events <= a.ctx.events && a.ctx.nextOrder == c0.nextOrder
      && c0.nextId <= a.ctx.nextId && AddedServices(c0, a) && AddedListeners(c0, a);
    added
  }

  ghost predicate AddedServices(c0: Ctx, a: Applying) {
    && (forall k :: k in a.fiber.services <==> k in a.ctx.services && k !in c0.services)
    && (forall k :: k in c0.services ==> k in a.ctx.services && a.ctx.services[k] == c0.services[k])
    && (forall k :: k in c0.owners ==> k in a.ctx.owners && a.ctx.owners[k] == c0.owners[k])
    && a.ctx.owners.Keys == a.ctx.services.Keys
    && forall k :: k in a.fiber.services ==> a.ctx.owners[k] == a.fiber.id
  }

  /** Every event has its old listeners first, then some of the fiber's own. */
  ghost predicate AddedListeners(c0: Ctx, a: Applying) {
    && (forall e {:trigger At(c0.listeners, e)} {:trigger At(a.ctx.listeners, e)} ::
      Extends(At(c0.listeners, e), At(a.ctx.listeners, e), e, a.fiber.id, a.fiber.stops) && Numbered(At(a.ctx.listeners, e), a.ctx.nextId))
    && (forall s :: s in a.fiber.stops ==> c0.nextId < s.id <= a.ctx.nextId)
  }

  ghost predicate Extends(before: seq<Registration>, now: seq<Registration>, e: string, owner: string, stops: seq<Stop>) {
    && before <= now
    && forall i :: |before| <= i < |now| ==> now[i].owner == owner && Stop(e, now[i].id) in stops
  }

  /** Dropping a number takes out the one registration that has it. */
  lemma {:induction false} DropAt(regs: seq<Registration>, i: nat)
    requires i < |regs| && forall j, k :: 0 <= j < k < |regs| ==> regs[j].id != regs[k].id
    ensures Drop(regs, regs[i].id) == regs[..i] + regs[i + 1..]
  {
    if i > 0 {
      DropAt(regs[1..], i - 1);
      assert regs[1..][i - 1] == regs[i];
      assert [regs[0]] + (regs[1..][..i - 1] + regs[1..][i..]) == regs[..i] + regs[i + 1..];
    }
  }

  lemma DropNumbered(regs: seq<Registration>, i: nat, nextId: nat)
    requires i < |regs| && Numbered(regs, nextId)
    ensures Numbered(Drop(regs, regs[i].id), nextId)
    ensures forall r :: r in Drop(regs, regs[i].id) ==> r in regs && r.id != regs[i].id
  {
    DropAt(regs, i);
    var rest := regs[..i] + regs[i + 1..];
    WithoutOne(regs, i, rest);
    forall r | r in rest ensures r in regs && r.id != regs[i].id {
      var k :| 0 <= k < |rest| && rest[k] == r;
    }
  }

  lemma WithoutOne(regs: seq<Registration>, i: nat, rest: seq<Registration>)
    requires i < |regs| && rest == regs[..i] + regs[i + 1..]
    ensures |rest| == |regs| - 1 && forall k :: 0 <= k < |rest| ==> rest[k] == regs[if k < i then k else k + 1]
  {
  }

  lemma DropExtends(before: seq<Registration>, now: seq<Registration>, e: string, owner: string, stops: seq<Stop>, i: nat)
    requires Extends(before, now, e, owner, stops) && |before| <= i < |now|
    requires forall j, k :: 0 <= j < k < |now| ==> now[j].id != now[k].id
    ensures Extends(before, Drop(now, now[i].id), e, owner, stops)
  {
    DropAt(now, i);
    var rest := now[..i] + now[i + 1..];
    WithoutOne(now, i, rest);
    assert rest[..|before|] == before;
  }

  lemma MoreStops(before: seq<Registration>, now: seq<Registration>, e: string, owner: string, stops: seq<Stop>, s: Stop)
    requires Extends(before, now, e, owner, stops)
    ensures Extends(before, now, e, owner, stops + [s])
  {
  }

  lemma OnListener(before: seq<Registration>, now: seq<Registration>, e: string, owner: string, stops: seq<Stop>, nextId: nat)
    requires Extends(before, now, e, owner, stops) && Numbered(now, nextId)
    ensures var more := now + [Registration(nextId + 1, owner)];
      Extends(before, more, e, owner, stops + [Stop(e, nextId + 1)]) && Numbered(more, nextId + 1)
  {
  }

  lemma ObeyOn(c0: Ctx, a: Applying, event: string)
    requires Added(c0, a) && event != "" && event in a.ctx.events
    ensures Added(c0, Obey(a, On(event)))
  {
    ObeyOnListeners(c0, a, event);
    SameServices(c0, a, Obey(a, On(event)));
  }

  lemma ObeyOnListeners(c0: Ctx, a: Applying, event: string)
    requires AddedListeners(c0, a) && c0.nextId <= a.ctx.nextId && event != "" && event in a.ctx.events
    ensures AddedListeners(c0, Obey(a, On(event)))
  {
    var a', id := Obey(a, On(event)), a.ctx.nextId + 1;
    forall e ensures Extends(At(c0.listeners, e), At(a'.ctx.listeners, e), e, a'.fiber.id, a'.fiber.stops) && Numbered(At(a'.ctx.listeners, e), a'.ctx.nextId) {
      var before, now := At(c0.listeners, e), At(a.ctx.listeners, e);
      if e == event {
        OnListener(before, now, e, a.fiber.id, a.fiber.stops, a.ctx.nextId);
      } else {
        MoreStops(before, now, e, a.fiber.id, a.fiber.stops, Stop(event, id));
      }
    }
  }

  lemma ObeyStop(c0: Ctx, a: Applying, index: nat)
    requires ListenersOk(c0) && Added(c0, a) && index < |a.fiber.stops|
    ensures Added(c0, Obey(a, StopOwn(index)))
  {
    ObeyStopListeners(c0, a, index);
    SameServices(c0, a, Obey(a, StopOwn(index)));
  }

  /** A command about listeners leaves everything else alone. */
  lemma SameServices(c0: Ctx, a: Applying, a': Applying)
    requires Added(c0, a) && AddedListeners(c0, a')
    requires a'.ctx == a.ctx.(listeners := a'.ctx.listeners, nextId := a'.ctx.nextId) && a'.ctx.nextId >= a.ctx.nextId
    requires a'.fiber == a.fiber.(stops := a'.fiber.stops)
    ensures Added(c0, a')
  {
    assert AddedServices(c0, a');
  }

  lemma ObeyStopListeners(c0: Ctx, a: Applying, index: nat)
    requires ListenersOk(c0) && AddedListeners(c0, a) && index < |a.fiber.stops|
    ensures AddedListeners(c0, Obey(a, StopOwn(index)))
  {
    var a', stop := Obey(a, StopOwn(index)), a.fiber.stops[index];
    forall e ensures Extends(At(c0.listeners, e), At(a'.ctx.listeners, e), e, a'.fiber.id, a'.fiber.stops) && Numbered(At(a'.ctx.listeners, e), a'.ctx.nextId) {
      assert Numbered(At(c0.listeners, e), c0.nextId);
      StopOwnListener(At(c0.listeners, e), a.ctx.listeners, e, a.fiber.id, a.fiber.stops, stop, a.ctx.nextId, c0.nextId);
    }
  }

  lemma StopOwnListener(before: seq<Registration>, listeners: map<string, seq<Registration>>, e: string, owner: string, stops: seq<Stop>,
                        stop: Stop, nextId: nat, bound: nat)
    requires Extends(before, At(listeners, e), e, owner, stops) && Numbered(At(listeners, e), nextId)
    requires (forall i :: 0 <= i < |before| ==> before[i].id <= bound) && stop.id > bound
    ensures Extends(before, At(Stopped(listeners, stop), e), e, owner, stops) && Numbered(At(Stopped(listeners, stop), e), nextId)
  {
    var now := At(listeners, e);
    if stop.event == e && exists i :: 0 <= i < |now| && now[i].id == stop.id {
      var i :| 0 <= i < |now| && now[i].id == stop.id;
      assert i >= |before|;
      DropExtends(before, now, e, owner, stops, i);
      DropNumbered(now, i, nextId);
    }
  }

  lemma ObeyProvide(c0: Ctx, a: Applying, service: Service)
    requires c0.services.Keys == c0.owners.Keys && Added(c0, a)
    ensures Added(c0, Obey(a, Provide(service)))
  {
  }

  lemma ObeyKeeps(c0: Ctx, a: Applying, command: Command)
    requires c0.services.Keys == c0.owners.Keys && ListenersOk(c0) && Added(c0, a)
    ensures Added(c0, Obey(a, command)) && Obey(a, command).fiber.id == a.fiber.id && Obey(a, command).fiber.injects == a.fiber.injects
    ensures Obey(a, command).fiber.order == a.fiber.order
  {
    match command
    case Provide(service) => ObeyProvide(c0, a, service);
    case AddEffect(_) =>
    case DefineEvent(_, _) =>
    case On(event) => if event != "" && event in a.ctx.events { ObeyOn(c0, a, event); }
    case StopOwn(index) => if index < |a.fiber.stops| { ObeyStop(c0, a, index); }
  }

  // ---------------------------------------------------------------- a plugin that fails

  /** Stopping all of a fiber's listeners gives back what was there before it. */
  lemma {:induction false} StopsRestore(before: map<string, seq<Registration>>, now: map<string, seq<Registration>>,
                                        owner: string, stops: seq<Stop>, nextId: nat, bound: nat)
    requires forall e :: Extends(At(before, e), At(now, e), e, owner, stops) && Numbered(At(now, e), nextId)
    requires (forall e, i :: 0 <= i < |At(before, e)| ==> At(before, e)[i].id <= bound) && (forall s :: s in stops ==> s.id > bound)
    ensures SameListeners(StoppedAll(now, stops), before)
  {
    if stops == [] {
      forall e ensures At(now, e) == At(before, e) { NothingMore(At(before, e), At(now, e), e, owner, stops); }
    } else {
      var s, rest := stops[|stops| - 1], stops[..|stops| - 1];
      var next := Stopped(now, s);
      forall e ensures Extends(At(before, e), At(next, e), e, owner, rest) && Numbered(At(next, e), nextId) {
        StopOne(At(before, e), now, e, owner, stops, nextId, bound);
      }
      StopsRestore(before, next, owner, rest, nextId, bound);
    }
  }

  lemma NothingMore(before: seq<Registration>, now: seq<Registration>, e: string, owner: string, stops: seq<Stop>)
    requires Extends(before, now, e, owner, stops)
    ensures now == before || stops != []
  {
    if |before| < |now| {
      assert Stop(e, now[|before|].id) in stops;
    }
  }

  lemma StopOne(before: seq<Registration>, listeners: map<string, seq<Registration>>, e: string, owner: string, stops: seq<Stop>, nextId: nat, bound: nat)
    requires stops != [] && Extends(before, At(listeners, e), e, owner, stops) && Numbered(At(listeners, e), nextId)
    requires (forall i :: 0 <= i < |before| ==> before[i].id <= bound) && (forall s :: s in stops ==> s.id > bound)
    ensures var next := At(Stopped(listeners, stops[|stops| - 1]), e);
      Extends(before, next, e, owner, stops[..|stops| - 1]) && Numbered(next, nextId)
  {
    var s, rest, now := stops[|stops| - 1], stops[..|stops| - 1], At(listeners, e);
    assert s in stops;
    assert stops == rest + [s];
    if e == s.event && exists i :: 0 <= i < |now| && now[i].id == s.id {
      var i :| 0 <= i < |now| && now[i].id == s.id;
      assert i >= |before|;
      DropExtends(before, now, e, owner, stops, i);
      DropNumbered(now, i, nextId);
      var next := Drop(now, s.id);
      forall k | |before| <= k < |next| ensures Stop(e, next[k].id) in rest {
        assert next[k] in next && next[k].id != s.id;
        assert Stop(e, next[k].id) in stops;
      }
    } else {
      forall k | |before| <= k < |now| ensures Stop(e, now[k].id) in rest {
        assert Stop(e, now[k].id) in stops && Stop(e, now[k].id) != s;
      }
    }
  }

  /** A plugin whose Apply fails leaves services, owners, listeners and plugins as they were. */
  lemma FailedApplyRestores(c0: Ctx, a: Applying)
    requires Inv(c0) && Added(c0, a) && a.fiber.id !in c0.plugins
    ensures var c := Disposed(a.ctx, a.fiber);
      c.services == c0.services && c.owners == c0.owners && c.plugins == c0.plugins && SameListeners(c.listeners, c0.listeners)
  {
    var c := Disposed(a.ctx, a.fiber);
    var gone := set k | k in a.fiber.services && k in a.ctx.owners && a.ctx.owners[k] == a.fiber.id;
    forall k ensures k in gone <==> k in a.ctx.services && k !in c0.services { }
    assert c.services == c0.services;
    assert c.owners == c0.owners;
    forall e, i | 0 <= i < |At(c0.listeners, e)| ensures At(c0.listeners, e)[i].id <= c0.nextId {
      assert Numbered(At(c0.listeners, e), c0.nextId);
    }
    StopsRestore(c0.listeners, a.ctx.listeners, a.fiber.id, a.fiber.stops, a.ctx.nextId, c0.nextId);
  }

  // ---------------------------------------------------------------- a plugin that mounts

  function Mounted(a: Applying): Ctx {
    a.ctx.(plugins := a.ctx.plugins[a.fiber.id := a.fiber])
  }

  /** What a plugin finds when it is applied: an unused identity and everything it injects. */
  ghost predicate Mountable(c0: Ctx, f: FiberView) {
    && f.id != "" && f.id !in c0.plugins && (forall k :: k in f.injects ==> k in c0.services)
    && f.order <= c0.nextOrder && forall p :: p in c0.plugins ==> c0.plugins[p].order < f.order
  }

  lemma MountListeners(c0: Ctx, a: Applying)
    requires ListenersOk(c0) && AddedListeners(c0, a) && a.ctx.plugins == c0.plugins && a.fiber.id !in c0.plugins
    ensures ListenersOk(Mounted(a))
  {
    var c := Mounted(a);
    forall e ensures Numbered(At(c.listeners, e), c.nextId) && Stoppable(At(c.listeners, e), e, c.plugins) {
      var before, now := At(c0.listeners, e), At(a.ctx.listeners, e);
      assert Numbered(before, c0.nextId) && Stoppable(before, e, c0.plugins);
      assert Extends(before, now, e, a.fiber.id, a.fiber.stops);
      forall i | 0 <= i < |now| ensures now[i].owner in c.plugins && Stop(e, now[i].id) in c.plugins[now[i].owner].stops {
        if i < |before| { assert now[i] == before[i]; }
      }
    }
  }

  lemma MountOwners(c0: Ctx, a: Applying)
    requires Inv(c0) && Added(c0, a) && Mountable(c0, a.fiber)
    ensures PluginsOk(Mounted(a))
  {
    var c := Mounted(a);
    forall id | id in c.plugins ensures Owns(c, c.plugins[id]) {
      if id != a.fiber.id { assert Owns(c0, c0.plugins[id]); }
    }
  }

  /** Mounting keeps the invariant, and everything every plugin injected stays provided. */
  lemma MountKeeps(c0: Ctx, a: Applying)
    requires Inv(c0) && Added(c0, a) && Mountable(c0, a.fiber)
    ensures Inv(Mounted(a)) && (AllInjected(c0) ==> AllInjected(Mounted(a)))
  {
    MountListeners(c0, a);
    MountOwners(c0, a);
    if AllInjected(c0) { MountInjected(c0, a); }
  }

  lemma MountInjected(c0: Ctx, a: Applying)
    requires Inv(c0) && AllInjected(c0) && Added(c0, a) && Mountable(c0, a.fiber)
    ensures AllInjected(Mounted(a))
  {
    var c := Mounted(a);
    forall id | id in c.plugins ensures Injected(c, c.plugins[id]) {
      if id != a.fiber.id { assert Injected(c0, c0.plugins[id]); }
    }
  }

  // ---------------------------------------------------------------- disposing of one plugin

  lemma StoppedOnce(listeners: map<string, seq<Registration>>, stop: Stop, e: string, nextId: nat)
    requires forall x :: Numbered(At(listeners, x), nextId)
    ensures Numbered(At(Stopped(listeners, stop), e), nextId)
    ensures forall r :: r in At(Stopped(listeners, stop), e) ==> r in At(listeners, e) && Stop(e, r.id) != stop
  {
    var now := At(listeners, e);
    assert Numbered(now, nextId);
    if e == stop.event && exists i :: 0 <= i < |now| && now[i].id == stop.id {
      var i :| 0 <= i < |now| && now[i].id == stop.id;
      DropNumbered(now, i, nextId);
    }
  }

  /** Stopping removes every registration it names and adds none. */
  lemma {:induction false} StoppedSubset(listeners: map<string, seq<Registration>>, stops: seq<Stop>, nextId: nat, e: string)
    requires forall x :: Numbered(At(listeners, x), nextId)
    ensures Numbered(At(StoppedAll(listeners, stops), e), nextId)
    ensures forall r :: r in At(StoppedAll(listeners, stops), e) ==> r in At(listeners, e) && Stop(e, r.id) !in stops
  {
    if stops != [] {
      var s, rest := stops[|stops| - 1], stops[..|stops| - 1];
      forall x ensures Numbered(At(Stopped(listeners, s), x), nextId) { StoppedOnce(listeners, s, x, nextId); }
      StoppedSubset(Stopped(listeners, s), rest, nextId, e);
      StoppedOnce(listeners, s, e, nextId);
      forall r | r in At(StoppedAll(listeners, stops), e) ensures r in At(listeners, e) && Stop(e, r.id) !in stops {
        LastOrBefore(stops, Stop(e, r.id));
      }
    }
  }

  lemma LastOrBefore(stops: seq<Stop>, s: Stop)
    requires stops != []
    ensures s in stops <==> s in stops[..|stops| - 1] || s == stops[|stops| - 1]
  {
    assert stops == stops[..|stops| - 1] + [stops[|stops| - 1]];
  }

  lemma DisposeListeners(c: Ctx, id: string)
    requires ListenersOk(c) && id in c.plugins && c.plugins[id].id == id
    ensures ListenersOk(Disposed(c, c.plugins[id]))
  {
    var c', stops := Disposed(c, c.plugins[id]), c.plugins[id].stops;
    forall e ensures Numbered(At(c'.listeners, e), c'.nextId) && Stoppable(At(c'.listeners, e), e, c'.plugins) {
      forall x ensures Numbered(At(c.listeners, x), c.nextId) { assert Numbered(At(c.listeners, x), c.nextId); }
      StoppedSubset(c.listeners, stops, c.nextId, e);
      var now := At(c'.listeners, e);
      forall i | 0 <= i < |now| ensures now[i].owner in c'.plugins && Stop(e, now[i].id) in c'.plugins[now[i].owner].stops {
        assert now[i] in now;
        var k :| 0 <= k < |At(c.listeners, e)| && At(c.listeners, e)[k] == now[i];
        assert Stoppable(At(c.listeners, e), e, c.plugins);
      }
    }
  }

  lemma DisposeOwners(c: Ctx, id: string)
    requires Inv(c) && id in c.plugins
    ensures PluginsOk(Disposed(c, c.plugins[id]))
    ensures forall k :: k in Disposed(c, c.plugins[id]).owners <==> k in c.owners && c.owners[k] != id
  {
    var c' := Disposed(c, c.plugins[id]);
    assert Owns(c, c.plugins[id]);
    forall p | p in c'.plugins ensures Owns(c', c'.plugins[p]) { assert Owns(c, c.plugins[p]); }
  }

  lemma DisposeKeeps(c: Ctx, id: string)
    requires Inv(c) && id in c.plugins
    ensures Inv(Disposed(c, c.plugins[id]))
  {
    DisposeListeners(c, id);
    DisposeOwners(c, id);
  }

  /** Somebody else still needs a service of the plugin. */
  ghost predicate Needed(c: Ctx, id: string) {
    exists p, k :: p in c.plugins && p != id && k in c.plugins[p].injects && k in c.owners && c.owners[k] == id
  }

  /** Disposing of one plugin leaves the others' services in place exactly when none is needed. */
  lemma DisposeInjected(c: Ctx, id: string)
    requires Inv(c) && AllInjected(c) && id in c.plugins
    ensures AllInjected(Disposed(c, c.plugins[id])) <==> !Needed(c, id)
  {
    var c' := Disposed(c, c.plugins[id]);
    DisposeOwners(c, id);
    if Needed(c, id) {
      var p, k :| p in c.plugins && p != id && k in c.plugins[p].injects && k in c.owners && c.owners[k] == id;
      assert k !in c'.owners;
      assert !Injected(c', c'.plugins[p]);
    } else {
      forall p | p in c'.plugins ensures Injected(c', c'.plugins[p]) {
        assert Injected(c, c.plugins[p]);
      }
    }
  }

  /** The last plugin mounted is needed by nobody. */
  lemma LastNotNeeded(c: Ctx, id: string)
    requires Inv(c) && AllInjected(c) && id in c.plugins
    requires forall p :: p in c.plugins ==> c.plugins[p].order <= c.plugins[id].order
    ensures !Needed(c, id)
  {
    forall p, k | p in c.plugins && k in c.plugins[p].injects && k in c.owners ensures c.owners[k] != id {
      assert Injected(c, c.plugins[p]);
    }
  }

  // ---------------------------------------------------------------- disposing of everything

  /** All mounted plugins in the order they were mounted. */
  ghost predicate Ordered(plugins: map<string, FiberView>, order: seq<string>) {
    && (forall p :: p in plugins <==> p in order)
    && forall i, j {:trigger order[i], order[j]} :: 0 <= i < j < |order| ==>
      order[i] != order[j] && order[i] in plugins && order[j] in plugins && plugins[order[i]].order < plugins[order[j]].order
  }

  /** The effects of one fiber in the order they were registered. */
  function Registered(f: FiberView): seq<Ran> {
    seq(|f.effects|, i requires 0 <= i < |f.effects| => Ran(f.effects[i], f.id, true))
  }

  /** All effects in the order they were registered, plugin by plugin. */
  function History(c: Ctx, order: seq<string>): seq<Ran> {
    if order == [] then []
    else
      var last := order[|order| - 1];
      History(c, order[..|order| - 1]) + (if last in c.plugins then Registered(c.plugins[last]) else [])
  }

  function Reversed(s: seq<Ran>): seq<Ran> {
    if s == [] then [] else [s[|s| - 1]] + Reversed(s[..|s| - 1])
  }

  lemma {:induction false} ReversedConcat(a: seq<Ran>, b: seq<Ran>)
    ensures Reversed(a + b) == Reversed(b) + Reversed(a)
  {
    if b == [] {
      assert a + b == a;
    } else {
      ReversedConcat(a, b[..|b| - 1]);
      ConcatLast(a, b);
      assert Reversed(b) == [b[|b| - 1]] + Reversed(b[..|b| - 1]);
    }
  }

  lemma ConcatLast(a: seq<Ran>, b: seq<Ran>)
    requires b != []
    ensures (a + b)[|a + b| - 1] == b[|b| - 1] && (a + b)[..|a + b| - 1] == a + b[..|b| - 1]
  {
  }

  /** The effects of a fiber as they run when it is disposed of. */
  function Undone(f: FiberView, resolvable: bool): seq<Ran> {
    UndoneFrom(f, |f.effects|, resolvable)
  }

  function UndoneFrom(f: FiberView, n: nat, resolvable: bool): seq<Ran>
    requires n <= |f.effects|
  {
    if n == 0 then [] else [Ran(f.effects[n - 1], f.id, resolvable)] + UndoneFrom(f, n - 1, resolvable)
  }

  lemma {:induction false} UndoneReverses(f: FiberView, n: nat)
    requires n <= |f.effects|
    ensures UndoneFrom(f, n, true) == Reversed(Registered(f)[..n])
  {
    if n > 0 {
      UndoneReverses(f, n - 1);
      assert Registered(f)[..n][..n - 1] == Registered(f)[..n - 1];
    }
  }

  ghost predicate Resolvable(c: Ctx, f: FiberView) {
    forall k :: k in f.injects ==> k in c.services
  }

  /** Disposing of the plugins, the last one first: what is left and what ran. */
  ghost function Torn(c: Ctx, order: seq<string>): (Ctx, seq<Ran>)
    decreases |order|
  {
    if order == [] then (c, [])
    else
      var last := order[|order| - 1];
      if last !in c.plugins then Torn(c, order[..|order| - 1])
      else
        var f := c.plugins[last];
        var rest := Torn(Disposed(c, f), order[..|order| - 1]);
        (rest.0, Undone(f, Resolvable(c, f)) + rest.1)
  }

  /** Nothing is mounted, provided or listened to. */
  ghost predicate Empty(c: Ctx) {
    c.plugins == map[] && c.services == map[] && c.owners == map[] && forall e :: At(c.listeners, e) == []
  }

  lemma NoPluginsEmpty(c: Ctx)
    requires Inv(c) && c.plugins == map[]
    ensures Empty(c)
  {
    forall e ensures At(c.listeners, e) == [] { ListenersNeedPlugins(At(c.listeners, e), e, c.plugins); }
    assert c.owners.Keys == {};
  }

  lemma ListenersNeedPlugins(regs: seq<Registration>, e: string, plugins: map<string, FiberView>)
    requires Stoppable(regs, e, plugins)
    ensures regs == [] || plugins != map[]
  {
    if regs != [] {
      assert regs[0].owner in plugins;
    }
  }

  lemma OrderInit(plugins: map<string, FiberView>, order: seq<string>)
    requires Ordered(plugins, order) && order != []
    ensures var last := order[|order| - 1];
      && last in plugins && Ordered(plugins - {last}, order[..|order| - 1])
      && forall p :: p in plugins ==> plugins[p].order <= plugins[last].order
  {
    var last, init := order[|order| - 1], order[..|order| - 1];
    assert last in order;
    forall p | p in plugins ensures plugins[p].order <= plugins[last].order {
      var i :| 0 <= i < |order| && order[i] == p;
    }
    forall p ensures p in plugins - {last} <==> p in init {
      if p in init { var i :| 0 <= i < |init| && init[i] == p; assert order[i] == p; }
      if p in plugins && p != last { var i :| 0 <= i < |order| && order[i] == p; assert init[i] == p; }
    }
  }

  lemma {:induction false} HistoryShrinks(c: Ctx, c': Ctx, order: seq<string>)
    requires forall p :: p in order ==> p in c.plugins && p in c'.plugins && c'.plugins[p] == c.plugins[p]
    ensures History(c', order) == History(c, order)
  {
    if order != [] {
      assert order[|order| - 1] in order;
      HistoryShrinks(c, c', order[..|order| - 1]);
    }
  }

  /** The same effects of the same plugins, whatever was provided when they ran. */
  function Effects(s: seq<Ran>): seq<Ran> {
    seq(|s|, i requires 0 <= i < |s| => s[i].(resolvable := true))
  }

  lemma {:induction false} EffectsUndone(f: FiberView, n: nat, resolvable: bool)
    requires n <= |f.effects|
    ensures Effects(UndoneFrom(f, n, resolvable)) == UndoneFrom(f, n, true)
  {
    if n > 0 {
      EffectsUndone(f, n - 1, resolvable);
      var rest := UndoneFrom(f, n - 1, resolvable);
      assert UndoneFrom(f, n, resolvable) == [Ran(f.effects[n - 1], f.id, resolvable)] + rest;
      EffectsConcat([Ran(f.effects[n - 1], f.id, resolvable)], rest);
    }
  }

  lemma EffectsConcat(a: seq<Ran>, b: seq<Ran>)
    ensures Effects(a + b) == Effects(a) + Effects(b)
  {
  }

  /**
   Disposing of a context runs every effect of every plugin exactly once, in exactly the
   reverse of the order of registration, and leaves nothing behind.
   */
  lemma {:induction false} TearDown(c: Ctx, order: seq<string>)
    requires Inv(c) && Ordered(c.plugins, order)
    ensures Effects(Torn(c, order).1) == Reversed(History(c, order))
    ensures Empty(Torn(c, order).0)
    decreases |order|
  {
    if order == [] {
      assert forall p :: p !in c.plugins;
      NoPluginsEmpty(c);
    } else {
      var last, init := order[|order| - 1], order[..|order| - 1];
      OrderInit(c.plugins, order);
      var f := c.plugins[last];
      DisposeKeeps(c, last);
      TearDown(Disposed(c, f), init);
      HistoryShrinks(c, Disposed(c, f), init);
      EffectsUndone(f, |f.effects|, Resolvable(c, f));
      EffectsConcat(Undone(f, Resolvable(c, f)), Torn(Disposed(c, f), init).1);
      UndoneReverses(f, |f.effects|);
      assert Registered(f)[..|f.effects|] == Registered(f);
      ReversedConcat(History(c, init), Registered(f));
    }
  }

  /** When everything injected is provided, each effect runs while its plugin's services are still there. */
  lemma {:induction false} TearDownProvided(c: Ctx, order: seq<string>)
    requires Inv(c) && AllInjected(c) && Ordered(c.plugins, order)
    ensures Torn(c, order).1 == Reversed(History(c, order))
    decreases |order|
  {
    if order != [] {
      var last, init := order[|order| - 1], order[..|order| - 1];
      OrderInit(c.plugins, order);
      var f := c.plugins[last];
      var c' := Disposed(c, f);
      DisposeKeeps(c, last);
      LastNotNeeded(c, last);
      DisposeInjected(c, last);
      TearDownProvided(c', init);
      HistoryShrinks(c, c', init);
      assert Injected(c, f);
      UndoneReverses(f, |f.effects|);
      assert Registered(f)[..|f.effects|] == Registered(f);
      ReversedConcat(History(c, init), Registered(f));
    }
  }

  /** A newly mounted plugin is last in the order, and its effects last in the history. */
  lemma MountAppends(c0: Ctx, a: Applying, order: seq<string>)
    requires Inv(c0) && Ordered(c0.plugins, order) && Added(c0, a) && Mountable(c0, a.fiber)
    ensures Ordered(Mounted(a).plugins, order + [a.fiber.id])
    ensures History(Mounted(a), order + [a.fiber.id]) == History(c0, order) + Registered(a.fiber)
  {
    var c, all := Mounted(a), order + [a.fiber.id];
    forall p ensures p in c.plugins <==> p in all { assert p in c0.plugins <==> p in order; }
    forall i, j | 0 <= i < j < |all|
      ensures all[i] != all[j] && all[i] in c.plugins && all[j] in c.plugins && c.plugins[all[i]].order < c.plugins[all[j]].order
    {
      assert all[i] == order[i] && order[i] in order;
      if j < |order| { assert all[j] == order[j]; }
    }
    assert all[..|all| - 1] == order;
    HistoryShrinks(c0, c, order);
  }
}
