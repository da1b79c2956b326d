/** The plugin kernel: a context and its fibers, updated in place. */
module Cordis {
  import opened Wrappers
  import opened Choice
  import opened CordisSpec

  /** A plugin: what it needs, what its Apply asks of the context, and how Apply ends. */
  datatype Plugin = Plugin(id: string, injects: seq<Key>, script: seq<Command>, fails: bool, last: Option<Effect>)

  class Fiber {
    const id: string
    const order: nat
    const injects: seq<Key>
    var effects: seq<Effect>
    var stops: seq<Stop>
    var services: seq<Key>
    var disposed: bool

    constructor (id: string, order: nat, injects: seq<Key>)
      ensures View() == FiberView(id, order, injects, [], [], []) && !disposed
    {
      this.id, this.order, this.injects := id, order, injects;
      effects, stops, services, disposed := [], [], [], false;
    }

    ghost function View(): FiberView
      reads this
    {
      FiberView(id, order, injects, effects, stops, services)
    }
  }

  ghost function Views(plugins: map<string, Fiber>): map<string, FiberView>
    reads plugins.Values
  {
    map id | id in plugins :: plugins[id].View()
  }

  // ---------------------------------------------------------------- mounting on values

  function Start(c: Ctx, p: Plugin): Applying {
    Applying(c.(nextOrder := c.nextOrder + 1), FiberView(p.id, c.nextOrder + 1, p.injects, [], [], []))
  }

  predicate CanMount(c: Ctx, p: Plugin) {
    p.id != "" && p.id !in c.plugins && forall k :: k in p.injects ==> k in c.services
  }

  /** The effect that Apply returns is registered last. */
  function WithLast(a: Applying, last: Option<Effect>): Applying {
    if last.Some? then Obey(a, AddEffect(last.value)) else a
  }

  function Applied(c: Ctx, p: Plugin): Applying {
    ObeyAll(Start(c, p), p.script)
  }

  lemma {:induction false} ScriptAdds(c: Ctx, p: Plugin, n: nat)
    requires Inv(c) && n <= |p.script|
    ensures var a := ObeyAll(Start(c, p), p.script[..n]);
      Added(Start(c, p).ctx, a) && a.fiber.id == p.id && a.fiber.injects == p.injects && a.fiber.order == c.nextOrder + 1
  {
    var c0 := Start(c, p).ctx;
    if n == 0 {
      StartAdds(c, p);
    } else {
      ScriptAdds(c, p, n - 1);
      assert p.script[..n][..n - 1] == p.script[..n - 1];
      StartKeeps(c, p);
      ObeyKeeps(c0, ObeyAll(Start(c, p), p.script[..n - 1]), p.script[n - 1]);
    }
  }

  lemma StartKeeps(c: Ctx, p: Plugin)
    requires Inv(c)
    ensures Inv(Start(c, p).ctx)
  {
    var c0 := Start(c, p).ctx;
    forall id | id in c0.plugins ensures Owns(c0, c0.plugins[id]) { assert Owns(c, c.plugins[id]); }
    forall e ensures Numbered(At(c0.listeners, e), c0.nextId) && Stoppable(At(c0.listeners, e), e, c0.plugins) {
      assert Numbered(At(c.listeners, e), c.nextId);
    }
  }

  lemma StartAdds(c: Ctx, p: Plugin)
    requires Inv(c)
    ensures Added(Start(c, p).ctx, Start(c, p))
  {
    var a := Start(c, p);
    forall e ensures Extends(At(c.listeners, e), At(a.ctx.listeners, e), e, a.fiber.id, a.fiber.stops) && Numbered(At(a.ctx.listeners, e), a.ctx.nextId) {
      assert Numbered(At(c.listeners, e), c.nextId);
    }
  }

  /** Everything a finished script leaves. */
  lemma AppliedAdds(c: Ctx, p: Plugin)
    requires Inv(c)
    ensures var a := Applied(c, p);
      Added(Start(c, p).ctx, a) && a.fiber.id == p.id && a.fiber.injects == p.injects && a.fiber.order == c.nextOrder + 1
    ensures Inv(Start(c, p).ctx)
  {
    ScriptAdds(c, p, |p.script|);
    assert p.script[..|p.script|] == p.script;
    StartKeeps(c, p);
  }

  /** A plugin that fails leaves the context as it found it. */
  lemma FailureRestores(c: Ctx, p: Plugin)
    requires Inv(c) && CanMount(c, p)
    ensures var left := Disposed(Applied(c, p).ctx, Applied(c, p).fiber);
      left.services == c.services && left.owners == c.owners && left.plugins == c.plugins && SameListeners(left.listeners, c.listeners)
  {
    AppliedAdds(c, p);
    FailedApplyRestores(Start(c, p).ctx, Applied(c, p));
  }

  lemma OrdersBelow(c: Ctx, p: Plugin)
    requires Inv(c) && CanMount(c, p)
    ensures forall f: FiberView :: f.id == p.id && f.injects == p.injects && f.order == c.nextOrder + 1 ==> Mountable(Start(c, p).ctx, f)
  {
  }

  lemma SuccessMounts(c: Ctx, p: Plugin, order: seq<string>)
    requires Inv(c) && CanMount(c, p)
    ensures var a := WithLast(Applied(c, p), p.last);
      && Inv(Mounted(a)) && (AllInjected(c) ==> AllInjected(Mounted(a)))
      && (Ordered(c.plugins, order) ==>
        Ordered(Mounted(a).plugins, order + [p.id]) && History(Mounted(a), order + [p.id]) == History(c, order) + Registered(a.fiber))
  {
    var c0, a := Start(c, p).ctx, WithLast(Applied(c, p), p.last);
    AppliedAdds(c, p);
    if p.last.Some? { ObeyKeeps(c0, Applied(c, p), AddEffect(p.last.value)); }
    OrdersBelow(c, p);
    if AllInjected(c) { InjectedAtStart(c, p); }
    MountKeeps(c0, a);
    if Ordered(c.plugins, order) {
      MountAppends(c0, a, order);
      SameHistory(c, c0, order);
    }
  }

  lemma SuccessKeeps(c: Ctx, p: Plugin)
    requires Inv(c) && CanMount(c, p)
    ensures Inv(Mounted(WithLast(Applied(c, p), p.last)))
    ensures AllInjected(c) ==> AllInjected(Mounted(WithLast(Applied(c, p), p.last)))
  {
    SuccessMounts(c, p, []);
  }

  lemma InjectedAtStart(c: Ctx, p: Plugin)
    requires AllInjected(c)
    ensures AllInjected(Start(c, p).ctx)
  {
    var c0 := Start(c, p).ctx;
    forall id | id in c0.plugins ensures Injected(c0, c0.plugins[id]) { assert Injected(c, c.plugins[id]); }
  }

  lemma {:induction false} SameHistory(c: Ctx, c0: Ctx, order: seq<string>)
    requires c0.plugins == c.plugins
    ensures History(c0, order) == History(c, order)
  {
    if order != [] { SameHistory(c, c0, order[..|order| - 1]); }
  }

  lemma FailureKeeps(c: Ctx, p: Plugin)
    requires Inv(c) && CanMount(c, p)
    ensures var left := Disposed(Applied(c, p).ctx, Applied(c, p).fiber); Inv(left) && (AllInjected(c) ==> AllInjected(left))
  {
    var left := Disposed(Applied(c, p).ctx, Applied(c, p).fiber);
    AppliedAdds(c, p);
    FailureRestores(c, p);
    forall e ensures Numbered(At(left.listeners, e), left.nextId) && Stoppable(At(left.listeners, e), e, left.plugins) {
      assert At(left.listeners, e) == At(c.listeners, e);
      assert Numbered(At(c.listeners, e), c.nextId);
    }
    forall id | id in left.plugins
      ensures Owns(left, left.plugins[id]) && (Injected(c, c.plugins[id]) ==> Injected(left, left.plugins[id]))
    {
      assert Owns(c, c.plugins[id]);
    }
  }

  /** What the plugin injected is still provided when its failed Apply is taken back. */
  lemma StillResolvable(c: Ctx, p: Plugin)
    requires Inv(c) && CanMount(c, p)
    ensures Resolvable(Applied(c, p).ctx, Applied(c, p).fiber)
  {
    AppliedAdds(c, p);
  }

  lemma DisposeSummary(c: Ctx, id: string)
    requires Inv(c)
    ensures id !in c.plugins ==> !Needed(c, id)
    ensures id in c.plugins ==> Inv(Disposed(c, c.plugins[id]))
    ensures id in c.plugins && AllInjected(c) ==> Resolvable(c, c.plugins[id]) && (AllInjected(Disposed(c, c.plugins[id])) <==> !Needed(c, id))
  {
    if id in c.plugins {
      DisposeKeeps(c, id);
      if AllInjected(c) {
        DisposeInjected(c, id);
        assert Injected(c, c.plugins[id]);
      }
    }
  }

  // ---------------------------------------------------------------- the context object

  class Context {
    var services: map<Key, Service>
    var owners: map<Key, string>
    var plugins: map<string, Fiber>
    var listeners: map<string, seq<Registration>>
    var events: set<string>
    var current: Fiber?
    var nextId: nat
    var nextOrder: nat
    ghost var log: seq<Ran>

    ghost function View(): Ctx
      reads this, plugins.Values
    {
      Ctx(services, owners, Views(plugins), listeners, events, nextId, nextOrder)
    }

    ghost predicate Valid()
      reads this, plugins.Values
    {
      Inv(View()) && current == null && forall id :: id in plugins ==> !plugins[id].disposed
    }

    /** Everything a mounted plugin injected is still provided, by somebody mounted before it. */
    ghost predicate Provided()
      reads this, plugins.Values
    {
      AllInjected(View())
    }

    constructor ()
      ensures Valid() && Provided() && Empty(View()) && log == []
    {
      services, owners, plugins, listeners, events := map[], map[], map[], map[], {};
      current, nextId, nextOrder, log := null, 0, 0, [];
    }

    /** `Provide`, from the plugin that is being applied. */
    method Provide(service: Service) returns (ok: bool)
      requires current !in plugins.Values
      modifies this`services, this`owners, current
      ensures current == null ==> !ok && View() == old(View())
      ensures current != null ==> Applying(View(), current.View()) == Obey(old(Applying(View(), current.View())), CordisSpec.Provide(service))
      ensures ok <==> current != null && service.key != "" && service.key !in old(services)
      ensures ok ==> services == old(services)[service.key := service] && owners == old(owners)[service.key := current.id]
      ensures current != null ==> current.disposed == old(current.disposed)
    {
      if service.key == "" || current == null || service.key in services {
        return false;
      }
      services := services[service.key := service];
      owners := owners[service.key := current.id];
      current.services := current.services + [service.key];
      ok := true;
    }

    /** `Effect` */
    method RegisterEffect(effect: Effect) returns (ok: bool)
      requires current !in plugins.Values && (current != null ==> !current.disposed)
      modifies current
      ensures current == null ==> !ok && View() == old(View())
      ensures current != null ==> Applying(View(), current.View()) == Obey(old(Applying(View(), current.View())), AddEffect(effect))
      ensures current != null ==> !current.disposed
    {
      if current == null || current.disposed {
        return false;
      }
      current.effects := current.effects + [effect];
      ok := true;
    }

    /** `On`; the stop function it returns is the last of the fiber's stops. */
    method On(event: string) returns (ok: bool)
      requires current !in plugins.Values
      modifies this`listeners, this`nextId, current
      ensures current == null ==> !ok && View() == old(View())
      ensures current != null ==> Applying(View(), current.View()) == Obey(old(Applying(View(), current.View())), CordisSpec.On(event))
      ensures ok <==> current != null && event != "" && event in events
      ensures ok ==> nextId > old(nextId) && At(listeners, event) == At(old(listeners), event) + [Registration(nextId, current.id)]
      ensures current != null ==> current.disposed == old(current.disposed)
    {
      if event == "" || current == null || event !in events {
        return false;
      }
      nextId := nextId + 1;
      var registration := Registration(nextId, current.id);
      listeners := listeners[event := At(listeners, event) + [registration]];
      current.stops := current.stops + [Stop(event, nextId)];
      ok := true;
    }

    /** `DefineEvent`; the definition outlives the plugin that made it. */
    method Define(name: string, supported: bool) returns (ok: bool)
      modifies this`events
      ensures ok == (name != "" && supported && name !in old(events))
      ensures events == if ok then old(events) + {name} else old(events)
    {
      ok := name != "" && supported && name !in events;
      if ok {
        events := events + {name};
      }
    }

    /** The function `stopListenerLocked` returns. */
    method StopListener(stop: Stop)
      modifies this`listeners
      ensures listeners == Stopped(old(listeners), stop)
    {
      var regs := At(listeners, stop.event);
      for index := 0 to |regs|
        invariant forall k :: 0 <= k < index ==> regs[k].id != stop.id
        invariant listeners == old(listeners)
      {
        if regs[index].id == stop.id {
          FirstDrop(regs, index);
          listeners := listeners[stop.event := regs[..index] + regs[index + 1..]];
          return;
        }
      }
    }

    /** One command of the plugin being applied. */
    method Perform(command: Command)
      requires current != null && current !in plugins.Values && !current.disposed
      modifies this`services, this`owners, this`listeners, this`nextId, this`events, current
      ensures Applying(View(), current.View()) == Obey(old(Applying(View(), current.View())), command)
      ensures !current.disposed
    {
      var ok;
      match command {
        case Provide(service) => ok := Provide(service);
        case AddEffect(effect) => ok := RegisterEffect(effect);
        case On(event) => ok := On(event);
        case StopOwn(index) => if index < |current.stops| { StopListener(current.stops[index]); }
        case DefineEvent(name, supported) => ok := Define(name, supported);
      }
    }

    /** The plugin's Apply. */
    method Apply(script: seq<Command>)
      requires current != null && current !in plugins.Values && !current.disposed
      modifies this`services, this`owners, this`listeners, this`nextId, this`events, current
      ensures Applying(View(), current.View()) == ObeyAll(old(Applying(View(), current.View())), script)
      ensures !current.disposed
    {
      for n := 0 to |script|
        invariant Applying(View(), current.View()) == ObeyAll(old(Applying(View(), current.View())), script[..n])
        invariant !current.disposed
      {
        assert script[..n + 1][..n] == script[..n];
        Perform(script[n]);
      }
      assert script[..|script|] == script;
    }

    /** Stops the listeners of a fiber, the last one first. */
    method StopAll(stops: seq<Stop>)
      modifies this`listeners
      ensures listeners == StoppedAll(old(listeners), stops)
    {
      var index := |stops|;
      assert stops[..|stops|] == stops;
      while index > 0
        invariant 0 <= index <= |stops|
        invariant StoppedAll(listeners, stops[..index]) == StoppedAll(old(listeners), stops)
      {
        assert stops[..index][..index - 1] == stops[..index - 1];
        StopListener(stops[index - 1]);
        index := index - 1;
      }
    }

    /** Runs the effects of a fiber, the last one first; an error does not stop the rest. */
    method RunEffects(effects: seq<Effect>, ghost f: FiberView) returns (ok: bool)
      requires f.effects == effects
      modifies this`log
      ensures log == old(log) + Undone(f, old(Resolvable(View(), f)))
    {
      ok := true;
      ghost var resolvable := Resolvable(View(), f);
      var index := |effects|;
      while index > 0
        invariant 0 <= index <= |effects|
        invariant log + UndoneFrom(f, index, resolvable) == old(log) + Undone(f, resolvable)
        invariant Resolvable(View(), f) == resolvable
      {
        var err := Decide();
        ok := ok && !err;
        log := log + [Ran(effects[index - 1], f.id, Resolvable(View(), f))];
        index := index - 1;
      }
    }

    /** Takes the services a fiber still owns out of the context. */
    method Withdraw(keys: seq<Key>, id: string)
      requires services.Keys == owners.Keys
      modifies this`services, this`owners
      ensures var gone := set k | k in keys && k in old(owners) && old(owners)[k] == id;
        services == old(services) - gone && owners == old(owners) - gone
    {
      for n := 0 to |keys|
        invariant var gone := set k | k in keys[..n] && k in old(owners) && old(owners)[k] == id;
          services == old(services) - gone && owners == old(owners) - gone
      {
        assert keys[..n + 1] == keys[..n] + [keys[n]];
        if keys[n] in owners && owners[keys[n]] == id {
          owners := owners - {keys[n]};
          services := services - {keys[n]};
        }
      }
      assert keys[..|keys|] == keys;
    }

    /** Takes away what a fiber has: listeners, then effects, then services. */
    method TakeDown(f: Fiber) returns (ok: bool)
      requires services.Keys == owners.Keys && !f.disposed
      modifies this`listeners, this`log, this`services, this`owners, f
      ensures f.disposed && listeners == StoppedAll(old(listeners), old(f.stops))
      ensures log == old(log) + Undone(old(f.View()), old(Resolvable(View(), f.View())))
      ensures var gone := set k | k in old(f.services) && k in old(owners) && old(owners)[k] == f.id;
        services == old(services) - gone && owners == old(owners) - gone
    {
      ghost var view := f.View();
      f.disposed := true;
      var effects, stops, keys := f.effects, f.stops, f.services;
      f.effects, f.stops, f.services := [], [], [];
      StopAll(stops);
      ok := RunEffects(effects, view);
      Withdraw(keys, f.id);
    }

    /** `fiber.Dispose`: only the first call does anything. */
    method DisposeFiber(f: Fiber) returns (ok: bool)
      requires services.Keys == owners.Keys
      requires forall id :: id in plugins ==> (plugins[id] == f <==> id == f.id)
      modifies this`listeners, this`log, this`services, this`owners, this`plugins, f
      ensures f.disposed
      ensures plugins == if old(f.disposed) then old(plugins) else old(plugins) - {f.id}
      ensures !old(f.disposed) ==> View() == Disposed(old(View()), old(f.View()))
      ensures log == old(log) + if old(f.disposed) then [] else Undone(old(f.View()), old(Resolvable(View(), f.View())))
      ensures old(f.disposed) ==> View() == old(View())
    {
      if f.disposed {
        return true;
      }
      ok := TakeDown(f);
      plugins := plugins - {f.id};
      assert Views(plugins) == old(Views(plugins)) - {f.id};
    }

    /** The plugin's Apply on a new fiber. */
    method ApplyNew(p: Plugin) returns (f: Fiber)
      requires current == null
      modifies this
      ensures fresh(f) && !f.disposed && f.id == p.id && current == null && log == old(log) && plugins == old(plugins)
      ensures Applying(View(), f.View()) == Applied(old(View()), p)
    {
      ghost var start := Start(View(), p);
      nextOrder := nextOrder + 1;
      f := new Fiber(p.id, nextOrder, p.injects);
      current := f;
      assert Applying(View(), f.View()) == start;
      Apply(p.script);
      current := null;
    }

    /** A failed Apply is taken back. */
    method GiveUp(p: Plugin)
      requires Valid() && CanMount(View(), p)
      modifies this
      ensures Valid() && plugins == old(plugins) && (old(Provided()) ==> Provided())
      ensures View() == old(Disposed(Applied(View(), p).ctx, Applied(View(), p).fiber))
      ensures log == old(log) + old(Undone(Applied(View(), p).fiber, true))
    {
      ghost var before := View();
      FailureRestores(before, p);
      FailureKeeps(before, p);
      AppliedAdds(before, p);
      StillResolvable(before, p);
      var f := ApplyNew(p);
      ghost var a := Applying(View(), f.View());
      assert a.ctx.services.Keys == a.ctx.owners.Keys;
      var fine := DisposeFiber(f);
    }

    /** A successful Apply is mounted with the effect it returned. */
    method Settle(p: Plugin)
      requires Valid() && CanMount(View(), p)
      modifies this
      ensures Valid() && View() == old(Mounted(WithLast(Applied(View(), p), p.last))) && log == old(log)
      ensures old(Provided()) ==> Provided()
    {
      SuccessKeeps(View(), p);
      var f := ApplyNew(p);
      KeepFiber(f, p.last);
    }

    method KeepFiber(f: Fiber, last: Option<Effect>)
      requires f !in plugins.Values
      modifies this`plugins, f
      ensures f.disposed == old(f.disposed) && plugins == old(plugins)[f.id := f]
      ensures View() == old(Mounted(WithLast(Applying(View(), f.View()), last)))
    {
      if last.Some? {
        f.effects := f.effects + [last.value];
      }
      plugins := plugins[f.id := f];
      assert Views(plugins) == old(Views(plugins))[f.id := f.View()];
    }

    /** `Plugin`: checks, applies and mounts, or takes everything back. */
    method Mount(p: Plugin) returns (ok: bool)
      requires Valid()
      modifies this
      ensures Valid() && (old(Provided()) ==> Provided())
      ensures ok == (old(CanMount(View(), p)) && !p.fails)
      ensures ok <==> !p.fails && p.id != "" && p.id !in old(plugins) && forall k :: k in p.injects ==> k in old(services)
      ensures ok ==> View() == old(Mounted(WithLast(Applied(View(), p), p.last))) && log == old(log)
      ensures !old(CanMount(View(), p)) ==> View() == old(View()) && log == old(log)
      ensures !ok ==> services == old(services) && owners == old(owners) && View().plugins == old(View()).plugins
      ensures !ok ==> SameListeners(listeners, old(listeners))
      ensures !ok && old(CanMount(View(), p)) ==> log == old(log) + old(Undone(Applied(View(), p).fiber, true))
    {
      assert Views(plugins).Keys == plugins.Keys;
      if p.id == "" || p.id in plugins || exists k :: k in p.injects && k !in services {
        return false;
      }
      if p.fails {
        FailureRestores(View(), p);
        GiveUp(p);
        return false;
      }
      Settle(p);
      ok := true;
    }

    /** `DisposePlugin`; an unknown plugin is no error. */
    method DisposePlugin(id: string) returns (ok: bool)
      requires Valid()
      modifies this, plugins.Values
      ensures old(id !in plugins) ==> View() == old(View()) && log == old(log)
      ensures old(id in plugins) ==> View() == old(Disposed(View(), View().plugins[id]))
      ensures old(id in plugins) ==> log == old(log + Undone(View().plugins[id], Resolvable(View(), View().plugins[id])))
      ensures Valid() && (old(Provided()) ==> (Provided() <==> !old(Needed(View(), id))))
    {
      DisposeSummary(View(), id);
      if id !in plugins {
        return true;
      }
      assert forall x :: x in plugins ==> View().plugins[x].id == x;
      ok := DisposeOne(id);
    }

    method DisposeOne(id: string) returns (ok: bool)
      requires id in plugins && services.Keys == owners.Keys
      requires forall x :: x in plugins ==> plugins[x].id == x && !plugins[x].disposed
      modifies this`listeners, this`log, this`services, this`owners, this`plugins, plugins[id]
      ensures View() == old(Disposed(View(), View().plugins[id]))
      ensures log == old(log + Undone(View().plugins[id], Resolvable(View(), View().plugins[id])))
      ensures plugins == old(plugins) - {id} && forall x :: x in plugins ==> !plugins[x].disposed
    {
      ok := DisposeFiber(plugins[id]);
    }

    /** `PluginIDs`: the live plugins in mount order. */
    method PluginIds() returns (ids: seq<string>)
      requires Valid()
      ensures Ordered(View().plugins, ids)
    {
      ids := [];
      var rest := plugins.Keys;
      ghost var views := Views(plugins);
      while rest != {}
        invariant rest <= plugins.Keys && Ascending(views, ids) && forall p :: p in ids <==> p in plugins && p !in rest
        decreases rest
      {
        var id :| id in rest;
        var place := |ids|;
        while place > 0 && plugins[ids[place - 1]].order > plugins[id].order
          invariant 0 <= place <= |ids| && forall k :: place <= k < |ids| ==> views[ids[k]].order > views[id].order
        {
          place := place - 1;
        }
        assert place > 0 ==> ids[place - 1] in ids;
        InsertAscending(views, ids, id, place);
        InsertHolds(ids, id, place);
        ids := ids[..place] + [id] + ids[place..];
        rest := rest - {id};
      }
      assert forall p :: p in views <==> p in ids;
    }

    /** `Context.Dispose`: every plugin, the last mounted first. */
    method Dispose() returns (ok: bool, ghost order: seq<string>)
      requires Valid()
      modifies this, plugins.Values
      ensures Ordered(old(View().plugins), order)
      ensures Empty(View()) && old(log) <= log && Effects(log[|old(log)|..]) == Reversed(old(History(View(), order)))
      ensures old(Provided()) ==> log == old(log) + Reversed(old(History(View(), order)))
    {
      var ids := PluginIds();
      order := ids;
      TearDown(View(), ids);
      if Provided() { TearDownProvided(View(), ids); }
      ok := DisposeInReverse(ids);
    }

    method DisposeInReverse(ids: seq<string>) returns (ok: bool)
      requires Valid() && Ordered(View().plugins, ids)
      modifies this, plugins.Values
      ensures View() == old(Torn(View(), ids)).0 && log == old(log) + old(Torn(View(), ids)).1
    {
      ok := true;
      var index := |ids|;
      ghost var all := Torn(View(), ids);
      assert ids[..index] == ids;
      while index > 0
        invariant 0 <= index <= |ids| && plugins.Values <= old(plugins.Values)
        invariant Teardown(ids[..index]) && ToGo(ids[..index], all.0, old(log) + all.1)
      {
        PrefixInit(ids, index);
        var fine := DisposeLast(ids[..index], all.0, old(log) + all.1);
        ok := ok && fine;
        index := index - 1;
      }
      assert Torn(View(), ids[..index]) == (View(), []);
    }

    /** The listed plugins are the ones that are left. */
    ghost predicate Teardown(ids: seq<string>)
      reads this, plugins.Values
    {
      var left := Inv(View()) && Ordered(View().plugins, ids) && forall x :: x in plugins ==> !plugins[x].disposed;
      left
    }

    /** Taking down the listed plugins leads to this context and this log. */
    ghost predicate ToGo(ids: seq<string>, end: Ctx, ran: seq<Ran>)
      reads this, plugins.Values
    {
      var rest := Torn(View(), ids);
      var leads := rest.0 == end && log + rest.1 == ran;
      leads
    }

    method DisposeLast(ids: seq<string>, ghost end: Ctx, ghost ran: seq<Ran>) returns (ok: bool)
      requires ids != [] && Teardown(ids) && ToGo(ids, end, ran)
      modifies this, plugins.Values
      ensures plugins.Values <= old(plugins.Values) && Teardown(ids[..|ids| - 1]) && ToGo(ids[..|ids| - 1], end, ran)
    {
      var id := ids[|ids| - 1];
      ghost var c := View();
      TornLast(c, ids);
      assert forall x :: x in plugins ==> c.plugins[x].id == x;
      ok := DisposeOne(id);
      LogOn(old(log), Undone(c.plugins[id], Resolvable(c, c.plugins[id])), Torn(View(), ids[..|ids| - 1]).1);
    }
  }

  lemma PrefixInit(ids: seq<string>, n: nat)
    requires 0 < n <= |ids|
    ensures |ids[..n]| == n && ids[..n][..n - 1] == ids[..n - 1]
  {
  }

  lemma LogOn(a: seq<Ran>, b: seq<Ran>, c: seq<Ran>)
    ensures a + b + c == a + (b + c)
  {
  }

  lemma TornLast(c: Ctx, ids: seq<string>)
    requires Inv(c) && Ordered(c.plugins, ids) && ids != []
    ensures var id, init := ids[|ids| - 1], ids[..|ids| - 1];
      && id in c.plugins && Inv(Disposed(c, c.plugins[id])) && Ordered(Disposed(c, c.plugins[id]).plugins, init)
      && Torn(c, ids).0 == Torn(Disposed(c, c.plugins[id]), init).0
      && Torn(c, ids).1 == Undone(c.plugins[id], Resolvable(c, c.plugins[id])) + Torn(Disposed(c, c.plugins[id]), init).1
  {
    OrderInit(c.plugins, ids);
    DisposeKeeps(c, ids[|ids| - 1]);
  }

  /** Names listed by ascending mount order. */
  ghost predicate Ascending(views: map<string, FiberView>, ids: seq<string>) {
    && (forall i :: 0 <= i < |ids| ==> ids[i] in views)
    && forall i, j :: 0 <= i < j < |ids| ==> views[ids[i]].order < views[ids[j]].order
  }

  lemma InsertAscending(views: map<string, FiberView>, ids: seq<string>, id: string, place: nat)
    requires Ascending(views, ids) && id in views && place <= |ids|
    requires forall k :: place <= k < |ids| ==> views[ids[k]].order > views[id].order
    requires place > 0 ==> views[ids[place - 1]].order < views[id].order
    ensures Ascending(views, ids[..place] + [id] + ids[place..])
  {
    var all := ids[..place] + [id] + ids[place..];
    InsertIndex(ids, id, place);
    forall k | 0 <= k < place ensures views[ids[k]].order < views[id].order {
      if k < place - 1 { assert views[ids[k]].order < views[ids[place - 1]].order; }
    }
  }

  lemma InsertIndex(ids: seq<string>, id: string, place: nat)
    requires place <= |ids|
    ensures |ids[..place] + [id] + ids[place..]| == |ids| + 1
    ensures forall k :: 0 <= k <= |ids| ==>
      (ids[..place] + [id] + ids[place..])[k] == (if k < place then ids[k] else if k == place then id else ids[k - 1])
  {
  }

  lemma InsertHolds(ids: seq<string>, id: string, place: nat)
    requires place <= |ids|
    ensures forall p :: p in ids[..place] + [id] + ids[place..] <==> p in ids || p == id
  {
    assert ids == ids[..place] + ids[place..];
  }

  lemma {:induction false} FirstDrop(regs: seq<Registration>, i: nat)
    requires i < |regs| && forall k :: 0 <= k < i ==> regs[k].id != regs[i].id
    ensures Drop(regs, regs[i].id) == regs[..i] + regs[i + 1..]
  {
    if i > 0 {
      FirstDrop(regs[1..], i - 1);
      assert [regs[0]] + (regs[1..][..i - 1] + regs[1..][i..]) == regs[..i] + regs[i + 1..];
    }
  }
}