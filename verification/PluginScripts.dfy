/** What mounting a plugin does, in terms of what its Apply asks for. */
module PluginScripts {
  import opened CordisSpec
  import opened Cordis

  /** The effects that a script registers, in order. */
  function EffectsOf(script: seq<Command>): seq<Effect> {
    if script == [] then []
    else
      var last := script[|script| - 1];
      EffectsOf(script[..|script| - 1]) + if last.AddEffect? then [last.effect] else []
  }

  lemma {:induction false} ScriptEffects(a: Applying, script: seq<Command>)
    ensures ObeyAll(a, script).fiber.effects == a.fiber.effects + EffectsOf(script)
    ensures ObeyAll(a, script).fiber == a.fiber.(effects := ObeyAll(a, script).fiber.effects, stops := ObeyAll(a, script).fiber.stops, services := ObeyAll(a, script).fiber.services)
  {
    if script != [] { ScriptEffects(a, script[..|script| - 1]); }
  }

  /** The script offers a service under the key. */
  ghost predicate Offers(script: seq<Command>, key: Key, service: Service) {
    exists i :: 0 <= i < |script| && OffersAt(script, i, key, service)
  }

  /** The first offer of a key is at that place. */
  ghost predicate OffersAt(script: seq<Command>, i: nat, key: Key, service: Service)
    requires i < |script|
  {
    && script[i] == Provide(service) && service.key == key
    && forall j :: 0 <= j < i && script[j].Provide? ==> script[j].service.key != key
  }

  lemma OffersMore(script: seq<Command>, key: Key, service: Service)
    requires script != []
    ensures var init, last := script[..|script| - 1], script[|script| - 1];
      Offers(script, key, service) <==>
        Offers(init, key, service) || (last == Provide(service) && service.key == key && forall s :: !Offers(init, key, s))
  {
    var init, n := script[..|script| - 1], |script| - 1;
    forall i, s | 0 <= i < n ensures OffersAt(script, i, key, s) <==> OffersAt(init, i, key, s) { }
    if Offers(script, key, service) && !Offers(init, key, service) {
      assert OffersAt(script, n, key, service);
    }
    if Offers(init, key, service) {
      var i :| 0 <= i < n && OffersAt(init, i, key, service);
      assert OffersAt(script, i, key, service);
    }
    if script[n] == Provide(service) && service.key == key && forall s :: !Offers(init, key, s) {
      NoOffer(init, key);
      assert OffersAt(script, n, key, service);
    }
  }

  lemma {:induction false} NoOffer(script: seq<Command>, key: Key)
    requires forall s :: !Offers(script, key, s)
    ensures forall j :: 0 <= j < |script| && script[j].Provide? ==> script[j].service.key != key
  {
    if j :| 0 <= j < |script| && script[j].Provide? && script[j].service.key == key {
      var first := FirstOffer(script, key, j);
      assert Offers(script, key, script[first].service);
    }
  }

  lemma {:induction false} FirstOffer(script: seq<Command>, key: Key, j: nat) returns (first: nat)
    requires j < |script| && script[j].Provide? && script[j].service.key == key
    ensures first <= j && script[first].Provide? && OffersAt(script, first, key, script[first].service)
    decreases j
  {
    if i :| 0 <= i < j && script[i].Provide? && script[i].service.key == key {
      first := FirstOffer(script, key, i);
    } else {
      first := j;
    }
  }

  /** Every service a script offers is provided by its plugin, unless the key is blank or taken; nothing else is. */
  lemma {:induction false} ScriptServices(a: Applying, script: seq<Command>, key: Key, service: Service)
    ensures var now := ObeyAll(a, script);
      key in now.ctx.services && now.ctx.services[key] == service <==>
        if key in a.ctx.services then a.ctx.services[key] == service else key != "" && Offers(script, key, service)
    ensures var now := ObeyAll(a, script);
      key in now.ctx.services && key !in a.ctx.services ==> key in now.ctx.owners && now.ctx.owners[key] == a.fiber.id
    ensures ObeyAll(a, script).fiber.id == a.fiber.id
  {
    if script != [] {
      var init, last := script[..|script| - 1], script[|script| - 1];
      OffersMore(script, key, service);
      ScriptServices(a, init, key, service);
      var before := ObeyAll(a, init);
      if key in before.ctx.services {
        ScriptServices(a, init, key, before.ctx.services[key]);
        OneOffer(init, key, before.ctx.services[key], service);
      } else {
        if key in a.ctx.services { ScriptServices(a, init, key, a.ctx.services[key]); }
        forall s ensures key == "" || !Offers(init, key, s) { ScriptServices(a, init, key, s); }
      }
    }
  }

  lemma OneOffer(script: seq<Command>, key: Key, a: Service, b: Service)
    ensures Offers(script, key, a) && Offers(script, key, b) ==> a == b
  {
    if Offers(script, key, a) && Offers(script, key, b) {
      var i :| 0 <= i < |script| && OffersAt(script, i, key, a);
      var j :| 0 <= j < |script| && OffersAt(script, j, key, b);
      assert i == j;
    }
  }

  /** A mounted plugin has registered the effects of its script in order, and provides what it offers first. */
  lemma MountDoes(c: Ctx, p: Plugin, key: Key, service: Service)
    ensures var now := Mounted(WithLast(Applied(c, p), p.last));
      && p.id in now.plugins && now.plugins[p.id].injects == p.injects && now.plugins[p.id].order == c.nextOrder + 1
      && now.plugins[p.id].effects == EffectsOf(p.script) + (if p.last.Some? then [p.last.value] else [])
      && (key in now.services && now.services[key] == service <==>
          if key in c.services then c.services[key] == service else key != "" && Offers(p.script, key, service))
      && (key in now.services && key !in c.services ==> key in now.owners && now.owners[key] == p.id)
  {
    ScriptEffects(Start(c, p), p.script);
    ScriptServices(Start(c, p), p.script, key, service);
  }
}
