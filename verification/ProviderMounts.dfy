/**
 The mounted services of all providers. Each is a plugin whose identity is its key, and the
 services of a generation are found again by the ends of their keys.
 */
module ProviderMounts {
  import opened Text
  import opened Choice

  datatype ServiceDef = ServiceDef(id: string, family: string)

  /** One mounted provider service; its plugin identity is its key. */
  datatype Mount = Mount(provider: string, service: string, generation: string, family: string)

  // ---------------------------------------------------------------- keys

  /** `providerServiceCordisKey` */
  function Key(provider: string, service: string, generation: string): string {
    Trim(provider) + "/" + Trim(service) + "@" + Trim(generation)
  }

  function KeyOf(m: Mount): string {
    Key(m.provider, m.service, m.generation)
  }

  predicate HasSuffix(s: string, suffix: string) {
    |suffix| <= |s| && s[|s| - |suffix|..] == suffix
  }

  /** How a mounted service is recognised as part of a generation: by the ends of its key. */
  predicate Matches(key: string, provider: string, generation: string) {
    HasSuffix(key, "@" + Trim(generation)) && Trim(provider) + "/" <= key
  }

  /** What the manifest validator guarantees of provider and service identifiers. */
  predicate Bare(name: string) {
    '@' !in Trim(name) && '/' !in Trim(name)
  }

  /** The name of one generation ends in the name of another, at sign included. */
  predicate Confusable(a: string, b: string) {
    HasSuffix("@" + Trim(a), "@" + Trim(b))
  }

  lemma TailOf(head: string, u: string, n: nat)
    requires n <= |u|
    ensures |head + u| == |head| + |u| && (head + u)[|head + u| - n..] == u[|u| - n..]
  {
  }

  lemma SuffixOfKey(head: string, a: string, c: string)
    requires '@' !in head
    ensures HasSuffix(head + "@" + a, "@" + c) <==> HasSuffix("@" + a, "@" + c)
  {
    var u, t := "@" + a, "@" + c;
    assert head + "@" + a == head + u;
    if |t| <= |u| {
      TailOf(head, u, |t|);
    } else if |t| <= |head + u| {
      LongTail(head, u, |t|);
    }
  }

  lemma LongTail(head: string, u: string, n: nat)
    requires '@' !in head && |u| < n <= |head| + |u|
    ensures n <= |head + u| && (head + u)[|head + u| - n..] != [] && (head + u)[|head + u| - n..][0] != '@'
  {
    var i := |head| + |u| - n;
    assert (head + u)[i] == head[i] && head[i] in head;
  }

  lemma PrefixOfKey(p: string, q: string, rest: string)
    requires '/' !in p && '/' !in q
    ensures p + "/" <= q + "/" + rest <==> p == q
  {
    var s, t := q + "/" + rest, p + "/";
    assert forall i :: 0 <= i < |p| ==> t[i] == p[i] && p[i] in p;
    assert forall i :: 0 <= i < |q| ==> s[i] == q[i] && q[i] in q;
    assert p == q ==> s == t + rest;
    if t <= s {
      assert s[|p|] == t[|p|] == '/';
      assert t[..|p|] == s[..|p|];
      assert |p| >= |q|;
      assert s[|q|] == '/';
      assert |p| == |q|;
      assert t[..|p|] == p && s[..|q|] == q;
    }
  }

  /** The ends of a key match a generation exactly when the names are confusable. */
  lemma KeyMatches(m: Mount, provider: string, generation: string)
    requires Bare(m.provider) && Bare(m.service) && Bare(provider)
    ensures Matches(KeyOf(m), provider, generation) <==> Trim(m.provider) == Trim(provider) && Confusable(m.generation, generation)
  {
    var head := Trim(m.provider) + "/" + Trim(m.service);
    assert KeyOf(m) == head + "@" + Trim(m.generation);
    SuffixOfKey(head, Trim(m.generation), Trim(generation));
    assert KeyOf(m) == Trim(m.provider) + "/" + (Trim(m.service) + "@" + Trim(m.generation));
    PrefixOfKey(Trim(provider), Trim(m.provider), Trim(m.service) + "@" + Trim(m.generation));
  }

  // ---------------------------------------------------------------- mounts as values

  function Keep(mounts: seq<Mount>, f: Mount -> bool): (r: seq<Mount>)
    ensures forall m :: m in r <==> m in mounts && f(m)
  {
    if mounts == [] then []
    else Keep(mounts[..|mounts| - 1], f) + (if f(mounts[|mounts| - 1]) then [mounts[|mounts| - 1]] else [])
  }

  function Of(mounts: seq<Mount>, provider: string): seq<Mount> {
    Keep(mounts, (m: Mount) => m.provider == provider)
  }

  lemma {:induction false} KeepConcat(a: seq<Mount>, b: seq<Mount>, f: Mount -> bool)
    ensures Keep(a + b, f) == Keep(a, f) + Keep(b, f)
  {
    if b == [] {
      assert a + b == a;
    } else {
      KeepConcat(a, b[..|b| - 1], f);
      assert (a + b)[..|a + b| - 1] == a + b[..|b| - 1];
    }
  }

  lemma {:induction false} KeepAll(mounts: seq<Mount>, f: Mount -> bool)
    requires forall m :: m in mounts ==> f(m)
    ensures Keep(mounts, f) == mounts
  {
    if mounts != [] {
      var init, last := mounts[..|mounts| - 1], mounts[|mounts| - 1];
      assert mounts == init + [last];
      KeepAll(init, f);
    }
  }

  lemma {:induction false} KeepNone(mounts: seq<Mount>, f: Mount -> bool)
    requires forall m :: m in mounts ==> !f(m)
    ensures Keep(mounts, f) == []
  {
    if mounts != [] {
      var init, last := mounts[..|mounts| - 1], mounts[|mounts| - 1];
      assert mounts == init + [last];
      KeepNone(init, f);
    }
  }

  lemma {:induction false} KeepTwice(mounts: seq<Mount>, f: Mount -> bool, g: Mount -> bool)
    requires forall m :: m in mounts && g(m) ==> f(m)
    ensures Keep(Keep(mounts, f), g) == Keep(mounts, g)
  {
    if mounts != [] {
      var init, last := mounts[..|mounts| - 1], mounts[|mounts| - 1];
      KeepTwice(init, f, g);
      KeepConcat(Keep(init, f), if f(last) then [last] else [], g);
      assert last in mounts;
    }
  }

  lemma {:induction false} KeepSame(mounts: seq<Mount>, f: Mount -> bool, g: Mount -> bool)
    requires forall m :: m in mounts ==> f(m) == g(m)
    ensures Keep(mounts, f) == Keep(mounts, g)
  {
    if mounts != [] {
      assert mounts[|mounts| - 1] in mounts;
      KeepSame(mounts[..|mounts| - 1], f, g);
    }
  }

  // ---------------------------------------------------------------- unique keys

  ghost predicate UniqueKeys(mounts: seq<Mount>) {
    forall i, j :: 0 <= i < j < |mounts| ==> KeyOf(mounts[i]) != KeyOf(mounts[j])
  }

  lemma {:induction false} KeepUnique(mounts: seq<Mount>, f: Mount -> bool)
    requires UniqueKeys(mounts)
    ensures UniqueKeys(Keep(mounts, f))
  {
    if mounts != [] {
      var init, last := mounts[..|mounts| - 1], mounts[|mounts| - 1];
      KeepUnique(init, f);
      KeptDiffer(mounts, f, Keep(init, f));
    }
  }

  lemma KeptDiffer(mounts: seq<Mount>, f: Mount -> bool, kept: seq<Mount>)
    requires UniqueKeys(mounts) && mounts != [] && kept == Keep(mounts[..|mounts| - 1], f)
    ensures forall i :: 0 <= i < |kept| ==> KeyOf(kept[i]) != KeyOf(mounts[|mounts| - 1])
  {
    var init, last := mounts[..|mounts| - 1], mounts[|mounts| - 1];
    forall i | 0 <= i < |kept| ensures KeyOf(kept[i]) != KeyOf(last) {
      assert kept[i] in kept;
      var k :| 0 <= k < |init| && init[k] == kept[i];
      assert mounts[k] == init[k];
    }
  }

  // ---------------------------------------------------------------- mounting and unmounting

  lemma {:induction false} KeepBoth(mounts: seq<Mount>, f: Mount -> bool, g: Mount -> bool, h: Mount -> bool)
    requires forall m :: m in mounts ==> h(m) == (f(m) && g(m))
    ensures Keep(Keep(mounts, f), g) == Keep(mounts, h)
  {
    if mounts != [] {
      var init, last := mounts[..|mounts| - 1], mounts[|mounts| - 1];
      assert last in mounts;
      KeepBoth(init, f, g, h);
      KeepConcat(Keep(init, f), if f(last) then [last] else [], g);
      if f(last) { assert Keep([last], g) == if g(last) then [last] else []; }
    }
  }

  function Fresh(provider: string, services: seq<ServiceDef>, generation: string): seq<Mount> {
    seq(|services|, i requires 0 <= i < |services| => Mount(provider, services[i].id, generation, Trim(services[i].family)))
  }

  function NotIn(keys: seq<string>): Mount -> bool {
    m => KeyOf(m) !in keys
  }

  lemma NoneGone(all: seq<Mount>, keys: seq<string>)
    ensures Keep(all, NotIn(keys[|keys|..])) == all
  {
    KeepAll(all, NotIn(keys[|keys|..]));
  }

  lemma OneMoreGone(all: seq<Mount>, keys: seq<string>, index: nat)
    requires 0 < index <= |keys|
    ensures Keep(Keep(all, NotIn(keys[index..])), (m: Mount) => KeyOf(m) != keys[index - 1]) == Keep(all, NotIn(keys[index - 1..]))
  {
    assert keys[index - 1..] == [keys[index - 1]] + keys[index..];
    KeepBoth(all, NotIn(keys[index..]), (m: Mount) => KeyOf(m) != keys[index - 1], NotIn(keys[index - 1..]));
  }

  lemma AllGone(all: seq<Mount>, keys: seq<string>)
    ensures Keep(all, NotIn(keys[0..])) == Keep(all, (m: Mount) => KeyOf(m) !in keys)
  {
    assert keys[0..] == keys;
    KeepSame(all, NotIn(keys[0..]), (m: Mount) => KeyOf(m) !in keys);
  }

  /** The plugins of the provider context. */
  class Mounts {
    var all: seq<Mount>

    constructor ()
      ensures all == []
    {
      all := [];
    }

    /** `DisposePlugin` */
    method DisposePlugin(key: string) returns (ok: bool)
      modifies this
      ensures all == Keep(old(all), (m: Mount) => KeyOf(m) != key)
    {
      all := Keep(all, (m: Mount) => KeyOf(m) != key);
      ok := *;
    }

    /** `unmountProviderPlugins`: the last one first; an error does not stop the rest. */
    method UnmountPlugins(keys: seq<string>) returns (ok: bool)
      modifies this
      ensures all == Keep(old(all), (m: Mount) => KeyOf(m) !in keys)
    {
      ok := true;
      var index := |keys|;
      NoneGone(all, keys);
      while index > 0
        invariant 0 <= index <= |keys|
        invariant all == Keep(old(all), NotIn(keys[index..]))
      {
        var fine := DisposePlugin(keys[index - 1]);
        ok := ok && fine;
        OneMoreGone(old(all), keys, index);
        index := index - 1;
      }
      AllGone(old(all), keys);
    }

    /** `unmountProviderGeneration`: everything whose key matches, and nothing else. */
    method UnmountGeneration(provider: string, generation: string) returns (ok: bool)
      modifies this
      ensures all == Unmatched(old(all), provider, generation)
    {
      var keys := [];
      for i := 0 to |all|
        invariant forall k :: k in keys <==> exists j :: 0 <= j < i && KeyOf(all[j]) == k && Matches(k, provider, generation)
      {
        if Matches(KeyOf(all[i]), provider, generation) {
          keys := keys + [KeyOf(all[i])];
        }
      }
      MatchedKeys(all, provider, generation, keys);
      ok := UnmountPlugins(keys);
    }

    /**
     `mountProviderGeneration`: all services in order, or none. It fails only if what a service
     injects does not resolve or a key is taken.
     */
    method MountGeneration(provider: string, services: seq<ServiceDef>, generation: string) returns (ok: bool, ghost resolved: bool)
      requires UniqueKeys(all)
      modifies this
      ensures UniqueKeys(all)
      ensures ok <==> resolved && UniqueKeys(old(all) + Fresh(provider, services, generation))
      ensures all == if ok then old(all) + Fresh(provider, services, generation) else old(all)
    {
      var mounted := [];
      resolved := true;
      for i := 0 to |services|
        invariant resolved
        invariant all == old(all) + Fresh(provider, services[..i], generation) && UniqueKeys(all)
        invariant mounted == KeysOf(Fresh(provider, services[..i], generation))
      {
        var next := Mount(provider, services[i].id, generation, Trim(services[i].family));
        var resolves := Decide();
        if !resolves || exists m :: m in all && KeyOf(m) == KeyOf(next) {
          resolved := resolves;
          if resolves { KeyTaken(old(all), provider, services, generation, i); }
          TakeBack(old(all), Fresh(provider, services[..i], generation));
          var fine := UnmountPlugins(mounted);
          return false, resolved;
        }
        FreshNext(provider, services, generation, i, next);
        KeysGrow(all, next);
        all := all + [next];
        mounted := mounted + [KeyOf(next)];
      }
      assert services[..|services|] == services;
      ok := true;
    }

    /** `displaceCordisCapabilityFamilies` */
    method Displace(owner: string, families: set<string>) returns (ok: bool)
      requires UniqueKeys(all)
      modifies this
      ensures all == AfterDisplacing(old(all), owner, families)
      ensures forall m :: m in all <==> m in old(all) && !(Trim(owner) != "" && Trim(m.family) in families && Trim(m.provider) != Trim(owner))
    {
      if Trim(owner) == "" {
        return true;
      }
      var keys := [];
      for i := 0 to |all|
        invariant forall k :: k in keys <==> exists j :: 0 <= j < i && KeyOf(all[j]) == k && Displaceable(all[j], owner, families)
      {
        if Displaceable(all[i], owner, families) {
          keys := keys + [KeyOf(all[i])];
        }
      }
      DisplacedKeys(all, owner, families, keys);
      ok := UnmountPlugins(keys);
    }
  }

  lemma FreshNext(provider: string, services: seq<ServiceDef>, generation: string, i: nat, next: Mount)
    requires i < |services| && next == Mount(provider, services[i].id, generation, Trim(services[i].family))
    ensures Fresh(provider, services[..i + 1], generation) == Fresh(provider, services[..i], generation) + [next]
    ensures KeysOf(Fresh(provider, services[..i + 1], generation)) == KeysOf(Fresh(provider, services[..i], generation)) + [KeyOf(next)]
  {
    assert Fresh(provider, services[..i + 1], generation) == Fresh(provider, services[..i], generation) + [next];
  }

  lemma KeyTaken(before: seq<Mount>, provider: string, services: seq<ServiceDef>, generation: string, i: nat)
    requires i < |services|
    requires var next := Mount(provider, services[i].id, generation, Trim(services[i].family));
      exists m :: m in before + Fresh(provider, services[..i], generation) && KeyOf(m) == KeyOf(next)
    ensures !UniqueKeys(before + Fresh(provider, services, generation))
  {
    var earlier, all := before + Fresh(provider, services[..i], generation), before + Fresh(provider, services, generation);
    var j :| 0 <= j < |earlier| && KeyOf(earlier[j]) == KeyOf(Mount(provider, services[i].id, generation, Trim(services[i].family)));
    assert all[j] == earlier[j] && KeyOf(all[|before| + i]) == KeyOf(earlier[j]);
  }

  lemma KeysGrow(all: seq<Mount>, next: Mount)
    requires UniqueKeys(all) && forall m :: m in all ==> KeyOf(m) != KeyOf(next)
    ensures UniqueKeys(all + [next])
  {
  }

  predicate Displaceable(m: Mount, owner: string, families: set<string>) {
    Trim(m.family) in families && Trim(m.provider) != Trim(owner)
  }

  /** What is left of the mounts when other providers are displaced from the families. */
  function AfterDisplacing(mounts: seq<Mount>, owner: string, families: set<string>): seq<Mount> {
    if Trim(owner) == "" then mounts else Keep(mounts, (m: Mount) => !Displaceable(m, owner, families))
  }

  lemma DisplacedKeys(all: seq<Mount>, owner: string, families: set<string>, keys: seq<string>)
    requires UniqueKeys(all)
    requires forall k :: k in keys <==> exists j :: 0 <= j < |all| && KeyOf(all[j]) == k && Displaceable(all[j], owner, families)
    ensures Keep(all, (m: Mount) => KeyOf(m) !in keys) == Keep(all, (m: Mount) => !Displaceable(m, owner, families))
  {
    forall m | m in all ensures KeyOf(m) in keys <==> Displaceable(m, owner, families) {
      var i :| 0 <= i < |all| && all[i] == m;
      if KeyOf(m) in keys {
        var j :| 0 <= j < |all| && KeyOf(all[j]) == KeyOf(m) && Displaceable(all[j], owner, families);
        assert i == j;
      }
    }
    KeepSame(all, (m: Mount) => KeyOf(m) !in keys, (m: Mount) => !Displaceable(m, owner, families));
  }

  function KeysOf(mounts: seq<Mount>): seq<string> {
    seq(|mounts|, i requires 0 <= i < |mounts| => KeyOf(mounts[i]))
  }

  /** Unmounting what was just mounted gives back what was there. */
  lemma TakeBack(before: seq<Mount>, added: seq<Mount>)
    requires UniqueKeys(before + added)
    ensures Keep(before + added, (m: Mount) => KeyOf(m) !in KeysOf(added)) == before
  {
    var f := (m: Mount) => KeyOf(m) !in KeysOf(added);
    forall m | m in before ensures f(m) {
      var i :| 0 <= i < |before| && before[i] == m;
      OldKey(before, added, i);
    }
    forall m | m in added ensures !f(m) {
      var k :| 0 <= k < |added| && added[k] == m;
      assert KeysOf(added)[k] == KeyOf(m);
    }
    KeepConcat(before, added, f);
    KeepAll(before, f);
    KeepNone(added, f);
  }

  lemma OldKey(before: seq<Mount>, added: seq<Mount>, i: nat)
    requires UniqueKeys(before + added) && i < |before|
    ensures KeyOf(before[i]) !in KeysOf(added)
  {
    var all := before + added;
    forall k | 0 <= k < |added| ensures KeysOf(added)[k] != KeyOf(before[i]) {
      assert all[i] == before[i] && all[|before| + k] == added[k];
    }
  }

  /** What is left of the mounts when everything that matches the generation is taken down. */
  function Unmatched(mounts: seq<Mount>, provider: string, generation: string): seq<Mount> {
    Keep(mounts, (m: Mount) => !Matches(KeyOf(m), provider, generation))
  }

  lemma MatchedKeys(all: seq<Mount>, provider: string, generation: string, keys: seq<string>)
    requires forall k :: k in keys <==> exists j :: 0 <= j < |all| && KeyOf(all[j]) == k && Matches(k, provider, generation)
    ensures Keep(all, (m: Mount) => KeyOf(m) !in keys) == Unmatched(all, provider, generation)
  {
    forall m | m in all ensures KeyOf(m) in keys <==> Matches(KeyOf(m), provider, generation) {
      var j :| 0 <= j < |all| && all[j] == m;
      assert 0 <= j < |all| && KeyOf(all[j]) == KeyOf(m);
    }
    KeepSame(all, (m: Mount) => KeyOf(m) !in keys, (m: Mount) => !Matches(KeyOf(m), provider, generation));
  }

  // ---------------------------------------------------------------- when matching is exact

  /**
   Taking down a generation takes down exactly its services if and only if no service
   mounted for another generation of the provider has a confusable name.
   */
  lemma UnmountExactly(mounts: seq<Mount>, provider: string, generation: string)
    requires Bare(provider) && forall m :: m in mounts ==> Bare(m.provider) && Bare(m.service)
    requires forall m :: m in mounts && m.generation == generation ==> m.provider == provider
    ensures Unmatched(mounts, provider, generation) == Keep(mounts, (m: Mount) => m.generation != generation) <==>
      forall m :: m in mounts && m.generation != generation && Trim(m.provider) == Trim(provider) ==> !Confusable(m.generation, generation)
  {
    var f, g := (m: Mount) => !Matches(KeyOf(m), provider, generation), (m: Mount) => m.generation != generation;
    forall m | m in mounts
      ensures f(m) <==> !(Trim(m.provider) == Trim(provider) && Confusable(m.generation, generation))
      ensures !g(m) ==> !f(m)
    {
      KeyMatches(m, provider, generation);
      SuffixOfItself(m.generation);
    }
    if forall m :: m in mounts && m.generation != generation && Trim(m.provider) == Trim(provider) ==> !Confusable(m.generation, generation) {
      KeepSame(mounts, f, g);
    } else {
      var m :| m in mounts && m.generation != generation && Trim(m.provider) == Trim(provider) && Confusable(m.generation, generation);
      assert m in Keep(mounts, g) && m !in Keep(mounts, f);
    }
  }

  lemma SuffixOfItself(name: string)
    ensures Confusable(name, name)
  {
    var s := "@" + Trim(name);
    assert s[|s| - |s|..] == s;
  }
}
