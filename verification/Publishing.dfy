/**
 Publishing a provider's manifest to the catalog: other providers are displaced from the
 families it serves, then its own overlay is replaced.
 */
module Publishing {
  import opened Text
  import opened Catalog

  datatype Operation = Operation(id: string, version: int)
  datatype Service = Service(family: string, operations: seq<Operation>)
  datatype Manifest = Manifest(provider: string, services: seq<Service>)

  /** `providerOperationDescriptor` */
  function Describe(m: Manifest, service: Service, operation: Operation, generation: string): Registration {
    Registration(operation.id, m.provider, generation, Trim(service.family), "provider:" + m.provider,
                 if operation.version == 0 then 1 else operation.version)
  }

  function DescribeService(m: Manifest, service: Service, generation: string): seq<Registration> {
    seq(|service.operations|, i requires 0 <= i < |service.operations| => Describe(m, service, service.operations[i], generation))
  }

  /** `providerCapabilitiesForGeneration` of the first services. */
  function Descriptors(m: Manifest, generation: string, n: nat): seq<Registration>
    requires n <= |m.services|
  {
    if n == 0 then [] else Descriptors(m, generation, n - 1) + DescribeService(m, m.services[n - 1], generation)
  }

  function All(m: Manifest, generation: string): seq<Registration> {
    Descriptors(m, generation, |m.services|)
  }

  function Families(m: Manifest): set<string> {
    set i | 0 <= i < |m.services| && Trim(m.services[i].family) != "" :: Trim(m.services[i].family)
  }

  /** What the descriptors of a manifest have in common. */
  lemma {:induction false} DescriptorsAre(m: Manifest, generation: string, n: nat)
    requires n <= |m.services|
    ensures forall i :: 0 <= i < |Descriptors(m, generation, n)| ==>
      var d := Descriptors(m, generation, n)[i];
      d.provider == m.provider && d.generation == generation && Trim(d.family) == d.family && (d.family == "" || d.family in Families(m)) && d.version != 0
  {
    if n > 0 {
      DescriptorsAre(m, generation, n - 1);
      TrimTwice(m.services[n - 1].family);
    }
  }

  // ---------------------------------------------------------------- publishing on values

  function AfterDisplacing(overlays: Overlays, m: Manifest): Overlays {
    overlays - Displaced(overlays, Normal(m.provider), Families(m))
  }

  ghost predicate Accepts(overlays: Overlays, base: set<string>, m: Manifest, generation: string, valid: Registration -> bool) {
    && Normal(m.provider) != ""
    && if generation != ""
       then Replaceable(AfterDisplacing(overlays, m), base, generation, All(m, generation), valid)
       else ProviderReplaceable(AfterDisplacing(overlays, m), base, Normal(m.provider), All(m, generation), valid)
  }

  function Replacement(overlays: Overlays, m: Manifest, generation: string): Overlays {
    var rest, values := AfterDisplacing(overlays, m), All(m, generation);
    if generation != "" then Replaced(rest, StaleGeneration(rest, generation, ProviderOf(values)), Versioned(values))
    else Replaced(rest, StaleProvider(rest, Normal(m.provider)), Claimed(values, Normal(m.provider)))
  }

  /** The overlay after publishing; a rejected manifest has displaced the others all the same. */
  function Published(overlays: Overlays, m: Manifest, generation: string, ok: bool): Overlays {
    if Normal(m.provider) == "" then overlays
    else if ok then Replacement(overlays, m, generation)
    else AfterDisplacing(overlays, m)
  }

  class Server {
    const registry: Registry

    constructor (registry: Registry)
      ensures this.registry == registry
    {
      this.registry := registry;
    }

    /** The families a manifest serves, each once. */
    method CollectFamilies(m: Manifest) returns (families: seq<string>)
      ensures Wanted(families) == Families(m)
    {
      families := [];
      for i := 0 to |m.services|
        invariant forall x :: x in families <==> Serves(m, i, x)
      {
        ServesNext(m, i);
        var family := Trim(m.services[i].family);
        if family != "" && family !in families {
          families := families + [family];
        }
      }
      WantedAre(m, families);
    }

    /** `registerProviderServicesForGeneration` */
    method RegisterProviderServices(m: Manifest, generation: string) returns (ok: bool)
      modifies registry
      ensures ok == Accepts(old(registry.overlays), registry.base, m, generation, registry.Validity())
      ensures registry.overlays == Published(old(registry.overlays), m, generation, ok)
    {
      ok := registry.AuthorizeProvider(m.provider);
      if !ok {
        return;
      }
      var families := CollectFamilies(m);
      var displaced := registry.DisplaceCapabilityFamilies(m.provider, families);
      if generation != "" {
        ok := registry.ReplaceGeneration(generation, All(m, generation));
      } else {
        ok := registry.ReplaceProvider(m.provider, All(m, generation));
      }
    }
  }

  /** One of the first `n` services has the family. */
  ghost predicate Serves(m: Manifest, n: nat, x: string)
    requires n <= |m.services|
  {
    x != "" && exists k :: 0 <= k < n && Trim(m.services[k].family) == x
  }

  lemma ServesNext(m: Manifest, n: nat)
    requires n < |m.services|
    ensures forall x :: Serves(m, n + 1, x) <==> Serves(m, n, x) || (x != "" && x == Trim(m.services[n].family))
  {
    forall x ensures Serves(m, n + 1, x) <==> Serves(m, n, x) || (x != "" && x == Trim(m.services[n].family)) {
      if Serves(m, n + 1, x) {
        var k :| 0 <= k < n + 1 && Trim(m.services[k].family) == x;
        if k < n { assert Serves(m, n, x); }
      }
      if Serves(m, n, x) {
        var k :| 0 <= k < n && Trim(m.services[k].family) == x;
        assert 0 <= k < n + 1 && Trim(m.services[k].family) == x;
      }
    }
  }

  lemma WantedAre(m: Manifest, families: seq<string>)
    requires forall x :: x in families <==> Serves(m, |m.services|, x)
    ensures Wanted(families) == Families(m)
  {
    forall i | 0 <= i < |families| ensures Trim(families[i]) == families[i] && families[i] in Families(m) {
      assert families[i] in families;
      var k :| 0 <= k < |m.services| && Trim(m.services[k].family) == families[i];
      TrimTwice(m.services[k].family);
    }
    forall x | x in Families(m) ensures x in Wanted(families) {
      assert Serves(m, |m.services|, x);
      var i :| 0 <= i < |families| && families[i] == x;
      assert Trim(families[i]) == x;
    }
  }

  // ---------------------------------------------------------------- exclusivity

  /** Both operations serve the same family. */
  predicate SameFamily(a: Registration, b: Registration) {
    Trim(a.family) == Trim(b.family) && Trim(a.family) != ""
  }

  /** No capability family has operations of two providers. */
  ghost predicate Exclusive(overlays: Overlays) {
    forall a, b :: a in overlays && b in overlays && SameFamily(overlays[a], overlays[b]) ==>
      Normal(overlays[a].provider) == Normal(overlays[b].provider)
  }

  /** Everything in the families belongs to the provider. */
  ghost predicate Owned(overlays: Overlays, provider: string, families: set<string>) {
    forall o :: o in overlays && Trim(overlays[o].family) in families ==> Normal(overlays[o].provider) == provider
  }

  /** Putting in operations of a provider whose families it owns keeps every family exclusive. */
  lemma InstallExclusive(overlays: Overlays, stale: set<string>, values: seq<Registration>, provider: string, families: set<string>)
    requires Exclusive(overlays) && Owned(overlays, provider, families) && DistinctOperations(values)
    requires forall i :: 0 <= i < |values| ==>
      Normal(values[i].provider) == provider && (Trim(values[i].family) == "" || Trim(values[i].family) in families)
    ensures Exclusive(Replaced(overlays, stale, values))
  {
    var after := Replaced(overlays, stale, values);
    forall o | o in after
      ensures (Normal(after[o].provider) == provider && (Trim(after[o].family) == "" || Trim(after[o].family) in families))
        || (o in overlays && after[o] == overlays[o])
    {
      ReplacedHolds(overlays, stale, values, o);
    }
    forall a, b | a in after && b in after && SameFamily(after[a], after[b])
      ensures Normal(after[a].provider) == Normal(after[b].provider) { }
  }

  lemma DisplacingOwns(overlays: Overlays, m: Manifest)
    requires Exclusive(overlays)
    ensures Exclusive(AfterDisplacing(overlays, m)) && Owned(AfterDisplacing(overlays, m), Normal(m.provider), Families(m))
  {
  }

  lemma ClaimedDistinct(values: seq<Registration>, provider: string)
    requires DistinctOperations(values)
    ensures DistinctOperations(Claimed(values, provider))
  {
  }

  /** Publishing keeps every family exclusive, whether it is accepted or not. */
  lemma PublishKeepsExclusive(overlays: Overlays, base: set<string>, m: Manifest, generation: string, valid: Registration -> bool, ok: bool)
    requires Exclusive(overlays) && (ok ==> Accepts(overlays, base, m, generation, valid))
    ensures Exclusive(Published(overlays, m, generation, ok))
  {
    DisplacingOwns(overlays, m);
    if ok {
      var rest, values, owner := AfterDisplacing(overlays, m), All(m, generation), Normal(m.provider);
      DescriptorsAre(m, generation, |m.services|);
      NormalTwice(m.provider);
      if generation != "" {
        VersionedSame(values);
        InstallExclusive(rest, StaleGeneration(rest, generation, ProviderOf(values)), Versioned(values), owner, Families(m));
      } else {
        ClaimedDistinct(values, owner);
        InstallExclusive(rest, StaleProvider(rest, owner), Claimed(values, owner), owner, Families(m));
      }
    }
  }

  lemma PublishKeepsBase(overlays: Overlays, base: set<string>, m: Manifest, generation: string, valid: Registration -> bool, ok: bool)
    requires overlays.Keys !! base && (ok ==> Accepts(overlays, base, m, generation, valid))
    ensures Published(overlays, m, generation, ok).Keys !! base
  {
    if ok {
      var rest, values, owner := AfterDisplacing(overlays, m), All(m, generation), Normal(m.provider);
      NormalTwice(m.provider);
      if generation != "" {
        ReplaceGenerationMeans(rest, base, generation, values, valid, "");
      } else {
        ReplaceProviderMeans(rest, base, owner, values, valid, "");
      }
    }
  }

  // ---------------------------------------------------------------- what is published

  /** Every operation of the manifest is among its descriptors. */
  lemma {:induction false} Described(m: Manifest, generation: string, n: nat, s: nat, i: nat) returns (k: nat)
    requires s < n <= |m.services| && i < |m.services[s].operations|
    ensures k < |Descriptors(m, generation, n)|
    ensures var service, operation := m.services[s], m.services[s].operations[i];
      Descriptors(m, generation, n)[k] == Registration(operation.id, m.provider, generation, Trim(service.family), "provider:" + m.provider,
                                                       if operation.version == 0 then 1 else operation.version)
  {
    if s == n - 1 {
      k := |Descriptors(m, generation, n - 1)| + i;
    } else {
      k := Described(m, generation, n - 1, s, i);
    }
  }

  /** After an accepted publication every operation of the manifest is served, by its provider, for its family and generation. */
  lemma PublishedHas(overlays: Overlays, base: set<string>, m: Manifest, generation: string, valid: Registration -> bool, s: nat, i: nat)
    requires Accepts(overlays, base, m, generation, valid) && s < |m.services| && i < |m.services[s].operations|
    ensures var operation, after := m.services[s].operations[i], Published(overlays, m, generation, true);
      && operation.id in after && Normal(after[operation.id].provider) == Normal(m.provider)
      && after[operation.id].generation == generation && after[operation.id].family == Trim(m.services[s].family)
      && after[operation.id].version == if operation.version == 0 then 1 else operation.version
  {
    var rest, values, o := AfterDisplacing(overlays, m), All(m, generation), m.services[s].operations[i].id;
    var k := Described(m, generation, |m.services|, s, i);
    NormalTwice(m.provider);
    if generation != "" {
      VersionedSame(values);
      assert Versioned(values)[k] == values[k];
      ReplacedHolds(rest, StaleGeneration(rest, generation, ProviderOf(values)), Versioned(values), o);
    } else {
      var claimed := Claimed(values, Normal(m.provider));
      ClaimedDistinct(values, Normal(m.provider));
      assert claimed[k].operation == o;
      ReplacedHolds(rest, StaleProvider(rest, Normal(m.provider)), claimed, o);
    }
  }

  // ---------------------------------------------------------------- runs

  datatype Publication = Publication(manifest: Manifest, generation: string, valid: Registration -> bool, ok: bool)

  /** A run that publishes only through the server, from an empty overlay. */
  ghost predicate Run(states: seq<Overlays>, base: set<string>, steps: seq<Publication>) {
    && |states| == |steps| + 1 && states[0] == map[]
    && forall t {:trigger StepAt(states, base, steps, t)} :: 0 <= t < |steps| ==> StepAt(states, base, steps, t)
  }

  ghost predicate StepAt(states: seq<Overlays>, base: set<string>, steps: seq<Publication>, t: nat)
    requires t < |steps| && t + 1 < |states|
  {
    Publishes(states[t], base, steps[t], states[t + 1])
  }

  ghost predicate Publishes(overlays: Overlays, base: set<string>, p: Publication, after: Overlays) {
    var published := p.ok == Accepts(overlays, base, p.manifest, p.generation, p.valid)
      && after == Published(overlays, p.manifest, p.generation, p.ok);
    published
  }

  /** No family has two providers and nothing clashes with the base. */
  ghost predicate Sound(overlays: Overlays, base: set<string>) {
    var sound := Exclusive(overlays) && overlays.Keys !! base;
    sound
  }

  lemma NothingSound(base: set<string>)
    ensures Sound(map[], base)
  {
  }

  lemma PublishesKeeps(overlays: Overlays, base: set<string>, p: Publication, after: Overlays)
    requires Publishes(overlays, base, p, after) && Sound(overlays, base)
    ensures Sound(after, base)
  {
    PublishKeepsExclusive(overlays, base, p.manifest, p.generation, p.valid, p.ok);
    PublishKeepsBase(overlays, base, p.manifest, p.generation, p.valid, p.ok);
  }

  lemma StepSound(states: seq<Overlays>, base: set<string>, steps: seq<Publication>, t: nat)
    requires Run(states, base, steps) && t < |steps| && Sound(states[t], base)
    ensures Sound(states[t + 1], base)
  {
    assert StepAt(states, base, steps, t);
    PublishesKeeps(states[t], base, steps[t], states[t + 1]);
  }

  /** In every such run no family has two providers and nothing clashes with the base. */
  lemma {:induction false} RunExclusive(states: seq<Overlays>, base: set<string>, steps: seq<Publication>, t: nat)
    requires Run(states, base, steps) && t < |states|
    ensures Sound(states[t], base)
  {
    if t == 0 {
      NothingSound(base);
    } else {
      RunExclusive(states, base, steps, t - 1);
      StepSound(states, base, steps, t - 1);
    }
  }

  // ---------------------------------------------------------------- names as they are written

  /** Exclusivity by the provider name as it was registered, without normalising it. */
  ghost predicate RawExclusive(overlays: Overlays) {
    forall a, b :: a in overlays && b in overlays && SameFamily(overlays[a], overlays[b]) ==>
      overlays[a].provider == overlays[b].provider
  }

  /** The name under which a publication registers its operations. */
  function NameIn(p: Publication): string {
    if p.generation != "" then p.manifest.provider else Normal(p.manifest.provider)
  }

  /** Every provider is written in one way. */
  ghost predicate OneSpelling(names: set<string>) {
    forall a, b :: a in names && b in names && Normal(a) == Normal(b) ==> a == b
  }

  ghost predicate NamesWithin(steps: seq<Publication>, names: set<string>) {
    forall t :: 0 <= t < |steps| ==> NameIn(steps[t]) in names
  }

  ghost predicate RegisteredWithin(overlays: Overlays, names: set<string>) {
    forall o :: o in overlays ==> overlays[o].provider in names
  }

  lemma PublishNames(overlays: Overlays, base: set<string>, p: Publication, after: Overlays, names: set<string>)
    requires Publishes(overlays, base, p, after) && RegisteredWithin(overlays, names) && NameIn(p) in names
    ensures RegisteredWithin(after, names)
  {
    if p.ok {
      var m := p.manifest;
      var rest, values := AfterDisplacing(overlays, m), All(m, p.generation);
      DescriptorsAre(m, p.generation, |m.services|);
      VersionedSame(values);
      forall o | o in after ensures after[o].provider in names {
        if p.generation != "" {
          ReplacedHolds(rest, StaleGeneration(rest, p.generation, ProviderOf(values)), Versioned(values), o);
        } else {
          ClaimedDistinct(values, Normal(m.provider));
          ReplacedHolds(rest, StaleProvider(rest, Normal(m.provider)), Claimed(values, Normal(m.provider)), o);
        }
      }
    }
  }

  lemma StepNames(states: seq<Overlays>, base: set<string>, steps: seq<Publication>, t: nat, names: set<string>)
    requires Run(states, base, steps) && t < |steps| && NamesWithin(steps, names) && RegisteredWithin(states[t], names)
    ensures RegisteredWithin(states[t + 1], names)
  {
    assert StepAt(states, base, steps, t);
    PublishNames(states[t], base, steps[t], states[t + 1], names);
  }

  lemma {:induction false} RunNames(states: seq<Overlays>, base: set<string>, steps: seq<Publication>, t: nat, names: set<string>)
    requires Run(states, base, steps) && t < |states| && NamesWithin(steps, names)
    ensures RegisteredWithin(states[t], names)
  {
    if t > 0 {
      RunNames(states, base, steps, t - 1, names);
      StepNames(states, base, steps, t - 1, names);
    }
  }

  lemma RunRawExclusive(states: seq<Overlays>, base: set<string>, steps: seq<Publication>, t: nat, names: set<string>)
    requires Run(states, base, steps) && t < |states| && NamesWithin(steps, names) && OneSpelling(names)
    ensures RawExclusive(states[t])
  {
    RunNames(states, base, steps, t, names);
    RunExclusive(states, base, steps, t);
  }

  // Two spellings of one provider share a family.

  function OneOperation(provider: string, operation: string, generation: string): Registration {
    Registration(operation, provider, generation, "f", "provider:" + provider, 1)
  }

  function Publisher(provider: string, operation: string, generation: string): Publication {
    Publication(Manifest(provider, [Service("f", [Operation(operation, 1)])]), generation, _ => true, true)
  }

  lemma PublisherDescribes(provider: string, operation: string, generation: string)
    ensures All(Publisher(provider, operation, generation).manifest, generation) == [OneOperation(provider, operation, generation)]
    ensures Families(Publisher(provider, operation, generation).manifest) == {"f"}
    ensures Trim(generation) != "" ==> generation != ""
  {
    var m := Publisher(provider, operation, generation).manifest;
    assert Trim("f") == "f";
    assert Descriptors(m, generation, 0) == [];
    assert DescribeService(m, m.services[0], generation) == [OneOperation(provider, operation, generation)];
    assert Families(m) == {"f"} by { assert Trim(m.services[0].family) == "f"; }
  }

  /** Publishing one operation beside another that is neither displaced nor stale. */
  lemma PublisherAdds(overlays: Overlays, provider: string, operation: string, generation: string)
    requires Normal(provider) != "" && Trim(generation) != "" && operation !in overlays
    requires forall o :: o in overlays ==>
      Normal(overlays[o].provider) == Normal(provider) && overlays[o].provider != provider && overlays[o].generation != generation
    ensures Publishes(overlays, {}, Publisher(provider, operation, generation), overlays[operation := OneOperation(provider, operation, generation)])
  {
    var p := Publisher(provider, operation, generation);
    var values := [OneOperation(provider, operation, generation)];
    PublisherDescribes(provider, operation, generation);
    assert AfterDisplacing(overlays, p.manifest) == overlays;
    assert StaleGeneration(overlays, generation, provider) == {};
    assert Versioned(values) == values;
    assert Replaced(overlays, {}, values[..0]) == overlays;
    assert Replaced(overlays, {}, values) == overlays[operation := values[0]];
  }

  lemma TwoSpellings(a: string, b: string) returns (states: seq<Overlays>, steps: seq<Publication>)
    requires a != b && Normal(a) == Normal(b) && Normal(a) != ""
    ensures Run(states, {}, steps) && |states| == 3 && NamesWithin(steps, {a, b}) && !RawExclusive(states[2])
  {
    var one: Overlays := map["o1" := OneOperation(a, "o1", "g1")];
    var two: Overlays := one["o2" := OneOperation(b, "o2", "g2")];
    states, steps := [map[], one, two], [Publisher(a, "o1", "g1"), Publisher(b, "o2", "g2")];
    FirstAlone(a);
    SecondBeside(a, b);
    assert StepAt(states, {}, steps, 0) && StepAt(states, {}, steps, 1);
    assert SameFamily(two["o1"], two["o2"]) by { assert Trim("f") == "f"; }
  }

  lemma FirstAlone(a: string)
    requires Normal(a) != ""
    ensures Publishes(map[], {}, Publisher(a, "o1", "g1"), map["o1" := OneOperation(a, "o1", "g1")])
  {
    assert Trim("g1") == "g1";
    PublisherAdds(map[], a, "o1", "g1");
  }

  lemma SecondBeside(a: string, b: string)
    requires a != b && Normal(a) == Normal(b) && Normal(a) != ""
    ensures Publishes(map["o1" := OneOperation(a, "o1", "g1")], {}, Publisher(b, "o2", "g2"),
                      map["o1" := OneOperation(a, "o1", "g1")]["o2" := OneOperation(b, "o2", "g2")])
  {
    assert Trim("g2") == "g2";
    PublisherAdds(map["o1" := OneOperation(a, "o1", "g1")], b, "o2", "g2");
  }

  /** By written name, families are exclusive in every run exactly when every provider has one spelling. */
  lemma RawExclusiveExactly(names: set<string>)
    requires forall n :: n in names ==> Normal(n) != ""
    ensures OneSpelling(names) <==>
      forall states, base, steps, t: nat :: Run(states, base, steps) && t < |states| && NamesWithin(steps, names) ==> RawExclusive(states[t])
  {
    if OneSpelling(names) {
      forall states, base, steps, t: nat | Run(states, base, steps) && t < |states| && NamesWithin(steps, names) ensures RawExclusive(states[t]) {
        RunRawExclusive(states, base, steps, t, names);
      }
    } else {
      var a, b :| a in names && b in names && Normal(a) == Normal(b) && a != b;
      var states, steps := TwoSpellings(a, b);
      assert NamesWithin(steps, names);
    }
  }
}
