/**
 The overlay registry of capabilities: replacing a provider's overlay in one step, and
 publishing it so that a capability family has one provider.
 */
module Catalog {
  import opened Text

  /** A registered operation, with the fields that decide ownership. */
  datatype Registration = Registration(
    operation: string,
    provider: string,
    generation: string,
    family: string,
    implementation: string,
    version: int
  )

  type Overlays = map<string, Registration>

  function Normal(provider: string): string {
    Lower(Trim(provider))
  }

  /** `normalizeRegistration` */
  function WithVersion(r: Registration): Registration {
    if r.version == 0 then r.(version := 1) else r
  }

  function Versioned(values: seq<Registration>): seq<Registration> {
    seq(|values|, i requires 0 <= i < |values| => WithVersion(values[i]))
  }

  ghost predicate DistinctOperations(values: seq<Registration>) {
    forall i, j :: 0 <= i < j < |values| ==> values[i].operation != values[j].operation
  }

  /** The overlay with some operations taken out and the registrations put in. */
  function Replaced(overlays: Overlays, stale: set<string>, values: seq<Registration>): Overlays {
    if values == [] then overlays - stale
    else Replaced(overlays, stale, values[..|values| - 1])[values[|values| - 1].operation := values[|values| - 1]]
  }

  /** What a replacement by generation takes out. */
  function StaleGeneration(overlays: Overlays, generation: string, provider: string): set<string> {
    set o | o in overlays && (overlays[o].generation == generation || (provider != "" && overlays[o].provider == provider))
  }

  /** What a replacement by provider takes out. */
  function StaleProvider(overlays: Overlays, provider: string): set<string> {
    set o | o in overlays && Normal(overlays[o].provider) == provider
  }

  /** The operations can be put in without touching the base or what stays. */
  ghost predicate NoConflict(overlays: Overlays, base: set<string>, stale: set<string>, values: seq<Registration>) {
    forall i :: 0 <= i < |values| ==>
      values[i].operation !in base && (values[i].operation in overlays ==> values[i].operation in stale)
  }

  function ProviderOf(values: seq<Registration>): string {
    if values == [] then "" else values[0].provider
  }

  /** Exactly when a replacement by generation is accepted. */
  ghost predicate Replaceable(overlays: Overlays, base: set<string>, generation: string, values: seq<Registration>, valid: Registration -> bool) {
    && Trim(generation) != ""
    && (forall i :: 0 <= i < |values| ==> values[i].generation == generation && values[i].provider == ProviderOf(values) && valid(WithVersion(values[i])))
    && DistinctOperations(values)
    && NoConflict(overlays, base, StaleGeneration(overlays, generation, ProviderOf(values)), values)
  }

  lemma {:induction false} ReplacedHolds(overlays: Overlays, stale: set<string>, values: seq<Registration>, o: string)
    requires DistinctOperations(values)
    ensures o in Replaced(overlays, stale, values) <==> (o in overlays && o !in stale) || exists i :: 0 <= i < |values| && values[i].operation == o
    ensures forall i :: 0 <= i < |values| && values[i].operation == o ==> Replaced(overlays, stale, values)[o] == values[i]
    ensures o in Replaced(overlays, stale, values) && (forall i :: 0 <= i < |values| ==> values[i].operation != o) ==>
      Replaced(overlays, stale, values)[o] == overlays[o]
  {
    if values != [] {
      var last := |values| - 1;
      ReplacedHolds(overlays, stale, values[..last], o);
      assert forall i :: 0 <= i < last ==> values[..last][i] == values[i];
      if o != values[last].operation && exists i :: 0 <= i < |values| && values[i].operation == o {
        var i :| 0 <= i < |values| && values[i].operation == o;
        assert values[..last][i].operation == o;
      }
    }
  }

  // ---------------------------------------------------------------- the registry

  /** Exactly when a replacement by provider is accepted. */
  ghost predicate ProviderReplaceable(overlays: Overlays, base: set<string>, provider: string, values: seq<Registration>, valid: Registration -> bool) {
    && provider != ""
    && (forall i :: 0 <= i < |values| ==>
      values[i].version >= 1 && (values[i].provider == "" || Normal(values[i].provider) == provider) && valid(values[i].(provider := provider)))
    && DistinctOperations(values)
    && NoConflict(overlays, base, StaleProvider(overlays, provider), values)
  }

  /** Registrations made in the name of a provider. */
  function Claimed(values: seq<Registration>, provider: string): seq<Registration> {
    seq(|values|, i requires 0 <= i < |values| => values[i].(provider := provider))
  }

  /** What displacing other providers from the families takes out. */
  function Displaced(overlays: Overlays, owner: string, families: set<string>): set<string> {
    set o | o in overlays && Trim(overlays[o].family) in families && Normal(overlays[o].provider) != owner
  }

  /** The provider is authorised and the descriptor passes its checks. */
  function ValidIn(authorized: set<string>, checks: Registration -> bool): Registration -> bool {
    (r: Registration) => Normal(r.provider) in authorized && Normal(r.provider) != "" && checks(r)
  }

  /** A valid operation that is new, or refreshes one of the same provider and implementation. */
  predicate Upgrades(overlays: Overlays, base: set<string>, r: Registration, valid: Registration -> bool) {
    && valid(r) && r.operation !in base
    && (r.operation in overlays ==>
      var existing := overlays[r.operation];
      existing.provider == r.provider && existing.implementation == r.implementation && existing.version <= r.version)
  }

  class Registry {
    const base: set<string>
    const checks: Registration -> bool
    var authorized: set<string>
    var overlays: Overlays

    constructor (base: set<string>, checks: Registration -> bool)
      ensures this.base == base && this.checks == checks && overlays == map[]
    {
      this.base, this.checks := base, checks;
      authorized, overlays := {}, map[];
    }

    /** `validate` */
    function Validity(): Registration -> bool
      reads this
    {
      ValidIn(authorized, checks)
    }

    /** Everything in the overlay belongs to an authorised provider. */
    ghost predicate Sanctioned()
      reads this
    {
      forall o :: o in overlays ==> Normal(overlays[o].provider) in authorized
    }

    /** `AuthorizeProvider` */
    method AuthorizeProvider(provider: string) returns (ok: bool)
      modifies this`authorized
      ensures ok == (Normal(provider) != "") && authorized == if ok then old(authorized) + {Normal(provider)} else old(authorized)
      ensures old(Sanctioned()) ==> Sanctioned()
    {
      if Normal(provider) == "" {
        return false;
      }
      authorized := authorized + {Normal(provider)};
      ok := true;
    }

    /** `DisplaceCapabilityFamilies` */
    method DisplaceCapabilityFamilies(owner: string, ids: seq<string>) returns (removed: set<string>)
      modifies this`overlays
      ensures removed == old(Displaced(overlays, Normal(owner), if Normal(owner) == "" then {} else Wanted(ids)))
      ensures forall o :: o in removed <==>
        && o in old(overlays) && Normal(owner) != "" && Normal(old(overlays)[o].provider) != Normal(owner)
        && exists i :: 0 <= i < |ids| && Trim(ids[i]) != "" && Trim(ids[i]) == Trim(old(overlays)[o].family)
      ensures old(Sanctioned()) ==> Sanctioned()
      ensures overlays == old(overlays) - removed
    {
      var wanted := {};
      for i := 0 to |ids|
        invariant wanted == Wanted(ids[..i])
      {
        assert ids[..i + 1] == ids[..i] + [ids[i]];
        if Trim(ids[i]) != "" {
          wanted := wanted + {Trim(ids[i])};
        }
      }
      assert ids[..|ids|] == ids;
      removed := {};
      if Normal(owner) == "" {
        return;
      }
      var rest := overlays.Keys;
      while rest != {}
        invariant rest <= old(overlays).Keys && removed == Displaced(old(overlays), Normal(owner), wanted) - rest
        invariant overlays == old(overlays) - removed
        decreases rest
      {
        var o :| o in rest;
        if Trim(overlays[o].family) in wanted && Normal(overlays[o].provider) != Normal(owner) {
          overlays := overlays - {o};
          removed := removed + {o};
        }
        rest := rest - {o};
      }
    }

    /** No operation of the list is in the base or kept by somebody else. */
    method Conflicts(stale: set<string>, values: seq<Registration>) returns (clash: bool)
      ensures clash <==> !NoConflict(overlays, base, stale, values)
    {
      for i := 0 to |values|
        invariant forall k :: 0 <= k < i ==>
          values[k].operation !in base && (values[k].operation in overlays ==> values[k].operation in stale)
      {
        if values[i].operation in base || (values[i].operation in overlays && values[i].operation !in stale) {
          return true;
        }
      }
      clash := false;
    }

    /** Takes the stale operations out and puts the new ones in. */
    method Install(stale: set<string>, values: seq<Registration>)
      modifies this`overlays
      ensures overlays == Replaced(old(overlays), stale, values)
    {
      overlays := overlays - stale;
      for i := 0 to |values|
        invariant overlays == Replaced(old(overlays), stale, values[..i])
      {
        assert values[..i + 1][..i] == values[..i];
        overlays := overlays[values[i].operation := values[i]];
      }
      assert values[..|values|] == values;
    }

    /** The first loop of `ReplaceGeneration`: every value belongs to it, none twice. */
    method Collect(generation: string, values: seq<Registration>) returns (ok: bool)
      ensures ok <==> DistinctOperations(values) && forall i :: 0 <= i < |values| ==> values[i].generation == generation
    {
      var seen := {};
      for i := 0 to |values|
        invariant forall o :: o in seen <==> exists k :: 0 <= k < i && values[k].operation == o
        invariant DistinctOperations(values[..i]) && forall k :: 0 <= k < i ==> values[k].generation == generation
      {
        if values[i].generation != generation || values[i].operation in seen {
          return false;
        }
        seen := seen + {values[i].operation};
      }
      assert values[..|values|] == values;
      ok := true;
    }

    /** The checks of every registration, and that one provider made them all. */
    method CheckAll(values: seq<Registration>) returns (ok: bool)
      ensures ok <==> forall i :: 0 <= i < |values| ==> values[i].provider == ProviderOf(values) && Validity()(WithVersion(values[i]))
    {
      for i := 0 to |values|
        invariant forall k :: 0 <= k < i ==> values[k].provider == ProviderOf(values) && Validity()(WithVersion(values[k]))
      {
        if !Validity()(WithVersion(values[i])) || values[i].provider != ProviderOf(values) {
          return false;
        }
      }
      ok := true;
    }

    method StaleOf(generation: string, provider: string) returns (stale: set<string>)
      ensures stale == StaleGeneration(overlays, generation, provider)
    {
      stale := {};
      var rest := overlays.Keys;
      while rest != {}
        invariant rest <= overlays.Keys && stale == StaleGeneration(overlays, generation, provider) - rest
        decreases rest
      {
        var o :| o in rest;
        if overlays[o].generation == generation || (provider != "" && overlays[o].provider == provider) {
          stale := stale + {o};
        }
        rest := rest - {o};
      }
    }

    /** `ReplaceGeneration`: the whole replacement, or nothing. */
    method ReplaceGeneration(generation: string, values: seq<Registration>) returns (ok: bool)
      modifies this`overlays
      ensures ok == old(Replaceable(overlays, base, generation, values, Validity()))
      ensures overlays ==
        if ok then Replaced(old(overlays), StaleGeneration(old(overlays), generation, ProviderOf(values)), Versioned(values)) else old(overlays)
      ensures old(Sanctioned()) ==> Sanctioned()
    {
      if Trim(generation) == "" {
        return false;
      }
      var mine := Collect(generation, values);
      if !mine {
        return false;
      }
      var valid := CheckAll(values);
      if !valid {
        return false;
      }
      var stale := StaleOf(generation, ProviderOf(values));
      var clash := Conflicts(stale, values);
      if clash {
        return false;
      }
      Install(stale, Versioned(values));
      VersionedSame(values);
      InstalledSanctioned(old(overlays), stale, Versioned(values), authorized);
      ok := true;
    }

    /** The checks of `ReplaceProvider` on its values. */
    method CheckClaims(provider: string, values: seq<Registration>) returns (ok: bool)
      ensures ok <==> DistinctOperations(values) && forall i :: 0 <= i < |values| ==>
        values[i].version >= 1 && (values[i].provider == "" || Normal(values[i].provider) == provider) && Validity()(values[i].(provider := provider))
    {
      var seen := {};
      for i := 0 to |values|
        invariant forall o :: o in seen <==> exists k :: 0 <= k < i && values[k].operation == o
        invariant DistinctOperations(values[..i])
        invariant forall k :: 0 <= k < i ==>
          values[k].version >= 1 && (values[k].provider == "" || Normal(values[k].provider) == provider) && Validity()(values[k].(provider := provider))
      {
        var value := values[i];
        if value.version < 1 || (value.provider != "" && Normal(value.provider) != provider) || value.operation in seen {
          return false;
        }
        if !Validity()(value.(provider := provider)) {
          return false;
        }
        seen := seen + {value.operation};
      }
      assert values[..|values|] == values;
      ok := true;
    }

    /** `ReplaceProvider`: the whole replacement, or nothing. */
    method ReplaceProvider(provider: string, values: seq<Registration>) returns (ok: bool)
      modifies this`overlays
      ensures ok == old(ProviderReplaceable(overlays, base, Normal(provider), values, Validity()))
      ensures overlays ==
        if ok then Replaced(old(overlays), StaleProvider(old(overlays), Normal(provider)), Claimed(values, Normal(provider))) else old(overlays)
      ensures old(Sanctioned()) ==> Sanctioned()
    {
      var name := Normal(provider);
      if name == "" {
        return false;
      }
      var valid := CheckClaims(name, values);
      if !valid {
        return false;
      }
      var stale := set o | o in overlays && Normal(overlays[o].provider) == name;
      var clash := Conflicts(stale, values);
      if clash {
        return false;
      }
      Install(stale, Claimed(values, name));
      InstalledSanctioned(old(overlays), stale, Claimed(values, name), authorized);
      ok := true;
    }

    /** `Upsert`: refreshes an operation of the same provider and implementation, never downwards. */
    method Upsert(value: Registration) returns (ok: bool)
      modifies this`overlays
      ensures ok == old(Upgrades(overlays, base, WithVersion(value), Validity()))
      ensures ok <==>
        && Normal(value.provider) != "" && Normal(value.provider) in authorized && checks(WithVersion(value)) && value.operation !in base
        && (value.operation in old(overlays) ==>
          var existing := old(overlays)[value.operation];
          && existing.provider == value.provider && existing.implementation == value.implementation
          && existing.version <= if value.version == 0 then 1 else value.version)
      ensures overlays == if ok then old(overlays)[value.operation := WithVersion(value)] else old(overlays)
      ensures old(Sanctioned()) ==> Sanctioned()
    {
      var r := WithVersion(value);
      if !Validity()(r) || r.operation in base {
        return false;
      }
      if r.operation in overlays {
        var existing := overlays[r.operation];
        if existing.provider != r.provider || existing.implementation != r.implementation || r.version < existing.version {
          return false;
        }
      }
      overlays := overlays[r.operation := r];
      ok := true;
    }

    /** `Unregister` */
    method Unregister(operation: string) returns (ok: bool)
      modifies this`overlays
      ensures ok == (operation in old(overlays)) && overlays == old(overlays) - {operation}
      ensures old(Sanctioned()) ==> Sanctioned()
    {
      ok := operation in overlays;
      overlays := overlays - {operation};
    }
  }

  function Wanted(ids: seq<string>): set<string> {
    set i | 0 <= i < |ids| && Trim(ids[i]) != "" :: Trim(ids[i])
  }

  lemma InstalledSanctioned(overlays: Overlays, stale: set<string>, values: seq<Registration>, authorized: set<string>)
    requires DistinctOperations(values) && forall i :: 0 <= i < |values| ==> Normal(values[i].provider) in authorized
    ensures (forall o :: o in overlays ==> Normal(overlays[o].provider) in authorized) ==>
      forall o :: o in Replaced(overlays, stale, values) ==> Normal(Replaced(overlays, stale, values)[o].provider) in authorized
  {
    forall o | o in Replaced(overlays, stale, values)
      ensures Normal(Replaced(overlays, stale, values)[o].provider) in authorized || (o in overlays && Replaced(overlays, stale, values)[o] == overlays[o])
    {
      ReplacedHolds(overlays, stale, values, o);
    }
  }

  // ---------------------------------------------------------------- what a replacement means

  lemma VersionedSame(values: seq<Registration>)
    ensures |Versioned(values)| == |values| && (DistinctOperations(values) ==> DistinctOperations(Versioned(values)))
    ensures forall i :: 0 <= i < |values| ==> Versioned(values)[i] == values[i].(version := Versioned(values)[i].version)
  {
  }

  /**
   After an accepted replacement the provider has exactly the new operations, operations of
   other providers and generations are untouched, and nothing clashes with the base.
   */
  lemma ReplaceGenerationMeans(overlays: Overlays, base: set<string>, generation: string, values: seq<Registration>,
                               valid: Registration -> bool, o: string)
    requires Replaceable(overlays, base, generation, values, valid) && overlays.Keys !! base
    ensures var after := Replaced(overlays, StaleGeneration(overlays, generation, ProviderOf(values)), Versioned(values));
      && after.Keys !! base
      && (forall i :: 0 <= i < |values| && values[i].operation == o ==> o in after && after[o] == WithVersion(values[i]))
      && (o in after && ProviderOf(values) != "" && after[o].provider == ProviderOf(values) ==>
        exists i :: 0 <= i < |values| && values[i].operation == o)
      && (o in after && after[o].generation == generation ==> exists i :: 0 <= i < |values| && values[i].operation == o)
      && (o in overlays && overlays[o].generation != generation && overlays[o].provider != ProviderOf(values) ==>
        o in after && after[o] == overlays[o])
  {
    var stale := StaleGeneration(overlays, generation, ProviderOf(values));
    var after := Replaced(overlays, stale, Versioned(values));
    VersionedSame(values);
    ReplacedHolds(overlays, stale, Versioned(values), o);
    if i :| 0 <= i < |values| && values[i].operation == o { assert Versioned(values)[i].operation == o; }
    forall x | x in after ensures x !in base {
      ReplacedHolds(overlays, stale, Versioned(values), x);
    }
  }

  lemma ReplaceProviderMeans(overlays: Overlays, base: set<string>, provider: string, values: seq<Registration>,
                             valid: Registration -> bool, o: string)
    requires ProviderReplaceable(overlays, base, provider, values, valid) && overlays.Keys !! base && Normal(provider) == provider
    ensures var after := Replaced(overlays, StaleProvider(overlays, provider), Claimed(values, provider));
      && after.Keys !! base
      && (o in after && Normal(after[o].provider) == provider <==> exists i :: 0 <= i < |values| && values[i].operation == o)
      && (o in overlays && Normal(overlays[o].provider) != provider ==> o in after && after[o] == overlays[o])
  {
    var stale, claimed := StaleProvider(overlays, provider), Claimed(values, provider);
    var after := Replaced(overlays, stale, claimed);
    ReplacedHolds(overlays, stale, claimed, o);
    if i :| 0 <= i < |values| && values[i].operation == o { assert claimed[i].operation == o; }
    forall x | x in after ensures x !in base { ReplacedHolds(overlays, stale, claimed, x); }
  }

  // ---------------------------------------------------------------- normal names

  lemma {:induction false} LowerLength(s: string)
    ensures |Lower(s)| == |s| && forall i :: 0 <= i < |s| ==> Lower(s)[i] == Lower([s[i]])[0]
  {
    if s != "" {
      LowerLength(s[1..]);
      forall i | 0 <= i < |s| ensures Lower(s)[i] == Lower([s[i]])[0] {
        if i > 0 { assert s[1..][i - 1] == s[i]; }
      }
    }
  }

  lemma {:induction false} LowerTwice(s: string)
    ensures Lower(Lower(s)) == Lower(s)
  {
    if s != "" { LowerTwice(s[1..]); }
  }

  /** A string without blanks at its ends. */
  predicate Tight(s: string) {
    s == "" || (s[0] !in " \t\n\r" && s[|s| - 1] !in " \t\n\r")
  }

  lemma {:induction false} TrimRightTight(s: string)
    requires s == "" || s[0] !in " \t\n\r"
    ensures Tight(TrimRight(s))
  {
    if s != "" && s[|s| - 1] in " \t\n\r" { TrimRightTight(s[..|s| - 1]); }
  }

  lemma {:induction false} TrimLeftTight(s: string)
    ensures TrimLeft(s) == "" || TrimLeft(s)[0] !in " \t\n\r"
  {
    if s != "" && s[0] in " \t\n\r" { TrimLeftTight(s[1..]); }
  }

  lemma TrimTight(s: string)
    ensures Tight(Trim(s)) && (Tight(s) ==> Trim(s) == s)
  {
    TrimLeftTight(s);
    TrimRightTight(TrimLeft(s));
  }

  lemma TrimTwice(s: string)
    ensures Trim(Trim(s)) == Trim(s)
  {
    TrimTight(s);
    TrimTight(Trim(s));
  }

  lemma NormalTwice(s: string)
    ensures Normal(Normal(s)) == Normal(s)
  {
    TrimTight(s);
    LowerTight(Trim(s));
    TrimTight(Lower(Trim(s)));
    LowerTwice(Trim(s));
  }

  lemma LowerTight(s: string)
    requires Tight(s)
    ensures Tight(Lower(s))
  {
    LowerLength(s);
  }
}
