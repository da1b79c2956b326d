/** What an activation means for the provider that is swapped, for the others, and over time. */
module SwapTheorems {
  import opened Text
  import opened Lifecycle
  import opened ProviderMounts
  import opened ProviderSwap

  // ---------------------------------------------------------------- mounts of one provider

  lemma {:induction false} KeepSwap(mounts: seq<Mount>, f: Mount -> bool, g: Mount -> bool)
    ensures Keep(Keep(mounts, f), g) == Keep(Keep(mounts, g), f)
  {
    KeepBoth(mounts, f, g, (m: Mount) => f(m) && g(m));
    KeepBoth(mounts, g, f, (m: Mount) => f(m) && g(m));
  }

  lemma {:induction false} KeepSizes(mounts: seq<Mount>, f: Mount -> bool)
    ensures |Keep(mounts, f)| <= |mounts|
    ensures |Keep(mounts, f)| == |mounts| ==> forall m :: m in mounts ==> f(m)
  {
    if mounts != [] {
      var init, last := mounts[..|mounts| - 1], mounts[|mounts| - 1];
      KeepSizes(init, f);
      assert mounts == init + [last];
    }
  }

  /** Keeping some of a list gives the list exactly when it keeps all of it. */
  lemma KeepsAllExactly(mounts: seq<Mount>, f: Mount -> bool)
    ensures Keep(mounts, f) == mounts <==> forall m :: m in mounts ==> f(m)
  {
    KeepSizes(mounts, f);
    if forall m :: m in mounts ==> f(m) { KeepAll(mounts, f); }
  }

  /** Making room never touches the provider it is made for. */
  lemma RoomOf(mounts: seq<Mount>, p: string, families: set<string>, displaced: bool)
    ensures Of(Room(mounts, p, families, displaced), p) == Of(mounts, p)
  {
    if displaced && Trim(p) != "" {
      KeepTwice(mounts, (m: Mount) => !Displaceable(m, p, families), (m: Mount) => m.provider == p);
    }
  }

  lemma UnmatchedOf(mounts: seq<Mount>, x: string, p: string, gid: string)
    ensures Of(Unmatched(mounts, p, gid), x) == Unmatched(Of(mounts, x), p, gid)
  {
    KeepSwap(mounts, (m: Mount) => !Matches(KeyOf(m), p, gid), (m: Mount) => m.provider == x);
  }

  // ---------------------------------------------------------------- a failed activation

  /** The provider is where it was: same active generation, same services mounted in the same order. */
  ghost predicate SameService(before: Manager, mounts0: seq<Mount>, after: Manager, mounts1: seq<Mount>, provider: string) {
    ActiveId(after, provider) == ActiveId(before, provider) && Of(mounts1, provider) == Of(mounts0, provider)
  }

  /** No service mounted for the provider is mistaken for one of the generation. */
  ghost predicate Untaken(mounts: seq<Mount>, p: string, gid: string) {
    forall m :: m in mounts && m.provider == p ==> !Matches(KeyOf(m), p, gid)
  }

  /**
   An activation that fails after the switch leaves the provider as it was if and only if no
   session is open on the new generation and no mounted service is mistaken for one of its own.
   */
  lemma FailedSwap(before: Manager, mounts0: seq<Mount>, after: Manager, mounts1: seq<Mount>, q: Request, r: SwapEnd, displaced: bool)
    requires SwapResult(before, mounts0, after, mounts1, q, r, displaced) && (r == Reverted || r == Stuck)
    ensures var p := ProviderOf(before, q.gid);
      SameService(before, mounts0, after, mounts1, p) <==> after.generations[q.gid].sessions == 0 && Untaken(mounts0, p, q.gid)
  {
    var p := ProviderOf(before, q.gid);
    RoomOf(mounts0, p, q.families, displaced);
    UnmatchedOf(Room(mounts0, p, q.families, displaced), p, p, q.gid);
    KeepsAllExactly(Of(mounts0, p), (m: Mount) => !Matches(KeyOf(m), p, q.gid));
    assert forall m :: m in Of(mounts0, p) <==> m in mounts0 && m.provider == p;
  }

  /** When nobody opens a session meanwhile, this can be told before the call. */
  lemma SwapReversible(before: Manager, mounts0: seq<Mount>, after: Manager, mounts1: seq<Mount>, q: Request, r: SwapEnd, displaced: bool)
    requires SwapResult(before, mounts0, after, mounts1, q, r, displaced) && (r == Reverted || r == Stuck)
    requires after.generations[q.gid].sessions == before.generations[q.gid].sessions
    ensures var p := ProviderOf(before, q.gid);
      SameService(before, mounts0, after, mounts1, p) <==> before.generations[q.gid].sessions == 0 && Untaken(mounts0, p, q.gid)
  {
    FailedSwap(before, mounts0, after, mounts1, q, r, displaced);
  }

  // ---------------------------------------------------------------- a successful activation

  /** The predecessor's name finds everything mounted for the provider, and none of the new services. */
  ghost predicate Handover(mounts0: seq<Mount>, added: seq<Mount>, p: string, last: string) {
    if last == "" then Of(mounts0, p) == []
    else
      && (forall m :: m in mounts0 && m.provider == p ==> Matches(KeyOf(m), p, last))
      && forall m :: m in added ==> !Matches(KeyOf(m), p, last)
  }

  lemma AddedOf(q: Request, p: string)
    ensures Of(Added(q, p), p) == Added(q, p)
  {
    FreshOf(p, q.services, q.gid);
    KeepAll(Added(q, p), (m: Mount) => m.provider == p);
  }

  /** After a swap exactly the new services are mounted if and only if the predecessor was told apart. */
  lemma SuccessfulSwap(before: Manager, mounts0: seq<Mount>, after: Manager, mounts1: seq<Mount>, q: Request, displaced: bool)
    requires SwapResult(before, mounts0, after, mounts1, q, Swapped, displaced)
    ensures var p := ProviderOf(before, q.gid);
      Of(mounts1, p) == Added(q, p) <==> Handover(mounts0, Added(q, p), p, ActiveId(before, p))
  {
    var p, last := ProviderOf(before, q.gid), ActiveId(before, ProviderOf(before, q.gid));
    RoomOf(mounts0, p, q.families, q.connected);
    AddedOf(q, p);
    HandedOver(mounts0, Room(mounts0, p, q.families, q.connected), Added(q, p), p, last);
  }

  lemma HandedOver(mounts0: seq<Mount>, room: seq<Mount>, added: seq<Mount>, p: string, last: string)
    requires Of(room, p) == Of(mounts0, p) && Of(added, p) == added && UniqueKeys(room + added)
    ensures Of(WithoutPrevious(room + added, p, last), p) == added <==> Handover(mounts0, added, p, last)
  {
    KeepConcat(room, added, (m: Mount) => m.provider == p);
    if last == "" {
      NothingBefore(Of(mounts0, p), added);
    } else {
      UnmatchedOf(room + added, p, p, last);
      UniqueOf(room, added, p);
      HandoverExactly(Of(mounts0, p), added, p, last);
      assert forall m :: m in Of(mounts0, p) <==> m in mounts0 && m.provider == p;
    }
  }

  lemma NothingBefore(a: seq<Mount>, b: seq<Mount>)
    ensures a + b == b <==> a == []
  {
    assert |a + b| == |a| + |b|;
  }

  lemma UniqueOf(room: seq<Mount>, added: seq<Mount>, p: string)
    requires UniqueKeys(room + added) && Of(added, p) == added
    ensures UniqueKeys(Of(room, p) + added)
  {
    KeepUnique(room + added, (m: Mount) => m.provider == p);
    KeepConcat(room, added, (m: Mount) => m.provider == p);
  }

  lemma HandoverExactly(earlier: seq<Mount>, added: seq<Mount>, p: string, last: string)
    requires UniqueKeys(earlier + added)
    ensures Unmatched(earlier + added, p, last) == added <==>
      (forall m :: m in earlier ==> Matches(KeyOf(m), p, last)) && (forall m :: m in added ==> !Matches(KeyOf(m), p, last))
  {
    var f := (m: Mount) => !Matches(KeyOf(m), p, last);
    KeepConcat(earlier, added, f);
    KeepsAllExactly(added, f);
    KeepsNoneExactly(earlier, f);
    if Keep(earlier, f) == [] {
      assert Keep(earlier, f) + Keep(added, f) == Keep(added, f);
    } else {
      var m := Keep(earlier, f)[0];
      assert m in Keep(earlier, f);
      OldNotAdded(earlier, added, m);
      assert (Keep(earlier, f) + Keep(added, f))[0] == m;
    }
  }

  lemma KeepsNoneExactly(mounts: seq<Mount>, f: Mount -> bool)
    ensures Keep(mounts, f) == [] <==> forall m :: m in mounts ==> !f(m)
  {
    if forall m :: m in mounts ==> !f(m) {
      KeepNone(mounts, f);
    } else {
      var m :| m in mounts && f(m);
      assert m in Keep(mounts, f);
    }
  }

  lemma OldNotAdded(earlier: seq<Mount>, added: seq<Mount>, m: Mount)
    requires UniqueKeys(earlier + added) && m in earlier
    ensures m !in added
  {
    var all := earlier + added;
    var i :| 0 <= i < |earlier| && earlier[i] == m;
    assert all[i] == m;
    forall k | 0 <= k < |added| ensures added[k] != m { assert all[|earlier| + k] == added[k]; }
  }

  /** A reaffirmed generation gets its services again, beside what was mounted. */
  lemma ReaffirmedSwap(before: Manager, mounts0: seq<Mount>, after: Manager, mounts1: seq<Mount>, q: Request, displaced: bool)
    requires SwapResult(before, mounts0, after, mounts1, q, Reaffirmed, displaced)
    ensures var p := ProviderOf(before, q.gid);
      && Of(mounts1, p) == Of(mounts0, p) + Added(q, p)
      && (Of(mounts1, p) == Added(q, p) <==> Of(mounts0, p) == [])
  {
    var p := ProviderOf(before, q.gid);
    AddedOf(q, p);
    KeepConcat(mounts0, Added(q, p), (m: Mount) => m.provider == p);
    NothingBefore(Of(mounts0, p), Added(q, p));
  }

  // ---------------------------------------------------------------- names that tell generations apart

  /** No two generations of one provider have confusable names. */
  ghost predicate NamesApart(generations: Generations) {
    forall a, b :: a in generations && b in generations && a != b && SameTrimmed(generations, a, b) ==> !Confusable(a, b)
  }

  predicate SameTrimmed(generations: Generations, a: string, b: string)
    requires a in generations && b in generations
  {
    Trim(generations[a].provider.id) == Trim(generations[b].provider.id)
  }

  /** Provider and service names are as the validator leaves them, and generations are told apart. */
  ghost predicate Named(generations: Generations, mounts: seq<Mount>) {
    && NamesApart(generations)
    && (forall id {:trigger generations[id]} :: id in generations ==> Bare(generations[id].provider.id))
    && forall m :: m in mounts ==> Bare(m.service)
  }

  ghost predicate BareServices(services: seq<ServiceDef>) {
    forall i :: 0 <= i < |services| ==> Bare(services[i].id)
  }

  /** Under such names the ends of a key say exactly which generation it belongs to. */
  lemma NamesTell(generations: Generations, m: Mount, generation: string)
    requires NamesApart(generations) && m.generation in generations && generation in generations
    requires generations[m.generation].provider.id == m.provider && Bare(m.provider) && Bare(m.service)
    requires Bare(generations[generation].provider.id)
    ensures Matches(KeyOf(m), generations[generation].provider.id, generation) <==> m.generation == generation
  {
    KeyMatches(m, generations[generation].provider.id, generation);
    SuffixOfItself(generation);
    assert m.generation != generation && SameTrimmed(generations, m.generation, generation) ==> !Confusable(m.generation, generation);
  }

  // ---------------------------------------------------------------- every provider, over time

  /** Everything that is mounted belongs to the active generation of its provider, under good names. */
  ghost predicate AllSettled(m: Manager, mounts: seq<Mount>) {
    var settled := Inv(m) && MountsOk(m.generations, mounts) && Named(m.generations, mounts)
      && forall x :: x in mounts ==> x.generation == ActiveId(m, x.provider);
    settled
  }

  lemma SettledNames(m: Manager, mounts: seq<Mount>, x: Mount, generation: string)
    requires AllSettled(m, mounts) && x in mounts && generation in m.generations
    ensures Matches(KeyOf(x), ProviderOf(m, generation), generation) <==> x.generation == generation
  {
    assert Bare(m.generations[x.generation].provider.id) && Bare(m.generations[generation].provider.id);
    NamesTell(m.generations, x, generation);
  }

  lemma AddedNames(m: Manager, mounts: seq<Mount>, q: Request, x: Mount, generation: string)
    requires AllSettled(m, mounts) && q.gid in m.generations && generation in m.generations && BareServices(q.services)
    requires x in Added(q, ProviderOf(m, q.gid))
    ensures x.provider == ProviderOf(m, q.gid) && x.generation == q.gid && Bare(x.service)
    ensures Matches(KeyOf(x), ProviderOf(m, generation), generation) <==> x.generation == generation
  {
    var i :| 0 <= i < |q.services| && Added(q, ProviderOf(m, q.gid))[i] == x;
    assert Bare(m.generations[q.gid].provider.id) && Bare(m.generations[generation].provider.id) && Bare(q.services[i].id);
    NamesTell(m.generations, x, generation);
  }

  /** In a settled state a failed activation without an open session changes nothing for the provider ... */
  lemma SettledFailure(before: Manager, mounts0: seq<Mount>, after: Manager, mounts1: seq<Mount>, q: Request, r: SwapEnd, displaced: bool)
    requires AllSettled(before, mounts0) && SwapResult(before, mounts0, after, mounts1, q, r, displaced) && (r == Reverted || r == Stuck)
    ensures var p := ProviderOf(before, q.gid);
      && (SameService(before, mounts0, after, mounts1, p) <==> after.generations[q.gid].sessions == 0)
      && Of(mounts1, p) == Of(mounts0, p)
  {
    var p := ProviderOf(before, q.gid);
    forall m | m in mounts0 && m.provider == p ensures !Matches(KeyOf(m), p, q.gid) { SettledNames(before, mounts0, m, q.gid); }
    FailedSwap(before, mounts0, after, mounts1, q, r, displaced);
    RoomOf(mounts0, p, q.families, displaced);
    UnmatchedOf(Room(mounts0, p, q.families, displaced), p, p, q.gid);
    KeepsAllExactly(Of(mounts0, p), (m: Mount) => !Matches(KeyOf(m), p, q.gid));
  }

  /** ... and a successful one leaves exactly the new services mounted for it. */
  lemma SettledSuccess(before: Manager, mounts0: seq<Mount>, after: Manager, mounts1: seq<Mount>, q: Request, displaced: bool)
    requires AllSettled(before, mounts0) && BareServices(q.services)
    requires SwapResult(before, mounts0, after, mounts1, q, Swapped, displaced)
    ensures Of(mounts1, ProviderOf(before, q.gid)) == Added(q, ProviderOf(before, q.gid))
  {
    var p, last := ProviderOf(before, q.gid), ActiveId(before, ProviderOf(before, q.gid));
    if last == "" {
      forall m | m in mounts0 ensures m.provider != p { assert m.generation in before.generations; }
      KeepNone(mounts0, (m: Mount) => m.provider == p);
    } else {
      NoBlankActive(before, p);
      assert ProviderOf(before, last) == p;
      forall m | m in mounts0 && m.provider == p ensures Matches(KeyOf(m), p, last) { SettledNames(before, mounts0, m, last); }
      forall m | m in Added(q, p) ensures !Matches(KeyOf(m), p, last) { AddedNames(before, mounts0, q, m, last); }
    }
    SuccessfulSwap(before, mounts0, after, mounts1, q, displaced);
  }

  /** Whether room was made by the time the activation ended. */
  predicate MadeRoom(q: Request, r: SwapEnd, displaced: bool) {
    match r
    case Swapped => q.connected
    case Reverted => displaced
    case Stuck => displaced
    case _ => false
  }

  /** Another provider keeps all it has, except what was displaced to make room, even if that failed. */
  lemma OthersAfter(before: Manager, mounts0: seq<Mount>, after: Manager, mounts1: seq<Mount>, q: Request, r: SwapEnd, displaced: bool, x: string)
    requires AllSettled(before, mounts0) && q.gid in before.generations && x != ProviderOf(before, q.gid)
    requires SwapResult(before, mounts0, after, mounts1, q, r, displaced)
    ensures ActiveId(after, x) == ActiveId(before, x)
    ensures Of(mounts1, x) == Of(Room(mounts0, ProviderOf(before, q.gid), q.families, MadeRoom(q, r, displaced)), x)
  {
    var p := ProviderOf(before, q.gid);
    match r
    case Refused =>
    case Reaffirmed => OthersBeside(mounts0, q, p, x);
    case Swapped => OthersSwapped(before, mounts0, q, x);
    case _ => OthersFailed(before, mounts0, q, displaced, x);
  }

  lemma OthersBeside(mounts: seq<Mount>, q: Request, p: string, x: string)
    requires x != p
    ensures Of(mounts + Added(q, p), x) == Of(mounts, x)
  {
    NoneOfOthers(q, p, x);
    KeepConcat(mounts, Added(q, p), (m: Mount) => m.provider == x);
  }

  lemma OthersSwapped(before: Manager, mounts0: seq<Mount>, q: Request, x: string)
    requires AllSettled(before, mounts0) && q.gid in before.generations && x != ProviderOf(before, q.gid)
    ensures var p, room := ProviderOf(before, q.gid), Room(mounts0, ProviderOf(before, q.gid), q.families, q.connected);
      Of(WithoutPrevious(room + Added(q, p), p, ActiveId(before, p)), x) == Of(room, x)
  {
    var p, last := ProviderOf(before, q.gid), ActiveId(before, ProviderOf(before, q.gid));
    var room := Room(mounts0, p, q.families, q.connected);
    OthersBeside(room, q, p, x);
    if last != "" {
      NoBlankActive(before, p);
      ActiveProvider(before, p);
      UnmatchedOf(room + Added(q, p), x, p, last);
      OthersUnmatched(before, mounts0, room, x, last);
    }
  }

  lemma ActiveProvider(m: Manager, p: string)
    requires Inv(m) && p in m.active
    ensures ProviderOf(m, m.active[p]) == p
  {
  }

  lemma OthersFailed(before: Manager, mounts0: seq<Mount>, q: Request, displaced: bool, x: string)
    requires AllSettled(before, mounts0) && q.gid in before.generations && x != ProviderOf(before, q.gid)
    ensures var p, room := ProviderOf(before, q.gid), Room(mounts0, ProviderOf(before, q.gid), q.families, displaced);
      Of(Unmatched(room, p, q.gid), x) == Of(room, x)
  {
    var p := ProviderOf(before, q.gid);
    var room := Room(mounts0, p, q.families, displaced);
    UnmatchedOf(room, x, p, q.gid);
    OthersUnmatched(before, mounts0, room, x, q.gid);
  }

  lemma NoneOfOthers(q: Request, p: string, x: string)
    requires x != p
    ensures Of(Added(q, p), x) == []
  {
    FreshOf(p, q.services, q.gid);
    KeepNone(Added(q, p), (m: Mount) => m.provider == x);
  }

  lemma OthersUnmatched(m: Manager, mounts0: seq<Mount>, room: seq<Mount>, x: string, generation: string)
    requires AllSettled(m, mounts0) && generation in m.generations && x != ProviderOf(m, generation)
    requires forall y :: y in room ==> y in mounts0
    ensures Unmatched(Of(room, x), ProviderOf(m, generation), generation) == Of(room, x)
  {
    forall y | y in Of(room, x) ensures !Matches(KeyOf(y), ProviderOf(m, generation), generation) { SettledNames(m, mounts0, y, generation); }
    KeepAll(Of(room, x), (y: Mount) => !Matches(KeyOf(y), ProviderOf(m, generation), generation));
  }

  // ---------------------------------------------------------------- any sequence of activations

  /** An activation that is not stuck leaves everything settled. */
  lemma SwapKeepsSettled(before: Manager, mounts0: seq<Mount>, after: Manager, mounts1: seq<Mount>, q: Request, r: SwapEnd, displaced: bool)
    requires AllSettled(before, mounts0) && BareServices(q.services) && r != Stuck
    requires SwapResult(before, mounts0, after, mounts1, q, r, displaced) && Inv(after) && MountsOk(after.generations, mounts1)
    ensures AllSettled(after, mounts1)
  {
    NamesCarry(before.generations, after.generations);
    forall x | x in mounts1 ensures Bare(x.service) && x.generation == ActiveId(after, x.provider) {
      StaysSettled(before, mounts0, after, mounts1, q, r, displaced, x);
    }
  }

  lemma NamesCarry(a: Generations, b: Generations)
    requires Carries(a, b) && NamesApart(a) && forall id {:trigger a[id]} :: id in a ==> Bare(a[id].provider.id)
    ensures NamesApart(b) && forall id {:trigger b[id]} :: id in b ==> Bare(b[id].provider.id)
  {
    forall x, y | x in b && y in b && x != y && SameTrimmed(b, x, y) ensures !Confusable(x, y) {
      assert SameTrimmed(a, x, y);
    }
    forall id | id in b ensures Bare(b[id].provider.id) { assert a[id].provider == b[id].provider; }
  }

  lemma StaysSettled(before: Manager, mounts0: seq<Mount>, after: Manager, mounts1: seq<Mount>, q: Request, r: SwapEnd, displaced: bool, x: Mount)
    requires AllSettled(before, mounts0) && BareServices(q.services) && r != Stuck && x in mounts1
    requires SwapResult(before, mounts0, after, mounts1, q, r, displaced)
    ensures Bare(x.service) && x.generation == ActiveId(after, x.provider)
  {
    var p := ProviderOf(before, q.gid);
    CameFrom(before, mounts0, after, mounts1, q, r, displaced, x);
    if r == Swapped && x.provider == p && x in mounts0 {
      GoneAfterSwap(before, mounts0, Room(mounts0, p, q.families, q.connected) + Added(q, p), x, p);
    }
    if x !in mounts0 {
      AddedNames(before, mounts0, q, x, q.gid);
    }
  }

  lemma CameFrom(before: Manager, mounts0: seq<Mount>, after: Manager, mounts1: seq<Mount>, q: Request, r: SwapEnd, displaced: bool, x: Mount)
    requires SwapResult(before, mounts0, after, mounts1, q, r, displaced) && x in mounts1
    ensures x in mounts0 || (x in Added(q, ProviderOf(before, q.gid)) && (r == Swapped || r == Reaffirmed) && q.gid in before.generations)
  {
  }

  /** Whatever was mounted for the provider before the swap is found under its predecessor's name. */
  lemma GoneAfterSwap(before: Manager, mounts0: seq<Mount>, all: seq<Mount>, x: Mount, p: string)
    requires AllSettled(before, mounts0) && x in mounts0 && x.provider == p
    ensures x !in WithoutPrevious(all, p, ActiveId(before, p))
  {
    assert x.generation in before.generations && x.generation == ActiveId(before, p);
    SettledNames(before, mounts0, x, x.generation);
  }

  datatype Moment = Moment(manager: Manager, mounts: seq<Mount>)

  datatype Step = Swapping(q: Request, r: SwapEnd, displaced: bool) | Other

  /** Whatever else happens between activations: the active map, the providers and the mounts stay. */
  ghost predicate Between(a: Moment, b: Moment) {
    && b.mounts == a.mounts && b.manager.active == a.manager.active && Inv(b.manager) && Named(b.manager.generations, b.mounts)
    && forall id :: id in a.manager.generations ==>
      id in b.manager.generations && b.manager.generations[id].provider == a.manager.generations[id].provider
  }

  ghost predicate Moves(a: Moment, step: Step, b: Moment) {
    match step
    case Swapping(q, r, displaced) =>
      && r != Stuck && BareServices(q.services) && Inv(b.manager) && MountsOk(b.manager.generations, b.mounts)
      && SwapResult(a.manager, a.mounts, b.manager, b.mounts, q, r, displaced)
    case Other => Between(a, b)
  }

  ghost predicate Story(ms: seq<Moment>, steps: seq<Step>) {
    && |ms| == |steps| + 1 && AllSettled(ms[0].manager, ms[0].mounts)
    && forall t {:trigger MoveAt(ms, steps, t)} :: 0 <= t < |steps| ==> MoveAt(ms, steps, t)
  }

  ghost predicate MoveAt(ms: seq<Moment>, steps: seq<Step>, t: nat)
    requires t < |steps| && t + 1 < |ms|
  {
    Moves(ms[t], steps[t], ms[t + 1])
  }

  lemma MoveSettled(a: Moment, step: Step, b: Moment)
    requires AllSettled(a.manager, a.mounts) && Moves(a, step, b)
    ensures AllSettled(b.manager, b.mounts)
  {
    match step
    case Swapping(q, r, displaced) => SwapKeepsSettled(a.manager, a.mounts, b.manager, b.mounts, q, r, displaced);
    case Other =>
  }

  /** Over any sequence of activations none of which is stuck, everything stays settled. */
  lemma {:induction false} StorySettled(ms: seq<Moment>, steps: seq<Step>, t: nat)
    requires Story(ms, steps) && t < |ms|
    ensures AllSettled(ms[t].manager, ms[t].mounts)
  {
    if t > 0 {
      StorySettled(ms, steps, t - 1);
      NextSettled(ms, steps, t - 1);
    }
  }

  lemma NextSettled(ms: seq<Moment>, steps: seq<Step>, t: nat)
    requires Story(ms, steps) && t < |steps| && AllSettled(ms[t].manager, ms[t].mounts)
    ensures AllSettled(ms[t + 1].manager, ms[t + 1].mounts)
  {
    assert MoveAt(ms, steps, t);
    MoveSettled(ms[t], steps[t], ms[t + 1]);
  }

  // ---------------------------------------------------------------- witnesses

  ghost function Empty(): Manager {
    Manager(map[], map[], 0, map[])
  }

  lemma RunOn(ms: seq<Manager>, ops: seq<Op>, op: Op) returns (more: seq<Manager>)
    requires Run(ms, ops) && Regular(ms[|ms| - 1], op)
    ensures Run(more, ops + [op]) && more == ms + [Apply(ms[|ms| - 1], op)]
  {
    more := ms + [Apply(ms[|ms| - 1], op)];
    var all := ops + [op];
    forall t | 0 <= t < |all| ensures StepAt(more, all, t) {
      if t < |ops| { assert StepAt(ms, ops, t); }
    }
  }

  /** A candidate on which somebody holds a session. */
  function BusyCandidate(state: State): Generation {
    Generation("p-1", Provider("p", "1"), "h", "e", "r", state, 1)
  }

  function Busy(state: State): Manager {
    Manager(map["p-1" := BusyCandidate(state)], if state == Active then map["p" := "p-1"] else map[], 1, map[0 := "p-1"])
  }

  lemma BusyReached() returns (ms: seq<Manager>, ops: seq<Op>)
    ensures Run(ms, ops) && ms[|ms| - 1] == Busy(Candidate)
  {
    ms, ops := [Empty()], [];
    FirstCreated();
    ms := RunOn(ms, ops, Create(Provider("p", "1"), "h", "e", "r"));
    ops := ops + [Create(Provider("p", "1"), "h", "e", "r")];
    FirstOpened();
    ms := RunOn(ms, ops, OpenOn("p", "p-1", 0));
    ops := ops + [OpenOn("p", "p-1", 0)];
  }

  /** The candidate before anybody uses it. */
  function Idle(): Manager {
    Manager(map["p-1" := BusyCandidate(Candidate).(sessions := 0)], map[], 1, map[])
  }

  lemma FirstCreated()
    ensures Apply(Empty(), Create(Provider("p", "1"), "h", "e", "r")) == Idle()
  {
    assert NextId(Empty(), Provider("p", "1")) == "p-1";
    assert 'r' in "r";
  }

  lemma FirstOpened()
    ensures Apply(Idle(), OpenOn("p", "p-1", 0)) == Busy(Candidate)
  {
    assert 'p' in "p-1";
    var m := Opened(Idle(), "p-1", 0);
    assert m.generations == map["p-1" := BusyCandidate(Candidate)];
  }

  /**
   A session opened on the candidate before the call: its activation switches, and then the
   rollback that any later failure asks for is refused. The activation ends stuck.
   */
  lemma CandidateSessionStrands() returns (ms: seq<Manager>, ops: seq<Op>)
    ensures Run(ms, ops) && ms[|ms| - 1] == Busy(Active)
    ensures Switched(Busy(Candidate), Busy(Active), "p-1", "") && Inv(Busy(Active)) && !CanRollback(Busy(Active), "p-1", "")
  {
    ms, ops := BusyReached();
    ms := RunOn(ms, ops, Op.MarkReady("p-1"));
    ops := ops + [Op.MarkReady("p-1")];
    assert ms[|ms| - 1] == Busy(Ready);
    ms := RunOn(ms, ops, Op.Activate("p-1"));
    ops := ops + [Op.Activate("p-1")];
    assert ms[|ms| - 1] == Busy(Active);
    RunInv(ms, ops, |ms| - 1);
  }

  function Kept(id: string, state: State): Generation {
    Generation(id, Provider("p", "1"), "h", "e", "r", state, 0)
  }

  /**
   Names with an at sign can be confused. Two stored generations of one provider, one active
   and mounted, the other a candidate: taking down the candidate takes down the live service.
   */
  lemma MatchingConfusesNames() returns (ms: seq<Manager>, ops: seq<Op>, m: Manager, mounts: seq<Mount>)
    ensures Run(ms, ops) && ms[|ms| - 1] == m && m.generations.Keys == {"x@p-2", "p-2"} && ActiveId(m, "p") == "x@p-2"
    ensures mounts == [Mount("p", "s", "x@p-2", "f")] && MountsOk(m.generations, mounts) && OnlyActive(m, mounts, "p")
    ensures Unmatched(mounts, "p", "p-2") == []
  {
    var a, b := Op.Restore(Kept("x@p-2", Active)), Op.Restore(Kept("p-2", Candidate));
    ms, ops := [Empty()], [];
    ms := RunOn(ms, ops, a);
    ops := ops + [a];
    ms := RunOn(ms, ops, b);
    ops := ops + [b];
    m, mounts := ms[2], [Mount("p", "s", "x@p-2", "f")];
    ConfusedKey();
    KeepNone(mounts, (x: Mount) => !Matches(KeyOf(x), "p", "p-2"));
  }

  lemma ConfusedKey()
    ensures Matches(KeyOf(Mount("p", "s", "x@p-2", "f")), "p", "p-2")
  {
    var key := KeyOf(Mount("p", "s", "x@p-2", "f"));
    assert Trim("p") == "p" && Trim("s") == "s" && Trim("p-2") == "p-2";
    assert Trim("x@p-2") == "x@p-2";
    assert key == "p/s@x@p-2";
    assert key[|key| - 4..] == "@p-2";
  }
}
