/**
 The admission protocol as a state machine: any number of callers and coordinators that
 share the lock file, one critical section or system call at a time.
 */
module AdmissionProtocol {
  import opened Indicator
  import opened Admission

  datatype Phase =
    | Deciding(retry: bool)    // at the head of the loop; retry after a wakeup
    | Parked(epoch: nat)       // queued on the channel of that epoch
    | Reserved                 // holds a permit, wants the lock file
    | Holding                  // holds a permit and the lock file
    | Releasing                // gave the lock file back, still holds the permit
    | Gone

  datatype Caller = Caller(coord: nat, class_: Class, phase: Phase)

  datatype World = World(coords: seq<Counters>, callers: seq<Caller>, holders: Holders)

  datatype Action =
    | Arrive(coord: nat, class_: Class)
    | PressureExit(caller: nat)
    | Decide(caller: nat)
    | Wake(caller: nat)
    | Cancel(caller: nat)
    | Lock(caller: nat)
    | LockFail(caller: nat)
    | Unlock(caller: nat)
    | Release(caller: nat)

  predicate Enabled(w: World, a: Action) {
    match a
    case Arrive(k, _) => k < |w.coords|
    case PressureExit(i) => At(w, i) && w.callers[i].phase.Deciding? && w.callers[i].class_ == Heavy
    case Decide(i) => At(w, i) && w.callers[i].phase.Deciding?
    case Wake(i) => At(w, i) && w.callers[i].phase.Parked? && w.callers[i].phase.epoch < w.coords[w.callers[i].coord].epoch
    case Cancel(i) => At(w, i) && w.callers[i].phase.Parked?
    case Lock(i) => At(w, i) && w.callers[i].phase == Reserved && Grants(w.holders, w.callers[i].class_ == Heavy)
    case LockFail(i) => At(w, i) && w.callers[i].phase == Reserved
    case Unlock(i) => At(w, i) && w.callers[i].phase == Holding
    case Release(i) => At(w, i) && w.callers[i].phase == Releasing
  }

  predicate At(w: World, i: nat) {
    i < |w.callers| && w.callers[i].coord < |w.coords|
  }

  /** One caller moves on and its coordinator changes. */
  function Move(w: World, i: nat, phase: Phase, c: Counters): World
    requires At(w, i)
  {
    w.(callers := w.callers[i := w.callers[i].(phase := phase)], coords := w.coords[w.callers[i].coord := c])
  }

  function DecidedPhase(d: Decision): Phase {
    match d
    case Reserve => Reserved
    case Saturated => Gone
    case Park(epoch) => Parked(epoch)
  }

  function Next(w: World, a: Action): World
    requires Enabled(w, a)
  {
    match a
    case Arrive(k, class_) => w.(callers := w.callers + [Caller(k, class_, Deciding(false))])
    case PressureExit(i) => Move(w, i, Gone, CoordOf(w, i))
    case Decide(i) =>
      Move(w, i, DecidedPhase(Admission.Decide(CoordOf(w, i), w.callers[i].class_)), AfterDecision(CoordOf(w, i), w.callers[i].class_))
    case Wake(i) => Move(w, i, Deciding(true), Dequeue(CoordOf(w, i), w.callers[i].class_))
    case Cancel(i) => Move(w, i, Gone, Signal(Dequeue(CoordOf(w, i), w.callers[i].class_)))
    case Lock(i) => Move(w, i, Holding, CoordOf(w, i)).(holders := w.holders[i := w.callers[i].class_ == Heavy])
    case LockFail(i) => Move(w, i, Gone, Signal(Activate(CoordOf(w, i), w.callers[i].class_, -1)))
    case Unlock(i) => Move(w, i, Releasing, CoordOf(w, i)).(holders := w.holders - {i})
    case Release(i) => Move(w, i, Gone, Signal(Activate(CoordOf(w, i), w.callers[i].class_, -1)))
  }

  function CoordOf(w: World, i: nat): Counters
    requires At(w, i)
  {
    w.coords[w.callers[i].coord]
  }

  // ---------------------------------------------------------------- counting callers

  predicate HasPermit(p: Phase) {
    p == Reserved || p == Holding || p == Releasing
  }

  predicate Permitted(c: Caller, k: nat, class_: Class) {
    c.coord == k && c.class_ == class_ && HasPermit(c.phase)
  }

  predicate Waiting(c: Caller, k: nat, class_: Class) {
    c.coord == k && c.class_ == class_ && c.phase.Parked?
  }

  function Permits(callers: seq<Caller>, k: nat, class_: Class): nat {
    if callers == [] then 0
    else Permits(callers[..|callers| - 1], k, class_) + One(Permitted(callers[|callers| - 1], k, class_))
  }

  function Waiters(callers: seq<Caller>, k: nat, class_: Class): nat {
    if callers == [] then 0
    else Waiters(callers[..|callers| - 1], k, class_) + One(Waiting(callers[|callers| - 1], k, class_))
  }

  lemma {:induction false} Recount(callers: seq<Caller>, i: nat, c: Caller, k: nat, class_: Class)
    requires i < |callers|
    ensures Permits(callers[i := c], k, class_) == Permits(callers, k, class_) - One(Permitted(callers[i], k, class_)) + One(Permitted(c, k, class_))
    ensures Waiters(callers[i := c], k, class_) == Waiters(callers, k, class_) - One(Waiting(callers[i], k, class_)) + One(Waiting(c, k, class_))
  {
    var last := |callers| - 1;
    if i < last {
      Recount(callers[..last], i, c, k, class_);
      assert callers[i := c][..last] == callers[..last][i := c];
    } else {
      assert callers[i := c][..last] == callers[..last];
    }
  }

  /** A positive count has a witness, and a witness makes the count positive. */
  lemma {:induction false} CountWitness(callers: seq<Caller>, k: nat, class_: Class)
    ensures Permits(callers, k, class_) > 0 <==> exists i :: 0 <= i < |callers| && Permitted(callers[i], k, class_)
    ensures Waiters(callers, k, class_) > 0 <==> exists i :: 0 <= i < |callers| && Waiting(callers[i], k, class_)
  {
    if callers != [] {
      var last := |callers| - 1;
      CountWitness(callers[..last], k, class_);
      assert forall i :: 0 <= i < last ==> callers[..last][i] == callers[i];
      if j :| 0 <= j < last && Permitted(callers[..last][j], k, class_) { assert Permitted(callers[j], k, class_); }
      if j :| 0 <= j < last && Waiting(callers[..last][j], k, class_) { assert Waiting(callers[j], k, class_); }
    }
  }

  // ---------------------------------------------------------------- the invariant

  /** The limits of a coordinator hold and its permits are never mixed. */
  predicate WithinLimits(c: Counters) {
    && c.maxNormal >= 1 && c.maxHeavy >= 1
    && 0 <= c.normalActive <= c.maxNormal && 0 <= c.heavyActive <= c.maxHeavy
    && (c.normalActive == 0 || c.heavyActive == 0)
    && 0 <= c.heavyQueued <= c.queued <= c.maxQueued
  }

  /** The counters are the numbers of callers that hold permits and that wait. */
  ghost predicate Counted(callers: seq<Caller>, c: Counters, k: nat) {
    && c.normalActive == Permits(callers, k, Normal) && c.heavyActive == Permits(callers, k, Heavy)
    && c.heavyQueued == Waiters(callers, k, Heavy)
    && c.queued == Waiters(callers, k, Normal) + Waiters(callers, k, Heavy)
  }

  ghost predicate CountersOk(w: World) {
    forall k :: 0 <= k < |w.coords| ==> WithinLimits(w.coords[k]) && Counted(w.callers, w.coords[k], k)
  }

  ghost predicate CallersOk(w: World) {
    forall i :: 0 <= i < |w.callers| ==>
      At(w, i) && (w.callers[i].phase.Parked? ==> w.callers[i].phase.epoch <= CoordOf(w, i).epoch)
  }

  /** The lock file is held by exactly the callers that think so, and compatibly. */
  ghost predicate LockOk(w: World) {
    && Compatible(w.holders)
    && (forall i: nat :: i in w.holders <==> i < |w.callers| && w.callers[i].phase == Holding)
    && forall i: nat :: i in w.holders ==> w.holders[i] == (w.callers[i].class_ == Heavy)
  }

  ghost predicate Inv(w: World) {
    CountersOk(w) && CallersOk(w) && LockOk(w)
  }

  /** The counters follow one caller's move from one phase to another. */
  predicate Follows(c: Counters, c': Counters, class_: Class, from: Phase, to: Phase) {
    && c'.normalActive == c.normalActive + (if class_ == Normal then One(HasPermit(to)) - One(HasPermit(from)) else 0)
    && c'.heavyActive == c.heavyActive + (if class_ == Heavy then One(HasPermit(to)) - One(HasPermit(from)) else 0)
    && c'.queued == c.queued + One(to.Parked?) - One(from.Parked?)
    && c'.heavyQueued == c.heavyQueued + (if class_ == Heavy then One(to.Parked?) - One(from.Parked?) else 0)
    && c'.epoch >= c.epoch
    && (to.Parked? ==> to.epoch <= c'.epoch)
    && WithinLimits(c')
  }

  lemma MoveCounts(w: World, i: nat, to: Phase, c: Counters)
    requires CountersOk(w) && CallersOk(w) && At(w, i)
    requires Follows(CoordOf(w, i), c, w.callers[i].class_, w.callers[i].phase, to)
    ensures CountersOk(Move(w, i, to, c)) && CallersOk(Move(w, i, to, c))
  {
    var w' := Move(w, i, to, c);
    var caller := w.callers[i].(phase := to);
    forall k | 0 <= k < |w'.coords| ensures WithinLimits(w'.coords[k]) && Counted(w'.callers, w'.coords[k], k) {
      assert WithinLimits(w.coords[k]) && Counted(w.callers, w.coords[k], k);
      Recount(w.callers, i, caller, k, Normal);
      Recount(w.callers, i, caller, k, Heavy);
    }
  }

  /** A caller that holds a permit or waits is counted. */
  lemma CountedOne(w: World, i: nat)
    requires CountersOk(w) && At(w, i)
    ensures var c, p := CoordOf(w, i), w.callers[i].phase;
      && (HasPermit(p) ==> (if w.callers[i].class_ == Heavy then c.heavyActive else c.normalActive) >= 1)
      && (p.Parked? ==> c.queued >= 1 && (w.callers[i].class_ == Heavy ==> c.heavyQueued >= 1))
      && (p.Parked? && w.callers[i].class_ == Normal ==> c.queued >= c.heavyQueued + 1)
  {
    var k := w.callers[i].coord;
    CountWitness(w.callers, k, Normal);
    CountWitness(w.callers, k, Heavy);
    assert Permitted(w.callers[i], k, w.callers[i].class_) <==> HasPermit(w.callers[i].phase);
    assert Waiting(w.callers[i], k, w.callers[i].class_) <==> w.callers[i].phase.Parked?;
    assert Counted(w.callers, w.coords[k], k);
  }

  /** Every action other than an arrival is a move whose counters follow it. */
  lemma ActionFollows(w: World, a: Action)
    requires Inv(w) && Enabled(w, a) && !a.Arrive?
    ensures Follows(CoordOf(w, a.caller), Next(w, a).coords[w.callers[a.caller].coord], w.callers[a.caller].class_,
                    w.callers[a.caller].phase, Next(w, a).callers[a.caller].phase)
  {
    CountedOne(w, a.caller);
    assert WithinLimits(CoordOf(w, a.caller));
  }

  lemma ActionIsMove(w: World, a: Action)
    requires Enabled(w, a) && !a.Arrive?
    ensures Next(w, a).(holders := w.holders) ==
      Move(w, a.caller, Next(w, a).callers[a.caller].phase, Next(w, a).coords[w.callers[a.caller].coord])
  {
  }

  lemma LockStep(w: World, a: Action)
    requires Inv(w) && Enabled(w, a)
    ensures LockOk(Next(w, a))
  {
  }

  lemma ArriveCounts(w: World, k: nat, class_: Class)
    requires CountersOk(w) && CallersOk(w) && k < |w.coords|
    ensures CountersOk(Next(w, Arrive(k, class_))) && CallersOk(Next(w, Arrive(k, class_)))
  {
    var w' := Next(w, Arrive(k, class_));
    assert w'.callers[..|w.callers|] == w.callers;
    forall j | 0 <= j < |w.coords| ensures Counted(w'.callers, w.coords[j], j) {
      assert Counted(w.callers, w.coords[j], j);
    }
  }

  /** The invariant holds over every step of every interleaving. */
  lemma InvStep(w: World, a: Action)
    requires Inv(w) && Enabled(w, a)
    ensures Inv(Next(w, a))
  {
    LockStep(w, a);
    if a.Arrive? {
      ArriveCounts(w, a.coord, a.class_);
    } else {
      ActionFollows(w, a);
      ActionIsMove(w, a);
      var w' := Next(w, a);
      MoveCounts(w, a.caller, w'.callers[a.caller].phase, w'.coords[w.callers[a.caller].coord]);
      assert CountersOk(w'.(holders := w.holders)) && CallersOk(w'.(holders := w.holders));
      SameCounts(w'.(holders := w.holders), w');
    }
  }

  lemma SameCounts(w: World, w': World)
    requires CountersOk(w) && CallersOk(w) && w' == w.(holders := w'.holders)
    ensures CountersOk(w') && CallersOk(w')
  {
  }

  // ---------------------------------------------------------------- no lost wakeup

  /** Asleep: parked on the channel that has not been closed. */
  predicate Asleep(w: World, i: nat)
    requires At(w, i)
  {
    w.callers[i].phase == Parked(CoordOf(w, i).epoch)
  }

  /** A heavy caller that was woken and has not decided yet. */
  predicate WokenHeavy(w: World, j: nat)
    requires At(w, j)
  {
    && w.callers[j].class_ == Heavy
    && (w.callers[j].phase == Deciding(true)
        || (w.callers[j].phase.Parked? && w.callers[j].phase.epoch < CoordOf(w, j).epoch))
  }

  predicate Busy(c: Counters) {
    c.normalActive + c.heavyActive > 0
  }

  /** Somebody will signal or decide on behalf of the sleepers of coordinator `k`. */
  ghost predicate HeavyStirring(w: World, k: nat) {
    exists j: nat :: StirsAt(w, j, k)
  }

  ghost predicate StirsAt(w: World, j: nat, k: nat) {
    At(w, j) && w.callers[j].coord == k && WokenHeavy(w, j)
  }

  /** Every sleeping caller has somebody to wait for. */
  ghost predicate Watched(w: World, i: nat)
    requires At(w, i)
  {
    Asleep(w, i) ==>
      Busy(CoordOf(w, i)) || (w.callers[i].class_ == Normal && HeavyStirring(w, w.callers[i].coord))
  }

  ghost predicate NoLostWakeup(w: World)
    requires CallersOk(w)
  {
    forall i {:trigger Watched(w, i)} :: 0 <= i < |w.callers| ==> Watched(w, i)
  }

  /** A woken heavy caller about to leave on pressure, with a normal caller relying on it alone. */
  ghost predicate Strands(w: World, a: Action)
    requires CallersOk(w)
  {
    && a.PressureExit? && At(w, a.caller) && w.callers[a.caller].phase == Deciding(true)
    && var k := w.callers[a.caller].coord;
       && !Busy(w.coords[k])
       && (exists i: nat :: At(w, i) && w.callers[i].coord == k && w.callers[i].class_ == Normal && Asleep(w, i))
       && forall j: nat :: StirsAt(w, j, k) ==> j == a.caller
  }

  /** The queue of heavy callers is empty, or one of them was woken, or a permit is out. */
  lemma HeavyQueueMeans(w: World, k: nat)
    requires Inv(w) && NoLostWakeup(w) && k < |w.coords| && w.coords[k].heavyQueued > 0
    ensures Busy(w.coords[k]) || HeavyStirring(w, k)
  {
    assert Counted(w.callers, w.coords[k], k);
    CountWitness(w.callers, k, Heavy);
    var j :| 0 <= j < |w.callers| && Waiting(w.callers[j], k, Heavy);
    assert At(w, j);
    if Asleep(w, j) {
      assert Watched(w, j);
    } else {
      assert StirsAt(w, j, k);
    }
  }

  /** What an action leaves alone: the other callers, and the permits unless it signals. */
  lemma StepFrame(w: World, a: Action, i: nat)
    requires Inv(w) && Enabled(w, a) && i < |w.callers| && (a.Arrive? || i != a.caller)
    ensures var w' := Next(w, a);
      && i < |w'.callers| && |w'.coords| == |w.coords| && w'.callers[i] == w.callers[i]
      && CoordOf(w', i).epoch >= CoordOf(w, i).epoch
      && (CoordOf(w', i).epoch == CoordOf(w, i).epoch ==>
        CoordOf(w', i).normalActive >= CoordOf(w, i).normalActive && CoordOf(w', i).heavyActive >= CoordOf(w, i).heavyActive)
  {
    assert At(w, i);
  }

  /** A woken heavy caller that does not leave on pressure stays, reserves or finds a permit out. */
  lemma StirrerActs(w: World, a: Action)
    requires Inv(w) && Enabled(w, a) && !a.Arrive? && !a.PressureExit? && WokenHeavy(w, a.caller)
    ensures var w', k := Next(w, a), w.callers[a.caller].coord;
      w'.coords[k].epoch > w.coords[k].epoch || Busy(w'.coords[k]) || StirsAt(w', a.caller, k)
  {
    assert WithinLimits(CoordOf(w, a.caller));
  }

  lemma OthersWatched(w: World, a: Action, i: nat)
    requires Inv(w) && NoLostWakeup(w) && Enabled(w, a) && !Strands(w, a)
    requires i < |w.callers| && (a.Arrive? || i != a.caller)
    ensures At(Next(w, a), i) && Watched(Next(w, a), i)
  {
    var w' := Next(w, a);
    assert At(w, i);
    var k := w.callers[i].coord;
    StepFrame(w, a, i);
    assert WithinLimits(w.coords[k]);
    if Asleep(w', i) && !Busy(w'.coords[k]) {
      assert Watched(w, i) && Asleep(w, i);
      var j: nat :| StirsAt(w, j, k);
      var other := exists j': nat :: StirsAt(w, j', k) && (a.Arrive? || j' != a.caller);
      if other {
        var j': nat :| StirsAt(w, j', k) && (a.Arrive? || j' != a.caller);
        StepFrame(w, a, j');
        assert StirsAt(w', j', k);
      } else {
        assert j == a.caller;
        if !a.PressureExit? { StirrerActs(w, a); }
      }
    }
  }

  /** The acting caller, if it fell asleep, waits for a permit or for a woken heavy caller. */
  lemma ActorWatched(w: World, a: Action)
    requires Inv(w) && NoLostWakeup(w) && Enabled(w, a) && !a.Arrive?
    ensures At(Next(w, a), a.caller) && Watched(Next(w, a), a.caller)
  {
    var i, w' := a.caller, Next(w, a);
    var k := w.callers[i].coord;
    assert WithinLimits(w.coords[k]);
    if Asleep(w', i) && a.Decide? && w.callers[i].class_ == Normal && !Busy(w.coords[k]) {
      HeavyQueueMeans(w, k);
      var j: nat :| StirsAt(w, j, k);
      StepFrame(w, a, j);
      assert StirsAt(w', j, k);
    }
  }

  lemma StrandedSleeper(w: World, a: Action)
    requires Inv(w) && Enabled(w, a) && Strands(w, a) && CallersOk(Next(w, a))
    ensures !NoLostWakeup(Next(w, a))
  {
    var w', k := Next(w, a), w.callers[a.caller].coord;
    var i: nat :| At(w, i) && w.callers[i].coord == k && w.callers[i].class_ == Normal && Asleep(w, i);
    assert Asleep(w', i) && !Busy(CoordOf(w', i));
    forall j: nat ensures !StirsAt(w', j, k) {
      if j != a.caller { assert StirsAt(w', j, k) ==> StirsAt(w, j, k); }
    }
    assert !Watched(w', i);
  }

  /** Every step keeps all sleepers watched, except exactly the stranding pressure exit. */
  lemma WakeupStep(w: World, a: Action)
    requires Inv(w) && NoLostWakeup(w) && Enabled(w, a)
    ensures Inv(Next(w, a)) && (NoLostWakeup(Next(w, a)) <==> !Strands(w, a))
  {
    InvStep(w, a);
    var w' := Next(w, a);
    if Strands(w, a) {
      StrandedSleeper(w, a);
    } else {
      forall i | 0 <= i < |w'.callers| ensures Watched(w', i) {
        if a.Arrive? && i == |w.callers| {
        } else if !a.Arrive? && i == a.caller {
          ActorWatched(w, a);
        } else {
          OthersWatched(w, a, i);
        }
      }
    }
  }

  // ---------------------------------------------------------------- whole runs

  ghost predicate Initial(w: World) {
    && w.callers == [] && w.holders == map[]
    && forall k :: 0 <= k < |w.coords| ==> FreshCoord(w.coords[k])
  }

  ghost predicate FreshCoord(c: Counters) {
    exists n, h, q :: c == Fresh(n, h, q)
  }

  /** A run: any interleaving of enabled actions. */
  ghost predicate Run(ws: seq<World>, acts: seq<Action>) {
    && |ws| == |acts| + 1 && Initial(ws[0])
    && forall t :: 0 <= t < |acts| ==> StepAt(ws, acts, t)
  }

  ghost predicate StepAt(ws: seq<World>, acts: seq<Action>, t: nat)
    requires t < |acts| && t + 1 < |ws|
  {
    Enabled(ws[t], acts[t]) && ws[t + 1] == Next(ws[t], acts[t])
  }

  lemma {:induction false} RunInv(ws: seq<World>, acts: seq<Action>, t: nat)
    requires Run(ws, acts) && t < |ws|
    ensures Inv(ws[t])
  {
    if t > 0 {
      RunInv(ws, acts, t - 1);
      assert StepAt(ws, acts, t - 1);
      InvStep(ws[t - 1], acts[t - 1]);
    }
  }

  /** In every run a heavy holder is alone on the whole host, and a process never mixes permits. */
  lemma AdmissionExclusion(ws: seq<World>, acts: seq<Action>, t: nat, i: nat, j: nat)
    requires Run(ws, acts) && t < |ws| && i < |ws[t].callers| && j < |ws[t].callers| && i != j
    ensures ws[t].callers[i].phase == Holding && ws[t].callers[j].phase == Holding ==>
      ws[t].callers[i].class_ == Normal && ws[t].callers[j].class_ == Normal
    ensures HasPermit(ws[t].callers[i].phase) && HasPermit(ws[t].callers[j].phase) && ws[t].callers[i].coord == ws[t].callers[j].coord ==>
      ws[t].callers[i].class_ == ws[t].callers[j].class_
  {
    RunInv(ws, acts, t);
    CountedOne(ws[t], i);
    CountedOne(ws[t], j);
    assert WithinLimits(CoordOf(ws[t], i));
  }

  /** In every run the counters are the true numbers of callers and stay within the limits. */
  lemma AdmissionCounters(ws: seq<World>, acts: seq<Action>, t: nat, k: nat)
    requires Run(ws, acts) && t < |ws| && k < |ws[t].coords|
    ensures var w, c := ws[t], ws[t].coords[k];
      && Permits(w.callers, k, Normal) == c.normalActive <= c.maxNormal
      && Permits(w.callers, k, Heavy) == c.heavyActive <= c.maxHeavy
      && Waiters(w.callers, k, Normal) + Waiters(w.callers, k, Heavy) == c.queued <= c.maxQueued
      && Waiters(w.callers, k, Heavy) == c.heavyQueued
  {
    RunInv(ws, acts, t);
    assert WithinLimits(ws[t].coords[k]) && Counted(ws[t].callers, ws[t].coords[k], k);
  }

  /** What keeps a caller of the class out: permits that are out and heavy callers that wait. */
  ghost predicate KeptOut(callers: seq<Caller>, k: nat, class_: Class, maxNormal: int, maxHeavy: int) {
    match class_
    case Normal => Permits(callers, k, Heavy) > 0 || Waiters(callers, k, Heavy) > 0 || Permits(callers, k, Normal) == maxNormal
    case Heavy => Permits(callers, k, Normal) > 0 || Permits(callers, k, Heavy) == maxHeavy
  }

  /**
   How a caller fares at the head of its loop, by the callers there are: it is let in unless it
   is kept out, and then it is turned away if as many callers wait as may, and queued otherwise.
   The limits are those the coordinator was made with.
   */
  lemma DecideExactly(ws: seq<World>, acts: seq<Action>, t: nat)
    requires Run(ws, acts) && t < |acts| && acts[t].Decide?
    ensures At(ws[t], acts[t].caller) && |ws[t + 1].callers| == |ws[t].callers| && At(ws[0].(callers := ws[t].callers), acts[t].caller)
    ensures var w, i := ws[t], acts[t].caller;
      var k, phase := w.callers[i].coord, ws[t + 1].callers[i].phase;
      var made, waiting := ws[0].coords[k], Waiters(w.callers, k, Normal) + Waiters(w.callers, k, Heavy);
      var out := KeptOut(w.callers, k, w.callers[i].class_, made.maxNormal, made.maxHeavy);
      && (phase == Reserved <==> !out)
      && (phase == Gone <==> out && waiting == made.maxQueued)
      && (phase == Parked(w.coords[k].epoch) <==> out && waiting < made.maxQueued)
  {
    RunInv(ws, acts, t);
    assert StepAt(ws, acts, t);
    SameLimits(ws, acts, t);
    var k := ws[t].callers[acts[t].caller].coord;
    assert WithinLimits(ws[t].coords[k]) && Counted(ws[t].callers, ws[t].coords[k], k);
  }

  /** No step changes the limits of a coordinator. */
  lemma {:induction false} SameLimits(ws: seq<World>, acts: seq<Action>, t: nat)
    requires Run(ws, acts) && t < |ws|
    ensures |ws[t].coords| == |ws[0].coords|
    ensures forall k :: 0 <= k < |ws[0].coords| ==> LimitsOf(ws[t].coords[k]) == LimitsOf(ws[0].coords[k])
  {
    if t > 0 {
      SameLimits(ws, acts, t - 1);
      assert StepAt(ws, acts, t - 1);
    }
  }

  function LimitsOf(c: Counters): (int, int, int) {
    (c.maxNormal, c.maxHeavy, c.maxQueued)
  }

  /** A caller with a permit can take the lock file unless a caller that holds it, or itself, is heavy. */
  lemma LockExactly(ws: seq<World>, acts: seq<Action>, t: nat, i: nat)
    requires Run(ws, acts) && t < |ws| && i < |ws[t].callers| && ws[t].callers[i].phase == Reserved
    ensures Enabled(ws[t], Lock(i)) <==>
      forall j :: 0 <= j < |ws[t].callers| && ws[t].callers[j].phase == Holding ==>
        ws[t].callers[i].class_ == Normal && ws[t].callers[j].class_ == Normal
  {
    RunInv(ws, acts, t);
    var w := ws[t];
    assert At(w, i);
    if w.callers[i].class_ == Heavy {
      if x :| x in w.holders { assert w.callers[x].phase == Holding; }
    } else {
      forall x | x in w.holders ensures w.holders[x] == (w.callers[x].class_ == Heavy) && w.callers[x].phase == Holding { }
    }
  }

  /** No woken heavy caller takes the pressure exit. */
  ghost predicate NoWokenPressureExit(ws: seq<World>, acts: seq<Action>)
    requires Run(ws, acts)
  {
    forall t :: 0 <= t < |acts| && acts[t].PressureExit? ==>
      StepAt(ws, acts, t) && ws[t].callers[acts[t].caller].phase == Deciding(false)
  }

  lemma {:induction false} RunNoLostWakeup(ws: seq<World>, acts: seq<Action>, t: nat)
    requires Run(ws, acts) && t < |ws| && NoWokenPressureExit(ws, acts)
    ensures Inv(ws[t]) && NoLostWakeup(ws[t])
  {
    if t > 0 {
      RunNoLostWakeup(ws, acts, t - 1);
      assert StepAt(ws, acts, t - 1);
      WakeupStep(ws[t - 1], acts[t - 1]);
    }
  }

  /** Somebody of the coordinator is awake: holds a permit, or is a woken heavy caller. */
  ghost predicate AwakeAt(w: World, j: nat, k: nat) {
    At(w, j) && w.callers[j].coord == k && (HasPermit(w.callers[j].phase) || WokenHeavy(w, j))
  }

  lemma SleeperHasHelp(w: World, i: nat)
    requires Inv(w) && NoLostWakeup(w) && i < |w.callers| && At(w, i) && Asleep(w, i)
    ensures exists j: nat :: AwakeAt(w, j, w.callers[i].coord)
  {
    var k := w.callers[i].coord;
    assert Watched(w, i);
    if Busy(w.coords[k]) {
      assert Counted(w.callers, w.coords[k], k);
      var class_ := if w.coords[k].normalActive > 0 then Normal else Heavy;
      assert WithinLimits(w.coords[k]);
      CountWitness(w.callers, k, class_);
      var j :| 0 <= j < |w.callers| && Permitted(w.callers[j], k, class_);
      assert At(w, j);
      assert AwakeAt(w, j, k);
    } else {
      var j: nat :| StirsAt(w, j, k);
      assert AwakeAt(w, j, k);
    }
  }

  /** In such a run callers are never all asleep: a sleeper's process has a caller that can act. */
  lemma NeverAllAsleep(ws: seq<World>, acts: seq<Action>, t: nat, i: nat)
    requires Run(ws, acts) && t < |ws| && NoWokenPressureExit(ws, acts)
    requires i < |ws[t].callers| && At(ws[t], i) && Asleep(ws[t], i)
    ensures exists a :: Enabled(ws[t], a) && !a.Arrive? && !a.Cancel? && ws[t].callers[a.caller].coord == ws[t].callers[i].coord
  {
    var w, k := ws[t], ws[t].callers[i].coord;
    RunNoLostWakeup(ws, acts, t);
    SleeperHasHelp(w, i);
    var j: nat :| AwakeAt(w, j, k);
    var a := match w.callers[j].phase
      case Reserved => LockFail(j)
      case Holding => Unlock(j)
      case Releasing => Release(j)
      case Deciding(_) => Action.Decide(j)
      case Parked(_) => Wake(j)
      case Gone => Action.Decide(j);
    assert Enabled(w, a);
  }

  // ---------------------------------------------------------------- the pressure exit

  ghost predicate Reaches(w: World) {
    exists ws, acts :: Run(ws, acts) && ws[|ws| - 1] == w
  }

  lemma ReachesNext(w: World, a: Action, w': World)
    requires Reaches(w) && Enabled(w, a) && w' == Next(w, a)
    ensures Reaches(w')
  {
    var ws, acts :| Run(ws, acts) && ws[|ws| - 1] == w;
    var ws', acts' := ws + [w'], acts + [a];
    forall t | 0 <= t < |acts'| ensures StepAt(ws', acts', t) {
      if t < |acts| { assert StepAt(ws, acts, t); }
    }
    assert Run(ws', acts') && ws'[|ws'| - 1] == w';
  }

  /** One coordinator and the three callers of the scenario. */
  function Scene(k: Counters, a: Phase, b: Phase, c: Phase): World {
    World([k], [Caller(0, Normal, a), Caller(0, Heavy, b), Caller(0, Normal, c)], map[])
  }

  /** A coordinator with the default limits and no heavy permit. */
  function Tally(active: int, queued: int, heavyQueued: int, epoch: nat): Counters {
    Counters(2, 1, 16, active, 0, queued, heavyQueued, epoch)
  }

  lemma SceneMove(k: Counters, k': Counters, a: Phase, b: Phase, c: Phase, i: nat, to: Phase)
    requires i < 3
    ensures At(Scene(k, a, b, c), i) && CoordOf(Scene(k, a, b, c), i) == k
    ensures Move(Scene(k, a, b, c), i, to, k') ==
      Scene(k', if i == 0 then to else a, if i == 1 then to else b, if i == 2 then to else c)
  {
    var w := Scene(k, a, b, c);
    assert w.coords[0 := k'] == [k'];
    assert w.callers[i := w.callers[i].(phase := to)] ==
      [Caller(0, Normal, if i == 0 then to else a), Caller(0, Heavy, if i == 1 then to else b), Caller(0, Normal, if i == 2 then to else c)];
  }

  lemma SceneOpens()
    ensures Reaches(Scene(Tally(0, 0, 0, 0), Deciding(false), Deciding(false), Deciding(false)))
  {
    var w0 := World([Fresh(2, 1, 16)], [], map[]);
    assert FreshCoord(w0.coords[0]);
    assert Run([w0], []) && [w0][|[w0]| - 1] == w0;
    var w1 := Next(w0, Arrive(0, Normal));
    ReachesNext(w0, Arrive(0, Normal), w1);
    var w2 := Next(w1, Arrive(0, Heavy));
    ReachesNext(w1, Arrive(0, Heavy), w2);
    ReachesNext(w2, Arrive(0, Normal), Next(w2, Arrive(0, Normal)));
    assert Next(w2, Arrive(0, Normal)) == Scene(Tally(0, 0, 0, 0), Deciding(false), Deciding(false), Deciding(false));
  }

  /** The first caller reserves. */
  lemma SceneReserves()
    ensures Reaches(Scene(Tally(1, 0, 0, 0), Reserved, Deciding(false), Deciding(false)))
  {
    SceneOpens();
    var k, k' := Tally(0, 0, 0, 0), Tally(1, 0, 0, 0);
    SceneMove(k, k', Deciding(false), Deciding(false), Deciding(false), 0, Reserved);
    ReachesNext(Scene(k, Deciding(false), Deciding(false), Deciding(false)), Action.Decide(0), Scene(k', Reserved, Deciding(false), Deciding(false)));
  }

  /** A heavy and then a normal caller park behind it. */
  lemma SceneHeavyParks()
    ensures Reaches(Scene(Tally(1, 1, 1, 0), Reserved, Parked(0), Deciding(false)))
  {
    SceneReserves();
    var k, k' := Tally(1, 0, 0, 0), Tally(1, 1, 1, 0);
    SceneMove(k, k', Reserved, Deciding(false), Deciding(false), 1, Parked(0));
    ReachesNext(Scene(k, Reserved, Deciding(false), Deciding(false)), Action.Decide(1), Scene(k', Reserved, Parked(0), Deciding(false)));
  }

  lemma SceneNormalParks()
    ensures Reaches(Scene(Tally(1, 2, 1, 0), Reserved, Parked(0), Parked(0)))
  {
    SceneHeavyParks();
    var k, k' := Tally(1, 1, 1, 0), Tally(1, 2, 1, 0);
    SceneMove(k, k', Reserved, Parked(0), Deciding(false), 2, Parked(0));
    ReachesNext(Scene(k, Reserved, Parked(0), Deciding(false)), Action.Decide(2), Scene(k', Reserved, Parked(0), Parked(0)));
  }

  /** The permit comes back and everybody is woken. */
  lemma SceneReleases()
    ensures Reaches(Scene(Tally(0, 2, 1, 1), Gone, Parked(0), Parked(0)))
  {
    SceneNormalParks();
    var k, k' := Tally(1, 2, 1, 0), Tally(0, 2, 1, 1);
    SceneMove(k, k', Reserved, Parked(0), Parked(0), 0, Gone);
    ReachesNext(Scene(k, Reserved, Parked(0), Parked(0)), LockFail(0), Scene(k', Gone, Parked(0), Parked(0)));
  }

  /** The normal caller comes first and parks again behind the heavy one. */
  lemma SceneParksAgain()
    ensures Reaches(Scene(Tally(0, 2, 1, 1), Gone, Parked(0), Parked(1)))
  {
    SceneReleases();
    var k, k1 := Tally(0, 2, 1, 1), Tally(0, 1, 1, 1);
    SceneMove(k, k1, Gone, Parked(0), Parked(0), 2, Deciding(true));
    ReachesNext(Scene(k, Gone, Parked(0), Parked(0)), Wake(2), Scene(k1, Gone, Parked(0), Deciding(true)));
    SceneMove(k1, k, Gone, Parked(0), Deciding(true), 2, Parked(1));
    ReachesNext(Scene(k1, Gone, Parked(0), Deciding(true)), Action.Decide(2), Scene(k, Gone, Parked(0), Parked(1)));
  }

  /** The heavy caller wakes and leaves on pressure. */
  lemma SceneStrands()
    ensures Reaches(Scene(Tally(0, 1, 0, 1), Gone, Gone, Parked(1)))
  {
    SceneParksAgain();
    var k, k1 := Tally(0, 2, 1, 1), Tally(0, 1, 0, 1);
    SceneMove(k, k1, Gone, Parked(0), Parked(1), 1, Deciding(true));
    ReachesNext(Scene(k, Gone, Parked(0), Parked(1)), Wake(1), Scene(k1, Gone, Deciding(true), Parked(1)));
    SceneMove(k1, k1, Gone, Deciding(true), Parked(1), 1, Gone);
    ReachesNext(Scene(k1, Gone, Deciding(true), Parked(1)), PressureExit(1), Scene(k1, Gone, Gone, Parked(1)));
  }

  /** Without the exclusion the property fails: one caller asleep, no permit out, nobody to signal. */
  lemma PressureExitStrands()
    ensures exists w :: Reaches(w) && CallersOk(w) && !NoLostWakeup(w)
  {
    SceneStrands();
    var w := Scene(Tally(0, 1, 0, 1), Gone, Gone, Parked(1));
    assert At(w, 2) && Asleep(w, 2) && !Busy(CoordOf(w, 2));
    assert forall j: nat :: !StirsAt(w, j, 0);
    assert !Watched(w, 2);
    assert Reaches(w) && CallersOk(w) && !NoLostWakeup(w);
  }
}
