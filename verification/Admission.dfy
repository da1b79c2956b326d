/**
 Host admission: the counters a process keeps under its mutex, the critical sections that
 change them, and the lock file shared by all processes of the host.
 */
module Admission {
  datatype Class = Normal | Heavy

  /** The counters of one coordinator; `epoch` numbers its broadcast channels. */
  datatype Counters = Counters(
    maxNormal: int,
    maxHeavy: int,
    maxQueued: int,
    normalActive: int,
    heavyActive: int,
    queued: int,
    heavyQueued: int,
    epoch: nat
  )

  /** `NewCoordinator`: limits that are not positive get their default. */
  function Fresh(maxNormal: int, maxHeavy: int, maxQueued: int): (c: Counters)
    ensures c.maxNormal >= 1 && c.maxHeavy >= 1 && c.maxQueued >= 1
    ensures maxNormal >= 1 && maxHeavy >= 1 && maxQueued >= 1 ==> c.maxNormal == maxNormal && c.maxHeavy == maxHeavy && c.maxQueued == maxQueued
    ensures maxNormal < 1 && maxHeavy < 1 && maxQueued < 1 ==> c.maxNormal == 2 && c.maxHeavy == 1 && c.maxQueued == 16
  {
    Counters(
      if maxNormal <= 0 then 2 else maxNormal,
      if maxHeavy <= 0 then 1 else maxHeavy,
      if maxQueued <= 0 then 16 else maxQueued,
      0, 0, 0, 0, 0)
  }

  predicate CanReserve(c: Counters, class_: Class) {
    if class_ == Heavy then c.heavyActive < c.maxHeavy && c.normalActive == 0
    else c.heavyActive == 0 && c.normalActive < c.maxNormal && c.heavyQueued == 0
  }

  function Activate(c: Counters, class_: Class, n: int): Counters {
    if class_ == Heavy then c.(heavyActive := c.heavyActive + n) else c.(normalActive := c.normalActive + n)
  }

  function Signal(c: Counters): Counters {
    c.(epoch := c.epoch + 1)
  }

  function Dequeue(c: Counters, class_: Class): Counters {
    c.(queued := if c.queued > 0 then c.queued - 1 else c.queued,
       heavyQueued := if class_ == Heavy && c.heavyQueued > 0 then c.heavyQueued - 1 else c.heavyQueued)
  }

  function Enqueue(c: Counters, class_: Class): Counters {
    c.(queued := c.queued + 1, heavyQueued := if class_ == Heavy then c.heavyQueued + 1 else c.heavyQueued)
  }

  datatype Decision = Reserve | Saturated | Park(epoch: nat)

  /** The decision of the critical section at the head of the retry loop. */
  function Decide(c: Counters, class_: Class): Decision {
    if CanReserve(c, class_) then Reserve
    else if c.queued >= c.maxQueued then Saturated
    else Park(c.epoch)
  }

  function AfterDecision(c: Counters, class_: Class): Counters {
    match Decide(c, class_)
    case Reserve => Activate(c, class_, 1)
    case Saturated => c
    case Park(_) => Enqueue(c, class_)
  }

  /** The object the process shares; every method is one critical section. */
  class Coordinator {
    const maxNormal: int
    const maxHeavy: int
    const maxQueued: int
    var normalActive: int
    var heavyActive: int
    var queued: int
    var heavyQueued: int
    var epoch: nat

    constructor (maxNormal: int, maxHeavy: int, maxQueued: int)
      ensures View() == Fresh(maxNormal, maxHeavy, maxQueued)
    {
      this.maxNormal := if maxNormal <= 0 then 2 else maxNormal;
      this.maxHeavy := if maxHeavy <= 0 then 1 else maxHeavy;
      this.maxQueued := if maxQueued <= 0 then 16 else maxQueued;
      normalActive, heavyActive, queued, heavyQueued, epoch := 0, 0, 0, 0, 0;
    }

    function View(): Counters
      reads this
    {
      Counters(maxNormal, maxHeavy, maxQueued, normalActive, heavyActive, queued, heavyQueued, epoch)
    }

    /** Reserve, refuse or join the queue of the current channel. */
    method TryReserve(class_: Class) returns (d: Decision)
      modifies this
      ensures d == old(Decide(View(), class_)) && View() == old(AfterDecision(View(), class_))
    {
      if CanReserve(View(), class_) {
        ReserveOne(class_);
        return Reserve;
      }
      if queued >= maxQueued {
        return Saturated;
      }
      queued := queued + 1;
      if class_ == Heavy {
        heavyQueued := heavyQueued + 1;
      }
      d := Park(epoch);
    }

    method ReserveOne(class_: Class)
      modifies this
      ensures View() == old(Activate(View(), class_, 1))
    {
      if class_ == Heavy {
        heavyActive := heavyActive + 1;
      } else {
        normalActive := normalActive + 1;
      }
    }

    /** `release` */
    method Release(class_: Class)
      modifies this
      ensures View() == old(Signal(Activate(View(), class_, -1)))
    {
      if class_ == Heavy {
        heavyActive := heavyActive - 1;
      } else {
        normalActive := normalActive - 1;
      }
      SignalAll();
    }

    /** `signal`: closes the channel and makes a new one. */
    method SignalAll()
      modifies this
      ensures View() == old(Signal(View()))
    {
      epoch := epoch + 1;
    }

    /** `dequeue`: what a woken caller does first. */
    method DequeueOne(class_: Class)
      modifies this
      ensures View() == old(Dequeue(View(), class_))
    {
      if queued > 0 {
        queued := queued - 1;
      }
      if class_ == Heavy && heavyQueued > 0 {
        heavyQueued := heavyQueued - 1;
      }
    }

    /** A parked caller whose context ends leaves the queue and wakes the others. */
    method Cancel(class_: Class)
      modifies this
      ensures View() == old(Signal(Dequeue(View(), class_)))
    {
      DequeueOne(class_);
      SignalAll();
    }
  }

  // ---------------------------------------------------------------- the lock file

  /** Open file descriptions that hold the lock, each shared or exclusive. */
  type Holders = map<nat, bool>

  predicate Compatible(holders: Holders) {
    forall i, j :: i in holders && j in holders && i != j ==> !holders[i]
  }

  /** Whether a non-blocking flock call succeeds. */
  predicate Grants(holders: Holders, exclusive: bool) {
    if exclusive then holders == map[] else forall i :: i in holders ==> !holders[i]
  }

  class HostLock {
    var holders: Holders

    /** What other processes do between two attempts. */
    method Interfere(me: nat)
      requires me !in holders && Compatible(holders)
      modifies this
      ensures me !in holders && Compatible(holders)
    {
      var others: Holders := *;
      if me !in others && Compatible(others) {
        holders := others;
      }
    }

    /** `platformHostLock.acquire`: attempts until granted or cancelled; the file system may fail it too. */
    method Acquire(me: nat, exclusive: bool) returns (ok: bool, ghost failed: bool)
      requires me !in holders && Compatible(holders)
      modifies this
      ensures Compatible(holders)
      ensures ok ==> me in holders && holders[me] == exclusive
      ensures ok && exclusive ==> holders.Keys == {me}
      ensures !ok ==> me !in holders
      ensures !ok && !failed && exclusive ==> holders != map[]
      ensures !ok && !failed && !exclusive ==> exists i :: i in holders && holders[i]
    {
      failed := false;
      var usable: bool := *;
      if !usable {
        return false, true;
      }
      var rounds: nat :| 1 <= rounds;
      for round := 0 to rounds
        invariant me !in holders && Compatible(holders)
        invariant round > 0 ==> !Grants(holders, exclusive)
      {
        Interfere(me);
        if Grants(holders, exclusive) {
          holders := holders[me := exclusive];
          return true, failed;
        }
      }
      ok := false;
    }
  }
}
