/**
 Starting asynchronous tasks and shutting down: the gate that creators, pollers, cancellers,
 expiry timers and the shutdown share, one critical section per method.
 */
module AsyncStart {

  /** What the mutex guards: the closed flag, the wait group and the starts not acknowledged yet. */
  datatype Gate = Gate(closed: bool, count: int, pending: map<nat, nat>)

  datatype Entered = Opened | Refused

  /** `beginAsyncTaskStart` and the head of `startAsyncTaskIfOpen`: a reference, unless closed. */
  function Enter(g: Gate): Gate {
    if g.closed then g else g.(count := g.count + 1)
  }

  /** `registerPendingAsyncTaskStart`; the stamp is the identity of the pending entry. */
  function Register(g: Gate, task: nat, stamp: nat): Gate {
    if g.closed then g else g.(pending := g.pending[task := stamp])
  }

  predicate Starts(g: Gate, task: nat) {
    task in g.pending && !g.closed
  }

  /** `startPendingAsyncTask` */
  function Acknowledge(g: Gate, task: nat): Gate {
    g.(pending := g.pending - {task}, count := if Starts(g, task) then g.count + 1 else g.count)
  }

  function Discard(g: Gate, task: nat): Gate {
    g.(pending := g.pending - {task})
  }

  predicate Expires(g: Gate, task: nat, stamp: nat) {
    task in g.pending && g.pending[task] == stamp
  }

  /** `expirePendingAsyncTaskStart` */
  function Expire(g: Gate, task: nat, stamp: nat): Gate {
    if Expires(g, task, stamp) then g.(pending := g.pending - {task}, count := g.count + 1) else g
  }

  function Leave(g: Gate): Gate {
    g.(count := g.count - 1)
  }

  /** The critical section of `closePendingAsyncTaskStarts`. */
  function Close(g: Gate): Gate {
    g.(closed := true, pending := map[])
  }

  class Starter {
    var closed: bool
    var count: int
    var pending: map<nat, nat>

    constructor ()
      ensures View() == Gate(false, 0, map[])
    {
      closed, count, pending := false, 0, map[];
    }

    function View(): Gate
      reads this
    {
      Gate(closed, count, pending)
    }

    method Begin() returns (r: Entered)
      modifies this
      ensures View() == old(Enter(View())) && (r == Opened <==> !old(closed))
    {
      if closed {
        return Refused;
      }
      count := count + 1;
      r := Opened;
    }

    method RegisterPending(task: nat, stamp: nat) returns (r: Entered)
      modifies this
      ensures View() == old(Register(View(), task, stamp)) && (r == Opened <==> !old(closed))
    {
      if closed {
        return Refused;
      }
      pending := pending[task := stamp];
      r := Opened;
    }

    method StartPending(task: nat) returns (start: bool)
      modifies this
      ensures View() == old(Acknowledge(View(), task)) && start == old(Starts(View(), task))
    {
      var known := task in pending;
      pending := pending - {task};
      start := known && !closed;
      if start {
        count := count + 1;
      }
    }

    method DiscardPending(task: nat)
      modifies this
      ensures View() == old(Discard(View(), task))
    {
      pending := pending - {task};
    }

    method ExpirePending(task: nat, stamp: nat) returns (expired: bool)
      modifies this
      ensures View() == old(Expire(View(), task, stamp)) && expired == old(Expires(View(), task, stamp))
    {
      if task !in pending || pending[task] != stamp {
        return false;
      }
      pending := pending - {task};
      count := count + 1;
      expired := true;
    }

    method Done()
      modifies this
      ensures View() == old(Leave(View()))
    {
      count := count - 1;
    }

    /** Returns the tasks whose start will never come. */
    method CloseStarts() returns (dropped: set<nat>)
      modifies this
      ensures View() == old(Close(View())) && dropped == old(pending).Keys
    {
      closed := true;
      dropped := {};
      while pending != map[]
        invariant dropped + pending.Keys == old(pending).Keys
        invariant closed && count == old(count)
        decreases pending.Keys
      {
        var task :| task in pending;
        pending := pending - {task};
        dropped := dropped + {task};
      }
    }
  }
}
