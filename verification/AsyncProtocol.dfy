/** Every interleaving of creation, polling, cancellation, expiry and shutdown. */
module AsyncProtocol {
  import opened Indicator
  import opened AsyncStart

  /** The life of a task's body. */
  datatype Body = Unborn | Pending | Launching | Running | Ended | Dropped

  /** `creating` and `expiring` are the references its creator and its expiry callback hold. */
  datatype Task = Task(creating: bool, body: Body, expiring: bool, starts: nat)

  datatype Phase = Serving | Draining | Down

  datatype World = World(gate: Gate, tasks: seq<Task>, phase: Phase)

  datatype Action =
    | Create
    | Direct(task: nat)      // start at once
    | Delegate(task: nat)    // wait for the caller to poll the task
    | Return(task: nat)      // the creator's deferred Done
    | Get(task: nat)
    | Drop(task: nat)        // tasks/cancel
    | Timeout(task: nat)
    | TimedOut(task: nat)    // the expiry callback's deferred Done
    | Launch(task: nat)      // the body starts
    | Finish(task: nat)
    | Shut
    | Await

  predicate Enabled(w: World, a: Action) {
    match a
    case Create => true
    case Direct(t) => t < |w.tasks| && w.tasks[t].body == Unborn && w.tasks[t].creating
    case Delegate(t) => t < |w.tasks| && w.tasks[t].body == Unborn && w.tasks[t].creating
    case Return(t) => t < |w.tasks| && w.tasks[t].creating && w.tasks[t].body != Unborn
    case Get(t) => t < |w.tasks|
    case Drop(t) => t < |w.tasks|
    case Timeout(t) => t < |w.tasks|
    case TimedOut(t) => t < |w.tasks| && w.tasks[t].expiring
    case Launch(t) => t < |w.tasks| && w.tasks[t].body == Launching
    case Finish(t) => t < |w.tasks| && w.tasks[t].body == Running
    case Shut => w.phase == Serving
    case Await => w.phase == Draining && w.gate.count == 0
  }

  function With(w: World, t: nat, task: Task, gate: Gate): World
    requires t < |w.tasks|
  {
    w.(tasks := w.tasks[t := task], gate := gate)
  }

  function DropPending(task: Task): Task {
    if task.body == Pending then task.(body := Dropped) else task
  }

  function Next(w: World, a: Action): World
    requires Enabled(w, a)
  {
    var g := w.gate;
    match a
    case Create => if g.closed then w else w.(gate := Enter(g), tasks := w.tasks + [Task(true, Unborn, false, 0)])
    case Direct(t) => With(w, t, w.tasks[t].(body := if g.closed then Dropped else Launching), Enter(g))
    case Delegate(t) => With(w, t, w.tasks[t].(body := if g.closed then Dropped else Pending), Register(g, t, t))
    case Return(t) => With(w, t, w.tasks[t].(creating := false), Leave(g))
    case Get(t) =>
      With(w, t, if Starts(g, t) then w.tasks[t].(body := Launching) else DropPending(w.tasks[t]), Acknowledge(g, t))
    case Drop(t) => With(w, t, DropPending(w.tasks[t]), Discard(g, t))
    case Timeout(t) =>
      if Expires(g, t, t) then With(w, t, w.tasks[t].(body := Dropped, expiring := true), Expire(g, t, t)) else w
    case TimedOut(t) => With(w, t, w.tasks[t].(expiring := false), Leave(g))
    case Launch(t) => With(w, t, w.tasks[t].(body := Running, starts := w.tasks[t].starts + 1), g)
    case Finish(t) => With(w, t, w.tasks[t].(body := Ended), Leave(g))
    case Shut =>
      w.(gate := Close(g), phase := Draining, tasks := seq(|w.tasks|, t requires 0 <= t < |w.tasks| => DropPending(w.tasks[t])))
    case Await => w.(phase := Down)
  }

  // ---------------------------------------------------------------- references

  /** The references a task holds on the wait group. */
  function RefsOf(t: Task): nat {
    One(t.creating) + One(t.body == Launching || t.body == Running) + One(t.expiring)
  }

  function Refs(tasks: seq<Task>): nat {
    if tasks == [] then 0 else Refs(tasks[..|tasks| - 1]) + RefsOf(tasks[|tasks| - 1])
  }

  lemma {:induction false} RefsUpdate(tasks: seq<Task>, t: nat, task: Task)
    requires t < |tasks|
    ensures Refs(tasks[t := task]) == Refs(tasks) - RefsOf(tasks[t]) + RefsOf(task)
  {
    var last := |tasks| - 1;
    if t < last {
      RefsUpdate(tasks[..last], t, task);
      assert tasks[t := task][..last] == tasks[..last][t := task];
    } else {
      assert tasks[t := task][..last] == tasks[..last];
    }
  }

  lemma {:induction false} RefsSame(a: seq<Task>, b: seq<Task>)
    requires |a| == |b| && forall t :: 0 <= t < |a| ==> RefsOf(a[t]) == RefsOf(b[t])
    ensures Refs(a) == Refs(b)
  {
    if a != [] {
      RefsSame(a[..|a| - 1], b[..|b| - 1]);
    }
  }

  lemma {:induction false} RefsZero(tasks: seq<Task>)
    requires Refs(tasks) == 0
    ensures forall t :: 0 <= t < |tasks| ==> RefsOf(tasks[t]) == 0
  {
    if tasks != [] {
      RefsZero(tasks[..|tasks| - 1]);
      forall t | 0 <= t < |tasks| ensures RefsOf(tasks[t]) == 0 {
        if t < |tasks| - 1 { assert tasks[..|tasks| - 1][t] == tasks[t]; }
      }
    }
  }

  // ---------------------------------------------------------------- the invariant

  ghost predicate TaskOk(w: World, t: nat)
    requires t < |w.tasks|
  {
    var task := w.tasks[t];
    && (task.body == Pending <==> t in w.gate.pending)
    && task.starts == One(task.body == Running || task.body == Ended)
    && (t in w.gate.pending ==> w.gate.pending[t] == t)
    && (task.body == Unborn ==> task.creating)
    && (task.expiring ==> task.body == Dropped)
  }

  ghost predicate Inv(w: World) {
    && w.gate.count == Refs(w.tasks)
    && (forall t :: 0 <= t < |w.tasks| ==> TaskOk(w, t))
    && (forall t :: t in w.gate.pending ==> t < |w.tasks|)
    && (w.gate.closed ==> w.gate.pending == map[])
    && (w.gate.closed <==> w.phase != Serving)
    && (w.phase == Down ==> w.gate.count == 0)
  }

  lemma InvStep(w: World, a: Action)
    requires Inv(w) && Enabled(w, a)
    ensures Inv(Next(w, a))
  {
    match a
    case Create => CreateStep(w);
    case Shut => ShutStep(w);
    case Await => AwaitStep(w);
    case _ => TaskStep(w, a);
  }

  lemma CreateStep(w: World)
    requires Inv(w)
    ensures Inv(Next(w, Create))
  {
    var w' := Next(w, Create);
    if !w.gate.closed {
      OneMoreTask(w.tasks, Task(true, Unborn, false, 0));
      forall t | 0 <= t < |w'.tasks| ensures TaskOk(w', t) { if t < |w.tasks| { assert TaskOk(w, t); } }
    }
  }

  lemma OneMoreTask(tasks: seq<Task>, task: Task)
    ensures Refs(tasks + [task]) == Refs(tasks) + RefsOf(task)
  {
    assert (tasks + [task])[..|tasks|] == tasks;
  }

  lemma ShutStep(w: World)
    requires Inv(w) && w.phase == Serving
    ensures Inv(Next(w, Shut))
  {
    var w' := Next(w, Shut);
    RefsSame(w.tasks, w'.tasks);
    forall t | 0 <= t < |w'.tasks| ensures TaskOk(w', t) { assert TaskOk(w, t); }
  }

  lemma AwaitStep(w: World)
    requires Inv(w) && w.phase == Draining && w.gate.count == 0
    ensures Inv(Next(w, Await))
  {
    var w' := Next(w, Await);
    forall t | 0 <= t < |w'.tasks| ensures TaskOk(w', t) { assert TaskOk(w, t); }
  }

  lemma TaskStep(w: World, a: Action)
    requires Inv(w) && Enabled(w, a) && !a.Create? && !a.Shut? && !a.Await?
    ensures Inv(Next(w, a))
  {
    var w', t := Next(w, a), a.task;
    assert TaskOk(w, t);
    assert w'.tasks == w.tasks[t := w'.tasks[t]];
    RefsUpdate(w.tasks, t, w'.tasks[t]);
    forall u | 0 <= u < |w'.tasks| ensures TaskOk(w', u) { assert TaskOk(w, u); }
  }

  // ---------------------------------------------------------------- what every step keeps

  /** Once the flag is set, the wait group only goes down. */
  lemma NoNewReferences(w: World, a: Action)
    requires Inv(w) && Enabled(w, a) && w.gate.closed
    ensures Next(w, a).gate.closed && Next(w, a).gate.count <= w.gate.count
  {
  }

  predicate Over(b: Body) {
    b == Dropped || b == Ended
  }

  /** A body that was dropped or has ended stays so, and is not started again. */
  lemma OverStays(w: World, a: Action, t: nat)
    requires Inv(w) && Enabled(w, a) && t < |w.tasks| && Over(w.tasks[t].body)
    ensures t < |Next(w, a).tasks| && Next(w, a).tasks[t].body == w.tasks[t].body && Next(w, a).tasks[t].starts == w.tasks[t].starts
  {
    assert TaskOk(w, t);
  }

  /** No body is running or about to, and nobody can still be admitted. */
  ghost predicate Quiet(w: World) {
    w.gate.closed && w.gate.count == 0 && forall t :: 0 <= t < |w.tasks| ==> Over(w.tasks[t].body)
  }

  lemma DownIsQuiet(w: World)
    requires Inv(w) && w.phase == Down
    ensures Quiet(w)
  {
    RefsZero(w.tasks);
    forall t | 0 <= t < |w.tasks| ensures Over(w.tasks[t].body) {
      assert TaskOk(w, t) && RefsOf(w.tasks[t]) == 0;
    }
  }

  lemma QuietStays(w: World, a: Action)
    requires Inv(w) && Quiet(w) && Enabled(w, a)
    ensures Quiet(Next(w, a)) && |Next(w, a).tasks| == |w.tasks|
    ensures forall t :: 0 <= t < |w.tasks| ==> Next(w, a).tasks[t].starts == w.tasks[t].starts
  {
    var w' := Next(w, a);
    InvStep(w, a);
    NoNewReferences(w, a);
    assert w'.gate.count == Refs(w'.tasks);
    forall t | 0 <= t < |w.tasks| ensures t < |w'.tasks| && Over(w'.tasks[t].body) && w'.tasks[t].starts == w.tasks[t].starts {
      OverStays(w, a, t);
    }
  }

  // ---------------------------------------------------------------- whole runs

  ghost predicate Run(ws: seq<World>, acts: seq<Action>) {
    && |ws| == |acts| + 1 && ws[0] == World(Gate(false, 0, map[]), [], Serving)
    && forall i :: 0 <= i < |acts| ==> StepAt(ws, acts, i)
  }

  ghost predicate StepAt(ws: seq<World>, acts: seq<Action>, i: nat)
    requires i < |acts| && i + 1 < |ws|
  {
    Enabled(ws[i], acts[i]) && ws[i + 1] == Next(ws[i], acts[i])
  }

  lemma {:induction false} RunInv(ws: seq<World>, acts: seq<Action>, i: nat)
    requires Run(ws, acts) && i < |ws|
    ensures Inv(ws[i])
  {
    if i > 0 {
      RunInv(ws, acts, i - 1);
      assert StepAt(ws, acts, i - 1);
      InvStep(ws[i - 1], acts[i - 1]);
    }
  }

  /** Each task body starts at most once. */
  lemma StartsOnce(ws: seq<World>, acts: seq<Action>, i: nat, t: nat)
    requires Run(ws, acts) && i < |ws| && t < |ws[i].tasks|
    ensures ws[i].tasks[t].starts <= 1
  {
    RunInv(ws, acts, i);
    assert TaskOk(ws[i], t);
  }

  /** A discarded or expired task never starts. */
  lemma {:induction false} DroppedNeverStarts(ws: seq<World>, acts: seq<Action>, i: nat, j: nat, t: nat)
    requires Run(ws, acts) && i <= j < |ws| && t < |ws[i].tasks| && ws[i].tasks[t].body == Dropped
    ensures t < |ws[j].tasks| && ws[j].tasks[t].body == Dropped && ws[j].tasks[t].starts == 0
  {
    if i == j {
      RunInv(ws, acts, i);
      assert TaskOk(ws[i], t);
    } else {
      DroppedNeverStarts(ws, acts, i, j - 1, t);
      RunInv(ws, acts, j - 1);
      assert StepAt(ws, acts, j - 1);
      OverStays(ws[j - 1], acts[j - 1], t);
    }
  }

  /** After the closed flag is set the wait group never rises. */
  lemma {:induction false} CountNeverRises(ws: seq<World>, acts: seq<Action>, i: nat, j: nat)
    requires Run(ws, acts) && i <= j < |ws| && ws[i].gate.closed
    ensures ws[j].gate.closed && ws[j].gate.count <= ws[i].gate.count
  {
    if i < j {
      CountNeverRises(ws, acts, i, j - 1);
      RunInv(ws, acts, j - 1);
      assert StepAt(ws, acts, j - 1);
      NoNewReferences(ws[j - 1], acts[j - 1]);
    }
  }

  /** Once the shutdown has returned no worker runs, and none will ever run or start. */
  lemma {:induction false} QuietForEver(ws: seq<World>, acts: seq<Action>, i: nat, j: nat)
    requires Run(ws, acts) && i <= j < |ws| && ws[i].phase == Down
    ensures Quiet(ws[j]) && |ws[j].tasks| == |ws[i].tasks|
    ensures forall t :: 0 <= t < |ws[i].tasks| ==> ws[j].tasks[t].starts == ws[i].tasks[t].starts
  {
    if i == j {
      RunInv(ws, acts, i);
      DownIsQuiet(ws[i]);
    } else {
      QuietForEver(ws, acts, i, j - 1);
      RunInv(ws, acts, j - 1);
      assert StepAt(ws, acts, j - 1);
      QuietStays(ws[j - 1], acts[j - 1]);
    }
  }

  // ---------------------------------------------------------------- which step moves a body

  /** The task that an action is about. */
  predicate About(a: Action, t: nat) {
    !a.Create? && !a.Shut? && !a.Await? && a.task == t
  }

  /** A body is started exactly by a poll while it is pending, or at once while the server runs; dropped exactly while pending or shut out. */
  lemma BodyMoves(w: World, a: Action, t: nat)
    requires Inv(w) && Enabled(w, a) && t < |w.tasks|
    ensures t < |Next(w, a).tasks|
    ensures var before, after := w.tasks[t].body, Next(w, a).tasks[t].body;
      if a == Direct(t) then after == if w.phase == Serving then Launching else Dropped
      else if a == Delegate(t) then after == if w.phase == Serving then Pending else Dropped
      else if a == Get(t) then after == if before == Pending then Launching else before
      else if a == Drop(t) || a == Timeout(t) || a == Shut then after == if before == Pending then Dropped else before
      else if a == Launch(t) then before == Launching && after == Running
      else if a == Finish(t) then before == Running && after == Ended
      else after == before
  {
    assert TaskOk(w, t);
    if !About(a, t) && !a.Create? && !a.Shut? && !a.Await? { assert Next(w, a).tasks[t] == w.tasks[t]; }
  }

  // ---------------------------------------------------------------- cancellation

  /** A cancel drops a body exactly when its start is pending, or it was dropped already. */
  lemma CancelDropsExactly(w: World, t: nat)
    requires Inv(w) && t < |w.tasks|
    ensures Next(w, Drop(t)).tasks[t].body == Dropped <==> t in w.gate.pending || w.tasks[t].body == Dropped
  {
    assert TaskOk(w, t);
  }

  /** A cancel that arrives before the start is registered drops nothing: the body starts all the same. */
  lemma EarlyCancelIsLost() returns (ws: seq<World>, acts: seq<Action>)
    ensures Run(ws, acts) && |acts| == 5 && acts[1] == Drop(0) && |ws[5].tasks| == 1 && ws[5].tasks[0].starts == 1
  {
    var w0 := World(Gate(false, 0, map[]), [], Serving);
    var w1 := Next(w0, Create);
    var w2 := Next(w1, Drop(0));
    var w3 := Next(w2, Delegate(0));
    var w4 := Next(w3, Get(0));
    var w5 := Next(w4, Launch(0));
    ws, acts := [w0, w1, w2, w3, w4, w5], [Create, Drop(0), Delegate(0), Get(0), Launch(0)];
    assert StepAt(ws, acts, 0) && StepAt(ws, acts, 1) && StepAt(ws, acts, 2) && StepAt(ws, acts, 3) && StepAt(ws, acts, 4);
  }
}
