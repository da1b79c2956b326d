# Host agent: a verified model

This project models the stateful cores of the host agent in Dafny and proves what they
promise over every input, every run and every interleaving:

- the host-plan engine: Kahn scheduling, static reference checks and interpolation, and the
  run/resume state machine with retries, recovery, waits, convergence and compensation
  (`Graph`, `Interpolation`, `References`, `Validation`, `RunSpec`, `Runner`, `PassSpec`,
  `Levels`, `Budget`, `Compensation`, `PlanRun`, `History`);
- host admission: per-process counters under a mutex above a host-wide reader/writer lock
  (`Admission`, `AdmissionProtocol`);
- provider generations, the plugin kernel and the blue/green swap of a provider
  (`Decimals`, `Lifecycle`, `Transitions`, `CordisSpec`, `Cordis`, `PluginScripts`,
  `ProviderMounts`, `ProviderSwap`, `SwapTheorems`);
- the capability catalog and the publication of a provider's services (`Catalog`,
  `Publishing`);
- the start and shutdown of asynchronous tasks (`AsyncStart`, `AsyncProtocol`), and the
  redaction that keeps secrets out of a plan's identity (`Redaction`).

`dafny verify dfyconfig.toml` checks the whole project.

## How it is built

Code that updates objects step by step is modelled by classes and methods with loops; each
method is proved against functions and relations on values, and the theorems are lemmas
about those. Concurrent protocols are state machines whose steps are the critical sections
of the source.

The plan runner is a class `RunState` with a log. Whatever the outside world answers (the
dispatcher, the sink, the context, assertions, argument interpolation) is an arbitrary
choice, and calls, checks and writes are recorded in the log, so that every theorem holds
for any behaviour of the tools. `NodeEffect` says what one node may do in one pass; a level
runs its nodes serially or on clones whose events interleave arbitrarily; `PassInv` is kept
over the levels; `RunBooks` over the passes; `HistoryOk` over any sequence of calls.

## Main results

- **Scheduling.** `ValidateGraph` and `TopologicalLevels` accept exactly the well-formed
  acyclic plans; levels partition the plan; a node's level is the length of its longest
  dependency chain.
- **Wait barrier.** Over any sequence of `Run` and `Resume` calls, with states saved and
  reloaded at will, no tool is called for a node at or behind a wait before an accepted
  resume of that wait was handed to the sink (`AnyHistory`, `BarrierMeans`). If a write of a
  resume fails, the returned state already has the wait satisfied. That the resume was
  *stored* first survives opening a wait exactly when the write succeeded or an earlier
  resume of the wait is stored (`OpenedKeepsExactly`); `UnstoredResumeLeaks` is a history in
  which a host that goes on from the returned state dispatches the action behind the wait, as
  every run of that node does that is not hindered.
  A host that goes back to its stored state after such a failure, as the plan launcher does
  by decoding the persisted state, always has it.
- **Drift, progress, idempotence, budget, compensation.** A completed pass leaves no node
  Satisfied on top of an Applied dependency. A node that may run fails only if it was hindered
  or used all its attempts in vain; so a run whose calls succeed completes with every node done,
  from whatever state it starts (`SmoothRunCompletes`), provided that the plan has no waits and no
  node that can only be checked depends on one that can be changed: behind a dependency applied
  in the same pass such a node never succeeds. Repeating a finished run under favourable answers
  only validates. A pass makes at most 256 action and 16384 recovery dispatches and a run at most
  32 times that; an abort compensates exactly the applied nodes that declare it, dependents
  first, each at most once, whatever fails.
- **When a run gives up.** A run completes only if every node that failed was tolerated, and
  then it has converged or used all its passes. It is rolled back only if the sink failed, a
  node failed where that is not tolerated (a node that does not declare it, or one in a level
  with a wait), a sweep found an error, or the passes were exhausted and the plan asks for
  that (`GivesUpOnlyForCause`). After a pass nothing has been done on top of a failure.
- **Requests and revisions.** A resume consumes its fence: no request fits the state it leaves.
  But revisions count up only while a fence is recorded, and the resume takes the record away.
  When the wait is reached again, a request kept from before fits again exactly if the old
  fence was consumed in between and was the first (`OldRequestFits`).
- **References.** A reference gives a value if and only if the names in it lead there from the
  root it names, field by field or by the number of an element; in a text it is replaced by
  the printed value. From a node exactly declared variables, outputs of transitive
  dependencies, and item, input and context where they exist may be referred to.
- **Non-interference.** Arguments and fan-out items of an accepted plan depend only on the
  fixed roots and the outputs of transitive dependencies, so nothing that the run of a node
  of the same level writes changes them (`SiblingsKeepArguments`, for every plan `Validate`
  accepts); a reference outside the ancestors would be visible and is rejected.
- **Admission.** A heavy holder is alone on the host; permits of a process are never mixed;
  the counters are the true numbers and within limits. A caller is let in if and only if no
  permit, limit or waiting heavy caller keeps it out, and turned away only when the queue is
  full (`DecideExactly`). Every step keeps every sleeping caller
  watched, except exactly the pressure exit of the last woken heavy caller on which a normal
  sleeper relies; a concrete run shows that this exit strands the sleeper.
- **Lifecycle and names.** Active entries and Active generations correspond one-to-one;
  Stopped and Failed are absorbing; sessions are the unclosed handles; a generation stops
  only when idle. `StateMoves` is the diagram of the states: which call moves which generation,
  and when. A generation whose activation was undone is out of service for ever. A restore keeps this exactly when it does not claim a taken place. Fresh
  names are guaranteed, over all runs, exactly while the counter does not wrap.
- **Plugin kernel.** A failed Apply restores services, owners, listeners and plugins;
  disposing of the context runs every effect once in exact reverse order and leaves nothing,
  from any state that mounts and disposals lead to; each effect runs while everything its
  plugin injected is still provided, unless a plugin was disposed of while still needed.
  Disposing of a single plugin keeps the others' injected services exactly when nobody needs
  its own.
- **Provider swap.** `ProviderHost.Activate` says from any state what each end of an
  activation does to the lifecycle and to all mounts, and that each end has its cause: the
  state of the generation, an answer from outside, or a key that is taken. An activation that fails after the
  switch leaves its provider as it was if and only if no session is open on the new
  generation and no mounted service is mistaken for one of its own. The source's remark that
  there is no restore path to get wrong does not hold otherwise: with an open session the
  new generation stays active with nothing mounted (`Stuck`), and a session opened on the
  candidate before the call is enough (`CandidateSessionStrands`). After a swap exactly the
  new services are mounted if and only if the predecessor's name finds everything that was
  mounted and nothing new; reactivating the active generation mounts its services beside
  what is there. Services are found by the ends of their keys, which is exact if and only if
  no mounted service of another generation of the provider has a confusable name, one that
  ends in an at sign and the other name; a run of restores leads to a live service that is
  taken down in place of another (`MatchingConfusesNames`). Services displaced to make room
  stay gone when the activation fails afterwards. Over any sequence of activations none of
  which is stuck, everything mounted belongs to the active generation of its provider.
- **Catalog.** Replacement is all or nothing and touches nobody else; a family has one
  provider in every run of publications, accepted or rejected. This compares normalised
  provider names. By name as written it holds exactly when every provider is written in one
  way, since replacement compares written names and displacement normalised ones.
- **Async start and shutdown.** A body starts at most once; one whose pending start was
  discarded or expired never, while a cancel before the start is registered drops nothing;
  the wait group never rises after the closed flag; after shutdown returns nothing runs or
  ever will.
- **Redaction.** Redaction is idempotent; redacted values agree exactly when the originals
  agree outside write-only positions, and redacted plans exactly when the plans differ only in
  secrets. Which part of a schema decides about a position is stated on the schema itself, so an
  argument that a tool declares write-only never shows in a plan or its identity; the one coincidence is an argument that already is the placeholder of a tool all of
  whose arguments are secret. Plans that differ only in secrets have one identity.

## Model

| member | source | states |
|---|---|---|
| `Graph.BuildGraph` | internal/plan/graph.go:82-110 | fails exactly on duplicate identities, unknown or repeated dependencies; otherwise the node map, in-degrees and dependents describe the plan |
| `Graph.ValidateGraph` | internal/plan/graph.go:8-37 | accepts exactly the well-formed plans without a dependency cycle |
| `Graph.TopologicalLevels` | internal/plan/graph.go:39-74 | succeeds on the same plans; levels partition the nodes, every dependency lies in an earlier level, every node waits on the level before it, identities are sorted within a level |
| `Graph.LevelIsLongestChain` | internal/plan/graph.go:49-72 | the level index of a node is the length of its longest dependency chain |
| `Graph.AncestorEarlier` | internal/plan/graph.go:49-72 | transitive dependencies lie in strictly earlier levels |
| `Graph.ReverseTopologicalNodes` | internal/plan/graph.go:120-132 | every node once, before each of its transitive dependencies |
| `Validation.CheckNodes` | internal/plan/schema.go:323-463 | accepts exactly well-shaped nodes whose weighted attempts sum to at most 256 |
| `Validation.CheckReferences` | internal/plan/schema.go:321-439 | accepts exactly the plans in which the arguments of every block, the target, the wait and the fan-out source of each node refer only to what the node may see |
| `Validation.Validate` | internal/plan/schema.go:283-465 | accepts exactly the plans with a legal policy, an acyclic graph, well-shaped nodes, attempts within the budget and accepted references, given the answers of the catalog |
| `Runner.PollReady` | internal/plan/runner.go:850-877 | only readiness checks of the node, the last with the reported verdict |
| `Runner.Recover` | internal/plan/runner.go:602-646 | at most the configured number of recovery dispatches, and unless hindered all of them before giving up; success means a passed check |
| `Runner.RunAttempts` | internal/plan/runner.go:533-672 | at most the node's attempts, each with its recoveries; Applied only after a successful dispatch and, with a validation, a passed check; unless hindered it gives up only after all attempts, each followed by all recoveries, and is then Failed |
| `Runner.RunForEachItem` | internal/plan/runner.go:716-818 | the same budget for one item; success has a passed check, or a successful call where there is none; it gives up only after all attempts with all recoveries, or for a recorded reason; without force an action only after a check that did not pass |
| `Runner.RunForEach` | internal/plan/runner.go:674-714 | at most 64 items with the budget of one item each; Applied means that every item was either filtered out or selected, with at least as many passed checks, or successful calls where there is none, as items were selected; failure is hindered or follows all attempts of an item |
| `Runner.EnterWait` | internal/plan/runner.go:439-484 | a wait touches no tool; reaching it leaves an open fence with the next revision |
| `Runner.RunNode` | internal/plan/runner.go:417-672 | the effect of one node once it is due: budget, what each status certifies (every selected item of a fan-out too), why it may fail, no reuse of an observation under force |
| `Runner.RunNodeWithPreconditions` | internal/plan/runner.go:347-391 | gate, wait, drift, outcome, budget, cause, force, repeat and failure rules of one node, and what it leaves untouched; its error is recorded |
| `RunSpec.GivesUpAfter` | internal/plan/schema.go:467-476 | a node that fails unhindered has made exactly its own number of attempts, or the plan's, or one, and all recoveries after each call that did not help |
| `PassSpec.GuardedNode` | internal/plan/runner.go:352-358 | a node behind an open wait does no work and stays blocking |
| `PassSpec.PassNode` | internal/plan/runner.go:63-71 | one more node keeps the statuses, the events, the repetition and the progress of a pass |
| `PassSpec.ProgressNode` | internal/plan/runner.go:347-391 | under smooth answers a node whose dependencies are delivered is delivered too, with a check or call of its own unless it was done before |
| `Levels.RunSerial` | internal/plan/runner.go:271-296 | a serial level keeps the pass; it is broken off only by the sink, a reached wait, or a failure that is not tolerated there |
| `Levels.Weave` | internal/plan/runner.go:306-326 | any order-preserving interleaving of the events of concurrent nodes |
| `Levels.MergeResults` | internal/plan/runner.go:330-338 | merging the clones' results in level order gives the statuses of the level, with every output of a clone |
| `Levels.RunLevel` | internal/plan/runner.go:269-345 | a level run serially or concurrently keeps the pass, and goes on exactly past tolerated failures; a wait is reached only behind resumed waits |
| `Budget.PassBudget` | internal/plan/schema.go:440-463 | at most 256 action and 16384 recovery dispatches in a pass |
| `PlanRun.RunPass` | internal/plan/runner.go:64-71 | a completed pass has settled every node and tolerated every failure; one that fails has a cause; every pass stays in the budget |
| `PlanRun.NoStaleObservation` | internal/plan/runner.go:363-390 | after a completed pass no node is Satisfied while a direct dependency is Applied |
| `PlanRun.NothingOnFailure` | internal/plan/runner.go:352-358 | after a completed pass a node behind a dependency that did not come through is Skipped or Unknown |
| `PlanRun.CheckConverged` | internal/plan/runner.go:231-267 | only checks; unless one errs, converged if and only if every node is Applied, Satisfied or Skipped; then every done node with a validation was found ready; a failed check makes the node Pending |
| `PlanRun.RunPasses` | internal/plan/runner.go:56-84 | the passes keep the books; exhausted means that all passes of the plan were begun and a node has not converged; a finished plan settles in its first pass without a call, and so does a plan that can be done under smooth answers |
| `Compensation.CompensateApplied` | internal/plan/runner.go:918-966 | exactly the applied nodes that declare it, each at most once, dependents first, failures tolerated |
| `History.AbortRun` | internal/plan/runner.go:217-226 | failed or unknown, then rolled back in order |
| `History.Run` | internal/plan/runner.go:29-96 | from any state: refused, parked, suspended at an open fence, rolled back or completed, each with its reason, within the budget; the history invariant is kept |
| `History.RunBudget` | internal/plan/runner.go:56-84 | at most 32 * 256 action and 32 * 16384 recovery dispatches in a run |
| `History.ReconcileIdempotent` | internal/plan/runner.go:63-84 | repeating a finished run under favourable answers dispatches only validations, completes and leaves every node Satisfied |
| `History.SmoothRunCompletes` | internal/plan/runner.go:56-96 | from any state without an open wait, a run whose calls succeed completes in one pass with every node Applied or Satisfied, each seen ready or called unless it was done before |
| `History.GivesUpOnlyForCause` | internal/plan/runner.go:63-95 | without abortOnExhaustion, a run with no failed write, no errored check after a call and no failure but tolerated ones reaches a wait or completes, and compensates nothing |
| `History.CompletesOnlyTolerant` | internal/plan/runner.go:56-96 | a completed run tolerated every failure; it reports convergence exactly, and otherwise used the passes of the plan |
| `History.AbortMeans` | internal/plan/runner.go:918-966 | an abort undoes exactly the Applied nodes that declare how, at most once each, and leaves every other status alone |
| `History.ValidateResume` | internal/plan/runner.go:173-215 | accepts exactly a request that fits the open fence, in time and with fitting input; lateness is told apart |
| `History.Lapse` | internal/plan/runner.go:107-120 | an expired wait closes the fence and marks run and node expired |
| `History.Resume` | internal/plan/runner.go:102-169 | a request that does not fit changes nothing; one that fits opens exactly that wait, is written first, and only then runs the plan |
| `History.ResumeConsumes` | internal/plan/runner.go:157-164 | after a resume no request fits |
| `History.OldRequestFits` | internal/plan/runner.go:439-443 | an old request fits the fence of a wait reached again if and only if the old fence was consumed and was the first |
| `History.OpenedKeeps` | internal/plan/runner.go:157-167 | opening a reached wait keeps everything behind other waits dormant |
| `History.OpenedKeepsExactly` | internal/plan/runner.go:157-167 | the stored-first invariant survives if and only if this resume was stored or an earlier one of the wait is |
| `History.UnstoredResumeLeaks` | internal/plan/runner.go:165-167 | an accepted plan and a history in which a failed write is followed by the action behind the wait; every run of that node dispatches it unless excluded or hindered |
| `History.BarrierMeans` | internal/plan/runner.go:98-101 | every tool call of a transitive dependent of a wait has an earlier resume of that wait |
| `History.AnyHistory` | internal/plan/runner.go:102-169 | the barrier over any sequence of runs, resumes, saved and reloaded states |
| `Interpolation.MatchAt` | internal/plan/interpolate.go:10 | a match is a dollar sign and a brace, a name without a closing brace, and a closing brace |
| `Interpolation.FirstMatch` | internal/plan/interpolate.go:55 | the leftmost match at or after a position |
| `Interpolation.SubstituteIdentity` | internal/plan/interpolate.go:62-74 | writing every reference back gives the text: nothing else is touched |
| `Interpolation.ResolveDottedPath` | internal/plan/interpolate.go:119-144 | follows the path field by field, or fails |
| `Interpolation.InterpolateString` | internal/plan/interpolate.go:54-74 | a whole reference gives the value itself, otherwise every reference is replaced by its rendering |
| `Interpolation.InterpolateValue` | internal/plan/interpolate.go:32-78 | every leaf interpolated; one failure fails the whole |
| `References.RootReads` | internal/plan/interpolate.go:80-117 | a reference below vars, item, input or context has a value if and only if its names lead there from that root |
| `References.NameReads` | internal/plan/interpolate.go:86-93 | for one name this is the entry of that name |
| `References.OutputReads` | internal/plan/interpolate.go:94-112 | a reference to a node reads below the output of that node, or all of it |
| `References.EmbeddedReads` | internal/plan/interpolate.go:61-74 | within a text a reference is replaced by its printed value and the rest stays |
| `References.RootsAccepted` | internal/plan/schema.go:963-1002 | vars are accepted exactly if declared, item in a fan-out, input in a wait and context where the schemas declare them |
| `References.OutputAccepted` | internal/plan/schema.go:983-986 | an output is accepted exactly from nodes that depend on its node |
| `Interpolation.Visit` | internal/plan/schema.go:922-930 | marks ancestors only, closed under dependencies |
| `Interpolation.GraphAncestors` | internal/plan/schema.go:915-937 | for every node exactly its transitive dependencies |
| `Interpolation.ValidateInterpolations` | internal/plan/schema.go:939-961 | accepts exactly values all of whose references are accepted |
| `Interpolation.SplitsAgree` | internal/plan/schema.go:967 | the static and the runtime splitting of a reference agree on root and name |
| `Interpolation.ReferenceAgrees` | internal/plan/schema.go:963-1002 | an accepted reference resolves alike in contexts that agree on the ancestors |
| `Interpolation.ValueAgrees` | internal/plan/interpolate.go:32-117 | accepted arguments depend only on the fixed roots and the ancestors' outputs |
| `Interpolation.SourceAgrees` | internal/plan/runner.go:1132-1141 | so does an accepted fan-out source |
| `Interpolation.ArgumentsIgnoreSiblings` | internal/plan/graph.go:39-74 | outputs of the node's own level or later ones change neither its arguments nor its items |
| `Validation.SiblingsKeepArguments` | internal/plan/runner.go:308-322 | in an accepted plan, what the run of a sibling writes changes nothing another node of the level interpolates or fans out over |
| `Interpolation.UnlistedOutputInterferes` | internal/plan/schema.go:983-986 | an output outside the ancestors would change the arguments, and is rejected |
| `Admission.Coordinator.constructor` | internal/resource/admission.go:120-155 | limits that are not positive get their default of 2, 1 and 16; all counters zero |
| `Admission.Coordinator.TryReserve` | internal/resource/admission.go:226-255 | reserve, refuse or park, with the counters that go with it |
| `Admission.Coordinator.Release` | internal/resource/admission.go:374-383 | gives the permit back and signals |
| `Admission.Coordinator.DequeueOne` | internal/resource/admission.go:385-392 | leaves the queue counters, never below zero |
| `Admission.Coordinator.Cancel` | internal/resource/admission.go:258-263 | leaves the queue and signals |
| `Admission.Coordinator.SignalAll` | internal/resource/admission.go:394-397 | closes the channel and opens the next |
| `Admission.HostLock.Acquire` | internal/resource/host_lock_unix.go:22-54 | success means holding the lock compatibly, exclusive means alone; failure means not holding it, and unless the file system failed that somebody else holds it in the way |
| `AdmissionProtocol.InvStep` | internal/resource/admission.go:206-270 | every step keeps counters, limits, epochs and lock holders right |
| `AdmissionProtocol.AdmissionExclusion` | internal/resource/host_lock_unix.go:22-54 | in every run a heavy holder is alone on the host and a process never mixes permits |
| `AdmissionProtocol.AdmissionCounters` | internal/resource/admission.go:359-392 | in every run the counters equal the callers that hold and wait, within the limits |
| `AdmissionProtocol.DecideExactly` | internal/resource/admission.go:226-255 | in every run a caller is reserved if and only if nothing keeps it out, turned away if and only if as many wait as may, and parked on the current channel otherwise |
| `AdmissionProtocol.LockExactly` | internal/resource/host_lock_unix.go:27-38 | in every run a caller with a permit can take the lock file if and only if no holder excludes it |
| `AdmissionProtocol.WakeupStep` | internal/resource/admission.go:206-270 | a step leaves a sleeper unwatched if and only if it is the stranding pressure exit |
| `AdmissionProtocol.RunNoLostWakeup` | internal/resource/admission.go:206-270 | without pressure exits of woken heavy callers every sleeper is watched |
| `AdmissionProtocol.NeverAllAsleep` | internal/resource/admission.go:214-269 | in such a run a sleeper's process has a caller that can act |
| `AdmissionProtocol.PressureExitStrands` | internal/resource/admission.go:216-224 | a reachable state with a sleeper, no permit out and nobody to signal |
| `Decimals.DigitsPrint` | internal/cordis/generation.go:141 | decimal printing is read back |
| `Decimals.SuffixRoundTrip` | internal/cordis/generation.go:79-90 | the number after the last dash of a created name is its counter |
| `Lifecycle.NextIdFresh` | internal/cordis/generation.go:134-145 | while the counter does not wrap the next name is not in use |
| `Lifecycle.NamesNeverReused` | internal/cordis/generation.go:67-69 | over any calls, colliding restores among them, no name is given out twice while the counter does not wrap |
| `Lifecycle.WrapReuses` | internal/cordis/generation.go:67-69 | two restores after which the counter wraps onto a name in use |
| `Lifecycle.NextIdFreshExactly` | internal/cordis/generation.go:140-143 | over all runs that reach a counter value the next name is unused if and only if it does not wrap |
| `Lifecycle.RestoreKeeps` | internal/cordis/generation.go:53-77 | a stored record keeps the invariant if and only if it does not claim a taken place |
| `Lifecycle.ActivateKeeps` | internal/cordis/generation.go:164-186 | the new generation is the only active one and the previous one drains |
| `Lifecycle.RollbackKeeps` | internal/cordis/generation.go:191-214 | the rejected generation is out of service and the previous one, or none, is active again |
| `Lifecycle.LifecycleStep` | internal/cordis/generation.go:53-341 | every regular call keeps the invariant |
| `Lifecycle.RunAbsorbs` | internal/cordis/generation.go:312-341 | once stopped or failed, for ever stopped or failed, with no new session |
| `Lifecycle.StopsOnlyIdle` | internal/cordis/generation.go:326-341 | a generation becomes Stopped only with no unclosed handle |
| `Transitions.StateMoves` | internal/cordis/generation.go:53-341 | which call moves which generation from which state to which, in terms of states and unclosed handles |
| `Transitions.SessionMoves` | internal/cordis/generation.go:227-280 | which calls open and close sessions, on which generation |
| `Transitions.RollbackIsFinal` | internal/cordis/generation.go:188-214 | over any run, a generation whose activation was undone is never active again and gains no session |
| `Lifecycle.ProviderLifecycleManager.Restore` | internal/cordis/generation.go:53-77 | stores the record; the invariant is kept exactly when the call succeeds |
| `Lifecycle.ProviderLifecycleManager.CreateCandidate` | internal/cordis/generation.go:134-145 | a new candidate under a name not in use, while the counter does not wrap |
| `Lifecycle.ProviderLifecycleManager.Refresh` | internal/cordis/generation.go:109-125 | only an active generation takes a new declaration, and nothing else changes |
| `Lifecycle.ProviderLifecycleManager.MarkReady` | internal/cordis/generation.go:147-159 | only a candidate becomes ready |
| `Lifecycle.ProviderLifecycleManager.Activate` | internal/cordis/generation.go:164-186 | switches a ready generation and returns the one it displaced |
| `Lifecycle.ProviderLifecycleManager.RollbackActivation` | internal/cordis/generation.go:191-214 | undoes a switch and fails the generation, refused while a session is open |
| `Lifecycle.ProviderLifecycleManager.OpenSession` | internal/cordis/generation.go:227-237 | a counted handle on the active generation, or nothing |
| `Lifecycle.ProviderLifecycleManager.OpenSessionForGeneration` | internal/cordis/generation.go:242-259 | a counted handle on a named generation in service, or nothing |
| `Lifecycle.ProviderLifecycleManager.Close` | internal/cordis/generation.go:269-280 | the first close gives the session back, later ones do nothing |
| `Lifecycle.ProviderLifecycleManager.Drain` | internal/cordis/generation.go:282-310 | success means stopped with no unclosed handle, whatever other callers moved, opened or closed between two polls; failure means that there is one, unless the wait was ended |
| `Lifecycle.ProviderLifecycleManager.Fail` | internal/cordis/generation.go:312-324 | failed, and no longer active |
| `Lifecycle.ProviderLifecycleManager.Dispose` | internal/cordis/generation.go:326-341 | stopped, refused while a session is open |
| `CordisSpec.FailedApplyRestores` | internal/cordis/context.go:160-163 | services, owners, listeners and plugins as before a failed Apply |
| `CordisSpec.MountKeeps` | internal/cordis/context.go:132-171 | a mounted plugin owns its services and everything injected stays provided |
| `CordisSpec.DisposeInjected` | internal/cordis/context.go:348-356 | the others keep what they injected if and only if nobody needs the disposed plugin |
| `CordisSpec.TearDown` | internal/cordis/context.go:391-409 | every effect once, in exact reverse order of registration; nothing left |
| `CordisSpec.TearDownProvided` | internal/cordis/context.go:391-409 | each effect while its plugin's services are provided, when everything injected is provided beforehand |
| `Cordis.Context.Define` | internal/cordis/context.go:89-105 | a new event of a supported mode, once |
| `CordisSpec.MountAppends` | internal/cordis/context.go:149-170 | a mounted plugin is last in the order and its effects last in the history |
| `Cordis.Context.Provide` | internal/cordis/context.go:107-123 | provided by the plugin being applied, once |
| `Cordis.Context.On` | internal/cordis/context.go:192-210 | a numbered registration with its stop |
| `Cordis.Context.StopListener` | internal/cordis/context.go:212-224 | takes out that registration and no other |
| `Cordis.Context.DisposeFiber` | internal/cordis/context.go:309-343 | listeners, effects in reverse, services; only once |
| `Cordis.Context.Mount` | internal/cordis/context.go:132-171 | accepted exactly under its conditions: mounted with all its effects, or the context as before with the effects of a failed Apply undone |
| `PluginScripts.MountDoes` | internal/cordis/context.go:132-171 | a mounted plugin has registered the effects it asked for in order, and provides what it offers first under every free key |
| `Cordis.Context.DisposePlugin` | internal/cordis/context.go:348-356 | one plugin taken down; unknown plugins are no error; what the others injected stays provided if and only if nobody needs it |
| `Cordis.Context.PluginIds` | internal/cordis/context.go:376-389 | the live plugins in mount order |
| `Cordis.Context.Dispose` | internal/cordis/context.go:391-409 | the context ends empty and the log gained the reversed history, with all services provided if they were |
| `ProviderMounts.KeyMatches` | internal/hostmcp/provider_service_plugin.go:213-225 | the ends of a key match a generation if and only if the provider is the same and the names are confusable |
| `ProviderMounts.UnmountExactly` | internal/hostmcp/provider_service_plugin.go:213-227 | exactly the services of the generation are taken down if and only if no mounted service of another one has a confusable name |
| `SwapTheorems.MatchingConfusesNames` | internal/hostmcp/provider_service_plugin.go:213-227 | a run of restores after which taking down one generation takes down the live service of another |
| `ProviderMounts.Mounts.UnmountPlugins` | internal/hostmcp/provider_service_plugin.go:200-208 | exactly the listed plugins are gone, whatever fails |
| `ProviderMounts.Mounts.UnmountGeneration` | internal/hostmcp/provider_service_plugin.go:213-227 | exactly the services whose keys match are gone |
| `ProviderMounts.Mounts.MountGeneration` | internal/hostmcp/provider_service_plugin.go:157-198 | all services in order, or the mounts as before; it fails only if a dependency does not resolve or a key is taken |
| `ProviderMounts.Mounts.Displace` | internal/hostmcp/provider_service_plugin.go:120-151 | exactly other providers' services of the families are gone |
| `ProviderSwap.ProviderHost.Rollback` | internal/hostmcp/recipe_run.go:501-523 | succeeds exactly when no session is open on the new generation; whatever matches its name is unmounted either way |
| `ProviderSwap.ProviderHost.Activate` | internal/hostmcp/recipe_run.go:350-494 | from any state, what each end does to the active map, the states, the sessions and the mounts of every provider, and the cause of each end; never reverted with a session open beforehand |
| `SwapTheorems.FailedSwap` | internal/hostmcp/recipe_run.go:501-523 | a failure after the switch leaves the provider as it was if and only if no session is open and no mounted service is mistaken |
| `SwapTheorems.SwapReversible` | internal/hostmcp/recipe_run.go:496-500 | the same condition on the state before the call, when nobody opens a session meanwhile |
| `SwapTheorems.CandidateSessionStrands` | internal/cordis/generation.go:198-200 | a run in which a session opened on the candidate makes the rollback of its activation fail |
| `SwapTheorems.SuccessfulSwap` | internal/hostmcp/recipe_run.go:449-489 | exactly the new services are mounted if and only if the predecessor's name finds all that was mounted and nothing new |
| `SwapTheorems.ReaffirmedSwap` | internal/hostmcp/recipe_run.go:365-391 | the services are mounted beside what was there, alone if and only if nothing was |
| `SwapTheorems.SettledFailure` | internal/hostmcp/recipe_run.go:501-523 | with names apart, a failed activation changes nothing for the provider if and only if no session is open |
| `SwapTheorems.SettledSuccess` | internal/hostmcp/recipe_run.go:449-489 | with names apart, exactly the new services are mounted for the provider |
| `SwapTheorems.OthersAfter` | internal/hostmcp/recipe_run.go:455-463 | another provider keeps all it has except what was displaced, which stays gone after a failure |
| `SwapTheorems.StorySettled` | internal/hostmcp/recipe_run.go:476-489 | over any sequence of activations none of which is stuck everything mounted is active |
| `Catalog.Registry.DisplaceCapabilityFamilies` | internal/catalog/registry.go:146-174 | removes exactly other providers' operations of the families |
| `Catalog.Registry.ReplaceGeneration` | internal/catalog/registry.go:178-238 | accepted under exact conditions; the whole replacement or nothing; only authorised providers are ever in the overlay |
| `Catalog.Registry.ReplaceProvider` | internal/catalog/registry.go:244-297 | accepted under exact conditions; the whole replacement or nothing |
| `Catalog.Registry.Upsert` | internal/catalog/registry.go:316-336 | accepted exactly when its provider is authorised, it passes the checks, and it is new or refreshes one of the same provider and implementation, never to a lower version |
| `Catalog.Registry.Unregister` | internal/catalog/registry.go:402-410 | removes that operation, an error if it is not an overlay |
| `Catalog.ReplaceGenerationMeans` | internal/catalog/registry.go:204-237 | the provider has exactly the new operations, others are untouched, nothing clashes with the base |
| `Catalog.ReplaceProviderMeans` | internal/catalog/registry.go:274-296 | the same for a replacement by provider |
| `Publishing.Server.RegisterProviderServices` | internal/hostmcp/server.go:470-522 | displaces, then replaces the overlay or leaves the rest as it is |
| `Publishing.PublishedHas` | internal/hostmcp/server.go:470-522 | after an accepted publication every operation of the manifest is served by its provider, for its family, generation and version |
| `Publishing.PublishKeepsExclusive` | internal/hostmcp/server.go:476-498 | a publication, accepted or not, keeps one provider per family |
| `Publishing.RunExclusive` | internal/hostmcp/server.go:470-522 | in every run no family has two providers and nothing clashes with the base |
| `Publishing.RawExclusiveExactly` | internal/catalog/registry.go:219 | by written name this holds in every run if and only if every provider has one spelling |
| `AsyncStart.Starter.Begin` | internal/hostmcp/server.go:1716-1727 | a reference, unless closed |
| `AsyncStart.Starter.RegisterPending` | internal/hostmcp/server.go:1743-1763 | a pending start, unless closed |
| `AsyncStart.Starter.StartPending` | internal/hostmcp/server.go:1765-1783 | takes the pending start and a reference for it, unless closed |
| `AsyncStart.Starter.DiscardPending` | internal/hostmcp/server.go:1785-1793 | the pending start is gone |
| `AsyncStart.Starter.ExpirePending` | internal/hostmcp/server.go:1795-1808 | only the entry that armed the timer expires, with a reference for its callback |
| `AsyncStart.Starter.CloseStarts` | internal/hostmcp/server.go:1810-1821 | closed and nothing pending, in one step |
| `AsyncProtocol.InvStep` | internal/hostmcp/server.go:1628-1842 | every step keeps the wait group equal to the references held |
| `AsyncProtocol.StartsOnce` | internal/hostmcp/server.go:1648-1709 | each body starts at most once |
| `AsyncProtocol.BodyMoves` | internal/hostmcp/server.go:1729-1808 | a body is started exactly by a poll while pending or at once while serving, and dropped exactly while pending or when shut out |
| `AsyncProtocol.DroppedNeverStarts` | internal/hostmcp/server.go:1785-1808 | a task whose pending start was discarded or expired never starts |
| `AsyncProtocol.CancelDropsExactly` | internal/hostmcp/server.go:1785-1793 | a cancel drops a body if and only if its start is pending or was dropped already |
| `AsyncProtocol.EarlyCancelIsLost` | internal/hostmcp/server.go:1743-1763 | a run in which a cancel before the registration drops nothing and the body starts |
| `AsyncProtocol.CountNeverRises` | internal/hostmcp/server.go:1716-1741 | after the closed flag the wait group never rises |
| `AsyncProtocol.QuietForEver` | internal/hostmcp/server.go:1810-1836 | after shutdown returned no worker runs or will ever run |
| `Redaction.RedactEvidence` | internal/hostmcp/evidence_redaction.go:42-72 | the loops compute the schema-directed projection |
| `Redaction.RedactExactly` | internal/hostmcp/evidence_redaction.go:42-72 | redacted values agree if and only if the originals agree outside write-only positions |
| `Redaction.RedactTwice` | internal/hostmcp/evidence_redaction.go:42-72 | redacting twice is redacting once |
| `Redaction.FieldDecided` | internal/hostmcp/evidence_redaction.go:50-61 | a declared property alone decides about its field, otherwise additional properties do, otherwise nothing; write-only means the placeholder |
| `Redaction.ElementDecided` | internal/hostmcp/evidence_redaction.go:62-68 | the schema of the items decides about every element |
| `Redaction.RedactedAt` | internal/hostmcp/evidence_redaction.go:42-72 | at every position below no write-only part exactly the part of the schema for that position is applied |
| `Redaction.RedactPlanEvidence` | internal/hostmcp/evidence_redaction.go:106-136 | the step-by-step edit computes the plan projection |
| `Redaction.ActionTwice` | internal/hostmcp/evidence_redaction.go:138-150 | redacting an action twice is redacting it once, also with withheld arguments |
| `Redaction.InputsExactly` | internal/hostmcp/evidence_redaction.go:113-121 | redacted inputs agree if and only if the inputs agree outside the declared secrets |
| `Redaction.PlanTwice` | internal/hostmcp/evidence_redaction.go:106-136 | a redacted plan is its own redaction |
| `Redaction.ActionsExactly` | internal/hostmcp/evidence_redaction.go:138-150 | redacted actions agree if and only if the actions differ only in secret or withheld arguments, where the placeholder may stand for arguments that are secret as a whole |
| `Redaction.PlaceholderCollides` | internal/hostmcp/evidence_redaction.go:138-150 | that coincidence: of all texts only the placeholder passes for an object |
| `Redaction.PlansExactly` | internal/hostmcp/evidence_redaction.go:106-150 | redacted plans agree if and only if the plans differ only in secrets, or both are withheld altogether |
| `Redaction.IdentityIgnoresSecrets` | internal/hostmcp/plan_run.go:776-811 | documents that differ only in secrets have the same identity hash |
| `Redaction.SecretArgumentHidden` | internal/hostmcp/evidence_redaction.go:106-150 | an argument that its tool declares write-only does not show in the redacted plan, in any block of any node |
| `Redaction.SecretArgumentIgnored` | internal/hostmcp/plan_run.go:776-811 | plans that differ in such an argument have one identity |

## Left out

- Validation.Validate: schema, reference-type, capability and naming checks are the flag of the catalog; schema lookups for input and context references are its function `declared`.
- History.Resume: context deltas are an arbitrary success or failure; context entries, correlation and the clock are not part of the state, their comparisons are fields of the request.
- Runner.RunNode: outputs, argument errors, timeouts, backoff and cancellation are arbitrary choices; values of outputs are not tracked through a run.
- Levels.RunLevel: the concurrency limit only chooses between the serial and the concurrent form; that a merge does not carry deleted outputs is modelled, that `when` may read siblings is an arbitrary choice.
- Aliasing of the caller's copy of a run state (its maps are shared with the runner) is not modelled.
- Admission.HostLock.Acquire: the wait between two attempts is arbitrary interference by other processes; a crash that drops the lock is not modelled.
- `Admit`, `Renew` and persisted reservations, host telemetry and the classification of tools by name.
- Lifecycle: durable records carry no sessions, as in the only caller; time stamps.
- Lifecycle.ProviderLifecycleManager.Drain: other callers do not create or restore generations between two polls.
- Cordis.Context.Mount: a plugin's Apply is a sequence of requests to the context; one that disposes of another plugin is not modelled, nor is event dispatch (emit, serial, parallel, waterfall).
- ProviderMounts.KeyMatches: provider and service names are taken as the manifest validator leaves them, without at signs and slashes.
- ProviderSwap: resolution of injected dependencies, persistence, admission and publication are arbitrary successes or failures; mounted services are a list of keys; the manifest maps and lifecycle events are left out.
- ProviderSwap.ProviderHost.Activate: concurrent callers only open sessions while it runs; they do not close any or move generations.
- Catalog.Registry.ReplaceGeneration: descriptor and schema validation is the parameter `checks`; nil capabilities and the sorted snapshot are left out; case folding is ASCII.
- AsyncProtocol: the cancellation message and the persistence of task records.
- Redaction: the JSON codec and the hash are parameters; the deep copy before editing is implicit in values.
- HTTP and MCP transport, SQLite, systemd, Incus, files, CLI, configuration, OAuth, console streams and cost arithmetic.
