# Petrus, modelled in Dafny

Petrus is a Petri-net runtime with crash-recovery, fencing and replay protocols
around it.  This project models the protocols and proves what they promise over
every input and every run.

- `World`, `WorldSafety`, `WorldGuards`, `WorldVerdicts`, `WorldLedger`,
  `WorldMachine`, `Faults`: the deterministic simulation World
  (`src/petrus/testing/dst.py`) as a total function of its configuration, its
  invariants over all runs, exactly when an attempt is refused, fails its checks or
  runs out of a budget, what its log accounts for, and the interpreter object that
  updates fields in place, proved equal to the function.
- `Replay`, `Progress`, `ProgressOrder`: strict replay of recorded operations, and
  the framed progress file read back after a kill at any byte, with exactly which
  files fold.
- `NetSpec`, `NetMeaning`, `NetRoutes`, `NetAuthoring`, `NetCompiler`, `NetFailures`:
  the authoring compiler (`src/petrus/impetus/dsl.py`): lookup through stamps and
  layered overrides, flattening that preserves it and lists every connection, and
  exactly when it fails.
- `Custody`, `CustodySafety`, `CustodyRuns`, `CustodyCycles`, `CustodyGuards`,
  `CustodyEndings`, `CustodyKeys`: Agent Connection custody
  (`src/petrus/agenticus/connection`) under concurrent compare-and-swap, exactly
  when each operation is granted, what ends custody and what that leaves, and the
  keys that erasure takes away outside every fence.
- `Hands`, `HandsSafety`, `HandsRuns`, `HandsCourse`, `HandsTallies`, `HandsHost`:
  the Hands gateway, its grant ledger and the Episode Attachment as interleaved
  critical sections, the course every accepted call took, what the counters count,
  and the whole of `submit` and `settle` as runs of them.
- `AgentNet`, `AgentSafety`: the agent loop as a one-token Net.
- `Admission`: simulation admission, the firing rule and routing.
- `Retention`, `RetentionSafety`, `RetentionEffects`, `TerritoryCustody`: the
  territory custody ledger, with a crash possible after any write, exactly when each
  write takes effect, and its operations as runs of it.
- `Coordination`, `CoordinationSafety`, `CoordinationRuns`, `CoordinationEffects`,
  `CoordinationLosses`, `Coordinator`: the coordinator and its two driving policies,
  what one drive does, and what a refusing Dispatch or writer costs.
- `Options`, `Sifting`: what the other modules share.

Five promises turn out false as they stand; for each there is a lemma with a
failing input and the exact condition under which the code keeps it:

- A refused attempt writes an attempt frame without a boundary frame, so a run's
  progress file folds if and only if no attempt before the last is stopped by its
  guard (`Progress.RefusalBreaksOrder`, `WorldGuards.RefusedWhen`,
  `Progress.RefusedThenNext`).
- An ended World does not refuse every submission cleanly: it does so if and only
  if the submission's own guards stop it; otherwise the command stays queued, or
  the World fails a second time (`WorldSafety.EndedSubmission`,
  `WorldGuards.FinishThenSubmit`).  The World and replay theorems are about runs
  without the harmful ones.
- A wait may be for an invocation that the Dispatch never took, because a hand-over
  that raises leaves its occurrence in flight (`CoordinationLosses.WaitsForNothing`);
  what is waited for was taken exactly as far as the hand-overs returned
  (`CoordinationLosses.WaitingIsReal`, `CoordinationLosses.NothingLeftBehind`).
- A delivery leaves the buffer before the writer accepts it, so accepted
  deliveries followed by the buffer are the sensed sequence exactly when no drive
  hands a delivery to a writer that refuses it (`CoordinationLosses.DeliveryOrder`,
  `CoordinationLosses.RefusedDeliveryIsLost`).
- `erase` erases the connection's key outside every fence, so a slow second erasure
  may take the key of a connection authorized anew (`CustodyKeys.SecondErasure`);
  all that is usable or about to be published can be opened throughout a run exactly
  when every key is erased while its connection is unused
  (`CustodyKeys.SafeThroughout`), and then `materialize` opens what it is granted
  (`CustodyKeys.MaterializeStillOpens`).

One guard that looks too weak is shown to suffice: an expired release changes a
row by phase without comparing generations, yet can only ever meet its own
generation (`RetentionSafety.TicketsAreCurrent`).

`dafny verify dfyconfig.toml` checks the whole project.

## Model

| member | source | states |
|---|---|---|
| `WorldSafety.TryKeeps` | src/petrus/testing/dst.py:1556-1592 | one attempt on an unfinished World: refused leaves it untouched; accepted adds exactly its own operation; a budget or checker failure adds a last failure operation that says how many operations were accepted before it; the invariant and the journal prefix are kept |
| `WorldSafety.RunKeeps` | src/petrus/testing/dst.py:1084-1302 | over every orderly run: queue sorted, valid, within the live generation and never in the past, only profile commands queued between attempts, all budgets respected, operation instants never decrease, positions dense, every command and fault of the World's own profile, a failure operation only last, log and journal only grow, an ended World never changes |
| `WorldSafety.ExecutesLeast` | src/petrus/testing/dst.py:1099-1138 | from any state of the core invariant and for every outcome, accepted then failed included, whatever a step logs is the execution of the least (instant, order) entry of the whole queue |
| `WorldSafety.SubmissionRunsItself` | src/petrus/testing/dst.py:1084-1094 | a submission that logs anything executes itself, as the least entry once queued: the source's assertion on the executed order cannot fail |
| `WorldSafety.EveryExecutionIsLeast` | src/petrus/testing/dst.py:1084-1138 | over every orderly run each logged execution was the least entry its attempt had to choose from |
| `WorldSafety.ConstructKeeps` | src/petrus/testing/dst.py:1003-1052 | a constructed World satisfies the invariant with an empty operation log |
| `WorldSafety.EndedRefuses` | src/petrus/testing/dst.py:1642-1645 | an ended World refuses every harmless attempt, a submission stopped by its own guards included, and is unchanged |
| `WorldSafety.EndedSubmission` | src/petrus/testing/dst.py:1084-1102 | exactly what a submission to an ended World does: refused without a trace if and only if its own guards stop it; otherwise it stays queued, or at the queue budget overwrites the ending and logs a second failure |
| `WorldGuards.RefusedWhen` | src/petrus/testing/dst.py:1084-1302 | an attempt is refused if and only if its guard stops it, one guard for each kind of attempt, read off the World before the attempt: sampling, checking and running a command never refuse |
| `WorldGuards.FinishThenSubmit` | src/petrus/testing/dst.py:1084-1102 | the failing input: after any successful finish outside a fair phase, a valid submission raises and stays queued in the ended World |
| `WorldVerdicts.AttemptVerdict` | src/petrus/testing/dst.py:1465-1515 | from any state: an attempt is violated exactly when it journals a check that did not pass, and names those checkers, in order, and no others; it runs out of a profile resource exactly when it journals usage over a limit; its last operation says the same |
| `WorldVerdicts.RunIsJudged` | src/petrus/testing/dst.py:1465-1515 | over every orderly run: the World failed its invariant if and only if its journal holds a check that did not pass, blames exactly those checkers, and ran out of a resource if and only if a journalled sample says so |
| `WorldVerdicts.FailsAtOnce` | src/petrus/testing/dst.py:1465-1483 | a run that fails its invariant does so at one attempt: every check journalled before it passed, and the failed ones are among what it journalled |
| `WorldVerdicts.PerformInspects` | src/petrus/testing/dst.py:1446-1487 | the checks of an attempt are one answer per checker, in order, each its checker's own answer on what the profile then shows: after the attempt's own effect on the application, for a crash before the application is dropped |
| `WorldLedger.AttemptDoes` | src/petrus/testing/dst.py:1084-1302 | what an accepted attempt counts, files and takes from the queue: the entry run has left it, and exactly what the profile answered has entered it, at its instants and in its order; a crash logs how much it discarded; an observation logs what the profile shows |
| `WorldLedger.RunBalances` | src/petrus/testing/dst.py:1084-1302 | over every orderly run that has not failed, the log accounts for every counter: actions, polls, reloads, generations, timer advances, the fair phase; and every order given out is queued, executed or discarded |
| `WorldLedger.RunRunsOnce` | src/petrus/testing/dst.py:1402-1424 | over every orderly run that has not failed no queued command runs twice, and none that ran is still queued |
| `WorldLedger.AttemptIsHonest` | src/petrus/testing/dst.py:1546-1555 | a budget is reported exhausted only when the attempt needed more of it than is left |
| `WorldSafety.ProtocolNeverBreaks` | src/petrus/testing/dst.py:1409-1424 | a profile that schedules only valid commands at or after now and reports the budgeted resources never breaks an attempt, from any state |
| `WorldMachine.ConsultFaults` | src/petrus/testing/dst.py:1609-1622 | the in-place pass over armed faults returns exactly the fired and the retained ones |
| `Faults.FiresOnce` | src/petrus/testing/dst.py:1609-1622 | under any consultations, whatever else is armed, a fault fires at exactly the consultation of its target that its occurrence names, and the other faults fire as if it were absent |
| `Faults.CountsDown` | src/petrus/testing/dst.py:930-933 | a fault stays armed until its target has been consulted often enough and is gone from then on |
| `Faults.ScriptIsServed` | src/petrus/testing/dst.py:935-954 | a whole profile operation: each consultation is chosen from the answers before it and told the instant, the next identity of its namespace, or the faults then due; it ends by itself or at its bound with what it makes of its answers |
| `WorldMachine.Interpreter.StepOnce` | src/petrus/testing/dst.py:1099-1138 | the field-updating step equals the value semantics the run theorems are about |
| `WorldMachine.Interpreter.EnqueueSchedule` | src/petrus/testing/dst.py:1409-1424 | a profile schedule is validated as a whole before any of it is pushed on the heap |
| `WorldMachine.Interpreter.SampleResources` | src/petrus/testing/dst.py:1488-1515 | sampling journals the usage and raises on the first resource over its limit in name order |
| `WorldMachine.Interpreter.RecordAllChecks` | src/petrus/testing/dst.py:1465-1483 | the loop over captured checks journals every one before the failing ones are raised together, and equals the functional recording whose verdict `WorldVerdicts.AttemptVerdict` states |
| `WorldMachine.Interpreter.CrashAt` | src/petrus/testing/dst.py:1199-1226 | a crash revokes the generation, discards its queue, logs and journals |
| `WorldMachine.Interpreter.RestartGeneration` | src/petrus/testing/dst.py:1231-1248 | a restart loads the next generation within the reload budget |
| `WorldMachine.Interpreter.Attempted` | src/petrus/testing/dst.py:1556-1592 | the in-place attempt, failure operation included, equals `Try` |
| `WorldMachine.Interpreter.Open` | src/petrus/testing/dst.py:1003-1052 | the constructor's remaining steps equal `Construct` |
| `WorldMachine.Interpreter.RunUntil` | src/petrus/testing/dst.py:1686-1701 | polling until a predicate holds terminates, is an ordinary run of polls and steps, and a found observation satisfies the predicate and is the last logged operation |
| `Replay.ReplayOperations` | src/petrus/testing/dst.py:2430-2458 | the replay loop over the mutable World reproduces all operations exactly when the functional replay does, and ends in the same World |
| `Replay.RunReplays` | src/petrus/testing/dst.py:2430-2458 | from any ready World, replaying what a run still has to log, with refused attempts anywhere in between, reproduces the run's final World |
| `Replay.ReplayFidelity` | src/petrus/testing/dst.py:2391-2458 | every ended orderly run (success, budget failure or checker failure) replays on a fresh World to the very same World, and its artifact passes |
| `Replay.ReplayIsRun` | src/petrus/testing/dst.py:2461-2548 | a successful replay is itself an orderly run whose attempts produce exactly the recorded operations |
| `Replay.ArtifactCoherent` | src/petrus/testing/dst.py:769-817 | every ended orderly run hands out an artifact that passes the whole validator: dense operations, ordered unique check entries, distinct checkers, the terminal failure, and the profile of every command, fault and failed attempt |
| `Replay.ReplayCharacterized` | src/petrus/testing/dst.py:2391-2428 | replay accepts an artifact whose failure is stated coherently if and only if some orderly run has it |
| `Replay.FirstIsUnpaired` | src/petrus/testing/dst.py:2430-2458 | the first operation a run adds is never mistaken for the second half of an accepted-then-failed pair |
| `Progress.ReadCut` | src/petrus/testing/dst.py:2177-2206 | for every byte at which the file is cut, reading back yields exactly the frames whose whole lines survived |
| `Progress.FoldFrames` | src/petrus/testing/dst.py:2209-2316 | the fold loop equals the frame-by-frame fold with the same first error |
| `Progress.FoldRun` | src/petrus/testing/dst.py:2209-2316 | after any number of frames of a run the fold holds exactly the World of the last boundary, with an unfinished attempt exactly between an attempt and its boundary |
| `Progress.CrashConsistent` | src/petrus/testing/dst.py:1928-1994 | for every run whose attempts pass their guards and every cut that keeps the started line, read then fold reports no error, yields the operations and journal of the last boundary, and reports an unfinished attempt iff the cut lies between attempt and boundary |
| `Progress.RefusalBreaksOrder` | src/petrus/testing/dst.py:1556-1561 | a run's frames fold without error if and only if no attempt before the last is stopped by its own guard: a refused attempt writes no boundary frame |
| `Progress.RefusedThenNext` | src/petrus/testing/dst.py:1556-1561 | an attempt refused for a generation that is not live, followed by anything, makes the fold report an error |
| `Progress.CompletedSession` | src/petrus/testing/dst.py:2209-2316 | a closed session with its artifact, its attempts past their guards and whether or not a generation was still live, folds as completed with prefix and artifact agreeing |
| `ProgressOrder.FoldsWhen` | src/petrus/testing/dst.py:2209-2316 | frames fold without error if and only if each is numbered in order, stands where it may and goes on where the last boundary ended, and the file was started; otherwise the first that does not says which error is reported, and no artifact is |
| `ProgressOrder.ReadsWhen` | src/petrus/testing/dst.py:2177-2206 | a file is refused unread exactly when it is too long, or ends within a line and may not |
| `ProgressOrder.DecodesUpTo` | src/petrus/testing/dst.py:2177-2206 | reading yields the frames up to the first line that does not decode, and says whether there is one |
| `NetMeaning.FlattenPreservesMeaning` | src/petrus/impetus/dsl.py:728-784 | whenever flattening succeeds, every path of the flat specification exists, is configured and is valued exactly as recursive lookup says of the root |
| `NetMeaning.ComposeMeans` | src/petrus/impetus/dsl.py:728-756 | composing any specification under any prefix reproduces its meaning there and changes nothing outside the prefix |
| `NetRoutes.FlattenLists` | src/petrus/impetus/dsl.py:728-785 | a flat specification holds exactly what the routes through stamps lead to, in route order: every connection of every stamped specification, none lost, none twice, each end under the prefixes of its route, and every node declared where it is first mentioned |
| `NetRoutes.ArcsHaveRoutes` | src/petrus/impetus/dsl.py:758-785 | a flat connection is there if and only if some route from the root leads to it |
| `NetFailures.FlattenSucceeds` | src/petrus/impetus/dsl.py:728-784 | flattening succeeds if and only if no stamp walk from the root leads to a repeated specification, a stamped one with a completion, a connection without an end, or an override without a node |
| `NetFailures.FlattenExplained` | src/petrus/impetus/dsl.py:728-804 | whatever error flattening raises, a stamp walk from the root leads to exactly that fault; a cycle error to a real stamp cycle |
| `NetFailures.ComposedIsSound` | src/petrus/impetus/dsl.py:734-756 | from a specification that composes no walk leads to anything wrong |
| `NetFailures.CycleFails` | src/petrus/impetus/dsl.py:734-747 | a reachable stamp cycle makes flattening fail, with the cycle error where cycles are all that is wrong |
| `NetMeaning.MissingIsAbsent` | src/petrus/impetus/dsl.py:642-707 | a node that does not exist has no configuration and the default value |
| `NetAuthoring.MergeIsLayering` | src/petrus/impetus/dsl.py:449-477 | merging an outer partial override into an inner one acts like applying them in order, outer fields winning |
| `NetAuthoring.ShorterUnaffected` | src/petrus/impetus/dsl.py:636-707 | a change at a node cannot be seen from any shorter path, not even through stamp cycles, because the relative path shrinks |
| `NetAuthoring.ConfigureMeans` | src/petrus/impetus/dsl.py:397-447 | stating a configuration succeeds exactly when nothing different is configured, and is then what the node means |
| `NetAuthoring.OverrideMeans` | src/petrus/impetus/dsl.py:412-477 | an override succeeds exactly on configured nodes and changes the current meaning by exactly its fields |
| `NetAuthoring.StampMeans` | src/petrus/impetus/dsl.py:592-634 | after stamping, everything below the scope means what the source means, with no earlier override left |
| `NetAuthoring.StampsWhen` | src/petrus/impetus/dsl.py:592-634 | a scope may be stamped, or stamped again, if and only if it meets no other stamp and contains no owned node |
| `NetAuthoring.StampAuthors` | src/petrus/impetus/dsl.py:592-634 | stamping keeps stamp prefixes pairwise non-nested and disjoint from owned nodes |
| `NetAuthoring.HandleAuthors` | src/petrus/impetus/dsl.py:543-557 | taking a node handle keeps the authoring invariant |
| `NetAuthoring.Workshop.Handle` | src/petrus/impetus/dsl.py:543-557 | the in-place update equals `WithHandle` and keeps every specification well formed |
| `NetAuthoring.Workshop.Configure` | src/petrus/impetus/dsl.py:397-447 | in place: exactly when allowed, the new meaning; otherwise nothing changes but the handle |
| `NetAuthoring.Workshop.Override` | src/petrus/impetus/dsl.py:449-477 | in place: exactly when allowed, the layered override |
| `NetAuthoring.Workshop.Stamp` | src/petrus/impetus/dsl.py:592-634 | in place: refuses exactly the overlapping scopes |
| `NetAuthoring.Workshop.ConnectNodes` | src/petrus/impetus/dsl.py:583-590 | a connection is recorded after both its ends |
| `NetCompiler.ComposeInto` | src/petrus/impetus/dsl.py:728-784 | the in-place composition loop equals the recursive definition, errors included, whose connections `NetRoutes.FlattenLists` states |
| `NetCompiler.OverlayInto` | src/petrus/impetus/dsl.py:749-756 | the override loop writes exactly the overridden values, or fails on a missing node |
| `NetCompiler.FlattenIsComplete` | src/petrus/impetus/dsl.py:718-726 | a flattened specification has no stamps, no overrides, declarations before connections, and configurations only for its nodes |
| `NetCompiler.FlattenTwice` | src/petrus/impetus/dsl.py:718-726 | flattening a flattened specification changes nothing |
| `CustodySafety.InvIsValid` | src/petrus/agenticus/connection/storage.py:231-388 | the invariant implies everything the storage validator checks |
| `CustodySafety.TransformKeeps` | src/petrus/agenticus/connection/custody.py:268-812 | every custody operation maps a valid, rightly sealed snapshot to one |
| `CustodySafety.SupersedeKeeps` | src/petrus/agenticus/connection/custody.py:733-776 | replacing a connection's authority ends exactly its leases and keeps validity |
| `CustodySafety.EndKeeps` | src/petrus/agenticus/connection/custody.py:985-1024 | ending any set of live leases, refresh settlement included, keeps validity; what it leaves of the connections is `CustodyEndings.TransformSettles` |
| `CustodyEndings.TransformEnds` | src/petrus/agenticus/connection/custody.py:268-812 | every operation ends exactly the live leases that its kind says, each with its reason, changes no other lease but the one it activates or renews, and only a materialization adds one |
| `CustodyEndings.TransformSettles` | src/petrus/agenticus/connection/custody.py:994-1024 | whatever ends a refresh without a checkpoint, release, expiry, host removal or re-enrolment, or a failed materialization: an activated one leaves its connection without state, one epoch on and to be authorized anew; any other leaves it ready with epoch, version and state unchanged |
| `CustodyEndings.LockedUntilAuthorized` | src/petrus/agenticus/connection/custody.py:1026-1038 | over every run: a connection that is not usable, one after an ambiguous refresh included, is usable and materialized again only after an authorization of it was published |
| `CustodyEndings.TransformMovesHosts` | src/petrus/agenticus/connection/custody.py:268-315 | enrolling and removing move a host's epoch on by one and its activity as named; nothing else touches any host |
| `CustodyEndings.RemovedIsRefused` | src/petrus/agenticus/connection/custody.py:954-959 | a host that is removed or unknown is granted nothing |
| `CustodyGuards.TransformsWhen` | src/petrus/agenticus/connection/custody.py:268-812 | each operation goes through if and only if its guard, read off the stored snapshot, grants it |
| `CustodyGuards.TransformDecides` | src/petrus/agenticus/connection/custody.py:317-369 | an operation that decides on a connection moves exactly that connection, epoch and version by exactly its own amounts, so a new state always has a new version |
| `CustodyRuns.PublishKeeps` | src/petrus/agenticus/connection/custody.py:838-882 | a publication advances the revision and the audit by exactly one dense record, keeps validity, and loses nothing |
| `CustodyRuns.RunKeeps` | src/petrus/agenticus/connection/custody.py:838-882 | under every interleaving of concurrent commits every stored snapshot is valid, traceable and rightly sealed, and consecutive snapshots are publications |
| `CustodyRuns.SwapIsAtomic` | src/petrus/agenticus/connection/storage.py:156-178 | a swap that compares revisions only succeeds only on the very snapshot that was loaded |
| `CustodyRuns.PublishedOnce` | src/petrus/agenticus/connection/custody.py:848-855 | each operation id is published at most once over every run |
| `CustodyRuns.ContentionIsReal` | src/petrus/agenticus/connection/custody.py:847-882 | a commit that gave up lost to at least eight publications since it began |
| `CustodyRuns.Commit` | src/petrus/agenticus/connection/custody.py:838-882 | the retry loop against any number of rivals and with a new clock reading per attempt: committed means the store holds the publication, at the reading of the attempt that won, on what was there, refused and contended leave only others' publications, contention means at least eight of them |
| `CustodyRuns.ConnectionStorage.CompareAndSwap` | src/petrus/agenticus/connection/storage.py:156-178 | the row is replaced exactly when the expected revision is current |
| `CustodyRuns.StaleRefused` | src/petrus/agenticus/connection/custody.py:1040-1084 | no clock reading or mode revives a stale fence: admit, activate, renew and checkpoint all refuse it |
| `CustodyRuns.StaleRefusedForever` | src/petrus/agenticus/connection/custody.py:500-544 | a fence stale in one stored snapshot is refused in every later one, over every run |
| `CustodyRuns.CurrentMeans` | src/petrus/agenticus/connection/custody.py:1073-1084 | on valid snapshots the full currency check is equivalent to: lease present, unreleased, unexpired and the fence exactly the one handed out with it |
| `CustodyRuns.MaterializeOpens` | src/petrus/agenticus/connection/custody.py:371-451 | what materialize opens was sealed under exactly the context it opens with |
| `CustodyRuns.CheckpointsNeverCollide` | src/petrus/agenticus/connection/custody.py:500-557 | no two checkpoints of a connection publish over the same base version, over every run |
| `CustodyRuns.PublishKeepsAccounts` | src/petrus/agenticus/connection/custody.py:317-369 | a publication keeps the account of every connection, an authorization naming the account it captured |
| `CustodyKeys.TransformOrigins` | src/petrus/agenticus/connection/custody.py:268-812 | whatever state a usable connection holds after any custody operation, it held usable before, or this operation sealed it |
| `CustodyKeys.ErasesOnlyPending` | src/petrus/agenticus/connection/custody.py:628-647 | an erasure comes to hold a key only by finding its connection awaiting erasure, and no key changes otherwise |
| `CustodyKeys.StaysSafe` | src/petrus/agenticus/connection/custody.py:628-673 | one step of any commit or erasure keeps every usable state and every state under way openable if and only if it does not erase the key of a connection in use |
| `CustodyKeys.SafeThroughout` | src/petrus/agenticus/connection/custody.py:628-673 | over every interleaving of commits and erasures: all that is usable or about to be published can be opened throughout if and only if every key is erased at a moment when its connection is unused |
| `CustodyKeys.MaterializeStillOpens` | src/petrus/agenticus/connection/custody.py:371-451 | in a safe state what materialize opens is sealed under its own context and with the key that is still there |
| `CustodyKeys.LateErasureBreaks` | src/petrus/agenticus/connection/custody.py:647 | erasing the key of a usable connection leaves the stored snapshot as it is and its state not openable |
| `CustodyKeys.SecondErasure` | src/petrus/agenticus/connection/custody.py:628-673 | the failing run: one of two erasures finishes, the connection is authorized anew, the other then erases the new key, and the connection is ready with a state that cannot be opened |
| `CustodyCycles.MaterializedIsCurrent` | src/petrus/agenticus/connection/custody.py:371-451 | a granted materialization is current, in exactly its mode, until exactly its expiry |
| `CustodyCycles.RefreshCycle` | src/petrus/agenticus/connection/custody.py:371-557 | materialize, activate, checkpoint before expiry always succeeds, publishes the next version, frees the connection, spends the fence and touches nothing else; without activation the checkpoint is refused |
| `CustodyCycles.RenewMoves` | src/petrus/agenticus/connection/custody.py:475-498 | a renewal moves the deadline and nothing else |
| `CustodyCycles.ErasureCycle` | src/petrus/agenticus/connection/custody.py:597-673 | revoke, prepare, finish each succeed in turn, erase the provider state and make every earlier fence stale |
| `HandsRuns.RunKeeps` | src/petrus/agenticus/hands/gateway.py:293-604 | every interleaving of calls, grant changes, cancellation and settlement keeps all the invariants below |
| `HandsRuns.SettlementBarrier` | src/petrus/agenticus/attachment/episode.py:345-366 | once admission is closed and every gateway has drained, no adapter entry, stage or commit happens in any continuation |
| `HandsRuns.ArchiveIsFinal` | src/petrus/agenticus/attachment/episode.py:361-366 | in every run an exported archive equals the target then and for ever, and every stage was committed or discarded |
| `HandsRuns.CommitsBehindFence` | src/petrus/agenticus/hands/gateway.py:446-505 | the target changes only by the call that holds the barrier, while the fence is open and not aborted |
| `HandsRuns.AdmitsBehindFence` | src/petrus/agenticus/hands/gateway.py:482-505 | a result moves towards admission only while the fence is open and not aborted |
| `HandsRuns.NoCommitAfterCancel` | src/petrus/agenticus/attachment/episode.py:318-333 | no commit follows a completed cancellation or the start of settlement |
| `HandsRuns.ExactlyOnce` | src/petrus/agenticus/hands/gateway.py:322-347 | two submissions of one id never own it together; answered ones agree on request and reply; a conflict means a different request |
| `HandsRuns.AnsweredForever` | src/petrus/agenticus/hands/gateway.py:322-347 | once an id was answered, every later identical request gets that reply and every differing one conflicts |
| `HandsRuns.GatewayConservation` | src/petrus/agenticus/hands/gateway.py:523-604 | in every run entries equal the ids entered, in-flight equals unresolved claims, commits equal the gateway's target writes, none repeated; at rest admitted plus rejections equal the sequence and stages equal commits, discards and discard failures |
| `HandsRuns.GrantBudget` | src/petrus/agenticus/hands/grants.py:189-229 | adapter entries charged to a grant epoch, over all gateways sharing the ledger and every run, never exceed the limit it was opened with |
| `HandsRuns.NoGrantNoEntry` | src/petrus/agenticus/hands/grants.py:215-229 | an epoch that was never opened has no entries |
| `HandsRuns.LedgerBounded` | src/petrus/agenticus/hands/gateway.py:322-341 | in every run no gateway answers for more ids than its ledger may hold |
| `HandsRuns.UncertainUntilVerified` | src/petrus/agenticus/attachment/episode.py:454-497 | a settlement whose cleanup was not verified stays uncertain until a retry verifies it |
| `HandsTallies.RunAnswered` | src/petrus/agenticus/hands/gateway.py:264-276 | in every run and for every gateway: the results counted as admitted and as rejected are the answers of its ledger, plus what is recorded and not yet published and what was refused without a claim; every request is counted |
| `HandsCourse.RunFollowsCourse` | src/petrus/agenticus/hands/gateway.py:293-505 | in every run a call that is accepted made every move the gateway demands, in order and no other: claimed its id, passed the prechecks with the fence open and its grant current, spent one call of it, entered, and passed the postchecks, a write under the barrier; or it was told the answer of one that did |
| `HandsCourse.EntriesWereChecked` | src/petrus/agenticus/hands/gateway.py:362-410 | in every run whatever crossed into an adapter was let in by prechecks that refused nothing, with the fence open and the grant current, and spent a call of that grant |
| `HandsCourse.SectionDecides` | src/petrus/agenticus/hands/gateway.py:362-505 | every deciding section passes its call or rejects it as exactly the first reason that applies: the closed fence, cancellation, the stale grant, then the rest; the spent budget; the adapter |
| `HandsSafety.AdvanceKeepsOnce` | src/petrus/agenticus/hands/gateway.py:446-480 | each call id commits at most once |
| `HandsHost.Host.Submit` | src/petrus/agenticus/hands/gateway.py:293-505 | the whole of submit with other threads acting between any two sections is a run of the protocol; it reaches an answer unless nobody else moves any more, and the answer is what the gateway's ledger holds for the id; a call that came to own its id is accepted only if every check, the adapter and the rendering said yes, is rejected only for a reason it was given, and is never in the adapter when the prechecks refuse it |
| `HandsHost.Host.ClaimId` | src/petrus/agenticus/hands/gateway.py:322-341 | the waiting claim loop ends with an owned id, a refusal, a conflict or the owner's published reply |
| `HandsHost.Host.ExecuteWrite` | src/petrus/agenticus/hands/gateway.py:446-480 | stage, wait for the barrier, recheck, commit or discard: the path never gets stuck and ends accepting or rejecting |
| `HandsHost.Host.Answer` | src/petrus/agenticus/hands/gateway.py:343-347 | recording, counting and publishing give the call the reply it earned: accepted exactly if it was accepted and could be rendered |
| `HandsHost.Host.DrainAll` | src/petrus/agenticus/hands/gateway.py:282-291 | the drain loops over all gateways end with every one drained, or with a timeout |
| `HandsHost.Host.Settle` | src/petrus/agenticus/attachment/episode.py:335-395 | the whole of settle, under interference, is a run of the protocol; a settlement means archive equals target, every stage committed or discarded, no grant left; a timeout leaves admission closed and nothing settled |
| `HandsHost.OtherSteps` | src/petrus/agenticus/attachment/episode.py:254-258 | other threads leave a call's stage and its hold on the barrier alone, over any number of steps |
| `AgentSafety.LoopIsSafe` | src/petrus/agenticus/program/agent_net.py:493-636 | every reachable marking holds one token; handlers never raise; an activity answer is refused only when its own checks reject it; exactly the terminal marking enables nothing, and any other exactly one of the five transitions |
| `AgentSafety.FireGood` | src/petrus/agenticus/program/agent_net.py:460-490 | a firing keeps the token invariant and raises exactly when an activity's answer is unacceptable |
| `AgentSafety.ResultsInOrder` | src/petrus/agenticus/program/agent_net.py:313-326 | in every run results are exactly what the firings answered the ordered prefix of the batch with, and the next phase starts from the whole batch's |
| `AgentSafety.PhasesCarryOn` | src/petrus/agenticus/program/agent_net.py:544-609 | in every run a state that waits for a model phase is the start itself, or carries the output and continuation of the answer before it and the turn of the start; the terminal refers to the last answer of the run and to the start's episode and turn |
| `AgentSafety.OnlyGrantedToolsRun` | src/petrus/agenticus/program/agent_net.py:493-503 | in every run a tool that runs is one the start grants, within its tool budget, and the next unanswered proposal of the last model answer; a proposal is rejected only when that is not so |
| `AgentSafety.LoopTerminates` | src/petrus/agenticus/program/agent_net.py:521-636 | no run exceeds 34 firings per remaining phase; a run that cannot go on holds one terminal whose phases and tools are those of the run, within limits, with a budget code only at that limit, and which refers to the last model answer and the start's episode and turn |
| `AgentSafety.EndIsExplained` | src/petrus/agenticus/program/agent_net.py:544-636 | in every run the terminal code is explained by the token and firing that produced it |
| `AgentSafety.RejectionAnswers` | src/petrus/agenticus/program/agent_net.py:611-625 | a tool that may not run is answered in its place with the reason and is not counted as executed |
| `Admission.Route` | src/petrus/impetus/petrinet/routing.py:7-17 | the routing loop gives each place, in arc order, every token each arc to it admits |
| `Admission.CompleteQueue` | src/petrus/impetus/petrinet/firing.py:55-78 | the second filter drops nothing: each place gains exactly what was routed to it, at its end |
| `Admission.RemovesFrontmost` | src/petrus/impetus/petrinet/marking.py:282-304 | consuming removes the front-most equal token and keeps the order of the rest |
| `Admission.FiringConserves` | src/petrus/impetus/petrinet/firing.py:40-78 | for every Net a firing removes what it carries and adds one token per carried token and admitting output arc |
| `Admission.FiringMoves` | src/petrus/impetus/petrinet/firing.py:43-58 | for every Net: a firing leaves at each place the tokens it did not select from there, in their order, followed by what its output arcs route there |
| `Admission.RoutedInOrder` | src/petrus/impetus/petrinet/routing.py:7-18 | what earlier output arcs route to a place comes before what later ones do |
| `Admission.AdmittedExactly` | src/petrus/impetus/petrinet/schema.py:314-322 | an arc forwards exactly the tokens of its colour, each once, in order |
| `Admission.PlayColoured` | src/petrus/impetus/petrinet/schema.py:390-405 | in every run a coloured place holds tokens of its own colour only, since it lends its colour to every arc at it |
| `Admission.AdmissibleMeans` | src/petrus/simulation.py:74-214 | a Net, a marking and an action limit are admitted if and only if they keep every rule, stated arc by arc and place by place |
| `Admission.ScansBounded` | src/petrus/simulation.py:247-252 | for every Net and marking the input scans are at most the tokens times the greatest place incidence |
| `Admission.FiringShrinks` | src/petrus/simulation.py:129-148 | in an admitted Net an enabled firing never fails and never adds a token |
| `Admission.ChecksUnreachable` | src/petrus/simulation.py:201-212 | in every reachable marking of an admitted run neither the scan limit nor the token limit can be exceeded |
| `Admission.AdmitStructure` | src/petrus/simulation.py:84-148 | the structural loops accept exactly the structural rules |
| `Admission.Admit` | src/petrus/simulation.py:74-212 | admission accepts exactly the structural rules, colours, token limit and static bound |
| `Admission.Simulate` | src/petrus/simulation.py:296-327 | for every engine that offers something whenever something enabled is ready: a run is refused exactly when not admissible; otherwise it makes exactly the offered firings and ends at its action limit or at rest, where nothing enabled is ready, and never at a dynamic limit |
| `RetentionSafety.RunKeeps` | src/petrus/agenticus/attachment/_retention.py:196-477 | with a crash between any two writes, every run keeps the ledger invariant and every row only advances |
| `RetentionSafety.LedgerIsSound` | src/petrus/agenticus/attachment/_retention.py:105-134 | every row of every run passes the record validator, live territories are single, and a retired row's exact lease was verifiably destroyed |
| `RetentionSafety.CyclesAdvance` | src/petrus/agenticus/attachment/_retention.py:218-264 | over every run a custody id's source epoch grows exactly when its generation does, for the same owner and lease |
| `RetentionSafety.RetiringIsFinal` | src/petrus/agenticus/attachment/_retention.py:399-433 | once retiring a row is retiring or retired for ever, with the same lease |
| `RetentionSafety.RetiredOnlyByCleanup` | src/petrus/agenticus/attachment/_retention.py:419-433 | a row becomes retired only by verified cleanup of exactly its lease |
| `RetentionSafety.RecoverFences` | src/petrus/agenticus/attachment/_retention.py:366-383 | recovery leaves only retiring, retired and unexpired retained rows, the last unchanged |
| `RetentionSafety.RecoveryDisarms` | src/petrus/agenticus/attachment/_retention.py:366-383 | a release or claim open when recovery ran is void in every continuation: its row is being retired, and no completion for that custody id changes a row |
| `RetentionSafety.SpentStaysSpent` | src/petrus/agenticus/attachment/_retention.py:137-158 | a ticket or claim that was spent stays spent while the process lives |
| `RetentionSafety.TicketsAreCurrent` | src/petrus/agenticus/attachment/_retention.py:453-464 | although an expired release is guarded by phase only, an unused ticket always speaks of the current generation |
| `RetentionSafety.ClaimsOnlyReady` | src/petrus/agenticus/attachment/_retention.py:308-342 | a row is claimed only by its owner, unexpired, for another episode, with exactly its lease seen ready |
| `RetentionSafety.RetainedOnlyByTicket` | src/petrus/agenticus/attachment/_retention.py:453-477 | a row is retained only through its own ticket, before expiry, with that release's archive |
| `RetentionEffects.StepTakesEffect` | src/petrus/agenticus/attachment/_retention.py:196-499 | from any state every write takes effect exactly when the ledger's rules allow it, changes one row or none, and what stops it leaves the row as it was or fences it |
| `TerritoryCustodyObject.TerritoryCustody.Release` | src/petrus/agenticus/attachment/_retention.py:196-276 | release as a whole, others acting while the attachment drains, is a run of the ledger; success means the row is exactly what was announced, now retained with this archive, expiry or loss means it is being retired, and a failed drain leaves the ticket unused and the row as announced unless recovery fenced it |
| `TerritoryCustodyObject.TerritoryCustody.Reclaim` | src/petrus/agenticus/attachment/_retention.py:278-364 | reclaim as a whole is a run of the ledger; success means the same generation and lease, now attached, and failure or loss means it is being retired |
| `TerritoryCustodyObject.TerritoryCustody.Retire` | src/petrus/agenticus/attachment/_retention.py:399-433 | retire as a whole is a run of the ledger; recorded or lost to another, the row is retired and its exact lease verifiably destroyed, and otherwise it is still being retired |
| `TerritoryCustodyObject.TerritoryCustody.Recover` | src/petrus/agenticus/attachment/_retention.py:366-383 | in place: only ending rows and untouched unexpired retained rows remain |
| `CoordinationSafety.RechooseIgnoresUndue` | src/petrus/engine/_coordination.py:557-579 | the re-choose loop always ends with an offered action, and chooses as if an advance that is not due had never been offered |
| `CoordinationSafety.DeliversWhen` | src/petrus/engine/_coordination.py:401-454 | each policy chooses a delivery exactly when one is offered and, after a delivery, exactly when the progress it owes is unavailable; it is the first one offered |
| `CoordinationSafety.FirstOffered` | src/petrus/engine/_coordination.py:690-736 | what the snapshot offers first of each kind, read off the state: at most one candidate and one time, the buffer's head if its source is armed, a wait iff something is outstanding, and always a stop |
| `CoordinationRuns.ChoiceOrder` | src/petrus/engine/_coordination.py:401-454 | stopping and waiting are chosen only when everything ranked before them is unavailable |
| `CoordinationRuns.RunKeeps` | src/petrus/engine/_coordination.py:543-850 | every run keeps the coordinator's invariant and the policy's discipline over work in flight |
| `CoordinationRuns.ThroughputNeverShares` | src/petrus/engine/_coordination.py:430-454 | from nothing in flight, no two occurrences in flight ever share a token value at a place |
| `CoordinationRuns.ConservativeIsSerial` | src/petrus/engine/_coordination.py:401-427 | from nothing in flight, at most one occurrence ever waits for a result |
| `CoordinationLosses.WaitingIsReal` | src/petrus/engine/_coordination.py:698-724 | in every run a reported wait has something in flight that neither arrived nor froze; some of it was taken by this Dispatch if and only if not all of it was left behind by a hand-over that raised |
| `CoordinationLosses.NothingLeftBehind` | src/petrus/engine/_coordination.py:608-617 | a run leaves nothing behind if and only if every redispatch and every begun hand-over returned |
| `CoordinationLosses.WaitsOnTaken` | src/petrus/engine/_coordination.py:698-724 | when every hand-over returned, everything waited for was taken by this Dispatch |
| `CoordinationLosses.WaitsForNothing` | src/petrus/engine/_coordination.py:812-835 | two concrete drives: the Dispatch refuses the first invocation, and the next drive waits for it all the same |
| `CoordinationLosses.DeliveryOrder` | src/petrus/engine/_coordination.py:717-723 | over every run deliveries reach the writer in the sensed order; what was accepted followed by the buffer is the sensed sequence if and only if no drive handed a delivery to a writer that refused it |
| `CoordinationLosses.TakesWhenChosen` | src/petrus/engine/_coordination.py:401-454 | the guard of that condition: exactly when a drive hands the head of the buffer to the writer |
| `CoordinationLosses.ActDelivers` | src/petrus/engine/_coordination.py:781-791 | a drive takes the buffer's head exactly under the guard, and keeps it exactly if the writer admits it |
| `CoordinationLosses.RefusedDeliveryIsLost` | src/petrus/engine/_coordination.py:781-791 | a concrete drive that loses a refused delivery |
| `CoordinationRuns.DeliveriesAlternate` | src/petrus/engine/_coordination.py:401-454 | after a delivery, another is applied only when the owed progress was unavailable, and it is the buffer's head |
| `CoordinationEffects.DriveDoes` | src/petrus/engine/_coordination.py:543-850 | one drive, whatever the world answers: which resumed requests are handed over and which are only attempted, which arrivals are kept, refused or dropped, what becomes of an accepted result, of a begun transition with the tokens it consumed, of a delivery, and what is remembered |
| `CoordinationEffects.CancelDoes` | src/petrus/engine/_coordination.py:862-889 | a cancellation takes its occurrence out of flight, leaves the others in order, and remembers it |
| `CoordinatorObject.Coordinator.Drive` | src/petrus/engine/_coordination.py:543-596 | the object's drive, reconcile and loops included, equals the functional drive |
| `CoordinatorObject.Coordinator.Settle` | src/petrus/engine/_coordination.py:557-579 | the re-choose loop terminates with the functional choice |
| `CoordinatorObject.Coordinator.Sift` | src/petrus/engine/_coordination.py:655-683 | arrivals are sifted by what is in flight; an arrival nobody answers for raises with everything buffered |
| `CoordinatorObject.Coordinator.Offer` | src/petrus/engine/_coordination.py:684-736 | sensing and listing the available actions in order |
| `CoordinatorObject.Coordinator.ApplyOne` | src/petrus/engine/_coordination.py:740-850 | one chosen action against the instance |
| `CoordinatorObject.Coordinator.ReconcileFirst` | src/petrus/engine/_coordination.py:598-642 | the redispatch loop hands over the outbox in order and stops for good at the first that raises; otherwise resumed work completes and whatever raises stays |
| `CoordinatorObject.Resume` | src/petrus/engine/_coordination.py:619-642 | the completing legs keep the outbox and whatever raised, and complete the rest |
| `CoordinatorObject.Coordinator.Unbuffer` | src/petrus/engine/_coordination.py:899-904 | the first buffered arrival of the occurrence is removed |

## Left out

- JSON, pydantic field validation, sha256 and encryption: payloads are text, digests and lease ids are injective constructors, ciphertext carries its sealing context and key; validators of a profile accept or reject and return accepted input unchanged.
- The World heap is its sorted listing; the heap's array layout is not modelled. Choice streams, seeds and the subprocess runner around the progress file are not modelled.
- World.close is modelled only as the closing frames of a session (`Progress.CompletedSession`), and what a profile's `close` does to the host value is not; a profile's `drop` is a function of the host value.
- Specifications live in a heap of values keyed by identity, so aliasing between specification objects is sharing of a key; places and transitions share one node type with a kind. Lowering to the canonical Net, URIs and implementation tables is not modelled.
- Custody leaves out the materializer's files, cleanup summaries and the subject and detail fields of audit records; canonical tuple order is a map. `lookup_operation` and read-only views are not modelled.
- Connection storage leaves out SQLite, file modes and the JSON codec of snapshots.
- Hands: each lock section is one atomic step; asynchronous interrupts (`_abandon`), the private release of a territory (`_release_to`), evidence retention limits, deadlines, policy and path checks of a grant, and the adapter's own behaviour are choices or absent; whether the named grant is current is read from the ledger. A failed discard leaves its stage with the adapter until cleanup, and an adapter answers cleanup with the number of stages it held; a wrong number would be added to the discards unchecked. `successor` and the other read-only views of an attachment are not modelled.
- `CapabilityGrant.permits_write_path` and the other pure grant checks would only add easy members.
- AgentNet: an activity is one firing (begin and completion together), text length is counted in characters instead of UTF-8 bytes, only spaces count as surrounding blanks, and the size limit of JSON payloads is not modelled. The continuation and program descriptors are static tables.
- Admission: limits on encoded sizes, CEL text and History records are not modelled; filters, guards and timers only narrow which binding is chosen, so every choice of admitted tokens is covered.
- Admission.Admit: decides acceptance only, not which refusal is raised first.
- Admission.Simulate: a turn that only advances time changes no marking and is not listed among the firings.
- Retention: salvage and quarantine of corrupt rows, the writer fence, file modes and the SQL text are not modelled; a provider's lookup and destroy are answers carried by the step. The workspace archive is text. What others do between an operation's writes never finishes that operation's own ticket, claim or retirement.
- Coordination: the Instance is what is in flight, its next id, and answers carried by each drive (candidates, projection, acceptance); History, selection state, telemetry, joined-transaction commit points and provider refusals at a completion commit are not modelled. Object identity of a buffered delivery is its position.
- HTTP servers, telemetry, the PostgreSQL store, Dispatch substrates, environment providers, catalog and descriptor values, the effect gateway and the Net document validators: input and output, foreign calls, or short protocols that would only add easy members.
