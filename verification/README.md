# Verified model of Aletheon's durable and safety-critical cores

This project models seven pieces of Aletheon in Dafny and proves what they keep over every run:

- the **memory intake ledger** (`Intake*.dfy`): receipts, worker leases, deferrals and settlements
  under any interleaving of callers;
- the kernel's **process termination** (`Kernel*.dfy`): a resumable four-phase transaction with
  supervision, restarts and the agent/process registry, under any pattern of failures;
- the **structured patch engine** (`Patch*.dfy`): where a hunk is placed, what applying it does, and
  how to undo it;
- the **hardware safety boundary** (`Hardware*.dfy`, `Embodiment*.dfy`): the simulated device, the
  skill calls that take a number before the lock, and the broker's own authority check;
- the **workspace binding registry** (`Binding*.dfy`, `Capability.dfy`): optimistic concurrency and
  the bytes that are hashed for a grant;
- the **child-memory vault** (`Vault*.dfy`): append-only records and reviewed promotion;
- the **bounded projection** (`Projection*.dfy`, `Projector.dfy`, `Labels.dfy`, `Escaping.dfy`,
  `Truncation.dfy`): ranking, greedy packing, escaping and UTF-8 truncation.

`Text.dfy`, `Order.dfy` and `Utf8.dfy` hold the strings, the ordering and the encoding they share.

## How it is built

Each stateful piece has three layers.

1. A value for the whole state (the tables of the store, the maps behind the mutexes, the fields of
   the device) and one step function per call. A step answers what the call answers, error paths
   included, and leaves the state as it was when the call fails.
2. A class whose methods do the same work in place, by assignments and loops, and are proved equal to
   the step functions.
3. An invariant kept by every step, and theorems about `Run`: any sequence of calls by any callers.

SQL tables are maps with their primary keys, uniqueness and check constraints written out, so a
colliding insert is a visible error. Fresh UUIDs are tokens the caller of a step supplies, and runs
are required to supply each token once. A SHA-256 digest is written as the material that is hashed.
Clocks are parameters. Failures of components outside the model (a cleanup that stops half way, a
refused budget, a scrubber, a number formatter) are parameters too, so every theorem holds for all of
their behaviours. Record ids of the vault are hashes: the model takes the hash functions as parameters
and asks for injectivity only where the code relies on it.

Some expectations turned out false of the code. Each has a counterexample and an exact condition:

- *At most one live process per agent.* A spawn whose budget reservation is refused leaves a live
  process that is in no index, and the next spawn succeeds beside it
  (`KernelRuns.RefusedBudgetLeavesSecondLiveProcess`, `KernelRuns.SpawnDuplicatesIff`). In runs without
  a refused budget it holds, and every restart is replaced
  (`KernelReplacements.GrantedRunsKeepOneLive`, `KernelReplacements.GrantedRunsReplaceAll`).
- *A lineage is restarted no more often than its policy allows.* A group of two or more whose strategy is
  not one-for-one replaces siblings without counting them (`KernelGroups.SiblingIsReplacedUncounted`).
  When each process was added to one group once, the limit holds in every run exactly when every group
  is one-for-one or has at most one member (`KernelGroups.LimitHoldsIffNarrow`). The runtime itself
  creates no group, so this needs a supervisor that was given groups elsewhere.
- *A termination completes once nothing fails any more.* A restart whose parent has ended is
  refused (`KernelRetry.RestartSticks`). A call without faults completes exactly when every process it
  has still to restart is known, by its turn its agent has no live process, and its parent is live
  (`KernelRetry.EveryRunPublishesIff`).
- *A hunk goes where its header says.* The offset carried between hunks adds the position of the
  previous hunk and not only its growth (`PatchPlacement.SecondHunkIsMisplaced`). Every round of the
  code's own run follows the header exactly when, applying by headers, each hunk matches at its place
  and at none the search would prefer (`PatchPlacement.FollowsHeadersIff`, `PatchPlacement.LandsIff`).
- *Undoing a hunk restores the file.* Lines are compared after normalising dashes, quotes and trailing
  whitespace (`PatchPlacement.UndoLosesTrailingBlank`), so it does exactly when the remove lines are the
  file's own text (`PatchUndo.UndoRestoresIff`).
- *Applying a patch answers.* A hunk that only adds lines past the end of the file makes the splice panic
  (`PatchPlacement.AddingPastTheEndPanics`, `PatchPlacement.PatchPanicsIff`).
- *An Active binding has a digest.* A preview is a public record, and one made by hand can store an
  Active binding without one (`BindingRuns.ForgedPreviewIsStored`); an applied preview keeps the table
  verified exactly when its own row is (`BindingRuns.ApplyKeepsVerifiedIff`).
- *The projection does not depend on recall order.* With one place, each of two items that differ in
  content alone is projected when it is recalled first, if scrubbing tells the contents apart
  (`Projector.TiedPairShows`). A tie may also stay hidden: behind the limits, or because both items come
  out as the same record (`Projector.TwinsShowIff`). The outcome is the same for every order exactly
  when the invalid items all fail the same check; or, if all are valid, no item that takes a place has
  a tied rival that would take it just as well and come out as a different record; or, if a label turns
  out too large, no order of the items ranked no later than that one fills the list
  (`ProjectionContest.ProjectionIsFixedIff`, `Projector.OrderShowsIff`).

## Model

| member | source | states |
|---|---|---|
| IntakeInvariant.RunKeepsInv | crates/mnemosyne/src/intake.rs:316-871 | over every interleaving of observe, claim, defer, settle and transition: histories are legal, at most one lease per intake and token, at most one settlement per intake, every key consistent |
| IntakeInvariant.StateFixesRevision | crates/mnemosyne/src/intake.rs:1113-1129 | Observed is only ever revision 1 and Evaluating only ever revision 2, since no path leads back |
| IntakeInvariant.ClaimRowSucceeds | crates/mnemosyne/src/intake.rs:556-659 | claiming an eligible row never collides on the lease or receipt keys and never finds an invalid observation |
| IntakeInvariant.NextReceiptFollows | crates/mnemosyne/src/intake.rs:965-995 | the next receipt is the next revision along the transition graph and its id lists only grow |
| IntakeRuns.EveryRunKeepsLegalHistories | crates/mnemosyne/src/intake.rs:826-995 | from the empty ledger, each intake's receipts have revisions 1..n without gap or fork, start at Observed, follow the graph, and only grow their id lists |
| IntakeRuns.HistoryGrows | crates/mnemosyne/src/intake.rs:965-995 | between any two revisions of an intake the earlier id lists are contained in the later ones |
| IntakeRuns.RunGrows | crates/mnemosyne/src/intake.rs:316-871 | no run drops or rewrites an intake, receipt, settlement or issued token |
| IntakeRuns.ObservationIsIdempotent | crates/mnemosyne/src/intake.rs:316-407 | after any run, repeating an accepted observation answers with its intake and other content under the same key is refused, both without effect |
| IntakeRuns.SettleSucceedsIff | crates/mnemosyne/src/intake.rs:699-779 | a new settlement goes through exactly when the presented lease is the live row and the intake is still at the claimed revision |
| IntakeRuns.MovedIntakeCannotSettle | crates/mnemosyne/src/intake.rs:699-779 | once a transition has moved the intake of a lease, at any point of any run since, every new settlement under that lease fails and changes nothing |
| IntakeRuns.SettlementReplays | crates/mnemosyne/src/intake.rs:705-779 | after any run, the same settlement id with the same content returns the stored receipt, with other content it is refused, and neither changes a row |
| IntakeRuns.SettledAtMostOnce | crates/mnemosyne/src/intake.rs:705-779 | in any run a second successful settlement of an intake is a replay of the first |
| IntakeRuns.OneHolder | crates/mnemosyne/src/intake.rs:932-963 | two workers never hold live leases on one intake |
| IntakeRuns.RunNamesNothingOld | crates/mnemosyne/src/intake.rs:539-659 | a lease token once dropped never comes back and never comes to name another row |
| IntakeRuns.ExpiredLeaseIsFenced | crates/mnemosyne/src/intake.rs:932-963 | from expiry on, whatever others did meanwhile, the worker's defer and any new settlement fail without effect |
| IntakeRuns.ClaimReplaces | crates/mnemosyne/src/intake.rs:539-659 | a successful claim leaves no earlier lease on its intake |
| IntakeRuns.ReplacedLeaseIsFenced | crates/mnemosyne/src/intake.rs:539-697 | once another claim took its intake, a worker is fenced at every later time |
| IntakeRuns.UnexpiredLeaseIsKept | crates/mnemosyne/src/intake.rs:539-697 | until its expiry nobody but its holder can end a lease, over every run |
| IntakeRuns.ClaimGrantsAuthority | crates/mnemosyne/src/intake.rs:539-659 | a successful claim leaves the stored Evaluating receipt, one live lease for its owner and no deferral |
| IntakeRuns.ClaimStoresItsLease | crates/mnemosyne/src/intake.rs:539-659 | the lease a claim hands out is a stored row, so the results on fencing and on moved intakes apply to it |
| IntakeRuns.HolderCanSettle | crates/mnemosyne/src/intake.rs:699-779 | the holder of an unexpired lease can settle whatever other workers did, unless a transition moved the intake |
| IntakeClaims.ClaimTakesTheNext | crates/mnemosyne/src/intake.rs:556-659 | a valid claim answers None exactly when nothing is eligible and otherwise takes the least row by feedback, observed time and id |
| IntakeClaims.NoIntakeIsStranded | crates/mnemosyne/src/intake.rs:556-590 | a pending intake is eligible exactly from a time that can be read off the tables |
| IntakeClaims.ClaimRemovesOnlyItsIntake | crates/mnemosyne/src/intake.rs:556-659 | a claim takes exactly its own intake out of the eligible rows |
| IntakeClaims.ClaimsDrainTheQueue | crates/mnemosyne/src/intake.rs:556-659 | after as many claims at one time as there are eligible rows, none is left |
| IntakeClaims.RunKeepsLimits | crates/mnemosyne/src/intake.rs:340-407 | the row and payload limits hold over every run |
| IntakeLedger.MemoryIntakeLedger.LatestReceipt | crates/mnemosyne/src/intake.rs:409-438 | the search over receipts returns the one with the highest revision |
| IntakeLedger.MemoryIntakeLedger.StoredPayload | crates/mnemosyne/src/intake.rs:340-365 | the loop sums the payload of all stored rows |
| IntakeLedger.MemoryIntakeLedger.NextCandidate | crates/mnemosyne/src/intake.rs:556-590 | the scan returns an eligible row before all others, or none exactly when none is eligible |
| IntakeLedger.MemoryIntakeLedger.Observe | crates/mnemosyne/src/intake.rs:316-407 | updates the tables in place exactly as the observation step does and keeps the invariant |
| IntakeLedger.MemoryIntakeLedger.ClaimNextMaintenance | crates/mnemosyne/src/intake.rs:539-659 | updates the tables in place exactly as the claim step does and keeps the invariant |
| IntakeLedger.MemoryIntakeLedger.DeferMaintenance | crates/mnemosyne/src/intake.rs:661-697 | updates the tables in place exactly as the deferral step does and keeps the invariant |
| IntakeLedger.MemoryIntakeLedger.SettleMaintenance | crates/mnemosyne/src/intake.rs:699-779 | updates the tables in place exactly as the settlement step does and keeps the invariant |
| IntakeLedger.MemoryIntakeLedger.TransitionLifecycle | crates/mnemosyne/src/intake.rs:826-871 | updates the tables in place exactly as the transition step does and keeps the invariant |
| KernelRuns.RunKeepsInv | crates/kernel/src/runtime.rs:332-703 | over every run with any faults: registry indexes agree, generations are distinct, operations belong to live processes, terminations and outcomes are consistent |
| KernelRuns.RunKeepsTermination | crates/kernel/src/runtime.rs:487-631 | until the reap, phases only advance and a recorded reason, decision and outcome stay, whatever is called |
| KernelRuns.OutcomeIsFinal | crates/kernel/src/runtime.rs:487-495 | after the first success every call until the reap answers the same outcome and changes nothing |
| KernelRuns.FirstReasonWins | crates/kernel/src/runtime.rs:496-507 | the outcome carries the reason of the first call however many calls failed before the one that succeeded |
| KernelRuns.EveryRunIsOrdered | crates/kernel/src/runtime.rs:508-566 | in every run cleanup precedes the terminal mark, the mark precedes the supervisor's record, mark and record happen at most once, and generations of an agent only grow, even across reaps |
| KernelRuns.TerminalProcessHasNoOperations | crates/kernel/src/runtime.rs:633-662 | no active operation belongs to a terminal process |
| KernelRuns.CleanTerminationCompletes | crates/kernel/src/runtime.rs:508-631 | once cleanup no longer fails, a termination whose reason is no failure completes and restarts nothing, however many earlier calls failed |
| KernelRetry.ReplacementsMatchIff | crates/kernel/src/runtime.rs:575-614 | the call that publishes an outcome has one replacement per restart id, in order, exactly when every id still to restart has its spawn spec and the replacements made so far stand for the first ids; while those are in the process table, exactly when every id has its spawn spec |
| KernelRetry.TerminationPublishesIff | crates/kernel/src/runtime.rs:487-631 | a first call or retry without faults publishes exactly when, in the state before it, every process still to restart is known, by its turn its agent has no live process, and its parent is live and not stopped on the way |
| KernelRetry.EveryRunPublishesIff | crates/kernel/src/runtime.rs:487-631 | the same after every run from a fresh kernel |
| KernelRetry.RestartSticks | crates/kernel/src/runtime.rs:575-614 | after a run in which its parent completed, a child fails, and even a call without faults does not complete its termination |
| KernelRetry.RunKeepsNamed | crates/kernel/src/runtime.rs:332-703 | over every run, specs name parents, agents processes and terminations replacements that were spawned before |
| KernelReplacements.GrantedRunsKeepOneLive | crates/kernel/src/runtime.rs:332-614 | in every run without a refused budget, replacements included, each agent has at most one live process |
| KernelReplacements.GrantedRunsReplaceAll | crates/kernel/src/runtime.rs:575-614 | in such a run every published outcome lists one replacement per restart id, in order |
| KernelRuns.OneRegisteredLiveProcess | crates/kernel/src/runtime.rs:332-424 | of the processes whose spawn succeeded at most one per agent is live, and it is the current one |
| KernelRuns.SpawnDuplicatesIff | crates/kernel/src/runtime.rs:332-403 | a spawn that may go ahead gives its agent a second live process exactly when a live one of that agent is in no index |
| KernelRuns.RefusedBudgetLeavesSecondLiveProcess | crates/kernel/src/runtime.rs:352-403 | a spawn under a parent is refused by the budget, and one of the same agent without the parent succeeds beside the process it left |
| KernelRuns.OnlyTheCurrentGenerationBinds | crates/kernel/src/runtime.rs:426-449 | an OS process id is bound exactly for a registered process that is its agent's newest generation, both indexes show it, and a refusal changes nothing |
| KernelLimit.LimitSpansLineage | crates/kernel/src/supervision/tree.rs:91-206 | over every run in which each process is alone in its group or its group is one-for-one, no lineage has more replacements than the policies set for it allow |
| KernelLimit.FailureIsAnsweredByDepth | crates/kernel/src/supervision/tree.rs:91-206 | in such a run a failure is answered by the depth of its lineage: the next attempt while the limit allows it, a refusal from then on |
| KernelGroups.SiblingIsReplacedUncounted | crates/kernel/src/supervision/tree.rs:150-206 | for every configuration with a group of two or more that is not one-for-one there is a run in which the second member is replaced although its own policy allows no restart |
| KernelGroups.FailureKeepsCountIff | crates/kernel/src/supervision/tree.rs:150-206 | a failure leaves another process's count exactly when that process is not restarted along with it, or has none |
| KernelGroups.LimitHoldsIffNarrow | crates/kernel/src/supervision/tree.rs:91-206 | a configuration in which each process was added to one group once keeps the limit along every lineage of every run exactly when each of its groups is one-for-one or has at most one member |
| KernelInvariant.ExitProcessTotal | crates/kernel/src/process/table.rs:100-134 | marking an exit succeeds exactly for a process that is not terminal and makes it terminal with the given reason |
| KernelInvariant.AdvanceKeepsInv | crates/kernel/src/runtime.rs:508-566 | the phase loop keeps the invariant and can only stop before cleanup or at the restarts |
| KernelTermination.RestartFromKeepsInv | crates/kernel/src/runtime.rs:575-614 | the restart loop keeps the invariant and resumes after the replacements already made |
| KernelTermination.TerminateAnswers | crates/kernel/src/runtime.rs:487-631 | one call keeps the first reason, moves nothing back, answers the published outcome and touches nobody else's termination |
| KernelRuntime.Runtime.CancelAll | crates/kernel/src/runtime.rs:636-640 | the loop cancels exactly the given operations |
| KernelRuntime.Runtime.CleanupProcessResources | crates/kernel/src/runtime.rs:633-662 | does in place what the cleanup step does, including a cleanup that stops half way |
| KernelRuntime.Runtime.SpawnProcess | crates/kernel/src/runtime.rs:332-424 | does in place what the spawn step does and keeps the invariant |
| KernelRuntime.Runtime.AdvanceToRestarts | crates/kernel/src/runtime.rs:508-566 | the phase loop does in place what the recursive phase function does |
| KernelRuntime.Runtime.RestartMembers | crates/kernel/src/runtime.rs:575-614 | the restart loop does in place what the recursive restart function does |
| KernelRuntime.Runtime.TerminateProcess | crates/kernel/src/runtime.rs:487-631 | does in place what the termination step does and keeps the invariant |
| KernelRuntime.Runtime.ReapProcess | crates/kernel/src/runtime.rs:682-703 | does in place what the reap step does and keeps the invariant |
| KernelRuntime.Runtime.BindOsProcessId | crates/kernel/src/runtime.rs:426-449 | does in place what the binding step does and keeps the invariant |
| Patch.MatchesHunkAt | crates/platform/src/structured_patch.rs:771-787 | the loop decides whether all expected lines match, up to normalisation, from a start on |
| Patch.SeekSequence | crates/platform/src/structured_patch.rs:757-768 | the search over the window equals the specified one |
| Patch.FindHunkPosition | crates/platform/src/structured_patch.rs:720-755 | the three-stage search equals the specified one |
| Patch.BuildBlock | crates/platform/src/structured_patch.rs:628-671 | the loop builds the replacement block; its two mismatch errors are unreachable |
| Patch.ApplyPatchHunks | crates/platform/src/structured_patch.rs:616-688 | the loop over hunks, splicing and carrying the offset, equals the specified application |
| PatchSearch.FindIsBest | crates/platform/src/structured_patch.rs:720-768 | the search returns a match within reach (the window, or three lines from the target) that no other beats in rank, and nothing exactly when no place within reach matches |
| PatchSearch.RankDecides | crates/platform/src/structured_patch.rs:725-749 | the order of preference never ties, so the place is determined |
| PatchSearch.UniqueMatchIsFound | crates/platform/src/structured_patch.rs:720-787 | a hunk with one match in the window is found there for every header and every offset |
| PatchSearch.HeadersDoNotMatter | crates/platform/src/structured_patch.rs:616-688 | a patch whose hunks each have one match when their turn comes applies, with a result that depends on no header and no offset |
| PatchPlacement.FindIff | crates/platform/src/structured_patch.rs:720-768 | the search answers a place exactly when it is the best match within reach |
| PatchPlacement.LandsIff | crates/platform/src/structured_patch.rs:616-768 | a hunk lands at a place exactly when it matches there and at none of the rival places, which are read off the file, the hunk and the target |
| PatchPlacement.FollowsHeadersIff | crates/platform/src/structured_patch.rs:616-768 | for every file and patch, each round of the code's own run edits its hunk in where the header says, exactly when, applying by headers, each hunk matches there and at no place the search would prefer |
| PatchPlacement.ClearPatchIsByHeaders | crates/platform/src/structured_patch.rs:616-688 | such a patch applies, with the result of applying it by headers |
| PatchPlacement.SecondHunkLandsIff | crates/platform/src/structured_patch.rs:680-721 | the second of two hunks lands where its header says exactly when, in the file the first one leaves, no rival of a target further down by the first one's place matches |
| PatchPlacement.SecondHunkIsMisplaced | crates/platform/src/structured_patch.rs:680-721 | a two-hunk patch of four equal lines whose second hunk changes line four instead of line three |
| PatchPlacement.PatchPanicsIff | crates/platform/src/structured_patch.rs:616-688 | a patch panics at a hunk exactly when it gets there, the hunk only adds, and its target is past the end of the file as it is then |
| PatchPlacement.FirstHunkPanicsIff | crates/platform/src/structured_patch.rs:679-721 | the first hunk panics exactly when it only adds and its header names a line more than one past the end |
| PatchPlacement.ExpectingPatchNeverPanics | crates/platform/src/structured_patch.rs:616-688 | a patch whose hunks all expect a line never panics |
| PatchPlacement.AddingPastTheEndPanics | crates/platform/src/structured_patch.rs:679 | one added line addressed to line two of an empty file panics |
| PatchPlacement.UndoLosesTrailingBlank | crates/platform/src/structured_patch.rs:757-787 | removing "a" where the file has a blank after it and undoing that puts back "a" alone |
| PatchUndo.EditsIff | crates/platform/src/structured_patch.rs:628-671 | the edit relation (context keeps the file's text, removals match and go, additions are the hunk's) holds exactly between a matching region and the block the code builds |
| PatchUndo.EditedAtUnique | crates/platform/src/structured_patch.rs:628-680 | one place has one outcome: the relation fixes the whole file after the hunk |
| PatchUndo.PatchIsSound | crates/platform/src/structured_patch.rs:616-688 | a patch that applies made one legal edit per hunk, in order, each at a matching place, touching nothing else |
| PatchUndo.PatchGrows | crates/platform/src/structured_patch.rs:616-688 | the line count changes by exactly additions less removals |
| PatchUndo.PanicsIff | crates/platform/src/structured_patch.rs:679 | the splice is out of range exactly for a hunk that expects nothing and whose target is past the end |
| PatchUndo.ParseReversed | crates/platform/src/structured_patch.rs:699-717 | swapping the prefixes of the raw lines swaps additions and removals of the parsed hunk |
| PatchUndo.UndoRestoresIff | crates/platform/src/structured_patch.rs:616-755 | the inverse hunk addressed to the place always applies, and gives back the file exactly when every remove line was the file's text to the letter |
| PatchUndo.UndoAllRestores | crates/platform/src/structured_patch.rs:616-755 | undoing all hunks of a patch, one call each and last first, gives back the original file |
| HardwareRuns.EveryRunIsSafe | crates/hardware/src/simulator.rs:53-226 | over every run: never at rest in Stopping, away from the origin only while Active, Active only while connected, a fault and a disconnection never left |
| HardwareRuns.RobotStartsSafe | crates/hardware/src/simulator.rs:27-46 | the same for every run of a new robot |
| HardwareRuns.ExpiryStops | crates/hardware/src/simulator.rs:68-76 | once an expired lease is enforced, no later command moves the device until a lease still good is granted |
| HardwareRuns.RejectionLeavesNoTrace | crates/hardware/src/simulator.rs:90-181 | a refused command leaves the device as it was, or safe-stopped for an expired deadline, an expired lease or an invalid payload, and never uses up its number |
| HardwareRuns.NavigatesIff | crates/hardware/src/simulator.rs:90-226 | a command moves the device exactly under a valid permit and lease, a deadline to come, a higher number and a healthy connected device |
| HardwareRuns.StopsIff | crates/hardware/src/simulator.rs:90-195 | after any run of a robot a stop takes effect exactly under a permit for it and a number above every one that took effect before; no lease is needed and no fault or disconnection is in the way |
| HardwareRuns.StopHolds | crates/hardware/src/simulator.rs:53-226 | a stopped device stays at its origin until a command is accepted, over every run |
| HardwareRuns.SequenceIsHighest | crates/hardware/src/simulator.rs:143-195 | over every run the device remembers the highest number that took effect, and those numbers only rise |
| HardwareDevice.SimulatedDevice.Execute | crates/hardware/src/simulator.rs:90-195 | the field updates and the receipt are those of the specified decision |
| HardwareDevice.SimulatedDevice.Apply | crates/hardware/src/simulator.rs:199-218 | moves the device exactly when connected with both coordinates, and safe-stops a disconnected one |
| HardwareDevice.SimulatedDevice.SafeStop | crates/hardware/src/simulator.rs:219-226 | ends safe-stopped at the origin unless faulted, passing through Stopping only inside the call |
| HardwareDevice.SimulatedDevice.EnforceExpiry | crates/hardware/src/simulator.rs:68-76 | safe-stops exactly from the lease's expiry on |
| HardwareDevice.SimulatedDevice.GrantLease | crates/hardware/src/simulator.rs:53-59 | stores the lease exactly when it names this device |
| Embodiment.EveryInterleavingIsOrdered | crates/hardware/src/simulator.rs:307-365 | over every interleaving of calls, faults and stops: calls take effect in number order, no number is served twice, a replay refusal has a higher number accepted before it |
| Embodiment.FromStart | crates/hardware/src/simulator.rs:335-350 | the same, stated for the log of every run of a new embodiment |
| Embodiment.ReplayedIffOvertaken | crates/hardware/src/simulator.rs:143-148 | a call the broker passed, entering before either expiry, is refused as a replay exactly when a higher-numbered call already took effect |
| Embodiment.BrokerAndDeviceAgree | crates/hardware/src/broker.rs:103-134 | a request the broker passed is never refused by its device for a permit, lease, scope, device or deadline reason; each of the four possible answers has one cause |
| Embodiment.AcceptedIffRouted | crates/hardware/src/broker.rs:32-134 | the device accepts exactly what the broker passes on to it at that moment, provided it can do the skill, is fit to move and the number is above the last taken: neither check is weaker than the other |
| EmbodimentFacade.SimulatedEmbodiment.TakeNumber | crates/hardware/src/simulator.rs:312-335 | a well-formed navigate request gets the next number, any other changes nothing |
| EmbodimentFacade.SimulatedEmbodiment.EnterDevice | crates/hardware/src/simulator.rs:346-350 | granting the lease and executing under the lock equals the specified service |
| EmbodimentFacade.SimulatedEmbodiment.Stop | crates/hardware/src/simulator.rs:387-414 | cancel and safe_stop stop exactly the device they name |
| Capability.MaterialIsUnique | crates/mnemosyne/src/binding.rs:442-463 | two grants give the same hash input exactly when backend, write source (None read as empty), set of read sources and both flags agree |
| Capability.LabelIsEncoded | crates/mnemosyne/src/binding.rs:442-449 | the label is hashed as its UTF-8 bytes |
| Capability.ParseFields | crates/mnemosyne/src/binding.rs:446-463 | a decoder reads any list of length-prefixed fields and the two flag bytes back |
| Capability.LittleEndianRoundTrip | crates/mnemosyne/src/binding.rs:450-457 | the eight length bytes determine the length |
| Utf8.EncodeInjective | crates/mnemosyne/src/binding.rs:451-457 | distinct strings have distinct bytes |
| BindingRuns.StepMovesByOne | crates/mnemosyne/src/binding.rs:128-312 | every call, even with a preview made by hand, changes a row only together with its revision, by exactly one, and removes none |
| BindingRuns.RevisionsOnlyGrow | crates/mnemosyne/src/binding.rs:128-312 | over every run revisions never fall, and an unchanged revision means an unchanged row |
| BindingRuns.PreviewAppliesIff | crates/mnemosyne/src/binding.rs:153-266 | after any run a preview applies exactly when the row it was taken from is untouched, and otherwise changes nothing |
| BindingRuns.AppliedAtMostOnce | crates/mnemosyne/src/binding.rs:213-266 | of all previews for one row and revision at most one is ever applied |
| BindingRuns.RevocationKillsPreviews | crates/mnemosyne/src/binding.rs:268-286 | a preview from before a revocation that changed the row can never be applied |
| BindingRuns.PreviewIsVerified | crates/mnemosyne/src/binding.rs:153-207 | a preview is compatible, and Active, exactly for a matching handshake |
| BindingRuns.ActiveMeansVerified | crates/mnemosyne/src/binding.rs:153-312 | in every run of the registry's own previews a binding is Active exactly when it has a digest, and then some grant matched its backend, write source and read set |
| BindingRuns.DigestNamesTheGrant | crates/mnemosyne/src/binding.rs:442-463 | a stored digest can only have come from a grant that matches the binding |
| BindingRuns.ForgedPreviewIsStored | crates/mnemosyne/src/binding.rs:213-266 | a preview made by hand stores an Active binding without a digest |
| BindingRuns.ApplyKeepsVerifiedIff | crates/mnemosyne/src/binding.rs:213-266 | applying any preview to a verified table leaves it verified exactly when the preview's own row is |
| BindingRegistry.WorkspaceMemoryBindingRegistry.PreviewBinding | crates/mnemosyne/src/binding.rs:153-207 | collects the reasons one by one and returns the specified preview |
| BindingRegistry.WorkspaceMemoryBindingRegistry.LocalOnly | crates/mnemosyne/src/binding.rs:128-151 | creates the local binding at revision 1 unless a row exists |
| BindingRegistry.WorkspaceMemoryBindingRegistry.Apply | crates/mnemosyne/src/binding.rs:213-266 | replaces the row exactly when its revision is the preview's less one |
| BindingRegistry.WorkspaceMemoryBindingRegistry.Revoke | crates/mnemosyne/src/binding.rs:268-286 | closes the row as revoked, without digest, at the next revision |
| BindingRegistry.WorkspaceMemoryBindingRegistry.MarkIncompatible | crates/mnemosyne/src/binding.rs:288-312 | closes the row as incompatible only at the expected revision |
| VaultRuns.EveryRunKeepsProvenance | crates/mnemosyne/src/agent_scope.rs:131-235 | over every run nothing stored is changed or removed, and every record is a child's own or a promoted copy of a stored one |
| VaultRuns.EveryRecordHasProvenance | crates/mnemosyne/src/promotion.rs:48-149 | every record leads by finitely many promotions of the same process, agent and task, each from an earlier row and with growing event ids, to a Task-scoped child record; none has ApprovedCore authority |
| VaultRuns.ReachableProvenance | crates/mnemosyne/src/promotion.rs:48-149 | the same for every vault reachable from the empty one |
| VaultRuns.SourceWasStoredFirst | crates/mnemosyne/src/promotion.rs:48-149 | a promotion finds its source stored and its own id unused, and after any later run the copy still leads to that same row |
| VaultRuns.OnePromotionPerLink | crates/mnemosyne/src/promotion.rs:13-18 | exactly one promotion row stands behind each source record and target scope |
| VaultRuns.PromotionNeverCollides | crates/mnemosyne/src/promotion.rs:132-148 | while the hash functions do not collide, the record insert of a promotion never meets a stored id |
| VaultRuns.PromotionReplays | crates/mnemosyne/src/promotion.rs:70-83 | after any run a successful promotion asked for again returns the same record and changes nothing |
| VaultRuns.ConflictingPromotionIsRefused | crates/mnemosyne/src/promotion.rs:132-142 | after a successful promotion any other request for that record and scope is refused without effect, over every run |
| VaultRuns.RecordingReplays | crates/mnemosyne/src/agent_scope.rs:176-235 | recording the same draft again stores nothing and answers the stored record up to the time of the call |
| VaultRuns.ContextIsFixed | crates/mnemosyne/src/agent_scope.rs:290-313 | once a process is registered, exactly its own context is accepted for it, over every run |
| VaultRuns.RecallIsIsolated | crates/mnemosyne/src/agent_scope.rs:237-252 | a registered child recalls exactly the records whose chain starts at a record of its own process |
| VaultStore.AgentMemoryVault.Register | crates/mnemosyne/src/agent_scope.rs:131-142 | inserts the binding once and otherwise verifies it, keeping the invariant |
| VaultStore.AgentMemoryVault.RecordChild | crates/mnemosyne/src/agent_scope.rs:176-235 | stores the child's record once, keeping the invariant |
| VaultStore.AgentMemoryVault.Promote | crates/mnemosyne/src/promotion.rs:48-149 | stores promotion row and promoted record together or nothing, never with a storage error, keeping the invariant |
| VaultStore.AgentMemoryVault.Recall | crates/mnemosyne/src/agent_scope.rs:237-252 | answers exactly the records of the registered context, each once and in id order, and refuses any other context |
| Escaping.EscapeIsOnePass | crates/mnemosyne/src/projection.rs:284-290 | the four replacements in a row equal one pass over the characters, so none touches what an earlier one wrote |
| Escaping.EscapedIsPlain | crates/mnemosyne/src/projection.rs:284-290 | escaped text holds no bracket and no quote |
| Escaping.UnescapeRestores | crates/mnemosyne/src/projection.rs:284-290 | reading the entities back gives the original text |
| Truncation.BoundaryIff | crates/mnemosyne/src/projection.rs:276-282 | a byte position is a character boundary exactly when it ends a whole number of characters |
| Truncation.FittingIsLongest | crates/mnemosyne/src/projection.rs:276-282 | the prefix is within the limit and no further character fits after it |
| Truncation.FittingUnique | crates/mnemosyne/src/projection.rs:276-282 | the prefix within the limit that cannot be extended is unique |
| Truncation.TruncateUtf8 | crates/mnemosyne/src/projection.rs:276-282 | the backward loop over bytes returns the longest run of whole leading characters within the limit, byte for byte |
| Labels.RenderLabelled | crates/mnemosyne/src/projection.rs:234-274 | rendering with the truncation loop equals the specified label |
| Labels.RenderFits | crates/mnemosyne/src/projection.rs:255-273 | a rendered item keeps the limit per item |
| Labels.OpeningIsPlain | crates/mnemosyne/src/projection.rs:237-254 | no attribute value holds a quote or a bracket, so none can end its attribute or the tag |
| Labels.NoteHasNoBrackets | crates/mnemosyne/src/projection.rs:237-254 | the fixed note holds no bracket, so it is one of the notes the label theorems range over |
| Labels.RenderedItemIsOneElement | crates/mnemosyne/src/projection.rs:234-274 | whatever the content, a rendered item is one opening tag, text without brackets and one closing tag; it is marked truncated exactly when content is missing, and otherwise gives its content back |
| ProjectionRuns.SelectEligible | crates/mnemosyne/src/projection.rs:98-106 | the loop answers the fault of the first invalid item, or the eligible items in order and the count of the rest |
| ProjectionRuns.ProjectionIsBounded | crates/mnemosyne/src/projection.rs:125-157 | item count, total bytes and bytes per item keep their limits, and kept plus omitted is the input count |
| ProjectionRuns.ProjectionIsMaximal | crates/mnemosyne/src/projection.rs:125-149 | an eligible item is omitted only if the list is full or the item would still exceed the total |
| ProjectionRuns.ProjectionIsRanked | crates/mnemosyne/src/projection.rs:107-124 | the records stand by authority, confidence, recency and id: no later one belongs before an earlier one |
| ProjectionRuns.SortItems | crates/mnemosyne/src/projection.rs:107-124 | sorting neither loses nor adds an item |
| ProjectionRuns.UndecidedIffTied | crates/mnemosyne/src/projection.rs:107-124 | the ranking leaves two items undecided exactly when all four keys agree |
| ProjectionRuns.ProjectionIsRendered | crates/mnemosyne/src/projection.rs:136-148 | each record carries the metadata of some eligible item, with the text and the truncation flag of that item and none of its content |
| ProjectionOrder.ProjectionIgnoresOrder | crates/mnemosyne/src/projection.rs:90-157 | when eligible items that tie agree in metadata and rendered text, two recalls of the same items and degraded sources project alike, errors included, exactly when their first invalid items fail the same check |
| ProjectionContest.NoContestIsFixed | crates/mnemosyne/src/projection.rs:107-149 | if no deciding item has a different tied rival when its turn comes, every ranked order packs to the same records |
| ProjectionContest.ContestShows | crates/mnemosyne/src/projection.rs:107-149 | otherwise some other ranked order ends in an error or keeps other records, compared as the code returns them |
| ProjectionContest.ProjectionIsFixedIff | crates/mnemosyne/src/projection.rs:90-157 | for every list and all limits, no reordering shows in the outcome exactly when the limits are refused, or all invalid items fail the same check, or the ranked items pack without a contest between different records, or a label is too large and no order of the items ranked no later fills the list |
| ProjectionContest.RoomyIsFixedIff | crates/mnemosyne/src/projection.rs:90-157 | with room for every eligible item, order shows exactly when two tied ones come out as different records |
| ProjectionContest.FewCannotFill | crates/mnemosyne/src/projection.rs:125-149 | with fewer items that render and are ranked no later than the first too large label than there are places, no order gets past it |
| ProjectionOrder.SortIsFixedIff | crates/mnemosyne/src/projection.rs:107-124 | the sorted list is the same for every order of the input exactly when no two different items tie |
| ProjectionOrder.FaultIsFixedIff | crates/mnemosyne/src/model/record.rs:129-150 | the reported fault is the same for every order of the input exactly when all invalid items fail the same check first |
| Projector.ProjectItems | crates/mnemosyne/src/projection.rs:90-157 | the two loops around the sort equal the specified projection |
| Projector.PackItems | crates/mnemosyne/src/projection.rs:125-149 | the greedy loop equals the recursive packing |
| Projector.ProjectionKeepsItsPromise | crates/mnemosyne/src/projection.rs:90-157 | limits, conservation and maximality together for the real renderer |
| Projector.EveryRecordIsOneElement | crates/mnemosyne/src/projection.rs:136-148 | every projected record has the metadata of an eligible item and is one element around that item's escaped content |
| Projector.OrderShowsIff | crates/mnemosyne/src/projection.rs:90-157 | the exact condition for the real renderer, whose only failure is a label too large |
| Projector.TwinsShowIff | crates/mnemosyne/src/projection.rs:107-149 | with one place, the order of two items that differ in content alone shows exactly when they render differently |
| Projector.TiedPairShows | crates/mnemosyne/src/projection.rs:107-149 | if scrubbing tells "a" from "b", two items with these contents and the same metadata give different outcomes in the two orders |
| Projector.SortSees | crates/mnemosyne/src/projection.rs:107-149 | sorting the items and rendering them after is rendering first and sorting after, so no content decides the ranking |

## Left out

- Storage: SQLite itself, WAL, busy timeouts, JSON encoding, file permissions and schema migration; only keys, uniqueness, checks and all-or-nothing transactions are modelled.
- Machine integers: counters, revisions, times and lengths are unbounded, so saturating and wrapping arithmetic at the ends of `i64` and `u64` is not captured; only `saturating_sub` on a binding revision is.
- Intake: `remember_visible_records`, `is_record_visible`, `maintenance_status`, `pending_projection_receipts` and `receipt_for_principal`, which only read or record membership; the lease's phase column; payload sizes use one abstract measure although the code measures stored text in characters and new text in bytes.
- Kernel: interleaving inside a call and dropped futures; calls are serialized. Mailboxes, spaces, permits and budget scopes in the cleanup are one step that may stop half way. The operation tree, `cleanup_disconnected_connection` and signals other than their state change are not modelled.
- Patch: the parsers of the three patch formats, path validation, CRLF files, the final newline, and files whose every line is removed; the model starts from lists of raw lines. Line numbers are naturals, without the conversion through `isize`.
- Hardware: telemetry and its counter, battery, the biped provider, gRPC and the emergency stop; positions are reals, so signed zero is not captured.
- Binding: `local_only` is one step although the code reads, inserts and reads again; a corrupt stored row cannot occur.
- Vault: `attach_parent_projection`, `projected_for_child` and `projection_receipt`; validity times, supersession and sensitivity of records, which are constant here.
- Projection: `to_candidates` and salience; the scrubber, JSON texts and the printing of times and confidence are parameters, the printed ones restricted to letters, digits and `+ - . :`; confidences are reals, so the order of signed zeros is not captured. An item's kind, relevance score and evidence level, which neither the outcome nor its computation reads, are not part of the model.
- KernelRetry.TerminationPublishesIff: asks that the processes to restart were spawned, since ids are issued by the kernel; a group naming ids that do not exist yet is not covered.
- KernelGroups.LimitHoldsIffNarrow: says nothing of configurations in which a process was added twice or moved between groups; `KernelLimit.LimitSpansLineage` covers those in which everyone is still alone.
- Patch.ApplyPatchHunks: states the list of lines, not the text joined from it, whose final newline follows the input's.
- Embodiment.AcceptedIffRouted: does not model a provider's own errors, which the broker passes on unchanged.
- `crates/gateway`, `crates/execd`, the memory service, the clients and the command line: orchestration and input/output that would only add easy members.
