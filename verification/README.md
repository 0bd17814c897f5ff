# A verified model of the control plane, the OCF codec and the agent runtime

The modules here model, in Dafny, the parts of the repository on which several processes, several encoders or several
callers have to agree, and prove what those parts are for. A maintainer can check all of it with
`dafny verify dfyconfig.toml`.

**The durable control plane** (`Tables`, `Budgets`, `Scopes`, `RunOps`, `WorkOps`, `TaskOps`, `Store`). The tables of
`RunStore` are maps and sequences in one `Database` value; a transaction is one step, and a thrown error is an `Err`
that changes nothing. A history is any sequence of transactions, each with its own clock reading, by any number of
daemons. On histories rest `Fencing` (leases and generations), `Journals`, `JournalSteps` and `Histories` (the event
journal, replay, completion), `Continuations` (the claim protocol), `ToolRecovery`, `Accounting` and `Shares` (usage,
commands, approvals), `LockTable`, `TaskGraph` and `Decisions` (commands, timers, approvals). `Scheduler` adds the processes that tick, crash
and come back, and `Ticks` says what their turns come to.
`Completion` models the gate and the verifier, `Streams` the publish loop of the event stream. `RunStores` has the
store as a class whose methods work row by row on a draft, as the transactions do, each proved against its
specification; `Drafts` holds what their loops need. `Deviations` holds histories at whose end the store does otherwise
than one may expect.

**The OCF/1 codec** (`Text`, `JsonStrings`, `Scanner`, `OcfValues`, `OcfRoundTrip`, `OcfDelta`, `OcfDeltaLaws`,
`OcfDeltaPlaces`, `OcfLines`, `OcfSchemas`, `OcfDocuments`, `OcfDocumentLaws`, `OcfWire`, `OcfCodecs`,
`OcfDeltaTexts`): values, their canonical
text and the strict parser; structural deltas and their text; schemas, records and streams; the registry. JSON pointers
are those of sections 3 and 4 of RFC 6901, quoted strings those of section 7 of RFC 8259.

**The language server frames** (`Lsp`): the incremental parser of the "Header Part" of the Base Protocol of the
Language Server Protocol 3.17.

**Agents** (`Sorting`, `Topology`, `AgentGraphs`, `AgentSnapshots`, `Mailboxes`, `AgentMailboxes`): the forest with its
redundant index, its walks and its snapshots; the mailbox with its idempotency index.

**Context** (`PageRank`, `Tokens`, `Planner`, `SemanticIndexes`): the ranking over the reals, the token estimate, the
budget planner, and the index whose builds are fenced by a generation counter.

Methods and classes stand where the source works step by step; each is tied to a function of its inputs or of its old
state, and the theorems are about those functions.

## What the code does otherwise than one may expect

Each of these has an exact condition and a reachable state or a concrete input at which it shows.

- `setGoalStatus` takes a lease and never looks at it: a call with a superseded fence commits exactly when the goal may
  be moved without any fence, and is the only stale write that does (`Fencing.StaleCommitsIff`,
  `Deviations.StaleGoalMoveCommits`).
- A tool call that the unfenced reconciliation marked unknown can be completed afterwards, as long as its generation is
  current: `completeToolCall` does not look at the status (`ToolRecovery.UnknownCompletesIff`,
  `Deviations.UnknownCallCompletes`). Nothing else leaves such a call (`ToolRecovery.UnknownIsReconciled`), and after a
  takeover none can be completed (`ToolRecovery.AbandonedForever`).
- A daemon that crashes with a claim and restarts under the same executor identity before its lease runs out renews the
  generation its orphaned claim belongs to at every tick, and never gets the continuation back
  (`Continuations.TakeoverFreesClaimIff`, `Scheduler.RestartStarves`, `Deviations.CrashOrphans`).
- A daemon that finds a Run recovering sets it running without a lease, even when its own has run out; no other turn of
  a daemon that has lost its lease changes anything (`Ticks.FencedTurnsChangeNothing`, `Ticks.ResumeIgnoresLease`,
  `Deviations.LateResumeMoves`).
- `createTask` accepts a dependency on a task of another Run; its completion then never makes the dependent task ready
  (`TaskGraph.CompletionUnblocksIff`, `Deviations.DependentWaitsForNothing`).
- `claimTask` on a waiting task that the claimant owns succeeds and leaves it waiting (`TaskGraph.ClaimSucceedsIff`,
  `TaskGraph.ClaimRunsIff`, `Deviations.WaitingTaskClaimed`).
- `recoverGraphWork` is refused when an agent of an older generation was left in recovering
  (`TaskGraph.RecoveryFailsIff`, `Deviations.RecoveringAgentBlocksRecovery`), and offers a task again however many
  attempts it has had (`TaskGraph.RecoveryRequeues`, `Deviations.AttemptsHaveNoLimit`).
- A Run that is neither running nor limited may start tools beyond its budget (`Accounting.IntentStartsIff`,
  `Deviations.PausedRunExceedsBudget`).
- A file scope and the same path with a slash at its end do not conflict, so that two writers may hold them
  (`Scopes.TwinsMeetIff`, `Scopes.SlashTwinsApart`).
- A field with abbreviations accepts the string `__proto__`, writes it as `{}` and reads back an empty object
  (`OcfDocumentLaws.PrototypeIsLost`); every other record that is accepted comes back, given a wire token for its schema
  (`OcfDocumentLaws.DocumentRoundTrip`).
- A schema with a string id that is no wire token can be encoded in the dense profile but not decoded
  (`OcfDocumentLaws.OddTokenFails`, `OcfDocumentLaws.OddIdIsUnreadable`), and the token of a dense stream may be
  answered by another schema's name or numeric id (`OcfCodecs.TokenResolves`, `OcfCodecs.ShadowedReads`,
  `OcfCodecs.ShadowedStreamFails`).
- The example stream of docs/architecture/OCF.md:17-20 writes a title with a blank bare and the items of a list in quotes;
  the code quotes the one and writes the others bare (`OcfWire.StringWritten`, `OcfWire.ArrayWritten`).
- The splitter of the delta reader goes on where the others refuse a bracket that was closed and not opened
  (`Scanner.SplittersAgree`, `Scanner.SplittersDiffer`).
- Normalizing a path twice may change it twice (`SemanticIndexes.NormalizedTwice`), so an update that names no file can
  rename one that was indexed before (`SemanticIndexes.UpdateRenames`).

## Model

| member | source | states |
|---|---|---|
| `Tables.FenceAgrees` | packages/core/src/leases.ts:61-72 | the store's check of a fence holds exactly when the core's `canWriteWithLease` holds of the lease row |
| `Journals.MoveEffect` | packages/control-plane/src/store.ts:2721-2743 | a move follows the transition table, sets the new status and appends one event that carries the next sequence and names both statuses; no usage, no budget and no other Run or journal changes |
| `Continuations.EnsureOnlyOffers` | packages/control-plane/src/store.ts:2813-2827 | `ensureContinuation` loses and changes no row, and what it adds is unclaimed |
| `Journals.AppendKeeps` | packages/control-plane/src/store.ts:2770-2811 | an appended event leaves every journal an extension of what it was, numbered without a gap, with the status of its Run as its replay, and nobody billed |
| `Store.Frames` | packages/control-plane/src/store.ts:148-2715 | each kind of transaction changes only its own tables |
| `Store.CommitsUnderLease` | packages/control-plane/src/store.ts:2900-2920 | a transaction that presents a fence, `setGoalStatus` aside, commits only while the fence names the holder, the generation and a time before the expiry of the lease row |
| `Fencing.StepEvolves` | packages/control-plane/src/store.ts:1385-1472 | one transaction never lowers a generation, never changes the holder of one, and never drops a lease row |
| `Fencing.LeasesEvolve` | packages/control-plane/src/store.ts:1385-1472 | the same over every history of transactions by any number of daemons with any clock readings: each generation has one holder forever |
| `Fencing.SupersededForever` | packages/control-plane/src/store.ts:2900-2920 | a fence that a newer generation has replaced stays replaced in every history |
| `Fencing.StaleWritesRefused` | packages/control-plane/src/store.ts:2900-2920 | once a newer generation is granted, no write that carries an older one, other than `setGoalStatus`, commits, however much later it comes, and it leaves the database as it was |
| `Fencing.StaleCommitsIff` | packages/control-plane/src/store.ts:1171-1208 | a transaction that carries a superseded fence commits exactly when it is `setGoalStatus` on a known goal of an existing Run, with the expected version and an allowed move; it then writes that goal, one event and at most one unclaimed continuation row, and nothing else |
| `Deviations.StaleGoalMoveCommits` | packages/control-plane/src/store.ts:1171-1208 | a Run is created, leased and taken over, and the goal is moved under the fence of the first lease |
| `Fencing.CommitsInGenerationOrder` | packages/control-plane/src/store.ts:2900-2920 | of two commits for a Run under fences that are looked at, that is all but those of `setGoalStatus`, the later one carries no older generation, and commits of one generation come from one executor |
| `Fencing.AcquisitionIsTakeover` | packages/core/src/leases.ts:37-72 | `acquireLease` is refused exactly while another executor may still write; when it is granted it is the core's takeover unless the caller may still write itself, and exactly then the fence of the previous holder is superseded |
| `Fencing.RenewalExtends` | packages/control-plane/src/store.ts:1453-1472 | a renewal succeeds for the live holder alone and moves only the end of its lease |
| `Journals.MoveKeeps` | packages/control-plane/src/store.ts:2721-2811 | a move keeps every journal an extension of what it was, gapless, and replaying to the new status of its Run |
| `Histories.StepKeeps` | packages/control-plane/src/store.ts:2721-2811 | one transaction keeps every Run and every event, numbers what it appends without a gap, and keeps the status equal to what the journal says; it completes a Run only as an earned proposal |
| `Histories.NothingIsLost` | packages/control-plane/src/store.ts:2770-2811 | in every history each journal only grows, and stays gapless and faithful to the status of its Run |
| `Histories.JournalsAreFaithful` | packages/control-plane/src/store.ts:281-289 | from the empty database a Run's events carry the sequences 1..n, and replaying them gives its status |
| `Histories.StepUnbilled` | packages/control-plane/src/store.ts:2867-2885 | only the three writes that record usage change what a Run has used |
| `Histories.TerminalReplay` | packages/core/src/state-machine.ts:19-59 | a faithful journal never leaves a terminal status |
| `Histories.TerminalForever` | packages/core/src/state-machine.ts:229-231 | a failed, completed or cancelled Run never changes status again |
| `Histories.CompletionIsEarned` | packages/control-plane/src/store.ts:1316-1383 | a Run is completed only after a step of the history that was an accepted and verified proposal, at which every required requirement not waived was proven with strong evidence, no validation had failed and an independent one had passed |
| `Completion.AuditRequirements` | packages/validation/src/ledger.ts:26-45 | the loop yields exactly the contradicted, proven and unproven obligations, each in the order of the ledger |
| `Completion.AuditAgreesWithStore` | packages/validation/src/ledger.ts:26-45 | the three lists split the obligations without overlap, and what is not proven in the audit is what the store's own filter rejects |
| `Completion.OpenObligations` | packages/validation/src/ledger.ts:26-45 | the requirements left open by the audit are the ones the store rejects |
| `Completion.Verify` | packages/validation/src/completion.ts:30-60 | the independent verifier passes exactly when no obligation is open and no validation failed; what it lists as missing are exactly the open obligations |
| `Completion.OpenReasonsMeaning` | packages/validation/src/completion.ts:72-120 | the gate has no reason to refuse exactly when the ledger and the validations satisfy it |
| `Completion.Evaluate` | packages/validation/src/completion.ts:72-120 | the gate accepts exactly when no reason was pushed and a configured verifier agreed; the reasons come in the order of the code |
| `Completion.GateAgreesWithStore` | packages/control-plane/src/store.ts:1316-1383 | for a running Run, recording the passing independent validation and proposing completion completes it exactly when the gate's conditions hold of the same ledger |
| `Streams.ListedFrom` | packages/control-plane/src/store.ts:281-289 | `listEvents` after a sequence yields the rest of a gapless journal |
| `Streams.EventStream.Publish` | packages/server/src/server.ts:530-575 | one publish writes exactly the events after the cursor, in order, and leaves the cursor on the last of them |
| `Streams.EachEventOnceInOrder` | packages/server/src/server.ts:530-575 | however appends, publishes, dropped connections and reconnections from the last seen sequence interleave, the client has received one unbroken stretch of the journal, each event once and in order |
| `Streams.CaughtUp` | packages/server/src/server.ts:530-575 | after a publish on a live connection the client has every event |
| `Continuations.StepRow` | packages/control-plane/src/store.ts:2813-2827 | what one transaction can do to the continuation row of a Run: offer, claim, re-offer or settle, and nothing else |
| `Continuations.ClaimsFit` | packages/control-plane/src/store.ts:2656-2697 | in every history a claimed row's epoch is at most the current generation, and if they are equal its claimant is the holder |
| `Continuations.OneUnfencedClaimant` | packages/control-plane/src/store.ts:2656-2697 | whoever holds a live lease of the claimed generation is the claimant, so no two executors that are not fenced off hold the claim |
| `Continuations.ContinuationLostOnlyBySettling` | packages/control-plane/src/store.ts:2699-2715 | in every history a row disappears only through a settlement by its own claimant under a live lease |
| `Continuations.RecoveryFreesOlderClaims` | packages/control-plane/src/store.ts:2461-2520 | a recovery offers again every claim of an older generation of its Run and no other |
| `Continuations.TakeoverFreesClaimIff` | packages/control-plane/src/scheduler.ts:138-171 | acquiring and then recovering frees a claim of the current generation exactly when the acquisition raises the generation: a daemon that comes back under its own executor identity within its lease does not free its own orphaned claim |
| `Continuations.SettlementEnds` | packages/control-plane/src/store.ts:2699-2715 | a settlement removes the claimant's row and puts a fresh pending one in its place only if asked to and the Run is still running with an active goal |
| `ToolRecovery.StepCall` | packages/control-plane/src/store.ts:2373-2406 | what one transaction can do to a tool call row |
| `ToolRecovery.CompletionLeaves` | packages/control-plane/src/store.ts:2373-2406 | a completion commits exactly under a live lease, gives its result to the named call if that is of this Run and generation, and leaves every other call as it was |
| `ToolRecovery.RecoveryAbandonsStranded` | packages/control-plane/src/store.ts:2461-2520 | a recovery marks exactly the running calls of older generations of its Run as unknown after a crash |
| `ToolRecovery.AbandonedForever` | packages/control-plane/src/store.ts:2373-2406 | a call that a takeover marked unknown after a crash is never completed in any history |
| `ToolRecovery.CallsFit` | packages/control-plane/src/store.ts:2297-2371 | in every history a call's generation is at most its Run's current one |
| `ToolRecovery.UnknownCompletesIff` | packages/control-plane/src/store.ts:2373-2406 | a call marked unknown can still be given a result exactly when its generation is still the current one, because `completeToolCall` never looks at the status |
| `ToolRecovery.UnknownIsReconciled` | packages/control-plane/src/store.ts:2408-2454 | in every history an unknown call that no newer generation was granted over was left by the unfenced reconciliation of its Run |
| `Deviations.UnknownCallCompletes` | packages/control-plane/src/store.ts:2373-2454 | a call is begun, reconciled to unknown, and given a result by the generation that began it |
| `Budgets.AllowedMeaning` | packages/core/src/policies.ts:277-370 | the budget allows general work exactly when every capped metric, the total included, is below its cap less what is reserved for recovery and validation |
| `Budgets.ExhaustionStays` | packages/core/src/policies.ts:277-370 | more usage never reopens an exhausted budget |
| `Budgets.AddUsageLaws` | packages/core/src/policies.ts:254-270 | usage adds up in any grouping and order, with no usage as the neutral element |
| `Accounting.ChargeBills` | packages/control-plane/src/store.ts:2867-2885 | a charge adds its delta to one Run's usage and to no other |
| `Accounting.UsageIsAccounted` | packages/control-plane/src/store.ts:2242-2371 | in every history the usage of a Run is the sum of its keyed entries, its unkeyed records and one tool call for each committed intent, refused ones included |
| `Accounting.EntriesStay` | packages/control-plane/src/store.ts:2242-2272 | a keyed usage entry is never changed or removed |
| `Accounting.KeyedReplay` | packages/control-plane/src/store.ts:2242-2272 | replaying a usage key, any history later, changes nothing |
| `Accounting.CommandReplay` | packages/control-plane/src/store.ts:1236-1290 | replaying a command id that succeeded for its Run, any history later, changes nothing |
| `Accounting.ApprovalAuthorizesOnce` | packages/control-plane/src/store.ts:2297-2371 | in every history an approval starts at most one tool call |
| `Decisions.StepApproval` | packages/control-plane/src/store.ts:850-943 | an approval stays with its Run; it is resolved once from pending, and consumed only once approved and by an intent of its Run |
| `Decisions.SpendingUses` | packages/control-plane/src/store.ts:2297-2371 | a call started on an approval finds it approved for its own Run and uses it up |
| `Decisions.ClosedForever` | packages/control-plane/src/store.ts:902-943 | a rejected, expired or consumed approval stays so in every history and starts no call |
| `Decisions.ApprovedBySomebody` | packages/control-plane/src/store.ts:902-943 | an approval that is approved was approved by a committed resolution of the history |
| `Decisions.ResolutionWakes` | packages/control-plane/src/store.ts:902-943 | resolving the last pending approval of a waiting Run, whichever way, sets it running and offers its continuation; no other resolution moves a Run |
| `Decisions.CommandLeaves` | packages/control-plane/src/store.ts:1236-1290 | a fresh command succeeds exactly from the statuses it may be given in; a pause leaves the Run paused, a cancel cancelled, a resume running, or queued if the Run was blocked or limited; and the receipt is the Run as it leaves it |
| `Decisions.TimersWake` | packages/control-plane/src/store.ts:2631-2654 | every due wake condition is marked and no other, and exactly the waiting Runs that one of them is for are set running |
| `Accounting.IntentStartsIff` | packages/control-plane/src/store.ts:2297-2371 | an intent in order starts its tool exactly when the Run is not limited and, while it is running, its budget still allows general work with this call counted |
| `Deviations.PausedRunExceedsBudget` | packages/control-plane/src/store.ts:2297-2371 | a Run whose budget allows no tool call is paused and then starts one |
| `Shares.UsageByAgent` | packages/control-plane/src/store.ts:2275-2295 | one share for every agent with an entry, in order of first appearance; each is the sum of that agent's entries, and together they are the keyed total of the Run |
| `Scopes.ConflictSymmetric` | packages/core/src/policies.ts:130-146 | whether two scopes conflict does not depend on which came first |
| `Scopes.WildcardMeans` | packages/core/src/policies.ts:531-536 | a pattern matches exactly the values it becomes when each star is replaced by some text without a line break |
| `Scopes.ConflictMeans` | packages/core/src/policies.ts:129-146 | two scopes conflict exactly when they are of one kind, at least one of them writes, and their identifiers are equal, or one is a pattern that turns into the other, or, for files, the names of one path begin those of the other |
| `Scopes.TwinsMeetIff` | packages/core/src/policies.ts:383-406 | a path without stars and the same path with a slash at its end overlap exactly when the path ends in a slash already |
| `Scopes.SlashTwinsApart` | packages/core/src/policies.ts:383-406 | `src` and `src/` do not conflict, though both are written |
| `LockTable.LocksExclude` | packages/control-plane/src/store.ts:2123-2206 | in every reachable state, of two locks of different (executor, run, generation) owners on one kind of thing, neither writes what the other may be about |
| `LockTable.ConflictsIff` | packages/control-plane/src/store.ts:2123-2206 | a caller that may lock is refused exactly when some scope clashes with a lock that is live, of another owner, and not of an older generation of the Run that asks under a lease |
| `LockTable.LocksEndOnlyByRight` | packages/control-plane/src/store.ts:2123-2224 | a lock ends only by its owner's release, by its expiry, or when a newer generation of its Run locks; a release ends exactly the locks of its own generation |
| `LockTable.AcquisitionGrants` | packages/control-plane/src/store.ts:2123-2206 | locking is all or nothing: what it grants are live locks of the caller for each requested scope, and no lock of an older generation of the Run is left |
| `TaskGraph.GraphStaysSound` | packages/control-plane/src/store.ts:1540-1905 | in every history of creations with dependencies in the same Run, claims, recoveries and transitions to completed, failed or cancelled, the graph is acyclic, tasks past pending have all dependencies completed, pending ones have an open one, a task at rest in failed has used every attempt, and ready tasks are unowned |
| `TaskGraph.NoDeadlock` | packages/control-plane/src/store.ts:2835-2865 | from every pending task a chain of open dependencies leads to a task that is not pending |
| `TaskGraph.ClaimSucceedsIff` | packages/control-plane/src/store.ts:1540-1584 | a claim succeeds exactly when a live lease of the task's Run claims it for an agent of that Run, and the task is ready or waits under that same agent |
| `TaskGraph.ClaimRunsIff` | packages/control-plane/src/store.ts:1540-1584 | a successful claim leaves the task running under the claimant exactly when it was ready; on a waiting task it leaves every task as it was |
| `Deviations.WaitingTaskClaimed` | packages/control-plane/src/store.ts:1540-1584 | a task is created, claimed and set to waiting; its owner claims it again with success, and it still waits |
| `TaskGraph.TransitionLeaves` | packages/control-plane/src/store.ts:1859-1905 | a transition succeeds exactly as the table and the lease allow; the task is released when it ends, an attempt is counted when it fails, a lease leaves its generation, and every task of the Run that is pending or has failed with attempts left and has its dependencies completed is ready afterwards, no other row changing |
| `TaskGraph.CreationLeaves` | packages/control-plane/src/store.ts:1802-1857 | a task is created exactly with a fresh id and known dependencies without repeats, unowned, and ready at once exactly when they are all completed |
| `TaskGraph.RecoveryRequeues` | packages/control-plane/src/store.ts:1612-1672 | a recovery makes every task of its Run that an older generation was running claimable again with one more attempt counted, whatever the limit on attempts, queues every agent an older generation was running, and touches no other task or agent |
| `TaskGraph.RecoveryFailsIff` | packages/control-plane/src/store.ts:1612-1672 | under a live lease the recovery is refused exactly when an agent of an older generation was left in recovering |
| `Deviations.RecoveringAgentBlocksRecovery` | packages/control-plane/src/store.ts:1612-1672 | an agent is left in recovering, its executor is replaced, and the successor under its live lease cannot recover |
| `Deviations.AttemptsHaveNoLimit` | packages/control-plane/src/store.ts:1612-1672 | for every number of attempts a history of claims, lost leases and recoveries ends with the task ready after that many |
| `TaskGraph.CompletionUnblocksIff` | packages/control-plane/src/store.ts:1859-1905 | completing the last open dependency of a pending task makes it ready exactly when both are tasks of one Run |
| `Deviations.DependentWaitsForNothing` | packages/control-plane/src/store.ts:1802-1905 | a task that depends on a task of another Run is pending with every dependency completed |
| `Scheduler.OneUnfencedExecution` | packages/control-plane/src/scheduler.ts:138-223 | whatever ticks, crashes, restarts, other transactions and clock readings interleave, when leases, claims and settlements come from schedulers alone, at most one process works on a Run's continuation with a claim that is not fenced off, and its claim is the one in the table, even when processes share an executor identity |
| `Ticks.ClaimsEndAsAsked` | packages/control-plane/src/scheduler.ts:168-223 | in any operation, under a live lease: a settlement deletes the claim and leaves an unclaimed row exactly when the execution asked for one and the Run still runs with an active goal; a refused launch and a failed execution offer the continuation again; a fenced failure changes nothing; and nothing else changes |
| `Ticks.ExecutionRenews` | packages/control-plane/src/scheduler.ts:178-206 | a heartbeat and the renewal at the end of an execution extend the lease alone; a heartbeat that came too late keeps the execution from settling, and a settlement asks for what the result says |
| `Ticks.WholeTickRuns` | packages/control-plane/src/scheduler.ts:138-223 | after any operation, a tick that nothing interrupts takes a Run whose continuation is due and free, or held by a replaced generation: it ends with the lease of the coming generation, the Run running, one continuation more on the goal, the older generations' calls unknown, and an unclaimed row exactly when the execution asked for one |
| `Ticks.FencedTurnsChangeNothing` | packages/control-plane/src/scheduler.ts:138-223 | no turn of a process whose lease is gone changes the database, but for the one that resumes a recovering Run |
| `Ticks.ResumeIgnoresLease` | packages/control-plane/src/scheduler.ts:160-162 | that turn moves the Run as the table allows, whatever lease there is |
| `Deviations.LateResumeMoves` | packages/control-plane/src/scheduler.ts:160-162 | a daemon recovers the work of a recovering Run, its lease runs out, and it sets the Run running |
| `Scheduler.OrphanStays` | packages/control-plane/src/scheduler.ts:138-223 | a tick under the identity that orphaned the claim, within its lease, renews the lease, recovers nothing and claims nothing |
| `Scheduler.RestartStarves` | packages/control-plane/src/scheduler.ts:138-223 | whatever moves of daemons, crashes and other transactions follow an orphaned claim, as long as every acquisition of that lease comes before it runs out, the claim and its generation stay, and no process works on the continuation |
| `Deviations.CrashOrphans` | packages/control-plane/src/scheduler.ts:138-223 | a Run is created, a daemon leases it, recovers, resumes, claims and crashes, and the claim is orphaned |
| `RunStores.RunStore.AcquireLease` | packages/control-plane/src/store.ts:1385-1451 | tied to the specification of the operation: the row it writes, or the refusal that changes nothing |
| `RunStores.RunStore.RenewLease` | packages/control-plane/src/store.ts:1453-1472 | tied to its specification: only the end of the live holder's lease moves |
| `RunStores.RunStore.ClaimContinuation` | packages/control-plane/src/store.ts:2656-2697 | tied to its specification: the action returned is the row claimed, under a current lease and goal quota, or none and nothing changes |
| `RunStores.RunStore.SettleContinuation` | packages/control-plane/src/store.ts:2699-2715 | tied to its specification: the claimant's row is deleted and offered again if wanted |
| `RunStores.RunStore.RecoverClaimedWork` | packages/control-plane/src/store.ts:2461-2520 | the loop over stranded calls ends in the state of the specification; the ids returned are exactly the calls of older generations |
| `RunStores.RunStore.RefreshReadiness` | packages/control-plane/src/store.ts:2835-2865 | the loop over pending tasks, each decided on the rows of the moment, comes to the promotion of exactly the tasks whose dependencies were completed when it began |
| `RunStores.RunStore.CreateTask` | packages/control-plane/src/store.ts:1802-1857 | tied to its specification: every dependency exists, the new task is pending and the Run is refreshed |
| `RunStores.RunStore.ClaimTask` | packages/control-plane/src/store.ts:1540-1584 | tied to its specification: the conditional update, and the owner read back |
| `RunStores.RunStore.TransitionTask` | packages/control-plane/src/store.ts:1859-1905 | tied to its specification: the table's transition, one event, and a refresh after completion |
| `RunStores.RunStore.RecoverGraphWork` | packages/control-plane/src/store.ts:1612-1672 | the loops over stranded tasks and agents end in the state of the specification; what is returned is exactly what was stranded |
| `RunStores.RunStore.AcquireResourceLocks` | packages/control-plane/src/store.ts:2123-2206 | the loops over scopes and locks end in the state of the specification, all locks or none |
| `RunStores.RunStore.ReleaseResourceLocks` | packages/control-plane/src/store.ts:2213-2224 | exactly the locks of the executor, Run and generation go |
| `RunStores.RunStore.RecordUsageFenced` | packages/control-plane/src/store.ts:2242-2272 | tied to its specification: a key that is there makes the write a no-op |
| `RunStores.RunStore.ResolveApproval` | packages/control-plane/src/store.ts:902-943 | tied to its specification: the approval is resolved once, and the last one to resolve wakes the Run |
| `RunStores.RunStore.RecordToolIntent` | packages/control-plane/src/store.ts:2297-2371 | the charge commits with the refusal; the tool may begin exactly when its row was written |
| `RunStores.RunStore.CompleteToolCall` | packages/control-plane/src/store.ts:2373-2406 | tied to its specification: the row of this Run and generation is updated whatever its status |
| `RunStores.RunStore.ExecuteCommand` | packages/control-plane/src/store.ts:1236-1290 | tied to its specification: the receipt commits with the transition |
| `RunStores.RunStore.WakeDueRuns` | packages/control-plane/src/store.ts:2631-2654 | the loop over due wake conditions ends in the state of the specification |
| `RunStores.RunStore.ProposeCompletion` | packages/control-plane/src/store.ts:1316-1383 | tied to its specification: the verdict decides between completion, recovery of the work and refusal |
| `Scanner.SplitLoop` | packages/context-format/src/value.ts:184-248 | the loop over `start`, `depth`, `inString` and `escaped` computes the splitting function, for the strict splitters and the lenient one of the delta reader |
| `Scanner.SplitJoined` | packages/context-format/src/value.ts:184-248 | splitting undoes joining with a delimiter, for parts that hold the delimiter only inside quotes or brackets |
| `Scanner.SplittersAgree` | packages/context-format/src/delta.ts:300-334 | the delta reader's splitter agrees with the strict ones on exactly the lines that never close a bracket they have not opened |
| `Scanner.SplittersDiffer` | packages/context-format/src/delta.ts:300-334 | and not on all lines: `][` is one part to the one and an error to the others |
| `JsonStrings.QuoteRoundTrip` | packages/context-format/src/value.ts:261-278 | reading a JSON-quoted string gives back the string, whatever it holds |
| `OcfValues.FillProperties` | packages/context-format/src/value.ts:300-364 | the property loop of `parseObject` fills the record the specification says, or stops at the same error |
| `OcfRoundTrip.PrintSkims` | packages/context-format/src/value.ts:147-177 | a splitter passes over printed text whole: it meets no comma or bar outside quotes and brackets at any depth, and no colon once inside brackets |
| `OcfRoundTrip.EncodeDecode` | packages/context-format/src/value.ts:147-177 | `encodeValue` accepts exactly the encodable values, and `parseValue` of its text is the value, a numeric `$ref` as its decimal string |
| `OcfRoundTrip.EncodingsCanonical` | packages/context-format/src/value.ts:108-134 | two encodings are equal exactly when the values are, as `valuesEqual` finds on values with string `$ref`s |
| `OcfRoundTrip.ValuesEqualIsEquality` | packages/context-format/src/value.ts:108-134 | `valuesEqual`, which compares sorted keys one by one, is equality |
| `OcfDelta.DecodeSegmentLoop` | packages/context-format/src/delta.ts:30-51 | the loop over escapes decodes a segment as specified, with the same refusals |
| `OcfDelta.PointerWritten` | packages/context-format/src/delta.ts:26-54 | a pointer puts a slash before each segment and writes a tilde as `~0` and a slash as `~1`, as RFC 6901 has it |
| `OcfDelta.PointerRoundTrip` | packages/context-format/src/delta.ts:26-65 | parsing a joined JSON pointer gives back its segments, whatever `~` and `/` they hold |
| `OcfDeltaPlaces.DeltaIsLocal` | packages/context-format/src/delta.ts:74-131 | a created delta adds exactly where only the target has something, removes exactly where only the base has, replaces exactly where both have different things that are not both objects, descends through objects alone, and goes by the order of names |
| `OcfDeltaPlaces.EditReaches` | packages/context-format/src/delta.ts:223-274 | an operation with a longer path changes only what the first name leads to, and does there what the rest of the path says |
| `OcfDeltaPlaces.ObjectLeaf` | packages/context-format/src/delta.ts:223-274 | at its end it adds a name that is not there, or removes or replaces one that is, and touches no other name |
| `OcfDeltaPlaces.ArrayLeaf` | packages/context-format/src/delta.ts:223-274 | in an array it takes a canonical index in range, the end included for an addition, puts an item in, takes it out or changes it, and moves the items behind it by one or not at all |
| `OcfDelta.DiffInto` | packages/context-format/src/delta.ts:74-115 | the recursion that pushes onto one list yields the specified difference, in order |
| `OcfDelta.ApplyDelta` | packages/context-format/src/delta.ts:277-298 | succeeds exactly when the base is encodable and has the base hash, every operation applies, and the result has the target hash |
| `OcfDeltaLaws.DeltaConfluent` | packages/context-format/src/delta.ts:74-131 | the operations of a difference point to places none of which is inside another, and applied in any order they turn the base into the target |
| `OcfDeltaLaws.DiffEmpty` | packages/context-format/src/delta.ts:74-115 | a difference is empty exactly when the values are equal |
| `OcfDeltaLaws.AnyOrder` | packages/context-format/src/delta.ts:223-274 | any operations at such places have the same result in every order |
| `OcfDeltaLaws.CreatedDeltaApplies` | packages/context-format/src/delta.ts:118-131 | a created delta is well formed, carries both hashes and leads from the base to the target |
| `OcfDeltaLaws.CreateThenApply` | packages/context-format/src/delta.ts:277-298 | `applyDelta(base, createDelta(base, target))` is the target |
| `OcfDeltaLaws.ApplyRefusesStrangers` | packages/context-format/src/delta.ts:277-298 | with a collision-free hash a delta applies only to its own base and rebuilds only its own target |
| `OcfLines.JoinedLines` | packages/context-format/src/ocf.ts:174-200 | lines joined by line feeds are read back as they were |
| `OcfSchemas.NormalizeSchema` | packages/context-format/src/schema.ts:43-117 | the loop with its sets of names and aliases accepts exactly the valid schemas, and fills in the version |
| `OcfSchemas.WireRoundTrip` | packages/context-format/src/schema.ts:256-282 | what a field puts on the wire it takes back, but for the one string its abbreviation object inherits as an object |
| `OcfDocumentLaws.EncodesIff` | packages/context-format/src/ocf.ts:46-121 | a document is encoded exactly when its records pass the check of the schema and each field can be written, whatever the profile |
| `OcfWire.RecordAccepted` | packages/context-format/src/schema.ts:189-250 | a record passes the check of its schema exactly when it has the fields of the schema and no others, each safe, of the types told, and among the abbreviations |
| `OcfWire.EncodedFits` | packages/context-format/src/ocf.ts:46-77 | whatever is encoded, in whichever profile, has only records that fit the schema so |
| `OcfWire.StreamLayout` | packages/context-format/src/ocf.ts:46-121 | the whole text of a stream: profile and shape, then token, version and field names, by name or alias, then a line for each record |
| `OcfWire.FieldWritten` | packages/context-format/src/schema.ts:256-267 | what a record line holds for a field: the value as written, or its declared abbreviation |
| `OcfWire.StringWritten` | packages/context-format/src/value.ts:136-158 | strings of letters and digits are written bare, and with a blank among them in quotes |
| `OcfWire.ScalarsWritten` | packages/context-format/src/value.ts:147-158 | the sigils of null, booleans, numbers and bigints |
| `OcfWire.ArrayWritten` | packages/context-format/src/value.ts:147-177 | an array is its items in brackets with commas between them |
| `OcfWire.ReferenceWritten` | packages/context-format/src/value.ts:147-177 | a reference is a sigil, the schema it names and its id |
| `OcfWire.ObjectWritten` | packages/context-format/src/value.ts:147-177 | an object is its properties in braces, keys quoted and in order |
| `OcfDocumentLaws.SchemaLineReads` | packages/context-format/src/ocf.ts:202-300 | the schema line reads back as its token, version and field names |
| `OcfDocumentLaws.RecordReads` | packages/context-format/src/ocf.ts:409-456 | a record line reads back as its record exactly when no field was sent as the inherited object |
| `OcfDocumentLaws.OddTokenFails` | packages/context-format/src/ocf.ts:202-300 | a dense stream of a schema whose string id is no wire token cannot be decoded |
| `OcfDocumentLaws.OddIdIsUnreadable` | packages/context-format/src/ocf.ts:202-300 | a valid schema with the id `two words`, and a record that is encoded under it and cannot be decoded |
| `OcfDocumentLaws.DocumentRoundTrip` | packages/context-format/src/ocf.ts:329-467 | for every valid schema, document and profile that encode, one record or any collection, the empty one included: decoding gives the document back, numeric `$ref`s as strings, exactly when the profile is not dense over a string id that is no wire token and no field was sent as the inherited object |
| `OcfDocumentLaws.NormalizesToItself` | packages/context-format/src/value.ts:366-405 | a document whose references all have string `$ref`s comes back unchanged |
| `OcfDocumentLaws.PrototypeIsLost` | packages/context-format/src/schema.ts:217-267 | a field with abbreviations takes the undeclared string `__proto__` and sends it as an empty object, in every profile |
| `OcfCodecs.ResolvingKeeps` | packages/context-format/src/schema.ts:119-187 | registering and resolving keep the two tables in agreement and never replace a schema they hold |
| `OcfCodecs.TokenResolves` | packages/context-format/src/schema.ts:168-181 | the token of a stream resolves to its own schema exactly when no other schema answers to it first, by name or by numeric id |
| `OcfCodecs.AdaptiveIsLightest` | packages/context-format/src/ocf.ts:352-366 | an adaptive encoding is that of a profile whose token estimate no profile undercuts and no simpler profile ties |
| `OcfCodecs.CodecRoundTrip` | packages/context-format/src/ocf.ts:369-467 | an encoding in a requested or the adaptive profile is decoded to its document by a registry that holds the schema, and is told it or finds it by the token, exactly when the token is no odd string id and no field was sent as the inherited object; the registry stays as it was |
| `OcfCodecs.ShadowedReads` | packages/context-format/src/schema.ts:168-181 | a stream whose token another schema answers to is read as that schema reads it: refused as a mismatch, but for a schema whose number is what the string id spells |
| `OcfCodecs.ShadowedStreamFails` | packages/context-format/src/schema.ts:168-181 | two registered schemas and a stream of the one that the other answers to and refuses |
| `OcfCodecs.Render` | packages/context-format/src/ocf.ts:79-107 | the loops over records and fields yield the specified text or the first error |
| `OcfCodecs.ReadLine` | packages/context-format/src/ocf.ts:409-456 | the field loop of one record line, against its specification |
| `OcfCodecs.ReadBody` | packages/context-format/src/ocf.ts:375-467 | the record loop, the schema checks before it and the record count after it, against their specification |
| `OcfCodecs.OcfSchemaRegistry.Register` | packages/context-format/src/schema.ts:123-142 | both tables gain the normalized schema, or an equal one is returned, or nothing changes |
| `OcfCodecs.OcfSchemaRegistry.Resolve` | packages/context-format/src/schema.ts:144-166 | a name, then a string id, then a numeric id; an unknown schema object is registered |
| `OcfCodecs.OcfSchemaRegistry.ResolveWireToken` | packages/context-format/src/schema.ts:168-181 | a name, then a numeric id, then a string id |
| `OcfCodecs.OCF.EncodeDetailed` | packages/context-format/src/ocf.ts:329-367 | tied to the specification of the encoding and of what resolving does to the registry |
| `OcfCodecs.OCF.Decode` | packages/context-format/src/ocf.ts:369-467 | tied to the specification of the decoding and of what resolving does to the registry |
| `OcfDeltaTexts.DecodeDelta` | packages/context-format/src/delta.ts:356-434 | the loop over operation lines reads the specified delta or stops at an error |
| `OcfDeltaTexts.DeltaLayout` | packages/context-format/src/delta.ts:337-353 | the whole text of a delta: what it is, the hashes of base and target, and a line for each operation with its name, path and value |
| `OcfDeltaTexts.DeltaTextRoundTrip` | packages/context-format/src/delta.ts:337-434 | a delta is written exactly when it is well formed and its values are encodable, and is read back as it was, numeric `$ref`s as strings |
| `OcfDeltaTexts.CreatedDeltaTravels` | packages/context-format/src/delta.ts:118-131 | a created delta comes through its text unchanged, and applied to the base gives the target |
| `OcfDeltaTexts.SendAndApply` | packages/context-format/src/delta.ts:277-434 | create, write, read and apply: the other side has the target |
| `Lsp.LspMessageParser.Push` | packages/integrations/src/lsp.ts:381-415 | one push returns what draining the buffer with the chunk yields and keeps the rest, or reports its error |
| `Lsp.LspMessageParser.ReadHeaderLoop` | packages/integrations/src/lsp.ts:421-460 | the line-by-line header loop reads the specified header or makes the specified refusal |
| `Lsp.HeaderReadBack` | packages/integrations/src/lsp.ts:463-469 | the header that the serializer writes is read as the length it carries, whatever follows it |
| `Lsp.PartialWaits` | packages/integrations/src/lsp.ts:381-460 | any strict beginning of a frame is kept and waited on |
| `Lsp.FramesDrain` | packages/integrations/src/lsp.ts:381-415 | whole frames come out as their bodies in order, and the rest stays |
| `Lsp.ChunkIndependence` | packages/integrations/src/lsp.ts:370-469 | for every list of frames within the size limit and every cut of any beginning of their stream into chunks, the parser has returned exactly the bodies whose frames are complete, in order, and holds exactly what has arrived of the next |
| `Lsp.StreamReturnsAll` | packages/integrations/src/lsp.ts:370-469 | when the whole stream has arrived every message has been returned and nothing is held |
| `Topology.LineageIsAbove` | packages/agents/src/graph.ts:313-332 | the agents of a lineage are exactly those the agent descends from |
| `Topology.BranchesApart` | packages/agents/src/graph.ts:284-310 | in a forest no agent descends from itself and siblings share no descendant |
| `Topology.OpenUpIsReached` | packages/agents/src/graph.ts:377-397 | every edge on the way up is open exactly when a walk down open edges from a root reaches the agent, or it is a root |
| `AgentGraphs.AgentGraph.RegisterRoot` | packages/agents/src/graph.ts:106-122 | adds a root or refuses and changes nothing; the graph stays an indexed forest |
| `AgentGraphs.AgentGraph.SetEdge` | packages/agents/src/graph.ts:547-569 | refuses exactly to move a child to another parent, and then changes nothing; the index by parent stays exactly the edges of the index by child, in order of child |
| `AgentGraphs.AgentGraph.Spawn` | packages/agents/src/graph.ts:128-171 | adds the agent and its open edge, or refuses and changes nothing; the graph stays an indexed forest |
| `AgentGraphs.AgentGraph.CloseSpawnEdge` | packages/agents/src/graph.ts:177-204 | closes the edge of the child and leaves everything else; the graph stays an indexed forest |
| `AgentGraphs.AgentGraph.TransitionAgent` | packages/agents/src/graph.ts:206-225 | changes one status as the table allows, and no parent or edge |
| `AgentGraphs.AgentGraph.ResumeAgent` | packages/agents/src/graph.ts:228-243 | queues an agent exactly when its status is resumable and its ancestry is open, and otherwise changes nothing |
| `AgentGraphs.AgentGraph.Ancestors` | packages/agents/src/graph.ts:313-332 | the walk up ends, meets no cycle, and yields exactly the agents above, from the root down |
| `AgentGraphs.AgentGraph.HasOpenAncestry` | packages/agents/src/graph.ts:377-397 | true exactly when the agent is a root or a walk over open edges from a root reaches it |
| `AgentGraphs.AgentGraph.Descendants` | packages/agents/src/graph.ts:284-310 | the walk ends and yields every agent below over edges of the given state exactly once, and no other, depth first with siblings in the order of the index |
| `AgentSnapshots.ReachesRoot` | packages/agents/src/graph.ts:520-535 | the walk up succeeds exactly when the agent is below a root |
| `AgentSnapshots.CheckTopology` | packages/agents/src/graph.ts:460-518 | accepts exactly when parents and edges agree and every agent is below a root |
| `AgentSnapshots.Restore` | packages/agents/src/graph.ts:45-56 | the constructor accepts exactly the snapshots of a forest whose agents and edges agree, and builds that forest |
| `AgentSnapshots.IndexUnique` | packages/agents/src/graph.ts:547-569 | the index by parent is determined by the edges |
| `AgentSnapshots.SnapshotRestores` | packages/agents/src/graph.ts:45-68 | every snapshot of a graph is accepted and restores the same three maps |
| `AgentMailboxes.AgentMailbox.Enqueue` | packages/agents/src/mailbox.ts:108-176 | files the message under the next sequence and its key, or returns the message of an equal retry, or refuses; as specified |
| `AgentMailboxes.AgentMailbox.Claim` | packages/agents/src/mailbox.ts:179-216 | refuses a blank delivery id, and otherwise delivers the batch message by message, as specified, and returns the delivered copies in order |
| `AgentMailboxes.AgentMailbox.Acknowledge` | packages/agents/src/mailbox.ts:218-245 | as specified: once, by the recipient, with the current delivery if one is named |
| `AgentMailboxes.AgentMailbox.Requeue` | packages/agents/src/mailbox.ts:248-271 | as specified: a delivered message waits again and keeps its attempts |
| `AgentMailboxes.AgentMailbox.Cancel` | packages/agents/src/mailbox.ts:273-298 | as specified: a queued or delivered message ends |
| `AgentMailboxes.Restore` | packages/agents/src/mailbox.ts:26-79 | the constructor accepts exactly the snapshots whose messages stand beside one another, and builds a sound mailbox |
| `AgentMailboxes.RestoredSound` | packages/agents/src/mailbox.ts:26-79 | what it builds has unique sequences below the next one and an index that finds exactly the keyed messages |
| `AgentMailboxes.SnapshotRestores` | packages/agents/src/mailbox.ts:26-97 | every snapshot of a sound mailbox restores that mailbox |
| `Mailboxes.Play` | packages/agents/src/mailbox.ts:108-298 | in every history sequences are unique and below `nextSequence`, the key index is exact, and messages a recipient has not had yet are waiting in send order |
| `Mailboxes.BatchIsOldest` | packages/agents/src/mailbox.ts:179-216 | a claim takes queued messages of its recipient, the oldest ones, in order |
| `Mailboxes.NotOvertaken` | packages/agents/src/mailbox.ts:179-216 | a claim lets no message overtake an earlier one that waits |
| `Mailboxes.StepMessage` | packages/agents/src/mailbox.ts:108-298 | content and place of a message stay, attempts only grow, acknowledged and cancelled are final |
| `Mailboxes.MessageForever` | packages/agents/src/mailbox.ts:108-298 | the same over every history |
| `Mailboxes.FirstDeliveriesInOrder` | packages/agents/src/mailbox.ts:179-298 | messages reach a recipient for the first time in the order they were sent, whatever is requeued, cancelled or claimed again in between |
| `Mailboxes.RetryReturnsFirst` | packages/agents/src/mailbox.ts:108-176 | an equal retry of a keyed message, any history later, returns the first message and changes nothing |
| `PageRank.AddEdgeWeighs` | packages/context/src/repomap.ts:470-478 | `addEdge` adds its weight between its two paths and nowhere else; loops and weights that are not positive add nothing |
| `PageRank.BuiltGraphOk` | packages/context/src/repomap.ts:470-490 | every graph built that way has positive weights and known targets other than the source, no two of one source the same |
| `PageRank.RanksConserved` | packages/context/src/repomap.ts:328-363 | over the reals, the ranks start out equal; after any number of iterations they add up to exactly 1 and each is at least 0.15/n, with or without dangling nodes |
| `PageRank.GivenByWeight` | packages/context/src/repomap.ts:340-358 | a path with links gives away 0.85 of its rank in proportion to the weights of its links and nothing to a path it has no link to; a dangling path gives every path the same |
| `PageRank.GivenInAll` | packages/context/src/repomap.ts:340-358 | what a path gives adds up to 0.85 of its rank |
| `PageRank.ReceivedIsSum` | packages/context/src/repomap.ts:328-363 | what a path receives is the sum of what every path gives it out of its own rank |
| `PageRank.Iterate` | packages/context/src/repomap.ts:328-363 | one iteration that pushes from every source computes 0.15/n and what every path receives |
| `PageRank.Compute` | packages/context/src/repomap.ts:328-363 | the loop yields the ranks after 24 iterations; they add up to 1 |
| `Tokens.PiecesShape` | packages/context-format/src/value.ts:513-521 | the sum over the matched pieces is a cost that each character adds to |
| `Tokens.EstimateIsCost` | packages/context-format/src/value.ts:513-521 | the estimate of any text with more than spaces is that cost |
| `Tokens.CostAppend` | packages/context-format/src/value.ts:513-521 | the cost adds up wherever no word runs across |
| `Tokens.CostGrows` | packages/context-format/src/value.ts:513-521 | a longer beginning of a text never costs less |
| `Planner.TruncateToBudget` | packages/context/src/planner.ts:164-196 | the binary search returns the whole content if it fits, or else the longest beginning that fits with its marker, or nothing when none fits |
| `Planner.LongestIs` | packages/context/src/planner.ts:164-196 | a beginning that fits, with every longer one too large, is the longest one |
| `Planner.TextGrows` | packages/context/src/planner.ts:234-297 | the estimate of the joined text is the sum of the blocks' costs |
| `Planner.ChooseBalanced` | packages/context/src/planner.ts:198-230 | choosing one item keeps the text within the budget and files the item once, as selected or as omitted |
| `Planner.AllBalanced` | packages/context/src/planner.ts:234-297 | and so for any list of items: the text stays within the budget, and selected and omitted ids partition the input |
| `Planner.MakePlan` | packages/context/src/planner.ts:234-297 | the plan's text is its blocks, costs exactly the sum of their costs and is within the budget, so the final trimming loop removes nothing; in the order considered, an item is left out exactly when neither its whole content nor, where it may be cut, any beginning of it has room behind the blocks selected before it; each block holds the best content that has room, and the reason of an omission is whether an empty block had |
| `Planner.OrderedAsAsked` | packages/context/src/planner.ts:234-261 | fixed items are considered by falling priority, then source, then id, candidates by falling rank, then id, with every item kept and none made up |
| `SemanticIndexes.ToChunks` | packages/context/src/semantic-index.ts:87-112 | the loop yields the specified chunks |
| `SemanticIndexes.WindowInOneChunk` | packages/context/src/semantic-index.ts:87-112 | any window of at most `overlapLines` + 1 lines of a file lies inside one chunk, which holds those lines as they stand |
| `SemanticIndexes.ChunksTile` | packages/context/src/semantic-index.ts:87-112 | the chunks of a file begin a step apart, as many as begin inside the file, each as long as a chunk may be or up to the end, with those lines and their analysis |
| `SemanticIndexes.NormalizedTwice` | packages/context/src/semantic-index.ts:50-52 | normalizing a path again changes it exactly when a leading `./` is still there |
| `SemanticIndexes.UpdateRenames` | packages/context/src/semantic-index.ts:212-220 | the file `././a` is indexed as `./a`, and an update that names no file renames it to `a` |
| `SemanticIndexes.NormalizeMeans` | packages/context/src/semantic-index.ts:311-325 | the table holds the indexable files under their normalized paths, and there is none exactly when two of them meet under one |
| `SemanticIndexes.UpdateForgets` | packages/context/src/semantic-index.ts:212-220 | in every history an update leaves exactly the new files, and of the old ones those that no removed path names and no new file replaces, as long as no path still begins with a dot and a slash |
| `SemanticIndexes.CountedChunks` | packages/context/src/semantic-index.ts:174-186 | counting chunk by chunk keeps the table equal to the number of chunks that hold each term |
| `SemanticIndexes.NextSound` | packages/context/src/semantic-index.ts:165-237 | every step between two awaits keeps the index sound |
| `SemanticIndexes.ReadyIsFresh` | packages/context/src/semantic-index.ts:165-237 | however `index`, `update`, `cancel`, `markUnavailable` and the builds in flight interleave, a ready index has published the files, chunks and frequencies of a fresh build of the files last asked for |
| `SemanticIndexes.SupersededIsSilent` | packages/context/src/semantic-index.ts:165-205 | once superseded, a build never publishes: in no continuation of the history does its going on or its failing change the status, files, chunks or frequencies |
| `SemanticIndexes.PublishesFresh` | packages/context/src/semantic-index.ts:165-237 | in every history what is published changes only to what a fresh build of the files last asked for would publish |
| `SemanticIndexes.SemanticIndex.IndexFiles` | packages/context/src/semantic-index.ts:165-172 | tied to its step: a new generation, or nothing when two files meet under one path |
| `SemanticIndexes.SemanticIndex.Update` | packages/context/src/semantic-index.ts:212-220 | tied to its step: removals, then the new files, over the files last asked for |
| `SemanticIndexes.SemanticIndex.Resume` | packages/context/src/semantic-index.ts:174-197 | tied to its step: one more file, or publication, or silence |
| `SemanticIndexes.SemanticIndex.Fail` | packages/context/src/semantic-index.ts:198-204 | tied to its step: failed, unless superseded |
| `SemanticIndexes.SemanticIndex.Cancel` | packages/context/src/semantic-index.ts:232-237 | tied to its step |
| `SemanticIndexes.SemanticIndex.MarkUnavailable` | packages/context/src/semantic-index.ts:223-230 | tied to its step |

## Left out

- SQLite, migrations and SQL: a transaction is one atomic step on maps, and foreign and unique keys are what the maps enforce.
- Timestamps are integers, and ids are given by the caller, who provides fresh ones; event payloads other than the kind, the status and the generation are not kept.
- Milestones, decisions, artifacts, costs, memory entries, checkpoints, session epochs, recovery states, worktrees and the store's own agent messages: plain inserts that would add only easy members.
- `recordProblem`: what it does to a Run and its goal is a goal status and a move that the histories already contain.
- `addTaskEvidence`: it links evidence to a task, and nothing in the control plane reads the link.
- `recordSteeringInput`, `recordCheckpointRestore` and other operations that only append an event: the histories have `appendFencedEvent`.
- Permission evaluation and sandbox constraints in the policies module.
- `assessAgentCapacity` and `selectAgentsForAdmission`: a filter, a sort and a slice.
- Scheduler.OneUnfencedExecution: leases are acquired, and continuations claimed and settled, by schedulers alone, as in the repository; all other transactions may come from anywhere. Timers, heartbeats and abort signals appear only as turns that may happen or not.
- TaskGraph.GraphStaysSound: the histories create tasks with dependencies in the same Run, and `transitionTask` is not asked to move a task to pending, ready or running, which no caller asks; transitions that no caller makes, such as from pending straight to ready, are excluded.
- OCF numbers are safe integers and bigints; fractions, exponents and minus zero are not modelled.
- JSON strings are sequences of characters; escapes of surrogate halves are not modelled.
- Line and column of a parse error: only its kind is modelled.
- OcfDelta.ApplyDelta: works on values, so that cloning and update in place, and with them aliasing between base and result, are not captured.
- OcfDeltaLaws.ApplyRefusesStrangers: SHA-256 is a parameter, assumed free of collisions in this member alone.
- `clearSchemas`, the static codec and `selectOcfProfile` of the OCF module.
- Text of LSP bodies: a body is opaque bytes, and whether it parses is a parameter. Streams with malformed headers are covered by the method contracts, not by the chunking theorem.
- OcfCodecs.CodecRoundTrip: a registry that is not told the schema, on a stream with an odd string id, is left out; whatever lines such an id makes are read as they stand.
- Lsp.ChunkIndependence: the messages are those of the serializer, with one header field each.
- Strings are ordered by code points. The codec sorts keys by UTF-16 code units, which differs only between characters beyond the basic plane and those from U+E000 on; the agent graph, the mailbox and the planner sort by locale.
- `closeAgent`, `taskPath`, `resumeCandidates` and `openChildCount` of the agent graph.
- The mailbox index is keyed by the pair of recipient and key, given recipients without a colon; a payload is its canonical text.
- PageRank over the reals; the extraction of symbols and imports, and `renderWithinBudget`, are not part of this model.
- SemanticIndexes.SemanticIndex.IndexFiles: refuses any two files that meet under one path; the source looks at neighbours after a sort by locale, and whether a locale leaves equal paths apart is not modelled.
- SemanticIndexes.ReadyIsFresh: the analysis of a text into terms is a parameter, and a document frequency is compared as the number of chunks that hold the term; search and its scores are left out.
- SemanticIndexes.SemanticIndex.Resume: builds yield after every file, which allows every interleaving of the source, where they yield after each 32.
- HTTP routing, the daemon process, the command line, provider adapters, worktrees and tools.
