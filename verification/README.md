# Verified model of the awo orchestration core

This project models the stateful heart of `awo`, a tool that coordinates coding agents working in
git worktrees, and proves what its operations guarantee together. `dafny verify dfyconfig.toml`
checks all of it.

| file | what it models |
|---|---|
| `TeamModel.dfy`, `TeamManifest.dfy` | team manifests as values; the mutable manifest with its validator and mutators |
| `TeamRuns.dfy`, `TeamInvariants.dfy` | every way the application changes a manifest, and what all runs of such changes keep |
| `TeamEffects.dfy` | what each operation and reconciliation leave behind, field by field |
| `TeamOperations.dfy` | reconciliation with the store and the load-mutate-save transaction |
| `TaskExecution.dfy` | starting and delegating a task: the protocol, its guarantees, and the call that follows it |
| `TaskOutcomes.dfy` | what a call leaves in the file, from its events straight to the fields |
| `TaskRaces.dfy` | what can go wrong in it: leaks, tasks left in progress, two calls on one task |
| `TeamLifecycle.dfy` | archiving, tearing down and deleting a team |
| `EventBus.dfy`, `WakeupProtocol.dfy` | the event ring, polling consumers, and publishers and waiters as concurrent threads |
| `Session.dfy` | the session lifecycle under any number of processes, and the sweep over stored sessions |
| `Review.dfy`, `DirtyCache.dfy` | the review summary and the cache in front of git |
| `Slug.dfy`, `SlotNaming.dfy` | slugs, and names with truncated suffixes |
| `SkillSync.dfy`, `McpServer.dfy` | the two reconcilers: skill directories, and MCP subscriptions |

Code that changes state is modelled by classes and loops, each proved against a function or
predicate on values; the lemmas are about those. What the disk, git, processes, clocks, the
store and other processes answer is arbitrary: a parameter, or a value picked freely. The
external functions `install_skill`, the supervisor's sync and cancel, and the slot and session
commands appear as such answers with the effects that their code has on success and failure.

## Where the code falls short of what it promises

Each of these is stated exactly by the lemma named.

- The stored team status can go stale: generating a task from a plan item, and adding a task
  through the command runner, do not refresh it (`UnrefreshedCoherentIff`,
  `GenerationCanLeaveStaleStatus`).
- Commands take effect before they record it, so one that reports an error may have worked. Task
  execution leaks the slot that it acquired exactly when the slot's record cannot be read back or
  the acquisition fails after making it active, and it releases a slot on which it has started a
  session exactly when the start fails late (`AcquiredSlotFate`, `LeakHappens`, `LateAcquireLeaks`,
  `LateStartReleases`).
- A call leaves the task that it marked in progress exactly when the store fails on a lookup, the
  manifest cannot be read or written for the recovery or the last update, or the session is running
  (`LeftInProgressIff`). A failing dry run blocks a task that it never marked (`DryRunBlocks`).
- Two calls can start the same task (`DoubleStart`): a second call passes its checks exactly while
  the first has not marked the task or has moved it on again (`SecondCheckPassesIff`), and one that
  delegates the task only before the first has saved anything about its state
  (`SecondDelegationPassesIff`).
- A slot assigned to a member alone is unbound by the next reconciliation even if it is in use
  (`MemberOnlyBindingDropped`); a teardown then does not release it. The session checks of team
  deletion never decide anything (`NothingBoundNothingPlanned`).
- Terminal session rows are not final while anyone still works on an older copy: every store and
  delete is unconditional. A terminal row keeps its content until it is deleted exactly when the
  starting command is done, or about to store the same row, and nobody holds a live copy
  (`TerminalIsFinalIff`); a deleted one stays away exactly when the command is done and nobody holds
  a live copy (`DeletedIsFinalIff`). A terminal row becomes live again exactly when the starting
  command stores a dry run or a supervised launch (`RevivesIff`); otherwise one ending replaces
  another (`LastStoreWins`, `FinishCanReviveFailed`).
- A row with exit code 0 that is not Completed arises exactly when the last store was the cancel or
  timeout of a supervised session that had exited with 0, or the failure mark of a starting command
  that had seen exit code 0 (`ExitAgreesIff`, `CancelCanLeaveZero`, `MarkCanLeaveZero`).
- The comment at `crates/awo-core/src/events.rs:531` advises polling next from `head_seq`; that
  loses entries exactly when the limit cut the answer short (`HeadAsCursorLosesIff`).
- The `Dispatcher` trait's `dispatch`, which the MCP server calls, skips the cache invalidation
  of `AppCore::dispatch` (`RequeryIff`). The MCP server and the daemon, which go through the trait,
  take no snapshots, so their caches stay unread; the difference shows in a process that does both.
- The `slot.rs` slug function is not idempotent on input without an ASCII alphanumeric
  (`SlotSlugIdempotentIff`); slot names repeat from the 100000th slot on, a million slots later
  (`MillionLaterCollides`). Two processes, which both count from zero, collide when the slugs agree
  and the truncation leaves the same of the clock (`SameCounterCollidesIff`): for the first ten slots
  its last four digits (`FirstTenCollideIff`). A warm slot reused under a name with the same slug gets
  the same branch again (`ReuseRepeatsBranchIff`).
- A skill whose copy does not have the source's fingerprint (a source with symlinks inside) is
  copied anew by every sync (`SecondSyncQuietIff`); a dangling symlink at one catalog skill's
  target makes the whole call fail (`Reconcile`). Anything can be pruned at all exactly when no symlink
  lies on the way to `.agents/skills`, because that path is not resolved while the links are
  (`CanPruneIff`); a link to a skill deleted from the repository is never pruned (`DeadLinkStays`).
- A JSON-RPC request whose id is `null` gets no response (`AnsweredIff`); section 4 of
  JSON-RPC 2.0 discourages such ids but does not make them notifications.
- Per-repository reviews call a slot releasable that the global review does not when its only
  pending sessions carry another repository (`ReviewsPartitionFullyIff`).

## Model

| member | source | states |
|---|---|---|
| TeamManifests.TeamManifest.Validate | crates/awo-core/src/team.rs:270-402 | the five-pass validator with its growing id sets accepts exactly the well-formed manifests, and an error names a real defect |
| TeamManifests.TeamManifest.ValidateMembers | crates/awo-core/src/team.rs:284-293 | accepts exactly nonblank, unique member ids and yields the set of them |
| TeamManifests.TeamManifest.ValidateTasks | crates/awo-core/src/team.rs:301-316 | accepts exactly nonblank, unique task ids with known owners and yields the set of them |
| TeamManifests.TeamManifest.ValidatePlans | crates/awo-core/src/team.rs:318-359 | accepts exactly unique plan items with known owners and a known generated task iff generated |
| TeamManifests.TeamManifest.ValidateLink | crates/awo-core/src/team.rs:361-398 | accepts exactly known dependencies and a known, different replacement iff superseded |
| TeamManifests.WellFormedUnexplained | crates/awo-core/src/team.rs:270-402 | no validation error can describe a well-formed manifest |
| TeamManifests.TeamManifest.RemoveMember | crates/awo-core/src/team.rs:522-540 | the manifest left in memory and the verdict, also on failure |
| TeamManifests.TeamManifest.GenerateTaskFromPlanItem | crates/awo-core/src/team.rs:572-590 | adding and marking generated, each validated, with the exact in-memory result |
| TeamManifests.TeamManifest.SetTaskState | crates/awo-core/src/team.rs:592-602 | state set, link dropped unless superseded, status refreshed, validated |
| TeamManifests.TeamManifest.RequestTaskRework | crates/awo-core/src/team.rs:617-629 | from Review or Done only: result cleared, then Todo |
| TeamManifests.TeamManifest.SupersedeTask | crates/awo-core/src/team.rs:648-683 | links a live task to another live task, or refuses |
| TeamManifests.TeamManifest.RefreshStatus | crates/awo-core/src/team.rs:724-747 | archived stays; otherwise the status is derived from the task states |
| TeamManifests.TeamManifest.Archive | crates/awo-core/src/team.rs:856-889 | succeeds exactly when not archived and all tasks are archive-terminal |
| TeamManifests.TeamManifest.Reset | crates/awo-core/src/team.rs:916-939 | every task, plan item and binding is back to its starting value, everything else unchanged |
| TeamEffects.ResetEffect | crates/awo-core/src/team.rs:916-939 | field by field: every card is to do, without slot, branch, replacement or result, every plan item a draft, no member or lead has a slot, and identities, owners, dependencies and policies stay |
| TeamEffects.StatusMeaning | crates/awo-core/src/team.rs:724-747 | the derived status in terms of the card states: planning, complete and blocked, each exactly when |
| TeamEffects.ArchiveMeaning | crates/awo-core/src/team.rs:856-892 | archiving succeeds exactly with every card done, blocked, cancelled or superseded, and changes only the status |
| TeamEffects.AcceptEffect | crates/awo-core/src/team.rs:604-615 | accepts exactly cards in review or done, which become done; nothing else changes but the status |
| TeamEffects.ReworkEffect | crates/awo-core/src/team.rs:617-629 | sends exactly cards in review or done back to do, without result or replacement |
| TeamEffects.CancelEffect | crates/awo-core/src/team.rs:631-646 | cancels exactly cards that are not done, cancelled or superseded |
| TeamEffects.SupersedeEffect | crates/awo-core/src/team.rs:648-683 | the card becomes superseded by the replacement and no other card changes |
| TeamEffects.PolicyEffect | crates/awo-core/src/team.rs:484-512 | overwrites exactly the named settings of the one member with the id |
| TeamEffects.RemoveMemberEffect | crates/awo-core/src/team.rs:522-540 | keeps every other member, in order |
| TeamEffects.AssignSlotEffect | crates/awo-core/src/team.rs:685-697 | writes slot and branch of the one member or lead with the id |
| TeamEffects.BindSlotEffect | crates/awo-core/src/team.rs:699-711 | writes slot and branch of the one card with the id |
| TeamEffects.LeadEffect | crates/awo-core/src/team.rs:418-440 | promotion drops the lead session; only the current lead is given one |
| TeamEffects.AppendEffect | crates/awo-core/src/team.rs:542-548 | a card is appended as it is, and only the application's add refreshes |
| TeamEffects.GenerateEffect | crates/awo-core/src/team.rs:572-590 | the card is appended and exactly the approved plan item marked, with the card's id |
| TeamEffects.ApproveEffect | crates/awo-core/src/team.rs:558-570 | approves exactly drafts, and only the one with the id |
| TeamRuns.StarterIsFreshIff | crates/awo-core/src/team.rs:983-1022 | a starter manifest is well-formed and empty exactly for nonblank team, repository and objective |
| TeamRuns.SetTaskStateSucceedsIff | crates/awo-core/src/team.rs:592-602 | on a well-formed manifest it fails only for an unknown task or for newly Superseded |
| TeamRuns.SupersedeSucceedsIff | crates/awo-core/src/team.rs:648-683 | succeeds exactly for two different known tasks, neither cancelled nor superseded |
| TeamRuns.AddTaskSucceedsIff | crates/awo-core/src/team.rs:542-548 | the exact condition on a new card: id, owner, dependencies on earlier tasks or itself, replacement iff superseded |
| TeamRuns.GenerateTaskSucceedsIff | crates/awo-core/src/team.rs:572-590 | the second validation can never fail |
| TeamRuns.RemoveMemberSucceedsIff | crates/awo-core/src/team.rs:522-540 | exactly members that are no lead and own neither task nor plan item; the plan item case is caught by validation only |
| TeamRuns.UnvalidatedMutatorsKeepWellFormed | crates/awo-core/src/team.rs:442-444 | archive, reset, refresh and clearing the lead session keep well-formedness without validating |
| TeamRuns.ReconcileSucceeds | crates/awo-core/src/team/reconcile.rs:74-232 | reconciliation never invalidates a well-formed manifest, whatever the store answers |
| TeamRuns.SaveAcceptsWhatOperationsAccept | crates/awo-core/src/team/storage.rs:41-45 | the validation inside save never rejects what an operation accepted |
| TeamInvariants.StepKeepsInv | crates/awo-core/src/team.rs:542-683 | every step keeps well-formedness, backward dependencies and an acyclic ranking of replacements |
| TeamInvariants.SupersessionTerminates | crates/awo-core/src/team.rs:372-398 | in every reachable manifest, following replacements ends at a live task in fewer links than there are tasks |
| TeamInvariants.RankSuperseded | crates/awo-core/src/team.rs:648-683 | superseding keeps a tie-free ranking below the task count that all links descend |
| TeamInvariants.DependenciesStayOrdered | crates/awo-core/src/team.rs:361-370 | in every reachable manifest each dependency names a task at the same or an earlier index |
| TeamInvariants.DependencyCyclesAreSelfLoops | crates/awo-core/src/team.rs:361-370 | the only dependency cycle is a task depending on itself |
| TeamInvariants.StatusStaysCoherent | crates/awo-core/src/team.rs:724-747 | over runs of refreshing operations the stored status is Archived or the derived one |
| TeamInvariants.DerivedFromStateMultiset | crates/awo-core/src/team.rs:724-747 | the derived status depends on the multiset of task states only |
| TeamInvariants.UnrefreshedCoherentIff | crates/awo-core/src/commands/team.rs:321-336 | exactly which unrefreshed appends keep the status coherent |
| TeamInvariants.GenerationCanLeaveStaleStatus | crates/awo-core/src/team.rs:572-590 | a complete team with an approved plan item stays Complete after a task is generated |
| TeamInvariants.ArchivedEntryAndExit | crates/awo-core/src/team.rs:878-939 | Archived is entered only by archiving, all tasks being archive-terminal, and left only by reset |
| TeamOperations.ReconcileState | crates/awo-core/src/team/reconcile.rs:74-232 | the loops leave the reconciled manifest in memory and report exactly whether it must be saved |
| TeamEffects.ReconcileEffect | crates/awo-core/src/team/reconcile.rs:74-232 | from the facts: of each card the state, result and binding, of each member and the lead the binding, the lead session and the status that reconciliation leaves |
| TeamEffects.ReconcileChangesIff | crates/awo-core/src/team/reconcile.rs:74-232 | it saves exactly if a card moved or lost a binding, a verification failed, a member lost its binding or the lead session was dropped |
| TeamOperations.Transact | crates/awo-core/src/app/team_ops.rs:32-130 | one locked load, mutation and save is one step of the run model, or changes nothing |
| TaskProtocol.ReleasesExactlyOnFailure | crates/awo-core/src/app/team_ops.rs:655-684 | a call makes at most one slot active and issues exactly one release, of it, iff binding or launching failed |
| TaskProtocol.BoundSlotNeverReleased | crates/awo-core/src/app/team_ops.rs:598-617 | with a slot bound to task or owner, no slot is acquired or released on any path |
| TaskProtocol.BlocksExactlyOnFailure | crates/awo-core/src/app/team_ops.rs:598-684 | Blocked is requested exactly once iff the slot is unknown or foreign, or acquiring, binding or launching failed, dry run or not |
| TaskProtocol.AcquiredSlotFate | crates/awo-core/src/app/team_ops.rs:617-684 | of the slot that the call made active: neither launched on nor released iff its record could not be read back or the acquisition then failed; both iff the start failed after starting the session |
| TaskRaces.LeftInProgressIff | crates/awo-core/src/app/team_ops.rs:589-743 | an undisturbed call that marked the task leaves it in progress iff a lookup failed in the store, the manifest could not be read or written for recovery or last update, or the session is running |
| TaskRaces.LeakHappens | crates/awo-core/src/app/team_ops.rs:643-649 | on any startable, unbound task: a record that cannot be read leaks the slot and leaves the task in progress |
| TaskRaces.LateAcquireLeaks | crates/awo-core/src/commands/slot.rs:79-86 | on any startable, unbound task: an acquisition that fails after storing the active slot leaks it |
| TaskRaces.LateStartReleases | crates/awo-core/src/commands/session.rs:110-138 | on any startable, unbound task: a start that fails after starting the session has the task blocked and the slot's release issued |
| TaskRaces.DryRunBlocks | crates/awo-core/src/app/team_ops.rs:617-628 | on any startable, unbound task: a dry run whose acquisition fails blocks the task without having marked it |
| TaskRaces.JointIsStories | crates/awo-core/src/app/team_ops.rs:384-762 | each of two calls taking turns on the file lives a story in which the other is another process |
| TaskRaces.DoubleStart | crates/awo-core/src/app/team_ops.rs:434-684 | two calls that both check a task before either marks it both reach a launch |
| TaskRaces.SecondCheckPassesIff | crates/awo-core/src/app/team_ops.rs:481-486 | while one call is alone with the file, a second one that does not delegate passes its checks iff the first's last saved update did not leave the task in progress |
| TaskRaces.SecondDelegationPassesIff | crates/awo-core/src/app/team_ops.rs:436-463 | a delegating second call passes iff the first has saved no update of the task's state, the task is to do and the target can take it |
| TaskRaces.DelegatedCheckIff | crates/awo-core/src/app/team_ops.rs:436-530 | a delegating call's first phase passes iff the task is to do and the target is known, external and routable |
| TaskProtocol.SuccessTellsTruth | crates/awo-core/src/app/team_ops.rs:745-761 | the returned execution names the owner and the slot launched on, and whether it was acquired |
| TaskProtocol.FailedCheckTouchesNothing | crates/awo-core/src/app/team_ops.rs:434-567 | an error before the first save issues nothing and leaves the file, delegated owner included, to others |
| TaskProtocol.OnlyIoFailsUpdates | crates/awo-core/src/app/team_ops.rs:589-743 | amid any interference, later manifest updates fail for I/O only, or when the owner to bind was removed, and leave the task in the named state |
| TaskProtocol.AcceptedIff | crates/awo-core/src/app/team_ops.rs:589-743 | which updates a manifest can refuse; marking in progress is never refused |
| TaskProtocol.TaskStaysKnown | crates/awo-core/src/app/team_ops.rs:465-551 | once checked, the task stays in the manifest whatever other processes do |
| TaskProtocol.ReplayKeepsInv | crates/awo-core/src/app/team_ops.rs:384-762 | a call interleaved with other processes keeps every invariant of team runs |
| TaskProtocol.StoryIff | crates/awo-core/src/app/team_ops.rs:384-762 | a call's journal is a story iff each event is true of the file and allowed by the protocol |
| TaskExecution.AppCore.ExecuteTeamTask | crates/awo-core/src/app/team_ops.rs:384-762 | the commands dispatched, records read and updates saved, as the environment journals them, follow the protocol to its end with the returned result, and the file is what they make of it |
| TaskOutcomes.LaunchDecidesState | crates/awo-core/src/app/team_ops.rs:686-733 | undisturbed and saved, from the launch report to the file: Completed leaves the task in review, Failed blocked, Running in progress, and a live call with any other status in progress |
| TaskOutcomes.UnsavedLaunchKeepsState | crates/awo-core/src/app/team_ops.rs:710-743 | undisturbed and not saved: in progress, or in a dry run the state that the task had |
| TaskOutcomes.DryRunKeepsState | crates/awo-core/src/app/team_ops.rs:700-735 | only a dry run whose session neither runs nor ends skips the last update, and the task is as it was |
| TaskOutcomes.StartableMeaning | crates/awo-core/src/app/team_ops.rs:465-549 | the first phase passes exactly on cards not in progress whose owner works in external slots with known runtimes, and finds the card's slot or else the owner's |
| TaskOutcomes.BindEffect | crates/awo-core/src/app/team_ops.rs:655-667 | binding writes slot and branch to the card and its owner and to nothing else |
| TaskOutcomes.BindNames | crates/awo-core/src/app/team_ops.rs:577-667 | over every trace: it names the owner found at first and the slot and branch that were looked up |
| TaskOutcomes.FinishEffect | crates/awo-core/src/app/team_ops.rs:717-731 | the last update clears the result, moves the card and binds the session exactly to an owner who is the current lead, outside dry runs |
| TaskOutcomes.FinishNames | crates/awo-core/src/app/team_ops.rs:681-731 | over every trace: it names the owner found at first and the session that the launch reported |
| TaskOutcomes.SucceedsIff | crates/awo-core/src/app/team_ops.rs:384-762 | over every finished trace: the call succeeds exactly if each of its own steps went through and no bound slot is in another repository |
| TaskOutcomes.CommandsNameRightly | crates/awo-core/src/app/team_ops.rs:577-680 | over every trace: repository, task, slot and dry run of each command, from what the first phase found and what was acquired |
| TaskExecution.AppCore.CheckTask | crates/awo-core/src/app/team_ops.rs:434-567 | delegation, checks and first save, all or nothing |
| TaskExecution.AppCore.RecoverFailedStart | crates/awo-core/src/app/team_ops.rs:407-418 | asks once for the task to be Blocked, then dispatches one release of the given slot, if any, and nothing else |
| TeamLifecycle.BoundAfterReconcile | crates/awo-core/src/team/reconcile.rs:12-26 | after reconciliation the bound slots are exactly those of some task that are not free (all, if archived) |
| TeamLifecycle.BoundMeaning | crates/awo-core/src/team/reconcile.rs:12-26 | a slot is bound exactly if the lead, a member or a task has it |
| TeamLifecycle.ResetUnbinds | crates/awo-core/src/team.rs:916-939 | after a reset no slot is bound |
| TeamLifecycle.MemberOnlyBindingDropped | crates/awo-core/src/team/reconcile.rs:286-310 | a slot bound to a member but no task is unbound, even in use |
| TeamLifecycle.BuildTeardownPlan | crates/awo-core/src/team/reconcile.rs:28-72 | active, dirty, cancellable and blocking are exactly those on bound slots |
| TeamLifecycle.PlanMeaning | crates/awo-core/src/team/reconcile.rs:28-72 | per slot and session: active unless released, dirty as recorded; blocking exactly if running without a supervisor, any other live session cancellable |
| TeamLifecycle.NothingBoundNothingPlanned | crates/awo-core/src/app/team_ops.rs:317-335 | without bound slots there are no sessions in the plan |
| TeamLifecycle.TeamDesk.ArchiveTeam | crates/awo-core/src/app/team_ops.rs:198-238 | archives only with all tasks archive-terminal; with tables undisturbed and no error before the save, exactly when also no binding survives reconciliation |
| TeamLifecycle.TeamDesk.TeardownTeam | crates/awo-core/src/app/team_ops.rs:257-315 | amid any interference: resets only after every slot bound when releasing began was seen gone or released, releases no other, and a reset team has no bound slot; undisturbed: every held slot ends gone with no live session and all others are untouched |
| TeamLifecycle.TeamDesk.DeleteTeam | crates/awo-core/src/app/team_ops.rs:317-335 | undisturbed, refuses exactly when a binding survives reconciliation; otherwise removes the file unless an error stops it |
| TeamLifecycle.TeamDesk.AssignTeamMemberSlot | crates/awo-core/src/app/team_ops.rs:132-163 | unknown and foreign slots and unknown members change nothing |
| TeamLifecycle.TeamDesk.BindTeamTaskSlot | crates/awo-core/src/app/team_ops.rs:165-196 | unknown and foreign slots and unknown tasks change nothing |
| EventBus.EventBusInner.Publish | crates/awo-core/src/events.rs:552-567 | a batch extends the published log by its entries, numbered on; the ring stays the log's last max(capacity, 1) entries |
| EventBus.EventBusInner.Poll | crates/awo-core/src/events.rs:569-581 | the ring's answer is the log's |
| EventBus.PollFollowsLog | crates/awo-core/src/events.rs:569-581 | filtering and taking on the ring equals cutting the unbounded log |
| EventBus.PollNonemptyIff | crates/awo-core/src/events.rs:569-585 | nonempty iff the head is past the cursor and the limit is positive |
| EventBus.DeliveryInOrder | crates/awo-core/src/events.rs:526-533 | over any interleaving a consumer receives log entries, in order, without duplicates |
| EventBus.GapFreeIff | crates/awo-core/src/events.rs:526-533 | without gaps exactly when no poll found its cursor behind the window |
| EventBus.CaughtUpIff | crates/awo-core/src/events.rs:569-581 | after a nonempty poll the cursor is the head iff the limit did not truncate |
| EventBus.HeadAsCursorLosesIff | crates/awo-core/src/events.rs:526-533 | polling next from the head loses entries iff the limit truncated |
| WakeupProtocol.MutualExclusion | crates/awo-core/src/events.rs:636-682 | in every schedule at most one thread, publisher or waiter, is inside the mutex |
| WakeupProtocol.StaleSleeperIsWoken | crates/awo-core/src/events.rs:649-682 | a waiter asleep behind the head will be woken by a publisher that still owes its notification |
| WakeupProtocol.QuietMeansNoStaleSleeper | crates/awo-core/src/events.rs:649-682 | with all publishers idle nobody sleeps through an event |
| WakeupProtocol.WaitReturnsHonestly | crates/awo-core/src/events.rs:688-696 | a wait returns only with news, at its deadline or under a zero timeout, with a poll of a prefix of the log |
| WakeupProtocol.ReturnsIff | crates/awo-core/src/events.rs:688-696 | a waiter inside the mutex may return exactly with news, at once under a zero timeout, or at its deadline |
| WakeupProtocol.WokenReturns | crates/awo-core/src/events.rs:649-668 | once awake with news or at its deadline it comes back with its next step in the mutex, with all there is |
| Session.SessionRecord.Sync | crates/awo-core/src/runtime.rs:536-582 | the row and result of a sync, all error paths included |
| Session.SessionRecord.CancelWithReason | crates/awo-core/src/runtime.rs:584-663 | the row and result of a cancel, supervised or not |
| Session.SessionRecord.Execute | crates/awo-core/src/runtime.rs:440-534 | the row after running a prepared session, also when it fails midway |
| Session.RunKeepsLifecycle | crates/awo-core/src/runtime.rs:380-663 | in every interleaving of the starting command with syncs, cancels and deletes on old copies, of every copy: end reason iff terminal, Completed with code 0, Cancelled iff by the operator |
| Session.TerminalIsFinalIff | crates/awo-core/src/store.rs:428-476 | a terminal row keeps its content in every continuation until deleted iff nobody holds a live copy and the starting command is done or would store the same row |
| Session.DeletedIsFinalIff | crates/awo-core/src/commands/session.rs:305-318 | a deleted session stays deleted in every continuation iff the starting command is done and nobody holds a live copy |
| Session.RevivesIff | crates/awo-core/src/commands/session.rs:107-127 | a terminal row becomes live again iff the starting command stores a dry run or a supervised launch |
| Session.LastStoreWins | crates/awo-core/src/commands/session.rs:195-219 | a sync and a cancel that both read a live session: the later store decides how it ended |
| Session.FinishCanReviveFailed | crates/awo-core/src/commands/session.rs:107-127 | a one-shot row failed by another process's sync becomes Completed |
| Session.FinishCanReviveToRunning | crates/awo-core/src/commands/session.rs:107-127 | a supervised row failed before its supervisor existed becomes Running |
| Session.SyncTrueIff | crates/awo-core/src/runtime.rs:536-582 | sync reports a change exactly on a move to a terminal state |
| Session.OverdueEndsInTimeout | crates/awo-core/src/runtime.rs:536-560 | at or past its deadline a live session ends Failed with Timeout, or the sync errs and changes nothing |
| Session.OverdueIff | crates/awo-core/src/runtime.rs:541-549 | the deadline in milliseconds, with the truncation of whole seconds made explicit |
| Session.OneshotEndsIff | crates/awo-core/src/runtime.rs:634-663 | before its deadline a one-shot ends exactly if its process is gone, no pid is pending and both files can be read, with status, code and reason from the exit file and the logs |
| Session.LiveProcessIsLeftAlone | crates/awo-core/src/runtime.rs:634-640 | a live process, or one about to be recorded, leaves row and answer untouched |
| Session.SupervisedEndsIff | crates/awo-core/src/runtime.rs:562-581 | a supervised session ends exactly if its supervisor reports an exit, as that says |
| Session.CancelEffect | crates/awo-core/src/runtime.rs:588-632 | a stopped session takes the reason given, and a code only from the exit file of a supervised one; exactly when stopping fails |
| Session.ExecuteEffect | crates/awo-core/src/runtime.rs:440-534 | which executions end the session and how, exactly when they succeed, and the start stamp |
| Session.PreparedEffect | crates/awo-core/src/runtime.rs:380-438 | the prepared row, supervised exactly in pty mode |
| Session.CommandsStore | crates/awo-core/src/commands/session.rs:195-219 | the cancel command stores exactly stopped prepared or supervised copies; a failure mark keeps the code |
| Session.ExitAgreesIff | crates/awo-core/src/runtime/supervisor.rs:118-140 | over all runs, Completed coincides with exit code 0 unless, exactly, the last store was a stop of a finished supervised session or a failure mark on a row seen with code 0 |
| Session.CancelCanLeaveZero | crates/awo-core/src/runtime/supervisor.rs:118-140 | a run that ends Cancelled with exit code 0 |
| Session.MarkCanLeaveZero | crates/awo-core/src/commands/session.rs:110-127 | a run that ends Failed with exit code 0 after having been Completed |
| Session.SessionStore.SyncRuntimeState | crates/awo-core/src/commands.rs:379-387 | amid any changes by others, stores exactly the sweep of the copies listed at the start, up to the first error |
| Session.SweepStoresEnded | crates/awo-core/src/commands.rs:379-387 | it stores ended rows only, of sessions live in the listing, each once |
| Session.SweepStoresAll | crates/awo-core/src/commands.rs:379-387 | without error it stores every row that a sync ended |
| Session.SweepNeverRevives | crates/awo-core/src/commands.rs:379-387 | whatever others do, sessions live at the end would be live without its stores |
| Session.SweepAlone | crates/awo-core/src/commands.rs:379-387 | with nobody else at work each selected row is synced and the others are left alone |
| Review.BuildReviewSummary | crates/awo-core/src/snapshot.rs:737-860 | the loops and the hash map compute the declarative counts and the warnings in order |
| Review.SessionLoop | crates/awo-core/src/snapshot.rs:745-767 | the map holds exactly the slots with pending sessions and their number |
| Review.ReviewsPartition | crates/awo-core/src/snapshot.rs:305-322 | per-repository counts add up to the global ones, releasable up to slots busy only with foreign sessions |
| Review.ReviewsPartitionFullyIff | crates/awo-core/src/snapshot.rs:305-322 | they add up in full iff there is no such slot |
| Review.ConsistentReviewsPartition | crates/awo-core/src/snapshot.rs:305-322 | in particular when each session carries its slot's repository |
| ReviewMeaning.CountsMeaning | crates/awo-core/src/snapshot.rs:737-790 | each count is the number of slots or sessions with the property it is named after |
| ReviewMeaning.WarnedIff | crates/awo-core/src/snapshot.rs:737-860 | a warning is there exactly if an overlap, a failed session or the state of a slot and its sessions warrants it |
| DirtyCache.DirtyFileCache.GetOrRefresh | crates/awo-core/src/snapshot.rs:54-73 | a fresh entry is served, anything else is queried and stored |
| DirtyCache.BoundedStaleness | crates/awo-core/src/snapshot.rs:47-83 | with no assumption on the clock: every answer is git's own to a query for that slot made earlier in the run, or by this read, and begun less than the TTL before by the clock |
| DirtyCache.ServedWithinTtl | crates/awo-core/src/snapshot.rs:54-73 | under a clock that never runs backwards, every answer is git's at an instant not after the read and less than the TTL before it |
| DirtyCache.DispatchForcesRequery | crates/awo-core/src/app.rs:94-104 | after a dispatched release, delete or refresh of a slot its next read asks git, whatever happens in between |
| DirtyCache.RequeryIff | crates/awo-core/src/app.rs:194-208 | for every command and slot: a read asks git exactly if the command releases, deletes or refreshes that slot through the inherent entry point, or there is no entry less than five seconds old |
| DirtyCache.SnapshotKeeps | crates/awo-core/src/snapshot.rs:76-79 | a snapshot drops exactly the entries of slots that it does not show |
| Slug.SlotSlugify | crates/awo-core/src/slot.rs:138-157 | the loop yields the input's alphanumeric runs, lower-cased, joined by single dashes; `task` for the empty input |
| Slug.RepoSlugify | crates/awo-core/src/repo.rs:244-259 | the same without the default |
| Slug.SlugNormalForm | crates/awo-core/src/slot.rs:138-157 | only lower-case alphanumerics and single interior dashes |
| SlugLetters.LettersKept | crates/awo-core/src/slot.rs:138-157 | without its dashes a slug is the letters and digits of its input, lower-cased, in order |
| Slug.ToLowerIs | crates/awo-core/src/slot.rs:138-157 | capitals move to their small letters and nothing else moves |
| Slug.CopiesAgreeIff | crates/awo-core/src/repo.rs:244-259 | the two copies agree exactly on nonempty inputs |
| Slug.SameSlugIff | crates/awo-core/src/repo.rs:244-259 | slugs are equal exactly when the words are |
| Slug.RepoSlugIdempotent | crates/awo-core/src/repo.rs:244-259 | idempotent on all inputs |
| Slug.SlotSlugIdempotentIff | crates/awo-core/src/slot.rs:138-157 | idempotent exactly on empty inputs and those with an ASCII alphanumeric |
| SlotNaming.SlotNamer.BuildSlotId | crates/awo-core/src/slot.rs:109-123 | the id carries slug, clock and counter, and the counter moves on |
| SlotNaming.BranchesCollideIff | crates/awo-core/src/slot.rs:125-136 | two slots of one process get the same branch iff the slugs agree and both counters have six digits or more and agree in the last six |
| SlotNaming.PathsCollideIff | crates/awo-core/src/slot.rs:129-136 | the same for worktree paths |
| SlotNaming.SameCounterCollidesIff | crates/awo-core/src/slot.rs:114-136 | equal counters, as in two processes, give the same branch and path iff the slugs agree and the truncation leaves the same of what precedes the counter |
| SlotNaming.FirstTenCollideIff | crates/awo-core/src/slot.rs:114-136 | below ten: iff the slugs and the last four digits of the clock agree |
| SlotNaming.ReusedBranchesCollideIff | crates/awo-core/src/commands/slot.rs:27-37 | branches of slots with different counters, reused for any tasks, collide iff the slugs agree and the counters are confusable |
| SlotNaming.ReuseRepeatsBranchIff | crates/awo-core/src/commands/slot.rs:27-37 | one slot gets an earlier branch again iff the task names have the same slug |
| SlotNaming.FirstMillionDistinct | crates/awo-core/src/slot.rs:109-136 | a process's first million slots have pairwise distinct branches and paths |
| SlotNaming.MillionLaterCollides | crates/awo-core/src/slot.rs:133-136 | the bound is sharp |
| SkillSync.TargetDir.Reconcile | crates/awo-core/src/skills.rs:319-455 | every target settled, every name reported in its bucket, exactly the prunable entries removed; fails iff some target dangles, with the skills before it settled and nothing else changed |
| SkillSync.TargetDir.Prune | crates/awo-core/src/skills.rs:391-442 | removes exactly the non-catalog symlinks resolving under the shared root |
| SkillSync.CanPruneIff | crates/awo-core/src/skills/catalog.rs:11-13 | some directory can have something pruned iff no symlink lies on the path to the shared root |
| SkillSync.DeadLinkStays | crates/awo-core/src/skills.rs:411-434 | a link outside the catalog that does not resolve survives every sync |
| SkillSync.BucketsPartition | crates/awo-core/src/skills.rs:319-390 | linked, updated and skipped partition the catalog |
| SkillSync.LinkKeepsTargets | crates/awo-core/src/skills.rs:301-308 | linking never replaces or removes a target |
| SkillSync.TargetEffect | crates/awo-core/src/skills.rs:339-390 | what is at each catalog name afterwards, from the entry there before, the mode and the intent |
| SkillSync.ReportEffect | crates/awo-core/src/skills.rs:339-390 | which of the three lists each skill is in, from the same |
| SkillSync.StrangersStay | crates/awo-core/src/skills.rs:339-390 | only links to the skill itself and directories with a SKILL.md are ever replaced; foreign links, other directories and files stay as they were and are reported skipped |
| SkillSync.SyncRemovesOnlyPrunable | crates/awo-core/src/skills.rs:391-442 | a sync loses only prunable entries |
| SkillSync.SyncReachesMode | crates/awo-core/src/skills.rs:310-317 | after a sync each skill is in the mode, in conflict, or an unrecognised copy |
| SkillSync.SecondSyncQuietIff | crates/awo-core/src/skills.rs:310-317 | a second sync links and prunes nothing, and updates nothing iff one sync sufficed for every skill |
| McpServer.Server.HandleMessage | crates/awo-mcp/src/server.rs:34-70 | responds iff there is an id, under it; subscriptions and queue change only as stated |
| McpServer.Server.QueueResourceNotifications | crates/awo-mcp/src/server.rs:326-347 | queues the subscribed URIs that the events affect |
| McpServer.ServeSession | crates/awo-mcp/src/main.rs:36-77 | everything written in a session is, line by line, what that line is owed |
| McpServer.NotifiedExactly | crates/awo-mcp/src/server.rs:326-407 | a tool call notifies exactly subscribed and affected URIs, each once |
| McpServer.SubscribedIff | crates/awo-mcp/src/server.rs:188-216 | subscribed exactly after a subscribe request that no unsubscribe request has followed |
| McpServer.OwedIff | crates/awo-mcp/src/main.rs:36-77 | exactly when a line brings a notification of a resource; parse errors and blank lines |
| McpServer.AnsweredIff | crates/awo-mcp/src/main.rs:36-77 | exactly one response iff the id is present and not null, carrying it |
| McpServer.AffectsIff | crates/awo-mcp/src/server.rs:350-411 | which kinds of events affect which resource |
| McpServer.FaultsIff | crates/awo-mcp/src/server.rs:34-64 | exactly which requests get which error code |
| McpServer.RepliesWith | crates/awo-mcp/src/server.rs:76-216 | the payload of every other request |

## Left out

- TaskExecution.AppCore.ExecuteTeamTask: prompt text, the choice of runtime and model by routing, and the command outcomes it returns are not modelled; whether runtimes can be parsed is.
- TeamOperations.ReconcileState: the store's answers are one value per slot, and the verification command's one per task, for the whole pass; the log text is an arbitrary answer.
- SkillSync.TargetDir.Reconcile: I/O failures of installing and removing, Windows fallbacks, and symlinks that resolve through other entries of the same directory are not modelled.
- McpServer.Server.HandleMessage: the tool-to-command table and the JSON of payloads are not modelled; whether a tool call maps to a command is a parameter.
- Review.BuildReviewSummary: overlap detection's own warnings are a parameter.
- SlotNaming.ShortSuffix: byte slicing of repository ids with non-ASCII characters is not modelled.
- Free text of members, plan items and task cards (roles, titles, prompts, scopes), which no operation branches on.
- Error message text, and which of several defects a validator reports first; only that the reported one is real.
- A git worktree that an acquisition creates before storing the slot fails is not modelled as a slot.
- Partial writes of the manifest file, and TOML, JSON and SQL encodings.
- Overflow of 64-bit sequence numbers and counters, and poisoned mutexes.
- Fairness of the scheduler is not assumed: beyond the owed notification nothing is proved about when a waiter comes back.
- Overwriting a team with `team init --force`, the daemon, the user interfaces, routing tables, context discovery and diagnostics.
