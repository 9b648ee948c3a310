# Egress control plane

A model of the egress component of OpenSandbox (`components/egress`): the
sidecar that enforces a sandbox's outbound policy through nftables, DNS and a
transparent proxy, and the node-wide variant that serves many sandboxes
("subjects") at once.

The model has six parts.

* **Drain** (`Drain*.dfy`, `SubjectDrain.dfy`): the worker that mirrors
  registered subjects and their snapshots into the proxy child over a
  lifecycle connection. Handlers, children coming and going, and the worker
  interleave freely; a history of the wire carries the ordering claims.
* **Joint runs** (`JointRuns.dfy`): the planes of all subjects and the drain
  together. The drain's ordering claims need a Register to follow the Unload of
  the older generation; here that is proved of everything the planes record.
* **Sidecar** (`Sidecar*.dfy`): the revisioned policy and Vault changes of a
  single sandbox, with their file, kernel and receiver effects, the recovery
  latch, and the ownership of proxy children.
* **Policy plane** (`PolicyFiles.dfy`, `Subject*.dfy`, `PolicyServer.dfy`):
  SET, HOOK and REMOVE of a subject, relay writes, sealed export, import,
  restart and power loss.
* **Vault** (`Vault*.dfy`): sticky provenance of vault files under the v1
  writer, and the durable owner with its conditional v2 writer.
* **Rules** (`EgressRules.dfy`): merging and pruning of rule lists.

Each stateful part is written twice: as functions on a value state, about which
the theorems are proved, and as a class whose methods update fields in place and
are proved equal to those functions. Outcomes the code does not decide (a
write that may or may not have landed, a kernel error, a lost receipt, a
cancelled context) are inputs, restricted only by what the callee promises
about them: a save that reports success has landed, one that reports no effect
has not. Runs are arbitrary sequences of events.

## Where code and documentation disagree

The model follows the code.

* The comment on `mergeKey` says that differently scoped rules do not evict each
  other. Keys collide exactly when a portless rule's target spells out the key
  of another rule (`KeysExactly`); without a bar in the targets they never do
  (`NoBarNoMimic`).
* The comment on `clearPolicyRecordLocked` says that a tombstone that cannot be
  written latches recovery. It latches exactly when a write was attempted that
  may have touched the file (`ClearLatchesExactly`). Otherwise the removed policy
  can be adopted again (`RemovedPolicyComesBack`), exactly when the purge left its
  file in place (`RemovedPolicyReturns`).
* An acknowledged SET is meant to leave nothing of another generation. A removal
  that falls back to a tombstone stamps it with the fence of the record it found
  (`RemovalLeavesForeignRecord`; the condition is in `SetStampsRecord`).
* An import promises to keep the last good record when it is rejected. On a
  subject with a record and no published fence it drops the record before the
  unseal that can still fail (`FailedImportKeepsRecord`, `FailedImportDropsRecord`).
* A sealed source is promised to stay as exported. Across a restart an
  unparseable or foreign file is discarded (`SealedSourceDisappears`);
  `SealSurvivesReplayExactly` gives the condition.
* An import promises never to roll a newer local revision back. It skips the
  comparison when it cannot read the file, and then can (`ImportRollsBack`);
  `ImportRollsBackExactly` gives the condition.
* An acknowledged export is documented to leave a sealed subject and its bundle.
  Policy and vault export acknowledge an unregistered subject before anything
  else, also between a restart and the replayed SET, when its files are still
  there (`UnregisteredExportSealsNothing`, `UnregisteredVaultExport`;
  `ExportCarriesExactly` gives the condition).
* Revisions are promised to grow. They go on after a replay exactly when it could
  read the file (`RestartRestores`); otherwise a revision is committed twice
  (`RevisionsRestart`).
* A replay is promised to restore the acknowledged record. A power loss after an
  unlink that was not synced can bring back an older one (`OlderRecordComesBack`),
  and one after an unseal that was not synced a sealed deny
  (`SealMarkerComesBack`); `PowerLossRestoresExactly` gives the condition.
* An initialization grant is promised back only after a confirmed rollback. A
  rollback that landed without being confirmed returns it too, after a restart
  clears the latch (`GrantReturned`, `UnconfirmedRollbackRegrants`).

## Model

| member | source | states |
|---|---|---|
| `SubjectDrain.Drainer.constructor` | components/egress/fastsandbox_subject_worker.go:77-87 | a new drain is idle, has no child and knows the given published fences, the start state of every run below |
| `SubjectDrain.Drainer.DropInstalls` | components/egress/fastsandbox_subject_worker.go:224-233 | an in-place scan removes exactly the queued installs of one target and keeps the order of the rest |
| `SubjectDrain.Drainer.EnqueueInstall` | components/egress/fastsandbox_subject_worker.go:235-252 | the loop coalesces: a newer install replaces the first queued install of the same generation in place, and is appended when there is none |
| `SubjectDrain.Drainer.RecordIntent` | components/egress/fastsandbox_subject_worker.go:141-169 | records a Register or Unload: mirror, retained snapshot and queue together; a zero fence or an unencodable target records nothing |
| `SubjectDrain.Drainer.RecordSnapshot` | components/egress/fastsandbox_subject_worker.go:181-222 | retains a snapshot only for the registered generation and within the subject limit, and queues its install under the current child |
| `SubjectDrain.Drainer.PublishChild` | components/egress/fastsandbox_subject_worker.go:99-125 | a new child replaces the queue by Register, then install, of every registered subject, in the order given |
| `SubjectDrain.Drainer.DetachChild` | components/egress/fastsandbox_subject_worker.go:127-137 | only the current child detaches; that empties the queue and leaves mirror and snapshots |
| `SubjectDrain.Drainer.IsReserved` | components/egress/fastsandbox_subject_worker.go:438-459 | the scan answers whether a mirror entry, a rebind or a queued Register still needs the subject's epoch counter |
| `SubjectDrain.Drainer.IsRetryable` | components/egress/fastsandbox_subject_worker.go:672-682 | an install may be applied again iff its child and generation are current and no queued install of that target supersedes it |
| `SubjectDrain.Drainer.TakeNext` | components/egress/fastsandbox_subject_worker.go:336-397 | one turn of the worker: adopt a new child, drop stale intents, give up targets the child rejected, take the head of the queue |
| `SubjectDrain.Drainer.Conclude` | components/egress/fastsandbox_subject_worker.go:438-493 | what a confirmed or rejected lifecycle command leaves of installers, counters, rejections and queue |
| `SubjectDrain.Drainer.SendCommand` | components/egress/fastsandbox_subject_worker.go:399-410 | a command goes on the wire once, or is given up unsent; the outcome decides which |
| `SubjectDrain.Drainer.ReceiveAnswer` | components/egress/fastsandbox_subject_worker.go:411-437 | only a matching receipt of the live child concludes the command; a receipt of an older child abandons it |
| `SubjectDrain.Drainer.Settle` | components/egress/fastsandbox_subject_worker.go:605-634 | acts on the confirmed verdict of one prepare: committed ends it, aborted retries it or lets it go, a lost epoch fails it |
| `SubjectDrain.Drainer.FailInstall` | components/egress/fastsandbox_subject_worker.go:610-631 | a terminal failure drops the queued installs of the target, records them and the failed one as given up, and retires the target |
| `SubjectDrain.Drainer.ContinueInstall` | components/egress/fastsandbox_subject_worker.go:627-656 | after a confirmed abort the same intent is retried iff it still may be |
| `SubjectDrain.Drainer.ApplyInstall` | components/egress/fastsandbox_subject_worker.go:598-604 | one coordinator attempt through the transport that shifts local epochs by the installer's base |
| `SubjectDrain.Drainer.ReconcileInstall` | components/egress/fastsandbox_subject_worker.go:659-663 | an unknown outcome stays outstanding until a readback settles that very epoch |
| `DrainProofs.EnqueueKeeps` | components/egress/fastsandbox_subject_worker.go:235-252 | coalescing keeps one install per subject and the current epoch on every entry |
| `DrainProofs.RecordKeeps` | components/egress/fastsandbox_subject_worker.go:141-169 | recording an Unload, or a Register while no other generation is mirrored, keeps the whole drain invariant |
| `DrainProofs.RetainKeeps` | components/egress/fastsandbox_subject_worker.go:181-222 | retaining a snapshot keeps the whole drain invariant |
| `DrainProofs.PublishKeeps` | components/egress/fastsandbox_subject_worker.go:99-125 | replaying to a new child keeps the whole drain invariant |
| `DrainWorkerProofs.TakeKeeps` | components/egress/fastsandbox_subject_worker.go:336-397 | taking work keeps the invariant that ties queue, worker, counters and wire history |
| `DrainWorkerProofs.SendKeeps` | components/egress/fastsandbox_subject_worker.go:399-410 | sending keeps that invariant, and adds at most one outstanding command |
| `DrainWorkerProofs.AnswerKeeps` | components/egress/fastsandbox_subject_worker.go:411-493 | every answer, matching or late, keeps that invariant |
| `DrainWorkerProofs.ApplyKeeps` | components/egress/fastsandbox_subject_worker.go:598-667 | every outcome of an attempt keeps that invariant |
| `DrainWorkerProofs.ResolveKeeps` | components/egress/fastsandbox_subject_worker.go:605-667 | every verdict on an attempt keeps that invariant |
| `DrainRuns.StepKeeps` | components/egress/fastsandbox_subject_worker.go:99-497 | the drain invariant survives every event of handlers and worker |
| `DrainRuns.RunKeeps` | components/egress/fastsandbox_subject_worker.go:99-497 | the drain invariant holds after every interleaving of handler, child and worker events |
| `DrainRuns.NeverMissing` | components/egress/fastsandbox_subject_worker.go:525-575 | in every reachable state the counter and the installer the worker is about to use exist |
| `DrainRuns.QueueTheorem` | components/egress/fastsandbox_subject_worker.go:99-252 | after every run, whatever anyone records: all queued work belongs to the current child, every queued install is of a registered generation, at most one install per subject, snapshots only for registered subjects and at most the limit |
| `DrainRuns.NoOtherGenerationQueued` | components/egress/fastsandbox_subject_worker.go:235-252 | the coalescing branch for a queued install of another generation is dead code |
| `DrainRuns.InstallAfterRegister` | components/egress/fastsandbox_subject_worker.go:318-497 | on the wire, a prepare follows a confirmed Register of its target with no Unload of it sent in between |
| `DrainRuns.OneCommandAtATime` | components/egress/fastsandbox_subject_worker.go:397-437 | between two different lifecycle commands on one session lies the receipt of the first |
| `DrainRuns.ReapplyAfterAbort` | components/egress/fastsandbox_subject_worker.go:594-667 | one intent is prepared twice only if the last verdict in between was a confirmed abort |
| `DrainRuns.EpochsIncrease` | components/egress/fastsandbox_subject_worker.go:525-533 | wire epochs of one counter strictly increase over the whole run and never exceed 64 bits signed |
| `DrainRuns.CounterDropped` | components/egress/fastsandbox_subject_worker.go:438-459 | a counter disappears only with its child, or on a confirmed Unload of a subject that nothing reserves |
| `DrainRuns.EpochsRoundTrip` | components/egress/fastsandbox_subject_worker.go:525-562 | the offset translation is a bijection without overflow between the local epochs an installer used and its wire epochs |
| `DrainRuns.Converged` | components/egress/fastsandbox_subject_worker.go:318-497 | once the queue is drained the child knows exactly the registered generations, up to those it rejected and those whose Unload was given up unsent |
| `DrainDelivery.RunDelivers` | components/egress/fastsandbox_subject_worker.go:181-252 | in every reachable state each retained snapshot is installed, in flight, queued, or on record as given up |
| `DrainDelivery.SnapshotsArrive` | components/egress/fastsandbox_subject_worker.go:594-667 | once drained, the last snapshot the child committed for a registered subject is the retained one, or that very install was given up |
| `DrainCounters.RunCounters` | components/egress/fastsandbox_subject_worker.go:438-459 | over every run in which an Unload names the mirrored generation or none is mirrored: installers and the last prepare of a subject share its counter, and a counter is dropped only when no installer of the subject is left |
| `DrainCounters.SubjectEpochsIncrease` | components/egress/fastsandbox_subject_worker.go:508-575 | two prepares of one subject in one child, of whatever generations, have a confirmed Unload of the subject between them, or one counter and strictly increasing wire epochs |
| `JointRuns.CleanupMirror` | components/egress/fastsandbox_actions.go:549-589 | the cleanup of a rebind records the old generation's Unload at most once, whichever stage gets there |
| `JointRuns.PlaneMirror` | components/egress/fastsandbox_actions.go:549-645 | one action of a plane moves its mirror exactly with what it records, and never from one generation straight to another |
| `JointRuns.UnloadsMirrored` | components/egress/fastsandbox_actions.go:549-645 | a plane never records the Unload of another generation than the one it mirrors |
| `JointRuns.DrainFollowsPlanes` | components/egress/fastsandbox_subject_worker.go:141-169 | over every joint run of all planes, crashes, children and worker, also with other subjects' actions between an Unload and its Register, the drain is in a state of a disciplined and tidy run and agrees with every plane on mirror and token: the theorems above hold without assumption on the callers |
| `JointRuns.ChildFollowsPlanes` | components/egress/fastsandbox_subject_worker.go:318-497 | once drained, the child knows exactly the generations the planes published, up to those rejected, those whose Unload was given up unsent and those that cannot be encoded |
| `JointRuns.SubjectEpochsIncrease` | components/egress/fastsandbox_subject_worker.go:508-575 | in every joint run the wire epochs of a subject strictly increase within a child, across generations, until an Unload of it is confirmed |
| `JointRuns.UndisciplinedRegisterStrands` | components/egress/fastsandbox_subject_worker.go:160-167 | without that discipline convergence is false: the older generation stays known to the child for ever |
| `SidecarRuntime.Runtime.constructor` | components/egress/revision_recovery.go:87-107 | a new runtime is healthy, not ready, and has published the initial inputs at policy epoch zero |
| `SidecarRuntime.Runtime.InvalidateBootstrap` | components/egress/revision_recovery.go:111-115 | every captured bootstrap ticket is made stale |
| `SidecarRuntime.Runtime.RequireRecovery` | components/egress/revision_recovery.go:119-141 | the first reason stays, every outstanding ticket goes stale and readiness is cleared |
| `SidecarRuntime.Runtime.DetachMutation` | components/egress/revision_mutation.go:191-207 | recovery is latched if it was not, readiness is cleared, and child and session go to teardown |
| `SidecarRuntime.Runtime.RestoreFile` | components/egress/revision_policy_persistence.go:68-74 | the restore closure puts the earlier image back, and says so only if the write was confirmed |
| `SidecarRuntime.Runtime.UndoFile` | components/egress/revision_policy_mutation.go:137-144 | an unconfirmed restore latches and detaches |
| `SidecarRuntime.Runtime.PersistChange` | components/egress/revision_policy_persistence.go:36-100 | classifies a save: confirmed, certainly without effect, or latched |
| `SidecarRuntime.Runtime.UpdateSnapshot` | components/egress/revision_mutation.go:145-186 | the loop reconciles one exact attempt and reports confirmed, rejected or lost |
| `SidecarRuntime.Runtime.ReceiverStage` | components/egress/revision_policy_mutation.go:162-188 | receiver outcomes after the kernel: publish, undo, or contain |
| `SidecarRuntime.Runtime.FailKernel` | components/egress/revision_policy_mutation.go:148-159 | a kernel failure is undone only if it certainly had no effect |
| `SidecarRuntime.Runtime.KernelStage` | components/egress/revision_policy_mutation.go:145-169 | the kernel step, with cancellation before and after it |
| `SidecarRuntime.Runtime.ApplyRevisionPolicy` | components/egress/revision_policy_mutation.go:97-188 | the fixed order file, kernel, receiver, and each place it can stop |
| `SidecarRuntime.Runtime.ChangePolicy` | components/egress/policy_server.go:899-923 | a user change publishes proxy policy and base only after the whole chain |
| `SidecarRuntime.Runtime.ReloadRules` | components/egress/policy_server.go:995-1067 | an always-rules reload runs the same chain without the file |
| `SidecarRuntime.Runtime.ChangeVault` | components/egress/revision_mutation.go:51-133 | a live Vault change prepares the Store, updates the receiver and only then commits |
| `SidecarRuntime.Runtime.ReserveLaunch` | components/egress/mitmproxy_transparent.go:251-266 | one launch at a time, none while stopping; generations are fresh |
| `SidecarRuntime.Runtime.CaptureTicket` | components/egress/revision_recovery.go:143-170 | a ticket freezes the Vault revision and policy epoch the child is bootstrapped with |
| `SidecarRuntime.Runtime.PublishReady` | components/egress/revision_recovery.go:207-237 | readiness is published only for a live child whose ticket is still current |
| `SidecarRuntime.Runtime.NoteExit` | components/egress/mitmproxy_transparent.go:224-236 | an exit clears readiness and arms the latch only for the published child |
| `SidecarRuntime.Runtime.LatchOwnedExit` | components/egress/mitmproxy_transparent.go:237-249 | an unexpected exit of the published child requires recovery |
| `SidecarRuntime.Runtime.CloseRevisionSession` | components/egress/mitmproxy_transparent.go:141-175 | closes exactly the generation that exited |
| `SidecarRuntime.Runtime.ClaimForShutdown` | components/egress/mitmproxy_transparent.go:83-94 | shutdown takes the published child out once and bars new launches |
| `SidecarProofs.ChainIsAtomic` | components/egress/revision_policy_mutation.go:97-188 | for every combination of file, kernel, receiver and cancellation outcomes a change ends all-new, all-old and healthy, or contained with recovery latched and the gate closed |
| `SidecarProofs.KernelIsAtomic` | components/egress/revision_policy_mutation.go:145-188 | the same from the kernel step on, with the file already saved |
| `SidecarProofs.ReceiverIsAtomic` | components/egress/revision_policy_mutation.go:162-188 | the same from the receiver step on, with file and kernel already new |
| `SidecarProofs.UnsavedIsAtomic` | components/egress/revision_policy_persistence.go:36-100 | a save that is not confirmed leaves nothing changed or is contained |
| `SidecarProofs.VaultIsAtomic` | components/egress/revision_mutation.go:51-133 | a live Vault change ends all-new, all-old or contained for every receiver and Store outcome |
| `SidecarProofs.ConfirmedExactly` | components/egress/revision_mutation.go:145-186 | a snapshot counts as confirmed iff the exact attempt was accepted, or the first reconciliation that decides says it is active |
| `SidecarRuns.StepKeeps` | components/egress/mitmproxy_transparent.go:83-540 | the runtime invariant survives every event |
| `SidecarRuns.RunKeeps` | components/egress/mitmproxy_transparent.go:83-540 | the runtime invariant holds after every run from a fresh start |
| `SidecarRuns.ReadinessAgreement` | components/egress/revision_recovery.go:119-237 | whenever the gate is ready: no recovery, the published child is alive, and the identity it last confirmed is the current Vault revision and policy epoch |
| `SidecarRuns.HealthyMeansAgreed` | components/egress/revision_policy_mutation.go:97-188 | without recovery the kernel, the proxy and the file carry the inputs of the published base: no mixed state is healthy |
| `SidecarRuns.CommitIsAtomic` | components/egress/policy_server.go:899-923 | after any run, a user change is published everywhere at the next epoch, changes nothing, or is contained |
| `SidecarRuns.RecoveryIsOneWay` | components/egress/revision_recovery.go:119-141 | once latched, no later event clears or rewrites the reason or makes the gate ready |
| `SidecarRuns.OneOwnerEach` | components/egress/mitmproxy_transparent.go:83-378 | every child ever started is owned by exactly one of the pending attempt, the published slot and teardown, counted with multiplicity |
| `SidecarRuns.PublishedIncrease` | components/egress/mitmproxy_transparent.go:251-307 | published generations strictly increase |
| `SidecarRuns.ExitedNeverPublished` | components/egress/revision_recovery.go:207-237 | a child whose exit was recorded is never published |
| `SidecarRuns.StaleExitHarmless` | components/egress/mitmproxy_transparent.go:141-249 | in each of the three sections of an exit, one of another generation leaves the published child, its session, readiness and recovery alone; one of the published child clears readiness, and takes it down or latches |
| `PolicyFiles.CommitOutcomes` | components/egress/fastsandbox_policy_persist.go:231-281 | success means the candidate is in the file; failure without the latch means the file is as before; everything else latches |
| `PolicyServer.Server.constructor` | components/egress/fastsandbox_server.go:153-173 | every subject starts from what its file holds, with nothing in memory |
| `PolicyServer.Server.UnloadEnforcement` | components/egress/fastsandbox_server.go:708-719 | tears down one subject's kernel state; a failed teardown may leave it |
| `PolicyServer.Server.PurgeFile` | components/egress/fastsandbox_policy_persist.go:116-134 | unlinks one subject's file and, only if that is certain, its seal marker |
| `PolicyServer.Server.DropSubjectState` | components/egress/fastsandbox_server.go:742-775 | drops record, pending policy and fence unless a protected vault forbids it |
| `PolicyServer.Server.PersistCandidate` | components/egress/fastsandbox_policy_persist.go:231-281 | save, apply, and restore on failure, as `CommitOutcomes` classifies it |
| `PolicyServer.Server.ApplyPolicy` | components/egress/fastsandbox_server.go:507-524 | enforces in the kernel first and in the registry only after |
| `PolicyServer.Server.CleanUp` | components/egress/fastsandbox_actions.go:549-599 | the staged rebind cleanup resumes where an earlier attempt failed |
| `PolicyServer.Server.RehydratePolicy` | components/egress/fastsandbox_policy_persist.go:389-468 | reads the record of a fence back, case by case over the file |
| `PolicyServer.Server.RegisterAndEnforce` | components/egress/pkg/subject/registry.go:102-138 | registers deny-first and rolls the registration back if enforcement fails |
| `PolicyServer.Server.SeedRecord` | components/egress/fastsandbox_policy_persist.go:500-540 | seeds revision one for a binding that has no record |
| `PolicyServer.Server.SeedBinding` | components/egress/fastsandbox_policy_persist.go:475-540 | an existing record wins over the binding's input |
| `PolicyServer.Server.ClearPolicyRecord` | components/egress/fastsandbox_policy_persist.go:312-369 | removes the record, falling back to a deny tombstone |
| `PolicyServer.Server.UnbindPolicy` | components/egress/fastsandbox_actions.go:646-666 | a removal of the binding clears the record durably first and reverts an active subject to deny after |
| `PolicyServer.Server.SetBinding` | components/egress/fastsandbox_actions.go:471-680 | the whole SET, under one gate, touching no other subject |
| `PolicyServer.Server.DataPlaneReady` | components/egress/fastsandbox_actions.go:691-752 | activates the pending policy of exactly the current generation |
| `PolicyServer.Server.BeginRemove` | components/egress/fastsandbox_actions.go:764-797 | removes enforcement of the matching fence, retaining the state on failure |
| `PolicyServer.Server.Unregister` | components/egress/fastsandbox_actions.go:795-802 | drops the registration between the two locked sections of a REMOVE |
| `PolicyServer.Server.FinishRemove` | components/egress/fastsandbox_actions.go:802-831 | retires the drain's mirror entry and purges the subject |
| `PolicyServer.Server.EvictVictim` | components/egress/fastsandbox_server.go:728-734 | a subject whose address was claimed loses its state, file included |
| `PolicyServer.Server.CommitRelay` | components/egress/fastsandbox_policy.go:291-347 | one revision step through the commit protocol |
| `PolicyServer.Server.PutPolicy` | components/egress/fastsandbox_policy.go:155-267 | the optional expected revision must be the current one |
| `PolicyServer.Server.DeletePolicy` | components/egress/fastsandbox_policy.go:377-429 | a record must exist; deleting commits a deny at the next revision |
| `PolicyServer.Server.BeginExport` | components/egress/fastsandbox_policy_snapshot.go:56-86 | an unregistered subject is acknowledged at once and nothing is touched, latch or not; otherwise the image to copy is captured under the guards |
| `PolicyServer.Server.SealExport` | components/egress/fastsandbox_policy_snapshot.go:102-159 | the seal is taken only if the source still equals the copied image |
| `PolicyServer.Server.LandBundle` | components/egress/fastsandbox_policy_snapshot.go:219-346 | before registration only the file lands |
| `PolicyServer.Server.InstallImported` | components/egress/fastsandbox_policy_snapshot.go:356-380 | unseal, enforce, record, in that order, and reseal if any of them failed |
| `PolicyServer.Server.ImportRegistered` | components/egress/fastsandbox_policy_snapshot.go:219-346 | the commit protocol around that install |
| `PolicyServer.Server.ImportPolicy` | components/egress/fastsandbox_policy_snapshot.go:219-346 | guards of an import; a newer file of the same fence, if it can be read, acknowledges it without a write |
| `SubjectRebind.CleanupKeeps` | components/egress/fastsandbox_actions.go:549-599 | a cleanup that succeeds leaves no rules, fence or drain entry of an older generation; one that fails keeps the invariant |
| `SubjectRebind.SetKeeps` | components/egress/fastsandbox_actions.go:471-680 | every SET keeps the invariant, and an acknowledged one isolates its fence |
| `SubjectRebind.RunKeeps` | components/egress/fastsandbox_actions.go:471-831 | the isolation invariant holds after every run of SET, HOOK, REMOVE, relay, export, import, eviction, restart and power loss |
| `SubjectRebind.RebindIsolation` | components/egress/fastsandbox_transition.go:25-89 | after any history of failed, retried and superseding attempts, an acknowledged SET leaves registration, attachment, fence, drain entry and kernel rules of that one generation |
| `SubjectRebind.OldRulesRemovedFirst` | components/egress/fastsandbox_actions.go:549-624 | no SET registers its address while the kernel still dispatches another address of the subject or the drain still knows another generation |
| `SubjectRebind.NoLeftoverRules` | components/egress/fastsandbox_server.go:708-719 | a subject neither registered nor rebinding has no kernel rules |
| `SubjectRecord.RunKeeps` | components/egress/fastsandbox_policy_persist.go:223-540 | record, pending policy and file stay in agreement over every run |
| `SubjectRecord.RecordAgreesWithFile` | components/egress/fastsandbox_policy_persist.go:223-281 | without the latch, a healthy file-backed record is exactly what its file encodes: fence, revision and policy |
| `SubjectRecord.SetStampsRecord` | components/egress/fastsandbox_policy_persist.go:312-540 | an acknowledged SET leaves a record of its own fence; an acknowledged removal leaves none iff its purge went through, else a deny, and that is of its own fence iff the record it found was |
| `SubjectRecord.RelayOutcomes` | components/egress/fastsandbox_policy.go:155-267 | an acknowledged write is in file, durable image, record and, if active, kernel; a failure without the latch changes neither file nor live state; all else latches |
| `SubjectRecord.LatchFreezes` | components/egress/fastsandbox_policy_persist.go:286-296 | until a restart the latch stays and no relay write, export or import has an effect, over every run; one is acknowledged iff it is the export of an unregistered subject |
| `SubjectRecord.ImportRollsBackExactly` | components/egress/fastsandbox_policy_snapshot.go:219-346 | an import leaves the revision of a file of the same fence no lower iff it could compare the two, carries no older one, or its bundle did not end up in the file |
| `SubjectRecord.RevisionsChain` | components/egress/fastsandbox_policy.go:200-267 | on one record, across restarts whose replay can read the file, the revision after a run is the revision before plus the number of acknowledged writes |
| `SubjectRecord.AtMostOneWins` | components/egress/fastsandbox_policy.go:200-267 | of conditional writes that expect the same revision at most one is acknowledged, restarts between them included |
| `SubjectCrash.SetAdopts` | components/egress/fastsandbox_policy_persist.go:389-540 | what an acknowledged SET without a record in memory makes of every possible file, and the file it leaves |
| `SubjectCrash.RestartRestores` | components/egress/fastsandbox_policy_persist.go:371-468 | after a restart the replayed SET restores the last acknowledged policy, and the revisions go on, iff it could read the file; else it denies |
| `SubjectCrash.StepLeaves` | components/egress/fastsandbox_policy_persist.go:223-281 | whatever event runs and wherever it stops, the file is the old image, the one candidate, or gone if the event may unlink; a power loss may add only what it could leave before, or torn bytes if the event is a seed |
| `SubjectCrash.CrashMidWrite` | components/egress/fastsandbox_policy_persist.go:223-281 | a crash in the middle of any event: after a restart the replay finds the old image, the single candidate or no file if the event may unlink, after a power loss also whatever no barrier had ruled out; it adopts exactly what it finds |
| `SubjectCrash.InterruptedWrite` | components/egress/fastsandbox_policy.go:155-347 | interrupted on a healthy record, by a restart or once the file is synced, an event leaves that record, the one being written or, if it may unlink, none |
| `SubjectCrash.PowerLossRestoresExactly` | components/egress/fastsandbox_policy_persist.go:148-281 | whatever image and seal marker a power loss leaves, the replay restores the acknowledged record or a degraded deny iff it cannot read the file or what it finds is recoverable |
| `SubjectCrash.AcknowledgedIsRecoverable` | components/egress/fastsandbox_policy.go:291-347 | an acknowledged relay write or live import is recoverable from every power loss |
| `SubjectCrash.SeedIsReconstructed` | components/egress/fastsandbox_policy_persist.go:526-540 | the seed needs no barrier: on a synced disk without a seal, whatever a power loss leaves of it, a replay of the same SET reconstructs it or denies |
| `SubjectActivation.SetNeverOpens` | components/egress/fastsandbox_actions.go:471-680 | a SET never activates; acknowledged on an inactive subject it leaves the kernel at deny |
| `SubjectActivation.WritesNeverOpen` | components/egress/fastsandbox_policy.go:291-429 | relay writes, export and import change enforcement only on an active subject |
| `SubjectActivation.NeverEarly` | components/egress/fastsandbox_actions.go:682-752 | no event but the hook of the current generation activates a subject or opens the kernel of an inactive one, and the hook opens it with the pending policy |
| `SubjectActivation.ActiveMeansHooked` | components/egress/fastsandbox_actions.go:682-752 | an active subject was activated by a hook for its very generation, and has been active at every step since |
| `SubjectSeal.ExportCarriesExactly` | components/egress/fastsandbox_policy_snapshot.go:56-210 | an acknowledged sealed export, whatever committed during its copy, carried the source and sealed it iff the subject was registered at the first lookup; otherwise it did nothing |
| `SubjectSeal.SealHolds` | components/egress/fastsandbox_policy_snapshot.go:49-159 | no run of writes, replays, restarts and refused or stale actions changes a sealed stable source, and no relay write in it is acknowledged |
| `SubjectSeal.ExportSeals` | components/egress/fastsandbox_policy_snapshot.go:49-210 | the acknowledged export of a registered subject with a stable source starts such a run: what it carried and the source stay equal |
| `SubjectSeal.SealSurvivesReplayExactly` | components/egress/fastsandbox_policy_persist.go:389-468 | on a restarted process the replay keeps source and seal iff it cannot read the file, the file is stable, or the unlink of an unparseable one failed |
| `SubjectFindings.FailedImportKeepsRecord` | components/egress/fastsandbox_policy_snapshot.go:219-346 | a failed import without the latch keeps the record iff it did not land under a record of an unpublished subject |
| `SubjectFindings.FailedImportDropsRecord` | components/egress/fastsandbox_policy_snapshot.go:219-346 | a run in which a refused, unlatched import dropped a healthy record |
| `SubjectFindings.ClearLatchesExactly` | components/egress/fastsandbox_policy_persist.go:307-369 | a failed clear latches iff it got as far as a tombstone write that may have touched the file; the record is gone from memory either way |
| `SubjectFindings.RemovedPolicyReturns` | components/egress/fastsandbox_policy_persist.go:307-369 | after any run and any number of removals that failed to clear without the latch, the next SET brings the removed policy back iff the record was of its generation, every purge left its file and it can be read |
| `SubjectFindings.RemovedPolicyComesBack` | components/egress/fastsandbox_policy_persist.go:307-369 | a run in which that happens |
| `SubjectFindings.RemovalLeavesForeignRecord` | components/egress/fastsandbox_policy_persist.go:312-369 | a run in which an acknowledged removal of one generation leaves the record and file of another |
| `SubjectFindings.ImportRollsBack` | components/egress/fastsandbox_policy_snapshot.go:219-346 | a run in which an older bundle is acknowledged over a newer file whose revision could not be read |
| `SubjectFindings.UnregisteredExportSealsNothing` | components/egress/fastsandbox_policy_snapshot.go:56-73 | a run in which the export of a bound subject is acknowledged after a restart, carries and seals nothing, and a relay write follows |
| `SubjectFindings.OlderRecordComesBack` | components/egress/fastsandbox_policy_persist.go:116-134 | a run in which an unsynced unlink and a power loss bring back the policy before an acknowledged seed |
| `SubjectFindings.SealMarkerComesBack` | components/egress/fastsandbox_policy_persist.go:148-169 | a run in which an unsynced unseal and a power loss turn the replay of an acknowledged seed into a sealed deny |
| `SubjectFindings.RevisionsRestart` | components/egress/fastsandbox_policy_persist.go:549-557 | a run in which an unreadable replay is acknowledged and a revision is committed twice |
| `SubjectFindings.SealedSourceDisappears` | components/egress/fastsandbox_policy_persist.go:389-468 | a run in which the file a sealed bundle was copied from is discarded |
| `VaultRelay.LiveVault.constructor` | components/egress/fastsandbox_vault_persist.go:351-355 | nothing is known about a vault file before it is looked at |
| `VaultRelay.LiveVault.InspectLazily` | components/egress/fastsandbox_vault_persist.go:315-347 | a slice made without a reload is protected when a file is there that is not readable v1, and unknown when it cannot be read |
| `VaultRelay.LiveVault.MaterializeSlice` | components/egress/fastsandbox_server.go:584-609 | an existing slice of the fence is reused; a new one is inspected first |
| `VaultRelay.LiveVault.ReloadSlice` | components/egress/fastsandbox_vault_persist.go:567-729 | the reload of a registration, case by case over the file and earlier provenance |
| `VaultRelay.LiveVault.PersistCandidate` | components/egress/fastsandbox_vault_persist.go:425-477 | save, install, and restore on failure, latching what is uncertain |
| `VaultRelay.LiveVault.WriteRelay` | components/egress/fastsandbox_vault.go:122-289 | a v1 write is refused under seal, latch and protected provenance |
| `VaultRelay.LiveVault.ExportSlice` | components/egress/fastsandbox_vault_snapshot.go:87-246 | an unregistered subject is acknowledged at once and nothing is touched; otherwise the guards, and the seal |
| `VaultRelay.LiveVault.PurgeSlice` | components/egress/fastsandbox_vault_persist.go:360-407 | lifecycle cleanup is refused under protected provenance |
| `VaultProvenance.StepKeeps` | components/egress/fastsandbox_vault_persist.go:311-407 | a protected slice always carries unknown or v2-or-newer provenance, across every event |
| `VaultProvenance.ProtectedIsClosed` | components/egress/fastsandbox_vault_persist.go:311-729 | that holds after every run, tampering with the file included |
| `VaultProvenance.ProtectedRefuses` | components/egress/fastsandbox_vault_snapshot.go:87-393 | after any run, under any protected slice import and purge are refused, and so is the v1 write of its fence; an export changes nothing and is acknowledged iff the subject is not registered |
| `VaultProvenance.UnregisteredVaultExport` | components/egress/fastsandbox_vault_snapshot.go:97-107 | a run in which the export over a protected slice is acknowledged and carries nothing |
| `VaultProvenance.StickyStep` | components/egress/fastsandbox_vault_persist.go:567-729 | short of a restart, exactly the SET of another generation that finds no registration to purge first ends the protection |
| `VaultProvenance.StickyForever` | components/egress/fastsandbox_vault_persist.go:567-729 | over every run without such a SET or a restart the protection stays, and nothing the server does changes the file |
| `VaultProvenance.RegisteredIsSafe` | components/egress/fastsandbox_vault_persist.go:371-407 | while the slice's own fence is registered no SET displaces it, and only an eviction or a restart ends the registration |
| `VaultProvenance.RestartProtectsAgain` | components/egress/fastsandbox_vault_persist.go:567-729 | after a restart a SET that finds v2 or unsupported bytes protects the slice again |
| `VaultServer.OwnedVault.constructor` | components/egress/fastsandbox_owner.go:63-79 | no owner record, no file, nothing dispatched |
| `VaultServer.OwnedVault.WriteOwnerRecord` | components/egress/fastsandbox_owner.go:108-133 | rewrites phase or owner and keeps an existing contract; only a confirmed write counts |
| `VaultServer.OwnedVault.RetireWriterVault` | components/egress/fastsandbox_vault_writer.go:420-448 | removes the contracted file and slice, or latches |
| `VaultServer.OwnedVault.RemoveOwner` | components/egress/fastsandbox_actions.go:226-267 | REMOVE records retiring, retires the vault, dispatches, and only then records retired |
| `VaultServer.OwnedVault.HandleAction` | components/egress/fastsandbox_actions.go:187-279 | admission against the durable owner precedes every dispatch |
| `VaultServer.OwnedVault.ReloadSlice` | components/egress/fastsandbox_vault_persist.go:567-729 | a contracted slice that was not verified stays closed until it is |
| `VaultServer.OwnedVault.VerifyVault` | components/egress/fastsandbox_vault_writer.go:253-269 | a repeated initialization is answered from the file it already published |
| `VaultServer.OwnedVault.InitializeVault` | components/egress/fastsandbox_vault_writer.go:135-272 | a fresh grant writes the contract to the owner record first and the empty file second |
| `VaultServer.OwnedVault.MutateVault` | components/egress/fastsandbox_vault_writer.go:283-415 | a mutation must name the current lineage and sequence |
| `VaultWriterProofs.RunKeeps` | components/egress/fastsandbox_vault_writer.go:59-448 | owner record, contract, file and slice stay consistent over every run |
| `VaultWriterProofs.OwnerIsForever` | components/egress/fastsandbox_owner.go:81-133 | a durable owner never changes and its phase only moves from active to retiring to retired |
| `VaultWriterProofs.GrantConsumedOnce` | components/egress/fastsandbox_vault_writer.go:135-272 | once a contract is durable it stays, and every later fresh initialization is refused |
| `VaultWriterProofs.GrantReturned` | components/egress/fastsandbox_vault_writer.go:220-252 | a consumed grant becomes available again iff no file was published and the rollback landed; an unconfirmed rollback latches |
| `VaultWriterProofs.UnconfirmedRollbackRegrants` | components/egress/fastsandbox_vault_writer.go:220-252 | a run in which, after an unconfirmed rollback and a restart, a second fresh grant is acknowledged under another contract |
| `VaultWriterProofs.DispatchedUnderOwner` | components/egress/fastsandbox_actions.go:187-279 | every action of a run was dispatched under a durable record: REMOVE while it is retiring, the others while it is active |
| `VaultWriterProofs.OnlyRemoveAfterActive` | components/egress/fastsandbox_actions.go:187-299 | once the durable record has left active, whatever runs afterwards dispatches nothing but REMOVE |
| `VaultWriterProofs.RetiredLeavesNoVault` | components/egress/fastsandbox_vault_writer.go:417-448 | a retired record that ever had a contract has no vault file left |
| `VaultWriterProofs.PublishedFileHasContract` | components/egress/fastsandbox_vault_writer.go:59-80 | a published v2 file always has a matching owner fence and contract |
| `VaultWriterProofs.MutationIsConditional` | components/egress/fastsandbox_vault_writer.go:283-415 | an acknowledged mutation named the exact state, keeps the lineage and advances the sequence by one within 64 bits |
| `VaultWriterProofs.RefusedMutationKeepsFile` | components/egress/fastsandbox_vault_writer.go:283-415 | a mutation that is not acknowledged leaves the file, unless it latched |
| `VaultWriterProofs.SequenceOverRuns` | components/egress/fastsandbox_vault_writer.go:283-448 | over every run a v2 file keeps its lineage and its sequence never goes back |
| `VaultWriterProofs.TokensAreSpent` | components/egress/fastsandbox_vault_writer.go:283-415 | two acknowledged mutations never name the same token, whatever runs between them |
| `EgressRules.MergeKey` | components/egress/policy_utils.go:120-132 | the loop renders the lowered target and the sorted ports, for every way of lowering |
| `EgressRules.KeysExactly` | components/egress/policy_utils.go:118-132 | two keys are equal iff the rules have the same scope or one portless target spells out the other's key |
| `EgressRules.NoBarNoMimic` | components/egress/policy_utils.go:118-132 | a target without a bar spells out no other key, so keys then decide scope exactly |
| `EgressRules.ScopesCollide` | components/egress/policy_utils.go:118-132 | two differently scoped rules that evict each other |
| `EgressRules.AppendUnseen` | components/egress/policy_utils.go:70-86 | one pass keeps the first rule of each key not seen before |
| `EgressRules.MergeEgressRules` | components/egress/policy_utils.go:62-87 | the patch first, then what it left of the base |
| `EgressRules.PatchesCompose` | components/egress/policy_utils.go:62-87 | merging one patch and then another equals merging their concatenation, later first, as sequences |
| `EgressRules.MergeWins` | components/egress/policy_utils.go:62-87 | one rule per key of either list, and the patch's first rule wins |
| `EgressRules.RemoveRulesByTarget` | components/egress/policy_utils.go:92-116 | splits the list in order, by whether the target is listed once trimmed and lowered |
| `EgressRules.PruningSorts` | components/egress/policy_utils.go:89-116 | no listed rule is kept and no other is removed |
| `EgressRules.PruningConserves` | components/egress/policy_utils.go:89-116 | nothing is lost or invented, counted with multiplicity |

## Left out

- HTTP, JSON and base64 decoding, status codes, logging and telemetry: requests arrive decoded and answers are acknowledged or not.
- Time: deadlines, backoff and retry intervals are outcomes that may or may not happen.
- nftables rule text, DNS staging, redirect contents and packet quarantine: the kernel is the policy it was last given, plus the addresses it dispatches.
- Always-deny and always-allow overlays: the kernel holds the inputs they are merged from.
- File permissions, temporary-file sweeps, session directories, user ids and namespace pinning.
- A power loss is modelled for the policy file and its seal marker only; the vault and owner files know restarts and uncertain writes.
- The registry's index over all addresses: a takeover appears as the eviction of the victim, at any moment, rather than as a function of both subjects.
- Deployments without the revision protocol, and the v1 Actions dispatch around the same handlers.
- Bookkeeping of degraded reasons for the health endpoint.
- The target digest of the lifecycle protocol is taken to be injective.
- Vault export and import beyond their guards and the seal: their file protocol is the one of the policy plane.
- A vault reload in strict mode for an owner without a contract.
- Class methods for bootstrap and child process control (spawn, bootstrap, discard): modelled on values only.
- SubjectDrain.Drainer.PublishChild: takes the order of subjects as an argument and holds for every order; the source sorts them.
- PolicyServer.Server.SealExport: the unlocked copy before it is the set of images captured so far, not a file being written.
- What lowering and trimming do to a string: the rules hold for any such pair of functions; ports are naturals.
