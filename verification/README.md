# Verified model of Home-AI-Core's host operations

Home-AI-Core runs household services as Docker modules on one Linux host. An unprivileged
Core keeps the registry; a privileged helper performs what changes the host. This project
models the parts of both in which an interruption, an ambiguous failure or a second request
could lose data, and proves what they keep.

Every external command is a step that may succeed, fail before or after its effect, or be
followed by a crash. An operation is a method of a host object that issues such steps in the
order of the code; the host records every state it passes through, and the main theorems are
about all of these states. `Valid()` of a host says that the recorded states are a run of the
protocol; the protocol's invariant is proved step by step beside it.

Some ghost state is history and not on the host. `faults` counts what went wrong by itself: a
command that could have been carried out and was not, or was not reported so, or a container
that exited. With no new fault an operation does exactly what its guards admit, and with one it
is compensated. `done` (`issued` of the generic swap, `acts` of the Core update and the NVR) holds the
commands in their order, so that the contract of a success names every check and every command
that led to it; `failures` holds those reported failed. Frigate's `window` says which replacement
has begun and not ended and `touched` how often its configuration was started on or replaced;
Home Assistant's `log` says which steps may have written a directory and `leak` where a second
container was started; the generic swap has `leaked` and `downs`, and the Core update counts
ignored clean-ups in `scraps`.

| file | what it models |
|---|---|
| `Faults.dfy` | outcomes of a command, file contents |
| `FrigateWorld.dfy`, `FrigateRuns.dfy`, `FrigateHelper.dfy`, `FrigateCore.dfy` | the journaled upgrade of Frigate: containers, configuration, backup, journal phases, recovery, and Core's registry row |
| `HomeAssistantWorld.dfy`, `HomeAssistant.dfy` | the upgrade of Home Assistant: a copy of the configuration per generation, containers known by identity, the active record |
| `ModuleSwap.dfy` | the generic module upgrade and the switch of the AI module between CPU and GPU |
| `CoreUpdate.dfy` | installation of a Core bundle and the manual rollback |
| `NvrMigration.dfy` | migration of recordings to an assigned disk |
| `JobGate.dfy` | the gate that keeps module jobs and native configuration writes apart |
| `FileQuota.dfy` | folder and user quotas, upload sessions and their reservations |
| `DestructivePlan.dfy` | the dry run of a destructive disk change against the real run |
| `PullProgress.dfy` | pull progress, the bounded output tail, line splitting |
| `HardQuota.dfy` | the kernel quota that keeps a pool's reserve free |
| `Text.dfy`, `Numbers.dfy`, `WireGuard.dfy`, `NetworkdProfile.dfy`, `IfupdownProfile.dfy` | configuration text that is printed, parsed and edited |

`dafny verify dfyconfig.toml` checks the whole project.

## Where the code does less than it promises

The code was kept as it is; each of these is a lemma with the exact condition or a concrete state.

- Frigate: the refusing last branch of the reconciliation is reachable (`StrayIntentIsRefused`, `RefusalIsReached`), and a stop between the registry write and the commit makes the recovery impossible (`StopStrandsCommit`, `StrandedIsReached`). A crash in one of two windows may also leave an upgrade that cannot be reconciled: between the two renames of a restore, when the configuration directory is gone, and between the first removal of a clearing and the last, when the backup is (`RestoreWindowIsReached`, `ClearingWindowIsReached`). In every other state the way back is there (`InvIsSafe`, `RecoverableExactly`, `Administer`, `RecoverUntilSettled`). A candidate created just before its journal is written keeps its staging name and makes the next upgrade refuse (`OrphanIsReached`, `Upgrade`).
- Home Assistant: a resuming install does not look at the staging names. After an interrupted upgrade it keeps a single running container only through the port probe; `ResumeRunsTwoExactly` says on which hosts it may not, `LapseIsReached` and `BlindProbeRunsTwo` that they exist, and `ServeAll` that nothing else ever runs two.
- Generic modules: the compensation starts the original even when the forced removal of the candidate failed, and start, restart and install never look at the staging names (`CrashedCutOverRunsTwo`). A `docker stop` that fails after taking effect is taken for a refusal and leaves the original stopped; on a host where nothing exits by itself, no other refusal does (`Upgrade`, `CutOver`).
- Core update: a helper staged by an earlier run is installed by a bundle without one, and the rollback does not know of it; a staged web tree that could not be cleaned away is merged into what goes live (`InstallThenRollBack`). A set-aside web tree that could not be removed makes the install fail and is put live by its compensation (`Install`).
- NVR: the deferred restore ignores a failed stop, so a reported restore may leave the container writing the new disk; and the disk directory is never removed, so every later attempt is refused (`Activate`).
- Jobs: Core recovers interrupted jobs concurrently with its first requests. A recovery that puts a running installation back behind a scan lets a second module job or a write in; no other does (`RecoverKeepsInvExactly`, `HarmfulRecoveryBreaks`, `RecoveryInsideScanAdmitsTwo`).
- Quotas: recycle-bin records count as used but are never admitted, and a session whose target directory is away reserves nothing (`RecycleBinCanExceed`, `ReturningDirectoryCanExceed`).
- Disk plan: the plan looks for mounts of an inactive swap device, the run does not; without `vgchange` the run deactivates nothing that the plan lists (`DryRunIsRunExactly`, `PlanThenRun`).
- WireGuard: the search ends a section at a closed bracket, the removal at an opening one. `RemovalMissesExactly` says when the removal misses a peer that the search finds, `RemovalKeepsTheRest` when it leaves anything else than the other peers and the interface, and `UnclosedBracketHidesPeer` is a file.

## Model

| member | source | states |
|---|---|---|
| `FrigateWorld.InvIsSafe` | cmd/home-ai-core-updater/frigate_module.go:532-662 | the inductive invariant of every operation implies the six safety properties: single writer, the old image never on data the new one has written, a "prepared" candidate never started, no backup without a journal, a swapped container has been healthy, and a way back: outside of the two windows a pending upgrade has its configuration and, past "prepared", an intact backup |
| `FrigateWorld.CommandKeepsInv` | cmd/home-ai-core-updater/frigate_module.go:308-662 | every external command the protocol permits, wherever it takes effect, keeps that invariant |
| `FrigateWorld.DisturbanceKeepsInv` | cmd/home-ai-core-updater/frigate_module.go:193-251 | containers that exit and write their mounted configuration meanwhile keep it too |
| `FrigateWorld.DisturbanceKeepsPermission` | cmd/home-ai-core-updater/frigate_module.go:193-227 | what a guard has established stays true until the command is issued, although containers may exit in between |
| `FrigateRuns.RunIsSafe` | cmd/home-ai-core-updater/frigate_module.go:363-371 | safety in every state of every run: arbitrary requests, ambiguous failures, and a crash after any command |
| `FrigateRuns.AgreementDecides` | cmd/home-ai-core-updater/frigate_recovery.go:54-72 | while registry and journal agree, a confirmed registry row enables exactly one of commit and rollback; for an unconfirmed row the refusing branch is reached exactly when another image was requested |
| `FrigateRuns.CommandKeepsAgreement` | cmd/home-ai-core-updater/frigate_recovery.go:42-73 | no command of a session driven by the registry can break that agreement |
| `FrigateRuns.UntouchedBetween` | cmd/home-ai-core-updater/frigate_module.go:532-662 | between two states of a run with the same count of starts and replacements nothing is set aside, and a configuration on which nothing runs stays as it is |
| `FrigateHelper.FrigateHost.Exec` | cmd/home-ai-core-updater/frigate_module.go:308-335 | a command succeeds, fails before or after its effect, or is followed by a crash; the state it leaves is the old one or the one with the effect |
| `FrigateHelper.FrigateHost.RestoreConfig` | cmd/home-ai-core-updater/frigate_module.go:392-416 | success puts the snapshot's content back with no writer left, by setting the old tree aside first; a failure leaves the old directory, none at all, or the restored one, and the set-aside directory is never mistaken for it |
| `FrigateHelper.FrigateHost.ClearTransaction` | cmd/home-ai-core-updater/frigate_module.go:363-371 | the backup goes before the journal, so the journal never outlives a complete clearing and a backup never outlives the journal; the two removals and the last look are the commands of a success |
| `FrigateHelper.FrigateHost.Survey` | cmd/home-ai-core-updater/frigate_module.go:420-446 | the inspection finds exactly the module's containers under the three names, or refuses |
| `FrigateHelper.FrigateHost.FindOld` | cmd/home-ai-core-updater/frigate_module.go:447-458 | the name of the container with the old image: none, exactly one, or ambiguous |
| `FrigateHelper.FrigateHost.RecoverTransaction` | cmd/home-ai-core-updater/frigate_module.go:420-498 | when nothing goes wrong by itself it succeeds exactly when the configuration directory, the old container and (past "prepared") the intact backup exist, and then the same old container runs healthy under the module's name, with staging names, journal and backup gone; whenever the journal is gone, the run holds the start of the old container: past "prepared" on the content of the snapshot, at "prepared" on a configuration nobody has moved or mounted; a failure never loses the old container or the journal, and keeps the way back |
| `FrigateHelper.FrigateHost.CommitUpgrade` | cmd/home-ai-core-updater/frigate_module.go:500-530 | when nothing goes wrong by itself it succeeds exactly when the new container runs under the module's name; the commands of a success in order: verified, healthy, the old container removed without force, and only then the journal says "committed" |
| `FrigateHelper.FrigateHost.SnapshotConfig` | cmd/home-ai-core-updater/frigate_module.go:372-391 | the snapshot equals the stopped configuration, and a failure leaves no journal phase that would trust it |
| `FrigateHelper.FrigateHost.CutOver` | cmd/home-ai-core-updater/frigate_module.go:618-662 | the commands of a success in order: stop, snapshot, journal, start, health, both renames, journal, last look, and the running new container under the module's name with the stopped old one beside it; a failure keeps the old container and the way back, and a single failure ends with the old container healthy in place; if it was rolled back, the content the old container starts on is the one it was stopped on |
| `FrigateHelper.FrigateHost.Upgrade` | cmd/home-ai-core-updater/frigate_module.go:532-662 | success leaves that pair with the very container that ran before, and with no journal at the start takes free staging names and issues exactly the commands of an upgrade; a failure that leaves no journal leaves that container in place, started again, if the configuration was touched at all, on the content it was stopped on; on a host where nothing exits by itself a single failure leaves it running; if nothing goes wrong by itself it succeeds exactly when the images differ, the old one runs and both staging names are free, or the pending transaction is the commit of the old image |
| `FrigateHelper.FrigateHost.FinishUpgrade` | cmd/home-ai-core-updater/frigate_module.go:541-563 | commit and rollback act only on the transaction that names both images, and succeed, when nothing goes wrong by itself, exactly when that transaction can be committed or rolled back; a rollback restarts the old container on the snapshot, or at "prepared" on the untouched configuration |
| `FrigateHelper.FrigateHost.RecoverRegistered` | cmd/home-ai-core-updater/frigate_recovery.go:42-73 | the reconciliation picks commit or rollback from journal and registry; success means the registered image is in place and healthy, staging names free, journal absent or committed; when nothing goes wrong by itself it succeeds exactly when that is still possible, and without a journal exactly when the registered image is in place |
| `FrigateHelper.FrigateHost.RecoverUntilSettled` | cmd/home-ai-core-updater/frigate_recovery.go:42-73 | recovery converges: repeated over any finite schedule of failures, exits and crashes it ends settled with a healthy container (running, unless it exited by itself), except when it was interrupted inside one of the two windows, the container to be committed is down, or the row asks for another image than the committed one; with nothing going wrong it settles exactly when the state is recoverable, and otherwise changes nothing |
| `FrigateHelper.FrigateHost.Install` | cmd/home-ai-core-updater/frigate_module.go:252-306 | an install never replaces another image and never runs over a pending transaction; a first one starts on the initial configuration, a later one on the existing; when nothing goes wrong by itself it succeeds exactly when the guard admits it and the name is free or holds the image and its configuration |
| `FrigateHelper.FrigateHost.Control` | cmd/home-ai-core-updater/docker_module_ops.go:355-393 | start and restart only with no pending transaction and end with a healthy container; stop is always admitted and a success has stopped the container; each succeeds, when nothing goes wrong by itself, exactly when the container is there and its configuration if it is to start |
| `FrigateHelper.FrigateHost.RemoveModule` | cmd/home-ai-core-updater/docker_module_ops.go:395-419 | removal only with no pending transaction, and it leaves journal and backup alone; it succeeds, when nothing goes wrong by itself, exactly when admitted and the name is free or the module's own |
| `FrigateCore.ServeAll` | cmd/home-ai-core-updater/frigate_module.go:37-67 | any sequence of requests with any images: every state on the way is safe; each success has done what was asked, and if nothing goes wrong by itself each request succeeds exactly when the host it finds admits it |
| `FrigateCore.UpgradeManifest` | internal/modules/registry.go:148-249 | the registry row moves to the new image only after the upgrade replied success, and otherwise stays; a single failure on a host where nothing exits by itself leaves the old container running and the row as it was; if nothing goes wrong by itself the upgrade ends committed |
| `FrigateCore.InstallManifest` | internal/modules/registry.go:58-141 | the intent precedes the helper: no state on the way has a container of the module without a registry row, and a successful first install passed a state with the unconfirmed row and no container yet; the confirmation follows the helper's success; a confirmed row of the same image is a success that changes nothing, a row of another image a refusal that changes nothing |
| `FrigateCore.Administer` | internal/modules/registry.go:58-362 | any sequence of Core's own requests, with failures and crashes on both sides: every state is safe, registry and journal agree in it, and a transaction interrupted there can be reconciled unless it is inside a window, its new container is down, or another image is asked for; each success has done what was asked, and if nothing goes wrong by itself each request succeeds exactly when the host it finds admits it |
| `FrigateRuns.RecoverableExactly` | cmd/home-ai-core-updater/frigate_recovery.go:42-73 | exactly which interrupted upgrades can still be reconciled, in every state of a run of Core's requests: before the registry moved all of them outside of the two windows (and inside the clearing while the backup is whole), afterwards those whose new container runs |
| `FrigateCore.StopStrandsCommit` | cmd/home-ai-core-updater/frigate_module.go:37-67 | a stop between the registry write and the commit is admitted and makes the recovery impossible |
| `FrigateCore.StrandedIsReached` | internal/modules/registry.go:148-249 | for any two images, a run of Core's own commands from a fresh installation to such an upgrade that can be neither committed nor rolled back |
| `FrigateCore.RestoreWindowIsReached` | cmd/home-ai-core-updater/frigate_module.go:392-416 | for any two images, a run that ends between the two renames of a restore, with no way back |
| `FrigateCore.ClearingWindowIsReached` | cmd/home-ai-core-updater/frigate_module.go:363-371 | for any two images, a run that ends between the removal of the backup and that of the journal, with no way back |
| `FrigateCore.OrphanIsReached` | cmd/home-ai-core-updater/frigate_module.go:590-598 | for any two images, a run that ends with a candidate that no journal accounts for |
| `FrigateCore.StrayIntentIsRefused` | cmd/home-ai-core-updater/frigate_recovery.go:70-72 | an intent for another image over a committed journal is refused by both branches of the reconciliation |
| `FrigateCore.RefusalIsReached` | cmd/home-ai-core-updater/frigate_recovery.go:70-72 | for any images, the run there: upgrade, commit, remove, then the intent to install another image |
| `HomeAssistantWorld.CommandKeepsInv` | cmd/home-ai-core-updater/docker_homeassistant_upgrade.go:159-344 | every permitted command keeps generations apart: no directory has two containers, and no container ever writes outside its own |
| `HomeAssistantWorld.RunIsSafe` | cmd/home-ai-core-updater/docker_homeassistant_upgrade.go:159-344 | over whole runs: generations isolated; one running container at a time if every start finds the others stopped; the record healthy once it has been |
| `HomeAssistantWorld.SoloExactly` | cmd/home-ai-core-updater/docker_homeassistant_upgrade.go:159-344 | a run has one running container at a time exactly when each of its starts finds the others stopped |
| `HomeAssistantWorld.RecordStaysHealthy` | cmd/home-ai-core-updater/docker_homeassistant_upgrade.go:239-249 | from the first healthy record on, the active record always names an image/directory pair that has passed its health check |
| `HomeAssistantWorld.StoppedContentStays` | cmd/home-ai-core-updater/docker_homeassistant_upgrade.go:32-34 | copy isolation: a directory whose container does not run is changed by nobody, whatever the candidate does |
| `HomeAssistantWorld.UntouchedBetween` | cmd/home-ai-core-updater/docker_homeassistant_upgrade.go:32-34 | between two logged steps (a start on it, a copy into it) a directory on which nobody runs keeps its content and stays that way |
| `HomeAssistant.HaHost.CopyConfig` | cmd/home-ai-core-updater/docker_homeassistant_upgrade.go:35-157 | the copy goes to a fresh generation and at that moment equals its source, on which nobody runs; a failure changes nothing else; if nothing goes wrong by itself it succeeds |
| `HomeAssistant.HaHost.RestorePrevious` | cmd/home-ai-core-updater/docker_homeassistant_upgrade.go:161-202 | success means the old container, same image and directory, is back under the module's name, started again once, proved healthy and recorded, after the candidate identity was stopped and removed, by exactly these commands in order; no other generation gains a writer; when nothing goes wrong by itself it succeeds exactly when the candidate and the unchanged old container are found and the name is free for it |
| `HomeAssistant.HaHost.Upgrade` | cmd/home-ai-core-updater/docker_homeassistant_upgrade.go:251-344 | success: a healthy container of the new image on a generation of its own that was an exact copy, the backup recorded, the old container retained, its directory's content unchanged from the copy to the end, the record unmoved, by exactly the commands of the cut-over in order; every upgrade that fails past its first checks with at most one failure is rolled back with the old container running; a completed rollback: name, image, directory and record as before, and the content with which the old container starts again is the one it was stopped with; refused requests change nothing; if nothing goes wrong by itself it succeeds exactly when the images differ, the recorded container runs and both staging names are free |
| `HomeAssistant.HaHost.FinishUpgrade` | cmd/home-ai-core-updater/docker_homeassistant_upgrade.go:220-248 | commit proves the new pair healthy and records it before the old container goes, and keeps all data; rollback restores the old one on the content it was retained with; both refuse any pair that does not match; each succeeds, when nothing goes wrong by itself, exactly when the pair matches, the retained container is down and, for a commit, the new one runs |
| `HomeAssistant.HaHost.Install` | cmd/home-ai-core-updater/docker_homeassistant.go:396-488 | success leaves the recorded pair healthy in service; an existing record is never replaced, and a first record never adopts an existing directory; when nothing goes wrong by itself it succeeds exactly when the recorded container is there, or all names are free and a record names the image |
| `HomeAssistant.HaHost.Resume` | cmd/home-ai-core-updater/docker_homeassistant.go:411-441 | an existing container is resumed only when the record names its image and directory, and started only after the port probe; when nothing goes wrong by itself it succeeds exactly then |
| `HomeAssistant.HaHost.Control` | cmd/home-ai-core-updater/docker_homeassistant.go:490-553 | start and restart run only what the record names, with the staging names free; a restart passes a moment at which the container is down; remove keeps every generation; each succeeds, when nothing goes wrong by itself, exactly when admitted |
| `HomeAssistant.HaHost.ServeAll` | cmd/home-ai-core-updater/docker_homeassistant.go:396-553 | any sequence of requests with any failures and crashes: isolated generations, a healthy record that stays healthy, and one running container at a time exactly as long as no resuming install has started a second one, which takes an install among these requests, for the recorded image, while an interrupted upgrade has a container running; each success has done what was asked, and if nothing goes wrong by itself each request succeeds exactly when the host it finds admits it |
| `HomeAssistant.ResumeRunsTwoExactly` | cmd/home-ai-core-updater/docker_homeassistant.go:411-441 | on which hosts an install request can bring up a second container, exactly: the recorded image and container under the module's name while a container runs under a staging name |
| `HomeAssistant.LapseIsReached` | cmd/home-ai-core-updater/docker_homeassistant_upgrade.go:251-344 | such a host is reached from any one in service by an upgrade that is cut short after starting its candidate |
| `HomeAssistant.BlindProbeRunsTwo` | cmd/home-ai-core-updater/docker_homeassistant.go:411-431 | the state after a crash in mid-upgrade from which a resuming install would run two containers if its port probe missed one |
| `ModuleSwap.SwapHost.Upgrade` | cmd/home-ai-core-updater/docker_module_upgrade.go:60-159 | with failing commands having no effect, one atomic replace-or-restore, or after at least two failures exactly what the failed part of the compensation left; the failed commands decide which; a success issues exactly the commands of an upgrade, health check included; in any case the original container is never lost, and two run only after a forced removal that left a running candidate, which is reported; where no container exits by itself, a refusal leaves the original as it was exactly when no stop took effect and was reported failed |
| `ModuleSwap.SwapHost.RecoverOld` | cmd/home-ai-core-updater/docker_module_upgrade.go:118-135 | the forced removal, the rename if the name was taken away, and the start are all issued, whatever fails; a failure is reported exactly when one of them failed; where failing commands have no effect, the ones that failed say exactly what is left, and without any the original is back, running, with the staging names free |
| `ModuleSwap.SwapHost.CutOver` | cmd/home-ai-core-updater/docker_module_upgrade.go:112-145 | the shared cut-over, whose ending the failed commands decide: none swaps, the stop refuses, one other is undone, and a second one strands it; swapped by exactly its commands, undone and stranded only after the whole compensation was issued; a single failure never strands where failing commands have no effect; refused after a stop that took effect, the original stays down |
| `ModuleSwap.SwapHost.RollBackPair` | cmd/home-ai-core-updater/docker_module_upgrade.go:220-238 | the retained container takes the place of the new one, started and seen healthy, exactly when no command fails; where failing commands have no effect the one that failed says what is left |
| `ModuleSwap.SwapHost.FinishUpgrade` | cmd/home-ai-core-updater/docker_module_upgrade.go:42-59 | commit and rollback act only on the exact image pair, and each keeps the container it is about; each succeeds exactly when the pair matches and no command fails |
| `ModuleSwap.SwapHost.SwitchDevices` | cmd/home-ai-core-updater/docker_ai_gpu_ops.go:262-333 | the GPU switch is the same atomic step by its own commands; only the retained container's removal may be left undone, exactly when that removal failed |
| `ModuleSwap.RollbackUndoesUpgrade` | cmd/home-ai-core-updater/docker_module_upgrade.go:220-238 | rollback after a successful upgrade gives the host back as it was, up to spent identities |
| `ModuleSwap.CrashedCutOverRunsTwo` | cmd/home-ai-core-updater/docker_module_ops.go:129-243 | a cut-over cut short by a crash leaves the candidate running, and neither start nor a fresh install looks for it |
| `ModuleSwap.ApplyKeeps` | cmd/home-ai-core-updater/docker_module_upgrade.go:161-172 | each permitted command keeps the shape of the three names, the guarded container, and a single writer |
| `CoreUpdate.RollbackUndoesInstallExactly` | cmd/home-ai-core-updater/update_ops.go:92-147 | what both operations make of the live release is that release if and only if no different staged helper was left from an earlier run while the bundle brings none, the bundle brings no first helper, and the saved web tree covers what was left where it is staged |
| `CoreUpdate.Installation.InstallThenRollBack` | cmd/home-ai-core-updater/update_ops.go:56-262 | the two real operations in a row: when both succeed, exactly the previous release is live if and only if neither a different staged helper nor a file of a staged web tree was left over from earlier runs; both do, if nothing fails, exactly when the bundle is complete and the version it replaces is known |
| `CoreUpdate.Installation.Install` | cmd/home-ai-core-updater/update_ops.go:56-151 | success makes exactly the bundle (and a staged helper) live, by stop, exchange, start and a look at the running service in this order, and saves what it replaced; it comes exactly when everything is there, nothing is left over where the web tree is set aside, and no command fails; a failure past the stop is followed by the whole compensation, which succeeds if nothing else fails and leaves binary and web tree as before, or the leftover web tree that could not be cleaned away, and the helper as before, or the stale staged one |
| `CoreUpdate.Installation.Restore` | cmd/home-ai-core-updater/update_ops.go:264-287 | stop, binary, web tree, helper and start are all tried whatever fails, and each part that does not come back has a failure of its own; a whole compensation gives exactly the saved binary and helper, the web tree set aside (or else the saved copy), and a running service |
| `CoreUpdate.Installation.RollBack` | cmd/home-ai-core-updater/update_ops.go:153-262 | success makes exactly the saved release live; it comes exactly when the backup is complete, there is something to return to, nothing is left over where the web tree is set aside, and no command fails; a single failure past the stop ends with a running service and everything as before, up to a web tree that could not be cleaned away; an incomplete backup is refused before any effect |
| `CoreUpdate.CopyTree` | cmd/home-ai-core-updater/update_ops.go:344-369 | a complete copy adds or replaces every file of the source and keeps what else the target had |
| `NvrMigration.VerifyCopy` | cmd/home-ai-core-updater/docker_module_storage.go:224-275 | yes exactly when every entry of the source is in the copy with the same type and content and could be read |
| `NvrMigration.VerifiedCopyIsIdentical` | cmd/home-ai-core-updater/docker_module_storage.go:224-275 | a verified copy made by writing the source's names only is identical to the source |
| `NvrMigration.NvrHost.RestoreOriginal` | cmd/home-ai-core-updater/docker_module_storage.go:403-429 | stop, removal of the link and rename back are all tried, and the start unless one of the last two failed; manual recovery is reported only if one of them failed; otherwise the exact original directory is back and the container runs on it, unless the ignored stop left it running on the new disk |
| `NvrMigration.NvrHost.Activate` | cmd/home-ai-core-updater/docker_module_storage.go:345-464 | at every step after the stop the exact original tree is at the data path or at the backup name; success links to a copy that was identical, by exactly the commands and checks of the code in order; it comes exactly when nothing fails and the tree has only directories, files and links; a single failure past the stop of such a tree never needs manual recovery; a disk directory left by any earlier attempt refuses every later one |
| `JobGate.EveryInterleavingIsExclusive` | internal/api/module_runtime.go:40-78 | in every interleaving of tabs, workers, cancellations and harmless recoveries no native write overlaps a module job or another write, and at most one module job is active |
| `JobGate.RecoverKeepsInvExactly` | internal/state/jobs.go:284-299 | the recovery of interrupted jobs keeps this exactly when no scan that has asked for the queue and found nothing would have a running installation put back behind it |
| `JobGate.HarmfulRecoveryBreaks` | internal/state/jobs.go:284-299 | from every state in which it is not harmless, the recovery is the first event of a run to two module jobs, or to a write beside one |
| `JobGate.ListKeepsInv` | internal/api/module_runtime.go:48-61 | asking queued, running, cancel_requested in this order, a scan that has found nothing still has every active module job ahead of it |
| `JobGate.JobTable.ActiveModuleJobs` | internal/api/module_runtime.go:43-63 | unless it answers with an error, the non-atomic scan has found every module job active at its end, and only jobs active at its beginning |
| `JobGate.RecoveryInsideScanAdmitsTwo` | internal/state/jobs.go:284-299 | such a state is reached: a recovery between the first two questions of a request moves the interrupted installation behind its scan |
| `JobGate.EventKeepsInv` | internal/api/frigate_gateway.go:86-101 | lock, scan, decision, native write and release, each keep the exclusion |
| `JobGate.JobWasAsked` | internal/api/module_runtime.go:65-78 | over runs: a new module job appears only by the decision of a client that took the lock to submit exactly that kind of job, and whose complete scan found nothing |
| `JobGate.WriterAsked` | internal/api/frigate_gateway.go:86-101 | over runs: a client writes only if it took the lock for a write, and its complete scan found nothing |
| `JobGate.DecisionGrants` | internal/api/module_runtime.go:65-78 | a decision on a complete scan is a refusal if it found anything, and otherwise grants exactly what was asked for |
| `JobGate.FindingHasReason` | internal/api/module_runtime.go:70-77 | a scan has found something only if a module job was active at one of its questions |
| `JobGate.JobTable.SubmitModuleJob` | internal/api/module_runtime.go:65-78 | granted, it has put exactly its job into the queue at a moment without any active module job; any other answer has put nothing there; refused only for a taken lock or an active module job, and granted if there was none and nothing fails |
| `JobGate.JobTable.Gateway` | internal/api/frigate_gateway.go:80-126 | a configuration write goes on to the module only under the lock, at a moment without any active module job, and none becomes active before it is answered; refused exactly as a submission is; a read asks for no lock |
| `FileQuota.ChangeKeepsQuotasExactly` | internal/api/nas_management.go:221-238 | a change of one folder's load keeps every folder and user quota exactly when there was room for it |
| `FileQuota.SessionAlwaysHasRoom` | internal/api/nas_management.go:286-311 | while the quotas hold, a session has room for all its missing bytes on its own credit |
| `FileQuota.FileStore.FolderUsage` | internal/filedata/usage.go:21-64 | the sum over the listed sessions, an error exactly on 64-bit overflow |
| `FileQuota.FileStore.PrivateUserUsage` | internal/api/nas_management.go:221-238 | the sum over that user's private folders |
| `FileQuota.FileStore.WriteAllowance` | internal/api/nas_management.go:250-312 | the largest number of bytes for which the pool and both quotas have room, the session being credited what it still waits for; no error while the quotas hold or the sums fit 64 bits |
| `FileQuota.FileStore.Put` | internal/api/files.go:470-489 | a direct write keeps the quotas; while they hold it succeeds exactly when the pool and both quotas have room for it |
| `FileQuota.FileStore.CreateUpload` | internal/api/files.go:552-567 | a session is admitted, while the quotas hold, exactly when there is room for its whole size, which is reserved at once under a new identity |
| `FileQuota.FileStore.AppendChunk` | internal/api/files.go:675-702 | a chunk changes no load; the limit offered is the largest that the pool, the chunk size and, on the session's own credit, the quotas admit; while the quotas hold it is the full remaining size (or the chunk maximum), whatever else was admitted since |
| `FileQuota.FileStore.CompleteUpload` | internal/filedata/upload.go:313-371 | succeeds exactly for a listed session that has all its bytes; what was reserved becomes used, the load stays |
| `FileQuota.FileStore.CancelUpload` | internal/filedata/upload.go:373-388 | succeeds exactly for a listed session, and gives its reservation back |
| `FileQuota.FileStore.SetFolderQuota` | internal/api/nas_management.go:84-101 | set exactly when it is in range and not below what is used and reserved |
| `FileQuota.FileStore.SetUserQuota` | internal/api/nas_management.go:155-186 | the same for a user, summed over the private folders |
| `FileQuota.FileStore.Rearrange` | internal/filedata/trash.go:27-76 | trash, restore, purge, move and new directory look at no quota: they keep the quotas exactly when there happens to be room for the recycle-bin record and for sessions whose target directory returns |
| `FileQuota.FileStore.ServeAll` | internal/api/nas_management.go:250-312 | over any sequence of requests used plus reserved never exceeds a set quota, as long as each of those rearrangements fits; and the store is then in exactly the state that the requests answered one by one lead to |
| `FileQuota.RecycleBinCanExceed` | internal/filedata/trash.go:69-75 | a full folder exceeds its quota by moving a file into its recycle bin |
| `FileQuota.ReturningDirectoryCanExceed` | internal/filedata/upload.go:146-158 | a session whose target directory is away reserves nothing, so the space is promised twice once the directory returns |
| `DestructivePlan.Inspect` | cmd/home-ai-core-updater/storage_ops.go:998-1039 | the plan lists exactly the mounts, active swaps and volume groups in use; it is refused exactly for a mounted root filesystem, or a group that also uses another disk, or a disk that cannot be found |
| `DestructivePlan.DryRunIsRunExactly` | cmd/home-ai-core-updater/storage_ops.go:981-1039 | the planned end state is the real one if and only if no inactive swap device is mounted and vgchange is there for the groups listed |
| `DestructivePlan.DiskHost.PlanThenRun` | cmd/home-ai-core-updater/storage_ops.go:981-1039 | the two real operations in a row: when both succeed, the host is the one the plan announced if and only if every listed mount is of a device the run unmounts and listed groups can be deactivated; after an accepted dry run the real run succeeds, unless a command fails by itself, exactly when every line of lsblk can be released in its turn |
| `DestructivePlan.DiskHost.UnmountTargets` | cmd/home-ai-core-updater/storage_ops.go:1599-1618 | success means this device's mounts are gone and nothing else was unmounted, although umount takes the topmost mount at a target; unless a command fails by itself it comes exactly when no other device is mounted over one of them |
| `DestructivePlan.DiskHost.ReleaseAll` | cmd/home-ai-core-updater/storage_ops.go:1297-1345 | the loop over all devices releases exactly the mounts of the non-swap devices and the active swaps; unless a command fails by itself it succeeds exactly when each line can be released in its turn |
| `DestructivePlan.DiskHost.DeactivateGroups` | cmd/home-ai-core-updater/storage_ops.go:1387-1473 | in any run, whatever fails, a volume group that also uses another disk is never deactivated; unless a command fails by itself it succeeds exactly when no group of the disk does |
| `DestructivePlan.DiskHost.Prepare` | cmd/home-ai-core-updater/storage_ops.go:1297-1350 | the real run's end state and when it succeeds, and in any run the safety of other disks |
| `DestructivePlan.FindTopDisk` | cmd/home-ai-core-updater/storage_ops.go:1661-1675 | the physical disk at the end of at most 16 parents |
| `PullProgress.PullTracker.Report` | cmd/home-ai-core-updater/docker_module_progress.go:89-144 | at most 256 layers, a known total never changes, downloaded never exceeds it; the sums are those over all layers in whatever order; the overflow guard is never taken |
| `PullProgress.PullTracker.ReportAll` | cmd/home-ai-core-updater/docker_module_progress.go:89-144 | over any sequence of lines the sums shown never decrease, and received <= known <= 2^58; what a fresh tracker knows of each layer afterwards is the first total its lines gave and the largest amount reported under it, or all of it once a line said it was complete |
| `PullProgress.LayerKnows` | cmd/home-ai-core-updater/docker_module_progress.go:101-127 | the state of one layer after any lines about it: the first total given, the largest amount reported under it, all of it once complete |
| `PullProgress.SumsInAnyOrder` | cmd/home-ai-core-updater/docker_module_progress.go:128-140 | the sums do not depend on the order in which the map is walked |
| `PullProgress.SumsAreBounded` | cmd/home-ai-core-updater/docker_module_progress.go:128-140 | received <= known <= layers times 2^50 |
| `PullProgress.ParseSize` | cmd/home-ai-core-updater/docker_module_progress.go:64-87 | the number of whole bytes, rounded down; refused exactly when negative or above 2^50 |
| `PullProgress.BoundedOutput.Write` | cmd/home-ai-core-updater/docker_module_progress.go:161-177 | after any writes the buffer holds the last min(4096, total) characters of everything written |
| `PullProgress.BoundedOutput.Shift` | cmd/home-ai-core-updater/docker_module_progress.go:168-174 | the in-place shift stays in range and keeps exactly the newest characters |
| `PullProgress.LastOfLast` | cmd/home-ai-core-updater/docker_module_progress.go:163-177 | keeping the tail of what was kept is keeping the tail of everything |
| `PullProgress.Split` | cmd/home-ai-core-updater/docker_module_progress.go:149-159 | the next line up to the first line feed or carriage return, and what it consumes |
| `PullProgress.ScanAll` | cmd/home-ai-core-updater/docker_module_progress.go:149-159 | scanning loses nothing: the lines with the breaks that ended them are the output |
| `HardQuota.PercentIsExact` | cmd/home-ai-core-updater/quota_ops.go:349-355 | the exact floor of total*p/100 for p <= 100, and no 64-bit step wraps |
| `HardQuota.SafeLimit` | cmd/home-ai-core-updater/quota_ops.go:320-347 | a limit of at least 1 KiB for every nonzero reserve, "unlimited" exactly for a reserve of 0 |
| `HardQuota.SafeLimitIsFull` | cmd/home-ai-core-updater/quota_ops.go:320-347 | for a nonzero reserve the limit is all the pool uses and all that is free above the exact reserve, at least 1 KiB, or an overflow exactly when that does not fit 64 bits |
| `HardQuota.OwnWritesKeepLimitAndReserve` | cmd/home-ai-core-updater/quota_ops.go:76-94 | own writes within the limit leave the computed limit where it is, so the inspection keeps accepting it, and keep the reserve free, up to one KiB in the clamped case |
| `HardQuota.ForeignWritesBreakSyncExactly` | cmd/home-ai-core-updater/quota_ops.go:76-94 | exactly when other users' writes put a set limit out of sync |
| `HardQuota.Policies` | cmd/home-ai-core-updater/quota_ops.go:176-204 | one policy per pool, exactly when every share is in order and shares of a pool agree |
| `HardQuota.Kernel.Enforce` | cmd/home-ai-core-updater/quota_ops.go:101-174 | every pool ends with its full limit (what it uses, and what is free above its reserve) or as it was; success, which comes exactly when all limits can be set and no command fails, puts all of them into the state the inspection accepts |
| `HardQuota.Kernel.Inspect` | cmd/home-ai-core-updater/quota_ops.go:43-99 | yes exactly when every pool is in sync with its policy |
| `WireGuard.HasPeer` | cmd/home-ai-core-updater/network_ops.go:578-596 | yes exactly when some [Peer] section has the key |
| `WireGuard.Remove` | cmd/home-ai-core-updater/network_ops.go:598-621 | the loop over lines computes the specified removal |
| `WireGuard.Append` | cmd/home-ai-core-updater/network_ops.go:552-576 | refused exactly when the peer is present; otherwise the trimmed file and one new section |
| `WireGuard.RemovalUndoesAppend` | cmd/home-ai-core-updater/network_ops.go:552-621 | removing a just-appended peer gives back the trimmed file plus newline, and reports it found; nothing is asked of the rest of the file |
| `WireGuard.RemovalKeepsTheRest` | cmd/home-ai-core-updater/network_ops.go:598-621 | of any file: the remaining peers are exactly those without the key and the interface lines are the same, if and only if the removal cuts clean: each section with the key ends at a closed header, or its cut-off rest follows neither an interface nor a kept peer; so it does whenever no line opens a bracket without closing it; then no peer has the key any more and "found" is true exactly when one had |
| `WireGuard.RemovalFindsExactly` | cmd/home-ai-core-updater/network_ops.go:598-621 | of any file: something is removed exactly when the key stands under a [Peer] line with no opening bracket in between |
| `WireGuard.SearchFindsExactly` | cmd/home-ai-core-updater/network_ops.go:578-596 | of any file: the key is found exactly when it stands under a [Peer] line with no header in between |
| `WireGuard.RemovalMissesExactly` | cmd/home-ai-core-updater/network_ops.go:578-621 | search and removal disagree exactly when the key is there, but everywhere behind a bracket that is opened and not closed |
| `WireGuard.AppendKeepsTheRest` | cmd/home-ai-core-updater/network_ops.go:552-576 | the append adds one peer with that key only; other peers and the interface lines are the same |
| `WireGuard.FoundWasThere` | cmd/home-ai-core-updater/network_ops.go:598-621 | of any file: what is reported removed was there, and otherwise nothing changes |
| `WireGuard.MalformedHeaderHidesPeer` | cmd/home-ai-core-updater/network_ops.go:607-616 | a key behind an unclosed bracket is found by the search but not by the removal |
| `WireGuard.UnclosedBracketHidesPeer` | cmd/home-ai-core-updater/network_ops.go:607-616 | one such file, literally |
| `WireGuard.InterfaceConfig` | cmd/home-ai-core-updater/network_ops.go:664-689 | address and port are read from the interface lines only, the last value winning; the port as a number, 0 when it is none |
| `WireGuard.CreatedReadsBack` | cmd/home-ai-core-updater/network_ops.go:294-305 | address and port written into a new tunnel's file are the ones read back |
| `Numbers.AtoiExactly` | cmd/home-ai-core-updater/network_ops.go:684-685 | what the port conversion yields for any text: sign and digits, 0 for anything else, clamped to 64 bits |
| `Numbers.AtoiOfDigits` | cmd/home-ai-core-updater/network_ops.go:684-685 | reading a printed number gives it back |
| `NetworkdProfile.RoundTrip` | cmd/home-ai-core-updater/network_profiles.go:350-415 | parsing a rendered profile gives back method and name servers, and for a static one address and gateway, which a DHCP profile does not write |
| `NetworkdProfile.Parse` | cmd/home-ai-core-updater/network_profiles.go:374-415 | the line loop computes the specified reading |
| `NetworkdProfile.FileMeans` | cmd/home-ai-core-updater/network_profiles.go:374-415 | of any file: DHCP if any network section says yes or ipv4, else static if one gives an address; the first of several addresses, the last gateway, all name servers in order |
| `NetworkdProfile.Render` | cmd/home-ai-core-updater/network_profiles.go:350-372 | the builder writes exactly the specified lines |
| `IfupdownProfile.RoundTrip` | cmd/home-ai-core-updater/ifupdown_profiles.go:181-300 | parsing a rendered profile gives one stanza with the same interface, method and name servers, and for a static one address and gateway, which a DHCP profile does not write |
| `IfupdownProfile.Parse` | cmd/home-ai-core-updater/ifupdown_profiles.go:181-238 | the line loop computes the specified stanzas |
| `IfupdownProfile.FileMeans` | cmd/home-ai-core-updater/ifupdown_profiles.go:181-238 | of any file: it is cut above every "iface" line, each piece gives its own stanza with the first address, the last netmask and gateway and all name servers, and what stands above the first one counts for nothing |
| `IfupdownProfile.FilesJoin` | cmd/home-ai-core-updater/ifupdown_profiles.go:181-238 | the stanzas of one file behind another are the stanzas of each, if the second sets nothing above its first "iface" line |
| `IfupdownProfile.AboveCountsForNothing` | cmd/home-ai-core-updater/ifupdown_profiles.go:218-220 | lines above the first "iface" line change no stanza |
| `IfupdownProfile.ListRoundTrip` | cmd/home-ai-core-updater/ifupdown_profiles.go:181-238 | any list of stanzas with address, netmask, gateway and name servers, written one below the other, is parsed back exactly |
| `IfupdownProfile.Render` | cmd/home-ai-core-updater/ifupdown_profiles.go:281-300 | the builder writes exactly the specified lines |
| `IfupdownProfile.IncludesDir` | cmd/home-ai-core-updater/ifupdown_profiles.go:302-329 | yes exactly when some line names the include directory |
| `IfupdownProfile.EnsureInclude` | cmd/home-ai-core-updater/ifupdown_profiles.go:331-343 | changed exactly when the directory was not included; otherwise the file as it was |
| `IfupdownProfile.IncludeTakesEffect` | cmd/home-ai-core-updater/ifupdown_profiles.go:331-343 | after the change the directory is included, so adding it again changes nothing |
| `IfupdownProfile.IncludeKeepsStanzas` | cmd/home-ai-core-updater/ifupdown_profiles.go:331-343 | the include leaves the parsed stanzas of any file unchanged |
| `Text.TrimKeepsLines` | cmd/home-ai-core-updater/network_ops.go:533-550 | trimming a file changes none of its lines that matter |
| `Text.SplitOfJoin` | cmd/home-ai-core-updater/network_ops.go:610-616 | splitting undoes joining for parts without the separator |

## Left out

- Output formats of docker, findmnt, lsblk, pvs and systemctl, their timeouts and the context of a request: each command is a step with an outcome.
- Hashing, fsync, file modes and ownership: a copy or a snapshot is compared by content, and a write that was not synced is not lost.
- Image names, labels, versions and interface names: whether a container or request is in order is one fact (`ours`, `Plain`, `Word`), and validators are not modelled.
- Containers of strangers under the module's names appear as `ours = false`; what a stranger does between two commands does not.
- Docker's restart policy: a container may exit by itself, but does not come back by itself. `steady` is a host on which none exits by itself.
- The location check of Frigate's database is a read that may fail.
- The registry's status is only whether the row is confirmed; a registry write that answers with an error has written nothing (the store is transactional).
- Home Assistant's first configuration directory has a fixed name in the code and a fresh number here; a directory that already exists is a failure of the command that makes it.
- ModuleSwap: the staging names of the generic upgrade and of the GPU switch are different in the code; each operation is modelled with its own, and what one leaves for the other is not.
- ModuleSwap: has no journal and no recovery, so a crash is the end of the recorded states and not a reply.
- Generic install, control, removal and resume of modules without an upgrade protocol are single guarded commands; only what they do to the single writer is stated (`CrashedCutOverRunsTwo`).
- CoreUpdate: a rename onto an existing but empty web tree succeeds on Linux and is refused here; signatures, archives and the helper's own restart are not modelled.
- NvrMigration: reading the disk assignment and finding its mount are one check that may fail; the backup's name is new in every attempt.
- JobGate: the proxied request is one command that may fail, and the streams of the gateway are not modelled; a configuration write ends when its handler ends. `JobTable` is one request among unknown others, `Apply` all of them at once.
- Which of the containers of the new image a Frigate recovery removes first, and hence the commands of a whole rollback in their order, is open, as it is in the code; each part of it has its own.
- FileQuota: the pool's own allowance is a parameter; used plus reserved above 2^63 bytes, hard filesystem quotas and writes over SMB are not modelled.
- DestructivePlan: a device's aliases are one name.
- PullProgress: sizes are exact reals, not floating point; which characters make a layer line is given with the line.
- HardQuota: the policies are a map; the order of the sorted list is not modelled.
- Text: letter case folds for ASCII only, so the Kelvin sign is not taken for a k.
- The HTTP handlers, the web client, the Windows client, catalogs, media streaming and authentication: plumbing around what is modelled.
