# A verified model of the Firecracker agent

The agent creates, stops and deletes Firecracker microVMs on one host. Each VM is a directory, a TAP
device, a process and five API requests that configure it. A registry maps VM ids to these, and a
publish/subscribe hub tells watching clients what happened. This project models

* the **VM manager** with its network, storage, process and jailer code, as classes and methods over an
  explicit host: every external command may succeed or fail, and processes may die at any time;
* the same manager as a **concurrent protocol** in small steps around its read-write lock, since StopVM
  and StartVM go on without the lock after their lookup;
* the **event stream**, both as classes (bounded channels, a non-blocking broadcast loop) and as a
  protocol in which any number of broadcasts walk the map at once;
* the **handlers**, which turn results into events and metrics.

## How it is laid out

| file | contents |
|---|---|
| `GoStrings.dfy`, `GoPath.dfy` | byte strings; `filepath.Clean`, `Join` and `Dir` on them, and their laws |
| `Mac.dfy` | the MAC address loop and a decoder for its text |
| `Host.dfy` | the machine: devices, processes, files, log handles, what each command may do, and the trace of everything asked of it with what it reported |
| `Layout.dfy` | which paths and device names belong to which id, and why they are disjoint |
| `Network.dfy`, `Storage.dfy`, `Process.dfy` | the methods of these components over the host |
| `Agent.dfy` | what each manager operation does, as relations between states; the invariant, kept by each of them |
| `Rollback.dfy`, `Acquire.dfy` | the cleanup stack and the acquisition stages of CreateVM |
| `Manager.dfy` | the manager class, its methods proved against the relations of `Agent.dfy` |
| `Runs.dfy` | theorems over whole runs of the manager |
| `Creations.dfy` | which creation a registered VM goes back to, what its instance was told, and that it finds its files |
| `Witnesses.dfy` | runs in which the agent leaves something behind |
| `Lifecycle.dfy`, `Linearizability.dfy`, `Incarnations.dfy` | the concurrent protocol, its atomic specification, and the theorems |
| `StaleStops.dfy`, `Census.dfy` | what a stop can do to a later VM of its id; the counters of interleaved handlers |
| `EventStream.dfy`, `HubProtocol.dfy`, `Watchers.dfy` | the event stream, sequentially and under every interleaving |
| `Handlers.dfy`, `ServerRuns.dfy`, `Grammar.dfy`, `GrammarExact.dfy`, `Metrics.dfy` | the handlers, the grammar of their events, and the metrics |

`dafny verify dfyconfig.toml` checks all of it.

## What the host is assumed to do

* `ip tuntap add` fails if the device exists; nobody but the agent touches its devices and directories.
  `ip link delete` says "Cannot find device" only of a device that is not there. A delete that fails
  leaves the device, which is then on record as *stuck*; a directory removal that fails may leave any
  part of the tree, which is then on record as *residue*.
* A signal fails exactly when the process has finished; SIGKILL ends it, and by the time Kill or Stop
  returns it has been reaped. A process that has exited but is not yet reaped counts as running, as it
  does for `kill(pid, 0)`.
* Any process may exit by itself at any moment the agent can notice: around signals, sleeps, requests
  and probes.
* A VM id is a single ordinary path segment, and under the jailer it is not `firecracker`;
  `Runs.JailsSparedExactly` shows that this condition is the exact one.

## What the proofs found

* **A failed PrepareVMStorage leaves the VM directory behind** (`Runs.LeftBehindExactly`): its cleanup is
  pushed only after it returned. This happens exactly without the jailer
  (`Witnesses.LeavesDirectoryExactly`).
* **A stop that overlaps a deletion of its id can harm the next VM of that id**, since StopVM goes on
  without the lock and all incarnations share one socket path. An unforced stop can end the next VM's
  process: its Ctrl-Alt-Del goes to whoever listens. Any stop, forced or not, can remove the next VM's
  socket: Kill and Stop do so after a pause. The VM then runs on, but nobody can connect to it any more, and
  a creation that has not connected yet can only fail. `StaleStops.StaleStopEndsExactly` and
  `StaleStops.StaleStopUnlinksExactly` say exactly when: callers are safe from the first if they force the
  stop, and from both if they let no deletion of an id take effect before a stop of it has returned.
* **The gauge of running VMs drifts in ordinary use** (`Metrics.UsualLifeDrifts`): stopping a VM and
  deleting it counts down twice, so the gauge falls without bound (`Metrics.GaugeFallsWithoutBound`).
  `Metrics.GaugeDrift` gives the exact drift of every serial run.
* **Two watchers with the same subscriber id** (`HubProtocol.SubscribeIsSafeExactly`): ids are time stamps,
  and if two agree, one watcher's leaving closes the other's channel, which then yields nil events.
* **The log handle of a VM that crashed stays open after it is deleted** (`Runs.HandleOutlivesExactly`),
  because Kill returns before closing it when the signal fails. This happens exactly without the jailer
  (`Witnesses.LeavesHandleExactly`).
* The comments on GenerateMAC speak of ten characters and of the format `02:XX:...`; the code uses at
  most eight bytes and the fixed prefix `02:FC`. The model follows the code.

## Model

| member | source | states |
|---|---|---|
| `Network.CreateTAPDevice` | internal/network/manager.go:41-76 | the device is named prefix, dash and the id or its first eight bytes; success: it is new, up and attached to the configured bridge; each error is the failure report of its own command; a failed add deletes nothing, a device added by a call that fails later is gone again or stuck; a taken name always fails at the add |
| `Network.DeleteTAPDevice` | internal/network/manager.go:79-94 | the device is gone or stuck, nothing else changed; success exactly when the command reported it or said "Cannot find device", and then it is not there |
| `Layout.TapNameTruncates` | internal/network/manager.go:42-46 | two ids share a device name exactly when they are equal or have at least eight bytes each and the same first eight |
| `Mac.GenerateMAC` | internal/network/manager.go:145-160 | the appending loop yields the text that the lemmas below describe |
| `Mac.DecodeMac` | internal/network/manager.go:150-159 | the text has 17 characters, starts 02:FC, is in lower case after that, and decodes to 02, FC and the XORs of the id's first four pairs of bytes (zero where the id is too short) |
| `Mac.SameMac` | internal/network/manager.go:150-159 | two ids get the same address exactly when their four XORs agree |
| `Mac.MacOfSuffix` | internal/network/manager.go:42-45 | ids with the same truncation, hence the same device name, get the same address |
| `GoPath.ParseRender` | internal/storage/manager.go:62 | reading a cleaned path's text gives the path back |
| `GoPath.DotDotTakesBack` | internal/storage/manager.go:62 | in any path string `..` cancels the ordinary segment before it |
| `GoPath.DotDotAtTheRoot` | internal/storage/manager.go:62 | the root is its own parent |
| `GoPath.DotDotInFront` | internal/storage/manager.go:62 | in front of a relative path `..` stays |
| `GoPath.JoinOrdinary` | internal/storage/manager.go:220 | joining ordinary segments to any directory string cleans the directory and appends the segments |
| `GoPath.DirOfChild` | internal/firecracker/jailer.go:51 | the parent of a joined path is the cleaned directory |
| `GoPath.VMDirString` | internal/storage/manager.go:119 | the string of the VM directory, for every vms_dir, is that of the model's path |
| `GoPath.JailDirString` | internal/storage/manager.go:220 | the same for the jail directory |
| `GoPath.JailPathAgreement` | internal/firecracker/jailer.go:51-53 | the jail directory derived from the parent of the VM directory is the string CleanupJail removes, for every vms_dir and every ordinary id |
| `GoPath.PathsAreInjective` | internal/storage/manager.go:62 | different ids never share a VM directory or jail directory string, and no VM directory is a jail directory |
| `Layout.TreesOverlap` | internal/storage/manager.go:118-129 | the trees of two ids are disjoint, except that the VM directory of `firecracker`, and only that one, holds every jail |
| `Layout.ConfinedSparesOthers` | internal/storage/manager.go:218-233 | an operation confined to one id's trees leaves the other's exactly as they were |
| `Storage.DirectoriesAreTheTexts` | internal/storage/manager.go:62-220 | the directories the manager works on are those with the texts vms_dir/id and vms_dir/firecracker/id |
| `Storage.FilesAreTheTexts` | internal/storage/manager.go:86-102 | a file in the VM directory is the one with the text vms_dir/id/file, and its text determines it |
| `Storage.LogIsTheText` | internal/storage/manager.go:77 | the log is vms_dir/id/firecracker.log |
| `Storage.SocketIsTheText` | internal/firecracker/jailer.go:56 | the socket is vms_dir/id/firecracker.socket, under the jailer vms_dir/firecracker/id/root/run/firecracker.socket |
| `Storage.PrepareVMStorage` | internal/storage/manager.go:61-115 | the exact steps per mode, with the sources copied from, up to the one that reported failure, which the error names; the files made, the paths returned; which failures leave the VM directory |
| `Storage.PlaceFiles` | internal/storage/manager.go:80-106 | the same for the part inside the VM directory |
| `Storage.CreateOverlay` | internal/storage/manager.go:136-162 | both directories and then the image on its base, up to the step that reported failure, within the work directory |
| `Storage.CleanupVMStorage` | internal/storage/manager.go:118-133 | the VM directory is gone, or an error is returned and the rest is residue; everything outside it stays |
| `Storage.SetupJailDirectory` | internal/storage/manager.go:180-214 | only the VM directory is made; a failure makes nothing inside either tree |
| `Storage.CleanupJail` | internal/storage/manager.go:218-236 | the jail directory is gone, or an error is returned and the rest is residue; everything outside it stays |
| `Process.WaitForSocket` | internal/firecracker/process.go:183-194 | terminates; the exact trace: reading the clock, polling and pausing 100 ms in turn, until a poll succeeded or a reading was past the deadline; ready exactly if a poll succeeded; fewer than timeout/100 ms + 1 polls |
| `Process.StartFirecrackerProcess` | internal/firecracker/process.go:35-109 | the old socket is removed and the log opened before the start; success: one new process, its socket and log there, the handle its own; failure: the host reported what the error says, nothing it started runs, the handle is closed again, and which commands were issued |
| `Process.LaunchDirect` | internal/firecracker/process.go:68-96 | the exact trace of start, wait of 5 s and kill; the open handle goes to the process that listens, or is closed after a failed start and after a timeout |
| `Process.StartJailedProcess` | internal/firecracker/jailer.go:24-205 | the three sources are looked for, binary, kernel and root file system are copied from them into the jail's root directory, the old socket removed and the log opened, in this order and up to the step that failed; success: these files and the socket are there, one new process, the four path fields rewritten; failure: the host reported what the error says, nothing runs, no handle is open |
| `Process.EnterJail` | internal/firecracker/jailer.go:65-182 | the same for the part that changes the host: the five steps of filling with their sources, the three files, the log, the launch, and the log closed on every exit |
| `Process.FillJail` | internal/firecracker/jailer.go:65-88 | both directories and then the copies of binary, kernel and root file system, each from its source, up to the step that reported failure; on success the three files are there; nothing outside the VM's trees is touched |
| `Process.CopyIntoJail` | internal/firecracker/jailer.go:80-88 | the three copies, up to the one that reported failure; nothing else is put there |
| `Process.VerifyFiles` | internal/firecracker/jailer.go:40-48 | the three files are looked for in order, up to the first that is missing |
| `Process.LaunchJailer` | internal/firecracker/jailer.go:148-182 | the exact trace of start, pause of 500 ms, probe, wait of 20 s and kill; success: one new process and its socket; an early exit or a timeout leaves nothing running |
| `Process.KillProcess` | internal/firecracker/process.go:148-169 | the process is dead either way; an error means it had finished before, and then nothing is closed or removed; the exact trace: SIGKILL, and if it was delivered a pause of 100 ms and the removal of the socket |
| `Process.StopProcess` | internal/firecracker/process.go:112-145 | always a dead process, a closed log handle and one removal of the socket; the exact trace: SIGTERM, and if it was delivered two seconds, a probe, and SIGKILL only if the process was alive |
| `Process.IsRunning` | internal/firecracker/process.go:172-180 | true exactly when the process is alive at the probe |
| `Process.EndAfterTerm` | internal/firecracker/process.go:120-132 | SIGKILL only if the process outlived the pause; dead either way |
| `Rollback.RunCleanup` | internal/firecracker/manager.go:127-130 | one cleanup issues its commands, undoes its resource or puts it on record, and touches nothing else |
| `Rollback.RunCleanups` | internal/firecracker/manager.go:104-110 | every cleanup runs in reverse whatever the others report, and at the end everything on the stack is undone |
| `Rollback.UndoneStays` | internal/firecracker/manager.go:106-108 | later cleanups never bring back what earlier ones released |
| `Acquire.AcquireDirect` | internal/firecracker/manager.go:168-197 | after each possible exit, exactly what was acquired, a stack that covers it, and the report the failure goes back to; no request is sent |
| `Acquire.AcquireJailed` | internal/firecracker/manager.go:119-164 | the same under the jailer |
| `Acquire.StageDirect` | internal/firecracker/manager.go:170-182 | the part before the process is started: storage and device, or an error with the report behind it |
| `Acquire.StageJailed` | internal/firecracker/manager.go:122-140 | the same under the jailer |
| `Acquire.AcquiredCovers` | internal/firecracker/manager.go:127-196 | wherever acquisition ends past the storage stage, every new device and live process is on the stack or on record |
| `Acquire.UndoIsTeardown` | internal/firecracker/manager.go:104-110 | the commands of the unwound stack are the matching suffix of the teardown sequence |
| `FirecrackerManager.RolledBackRestores` | internal/firecracker/manager.go:104-110 | a covered stack, run to the end, restores devices, processes, trees and handles, up to what is on record |
| `FirecrackerManager.RollbackIssued` | internal/firecracker/manager.go:101-110 | a failed creation issued exactly the acquisition up to its failure and then the part of the teardown that was due |
| `FirecrackerManager.Manager.constructor` | internal/firecracker/manager.go:69-75 | a new manager with an empty registry satisfies the invariant |
| `FirecrackerManager.Manager.Configure` | internal/firecracker/manager.go:212-246 | the five requests, kernel in the first and root file system in the third, in order and up to the first that reported failure; it fails exactly at that one; on success the instance got exactly these |
| `FirecrackerManager.Manager.Ask` | internal/firecracker/client.go:72-101 | one request: sent as given, and successful exactly if it reported so |
| `FirecrackerManager.Manager.Build` | internal/firecracker/manager.go:112-246 | the part of CreateVM that can fail: where it stands, and what the host had reported |
| `FirecrackerManager.Manager.CreateVM` | internal/firecracker/manager.go:79-279 | keeps the invariant; success: five requests, all reported successful, the VM's files made from those the request or else the configuration names, the device attached, the VM registered with its information; failure: a report of the host for that stage since the call began (ApiFailed(i): requests up to the i-th, which failed; a timeout: the full wait and no successful poll), the registry as before, and the failure relation for its stage. So with no such report and a free id it succeeds |
| `FirecrackerManager.ConfiguredReported` | internal/firecracker/manager.go:212-246 | acquisition sends no request, so the requests of a creation are those of its configuration |
| `FirecrackerManager.Manager.Register` | internal/firecracker/manager.go:248-268 | the record agrees with the host and the invariant holds again |
| `FirecrackerManager.Manager.Abort` | internal/firecracker/manager.go:104-110 | the deferred cleanup of a creation that did not commit establishes the failure relation and the invariant |
| `FirecrackerManager.Manager.StartVM` | internal/firecracker/manager.go:292-310 | succeeds exactly when the VM is registered and its process running; changes nothing |
| `FirecrackerManager.Manager.StopVM` | internal/firecracker/manager.go:313-350 | fails exactly for an unknown id; otherwise a dead process on every path, STOPPED stored, no other VM touched. Forced: no request, SIGKILL. Unforced: one Ctrl-Alt-Del, before any signal; if accepted SIGTERM after two seconds, and SIGKILL only if that was delivered and the process alive after two more; if refused SIGKILL alone |
| `FirecrackerManager.EndVM` | internal/firecracker/manager.go:327-343 | the exact trace of a stop, forced, graceful or falling back to a kill; the process is dead |
| `FirecrackerManager.StopsAreGraceful` | internal/firecracker/manager.go:333-341 | every such trace is graceful in the sense of StopVM |
| `FirecrackerManager.Manager.DeleteVM` | internal/firecracker/manager.go:353-396 | fails exactly for an unknown id; otherwise the VM leaves the registry, and SIGKILL, the delete of its device, the removal of its jail and of its directory were issued in this order whatever each reported |
| `FirecrackerManager.TearDown` | internal/firecracker/manager.go:364-388 | kill, device, jail, storage, in this order, each undone or on record |
| `FirecrackerManager.Manager.ResolveVMState` | internal/firecracker/manager.go:400-405 | STOPPED if the process is dead, else the stored state |
| `FirecrackerManager.Manager.GetVM` | internal/firecracker/manager.go:422-432 | the VM's own information and RUNNING or STOPPED as its process is, or nothing for an unknown id |
| `FirecrackerManager.Manager.ListVMs` | internal/firecracker/manager.go:435-445 | exactly the registered ids, each entry true when it was made |
| `Agent.CreateOkKeepsInv` | internal/firecracker/manager.go:260-268 | a successful creation keeps the invariant |
| `Agent.CreateFailedKeepsInv` | internal/firecracker/manager.go:104-110 | a failed creation, at any stage, keeps the invariant |
| `Agent.DeleteKeepsInv` | internal/firecracker/manager.go:364-391 | deletion keeps the invariant |
| `Agent.StopKeepsInv` | internal/firecracker/manager.go:327-347 | stopping keeps the invariant |
| `Agent.AgingKeepsInv` | internal/firecracker/process.go:81-88 | processes dying by themselves keep the invariant |
| `Agent.TheSequences` | internal/firecracker/manager.go:119-388 | the acquisition sequence and the teardown sequence, command by command and per mode |
| `Runs.RunKeepsInv` | internal/firecracker/manager.go:79-445 | the invariant holds after every operation of every run |
| `Runs.TapsAreConserved` | internal/firecracker/manager.go:372-376 | in every reachable state the host's devices are those found at start-up, one per registered VM, and those whose delete was issued and failed, all disjoint |
| `Runs.RegisteredIdsDiffer` | internal/network/manager.go:42-54 | registered VMs have different devices, so no two of their ids share their first eight bytes |
| `Runs.CollisionIsHarmless` | internal/network/manager.go:51-54 | creating an id whose first eight bytes are those of a registered one always fails, at the add or before, and deletes nobody's device |
| `Runs.NoOrphanProcesses` | internal/firecracker/process.go:91-96 | every live process belongs to a registered VM; a log handle without a VM belongs to a process that had exited by itself |
| `Runs.HandleOutlivesExactly` | internal/firecracker/process.go:151-163 | a log handle outlives the deletion of its VM if and only if it was open and the process had exited by itself; no other handle changes |
| `Runs.JailedStartsKeepNoHandle` | internal/firecracker/jailer.go:133-137 | under the jailer no log handle is ever open between operations |
| `Witnesses.LeavesHandleExactly` | internal/firecracker/process.go:151-163 | some run leaves an open log handle behind a deletion if and only if there is no jailer |
| `Creations.RegisteredWasCreated` | internal/firecracker/manager.go:260-268 | a registered VM goes back to a successful creation of its id after which it was not deleted, and still has the record, requests and files of that creation |
| `Creations.RegisteredVMsAreConfigured` | internal/firecracker/manager.go:202-258 | in every run, each registered VM's instance was first told the kernel of its mode with the boot arguments, with and without an address, the sizes, the root drive of its mode, this VM's device and derived address, and to start; the record holds the request's sizes, address and metadata |
| `Creations.FilesStayThere` | internal/firecracker/jailer.go:73-191 | in every run, as long as a VM is registered, the kernel and drive paths its instance was told of name files that are there: under the jailer below the jail's root directory, along with the binary; otherwise as they stand |
| `Runs.DeadStaysDead` | internal/firecracker/process.go:172-180 | a dead process is dead in every later state |
| `Runs.StoppedIsForGood` | internal/firecracker/manager.go:345-347 | stored STOPPED, a stop that returned nil or a STOPPED report: from then on that incarnation is reported STOPPED |
| `Runs.StartAgreesWithGet` | internal/firecracker/manager.go:302-309 | with nothing in between, StartVM succeeds exactly when GetVM says RUNNING |
| `Runs.OthersAreSpared` | internal/firecracker/manager.go:353-391 | however many operations on other VMs succeed or fail in between, a VM's record, device and files stay and its process is not signalled |
| `Runs.JailsSparedExactly` | internal/storage/manager.go:118-129 | removing a VM directory spares another VM's jail if and only if the id is not `firecracker` |
| `Runs.FailedCreateLeavesNothing` | internal/firecracker/manager.go:101-110 | in every run a creation that fails past the storage stage, its cleanups succeeding, leaves no process, device or directory |
| `Runs.LeftBehindExactly` | internal/storage/manager.go:69-106 | in every run a failed creation leaves a VM directory exactly when storage preparation failed after making it |
| `Witnesses.LeavesDirectoryExactly` | internal/firecracker/manager.go:122-174 | some run leaves the VM directory of a failed creation behind if and only if there is no jailer |
| `Runs.DeletedLeavesNothing` | internal/firecracker/manager.go:364-391 | in every run, whatever had happened to a VM, a delete whose steps succeed leaves no device, process or directory of it |
| `Runs.CreateDeleteRoundTrip` | internal/firecracker/manager.go:364-391 | create then delete, its steps succeeding, restores registry, devices, processes and trees, and the log handles but for that of a process that exited by itself; it issues exactly the acquisition and the teardown sequence |
| `Runs.RollbackIsTeardown` | internal/firecracker/manager.go:104-110 | in any two runs, a creation that fails at its last stage issues the same commands as one that succeeds followed by its deletion, but for the number of the process |
| `Linearizability.HelpingAccepted` | internal/firecracker/manager.go:391 | all stops and starts waiting on a record take effect, in the atomic object, just before the delete that removes it |
| `Linearizability.StepSimulated` | internal/firecracker/manager.go:292-396 | every small step of the protocol keeps its invariant and is matched by events of the atomic object |
| `Linearizability.HistoryExplains` | internal/firecracker/manager.go:79-432 | every run has an accepted history that shows clients the same calls and answers |
| `Linearizability.Linearizable` | internal/firecracker/manager.go:79-432 | all interleavings of create, start, stop, delete and get are linearizable against a map from ids to running or stopped, with process death as an environment step; the deaths are those of the run |
| `Linearizability.DeathsAreReal` | internal/firecracker/process.go:81-88 | each death in the history that explains a run is a VM going down in a step of the run |
| `Incarnations.TakesEffectOnce` | internal/firecracker/manager.go:313-350 | in an accepted history no call takes effect twice |
| `Incarnations.RealTimeRespected` | internal/firecracker/manager.go:79-432 | a call that returned before another was invoked took effect before it |
| `Incarnations.StoppedNeverReverts` | internal/firecracker/manager.go:302-309 | in every accepted history, a VM reported, found or made not running is not reported running later unless a deletion of its id took effect in between |
| `Incarnations.ReachableStates` | internal/firecracker/manager.go:292-396 | under every interleaving: stored STOPPED means dead, a returned stop left its process dead, the lock excludes, and no orphans |
| `StaleStops.StopsTouchLittle` | internal/firecracker/manager.go:327-347 | in every step a stop leaves the registry and other records as they are, ends at most the process it found or, unforced, the listener on the path, and removes a socket only after its process ended |
| `StaleStops.FoundStays` | internal/firecracker/manager.go:313-316 | what a stop found stays registered as long as no deletion of its id takes effect |
| `StaleStops.StaleStopEndsExactly` | internal/firecracker/manager.go:333-341 | for every id: some stop in some run ends a process it did not find if and only if it is not forced and a deletion of its id takes effect before it returns |
| `StaleStops.StaleStopUnlinksExactly` | internal/firecracker/process.go:141-166 | for every id: some stop, forced or not, in some run removes the socket of a live process it did not find if and only if a deletion of its id takes effect before it returns |
| `StaleStops.UnforcedStopCanKillTheNext` | internal/firecracker/manager.go:313-341 | for every id a run in which an unforced stop of it ends the process of the next VM of that id, whose record still says running |
| `StaleStops.StaleStopCanUnlinkTheNext` | internal/firecracker/process.go:156-166 | for every id and either kind of stop a run in which it removes the next VM's socket while that VM runs |
| `StaleStops.StaleStopCanFailTheNextCreation` | internal/firecracker/process.go:156-166 | and one in which a creation with a live instance can then only fail |
| `Census.RegistryBalances` | internal/firecracker/manager.go:260-391 | under every interleaving, registered VMs = successful creations - successful deletions |
| `Census.InterleavedMetrics` | internal/agent/handlers.go:64-150 | however handlers interleave, once all calls have returned VMsCreated = registered + deletions and VMsRunning = registered - stops |
| `EventStreams.Channel.TrySend` | internal/agent/server.go:128-130 | appended if fewer than 100 are queued, else dropped; never blocks |
| `EventStreams.Channel.Receive` | internal/agent/handlers.go:198-199 | the oldest event, or nil from a closed and drained channel |
| `EventStreams.EventStream.Subscribe` | internal/agent/server.go:102-109 | a fresh open channel under the id, the others untouched |
| `EventStreams.EventStream.Unsubscribe` | internal/agent/server.go:112-120 | closes and forgets exactly that subscriber's channel |
| `EventStreams.EventStream.Broadcast` | internal/agent/server.go:123-138 | one offer to every subscriber; the outcome does not depend on the order of the map |
| `EventStreams.EventStream.OfferOne` | internal/agent/server.go:127-136 | one turn of the loop changes one queue |
| `EventStreams.SubscribersDoNotInterfere` | internal/agent/server.go:123-138 | a subscriber has queued and received what it would have if it had been alone |
| `HubProtocol.WatchersDoNotInterfere` | internal/agent/server.go:123-138 | under every interleaving, what a watcher has queued, received and lost depends only on the sends to its own channel and its own receives |
| `HubProtocol.ChannelsAreNeverMisused` | internal/agent/server.go:112-138 | under every interleaving no send hits a closed channel and none is closed twice |
| `HubProtocol.AttemptAccounted` | internal/agent/server.go:127-136 | an event is dropped exactly when 100 are queued, and order is kept |
| `HubProtocol.DeliveryIsAccounted` | internal/agent/server.go:106-136 | per subscription, attempts = received + queued + dropped, at most 100 queued, and each event begun since was offered exactly once |
| `HubProtocol.DeliveryIsInOrder` | internal/agent/server.go:123-138 | with one broadcast at a time, received followed by queued is a subsequence of the broadcasts since subscribing |
| `HubProtocol.DistinctIdsNeverSeeNil` | internal/agent/handlers.go:193-201 | if live subscriber ids are distinct, no watcher ever receives from a closed channel |
| `HubProtocol.DuplicateSeesNil` | internal/agent/server.go:102-120 | with a duplicate id, three steps make a watcher receive nil |
| `HubProtocol.SubscribeIsSafeExactly` | internal/agent/handlers.go:193-195 | a nil event can follow a Subscribe if and only if its id was held when it was called |
| `Watchers.MatchingIsOnly` | internal/agent/handlers.go:198-209 | the handler's filter loop on real events is the filter by VM id |
| `Watchers.OnlyKeeps` | internal/agent/handlers.go:198-209 | that filter keeps each event asked for as often as it came, in order, and no other |
| `Watchers.ClientSeesInOrder` | internal/agent/handlers.go:198-209 | with one broadcast at a time, what a client got is a subsequence of the broadcasts it asked for |
| `Watchers.ClientIsSentInOrder` | internal/agent/handlers.go:198-214 | what WatchVMEvents sends of what its channel yielded is, with one broadcast at a time, a subsequence of the broadcasts asked for, and it does not panic |
| `AgentServer.Watch` | internal/agent/handlers.go:198-214 | the loop sends exactly the matching part of what it took, and why it ended; with a filter, a nil event ends it in a panic |
| `AgentServer.Server.WatchVMEvents` | internal/agent/handlers.go:189-216 | the same, and the subscription is gone on every exit |
| `AgentServer.Server.CreateVM` | internal/agent/handlers.go:37-73 | refuses exactly requests with an empty id, fewer than 1 or more than 32 CPUs or less than 128 MB, changing nothing; otherwise the manager's step, CREATED or ERROR to every subscriber, both metrics up on success only, and an answer that goes back to what the host reported |
| `AgentServer.Server.CreateAndTell` | internal/agent/handlers.go:51-72 | an accepted request: the manager's step, CREATED with both metrics or ERROR, and the socket path of the new VM |
| `AgentServer.Server.BroadcastEvent` | internal/agent/handlers.go:20-28 | the event is offered once to every subscriber |
| `AgentServer.Server.Count` | internal/agent/handlers.go:64-65 | the two metrics move, nothing else |
| `AgentServer.Server.StartVM` | internal/agent/handlers.go:76-100 | the manager's step and STARTED or ERROR |
| `AgentServer.Server.StopVM` | internal/agent/handlers.go:103-128 | the manager's step, as forced as asked for, and STOPPED with the gauge counted down, or ERROR |
| `AgentServer.Server.DeleteVM` | internal/agent/handlers.go:131-156 | the manager's step and DELETED with the gauge counted down, or no event at all |
| `Grammar.ReachExactlyConforming` | internal/agent/handlers.go:51-149 | a three-state automaton accepts exactly the beginnings of words of (CREATED STARTED* STOPPED* DELETED)* |
| `ServerRuns.RecordedMoves` | internal/agent/handlers.go:51-149 | one handler moves a VM's record as the automaton moves on the event it broadcasts |
| `ServerRuns.EventsTellTheRegistry` | internal/agent/handlers.go:51-149 | in every serial run the events so far determine which VMs are registered and which of them were stopped |
| `ServerRuns.EventsFollowTheGrammar` | internal/agent/handlers.go:51-149 | whatever fails or crashes, one id's non-error events begin such a word, and are whole cycles exactly when the id is not registered |
| `GrammarExact.GrammarIsExact` | internal/agent/handlers.go:51-149 | a sequence of non-error events of one id is broadcast in some run if and only if the grammar allows it |
| `Metrics.MetricsAreAccounted` | internal/agent/handlers.go:64-65 | VMsCreated = registered + successful deletes, VMsRunning = registered - successful stops, after every run |
| `Metrics.GaugeDrift` | internal/agent/handlers.go:122-150 | the gauge less the number running is the crashes less the stops and deletes that found a dead VM; so it is right exactly when these are equal |
| `Metrics.RightWithoutCrashesExactly` | internal/agent/handlers.go:122-150 | with no crash, the gauge is right if and only if every VM stopped or deleted was running when it was |
| `Metrics.UsualLifeDrifts` | internal/agent/handlers.go:65-150 | creating, stopping and deleting one VM leaves the gauge one too low |
| `Metrics.GaugeFallsWithoutBound` | internal/agent/handlers.go:65-150 | for every k a run that ends with no VM and the gauge at -k |

## Left out

- HTTP and JSON to the instance, `ip`, `qemu-img`, file contents, chown and permissions: steps that succeed or fail and update the host.
- The command lines of the instance and the jailer, and the fixed parameters of `ip` and `qemu-img`: only what they act on is modelled.
- Log texts, error messages, CreatedAt, and the message, state and time stamp of an event.
- EnsureBridgeExists, ConfigureIPTables, EnsureVMsDir and NewManager's checks: host configuration before the first VM.
- extractGatewayIP: the gateway address is a configuration value.
- GetHostInfo, HealthCheck, LoggingInterceptor, the metrics server, `main.go`, configuration loading: plumbing over libraries.
- The GetVM and ListVMs handlers: they only wrap the manager's methods, which are modelled.
- The guards for a VM without a process: CreateVM registers none.
- The field SocketPath of a registered VM, a copy of the one in its information; JailPath and Mode, which nothing reads.
- FirecrackerManager.Manager.CreateVM: ids that are not single path segments (empty, with a slash, `.` or `..`), and `firecracker` under the jailer, which the agent does not check for, are not modelled; the same holds for AgentServer.Server.CreateVM.
- FirecrackerManager.Manager.StopVM: one call at a time; its split lock sections are the subject of Lifecycle and StaleStops. The same holds for FirecrackerManager.Manager.StartVM.
- Linearizability.Linearizable: not for ListVMs, which is no atomic snapshot, since processes die between its entries; nor is the writer preference of the lock modelled, which only removes interleavings.
- Lifecycle has no host but the live processes and the socket paths: devices, directories and log files are touched only inside write sections, with the effect of the manager's methods, except that a stop may close its own process's log. An instance makes its socket before it is waited for, and a client may keep its first connection.
- ServerRuns.EventsFollowTheGrammar: serial runs only; concurrent handlers broadcast after their lock section, so their events can arrive in another order. The metrics of interleaved handlers are in Census; the gauge is related to live processes only for serial runs.
- Process.StartJailedProcess: a jailer that exits within half a second is never waited for; that its remains linger until the agent ends is not modelled.
- AgentServer.Server.WatchVMEvents: no broadcast comes in between in the method; what the channel delivers meanwhile is a parameter, and HubProtocol and Watchers say what it can be. The nil event sent to a client without a filter goes to the protocol library.
