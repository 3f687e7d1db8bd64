# Verified model of bgtask's concurrent core

bgtask keeps background tasks alive under supervisor processes and lets any number of CLI, HTTP and
MCP clients manage them through files in a shared state directory. This project models the parts whose
correctness depends on interleaving or on exact arithmetic, and proves what they promise.

| file | models |
|---|---|
| `LeaseProtocol`, `LeaseSafety`, `LeaseLimits` | the cross-process lock made of one file (`internal/state/lock.go`) |
| `ProcessIdentity` | the identity check behind reaping and status (`internal/process/process.go`) |
| `TaskStore`, `TaskStoreSafety`, `TaskStoreRuns`, `TaskStoreTraps`, `TaskStoreLimits`, `TaskStorePlain`, `TaskStoreDeadlock` | Run, replace, Rename, SetLabels, Start/Stop/Restart/Remove and Cleanup over one store (`internal/taskservice`, `internal/state/store.go`) |
| `Launch`, `LaunchSafety`, `LaunchLimits` | Start, Stop and Restart of one task and the start-up of the supervisors they launch |
| `Supervisor`, `SupervisorSafety`, `SupervisorLimits`, `SupervisorRequests` | the supervisor's main loop, its child monitor, and the goroutines that publish stops and restarts |
| `Rotation`, `LogTail`, `RenderLogs`, `Utf8`, `JsonInteger` | the log pipeline: rotation, early-exit reading, byte-budgeted rendering, UTF-8 truncation, exact JSON integers |
| `Strings`, `Listing`, `Pagination` | sorting and filters, one page of `List`, and chains of pages over a changing store |
| `Batch` | `runBatch` and `batchOutcome` |

## How the protocols are modelled

Every operation of the lock, the store, the launch and the supervisor can be interrupted by every other
one between any two system calls, so these four are transition systems over values. In each, `Enabled`
says which steps the code can take, `Apply` what a step does, and `Reachable(..., s, k)` that `s` ends
some run of `k` steps; `Continues(..., s, t, n)` says that `t` comes `n` steps after `s`. Step labels carry what the code does not decide: answers of probes, failing
calls, crashes, PID reuse, the moment a child dies. Each access to a file, a flag or a channel that
others use is a step of its own, so a read and the act that relies on it are separate steps. A file that
`os.WriteFile` rewrites is truncated in one step and written in another. What
nobody else can see, such as a timer tick or a signal taken from the process's own queue, belongs to the
step that follows it. In `TaskStore`, stopping a task's processes belongs to the re-read before it.

| part of the transition system | code |
|---|---|
| `LeaseProtocol.Effect` | `internal/state/lock.go:89-125`, `145-267`, `296-324` |
| `TaskStore.Effect` | `internal/taskservice/run.go:63-123`, `152-208`, `internal/taskservice/rename_labels.go:27-104`, `internal/taskservice/lifecycle.go:57-91`, `225-296`, `internal/state/store.go:291-363` |
| `Launch.Acted`, `Launch.Advanced` | `internal/taskservice/lifecycle.go:57-214`, `internal/taskservice/launch.go:61-115`, `internal/taskservice/service.go:203-216`, `internal/supervisor/supervisor.go:67-78` |
| `Supervisor.Went`, `Supervisor.Started`, `Supervisor.Published` | `internal/supervisor/supervisor.go:114-256`, `264-362`, `419-453` |

Loops and state changes that nothing interleaves with keep their form: `Rotation.LogDir` is a class,
and `Listing`, `LogTail`, `RenderLogs`, `Utf8`, `Strings` and `Batch` hold methods with loops, each
proved against a specification about which the lemmas then speak.

## Hypotheses, and what happens without them

Safety of the lock, of launches, of restarts and of names rests on facts that the code does not enforce.
They are named predicates, on steps or on the store that a run starts from. For each there is a run that
meets all the others and breaks the property, so each property is proved to hold in all runs if and only
if all its hypotheses are met.

- `LeaseProtocol.TimelyCreator`, `NoOverlappingReap`, `NoRemovalAfterStat` (`LeaseLimits.ExclusionExactly`).
  The comments at `internal/state/lock.go:28-30` and `211-218` say that the two equal reads close the race
  between a reaper and a new owner. The code narrows it only: two reapers that have both passed their
  second read break exclusion. For an unparseable file the window is wider than from second read to
  removal: it opens at the age test, because two empty files have equal bytes. `TaskStore` and `Launch`
  build on exclusion: their locks are taken over only from a holder that has crashed.
- `Launch.NoExpiry`, `NoCrashedWaiter`, `WaiterReads`, `SupervisorReads`, `StartReads`, `NewPid`
  (`LaunchLimits.OneSupervisorExactly`). On the Start path nothing abandons the launch when its wait expires
  (`internal/taskservice/lifecycle.go:191-194`). Start clears exit.json but neither the PID nor the creation
  time of an earlier supervisor (`internal/state/store.go:374-382`). If the new supervisor's own creation
  time cannot be read while the old one is on file, by the waiter or by the supervisor itself, a later Start
  takes the supervisor for a reused PID and launches another. If supervisor.pid cannot be read, Start takes
  the task for stopped (`internal/taskservice/service.go:203-207`). And if a supervisor gets the very PID
  that is still on file, the wait ends before the supervisor has written anything; supervisor.pid is then
  truncated without the lock (`internal/state/store.go:150-154`), and a Start that reads the empty file
  launches another.
- `Supervisor.WholePublications`, `WholeDecisions` (`SupervisorLimits.KillsFlaggedExactly`): until a stop is
  requested, restarts and decisions do not cut into each other; stops may come at any moment. If a child
  ends between the flag and the tokens of a restart, a token outlives its flag and can end the run of a
  task without restart policy with exit code -1 (`SupervisorLimits.CutRestartEndsRun`). The comment at
  `internal/supervisor/supervisor.go:282-283` says that draining prevents stale signals; a token that is
  sent after the drain is not prevented. And if a second restart comes while a wake-up from backoff is
  handling the first, its token survives, because that path drains only restartCh
  (`internal/supervisor/supervisor.go:353-360`), and kills the next child with no flag set. Even under both
  hypotheses a forced Restart, which kills the child before it signals the supervisor
  (`internal/taskservice/lifecycle.go:129-134`), ends the run of a task without restart policy if the loop
  loads the flag before the signal handler stores it (`SupervisorRequests.ForcedRestartEndsRunExactly`).
- For unique names (`TaskStoreLimits.UniqueExactly`) and no lost update (`NoLostUpdateExactly`), on the store
  that a run starts from. What a path opens and how a name is stored are parameters, `Env.fold` and
  `Env.stored`, because file systems may ignore case and JSON replaces bytes that are not UTF-8.
  - `TaskStore.NoStrayRecord`: Rename and SetLabels write to the directory that the record names
    (`internal/state/store.go:142-148`), not to the one they read. A task directory copied by hand keeps the
    other task's ID, and one SetLabels on the copy overwrites the other record.
  - `TaskStore.OneLockEach`: a task that two references open under two lock files is not protected by either
    lock. A symbolic link in the store makes such a second reference.
  - `TaskStore.NamesOpenNoTask` (names only): a valid name that opens a task directory lets Run take one task
    for another. A directory made by hand can be called like a name, and where case is ignored every
    generated ID, spelled with a lower-case t, is a name that opens its task (`TaskStorePlain.CaseFoldingIsATrap`), although
    `internal/validation/name.go:9-13` says that a name can never be mistaken for an ID.
  - `TaskStore.NamesStoredAsGiven` (names only): Run looks for the name as given, so a name that JSON changes
    is found free every time.
  - Where each path opens only the entry spelled like it, names are stored as given and every record is at
    home, these come to one condition: no task directory is called like a valid name
    (`TaskStorePlain.PlainStoreIsSafeExactly`).
- For the same two properties, on steps: `TaskStore.WholeRemovals`, since the supervisor of an --rm task
  removes its directory file by file and without a lock (`internal/supervisor/supervisor.go:307-309`,
  `internal/state/store.go:387-401`), and a SetLabels that has read the record can put it back into what is
  left; and, for names only, `TaskStore.ReadsSucceed`, since IsNameTaken skips a task that it cannot read
  (`internal/state/store.go:353-357`).
- `TaskStore.UnlocksSucceed`, `CrashesShow` (`TaskStoreDeadlock.NoDeadlockExactly`). An unlock gives up after 50
  attempts and leaves the lock file of a live process (`internal/state/lock.go:61-70`, `107-125`). The lock of
  a crashed holder is reclaimed only if its PID is free or its reuse shows; while the creation time of the
  process that has the PID cannot be read, it is not (`internal/state/lock.go:259-267`).

## Model

| member | source | states |
|---|---|---|
| `ProcessIdentity.VerifyPIDErrsTowardsAlive` | internal/process/process.go:9-18 | the identity check never rejects a running process, with unavailable creation times on either side |
| `LeaseSafety.MutualExclusionHolds` | internal/state/lock.go:145-267 | in every run, with crashes and PID reuse, at most one live contender is between its exclusive create and the removal of the file, so no two leases are held at once |
| `LeaseSafety.StableOwnership` | internal/state/lock.go:89-125 | while a live process holds a lease the file carries its nonce, and the only steps that change the file are its own renewal, which touches heartbeat_at alone, and its own release |
| `LeaseSafety.RenewOnlyReplacesOwnFile` | internal/state/lock.go:310-324 | when renew writes, the file still is the record it read and the lease is not yet being removed, although read and write are separate steps; so renew never recreates a removed file |
| `LeaseSafety.UnlockRemovesOnlyOwnFile` | internal/state/lock.go:107-125 | when Unlock removes, the file carries its own nonce and is the file it created, although check and removal are separate steps |
| `LeaseSafety.ReapRemovesOnlyAbandonedFile` | internal/state/lock.go:219-253 | when a reaper removes, no live contender answers for the file, its content is what the reaper judged, and a record in it has a stale heartbeat |
| `LeaseSafety.SecondReadFindsNoOwner` | internal/state/lock.go:248-252 | a second read equal to a condemned or aged first read means that nobody alive owns the file at that moment |
| `LeaseSafety.OnlyOwnerChangesFile` | internal/state/lock.go:28-30 | while a live contender owns the file, no step of anyone else changes or removes it |
| `LeaseSafety.OwnerBefore` | internal/state/lock.go:141-144 | ownership starts only with an exclusive create, on a free path, when nobody alive owns the file |
| `LeaseSafety.InvKept` | internal/state/lock.go:145-267 | every step of every contender, crash, clock tick and process event keeps the protocol's invariant |
| `LeaseLimits.ExclusionExactly` | internal/state/lock.go:211-218 | two leases are never held at once, in any run, if and only if all three hypotheses are demanded |
| `LeaseLimits.OverlappingReapsBreakExclusion` | internal/state/lock.go:211-218 | there is a run in which two overlapping reaps lead to two held leases |
| `LeaseLimits.RemovalAfterStatBreaksExclusion` | internal/state/lock.go:226-239 | there is a run without overlapping windows from second read to removal in which equal reads of two different empty files lead to two held leases |
| `LeaseLimits.SlowCreatorBreaksExclusion` | internal/state/lock.go:192-207 | there is a run in which a creator that takes the stale interval to write its record leads to two held leases |
| `TaskStoreSafety.NamesStayUnique` | internal/taskservice/run.go:63-111 | in every interleaving of all operations, self-removals, crashes, failing reads and failing unlocks, under the named hypotheses, no two tasks in the store have the same name |
| `TaskStoreSafety.NoDeadlock` | internal/taskservice/rename_labels.go:27-44 | in every reachable state with an unfinished operation, some unfinished operation can go on without a lock wait timing out, even if lock file names collide, while no unlock gives up and crashed holders can be found dead |
| `TaskStoreSafety.TaskHolderRuns` | internal/taskservice/lifecycle.go:57-68 | an operation that holds its task lock waits for no other lock and can always go on |
| `TaskStoreSafety.NoLostUpdate` | internal/taskservice/rename_labels.go:38-67 | over any stretch of any run, under the named hypotheses, a task's record is its old record with the committed edits applied in commit order, each to its own field |
| `TaskStoreSafety.StepReplays` | internal/state/store.go:328-345 | under the hypotheses for records, one step changes a stored record only by committing one Rename or SetLabels to the record it finds, although the code writes back a whole record read earlier to the directory that this record names |
| `TaskStoreSafety.NamesFramed` | internal/taskservice/run.go:21-24 | while a live operation holds the store-wide lock, no step of another one brings a name into the store, if there is no trap for records and removals are whole |
| `TaskStoreSafety.RecordsFramed` | internal/taskservice/run.go:25-28 | while a live operation holds a task lock, no step of another one brings back or rewrites a record that the lock file covers, if there is no trap for records and removals are whole |
| `TaskStoreSafety.LocksFramed` | internal/state/lock.go:346-365 | no step of another operation takes away a lock that a live operation holds |
| `TaskStoreSafety.GoneForGood` | internal/state/store.go:328-345 | a removed record never comes back, whatever stale records are still to be written, if there is no trap for records and nothing is written into what is left of a removed directory |
| `TaskStoreSafety.NamesAreNotIDs` | internal/validation/name.go:38-40 | a name that Run was given opens no task of another name, and if it opens one of its own name there is no second task of that name |
| `TaskStoreSafety.RecordsOkKept` | internal/state/store.go:328-345 | while removals are whole, every step keeps records at home or harmless, one lock for each of them, and every copy about to be written back equal to the stored record |
| `TaskStoreLimits.UniqueExactly` | internal/state/store.go:347-363 | from an idle store with unique names, while IDs can be generated, names stay unique in all runs if and only if scans can read the tasks, removals are whole and there is no trap for names |
| `TaskStoreLimits.NoLostUpdateExactly` | internal/state/store.go:328-345 | from an idle store, while an ID can be generated, no committed edit is ever lost if and only if removals are whole and there is no trap for records |
| `TaskStoreDeadlock.NoDeadlockExactly` | internal/state/lock.go:61-70 | no run gets stuck if and only if no unlock gives up and crashed holders can be found dead |
| `TaskStorePlain.PlainStoreIsSafeExactly` | internal/validation/name.go:9-13 | where each path opens only the entry spelled like it, names are stored as given and records are at home, there is no trap for names if and only if no task directory is called like a valid name |
| `TaskStorePlain.CaseFoldingIsATrap` | internal/validation/name.go:13 | where case is ignored, the lower-case spelling of an ID that can still be generated is a valid name that will open its task |
| `TaskStoreTraps.StrayRecordDuplicates` | internal/state/store.go:142-148 | from every idle store with a record that names another directory, one SetLabels leads to two tasks of one name |
| `TaskStoreTraps.StrayRecordLosesUpdate` | internal/state/store.go:142-148 | from every such store one SetLabels overwrites the record of a task that it did not resolve to |
| `TaskStoreTraps.TwoLocksDuplicate` | internal/state/lock.go:354-365 | from every idle store with a task that two references open under two lock files, a SetLabels brings back a name that has been given away |
| `TaskStoreTraps.TwoLocksLoseUpdate` | internal/state/lock.go:354-365 | from every such store a Rename can revert labels that were set meanwhile |
| `TaskStoreTraps.UnstoredNameDuplicates` | internal/state/store.go:347-363 | running a name that is not stored as given twice makes two tasks of its stored form |
| `TaskStoreTraps.NameLikeIDBreaksUniqueness` | internal/state/store.go:291-298 | from every idle store where a valid name opens a task, or a task that can still be created, a state with two tasks of one name can be reached without any crash |
| `TaskStoreTraps.UnreadTaskDuplicates` | internal/state/store.go:353-357 | if a scan may fail to read a task, Run can create a second task of its name |
| `TaskStoreTraps.RemainsDuplicate` | internal/state/store.go:338-345 | if a record may be written into what is left of its directory, a SetLabels can bring back a task whose name a new task has |
| `TaskStoreDeadlock.FailedUnlockBlocks` | internal/state/lock.go:107-125 | there is a run in which an unlock that gives up leaves the store-wide lock held by a finished operation, while another one waits for it |
| `TaskStoreDeadlock.StuckHolderBlocks` | internal/state/lock.go:259-267 | there is a run in which a crashed holder whose PID is reused keeps the store-wide lock, while another one waits for it |
| `TaskStoreTraps.ReplacingRunDuplicates` | internal/taskservice/run.go:164-196 | a replacing Run that resolves its name to a task of another name creates a second task of that name |
| `TaskStoreRuns.RunCreates` | internal/taskservice/run.go:63-111 | a Run that nobody interferes with, with a name that no task has, can end with exactly that task added and no lock left behind |
| `TaskStoreRuns.RenameRenames` | internal/taskservice/rename_labels.go:27-67 | a Rename that nobody interferes with, of a task at home, to a name that no task has, can end with exactly that name changed and no lock left behind |
| `LaunchSafety.AtMostOneSupervisor` | internal/taskservice/lifecycle.go:149-214 | in every interleaving of Start, Stop and Restart, with PID reuse, failing reads, files truncated before they are written, and supervisors that end at any time, under the six named hypotheses, at most one supervisor serves the task |
| `LaunchSafety.LaunchFindsNone` | internal/taskservice/lifecycle.go:173-187 | Start launches only when no supervisor serves the task |
| `LaunchSafety.EvidenceNamesSupervisor` | internal/taskservice/launch.go:43-60 | whenever no live operation waits for it under the lock, a serving supervisor is the one that the files name, and no honest read of its creation time denies it, unless its directory is gone |
| `LaunchSafety.EvidenceNames` | internal/taskservice/launch.go:100-115 | a launch wait ends only with files that name the launched process and cannot be denied later, or without a directory, while that process serves the task |
| `LaunchSafety.OthersWait` | internal/taskservice/lifecycle.go:161-165 | while a live operation has the task lock, a step of another operation changes nothing it relies on |
| `LaunchLimits.OneSupervisorExactly` | internal/taskservice/launch.go:43-46 | a task has at most one supervisor, in all runs, if and only if all six hypotheses are demanded |
| `LaunchLimits.CrashedWaiterAllowsTwo` | internal/taskservice/launch.go:44-46 | there is a run in which a crashed waiter leads to two supervisors |
| `LaunchLimits.ExpiredWaitAllowsTwo` | internal/taskservice/launch.go:82-88 | there is a run in which an expired launch wait leads to two supervisors |
| `LaunchLimits.UnreadWaiterStampAllowsTwo` | internal/taskservice/launch.go:109-112 | there is a run in which a waiter that cannot read the creation time accepts a left-over one, which leads to two supervisors |
| `LaunchLimits.UnreadOwnStampAllowsTwo` | internal/supervisor/supervisor.go:73-78 | there is a run in which a supervisor that cannot read its own creation time leaves an old one on file, which leads to two supervisors |
| `LaunchLimits.UnreadPidAllowsTwo` | internal/taskservice/service.go:203-207 | there is a run in which a Start that cannot read supervisor.pid launches a second supervisor |
| `LaunchLimits.ReusedPidAllowsTwo` | internal/state/store.go:150-154 | there is a run in which a supervisor gets the PID that is still on file, its waiter accepts that one, and a second Start reads the truncated file and launches another |
| `SupervisorSafety.OneChildAtATime` | internal/supervisor/supervisor.go:264-362 | two children never run at once, and one starts only when none is left |
| `SupervisorSafety.StopIsFinal` | internal/supervisor/supervisor.go:264-362 | from a stop request that finds a child running, or a turn past its child, no step of anyone starts a child, and the loop only moves towards its return; the check after the child ends the run whatever else was requested |
| `SupervisorSafety.OneTurnAfterStop` | internal/supervisor/supervisor.go:264-277 | at most one turn of the loop begins after a stop request, and it is the last one |
| `SupervisorSafety.AtMostOneChildAfterStop` | internal/supervisor/supervisor.go:264-362 | whatever steps follow a stop request, at most one more child starts, none if the request found a child running, and after the last one the loop never gets back to its top |
| `SupervisorSafety.ExitWrittenOnce` | internal/supervisor/supervisor.go:269-313 | a run that returns has attempted exactly one WriteExit, when no child was left, and nothing starts after it |
| `SupervisorSafety.OnlyPolicyEndsRun` | internal/supervisor/supervisor.go:269-313 | without a stop request a run ends only as the restart policy says; SIGTERM is recorded only for a stop; only an --rm task whose run ended by policy is removed |
| `SupervisorSafety.UnhealthyNeedsThreeFailures` | internal/supervisor/supervisor.go:218-254 | the health check asks for a restart only after three failures in a row and under a restart policy |
| `SupervisorSafety.RestartNeverEndsRun` | internal/supervisor/supervisor.go:279-314 | a token comes with a set flag, and a child killed by a token is never taken for one that ended by itself, while restarts and decisions do not cut into each other; stops may come at any moment |
| `SupervisorSafety.DelayIsCappedDoubling` | internal/supervisor/supervisor.go:365-380 | without a fixed delay attempt n waits the smaller of 2^(n-1) and 60 seconds, so the capped shift loses nothing, and every backoff has an attempt number of at least 1 |
| `SupervisorLimits.KillsFlaggedExactly` | internal/supervisor/supervisor.go:124-145 | a killed child is recognised in all runs if and only if restarts and decisions never cut into each other |
| `SupervisorLimits.CutRestartEndsRun` | internal/supervisor/supervisor.go:279-293 | there is a run in which a restart that a child's end cuts into ends the task with exit code -1 and no stop request |
| `SupervisorLimits.WakeUpTokenKills` | internal/supervisor/supervisor.go:345-361 | there is a run of whole restarts in which the token of a second restart survives a wake-up from backoff and kills the next child with no flag set |
| `SupervisorRequests.ForcedRestartEndsRunExactly` | internal/taskservice/lifecycle.go:129-134 | after a child was killed for a restart, the loop's one load of restartRequested decides: the run ends with the child's code, whatever follows, if and only if the flag is not set by then and the restart policy ends on that code; otherwise another child can start |
| `SupervisorRequests.ForcedRestartEndsRun` | internal/supervisor/supervisor.go:279-314 | under both hypotheses there is a run that a forced restart ends with exit code -1 and no stop request |
| `SupervisorRequests.StopSignalsChildExactly` | internal/supervisor/supervisor.go:279-293 | once a stop is published, a running child has the token coming or its monitor has taken it, in every continuation, if and only if no restart drains the token and no monitor of an earlier child takes it before it can matter |
| `Rotation.LogDir.constructor` | internal/state/rotate.go:8-13 | any initial files, with any gaps, are a valid start |
| `Rotation.LogDir.Append` | internal/supervisor/supervisor.go:555-565 | appending adds one entry at the end of what readers see and of what was written |
| `Rotation.LogDir.RotateLog` | internal/state/rotate.go:31-45 | the shifting loop moves every numbered file up by one and the current one to number 1; readers lose exactly the last file |
| `Rotation.LogDir.ListLogFiles` | internal/state/rotate.go:48-64 | the listed numbers are the existing files, newest first |
| `Rotation.HistoryKeepsSuffix` | internal/state/rotate.go:31-64 | after any appends and rotations, from any initial files and for any number of kept files, the listed files read oldest to newest are a suffix of everything written |
| `Rotation.SuffixAfter` | internal/state/rotate.go:31-45 | the same for the numbered files themselves, by induction over the writes and rotations |
| `Rotation.ListedReads` | internal/state/rotate.go:47-64 | reading the listed files from the last to the first yields the entries of all kept files, oldest first |
| `Rotation.RotationLosesOnlyLastSlot` | internal/state/rotate.go:32-37 | what was readable before a rotation is the last file's content followed by what is readable after it |
| `Rotation.ReadsSource` | internal/taskservice/logs.go:50-64 | a file read after a rotation that came between listing and reading holds what the file before it held at the listing |
| `Rotation.RepeatsExactly` | internal/taskservice/logs.go:50-64 | with a rotation after the first j reads, a file is returned twice if and only if it was the last one read and the next listed number is its successor |
| `Rotation.MissesExactly` | internal/taskservice/logs.go:50-64 | with such a rotation a listed file is missed if and only if it was not read before and its successor is not listed, so the oldest one always is if any read was still to come |
| `LogTail.FilterEntries` | internal/taskservice/logs.go:102-117 | the loop keeps exactly the entries that pass the stream and time filters, in order |
| `LogTail.Scan` | internal/taskservice/logs.go:61-81 | the scan uses the files up to the first that crosses the lower bound or fills the tail, and fails exactly if it reaches an unreadable one |
| `LogTail.Assemble` | internal/taskservice/logs.go:83-86 | newest-first chunks become one chronological list |
| `LogTail.Logs` | internal/taskservice/logs.go:61-98 | for readable files in order the result is the last `tail` entries of the filter over all files; in any order it is that of the files the scan uses; it fails exactly if the scan reaches an unreadable file |
| `LogTail.EarlyExitIsInvisible` | internal/taskservice/logs.go:72-80 | files that the scan does not read cannot change the last entries, given the order between files |
| `LogTail.EarlyExitInvisibleExactly` | internal/taskservice/logs.go:72-80 | for files in any order the early exit changes nothing, for any tail, if and only if no entry of a file beyond the first that crosses the lower bound passes the filter |
| `LogTail.EarlyExitInvisibleFor` | internal/taskservice/logs.go:72-80 | for one tail the early exit changes nothing exactly when the scan filled it or no unread entry passes the filter |
| `LogTail.UnorderedFilesLoseEntries` | internal/taskservice/logs.go:72-77 | with an older file later than a newer one, an entry that passes the filter is missed |
| `LogTail.EffectiveSinceIsBoth` | internal/taskservice/logs.go:39-48 | the one lower bound passes an entry exactly if the run's start and the since cutoff both do |
| `RenderLogs.RenderLogs` | internal/mcpserver/logs.go:317-353 | the text is the newline join of the longest suffix of rendered entries that fits the budget, in order; returned plus omitted is the input length; the flag tells whether a returned entry was shortened |
| `RenderLogs.FitNewest` | internal/mcpserver/logs.go:321-352 | the same for any rendering of one entry |
| `RenderLogs.ReverseLines` | internal/mcpserver/logs.go:349-351 | the swapping loop reverses the lines |
| `RenderLogs.LineIsCapped` | internal/mcpserver/logs.go:335-337 | a rendered line stays within the entry cap unless its prefix alone exceeds it |
| `Utf8.TruncateUTF8Bytes` | internal/mcpserver/logs.go:355-371 | the loop stops at the last possible cut, the result fits the limit for any bytes, and is the input if not truncated |
| `Utf8.TruncationKeepsUtf8` | internal/mcpserver/logs.go:355-371 | for valid UTF-8 and a positive limit the result is valid UTF-8 within the limit: the input, dots, or the longest whole-character prefix that leaves room for the ellipsis, with fewer than 4 bytes of that room unused |
| `Utf8.BoundaryIffRuneStart` | internal/mcpserver/logs.go:367-369 | in a valid string the positions between characters are exactly the bytes that utf8.RuneStart accepts |
| `Utf8.StartIsNear` | internal/mcpserver/logs.go:367-369 | one of any four consecutive bytes of a valid string starts a character, so the loop goes back at most three bytes |
| `JsonInteger.ExactIffDenotes` | internal/mcpserver/logs.go:176-211 | for every number literal the result is v exactly when the literal's rational value is v and v is an int64, so an error means exactly a fraction or a value out of range |
| `JsonInteger.NothingLargeIsBuilt` | internal/mcpserver/logs.go:197-207 | the scale never overflows an int64 and at most 19 digits and a sign are built |
| `JsonInteger.TextIsCut` | internal/mcpserver/logs.go:180-188 | cutting a literal's text yields its sign, digits, fraction and exponent |
| `JsonInteger.BuildIsExact` | internal/mcpserver/logs.go:198-210 | for trimmed digits the fraction, length and range tests together accept exactly the scaled values that are int64 |
| `JsonInteger.HugeExponent` | internal/mcpserver/logs.go:193-196 | a number whose scale is negative or above 19 is no int64, so rejecting exponents beyond 32 bits rejects no integer |
| `Strings.SortSorts` | internal/taskservice/resolve.go:53 | sorting orders the list and keeps its elements |
| `Strings.SortPermutes` | internal/taskservice/resolve.go:53 | sorting keeps every element as often as it occurs |
| `Strings.SortDistinct` | internal/taskservice/resolve.go:53 | distinct IDs are strictly ascending once sorted |
| `Strings.NormalizedListFilter` | internal/taskservice/list_get.go:126-130 | the result holds each distinct value once, in strictly ascending order |
| `Strings.CompactedProperties` | internal/taskservice/list_get.go:129 | compacting a sorted list keeps its elements and makes it strictly ascending |
| `Strings.NormalizedIsCanonical` | internal/taskservice/list_get.go:126-130 | two filter lists normalise equally exactly when they have the same elements |
| `Listing.HasAnyLabel` | internal/taskservice/resolve.go:28-37 | true exactly if some label is in both lists |
| `Listing.SnapshotIDs` | internal/taskservice/resolve.go:48-70 | the sorted IDs of the readable tasks that carry one of the labels, or of all tasks |
| `Listing.CheckRequest` | internal/taskservice/list_get.go:33-60 | each malformed request gets its error, in the code's order; a good one its filters |
| `Listing.List` | internal/taskservice/list_get.go:28-124 | for any reads of the store, the page is the first `limit` matching tasks behind the cursor, with the number of all matches and a next cursor exactly if more remain |
| `Listing.Scan` | internal/taskservice/list_get.go:74-113 | the loop's page, total and next cursor in terms of what it counts and what is behind the cursor |
| `Listing.StateFilterIsExact` | internal/taskservice/list_get.go:36-45 | not resolving states for none or all four of them selects exactly the tasks whose resolved state matches |
| `Listing.LoopCountsMatching` | internal/taskservice/list_get.go:62-92 | the loop over the label snapshot counts exactly the matching tasks in listing order |
| `Pagination.ChainInOrder` | internal/taskservice/list_get.go:92-113 | whatever happens to the store between the calls, the IDs returned along a chain of next cursors are strictly in order, so none repeats |
| `Pagination.MatchingTaskReturnedOnce` | internal/taskservice/list_get.go:92-113 | when the chain has ended, a task that was there and matched in every call was returned exactly once |
| `Pagination.OnlyMatchingReturned` | internal/taskservice/list_get.go:77-91 | a returned task matched in one of the calls |
| `Pagination.NextCursorAccepted` | internal/taskservice/list_get.go:46-60 | the service accepts each next cursor with the same filters and order |
| `Pagination.PageBounds` | internal/taskservice/list_get.go:93-113 | a page lies behind its request's cursor and up to its next cursor |
| `Pagination.NextRemaining` | internal/taskservice/list_get.go:92-113 | on an unchanged store the next cursor leaves exactly the tasks after the page |
| `Pagination.FixedStorePages` | internal/taskservice/list_get.go:62-123 | on an unchanged store the chain ends, its pages concatenate to all remaining matches, all report the same total, and all but the last are full |
| `Pagination.LazyStatusIsExact` | internal/taskservice/list_get.go:86-122 | with none or all four states asked for, the page, total and cursor are the same whatever the tasks' states are |
| `Batch.RunBatch` | internal/taskservice/lifecycle.go:18-45 | explicit references give a prefix of the request whose last item alone may have failed, with its error returned; a selection gives one item for each ID and no error |
| `Batch.BatchOutcome` | internal/mcpserver/dto.go:285-314 | counts, shown items, number of omitted ones and failure in each of the three outcomes |
| `Batch.StableSortUnique` | internal/mcpserver/dto.go:303-308 | the sorted items are the only arrangement by priority that keeps the order within each priority |
| `Batch.StableSortedIsStableSort` | internal/mcpserver/dto.go:304-306 | the sort orders by priority, keeps the order within each, and keeps every item |
| `Batch.CountsConserve` | internal/mcpserver/dto.go:290-302 | failed, changed and no-op counts never exceed the targets, and add up to them exactly when every item is one of the three |
| `Batch.CapConserves` | internal/mcpserver/dto.go:303-309 | shown and omitted items are all items, the cap holds, and no omitted item outranks a shown one |
| `Batch.FailureOmittedLast` | internal/mcpserver/dto.go:316-325 | a failure is omitted only if nothing but failures is shown |
| `Batch.RunAndReport` | internal/mcpserver/lifecycle.go:111-119 | for explicit references the report shows the processed prefix in order, omits nothing, and fails exactly if it counts its one failure |

## Left out

- HTTP routes, middleware, MCP and CLI wiring, tables and help text: plumbing without shared state.
- Real processes, signals, `/proc`, `lsof` and Windows handles: an environment of live incarnations, honest probes and arbitrary deaths stands for them.
- JSON, base64, regular expressions and random generation: cursors and records are values, nonces and IDs are fresh; of JSON only what it does to a task's name is kept. A malformed cursor or record is not part of the model, except for unparseable lock files.
- `AtomicReplace` and the retries of `Remove`: one replacement is one step that happens or fails as a whole, and so is a removal under a task lock; a removal without one takes the record and the directory in two steps. Creating a task directory and its meta.json is one step, and so is `ListIDs`. The bytes of a short file are written in one step, after it was truncated in another.
- Directories with a leading dot, which `ListIDs` skips: a record that was put into one by hand is not a task of the model.
- Wall-clock liveness: that a lock is eventually obtained or that a stop takes effect within its timeout depends on scheduling. `NoDeadlock` says only that some operation can always go on.
- The lock, store, launch and supervisor protocols are values and step functions, not classes: their methods interleave at every system call, so no method call could state its effect on the shared files.
- Partial removal of a task directory in `Launch`: an --rm task's directory disappears in one step there.
- `gracefulStop` and `killChildIfVerified`: a supervisor may end at any step, which covers every stop and kill; that signals reach the right child is not modelled.
- `abandonLaunch` and the gap in `Run` between creating a task and locking it are part of `TaskStore`, not of `Launch`: at most one supervisor is claimed for Start, Stop and Restart on existing tasks.
- `jsonlWriter`, `captureStream` and rotation by size: only what a rotation does to the files is modelled.
- `truncateCompact` and `truncateDisplay`: they depend on display widths of a library.
- Entries that are appended between two reads of `Logs`: `Rotation.ReadsSource` says which file each read returns, not which of its last lines were already there.
- Listening ports, log paths and the status detail of listed tasks.
- Default names, labels, timeouts and other one-branch validation.
- JsonInteger.ExactIffDenotes: is stated for a 64-bit `int` and literals shorter than 2^30 characters; `internal/mcpserver/logs.go:209` parses with the platform's integer size.
- LeaseSafety.MutualExclusionHolds: is stated under the three scheduling hypotheses above, because the code does not exclude their violation.
- TaskStoreSafety.NamesStayUnique: is stated under the hypotheses above, because the code does not exclude their violation; they are exact (`TaskStoreLimits.UniqueExactly`).
- TaskStoreSafety.NoLostUpdate: is stated under the hypotheses above, because the code does not exclude their violation; they are exact (`TaskStoreLimits.NoLostUpdateExactly`).
- TaskStoreSafety.NoDeadlock: is stated under the two hypotheses above, because the code does not exclude their violation; they are exact (`TaskStoreDeadlock.NoDeadlockExactly`).
- TaskStoreSafety.GoneForGood: is stated under the hypotheses of `NoLostUpdate`, because a record can be written back into what is left of its directory.
- LaunchSafety.AtMostOneSupervisor: is stated under the six hypotheses above and for one task lock, so for a task that all references open under one lock file (`TaskStore.OneLockEach`); it counts a supervisor that has removed its own task as gone, because it starts no more children and only has to exit.
- SupervisorSafety.RestartNeverEndsRun: is stated under the two hypotheses above, because the code does not exclude their violation.
- RenderLogs.LineIsCapped: the prefix is not truncated, because the code does not truncate it.
