# Verified model of vllm-criu

vllm-criu suspends a running vLLM server to disk and resumes it: a launcher puts the model to sleep, checkpoints
CUDA, has CRIU dump the process tree into an image slot, and later restores it, after which the EngineCore process
repairs itself from within. A guard in front of the API wakes the server on demand.

This project models the parts of it in which several processes, threads or passes over shared state have to get along,
and proves what they guarantee. `dafny verify dfyconfig.toml` checks the whole project (Dafny 4.11).

| file | what it models |
|---|---|
| `Protocol.dfy` | launcher, shared directory and EngineCore processes as one transition system with faults and crashes |
| `ProtocolInvariant.dfy`, `ProtocolTheorems.dfy`, `ProtocolWitnesses.dfy` | its invariant, what follows for every run, and concrete runs |
| `ProtocolRuns.dfy` | how runs from a given state are put together |
| `ProtocolConverses.dfy` | from every state, the runs that show the conditions of the theorems to be exact |
| `Recording.dfy` | runs written down while code executes |
| `Commands.dfy` | the commands issued for a process, and what any list of them leaves of it |
| `Launcher.dfy` | `checkpoint_vllm`, `restore_vllm` and `main` as imperative code that refines the protocol, with CUDA, memory and staging |
| `EngineCore.dfy` | `run_local_restore` as imperative code that refines the protocol |
| `Substitution.dfy`, `Worker.dfy`, `RebindingTheorems.dfy` | the in-place rebinding of tensors, the allocator under it, and the pure substitution it amounts to |
| `Releases.dfy` | how often allocations are released over several passes |
| `OutputItems.dfy` | what an output loop makes of the items it takes |
| `OutputLoop.dfy` | an output loop with its recycled send buffers |
| `OutputQueue.dfy` | the output queue with all its users at once |
| `OutputPasses.dfy` | two drain passes at once |
| `OutputDelivery.dfy`, `OutputThreads.dfy` | loop and queue together: output loops as threads on the queue, and what the client sockets carry in all |
| `ProxyHead.dfy` | the API proxy's rewriting of request heads |
| `ProxyChunks.dfy` | its read loop, and how the result depends on the chunks |
| `ProcessTree.dfy` | the walk over a process tree and its users |
| `Handshake.dfy` | the wait for READY messages |
| `Guard.dfy` | the guard's event loop |
| `Wrappers.dfy` | `Option` |

How it is built:

- External commands, requests and file operations are nondeterministic: each may succeed, fail, or time out with or
  without effect. Threads and processes move between any two statements (`Yield`, `Others`, `Transport`).
- `Protocol.Apply` is total: an event that cannot happen changes nothing, so every sequence of events is a run, and the
  theorems are about every state that some run reaches.
- The classes `Launcher` and `EngineCore` carry the protocol state as history, and `OutputThread` that of the queue. Each
  of their statements that the system can see is recorded as one of its events, and their invariant says that the record
  is a run; so the theorems about runs apply to them. `faults` counts what failed, so that a contract can say that an
  operation fails only for a reason. `calls` lists the commands issued, and how each ended.
- The invariant of `Worker` is a predicate on a value, one clause per case of `Clause`; each mutation is compared with
  a function on that value.
- `OutputLoop` is one loop in full, with buffers and trackers as objects; `OutputQueue` is the interplay of several,
  with one loop reduced to what it holds.

What the proofs found about the code:

- `done` is not tied to a process. A resume can report success on the word of a process other than the one it restored,
  exactly if a live EngineCore may yet write `done` when the resume begins (`RivalMisleads`, `BystanderCanAnswer`), and on
  stages that ran before its CUDA restore exactly if an attempt was under way then (`StaleAttemptMisleads`).
- The completion flag survives in an image, so a process that has been resumed once cannot be suspended and resumed a
  second time with a sleep level (`SecondImageIsLost`); an image can be recovered exactly if its process, or such a
  rival, can still answer (`ImageIsRecoverable`).
- A staging directory that cannot be removed leaves `state` at `checkpointing` with the lock free, and nothing else does
  (`FailedCleanupStrandsState`, `OnlyCleanupStrands`, `CheckpointingUnlockedMeansStranded`).
- A suspend that fails can leave the process locked, or its memory discarded, while `state` says `running`: exactly if a
  lock or a sleep took effect and was not undone (`WhatFailureLeaves`, `ByBranches`; `LockedWhileRunning`, `LockedUnknown`,
  `AsleepWhileRunning`). Once locked, it fails every further suspend (`Launcher.CheckpointVllm`).
- A suspend that fails after its dump loses the process and the image, exactly if the empty slot cannot be removed, the
  staging directory cannot be renamed, or the launcher crashes there (`OnlyFailedPublicationLoses`, `SuspendLoses`).
- A container that ends in the middle of a resume leaves the pending marker behind, and startup does not remove it; until
  the next resume a genuine sentinel is taken for a stale one (`PendingUnlockedMeansLeft`, `PendingSurvives`,
  `VerdictsAreRight`).
- A suspend that is refused because there is a checkpoint leaves `state` at `running`, and a guard that hears so no longer
  believes in the checkpoint (`RefusalHidesTheImage`, `BelievesTheLastWord`).
- A parameter object shared by two modules is replaced twice; what it then holds is a second new tensor, not the one
  other users of its old address got (`TiedParameterStrays`; exactly when: `WalkIsSubstitution`).
- A drain pass beside others reorders outputs exactly if, while it retains one, a producer or a loop moves a different one
  past it (`QueueKeepsOrder`, `ProducerOvertakes`, `LoopOvertakes`); two passes that both retain some can, exactly if not
  all outputs then held are equal (`SecondPassCanReorder`, `TwoPassesCanReorder`).
- A local restore tried again releases once more every allocation that still sleeps in the table (`TriedAgain`; exactly
  when: `ReleasedTwice`).
- Two READY messages of one engine can stand in for another that never answered (`DuplicateStandsIn`; exactly when:
  `EveryEngineAnswered`).
- A request head that reaches the size limit right after a line end is cut by the empty line the proxy adds
  (`FullRequestHasAGap`; exactly when: `RewritingTwice`, `HeadEndsOnce`), and what upstream receives depends on how the
  stream was cut exactly if it is longer than the limit and its head does not end within it (`CutsDoNotMatter`).
- The guard asks for a suspend while a request is in flight exactly if one that arrived after its test is unfinished
  (`SuspendsUnderARequest`, `ARequestCanBeUnder`).

## Model

| member | source | states |
|---|---|---|
| `ProtocolTheorems.RestoreSoundness` | src/vllm_criu/launcher.py:351-422 | Over every interleaving, fault schedule and crash: a resume that reports success with a sleep level rests on one EngineCore attempt that ran the whole plan in order (checkpoint_restore, reinitialize, reload_weights, optional KV wake, exactly one graph action, flags cleared and scheduler resumed). If no attempt was under way when the lock was taken, all of it ran after this operation's CUDA restore; if no live process could still answer then, it ran in the restored process. |
| `ProtocolTheorems.MarkerImpliesCudaRestored` | src/vllm_criu/launcher.py:378-382 | In every reachable state with a live EngineCore, the request marker exists only while an operation that holds the lock is between its CUDA restore and its last cleanup step. |
| `ProtocolTheorems.NoAttemptBeforeCuda` | src/vllm_criu/enginecore/lifecycle.py:185-192 | A local restore gets past its tests only while an operation under the lock has completed its CUDA restore. |
| `ProtocolTheorems.ColdStartSeesNoMarker` | src/vllm_criu/launcher.py:434-443 | Neither the fallback process nor the one `main` starts finds the request marker, whatever crashed before. |
| `ProtocolTheorems.OperationExclusion` | src/vllm_criu/launcher.py:286-289 | At most one operation body runs; the lock is held exactly while one does; a thread that finds it taken changes nothing; `restoring` implies the lock is held, and so does `checkpointing` unless a failed cleanup left it. |
| `ProtocolTheorems.StateTells` | src/vllm_criu/launcher.py:326-460 | In every reachable state, unless a reaper has written to `state`: it is `checkpointing` while a suspend dumps and publishes, `restoring` from the announcement of a resume to its last statement, `running` once the resume has restored vLLM or started it afresh, and `checkpointed` once it has failed. |
| `ProtocolTheorems.MarkersCoverRecovery` | src/vllm_criu/launcher.py:363-466 | From the CRIU restore to its end, a resume that gets on has the pending marker there; when it is over both markers are gone. |
| `ProtocolTheorems.PendingUnlockedMeansLeft` | src/vllm_criu/launcher.py:560-573 | With the lock free, the pending marker is there if and only if a container ended under an operation while it was there and no resume has removed it since: startup does not. |
| `ProtocolTheorems.CheckpointingImpliesLocked` | src/vllm_criu/launcher.py:335-345 | `checkpointing` implies the lock is held in every run in which no cleanup of the staging directory fails after the announcement. |
| `ProtocolTheorems.OnlyCleanupStrands` | src/vllm_criu/launcher.py:335-345 | A step leaves `checkpointing` behind if and only if it is such a failing cleanup. |
| `ProtocolTheorems.CheckpointingUnlockedMeansStranded` | src/vllm_criu/launcher.py:335-345 | In every reachable state with the lock free, `checkpointing` is shown if and only if a failing cleanup left it. |
| `ProtocolTheorems.ImageConservation` | src/vllm_criu/launcher.py:328-331 | Images in the slot at first + images published = images used up + images archived + the one in the slot, over every sequence of suspends, resumes, failures and crashes. |
| `ProtocolTheorems.ArchivesAreKept` | src/vllm_criu/launcher.py:263-283 | No run overwrites or removes an archive. |
| `ProtocolTheorems.OnlyFailedPublicationLoses` | src/vllm_criu/launcher.py:327-337 | A step leaves an image that is being published, and no process with it, neither in the slot nor in the hands of an operation, if and only if the removal of the empty slot or the renaming of the staging directory fails after the dump, or the launcher crashes there. |
| `ProtocolTheorems.DumpedInHand` | src/vllm_criu/launcher.py:327 | An image is in the hands of the operation that dumped it from the dump on. |
| `ProtocolTheorems.OrphansStay` | src/vllm_criu/launcher.py:335-337 | An image lost in this way never reaches the slot or an archive in any run. |
| `ProtocolTheorems.SecondRestoreNeverSucceeds` | src/vllm_criu/enginecore/lifecycle.py:142 | A resume of an image whose process can answer no more never succeeds with a sleep level, if no live process can answer: the flags that stop an attempt from starting are in the image. |
| `ProtocolConverses.RivalMisleads` | src/vllm_criu/launcher.py:240-260 | From every reachable state in which a resume can begin: some run of it ends with success on the word of a process other than the restored one if and only if a live process may yet write `done` then, that is, has an attempt under way or has neither of its two flags set. |
| `ProtocolConverses.ImageIsRecoverable` | src/vllm_criu/enginecore/lifecycle.py:185-192 | From every such state: some run of the resume ends with success if and only if the process in the image, or such a rival, can still answer. |
| `ProtocolConverses.StaleAttemptMisleads` | src/vllm_criu/enginecore/lifecycle.py:182-313 | From every such state: some run of the resume succeeds on stages that ran before its CUDA restore if and only if an attempt was under way, in a live process or in the image, when it began. |
| `ProtocolConverses.SuspendSucceeds` | src/vllm_criu/launcher.py:286-348 | With a live vLLM process and a free slot a suspend can succeed, and its image is that process. `state` is `checkpointed` then. |
| `ProtocolConverses.SuspendLoses` | src/vllm_criu/launcher.py:327-345 | And it can lose both: from every such state some run ends with the process dead, its image lost and `state` at `running`. |
| `ProtocolConverses.RefusalHidesTheImage` | src/vllm_criu/launcher.py:297-298 | From every idle state with an image a suspend is refused with nothing changed but `state`, which says `running` from then on. |
| `ProtocolConverses.ResumeSucceeds` | src/vllm_criu/launcher.py:351-422 | A resume of an image in which no attempt was ever made can succeed, and leaves a process that cannot answer again. `state` is `running` then. |
| `ProtocolConverses.ResumeWithoutSleep` | src/vllm_criu/launcher.py:403-422 | Without a sleep level no answer is waited for: from every idle state with an image, some run of a resume succeeds, with the process as it was dumped. |
| `ProtocolConverses.FallbackSucceeds` | src/vllm_criu/launcher.py:427-459 | With a fallback, from every idle state, image or not: some run of a resume that fails ends with a fresh process as vLLM, `state` at `running`, the image under the first free name, and neither marker nor status file left. |
| `ProtocolConverses.PendingSurvives` | src/vllm_criu/launcher.py:560-590 | From every idle state with an image, if startup is not to resume: a container that ends in the middle of a resume is followed by one that serves with the pending marker there. |
| `ProtocolConverses.SecondImageIsLost` | src/vllm_criu/enginecore/lifecycle.py:142 | From every idle state with a fresh vLLM process: suspend, resume and suspend again, and no run of a second resume succeeds with a sleep level. |
| `ProtocolConverses.FirstStart` | src/vllm_criu/launcher.py:560-583 | Every configuration has such a state: a first start on an empty directory. |
| `ProtocolTheorems.ReachableIsSound` | src/vllm_criu/launcher.py:286-583 | Every reachable state satisfies the joint invariant. |
| `ProtocolInvariant.Invariant` | src/vllm_criu/launcher.py:351-467 | The joint invariant of launcher, directory and EngineCore processes holds after every run from any initial directory. |
| `ProtocolInvariant.InvKept` | src/vllm_criu/launcher.py:286-583 | Every single event keeps it: steps of the bodies, boot steps, reapers, EngineCore threads, crashes. |
| `ProtocolInvariant.EngineKeepsSound` | src/vllm_criu/enginecore/lifecycle.py:229-302 | An attempt's log is always a prefix of the plan, at epochs that do not go back; `done` is reached only with the whole plan. |
| `ProtocolInvariant.CrashKeepsInv` | src/vllm_criu/launcher.py:567-573 | A crash at any point followed by startup re-establishes the invariant: startup removes the marker and the status file before anything is started. |
| `ProtocolInvariant.ArchiveKeepsLedger` | src/vllm_criu/launcher.py:263-283 | Archiving moves the image from the slot to a name that was free and keeps the account of images. |
| `ProtocolWitnesses.BystanderCanAnswer` | src/vllm_criu/launcher.py:240-260 | A concrete run in which a resume reports success although the restored process never began its local restore: another live process wrote `done`. |
| `ProtocolWitnesses.FailedCleanupStrandsState` | src/vllm_criu/launcher.py:335-348 | A concrete run that ends with `checkpointing` shown and the lock free. |
| `Protocol.TakenNamesAreFew` | src/vllm_criu/launcher.py:273-280 | Names of one second that are all taken are at most as many as the archives, which bounds the search. |
| `Protocol.FreeNameIsUnique` | src/vllm_criu/launcher.py:273-280 | The first free name is determined by the directory. |
| `Protocol.FirstFree` | src/vllm_criu/launcher.py:273-280 | Its result is not taken and every earlier suffix is. |
| `Recording.ReachableByRuns` | src/vllm_criu/launcher.py:286-583 | The reachable states the theorems speak of are exactly those that runs from an initial directory end in. |
| `Recording.RecordedIsRun` | src/vllm_criu/launcher.py:286-467 | A state reached by recorded steps is the state of a run, so the theorems about runs hold of the imperative code. |
| `Launcher.Launcher.CheckpointVllm` | src/vllm_criu/launcher.py:286-348 | Loses without effect if the lock is taken, is refused if the slot is taken, and otherwise only if vLLM is gone, and fails only if something failed. A taken slot is untouched; a failure leaves an absent or empty slot absent or empty; success publishes the image just dumped by exactly the commands of a suspend, in order, leaves no staging directory and `state` at `checkpointed`; failure leaves no staging directory and `state` at `running` unless its cleanup fails. What a failure leaves of a process that was running with everything on the GPU: the same, if and only if, among the commands it issued, one that locked it is followed by an unlock that took effect and one that discarded its memory by the last wake-up. After a complete rollback it is the same; after a failed checkpoint command it is locked. The images grow by one in a failure exactly if the dump succeeded, and then the process is gone. A process found locked stays locked: the suspend fails, at its lock at the latest. |
| `Launcher.Launcher.SuspendLocked` | src/vllm_criu/launcher.py:293-346 | The same for the body between acquire and release. |
| `Launcher.Launcher.IsUsable` | src/vllm_criu/launcher.py:294-297 | Usable exactly if vLLM is alive and the slot holds nothing. |
| `Launcher.Launcher.FreezeProcess` | src/vllm_criu/launcher.py:294-326 | Either refused without effect, or failed with the staging directory known, or the process is locked and checkpointed and a fresh staging directory exists. In every case the commands issued are the first few of a suspend, in order, all but the last successful. |
| `Launcher.Launcher.Quiesce` | src/vllm_criu/launcher.py:309-318 | The sleep request, if there is a sleep level, then the prepare request; on failure the first few of them in order, all but the last successful. |
| `Launcher.Launcher.LockAndSave` | src/vllm_criu/checkpoint.py:58-65 | CUDA is checkpointed only after a successful lock; if the checkpoint command fails the process stays locked. |
| `Launcher.Launcher.DumpAndPublish` | src/vllm_criu/launcher.py:327-334 | The slot receives exactly the image of the dump that succeeded, or is left as it was or emptied. |
| `Launcher.Launcher.SuspendExcept` | src/vllm_criu/launcher.py:335-346 | From whatever the try block left, the whole contract of a suspend that is refused or fails. |
| `Launcher.Launcher.CleanUp` | src/vllm_criu/launcher.py:335-346 | A failed cleanup skips the rest: no command is issued, CUDA and memory stay. Otherwise the rollback is made if CUDA was checkpointed, and `state` is `running`. |
| `Launcher.Launcher.SuspendTry` | src/vllm_criu/launcher.py:293-334 | The try block: published with the image just dumped in the slot, or stopped with what it did on record. |
| `Commands.WhatFailureLeaves` | src/vllm_criu/launcher.py:320-344 | For every list of commands a failing suspend can issue, and every way each can end, a timeout with or without effect included: a process that had everything on the GPU and was not locked is so again if and only if its lock, if it took effect, was undone by an unlock that took effect, and its sleep by the last wake-up. |
| `Commands.ByBranches` | src/vllm_criu/launcher.py:337-344 | If no command times out, by the branches of the source: past the CUDA checkpoint if and only if the rollback got through to its unlock and, with a sleep level, to its last wake-up; before it, if and only if neither sleep nor lock succeeded. |
| `Commands.LockedWhileRunning` | src/vllm_criu/launcher.py:320-345 | Commands of a failed suspend after which the process stays locked: the CUDA checkpoint is rejected. |
| `Commands.LockedUnknown` | src/vllm_criu/launcher.py:320-345 | The same with a lock that takes effect but times out, so that nobody knows of it. |
| `Commands.AsleepWhileRunning` | src/vllm_criu/launcher.py:309-345 | Commands of a failed suspend after which the memory stays discarded: the lock is rejected after the sleep. |
| `Launcher.Launcher.Rollback` | src/vllm_criu/checkpoint.py:100-107 | Restore, unlock, wake weights, load weights, wake KV, in that order, ending with CUDA running and everything resident, unless a command fails or the process is gone. |
| `Launcher.Launcher.RestoreVllm` | src/vllm_criu/launcher.py:351-467 | Loses without effect if the lock is taken; success uses up the image and goes through the CUDA handshake, and with a sleep level rests on a complete local restore; otherwise the image stays or is archived under the first free name. It fails only for want of an image or because something failed, and falls back only if so configured. Markers are gone and the lock is free at every exit. `state` is `running` after a success or a fallback and `checkpointed` after a failure, unless a reaper has written to it. The process restored, or started instead, is a new one, and the latter runs with everything on the GPU. The commands of a success are listed: a query, a restore, and an unlock if the restore succeeded. |
| `Launcher.Launcher.RestoreLocked` | src/vllm_criu/launcher.py:359-467 | The same for the body between acquire and release. |
| `Launcher.Launcher.RestoreIfNeeded` | src/vllm_criu/checkpoint.py:67-98 | The exact sequence of commands, each issued if the one before succeeded; a rejected restore or unlock raises exactly if the process was not running already, a timeout always; if nothing is raised CUDA runs. |
| `Launcher.Launcher.WaitForLocalRestore` | src/vllm_criu/launcher.py:240-260 | Ends with success only on reading `done`, and takes the last writer of it for the answer; otherwise only for a reason. |
| `Launcher.Launcher.RestoreExcept` | src/vllm_criu/launcher.py:423-463 | What was restored is dead at the end; the image stays or is archived; a cold process runs only if so configured, and otherwise the operation raises. |
| `Launcher.Launcher.ArchiveFailedCheckpoint` | src/vllm_criu/launcher.py:263-283 | The slot ends absent; its image, if any, is archived under the first free name of that second, which was not taken. |
| `Launcher.Launcher.FreeName` | src/vllm_criu/launcher.py:273-280 | The search terminates on every directory and returns the first free name. |
| `Launcher.Launcher.TerminateTree` | src/vllm_criu/launcher.py:424-426 | The restored process is dead afterwards. |
| `Launcher.Launcher.ReaperMoves` | src/vllm_criu/launcher.py:542-551 | The reaper's test and its write are two moves; neither touches anything but `state`. |
| `Launcher.Launcher.constructor` | src/vllm_criu/launcher.py:560-573 | Any directory left by an earlier container is where a launcher may start. |
| `Launcher.Launcher.Start` | src/vllm_criu/launcher.py:570-583 | `main` up to the control server, with the resume at startup: it serves with the lock free and nobody inside, or does not serve; without an image to resume nothing but the request files is touched. It fails to serve only if something fails, and what it serves is a vLLM process; if nothing fails and an image is to be resumed, that is the one restored and its image is used up. |
| `Launcher.Launcher.ResumeAtStart` | src/vllm_criu/launcher.py:575-581 | The resume at startup leaves `main` serving exactly if it did not raise, and uses up the image at most. |
| `Launcher.Launcher.TryAcquire` | src/vllm_criu/launcher.py:288-289 | Acquires exactly if the lock is free. |
| `EngineCore.EngineCore.RunLocalRestore` | src/vllm_criu/enginecore/lifecycle.py:182-313 | Skipped exactly if complete, in progress or unmarked. Completed: the stages were named and run as scripted, `done` was written only then, the executor is awake and the scheduler resumed. Otherwise something raised: writing the first status, outside the `try`, which leaves the process in progress for good; or a prefix of the script was executed and the process may try again, with `failed` in the status file unless writing that failed too, or writing `done` did after the whole script. Every statement is a step of the protocol, with anything else happening in between. |
| `EngineCore.EngineCore.RunPlan` | src/vllm_criu/enginecore/lifecycle.py:197-291 | The script in order, as far as nothing raises. |
| `EngineCore.EngineCore.constructor` | src/vllm_criu/enginecore/lifecycle.py:182-192 | Any live process of any reachable system is where the code may run. |
| `EngineCore.EngineCore.RunWakeAndGraphs` | src/vllm_criu/enginecore/lifecycle.py:242-275 | The KV wake if configured and exactly one of the three graph actions, chosen as configured. |
| `EngineCore.EngineCore.StartLocalRestoreThread` | src/vllm_criu/enginecore/lifecycle.py:315-341 | A thread is started exactly if marked, not complete, not in progress and none was started before. |
| `RebindingTheorems.WalkIsSubstitution` | src/vllm_criu/enginecore/memory.py:183-222 | The in-place walk leaves in every cell it reaches what one map from old addresses to new tensors prescribes, if and only if it reaches each cell that has something to replace once; cells it does not reach are unchanged. |
| `RebindingTheorems.CellIsSubstituted` | src/vllm_criu/enginecore/memory.py:183-222 | The same for one cell, both directions. |
| `RebindingTheorems.TiedParameterStrays` | src/vllm_criu/enginecore/memory.py:193-196 | Two modules that share a parameter object: the walk over them stores into it twice, and in the state this leaves the parameter is not what the substitution says. |
| `RebindingTheorems.AliasesKept` | src/vllm_criu/enginecore/memory.py:158-176 | Tensors at one address stay at one address, tensors at two addresses get two, and no replacement is where an unmanaged tensor is. |
| `RebindingTheorems.NestingKept` | src/vllm_criu/enginecore/memory.py:183-191 | Lists and tuples keep their form however often they are visited. |
| `RebindingTheorems.NothingStaleIsReached` | src/vllm_criu/enginecore/memory.py:147-156 | After the walk no cell it reached has a non-empty CUDA tensor whose address or whose storage is an allocation from before it, even where cells were visited repeatedly. |
| `RebindingTheorems.ManagedIsReplaced` | src/vllm_criu/enginecore/memory.py:147-181 | A non-empty CUDA tensor whose address or whose storage was an allocation is gone from every cell reached; after one visit the cell has the tensor made for its address. |
| `RebindingTheorems.EverythingIsReached` | src/vllm_criu/enginecore/memory.py:183-222 | The walk reaches its roots and every cell of every list it finds, in whatever nesting of tuples. |
| `RebindingTheorems.ListsComeFirst` | src/vllm_criu/enginecore/memory.py:186-191 | A cell is stored into after the cells of the lists it holds. |
| `RebindingTheorems.FormsKeptIfAliasesAgree` | src/vllm_criu/enginecore/memory.py:168-173 | Every slot keeps shape, stride, dtype and device if and only if the slots that shared an address agreed on them. |
| `RebindingTheorems.CountersCountAddresses` | src/vllm_criu/enginecore/memory.py:174-175 | The two counters sum to the number of addresses in the memo, and the memo has as many tensors. |
| `RebindingTheorems.NothingIsReleasedTwice` | src/vllm_criu/enginecore/memory.py:41-53 | An allocation asleep when the pass began is released once, by the pass, and freeing it releases nothing; any other is released once, when it is freed. |
| `Releases.ReleasedTwice` | src/vllm_criu/enginecore/memory.py:105-109 | Over any number of passes, allocations and frees: an allocation is unmapped and released twice if and only if it sleeps and two passes begin before it is freed. |
| `Releases.HowOften` | src/vllm_criu/enginecore/memory.py:41-53 | How often in all: one that sleeps by every pass that begins before it is freed, any other once, when it is freed. |
| `Releases.AsleepUntilFreed` | src/vllm_criu/enginecore/memory.py:41-53 | In every run, what sleeps in the table is what slept at first and was not freed. |
| `Releases.TriedAgain` | src/vllm_criu/enginecore/memory.py:105-109 | Hence a local restore tried again releases a second time whatever the first one left in the table. |
| `Rebinding.Worker.Reinitialize` | src/vllm_criu/enginecore/memory.py:59-243 | From any acyclic worker: the state it leaves satisfies the invariant with the state it began with on record, and the cells stored into are those of the walk over model, draft model and runner caches, in that order. |
| `Rebinding.Worker.ReplaceNested` | src/vllm_criu/enginecore/memory.py:183-191 | Returns the substitution of its argument under the memo it leaves, stores into exactly the cells of the walk, and leaves cells above it alone. |
| `Rebinding.Worker.ReplaceTuple` | src/vllm_criu/enginecore/memory.py:189-190 | The same for tuples, whose earlier items are not disturbed by replacements made for later ones. |
| `Rebinding.Worker.ReplaceTensor` | src/vllm_criu/enginecore/memory.py:178-181 | A managed tensor becomes the one for its address, any other is returned as it is. |
| `Rebinding.Worker.Replacement` | src/vllm_criu/enginecore/memory.py:158-176 | One tensor per address. |
| `Rebinding.Worker.IsManaged` | src/vllm_criu/enginecore/memory.py:147-156 | True exactly for a non-empty CUDA tensor whose address or storage is an allocation, taking those made during the walk into account. |
| `Rebinding.Worker.VisitCell` | src/vllm_criu/enginecore/memory.py:183-199 | One more visit of a cell: what it refers to first, then the cell. |
| `Rebinding.Worker.ReplaceModel` | src/vllm_criu/enginecore/memory.py:201-211 | Parameters and buffers of all modules before any `kv_cache` attribute. |
| `Rebinding.Worker.ReplaceModule` | src/vllm_criu/enginecore/memory.py:193-199 | Parameters before buffers, counted as weights. |
| `Rebinding.Worker.ReplaceCaches` | src/vllm_criu/enginecore/memory.py:218-222 | The runner caches after both models, counted as KV cache. |
| `Rebinding.Worker.FreeCallback` | src/vllm_criu/enginecore/memory.py:41-53 | A sleeping allocation gives back no chunks and is not released again; any other is released once. |
| `Rebinding.Worker.ReleaseStale` | src/vllm_criu/enginecore/memory.py:105-113 | Exactly the sleeping allocations of the snapshot are released, once each. |
| `Rebinding.RebindKeeps` | src/vllm_criu/enginecore/memory.py:193-211 | Storing a replacement keeps the whole invariant, whatever the number of visits before. |
| `Rebinding.MemoiseKeeps` | src/vllm_criu/enginecore/memory.py:160-175 | So does a new entry of the memo. |
| `Rebinding.AllocKeeps` | src/vllm_criu/enginecore/memory.py:167-173 | So does an allocation at an address never handed out before. |
| `Rebinding.FreeKeeps` | src/vllm_criu/enginecore/memory.py:41-53 | So does freeing an allocation nothing refers to. |
| `Substitution.VisitTracks` | src/vllm_criu/enginecore/memory.py:183-191 | The first visit makes a value its substitution; every further one makes it stray. |
| `Substitution.StrayedDiffers` | src/vllm_criu/enginecore/memory.py:183-191 | A value that strayed is not its substitution. |
| `Substitution.UnmanagedStays` | src/vllm_criu/enginecore/memory.py:178-181 | A value without managed tensors is untouched by any number of visits. |
| `Substitution.Stable` | src/vllm_criu/enginecore/memory.py:158-176 | Replacements and allocations made later do not change what was replaced before. |
| `OutputLoop.OutputLoop.Serve` | src/vllm_criu/enginecore/sockets.py:187-271 | Across any number of items and rebuilds, with sends finishing at any time: a buffer with an unfinished send is never overwritten, so what arrived is what was sent; the pool, the pending sends and the buffer in hand are disjoint and duplicate-free; the pool holds at most one buffer more than there are sockets; what was sent is what the items taken call for, in order. |
| `OutputLoop.OutputLoop.EncodeInto` | src/vllm_criu/enginecore/sockets.py:266 | The buffer written to is read by no unfinished send. |
| `OutputLoop.OutputLoop.SendTracking` | src/vllm_criu/enginecore/sockets.py:267 | From then on the buffer belongs to that send until its tracker is done. |
| `OutputLoop.OutputLoop.Reclaim` | src/vllm_criu/enginecore/sockets.py:261-264 | Takes back exactly the finished sends at the old end, up to the limit of the pool, and stops at an unfinished one. |
| `OutputLoop.OutputLoop.TakeBuffer` | src/vllm_criu/enginecore/sockets.py:265 | The last of the pool, or a new buffer. |
| `OutputLoop.OutputLoop.GiveBack` | src/vllm_criu/enginecore/sockets.py:268-271 | An unfinished send becomes the newest pending one; a finished one's buffer goes to the pool if there is room. |
| `OutputLoop.OutputLoop.Transport` | src/vllm_criu/enginecore/sockets.py:256-271 | Sends finish in any order and at any time without disturbing the invariant; what has finished stays so. |
| `OutputLoop.OutputLoop.Handle` | src/vllm_criu/enginecore/sockets.py:212-271 | One item leads to exactly the packets for it: its own client socket, the coordinator, every socket for a forwarded sentinel, or nothing for a stale one; and to the loop going on, returning or crashing. |
| `OutputItems.EachClientGetsItsOwn` | src/vllm_criu/enginecore/sockets.py:247-271 | What goes out on socket `i` is the outputs for client `i`, or for the index below -1 that counts up to it from the end, each once, in the order taken. |
| `OutputItems.WhereItemsGo` | src/vllm_criu/enginecore/sockets.py:247-271 | Outputs for a client go out on the socket of that index, counted from the end if it is below -1, those for -1 to the coordinator; an index of no socket, or -1 without a coordinator, ends the loop with nothing sent. |
| `OutputItems.WhereSentinelsGo` | src/vllm_criu/enginecore/sockets.py:216-245 | A sentinel goes to every socket and ends the loop, or goes nowhere and does not, if a marker is there. |
| `OutputQueue.VerdictsAreRight` | src/vllm_criu/enginecore/sockets.py:217-245 | In every run a loop forwards a sentinel if and only if neither marker is there when it decides. |
| `OutputQueue.ForwardingEndsTheLoop` | src/vllm_criu/enginecore/sockets.py:237-245 | Forwarding one ends the loop, dropping one does not. |
| `OutputItems.DeathIsForwardedOnlyUnmarked` | src/vllm_criu/enginecore/sockets.py:216-245 | A sentinel is sent to a client if and only if one was taken while neither marker was there. |
| `OutputQueue.ExactlyOnce` | src/vllm_criu/enginecore/sockets.py:211-271 | However producers, any number of loops, drain passes and markers interleave, every item produced is on the queue, in one hand, retained by one pass, sent, lost to a broken socket, or a sentinel decided about or purged: exactly one of them, counted with multiplicity. |
| `OutputQueue.NothingIsLost` | src/vllm_criu/enginecore/sockets.py:211-271 | Nothing is lost while no socket breaks under a loop. |
| `OutputQueue.LoopsKeepOrder` | src/vllm_criu/enginecore/sockets.py:211-271 | Each loop sends what it took in the order it took it. |
| `OutputQueue.StepKeepsQueueOrder` | src/vllm_criu/enginecore/sockets.py:213 | While at most one drain pass retains anything: from a state in which outputs leave in the order they were produced, a step leads out of it if and only if it moves an output past an older, different one that the pass retains: a producer beside a pass that refills, a loop beside one that empties. |
| `OutputQueue.QueueKeepsOrder` | src/vllm_criu/enginecore/sockets.py:213 | A run in which at most one pass at a time retains anything is first in, first out throughout if and only if none of its steps overtakes in this way. |
| `OutputPasses.SecondPassCanReorder` | src/vllm_criu/enginecore/memory.py:273-296 | When a second pass comes to retain an output as well: the passes by themselves can always finish with everything in order, and they can finish out of order if and only if not all outputs they and the queue hold are equal. |
| `OutputPasses.SecondPassOfARun` | src/vllm_criu/enginecore/memory.py:273-296 | So it is at the end of every run with at most one such pass until then. |
| `OutputPasses.TwoPassesCanReorder` | src/vllm_criu/enginecore/memory.py:273-296 | A concrete run: two outputs, two passes that take one each. |
| `OutputQueue.LineComesTrue` | src/vllm_criu/enginecore/memory.py:278-290 | What the order is measured by, the queue as it will be, is what an undisturbed pass makes of it. |
| `OutputQueue.ProducerOvertakes` | src/vllm_criu/enginecore/memory.py:278-290 | A producer beside a pass that refills: the newer output gets in front. |
| `OutputQueue.LoopOvertakes` | src/vllm_criu/enginecore/memory.py:278-290 | An output loop beside a pass that empties, with nothing produced meanwhile: the newer output is sent first. |
| `OutputThreads.SocketsCarryWhatIsSent` | src/vllm_criu/enginecore/sockets.py:247-271 | Whatever the interleaving of loops, passes and producers: the client sockets of the loops at work carry, over all of them, exactly what was sent, each item once and on its client's socket. |
| `OutputThreads.EveryClientIsServed` | src/vllm_criu/enginecore/sockets.py:247-271 | Once nothing is on its way and no socket broke, each client has got exactly the outputs produced for it. |
| `OutputThreads.OutputThread.Serve` | src/vllm_criu/enginecore/sockets.py:211-271 | An output loop at work: each of its statements that touches the queue or a marker is an event of the queue's system, with any events of others in between, so the queue is where a run leads and the items its loop has served are those it took there. |
| `OutputQueue.DiscardStale` | src/vllm_criu/enginecore/memory.py:273-296 | Alone, a pass removes exactly the sentinels, keeps the order of the rest and counts what it removed. |
| `ProxyChunks.Handle` | src/vllm_criu/launcher.py:150-174 | What upstream receives for every way of cutting a stream: nothing exactly if it is below the limit and has no end of a head; the rewriting of the whole stream if the head ends within the limit; in any case the rewriting of the shortest prefix of chunks that has a head or reaches the limit, then the rest. |
| `ProxyChunks.CutsDoNotMatter` | src/vllm_criu/launcher.py:150-174 | Upstream receives the same for every cutting of a stream into chunks that one `recv` can return, if and only if its head ends within the limit or it is not longer than the limit. |
| `ProxyChunks.InTimeIsWhole` | src/vllm_criu/launcher.py:150-162 | A head that ends within the limit is rewritten as if it had been read at once. |
| `ProxyChunks.LongStreamsDisagree` | src/vllm_criu/launcher.py:151-152 | For every longer stream, two ways of cutting it into chunks of at most 65536 bytes, and two results. |
| `ProxyChunks.OneMoreByteShows` | src/vllm_criu/launcher.py:157-162 | Because rewriting a head and one byte more is never rewriting the head, and then the byte. |
| `ProxyChunks.FullRequestHasAGap` | src/vllm_criu/launcher.py:157-162 | A request line that fills the limit, line end included: a request the proxy reads whose rewritten head ends too early and changes when rewritten again. |
| `ProxyHead.JoinOfSplit` | src/vllm_criu/launcher.py:158-162 | Splitting and joining is the identity. |
| `ProxyHead.SplitOfJoin` | src/vllm_criu/launcher.py:158-162 | Joining and splitting is the identity on non-empty lists of lines without CRLF. |
| `ProxyHead.LinesEndOnce` | src/vllm_criu/launcher.py:157 | Where lines joined and ended by an empty line first have an empty line. |
| `ProxyHead.ReadingItBack` | src/vllm_criu/launcher.py:158-162 | A rewritten head read back is the lines not starting with `connection:`, in order, then the one that says close. |
| `ProxyHead.DroppedInAnyCase` | src/vllm_criu/launcher.py:158-161 | A line is dropped if and only if it begins with `connection:` in whatever case. |
| `ProxyHead.OthersAreKept` | src/vllm_criu/launcher.py:158-161 | Every other line is kept, as often as it is there. |
| `ProxyHead.BodyIsKept` | src/vllm_criu/launcher.py:157-162 | What comes behind the head is sent on as it is. |
| `ProxyHead.HeadEndsOnce` | src/vllm_criu/launcher.py:157-162 | The first empty line of a rewritten head is its end if and only if no kept line but the first is empty. |
| `ProxyHead.SeparatedHasNoGaps` | src/vllm_criu/launcher.py:157 | Which is so for every head found by its empty line. |
| `ProxyHead.RewritingTwice` | src/vllm_criu/launcher.py:157-162 | Rewriting twice equals rewriting once if and only if the kept lines have no such gap; always for a head found by its empty line. |
| `ProcessTree.Descendants` | src/vllm_criu/process_tree.py:40-48 | Terminates on every forest; no process twice, parents before children, no process before a shallower one. |
| `ProcessTree.WalkFindsDescendants` | src/vllm_criu/process_tree.py:40-48 | What it returns is exactly the proper descendants. |
| `ProcessTree.FindEngine` | src/vllm_criu/process_tree.py:51-55 | None if and only if the tree has no match; otherwise a match of minimal depth. |
| `ProcessTree.TerminateTree` | src/vllm_criu/process_tree.py:118-125 | Each process of the tree is signalled once, every child before its parent, the root last. |
| `ProcessTree.FindResourceTrackers` | src/vllm_criu/process_tree.py:58-63 | Exactly the descendants that are trackers, each once. |
| `Handshake.Client.WaitForReady` | src/vllm_criu/vllm_server.py:476-500 | Which messages are handled, the settings they lead to, the engines left, each of which had a message handled in this call, and when it times out or raises. Unless it raises, every address for statistics it was sent is the one in use. |
| `Handshake.Client.Apply` | src/vllm_criu/vllm_server.py:200-232 | Raises exactly for a payload that cannot be decoded or a different address for statistics; the settings are those of the response applied. |
| `Handshake.OneMessageEach` | src/vllm_criu/vllm_server.py:478-499 | As many messages are handled as there were distinct engines. |
| `Handshake.EveryEngineAnswered` | src/vllm_criu/vllm_server.py:490-497 | The senders of the messages handled are the engines there were if and only if nobody stood in for the last one. |
| `Handshake.DuplicateStandsIn` | src/vllm_criu/vllm_server.py:490-497 | With two engines a second READY of the first stands in for the other: a concrete sequence. |
| `Handshake.SettingsAfter` | src/vllm_criu/vllm_server.py:209-215 | `max_model_len` is the minimum of its old value and all responses, `num_gpu_blocks` the old value, or 0, plus their sum. `block_size` is the last one, `kv_cache_size_tokens` and the address for statistics the old values, or else the first offered. |
| `Guard.OneWakeAtATime` | vllm-guard.js:207-254 | Over all interleavings at `await` points at most one wake body runs, and between turns `wakePromise` is set exactly while one does. |
| `Guard.ResolvedMeansAwake` | vllm-guard.js:231-247 | In every run a wake-up resolves only on a reply that the engine is awake, or knows no sleep; by then it has made no call to it or all those for the sleep level, in order, after at most one to the launcher. |
| `Guard.WaitsForTheLauncher` | vllm-guard.js:155-190 | If the launcher was restoring when first asked, or the resume it was asked for failed, a wake-up resolves only after the launcher has said that it runs and is healthy. |
| `Guard.WhenAWakeEnds` | vllm-guard.js:155-252 | In every run, which replies end a wake-up, well or badly, and which do not: both directions. |
| `Guard.WhereAWakeGoes` | vllm-guard.js:210-247 | In every run, which `await` a wake-up that goes on reaches next, from the replies it has heard. |
| `Guard.ForwardedAfterWake` | vllm-guard.js:384-394 | A request is forwarded only after the wake-up it waited for resolved, on such a reply. |
| `Guard.ArrivalsWait` | vllm-guard.js:207-210 | In every run a request waits for the wake-up that runs, or a new one if none does; it waits for nothing if and only if the last probe answered, with no suspend since, was answered with 404. |
| `Guard.ForwardedUnwoken` | vllm-guard.js:207-210 | A request without a wake-up arrived at such a moment. |
| `Guard.ForwardedAwake` | vllm-guard.js:384-394 | In a run without a 404 every request that is forwarded has a wake-up behind it that resolved. |
| `Guard.WaitersGoOn` | vllm-guard.js:384-407 | What waits goes on when its wake-up is over: to be forwarded if that resolved, to an error if not. |
| `Guard.AnsweredLeave` | vllm-guard.js:401-407 | What was forwarded leaves once it is answered. |
| `Guard.InFlightCountsHandlers` | vllm-guard.js:381-407 | `inFlight` is the number of handlers between its increment and their `finally`. |
| `Guard.SuspendsUnderARequest` | vllm-guard.js:276-290 | For every run and every moment a test of `trySleep` passes, whatever happens until its probe is answered: the suspend is asked for with a request in flight if and only if one that arrived since the test is unfinished. |
| `Guard.ARequestCanBeUnder` | vllm-guard.js:276-290 | Which happens: one request, right after the first test. |
| `Guard.TestNeedsQuiet` | vllm-guard.js:276-280 | In every run the test passes if and only if no request is there, no wake-up runs, no attempt to sleep is under way, and the last probe was not answered with 404. |
| `Guard.WhatSleepingAsks` | vllm-guard.js:281-308 | After a probe that says awake, the launcher is asked to suspend with checkpoints and level 2, and otherwise the engine to sleep; after any other answer neither. |
| `Guard.AttemptsToSleepEnd` | vllm-guard.js:283-308 | However the suspend or the sleep request ends, the next attempt can begin. |
| `Guard.Guard.WakeBody` | vllm-guard.js:210-252 | One turn of the wake body does what the transition says. |
| `Guard.Guard.EnsureAwake` | vllm-guard.js:207-211 | Nothing to wait for, the wake-up that runs, or a new one, as in the transition that `ArrivalsWait` is about. |
| `Guard.Guard.Fetch` | vllm-guard.js:381-384 | One turn of a handler, up to its wait for the engine. |
| `Guard.Guard.Proceed` | vllm-guard.js:384-407 | The turn after that wait. |
| `Guard.ResumesIfCheckpointed` | vllm-guard.js:210-216 | In every run, a wake-up begins by asking the launcher to resume if and only if the launcher says `checkpointed`, or says nothing on the matter and the guard believes so; it has given the belief up by then and asks for nothing else first. |
| `Guard.BelievesTheLastWord` | vllm-guard.js:134-152 | In every run the guard believes in a checkpoint if and only if the last thing it heard or did on the matter says so. |
| `Guard.LauncherStateIsTheLast` | vllm-guard.js:134-190 | `launcherState` is what the launcher last said of itself. |
| `Guard.Guard.Sleep` | vllm-guard.js:277-308 | One turn of the idle loop's attempt to sleep. |
| `Guard.Guard.Loop` | vllm-guard.js:207-407 | Whatever the event loop does, in any order of turns, is a run of the transition system. |

## Left out

- CUDA, CRIU, torch, ZMQ, HTTP and vLLM internals: abstract steps that may fail.
- File operations are atomic: removing a directory or renaming it happens or does not; unlinking a marker or a status file does not fail; a status file is read whole, and writing it fails with or without leaving it empty.
- Signals: SIGKILL takes effect at once, SIGUSR1 and its closing of sockets appear only as a send that breaks (`OutputQueue.Break`).
- `Launcher.Launcher.Start`: the API proxy it starts first, its signal handlers, and the control server it runs afterwards.
- `EngineCore.EngineCore.RunLocalRestore`: its three tests are one atomic step and setting the flag is another, so two threads can both get past the tests; the redirected output streams and the fault log are one thing that may fail.
- `EngineCore.EngineCore.StartLocalRestoreThread`: says when a thread is started, not that two callers are excluded from testing at once.
- `Launcher.Launcher.WaitForLocalRestore`: time is a nondeterministic number of polls.
- `Launcher.Launcher.RestoreIfNeeded`: the EngineCore process found below the restored root is identified with the root's tree.
- The order of a suspend's commands against `terminate_resource_trackers`, and reaping of children.
- `Rebinding.Worker.Reinitialize`: every replacement is an allocation of its own at an address never handed out before (each is made in a pool of its own, `src/vllm_criu/enginecore/memory.py:137`); running out of memory, the saved buffers copied back afterwards and the KV metadata refresh are not modelled.
- `Rebinding.Worker.Collect`: garbage collection frees any subset of what nothing refers to.
- `_rebootstrap_worker_after_restore`, beyond its status texts, which all start with `stage`.
- `_input_sockets`, the watchdogs and the supervisor: they only decide when an attempt or a new generation of sockets starts, which is nondeterministic here.
- `OutputLoop.OutputLoop.Serve`: a loop's life is any finite prefix of it; whether the generation changed is nondeterministic each time round.
- `OutputQueue.DiscardStale`: the method is the pass alone on the queue; the pass beside others is `DrainGet` and `Refill` of the transition system.
- `Releases.HowOften`: the passes as wholes; what a pass frees in between is any list of frees, and nothing is put to sleep between passes.
- `Handshake.Client.WaitForReady`: the deadline is the end of the messages; `kv_cache_max_concurrency` is handled like `kv_cache_size_tokens` and not repeated.
- `ProxyChunks.Handle`: the sockets, the response direction and half-closing; a chunk may also be empty here.
- `ProcessTree.Descendants`: all children are read from one snapshot of the process table, which is a forest.
- `Guard.Guard.WakeBody`: timers are turns that repeat a poll; deadlines are failures.
- Metrics, heartbeats, blocked paths, configuration, command lines, capabilities, diagnostics, logging, graph inventories: input and output, or easy.
