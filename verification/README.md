# Verified model of the mars container runtime

`mars` is an OCI container runtime. This project models its hard cores in Dafny and proves what they
promise. The kernel appears only as explicit state: processes, a socket queue, a named pipe, a cgroup
tree, capability sets, clocks. Every fallible call may fail, and what happens outside a process is an
arbitrary sequence of events.

| file | models |
|---|---|
| `Protocol.dfy`, `ProtocolInvariant.dfy`, `ProtocolSafety.dfy`, `ProtocolProgress.dfy`, `ProtocolSuccess.dfy`, `ProtocolFailure.dfy`, `ProtocolWitness.dfy`, `ProtocolTrace.dfy`, `ProtocolStart.dfy` | `create` and `start` as an interleaved step system of runtime, intermediate, init and any number of releasers |
| `Lifecycle.dfy`, `StartTime.dfy`, `CreateOutcome.dfy` | the status that every command derives again, over commands, exits, pid reuse and renames; the `/proc` stat line; the create command as the outcome of the handshake |
| `Supervision.dfy` | the `run` supervisor: blocked signals, coalescing SIGCHLD, non-blocking reaping |
| `Calendar.dfy`, `Timestamps.dfy`, `StampReader.dfy` | seconds to civil time, creation stamps with an independent reader of them, and the listing sorted by them |
| `Paths.dfy`, `Overlay.dfy`, `OverlayMount.dfy` | path components, the overlay option printer and splitter, and mounting relative to the common parent |
| `Credentials.dfy`, `Capabilities.dfy` | the kernel's credential rules and the security phase of the init |
| `CgroupTree.dfy`, `Freezer.dfy` | controller delegation down the cgroup v2 tree; `kill --all` |
| `Telemetry.dfy` | the span recorder and the shift of child timelines |
| `MountOptions.dfy` | mount option folding and the destination inside the root filesystem |

Code that changes things step by step is a method, usually of a class that holds the state it changes,
proved against a function of the old state. The create/start protocol is a step system instead, because
what matters there is the interleaving of several processes.

Where the code does not do what its design suggests, the exact condition is proved for all inputs, and a
witness shows that it happens:

- `create` blocks for ever if and only if the intermediate is killed between forking the init and
  sending its pid, or the runtime has put the init in a cgroup that it found frozen (`DeadlockExactly`,
  `DeadlockIsReachable`, `FrozenDeadlockHappens`). When nothing fails and nobody is killed, the freezer
  alone decides (`UndisturbedCreate`).
- A `create` that returned an error still runs the user program in some continuation if and only if its
  init has reported ready and lives and its byte can still be taken; that needs a pid file that could not
  be written and an init that could not be signalled (`FailedCreateRunsExactly`, `FailedCreateThatRuns`,
  `FailedCreateRuns`).
- A `start` is stuck if and only if it waits in the open of the pipe and the init will not open its end
  any more: it closed it before, or ended without opening it (`StartIsStuckExactly`, `LateStartHappens`,
  `StartOfADyingInitHappens`).
- A container reads as created although its init has gone on, and the next `start` waits for ever, if and
  only if a start failed after it let the init go on (`CreatedIsParkedExactly`, `FailedUnlinkHappens`).
- The supervisor of `run` gives up with an error if and only if it reaps a child that was killed by a
  signal the runtime has no name for, such as a real-time signal: an adopted orphan is enough, with the
  init alive, and an init that dies so gives an error instead of 128 plus its number (`Supervise`,
  `OrphanEndsTheSupervisor`, `RealTimeDeathIsAnError`).
- A stopped container comes back to life if its pid is taken again in the very clock tick in which its
  init started (`EventsFollowTheLifecycleExactly`, `RevivalHappens`); and a container reads as stopped,
  with its init there, if and only if the init's name is not UTF-8, because the stat line is read as text
  (`ReadsAsStoppedExactly`, `UnreadableNameIsDeleted`).
- A `kill --all` that reports success can miss a child if and only if a thaw was still pending when it
  looked and somebody was there (`KillAllNeverMissesExactly`, `PendingThawMissesAChild`); and it can leave
  the freezer changed, or cancel a freeze that was asked for, if and only if a thaw or a freeze was still
  pending (`FreezerEndsAsFoundExactly`, `SuccessCancelsAPendingFreeze`).
- Creation stamps stop sorting chronologically at the year 10000 (`StampOrder`, `TheYear10000SortsEarly`).
- The order in which the capability sets are written refuses an inheritable capability that is neither
  permitted nor inheritable already, unless CAP_SETPCAP is in the new effective set, although another order
  of the same calls would establish it (`FullRootAcceptsExactly`, `ReachableYetRefused`).
- A `cgroupsPath` that names no directory gives the container the root cgroup (`RootCgroupExactly`,
  `SlashIsTheRootCgroup`).

## Model

| member | source | states |
|---|---|---|
| ProtocolInvariant.DoKeepsInv | src/container/mod.rs:261-346 | every step of every process, and every kill from outside, keeps the invariant that ties the program counters to the queues, the pipe, the files and what was done so far |
| ProtocolInvariant.RunKeepsInv | src/container/init.rs:28-69 | so does every run, of any length and interleaving |
| ProtocolSafety.MessagesToChildrenAreRouted | src/sync.rs:36-67 | although both children read one end of the socket, UserMappingDone is taken only by the intermediate, CgroupApplied only by the init, in order, and the latter names the init's own pid |
| ProtocolSafety.MessagesToTheRuntimeAreExpected | src/container/mod.rs:271-320 | what the runtime takes is the message it waits for or a report of failure |
| ProtocolSafety.NoMessageIsOutOfOrder | src/sync.rs:53-67 | the "expected …, got …" errors never occur |
| ProtocolSafety.PlacementPrecedesTheContainer | src/container/init.rs:138-153 | the init unshares its cgroup namespace, mounts and pivots, in this order, only after its pid is in the cgroup and the createRuntime hooks, the last before it, succeeded; that every single step before did is `ContainerComesAfterTheHooks` |
| ProtocolSafety.ProgramRunsOnlyWhenReleased | src/container/init.rs:280-289 | execve needs a reader of the pipe, which needs state.json, which needs InitReady, which needs a complete container; that no single step before it failed is `ProgramComesLast` |
| ProtocolSafety.StartedAtMostOnce | src/container/fifo.rs:39-86 | in every reachable state bytes read plus bytes in the pipe never exceed bytes written, at most one; however many `start` and `run` race, at most one returns success |
| ProtocolTrace.RuntimeFailureGivesUp | src/container/mod.rs:261-346 | from wherever the runtime is in the handshake, a failed step leads to the way out; only the outcome of a send is its peer's alone |
| ProtocolTrace.IntermediateFailureReports | src/container/init.rs:28-69 | so does a failed step of the intermediate lead to its report, before any init is forked or sent |
| ProtocolTrace.InitFailureReports | src/container/init.rs:138-291 | and one of the init, from its wait for the cgroup to execve, a refused security phase and a failed hook included; spared are a cgroup namespace that is not asked for, a send, the wait for a reader and the close |
| ProtocolTrace.ReportsAreSent | src/container/init.rs:20-26 | whoever reports sends Failed to a runtime that still listens, and then exits |
| ProtocolTrace.NothingIsSentToALeftRuntime | src/container/mod.rs:229-257 | once `spawn` has returned its end of the socket is closed: nothing is sent any more, and a request, pid or ready message fails |
| ProtocolTrace.CreateTookEveryStep | src/container/mod.rs:261-346 | over every run: a create that returned Ok has behind it, in program order, each step of the handshake, with success, each step of the intermediate, and those of the init up to its ready message; and the state is there |
| ProtocolTrace.ContainerComesAfterTheHooks | src/container/mod.rs:303-315 | over every run: nothing is unshared, mounted or pivoted before the runtime's steps up to CgroupApplied, every prestart and createRuntime hook among them, were taken with success |
| ProtocolTrace.ProgramComesLast | src/container/init.rs:138-291 | over every run: the program runs only after every step of the init, and every step of the runtime up to the saved state, was taken with success |
| ProtocolTrace.RuntimeFailureEndsTheRun | src/container/mod.rs:249-255 | a run in which a step of the runtime failed never returns Ok from create; before the state is saved it never runs the program either; up to the createRuntime hooks it never touches the container |
| ProtocolTrace.IntermediateFailureEndsTheRun | src/container/init.rs:20-26 | a run in which a step of the intermediate failed builds no container and never returns Ok |
| ProtocolTrace.InitFailureEndsTheRun | src/container/init.rs:61-66 | a run in which a step of the init failed never runs the program; up to the ready message it never returns Ok from create |
| ProtocolTrace.DrainWaits | src/container/mod.rs:534-553 | the teardown waits as long as it has polls left and a member of the cgroup lives |
| ProtocolTrace.CleanWayOut | src/container/mod.rs:77-83 | a way out on which nothing fails returns the error with pipe and state removed and a placed init dead |
| ProtocolTrace.PipeGoesFirst | src/container/mod.rs:250-254 | the pipe is removed before anybody is signalled |
| ProtocolStart.StarterFailureRefuses | src/container/fifo.rs:51-86 | a failed step of a start refuses it; the path check fails exactly if the pipe is gone |
| ProtocolStart.StarterWaitsExactly | src/container/fifo.rs:59-65 | where a start waits: for the other end in the open, for the byte while there is a writer, and `run` for its own create |
| ProtocolStart.LoadExactly | src/container/mod.rs:348-352 | `start` goes to the pipe exactly if the state loads and reads as created, `run` exactly after its own create returned Ok |
| ProtocolStart.StartTookEveryStep | src/container/fifo.rs:51-86 | over every run: a start that succeeded took every step of its way with success, read the one byte the init wrote after the state was saved, and the pipe is gone from then on |
| ProtocolStart.StarterFailureEndsTheStart | src/container/fifo.rs:51-86 | over every run: a start with a failed step never succeeds |
| ProtocolStart.StartSucceeds | src/container/mod.rs:348-353 | from every created container whose init is about to open the pipe and is not frozen, a start and the init alone lead to success and to the running program |
| ProtocolStart.AClosedPipeIsEmpty | src/container/fifo.rs:39-49 | in no reachable state does a pipe without an open end hold a byte, so a byte that nobody took is lost |
| ProtocolFailure.FailedCreateCleansUp | src/container/mod.rs:239-255 | after an error return pipe and state are gone unless the removal itself failed, and the init is dead or was never told to go on unless signalling failed |
| ProtocolFailure.FailedCreateRunsExactly | src/container/mod.rs:239-255 | after an error return, some continuation of starts, kills and failures runs the user program if and only if the init is past its ready message and lives, and its byte was written, has a reader, or can get one from a start that still finds pipe and state |
| ProtocolFailure.FailedCreateThatRuns | src/container/mod.rs:337-338 | a failed create whose program ran, or still can run, failed on the pid file after state.json was saved; if it has yet to run, signalling the cgroup failed; and if nobody is on the pipe, so did the removal |
| ProtocolFailure.FailedCreateNeverRuns | src/container/mod.rs:534-553 | so a failed create whose teardown could signal the members never runs the program afterwards, in any continuation |
| ProtocolWitness.FailedCreateRuns | src/container/mod.rs:77-83 | the failure is reachable: pid file, unlink, kill and removal all fail, create returns its error with the pipe never opened, and a later start runs the program |
| ProtocolFailure.StartWithoutWriterBlocksForever | src/container/fifo.rs:59-62 | a start in the open of the pipe, once the init has closed its end or has ended without opening it, waits until it is killed |
| ProtocolFailure.StartIsStuckExactly | src/container/fifo.rs:51-86 | in every reachable state a start that has not returned is stuck, with the init, if and only if no writer is to come in this sense and the init has ended or runs the program |
| ProtocolWitness.LateStartHappens | src/container/fifo.rs:39-86 | reachable with two starts: the second opens after the init closed |
| ProtocolWitness.StartOfADyingInitHappens | src/container/fifo.rs:39-86 | reachable with one start: it opens, and the init is killed before it gets to its own end |
| ProtocolProgress.EveryRunIsBounded | src/container/init.rs:20-69 | no interleaving has more than 310 steps and six for each releaser |
| ProtocolProgress.DeadlockExactly | src/container/mod.rs:271-320 | create is stuck exactly if the intermediate was killed after forking the init and before sending its pid, while the runtime waits for the pid and the init for CgroupApplied; or the runtime waits for InitReady from an init that it has put in a frozen cgroup |
| ProtocolProgress.CreateIsDeadlockFree | src/container/mod.rs:261-346 | without that kill, and in a cgroup that is not frozen, one of the three processes can always step until create returns |
| ProtocolProgress.DeadlockIsReachable | src/container/init.rs:56-58 | the deadlock happens: three actions suffice without a user namespace |
| ProtocolWitness.FrozenDeadlockHappens | src/container/mod.rs:299-317 | the second deadlock happens, with nobody failing or killed, in every frozen cgroup that is already there |
| ProtocolProgress.DeadlockIsPermanent | src/container/init.rs:138-145 | over every continuation, only killing the runtime or the init ends either deadlock |
| ProtocolProgress.FrozenCreateNeverSucceeds | src/container/mod.rs:299-338 | in a frozen cgroup no interleaving ever saves a state, starts or runs anything |
| ProtocolSuccess.UndisturbedCreate | src/container/mod.rs:261-346 | if nothing fails and nobody is killed, every interleaving ends with create returning success, or every one ends with the runtime waiting for a frozen init; the freezer alone decides |
| ProtocolSuccess.UndisturbedRunExists | src/container/mod.rs:261-346 | there is such a run, from every state that satisfies the invariant |
| Lifecycle.EventsFollowTheLifecycleExactly | src/state.rs:117-139 | every command and outside event, with every failure of freezer, fifo and removal, moves the derived status along the OCI lifecycle, exactly if it is not one of two revivals of a stopped container |
| Lifecycle.CommandsAreRefusedExactly | src/container/mod.rs:348-508 | each command is refused exactly in the statuses that do not admit it, and a refusal changes nothing |
| Lifecycle.GoesAwayExactly | src/container/mod.rs:404-495 | a container goes away exactly by a delete that finds it stopped, or a forced one whose thaw succeeds, or the end of its `run`, if the removal gets as far as its state |
| Lifecycle.CommandsKillExactly | src/container/mod.rs:457-478 | exactly a forced delete of a container that is not stopped, once it is thawed, ends the init if SIGKILL does; every other command, refused deletes and deletes of stopped containers among them, leaves what has the pid alone, and so does a forced one if that is no process of the container |
| Lifecycle.OutsideEndsExactly | src/state.rs:117-122 | outside the runtime only its exit ends an init, and a pid is taken again only after it was reaped, by no init of the container |
| Lifecycle.ForcedDeleteLeavesNobody | src/container/mod.rs:443-495 | over every run after such a delete, until the next create, no init of the container lives; and if the removal succeeded there is no container, no fifo and, with its cgroup, no freezer left |
| Lifecycle.OutcomesWithoutAContainer | src/container/mod.rs:443-455 | without a container every command is NotFound and changes nothing, except a create and a forced delete; a create hangs exactly in a cgroup left frozen, else its container is created, its init parked, and the start time recorded that of its init |
| Lifecycle.FinishOutcomes | src/container/mod.rs:396-410 | the end of `run` returns whatever fails in it, keeps the state exactly if asked to or if it cannot be removed, and takes the freezer with the cgroup |
| Lifecycle.FreezerOutcomes | src/container/mod.rs:497-508 | a pause or resume that succeeds leads to the status it names; one that fails leaves the status as it is, and its request behind exactly if it timed out |
| Lifecycle.KillAllOutcomes | src/container/mod.rs:413-441 | `kill --all` fails on the freezer exactly if it had to freeze and one of the two requests failed, and leaves the container paused exactly if it could freeze and not thaw; else the status is as before |
| Lifecycle.StartOutcomes | src/container/mod.rs:348-361 | a start succeeds exactly if its init is parked and read and unlink do, and then the status is running; a failed read or unlink leaves it created with the init gone on |
| Lifecycle.DeleteOutcomes | src/container/mod.rs:443-495 | an admitted delete fails exactly on a thaw that is needed and fails, or on a removal that is not complete; success leaves neither state nor fifo |
| Lifecycle.TimedOutRequestTakesEffect | src/cgroup/v2.rs:105-119 | a request that timed out still takes effect when the freezer gets there |
| Lifecycle.RunningNeverBecomesCreated | src/state.rs:134-138 | no run without a removal leads from running back to created |
| Lifecycle.AtMostOneStart | src/container/mod.rs:348-361 | between a create and its removal at most one start succeeds |
| Lifecycle.CreatedIsParkedExactly | src/container/fifo.rs:51-86 | over every run since the create: while the status is created, the init still waits at the fifo exactly if no start failed after letting it go on; and exactly then, if the init lives, a start succeeds and does not wait for ever |
| Lifecycle.FailedUnlinkHappens | src/container/fifo.rs:82-85 | a failed unlink leaves the status at created with the init gone on, and the next start waits for ever |
| Lifecycle.StoppedIsAbsorbing | src/state.rs:117-127 | a stopped container stays stopped over every run without removal once the clock has left the init's start tick and names are readable, whatever takes over its pid |
| Lifecycle.RevivalHappens | src/state.rs:117-122 | a run from before the create to a stopped container and, within the same tick, back to created |
| Lifecycle.ReadsAsStoppedExactly | src/state.rs:217-222 | over every run since before the create: while the recorded pid belongs to the container's own init, it reads as stopped if and only if the init's name is not UTF-8 |
| Lifecycle.UnreadableNameIsDeleted | src/container/mod.rs:443-465 | a run from before the create to a container that is deleted without force, with its init alive |
| CreateOutcome.CreateIsTheHandshake | src/container/mod.rs:53-84 | the create command of the lifecycle is done, or hangs, exactly as every undisturbed handshake in that cgroup returns success, or gets stuck |
| CreateOutcome.FrozenLeftoverBlocksCreate | src/cgroup/v2.rs:63-67 | after a delete that leaves part of the cgroup frozen, and whatever happens outside, the next handshake gets stuck, because the directory is used as it is |
| Lifecycle.ResumeRestoresTheStatus | src/container/mod.rs:497-508 | pause, anything but resume and delete, resume: the status is again what it was, exactly if the init is still there, else stopped |
| Lifecycle.ObservedStartIsParsed | src/state.rs:217-227 | the start time the lifecycle compares is what the parser reads from any stat line of the process |
| Lifecycle.Host.StartContainer | src/container/mod.rs:348-361 | the new state and outcome are those of the start event, also when the read or the unlink of the fifo fails after the init went on, and when there is nobody to open it |
| Lifecycle.Host.PauseContainer | src/container/mod.rs:497-508 | the new state and outcome are those of pause or resume, with a freezer that may refuse the write, or time out and leave the request written |
| Lifecycle.Host.KillEverything | src/container/mod.rs:413-441 | what `kill --all` does to freezer and status on every path, errors of listing and signalling included |
| Lifecycle.Host.DeleteContainer | src/container/mod.rs:443-495 | what delete, forced or not, does on every path, a removal that leaves state or fifo behind included; and exactly when it ends the init |
| StartTime.StartTimeIsField22 | src/state.rs:224-227 | for every command name, with spaces and parentheses of its own, the parser reads field 22 of the line |
| StartTime.StartTimeComesBack | src/state.rs:224-227 | a 64-bit start tick printed in the line is parsed back |
| StartTime.ParseOfDecimal | src/state.rs:226 | a decimal number parses back exactly if it fits into 64 bits, with or without a plus sign |
| StartTime.SignsAreNoNumbers | src/state.rs:226 | a negative number, a sign alone and nothing are refused |
| StartTime.KernelFieldIsValid | src/state.rs:224-227 | every field of letters, digits and minus signs is one that these results cover |
| Supervision.BlockForwardable | src/container/signal.rs:17-27 | exactly the seven forwarded signals and SIGCHLD become blocked |
| Supervision.HappenAllKeepsSound | src/container/signal.rs:50-72 | with SIGCHLD blocked, arrivals, deaths and adoptions in any order leave no unreaped death without a pending SIGCHLD and lose no signal |
| Supervision.UnblockedDeathIsLost | src/container/mod.rs:372-374 | without blocking before the fork, a death leaves nothing pending |
| Supervision.BlockedArrivalIsPending | src/container/signal.rs:17-27 | a signal that arrives while blocked is pending from then on, whatever else happens, until it is taken |
| Supervision.Drain | src/container/signal.rs:59-70 | ends with no zombie left; or with the init reaped and its exit code modulo 256, or 128 plus the signal that killed it; or with an error exactly if it reaped a child killed by a signal above 31; every zombie it found is still there or was reaped |
| Supervision.Supervise | src/container/signal.rs:50-72 | ends with an error if and only if it reaps some child killed by a signal above 31; otherwise returns the init's exit code modulo 256, or 128 plus the signal that killed it, and blocks for ever only on a live init with nobody left to reap; forwards what it took exactly once each and in order, losing nothing that arrived |
| Supervision.OrphanEndsTheSupervisor | src/container/signal.rs:68 | an orphan that dies of a real-time signal ends the supervisor with an error while the init lives |
| Supervision.RealTimeDeathIsAnError | src/container/signal.rs:62-64 | an init that dies of a real-time signal gives an error instead of 128 plus its number |
| Supervision.RunAndSupervise | src/container/mod.rs:363-394 | blocking before the fork is enough for all of this, the exit code included, whatever happens before the first wait |
| Calendar.DateFromDaysIsExact | src/state.rs:247-255 | the era arithmetic yields a valid Gregorian date with the right day number, for every integer |
| Calendar.YearOfEraIsExact | src/state.rs:250 | the division chain finds the year of the era, the last day of a leap year included |
| Calendar.CivilFromUnixIsExact | src/state.rs:243-265 | every second gives a valid date and time, and counting days and seconds independently gives the second back |
| Calendar.CivilFromUnixInverts | src/state.rs:243-265 | and conversely, from every valid civil time |
| Calendar.OneDayLaterIsTheNextDate | src/state.rs:243-265 | one more day is the next calendar date at the same time of day |
| Timestamps.StampOrder | src/state.rs:229-241 | the exact condition under which two stamps sort like their instants, for all years; what a stamp says is `StampComesBack` |
| Timestamps.StampsSortChronologically | src/state.rs:229-241 | up to the year 9999, byte order of stamps is the order of seconds and nanoseconds, both ways |
| Timestamps.TheYear10000SortsEarly | src/state.rs:237-240 | the first second of the year 10000 sorts before the last of 9999 |
| StampReader.StampComesBack | src/state.rs:229-241 | a reader of RFC 3339 text with its own positions and separators gets from every stamp the civil date and time of its second, and its nanoseconds; the stamp has 30 characters exactly up to the year 9999 |
| StampReader.StampDenotesItsInstant | src/state.rs:229-265 | so every stamp names a valid date and time that counts back to its second, and no two instants share a stamp |
| Timestamps.List | src/state.rs:191-215 | the listing is a permutation of the containers that load, sorted by stamp, equal stamps in directory order; it fails exactly on an unreadable entry |
| Timestamps.LoadedExactly | src/state.rs:198-210 | what is listed is the container of every entry that is named in UTF-8 and loads, once an entry, and nothing else |
| Timestamps.ListingIsInCreationOrder | src/state.rs:191-215 | such a listing is in creation order up to the year 9999 |
| Overlay.LowerRoundTripExactly | src/rootfs/overlay.rs:74-106 | splitting the printed list gives the list back exactly if no path is empty |
| Overlay.SplitIsStable | src/rootfs/overlay.rs:74-106 | printing what was split and splitting again changes nothing, for every input text |
| Overlay.FieldsComeBack | src/rootfs/overlay.rs:108-125 | the whole string splits at commas into lowerdir=, upperdir= and workdir=, in this order, each with its escaped paths and the latter two only if given |
| Overlay.DecodeInvertsPrint | src/rootfs/overlay.rs:108-125 | a reader with overlayfs's own keys gets back all layers from the whole string, upper and work each as itself, without empty lower ones |
| Overlay.PrintIsInjective | src/rootfs/overlay.rs:108-125 | different layers print differently |
| Overlay.SplitLowerdir | src/rootfs/overlay.rs:74-93 | the loop computes the split, escapes and a trailing backslash included |
| Overlay.Options | src/rootfs/overlay.rs:95-125 | prints the layers without a comma so that this reader gets them back, else refuses |
| Paths.StripThenJoin | src/rootfs/overlay.rs:254-259 | stripping a base and joining it again gives the same components; the rest is empty only if the base was the whole path |
| Paths.ComponentsOfRender | src/rootfs/overlay.rs:244 | collecting components into a path and reading it again gives the components |
| Paths.RelativeComesBack | src/rootfs/overlay.rs:254-259 | so does a relative path, of which a leading "." counts and no other |
| Paths.ParentOfRender | src/rootfs/overlay.rs:232-235 | the parent of a path is all but its last name, and only the root has none |
| Paths.TrimRightEndsClean | src/rootfs/overlay.rs:254-259 | what is left of a stripped path ends in neither a separator nor a "." segment |
| OverlayMount.CommonParentIsGreatest | src/rootfs/overlay.rs:227-251 | there is a common parent exactly if all layers are absolute and below the root; it is above every layer, and below every other directory that is |
| OverlayMount.CommonParent | src/rootfs/overlay.rs:227-251 | the truncating loop computes it |
| OverlayMount.RelativeToShortens | src/rootfs/overlay.rs:253-276 | stripping a directory above all layers always succeeds, and every rest rejoins to its layer, is shorter and has no new comma |
| OverlayMount.RelativeIsShorter | src/rootfs/overlay.rs:253-276 | the relative option string is strictly shorter than the absolute one, in bytes |
| OverlayMount.CharBytesIsLeast | src/rootfs/overlay.rs:278-296 | lengths are counted in bytes of UTF-8, where a character takes the fewest that hold it |
| OverlayMount.StripExactly | src/rootfs/overlay.rs:254-259 | a layer has a relative name exactly if it lies strictly below the base |
| OverlayMount.RelativeMeansTheSame | src/rootfs/overlay.rs:278-296 | seen from the common parent the relative layers are the layers asked for, in order |
| OverlayMount.MountAt | src/rootfs/overlay.rs:278-330 | whatever string reaches mount is at most 4096 bytes and, decoded in the working directory of that moment, names exactly the layers asked for; when it fails and why; the working directory afterwards |
| Credentials.ExecKeepsSound | src/container/capabilities.rs:37-92 | any sequence of granted calls keeps effective within permitted and ambient within permitted and inheritable, and only shrinks permitted and bounding |
| Credentials.ThreadIsAlwaysSound | src/container/init.rs:254-268 | this holds at every moment between the calls, from each to each later one |
| Capabilities.DropBounding | src/container/capabilities.rs:37-52 | ends with the intersection of the bounding sets, in any order of drops; refused exactly if something is to be dropped without CAP_SETPCAP |
| Capabilities.DropPrivileges | src/container/process.rs:44-78 | succeeds exactly with CAP_SETGID and a permitted user change, and ends in the credentials of the user change |
| Capabilities.DroppedKeepsPermitted | src/container/process.rs:44-78 | from root, keepcaps carries permitted and inheritable across the change of user and is off afterwards; effective and ambient are emptied on leaving root; all three user ids are the new one with CAP_SETUID, without which the user must be one it already is |
| Capabilities.DroppedFromUser | src/container/process.rs:44-78 | not from root: permitted is kept unless the last root id goes without keepcaps, and is effective if root is regained |
| Capabilities.Apply | src/container/capabilities.rs:54-87 | accepts exactly the reachable sets that its order allows, in any order of the ambient set, and then all four sets equal the specification |
| Capabilities.CallsStayReachable | src/container/capabilities.rs:54-87 | no order of capset and ambient calls reaches more than the stated sets |
| Capabilities.ReachableIsReached | src/container/capabilities.rs:67-69 | and every one of them is reached by some order |
| Capabilities.ReachableYetRefused | src/container/capabilities.rs:67-69 | a specification that another order establishes is refused |
| Capabilities.SecurityPhase | src/container/init.rs:235-278 | the whole phase, with the seccomp filter first or last: when it is refused, and the final credentials |
| Capabilities.ProcessResultMatches | src/container/init.rs:254-268 | a phase that is not refused ends with the ids and all five sets of the plan |
| Capabilities.FullRootAcceptsExactly | src/container/init.rs:235-278 | started as full root, exactly which plans pass |
| CgroupTree.Hierarchy.Delegate | src/cgroup/v2.rs:240-263 | enables what is wanted and available; fails exactly if the offers cannot be read, or something is not known to be enabled and the write is refused |
| CgroupTree.Hierarchy.Create | src/cgroup/v2.rs:47-78 | on success the leaf offers every wanted controller of the root and its own subtree control is untouched; on success or failure nothing is disabled anywhere, nothing unwanted enabled, and nothing off the path touched |
| CgroupTree.StepOnTheWay | src/cgroup/v2.rs:55-72 | the induction over the depth of the path |
| CgroupTree.RootCgroupExactly | src/cgroup/v2.rs:27-45 | the container gets the root cgroup exactly if its cgroupsPath is given and names no directory |
| CgroupTree.SlashIsTheRootCgroup | src/cgroup/v2.rs:27-45 | as "/" and "/.." do |
| CgroupTree.NamesLeadToTheirCgroup | src/cgroup/v2.rs:27-45 | an absolute path leads to the cgroup of its names, in order; without one, or with an empty one, it is the id below `mars` |
| CgroupTree.OnlyNamesCount | src/cgroup/v2.rs:34-45 | of any path exactly its names are kept |
| Freezer.KillAllNeverMissesExactly | src/container/mod.rs:413-441 | a `kill --all` that reports success has signalled everyone in the cgroup at the last moment before the thaw, for every schedule of forks, exits and freezer delays and every order of the listing, if and only if no thaw was pending at its first look or nobody was there |
| Freezer.PendingThawMissesAChild | src/container/mod.rs:419-431 | otherwise a thaw and a fork after the listing make it report success with the child not signalled |
| Freezer.FreezerEndsAsFoundExactly | src/container/mod.rs:419-441 | unless the freezer itself fails it ends as it was found, report and request, also when signalling failed, for every schedule exactly if neither a thaw nor a freeze was pending |
| Freezer.SuccessCancelsAPendingFreeze | src/container/mod.rs:419-441 | otherwise a full success can cancel a pause that was on its way |
| Freezer.Cgroup.Freeze | src/cgroup/v2.rs:105-119 | writes the request, and succeeds exactly if one of the next 500 looks finds it reached; leaves the request written if it is not |
| Freezer.PolledExactly | src/cgroup/v2.rs:108-113 | polling succeeds exactly if one of the looks finds what was asked for |
| Freezer.SignallingExactly | src/container/mod.rs:427-432 | the signalling stops at the first listed process that is gone when its turn comes, and gets through exactly if none is |
| Freezer.Cgroup.KillAll | src/container/mod.rs:413-441 | the command does exactly what the function of world and schedule says that these results are about: outcome, cgroup, and which of the listed processes were signalled, in order |
| Telemetry.Recorder.Begin | src/telemetry.rs:45-48 | ends the open phase, from its own start, at one reading, and starts the next at a later one, both in whole microseconds |
| Telemetry.Recorder.End | src/telemetry.rs:50-59 | adds the open phase with its own name and start and the reading as its end, and keeps the recorder's own phases ordered and disjoint |
| Telemetry.Recorder.Absorb | src/telemetry.rs:61-69 | adds exactly the phases of a child, each renamed with the prefix and shifted by the offset |
| Telemetry.Recorder.Export | src/telemetry.rs:96-145 | nothing without a phase; else every phase in nanoseconds of the wall clock, under a root that begins with the recorder, covers every span and ends with the latest |
| Telemetry.InitSpansLieInside | src/container/mod.rs:313-341 | with the init's clock started after its release and every clock rounded down, each of its spans lies inside the parent's "init" phase |
| Telemetry.IntermediateSpansEndInTime | src/container/mod.rs:226-292 | each span of the intermediate starts no earlier than the fork and ends no later than the parent's clock when it is absorbed |
| Telemetry.ShiftIsAccurate | src/telemetry.rs:61-73 | a shifted time is never late, and early by at most the child's start-up delay and two microseconds |
| Telemetry.ShiftKeepsOrder | src/telemetry.rs:61-69 | the order of a child's phases survives the shift |
| MountOptions.ParseOptions | src/rootfs/mounts.rs:15-62 | a flag is set exactly if the last word on it sets it; the data string is the unknown words joined in order |
| MountOptions.OnWordsExactly | src/rootfs/mounts.rs:20-53 | exactly the words of a second table, by flag, turn each flag on |
| MountOptions.OffWordsExactly | src/rootfs/mounts.rs:20-53 | and exactly those of a third turn it off |
| MountOptions.FlagIsSetExactly | src/rootfs/mounts.rs:15-62 | a flag is set exactly if some word turns it on and no later one turns it off |
| MountOptions.DataWordsExactly | src/rootfs/mounts.rs:54 | the data words are exactly those that neither table nor "defaults" knows, in order |
| MountOptions.FlagsOfConcat | src/rootfs/mounts.rs:15-62 | flags of one list behind another: the first without what the second clears and with what it sets |
| MountOptions.RecIsNeverCleared | src/rootfs/mounts.rs:44-53 | recursion is set exactly if some word sets it |
| MountOptions.DataComesBack | src/rootfs/mounts.rs:54-60 | the data string splits back into the unknown words |
| MountOptions.Resolve | src/rootfs/mounts.rs:64-80 | the destination is the root filesystem followed by names only, however many ".." it has |
| MountOptions.DestinationRules | src/rootfs/mounts.rs:64-80 | anywhere in the destination a name followed by ".." cancels, ".." at the root and "." do nothing, and names alone stay as they are |

## Left out

- Protocol.Do: the freezer of the cgroup stays as it was found while create runs, as nobody thaws it, and a frozen init can only be killed; a send to an open peer succeeds, a receive fails only when it does not block and has then consumed its message, and a SIGKILL to the members of the cgroup takes effect at once; hooks, mounts and the security phase are single steps that succeed or fail.
- ProtocolProgress.CreateIsDeadlockFree: hooks that hang are cut off by their own timeout and count as steps that end.
- Lifecycle.Host.StartContainer: one command runs at a time, on one cgroup per container; what concurrent starts do is in `Protocol.dfy`. That `start` waits for an init that is not there is an outcome.
- Lifecycle.Host.KillEverything: the signals themselves arrive as exits; who is signalled is in `Freezer.dfy`.
- Supervision.Supervise: what happens outside is a finite schedule of any length, after which nothing happens; an endless stream of signals is not modelled.
- Freezer.KillAllNeverMissesExactly: only processes directly in the cgroup. `cgroup.procs` does not list those in child cgroups, although the freeze covers them, so a container that can write to its cgroup mount and moves a process into a child cgroup has it missed with no thaw pending.
- Lifecycle.KillAllOutcomes: `kill` without `--all` only sends one signal to the recorded pid and changes nothing; its effect is an exit outside.
- Freezer.Cgroup.KillAll: a process that `exec` places in the cgroup meanwhile, a pid taken again between listing and signalling, and another command that writes the freezer.
- OverlayMount.MountAt: paths are UTF-8 text without symbolic links; what the kernel reads is modelled by its documented escapes.
- Capabilities.SecurityPhase: libseccomp, securebits other than keepcaps, saved and real group ids, file capabilities at execve, and a user namespace that denies setgroups.
- Telemetry.Recorder.End: microseconds are unbounded where the source truncates to 64 bits, half a million years after the origin.
- Calendar.CivilFromUnixIsExact: integers are unbounded; the source's 64-bit intermediates stay within 719468 days of the input.
- Timestamps.ListingIsInCreationOrder: a wall clock before 1970 reads as 1970, and one that is set back gives stamps that are set back.
- Symbolic links, JSON, command-line parsing, logging, the OTLP request, libseccomp, terminals and the syscalls themselves are effects outside the model.
- `exec` is a smaller variant of the same placement gate.
- Two `create` commands for one id at a time: the existence check is not atomic, and nothing is claimed.
- The v1 to v2 value conversions of cgroup limits, bundle validation, namespace parsing, sysctls and the overlay checks before mounting: single branches that would only add easy members.
- The best-effort parts of `teardown` and `destroy`, beyond what a failed create leaves behind.
