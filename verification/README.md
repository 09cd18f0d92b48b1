# liveshd: a verified model of the shell daemon's protocols

`liveshd` keeps shells alive behind a Unix socket: clients attach to a shell, get a
snapshot of its screen, then its output, and may be displaced by another client at any
moment. This project models the parts of it where many threads, many chunks or many
processes meet, and proves what they guarantee in every interleaving.

| file | subject |
|---|---|
| `Bytes.dfy`, `Ascii.dfy` | byte strings, suffixes, `split`, number parsing |
| `Limits.dfy` | `BoundedBytes` and `EventRing`, the two bounded replay caches |
| `ReplayUpgrade.dfy` | persisting both caches, adopting them, any number of hot upgrades |
| `ResetDetector.dfy` | finding keyboard-mode resets in output that is cut into chunks anywhere |
| `CsiU.dfy`, `BridgeFilter.dfy`, `BridgeRuns.dfy` | the key-release filter of the bridge: one report, one call, whole runs |
| `Splicing.dfy` | when the filtered output itself holds a release report |
| `ShellProtocol.dfy`, `ShellInvariant.dfy`, `ShellTheorems.dfy`, `ShellEnding.dfy` | one shell as a step machine, its invariant, what clients may rely on |
| `ShellHistory.dfy` | what the fields of a shell are in terms of the steps that led there; who can go on from any state |
| `ShellState.dfy` | the class `ShellState`, each method tied to the actions it consists of |
| `Registry.dfy`, `RegistryRuns.dfy`, `RegistryWitness.dfy` | all shells and all connection threads together, and what a run of them is for one shell |
| `LockOrder.dfy` | every daemon operation as a script of lock steps; which mixes can deadlock |
| `DaemonSpawn.dfy` | clients and starting daemons around the lock file and the socket path |
| `Framing.dfy` | the length-prefixed wire format over concatenated streams |

## How it is modelled

- **Concurrency.** No lock of the daemon covers a whole operation, so one action of a step
  machine is one lock section or one channel send, and actions of all threads interleave
  freely. A "run" is any finite list of enabled steps. A shell has exactly one reader, so at
  most one chunk is in flight. Any number of threads may call `cleanup_shell` on a shell,
  each with its own progress: the child waiter, `kill`, the idle sweep and the dead sweep.
  Each attach id has a log of every message sent to it; a send on a closed channel is lost.
- **Terminal.** The screen is the list of chunks the terminal had processed. Nothing is
  claimed about how that list is rendered.
- **Ids.** A fresh UUID is any number not drawn before. Output replayed by `attach` and
  output sent by the reader are the same wire message, kept apart in the model as `Replayed`
  and `Output`.
- **Time** is a number of nanoseconds handed to each call of the filter.
- **Objects that are updated in place** (`BoundedBytes`, `EventRing`, `BridgeInputFilter`,
  `ShellState`, the frame reader and writer) are classes. Their methods are proved equal to
  functions on values, and the theorems about runs are about those functions.
- **Serialisation** is a pair of functions given as parameters.

## Results that differ from what one might expect

The code is modelled as it is. Where a plausible property fails there is a run that shows it,
and the exact statement beside it.

- **`list` and `attach` can deadlock.** `info` (src/daemon.rs:1304-1315) asks for `attach` while
  it still holds `name`, `status` and `cwd`; `attach` (src/daemon.rs:1160-1201) asks for those while
  it holds `attach`. `LockOrder.DeadlockExactly`: a mix of operations can deadlock if and only if
  some `list` in it names a shell that an `attach` in it opens.
- **An attach after the cleanup is never told that the shell exited.** `open_shell` looks up and
  attaches in two steps (src/daemon.rs:674-680). The line is drawn when the cleanup takes the
  `attach` field: clients present then are ended (`ShellEnding.PresentAtExitIsEnded`), later ones
  never hear of it (`ShellEnding.LateAttachIsNeverTold`), though their Snapshot says Exited.
- **Such a client is not found by the exit loop.** The loop (src/daemon.rs:258-260) scans only shells
  in the map; `RegistryWitness.UnregisteredShellKeepsClient` leaves a dead connection attached.
  `RegistryRuns.GoneConnectionsHoldOnlyLateAttaches` says in full what can be left: nothing in the
  map, an attach that a cleanup in progress is about to take, or one drawn after the take.
- **A sweep for idle shells can end a client's shell.** It looks first and cleans up later
  (src/daemon.rs:752-776); an attach in between is ended (`ShellHistory.IdleSweepCanEndClient`).
  Without such an attach it finds nobody to end (`ShellHistory.IdleSweepTakesNobody`).
- **`kill` can return before the shell is cleaned up.** A second caller of `cleanup_shell` finds nothing
  in the map and returns (src/daemon.rs:815-823), see `ShellTheorems.SecondCleanupReturnsEarly`.
  `ShellTheorems.ReturnedExactly`: after a return the shell is cleaned up if and only if the caller
  was the one that found it in the map, or that one has returned as well.
- **One chunk can reach a client three times**: on its screen, replayed, and sent
  (`ShellTheorems.OneChunkThreeTimes`). `ShellTheorems.BoundedDuplication` is the upper bound, and
  `ShellTheorems.ReplayExactly` says when anything is replayed at all, and what.
- **The double check under the spawn lock never succeeds.** A serving daemon holds the same lock
  file for its whole life, so a client that reaches `flock` (src/daemon_spawn.rs:34) while a daemon
  serves does not get to ping again: it waits until that daemon stops
  (`DaemonSpawn.SecondPingFails`, `DaemonSpawn.WaiterWaits`, `DaemonSpawn.ClientCanWaitForServer`).
  A client whose protocol version differs from the serving daemon's always takes this path.
- **A spawned daemon can exit with "another liveshd is already running" when none is**: a client holds
  the lock for a moment (`DaemonSpawn.SpawnedDaemonCanBeTurnedAway`). In every reachable state it is
  turned away if and only if some process is in its locked section
  (`DaemonSpawn.TurnedAwayExactly`); without another daemon, if and only if some client is
  (`DaemonSpawn.OnlyDaemonTurnedAwayExactly`).
- **Filtered input can contain a release report.** Dropping one report can splice its neighbours into
  a new one (`BridgeRuns.DroppingCanSplice`). `Splicing.SplicedExactly`: it happens if and only if an
  unfinished report of the input, interrupted by whole release reports only, goes on to be a release
  report; and only then would filtering the output again drop anything (`Splicing.SecondPassExactly`).
  So it needs a release directly behind the beginning of another (`Splicing.CleanWithoutSplice`),
  and at each such place it does happen for some continuation (`Splicing.SpliceShows`). Which
  unfinished reports count as such a beginning is decided by a test on their text
  (`Splicing.MayBecomeReleaseExactly`).
- **A hot upgrade can shorten the event ring later on**, because the adopted ring is one large event
  (`ReplayUpgrade.UpgradeCanShortenRing`). `ReplayUpgrade.UpgradeShortensExactly` gives the exact
  condition; what is left is always an end of the ring without upgrades.

## Model

| member | source | states |
|---|---|---|
| Limits.BoundedBytes.constructor | src/limits.rs:33-38 | a new buffer is empty and keeps its cap |
| Limits.BoundedBytes.Append | src/limits.rs:40-58 | in all four branches the buffer becomes the last `max_bytes` bytes of its old contents followed by the chunk |
| Limits.BoundedBytes.Clear | src/limits.rs:72-74 | the buffer is empty |
| Limits.EventRing.constructor | src/limits.rs:85-91 | a new ring is empty and keeps its cap |
| Limits.EventRing.Append | src/limits.rs:93-108 | the ring becomes the pruned old ring with the tail-truncated event behind it, and its counter equals the bytes held |
| Limits.EventRing.Prune | src/limits.rs:135-143 | the loop restores the cap by dropping oldest events only; its `None` branch is unreachable and its subtraction never saturates |
| Limits.EventRing.Bytes | src/limits.rs:118-124 | the events' bytes in order |
| Limits.EventRing.Clear | src/limits.rs:130-133 | the ring is empty and its counter zero |
| Limits.KeepIsLongestFitting | src/limits.rs:135-143 | pruning leaves the longest suffix of the events that fits the cap |
| Limits.LongestFittingUnique | src/limits.rs:135-143 | there is only one such suffix |
| Limits.LastEventSurvives | src/limits.rs:93-108 | with a positive cap the newest event is always kept, cut at its front to the cap |
| Limits.ScrollIsTailOfStream | src/limits.rs:40-58 | after any appends the scrollback is the last `max` bytes of everything appended |
| Limits.RingIsLongestFittingSuffix | src/limits.rs:93-143 | after any appends the ring is the longest fitting suffix of all truncated events ever appended |
| Limits.RingBytesAreStreamSuffix | src/limits.rs:93-124 | the ring's bytes are one contiguous end of the stream, even across truncated events |
| Limits.RingWithinScrollback | src/daemon.rs:1250-1252 | when the ring's cap is not larger, the ring's bytes are an end of the scrollback |
| Limits.AfterIsSuffix | src/limits.rs:110-116 | of a ring with rising seqs, `after(seq)` is the suffix of exactly the later events |
| Limits.AppendKeepsIncreasing | src/limits.rs:93-108 | a ring with rising seqs stays so when a higher seq is appended |
| ReplayUpgrade.Adopt | src/daemon.rs:1124-1131 | the adopted caches are the files' bytes cut to the caps, the ring as one event numbered 0; a file that cannot be read leaves its cache empty |
| ReplayUpgrade.RunFollowsStream | src/daemon.rs:1247-1252 | through outputs and upgrades in any order the scrollback is the last bytes of the stream and the ring an end of it within its cap |
| ReplayUpgrade.RunNumbersEvents | src/daemon.rs:1124-1131 | events are numbered by the outputs since the last upgrade, rising, the adopted one 0 and the last one the current number |
| ReplayUpgrade.CoalescedRing | src/daemon.rs:1128-1131 | persisting and adopting a ring keeps its bytes and their number |
| ReplayUpgrade.UpgradesOnlyCoarsen | src/daemon.rs:1124-1131 | every place where the upgraded ring can be cut is one where the ring without upgrades can be cut |
| ReplayUpgrade.HotUpgradeRefinement | src/daemon.rs:851-856 | any run with any number of upgrades has the scrollback of the run without them, and ring bytes that are a suffix of that run's |
| ReplayUpgrade.UpgradeCanShortenRing | src/daemon.rs:1128-1131 | a run in which that suffix is proper |
| ReplayUpgrade.UpgradeShortensExactly | src/daemon.rs:1128-1131 | after an upgrade and any outputs the ring differs from the one without that upgrade exactly when the old ring as a whole no longer fits beside them while a part at its end would |
| ResetDetector.OutputResets | src/bridge.rs:470-495 | true exactly if a whole pop or direct reset sequence lies somewhere in the bytes |
| ResetDetector.DirectResetMeaning | src/bridge.rs:517-536 | what follows `ESC [ =` passes the test exactly if a direct reset sequence starts there |
| Ascii.ParseExactly | src/bridge.rs:541-546 | a field has a value exactly if it writes a number below 2^32 in decimal, leading zeros allowed, and then that number |
| ResetDetector.PopExactly | src/bridge.rs:474-482 | `ESC [ <` up to `u` is a reset exactly with digits, or nothing, in between |
| ResetDetector.DirectWithoutMode | src/bridge.rs:527-535 | with flags alone, unreadable ones counting as 0, it is a reset exactly if bits 1 and 3 are clear |
| ResetDetector.DirectWithMode | src/bridge.rs:527-535 | with a mode, an unreadable one counting as 1, it is a reset exactly for mode 1 with both bits clear and mode 3 with one of them set; further fields are ignored |
| ResetDetector.DirectNumbers | src/bridge.rs:527-535 | the same for all 32-bit flags and modes written in decimal |
| ResetDetector.TrailingResetPrefix | src/bridge.rs:497-506 | the loop returns the kept tail |
| ResetDetector.ResetTailIsTail | src/bridge.rs:497-515 | the kept tail is a reset prefix of at most 64 bytes that ends the input, and is empty only if there is none |
| ResetDetector.TailUnique | src/bridge.rs:497-515 | an input has only one such tail |
| ResetDetector.PendingIsResetTail | src/bridge.rs:356-362 | however the stream is cut into chunks, the carried bytes are the tail of the whole stream |
| ResetDetector.ArmsExactly | src/bridge.rs:356-362 | a chunk opens the window exactly if some reset sequence of the whole stream ends inside it with at most 64 bytes before it |
| CsiU.ClassifyCsiU | src/bridge.rs:555-583 | the loop computes the verdict |
| CsiU.ClassifyMeaning | src/bridge.rs:555-583 | each verdict says what the bytes start with: a release report, another report, an unfinished one, or none of these |
| CsiU.SequenceIsFound | src/bridge.rs:555-583 | a report at the front is always found, with its own length |
| CsiU.PrefixIsIncomplete | src/bridge.rs:555-583 | anything that more bytes could complete to a report is Incomplete |
| CsiU.VerdictIsStable | src/bridge.rs:555-583 | more bytes never change a verdict other than Incomplete |
| CsiU.ReleaseMeaning | src/bridge.rs:585-594 | the release test holds exactly for parameters of the form key `;` modifiers `:3`, then nothing or a separator |
| CsiU.VerdictByBytes | src/bridge.rs:555-594 | behind `ESC [` the verdict is decided by the first byte that is no digit, `;` or `:` and the bytes before it, release reports being those with `:3` behind the second field's modifiers |
| CsiU.NoReportWithoutBracket | src/bridge.rs:555-566 | nothing else is a report, and only a lone escape byte is unfinished |
| BridgeFilter.BridgeInputFilter.constructor | src/bridge.rs:352-354 | a new filter has no window and carries nothing |
| BridgeFilter.BridgeInputFilter.ObserveOutput | src/bridge.rs:356-362 | one call sets the window and the carried output bytes, and nothing else |
| BridgeFilter.BridgeInputFilter.FilterInput | src/bridge.rs:364-402 | one call emits and carries what the token trace of its input says, with the expired bytes flushed first and an open or closed window |
| BridgeFilter.BridgeInputFilter.ScanInput | src/bridge.rs:376-401 | the loop emits all bytes outside release reports and carries exactly the unfinished report, with its 20 ms deadline |
| BridgeFilter.BridgeInputFilter.FlushPending | src/bridge.rs:415-418 | the pending bytes come out whole and are forgotten |
| BridgeFilter.BridgeInputFilter.PendingTimeout | src/bridge.rs:404-413 | no wait without pending bytes; otherwise what is left until their deadline, zero exactly when they have expired |
| BridgeFilter.BridgeInputFilter.ShouldFilter | src/bridge.rs:420-429 | true exactly while the window is open; an expired window is closed |
| BridgeFilter.BridgeInputFilter.TakePendingThen | src/bridge.rs:441-451 | the carried bytes come before the new ones and are taken |
| BridgeFilter.BridgeInputFilter.SetPending | src/bridge.rs:435-439 | the bytes are carried until 20 ms from now |
| BridgeFilter.ScanInTwoParts | src/bridge.rs:376-401 | scanning two chunks with the carried bytes in between gives the tokens of scanning their concatenation |
| BridgeFilter.ChunkInvariant | src/bridge.rs:364-402 | with the window open and less than 20 ms in between, two calls emit and carry what one call with both chunks does |
| BridgeFilter.ManyChunks | src/bridge.rs:364-402 | the same for any number of calls, each less than 20 ms after the one before: what they return one after the other, and what is carried in the end, is what one call with all the bytes returns and carries |
| BridgeFilter.DeadlineIs | src/bridge.rs:431-439 | what a call carries on has expired exactly when 20 ms have passed |
| BridgeFilter.ExpiredComesFirst | src/bridge.rs:364-374 | a call 20 ms or more after the last puts out what was carried first and reads its own bytes without it |
| BridgeFilter.ScanIsPositionwise | src/bridge.rs:376-401 | a byte is dropped exactly if it lies in a release report starting at an escape byte of the input; the others are emitted in order up to the unfinished report, which is carried |
| BridgeRuns.Conservation | src/bridge.rs:356-451 | over any run the input is, in order, the emitted bytes, whole dropped release reports, and the pending bytes |
| BridgeRuns.OutputPendingFollows | src/bridge.rs:356-362 | over any run the carried output bytes depend on the observed chunks alone |
| BridgeRuns.WindowExactly | src/bridge.rs:420-429 | over any run with a non-decreasing clock the window is open exactly within 500 ms of an observed reset |
| BridgeRuns.DropsFollowResets | src/bridge.rs:364-402 | every drop happens at most 500 ms after an observed reset |
| BridgeRuns.PendingSince | src/bridge.rs:431-439 | over any run, what is pending was put aside by the last input call, until 20 ms after it |
| BridgeRuns.InputExactly | src/bridge.rs:364-402 | every input call of every run: bytes carried for 20 ms or more come out first; then, at most 500 ms after an observed reset, every byte outside release reports up to an unfinished one, which is carried, and otherwise every byte |
| BridgeRuns.NoResetIsIdentity | src/bridge.rs:364-402 | without an observed reset every byte passes at once and nothing is ever pending |
| BridgeRuns.DroppingCanSplice | src/bridge.rs:376-401 | an input whose output is itself a release report |
| Splicing.MayBecomeReleaseExactly | src/bridge.rs:585-594 | the test on an unfinished report holds exactly if some bytes complete it to a release report |
| Splicing.DeadPrefix | src/bridge.rs:585-594 | an unfinished report that nothing completes to a release report |
| Splicing.SplicedExactly | src/bridge.rs:376-401 | on every input the output holds a release report at some position exactly if an unfinished report of the input, interrupted by whole release reports only, is continued to one |
| Splicing.SecondPassExactly | src/bridge.rs:376-401 | filtering the output again drops something exactly under the same condition |
| Splicing.CleanWithoutSplice | src/bridge.rs:376-401 | if no release of the input directly follows the beginning of another, the output holds no release report at any position |
| Splicing.SpliceShows | src/bridge.rs:376-401 | for every release that follows the beginning of another, some continuation makes the output hold a release report |
| ShellInvariant.InitialInv | src/daemon.rs:1073-1151 | new and adopted shells satisfy the invariant, whatever status was persisted |
| ShellInvariant.ActionKeepsInv | src/daemon.rs:1153-1284 | every lock section of every thread keeps the invariant |
| ShellInvariant.RunKeepsInv | src/daemon.rs:1153-1284 | so does every run, channels closing at any moment |
| ShellInvariant.ReplayIsShort | src/daemon.rs:1193-1199 | `events.after(seq)` in `attach` yields nothing or the one chunk in flight, possibly cut at its front |
| ShellTheorems.NoOutputLost | src/daemon.rs:1153-1268 | for the current, listening client every chunk is on its screen, was sent to it in full, or is the one in flight |
| ShellTheorems.BoundedDuplication | src/daemon.rs:1172-1267 | for every attach ever made, Output seqs start at Snapshot.seq or one later, never skip, and only the first may come twice |
| ShellTheorems.EndedProperly | src/daemon.rs:1270-1280 | once the cleanup has sent its message, every client that was shown a running shell got an end message, detached, or stopped listening |
| ShellTheorems.OneOwner | src/daemon.rs:815-823 | of any number of cleanup calls at most one finds the shell in the map |
| ShellTheorems.CleanupHappensOnce | src/daemon.rs:715-823 | whoever calls and however often: marked at most once, closed at most once, and at most one Exited to at most one client |
| ShellTheorems.ReturnedExactly | src/daemon.rs:815-823 | when a call has returned, the shell is marked and closed exactly if the call was the owner or the owner has returned |
| ShellTheorems.CwdConverges | src/daemon.rs:634-662 | between two polls the last CwdChanged sent to the current client is the stored cwd |
| ShellHistory.FieldsFollowSteps | src/daemon.rs:630-663 | over any run the stored cwd is the one the last poll read, the output is the chunks taken, and the shell is Exited and closed exactly if a cleanup call got that far |
| ShellHistory.ClientKnowsPolledCwd | src/daemon.rs:643-661 | between two polls the last CwdChanged sent to the current client is the cwd that the last poll read |
| ShellHistory.PollerStopsExactly | src/daemon.rs:636-639 | the poller has stopped exactly if one of its looks found the shell not running |
| ShellHistory.CachesFollowOutput | src/daemon.rs:1247-1252 | over any run scrollback and ring are what the chunks that reached them make of what they started with, each chunk under its number |
| ShellHistory.ScreenWasShown | src/daemon.rs:1172-1182 | the screen in a snapshot had been processed by the terminal, and that is a beginning of the chunks taken |
| ShellHistory.DeliveryDropsTheGone | src/daemon.rs:1254-1268 | in every reachable state a delivery sends the newest chunk to the current client, or finds it gone and takes it out |
| ShellHistory.AttachWithoutSteal | src/daemon.rs:1160-1169 | while no attach asks to steal, nobody is told of being displaced, and a client leaves only by detaching, by being gone, or with the shell |
| ShellHistory.RefusedExactly | src/daemon.rs:1160-1164 | an attach changes nothing exactly if the shell is taken and it does not ask to steal |
| ShellHistory.IdleSweepTakesNobody | src/daemon.rs:752-776 | after an idle sweep has looked, the shell stays without client until an attach begins |
| ShellHistory.IdleSweepCanEndClient | src/daemon.rs:752-776 | a run in which a client attaches after the look and is told that its shell exited |
| ShellHistory.AttachCanFinish | src/daemon.rs:1153-1202 | from every state satisfying the invariant the attach call that holds the lock can go on to its end by its own steps |
| ShellHistory.EveryThreadCanMove | src/daemon.rs:1204-1284 | with the attach lock free, the reader, the poller and every unfinished cleanup call can take their next step |
| ShellTheorems.EndedClientIsOut | src/daemon.rs:1204-1212 | a client that was told of its end is not attached, and its `detach` changes nothing |
| ShellTheorems.LateAttachIsNotEnded | src/daemon.rs:666-681 | a run that leaves a listening client on a closed shell without an end message |
| ShellTheorems.SecondCleanupReturnsEarly | src/daemon.rs:715-727 | a run of the child waiter and a `kill` in which the `kill` has returned while the shell is still Running and open |
| ShellTheorems.ReplayExactly | src/daemon.rs:1193-1199 | in every reachable state the replay is the chunk in flight, as far as the ring keeps it, exactly if that chunk was numbered after the snapshot's seq, is logged and not delivered, and the ring has a cap; otherwise nothing |
| ShellTheorems.OneChunkThreeTimes | src/daemon.rs:1172-1199 | for every chunk and every ring with a cap a run in which one chunk is on the screen, replayed and sent |
| ShellEnding.StolenClientStaysOut | src/daemon.rs:1160-1219 | a client that has once left the attach field, told of it or not, is never in it again, and its `detach` changes nothing |
| ShellEnding.PresentAtExitIsEnded | src/daemon.rs:1270-1280 | every client whose attach began before the cleanup took the attach field is ended, detached or not listening once the message is sent, in every continuation |
| ShellEnding.LateAttachIsNeverTold | src/daemon.rs:1160-1191 | no client whose attach begins after that is ever sent Exited |
| ShellState.ShellState.constructor | src/daemon.rs:1073-1102 | a new object is an initial state of the step machine |
| ShellState.ShellState.SendTo | src/daemon.rs:1255-1264 | a send fails exactly if the receiver is gone, and then leaves no trace |
| ShellState.ShellState.RecordOutput | src/daemon.rs:1247-1268 | one call is the reader's five actions in a row |
| ShellState.ShellState.DeliverOutput | src/daemon.rs:1254-1267 | its last section sends the chunk to the current client, or drops a client that is gone |
| ShellState.ShellState.Resize | src/daemon.rs:1234-1245 | fails on a closed master or when the pty refuses, changing nothing; otherwise the size is the new one and the terminal's grid has it too, with at least one row and column |
| ShellState.ShellState.Attach | src/daemon.rs:1153-1202 | one call is refused without `steal` when taken and then changes nothing, else it is the attacher's nine actions in a row, resizes, and sends the current name |
| ShellState.ShellState.Greet | src/daemon.rs:1171-1191 | the new client's channel holds the Snapshot and the cwd, in this order, and the client is installed |
| ShellState.ShellState.ReplayEvents | src/daemon.rs:1193-1199 | the loop sends the replayed events in order |
| ShellState.ShellState.Detach | src/daemon.rs:1204-1212 | one call is the detach action |
| ShellState.ShellState.MarkExited | src/daemon.rs:1270-1280 | one call is the three actions status, attach field, message |
| ShellState.ShellState.CloseHandles | src/daemon.rs:1282-1284 | one call is the closing action |
| Registry.StepKeepsInv | src/daemon.rs:246-260 | every step of every connection and shell keeps the registry's invariant |
| Registry.RunKeepsRegInv | src/daemon.rs:246-260 | so does every run |
| Registry.EveryShellKeepsItsInvariant | src/daemon.rs:666-701 | every shell of every registry run satisfies the single-shell invariant |
| RegistryRuns.EveryShellRuns | src/daemon.rs:666-823 | every registry run is, for each of its shells, a run of the single-shell machine that ends in the same state, so every result for one shell holds of it |
| Registry.AttachIdsAreUnique | src/daemon.rs:1171-1191 | an attach id belongs to at most one shell, for ever |
| Registry.GoneConnectionsHoldNothing | src/daemon.rs:258-260 | after a connection's exit loop no shell in the map holds an attach it opened, then or later |
| RegistryRuns.GoneConnectionsHoldOnlyLateAttaches | src/daemon.rs:246-260 | what a gone connection can still hold, over all shells: only outside the map, and only what a cleanup is about to take or what was drawn after the take |
| Registry.GoneConnectionsAreDeaf | src/daemon.rs:246-262 | the channel of a connection whose thread is over is closed |
| RegistryWitness.UnregisteredShellKeepsClient | src/daemon.rs:825-831 | a run in which a shell outside the map keeps the attach of a connection that is gone |
| LockOrder.OperationIsOrdered | src/daemon.rs:492-856 | with any choice, per shell, of taking the attach lock first or last: every operation that obeys the choice takes its locks in rising order and frees them all; only `list` needs it last and only an accepted `attach` needs it first |
| LockOrder.WaitsRise | src/daemon.rs:1153-1284 | along a chain of waiting threads the awaited lock rises |
| LockOrder.NeverStuck | src/daemon.rs:1153-1284 | any number of operations obeying one choice: in every reachable state with work left some thread can go on |
| LockOrder.StuckNeedsListedAttach | src/daemon.rs:1304-1315 | every run that ends in a deadlock listed a shell that an `attach` of the run opened |
| LockOrder.ListIsNotOrdered | src/daemon.rs:1304-1315 | `list` breaks the order that `attach` follows |
| LockOrder.AttachAndListCanBlock | src/daemon.rs:1304-1315 | an `attach` of a shell, resizing or not, and any `list` that names it can come to wait for each other for ever |
| LockOrder.DeadlockExactly | src/daemon.rs:1153-1315 | a mix of operations, any number of each at once, can deadlock if and only if it lists a shell that an `attach` of the mix opens |
| DaemonSpawn.RunKeepsInv | src/daemon_spawn.rs:17-59 | every run keeps: one lock holder; a serving daemon holds the lock and owns the socket path |
| DaemonSpawn.AtMostOneServes | src/daemon.rs:54-101 | any number of clients and daemons: at most one daemon serves, holding the lock, with the path naming its listener |
| DaemonSpawn.NothingDestructiveWhileServing | src/daemon_spawn.rs:42-44 | while a daemon serves no unlink, start-up cleanup or bind is possible, by anyone |
| DaemonSpawn.ServerIsUndisturbed | src/daemon.rs:54-101 | over any run that does not stop it, a serving daemon keeps serving, its path and all shell files |
| DaemonSpawn.PingsReachTheServer | src/daemon_spawn.rs:49-56 | every client whose ping is answered while `d` serves is connected to `d` |
| DaemonSpawn.GivesUpAfterHundredPolls | src/daemon_spawn.rs:49-58 | whatever others do, a client that spawned a daemon is connected exactly if a poll was answered, gives up exactly at the hundredth unanswered one, and polls on until then |
| DaemonSpawn.PollCanStillConnect | src/daemon_spawn.rs:49-56 | whenever a daemon serves before the hundredth unanswered poll, the next poll can connect the client to it |
| DaemonSpawn.FailedSpawnGivesUp | src/daemon_spawn.rs:46-47 | a client that cannot spawn gives up, and stays so |
| DaemonSpawn.StaleSocketIsGone | src/daemon_spawn.rs:42-46 | unless removing the file fails, a client gives the lock back with the socket path empty, and a daemon that comes to bind succeeds and serves |
| DaemonSpawn.BindExactly | src/daemon.rs:88-96 | in every reachable state a bind succeeds exactly on an empty path; otherwise the daemon ends and the lock is free |
| DaemonSpawn.ServingFilesAreOwn | src/daemon.rs:67-70 | if start-up cleans, the files on disk while a daemon serves are its own |
| DaemonSpawn.WrittenFilesStay | src/daemon.rs:67-70 | what a serving daemon has written stays until it is stopped |
| DaemonSpawn.LockHolderComesUp | src/daemon.rs:51-101 | from every state with a free lock a launched daemon can come to serve by its own steps alone, stale socket or not |
| DaemonSpawn.SecondPingFails | src/daemon_spawn.rs:36-40 | a client holding the spawn lock never finds a listener |
| DaemonSpawn.WaiterWaits | src/daemon_spawn.rs:34 | a client at the lock stays there for as long as the daemon serves |
| DaemonSpawn.ClientCanWaitForServer | src/daemon_spawn.rs:18-34 | a run that leads there |
| DaemonSpawn.SpawnedDaemonCanBeTurnedAway | src/daemon.rs:138-150 | a run in which the only daemon exits because a client holds the lock |
| DaemonSpawn.TurnedAwayExactly | src/daemon.rs:138-150 | in every reachable state a daemon at its `try_lock` exits exactly if some process is between taking the lock and giving it up, and otherwise goes on |
| DaemonSpawn.OnlyDaemonTurnedAwayExactly | src/daemon.rs:138-150 | with no other daemon it exits exactly if some client is in its locked section |
| Framing.LengthRoundTrip | src/framing.rs:16 | reading length bytes undoes writing them, for every length that fits the width |
| Framing.LengthInverse | src/protocol.rs:230 | writing undoes reading: every byte string of the width is the encoding of exactly one length |
| Framing.EncodeFrame | src/protocol.rs:223-233 | a frame exactly for values that serialise to at most 16 MiB, with four length bytes, lowest first; an unserialisable and a too long value are told apart |
| Framing.EncodedExactly | src/protocol.rs:223-233 | a value encodes exactly if it serialises to at most 16 MiB; the frame is four bytes that read as the length, lowest first, and the payload |
| Framing.Reader.ReadExact | src/framing.rs:12-15 | exactly `n` bytes, or an error at the end of the stream |
| Framing.Reader.ReadFrame | src/framing.rs:6-27 | one call returns and leaves what the specification of one read says, on every stream |
| Framing.Writer.WriteFrame | src/framing.rs:29-38 | one call appends the frame of such a value, or fails and writes nothing |
| Framing.FrameReadsBack | src/framing.rs:6-27 | a frame followed by anything reads back as its payload and leaves what follows; the cast to 32 bits loses nothing |
| Framing.ReadIsExact | src/framing.rs:6-27 | a read succeeds exactly on streams that begin with a frame of an admissible payload |
| Framing.EndOfStreamExactly | src/framing.rs:12-25 | a read fails at the end of the stream exactly if the stream is a proper beginning of some admissible frame |
| Framing.SecondSizeCheckNeverFires | src/protocol.rs:235-238 | after `read_frame`'s own check the one in `decode_payload` never fires |
| Framing.RoundTrip | src/framing.rs:6-38 | reading the frames of any list of admissible payloads returns that list and consumes every byte |
| Framing.ReadAllIsExact | src/framing.rs:6-27 | on any stream whatever, the payloads read are exactly the frames it begins with |
| Framing.EncodingIsPrefixFree | src/protocol.rs:223-233 | different lists have different encodings, and one encoding begins another exactly if the lists do |
| Framing.CutStream | src/framing.rs:12-25 | a stream cut anywhere yields exactly the frames that arrived whole and then an end-of-stream error |
| Framing.MessagesRoundTrip | src/framing.rs:6-38 | the round trip for any messages that serialise to at most 16 MiB, for any serialisation whose reader undoes its writer |

## Left out

- Terminal rendering (`TerminalModel`): a screen is the list of processed chunks.
- Serialisation of messages, metadata, the manifest and `daemon.json`: opaque or parameters; reading back a snapshot file is not modelled.
- ShellState.ShellState.Attach: `resize` and `name` are in the class but not in the interleaving of one shell, where they change no message but the name in a Snapshot; their locks are in `LockOrder`.
- `prune_storage_caps` with `clear_replay_buffers` inside the interleaving: it only empties what a later snapshot shows; `Clear` is modelled on the buffers.
- `last_active_at_ms` and process liveness in the sweeps: an idle sweep may choose any detached shell in the map, a dead sweep any shell in the map.
- `max_shells`: check and insertion are separate lock sections, so concurrent creators can exceed it.
- `ShellStatus::Lost`, which the modelled operations never set.
- ReplayUpgrade.HotUpgradeRefinement: nothing is output between the flush and the exec, which is one step; the source accepts a small loss there.
- Wrap-around of the 64-bit sequence number and of `usize` sums.
- LockOrder.NeverStuck: locks only; threads that stop for other reasons (input that the pty does not take, a disk that does not answer) are not modelled.
- DaemonSpawn.AtMostOneServes: without hot upgrade, where the lock and the listener pass through exec; connect and ping are one step.
- DaemonSpawn.LockHolderComesUp: a possibility, not a promise that the daemon is scheduled.
- Write errors of the socket, and tokio's partial reads inside `read_exact`.
- PTYs, signals, child processes, resource limits, peer credentials, raw mode, tty sizes, cwd lookup, arguments, configuration, path building, the reconnect loop.
