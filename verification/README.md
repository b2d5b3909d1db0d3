# BlueFerry, verified

BlueFerry keeps an iPhone connected to a Linux desktop over Bluetooth. Its
daemon is a set of event-driven state machines whose guarantees hold over whole
runs, with timers, signals, late replies, failed writes and crashes in any
order. This project models the parts with the hardest guarantees and proves
them.

- **Bluetooth recovery** (`restore_journal.dfy`, `recovery.dfy`,
  `restore_radio.dfy`, `recovery_history.dfy`, `recovery_runs.dfy`,
  `recovery_radio.dfy`, `recovery_example.dfy`): the last-resort adapter power
  cycle with its write-ahead journal, its persisted budget and its observation
  windows. One state machine holds the settings file, the adapter, the worker's
  job and the main loop; a crash may come between any two steps. The journal is
  also proved against the radio and its delayed signals, alone and beside that
  machine. What happened to the record and the radio is kept as one history
  across restarts, and the budget is proved about lawful histories.
- **Bearer supervisor** (`bearer.dfy`, `bearer_runs.dfy`, `paging_bound.dfy`,
  `stale_bond.dfy`): serialized connects, disconnects and resets of the two
  bearers, the bound on paging an absent phone, and the stale-bond detector.
- **Call history** (`call_history.dfy`, `unseen_calls.dfy`,
  `call_repository.dfy`, `announcements.dfy`, `call_sync.dfy`): merging, the
  mirror and its announcements, recognising a list that was re-rendered in
  another zone, and the protocol between main loop and worker.
- **Trusted path walk** (`path_walk.dfy`), **BlueZ read cache**
  (`read_cache.dfy`), **archive revision, search replies and versioned
  deletion** (`archive.dfy`, `deletion.dfy`).

Each state machine is written twice: as functions on a value, about which the
runs are proved, and as a class whose methods follow the source statement by
statement and are proved to compute those functions. Where a class has many
fields they are grouped in records of the same names. Collaborators, clocks,
D-Bus answers and the outcome of disk writes are parameters, so every theorem
holds for all of them. Times are whole seconds of a clock that does not go
back; wall time is a separate input. A settings write is atomic and durable or
leaves the old file. The last check before a D-Bus call and the call are one
step. Callbacks do not re-enter the object that calls them. BlueZ reports a
transition from when it has a power request until it is done with it.

The table lists the theorems and those methods whose contract says something of
its own; every other method of the classes is proved to compute its function.

`dafny verify dfyconfig.toml` checks the whole project.

## Where the code falls short

- A completed power cycle can leave the radio off. The worker reads and writes on
  a connection of its own, and BlueZ's signals wait for GLib on another
  (`src/blueferry/bus.py:20-43`). An on signal sent before our power-off but
  dispatched after it completes the transaction and erases the journal
  (`src/blueferry/bluetooth_recovery.py:230-235`), although the radio is off;
  so does one that someone causes while power-off is on its way
  (`RestoreRadio.OldSignalHappens`). `RestoreRadio.HoldsExactlyIfClean` gives
  the exact condition, `RestoreRadio.RadioIsNeverLeftOff` what holds under it.
- A power cycle may start without an LE reset of its own outage: while the MAP
  probe waits in the worker's queue for five minutes, the outage can end and
  another begin, which forgets the reset but not the probe
  (`RecoveryExample.CycleWithoutReset`). `RecoveryRuns.CycleFollowsReset` gives
  the exact condition.
- `clear` does not stop `adopt` from installing a list that storage preparation
  had loaded before (`src/blueferry/daemon.py:1354-1359`), which brings cleared
  calls back into the snapshot until the next sync
  (`CallSync.ClearedCallComesBack`). `CallSync.AdoptedIsCleanIff` gives the
  exact condition.
- `split_key` does not invert `key` for a timestamp with a separator in it; no
  parsed record has one.
- `history_revision` is documented to change with every update, but minimizing
  a notification (`src/blueferry/history.py:694-746`) and normalizing the plain
  columns of a row while pruning (`src/blueferry/history.py:556-564`) do not
  change it. `Archive.ChangesMissedExactly` shows that no other change is
  missed; what deletions and search replies rest on still holds.

## Model

| member | source | states |
|---|---|---|
| `RestoreRadio.RadioIsNeverLeftOff` | `src/blueferry/bluetooth_recovery.py:320-456` | Against the radio's true state, with BlueZ's signals queued in order and dispatched whenever GLib gets to them: over every run of D-Bus answers, delayed signals, timeouts, disk failures, restarts and crashes in which no on signal is undelivered when power-off is sent and nobody switches the radio off and on before it is carried out, as long as the radio is off because of us the journal is on disk, restoration is pending, and a crash at that very point would load it again |
| `RestoreRadio.HoldsExactlyIfClean` | `src/blueferry/bluetooth_recovery.py:222-248` | That condition is exact at every single step, while no change of the controller has been noticed: from the next state on the radio cannot be left off, however the run goes on as long as it stays clean, if and only if the step does not send power-off with an on signal undelivered and does not switch the radio back on while power-off is on its way |
| `RestoreRadio.OldSignalHappens` | `src/blueferry/bluetooth_recovery.py:337-352` | A concrete run to a state where power-off is sent with an off/on pair undelivered, from which the journal can be erased with the radio off |
| `RestoreJournal.DutyIsNeverDropped` | `src/blueferry/bluetooth_recovery.py:80-150` | As far as the daemon is told: over every run of D-Bus answers, signals, disk failures, restarts and crashes, from power-off until an answer or signal says that nothing is left to restore, the journal is on disk, restoration is pending, and a crash at that very point would load it again |
| `RestoreJournal.CompletedStaysQuiet` | `src/blueferry/bluetooth_recovery.py:127-150` | Within one process, a completed transaction never sends another power-on, whatever follows, also while clearing its journal keeps failing |
| `RestoreJournal.PowerOffIsJournaled` | `src/blueferry/bluetooth_recovery.py:320-352` | Power-off is sent only with this transaction's journal on disk, for exactly the state that was decided on, and with no topology signal since |
| `RestoreJournal.JournalRoundTrip` | `src/blueferry/bluetooth_recovery.py:99-125` | A journal is found again if and only if it belongs to this adapter and phone and its identities are well formed; it then carries the same identity and knows whether power-on had begun |
| `RestoreJournal.StepKeepsSafe` | `src/blueferry/bluetooth_recovery.py:320-441` | Every step of the worker, of GLib's thread and of a restart keeps: an open transaction is the one the journal describes, and a transaction the worker still holds after it was detached is completed |
| `RestoreJournal.DutyKeepsPending` | `src/blueferry/bluetooth_recovery.py:354-441` | A pending restoration stays pending over every step that neither says that power is on nor shows another controller |
| `RestoreJournal.JobsEnd` | `src/blueferry/bluetooth_recovery.py:354-441` | Every reply moves the worker's job strictly closer to its end; a job that ends with restoration pending ended without evidence |
| `RestoreJournal.BluezRecoveryAdapter.BeginCycle` | `src/blueferry/bluetooth_recovery.py:327-336` | Refuses while restoration or cleanup is pending; otherwise the journal is written before the transaction exists, and nothing changes if any step fails |
| `RestoreJournal.BluezRecoveryAdapter.Recheck` | `src/blueferry/bluetooth_recovery.py:337-352` | Sends power-off exactly if nothing changed and nobody cancelled; otherwise completes without a request |
| `RestoreJournal.BluezRecoveryAdapter.Reinspect` | `src/blueferry/bluetooth_recovery.py:398-408` | Sends power-on exactly if the transaction is open and the radio is still off |
| `RecoveryRadio.DarkRadioIsCoveredFor` | `src/blueferry/bluetooth_recovery.py:222-859` | Main loop, worker, settings file, crashes, radio and delayed signals as one machine: in every state that clean moves reach, while the radio is off because of us, the journal is on disk and a crash would load it; the attempt that led to it is spent, on disk, an hour after every earlier one and, for a pair kept, after sustained health; nothing was attempted, rearmed or claimed since; no power-off or cycle can begin; and, while the process that sent power-off runs, the worker is reserved and profiles are paused until stop |
| `RecoveryRadio.MoveKeepsWhole` | `src/blueferry/bluetooth_recovery.py:222-859` | Every clean move of the daemon, GLib, BlueZ or the user keeps all of this together |
| `RecoveryExample.DarkHappens` | `src/blueferry/bluetooth_recovery.py:320-352` | A concrete run of that machine from the first start through five minutes of outage to a radio that is off because of us |
| `RecoveryRuns.CycleBudget` | `src/blueferry/bluetooth_recovery.py:601-628` | Crash-safe budget: of any two power-offs in any history with crashes and restarts, the later one was attempted at least an hour after the earlier one's attempt and, for a pair neither changed nor forgotten, after at least ten minutes of unbroken proven health |
| `RecoveryRuns.PowerOffIsBudgeted` | `src/blueferry/bluetooth_recovery.py:817-831` | Whenever power-off is sent, the settings file already holds the spent attempt with its own time and the journal of this transaction |
| `RecoveryRuns.CycleHasACase` | `src/blueferry/bluetooth_recovery.py:677-768` | When a cycle starts: every check since the outage began was busy or unhealthy, eligible, safe and permitted, gaps at most 90 s, at least 300 s long, no invalidation inside, MAP probe at most 30 s old |
| `RecoveryRuns.CycleFollowsReset` | `src/blueferry/bluetooth_recovery.py:740-756` | A cycle follows a settled LE reset of the lasting LE outage if and only if that outage began before the MAP probe was submitted |
| `RecoveryExample.CycleWithoutReset` | `src/blueferry/bluetooth_recovery.py:738-756` | A concrete run in which a cycle starts without an LE reset of its outage: the probe stays queued while the outage ends and another lasts five minutes |
| `RecoveryRuns.InvalidationStopsCycle` | `src/blueferry/bluetooth_recovery.py:570-586` | Once anything invalidates the observations (sleep, another owner, a forgotten phone, a stop, a failed snapshot, a crash), no power-off is sent over any further run until another cycle has been decided, wherever the worker was |
| `RecoveryRuns.PausesAreBalanced` | `src/blueferry/bluetooth_recovery.py:546-586` | Until stop, profiles are paused exactly while active or while a resume is owed after sleep; a pending operation implies active, active means reserved |
| `RecoveryRuns.ReservedWhileRestoring` | `src/blueferry/bluetooth_recovery.py:837-859` | The worker stays reserved over every step as long as restoration is pending |
| `RecoveryRuns.StepKeepsSound` | `src/blueferry/bluetooth_recovery.py:546-859` | Every step of the main loop, worker, signals, disk and crashes keeps all of the above together |
| `RecoveryRuns.CheckedWindowed` | `src/blueferry/bluetooth_recovery.py:677-739` | A check keeps the meaning of the windows: a case since the outage start, proven health since its start, an LE reset inside the LE outage; the record changes only for a reason |
| `RecoveryHistory.AttemptsAreAnHourApart` | `src/blueferry/bluetooth_recovery.py:619-628` | Any two recorded attempts, in whatever processes and for whatever phones, are at least 3600 s apart |
| `RecoveryHistory.HealthBetweenAttempts` | `src/blueferry/bluetooth_recovery.py:708-719` | Between two attempts for a pair neither changed nor forgotten lies sustained proven health |
| `RecoveryHistory.PowerOffsAreSpaced` | `src/blueferry/bluetooth_recovery.py:601-628` | In a lawful history each power-off has an attempt of its own, with the hourly limit and the health in between |
| `Recovery.BluetoothRecovery.AfterProbe` | `src/blueferry/bluetooth_recovery.py:776-835` | The record changes only for an unchanged, safe and permitted state, to a spent attempt of now; asking for a second snapshot changes nothing |
| `PagingBound.AbsentPhoneIsPagedRarely` | `src/blueferry/bearer_supervisor.py:1407-1748` | From any reachable state, in any window of T seconds without evidence of the phone and without a manual reconnect, BlueZ restart, profile reset or a start after a stop, at most 3 + floor(T/600) Classic connects start, whatever mix of success, failure, InProgress and AlreadyConnected replies comes |
| `PagingBound.MissIsPaced` | `src/blueferry/bearer_supervisor.py:1682-1710` | A miss of the page in flight parks Classic for 600 s once three attempts have missed |
| `PagingBound.RequestIsPaced` | `src/blueferry/bearer_supervisor.py:1407-1476` | Starting a connect, including one that fails at once, keeps the pages of the window paid for |
| `BearerRuns.OperationsAreSerialized` | `src/blueferry/bearer_supervisor.py:723-824` | In every reachable state at most one bearer is connecting, the id and target maps have exactly its key, solicitation is withdrawn exactly while an LE dial is outstanding, and during a profile reset there is no connect, LE disconnect, manual dial, settle timer or pending LE reset |
| `BearerRuns.DeadRequestsStayDead` | `src/blueferry/bearer_supervisor.py:1569-1584` | A reply for a request that was settled or replaced, or of an older generation, never changes anything again, after any further run |
| `BearerRuns.StepKeepsSerialized` | `src/blueferry/bearer_supervisor.py:1134-1819` | Every timer, reply, signal and request keeps the serialization, and every current request is either an old one or newer than all old ones |
| `Bearer.BearerSupervisor.RequestConnect` | `src/blueferry/bearer_supervisor.py:1407-1476` | Starts a connect exactly if nothing holds the radio, no bearer is connecting, LE is known and its dial allowed, and the backoff has passed; an error raised at once is handled like its reply; changes nothing while another operation runs |
| `Bearer.BearerSupervisor.ConnectFailed` | `src/blueferry/bearer_supervisor.py:1503-1567` | InProgress keeps waiting, AlreadyConnected re-reads both bearers for an untyped request, anything else is a failure; an error for another request changes nothing |
| `Bearer.BearerSupervisor.RequestLeDisconnect` | `src/blueferry/bearer_supervisor.py:1793-1819` | One LE disconnect at a time, under the reset's backoff and budget; "not connected" raised at once completes the reset, another error backs it off |
| `Bearer.BearerSupervisor.RecoverLeTransport` | `src/blueferry/bearer_supervisor.py:580-628` | Answers yes exactly if a reset is pending, begun now or already begun for the caller's outage, while running, with the LE interface and outside a profile reset; a reset that only the budget refuses is remembered |
| `Bearer.BearerSupervisor.ResetProfiles` | `src/blueferry/bearer_supervisor.py:723-792` | Started exactly with Classic up and no other operation; a disconnect that raises "not connected" at once moves on to settling, another error ends the reset |
| `StaleBond.SuspicionHasEvidence` | `src/blueferry/bearer_supervisor.py:984-1061` | After any interleaving of polls, signals and restarts, the suspicion is raised only on five counted drops inside the last window, over the persistence time, without a gap longer than the window then in force, with Classic up throughout and every signalled drop short and with a counted reason; the drops held are sorted, window-bounded and empty exactly when the burst has no start |
| `StaleBond.RecordedIsKept` | `src/blueferry/bearer_supervisor.py:984-1061` | Recording a drop keeps the burst's evidence, and raises only on full evidence |
| `StaleBond.UncountedIsKept` | `src/blueferry/bearer_supervisor.py:914-938` | Replacing a polled count by the first signal keeps the burst's evidence across the switch of windows |
| `StaleBond.ClassicSeenIsKept` | `src/blueferry/bearer_supervisor.py:1339-1344` | An observation of Classic not up leaves no burst behind |
| `StaleBond.DropsFollowInterruptions` | `src/blueferry/bearer_supervisor.py:1339-1364` | After any run, no drop of the burst is older than the last time Classic was seen not to be up |
| `StaleBond.ReportIsRecent` | `src/blueferry/bearer_supervisor.py:1097-1121` | A report that survives a check, after any run, is backed: detection applies, a telling drop was counted less than 600 s before, and Classic has not been seen away for 120 s |
| `StaleBond.SuspicionHappens` | `src/blueferry/bearer_supervisor.py:984-1061` | A concrete run raises the suspicion, and its report survives a check: thirteen two-second links in three minutes |
| `CallSync.ClearIsFinal` | `src/blueferry/call_history_sync.py:233-259` | For every interleaving of the worker's store job with the main loop before and after: once `clear` has returned, no call pulled by a sync started before is on disk, in the snapshot or announced, provided no list loaded before a clear is adopted after it |
| `CallSync.AdoptedIsCleanIff` | `src/blueferry/call_history_sync.py:218-223` | The proviso is exact: adopting keeps the snapshot free of cleared calls if and only if the list was loaded since the clear or is empty |
| `CallSync.ClearedCallComesBack` | `src/blueferry/call_history_sync.py:218-259` | A concrete run in which the proviso fails: a call that was stored, loaded and cleared is back in the snapshot after `adopt` |
| `CallSync.CallersAreAnsweredOnce` | `src/blueferry/call_history_sync.py:357-371` | Every accepted or refused caller is waiting, queued or answered, exactly once, over joins, queued full pulls, clears, refused jobs and stops; one chain runs exactly while pending; callers queue only behind a missed-calls pull and wait only for a full one |
| `CallSync.StepIsClean` | `src/blueferry/call_history_sync.py:373-509` | Every step keeps chains older than a clear under old generations and younger ones free of cleared calls |
| `CallSync.StepIsOrderly` | `src/blueferry/call_history_sync.py:314-545` | Every step keeps the callers accounted for and at most one chain running |
| `CallSync.StoreIsClean` | `src/blueferry/call_history_sync.py:437-453` | The store job writes only under the generation its sync began with |
| `Announcements.MissedCallsAreAnnouncedOnce` | `src/blueferry/call_history_repository.py:179-292` | Over any run of full and partial syncs and expiries with nondecreasing cutoffs, one phone, one zone and room for the announced keys, no key is announced twice |
| `Announcements.SeedingIsSilent` | `src/blueferry/call_history_repository.py:179-323` | In any story of syncs of any phones, expiries, forgetting and clearing: from whatever arms seeding (nothing recorded, forgotten, cleared, or another phone paired) nothing is announced up to and including the first sync that lists calls, and the record of announced calls is absent until exactly then |
| `Announcements.AnswerRemembers` | `src/blueferry/call_history_repository.py:231-257` | One answer announces only calls not announced before, and records them with all that are not expired |
| `Announcements.KeptIsWellFormed` | `src/blueferry/call_history_repository.py:235-245` | Full and partial pulls keep distinct calls of the window, also after merging with retained ones |
| `CallRepository.CallHistoryRepository.Replace` | `src/blueferry/call_history_repository.py:179-292` | The whole effect of one sync on rows, announced keys and phone; an exception, exactly for storage out of use or an entry that fails authentication, changes no data, and in the latter case stops all access |
| `CallRepository.CallHistoryRepository.Answer` | `src/blueferry/call_history_repository.py:231-257` | The kept calls, the new missed calls and the keys to remember |
| `CallRepository.CallHistoryRepository.Prune` | `src/blueferry/call_history_repository.py:325-369` | Deletes exactly the expired and unusable rows and the expired keys; rows or keys that fail authentication stop all access and change no data |
| `CallRepository.CallHistoryRepository.RetainedSeen` | `src/blueferry/call_history_repository.py:391-401` | Keeps the keys of the window, the newest ones if capped |
| `UnseenCalls.SuppressedCallsAreMatched` | `src/blueferry/call_history_repository.py:427-498` | Every fresh call is announced, or is paired with a vanished announced call of its own of the same direction and number at one common valid offset |
| `UnseenCalls.MatchesAreInjective` | `src/blueferry/call_history_repository.py:485-498` | No vanished call explains two fresh ones |
| `UnseenCalls.AnnouncedOrMatched` | `src/blueferry/call_history_repository.py:485-498` | Announced and matched calls together are the fresh calls, with multiplicity |
| `UnseenCalls.RerenderedListIsSilent` | `src/blueferry/call_history_repository.py:427-498` | Complete: if one valid offset turns each fresh call into a vanished announced call, with distinct clocks per number, `_unseen` announces nothing, in whatever order it meets them |
| `UnseenCalls.RerenderedListAnnouncesNothing` | `src/blueferry/call_history_repository.py:475-498` | If one valid offset leads from every fresh call to a vanished one and clocks are distinct per number, nothing is announced, whichever best offset is chosen |
| `UnseenCalls.Unseen` | `src/blueferry/call_history_repository.py:427-498` | Answers with the calls that a best offset does not explain, or with all fresh calls if none is explained or the list was not re-rendered |
| `UnseenCalls.CountSupport` | `src/blueferry/call_history_repository.py:460-481` | Counts for each offset how many fresh calls it explains |
| `UnseenCalls.MaxSupport` | `src/blueferry/call_history_repository.py:484-484` | Finds an offset of most support, the smallest among equals |
| `UnseenCalls.Suppress` | `src/blueferry/call_history_repository.py:485-498` | Announces what the offset does not explain, using up one vanished call per match |
| `CallHistory.MergeCallHistory` | `src/blueferry/call_history.py:424-460` | The merged, sorted and capped list of all lists |
| `CallHistory.MergeNormalForm` | `src/blueferry/call_history.py:424-460` | The merge has distinct calls, strictly newest first, covers every call, takes the strongest direction and has a name exactly if an entry had one |
| `CallHistory.MergeIsIdempotent` | `src/blueferry/call_history.py:424-460` | Merging a merged list again changes nothing, under any cap |
| `CallHistory.CapKeepsNewest` | `src/blueferry/call_history.py:456-460` | A cap keeps exactly the newest calls |
| `CallHistory.SplitKeyInvertsKey` | `src/blueferry/call_history.py:165-171` | `split_key` inverts `key` if and only if the timestamp holds no separator |
| `CallHistory.KeyDetermines` | `src/blueferry/call_history.py:80-100` | Two parsed records share a key exactly if direction, timestamp and number agree |
| `PathWalk.RootControlled` | `src/blueferry/bluez_setup.py:185-241` | For every file system and path the walk ends, and accepts if and only if the path is absolute, POSIX resolution reaches a regular file, and every directory, link and file on the way is root's and, unless a link, not group- or world-writable |
| `PathWalk.AcceptedPathCannotBeRedirected` | `src/blueferry/bluez_setup.py:185-241` | Nobody but root can make an accepted path resolve to anything else, or change what it resolves to |
| `PathWalk.SameResolution` | `src/blueferry/bluez_setup.py:185-241` | Accepted resolutions are the same in every file system that others than root can make of this one |
| `ReadCache.ReadAgreesWithBlueZ` | `src/blueferry/bluez_reads.py:45-82` | Over every run with in-order delivery, a property that `read` returns is what BlueZ had as of the last delivered message, is at most 10 s old, was not asked for before the last signal or invalidation, and is never older than an error |
| `ReadCache.QuietReadIsCurrent` | `src/blueferry/bluez_reads.py:45-82` | With nothing left on the connection, a value returned is BlueZ's current one |
| `ReadCache.StaleReplyIgnored` | `src/blueferry/bluez_reads.py:60-72` | A reply to a replaced request changes nothing |
| `ReadCache.BluezReadCache.Read` | `src/blueferry/bluez_reads.py:45-82` | Asks when due, and returns the cached value, its error, or nothing when it has expired |
| `Archive.OnlyAppendedExactly` | `src/blueferry/backend_operations.py:1048-1061` | Accepts two revisions exactly if conversations, key and change count agree, no row has gone, and every id since is there |
| `Archive.OnlyAppendedKeepsRows` | `src/blueferry/backend_operations.py:1048-1061` | Then every row of the first is still in the second, and every message's payload is unchanged |
| `Archive.RevisionStaysExactly` | `src/blueferry/history.py:447-461` | Of two archives on one run, the revision is the same if and only if the ids and the number of counted changes are |
| `Archive.ChangesMissedExactly` | `src/blueferry/history.py:447-461` | An operation that changes the archive leaves the revision as it is if and only if it minimizes a notification or normalizes a row's columns |
| `Archive.MissedChangesHappen` | `src/blueferry/history.py:447-461` | Both kinds of uncounted change happen, against the function's documentation |
| `Archive.RevisionFixesArchive` | `src/blueferry/history.py:447-461` | While the revision stays put, the archive holds the same ids, and events differ at most in what minimizing drops and normalizing blanks |
| `Archive.SearchReply.Finish` | `src/blueferry/backend_operations.py:1063-1102` | Empties message, contact and call results and clears their available flag exactly if what they came from has changed, and keeps the index |
| `Archive.KeptMessagesAreCurrent` | `src/blueferry/backend_operations.py:1063-1102` | Message results that are kept stand for rows that are all still there, with the same payload |
| `Deletion.DeletionsAreCurrentAndEndOnce` | `src/blueferry/backend_operations.py:1330-1404` | For every interleaving, erased rows were resolved from the archive they are erased from, at most two retries are granted, and every accepted deletion but the one running has ended in exactly one callback |
| `Deletion.SameVersionSameArchive` | `src/blueferry/backend_operations.py:1406-1410` | An unchanged conversation version means an archive unchanged but for what minimizing drops and normalizing blanks |
| `Deletion.CallbacksMakeProgress` | `src/blueferry/backend_operations.py:1330-1404` | Each callback ends the deletion or uses up a retry, except the one refresh after it |

## Left out

- D-Bus, GLib, SQLite, encryption and the settings file's format: requests, replies, failures and atomic stores stand for them.
- A settings file that cannot be read when the daemon starts reads as empty there; the model reads what was written last.
- `finish_shutdown`: its attempts are `Restore` steps like any other, its 30 s deadline is not modelled.
- `BluezRecoveryAdapter._state_from_objects`: how the controller's state is read off BlueZ's objects; states are inputs.
- Recovery without an asynchronous reader, which the daemon never uses.
- Pauses and resumes after `stop`, which itself resumes nothing.
- An error of BlueZ's while its preference is being changed is a failure of the connect, whatever its name.
- Signals lost between a start and the beginning of monitoring: restoration is then completed by the worker alone.
- The published status, reconnect snapshot and logging of the supervisor, and `LeRecoveryBudget`, whose answers are inputs.
- The drop count reported beside the stale-bond suspicion.
- Timers of the call-history sync: that they fire is an event; periodic back-off is not modelled.
- The store job's own exceptions are one failure; what `replace` stores is any list of retained and pulled calls there, and exact in `CallRepository`.
- Order within one iteration of a Python dictionary or set: the model allows any, so `UnseenCalls.Unseen` holds for every order.
- Ties among equally old announced keys at the cap: any of them may be kept.
- Announcing once when the record of announced keys overflows: a key dropped from it may be announced again.
- Idempotence of partial pulls: a name borrowed from a list that is not pulled again may be lost.
- Deletion of a damaged database, after which ids start again.
- Search permission and other errors of the path walk that depend on the process: only what is there and who owns it is modelled.
- vCard parsing, calendar arithmetic and text cleaning; timestamps and wall clocks are given values.
- Command-line tools, D-Bus service, pairing UI, profiles and plugins: presentation, or smaller versions of the same patterns.
