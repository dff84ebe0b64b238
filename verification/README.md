# What panemux keeps

A Dafny model of the parts of panemux whose correctness is not visible in any
one function: protocols between concurrent callers, streams that a receiver
folds, caches that must agree with the world, and stored state that must
survive failures. `dafny verify dfyconfig.toml` checks all of it.

Most modules have the same shape. A datatype holds what the code's fields
hold. Pure step functions say what each lock scope does. `Enabled` and `Next`
make a transition system of them, in which any step may follow any other, so a
theorem about every run is a theorem about every interleaving. `Inv` is what
each step keeps. Then a class with the same fields does what the code does,
in place and with its loops, and each method is proved to be the step.

| files | subject |
|---|---|
| `TaskEvents.dfy`, `TaskEventsReplay.dfy`, `TaskEventsWaits.dfy`, `TaskEventsEffects.dfy`, `TaskEventsModel.dfy` | the task event stream: an observed model turned into numbered frames, and the receiver that folds them |
| `Ledger.dfy`, `Relay.dfy`, `RelayProofs.dfy`, `RelayOwn.dfy`, `RelayService.dfy`, `BoardCache.dfy` | the Agent Board relay over hosts with append-only stores, and its ledger of own sends |
| `CallGate.dfy`, `Discovery.dfy`, `AutoUpdate.dfy` | the gate between calls to a tool and its updates, the cached discovery that rests on it, and the background worker |
| `Pool.dfy`, `Attach.dfy`, `AttachOrphans.dfy` | who owns a dialed connection; who owns the board's terminal sessions, and when a timer may destroy one |
| `ReplayBuffer.dfy`, `Subscriptions.dfy` | the growing ring of a session's output; its subscribers and the watcher of their number |
| `Paths.dfy`, `RemotePath.dfy` | slash-separated paths; symbolic links resolved with a work list, and containment tested on strings |
| `PaneTree.dfy`, `Workspaces.dfy` | removing panes from split trees; workspace changes that are undone exactly |
| `Scanner.dfy`, `History.dfy`, `SshConfig.dfy` | lines of a file; a crash-tolerant log; a printer and parser of SSH host blocks |
| `Text.dfy` | decimal numbers and the order of strings |

Things to know before reading the theorems:

- Goroutines are steps: one per lock scope, one per remote command or callback.
  Timers and notifications are pending steps that may run at any later time,
  in any order; a timer's callback even after it was stopped, and repeatedly.
- Pointers whose identity matters (pool entries, attaches, leases, pauses,
  workers, subscribers) are numbers, given out as the objects are made.
- I/O, clocks and foreign results are parameters: whether a dial, a probe, a
  send, a save or a session creation works, and what it returns.
- Observed tasks carry the host they were observed on, task IDs of different
  hosts differ, and a host's own wait signature neither starts with `e1-` nor
  equals the sentinel.
- The relay has one team and fixed routing; a store gives every row an ID of
  its own and only ever grows. What a message says stands for its hash.
- Nobody changes a tool's installation except an installer that holds the
  gate's pause; no task ID starts with the host terminals' key; minted session
  IDs are new.
- The encoding of history entries is a parameter with four laws; `BRACKETS` in
  `History.dfy` shows that they can be had.

Where the code and its comments part, the model follows the code:

- `Manager.Watch` is documented to leave the watcher with the current count.
  It does exactly if a subscription changed after the watcher was set
  (`Subscriptions.WatcherConverges`); a subscriber that came before it stays
  unheard (`Subscriptions.EarlySubscriberUnheard`).
- A creation registers its attach before it adds the session to the manager.
  What forgets the attach in between leaves the session with no owner:
  `reserveBoardAttach` for a second request, which takes the attach for a dead
  one, the attach's own timer, or a deletion of the session
  (`AttachOrphans.OrphanExists` runs all three). A session is orphaned exactly
  if its removal falls between its registering and its adding
  (`AttachOrphans.OrphanedByEarlyRemoval`), and nothing but these three and the
  closing of the board forgets an attach that early
  (`AttachOrphans.EarlyForgets`).
- `filterRowsAfter` says that a cursor outside the window may duplicate a
  forward. With append-only stores and unique IDs it cannot: the whole window
  is then newer than the cursor (`RelayProofs.SinceReads`); rows between may be
  lost instead.
- `AppendHost` accepts names and values that do not read back.
  `SshConfig.AppendedHostReadsBack` says exactly which do.

## Model

| member | source | states |
|---|---|---|
| `TaskEventsReplay.Replay` | internal/taskevents/model.go:149-270 | at any reachable point, a snapshot folded with every later frame is accepted frame by frame and equals any later snapshot up to StatusSince; the frames sent before stay as they were |
| `TaskEventsReplay.ReachableInv` | internal/taskevents/model.go:166-270 | every reachable model keys hosts and tasks by their own names, and a stored view has a wait ID exactly when it waits |
| `TaskEventsReplay.SnapshotMirrors` | internal/taskevents/model.go:318-329 | a snapshot holds exactly the hosts and tasks of the model |
| `TaskEventsReplay.SnapshotInOrder` | internal/taskevents/model.go:318-346 | a snapshot lists its hosts by name and its tasks by ID, ascending and each once |
| `TaskEventsReplay.LogGrows` | internal/taskevents/model.go:149-162 | publishing only appends: every run leaves the earlier frames as they were, as a prefix |
| `TaskEventsReplay.StepGood` | internal/taskevents/model.go:166-270 | after each operation the receiver that folds the new frames still mirrors the model |
| `TaskEventsReplay.ApplyHostGood` | internal/taskevents/model.go:214-270 | an observation of a host keeps the receiver in step, with or without an answer |
| `TaskEventsReplay.SyncHostsGood` | internal/taskevents/model.go:166-195 | a host leaves after its tasks and a new one comes before any of its tasks |
| `TaskEventsReplay.PutTaskMirrors` | internal/taskevents/model.go:251-267 | one task stored and published, sentinel patched, keeps store and receiver equal |
| `TaskEventsReplay.MirrorsUnique` | internal/taskevents/model.go:312-316 | two receivers that mirror one model differ in StatusSince at most |
| `TaskEventsWaits.StreamSound` | internal/taskevents/model.go:261-267 | in every run frames are numbered 1, 2, 3, ... in one epoch, and neither frame nor snapshot carries the sentinel or a wait ID outside a wait |
| `TaskEventsWaits.UnsignedIDNamesOneWait` | internal/taskevents/model.go:261-278 | two frames with one unsigned wait ID belong to the same uninterrupted wait of the same task: between them the task neither leaves that wait nor is removed |
| `TaskEventsWaits.UnsignedIDsDiffer` | internal/taskevents/model.go:261-278 | no two tasks held at once share an unsigned wait ID |
| `TaskEventsWaits.UnsignedWaitIDInjective` | internal/taskevents/model.go:276-278 | different sequence numbers or epochs give different unsigned IDs |
| `TaskEventsWaits.PutTaskTraced` | internal/taskevents/model.go:251-267 | storing a task keeps every unsigned ID in log and model the name of one wait |
| `TaskEventsWaits.PutTaskNames` | internal/taskevents/model.go:251-305 | an unsigned wait the task was in already keeps its ID; any other gets the ID made of the number of the frame that publishes it |
| `TaskEventsEffects.RepeatIsSilent` | internal/taskevents/model.go:166-270 | repeating any operation at once changes nothing and publishes nothing |
| `TaskEventsEffects.WaitKeepsID` | internal/taskevents/model.go:293-305 | an unsigned wait ID stays through any run that leaves the wait, failed collections and restarts included |
| `TaskEventsEffects.StepKeepsWait` | internal/taskevents/model.go:293-305 | one operation that leaves an unsigned wait keeps its ID |
| `TaskEventsEffects.ApplyHostEffect` | internal/taskevents/model.go:214-305 | what an observation leaves: exactly the running tasks observed, first of duplicates, each stored with the fields observed, its reason and signature only while it waits; other hosts untouched, and all of them if the host is unknown |
| `TaskEventsEffects.FirstCounts` | internal/taskevents/model.go:229-237 | a task counts exactly if it is the first running one of its ID in the observation |
| `TaskEventsEffects.SyncHostsEffect` | internal/taskevents/model.go:166-195 | afterwards the hosts are exactly the names given, kept ones unchanged, new ones pending and empty |
| `TaskEventsEffects.MarkHostsEffect` | internal/taskevents/model.go:198-209 | exactly the listed hosts that were not pending become so, without error, and all keep their tasks |
| `TaskEventsModel.EventModel.constructor` | internal/taskevents/model.go:145-147 | an empty model in its epoch |
| `TaskEventsModel.EventModel.PublishHost` | internal/taskevents/model.go:149-158 | the next number, the epoch, one frame more |
| `TaskEventsModel.EventModel.PublishTask` | internal/taskevents/model.go:149-162 | the next number, the epoch, one frame more |
| `TaskEventsModel.EventModel.SyncHosts` | internal/taskevents/model.go:166-195 | the two loops compute the specified step and return its frames |
| `TaskEventsModel.EventModel.RemoveHosts` | internal/taskevents/model.go:172-183 | listed hosts stay, others go in name order, each after its tasks |
| `TaskEventsModel.EventModel.AddHosts` | internal/taskevents/model.go:184-193 | unknown names are added pending, in order |
| `TaskEventsModel.EventModel.MarkPending` | internal/taskevents/model.go:198-209 | the loop computes the specified step and returns its frames |
| `TaskEventsModel.EventModel.ApplyHost` | internal/taskevents/model.go:214-270 | the method computes the specified step and returns its frames |
| `TaskEventsModel.EventModel.RunningTasks` | internal/taskevents/model.go:229-237 | stopped tasks are skipped and the first of duplicates counts |
| `TaskEventsModel.EventModel.RemoveGone` | internal/taskevents/model.go:238-245 | tasks no longer observed are removed in ID order |
| `TaskEventsModel.EventModel.Put` | internal/taskevents/model.go:252-267 | storing with the sentinel and patching it afterwards equals storing with the final wait ID |
| `TaskEventsModel.EventModel.Snapshot` | internal/taskevents/model.go:318-329 | the snapshot method returns the specified frame |
| `Ledger.OwnSendLedger.Record` | internal/board/ledger.go:155-163 | one more expiry of the key, at now plus the lifetime |
| `Ledger.OwnSendLedger.Consume` | internal/board/ledger.go:171-197 | the filtering loop reports whether something is live, drops the first live and every expired occurrence |
| `Ledger.OwnSendLedger.Forget` | internal/board/ledger.go:226-243 | the newest occurrence goes, and the key with its last one |
| `Ledger.RecordRefines` | internal/board/ledger.go:155-163 | per key, the slice of expiries is a pair of counts: one more live, other keys unchanged |
| `Ledger.ConsumeRefines` | internal/board/ledger.go:171-197 | matches exactly when something is live, leaves no expired one, other keys unchanged |
| `Ledger.ForgetRefines` | internal/board/ledger.go:226-243 | takes a live occurrence if there is one, else an expired one, other keys unchanged |
| `Ledger.TickRefines` | internal/board/ledger.go:171-190 | time only turns live occurrences into expired ones |
| `Ledger.ForgetUndoesRecord` | internal/board/ledger.go:206-225 | a forget right after a record restores the ledger |
| `Ledger.LivesItsTime` | internal/board/ledger.go:155-190 | a recorded occurrence can be matched exactly until its lifetime has passed |
| `Ledger.StepConserves` | internal/board/ledger.go:155-243 | every operation keeps recorded = held + matched + forgotten + collected for each key |
| `Ledger.Conservation` | internal/board/ledger.go:155-243 | over any run, matches and forgets of a key never exceed its records |
| `Relay.FilterRowsAfter` | internal/agmsg/agmsg_parse.go:87-101 | the scan for the last occurrence of the cursor returns the rows after it, all of them without one |
| `RelayProofs.SinceReads` | internal/agmsg/agmsg_parse.go:78-101 | a bounded read after the cursor is everything after it, cut only by the window: nothing twice, nothing lost if the window reaches back |
| `RelayProofs.AtMostOnce` | internal/board/relay.go:173-304 | over every interleaving no row enters the history or is forwarded twice or has two copies, and what entered is the row itself |
| `RelayProofs.CopiesStayOut` | internal/board/relay.go:249-304 | a forwarded copy is never recorded and never forwarded again |
| `RelayProofs.ExactlyOnce` | internal/board/relay.go:173-304 | if each poll reaches back to its cursor, every row a pane of its host sent and a finished poll passed is in the history, and forwarded when it crosses hosts |
| `RelayProofs.BelievedAtMostSent` | internal/board/relay.go:298-304 | rows in the name of panemux are believed at most as often as panemux recorded sending them |
| `RelayOwn.OwnSendsArrive` | internal/board/ledger.go:25-48 | if nobody else writes in the name of panemux, its sends fail only undelivered, no held occurrence expires and each poll reaches back, every own row a finished poll passed is in the history, duplicates included |
| `RelayOwn.StepVouched` | internal/board/ledger.go:155-243 | in such a run each step keeps an occurrence held for every own row still to be read and every send still to be issued |
| `RelayProofs.RunInv` | internal/board/relay.go:173-304 | every step keeps cursors, history, forwards, copies and ledger in order |
| `RelayProofs.ProcessRowEffect` | internal/board/relay.go:260-296 | one processed row: noted at most once, stores only grow, no cursor moves |
| `RelayProofs.ProcessRowStores` | internal/board/relay.go:280-295 | the only row processing can put into a store is one copy on the destination |
| `RelayProofs.EndPollMoves` | internal/board/relay.go:216-236 | the cursor moves exactly behind the last row read |
| `RelayService.PolledIsSteps` | internal/board/relay.go:173-224 | an undisturbed poll is its steps, one after the other |
| `RelayService.RelayService.PollHost` | internal/board/relay.go:173-224 | fails exactly when a lease or the read fails, and then history, ledger and cursor are as before; otherwise it is the specified poll |
| `RelayService.RelayService.AdmitDestinations` | internal/board/relay.go:197-210 | each destination is leased once before anything is touched, or the poll fails; routing through the leased ones only crosses where all routing does |
| `RelayService.RelayService.ProcessOne` | internal/board/relay.go:260-296 | the branches of row processing compute the specified step |
| `RelayService.RelayService.IsValidFrom` | internal/board/relay.go:298-304 | a sender is a pane of the host, or panemux with a ledger match that is used up |
| `RelayService.RelayService.SetCursor` | internal/board/relay.go:216-236 | the last row read becomes the cursor; an empty read changes nothing |
| `RelayService.RelayService.BroadcastTo` | internal/board/relay.go:367-408 | an unknown target fails before anything is sent; otherwise sends stop at the first failure |
| `RelayService.RelayService.SendOne` | internal/board/relay.go:394-404 | record before the send, forget when it fails |
| `RelayService.BroadcastLeavesOnePerDelivery` | internal/board/relay.go:367-408 | delivers to a prefix of the targets, all of them exactly without failure, and leaves one more ledger occurrence per delivery, duplicates included |
| `RelayService.BroadcastLands` | internal/board/relay.go:367-408 | on every host the store is what it was and then one row per send issued there, in order, with sender, pane, body and the ID of its outcome: all delivered, and a last unsure one but no lost one; with an unknown target nothing changes |
| `RelayService.DeliversUntilItCannot` | internal/board/relay.go:384-408 | with every target known, exactly the targets before the first that cannot be delivered to are delivered to |
| `RelayService.OthersLeaveLedger` | internal/board/relay.go:394-404 | a broadcast in anyone else's name leaves the ledger alone and reaches the same panes |
| `BoardCache.BoardCache.AppendMessage` | internal/board/cache.go:94-109 | rows are numbered 1, 2, 3, ... and the newest within the bound are kept |
| `BoardCache.BoardCache.MessagesSince` | internal/board/cache.go:124-134 | every later row still held, in order, from the given number on |
| `CallGate.Exclusion` | internal/hosttools/calls.go:68-95 | in every run, while a pause holds no admitted call is active and no other pause holds or drains there |
| `CallGate.HoldsUntilResumed` | internal/hosttools/calls.go:85-94 | exactly its own resume ends a holding pause: stale and repeated ones do nothing |
| `CallGate.ActiveUntilReleased` | internal/hosttools/calls.go:58-65 | exactly its own release ends a lease |
| `CallGate.Admission` | internal/hosttools/calls.go:50-57 | calls and pauses are admitted exactly when no pause holds or drains; a new pause holds at once exactly if no lease is outstanding |
| `CallGate.ClosesOnLastRelease` | internal/hosttools/calls.go:58-65 | a channel closes exactly on the release of the last active lease of its slot, and never twice |
| `CallGate.DrainEnds` | internal/hosttools/calls.go:86-93 | a draining pause may go on exactly when nothing is active |
| `CallGate.DrainsUntilTold` | internal/hosttools/calls.go:85-94 | a draining pause holds once told that it drained, is lifted exactly by its cancelled wait, which lets calls in again, and drains on through everything else |
| `CallGate.StepInv` | internal/hosttools/calls.go:35-95 | every step keeps counts, channels and pauses consistent |
| `CallGate.RunInv` | internal/hosttools/calls.go:35-95 | so does every run |
| `CallGate.CallGate.BeginCall` | internal/hosttools/calls.go:47-66 | refused while updating, else a lease, with a new channel for the first |
| `CallGate.CallGate.ReleaseCall` | internal/hosttools/calls.go:58-65 | the once-only release |
| `CallGate.CallGate.AnnouncePause` | internal/hosttools/calls.go:71-85 | announced before draining, refused while updating |
| `CallGate.CallGate.EndWait` | internal/hosttools/calls.go:86-94 | drained, or cancelled, which lifts the pause |
| `CallGate.CallGate.LiftPause` | internal/hosttools/calls.go:85 | the once-only resume |
| `CallGate.CallGate.InvalidateTool` | internal/hosttools/calls.go:123-127 | the revision grows by one, nothing else changes |
| `CallGate.CallGate.Revision` | internal/hosttools/calls.go:117-121 | the current revision of the slot |
| `CallGate.CallGate.Updating` | internal/hosttools/calls.go:99-104 | whether an update is announced |
| `Discovery.CachedIsFresh` | internal/agmsg/client_lease.go:10-29 | whenever a call has begun, a cached path or absence is what a fresh probe would find, for every interleaving of calls, probes and installers |
| `Discovery.ProbesPublish` | internal/agmsg/client.go:103-125 | a successful probe leaves the cache knowing the installation, whoever published first; a failed one leaves it alone |
| `Discovery.FindsOut` | internal/agmsg/client.go:68-125 | a call that finds nothing known learns by its lookup, its two commands and its publishing what is installed |
| `Discovery.CallHoldsLease` | internal/agmsg/client_lease.go:10-29 | an admitted call holds its lease from its beginning to its end |
| `Discovery.RemembersUntilInstalled` | internal/agmsg/client.go:68-101 | what is known stays known, unchanged, and no call probes again until an installer invalidates it |
| `Discovery.LeasedWorldIsStill` | internal/hosttools/service.go:170-208 | nothing is installed or invalidated while a call is leased |
| `Discovery.InstallsAlone` | internal/hosttools/service.go:170-208 | while an installer runs no call is under way |
| `Discovery.MoveCoherent` | internal/agmsg/client_lease.go:10-29 | every step of calls, probes, installers and the gate keeps the cache coherent |
| `Discovery.Client.BeginUse` | internal/agmsg/client_lease.go:10-29 | refused calls leave the cache; admitted ones forget it if the revision changed |
| `Discovery.Client.CachedClient` | internal/agmsg/client.go:93-101 | absence, then path, then unknown |
| `Discovery.Client.FinishProbe` | internal/agmsg/client.go:105-125 | the first discovery is published and every prober gets it |
| `Discovery.Client.FindClient` | internal/agmsg/client.go:68-90 | fails exactly when nothing is known and a command fails, and then caches nothing |
| `Discovery.InstallWhen` | internal/hosttools/service.go:170-208 | with whatever releases happen while it waits: runs exactly when the calls drained, prerequisites hold and both checks agree; raises the revision exactly then; the pause is lifted on every path |
| `Discovery.PauseCalls` | internal/hosttools/calls.go:71-95 | holds a pause exactly if no update was announced and the calls it found drain; a wait given up lifts the announcement |
| `AutoUpdate.OneWorker` | internal/hosttools/global_auto.go:64-107 | in every run, running says exactly whether a worker exists, and there is never a second |
| `AutoUpdate.StartIsFollowedByRun` | internal/hosttools/global_auto.go:64-107 | every start accepted before Close is followed by a run that begins after it, or one is still owed by a live worker |
| `AutoUpdate.OwedRunIsNear` | internal/hosttools/global_auto.go:83-107 | a worker that owes a run can always move, and each of its moves brings the run one step closer |
| `AutoUpdate.PublishedUnlessReset` | internal/hosttools/global_auto.go:109-155 | a result is published exactly if nothing reset its tool and host since the run began, and then the error recorded is that run's own |
| `AutoUpdate.ErrorIsLastReported` | internal/hosttools/global_auto.go:51-155 | in every run the error recorded is the one that the last result published since the last reset reports; neither a new worker nor the end of one clears it |
| `AutoUpdate.ResetForgetsUntilRun` | internal/hosttools/global_auto.go:51-62 | after a reset no error and no success is recorded until a run begins after it, whatever else happens |
| `AutoUpdate.SuccessIsOwn` | internal/hosttools/global_auto.go:130-131 | a recorded success belongs to the current worker, which attempted an update |
| `AutoUpdate.SuccessIsEarned` | internal/hosttools/global_auto.go:117-155 | in every run an update is recorded exactly if, among the results published since a reset or a new worker cleared the record, one attempted it and it and all after it found the tool installed |
| `AutoUpdate.NoWorkerAfterClose` | internal/hosttools/global_auto.go:64-107 | after Close no worker starts, and the count that Close waits on only falls |
| `AutoUpdate.CloseEnds` | internal/hosttools/service.go:227-233 | after Close at most four more steps of each worker are possible, whatever else happens |
| `AutoUpdate.CloseJoins` | internal/hosttools/service.go:227-233 | once the wait of Close is over every worker is gone for good |
| `AutoUpdate.StepInv` | internal/hosttools/global_auto.go:52-155 | every step keeps worker, flags and counts consistent |
| `AutoUpdate.GlobalAuto.StartOne` | internal/hosttools/global_auto.go:64-91 | closed: nothing; running: queued; else a new worker, counted before it starts |
| `AutoUpdate.StartsEach` | internal/hosttools/global_auto.go:24-38 | starting a list starts exactly its keys: an idle one gets one worker, a running one or one listed twice runs once more, and no other record changes |
| `AutoUpdate.AddedRestarts` | internal/hosttools/global_auto.go:42-62 | adding a host leaves no result of its tools, outdates those under way, and starts exactly the enabled ones, an idle one by one worker; no other record changes |
| `AutoUpdate.GlobalAuto.StartAutoUpdates` | internal/hosttools/global_auto.go:24-38 | one start per host, the local one first, if enabled |
| `AutoUpdate.GlobalAuto.AfterHostAdded` | internal/hosttools/global_auto.go:42-49 | per tool a reset, then a start if enabled |
| `AutoUpdate.GlobalAuto.ResetOne` | internal/hosttools/global_auto.go:52-62 | forgets the result and changes the revision, for known keys only |
| `AutoUpdate.GlobalAuto.ReadRevision` | internal/hosttools/global_auto.go:112-115 | a run remembers the revision it began with |
| `AutoUpdate.GlobalAuto.FinishRun` | internal/hosttools/global_auto.go:130-155 | publishes error and success unless the revision changed, keeping running and pending |
| `AutoUpdate.GlobalAuto.ContinueOrExit` | internal/hosttools/global_auto.go:94-107 | goes on exactly if a start is queued and nothing is closed |
| `AutoUpdate.GlobalAuto.Close` | internal/hosttools/service.go:227-233 | sets closed and leaves the rest to the join |
| `Pool.OwnedOnce` | internal/hostexec/pool.go:153-312 | in every run an open connection is one mapped entry's, or a finishing dial's, or has a pending close; never two of these; mapped ones are open |
| `Pool.NothingLeaks` | internal/hostexec/pool.go:153-312 | once dials and closes are done the open connections are the mapped ones; after Close there are none and no host is mapped |
| `Pool.ClosedForGood` | internal/hostexec/pool.go:173-187 | after Close the pool is closed for good and no host is ever mapped |
| `Pool.OneDialPerEntry` | internal/hostexec/pool.go:229-279 | an entry has at most one dial in flight |
| `Pool.RetryWaits` | internal/hostexec/pool.go:244-252 | the next dial of a failed entry starts at least RetryAfter later by the clock of the pool |
| `Pool.DropRedialsAtOnce` | internal/hostexec/pool.go:281-291 | after a dropped connection the next connect dials at once |
| `Pool.StepInv` | internal/hostexec/pool.go:153-312 | every step keeps entries, dials and ownership consistent |
| `Pool.FinishDialInv` | internal/hostexec/pool.go:254-279 | a finished dial keeps entries, dials and ownership consistent |
| `Pool.DialedIsServed` | internal/hostexec/pool.go:254-279 | a wanted dial that succeeded makes its connection the one of its host, open, handed out, not to be closed, and what the next connect gets |
| `Pool.KeepsConnection` | internal/hostexec/pool.go:153-312 | exactly a drop of it, a reconnect of its host, a retain without the host, and Close take a connection from its host |
| `Pool.StaysConnected` | internal/hostexec/pool.go:153-312 | through any run without those it stays open and the one every connect gets |
| `Pool.ConnectGives` | internal/hostexec/pool.go:229-252 | in every run a connect is refused exactly if the pool is closed, gets exactly the connection of its host, and dials exactly if there is neither connection nor dial nor a failure less than RetryAfter ago |
| `Pool.KeepsEntry` | internal/hostexec/pool.go:153-312 | exactly a reconnect, a retain without the host, and Close take a host out, and every other keeps its entry |
| `Pool.DetachedStartsAnew` | internal/hostexec/pool.go:153-279 | a dial under way for a host taken out is unwanted, and its next connect dials at once on an entry of its own |
| `Pool.ConnPool.constructor` | internal/hostexec/pool.go:62-70 | an empty pool with the retry default of a minute |
| `Pool.ConnPool.BeginConnect` | internal/hostexec/pool.go:229-252 | lookup and admission of a dial in one step, and what the caller finds |
| `Pool.ConnPool.EndDial` | internal/hostexec/pool.go:254-279 | the three outcomes of a dial |
| `Pool.ConnPool.DropConn` | internal/hostexec/pool.go:281-291 | forgets the connection unless it was replaced, and closes it |
| `Pool.ConnPool.DetachHosts` | internal/hostexec/pool.go:293-312 | hosts leave in any order and exactly their connections are to be closed |
| `Pool.ConnPool.Reconnect` | internal/hostexec/pool.go:153-171 | the entry leaves the pool, its connection is to be closed |
| `Pool.ConnPool.Retain` | internal/hostexec/pool.go:293-312 | exactly the hosts not named leave |
| `Pool.ConnPool.Close` | internal/hostexec/pool.go:173-187 | closed, and every host leaves |
| `Pool.ConnPool.Outcome` | internal/hostexec/pool.go:217-226 | what a waiter gets once its dial is done |
| `Attach.OneAttachPerTask` | internal/api/task_attach.go:192-242 | in every run byTask and bySession are inverse, no task has two attaches and at most one is being created |
| `Attach.PlaceIsFree` | internal/api/task_attach.go:228-236 | registering overwrites no attach |
| `Attach.ArmedWhileUnread` | internal/api/task_attach.go:244-262 | an attach holds a timer exactly when it is registered and the last count it heard in the run while registered is zero, or it heard none |
| `Attach.ServedByOwnAttach` | internal/api/task_attach.go:192-226 | a request is served exactly if a registered attach of its task, no host terminal, has a live session, and then it gets that session |
| `Attach.WaitEndsSoon` | internal/api/task_attach.go:192-226 | a request waits for a creation of its own task that can always move, at most three moves from its end whatever else happens; then the task is free and the request asks again |
| `Attach.HeardKeepsAttach` | internal/api/task_attach.go:251-278 | once a positive count was heard no timer armed before ever destroys the attach, however late or often it fires |
| `Attach.FireNeedsUnread` | internal/api/task_attach.go:264-278 | a callback destroys an attach exactly if the attach holds that timer, and then nobody was reading |
| `AttachOrphans.AskTooEarly` | internal/api/task_attach.go:192-226 | a round of a request throws away an attach of its task whose session is still to come exactly if the creation that reserved the task is adding it |
| `AttachOrphans.EarlyForgets` | internal/api/task_attach.go:91-278 | before its session has come, a registered attach is forgotten by another request for its task, its own timer, a deletion of its session or the closing board, and by nothing else |
| `AttachOrphans.AttachEnds` | internal/api/task_attach.go:91-278 | at any time a registered attach leaves exactly by a request that finds its session dead, its own timer, a deletion of its session or the closing board; unless the board closes its session is then to be removed |
| `AttachOrphans.OrphanedByEarlyRemoval` | internal/api/task_attach.go:192-242 | until the board closes, a session is left without an owner exactly if the manager was told to remove it between its registering and its adding |
| `AttachOrphans.OrphanExists` | internal/api/task_attach.go:196-278 | that happens through a second request, the timer, and a deletion |
| `Attach.StepInv` | internal/api/task_attach.go:87-278 | every step keeps maps, timers, reservations and sessions consistent |
| `Attach.BoardAttaches.IsAttach` | internal/api/task_attach.go:80-85 | whether the session is a registered attach |
| `Attach.BoardAttaches.ForgetLocked` | internal/api/task_attach.go:91-98 | timer stopped, both entries gone |
| `Attach.BoardAttaches.ForgetSession` | internal/api/task_attach.go:103-112 | only an attach of the asked kind is forgotten |
| `Attach.BoardAttaches.Reserve` | internal/api/task_attach.go:192-226 | serves a live attach, removes a dead one first, waits for another creation, or reserves; the loop ends |
| `Attach.BoardAttaches.RegisterAttach` | internal/api/task_attach.go:230-236 | both entries and a timer at once |
| `Attach.BoardAttaches.Subscribers` | internal/api/task_attach.go:244-262 | a reader stops the timer and outdates it; none starts one |
| `Attach.BoardAttaches.TimerFires` | internal/api/task_attach.go:269-278 | an outdated timer does nothing |
| `ReplayBuffer.Buffer.constructor` | internal/session/replay_buffer.go:26-28 | empty, without storage |
| `ReplayBuffer.Buffer.Reserve` | internal/session/replay_buffer.go:109-149 | grows by doubling up to the limit and keeps what is retained; a ring that grows lies at the front |
| `ReplayBuffer.Buffer.Append` | internal/session/replay_buffer.go:45-80 | retains the last bytes of everything appended, within the limit |
| `ReplayBuffer.Buffer.Replace` | internal/session/replay_buffer.go:50-60 | a chunk as large as the window replaces it |
| `ReplayBuffer.Buffer.Push` | internal/session/replay_buffer.go:69-79 | the wrapped write and the moved indices give the window |
| `ReplayBuffer.Buffer.Snapshot` | internal/session/replay_buffer.go:91-101 | the retained bytes, oldest first, are the window of everything appended |
| `ReplayBuffer.Buffer.Reset` | internal/session/replay_buffer.go:39-42 | nothing retained, storage kept |
| `ReplayBuffer.Replay` | internal/session/replay_buffer.go:45-149 | after any appends the snapshot is the last bytes of all, storage is within the limit and growth copied less than twice the limit |
| `ReplayBuffer.WindowForgets` | internal/session/replay_buffer.go:9-18 | only the window of the past matters for the window of what follows |
| `ReplayBuffer.RingGrows` | internal/session/replay_buffer.go:69-79 | writing around the end of the ring leaves the newest bytes in order |
| `Subscriptions.SnapshotThenStream` | internal/session/manager.go:185-233 | in every run, the bytes before the window, the snapshot and an undropped stream are everything published until the end of the subscription |
| `Subscriptions.LostOnlyWhenFull` | internal/session/manager.go:189-196 | a chunk reaches a subscriber exactly if it has not ended and its queue has room |
| `Subscriptions.StepMovesSub` | internal/session/manager.go:185-277 | a step gives a subscriber at most the chunk it publishes, takes at most the one it reads, and ends it only by its own unsubscribing or the end of the output |
| `Subscriptions.StepMovesActive` | internal/session/manager.go:200-277 | who is subscribed changes by a subscription to an open session, its end and the end of the output, each numbered as one change with the new count, and nothing else is |
| `Subscriptions.QueueHoldsUnread` | internal/session/manager.go:185-216 | through any run the chunks a subscriber got are those it had read, those it read meanwhile and those in its queue |
| `Subscriptions.HeardInOrder` | internal/session/manager.go:238-254 | watchers hear strictly later changes, whatever order notifications run in |
| `Subscriptions.WatcherConverges` | internal/session/manager.go:95-110 | with nothing pending, the watcher has heard something exactly if a change came after it was set, and then the last count heard is the current one |
| `Subscriptions.EarlySubscriberUnheard` | internal/session/manager.go:95-110 | a subscriber that came before the watcher stays unheard |
| `Subscriptions.StepInv` | internal/session/manager.go:185-277 | every step keeps streams, counts and notifications consistent |
| `Subscriptions.ManagedSession.PublishChunk` | internal/session/manager.go:185-198 | recorded, and queued for every subscriber with room |
| `Subscriptions.ManagedSession.SubscribeNow` | internal/session/manager.go:200-216 | the snapshot is the window of everything published; a closed session has no stream |
| `Subscriptions.ManagedSession.UnsubscribeNow` | internal/session/manager.go:218-230 | once only, with one change of the count |
| `Subscriptions.ManagedSession.CloseAll` | internal/session/manager.go:259-277 | every subscription ends, with one change of the count if there was one |
| `Subscriptions.ManagedSession.CountChanged` | internal/session/manager.go:238-240 | a change is numbered with the count and the watcher of that moment |
| `Subscriptions.ManagedSession.RunNotification` | internal/session/manager.go:241-253 | told unless there is no watcher or a later change was told |
| `Subscriptions.ManagedSession.WatchCount` | internal/session/manager.go:99-110 | a new watcher hears of changes from now on |
| `RemotePath.RealPathIsNested` | internal/preview/remote.go:417-455 | splicing link targets into the work list is the nested resolution of the standard, with the same result or the same error; both end |
| `RemotePath.WorkListIsNested` | internal/preview/remote.go:440-452 | the same from any point of a resolution |
| `RemotePath.RealPathIsReal` | internal/preview/remote.go:411-416 | every prefix of a real path exists and is no link, and resolving it again changes nothing |
| `RemotePath.FindRealPath` | internal/preview/remote.go:417-455 | the loop over strings computes it and ends by links left and components pending |
| `RemotePath.WithoutLinksItIsClean` | internal/preview/remote.go:411-455 | on a host without links a real path is the lexically cleaned path |
| `RemotePath.LinkMeansItsTarget` | internal/preview/remote.go:440-452 | a path resolves as the one with the link replaced by its target does with one link fewer left |
| `RemotePath.WithinIsContainment` | internal/preview/remote.go:471-476 | on absolute paths the prefix test is strict containment component by component |
| `RemotePath.FindRoot` | internal/preview/remote.go:458-469 | the loop returns the first of the longest roots that hold the file |
| `RemotePath.InnermostRoot` | internal/preview/remote.go:457-469 | none exactly if no root holds the file; otherwise every other holder contains it |
| `RemotePath.FindRemote` | internal/preview/remote.go:364-403 | the two loops compute the specified scan |
| `RemotePath.FindsExactly` | internal/preview/remote.go:361-403 | exactly the regular files inside a root are found, each once and under its innermost root; escaped says exactly whether a candidate leads outside all |
| `RemotePath.ReopensSameFile` | internal/preview/remote.go:496-531 | the kept path joined to the root resolves to the registered file, inside the root |
| `RemotePath.OpensExactly` | internal/preview/remote.go:496-531 | which answer opening gives: escapes exactly outside the root, not found exactly if nothing or no regular file is there, too large exactly above 10 MiB, and every other file is opened under its root |
| `RemotePath.ServesExactly` | internal/preview/remote.go:555-586 | a request below a root reads what its path leads to exactly if that is a regular file strictly inside, and fails as the resolution does otherwise |
| `RemotePath.ServesBelow` | internal/preview/remote.go:555-586 | every regular file below the root that no link hides is served under its own path |
| `RemotePath.ServesInside` | internal/preview/remote.go:555-586 | what a request below a root reads lies strictly inside it, on a path without links |
| `PaneTree.RemovePaneChildren` | internal/config/config.go:758-801 | the recursive loops compute the specified removal |
| `PaneTree.NormalizeSizes` | internal/config/config.go:788-800 | sizes brought to a sum of 100 when they have a sum |
| `PaneTree.KeepsOrder` | internal/config/config.go:758-787 | every other pane stays, in order |
| `PaneTree.RemovedIsTidy` | internal/config/config.go:764-799 | every non-empty level sums to 100 and no split below the root has fewer than two children |
| `PaneTree.KeepsRatios` | internal/config/config.go:788-799 | surviving siblings keep the ratios of their sizes |
| `PaneTree.KeepsParting` | internal/config/config.go:758-801 | any two panes that stay are parted in the same direction as before, in branches whose sizes keep their ratio, however many splits between them went |
| `PaneTree.RemovalsCompose` | internal/config/config.go:758-801 | removing some panes and then others is removing all at once |
| `PaneTree.RemovalsCommute` | internal/config/config.go:758-801 | the order of removals does not matter |
| `PaneTree.RemovalIdempotent` | internal/config/config.go:758-801 | removing a pane again changes nothing |
| `PaneTree.NothingToRemove` | internal/config/config.go:758-801 | a tidy tree without the panes to remove stays exactly as it is |
| `Workspaces.StaysGood` | internal/config/config.go:362-449 | through every sequence of answered requests IDs stay unique, the active one names an item and the layout mirrors it; the request methods below compute those answers, failed ones included |
| `Workspaces.NormalIsGood` | internal/config/config.go:304-341 | normalizing gives that exactly if IDs are unique and the active ID, if any, names an item |
| `Workspaces.NormalTwice` | internal/config/config.go:304-341 | normalizing again changes nothing |
| `Workspaces.NormalOfNone` | internal/config/config.go:312-326 | a configuration without workspaces gets a default one around its layout |
| `Workspaces.AnsweredGood` | internal/api/handler.go:379-466 | so does every single request |
| `Workspaces.DeletedGood` | internal/config/config.go:420-438 | deleting keeps IDs unique, an active item and its mirror |
| `Workspaces.NeighbourTakesOver` | internal/config/config.go:427-436 | the workspace after a deleted active one takes over, or the one before if it was the last |
| `Workspaces.NormalKeepsPanes` | internal/config/config.go:304-341 | a normalized layout is a split with a direction and the same panes in order |
| `Workspaces.RemovesOnlyThat` | internal/config/config.go:420-438 | every other workspace is found as before and in the same order, with unique IDs the deleted one is gone, and the selection only moves if it was on it |
| `Workspaces.Data.TakeSnapshot` | internal/config/snapshot.go:29-34 | a copy in storage of its own |
| `Workspaces.Data.Restore` | internal/config/snapshot.go:42-45 | exactly the state of the snapshot, in storage of its own, so it can be restored again |
| `Workspaces.Data.Normalize` | internal/config/config.go:304-341 | the specified normal form, on a copy of the items |
| `Workspaces.Data.SetActiveWorkspace` | internal/config/config.go:362-371 | selects and mirrors an existing workspace, else nothing |
| `Workspaces.Data.UpdateWorkspaceLayout` | internal/config/config.go:373-384 | changes the layout in place and mirrors it if active |
| `Workspaces.Data.UpdateActiveLayout` | internal/config/config.go:719-725 | the layout of the active workspace, or the top-level one if there is none |
| `Workspaces.Data.NextWorkspaceID` | internal/config/config.go:469-480 | the search ends with the first free number |
| `Workspaces.Data.NextPaneID` | internal/config/config.go:482-496 | the search ends with an ID no pane has |
| `Workspaces.FirstFree` | internal/config/config.go:474-479 | each number tried in vain names another of the finitely many taken |
| `Workspaces.Data.AddDefaultWorkspace` | internal/config/config.go:405-418 | a fresh active workspace with a fresh pane |
| `Workspaces.Data.AppendActive` | internal/config/config.go:414-417 | one more item, active and mirrored |
| `Workspaces.Data.RemoveWorkspace` | internal/config/config.go:420-438 | the specified removal and the removed workspace |
| `Workspaces.Data.CutItem` | internal/config/config.go:426-434 | the item goes in place and its neighbour takes over if it was active |
| `Workspaces.Data.ShiftDown` | internal/config/config.go:426 | the in-place shift drops exactly that item |
| `Workspaces.Data.RenameWorkspace` | internal/config/config.go:440-449 | only the title changes |
| `Workspaces.Data.SetTabPosition` | internal/config/config.go:451-458 | only the position changes after normalizing |
| `Workspaces.Data.SetVerticalBarWidth` | internal/config/config.go:460-467 | only the width changes after normalizing |
| `Workspaces.Data.RemovePaneFromLayout` | internal/config/config.go:748-756 | the pane leaves every workspace and the mirror follows |
| `Workspaces.PaneGoneEverywhere` | internal/config/config.go:746-756 | the pane is gone from every workspace and all other panes stay, in order |
| `Workspaces.OnlyPanesChange` | internal/config/config.go:746-756 | IDs, titles, directions, selection and settings stay |
| `Workspaces.PostAdds` | internal/api/handler.go:401-439 | a workspace added and saved: one more item, active and mirrored, after what was served before |
| `Workspaces.DeleteDeletes` | internal/api/handler.go:442-466 | a deletion saved leaves exactly the workspaces the removal left |
| `Workspaces.ActivateSelects` | internal/api/handler.go:312-329 | a selection saved changes the active ID and the mirror, nothing else |
| `Workspaces.PutLayoutReplaces` | internal/api/handler.go:497-536 | a layout saved is the one of that workspace and of no other, and mirrored if it is active |
| `Workspaces.PutActiveReplaces` | internal/api/handler.go:268-302 | a layout saved is the one of the active workspace and the top-level one |
| `Workspaces.RenameRetitles` | internal/api/handler.go:469-494 | a title saved is the one of that workspace, and nothing else changes |
| `Workspaces.SettingsSet` | internal/api/handler.go:332-370 | a position or a width saved is the new one, and nothing else changes |
| `Workspaces.DeletePaneRemoves` | internal/api/handler.go:610-635 | a pane closed and saved is taken out of the layouts and nothing else |
| `Workspaces.PostWorkspace` | internal/api/handler.go:401-439 | a failed session or save puts back exactly the state before and leaves no session of the new pane |
| `Workspaces.DeleteWorkspace` | internal/api/handler.go:442-466 | the last workspace is refused, a failed save puts back exactly the state before, and its sessions go only once it is saved |
| `Workspaces.SaveWorkspacesOrRollback` | internal/api/handler.go:379-386 | the normal form saved, or exactly the state of the snapshot |
| `Workspaces.SaveLayoutOrRollback` | internal/api/handler.go:391-398 | the layout saved as that of the active workspace, or exactly the state of the snapshot |
| `Workspaces.PutActiveWorkspace` | internal/api/handler.go:312-329 | the specified answer: a failed save puts back exactly the state before, and so undoes the selection |
| `Workspaces.PutWorkspaceLayout` | internal/api/handler.go:497-536 | the specified answer: a failed save puts back exactly the state before, and so undoes what was written into the items in place |
| `Workspaces.PutLayoutOfActive` | internal/api/handler.go:268-302 | the specified answer: a failed save puts back exactly the state before, and so undoes the layout |
| `Workspaces.PutWorkspace` | internal/api/handler.go:469-494 | the specified answer: a failed save puts back exactly the state before, and so undoes the title |
| `Workspaces.DeleteSession` | internal/api/handler.go:610-635 | the specified answer: the pane leaves the layout, and its session goes only once that is saved; a failed save puts back exactly the state before |
| `Workspaces.PutWorkspaceTabPosition` | internal/api/handler.go:332-370 | the specified answer: a failed save puts back exactly the state before, and so undoes the position |
| `Workspaces.PutWorkspaceVerticalBarWidth` | internal/api/handler.go:342-370 | the specified answer: a failed save puts back exactly the state before, and so undoes the width |
| `History.LoadAfterAppend` | internal/commandcenter/history_store.go:40-84 | for any contents, a completed append adds exactly its entries |
| `History.LinesAfterAppend` | internal/commandcenter/history_store.go:30-84 | a completed append adds exactly one ended line per entry, joined to no earlier line and leaving none empty |
| `History.LoadAfterCut` | internal/commandcenter/history_store.go:30-39 | an append cut at any byte adds exactly the entries written whole |
| `History.CrashesLoseNothingCompleted` | internal/commandcenter/history_store.go:116-157 | through any appends, cut or completed, loading returns every entry of every completed one, in order |
| `History.HistoryFile.EndsWithoutNewline` | internal/commandcenter/history_store.go:97-110 | whether the file is non-empty and unterminated |
| `History.HistoryFile.AppendHistory` | internal/commandcenter/history_store.go:40-84 | the buffer loop writes the block; no entries make no file |
| `History.HistoryFile.LoadHistory` | internal/commandcenter/history_store.go:129-157 | the scan returns the specified entries |
| `History.BracketsLawful` | internal/commandcenter/history_store.go:25-28 | the laws asked of the encoding can be had |
| `Scanner.NextLine` | internal/commandcenter/history_store.go:140-143 | one line of the scanner, without a carriage return at its end |
| `Scanner.LinesAppend` | internal/commandcenter/history_store.go:140-143 | behind whole lines a file goes on as if it began there |
| `SshConfig.AppendedHostReadsBack` | internal/sshconfig/parse.go:38-171 | for any file and any accepted host, the file with the block appended reads as the earlier hosts and exactly that host, if and only if its values are trimmed, name and hostname not empty, the name no pattern, and no proxy is set |
| `SshConfig.CommentsCountForNothing` | internal/sshconfig/parse.go:79-90 | a blank or comment line changes no host, wherever it stands between whole lines |
| `SshConfig.HostBlock` | internal/sshconfig/parse.go:38-127 | a printed block with a proper name reads as one host with trimmed values |
| `SshConfig.NamelessBlock` | internal/sshconfig/parse.go:79-90 | a block with a blank name adds no host |
| `SshConfig.PatternBlock` | internal/sshconfig/parse.go:92-97 | a block whose name is a pattern adds no host |
| `SshConfig.DirectiveReads` | internal/sshconfig/parse.go:79-90 | a printed directive reads as its key and trimmed value, or as nothing if blank |
| `SshConfig.DirectiveSets` | internal/sshconfig/parse.go:79-127 | a directive sets exactly its own field of the host it stands under, over an earlier one, and none without a value or a host |
| `SshConfig.AtoiFormats` | internal/sshconfig/parse.go:115-119 | every 64-bit port reads back as printed |
| `SshConfig.ReadHosts` | internal/sshconfig/parse.go:38-77 | the line loop computes the specified hosts |
| `SshConfig.CheckHostValues` | internal/sshconfig/parse.go:178-190 | refuses exactly hosts with a control character in a printed value |
| `SshConfig.AppendHost` | internal/sshconfig/parse.go:131-171 | refused hosts leave the file alone; others add exactly the printed block |

## Left out

- SSH, PTY, tmux, SFTP, HTTP and WebSocket transport, shell scripts and the tools they run: only that they succeed, fail or return something.
- The web frontend: the receiver of task events is the fold its frames imply.
- JSON, YAML and hashing: encoders are abstract, a body stands for its hash. YAML is not modelled at all.
- 64-bit counters: sequence numbers, revisions, generations and change numbers are unbounded.
- Rounding of pane sizes: sizes are real numbers.
- Scanner limits: every line is within the limit of the scanner that reads it.
- Invalid UTF-8 in files and paths: strings are sequences of Unicode characters.
- TaskEvents: the publisher that serializes the model and hands frames to subscribers.
- Relay: board status rows update a status cache besides being recorded; the persisted cursors, a crash between a poll and its persisting, and the choice of the backfill limit (a parameter here). Routing changes during a run.
- RelayService.RelayService.PollHost: a poll holds its leases throughout; which other calls they keep out is the gate's subject.
- Ledger: the trace it emits for each operation.
- Discovery: the separately cached participation path and the version warnings.
- CallGate: a pause whose context has already ended when it is called, which fails before it announces anything.
- AutoUpdate: what a run checks and installs (its outcome is a parameter), and the Codex hook's own automatic update.
- Pool: refusing a host that the configuration does not name, before the pool is asked; running commands and keepalives over a connection; a runner drops a connection at any moment instead. A dialer that returns a connection together with an error.
- Pool.ConnPool.DetachHosts: heap objects for entries are numbers here, so aliasing between a waiter and the map is explicit and not by reference.
- Attach: the cap on host terminals per connection, and what closes forwarded ports. CloseAll ends the registry only; the sessions are the manager's.
- AttachOrphans.OrphanedByEarlyRemoval: says nothing about sessions after the board has closed.
- Subscriptions: a reader that blocks or goes away; it may stop taking chunks at any time.
- RemotePath: which file names may be previewed at all; the host changing while one path is resolved, and the connection with its keepalive and its one retry; permission and missing-file errors are told apart, connection errors do not occur.
- RemotePath.FindRemote: the file system is fixed during a lookup, so the status of a resolved file is what the resolution saw.
- Workspaces: pane settings besides the ID, path expansion and validation of a layout, a title, a tab position or a width before it is stored; that nil and empty lists differ before normalization.
- Workspaces.PostWorkspace: the new workspace has one pane, so one session is created.
- History: files that cannot be opened, read or closed; an append that fails after writing some bytes is a cut one.
- SshConfig: files that cannot be opened or written.
- Request checks, auth tokens, version comparison, transcript parsing, log messages and error wording: single decisions and tables that would add easy facts only.
