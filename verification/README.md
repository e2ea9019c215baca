# StreamBrew: donation alerts, ingestion, restreaming and chat

This project models the concurrent parts of the StreamBrew services in Dafny and proves what they keep over
whole runs. Every component is given twice where the source updates state in place: as an imperative class or
method with the source's own fields and loops, and as a transition function on values that the method is proved
equal to. The main theorems are about the transition functions, for all inputs and all runs of any length.

`dafny verify dfyconfig.toml` checks everything.

| file | what it models |
|---|---|
| `alert_rows.dfy` | one row of the playback table, every row-level UPDATE, the life-cycle law of a row |
| `newest.dfy` | the "n newest rows" selections of the backlog trim and of retention |
| `alert_tables.dfy` | the tables and every transaction of the alert store as one atomic step |
| `alert_invariant.dfy` | the invariant of the tables and the two-state law, transaction by transaction |
| `alert_runs.dfy` | the theorems about whole runs of the alert store |
| `alert_queueing.dfy` | what batches, test alerts, replays and the trim do to the rows, in columns |
| `alert_effects.dfy` | what every transaction of a run does to every row, player, link and setting, in columns |
| `alert_store.dfy` | the store itself: tables updated in place, one method per transaction |
| `donation_order.dfy` | the order in which one provider batch is inserted |
| `supervisor.dfy` | supervisor passes, listeners, token refreshes and version-guarded writes, interleaved |
| `supervisor_effects.dfy` | what every step of a supervisor run does to row, listeners and pass, in columns |
| `listeners.dfy` | the supervisor's map of running listeners, updated in place over all users |
| `streamlabs_history.dfy` | the walk back through pages of donation history to a checkpoint |
| `checkpoints.dfy` | checkpoints under live listeners, history passes, refreshes and reconnects, interleaved |
| `checkpoint_effects.dfy` | what every step does to the connection, to holders, imports and records, in columns |
| `restream.dfy` | the restream node's session table, handler by handler in lock sections |
| `restream_effects.dfy` | what every step of the node does to paths, heartbeats and requests, in columns |
| `request_limiter.dfy` | the request scheduler with its two burst counters |
| `boosty_poller.dfy` | the Boosty chat poller |
| `socket_recovery.dfy` | position recovery of the DonationAlerts websocket |
| `money.dfy` | money amounts as decimal strings and their conversion |
| `chat_sources.dfy` | chat accounts and the 20 slots of a user's sources |
| `chat_effects.dfy` | when a save fails, what it writes, and what the other transactions change, in columns |
| `dead_letters.dfy` | dead-letter pages over a sequence with gaps |
| `base.dfy` | Option, Result, reversal |

## How to read the model

* **Transactions.** A transaction of the alert store holds the player row or the advisory queue lock while it
  works, so it is one atomic step on the tables. Its clock reading is an arbitrary integer, so the theorems also
  hold when clocks disagree; only `AlertRuns.ExpiredLeaseForGood` asks for a clock that does not go back. Where a run
  is exhibited to show that something can happen (`OpenFinishIsRepeatable`, `InterruptedTwice`), its clock does not
  go back either.
* **Assumptions on identifiers.** The queue sequence grows with every insert and is never reused; the page's
  candidate id is a fresh random identifier; speech generation and attempts start at 0; a worker reports failures
  only of speech jobs that were handed out. In `Supervisor` a deleted and recreated connection row gets a
  connection time it never had before; the column holds the milliseconds of `now()`, so two inserts for one user
  within a millisecond are outside the model (`Checkpoints` does without this assumption: its connection times are
  arbitrary). In `Restream` the control plane never grants a session id twice.
* **Two directions.** The theorems about runs say what never happens. The `...effects.dfy` files say what does: for
  every kind of value, which calls change it, under exactly which conditions on the columns, and to what; and what
  each call answers. Their conditions are written in columns, not in terms of the functions that define the steps.
* **Protocols.** Network calls, provider answers, failures and crashes are events or arbitrary arguments. What an
  answer may be is arbitrary, except where a theorem names a service that keeps a log (`Serves`, `ServerReply`).
* **History.** Fields such as `jobs`, `candidates`, `ended`, `base`, `upTo` and `handled` only record what happened;
  no step looks at them, apart from the assumptions on candidate ids and speech jobs above.

## What turned out differently from a first reading

* Repeating a finish acknowledgement is not always idle. `AlertRuns.FinishIsIdleIff`: it is idle for good, in every
  continuation whose clock does not go back, if and only if the playback had started or may not be played any more
  when it was acknowledged.
  Otherwise the row goes back to the queue (`internal/donationalert/store_player.go:424-457`), the same player may
  claim it again, and the repeated acknowledgement takes it away once more; `AlertRuns.InterruptedTwice` is such a run
  from the empty tables.
* A poller that falls behind by more than 2000 messages never catches up: its walk gives up after 20 pages and forgets
  what it read. `BoostyPoller.RoundSucceedsIff` is the exact condition, `BoostyPoller.StalledForGood` the run. The
  Streamlabs walk gives up after 1000 pages, with the same consequence: `StreamlabsHistory.WalkSucceedsIff` and
  `StreamlabsHistory.TooFarBehindForGood`.
* One dead letter that cannot be read keeps every listing from the end of the log for as long as it is stored:
  `DeadLetters.BadLettersBlock`, `DeadLetters.EndReachedIff`.
* A checkpoint may move backwards: `Checkpoints.CheckpointsMoveBack` gives a run in which a slow pass replaces a newer
  checkpoint with an older one. It stays sound (`Checkpoints.CheckpointIsSound`).
* "Recovery replays everything" has an exact condition. `SocketRecovery.RecoverySucceedsIff`: a recovery goes through
  if and only if everything after the position is a decodable publication with data whose processing does not fail.
  A publication without data is skipped when it is pushed (`internal/donationalerts/socket_session.go:574-578`) but
  fails the session when it is replayed (`socket_session.go:623-625`). `SocketRecovery.EmptyPublicationBlocks` is a run
  into that state, and by `SocketRecovery.BlockedForGood` the listener then stays at that position, disconnected, until
  the server starts a new epoch or a new listener starts without a position: after a refused access token, which ends
  `Run` (`internal/donationalerts/source.go:36-55`), or after a restart of the supervisor or the process. A new listener
  connects, but on this channel it never asks for what was missed (`SocketRecovery.NewListenerConnects`).
* A conversion that does not fit is not an error but "not convertible", and unsupported currencies are noticed before
  a malformed amount (`Money.ConversionIsNearestCent`).

## Model

| member | source | states |
|---|---|---|
| `AlertRows.RecoverNext` | internal/donationalert/store_player.go:86-121 | giving up a playing row requeues or expires it if it had not started and interrupts it if it had; it stops playing and obeys the life-cycle law |
| `AlertRows.TimeOutNext` | internal/donationalert/store_player.go:149-171 | an unacknowledged or overdue playing row becomes terminal, lawfully |
| `AlertRows.InterruptNext` | internal/donationalert/store_player.go:421-457 | an interrupted acknowledgement requeues, expires or interrupts, and the row is not playing afterwards |
| `AlertRows.CompleteNext` | internal/donationalert/store_player.go:403-420 | a completed acknowledgement of a started row obeys the law and keeps the row well formed |
| `AlertRows.SpeechNext` | internal/donationalert/store_preparation.go:27-71 | giving up, claiming and completing speech keep attempts equal to the generation, at most 3, and use up the measure |
| `AlertRows.FailSpeechNext` | internal/donationalert/store_preparation.go:137-163 | a failed attempt retries, gives up speech or expires the row; with 3 attempts it never stays preparing |
| `AlertInvariant.SetOverlayTokenInv` | internal/donationalert/store_dashboard.go:12-57 | a new overlay link keeps the invariant and the two-state law |
| `AlertInvariant.OpenPlayerInv` | internal/donationalert/store_player.go:11-80 | opening a player keeps the invariant and the two-state law |
| `AlertInvariant.HeartbeatInv` | internal/donationalert/store_player.go:173-223 | so does a heartbeat, accepted or not |
| `AlertInvariant.ReleasePlayerInv` | internal/donationalert/store_player.go:225-252 | so does a release |
| `AlertInvariant.ClaimPlaybackInv` | internal/donationalert/store_player.go:254-372 | so does a claim: what it starts playing has passed everything queued before it and belongs to the current player |
| `AlertInvariant.StartPlaybackInv` | internal/donationalert/store_player.go:374-397 | so does a start acknowledgement |
| `AlertInvariant.FinishPlaybackInv` | internal/donationalert/store_player.go:399-466 | so does a finish acknowledgement |
| `AlertInvariant.StreamStateInv` | internal/donationalert/store_dashboard.go:119-174 | so does reading the stream state, which recovers and times out rows |
| `AlertInvariant.SkipInv` | internal/donationalert/store_queue.go:284-324 | so does a skip |
| `AlertInvariant.TrimKeepsNewest` | internal/donationalert/store_queue.go:115-133 | what waits after the trim is exactly the hundred newest of what waited before |
| `AlertInvariant.CreateTestInv` | internal/donationalert/store_queue.go:135-195 | a test alert keeps the invariant, in particular the bound of 101 live rows per user |
| `AlertInvariant.ReplayInv` | internal/donationalert/store_queue.go:197-272 | so does a replay, whether or not the playback can be replayed |
| `AlertInvariant.EnqueueIncomingInv` | internal/donationalert/store_queue.go:34-102 | queueing a donation keeps the invariant, only appends unstarted rows and only ends old ones |
| `AlertInvariant.InsertDonationsInv` | internal/donations/store.go:132-167 | a whole batch keeps the invariant and the two-state law |
| `AlertInvariant.ClaimPreparationInv` | internal/donationalert/store_preparation.go:13-94 | handing out a speech job keeps the invariant, sweeping and claiming |
| `AlertInvariant.CompletePreparationInv` | internal/donationalert/store_preparation.go:96-135 | so does a completed job |
| `AlertInvariant.FailPreparationInv` | internal/donationalert/store_preparation.go:137-165 | so does any number of failure reports of jobs that were handed out |
| `AlertInvariant.PruneRetentionInv` | internal/donationalert/retention.go:15-34 | deleting old finished rows keeps the invariant and deletes only finished rows |
| `AlertRuns.StepInv` | internal/donationalert/store_queue.go:104-113 | every transaction keeps the invariant and obeys the two-state law |
| `AlertRuns.ClaimedPassesForGood` | internal/donationalert/store_player.go:306-356 | FIFO: once a playback has been claimed, everything of its user queued before it is finished from then on |
| `AlertRuns.StartsInQueueOrder` | internal/donationalert/store_player.go:374-397 | first starts of one user happen in strictly increasing queue sequence over any run |
| `AlertRuns.StartedWasPlaying` | internal/donationalert/store_player.go:380-391 | nothing starts without having been claimed, and no row appears already started |
| `AlertRuns.OnePlayingAndHeld` | internal/donationalert/store_player.go:48-77 | at every moment a user has at most one playing row, assigned to exactly the current player and generation |
| `AlertRuns.StartedForGood` | internal/donationalert/store_player.go:82-121 | a started row keeps its start and its player for good and is never queued again; finished rows are never written again; completed or interrupted implies started |
| `AlertRuns.DeletedForGood` | internal/donationalert/retention.go:15-34 | what is gone was finished when it went, and its sequence stays unused |
| `AlertRuns.FinishIsIdempotent` | internal/donationalert/store_player.go:403-457 | an acknowledgement repeated before anything else happens changes nothing, whatever the clock says; after a started playback the opposite one changes nothing either |
| `AlertRuns.FinishStaysFinal` | internal/donationalert/store_player.go:403-457 | over runs: once an acknowledgement has finished its playback, it and the opposite one change nothing at any later moment; a repetition for a started playback is accepted while the row is there and the lease is live |
| `AlertRuns.OpenFinishIsRepeatable` | internal/donationalert/store_player.go:424-457 | every run that ends in acknowledging an unstarted, unexpired playback can be continued, with a clock that does not go back, so that the repeated acknowledgement is accepted and changes the tables |
| `AlertRuns.FinishIsIdleIff` | internal/donationalert/store_player.go:403-457 | repeating an accepted acknowledgement is idle in every continuation whose clock does not go back if and only if the playback had started or was past its expiry |
| `AlertRuns.InterruptedTwice` | internal/donationalert/store_player.go:424-457 | a run from the empty tables, its clock never going back, in which the same interruption counts twice |
| `AlertRuns.StartIsIdempotent` | internal/donationalert/store_player.go:374-397 | repeating a start acknowledgement keeps the first start time |
| `AlertRuns.DeadForGood` | internal/donationalert/store_player.go:40-76 | a player pair that is offered and not current never becomes current again |
| `AlertRuns.SupersededIsDead` | internal/donationalert/store_player.go:48-77 | a pair that stops being current is such a pair |
| `AlertRuns.StandbyIsDead` | internal/donationalert/store_player.go:40-60 | so is a pair that was only ever answered with standby |
| `AlertRuns.DeadCallsChangeNothing` | internal/donationalert/store_player.go:173-252 | every call that carries such a pair, now or later, changes nothing at all |
| `AlertRuns.ExpiredLeaseForGood` | internal/donationalert/store_player.go:178-215 | with a clock that does not go back, an expired lease is never renewed |
| `AlertRuns.NothingOrphaned` | internal/donationalert/store_dashboard.go:36-48 | rotating the link and taking over a lease leave nothing playing for the user |
| `AlertRuns.NothingOrphanedByThePlayer` | internal/donationalert/store_player.go:195-250 | neither do release, a refused, inactive or hidden heartbeat, or a claim without lease |
| `AlertRuns.ClaimTakesTheHead` | internal/donationalert/store_player.go:306-356 | a ready player's claim takes a row if and only if that row is the head of the queue, prepared and available, and nothing else keeps playing |
| `AlertRuns.CandidatesAgree` | internal/donationalert/store_player.go:306-345 | the claim's query never has two answers |
| `AlertRuns.BacklogBound` | internal/donationalert/store_player.go:95-118 | at every moment at most 101 of a user's alerts wait or play, and at most one plays |
| `AlertRuns.TrimDropsOldest` | internal/donationalert/store_queue.go:115-133 | after a trim at most 100 wait, all newer than everything dropped; with no overflow it does nothing |
| `AlertRuns.PruneKeepsExactly` | internal/donationalert/retention.go:15-34 | of a user's finished rows exactly those remain that are among the 20 newest and not too old, unchanged; every live row remains |
| `AlertRuns.PruneKeepsNewest` | internal/donationalert/retention.go:15-34 | so each user keeps at most 20 finished rows |
| `AlertRuns.OneAlertPerDonation` | internal/donationalert/store_queue.go:34-102 | over any run a donation has at most one incoming playback, even after that one is deleted |
| `AlertRuns.OneDonationPerKey` | internal/donations/store.go:137-155 | a provider's donation id names one stored donation for good |
| `AlertRuns.InitialImportNeverAlerts` | internal/donations/store.go:155-166 | a donation first stored by an initial import never alerts, however often it is read again |
| `AlertRuns.BatchAlertsInOrder` | internal/donations/store.go:132-178 | within one batch the alert of the donation that comes first, by time and then by id, is queued first; an id that the batch names several times counts where it first comes |
| `AlertRuns.SpeechAttempts` | internal/donationalert/store_preparation.go:27-71 | at most three attempts; three and still preparing means leased; a matching generation means the job knows the row's attempts |
| `AlertRuns.SupersededJobIsPowerless` | internal/donationalert/store_preparation.go:96-163 | once a row is claimed again, the old job's reports change no row, ever |
| `AlertRuns.SpeechIsBounded` | internal/donationalert/store_preparation.go:13-165 | while a row stays preparing it is handed out and taken back at most six times in all |
| `AlertRuns.PreparingAllAlong` | internal/donationalert/store_preparation.go:13-165 | no row comes back to preparation |
| `AlertRuns.ExpiryEndsPreparation` | internal/donationalert/store_preparation.go:17-26 | a worker's claim at or after a row's expiry ends its preparation for good |
| `AlertRuns.FourTurnsEndPreparation` | internal/donationalert/store_preparation.go:27-71 | so does the fourth claim at which it is the oldest row that could be taken, whatever happens in between |
| `AlertRuns.IdleWorkerMeansLeased` | internal/donationalert/store_preparation.go:27-71 | when a worker finds nothing to do, whatever still prepares is leased or not available yet |
| `AlertEffects.LiveRowNext` | internal/donationalert/store_player.go:11-466 | at every step of every run, what becomes of a playing or waiting row: which call dislodges, times out, starts, completes, interrupts, skips, claims, expires, prepares or drops it, under exactly which conditions, with every column of the result; otherwise it stays |
| `AlertEffects.PlaysIff` | internal/donationalert/store_player.go:306-356 | over runs a row starts to play if and only if the player of its user, under a live lease, active, visible and not paused, asks for work while nothing else plays and the row is the first waiting one that has not expired, prepared and available |
| `AlertEffects.CompletesIff` | internal/donationalert/store_player.go:399-420 | over runs a playing row is completed if and only if its player acknowledges that under a live lease after its start, and it finishes at that moment |
| `AlertEffects.FinishedRowNext` | internal/donationalert/retention.go:15-34 | over runs a finished row never changes, and goes exactly when retention runs and it finished more than 30 days ago or twenty later ones have finished |
| `AlertEffects.PlayersNext` | internal/donationalert/store_player.go:11-252 | over runs a user's player is removed, replaced with the next generation or renewed exactly by the calls and under the conditions listed |
| `AlertEffects.LeaseProtects` | internal/donationalert/store_player.go:41-48 | over runs a player whose lease is live loses its place only by a new link or its own release |
| `AlertEffects.OpenAnswers` | internal/donationalert/store_player.go:29-80 | a page stands by if and only if another one holds a live lease, and then nothing changes; otherwise it becomes the player with the next generation |
| `AlertEffects.PlayerAnswers` | internal/donationalert/store_player.go:374-466 | a heartbeat, a start and either finish are accepted if and only if the caller is the current player under a live lease and the row is its own in a fitting status |
| `AlertEffects.ClaimAnswers` | internal/donationalert/store_player.go:254-372 | a claim and a look at the state say that the lease is lost exactly when it is, name the row taken or playing, and the pause flag |
| `AlertEffects.SettingsAndLinksNext` | internal/donationalert/store_dashboard.go:12-57 | over runs settings and links change exactly by the calls listed, to the values listed |
| `AlertEffects.TokenLinks` | internal/donationalert/store_dashboard.go:12-57 | a new link is refused if and only if another user holds the token |
| `AlertEffects.NewRowsNext` | internal/donationalert/store_queue.go:34-272 | over runs a row appears only as a test alert, as a granted replay or as the alert of a donation that the batch stores first, each with all its columns |
| `AlertEffects.DonationAlertsIff` | internal/donationalert/store_queue.go:34-102 | over runs a donation that a batch stores first gets an alert if and only if the batch is no initial import, alerts are on for the user and the source, and it is young enough; the alert has the columns listed, unless a hundred later ones have pushed it out |
| `AlertEffects.DonationsNext` | internal/donations/store.go:132-167 | over runs a batch stores exactly its donations, and no other call stores any |
| `AlertEffects.TestQueues` | internal/donationalert/store_queue.go:135-195 | a test alert queues exactly one row with the columns listed |
| `AlertEffects.GrantedReplayQueues` | internal/donationalert/store_queue.go:197-272 | a replay is granted exactly for an own finished row with a donation, and then queues exactly one row with the columns listed |
| `AlertEffects.WorkerAnswers` | internal/donationalert/store_preparation.go:27-94 | a worker gets exactly the oldest row it may take, with its next generation and try |
| `AlertEffects.ReportAnswers` | internal/donationalert/store_preparation.go:96-165 | a report is accepted exactly while the row still prepares under that job's generation; a skip names the playing row or else the oldest waiting one |
| `AlertQueueing.BatchOld` | internal/donationalert/store_queue.go:115-133 | a batch drops an old row of its user exactly when the new rows and those waiting behind it are a hundred or more, and only if it stored something new |
| `AlertQueueing.BatchAlerts` | internal/donationalert/store_queue.go:34-102 | every wanted donation of a batch has its alert afterwards, with all its columns |
| `AlertQueueing.BatchQueues` | internal/donations/store.go:132-167 | every row a batch queues is the alert of one of its donations |
| `AlertQueueing.BatchStores` | internal/donations/store.go:132-155 | a batch stores all its donations and nothing else |
| `AlertStore.Store.SetPaused` | internal/donationalert/store.go:191-203 | pauses or resumes, creating the settings if needed |
| `AlertStore.Store.UpdateSettings` | internal/donationalert/store.go:114-160 | stores the guards' settings and keeps the pause flag |
| `AlertStore.Store.SetOverlayToken` | internal/donationalert/store_dashboard.go:12-57 | installs a link, or refuses one that another user holds; recovers and removes the old player |
| `AlertStore.Store.OpenPlayer` | internal/donationalert/store_player.go:11-80 | invalid, standby or active, with the next generation and the old player's row recovered |
| `AlertStore.Store.Heartbeat` | internal/donationalert/store_player.go:173-223 | renews the current player's live lease; recovers its row when it is late, inactive or hidden |
| `AlertStore.Store.ReleasePlayer` | internal/donationalert/store_player.go:225-252 | recovers the row and removes the player, only for the current pair |
| `AlertStore.Store.ClaimPlayback` | internal/donationalert/store_player.go:254-372 | times out, expires and claims in one transaction |
| `AlertStore.Store.StartPlayback` | internal/donationalert/store_player.go:374-397 | records the first start of the row assigned to the current, unexpired pair |
| `AlertStore.Store.FinishPlayback` | internal/donationalert/store_player.go:399-466 | finishes the row assigned to the current, unexpired pair |
| `AlertStore.Store.StreamState` | internal/donationalert/store_dashboard.go:119-174 | recovers or times out, then reports the assigned row |
| `AlertStore.Store.EnqueueIncoming` | internal/donationalert/store_queue.go:34-102 | queues an enabled, fresh, new donation and trims |
| `AlertStore.Store.InsertDonations` | internal/donations/store.go:132-178 | inserts the sorted batch in a loop, skipping known donations |
| `AlertStore.Store.CreateTest` | internal/donationalert/store_queue.go:135-195 | queues a test alert and trims |
| `AlertStore.Store.Replay` | internal/donationalert/store_queue.go:197-272 | queues a copy of a finished donation alert, or refuses |
| `AlertStore.Store.Skip` | internal/donationalert/store_queue.go:284-324 | skips the playing row, or else the oldest waiting one |
| `AlertStore.Store.ClaimPreparation` | internal/donationalert/store_preparation.go:13-94 | expires, gives up exhausted rows, and hands out the oldest claimable job |
| `AlertStore.Store.CompletePreparation` | internal/donationalert/store_preparation.go:96-135 | queues the row if it still belongs to the job's claim |
| `AlertStore.Store.FailPreparation` | internal/donationalert/store_preparation.go:137-165 | retries, gives up or expires the row if it still belongs to the job's claim |
| `AlertStore.Store.PruneRetention` | internal/donationalert/retention.go:15-34 | deletes finished rows that are old or not among the newest |
| `DonationOrder.OrderedSorts` | internal/donations/store.go:169-178 | the insertion order is a permutation of the batch, sorted by time and then by identifier |
| `DonationOrder.OldestFirst` | internal/donations/store.go:169-178 | a batch is inserted from the oldest donation on, and of two at the same time the lexicographically smaller identifier comes first |
| `Newest.NewestUnique` | internal/donationalert/store_queue.go:115-133 | the n newest rows are the only set of that size above all the others |
| `Supervisor.StepInv` | internal/donations/application.go:307-421 | every step of pass, listener, user and history worker keeps the invariant |
| `Supervisor.OwnRefreshNeverCancels` | internal/donations/application.go:307-322 | whenever a pass cancels a listener, the row was deleted, saved by a connect or left the connected status since the snapshot that listener started from was read |
| `Supervisor.KeptListenerIsNotStale` | internal/donations/application.go:220-228 | a listener a pass keeps started from or wrote the row that was read, or has ended, or has published a version somebody else saved, and then its own save fails and ends it |
| `Supervisor.ReplacementIsSeen` | internal/donations/application.go:307-322 | when a pass reads its snapshot after the running listener has lost the row, then after its comparison no listener runs, or that one has ended, or it is in a refresh whose save fails and ends it |
| `Supervisor.PowerlessForGood` | internal/donations/store.go:101-107 | a listener that has lost the row never owns it again |
| `Supervisor.StaleWritesFail` | internal/donations/store.go:109-251 | from then on each guarded write leaves the row as it is and ends the listener |
| `Supervisor.OneWriter` | internal/donations/application.go:353-421 | at every moment at most one live listener can write, and it is the supervised one |
| `Supervisor.HistoryIsTrue` | internal/donations/application.go:403-418 | a listener or pass is marked disturbed if and only if a step of the run since its snapshot deleted, re-saved or invalidated the row |
| `SupervisorEffects.RowStep` | internal/donations/store.go:75-251 | over runs the connection row changes exactly by the steps and under the guards listed, to the values listed |
| `SupervisorEffects.ListenerStep` | internal/donations/application.go:353-421 | over runs a listener's versions and phase change exactly by its own steps; a guarded write that does not match the row ends it |
| `SupervisorEffects.RunningStep` | internal/donations/application.go:289-347 | over runs a listener stops running exactly when a comparison finds it outdated or a completed one is removed, and starts exactly when a pass holds a row and none runs, serving that row |
| `SupervisorEffects.PassStep` | internal/donations/application.go:307-347 | over runs a pass holds the row as it was read, connected or none, and goes through its stages |
| `SupervisorEffects.OwnRefreshSucceeds` | internal/donations/application.go:403-419 | a listener that publishes while it owns the row raises its version by one, and goes on as the running owner under exactly that version |
| `SupervisorEffects.OwnWritesCount` | internal/donations/store.go:109-251 | an owner's save leaves it listening; its loss of authorization, or its error, takes the row out of connected and ends it |
| `Listeners.Integration.CancelReplaced` | internal/donations/application.go:316-322 | removes exactly the listeners whose row is gone or replaced, and cancels exactly those |
| `Listeners.Integration.StartMissing` | internal/donations/application.go:323-345 | every row's user without a listener gets a new one serving that row; nobody else's changes |
| `Listeners.Integration.RefreshListeners` | internal/donations/application.go:307-347 | afterwards exactly the connected users have a listener, kept if and only if the row does not replace it |
| `Listeners.Integration.Complete` | internal/donations/application.go:289-297 | a completed listener leaves the map only if it still is the user's listener |
| `StreamlabsHistory.TakePage` | internal/streamlabs/client.go:207-216 | the valid and the invalid rows in front of the checkpoint, and whether it was found |
| `StreamlabsHistory.HistoryMeans` | internal/streamlabs/client.go:194-234 | a history holds each row in front of the checkpoint once, valid or rejected; its checkpoint is the newest row, and without rows the old one |
| `StreamlabsHistory.GetDonations` | internal/streamlabs/client.go:167-227 | for arbitrary answers: stops at the first page that cannot be followed, with the history of exactly the rows read or the error that page calls for |
| `StreamlabsHistory.WalkIsASnapshot` | internal/streamlabs/client.go:174-225 | on a donation log, however pages fall and whatever is added meanwhile, a successful walk is the history of the log at the first request |
| `StreamlabsHistory.OnlyRequestsFail` | internal/streamlabs/client.go:200-226 | on a log whose rows all have identifiers a walk fails only for a failed request or the page limit |
| `StreamlabsHistory.WalkSucceedsIff` | internal/streamlabs/client.go:174-226 | with full pages and no failing request a walk succeeds if and only if fewer than 100000 rows precede the checkpoint, or, without one, at most 99900 rows exist; otherwise it fails with the page limit |
| `StreamlabsHistory.TooFarBehindForGood` | internal/streamlabs/client.go:174-226 | on a growing log a checkpoint that is further behind makes every later walk from it fail, however the pages of at most 100 rows fall |
| `StreamlabsHistory.WalkAnswers` | internal/streamlabs/client.go:174-226 | for arbitrary answers, page by page: at which page a walk ends and with which result or error |
| `Checkpoints.StepInv` | internal/donations/store.go:75-130 | every step of listeners, passes, refreshes, connects and disconnects keeps all checkpoints and batches sound |
| `Checkpoints.CheckpointIsSound` | internal/donations/provider.go:281-303 | in every reachable state the stored checkpoint names a row, and it and all older rows are stored or reported as rejected, even after an older checkpoint has replaced a newer one |
| `Checkpoints.NextWalkBringsTheRest` | internal/streamlabs/client.go:207-216 | a walk from the stored checkpoint brings every row that is not handled yet |
| `Checkpoints.SavedPassIsComplete` | internal/donations/application.go:507-541 | whatever was in the log when a pass read it is handled for good once that pass has saved |
| `Checkpoints.ConnectImportsEverything` | internal/donations/application.go:193-208 | the same for the import of a connect |
| `Checkpoints.CheckpointsMoveBack` | internal/donations/store.go:109-130 | a run in which an older checkpoint replaces a newer one |
| `CheckpointEffects.StateNext` | internal/donations/store.go:75-130 | over runs the connection row, each listener or pass and each import change exactly by the steps and under the guards listed, to the values listed |
| `CheckpointEffects.RecordsAfter` | internal/donations/application.go:507-541 | a donation is stored exactly with a saved batch that brings it, a rejected row is reported whether or not the batch is saved |
| `CheckpointEffects.SavedPassMovesCheckpoint` | internal/donations/store.go:109-130 | a pass that saves with the row still its own moves the checkpoint to the newest row it has read and goes on from there; otherwise it changes nothing and ends |
| `Restream.StepInv` | internal/restream/http.go:52-186 | every section of every request keeps the invariant |
| `Restream.AcceptNeverOverwrites` | internal/restream/http.go:72-110 | storing an accepted session finds its path reserved and empty |
| `Restream.OneAuthorizationPerPath` | internal/restream/http.go:72-86 | two publishers are never inside authorization for one path |
| `Restream.EndedOnceAndGone` | internal/restream/http.go:164-182 | the node ends a session at most once, and an ended session is on no path from then on |
| `Restream.OneHeartbeatPerPath` | internal/restream/http.go:137-155 | a path has at most one uncancelled heartbeat context, the one its session stores |
| `Restream.NoSessionIsLost` | internal/restream/http.go:239-264 | every session ever granted is on a path, in a request's hands, or ended, and never two of these |
| `Restream.QuiescentNodeKeepsNothing` | internal/restream/http.go:159-186 | with no request in flight, a granted session is on a path if and only if it has not been ended |
| `RestreamEffects.NodeNext` | internal/restream/http.go:52-186 | over runs a path's session, its reservation, the live heartbeats and every request change exactly by the sections and under the conditions listed |
| `RestreamEffects.EndedAfter` | internal/restream/http.go:98-105 | a session is ended exactly by the request that carries it |
| `RestreamEffects.SectionAnswers` | internal/restream/http.go:72-180 | what each lock section answers, in columns of the table |
| `Restream.Handler.EnterAuthorize` | internal/restream/http.go:72-82 | reserves a path without session or reservation |
| `Restream.Handler.StoreAccepted` | internal/restream/http.go:107-109 | stores the session without heartbeat |
| `Restream.Handler.LeaveAuthorize` | internal/restream/http.go:83-87 | drops the reservation |
| `Restream.Handler.OfflineSection` | internal/restream/http.go:164-172 | takes the path's session and cancels its heartbeat |
| `Restream.Handler.AbandonSection` | internal/restream/http.go:247-261 | takes it only if it still is the failed one |
| `Restream.Handler.HeartbeatSection` | internal/restream/http.go:137-154 | replaces the heartbeat of a session that still is the configured one |
| `RequestLimiter.RegularShare` | internal/donationalerts/request_limiter.go:69-146 | while regular requests wait, the others get at most the measure plus 24 grants for every regular one |
| `RequestLimiter.RegularWithin25Grants` | internal/donationalerts/request_limiter.go:69-146 | a waiting regular class is served within 25 grants |
| `RequestLimiter.CriticalShare` | internal/donationalerts/request_limiter.go:96-125 | at most four critical grants precede a history grant while history waits |
| `RequestLimiter.HistoryWithin5Grants` | internal/donationalerts/request_limiter.go:96-125 | a waiting history class is served within five grants |
| `RequestLimiter.RecoveryPreference` | internal/donationalerts/request_limiter.go:127-146 | with both waiting, regular history goes first exactly after four recovery grants |
| `RequestLimiter.BoundIsReached` | internal/donationalerts/request_limiter.go:69-146 | the bound is tight: with everybody waiting, regular waits out exactly its measure |
| `RequestLimiter.CancelledRequestsDoNotCount` | internal/donationalerts/request_limiter.go:74-79 | cancelled requests take no grant and shift nobody's turn |
| `RequestLimiter.GrantsWhoWaits` | internal/donationalerts/request_limiter.go:96-146 | a grant goes to a class found waiting, or to the one that ends the final wait; nobody found at the last look is passed over for somebody absent |
| `RequestLimiter.TakeHistory` | internal/donationalerts/request_limiter.go:127-146 | the choice between recovery and regular history |
| `RequestLimiter.Take` | internal/donationalerts/request_limiter.go:96-125 | the choice between the classes |
| `RequestLimiter.Run` | internal/donationalerts/request_limiter.go:69-94 | the grants of any finite stretch of the loop |
| `BoostyPoller.Stream.Poll` | internal/chat/provider_boosty.go:324-359 | for arbitrary pages: the messages before the first that stops the walk, the newest identifier, or the error |
| `BoostyPoller.Stream.PollOnce` | internal/chat/provider_boosty.go:270-300 | one round: a failed walk changes nothing, a successful one handles its messages from the oldest |
| `BoostyPoller.NoMessageTwice` | internal/chat/provider_boosty.go:270-288 | for arbitrary pages, if an identifier has one creation time, no message is published twice |
| `BoostyPoller.FirstPageIsNeverPublished` | internal/chat/provider_boosty.go:274-294 | nothing on the first page read is ever published |
| `BoostyPoller.RoundCatchesUp` | internal/chat/provider_boosty.go:270-301 | on a chat log a successful round publishes all that was added since the last one, in order |
| `BoostyPoller.EverythingOnceInOrder` | internal/chat/provider_boosty.go:229-321 | after any rounds, failed ones included, exactly the publishable messages added after the first successful round are published, once, in log order |
| `BoostyPoller.RoundSucceedsIff` | internal/chat/provider_boosty.go:324-359 | with full pages and no failing request a round succeeds if and only if at most 2000 rows are to be seen |
| `BoostyPoller.TooFarBehind` | internal/chat/provider_boosty.go:328-358 | with pages of at most 100 messages a poller further behind than that fails, however the pages fall |
| `BoostyPoller.StalledForGood` | internal/chat/provider_boosty.go:264-358 | and so does every later round |
| `BoostyPoller.PollAnswers` | internal/chat/provider_boosty.go:324-359 | for arbitrary answers, page by page: at which page a walk ends and with which result or error |
| `BoostyPoller.PublishedMeans` | internal/chat/provider_boosty.go:270-288 | published are exactly the messages with readable author and text, an identifier and a creation time |
| `SocketRecovery.ReversePublications` | internal/donationalerts/socket_session.go:540-544 | reverses the array in place |
| `SocketRecovery.Session.AdvancePosition` | internal/donationalerts/socket_session.go:641-647 | moves a valid position to the publication |
| `SocketRecovery.Session.EmitPublication` | internal/donationalerts/socket_session.go:622-639 | advances exactly when the publication is handled |
| `SocketRecovery.Session.EmitAll` | internal/donationalerts/socket_session.go:356-360 | handles the batch up to the first failure |
| `SocketRecovery.Session.HandleReply` | internal/donationalerts/socket_session.go:312-361 | the whole treatment of a subscribe reply, every early exit included |
| `SocketRecovery.Session.HandleMessage` | internal/donationalerts/socket_session.go:546-620 | the treatment of a push |
| `SocketRecovery.DrainMeans` | internal/donationalerts/socket_session.go:356-360 | a batch stops exactly at the first publication that is not handled, with the position of the last one that was |
| `SocketRecovery.ReplyPosition` | internal/donationalerts/socket_session.go:312-361 | at every exit from a reply the position is that of the last publication handled, the start, or the drained baseline |
| `SocketRecovery.ReplyAnswers` | internal/donationalerts/socket_session.go:312-361 | a reply goes through exactly when it makes sense, its expiry too, and every publication in it has data and does not fail; when it counts as a subscription and as progress |
| `SocketRecovery.PushAnswers` | internal/donationalerts/socket_session.go:546-639 | a push ends the session exactly when it cannot be read, says so, or its donation fails; what moves the position, what is handled and what counts as progress |
| `SocketRecovery.PushConnectedIff` | internal/donationalerts/socket_session.go:574-579 | while connected, only a donation whose processing fails disconnects by a push, and everything decodable moves the position |
| `SocketRecovery.StepInv` | internal/donationalerts/source.go:36-72 | every step of server and sessions keeps the invariant |
| `SocketRecovery.HandledUpToPosition` | internal/donationalerts/socket_session.go:312-361 | over any failures, reconnects and restarts of the listener, what was handled since the log was last entered without recovery is exactly the donation events up to the position, each once and in order |
| `SocketRecovery.NothingIsMissing` | internal/donationalerts/socket_session.go:546-579 | a live subscription that was served everything has handled everything |
| `SocketRecovery.RecoverySucceedsIff` | internal/donationalerts/socket_session.go:622-639 | a recovery goes through if and only if everything after the position can be handled |
| `SocketRecovery.BlockedForGood` | internal/donationalerts/socket_session.go:312-361 | in front of a publication that is no donation event a disconnected client keeps its position, handles nothing and stays disconnected, through everything but a new epoch or a new listener |
| `SocketRecovery.BlockedStep` | internal/donationalerts/socket_session.go:312-361 | exactly these two events end that state |
| `SocketRecovery.NewListenerConnects` | internal/donationalerts/source.go:36-55 | a listener that starts without a position connects at its first subscription, at the end of the log, without handling anything before it |
| `SocketRecovery.EmptyPublicationBlocks` | internal/donationalerts/socket_session.go:622-625 | a run into that state |
| `Money.MatchIffPrint` | internal/money/money.go:10-13 | a string matches an amount pattern exactly when it is the print of fitting parts |
| `Money.DecimalReads` | internal/money/money.go:89-93 | printing and reading a number are inverse, with as many digits as it needs |
| `Money.NormalizeIsCanonical` | internal/money/money.go:22-28 | a normalised amount keeps its value, has two decimals and normalises to itself; failure exactly without a match |
| `Money.DonationAmountIsCanonical` | internal/money/money.go:32-42 | a normalised donation amount keeps its value and normalises to itself; failure exactly without a match after trimming |
| `Money.NormalizedParts` | internal/money/money.go:70-82 | parsing a normalised amount reads back its value |
| `Money.RoundDivIsRounded` | internal/money/money.go:84-87 | the division rounds to the nearest integer, halves up |
| `Money.FormatCentsReads` | internal/money/money.go:89-93 | printed hundredths read back as the same number and match exactly below 18 whole digits |
| `Money.ConversionIsNearestCent` | internal/money/money.go:49-68 | the result is the half-up nearest hundredth of the exact value and a fixed point of Normalize; there is none exactly when more than 18 whole digits are needed |
| `Money.ConversionIsMonotone` | internal/money/money.go:49-68 | more never converts to less, and whatever is below a convertible amount is convertible |
| `ChatSources.SlotFreeIff` | internal/chat/store.go:406-422 | a user has at most 20 sources, and a free slot exactly with fewer |
| `ChatSources.CapacityIsSlot` | internal/chat/store.go:368-422 | the capacity check is true exactly when saving the account on the same tables finds a slot |
| `ChatSources.SaveKeepsSlots` | internal/chat/store.go:387-443 | saving places one source on a slot of its own, the lowest free one if it is new, and moves no other |
| `ChatSources.SlotsStayDistinct` | internal/chat/store.go:404-443 | over any run each source holds its own slot of 0 to 19 and no user has more than 20 |
| `ChatEffects.SaveFailsIff` | internal/chat/store.go:387-480 | a save fails exactly for an unknown provider, differing providers, an account of another user or a full list, in this order |
| `ChatEffects.SaveWrites` | internal/chat/store.go:387-480 | a successful save writes the account's connection with its next version and one source on it, and nothing else |
| `ChatEffects.DisconnectWrites` | internal/chat/store.go:564-567 | an own connection goes with exactly its sources; another user's stays |
| `ChatEffects.FlagsWritten` | internal/chat/store.go:482-576 | credentials, refresh state and the enabled flag change one column under their guard |
| `ChatEffects.CapacityIs` | internal/chat/store.go:368-383 | there is room exactly for an existing source and for a new one of a user with fewer than twenty |
| `ChatStore.Store.HasSourceCapacity` | internal/chat/store.go:368-383 | the capacity check |
| `ChatStore.Store.LowestFreeSlot` | internal/chat/store.go:414-419 | the lowest slot none of the user's sources holds |
| `ChatStore.Store.SaveProviderAccount` | internal/chat/store.go:387-480 | saves connection and source together, or leaves the tables as they were |
| `ChatStore.Store.Disconnect` | internal/chat/store.go:564-567 | deletes the user's own connection and the sources that belong to it |
| `DeadLetters.List` | internal/chat/nats.go:517-553 | one page: exactly the letters from its start down to its cursor, or to the end of the log, or the first letter that cannot be read |
| `DeadLetters.EveryLetterOnce` | internal/chat/nats.go:517-553 | following the cursor lists every letter that stays stored, once, newest first, while the log grows and loses letters |
| `DeadLetters.PagesAreTheLog` | internal/chat/nats.go:529-551 | while nothing changes, the pages together are the whole log |
| `DeadLetters.SessionsEnd` | internal/chat/nats.go:548-551 | cursors fall, so every session ends |
| `DeadLetters.BadLettersBlock` | internal/chat/nats.go:529-551 | while the log grows and loses letters: a listing that reaches the end has met no letter that is unreadable all along, and one that fails, fails at such a letter |
| `DeadLetters.EndReachedIff` | internal/chat/nats.go:529-551 | on a log that does not change, the last reply is a page without cursor if and only if every stored letter can be read |

## Left out

- AlertStore.Store: a playback is named by its queue sequence; the random primary key beside it is not modelled, nor are sequence numbers lost to rolled-back inserts.
- AlertStore.Store.UpdateSettings: only the columns that a guard reads; colours, volumes, templates and assets are left out, and so are the content columns of alerts.
- AlertInvariant.FailPreparationInv: like the method, for jobs that were handed out.
- AlertStore.Store.FailPreparation: asks for a job that was handed out at some time, so that its number of attempts is genuine; it may be reported any number of times.
- AlertStore.Store.PruneRetention: the two passes that clear asset columns of finished rows and delete unused assets are left out with the assets; where a finished row is said never to be written again, these columns are not meant.
- Renderer diagnostics (`RecordPlaybackDiagnostic`) and the dashboard's reading queries add only easy members.
- Deadlocks, lock timeouts and isolation anomalies: each transaction is one atomic step; fractions of a millisecond are not modelled.
- Supervisor.StepInv: one user and one provider; users share nothing but the pass, which `Listeners.Integration.RefreshListeners` covers for all of them. That one provider account may serve one user only (a unique column) is not modelled.
- Listeners.Integration.RefreshListeners: the versions that listeners publish do not change during the pass; the interleaving of the two is in `Supervisor`.
- Checkpoints.StepInv: only Streamlabs, whose history is a walk to a checkpoint; a history read is atomic at its first page, which `StreamlabsHistory.WalkIsASnapshot` justifies. Reporting a rejected row is modelled as a set that only grows; the bounded set that suppresses repeated log lines is left out.
- Checkpoints.CheckpointIsSound: a provider log only grows and its identifiers do not repeat.
- Restream.StepInv: request validation, media-server calls and the heartbeat payload are left out; their outcomes are events.
- RequestLimiter.RegularWithin25Grants: speaks of a class of requests; which waiting request of the class a channel hands over is not modelled, so a request with n of its class ahead of it gets the bound of `RequestLimiter.RegularShare`, 24 other grants for each of them and the measure.
- RequestLimiter.Run: finite stretches of the endless loop, without the pause between grants; which class has somebody waiting is an arbitrary answer at every check.
- BoostyPoller.EverythingOnceInOrder: on a log that only grows, with positive creation times that never fall; `BoostyPoller.NoMessageTwice` needs neither. Text normalisation is a flag of the message, and events dropped while the stream is shutting down are not modelled.
- SocketRecovery.HandledUpToPosition: for a server that replays everything after a position of its own epoch and nothing otherwise; timers, pings, token refreshes and the decoding of messages are outcomes.
- Money.ConversionIsNearestCent: fixed default rates, as in the source.
- ChatStore.Store.SaveProviderAccount: credentials, display names and moderation data are left out; two callers between check and save are serialised by the advisory lock and only the save decides.
- DeadLetters.List: a page reads the log at one moment, and a letter's content is opaque; requests that fail as a whole, or for a passing reason, are not modelled, so a letter that cannot be read stays so.
- Kick, Twitch, YouTube and VK chat, video ingest jobs, OAuth flows, HTTP handlers, media probing, speech synthesis, cryptography and the TypeScript front end add only easy or foreign members.
