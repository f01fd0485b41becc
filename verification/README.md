# Catalerum: verified models of the coordination and text core

Catalerum is an LLM assistant server that runs as several identical pods, plus a desktop agent.
Most of it is input and output. What can go subtly wrong sits in a handful of small components:
locks that expire under a stalled pod, a cache filled by racing readers, a summary that must never
lose or repeat a message, a planner whose statements must be safe to run, text that must be read
back as it was written. This project gives each of those components a Dafny model that follows the
code branch by branch, and proves what the code and its documentation promise about it.

`dafny verify dfyconfig.toml` checks everything.

## How the models are built

* Concurrent components are step machines: `Apply` performs one atomic access (one lock call, one
  critical section, one message received), and `Run` performs any list of them. A step that is not
  enabled changes nothing, so every list of actions is a run and a statement about `Run` for all
  lists is a statement about every interleaving, stall, crash and restart. Time is part of the
  state and passes between any two steps.
* Code that updates fields or loops is also written that way: classes with the source's fields
  (`InProcessLock`, `SearchShared`, `Seed`, `PersonalizationCache`, `McpPushBridge`, `Connection`,
  `LiveConn`, `Registry`, `Index`) and methods with the source's loops (`UniqueRoots`,
  `FoldBoundary`, `Diff`, `Scan`, `ResolvePath`, `UrlEncode`, `PercentDecode`, `UrlQueryValue`,
  `CosineLoop`). A method and the step machine beside it share their functions: `Acquired`,
  `Released` and `Refreshed` for the lock, `Lookup`, `Bumped` and `WithEntry` for the cache,
  `Delivered`, `Spawned` and `Forwarded` for the push bridge, `Drawn`, `Entered` and `Left` for a
  connection's pending map, `Reconciled` for watch channels. `Registry`'s own map of live
  connections is stated by its methods directly. `SearchShared`'s `Push` and `ShouldStop` do what
  the machine's steps do without a break (`PushIsItsSteps`, `TestIsItsSteps`); `RunWorker` is the
  sequential case.
* Fields such as `floor`, `good`, `since`, `issued`, `whole` or a push's `id` record history for the
  statements; no step's outcome depends on them.

| file | component |
|---|---|
| `TimedLock.dfy` | the bus's time-bounded lock, shared by the two pod protocols |
| `ParallelSearch.dfy`, `SearchRoots.dfy` | the agent's capped parallel file search and its root de-overlap |
| `ChannelKeys.dfy`, `ChannelListener.dfy` | leader lease plus per-message claim of inbound channel messages |
| `BackupWindow.dfy` | single-fire scheduled backups |
| `ChatContext.dfy`, `ChatCompact.dfy` | repair and rolling compaction of chat threads |
| `PersonalizationCache.dfy` | the generation-stamped profile cache |
| `SchemaMigration.dfy`, `SchemaConvergence.dfy`, `SqlText.dfy` | declarative schema migration and the DDL it prints |
| `PushBridge.dfy` | cross-pod relay of server pushes |
| `WatchChannel.dfy` | calendar watch-channel renewal |
| `ComputerRegistry.dfy`, `AgentSockets.dfy` | request/response correlation with desktop agents, and the handlers of their sockets |
| `Templates.dfy` | template references in action parameters |
| `PercentCoding.dfy` | percent coding and query tokens, agent to server |
| `VectorIndex.dfy` | cosine ranking and index reconciliation |
| `Collections.dfy`, `Text.dfy` | sums, sequences, trimming, splitting, decimal numbers |

## Where the code and its documentation differ

The models follow the code. Under each difference stand the lemmas that state it: a run or an input
where a promise fails, and the condition under which it holds.

* **Message claims.** Winning claims on one message are a full claim lifetime apart in every run;
  dispatches are so only up to the time a pod stalls between claim and dispatch
  (`DispatchesAreTtlApart`), and for every stall up to that lifetime there is a run that is closer
  by exactly the stall (`StalledPodDispatchesTwice`). Two different messages share a claim
  exactly when the colon between source and id can be read in two places (`ClaimKeysCollide`).
* **Backups.** A window can be backed up twice, but only if the later lock call comes after the
  window has ended (`OneBackupPerWindow`, `StalledPodRepeatsTheWindow`).
* **In-process lock.** A refresh revives an expired lease exactly when nobody has retaken it, and
  never once the key is purged, which is when the Valkey backend refuses (`RefreshRevivesIff`). The
  machines allow both, since `Purged` may run at any time.
* **Profile cache.** A hit is said to be identical to a direct read. Between a write and its bump it
  need not be (`HitCanLagTheStore`). Every hit goes back to the store read that filled its entry, and
  it is identical exactly when no write of the key has reached the store since that read
  (`HitIsDirectIff`). A caller can rely on it when no write of the key was waiting for its bump as
  the read began and none has come since (`QuietHitIsDirect`); the clock decides wherever the last
  write and the store read carry different instants (`DirectByTheClock`).
* **Schema migration.** Planning again is said to find nothing to do. It does after two runs, and
  after every later one, exactly when every desired table has a column to be seen by and no desired
  table or index has a name of the other kind, present or desired (`Settles`, `RoundsConvergeIff`);
  otherwise no number of runs settles it (`UnsettledNeverConverges`). An index named like its table
  is such a case
  (`IndexNamedLikeItsTableNeverConverges`). With distinct table names one run is enough
  (`OneRoundConvergesIff`); with repeated names it may not be (`DuplicateTableNeedsTwoRounds`).
* **Watch channels.** Cover is kept exactly when each new channel is made, and each failed attempt
  is over, while an old channel lasts (`CoverKeptIff`). On the hourly schedule the first 22 failures
  can never break that; after the 23rd it takes a next channel made before the old one ends
  (`WatchNeverLapses`, `LateRenewalLapses`), and a 24th can be too many (`TwentyFourFailuresLapse`).
  Failing to save channel state does no harm while the connection is wanted. Stopping a channel and
  failing to clear its state leaves a re-enabled connection without one, and nothing else does
  (`StoppedButRemembered`, `ReenabledIsCoveredIff`).
* **Agent requests.** A disconnect is said to wake requests in flight with `Disconnected`; it never
  does, because each holds its own handle on the pending map (`ReturnedRequestsAreSettled`,
  `NothingIsWaitingOnceAllReturned`). A request its caller drops leaves its waiter in the map until a
  response with its id comes (`EmptyAgainIff`). Ids restart at 0 on reconnect and responses are looked up by
  agent, so a late response from the old socket can answer a new request
  (`StaleSocketAnswersTheWrongRequest`); a delivery stays on the connection its response came from
  exactly when that connection was still the agent's at its lookup
  (`DeliveryStaysOnItsConnectionIff`). A replaced socket's teardown also disconnects by agent, and so
  takes its successor offline (`ReplacedSocketTakesSuccessorOffline`, `OnlineUntilDisconnectedIff`):
  a hello over a socket that serves the agent always ends with both closed (`ReconnectEndsOffline`),
  and left to the handlers alone a hello lasts exactly when there was none (`HelloLastsIff`).
* **Templates.** "Exactly a single reference" is decided by the outer braces alone, so a string with
  references at both ends is never interpolated (`OuterBracesWin`, `TwoReferencesStayVerbatim`). An
  "all-digit" segment may carry a leading plus, which changes nothing (`PlusIsAllowed`,
  `PlusOneIsOne`).
* **Chat compaction.** A fold is said to stand in for everything before its anchor, but it reads at
  most 100 messages: what came before them is in neither the summary nor the rest, for good
  (`LongRestLosesItsHead`; 101 messages of a user will do, `LongChatLosesMessages`). Summary plus
  rest is the whole thread exactly when no fold the summary was built by read a window cut by that
  limit; nothing is doubled or reordered in any run (`NothingLostIff`).
* **Chat seed.** Of summary plus rest a turn is shown a window cut to the limit and trimmed to a user
  turn, so it sees the whole thread only under the condition in `SeedShowsWholeThreadIff`.
* **Index reconcile.** The count returned is that of the texts sent; it is the number of vectors
  added exactly when the embedder answered at least that many (`CountIsRightIff`).

## Model

| member | source | states |
|---|---|---|
| TimedLock.InProcessLock.TryAcquire | crates/catalerum-bus/src/lock.rs:95-115 | granted exactly when the resource is absent or expired, with a token no earlier grant had; otherwise nothing changes |
| TimedLock.InProcessLock.Release | crates/catalerum-bus/src/lock.rs:117-126 | frees the resource exactly when the guard's token still owns it |
| TimedLock.InProcessLock.Refresh | crates/catalerum-bus/src/lock.rs:128-140 | extends the resource exactly when the guard's token still owns it, expired or not |
| TimedLock.RefreshRevivesIff | crates/catalerum-bus/src/lock.rs:128-140 | a refresh of an expired lease revives it exactly when the guard's token is still there, and never after a purge |
| TimedLock.GrantStands | crates/catalerum-bus/src/lock.rs:95-140 | before its expiry a grant survives every release, refresh, acquire and purge that is not by its own guard |
| TimedLock.WhatOthersSee | crates/catalerum-bus/src/lock.rs:95-140 | a free resource that is acquired is not free until the time is up, its owner's release frees it, its owner's refresh keeps it for as long again, and anybody else's attempt changes nothing |
| ParallelSearch.EveryInterleavingRefinesTheScan | crates/catalerum-agent/src/ops.rs:81-105 | at join, in every interleaving: results = min(claimed, cap); capped iff claimed >= cap; results a sub-multiset of the sequential scan's, and all of it, with every task taken, when no flag is set |
| ParallelSearch.EveryTaskIsFetchedOnce | crates/catalerum-agent/src/ops.rs:510-522 | in every joined run without a flag each task index is fetched by exactly one step of exactly one worker, tasks without hits included |
| ParallelSearch.OutcomeIsScheduleIndependent | crates/catalerum-agent/src/ops.rs:505-530 | without a timeout the number of results and the capped flag are those of the sequential scan, whatever the schedule |
| ParallelSearch.RunConservesHits | crates/catalerum-agent/src/ops.rs:681-750 | along every run, under any weighting, hits kept plus hits owed never exceed the scan's and equal them until the search is stopping |
| ParallelSearch.EveryRunIsBounded | crates/catalerum-agent/src/ops.rs:510-522 | no schedule of the worker loops runs for ever |
| ParallelSearch.UnjoinedCanStep | crates/catalerum-agent/src/ops.rs:510-522 | short of join some worker can always step |
| ParallelSearch.TimedOutIff | crates/catalerum-agent/src/ops.rs:81-92 | in every run a timeout is recorded iff the clock had run out as the search began or a worker that found slots left has read it after the deadline |
| ParallelSearch.DeadlineStopsWorkers | crates/catalerum-agent/src/ops.rs:510-522 | in every run each worker takes at most one more task or appends at most one more hit after the deadline |
| ParallelSearch.LateSearchWindsDown | crates/catalerum-agent/src/ops.rs:510-522 | so after the deadline the pool takes and appends no more in all than it has workers |
| ParallelSearch.SearchShared.ShouldStop | crates/catalerum-agent/src/ops.rs:82-92 | with the deadline as an input: reads the clock exactly when there are slots left, stops iff there are none or the reading is expired, and records an expired reading |
| ParallelSearch.TestIsItsSteps | crates/catalerum-agent/src/ops.rs:81-92 | uninterrupted, the machine's two steps (slots, then clock) are that test |
| ParallelSearch.SearchShared.Push | crates/catalerum-agent/src/ops.rs:94-108 | takes a slot, sets the flag when it was the last or none was left, and appends the hit exactly if one was left |
| ParallelSearch.PushIsItsSteps | crates/catalerum-agent/src/ops.rs:94-108 | uninterrupted, the three atomic steps of the machine (claim, flag, append or refuse) are that push |
| ParallelSearch.SearchShared.SearchFileContents | crates/catalerum-agent/src/ops.rs:716-750 | appends the file's line hits in order, all of them unless the search is stopping; after an expired reading it appends nothing and reads the clock no more |
| ParallelSearch.SearchShared.SearchTask | crates/catalerum-agent/src/ops.rs:681-713 | appends the subtree's hits in walk order, all of them unless the search is stopping; after an expired reading nothing, and at most one more reading |
| ParallelSearch.SearchShared.RunWorker | crates/catalerum-agent/src/ops.rs:512-520 | a lone worker without timeout delivers exactly the first cap hits of the scan; it takes nothing if the deadline has passed, and reads the clock at most twice more after an expired reading |
| SearchRoots.UniqueRoots | crates/catalerum-agent/src/ops.rs:460-472 | the loop yields an antichain drawn from the input that covers exactly the same paths |
| SearchRoots.CoveringAntichainIsTopmost | crates/catalerum-agent/src/ops.rs:460-472 | any such list holds exactly the input roots no other input root contains |
| SearchRoots.OrderDoesNotMatter | crates/catalerum-agent/src/ops.rs:460-472 | reordering or repeating the input yields the same roots, each once |
| ChannelKeys.KeysApart | crates/catalerum-api/src/channel_listener.rs:110-140 | no leader key is ever a claim key, so releasing a lease cannot free a claim |
| ChannelKeys.LeaderKeyInjective | crates/catalerum-api/src/channel_listener.rs:110-112 | no two channels share a lease (workspaces without a colon) |
| ChannelKeys.ClaimKeysCollide | crates/catalerum-api/src/channel_listener.rs:125-140 | two messages share a claim key iff they are equal or differ by moving the colon between source and id |
| ChannelKeys.ClaimKeyInjective | crates/catalerum-api/src/channel_listener.rs:125-140 | with colon-free names and ids the claim key identifies the message |
| ChannelKeys.ClaimKeyCollision | crates/catalerum-api/src/channel_listener.rs:125-140 | a concrete pair of different messages with one claim key |
| ChannelListener.ClaimsAreTtlApart | crates/catalerum-api/src/channel_listener.rs:150-176 | over any pods, stalls, crashes and leader changes, winning claims on one message are at least DISPATCH_CLAIM_TTL apart |
| ChannelListener.DispatchesAreTtlApart | crates/catalerum-api/src/channel_listener.rs:341-384 | two dispatches of one message that both won a claim are that far apart, less the longest claim-to-dispatch stall |
| ChannelListener.StalledPodDispatchesTwice | crates/catalerum-api/src/channel_listener.rs:341-384 | for every stall up to the claim lifetime, a run in which a stalled pod and its successor dispatch one message exactly the lifetime less the stall apart |
| ChannelListener.SkippedMessageWasClaimed | crates/catalerum-api/src/channel_listener.rs:150-176 | with colon-free workspaces, channels and message ids, a skipped message has a winning claim on that very message less than the lifetime old |
| ChannelListener.OneFreshLeader | crates/catalerum-api/src/channel_listener.rs:249-338 | two pods of one channel never both drain within LEADER_TTL of their last renewal |
| ChannelListener.ReceivedIsPassedOn | crates/catalerum-api/src/channel_listener.rs:341-384 | a message received by a leader is dispatched as it is, without an id and with the lock failing too, unless its claim is taken, and only then skipped; only a won claim touches the locks |
| ChannelListener.EveryMessageIsAccountedFor | crates/catalerum-api/src/channel_listener.rs:341-384 | over every run, received = dispatched + skipped + being dispatched + lost with a pod that crashed while dispatching |
| ChannelListener.LeadershipFollowsTheLease | crates/catalerum-api/src/channel_listener.rs:249-338 | a pod leads iff the lease was free, stays leader at a renewal iff the lease is still its own, and gives it back on leaving |
| ChannelListener.ClaimDispatch | crates/catalerum-api/src/channel_listener.rs:155-176 | proceeds exactly when there is no id, the lock call fails, or the claim was free, and in the last case leaves it held; otherwise the table is as it was |
| BackupWindow.WindowHolds | crates/catalerum-backup/src/worker.rs:52-74 | a clock reading lies in the window it names |
| BackupWindow.WindowsAdvance | crates/catalerum-backup/src/worker.rs:52-74 | readings an interval apart name different, later windows |
| BackupWindow.FireKeyInjective | crates/catalerum-backup/src/worker.rs:52-74 | different windows have different lock names |
| BackupWindow.OneBackupPerWindow | crates/catalerum-backup/src/worker.rs:52-97 | a second backup of a window is an interval later and its lock call fell after the window's end |
| BackupWindow.RefusedWindowWasTaken | crates/catalerum-backup/src/worker.rs:52-97 | a refused pod's window was taken by some pod less than an interval before |
| BackupWindow.AttemptsAdvance | crates/catalerum-backup/src/worker.rs:52-97 | one pod's attempts carry strictly increasing windows, restarts included |
| BackupWindow.WorkerLoops | crates/catalerum-backup/src/worker.rs:52-97 | a pod wakes when its interval is over, tries the window of that moment, backs up iff the lock call works and the window is free, and otherwise, when done, or on a restart, sleeps an interval |
| BackupWindow.StalledPodRepeatsTheWindow | crates/catalerum-backup/src/worker.rs:52-97 | a run in which a stall repeats a window |
| ChatContext.TrimOpensOnUser | crates/catalerum-api/src/chat_context.rs:21-29 | trimming opens on a user message if there is one, drops none of them, and drops nothing exactly when nothing precedes the first |
| ChatContext.Seed.PatchDanglingToolCalls | crates/catalerum-api/src/chat_context.rs:31-68 | the in-place insertion pass computes the repair, and terminates |
| ChatContext.OriginalsThenTheirResults | crates/catalerum-api/src/chat_context.rs:31-68 | originals stay in order, each directly followed by one result per unanswered call, in call order, and nothing else |
| ChatContext.UnansweredIs | crates/catalerum-api/src/chat_context.rs:40-49 | the unanswered calls are found call by call, in call order |
| ChatContext.EveryCallIsAnswered | crates/catalerum-api/src/chat_context.rs:31-68 | afterwards every assistant tool call has an answer |
| ChatContext.ChangesOnlyDangling | crates/catalerum-api/src/chat_context.rs:31-68 | the pass changes a history iff it has an unanswered call |
| ChatContext.PatchIsIdempotent | crates/catalerum-api/src/chat_context.rs:31-68 | repairing twice is repairing once |
| ChatContext.ReplayOpensOnUser | crates/catalerum-api/src/chat_context.rs:21-93 | trimmed, converted and repaired, a window with a user message opens on one and has no dangling call |
| ChatContext.ReplaySaysEverything | crates/catalerum-api/src/chat_context.rs:21-93 | trimmed, converted and repaired, each message of the window is there with its role, text, calls and the call it answers, and each of its unanswered calls is answered right after it by id and name as interrupted |
| ChatCompact.FoldBoundary | crates/catalerum-api/src/chat_compact.rs:58-71 | the loop cuts at the first user message among the kept ones, leaving a tail of 1 to keep_tail messages, or says which of three reasons there is no cut |
| ChatCompact.FoldIsExact | crates/catalerum-api/src/chat_compact.rs:108-176 | a fold's new summary covers exactly the prefix ending at its anchor iff the summary before it did and its read window was not cut by the history limit |
| ChatCompact.NothingLostIff | crates/catalerum-api/src/chat_compact.rs:108-176 | under any interleaving of messages, regenerations and racing folds, summary plus messages after its anchor is picked from the thread in order, none twice, and is the whole thread iff no fold the summary was built by read a window cut by the history limit |
| ChatCompact.NothingLostOrDoubled | crates/catalerum-api/src/chat_compact.rs:108-176 | so where no fold's window is ever cut by the history limit, it is the whole thread |
| ChatCompact.LongRestLosesItsHead | crates/catalerum-api/src/chat_compact.rs:108-176 | in any run, with more than 100 messages after the anchor (or in a thread without summary), an undisturbed fold keeps the old summary and the last 100 only: the others are in neither part |
| ChatCompact.LongChatLosesMessages | crates/catalerum-api/src/chat_compact.rs:108-176 | a run for every n > 100: n messages of a user and one fold, after which 100 are kept |
| ChatCompact.FoldKeepsATail | crates/catalerum-api/src/chat_compact.rs:57-71 | what a fold keeps verbatim opens on a user message and has 1 to 16 messages of the folded window |
| ChatCompact.RegeneratingCuts | crates/catalerum-api/src/routes/ws.rs:1325-1349 | regenerating drops what follows the user message and keeps the summary in use iff its anchor is kept |
| ChatCompact.FoldsTouchOnlyTheSummary | crates/catalerum-api/src/chat_compact.rs:108-176 | a fold starts from the stored pair, never touches the thread, and stores its own summary only when persisted with its anchor still there |
| ChatCompact.SeedShowsWholeThreadIff | crates/catalerum-api/src/routes/ws.rs:1417-1456 | in every run a turn's seed shows the whole thread iff the summary is whole and the rest fits the limit and opens on a user message or has none |
| PersonalizationCache.PersonalizationCache.Get | crates/catalerum-api/src/personalization_cache.rs:106-119 | a hit iff the entry exists, carries the current generation and is younger than the TTL; it returns that entry's profile |
| PersonalizationCache.PersonalizationCache.Bump | crates/catalerum-api/src/personalization_cache.rs:97-100 | raises its own workspace's generation by one and no other's |
| PersonalizationCache.PersonalizationCache.Put | crates/catalerum-api/src/personalization_cache.rs:124-140 | a later get of the key sees the profile exactly when its generation is the one given and the TTL has not run; gets of every other key see what they saw before |
| PersonalizationCache.HitIsFresh | crates/catalerum-api/src/personalization_cache.rs:106-119 | an entry accepted in the second critical section shows everything bumped before get began, whatever ran between the two |
| PersonalizationCache.AnswersAreFresh | crates/catalerum-api/src/state.rs:1527-1557 | over every interleaving of fills, writes, bumps and both halves of get, no answer is older than the newest write whose bump completed before its read began |
| PersonalizationCache.BackstopHolds | crates/catalerum-api/src/personalization_cache.rs:46-48 | for writers that never bump: a hit is younger than the TTL and shows every write older than its fill's store read |
| PersonalizationCache.RacedFillIsNeverServed | crates/catalerum-api/src/personalization_cache.rs:121-140 | an entry that misses a bumped write is never served to a later get |
| PersonalizationCache.HitCanLagTheStore | crates/catalerum-api/src/state.rs:1516-1557 | a run in which a hit is older than a direct read would be |
| PersonalizationCache.HitIsDirectIff | crates/catalerum-api/src/state.rs:1516-1557 | in every run each hit goes back to the store read that filled its entry, and equals a direct read iff no write of the key has reached the store after that read |
| PersonalizationCache.QuietHitIsDirect | crates/catalerum-api/src/state.rs:1516-1557 | over every interleaving: with no write of the key awaiting its bump when get begins and none since, a hit has the store's newest version |
| PersonalizationCache.DirectByTheClock | crates/catalerum-api/src/state.rs:1516-1557 | an entry has the newest version if its store read came later than the key's last write, and only if it came no earlier; at one instant the order of steps decides, as above |
| SchemaMigration.Diff | crates/catalerum-api/src/db_migrate.rs:238-296 | the nested loops emit the plan the lemmas are about, statement by statement, with its blocked list |
| SchemaMigration.PlanIs | crates/catalerum-api/src/db_migrate.rs:238-296 | a statement is in the plan iff it makes an unseen table as described, adds to a seen table a missing column that is nullable or has a default, or makes an index of an unseen table or one missing from a seen one |
| SchemaMigration.BlockedIff | crates/catalerum-api/src/db_migrate.rs:265-281 | a column is reported as blocked iff a desired table of that name is seen without it and it is NOT NULL without a default |
| SchemaMigration.EveryColumnIsAccountedFor | crates/catalerum-api/src/db_migrate.rs:265-286 | every desired column of a seen table is there, added or blocked, and with distinct names exactly one of these |
| SchemaMigration.PlanIsAdditive | crates/catalerum-api/src/db_migrate.rs:238-296 | every statement is made from the desired schema, creates only what is not seen, and never adds a NOT NULL column without a default to a seen table |
| SchemaMigration.MigrationIsAdditive | crates/catalerum-api/src/db_migrate.rs:242-294 | a migration that runs keeps every table, column, nullability and index, and everything it adds is described by the desired schema, with the right nullability |
| SchemaConvergence.MigrationRunsIff | crates/catalerum-api/src/db_migrate.rs:242-294 | with distinct table names a plan runs iff created tables repeat no column and every index statement names columns its table will have, tables and indexes sharing one namespace |
| SchemaConvergence.MigrationRunsAgain | crates/catalerum-api/src/db_migrate.rs:238-362 | for any desired schema, a migration that ran once runs again |
| SchemaConvergence.PlanIsEmptyIff | crates/catalerum-api/src/db_migrate.rs:238-296 | a plan is empty iff every desired table is seen with all it can be given |
| SchemaConvergence.OneRoundConvergesIff | crates/catalerum-api/src/db_migrate.rs:238-362 | with distinct table names, planning again after one run gives nothing iff every desired table has a column to be seen by and no desired table or index has a name of the other kind, present or desired |
| SchemaConvergence.TwoRoundsConvergeIff | crates/catalerum-api/src/db_migrate.rs:238-362 | for any desired schema whose first run succeeds, duplicates included, the second run succeeds too and reaches an empty plan under the same condition |
| SchemaConvergence.RoundsConvergeIff | crates/catalerum-api/src/db_migrate.rs:238-362 | so does every later round: for all n >= 2 round n runs, and settles under that condition only |
| SchemaConvergence.UnsettledNeverConverges | crates/catalerum-api/src/db_migrate.rs:238-362 | without the condition no number of rounds reaches an empty plan |
| SchemaConvergence.IndexNamedLikeItsTableNeverConverges | crates/catalerum-api/src/db_migrate.rs:242-308 | a one-table schema that is planned again for ever, because its index has the table's name |
| SchemaConvergence.MigrationIsIdempotent | crates/catalerum-api/src/routes/db_connections.rs:336-358 | with distinct table names, under the same condition, migrating again runs and changes nothing |
| SchemaConvergence.BlockedStaysBlocked | crates/catalerum-api/src/db_migrate.rs:265-281 | with distinct names the blocked list is the same after the run |
| SchemaConvergence.DuplicateTableNeedsTwoRounds | crates/catalerum-api/src/db_migrate.rs:242-264 | a schema naming a table twice that meets the condition and that one round does not settle |
| SqlText.QuotedLexes | crates/catalerum-api/src/db_migrate.rs:105-107 | for any name and any following text not starting with a quote, the quoted form lexes as exactly that name and that text (an empty name is an error) |
| SqlText.QuoteIdentInjective | crates/catalerum-api/src/db_migrate.rs:105-107 | no two names are quoted alike |
| SqlText.CreateIndexRoundTrip | crates/catalerum-api/src/db_migrate.rs:298-308 | the printed statement lexes and parses back to the same unique flag, index, schema, table and columns iff no name is empty and there is a column; otherwise it does not parse |
| PushBridge.McpPushBridge.Publish | crates/catalerum-api/src/mcp_push_bridge.rs:96-126 | delivers locally once and hands one envelope with this pod's nonce to the bus, or does nothing when the message does not serialize |
| PushBridge.McpPushBridge.Forward | crates/catalerum-api/src/mcp_push_bridge.rs:174-188 | delivers a peer's envelope in its workspace, and ignores its own and undecodable ones |
| PushBridge.AtMostOnce | crates/catalerum-api/src/mcp_push_bridge.rs:96-189 | in every run, lossy ones and shared nonces included, a push reaches a hub at most once, unchanged and in its own workspace, and relays never exceed publishes |
| PushBridge.DrainedMeansDelivered | crates/catalerum-api/src/mcp_push_bridge.rs:96-189 | once relays have run and a pod that lost nothing has drained its queue, it shows every push exactly once, except another pod's under the same nonce, which it does not show |
| PushBridge.EveryPushArrives | crates/catalerum-api/src/mcp_push_bridge.rs:96-189 | after any run that lost nothing for a pod, some relays and receives more bring it every push due to it, once |
| PushBridge.SubscribersHear | crates/catalerum-api/src/mcp_push_bridge.rs:128-171 | a pod hears every relayed envelope while it is subscribed, none otherwise, and not what its queue loses |
| PushBridge.NoRelayLoop | crates/catalerum-api/src/mcp_push_bridge.rs:111-171 | without relay failures the bus carries exactly as many messages as were published |
| WatchChannel.Connection.Reconcile | crates/catalerum-api/src/google_watch.rs:231-312 | a lifecycle pass is the specified transition of the connection's channels and stored state |
| WatchChannel.Connection.EnsureWatch | crates/catalerum-api/src/google_watch.rs:316-369 | create, then remember if the store allows, then stop the superseded channel |
| WatchChannel.Connection.StopAndClear | crates/catalerum-api/src/google_watch.rs:372-393 | stop best-effort and clear if the store allows |
| WatchChannel.WantedConnectionIds | crates/catalerum-api/src/google_watch.rs:89-107 | exactly the connections named by a collect trigger of an enabled automation |
| WatchChannel.CoverKeptIff | crates/catalerum-api/src/google_watch.rs:231-369 | over any scheduled run that stays wanted, cover holds at every moment iff each channel is made, and each failed attempt over, while an old one lasts |
| WatchChannel.WatchNeverLapses | crates/catalerum-api/src/google_watch.rs:231-369 | on the hourly schedule, with at most 23 consecutive failures and, after a 23rd, the next channel made while an old one lasts: at every moment since the first success some unstopped, unexpired channel exists whose token verifies, whether or not state was saved |
| WatchChannel.CoverLastsTheLead | crates/catalerum-api/src/google_watch.rs:63-85 | in the same runs cover lasts a renewal lead beyond the last pass that found the channel fresh or made one, hence past the next pass's latest start |
| WatchChannel.TwentyFourFailuresLapse | crates/catalerum-api/src/google_watch.rs:42-54 | a scheduled run tolerable through 23 failures and not the 24th, whose 24th leaves an uncovered moment before any next pass need start |
| WatchChannel.LateRenewalLapses | crates/catalerum-api/src/google_watch.rs:42-54 | after 23 failures a scheduled success more than 1 ms late leaves an uncovered moment |
| WatchChannel.TokenOutlivesIff | crates/catalerum-api/src/google_channel_link.rs:123-144 | a token verifies for its channel's whole life iff the channel expires no later than the token |
| WatchChannel.TokenOutlivesTheChannel | crates/catalerum-api/src/google_watch.rs:325-331 | in every scheduled run the token of every channel made verifies for that channel's whole life |
| WatchChannel.StoppedButRemembered | crates/catalerum-api/src/google_watch.rs:372-393 | a channel stopped but not cleared leaves a re-enabled connection uncovered for as long as it looks fresh |
| WatchChannel.ReenabledIsCoveredIff | crates/catalerum-api/src/google_watch.rs:231-393 | after an unwanted pass over any book with a fresh remembered channel, a wanted pass with a grant leaves it covered iff the stop was cleared or never made, or another live channel is left |
| WatchChannel.SwitchedOffIsGone | crates/catalerum-api/src/google_watch.rs:372-393 | over every run in which stops and saves succeed, an unblocked pass over an unwanted connection leaves nothing remembered and no channel live from its end on |
| WatchChannel.OneChannelRuns | crates/catalerum-api/src/google_watch.rs:316-369 | in the same runs at most one channel has not been stopped, and it is the remembered one |
| WatchChannel.RenewsExactlyWhenDue | crates/catalerum-api/src/google_watch.rs:63-85 | and where expiries are reported, a wanted pass makes a channel iff none that runs outlasts it by the renewal lead, and otherwise changes nothing |
| WatchChannel.SwitchingOffIff | crates/catalerum-api/src/google_watch.rs:372-393 | on any book, switching off forgets the channel iff the clearing is saved and stops it iff the stop works, and touches no other |
| ComputerRegistry.Registry.Connect | crates/catalerum-api/src/computer_registry.rs:201-226 | puts a new connection object with an empty map and ids from 0 in place of the old one, which is notified to close and otherwise stays as it is |
| ComputerRegistry.Registry.ResolveResponse | crates/catalerum-api/src/computer_registry.rs:341-351 | uninterrupted, takes the waiter with that id out of the agent's current connection, if it has one, and touches nothing else; the machine has lookup and removal as two steps |
| ComputerRegistry.LiveConn.Register | crates/catalerum-api/src/computer_registry.rs:386-388 | draws an id no earlier request of the connection had and none is waiting under, and registers the waiter under it by the steps the machine takes |
| ComputerRegistry.IdsAreNeverReused | crates/catalerum-api/src/computer_registry.rs:374-409 | over every run no two requests of one connection draw the same id |
| ComputerRegistry.ResponsesReachTheirRequest | crates/catalerum-api/src/computer_registry.rs:341-409 | a response goes only to the request that drew its id on the connection it was looked up on, and no request is handed two |
| ComputerRegistry.ReturnedRequestsAreSettled | crates/catalerum-api/src/computer_registry.rs:374-409 | a returned request has left the pending map, never returned Disconnected, and a returned response was delivered to it once |
| ComputerRegistry.OutcomeIsEarned | crates/catalerum-api/src/computer_registry.rs:374-409 | in every run a returned request says Offline iff its frame could not be sent, TimedOut iff its timer fired before an answer was there, and carries a response otherwise |
| ComputerRegistry.RequestsReturn | crates/catalerum-api/src/computer_registry.rs:374-409 | left to itself every request that was not dropped returns, with the answer if it is there |
| ComputerRegistry.LateResponsesChangeNothing | crates/catalerum-api/src/computer_registry.rs:341-351 | a second response, or one after the request returned, changes no state |
| ComputerRegistry.AnswersLand | crates/catalerum-api/src/computer_registry.rs:386-401 | from before its frame is sent until it is answered or times out a request's waiter is registered, so an answer reaches it however quick it is |
| ComputerRegistry.NothingIsWaitingOnceAllReturned | crates/catalerum-api/src/computer_registry.rs:195-237 | dropping a replaced connection's map drops no waiter |
| ComputerRegistry.EmptyAgainIff | crates/catalerum-api/src/computer_registry.rs:374-409 | once a connection's requests have returned or been dropped by their callers and none begins, its pending map is empty again iff a response has come for each id left in it |
| ComputerRegistry.LeftoversAreCancelled | crates/catalerum-api/src/computer_registry.rs:374-409 | what is left there was registered by a dropped request and never answered |
| ComputerRegistry.DroppedOrClosed | crates/catalerum-api/src/computer_registry.rs:374-409 | a request that is dropped while it waits leaves its waiter, and a send on a closed connection fails |
| ComputerRegistry.DeliveryStaysOnItsConnectionIff | crates/catalerum-api/src/computer_registry.rs:341-351 | in every run each delivery goes back to a lookup, and reached a request of the connection its response came from iff that connection was the agent's at that lookup |
| ComputerRegistry.PromptResponsesStayOnTheirConnection | crates/catalerum-api/src/computer_registry.rs:341-351 | so in a run whose every lookup comes while its socket's connection is live, each delivery is to a request of that connection |
| ComputerRegistry.StaleSocketAnswersTheWrongRequest | crates/catalerum-api/src/computer_registry.rs:209-222 | a run in which a replaced socket's response answers another request |
| ComputerRegistry.OnlineUntilDisconnectedIff | crates/catalerum-api/src/computer_registry.rs:228-237 | an agent that does not connect anew stays online on its connection iff no disconnect by any of its sockets comes |
| ComputerRegistry.ReplacedSocketTakesSuccessorOffline | crates/catalerum-api/src/routes/computer_agents.rs:249-340 | a replaced socket's teardown takes the agent offline while its new socket is open |
| AgentSockets.ReconnectEndsOffline | crates/catalerum-api/src/routes/computer_agents.rs:249-340 | in every run, after a hello over another socket that serves the agent: offline from the moment the replaced handler has ended until a later hello, and once the told handlers have ended both sockets are closed |
| AgentSockets.ReconnectRun | crates/catalerum-api/src/routes/computer_agents.rs:249-340 | an agent that connects twice with its first socket still open ends offline with both sockets closed |
| AgentSockets.HelloLastsIff | crates/catalerum-api/src/routes/computer_agents.rs:249-340 | left to the handlers alone, a hello leaves the agent online once they have settled iff no other socket was serving it |
| AgentSockets.HandlersSettle | crates/catalerum-api/src/routes/computer_agents.rs:276-287 | from any state the handlers that are told do all end, in at most as many steps as are open |
| AgentSockets.RevokedOrLostIsGone | crates/catalerum-api/src/computer_registry.rs:228-256 | in every run, after a revoke or a lost socket the agent is offline until a later hello, and once the told handlers have ended no socket serves it |
| Templates.ResolvePath | crates/catalerum-api/src/action_runner.rs:2052-2062 | the loop descends segment by segment: object keys, array indexes, nothing else |
| Templates.PlusIsAllowed | crates/catalerum-api/src/action_runner.rs:2052-2062 | a plus before digits is not all digits and names the same element |
| Templates.PlusOneIsOne | crates/catalerum-api/src/action_runner.rs:2052-2062 | the segment "+1" is the index 1 |
| Templates.KeyIs | crates/catalerum-api/src/action_runner.rs:2052-2062 | in an object a key names its field and no other text anything |
| Templates.IndexIs | crates/catalerum-api/src/action_runner.rs:2052-2062 | in an array a number, zeros in front or not, names the item at it |
| Templates.NothingElseIs | crates/catalerum-api/src/action_runner.rs:2052-2062 | no other segment names an item, and nothing is found in a scalar |
| Templates.ResolveComposes | crates/catalerum-api/src/action_runner.rs:2052-2062 | resolving p.q is resolving p, then q, for any two texts |
| Templates.DotsAreTheContext | crates/catalerum-api/src/action_runner.rs:2052-2062 | the empty path, or dots alone, is the context itself |
| Text.TrimIs | crates/catalerum-api/src/action_runner.rs:2003-2013 | trimming takes white space off both ends, all of it and nothing else |
| Templates.RenderString | crates/catalerum-api/src/action_runner.rs:2002-2047 | the whole-string form keeps the resolved value's type; any other string is the concatenation of its rendered pieces |
| Templates.Scan | crates/catalerum-api/src/action_runner.rs:2018-2046 | the scanning loop computes the rendering of the tokenisation, unterminated braces included |
| Templates.PiecesUnparse | crates/catalerum-api/src/action_runner.rs:2018-2046 | the pieces put back together are the string |
| Templates.PiecesAreWellFormed | crates/catalerum-api/src/action_runner.rs:2018-2046 | pieces alternate text and tokens, no text before a token holds an opening pair and no token a closing one |
| Templates.PiecesAreUnique | crates/catalerum-api/src/action_runner.rs:2018-2046 | and they are the only such pieces of their text |
| Templates.SubstitutedTextIsNotRescanned | crates/catalerum-api/src/action_runner.rs:2024-2036 | whatever is put in for a token is not scanned again |
| Templates.RendersIff | crates/catalerum-api/src/action_runner.rs:1985-2046 | a tree is the rendering of another iff at every depth a string that is one whole reference has become the very value it resolves to (or stayed), any other string the text of its literals and of what its tokens resolve to, and everything else is as it was |
| Templates.ParamsRender | crates/catalerum-api/src/action_runner.rs:1972-1983 | each parameter is so rendered where there is a context |
| Templates.UnresolvedIsVerbatim | crates/catalerum-api/src/action_runner.rs:1985-1997 | when no reference resolves, rendering is the identity on every JSON tree |
| Templates.ShapeIsKept | crates/catalerum-api/src/action_runner.rs:1985-1997 | object keys, array lengths and non-string values are kept at every depth |
| Templates.ParamsAreKept | crates/catalerum-api/src/action_runner.rs:1972-1983 | parameter names are kept; without a context, or when nothing resolves, parameters are returned as they are |
| Templates.OuterBracesWin | crates/catalerum-api/src/action_runner.rs:2003-2013 | a string with references at both ends is one reference to what stands between the outermost braces, or stays as it is |
| Templates.TwoReferencesStayVerbatim | crates/catalerum-api/src/action_runner.rs:2003-2046 | a context in which both references of such a string resolve and are still not interpolated, while inside other text one is |
| PercentCoding.UrlEncode | crates/catalerum-agent/src/config.rs:118-129 | the loop computes the encoding of the string's UTF-8 bytes |
| PercentCoding.UnreservedStand | crates/catalerum-agent/src/config.rs:118-129 | letters, digits and -._~ are sent as they are, every other byte as a triple |
| PercentCoding.PercentDecode | crates/catalerum-api/src/auth.rs:320-348 | the index loop computes the decoding, malformed triples included |
| PercentCoding.DecodedIs | crates/catalerum-api/src/auth.rs:320-358 | a plus is a space, a percent sign with two hex digits of either case their byte, and anything else stands for itself |
| PercentCoding.DecodeUndoesEncode | crates/catalerum-api/src/auth.rs:320-348 | decoding undoes encoding on every byte string |
| PercentCoding.EncodeIsCanonical | crates/catalerum-agent/src/config.rs:118-129 | only unreserved bytes (section 2.3 of RFC 3986) and upper-case triples of other bytes are emitted |
| PercentCoding.EncodeUndoesDecode | crates/catalerum-agent/src/config.rs:118-129 | encoding undoes decoding on all such text, which is therefore exactly the encodings |
| PercentCoding.Utf8Reads | crates/catalerum-api/src/auth.rs:347 | for every text, reading its UTF-8 bytes gives it back |
| PercentCoding.UrlQueryValue | crates/catalerum-api/src/auth.rs:308-318 | the loop returns the decoded value of the first pair with the key |
| PercentCoding.QueryValueIs | crates/catalerum-api/src/auth.rs:308-318 | the value is what follows the first = of the first pair with the key, decoded, empty without one, and absent without such a pair |
| PercentCoding.QueryRecoversTheValue | crates/catalerum-api/src/auth.rs:308-318 | in any query an encoded value is recovered when no earlier pair has its key |
| PercentCoding.TokenIsReadFrom | crates/catalerum-api/src/auth.rs:299-302 | the token is read from access_token if the query has that key, and from token otherwise |
| PercentCoding.SchemeIsMapped | crates/catalerum-agent/src/config.rs:97-111 | whatever white space and slashes surround the address, https becomes wss, http ws, and the socket schemes stay |
| PercentCoding.BareHostIsSecure | crates/catalerum-agent/src/config.rs:97-111 | an address without a scheme is reached over wss |
| PercentCoding.ConnectUrlIs | crates/catalerum-agent/src/config.rs:112-114 | the agent dials the connect path of that base with the token as its query |
| PercentCoding.ConnectTokenArrives | crates/catalerum-agent/src/config.rs:97-114 | the token in the agent's connect URL, whatever its characters, is the one the server reads, for every server address without a query or fragment |
| VectorIndex.CosineLoop | crates/catalerum-api/src/article_index.rs:144-162 | the accumulating loop computes the similarity, zero for a length mismatch or no direction |
| VectorIndex.CosineIs | crates/catalerum-api/src/article_index.rs:144-162 | the score times both lengths is the dot product, sign included, and zero without a direction |
| VectorIndex.DotIs | crates/catalerum-api/src/article_index.rs:148-155 | the dot product multiplies components and adds up over any cut of the vectors |
| VectorIndex.CauchySchwarz | crates/catalerum-api/src/article_index.rs:148-155 | the accumulators satisfy dot^2 <= na * nb |
| VectorIndex.ScoreIsBounded | crates/catalerum-api/src/node_index.rs:143-161 | scores lie in [-1, 1] |
| VectorIndex.SameVectorScoresOne | crates/catalerum-api/src/article_index.rs:144-162 | a document embedded like the query scores 1 |
| VectorIndex.SortSorts | crates/catalerum-api/src/article_index.rs:132-136 | the sort permutes, descends, and keeps the order of equal scores |
| VectorIndex.OrderIsRestored | crates/catalerum-api/src/article_index.rs:60-73 | sorting by index undoes any permutation of a complete response |
| VectorIndex.Index.Reconcile | crates/catalerum-api/src/article_index.rs:81-102 | embeds only missing documents, zips the ordered response onto them, and leaves the vectors alone on failure |
| VectorIndex.CountIsRightIff | crates/catalerum-api/src/article_index.rs:81-102 | the count returned is the number of vectors added iff the embedder answered at least as many as it was sent |
| VectorIndex.ReconcilePairsEachDocument | crates/catalerum-api/src/node_index.rs:81-101 | for any permutation of a complete response each document gets its own text's vector, no other changes, and a second call embeds nothing |
| VectorIndex.HitsAre | crates/catalerum-api/src/article_index.rs:121-130 | the hits are exactly the indexed documents, each with its own score |
| VectorIndex.HitsKeepOrder | crates/catalerum-api/src/article_index.rs:121-130 | hits come in corpus order, which is what equal scores keep |
| VectorIndex.TopIsBest | crates/catalerum-api/src/article_index.rs:131-138 | min(limit, indexed) hits, best first, stable, with every omitted score at most every kept one |
| VectorIndex.Index.Search | crates/catalerum-api/src/node_index.rs:110-138 | warms the index first and ranks what it holds then against the query's vector; a failed reconcile leaves the vectors alone and is not an error, a failed query embedding is |
| VectorIndex.SearchRanksEveryDocument | crates/catalerum-api/src/article_index.rs:110-140 | end to end: if the embedder answers in full, in any order, a search of an empty or partly filled index gives min(limit, documents) hits, best first, each the cosine of the query's vector and its own document's |

## Left out

- ParallelSearch.EveryInterleavingRefinesTheScan: interleaves the atomic accesses sequentially consistently; the relaxed ordering of the source's atomics is not modelled beyond that.
- ChannelListener.DispatchesAreTtlApart: weaker than "dispatches a claim lifetime apart" by the claim-to-dispatch stall, because a stalled pod breaks that promise (`ChannelListener.StalledPodDispatchesTwice` shows the bound met for every stall up to the lifetime); messages without an id and lock-call errors (which the code lets through) are excluded, as the source intends.
- BackupWindow.OneBackupPerWindow: excludes lock calls made after the window's end, where the promise fails.
- ChatCompact.NothingLostOrDoubled: weaker than "nothing lost": for runs whose folds read uncut windows; `ChatCompact.NothingLostIff` has the condition for every run.
- WatchChannel.WatchNeverLapses: one connection and one pass at a time (the fire lock's job); overlapping passes of pods that stall past the lock are not modelled.
- VectorIndex.ScoreIsBounded: over exact reals with the square roots supplied; rounding and NaN are not modelled.
- PercentCoding.ConnectTokenArrives: what the lossy decoder puts for bytes that are not UTF-8 is a parameter, since an encoded token never has any.
- SchemaConvergence.MigrationRunsIff: types and default expressions are taken as valid; rows (a unique index over duplicates), empty or over-long names, the 10 000-row introspection limit, and a primary key's own index (whose name can also take a table's or an index's) are not modelled.
- Wrap-around of 64-bit counters (ids, generations, slots).
- The wording of summaries, the decision when to fold (`should_compact_thread`), and the cap on the transcript: a summary is the list of messages it covers.
- Rendering of skills and attachments into a user message: opaque text.
- Filesystem walking, binary detection and line reading in the agent's search: a task is the list of entries and line hits its walk would visit.
- CREATE TABLE and ADD COLUMN text, whose types and defaults are verbatim; only CREATE INDEX is parsed back.
- Cross-pod forwarding of agent requests and ownership keys; frames other than hello and responses on an agent's socket.
- The database, object storage, HTTP and WebSocket handlers, LLM and provider calls, token signatures.
