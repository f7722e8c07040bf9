# Field control, offline queue and rollback: a verified model

Jenn Shooting Operations runs its field control in browser tabs that may be offline, and its database
rollback through a one-shot executor. This project models the parts of it whose correctness is not visible
from any single function, and proves what they keep in every run. `dafny verify dfyconfig.toml` checks all of it.

* **The offline event queue.** `QueueRecords` says how the queue lies in localStorage (sequence markers, items,
  terminal verdicts, meta) and what it loads as; `QueueCommit` gives the merging commit as a plan of writes that
  may be cut short anywhere; `QueueOperations` and `QueueRefinement` refine the four commits of the queue to an abstract
  queue; `QueueStorage` has the same code as it runs, loops and all, proved against those specifications;
  `FieldProtocol` and `Replay` model receipts, transport and the stretches of a replay between two awaits;
  `QueueRuns` puts any number of tabs, calls, lost and late messages and crashes around one store and one server.
  `QueueSafety`, `QueueProgress`, `QueueSimulation`, `QueueBlocked` and `QueueProjection` hold the theorems about runs; `QueueOffers` takes an
  offered action through enqueue.
* **Optimistic state and the control lease.** `ActionState` folds pending events over the server's run; `ControlLease` is
  the timed lease shared by tabs without Web Locks.
* **Session layout.** `SessionLayout` is the interval partitioning of the day view, with its optimality.
* **Device identity.** `DeviceIdentity` interleaves single storage operations of revoking, provisioning and checking pages.
* **Browser session.** `BrowserSession` is the epoch discipline over overlapping login, init, request and logout calls.
* **The read-only witness.** `RowEncoding`, `RowSets` and `ConservativeExtension` take it from the bytes of a row to
  what an empty problem list says about two databases.
* **The rollback.** `CanonicalJson` is the canonical text that is hashed; `RollbackExchange` the durable claim before the atomic
  exchange, under crashes and concurrent executors.

`Options`, `StableSort`, `Lexicographic` and `Decimal` are shared helpers.

## What the proofs found

The code is modelled as it is. Five promises do not hold as stated; each has a lemma with a run or an input that
shows it, and a lemma that says exactly when the code does meet it.

* *A blocked queue starts no new submission* (section 4.6 of docs/VCP_SHOOTING_OPERATIONS_EVOLUTION_PLAN_V2.1.md asks replay
  to stop at the first conflict). When the answer for a head arrives after another tab has removed that head, the loop goes on
  without looking at the status again and submits the blocked head: `QueueBlocked.BlockedHeadIsSubmitted`. The exact condition is
  `QueueBlocked.BlockedSubmission`; when a post goes out without a new submission is `QueueBlocked.BlockedPost`. Items, verdict and numbering stay frozen all the same.
* *An offered action can always be enqueued.* Two things stand against it. Block and resume have no item under V3 and V4 and are refused
  (`QueueOffers.OfferedBlockRefused`, with a run of the server that is shooting under its id). And when nothing is pending and the server shows a
  run that is shooting or blocked without a run id, the item is stored but does not continue the run: the screen is left with an invalid list
  (`QueueOffers.OfferWithoutIdSticks`). Those are all: `QueueOffers.OfferEnqueued` says for each action what becomes of it, and
  `ActionState.ClosureCondition` when all that is offered goes well: under V2 unless the run lacks its id, under V3 and V4 unless the projected run
  is shooting or blocked. The screen of V3 and V4 passes over block and resume (public/kiosk-online-v3.js:105); for what is left the exact condition is
  `ActionState.PressableCondition`. The legacy kiosk keeps the promise on every server item that validateCurrentItem lets through
  (`ActionState.LegacyOffersHold`).
* *isBlocked answers no only when the identity is not blocked.* Its two reads are not atomic; a check that overlaps a healing and a newer
  revocation can answer no although every moment was blocked: `DeviceIdentity.OverlappedCheckMisses`. It does so exactly when between the two
  reads a newer token was stored and, after that, the token of the first read was the last one healed:
  `DeviceIdentity.CheckMissesExactlyWhenOvertaken`. What the second read alone tells is `DeviceIdentity.EndingCheckMisses`: with no token stored
  in between the answer is right. A check that starts after the revocation is stored cannot miss it (`DeviceIdentity.LaterCheckSeesRevocation`).
* *A session is published only by a call that nothing has overtaken.* The 404 branch of init publishes without looking at the epoch:
  `BrowserSession.LateNotFoundSignsOut`, and it is the only one: `BrowserSession.OnlyNotFoundPublishesLate`.
* *ROLLED_BACK means one exchange.* With two approved digests it can hide one: an exchange that a crash undoes, followed by one for the other
  digest (`RollbackExchange.CrashedExchangeHidden`). It holds exactly when no other digest was ever approved:
  `RollbackExchange.OneExchangeExactlyWhenOneApproved`. In every case an odd number is in effect; of two exchanges that both survive the second
  takes back the first, and the verdict is UNKNOWN (`RollbackExchange.TwoApprovalsCancel`).

Three limits of the code that the model makes exact: an enqueue that stops between its first two writes makes a queue with items unloadable
(`QueueSimulation.OnlyMarkerCrashUnloads`), and so does a reused event id (`QueueRefinement.ReusedIdBlocksQueue`); and an enqueue that reports a failed write
has stored its item all the same when only the last write failed (`QueueSimulation.EnqueueReport`).

## Assumptions

* A stretch of JavaScript between two awaits is one step, also across tabs, for the queue, the lease and the session. Device identity is modelled one
  storage operation at a time.
* The server keeps section 4.6 of docs/VCP_SHOOTING_OPERATIONS_EVOLUTION_PLAN_V2.1.md: idempotent by event id, compare-and-set on the run revision,
  and what it stores for an event is a receipt with that event's id, of any other content. A receipt that acknowledges an event is the one the server
  has stored for it; every other answer, receipts that acknowledge nothing included, may come at any time.
* New events have ids that were never used in this queue, and revocation tokens are new.
* Hashes: digests have 32 bytes, and the hash tells apart the inputs that are actually hashed. (An injective function with 32-byte results does not
  exist; the assumption is about the finite set of inputs at hand.)
* localStorage is written by this code only.

## Model

| member | source | states |
|---|---|---|
| SessionLayout.LayoutSessions | public/common.js:33-56 | the result lists the sessions by start, then end (a permutation of the input), cut into groups that never meet in time; any two sessions that meet, or start within 60 minutes of each other, have different columns and the same `columns`; each session takes the lowest column whose earlier sessions are out of its way, all below `columns`, and as many are open at one moment |
| SessionLayout.ColumnsOptimal | public/common.js:45-53 | no assignment that separates the sessions of a group that are not apart (one over, and an hour past its start, when the other starts) manages with fewer than `columns` columns |
| SessionLayout.OverlapMeans | public/common.js:46-49 | two sessions are kept in different columns exactly when neither is over and an hour past its start by the time the other starts |
| SessionLayout.NeverBusierThanColumns | public/common.js:48-52 | at no moment are more sessions of a group open than it has columns |
| SessionLayout.FirstFree | public/common.js:48-49 | the first column whose last session is over, or one past the end when none is |
| SessionLayout.AssignColumn | public/common.js:44-53 | placing the next session keeps every fact about the open group: columns, ends, the moment of its peak, connectedness |
| SessionLayout.TiesKeepInputOrder | public/common.js:34 | sessions with equal start and end keep their input order |
| FieldProtocol.ReceiptPinsItem | public/kiosk-queue-protocol-v3.js:38-48 | a receipt that matches one item matches another exactly when they agree on all that the receipt pins |
| FieldProtocol.MatchingReceiptsAgree | public/kiosk-queue-protocol-v3.js:38-48 | of two receipts for an event the second matches too exactly when it agrees on every tested field, the time among them that belongs to the event type |
| FieldProtocol.CommandPinsItem | public/kiosk-queue-protocol-v3.js:14-18 | under one binding, device-declared commands are equal exactly when the items are, up to the queue position |
| FieldProtocol.SomeReceiptMatches | public/kiosk-queue-protocol-v3.js:38-48 | the matching test can be met for every valid event the server accepts, and a receipt that meets it shows the state and revision the run moved to |
| ActionState.DeriveKioskActionState | public/kiosk-control-lock.js:27-91 | the loop with its early returns computes the fold over the longest valid prefix and the view made from it |
| ActionState.ValidListMeans | public/kiosk-control-lock.js:40-76 | a pending list is valid exactly when each event is of the schedule item, carries the run id, expects the revision of its place and may follow the state its predecessor leads to; and the run it leads to |
| ActionState.LastEventShows | public/kiosk-control-lock.js:57-90 | the last event of a valid list fixes the whole view: start and resume show shooting with block and complete, block shows blocked with resume, complete shows completed with nothing |
| ActionState.NothingPendingShows | public/kiosk-control-lock.js:77-90 | with nothing pending the view is the run of the server, and a scheduled one offers exactly start |
| ActionState.BrokenListShows | public/kiosk-control-lock.js:45-73 | an invalid list is shown up to its longest valid part, without actions, and with the run id of a breaking start exactly when only its state is wrong |
| ActionState.OnlyControllerActs | public/kiosk-control-lock.js:89 | only a tab in control that is not busy is offered actions, and nothing else of the view depends on it |
| ActionState.ConfirmingHeadKeepsProjection | public/kiosk-control-lock.js:40-76 | when the server applies the head, state, run id, revision and actions shown do not move |
| ActionState.RevisionCountsPending | public/kiosk-control-lock.js:74 | the projected revision is the server's plus one for each folded item |
| ActionState.OfferedActionsClosed | public/kiosk-control-lock.js:77-90 | unless its run lacks an id, an offered action with the returned run id and revision continues the pending list, one revision on |
| ActionState.OfferContinues | public/kiosk-control-lock.js:40-90 | for any pending list: an offered action continues it except exactly when nothing is pending, the server item has no run id and the action is not start |
| ActionState.ClosureCondition | public/kiosk-control-lock.js:40-90 | for any pending list: all offered actions give valid items that continue it, under V2 exactly unless nothing is pending and the server item runs without an id, under V3 and V4 exactly unless the projected run is shooting or blocked |
| ActionState.PressableCondition | public/kiosk-online-v3.js:102-109 | the same for the actions that have an item under V3 and V4: exactly unless nothing is pending and the server item is shooting (V2: or blocked) without an id |
| ActionState.LegacyOffersHold | public/kiosk-offline-queue-v2.js:182-191 | on every server item that validateCurrentItem accepts, all that V2 offers gives valid items that continue the pending list |
| QueueOffers.OfferEnqueued | public/kiosk-offline-queue-v2.js:735-768 | an offered action taken through enqueue: refused as an item exactly when it is block or resume under V3 or V4, else stored, and afterwards the screen's list is invalid exactly when the run lacked an id |
| QueueOffers.OfferedBlockRefused | public/kiosk-queue-protocol-v3.js:29 | a server run for which block is offered and its V3 item refused |
| QueueOffers.OfferWithoutIdSticks | public/kiosk-control-lock.js:49-60 | a server run for which complete is offered and stored, and the screen then shows an invalid list |
| ActionState.ServerAheadOffersNothing | public/kiosk-control-lock.js:45-54 | when the server revision is not the one the pending head expects, nothing is offered |
| QueueStorage.ValidateQueueState | public/kiosk-offline-queue-v2.js:322-351 | the loop accepts exactly the valid states: status and emptiness agree, ids distinct, numbers contiguous up to the next one |
| QueueStorage.BrowserQueueStorage.ReadSequenceMarkers | public/kiosk-offline-queue-v2.js:527-548 | in any key order: fails exactly when a marker is malformed, misplaced or repeats an event id, otherwise returns exactly the markers |
| QueueStorage.BrowserQueueStorage.ReadItems | public/kiosk-offline-queue-v2.js:550-565 | in any key order: fails exactly when an item is invalid, misplaced or unmarked, otherwise returns the stored items by number |
| QueueStorage.BrowserQueueStorage.MinimumNext | public/kiosk-offline-queue-v2.js:601 | one more than the highest marker, zero without markers |
| QueueStorage.BrowserQueueStorage.LoadFromRecords | public/kiosk-offline-queue-v2.js:596-612 | computes `QueueRecords.LoadFromRecords`, the specification of what a store loads as, error cases included |
| QueueStorage.SortedItems | public/kiosk-offline-queue-v2.js:564 | readable items have distinct numbers, so sorting leaves no choice |
| QueueStorage.BrowserQueueStorage.RemoveDequeued | public/kiosk-offline-queue-v2.js:624-629 | writes the specified removals in order, as far as the storage accepts them |
| QueueStorage.BrowserQueueStorage.AddEnqueued | public/kiosk-offline-queue-v2.js:630-655 | writes the specified markers and items in order, stopping at a conflict or at the first refused write |
| QueueStorage.BrowserQueueStorage.Finish | public/kiosk-offline-queue-v2.js:656-675 | reloads, then writes the first verdict and the merged meta record |
| QueueStorage.BrowserQueueStorage.Commit | public/kiosk-offline-queue-v2.js:619-676 | leaves the store as the commit plan cut at the accepted writes, and returns the reloaded state exactly when all went through |
| QueueStorage.KioskOfflineQueue.LoadState | public/kiosk-offline-queue-v2.js:406-416 | the loaded state, the initial one for an empty store, none when it is unreadable or invalid |
| QueueStorage.KioskOfflineQueue.CommitState | public/kiosk-offline-queue-v2.js:418-432 | store and result are those of `QueueCommit.TryCommit` for every number of accepted writes |
| QueueStorage.KioskOfflineQueue.Enqueue | public/kiosk-offline-queue-v2.js:735-768 | store and result code are those of `Replay.EnqueueOp`, with all its refusals |
| QueueStorage.ReplayCall.constructor | public/kiosk-offline-queue-v2.js:770-779 | a replay begins with the refresh, or ends at once when the state does not load |
| QueueStorage.ReplayCall.Refreshed | public/kiosk-offline-queue-v2.js:780-827 | the stretch from the refresh answer to the first submission is `Replay.AfterRefresh` |
| QueueStorage.ReplayCall.Judge | public/kiosk-offline-queue-v2.js:847-907 | after reloadHead and the cascade of response tests, run as such, the head is taken exactly on a matching receipt of an expected status while it is first, unchanged and without verdict, and marked exactly on its own review or refusal while it is first and unchanged |
| QueueStorage.ReplayCall.Answered | public/kiosk-offline-queue-v2.js:829-909 | the stretch from a response to the next submission or the end is `Replay.AfterResponse` |
| QueueStorage.ReplayCall.Transported | public/kiosk-queue-protocol-v3.js:69-81 | with the transport around it, which turns every ok body that is not the receipt of this item into a conflict, the stretch is the `Respond` action of `QueueRuns`; a looked-up head is posted exactly when the answer is 404 EVENT_NOT_FOUND and the device declared its time, whatever its event type |
| QueueRecords.LoadedIsAssembled | public/kiosk-offline-queue-v2.js:596-612 | a state that loads is the one assembled from readable records, also for the empty store, and is valid |
| QueueRecords.ContiguousAscending | public/kiosk-offline-queue-v2.js:338-350 | a valid queue is numbered without gaps up to the next number and holds no id twice |
| QueueRecords.ValidStepByStep | public/kiosk-offline-queue-v2.js:322-351 | validity as the loop decides it, number by number: synced exactly when empty, no id twice, each number one past the last, all within 2^53 - 1 |
| QueueRecords.AscendingUnique | public/kiosk-offline-queue-v2.js:564 | items by rising number are determined by what they contain |
| QueueCommit.NothingLostOrInvented | public/kiosk-offline-queue-v2.js:624-655 | for any base and any place where the writes stop, an item appears only if the caller added it and disappears only if the caller took it out |
| QueueCommit.CommitMovesForward | public/kiosk-offline-queue-v2.js:656-675 | for any base and any stop, the next number and the cached projection revision never go back |
| QueueCommit.CommitIsThreeWayMerge | public/kiosk-offline-queue-v2.js:619-655 | after a full commit an item is stored exactly when it was and was not taken out, or was added |
| QueueCommit.MergedItems | public/kiosk-offline-queue-v2.js:619-676 | the same for the queue that loads afterwards |
| QueueCommit.LaterEnqueueLoses | public/kiosk-offline-queue-v2.js:632-638 | of two enqueues at one number the later one changes nothing and fails |
| QueueCommit.AdditionOutcome | public/kiosk-offline-queue-v2.js:630-655 | an addition fails exactly when its number or its place holds something else, and writes exactly what of its marker and item is not there yet |
| QueueCommit.InvalidStateFails | public/kiosk-offline-queue-v2.js:418-432 | a commit from or to an invalid state writes nothing and fails |
| QueueCommit.NewestCacheWins | public/kiosk-offline-queue-v2.js:657-660 | of the stored and the committed cache the newer projection is kept, the committed one when equal |
| QueueCommit.PlanLawful | public/kiosk-offline-queue-v2.js:619-675 | every write a commit can make is a removal of a dropped item, a new marker or item of an addition, a first verdict on the common head, or a meta record that moves forward |
| QueueRefinement.EnqueueEffect | public/kiosk-offline-queue-v2.js:630-675 | an enqueue cut after any number of writes: nothing, the marker alone (number skipped, or a queue with items unloadable), or the whole enqueue |
| QueueRefinement.DequeueEffect | public/kiosk-offline-queue-v2.js:624-629 | a dequeue cut anywhere loads as the old or the new queue |
| QueueRefinement.VerdictEffect | public/kiosk-offline-queue-v2.js:661-669 | a verdict sticks with its first write, and an earlier verdict is never replaced |
| QueueRefinement.RefreshEffect | public/kiosk-offline-queue-v2.js:656-675 | a cache refresh changes nothing but the cache, which keeps the newer projection |
| QueueRefinement.ReusedIdBlocksQueue | public/kiosk-offline-queue-v2.js:541-546 | after an enqueue the queue still loads exactly when its event id was never marked before |
| Replay.DecisionRule | public/kiosk-offline-queue-v2.js:870-907 | the head is taken only on its own confirmation, and marked only while it is the head |
| Replay.ClassifyRule | public/kiosk-offline-queue-v2.js:847-903 | the cascade without its order: exactly which answers confirm the head, send it to review or reject it; all others decide nothing |
| Replay.OnlyReceiptsConfirm | public/kiosk-offline-queue-v2.js:449-460 | nothing but a receipt that acknowledges the head confirms it, whichever request brought it |
| Replay.ServerTimedNeverPosted | public/kiosk-queue-protocol-v3.js:72-76 | a server-timed event is never posted, and an unknown one decides nothing |
| QueueProgress.LookupPosts | public/kiosk-queue-protocol-v3.js:72-76 | under V3 and V4 an answer moves a call from lookup to post, with store and counts unchanged, exactly when it is 404 EVENT_NOT_FOUND and the device declared the event; an event that the server was to time ends the call |
| QueueProgress.BeginRule | public/kiosk-offline-queue-v2.js:770-779 | a replay begins with the refresh and the cached revision, nothing submitted or counted, or is over at once |
| QueueProgress.InvalidItemRule | public/kiosk-queue-protocol-v3.js:25-31 | exactly which items enqueue refuses as invalid, by protocol |
| QueueProgress.WrongReceiptBlocks | public/kiosk-queue-protocol-v3.js:77-81 | an ok answer that is not the receipt of the head blocks the queue with a conflict, on the lookup as on the post |
| QueueProgress.RefreshStores | public/kiosk-offline-queue-v2.js:780-823 | the revision of a day, or the known one when nothing was modified, is stored with the time, except when it is unusable or older than the stored one |
| QueueProgress.RefreshLeads | public/kiosk-offline-queue-v2.js:780-829 | after the refresh a call goes on to the head exactly when revision and time are usable and the queue has items and no verdict, to its lookup under V3 and V4, to its post under V2 |
| QueueProgress.ReplayCanEmpty | public/kiosk-offline-queue-v2.js:829-910 | progress: from every reachable world with an open queue that the server would apply item by item, a run of one new call empties it, having submitted and counted each item once |
| QueueRuns.StepKeepsInv | public/kiosk-offline-queue-v2.js:735-910 | each action of any tab, of the network or of the server keeps the invariant of stores, books, calls and server |
| QueueRuns.AnythingMayHappen | public/kiosk-offline-queue-v2.js:735-910 | the environment of the runs is free: any answer but an invented receipt may come, any posted item be processed again, any call begin or be lost |
| QueueSafety.ExactlyOnceInOrder | public/kiosk-offline-queue-v2.js:829-910 | in every run: first applications in enqueue order and none twice, removed plus stored items are the enqueue history, everything removed is acknowledged by the server |
| QueueSafety.NumbersNeverReused | public/kiosk-offline-queue-v2.js:600-602 | along every run next number and cached projection never go back, and later items get numbers never in use |
| QueueSafety.SubmissionsRise | public/kiosk-offline-queue-v2.js:829-846 | a call's submissions strictly rise, no event twice, and none of them had been removed when it refreshed |
| QueueSafety.SubmittedHeadStaysFirst | public/kiosk-offline-queue-v2.js:395-404 | while the submitted head is in the queue it is first and unchanged, so reloadHead never finds it misplaced |
| QueueSafety.ReplayEnds | public/kiosk-offline-queue-v2.js:829-910 | with nothing new enqueued a call submits at most the items then pending and takes at most twice as many answers, whatever other tabs do |
| QueueSafety.AnswerLowersRank | public/kiosk-offline-queue-v2.js:829-910 | every answer brings a call nearer to its end |
| QueueSimulation.StepSimulates | public/kiosk-offline-queue-v2.js:735-910 | what loads after a step is exactly the abstract step of what loaded before, wherever the writes stop |
| QueueSimulation.RunSimulates | public/kiosk-offline-queue-v2.js:735-910 | what loads after any run is the abstract queue after the abstract run, an unloadable queue staying so |
| QueueProjection.StepKeepsProjection | public/kiosk-offline-queue-v2.js:829-910 | no step of a replay, in any tab and with late or repeated requests, moves the run that the unapplied events of a schedule item lead to |
| QueueProjection.ReplayReachesProjection | public/kiosk-offline-queue-v2.js:829-910 | once the queue has run empty, over store, tabs, crashes and network, the server's run has the state, run id and revision to which the events it had not applied led before the replay |
| QueueProjection.ScreenShowsProjection | public/kiosk-online-v3.js:17-19 | the stored items folded over the server's run, or, when the server is one ahead, over its run from before that, show where the run is heading; the unfiltered list of V2 is invalid exactly when items of other schedule items are queued |
| QueueProjection.FreshScreenOneAhead | public/kiosk-control-lock.js:45-54 | a screen that has fetched the run of a server one step ahead shows an invalid list and offers nothing |
| QueueProjection.ReplayReachesScreen | public/kiosk-offline-queue-v2.js:829-910 | so a full replay ends with the server's run as a screen with a valid list had shown it |
| QueueSimulation.EnqueueReport | public/kiosk-offline-queue-v2.js:735-768 | accepted means stored, a refusal leaves the store alone, and a reported write failure has stored the item exactly when only the meta record was refused |
| QueueSimulation.OnlyMarkerCrashUnloads | public/kiosk-offline-queue-v2.js:632-653 | a queue stops loading exactly by an enqueue onto items that is cut after its marker |
| QueueSimulation.UnloadableStays | public/kiosk-offline-queue-v2.js:406-416 | an unloadable store is not touched by any step |
| QueueBlocked.StepKeepsBlocked | public/kiosk-offline-queue-v2.js:738-740 | a blocked queue keeps items, verdict and next number in every step, and refuses enqueues |
| QueueBlocked.BlockedForever | public/kiosk-offline-queue-v2.js:824-826 | the same over every later run |
| QueueBlocked.VerdictLandsOnItsEvent | public/kiosk-offline-queue-v2.js:887-907 | a step blocks a queue exactly when it brings the head's own refusal or review while it is the head |
| QueueBlocked.BlockedSubmission | public/kiosk-offline-queue-v2.js:870-874 | a step submits from a blocked queue exactly when it answers a head that someone else has removed |
| QueueBlocked.BlockedPost | public/kiosk-queue-protocol-v3.js:69-81 | while a queue is blocked a step posts exactly when a lookup begun before sends its head on to be posted, or under V2 when it begins such a submission |
| QueueBlocked.BlockedHeadIsSubmitted | public/kiosk-offline-queue-v2.js:870-874 | a run from the start in which a blocked head is submitted |
| ControlLease.KioskControlLock.AttemptLease | public/kiosk-control-lock.js:221-241 | for every failing read or write: the tab gets control exactly when the lease is absent, its own or expired and its own lease comes back, and otherwise it is read-only; it writes nothing but its own lease, and only over a free one |
| ControlLease.KioskControlLock.Heartbeat | public/kiosk-control-lock.js:243-253 | control is kept exactly by reading the own lease and getting the renewed one back, and gained exactly as at the start; a lease that is not free for the tab is left alone |
| ControlLease.KioskControlLock.StorageChanged | public/kiosk-control-lock.js:255-267 | whatever value the event carries: a tab in control writes nothing and keeps control exactly when the value is its own unexpired lease; another gains it only over a free lease with its own written back |
| ControlLease.KioskControlLock.Stop | public/kiosk-control-lock.js:316-329 | the lease is removed only by a tab in control of it that finds it its own, and then it is removed when storage works; afterwards the tab is not in control |
| ControlLease.UnexpiredLeaseRespected | public/kiosk-control-lock.js:234-267 | without any timing assumption, no step overwrites or removes another owner's unexpired lease |
| ControlLease.OneControllerInTime | public/kiosk-control-lock.js:221-280 | in every run, of two tabs in control one has not renewed for 8000 ms |
| ControlLease.TwoBeatsMayBeLost | public/kiosk-control-lock.js:3-4 | while a third heartbeat of 2500 ms is not late, no other tab gains control and nobody touches the lease |
| ControlLease.AnythingMayHappen | public/kiosk-control-lock.js:243-331 | the tabs of the runs are free: within the order of the clock they open, wake, hear, stop or vanish at any time |
| ControlLease.TwoControllersWhenOverdue | public/kiosk-control-lock.js:234-241 | at exactly 8000 ms without renewal two tabs can be in control |
| ControlLease.OverlapEnds | public/kiosk-control-lock.js:243-253 | such an overlap ends with the late tab's next heartbeat, which leaves the new lease alone |
| ControlLease.ControlIsBacked | public/kiosk-control-lock.js:221-253 | right after a handler that takes or keeps control the stored lease is the tab's own, with its full duration |
| ControlLease.TakesControlExactlyWhenFree | public/kiosk-control-lock.js:221-241 | a starting tab gets control exactly when the lease is absent, its own or expired and its write is read back |
| ControlLease.StopRule | public/kiosk-control-lock.js:311-331 | a stopping tab gives up control, and the lease exactly when it holds it and storage works; nothing else changes |
| ControlLease.UnreadableLease | public/kiosk-control-lock.js:165-181 | a lease text does not parse exactly when it is no lease, has no owner or runs beyond the safe integers |
| ControlLease.GarbledLeaseLocksOut | public/kiosk-control-lock.js:165-181 | a lease text that does not parse keeps every tab out for good |
| DeviceIdentity.KioskDeviceProvisioner.HealThrough | public/kiosk-device-identity-v1.js:102-113 | undisturbed, healing succeeds exactly when the stored token is the given one, and then nothing is blocked |
| DeviceIdentity.KioskDeviceProvisioner.Provisioned | public/kiosk-device-identity-v1.js:220-234 | undisturbed, a device is verified exactly when it is not another one and the token has not changed since the start |
| DeviceIdentity.RevocationHolds | public/kiosk-device-identity-v1.js:82-113 | in every interleaving of single operations a stored revocation blocks until a provision that started later heals the token it read as it started |
| DeviceIdentity.InFlightCannotUndo | public/kiosk-device-identity-v1.js:124-234 | provisions under way when a revocation is stored never undo it |
| DeviceIdentity.VerifiedMeansNotRevoked | public/kiosk-device-identity-v1.js:227-234 | no revocation was stored between the first and the last token read of a successful provision |
| DeviceIdentity.LaterCheckSeesRevocation | public/kiosk-device-identity-v1.js:85-89 | an isBlocked that starts after a revocation is stored answers no only after such a healing |
| DeviceIdentity.CheckMissesExactlyWhenOvertaken | public/kiosk-device-identity-v1.js:85-89 | an isBlocked that is blocked at every moment from its first read to its last answers no exactly when a newer token was stored in between and, after that, the token of the first read was the last one healed |
| DeviceIdentity.EndingCheckMisses | public/kiosk-device-identity-v1.js:85-89 | an ending isBlocked misses a block exactly when the stored token is no longer the one it read and that one was none or is the healed one; with no newer token its answer is right |
| DeviceIdentity.UnblockingStep | public/kiosk-device-identity-v1.js:102-113 | a step unblocks exactly when it is a provision's healing write of the stored token |
| DeviceIdentity.BlockingStep | public/kiosk-device-identity-v1.js:90-113 | an unblocked identity, also one never revoked, is blocked exactly by storing a revocation or by the late healing write of an overtaken provision |
| DeviceIdentity.ProceedAdvances | public/kiosk-device-identity-v1.js:102-113 | each storage operation brings a provision nearer to its end, and a read of the token fails it exactly when another token is stored |
| DeviceIdentity.UndisturbedProvision | public/kiosk-device-identity-v1.js:220-234 | an uninterrupted provision succeeds exactly when its first token is still stored, and then storage and latch no longer block |
| DeviceIdentity.OverlappedCheckMisses | public/kiosk-device-identity-v1.js:85-89 | a run in which isBlocked answers no although every moment was blocked |
| DeviceIdentity.LatchRule | public/kiosk-device-identity-v1.js:90-113 | the latch of a page is set exactly by its own revocation and its failing provisions, and cleared exactly by its verified ones |
| BrowserSession.Browser.CompleteLogin | public/browser-session.js:29-33 | a login publishes what was granted exactly when nothing was published since it was sent and the device is the same, and otherwise changes neither session nor epoch; one overtaken by a logout is discarded under the logout mark |
| BrowserSession.Browser.CompleteInit | public/browser-session.js:18-24 | a status publishes exactly when it is 404, or nothing was published meanwhile and it is not an authenticated session under a logout mark; a published authenticated session is the one answered |
| BrowserSession.Browser.CompleteRequest | public/browser-session.js:35-44 | a response counts exactly at the epoch it was asked for at and when it is no 401; a 401 at that epoch signs the session out and moves the epoch on, and nothing else does |
| BrowserSession.Browser.Logout | public/browser-session.js:45-49 | unless a logout is under way the tab is signed out at once, with the mark set and both epochs moved on; otherwise nothing changes |
| BrowserSession.PublicationRule | public/browser-session.js:4-51 | for every step of every run: what it publishes, if anything; the session is the last publication and the epoch their number |
| BrowserSession.UnauthorizedSignsOut | public/browser-session.js:42 | in every run a 401 to a request of the standing session, which was authenticated, leaves the signed-out one |
| BrowserSession.LoginRule | public/browser-session.js:25-34 | where every step leads every login: waiting, asking for the device or the session, discarding, ended |
| BrowserSession.LogoutDiscardsLogin | public/browser-session.js:29 | in every run a login that the server grants after this tab has logged out is discarded under the logout mark, and publishes nothing |
| BrowserSession.MarkSet | public/browser-session.js:12-49 | this tab sets the logout mark exactly by a logout or by discarding a login |
| BrowserSession.MarkCleared | public/browser-session.js:12-49 | it clears the mark exactly by a confirmed sign-out, a status without a session, or a new login |
| BrowserSession.OneLogoutAtATime | public/browser-session.js:45-49 | a logout is under way from its call to its answer, and a second call changes nothing |
| BrowserSession.TurnRule | public/browser-session.js:33 | a login lets go of the turn as it ends, and of nobody else's |
| BrowserSession.AnythingMayHappen | public/browser-session.js:16-51 | the environment of the runs is free: any call may begin, any answer come in any order, other tabs act at will |
| BrowserSession.WaitsForLiveCalls | public/browser-session.js:17-34 | in every run the login that others wait for is under way, and init is asked again exactly when there is none or it has failed |
| BrowserSession.LoginPublishesUndisturbed | public/browser-session.js:25-31 | a login publishes only if nothing was published since it was called |
| BrowserSession.OverlappingLoginsPublishOnce | public/browser-session.js:25-34 | of two logins that publish, the later one was called after the earlier had published |
| BrowserSession.LogoutSticks | public/browser-session.js:45-49 | after a logout, or any other publication, an authenticated session comes only from a login or init that began after it |
| BrowserSession.ResponseBelongsToSession | public/browser-session.js:35-44 | a request returns a response only at the epoch it was sent at, so that nothing was published in between, and under the authenticated session it was sent with |
| BrowserSession.OnlyNotFoundPublishesLate | public/browser-session.js:18-24 | the only overtaken call that still publishes is an init answered with 404 |
| BrowserSession.LateNotFoundSignsOut | public/browser-session.js:18 | a run in which that 404 undoes a login |
| RowEncoding.RowRoundTrip | scripts/g3-forward-adoption-readonly-witness.py:57-75 | a decoder recovers every row from its frames |
| RowEncoding.FramedInjective | scripts/g3-forward-adoption-readonly-witness.py:72-75 | rows have equal frames exactly when they are equal |
| RowEncoding.CapacityIs | scripts/g3-forward-adoption-readonly-witness.py:61 | lengths are framed below 2 to the 64th |
| RowEncoding.LengthBytes | scripts/g3-forward-adoption-readonly-witness.py:61 | a length has eight bytes, the most significant first |
| RowEncoding.TextBytes | scripts/g3-forward-adoption-readonly-witness.py:62-64 | the frame of a text, byte by byte |
| RowEncoding.BlobBytes | scripts/g3-forward-adoption-readonly-witness.py:60-61 | the frame of a blob, byte by byte |
| RowEncoding.RealBytes | scripts/g3-forward-adoption-readonly-witness.py:67-68 | the frame of a float, byte by byte |
| RowEncoding.NullBytes | scripts/g3-forward-adoption-readonly-witness.py:58-59 | the frame of a null, byte by byte |
| RowEncoding.MinusTenBytes | scripts/g3-forward-adoption-readonly-witness.py:65-66 | the frame of an integer, byte by byte |
| RowEncoding.PlainIntegers | scripts/g3-forward-adoption-readonly-witness.py:65-66 | integers are decimal, without leading zeros, and with a minus exactly when negative |
| RowEncoding.FramesJoin | scripts/g3-forward-adoption-readonly-witness.py:73-74 | the encoding of a row is the frames of its fields, one after the other |
| RowSets.RowSet | scripts/g3-forward-adoption-readonly-witness.py:78-91 | the loops compute the specified summary, or fail when there are more than 250000 rows or a field is too long |
| RowSets.RowSetInputMeans | scripts/g3-forward-adoption-readonly-witness.py:87-90 | what is hashed is the domain "G3_ROWSET_R1" with a zero byte, then the row digests by rising bytes |
| RowSets.RowInputMeans | scripts/g3-forward-adoption-readonly-witness.py:75 | a row is hashed after the domain "G3_ROW_R1" with a zero byte |
| RowSets.ReadOrderIrrelevant | scripts/g3-forward-adoption-readonly-witness.py:83-91 | whatever the hash, reading the rows in another order gives the same summary |
| RowSets.SummaryDecidesTable | scripts/g3-forward-adoption-readonly-witness.py:72-91 | summaries agree exactly when the columns are equal and the rows are equal as multisets |
| ConservativeExtension.CompareTables | scripts/g3-forward-adoption-readonly-witness.py:249-261 | exactly the mismatched, removed, unexpected and nonempty added tables are reported |
| ConservativeExtension.CompareHistory | scripts/g3-forward-adoption-readonly-witness.py:262-274 | exactly the faults of the migration records are reported |
| ConservativeExtension.CompareManifests | scripts/g3-forward-adoption-readonly-witness.py:275-283 | exactly the drifts from the pinned schemas and the wrong table counts are reported |
| ConservativeExtension.CompareHeaders | scripts/g3-forward-adoption-readonly-witness.py:284-290 | exactly the header, integrity and foreign-key faults are reported |
| ConservativeExtension.CompareMetadata | scripts/g3-forward-adoption-readonly-witness.py:291-300 | exactly the metadata drifts of the legacy tables are reported, those of index list and flags for all but the rebuilt table |
| ConservativeExtension.CompareIndexes | scripts/g3-forward-adoption-readonly-witness.py:301-305 | exactly the drifted indexes are reported |
| ConservativeExtension.Prove | scripts/g3-forward-adoption-readonly-witness.py:247-306 | a problem is returned exactly when its condition holds, and none at all exactly when tables, history, metadata, indexes and headers are kept and, under g3, the released schemas, migration and tables are met, every name and number written out |
| ConservativeExtension.NoProblemsExactly | scripts/g3-forward-adoption-readonly-witness.py:247-306 | the same for the conditions of all problems together: with none, every kept table other than schema_migrations, scheduling_config_versions and the sqlite_ ones has equal foreign keys, index list and flags, and scheduling_config_versions equal foreign keys |
| ConservativeExtension.ProblemsNamed | scripts/g3-forward-adoption-readonly-witness.py:255-280 | schema and column drifts name their side, removed and nonempty tables themselves |
| ConservativeExtension.MismatchMeansDifferentTable | scripts/g3-forward-adoption-readonly-witness.py:252-254 | two reported summaries are equal exactly when the tables themselves are |
| ConservativeExtension.RowChecksDecideExtension | scripts/g3-forward-adoption-readonly-witness.py:247-263 | the row and history checks pass exactly when the active database keeps every prestate table but schema_migrations, adds only empty ones and extends the migration records |
| ConservativeExtension.NoProblemsSound | scripts/g3-forward-adoption-readonly-witness.py:247-306 | with no problems the active database only extends the prestate |
| ConservativeExtension.G3Sound | scripts/g3-forward-adoption-readonly-witness.py:264-283 | with no problems under g3 it adds exactly migration 11 and its two tables, both empty |
| CanonicalJson.StringRoundTrip | scripts/g3-authority-reconciliation-rollback-executor.py:83 | an escaped string reads back, with the escapes of section 7 of RFC 8259 |
| CanonicalJson.CanonicalRoundTrip | scripts/g3-authority-reconciliation-rollback-executor.py:79-93 | a canonical text parses back, uniquely, to what the value means, finite floats included |
| CanonicalJson.CanonicalDecidesMeaning | scripts/g3-authority-reconciliation-rollback-executor.py:79-93 | two values, finite floats included, have the same canonical text exactly when they mean the same, dicts taken as maps |
| CanonicalJson.InsertionOrderIrrelevant | scripts/g3-authority-reconciliation-rollback-executor.py:89-92 | the order in which a dict was filled changes neither the text nor the error |
| CanonicalJson.KeysInCodePointOrder | scripts/g3-authority-reconciliation-rollback-executor.py:89-92 | the fields of a dict are printed by rising names: a proper prefix first, otherwise by the first differing code point |
| CanonicalJson.ShortestEscapes | scripts/g3-authority-reconciliation-rollback-executor.py:83 | which characters are printed as they are, with two and with six characters, the latter with small hexadecimal digits |
| CanonicalJson.PlainText | scripts/g3-authority-reconciliation-rollback-executor.py:83 | a string is printed as it is exactly when it has no quote, backslash or control character |
| CanonicalJson.PlainIntegers | scripts/g3-authority-reconciliation-rollback-executor.py:83 | integers are printed without leading zeros, and with a minus exactly when negative |
| CanonicalJson.FloatTexts | scripts/g3-authority-reconciliation-rollback-executor.py:81-83 | texts of floats as Python prints them, and two that are none |
| CanonicalJson.RaisesExactly | scripts/g3-authority-reconciliation-rollback-executor.py:80-93 | the error is raised exactly when something inside is no JSON value or a dict with a key that is no string or one of the three forbidden names |
| RollbackExchange.FileSystem.ClaimAttempt | scripts/g3-authority-reconciliation-rollback-executor.py:660-696 | a claim succeeds only whole and durable, and an existing one is refused without any change |
| RollbackExchange.FileSystem.Execute | scripts/g3-authority-reconciliation-rollback-executor.py:740-794 | undisturbed, with any call failing: the report for each fault, what was exchanged and what is durable, and that it is one executor of the concurrent model left alone |
| RollbackExchange.AtMostOneExchange | scripts/g3-authority-reconciliation-rollback-executor.py:660-696 | over all executors and crashes a digest is exchanged at most once, counting exchanges a crash has undone |
| RollbackExchange.AnythingMayHappen | scripts/g3-authority-reconciliation-rollback-executor.py:660-794 | the environment of the runs is free: crashes and write-backs at any time, and any call may raise |
| RollbackExchange.ExchangeImpliesDurableClaim | scripts/g3-authority-reconciliation-rollback-executor.py:740-771 | an exchange, surviving or not, leaves a whole claim record that survives every crash |
| RollbackExchange.ClaimTurnsLaterAway | scripts/g3-authority-reconciliation-rollback-executor.py:681-690 | once a digest was exchanged every later executor for it ends with RECONCILIATION_REQUIRED and changes nothing |
| RollbackExchange.ReportsAreHonest | scripts/g3-authority-reconciliation-rollback-executor.py:740-794 | COMPLETE means the exchange survives crashes, and exchangeMayHaveOccurred false means there was none |
| RollbackExchange.RolledBackMeansOdd | scripts/g3-authority-reconciliation-rollback-recovery-terminal-verifier.py:774-850 | ROLLED_BACK needs an exchange, and an odd number of distinct digests in effect |
| RollbackExchange.RolledBackMeansOneExchange | scripts/g3-authority-reconciliation-rollback-recovery-terminal-verifier.py:875-915 | with one approved digest ROLLED_BACK means exactly one exchange ever, in effect, with a durable claim |
| RollbackExchange.CompleteIsConfirmed | scripts/g3-authority-reconciliation-rollback-recovery-terminal-verifier.py:774-850 | with one approved digest a reported COMPLETE is confirmed as ROLLED_BACK, also after a crash |
| RollbackExchange.VerdictTells | scripts/g3-authority-reconciliation-rollback-recovery-terminal-verifier.py:774-850 | with one approved digest ROLLED_BACK exactly when its exchange is in effect, and no attempt exactly when its record is missing or not whole |
| RollbackExchange.CrashedExchangeHidden | scripts/g3-authority-reconciliation-rollback-recovery-terminal-verifier.py:875-915 | a run with two approved digests and two exchanges, the first undone by a crash, that ends in ROLLED_BACK |
| RollbackExchange.OneExchangeExactlyWhenOneApproved | scripts/g3-authority-reconciliation-rollback-recovery-terminal-verifier.py:875-915 | for every set of approved digests: ROLLED_BACK always means exactly one exchange if and only if the set holds the one digest |
| RollbackExchange.TwoApprovalsCancel | scripts/g3-authority-reconciliation-rollback-recovery-terminal-verifier.py:612-614 | a run in which two approved digests exchange back and forth |

## Left out

- DOM, rendering, polling and file-merging code: user interface, or settled by reading one branch.
- HTTP, fetch, timeouts, abort controllers and timers: the network is a source of arbitrary answers, of which only receipts are constrained.
- The 2500 ms heartbeat timer: heartbeats may come at any time, and the theorems about the lease speak of the 8000 ms since the last renewal.
- Web Locks mode of the control lock: the browser gives the exclusion.
- Field-shape validators (identifier and timestamp syntax, exact keys, note lengths, reason codes): one validity predicate per item; malformed JSON is one kind of record.
- The result-code table of V2 (public/kiosk-offline-queue-v2.js:60-88): a listed code carries the status it is expected with.
- The outcome objects that replay returns to the screen: only what it stores, submits and counts is modelled.
- getToken, isCurrent and the binding check of the field transport: a changed context is an exception, which is the unanswered request of the model.
- Removal of records by another program, storage.clear(), and a partly written single value.
- Server transitions other than the four field events, among them cancel: they appear as arbitrary changes of the server's runs.
- Event times outside the allowed drift: an answer that asks for review.
- Revocations whose token cannot be stored, and two first provisions that race with different device ids: the code gives no guarantee there.
- The in-memory latch of a page across interleavings: the theorems speak of what is stored; the class methods cover the latch of one page.
- The device id of the browser session and the storage marks it leaves for other tabs: other tabs act by arbitrary storage events, and set or clear the logout mark at any time.
- UTF-8: text values and identifiers are taken as their encoded bytes or as characters; a lone surrogate, which Python refuses to encode, does not occur.
- CanonicalJson.CanonicalRoundTrip: a finite float is given by the text Python prints for it, and two floats are the same when these texts are; infinities and NaN, which raise, do not occur.
- RollbackExchange.RolledBackMeansOneExchange: the snapshot the verifier compares (identities, sizes, schema facts, containment) is reduced to which of the two files has the active name; the rest are constants compared in one branch.
- RollbackExchange.Verdict: an unstable or unavailable snapshot, which ends as UNKNOWN, is not told apart from an unswapped one.
- Ed25519, openssl, docker, lsof, mount and host checks: one precheck before the claim.
- Partial directory or file-system damage beyond lost, not yet durable writes.
- ConservativeExtension.Prove: returns the set of problems; the order and wording of the problem strings are not modelled, and a digit of a timestamp is an ASCII digit.
- scripts/g3-schema11-cutover-executor.py and scripts/verify-cross-host-recovery.py: they repeat the claim-and-exchange shape or are input and output.
