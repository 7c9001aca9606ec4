# Sable coordination model

Sable is a Matrix client: a Rust core serves several pages through a worker, a native shell or a
server. This project models the coordination code around that core and proves what it promises on
every interleaving: no list drifts from the core's, no account loses its token to a crash, no stale
task touches another session, no two cores keep one store, no request is answered twice.

Each module has the same shape. A class holds the fields the program updates, with one method per
stretch of code that runs without awaiting. Every method's `ensures` gives its whole new state as a
function of the old one. The lemmas are about those functions, and most about a state machine over
them, in which a step can be taken by anyone who could take it in the program: another page, another
task, a timer, the browser's lock manager, a network that drops, a process that dies between two
disk writes.

| file | what it covers |
|---|---|
| `timeline_diffs.dfy` | the diffs of a timeline and the page's in-place replay |
| `timeline_router.dfy`, `core_worker_boundary.dfy` | events buffered until a page knows its subscription id, and the worker boundary that drives the buffer |
| `timeline_delivery.dfy` | core, boundary and pages together |
| `timeline_overflow.dfy`, `timeline_broadcast.dfy` | when buffers overflow, what a reply opens, who owns what; which ports are open and what all of them hear |
| `search_activity.dfy` | the queue of search option calls and the foreground flag |
| `account_store.dfy`, `account_core.dfy`, `account_runs.dfy`, `account_effects.dfy` | the account registry, the token files and the clients that refresh them |
| `session_control.dfy`, `session_runs.dfy`, `session_answers.dfy` | session generations, rejections and locked accounts |
| `lock_order.dfy` | the order of the core's locks |
| `store_ownership.dfy` | which worker may run a core on the store |
| `adaptive_fetch.dfy` | the per-origin fetch limiter |
| `web_transport.dfy`, `ws_transport.dfy` | the two request/reply transports, the second with the server it resumes from |
| `attachment_framing.dfy` | the binary body of an upload, written and read |
| `event_sink.dfy` | the native replay buffer |
| `call_shortcuts.dfy`, `window_state.dfy` | global shortcuts and the restored window |
| `options.dfy` | an option type |

## What turned out false

The code is modelled as it is. Where a promise one would expect fails, a lemma says exactly when it
holds, and mostly another gives a run that breaks it.

- Clearing the persisted session deletes every token file while the registry in memory lives on. A
  usable account whose tokens are only in its file then has none, and the next registry write makes
  that durable (`LogoutWithoutASessionLosesAnAccount`; exactly when: `ClearKeepsBackedExactlyWhen`,
  `ClearBreaksDurabilityExactlyWhen`).
- Locking an account reads the generation and sets the flag in two steps. A lock that sets the flag
  after a switch leaves the new session locked, with no task left to unlock it (`LateLockSticks`;
  exactly when: `AttendedExactlyWhen`).
- A watcher that announces a locked account reads the generation and emits in two steps, with no lock
  held. Its notice can follow the end of its own generation (`LateAnnouncementFollowsTheEnd`; exactly
  when: `NoticesFollowEndsExactlyWhen`; once a rejection outdated a generation, this can still happen
  exactly when an announcement of it is between the two steps: `EndCanBeFollowedExactlyWhen`).
- A websocket client that has heard no event yet names none, so the server replays nothing and what a
  drop cost stays lost (`EarlyEventsAreLost`; exactly when: `FirstHeardFollowsItsConnection`,
  `MissedExactlyWhen`).
- A restarted server's hello renames the run before its reset arrives. If the socket drops between
  the two, the next connection names the new run with the old number, no reset is sent, and new
  events are passed over as already heard (`LostResetHidesEvents`; exactly when:
  `ResumesExactlyWhen`).
- On the websocket, a stall that ends by one reply or by a new connection leaves the other requests
  unwatched until the next request (exactly when: `WatchedExactlyWhen`).
- The discovery of login flows times out without stopping its stall timer. The settled request then
  counts as overdue, and the worker is probed for it, until the worker ends (`OrphansStay`; exactly
  when: `OverdueIsPendingExactlyWhen`).
- Two workers that open their channels before either posts supersede each other, and none is left
  (`BothCanBeSuperseded`; exactly when: `ClosesExactlyWhen`, `NoneSurvivesExactlyWhen`,
  `LastPosterSurvivesExactlyWhen`).
- A page list gets holes from a write past its end or a longer length (exactly when:
  `HolesExactlyWhen`); the core emits neither.

Two branches turned out never to be taken: the generation check at the start of a session always
passes (`ClaimStaysNewest`), and a rejected token always has an account to retire, so a rejection
never clears every account (`RejectionRetiresItsOwnAccount`).

## Model

| member | source | states |
|---|---|---|
| `TimelineDiffs.ApplyDiffs` | src/transport/index.ts:101-141 | the replay loop, with the array operations of JavaScript, is the diffs applied one after another |
| `TimelineDiffs.PageFollowsCore` | src/transport/index.ts:100-141 | replaying any diffs the core can emit gives exactly the core's list, free of holes |
| `TimelineDiffs.BatchesCompose` | src/transport/index.ts:103 | how diffs are cut into batches makes no difference |
| `TimelineDiffs.HolesExactlyWhen` | src/transport/index.ts:126-134 | a diff leaves holes exactly when it sets past the end or lengthens the list |
| `TimelineRouter.TimelineEventRouter.Begin` | src/worker/timeline-event-router.ts:13-15 | one more subscribe in flight for the owner, nothing else |
| `TimelineRouter.TimelineEventRouter.CancelPending` | src/worker/timeline-event-router.ts:17-23 | one less in flight; the last one to end drops buffers and overflow mark |
| `TimelineRouter.TimelineEventRouter.Route` | src/worker/timeline-event-router.ts:25-43 | the owner if there is one; else the event is buffered, dropped, or overflows all buffers at the limit |
| `TimelineRouter.TimelineEventRouter.Claim` | src/worker/timeline-event-router.ts:45-55 | hands the buffer over and records the owner, unless it was not pending or overflowed |
| `TimelineRouter.TimelineEventRouter.Release` | src/worker/timeline-event-router.ts:57-62 | the subscription has neither owner nor buffer |
| `TimelineRouter.TimelineEventRouter.RemoveOwner` | src/worker/timeline-event-router.ts:68-79 | returns each subscription of the owner once, and leaves it none and nothing pending |
| `TimelineRouter.TimelineEventRouter.ReleaseOwned` | src/worker/timeline-event-router.ts:71-78 | every subscription of the owner is released, no other |
| `TimelineRouter.TimelineEventRouter.ClearOrphanedEvents` | src/worker/timeline-event-router.ts:81-87 | with no subscribe in flight the buffers, the counter and the overflow mark are gone |
| `TimelineRouter.RouteKeepsSound` | src/worker/timeline-event-router.ts:25-43 | the buffered events stay within the limit and are there only while a subscribe is in flight |
| `TimelineRouter.RemoveKeepsSound` | src/worker/timeline-event-router.ts:68-87 | removing owners keeps that, and only shrinks owners, counts and buffers |
| `TimelineRouter.RemovalsCompose` | src/worker/timeline-event-router.ts:68-79 | closing owners together is closing them one by one, in any order |
| `CoreWorkerBoundary.Worker.ClosePort` | src/worker/core-worker-boundary.ts:103-124 | a closed port owns and awaits nothing, and an unsubscribe is scheduled for each of its subscriptions |
| `CoreWorkerBoundary.Worker.Broadcast` | src/worker/core-worker-boundary.ts:126-134 | every open port gets the message once, those that throw are closed, whatever the order |
| `CoreWorkerBoundary.Worker.RouteBatch` | src/worker/core-worker-boundary.ts:184-197 | a batch splits into the shared events and each owner's, each in order |
| `CoreWorkerBoundary.Worker.HandleEvent` | src/worker/core-worker-boundary.ts:183-207 | the shared part goes to all, each owner's part to it alone, a port that throws is closed |
| `CoreWorkerBoundary.Worker.Subscribe` | src/worker/core-worker-boundary.ts:400-406 | a subscribe call starts only for an open port, and is counted |
| `CoreWorkerBoundary.Worker.Subscribed` | src/worker/core-worker-boundary.ts:409-421 | the reply is posted before the buffered events; a closed or overflowed one is unsubscribed instead |
| `CoreWorkerBoundary.Worker.SubscribeFailed` | src/worker/core-worker-boundary.ts:434-436 | a failed subscribe is in flight no more, and an open page hears an error |
| `CoreWorkerBoundary.Worker.Unsubscribed` | src/worker/core-worker-boundary.ts:412-423 | an overflowed subscribe is tried again up to three times, then fails |
| `CoreWorkerBoundary.Worker.PageUnsubscribe` | src/worker/core-worker-boundary.ts:386-397 | only the owner of a subscription may end it |
| `CoreWorkerBoundary.Worker.PageUnsubscribed` | src/worker/core-worker-boundary.ts:425-431 | the subscription is released when the core has ended it |
| `CoreWorkerBoundary.ClosesCompose` | src/worker/core-worker-boundary.ts:103-109 | closing ports together is closing them one by one, in any order |
| `TimelineDelivery.StepKeeps` | src/worker/core-worker-boundary.ts:183-437 | every step of core, boundary and pages keeps the invariant the results below rest on |
| `TimelineDelivery.EveryPageSeesAPrefix` | src/worker/core-worker-boundary.ts:399-422 | on every interleaving a page sees the reply first, then a prefix of its subscription's events in order, and nothing of anyone else's |
| `TimelineDelivery.OwnedPagesLoseNothing` | src/worker/timeline-event-router.ts:25-55 | what an owning page was posted and what is still queued together are all events since the subscription was created |
| `TimelineDelivery.PageListEqualsCoreList` | src/transport/index.ts:100-141 | folding the replay over what a page was ever posted about a subscription it opened gives the core's list at that point, also after an unsubscribe or a close; for the owning page it is the present list once nothing is queued |
| `TimelineDelivery.OwnersAreHomes` | src/worker/core-worker-boundary.ts:409-420 | the page that owns a subscription is the one that opened it |
| `TimelineDelivery.NothingLeaks` | src/worker/timeline-event-router.ts:13-87 | pending counts are the subscribes in flight, closed ports own nothing, every subscription known to the boundary is owned by an open port or unsubscribed, buffers hold at most 100 events and none when no subscribe is in flight |
| `TimelineOverflow.OverflowsExactlyWhen` | src/worker/timeline-event-router.ts:25-43 | over every run the buffers overflow exactly when more than a hundred events were at once delivered to nobody and neither claimed nor released, since a subscribe has always been in flight; until then each of them is buffered in order |
| `TimelineOverflow.SubscribesGoToTheCore` | src/worker/core-worker-boundary.ts:400-406 | an open page's subscribe goes to the core and is counted, a closed one's is dropped |
| `TimelineOverflow.FailuresAreReported` | src/worker/core-worker-boundary.ts:434-436 | one the core refuses is in flight no more, and the page hears so |
| `TimelineOverflow.ReplyOpensExactlyWhen` | src/worker/core-worker-boundary.ts:409-421 | the reply to an open page's subscribe opens the subscription exactly when that did not happen: the page owns it and has its snapshot and every event that is not queued; otherwise nothing is posted and it is given up |
| `TimelineOverflow.FloodedIsRetriedTwice` | src/worker/core-worker-boundary.ts:412-423 | a flooded subscribe is made again, three times in all, and then the page hears an error |
| `TimelineOverflow.OwnedExactlyWhen` | src/worker/timeline-event-router.ts:45-79 | a page owns a subscription from the reply that opened it until the page closes or the core has ended it at a page's request, and for nothing else |
| `TimelineOverflow.PageUnsubscribeAnswers` | src/worker/core-worker-boundary.ts:386-431 | the owner's unsubscribe goes to the core and is confirmed once it ended the subscription; anyone else's is refused |
| `TimelineBroadcast.OpenPortsHearEverything` | src/worker/core-worker-boundary.ts:184-210 | over every run a port is open exactly from its connect until its page closes it or posting to it throws, and until then it was posted every event for everyone delivered since, once and in order |
| `SearchActivity.SearchTask.ApplySearchOptions` | src/worker/core-worker-boundary.ts:81-94 | options are recorded with the present visibility and queued behind earlier calls |
| `SearchActivity.SearchTask.SetSearchOptions` | src/worker/core-worker-boundary.ts:377-384 | options of an open page are applied, and count it as visible as they say if it never said |
| `SearchActivity.SearchTask.UpdateSearchForeground` | src/worker/core-worker-boundary.ts:96-101 | a call is queued exactly when the recorded flag differs from the present visibility |
| `SearchActivity.SearchTask.ClosePort` | src/worker/core-worker-boundary.ts:103-108 | a closed port counts as visible no more |
| `SearchActivity.SearchTask.Reset` | src/worker/core-worker-boundary.ts:219-237 | only the last open page resets the worker, which forgets the options and will stop |
| `SearchActivity.DrainedQueueIsCurrent` | src/worker/core-worker-boundary.ts:77-108 | with the queue drained and its last call accepted, the core has the last settings any page sent and is in the foreground exactly when some page still open said last that it is visible, both told from the run alone; with none sent since a reset it has none, or the worker is stopping |
| `SearchActivity.EndsAfterAReset` | src/worker/core-worker-boundary.ts:219-237 | the worker stops exactly once its last page has reset it, and ends when told to after that |
| `AccountCore.Accounts.WriteRegistry` | crates/sable-core/src/accounts.rs:558-579 | an account's tokens leave the registry only when its own file holds some |
| `AccountCore.Accounts.SaveLoginTokens` | crates/sable-core/src/accounts.rs:590-601 | only the login's own file changes |
| `AccountCore.Accounts.ForgetLoginTokens` | crates/sable-core/src/accounts.rs:670-682 | the account's files are gone but for those that could not be removed, no other is |
| `AccountCore.Accounts.Persist` | crates/sable-core/src/accounts.rs:456-500 | a sign-in saves the file, then the registry, then memory; a reauthentication only over the account it expects |
| `AccountCore.Accounts.PersistRefreshed` | crates/sable-core/src/accounts.rs:502-518 | a save by anyone but the account's current writer does nothing |
| `AccountCore.Accounts.SaveCurrentCredentials` | crates/sable-core/src/accounts.rs:687-720 | a refresh saves the file, then the registry, then memory, and only for a usable account |
| `AccountCore.Accounts.ReloadSavedTokens` | crates/sable-core/src/accounts.rs:520-554 | only the current writer of a usable account gets the tokens its login's file holds |
| `AccountCore.Accounts.SavedAccountClient` | crates/sable-core/src/accounts.rs:722-776 | a cached client is reused; a new one is built from the login's file only and becomes the writer, and is cached only if the SDK takes its tokens |
| `AccountCore.Accounts.InstallCredentialWriter` | crates/sable-core/src/accounts.rs:778-790 | the newest writer number is the account's |
| `AccountCore.Accounts.InvalidateAccountClient` | crates/sable-core/src/accounts.rs:792-799 | the account has no writer and no cached client |
| `AccountCore.Accounts.PrepareAccountClient` | crates/sable-core/src/accounts.rs:801-831 | only a usable account is made active, on disk before in memory |
| `AccountCore.Accounts.ClearPersistedSession` | crates/sable-core/src/accounts.rs:833-841 | registry and files go in this order, memory stays |
| `AccountCore.Accounts.MarkAccountNeedsReauth` | crates/sable-core/src/accounts.rs:843-881 | memory first, then the registry, then the files of an invalidated device |
| `AccountCore.Accounts.RemoveAccount` | crates/sable-core/src/accounts.rs:883-915 | memory first, then the registry, then the files |
| `AccountCore.Accounts.LoadAccounts` | crates/sable-core/src/lib.rs:693-738 | loads once: embedded tokens move to files, stray files go, and a changed registry is written back before it is used |
| `AccountCore.Accounts.MigrateTokens` | crates/sable-core/src/credentials.rs:106-129 | each usable account without a file gets one with the tokens the registry held, none is replaced |
| `AccountCore.Accounts.LoadTokens` | crates/sable-core/src/accounts.rs:618-645 | usable accounts carry what their files hold, others keep what the registry held |
| `AccountCore.Accounts.RetainFiles` | crates/sable-core/src/accounts.rs:646-663 | only files of a known login are left, and those that could not be removed |
| `AccountRuns.EveryCrashIsRecoverable` | crates/sable-core/src/accounts.rs:456-915 | at every crash between two disk writes of any run, each usable account of the saved registry has a token in its file or in the registry |
| `AccountRuns.ClearKeepsBackedExactlyWhen` | crates/sable-core/src/accounts.rs:833-841 | clearing leaves every usable account in memory a token exactly when memory held them all |
| `AccountRuns.UnguardedClearLosesAnAccount` | crates/sable-core/src/accounts.rs:833-841 | otherwise the next registry write saves a usable account without any token |
| `AccountRuns.LogoutWithoutASessionLosesAnAccount` | crates/sable-core/src/accounts.rs:883-888 | a run to there from an empty disk: a saved login, a restart that cannot read its file, a logout without a session, another login |
| `AccountRuns.ActiveAccountIsUsable` | crates/sable-core/src/accounts.rs:801-881 | over every run the active account, in memory and on disk, is present and needs no reauthentication |
| `AccountRuns.UsableInMemoryIsUsableOnDisk` | crates/sable-core/src/accounts.rs:456-500 | whatever writes fail, an account usable in memory is usable on disk |
| `AccountRuns.ClearBreaksDurabilityExactlyWhen` | crates/sable-core/src/accounts.rs:833-841 | clearing breaks that exactly when some account in memory is usable |
| `AccountRuns.RetiredUntilLogin` | crates/sable-core/src/accounts.rs:502-518 | no save by any old or new client makes a retired account usable again or writes a file of it, until a login |
| `AccountRuns.RetiredForGoodUntilLogin` | crates/sable-core/src/accounts.rs:843-915 | once the retirement is on disk this also holds across crashes |
| `AccountRuns.RetirementHolds` | crates/sable-core/src/accounts.rs:843-915 | marking and removing retire at once, and for good when their registry write succeeds |
| `AccountRuns.RefreshLeavesOldOrNew` | crates/sable-core/src/accounts.rs:687-720 | wherever a refresh save is cut off, the login's file holds its old pair or the new one, and every other file is as it was |
| `AccountRuns.TokenFilesGoBackExactlyWhen` | crates/sable-core/src/accounts.rs:456-720 | over every run a step leaves a token file with a pair issued earlier than the one it held exactly when it is a sign-in that writes over a later pair |
| `AccountRuns.FirstStartHolds` | crates/sable-core/src/lib.rs:693-738 | an empty disk meets what the runs above assume |
| `AccountEffects.RefreshSavesExactlyWhen` | crates/sable-core/src/accounts.rs:687-720 | after its save a login's file holds the client's pair exactly when it did before, or the client writes for a usable account and the write succeeds |
| `AccountEffects.RefreshRegisters` | crates/sable-core/src/accounts.rs:687-720 | with both writes memory holds the pair too, memory and registry name its login, and no other account changes |
| `AccountEffects.SavedRefreshOutlivesACrash` | crates/sable-core/src/accounts.rs:687-720 | a core that starts over after that and can read the file carries the rotated pair |
| `AccountEffects.SignInSavesExactlyWhen` | crates/sable-core/src/accounts.rs:456-500 | a sign-in succeeds exactly when it replaces what it expected and both writes do; then file, registry and memory hold it |
| `AccountEffects.SignInKeepsOthers` | crates/sable-core/src/accounts.rs:456-500 | it leaves every account but its own and the one it replaces |
| `AccountEffects.SavedSignInOutlivesACrash` | crates/sable-core/src/accounts.rs:456-500 | and outlives a crash like a refresh |
| `AccountEffects.InstalledWriterWrites` | crates/sable-core/src/accounts.rs:778-790 | the client that got the account's callback last writes once it has rotated its pair |
| `AccountEffects.OnlyTheNewestWrites` | crates/sable-core/src/accounts.rs:778-790 | and whoever wrote before writes no more |
| `AccountEffects.PreparingActivates` | crates/sable-core/src/accounts.rs:801-831 | preparing succeeds exactly for a usable account whose registry write does, which is then active in memory and on disk |
| `AccountEffects.MarkingMarks` | crates/sable-core/src/accounts.rs:843-881 | a marked account stays, says why, has no writer and no client, and no other changes |
| `AccountEffects.MarkingIsSaved` | crates/sable-core/src/accounts.rs:843-881 | its saved form says so too, and an invalidated device's files are gone |
| `AccountEffects.RemovingRemoves` | crates/sable-core/src/accounts.rs:883-915 | a removed account is gone from memory, and with its files from disk when that is written; no other changes |
| `AccountEffects.RemovedFilesStayGone` | crates/sable-core/src/accounts.rs:670-682 | over every run without a new login of it no file of it comes back, crashes included |
| `AccountEffects.ClearingLeavesNothing` | crates/sable-core/src/accounts.rs:833-841 | clearing leaves nothing on disk, and a restart loads no account |
| `AccountEffects.RestartCarries` | crates/sable-core/src/lib.rs:693-738 | a usable login of the saved registry whose file can be read is what a restart carries |
| `AccountEffects.LoadSucceedsExactlyWhen` | crates/sable-core/src/lib.rs:693-738 | a load fails exactly when it has to write the registry back and cannot, and loads exactly the saved accounts |
| `AccountEffects.LoadKeepsKnownFilesExactly` | crates/sable-core/src/accounts.rs:646-663 | it keeps the file of every login the registry names, and of the others exactly those that cannot be removed |
| `AccountEffects.MovingFillsTheFile` | crates/sable-core/src/credentials.rs:106-129 | an embedded pair is put into its login's file, and nothing else changes |
| `AccountEffects.SavedClientsReadTheirFile` | crates/sable-core/src/accounts.rs:722-776 | a saved client is there exactly when its login's file holds a pair, and holds that |
| `AccountEffects.ReloadsReadTheirFile` | crates/sable-core/src/accounts.rs:520-554 | a reload gives the writer of a usable account what its file holds, and no one else anything |
| `SessionControl.SessionController.ClaimSessionGeneration` | crates/sable-core/src/accounts.rs:187-196 | the next attempt number is handed out |
| `SessionControl.SessionController.InvalidateSession` | crates/sable-core/src/accounts.rs:332-336 | a generation newer than every attempt is committed |
| `SessionControl.SessionController.RetireIfCurrent` | crates/sable-core/src/accounts.rs:1267-1275 | a rejection outdates its own generation or nothing |
| `SessionControl.SessionController.TakeSession` | crates/sable-core/src/accounts.rs:949-989 | the installed session is handed over |
| `SessionControl.SessionController.CommitGeneration` | crates/sable-core/src/accounts.rs:1066 | the new generation is committed before its session is there |
| `SessionControl.SessionController.InstallSession` | crates/sable-core/src/accounts.rs:1075-1083 | the session of the generation is installed |
| `SessionControl.SessionController.UnlockAccount` | crates/sable-core/src/accounts.rs:1067-1074 | the lock flag is cleared and reported if the generation is current |
| `SessionControl.SessionController.SwapLocked` | crates/sable-core/src/account_lock.rs:20-24 | the flag is set whatever the generation is by then |
| `SessionControl.StepKeeps` | crates/sable-core/src/accounts.rs:1028-1083 | every step of any task keeps the invariant the results below rest on |
| `SessionRuns.GenerationsOnlyGrow` | crates/sable-core/src/accounts.rs:187-196 | attempted and committed generations only grow, and the committed one never passes the attempted one |
| `SessionRuns.InstalledIsCommitted` | crates/sable-core/src/accounts.rs:330-342 | the installed session is of the committed generation unless the holder of both locks is about to take it |
| `SessionControl.SessionController.EmitIfCurrent` | crates/sable-core/src/lib.rs:510-514 | under the swap lock a notice of another generation is dropped |
| `SessionRuns.EndedOncePerGeneration` | crates/sable-core/src/accounts.rs:1257-1310 | ends come with strictly rising generations, so a generation ends at most once; all that is said under the swap lock comes in the order of generations, and only an announced lock can follow the end of its own |
| `SessionRuns.NoticesFollowEndsExactlyWhen` | crates/sable-core/src/lib.rs:510-514 | over every run a notice follows the end of its generation exactly when an announcement that read its generation earlier is emitted after that end |
| `SessionRuns.LateAnnouncementsWereChecked` | crates/sable-core/src/account_lock.rs:41-48 | an announcement that speaks late was between its check and its emit when its generation was outdated |
| `SessionRuns.EndCanBeFollowedExactlyWhen` | crates/sable-core/src/account_lock.rs:41-48 | once a rejection outdated a generation, some run from there has a notice follow its end exactly when an announcement of it is between its check and its emit |
| `SessionRuns.LateAnnouncementFollowsTheEnd` | crates/sable-core/src/account_lock.rs:41-48 | a run in which one is |
| `SessionRuns.RejectionRetiresItsOwnAccount` | crates/sable-core/src/accounts.rs:1276-1290 | a rejection retires the account its generation was installed for, never another and never all |
| `SessionRuns.StaleTasksChangeNothing` | crates/sable-core/src/account_lock.rs:54-82 | a rejection, watcher or probe of another generation changes neither session, flag nor generation, and says nothing but an announcement it had already checked |
| `SessionRuns.ClaimStaysNewest` | crates/sable-core/src/accounts.rs:1046-1050 | a start that gets the swap lock is still the newest attempt |
| `SessionRuns.OnlyTheHolderReplaces` | crates/sable-core/src/accounts.rs:147-153 | while one task holds the activation lock no other changes session or generations, or prepares a client |
| `SessionRuns.FailedStartChangesNothing` | crates/sable-core/src/accounts.rs:1028-1053 | from claim to failure, whatever else runs, session and committed generation stay, and the registry, in memory and on disk, is what the operations of others alone make of it |
| `SessionRuns.AttendedExactlyWhen` | crates/sable-core/src/account_lock.rs:19-24 | a step leaves every locked session with a task that will unlock or end it exactly unless it sets the flag late |
| `SessionRuns.LockedSessionsAreAttended` | crates/sable-core/src/account_lock.rs:26-95 | so over every run without a late flag |
| `SessionRuns.LateLockSticks` | crates/sable-core/src/account_lock.rs:20-21 | a run in which a late flag locks a session for good |
| `SessionAnswers.AcceptedProbeUnlocks` | crates/sable-core/src/account_lock.rs:69-89 | an accepted token of the committed generation unlocks the account, leaves the session and tells the pages last |
| `SessionAnswers.RefusedProbeEnds` | crates/sable-core/src/account_lock.rs:63-68 | a refused one ends the session, outdates its generation and tells the pages last |
| `SessionAnswers.OtherAnswersDoNothing` | crates/sable-core/src/account_lock.rs:58-62 | any other answer, or any of an outdated generation, changes nothing |
| `SessionAnswers.RejectionEnds` | crates/sable-core/src/accounts.rs:1257-1310 | so does a rejection found by a request of the session's own |
| `SessionAnswers.LockAnnounces` | crates/sable-core/src/account_lock.rs:18-48 | locking sets the flag, tells the pages and starts to probe |
| `SessionAnswers.EndTakesTheSession` | crates/sable-core/src/accounts.rs:330-342 | a logout, shutdown or reset takes the session and outdates its generation |
| `SessionAnswers.StartInstalls` | crates/sable-core/src/accounts.rs:1028-1083 | a start whose client can be prepared ends with its own session installed, unlocked and announced |
| `SessionAnswers.EndsComeFromRejections` | crates/sable-core/src/account_lock.rs:63-68 | over every run a generation is ended by a rejection only after its token was rejected, by a request or a probe, while it was committed |
| `SessionAnswers.UnlocksComeFromAcceptance` | crates/sable-core/src/account_lock.rs:69-89 | the pages hear of an unlocked account only after the server accepted a probe of that generation or its start cleared the flag |
| `SessionAnswers.UnlockedOnlyBy` | crates/sable-core/src/account_lock.rs:69-75 | the flag goes down by nothing else |
| `LockOrder.EveryOperationIsRanked` | crates/sable-core/src/accounts.rs:23-27 | every operation takes each lock above all it holds: restore, store lease, activation, swap, session store, accounts, clients, writers |
| `LockOrder.NoWaitCycle` | crates/sable-core/src/accounts.rs:147-153 | among any operations running together none wait for each other in a circle |
| `LockOrder.SomeoneCanStep` | crates/sable-core/src/accounts.rs:147-153 | while operations are under way one of them can go on |
| `LockOrder.AllCanFinish` | crates/sable-core/src/accounts.rs:187-518 | from there all of them can be stepped to their end |
| `StoreOwnership.StoreClaim.OnMessage` | src/worker/store-ownership.ts:25-27 | another worker's claim supersedes, its own does not, and the worker closes once |
| `StoreOwnership.StoreClaim.PostClaim` | src/worker/store-ownership.ts:28 | the claim goes out under the worker's own name and the steal timer starts |
| `StoreOwnership.StoreClaim.OnStealTimer` | src/worker/store-ownership.ts:37-40 | the wait is aborted before the lock is stolen |
| `StoreOwnership.StoreClaim.OnGranted` | src/worker/store-ownership.ts:31-46 | a superseded or aborted worker gives the lock back, any other starts and keeps it |
| `StoreOwnership.StoreClaim.OnRejected` | src/worker/store-ownership.ts:39-51 | a stolen lock supersedes, the worker's own abort does not |
| `StoreOwnership.OneOwner` | src/worker/store-ownership.ts:30-51 | at most one started core is neither superseded nor about to hear of a theft |
| `StoreOwnership.SupersededNeverStarts` | src/worker/store-ownership.ts:31-35 | a worker superseded before its grant never starts a core |
| `StoreOwnership.OlderWorkersYield` | src/worker/store-ownership.ts:25-28 | once a worker posted its claim, every worker that opened before it is superseded or has a claim to read that will do it |
| `StoreOwnership.BothCanBeSuperseded` | src/worker/store-ownership.ts:25-28 | a run in which two workers supersede each other |
| `StoreOwnership.ClosesExactlyWhen` | src/worker/store-ownership.ts:16-51 | over every run an open worker is superseded, or has a claim to read or a theft to hear of that will do it, exactly when another posted a claim while it was open or stole its lock before it gave up waiting for that |
| `StoreOwnership.YieldsExactlyWhen` | src/worker/store-ownership.ts:25-28 | so without a theft exactly when another posted a claim while it was open |
| `StoreOwnership.NoneSurvivesExactlyWhen` | src/worker/store-ownership.ts:16-51 | none survives exactly when each saw another's claim posted or lost its lock to a theft |
| `StoreOwnership.LastPosterSurvivesExactlyWhen` | src/worker/store-ownership.ts:16-51 | the last worker to post survives exactly when no other posted between its opening and its post and none stole its lock |
| `StoreOwnership.TwoCoresTakeATheft` | src/worker/store-ownership.ts:7-10 | two cores alive at once, superseded or not, take a theft |
| `StoreOwnership.StartedExactlyWhen` | src/worker/store-ownership.ts:31-46 | over every run an open worker's core has started exactly when the lock was granted to it while nothing had superseded it and, waiting, it had not given up |
| `StoreOwnership.FirstInLineStarts` | src/worker/store-ownership.ts:31-46 | whoever is first in line for a free lock starts and keeps it, or, superseded or given up, leaves it free |
| `StoreOwnership.WaitersStealFromAHungOwner` | src/worker/store-ownership.ts:36-40 | a worker that has waited too long takes the lock from its holder, which will hear of it, and starts |
| `StoreOwnership.LoneWorkerOwns` | src/worker/store-ownership.ts:13-46 | a worker alone in its browser owns the store |
| `AdaptiveFetch.OriginState.Drain` | src/worker/adaptive-fetch.ts:43-48 | every waiting request is woken |
| `AdaptiveFetch.OriginState.Acquire` | src/worker/adaptive-fetch.ts:50-58 | free when not limited, held when no one is active, else queued last |
| `AdaptiveFetch.OriginState.Release` | src/worker/adaptive-fetch.ts:60-71 | the turn goes to the first waiting request, or to all once not limited |
| `AdaptiveFetch.OriginState.Succeeded` | src/worker/adaptive-fetch.ts:73-80 | the twenty-fifth success in a row lifts the limit and wakes everyone |
| `AdaptiveFetch.OriginState.Failed` | src/worker/adaptive-fetch.ts:82-86 | the fifth failure in a row limits |
| `AdaptiveFetch.OriginState.End` | src/worker/adaptive-fetch.ts:94-103 | the outcome is counted before the turn is given up |
| `AdaptiveFetch.NoLostWakeUp` | src/worker/adaptive-fetch.ts:43-80 | whoever waits, waits for a holder of a limited origin, and the counter is the number of holders |
| `AdaptiveFetch.StartsWithinItsTurn` | src/worker/adaptive-fetch.ts:60-71 | a request at position k has started once k + 1 turns were given up |
| `AdaptiveFetch.LimitedNarrows` | src/worker/adaptive-fetch.ts:50-71 | while an origin stays limited the requests that run, apart from long polls and those that ran freely before, never exceed the holders at first, or one |
| `AdaptiveFetch.LimitedExactlyWhen` | src/worker/adaptive-fetch.ts:73-86 | for every history the flag is set exactly when five failed in a row and never since did twenty-five succeed in a row, aborts aside |
| `AdaptiveFetch.FreeExactlyWhen` | src/worker/adaptive-fetch.ts:50-58 | over every run a request runs without a turn exactly when it is a long poll or, by what had ended before, its origin was not limited when it started |
| `AdaptiveFetch.LimitedStartsQueue` | src/worker/adaptive-fetch.ts:50-58 | one that starts on a limited origin has the only turn if no one has one, else waits behind everyone |
| `WebTransport.WorkerTransport.SetOverdue` | src/transport/web.ts:228-239 | the first overdue request starts the probe, the last one to end stops it and the stall |
| `WebTransport.WorkerTransport.RejectPending` | src/transport/web.ts:248-255 | every pending request is rejected and its timers stop |
| `WebTransport.WorkerTransport.HandleCrash` | src/transport/web.ts:257-275 | the connection goes and everything pending is rejected |
| `WebTransport.WorkerTransport.HandleSuperseded` | src/transport/web.ts:277-287 | the same, and the transport never reconnects |
| `WebTransport.WorkerTransport.Detach` | src/transport/web.ts:396-410 | leaving closes for good and rejects everything pending |
| `WebTransport.WorkerTransport.Request` | src/transport/web.ts:412-461 | a request gets the next id and the timers of its kind; a closed transport sends none |
| `WebTransport.WorkerTransport.OnMessage` | src/transport/web.ts:301-364 | any message counts as life, and a reply settles the request with its id |
| `WebTransport.WorkerTransport.OnProbeTimer` | src/transport/web.ts:210-226 | a ping, then a stall when nothing answered, then another ping later |
| `WebTransport.WorkerTransport.OnTimeout` | src/transport/web.ts:425-434 | discovery is rejected, its stall timer goes on |
| `WebTransport.RequestsSettleOnce` | src/transport/web.ts:412-461 | over every run a request is pending or settled, never both, and its outcome stays |
| `WebTransport.ProbedExactlyWhileOverdue` | src/transport/web.ts:205-246 | while open, the probe runs exactly while a request is overdue, and a stall is raised only then |
| `WebTransport.WorkerTransport.OnStallTimer` | src/transport/web.ts:435-440 | the request is overdue, and the worker is probed |
| `WebTransport.OutcomesComeFromReplies` | src/transport/web.ts:346-364 | over every run a settled request got a reply under its own id, or one of the transport's own errors |
| `WebTransport.RepliesSettleTheirOwn` | src/transport/web.ts:346-364 | a reply settles the request with its id only, the id of a ping none |
| `WebTransport.EndsLeaveNothing` | src/transport/web.ts:257-287 | crash, newer tab and leaving reject all that was pending and stop every probe |
| `WebTransport.OverdueIsPendingExactlyWhen` | src/transport/web.ts:425-446 | over every run all that is overdue is pending exactly when discovery orphaned no request since the worker's last end |
| `WebTransport.OverdueIsPendingWithoutDiscovery` | src/transport/web.ts:435-446 | without discovery they always are |
| `WebTransport.OrphansStay` | src/transport/web.ts:425-446 | a timed-out discovery that is overdue stays so, probed for, until the worker's end |
| `WebTransport.OverdueExactlyWhen` | src/transport/web.ts:228-246 | over every run a request is overdue exactly from its stall timer to its reply or the worker's end |
| `WebTransport.SettlesExactlyWhen` | src/transport/web.ts:257-364 | over every run a pending request is settled exactly by its reply, its give-up timer or the worker's end, each with its own outcome |
| `WebTransport.ClosesExactlyWhen` | src/transport/web.ts:277-287 | the transport is closed exactly by leaving it or by a newer tab |
| `WebTransport.AsksPend` | src/transport/web.ts:412-461 | a request is pending under an id of its own with exactly the timers of its kind |
| `WebTransport.SilentWorkerStalls` | src/transport/web.ts:210-226 | a worker that says nothing after a stall timer is pinged once and then counts as stalled |
| `WebTransport.AnyMessageEndsTheStall` | src/transport/web.ts:241-246 | anything it says ends the stall, and the wait for the next ping starts over while something is overdue |
| `WsTransport.WebSocketTransport.HandleMessage` | src/transport/ws.ts:126-167 | an event is heard only above the last number, a reply settles its own request |
| `WsTransport.WebSocketTransport.RejectPending` | src/transport/ws.ts:175-182 | every pending request is rejected and the stall watch ends |
| `WsTransport.WebSocketTransport.Request` | src/transport/ws.ts:214-232 | a request gets the next id and a running stall timer; a closed transport sends none |
| `WsTransport.WebSocketTransport.Close` | src/transport/ws.ts:375-387 | closing rejects everything pending, once |
| `WsTransport.RequestsSettleOnce` | src/transport/ws.ts:175-232 | over every run each id is pending or settled once, and a running timer or raised stall has a pending request |
| `WsTransport.RepliesSettleTheirOwn` | src/transport/ws.ts:156-166 | over every run a settled request got what the server had answered under its id, or the error of a closed connection |
| `WsTransport.SettlesExactlyWhen` | src/transport/ws.ts:156-182 | a pending request is settled exactly when its reply arrives, with what that says, or its connection ends, with an error; the others stay pending and watched as they were |
| `WsTransport.SilenceStalls` | src/transport/ws.ts:214-232 | a request is pending and watched at once, and when nothing is received the stall is raised |
| `WsTransport.WebSocketTransport.OnOpen` | src/transport/ws.ts:196-198 | a new connection ends a stall |
| `WsTransport.WebSocketTransport.OnClose` | src/transport/ws.ts:206-211 | a lost or failed connection rejects everything pending |
| `WsTransport.WebSocketTransport.OnStallTimer` | src/transport/ws.ts:223-228 | the stall is raised and the timer is over |
| `WsTransport.WatchedExactlyWhen` | src/transport/ws.ts:159-228 | over every run pending requests are watched exactly unless a reply or a new connection ended a stall under them, with no request since |
| `WsTransport.NumbersRise` | src/transport/ws.ts:150-154 | over any drops, reconnects and restarts the numbers listeners get strictly rise |
| `WsTransport.ResumesExactlyWhen` | crates/sable-server/src/lib.rs:573-611 | a connection resumes in order exactly when the client names the run it last heard, heard nothing, or is told to reset |
| `WsTransport.ResetsExactlyWhen` | crates/sable-server/src/lib.rs:573-611 | a reload is asked for exactly when the client names another run, or is more than 256 events behind |
| `WsTransport.GapsAreReplayed` | crates/sable-server/src/lib.rs:584-611 | a client that missed no more than that hears, connected again, exactly what it missed, and need not reload |
| `WsTransport.UnresumedNeverHearsTheFirst` | src/transport/ws.ts:150-154 | after a connection that does not resume the client never hears the first event of the run that serves it, in any run from there |
| `WsTransport.ListenersMissNothing` | src/transport/ws.ts:37-47 | from the first event a listener gets, it gets every one once and in order, up to the last published when the connection is drained |
| `WsTransport.FirstHeardFollowsItsConnection` | crates/sable-server/src/lib.rs:584-586 | over every run the first event a client hears is the next one published after the last connection it made before |
| `WsTransport.MissedExactlyWhen` | crates/sable-server/src/lib.rs:584-611 | so of the run it hears an event is missed exactly when it was published before that connection |
| `WsTransport.EarlyEventsAreLost` | src/transport/ws.ts:43-45 | a run in which an event before the first one heard is lost |
| `WsTransport.LostResetHidesEvents` | src/transport/ws.ts:137-154 | a run in which a lost reset hides every new event |
| `AttachmentFraming.AttachmentBytes` | src/transport/attachment-bytes.ts:3-27 | the buffer is exactly full, every write in bounds and behind the last, and holds the frames in order |
| `AttachmentFraming.SizeIsLength` | src/transport/attachment-bytes.ts:6-10 | the size computed beforehand is the length written |
| `AttachmentFraming.RoundTrip` | crates/sable-core/src/media.rs:47-89 | the core reads back every list, an absent thumbnail and an empty one alike |
| `AttachmentFraming.PrefixFree` | crates/sable-core/src/media.rs:540-554 | no valid body is the start of another of as many attachments |
| `AttachmentFraming.TruncationIsNoticed` | crates/sable-core/src/media.rs:540-554 | a body cut short anywhere is refused |
| `EventSink.ReplaySink.Replace` | src-tauri/src/lib.rs:62-73 | the backlog goes out in pieces to the new channel, and is empty |
| `EventSink.ReplaySink.Accept` | src-tauri/src/lib.rs:75-86 | without a channel a batch is kept whole while there is room |
| `EventSink.ChunksCover` | src-tauri/src/lib.rs:67-71 | pieces have at most 256 events, none is empty, all but the last are full, and together they are the backlog |
| `EventSink.OnlyAFullBacklogLosesEvents` | src-tauri/src/lib.rs:61-87 | once there is a channel everything sent has gone out in order but for early batches behind a full backlog |
| `EventSink.BacklogIsBounded` | src-tauri/src/lib.rs:83-84 | the backlog holds at most 4095 events and one batch |
| `EventSink.FirstChannelGetsTheBacklogFirst` | src-tauri/src/lib.rs:62-73 | the first channel gets a whole-batch prefix of the early events before anything live |
| `EventSink.EverythingGoesToTheLastChannel` | src-tauri/src/lib.rs:62-86 | over every run what goes out is the kept early events to the first channel, then each live batch to the channel attached last when it was sent |
| `CallShortcuts.CallShortcutsController.ReleaseAll` | electron/src/call-shortcuts.ts:144-147 | every held shortcut is released, in order |
| `CallShortcuts.CallShortcutsController.Start` | electron/src/call-shortcuts.ts:149-169 | passive first, then the platform's backend, held back while focused, or an error |
| `CallShortcuts.CallShortcutsController.Open` | electron/src/call-shortcuts.ts:171-200 | the handle remembers the present generation |
| `CallShortcuts.CallShortcutsController.CloseHandle` | electron/src/call-shortcuts.ts:202-207 | the handle is closed, a new generation begins and everything is released |
| `CallShortcuts.CallShortcutsController.Configure` | electron/src/call-shortcuts.ts:116-128 | the old binding stops before the new one starts |
| `CallShortcuts.CallShortcutsController.SetFocused` | electron/src/call-shortcuts.ts:130-136 | only an exclusive backend closes and reopens with focus |
| `CallShortcuts.CallShortcutsController.Notify` | electron/src/call-shortcuts.ts:178-196 | an old generation's report is ignored, a press only counts once |
| `CallShortcuts.PressesAlternate` | electron/src/call-shortcuts.ts:192-195 | over every run each shortcut's events alternate from a press, and it is held exactly after one |
| `CallShortcuts.EveryPressIsReleased` | electron/src/call-shortcuts.ts:116-147 | after a stop, a new configuration or a close for focus every press has its release |
| `CallShortcuts.ClosedHandlesAreSilent` | electron/src/call-shortcuts.ts:179 | a closed handle's report changes and sends nothing |
| `CallShortcuts.OneHandleIsOpen` | electron/src/call-shortcuts.ts:130-136 | at most one handle is open, of the current backend, and none while an exclusive one has focus |
| `CallShortcuts.FocusedPressesComeFromThePortal` | electron/src/call-shortcuts.ts:191 | while focused only the portal starts a press |
| `CallShortcuts.FirstAvailableBackendOpens` | electron/src/call-shortcuts.ts:149-169 | configuring, and losing focus, opens passive shortcuts if they can be had, else the portal on Wayland and exclusive ones elsewhere, held back under focus, else none with an error |
| `CallShortcuts.FocusHoldsBackOnlyExclusive` | electron/src/call-shortcuts.ts:130-136 | focus closes an exclusive handle and no other |
| `CallShortcuts.KeysAreSentExactlyWhen` | electron/src/call-shortcuts.ts:191-195 | the open handle's report is sent and remembered exactly when it changes whether the shortcut is held and focus does not keep the press |
| `CallShortcuts.StatusIsSent` | electron/src/call-shortcuts.ts:181-190 | its status is sent, and an error closes it |
| `WindowState.OverlapCountsSharedPixels` | electron/src/window-state.ts:47-51 | the overlap is the number of pixels two rectangles share |
| `WindowState.WindowStateOnScreen` | electron/src/window-state.ts:53-77 | nothing exactly when no area overlaps; else the window lies inside the first area of largest overlap, as large as fits and no further on either axis than needed |
| `WindowState.BestIsUnique` | electron/src/window-state.ts:57-66 | there is one such area |
| `WindowState.NearestIsUnique` | electron/src/window-state.ts:68-76 | and one such place in it |
| `WindowState.RestoringAgainChangesNothing` | electron/src/window-state.ts:53-77 | restored bounds are restored to themselves |
| `WindowState.RestoreTwice` | electron/src/window-state.ts:53-77 | restoring a restored window over the same areas returns it unchanged |

## Left out

- AccountCore.Accounts.LoadAccounts: a load that finds unsealed token files of older versions, moves store paths or loses its key is not modelled; a failed read is an unreadable account, and moved paths are a flag.
- AccountCore.Accounts.ForgetLoginTokens: removing several files counts as one disk write. Which files survive is arbitrary, so a crash halfway is the crash after a removal that left the rest.
- AccountCore.Accounts.ClearPersistedSession: forgetting every login forgets their key first, after which no file can be read, so it counts as one write; that the keyring refuses is not modelled.
- AccountCore.Accounts.SavedAccountClient: reading the file, installing the writer and caching the client are separate steps in the runs, one method in the class.
- AccountRuns.TokenFilesGoBackExactlyWhen: an earlier sign-in is taken to have stored under the account it reauthenticates or under an id of its own (crates/sable-core/src/auth.rs:59-69); the order of issue is a number the model adds to tokens.
- AccountRuns.UsableInMemoryIsUsableOnDisk: clearing the persisted session is excluded, where it fails as `ClearBreaksDurabilityExactlyWhen` says.
- AccountRuns.EveryCrashIsRecoverable: clearing while a usable account's tokens are only in its file is excluded, where it fails as `ClearKeepsBackedExactlyWhen` says.
- WsTransport.ListenersMissNothing: connections that would resume under the wrong run are excluded, exactly those `ResumesExactlyWhen` describes; events before the first one heard are not covered, see `MissedExactlyWhen`. After such a connection the loss is for good: `UnresumedNeverHearsTheFirst`.
- WsTransport.MissedExactlyWhen: the same connections are excluded, and runs that were told to reload, after which the page starts anew.
- SessionRuns.NoticesFollowEndsExactlyWhen: a watcher reads the session and then the generation in one step; the session cannot change while its generation stays committed, so the second read could only end it sooner.
- SessionRuns.LockedSessionsAreAttended: late flags are excluded, exactly those `AttendedExactlyWhen` describes; that an attending task makes progress depends on the network.
- StoreOwnership.YieldsExactlyWhen: runs with a theft are excluded; `ClosesExactlyWhen` covers them.
- StoreOwnership.OneOwner: browsers without locks or broadcast channels resolve at once.
- TimelineDelivery.OwnedPagesLoseNothing: posting a subscribe reply is taken not to throw; only broadcasts and routed batches may.
- CoreWorkerBoundary.Worker.ClosePort: its search half is in `SearchActivity.SearchTask.ClosePort`, which runs before it in the source.
- AttachmentFraming.RoundTrip: attachments longer than a JavaScript buffer can be are excluded.
- CallShortcuts.CallShortcutsController.Notify: a native callback is taken to come after the constructor that registers it has returned.
- The registry is a map by account id; the order of accounts and the OAuth fields a refresh keeps are not modelled.
- The SDK is taken to keep the first save callback a client is given, and to call it after each rotation; push clients outside the core, which save tokens themselves, are not modelled.
- The session tasks that watch a running session, the caches cleared when it is taken, and the locks around them; a call into the core is taken to run to its end.
- The web build's account storage, which keeps tokens in the registry.
- Numbers are unbounded: generations, ids, writer numbers and counters do not wrap. The framing's fixed widths do.
- Timers fire at any time while armed; the doubling delay of unlock probes is not modelled.
- The websocket's identity check, version check and reload guard; a reset only asks for a reload.
- Events of the core without a number, and malformed or binary websocket messages, which reconnect like a drop.
- Logs, panics, media calls, pagination and the cache reset's answer in the worker boundary.
- Fetches to more than one origin: each origin has its own record, and no operation touches two.
- Parsing of shortcut bindings and of saved window states.
- Device deletion, deactivation, OAuth addresses, store disposal and the reset of sqlite caches.
