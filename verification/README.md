# Smart-classroom backend: verified model

The backend (Go) is built from small concurrent protocols and from stores and caches whose guarantees hold only over
whole runs. This project models them in Dafny and proves those guarantees.

Two forms are used. Where calls of many goroutines interleave, a *protocol* module (`Rotation`, `AuditPipeline`,
`TicketProtocol`, `HubProtocol`, `HassCredentials`, `LessonLocks`) is a state machine: a total `Step` over labels, one
label for each atomic store call, lock section, channel operation or upstream call, and `Run` over lists of labels. A
label that is not enabled does nothing, so every list is a run and a theorem about every list is a theorem about every
interleaving. Where one object is updated in place, a *class* module (`RefreshStore`, `AuthService`, `AuditService`,
`TicketStore`, `Hub`, `Throttle`, `RateLimiter`, `LessonRepo`, `ScheduleService`, `HassService`, `Devices`, `Scenes`,
`UserStore`, `AuditQuery`) has the source's fields and loops, and each method is proved against a function of the old
state. `RotationTheorems.AloneIsRefresh` ties the two forms of Refresh together.

| area | modules |
|---|---|
| refresh-token rotation | `RefreshStore`, `Tokens`, `AuthService`, `Rotation`, `RotationTheorems`, `BlanketRevocation`, `ReplayAlarms`, `PurgeInvisibility` |
| audit log | `AuditEntry`, `AuditPipeline`, `AuditLeftovers`, `AuditService`, `AuditQuery` |
| WebSocket tickets and hub | `TicketStore`, `TicketProtocol`, `Topics`, `Hub`, `HubProtocol` |
| alert throttle, rate limiter | `Throttle`, `RateLimiter` |
| Home Assistant credentials | `HassCredentials`, `HassProgress`, `HassOutcomes`, `HassTokens`, `HassService` |
| weekly schedule | `Lessons`, `LessonRepo`, `ScheduleService`, `LessonLocks` |
| devices, scenes, users | `Devices`, `Scenes`, `UserStore` |
| shared | `Wrappers`, `Cardinality`, `Batches` |

`dafny verify dfyconfig.toml` checks everything.

## Where the code gives less than its comments say

The model follows the code. For each such promise there is a run of the model that breaks it and a theorem saying
exactly when it holds.

- The comment on `Refresh` promises that a replay revokes every session. A refresh already past MarkUsed still tracks
  its successor afterwards (`BlanketRevocation.SessionSurvivesReplay`). `StaysRevokedIff` says exactly when the promise
  holds; `RotationTheorems.RevocationBound` bounds what can survive, and `RevocationBoundAttained` shows the bound exact.
- The replay counter is described as counting replay attempts. A logout landing between Status and MarkUsed takes the
  lost-race branch, and an honest refresh is counted (`ReplayAlarms.LogoutCountsAsReplay`). `AlarmsAreReplaysIff` says
  that every alarm of a run is a replay if and only if no refresh of the run is overtaken in this way.
- The comment on `withOverlapCheck` says the row locks prevent two concurrent creations from both passing.
  `LessonLocks.TwoCreatesCanOverlap` is a run in which they do. `RowLocksSufficeIff` is the exact boundary: the timetable
  is broken only by a commit over an overlapping lesson that came into the day after the transaction's select.
- FlushSync promises to drain what remains. A producer past the `done` check still sends after it has returned, and
  nobody receives any more (`AuditLeftovers.SendAfterFlushSync`). `NothingLeftIff` says exactly when everything accepted
  ends up inserted; `AuditPipeline.ShutdownCompleteness` holds without condition for the entries accepted before Stop.
- A command that fails on an online device while the offline mark cannot be stored (the same expired context serves
  both calls) tells the trigger "offline" and leaves the row "online" (`Devices.OfflineMarkIsLost`). `OnlineEdges` says
  that this is the only way the trigger and the stored flag come apart in a serial run.
- Dropping idle rate-limit buckets is unobservable only under a condition on the configuration;
  `RateLimiter.EvictionInvisibleIff` is that condition, `EvictionIsVisibleOtherwise` the run that shows it elsewhere, and
  the configured limiters meet it.
- The comment on the purge says that a day's grace keeps replay detection working. A refresh held for over a day can
  miss its purged row in two ways: a replay passes for an unknown token (`PurgeInvisibility.PurgeIsVisibleToASlowRefresh`),
  or an honest refresh between Status and MarkUsed takes the lost-race branch and burns the user's sessions
  (`PurgeBurnsASlowRefresh`). `PurgeIsUnseenIff` says that these two are the only ways a purge is ever noticed, and
  `PurgeIsInvisible` that refreshes taking less than a day never are.
- SetToken answers that the token is kept, and a refresh round trip that was out overwrites it
  (`HassTokens.ManualTokenIsOverwritten`). `ManualTokenKeptIff` says exactly when a manual token stays, in the cache and
  in the row.

## Model

| member | source | states |
|---|---|---|
| RefreshStore.MemRefreshStore.Track | backend/internal/auth/memstore.go:24-29 | a fresh row object, neither used nor revoked, under this id; every other token as before |
| RefreshStore.MemRefreshStore.Status | backend/internal/auth/memstore.go:31-40 | a copy of the row, or unknown |
| RefreshStore.MemRefreshStore.MarkUsed | backend/internal/auth/memstore.go:42-55 | writes one row in place and only if it is neither used nor revoked; the three answers exactly; the guarded UPDATE of the database store |
| RefreshStore.MemRefreshStore.RevokeUser | backend/internal/auth/memstore.go:57-67 | marks exactly the user's spendable rows, in a loop over shared objects |
| RefreshStore.MemRefreshStore.CountLive | backend/internal/auth/memstore.go:71-82 | the number of the user's tokens that are unused, unrevoked and before their expiry at that instant |
| Tokens.PurgedTokenIsRefused | backend/internal/platform/tokens/tokens.go:131-153 | with 30 s leeway and whole-second expiry, a token purgeable now was already refused at any Parse within the last day less the leeway |
| Tokens.TokenWindow | backend/internal/platform/tokens/tokens.go:105-144 | a token is accepted for its life and 29 s more and refused from 30 s after its end; to the millisecond when it ends on a whole second |
| AuthService.Service.Login | backend/internal/auth/service.go:107-127 | answers a tracked pair exactly for right credentials; otherwise the table is untouched |
| AuthService.Service.Refresh | backend/internal/auth/service.go:134-206 | a pair is answered exactly for an accepted token whose row is there, unused, unrevoked and before its expiry, of an existing user; a used one burns the sessions; the table after each answer |
| AuthService.Service.Logout | backend/internal/auth/service.go:221-223 | revokes all the user's spendable tokens and nothing else |
| Rotation.StepInv | backend/internal/auth/service.go:134-237 | the rotation invariant (rows agree with signed tokens, at most one holder per chain, forest of redeemed parents) survives every store call of every interleaved request |
| RotationTheorems.AloneIsRefresh | backend/internal/auth/service.go:134-206 | run without interference, the interleaved protocol is the service's own Refresh: same table, same answer |
| RotationTheorems.AncestryEndsAtLogin | backend/internal/auth/service.go:190-237 | following a token's parents ends at a login of the same user |
| RotationTheorems.ChainNeverForks | backend/internal/auth/service.go:174-190 | one token per generation of a login: chains are paths |
| RotationTheorems.RedeemedAtMostOnce | backend/internal/auth/postgres.go:47-61 | in every run each jti is redeemed at most once |
| RotationTheorems.SuccessorIsUnique | backend/internal/auth/service.go:174-206 | in every run a token has at most one successor, and only if it was redeemed |
| RotationTheorems.RotationConservation | backend/internal/auth/service.go:107-237 | in every run a user's spendable tokens, plus refreshes past MarkUsed, plus logins before Track, never exceed the logins made |
| RotationTheorems.RevocationBound | backend/internal/auth/service.go:154-190 | in any later state the user's spendable tokens descend from, and are at most, later logins plus the pairs pending when RevokeUser ran |
| RotationTheorems.MarksArePermanent | backend/internal/auth/postgres.go:47-70 | used and revoked marks never clear or move and are never both set |
| RotationTheorems.PassesOnlyWhileLive | backend/internal/auth/service.go:169-174 | in every run a request gets past the checks after Status only at a moment before its row's, and its token's, expiry |
| BlanketRevocation.ReplayBurnsSessions | backend/internal/auth/service.go:154-168 | a redeemed token presented again is refused and leaves its owner without a spendable token |
| BlanketRevocation.LostRaceBurnsSessions | backend/internal/auth/service.go:174-188 | so does losing MarkUsed to another refresh or a logout |
| BlanketRevocation.SessionSurvivesReplay | backend/internal/auth/service.go:128-133 | a concrete run in which a replay is refused and revokes everything, and a live token is tracked afterwards |
| BlanketRevocation.StaysRevokedIff | backend/internal/auth/service.go:128-133 | without a new login the sessions stay revoked for ever if and only if no refresh was past MarkUsed and no login inside issuePair |
| BlanketRevocation.RevocationBoundAttained | backend/internal/auth/service.go:190-237 | from any reachable state a run without a new login leaves exactly as many spendable tokens as pairs were pending at the revocation |
| BlanketRevocation.LogoutBound | backend/internal/auth/service.go:221-223 | a logout leaves no spendable token, later ones are bounded by later logins plus pairs pending at it, and it lasts exactly when none was |
| ReplayAlarms.LogoutCountsAsReplay | backend/internal/auth/service.go:174-188 | a concrete run in which a logout overtakes a refresh, which is counted as a replay though no token was ever redeemed |
| ReplayAlarms.AlarmsAreReplaysIff | backend/internal/platform/metrics/metrics.go:153-157 | every alarm of a run concerns a redeemed token if and only if no refresh found its row revoked, or gone unredeemed, between Status and MarkUsed |
| PurgeInvisibility.PurgeIsUnseenIff | backend/cmd/server/main.go:217-239 | in a run with purges every request does at every point what it does without them if and only if none misses a purged row that is used (at Status) or spendable (at MarkUsed) |
| PurgeInvisibility.PurgeIsInvisible | backend/internal/auth/service.go:134-190 | refreshes under a day from Parse to MarkUsed: same outcomes, redemptions and revocations as without purges, and each missing row's token is refused from then on |
| PurgeInvisibility.PurgeIsVisibleToASlowRefresh | backend/cmd/server/main.go:213-226 | a concrete run, a refresh held for over a day, in which a purge turns a replay into a mere unknown token |
| PurgeInvisibility.PurgeBurnsASlowRefresh | backend/internal/auth/service.go:174-190 | a concrete run, held between Status and MarkUsed, in which a purge turns a redemption into a lost race and a revocation |
| PurgeInvisibility.PurgeRemovesExactly | backend/cmd/server/main.go:225-226 | a purge removes a row exactly when it expired more than 24 hours ago |
| AuditService.Service.Record | backend/internal/auditlog/service.go:51-71 | appends at the end or drops: after Stop, or on a full buffer |
| AuditService.Service.DrainAndExit | backend/internal/auditlog/service.go:92-106 | empties the channel into full batches and one last batch, in order, losing and repeating nothing |
| AuditService.Service.FlushSync | backend/internal/auditlog/service.go:127-152 | with at most one Insert, what was in the channel is inserted or, after cancellation, still there, in order |
| AuditPipeline.StepInv | backend/internal/auditlog/service.go:51-152 | bounds, order, conservation and batch discipline survive every send, receive, select and Insert boundary |
| AuditPipeline.FifoConservation | backend/internal/auditlog/service.go:51-152 | with one FlushSync caller: Inserts, then buffers, then channel are the accepted entries in send order, at every point of every run |
| AuditPipeline.BagConservation | backend/internal/auditlog/service.go:127-152 | with any number of callers every accepted entry is in exactly one place |
| AuditPipeline.InsertDiscipline | backend/internal/auditlog/service.go:77-132 | the goroutine inserts 1 to 64 entries, nobody inserts an empty batch, FlushSync drains only after the goroutine exited |
| AuditPipeline.TickFlushes | backend/internal/auditlog/service.go:112-113 | after any run a tick leaves nothing buffered: inserted and queued entries are the accepted ones; an empty buffer starts no Insert |
| AuditPipeline.ReceiveBatches | backend/internal/auditlog/service.go:97-111 | a receive takes the oldest entry, and the sixty-fourth starts the Insert of exactly those sixty-four |
| AuditPipeline.ShutdownCompleteness | backend/internal/auditlog/service.go:118-132 | once wg.Wait can return, the goroutine's own Inserts start with everything accepted before Stop, in order, whatever context FlushSync has |
| AuditPipeline.DrainLoopsTerminate | backend/internal/auditlog/service.go:92-106 | after Stop receives are bounded by channel length plus producers past the done check |
| AuditPipeline.RunnerExits | backend/internal/auditlog/service.go:92-106 | after Stop the goroutine's own steps lead to its exit from every state |
| AuditPipeline.FlusherReturns | backend/internal/auditlog/service.go:132-151 | once the goroutine has exited a FlushSync returns by its own steps, and leaves the channel empty |
| AuditLeftovers.SendAfterFlushSync | backend/internal/auditlog/service.go:51-71 | a concrete run in which FlushSync returns without an error and an entry is accepted afterwards, never to be inserted |
| AuditLeftovers.NothingLeftIff | backend/internal/auditlog/service.go:124-152 | once every FlushSync has returned, everything ever accepted is and stays inserted if and only if the channel is empty and no producer was past the done check |
| AuditQuery.BuildInsertSQL | backend/internal/auditlog/postgres.go:34-47 | row i, column j refers to argument 6i+j |
| AuditQuery.PlaceholdersCount | backend/internal/auditlog/postgres.go:34-47 | read in order, the placeholders are 1 to 6n, none missing and none twice |
| AuditQuery.BuildInsertArgs | backend/internal/auditlog/postgres.go:49-63 | six arguments per entry in column order, a zero time replaced; fails exactly when some metadata cannot be marshalled |
| AuditQuery.RowDecodes | backend/internal/auditlog/postgres.go:29-63 | decoding a built row over the built arguments gives the entry back |
| AuditQuery.Table.Insert | backend/internal/auditlog/postgres.go:65-75 | the table grows by exactly the batch, in order, field by field, a zero time filled in; or, when the JSON or the statement fails, does not change |
| AuditQuery.BuildList | backend/internal/auditlog/postgres.go:77-117 | over the built arguments the conditions hold of exactly the entries the query describes; each argument is used once; limit 1 to 1000 or else 100; offset only when positive |
| AuditQuery.List | backend/internal/auditlog/postgres.go:77-118 | for every table, the statement's possible results are exactly the query's answers: that page of the matching entries, newest first |
| AuditQuery.AnswersAreNewest | backend/internal/auditlog/postgres.go:104-117 | an answer is newest first, at most 1000 long and no more than the matching entries; on a first page a match is missing only when the page is full and nothing on it is older |
| TicketStore.MemTicketStore.Issue | backend/internal/realtime/ws/ticket.go:69-78 | adds one unused ticket for its user and role, expiring after the TTL |
| TicketStore.MemTicketStore.Consume | backend/internal/realtime/ws/ticket.go:84-101 | alone: the ticket if it is there and not expired, and in every case it is gone afterwards |
| TicketStore.MemTicketStore.Cleanup | backend/internal/realtime/ws/ticket.go:125-133 | removes exactly the expired entries |
| TicketProtocol.StepRefines | backend/internal/realtime/ws/ticket.go:84-133 | each Load, expiry check, swap, Delete and prune is an action of an atomic set, or no action |
| TicketProtocol.Linearizable | backend/internal/realtime/ws/ticket.go:69-133 | every run of concurrent Consumes and prunings is a run of that atomic set |
| TicketProtocol.RedeemedAtMostOnce | backend/internal/realtime/ws/ticket.go:94-100 | in every run two successful Consumes of one ticket are the same call, and it got the user and role issued |
| TicketProtocol.HandedOutIsGone | backend/internal/realtime/ws/ticket.go:97-100 | in every run a ticket handed out is no longer in the map |
| TicketProtocol.SoleRun | backend/internal/realtime/ws/ticket.go:84-133 | over any run in which nobody else asks for the ticket, a call past its check is never turned away, and before that only by expiry |
| TicketProtocol.TurnsAnswer | backend/internal/realtime/ws/ticket.go:84-101 | no call waits for another: at most four turns of its own answer it, whatever the others and the pruner do |
| TicketProtocol.SoleConsumerSucceeds | backend/internal/realtime/ws/ticket.go:84-101 | a sole consumer given its turns gets its ticket: before expiry from any point, and past its check however late the rest runs |
| Topics.RefusalIsExact | backend/internal/realtime/ws/handler.go:176-223 | the parsing branches accept exactly `classroom:<id>:...` with an id that parses and a classroom the user may see |
| Topics.ForbiddenIff | backend/internal/realtime/ws/handler.go:195-220 | forbidden exactly for a user topic or a well-formed topic of a classroom the user may not see; anything else refused is malformed |
| Topics.OwnTopicsArePrivate | backend/internal/realtime/ws/handler.go:164-184 | nobody is approved for another user's own topic |
| Topics.AuthorizeTopics | backend/internal/realtime/ws/handler.go:176-223 | all or nothing: every topic named is granted, and nothing but the user's own and classrooms the user may see; else the error of the first topic that is not approved |
| Hub.Hub.Register | backend/internal/realtime/ws/hub.go:70-82 | the index stays equal to a scan of all clients, topic by topic |
| Hub.Hub.Unregister | backend/internal/realtime/ws/hub.go:84-99 | the same, no empty bucket is left, and the client is closed; the gauge keeps pace with the client count exactly when the client was still registered |
| Hub.Hub.Publish | backend/internal/realtime/ws/hub.go:114-141 | one copy to every open subscriber with room, nothing to others, queues stay within 64 |
| Hub.Hub.ClientCount | backend/internal/realtime/ws/hub.go:143-147 | the number of registered clients, which the gauge follows |
| HubProtocol.StepInv | backend/internal/realtime/ws/hub.go:70-141 | queue bound, approved topics, no duplicates and the account of each Publish survive every interleaved step |
| HubProtocol.Delivery | backend/internal/realtime/ws/hub.go:114-141 | in every interleaving queues stay within 64, every payload's topic was approved for its client, and one Publish reaches a client at most once |
| HubProtocol.ServeSubscribes | backend/internal/realtime/ws/handler.go:115-139 | an approved connection is registered under its own topic and exactly those it asked for |
| HubProtocol.SubscriberIsReached | backend/internal/realtime/ws/hub.go:114-136 | while registered and with room, it gets every payload published on a topic of its |
| HubProtocol.UnregisteredIsNeverFound | backend/internal/realtime/ws/hub.go:84-99 | once unregistered, it stays closed and no later Publish finds it |
| HubProtocol.DeliveredUnlessMissed | backend/internal/realtime/ws/hub.go:119-136 | a finished Publish reached exactly the clients of its snapshot, less those it missed |
| HubProtocol.MissedForAReason | backend/internal/realtime/ws/hub.go:127-136 | in every run a client a Publish missed had, at its select, a full queue or was closed |
| Throttle.Engine.Throttle | backend/internal/notification/trigger.go:60-77 | suppresses within five minutes of the key's last alert; above 4096 entries the loop evicts exactly the expired ones |
| Throttle.Engine.OnDeviceStateChange | backend/internal/notification/trigger.go:79-97 | going offline alerts unless cooling down; going online changes nothing |
| Throttle.Engine.OnSensorReading | backend/internal/notification/trigger.go:99-121 | at most the one rule that applies, thresholds strict; a reading beyond one is silent only while that rule cools down |
| Throttle.EvictionIsInvisible | backend/internal/notification/trigger.go:54-77 | with samples in lock order the evicting map answers every call like a map that never evicts |
| Throttle.FiresIff | backend/internal/notification/trigger.go:60-77 | with samples in lock order a call fires exactly when its key fired no alert in the five minutes before |
| Throttle.AlertSpacing | backend/internal/notification/trigger.go:60-68 | with samples out of order by at most d, alerts of a key are at least cooldown - d apart, evictions included |
| Throttle.WindowBound | backend/internal/notification/trigger.go:60-68 | a window of length w holds at most floor(w / cooldown) + 1 alerts of a key |
| Throttle.SkewedWindowBound | backend/internal/notification/trigger.go:60-68 | with samples out of order by at most d, such a window holds at most floor(w / (cooldown - d)) + 1 |
| Throttle.KeysAreIndependent | backend/internal/notification/trigger.go:60-77 | other keys' traffic never changes a key's alerts |
| Throttle.AlertKeysDiffer | backend/internal/notification/trigger.go:60-61 | keys of different classrooms, devices or rules differ |
| RateLimiter.RateLimiter.Admit | backend/internal/platform/httpx/middleware/ratelimit.go:61-71 | the bucket's answer, a new key starting full; the visitor was seen now |
| RateLimiter.RateLimiter.Cleanup | backend/internal/platform/httpx/middleware/ratelimit.go:80-87 | drops exactly the visitors idle for longer than the TTL |
| RateLimiter.EvictionIsInvisible | backend/internal/platform/httpx/middleware/ratelimit.go:61-90 | if rps * ttl >= burst, every run admits the same requests with and without cleanups |
| RateLimiter.RateBound | backend/internal/platform/httpx/middleware/ratelimit.go:61-90 | then any window of length T of any run admits at most burst + rps * T requests of a key |
| RateLimiter.EvictionIsVisibleOtherwise | backend/internal/platform/httpx/middleware/ratelimit.go:73-90 | else a run of two bursts breaks both the equality and the bound |
| RateLimiter.EvictionInvisibleIff | backend/internal/platform/httpx/middleware/ratelimit.go:61-90 | eviction is unobservable if and only if rps * ttl >= burst, for every rate and burst from zero up |
| RateLimiter.DeployedLimitersAreSafe | backend/internal/server/server.go:68-72 | the default and the auth limiter meet it |
| HassCredentials.StepInv | backend/internal/hass/service.go:73-282 | lock ownership, usable credentials and refresh history survive every step of every caller, failed Saves and restarts |
| HassCredentials.RoundTripsNeverOverlap | backend/internal/hass/service.go:219-236 | at most one refresh round trip is in flight |
| HassCredentials.RefreshesAreDue | backend/internal/hass/hass.go:52-57 | after a refresh the next one starts only within 60 s of the new token's end |
| HassProgress.NoDeadlock | backend/internal/hass/service.go:196-245 | in every reachable state each caller can step, or the holder of the mutex it waits for can, or the holder that one waits for |
| HassProgress.EveryCallCanEnd | backend/internal/hass/service.go:73-282 | from every reachable state every call can be brought to its end by the callers' own steps, whatever the database and Home Assistant answer |
| HassCredentials.OwnerCreatedOnce | backend/internal/hass/service.go:73-154 | over all concurrent Bootstraps, lost answers, failed Saves and restarts, CreateOwner succeeds at most once |
| HassCredentials.CachedCredentialsHaveASource | backend/internal/hass/service.go:73-282 | cached credentials carry a token that a Save stored or a refresh returned |
| HassCredentials.RefreshTokenSurvives | backend/internal/hass/client.go:250-263 | without SetToken a non-empty refresh token stays non-empty for the life of the process |
| HassTokens.RefreshTokenOutlivesRestarts | backend/internal/hass/service.go:73-282 | without SetToken row and cache keep a refresh token for good, through failed Saves, restarts and the reload of a stale row |
| HassTokens.ManualTokenIsOverwritten | backend/internal/hass/service.go:232-241 | a concrete run in which SetToken succeeds and a refresh under way then replaces the token |
| HassTokens.ManualTokenKeptIff | backend/internal/hass/service.go:232-279 | a manual token stays cached if and only if no refresh round trip was out or just back, and stays stored if and only if, besides, nobody was saving a refreshed token |
| HassOutcomes.RefreshStoresAnswer | backend/internal/hass/service.go:232-241 | a refresh caches exactly the tokens answered, with the old refresh token only if none was sent |
| HassOutcomes.FailedSavesKeepToken | backend/internal/hass/service.go:247-281 | after four failed Saves the caller has its token all the same and the row is as it was |
| HassOutcomes.RestartReloadsRow | backend/internal/hass/service.go:73-96 | after a restart nothing is cached, and the next Bootstrap caches and answers the row |
| HassOutcomes.LoginRecovers | backend/internal/hass/service.go:106-151 | an existing owner is logged in as and not created again, its tokens stored and cached |
| HassService.Onboarding.FinishOnboarding | backend/internal/hass/client.go:299-362 | success only when all steps are done, no step undone; one clean pass followed by a status answer suffices |
| HassService.Service.Bootstrap | backend/internal/hass/service.go:73-154 | which of cache, row, login and creation answers, and exactly when each works; the tokens cached and stored are those granted, field by field; a failure caches and stores nothing; an owner is created only if there was none and no row |
| HassService.Service.BootstrapWithRetry | backend/internal/hass/service.go:161-191 | pauses double from 3 s to 60 s; success means usable credentials; it never passes over an attempt that was sure to work, and gives up only for an owner it cannot log in as, or a cancelled pause |
| HassService.Service.SaveWithRetry | backend/internal/hass/service.go:247-279 | at most four attempts; saved if and only if one works before a cancellation |
| HassService.Service.Credentials | backend/internal/hass/service.go:196-282 | good or manual credentials come back untouched; ones within 60 s of their end become the answered ones, field by field, and the row follows exactly when a Save works in time |
| HassService.Service.SetToken | backend/internal/hass/service.go:427-449 | kept in row and cache exactly when non-empty, accepted and saved; otherwise nothing changes |
| Lessons.OverlapsIffSharesMinute | backend/internal/schedule/lesson.go:63-68 | Overlaps means sharing a day and a minute, and is symmetric |
| Lessons.CreateKeepsTimetable | backend/internal/schedule/repository.go:19-24 | creation keeps all lessons valid and pairwise free of overlap |
| Lessons.UpdateKeepsTimetable | backend/internal/schedule/repository.go:19-24 | so does an update, moves between days included |
| Lessons.InsertSorts | backend/internal/schedule/scheduletest/memrepo.go:72-77 | the list order is kept, as a permutation |
| Lessons.DisjointTotal | backend/internal/schedule/lesson.go:48-68 | lessons of one day without overlap fit end to end into the time they span |
| LessonRepo.MemRepo.CreateIfNoOverlap | backend/internal/schedule/scheduletest/memrepo.go:22-33 | the scan finds a clash exactly when there is one; stored or unchanged |
| LessonRepo.MemRepo.UpdateIfNoOverlap | backend/internal/schedule/scheduletest/memrepo.go:35-49 | the same, ignoring the lesson's former self; unknown ids refused |
| LessonRepo.MemRepo.List | backend/internal/schedule/scheduletest/memrepo.go:62-93 | exactly the matching lessons, each once, by day and start |
| ScheduleService.Service.Create | backend/internal/schedule/service.go:46-70 | stored if and only if the caller may, day and times make sense, and no lesson of its classroom and day shares a minute with it; each error exactly when its reason is the first; a refusal changes nothing |
| ScheduleService.Service.Update | backend/internal/schedule/service.go:82-123 | given fields are stored and absent ones stay, field by field; otherwise as Create, and the lesson never clashes with its former self |
| ScheduleService.Service.Delete | backend/internal/schedule/service.go:125-134 | removes exactly this lesson, when it exists and the caller may |
| ScheduleService.Service.Current | backend/internal/schedule/service.go:164-181 | refused without the right to read; else the first match is the only lesson on at that minute, or there is none |
| ScheduleService.Service.Day | backend/internal/schedule/service.go:154-162 | the right to read first, then the day, then exactly that day's lessons in order |
| ScheduleService.Service.Week | backend/internal/schedule/service.go:136-152 | refused without the right to read; else each day's lessons in list order, Monday to Friday always present |
| ScheduleService.WeekPartitions | backend/internal/schedule/service.go:136-152 | read Monday to Sunday the week is the classroom's list again: nothing lost, doubled or reordered |
| ScheduleService.DayTotal | backend/internal/schedule/lesson.go:48-68 | a classroom's lessons of one day sum to at most 1439 minutes |
| ScheduleService.NeverOverlapping | backend/internal/schedule/service.go:46-134 | from an empty store no run of Create, stale Update, day move and Delete ever stores two lessons sharing a minute |
| ScheduleService.WriteMovesDay | backend/internal/schedule/service.go:82-123 | a write of an earlier, possibly stale read that makes sense and fits leaves the lesson on the day the patch names, and no other lesson changed |
| LessonLocks.Conflicts | backend/internal/schedule/postgres.go:93-100 | the scan over the locked rows finds a conflict exactly when a row other than the excluded one overlaps |
| LessonLocks.TwoCreatesCanOverlap | backend/internal/schedule/postgres.go:56-106 | a run of two creations in an empty day in which both commit and overlap |
| LessonLocks.WriteStoresIff | backend/internal/schedule/postgres.go:23-54 | a transaction stores its lesson exactly when no locked row conflicts and there is a row to update, or none to collide with |
| LessonLocks.RowLocksSufficeIff | backend/internal/schedule/postgres.go:62-106 | every run keeps the timetable at every point if and only if no transaction commits over an overlapping lesson that arrived unseen since its select |
| LessonLocks.ArrivalsAloneSuffice | backend/internal/schedule/postgres.go:62-106 | if rows only come into a day nobody else is working on, edits, moves out and deletions interleave freely without ever overlapping |
| Devices.Service.Execute | backend/internal/device/service.go:201-251 | each refusal exactly when its reason is the first to apply, changing nothing; else what is stored, field by field, what the trigger is told and what is answered |
| Devices.OfflineMarkIsLost | backend/internal/device/service.go:222-231 | a concrete run after which the trigger was told "offline" and the row says "online" |
| Devices.InStepIff | backend/internal/device/service.go:220-245 | one operation keeps the trigger's news and the stored flags in agreement if and only if it does not lose an offline mark |
| Devices.OnlineEdges | backend/internal/device/service.go:201-251 | over any serial run the trigger's news about a device alternate, online first, and the last one is the stored flag, throughout the run if and only if no offline mark is lost |
| Devices.OutOfReachStays | backend/internal/device/service.go:209-211 | no list of commands changes a device in a classroom the caller may not use, or makes news of it |
| Scenes.Service.RunSteps | backend/internal/scene/service.go:157-178 | results match an executed prefix, all of it unless cancelled; the device store is the fold of Execute over it; the first failure is kept |
| Scenes.Service.Run | backend/internal/scene/service.go:148-209 | the same for a known scene the caller may run, with an error if and only if some executed step failed; refused otherwise with nothing executed |
| Scenes.SceneEdges | backend/internal/scene/service.go:157-178 | the edge theorem for devices holds across a scene |
| UserStore.MemRepo.Create | backend/internal/user/usertest/memrepo.go:24-34 | refused exactly for a taken email; both indexes get one new object and agree if and only if the id was new |
| UserStore.MemRepo.GetByID | backend/internal/user/usertest/memrepo.go:36-45 | agrees with the one simple map the indexes stand for |
| UserStore.MemRepo.GetByEmail | backend/internal/user/usertest/memrepo.go:47-56 | finds exactly the user with that email, and the same data as by id |
| UserStore.MemRepo.Update | backend/internal/user/usertest/memrepo.go:58-71 | a new object under both keys; email and password survive whatever the caller passes |
| UserStore.MemRepo.UpdatePassword | backend/internal/user/usertest/memrepo.go:73-82 | one write in place, seen through both indexes |
| UserStore.MemRepo.Delete | backend/internal/user/usertest/memrepo.go:84-91 | gone from both indexes |
| UserStore.MemRepo.ContentsProper | backend/internal/user/usertest/memrepo.go:15-18 | emails are unique, and both indexes give the same data |
| UserStore.EmailsForLife | backend/internal/user/usertest/memrepo.go:24-91 | over every run emails stay unique and a user's email never changes |

## Left out

- Rotation.StepInv: takes jtis as fresh and JWTs as unforgeable, and reads one clock everywhere; the not-before check,
  key handling and the access token are not modelled.
- AuthService.Service.Refresh: a detected replay is answered `Replayed`, where the source answers its invalid-refresh
  error in both cases; the name records that RevokeUser ran. Errors of the store or the user lookup are the protocol's
  `Fail` label, which also stands for a RevokeUser that fails and is only logged.
- Rotation: a row missing at MarkUsed takes the lost-race branch, as the database store answers; the in-memory store's
  unknown-token error there is the `Fail` label. The cascade that deletes a user's rows is not modelled.
- AuthService: Register's creation of the user, password hashing and email normalisation. For the token store it is a
  login; `StartLogin` covers both.
- RateLimiter.RateLimiter.Admit: `rate.Limiter` is taken as the standard token bucket over reals, without floating-point
  rounding; a negative rate or burst, and choosing the client's address (X-Forwarded-For, trusted proxies), are left out.
- Throttle: creation of the notification and its delivery.
- AuditPipeline: what a failed Insert means for its entries beyond "attempted"; the log lines and counters.
- AuditQuery.BuildInsertSQL: the statement is its placeholders, not its text; the fixed words and the decimal rendering
  of numbers are left out, as is the database-assigned id.
- HubProtocol: payload encoding, the socket itself, ping and write deadlines; connection ids are fresh.
- Topics: uuid parsing, trimming and the classroom's own authorization are parameters.
- HassCredentials: BootstrapWithRetry is repeated `CallBootstrap` labels there; a CreateOwner request that reaches Home
  Assistant after the backend restarted is not modelled. Config flows, adoption and the self-check are left out.
- HassService.Service.BootstrapWithRetry: looks at finitely many attempts, where the source's loop has no bound; a run
  that uses them all up is one that would go on.
- ScheduleService: the classroom's authorization is a predicate of the classroom; parsing and printing of times of day.
- LessonRepo.MemRepo.List: sorting is by insertion, since the library's sort is not part of the repository.
- LessonLocks: statements see read-committed data and lock rows in their present form; predicate or table locks, other
  isolation levels and deadlock detection of the database are not modelled.
- Devices.OnlineEdges: is about serial runs. Two concurrent commands on one device may both see the same previous flag.
- Scenes.Service.Run: what the world does during each step, and cancellation after it, are inputs; the broker event and
  the metrics label are left out.
- HTTP handlers, translation, analytics SQL, device drivers, push notifications and the mobile app: plumbing, or
  upstream answers that appear here as inputs.
