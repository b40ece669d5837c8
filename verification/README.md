# Verified model of the game rooms and their neighbours

A Dafny 4.11 project that models the parts of the repository whose correctness depends on many steps and many
failures, and proves what they promise for every run. `dafny verify dfyconfig.toml` checks it.

## What is modelled

**The distributed room lock** (`Redis`, `LeaseValue`, `LockProtocol`, `LockSafety`, `RoomLockService`, `LockHeartbeat`,
`RoomStateStore`). Any number of critical sections on any number of workers take locks with SET NX and a fencing
counter, extend them by heartbeat, check their lease before every write and once more at the end, and write through
scripts that compare fencing tokens. A command takes effect somewhere between its sending and its settling, or never;
its reply may be lost; a worker may stop anywhere; a key expires at some moment that is not before its time. Every
worker has its own clock offset. `FencedStore` is the same store without leases and locks, and `LockRefinesFencing`
shows that every run of the protocol is a run of it. Assumptions, as in the code: clocks run at one rate, tokens are
fresh, a settled command never executes later, and the fencing counter does not expire while a holder of an older token
is still alive.

**The room index** (`RoomIndexProtocol`, `RoomIndexSafety`, `RoomIndexExactness`, `RoomIndexRepository`). Room
creation, requests, deletion, expiry and the background reconciler, on top of the fenced store. `RoomIndexLeases` runs
this protocol and the lock protocol together, step by step, with optional lease checks of the reconciler, and
`RoomIndexChecks` decides which of them are enough.

**The timer queue** (`RoomTimerProtocol`, `RoomTimerService`): claim by compare-and-set, reservation, clean-up only
of what is still reserved, crashes and retries.

**The game** (`RoomModel` to `RoomService`). A request is a plan: stages of writes that are issued together and
awaited together, computed from the documents it finds. A run of a room is a sequence of requests and timers, each
complete or cut short after any write, or after any part of writes issued together (`RoomRuns`). `RoomMachine` is the
same, write by write, together with the timer set and the pollers that claim, clean up and forget entries at any
moment; its runs refine those of `RoomRuns`. `RoomStore`, `RoomRoundService` and `RoomService` are the services
themselves, as classes that change a store whose commands may be lost or unanswered; every method is proved to carry
out exactly the plan of its request, so that the theorems about plans are theorems about the methods. `RoomRetry` and
`RoomWorldRetry` are about repetitions after a failure.

What a plan is for is said without it: `RoomOutcomes`, `RoomChat`, `RoomMembership` and `RoomGameOutcomes` give, for
every request that completes, the documents and timers it leaves in terms of those it found, and `RoomRefusals` who is
refused with what. `RoomRoundEnds` says what the end of a round leaves, whatever request it was, and `RoomReadiness`,
over whole runs, that a round begins once everybody is ready.

Runs of `RoomRuns` and `RoomMachine` have one section at a time. `LockSafety` proves this of sections that return
normally. A section that has lost its lock goes on for a while: until there is a newer grant its writes are accepted, and
after it they are refused, while timer commands carry no token and are never refused. `RoomSections` lets any number of
sections overlap in this way and proves that documents, timers and pollers still go through a run of `RoomMachine`,
whose late timer commands are those of sections that were overtaken, so that its theorems hold under overlap.
`RoomSectionLeases` runs these sections together with the lock protocol.

The record of a room is read with a fallback that turns a failed read into a missing room, whereas the other documents
are read strictly. The services model both kinds of read. The machine is parameterised by the timers whose handlers read
with the fallback, in the code all of them; what needs a strict read says so (`RoomMachineReads`).

**Three smaller cores**: the sliding-window rate limiter with a block (`RateLimiter`), the review of an ADD_ANSWER
action (`InquiryReview`) and when approvals may be let through (`InquiryGate`), and the scanner that cuts a JSON object
out of a page (`JsonText`, `JsonScanner`).

## Findings

- **A live room can drop out of the index.** The comment at `apps/game/src/room/room-index-reconciler.service.ts:42-46`
  says that no save can slip in between the check and the removal. The check does not ask whether the lease still
  holds (`apps/game/src/room/room.repository.ts:79-84`), and the removal runs under the index lock, whose lease is
  fresh. A reconciler that stalled past its room lease can therefore read that the record is gone after its time to
  live ran out, while a newer section that had read the record before still saves it; the reconciler then unlists the
  live room. `RoomIndexChecks.IndexIsNotAlwaysSafe` is such a run in the index protocol, and
  `RoomIndexChecks.CheckBeforeIsNotEnough` is one with every lease and lease check in place, and on top with a check of
  the reconciler's own lease before the read, since it can stall between check and read. A check after the read and
  before the removal is enough in every run (`RoomIndexLeases.CheckAfterReadKeepsIndexSafe`): going on without a check
  or with the earlier one is not (`RoomIndexChecks.IndexIsSafeIff`). In terms of the index protocol alone,
  `RoomIndexSafety.IndexIsSafe` proves safety for all runs without a stale absence, and
  `RoomIndexExactness.ReconcilerIsSafeIffNotStale` that this is the exact condition.
- **The rate bound needs a block at least as long as the window.** Unblocking resets the count, so a shorter block
  lets one request too many pass (`RateLimiter.RateBoundedIff`).
- **An approval before the pipeline has decided can insert an answer twice.** The row can be approved as soon as it is
  saved as PROPOSED (`apps/api/src/inquiry/inquiry.service.ts:134-137`), and the pipeline's own transition is not guarded
  (`apps/api/src/inquiry/inquiry.service.ts:275-297`). A HIGH action is then executed twice. A MEDIUM or LOW one is moved
  to PENDING_REVIEW or REJECTED although it is being executed (`InquiryGate.DecisionHidesExecution`), and the next
  approval executes it again. An approval before the proposal is logged leaves a log that does not end with the status.
  The review is safe exactly when approvals come after the decision (`InquiryGate.ReviewIsSafeIff`,
  `InquiryGate.LogEndsWithStatusIff`); of all guards on the row's status, those that refuse PROPOSED rows are the safe
  ones (`InquiryGate.GuardIsSafeIff`).
- **A late cancel of the round timeout strands a round.** Timer commands carry no fencing token
  (`apps/game/src/room/room-timer.service.ts:151-169`). A cancel from the end of one round
  (`apps/game/src/room/room-round.service.ts:193-202`) that takes effect only when the next one is played leaves that
  round without a timeout. `RoomMachineLate.LateCancelStrandsIff` gives the exact states in which this can happen.
- **A failed read of the room record strands a round.** `getRoomRecord` reads with a fallback to local memory, which holds
  no room (`apps/game/src/room/room.repository.ts:55-59`, `apps/game/src/cache/cache.service.ts:123-135`). The handler of
  the round timeout takes that for a room that is gone and returns (`apps/game/src/room/room.service.ts:814-819`), and the
  entry of the timer is cleaned up (`apps/game/src/room/room-timer.service.ts:305-340`) while the round goes on. The
  comment on `getStrict` warns of just this (`apps/game/src/cache/cache.service.ts:136-145`); all other documents are read
  strictly. `RoomMachineReads.LenientReadStrands` shows it for every round that is played, and
  `RoomMachineReads.NoStuckRoundIff` that a strict read in this one handler is necessary and sufficient, also when
  sections overlap (`RoomSections.OverlapNeverStrandsIff`).
- `LOCK_BUSY` is documented as pure contention (`apps/game/src/room/room-lock.service.ts:444`), but attempts that found
  no connection do not count as errors; the model follows the code.

## Model

| member | source | states |
|---|---|---|
| `LockSafety.SuccessfulSectionsAreDisjoint` | `apps/game/src/room/room-lock.service.ts:338-387` | Fail-closed serialisation: in every run with pauses, expiry, lost commands and lost replies, two sections of one key that both return normally never overlap; one has made its final lease check before the acquire of the other takes effect. |
| `LockSafety.NoAcquireInside` | `apps/game/src/room/room-lock.service.ts:375-382` | No acquire of the same key by anybody takes effect between a section's own acquire and the final `isValid` check it passes. |
| `LockSafety.ValidLeaseIsConservative` | `apps/game/src/room/room-lock.service.ts:212-223` | While a section finds its lease valid by its own clock, Redis still holds the lock under its token, lets it expire no earlier than the section believes, and has issued no newer fencing token. |
| `LockSafety.AtMostOneValidLease` | `apps/game/src/room/room-lock.service.ts:198-223` | At no instant do two running sections of one key both hold a valid lease. |
| `LockSafety.FencesNeverFall` | `apps/game/src/room/room-lock.service.ts:54-62` | The fencing counter of a key never goes back. |
| `LockSafety.SectionPersists` | `apps/game/src/room/room-lock.service.ts:338-387` | A section keeps its key, and the last token it was granted until the next grant. |
| `LockSafety.FinalCheckDecides` | `apps/game/src/room/room-lock.service.ts:375-382` | The final check lets a section return exactly with a lease that is held and not over, and loses one that is over. |
| `LockSafety.ReturnedSectionPassedItsCheck` | `apps/game/src/room/room-lock.service.ts:375-387` | Over every run, a section that has returned normally passed its final check with a valid lease. |
| `LockHeartbeat.HeartbeatKeepsLease` | `apps/game/src/room/room-lock.service.ts:202-210` | Over every run: with ticks at most 1000 ms apart, and extensions that go unanswered for at most 3000 ms in a row after the heartbeat fell due, every tick finds the lease valid and the lock in Redis, however long the section runs. |
| `LockHeartbeat.SendsAreSpaced` | `apps/game/src/room/room-lock.service.ts:198-210` | Over every run, with no extension failing in between, two sendings of a section are at least 4000 ms apart. |
| `LockHeartbeat.TickDecides` | `apps/game/src/room/room-lock.service.ts:467-482` | A tick sends exactly when the lease is held and not over, no extension is under way, and the last renewal is at least 4000 ms old; it loses the lease exactly when that is over. |
| `LockHeartbeat.ExtensionIsAnswered` | `apps/game/src/room/room-lock.service.ts:72-78` | An extension is answered true exactly to the holder, and then the lock has another 8000 ms. |
| `LockHeartbeat.AnswerDecides` | `apps/game/src/room/room-lock.service.ts:483-505` | A renewal counts from its sending, a denial loses the lease at once, and a failure leaves it to its end. |
| `LockRefinesFencing.StalledWriterIsFenced` | `apps/game/src/cache/cache.service.ts:21-51` | After a newer section took the lock, a write or delete of an older section changes nothing, even when it was sent after a lease check that passed and then stalled. |
| `LockRefinesFencing.WriteLandsIffNewest` | `apps/game/src/cache/cache.service.ts:21-51` | Over every run, a write that reaches Redis has its effect exactly if nobody was granted the lock since its section was, whatever became of the lease; otherwise nothing changes. |
| `LockRefinesFencing.LandedTokensNeverDecrease` | `apps/game/src/cache/cache.service.ts:25-51` | Over a whole run of the lock protocol, the accepted operations on one key carry tokens that never decrease. |
| `LockRefinesFencing.LandedWriteReplacesWhatWasRead` | `apps/game/src/room/room-index.repository.ts:90-126` | No lost update: an accepted write made after a read of the same section replaces exactly the version that was read, whatever became of the lease, unless the section itself, an unlocked write or an expiry touched the key. |
| `LockRefinesFencing.RunRefines` | `apps/game/src/room/room-lock.service.ts:244-252` | Every run of the lock protocol is, seen through its grants and values, a run of the store that knows nothing but fencing tokens. |
| `FencedStore.StaleWritesNeverLand` | `apps/game/src/cache/cache.service.ts:21-51` | Once token n was issued for a lock, no fenced set or delete with a smaller token changes the store. |
| `FencedStore.AcceptedTokensNeverDecrease` | `apps/game/src/cache/cache.service.ts:25-51` | Accepted operations on a key carry non-decreasing tokens, even among sections that overlap in any way. |
| `FencedStore.NoLostUpdate` | `apps/game/src/room/room-index.repository.ts:90-126` | Fencing alone, without any lease, makes a read followed by an accepted write of the same section replace the version it read. |
| `Redis.Server.EvalAcquire` | `apps/game/src/room/room-lock.service.ts:54-62` | On a free lock, and only then: the lock is set under the token for 8000 ms, the counter goes up by one, and the reply is its new value; otherwise the reply is 0 and nothing changes. |
| `Redis.Server.EvalExtend` | `apps/game/src/room/room-lock.service.ts:72-78` | Answers true exactly when the token still matches, and then pushes the expiry to 8000 ms from now. |
| `Redis.Server.EvalRelease` | `apps/game/src/room/room-lock.service.ts:64-70` | Removes the lock exactly when the token still matches. |
| `Redis.Server.EvalFencedSet` | `apps/game/src/cache/cache.service.ts:25-36` | Stores the value unless a newer token was issued for the guard, and answers which. |
| `Redis.Server.EvalFencedDel` | `apps/game/src/cache/cache.service.ts:44-51` | Deletes the key unless a newer token was issued for the guard; a key that was not there counts as deleted. |
| `RoomLockService.LockLease.IsValid` | `apps/game/src/room/room-lock.service.ts:198-200` | Valid exactly while it is not lost and the clock is before its end. |
| `RoomLockService.LockLease.MarkRenewed` | `apps/game/src/room/room-lock.service.ts:217-223` | Counts the renewal from its sending, and ignores it on a lost lease or when it is not newer than the last one. |
| `RoomLockService.LockLease.MarkLost` | `apps/game/src/room/room-lock.service.ts:226-233` | Keeps the first reason, and is true only for the call that loses the lease. |
| `RoomLockService.LockLease.MonitorTick` | `apps/game/src/room/room-lock.service.ts:467-482` | One tick loses a lease that is over, and asks for an extension exactly when the lease is held and not over, none is under way, and the last renewal is at least 4000 ms old. |
| `RoomLockService.AcquireLock` | `apps/game/src/room/room-lock.service.ts:394-450` | Against any behaviour of Redis and clock the loop ends; success is dated when its own attempt was sent, and each failure code is returned exactly in its own case. |
| `RoomLockService.OutageHasOneStart` | `apps/game/src/room/room-lock.service.ts:401-436` | The outage whose length is compared with the budget has exactly one beginning. |
| `RoomStateStore.RoomFencedStateStore.AssertLeaseHeld` | `apps/game/src/room/room-lock.service.ts:296-309` | Passes exactly outside any lock or with a valid lease; an invalid lease is lost for good. |
| `RoomStateStore.RoomFencedStateStore.WriteSharedState` | `apps/game/src/room/room-fenced-state.store.ts:30-45` | Lease lost, wrong lock, stale token or done, each in terms of the lease, its lock and the newest token of that lock; the store changes only when it is done. |
| `RoomStateStore.RoomFencedStateStore.DeleteSharedState` | `apps/game/src/room/room-fenced-state.store.ts:52-60` | The same for deletes. |
| `RoomIndexSafety.IndexStepsAreAtomic` | `apps/game/src/room/room-index.repository.ts:96-126` | The index only ever changes by one atomic add or one atomic remove of one room, although the sections read, change and write back. |
| `RoomIndexSafety.IndexHasNoDuplicates` | `apps/game/src/room/room-index.repository.ts:96-111` | In every interleaving the index lists no room twice. |
| `RoomIndexSafety.IndexIsSafe` | `apps/game/src/room/room-index-reconciler.service.ts:48-56` | In every run in which no reconciler reads a stale absence, every room whose creation returned and whose record exists is in the index. |
| `RoomIndexSafety.DeadStaysDead` | `apps/game/src/room/room-index-reconciler.service.ts:42-46` | A record that is gone, and that no newest section has read, never reappears: fencing refuses all others. |
| `RoomIndexSafety.CurrentReconcilerIsNeverStale` | `apps/game/src/room/room-index-reconciler.service.ts:48-56` | A reconciler that holds the newest grant of the room's lock never reads a stale absence. |
| `RoomIndexExactness.RecordReturnsIffRevivable` | `apps/game/src/room/room-index-reconciler.service.ts:42-46` | A missing record can come back if and only if the newest section of the room's lock has read it and may still save it. |
| `RoomIndexExactness.ReconcilerIsSafeIffNotStale` | `apps/game/src/room/room-index-reconciler.service.ts:48-56` | For a listed room without a record: going on after the check is safe in every continuation if and only if the absence read is not stale. |
| `RoomIndexExactness.UnlistLiveRoom` | `apps/game/src/room/room-index-reconciler.service.ts:48-56` | From every stale absence there is a continuation that leaves a live room out of the index. |
| `RoomIndexSafety.LaterGrantMeansDead` | `apps/game/src/room/room-index-reconciler.service.ts:42-56` | A reconciler that has found no record, and at any later moment still has the newest grant of the room's lock, knows at that moment that the record is gone for good. |
| `RoomIndexLeases.ValidLeaseIsCurrent` | `apps/game/src/room/room-lock.service.ts:198-223` | In every state that keeps the invariant of the lock protocol, a running section that finds its lease valid holds the newest grant of its lock. |
| `RoomIndexLeases.LeaseCheckAfterReadSuffices` | `apps/game/src/room/room-index-reconciler.service.ts:48-56` | Over every run of the lock protocol: a reconciler that finds its lease valid at any moment after its read had the newest grant when Redis executed the read, and has read no stale absence. |
| `RoomIndexLeases.CheckAfterReadKeepsIndexSafe` | `apps/game/src/room/room-index-reconciler.service.ts:48-56` | Over every run of lock protocol and index protocol together, with stalls, expiries, lost commands and lost replies: with a passing lease check between the read and the removal, every room whose creation returned and whose record exists is in the index. |
| `RoomIndexLeases.RunIsLockRun` | `apps/game/src/room/room-lock.service.ts:338-387` | Each run of both protocols is, without the rest, a run of the lock protocol. |
| `RoomIndexLeases.RunIsIndexRun` | `apps/game/src/room/room-index.repository.ts:90-126` | Each run of both protocols is, without locks and leases, a run of the index protocol. |
| `RoomIndexLeases.SentWriteMayLand` | `apps/game/src/room/room-fenced-state.store.ts:30-45` | To run the protocols together keeps no write back: whatever a section has sent may take effect at any later moment. |
| `RoomIndexChecks.CheckBeforeIsNotEnough` | `apps/game/src/room/room.repository.ts:79-84` | A run of both protocols that ends with a live room missing from the index, although the reconciler passed a lease check before its read, and the sections that save the record and write the index hold valid leases and return normally. |
| `RoomIndexChecks.IndexIsSafeIff` | `apps/game/src/room/room-index-reconciler.service.ts:48-56` | Of the reconciler as written, one that checks its lease before the read, and one that checks it after the read: the index is safe in all runs if and only if it is the last. |
| `RoomIndexChecks.IndexIsNotAlwaysSafe` | `apps/game/src/room/room-index-reconciler.service.ts:42-56` | The same run as the index protocol sees it, from the empty store. |
| `RoomIndexRepository.RoomIndexRepository.AddToIndex` | `apps/game/src/room/room-index.repository.ts:96-111` | Appends the room unless it is listed, touches no other key, and fails exactly when the fenced write does. |
| `RoomIndexRepository.RoomIndexRepository.RemoveFromIndex` | `apps/game/src/room/room-index.repository.ts:113-126` | Filters the room out if it is listed, touches no other key, and fails exactly when the fenced write does. |
| `RoomIndexRepository.RoomIndexReconciler.ReconcileOne` | `apps/game/src/room/room-index-reconciler.service.ts:48-56` | A room with a record is left alone; one without leaves the index, or the removal fails and nothing changes. |
| `RoomIndexRepository.RoomIndexReconciler.PruneStaleEntries` | `apps/game/src/room/room-index-reconciler.service.ts:25-33` | No room that has a record leaves the index, only the given ids leave it, and every one without a record whose section did not fail is gone. |
| `RoomTimerProtocol.EntryLeavesIffRemoved` | `apps/game/src/room/room-timer.service.ts:25-48` | An entry leaves the set exactly by a cancel, or by the clean-up of a successful run that still owns its reservation. |
| `RoomTimerProtocol.NoTimerIsLost` | `apps/game/src/room/room-timer.service.ts:298-326` | Over any run with crashes and retries, an entry that is gone has been cancelled or cleaned up in between. |
| `RoomTimerProtocol.NoDoubleClaim` | `apps/game/src/room/room-timer.service.ts:25-33` | Of all pollers that read one member with one score at most one claims it, unless it was scheduled anew in between. |
| `RoomTimerProtocol.ScoresOnlyGrow` | `apps/game/src/room/room-timer.service.ts:273-296` | Without a new schedule the score of an entry only grows while it is there. |
| `RoomTimerProtocol.RescheduleSurvivesIff` | `apps/game/src/room/room-timer.service.ts:40-48` | A reschedule during a handler run survives its clean-up if and only if its fire time differs from the reserved time. |
| `RoomTimerProtocol.ClaimOfFreshReadingWins` | `apps/game/src/room/room-timer.service.ts:25-33` | A claim whose reading is still right succeeds, and its handler runs under its own reservation. |
| `RoomTimerProtocol.ClaimedEntryComesBack` | `apps/game/src/room/room-timer.service.ts:273-296` | Over every run, an entry that was claimed is due again 24 seconds after the claim unless it is touched before, so also when its handler fails or its instance dies. |
| `RoomTimerService.TimerQueue.ScheduleRedis` | `apps/game/src/room/room-timer.service.ts:129-149` | A second schedule of a member replaces the first. |
| `RoomTimerService.TimerQueue.CancelRedis` | `apps/game/src/room/room-timer.service.ts:151-169` | Removes the entry and says whether there was one. |
| `RoomTimerService.TimerQueue.TryClaim` | `apps/game/src/room/room-timer.service.ts:273-296` | Pushes the entry to the reserved time exactly when its score is the one that was read. |
| `RoomTimerService.TimerQueue.DeleteIfReserved` | `apps/game/src/room/room-timer.service.ts:328-340` | Removes the entry exactly when it is still reserved at that time. |
| `RoomTimerService.TimerQueue.RangeByScore` | `apps/game/src/room/room-timer.service.ts:244-252` | The earliest due entries, each once, at most n of them, and all of them if they are fewer than n. |
| `RoomTimerService.TimerQueue.ClaimAll` | `apps/game/src/room/room-timer.service.ts:258-266` | Of the entries that were read exactly those are won whose score is still the one that was read; they are reserved, and nothing else changes. |
| `RoomTimerService.TimerQueue.Poll` | `apps/game/src/room/room-timer.service.ts:233-271` | An undisturbed poll fires no entry twice, reserves exactly what it fires, and leaves nothing that was due at its start unless it fired its maximum. |
| `RoomRuns.RunIsGood` | `apps/game/src/room/room.service.ts:146-846` | In every state of every run of requests, timers and failures: head count, distinct ids, host among the participants, round present exactly in a game, titles public exactly after the round, no loading room in which all are ready, no playing room whose round should be over, scores within six points a round, and the answers and titles of a loading or playing room equal to those of its place in the song order. |
| `RoomSections.OverlapIsMachineRun` | `apps/game/src/room/room-lock.service.ts:244-252` | Without the assumption that sections follow each other: with any number of sections of a room at work at once, each until its end, its failure or its crash, with refused writes and timer commands that are never refused, the documents, timers and pollers go through a run of the room machine. |
| `RoomSections.OverlapIsSerial` | `apps/game/src/room/room-lock.service.ts:244-252` | However sections overlap, the documents go through a run of the room, one request after the other, each complete or cut short, and at most the newest is under way. |
| `RoomSections.OverlapLeavesNoStuckRound` | `apps/game/src/room/room-round.service.ts:115-202` | No stuck round under overlap: if the handler of the timeout reads the record strictly, then however sections overlap, a room stored as playing has its round timeout in the timer set. |
| `RoomSections.OverlapNeverStrandsIff` | `apps/game/src/cache/cache.service.ts:136-145` | For every choice of the handlers that take a failed read of the record for a missing room: under overlap no round is ever without its timeout if and only if the handler of the timeout is not among them. |
| `RoomSections.MachineRunIsOverlap` | `apps/game/src/room/room-lock.service.ts:244-252` | And back: however the room machine goes on after a room is created, sections can go on, so that the machine adds nothing they cannot do. |
| `RoomSectionLeases.InTimeIsNewest` | `apps/game/src/room/room-lock.service.ts:375-382` | With the locks and leases of the lock protocol: a section that passes its last lease check has not been overtaken, so that a handler that was overtaken never cleans up. |
| `RoomSectionLeases.RunIsSectionsRun` | `apps/game/src/room/room-lock.service.ts:338-387` | Each run of the room and of the lock protocol together is, without locks and leases, a run of overlapping sections. |
| `RoomSectionLeases.LeasesLeaveNoStuckRound` | `apps/game/src/room/room-round.service.ts:115-202` | No stuck round over runs with leases, clocks, stalls and expiry, if the handler of the timeout reads strictly. |
| `RoomSections.OverlapIsGood` | `apps/game/src/room/room.service.ts:146-846` | However sections overlap, the room and the documents around it are good at every moment. |
| `RoomSections.OvertakenChangesNothing` | `apps/game/src/room/room-fenced-state.store.ts:14-18` | After a newer grant no write of an older section changes a document. |
| `RoomRequests.RequestKeepsGood` | `apps/game/src/room/room.service.ts:146-846` | Every request keeps all of that after each single write, and after any part of the writes it issues together. |
| `RoomRequests.LeaveKeepsGood` | `apps/game/src/room/room.service.ts:312-375` | A departure in any phase hands the host role on, forgets the user in the round, and begins or ends the round if that is due. |
| `RoomRequests.LeaverIsForgotten` | `apps/game/src/room/room.service.ts:323-349` | Nothing of a user who leaves remains in the room or its round, the others stay with their scores, and the host is one of them. |
| `RoomRequests.JoinKeepsGood` | `apps/game/src/room/room.service.ts:235-310` | A join in any phase keeps a loading room loading and a playing room playing. |
| `RoomRequests.MarkReadyKeepsGood` | `apps/game/src/room/room.service.ts:549-567` | A saved room is never loading with everybody ready. |
| `RoomRequests.SubmitKeepsGood` | `apps/game/src/room/room.service.ts:597-681` | A correct answer stays within the score bound, and a saved room is never playing with everybody correct. |
| `RoomRequests.RequestSkipKeepsGood` | `apps/game/src/room/room.service.ts:684-709` | A saved room is never playing with a majority of skips. |
| `RoomRequests.ForceSkipKeepsGood` | `apps/game/src/room/room.service.ts:715-740` | A forced skip reschedules the timeout and changes nothing else that matters. |
| `RoomRequests.EndRoundKeepsGood` | `apps/game/src/room/room-round.service.ts:162-202` | However a round ends, its titles become public together with the status, and the clean-up of timers touches no document. |
| `RoomRequests.AdvanceFindsRound` | `apps/game/src/room/room-round.service.ts:240-267` | In every good store the next round is found in the snapshot, and the game ends exactly after its last round. |
| `RoomRequests.AdvanceKeepsGood` | `apps/game/src/room/room-round.service.ts:240-267` | The next round or the end of the game, cut short after any write, leaves a good store. |
| `RoomRequests.StartKeepsGood` | `apps/game/src/room/room-round.service.ts:53-100` | A start cut short after any write leaves a good store. |
| `RoomModel.HasSkipMajority` | `apps/game/src/room/room-round.service.ts:139-146` | A majority is more than half as many skips as there are participants. |
| `RoomCommits.RequestCommits` | `apps/game/src/room/room-round.service.ts:186-192` | The room record is the commit point of every request: cut short anywhere, it has left the record as it was, or has had its whole effect on the documents; a departure that deletes the room has left everything as it was, or the room is gone. |
| `RoomRuns.CommitPoint` | `apps/game/src/room/room-round.service.ts:186-192` | The same for any writes that save the room once, after all other documents. |
| `RoomCommits.StepMoves` | `apps/game/src/room/room.service.ts:146-846` | Whatever happens, the record stays, is created, is deleted by the last departure, or makes one of the moves of the game: within a round, to the next round, to the end, or to a new game. |
| `RoomCommits.LeaveMoves` | `apps/game/src/room/room.service.ts:312-375` | A departure never leads to another round or another game. |
| `RoomCommits.AdvanceMoves` | `apps/game/src/room/room-round.service.ts:240-267` | An advance leads to the next round, or from the last one to the end of the game, and keeps the participants. |
| `RoomReadiness.ReadyRoundBegins` | `apps/game/src/room/room.service.ts:549-567` | Over every run: when every participant's ready message has completed while the round is loading, and none of them left after it, the round is being played; in any order, with failures and repetitions, and with any other requests in between. |
| `RoomReadiness.StaysReady` | `apps/game/src/room/room.service.ts:558-560` | Over every run, who has reported to be ready stays known as ready while the round loads and the user does not leave. |
| `RoomOutcomes.MarkReadyOutcome` | `apps/game/src/room/room.service.ts:549-567` | A complete ready message adds the user to those who are ready and drops nobody; the room plays, with its timeout in 31.8 seconds, if and only if every participant is among them. |
| `RoomRoundEnds.RoundEndOutcome` | `apps/game/src/room/room-round.service.ts:162-202` | Whatever request ends a round, when it completes: in speed mode the next round is due in 4 seconds and the saved room says so, otherwise its timer is as it was found; the timeout, and in speed mode the reveal, are gone unless their cancels were lost. |
| `RoomRoundEnds.OtherKeepsRound` | `apps/game/src/room/room.service.ts:146-740` | No request but a departure, an answer, a skip, the timeout and the reveal ever ends a round. |
| `RoomOutcomes.EndRoundOutcome` | `apps/game/src/room/room-round.service.ts:162-202` | The end of a round on documents and timers: titles, status, the next round, and the timers that go. |
| `RoomOutcomes.RequestSkipOutcome` | `apps/game/src/room/room.service.ts:684-709` | Who asks for a skip is counted once; more than half as many as there are participants end the round, and fewer only are remembered. |
| `RoomOutcomes.ForceSkipOutcome` | `apps/game/src/room/room.service.ts:715-740` | A forced skip brings the timeout to 3 seconds from now, as the saved room says. |
| `RoomOutcomes.TimeUpOutcome` | `apps/game/src/room/room.service.ts:767-825` | Timeout and reveal end the round that is played, and do nothing otherwise. |
| `RoomChat.ChatActionDecides` | `apps/game/src/room/room.service.ts:613-632` | Until the round is revealed: a message is shown exactly if it gives no answer away, it is correct exactly if the round is played, it equals an answer and the user has not answered before, and it is blocked otherwise. |
| `RoomChat.NothingIsGivenAway` | `apps/game/src/room/room.service.ts:590-632` | Over every run: while a round loads or is played, a message is shown exactly if it gives away no answer of the song of this very round. |
| `RoomChat.SubmitOutcome` | `apps/game/src/room/room.service.ts:634-670` | A message changes nothing unless it is a correct answer. Then the user takes the next rank with 6, 4, 3 or 1 points, and the round ends with the last participant, or in speed mode the first answer schedules the reveal in 6 seconds. |
| `RoomMembership.JoinOutcome` | `apps/game/src/room/room.service.ts:235-310` | A newcomer comes last with no points and nothing else changes; an account that takes part already changes nothing. |
| `RoomMembership.LeaveOutcome` | `apps/game/src/room/room.service.ts:312-375` | The leaver is gone from the room and its lists, the others stay as and where they were, the first of them takes over from a host who leaves, a round that waited only for the leaver begins or ends, and the last to leave takes room, documents and timers along. |
| `RoomMembership.CreateOutcome` | `apps/game/src/room/room.service.ts:155-205` | A new room waits with its host alone and the settings that were asked for. |
| `RoomMembership.UpdateOutcome` | `apps/game/src/room/room.service.ts:427-489` | Only the settings change, and only of a room outside a game that is large enough for those who are in it. |
| `RoomGameOutcomes.StartOutcome` | `apps/game/src/room/room-round.service.ts:53-100` | A game starts with the order and the rounds of its selection stored, the first of them loading with its own answers and titles. |
| `RoomGameOutcomes.RestartOutcome` | `apps/game/src/room/room.service.ts:517-546` | The same after a game, with every participant back at no points. |
| `RoomGameOutcomes.NextOutcome` | `apps/game/src/room/room.service.ts:570-589` | The next round of the stored order loads with its own answers and titles, or the game is finished and its documents are gone; both speed mode timers are cleared unless that was lost. |
| `RoomGameOutcomes.SpeedNextOutcome` | `apps/game/src/room/room.service.ts:793-812` | The timer of the next round does the same for a round that is over, touches no timer, and does nothing otherwise. |
| `RoomRefusals.ForbiddenIff` | `apps/game/src/room/room.service.ts:755-759` | Forbidden: exactly the requests that are the host's alone, made by somebody else. |
| `RoomRefusals.ConflictIff` | `apps/game/src/room/room.service.ts:235-740` | Conflict: exactly a full room, or a status that does not admit the request, for somebody who may make it and does not only come back. |
| `RoomRefusals.UnauthorizedIff` | `apps/game/src/room/room.service.ts:269-286` | Unauthorized: exactly a newcomer to a private room that is not full whose password does not match. |
| `RoomRefusals.BadRequestIff` | `apps/game/src/room/room.service.ts:155-473` | Bad request: exactly more songs than the quiz has, a private room without a password, or fewer places than participants. |
| `RoomRefusals.NotFoundIff` | `apps/game/src/room/room.service.ts:312-322` | Not found: exactly no room, a leaver who takes no part, nothing to play, or a next song that is not stored. |
| `RoomRefusals.UnavailableIff` | `apps/game/src/room/room-round.service.ts:56-74` | Unavailable: exactly a start at the right moment for which the quiz service gives no rounds. |
| `RoomRefusals.RefusedChangesNoRoom` | `apps/game/src/room/room.service.ts:146-740` | A refused request leaves the room record as it was, and what little else it may have written is named. |
| `RoomRetry.RetryReachesFaultFreeState` | `apps/game/src/room/room-round.service.ts:148-161` | Over every run: after a failure that has not changed the room record, whatever had been written by then, a repetition of the request that completes ends in the very documents it would have reached without the failure. |
| `RoomWorldRetry.RetryReachesFaultFreeWorld` | `apps/game/src/room/room-round.service.ts:148-161` | The same for documents and timers: a repetition that writes every timer the failed attempt was to write ends in the very world it would have ended in without it; in any case no other timer differs. |
| `RoomWorldRetry.SameRequestAgain` | `apps/game/src/room/room-round.service.ts:148-161` | The same request, repeated at any time, always writes the same timers, and so ends in the very documents and timers of the run without the failure. |
| `RoomRetry.GameKeepsOrder` | `apps/game/src/room/room-round.service.ts:240-267` | During a game no step changes song order or snapshot, except that they are deleted. |
| `RoomRetry.AdvanceResult` | `apps/game/src/room/room-round.service.ts:240-267` | What a complete advance comes to depends on the room and the stored order alone. |
| `RoomCourse.GamePlaysItsCourse` | `apps/game/src/room/room-round.service.ts:239-267` | Over every run, the rounds entered since the start of a game are its course in order, each once, up to the current round; the game is finished only when all were played, and an ended round shows the titles of its place in the course. |
| `RoomCourse.StartChoosesCourse` | `apps/game/src/room/room-round.service.ts:78-87` | For distinct songs the course is the first min(songLimit, number of rounds) rounds of the quiz or of the shuffled quiz, without duplicates. |
| `RoomCourse.StepKeepsCourse` | `apps/game/src/room/room-round.service.ts:240-267` | Each step enters at most the next round of the course. |
| `RoomCourse.PermutationStaysDistinct` | `apps/game/src/room/room-round.service.ts:301-308` | A shuffle of distinct songs has distinct songs. |
| `RoomScores.RoundGainsItsPoints` | `apps/game/src/room/room.service.ts:634-645` | In a round without departures whose answers come from participants, the participants together gain exactly the points of the first k ranks for k correct users. |
| `RoomScores.CorrectAnswerScores` | `apps/game/src/room/room.service.ts:639-645` | A participant's correct answer is worth the points of its rank, and a bystander's nothing. |
| `RoomScores.PointsAddUp` | `apps/game/src/room/game-scoring.util.ts:6-12` | The first k ranks together are worth 0, 6, 10, and from the third on 10 + k points. |
| `GameScoring.TrimIsRedundant` | `apps/game/src/room/game-scoring.util.ts:2-4` | Normalising is dropping all white space and folding the case; the trim adds nothing. |
| `GameScoring.SpacingIsIgnored` | `apps/game/src/room/game-scoring.util.ts:1-4` | White space anywhere in an answer makes no difference. |
| `GameScoring.NormalizeIsIdempotent` | `apps/game/src/room/game-scoring.util.ts:1-4` | Normalising twice is normalising once. |
| `GameScoring.JudgeMessage` | `apps/game/src/room/room.service.ts:613-632` | A message is exact, a spoiler or unrelated, exactly by the normalised answers that are not empty. |
| `GameScoring.ContainedIsGivenAway` | `apps/game/src/room/room.service.ts:624-632` | A message that contains an answer that is not blank gives it away, whatever stands before and after it. |
| `RoomMachineRuns.NoStuckRound` | `apps/game/src/room/room-round.service.ts:115-202` | No stuck round, if the handler of the timeout reads the record strictly: in every state of every run, also between two writes, a room stored as playing has its round timeout in the timer set, across failed reads and saves, crashed handlers, retries and reschedules. |
| `RoomMachineReads.NoStuckRoundIff` | `apps/game/src/cache/cache.service.ts:136-145` | For every choice of the handlers that take a failed read of the record for a missing room: no run leaves a playing round without its timeout if and only if the handler of the timeout is not among them. |
| `RoomMachineReads.LenientReadStrands` | `apps/game/src/room/room.service.ts:814-819` | From every state in which a round is played with its timeout and no section is at work: the timeout is claimed, its handler misses the record and returns, and the clean-up leaves the round without a timeout. |
| `RoomMachineReads.LenientReadStrandsRound` | `apps/game/src/room/room-timer.service.ts:305-340` | Such a run from the empty store. |
| `RoomMachineLate.LateCancelStrandsIff` | `apps/game/src/room/room-round.service.ts:193-202` | With strict reads, in every state of every run: a cancel of the round timeout that takes effect there can leave a round without one if and only if the room is stored as playing, or the section at work may save it so without scheduling the timeout anew. |
| `RoomMachineLate.RoundIsStranded` | `apps/game/src/room/room-timer.service.ts:151-169` | A run from the empty store to a round that a late cancel leaves without its timeout. |
| `RoomMachineRuns.DocumentsAlwaysGood` | `apps/game/src/room/room.service.ts:146-846` | The documents are good between any two writes as well, with pollers at work at any moment. |
| `RoomMachineRuns.RefinesRoomRuns` | `apps/game/src/room/room.service.ts:882-892` | Every run of the machine, write by write, is from section to section a run of the room, so that all results about runs apply to it. |
| `RoomMachineSafety.PlanIsSafe` | `apps/game/src/room/room-round.service.ts:120-136` | Every request schedules the timeout before it saves a playing room and cancels it only after the room is saved as not playing; the timeout's own handler always ends with a room that is not playing. |
| `RoomMachineSafety.EndRoundIsSafe` | `apps/game/src/room/room-round.service.ts:148-202` | The end of a round never takes the timeout away from a room that is still stored as playing. |
| `RoomMachine.EndIsStep` | `apps/game/src/room/room.service.ts:882-892` | However a section ends, what it leaves is what its request leaves when it is complete or cut short there. |
| `RoomShuffle.Shuffle` | `apps/game/src/room/room-round.service.ts:301-308` | The loop permutes its copy by one swap a place, with the places that are drawn. |
| `RoomShuffle.EveryPermutationCanBeDrawn` | `apps/game/src/room/room-round.service.ts:301-308` | Every permutation of the items is the result of some draw. |
| `RoomRoundService.MapSongIds` | `apps/game/src/room/room-round.service.ts:83` | The song ids in order. |
| `RoomRoundService.BuildSnapshot` | `apps/game/src/room/room-round.service.ts:84-87` | The snapshot, later rounds of a song replacing earlier ones. |
| `RoomRoundService.RoomRoundService.RecomputeReadyStatus` | `apps/game/src/room/room-round.service.ts:102-113` | Begins the round, with its timeout in 31.8 seconds, exactly when the room is loading and every participant is ready. |
| `RoomRoundService.RoomRoundService.BeginRound` | `apps/game/src/room/room-round.service.ts:124-136` | Schedules the timeout, and reports a failure to do so. |
| `RoomRoundService.RoomRoundService.FinalizeRoundEnd` | `apps/game/src/room/room-round.service.ts:162-184` | Publishes the stored titles, and in speed mode leaves the next round due in 4 seconds, in the timer set and in the room; otherwise no timer changes. A failed read or schedule is reported. |
| `RoomRoundService.RoomRoundService.CleanupStaleRoundTimers` | `apps/game/src/room/room-round.service.ts:193-202` | Cancels the timeout, and in speed mode the reveal; a lost cancel goes unnoticed. |
| `RoomRoundService.RoomRoundService.ClearSpeedModeTimer` | `apps/game/src/room/room-round.service.ts:226-237` | Cancels both speed mode timers without waiting. |
| `RoomRoundService.RoomRoundService.PrepareRoundData` | `apps/game/src/room/room-round.service.ts:315-356` | Stores answers and then titles of a song the snapshot has, refuses one it has not without writing, and reports a failed read of the snapshot. |
| `RoomRoundService.RoomRoundService.PrepareFirstRound` | `apps/game/src/room/room-round.service.ts:53-100` | Carries out the start of a game up to the save of the room, or is refused, or is cut short, as the plan of the request says. |
| `RoomRoundService.RoomRoundService.AdvanceToNextRound` | `apps/game/src/room/room-round.service.ts:240-267` | Carries out the advance up to the save of the room, command by command. |
| `RoomService.ServingIsStep` | `apps/game/src/room/room.service.ts:882-892` | What a service method does to the documents, also after a failed read, is a step of the room, and so keeps them good. |
| `RoomService.AnswerMeans` | `apps/game/src/room/room.service.ts:882-892` | A request that returns has completed, and one that is refused is refused as its plan says, so that the outcomes and refusals of requests are those of the methods. |
| `RoomService.RoomService.CreateRoom` | `apps/game/src/room/room.service.ts:155-205` | Refuses without writing or saves the new room. |
| `RoomService.RoomService.JoinRoom` | `apps/game/src/room/room.service.ts:235-310` | Carries out exactly the plan of a join on the store, and fails exactly when a command fails; like all requests, it is told that there is no room when the read of the record fails. |
| `RoomService.RoomService.LeaveRoom` | `apps/game/src/room/room.service.ts:312-375` | Carries out exactly the plan of a departure, in its order of writes, up to the command that fails. |
| `RoomService.RoomService.UpdateRoom` | `apps/game/src/room/room.service.ts:427-489` | Carries out exactly the plan of a change of settings. |
| `RoomService.RoomService.StartGame` | `apps/game/src/room/room.service.ts:492-514` | Carries out exactly the plan of a start with a drawn permutation. |
| `RoomService.RoomService.RestartGame` | `apps/game/src/room/room.service.ts:517-546` | The same for a restart, with all scores back at zero. |
| `RoomService.RoomService.MarkReady` | `apps/game/src/room/room.service.ts:549-567` | When it returns, the user is among those who are ready, who are otherwise as before, and the room plays with its timeout if and only if they are all participants; it carries out the plan of the request up to a command that fails. |
| `RoomService.RoomService.NextRound` | `apps/game/src/room/room.service.ts:570-589` | Clears the speed mode timers before it advances and saves, as the plan says. |
| `RoomService.RoomService.SubmitChatMessage` | `apps/game/src/room/room.service.ts:597-681` | Shows a message exactly if it gives no answer of an unrevealed round away, takes it as correct exactly if it is, with points and rank, and carries out the plan that goes with it. |
| `RoomService.RoomService.RequestSkip` | `apps/game/src/room/room.service.ts:684-709` | Carries out exactly the plan of a skip. |
| `RoomService.RoomService.ForceSkip` | `apps/game/src/room/room.service.ts:715-740` | Schedules the earlier timeout before it saves. |
| `RoomService.RoomService.HandleSpeedModeReveal` | `apps/game/src/room/room.service.ts:767-787` | When the read of the record fails it returns as if the room were gone; otherwise it ends the round that is being played, if one is, and reports every failure. |
| `RoomService.RoomService.HandleAutoNextRound` | `apps/game/src/room/room.service.ts:793-812` | When the read of the record fails it returns as if the room were gone; otherwise it advances a room whose round has ended, and reports every failure. |
| `RoomService.RoomService.HandleRoundTimeout` | `apps/game/src/room/room.service.ts:814-825` | When the read of the record fails it returns as if the room were gone; otherwise it ends the round that is being played, if one is, and reports every failure. |
| `RoomService.RoomService.DeleteRoom` | `apps/game/src/room/room.service.ts:827-846` | Deletes the record first, then cancels without waiting, then deletes the documents of the game together. |
| `RoomStore.CarriedIsRan` | `apps/game/src/room/room.repository.ts:99-121` | The documents after commands of which any may be lost or unanswered are documents after a part of the plan. |
| `RoomStore.RoomStore.GetRoomRecord` | `apps/game/src/room/room.repository.ts:55-59` | A read of the record that fails, or that is not sent for want of a connection, is answered as if there were no room. |
| `RoomStore.RoomStore.ReadStrictly` | `apps/game/src/cache/cache.service.ts:146-152` | Every other document is read strictly: a read that fails is reported and changes nothing. |
| `RoomStore.RoomStore.IssueAll` | `apps/game/src/room/room-round.service.ts:89-92` | Writes issued together are answered together; any of them may have taken effect. |
| `RateLimiter.RateBoundedIff` | `apps/api/src/throttler/redis-throttler-storage.service.ts:14-21` | For requests at non-decreasing times: at most `limit` of them pass in every window of length `ttl`, if and only if a block lasts at least `ttl` or the limit is 0. |
| `RateLimiter.ShortBlockLetsTooManyPass` | `apps/api/src/throttler/redis-throttler-storage.service.ts:41-43` | With a shorter block the reset lets limit + 1 requests pass in one window; the requests are given. |
| `RateLimiter.ExpiryIsTransparent` | `apps/api/src/throttler/redis-throttler-storage.service.ts:45-62` | Whatever keys Redis has dropped at or after their time, the answer is the one of keys that never expire. |
| `RateLimiter.PassedIsSpaced` | `apps/api/src/throttler/redis-throttler-storage.service.ts:34-64` | Each request that passes has fewer than `limit` others before it within `ttl`. |
| `RateLimiter.PassesIff` | `apps/api/src/throttler/redis-throttler-storage.service.ts:34-64` | With a block at least as long as the window, the script decides every request as a limiter does that remembers all that passed: it is refused exactly under a block, or when more than `limit` with it lie within `ttl`. |
| `RateLimiter.Limiter.Increment` | `apps/api/src/throttler/redis-throttler-storage.service.ts:34-64` | The script command by command: the hits, the block, and the four numbers of the reply. |
| `InquiryReview.ReviewIsSafe` | `apps/api/src/inquiry/inquiry.service.ts:375-455` | With approvals only after the pipeline has decided, under any interleaving, failure, lost reply and crash: at most one execution in flight, at most one row ever inserted for the action, and the last log event equals the status. |
| `InquiryGate.ReviewIsSafeIff` | `apps/api/src/inquiry/inquiry.service.ts:125-141` | For every set of stages of the pipeline in which approvals are let through, the time after the decision included: at most one execution is ever in flight, and at most one row inserted, in all runs if and only if the set has no other stage. |
| `InquiryGate.LogEndsWithStatusIff` | `apps/api/src/inquiry/inquiry.service.ts:261-280` | The last log event equals the status in all runs if and only if no approval is let through before the proposal is logged. |
| `InquiryGate.GuardIsSafeIff` | `apps/api/src/inquiry/inquiry.service.ts:134-137` | For every set of row states that the guard of an approval accepts: each of the three promises holds in all runs if and only if the guard refuses PROPOSED rows. |
| `InquiryGate.EarlyApprovalDoublesAnswer` | `apps/api/src/inquiry/inquiry.service.ts:275-303` | From every state before the decision in which nothing is executed and no equal answer exists, whatever the confidence, one approval can lead to two executions in flight and to two rows. |
| `InquiryGate.EarlyStageBreaksReview` | `apps/api/src/inquiry/inquiry.service.ts:129-141` | For each stage before the decision, a run from the beginning that breaks both promises with approvals in that stage and after the decision. |
| `InquiryGate.EarlyStageBreaksLog` | `apps/api/src/inquiry/inquiry.service.ts:266-273` | An approval before the proposal is logged leaves a log that ends with PROPOSED under an APPROVED row. |
| `InquiryGate.DecisionHidesExecution` | `apps/api/src/inquiry/inquiry.service.ts:275-283` | After an early approval the unguarded decision of a MEDIUM or LOW action puts PENDING_REVIEW or REJECTED over an execution that goes on. |
| `InquiryReview.RefusingProposedSuffices` | `apps/api/src/inquiry/inquiry.service.ts:134-137` | Over every run, with approvals of PROPOSED rows refused, all three promises hold. |
| `InquiryReview.RejectionFindsNothingExecuted` | `apps/api/src/inquiry/inquiry.service.ts:154-180` | Over every run with approvals after the decision, a rejection that takes effect finds no execution in flight and no answer inserted; a row that is approved, executing or completed is not rejected. |
| `InquiryReview.ExecutedRow` | `apps/api/src/inquiry/inquiry.service.ts:306-365` | One execution inserts at most one row, only if there was no equal answer, completes only with an equal answer stored, and only adds to the log. |
| `InquiryReview.ExecutionEnds` | `apps/api/src/inquiry/inquiry.service.ts:306-365` | In terms of what becomes of its steps: an execution whose steps are all answered ends completed; one whose check, insert, recording or end is not, and whose last transition commits, ends failed, with FAILED last in its log. |
| `InquiryReview.RejectionHasCause` | `apps/api/src/inquiry/inquiry.service.ts:154-180` | Over every run, a row that is rejected was rejected by an administrator while it waited, or by the decision on an action of LOW confidence. |
| `InquiryReview.OutcomeHasCause` | `apps/api/src/inquiry/inquiry.service.ts:306-365` | Over every run, a failed row was failed, and a completed one completed, by the step of an execution. |
| `InquiryReview.StatusHasCause` | `apps/api/src/inquiry/inquiry.service.ts:275-297` | In all states, each status is only ever written by its own cause: HIGH approves, MEDIUM waits, LOW rejects, administrators approve and reject, executions execute, complete and fail. |
| `InquiryReview.DecisionFollowsConfidence` | `apps/api/src/inquiry/inquiry.service.ts:275-303` | A decision that commits puts the row where its confidence says, and only HIGH confidence executes. |
| `InquiryReview.AdministratorActs` | `apps/api/src/inquiry/inquiry.service.ts:125-180` | An approval is refused exactly on an approved, executing or completed row, and a rejection exactly on one that does not wait; the others take effect unless their transaction fails. |
| `InquiryReview.InquiryReview.TransitionAction` | `apps/api/src/inquiry/inquiry.service.ts:375-455` | Row and log change together, exactly when the guard lets the update through and the transaction commits. |
| `InquiryReview.InquiryReview.AddAnswer` | `apps/api/src/inquiry/inquiry-action.service.ts:137-173` | Inserts exactly when the check found no equal answer. |
| `InquiryReview.InquiryReview.ExecuteAndFinish` | `apps/api/src/inquiry/inquiry.service.ts:306-365` | The steps of one execution with its two catch blocks: it returns exactly when every step is answered, with the row completed and an equal answer stored, and otherwise the row is failed if the last transition commits. |
| `InquiryReview.InquiryReview.Approve` | `apps/api/src/inquiry/inquiry.service.ts:125-152` | Refused without effect on a claimed, executing or completed row; otherwise claims it and executes, and returns exactly when every step is answered. |
| `InquiryReview.InquiryReview.Reject` | `apps/api/src/inquiry/inquiry.service.ts:162-180` | Succeeds exactly on a row that waits for its review. |
| `JsonScanner.ScannerIsExact` | `apps/api/src/quiz/youtube-scraper.client.ts:48-99` | When the first marker is followed by the text of any JSON object and any further text, exactly that object is cut out. |
| `JsonScanner.TruncatedPageGivesNothing` | `apps/api/src/quiz/youtube-scraper.client.ts:90-92` | A page that breaks off within the object gives nothing. |
| `JsonScanner.ExtractYtInitialData` | `apps/api/src/quiz/youtube-scraper.client.ts:48-95` | The two loops compute what the specification cuts out, and nothing without a marker, without a brace after it, or without the closing brace. |
| `JsonScanner.FindJsonEnd` | `apps/api/src/quiz/youtube-scraper.client.ts:59-88` | The loop over depth, string and escape finds the brace that closes the first one, or none. |
| `JsonScanner.JsonSkipped` | `apps/api/src/quiz/youtube-scraper.client.ts:64-88` | Inside an object every value, with any strings and escapes, leaves the scanner as it was. |

## Left out

- Local-memory fallbacks of lock, timers, throttler and of the other uses of the cache: the model assumes that Redis is configured; what the fallback does to a read of a room record then is modelled.
- HTTP, sockets, events, logging, chat history, abuse counters, nicknames, listing and pagination: no property of theirs needs the rest.
- Passwords, membership tokens and account checks: booleans of the request.
- Room fields that no rule reads (titles of quiz and room, artists, thumbnails, times of creation, video id and clip of a round).
- Times to live of room and round documents within `RoomRuns`, `RoomSections` and `RoomMachine`: a game is assumed to end before its documents expire; the index protocol does model the expiry of room records.
- The roll-back of a room whose listing failed, and the index part of deletions: they are part of the index protocol, not of the game.
- Late cancels of a round timeout that is needed: `RoomMachine` and `RoomSections` exclude them, because they strand the round; `RoomMachineLate.LateCancelStrandsIff` says exactly when. All other timer commands of an earlier section may take effect at any later moment.
- Coincidences of times in `RoomMachine` and `RoomSections`: a fire time or a reservation never equals the reserved time of a claim that only waits for its clean-up.
- Presence of the speed mode timer for the next round: `nextRound` clears it before it saves, so it does not hold when that save fails.
- That a timeout ends only its own round: handlers know only the room, so it does not hold.
- Room and round objects are values that a method changes step by step and then saves; aliasing between them is not modelled.
- Failed reads of the record by requests have no event in `RoomMachine`: the request is told that there is no room, and nothing changes. Failed strict reads end a section like a crash at that point.
- RoomTimerService.TimerQueue.Poll: an instance that nobody disturbs; interference between pollers is the subject of `RoomTimerProtocol`.
- RoomIndexRepository.RoomIndexReconciler.PruneStaleEntries: the sections run one after the other; interleavings are the subject of `RoomIndexProtocol`.
- GameScoring.SpacingIsIgnored: case folding is that of ASCII letters, and text is a sequence of characters rather than UTF-16 units.
- GameScoring.TrimIsRedundant: the same.
- GameScoring.NormalizeIsIdempotent: the same.
- GameScoring.JudgeMessage: the same.
- Redis.Server.EvalAcquire: the fencing counter does not expire; the code lets it live for an hour after the last acquire, which is taken to outlive every holder of an older token.
- Redis.Server.EvalFencedSet: the time to live of the stored value is left to the protocol, where a value may expire at any moment.
- RoomLockService.LockLease.MarkLost: the abort signal that is raised with the loss is not modelled; nobody but the lease check decides on a write.
- LockHeartbeat.HeartbeatKeepsLease: an extension that is executed only after the lease it is to extend may find the lock gone, and is excluded; between two ticks the lease may run out while an answer is on its way.
- RateLimiter.PassesIff: a block at least as long as the window; with a shorter one the script forgets requests that still count, which `RateLimiter.RateBoundedIff` shows to matter.
- RoomStateStore.RoomFencedStateStore.WriteSharedState: the store always executes and answers the command; lost commands and replies are the subject of `LockProtocol` and `RoomStore`.
- RoomStateStore.RoomFencedStateStore.DeleteSharedState: the same.
- RoomIndexExactness.RecordReturnsIffRevivable: runs of the index protocol, in which a section saves without a lease check of its own; `RoomIndexChecks.IndexIsSafeIff` is about runs with leases.
- RoomIndexExactness.ReconcilerIsSafeIffNotStale: the same.
- RoomIndexExactness.UnlistLiveRoom: the same.
- RoomIndexChecks.IndexIsNotAlwaysSafe: the same; `RoomIndexChecks.CheckBeforeIsNotEnough` is the run with leases.
- RoomIndexLeases.CheckAfterReadKeepsIndexSafe: runs on the keys of room records and of the index; a section is granted a lock only for one of the tasks of the index protocol, and reads the record or the list once.
- RoomIndexRepository.RoomIndexRepository.AddToIndex: the body of the section; its acquire and its last lease check, which may fail as well, are those of `LockProtocol`.
- RoomIndexRepository.RoomIndexRepository.RemoveFromIndex: the same.
- RoomIndexRepository.RoomIndexReconciler.ReconcileOne: the same for the room's lock.
- RoomTimerService.TimerQueue.ScheduleRedis: a command that fails is not modelled here; `RoomStore` and `RoomTimerProtocol` let commands be lost.
- RoomTimerService.TimerQueue.CancelRedis: the same.
- RoomTimerService.TimerQueue.TryClaim: the same.
- RoomTimerService.TimerQueue.ClaimAll: the same.
- RoomTimerService.TimerQueue.DeleteIfReserved: the same.
- RoomRuns.RunIsGood: one section at a time; `RoomSections.OverlapIsGood` is without this assumption.
- RoomMachineRuns.DocumentsAlwaysGood: one section at a time; `RoomSections.OverlapIsGood` is without this assumption.
- RoomMachineRuns.NoStuckRound: strict reads only, which `RoomMachineReads.NoStuckRoundIff` shows to be necessary; one section at a time, which `RoomSections.OverlapLeavesNoStuckRound` does without; late cancels of a timeout that is needed, and coincidences of times, are excluded as said above.
- RoomSectionLeases.LeasesLeaveNoStuckRound: writes of the room are not the writes of the lock protocol one by one; a section with a lease may write until a newer grant, whether it checked its lease or not, which allows more than the code does.
- RoomRetry.RetryReachesFaultFreeState: documents only; timers are the subject of `RoomWorldRetry`.
- RoomService.RoomService.CreateRoom: listing the room and taking it back when that fails are part of the index protocol.
- RoomService.RoomService.JoinRoom: the refusals of the abuse guard are not modelled.
- RoomService.RoomService.LeaveRoom: the removal from the index when the last participant leaves is part of the index protocol.
- RoomService.RoomService.UpdateRoom: fields that no rule reads are dropped.
- RoomService.RoomService.SubmitChatMessage: the nickname in the reply and the chat history are not modelled.
- RoomService.RoomService.DeleteRoom: the removal from the index and the chat history are not part of it.
- Random delays between attempts to acquire a lock: any delay of at least the base is allowed; which place a shuffle draws is an arbitrary function, and how likely is not modelled.
- InquiryReview.InquiryReview.Reject: the status of the inquiry itself, which is set after the action's, is not modelled; the same holds of the other transitions.
- InquiryReview.ReviewIsSafe: the answer that the action inserted is not removed by anybody else, whereas equal answers from elsewhere come and go; CHANGE_START_TIME and CHANGE_LINK, which may be approved any number of times, are not part of it.
- JsonScanner.ScannerIsExact: the parser that is called on what was cut out is not modelled.
- Quiz registration, YouTube URLs, clip ranges, Lambdas, Slack, mail and the language model: services that are not visible here, or easy members.
