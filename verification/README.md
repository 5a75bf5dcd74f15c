# Cortexa: a verified model

Cortexa is a memory service for conversational agents: it stores messages, extracts facts from them in batches
through Redis Streams workers, and puts facts, experiences and memories back into prompts. This project models its
stateful core in Dafny and proves what the core keeps over whole runs.

## Layout

| files | what they model |
|---|---|
| `CognitiveStream`, `CognitiveExclusion`, `CognitiveBounds`, `CognitiveRuns`, `CognitiveOverlap`, `CognitiveLetters`, `CognitiveOutcomes`, `CognitiveRace`, `CognitiveDrain`, `CognitiveSettle` | one tenant stream with the cognitive consumer group as a state machine whose actions are single Redis commands and single steps of a goroutine; any interleaving of read loop, reclaim loop, handlers, time and crashes is a run |
| `CognitiveWorkers` | the same loops as methods that update Redis and the process in place, each proved to be a sequence of those actions |
| `ExperienceStream`, `ExperienceDrain`, `ExperienceWorkers` | the second group on the stream, with its skip rule: as a state machine, and its loops in place |
| `History`, `Batching`, `SessionServer` | message tables, the batch counter, the append handler and both flush paths |
| `MessageCache`, `BatchWindow`, `Pipeline` | the fifty-entry cache against the table, what a worker finally reads for a published batch, and session, cache and worker in one run |
| `FactTable`, `FactBatch`, `Retrieval` | the temporal fact table, the batch upsert, and the retrieval cascade with its in-place passes |
| `RankFusion`, `Pagination` | reciprocal rank fusion; following `next_cursor` |
| `Experience`, `Importance` | confidence and activity of an experience; importance of memory records |
| `Wrappers` | the option type |

## Assumptions

- A Redis command or pipeline, an SQL statement, and (for counters and flushes) a handler is one atomic step. Redis
  keeps its data and answers; the stream stays below its trim limit; publication succeeds.
- Creation times are distinct and follow the order of insertion; a session belongs to one user; the configured batch
  size is at least 1; upserts are serial.
- The LLM, the embedding, the injection patterns, the byte length and the value hash are parameters: an outcome, a flag,
  a predicate, functions. Two values with equal hashes count as the same value.
- Confidences, importances and scores are real numbers.
- An XPENDING reply is any at most ten of the idle entries, a free semaphore slot may go to any goroutine that waits
  for one, a Go map iterates in any order, and a sort by score may leave ties in any order.

## Where the code and its documentation disagree

The model follows the code.

- The repository's README gives the cognitive group 20 seconds of idle time and 8 retries, the experience group 60
  seconds and 3, and its feature table speaks of 3 retries for all workers. The code waits 120 seconds in the cognitive
  group and makes up to nine attempts there as long as the read loop is prompt (`RetryBound`, `NineAttemptsHappen`), up
  to ten when it is not (`EveryRunBound`, `TenAttemptsHappen`, `RetryBoundIffPromptReadLoop`), not counting crashes; the
  experience group makes up to four (`FourAttempts`, `FourAttemptsHappen`).
- The `inFlight` map is described as the primary guard against double processing. It is one only as long as the read
  loop dispatches what it fetched within the reclaim loop's idle time (`ExclusionIffPromptReadLoop`).
- Twice the counted user turns is meant to include every counted turn with its reply. With more than one reply per
  turn it does not (`BatchHoldsItsTurnsIff`, `UndisciplinedTurnEscapes`); and because a reload doubles the message
  that caused it, a batch published by a flush can miss a counted turn even with one reply per turn
  (`WorkerFindsTurnsIff`, `FlushedBatchCanMissATurn`). For that the list must be lost while a turn is pending: it lives
  two hours, and the timeout flusher publishes what was idle for thirty minutes, so the flusher has to be down or behind,
  or Redis to have evicted the list. A session that loses its list only between batches is safe (`CalmSessionIsSafe`).
- `superseded_by` is set on the new row and points to the old one, not the reverse (`TemporalChain`).
- The dedup pass is said to keep the fact of highest confidence; it keeps the first, which is the same only if no later
  one is more confident (`DedupKeepsBestIff`, `DedupCanDropTheBest`). Upserts never make a list on which it matters:
  they leave one current fact for each subject (`PassesAreIdentityOnUpserts`).
- A failed text search leaves its error set although a later query is served, and the facts then skip all three passes
  (`Cascade`, `LeftoverErrorIff`, `StaleErrorBreaksBudget`).
- The history endpoint accepts any limit, but above 100 pages hold 50 messages and carry no cursor
  (`CrawlIsCompleteIff`).
- The third consecutive negative signal is said to deactivate an experience. It does so exactly below confidence 0.55;
  from any confidence the seventh does (`ThreeDeactivateIff`, `SevenDeactivate`).
- Decay is meant to keep stale memories from dominating; it keeps the order of two records only if the more important
  one is not stale alone (`DecayKeepsOrderIff`).

## Model

| member | source | states |
|---|---|---|
| `CognitiveStream.NoMessageLost` | cortexa/internal/worker/cognitive.go:105-230 | over every run, crashes included, each entry is in exactly one of undelivered, pending and acknowledged, and an acknowledged entry was processed successfully or is in the dead-letter queue |
| `CognitiveStream.ConcurrencyBounded` | cortexa/internal/worker/cognitive.go:171-181 | in every run the semaphore counts exactly the goroutines past it, never more than its capacity |
| `CognitiveExclusion.BatchIsFresh` | cortexa/internal/worker/cognitive.go:144-150 | what XREADGROUP hands out is distinct and was never delivered before |
| `CognitiveExclusion.InvStep` | cortexa/internal/worker/cognitive.go:164-181 | every action keeps the link between in-flight map, goroutines, the reclaim loop's reply and the pending list, given a prompt read loop at the time of a snapshot |
| `CognitiveExclusion.SingleProcessExclusion` | cortexa/internal/worker/cognitive.go:263-297 | with a prompt read loop, `inFlight` is exactly the ids with a live goroutine or about to get one, no two goroutines share an id, at most `cap` run |
| `CognitiveExclusion.SlowReadBreaksExclusion` | cortexa/internal/worker/cognitive.go:263-289 | a concrete run with a slow read loop ends with two goroutines on one entry |
| `CognitiveExclusion.ExclusionIffPromptReadLoop` | cortexa/internal/worker/cognitive.go:98-102 | exclusion holds in all runs with read-loop lag below L if and only if L is at most the idle threshold of 120 seconds |
| `CognitiveBounds.StepEffect` | cortexa/internal/worker/cognitive.go:192-223 | each action uses up the attempts left to an id, lowers its rank if it works on it, and dead-letters it only when it settles it; a crash gives back at most one attempt |
| `CognitiveRuns.RetryBound` | cortexa/internal/worker/cognitive.go:207-297 | in every run with a prompt read loop at most nine attempts start on an entry, plus one for each crash, and it is dead-lettered at most once, plus once for each crash |
| `CognitiveRuns.NineAttemptsHappen` | cortexa/internal/worker/cognitive.go:271-297 | a prompt run without a crash starts nine attempts on one entry, so that bound is sharp |
| `CognitiveRuns.WorkBound` | cortexa/internal/worker/cognitive.go:158-297 | with a prompt read loop and without a crash at most 63 productive actions are spent on an entry over its whole life |
| `CognitiveOverlap.KeptStep` | cortexa/internal/worker/cognitive.go:164-181 | every action, however slow the read loop, keeps at most two goroutines on a delivered entry, pending or acknowledged, at most one of them unknown to the in-flight map, leaves it to one goroutine at a time after a crash, and uses up the ten attempts left to it |
| `CognitiveOverlap.AtMostTwo` | cortexa/internal/worker/cognitive.go:164-181 | in every run, with no condition on the read loop, at most two goroutines are on an entry, and at most one if the in-flight map does not hold it |
| `CognitiveOverlap.EveryRunBound` | cortexa/internal/worker/cognitive.go:207-297 | in every run, with no condition on the read loop, at most ten attempts start on an entry, plus one for each crash |
| `CognitiveLetters.EveryRunLetters` | cortexa/internal/worker/cognitive.go:207-223 | in every run, with no condition on the read loop, an entry is dead-lettered at most twice, plus once for each crash |
| `CognitiveOutcomes.UnrecoverableEndsIt` | cortexa/internal/worker/cognitive.go:205-223 | in a prompt crash-free run in which every attempt at an entry ends in an unrecoverable failure there is at most one attempt, the entry is not done, and once acknowledged it is in the dead-letter queue exactly once |
| `CognitiveOutcomes.SuccessEndsIt` | cortexa/internal/worker/cognitive.go:195-203 | in one in which every attempt at it succeeds there is at most one attempt, it is never dead-lettered, and acknowledged it is done |
| `CognitiveOutcomes.TransientTakesNine` | cortexa/internal/worker/cognitive.go:205-297 | in one in which every attempt at it fails for now it is acknowledged only after exactly nine attempts, and is then in the dead-letter queue exactly once |
| `CognitiveRace.TenAttemptsHappen` | cortexa/internal/worker/cognitive.go:263-297 | for every lag beyond the idle threshold a crash-free run with ten attempts and two dead letters for one entry exists; with two slots the goroutine dispatched late takes one at once |
| `CognitiveRace.RetryBoundIffPromptReadLoop` | cortexa/internal/worker/cognitive.go:207-297 | the bound of nine attempts, and the bound of one dead letter, each plus one for each crash, hold in all runs with read-loop lag below L if and only if L is at most the idle threshold |
| `CognitiveDrain.Progress` | cortexa/internal/worker/cognitive.go:237-298 | no deadlock: from every steady state that is not drained, and whatever a policy makes of the attempts, some run without new entries or crashes makes progress on an entry |
| `CognitiveDrain.WorkIsPaidFor` | cortexa/internal/worker/cognitive.go:207-297 | in every prompt run without new entries or crashes, the productive actions over the whole log plus the measure left are at most the measure at the start |
| `CognitiveDrain.NoMeasureLeftIff` | cortexa/internal/worker/cognitive.go:207-297 | the measure of a steady state is zero if and only if the group is drained |
| `CognitiveDrain.Drain` | cortexa/internal/worker/cognitive.go:232-301 | for every policy that decides what becomes of each attempt from the state and the goroutine, a run that obeys it leads from every steady state, without news or crashes, to every entry acknowledged and nothing live |
| `CognitiveDrain.PoisonIsDeadLettered` | cortexa/internal/worker/cognitive.go:205-223 | so it does when no attempt succeeds, and then every entry not processed before is in the dead-letter queue |
| `CognitiveDrain.ReachableIsSteady` | cortexa/internal/worker/cognitive.go:108-185 | every state a prompt run reaches is one that `Drain` and `Progress` speak of |
| `CognitiveSettle.EveryStateDrains` | cortexa/internal/worker/cognitive.go:158-301 | after any run at all, slow read loops and crashes included, and for every such policy, a run that obeys it, without news or crashes, acknowledges every entry and ends with nothing in progress; without a success every entry not processed before is then in the dead-letter queue |
| `CognitiveWorkers.StreamServer.ReadGroup` | cortexa/internal/worker/cognitive.go:144-150 | delivers the next entries of the log, ten or as many as there are, and records each as pending with one delivery; no other pending entry changes |
| `CognitiveWorkers.StreamServer.Claim` | cortexa/internal/worker/cognitive.go:278-287 | claims an entry exactly if it is pending and has rested long enough: one more delivery, and the rest starts again |
| `CognitiveWorkers.StreamServer.Pending` | cortexa/internal/worker/cognitive.go:252-259 | at most ten distinct entries that have rested long enough, with their delivery counts, and all of them if they are fewer than ten |
| `CognitiveWorkers.CognitiveWorker.ReadTurn` | cortexa/internal/worker/cognitive.go:144-184 | one turn of the read loop is a sequence of actions of the state machine, after which each of the up to ten next entries has one delivery and a goroutine with no retries behind it, unless its id was in flight |
| `CognitiveWorkers.CognitiveWorker.HandleStreamMessage` | cortexa/internal/worker/cognitive.go:192-230 | a handler is a sequence of actions: success acknowledges; an unrecoverable failure, or one for now with seven retries behind it, puts the id into the dead-letter queue and acknowledges; any other failure for now changes nothing in Redis |
| `CognitiveWorkers.CognitiveWorker.ReclaimTurn` | cortexa/internal/worker/cognitive.go:252-298 | one tick of the reclaim loop is a listing and a sequence of actions: the listed entries that were not in flight have one more delivery, are in flight, and have a goroutine that knows of the deliveries before, up to the one that waits for a slot; nothing else changes |
| `ExperienceStream.MoveKeepsInv` | cortexa/internal/worker/experience.go:166-243 | every step of the second group keeps its invariant and uses up the attempts left to an entry |
| `ExperienceStream.FourAttempts` | cortexa/internal/worker/experience.go:189-243 | in every run, overlapping attempts and crashes included, at most four attempts on an entry; nothing is lost, and what is acknowledged was processed or skipped |
| `ExperienceStream.SkippedWasDeliveredFourTimes` | cortexa/internal/worker/experience.go:214-220 | a visit skips an entry if and only if it is pending and was delivered four times |
| `ExperienceDrain.FourAttemptsHappen` | cortexa/internal/worker/experience.go:189-243 | a run without a crash starts four attempts on one entry, so that bound is sharp |
| `ExperienceDrain.SkipRuleDrains` | cortexa/internal/worker/experience.go:184-243 | after any run, and whatever becomes of the attempts, a run without new entries or crashes acknowledges every entry and ends with nothing in progress; without a success every entry not processed before was skipped |
| `ExperienceWorkers.ExperienceWorker.ReadTurn` | cortexa/internal/worker/experience.go:146-182 | one turn of its read loop is a sequence of moves, after which each of the up to ten next entries has one delivery and a goroutine |
| `ExperienceWorkers.ExperienceWorker.Process` | cortexa/internal/worker/experience.go:166-179 | acknowledges on success, and changes nothing in Redis otherwise |
| `ExperienceWorkers.ExperienceWorker.ReclaimTurn` | cortexa/internal/worker/experience.go:203-244 | one tick of its reclaim loop lists at most ten entries that have rested for a minute and visits each: those delivered four times are acknowledged as skipped, the others get one more delivery and a goroutine, and no other entry changes |
| `History.WindowIsStable` | cortexa/internal/repository/entity.go:206-242 | later messages never change the table's window that ends at an anchor |
| `History.InWindow` | cortexa/internal/repository/entity.go:221-227 | a message is in the window if and only if it is no newer than the anchor and fewer than `limit` places older |
| `Batching.BatchHoldsItsTurnsIff` | cortexa/internal/worker/flusher.go:121-127 | a batch published now holds every user turn it counted if and only if at most one other message per counted turn follows |
| `Batching.AppendPublishesIff` | cortexa/internal/api/rest.go:162-183 | an append publishes if and only if it is a user turn that brings the counter to the limit: twice the counter, anchored at that message, and the counter starts again at zero |
| `Batching.FlushPublishesIff` | cortexa/internal/worker/flusher.go:102-136 | a flush publishes twice the counter, anchored at the newest message, if and only if the counter is positive and there are messages |
| `Batching.CounterStaysBelow` | cortexa/internal/api/rest.go:169-171 | over every run the counter is below the limit |
| `Batching.TurnsComeInBatches` | cortexa/internal/api/rest.go:162-183 | over every run without flushes the user turns are published in batches of exactly the limit, the k-th anchored at the user turn that is number limit times k, and the counter is the remainder |
| `Batching.NoTurnLeftUncounted` | cortexa/internal/repository/cache.go:48-85 | over every run, twice the user turns accepted is the sum of published sizes plus twice the counter, and every anchor is a message of the session |
| `Batching.EveryTurnCovered` | cortexa/internal/api/rest.go:162-183 | over every run with at most one other message after each user turn, each user turn lies in a published window or among the last `counter` turns |
| `Batching.UndisciplinedTurnEscapes` | cortexa/internal/api/rest.go:432-446 | with two replies a flushed turn lies in no window and is not pending |
| `SessionServer.Server.HandleAppendMessage` | cortexa/internal/api/rest.go:153-183 | in place: the message is inserted; a user turn bumps the counter and tracks the session, and if that reaches the limit removes both and publishes twice the count at this message; nothing else changes |
| `SessionServer.Server.IncrementBatch` | cortexa/internal/repository/cache.go:48-63 | bumps the counter, tracks the session at the current time and returns the new count |
| `SessionServer.Server.ResetBatch` | cortexa/internal/repository/cache.go:75-85 | deletes counter and tracking of one session |
| `SessionServer.Server.FlushPreviousUserSessions` | cortexa/internal/api/rest.go:404-447 | each listed session but the new one that has pending turns and messages loses its counter and publishes twice its value at its newest message; no other counter, table or batch changes |
| `SessionServer.Server.RunFlushCycle` | cortexa/internal/worker/flusher.go:67-136 | so for each member of the cycle; and exactly the members are no longer tracked |
| `SessionServer.CycleRefines` | cortexa/internal/worker/flusher.go:78-100 | whatever the order and repetition of its members, a cycle is for each listed session one flush, and nothing for the others |
| `SessionServer.PreviousRefines` | cortexa/internal/api/rest.go:412-446 | so is the flush at session creation, for the listed sessions but the new one |
| `SessionServer.RunRefines` | cortexa/internal/api/rest.go:95-190 | what a run of the whole server does to one session is a run of that session alone |
| `SessionServer.EverySessionCovered` | cortexa/internal/api/rest.go:162-183 | whole-run coverage and balance for every session of a server |
| `SessionServer.EveryCounterBelow` | cortexa/internal/api/rest.go:169-171 | over every run of the server every counter is below the limit |
| `SessionServer.UnflushedInBatches` | cortexa/internal/api/rest.go:162-183 | a session that no flush reached has its user turns published in batches of exactly the limit |
| `SessionServer.PendingIsTracked` | cortexa/internal/repository/cache.go:53-62 | in every run, a positive counter implies messages and tracking at the time of the latest counted turn |
| `SessionServer.TrackedAtLatestTurn` | cortexa/internal/repository/cache.go:53-62 | the score of a session with a positive counter is the time of the run at which its latest user turn arrived |
| `SessionServer.CyclesClear` | cortexa/internal/worker/flusher.go:67-72 | of m sessions inactive by some time, k later cycles, each with the threshold of its own time, leave max(0, m - 100 k): none if and only if k is at least ceil(m / 100), although more sessions fall inactive meanwhile |
| `SessionServer.InactiveSessionIsFlushed` | cortexa/internal/worker/flusher.go:102-136 | after those cycles every pending session inactive by that time has been flushed: its turns published, its counter zero |
| `MessageCache.Cache.AppendMessages` | cortexa/internal/repository/cache.go:27-46 | warm push or cold reload and push, trimmed to fifty |
| `MessageCache.Cache.GetRawMessages` | cortexa/internal/repository/cache.go:149-166 | the first entries of a live list in their order, `count` or as many as there are, all of them for a count of zero; without a list the newest messages of the table, as many as asked for up to 100 and else fifty |
| `MessageCache.Cache.GetRawMessagesUntil` | cortexa/internal/repository/cache.go:175-208 | the entries from the last occurrence of the anchor on, at most `count`, or none without an occurrence; the unanchored read for an empty anchor |
| `MessageCache.AppendKeepsMirror` | cortexa/internal/repository/cache.go:125-147 | a cold append doubles the newest message, a warm one moves the double one place down |
| `MessageCache.PushesOneByOne` | cortexa/internal/repository/cache.go:37-43 | appending several messages is appending them one after the other |
| `MessageCache.CacheMirrorsHistory` | cortexa/internal/repository/cache.go:27-147 | over every run of appends, expiries and reloads, a live list is the first fifty of the newest-first history with exactly one message doubled, or of its newest k if the reload could not read the table |
| `MessageCache.NewestReadOfRun` | cortexa/internal/repository/cache.go:149-166 | over every run an unanchored read of a live list begins with the newest message of the history and goes on place by place, with the one doubled message among them if it goes that far, or ends after the newest k |
| `MessageCache.NewestReadIsPageIff` | cortexa/internal/repository/cache.go:149-166 | it equals the page of the table if and only if it ends before the second copy and within the list, or the list holds the whole history plainly |
| `MessageCache.AnchoredRead` | cortexa/internal/repository/cache.go:185-207 | exactly what an anchored read returns for an anchor anywhere in the history |
| `MessageCache.CachedReadIsQueryIff` | cortexa/internal/repository/cache.go:168-208 | for every window it equals the database query if and only if the list reaches as far from the anchor as the window or the history does, and the read does not show both copies of a doubled message older than the anchor |
| `MessageCache.DoubledWindow` | cortexa/internal/repository/cache.go:168-208 | when the doubled message is older than the anchor and the window ends within fifty places, the read is the window of the history with that message repeated, so that the repeat pushes the oldest entry out |
| `MessageCache.NothingNewer` | cortexa/internal/repository/cache.go:168-174 | it holds no message newer than the anchor |
| `MessageCache.ReadSurvivesAppends` | cortexa/internal/repository/cache.go:202-207 | any number of later warm appends leaves it unchanged as long as the anchor's index plus `count` stays within fifty, for short lists and unlisted anchors too |
| `BatchWindow.CachedReadFindsTurnsIff` | cortexa/internal/worker/cognitive.go:359-365 | from the cache the worker finds every counted turn if and only if the oldest one, moved down by a double in between, lies within window and list |
| `BatchWindow.TableReadFindsTurnsIff` | cortexa/internal/worker/cognitive.go:363-365 | from the table it does if and only if the counted turns had at most one other message each |
| `BatchWindow.UserTriggeredBatchIsSafe` | cortexa/internal/api/rest.go:173-179 | for a batch triggered by a user turn in a disciplined session, if twice the count and the entries ahead of the anchor fit fifty places, or the anchor was trimmed, every counted turn is read |
| `Pipeline.RunProjects` | cortexa/internal/api/rest.go:150-183 | every combined run of appends, losses of the list and flushes is a run of the session and a run of the cache over one history, with the bookkeeping and the mirror of both |
| `Pipeline.WorkerFindsTurnsIff` | cortexa/internal/worker/cognitive.go:359-365 | in every such run every published batch is anchored at a message and counts turns before it, and, whenever the worker reads, it finds them all if and only if, with the anchor listed, the oldest one and a double in between fit window and list, or, without, they had at most one other message each |
| `Pipeline.CalmSessionIsSafe` | cortexa/internal/worker/cognitive.go:359-365 | in a disciplined session whose reloads succeed and whose list is lost only while no turn is pending, the worker finds every turn of every batch, flushed or not, while the window ends within fifty places or the anchor was trimmed |
| `Pipeline.FlushedBatchCanMissATurn` | cortexa/internal/worker/flusher.go:121-127 | without that calm it can fail: a disciplined run in which the list is lost while a turn is pending, and a flushed batch's cached read lacks a turn it counted |
| `FactTable.FactStore.UpsertFact` | cortexa/internal/repository/entity.go:263-286 | in place: a key without a current row gets one; a current row with the same hash stays, with another hash it is retired and the new row points to it |
| `FactTable.FactStore.UpsertFactBatch` | cortexa/internal/repository/entity.go:300-316 | the batch is its statements one after the other |
| `FactTable.UpsertKeepsChains` | cortexa/internal/repository/entity.go:263-286 | an upsert keeps every key's rows one linear chain with differing neighbours and only its end current |
| `FactTable.UpsertFactView` | cortexa/internal/repository/entity.go:256-286 | an upsert shows its own fact for its key, with type, value and quote, unless the hash shown is the same: then the older fact stays |
| `FactTable.TemporalChain` | cortexa/internal/repository/entity.go:256-286 | after any serial upserts from an empty table: one chain per key, one current row exactly for the keys ever upserted, holding the last hash |
| `FactTable.RowsAreKept` | cortexa/internal/repository/entity.go:274-284 | no upsert rewrites the fact or the link of an existing row |
| `FactBatch.UniqueFacts` | cortexa/internal/worker/cognitive.go:432-441 | the map holds exactly the last validated fact about each subject |
| `FactBatch.ValidateExtractedFact` | cortexa/internal/security/validator.go:26-45 | accepts exactly the facts with 1 to 100 bytes of entity name, at most 500 of value, one of the six types and the eleven attributes, and no injection pattern in value or name |
| `FactBatch.JoinedInjective` | cortexa/internal/worker/cognitive.go:439-440 | joined keys are injective when the separator is not in the attribute |
| `FactBatch.NoBarInAttributes` | cortexa/internal/security/validator.go:33-35 | no allowed attribute contains the separator |
| `FactBatch.AnyOrder` | cortexa/internal/worker/cognitive.go:447-463 | whatever order the map is iterated in, the current facts are the same, with type, value and quote, and applying the batch again changes no row |
| `FactBatch.BatchIsIdempotent` | cortexa/internal/repository/entity.go:300-316 | applying the same facts again in any order changes no row |
| `FactBatch.ProcessFacts` | cortexa/internal/worker/cognitive.go:434-465 | after a response each subject's last validated fact is the current one, with its type, value, hash and quote, unless the subject showed that hash before, and then the older fact stays; subjects without a validated fact keep theirs |
| `Retrieval.Cascade` | cortexa/internal/service/retriever.go:192-259 | which query answers: the vector search by name, else the text search by name, else the vector search over all facts, each if it is asked and finds something, and in all other cases the fallback; and exactly when an error is left |
| `Retrieval.CascadeAnswers` | cortexa/internal/service/retriever.go:198-259 | the rows are a function of the replies, and the error of the rows served tells a failed text search |
| `Retrieval.EntityFacts` | cortexa/internal/service/retriever.go:191-267 | the goroutine for third-party facts: the cascade's rows, all current, of this user and not about the user, passed through the three passes unless an error is left; each fact handed on is one of the rows field by field |
| `Retrieval.DeduplicateByAttribute` | cortexa/internal/service/retriever.go:426-440 | the in-place pass is the functional one |
| `Retrieval.FilterByConfidence` | cortexa/internal/service/retriever.go:443-451 | the in-place pass is the functional one |
| `Retrieval.TruncateFactsToBudget` | cortexa/internal/service/retriever.go:404-424 | the longest prefix whose whole text fits the budget, or the lone first fact, or nothing for an empty list or budget |
| `Retrieval.TextLength` | cortexa/internal/service/retriever.go:395-402 | what counts towards the budget is the length of everything the facts put into the prompt |
| `Retrieval.DedupKeepsFirsts` | cortexa/internal/service/retriever.go:424-440 | one fact per subject, and exactly the first about each |
| `Retrieval.PassesKeepOrder` | cortexa/internal/service/retriever.go:426-451 | dedup and filter leave the facts they keep in their order |
| `Retrieval.DedupKeepsBestIff` | cortexa/internal/service/retriever.go:424-425 | of each subject the most confident fact is kept if and only if no fact is more confident than the first about its subject |
| `Retrieval.OrderedKeepsBest` | cortexa/internal/repository/entity.go:445-449 | on a list that orders the facts about each entity by confidence, as the text search and the fallback do, the most confident fact of every subject is kept |
| `Retrieval.DedupCanDropTheBest` | cortexa/internal/service/retriever.go:424-425 | with the doubtful fact first, the confident one is dropped |
| `Retrieval.KeyIsSubject` | cortexa/internal/service/retriever.go:432-432 | joined keys tell subjects apart exactly |
| `Retrieval.PassesKeepTheirPromise` | cortexa/internal/service/retriever.go:261-265 | whatever was fetched: distinct subjects, confident enough, within budget or alone, and empty only if no first fact is confident enough |
| `Retrieval.PassesAreIdentityOnUpserts` | cortexa/internal/service/retriever.go:188-267 | on every table upserts reach, whatever path was taken, the facts are current, not about the user, and the longest prefix of the rows found: dedup and filter change nothing |
| `Retrieval.SelfAndOthersApart` | cortexa/internal/service/retriever.go:169-181 | pinned and third-party facts never share a subject |
| `Retrieval.LeftoverErrorIff` | cortexa/internal/service/retriever.go:219-266 | over all tables that upserts reach, the facts handed on are what the passes leave if and only if no error is left over or fewer than two rows were found |
| `Retrieval.LeftoverErrorOnUpserts` | cortexa/internal/service/retriever.go:219-266 | on every table upserts reach, what is handed on is what the passes would leave if and only if no error is left, at most one row was found, or the rows fit the budget |
| `Retrieval.StaleErrorBreaksBudget` | cortexa/internal/service/retriever.go:219-266 | two validated facts with short values and quotes of 3000 characters, upserted, and a request whose searches by name fail: both are handed on, over the budget, and the passes would not have left them |
| `RankFusion.RRFMerge` | cortexa/internal/repository/vector.go:158-185 | a list of distinct ids of the union by descending score, as many as asked for or there are, each with its score and with the vector search's chunk where it has one, in which nothing dropped beats anything kept |
| `RankFusion.SameScores` | cortexa/internal/repository/vector.go:177-183 | any two results for the same lists have the same scores place by place |
| `RankFusion.ListScoreByRank` | cortexa/internal/repository/vector.go:162-171 | in a list without repeats an id at rank r, counted from 0, scores 1 / (61 + r) |
| `RankFusion.AgreedOrderIsKept` | cortexa/internal/repository/vector.go:156-171 | an id ahead of another in both lists scores strictly higher and comes first in every result |
| `RankFusion.BothBeatOne` | cortexa/internal/repository/vector.go:59-61 | an id at ranks up to 60 in both lists comes before every id found in only one |
| `RankFusion.RankSixtyIsSharp` | cortexa/internal/repository/vector.go:59-61 | at rank 61 in both it only ties with the leader of one list |
| `Pagination.GetSessionHistory` | cortexa/internal/repository/message.go:76-118 | the newest of the session's messages older than the cursor, as many as asked for from 1 to 100 and else fifty, none for an unknown cursor |
| `Pagination.HandleGetSessionHistory` | cortexa/internal/api/rest.go:306-338 | the page and the cursor, set if and only if the page is as long as the limit asked for |
| `Pagination.HistoryIsTheSessions` | cortexa/internal/repository/message.go:76-118 | a session's history holds its own messages and all of them |
| `Pagination.RestIsOlder` | cortexa/internal/repository/message.go:95-102 | what is older than a message of the history is the rest of the history |
| `Pagination.CrawlIsCompleteIff` | cortexa/internal/api/rest.go:335-340 | following the cursor while messages keep arriving yields exactly the history as of the first request in n / limit + 1 requests for limits up to 100, and above that if and only if at most fifty messages exist |
| `Experience.Record.RecordFeedback` | cortexa/internal/repository/experience.go:216-241 | praise counts a success and sets confidence to successes over uses and one more, capped at 1, and leaves activity alone; a complaint takes 0.15 down to 0.01 and deactivates below 0.25; the record stays what the run of all its signals makes of a fresh one |
| `Experience.MergesInARow` | cortexa/internal/repository/experience.go:45-60 | n merges in a row raise confidence by 0.05 each, up to 1, and change nothing else |
| `Experience.MergesMakeUp` | cortexa/internal/repository/experience.go:45-60 | n negatives and 3 n merges restore confidence if and only if the negatives did not pass the floor or it was at the cap, and never restore activity |
| `Experience.RunsStaySane` | cortexa/internal/repository/experience.go:45-252 | over any interleaving confidence stays in (0, 1], and what was deactivated never turns active again |
| `Experience.ActiveIff` | cortexa/internal/repository/experience.go:205-252 | over every interleaving an experience is active if and only if it was, nobody deactivated it, and no complaint found its confidence below 0.25 |
| `Experience.ComplaintsAddUp` | cortexa/internal/repository/experience.go:230-241 | without praise an active experience has lost 0.15 for each negative signal and gained at most 0.05 for each merge |
| `Experience.NegativesInARow` | cortexa/internal/repository/experience.go:230-241 | closed form of confidence and activity after n negatives |
| `Experience.SevenDeactivate` | cortexa/internal/repository/experience.go:234-236 | n negatives in a row deactivate every experience if and only if n is at least 7 |
| `Experience.ThreeDeactivateIff` | cortexa/internal/repository/experience.go:213-215 | a fresh one falls at the third; in general three deactivate if and only if confidence is below 0.55 |
| `Experience.PraiseCounts` | cortexa/internal/repository/experience.go:217-228 | right after praise, confidence is praises over uses and one more, capped at 1 |
| `Importance.MemoryTable.RecordFeedback` | cortexa/internal/repository/memory.go:287-305 | one row's importance moves by 0.1 up or down within [0.01, 1], with the access counted and timed; the table stays what the run of all updates makes of the rows at the start |
| `Importance.MemoryTable.DecayImportance` | cortexa/internal/repository/memory.go:307-343 | scales exactly the rows that are not chunks and were not accessed for so many days, down to 0.01, and counts them, as one more update of that run |
| `Importance.ImportanceStaysInRange` | cortexa/internal/repository/memory.go:287-343 | any mix of feedback and decay keeps every importance in [0.01, 1] |
| `Importance.SignalsInARow` | cortexa/internal/repository/memory.go:285-305 | n signals of one kind about one row move its importance by 0.1 each up to 1 or down to 0.01, count n accesses, and leave every other row alone |
| `Importance.UninterruptedDecay` | cortexa/internal/repository/memory.go:307-343 | in every run over the table, a row that gets no feedback and that all n decays find stale goes from x to max(0.01, x (1 - rate)^n) |
| `Importance.StaleStaysStale` | cortexa/internal/repository/memory.go:331-336 | in runs of one rate and age with time going on, every decay finds a record stale if and only if the first one does |
| `Importance.UntouchedRecordsSink` | cortexa/internal/repository/memory.go:307-343 | such a row is at the floor as soon as n times the rate is at least 99 |
| `Importance.DecayKeepsOrderIff` | cortexa/internal/repository/memory.go:328-336 | one decay keeps the order of two records, whatever their importances, if and only if the more important one is stale only when the other is |

## Left out

- Several streams: the `inFlight` map is keyed by the message id alone, and the model has one stream and one process.
- Stream discovery: its cursor passes over keys cut off at the cap, so that every stream gets a turn is not something the code ensures.
- Redis failures, stream trimming, counter expiry, session deletion and lookup failures inside a flush.
- `CognitiveDrain.Drain`: that the clock goes on and every loop and goroutine takes its next step sometime is an assumption about the runtime; under it `CognitiveDrain.Progress`, `CognitiveDrain.WorkIsPaidFor` and `CognitiveDrain.NoMeasureLeftIff` say the group gets there.
- `CognitiveRuns.WorkBound`: bounds the work of prompt runs only; for the others `CognitiveOverlap.EveryRunBound` bounds the attempts and `CognitiveLetters.EveryRunLetters` the dead letters.
- `ExperienceStream.FourAttempts`: the semaphore of the second group is left out, which only adds runs.
- The reads and resets of counters inside one handler interleaving with another handler: each handler is one step.
- `MessageCache.Cache.GetRawMessagesUntil`: list entries that do not decode, which the one encoder that fills the list does not write.
- `BatchWindow.UserTriggeredBatchIsSafe`: a list loaded while the table could not be read must hold the whole window; the exact condition for every list is `BatchWindow.CachedReadFindsTurnsIff`.
- `FactTable.FactStore.UpsertFact`: two concurrent upserts of a new key, which no unique index prevents from both inserting.
- `Retrieval.EntityFacts`: ranking, top-k cuts and timeouts of the queries; a query returns any distinct rows that pass its filters.
- `RankFusion.RRFMerge`: a negative `topK`, for which the slice expression panics; rounding of scores.
- `Experience.SevenDeactivate`: in floating point the sixth of seven subtractions may fall either side of 0.1.
- The window slicing and keyword gate of the experience worker, insert-if-absent of personas and events, embedding updates.
- HTTP parsing, encryption, row-level security, prompts, LLM clients, metrics and configuration.
