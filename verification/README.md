# A verified model of the distributed search engine

The engine tokenizes documents, keeps them in shards (a document store and an inverted
index side by side), places every shard on several nodes, answers Boolean and TF-IDF
queries over one index or over all shards, replicates writes synchronously, and publishes
every successful write as an event that other nodes apply from a log. This project models
those components in Dafny and proves what each of them promises and how the promises fit
together. Classes whose fields the source updates in place are Dafny classes proved
against value-level functions; concurrent protocols are transition systems whose steps are
the source's critical sections, with invariants over whole runs.

| file | component |
|---|---|
| `Tokenizer`, `Documents` | token runs; documents and term frequencies |
| `Index`, `Shard` | inverted index, document store and its file, shard |
| `Query`, `Ranking` | Boolean and ranked queries over one index |
| `Collections`, `Coordinator` | sharded collections, scatter-gather search, failover reads |
| `Node`, `Replication`, `WriteFanOut`, `LostCalls` | a node's requests, the write protocol as steps and as code, what a lost call does |
| `Consistency` | write side, read side and event side together |
| `EventStore`, `PersistentStore` | event lifecycle, its files and crash recovery |
| `Dispatcher`, `Broker` | bounded queue with retries and stop; in-memory broker |
| `KafkaConsumer`, `RemoteEvents`, `Pipeline` | consumer loop, event application, both together |
| `SharedMutex` | reader/writer lock |
| `Placement`, `Topology` | ring placement and validation; peer list parser |
| `CircuitBreaker` | circuit breaker |
| `Sorting`, `Wrappers` | shared vocabulary |

`dafny verify dfyconfig.toml` checks everything.

## Where the code differs from what it says

The model follows the code. Each of these is a theorem below.

- `src/shared_mutex.h` announces writer priority. One flag serves all writers and the first
  `lock()` to succeed clears it: a waiting writer keeps readers out exactly until another
  writer gets in (`ReadersYieldToUnpassedWriters`, `ClaimEndsOnlyByPassing`), and
  `SecondWriterIsOvertaken` is a run where one is passed.
- `src/event_dispatcher.h` promises that `stop()` drains. It does unless a producer without a
  timeout is past the running check when the stop begins (`StopDrains`); from every such
  state some continuation strands its event (`RacingProducerStrands`).
- `src/in_memory_message_broker.h` promises the same. `publish` never looks at whether the
  broker runs: what is published after a topic's consumers have ended stays queued
  (`DrainEmpties`, `LateMessagesStay`, `PublishCanOutliveStop`).
- `src/event_dispatcher.cpp:329-330` requeues and re-marks an event before each retry. The
  event is DISPATCHING then, so both calls do nothing (`AttemptStoreEffect`).
- `src/persistent_event_store.cpp:366-368` resets an event caught in DISPATCHING so that the
  dispatcher retries it on the next startup. Producers begin only with events just created or
  just requeued, so nobody does (`RecoveredStaysPending`).
- A remote event whose save fails is refused so that it will come again
  (`src/remote_event_processor.cpp:128-132`). When it does, the document is already in
  memory, so the event is acknowledged without saving. `DurableExactly` says which committed
  events a crash can take back, and `FailedSaveLosesTheEvent` what such a crash leaves.
- A shard's file is truncated before it is written (`src/document_store.cpp:147-160`), so a
  failed save can also take back documents committed long before (`OldDocumentsCanBeLost`).
- The event store's metadata is written last and its failure is not reported
  (`src/persistent_event_store.cpp:488-507`); the next flush of the clean store is skipped
  (`SilentLoss`). `RestoredExactly` says what a restart then restores.
- The loop after the consumer loop (`src/kafka_message_broker.cpp:307-354`) is meant to
  process remaining messages. The running flag is already false, so it polls them and
  handles none (`AtMostTheOneInHand`, `StoppedLoopSkips`). The revocation callback
  (`src/kafka_consumer.cpp:44-47`) is meant to commit and does not
  (`RevokedIsHandledAgain`, `RevocationRepeats`).
- The next event identifier is meant to exceed every loaded one. It does unless a usable line
  carries 2^64-1 (`LoadedNextIsFresh`, `LargestIdWraps`).
- `src/node_config.h` describes a strict peer list. A trailing comma and signed identifiers
  are accepted (`TrailingCommaIsIgnored`, `NegativeIdWraps`).

## Model

| member | source | states |
|---|---|---|
| `Tokenizer.TokenizeLoop` | src/tokenizer.cpp:44-69 | the scanning loop computes the recursive tokenization |
| `Tokenizer.TokensAreMaximalRuns` | src/tokenizer.cpp:24-69 | the tokens are exactly the lowercased maximal runs of token characters, in order |
| `Tokenizer.TokenCharsAre` | src/tokenizer.cpp:24-42 | the token characters are the ten digits and the letters of either case |
| `Tokenizer.CaseIsIgnored` | src/tokenizer.cpp:24-69 | two words have the same tokens iff they are the same letters and digits in any case |
| `Tokenizer.WordIsItsToken` | src/tokenizer.cpp:24-69 | a word's one token is the word without capitals, and is its own token |
| `Tokenizer.SeparatorSplits` | src/tokenizer.cpp:44-69 | text around a separator tokenizes independently |
| `Tokenizer.TrimKeepsTokens` | src/search_service.cpp:24-33 | trimming a query changes no token, so trimmed and raw queries agree |
| `Tokenizer.NoTokensIff` | src/tokenizer.cpp:44-69 | no tokens iff no token character |
| `Tokenizer.StripCuts` | src/search_service.cpp:24-33 | what is cut off at either end is all blank, and no more could be cut |
| `Documents.HasTermIff` | src/tokenizer.cpp:44-69 | a term has positive frequency iff it is a distinct term of the text |
| `Documents.FrequenciesAddUp` | src/inverted_index.cpp:51-53 | the frequency of a term is the number of its occurrences; around a separator frequencies add up |
| `Documents.ValidIff` | src/shard.cpp:29-40 | content is refused iff trimming leaves nothing |
| `Index.PostingsPointwise` | src/inverted_index.cpp:125-144 | a postings list holds exactly the documents with the term, each with its exact count |
| `Index.RepresentationUnique` | src/inverted_index.cpp:33-123 | the documents determine every index structure: history independence |
| `Index.LowerBound` | src/inverted_index.cpp:33-74 | binary search finds the insertion point in a sorted list |
| `Index.CountTokens` | src/inverted_index.cpp:33-58 | each distinct token is counted as often as it occurs, and nothing else is |
| `Index.InvertedIndex.AddDocument` | src/inverted_index.cpp:33-74 | postings, document set, reverse map and counter stay in step; the documents gain one |
| `Index.InvertedIndex.RemoveDocument` | src/inverted_index.cpp:76-123 | the same for removal, with empty lists erased; false and no change when absent |
| `Index.InvertedIndex.Postings` | src/inverted_index.cpp:125-144 | returns the list the documents define, empty for an unknown term |
| `Index.InvertedIndex.AddThenRemove` | src/inverted_index.cpp:33-123 | removing what was just added restores every structure |
| `Shards.FirstRecordWins` | src/document_store.cpp:163-241 | whatever the lines, each identifier gets the content of its first valid line, identifiers cut to 32 bits |
| `Shards.NarrowDropsHighBits` | src/document_store.cpp:214 | identifiers that differ by multiples of 2^32 are the same |
| `Shards.SavedFileUnique` | src/document_store.cpp:128-161 | saving is deterministic: one file per set of documents |
| `Shards.SaveLoadRoundTrip` | src/document_store.cpp:128-241 | loading what was saved gives the same documents |
| `Shards.CutFileLoads` | src/document_store.cpp:147-205 | a file whose writing was cut short, broken last line or not, loads as the documents with the smallest identifiers, as many as lines were written |
| `Shards.NothingCutIff` | src/document_store.cpp:147-160 | nothing is missing iff as many lines were written as there are documents |
| `Shards.DocumentStore.Add` | src/document_store.cpp:43-54 | inserts only a new identifier |
| `Shards.DocumentStore.Update` | src/document_store.cpp:56-70 | replaces the content only of a known identifier |
| `Shards.DocumentStore.Remove` | src/document_store.cpp:72-79 | removes exactly that document |
| `Shards.DocumentStore.Save` | src/document_store.cpp:128-161 | writes one record per document in identifier order |
| `Shards.DocumentStore.Load` | src/document_store.cpp:163-241 | the loop keeps the first valid record of each identifier |
| `Shards.Shard.AddDocument` | src/shard.cpp:45-62 | store and index stay in agreement; blank or duplicate is refused unchanged |
| `Shards.Shard.UpdateDocument` | src/shard.cpp:64-87 | the same for update; unknown is refused |
| `Shards.Shard.RemoveDocument` | src/shard.cpp:89-105 | the same for removal |
| `Shards.Shard.Load` | src/shard.cpp:138-158 | replaces the documents and rebuilds the index in any order |
| `Shards.Shard.Restart` | src/shard.cpp:130-158 | save then load restores documents and every index structure |
| `Shards.HistoryIndependence` | src/shard.cpp:45-158 | two mutation histories with the same documents, one rebuilt from disk, have the same index |
| `Queries.TwoIntersect` | src/query_processor.cpp:46-69 | the two-pointer merge is the sorted intersection |
| `Queries.TwoUnion` | src/query_processor.cpp:71-109 | the two-pointer merge is the sorted union |
| `Queries.DedupTerms` | src/query_processor.cpp:122-133 | the distinct tokens in strictly increasing order |
| `Queries.SmallestFirst` | src/query_processor.cpp:157-203 | the terms reordered by document frequency |
| `Queries.IntersectAll` | src/query_processor.cpp:157-203 | the fold with early exit is the documents having all terms, in any order of terms |
| `Queries.AndQuery` | src/query_processor.cpp:157-203 | exactly the documents containing all distinct query tokens, strictly sorted |
| `Queries.OrQuery` | src/query_processor.cpp:205-229 | exactly the documents containing any, strictly sorted |
| `Ranking.RankingUnique` | src/ranker.cpp:136-145 | score descending then identifier ascending is a total order: one ranking per score map |
| `Ranking.ScoreTakesAnyTerm` | src/ranker.cpp:118-134 | the score sum does not depend on the order of the terms |
| `Ranking.OneTermScore` | src/ranker.cpp:79-134 | the score for one term is its occurrences in the document times the logarithm of all documents over those in which it occurs |
| `Ranking.RarerScoresHigher` | src/ranker.cpp:79-134 | of two terms as frequent in a document the rarer scores higher, for every increasing logarithm |
| `Ranking.ScoredAre` | src/ranker.cpp:51-196 | scored are exactly the documents with all, or any, of the query's tokens |
| `Ranking.FrontIsTop` | src/ranker.cpp:136-145 | the front of the ranking: scores never rise along it, equal scores ascend by identifier, nothing left out beats what is in |
| `Ranking.MissingTermPoisons` | src/ranker.cpp:79-88 | a term without documents empties the conjunction |
| `Ranking.RankedAnd` | src/ranker.cpp:51-145 | ranks exactly the documents with all terms by their TF-IDF sums |
| `Ranking.RankedOr` | src/ranker.cpp:147-196 | ranks exactly the documents with any term by their TF-IDF sums |
| `Ranking.SameDocumentsAsBoolean` | src/ranker.cpp:51-196 | ranked and Boolean queries return the same documents |
| `Collections.CountsAddUp` | src/shard_coordinator.cpp:150-188 | per-shard counts sum to the size of the whole collection |
| `Collections.ListsConcatenate` | src/shard_coordinator.cpp:95-148 | per-shard postings together list exactly the collection's postings |
| `Coordinators.ComputeGlobalN` | src/shard_coordinator.cpp:150-188 | sums the counts of the first answering replicas, pins them, reports exactly the shards without one |
| `Coordinators.CollectPostings` | src/shard_coordinator.cpp:95-148 | concatenates the pinned replicas' lists and reports exactly the refusing shards |
| `Coordinators.GatheredIsWhole` | src/shard_coordinator.cpp:95-148 | when no pinned replica refuses, document frequency and postings are those of the whole collection |
| `Coordinators.Search` | src/shard_coordinator.cpp:194-408 | a complete response ranks exactly the whole collection; if pinned replicas keep answering, a partial one ranks exactly the reachable shards and names exactly the others; the results are the best `limit` of it, refused iff the query is blank or the limit 0 |
| `Coordinators.AnswerIsTop` | src/shard_coordinator.cpp:339-398 | the cut keeps the best: min(limit, total) results, and every document left out scores lower, or the same with a larger identifier |
| `Coordinators.UnreachableIff` | src/shard_coordinator.cpp:150-188 | a shard is out of reach iff no replica of it answers the count |
| `Coordinators.ServiceSearch` | src/search_service.cpp:64-106 | the single-index service returns the best `limit` of that index's ranking, under the same validation |
| `Coordinators.VisibleOfAgreeing` | src/shard_coordinator.cpp:150-188 | with agreeing replicas a query sees the reachable shards, whichever replicas are pinned |
| `Coordinators.DistributedIsCentralised` | src/shard_coordinator.cpp:194-408 | distributed search returns the same identifiers, scores, order, total and cut as one big index |
| `Coordinators.FirstReadingReads` | src/shard_coordinator.cpp:694-727 | a read fails iff every replica fails, else comes from a replica that answered |
| `Coordinators.GetDocument` | src/shard_coordinator.cpp:694-727 | the first replica that answers decides, also with "not found" |
| `Coordinators.FailoverReadsAgree` | src/shard_coordinator.cpp:694-727 | with agreeing replicas every failover reads the same value |
| `Nodes.LocalNode.Search` | src/local_node.cpp:59-91 | exact count and postings of one shard; an error iff it is not hosted |
| `Nodes.LocalNode.DocumentCount` | src/local_node.cpp:219-230 | zero without error for a shard that is not hosted |
| `Nodes.LocalNode.Write` | src/local_node.cpp:93-189 | mutates one hosted shard and writes its file, an error iff not hosted or refused; the save's fate does not reach the reply |
| `Nodes.LocalNode.SaveShard` | src/local_node.cpp:236-243 | the shard's file becomes the saved lines, stays, or is cut short, and no other file changes; false if not hosted or not written |
| `Nodes.WroteLoads` | src/document_store.cpp:128-161 | what the file loads as after each outcome of a write |
| `Nodes.LocalNode.ApplyRemote` | src/local_node.cpp:258-349 | acknowledged iff the shard is hosted and has the event's outcome or accepts it, applied iff it accepts and has not; afterwards the outcome is there; the file written when applied |
| `Nodes.VerdictIs` | src/local_node.cpp:258-349 | the same about the verdict alone |
| `Replication.MutateIsLocal` | src/local_node.cpp:93-189 | a write acts on its own document's value and on nothing else |
| `Replication.StepKeepsInv` | src/shard_coordinator.cpp:452-519 | every interleaved step keeps: without a lost request a document is equal on all replicas, up to the write under way, and without a lost reply either equal to the log |
| `Replication.UnreachedIff` | src/shard_coordinator.cpp:452-519 | a document counts as unreached, or unheard, iff a request, or reply, about it was lost since its last successful write |
| `Replication.SuccessIsEverywhere` | src/shard_coordinator.cpp:452-519 | a write reported successful is on every replica and published one event; a failed one published none |
| `Replication.QuiescentReplicasAgree` | src/shard_coordinator.cpp:452-519 | in every reachable state a quiescent document without lost requests is equal on all replicas; without lost replies too it is what the events say |
| `Replication.QuiescentShardsAgree` | src/shard_coordinator.cpp:559-661 | with nothing under way and no request lost, whole shards agree on all replicas |
| `Replication.FailoverReadsTheLog` | src/shard_coordinator.cpp:694-727 | then any failover read returns the value the published events say |
| `LostCalls.LostCallDivides` | src/shard_coordinator.cpp:452-487 | a run in which one lost call leaves two replicas different |
| `Replication.CollectReplies` | src/shard_coordinator.cpp:472-487 | an error iff some reply is one |
| `WriteFanOuts.Write` | src/shard_coordinator.cpp:414-519 | the fan-out loop is one Begin, Deliver.., Finish run of the protocol; it succeeds and publishes iff every call was delivered and accepted |
| `WriteFanOuts.DividesIff` | src/shard_coordinator.cpp:452-487 | from agreeing replicas one fan-out leaves them in agreement iff the write had no effect, or no request was lost, or all were |
| `Consistency.LoggedDocsAt` | src/shard_coordinator.cpp:497-516 | the collection the events determine, document by document |
| `Consistency.ReplicasHoldTheLog` | src/shard_coordinator.cpp:452-519 | with nothing under way or lost every replica holds exactly its shards' part of the events' collection |
| `Consistency.SearchReadsTheLog` | src/shard_coordinator.cpp:194-408 | then a complete distributed answer is the single-index answer over that collection |
| `Consistency.LastMention` | src/shard_coordinator.cpp:497-516 | of a document's events, all in its partition, the last says what all events together say |
| `Consistency.ReaderHoldsTheLog` | src/remote_event_processor.cpp:42-238 | a node that has read the published events to the end holds exactly its shards' part of the events' collection, iff nothing was lost; its files do iff all is durable |
| `Consistency.ReaderEqualsReplica` | src/shard_coordinator.cpp:452-519 | such a node that wrote its applications whole has the same shard, in memory and on disk, as every synchronous replica of a calm cluster |
| `EventStores.EveryRunIsCounted` | src/event_store.cpp:26-108 | in every run each counter counts its status, they sum to the total, nothing underflows, identifiers are 1..next-1 |
| `EventStores.CountersSum` | src/event_store.cpp:26-108 | the statuses partition the events |
| `EventStores.PublishedIsForever` | src/event_store.cpp:46-108 | PUBLISHED is absorbing; identity and content never change |
| `EventStores.MovesAreLegal` | src/event_store.cpp:46-108 | one call moves one event along one lifecycle edge or not at all |
| `EventStores.CreatedHolds` | src/event_store.cpp:26-44 | a created event holds the topic, key and payload it was given, PENDING and untried |
| `EventStores.WhereCallsLead` | src/event_store.cpp:46-108 | which statuses each call takes to its target, and the error a failure leaves |
| `EventStores.AttemptsAreExact` | src/event_store.cpp:59-66 | the attempt count is the number of recorded attempts |
| `EventStores.EventStore.CreateEvent` | src/event_store.cpp:26-44 | a fresh PENDING event under the next identifier |
| `EventStores.EventStore.Dispatch` | src/event_store.cpp:46-57 | PENDING to DISPATCHING, else nothing |
| `EventStores.EventStore.Publish` | src/event_store.cpp:68-79 | DISPATCHING to PUBLISHED, else nothing |
| `EventStores.EventStore.Fail` | src/event_store.cpp:81-93 | DISPATCHING to FAILED with the message, else nothing |
| `EventStores.EventStore.Retry` | src/event_store.cpp:95-108 | FAILED to PENDING and true, else false |
| `PersistentStores.LoadFromDisk` | src/persistent_event_store.cpp:241-422 | first-wins valid subset of any file, recounted counters; throws iff a kept line has a mistyped optional member |
| `PersistentStores.FirstLine` | src/persistent_event_store.cpp:297-347 | the first usable line of an identifier |
| `PersistentStores.MistypedEndsReading` | src/persistent_event_store.cpp:241-284 | a mistyped metadata member and those after it keep their defaults, those before are read |
| `PersistentStores.LoadedIsCounted` | src/persistent_event_store.cpp:399-404 | after any load the counters are right and nothing is DISPATCHING; the total fits iff the metadata's did |
| `PersistentStores.LoadedNextIsFresh` | src/persistent_event_store.cpp:391-394 | the next identifier exceeds all loaded ones iff no usable line carries 2^64-1 |
| `PersistentStores.LargestIdWraps` | src/persistent_event_store.cpp:391-394 | a one-line file after whose load the next identifier is 0 |
| `PersistentStores.PerformKeepsSound` | src/persistent_event_store.cpp:86-176 | every lifecycle call keeps what a restart needs |
| `PersistentStores.SavedFileUnique` | src/persistent_event_store.cpp:428-476 | the events file is a function of the events |
| `PersistentStores.SaveToDisk` | src/persistent_event_store.cpp:428-476 | one line per event in identifier order |
| `PersistentStores.SaveLoadRoundTrip` | src/persistent_event_store.cpp:241-508 | load after flush restores events, identifiers and counters, DISPATCHING turned PENDING and nothing else changed |
| `PersistentStores.SecondRestartIsIdentity` | src/persistent_event_store.cpp:241-508 | a second flush and load changes nothing at all |
| `PersistentStores.PerformKeepsSane` | src/persistent_event_store.cpp:86-176 | the same for a store loaded without its events file, whose published and failed counters start too high |
| `PersistentStores.PersistentEventStore.Call` | src/persistent_event_store.cpp:86-176 | the lifecycle call on memory; dirty exactly when something changed; the files untouched |
| `PersistentStores.PersistentEventStore.Flush` | src/persistent_event_store.cpp:222-508 | for every way a flush can end, what each file holds, whether the store stays dirty, and that the files still load as what they were written from |
| `PersistentStores.LoadIsRestart` | src/persistent_event_store.cpp:241-422 | events and recounted counters come from the state the events file was written from, total, retries and the floor of the next identifier from that of the metadata, whatever the two are |
| `PersistentStores.SettledIff` | src/persistent_event_store.cpp:362-372 | two events agree up to recovery iff equal, or both PENDING or DISPATCHING and equal but for status and time |
| `PersistentStores.DirtyIffChanged` | src/persistent_event_store.cpp:86-176 | a call marks the store dirty iff it changes it |
| `PersistentStores.CountersRestored` | src/persistent_event_store.cpp:399-404 | with the events file the four status counters come back, DISPATCHING counted as PENDING |
| `PersistentStores.Open` | src/persistent_event_store.cpp:68-75 | loads the files or throws |
| `PersistentStores.WrittenAtLastFlush` | src/persistent_event_store.cpp:428-508 | the events file holds the memory at the last flush that touched it, whatever became of the metadata and of other flushes |
| `PersistentStores.EventsFileSince` | src/persistent_event_store.cpp:480-486 | there is an events file iff a flush wrote it, or it was loaded, and no later flush removed it without renaming |
| `PersistentStores.RestoredExactly` | src/persistent_event_store.cpp:222-508 | events, identifiers and next identifier come back as of the events file; the total iff nothing was created, the retries iff nothing was requeued, since the metadata was written |
| `PersistentStores.TornMetaForgets` | src/persistent_event_store.cpp:488-507 | metadata cut short: total and retries restart at 0, the next identifier at the least above all in use |
| `PersistentStores.CleanIsWritten` | src/persistent_event_store.cpp:222-229 | when a flush skips a clean store, the events in memory are those of the file |
| `PersistentStores.SilentLoss` | src/persistent_event_store.cpp:488-507 | a run of successful flushes after which the total is not restored |
| `PersistentStores.CrashAndRestart` | src/persistent_event_store.cpp:68-508 | after any history of calls and flushes, however they end, a restart succeeds with what the two files were written from, and the new store is again one to which this applies |
| `Dispatchers.AttemptStoreEffect` | src/event_dispatcher.cpp:326-332 | a retry's requeue and re-mark leave the event as it was; only the attempt is recorded |
| `Dispatchers.StepKeepsConserved` | src/event_dispatcher.cpp:139-376 | every step of producers, worker, broker reports, replay, start and stop keeps conservation |
| `Dispatchers.StepMoves` | src/event_dispatcher.cpp:36-376 | exactly what moves a tracked event: a producer begins, a success report publishes, giving up fails it with the reason, a replay requeues; everything else leaves its status |
| `Dispatchers.EveryEventInOnePlace` | src/event_dispatcher.cpp:139-376 | in every reachable state an event is DISPATCHING iff it is in exactly one of a producer's hands, queue, worker, awaiting a report |
| `Dispatchers.BrokerSeesQueueOrder` | src/event_dispatcher.cpp:278-355 | the broker takes messages in queue order, none twice; at most maxRetries+1 attempts per dequeue |
| `Dispatchers.PublishedWasTaken` | src/event_dispatcher.cpp:36-63 | PUBLISHED only if the broker took a message for the event |
| `Dispatchers.PublishedIffReported` | src/event_dispatcher.cpp:36-63 | in every run a tracked event is PUBLISHED iff it started so or a success report came while one was awaited |
| `Dispatchers.QueueIsBounded` | src/event_dispatcher.cpp:150-210 | the queue never exceeds its limit |
| `Dispatchers.ReportsMustBeAwaited` | src/event_dispatcher.cpp:36-63 | a success report for a DISPATCHING event keeps conservation iff that event was awaiting one |
| `Dispatchers.StopDrains` | src/event_dispatcher.cpp:213-231 | a completed stop leaves exactly the late entries; none unless an untimed producer was past the check |
| `Dispatchers.RacedIff` | src/event_dispatcher.cpp:213-231 | a stop counts as raced iff it began with an untimed producer past the check |
| `Dispatchers.EnqueueCanOutliveStop` | src/event_dispatcher.cpp:150-178 | a run in which a completed stop leaves an event queued |
| `Dispatchers.RacingProducerStrands` | src/event_dispatcher.cpp:150-178 | from every state in which a stop begins with an untimed producer past the check, tracked or not, some continuation completes the stop with its event queued |
| `Dispatchers.RecoveredStaysPending` | src/persistent_event_store.cpp:362-372 | when producers begin only with created or requeued events, an event PENDING at the start stays PENDING |
| `Dispatchers.EventDispatcher.EnterQueue` | src/event_dispatcher.cpp:161-210 | the producer's critical section is the Enter step, timed or not |
| `Dispatchers.EventDispatcher.EnqueueWithEvent` | src/event_dispatcher.cpp:139-178 | marked and queued, or marked and failed with the reason |
| `Dispatchers.EventDispatcher.ProcessEvent` | src/event_dispatcher.cpp:312-356 | the retry loop refines the worker's Attempt steps; true iff some attempt was taken, after the first that was, the event still DISPATCHING; else all attempts were made and it is FAILED |
| `Dispatchers.EventDispatcher.OnDelivery` | src/event_dispatcher.cpp:36-63 | the delivery callback: success publishes the awaited event, failure fails it with the broker's reason |
| `Dispatchers.EventDispatcher.ReplayFailed` | src/event_dispatcher.cpp:237-255 | every FAILED event is requeued once and ends queued with its stored topic, key and payload, or FAILED; others are untouched |
| `Brokers.EveryRunIsConserved` | src/in_memory_message_broker.cpp:28-251 | published = pending + in handler + acknowledged + dead; delivered = acknowledged + retried + dead + in handler; every message in exactly one place; attempts and queue bounded |
| `Brokers.AnswerDecides` | src/in_memory_message_broker.cpp:209-251 | accepted: acknowledged and remembered; refused: back of the queue with its attempts, or dead when they are used up or the broker is stopping |
| `Brokers.AcknowledgedIff` | src/in_memory_message_broker.cpp:181-224 | in every run a message is acknowledged iff its handler accepted it or its identifier had been processed when it was taken |
| `Brokers.AttemptsAreRefusals` | src/in_memory_message_broker.cpp:181-251 | in every run a message's attempts are its refusals, plus the delivery under way |
| `Brokers.DeadIff` | src/in_memory_message_broker.cpp:235-251 | in every run a message is dead iff it was refused as often as it may be delivered, or refused while stopping |
| `Brokers.FirstDeliveriesInOrder` | src/in_memory_message_broker.cpp:28-199 | first deliveries are in publish order |
| `Brokers.DrainTerminates` | src/in_memory_message_broker.cpp:28-251 | after stop begins the consumers take at most 2*pending + in handler + threads steps, plus 2 per message still published |
| `Brokers.DrainNeverStuck` | src/in_memory_message_broker.cpp:164-226 | until every consumer has ended some consumer step is possible |
| `Brokers.DrainEmpties` | src/in_memory_message_broker.cpp:28-226 | when a topic's consumers have ended no handler runs and its queue length is the number of messages published since |
| `Brokers.LateMessagesStay` | src/in_memory_message_broker.cpp:28-66 | such messages stay queued until a new start |
| `Brokers.PublishCanOutliveStop` | src/in_memory_message_broker.cpp:28-66 | a run that ends with a message queued for a subscribed topic |
| `Brokers.InMemoryMessageBroker.Publish` | src/in_memory_message_broker.cpp:38-66 | appends under the next offset, inventing an identifier for 0, and reports success for the identifier used |
| `Brokers.InMemoryMessageBroker.PublishWithTimeout` | src/in_memory_message_broker.cpp:68-112 | the same, or nothing iff the deadline passed with no room |
| `Brokers.InMemoryMessageBroker.TakeMessage` | src/in_memory_message_broker.cpp:181-199 | takes the front message, acknowledging a seen identifier unread |
| `Brokers.InMemoryMessageBroker.SettleMessage` | src/in_memory_message_broker.cpp:211-251 | acknowledges iff the handler accepted; a refusal goes to the back of the queue or to the dead letters, and nothing else changes in the topic |
| `KafkaConsumers.CommitsNeverPassUnhandled` | src/kafka_message_broker.cpp:219-305 | for every outcome, crash, rebalance and commit schedule, no committed offset passes an unaccepted message |
| `KafkaConsumers.AcceptedMeansHandled` | src/kafka_message_broker.cpp:256-305 | a message counts as accepted iff its handler returned true with it in hand |
| `KafkaConsumers.PolledInOrder` | src/kafka_message_broker.cpp:219-305 | when a message is polled every earlier one of its partition has been accepted |
| `KafkaConsumers.AtMostTheOneInHand` | src/kafka_message_broker.cpp:263-354 | from a noticed stop to the next restart at most the message in hand is accepted or committed |
| `KafkaConsumers.DrainedIsNotHandled` | src/kafka_message_broker.cpp:307-354 | a message polled by the loop after the loop is not handled before the next restart |
| `KafkaConsumers.StoppedLoopSkips` | src/kafka_message_broker.cpp:307-354 | a run in which that happens |
| `KafkaConsumers.RevokedIsHandledAgain` | src/kafka_consumer.cpp:44-47 | after a revocation or a restart every message at or past the committed offset is polled and accepted again before a commit passes it, unless one already on its way does |
| `KafkaConsumers.RevocationRepeats` | src/kafka_consumer.cpp:44-47 | a run in which an accepted message is in hand again |
| `KafkaConsumers.HandleUntilAccepted` | src/kafka_message_broker.cpp:256-295 | retries the same message until accepted or stopped, pausing once, backing off 100 ms doubling to 5000 ms |
| `KafkaConsumers.BackoffIs` | src/kafka_message_broker.cpp:256-295 | the pauses are 100, 200, 400, 800, 1600, 3200 and then 5000 ms |
| `RemoteEvents.AcknowledgedFixesValue` | src/remote_event_processor.cpp:42-238 | an acknowledged event alone determines its document; all others keep their value |
| `RemoteEvents.RedeliveryIsIdempotent` | src/local_node.cpp:258-349 | redelivering an acknowledged event is acknowledged and changes nothing |
| `RemoteEvents.RemoteEventProcessor.Process` | src/remote_event_processor.cpp:42-100 | an event of this node's own, for a shard hosted elsewhere, or not understood leaves memory and files alone; any other takes effect once and is acknowledged iff its outcome is there, saved if it was applied; every event counted once |
| `Pipelines.DurableIffWritten` | src/local_node.cpp:258-349 | an accepted event is on disk iff there was nothing to apply or the last opened write got as far as its document |
| `Pipelines.WholeWriteIff` | src/document_store.cpp:128-161 | after an application a shard's file agrees with memory iff the last opened write was whole |
| `Pipelines.RetriesNeverSave` | src/local_node.cpp:258-349 | after an application whose second write failed, every retry is accepted and writes nothing |
| `Pipelines.HandleMessage` | src/remote_event_processor.cpp:42-238 | for every outcome of both writes, the event processor on a node, memory and files, is the pipeline's handling step |
| `Pipelines.SavedShardsAgree` | src/local_node.cpp:236-349 | whatever writes failed or were cut short, a shard is the same on disk as in memory iff none of its documents is behind, in particular if its last application was written whole |
| `Pipelines.DurableExactly` | src/kafka_message_broker.cpp:219-305 | with no hypothesis on writes, a passed last event is in memory iff no restart took it back, and on disk iff its document is neither unwritten, nor past the cut of the last write, nor lost before |
| `Pipelines.EndOfLogDeterminesState` | src/kafka_message_broker.cpp:219-305 | from any start state, with retries, replays and crashes, at the end of a log every mentioned document is as its last event says, iff no restart took that back |
| `Pipelines.CommittedIsDurable` | src/kafka_message_broker.cpp:298-303 | the same exact condition for a committed last event |
| `Pipelines.UnmentionedStays` | src/local_node.cpp:258-349 | a document no event mentions keeps its value, in memory and on disk, under exactly the same conditions |
| `Pipelines.NothingLostWhenSaved` | src/local_node.cpp:258-349 | only failed or cut writes of the document's own shard put it behind or lose it |
| `Pipelines.FailedSaveLosesTheEvent` | src/remote_event_processor.cpp:128-142 | from every state with something to apply in hand and however the second write fails: refusal, accepted retry, commit, restart, and the node holds what the failed call left of the files; the event is lost iff that lacks it |
| `Pipelines.EveryEventCanBeLost` | src/remote_event_processor.cpp:128-238 | such a run from every node's start state and for every kind of event |
| `Pipelines.OldDocumentsCanBeLost` | src/document_store.cpp:147-160 | a run for every node and two events: the first is written and committed, the second's write is torn, and after its retry, commit and a restart the whole shard is gone |
| `SharedMutexes.WriterIsAlone` | src/shared_mutex.h:42-103 | for any number of threads a writer excludes everybody |
| `SharedMutexes.StepKeepsSignalled` | src/shared_mutex.h:42-103 | the flag is set iff an unpassed writer waits, and a sleeper that could enter has a notification coming |
| `SharedMutexes.SomeWaiterCanProceed` | src/shared_mutex.h:42-103 | when nobody is inside and somebody waits, some waiter can enter and is awake or being woken |
| `SharedMutexes.ReadersYieldToUnpassedWriters` | src/shared_mutex.h:72-103 | a reader gets in iff no writer is inside and none waits that no lock() has passed |
| `SharedMutexes.WritersGetInIff` | src/shared_mutex.h:42-68 | a writer gets in iff nobody is inside; try_lock() also needs that no unpassed writer waits |
| `SharedMutexes.LeavingLeaves` | src/shared_mutex.h:53-93 | who unlocks is no longer inside, and no step moves another thread in or out |
| `SharedMutexes.ClaimEndsOnlyByPassing` | src/shared_mutex.h:42-50 | a waiting writer's claim ends exactly when another writer's lock() succeeds |
| `SharedMutexes.WaitingWriterIsNotOvertaken` | src/shared_mutex.h:42-78 | until another writer gets in, readers only leave while a writer waits |
| `SharedMutexes.SecondWriterIsOvertaken` | src/shared_mutex.h:42-50 | a run in which a reader enters past a second waiting writer |
| `SharedMutexes.SharedMutex.RetryEnter` | src/shared_mutex.h:42-50 | the writer's test enters and clears the flag, or leaves everything |
| `SharedMutexes.SharedMutex.ReleaseShared` | src/shared_mutex.h:87-93 | the reader count never underflows |
| `Placements.MakeDeterministicReplicaSets` | src/node_config.cpp:139-168 | the ring sets, for exactly the sensible parameters |
| `Placements.ShardReplicaPlacement` | src/replica_placement.cpp:16-115 | accepts exactly the valid placements; its final coverage check never fires |
| `Placements.DistinctCoverAll` | src/replica_placement.cpp:106-114 | pigeonhole: distinct shard numbers cover all shards |
| `Placements.RingIsValid` | src/node_config.cpp:157-165 | ring sets always pass validation |
| `Placements.GeneratedPlacementIsAccepted` | src/node_config.cpp:139-168 | generating then validating stores the ring |
| `Placements.HostsIff` | src/node_config.cpp:157-165 | in the first turn of the ring a node hosts a shard iff it is less than R places further on |
| `Placements.LoadIsBalanced` | src/node_config.cpp:157-165 | every node hosts between R*(S/N) and that plus min(R, S mod N) shards |
| `Topologies.ParsePeerTopology` | src/node_config.cpp:33-137 | accepts exactly the lists whose entries parse and whose identifiers cover 0..N-1; returns them by identifier |
| `Topologies.AcceptedIsLegal` | src/node_config.cpp:33-137 | anything accepted has contiguous identifiers, legal hosts and legal ports |
| `Topologies.SortedContiguousIsById` | src/node_config.cpp:120-134 | a sorted list covering 0..N-1 has identifier i at index i |
| `Topologies.EntryRoundTrip` | src/node_config.cpp:58-114 | a rendered endpoint parses back, colons in the host included |
| `Topologies.EntryGrammar` | src/node_config.cpp:58-114 | exactly which entries are accepted: identifier, first equals sign, address |
| `Topologies.AddressGrammar` | src/node_config.cpp:84-114 | exactly which addresses are: host, last colon, port |
| `Topologies.NumberGrammar` | src/node_config.cpp:67-112 | exactly which numbers are: an optional sign and digits in range |
| `Topologies.RenderThenParse` | src/node_config.cpp:33-137 | any legal endpoints, rendered in any order, parse back sorted by identifier |
| `Topologies.TrailingCommaIsIgnored` | src/node_config.cpp:42-48 | one trailing comma changes no entry |
| `Topologies.NegativeIdWraps` | src/node_config.cpp:67-78 | a negative identifier is accepted as its complement modulo 2^64 |
| `CircuitBreakers.ClosedMeansFewFailures` | src/circuit_breaker.cpp:54-101 | while closed the counter is the failures since the last success or reset, below the threshold |
| `CircuitBreakers.OpensExactlyAtThreshold` | src/circuit_breaker.cpp:76-101 | a failure opens iff it meets the threshold or ends a probe |
| `CircuitBreakers.NothingPassesWhileOpen` | src/circuit_breaker.cpp:19-42 | absent a reset nothing is allowed from opening until the timeout |
| `CircuitBreakers.ProbesAreBounded` | src/circuit_breaker.cpp:28-50 | an episode allows at most the configured probes |
| `CircuitBreakers.SpentProbesBlockForever` | src/circuit_breaker.cpp:42-49 | with probes spent and no outcome recorded, no request is ever allowed |
| `CircuitBreakers.AllowedIff` | src/circuit_breaker.cpp:19-52 | a request is allowed iff closed, or open for the timeout with probes configured, or half-open with a probe left |
| `CircuitBreakers.ClosesAndProbes` | src/circuit_breaker.cpp:19-130 | every other way between the states, and the time an opening is stamped with |
| `CircuitBreakers.CircuitBreaker.ShouldAllowRequest` | src/circuit_breaker.cpp:19-52 | the object's answer and new state are the history function's |
| `CircuitBreakers.CircuitBreaker.RecordFailure` | src/circuit_breaker.cpp:76-101 | the object counts, opens and reopens as the history function |

## Left out

- Network and file formats: HTTP, JSON text, librdkafka and thread creation are not modelled. Files are lists of decoded records, Kafka is a list of partition logs, a node call may fail or lose its reply.
- Floating point: scores are real numbers with an arbitrary `ln`; the order of IEEE additions and 32-bit term-frequency overflow are not modelled.
- Metrics, latency sampling, command-line configuration and the benchmarks.
- Locks inside single components: `Index`, `Shard`, `Node`, `EventStore` and `CircuitBreaker` are one call at a time, as their own mutexes arrange.
- The coordinator's nodes are values (`Hosted`) with reply functions rather than node objects, so aliasing between coordinator and nodes is not captured; `LocalNode` is proved against the same values.
- Writes to one document from several clients at once: the source promises no order between replicas, and `Replication` serialises writes per document.
- Replica agreement is stated without the Kafka consumer: a consumer that lags can re-apply an older update.
- Pipelines.DurableExactly: assumes that the group coordinator refuses commits of an earlier generation; the safety of committed offsets does not.
- Pipelines: the node's own writes between two events are not interleaved.
- RemoteEvents.RemoteEventProcessor.Process: one local node per processor, where the source searches several.
- Nodes.LocalNode.SaveShard: shards without a data path, whose save succeeds without a file.
- Shards.DocumentStore.Save: the false result for a file that cannot be opened or written is in `Nodes.LocalNode.SaveShard`.
- Shards.DocumentStore.Load: the false result for a file that cannot be opened is in `Shards.Shard.Load`.
- WriteFanOuts.Write: replicas are called in list order; the source calls them concurrently, which is what the steps of `Replication` interleave.
- PersistentStores.SaveToDisk: failure, rename and metadata are in `PersistentStores.PersistentEventStore.Flush`.
- Dispatchers.EventDispatcher.EnqueueWithEvent: no timeout and no other thread meanwhile; the steps of the transition system interleave, and `EnterQueue` has the timed case.
- Dispatchers.EventDispatcher.ProcessEvent: one clock reading for all tries and no other thread on the store meanwhile.
- Dispatchers.EventDispatcher.ReplayFailed: no other thread on the store or the queue meanwhile.
- PersistentStores.CrashAndRestart: files without 2^64-1 as an identifier, and histories too short to exhaust the identifiers.
- PersistentStores.SaveLoadRoundTrip: both files from the same state; `PersistentStores.LoadIsRestart` has files from different states.
- EventStores.EveryRunIsCounted: speaks of runs with fewer than 2^64-1 events, where identifiers have not run out.
- Dispatchers.EveryEventInOnePlace: a producer begins with a PENDING event, as the coordinator (just created) and replay (just requeued) do; enqueuing one event twice would queue it twice.
- Dispatcher statistics other than those of `ProcessEvent`, and retry delays.
- Dispatchers: a broker that invents identifiers for untracked messages and reports on them is outside the runs; `ReportsMustBeAwaited` says exactly what such a report breaks.
- Brokers: waiting and waking are not modelled, so liveness of publishers with several topics on one condition variable is not claimed; at-most-once handling through the processed-identifier window is not claimed.
- Brokers: `start()` while another thread's `stop()` is still joining is not a step; in the code the two then race on the list of threads.
- Topic retention and `auto.offset.reset`: logs start at offset 0 and are never truncated.
- Circuit breaker use inside `RemoteNode`, which never records a successful search.
- `term_count`, `contains` and other accessors, `save_all`, `load_all` and the single-owner `ShardPlacement`: easy beside what is here.
