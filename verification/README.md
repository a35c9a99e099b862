# Enfold, modelled and proved in Dafny

Enfold is a memory service over one SQLite file. This project models the parts of it that are small
protocols and algorithms over tables, and proves what they promise: for every input, every run and
every interleaving. Each table is a map or a sequence, each SQL transaction one atomic step, and an
object whose methods update its fields is a class whose methods are proved against a function of the
old state.

1. **Leased work queues.** `ExtractionTable` holds the transactions of the extraction queue and the class
   `ExtractionProcessor` that performs them; `ExtractionRuns` is a machine with any number of workers
   that crash, stall, lose leases and receive arbitrary model answers; `ExtractionSafety` proves its
   invariant step by step, `ExtractionTheorems` states what follows, and `ExtractionProgress` that a worker
   left alone finishes what it claims. `EmbeddingTable`,
   `EmbeddingRuns`, `EmbeddingHistory`, `EmbeddingTheorems` and `EmbeddingProgress` do the same for the
   embedding outbox, together with the fact writes it must keep up with. `ExtractQueue` is the older queue with quota reschedules, dead letters
   and revival.
2. **Near-duplicate merge.** `UnionFind` (path compression on a parent forest), `Clusters` (connected
   components of the similarity graph), `Tags`, `ClusterMerge` (survivor, plan, application) and
   `MergeTheorems` (what a merge conserves).
3. **Wire format.** `Json` is one model of JSON text, its canonical printer and its strict parser.
   `JsonRoundTrip` and `JsonStrict` relate the two, `Scanner` is the bracket scan that recovers JSON from
   prose, `Protocol`, `ProtocolRoundTrip` and `ProtocolStrict` are the four frames, `Framing` the two
   receive loops and `Connection` the daemon's frame handler.
4. **Vectors.** `VectorIndex` (canonical rows and the derived vec0 table), `EmbedStore` (writes and the
   matrix cache), `Vectors` (cosine over the reals), `Retrieval` and `Search` (the two scoring backends,
   the score formula and the ambiguity gate).
5. **History** of supersession links, and 6. **ContextPacking** under a token budget.

`Common`, `Text` and `Dictionary` are vocabulary.

Assumptions shared by the models:

- SHA-256 is injective (`Common.Digest`), also in the 24 digits of the batch hash that an idempotency key
  carries, and lease tokens are fresh.
- Clock readings are arbitrary integers, read once per transaction; they need not agree between workers.
- `memory.write` (enfold/write_service.py:176-372) enters as a log keyed by client and idempotency key: a
  repeat returns the stored outcome, the same key with another request is a conflict, and a write may
  raise whether or not it was logged. The request hash covers the metadata and so the queue row's id; rejected
  decisions are logged too. No other client of the service uses keys of the form `extract:`.
- The extractor, the embedder, the envelope decoder and the proposal normaliser are arbitrary functions.
- Every write that makes a fact active enqueues it in the same transaction. Contents may be edited, facts
  deleted and inserted again, and stored vectors dropped (as `EmbedStore` does on an update, a removal or a
  pruning), at any time and without an enqueue.

These plausible claims are false of the code, and are replaced by exact conditions:

- A model call is not stopped by an existing snapshot: a worker that read "no snapshot", lost its lease
  and only then calls does call again (`StaleWorkerMayCallAgain`). A call repeats a finished one exactly
  when the row is gone or carries a snapshot at that moment (`CallIsARepeatIff`), that is, exactly when
  the snapshot was stored between the worker's read and its call (`CallRepeatsIffStoredMeanwhile`). It
  never happens under a held lease, and the answer is dropped.
- A stored vector need not be of the content its fact has now: an edit leaves the old vector in place, and
  no enqueue, backfill or worker ever replaces it (`EditLeavesItStale`, `StaleVectorExists`). It is of the
  current content exactly when the edits since the commit end with the content embedded then
  (`FreshSinceCommitIff`).
- Dropping a vector breaks coverage exactly when the fact is active and has no open job
  (`DropKeepsCoverageIff`); until the next enqueue or backfill the fact is then uncovered, and no other
  active fact ever is (`OutboxCoverage`).
- Scores are not bounded by 1: the relevance weights need only sum to 1 within a relative tolerance of one
  in a billion (`ScoreAboveOne`). They are exactly when `ScoreBound` is at most 1 (`ScoresInUnitIff`).
- Merging conserves counts exactly if every fact a cluster repeats counts zero (`MergeConservesIff`,
  `RepeatedFactDoubles`).
- A frame survives the round trip exactly if its major version is supported and the caller's values still
  fit depth 32 once they sit inside the frame (`RoundTripIff`, `DeepestParamsDoNotDecode`).
- Every member of a chain tells the same history exactly if no two facts off a cycle were replaced by one
  fact or by facts of one cycle (`UniformIff`, `TwoOriginsDisagree`). The docstring of `fact_history` says
  "any fact in a chain" without that condition.

Also: a frame whose `type` is an array or object makes `decode_frame` raise an exception outside its
declared ones (`UnhashableIff`), because the type is looked up in a dictionary. The eleven bytes
`{"type":[]}` are such a frame (`UnhashableText`).

## Model

| member | source | states |
|---|---|---|
| `ExtractionTable.ExtractionProcessor.Claim` | enfold/extraction_processor.py:261-315 | exhausted expired leases are swept to dead, then the oldest due row is leased under the fresh token with one more attempt |
| `ExtractionTable.ExtractionProcessor.Complete` | enfold/extraction_processor.py:317-325 | deletes the row, and reports it, exactly for the holder of its lease |
| `ExtractionTable.ExtractionProcessor.Renew` | enfold/extraction_processor.py:327-348 | extends the lease exactly for its holder while it has not expired |
| `ExtractionTable.ExtractionProcessor.Fail` | enfold/extraction_processor.py:350-380 | back to pending with a delay, or dead when permanent or out of attempts; nothing for another worker |
| `ExtractionTable.ExtractionProcessor.LoadSnapshot` | enfold/extraction_processor.py:417-442 | lease lost, inconsistent columns, no snapshot, or the stored snapshot |
| `ExtractionTable.ExtractionProcessor.PersistSnapshot` | enfold/extraction_processor.py:444-468 | stores the snapshot only under the lease and only where there is none |
| `ExtractionTable.ExtractionProcessor.Enqueue` | enfold/extraction_enqueue.py:52-133 | an active copy of the payload is returned, otherwise one pending row is added |
| `ExtractionSafety.StepKeepsInv` | enfold/extraction_processor.py:184-232 | every action of every worker keeps the table, log and worker invariant and erases no record |
| `ExtractionSafety.RunKeepsInv` | enfold/extraction_processor.py:184-232 | so does every run |
| `ExtractionSafety.ClaimKeepsInv` | enfold/extraction_processor.py:261-315 | sweeping and claiming keep the invariant |
| `ExtractionSafety.PersistKeepsInv` | enfold/extraction_processor.py:444-468 | storing a snapshot keeps the invariant, also for workers that read "no snapshot" before |
| `ExtractionSafety.WriteKeepsInv` | enfold/extraction_processor.py:206-220 | issuing one write keeps the logged keys a prefix of the row's one batch |
| `ExtractionTheorems.ExactlyOnce` | enfold/extraction_processor.py:184-232 | in every reachable state a completed row has exactly one accepted log entry per proposal, all its own |
| `ExtractionTheorems.LoggedKeysArePrefix` | enfold/extraction_processor.py:664-666 | the logged keys of a batch are a prefix of its proposals, written by one row |
| `ExtractionTheorems.SameBatchCompletesOnce` | enfold/extraction_processor.py:664-666 | two rows with one payload and one non-empty batch never both complete |
| `ExtractionTheorems.RecordsAreFinal` | enfold/extraction_processor.py:444-468 | whatever happens next, a snapshot, a log entry and a completion stay |
| `ExtractionTheorems.WritesUseTheRowsSnapshot` | enfold/extraction_processor.py:572-715 | every write, also a stale worker's, is the next proposal of the one snapshot its row ever had |
| `ExtractionTheorems.ProcessingIffLeased` | enfold/extraction_processor.py:261-380 | processing status holds exactly when token, owner and expiry are set |
| `ExtractionTheorems.OnlyTheLatestClaimChangesARow` | enfold/extraction_processor.py:317-380 | apart from claims and enqueues only the holder of a row's latest claim changes or deletes it, and an expired lease is never renewed |
| `ExtractionTheorems.LostLeaseStaysLost` | enfold/extraction_processor.py:317-380 | over runs: once a row was claimed again, nothing under the old token changes the table any more |
| `ExtractionTheorems.CallIsARepeatIff` | enfold/extraction_processor.py:194-203 | a call about to start repeats a finished one exactly when the row is gone or has a snapshot |
| `ExtractionTheorems.CallRepeatsIffStoredMeanwhile` | enfold/extraction_processor.py:194-203 | over runs: exactly when the snapshot was stored after the worker's own read |
| `ExtractionTheorems.NoCallUnderALeaseOnceSnapshotted` | enfold/extraction_processor.py:194-203 | once a row has a snapshot, no worker about to call the model for it holds its lease |
| `ExtractionTheorems.LateAnswersAreDropped` | enfold/extraction_processor.py:444-468 | an answer that comes after the snapshot is never stored |
| `ExtractionProgress.UndisturbedWorkerCompletes` | enfold/extraction_processor.py:184-232 | from every reachable state, so after any crash, an idle worker that runs alone completes the oldest due row from its stored snapshot or the model's answer, if the batch passes the screen and no other row took its keys |
| `ExtractionProgress.WritesComplete` | enfold/extraction_processor.py:206-222 | from any point of its batch a worker whose writes are accepted finishes the batch and removes the row |
| `ExtractionTheorems.StaleWorkerMayCallAgain` | enfold/extraction_processor.py:194-203 | a reachable state in which a worker without its lease calls the model although the snapshot exists |
| `ExtractionTheorems.AttemptsAreBounded` | enfold/extraction_processor.py:261-315 | attempts and claims of a row never exceed the limit |
| `ExtractionTheorems.ClaimsAreBounded` | enfold/extraction_processor.py:261-315 | over any run the claims granted are paid for by attempts left plus a full allowance per new row |
| `ExtractionTheorems.AnEmptyClaimMeansAllDead` | enfold/extraction_processor.py:261-315 | a claim that finds nothing once all delays and leases have passed leaves only dead rows |
| `EmbeddingTable.EmbeddingJobProcessor.EnqueueInTransaction` | enfold/embedding_jobs.py:93-135 | a job exists afterwards; a completed one is reset unless its vector is stored |
| `EmbeddingTable.EmbeddingJobProcessor.EnqueueBackfill` | enfold/embedding_jobs.py:137-191 | every active fact without vector is enqueued, in id order, and the count is that of changed jobs |
| `EmbeddingTable.EmbeddingJobProcessor.Claim` | enfold/embedding_jobs.py:275-347 | expired exhausted jobs are dead-lettered, then the first due job is leased |
| `EmbeddingTable.EmbeddingJobProcessor.SettleInactive` | enfold/embedding_jobs.py:372-414 | a job whose fact is gone or inactive is completed without a vector, for the lease holder only |
| `EmbeddingTable.EmbeddingJobProcessor.CommitPrepared` | enfold/embedding_jobs.py:416-484 | stores the vector only under the lease and only for unchanged content of an active fact |
| `EmbeddingTable.EmbeddingJobProcessor.Fail` | enfold/embedding_jobs.py:505-529 | backs off or dead-letters, for the lease holder only |
| `EmbeddingTable.VersionedBackend.LoadDocuments` | enfold/hybrid_retrieval.py:270-342 | succeeds exactly when ids are distinct, stored vectors fit and every missing one has a live job; vectors first, then zeros for queued facts |
| `EmbeddingRuns.StepKeepsInv` | enfold/embedding_jobs.py:93-529 | every fact write and worker step keeps coverage and lease bookkeeping |
| `EmbeddingRuns.RunKeepsInv` | enfold/embedding_jobs.py:93-529 | so does every run, and no job disappears |
| `EmbeddingRuns.EnqueueKeepsOk` | enfold/service.py:302-309 | activating or inserting a fact together with its enqueue keeps coverage |
| `EmbeddingRuns.BackfillKeepsOk` | enfold/embedding_jobs.py:137-191 | a backfill keeps coverage and every lease |
| `EmbeddingTheorems.OutboxCoverage` | enfold/embedding_jobs.py:93-191 | an active settled fact has a fitting vector or a pending, processing or dead-lettered job, exactly unless its vector was dropped under it with no enqueue since |
| `EmbeddingTheorems.DropKeepsCoverageIff` | enfold/embed_store.py:198-247 | dropping a vector keeps coverage exactly when the fact is inactive or has an open job |
| `EmbeddingTheorems.NothingExposed` | enfold/embedding_jobs.py:93-529 | a run without drops leaves no fact exposed, so every active fact covered |
| `EmbeddingTheorems.BackfillRestoresCoverage` | enfold/embedding_jobs.py:137-191 | a backfill covers every active fact, whatever was dropped before |
| `EmbeddingTheorems.LoadOnOneState` | enfold/hybrid_retrieval.py:270-342 | without dead letters, loading active candidates from one state fails exactly for those whose vector was dropped under them |
| `EmbeddingTheorems.SplitReadFailsIffTheJobCompleted` | enfold/hybrid_retrieval.py:283-342 | with the two reads apart, a covered candidate is reported uncovered exactly when it had no vector at the first read and its job completed by the second |
| `EmbeddingTheorems.SplitReadCanFail` | enfold/hybrid_retrieval.py:283-342 | such a run exists |
| `EmbeddingTheorems.StoredVectorsAreFresh` | enfold/embedding_jobs.py:416-484 | a worker step that changes a vector stores an answer of the model for the content as it stands in that transaction, on an active fact |
| `EmbeddingTheorems.StoredVectorsAreAnswers` | enfold/embedding_jobs.py:349-370 | in every reachable state each stored vector is an answer for the content its fact had when it was stored |
| `EmbeddingHistory.VectorStays` | enfold/embedding_jobs.py:93-529 | no step but a drop touches a stored vector, because its job is over |
| `EmbeddingHistory.StepKeepsHistory` | enfold/embedding_jobs.py:93-529 | every step keeps: vectors are answers and belong to completed jobs, exposed facts have neither vector nor open job |
| `EmbeddingTheorems.FreshAfterRunIff` | enfold/embedding_jobs.py:93-529 | over any run without a drop the vector stays and is of the current content exactly when the fact writes end with the content embedded |
| `EmbeddingTheorems.FreshSinceCommitIff` | enfold/embedding_jobs.py:416-484 | the same counted from the committing transaction |
| `EmbeddingTheorems.EditLeavesItStale` | enfold/embedding_jobs.py:93-191 | after an edit to other content no enqueue, backfill or worker ever refreshes the vector |
| `EmbeddingTheorems.StaleVectorExists` | enfold/embedding_jobs.py:93-191 | a reachable active fact with a vector of other content, right after a backfill |
| `EmbeddingProgress.UndisturbedWorkerEmbeds` | enfold/embedding_jobs.py:349-370 | from every reachable state an idle worker that runs alone ends the next due job: an active fact has the answer for its current content stored, otherwise no vector changes |
| `EmbeddingTheorems.ProcessingIffLeased` | enfold/embedding_jobs.py:275-529 | processing status holds exactly when the lease columns are set; attempts stay within the limit |
| `EmbeddingTheorems.OnlyTheLatestClaimChangesAJob` | enfold/embedding_jobs.py:372-529 | settling, committing and failing act only for the holder of the job's latest claim |
| `EmbeddingTheorems.ClaimsAreBounded` | enfold/embedding_jobs.py:275-347 | over any run claims are bounded by attempts left plus an allowance per enqueue |
| `EmbeddingTheorems.AnEmptyClaimMeansAllOver` | enfold/embedding_jobs.py:275-347 | an empty claim after all delays leaves only completed and dead-lettered jobs |
| `ExtractQueue.Queue.EnsureHashIndex` | enfold/extract_queue.py:164-189 | the migration loop hashes every row except later active copies, and the unique index is accepted exactly when no duplicates remain |
| `ExtractQueue.Queue.Enqueue` | enfold/extract_queue.py:206-245 | returns the oldest active copy or adds one pending row, with the capped payload |
| `ExtractQueue.Queue.MarkDone` | enfold/extract_queue.py:247-261 | deletes exactly the row its lease owner holds |
| `ExtractQueue.Queue.MarkFailed` | enfold/extract_queue.py:263-306 | one attempt more, dead by attempts or by age, only for the lease owner |
| `ExtractQueue.Queue.MarkQuotaFailed` | enfold/extract_queue.py:308-359 | rescheduled without an attempt, or dead by age, only for the lease owner |
| `ExtractQueue.Queue.ReleaseClaim` | enfold/extract_queue.py:361-373 | back to pending without an attempt, only for the lease owner |
| `ExtractQueue.Queue.NextPending` | enfold/extract_queue.py:452-537 | leases the oldest due row that is not excluded |
| `ExtractQueue.Queue.ReviveDead` | enfold/extract_queue.py:375-423 | row-by-row revival, in any order, revives what one snapshot of the conditions would, and counts it |
| `ExtractQueue.SameConditionMidway` | enfold/extract_queue.py:385-407 | halfway through, an unvisited row meets the revival conditions exactly when it met them at the start |
| `ExtractQueue.BackfillIsUniqueIff` | enfold/extract_queue.py:164-189 | the backfilled table satisfies the unique index exactly when no later active copy already had a hash |
| `ExtractQueue.OpKeepsUnique` | enfold/extract_queue.py:206-537 | every operation keeps at most one active row per hash |
| `ExtractQueue.RunKeepsUnique` | enfold/extract_queue.py:206-537 | so does every sequence of operations |
| `ExtractQueue.RevivalPicksTheOldest` | enfold/extract_queue.py:385-407 | without a filter exactly the oldest dead row of each hash without active copy is revived |
| `ExtractQueue.EnqueueIsIdempotent` | enfold/extract_queue.py:206-245 | enqueueing a payload again changes nothing |
| `UnionFind.Forest.constructor` | enfold/cluster_merge.py:210-211 | every listed id is its own root |
| `UnionFind.Forest.Find` | enfold/cluster_merge.py:213-219 | returns the root and compresses the path without moving any root; ends because depth falls |
| `UnionFind.Forest.Union` | enfold/cluster_merge.py:221-224 | afterwards roots agree exactly when the links including the new one connect |
| `UnionFind.CompressionKeepsForest` | enfold/cluster_merge.py:213-219 | re-hanging one element under its root keeps a well-founded forest with the same roots |
| `UnionFind.OneMoreLink` | enfold/cluster_merge.py:221-224 | what a new link connects, in terms of the old links |
| `Clusters.BuildClusters` | enfold/cluster_merge.py:227-270 | the clusters are exactly the connected components with at least two entries, whole, once, in order of first occurrence |
| `Clusters.EveryLargeComponentIsThere` | enfold/cluster_merge.py:264-270 | no large component is missed |
| `Clusters.ComponentsAreDisjoint` | enfold/cluster_merge.py:264-270 | no fact is in two clusters |
| `Clusters.MembersAreDistinct` | enfold/cluster_merge.py:264-270 | distinct ids give clusters without repetitions |
| `Tags.MergeTags` | enfold/cluster_merge.py:387-394 | the merged string carries exactly the tags of all the strings |
| `Tags.SplitUndoesJoin` | enfold/cluster_merge.py:387-394 | splitting a joined tag list gives it back |
| `ClusterMerge.BestIsFirstOfTheBest` | enfold/cluster_merge.py:348-354 | the minimum by score and age is the first of the best |
| `ClusterMerge.SurvivorIsTheBestOldest` | enfold/cluster_merge.py:322-356 | a pre-existing fact survives a flood fact, none considered is better, and the losers are all others |
| `ClusterMerge.PlanMerge` | enfold/cluster_merge.py:397-431 | one merge per component, with summed counts and joined tags |
| `ClusterMerge.FactStore.ApplyMerge` | enfold/cluster_merge.py:533-552 | survivors updated, losers' rows, vectors, entity links and index entries deleted |
| `MergeTheorems.MergeConservesIff` | enfold/cluster_merge.py:397-431 | a total is conserved exactly if every fact a cluster repeats counts zero, and never falls |
| `MergeTheorems.ProjectedCountIff` | enfold/cluster_merge.py:378-384 | the projected count is met exactly if no loser is listed twice |
| `MergeTheorems.EachClusterBecomesItsSurvivor` | enfold/cluster_merge.py:533-552 | each cluster ends as its survivor, the losers are gone, other facts keep their rows |
| `MergeTheorems.DistinctFactsConserve` | enfold/cluster_merge.py:397-431 | with one vector per fact both totals, all tags and the projected count are kept |
| `MergeTheorems.PlannedIsFaithful` | enfold/cluster_merge.py:412-430 | what is planned for disjoint clusters of active facts carries their counts and tags |
| `MergeTheorems.RepeatedFactDoubles` | enfold/cluster_merge.py:227-270 | a fact with two vectors forms a cluster of itself and its count doubles |
| `MergeTheorems.ExecuteMerge` | enfold/cluster_merge.py:458-530 | a refusal or dry run changes nothing; a real run met every guard and, with distinct ids, conserves totals and meets the projected count |
| `JsonRoundTrip.ValueRoundTrip` | enfold/protocol.py:527-545 | parsing printed canonical JSON followed by a delimiter returns the value and what follows |
| `JsonRoundTrip.StringRoundTrip` | enfold/protocol.py:533-539 | string escapes are undone, control characters included |
| `JsonRoundTrip.TextRoundTrip` | enfold/protocol.py:584-591 | the whole text of a canonical value parses to it |
| `JsonRoundTrip.PrintNoControls` | enfold/protocol.py:533-539 | printed JSON holds no raw control character |
| `JsonStrict.ParsedIsCanonical` | enfold/protocol.py:584-591 | whatever the parser accepts is canonical: keys sorted without repetition, float tokens whole |
| `JsonStrict.InsertRefusesRepeats` | enfold/protocol.py:552-558 | a member is refused exactly when its key is already there |
| `Dictionary.FieldsOfSorted` | enfold/protocol.py:533-539 | `sort_keys` lists the members in strictly ascending order |
| `Dictionary.DictOfFieldsOf` | enfold/protocol.py:552-558 | reading the sorted members back gives the dictionary |
| `Dictionary.ObjOfWithin` | enfold/protocol.py:138-158 | an object is within a depth exactly when its values are within one level less |
| `Scanner.ExtractJsonArray` | enfold/llm_extract.py:180-211 | the loop returns the first balanced array of the specification |
| `Scanner.ExtractJsonObject` | enfold/reflection.py:338-368 | the same scan for objects |
| `Scanner.ScannerRecovers` | enfold/llm_extract.py:180-211 | for every prefix without the bracket and every suffix the scan returns exactly the JSON text, in any layout the parser accepts |
| `Scanner.PrintedArrayIsRecovered` | enfold/llm_extract.py:180-211 | in particular every printed array |
| `Scanner.PrintedObjectIsRecovered` | enfold/reflection.py:338-368 | and every printed object |
| `Scanner.BracketedWordWins` | enfold/llm_extract.py:187-190 | a bracketed word in the prose is returned instead, so the prefix condition is needed |
| `Scanner.SkipValue` | enfold/llm_extract.py:194-210 | scanning a parsed value from inside brackets comes out after it at the same depth |
| `ProtocolRoundTrip.ReadBackFrame` | enfold/protocol.py:303-474 | `from_dict` undoes `to_dict` on every valid frame |
| `ProtocolRoundTrip.FrameShape` | enfold/protocol.py:138-158 | a frame is within depth 32 exactly when the caller's values fit inside it |
| `ProtocolRoundTrip.EncodingIsOneLine` | enfold/protocol.py:527-545 | exactly one raw newline, the last byte, and the size limit is kept |
| `ProtocolRoundTrip.LineDecodes` | enfold/protocol.py:561-613 | the exact result of decoding an encoded frame, errors included |
| `ProtocolRoundTrip.RoundTripIff` | enfold/protocol.py:527-613 | the round trip holds exactly for major 1 and values that fit |
| `ProtocolRoundTrip.DeepestParamsDoNotDecode` | enfold/protocol.py:383-398 | params nested exactly 32 deep encode and do not decode |
| `ProtocolStrict.DecodedIsValid` | enfold/protocol.py:561-613 | every decoded frame is one the constructors leave unchanged, of the supported major version |
| `ProtocolStrict.DecodedSurvivesRoundTrip` | enfold/protocol.py:527-613 | however the text was laid out, the decoded frame survives encoding and decoding |
| `ProtocolStrict.UnhashableIff` | enfold/protocol.py:598-610 | the undeclared exception arises exactly for a shallow object whose type is an array or object |
| `ProtocolStrict.PrintedUnhashable` | enfold/protocol.py:598-610 | every printed shallow object with such a type raises it |
| `ProtocolStrict.UnhashableText` | enfold/protocol.py:598-610 | `{"type":[]}` raises it under every limit of at least eleven bytes |
| `Framing.ServeClient` | enfold/daemon.py:397-443 | events are a function of the concatenated bytes, so of no split |
| `Framing.DrainBuffer` | enfold/daemon.py:417-443 | the inner loop hands over complete frames in order and leaves an unfinished line within the limit |
| `Framing.FramesReachTheHandler` | enfold/daemon.py:417-443 | every complete frame within the limit reaches the handler unchanged, in order |
| `Framing.LongLineIsRefused` | enfold/daemon.py:418-438 | the too-large error comes exactly at the first line over the limit, finished or not |
| `Framing.Receive` | enfold/client.py:168-183 | the client's loop, as a function of the pieces |
| `Framing.LineIsReceived` | enfold/client.py:168-183 | one line within the limit is received whole however it is split |
| `Framing.SecondFrameInTheSamePiece` | enfold/client.py:175-179 | a second frame is an error only when it arrives in the same piece |
| `Connection.HandshakeComesFirst` | enfold/daemon.py:453-538 | on every byte stream, and whatever application and socket do at each frame, the application is called only after an accepted handshake, under its context, protocol and schema, for a capability both sides offered |
| `Connection.StepIsGuarded` | enfold/daemon.py:453-568 | one frame keeps the negotiated connection compatible |
| `Connection.ClientReceivesEveryFrame` | enfold/client.py:168-183 | every encoded frame is received under the same limit for every split |
| `Connection.DaemonReceivesEveryFrame` | enfold/daemon.py:417-443 | every encoded frame reaches the handler |
| `Vectors.CauchySchwarz` | enfold/hybrid_retrieval.py:628-641 | the inequality that bounds the cosine |
| `Vectors.CosineBound` | enfold/hybrid_retrieval.py:628-641 | cosine similarity lies between -1 and 1 |
| `VectorIndex.UpsertKeepsSyncIff` | enfold/embed_store.py:164-196 | with the current handle an upsert keeps the index in step except exactly when it gives an indexed fact a vector of another dimension |
| `VectorIndex.DeleteKeepsSync` | enfold/embed_store.py:198-212 | a delete keeps the index in step |
| `VectorIndex.DeleteWithoutHandleIff` | enfold/embed_store.py:203-206 | without a handle it does so exactly when the fact was not indexed |
| `VectorIndex.PruneKeepsSync` | enfold/embed_store.py:214-247 | pruning identities keeps the index in step |
| `VectorIndex.PreparedUpsertKeepsSync` | enfold/hybrid_retrieval.py:414-432 | the backend's upsert keeps the index in step |
| `VectorIndex.RebuildMakesSync` | enfold/sqlite_vec_index.py:234-302 | a rebuild succeeds exactly when every vector of the identity has the dimension, and then mirrors the table |
| `VectorIndex.RunKeepsSync` | enfold/embed_store.py:164-247 | no sequence of writes of the right dimension through the handle takes the index out of step |
| `EmbedStore.OpKeepsOneVector` | enfold/embed_store.py:164-247 | no write gives a fact two vectors of one identity |
| `EmbedStore.SyncedIndexOpens` | enfold/sqlite_vec_index.py:103-159 | an index in step opens exactly when identity and dimension are those asked for |
| `EmbedStore.Store.Upsert` | enfold/embed_store.py:164-196 | row, index entry and an empty cache |
| `EmbedStore.Store.Delete` | enfold/embed_store.py:198-212 | all rows of the fact and its index entry go, and the cache is empty |
| `EmbedStore.Store.PruneIdentities` | enfold/embed_store.py:214-247 | refuses an empty keep list, counts the rows removed; the cache stays valid although it is dropped only if a row went |
| `EmbedStore.Store.EmbeddingMatrix` | enfold/embed_store.py:293-358 | cached or not, the ids and the normalised rows are those the table selects now for the document identity |
| `EmbedStore.NormalisedRowIsUnit` | enfold/embed_store.py:350-352 | every row that does not vanish is scaled to length 1 |
| `Retrieval.ScoresOf` | enfold/sqlite_vec_index.py:166-205 | batch by batch, all candidates are scored or the query fails; exactly when |
| `Retrieval.IndexScoresAreBrute` | enfold/hybrid_retrieval.py:855-883 | whatever an index in step scores, the canonical vectors score the same and can be loaded |
| `Search.HybridSearch` | enfold/hybrid_retrieval.py:809-944 | with the index, after its fallback or by brute force: always the brute-force answer, and that answer is sound for its caller |
| `Search.SameAnswer` | enfold/hybrid_retrieval.py:855-883 | a search with the index in step and one without it return the same |
| `Search.BruteAnswerIsSound` | enfold/hybrid_retrieval.py:855-944 | from the vectors to the answer: ordered hits between floor and bound, none left out but behind the last, and a clear lead |
| `Search.ScoreWithinBound` | enfold/hybrid_retrieval.py:888-914 | every score lies between 0 and the bound of its configuration |
| `Search.BoundIsReached` | enfold/hybrid_retrieval.py:888-914 | some candidate reaches the bound |
| `Search.ScoresInUnitIff` | enfold/hybrid_retrieval.py:61-95 | all scores lie in the unit interval exactly when the bound is at most 1 |
| `Search.BoundNearOne` | enfold/hybrid_retrieval.py:75-78 | the bound is at most 1 if the relevance weights sum to at most 1, and never above 1.0000000011 |
| `Search.ScoreAboveOne` | enfold/hybrid_retrieval.py:75-76 | an accepted configuration with a score above 1 |
| `Search.RankedHitsAreRight` | enfold/hybrid_retrieval.py:888-932 | the ranked hits are ordered and are exactly the candidates that reach the floor |
| `Search.AnswerIsSound` | enfold/hybrid_retrieval.py:932-944 | answers are ordered, between floor and bound, within the limit, and keep the ambiguity margin |
| `Search.BruteScoresInUnit` | enfold/hybrid_retrieval.py:893-897 | dense scores lie in the unit interval |
| `History.FactTable.Supersede` | enfold/temporal.py:216-239 | only a valid fact gets a link, and keeps it for good |
| `History.WalkBackward` | enfold/temporal.py:262-276 | the first loop ends, also on cycles, with exactly the facts that reach the start |
| `History.WalkForward` | enfold/temporal.py:277-295 | the second loop ends with exactly the related facts, also at dangling links |
| `History.FactHistory` | enfold/temporal.py:242-297 | sorted by creation and id, exactly the facts that reach the given one or are reached from it |
| `History.UniformIff` | enfold/temporal.py:242-250 | every member tells the same history exactly if no two facts merge |
| `History.UniformIffOnePredecessor` | enfold/temporal.py:242-250 | with replacements always newer: exactly if no fact replaced two others |
| `History.TwoOriginsDisagree` | enfold/temporal.py:242-250 | two facts replaced by one do not know of each other |
| `ContextPacking.TruncateToBudget` | enfold/context.py:178-198 | the binary search finds the longest cut that fits |
| `ContextPacking.StrippedGrows` | enfold/context.py:190-197 | the stripped length is monotone in the cut, which makes the search sound |
| `ContextPacking.FittedIsMaximal` | enfold/context.py:178-198 | no cut keeps more and still fits |
| `ContextPacking.MmrSelect` | enfold/context.py:107-127 | every pick is the best of the facts not picked before, the earliest among equals |
| `ContextPacking.KeptLineFits` | enfold/context.py:253-277 | a kept line fits with everything before it, so the defensive check never fires |
| `ContextPacking.PackedKeepsOk` | enfold/context.py:239-286 | one fact keeps the budget, the account of facts and one fact per slot |
| `ContextPacking.PackRanked` | enfold/context.py:239-286 | the packing loop, with the defensive branch proved dead |
| `ContextPacking.PackContext` | enfold/context.py:208-298 | bad options are refused; otherwise the budget holds, selected, omitted and unsafe add up, one fact per state slot, and the block lists the selection in rank order |

## Left out

- SQLite, FTS5 and sqlite-vec themselves: tables are maps or sequences, transactions atomic steps, the vec0 distance 1 minus cosine over the reals.
- Floating point: scores, similarities and recency are reals; a JSON float is the token that prints it.
- Heartbeat threads and timeouts: renewals are steps of a run at arbitrary times; a socket timeout ends a byte stream.
- `ExtractionRuns.Apply`: the envelope decoder, the proposal normaliser and the screening in `_prepare_snapshot` are arbitrary functions of the payload and batch; their regular expressions and field rules are not modelled.
- The extraction queue and the older queue share a table in the code; each is modelled on rows of its own.
- Fact erasure (enfold/erasure.py) is not a step of the outbox machine; it can reactivate a fact without enqueueing it, and the startup backfill restores coverage.
- UTF-8 decoding, lone surrogates in JSON strings, and Python's limit on the digits of an integer; payload caps count characters.
- `Framing.ServeClient`: replies are events; what a failed send does is a parameter of the handler.
- `EmbedStore.Store.EmbeddingMatrix`: a writer on another connection is not seen by the cache, as in the code; lengths are exact real norms.
- `Retrieval.ScoresOf`: works on one index table value; opening, loading the extension and non-finite values are left out.
- `Search.HybridSearch`: eligibility, named-anchor and trust filters decide the candidate list before it starts, and MMR vectors are attached after it.
- `Clusters.BuildClusters`: takes the similarity matrix; its computation from stored vectors is left out.
- `History.FactHistory`: returns the ids of the rows; creation times compare as strings by code point.
- `ContextPacking.PackContext`: similarity and the line prefix are parameters, and every fact carries a numeric score.
- Write-time near-duplicate detection, reflection, typed-field normalisation, quota error texts, health reports, configuration, MCP and command lines.
