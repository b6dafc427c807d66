# Ingest service: model and proofs

A Dafny model of an on-prem document ingest service with an admin API, and proofs about it. Four parts:

* **The resumable ingest pipeline** (`ingest/pipeline.py`). `PipelineModel.Tick` is one durable effect of
  one attempt on one job: a checkpoint written, a row advanced, an ACL read, one embedding call, one point
  put. `CrashMachine` lets many jobs' attempts interleave effect by effect, with commits of the session's
  row anywhere in between, crashes that lose the uncommitted row while files and points stay, crashes in
  the middle of a checkpoint write that leave anything at its path, and ACL edits. `CrashInvariant` carries
  one invariant through every history; `CrashTheorems`, `PointProvenance`, `FailClosed`, `AttemptEffects`
  and `ResumedFailures` draw the promises from it, `IndexedTexts`, `RetryCounts` and `FailureProgress`
  tell in numbers what a reader of the index and of a job row sees, and `Rollbacks` lets rows be set back
  further than any crash does. `Pipelines` is the program itself on mutable stores, each method proved to do what the machine does (`AttemptSteps.AttemptIsRun` joins the two).
* **Windows and identity** (`ingest/chunking.py`, `ingest/tokenizer.py`): `Windows`, `Chunking`, `Identity`,
  `FakeTokenizers`.
* **Keyset pages and the two-table store** (`admin/document_store.py`, `audit/event_store.py`): the cursor
  codec down to its characters (`Cursors`), pages (`Keysets`, `KeysetPages`), walks under concurrent change
  (`KeysetWalks`, `DocumentWalks`), both document stores and their agreement (`DocumentStores`,
  `SqlDocumentStores`, `StoreAgreement`), both audit stores (`AuditStores`).
* **The transaction seam** (`api/ingest_routes.py`): sessions over tables (`Databases`), the upload, its
  background task and the admin edit (`IngestRoutes`, `AdminRoutes`), and what every reachable state of
  the tables guarantees them (`Seam`).

Where the code and its documentation differ, the model follows the code:

* `ingest/pipeline.py:95-98` says a resume goes on from the last completed step. A resume of a `failed` job
  matches no step and falls through to `complete`. The readiness theorems speak of jobs no attempt was
  started on while they were `failed`; `ResumedFailures` shows why they must, and exactly when success
  means indexed.
* `SqlAlchemyDocumentStore.update_document` has sent the document's UPDATE by the time it notices a missing
  version, while the in-memory store refuses first. The stores agree because the request then closes its
  session without a commit (`AdminRoutes.PutDocument`).
* The in-memory store stamps `updated_at` on every update, the SQL one only when a `documents` column
  changes (`StoreAgreement.StampsAgreeIff`).

What is taken for granted: parsing, the production tokenizer and the two embedding models answer the same
question the same way; uuid5 (section 5.5 of RFC 9562) has no collisions inside the chunker's namespace, so
a chunk id is as good as its name; uuid4 returns ids not in use; checkpoint dictionaries survive their JSON
round trip. Whether a call to the embedding services is answered, cut off or refused, and where an index
write breaks off, are scripts that may say anything. The jitter is any draw between zero and the ceiling.
Random ids and the current time are parameters. `resumedFailed`, `aclLog` and `aclsSince` in
`CrashMachine.State` only record the past. An upload's document id is its job id, so jobs of different
uploads have different identities, which is what `CrashMachine.Enabled` asks of a new job.

`hide` statements in proofs only keep definitions a proof does not need out of the solver's way.

## Model

| member | source | states |
|---|---|---|
| `CrashTheorems.ReadyMeansIndexed` | ingest/pipeline.py:102-221 | in every state reachable by interleaved attempts, crashes, torn checkpoint writes and ACL edits, a job that says `ready` and was never resumed while `failed` has exactly its chunks' points in the index -- the windows of the text its file parses to -- with the right ids, texts, sequence numbers and vectors, all under one logged read of its ACL |
| `IndexedTexts.ReadyMeansWholeText` | ingest/pipeline.py:148-221 | in numbers: after every history an honestly ready job has a point for every 896 tokens begun of the text its file parses to, numbered k and holding the decoded tokens 896 k to 896 k + 1024, and no point beyond; none for an empty text |
| `IndexedTexts.IndexGivesTextBack` | ingest/pipeline.py:184-221 | with one token per word, the texts of a ready job's points without their overlaps join up to the parsed text; for any tokenizer, the stored vectors are those of these texts, in this order |
| `CrashTheorems.CrashConvergence` | ingest/pipeline.py:8-15 | whatever was cut, rolled back or retried before, a ready job has the row (but for `retry_count`), the checkpoint files and the points that one uninterrupted run on empty stores leaves, and that run succeeds whenever the embedding services and the index let it |
| `CrashTheorems.ComparisonRunSucceedsIff` | ingest/pipeline.py:102-128 | the uninterrupted run succeeds if and only if the document parses, an answer comes within the retry budget, both services answer for every chunk, and the index takes every point |
| `Rollbacks.ReadyAfterRollbacks` | ingest/pipeline.py:8-15 | both still hold when job rows are set back, as often as one likes, to any value that was durable before |
| `CrashTheorems.ResumeSucceedsIff` | ingest/pipeline.py:86-128 | no history strands a job: a new attempt on a job that has not ended succeeds under exactly the conditions a first attempt would |
| `ResumedFailures.ReadyWithoutIndex` | ingest/pipeline.py:114-125 | the fall-through: two attempts on a file that does not parse end in `ready`, progress 1.0, with no checkpoint and no point |
| `ResumedFailures.SuccessMeansIndexed` | ingest/pipeline.py:110-128 | in every reachable state a successful attempt leaves its document fully indexed if and only if the job's phase was neither `failed` nor `ready` at the start, or the document was in the index already; on an ended job it writes nothing |
| `CrashTheorems.WriteAhead` | ingest/pipeline.py:142-164 | every checkpoint pointer of every durable or session row names an existing file with exactly this job's parsed text or chunks -- never one that a cut write has torn -- and no attempt ever stops for a missing or foreign checkpoint |
| `PointProvenance.EveryPointCarriesItsAcl` | ingest/pipeline.py:170-217 | after every history, every point in the index was put by one effect of an attempt on a known job, for a chunk of its document, and carries an ACL and a retention state the table has held for that identity since that very attempt began |
| `PointProvenance.PutIsFresh` | ingest/pipeline.py:174-221 | in every history an effect that puts a point puts that of one chunk, with what its own attempt has read, and changes no other point |
| `PointProvenance.OnlyPutsWrite` | ingest/pipeline.py:217-221 | no other action changes the index |
| `PointProvenance.FailedAttemptPutNothing` | ingest/pipeline.py:170-174 | however interleaved or cut, an attempt that fails with anything but a broken-off index write has put no point since it began |
| `FailClosed.FailsClosed` | ingest/pipeline.py:110-128 | in every reachable state an attempt on a job that has not ended, with a file that does not parse, no ACL row, no answer within the retry budget or answers that do not match the chunks, leaves the whole index as it is and the job `failed` with the error of that cause |
| `FailClosed.AttemptEndsAs` | ingest/pipeline.py:102-221 | how an attempt ends, from its causes alone and wherever it starts: refused with that error and no change of the index, or ready, or broken off in the index write |
| `FailClosed.RefusedIff` | ingest/pipeline.py:170-221 | there is a refusal if and only if one of those causes is there |
| `FailClosed.CausesAndErrors` | ingest/pipeline.py:174-193 | which cause gives which error: ACL lookup, transport, service, disagreeing counts, chunk count |
| `CrashTheorems.FailedAttempt` | ingest/pipeline.py:126-128 | whatever error an attempt ends with, the row says `failed` with that one error; only a broken-off index write can have touched the index |
| `FailureProgress.FailedAttemptShowsProgress` | ingest/pipeline.py:131-221 | the progress a failed job shows says how far its attempt came: 0.0 after a parse error, 0.4 (or the 0.7 of an earlier attempt) after a lookup or embedding error, 0.7 after a count mismatch or a broken-off write |
| `RetryCounts.AttemptCountsRetries` | ingest/pipeline.py:259-270 | an attempt that succeeds or runs out of retries leaves in `retry_count` the number of its calls that were cut off and tried again, at most five, or the count it found if there were none |
| `AttemptEffects.AttemptWrites` | ingest/pipeline.py:174-221 | a successful attempt puts exactly its document's points over the index, each with the ACL and retention state this attempt read, and touches no other point |
| `AttemptEffects.ReingestIsIdempotent` | ingest/pipeline.py:217-221 | where the points are in the index already under the same ACL, another successful attempt leaves the whole index as it is |
| `CrashTheorems.EmbeddingSeesTextOnly` | ingest/pipeline.py:184-189 | over two systems with different identities, ACLs and retention states, jobs on the same file send the same texts for embedding |
| `CrashTheorems.VectorsDependOnTextOnly` | ingest/pipeline.py:193-216 | and the vectors, texts and numbers stored at each sequence number are the same |
| `CrashTheorems.RowsCoupled` | ingest/job_store.py:109-132 | in every reachable state phase, status and progress of a row fit together |
| `CrashTheorems.PollsMoveForward` | api/ingest_routes.py:161-181 | over any continuation of any history, progress and the polled status never move backwards, a ready job stays ready, and no checkpoint pointer is dropped |
| `ApiStatuses.MapPhaseToStatus` | api/ingest_routes.py:161-181 | pending, indexing, ready and failed each have a status of their own; only the two steps before indexing share one |
| `CrashInvariant.InvAlways` | ingest/pipeline.py:102-128 | the invariant behind these: it holds after every history |
| `PipelineInvariant.TickKeeps` | ingest/pipeline.py:131-221 | every single effect of every attempt keeps its job's invariant |
| `AttemptRuns.AttemptSucceedsIff` | ingest/pipeline.py:110-125 | wherever an attempt starts, it succeeds under the same exact conditions |
| `AttemptRuns.EndedAttemptFallsThrough` | ingest/pipeline.py:114-125 | an attempt on a `ready` or `failed` job reports success and changes the row alone |
| `AttemptRuns.FailureLeavesIndex` | ingest/pipeline.py:170-174 | nothing before the upsert writes to the index |
| `AttemptSteps.AttemptIsRun` | ingest/pipeline.py:110-128 | the three steps run one after the other are the effect-by-effect machine's uninterrupted run |
| `Pipelines.PipelineDependencies.RunPipeline` | ingest/pipeline.py:102-128 | one attempt on the mutable stores: they end up, and it raises, exactly as the machine's run says; an unknown job raises and touches nothing |
| `Pipelines.PipelineDependencies.RunParseStep` | ingest/pipeline.py:131-145 | checkpoint first, pointer second; a parse failure writes neither |
| `Pipelines.PipelineDependencies.RunChunkStep` | ingest/pipeline.py:148-164 | one chunk for every 896 tokens begun of the parsed checkpoint's text, 1024 tokens long or to the end, stored and then pointed to; a missing or foreign checkpoint raises |
| `Pipelines.PipelineDependencies.RunEmbedAndIndexStep` | ingest/pipeline.py:167-221 | reads, embedding, advance and upsert in this order, every failure leaving what came before it |
| `Pipelines.PipelineDependencies.EmbedWithRetry` | ingest/pipeline.py:224-270 | for every retry budget, base and cap: the first call that is not a transport error decides, among at most budget + 1; after n retries `retry_count` is n, the status in progress and every other key as before, without any the row is untouched; n + 1 calls are made, and the sleep stays within min(budget * cap, base * (2^(budget+1) - 2)) |
| `Pipelines.PipelineDependencies.IngestDocument` | ingest/pipeline.py:67-83 | an unsupported extension is refused before any row exists; otherwise a new job runs |
| `Pipelines.SupportedIff` | ingest/pipeline.py:77 | accepted are exactly the names ending in .md, .txt, .pdf or .docx, in any case of letters |
| `Pipelines.PipelineDependencies.ResumeIngestJob` | ingest/pipeline.py:86-99 | a resume is an attempt on the row that is there; on an unknown job it raises and touches nothing |
| `JobStores.InMemoryJobStore.Advance` | ingest/job_store.py:122-124 | the updates laid over the payload, status in progress, other rows untouched |
| `JobStores.MergeLaws` | ingest/job_store.py:122-132 | merging nothing changes nothing, merging twice is merging once, the later of two updates wins key by key, and no pointer is lost |
| `JobStores.MergeKeyByKey` | ingest/job_store.py:122-124 | each of the seven keys: the value given if the update holds it, the one there before if not |
| `JobStores.InMemoryJobStore.MarkComplete` | ingest/job_store.py:126-128 | phase `ready`, progress 1.0, status complete, every other key -- retry count and parser fallback included -- as it was |
| `JobStores.InMemoryJobStore.Fail` | ingest/job_store.py:130-132 | phase `failed` with this one error, status failed, every other key as it was |
| `JobStores.InMemoryJobStore.CreateJob` | ingest/job_store.py:109-114 | a pending row at progress 0 under a new id |
| `JobStores.SqlAlchemyJobStore.CreateJob` | ingest/job_store.py:65-71 | the same row over the `job_queue` table |
| `JobStores.SqlAlchemyJobStore.Advance` | ingest/job_store.py:79-82 | the same promise as the in-memory store, over the `job_queue` rows; an unknown job raises |
| `JobStores.SqlAlchemyJobStore.MarkComplete` | ingest/job_store.py:84-87 | the same over the `job_queue` rows; an unknown job raises |
| `JobStores.SqlAlchemyJobStore.Fail` | ingest/job_store.py:89-92 | the same over the `job_queue` rows; an unknown job raises |
| `Checkpoints.CheckpointPathInjective` | ingest/checkpoints.py:23-31 | files of different jobs or steps never share a path |
| `Checkpoints.CheckpointDir.WriteCheckpoint` | ingest/checkpoints.py:23-31 | the file named after this job and step is replaced, no other |
| `Checkpoints.CheckpointDir.ReadCheckpoint` | ingest/checkpoints.py:34-35 | what was last written at the path, or an error |
| `Embeddings.PairAnswers` | ingest/embedding.py:122-134 | dense and sparse answers paired by position, refused when their counts differ |
| `Embeddings.CallResult` | ingest/embedding.py:122-134 | only an unreachable service gives the error that is retried |
| `VectorIndexes.VectorIndex.Upsert` | ingest/pipeline.py:217-221 | points written under their ids, all of them or, when the write breaks off, a prefix |
| `AclLookups.SqlAlchemyAclLookup.GetEffectiveAcl` | acl/ingest_stub.py:49-55 | the ACL columns of the identity's version row, an error when there is none |
| `AclLookups.SqlAlchemyAclLookup.GetRetentionState` | acl/ingest_stub.py:57-58 | the retention state of that row, an error when there is none |
| `AclLookups.FakeAclLookup.Seed` | acl/ingest_stub.py:78-81 | both dictionaries hold the identity's values, the rest untouched |
| `AclLookups.FakeAclLookup.GetEffectiveAcl` | acl/ingest_stub.py:83-88 | what was seeded, an error otherwise: fail-closed |
| `AclLookups.FakeAclLookup.GetRetentionState` | acl/ingest_stub.py:90-95 | what was seeded, an error otherwise |
| `Retry.ComputeBackoffDelay` | ingest/retry.py:21-27 | for every draw a delay between zero and the capped exponential |
| `Retry.ExponentialIsPower` | ingest/retry.py:26-27 | the uncapped ceiling is `base * 2**attempt` |
| `Retry.DelayRange` | ingest/retry.py:26-27 | no draw gives no delay and a full draw exactly min(cap, base * 2**attempt) |
| `Retry.NextSleep` | ingest/retry.py:21-27 | retry m sleeps its draw's part of min(cap, base * 2^m), the first retry counting as 1 |
| `Retry.FullDrawsSleep` | ingest/retry.py:17-27 | with full draws at the shipped settings the retries sleep 1, 2, 4, 8 and 16 seconds, and from the seventh on any would sleep 60 |
| `Retry.TotalDelayBound` | ingest/retry.py:17-27 | m retries sleep at most min(m * cap, base * (2^(m+1) - 2)), for every base, cap and draw |
| `Retry.SleepWithinBound` | ingest/retry.py:17-27 | however many retries of a budget are used, and however the draws fall, they sleep at most what the budget allows |
| `Retry.DefaultSleepBound` | ingest/pipeline.py:53 | at the shipped settings that is 31 seconds |
| `Chunking.SplitIntoChunks` | ingest/chunking.py:47-76 | the loop terminates for overlap < size and gives window k, decoded, as chunk k under its own id; nothing for an empty text or no tokens |
| `Chunking.ShippedWindows` | ingest/chunking.py:29-76 | at the shipped settings, in numbers: chunk k holds tokens 896 k to 896 k + 1024 or the end, under the id of `document:version:k`, one chunk for every 896 tokens begun |
| `Windows.StepsIsCeiling` | ingest/chunking.py:61-76 | there are exactly ceil(n / (size - overlap)) windows |
| `Windows.Reassembly` | ingest/chunking.py:61-76 | the windows' first size - overlap tokens, or the first window and the later ones without their first `overlap`, give the token list back |
| `Windows.RunInsideOneWindow` | ingest/chunking.py:29-30 | any overlap + 1 consecutive tokens lie inside one window |
| `Windows.TokenMultiplicity` | ingest/chunking.py:61-76 | every token is in at least one and at most ceil(size / step) windows |
| `Chunking.AtMostTwoChunks` | ingest/chunking.py:29-30 | at the defaults 1024 and 128 that is at most two |
| `Windows.TotalLength` | ingest/chunking.py:61-76 | the overlap costs at most `overlap` tokens for every window after the first |
| `Chunking.TextsIgnoreIdentity` | ingest/chunking.py:55-76 | chunk texts do not depend on the document's identity |
| `Identity.ChunkNameInjective` | ingest/chunking.py:42-44 | different (document, version, sequence) triples get different names, colons in the version included |
| `Chunking.ChunkIdsDistinct` | ingest/chunking.py:42-44 | chunk ids agree if and only if document, version and sequence do |
| `Chunking.ChunkTextsReassemble` | ingest/chunking.py:55-76 | with one token per word, the stored chunk texts without their overlaps join up to the document |
| `FakeTokenizers.FakeTokenizer.Encode` | ingest/tokenizer.py:55-63 | the two maps stay mutually inverse with ids 0..k-1, the ids stand for the words of the text, and no earlier id changes its word |
| `FakeTokenizers.DecodeOfEncode` | ingest/tokenizer.py:65-66 | decode(encode(t)) == t for every text, empty words included, now and after any further growth |
| `FakeTokenizers.FakeTokenizer.ChunkText` | ingest/chunking.py:55-76 | the chunker with this tokenizer, learning as it goes: its chunk texts without their overlaps join up to the text, for every text |
| `FakeTokenizers.FrozenKnowsText` | ingest/tokenizer.py:39-66 | on texts whose words are known the tables act as a tokenizer with one token for every word |
| `Words.JoinOfSplit` | ingest/tokenizer.py:55-66 | splitting at spaces and joining gives every text back |
| `Words.SplitOfJoin` | ingest/tokenizer.py:65-66 | joining words without spaces and splitting gives the words back |
| `Cursors.DecodeOfEncodeCursor` | admin/document_store.py:117-136 | a cursor decodes to exactly the timestamp and id it was made from |
| `Cursors.EncodedCursorIs` | admin/document_store.py:117-121 | a cursor is the base64url of that JSON object with the ISO text of the timestamp and the text of the id, in URL-safe characters |
| `Cursors.AcceptedIsWellFormed` | admin/document_store.py:124-136 | accepted are exactly the cursors behind which there is such a JSON object, with the key in it; every other is malformed |
| `Base64url.DecodeOfEncode` | admin/document_store.py:121 | base64url, all three group lengths |
| `Base64url.EncodeIsUrlSafe` | admin/document_store.py:121 | letters, digits, `-`, `_` and padding only, four for every three bytes begun |
| `Timestamps.FromIsoFormatOfIsoFormat` | admin/document_store.py:118-131 | ISO text of every valid timestamp, with and without fraction and UTC offset |
| `Timestamps.IsoFormatOfFromIsoFormat` | admin/document_store.py:131 | no text parses but that of a timestamp, or that with a zero fraction spelled out |
| `Timestamps.IsoLayout` | admin/document_store.py:119 | where the separators of an ISO text stand and how long it is |
| `Timestamps.InstantOrders` | admin/document_store.py:386-392 | timestamps compare field by field, the year first |
| `Uuids.ParseText` | admin/document_store.py:132 | the text form of every UUID |
| `Uuids.TextOfParse` | admin/document_store.py:132 | and no other text parses |
| `Uuids.TextLayout` | admin/document_store.py:119 | lower-case digits in groups of 8, 4, 4, 4 and 12 |
| `Keysets.PeekSuffices` | admin/document_store.py:217-236 | `_paginate` on limit + 1 rows answers as on all rows |
| `Keysets.KeepOfListing` | admin/document_store.py:252-260 | filtering sorted rows is sorting filtered rows |
| `Keysets.ListingUnique` | admin/document_store.py:386-388 | the sort order leaves one list only |
| `Keysets.DescendingIsLatestFirst` | admin/document_store.py:386-392 | the order of the lists, field by field: the later timestamp first, year, month and so on down to the microsecond, and of equal ones the larger id |
| `KeysetPages.FetchIsRight` | admin/document_store.py:217-236 | told without sort or filter: a page holds rows that come after the cursor, latest first, at most `limit`; a due row is left out only if it comes after all that are shown and the page is full; there is a cursor, for the last row shown, exactly when one is left out; a malformed cursor is refused |
| `KeysetWalks.WalkDescends` | admin/document_store.py:10-17 | for any tables between the fetches, the rows shown by a walk strictly descend |
| `KeysetWalks.WalkLatestFirst` | admin/document_store.py:10-17 | field by field: whatever is written between the fetches, each row shown is later than the next, or as late with a larger id, and all come after the first cursor's key |
| `KeysetWalks.WalkShows` | admin/document_store.py:10-17 | a finished walk shows a row present at its start if and only if it is under the first cursor |
| `KeysetWalks.NoRowTwice` | admin/document_store.py:10-17 | and no row twice, not even an edited one |
| `KeysetWalks.ShownIsShownOnce` | admin/document_store.py:10-17 | what a walk shows it shows at one place only |
| `KeysetWalks.InsertedMidWalk` | admin/document_store.py:10-17 | a row inserted between two fetches is shown if and only if its key is below the cursor at that moment |
| `KeysetWalks.ShownFromFetch` | admin/document_store.py:217-236 | the same from any fetch on, for every row that is there |
| `KeysetWalks.PagesShowTheirTable` | admin/document_store.py:217-236 | every page shows rows as they are at its fetch |
| `KeysetWalks.FixedTableWalk` | audit/event_store.py:76-91 | on fixed rows a walk is finished exactly when it has made max(1, ceil(N / limit)) fetches; its pages then concatenate to the sorted rows, all but the last full, no trailing page empty |
| `KeysetWalks.PagesNeededIsCeiling` | audit/event_store.py:76-91 | the fetch count is that ceiling |
| `KeysetWalks.WalkFollows` | admin/document_store.py:252-267 | following the cursors always gives a walk, which stops only at its end or for want of another fetch |
| `DocumentWalks.BrowseUnderChange` | admin/document_store.py:217-236 | for every interleaving of upload commits, `update_document` commits and background commits with the fetches, a finished walk over the joined tables shows every document that was there at its start exactly once, the latest created first and the larger id first among those created together |
| `DocumentWalks.UploadMidWalk` | admin/document_store.py:217-236 | an upload between two fetches is shown, once, if and only if it comes after the last document seen: created earlier, or at the same time with a smaller id |
| `Seam.PostedView` | api/ingest_routes.py:274-300 | an upload adds to the admin list exactly its one document, with the ACL that was sent |
| `DocumentStores.AclUpdateValues` | admin/document_store.py:156-186 | the SET values are the fields given; in the merged ACL each of the four fields is what is given, or what it was if nothing is |
| `DocumentStores.OverlayLaws` | admin/document_store.py:97-110 | an empty update changes nothing, an update twice is an update once, every field given is found afterwards and every field not given, the ids and the creation time among them, is what it was |
| `DocumentStores.UpdateIsRight` | admin/document_store.py:278-357 | field by field for every update: who is refused with what and without a change; what an accepted one leaves of each field; which stamp each store gives; no other summary changes |
| `DocumentStores.FakeDocumentStore.ListDocuments` | admin/document_store.py:385-394 | the right page in the sense of `KeysetPages.FetchIsRight`, latest `created_at` first, or a malformed-cursor error |
| `DocumentStores.FakeDocumentStore.UpdateDocument` | admin/document_store.py:399-429 | field by field: what is given is found, what is not stays, stamped now; unknown document and missing ACL version refused without a change |
| `SqlDocumentStores.SqlAlchemyDocumentStore.ListDocuments` | admin/document_store.py:252-267 | the same page, field by field, from two limited statements on the two tables |
| `SqlDocumentStores.SqlAlchemyDocumentStore.GetDocument` | admin/document_store.py:269-276 | the joined summary, if there is one |
| `SqlDocumentStores.SqlAlchemyDocumentStore.UpdateDocument` | admin/document_store.py:278-357 | the same answer as the in-memory store but for the stamp, field by field; when accepted exactly the edited tables, and on a missing version the document's UPDATE pending in the session |
| `SqlDocumentStores.ViewJoins` | admin/document_store.py:359-369 | a summary shows the columns of its row and the ACL of the one version that is committed and not superseded |
| `SqlDocumentStores.SqlListIsList` | admin/document_store.py:252-267 | LIMIT limit + 1 on documents, then the page's ACLs, equals the in-memory page of joined summaries |
| `SqlDocumentStores.EditsOverlay` | admin/document_store.py:303-345 | the two UPDATEs together lay the update over the joined summary and no other |
| `StoreAgreement.StoresAgree` | admin/document_store.py:239-429 | over every sequence of calls the SQL store's answers from its two tables (limited selects, page ACLs, UPDATEs) and the in-memory store's from its dictionary have the same pages, cursors, errors and summaries, except for `updated_at` |
| `StoreAgreement.TablesAnswerAsView` | admin/document_store.py:239-369 | over every sequence of calls the two tables answer as their joined summaries would |
| `StoreAgreement.StampsAgreeIff` | admin/document_store.py:311-317 | started alike, the two stores give equal answers throughout, `updated_at` included, if and only if no accepted update on the way leaves the `documents` columns alone at an instant other than the one stored |
| `AdminRoutes.PutDocument` | api/admin_routes.py:166-195 | a request commits a whole update, each field given and no other, or none: a missing ACL version rolls the document's UPDATE back |
| `AdminRoutes.GetDocuments` | api/admin_routes.py:138-153 | the right page of what is committed, of the clamped size and latest first; nothing is written |
| `AdminRoutes.ClampLimit` | api/admin_routes.py:144 | a page limit between 1 and 200 |
| `AuditStores.FakeAuditEventStore.ListEvents` | audit/event_store.py:142-153 | the right page, latest first, of the events that are neither before nor after the range, ends included, and are the user's if one is given |
| `AuditStores.SqlAlchemyAuditEventStore.ListEvents` | audit/event_store.py:110-126 | the same answer from one statement with LIMIT limit + 1 |
| `AuditStores.ReportIsExact` | audit/event_store.py:110-126 | the whole answer to a filter: an event is in it if and only if it is in the table, not earlier than `from`, not later than `to` and the user's; the latest first, field by field |
| `AuditStores.PagesGiveTheReport` | audit/event_store.py:76-91 | the pages of a filter concatenate to that answer, in exactly max(1, ceil(N / limit)) fetches |
| `IngestRoutes.PostIngest` | api/ingest_routes.py:312-376 | a refused upload is told the first thing wrong with it and leaves no row; an accepted one commits a pending job, one active document and its version together before its task exists, which gets the file under its own name or `upload` and finds its rows |
| `IngestRoutes.CreateDocumentAndVersion` | api/ingest_routes.py:274-300 | one active document and one committed version under it, in the session |
| `IngestRoutes.RunIngestPipeline` | api/ingest_routes.py:360-374 | the background task commits the row its attempt ends with, success or not, and its ACL lookup never fails |
| `IngestRoutes.AclIsFound` | acl/ingest_stub.py:60-64 | no attempt is refused an ACL whose version row exists |
| `IngestRoutes.GetIngestStatus` | api/ingest_routes.py:393-410 | status, progress and one fixed failure message; unknown ids answered as such |
| `Seam.SeamAlways` | api/ingest_routes.py:341-353 | in every reachable state every document has a job, every version a document, and every document exactly one committed, non-superseded version |
| `Seam.MissingVersionUnreachable` | admin/document_store.py:330-337 | so `MissingAclVersionError` is never raised |
| `Seam.UploadStaysProvisioned` | api/ingest_routes.py:355-376 | and an upload's task finds its version in every later state |
| `Seam.LookupAgreesWithAdminList` | acl/ingest_stub.py:49-58 | in every reachable state the ACL and retention state a task reads are those the admin list shows |
| `Databases.Session.Commit` | api/ingest_routes.py:184-194 | a session's writes, on top of what others committed meanwhile, become what everyone sees |
| `Databases.Session.Close` | api/ingest_routes.py:184-194 | closing without a commit undoes them |

## Left out

- Cursors.DecodeCursor: reads only the layout `encode_cursor` writes; Python's decoders also accept other spellings of the same values (upper-case UUIDs, other ISO layouts, reordered JSON, stray characters in base64), which the model reports as malformed.
- Keysets.Below: compares timestamps field by field; Python raises when one is naive and the other aware, which cannot happen inside one table and is not modelled.
- SqlDocumentStores.SqlAlchemyDocumentStore.UpdateDocument: asks for at most one current version per document, where SQLAlchemy would raise `MultipleResultsFound`; `Seam.SeamAlways` shows that the writers never produce a second one.
- Sessions see the last commit of others plus the session's own writes; row locks, serialization failures and the ORM's identity map are not modelled.
- CrashMachine.Enabled: one attempt at a time on one job; the code takes no lock on a job, and two attempts racing on one job are not modelled.
- VectorIndexes.VectorIndex.Upsert: a batch that breaks off leaves a prefix of its points; other partial outcomes of a failed call to Qdrant are not modelled.
- Chunking.SplitIntoChunks: asks for overlap < size, without which the source's loop does not terminate; its callers pass 128 and 1024.
- IngestRoutes.PostIngest: reading the upload and `resolve_index_target` cannot fail here; in the code a failure there leaves committed rows with no task scheduled.
- The job payload is a record with optional keys, and an error in it is kept as its kind, not as text.
- The agreement of index ACLs with later admin edits: `update_document` does not touch the index, so there is none to prove.
- PDF, DOCX and UTF-8 extraction, the bge-m3 tokenizer, the TEI clients, Qdrant and SQLAlchemy internals: libraries, present as functions, scripts or tables.
- FastAPI routing, request validation, response shaping, the readiness probe, the query stub, the OpenAPI snapshot: plumbing.
- Authentication in `api/auth.py`: library behaviour.
- `config/active_model_version.py`, `ingest/qdrant_setup.py`, the ORM models beyond their columns, the migrations and `tools/`: they would only add easy members.
- Everything that exists only in `specs/` (query graph, verification, change data capture, legal hold): no code decides it.
- Termination of a walk while documents keep arriving below its cursor: a walk lasts as long as they do.
