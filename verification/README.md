# RawDuck: a verified model of schema-less ingestion

RawDuck takes JSON rows with no declared schema. It infers a typed schema, evolves the target
table, and appends the rows through several concurrent stages. This project models the parts
where that can go wrong and proves what they keep.

* **Values to columns** (`Json`, `Inference`, `Kinds`, `RawTree`, `Flatten`, `Extract`, `Filling`,
  `Fits`, `NoLoss`, `MergeLoss`, `AppendLoss`, `Names`). The tree of inferred types is a join over the rows; the in-memory node
  class computes it; flattening lists its leaves under distinct names; one traversal per row
  does what walking every column's path would do; no scalar of any row is lost on the way, and
  it is said exactly which rows a merge of payloads keeps. `Kinds` says which column
  types, in which order, come of which values, and `AppendLoss` follows a scalar from the row to the
  cell of the table.
* **Schema evolution** (`ColumnTypes`, `ShapeCache`). Widening absorbs, persists and stops;
  the cache that skips the schema delta is right for exactly the payloads without JSON and list
  columns.
* **Concurrent protocols** as state machines over critical sections (`PoolProtocol`, `Pipeline`,
  `GroupCommit` with `GroupResults`, `GroupOutcomes`, `GroupVerdicts` and `GroupRuns`, `AsyncBuffers` with
  `AsyncOutcomes`). The shared objects themselves, changed in place, are the classes of
  `PoolSections`, `CommitSections`, `PipelineSections` and `AsyncBuffers.RawAsyncBuffers`; a lemma
  in each `...Sections` module says that the steps of the protocol are those methods. What begin,
  commit and rollback do to a connection's transaction is `Transactions`, for group commit and
  asynchronous inserts alike.
* **Queries** (`GroupSets`, `Projection`, `ProjectionRuns`). The plan rewrite that answers
  `count(*) GROUP BY` from a summary table, and the staleness token that guards it.
* **Payload shaping** (`Explode` with `Fanout`, `OtlpIds`, `Splitter`). Multi-level explode, the two wire
  encodings of trace ids, and the file splitter.

A run is a sequence of events; `Enabled` is the guard of a step, `Step` the state after it, and
`Run` the state after a sequence, if every step was enabled. Claims about runs quantify over
every sequence, so over every interleaving and every number of threads.

## Where the code does less than promised

Each of these has a lemma that shows it happen, and one that gives the exact condition.

* The shape cache hashes `type.id()` only. A JSON column looks like a VARCHAR column and one
  list like another, so a hit can skip a needed ALTER (`ShapeCache.LookalikeFoolsCache`,
  `ShapeCache.HitsAreSafeIffScalar`). The per-worker layout cache uses the same hash, but its
  slots depend on names alone and it is sound (`PoolProtocol.ResolveBySignature`).
* Merging payloads keeps the first payload's tree and columns. A group whose first payload has
  no columns reports success and stores nothing (`GroupRuns.EmptyFirstPayloadDropsRows`,
  `GroupOutcomes.ToldMatchesStoredIff`). Values under paths the first tree lacks go nowhere
  (`Extract.MergeLosesForeignColumn`), and at equal paths a value that does not fit the first
  payload's type becomes NULL (`MergeLoss.MergeLosesForeignValue`); `MergeLoss.MergedRowKeptIff`
  says for every row whether it survives.
* The group leader writes `done` first and the result afterwards, one field at a time and without
  the lock. A waiter that wakes in between reports success for a failed batch
  (`GroupRuns.WaiterCanMissFailure`), or the whole batch's row count as its own
  (`GroupRuns.WaiterCanReportBatchTotals`); `GroupOutcomes.ToldTheTruthIff` says when it is
  told the truth.
* A rollback without an active transaction throws (src/raw_ingest.cpp:184-188). A comment says that
  a failed attempt always leaves its transaction open (src/raw_ingest.cpp:1501-1504), but nothing
  sees to that. When a failure has already ended the transaction, the group leader's own rollback
  throws out of it, the table keeps its leader flag, and every later request waits for ever
  (`GroupRuns.FailedRollbackStrandsWaiter`, `GroupOutcomes.NobodyStrandedIff`,
  `GroupOutcomes.WedgedIff`). In an asynchronous flush the exception leaves the flush, which then
  never returns its total; in a flusher or pool thread it ends the process
  (`AsyncOutcomes.FailedCommitUnwinds`, `AsyncOutcomes.CanReturnIff`).
* Committing an invalidated transaction rolls back and returns normally
  (src/raw_ingest.cpp:203-207). A batch is then reported stored that is not
  (`GroupRuns.InvalidatedCommitReportsSuccess`, `GroupOutcomes.SuccessesStoredIff`), and a flush
  counts rows that nobody stored (`AsyncOutcomes.InvalidatedCommitCountsRows`,
  `AsyncOutcomes.FlushSettlesAll`).
* The rewrite onto a projection does not look at a FILTER clause and drops it
  (`ProjectionRuns.FilteredCountAnsweredWrong`). The comment on the projection's token says it is
  the row count at materialisation (src/raw_optimize.cpp:60); the code reads it after the table
  has been built, and a commit in between makes every rewritten count too low
  (`ProjectionRuns.OvertakenProjectAnswersWrong`). `ProjectionRuns.RewriteRightIff` is the exact
  condition for both together.
* The base64 decoder ignores the bits that padding cuts off, so it accepts texts no encoder
  writes (`OtlpIds.NonCanonicalAccepted`, `OtlpIds.CanonicalIff`). Hex ids in upper case are left
  as they are and do not meet the normalised form (`OtlpIds.UpperCaseHexIsKept`,
  `OtlpIds.HexMeetsBase64Iff`).
* A group set is written with ", " between its names and split there again, so one column named
  "a, b" comes back as two (`GroupSets.SeparatorInNameSplitsWrong`, `GroupSets.GroupSetSplitsIff`).

## Assumptions

* The two string parsers of the host database are parameters (`Inference.Temporal`); the one
  fact used is that a date also parses as a timestamp. A strict parse consumes the whole string.
* A payload hash stands for the data it is computed from: no two signatures collide.
* Two targets that are equal under case folding are written the same way.
* A storage token is not handed out twice. Commit and rollback are single steps, and rows of a
  rolled-back attempt never show. A call into the database, thrown out of or not, may leave the
  connection's transaction in any state; begin, commit and rollback do what their code says, and
  the database itself does not refuse to begin one or to roll back an open one.
* Reading or writing one number, flag or string of a request is one step.
* A connection that has just been opened has no transaction. An exception that leaves a thread
  ends the process.
* The JSON writer accepts every value; `sum` over BIGINT binds. DuckDB's `Split` drops empty
  pieces and falls back to the whole text when none is left.

## Model

| member | source | states |
|---|---|---|
| Inference.JoinCommutes | src/raw_json.cpp:658-678 | the join of two schema shapes does not depend on which comes first, through records and lists |
| Inference.JoinAssociates | src/raw_json.cpp:658-678 | nor on grouping: scalar kinds, records and lists join associatively, JSON on top |
| Inference.JoinIdempotent | src/raw_json.cpp:658-678 | joining a shape with itself changes nothing |
| Inference.MergeIsJoin | src/raw_json.cpp:734-795 | whatever a tree has absorbed, merging a value joins in exactly the shape that value has on its own, nesting cut-off and VARCHAR short cut included |
| Inference.InferIsJoin | src/raw_json.cpp:554-560 | the tree inferred from rows is the join of the rows' own shapes |
| Inference.InferIgnoresOrderAndDuplicates | src/raw_json.cpp:554-560 | two lists with the same set of rows infer the same tree up to the order of children |
| Inference.InferConcat | src/raw_json.cpp:554-560 | inferring a concatenation is joining the two inferences |
| Inference.RowBelowAll | src/raw_json.cpp:554-560 | every row's shape is absorbed by the inferred tree |
| Inference.MergeKeepsWellFormed | src/raw_json.cpp:645-656 | sibling names stay pairwise distinct at every depth |
| Kinds.InferredNodeSays | src/raw_json.cpp:698-795 | what inference finds at a place is decided by the values the rows have there: BOOLEAN, BIGINT, DOUBLE, DATE, TIMESTAMP, VARCHAR, an object, a list or JSON, each if and only if the values are so (all integers up to 2^63-1; all numbers, one of them not such an integer; strings of 8 to 40 characters from a digit that the parsers take; and so on) |
| Kinds.PlacesBelow | src/raw_json.cpp:645-656 | below a place lie exactly the members of its objects, when it has nothing else, and the elements of its lists |
| Kinds.MembersInOrder | src/raw_json.cpp:645-656 | members keep the order in which the rows first have them, at every depth |
| Kinds.NodeIsMergeFrom | src/raw_json.cpp:734-795 | inference is compositional: the node at a place is the one inferred from the values there |
| Kinds.ColumnTypeIff | src/raw_json.cpp:801-841 | a type is that of a column if and only if the values at the column's path say so, list elements included |
| Kinds.ValueColumnTypeIff | src/raw_json.cpp:859-872 | the same for the lone column of rows that are not objects |
| Kinds.LeafAtIff | src/raw_json.cpp:843-857 | leaves are the nodes at most 17 keys deep; an object with members is one only at that depth |
| RawTree.RawNode.FindChild | src/raw_json.cpp:632-643 | linear scan and hash lookup find the same child at every fanout |
| RawTree.RawNode.GetOrCreateChild | src/raw_json.cpp:645-656 | returns the existing child, or appends one new unset child and keeps the index in step with the list |
| RawTree.RawNode.MergeValue | src/raw_json.cpp:734-795 | merging in place, over an aliasing-free tree of nodes, leaves the tree the value-level merge gives |
| RawTree.InferSchema | src/raw_json.cpp:554-560 | the row loop builds the inferred tree in memory |
| Flatten.FlattenInto | src/raw_json.cpp:843-857 | the recursive walk appends the columns of the tree after what was there |
| Flatten.ColumnIsLeaf | src/raw_json.cpp:843-857 | every column is a leaf of the tree at its path, with the leaf's type |
| Flatten.LeafIsColumn | src/raw_json.cpp:843-857 | every leaf has a column |
| Flatten.PathsDistinct | src/raw_json.cpp:843-857 | no two columns share a path |
| Flatten.LeavesPrefixFree | src/raw_json.cpp:843-857 | no leaf path is a proper prefix of another |
| Flatten.ColumnIsNamed | src/raw_json.cpp:843-857 | a column is called by its path joined with dots; empty keys at the front leave nothing in the name |
| Flatten.ColumnsInOrder | src/raw_json.cpp:843-857 | columns are listed in the order of the members, at every depth |
| Flatten.SecondName | src/raw_json.cpp:876-884 | a second "a.b" becomes "a.b_1" |
| Flatten.PickName | src/raw_json.cpp:876-884 | the suffix loop ends, with the least free suffix, because every rejected name is a different one already taken |
| Flatten.FlattenSchema | src/raw_json.cpp:859-887 | the lone value column, the too-many-columns error, or the leaves with only names changed, each to the first free one |
| Flatten.RenamedDistinct | src/raw_json.cpp:876-884 | final names are pairwise distinct under case folding |
| Flatten.FlattenIsWellFormed | src/raw_json.cpp:843-887 | columns and leaves are in bijection, on prefix-free paths, under distinct names |
| Names.SuffixesNeedRoom | src/raw_json.cpp:876-884 | n rejected suffixes mean at least n names taken |
| Names.FoldIff | src/raw_json.cpp:876-884 | two names fold together if and only if they differ in the case of ASCII letters only |
| Extract.RawExtractor.constructor | src/raw_json.cpp:916-925 | the column index maps exactly the column paths |
| Extract.RawExtractor.Traverse | src/raw_json.cpp:933-953 | one walk over the value sets the slots of all columns below the node to their path lookups, and no other slot |
| Extract.RawExtractor.AssignRow | src/raw_json.cpp:955-961 | a row's slots become the path lookups in that row; other rows keep theirs |
| Extract.RawExtractor.ExtractRows | src/raw_json.cpp:927-961 | after a chunk, slot (column, row) is the lookup of that column's path in that row |
| Extract.MergeConcatenates | src/raw_ingest.cpp:223-238 | over equal column paths, extracting a merge is concatenating the two extractions |
| Extract.MergeLosesForeignColumn | src/raw_ingest.cpp:223-238 | two payloads whose merge drops the second one's only value |
| Filling.WideningIsLossless | src/raw_ingest.cpp:280-318 | what fits the inferred type without losing a scalar fits every fill-supported joined type without losing one, at any list depth |
| Filling.FillVector | src/raw_json.cpp:977-1105 | appending a batch, lists through one shared child vector, reads back cell by cell as the single-value fill, and earlier rows still read as before |
| Filling.ListReadsBack | src/raw_json.cpp:1075-1105 | offsets and lengths of list entries address exactly the elements of their own value |
| NoLoss.InferredTypeIsLossless | src/raw_json.cpp:801-841 | a value covered by a tree fills that tree's column type without losing a scalar |
| NoLoss.LeafAbove | src/raw_json.cpp:843-857 | every scalar below an opened object lies at or below a column's leaf |
| NoLoss.NothingDropped | src/raw_json.cpp:734-857 | for every payload of objects with unique keys, each scalar of each row, at any depth, is held by a cell of some column |
| NoLoss.NothingDroppedFromValueRows | src/raw_json.cpp:859-872 | rows that are not objects: the value column holds every scalar |
| NoLoss.NothingDroppedAfterWidening | src/raw_ingest.cpp:1103-1132 | the same for a scalar whose column had to be widened first, whatever the other columns are |
| Fits.LosslessIffFits | src/raw_json.cpp:977-1105 | a value keeps all its scalars in a column of a type if and only if it fits it: anything in JSON and VARCHAR, its own kind in other scalar columns, lists element by element |
| Fits.FillStores | src/raw_json.cpp:977-1105 | a filled cell is of the column type's own kind throughout, NULL exactly for an absent value or one the type does not take, holds every scalar of a value that fits, wraps an unsigned 64-bit integer to the signed one, and for a list has the elements' cells in order |
| Fits.StoresIsFill | src/raw_json.cpp:977-1105 | and no other cell is |
| Fits.WideningIsLeast | src/raw_ingest.cpp:280-318 | a type that takes the values of two types takes those of the type they are widened to |
| MergeLoss.MergedRowKeptIff | src/raw_ingest.cpp:223-238 | for every donor row and whatever types, among those the writer fills, the columns are stored at, the merge keeps all its scalars if and only if walking the row along the first payload's tree meets only values that fit their column, and nothing but empty values off it |
| MergeLoss.AbsorbedRowsAreKept | src/raw_ingest.cpp:223-238 | a donor whose own tree the first payload's tree has absorbed loses nothing in a merge stored at the inferred types |
| MergeLoss.MergeLosesForeignValue | src/raw_ingest.cpp:223-238 | two payloads with equal column paths whose merge turns the second one's value into NULL |
| AppendLoss.NothingDroppedOnAppend | src/raw_ingest.cpp:1140-1172 | once the table's columns have absorbed the payload's, each scalar of each row is held by a cell of the row appended to the table, or by the cell that was cast to a type the writer does not fill |
| AppendLoss.AppendedDonorKeptIff | src/raw_ingest.cpp:1140-1172 | a donor row of a merge keeps all its scalars in the cells of the table if and only if the first payload's columns keep it |
| ColumnTypes.WidenAbsorbs | src/raw_ingest.cpp:280-318 | the joined type absorbs the incoming inferred type |
| ColumnTypes.WidenScalars | src/raw_ingest.cpp:280-318 | scalar types widen to DOUBLE exactly as numbers, to TIMESTAMP exactly as times, and else to VARCHAR |
| ColumnTypes.WidenIntegers | src/raw_ingest.cpp:280-318 | an integer column holds after widening by BIGINT exactly the integers that it or BIGINT held |
| ColumnTypes.WidenIsJsonIff | src/raw_ingest.cpp:280-318 | between types of inference JSON arises exactly from JSON, or from a list beside something else |
| ColumnTypes.WidenExotic | src/raw_ingest.cpp:280-318 | a column of a type inference does not know changes for JSON only |
| ColumnTypes.AbsorptionPersists | src/raw_ingest.cpp:280-318 | what a column once absorbed it absorbs after any later widening |
| ColumnTypes.WidenDescends | src/raw_ingest.cpp:1103-1132 | each widening that changes the column lowers its rank |
| ColumnTypes.AltersBounded | src/raw_ingest.cpp:1103-1132 | over any run a column is rewritten at most as often as its rank allows |
| ColumnTypes.RunAbsorbs | src/raw_ingest.cpp:1103-1132 | at the end of any run the column absorbs every type ever ingested |
| ColumnTypes.WidenNarrowsForForeignIncoming | src/raw_ingest.cpp:298-304 | for an incoming type inference never yields, joining can narrow |
| ShapeCache.EvolveNative | src/raw_ingest.cpp:1103-1132 | the column loop computes the evolved schema and counts additions and widenings |
| ShapeCache.NoDeltaIff | src/raw_ingest.cpp:934-947 | an empty delta is exactly an evolution that adds, widens and changes nothing |
| ShapeCache.EvolveGrows | src/raw_ingest.cpp:1103-1132 | evolution keeps every column and adds exactly the new names |
| ShapeCache.EvolveLookup | src/raw_ingest.cpp:1103-1132 | a column of the payload ends up at the type it is widened to, or at its own when it is new |
| ShapeCache.EvolveKeeps | src/raw_ingest.cpp:1103-1132 | other columns keep their types |
| ShapeCache.WidenedIff | src/raw_ingest.cpp:1103-1132 | counted as widened are exactly the columns that were there and changed |
| ShapeCache.EvolveAbsorbs | src/raw_ingest.cpp:1103-1132 | a payload has no delta against the schema just evolved for it |
| ShapeCache.RunKeepsInv | src/raw_ingest.cpp:981-1021 | over runs of ingests, foreign ALTERs and rollbacks every cached shape is one its token's schema absorbed |
| ShapeCache.HitAgreesWithSlowPath | src/raw_ingest.cpp:981-1021 | a hit for scalar columns means the skipped delta was empty |
| ShapeCache.LookalikeFoolsCache | src/raw_ingest.cpp:212-221 | any JSON or list column has a run after which a hit is wrong |
| ShapeCache.HitsAreSafeIffScalar | src/raw_ingest.cpp:981-1021 | hits are right over every run if and only if no column is JSON or a list |
| AppendPool.WriteRow | src/raw_ingest.cpp:652-672 | writing through slots and nulling the uncovered ones gives the row appending by name gives, whatever the reused chunk held; each cell says of the value of its column what a cell of the table's type can, or is the cast of one that does, and is NULL without a value |
| AppendPool.AppendedSays | src/raw_ingest.cpp:1140-1172 | the rows appended for a sequence of batches say of every value what a cell of its column's type can, batch by batch and row by row |
| AppendPool.LayoutLookup | src/raw_ingest.cpp:374-377 | the layout's types and slots line up with the table's columns |
| AppendPool.LayoutGrows | src/raw_ingest.cpp:413-427 | publishing columns one by one gives the layout of the grown table |
| AppendPool.MissingIsSuffix | src/raw_ingest.cpp:552-559 | the snapshot of unseen columns is the table's suffix, in order and by name |
| AppendPool.LaterColumnsAreNull | src/raw_ingest.cpp:601-623 | rows appended before a column existed read NULL there |
| PoolProtocol.ResolveBySignature | src/raw_ingest.cpp:628-650 | slots depend on names only, so the coarse hash is a sound key for the layout cache |
| PoolProtocol.ExtendKeepsWorker | src/raw_ingest.cpp:601-623 | padding a worker leaves the rows of a sequential append on the wider table, and no stale layout |
| PoolProtocol.StepKeepsPadded | src/raw_ingest.cpp:413-650 | every step keeps each worker under a prefix of the published table, with rows of that width, a fresh layout cache and every queued batch covered |
| PoolProtocol.SchemaErrorUnreachable | src/raw_ingest.cpp:638-642 | in every reachable state the worker's layout, cached or recomputed, resolves every column: the missing-column throw cannot happen |
| PoolProtocol.StepKeepsConserved | src/raw_ingest.cpp:399-407 | without an error each submitted batch is queued, in one worker's hands, or appended, exactly once |
| PoolProtocol.MergedIsAppended | src/raw_ingest.cpp:432-502 | draining pads every worker to the final schema: the merged rows are those of appending the workers' batches to the final table |
| PoolProtocol.AppendedIgnoresOrder | src/raw_ingest.cpp:482-501 | as a multiset, appended rows do not depend on the order of batches |
| PoolProtocol.PoolRefinesSequentialAppend | src/raw_ingest.cpp:399-502 | for every interleaving, a drain that returns hands over exactly the rows sequential appending leaves on the final schema for all the batches the consumer was given, each cell saying what it should of its value, and their number; a failed or refused batch makes it throw |
| PoolProtocol.PoolNeverDeadlocks | src/raw_ingest.cpp:399-407 | until the drain has ended some wait predicate is true |
| PoolProtocol.EveryPoolRunEnds | src/raw_ingest.cpp:399-607 | no run is longer than five steps for each batch given, one exit for each worker and two steps of draining |
| PoolSections.RawAppendPool.Submit | src/raw_ingest.cpp:399-407 | queues the batch unless stopped, within the depth limit |
| PoolSections.RawAppendPool.PublishColumns | src/raw_ingest.cpp:413-427 | appends each column to types and slots |
| PoolSections.RawAppendPool.TakeBatch | src/raw_ingest.cpp:544-563 | takes the head of the queue with the snapshot of columns the worker lacks |
| PoolSections.RawAppendPool.Snapshot | src/raw_ingest.cpp:552-559 | types first, then each name dropped into its place, in any order of the slot map, gives the missing columns in order |
| PoolSections.RawAppendPool.WorkerFailed | src/raw_ingest.cpp:577-585 | a worker's exception stops the pool and stays recorded |
| PoolSections.StepIsItsSection | src/raw_ingest.cpp:399-585 | the protocol's steps change the shared state exactly as these methods do |
| Transactions.Connection.RawBeginTransaction | src/raw_ingest.cpp:177-182 | begins a transaction, or throws when there is one |
| Transactions.Connection.RawRollbackTransaction | src/raw_ingest.cpp:184-196 | ends the transaction, or throws when there is none |
| Transactions.Connection.RawCommitTransaction | src/raw_ingest.cpp:198-210 | throws without a transaction, rolls back an invalidated one, else leaves it to the database |
| Transactions.CommitStoresIff | src/raw_ingest.cpp:198-210 | a commit stores exactly an active transaction that the database accepts, yet returns normally for an invalidated one too; having returned, it leaves no transaction |
| Transactions.RollbackThrowsIff | src/raw_ingest.cpp:184-196 | a rollback throws exactly when there is no transaction, and leaves none |
| GroupCommit.StepKeepsOneLeader | src/raw_ingest.cpp:1459-1527 | at most one leader per table, the flag says whether there is one or one has unwound, and without the flag the queue is empty |
| GroupCommit.StepKeepsCounted | src/raw_ingest.cpp:1439-1450 | the active counter is the number of requests in flight |
| GroupCommit.StepKeepsFifo | src/raw_ingest.cpp:1452-1477 | arrival order is the settled batches, the current one and the queue, each request in exactly one of them |
| GroupCommit.StepKeepsStoredOnce | src/raw_ingest.cpp:1373-1411 | the table holds exactly the combined rows of the batches that were stored, each once, also after a retry, and no failed batch is stored |
| GroupResults.StepKeepsResults | src/raw_ingest.cpp:1507-1519 | a request object holds the first so many of its own batch's writes, in the order they are made, and an undecided one is untouched |
| GroupResults.ToldIff | src/raw_ingest.cpp:1531-1535 | reading the flag, the batch-wide figures, the row count and the error count after so many writes each gives the batch's outcome exactly when the missing writes do not matter |
| GroupResults.RunKeepsInv | src/raw_ingest.cpp:1421-1535 | all of this over every interleaving of any number of requests |
| GroupVerdicts.BadIffFatal | src/raw_ingest.cpp:1373-1411 | over every run, a batch fails if and only if an exception was thrown for it that is not forgiven, and with the message of the first one: forgiven is a transaction exception of the first attempt's ingestion or commit; not so one of a begin, of the rollback before the retry, or of the second attempt |
| GroupVerdicts.ConflictIsRetried | src/raw_ingest.cpp:1401-1409 | such an exception, when it leaves a transaction, settles nothing: no batch is settled before the next begin, whatever the run |
| GroupVerdicts.RunKeepsFigures | src/raw_ingest.cpp:223-238 | a batch's own figures are the rows ingested, and the parse errors of its first payload only |
| GroupOutcomes.ToldTheTruthIff | src/raw_ingest.cpp:1507-1535 | over every run, a settled request is told its batch's outcome if and only if it had seen the writes that matter (or what was missing was there already); one whose own rollback threw is told that instead |
| GroupOutcomes.TruthIsOwn | src/raw_ingest.cpp:1507-1519 | the truth is the request's own row and parse error counts, the batch-wide figures, or the batch's failure |
| GroupOutcomes.LeadersAreToldTheTruth | src/raw_ingest.cpp:1459-1535 | a request that led, and was not thrown out, is told its batch's outcome |
| GroupOutcomes.BatchSharesOutcome | src/raw_ingest.cpp:1507-1524 | whenever the leader holds the lock again, all requests of its batch carry the batch's outcome |
| GroupOutcomes.SuccessesStoredIff | src/raw_ingest.cpp:198-210 | over every run, a batch is reported a success without being in the table, or is bound to be, if and only if an ingestion returned normally in a transaction that had been invalidated |
| GroupOutcomes.ToldMatchesStoredIff | src/raw_ingest.cpp:1485-1519 | over every run, once all requests of a batch have been told its outcome, the counts they were told add up to the rows the batch put into the table exactly when it failed, had nothing to store, or was stored under a first payload with columns |
| GroupOutcomes.StoredIsAdded | src/raw_ingest.cpp:1373-1411 | the table is what its rounds have put in, in order |
| GroupOutcomes.NobodyStrandedIff | src/raw_ingest.cpp:1459-1527 | while a request waits, a leader holds the table and can take its next step, if and only if no leader has unwound |
| GroupOutcomes.WedgedIff | src/raw_ingest.cpp:1493-1506 | over every run, a leader has unwound, or is bound to, if and only if an ingestion, or a commit that failed, left it without a transaction |
| GroupOutcomes.StrandedForever | src/raw_ingest.cpp:1493-1527 | after that no request that has not been written to, newcomers included, is ever answered |
| GroupOutcomes.AllTablesKeepInv | src/raw_ingest.cpp:1421-1535 | the invariants hold for any number of tables, however their steps interleave |
| GroupRuns.EveryRunEnds | src/raw_ingest.cpp:1421-1535 | no run takes more than 25 steps for each request, whatever fails in it |
| GroupRuns.StoppedMeansAnswered | src/raw_ingest.cpp:1459-1535 | a run that cannot go on has answered everybody; if a leader has unwound, all but those it has stranded |
| GroupRuns.ConflictThenStored | src/raw_ingest.cpp:1401-1409 | a run whose first attempt meets a conflict: after the retry the rows are in the table and the request is told so |
| GroupRuns.WaiterCanMissFailure | src/raw_ingest.cpp:1507-1535 | a run in which a waiter reports success for a batch that failed |
| GroupRuns.WaiterCanReportBatchTotals | src/raw_ingest.cpp:1507-1535 | a run in which a request without rows reports the batch's row |
| GroupRuns.InvalidatedCommitReportsSuccess | src/raw_ingest.cpp:198-210 | a run in which a request is told that its row is in and the table is empty |
| GroupRuns.EmptyFirstPayloadDropsRows | src/raw_ingest.cpp:1485-1490 | a run in which a request behind an empty payload is told that its row is in and the table is empty |
| GroupRuns.FailedRollbackStrandsWaiter | src/raw_ingest.cpp:184-196 | a failed commit that has ended its transaction, after which a request waits for ever |
| CommitSections.RawCommitCoordinator.Enter | src/raw_ingest.cpp:1439-1459 | counts, queues and, when nobody leads, claims the table; other tables keep their shares |
| CommitSections.RawCommitCoordinator.TakeOrRelease | src/raw_ingest.cpp:1474-1527 | takes the whole queue, or with an empty one gives the table up in the same section |
| CommitSections.RawCommitCoordinator.Leave | src/raw_ingest.cpp:1443-1449 | the counter falls by one and is erased at zero |
| CommitSections.StepIsItsSection | src/raw_ingest.cpp:1421-1535 | the protocol's steps change a table's share exactly as these methods do |
| Pipeline.StepMovesCopies | src/raw_ingest.cpp:1755-1821 | one step moves a batch from one place to another, or reads it |
| Pipeline.RunKeepsInv | src/raw_ingest.cpp:1731-2018 | at every moment each batch read is in exactly one place, both queues are within capacity, and the flags say who has ended and why |
| Pipeline.QueuesStayBounded | src/raw_ingest.cpp:1755-1783 | neither queue exceeds its capacity |
| Pipeline.ExactlyOnce | src/raw_ingest.cpp:1896-2018 | a normal return means every raw batch reached the ingestor exactly once, alone or in a group of one shape below the threshold, no group having room for the next one, and the reported number is right |
| Pipeline.ReadBatchesAreIngested | src/raw_ingest.cpp:1795-1803 | an error of the reader alone loses nothing: what had been read is ingested exactly once before it is thrown |
| Pipeline.ErrorsSurface | src/raw_ingest.cpp:2009-2018 | a call that has ended throws the consumer's error if it had one, else the first error of the reader and the parsers, and else returns normally |
| Pipeline.EveryRunEnds | src/raw_ingest.cpp:1755-1821 | a run that has not ended has a step whose wait predicate holds, and no run is longer than file and thread count allow |
| PipelineSections.RawIngestPipeline.PushRaw | src/raw_ingest.cpp:1755-1763 | appends, or drops after an abort, within capacity |
| PipelineSections.RawIngestPipeline.PopRaw | src/raw_ingest.cpp:1764-1774 | the head of the raw queue, or nothing when it is empty or aborted |
| PipelineSections.RawIngestPipeline.Pop | src/raw_ingest.cpp:1784-1794 | the head of the parsed queue, or nothing |
| PipelineSections.RawIngestPipeline.ReaderDone | src/raw_ingest.cpp:1795-1803 | the reader's error is kept unless there is one already, and does not abort |
| PipelineSections.RawIngestPipeline.ParserDone | src/raw_ingest.cpp:1804-1814 | the first error is kept with its text and aborts; later ones change nothing but the counter |
| PipelineSections.StepIsItsSection | src/raw_ingest.cpp:1755-1821 | the protocol's steps change the shared state exactly as these methods do, each under its wait predicate |
| PipelineSections.WaitsAreComplete | src/raw_ingest.cpp:1755-1794 | a thread whose wait predicate holds has a step in the protocol |
| AsyncBuffers.RawAsyncBuffers.Enqueue | src/raw_async.cpp:76-87 | the payload joins its table's buffer; bytes, age and the wake-up follow |
| AsyncBuffers.RawAsyncBuffers.TakeAll | src/raw_async.cpp:90-96 | everything leaves the map in one swap |
| AsyncBuffers.RawAsyncBuffers.TakeDue | src/raw_async.cpp:167-193 | the scan moves out exactly the due buffers and leaves the rest untouched |
| AsyncBuffers.FlushBuffer | src/raw_async.cpp:145-165 | one transaction with one of four endings: its rows are stored and counted, dropped and not counted, counted but not stored, or the rollback throws; a flush in the protocol has that same ending |
| AsyncBuffers.EndIff | src/raw_async.cpp:145-165 | which of the four, in terms of the transaction: counted but not stored when everything returned and the commit met an invalidated transaction; thrown out when something threw and had ended it |
| AsyncBuffers.StepKeepsBuffers | src/raw_async.cpp:76-87 | a buffer that exists is non-empty, its byte count is the sum of its payloads and its payloads keep their order |
| AsyncBuffers.RunKeepsInv | src/raw_async.cpp:76-197 | over every interleaving of enqueues, flushes and workers: entries are claimed once, totals are the rows counted, payloads are where they should be, and the process is gone exactly when a rollback has thrown in a thread of its own |
| AsyncOutcomes.ExactlyOnePlace | src/raw_async.cpp:76-197 | at every moment each payload ever enqueued is in exactly one of its buffer, one taken entry, and the stored, dropped, lost and thrown-out ones |
| AsyncOutcomes.NothingDueStays | src/raw_async.cpp:167-193 | after a due scan no buffer is left whose first payload has waited for the timeout or whose size has reached the limit |
| AsyncOutcomes.OnlyDueTaken | src/raw_async.cpp:167-193 | a due scan takes exactly the buffers that have reached the timeout or the size limit, whole, and leaves the others as they were |
| AsyncOutcomes.FlushSettlesAll | src/raw_async.cpp:109-165 | when a flush returns, each taken table was flushed exactly once under any interleaving of the fetch-and-add workers and none of its payloads is left over; the total is the rows stored if and only if none of its commits met an invalidated transaction with rows in it, and else too high |
| AsyncOutcomes.CanReturnIff | src/raw_async.cpp:109-165 | a flush under way can still return if and only if none of its own failures had already ended its transaction, and none in a thread of another flush |
| AsyncOutcomes.DeathIff | src/raw_async.cpp:109-143 | a rollback that throws ends the process exactly when it is in the flusher's thread, or in that of a flush of several tables |
| AsyncOutcomes.Finish | src/raw_async.cpp:109-143 | however the database answers, as long as it ends no transaction by itself, a flush that is not unwinding can run to its end |
| AsyncOutcomes.InvalidatedCommitCountsRows | src/raw_async.cpp:149-165 | a flush that returns one row and has stored none |
| AsyncOutcomes.FailedCommitUnwinds | src/raw_async.cpp:149-165 | a failed commit after which, however the run goes on, the flush does not return; in the flusher's thread the process is gone |
| Splitter.FindNewline | src/raw_ingest.cpp:1872 | the first newline at or after a position |
| Splitter.SplitAfter | src/raw_ingest.cpp:1869-1873 | the end of exactly the requested number of lines, right after a newline |
| Splitter.ReadBatches | src/raw_ingest.cpp:1843-1894 | for any read sizes the batches are the non-blank pieces of one exact cut of the file, each of one to batch-size whole lines and closed early only for the byte target, with a tail below both caps; every character but spaces, tabs, carriage returns and newlines is in a batch, in order, and no batch is made of those alone |
| Splitter.BatchesHoldTheLines | src/raw_ingest.cpp:1843-1894 | the lines of the pieces are the lines of the file |
| Explode.AddObjectFields | src/raw_json.cpp:176-194 | first writer wins, the descended key is skipped, keys stay unique, and new ones come after the others in their own order |
| Explode.Exploder.EmitMergedRow | src/raw_json.cpp:196-210 | each field comes from the leaf, else from the nearest envelope holding the key other than as its descended key |
| Explode.Exploder.ExplodeInto | src/raw_json.cpp:216-245 | one such row per leaf reached, in order, and the envelope stack comes back unchanged |
| Explode.Exploder.ExplodeAll | src/raw_json.cpp:522-530 | the same over the payload's rows; by positions: the rows belong to exactly the places where the walk along the path stops, in document order, and each field is that of the deepest object on the way that holds its key and is not left through it |
| Explode.LeafRowAt | src/raw_json.cpp:196-210 | a row merged from a leaf and its envelopes has, for each key, the field of the deepest object on the way to the leaf's position that holds the key and is not left through it, and no other field; the leaf's own fields come first, then those of object after object outwards |
| Fanout.PositionsExact | src/raw_json.cpp:216-245 | the places where the walk stops are those whose keys begin the path, with lists entered by index, in document order, each once |
| Explode.LeavesCounted | src/raw_json.cpp:216-245 | the leaves reached are as many as counting without envelopes gives |
| Explode.RowCountIsLeafCount | src/raw_json.cpp:216-245 | output rows are as many as leaves |
| Explode.AbsentHopPassesThrough | src/raw_json.cpp:216-224 | a row without the first segment keeps every field |
| OtlpIds.Base64Decode | src/raw_json.cpp:271-322 | the index loop accepts and decodes exactly what decoding quad by quad does |
| OtlpIds.Base64RoundTrip | src/raw_json.cpp:271-322 | decoding the base64 of any non-empty byte string returns it (section 4 of RFC 4648) |
| OtlpIds.CanonicalIff | src/raw_json.cpp:271-322 | an accepted text is its own re-encoding if and only if the bits cut off by padding are zero |
| OtlpIds.NonCanonicalAccepted | src/raw_json.cpp:271-322 | two texts that decode to the same byte |
| OtlpIds.TestVectors | src/raw_json.cpp:271-322 | test vectors of section 10 of RFC 4648, and the ends of its alphabet |
| OtlpIds.EncodingsAgree | src/raw_json.cpp:490-510 | for ids of the field's width, base64 and lower-case hex normalise to the same hex (section 8 of RFC 4648) |
| OtlpIds.IdFields | src/raw_json.cpp:324-335 | base64 becomes hex exactly for sixteen bytes under traceId and for eight under spanId and parentSpanId |
| OtlpIds.NormalizeIdempotent | src/raw_json.cpp:490-510 | normalising twice is normalising once |
| OtlpIds.DistinctIdsStayDistinct | src/raw_json.cpp:490-510 | two ids in any mix of encodings normalise alike if and only if they are equal |
| OtlpIds.HexMeetsBase64Iff | src/raw_json.cpp:490-510 | hex of the field's width in either case is left as it is, and is what the base64 of the same id normalises to if and only if it has no upper-case digit |
| OtlpIds.UpperCaseHexIsKept | src/raw_json.cpp:490-510 | a span id in upper-case hex that stays as it is |
| GroupSets.SplitJoinIff | src/raw_optimize.cpp:721 | splitting a joined group set gives the names back if and only if none is empty or holds the separator, or the set is one name of nothing but separators |
| GroupSets.SortSorts | src/raw_optimize.cpp:184 | sorting is an ordered permutation |
| GroupSets.GroupSetIff | src/raw_optimize.cpp:259 | two lists of plain names have the same group set if and only if one permutes the other |
| GroupSets.GroupSetSplitsIff | src/raw_optimize.cpp:721 | a list of names comes back out of its group set, sorted, if and only if no name is empty or holds the separator, or it is one name of nothing but separators |
| GroupSets.SeparatorInNameSplitsWrong | src/raw_optimize.cpp:721 | one column named "a, b" is split into two |
| Projection.RollUp | src/raw_optimize.cpp:314-339 | summing a summary's counts over any of its columns, in any order, counts the rows it was made from |
| Projection.SameGroups | src/raw_optimize.cpp:314-339 | and yields the same groups |
| Projection.PlanNodes.TryRewriteToProjection | src/raw_optimize.cpp:205-353 | rewrites the plan in place exactly when every guard holds, and leaves it alone otherwise |
| Projection.PlanNodes.Retarget | src/raw_optimize.cpp:309-350 | groups, aggregate, scan and count outputs are edited to the new scan |
| Projection.RewritePreservesMeaning | src/raw_optimize.cpp:205-353 | the rewritten plan over the projection returns the groups, counts, columns and types that the plan without its FILTER clause returns over the rows the projection was made from |
| Projection.SameResultIffBalanced | src/raw_optimize.cpp:224-235 | that is the answer asked for if and only if, group by group, the filter rejects as many rows as the projection has missed, and no missed row starts a group |
| Projection.CompleteIsBalancedIff | src/raw_optimize.cpp:224-235 | with nothing missed: if and only if no count is asked for or the filter rejects nothing |
| Projection.RewriteIgnoresGroupOrder | src/raw_optimize.cpp:236-262 | of two plans over the table, one of them rewritten, the other is rewritten if and only if it groups by the same columns, in whatever order |
| Projection.RewrittenExactly | src/raw_optimize.cpp:205-353 | which plans are rewritten: a single count(*) with or without FILTER, over an unfiltered scan of the table, grouped in one set by exactly the projection's columns in any order, with plain outputs, at the noted physical row count |
| Projection.PickHottest | src/raw_optimize.cpp:694-709 | the first of the most often observed group sets, none when nothing was observed |
| ProjectionRuns.BuildMakes | src/raw_optimize.cpp:720-735 | the table built from the split group set is a summary over exactly the observed columns |
| ProjectionRuns.RunKeepsInv | src/raw_optimize.cpp:679-754 | over runs of appends, reverts and interleaved raw_project calls the projection summarises a prefix of the table |
| ProjectionRuns.RewriteRightIff | src/raw_optimize.cpp:205-353 | over any run and for any plan, a rewritten answer is right if and only if what the filter rejects and what the projection has missed cancel out |
| ProjectionRuns.UnfilteredRightIff | src/raw_optimize.cpp:739-748 | an unfiltered count is right if and only if no row was committed between the last build and the last registration |
| ProjectionRuns.QuietRunsAnswerRight | src/raw_optimize.cpp:263-267 | when none was, the answer is right if and only if no count is asked for or the filter rejects nothing |
| ProjectionRuns.OvertakenProjectAnswersWrong | src/raw_optimize.cpp:739-748 | three steps after which a count query is answered wrongly |
| ProjectionRuns.FilteredCountAnsweredWrong | src/raw_optimize.cpp:229-235 | a filtered count, on a fresh projection, that is answered without its filter |

## Left out

- HTTP, gRPC and Quack servers and clients, token checks and protobuf conversion: input and output over libraries that are not part of this model.
- The DuckLake fallback (src/raw_ingest.cpp:1184-1322): SQL text whose meaning lies in another catalog.
- Memory pools, row-group flushing, partial block managers and the optimistic writer: only the rows and columns they hold are modelled.
- Several ingest consumers (src/raw_ingest.cpp:1547-1565): they submit outside the schema lock; pool and pipeline are stated for the default single consumer.
- raw_optimize's physical reordering, and saving and loading statistics: a full rewrite can shrink the physical row count, which the token's property excludes.
- Spreading OTLP attributes and unwrapping AnyValue (src/raw_json.cpp:338-489): order-dependent, with no clean law.
- Settings clamps, the transform registry, raw_type and raw_infer, ATTACH glue.
- Parse errors counted in merged payloads: src/raw_ingest.cpp:230 zeroes the donor's count without adding it; only rows are conserved.
- Extract.RawExtractor.Traverse: columns are found by path where the source keys its map by node address, because the tree is a value there; a path names one node. Objects must have unique keys, since a repeated key overwrites.
- AppendPool.WriteRow: one row at a time; the split into vectors of 2048 rows is not modelled. Clearing the layout caches while publishing is one atomic step, although the workers read them without the lock.
- PoolProtocol.PoolRefinesSequentialAppend: a widening found by the schema delta drains the pool, and the claim covers the stretch between two drains. A shape-cache hit that skips a needed widening is inside it: the rows are then those of appending to the unwidened table.
- GroupResults.RunKeepsInv: lingering before a batch is taken shows only as freedom of when the leader takes it; progress is stated over wait predicates, not over wake-ups or time.
- Pipeline.ExactlyOnce: stops at the ingestor's door; that an earlier group may already be committed when a later one fails is outside it.
- Pipeline.EveryRunEnds: progress is over wait predicates. `producer_cv.notify_one` can wake the wrong one of two kinds of waiter (with capacity 1 and two parsers, a pop can wake the reader while the raw queue is full), and then everybody may wait although a predicate holds; the theorem does not exclude that.
- AsyncBuffers.FlushBuffer: starting and stopping the flusher thread is left out, and so are each payload's parse options. The flush of one entry is one step, on a connection of its own.
- MergeLoss.MergedRowKeptIff: for column types the writer fills; other types go through a cast that is not modelled.
- Filling.FillVector: doubles keep the source number; rounding, and the text a nested value is written as, are not modelled. Types the writer does not fill go through an uninterpreted cast.
- Projection.RewritePreservesMeaning: no group column is called count, in any case: how the database renames the projection's own count column then is not part of this model. The catalog lookups, the rewrite setting and binding `sum` always succeed; the summary's rows come in any order.
- ProjectionRuns.RewriteRightIff: a query inside a transaction with appends of its own that are not committed is not an event; the token does not see its local rows. Rows are never deleted or updated, columns never change, and the physical row count never shrinks; a plan's outputs are group columns and its one aggregate.
- OtlpIds.Base64Decode: characters and bytes are numbers below 256; the string form of a decoded id is its hex.
