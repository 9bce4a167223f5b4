# Incremental sync from SQL Server to Delta Lake, modelled and proved in Dafny

The program copies tables from a SQL Server source to Delta Lake. Each run of a table reads a
checkpoint, opens the Delta table, asks the source for the rows whose watermark lies above the
checkpoint, merges them batch by batch on the primary key, and at the end records the greatest
watermark it saw. Many runs, of one table or of many, may overlap, fail or crash anywhere.

The project has three parts.

**The protocol of one table.** `Rows`, `Merge`, `Query` and `Batching` define rows, the join
semantics of a merge (a table is a sequence, so that keys stay unique is proved, not built in), the
source's answers and the cutting of an answer into batches. `Protocol` is a labelled state machine:
source writes and deletes, captured watermarks, and any number of overlapping runs made of the steps
read checkpoint, open, query, merge a batch, open the checkpoint table, record, stop. A history is
any sequence of enabled events. Its invariant gives coverage and no regression. `Complete` follows
one run from its first event to its last, whole or cut off; `Convergence` covers what the next run
finds, and the handover from a bulk load; `Skipping` what a checkpoint set ahead of the data does, and
`LateHandle` what goes wrong when the query comes before the open. `Awaits` says what a run waits for
and when, so that `Sync` can say exactly when a run succeeds. `Backfill` is the two calls of a
handover. `Sync` is the code as it runs: a class `World` with the state as fields, methods that
change it, and the loop of `sync_one` with its buffer, counters and tracked watermark. At every
await the rest of the world may move. The methods are proved to add to the history exactly the
events of one run in the order of the code, so everything proved of histories holds of them.

**Many tables.** `Names` takes a configured name to its locations, `Catalog` checks the
configuration, `Runs` is the loop over a catalog with its progress callback, `Workers` lets any
number of tables be synced in any interleaving over one shared storage, `Partitions` is the Spark
wrapper's planning and accounting, and `Checkpoints` is the store of recorded watermarks.

**Exact conversion.** `Types` resolves catalog types, `Decimals` rescales 128-bit decimals with
checked arithmetic, `RecordBatches` turns rows into columns with mutable builders, and `Text` holds
the text forms of integers and bytes.

## Assumptions

- A query is answered from one snapshot, in ascending watermark order, NULL first, ties in any
  order. Within a snapshot primary keys are unique and hold no NULL.
- A later write to the source carries a watermark strictly above every watermark that a query or
  capture has already returned, or none. Deletes are allowed at any time.
- A commit is one atomic step and is refused when another commit has reached the same table since
  the handle was opened or last committed. Loading an existing table may fail.
- Reading a checkpoint may yield none although one is stored, since any load failure reads as
  "never synced" (src/checkpoint.rs:128-131); every theorem about histories allows for that.
- In the protocol's histories `set_checkpoint` is only given values whose rows are in Delta (the
  condition on `SetMark` in `Protocol.Enabled`), as the handover does; coverage is promised under
  that. `Skipping` drops it and `Backfill.SetCheckpoint` records any value.
- Run identities are never reused. `version` in a row numbers the source write that made it; no
  operation branches on it.
- Watermarks are integers in the protocol. `Text` proves that binding one as text filters the same
  rows; for other types, that the source's text-to-column conversion undoes the rendering is assumed.
- tiberius delivers a column in the variant `RecordBatches.Delivered` lists for its catalog type.
- A `DateTime<Utc>` lies within chrono's calendar, years -262143 to 262142.
- Arrow's decimal builder takes a precision of 1 to 38 and a scale not above it, and an Arrow batch
  needs at least one column.

Two documents say something else than the code, and the code was followed.
docs/operations.md:415-422 says a failed table is unchanged and never half-merged; batches merged
before the failure stay (`Runs.HalfMerged`), and `Runs.FailedTableUnchanged` says exactly when
nothing has changed. docs/api.md:521-535 describes one shared checkpoint table; the code keeps one
for each table (src/checkpoint.rs:7-25).

## Model

| member | source | states |
|---|---|---|
| Merge.JoinsIsKeyEquality | src/merge.rs:136-141 | the AND-reduced column predicate holds exactly when the keys are equal, non-empty and free of NULL |
| Merge.MergedMembers | src/merge.rs:131-178 | after a merge keys are still unique, and a row is in the table exactly if it is in the batch, or was in the table under a key the batch does not have |
| Merge.MergedIsOverride | src/merge.rs:131-178 | a merge on all key columns is the keyed map override of the table by the batch |
| Merge.MergeConserves | src/pipeline.rs:487-496 | inserted plus updated is the number of rows in the batch, and the table grows by exactly the inserted count |
| Merge.MergedJoined | src/merge.rs:14-25 | merging two batches of one keyed stream one after the other is merging them at once, row for row |
| Merge.MergeIsIdempotent | src/merge.rs:14-25 | merging the same batch again changes nothing and reports every row as updated |
| Merge.PrefixThenWhole | src/merge.rs:14-25 | merging a prefix of a stream and later the whole stream equals merging the whole stream |
| Merge.NullKeysDuplicate | src/merge.rs:136-141 | re-merging a row leaves one copy exactly when no key column is NULL |
| Merge.DeltaTable.OpenOrCreate | src/merge.rs:89-108 | an existing table that loads is opened unchanged, an absent one is created by its first commit, and a failed load or a failed creation is a storage error that changes nothing |
| Merge.DeltaTable.Upsert | src/merge.rs:131-178 | an empty key is refused, a storage failure and a stale handle are told apart and change nothing, otherwise one commit merges the whole batch and reports its counts |
| Query.Select | src/pipeline.rs:427-443 | an answer exists for every snapshot and checkpoint: keyed, ordered, exactly the rows above the checkpoint |
| Query.LastIsGreatest | src/pipeline.rs:477-485 | the last row of an ordered answer carries its greatest watermark |
| Query.FirstSyncReachesMaximum | src/pipeline.rs:828-844 | on a first sync the last watermark is the maximum `source_watermark` returns for the same snapshot |
| Query.ResumedAnswerIsAbove | src/pipeline.rs:427-443 | whatever a resumed query returns ends strictly above the checkpoint it started from |
| Batching.BatchesCut | src/pipeline.rs:455-475 | the batches concatenate to the stream, none is empty and none exceeds the limit |
| Batching.BatchSizeIsInvisible | src/pipeline.rs:455-500 | for every batch size the final rows and summed counters are those of one merge of the whole stream, counts add up to the rows fetched and the table grows by the inserted count |
| Batching.TrackedFrom | src/pipeline.rs:477-485 | looking only at the last row of each batch tracks the last watermark of the whole answer, from any point on |
| Batching.NewestWatermark | src/pipeline.rs:477-485 | for every ordered answer with ties and leading NULLs and every batch size the tracked value is the greatest watermark, strictly above the checkpoint on a resumed run and the snapshot's maximum on a first one |
| Protocol.MergeEvolves | src/merge.rs:59-73 | a commit through a handle nobody has overtaken drops no key and replaces no row by an older version |
| Protocol.DrainedIsSafe | src/pipeline.rs:502-515 | once every batch is merged, every source row at or below the tracked watermark is in Delta at its current version, so it is safe to record |
| Protocol.RecordedReplaces | src/checkpoint.rs:239-262 | recording replaces whatever value is stored, even a larger one, leaves one row, and coverage holds for the new value |
| Protocol.InvariantStays | src/pipeline.rs:368-518 | every event of the protocol, taken by anyone at any time, keeps the invariant and takes nothing back |
| Protocol.InvariantHolds | src/pipeline.rs:368-518 | so does every history of overlapping, refused and crashing runs with source changes in between |
| Protocol.Coverage | src/pipeline.rs:425-515 | in every reachable state a source row whose watermark is at or below the stored checkpoint is in Delta at its current version, once |
| Protocol.NoRegression | src/pipeline.rs:425-443 | between any two moments of a history Delta's copy of a key is neither dropped nor replaced by an older version |
| LateHandle.LateHandleRegresses | src/pipeline.rs:425-443 | with the query allowed before the open, a history of ordinary steps ends with a newer row replaced by an older one at a checkpoint that no longer covers it |
| Complete.RunPrefix | src/pipeline.rs:455-515 | from any settled state a run stopped after any number of its events has merged that number's batches of its answer and recorded nothing |
| Complete.MergedWholeBatches | src/pipeline.rs:455-475 | what a stopped run has merged ends at a batch boundary, or is the whole answer |
| Complete.CompleteRun | src/pipeline.rs:368-518 | a complete run has merged its answer, recorded its greatest watermark if there is one, and left no run under way, whatever checkpoint was stored |
| Complete.ForgottenExactly | src/merge.rs:14-25 | what cut-off runs changed is made the same again by the next complete run exactly when it starts from no checkpoint or they brought no row without a watermark |
| Complete.CrashTransparency | src/pipeline.rs:455-515 | any number of runs cut off anywhere, then one complete run, leave the checkpoint of one uninterrupted run, for any batch sizes and order of ties, and its rows exactly when the complete run starts from no checkpoint or no attempt's merged batches hold a row without a watermark that Delta did not |
| Complete.NothingToForget | src/pipeline.rs:455-515 | they hold none when no cut-off run's checkpoint failed to load, or no source row lacks a watermark |
| Convergence.LostReadBringsNull | src/checkpoint.rs:128-131 | a reachable case in which they do, and the rows differ |
| Convergence.RowsReached | src/pipeline.rs:427-515 | after a complete run from any stored checkpoint, safe or not, a source row is in Delta exactly when it lies above that checkpoint or was there before |
| Convergence.MarkedRowsReached | src/pipeline.rs:427-515 | from one of the protocol's checkpoints a complete run brings every source row with a watermark to Delta |
| Convergence.EveryRowReached | src/pipeline.rs:427-515 | it brings every row exactly when it started from no checkpoint or the rows without a watermark were there already |
| Convergence.NextRunIdle | src/pipeline.rs:427-443 | the next run fetches nothing exactly when there was a checkpoint or a watermark to record, or no row at all |
| Convergence.IdleRun | src/pipeline.rs:471-475 | from any settled state, a first run over an empty source included, a run that fetches nothing commits nothing to the rows or the checkpoint; it only creates a table that is not there yet |
| Convergence.Convergence | src/pipeline.rs:427-515 | over an unchanging source without NULL watermarks a complete run leaves every row in Delta, and the next fetches zero rows and commits nothing |
| Convergence.Handover | src/pipeline.rs:753-900 | for a first load or a reload: capture, export row by row while the source changes, load, set the checkpoint to the captured value or a smaller one; the protocol allows that step and the invariant holds after it |
| Convergence.HandoverThenAnything | src/pipeline.rs:848-900 | after a handover and any later history coverage holds, and one complete run brings every row with a watermark to Delta |
| Skipping.SetAhead | src/pipeline.rs:848-900 | after any value is set, a complete run brings exactly the rows above it; a row at or below it, or without a watermark, is in Delta afterwards only if it was before |
| Skipping.SkippedUntil | src/pipeline.rs:848-900 | a row at or below the checkpoint and not in Delta stays missing through every history of runs, source changes and set checkpoints of any value, in which it is neither written nor deleted, no checkpoint read is lost and the checkpoint is not set below it |
| Skipping.SkippedComesBack | src/checkpoint.rs:128-131 | a complete run brings it exactly when its checkpoint read is lost; one that reads a value set meanwhile brings it exactly when that value lies below its watermark |
| Skipping.LateCaptureSkips | src/pipeline.rs:762-768 | with the watermark taken after the export a row is skipped exactly when no read of it by the export comes after its last write or delete |
| Skipping.LateCaptureLoses | src/pipeline.rs:762-768 | one row, read by the export and written again before the capture, is such a row |
| Backfill.SourceWatermark | src/pipeline.rs:795-846 | the maximum of the watermark column as the source is at that moment, exactly when configuration, connection and column allow; otherwise nothing is captured |
| Backfill.CaptureCheckedExactly | src/pipeline.rs:796-798 | what is checked before a capture, and which fault is reported: the key columns' names are not looked at |
| Backfill.SetCheckpoint | src/pipeline.rs:874-900 | any value is recorded exactly when checks, open and storage allow and no commit reaches the checkpoint table between open and upsert; a refused call records nothing, and what happened meanwhile is a history of the protocol; a value whose rows are in Delta is a step of it |
| Names.AcceptedExactly | src/pipeline.rs:178-207 | a name is accepted exactly when it has at most three parts, each safe; its last part is the table, the one before it the schema if there are two, the first the database if there are three; a refusal names an unsafe part, or the whole name when it only has too many |
| Names.AcceptedByCharacters | src/pipeline.rs:119-207 | in terms of its characters: accepted exactly when none is a quote, semicolon, backslash, NUL, bracket or white space, and it has at most two dots, none at an end and no two together |
| Names.SameLetters | src/pipeline.rs:388-416 | two column names match exactly when they differ only in the case of ASCII letters |
| Names.PathIsName | src/pipeline.rs:147-154 | the relative path is the name with dots turned into slashes |
| Names.NameFromPath | src/pipeline.rs:147-154 | splitting the path on '/' and joining with '.' gives a slash-free name back |
| Names.SamePathExactly | src/pipeline.rs:147-154 | two accepted names share a path exactly when they differ only in dots against slashes |
| Names.SlashedNamesCollide | src/pipeline.rs:119-134 | such a pair is accepted, since a slash inside a part is not refused |
| Names.Locations | src/pipeline.rs:419-423 | for slash-free names equal data locations or equal checkpoint locations mean equal names, and a data location is a checkpoint location exactly for a name under the checkpoint directory |
| Names.LayoutsApart | src/python.rs:246-252 | under the default layout, with a first part other than the checkpoint directory, no data location is a checkpoint location |
| Catalog.NewCatalog | src/catalog.rs:85-96 | a catalog is made exactly when every entry is usable and no table is named twice; otherwise the error is the first entry's at fault |
| Sync.BehaviourIsHistory | src/pipeline.rs:368-518 | what the class goes through is a history of the protocol |
| Sync.World.Sound | src/pipeline.rs:368-518 | so its state always satisfies the protocol's invariant |
| Sync.World.Tells | src/pipeline.rs:491-496 | what is told of a run is what the history says: its own events, whether the last cut it short, and the rows its commits inserted and updated |
| Sync.CheckedExactly | src/pipeline.rs:374-379 | the configuration passes exactly when it names a watermark and a key, all its names are safe and the table's is accepted; otherwise what is at fault first |
| Sync.LookedUpExactly | src/pipeline.rs:388-416 | the catalog's answer passes exactly when the table is there with a column for the watermark and every part of the key; otherwise the first that is missing |
| Sync.CausedStops | src/pipeline.rs:368-518 | with nobody else about no cause of an error is compatible with the condition for success |
| Sync.Alone | src/pipeline.rs:368-518 | a run nobody interferes with leads from the state it found to the present one by its own events alone |
| Sync.World.ReadMark | src/checkpoint.rs:110-165 | a read returns the stored value, none when the load fails, or an error when a file cannot be read, and then no run has begun |
| Sync.World.Ask | src/pipeline.rs:427-443 | the answer is a possible one for the source as it is at that moment |
| Sync.World.Upsert | src/pipeline.rs:491-496 | the next rows of the answer are merged in one commit or, with a stale handle or a storage failure, the run ends; counts add up to the batch and the table grows by the inserted count |
| Sync.World.Advance | src/checkpoint.rs:239-262 | the checkpoint row is committed unless another commit came first or storage fails, and the run ends |
| Sync.Begin | src/pipeline.rs:374-443 | checks, catalog lookup, handle and only then the query; every failure ends the run with nothing merged |
| Sync.Convert | src/pipeline.rs:487 | the buffered rows convert exactly when there is a column, types agree and every row converts; otherwise the error names the first cell or row at fault, or, when all rows convert, the missing columns or a type that is not the schema's |
| Sync.Flush | src/pipeline.rs:477-496 | one buffered batch: the tracked watermark, the conversion with its error and nothing merged, one merge, the counters |
| Sync.Drain | src/pipeline.rs:455-500 | the loop makes exactly the merges of the batched answer, in order, counts every row once, and every fetched row converted; it ends with an error only if the first await to fail was for a row or a merge, a batch did not convert, or somebody else committed |
| Sync.Close | src/pipeline.rs:502-518 | the greatest watermark is recorded once, after the last merge, or nothing when there is none; it succeeds when the checkpoint table opens and takes the row, and an error says which of that failed or that somebody else committed |
| Sync.SyncOne | src/pipeline.rs:368-518 | success means exactly the events of a complete run, failure some first ones of them and then one that ended the run before it recorded anything; with nobody else about the run succeeds exactly when checks and lookup pass, no await it reaches fails, both tables open and every fetched row converts; any error is traced to its cause |
| Sync.SyncTable | src/pipeline.rs:346-350 | the same from the checkpoint read on: a refused name or an unreadable checkpoint leaves everything as it was; undisturbed, the state after is the one the run's events lead to, and success is decided by the same condition; inserted and updated are the rows the run's commits found missing and found there, and undisturbed Delta grows by the inserted count |
| Runs.CutOffRun | src/pipeline.rs:598-622 | a run cut off undisturbed leaves whole batches of its answer merged, or all of it, and the checkpoint it found |
| Runs.HalfMerged | src/pipeline.rs:455-500 | a run with more than one batch, stopped after its first merge, leaves that batch in the table and of the rest only what was there before |
| Runs.FailedTableUnchanged | src/pipeline.rs:455-500 | a failed table's rows are unchanged exactly when every row merged before the failure was there already |
| Runs.CatalogApart | src/pipeline.rs:419-423 | under the default layout distinct slash-free names outside the checkpoint directory give tables that share no storage |
| Runs.SyncTask | src/pipeline.rs:598-610 | one table of a run is synced completely over the run's one connection, or left as a failure leaves it, with an error that names it and is traced to its cause; nothing in its way means success |
| Runs.Run | src/pipeline.rs:569-625 | earlier tables fully synced, the failing one cut off for a stated cause, later ones untouched; progress reports are running sums; a stopped run has synced exactly the reported tables; the report covers every table in order, with the rows its commits found missing and found there and, undisturbed, the growth of its Delta table; if every table is untroubled and the callback goes on, the run succeeds |
| Runs.UntroubledGoes | src/pipeline.rs:368-518 | a table that nothing fails for, with a passing configuration and a source whose rows all convert, has nothing in its way whatever its query returns |
| Runs.ValidConfigExactly | src/pipeline.rs:67-84 | the settings pass exactly when there is somewhere for rows and for checkpoints and a batch holds a row; otherwise the first that does not is named |
| Workers.DefaultLayoutSeparates | src/python.rs:246-252 | under the default layout slash-free names outside the checkpoint directory never share a location |
| Workers.StepIsLocal | python/tiberiusdelta/distributed.py:3-8 | with locations apart a step changes its own table as the protocol says, and no other |
| Workers.Interleaving | python/tiberiusdelta/distributed.py:185-199 | an interleaving of workers' steps is possible exactly when each table's own steps are a history of that table, and leaves each table what its own steps leave |
| Workers.AsIfAlone | src/pipeline.rs:598-622 | running only one table's steps leaves that table as the whole interleaving does |
| Workers.CoverageEverywhere | python/tiberiusdelta/distributed.py:185-199 | coverage holds for every table of a cluster after every interleaving |
| Partitions.PlanPartitions | python/tiberiusdelta/distributed.py:40-65 | refused exactly when there is a table and fewer than one partition is asked for; otherwise the greatest count that leaves none empty and is at most what was asked or, when nothing was, at most four to a core and at least one |
| Partitions.RefusedExactly | python/tiberiusdelta/distributed.py:164-186 | every way the call is refused and exactly when; no tables give an empty report |
| Partitions.ReportExactly | python/tiberiusdelta/distributed.py:189-199 | a result is in the report exactly when some partition that succeeded returned it, and a failure exactly when some partition failed with its tables and its error |
| Partitions.PartitionMentions | python/tiberiusdelta/distributed.py:80-118 | a partition reports each of its tables once, whether it succeeded or failed |
| Partitions.RunAnswers | python/tiberiusdelta/distributed.py:84-116 | a partition whose run returns has one result per table, in order, adding up to the run's total |
| Partitions.Accounting | python/tiberiusdelta/distributed.py:185-209 | for every list of tables, every contiguous split and pattern of failures, results and failures mention each table as often as it was listed, the total is over the partitions that succeeded, and the call raises exactly when asked to and some partition failed |
| Partitions.ListedOnce | python/tiberiusdelta/distributed.py:189-199 | a table is so mentioned exactly once exactly when no other entry names it |
| Checkpoints.CheckpointStore.Advance | src/checkpoint.rs:239-262 | it succeeds exactly when the table opens, storage takes the commit and no other commit came between; then and only then the value is the last recorded one |
| Checkpoints.ExtendFromBatch | src/checkpoint.rs:174-183 | later rows for a name overwrite earlier ones in the map |
| Checkpoints.FilesTell | src/checkpoint.rs:140-165 | however the rows lie in files, reading them gives the last value recorded for each name and no other name |
| Checkpoints.CheckpointStore.ReadRows | src/checkpoint.rs:119-165 | a load failure or absent table reads as empty, an unreadable file is an error, otherwise the map is complete |
| Checkpoints.CheckpointStore.Read | src/checkpoint.rs:110-112 | with one table per location a read yields none or the last successful advance's value, and that value when the load succeeds |
| Checkpoints.OneRowExactly | src/checkpoint.rs:7-25 | a location holds at most one row exactly when every successful advance there was for one table |
| Checkpoints.NamesKeepRowsApart | src/checkpoint.rs:87-89 | for accepted slash-free names that is so at every location |
| Types.ResolvedDecimal | src/types.rs:104-197 | a column is a decimal exactly when the catalog calls it one with a precision and scale Arrow can hold, and then with those |
| Types.NormalisedExactly | src/types.rs:151 | a type name is compared without the blanks around it, in lower case |
| Decimals.AcceptedExactly | src/builders.rs:114-138 | a value is accepted exactly when its scale is at most the column's and its magnitude, rescaled without bound, is below ten to the precision |
| Decimals.StoredIsSame | src/builders.rs:114-125 | the stored integer denotes the same rational and is within precision and 128 bits |
| Decimals.OverflowBranch | src/builders.rs:131-138 | the overflow branch of the precision test is taken exactly for precisions above 38 |
| Decimals.ResolvedColumnIsExact | src/builders.rs:316-326 | both guarantees hold for whatever decimal column the catalog resolves to |
| Decimals.CalendarConverts | src/builders.rs:91-104 | no checked step refuses a date or instant the calendar can hold, and it becomes its own count of days or microseconds |
| Decimals.CalendarBounds | src/builders.rs:91-104 | the first and last day are those of the Gregorian calendar for the years chrono can hold |
| Decimals.MicrosKeepOrder | src/builders.rs:100-104 | distinct instants stay distinct and in order |
| RecordBatches.NullsStayNull | src/builders.rs:186-207 | a NULL of any variant becomes a NULL in any column, and nothing else does |
| RecordBatches.EntryDenotes | src/builders.rs:276-360 | whatever is stored is the cell's own value in the column's Arrow type: the same integer, real, truth value or bytes, the same rational at the column's scale, the day, the microseconds of the instant, or a text that reads back |
| RecordBatches.DenotedOnce | src/builders.rs:276-360 | and it is the only entry of that kind and range that denotes the cell |
| RecordBatches.TakesExactly | src/builders.rs:276-360 | a column takes NULL and exactly the variants it is for, a decimal one exactly the numbers that fit; a refusal says what was expected |
| RecordBatches.DeliveredIsTaken | src/types.rs:149-197 | a cell of the variant a catalog type is delivered as is always taken, except a number that does not fit its decimal; only textual types and decimals Arrow cannot hold become text |
| RecordBatches.UndeliveredIsText | src/types.rs:149-197 | a type name nothing is delivered under is not recognised and resolves to text |
| RecordBatches.EntriesFit | src/builders.rs:276-360 | whatever is appended is of the column's type and in its range |
| RecordBatches.OnlyTextTakesEverything | src/builders.rs:302-358 | text is the one kind of column that refuses no cell |
| RecordBatches.CalendarCellsConvert | src/builders.rs:331-351 | a date or timestamp column refuses a cell only for its variant, never for its value |
| RecordBatches.BuiltTypeIsSchemas | src/builders.rs:240-266 | the built type is the schema's exactly when the builder takes the declared decimal |
| RecordBatches.ResolvedTypesAreBuilt | src/builders.rs:58-78 | so always for a type resolved from the catalog |
| RecordBatches.ColumnBuilder.Append | src/builders.rs:276-360 | one more entry, a NULL for a NULL and otherwise one that denotes the cell in the column's Arrow type, or no change and what was expected |
| RecordBatches.RecordBatch | src/builders.rs:409-431 | success exactly when there is a column, types agree, every row has the schema's width and every cell converts; then entry (i, j) is a NULL exactly when cell (i, j) is and otherwise denotes it in the schema's type; otherwise the error is the first bad row's or cell's in row-major order |
| Text.IntReadsBack | src/builders.rs:149-154 | every integer is read back from its rendered text, which has no leading zeros and is the only such text that reads so |
| Text.TextFilterIsExact | src/pipeline.rs:427-440 | filtering by the bound text selects exactly the rows above the integer |
| Text.HexReadsBack | src/builders.rs:210-216 | hex text is twice as long as the bytes and decodes to them |
| Text.UnhexOnce | src/builders.rs:210-216 | bytes have one hex text |
| Text.ToHex | src/builders.rs:210-216 | the loop builds that text |

## Left out

- TDS, TLS, sockets, login and timeouts: a timeout or lost connection is the run stopping at that step.
- Delta log files, Parquet, query planning and object stores: only atomic commits, a commit count as table version, and refusal are kept.
- SQL Server's query engine: filter, order and maximum are relations between a snapshot and a result.
- chrono and tiberius internals: calendar arithmetic, float text and datetimeoffset decoding arrive as values with their text.
- Floats: an `f32` or `f64` cell is a real number with its text; NaN, infinities and binary rounding are not modelled.
- Binary and other non-integer watermarks: the protocol's watermark is an integer.
- How a protocol row is decoded to cells is a function the sync loop is given; the merged rows are the protocol's, not the converted columns. Schema drift between runs is not modelled: a table's columns are fixed.
- The catalog query of `describe_table` and its row checks: its result is a list of column names and types, empty meaning the table was not found.
- Text fallback columns in the statistics, `preflight`, error texts, the Python bindings apart from the default checkpoint location, the tools directory and the type stubs.
- Things the design does not promise: detecting deletes, consistency across tables, ties across runs, watermarks that decrease, rows with a NULL watermark added after the first sync.
- Complete.CrashTransparency: stated for a source that does not change meanwhile and runs that follow one another; overlapping runs are covered by `Protocol.Coverage`.
- Runs.Run: catalog entries whose names share a location, such as "a/b" and "a.b", are accepted by the code and not covered here; `Names.SamePathExactly` says which those are and `Runs.CatalogApart` which names are safe. Another writer's steps on a table are scheduled while that table is synced; `Workers` covers other orders.
- Runs.SyncTask: what a failed table's rows are is stated for a table nobody else touches meanwhile and with no other run under way; what its events are is stated always.
- Sync.SyncTable: the growth of Delta by the inserted count, and that nothing in its way means success, are stated for a run nobody else interferes with; what its commits inserted and updated, and what an error comes from, are stated always.
- Partitions.Accounting: how Spark places and retries partitions is not part of this model; each partition has one outcome.
