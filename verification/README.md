# MobilityFlow, verified

This project models the data plane of MobilityFlow in Dafny and proves what it is built to
guarantee: at-least-once ingestion with an exactly-once effect, a warehouse whose derived fact
table agrees with a full rebuild, and a run ledger that announces only what was earned. Verify it
with `dafny verify dfyconfig.toml`.

Two forms are used side by side. Code that changes state step by step is a class whose methods
are proved against specifications (`BronzeWriter`, `SparkRunner`, `Database`, `Dag`,
`MobilityEventSimulator`, the Seoul sync). What several processes do to each other is a state
machine whose steps may interleave, fail and crash at any point (`BronzeProtocol`, `Pipeline`,
`FactPipeline`, `Publishing`). The two are tied together: every execution of the writer's loop, every
undisturbed call of the runner however it ends, whatever a sync stores in bronze, and everything the
DAG does after a transform is shown to be a run of the machines.

## The main results

* **Writer.** In every state any run can reach, each message below a committed offset is a row of
  an uploaded batch if it meets the contract and was handed to the dead-letter producer if not
  (`BronzeProtocol.CommittedIsDurable`). Every execution of the writer's loop, with messages
  arriving and other processes storing all the while, is such a run; each batch is full, or due by
  the flush interval, or the last (`BronzeWriter.Run`).
* **Transform job.** The endpoint answers 200 exactly when start, work and finish return: always when
  no call raises and all rows of the selected objects fit the warehouse, however many copies of an
  event they hold (`SparkRunnerProcess.WhenJobReturns`, `SparkRunner.BronzeToSilver`). What a reader
  then finds in the tables, the run row and the answer is stated over the rows read
  (`JobLaws.JobShowsTables`, `JobLaws.JobShowsSuccess`, `JobLaws.JobShowsFailure`).
* **Pipeline.** Through crashes, retries, concurrent requests, forced replays and whatever other
  processes store, the warehouse holds no identity but those of the objects in the manifest, and
  all of them unless a load took two objects with one local name (`Pipeline.ExactlyOnceEffect`),
  which objects of the writer, the loader and the sync never have (`ObjectNames.OwnObjectsExactlyOnce`);
  once everything is flushed and loaded, exactly the valid identities of the log
  (`Pipeline.LogReachesWarehouse`). Row by row it is the history of the committed loads
  (`PipelineHistory.WarehouseIsHistory`).
* **Batchwise loading.** Loads in order show what one deduplication of everything would
  (`PipelineHistory.OrderedLoadsAreOneShot`); a replay of everything forgets any other past
  (`PipelineHistory.ReplayForgetsThePast`).
* **Fact table.** Beside the whole pipeline, every incremental build equals a full rebuild of the
  warehouse it read, column by column, as long as no build writes between another's read and write
  (`FactPipeline.EveryBuildFollowsThePipeline`). That loads do not overlap, which would break it,
  is not assumed: the job lock serialises them.
* **Ledger.** A run that stands as SUCCESS passed the gate and shows the counts and artifacts of
  one completed transform (`Publishing.SuccessIsEarned`), whatever is retried or lost. No run claims
  that dbt passed before it did (`Publishing.PassMeansPublishing`).
* **Seoul sync.** A road is kept under exactly stated conditions on the payload
  (`SeoulSync.AcceptedExactlyWhen`), every column of its row is the one it should be
  (`SeoulSync.RoadColumns`), and the totals of a sync count what was kept, refused and handed to
  bronze (`SeoulSync.SyncSeoulCitydata`).
* **Identity and replay.** Exact conditions under which event identities, object keys, local file
  names and quoted SQL tokens can be read back; repeated syncs are always harmless
  (`SeoulPipeline.SyncsAreAlwaysAllowed`, `SeoulPipeline.SyncIsARun`).
* **Failure drill.** The numbers of the recorded drill (1200 events, 56 invalid, 104 duplicates,
  1144 read, 1040 kept, 113 late) are an instance of a theorem about every stream
  (`FailureDrill.DrillUnderCrashes`, `FailureDrill.DrillWithoutCrash`).

## Where a promise is not kept as it stands

* "The latest ingestion wins" holds inside one load only. Between loads the upsert is last writer
  wins. `Warehouse.OneMoreLoad` says, before a load, exactly for which ids it will hold afterwards;
  `Warehouse.OlderCopyReplacesNewer` is a case against it.
* A row may meet the event contract and still be refused by the warehouse, because its speed index
  rounds to zero and a CHECK demands more than zero. `Observations.ContractRowFitsWarehouse` says
  exactly which rows these are. One such row is harmless when a loadable copy of its event was
  ingested as late (`Dedup.FrameCanLoad`); while none is stored, its object, and every request that
  selects it, never loads (`PoisonedObject.PoisonedObjectNeverLoads`).
* The file loader does not notice a missing segment id, which the warehouse refuses: such a row keeps
  its object out in the same way. `FileLoader.LoaderRowFitsWarehouse` says exactly which accepted
  rows do not fit.
* The data contract calls a row late after more than fifteen minutes; the code compares whole
  seconds. `Observations.LateAgainstContract` says exactly which late rows it misses.
* Builds of the fact table hold no lock: a gate attempt that was given up may live on beside the
  next. A build that was overtaken puts back rows it read earlier, and the fact may stay wrong for good (`FactTable.OverlappingBuildsLoseAnUpdate`);
  `FactTable.OvertakenBuild` says exactly when the next build repairs it.
* A transform may complete and its run never be announced
  (`Publishing.CompletedButNeverAnnounced`), or stand as FAILED with the counts and artifacts of a
  completed load (`SparkRunner.Record`).
* The default prefix of a transform request is `bronze/seoul_citydata/`, while the writer stores
  under `bronze/traffic_observations/`: without an explicit prefix nothing of the log is ever
  loaded (`Pipeline.DefaultPrefixSkipsBatches`). The end-to-end results take the prefix of every
  request as a parameter.
* Two keys can share a local file (`KeyFlattening.SharedFile`), and then an object is listed without
  being loaded (`NameClash.NameClashLosesAnObject`), even a batch (`NameClash.BatchCanClash`). The keys
  of writer, loader and sync never do so among themselves, as long as area codes hold no confusing
  underscore.
* Two area codes can share an identity when colons occur inside them
  (`SeoulIdentity.AreaCodesConfusable`).

## Assumptions

SHA-256 and version-5 UUIDs are injective; an identity is represented by the text that is
digested, and the 12 digits of the payload hash in an object key differ for different payloads
retrieved. Batches are uploaded at different microseconds, and output files of a transform carry a
fresh job id. Offsets of a partition are contiguous and one writer consumes the topics. A poll handles
one message. A dead letter counts as delivered once handed to the producer, since the result of the
flush that follows is not looked at. Partitions may refuse a commit one by one. A load is one
transaction, and the warehouse stamps its rows with the clock at its start; that clock does not run
backwards between loads. No build of the fact table writes between another's read and write: the DAG
runs one at a time and attempts of its gate follow each other, but an attempt that was given up may
live on. Other processes may store anything under any key but a batch's; an object that is loaded or
being loaded is replaced only by one with the same identities. Of syncs this is proved; the file loader
names its objects by a fingerprint of file and mapping from which it also derives missing identities. A
transform request reaches the runner when the DAG sends it, and the DAG is the only client that uses
its run id. Texts of the Seoul payload arrive stripped, numbers parsed. Which of several equally late
copies of an event Spark keeps is arbitrary; results about the pipeline hold for every choice.

## Model

| member | source | states |
|---|---|---|
| BronzeProtocol.CommittedIsDurable | src/mobility_flow/bronze_writer.py:103-136 | In every reachable state each message below a committed offset exists and is in an uploaded batch if valid, in the dead letters if not |
| BronzeProtocol.BufferIsWhatWasPolled | src/mobility_flow/bronze_writer.py:85-95 | The buffer is exactly the valid messages polled since the last flush or restart, each once, in polling order |
| BronzeProtocol.BufferedMeansPending | src/mobility_flow/bronze_writer.py:62-64 | Buffered rows imply pending offsets; a pending offset is the next one to poll and lies above the last flush |
| BronzeProtocol.CommittedOffsetsAdvance | src/mobility_flow/bronze_writer.py:124-129 | No step moves a committed offset backwards, past what was polled or past the log |
| BronzeProtocol.UploadIsFresh | src/mobility_flow/bronze_writer.py:110-122 | A batch uploaded at a new instant overwrites no object |
| BronzeProtocol.BatchKeyInstant | src/mobility_flow/bronze_writer.py:110-118 | Equal batch keys come from the same instant, whatever the first offsets |
| BronzeProtocol.BatchKeyReads | src/mobility_flow/bronze_writer.py:110-118 | The day, hour, instant and first offset of a batch can be read in its key |
| BronzeProtocol.BatchKeyClean | src/mobility_flow/bronze_writer.py:110-118 | A batch key never confuses the flattening of local file names |
| FileLoader.LoaderKeyIsNoBatch | src/mobility_flow/batch_ingest.py:279-284 | An object of the file loader, though stored under the same prefix, is never taken for a batch and never takes the place of one |
| FileLoader.LoaderKeyClean | src/mobility_flow/batch_ingest.py:279-284 | A key of the file loader never confuses the flattening of local file names |
| FileLoader.LoaderKeyReads | src/mobility_flow/batch_ingest.py:279-284 | The day, source system and fingerprint can be read in a loader key |
| FileLoader.ReasonNamesItsColumn | src/mobility_flow/batch_ingest.py:173-203 | A row passes exactly when every column is sound, and the reason of a reject names a column that is not |
| FileLoader.AsRowRoundTrip | src/mobility_flow/batch_ingest.py:173-203 | The file row can be read back from its bronze row, column by column |
| FileLoader.LoaderSegments | src/mobility_flow/batch_ingest.py:178-178 | The segment ids that pass are exactly SEG- and a number below a thousand in three digits |
| FileLoader.LoaderRowFitsWarehouse | src/mobility_flow/batch_ingest.py:173-203 | A row the loader lets pass fits the warehouse if and only if it has a segment id and its speed is at least a two-millionth of the reference |
| FileLoader.LoaderRowMeetsContract | src/mobility_flow/batch_ingest.py:173-203 | A row the loader lets pass meets the event contract if and only if it has a segment id and the lengths of road name and event id fit |
| FileLoader.MissingSegmentSlipsThrough | src/mobility_flow/batch_ingest.py:178-178 | Without its segment id a row that passes still passes, and the warehouse refuses it |
| BronzeProtocol.StepKeepsInv | src/mobility_flow/bronze_writer.py:85-151 | Polling, uploading, committing, clearing, restarting and foreign writes keep the joint invariant of log, offsets, buffer, bucket and dead letters |
| BronzeWriterProcess.BronzeWriter.TrackOffset | src/mobility_flow/bronze_writer.py:62-64 | Pending offsets never fall, cover the message just seen, and stay as they were for other partitions |
| BronzeWriterProcess.BronzeWriter.Handle | src/mobility_flow/bronze_writer.py:85-95 | A valid message is appended to the buffer, any other goes to the dead letters and never both; its offset is tracked either way |
| BronzeWriterProcess.BronzeWriter.PollAndHandle | src/mobility_flow/bronze_writer.py:85-95 | Handling a polled message is the protocol's poll step: buffered if valid, dead letter if not, tracked either way |
| BronzeWriterProcess.BronzeWriter.FirstOffset | src/mobility_flow/bronze_writer.py:112-112 | The number in the key is the least over partitions of the last handled offset |
| BronzeWriterProcess.BronzeWriter.constructor | src/mobility_flow/bronze_writer.py:32-57 | A new process resumes polling at the committed offsets with nothing buffered or pending, and counts the flush interval from its start |
| BronzeWriterProcess.BronzeWriter.UploadBatch | src/mobility_flow/bronze_writer.py:107-122 | The upload stores the whole buffer under the batch key, or leaves everything as it was if it raises |
| BronzeWriterProcess.BronzeWriter.CommitAndClear | src/mobility_flow/bronze_writer.py:124-132 | The offsets taken are the pending ones; buffer and pending offsets are cleared exactly if the call returns |
| BronzeWriterProcess.BronzeWriter.Flush | src/mobility_flow/bronze_writer.py:103-136 | When a flush returns and where it leaves the writer, for every call that may raise |
| BronzeWriterProcess.FlushFacts | src/mobility_flow/bronze_writer.py:103-136 | A returning flush leaves nothing buffered; every object is an old one or the whole buffer; offsets advance only after their rows are stored |
| BronzeWriterProcess.FlushReaches | src/mobility_flow/bronze_writer.py:103-136 | A flush, however it ends, is a run of the writer protocol |
| BronzeWriterProcess.BronzeWriter.PollOnce | src/mobility_flow/bronze_writer.py:138-146 | A poll advances one partition by one message and buffers one row at most |
| BronzeWriterProcess.BronzeWriter.FlushIfDue | src/mobility_flow/bronze_writer.py:97-101 | While the buffer is below the batch size and the interval has not passed, nothing at all changes; after the check the buffer is below the batch size, and empty if the interval had passed; a new batch is the whole buffer |
| BronzeWriterProcess.BronzeWriter.Turn | src/mobility_flow/bronze_writer.py:138-151 | Whatever arrived before it, a turn stores, commits and clears nothing unless the message polled fills the batch or the interval has passed; it leaves the buffer below the batch size |
| BronzeWriterProcess.BronzeWriter.Run | src/mobility_flow/bronze_writer.py:138-151 | Every execution of the loop, with messages arriving and other processes storing at any turn, is a run of the protocol; each batch it stores is full, or was stored when the flush interval had passed since the last completed flush, or is the last; the loop goes on until it is stopped or a call raises; ending normally leaves nothing buffered |
| BronzeAccounting.NoRestartShipsOnce | src/mobility_flow/bronze_writer.py:103-136 | A drained writer that never died has shipped as many rows as there are valid messages |
| BronzeAccounting.DrainedDeadLetters | src/mobility_flow/bronze_writer.py:66-95 | A drained writer, crashes or not, has handed over exactly the invalid messages |
| BronzeAccounting.BatchIdsAreValid | src/mobility_flow/bronze_writer.py:85-95 | No batch ever holds an identity that is not a valid one of the log |
| BronzeAccounting.DrainedBatchIds | src/mobility_flow/bronze_writer.py:103-136 | A drained writer, crashes or not, has uploaded every valid identity of the log |
| KeyFlattening.FlattenRoundTrip | src/mobility_flow/spark_runner.py:87-95 | A local file name can be read back to its object key if and only if no underscore of the key is followed by an underscore or a slash |
| KeyFlattening.SharedFile | src/mobility_flow/spark_runner.py:87-95 | Two keys share a local file if and only if they have the same canonical key, which is clean and shares that file too |
| KeyFlattening.FlattenInjective | src/mobility_flow/spark_runner.py:87-95 | Clean keys never share a local file |
| KeyFlattening.FlattenCollision | src/mobility_flow/spark_runner.py:89-89 | Two concrete keys that do share one |
| Transform.UnprocessedKeys | src/mobility_flow/spark_runner.py:118-122 | The job takes exactly the listed objects the manifest lacks, each once |
| Transform.RecordsTotal | src/mobility_flow/spark_runner.py:139-142 | The row counts written to the manifest add up to the rows read |
| Transform.RecordsShow | src/mobility_flow/spark_runner.py:226-228 | Each manifest row tells the key, etag, run and own row count of one object read |
| Transform.RecordsReconcile | src/mobility_flow/spark_runner.py:226-228 | The manifest rows of a load name exactly the objects it read |
| Dedup.DeduplicateKeepsLatest | src/mobility_flow/spark_runner.py:172-177 | On every frame the window expression keeps one row per id, from the frame, none of that id ingested later |
| Dedup.LatestPerIdCount | src/mobility_flow/spark_runner.py:170-179 | Whatever the tie choices, as many rows are kept as there are ids, never more than were read |
| Dedup.FrameCanLoad | src/mobility_flow/database.py:15-36 | A frame can pass the warehouse's constraints, NOT NULL and CHECK, for some choice among ties, if and only if each of its ids has a latest ingested row that meets them |
| SparkRunnerProcess.SparkReadsTheObjects | src/mobility_flow/spark_runner.py:87-150 | When no two keys share a local name, Spark reads exactly the contents of the selected objects, in whatever order downloads end |
| SparkRunnerProcess.SplitTotal | src/mobility_flow/spark_runner.py:206-210 | However Spark splits its output, the files hold all rows kept |
| SparkRunnerProcess.SplitJoined | src/mobility_flow/spark_runner.py:206-210 | The output files one after the other are exactly the rows kept, in their order |
| SilverKeys.KeyInjective | src/mobility_flow/spark_runner.py:212-218 | The key of an output file tells its run, its job and its number |
| SilverKeys.HexRoundTrip | src/mobility_flow/spark_runner.py:219-225 | A hash that fits its width is read back from its hexadecimal text |
| SparkRunnerProcess.WhenJobReturns | src/mobility_flow/spark_runner.py:111-292 | A job none of whose calls raises returns whenever all rows of the selected objects fit the warehouse, however many copies of an event they hold; no load commits while some event read has no loadable copy |
| SparkRunnerProcess.SparkRunner.Download | src/mobility_flow/spark_runner.py:87-95 | The local files after downloads that overtake each other in any way; where names coincide, the one that ends last wins |
| SparkRunnerProcess.SparkRunner.UploadSilver | src/mobility_flow/spark_runner.py:206-225 | Each output file is stored under a key of its own and described there with its size, row count and hash; row counts add up to the rows kept, nothing outside silver is touched |
| SparkRunnerProcess.SparkRunner.SelectObjects | src/mobility_flow/spark_runner.py:117-122 | All listed objects if forced, else those the manifest lacks; it raises exactly when the listing or the query does |
| SparkRunnerProcess.SparkRunner.TryTransform | src/mobility_flow/spark_runner.py:117-232 | The work returns if and only if no step raises, every row kept fits the warehouse and the load is answered; the tables hold everything selected exactly when its load commits and are untouched otherwise; how many output files are stored; the report reconciles and names every source with etag and rows |
| SparkRunnerProcess.SparkRunner.Record | src/mobility_flow/spark_runner.py:256-289 | Other runs stay and none appears; the run becomes FAILED, with clipped message, duration and time, exactly when an exception was recorded; counts and artifacts of a completed transform stand even then, if its finish took effect; if no call took effect the row is untouched |
| SparkRunnerProcess.SparkRunner.RunTransform | src/mobility_flow/spark_runner.py:111-292 | The job returns if and only if start, work and finish do; its whole effect on tables, bucket and run row, and what its caller learns, for every step and every call to the database that may raise |
| SparkRunnerProcess.SparkRunner.BronzeToSilver | src/mobility_flow/spark_runner.py:295-304 | A request is refused exactly while the lock is taken, without any effect; otherwise it answers 200 if and only if the job returns, so always when calls return and all rows fit, and never while an event read has no loadable copy; it has the effect of the job and releases the lock |
| JobLaws.JobShowsTables | src/mobility_flow/spark_runner.py:170-232 | Row by row: after a load that commits every id read shows a row of it ingested latest, with the load clock, all other ids what they showed before; every object selected is in the manifest with etag, run and rows; without a commit nothing changed |
| JobLaws.JobShowsSuccess | src/mobility_flow/spark_runner.py:234-281 | The run of a job that returned counts objects, rows read, distinct events, the difference of the two, late events and output files; with nothing selected it is NO_DATA |
| JobLaws.JobShowsFailure | src/mobility_flow/spark_runner.py:282-304 | The run of a started job that does not return is FAILED with its duration and the beginning of the message its caller gets, unless that could not be recorded |
| JobLaws.AnswerShows | src/mobility_flow/spark_runner.py:268-281 | The answer of a job that returned tells the objects, rows and distinct events read |
| PostgresDatabase.Database.ProcessedObjectKeys | src/mobility_flow/database.py:123-132 | The keys asked about that the manifest holds, and no others |
| PostgresDatabase.Database.StartPipelineRun | src/mobility_flow/database.py:135-149 | Other runs stay; a new run starts RUNNING and empty; one started again loses only its ending and keeps counts, duration, dbt status and details |
| PostgresDatabase.Database.FinishPipelineRun | src/mobility_flow/database.py:152-197 | No run appears and others stay; given counts, duration and dbt status replace, missing ones keep; of the details the new keys win and the others stay |
| PostgresDatabase.Database.LoadTrafficRows | src/mobility_flow/database.py:200-243 | A load commits exactly when the connection lives, ids are distinct and rows meet the NOT NULL and CHECK constraints; then the tables hold the new rows with its clock and the rest untouched, else nothing changes |
| Warehouse.UpsertEffect | src/mobility_flow/database.py:223-229 | An upsert of distinct ids shows each new row and leaves every other id as it was |
| Warehouse.RecordEffect | src/mobility_flow/database.py:230-242 | The manifest lists the recorded objects with their last record, and the rest untouched |
| Warehouse.LastLoadWins | src/mobility_flow/database.py:223-229 | Over any history the warehouse shows the row and clock of the last load that carried the id |
| Warehouse.LatestIngestionShown | src/mobility_flow/database.py:223-229 | The latest ingestion of an id is shown exactly when the last load carrying the id read it |
| Warehouse.OlderCopyReplacesNewer | src/mobility_flow/database.py:227-227 | A case where an older copy loaded later replaces a newer one |
| Warehouse.OneMoreLoad | src/mobility_flow/database.py:223-229 | Seen before a load: an id shown at its latest stays so if and only if the load does not carry it or keeps a row no older than the one shown |
| Warehouse.ShownWasRead | src/mobility_flow/database.py:223-229 | Whatever the warehouse shows of an id, some load read that very row |
| Warehouse.InOrderLoadsShowLatest | src/mobility_flow/spark_runner.py:172-177 | After loads in order no row of an id ever read is later than the one shown |
| Warehouse.LoadsRefineOneShot | src/mobility_flow/spark_runner.py:172-177 | After loads in order the warehouse has exactly the ids, each at the very ingestion time, that one deduplication of all rows ever read would keep |
| Warehouse.ForcedReplayConverges | src/mobility_flow/spark_runner.py:118-122 | A replay covering all ids leaves one and the same table from any earlier history, with the latest row of the replay per id |
| Pipeline.MutualExclusion | src/mobility_flow/spark_runner.py:295-304 | Over all interleavings at most one transform is inside the lock |
| Pipeline.RefusedRequestIsHarmless | src/mobility_flow/spark_runner.py:297-298 | A request is refused exactly while another is inside, and then changes nothing |
| Pipeline.DeathIsAlwaysPossible | src/mobility_flow/spark_runner.py:295-304 | The runner may die at any moment; what was committed stays and the next request is let in |
| Pipeline.ExactlyOnceEffect | src/mobility_flow/spark_runner.py:111-292 | In every reachable state the warehouse holds no id but those of the objects in the manifest, and all of them unless some load took two objects with one local name |
| ObjectNames.OwnObjectsExactlyOnce | src/mobility_flow/spark_runner.py:87-95 | While only objects of writer, loader and sync are loaded, the warehouse holds exactly the ids of the objects in the manifest, and once all is flushed and loaded every valid event of the log |
| NameClash.NameClashLosesAnObject | src/mobility_flow/spark_runner.py:87-95 | For any two keys with one local name, a batch's or not, there is a run after which a listed object's event is missing, so that condition cannot be dropped |
| NameClash.ClashingKeys | src/mobility_flow/spark_runner.py:89-89 | Two concrete keys with one local name |
| NameClash.BatchCanClash | src/mobility_flow/spark_runner.py:89-89 | For every batch key there is another key with the same local name |
| PoisonedObject.PoisonedObjectNeverLoads | src/mobility_flow/spark_runner.py:118-122 | While no loadable copy of a refused row, ingested as late, is stored anywhere, its object is never listed and no request that selects it, forced or not, ever commits |
| Pipeline.ObjectsCommittedOnce | src/mobility_flow/spark_runner.py:118-122 | Without force no object is loaded a second time |
| Pipeline.ManifestIsHistory | src/mobility_flow/database.py:230-242 | The manifest lists exactly the objects that committed loads have read |
| Pipeline.LogReachesWarehouse | src/mobility_flow/bronze_writer.py:103-136 | Once all is flushed and loaded, every valid event of the log is in the warehouse unless local names clashed; if only batches were loaded, exactly the valid events are |
| PipelineHistory.WarehouseIsHistory | src/mobility_flow/database.py:200-243 | Row by row the warehouse is the history of committed loads; crashes, refusals and failed jobs do not show |
| PipelineHistory.ShownRow | src/mobility_flow/database.py:223-229 | In every reachable state an id shows a row its last load kept, with that load's clock, and the latest ingestion ever read exactly when that load read one |
| PipelineHistory.OrderedLoadsAreOneShot | src/mobility_flow/spark_runner.py:172-177 | In every reachable state whose loads came in order, the warehouse shows what one deduplication of everything loaded would |
| PipelineHistory.ReplayForgetsThePast | src/mobility_flow/spark_runner.py:118-120 | After a replay of every listed object the warehouse is what that replay alone would have made of an empty one, whatever came before |
| Pipeline.StepKeepsInv | src/mobility_flow/spark_runner.py:111-304 | Every step of writer or runner keeps the joint invariant of lock, jobs, warehouse, manifest and committed loads |
| Pipeline.DefaultPrefixSkipsBatches | src/mobility_flow/schemas.py:54-57 | While all requests use the default prefix, no batch of the writer is ever loaded |
| JobRefinement.UndisturbedJobIsABehaviour | src/mobility_flow/spark_runner.py:111-292 | Whatever an undisturbed call does to tables and bucket, output files included and however it ends, a run of the interleaved protocol does |
| JobRefinement.LedgerWritesAreABehaviour | src/mobility_flow/spark_runner.py:114-292 | What a job writes to the run row, and what it answers, is a run of the publishing protocol, whichever of its database calls raise |
| FactTable.BuildIsFullRebuild | dbt/models/marts/fct_traffic_observation.sql:1-33 | An incremental build shows the warehouse, column by column, if and only if the fact invents no event and all lagging rows are stamped at or after the watermark |
| FactTable.EveryBuildEqualsFullRebuild | dbt/models/marts/fct_traffic_observation.sql:31-33 | In every interleaving of serialised loads and any number of builds in which none writes between another's read and write, each build that writes leaves the full rebuild of what it read, every column showing the warehouse column of its name |
| FactTable.FullRebuildMirrors | dbt/models/marts/fct_traffic_observation.sql:9-33 | The full rebuild has a row for every id of the warehouse and no other; each column equals the column of its name, and a row is late exactly when it was ingested more than 900 whole seconds after it was observed |
| FactPipeline.EveryBuildFollowsThePipeline | dbt/models/marts/fct_traffic_observation.sql:31-33 | The same beside the whole pipeline, with serialisation of loads derived from the job lock: through crashes, refusals and failing loads each such build leaves, column by column, the warehouse it read |
| FactPipeline.AbortedBuildLeavesNoTrace | airflow/dags/mobility_flow.py:106-136 | A build may begin at any moment beside any others and be given up at any later one, without a trace |
| FactTable.OverlappingLoadsLoseARow | src/mobility_flow/spark_runner.py:295-304 | Without serialised loads a committed row can stay out of the fact |
| FactTable.OvertakenBuild | dbt/models/marts/fct_traffic_observation.sql:1-33 | After a build that was overtaken has written, the next one restores the full rebuild if and only if every row put back is by now stamped at or after the watermark |
| FactTable.OverlappingBuildsLoseAnUpdate | dbt/models/marts/fct_traffic_observation.sql:31-33 | With serialised loads but overlapping builds the fact can show an old row for good |
| RunLedger.FinishTwice | src/mobility_flow/database.py:152-197 | Finishing twice alike differs from finishing once in the finishing time only |
| RunLedger.RestartKeepsStaleMetrics | src/mobility_flow/database.py:135-149 | A restarted run that fails still shows counts, dbt status and details of its earlier attempt; only its duration is new |
| RunLedger.TransformedShows | src/mobility_flow/spark_runner.py:234-281 | The report of a completed transform puts each of its counts, its artifacts and its sources in the column or detail of that name |
| RunLedger.SuccessShows | airflow/dags/mobility_flow.py:165-177 | Announcing sets SUCCESS and PASS, names the sync with its rows and areas, and leaves counts and artifacts as they were |
| RunLedger.VerdictsShow | airflow/dags/mobility_flow.py:99-147 | The verdicts of the gate set NO_DATA and SKIPPED or FAILED and FAIL, and leave the report of the transform as it was |
| RunLedger.DeliveryShows | src/mobility_flow/api.py:114-161 | Each named check of the delivery manifest tells its own condition, and its artifacts are those of the run |
| Publishing.SuccessIsEarned | airflow/dags/mobility_flow.py:83-177 | Over every DAG run with retries, failures, crashes and lost responses, SUCCESS implies dbt PASS, source objects, and the unmixed report of one completed transform; READY if and only if it wrote a silver file |
| Publishing.NothingAnnouncedEarly | airflow/dags/mobility_flow.py:153-177 | No run stands as SUCCESS before the gate has passed |
| Publishing.PassMeansPublishing | airflow/dags/mobility_flow.py:99-177 | Over every DAG run no row says that dbt passed before the DAG publishes, whatever its status |
| Publishing.GateFailureShows | airflow/dags/mobility_flow.py:139-144 | A reported failure of the gate leaves the run FAILED and FAIL with its message |
| Publishing.CompletedButNeverAnnounced | airflow/dags/mobility_flow.py:83-105 | A completed transform whose response is lost may end as a NO_DATA run |
| Publishing.OthersAreFree | src/mobility_flow/spark_runner.py:295-304 | Nothing is asked of the others: the runner may die and other clients may take the free lock at any moment, and other runs may change in any way |
| Publishing.StepKeepsInv | airflow/dags/mobility_flow.py:83-177 | Every step of runner, DAG and other clients keeps the protocol's invariant |
| DagTasks.GateIsReached | airflow/dags/mobility_flow.py:83-97 | Whatever happened before, the gate starts in a state where the run shows the attempt it judges |
| DagTasks.SafeRunIds | airflow/dags/mobility_flow.py:19-20 | A run id is always safe text, changed only if it was not, so that silver files of different run ids have different keys |
| DagTasks.Dag.UpdateRun | airflow/dags/mobility_flow.py:23-30 | The PATCH applies once it arrives and raises unless a response comes back |
| DagTasks.Dag.DbtQualityGate | airflow/dags/mobility_flow.py:99-151 | When an attempt of the gate passes, skips or raises; a failing command that is reported leaves the run FAILED and FAIL with the ends of its output, at most 2000 characters, and its counts as they were; a command out of time is not reported |
| DagTasks.Dag.PublishSuccess | airflow/dags/mobility_flow.py:153-177 | An attempt announces the run, with dbt PASS and the details of its sync, exactly when its PATCH arrives |
| DagTasks.Dag.Gate | airflow/dags/mobility_flow.py:45-45 | With retries the gate passes exactly when there was new data and some attempt passed; it never announces; a run that did not pass says what the last attempt reported |
| DagTasks.Dag.Publish | airflow/dags/mobility_flow.py:45-45 | With retries the run is announced, naming its sync, exactly when some PATCH arrived, and publishing succeeds exactly when some was acknowledged |
| DagTasks.Dag.AfterTransform | airflow/dags/mobility_flow.py:99-183 | The run ends announced exactly when there was data, an attempt of the gate passed and a publishing PATCH arrived; the DAG run ends well exactly when the gate was acknowledged as skipped, or passed and some publishing PATCH was acknowledged; other runs stay; all of it is a run of the protocol |
| Simulator.SimulatedIdInjective | src/mobility_flow/simulator.py:51-53 | Two simulated identities are equal exactly when seed and index are, whatever the seeds |
| Simulator.ObservedMeetsContract | src/mobility_flow/simulator.py:34-64 | Despite drift, clamping and rounding every event not made invalid meets the contract |
| Simulator.ObservedShows | src/mobility_flow/simulator.py:54-68 | Every column of an observation shows the segment, the choices and the times it was made of, measures to the nearest thousandth |
| Simulator.NextSpeedClamps | src/mobility_flow/simulator.py:35-39 | The speed drifts by the drawn step unless that leaves the band from 4 km/h to 112% of the reference, and then stops at its edge |
| Simulator.LateExactlyWhenShifted | src/mobility_flow/simulator.py:45-49 | An event is flagged late exactly when lateness was injected |
| Simulator.MobilityEventSimulator.constructor | src/mobility_flow/simulator.py:10-19 | A fresh simulator starts every segment at the drawn share of its reference speed, with zero counts and no history |
| Simulator.MobilityEventSimulator.Remember | src/mobility_flow/simulator.py:69-79 | The history keeps the last 500 events, all of them valid |
| Simulator.MobilityEventSimulator.Observe | src/mobility_flow/simulator.py:34-80 | A new event shows segment, choices and times in every column; it is valid, late and counted exactly as drawn, and remembered exactly when valid |
| Simulator.MobilityEventSimulator.Events | src/mobility_flow/simulator.py:21-80 | At every position the stream holds what its draw says: a duplicate exactly when there is a history and the draw is below the rate, and then the drawn one of the last 500 genuine events; the counters count it |
| FailureDrill.StreamCounts | src/mobility_flow/simulator.py:21-80 | A stream of N events with d duplicates and i invalid ones has N-i valid messages and N-d-i valid identities |
| FailureDrill.DrillUnderCrashes | docs/evidence/failure_drill_20260828.json:4-12 | Under any schedule of crashes and retries: i dead letters and N-d-i warehouse rows |
| FailureDrill.KeptAndLate | docs/evidence/failure_drill_20260828.json:4-12 | Whatever the crashes, a transform of all batches keeps N-d-i rows and counts as late exactly the genuine events made late |
| FailureDrill.DrillWithoutCrash | docs/evidence/failure_drill_20260828.json:4-12 | Without a crash of the writer one transform of all batches reads N-i rows, removes d, and counts the late ones |
| Observations.ContractRowFitsWarehouse | src/mobility_flow/database.py:26-33 | A contract row meets the table's constraints if and only if it has no reference speed or runs at a two-millionth of it at least |
| Observations.SpeedIndexNear | src/mobility_flow/spark_runner.py:197-197 | The speed index is the share of the reference speed to the nearest millionth |
| Observations.ColumnsJudgedAlone | src/mobility_flow/schemas.py:8-31 | In a valid event each column is judged on its own: exchanging it is fine exactly when the new value is |
| Observations.ContractRowRefused | src/mobility_flow/spark_runner.py:197-197 | A contract row the warehouse refuses |
| Observations.LateAgainstContract | docs/data-contract.md:32-32 | The flag implies the documented lateness, and agrees with it exactly when whole seconds do not hide the difference |
| Observations.HalfSecondMissed | src/mobility_flow/spark_runner.py:193-196 | A row fifteen minutes and half a second behind that is not flagged |
| Clock.SnapshotIsEpochFloor | src/mobility_flow/seoul_citydata.py:90-92 | Flooring the minute field is flooring epoch time to 300 s; it is idempotent and moves by less than 300 s |
| Clock.DaysFollow | src/mobility_flow/seoul_citydata.py:241-242 | The day after a valid one is valid and lies 86,400 seconds later, through the ends of months, years and leap Februaries |
| Clock.MicroStampReads | src/mobility_flow/bronze_writer.py:110-118 | Every field of an instant can be read in the stamp of a batch |
| Clock.SnapshotMonotone | src/mobility_flow/seoul_citydata.py:90-92 | A later retrieval never has an earlier snapshot |
| Clock.SameSnapshotSameWindow | src/mobility_flow/seoul_citydata.py:90-92 | Two retrievals share a snapshot exactly when they fall in one five-minute window |
| Clock.EpochMicrosInjective | src/mobility_flow/seoul_citydata.py:241-242 | Different calendar instants are different points of the epoch time line |
| SeoulIdentity.EventIdentity | src/mobility_flow/seoul_citydata.py:132-133 | For area codes without colons two identities are equal exactly when area, link and window are, even if links contain colons |
| SeoulIdentity.StableKeysEqual | src/mobility_flow/seoul_citydata.py:132-133 | For all texts two stable keys are equal exactly when their timestamps are and area and link run together alike |
| SeoulIdentity.AreaCodesConfusable | src/mobility_flow/seoul_citydata.py:132-133 | Two different area codes can share an identity through links the contract accepts if and only if one continues the other by a colon and then like an accepted link |
| SeoulIdentity.ConfusedLinks | src/mobility_flow/seoul_citydata.py:132-133 | Two accepted links of two areas with one identity |
| SeoulIdentity.SnapshotKeyInjective | src/mobility_flow/seoul_citydata.py:279-288 | A snapshot key tells area, snapshot and hash prefix |
| SeoulIdentity.SnapshotKeyReads | src/mobility_flow/seoul_citydata.py:284-288 | The day of the snapshot, the area, the snapshot to the minute and the hash prefix can be read in a snapshot key |
| SeoulSync.RetrievedPathReads | src/mobility_flow/seoul_citydata.py:279-283 | Payload and rejects stand under the day of the retrieval, the area, the snapshot and the hash prefix |
| SeoulSync.CoordinatePoints | src/mobility_flow/seoul_citydata.py:95-108 | The parsing loop returns the points of all non-empty items, at least two and all inside the service area, or raises |
| SeoulSync.SplitAllJoins | src/mobility_flow/seoul_citydata.py:97-97 | The pieces between bars hold no bar and joined by bars are the list |
| SeoulSync.ItemPointReads | src/mobility_flow/seoul_citydata.py:100-105 | An item is longitude, underscore, latitude, accepted exactly when both convert and lie inside the service area |
| SeoulSync.PointListReads | src/mobility_flow/seoul_citydata.py:95-108 | A list parses exactly when all pieces that hold anything are points and two at least do; the result is these points in their order |
| SeoulSync.AcceptedPointsStayInside | src/mobility_flow/seoul_citydata.py:120-124 | First, last and mean of accepted points stay inside the service area |
| SeoulSync.CoordinateChecksNeverFire | src/mobility_flow/seoul_citydata.py:137-164 | The contract's coordinate checks never reject a road whose points parse |
| SeoulSync.RoadMeasures | src/mobility_flow/seoul_citydata.py:127-135 | A normalised road keeps length and speed, and its travel time covers that length at that speed |
| SeoulSync.RoadColumns | src/mobility_flow/seoul_citydata.py:119-164 | Every column of a normalised road: its own link, name and area, first point as start and last as end, their mean as centre, observed at the snapshot and ingested at the retrieval |
| SeoulSync.AcceptedExactlyWhen | src/mobility_flow/seoul_citydata.py:111-164 | A road is kept if and only if its coordinates parse, link and names fit the contract, length and speed are positive and within bounds, and the length takes two hours at most |
| SeoulSync.SeoulRowsAreNeverLate | src/mobility_flow/seoul_citydata.py:151-152 | No accepted Seoul row is late |
| SeoulSync.AcceptanceOfRoad | src/mobility_flow/seoul_citydata.py:111-164 | Acceptance and identity of a road do not depend on the retrieval time, and on the area name only through its length |
| SeoulSync.AcceptedIds | src/mobility_flow/seoul_citydata.py:253-275 | The identities a sync of one area accepts |
| SeoulSync.SafeOverwrite | src/mobility_flow/seoul_citydata.py:247-300 | Two syncs that store rows under one key store the same identities, whatever their times and requested names |
| SeoulSync.SnapshotKeyClean | src/mobility_flow/seoul_citydata.py:284-288 | A snapshot key never confuses the flattening exactly when its area code does not and does not end in an underscore |
| SeoulPipeline.SyncsAreAlwaysAllowed | src/mobility_flow/seoul_citydata.py:295-300 | In every run in which only syncs store under the Seoul prefix, the next sync may store at any moment, and replaces no identity |
| SeoulPipeline.SyncIsARun | src/mobility_flow/seoul_citydata.py:293-300 | Whatever a sync stores in bronze, complete or cut short, a run of the pipeline protocol stores |
| SeoulSync.NormalizeArea | src/mobility_flow/seoul_citydata.py:253-275 | The loop over the roads keeps what normalises, in order, and rejects the rest; none is lost |
| SeoulSync.StoreUploads | src/mobility_flow/seoul_citydata.py:293-312 | Uploads take place in order up to the first that raises |
| SeoulSync.UploadsEffect | src/mobility_flow/seoul_citydata.py:293-312 | Completed uploads leave payload, accepted rows and rejects under three different keys, the latter two only if there are any, and nothing else changed |
| SeoulSync.KeptOrRejected | src/mobility_flow/seoul_citydata.py:253-275 | Of any roads, under any normalisation, each is kept or rejected, never both or neither |
| SeoulSync.SyncArea | src/mobility_flow/seoul_citydata.py:247-327 | One area: its report with the rows kept and the roads refused, each exactly, and its effect on the lake, complete or cut short by an upload that raises |
| SeoulSync.SyncSeoulCitydata | src/mobility_flow/seoul_citydata.py:216-368 | A sync returns exactly when all areas could be fetched, their roads are objects, and all could be stored; then the accepted total is the number of rows kept over all areas and of rows handed to bronze, the rejected total the number of roads refused; what was stored before a failure stays |
| SeoulSync.UploadedIsKept | src/mobility_flow/seoul_citydata.py:293-312 | The bronze uploads of a sync hand over exactly as many rows as normalisation keeps |
| Quoting.QuotingRoundTrip | src/mobility_flow/batch_ingest.py:50-55 | A reader takes back exactly the quoted string and leaves exactly the following text if and only if that does not begin with the same quote |
| Quoting.LiteralAndIdentifierRoundTrip | src/mobility_flow/batch_ingest.py:50-55 | Literal and identifier quoting each satisfy the round trip with their own quote |

## Left out

- HTTP, Kafka, S3, PostgreSQL, Spark, dbt and DuckDB internals appear as abstract state: logs with offsets, a map from keys to rows, atomic transactions, row sequences.
- Columns that no property depends on: trace id, schema version, source system, vehicle type, congestion level and its source, payload hash, stored speed index; the Spark master among the details of a run.
- The hash a delivery manifest carries of itself, and which run the control API picks for it.
- Parquet, gzip, JSON and type casts; floating-point rounding noise (real numbers are used).
- The pending offset map of the writer keeps the maximum; offsets that jump over gaps of a compacted or transactional log are not modelled.
- Consumer-group rebalancing, several writers at once, and delivery of dead letters after they were handed to the producer.
- Silver uploads have no step of their own in the pipeline protocol: they are stored like any foreign object there.
- SeoulSync.SyncSeoulCitydata: does not model the optional local snapshot file, the congestion counts and the lists of object keys in the report, because they are read off the accepted rows and keys.
- SparkRunnerProcess.SparkRunner.RunTransform: does not model the death of the process inside a call, because the pipeline and publishing protocols crash between any two steps.
- Rows that lack a value of another NOT NULL column than the segment id: writer, sync and loader store none.
- The file loader beyond its quoting, classification and object names, the dashboard, metrics, other marts, congestion thresholds, authentication and direct changes to the run table by operators.
- Liveness: nothing in the code makes a committed load be announced eventually.
