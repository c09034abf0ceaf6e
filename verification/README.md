# kafkrs: the crash-safe log of one partition, and what surrounds it

kafkrs is a log broker. Each partition has one writer that appends records to write-ahead-log files,
seals full segments and hands them to an uploader, which puts them into an object store and lists them
in a manifest. After a crash, recovery puts the partition back together from the manifest and from the
WAL files that are left. This project models that machinery and proves that it keeps its promises over
every run, with crashes at any point, torn appends, retries, retention and fetches in between. Where
the code keeps a promise only under a condition, the condition is stated, and it is proved to be exact
or a run shows what goes wrong without it.

## How it is organised

* **Codec.** `Bytes`, `WalFrame`, `Wal`: the frame of one record, byte by byte and for every checksum
  function, and files of frames. Everything above uses the codec only through `Wal.Lawful`, which
  `Wal.FrameLawful` shows of the real format.
* **Values.** `Options`, `Manifest`, `ObjectKeys`, `Retention`, `Segment`, `Recovery`, `Writer`, `Uploads`: what each
  operation computes, as functions.
* **The machine.** `Partition` is a state machine whose steps are the indivisible actions of the code:
  produce, append with fsync and acks, a failed append that kills the writer alone, seal, open of the next
  file, segment PUT, manifest PUT, durable notice, WAL removal, retention rewrite, segment DELETE, crash
  with a torn append, restart, one file of recovery, boot. A `History` beside it records what an observer saw: the `log` of everything that
  reached the disk, the low-water mark `low`, what was `evicted`, the produces and the acks; a `Trace` records
  the requests as the clients made them and the batches sealed since the last boot.
* **The invariant.** `PartitionInvariant`, with one preservation proof per step in `PartitionLogging`,
  `WriterSteps`, `UploaderSteps` and `RecoverySteps`, joined in `PartitionRuns`.
* **Any crash.** A second and a third invariant, for runs whose crashes may find files of evicted segments:
  `Survival`, with `SurvivalSteps`, `SurvivalUploads` and `SurvivalRecovery`, says where every record is;
  `Freshness` says where the segments lie.
* **The theorems.** `SurvivalTheorems` (nothing acknowledged is lost, in any run), `FreshnessTheorems`
  (offsets, order of the manifest), `PartitionTheorems` (recovery rebuilds the log), `LogTheorems` (acks,
  files, manifest), `EvictionTheorems`, `OpenTheorems` and `RevivalTheorems` (exact conditions),
  `PartitionGaps` (runs in which they fail, and an ack that misleads), `InFlight` (what the writer keeps in
  flight), `Requests`, `Fetch` and `FetchTheorems` (fetching is slicing the log, and gives clients back what
  they packed).
* **The code's own form.** `PartitionWriter`, `UploaderActor`, `RecoveryActor`: classes whose methods
  update fields, files and the store as the code does, each proved against the functions above.
  `WriterRefinement`, `UploaderRefinement` and `RecoveryRefinement` show that each of them, for all
  thresholds and failures and in each of the three families of runs below, is a run of the machine, so
  every theorem applies to it.
* **Around the partition.** `ProducePayload`; `AtomicFile`, the write-sync-rename that `TopicRegistry` (with
  `TopicConfig`) and `PendingDeletes` build on; `Sweep`, `SweepTheorems` and `SweepRefinement`; `SpawnLock`.

Every theorem about a partition's runs supposes two things that the code does not check (`Partition.Admitted`): records
fit the frame's length fields, and the WAL file after a seal can be opened. `WalFrame.RoundTripIff` with
`ProducePayload.LimitsProtectFrameIff`, and `OpenTheorems.FailedOpenLosesIff`, show that each is exact.
The theorems differ in what they let a crash find (`Partition.Care`). Retention may evict a segment while
the notice that removes its WAL file is still queued; a crash in between leaves the file over, and recovery
takes it for a segment that was never uploaded.

* `Attainable(f, c)`: a crash may find anything. No acknowledged record is lost, a file goes only once its
  records are listed or evicted, every listed object exists under its own base, and recovery serves every
  record that was not evicted (`SurvivalTheorems`).
* `Steady(f, c)`: no crash *revives* a segment, that is, leaves a non-empty unlisted file below the last
  listed segment and none above, so that recovery makes an evicted segment the active one. Offsets are handed out
  once, the manifest is ordered, and every listed record can be looked up (`FreshnessTheorems`). The
  condition is exact: after any crash of such a run, it can come to hand out the offset of an acknowledged record
  again, or to put the manifest out of order, if and only if that crash revives a segment
  (`RevivalTheorems`).
* `Reachable(f, c)`: no crash finds a left-over file. Recovery then rebuilds exactly the unevicted log, the
  manifest has no gap, and a fetch is a slice of the log. The condition is exact for the first of these: with a
  left-over file, the first recovery serves evicted records again (`EvictionTheorems.RecoveryExactIff`).

What a revived segment does is worse than serving evicted records again. `PartitionGaps.LeftoverHidesRecord`
is such a run: the evicted segment's file takes the next record, which is acknowledged, uploaded and
listed as part of a segment in front of the last one, whose offsets it spans. The lookup then misses the
record, a fetch of its offset returns nothing, and after one more crash its offset is handed out again.

Where the code and its comments disagree, the model follows the code:

* Every ack of a group commit carries the last offset of the whole batch, so the range reported to a
  client is its own only when nothing with records follows it in the batch (`LogTheorems.AckRangeIff`;
  `PartitionGaps.SharedBatchMisreports` is such a run).
* A re-upload need not be bit-identical: after a crash the last orphan becomes the active segment again
  and can grow before it is sealed a second time under the same key. The machine overwrites the object.
* The pending-delete file is written by every delete handler and every sweep, not by one actor.
* A sweep reports success although an orphan could not be deleted; the orphan then stays for good
  (`SweepTheorems.FinishedSweepLeavesOnlyFailures`; `SweepTheorems.FailedOrphanStays` is such a run).
* A create that is refused because its partitions could not be prepared is in the registry's file all the
  same, and a restart brings the topic up (`TopicRegistry.RefusedCreateComesBack`).
* A segment in flight is read from the object store, not from memory, so its records cannot be fetched
  until the manifest lists them (`FetchTheorems.FetchRefinesSlicing` says exactly what is answered).

## Model

| member | source | states |
|---|---|---|
| `WalFrame.DecodeEncode` | kafkrs-models/src/wal.rs:20-81 | an encoded record with any bytes behind it decodes to that record and to its own length, for every checksum |
| `WalFrame.EncodeDecode` | kafkrs-models/src/wal.rs:42-81 | whatever decodes is encodable, and encoding it gives back the very bytes that were consumed |
| `WalFrame.FrameLayout` | kafkrs-models/src/wal.rs:20-38 | where each field of a frame stands, how wide it is and what it holds: length, offset, timestamp, schema id, key and value lengths, key, value, and the checksum of all but the length |
| `Bytes.LittleEndian` | kafkrs-models/src/wal.rs:25-37 | the first byte of an integer field is the least significant |
| `WalFrame.PrefixIncomplete` | kafkrs-models/src/wal.rs:42-49 | a frame cut anywhere before its end is incomplete, never accepted |
| `WalFrame.DamagedBodyMismatches` | kafkrs-models/src/wal.rs:54-58 | a frame whose body was damaged in place decodes as a checksum mismatch whenever the checksum changed, whatever follows |
| `WalFrame.RoundTripIff` | kafkrs-models/src/wal.rs:20-38 | a record survives the round trip if and only if its key fits 16 bits and its body 32 |
| `WalFrame.OverlongKeyMalformed` | kafkrs-models/src/wal.rs:20-38 | a record whose key is 65536 bytes or longer and whose body stays below 2^32 is written and decodes as malformed, whatever bytes follow |
| `Wal.FrameLawful` | kafkrs-models/src/wal.rs:20-81 | the byte format is a lawful framing for every checksum function |
| `Wal.WholeBeforeIsGreatest` | kafkrs-models/src/wal.rs:86-99 | the count used below is the greatest number of records whose encoding ends at or before the cut |
| `Wal.TornTail` | kafkrs-models/src/wal.rs:86-99 | for every list of records and every cut of its encoding, the scan returns exactly the records wholly before the cut and their length |
| `Wal.ScanEncodeAll` | kafkrs-models/src/wal.rs:86-99 | an untorn file gives back exactly what was appended |
| `Wal.ScanCanonical` | kafkrs-models/src/wal.rs:86-99 | for every byte buffer, re-encoding the scanned records reproduces the valid prefix |
| `Wal.ScanTruncateFixed` | kafkrs-server/src/wal_writer.rs:57-66 | scan, truncate, scan again is a fixed point for every buffer |
| `Wal.TornAppend` | kafkrs-server/src/wal_writer.rs:38-46 | appending any cut of a batch to a clean file adds exactly the whole records of the cut |
| `Wal.WholeAppend` | kafkrs-server/src/wal_writer.rs:38-46 | a completed append adds the batch and leaves the file clean |
| `Wal.OverlongKeyLosesTheRest` | kafkrs-models/src/wal.rs:20-38 | one record with an over-long key, its body below 2^32, makes it and everything behind it unreadable, while what precedes it is still read |
| `Wal.EncodeBatch` | kafkrs-server/src/wal_writer.rs:38-46 | the buffer loop writes the frames of the batch one after another |
| `Wal.ScanWal` | kafkrs-models/src/wal.rs:86-99 | the loop returns what the scan specifies, and its records encode to the valid prefix |
| `ObjectKeys.SegmentLeafInjective` | kafkrs-server/src/object_store.rs:37-51 | zero-padded segment names are distinct for distinct base offsets, negative and over-wide ones included |
| `ObjectKeys.SegmentLeafFormat` | kafkrs-server/src/object_store.rs:37-51 | a segment is named by twenty decimal digits of its base offset between a fixed head and tail |
| `ObjectKeys.JoinComponents` | kafkrs-server/src/object_store.rs:57-67 | a key consists of the root, the topic, its UUID, the partition and the object name, whatever slashes the prefix has |
| `ObjectKeys.ListPrefixComponents` | kafkrs-server/src/deletion.rs:133-141 | the LIST prefix is the root, the topic and its UUID |
| `ObjectKeys.SegmentKeyInjective` | kafkrs-server/src/object_store.rs:37-67 | two segments share a key only if topic, UUID, partition and base offset agree |
| `ObjectKeys.WalNameRoundTrip` | kafkrs-server/src/wal_writer.rs:16-22 | the base offset recovery parses from a file name is the one the file was opened for; the name is its digits and `.wal` |
| `Manifest.SegmentForOffsetIff` | kafkrs-models/src/manifest.rs:36-41 | on an ordered manifest the search returns an entry if and only if it contains the offset |
| `Manifest.BinaryAgreesWithLinear` | kafkrs-models/src/manifest.rs:36-41 | binary search and linear scan agree for every offset |
| `Manifest.SearchPartitionPoint` | kafkrs-models/src/manifest.rs:36-41 | the halving loop finds the boundary between entries that end before the offset and the others |
| `Retention.LeastStop` | kafkrs-server/src/retention.rs:31-45 | the number evicted is the least index that is the tail or neither expired nor over the cap |
| `Retention.LongestPrefix` | kafkrs-server/src/retention.rs:18-45 | what goes is the longest prefix without the tail in which every segment ended more than the retention time ago, in nanoseconds up to 2^63 - 1, or has more than the byte cap from it on |
| `Retention.TimeLimitExact` | kafkrs-server/src/retention.rs:18-23 | with no byte cap and no saturation the longest prefix without the tail goes in which every segment ended more than the retention time ago |
| `Retention.SaturatedTimeLimit` | kafkrs-server/src/retention.rs:18-23 | when the retention time saturates, nothing that ended within 2^63 - 1 nanoseconds goes by time |
| `Retention.SumBytesLaws` | kafkrs-server/src/retention.rs:26-26 | the size of a list of segments is the sum of their listed byte sizes |
| `Retention.FitsOrOnlyTail` | kafkrs-server/src/retention.rs:24-45 | afterwards the bytes fit the cap or only the tail is left |
| `Retention.SecondPassEvictsNothing` | kafkrs-server/src/retention.rs:9-47 | a second pass at the same time evicts nothing |
| `Retention.EvictCountMonotone` | kafkrs-server/src/retention.rs:18-45 | later clocks and tighter limits evict at least as much, -1 being unlimited |
| `Retention.TotalBytes` | kafkrs-server/src/retention.rs:26-26 | the sum of the sizes modulo 2^64 |
| `Retention.EvaluateEviction` | kafkrs-server/src/retention.rs:9-47 | the loop in wrapping 64-bit arithmetic always returns a prefix without the tail, and the policy's prefix while the sizes stay below 2^63 and the clock is not negative |
| `Retention.RetainDropsPrefix` | kafkrs-server/src/uploader.rs:231-234 | filtering the manifest by object key drops exactly the evicted prefix |
| `Segment.ColumnsRoundTrip` | kafkrs-models/src/record.rs:38-79 | each column holds its field of each record, null for an empty key and the schema id as a signed 32-bit number; reading the columns back gives every field of every record |
| `Segment.BuildColumns` | kafkrs-models/src/record.rs:38-79 | the builder loops fill the columns row by row |
| `Recovery.RecoverClosed` | kafkrs-server/src/recovery.rs:51-86 | what recovery hands over depends only on the records of the uncovered files, not on which removals fail |
| `Recovery.InterruptedRecoveryIsIdempotent` | kafkrs-server/src/recovery.rs:57-86 | stopped after any number of files and run again, whichever removals fail in either run, recovery hands over the same active records, orphans and next offset, for any directory and manifest |
| `RecoveryActor.WalDirectory.Bases` | kafkrs-server/src/recovery.rs:33-47 | the base offsets of all files, in increasing order |
| `RecoveryActor.WalDirectory.RecoverWalFile` | kafkrs-server/src/wal_writer.rs:57-66 | returns the valid records and cuts the file to exactly their encoding |
| `RecoveryActor.WalDirectory.VisitFile` | kafkrs-server/src/recovery.rs:57-76 | one file: removed if its segment is uploaded, unless that fails; otherwise cut to its valid length, and noted if it holds records; no other file changes |
| `RecoveryActor.WalDirectory.RecoverPartition` | kafkrs-server/src/recovery.rs:21-87 | afterwards no file bears the base of an uploaded segment unless its removal failed, every other file is still there, cut to its valid length, and none is new; the hand-over is the specified one, and no orphan is empty |
| `RecoveryActor.RequeueOrphans` | kafkrs-server/src/startup.rs:79-90 | one upload per orphan, in order |
| `RecoveryRefinement.RecoverRefines` | kafkrs-server/src/startup.rs:44-108 | from every crash state that a run can reach, left-over files or not, whichever removals fail, recovery and boot end in a reachable running partition with the same log |
| `PartitionRuns.StepKeeps` | kafkrs-server/src/partition_writer.rs:201-322 | every step of the machine keeps the invariant |
| `PartitionRuns.GuardedRunsKeepInv` | kafkrs-server/src/partition_writer.rs:151-322 | the invariant holds at the end of every guarded run, with any number of crashes and restarts |
| `PartitionTheorems.RunningHoldsLog` | kafkrs-server/src/uploader.rs:157-194 | at every running moment, listed objects, batches waiting to be listed and the active segment are together exactly the unevicted log |
| `PartitionTheorems.RecoverDurable` | kafkrs-server/src/recovery.rs:21-87 | from every durable state in which no evicted record is left in a file, recovery hands over exactly the unevicted log and the offset behind it, whichever removals fail |
| `PartitionTheorems.RecoveryRebuildsLog` | kafkrs-server/src/recovery.rs:21-87 | crash at any point of any guarded run with no left-over file, tear an append anywhere and recover: the result is the unevicted log followed by the whole records of the torn batch, and the next offset is one past its end |
| `SurvivalRecovery.StepSurvives` | kafkrs-server/src/partition_writer.rs:201-322 | every step, a crash with any files on disk included, keeps what is known of each record, file, batch, notice and acknowledgement |
| `SurvivalTheorems.NoAckedRecordIsLost` | kafkrs-server/src/partition_writer.rs:237-252 | in every state of every run, left-over files included, each record of each acknowledged produce, with the key, value, schema and timestamp its client packed, is in a WAL file, in a listed object, or evicted; it has the offset of its place in the produce, which the ack's value covers |
| `SurvivalTheorems.AcksAreUnique` | kafkrs-server/src/partition_writer.rs:243-246 | in every run no produce is acknowledged twice |
| `SurvivalTheorems.WalGoesOnlyWhenStored` | kafkrs-server/src/partition_writer.rs:313-318 | in every run, whenever any step removes a WAL file, each of its records is in a listed object or was evicted |
| `SurvivalTheorems.ManifestDescribesObjects` | kafkrs-server/src/uploader.rs:157-257 | at every point of every run the listed bases are distinct and increasing, and each entry's object exists and has the first and last offset and timestamp and the number of records that the entry states, in rising offsets |
| `SurvivalTheorems.FilesStartAtTheirName` | kafkrs-server/src/partition_writer.rs:297-304 | in every run a WAL file starts with the offset in its name and its offsets rise |
| `SurvivalTheorems.RecoveryServesEveryRecord` | kafkrs-server/src/recovery.rs:21-87 | crash anywhere in any run, with any torn append and any left-over files: recovery serves every record that ever reached the disk, the whole ones of the torn batch included, unless it was evicted |
| `SurvivalTheorems.RecoveryRemovesListed` | kafkrs-server/src/recovery.rs:57-65 | in every run, recovery removes the file of every listed segment unless that removal fails, and keeps the records of every other file |
| `FreshnessTheorems.StepFresh` | kafkrs-server/src/recovery.rs:51-86 | every step but a crash that revives a segment keeps segments, listed or in files, from overlapping, and the active one behind all others |
| `FreshnessTheorems.OffsetsRise` | kafkrs-server/src/partition_writer.rs:201-217 | the offsets of everything that ever reached the disk rise strictly, through crashes, torn appends and evictions |
| `FreshnessTheorems.NewOffsetsAreFresh` | kafkrs-server/src/partition_writer.rs:201-217 | a new offset is above that of every record that ever reached the disk, evicted ones included, and above every offset in a file, in the manifest or pending |
| `FreshnessTheorems.ListedRecordIsFound` | kafkrs-models/src/manifest.rs:36-41 | the manifest is ordered, and looking up a listed record's offset finds the object that holds it |
| `FreshnessTheorems.ReachableIsSteady` | kafkrs-server/src/recovery.rs:57-80 | a run whose crashes find no left-over file revives no segment |
| `RevivalTheorems.ReissueIffRevival` | kafkrs-server/src/recovery.rs:54-80 | after any crash of any run so far without a revival, some run without another one hands out the offset of an acknowledged record again if and only if the crash leaves an unlisted non-empty file below the last listed segment and none above it |
| `RevivalTheorems.DisorderIffRevival` | kafkrs-server/src/uploader.rs:175-192 | the same condition decides whether some run puts the manifest out of order |
| `PartitionGaps.LeftoverHidesRecord` | kafkrs-server/src/recovery.rs:57-80 | the run in which a left-over file becomes the active segment: the manifest ends as 0..2, 1..1, an acknowledged, listed and unevicted record cannot be looked up or fetched, and its offset is handed out again |
| `LogTheorems.AckedRecordsInPlace` | kafkrs-server/src/partition_writer.rs:237-252 | when no crash finds a left-over file, an acknowledged record that was not evicted is at its own place, in the listed object or WAL file whose range contains its offset |
| `LogTheorems.AckRangeIff` | kafkrs-server/src/wire/dispatch/produce.rs:332-378 | the reported range is the produce's own if and only if no later produce of the batch brought a record; the value is never below the produce's last offset |
| `LogTheorems.FilesNamedByFirstOffset` | kafkrs-server/src/partition_writer.rs:297-304 | when no crash finds a left-over file, a WAL file also has no gap |
| `LogTheorems.WalGoesOnlyWhenListed` | kafkrs-server/src/partition_writer.rs:313-318 | when no crash finds a left-over file, each record of a removed file is at its own place in a listed object, or was evicted and the file is one that outlived its segment |
| `LogTheorems.ManifestIsExact` | kafkrs-server/src/uploader.rs:157-257 | when no crash finds a left-over file, entries are also adjacent and each object holds exactly its records of the log |
| `EvictionTheorems.RecoveredFileIsServed` | kafkrs-server/src/recovery.rs:57-80 | the records of every uncovered file are served after recovery |
| `EvictionTheorems.RecoveryExactIff` | kafkrs-server/src/uploader.rs:121-132 | let retention evict segments whose WAL files are still there, any number of times, and crash at any later point: recovery serves exactly the unevicted log with the whole records of the torn batch if and only if no evicted segment's file is left at the crash |
| `PartitionGaps.LeftoverIsReachable` | kafkrs-server/src/uploader.rs:121-132 | the unsafe case occurs: a guarded run ends in a state with a WAL file left over from an evicted segment, where a crash is possible and would revive the segment |
| `PartitionGaps.FailedOpenLosesAckedRecord` | kafkrs-server/src/partition_writer.rs:297-304 | the first seal of a fresh partition can be followed by a failed open, after which some run loses an acknowledged record |
| `OpenTheorems.FailedOpenLosesIff` | kafkrs-server/src/partition_writer.rs:297-304 | in every reachable state between a seal and the open of the next file, some run after the open in which nothing else fails ends with an acknowledged, unevicted record that is in no WAL file and no listed object, if and only if the open fails |
| `OpenTheorems.DrainLoses` | kafkrs-server/src/uploader.rs:103-126 | while an acknowledged record's only copy is in a file that some queued batch or notice names, the uploader and the notices can run on until the file is removed and the record is nowhere |
| `PartitionGaps.SharedBatchMisreports` | kafkrs-server/src/partition_writer.rs:243-246 | a run in which two one-record produces share a batch and the first is told the offset of the second as its only one |
| `InFlight.InFlightExact` | kafkrs-server/src/partition_writer.rs:272-318 | in every run the in-flight map holds, under its base and with its own records, exactly every batch sealed since the last boot that is queued, in the uploader's hand, or whose notice is not yet handled |
| `Fetch.ReadRows` | kafkrs-server/src/fetcher.rs:197-208 | the row loop returns the rows at or above the offset, cut to the limit |
| `FetchTheorems.FetchReturnsRunOfLog` | kafkrs-server/src/fetcher.rs:42-116 | whatever happens between its messages, and however its GETs go, a fetch that succeeds returns a contiguous run of fsynced records at or above the offset, at most the limit, equal field by field |
| `FetchTheorems.FetchRefinesSlicing` | kafkrs-server/src/fetcher.rs:42-209 | with nothing in between, a fetch answers exactly as slicing the log does: which records, which high-water mark, and which error when the manifest is missing or unreadable, the object cannot be read or the offset is out of range; an error is hidden behind an empty answer exactly while a batch sealed since the last boot at or below the offset is queued, in hand or noticed |
| `FetchTheorems.FetchedIsTheClients` | kafkrs-server/src/fetcher.rs:42-116 | whatever happens between its messages, every record that a fetch returns and that was acknowledged to a client has the key, value, schema and timestamp that client packed, or the broker's clock when it gave none |
| `FetchTheorems.AckedProduceIsFetched` | kafkrs-server/src/fetcher.rs:42-209 | a fetch at any acknowledged, unevicted offset that is listed or active returns the client's records from there on, and from the first record on the very payload it packed |
| `FetchTheorems.LongPollAsksAgain` | kafkrs-server/src/fetcher.rs:56-97 | a fetch at the end that waits answers as a fetch made after the wait would, except that it reports a store error which that one hides; one that does not wait answers with the mark |
| `PartitionWriter.PartitionWriter.constructor` | kafkrs-server/src/partition_writer.rs:92-138 | starts on the recovered records, opens their file, and counts their bytes |
| `PartitionWriter.PartitionWriter.OnProduce` | kafkrs-server/src/partition_writer.rs:201-233 | stamps and queues the records and commits exactly when a threshold is met; the whole new state, files, messages and acks |
| `PartitionWriter.CommitsWhenDue` | kafkrs-server/src/partition_writer.rs:222-232 | after a produce, records wait only while they are fewer than the configured count and their keys and values shorter than the configured size; otherwise the whole batch was committed |
| `PartitionWriter.PartitionWriter.FlushCommit` | kafkrs-server/src/partition_writer.rs:237-269 | appends the batch, fires its acks, extends the active segment, and seals exactly when it is large enough |
| `PartitionWriter.SealsWhenLarge` | kafkrs-server/src/partition_writer.rs:260-268 | a commit seals exactly when the active segment has reached the configured number of key and value bytes, and hands over all of it |
| `PartitionWriter.PartitionWriter.FireAcks` | kafkrs-server/src/partition_writer.rs:243-246 | every waiting produce is answered once, in order, with the same value |
| `PartitionWriter.PartitionWriter.SealAndHandoff` | kafkrs-server/src/partition_writer.rs:272-311 | hands over the active segment as one batch and opens the next file, or stays on the old one when that fails |
| `PartitionWriter.PartitionWriter.OnDurable` | kafkrs-server/src/partition_writer.rs:313-318 | forgets that segment and removes its file unless the removal fails; every other segment and file stays |
| `PartitionWriter.PartitionWriter.Shutdown` | kafkrs-server/src/partition_writer.rs:173-190 | commits and then seals |
| `PartitionWriter.PartitionWriter.LocateOffset` | kafkrs-server/src/partition_writer.rs:324-341 | the tier of an offset, by the least segment in flight |
| `PartitionWriter.PartitionWriter.ReadActiveBatch` | kafkrs-server/src/partition_writer.rs:343-350 | the early-stopping loop equals filter and take over the active segment |
| `WriterRefinement.ProduceRefines` | kafkrs-server/src/partition_writer.rs:201-269 | for all thresholds the produce handler leads from reachable to reachable states, which agree with its fields, files, messages and acks |
| `WriterRefinement.CommitRefines` | kafkrs-server/src/partition_writer.rs:237-311 | the same for a group commit and the seal it may trigger |
| `WriterRefinement.ShutdownRefines` | kafkrs-server/src/partition_writer.rs:173-190 | the same for shutdown |
| `WriterRefinement.DurableRefines` | kafkrs-server/src/partition_writer.rs:313-318 | the same for a durable notice, whether the removal succeeds or not |
| `Uploads.WithNewEntry` | kafkrs-server/src/uploader.rs:175-192 | an entry above everything listed is appended by the push and sort |
| `Uploads.SortByBaseSorts` | kafkrs-server/src/uploader.rs:189-189 | the sort puts the same entries in order of their base offsets |
| `UploaderActor.AttemptsConverge` | kafkrs-server/src/uploader.rs:157-194 | from any state an upload can be interrupted in, one more attempt stays on the way and a successful one completes the upload with a single entry |
| `UploaderActor.EntryAsMeasured` | kafkrs-server/src/uploader.rs:175-189 | the entry of an upload has the batch's offsets and timestamps, its number of records, the measured size of the object and the object's name |
| `UploaderActor.RetainedObjects` | kafkrs-server/src/uploader.rs:236-257 | a pass that succeeds leaves no object of an evicted segment except those whose delete failed; no pass touches any other object |
| `UploaderActor.Uploader.UploadOnce` | kafkrs-server/src/uploader.rs:157-194 | the store after one attempt, for every combination of refused, answered and unanswered requests, the new entry field by field, and when it reports success |
| `UploaderActor.Uploader.Upload` | kafkrs-server/src/uploader.rs:103-126 | the retry loop ends with the segment uploaded and only then sends the notice |
| `UploaderActor.Uploader.RetentionPass` | kafkrs-server/src/uploader.rs:196-259 | a prefix without the tail is evicted, the policy's while nothing wraps: the manifest is rewritten first, then the objects go except those whose delete fails; what is left for every failure of the read and of the PUT |
| `UploaderActor.Retain` | kafkrs-server/src/uploader.rs:231-234 | the filter loop keeps the entries whose key is not among the evicted |
| `UploaderRefinement.UploadRefines` | kafkrs-server/src/uploader.rs:92-126 | an upload with any failures leads from reachable to reachable states and leaves the writer alone |
| `UploaderRefinement.RetentionRefines` | kafkrs-server/src/uploader.rs:196-259 | a retention pass, whichever prefix without the tail its 64-bit arithmetic picks and whatever becomes of its read, its PUT and its deletes, leads from reachable to reachable states and leaves the writer alone |
| `ProducePayload.PackInjective` | kafkrs-python/kafkrs/client.py:107-115 | the declared lengths and the payload determine the records |
| `ProducePayload.SlicePayload` | kafkrs-server/src/wire/dispatch/produce.rs:285-326 | accepts if and only if the declared lengths add up to the payload, and then returns the only records a client can have packed, each with the lengths, schema and timestamp declared for it |
| `ProducePayload.ValidateRecordSizes` | kafkrs-server/src/wire/dispatch/produce.rs:241-274 | accepts if and only if every record is within both limits, and otherwise names the first that is not, key before value |
| `ProducePayload.LimitsProtectFrameIff` | kafkrs-server/src/wire/dispatch/produce.rs:241-274 | the size limits keep every accepted record encodable if and only if the key limit is below 65536 and the largest body below 2^32 |
| `ProducePayload.AcceptedIsEncodable` | kafkrs-server/src/wire/dispatch/produce.rs:241-326 | a request accepted under such limits meets the condition the log theorems put on produces |
| `ProducePayload.StampedCarries` | kafkrs-server/src/partition_writer.rs:201-217 | the records of a produce have the keys, values and schemas of the request in order, the client's timestamps where they are not zero and the broker's clock otherwise, offsets counted up from the base, and together exactly the payload the client packed |
| `Sweep.SnapshotKeysUnder` | kafkrs-server/src/deletion.rs:58-98 | the first phase deletes only keys of its own incarnation |
| `Sweep.SnapshotKeysComplete` | kafkrs-server/src/deletion.rs:58-98 | the first phase deletes the object of every segment and the manifest of every partition that a snapshot accounts for |
| `Sweep.SweepRunEffect` | kafkrs-server/src/deletion.rs:47-131 | nothing outside the prefix is touched, and a sweep that succeeds leaves under it exactly the objects whose DELETE failed, none of which a snapshot accounts for |
| `Sweep.IncarnationsDisjoint` | kafkrs-server/src/deletion.rs:133-141 | no key lies under the prefixes of two incarnations |
| `Sweep.ObjectStore.DeleteKeys` | kafkrs-server/src/deletion.rs:39-98 | keys are deleted in order up to the first whose DELETE fails; it succeeds exactly when none fails, whether or not the objects were still there |
| `Sweep.ObjectStore.DeleteSnapshots` | kafkrs-server/src/deletion.rs:58-98 | the nested loops delete the keys of all snapshot manifests in order, up to the first whose DELETE fails; on success no segment or manifest of a snapshot is left |
| `Sweep.ObjectStore.DeleteOrphans` | kafkrs-server/src/deletion.rs:100-122 | of the listed keys that arrive before the stream breaks, exactly those whose DELETE fails are left |
| `Sweep.SweepDeletion` | kafkrs-server/src/deletion.rs:47-131 | when it succeeds exactly, what is then left under the prefix, that nothing a snapshot accounts for is left or failed, and that the pending record goes only then |
| `SweepTheorems.FinishedSweepLeavesOnlyFailures` | kafkrs-server/src/deletion.rs:47-125 | after any interleaving, interruption and replay of sweeps, a UUID whose sweep finished is not pending, and for ever after exactly the orphans it failed to delete are under its prefix, never anything that a snapshot of the topic accounts for |
| `SweepTheorems.OtherKeysUntouched` | kafkrs-server/src/deletion.rs:47-125 | a key of an incarnation that was not deleted is there if and only if it was put |
| `SweepTheorems.PendingUntilFinished` | kafkrs-server/src/main.rs:115-127 | a saved record stays pending, through crashes, until its own sweep has finished |
| `SweepTheorems.FailedOrphanStays` | kafkrs-server/src/deletion.rs:104-116 | a run in which the sweep finishes, its record is gone, and an object whose DELETE failed is under the prefix still |
| `SweepRefinement.SweepRefines` | kafkrs-server/src/deletion.rs:47-131 | from every scene, and for every failure of a DELETE, the stream or the pending file, what the sweep's code does is a run of the machine, and it finishes exactly when the code reports success |
| `PendingDeletes.FileIsSerial` | kafkrs-server/src/pending_deletes.rs:57-104 | for every interleaving of any number of tasks, failures and crashes, the file can be parsed and is the outcome of the committed operations one after another, each once: the appended records in order, without those removed later; and a task reports success exactly when it is among them |
| `PendingDeletes.SerialInOrder` | kafkrs-server/src/pending_deletes.rs:57-69 | one operation after another leaves the appended records in order and each as often as it was appended, without those whose UUID is removed later |
| `PendingDeletes.SerialHasIff` | kafkrs-server/src/pending_deletes.rs:57-69 | a record is left if and only if some append of it is followed by no remove of its UUID |
| `PendingDeletes.PendingIff` | kafkrs-server/src/pending_deletes.rs:57-104 | so no append is lost and a remove drops only its UUID, in every run |
| `AtomicFile.ReplacedFile.Replace` | kafkrs-server/src/pending_deletes.rs:71-104 | whichever of create, write, sync and rename fails, and whatever that leaves in the temporary file, the target holds the old list or the new one, the new one exactly when success is reported, and never becomes torn |
| `PendingDeletes.AppendRecord` | kafkrs-server/src/pending_deletes.rs:57-62 | adds the record at the end, or changes nothing when I/O fails |
| `PendingDeletes.RemoveRecord` | kafkrs-server/src/pending_deletes.rs:64-69 | drops exactly the records of the UUID, or changes nothing when I/O fails |
| `PendingDeletes.TaskRefines` | kafkrs-server/src/pending_deletes.rs:57-69 | a task that finds the lock free runs through the machine's steps to what its code does to the file, and commits exactly when the code reports success |
| `TopicRegistry.FileIsMemoryAndLeftover` | kafkrs-server/src/topic_registry.rs:186-323 | after any run with any I/O failures, the file is memory plus at most the entry of a create that failed after its write, whose name is not in memory, and every entry validates |
| `TopicRegistry.AlterJudgesPatch` | kafkrs-server/src/topic_registry.rs:266-302 | in every run, the merged configuration validates if and only if the patch does |
| `TopicRegistry.AckedTopicSurvives` | kafkrs-server/src/topic_registry.rs:186-323 | whatever came before, a topic whose creation was answered with its UUID stays, in memory and on disk, with the name, UUID, partition count, time and configuration of the request, through failures and restarts, until a delete or an alter of it is acknowledged |
| `TopicRegistry.DeleteAnswersCreate` | kafkrs-server/src/topic_registry.rs:186-205 | the delete of such a topic answers with the UUID and partition count of its create and takes it out of memory and file, or changes nothing when the rewrite fails |
| `TopicRegistry.AlterTakesEffect` | kafkrs-server/src/topic_registry.rs:257-323 | an alter is acknowledged exactly when the topic exists, the patch validates and the file is rewritten; then memory, file and reply have the patch laid over the old configuration field by field, and otherwise nothing changes |
| `TopicRegistry.OtherTopicsKept` | kafkrs-server/src/topic_registry.rs:186-323 | no event but a restart touches another topic's entry in memory, and no refused one touches any |
| `TopicRegistry.RefusalsSayWhy` | kafkrs-server/src/topic_registry.rs:150-300 | each refusal is given exactly for its reason: unknown topic, existing topic, the field out of range, or failed I/O on a possible change |
| `TopicRegistry.RefusedCreateComesBack` | kafkrs-server/src/topic_registry.rs:226-255 | a create that rewrites the file and then fails to prepare its partitions is refused and not in memory, but a restart right after it brings the topic up |
| `TopicConfig.MergeOverlays` | kafkrs-server/src/topic_registry.rs:266-296 | a patch overlays the old overrides field by field; an empty one changes nothing |
| `TopicConfig.ValidateNamesFirst` | kafkrs-models/src/topic.rs:108-146 | validation names the first field out of range, and accepts exactly when none is |
| `TopicRegistry.Values` | kafkrs-server/src/topic_registry.rs:193-195 | lists every entry once, in some order |
| `TopicRegistry.Registry.CreateTopic` | kafkrs-server/src/topic_registry.rs:207-255 | memory, file and reply for every failure, as the theorems above specify them; memory gains the entry only when all of it succeeded |
| `TopicRegistry.Registry.EnsureExists` | kafkrs-server/src/topic_registry.rs:150-162 | an existing topic is left alone, a missing one is created without overrides |
| `TopicRegistry.Registry.DeleteTopic` | kafkrs-server/src/topic_registry.rs:186-205 | a failed rewrite puts the entry back |
| `TopicRegistry.Registry.AlterTopic` | kafkrs-server/src/topic_registry.rs:257-323 | validates before it changes anything; a failed rewrite puts the old configuration back |
| `TopicRegistry.Registry.Load` | kafkrs-server/src/topic_registry.rs:97-131 | memory becomes what the file lists, and the validation gate never fires |
| `SpawnLock.AtMostOneWriter` | kafkrs-server/src/startup.rs:26-42 | without a delete of the topic, for any number of interleaved calls no two recover at once, at most one ever inserts a handle, and every call that returns finds the handle in place |
| `SpawnLock.OneRecoversAtATime` | kafkrs-server/src/startup.rs:26-42 | with any deletes in between, no two calls recover at once as long as every drop of the lock entry finds no call under way |
| `SpawnLock.OneInsertPerHandle` | kafkrs-server/src/startup.rs:120-129 | in such runs a delete takes the handle between any two inserts |
| `SpawnLock.UnsafeDropLeadsToTwo` | kafkrs-server/src/wire/dispatch/topic_admin.rs:260-266 | from every state with a call under way, whether or not a handle is there, dropping the lock entry leads to a run in which two calls recover at once |
| `SpawnLock.DropSafeIff` | kafkrs-server/src/wire/dispatch/topic_admin.rs:207-266 | dropping the lock entry is harmless if and only if no call has looked the lock up and is still under way |

## Left out

- Parquet, zstd, JSON, protobuf and the object-store client: segment and manifest encodings are taken as lossless, each PUT, DELETE and rename as one step.
- CRC32C arithmetic and bit rot: the codec holds for every checksum function, and a crash leaves a torn tail, not flipped bits.
- Files in the WAL directory whose name parses as a number but is not the name the writer gives (a leading plus sign or zeros).
- Liveness and bounded queues: queues are unbounded and only safety is claimed.
- Timers: a group commit by time is a flush that may happen at any moment; sealing by time is configured but no code acts on it.
- The unlinked file: after a failed open the writer class appends to a file that may have been removed; the machine ends such a run at that append, because it covers only writers whose file is in the directory.
- Sending an acknowledgement to a client that has gone, and the broadcast of the new high-water mark.
- `in_flight_slice`: nothing calls it.
- Crash atomicity of CreateTopic and DeleteTopic across the registry, the manifests, the WAL directory and the pending record: the code does not give all-or-nothing.
- WAL files of an earlier incarnation of a topic name: their paths carry no UUID.
- Order of configuration pushes to running actors under concurrent alters.
- Percent-encoding of unusual characters in object paths; topic names are taken as single path components.
- Resolving overrides against the disk profile, and everything about metrics, admin HTTP, configuration files, the handshake and the Python socket code: each is settled by reading one branch.
- `PartitionWriter.PartitionWriter.FlushCommit`: assumes the append succeeds; a failed one panics the writer's task, which the machine has as the step `Panic`.
- `WalFrame.OverlongKeyMalformed`: needs the body below 2^32, because a longer one also wraps the frame length and what then decodes depends on the checksum.
- `UploaderActor.Uploader.RetentionPass`: says how long the evicted prefix is only while the listed sizes stay below 2^63 and the clock is not negative; beyond that 64-bit arithmetic wraps.
- `OpenTheorems.FailedOpenLosesIff`: assumes that the next offset fits an `i64`, as its type says.
- `RevivalTheorems.ReissueIffRevival`: assumes that the offset behind the manifest fits an `i64`, as its type says.
- `RevivalTheorems.DisorderIffRevival`: assumes that the offset behind the manifest fits an `i64`, as its type says.
- `SpawnLock.AtMostOneWriter`: speaks of recovery and of handles; a writer whose handle a delete has taken may still be shutting down when the next one starts.
- `SweepTheorems.FinishedSweepLeavesOnlyFailures`: assumes that no writer of a deleted topic is left and that a UUID is deleted once.
