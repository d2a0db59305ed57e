# MetroPulse verification

A Dafny model of the parts of MetroPulse that decide what data exists and which of it is visible: the two
conditional-write protocols on AWS, the monthly compaction they publish, the continuity and audit arithmetic about
it, the row validation that feeds it, the local splitter and its crash-safe daily publication, and the canonical
selection documents that name a run. `dafny verify dfyconfig.toml` verifies the whole project.

## What is modelled

**Object store** (`Storage`). Objects with entity tags, put-if-absent and put-if-match (sections 13.1.2 and 13.1.1
of RFC 9110), and what a client can learn from a reply that is lost, late or refused. `InMemoryObjectStorage` is the
repository's own offline store, with its counters and scripted races.

**Monthly publication** (`PublicationProtocol`, `PublicationSafety`, `PublicationRuns`, `PublicationProcessor`). Any
number of compaction invocations of one month, of any runs and owners, is a state machine. Each storage or Glue call
is one step; an invocation has a program counter and may stop for ever at any of them. A request may be lost, a reply
may be lost, a conditional write may be refused as a conflict. Whatever was once sent to Glue may take effect at once,
later, or again, so a read followed by an update is not atomic and a response says nothing. A storage put that takes
effect only after its caller has given up needs no step of its own: `LatePutIsPausedCaller` shows that it leaves the
state of a run in which the caller made the call that much later. The theorems hold at every state of every sequence
of moves. `GluePartitionPublisher` and `S3MonthlyCompactionProcessor` are the imperative
classes; their `Cloud` lets the other invocations move before every call and carries the postcondition that the state
is where the recorded moves lead, so each method's effects are a path of the machine and the theorems are about it.

**Daily validation** (`ValidationProtocol`, `ValidationSafety`, `ValidationRuns`, `ValidationMarkers`,
`ValidationProcessor`). The same construction for all deliveries of one source object: the sixteen-minute lease and
its takeover by entity tag, unconditional overwrites of outputs, the write-once marker and its verification, a clock
that never goes back, and a source whose bytes may be stored again at any time. `ObjectProcessor` and
`ControlCoordinator` are the imperative classes.

**Compaction** (`MonthlySelection`, `Compaction`, `CompactionTheorems`, `MisreportedGap`, with `Ordering`, `Intervals`,
`Calendar`).
Selection validation, reading and checking daily tables, merging, sorting, verification, boundary findings, gap
counts and reconciliation, with each check in the order the code makes it.

**Audits** (`Counters`, `BatchMetrics`, `Continuity`, `GlobalAudit`, `GlobalAuditTheorems`, `AuditInventory`,
`ScheduledAudit`, `ScheduledAuditTheorems`). Interval counters with Python's addition, which drops results that are
not positive; boundary evaluation; the continuity audit over daily manifests; the inventory and its month sequence;
the audit of curated months against stored evidence and catalog.

**Rows** (`RowValidation`, `DailyTransform`, `TransformTheorems`). The local rules of a row, the object-wide
duplicate rules, and the split into valid and quarantined rows.

**Local backfill** (`SourceStream`, `Splitter`, `DailyPublish`, `DailyPublishTheorems`). The record stream that keeps
original text, the one-pass splitter, and the publication of a day as a sequence of atomic disk changes that the
machine may stop between any two of.

**Selection documents** (`Json`, `SelectionDocuments`). Printer, parser, normal form and run identity.

## Assumptions

- An entity tag or SHA-256 digest is modelled as an injective function of the body (`Digest`). In
  `SelectionDocuments` and `DailyPublishTheorems` injectivity is a named hypothesis where it is needed.
- Object metadata is reduced to the recorded SHA-256. The bucket and, for publication, the month are fixed.
- The source key of a validation identity keeps the bytes, checksum and version that the identity names. Only its
  LastModified time may change, when the same bytes are stored again without versioning.
- Timestamps are whole seconds, as the source format has them; dates are ordinals of the Gregorian calendar.
- Number, date and CSV parsing, ISO texts, Parquet, canonical JSON text and hashing are function parameters. What is
  assumed of them is the round trip of each, collected in predicates named `Lawful`.
- An owner token made of white space is the same as none. A failing Glue table read, or a table with another schema,
  is a failing read of the partition.
- A run of the compaction processor begins with its markers and staging objects read: the run identifier, the three
  immutable bodies and the expected Glue location are its parameters.
- A JSON document whose fields have types that the programs never write is outside the model, except in
  `SelectionDocuments`, where the parser's conversions are modelled; numbers there are integers.

## Results that differ from a first reading of the code

- `ReuploadBreaksMarker`, `LateWriterBreaksMarker`, `TrustworthyIffVersioned`: a verified completion marker can stop
  describing its outputs when two deliveries of one identity stamp their outputs differently. That happens when the
  source has no LastModified time, and also when an unversioned source is stored again with the same bytes: a checksum
  or entity tag names the same identity at another time. A new identity is safe in every run exactly when its source is
  a version of a versioned object with a LastModified time, or cannot be processed. If nobody stores the source again,
  LastModified alone decides (`TrustworthyIffLastModified`).
- `RedundantChecks`, `BoundariesAreForward`: six errors of `compact_month` cannot be raised by any input, and two of
  its four boundary classes cannot occur. One of the six, an oversized row group, is impossible because the fixed
  writer is modelled as cutting full row groups (`RowGroups`); the check itself is of the file's own group sizes, and
  a file from elsewhere can fail it (`VerifiesExactlyWhen`).
- `GapsAreReported`, `UnorderedTableMisreports`: the boundary findings look at a daily file's first and last rows. No
  gap between neighbouring days goes unreported, but a file out of time order can report one that the month does not
  have. Reported and actual gaps agree exactly when, at every boundary that looks significant, every row of the one day
  is that far from every row of the next. `MisreportedGap` is a month of February 2020 that compacts and misreports.
- `ComposesExactlyWhen`: the composition checks of the continuity audit hold exactly when no interval's counts add up
  below zero and no significant interval has a negative count beside a boundary.
- `GlobalGapCount`: the scheduled audit's global gap count leaves out gaps that bridge an empty month, and only those.
- `NextRunSkips`: a finished day is rebuilt by every later run if its pipeline version or source identity holds an
  absolute Windows path, because the manifest check refuses what the publication itself wrote.
- `CoverageSharesTheRun`: the expected raw dates, known range and terminal flag are in the selection document but not
  in the run identity, so approvals that differ only there share one run identifier and one key.

## Model

| member | source | states |
|---|---|---|
| Storage.AnswerExplains | metropulse/aws/storage.py:86-123 | whatever a client learns from a reply, through lost requests, lost replies and refusals, is true of the objects afterwards |
| Storage.InMemoryObjectStorage.Seed | metropulse/aws/testing.py:35-59 | installs the object with the tag of its body unless given one, and nothing else changes |
| Storage.InMemoryObjectStorage.Fetch | metropulse/aws/testing.py:66-71 | returns the object of that key and version and counts only successful reads |
| Storage.InMemoryObjectStorage.Store | metropulse/aws/testing.py:73-111 | stores exactly when the condition holds and no scripted writer wins; otherwise nothing of the caller's is written |
| PublicationSafety.StepKeepsInv | metropulse/aws/compaction_processor.py:42-162 | every call of any invocation, and every late Glue effect, keeps the protocol's invariant and the write-once objects |
| PublicationRuns.GlueNamesCompletedRuns | metropulse/aws/compaction_processor.py:94-138 | in every run, Glue names only runs whose selection, curated and completion objects exist and never change afterwards |
| PublicationRuns.RunDataHasOneOwner | metropulse/aws/compaction_processor.py:94-118 | all data puts ever sent under one run, those refused or lost included, carry one owner token |
| PublicationRuns.WrittenDataWasSent | metropulse/aws/compaction_processor.py:253-270 | a data object appears only through a put that an invocation sent |
| PublicationRuns.StepKeepsClaimRules | metropulse/aws/compaction_processor.py:290-337 | without authorization, every publishing invocation and every mutation sent belongs to the month claim's owner and run |
| PublicationRuns.MonthClaimNeverChanges | metropulse/aws/compaction_processor.py:290-329 | without an authorized etag the month claim never changes once set |
| PublicationRuns.OneMutatorPerMonth | metropulse/aws/catalog.py:48-71 | without authorization all mutations ever sent to Glue are one owner's, for one run and location |
| PublicationRuns.MovedPartitionIsClaimed | metropulse/aws/catalog.py:39-77 | a partition that has moved sits at the month claim's run |
| PublicationRuns.PartitionMovesAtMostOnce | metropulse/aws/catalog.py:39-77 | without authorization the partition's location changes at most once |
| PublicationRuns.RecheckFollowsObservation | metropulse/aws/catalog.py:39-77 | before re-reading the claim an invocation has observed Glue at its run with the run's objects in place |
| PublicationRuns.ReceiptFollowsRecheck | metropulse/aws/compaction_processor.py:126-141 | before writing a receipt the invocation re-read the claim as its own, after that observation |
| PublicationRuns.ReceiptsAreEarned | metropulse/aws/compaction_processor.py:126-153 | behind every receipt there are, in order, the observation of Glue, the re-read claim and the write, by one invocation |
| PublicationRuns.ReplacedClaimWritesNoReceipt | metropulse/aws/compaction_processor.py:331-337 | an invocation that finds its claim replaced has failed for good |
| PublicationRuns.OnePublisherPerRun | metropulse/aws/compaction_processor.py:148-162 | at most one invocation of a run returns as newly published |
| PublicationRuns.RetriesStayOnPath | metropulse/aws/compaction_processor.py:66-92 | a completed retry only fails or returns, and returns only after Glue was read at its location |
| PublicationRuns.RetriesNeverWrite | metropulse/aws/compaction_processor.py:66-92 | after finding a valid receipt an invocation changes neither the store nor anything sent to Glue |
| PublicationRuns.RetriesReturnOnAgreement | metropulse/aws/compaction_processor.py:350-391 | a completed retry returns only if receipt, selection, curated and completion bytes agree with its own |
| PublicationRuns.LatePutIsPausedCaller | metropulse/aws/storage.py:86-123 | a put that lands after its caller failed, with anything in between, leaves a state that a slower caller also leaves |
| PublicationProcessor.GluePartitionPublisher.Publish | metropulse/aws/catalog.py:21-77 | the guarded create or update with exact read-back is a path of the step relation and ends where the machine does |
| PublicationProcessor.S3MonthlyCompactionProcessor.Process | metropulse/aws/compaction_processor.py:42-162 | the method's calls are a path of the step relation, its result is the machine's, and it returns only with the run's objects and receipt in the store |
| PublicationProcessor.S3MonthlyCompactionProcessor.Construct | metropulse/aws/compaction_processor.py:94-118 | the claim, its re-read and the three immutable puts are a path of the machine that ends where the month claim is next |
| PublicationProcessor.S3MonthlyCompactionProcessor.Expose | metropulse/aws/compaction_processor.py:126-162 | publishing, the re-read claim and the receipt are a path of the machine; the result is the machine's and carries who completed the run |
| PublicationProcessor.S3MonthlyCompactionProcessor.VerifyCompletedPublication | metropulse/aws/compaction_processor.py:350-391 | passes only with an acceptable receipt in hand and in the store, and with the three stored objects equal to its own |
| PublicationProcessor.S3MonthlyCompactionProcessor.PutImmutable | metropulse/aws/compaction_processor.py:253-270 | creates the object or finds identical bytes; differing bytes end the invocation |
| PublicationProcessor.S3MonthlyCompactionProcessor.AcquireOwnedClaim | metropulse/aws/compaction_processor.py:272-288 | creates the construction claim or finds it already its own |
| PublicationProcessor.S3MonthlyCompactionProcessor.AcquirePublicationClaim | metropulse/aws/compaction_processor.py:290-329 | creates the month claim, finds it its own, or replaces exactly the authorized one |
| PublicationProcessor.S3MonthlyCompactionProcessor.VerifyOwnClaim | metropulse/aws/compaction_processor.py:331-337 | continues only if the claim read back is its own |
| ValidationSafety.StepKeepsLeases | metropulse/aws/coordination.py:76-132 | every step keeps claim objects, claimants and their leases apart and in order |
| ValidationSafety.StepKeepsPlan | metropulse/aws/processor.py:195-264 | every step keeps outputs, marker and returned results within what the one source object determines |
| ValidationRuns.LeasesFollow | metropulse/aws/coordination.py:85-132 | each new claim starts at or after the old one's expiry, and lasts the fixed lease |
| ValidationRuns.ClaimsNeverRecur | metropulse/aws/coordination.py:119-132 | once replaced, neither a claim nor its etag ever comes back |
| ValidationRuns.LeasesSpan | metropulse/aws/coordination.py:18-19 | n successive claims span at least n times sixteen minutes |
| ValidationRuns.OneLiveOwner | metropulse/aws/coordination.py:85-132 | of invocations still within their lease no two are ever between claim and completion together |
| ValidationRuns.MarkerIsFinal | metropulse/aws/processor.py:256-265 | the completion object goes from absent to its final bytes and never changes again |
| ValidationRuns.ResultsAgree | metropulse/aws/processor.py:157-162 | all invocations that return report the counts and keys of the one stored marker |
| ValidationRuns.OneProcessed | metropulse/aws/processor.py:256-304 | at most one invocation ever returns processed |
| ValidationRuns.LatePutIsPausedCaller | metropulse/aws/storage.py:86-123 | the same of the daily protocol: a put landing after its caller gave up adds no reachable state |
| ValidationMarkers.MarkersAreTrustworthy | metropulse/aws/processor.py:181-276 | while the identity keeps one LastModified time, in every run a present marker's outputs hold its bytes and no invocation rejects a marker |
| ValidationMarkers.LateWriterBreaksMarker | metropulse/aws/processor.py:181-183 | without LastModified there is a run after which the marker disagrees with the staging object |
| ValidationMarkers.ReuploadBreaksMarker | metropulse/aws/idempotency.py:27-32 | storing an unversioned source again with the same bytes gives a run after which the marker disagrees with the staging object |
| ValidationMarkers.TrustworthyIffLastModified | metropulse/aws/processor.py:181-183 | over the runs in which nobody stores the source again, markers stay trustworthy exactly when LastModified is present or the object cannot be processed |
| ValidationMarkers.TrustworthyIffVersioned | metropulse/aws/processor.py:328-335 | over all runs, exactly when the source has a version and a LastModified time or cannot be processed |
| ValidationProcessor.ControlCoordinator.Completion | metropulse/aws/coordination.py:35-74 | a marker it returns is the stored one, reads as this identity's, reconciles and names the right outputs; none only when absent |
| ValidationProcessor.ControlCoordinator.AcquireClaim | metropulse/aws/coordination.py:76-132 | creates the claim, or replaces by etag one that has expired; every other outcome ends the invocation |
| ValidationProcessor.ControlCoordinator.VerifyReference | metropulse/aws/coordination.py:134-147 | passes only when the referenced object is in the store with the recorded size, digest and checksum metadata |
| ValidationProcessor.ObjectProcessor.Process | metropulse/aws/processor.py:129-304 | the method's calls are a path of the step relation and its result is the machine's |
| ValidationProcessor.ObjectProcessor.HeadSource | metropulse/aws/processor.py:137-143 | succeeds only with the stored source, at the pinned version, agreeing with the event and within the size limit |
| ValidationProcessor.ObjectProcessor.ReadAndTransform | metropulse/aws/processor.py:170-223 | succeeds only on a stored body with the head's size, tag, version and checksum, with the reconciling outputs of that body |
| ValidationProcessor.ObjectProcessor.Publish | metropulse/aws/processor.py:256-278 | on return the store holds the marker whose result it gives: its own when processed, otherwise the verified winner's |
| ValidationProcessor.ObjectProcessor.WriteOutput | metropulse/aws/processor.py:337-353 | overwrites the output with this invocation's bytes |
| MonthlySelection.AcceptedSelection | metropulse/compaction_selection.py:16-52 | an accepted selection is a rearrangement of its inputs, strictly increasing in date, each passing every input rule |
| MonthlySelection.SortsAgree | metropulse/compaction_selection.py:26-29 | rearranging the inputs changes neither whether a date repeats nor, without one, their order |
| MonthlySelection.ShufflingIsInvisible | metropulse/compaction_selection.py:16-52 | validation gives the same result for every order of the inputs |
| Calendar.MonthsAreContiguous | metropulse/audit_inventory.py:285-290 | each month starts the day after the one before it ends |
| Calendar.MonthIsUnique | metropulse/compaction_selection.py:77-78 | a date belongs to one month only |
| Intervals.GapsDecompose | metropulse/monthly_compaction.py:170-182 | the gaps of a concatenation are those inside parts, between neighbours and across runs of empty parts |
| Intervals.DeltasTelescope | metropulse/metrics.py:69-72 | adjacent differences add up to last minus first |
| Ordering.SortOfBlocks | metropulse/curated_parquet.py:62-66 | sorting consecutive blocks sorts each block |
| Ordering.StrictlySortedIsUnique | metropulse/curated_parquet.py:62-66 | a collection has at most one strictly sorted arrangement |
| Compaction.BoundaryFindings | metropulse/monthly_compaction.py:145-167 | the loop classifies every pair of neighbouring inputs, in order |
| Compaction.LoadTables | metropulse/monthly_compaction.py:59-81 | the loop loads every day or stops at the first that is unreadable or repeats a time or index of an earlier day |
| Compaction.CompactMonth | metropulse/monthly_compaction.py:33-133 | the algorithm computes the specified month, with its first failing check when there is one |
| CompactionTheorems.CompactsExactlyWhen | metropulse/monthly_compaction.py:33-133 | it succeeds exactly when the selection is valid, within bounds and readable, no time or index repeats in the month, and the output fits |
| CompactionTheorems.RedundantChecks | metropulse/monthly_compaction.py:75-116 | cross-day timestamps, loaded rows, curated row count, row groups, order and reconciliation never fail |
| CompactionTheorems.DaysLoad | metropulse/monthly_compaction.py:73-80 | days cannot share a timestamp, so loading needs only readable tables and fresh indexes |
| CompactionTheorems.MonthSortsByDay | metropulse/curated_parquet.py:60-66 | sorting the month is concatenating each day's sort in date order |
| CompactionTheorems.CuratedVerifies | metropulse/curated_parquet.py:90-110 | of the output checks only the row count and the two uniqueness checks can fail |
| CompactionTheorems.VerifiesExactlyWhen | metropulse/curated_parquet.py:90-110 | any file passes the independent check exactly when its times strictly increase, no index repeats, and schema, codec, groups and count are right |
| CompactionTheorems.RowGroupsFit | metropulse/curated_parquet.py:76-86 | no row group of the writer's cut exceeds the fixed size |
| CompactionTheorems.RowGroupCount | metropulse/curated_parquet.py:76-86 | the writer's cut has as many row groups as the row count over the group size, rounded up, and at least one |
| CompactionTheorems.SelectionReconciles | metropulse/compaction_manifest.py:87-93 | the selected input total is valid plus quarantined rows in whichever order the inputs are summed |
| CompactionTheorems.CuratedMonth | metropulse/monthly_compaction.py:82-133 | the output is a permutation of the daily tables and their sorts in date order, strictly increasing in time, distinct in index, conserving row counts |
| CompactionTheorems.CleanDaysShareNoTime | metropulse/curated_parquet.py:107-108 | when no day repeats a time, compaction never reports duplicate timestamps |
| CompactionTheorems.ShuffledSelectionCompactsAlike | metropulse/monthly_compaction.py:33-133 | the result does not depend on the order of the selection's inputs |
| CompactionTheorems.MissingDates | metropulse/compaction_selection.py:55-58 | missing dates are exactly the expected ones without an input, in order |
| CompactionTheorems.BoundariesAreForward | metropulse/monthly_compaction.py:155-163 | no boundary of an accepted selection is reversed or overlapping |
| CompactionTheorems.GapsByDay | metropulse/monthly_compaction.py:170-182 | the month's gap count is the days' own gaps, those between neighbouring days and those across empty days |
| CompactionTheorems.GapsAreReported | metropulse/monthly_compaction.py:145-167 | every gap between neighbouring days is reported, and nothing else is exactly when every boundary is faithful |
| CompactionTheorems.ReportedGaps | metropulse/monthly_compaction.py:145-167 | when each file's first and last rows hold its extreme times, gaps between neighbouring days are exactly the reported findings |
| CompactionTheorems.ReportedGapsOfOrderedTables | metropulse/monthly_compaction.py:145-167 | so they are when every file is in time order |
| MisreportedGap.UnorderedTableMisreports | metropulse/curated_parquet.py:50-56 | a concrete month compacts and reports one gap between neighbouring days where there is none |
| Counters.CountedSum | metropulse/continuity.py:36-56 | summing a weight over a counter is summing it over what was counted |
| BatchMetrics.TallyCounts | metropulse/global_audit.py:85-87 | adding a day's frequency table to a counter counts the day's deltas |
| BatchMetrics.FrequenciesAreComplete | metropulse/metrics.py:73-83 | the counts of the interval distribution add up to the number of deltas |
| BatchMetrics.SignificantDeltasAreGaps | metropulse/metrics.py:74-90 | the significant-gap metric is the number of gaps in the parsed times |
| BatchMetrics.BuildBatchWarnings | metropulse/metrics.py:102-137 | exactly the warnings whose count is not zero or whose batch is small, with their counts, once each and in order |
| Continuity.EvaluateBoundaries | metropulse/continuity.py:59-101 | the loop's findings are those of each boundary and its counter counts each assessable delta; it fails only on an aware boundary |
| Continuity.ComposesExactlyWhen | metropulse/global_audit.py:161-174 | the exact condition under which the three composition checks hold |
| Continuity.CompositionHolds | metropulse/global_audit.py:161-174 | for nonnegative counts the composition checks always hold |
| Continuity.CountedSummary | metropulse/continuity.py:36-56 | the summary of a distribution is the number, the abnormal number and the significant number of its deltas |
| Continuity.BoundaryGapsAreNeighbourGaps | metropulse/continuity.py:104-110 | significant boundary deltas are the gaps between neighbouring partitions |
| Continuity.HistoryDeltas | metropulse/global_audit.py:161-164 | the deltas of a history of nonempty partitions are those inside them plus those at their boundaries |
| Continuity.HistorySpan | metropulse/global_audit.py:161-164 | daily and boundary deltas together add up to the history's span |
| GlobalAudit.AuditPartitionContinuity | metropulse/global_audit.py:60-225 | the loops build exactly the report that the manifests in date order call for, or the first refusal |
| GlobalAuditTheorems.HonestHistory | metropulse/global_audit.py:76-191 | for quarantine-free days the checks hold and every gap is counted but those that bridge empty days |
| GlobalAuditTheorems.CompleteHistory | metropulse/global_audit.py:161-191 | for nonempty quarantine-free days the global distribution is the history's, telescopes to its span, and the audit passes exactly on the true gap count |
| AuditInventory.MonthSequence | metropulse/audit_inventory.py:282-291 | the loop terminates with all months from start to end |
| AuditInventory.MonthsFollow | metropulse/audit_inventory.py:282-291 | the sequence starts with the start month and each month directly follows the one before |
| AuditInventory.RangeIsCoveredOnce | metropulse/audit_inventory.py:140-148 | each date of the known range is in exactly one of the required months |
| AuditInventory.DuplicateCheckIsRedundant | metropulse/audit_inventory.py:143-148 | once labels match the sequence, the duplicate check cannot fail |
| ScheduledAudit.InspectionVerifies | metropulse/scheduled_audit.py:59-120 | a month fails exactly when some evidence does not verify; otherwise its rows are the stored ones, and something is noted exactly when counts or catalog differ |
| ScheduledAudit.InspectMonths | metropulse/scheduled_audit.py:56-131 | the loop accumulates exactly the outcomes of all months; failed ones contribute no rows, gaps or endpoints |
| ScheduledAudit.AuditCuratedInventory | metropulse/scheduled_audit.py:32-159 | a valid inventory always gets a result, and it is the one its months call for |
| ScheduledAudit.NaiveEndpoints | metropulse/scheduled_audit.py:135-142 | after validation the audit cannot fail on a time zone or a negative gap count |
| ScheduledAuditTheorems.NoFailures | metropulse/scheduled_audit.py:95-106 | without failures totals and endpoints are those of every month |
| ScheduledAuditTheorems.PassesExactlyWhen | metropulse/scheduled_audit.py:46-143 | the audit passes exactly when its limits are kept, every required month verifies, agrees and is shown by the catalog, and the rows add up |
| ScheduledAuditTheorems.PassedAuditVerifies | metropulse/scheduled_audit.py:59-143 | after a passed audit every required month's selection, completion, receipt, table, boundaries and catalog entry verify, and its rows are the stored ones |
| ScheduledAuditTheorems.CompactedRows | metropulse/monthly_compaction.py:82-91 | a compacted month's rows fall in that month in strictly increasing time |
| ScheduledAuditTheorems.GlobalGapCount | metropulse/scheduled_audit.py:97-142 | when completions and rows read are those of compactions, the reported global count is the whole history's gaps less those bridging empty months, and nothing overlaps |
| RowValidation.TimestampTextIsExact | metropulse/parsing.py:70-75 | accepted timestamps are equal only if their texts are |
| RowValidation.IssueFreeWhen | metropulse/validation.py:97-192 | a row of its own has no issue exactly when every column is present, parses and lies in its domain on the right date |
| RowValidation.ListedIssues | metropulse/validation.py:68-71 | the listed issues are exactly the rules broken, and a record exists exactly when there are none |
| RowValidation.ParseAnalog | metropulse/validation.py:121-133 | reports an unparseable or infinite analog column exactly when there is one, and keeps every parsed value |
| RowValidation.ParseDigital | metropulse/validation.py:135-148 | reports an unparseable or out-of-domain digital column exactly when there is one, and keeps every bit |
| RowValidation.ValidateSourceRow | metropulse/validation.py:74-202 | computes the specified row; its lookups and the non-null assertion never fail |
| DailyTransform.ApplyDuplicateRules | metropulse/validation.py:205-235 | the two counting passes compute the specified marking of every row |
| DailyTransform.SurvivesExactlyWhen | metropulse/validation.py:215-233 | a row stays free of issues exactly when it had none and no other row parsed its index or its time |
| DailyTransform.OrderIsInvisible | metropulse/validation.py:205-206 | the duplicate rules commute with every permutation of the rows |
| DailyTransform.DeduplicationIsIdempotent | metropulse/validation.py:205-235 | applying the duplicate rules twice is applying them once |
| TransformTheorems.IssueFreeExactlyWhen | metropulse/transform.py:68-76 | after both passes a row is issue-free exactly when it is valid against all rows of the object |
| TransformTheorems.EveryRowIsPlaced | metropulse/transform.py:77-92 | every row is either valid or quarantined, never both, each side in source order and with its own content |
| TransformTheorems.ReconciliationAlwaysHolds | metropulse/metrics.py:140-165 | reconciliation never fails, and a batch is error-free exactly with the right header and some rows |
| TransformTheorems.ValidRecordsAreApart | metropulse/transform.py:77-81 | valid records have distinct indexes and times, all on the expected date |
| TransformTheorems.StagedDaysNeverRepeatTimes | metropulse/curated_parquet.py:107-108 | compaction of days staged by the transformation never reports duplicate timestamps |
| SourceStream.ReadingIsLossless | metropulse/source_stream.py:39-53 | the records' original texts, one after another, are the source's lines |
| SourceStream.TrackingLines.TakeConsumed | metropulse/parsing.py:37-40 | returns the text of the lines read since it was last called |
| SourceStream.TrackingLines.NextRecord | metropulse/source_stream.py:39-53 | yields the next routed record with its exact text, the end, or the error that ends the stream |
| SourceStream.TrackingLines.OpenSourceStream | metropulse/source_stream.py:27-37 | accepts exactly the contract's header and leaves the body untouched |
| Splitter.SplitRecords | metropulse/backfill.py:115-142 | the loop publishes exactly the runs that its specification names and ends with the specified error |
| Splitter.RunBackfill | metropulse/backfill.py:44-149 | pipeline version, dates and processing timestamp are checked in that order, then the header, then the records are split |
| Splitter.RunsAreMaximal | metropulse/backfill.py:121-135 | neighbouring partitions differ in date and none is empty |
| Splitter.RegressionFound | metropulse/backfill.py:125-132 | at the first earlier date, every run before it, the open one included, has been closed |
| Splitter.RunsHoldTheirDate | metropulse/backfill.py:119-138 | each partition holds exactly its date's records in source order |
| Splitter.SplittingIsLossless | metropulse/backfill.py:115-142 | without bounds the partitions' contents concatenate to the source body and their dates strictly increase |
| Splitter.FailsExactlyAtRegression | metropulse/backfill.py:128-132 | the run ends with a regression exactly when some record's date is before that of the record before it |
| DailyPublish.Directory.Change | metropulse/local_io.py:41-57 | one atomic change happens completely or, when the machine has stopped, not at all |
| DailyPublish.Directory.PublishDay | metropulse/daily_backfill.py:253-366 | the publication makes its planned disk changes in order, cut short only where the machine stops |
| DailyPublish.Directory.WriteOutputs | metropulse/daily_backfill.py:328-363 | staging, then quarantine or its absence, then the manifest last |
| DailyPublishTheorems.EveryStateIsConsistent | metropulse/daily_backfill.py:295-363 | every disk state a publication makes, from any disk, has a manifest only if it describes the other files |
| DailyPublishTheorems.StoppingIsSafe | metropulse/daily_backfill.py:253-366 | stopping at any instant leaves a consistent day |
| DailyPublishTheorems.BatchCounts | metropulse/daily_backfill.py:317-326 | a publishable batch has as many valid plus quarantined rows as were split |
| DailyPublishTheorems.FinishedIsCompleted | metropulse/daily_backfill.py:48-156 | what a rebuild writes is accepted as completed exactly when its settings name no absolute path |
| DailyPublishTheorems.UpgradedIsCompleted | metropulse/daily_backfill.py:189-239 | an upgraded legacy manifest is accepted as completed |
| DailyPublishTheorems.NextRunSkips | metropulse/daily_backfill.py:266-297 | after a skipped or upgraded day the next run writes nothing; after a processed or rebuilt one exactly when no absolute path is named, and otherwise it rebuilds again |
| DailyPublishTheorems.RebuildsEndAlike | metropulse/daily_backfill.py:295-366 | every rebuild of one split text ends with the same files, whatever was on disk |
| DailyPublishTheorems.ResumedRunEndsAlike | metropulse/daily_backfill.py:253-366 | a rebuild stopped before, between or after its changes and run again, forced or not, ends with the files of the uninterrupted run |
| SelectionDocuments.InputRoundTrip | metropulse/selection_approval.py:175-197 | a printed input reads back as itself with lower-case digests |
| SelectionDocuments.NormalIsValid | metropulse/compaction_selection.py:16-52 | the normal form of a valid selection is valid and already in order |
| SelectionDocuments.NormalPrintsAlike | metropulse/compaction_selection.py:61-73 | a selection and its normal form have the same document and run identity |
| SelectionDocuments.SelectionRoundTrip | metropulse/selection_approval.py:156-172 | a valid selection's payload reads back as its normal form |
| SelectionDocuments.DocumentRoundTrip | metropulse/selection_approval.py:36-62 | parsing a printed document returns its run identifier and the normal form |
| SelectionDocuments.AcceptedAreExactlyPrinted | metropulse/selection_approval.py:45-62 | the accepted payloads are exactly the printer's image, and parsing gives normal forms |
| SelectionDocuments.RunIdsAgreeExactlyWhen | metropulse/compaction_identity.py:41-80 | run identifiers agree exactly when the normalized inputs do |
| SelectionDocuments.DocumentsAgreeExactlyWhen | metropulse/compaction_manifest.py:108-114 | documents agree exactly when the normal forms do |
| SelectionDocuments.CoverageSharesTheRun | metropulse/compaction_identity.py:41-63 | selections of the same inputs share a run identifier, and a document exactly when their coverage agrees |

## Left out

- Liveness: an interrupted construction claim or a stale month claim waits for an operator by design, so only safety
  is proved.
- Fencing of a paused former publisher after an authorized takeover: the design disclaims it; visibility is proved
  for that case, last-owner-wins is not.
- Deletion or corruption of stored objects by outside parties, and storage lifecycle rules.
- Reading pinned markers and staging objects inside the compaction processor, and the conditional publication of an
  approved selection or inventory: the same put-if-absent and read-back as `PutImmutable`.
- Object keys, bucket names and `InvalidObjectKey`; Glue table schema comparison; table descriptors.
- The observer, its metrics and events, request identifiers and durations.
- All texts of messages and reasons.
- Real CSV lexing, Parquet, Arrow schemas, Snappy and JSON text; float rounding; lone surrogates in text.
- Sub-second timestamps: the sources have none, and the audits would truncate them where compaction does not.
- GlobalAudit.AuditPartitionContinuity: loading manifests from disk is a parameter; the loop that builds warnings is
  modelled by the finding lists they are built from.
- ScheduledAudit.AuditCuratedInventory: the inventory identity and the result labels are not modelled.
- DailyPublish.Directory.PublishDay: directory creation and temporary files are not modelled, and a manifest on disk
  has the fields and types that some version of the program writes.
- Continuity.CountedSummary: the largest, smallest and median interval of a summary are not modelled.
- CompactionTheorems.RowGroupsFit: about the modelled writer's cut of a table, not about the Parquet library's.
- CompactionTheorems.RowGroupCount: likewise about the modelled writer.
- Automatic repeats of one request inside the storage client, where an earlier attempt lands beside a later one.
- Splitter.RunBackfill: a partition is handed over as a value; what its publication then does is `DailyPublish`, and
  the run's summary is not modelled.
- Compaction.CompactMonth: the run identifier is computed by `SelectionDocuments`; keys and the completion document's
  descriptive fields are not modelled.
- Command lines, Lambda entry points, configuration, Terraform, SQL, Docker and the feasibility scripts.
