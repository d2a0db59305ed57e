/** The scheduled audit of the inventoried months against their stored evidence and the catalog. */
module ScheduledAudit {
  import opened Options
  import opened Calendar
  import opened Counters
  import opened Continuity
  import opened AuditInventory
  import Compaction
  import CompactionTheorems

  datatype AuditBounds = AuditBounds(maxMonths: int, maxObjectBytes: int, maxTotalBytes: int, maxTotalRows: int)

  /** A completion document; a field that is absent is any value no inventory holds. */
  datatype Completion = Completion(
    runId: string,
    period: Label,
    first: Option<Timestamp>,
    last: Option<Timestamp>,
    manifestVersion: string,
    significantGaps: int,
    terminalPartial: bool,
    selectedRows: int,
    quarantineRows: int,
    curatedKey: string,
    curatedSha256: string,
    curatedByteSize: int,
    curatedRows: int,
    missingDates: seq<int>,
    curatedEqualsSelected: bool,
    inputReconciles: bool
  )

  datatype Receipt = Receipt(contract: string, runId: string, location: string, outcome: string, owner: string, zoned: bool)

  datatype CatalogReply = Absent | Present(values: Label, location: string) | CatalogFailed

  /**
   * What the audit can read. Each function answers None where the read fails: the object is missing, its pinned
   * identity differs, or its content cannot be decoded. A selection reads as the run identifier it proves.
   */
  datatype World = World(
    selectionOf: Pinned -> Option<string>,
    completionOf: Pinned -> Option<Completion>,
    receiptOf: Pinned -> Option<Receipt>,
    curatedOf: CuratedObject -> Option<Compaction.Parquet>,
    partitionOf: Label -> CatalogReply,
    blank: string -> bool
  )

  datatype Reason =
    | TooManyMonths | TooManyTotalBytes | TooManyTotalRows
    | ObjectTooLarge | SelectionUnreadable | RunIdMismatch | CompletionUnreadable | PublicationUnreadable
    | CuratedUnreadable | CuratedRejected(cause: Compaction.CompactionError)
    | CompletionConflict | CuratedReferenceConflict | MissingDatesConflict | ReceiptConflict
    | BoundaryMismatch | TimestampCountMismatch | CatalogUnavailable

  datatype Note =
    | SelectedRowsDiffer | QuarantineRowsDiffer | CompletionNotReconciled | SelectedDiffersFromRows
    | PartitionMissing | PartitionValuesDiffer | PartitionLocationDiffers | TotalRowsDiffer

  datatype Quality = KnownMissingDates(period: Label, dates: seq<int>) | TerminalPartial(period: Label) | MonthBoundary(finding: Finding)

  /** What the inspection of one month adds to the audit. */
  datatype Outcome = Outcome(failure: Option<Reason>, reconciliation: seq<Note>, drift: seq<Note>, rows: seq<Compaction.Row>)

  datatype AuditResult = AuditResult(
    fatal: seq<(Label, Reason)>,
    overall: seq<Reason>,
    reconciliation: seq<Note>,
    drift: seq<Note>,
    quality: seq<Quality>,
    monthsPassed: seq<bool>,
    totalRows: int,
    withinGaps: int,
    crossGaps: int,
    globalGaps: int,
    overlaps: nat,
    reversed: nat,
    passed: bool
  )

  // ---------------------------------------------------------------- one month

  function FirstOf(rows: seq<Compaction.Row>): Option<Timestamp> {
    if rows == [] then None else Some(Timestamp(rows[0].time, false))
  }

  function LastOf(rows: seq<Compaction.Row>): Option<Timestamp> {
    if rows == [] then None else Some(Timestamp(rows[|rows| - 1].time, false))
  }

  /** The reconciliation notes of a completion document, or the conflict that fails the month. */
  function ValidateCompletion(month: AuditMonth, c: Completion, manifestVersion: string): Result<seq<Note>, Reason> {
    if c.runId != month.runId || c.period != (month.year, month.month) || c.first != month.first || c.last != month.last
       || c.manifestVersion != manifestVersion || c.significantGaps != month.withinGaps
       || c.terminalPartial != month.terminalPartial
    then Failure(CompletionConflict)
    else if c.curatedKey != month.curated.key || c.curatedSha256 != month.curated.sha256
            || c.curatedByteSize != month.curated.byteSize || c.curatedRows != month.curatedRows
    then Failure(CuratedReferenceConflict)
    else if c.missingDates != month.missingDates then Failure(MissingDatesConflict)
    else Success(
      (if c.selectedRows != month.selectedRows then [SelectedRowsDiffer] else [])
      + (if c.quarantineRows != month.quarantineRows then [QuarantineRowsDiffer] else [])
      + (if !c.curatedEqualsSelected || !c.inputReconciles then [CompletionNotReconciled] else []))
  }

  predicate ReceiptMatches(month: AuditMonth, receipt: Receipt, blank: string -> bool) {
    && receipt.contract == "metropulse-compaction-publication-receipt-v1"
    && receipt.runId == month.runId && receipt.location == month.glueLocation
    && receipt.outcome in {"created", "updated", "no_op"}
    && !blank(receipt.owner) && receipt.zoned
  }

  function PartitionNotes(month: AuditMonth, reply: CatalogReply): seq<Note> {
    match reply
    case Present(values, location) =>
      (if values != month.glueValues then [PartitionValuesDiffer] else [])
      + (if location != month.glueLocation then [PartitionLocationDiffers] else [])
    case _ => [PartitionMissing]
  }

  /** Inspection of one month: what is noted before the first failure stays noted. */
  function Inspect(world: World, limits: AuditBounds, manifestVersion: string, month: AuditMonth): Outcome {
    if month.curated.byteSize > limits.maxObjectBytes then Outcome(Some(ObjectTooLarge), [], [], []) else
    var proved := world.selectionOf(month.selection);
    if proved.None? then Outcome(Some(SelectionUnreadable), [], [], [])
    else if proved.value != month.runId then Outcome(Some(RunIdMismatch), [], [], []) else
    var completion := world.completionOf(month.completion);
    if completion.None? then Outcome(Some(CompletionUnreadable), [], [], []) else
    var receipt := world.receiptOf(month.publication);
    if receipt.None? then Outcome(Some(PublicationUnreadable), [], [], []) else
    var curated := world.curatedOf(month.curated);
    if curated.None? then Outcome(Some(CuratedUnreadable), [], [], []) else
    var verified := Compaction.VerifyCurated(curated.value, month.curatedRows);
    if verified.Fail? then Outcome(Some(CuratedRejected(verified.error)), [], [], []) else
    var notes := ValidateCompletion(month, completion.value, manifestVersion);
    if notes.Failure? then Outcome(Some(notes.error), [], [], []) else
    var rows := curated.value.rows;
    if !ReceiptMatches(month, receipt.value, world.blank) then Outcome(Some(ReceiptConflict), notes.value, [], [])
    else if FirstOf(rows) != month.first || LastOf(rows) != month.last then Outcome(Some(BoundaryMismatch), notes.value, [], [])
    else if |rows| != month.curatedRows then Outcome(Some(TimestampCountMismatch), notes.value, [], []) else
    var reply := world.partitionOf((month.year, month.month));
    if reply.CatalogFailed? then Outcome(Some(CatalogUnavailable), notes.value, [], []) else
    Outcome(None,
      notes.value + (if month.selectedRows != |rows| then [SelectedDiffersFromRows] else []),
      PartitionNotes(month, reply), rows)
  }

  // ---------------------------------------------------------------- what inspection means

  predicate CompletionAgrees(month: AuditMonth, c: Completion, manifestVersion: string) {
    && c.runId == month.runId && c.period == (month.year, month.month) && c.manifestVersion == manifestVersion
    && c.first == month.first && c.last == month.last && c.significantGaps == month.withinGaps
    && c.terminalPartial == month.terminalPartial && c.missingDates == month.missingDates
    && c.curatedKey == month.curated.key && c.curatedSha256 == month.curated.sha256
    && c.curatedByteSize == month.curated.byteSize && c.curatedRows == month.curatedRows
  }

  /** All evidence about the month can be read, is about this run, and agrees with its inventory entry. */
  predicate Verified(world: World, limits: AuditBounds, manifestVersion: string, month: AuditMonth) {
    && month.curated.byteSize <= limits.maxObjectBytes
    && world.selectionOf(month.selection) == Some(month.runId)
    && world.completionOf(month.completion).Some?
    && CompletionAgrees(month, world.completionOf(month.completion).value, manifestVersion)
    && world.receiptOf(month.publication).Some?
    && ReceiptMatches(month, world.receiptOf(month.publication).value, world.blank)
    && world.curatedOf(month.curated).Some?
    && CompactionTheorems.SoundTable(world.curatedOf(month.curated).value, month.curatedRows)
    && FirstOf(world.curatedOf(month.curated).value.rows) == month.first
    && LastOf(world.curatedOf(month.curated).value.rows) == month.last
    && !world.partitionOf((month.year, month.month)).CatalogFailed?
  }

  /** The row counts of completion document, inventory entry and curated file are one. */
  predicate CountsAgree(world: World, month: AuditMonth)
    requires world.completionOf(month.completion).Some?
  {
    var c := world.completionOf(month.completion).value;
    && c.selectedRows == month.selectedRows == month.curatedRows && c.quarantineRows == month.quarantineRows
    && c.curatedEqualsSelected && c.inputReconciles
  }

  /** The catalog shows the month at its run. */
  predicate Visible(world: World, month: AuditMonth) {
    world.partitionOf((month.year, month.month)) == Present(month.glueValues, month.glueLocation)
  }

  /**
   * Inspection fails exactly when some evidence does not verify. Otherwise it returns the month's rows, and notes
   * something exactly when counts differ or the catalog shows something else.
   */
  lemma InspectionVerifies(world: World, limits: AuditBounds, manifestVersion: string, month: AuditMonth)
    ensures var o := Inspect(world, limits, manifestVersion, month);
            && (o.failure.None? <==> Verified(world, limits, manifestVersion, month))
            && (o.failure.None? ==>
                  && o.rows == world.curatedOf(month.curated).value.rows
                  && (o.reconciliation == [] <==> CountsAgree(world, month))
                  && (o.drift == [] <==> Visible(world, month)))
            && (o.failure.Some? ==> o.rows == [] && o.drift == [])
  {
    hide Compaction.VerifyCurated, CompactionTheorems.SoundTable, ReceiptMatches;
    if world.curatedOf(month.curated).Some? {
      CompactionTheorems.VerifiesExactlyWhen(world.curatedOf(month.curated).value, month.curatedRows);
      SoundTablesAreComplete(world.curatedOf(month.curated).value, month.curatedRows);
    }
  }

  lemma SoundTablesAreComplete(file: Compaction.Parquet, expected: int)
    ensures CompactionTheorems.SoundTable(file, expected) ==> |file.rows| == expected
  {
  }

  function QualityOf(month: AuditMonth): seq<Quality> {
    (if month.missingDates != [] then [KnownMissingDates((month.year, month.month), month.missingDates)] else [])
    + (if month.terminalPartial then [TerminalPartial((month.year, month.month))] else [])
  }

  // ---------------------------------------------------------------- accumulation

  datatype Progress = Progress(
    fatal: seq<(Label, Reason)>, reconciliation: seq<Note>, drift: seq<Note>, quality: seq<Quality>,
    passed: seq<bool>, totalRows: int, withinGaps: int, endpoints: seq<Endpoint>)

  function EndpointFor(month: AuditMonth, rows: seq<Compaction.Row>): Endpoint
    requires 1 <= month.month <= 12
  {
    Endpoint(MonthStart(month.year, month.month), FirstOf(rows), LastOf(rows))
  }

  /** One iteration: a failed month contributes no rows, gaps or endpoint. */
  function Advance(p: Progress, month: AuditMonth, o: Outcome): Progress
    requires 1 <= month.month <= 12
  {
    var noted := p.(reconciliation := p.reconciliation + o.reconciliation, drift := p.drift + o.drift);
    if o.failure.Some? then
      noted.(fatal := p.fatal + [((month.year, month.month), o.failure.value)], passed := p.passed + [false])
    else
      noted.(totalRows := p.totalRows + |o.rows|, withinGaps := p.withinGaps + month.withinGaps,
             endpoints := p.endpoints + [EndpointFor(month, o.rows)], quality := p.quality + QualityOf(month),
             passed := p.passed + [true])
  }

  predicate CalendarMonths(months: seq<AuditMonth>) {
    forall i :: 0 <= i < |months| ==> 1 <= months[i].month <= 12 && months[i].withinGaps >= 0
  }

  function AdvanceAll(world: World, limits: AuditBounds, manifestVersion: string, months: seq<AuditMonth>): Progress
    requires CalendarMonths(months)
    decreases |months|
  {
    if months == [] then Progress([], [], [], [], [], 0, 0, [])
    else
      var n := |months| - 1;
      Advance(AdvanceAll(world, limits, manifestVersion, months[..n]), months[n],
              Inspect(world, limits, manifestVersion, months[n]))
  }

  function CountStatus(findings: seq<Finding>, status: Status): nat {
    if findings == [] then 0 else (if findings[0].status == status then 1 else 0) + CountStatus(findings[1..], status)
  }

  function BoundaryQuality(findings: seq<Finding>): seq<Quality> {
    if findings == [] then []
    else (if findings[0].status != Normal then [MonthBoundary(findings[0])] else []) + BoundaryQuality(findings[1..])
  }

  function TotalBytes(months: seq<AuditMonth>): int {
    if months == [] then 0 else months[0].curated.byteSize + TotalBytes(months[1..])
  }

  function Overruns(months: seq<AuditMonth>, expectedRows: int, limits: AuditBounds): seq<Reason> {
    (if |months| > limits.maxMonths then [TooManyMonths] else [])
    + (if TotalBytes(months) > limits.maxTotalBytes then [TooManyTotalBytes] else [])
    + (if expectedRows > limits.maxTotalRows then [TooManyTotalRows] else [])
  }

  // ---------------------------------------------------------------- the audit

  /** The result that these months call for. */
  ghost predicate Concludes(r: AuditResult, v: Inventory, months: seq<AuditMonth>, world: World, limits: AuditBounds)
    requires CalendarMonths(months)
  {
    var p := AdvanceAll(world, limits, v.compactionVersion, months);
    var findings := Evaluated(p.endpoints);
    && r.overall == Overruns(months, v.expectedRows, limits) && r.fatal == p.fatal
    && r.reconciliation == (if p.totalRows != v.expectedRows then p.reconciliation + [TotalRowsDiffer] else p.reconciliation)
    && r.drift == p.drift && r.quality == p.quality + BoundaryQuality(findings) && r.monthsPassed == p.passed
    && r.totalRows == p.totalRows && r.withinGaps == p.withinGaps
    && r.crossGaps == SumOf(IfSignificant(), BoundaryDeltas(p.endpoints))
    && r.globalGaps == r.withinGaps + r.crossGaps
    && r.overlaps == CountStatus(findings, Overlap) && r.reversed == CountStatus(findings, ReversedOverlap)
    && r.passed == (r.overall == [] && r.fatal == [] && r.reconciliation == [] && r.drift == [])
  }

  method AuditCuratedInventory(v: Inventory, runPath: (Label, string) -> string, world: World, limits: AuditBounds)
    returns (result: Result<AuditResult, InventoryError>)
    requires 1 <= v.knownStart.month <= 12 && 1 <= v.knownEnd.month <= 12
    ensures match ValidateInventory(v, runPath)
            case Failure(error) => result == Failure(error)
            case Success(months) =>
              result.Success? && CalendarMonths(months) && Concludes(result.value, v, months, world, limits)
  {
    hide Inspect, ValidateInventory, BoundaryDeltas, Evaluated, Overruns, TotalBytes, AdvanceAll, CountStatus, BoundaryQuality,
         SumOf, SumOver, Counts, CalendarMonths, AllNaive;
    var accepted := ValidateInventory(v, runPath);
    if accepted.Failure? {
      return Failure(accepted.error);
    }
    var months := accepted.value;
    AcceptedAreCalendar(v, runPath);
    var overall := Overruns(months, v.expectedRows, limits);
    var p := InspectMonths(world, limits, v.compactionVersion, months);
    NaiveEndpoints(world, limits, v.compactionVersion, months);
    var reconciliation := p.reconciliation;
    if p.totalRows != v.expectedRows {
      reconciliation := reconciliation + [TotalRowsDiffer];
    }
    var evaluated := EvaluateBoundaries(p.endpoints);
    var (findings, distribution) := evaluated.value;
    CountedSignificant(distribution, BoundaryDeltas(p.endpoints));
    var crossGaps := SumOver(distribution.Keys, BoundaryGapsOf(distribution));
    var composed := ComposeSignificantGapCount(p.withinGaps, distribution);
    var passed := overall == [] && p.fatal == [] && reconciliation == [] && p.drift == [];
    result := Success(AuditResult(p.fatal, overall, reconciliation, p.drift, p.quality + BoundaryQuality(findings),
      p.passed, p.totalRows, p.withinGaps, crossGaps, composed.value,
      CountStatus(findings, Overlap), CountStatus(findings, ReversedOverlap), passed));
  }

  lemma AcceptedAreCalendar(v: Inventory, runPath: (Label, string) -> string)
    requires 1 <= v.knownStart.month <= 12 && 1 <= v.knownEnd.month <= 12 && ValidateInventory(v, runPath).Success?
    ensures CalendarMonths(ValidateInventory(v, runPath).value)
  {
    var months := ValidateInventory(v, runPath).value;
    forall i | 0 <= i < |months| ensures 1 <= months[i].month <= 12 && months[i].withinGaps >= 0 {
      AcceptedMonth(months, runPath, i);
    }
  }

  lemma OneMoreMonth(world: World, limits: AuditBounds, manifestVersion: string, months: seq<AuditMonth>, k: nat)
    requires CalendarMonths(months) && k < |months|
    ensures AdvanceAll(world, limits, manifestVersion, months[..k + 1])
         == Advance(AdvanceAll(world, limits, manifestVersion, months[..k]), months[k],
                    Inspect(world, limits, manifestVersion, months[k]))
  {
    assert months[..k + 1][..k] == months[..k];
  }

  method InspectMonths(world: World, limits: AuditBounds, manifestVersion: string, months: seq<AuditMonth>)
    returns (progress: Progress)
    requires CalendarMonths(months)
    ensures progress == AdvanceAll(world, limits, manifestVersion, months)
  {
    var fatal: seq<(Label, Reason)>, quality: seq<Quality>, passed: seq<bool> := [], [], [];
    var reconciliation: seq<Note>, drift: seq<Note>, endpoints: seq<Endpoint> := [], [], [];
    var totalRows, withinGaps := 0, 0;
    hide Inspect, QualityOf, MonthStart;
    for k := 0 to |months|
      invariant Progress(fatal, reconciliation, drift, quality, passed, totalRows, withinGaps, endpoints)
             == AdvanceAll(world, limits, manifestVersion, months[..k])
    {
      var month := months[k];
      OneMoreMonth(world, limits, manifestVersion, months, k);
      var outcome := InspectMonth(world, limits, manifestVersion, month);
      reconciliation := reconciliation + outcome.reconciliation;
      drift := drift + outcome.drift;
      if outcome.failure.Some? {
        fatal := fatal + [((month.year, month.month), outcome.failure.value)];
        passed := passed + [false];
      } else {
        totalRows := totalRows + |outcome.rows|;
        withinGaps := withinGaps + month.withinGaps;
        endpoints := endpoints + [EndpointFor(month, outcome.rows)];
        quality := quality + QualityOf(month);
        passed := passed + [true];
      }
    }
    assert months[..|months|] == months;
    progress := Progress(fatal, reconciliation, drift, quality, passed, totalRows, withinGaps, endpoints);
  }

  method InspectMonth(world: World, limits: AuditBounds, manifestVersion: string, month: AuditMonth) returns (o: Outcome)
    ensures o == Inspect(world, limits, manifestVersion, month)
    ensures o.failure.None? <==> Verified(world, limits, manifestVersion, month)
    ensures o.failure.None? ==>
              && o.rows == world.curatedOf(month.curated).value.rows
              && (o.reconciliation == [] <==> CountsAgree(world, month)) && (o.drift == [] <==> Visible(world, month))
  {
    hide ValidateCompletion, ReceiptMatches, Compaction.VerifyCurated, Verified, CountsAgree, Visible;
    InspectionVerifies(world, limits, manifestVersion, month);
    var reconciliation: seq<Note>, drift: seq<Note> := [], [];
    if month.curated.byteSize > limits.maxObjectBytes {
      return Outcome(Some(ObjectTooLarge), [], [], []);
    }
    var proved := world.selectionOf(month.selection);
    if proved.None? {
      return Outcome(Some(SelectionUnreadable), [], [], []);
    }
    if proved.value != month.runId {
      return Outcome(Some(RunIdMismatch), [], [], []);
    }
    var completion := world.completionOf(month.completion);
    if completion.None? {
      return Outcome(Some(CompletionUnreadable), [], [], []);
    }
    var receipt := world.receiptOf(month.publication);
    if receipt.None? {
      return Outcome(Some(PublicationUnreadable), [], [], []);
    }
    var curated := world.curatedOf(month.curated);
    if curated.None? {
      return Outcome(Some(CuratedUnreadable), [], [], []);
    }
    var verified := Compaction.VerifyCurated(curated.value, month.curatedRows);
    if verified.Fail? {
      return Outcome(Some(CuratedRejected(verified.error)), [], [], []);
    }
    var notes := ValidateCompletion(month, completion.value, manifestVersion);
    if notes.Failure? {
      return Outcome(Some(notes.error), [], [], []);
    }
    reconciliation := notes.value;
    var rows := curated.value.rows;
    if !ReceiptMatches(month, receipt.value, world.blank) {
      return Outcome(Some(ReceiptConflict), reconciliation, [], []);
    }
    if FirstOf(rows) != month.first || LastOf(rows) != month.last {
      return Outcome(Some(BoundaryMismatch), reconciliation, [], []);
    }
    if |rows| != month.curatedRows {
      return Outcome(Some(TimestampCountMismatch), reconciliation, [], []);
    }
    var reply := world.partitionOf((month.year, month.month));
    match reply {
      case CatalogFailed =>
        return Outcome(Some(CatalogUnavailable), reconciliation, [], []);
      case Absent =>
        drift := [PartitionMissing];
      case Present(values, location) =>
        if values != month.glueValues {
          drift := drift + [PartitionValuesDiffer];
        }
        if location != month.glueLocation {
          drift := drift + [PartitionLocationDiffers];
        }
    }
    if month.selectedRows != |rows| {
      reconciliation := reconciliation + [SelectedDiffersFromRows];
    }
    o := Outcome(None, reconciliation, drift, rows);
  }

  // ---------------------------------------------------------------- curated boundaries are naive

  lemma {:induction false} AllEndsNaive(endpoints: seq<Endpoint>)
    requires forall i :: 0 <= i < |endpoints| ==>
               && (endpoints[i].first.Some? ==> !endpoints[i].first.value.aware)
               && (endpoints[i].last.Some? ==> !endpoints[i].last.value.aware)
    ensures AllNaive(endpoints)
  {
    if |endpoints| >= 2 {
      AllEndsNaive(endpoints[1..]);
    }
  }

  lemma {:induction false} EndsComeFromRows(world: World, limits: AuditBounds, manifestVersion: string, months: seq<AuditMonth>)
    requires CalendarMonths(months)
    ensures var p := AdvanceAll(world, limits, manifestVersion, months);
            && p.withinGaps >= 0
            && forall i :: 0 <= i < |p.endpoints| ==>
               && (p.endpoints[i].first.Some? ==> !p.endpoints[i].first.value.aware)
               && (p.endpoints[i].last.Some? ==> !p.endpoints[i].last.value.aware)
    decreases |months|
  {
    hide Inspect, MonthStart, QualityOf;
    if months != [] {
      EndsComeFromRows(world, limits, manifestVersion, months[..|months| - 1]);
    }
  }

  /** The audit never fails on a time zone or on a negative gap count. */
  lemma NaiveEndpoints(world: World, limits: AuditBounds, manifestVersion: string, months: seq<AuditMonth>)
    requires CalendarMonths(months)
    ensures var p := AdvanceAll(world, limits, manifestVersion, months);
            AllNaive(p.endpoints) && p.withinGaps >= 0
  {
    hide AdvanceAll;
    EndsComeFromRows(world, limits, manifestVersion, months);
    AllEndsNaive(AdvanceAll(world, limits, manifestVersion, months).endpoints);
  }
}
