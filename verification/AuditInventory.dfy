/** The inventory of a scheduled audit: which months it must hold, and its validation. */
module AuditInventory {
  import opened Options
  import opened Calendar
  import opened Ordering
  import opened MonthlySelection
  import opened Versions

  const INVENTORY_VERSION := "1.0.0"
  const COMPACTION_MANIFEST_VERSION := "1.0.0"

  /** A calendar month, standing for its label. */
  type Label = (int, int)

  /** A timestamp with the month it falls in. */
  datatype Moment = Moment(year: int, month: int, time: Timestamp)

  datatype Pinned = Pinned(bucket: string, key: string, identityKind: string, identityValue: string)

  datatype CuratedObject = CuratedObject(bucket: string, key: string, sha256: string, byteSize: int, version: Option<string>)

  datatype AuditMonth = AuditMonth(
    year: int,
    month: int,
    runId: string,
    selection: Pinned,
    completion: Pinned,
    publication: Pinned,
    curated: CuratedObject,
    glueValues: Label,
    glueLocation: string,
    selectedRows: int,
    curatedRows: int,
    quarantineRows: int,
    first: Option<Timestamp>,
    last: Option<Timestamp>,
    withinGaps: int,
    coverageStatus: string,
    missingDates: seq<int>,
    terminalPartial: bool
  )

  datatype Inventory = Inventory(
    sourceName: string,
    knownStart: Moment,
    knownEnd: Moment,
    expectedMonths: seq<Label>,
    months: seq<AuditMonth>,
    expectedRows: int,
    schemaVersion: string,
    compactionVersion: string,
    inventoryVersion: string
  )

  datatype InventoryError =
    | UnsupportedAuditSource | UnsupportedInventory | UnsupportedSchema | UnsupportedManifest
    | AwareSourceRange | ReversedSourceRange | NegativeExpectedRows
    | MonthsDoNotCover | MonthsDiffer | DuplicateMonths | RowsDoNotReconcile
    | BadMonth(year: int, month: int, cause: MonthError)

  datatype MonthError =
    | InvalidMonthOrRunId | UnpinnedReference | InvalidPinnedDigest | InvalidChecksum | InvalidCuratedEvidence
    | SelectedDiffersFromCurated | NegativeMonthCount | GlueValuesDiffer | GlueLocationDiffers | CuratedKeyDiffers
    | AwareMonthBoundary | ReversedMonthBoundary | UnsupportedCoverage | MissingDateOutsideMonth

  // ---------------------------------------------------------------- months

  predicate AtMost(year: int, month: int, year': int, month': int) {
    !Before(year', month', year, month)
  }

  /** The months from one to another, both included. */
  function MonthsBetween(year: int, month: int, endYear: int, endMonth: int): seq<Label>
    requires 1 <= month <= 12 && 1 <= endMonth <= 12
    decreases 12 * (endYear - year) + endMonth - month + 1
  {
    if !AtMost(year, month, endYear, endMonth) then []
    else
      var (y, m) := NextMonth(year, month);
      [(year, month)] + MonthsBetween(y, m, endYear, endMonth)
  }

  method MonthSequence(start: Moment, end: Moment) returns (labels: seq<Label>)
    requires 1 <= start.month <= 12 && 1 <= end.month <= 12
    ensures labels == MonthsBetween(start.year, start.month, end.year, end.month)
  {
    var year, month := start.year, start.month;
    labels := [];
    while AtMost(year, month, end.year, end.month)
      invariant 1 <= month <= 12
      invariant MonthsBetween(start.year, start.month, end.year, end.month)
             == labels + MonthsBetween(year, month, end.year, end.month)
      decreases 12 * (end.year - year) + end.month - month + 1
    {
      labels := labels + [(year, month)];
      if month == 12 {
        year, month := year + 1, 1;
      } else {
        month := month + 1;
      }
    }
  }

  /** Every listed month directly follows the one before it. */
  lemma {:induction false} MonthsFollow(year: int, month: int, endYear: int, endMonth: int, i: nat)
    requires 1 <= month <= 12 && 1 <= endMonth <= 12
    requires i < |MonthsBetween(year, month, endYear, endMonth)|
    ensures var months := MonthsBetween(year, month, endYear, endMonth);
            && months[0] == (year, month) && 1 <= months[i].1 <= 12
            && (i + 1 < |months| ==> months[i + 1] == NextMonth(months[i].0, months[i].1))
    decreases i
  {
    var (y, m) := NextMonth(year, month);
    if i > 0 {
      MonthsFollow(y, m, endYear, endMonth, i - 1);
    } else if |MonthsBetween(year, month, endYear, endMonth)| > 1 {
      assert MonthsBetween(y, m, endYear, endMonth)[0] == (y, m);
    }
  }

  lemma {:induction false} MonthsAreOrdered(year: int, month: int, endYear: int, endMonth: int, i: nat, j: nat)
    requires 1 <= month <= 12 && 1 <= endMonth <= 12
    requires i < j < |MonthsBetween(year, month, endYear, endMonth)|
    ensures var months := MonthsBetween(year, month, endYear, endMonth);
            Before(months[i].0, months[i].1, months[j].0, months[j].1)
    decreases j
  {
    MonthsFollow(year, month, endYear, endMonth, j - 1);
    MonthsFollow(year, month, endYear, endMonth, i);
    if i < j - 1 {
      MonthsAreOrdered(year, month, endYear, endMonth, i, j - 1);
    }
  }

  /** A date between the two months' dates is in a listed month. */
  lemma {:induction false} DateIsListed(year: int, month: int, endYear: int, endMonth: int, date: int) returns (i: nat)
    requires 1 <= month <= 12 && 1 <= endMonth <= 12
    requires MonthStart(year, month) <= date < MonthStart(endYear, endMonth) + DaysInMonth(endYear, endMonth)
    ensures var months := MonthsBetween(year, month, endYear, endMonth);
            i < |months| && 1 <= months[i].1 <= 12 && InMonth(date, months[i].0, months[i].1)
    decreases 12 * (endYear - year) + endMonth - month + 1
  {
    if Before(endYear, endMonth, year, month) {
      MonthsDoNotOverlap(endYear, endMonth, year, month);
    } else if date < MonthStart(year, month) + DaysInMonth(year, month) {
      i := 0;
    } else {
      MonthsAreContiguous(year, month);
      var (y, m) := NextMonth(year, month);
      if (year, month) == (endYear, endMonth) {
      } else {
        i := DateIsListed(y, m, endYear, endMonth, date);
        i := i + 1;
      }
    }
  }

  /** The moment's month is the month of its date. */
  predicate Dated(moment: Moment) {
    1 <= moment.month <= 12 && InMonth(DateOf(moment.time.seconds), moment.year, moment.month)
  }

  /** Each date of the known source range is in exactly one of the required months. */
  lemma RangeIsCoveredOnce(start: Moment, end: Moment, date: int)
    requires Dated(start) && Dated(end) && DateOf(start.time.seconds) <= date <= DateOf(end.time.seconds)
    ensures var months := MonthsBetween(start.year, start.month, end.year, end.month);
            && (forall i :: 0 <= i < |months| ==> 1 <= months[i].1 <= 12)
            && (exists i :: 0 <= i < |months| && InMonth(date, months[i].0, months[i].1))
            && (forall i, j ::
                  (0 <= i < |months| && 0 <= j < |months| && InMonth(date, months[i].0, months[i].1)
                   && InMonth(date, months[j].0, months[j].1)) ==> i == j)
  {
    hide InMonth, DateOf;
    var months := MonthsBetween(start.year, start.month, end.year, end.month);
    forall i | 0 <= i < |months| ensures 1 <= months[i].1 <= 12 {
      MonthsFollow(start.year, start.month, end.year, end.month, i);
    }
    assert MonthStart(start.year, start.month) <= date < MonthStart(end.year, end.month) + DaysInMonth(end.year, end.month) by {
      Bounds(start, end, date);
    }
    var at := DateIsListed(start.year, start.month, end.year, end.month, date);
    forall i, j | 0 <= i < |months| && 0 <= j < |months|
      && InMonth(date, months[i].0, months[i].1) && InMonth(date, months[j].0, months[j].1)
      ensures i == j
    {
      MonthIsUnique(date, months[i].0, months[i].1, months[j].0, months[j].1);
      if i < j {
        MonthsAreOrdered(start.year, start.month, end.year, end.month, i, j);
      } else if j < i {
        MonthsAreOrdered(start.year, start.month, end.year, end.month, j, i);
      }
    }
  }

  lemma Bounds(start: Moment, end: Moment, date: int)
    requires Dated(start) && Dated(end) && DateOf(start.time.seconds) <= date <= DateOf(end.time.seconds)
    ensures MonthStart(start.year, start.month) <= date < MonthStart(end.year, end.month) + DaysInMonth(end.year, end.month)
  {
  }

  // ---------------------------------------------------------------- validation

  predicate LowerHex(text: string) {
    forall c :: c in text ==> '0' <= c <= '9' || 'a' <= c <= 'f'
  }

  predicate StartsWith(text: string, prefix: string) {
    prefix <= text
  }

  predicate EndsIn(text: string, suffix: string) {
    |suffix| <= |text| && text[|text| - |suffix|..] == suffix
  }

  function ValidatePinned(reference: Pinned): Check<MonthError> {
    if reference.bucket == "" || reference.key == ""
       || reference.identityKind !in {"version_id", "sha256", "etag"} || reference.identityValue == ""
    then Fail(UnpinnedReference)
    else if reference.identityKind == "sha256" && (|reference.identityValue| != 64 || !LowerHex(reference.identityValue))
    then Fail(InvalidPinnedDigest)
    else Pass
  }

  predicate AwareAt(boundary: Option<Timestamp>) {
    boundary.Some? && boundary.value.aware
  }

  /** The checks of one entry; runPath is the path that names a month's run, from its label and run identifier. */
  function ValidateMonth(item: AuditMonth, runPath: (Label, string) -> string): Check<MonthError> {
    var path := runPath((item.year, item.month), item.runId);
    if !(1 <= item.month <= 12) || |item.runId| != 64 || !LowerHex(item.runId) then Fail(InvalidMonthOrRunId)
    else if ValidatePinned(item.selection).Fail? then ValidatePinned(item.selection)
    else if ValidatePinned(item.completion).Fail? then ValidatePinned(item.completion)
    else if ValidatePinned(item.publication).Fail? then ValidatePinned(item.publication)
    else if item.curated.sha256 != Lower(item.curated.sha256) || |item.curated.sha256| != 64 then Fail(InvalidChecksum)
    else if item.curated.byteSize <= 0 || item.curatedRows < 0 then Fail(InvalidCuratedEvidence)
    else if item.selectedRows != item.curatedRows then Fail(SelectedDiffersFromCurated)
    else if item.quarantineRows < 0 || item.withinGaps < 0 then Fail(NegativeMonthCount)
    else if item.glueValues != (item.year, item.month) then Fail(GlueValuesDiffer)
    else if !StartsWith(item.glueLocation, "s3://") || !EndsIn(item.glueLocation, "/" + path + "/") then Fail(GlueLocationDiffers)
    else if !EndsIn(item.curated.key, path + "/part-00000.snappy.parquet") then Fail(CuratedKeyDiffers)
    else if AwareAt(item.first) || AwareAt(item.last) then Fail(AwareMonthBoundary)
    else if item.first.Some? && item.last.Some? && item.first.value.seconds > item.last.value.seconds then Fail(ReversedMonthBoundary)
    else if item.coverageStatus !in {"complete", "known_missing_dates", "terminal_partial"} then Fail(UnsupportedCoverage)
    else if exists d :: d in item.missingDates && !InMonth(d, item.year, item.month) then Fail(MissingDateOutsideMonth)
    else Pass
  }

  function ValidateMonths(items: seq<AuditMonth>, runPath: (Label, string) -> string): (check: Check<InventoryError>)
    ensures check.Fail? ==> check.error.BadMonth?
  {
    if items == [] then Pass
    else
      var first := ValidateMonth(items[0], runPath);
      if first.Fail? then Fail(BadMonth(items[0].year, items[0].month, first.error)) else ValidateMonths(items[1..], runPath)
  }

  function ByMonth(): (AuditMonth, AuditMonth) -> bool {
    (a: AuditMonth, b: AuditMonth) => !Before(b.year, b.month, a.year, a.month)
  }

  function Labels(items: seq<AuditMonth>): (labels: seq<Label>)
    ensures |labels| == |items| && forall i :: 0 <= i < |items| ==> labels[i] == (items[i].year, items[i].month)
  {
    seq(|items|, i requires 0 <= i < |items| => (items[i].year, items[i].month))
  }

  predicate LabelsRepeat(labels: seq<Label>) {
    exists i, j :: 0 <= i < j < |labels| && labels[i] == labels[j]
  }

  function TotalRows(items: seq<AuditMonth>): int {
    if items == [] then 0 else items[0].curatedRows + TotalRows(items[1..])
  }

  function ValidateInventory(v: Inventory, runPath: (Label, string) -> string): Result<seq<AuditMonth>, InventoryError>
    requires 1 <= v.knownStart.month <= 12 && 1 <= v.knownEnd.month <= 12
  {
    var ordered := Sort(ByMonth(), v.months);
    if Lower(v.sourceName) != SUPPORTED_SOURCE then Failure(UnsupportedAuditSource)
    else if v.inventoryVersion != INVENTORY_VERSION then Failure(UnsupportedInventory)
    else if v.schemaVersion != SCHEMA_VERSION then Failure(UnsupportedSchema)
    else if v.compactionVersion != COMPACTION_MANIFEST_VERSION then Failure(UnsupportedManifest)
    else if v.knownStart.time.aware || v.knownEnd.time.aware then Failure(AwareSourceRange)
    else if v.knownStart.time.seconds > v.knownEnd.time.seconds then Failure(ReversedSourceRange)
    else if v.expectedRows < 0 then Failure(NegativeExpectedRows)
    else if v.expectedMonths != MonthsBetween(v.knownStart.year, v.knownStart.month, v.knownEnd.year, v.knownEnd.month)
    then Failure(MonthsDoNotCover)
    else if Labels(ordered) != v.expectedMonths then Failure(MonthsDiffer)
    else if LabelsRepeat(Labels(ordered)) then Failure(DuplicateMonths)
    else if TotalRows(ordered) != v.expectedRows then Failure(RowsDoNotReconcile)
    else if ValidateMonths(ordered, runPath).Fail? then Failure(ValidateMonths(ordered, runPath).error)
    else Success(ordered)
  }

  /** Once the entries match the required months, the duplicate check cannot fail. */
  lemma DuplicateCheckIsRedundant(v: Inventory, runPath: (Label, string) -> string)
    requires 1 <= v.knownStart.month <= 12 && 1 <= v.knownEnd.month <= 12
    ensures ValidateInventory(v, runPath) != Failure(DuplicateMonths)
  {
    hide Sort, Lower, ValidateMonths, TotalRows;
    var labels := MonthsBetween(v.knownStart.year, v.knownStart.month, v.knownEnd.year, v.knownEnd.month);
    forall i, j | 0 <= i < j < |labels| ensures labels[i] != labels[j] {
      MonthsAreOrdered(v.knownStart.year, v.knownStart.month, v.knownEnd.year, v.knownEnd.month, i, j);
    }
    assert !LabelsRepeat(labels);
  }

  lemma {:induction false} AcceptedMonth(items: seq<AuditMonth>, runPath: (Label, string) -> string, i: nat)
    requires ValidateMonths(items, runPath).Pass? && i < |items|
    ensures ValidateMonth(items[i], runPath).Pass?
  {
    if i > 0 {
      AcceptedMonth(items[1..], runPath, i - 1);
    }
  }
}
