/** Monthly compaction: daily tables are read, merged, sorted, verified and described. */
module Compaction {
  import opened Options
  import opened Calendar
  import opened Ordering
  import opened Intervals
  import opened MonthlySelection

  const ROW_GROUP_SIZE := 65536
  const CODEC := "SNAPPY"

  /** One normalized record; readings stands for the columns that compaction only carries along. */
  datatype Row = Row(sourceDate: int, time: int, index: int, readings: int)

  datatype Parquet = Parquet(schemaMatches: bool, codecs: set<string>, rowGroups: seq<nat>, rows: seq<Row>)

  /** Stored bytes: their size, their digest, and what they decode to when they are a Parquet file. */
  datatype Payload = Payload(byteSize: int, digest: string, parquet: Option<Parquet>)

  datatype Bounds = Bounds(maxObjects: int, maxInputBytes: int, maxInputRows: int, maxOutputBytes: int)

  const DEFAULT_BOUNDS := Bounds(31, 128 * 1024 * 1024, 500_000, 128 * 1024 * 1024)

  /** One compaction: what to read, the limits, and the writer (whether its settings are the fixed ones, and output sizes). */
  datatype Job = Job(
    selection: Selection,
    read: DailyInput -> Payload,
    writerIsFixed: bool,
    bounds: Bounds,
    encodedSize: seq<Row> -> int
  )

  datatype Class = Unassessable | Reversed | Overlapping | GapOverSixty | Observed

  datatype Finding = Finding(previousDate: int, currentDate: int, seconds: Option<int>, kind: Class)

  datatype Compacted = Compacted(
    rows: seq<Row>,
    rowGroups: nat,
    selectedRows: int,
    curatedRows: int,
    quarantineRows: int,
    first: Option<int>,
    last: Option<int>,
    missing: seq<int>,
    findings: seq<Finding>,
    significantGaps: nat
  )

  datatype CompactionError =
    | InvalidSelection(reason: SelectionError)
    | WriterContractDiffers
    | TooManyObjects | TooManyBytes | TooManyRows
    | StagingMismatch | NotParquet | SchemaMismatch | WrongCodec | DailyRowCount
    | OtherSourceDate | OtherTimestampDate | BoundaryMismatch
    | CrossDayTimestamp | CrossDayIndex
    | LoadedRowsDiffer | OutputTooLarge
    | CuratedRowCount | OversizedRowGroup | NotSorted | DuplicateTimestamps | DuplicateIndexes
    | ReconciliationFailed

  // ---------------------------------------------------------------- rows

  function Times(rows: seq<Row>): (times: seq<int>)
    ensures |times| == |rows| && forall i :: 0 <= i < |rows| ==> times[i] == rows[i].time
  {
    seq(|rows|, i requires 0 <= i < |rows| => rows[i].time)
  }

  predicate UniqueTimes(rows: seq<Row>) {
    forall i, j :: 0 <= i < j < |rows| ==> rows[i].time != rows[j].time
  }

  predicate UniqueIndexes(rows: seq<Row>) {
    forall i, j :: 0 <= i < j < |rows| ==> rows[i].index != rows[j].index
  }

  function TimeSet(rows: seq<Row>): set<int> {
    set row | row in rows :: row.time
  }

  function IndexSet(rows: seq<Row>): set<int> {
    set row | row in rows :: row.index
  }

  /** The sort keys of the curated table: time, then record index. */
  function ByTimeAndIndex(): (Row, Row) -> bool {
    (a: Row, b: Row) => a.time < b.time || (a.time == b.time && a.index <= b.index)
  }

  function Curate(rows: seq<Row>): seq<Row> {
    Sort(ByTimeAndIndex(), rows)
  }

  function TotalOf(field: DailyInput -> int, items: seq<DailyInput>): int {
    if items == [] then 0 else field(items[0]) + TotalOf(field, items[1..])
  }

  function ValidRows(): DailyInput -> int { (item: DailyInput) => item.validRows }
  function InputRows(): DailyInput -> int { (item: DailyInput) => item.inputRows }
  function QuarantineRows(): DailyInput -> int { (item: DailyInput) => item.quarantineRows }
  function StagingBytes(): DailyInput -> int { (item: DailyInput) => item.stagingByteSize }

  // ---------------------------------------------------------------- reading

  function CheckFormat(file: Parquet): Check<CompactionError> {
    if !file.schemaMatches then Fail(SchemaMismatch)
    else if file.rows != [] && file.codecs != {CODEC} then Fail(WrongCodec)
    else Pass
  }

  /** The rows of one selected daily object, in file order. */
  function ReadDailyTable(payload: Payload, item: DailyInput): Result<seq<Row>, CompactionError> {
    if payload.parquet.None? then Failure(NotParquet) else
    var file := payload.parquet.value;
    var rows := file.rows;
    :- CheckFormat(file);
    if |rows| != item.validRows then Failure(DailyRowCount)
    else if exists i :: 0 <= i < |rows| && rows[i].sourceDate != item.sourceDate then Failure(OtherSourceDate)
    else if exists i :: 0 <= i < |rows| && DateOf(rows[i].time) != item.sourceDate then Failure(OtherTimestampDate)
    else
      var first := if rows == [] then None else Some(Timestamp(rows[0].time, false));
      var last := if rows == [] then None else Some(Timestamp(rows[|rows| - 1].time, false));
      if (first, last) != (item.first, item.last) then Failure(BoundaryMismatch) else Success(rows)
  }

  /** The pinned bytes are the recorded ones and hold an acceptable daily table. */
  function LoadDay(payload: Payload, item: DailyInput): Result<seq<Row>, CompactionError> {
    if payload.byteSize != item.stagingByteSize || payload.digest != Lower(item.stagingSha256)
    then Failure(StagingMismatch)
    else ReadDailyTable(payload, item)
  }

  /** Every day's table, refusing a time or index that an earlier day already holds. */
  function LoadDays(read: DailyInput -> Payload, items: seq<DailyInput>, times: set<int>, indexes: set<int>)
    : Result<seq<seq<Row>>, CompactionError>
    decreases |items|
  {
    if items == [] then Success([]) else
    var rows :- LoadDay(read(items[0]), items[0]);
    if times * TimeSet(rows) != {} then Failure(CrossDayTimestamp)
    else if indexes * IndexSet(rows) != {} then Failure(CrossDayIndex)
    else
      var rest :- LoadDays(read, items[1..], times + TimeSet(rows), indexes + IndexSet(rows));
      Success([rows] + rest)
  }

  // ---------------------------------------------------------------- boundaries between days

  function Classify(previous: DailyInput, current: DailyInput): Finding {
    if previous.last.None? || current.first.None?
    then Finding(previous.sourceDate, current.sourceDate, None, Unassessable)
    else
      var seconds := current.first.value.seconds - previous.last.value.seconds;
      var kind :=
        if seconds < 0 then Reversed
        else if seconds == 0 then Overlapping
        else if seconds > SIGNIFICANT_GAP_SECONDS then GapOverSixty
        else Observed;
      Finding(previous.sourceDate, current.sourceDate, Some(seconds), kind)
  }

  function Findings(items: seq<DailyInput>): seq<Finding> {
    if |items| < 2 then [] else [Classify(items[0], items[1])] + Findings(items[1..])
  }

  lemma {:induction false} FindingsAppend(items: seq<DailyInput>, item: DailyInput)
    requires items != []
    ensures Findings(items + [item]) == Findings(items) + [Classify(items[|items| - 1], item)]
  {
    assert (items + [item])[1..] == items[1..] + [item];
    if |items| > 1 {
      FindingsAppend(items[1..], item);
    } else {
      assert items + [item] == [items[0], item] && (items + [item])[1..] == [item];
    }
  }

  method BoundaryFindings(items: seq<DailyInput>) returns (findings: seq<Finding>)
    ensures findings == Findings(items)
  {
    findings := [];
    var k := 1;
    while k < |items|
      invariant if items == [] then findings == [] else 1 <= k <= |items| && findings == Findings(items[..k])
    {
      var previous, current := items[k - 1], items[k];
      assert items[..k + 1] == items[..k] + [current];
      FindingsAppend(items[..k], current);
      k := k + 1;
      if previous.last.None? || current.first.None? {
        findings := findings + [Finding(previous.sourceDate, current.sourceDate, None, Unassessable)];
        continue;
      }
      var seconds := current.first.value.seconds - previous.last.value.seconds;
      var kind;
      if seconds < 0 {
        kind := Reversed;
      } else if seconds == 0 {
        kind := Overlapping;
      } else if seconds > SIGNIFICANT_GAP_SECONDS {
        kind := GapOverSixty;
      } else {
        kind := Observed;
      }
      findings := findings + [Finding(previous.sourceDate, current.sourceDate, Some(seconds), kind)];
    }
    assert items != [] ==> items[..k] == items;
  }

  // ---------------------------------------------------------------- writing and verifying

  /** The writer cuts the table into full row groups and a last one; an empty table has one empty group. */
  function RowGroups(count: nat): seq<nat> {
    if count <= ROW_GROUP_SIZE then [count] else [ROW_GROUP_SIZE] + RowGroups(count - ROW_GROUP_SIZE)
  }

  /** The file that the fixed writer makes of these rows. */
  function Serialized(rows: seq<Row>): Parquet {
    Parquet(true, {CODEC}, RowGroups(|rows|), rows)
  }

  function Pairs(rows: seq<Row>): (pairs: seq<(int, int)>)
    ensures |pairs| == |rows| && forall i :: 0 <= i < |rows| ==> pairs[i] == (rows[i].time, rows[i].index)
  {
    seq(|rows|, i requires 0 <= i < |rows| => (rows[i].time, rows[i].index))
  }

  function PairOrder(): ((int, int), (int, int)) -> bool {
    (a: (int, int), b: (int, int)) => a.0 < b.0 || (a.0 == b.0 && a.1 <= b.1)
  }

  /** The independent check of the reopened output. */
  function VerifyCurated(file: Parquet, expected: int): Check<CompactionError> {
    var rows := file.rows;
    if CheckFormat(file).Fail? then CheckFormat(file)
    else if |rows| != expected then Fail(CuratedRowCount)
    else if exists i :: 0 <= i < |file.rowGroups| && file.rowGroups[i] > ROW_GROUP_SIZE then Fail(OversizedRowGroup)
    else if Pairs(rows) != Sort(PairOrder(), Pairs(rows)) then Fail(NotSorted)
    else if !UniqueTimes(rows) then Fail(DuplicateTimestamps)
    else if !UniqueIndexes(rows) then Fail(DuplicateIndexes)
    else Pass
  }

  function CheckBounds(items: seq<DailyInput>, bounds: Bounds): Check<CompactionError> {
    if |items| > bounds.maxObjects then Fail(TooManyObjects)
    else if TotalOf(StagingBytes(), items) > bounds.maxInputBytes then Fail(TooManyBytes)
    else if TotalOf(InputRows(), items) > bounds.maxInputRows then Fail(TooManyRows)
    else Pass
  }

  function Describe(s: Selection, ordered: seq<DailyInput>, rows: seq<Row>): Compacted {
    Compacted(
      rows,
      |Serialized(rows).rowGroups|,
      TotalOf(ValidRows(), ordered),
      |rows|,
      TotalOf(QuarantineRows(), ordered),
      if rows == [] then None else Some(rows[0].time),
      if rows == [] then None else Some(rows[|rows| - 1].time),
      MissingExpectedDates(s),
      Findings(ordered),
      GapCount(Times(rows)))
  }

  /** The completion document's two reconciliation flags. */
  predicate Reconciles(s: Selection, result: Compacted) {
    && result.curatedRows == result.selectedRows
    && TotalOf(InputRows(), s.inputs) == result.selectedRows + result.quarantineRows
  }

  /** The compacted month, or the first check that fails. */
  function MonthOf(job: Job): Result<Compacted, CompactionError> {
    var s := job.selection;
    var accepted := ValidateSelection(s);
    if accepted.Failure? then Failure(InvalidSelection(accepted.error)) else
    var ordered := accepted.value;
    if !job.writerIsFixed then Failure(WriterContractDiffers) else
    :- CheckBounds(ordered, job.bounds);
    var tables :- LoadDays(job.read, ordered, {}, {});
    var selectedRows := TotalOf(ValidRows(), ordered);
    if |Flatten(tables)| != selectedRows then Failure(LoadedRowsDiffer) else
    var rows := Curate(Flatten(tables));
    if job.encodedSize(rows) > job.bounds.maxOutputBytes then Failure(OutputTooLarge) else
    :- VerifyCurated(Serialized(rows), selectedRows);
    var result := Describe(s, ordered, rows);
    if !Reconciles(s, result) then Failure(ReconciliationFailed) else Success(result)
  }

  // ---------------------------------------------------------------- the algorithm

  method CompactMonth(job: Job) returns (result: Result<Compacted, CompactionError>)
    ensures result == MonthOf(job)
  {
    var s := job.selection;
    var accepted := ValidateSelection(s);
    if accepted.Failure? {
      return Failure(InvalidSelection(accepted.error));
    }
    var ordered := accepted.value;
    if !job.writerIsFixed {
      return Failure(WriterContractDiffers);
    }
    var within := CheckBounds(ordered, job.bounds);
    if within.Fail? {
      return Failure(within.error);
    }
    var findings := BoundaryFindings(ordered);
    var loaded := LoadTables(job.read, ordered);
    if loaded.Failure? {
      return Failure(loaded.error);
    }
    var selectedRows := TotalOf(ValidRows(), ordered);
    var combined := Flatten(loaded.value);
    if |combined| != selectedRows {
      return Failure(LoadedRowsDiffer);
    }
    var rows := Curate(combined);
    if job.encodedSize(rows) > job.bounds.maxOutputBytes {
      return Failure(OutputTooLarge);
    }
    var verified := VerifyCurated(Serialized(rows), selectedRows);
    if verified.Fail? {
      return Failure(verified.error);
    }
    var description := Describe(s, ordered, rows).(findings := findings);
    if !Reconciles(s, description) {
      return Failure(ReconciliationFailed);
    }
    result := Success(description);
  }

  /** The loading loop, with the times and indexes seen so far. */
  method LoadTables(read: DailyInput -> Payload, items: seq<DailyInput>)
    returns (result: Result<seq<seq<Row>>, CompactionError>)
    ensures result == LoadDays(read, items, {}, {})
  {
    hide Lower, ReadDailyTable, CheckFormat, TimeSet, IndexSet;
    var tables: seq<seq<Row>> := [];
    var priorTimes: set<int>, priorIndexes: set<int> := {}, {};
    ghost var whole := LoadDays(read, items, {}, {});
    assert items[0..] == items;
    assert whole.Success? ==> tables + whole.value == whole.value;
    for k := 0 to |items|
      invariant var rest := LoadDays(read, items[k..], priorTimes, priorIndexes);
                whole == if rest.Success? then Success(tables + rest.value) else rest
    {
      assert items[k..][1..] == items[k + 1..];
      var payload := read(items[k]);
      if payload.byteSize != items[k].stagingByteSize || payload.digest != Lower(items[k].stagingSha256) {
        return Failure(StagingMismatch);
      }
      var table := ReadDailyTable(payload, items[k]);
      if table.Failure? {
        return Failure(table.error);
      }
      var times, indexes := TimeSet(table.value), IndexSet(table.value);
      if priorTimes * times != {} {
        return Failure(CrossDayTimestamp);
      }
      if priorIndexes * indexes != {} {
        return Failure(CrossDayIndex);
      }
      ghost var rest := LoadDays(read, items[k + 1..], priorTimes + times, priorIndexes + indexes);
      assert rest.Success? ==> tables + ([table.value] + rest.value) == (tables + [table.value]) + rest.value;
      priorTimes := priorTimes + times;
      priorIndexes := priorIndexes + indexes;
      tables := tables + [table.value];
    }
    assert items[|items|..] == [];
    assert tables + [] == tables;
    result := Success(tables);
  }
}
