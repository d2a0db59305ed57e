/** A month of two days in which a reported gap is not there: the first day's file is out of time order. */
module MisreportedGap {
  import opened Options
  import opened Calendar
  import opened Ordering
  import opened Versions
  import opened Intervals
  import opened MonthlySelection
  import opened Compaction
  import opened CompactionTheorems

  const FEBRUARY_1 := 737456   // of 2020
  const SEPTEMBER_1 := 737669

  function Moment(date: int, second: int): int {
    date * SECONDS_PER_DAY + second
  }

  /** 22:13:20, 23:59:50 and, last in the file, 23:55:00; then 00:00:10 of the next day. */
  function FileRows(date: int): seq<Row> {
    if date == FEBRUARY_1
    then [Row(date, Moment(date, 80000), 0, 0), Row(date, Moment(date, 86390), 1, 0), Row(date, Moment(date, 86100), 2, 0)]
    else [Row(date, Moment(date, 10), 3, 0)]
  }

  function Sha256(): (digest: string)
    ensures HexDigest(digest) && Lower(digest) == digest
  {
    seq(64, _ => 'a')
  }

  function Day(date: int): DailyInput {
    var rows := FileRows(date);
    DailyInput(date, "identity", "bucket", "marker", "etag", "tag", "bucket", "staging", Sha256(), 1000,
               |rows|, |rows|, 0, Some(Timestamp(rows[0].time, false)), Some(Timestamp(rows[|rows| - 1].time, false)),
               "1.0.0", SCHEMA_VERSION, MANIFEST_VERSION)
  }

  function February(): Selection {
    Selection("metropt3", 2020, 2, [Day(FEBRUARY_1), Day(FEBRUARY_1 + 1)], [FEBRUARY_1, FEBRUARY_1 + 1],
              FEBRUARY_1, SEPTEMBER_1, false)
  }

  function FebruaryJob(): Job {
    Job(February(), (item: DailyInput) => Payload(1000, Sha256(), Some(Serialized(FileRows(item.sourceDate)))),
        true, DEFAULT_BOUNDS, _ => 2000)
  }

  lemma FebruaryDays()
    ensures MonthStart(2020, 2) == FEBRUARY_1 && DaysInMonth(2020, 2) == 29
  {
    assert DaysBeforeMonth(2020, 2) == DaysBeforeMonth(2020, 1) + 31;
  }

  lemma MomentsOfDay(date: int, second: int)
    requires 0 <= second < SECONDS_PER_DAY
    ensures DateOf(Moment(date, second)) == date
  {
  }

  lemma DayIsAccepted(date: int)
    requires date == FEBRUARY_1 || date == FEBRUARY_1 + 1
    ensures ValidateInput(Day(date), 2020, 2).None?
  {
    hide DateOf, Moment;
    FebruaryDays();
    MomentsOfDay(date, 80000);
    MomentsOfDay(date, 86100);
    MomentsOfDay(date, 10);
    assert Moment(date, 80000) <= Moment(date, 86100) by {
      LaterSecondsAreLater(date, 80000, 86100);
    }
  }

  lemma LaterSecondsAreLater(date: int, first: int, second: int)
    ensures Moment(date, second) - Moment(date, first) == second - first
    ensures Moment(date + 1, second) - Moment(date, first) == SECONDS_PER_DAY + second - first
  {
  }

  lemma SelectionIsAccepted()
    ensures ValidateSelection(February()) == Success([Day(FEBRUARY_1), Day(FEBRUARY_1 + 1)])
  {
    hide ValidateInput, ValidateInputs, Sort, MonthStart, DaysInMonth;
    var a, b := Day(FEBRUARY_1), Day(FEBRUARY_1 + 1);
    FebruaryDays();
    TwoAreSorted(a, b);
    DayIsAccepted(FEBRUARY_1);
    DayIsAccepted(FEBRUARY_1 + 1);
    BothAreAccepted(a, b);
    assert Lower("metropt3") == "metropt3";
  }

  lemma TwoAreSorted(a: DailyInput, b: DailyInput)
    requires a.sourceDate <= b.sourceDate
    ensures Sort(ByDate(), [a, b]) == [a, b]
  {
    assert [a, b][1..] == [b] && [b][1..] == [];
    assert Sort(ByDate(), [b]) == [b];
  }

  lemma BothAreAccepted(a: DailyInput, b: DailyInput)
    requires ValidateInput(a, 2020, 2).None? && ValidateInput(b, 2020, 2).None?
    ensures ValidateInputs([a, b], 2020, 2).None?
  {
    hide ValidateInput;
    assert [a, b][1..] == [b] && [b][1..] == [];
    assert ValidateInputs([b], 2020, 2).None?;
  }

  lemma DayLoads(date: int)
    ensures LoadDay(FebruaryJob().read(Day(date)), Day(date)) == Success(FileRows(date))
  {
    hide DateOf, Moment, Sha256;
    MomentsOfDay(date, 80000);
    MomentsOfDay(date, 86390);
    MomentsOfDay(date, 86100);
    MomentsOfDay(date, 10);
    var rows := FileRows(date);
    assert CheckFormat(Serialized(rows)).Pass?;
    assert forall i :: 0 <= i < |rows| ==> rows[i].sourceDate == date;
    assert forall i :: 0 <= i < |rows| ==> DateOf(rows[i].time) == date;
    assert Day(date).stagingSha256 == Sha256() == Lower(Sha256());
  }

  lemma MonthLoads()
    ensures var (read, days) := (FebruaryJob().read, [Day(FEBRUARY_1), Day(FEBRUARY_1 + 1)]);
            && Readable(read, days)
            && Tables(read, days) == [FileRows(FEBRUARY_1), FileRows(FEBRUARY_1 + 1)]
  {
    hide LoadDay, Day;
    DayLoads(FEBRUARY_1);
    DayLoads(FEBRUARY_1 + 1);
  }

  lemma TwoTables(rows: seq<Row>, next: seq<Row>)
    ensures Flatten([rows, next]) == rows + next
  {
    assert [rows, next][1..] == [next] && [next][1..] == [];
    assert Flatten([next]) == next + [];
  }

  lemma FebruaryIsUnique()
    ensures UniqueTimes(FileRows(FEBRUARY_1) + FileRows(FEBRUARY_1 + 1))
    ensures UniqueIndexes(FileRows(FEBRUARY_1) + FileRows(FEBRUARY_1 + 1))
  {
  }

  lemma FebruaryIsWithinBounds()
    ensures CheckBounds([Day(FEBRUARY_1), Day(FEBRUARY_1 + 1)], DEFAULT_BOUNDS).Pass?
  {
    TotalOfTwo(StagingBytes(), Day(FEBRUARY_1), Day(FEBRUARY_1 + 1));
    TotalOfTwo(InputRows(), Day(FEBRUARY_1), Day(FEBRUARY_1 + 1));
  }

  lemma TotalOfTwo(field: DailyInput -> int, a: DailyInput, b: DailyInput)
    ensures TotalOf(field, [a, b]) == field(a) + field(b)
  {
    assert [a, b][1..] == [b] && [b][1..] == [];
    assert TotalOf(field, [b]) == field(b) + TotalOf(field, []);
  }

  /** The month compacts, one gap is reported, and no two neighbouring days are that far apart. */
  lemma UnorderedTableMisreports()
    ensures MonthOf(FebruaryJob()).Success?
    ensures CountKind(MonthOf(FebruaryJob()).value.findings, GapOverSixty) == 1
    ensures ValidateSelection(February()).Success? && Readable(FebruaryJob().read, ValidateSelection(February()).value)
    ensures NeighbourGaps(None, DayTimes(FebruaryJob().read, ValidateSelection(February()).value)) == 0
  {
    hide MonthOf, ValidateSelection, Day, Readable, DayTimes, Tables, Flatten, UniqueTimes, UniqueIndexes, CheckBounds,
         FileRows, Faithful, CuratedDays;
    var rows, next := FileRows(FEBRUARY_1), FileRows(FEBRUARY_1 + 1);
    SelectionIsAccepted();
    MonthLoads();
    TwoTables(rows, next);
    FebruaryIsUnique();
    FebruaryIsWithinBounds();
    CompactsExactlyWhen(FebruaryJob());
    CuratedMonth(FebruaryJob());
    OneGapIsReported();
    GapsAreReported(FebruaryJob());
    BoundaryIsNotFaithful();
    assert [rows, next][1 - 1] == rows;
  }

  lemma OneGapIsReported()
    ensures CountKind(Findings([Day(FEBRUARY_1), Day(FEBRUARY_1 + 1)]), GapOverSixty) == 1
  {
    var days := [Day(FEBRUARY_1), Day(FEBRUARY_1 + 1)];
    assert days[1..] == [days[1]];
    LaterSecondsAreLater(FEBRUARY_1, 86100, 10);
    assert Findings(days) == [Classify(days[0], days[1])];
  }

  /** 310 seconds from the last row, but 20 from the latest. */
  lemma BoundaryIsNotFaithful()
    ensures !Faithful(FileRows(FEBRUARY_1), FileRows(FEBRUARY_1 + 1))
  {
    hide Moment;
    var rows, next := FileRows(FEBRUARY_1), FileRows(FEBRUARY_1 + 1);
    LaterSecondsAreLater(FEBRUARY_1, 86100, 10);
    LaterSecondsAreLater(FEBRUARY_1, 86390, 10);
    assert rows[1] in rows && next[0] in next;
  }
}
