/** What a compacted month is, when compaction succeeds, and which of its checks can never fail. */
module CompactionTheorems {
  import opened Options
  import opened Calendar
  import opened Ordering
  import opened Intervals
  import opened MonthlySelection
  import opened Compaction

  // ---------------------------------------------------------------- daily tables

  predicate Chronological(items: seq<DailyInput>) {
    forall i, j :: 0 <= i < j < |items| ==> items[i].sourceDate < items[j].sourceDate
  }

  /** Every selected object has the recorded bytes and an acceptable table. */
  predicate Readable(read: DailyInput -> Payload, items: seq<DailyInput>) {
    forall i :: 0 <= i < |items| ==> LoadDay(read(items[i]), items[i]).Success?
  }

  /** The daily tables, each in its file's order. */
  function Tables(read: DailyInput -> Payload, items: seq<DailyInput>): (tables: seq<seq<Row>>)
    requires Readable(read, items)
    ensures |tables| == |items|
    ensures forall i :: 0 <= i < |items| ==> tables[i] == LoadDay(read(items[i]), items[i]).value
  {
    seq(|items|, i requires 0 <= i < |items| => LoadDay(read(items[i]), items[i]).value)
  }

  predicate OnDate(rows: seq<Row>, date: int) {
    forall row :: row in rows ==> DateOf(row.time) == date
  }

  lemma LoadedDay(payload: Payload, item: DailyInput)
    requires LoadDay(payload, item).Success?
    ensures var rows := LoadDay(payload, item).value;
            && |rows| == item.validRows && OnDate(rows, item.sourceDate)
            && (rows != [] ==> item.first == Some(Timestamp(rows[0].time, false)))
            && (rows != [] ==> item.last == Some(Timestamp(rows[|rows| - 1].time, false)))
            && (rows == [] ==> item.first == None && item.last == None)
  {
  }

  lemma SingleDayFailures(payload: Payload, item: DailyInput)
    ensures LoadDay(payload, item) != Failure(CrossDayTimestamp)
  {
  }

  lemma TailTables(read: DailyInput -> Payload, items: seq<DailyInput>)
    requires items != [] && Readable(read, items)
    ensures Readable(read, items[1..]) && Tables(read, items)[1..] == Tables(read, items[1..])
    ensures Flatten(Tables(read, items))
         == LoadDay(read(items[0]), items[0]).value + Flatten(Tables(read, items[1..]))
  {
  }

  /** Rows of later days. */
  lemma {:induction false} LaterRows(read: DailyInput -> Payload, items: seq<DailyInput>, date: int)
    requires Readable(read, items) && forall i :: 0 <= i < |items| ==> date < items[i].sourceDate
    ensures forall row :: row in Flatten(Tables(read, items)) ==> date < DateOf(row.time)
  {
    if items != [] {
      LoadedDay(read(items[0]), items[0]);
      TailTables(read, items);
      LaterRows(read, items[1..], date);
    }
  }

  // ---------------------------------------------------------------- loading

  lemma UniqueIndexesSplit(xs: seq<Row>, ys: seq<Row>)
    requires UniqueIndexes(xs + ys)
    ensures UniqueIndexes(ys) && IndexSet(xs) !! IndexSet(ys)
  {
    forall x, y | x in xs && y in ys ensures x.index != y.index {
      var i :| 0 <= i < |xs| && xs[i] == x;
      var j :| 0 <= j < |ys| && ys[j] == y;
      assert (xs + ys)[i] == x && (xs + ys)[|xs| + j] == y;
    }
    forall i, j | 0 <= i < j < |ys| ensures ys[i].index != ys[j].index {
      assert (xs + ys)[|xs| + i] == ys[i] && (xs + ys)[|xs| + j] == ys[j];
    }
  }

  lemma IndexSetAppends(xs: seq<Row>, ys: seq<Row>)
    ensures IndexSet(xs + ys) == IndexSet(xs) + IndexSet(ys)
  {
    forall row | row in xs + ys ensures row.index in IndexSet(xs) + IndexSet(ys) {
      assert row in xs || row in ys;
    }
    forall row | row in xs || row in ys ensures row.index in IndexSet(xs + ys) {
      assert row in xs + ys;
    }
  }

  /** Days cannot share a timestamp, so loading needs only readable tables and fresh indexes. */
  lemma {:induction false} DaysLoad(read: DailyInput -> Payload, items: seq<DailyInput>, times: set<int>, indexes: set<int>)
    requires Chronological(items)
    requires forall t, i :: t in times && 0 <= i < |items| ==> DateOf(t) < items[i].sourceDate
    ensures var loaded := LoadDays(read, items, times, indexes);
            && loaded != Failure(CrossDayTimestamp)
            && (loaded.Success? ==> Readable(read, items) && loaded.value == Tables(read, items))
            && ((Readable(read, items) && UniqueIndexes(Flatten(Tables(read, items)))
                 && IndexSet(Flatten(Tables(read, items))) !! indexes) ==> loaded.Success?)
    decreases |items|
  {
    hide LoadDay, UniqueIndexes, IndexSet, DateOf;
    if items != [] {
      SingleDayFailures(read(items[0]), items[0]);
    }
    if items != [] && LoadDay(read(items[0]), items[0]).Success? {
      var rows := LoadDay(read(items[0]), items[0]).value;
      LoadedDay(read(items[0]), items[0]);
      var later := items[1..];
      DaysLoad(read, later, times + TimeSet(rows), indexes + IndexSet(rows));
      assert times * TimeSet(rows) == {};
      if Readable(read, later) {
        assert Readable(read, items) by {
          assert forall i :: 1 <= i < |items| ==> items[i] == later[i - 1];
        }
        TailTables(read, items);
        IndexSetAppends(rows, Flatten(Tables(read, later)));
        if UniqueIndexes(Flatten(Tables(read, items))) {
          UniqueIndexesSplit(rows, Flatten(Tables(read, later)));
        }
      } else if Readable(read, items) {
        TailTables(read, items);
      }
    }
  }

  lemma {:induction false} LoadedRowCount(read: DailyInput -> Payload, items: seq<DailyInput>)
    requires Readable(read, items)
    ensures |Flatten(Tables(read, items))| == TotalOf(ValidRows(), items)
  {
    if items != [] {
      LoadedDay(read(items[0]), items[0]);
      TailTables(read, items);
      LoadedRowCount(read, items[1..]);
    }
  }

  // ---------------------------------------------------------------- sorting

  lemma TimeOrderIsPreorder()
    ensures TotalPreorder(ByTimeAndIndex()) && TotalPreorder(PairOrder())
  {
  }

  /** Sorting the month sorts each day, whatever the rows. */
  lemma {:induction false} MonthSortsByDay(read: DailyInput -> Payload, items: seq<DailyInput>)
    requires Readable(read, items) && Chronological(items)
    ensures Curate(Flatten(Tables(read, items))) == Flatten(CuratedDays(read, items))
  {
    if items != [] {
      var rows, later := Tables(read, items)[0], Flatten(Tables(read, items[1..]));
      LoadedDay(read(items[0]), items[0]);
      TailTables(read, items);
      MonthSortsByDay(read, items[1..]);
      LaterRows(read, items[1..], items[0].sourceDate);
      forall x, y | x in rows && y in later ensures ByTimeAndIndex()(x, y) {
        assert DateOf(x.time) < DateOf(y.time);
      }
      SortOfBlocks(ByTimeAndIndex(), rows, later);
      assert CuratedDays(read, items)[1..] == CuratedDays(read, items[1..]);
    }
  }

  /** Each day's table in curated order. */
  function CuratedDays(read: DailyInput -> Payload, items: seq<DailyInput>): (days: seq<seq<Row>>)
    requires Readable(read, items)
    ensures |days| == |items|
  {
    seq(|items|, i requires 0 <= i < |items| => Curate(Tables(read, items)[i]))
  }

  lemma UniquenessIsPermutable(xs: seq<Row>, ys: seq<Row>)
    requires multiset(xs) == multiset(ys)
    ensures UniqueTimes(xs) == UniqueTimes(ys) && UniqueIndexes(xs) == UniqueIndexes(ys)
  {
    var byTime := (a: Row, b: Row) => a.time <= b.time;
    var byIndex := (a: Row, b: Row) => a.index <= b.index;
    if UniqueTimes(xs) { DistinctIsPermutable(byTime, xs, ys); }
    if UniqueTimes(ys) { DistinctIsPermutable(byTime, ys, xs); }
    if UniqueIndexes(xs) { DistinctIsPermutable(byIndex, xs, ys); }
    if UniqueIndexes(ys) { DistinctIsPermutable(byIndex, ys, xs); }
  }

  lemma {:induction false} RowGroupsFit(count: nat, i: nat)
    requires i < |RowGroups(count)|
    ensures RowGroups(count)[i] <= ROW_GROUP_SIZE
  {
    if i > 0 {
      RowGroupsFit(count - ROW_GROUP_SIZE, i - 1);
    }
  }

  /** The number of row groups is the row count over the group size, rounded up, and never zero. */
  lemma {:induction false} RowGroupCount(count: nat)
    ensures var groups := |RowGroups(count)|;
            ROW_GROUP_SIZE * (groups - 1) < count <= ROW_GROUP_SIZE * groups || (count == 0 && groups == 1)
  {
    if count > ROW_GROUP_SIZE {
      RowGroupCount(count - ROW_GROUP_SIZE);
    }
  }

  /** Of the output checks only the row count and uniqueness can fail. */
  lemma CuratedVerifies(rows: seq<Row>, expected: int)
    ensures VerifyCurated(Serialized(Curate(rows)), expected)
         == if |rows| != expected then Fail(CuratedRowCount)
            else if !UniqueTimes(rows) then Fail(DuplicateTimestamps)
            else if !UniqueIndexes(rows) then Fail(DuplicateIndexes)
            else Pass
  {
    hide Sort, UniqueTimes, UniqueIndexes, RowGroups;
    var sorted := Curate(rows);
    TimeOrderIsPreorder();
    SortPermutes(ByTimeAndIndex(), rows);
    SortSorts(ByTimeAndIndex(), rows);
    UniquenessIsPermutable(rows, sorted);
    forall i | 0 <= i < |RowGroups(|sorted|)| ensures RowGroups(|sorted|)[i] <= ROW_GROUP_SIZE {
      RowGroupsFit(|sorted|, i);
    }
    SortOfSorted(PairOrder(), Pairs(sorted));
  }

  /** What a curated file must be: strictly increasing in time, no index twice, as many rows as expected. */
  predicate SoundTable(file: Parquet, expected: int) {
    && file.schemaMatches && (file.rows != [] ==> file.codecs == {CODEC})
    && (forall i :: 0 <= i < |file.rowGroups| ==> file.rowGroups[i] <= ROW_GROUP_SIZE)
    && |file.rows| == expected
    && (forall i, j :: 0 <= i < j < |file.rows| ==> file.rows[i].time < file.rows[j].time)
    && UniqueIndexes(file.rows)
  }

  /** The independent check passes exactly the sound files. */
  lemma VerifiesExactlyWhen(file: Parquet, expected: int)
    ensures VerifyCurated(file, expected).Pass? <==> SoundTable(file, expected)
  {
    hide Sort, UniqueIndexes;
    var rows := file.rows;
    TimeOrderIsPreorder();
    SortSorts(PairOrder(), Pairs(rows));
    if SoundTable(file, expected) {
      SortOfSorted(PairOrder(), Pairs(rows));
    } else if VerifyCurated(file, expected).Pass? {
      forall i, j | 0 <= i < j < |rows| ensures rows[i].time < rows[j].time {
        assert PairOrder()(Pairs(rows)[i], Pairs(rows)[j]);
      }
    }
  }

  // ---------------------------------------------------------------- when compaction succeeds

  /** The condition of success, with no sorting and no comparison between days' times. */
  predicate Compactable(job: Job) {
    && ValidateSelection(job.selection).Success? && job.writerIsFixed
    && var ordered := ValidateSelection(job.selection).value;
    && CheckBounds(ordered, job.bounds).Pass?
    && Readable(job.read, ordered)
    && var rows := Flatten(Tables(job.read, ordered));
    && UniqueTimes(rows) && UniqueIndexes(rows)
    && job.encodedSize(Curate(rows)) <= job.bounds.maxOutputBytes
  }

  lemma {:induction false} TotalOfInsert(field: DailyInput -> int, x: DailyInput, items: seq<DailyInput>)
    ensures TotalOf(field, Insert(ByDate(), x, items)) == field(x) + TotalOf(field, items)
  {
    if items != [] && !ByDate()(x, items[0]) {
      TotalOfInsert(field, x, items[1..]);
    }
  }

  lemma {:induction false} TotalOfSort(field: DailyInput -> int, items: seq<DailyInput>)
    ensures TotalOf(field, Sort(ByDate(), items)) == TotalOf(field, items)
  {
    if items != [] {
      TotalOfSort(field, items[1..]);
      TotalOfInsert(field, items[0], Sort(ByDate(), items[1..]));
    }
  }

  lemma {:induction false} CountsReconcile(items: seq<DailyInput>)
    requires forall i :: 0 <= i < |items| ==> items[i].inputRows == items[i].validRows + items[i].quarantineRows
    ensures TotalOf(InputRows(), items) == TotalOf(ValidRows(), items) + TotalOf(QuarantineRows(), items)
  {
    if items != [] {
      CountsReconcile(items[1..]);
    }
  }

  /** The input totals of an accepted selection reconcile, in whichever order its inputs are summed. */
  lemma SelectionReconciles(s: Selection)
    requires ValidateSelection(s).Success?
    ensures var ordered := ValidateSelection(s).value;
            TotalOf(InputRows(), s.inputs) == TotalOf(ValidRows(), ordered) + TotalOf(QuarantineRows(), ordered)
  {
    hide InMonth, EndsWithin, HexDigest, Lower, ValidateBoundary, DatesDistinct, Increasing;
    var ordered := ValidateSelection(s).value;
    AcceptedSelection(s);
    forall i | 0 <= i < |ordered|
      ensures ordered[i].inputRows == ordered[i].validRows + ordered[i].quarantineRows
    {
      assert ValidateInput(ordered[i], s.year, s.month).None?;
    }
    CountsReconcile(ordered);
    TotalOfSort(InputRows(), s.inputs);
  }

  lemma LoadsExactly(read: DailyInput -> Payload, ordered: seq<DailyInput>)
    requires Chronological(ordered)
    ensures LoadDays(read, ordered, {}, {}) != Failure(CrossDayTimestamp)
    ensures LoadDays(read, ordered, {}, {}).Success? ==>
              Readable(read, ordered) && LoadDays(read, ordered, {}, {}).value == Tables(read, ordered)
    ensures (Readable(read, ordered) && UniqueIndexes(Flatten(Tables(read, ordered)))) ==>
              LoadDays(read, ordered, {}, {}).Success?
  {
    DaysLoad(read, ordered, {}, {});
  }
  
  /** Compaction succeeds exactly when the selection is compactable. */
  lemma CompactsExactlyWhen(job: Job)
    ensures MonthOf(job).Success?
       <==> Compactable(job)
  {
    hide LoadDays, LoadDay, Readable, VerifyCurated, Curate, CheckBounds, ValidateSelection, Flatten, Tables, Findings, GapCount,
         UniqueTimes, UniqueIndexes, TotalOf, MissingExpectedDates;
    var s, read := job.selection, job.read;
    if ValidateSelection(s).Success? {
      var ordered := ValidateSelection(s).value;
      AcceptedSelection(s);
      SelectionReconciles(s);
      LoadsExactly(read, ordered);
      if Readable(read, ordered) {
        var rows := Flatten(Tables(read, ordered));
        LoadedRowCount(read, ordered);
        CuratedVerifies(rows, TotalOf(ValidRows(), ordered));
        SameLength(rows);
      }
    }
  }

  lemma SameLength(rows: seq<Row>)
    ensures |Curate(rows)| == |rows| && multiset(Curate(rows)) == multiset(rows)
  {
    SortPermutes(ByTimeAndIndex(), rows);
  }

  /** The checks of compaction that no input can fail. */
  lemma RedundantChecks(job: Job)
    requires MonthOf(job).Failure?
    ensures MonthOf(job).error
        !in {CrossDayTimestamp, LoadedRowsDiffer, CuratedRowCount, OversizedRowGroup, NotSorted, ReconciliationFailed}
  {
    hide LoadDays, LoadDay, Readable, VerifyCurated, Curate, ValidateSelection, Flatten, Tables, Findings, GapCount,
         UniqueTimes, UniqueIndexes, TotalOf, MissingExpectedDates;
    var s, read := job.selection, job.read;
    if ValidateSelection(s).Success? {
      var ordered := ValidateSelection(s).value;
      AcceptedSelection(s);
      SelectionReconciles(s);
      LoadsExactly(read, ordered);
      LoadFailures(read, ordered, {}, {});
      if Readable(read, ordered) {
        var rows := Flatten(Tables(read, ordered));
        LoadedRowCount(read, ordered);
        CuratedVerifies(rows, TotalOf(ValidRows(), ordered));
        SameLength(rows);
      }
    }
  }

  lemma {:induction false} LoadFailures(read: DailyInput -> Payload, items: seq<DailyInput>, times: set<int>, indexes: set<int>)
    ensures LoadDays(read, items, times, indexes).Failure? ==>
              LoadDays(read, items, times, indexes).error
                !in {LoadedRowsDiffer, CuratedRowCount, OversizedRowGroup, NotSorted, DuplicateTimestamps, ReconciliationFailed}
    decreases |items|
  {
    if items != [] && LoadDay(read(items[0]), items[0]).Success? {
      var rows := LoadDay(read(items[0]), items[0]).value;
      LoadFailures(read, items[1..], times + TimeSet(rows), indexes + IndexSet(rows));
    }
  }

  // ---------------------------------------------------------------- what a compacted month holds

  /** The curated month: every selected row once, in strictly increasing time, day after day. */
  lemma CuratedMonth(job: Job)
    requires MonthOf(job).Success?
    ensures ValidateSelection(job.selection).Success? && Readable(job.read, ValidateSelection(job.selection).value)
    ensures var ordered := ValidateSelection(job.selection).value;
            var month := MonthOf(job).value;
            && multiset(month.rows) == multiset(Flatten(Tables(job.read, ordered)))
            && month.rows == Flatten(CuratedDays(job.read, ordered))
            && |month.rows| == month.curatedRows == month.selectedRows == TotalOf(ValidRows(), ordered)
            && (forall i, j :: 0 <= i < j < |month.rows| ==> month.rows[i].time < month.rows[j].time)
            && UniqueIndexes(month.rows)
            && |month.rows| + month.quarantineRows == TotalOf(InputRows(), job.selection.inputs)
            && month.rowGroups == |RowGroups(|month.rows|)|
            && month.findings == Findings(ordered)
            && month.significantGaps == GapCount(Times(month.rows))
  {
    hide LoadDays, LoadDay, Readable, VerifyCurated, ValidateSelection, Flatten, Tables, CuratedDays, Findings, GapCount,
         TotalOf, MissingExpectedDates, CheckBounds, Sort, UniqueIndexes, Reconciles;
    CompactsExactlyWhen(job);
    SelectionReconciles(job.selection);
    var ordered := ValidateSelection(job.selection).value;
    AcceptedSelection(job.selection);
    LoadsExactly(job.read, ordered);
    LoadedRowCount(job.read, ordered);
    var rows := Flatten(Tables(job.read, ordered));
    MonthSortsByDay(job.read, ordered);
    SortPermutes(ByTimeAndIndex(), rows);
    TimeOrderIsPreorder();
    SortSorts(ByTimeAndIndex(), rows);
    UniquenessIsPermutable(rows, Curate(rows));
  }

  lemma {:induction false} CleanDaysAreUnique(read: DailyInput -> Payload, items: seq<DailyInput>)
    requires Readable(read, items) && Chronological(items)
    requires forall i :: 0 <= i < |items| ==> UniqueTimes(Tables(read, items)[i])
    ensures UniqueTimes(Flatten(Tables(read, items)))
  {
    hide LoadDay, DateOf;
    if items != [] {
      LoadedDay(read(items[0]), items[0]);
      TailTables(read, items);
      CleanDaysAreUnique(read, items[1..]);
      LaterRows(read, items[1..], items[0].sourceDate);
      var rows, later := Tables(read, items)[0], Flatten(Tables(read, items[1..]));
      forall i, j | 0 <= i < |rows| && 0 <= j < |later| ensures rows[i].time != later[j].time {
        assert rows[i] in rows && later[j] in later;
      }
    }
  }

  /** When no day repeats a time, neither does the month. */
  lemma CleanDaysShareNoTime(job: Job)
    requires ValidateSelection(job.selection).Success? && Readable(job.read, ValidateSelection(job.selection).value)
    requires var ordered := ValidateSelection(job.selection).value;
             forall i :: 0 <= i < |ordered| ==> UniqueTimes(Tables(job.read, ordered)[i])
    ensures MonthOf(job) != Failure(DuplicateTimestamps)
  {
    hide LoadDays, LoadDay, Readable, VerifyCurated, Curate, ValidateSelection, Flatten, Tables, UniqueTimes, UniqueIndexes;
    var read, ordered := job.read, ValidateSelection(job.selection).value;
    AcceptedSelection(job.selection);
    LoadsExactly(read, ordered);
    LoadedRowCount(read, ordered);
    CleanDaysAreUnique(read, ordered);
    LoadFailures(read, ordered, {}, {});
    CuratedVerifies(Flatten(Tables(read, ordered)), TotalOf(ValidRows(), ordered));
  }

  /** Compaction does not see the order in which a selection lists its inputs. */
  lemma ShuffledSelectionCompactsAlike(job: Job, inputs: seq<DailyInput>)
    requires multiset(inputs) == multiset(job.selection.inputs)
    ensures MonthOf(job.(selection := job.selection.(inputs := inputs))) == MonthOf(job)
  {
    hide LoadDays, VerifyCurated, Curate, ValidateSelection, Flatten, Findings, GapCount, TotalOf, CheckBounds, MissingFrom;
    var s, t := job.selection, job.selection.(inputs := inputs);
    ShufflingIsInvisible(s, t);
    MissingIsPermutable(s.expectedRawDates, s.inputs, t.inputs);
    if ValidateSelection(s).Success? {
      SelectionReconciles(s);
      SelectionReconciles(t);
    }
  }

  lemma {:induction false} MissingIsPermutable(dates: seq<int>, xs: seq<DailyInput>, ys: seq<DailyInput>)
    requires multiset(xs) == multiset(ys)
    ensures MissingFrom(dates, xs) == MissingFrom(dates, ys)
  {
    if dates != [] {
      MissingIsPermutable(dates[1..], xs, ys);
      if i :| 0 <= i < |xs| && xs[i].sourceDate == dates[0] {
        assert xs[i] in multiset(ys);
      } else if j :| 0 <= j < |ys| && ys[j].sourceDate == dates[0] {
        assert ys[j] in multiset(xs);
      }
    }
  }

  predicate Covered(date: int, inputs: seq<DailyInput>) {
    exists i :: 0 <= i < |inputs| && inputs[i].sourceDate == date
  }

  lemma {:induction false} MissingAreUncovered(dates: seq<int>, inputs: seq<DailyInput>)
    ensures forall d :: d in MissingFrom(dates, inputs) <==> d in dates && !Covered(d, inputs)
  {
    if dates != [] {
      MissingAreUncovered(dates[1..], inputs);
      assert dates == [dates[0]] + dates[1..];
      assert (exists i :: 0 <= i < |inputs| && inputs[i].sourceDate == dates[0]) == Covered(dates[0], inputs);
    }
  }

  lemma NoneMissing(inputs: seq<DailyInput>)
    ensures MissingFrom([], inputs) == []
  {
  }

  lemma MissingFirst(dates: seq<int>, inputs: seq<DailyInput>)
    requires dates != []
    ensures var rest := MissingFrom(dates[1..], inputs);
            MissingFrom(dates, inputs) == rest || MissingFrom(dates, inputs) == [dates[0]] + rest
  {
    var rest := MissingFrom(dates[1..], inputs);
    assert [] + rest == rest;
  }

  lemma TailIncreases(dates: seq<int>)
    requires Increasing(dates) && dates != []
    ensures Increasing(dates[1..]) && forall d :: d in dates[1..] ==> dates[0] < d
  {
  }

  lemma HeadIncreases(date: int, rest: seq<int>)
    requires Increasing(rest) && forall d :: d in rest ==> date < d
    ensures Increasing([date] + rest)
  {
    forall i | 0 <= i < |rest| ensures date < rest[i] {
      assert rest[i] in rest;
    }
  }

  /** The dates reported missing are exactly the expected ones that no input was selected for, still in order. */
  lemma {:induction false} MissingDates(dates: seq<int>, inputs: seq<DailyInput>)
    requires Increasing(dates)
    ensures Increasing(MissingFrom(dates, inputs))
    ensures forall d :: d in MissingFrom(dates, inputs) <==> d in dates && !Covered(d, inputs)
  {
    hide Covered, MissingFrom;
    MissingAreUncovered(dates, inputs);
    if dates == [] {
      NoneMissing(inputs);
    } else {
      hide Increasing;
      TailIncreases(dates);
      MissingDates(dates[1..], inputs);
      MissingFirst(dates, inputs);
      var rest := MissingFrom(dates[1..], inputs);
      assert forall d :: d in rest ==> dates[0] < d;
      if MissingFrom(dates, inputs) != rest {
        HeadIncreases(dates[0], rest);
      }
    }
  }

  // ---------------------------------------------------------------- boundaries

  lemma {:induction false} FindingAt(items: seq<DailyInput>, i: nat)
    requires i + 1 < |items|
    ensures i < |Findings(items)| == |items| - 1 && Findings(items)[i] == Classify(items[i], items[i + 1])
  {
    if i > 0 {
      FindingAt(items[1..], i - 1);
    } else if |items| > 2 {
      FindingAt(items[1..], 0);
    }
  }

  lemma {:induction false} FindingsOfFew(items: seq<DailyInput>, i: nat)
    requires i < |Findings(items)|
    ensures i + 1 < |items|
  {
    if i > 0 {
      FindingsOfFew(items[1..], i - 1);
    }
  }

  /** The boundary times of an accepted day fall on that day. */
  lemma AcceptedBoundaries(item: DailyInput, year: int, month: int)
    requires 1 <= month <= 12 && ValidateInput(item, year, month).None?
    ensures item.first.Some? ==> DateOf(item.first.value.seconds) == item.sourceDate
    ensures item.last.Some? ==> DateOf(item.last.value.seconds) == item.sourceDate
  {
    hide InMonth, HexDigest, DateOf;
  }

  /** No boundary of an accepted selection is reversed or overlapping. */
  lemma BoundariesAreForward(s: Selection)
    requires ValidateSelection(s).Success?
    ensures forall i :: 0 <= i < |Findings(ValidateSelection(s).value)| ==>
              Findings(ValidateSelection(s).value)[i].kind !in {Reversed, Overlapping}
  {
    hide ValidateSelection, ValidateInput, Findings;
    var ordered := ValidateSelection(s).value;
    AcceptedSelection(s);
    forall i | 0 <= i < |Findings(ordered)|
      ensures Findings(ordered)[i].kind !in {Reversed, Overlapping}
    {
      FindingsOfFew(ordered, i);
      FindingAt(ordered, i);
      AcceptedMonth(s);
      AcceptedBoundaries(ordered[i], s.year, s.month);
      AcceptedBoundaries(ordered[i + 1], s.year, s.month);
    }
  }

  lemma AcceptedMonth(s: Selection)
    requires ValidateSelection(s).Success?
    ensures 1 <= s.month <= 12
  {
  }

  // ---------------------------------------------------------------- gaps

  /** Each day's times in increasing order. */
  function DayTimes(read: DailyInput -> Payload, items: seq<DailyInput>): (days: seq<seq<int>>)
    requires Readable(read, items)
    ensures |days| == |items|
  {
    seq(|items|, i requires 0 <= i < |items| => Times(Curate(Tables(read, items)[i])))
  }

  lemma TimesAppend(xs: seq<Row>, ys: seq<Row>)
    ensures Times(xs + ys) == Times(xs) + Times(ys)
  {
  }

  lemma {:induction false} TimesOfMonth(read: DailyInput -> Payload, items: seq<DailyInput>)
    requires Readable(read, items)
    ensures Times(Flatten(CuratedDays(read, items))) == Flatten(DayTimes(read, items))
  {
    if items != [] {
      TailTables(read, items);
      hide LoadDay, Curate;
      TimesOfMonth(read, items[1..]);
      assert CuratedDays(read, items)[1..] == CuratedDays(read, items[1..]);
      assert DayTimes(read, items)[1..] == DayTimes(read, items[1..]);
      TimesAppend(CuratedDays(read, items)[0], Flatten(CuratedDays(read, items[1..])));
    }
  }

  /** The month's significant gaps are those inside days, between neighbouring days, and across empty days. */
  lemma GapsByDay(job: Job)
    requires MonthOf(job).Success?
    ensures ValidateSelection(job.selection).Success? && Readable(job.read, ValidateSelection(job.selection).value)
    ensures var days := DayTimes(job.read, ValidateSelection(job.selection).value);
            MonthOf(job).value.significantGaps ==
            WithinGaps(days) + NeighbourGaps(None, days) + BridgingGaps(None, false, days)
  {
    hide MonthOf, ValidateSelection, Readable, WithinGaps, NeighbourGaps, BridgingGaps, GapCount, DayTimes, CuratedDays, Flatten;
    CuratedMonth(job);
    var ordered := ValidateSelection(job.selection).value;
    TimesOfMonth(job.read, ordered);
    GapsDecompose(DayTimes(job.read, ordered));
  }

  function CountKind(findings: seq<Finding>, kind: Class): nat {
    if findings == [] then 0 else (if findings[0].kind == kind then 1 else 0) + CountKind(findings[1..], kind)
  }

  /**
   * If the last row of one day and the first row of the next are far apart, so is every row of the one day from every
   * row of the next.
   */
  predicate Faithful(rows: seq<Row>, next: seq<Row>) {
    rows != [] && next != [] && Significant(next[0].time - rows[|rows| - 1].time) ==>
      forall x, y :: x in rows && y in next ==> Significant(y.time - x.time)
  }

  predicate FaithfulBoundaries(tables: seq<seq<Row>>) {
    forall i :: 0 < i < |tables| ==> Faithful(tables[i - 1], tables[i])
  }

  /** The ends of a day's sorted times are its earliest and its latest. */
  lemma CuratedEnds(rows: seq<Row>)
    requires rows != []
    ensures var times := Times(Curate(rows));
            && times != []
            && (forall row :: row in rows ==> times[0] <= row.time <= Last(times))
            && (exists row :: row in rows && row.time == times[0])
            && (exists row :: row in rows && row.time == Last(times))
  {
    hide Sort;
    var sorted := Curate(rows);
    SortPermutes(ByTimeAndIndex(), rows);
    TimeOrderIsPreorder();
    SortSorts(ByTimeAndIndex(), rows);
    assert sorted[0] in multiset(rows) && sorted[|rows| - 1] in multiset(rows);
    forall row | row in rows ensures sorted[0].time <= row.time <= sorted[|rows| - 1].time {
      assert row in multiset(sorted);
    }
  }

  function LastOf(times: seq<int>): Option<int> {
    if times == [] then None else Some(Last(times))
  }

  /** A gap between two neighbouring days is always reported, and a reported one is there when the boundary is faithful. */
  lemma BoundaryReports(before: Payload, previous: DailyInput, after: Payload, current: DailyInput)
    requires LoadDay(before, previous).Success? && LoadDay(after, current).Success?
    ensures var rows, next := LoadDay(before, previous).value, LoadDay(after, current).value;
            var there := Bridge(LastOf(Times(Curate(rows))), Times(Curate(next)));
            var reported := if Classify(previous, current).kind == GapOverSixty then 1 else 0;
            there <= reported && (there == reported <==> Faithful(rows, next))
  {
    hide Curate, LoadDay;
    var rows, next := LoadDay(before, previous).value, LoadDay(after, current).value;
    LoadedDay(before, previous);
    LoadedDay(after, current);
    if rows == [] {
      SameLength(rows);
    } else if next == [] {
      SameLength(next);
    } else {
      CuratedEnds(rows);
      CuratedEnds(next);
      assert rows[|rows| - 1] in rows && next[0] in next;
    }
  }

  lemma NeighbourGapsFrom(days: seq<seq<int>>)
    requires |days| >= 2
    ensures NeighbourGaps(None, days) == Bridge(LastOf(days[0]), days[1]) + NeighbourGaps(None, days[1..])
  {
    assert days[1..][0] == days[1];
  }

  lemma {:induction false} GapsReportedFrom(read: DailyInput -> Payload, items: seq<DailyInput>)
    requires Readable(read, items)
    ensures var there, reported := NeighbourGaps(None, DayTimes(read, items)), CountKind(Findings(items), GapOverSixty);
            there <= reported && (there == reported <==> FaithfulBoundaries(Tables(read, items)))
  {
    hide LoadDay, Faithful, Curate, Classify, Bridge;
    if |items| < 2 {
      FewDaysHaveNoGap(DayTimes(read, items));
    } else {
      var tables, days := Tables(read, items), DayTimes(read, items);
      TailTables(read, items);
      GapsReportedFrom(read, items[1..]);
      assert days[1..] == DayTimes(read, items[1..]);
      NeighbourGapsFrom(days);
      BoundaryReports(read(items[0]), items[0], read(items[1]), items[1]);
      FaithfulFrom(tables);
    }
  }

  lemma FewDaysHaveNoGap(days: seq<seq<int>>)
    requires |days| < 2
    ensures NeighbourGaps(None, days) == 0
  {
  }

  lemma FaithfulFrom(tables: seq<seq<Row>>)
    requires |tables| >= 2
    ensures FaithfulBoundaries(tables) <==> Faithful(tables[0], tables[1]) && FaithfulBoundaries(tables[1..])
  {
    hide Faithful;
    var later := tables[1..];
    if FaithfulBoundaries(tables) {
      forall i | 0 < i < |later| ensures Faithful(later[i - 1], later[i]) {
        assert Faithful(tables[i + 1 - 1], tables[i + 1]);
      }
    } else if Faithful(tables[0], tables[1]) && FaithfulBoundaries(later) {
      forall i | 0 < i < |tables| ensures Faithful(tables[i - 1], tables[i]) {
        if i > 1 {
          assert Faithful(later[i - 1 - 1], later[i - 1]);
        }
      }
    }
  }

  /**
   * Every significant gap between neighbouring days of a compacted month is reported, and nothing else is if and only if
   * every boundary is faithful.
   */
  lemma GapsAreReported(job: Job)
    requires MonthOf(job).Success?
    ensures ValidateSelection(job.selection).Success? && Readable(job.read, ValidateSelection(job.selection).value)
    ensures var ordered := ValidateSelection(job.selection).value;
            var there := NeighbourGaps(None, DayTimes(job.read, ordered));
            var reported := CountKind(MonthOf(job).value.findings, GapOverSixty);
            there <= reported && (there == reported <==> FaithfulBoundaries(Tables(job.read, ordered)))
  {
    hide MonthOf, ValidateSelection, Readable, DayTimes, FaithfulBoundaries, CuratedDays, Flatten, UniqueIndexes;
    CuratedMonth(job);
    GapsReportedFrom(job.read, ValidateSelection(job.selection).value);
  }

  /** The file's first and last rows hold its earliest and latest times. */
  predicate Spans(rows: seq<Row>) {
    forall row :: row in rows ==> rows[0].time <= row.time <= rows[|rows| - 1].time
  }

  lemma TimeOrderedTablesSpan(rows: seq<Row>)
    requires forall i, j :: 0 <= i < j < |rows| ==> rows[i].time <= rows[j].time
    ensures Spans(rows)
  {
  }

  /** When every table spans its rows, the gaps between neighbouring days are exactly the reported ones. */
  lemma ReportedGaps(job: Job)
    requires MonthOf(job).Success?
    requires ValidateSelection(job.selection).Success?
    requires var ordered := ValidateSelection(job.selection).value;
             Readable(job.read, ordered)
             && (forall i :: 0 <= i < |ordered| ==> Spans(Tables(job.read, ordered)[i]))
    ensures var ordered := ValidateSelection(job.selection).value;
            NeighbourGaps(None, DayTimes(job.read, ordered)) == CountKind(MonthOf(job).value.findings, GapOverSixty)
  {
    hide MonthOf, ValidateSelection, LoadDay, DayTimes;
    GapsAreReported(job);
  }

  /** So they are, in particular, when every table is in time order. */
  lemma ReportedGapsOfOrderedTables(job: Job)
    requires MonthOf(job).Success?
    requires ValidateSelection(job.selection).Success?
    requires var ordered := ValidateSelection(job.selection).value;
             Readable(job.read, ordered)
             && (forall i :: 0 <= i < |ordered| ==>
                   var times := Times(Tables(job.read, ordered)[i]);
                   forall j, k :: 0 <= j < k < |times| ==> times[j] <= times[k])
    ensures var ordered := ValidateSelection(job.selection).value;
            NeighbourGaps(None, DayTimes(job.read, ordered)) == CountKind(MonthOf(job).value.findings, GapOverSixty)
  {
    hide MonthOf, ValidateSelection, LoadDay, DayTimes, Spans;
    var tables := Tables(job.read, ValidateSelection(job.selection).value);
    forall i | 0 <= i < |tables| ensures Spans(tables[i]) {
      assert forall j :: 0 <= j < |tables[i]| ==> Times(tables[i])[j] == tables[i][j].time;
      TimeOrderedTablesSpan(tables[i]);
    }
    ReportedGaps(job);
  }
}
