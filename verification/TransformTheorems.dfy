/** Where every row of a daily object goes, and what the valid ones satisfy together. */
module TransformTheorems {
  import opened Options
  import opened Calendar
  import opened RowValidation
  import opened DailyTransform
  import Compaction
  import CompactionTheorems
  import MonthlySelection

  function ParsedIndex(p: Parsers, record: SourceRecord): Option<int> {
    if |record.fields| == COLUMNS then IndexOf(p, record.fields) else None
  }

  function ParsedTime(p: Parsers, record: SourceRecord): Option<int> {
    if |record.fields| == COLUMNS then TimeOf(p, record.fields) else None
  }

  /** The row passes the local rules, and no other row, valid or not, parsed the same index or the same time. */
  predicate ValidAt(p: Parsers, records: seq<SourceRecord>, date: int, i: nat)
    requires i < |records|
  {
    && PassesLocally(p, records[i].fields, date)
    && forall j :: 0 <= j < |records| && j != i ==>
         && ParsedIndex(p, records[j]) != ParsedIndex(p, records[i])
         && ParsedTime(p, records[j]) != ParsedTime(p, records[i])
  }

  /** The rows after both passes. */
  function Judged(p: Parsers, records: seq<SourceRecord>, date: int): (rows: seq<Row>)
    ensures |rows| == |records|
  {
    Deduplicated(Evaluated(p, records, date))
  }

  /** A row has no issue exactly when it is valid, and it then carries its normalized record. */
  lemma IssueFreeExactlyWhen(p: Parsers, records: seq<SourceRecord>, date: int, i: nat)
    requires i < |records|
    ensures Judged(p, records, date)[i].issues == [] <==> ValidAt(p, records, date, i)
    ensures ValidAt(p, records, date, i) ==>
              Judged(p, records, date)[i].normalized == Some(Normalize(p, records[i].fields, date))
    ensures Judged(p, records, date)[i].number == i + 1 && Judged(p, records, date)[i].source == records[i]
  {
    hide BrokenRules, Normalize, IndexOf, TimeOf, PassesLocally, Mark, Deduplicated;
    var rows := Evaluated(p, records, date);
    SurvivesExactlyWhen(rows, i);
    Unmarked(rows, i);
    IssuesHold(BrokenRules(p, records[i].fields, date));
    IssueFreeWhen(p, records[i].fields, date);
    if PassesLocally(p, records[i].fields, date) {
      LocalRowsParse(p, records[i].fields, date);
    }
    forall j | 0 <= j < |records|
      ensures Indexes(rows)[j] == ParsedIndex(p, records[j]) && Times(rows)[j] == ParsedTime(p, records[j])
    {
    }
  }

  lemma Unmarked(rows: seq<Row>, i: nat)
    requires i < |rows|
    ensures Deduplicated(rows)[i].number == rows[i].number && Deduplicated(rows)[i].source == rows[i].source
    ensures Deduplicated(rows)[i].index == rows[i].index && Deduplicated(rows)[i].time == rows[i].time
    ensures Deduplicated(rows)[i].issues != [] ==> Deduplicated(rows)[i].normalized == None
  {
  }

  lemma LocalRowsParse(p: Parsers, fields: seq<string>, date: int)
    requires PassesLocally(p, fields, date)
    ensures |fields| == COLUMNS && IndexOf(p, fields).Some? && TimeOf(p, fields).Some?
  {
  }

  // ---------------------------------------------------------------- the split

  predicate Numbered(rows: seq<Row>) {
    forall i, j :: 0 <= i < j < |rows| ==> rows[i].number < rows[j].number
  }

  predicate Settled(rows: seq<Row>) {
    forall row :: row in rows ==> (row.issues == [] <==> row.normalized.Some?)
  }

  lemma {:induction false} KeptRecords(rows: seq<Row>)
    ensures |Records(rows)| == |Kept(rows)|
    ensures forall k :: 0 <= k < |Kept(rows)| ==> Some(Records(rows)[k]) == Kept(rows)[k].normalized
  {
    if rows != [] {
      KeptRecords(rows[1..]);
    }
  }

  lemma {:induction false} SplitMembers(rows: seq<Row>)
    ensures forall row :: row in Kept(rows) ==> row in rows && row.issues == []
    ensures forall row :: row in Rejected(rows) ==> row in rows && row.issues != []
  {
    if rows != [] {
      SplitMembers(rows[1..]);
      assert rows == [rows[0]] + rows[1..];
    }
  }

  /** The split keeps every row once. */
  lemma {:induction false} SplitKeepsRows(rows: seq<Row>)
    requires Settled(rows)
    ensures multiset(Kept(rows)) + multiset(Rejected(rows)) == multiset(rows)
  {
    if rows != [] {
      var head, tail := rows[0], rows[1..];
      assert rows == [head] + tail && head in rows;
      SplitKeepsRows(tail);
      Unfold(rows);
    }
  }

  lemma Unfold(rows: seq<Row>)
    requires rows != [] && (rows[0].issues == [] <==> rows[0].normalized.Some?)
    ensures Kept(rows) == if rows[0].issues == [] then [rows[0]] + Kept(rows[1..]) else Kept(rows[1..])
    ensures Rejected(rows) == if rows[0].issues == [] then Rejected(rows[1..]) else [rows[0]] + Rejected(rows[1..])
  {
    assert [] + Kept(rows[1..]) == Kept(rows[1..]);
    assert [] + Rejected(rows[1..]) == Rejected(rows[1..]);
  }

  lemma NothingToSplit()
    ensures Kept([]) == [] && Rejected([]) == []
  {
  }

  /** The split keeps both sides in source order. */
  lemma {:induction false} SplitKeepsOrder(rows: seq<Row>)
    requires Numbered(rows) && Settled(rows)
    ensures Numbered(Kept(rows)) && Numbered(Rejected(rows))
  {
    hide Kept, Rejected;
    if rows == [] {
      NothingToSplit();
    } else {
      var head, tail := rows[0], rows[1..];
      assert head in rows;
      SplitKeepsOrder(tail);
      Unfold(rows);
      SplitMembers(tail);
      forall row | row in tail ensures head.number < row.number {
        var i :| 0 <= i < |tail| && tail[i] == row;
        assert rows[i + 1] == row;
      }
    }
  }

  lemma JudgedRows(p: Parsers, records: seq<SourceRecord>, date: int)
    ensures Numbered(Judged(p, records, date)) && Settled(Judged(p, records, date))
  {
    hide Judged, ValidAt, Normalize, PassesLocally;
    var rows := Judged(p, records, date);
    forall i | 0 <= i < |rows| ensures rows[i].number == i + 1 && (rows[i].issues == [] <==> rows[i].normalized.Some?) {
      IssueFreeExactlyWhen(p, records, date, i);
      RejectedHaveNoRecord(p, records, date, i);
    }
  }

  lemma RejectedHaveNoRecord(p: Parsers, records: seq<SourceRecord>, date: int, i: nat)
    requires i < |records|
    ensures Judged(p, records, date)[i].issues != [] ==> Judged(p, records, date)[i].normalized == None
  {
    Unmarked(Evaluated(p, records, date), i);
  }

  lemma KeptRowIsValid(p: Parsers, records: seq<SourceRecord>, date: int, k: nat)
    requires k < |Kept(Judged(p, records, date))|
    ensures var rows := Judged(p, records, date);
            var row := Kept(rows)[k];
            && 1 <= row.number <= |records| && ValidAt(p, records, date, row.number - 1)
            && k < |Records(rows)| && Records(rows)[k] == Normalize(p, records[row.number - 1].fields, date)
  {
    hide Judged, ValidAt, Normalize, PassesLocally, Kept, Rejected, Records;
    var rows := Judged(p, records, date);
    SplitMembers(rows);
    KeptRecords(rows);
    var row := Kept(rows)[k];
    assert row in Kept(rows);
    var i :| 0 <= i < |rows| && rows[i] == row;
    IssueFreeExactlyWhen(p, records, date, i);
  }

  lemma RejectedRowIsInvalid(p: Parsers, records: seq<SourceRecord>, date: int, k: nat)
    requires k < |Rejected(Judged(p, records, date))|
    ensures var row := Rejected(Judged(p, records, date))[k];
            && 1 <= row.number <= |records| && !ValidAt(p, records, date, row.number - 1)
            && row.source == records[row.number - 1]
  {
    hide Judged, ValidAt, Normalize, PassesLocally, Kept, Rejected, Records;
    var rows := Judged(p, records, date);
    SplitMembers(rows);
    var row := Rejected(rows)[k];
    assert row in Rejected(rows);
    var i :| 0 <= i < |rows| && rows[i] == row;
    IssueFreeExactlyWhen(p, records, date, i);
  }

  /**
   * In a batch with the right header and some rows, every row is either valid or quarantined, never both: the
   * quarantine holds exactly the invalid rows and the valid records are the others, both in source order.
   */
  lemma EveryRowIsPlaced(p: Parsers, records: seq<SourceRecord>, date: int)
    requires records != []
    ensures var batch := Transform(p, Some(SOURCE_FIELDS), records, date);
            var kept := Kept(Judged(p, records, date));
            && |batch.valid| + |batch.quarantine| == |records|
            && Numbered(batch.quarantine) && Numbered(kept) && |kept| == |batch.valid|
            && (forall k :: 0 <= k < |kept| ==>
                  && 1 <= kept[k].number <= |records| && ValidAt(p, records, date, kept[k].number - 1)
                  && batch.valid[k] == Normalize(p, records[kept[k].number - 1].fields, date))
            && (forall k :: 0 <= k < |batch.quarantine| ==>
                  && 1 <= batch.quarantine[k].number <= |records|
                  && !ValidAt(p, records, date, batch.quarantine[k].number - 1)
                  && batch.quarantine[k].source == records[batch.quarantine[k].number - 1])
  {
    hide Transform, Judged, Normalize, PassesLocally, ParsedIndex, ParsedTime, Kept, Rejected, Records, Numbered, Settled;
    var rows := Judged(p, records, date);
    JudgedRows(p, records, date);
    SplitKeepsRows(rows);
    SplitKeepsOrder(rows);
    SplitCounts(rows);
    KeptRecords(rows);
    Splits(p, records, date);
    forall k | 0 <= k < |Kept(rows)|
      ensures var row := Kept(rows)[k];
              && 1 <= row.number <= |records| && ValidAt(p, records, date, row.number - 1)
              && Records(rows)[k] == Normalize(p, records[row.number - 1].fields, date)
    {
      KeptRowIsValid(p, records, date, k);
    }
    forall k | 0 <= k < |Rejected(rows)|
      ensures var row := Rejected(rows)[k];
              && 1 <= row.number <= |records| && !ValidAt(p, records, date, row.number - 1)
              && row.source == records[row.number - 1]
    {
      RejectedRowIsInvalid(p, records, date, k);
    }
  }

  lemma SplitCounts(rows: seq<Row>)
    requires multiset(Kept(rows)) + multiset(Rejected(rows)) == multiset(rows)
    ensures |Kept(rows)| + |Rejected(rows)| == |rows|
  {
    assert |multiset(Kept(rows)) + multiset(Rejected(rows))| == |Kept(rows)| + |Rejected(rows)|;
    assert |multiset(rows)| == |rows|;
  }

  lemma Splits(p: Parsers, records: seq<SourceRecord>, date: int)
    requires records != []
    ensures var batch := Transform(p, Some(SOURCE_FIELDS), records, date);
            batch.valid == Records(Judged(p, records, date)) && batch.quarantine == Rejected(Judged(p, records, date))
  {
  }

  /**
   * Reconciliation never fails, and a batch is free of errors exactly when it has the right header and some rows. An
   * object without a header line has no rows.
   */
  lemma ReconciliationAlwaysHolds(p: Parsers, header: Option<seq<string>>, records: seq<SourceRecord>, date: int)
    requires header.None? ==> records == []
    ensures var batch := Transform(p, header, records, date);
            && (batch.reconciliation.applicable ==> batch.reconciliation.Matches())
            && ReconciliationMismatch !in batch.errors
            && (batch.errors == [] <==> header == Some(SOURCE_FIELDS) && records != [])
  {
    hide Kept, Rejected, Records, Judged, Deduplicated, Evaluated, ParsedTimes, RuleCounts;
    if header == Some(SOURCE_FIELDS) && records != [] {
      EveryRowIsPlaced(p, records, date);
    }
  }

  // ---------------------------------------------------------------- valid rows together

  predicate Apart(valid: seq<NormalizedRecord>) {
    forall k, l :: 0 <= k < l < |valid| ==> valid[k].index != valid[l].index && valid[k].time != valid[l].time
  }

  lemma NormalizedParts(p: Parsers, records: seq<SourceRecord>, date: int, i: nat)
    requires i < |records| && ValidAt(p, records, date, i)
    ensures var record := Normalize(p, records[i].fields, date);
            && ParsedIndex(p, records[i]) == Some(record.index) && ParsedTime(p, records[i]) == Some(record.time)
            && record.sourceDate == DateOf(record.time) == date
  {
  }

  lemma RivalsDiffer(p: Parsers, records: seq<SourceRecord>, date: int, i: nat, j: nat)
    requires i < |records| && j < |records| && i != j && ValidAt(p, records, date, i)
    ensures ParsedIndex(p, records[j]) != ParsedIndex(p, records[i]) && ParsedTime(p, records[j]) != ParsedTime(p, records[i])
  {
  }

  /** Valid records have distinct indexes and distinct times, all on the expected date. */
  lemma ValidRecordsAreApart(p: Parsers, records: seq<SourceRecord>, date: int)
    requires records != []
    ensures var valid := Transform(p, Some(SOURCE_FIELDS), records, date).valid;
            Apart(valid) && forall k :: 0 <= k < |valid| ==> valid[k].sourceDate == DateOf(valid[k].time) == date
  {
    hide Transform, Judged, ValidAt, Normalize, PassesLocally, Kept, DateOf;
    var valid, kept := Transform(p, Some(SOURCE_FIELDS), records, date).valid, Kept(Judged(p, records, date));
    EveryRowIsPlaced(p, records, date);
    forall k | 0 <= k < |valid| ensures valid[k].sourceDate == DateOf(valid[k].time) == date {
      NormalizedParts(p, records, date, kept[k].number - 1);
    }
    forall k, l | 0 <= k < l < |valid| ensures valid[k].index != valid[l].index && valid[k].time != valid[l].time {
      var i, j := kept[k].number - 1, kept[l].number - 1;
      NormalizedParts(p, records, date, i);
      NormalizedParts(p, records, date, j);
      RivalsDiffer(p, records, date, i, j);
    }
  }

  /** The staging rows of a transformed day. */
  function Staged(valid: seq<NormalizedRecord>, readings: NormalizedRecord -> int): (rows: seq<Compaction.Row>)
    ensures |rows| == |valid|
    ensures forall k :: 0 <= k < |valid| ==>
              rows[k] == Compaction.Row(valid[k].sourceDate, valid[k].time, valid[k].index, readings(valid[k]))
  {
    seq(|valid|, k requires 0 <= k < |valid| =>
      Compaction.Row(valid[k].sourceDate, valid[k].time, valid[k].index, readings(valid[k])))
  }

  /** Compaction of days that the transformation staged never meets a repeated time. */
  lemma StagedDaysNeverRepeatTimes(job: Compaction.Job, p: Parsers, readings: NormalizedRecord -> int,
                                   days: seq<seq<SourceRecord>>)
    requires MonthlySelection.ValidateSelection(job.selection).Success?
    requires var ordered := MonthlySelection.ValidateSelection(job.selection).value;
             |days| == |ordered| && CompactionTheorems.Readable(job.read, ordered) && forall i :: 0 <= i < |ordered| ==>
               days[i] != [] && CompactionTheorems.Tables(job.read, ordered)[i] ==
                 Staged(Transform(p, Some(SOURCE_FIELDS), days[i], ordered[i].sourceDate).valid, readings)
    ensures Compaction.MonthOf(job) != Failure(Compaction.DuplicateTimestamps)
  {
    hide Transform, Compaction.MonthOf, MonthlySelection.ValidateSelection, DateOf, CompactionTheorems.Readable;
    var ordered := MonthlySelection.ValidateSelection(job.selection).value;
    forall i | 0 <= i < |ordered| ensures Compaction.UniqueTimes(CompactionTheorems.Tables(job.read, ordered)[i]) {
      ValidRecordsAreApart(p, days[i], ordered[i].sourceDate);
    }
    CompactionTheorems.CleanDaysShareNoTime(job);
  }
}
