/** What a passed scheduled audit establishes about the curated history. */
module ScheduledAuditTheorems {
  import opened Options
  import opened Calendar
  import opened Intervals
  import opened Counters
  import opened Continuity
  import opened AuditInventory
  import opened ScheduledAudit
  import Compaction
  import CompactionTheorems
  import MonthlySelection

  /** The rows found for each month. */
  function RowsFound(world: World, limits: AuditBounds, manifestVersion: string, months: seq<AuditMonth>)
    : (found: seq<seq<Compaction.Row>>)
    ensures |found| == |months|
  {
    seq(|months|, i requires 0 <= i < |months| => Inspect(world, limits, manifestVersion, months[i]).rows)
  }

  function TimesOf(found: seq<seq<Compaction.Row>>): (parts: seq<seq<int>>)
    ensures |parts| == |found|
  {
    seq(|found|, i requires 0 <= i < |found| => Compaction.Times(found[i]))
  }

  function SumOfGaps(months: seq<AuditMonth>): int {
    if months == [] then 0 else SumOfGaps(months[..|months| - 1]) + months[|months| - 1].withinGaps
  }

  function RowTotal(found: seq<seq<Compaction.Row>>): nat {
    if found == [] then 0 else RowTotal(found[..|found| - 1]) + |found[|found| - 1]|
  }

  lemma NoFailureInStep(p: Progress, month: AuditMonth, o: Outcome)
    requires 1 <= month.month <= 12 && Advance(p, month, o).fatal == []
    ensures p.fatal == [] && o.failure.None?
    ensures var next := Advance(p, month, o);
            && next.totalRows == p.totalRows + |o.rows| && next.withinGaps == p.withinGaps + month.withinGaps
            && next.endpoints == p.endpoints + [EndpointFor(month, o.rows)]
  {
    hide MonthStart, QualityOf;
  }

  /** Without failures, every month was inspected to the end and contributed its rows, its gaps and its ends. */
  lemma {:induction false} NoFailures(world: World, limits: AuditBounds, manifestVersion: string, months: seq<AuditMonth>)
    requires CalendarMonths(months) && AdvanceAll(world, limits, manifestVersion, months).fatal == []
    ensures var p, found := AdvanceAll(world, limits, manifestVersion, months), RowsFound(world, limits, manifestVersion, months);
            && (forall i :: 0 <= i < |months| ==> Inspect(world, limits, manifestVersion, months[i]).failure.None?)
            && p.totalRows == RowTotal(found) && p.withinGaps == SumOfGaps(months)
            && |p.endpoints| == |months|
            && (forall i :: 0 <= i < |months| ==> p.endpoints[i] == EndpointFor(months[i], found[i]))
    decreases |months|
  {
    hide Inspect, Advance, EndpointFor;
    if months != [] {
      var n := |months| - 1;
      NoFailureInStep(AdvanceAll(world, limits, manifestVersion, months[..n]), months[n],
                      Inspect(world, limits, manifestVersion, months[n]));
      NoFailures(world, limits, manifestVersion, months[..n]);
      assert RowsFound(world, limits, manifestVersion, months)[..n] == RowsFound(world, limits, manifestVersion, months[..n]);
    }
  }

  /** All of a month's evidence verifies, its counts agree, and the catalog shows it. */
  predicate Sound(world: World, limits: AuditBounds, manifestVersion: string, month: AuditMonth) {
    Verified(world, limits, manifestVersion, month) && CountsAgree(world, month) && Visible(world, month)
  }

  predicate AllSound(world: World, limits: AuditBounds, manifestVersion: string, months: seq<AuditMonth>) {
    forall i :: 0 <= i < |months| ==> Sound(world, limits, manifestVersion, months[i])
  }

  lemma LastIsSound(world: World, limits: AuditBounds, manifestVersion: string, months: seq<AuditMonth>)
    requires months != []
    ensures var n := |months| - 1;
            AllSound(world, limits, manifestVersion, months)
            <==> AllSound(world, limits, manifestVersion, months[..n]) && Sound(world, limits, manifestVersion, months[n])
  {
    hide Sound;
  }

  /** Nothing is noted about any month exactly when every month is sound. */
  lemma {:induction false} NothingNoted(world: World, limits: AuditBounds, manifestVersion: string, months: seq<AuditMonth>)
    requires CalendarMonths(months)
    ensures var p := AdvanceAll(world, limits, manifestVersion, months);
            (p.fatal == [] && p.reconciliation == [] && p.drift == []) <==> AllSound(world, limits, manifestVersion, months)
    decreases |months|
  {
    hide Inspect, AllSound, Verified, CountsAgree, Visible, MonthStart, QualityOf;
    if months == [] {
      NoneIsUnsound(world, limits, manifestVersion);
    } else {
      var n := |months| - 1;
      NothingNoted(world, limits, manifestVersion, months[..n]);
      InspectionVerifies(world, limits, manifestVersion, months[n]);
      LastIsSound(world, limits, manifestVersion, months);
    }
  }

  lemma NoneIsUnsound(world: World, limits: AuditBounds, manifestVersion: string)
    ensures AllSound(world, limits, manifestVersion, [])
  {
  }

  function SumOfRows(months: seq<AuditMonth>): int {
    if months == [] then 0 else SumOfRows(months[..|months| - 1]) + months[|months| - 1].curatedRows
  }

  /**
   * An audit passes exactly when its limits are kept, every required month is sound, and their rows add up to the
   * expectation.
   */
  lemma PassesExactlyWhen(r: AuditResult, v: Inventory, runPath: (Label, string) -> string, world: World, limits: AuditBounds)
    requires 1 <= v.knownStart.month <= 12 && 1 <= v.knownEnd.month <= 12 && ValidateInventory(v, runPath).Success?
    requires CalendarMonths(ValidateInventory(v, runPath).value)
    requires Concludes(r, v, ValidateInventory(v, runPath).value, world, limits)
    ensures var months := ValidateInventory(v, runPath).value;
            && Labels(months) == MonthsBetween(v.knownStart.year, v.knownStart.month, v.knownEnd.year, v.knownEnd.month)
            && (r.passed <==>
                  && |months| <= limits.maxMonths && TotalBytes(months) <= limits.maxTotalBytes
                  && v.expectedRows <= limits.maxTotalRows
                  && AllSound(world, limits, v.compactionVersion, months)
                  && SumOfRows(months) == v.expectedRows)
  {
    hide Inspect, AdvanceAll, Evaluated, BoundaryDeltas, SumOf, AllSound, TotalBytes;
    var months := ValidateInventory(v, runPath).value;
    NothingNoted(world, limits, v.compactionVersion, months);
    ValidLabels(v, runPath);
    if AdvanceAll(world, limits, v.compactionVersion, months).fatal == [] {
      NoFailures(world, limits, v.compactionVersion, months);
      RowsAreCounted(world, limits, v.compactionVersion, months);
    }
  }

  lemma {:induction false} RowsAreCounted(world: World, limits: AuditBounds, manifestVersion: string, months: seq<AuditMonth>)
    requires forall i :: 0 <= i < |months| ==> Inspect(world, limits, manifestVersion, months[i]).failure.None?
    ensures RowTotal(RowsFound(world, limits, manifestVersion, months)) == SumOfRows(months)
    decreases |months|
  {
    hide Inspect, Verified, CountsAgree, Visible;
    if months != [] {
      var n := |months| - 1;
      RowsAreCounted(world, limits, manifestVersion, months[..n]);
      assert RowsFound(world, limits, manifestVersion, months)[..n] == RowsFound(world, limits, manifestVersion, months[..n]);
      FoundAreVerified(world, limits, manifestVersion, months[n]);
    }
  }

  lemma FoundAreVerified(world: World, limits: AuditBounds, manifestVersion: string, month: AuditMonth)
    requires Inspect(world, limits, manifestVersion, month).failure.None?
    ensures Verified(world, limits, manifestVersion, month) && world.curatedOf(month.curated).Some?
    ensures var rows := Inspect(world, limits, manifestVersion, month).rows;
            rows == world.curatedOf(month.curated).value.rows && |rows| == month.curatedRows
  {
    hide Inspect, ReceiptMatches, CompletionAgrees;
    InspectionVerifies(world, limits, manifestVersion, month);
  }

  /**
   * A passed audit has inspected every required month to the end: its evidence verifies, its rows are the stored
   * ones, strictly increasing in time and unique in index, they add up to the expected total, and the catalog shows
   * the month.
   */
  lemma PassedAuditVerifies(r: AuditResult, v: Inventory, runPath: (Label, string) -> string, world: World, limits: AuditBounds)
    requires 1 <= v.knownStart.month <= 12 && 1 <= v.knownEnd.month <= 12 && ValidateInventory(v, runPath).Success?
    requires CalendarMonths(ValidateInventory(v, runPath).value)
    requires Concludes(r, v, ValidateInventory(v, runPath).value, world, limits) && r.passed
    ensures var months := ValidateInventory(v, runPath).value;
            var found := RowsFound(world, limits, v.compactionVersion, months);
            && Labels(months) == MonthsBetween(v.knownStart.year, v.knownStart.month, v.knownEnd.year, v.knownEnd.month)
            && r.totalRows == v.expectedRows == RowTotal(found)
            && AllSound(world, limits, v.compactionVersion, months)
            && forall i :: 0 <= i < |months| ==>
                 && world.curatedOf(months[i].curated).Some?
                 && found[i] == world.curatedOf(months[i].curated).value.rows
  {
    hide Inspect, AdvanceAll, Evaluated, BoundaryDeltas, SumOf, AllSound, Verified, TotalBytes, ValidateInventory, Labels,
         MonthsBetween, RowTotal, SumOfRows;
    var months := ValidateInventory(v, runPath).value;
    PassesExactlyWhen(r, v, runPath, world, limits);
    NoFailures(world, limits, v.compactionVersion, months);
    forall i | 0 <= i < |months|
      ensures world.curatedOf(months[i].curated).Some?
      ensures RowsFound(world, limits, v.compactionVersion, months)[i] == world.curatedOf(months[i].curated).value.rows
    {
      FoundAreVerified(world, limits, v.compactionVersion, months[i]);
    }
  }

  lemma SoundAreVerified(world: World, limits: AuditBounds, manifestVersion: string, months: seq<AuditMonth>)
    requires AllSound(world, limits, manifestVersion, months)
    ensures forall i :: 0 <= i < |months| ==> Verified(world, limits, manifestVersion, months[i])
  {
    hide Verified;
    assert forall i :: 0 <= i < |months| ==> Sound(world, limits, manifestVersion, months[i]);
  }

  lemma ValidLabels(v: Inventory, runPath: (Label, string) -> string)
    requires 1 <= v.knownStart.month <= 12 && 1 <= v.knownEnd.month <= 12 && ValidateInventory(v, runPath).Success?
    ensures Labels(ValidateInventory(v, runPath).value)
         == MonthsBetween(v.knownStart.year, v.knownStart.month, v.knownEnd.year, v.knownEnd.month)
  {
  }

  // ---------------------------------------------------------------- months that compaction produced

  /** The completion document and the curated rows read for this month are those of a compacted selection of it. */
  predicate CompactedBy(world: World, month: AuditMonth, rows: seq<Compaction.Row>, job: Compaction.Job) {
    && Compaction.MonthOf(job).Success?
    && (job.selection.year, job.selection.month) == (month.year, month.month)
    && rows == Compaction.MonthOf(job).value.rows
    && world.completionOf(month.completion).Some?
    && world.completionOf(month.completion).value.significantGaps == Compaction.MonthOf(job).value.significantGaps
  }

  /** The rows of a compacted month fall in that month, in strictly increasing time. */
  lemma CompactedRows(job: Compaction.Job)
    requires Compaction.MonthOf(job).Success?
    ensures 1 <= job.selection.month <= 12
    ensures var rows := Compaction.MonthOf(job).value.rows;
            && Compaction.MonthOf(job).value.significantGaps == GapCount(Compaction.Times(rows))
            && MonthlySelection.Increasing(Compaction.Times(rows))
            && forall row :: row in rows ==> InMonth(DateOf(row.time), job.selection.year, job.selection.month)
  {
    hide Compaction.MonthOf, InMonth, DateOf, MonthlySelection.ValidateSelection, GapCount, Compaction.Curate,
         CompactionTheorems.Readable, Compaction.UniqueIndexes, Compaction.Findings, CompactionTheorems.CuratedDays;
    CompactionTheorems.CuratedMonth(job);
    var s := job.selection;
    CompactionTheorems.AcceptedMonth(s);
    MonthlySelection.AcceptedSelection(s);
    var ordered := MonthlySelection.ValidateSelection(s).value;
    var rows := Compaction.MonthOf(job).value.rows;
    forall row | row in rows ensures InMonth(DateOf(row.time), s.year, s.month) {
      assert row in multiset(rows);
      RowsFallInMonth(job.read, ordered, s.year, s.month, row);
    }
  }

  lemma {:induction false} RowsFallInMonth(read: MonthlySelection.DailyInput -> Compaction.Payload,
                                           items: seq<MonthlySelection.DailyInput>, year: int, month: int, row: Compaction.Row)
    requires 1 <= month <= 12 && CompactionTheorems.Readable(read, items)
    requires forall i :: 0 <= i < |items| ==> MonthlySelection.ValidateInput(items[i], year, month).None?
    requires row in Flatten(CompactionTheorems.Tables(read, items))
    ensures InMonth(DateOf(row.time), year, month)
  {
    hide InMonth, DateOf, Compaction.LoadDay, MonthlySelection.HexDigest;
    CompactionTheorems.LoadedDay(read(items[0]), items[0]);
    CompactionTheorems.TailTables(read, items);
    var first := Compaction.LoadDay(read(items[0]), items[0]).value;
    if row in first {
      assert MonthlySelection.ValidateInput(items[0], year, month).None?;
    } else {
      RowsFallInMonth(read, items[1..], year, month, row);
    }
  }

  predicate AllCompacted(world: World, months: seq<AuditMonth>, found: seq<seq<Compaction.Row>>, jobs: seq<Compaction.Job>) {
    && |months| == |found| == |jobs|
    && forall i :: 0 <= i < |months| ==> CompactedBy(world, months[i], found[i], jobs[i])
  }

  /** The inventory's gap counts are the compactions' own, because the audit has compared them. */
  lemma {:induction false} GapsOfCompacted(world: World, limits: AuditBounds, manifestVersion: string, months: seq<AuditMonth>,
                                           found: seq<seq<Compaction.Row>>, jobs: seq<Compaction.Job>)
    requires AllCompacted(world, months, found, jobs)
    requires forall i :: 0 <= i < |months| ==> Verified(world, limits, manifestVersion, months[i])
    ensures SumOfGaps(months) == WithinGaps(TimesOf(found))
    decreases |months|
  {
    hide Verified, Compaction.MonthOf, GapCount, InMonth, DateOf, MonthlySelection.Increasing;
    if months != [] {
      var n := |months| - 1;
      GapsOfCompacted(world, limits, manifestVersion, months[..n], found[..n], jobs[..n]);
      VerifiedGaps(world, limits, manifestVersion, months[n]);
      CompactedRows(jobs[n]);
      assert TimesOf(found) == TimesOf(found[..n]) + [Compaction.Times(found[n])];
      WithinGapsAppend(TimesOf(found[..n]), Compaction.Times(found[n]));
    }
  }

  lemma VerifiedGaps(world: World, limits: AuditBounds, manifestVersion: string, month: AuditMonth)
    requires Verified(world, limits, manifestVersion, month)
    ensures world.completionOf(month.completion).value.significantGaps == month.withinGaps
  {
    hide ReceiptMatches, CompactionTheorems.SoundTable;
  }

  lemma {:induction false} WithinGapsAppend(parts: seq<seq<int>>, part: seq<int>)
    ensures WithinGaps(parts + [part]) == WithinGaps(parts) + GapCount(part)
  {
    if parts != [] {
      assert (parts + [part])[1..] == parts[1..] + [part];
      WithinGapsAppend(parts[1..], part);
    }
  }

  /** Every time of an earlier part is before every time of a later one. */
  predicate InOrder(parts: seq<seq<int>>) {
    && (forall i :: 0 <= i < |parts| ==> MonthlySelection.Increasing(parts[i]))
    && (forall i, j, t, u :: 0 <= i < j < |parts| && t in parts[i] && u in parts[j] ==> t < u)
  }

  lemma {:induction false} OrderedPartsIncrease(parts: seq<seq<int>>)
    requires InOrder(parts)
    ensures MonthlySelection.Increasing(Flatten(parts))
    ensures forall t :: t in Flatten(parts) ==> exists i :: 0 <= i < |parts| && t in parts[i]
  {
    if parts != [] {
      var rest := Flatten(parts[1..]);
      OrderedPartsIncrease(parts[1..]);
      forall t | t in rest ensures exists i :: 1 <= i < |parts| && t in parts[i] {
        var i :| 0 <= i < |parts[1..]| && t in parts[1..][i];
        assert t in parts[i + 1];
      }
      forall a, b | 0 <= a < |parts[0]| && 0 <= b < |rest| ensures parts[0][a] < rest[b] {
        assert rest[b] in rest && parts[0][a] in parts[0];
        var i :| 1 <= i < |parts| && rest[b] in parts[i];
      }
    }
  }

  lemma CompactedMonthsAreInOrder(world: World, months: seq<AuditMonth>, found: seq<seq<Compaction.Row>>, jobs: seq<Compaction.Job>)
    requires AllCompacted(world, months, found, jobs)
    requires forall i, j :: 0 <= i < j < |months| ==> Before(months[i].year, months[i].month, months[j].year, months[j].month)
    ensures InOrder(TimesOf(found))
  {
    hide Compaction.MonthOf, GapCount, InMonth, DateOf, MonthlySelection.Increasing;
    var parts := TimesOf(found);
    forall i | 0 <= i < |parts| ensures MonthlySelection.Increasing(parts[i]) {
      CompactedRows(jobs[i]);
    }
    forall i, j, t, u | 0 <= i < j < |parts| && t in parts[i] && u in parts[j] ensures t < u {
      var a :| 0 <= a < |found[i]| && found[i][a].time == t;
      var b :| 0 <= b < |found[j]| && found[j][b].time == u;
      CompactedRows(jobs[i]);
      CompactedRows(jobs[j]);
      EarlierMonthEarlierTime(t, months[i].year, months[i].month, u, months[j].year, months[j].month);
    }
  }

  lemma EarlierMonthEarlierTime(t: int, year: int, month: int, u: int, year': int, month': int)
    requires 1 <= month <= 12 && 1 <= month' <= 12 && Before(year, month, year', month')
    requires InMonth(DateOf(t), year, month) && InMonth(DateOf(u), year', month')
    ensures t < u
  {
    MonthsDoNotOverlap(year, month, year', month');
  }

  lemma {:induction false} NoOverlaps(endpoints: seq<Endpoint>, parts: seq<seq<int>>)
    requires Describe(endpoints, parts) && InOrder(parts)
    ensures CountStatus(Evaluated(endpoints), Overlap) == CountStatus(Evaluated(endpoints), ReversedOverlap) == 0
    decreases |parts|
  {
    if |parts| >= 2 {
      assert forall i :: 1 <= i < |parts| ==> parts[1..][i - 1] == parts[i];
      NoOverlaps(endpoints[1..], parts[1..]);
      if Assessable(endpoints[0], endpoints[1]) {
        assert Last(parts[0]) in parts[0] && parts[1][0] in parts[1];
      }
      assert Evaluated(endpoints)[1..] == Evaluated(endpoints[1..]);
    }
  }

  /** The audited months are in calendar order. */
  lemma MonthsInOrder(v: Inventory, runPath: (Label, string) -> string)
    requires 1 <= v.knownStart.month <= 12 && 1 <= v.knownEnd.month <= 12 && ValidateInventory(v, runPath).Success?
    ensures var months := ValidateInventory(v, runPath).value;
            forall i, j :: 0 <= i < j < |months| ==> Before(months[i].year, months[i].month, months[j].year, months[j].month)
  {
    hide ValidateInventory, Before;
    var months := ValidateInventory(v, runPath).value;
    ValidLabels(v, runPath);
    forall i, j | 0 <= i < j < |months| ensures Before(months[i].year, months[i].month, months[j].year, months[j].month) {
      assert Labels(months)[i] == (months[i].year, months[i].month) && Labels(months)[j] == (months[j].year, months[j].month);
      MonthsAreOrdered(v.knownStart.year, v.knownStart.month, v.knownEnd.year, v.knownEnd.month, i, j);
    }
  }

  lemma DescribedByRows(world: World, limits: AuditBounds, manifestVersion: string, months: seq<AuditMonth>)
    requires CalendarMonths(months) && AdvanceAll(world, limits, manifestVersion, months).fatal == []
    ensures Describe(AdvanceAll(world, limits, manifestVersion, months).endpoints,
                     TimesOf(RowsFound(world, limits, manifestVersion, months)))
  {
    hide Inspect, AdvanceAll, MonthStart;
    NoFailures(world, limits, manifestVersion, months);
  }

  /**
   * When every audited month came from compaction, the curated rows of all months, in order, form one strictly
   * increasing history without overlaps, and the reported gap count is that of the whole history less the gaps that
   * bridge empty months; so with no empty month the two agree.
   */
  lemma GlobalGapCount(r: AuditResult, v: Inventory, runPath: (Label, string) -> string, world: World, limits: AuditBounds,
                       jobs: seq<Compaction.Job>)
    requires 1 <= v.knownStart.month <= 12 && 1 <= v.knownEnd.month <= 12 && ValidateInventory(v, runPath).Success?
    requires CalendarMonths(ValidateInventory(v, runPath).value)
    requires Concludes(r, v, ValidateInventory(v, runPath).value, world, limits) && r.passed
    requires var months := ValidateInventory(v, runPath).value;
             AllCompacted(world, months, RowsFound(world, limits, v.compactionVersion, months), jobs)
    ensures var months := ValidateInventory(v, runPath).value;
            var parts := TimesOf(RowsFound(world, limits, v.compactionVersion, months));
            && MonthlySelection.Increasing(Flatten(parts))
            && r.overlaps == 0 && r.reversed == 0
            && r.globalGaps + BridgingGaps(None, false, parts) == GapCount(Flatten(parts))
            && ((forall i :: 0 <= i < |parts| ==> parts[i] != []) ==> r.globalGaps == GapCount(Flatten(parts)))
  {
    hide Inspect, AdvanceAll, ValidateInventory, Evaluated, BoundaryDeltas, SumOf, AllCompacted, InOrder, Before, Describe,
         MonthlySelection.Increasing, GapCount, BridgingGaps, NeighbourGaps, WithinGaps, Flatten, CountStatus, MonthStart,
         Labels, MonthsBetween, RowsFound, TimesOf, SumOfGaps, Verified, AllSound, TotalBytes, SumOfRows;
    var months := ValidateInventory(v, runPath).value;
    var found := RowsFound(world, limits, v.compactionVersion, months);
    var parts, endpoints := TimesOf(found), AdvanceAll(world, limits, v.compactionVersion, months).endpoints;
    NoFailures(world, limits, v.compactionVersion, months);
    MonthsInOrder(v, runPath);
    CompactedMonthsAreInOrder(world, months, found, jobs);
    OrderedPartsIncrease(parts);
    DescribedByRows(world, limits, v.compactionVersion, months);
    NoOverlaps(endpoints, parts);
    PassesExactlyWhen(r, v, runPath, world, limits);
    SoundAreVerified(world, limits, v.compactionVersion, months);
    GapsOfCompacted(world, limits, v.compactionVersion, months, found, jobs);
    BoundaryGapsAreNeighbourGaps(endpoints, parts);
    GapsDecompose(parts);
    if forall i :: 0 <= i < |parts| ==> parts[i] != [] {
      NothingToBridge(None, parts);
    }
  }
}
