/** One daily object: duplicate rules over the whole object, and the split into valid and quarantined rows. */
module DailyTransform {
  import opened Options
  import opened Ordering
  import opened BatchMetrics
  import opened RowValidation

  const SOURCE_FIELDS := ["", "timestamp", "TP2", "TP3", "H1", "DV_pressure", "Reservoirs", "Oil_temperature",
                          "Motor_current", "COMP", "DV_eletric", "Towers", "MPG", "LPS", "Pressure_switch",
                          "Oil_level", "Caudal_impulses"]

  datatype BatchError = SchemaDrift | EmptyInput | ReconciliationMismatch

  datatype Reconciliation = Reconciliation(inputRows: nat, validRows: nat, quarantineRows: nat, applicable: bool) {
    predicate Matches() {
      inputRows == validRows + quarantineRows
    }
  }

  datatype Batch = Batch(
    valid: seq<NormalizedRecord>,
    quarantine: seq<Row>,
    ruleCounts: multiset<RowRule>,
    metrics: Metrics,
    reconciliation: Reconciliation,
    errors: seq<BatchError>
  )

  datatype ContextError = TimeNotUtc | EmptyPipelineVersion

  // ---------------------------------------------------------------- duplicates

  function Indexes(rows: seq<Row>): (indexes: seq<Option<int>>)
    ensures |indexes| == |rows| && forall i :: 0 <= i < |rows| ==> indexes[i] == rows[i].index
  {
    Map((row: Row) => row.index, rows)
  }

  function Times(rows: seq<Row>): (times: seq<Option<int>>)
    ensures |times| == |rows| && forall i :: 0 <= i < |rows| ==> times[i] == rows[i].time
  {
    Map((row: Row) => row.time, rows)
  }

  function RuleSet(issues: seq<RowRule>): set<RowRule> {
    set rule | rule in issues
  }

  function Reasons(issues: set<RowRule>, indexRepeats: bool, timeRepeats: bool): set<RowRule> {
    issues + When(indexRepeats, DuplicateRecordIndex) + When(timeRepeats, DuplicateTimestamp)
  }

  predicate Repeats(value: Option<int>, values: multiset<Option<int>>) {
    value.Some? && values[value] > 1
  }

  /** The row with the duplicate rules added, given how often each index and time was parsed. */
  function Mark(row: Row, indexes: multiset<Option<int>>, times: multiset<Option<int>>): Row {
    var issues := OrderedIssues(Reasons(RuleSet(row.issues), Repeats(row.index, indexes), Repeats(row.time, times)));
    row.(issues := issues, normalized := if issues != [] then None else row.normalized)
  }

  function Deduplicated(rows: seq<Row>): (marked: seq<Row>)
    ensures |marked| == |rows|
    ensures forall i :: 0 <= i < |rows| ==>
              marked[i] == Mark(rows[i], multiset(Indexes(rows)), multiset(Times(rows)))
  {
    seq(|rows|, i requires 0 <= i < |rows| => Mark(rows[i], multiset(Indexes(rows)), multiset(Times(rows))))
  }

  /** The counts are those of the parsed values. */
  ghost predicate Tallies(counts: multiset<int>, values: multiset<Option<int>>) {
    forall x :: counts[x] == values[Some(x)]
  }

  lemma TalliedRepeats(value: Option<int>, counts: multiset<int>, values: multiset<Option<int>>)
    requires Tallies(counts, values)
    ensures Repeats(value, values) <==> value.Some? && counts[value.value] > 1
  {
    if value.Some? {
      var v: int := value.value;
      assert value == Some(v) && counts[v] == values[Some(v)];
    }
  }

  method ApplyDuplicateRules(rows: seq<Row>) returns (results: seq<Row>)
    ensures results == Deduplicated(rows)
  {
    hide Indexes, Times, Mark, Deduplicated, Tallies;
    ghost var indexes, times := multiset(Indexes(rows)), multiset(Times(rows));
    var indexCounts := CountParsed(Indexes(rows));
    var timeCounts := CountParsed(Times(rows));
    results := [];
    for k := 0 to |rows|
      invariant |results| == k && forall i :: 0 <= i < k ==> results[i] == Mark(rows[i], indexes, times)
    {
      var marked := AddDuplicateReasons(rows[k], indexCounts, timeCounts, indexes, times);
      results := results + [marked];
    }
  }

  method AddDuplicateReasons(row: Row, indexCounts: multiset<int>, timeCounts: multiset<int>,
                             ghost indexes: multiset<Option<int>>, ghost times: multiset<Option<int>>)
    returns (marked: Row)
    requires Tallies(indexCounts, indexes) && Tallies(timeCounts, times)
    ensures marked == Mark(row, indexes, times)
  {
    hide OrderedIssues, Repeats, Tallies, RuleSet;
    TalliedRepeats(row.index, indexCounts, indexes);
    TalliedRepeats(row.time, timeCounts, times);
    var reasons := RuleSet(row.issues);
    if row.index.Some? && indexCounts[row.index.value] > 1 {
      reasons := reasons + {DuplicateRecordIndex};
    }
    if row.time.Some? && timeCounts[row.time.value] > 1 {
      reasons := reasons + {DuplicateTimestamp};
    }
    assert reasons == Reasons(RuleSet(row.issues), Repeats(row.index, indexes), Repeats(row.time, times));
    var issues := OrderedIssues(reasons);
    marked := row.(issues := issues, normalized := if issues != [] then None else row.normalized);
  }

  /** How often each parsed value occurs; rows without one are not counted. */
  method CountParsed(values: seq<Option<int>>) returns (counts: multiset<int>)
    ensures Tallies(counts, multiset(values))
  {
    counts := multiset{};
    for k := 0 to |values|
      invariant Tallies(counts, multiset(values[..k]))
    {
      assert values[..k + 1] == values[..k] + [values[k]];
      if values[k].Some? {
        counts := counts + multiset{values[k].value};
      }
    }
    assert values[..|values|] == values;
  }

  /** No other row has the same parsed value. */
  predicate Alone(values: seq<Option<int>>, i: nat)
    requires i < |values|
  {
    values[i].Some? ==> forall j :: 0 <= j < |values| && j != i ==> values[j] != values[i]
  }

  lemma CountedTwice(values: seq<Option<int>>, i: nat)
    requires i < |values|
    ensures values[i].Some? && multiset(values)[values[i]] > 1 <==> !Alone(values, i)
  {
    if values[i].Some? && multiset(values)[values[i]] > 1 {
      var at := FindTwice(values, values[i]);
      var other := if at.0 == i then at.1 else at.0;
      assert other != i && values[other] == values[i];
    }
    if !Alone(values, i) {
      var j :| 0 <= j < |values| && j != i && values[j] == values[i];
      if i < j {
        TwiceInMultiset(values, i, j);
      } else {
        TwiceInMultiset(values, j, i);
      }
    }
  }

  /** A row survives exactly when it had no issue and no other row, valid or not, parsed its index or its time. */
  lemma SurvivesExactlyWhen(rows: seq<Row>, i: nat)
    requires i < |rows|
    ensures Deduplicated(rows)[i].issues == [] <==>
            rows[i].issues == [] && Alone(Indexes(rows), i) && Alone(Times(rows), i)
    ensures Deduplicated(rows)[i].issues == [] ==> Deduplicated(rows)[i].normalized == rows[i].normalized
  {
    hide OrderedIssues, Alone;
    var row := rows[i];
    CountedTwice(Indexes(rows), i);
    CountedTwice(Times(rows), i);
    IssuesHold(Reasons(RuleSet(row.issues), Repeats(row.index, multiset(Indexes(rows))), Repeats(row.time, multiset(Times(rows)))));
    RuleSetIsEmpty(row.issues);
    ReasonsAreEmpty(RuleSet(row.issues), Repeats(row.index, multiset(Indexes(rows))), Repeats(row.time, multiset(Times(rows))));
  }

  lemma ReasonsAreEmpty(issues: set<RowRule>, indexRepeats: bool, timeRepeats: bool)
    ensures Reasons(issues, indexRepeats, timeRepeats) == {} <==> issues == {} && !indexRepeats && !timeRepeats
  {
    var reasons := Reasons(issues, indexRepeats, timeRepeats);
    if reasons == {} {
      assert issues <= reasons && DuplicateRecordIndex !in reasons && DuplicateTimestamp !in reasons;
    }
  }

  lemma RuleSetIsEmpty(issues: seq<RowRule>)
    ensures RuleSet(issues) == {} <==> issues == []
  {
    if issues != [] {
      assert issues[0] in RuleSet(issues);
    }
  }

  /** The duplicate rules see each row's own parts and the collection of rows, never their order. */
  lemma OrderIsInvisible(rows: seq<Row>, order: seq<nat>)
    requires |order| == |rows| && (forall i :: 0 <= i < |order| ==> order[i] < |rows|)
    requires multiset(Rearranged(rows, order)) == multiset(rows)
    ensures Deduplicated(Rearranged(rows, order)) == Rearranged(Deduplicated(rows), order)
  {
    var moved := Rearranged(rows, order);
    MapPermutes((row: Row) => row.index, moved, rows);
    MapPermutes((row: Row) => row.time, moved, rows);
  }

  function Rearranged<T>(items: seq<T>, order: seq<nat>): (moved: seq<T>)
    requires forall i :: 0 <= i < |order| ==> order[i] < |items|
    ensures |moved| == |order| && forall i :: 0 <= i < |order| ==> moved[i] == items[order[i]]
  {
    seq(|order|, i requires 0 <= i < |order| => items[order[i]])
  }

  /** Applying the duplicate rules again changes nothing. */
  lemma DeduplicationIsIdempotent(rows: seq<Row>)
    ensures Deduplicated(Deduplicated(rows)) == Deduplicated(rows)
  {
    var once := Deduplicated(rows);
    assert Indexes(once) == Indexes(rows) && Times(once) == Times(rows);
    forall i | 0 <= i < |rows| ensures Deduplicated(once)[i] == once[i] {
      MarkedTwice(rows[i], multiset(Indexes(rows)), multiset(Times(rows)));
    }
  }

  lemma MarkedTwice(row: Row, indexes: multiset<Option<int>>, times: multiset<Option<int>>)
    ensures Mark(Mark(row, indexes, times), indexes, times) == Mark(row, indexes, times)
  {
    hide OrderedIssues;
    var first, second := Repeats(row.index, indexes), Repeats(row.time, times);
    var reasons := Reasons(RuleSet(row.issues), first, second);
    IssuesHold(reasons);
    assert RuleSet(OrderedIssues(reasons)) == reasons == Reasons(reasons, first, second);
  }

  // ---------------------------------------------------------------- the split

  function Kept(rows: seq<Row>): seq<Row> {
    if rows == [] then []
    else (if rows[0].issues == [] && rows[0].normalized.Some? then [rows[0]] else []) + Kept(rows[1..])
  }

  function Rejected(rows: seq<Row>): seq<Row> {
    if rows == [] then [] else (if rows[0].issues != [] then [rows[0]] else []) + Rejected(rows[1..])
  }

  function Records(rows: seq<Row>): seq<NormalizedRecord> {
    if rows == [] then []
    else (if rows[0].issues == [] && rows[0].normalized.Some? then [rows[0].normalized.value] else []) + Records(rows[1..])
  }

  function ParsedTimes(rows: seq<Row>): seq<int> {
    if rows == [] then [] else (if rows[0].time.Some? then [rows[0].time.value] else []) + ParsedTimes(rows[1..])
  }

  function RuleCounts(rows: seq<Row>): multiset<RowRule> {
    if rows == [] then multiset{} else multiset(rows[0].issues) + RuleCounts(rows[1..])
  }

  function BuildBatchErrors(empty: bool, drift: bool, r: Reconciliation): seq<BatchError> {
    (if drift then [SchemaDrift] else []) + (if empty then [EmptyInput] else [])
    + (if r.applicable && !r.Matches() then [ReconciliationMismatch] else [])
  }

  /** The locally validated rows, numbered from one. */
  function Evaluated(p: Parsers, records: seq<SourceRecord>, date: int): (rows: seq<Row>)
    ensures |rows| == |records|
    ensures forall i :: 0 <= i < |records| ==> rows[i] == Validated(p, records[i], i + 1, date)
  {
    seq(|records|, i requires 0 <= i < |records| => Validated(p, records[i], i + 1, date))
  }

  /** The transformation of one daily object; header is None for an object without any line. */
  function Transform(p: Parsers, header: Option<seq<string>>, records: seq<SourceRecord>, date: int): Batch {
    var drift := header.Some? && header.value != SOURCE_FIELDS;
    if header.None? || drift || records == [] then
      var r := Reconciliation(|records|, 0, 0, false);
      Batch([], [], multiset{}, BuildBatchMetrics([], |records|, 0, 0, drift), r, BuildBatchErrors(records == [], drift, r))
    else
      var rows := Deduplicated(Evaluated(p, records, date));
      var valid, quarantine := Records(rows), Rejected(rows);
      var r := Reconciliation(|records|, |valid|, |quarantine|, true);
      Batch(valid, quarantine, RuleCounts(quarantine),
            BuildBatchMetrics(ParsedTimes(rows), |records|, |valid|, |quarantine|, false), r,
            BuildBatchErrors(false, false, r))
  }

  /** Transform with the caller's context checked first. */
  function TransformDailyCsv(p: Parsers, utc: bool, pipelineVersion: string, header: Option<seq<string>>,
                             records: seq<SourceRecord>, date: int): Result<Batch, ContextError>
  {
    if !utc then Failure(TimeNotUtc)
    else if p.blank(pipelineVersion) then Failure(EmptyPipelineVersion)
    else Success(Transform(p, header, records, date))
  }
}
