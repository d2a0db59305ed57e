/** The cross-partition continuity audit over the completed daily manifests. */
module GlobalAudit {
  import opened Options
  import opened Calendar
  import opened Ordering
  import opened Counters
  import opened BatchMetrics
  import opened Continuity

  /** The parts of a daily manifest that the audit reads; fields that a manifest may lack are optional. */
  datatype Manifest = Manifest(
    sourceDate: int,
    pipelineVersion: Option<string>,
    schemaVersion: Option<string>,
    inputRows: int,
    validRows: int,
    validTimestamps: Option<int>,
    parseableTimestamps: int,
    distribution: seq<(int, int)>,
    first: Option<Timestamp>,
    last: Option<Timestamp>
  )

  datatype AuditError = NoManifests | DuplicateDates | MixedPipelineVersions | MixedSchemaVersions | Boundary(cause: ContinuityError)

  datatype Inconsistency = ValidTimestamps(date: int) | WithinDeltas(date: int)

  datatype AuditStatus = Failed | Incomplete | Passed

  datatype Report = Report(
    within: Counter,
    boundary: Counter,
    whole: Counter,
    findings: seq<Finding>,
    overlaps: seq<Finding>,
    missing: seq<Finding>,
    unassessable: nat,
    emptyPartitions: seq<int>,
    inconsistencies: seq<Inconsistency>,
    sourceRows: int,
    validTimestamps: int,
    composes: bool,
    expectedMatches: bool,
    status: AuditStatus
  )

  // ---------------------------------------------------------------- what each manifest contributes

  function BySourceDate(): (Manifest, Manifest) -> bool {
    (a: Manifest, b: Manifest) => a.sourceDate <= b.sourceDate
  }

  predicate DatesRepeat(manifests: seq<Manifest>) {
    exists i, j :: 0 <= i < j < |manifests| && manifests[i].sourceDate == manifests[j].sourceDate
  }

  /** One version shared by all; a missing one reads as the text None, which is refused. */
  predicate SingleVersion(versions: seq<Option<string>>) {
    && (forall i, j :: 0 <= i < j < |versions| ==> versions[i] == versions[j])
    && (forall i :: 0 <= i < |versions| ==> versions[i].Some? && versions[i].value != "None")
  }

  function PipelineVersions(manifests: seq<Manifest>): seq<Option<string>> {
    seq(|manifests|, i requires 0 <= i < |manifests| => manifests[i].pipelineVersion)
  }

  function SchemaVersions(manifests: seq<Manifest>): seq<Option<string>> {
    seq(|manifests|, i requires 0 <= i < |manifests| => manifests[i].schemaVersion)
  }

  function Endpoints(manifests: seq<Manifest>): (endpoints: seq<Endpoint>)
    ensures |endpoints| == |manifests|
  {
    seq(|manifests|, i requires 0 <= i < |manifests| =>
      Endpoint(manifests[i].sourceDate, manifests[i].first, manifests[i].last))
  }

  function ValidTimestampCount(m: Manifest): int {
    if m.validTimestamps.Some? then m.validTimestamps.value else -1
  }

  /** One delta fewer than there are parsed timestamps, and none for an empty day. */
  function ExpectedDeltas(m: Manifest): int {
    if m.parseableTimestamps - 1 > 0 then m.parseableTimestamps - 1 else 0
  }

  function AddInconsistencies(noted: seq<Inconsistency>, m: Manifest): seq<Inconsistency> {
    var counted := if ValidTimestampCount(m) != m.validRows then noted + [ValidTimestamps(m.sourceDate)] else noted;
    if ExpectedDeltas(m) != SumOfCounts(m.distribution) then counted + [WithinDeltas(m.sourceDate)] else counted
  }

  /** What the audit has accumulated after some manifests. */
  datatype Accumulated = Accumulated(
    within: Counter, sourceRows: int, validTimestamps: int, empty: seq<int>, inconsistencies: seq<Inconsistency>)

  function Accumulate(a: Accumulated, m: Manifest): Accumulated {
    Accumulated(
      Tally(a.within, m.distribution),
      a.sourceRows + m.inputRows,
      a.validTimestamps + (if ValidTimestampCount(m) > 0 then ValidTimestampCount(m) else 0),
      if ValidTimestampCount(m) == 0 then a.empty + [m.sourceDate] else a.empty,
      AddInconsistencies(a.inconsistencies, m))
  }

  function AccumulateAll(manifests: seq<Manifest>): Accumulated
    decreases |manifests|
  {
    if manifests == [] then Accumulated(map[], 0, 0, [], [])
    else Accumulate(AccumulateAll(manifests[..|manifests| - 1]), manifests[|manifests| - 1])
  }

  function Overlapping(findings: seq<Finding>): seq<Finding> {
    if findings == [] then []
    else (if findings[0].delta.Some? && findings[0].delta.value <= 0 then [findings[0]] else [])
         + Overlapping(findings[1..])
  }

  function WithMissingDates(findings: seq<Finding>): seq<Finding> {
    if findings == [] then []
    else (if findings[0].missingDates != 0 then [findings[0]] else []) + WithMissingDates(findings[1..])
  }

  function UnassessableCount(findings: seq<Finding>): nat {
    if findings == [] then 0
    else (if findings[0].delta.None? then 1 else 0) + UnassessableCount(findings[1..])
  }

  lemma {:induction false} FindingsSplit(findings: seq<Finding>, k: nat)
    requires k < |findings|
    ensures Overlapping(findings[..k + 1]) == Overlapping(findings[..k])
              + (if findings[k].delta.Some? && findings[k].delta.value <= 0 then [findings[k]] else [])
    ensures WithMissingDates(findings[..k + 1]) ==
            WithMissingDates(findings[..k]) + (if findings[k].missingDates != 0 then [findings[k]] else [])
    ensures UnassessableCount(findings[..k + 1])
         == UnassessableCount(findings[..k]) + if findings[k].delta.None? then 1 else 0
  {
    if k > 0 {
      FindingsSplit(findings[1..], k - 1);
      assert findings[..k + 1][1..] == findings[1..][..k];
      assert findings[..k][1..] == findings[1..][..k - 1];
    } else {
      assert findings[..1] == [findings[0]] && findings[..0] == [];
    }
  }

  // ---------------------------------------------------------------- the audit

  /** The status: failed on any mismatch, incomplete when some boundary cannot be assessed. */
  function StatusFor(reconciles: bool, unassessable: nat): AuditStatus {
    if !reconciles then Failed else if unassessable != 0 then Incomplete else Passed
  }

  /** The report is the one that these manifests, in date order, call for. */
  ghost predicate Reports(report: Report, manifests: seq<Manifest>, expectedGaps: Option<int>) {
    var total, findings := AccumulateAll(manifests), Evaluated(Endpoints(manifests));
    && report.within == total.within && report.sourceRows == total.sourceRows
    && report.validTimestamps == total.validTimestamps && report.emptyPartitions == total.empty
    && report.inconsistencies == total.inconsistencies
    && Counts(report.boundary, BoundaryDeltas(Endpoints(manifests)))
    && report.whole == Plus(report.within, report.boundary)
    && report.findings == findings && report.overlaps == Overlapping(findings)
    && report.missing == WithMissingDates(findings) && report.unassessable == UnassessableCount(findings)
    && report.composes == ComposesExactly(report.within, report.boundary)
    && report.expectedMatches ==
       (expectedGaps.None? || IntervalSummary(report.whole).significant == expectedGaps.value)
    && report.status == StatusFor(
         report.composes && report.expectedMatches && report.inconsistencies == [], report.unassessable)
  }

  /** The manifests are refused before anything is composed. */
  function Refused(manifests: seq<Manifest>): Check<AuditError> {
    if manifests == [] then Fail(NoManifests)
    else if DatesRepeat(manifests) then Fail(DuplicateDates)
    else if !SingleVersion(PipelineVersions(manifests)) then Fail(MixedPipelineVersions)
    else if !SingleVersion(SchemaVersions(manifests)) then Fail(MixedSchemaVersions)
    else Pass
  }

  method AuditPartitionContinuity(loaded: seq<Manifest>, expectedGaps: Option<int>)
    returns (result: Result<Report, AuditError>)
    ensures var manifests := Sort(BySourceDate(), loaded);
            match result
            case Success(report) =>
              Refused(manifests).Pass? && AllNaive(Endpoints(manifests)) && Reports(report, manifests, expectedGaps)
            case Failure(error) =>
              if Refused(manifests).Fail? then error == Refused(manifests).error
              else !AllNaive(Endpoints(manifests)) && error == Boundary(AwareBoundary)
  {
    var manifests := Sort(BySourceDate(), loaded);
    var refused := Refused(manifests);
    if refused.Fail? {
      return Failure(refused.error);
    }
    var within, sourceRows, validTimestamps, empty, inconsistencies := AccumulateManifests(manifests);
    var evaluated := EvaluateBoundaries(Endpoints(manifests));
    if evaluated.Failure? {
      return Failure(Boundary(evaluated.error));
    }
    var (findings, boundary) := evaluated.value;
    var overlaps, missing, unassessable := CollectFindings(findings);
    var whole := Plus(within, boundary);
    var composes := ComposesExactly(within, boundary);
    var expectedMatches := expectedGaps.None? || IntervalSummary(whole).significant == expectedGaps.value;
    var status;
    if !(composes && expectedMatches && inconsistencies == []) {
      status := Failed;
    } else if unassessable != 0 {
      status := Incomplete;
    } else {
      status := Passed;
    }
    result := Success(Report(within, boundary, whole, findings, overlaps, missing, unassessable, empty,
                             inconsistencies, sourceRows, validTimestamps, composes, expectedMatches, status));
  }

  lemma OneMoreManifest(manifests: seq<Manifest>, k: nat)
    requires k < |manifests|
    ensures AccumulateAll(manifests[..k + 1]) == Accumulate(AccumulateAll(manifests[..k]), manifests[k])
  {
    assert manifests[..k + 1][..k] == manifests[..k];
  }

  method AccumulateManifests(manifests: seq<Manifest>)
    returns (within: Counter, sourceRows: int, validTimestamps: int, empty: seq<int>, inconsistencies: seq<Inconsistency>)
    ensures Accumulated(within, sourceRows, validTimestamps, empty, inconsistencies) == AccumulateAll(manifests)
  {
    assert AccumulateAll(manifests[..0]) == Accumulated(map[], 0, 0, [], []);
    hide AccumulateAll, Tally, SumOfCounts;
    within, sourceRows, validTimestamps, empty, inconsistencies := map[], 0, 0, [], [];
    for k := 0 to |manifests|
      invariant Accumulated(within, sourceRows, validTimestamps, empty, inconsistencies) == AccumulateAll(manifests[..k])
    {
      var m := manifests[k];
      OneMoreManifest(manifests, k);
      sourceRows := sourceRows + m.inputRows;
      var count := if m.validTimestamps.Some? then m.validTimestamps.value else -1;
      validTimestamps := validTimestamps + if count > 0 then count else 0;
      if count == 0 {
        empty := empty + [m.sourceDate];
      }
      if count != m.validRows {
        inconsistencies := inconsistencies + [ValidTimestamps(m.sourceDate)];
      }
      var observed;
      within, observed := AddDistribution(within, m.distribution);
      var expected := if m.parseableTimestamps - 1 > 0 then m.parseableTimestamps - 1 else 0;
      if expected != observed {
        inconsistencies := inconsistencies + [WithinDeltas(m.sourceDate)];
      }
    }
    assert manifests[..|manifests|] == manifests;
  }

  method AddDistribution(within: Counter, items: seq<(int, int)>) returns (sum: Counter, observed: int)
    ensures sum == Tally(within, items) && observed == SumOfCounts(items)
  {
    sum, observed := within, 0;
    for k := 0 to |items|
      invariant Tally(sum, items[k..]) == Tally(within, items)
      invariant observed + SumOfCounts(items[k..]) == SumOfCounts(items)
    {
      assert items[k..][1..] == items[k + 1..];
      sum := Add(sum, items[k].0, items[k].1);
      observed := observed + items[k].1;
    }
  }

  method CollectFindings(findings: seq<Finding>)
    returns (overlaps: seq<Finding>, missing: seq<Finding>, unassessable: nat)
    ensures overlaps == Overlapping(findings) && missing == WithMissingDates(findings)
    ensures unassessable == UnassessableCount(findings)
  {
    overlaps, missing, unassessable := [], [], 0;
    for k := 0 to |findings|
      invariant overlaps == Overlapping(findings[..k]) && missing == WithMissingDates(findings[..k])
      invariant unassessable == UnassessableCount(findings[..k])
    {
      FindingsSplit(findings, k);
      if findings[k].missingDates != 0 {
        missing := missing + [findings[k]];
      }
      if findings[k].delta.None? {
        unassessable := unassessable + 1;
        continue;
      }
      if findings[k].delta.value <= 0 {
        overlaps := overlaps + [findings[k]];
      }
    }
    assert findings[..|findings|] == findings;
  }
}
