/** What the continuity audit reports about a history whose manifests describe its days faithfully. */
module GlobalAuditTheorems {
  import opened Options
  import opened Intervals
  import opened Counters
  import opened BatchMetrics
  import opened Continuity
  import opened GlobalAudit

  /** The manifest of a day without quarantined rows, whose rows carry these times in order. */
  predicate Honest(m: Manifest, times: seq<int>) {
    && m.distribution == Frequencies(Deltas(times))
    && m.parseableTimestamps == m.validRows == |times| && m.validTimestamps == Some(|times|)
    && Endpoint(m.sourceDate, m.first, m.last) == EndpointOf(m.sourceDate, times)
  }

  predicate AllHonest(manifests: seq<Manifest>, parts: seq<seq<int>>) {
    && |manifests| == |parts|
    && forall i :: 0 <= i < |parts| ==> Honest(manifests[i], parts[i])
  }

  lemma {:induction false} DeltaCount(times: seq<int>)
    ensures |Deltas(times)| == if times == [] then 0 else |times| - 1
  {
    if |times| >= 2 {
      DeltaCount(times[1..]);
    }
  }

  lemma {:induction false} PartDeltasAppend(parts: seq<seq<int>>, part: seq<int>)
    ensures PartDeltas(parts + [part]) == PartDeltas(parts) + Deltas(part)
  {
    if parts == [] {
      assert [part][1..] == [] && Deltas(part) + [] == [] + Deltas(part);
    } else {
      assert (parts + [part])[1..] == parts[1..] + [part];
      PartDeltasAppend(parts[1..], part);
    }
  }

  lemma {:induction false} HonestManifestsAccumulate(manifests: seq<Manifest>, parts: seq<seq<int>>)
    requires AllHonest(manifests, parts)
    ensures Counts(AccumulateAll(manifests).within, PartDeltas(parts))
    ensures AccumulateAll(manifests).inconsistencies == []
    ensures AccumulateAll(manifests).validTimestamps == |Flatten(parts)|
    decreases |manifests|
  {
    hide Frequencies, Counts, Tally;
    if manifests == [] {
      NothingCounted();
    } else {
      var n := |manifests| - 1;
      var before := AccumulateAll(manifests[..n]).within;
      HonestManifestsAccumulate(manifests[..n], parts[..n]);
      assert parts == parts[..n] + [parts[n]];
      PartDeltasAppend(parts[..n], parts[n]);
      FlattenAppends(parts[..n], parts[n]);
      TallyCounts(before, PartDeltas(parts[..n]), Deltas(parts[n]));
      FrequenciesAreComplete(Deltas(parts[n]));
      DeltaCount(parts[n]);
    }
  }

  lemma NothingCounted()
    ensures Counts(map[], [])
  {
  }

  lemma CountedIsNotNegative(c: Counter, values: seq<int>)
    requires Counts(c, values)
    ensures NoNegative(c)
  {
    forall k | k in c ensures c[k] >= 0 {
      assert Count(c, k) == c[k];
    }
  }

  lemma PlusCounts(a: Counter, b: Counter, xs: seq<int>, ys: seq<int>)
    requires Counts(a, xs) && Counts(b, ys)
    ensures Counts(Plus(a, b), xs + ys)
  {
  }

  lemma SameCounts(c: Counter, xs: seq<int>, ys: seq<int>)
    requires Counts(c, xs) && multiset(xs) == multiset(ys)
    ensures Counts(c, ys)
  {
  }

  lemma DescribedBy(manifests: seq<Manifest>, parts: seq<seq<int>>)
    requires AllHonest(manifests, parts)
    ensures Describe(Endpoints(manifests), parts)
  {
  }

  lemma {:induction false} SumOfAppends(g: int -> int, xs: seq<int>, ys: seq<int>)
    ensures SumOf(g, xs + ys) == SumOf(g, xs) + SumOf(g, ys)
  {
    if xs == [] {
      assert xs + ys == ys;
    } else {
      assert (xs + ys)[1..] == xs[1..] + ys;
      SumOfAppends(g, xs[1..], ys);
    }
  }

  lemma {:induction false} GapsInsideParts(parts: seq<seq<int>>)
    ensures SumOf(IfSignificant(), PartDeltas(parts)) == WithinGaps(parts)
  {
    if parts != [] {
      GapsInsideParts(parts[1..]);
      SumOfAppends(IfSignificant(), Deltas(parts[0]), PartDeltas(parts[1..]));
      GapsAreSignificantDeltas(parts[0]);
    }
  }

  /** For honest manifests the checks hold, and the gaps counted are all but those that bridge empty days. */
  lemma HonestHistory(report: Report, manifests: seq<Manifest>, parts: seq<seq<int>>, expectedGaps: Option<int>)
    requires AllHonest(manifests, parts) && Reports(report, manifests, expectedGaps)
    ensures report.composes && report.inconsistencies == [] && report.validTimestamps == |Flatten(parts)|
    ensures Counts(report.whole, PartDeltas(parts) + BoundaryDeltas(Endpoints(manifests)))
    ensures IntervalSummary(report.whole).significant + BridgingGaps(None, false, parts) == GapCount(Flatten(parts))
  {
    hide ComposesExactly, Counts, IntervalSummary, PartDeltas, BoundaryDeltas, SumOf, Evaluated, AllHonest, Honest, Describe,
         Plus, BridgingGaps, NeighbourGaps, WithinGaps, GapCount;
    var endpoints := Endpoints(manifests);
    DescribedBy(manifests, parts);
    HonestManifestsAccumulate(manifests, parts);
    CountedIsNotNegative(report.within, PartDeltas(parts));
    CountedIsNotNegative(report.boundary, BoundaryDeltas(endpoints));
    CompositionHolds(report.within, report.boundary);
    PlusCounts(report.within, report.boundary, PartDeltas(parts), BoundaryDeltas(endpoints));
    CountedSummary(report.whole, PartDeltas(parts) + BoundaryDeltas(endpoints));
    SumOfAppends(IfSignificant(), PartDeltas(parts), BoundaryDeltas(endpoints));
    GapsInsideParts(parts);
    BoundaryGapsAreNeighbourGaps(endpoints, parts);
    GapsDecompose(parts);
  }

  lemma {:induction false} NothingUnassessable(endpoints: seq<Endpoint>, parts: seq<seq<int>>)
    requires Describe(endpoints, parts) && forall i :: 0 <= i < |parts| ==> parts[i] != []
    ensures UnassessableCount(Evaluated(endpoints)) == 0
    decreases |parts|
  {
    if |parts| > 1 {
      NothingUnassessable(endpoints[1..], parts[1..]);
      assert Evaluated(endpoints)[1..] == Evaluated(endpoints[1..]);
    }
  }

  /**
   * For nonempty quarantine-free days, the audited distribution is exactly that of the whole ordered history: its
   * counts, its gaps, and its deltas that add up to the last time less the first. The audit then passes exactly
   * when the expected number of gaps, if given, is the true one.
   */
  lemma CompleteHistory(report: Report, manifests: seq<Manifest>, parts: seq<seq<int>>, expectedGaps: Option<int>)
    requires AllHonest(manifests, parts) && Reports(report, manifests, expectedGaps)
    requires parts != [] && forall i :: 0 <= i < |parts| ==> parts[i] != []
    ensures Counts(report.whole, Deltas(Flatten(parts)))
    ensures IntervalSummary(report.whole).total == |Flatten(parts)| - 1
    ensures IntervalSummary(report.whole).significant == GapCount(Flatten(parts))
    ensures SumOver(report.whole.Keys, Weighted(Itself(), report.whole)) == Last(parts[|parts| - 1]) - parts[0][0]
    ensures report.status == if expectedGaps.None? || expectedGaps.value == GapCount(Flatten(parts)) then Passed else Failed
  {
    hide ComposesExactly, Counts, IntervalSummary, PartDeltas, BoundaryDeltas, SumOf, SumOver, Evaluated, AllHonest, Honest,
         Describe, Plus, BridgingGaps, GapCount, Deltas, AccumulateAll;
    var endpoints := Endpoints(manifests);
    var within, across := PartDeltas(parts), BoundaryDeltas(endpoints);
    DescribedBy(manifests, parts);
    HonestHistory(report, manifests, parts, expectedGaps);
    NothingToBridge(None, parts);
    NothingUnassessable(endpoints, parts);
    HistoryDeltas(endpoints, parts);
    SameCounts(report.whole, within + across, Deltas(Flatten(parts)));
    CountedSummary(report.whole, Deltas(Flatten(parts)));
    DeltaCount(Flatten(parts));
    HistorySpan(endpoints, parts);
    SumAppends(within, across);
    CountedSummary(report.whole, within + across);
  }
}
