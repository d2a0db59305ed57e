/** Chronological boundaries between partitions, and summaries of timestamp intervals. */
module Continuity {
  import opened Options
  import opened Calendar
  import opened Intervals
  import opened Counters

  const EXPECTED_INTERVAL_MIN_SECONDS := 9
  const EXPECTED_INTERVAL_MAX_SECONDS := 13

  /** The ends of one daily or monthly partition; a partition without rows has neither. */
  datatype Endpoint = Endpoint(date: int, first: Option<Timestamp>, last: Option<Timestamp>)

  datatype Status = Unassessable | ReversedOverlap | Overlap | SignificantGap | AbnormalPositive | Normal

  datatype Finding = Finding(previous: int, current: int, missingDates: nat, delta: Option<int>, status: Status)

  datatype ContinuityError = AwareBoundary | NegativeWithinCount

  datatype Summary = Summary(total: int, abnormal: int, significant: int)

  // ---------------------------------------------------------------- boundaries

  predicate Assessable(previous: Endpoint, current: Endpoint) {
    previous.last.Some? && current.first.Some?
  }

  predicate Naive(previous: Endpoint, current: Endpoint) {
    Assessable(previous, current) ==> !previous.last.value.aware && !current.first.value.aware
  }

  function Delta(previous: Endpoint, current: Endpoint): int
    requires Assessable(previous, current)
  {
    current.first.value.seconds - previous.last.value.seconds
  }

  predicate AbnormalInterval(delta: int) {
    delta > 0 && !(EXPECTED_INTERVAL_MIN_SECONDS <= delta <= EXPECTED_INTERVAL_MAX_SECONDS)
  }

  function StatusOf(delta: int): Status {
    if delta < 0 then ReversedOverlap
    else if delta == 0 then Overlap
    else if Significant(delta) then SignificantGap
    else if AbnormalInterval(delta) then AbnormalPositive
    else Normal
  }

  function MissingBetween(previous: Endpoint, current: Endpoint): nat {
    if current.date - previous.date > 1 then current.date - previous.date - 1 else 0
  }

  function Evaluate(previous: Endpoint, current: Endpoint): Finding {
    if Assessable(previous, current) then
      var delta := Delta(previous, current);
      Finding(previous.date, current.date, MissingBetween(previous, current), Some(delta), StatusOf(delta))
    else
      Finding(previous.date, current.date, MissingBetween(previous, current), None, Unassessable)
  }

  function Evaluated(endpoints: seq<Endpoint>): seq<Finding> {
    if |endpoints| < 2 then [] else [Evaluate(endpoints[0], endpoints[1])] + Evaluated(endpoints[1..])
  }

  predicate AllNaive(endpoints: seq<Endpoint>) {
    |endpoints| < 2 || (Naive(endpoints[0], endpoints[1]) && AllNaive(endpoints[1..]))
  }

  /** The seconds across every boundary that can be assessed. */
  function BoundaryDeltas(endpoints: seq<Endpoint>): seq<int> {
    if |endpoints| < 2 then []
    else (if Assessable(endpoints[0], endpoints[1]) then [Delta(endpoints[0], endpoints[1])] else [])
         + BoundaryDeltas(endpoints[1..])
  }

  lemma {:induction false} BoundariesAppend(endpoints: seq<Endpoint>, next: Endpoint)
    requires endpoints != []
    ensures var last, more := endpoints[|endpoints| - 1], endpoints + [next];
            && Evaluated(more) == Evaluated(endpoints) + [Evaluate(last, next)]
            && BoundaryDeltas(more) ==
               BoundaryDeltas(endpoints) + (if Assessable(last, next) then [Delta(last, next)] else [])
            && (AllNaive(more) <==> AllNaive(endpoints) && Naive(last, next))
  {
    assert (endpoints + [next])[1..] == endpoints[1..] + [next];
    if |endpoints| > 1 {
      BoundariesAppend(endpoints[1..], next);
    } else {
      assert (endpoints + [next])[1..] == [next];
    }
  }

  lemma {:induction false} PrefixIsNaive(endpoints: seq<Endpoint>, k: nat)
    requires AllNaive(endpoints) && k <= |endpoints|
    ensures AllNaive(endpoints[..k])
  {
    if k >= 2 {
      PrefixIsNaive(endpoints[1..], k - 1);
      assert endpoints[1..][..k - 1] == endpoints[..k][1..];
    }
  }

  lemma CountsAppend(c: Counter, values: seq<int>, value: int)
    requires Counts(c, values)
    ensures Counts(Add(c, value, 1), values + [value])
  {
  }

  /** The findings and the counted deltas of the boundaries seen so far. */
  ghost predicate Covers(endpoints: seq<Endpoint>, findings: seq<Finding>, distribution: Counter) {
    AllNaive(endpoints) && findings == Evaluated(endpoints) && Counts(distribution, BoundaryDeltas(endpoints))
  }

  method EvaluateBoundaries(endpoints: seq<Endpoint>)
    returns (result: Result<(seq<Finding>, Counter), ContinuityError>)
    ensures result.Success? ==>
              AllNaive(endpoints) && result.value.0 == Evaluated(endpoints)
              && Counts(result.value.1, BoundaryDeltas(endpoints))
    ensures result.Failure? ==> !AllNaive(endpoints) && result.error == AwareBoundary
  {
    hide Evaluated, BoundaryDeltas, AllNaive, Counts;
    var findings: seq<Finding> := [];
    var distribution: Counter := map[];
    StartsCovered(endpoints);
    var k := 1;
    while k < |endpoints|
      invariant if |endpoints| == 0 then k == 1 && Covers([], findings, distribution)
                else 1 <= k <= |endpoints| && Covers(endpoints[..k], findings, distribution)
    {
      var previous, current := endpoints[k - 1], endpoints[k];
      assert endpoints[..k + 1] == endpoints[..k] + [current];
      BoundariesAppend(endpoints[..k], current);
      k := k + 1;
      var missing := if current.date - previous.date - 1 > 0 then current.date - previous.date - 1 else 0;
      if previous.last.None? || current.first.None? {
        assert BoundaryDeltas(endpoints[..k - 1]) + [] == BoundaryDeltas(endpoints[..k - 1]);
        findings := findings + [Finding(previous.date, current.date, missing, None, Unassessable)];
        continue;
      }
      if previous.last.value.aware || current.first.value.aware {
        if AllNaive(endpoints) {
          PrefixIsNaive(endpoints, k);
        }
        return Failure(AwareBoundary);
      }
      var delta := current.first.value.seconds - previous.last.value.seconds;
      CountsAppend(distribution, BoundaryDeltas(endpoints[..k - 1]), delta);
      distribution := Add(distribution, delta, 1);
      var status;
      if delta < 0 {
        status := ReversedOverlap;
      } else if delta == 0 {
        status := Overlap;
      } else if delta > SIGNIFICANT_GAP_SECONDS {
        status := SignificantGap;
      } else if !(EXPECTED_INTERVAL_MIN_SECONDS <= delta <= EXPECTED_INTERVAL_MAX_SECONDS) {
        status := AbnormalPositive;
      } else {
        status := Normal;
      }
      findings := findings + [Finding(previous.date, current.date, missing, Some(delta), status)];
    }
    assert if |endpoints| == 0 then endpoints == [] else endpoints[..k] == endpoints;
    result := Success((findings, distribution));
  }

  lemma StartsCovered(endpoints: seq<Endpoint>)
    ensures Covers(endpoints[..if |endpoints| == 0 then 0 else 1], [], map[])
  {
  }

  // ---------------------------------------------------------------- summaries

  function TotalOf(c: Counter): int -> int {
    (k: int) => Count(c, k)
  }

  function AbnormalOf(c: Counter): int -> int {
    (k: int) => if AbnormalInterval(k) then Count(c, k) else 0
  }

  /** Listing a delta once per count lists nothing when the count is negative. */
  function SignificantOf(c: Counter): int -> int {
    (k: int) => if Significant(k) && Count(c, k) > 0 then Count(c, k) else 0
  }

  function IntervalSummary(c: Counter): Summary {
    Summary(SumOver(c.Keys, TotalOf(c)), SumOver(c.Keys, AbnormalOf(c)), SumOver(c.Keys, SignificantOf(c)))
  }

  function BoundaryGapsOf(c: Counter): int -> int {
    (k: int) => if Significant(k) then Count(c, k) else 0
  }

  function ComposeSignificantGapCount(within: int, boundaries: Counter): Result<int, ContinuityError> {
    if within < 0 then Failure(NegativeWithinCount)
    else Success(within + SumOver(boundaries.Keys, BoundaryGapsOf(boundaries)))
  }

  // ---------------------------------------------------------------- composing two counters

  predicate NoNegative(c: Counter) {
    forall k :: k in c ==> c[k] >= 0
  }

  /** The three composition checks of the continuity audit. */
  predicate ComposesExactly(within: Counter, boundary: Counter) {
    var whole, left, right := IntervalSummary(Plus(within, boundary)), IntervalSummary(within), IntervalSummary(boundary);
    && whole.total == left.total + right.total
    && whole.abnormal == left.abnormal + right.abnormal
    && whole.significant == left.significant + right.significant
  }

  /** One summary composes exactly when it does at every key, if adding counters can only raise, or only lower, it. */
  lemma Composes(a: Counter, b: Counter, of: Counter -> int -> int, raises: bool)
    requires forall c, k :: k !in c ==> of(c)(k) == 0
    requires forall k :: raises ==> of(Plus(a, b))(k) >= of(a)(k) + of(b)(k)
    requires forall k :: !raises ==> of(Plus(a, b))(k) <= of(a)(k) + of(b)(k)
    requires forall k :: k in a.Keys + b.Keys && k !in Plus(a, b) ==> of(Plus(a, b))(k) == 0
    ensures SumOver(Plus(a, b).Keys, of(Plus(a, b))) == SumOver(a.Keys, of(a)) + SumOver(b.Keys, of(b))
       <==> forall k :: k in a.Keys + b.Keys ==> of(Plus(a, b))(k) == of(a)(k) + of(b)(k)
  {
    hide SumOver, Plus;
    var keys, whole := a.Keys + b.Keys, Plus(a, b);
    var parts := (k: int) => of(a)(k) + of(b)(k);
    SumIgnoresZeros(whole.Keys, keys, of(whole));
    SumIgnoresZeros(a.Keys, keys, of(a));
    SumIgnoresZeros(b.Keys, keys, of(b));
    SumAdds(keys, of(a), of(b), parts);
    if raises {
      SumCompares(keys, parts, of(whole));
    } else {
      SumCompares(keys, of(whole), parts);
    }
  }

  lemma TotalsCompose(a: Counter, b: Counter)
    ensures IntervalSummary(Plus(a, b)).total == IntervalSummary(a).total + IntervalSummary(b).total
       <==> forall k :: k in a.Keys + b.Keys ==> Count(a, k) + Count(b, k) >= 0
  {
    hide SumOver;
    Composes(a, b, TotalOf, true);
    forall k | k in a.Keys + b.Keys
      ensures TotalOf(Plus(a, b))(k) == TotalOf(a)(k) + TotalOf(b)(k) <==> Count(a, k) + Count(b, k) >= 0
    {
    }
  }

  lemma AbnormalCountsCompose(a: Counter, b: Counter)
    requires forall k :: k in a.Keys + b.Keys ==> Count(a, k) + Count(b, k) >= 0
    ensures IntervalSummary(Plus(a, b)).abnormal == IntervalSummary(a).abnormal + IntervalSummary(b).abnormal
  {
    hide SumOver;
    Composes(a, b, AbnormalOf, true);
  }

  lemma SignificantAt(a: Counter, b: Counter, k: int)
    requires Count(b, k) >= 0
    ensures SignificantOf(Plus(a, b))(k) <= SignificantOf(a)(k) + SignificantOf(b)(k)
    ensures SignificantOf(Plus(a, b))(k) == SignificantOf(a)(k) + SignificantOf(b)(k)
       <==> (Significant(k) ==> Count(a, k) >= 0 || Count(b, k) == 0)
  {
  }

  lemma SignificantCountsCompose(a: Counter, b: Counter)
    requires NoNegative(b)
    ensures IntervalSummary(Plus(a, b)).significant == IntervalSummary(a).significant + IntervalSummary(b).significant
       <==> forall k :: k in a.Keys + b.Keys && Significant(k) ==> Count(a, k) >= 0 || Count(b, k) == 0
  {
    hide SumOver, Plus, Significant, NoNegative;
    SignificantIsCounted();
    forall k ensures SignificantOf(Plus(a, b))(k) <= SignificantOf(a)(k) + SignificantOf(b)(k)
      ensures SignificantOf(Plus(a, b))(k) == SignificantOf(a)(k) + SignificantOf(b)(k)
         <==> (Significant(k) ==> Count(a, k) >= 0 || Count(b, k) == 0)
    {
      NotNegativeAt(b, k);
      SignificantAt(a, b, k);
    }
    Composes(a, b, SignificantOf, false);
  }

  lemma NotNegativeAt(c: Counter, k: int)
    requires NoNegative(c)
    ensures Count(c, k) >= 0
  {
  }

  lemma SignificantIsCounted()
    ensures forall c: Counter, k :: k !in c ==> SignificantOf(c)(k) == 0
  {
  }

  /**
   * The composition checks hold exactly when no delta's counts add up to a negative number and no significant
   * delta has a negative count inside partitions beside a boundary count.
   */
  lemma ComposesExactlyWhen(within: Counter, boundary: Counter)
    requires NoNegative(boundary)
    ensures ComposesExactly(within, boundary) <==>
            forall k :: k in within.Keys + boundary.Keys ==>
              && Count(within, k) + Count(boundary, k) >= 0
              && (Significant(k) ==> Count(within, k) >= 0 || Count(boundary, k) == 0)
  {
    hide IntervalSummary, Plus;
    TotalsCompose(within, boundary);
    SignificantCountsCompose(within, boundary);
    if forall k :: k in within.Keys + boundary.Keys ==> Count(within, k) + Count(boundary, k) >= 0 {
      AbnormalCountsCompose(within, boundary);
    }
  }

  /** With counts that are not negative the composition checks cannot fail. */
  lemma CompositionHolds(within: Counter, boundary: Counter)
    requires NoNegative(within) && NoNegative(boundary)
    ensures ComposesExactly(within, boundary)
  {
    hide ComposesExactly, Significant;
    ComposesExactlyWhen(within, boundary);
  }

  // ---------------------------------------------------------------- summaries of counted deltas

  function One(): int -> int { (k: int) => 1 }
  function Itself(): int -> int { (k: int) => k }
  function IfSignificant(): int -> int { (k: int) => if Significant(k) then 1 else 0 }
  function IfAbnormal(): int -> int { (k: int) => if AbnormalInterval(k) then 1 else 0 }

  lemma SameSum(keys: set<int>, f: int -> int, g: int -> int)
    requires forall k :: k in keys ==> f(k) == g(k)
    ensures SumOver(keys, f) == SumOver(keys, g)
  {
    SumCompares(keys, f, g);
  }

  lemma CountedSignificant(c: Counter, deltas: seq<int>)
    requires Counts(c, deltas)
    ensures SumOver(c.Keys, BoundaryGapsOf(c)) == SumOver(c.Keys, SignificantOf(c)) == SumOf(IfSignificant(), deltas)
  {
    hide SumOver, Significant;
    CountedSum(c, deltas, IfSignificant());
    forall k | k in c.Keys
      ensures SignificantOf(c)(k) == BoundaryGapsOf(c)(k) == Weighted(IfSignificant(), c)(k)
    {
      assert Count(c, k) >= 0;
    }
    SameSum(c.Keys, SignificantOf(c), Weighted(IfSignificant(), c));
    SameSum(c.Keys, BoundaryGapsOf(c), Weighted(IfSignificant(), c));
  }

  lemma CountedAbnormal(c: Counter, deltas: seq<int>)
    requires Counts(c, deltas)
    ensures SumOver(c.Keys, AbnormalOf(c)) == SumOf(IfAbnormal(), deltas)
  {
    hide SumOver, AbnormalInterval;
    CountedSum(c, deltas, IfAbnormal());
    SameSum(c.Keys, AbnormalOf(c), Weighted(IfAbnormal(), c));
  }

  /** What the summary of a distribution says about the deltas it counts. */
  lemma CountedSummary(c: Counter, deltas: seq<int>)
    requires Counts(c, deltas)
    ensures IntervalSummary(c) == Summary(|deltas|, SumOf(IfAbnormal(), deltas), SumOf(IfSignificant(), deltas))
    ensures SumOver(c.Keys, Weighted(Itself(), c)) == Sum(deltas)
  {
    hide SumOver, Counts, SumOf;
    CountedSignificant(c, deltas);
    CountedAbnormal(c, deltas);
    CountedSum(c, deltas, One());
    CountedSum(c, deltas, Itself());
    SumOfItself(deltas);
    SameSum(c.Keys, TotalOf(c), Weighted(One(), c));
  }

  lemma {:induction false} SumOfItself(values: seq<int>)
    ensures SumOf(Itself(), values) == Sum(values) && SumOf(One(), values) == |values|
  {
    if values != [] {
      SumOfItself(values[1..]);
    }
  }

  lemma {:induction false} GapsAreSignificantDeltas(times: seq<int>)
    ensures SumOf(IfSignificant(), Deltas(times)) == GapCount(times)
  {
    if |times| >= 2 {
      GapsAreSignificantDeltas(times[1..]);
      assert Deltas(times)[1..] == Deltas(times[1..]);
    }
  }

  // ---------------------------------------------------------------- partitions of one history

  /** The endpoint of a partition holding these times in order. */
  function EndpointOf(date: int, times: seq<int>): Endpoint {
    if times == [] then Endpoint(date, None, None)
    else Endpoint(date, Some(Timestamp(times[0], false)), Some(Timestamp(Last(times), false)))
  }

  /** The endpoints are those of the partitions. */
  predicate Describe(endpoints: seq<Endpoint>, parts: seq<seq<int>>) {
    && |endpoints| == |parts|
    && forall i :: 0 <= i < |parts| ==> endpoints[i] == EndpointOf(endpoints[i].date, parts[i])
  }

  function Carry(times: seq<int>): Option<int> {
    if times == [] then None else Some(Last(times))
  }

  lemma {:induction false} BoundaryGapsAre(endpoints: seq<Endpoint>, parts: seq<seq<int>>)
    requires Describe(endpoints, parts) && parts != []
    ensures SumOf(IfSignificant(), BoundaryDeltas(endpoints)) == NeighbourGaps(Carry(parts[0]), parts[1..])
    decreases |parts|
  {
    if |parts| > 1 {
      var rest := BoundaryDeltas(endpoints[1..]);
      BoundaryGapsAre(endpoints[1..], parts[1..]);
      assert [] + rest == rest;
      var delta := parts[1];
      if Assessable(endpoints[0], endpoints[1]) {
        assert ([Delta(endpoints[0], endpoints[1])] + rest)[1..] == rest;
      }
    }
  }

  /** Significant deltas at assessable boundaries are the gaps between neighbouring partitions. */
  lemma BoundaryGapsAreNeighbourGaps(endpoints: seq<Endpoint>, parts: seq<seq<int>>)
    requires Describe(endpoints, parts)
    ensures SumOf(IfSignificant(), BoundaryDeltas(endpoints)) == NeighbourGaps(None, parts)
  {
    if parts != [] {
      BoundaryGapsAre(endpoints, parts);
    }
  }

  function PartDeltas(parts: seq<seq<int>>): seq<int> {
    if parts == [] then [] else Deltas(parts[0]) + PartDeltas(parts[1..])
  }

  lemma NothingToCompare(endpoints: seq<Endpoint>)
    ensures |endpoints| < 2 ==> BoundaryDeltas(endpoints) == []
    ensures Deltas([]) == []
  {
  }

  lemma FirstBoundary(endpoints: seq<Endpoint>, parts: seq<seq<int>>)
    requires Describe(endpoints, parts) && |parts| > 1 && parts[0] != [] && parts[1] != []
    ensures Describe(endpoints[1..], parts[1..])
    ensures BoundaryDeltas(endpoints) == [parts[1][0] - Last(parts[0])] + BoundaryDeltas(endpoints[1..])
  {
  }

  lemma Regroup(inside: seq<int>, across: seq<int>, rest: seq<int>, later: seq<int>, boundaries: seq<int>)
    requires multiset(rest) == multiset(later) + multiset(boundaries)
    ensures multiset(inside + across + rest) == multiset(inside + later) + multiset(across + boundaries)
  {
  }

  lemma OneMorePart(first: seq<int>, rest: seq<int>, later: seq<int>, boundaries: seq<int>)
    requires first != [] && rest != [] && multiset(Deltas(rest)) == multiset(later) + multiset(boundaries)
    ensures multiset(Deltas(first + rest))
         == multiset(Deltas(first) + later) + multiset([rest[0] - Last(first)] + boundaries)
  {
    hide Deltas;
    DeltasAppend(first, rest);
    Regroup(Deltas(first), [rest[0] - Last(first)], Deltas(rest), later, boundaries);
  }

  /** The deltas of a whole history are those inside its nonempty partitions and those at its boundaries. */
  lemma {:induction false} HistoryDeltas(endpoints: seq<Endpoint>, parts: seq<seq<int>>)
    requires Describe(endpoints, parts) && forall i :: 0 <= i < |parts| ==> parts[i] != []
    ensures multiset(Deltas(Flatten(parts))) == multiset(PartDeltas(parts)) + multiset(BoundaryDeltas(endpoints))
    decreases |parts|
  {
    hide Deltas, BoundaryDeltas, EndpointOf;
    NothingToCompare(endpoints);
    if |parts| == 1 {
      assert Flatten(parts[1..]) == [];
      assert Flatten(parts) == parts[0] && PartDeltas(parts) == Deltas(parts[0]) + [];
    } else if |parts| > 1 {
      HistoryDeltas(endpoints[1..], parts[1..]);
      var rest := Flatten(parts[1..]);
      assert rest[0] == parts[1][0];
      FirstBoundary(endpoints, parts);
      OneMorePart(parts[0], rest, PartDeltas(parts[1..]), BoundaryDeltas(endpoints[1..]));
    }
  }

  /** The deltas of a history add up to its span. */
  lemma HistorySpan(endpoints: seq<Endpoint>, parts: seq<seq<int>>)
    requires Describe(endpoints, parts) && parts != [] && forall i :: 0 <= i < |parts| ==> parts[i] != []
    ensures Sum(PartDeltas(parts)) + Sum(BoundaryDeltas(endpoints)) == Last(parts[|parts| - 1]) - parts[0][0]
    decreases |parts|
  {
    if |parts| == 1 {
      assert PartDeltas(parts) == Deltas(parts[0]) + [] == Deltas(parts[0]);
      DeltasTelescope(parts[0]);
    } else {
      HistorySpan(endpoints[1..], parts[1..]);
      DeltasTelescope(parts[0]);
      SumAppends(Deltas(parts[0]), PartDeltas(parts[1..]));
      assert BoundaryDeltas(endpoints)[1..] == BoundaryDeltas(endpoints[1..]);
    }
  }

  lemma {:induction false} SumAppends(a: seq<int>, b: seq<int>)
    ensures Sum(a + b) == Sum(a) + Sum(b)
  {
    if a == [] {
      assert a + b == b;
    } else {
      assert (a + b)[1..] == a[1..] + b;
      SumAppends(a[1..], b);
    }
  }
}
