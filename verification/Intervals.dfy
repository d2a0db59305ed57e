/**
 * Gaps and intervals of timestamp sequences, and how they decompose over consecutive partitions, whether the
 * partitions are the days of a month or the months of a source range.
 */
module Intervals {
  import opened Options

  const SIGNIFICANT_GAP_SECONDS := 60

  /** Adjacent differences, in order. */
  function Deltas(times: seq<int>): seq<int> {
    if |times| < 2 then [] else [times[1] - times[0]] + Deltas(times[1..])
  }

  predicate Significant(delta: int) {
    delta > SIGNIFICANT_GAP_SECONDS
  }

  /** The adjacent differences of more than sixty seconds. */
  function GapCount(times: seq<int>): nat {
    if |times| < 2 then 0
    else (if Significant(times[1] - times[0]) then 1 else 0) + GapCount(times[1..])
  }

  function Flatten<T>(parts: seq<seq<T>>): seq<T> {
    if parts == [] then [] else parts[0] + Flatten(parts[1..])
  }

  function Sum(values: seq<int>): int {
    if values == [] then 0 else values[0] + Sum(values[1..])
  }

  function WithinGaps(parts: seq<seq<int>>): nat {
    if parts == [] then 0 else GapCount(parts[0]) + WithinGaps(parts[1..])
  }

  function Last(times: seq<int>): int
    requires times != []
  {
    times[|times| - 1]
  }

  /** The gap between one time and the first of a nonempty partition, if it is significant. */
  function Bridge(carry: Option<int>, times: seq<int>): nat {
    if carry.Some? && times != [] && Significant(times[0] - carry.value) then 1 else 0
  }

  /** Significant gaps between partitions that are direct neighbours; carry is the previous one's last time. */
  function NeighbourGaps(carry: Option<int>, parts: seq<seq<int>>): nat
    decreases |parts|
  {
    if parts == [] then 0
    else Bridge(carry, parts[0]) + NeighbourGaps(if parts[0] == [] then None else Some(Last(parts[0])), parts[1..])
  }

  /** Significant gaps that bridge one or more empty partitions. */
  function BridgingGaps(carry: Option<int>, skipped: bool, parts: seq<seq<int>>): nat
    decreases |parts|
  {
    if parts == [] then 0
    else if parts[0] == [] then BridgingGaps(carry, true, parts[1..])
    else (if skipped then Bridge(carry, parts[0]) else 0) + BridgingGaps(Some(Last(parts[0])), false, parts[1..])
  }

  lemma {:induction false} GapCountAppends(first: seq<int>, second: seq<int>)
    ensures GapCount(first + second)
         == GapCount(first) + GapCount(second) + Bridge(if first == [] then None else Some(Last(first)), second)
  {
    if first == [] {
      assert first + second == second;
    } else if |first| == 1 {
      assert (first + second)[1..] == second;
    } else {
      GapCountAppends(first[1..], second);
      assert (first + second)[1..] == first[1..] + second;
    }
  }

  lemma {:induction false} GapsDecomposeFrom(carry: Option<int>, skipped: bool, parts: seq<seq<int>>)
    ensures Bridge(carry, Flatten(parts)) + GapCount(Flatten(parts))
         == WithinGaps(parts) + NeighbourGaps(if skipped then None else carry, parts) + BridgingGaps(carry, skipped, parts)
    decreases |parts|
  {
    if parts != [] {
      var head, rest := parts[0], Flatten(parts[1..]);
      if head == [] {
        assert head + rest == rest;
        GapsDecomposeFrom(carry, true, parts[1..]);
      } else {
        GapCountAppends(head, rest);
        GapsDecomposeFrom(Some(Last(head)), false, parts[1..]);
      }
    }
  }

  /**
   * The gaps of the whole sequence are those inside its parts, those between direct neighbours, and those
   * that bridge runs of empty parts.
   */
  lemma GapsDecompose(parts: seq<seq<int>>)
    ensures GapCount(Flatten(parts)) == WithinGaps(parts) + NeighbourGaps(None, parts) + BridgingGaps(None, false, parts)
  {
    GapsDecomposeFrom(None, false, parts);
  }

  lemma {:induction false} NothingToBridge(carry: Option<int>, parts: seq<seq<int>>)
    requires forall i :: 0 <= i < |parts| ==> parts[i] != []
    ensures BridgingGaps(carry, false, parts) == 0
    decreases |parts|
  {
    if parts != [] {
      NothingToBridge(Some(Last(parts[0])), parts[1..]);
    }
  }

  lemma FirstDelta(times: seq<int>)
    requires |times| >= 2
    ensures Deltas(times) == [times[1] - times[0]] + Deltas(times[1..])
  {
  }

  lemma Regroup(a: seq<int>, b: seq<int>, c: seq<int>, d: seq<int>)
    ensures a + (b + c + d) == (a + b) + c + d
  {
  }

  lemma {:induction false} DeltasAppend(first: seq<int>, second: seq<int>)
    requires first != [] && second != []
    ensures Deltas(first + second) == Deltas(first) + [second[0] - Last(first)] + Deltas(second)
  {
    var whole, bridge := first + second, second[0] - Last(first);
    if |first| == 1 {
      assert whole[1..] == second;
      assert Deltas(first) + [bridge] == [bridge];
    } else {
      DeltasAppend(first[1..], second);
      assert whole[1..] == first[1..] + second;
      FirstDelta(whole);
      FirstDelta(first);
      Regroup([first[1] - first[0]], Deltas(first[1..]), [bridge], Deltas(second));
    }
  }

  lemma {:induction false} DeltasTelescope(times: seq<int>)
    requires times != []
    ensures Sum(Deltas(times)) == Last(times) - times[0]
  {
    if |times| > 1 {
      DeltasTelescope(times[1..]);
      assert Deltas(times)[1..] == Deltas(times[1..]);
    }
  }

  lemma {:induction false} FlattenAppends<T>(parts: seq<seq<T>>, part: seq<T>)
    ensures Flatten(parts + [part]) == Flatten(parts) + part
  {
    if parts == [] {
      assert Flatten([part]) == part + Flatten([]);
    } else {
      FlattenAppends(parts[1..], part);
      assert (parts + [part])[1..] == parts[1..] + [part];
    }
  }
}
