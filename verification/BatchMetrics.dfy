/** Interval metrics of one batch: the deltas of its parsed timestamps and their frequency table. */
module BatchMetrics {
  import opened Options
  import opened Intervals
  import opened Counters

  const LOW_DAILY_ROW_COUNT_THRESHOLD := 3718

  // ---------------------------------------------------------------- frequency tables

  /** The counter of a sequence. */
  function CounterOf(values: seq<int>): (c: Counter)
    ensures Counts(c, values)
    decreases |values|
  {
    if values == [] then map[] else
    var c := CounterOf(values[..|values| - 1]);
    assert values == values[..|values| - 1] + [values[|values| - 1]];
    Add(c, values[|values| - 1], 1)
  }

  /** The entries of these keys in increasing key order. */
  function Entries(c: Counter, keys: set<int>): seq<(int, int)> {
    if keys == {} then [] else
    var least := Least(keys);
    [(least, Count(c, least))] + Entries(c, keys - {least})
  }

  /** How often each value occurs, in increasing order of the values. */
  function Frequencies(values: seq<int>): seq<(int, int)> {
    var c := CounterOf(values);
    Entries(c, c.Keys)
  }

  /** Adding a frequency table, entry by entry, to a counter. */
  function Tally(c: Counter, items: seq<(int, int)>): Counter
    decreases |items|
  {
    if items == [] then c else Tally(Add(c, items[0].0, items[0].1), items[1..])
  }

  function SumOfCounts(items: seq<(int, int)>): int {
    if items == [] then 0 else items[0].1 + SumOfCounts(items[1..])
  }

  lemma {:induction false} TallyEntries(c: Counter, source: Counter, keys: set<int>, key: int)
    ensures Count(Tally(c, Entries(source, keys)), key) == Count(c, key) + if key in keys then Count(source, key) else 0
    decreases keys
  {
    if keys != {} {
      var least := Least(keys);
      TallyEntries(Add(c, least, Count(source, least)), source, keys - {least}, key);
      var items := Entries(source, keys);
      assert items[1..] == Entries(source, keys - {least});
    }
  }

  /** Adding the frequencies of one sequence to the counter of another counts both. */
  lemma TallyCounts(c: Counter, before: seq<int>, values: seq<int>)
    requires Counts(c, before)
    ensures Counts(Tally(c, Frequencies(values)), before + values)
  {
    var source := CounterOf(values);
    forall k ensures Count(Tally(c, Frequencies(values)), k) == multiset(before + values)[k] {
      TallyEntries(c, source, source.Keys, k);
      assert Count(source, k) == multiset(values)[k];
    }
  }

  lemma {:induction false} EntriesSum(c: Counter, keys: set<int>, f: int -> int)
    requires forall k :: f(k) == Count(c, k)
    ensures SumOfCounts(Entries(c, keys)) == SumOver(keys, f)
  {
    if keys != {} {
      EntriesSum(c, keys - {Least(keys)}, f);
      assert Entries(c, keys)[1..] == Entries(c, keys - {Least(keys)});
    }
  }

  lemma {:induction false} SumOfOnes(values: seq<int>)
    ensures SumOf((k: int) => 1, values) == |values|
  {
    if values != [] {
      SumOfOnes(values[1..]);
    }
  }

  /** The counts of a frequency table add up to the number of values. */
  lemma FrequenciesAreComplete(values: seq<int>)
    ensures SumOfCounts(Frequencies(values)) == |values|
  {
    var c := CounterOf(values);
    var one := (k: int) => 1;
    CountedSum(c, values, one);
    SumOfOnes(values);
    EntriesSum(c, c.Keys, Weighted(one, c));
  }

  // ---------------------------------------------------------------- batch metrics

  datatype Metrics = Metrics(
    inputRows: nat,
    validRows: nat,
    quarantineRows: nat,
    parseableTimestamps: nat,
    deltas: seq<int>,
    distribution: seq<(int, int)>,
    outOfOrder: nat,
    abnormal: nat,
    significant: nat,
    maximumGap: Option<int>,
    low: bool,
    empty: bool,
    drift: bool
  )

  datatype Warning = TimestampOrder(count: nat) | SamplingInterval(count: nat) | SignificantGaps(count: nat) | LowRowCount(count: nat)

  predicate Abnormal(delta: int) {
    delta > 0 && !(9 <= delta <= 13)
  }

  function CountWhere(holds: int -> bool, values: seq<int>): nat {
    if values == [] then 0 else (if holds(values[0]) then 1 else 0) + CountWhere(holds, values[1..])
  }

  /** The largest of the significant values. */
  function Largest(values: seq<int>): (largest: Option<int>)
    ensures largest.None? <==> forall v :: v in values ==> !Significant(v)
    ensures largest.Some? ==> largest.value in values && Significant(largest.value)
                              && forall v :: v in values && Significant(v) ==> v <= largest.value
  {
    if values == [] then None else
    var rest := Largest(values[1..]);
    assert values == [values[0]] + values[1..];
    if !Significant(values[0]) then rest
    else if rest.None? || rest.value < values[0] then Some(values[0])
    else rest
  }

  function BuildBatchMetrics(times: seq<int>, inputRows: nat, validRows: nat, quarantineRows: nat, drift: bool): Metrics {
    var deltas := Deltas(times);
    Metrics(inputRows, validRows, quarantineRows, |times|, deltas, Frequencies(deltas),
            CountWhere((d: int) => d < 0, deltas), CountWhere(Abnormal, deltas), CountWhere(Significant, deltas),
            Largest(deltas), inputRows < LOW_DAILY_ROW_COUNT_THRESHOLD, inputRows == 0, drift)
  }

  /** The order in which warnings are listed. */
  function Rank(w: Warning): nat {
    match w
    case TimestampOrder(_) => 0
    case SamplingInterval(_) => 1
    case SignificantGaps(_) => 2
    case LowRowCount(_) => 3
  }

  predicate Ranked(warnings: seq<Warning>) {
    forall i, j :: 0 <= i < j < |warnings| ==> Rank(warnings[i]) < Rank(warnings[j])
  }

  /** The batch calls for this warning, with this count. */
  predicate Warns(m: Metrics, w: Warning) {
    match w
    case TimestampOrder(count) => count == m.outOfOrder && count != 0
    case SamplingInterval(count) => count == m.abnormal && count != 0
    case SignificantGaps(count) => count == m.significant && count != 0
    case LowRowCount(count) => count == m.inputRows && m.low
  }

  lemma OneMoreWarning(warnings: seq<Warning>, w: Warning)
    requires Ranked(warnings) && forall v :: v in warnings ==> Rank(v) < Rank(w)
    ensures Ranked(warnings + [w]) && forall v :: v in warnings + [w] <==> v in warnings || v == w
  {
    hide Rank;
  }

  /** Exactly the warnings that the batch calls for, once each and in order. */
  method BuildBatchWarnings(m: Metrics) returns (warnings: seq<Warning>)
    ensures forall w :: w in warnings <==> Warns(m, w)
    ensures Ranked(warnings)
  {
    hide Ranked;
    warnings := [];
    NoWarnings();
    if m.outOfOrder != 0 {
      OneMoreWarning(warnings, TimestampOrder(m.outOfOrder));
      warnings := warnings + [TimestampOrder(m.outOfOrder)];
    }
    if m.abnormal != 0 {
      OneMoreWarning(warnings, SamplingInterval(m.abnormal));
      warnings := warnings + [SamplingInterval(m.abnormal)];
    }
    if m.significant != 0 {
      OneMoreWarning(warnings, SignificantGaps(m.significant));
      warnings := warnings + [SignificantGaps(m.significant)];
    }
    if m.low {
      OneMoreWarning(warnings, LowRowCount(m.inputRows));
      warnings := warnings + [LowRowCount(m.inputRows)];
    }
  }

  lemma NoWarnings()
    ensures Ranked([])
  {
  }

  /** The significant count is the number of gaps in the parsed times. */
  lemma {:induction false} SignificantDeltasAreGaps(times: seq<int>)
    ensures CountWhere(Significant, Deltas(times)) == GapCount(times)
  {
    if |times| >= 2 {
      SignificantDeltasAreGaps(times[1..]);
      assert Deltas(times)[1..] == Deltas(times[1..]);
    }
  }
}
