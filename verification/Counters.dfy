/**
 * Counters of integers. A missing key counts as zero, and adding two counters keeps only the positive results,
 * so counts that are not positive make a sum of counters differ from the sum of their totals.
 */
module Counters {
  type Counter = map<int, int>

  function Count(c: Counter, key: int): int {
    if key in c then c[key] else 0
  }

  function Add(c: Counter, key: int, amount: int): (sum: Counter)
    ensures forall k :: Count(sum, k) == Count(c, k) + if k == key then amount else 0
  {
    c[key := Count(c, key) + amount]
  }

  /** The sum of two counters, without the keys whose result is zero or negative. */
  function Plus(a: Counter, b: Counter): (sum: Counter)
    ensures forall k :: Count(sum, k) == if Count(a, k) + Count(b, k) > 0 then Count(a, k) + Count(b, k) else 0
    ensures sum.Keys <= a.Keys + b.Keys
  {
    map k | k in a.Keys + b.Keys && Count(a, k) + Count(b, k) > 0 :: Count(a, k) + Count(b, k)
  }

  // ---------------------------------------------------------------- sums over keys

  lemma Member<T>(keys: set<T>) returns (key: T)
    requires keys != {}
    ensures key in keys
  {
    key :| key in keys;
  }

  lemma {:induction false} LeastExists(keys: set<int>)
    requires keys != {}
    ensures exists k :: k in keys && forall j :: j in keys ==> k <= j
  {
    var one := Member(keys);
    var rest := keys - {one};
    if rest == {} {
      assert keys == {one};
    } else {
      LeastExists(rest);
      var k :| k in rest && forall j :: j in rest ==> k <= j;
      var least := if one < k then one else k;
      assert forall j :: j in keys ==> j == one || j in rest;
      assert least in keys && forall j :: j in keys ==> least <= j;
    }
  }

  function Least(keys: set<int>): (least: int)
    requires keys != {}
    ensures least in keys && forall j :: j in keys ==> least <= j
  {
    LeastExists(keys);
    var least :| least in keys && forall j :: j in keys ==> least <= j;
    least
  }

  function SumOver(keys: set<int>, f: int -> int): int {
    if keys == {} then 0 else
    var least := Least(keys);
    f(least) + SumOver(keys - {least}, f)
  }

  lemma {:induction false} SumWithout(keys: set<int>, f: int -> int, key: int)
    requires key in keys
    ensures SumOver(keys, f) == f(key) + SumOver(keys - {key}, f)
  {
    var least := Least(keys);
    if key != least {
      SumWithout(keys - {least}, f, key);
      var rest := keys - {key};
      assert keys - {least} - {key} == rest - {least};
      assert least in rest;
      assert forall j :: j in rest ==> j in keys;
      assert Least(rest) == least;
    }
  }

  /** Sums are monotone, and equal only when every term is. */
  lemma {:induction false} SumCompares(keys: set<int>, f: int -> int, g: int -> int)
    requires forall k :: k in keys ==> f(k) <= g(k)
    ensures SumOver(keys, f) <= SumOver(keys, g)
    ensures SumOver(keys, f) == SumOver(keys, g) <==> forall k :: k in keys ==> f(k) == g(k)
  {
    if keys != {} {
      SumCompares(keys - {Least(keys)}, f, g);
      assert forall k :: k in keys ==> k == Least(keys) || k in keys - {Least(keys)};
    }
  }

  lemma {:induction false} SumAdds(keys: set<int>, f: int -> int, g: int -> int, h: int -> int)
    requires forall k :: k in keys ==> h(k) == f(k) + g(k)
    ensures SumOver(keys, h) == SumOver(keys, f) + SumOver(keys, g)
  {
    if keys != {} {
      SumAdds(keys - {Least(keys)}, f, g, h);
    }
  }

  lemma {:induction false} SumIgnoresZeros(keys: set<int>, more: set<int>, f: int -> int)
    requires keys <= more && forall k :: k in more && k !in keys ==> f(k) == 0
    ensures SumOver(more, f) == SumOver(keys, f)
    decreases more
  {
    if keys == more {
    } else {
      assert more - keys != {} by { assert keys + (more - keys) == more; }
      var extra := Member(more - keys);
      SumWithout(more, f, extra);
      SumIgnoresZeros(keys, more - {extra}, f);
    }
  }

  // ---------------------------------------------------------------- counting a sequence

  function SumOf(g: int -> int, values: seq<int>): int {
    if values == [] then 0 else g(values[0]) + SumOf(g, values[1..])
  }

  /** The counter holds the multiplicities of the values. */
  ghost predicate Counts(c: Counter, values: seq<int>) {
    forall k :: Count(c, k) == multiset(values)[k]
  }

  function Weighted(g: int -> int, c: Counter): int -> int {
    (k: int) => g(k) * Count(c, k)
  }

  lemma OneMore(weight: int, count: int)
    ensures weight * count == weight * (count - 1) + weight
  {
  }

  /** Counting one value more adds its weight once. */
  lemma CountedOnce(c: Counter, less: Counter, key: int, g: int -> int)
    requires key in c && less.Keys == c.Keys
    requires forall k :: Count(c, k) == Count(less, k) + if k == key then 1 else 0
    ensures SumOver(c.Keys, Weighted(g, c)) == g(key) + SumOver(c.Keys, Weighted(g, less))
  {
    hide SumOver;
    SumWithout(c.Keys, Weighted(g, c), key);
    SumWithout(c.Keys, Weighted(g, less), key);
    SumCompares(c.Keys - {key}, Weighted(g, c), Weighted(g, less));
    OneMore(g(key), Count(c, key));
  }

  /** Summing a weight over a counter is summing it over what was counted. */
  lemma {:induction false} CountedSum(c: Counter, values: seq<int>, g: int -> int)
    requires Counts(c, values)
    ensures SumOver(c.Keys, Weighted(g, c)) == SumOf(g, values)
    decreases |values|
  {
    if values == [] {
      SumIgnoresZeros({}, c.Keys, Weighted(g, c));
    } else {
      var head, tail := values[0], values[1..];
      assert values == [head] + tail;
      assert Count(c, head) == multiset(values)[head] > 0;
      var less := Add(c, head, -1);
      CountedSum(less, tail, g);
      CountedOnce(c, less, head, g);
    }
  }
}
