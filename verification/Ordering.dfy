/** Sorting by a total preorder, and why sorting distinct elements has one result. */
module Ordering {
  /** Total and transitive; elements may be equivalent without being equal. */
  ghost predicate TotalPreorder<T(!new)>(leq: (T, T) -> bool) {
    && (forall a, b :: leq(a, b) || leq(b, a))
    && (forall a, b, c :: leq(a, b) && leq(b, c) ==> leq(a, c))
  }

  ghost predicate Sorted<T>(leq: (T, T) -> bool, xs: seq<T>) {
    forall i, j :: 0 <= i < j < |xs| ==> leq(xs[i], xs[j])
  }

  /** Sorted, and no two elements equivalent. */
  ghost predicate StrictlySorted<T>(leq: (T, T) -> bool, xs: seq<T>) {
    forall i, j :: 0 <= i < j < |xs| ==> !leq(xs[j], xs[i])
  }

  /** Stable insertion: x goes before the first element not below it. */
  function Insert<T>(leq: (T, T) -> bool, x: T, xs: seq<T>): seq<T> {
    if xs == [] then [x]
    else if leq(x, xs[0]) then [x] + xs
    else [xs[0]] + Insert(leq, x, xs[1..])
  }

  /** The stable sort of a sequence. */
  function Sort<T>(leq: (T, T) -> bool, xs: seq<T>): seq<T> {
    if xs == [] then [] else Insert(leq, xs[0], Sort(leq, xs[1..]))
  }

  lemma {:induction false} InsertPermutes<T>(leq: (T, T) -> bool, x: T, xs: seq<T>)
    ensures multiset(Insert(leq, x, xs)) == multiset{x} + multiset(xs)
  {
    if xs != [] {
      assert xs == [xs[0]] + xs[1..];
      if !leq(x, xs[0]) {
        InsertPermutes(leq, x, xs[1..]);
      }
    }
  }

  lemma {:induction false} SortPermutes<T>(leq: (T, T) -> bool, xs: seq<T>)
    ensures multiset(Sort(leq, xs)) == multiset(xs) && |Sort(leq, xs)| == |xs|
  {
    if xs != [] {
      SortPermutes(leq, xs[1..]);
      InsertPermutes(leq, xs[0], Sort(leq, xs[1..]));
      assert xs == [xs[0]] + xs[1..];
    }
    assert |multiset(Sort(leq, xs))| == |Sort(leq, xs)|;
  }

  lemma {:induction false} InsertKeepsSorted<T(!new)>(leq: (T, T) -> bool, x: T, xs: seq<T>)
    requires TotalPreorder(leq) && Sorted(leq, xs)
    ensures Sorted(leq, Insert(leq, x, xs))
  {
    if xs != [] && !leq(x, xs[0]) {
      var rest := Insert(leq, x, xs[1..]);
      InsertKeepsSorted(leq, x, xs[1..]);
      InsertPermutes(leq, x, xs[1..]);
      forall y | y in rest ensures leq(xs[0], y) {
        assert y in multiset(rest);
        assert y == x || y in multiset(xs[1..]);
      }
    }
  }

  lemma {:induction false} SortSorts<T(!new)>(leq: (T, T) -> bool, xs: seq<T>)
    requires TotalPreorder(leq)
    ensures Sorted(leq, Sort(leq, xs))
  {
    if xs != [] {
      SortSorts(leq, xs[1..]);
      InsertKeepsSorted(leq, xs[0], Sort(leq, xs[1..]));
    }
  }

  /** A sequence that is already sorted is its own sort. */
  lemma {:induction false} SortOfSorted<T(!new)>(leq: (T, T) -> bool, xs: seq<T>)
    requires Sorted(leq, xs)
    ensures Sort(leq, xs) == xs
  {
    if xs != [] {
      SortOfSorted(leq, xs[1..]);
      assert xs == [xs[0]] + xs[1..];
    }
  }

  /** The least element of a collection comes first in every strict arrangement. */
  lemma HeadsAgree<T(!new)>(leq: (T, T) -> bool, xs: seq<T>, ys: seq<T>)
    requires TotalPreorder(leq) && StrictlySorted(leq, xs) && StrictlySorted(leq, ys) && multiset(xs) == multiset(ys)
    requires xs != [] && ys != []
    ensures xs[0] == ys[0]
  {
    assert xs[0] in multiset(ys) && ys[0] in multiset(xs);
    var i :| 0 <= i < |xs| && xs[i] == ys[0];
    var j :| 0 <= j < |ys| && ys[j] == xs[0];
  }

  /** The strictly sorted arrangement of a collection is unique. */
  lemma {:induction false} StrictlySortedIsUnique<T(!new)>(leq: (T, T) -> bool, xs: seq<T>, ys: seq<T>)
    requires TotalPreorder(leq) && StrictlySorted(leq, xs) && StrictlySorted(leq, ys) && multiset(xs) == multiset(ys)
    ensures xs == ys
  {
    assert |xs| == |multiset(xs)| && |ys| == |multiset(ys)|;
    if xs != [] {
      HeadsAgree(leq, xs, ys);
      assert xs == [xs[0]] + xs[1..] && ys == [ys[0]] + ys[1..];
      TailsAgree(xs, ys);
      StrictlySortedIsUnique(leq, xs[1..], ys[1..]);
    }
  }

  lemma TailsAgree<T>(xs: seq<T>, ys: seq<T>)
    requires xs != [] && ys != [] && xs[0] == ys[0] && multiset(xs) == multiset(ys)
    ensures multiset(xs[1..]) == multiset(ys[1..])
  {
    assert xs == [xs[0]] + xs[1..] && ys == [ys[0]] + ys[1..];
    assert multiset(xs[1..]) == multiset(xs) - multiset{xs[0]};
    assert multiset(ys[1..]) == multiset(ys) - multiset{xs[0]};
  }

  /** No two elements, at different places, are equivalent. */
  ghost predicate Distinct<T>(leq: (T, T) -> bool, xs: seq<T>) {
    forall i, j :: 0 <= i < j < |xs| ==> !(leq(xs[i], xs[j]) && leq(xs[j], xs[i]))
  }

  lemma SortOfDistinctIsStrict<T(!new)>(leq: (T, T) -> bool, xs: seq<T>)
    requires TotalPreorder(leq) && Distinct(leq, Sort(leq, xs))
    ensures StrictlySorted(leq, Sort(leq, xs))
  {
    SortSorts(leq, xs);
  }

  /** Two equivalent elements of one arrangement are two equivalent elements of any other. */
  lemma EquivalentPairMoves<T(!new)>(leq: (T, T) -> bool, xs: seq<T>, ys: seq<T>, i: nat, j: nat) returns (at: (nat, nat))
    requires multiset(xs) == multiset(ys) && i < j < |ys| && leq(ys[i], ys[j]) && leq(ys[j], ys[i])
    ensures at.0 < at.1 < |xs| && leq(xs[at.0], xs[at.1]) && leq(xs[at.1], xs[at.0])
  {
    if ys[i] == ys[j] {
      TwiceInMultiset(ys, i, j);
      at := FindTwice(xs, ys[i]);
    } else {
      assert ys[i] in multiset(xs) && ys[j] in multiset(xs);
      var k :| 0 <= k < |xs| && xs[k] == ys[i];
      var l :| 0 <= l < |xs| && xs[l] == ys[j];
      at := if k < l then (k, l) else (l, k);
    }
  }

  /** Distinctness does not depend on the arrangement. */
  lemma DistinctIsPermutable<T(!new)>(leq: (T, T) -> bool, xs: seq<T>, ys: seq<T>)
    requires Distinct(leq, xs) && multiset(xs) == multiset(ys)
    ensures Distinct(leq, ys)
  {
    forall i, j | 0 <= i < j < |ys| ensures !(leq(ys[i], ys[j]) && leq(ys[j], ys[i])) {
      if leq(ys[i], ys[j]) && leq(ys[j], ys[i]) {
        var _ := EquivalentPairMoves(leq, xs, ys, i, j);
      }
    }
  }

  lemma TwiceInMultiset<T>(xs: seq<T>, i: nat, j: nat)
    requires i < j < |xs| && xs[i] == xs[j]
    ensures multiset(xs)[xs[i]] >= 2
  {
    assert xs == xs[..i] + [xs[i]] + xs[i + 1..j] + [xs[j]] + xs[j + 1..];
  }

  lemma {:induction false} FindTwice<T>(xs: seq<T>, x: T) returns (at: (nat, nat))
    requires multiset(xs)[x] >= 2
    ensures at.0 < at.1 < |xs| && xs[at.0] == x == xs[at.1]
  {
    assert xs == [xs[0]] + xs[1..];
    if xs[0] == x {
      assert x in multiset(xs[1..]);
      var k :| 0 <= k < |xs[1..]| && xs[1..][k] == x;
      at := (0, k + 1);
    } else {
      var rest := FindTwice(xs[1..], x);
      at := (rest.0 + 1, rest.1 + 1);
    }
  }

  lemma {:induction false} InsertBefore<T>(leq: (T, T) -> bool, x: T, xs: seq<T>, ys: seq<T>)
    requires forall y :: y in ys ==> leq(x, y)
    ensures Insert(leq, x, xs + ys) == Insert(leq, x, xs) + ys
  {
    if xs == [] {
      assert xs + ys == ys;
    } else {
      assert (xs + ys)[1..] == xs[1..] + ys;
      InsertBefore(leq, x, xs[1..], ys);
    }
  }

  /** Sorting consecutive blocks sorts each block. */
  lemma {:induction false} SortOfBlocks<T>(leq: (T, T) -> bool, xs: seq<T>, ys: seq<T>)
    requires forall x, y :: x in xs && y in ys ==> leq(x, y)
    ensures Sort(leq, xs + ys) == Sort(leq, xs) + Sort(leq, ys)
  {
    if xs == [] {
      assert xs + ys == ys;
    } else {
      assert (xs + ys)[1..] == xs[1..] + ys;
      SortOfBlocks(leq, xs[1..], ys);
      SortPermutes(leq, ys);
      forall y | y in Sort(leq, ys) ensures leq(xs[0], y) {
        assert y in multiset(ys);
      }
      InsertBefore(leq, xs[0], Sort(leq, xs[1..]), Sort(leq, ys));
    }
  }

  function Map<A, B>(f: A -> B, xs: seq<A>): (ys: seq<B>)
    ensures |ys| == |xs| && forall i :: 0 <= i < |xs| ==> ys[i] == f(xs[i])
  {
    seq(|xs|, i requires 0 <= i < |xs| => f(xs[i]))
  }

  lemma MapWithout<A, B>(f: A -> B, xs: seq<A>, k: nat)
    requires k < |xs|
    ensures multiset(Map(f, xs)) == multiset(Map(f, xs[..k] + xs[k + 1..])) + multiset{f(xs[k])}
  {
    var left, right := Map(f, xs[..k]), Map(f, xs[k + 1..]);
    assert Map(f, xs) == left + [f(xs[k])] + right;
    assert Map(f, xs[..k] + xs[k + 1..]) == left + right;
  }

  lemma MapFirst<A, B>(f: A -> B, xs: seq<A>)
    requires xs != []
    ensures multiset(Map(f, xs)) == multiset(Map(f, xs[1..])) + multiset{f(xs[0])}
  {
    hide Map;
    MapWithout(f, xs, 0);
    assert xs[..0] + xs[0 + 1..] == xs[1..];
  }

  lemma Without<A>(xs: seq<A>, k: nat)
    requires k < |xs|
    ensures multiset(xs) == multiset(xs[..k] + xs[k + 1..]) + multiset{xs[k]}
  {
    assert xs == xs[..k] + [xs[k]] + xs[k + 1..];
  }

  lemma Cancel<A>(a: multiset<A>, b: multiset<A>, x: A)
    requires a + multiset{x} == b + multiset{x}
    ensures a == b
  {
    assert a == a + multiset{x} - multiset{x} && b == b + multiset{x} - multiset{x};
  }

  lemma RestPermutes<A>(xs: seq<A>, ys: seq<A>, k: nat)
    requires xs != [] && multiset(xs) == multiset(ys) && k < |ys| && ys[k] == xs[0]
    ensures multiset(xs[1..]) == multiset(ys[..k] + ys[k + 1..])
  {
    assert xs[..0] + xs[0 + 1..] == xs[1..];
    Without(xs, 0);
    Without(ys, k);
    Cancel(multiset(xs[1..]), multiset(ys[..k] + ys[k + 1..]), xs[0]);
  }

  lemma Find<A>(xs: seq<A>, ys: seq<A>) returns (k: nat)
    requires xs != [] && multiset(xs) == multiset(ys)
    ensures k < |ys| && ys[k] == xs[0]
  {
    assert xs[0] in multiset(ys);
    k :| 0 <= k < |ys| && ys[k] == xs[0];
  }

  lemma SameSize<A>(xs: seq<A>, ys: seq<A>)
    requires multiset(xs) == multiset(ys)
    ensures |xs| == |ys|
  {
    assert |multiset(xs)| == |xs| && |multiset(ys)| == |ys|;
  }

  /** Mapping arrangements of one collection gives arrangements of one collection. */
  lemma {:induction false} MapPermutes<A, B>(f: A -> B, xs: seq<A>, ys: seq<A>)
    requires multiset(xs) == multiset(ys)
    ensures multiset(Map(f, xs)) == multiset(Map(f, ys))
    decreases |xs|
  {
    hide Map;
    SameSize(xs, ys);
    if xs == [] {
      assert ys == [];
    } else {
      var k := Find(xs, ys);
      RestPermutes(xs, ys, k);
      MapPermutes(f, xs[1..], ys[..k] + ys[k + 1..]);
      MapFirst(f, xs);
      MapWithout(f, ys, k);
    }
  }
}
