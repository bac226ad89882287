/**
 * The list operations the screens build from `Array.prototype.filter` and
 * spread: keep the elements that satisfy a predicate, remove every
 * occurrence of a value, and the membership toggle used by the interest,
 * highlight and like buttons.
 */
module Lists {

  /** `xs.filter(p)`: the elements satisfying `p`, in their original order. */
  function Filter<T>(xs: seq<T>, p: T -> bool): (r: seq<T>)
    ensures |r| <= |xs|
    ensures forall i :: 0 <= i < |r| ==> p(r[i])
  {
    if xs == [] then [] else (if p(xs[0]) then [xs[0]] else []) + Filter(xs[1..], p)
  }

  /** Filtering only ever keeps elements of the list. */
  lemma {:induction false} FilterSubset<T>(xs: seq<T>, p: T -> bool)
    ensures forall i :: 0 <= i < |Filter(xs, p)| ==> Filter(xs, p)[i] in xs
  {
    if xs != [] {
      FilterSubset(xs[1..], p);
    }
  }

  /** Filtering a concatenation filters each part: the kept elements stay in order. */
  lemma {:induction false} FilterAppend<T>(a: seq<T>, b: seq<T>, p: T -> bool)
    ensures Filter(a + b, p) == Filter(a, p) + Filter(b, p)
  {
    if a == [] {
      assert a + b == b;
    } else {
      assert (a + b)[1..] == a[1..] + b;
      FilterAppend(a[1..], b, p);
    }
  }

  /** Filtering a list with a given head decides the head, then filters the rest. */
  lemma FilterCons<T>(x: T, xs: seq<T>, p: T -> bool)
    ensures Filter([x] + xs, p) == (if p(x) then [x] else []) + Filter(xs, p)
  {
    assert ([x] + xs)[1..] == xs;
  }

  /** Each value keeps all its occurrences when it satisfies `p` and loses all of them otherwise. */
  lemma {:induction false} FilterCount<T>(xs: seq<T>, p: T -> bool, x: T)
    ensures multiset(Filter(xs, p))[x] == if p(x) then multiset(xs)[x] else 0
  {
    if xs != [] {
      assert xs == [xs[0]] + xs[1..];
      FilterCount(xs[1..], p, x);
    }
  }

  /** Filtering with a predicate every element satisfies changes nothing. */
  lemma {:induction false} FilterKeepsAll<T>(xs: seq<T>, p: T -> bool)
    requires forall i :: 0 <= i < |xs| ==> p(xs[i])
    ensures Filter(xs, p) == xs
  {
    if xs != [] {
      FilterKeepsAll(xs[1..], p);
    }
  }

  /** Filtering with a predicate no element satisfies leaves nothing. */
  lemma {:induction false} FilterDropsAll<T>(xs: seq<T>, p: T -> bool)
    requires forall i :: 0 <= i < |xs| ==> !p(xs[i])
    ensures Filter(xs, p) == []
  {
    if xs != [] {
      FilterDropsAll(xs[1..], p);
    }
  }

  /** Two predicates that agree on every value filter alike. */
  lemma {:induction false} FilterExtensional<T>(xs: seq<T>, p: T -> bool, q: T -> bool)
    requires forall i :: 0 <= i < |xs| ==> p(xs[i]) == q(xs[i])
    ensures Filter(xs, p) == Filter(xs, q)
  {
    if xs != [] {
      FilterExtensional(xs[1..], p, q);
    }
  }

  /** Filtering twice is filtering once with the conjunction. */
  lemma {:induction false} FilterTwice<T>(xs: seq<T>, p: T -> bool, q: T -> bool, pq: T -> bool)
    requires forall i :: 0 <= i < |xs| ==> pq(xs[i]) == (p(xs[i]) && q(xs[i]))
    ensures Filter(Filter(xs, p), q) == Filter(xs, pq)
  {
    if xs != [] {
      var head := if p(xs[0]) then [xs[0]] else [];
      FilterAppend(head, Filter(xs[1..], p), q);
      FilterTwice(xs[1..], p, q, pq);
    }
  }

  /** The elements satisfying `p` and those failing it together make up the whole list. */
  lemma {:induction false} FilterPartition<T>(xs: seq<T>, p: T -> bool, notP: T -> bool)
    requires forall x :: notP(x) == !p(x)
    ensures multiset(Filter(xs, p)) + multiset(Filter(xs, notP)) == multiset(xs)
  {
    if xs != [] {
      var h, t := xs[0], xs[1..];
      FilterPartition(t, p, notP);
      FilterCons(h, t, p);
      FilterCons(h, t, notP);
      assert xs == [h] + t;
      PartitionStep(h, multiset(t), multiset(Filter(t, p)), multiset(Filter(t, notP)), p(h));
    }
  }

  /** One step of the partition: the head joins the side that keeps it. */
  lemma PartitionStep<T>(h: T, m: multiset<T>, a: multiset<T>, b: multiset<T>, left: bool)
    requires a + b == m
    ensures (if left then multiset{h} + a else a) + (if left then b else multiset{h} + b) == multiset{h} + m
  {
  }

  /** `xs.filter(y => y !== x)`: every occurrence of `x` removed, the rest kept in order. */
  function RemoveAll<T(==)>(xs: seq<T>, x: T): (r: seq<T>)
    ensures x !in r
    ensures forall i :: 0 <= i < |r| ==> r[i] in xs
    ensures forall i :: 0 <= i < |xs| && xs[i] != x ==> xs[i] in r
  {
    var r := Filter(xs, y => y != x);
    FilterSubset(xs, y => y != x);
    assert forall i :: 0 <= i < |xs| && xs[i] != x ==> xs[i] in r by {
      forall i | 0 <= i < |xs| && xs[i] != x ensures xs[i] in r {
        FilterCount(xs, y => y != x, xs[i]);
      }
    }
    r
  }

  /** Removing a value that does not occur changes nothing. */
  lemma RemoveAbsent<T>(xs: seq<T>, x: T)
    requires x !in xs
    ensures RemoveAll(xs, x) == xs
  {
    FilterKeepsAll(xs, y => y != x);
  }

  /** Removing from a concatenation removes from each part. */
  lemma RemoveAllAppend<T>(a: seq<T>, b: seq<T>, x: T)
    ensures RemoveAll(a + b, x) == RemoveAll(a, x) + RemoveAll(b, x)
  {
    FilterAppend(a, b, y => y != x);
  }

  /**
   * The toggle behind the interest, highlight and like buttons:
   * `xs.includes(x) ? xs.filter(y => y !== x) : [...xs, x]`.
   */
  function Toggle<T(==)>(xs: seq<T>, x: T): (r: seq<T>)
    ensures x in r <==> x !in xs
    ensures x in xs ==> r == RemoveAll(xs, x)
    ensures x !in xs ==> r == xs + [x]
  {
    if x in xs then RemoveAll(xs, x) else xs + [x]
  }

  /** Toggling leaves every other value with exactly the occurrences it had, in the same order. */
  lemma ToggleKeepsOthers<T>(xs: seq<T>, x: T)
    ensures Filter(Toggle(xs, x), y => y != x) == Filter(xs, y => y != x)
    ensures forall y :: y != x ==> multiset(Toggle(xs, x))[y] == multiset(xs)[y]
  {
    var notX := (y: T) => y != x;
    if x in xs {
      FilterTwice(xs, notX, notX, notX);
    } else {
      FilterAppend(xs, [x], notX);
      assert Filter([x], notX) == [];
    }
    forall y | y != x ensures multiset(Toggle(xs, x))[y] == multiset(xs)[y] {
      FilterCount(Toggle(xs, x), notX, y);
      FilterCount(xs, notX, y);
    }
  }

  /** Toggling an absent value twice gives back the original list. */
  lemma ToggleTwiceRestores<T>(xs: seq<T>, x: T)
    requires x !in xs
    ensures Toggle(Toggle(xs, x), x) == xs
  {
    var notX := (y: T) => y != x;
    FilterAppend(xs, [x], notX);
    assert Filter([x], notX) == [];
    FilterKeepsAll(xs, notX);
  }
}
