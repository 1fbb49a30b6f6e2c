/** Shared vocabulary: optional values, failures, instants and identifiers. */
module Basics {

  datatype Option<+T> = None | Some(value: T)

  /** A thrown error is `Err`: it leaves its transaction through rollback. */
  datatype Result<+T> = Ok(value: T) | Err(message: string)

  /** Milliseconds since the epoch. */
  type Instant = int

  /** A uuid, as its position in uuid order. */
  type Id = nat

  const SECOND_MS: int := 1000
  const MINUTE_MS: int := 60 * SECOND_MS
  const HOUR_MS: int := 60 * MINUTE_MS
  const DAY_MS: int := 24 * HOUR_MS

  /** 2^53 - 1: the largest whole amount a JS number holds exactly. */
  const MAX_SAFE_INTEGER: nat := 9007199254740991

  function Min(a: int, b: int): int { if a <= b then a else b }
}

/** Sorting a finite set by a strict total order: `ORDER BY` over a key. */
module Ordering {

  ghost predicate StrictTotalOrder<T(!new)>(less: (T, T) -> bool) {
    && (forall a :: !less(a, a))
    && (forall a, b, c :: less(a, b) && less(b, c) ==> less(a, c))
    && (forall a, b :: a == b || less(a, b) || less(b, a))
  }

  ghost predicate Increasing<T>(xs: seq<T>, less: (T, T) -> bool) {
    forall i, j | 0 <= i < j < |xs| :: less(xs[i], xs[j])
  }

  /** `m` is the least element of `s`. */
  ghost predicate Least<T>(m: T, s: set<T>, less: (T, T) -> bool) {
    m in s && forall x | x in s :: x == m || less(m, x)
  }

  lemma LeastExists<T(!new)>(s: set<T>, less: (T, T) -> bool)
    requires s != {} && StrictTotalOrder(less)
    ensures exists m :: Least(m, s, less)
    decreases |s|
  {
    var a :| a in s;
    var rest := s - {a};
    if rest == {} {
      assert s == {a};
      assert Least(a, s, less);
    } else {
      LeastExists(rest, less);
      var m :| Least(m, rest, less);
      LeastWith(rest, a, m, less);
      assert s == rest + {a};
    }
  }

  lemma LeastWith<T(!new)>(rest: set<T>, a: T, m: T, less: (T, T) -> bool)
    requires StrictTotalOrder(less) && Least(m, rest, less) && a !in rest
    ensures Least(if less(a, m) then a else m, rest + {a}, less)
  {
  }

  function Sorted<T(!new)>(s: set<T>, less: (T, T) -> bool): (r: seq<T>)
    requires StrictTotalOrder(less)
    ensures |r| == |s|
    ensures forall x :: x in r <==> x in s
    ensures Increasing(r, less)
    decreases |s|
  {
    if s == {} then []
    else
      LeastExists(s, less);
      assert exists m :: m in s && forall x | x in s :: x == m || less(m, x) by {
        var least :| Least(least, s, less);
      }
      var m :| m in s && forall x | x in s :: x == m || less(m, x);
      [m] + Sorted(s - {m}, less)
  }

  /** An element of an increasing list is its head or comes after it. */
  lemma HeadIsLeast<T(!new)>(xs: seq<T>, less: (T, T) -> bool)
    requires StrictTotalOrder(less) && Increasing(xs, less) && xs != []
    ensures forall x :: x in xs <==> x == xs[0] || x in xs[1..]
    ensures forall x | x in xs[1..] :: less(xs[0], x)
    ensures Increasing(xs[1..], less)
  {
  }

  /** An increasing list is determined by its elements. */
  lemma {:induction false} IncreasingUnique<T(!new)>(xs: seq<T>, ys: seq<T>, less: (T, T) -> bool)
    requires StrictTotalOrder(less)
    requires Increasing(xs, less) && Increasing(ys, less)
    requires forall x :: x in xs <==> x in ys
    ensures xs == ys
    decreases |xs|
  {
    if xs == [] {
      assert forall i | 0 <= i < |ys| :: ys[i] in xs;
    } else {
      assert xs[0] in ys;
      HeadIsLeast(xs, less);
      HeadIsLeast(ys, less);
      assert ys[0] in xs;
      assert xs[0] == ys[0];
      IncreasingUnique(xs[1..], ys[1..], less);
    }
  }

  /** Cutting an increasing list: the two parts are increasing, disjoint and in order. */
  lemma Cut<T(!new)>(xs: seq<T>, n: nat, less: (T, T) -> bool)
    requires StrictTotalOrder(less) && Increasing(xs, less) && n <= |xs|
    ensures Increasing(xs[..n], less) && Increasing(xs[n..], less)
    ensures forall x :: x in xs <==> x in xs[..n] || x in xs[n..]
    ensures forall x, y | x in xs[..n] && y in xs[n..] :: less(x, y)
    ensures forall x | x in xs[..n] :: x !in xs[n..]
  {
  }

  /** Sorting what is left after taking a prefix of the sorted list is dropping that prefix. */
  lemma SortedDrop<T(!new)>(s: set<T>, n: nat, less: (T, T) -> bool)
    requires StrictTotalOrder(less) && n <= |s|
    ensures Sorted(s - (set x | x in Sorted(s, less)[..n]), less) == Sorted(s, less)[n..]
  {
    var all := Sorted(s, less);
    Cut(all, n, less);
    var rest := s - (set x | x in all[..n]);
    assert forall x :: x in all[n..] <==> x in rest;
    IncreasingUnique(Sorted(rest, less), all[n..], less);
  }
}

/** Distinct sequences, sizes of sets, and the arithmetic of batches. */
module Counting {

  predicate Distinct<T(==)>(xs: seq<T>) {
    forall i, j | 0 <= i < j < |xs| :: xs[i] != xs[j]
  }

  function Elems<T>(xs: seq<T>): set<T> { set x | x in xs }

  /** A sequence names as many values as it has entries exactly when no entry repeats. */
  lemma {:induction false} DistinctIffFull<T>(xs: seq<T>)
    ensures |Elems(xs)| <= |xs|
    ensures |Elems(xs)| == |xs| <==> Distinct(xs)
  {
    if xs == [] {
    } else {
      var last := |xs| - 1;
      var front := xs[..last];
      DistinctIffFull(front);
      assert xs == front + [xs[last]];
      assert Elems(xs) == Elems(front) + {xs[last]};
      assert Distinct(xs) <==> Distinct(front) && xs[last] !in front;
    }
  }

  lemma SubsetSizes<T>(a: set<T>, b: set<T>)
    requires a <= b
    ensures |a| <= |b|
    ensures |a| == |b| ==> a == b
  {
    assert b == a + (b - a);
  }

  lemma PrefixDistinct<T>(xs: seq<T>, n: nat)
    requires Distinct(xs) && n <= |xs|
    ensures Distinct(xs[..n])
  {
  }

  lemma ProductGrows(size: nat, a: nat, b: nat)
    requires a <= b
    ensures size * a <= size * b
  {
  }
}
