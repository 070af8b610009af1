/** Shared vocabulary: optional values, throwing results, Swift's `UInt64`, and filtering. */
module Common {

  datatype Option<+T> = None | Some(value: T)

  datatype Result<+T, +E> = Ok(value: T) | Err(error: E)

  const U64_MAX: int := 0xFFFF_FFFF_FFFF_FFFF

  type u64 = x: int | 0 <= x <= 0xFFFF_FFFF_FFFF_FFFF

  type byte = x: int | 0 <= x < 256

  /** A point in time, in whole seconds. */
  type Date = int

  /** Swift's `filter` (and, negated, `removeAll(where:)`). */
  function Filter<T(!new)>(xs: seq<T>, keep: T -> bool): (r: seq<T>)
    ensures |r| <= |xs|
    ensures forall x :: x in r <==> x in xs && keep(x)
  {
    if xs == [] then []
    else if keep(xs[0]) then [xs[0]] + Filter(xs[1..], keep)
    else Filter(xs[1..], keep)
  }

  /** No two positions of `xs` carry the same key. */
  ghost predicate DistinctBy<T>(xs: seq<T>, key: T -> string) {
    forall i, j :: 0 <= i < j < |xs| ==> key(xs[i]) != key(xs[j])
  }

  lemma {:induction false} FilterKeepsDistinct<T(!new)>(xs: seq<T>, keep: T -> bool, key: T -> string)
    requires DistinctBy(xs, key)
    ensures DistinctBy(Filter(xs, keep), key)
  {
    if xs == [] {
    } else {
      FilterKeepsDistinct(xs[1..], keep, key);
      var rest := Filter(xs[1..], keep);
      assert forall j :: 0 <= j < |rest| ==> rest[j] in xs[1..];
    }
  }

  lemma {:induction false} FilterAll<T(!new)>(xs: seq<T>, keep: T -> bool)
    requires forall x :: x in xs ==> keep(x)
    ensures Filter(xs, keep) == xs
  {
    if xs != [] {
      FilterAll(xs[1..], keep);
    }
  }

  lemma {:induction false} FilterNone<T(!new)>(xs: seq<T>, keep: T -> bool)
    requires forall x :: x in xs ==> !keep(x)
    ensures Filter(xs, keep) == []
  {
    if xs != [] {
      FilterNone(xs[1..], keep);
    }
  }

  lemma DistinctByPosition<T>(xs: seq<T>, key: T -> string, i: nat, j: nat)
    requires DistinctBy(xs, key) && i < |xs| && j < |xs| && key(xs[i]) == key(xs[j])
    ensures i == j
  {
  }

  /** The key identifies the element. */
  lemma DistinctByIdentifies<T>(xs: seq<T>, key: T -> string, x: T, y: T)
    requires DistinctBy(xs, key)
    requires x in xs && y in xs && key(x) == key(y)
    ensures x == y
  {
  }
}
