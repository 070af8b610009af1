/** Strings in order, sorted sets of strings, and the round-robin cursor over them.

    Swift orders strings by Unicode scalars after normalisation; here the order is
    lexicographic on characters. Only its being a total order is ever used. */
module Text {
  import opened Common

  predicate Less(a: string, b: string) {
    if b == "" then false
    else if a == "" then true
    else if a[0] != b[0] then a[0] < b[0]
    else Less(a[1..], b[1..])
  }

  lemma {:induction false} LessIsTotal(a: string, b: string)
    ensures Less(a, b) || Less(b, a) || a == b
    ensures !(Less(a, b) && Less(b, a))
    ensures a == b ==> !Less(a, b)
  {
    if a != "" && b != "" {
      LessIsTotal(a[1..], b[1..]);
      if a[0] == b[0] {
        assert a == [a[0]] + a[1..] && b == [b[0]] + b[1..];
      }
    }
  }

  lemma {:induction false} LessIsTransitive(a: string, b: string, c: string)
    requires Less(a, b) && Less(b, c)
    ensures Less(a, c)
  {
    if a != "" && b != "" && c != "" && a[0] == b[0] == c[0] {
      LessIsTransitive(a[1..], b[1..], c[1..]);
    }
  }

  predicate StrictlySorted(xs: seq<string>) {
    forall i, j :: 0 <= i < j < |xs| ==> Less(xs[i], xs[j])
  }

  function Insert(x: string, xs: seq<string>): (r: seq<string>)
    requires StrictlySorted(xs)
    ensures StrictlySorted(r)
    ensures forall y :: y in r <==> y == x || y in xs
  {
    if xs == [] then [x]
    else if x == xs[0] then xs
    else if Less(x, xs[0]) then
      assert forall j :: 0 <= j < |xs| ==> Less(x, xs[j]) by {
        forall j | 0 <= j < |xs| ensures Less(x, xs[j]) {
          if j > 0 { LessIsTransitive(x, xs[0], xs[j]); }
        }
      }
      [x] + xs
    else
      LessIsTotal(x, xs[0]);
      var rest := Insert(x, xs[1..]);
      assert forall j :: 0 <= j < |rest| ==> Less(xs[0], rest[j]) by {
        forall j | 0 <= j < |rest| ensures Less(xs[0], rest[j]) {
          assert rest[j] in rest;
        }
      }
      [xs[0]] + rest
  }

  /** `Array(Set(xs)).sorted()`. */
  function SortedSet(xs: seq<string>): (r: seq<string>)
    ensures StrictlySorted(r)
    ensures forall y :: y in r <==> y in xs
  {
    if xs == [] then [] else Insert(xs[0], SortedSet(xs[1..]))
  }

  lemma StrictlySortedIsDistinct(xs: seq<string>, i: nat, j: nat)
    requires StrictlySorted(xs) && i < |xs| && j < |xs| && xs[i] == xs[j]
    ensures i == j
  {
    LessIsTotal(xs[i], xs[i]);
  }

  /** A set has one sorted form, so the rotation only depends on which members there are. */
  lemma {:induction false} SortedFormIsUnique(xs: seq<string>, ys: seq<string>)
    requires StrictlySorted(xs) && StrictlySorted(ys)
    requires forall z :: z in xs <==> z in ys
    ensures xs == ys
  {
    assert forall k :: 0 <= k < |xs| ==> xs[k] in ys;
    assert forall k :: 0 <= k < |ys| ==> ys[k] in xs;
    if xs != [] && ys != [] {
      var i :| 0 <= i < |ys| && ys[i] == xs[0];
      var j :| 0 <= j < |xs| && xs[j] == ys[0];
      LessIsTotal(xs[0], ys[0]);
      assert xs[0] == ys[0];
      forall z ensures z in xs[1..] <==> z in ys[1..] {
        LessIsTotal(xs[0], xs[0]);
        if z in xs[1..] {
          assert Less(xs[0], z) && z in ys;
        }
        if z in ys[1..] {
          assert Less(ys[0], z) && z in xs;
        }
      }
      SortedFormIsUnique(xs[1..], ys[1..]);
    }
  }

  /** First position of `x`, or the length when absent (`firstIndex(of:)`). */
  function IndexOf(xs: seq<string>, x: string): (k: nat)
    ensures k <= |xs|
    ensures k < |xs| ==> xs[k] == x
    ensures x in xs <==> k < |xs|
  {
    if xs == [] then 0 else if xs[0] == x then 0 else 1 + IndexOf(xs[1..], x)
  }

  /** The member after the cursor in sorted order, wrapping round; the first when the
      cursor is unset or no longer a member. */
  function NextInRotation(members: seq<string>, cursor: Option<string>): (r: string)
    requires members != []
    ensures r in members
  {
    if cursor.Some? && cursor.value in members
    then members[(IndexOf(members, cursor.value) + 1) % |members|]
    else members[0]
  }

  /** `visits` are consecutive picks of the rotation over an unchanged sorted member list. */
  ghost predicate ConsecutivePicks(members: seq<string>, visits: seq<string>) {
    members != [] && visits != [] && visits[0] in members
    && forall j, k :: 0 <= j < k < |visits| && k == j + 1 ==> visits[k] == NextInRotation(members, Some(visits[j]))
  }

  /** Position `k` steps after `start` on a ring of `n` places, for at most one turn. */
  function Ahead(n: nat, start: nat, k: nat): nat
    requires start < n && k <= n
  {
    if start + k < n then start + k else start + k - n
  }

  lemma StepOnRing(n: nat, k: nat)
    requires k < n
    ensures (k + 1) % n == Ahead(n, k, 1)
  {
    if k + 1 < n {
      assert (k + 1) % n == k + 1;
    }
  }

  lemma {:induction false} PicksAdvance(members: seq<string>, visits: seq<string>, k: nat)
    requires StrictlySorted(members) && ConsecutivePicks(members, visits)
    requires k < |visits| <= |members|
    ensures visits[k] == members[Ahead(|members|, IndexOf(members, visits[0]), k)]
  {
    if k != 0 {
      PicksAdvance(members, visits, k - 1);
      var at := Ahead(|members|, IndexOf(members, visits[0]), k - 1);
      StrictlySortedIsDistinct(members, IndexOf(members, visits[k - 1]), at);
      StepOnRing(|members|, at);
    }
  }

  /** Any |members| consecutive picks visit every member exactly once. */
  lemma RotationVisitsEachOnce(members: seq<string>, visits: seq<string>)
    requires StrictlySorted(members) && ConsecutivePicks(members, visits)
    requires |visits| == |members|
    ensures forall i, j :: 0 <= i < j < |visits| ==> visits[i] != visits[j]
    ensures forall x :: x in members <==> x in visits
  {
    var n := |members|;
    var start := IndexOf(members, visits[0]);
    forall i, j | 0 <= i < j < |visits| ensures visits[i] != visits[j] {
      PicksAdvance(members, visits, i);
      PicksAdvance(members, visits, j);
      if visits[i] == visits[j] {
        StrictlySortedIsDistinct(members, Ahead(n, start, i), Ahead(n, start, j));
      }
    }
    forall x | x in members ensures x in visits {
      var p := IndexOf(members, x);
      var k := if p >= start then p - start else p - start + n;
      PicksAdvance(members, visits, k);
    }
    forall x | x in visits ensures x in members {
      var k :| 0 <= k < |visits| && visits[k] == x;
      PicksAdvance(members, visits, k);
    }
  }

  function PickAt(members: seq<string>, cursors: seq<Option<string>>, k: nat): string
    requires members != [] && k < |cursors|
  {
    NextInRotation(members, cursors[k])
  }

  lemma CursorsPick(members: seq<string>, cursors: seq<Option<string>>) returns (visits: seq<string>)
    requires |cursors| == |members| > 0
    requires forall j, k :: 0 <= j < k < |cursors| && k == j + 1 ==> cursors[k] == Some(PickAt(members, cursors, j))
    ensures ConsecutivePicks(members, visits) && |visits| == |members|
    ensures forall k :: 0 <= k < |visits| ==> visits[k] == PickAt(members, cursors, k)
  {
    visits := seq(|cursors|, k requires 0 <= k < |cursors| => PickAt(members, cursors, k));
  }

  /** The same, told by the cursor before each pick. */
  lemma CursorVisitsEachOnce(members: seq<string>, cursors: seq<Option<string>>)
    requires StrictlySorted(members) && |cursors| == |members| > 0
    requires forall j, k :: 0 <= j < k < |cursors| && k == j + 1 ==> cursors[k] == Some(PickAt(members, cursors, j))
    ensures forall j, k :: 0 <= j < k < |cursors| ==> PickAt(members, cursors, j) != PickAt(members, cursors, k)
    ensures forall x :: x in members ==> exists k :: 0 <= k < |cursors| && PickAt(members, cursors, k) == x
  {
    var visits := CursorsPick(members, cursors);
    RotationVisitsEachOnce(members, visits);
    forall x | x in members ensures exists k :: 0 <= k < |cursors| && PickAt(members, cursors, k) == x {
      assert x in visits;
      var k :| 0 <= k < |visits| && visits[k] == x;
      assert PickAt(members, cursors, k) == x;
    }
  }
}
