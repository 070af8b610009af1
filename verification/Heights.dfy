/** Block-height arithmetic: the canonical expiry window, the re-spreading of overdue
    transactions, and the feasibility test that guards it. All heights are 64-bit. */
module Heights {
  import opened Common

  function SaturatingAdd(a: u64, b: u64): u64 {
    if a + b > U64_MAX then U64_MAX else a + b
  }

  const EXPIRY_MODULUS: u64 := 34560

  /** The one expiry height that a transaction broadcast at `tip` may carry. */
  function CanonicalExpiry(tip: u64): Option<u64> {
    var boundary := tip - tip % EXPIRY_MODULUS;
    if boundary + 2 * EXPIRY_MODULUS > U64_MAX then None
    else Some(boundary + 2 * EXPIRY_MODULUS)
  }

  /** It is the only multiple of 34,560 that is more than one and at most two windows
      above the tip, and it is missing exactly when that multiple is not a `UInt64`. */
  lemma CanonicalExpiryIsTheWindowMultiple(tip: u64, m: nat)
    ensures var e := m * 34560;
            tip + 34560 < e <= tip + 69120 ==>
              CanonicalExpiry(tip) == (if e <= U64_MAX then Some(e) else None)
    ensures CanonicalExpiry(tip).Some? ==>
              var e := CanonicalExpiry(tip).value;
              e % 34560 == 0 && tip + 34560 < e <= tip + 69120
  {
    assert tip == 34560 * (tip / 34560) + tip % 34560;
  }

  /** The random delay: an arbitrary draw, clamped to at least one and at most `maxBlocks`. */
  function SampleDelay(draw: nat, maxBlocks: u64): (d: u64)
    requires maxBlocks > 0
    ensures 1 <= d <= maxBlocks
  {
    var sampled := if draw < 1 then 1 else draw;
    if sampled < maxBlocks then sampled else maxBlocks
  }

  // ---------- sorting ----------

  predicate SortedOn(xs: seq<nat>, key: nat -> int) {
    forall i, j :: 0 <= i < j < |xs| ==> key(xs[i]) <= key(xs[j])
  }

  function InsertOn(x: nat, xs: seq<nat>, key: nat -> int): (r: seq<nat>)
    requires SortedOn(xs, key)
    ensures SortedOn(r, key)
    ensures multiset(r) == multiset{x} + multiset(xs)
  {
    if xs == [] then [x]
    else if key(x) <= key(xs[0]) then [x] + xs
    else
      assert xs == [xs[0]] + xs[1..];
      var rest := InsertOn(x, xs[1..], key);
      assert forall j :: 0 <= j < |rest| ==> key(xs[0]) <= key(rest[j]) by {
        forall j | 0 <= j < |rest| ensures key(xs[0]) <= key(rest[j]) {
          assert rest[j] in multiset(rest);
        }
      }
      [xs[0]] + rest
  }

  /** `sort(by:)` on a key. */
  function SortOn(xs: seq<nat>, key: nat -> int): (r: seq<nat>)
    ensures SortedOn(r, key)
    ensures multiset(r) == multiset(xs)
  {
    if xs == [] then []
    else
      assert xs == [xs[0]] + xs[1..];
      InsertOn(xs[0], SortOn(xs[1..], key), key)
  }

  function Itself(x: nat): int { x }

  function SortHeights(xs: seq<nat>): (r: seq<nat>)
    ensures SortedOn(r, Itself)
    ensures multiset(r) == multiset(xs)
  {
    SortOn(xs, Itself)
  }

  /** Fisher-Yates, drawing each swap distance from `swaps`. */
  function Shuffle(xs: seq<nat>, swaps: nat -> nat, from: nat): (r: seq<nat>)
    requires from <= |xs|
    ensures multiset(r) == multiset(xs)
    decreases |xs| - from
  {
    if |xs| - from <= 1 then xs
    else
      var other := from + swaps(from) % (|xs| - from);
      Shuffle(xs[from := xs[other]][other := xs[from]], swaps, from + 1)
  }

  // ---------- feasibility ----------

  /** The test run before a broadcast: give each expiry, soonest first, the next free height. */
  predicate Fits(next: nat, expiries: seq<nat>)
    decreases |expiries|
  {
    expiries == [] || (
      var candidate := next + 1;
      candidate <= U64_MAX && candidate < expiries[0] && Fits(candidate, expiries[1..]))
  }

  /** `slots` gives every peer its own height above the tip and below its expiry. */
  ghost predicate IsAssignment(tip: nat, expiries: seq<nat>, slots: seq<nat>) {
    && |slots| == |expiries|
    && (forall i :: 0 <= i < |slots| ==> tip < slots[i] < expiries[i])
    && (forall i, j :: 0 <= i < j < |slots| ==> slots[i] != slots[j])
  }

  ghost predicate Feasible(tip: nat, expiries: seq<nat>) {
    exists slots :: IsAssignment(tip, expiries, slots)
  }

  ghost predicate U64s(xs: seq<nat>) {
    forall i :: 0 <= i < |xs| ==> xs[i] <= U64_MAX
  }

  lemma {:induction false} FitsPointwise(tip: nat, expiries: seq<nat>)
    requires U64s(expiries)
    ensures Fits(tip, expiries) <==> forall k :: 0 <= k < |expiries| ==> tip + k + 1 < expiries[k]
    decreases |expiries|
  {
    if expiries != [] {
      FitsPointwise(tip + 1, expiries[1..]);
      assert forall k :: 0 <= k < |expiries[1..]| ==> expiries[1..][k] == expiries[k + 1];
      if Fits(tip, expiries) {
        forall k | 0 <= k < |expiries| ensures tip + k + 1 < expiries[k] {
          if k > 0 { assert expiries[1..][k - 1] == expiries[k]; }
        }
      }
    }
  }

  /** Pigeonhole: distinct numbers strictly between `lo` and `hi` are fewer than `hi - lo`. */
  lemma {:induction false} DistinctInInterval(slots: seq<nat>, lo: nat, hi: nat)
    requires forall i :: 0 <= i < |slots| ==> lo < slots[i] < hi
    requires forall i, j :: 0 <= i < j < |slots| ==> slots[i] != slots[j]
    requires lo < hi
    ensures |slots| < hi - lo
    decreases hi - lo
  {
    if slots != [] {
      var top := if lo < slots[0] then hi - 1 else lo;  // slots[0] fits, so the interval is not empty
      if top in slots {
        var k :| 0 <= k < |slots| && slots[k] == top;
        DistinctInInterval(slots[..k] + slots[k + 1..], lo, top);
      } else {
        DistinctInInterval(slots, lo, top);
      }
    }
  }

  lemma SortedFeasibleFits(tip: nat, expiries: seq<nat>)
    requires U64s(expiries) && SortedOn(expiries, Itself)
    ensures Fits(tip, expiries) <==> Feasible(tip, expiries)
  {
    FitsPointwise(tip, expiries);
    if Fits(tip, expiries) {
      var slots := seq(|expiries|, k requires 0 <= k < |expiries| => tip + k + 1);
      assert IsAssignment(tip, expiries, slots);
    }
    if Feasible(tip, expiries) {
      var slots :| IsAssignment(tip, expiries, slots);
      forall k | 0 <= k < |expiries| ensures tip + k + 1 < expiries[k] {
        forall i | 0 <= i <= k ensures slots[i] < expiries[k] {
          assert Itself(expiries[i]) <= Itself(expiries[k]);
        }
        DistinctInInterval(slots[..k + 1], tip, expiries[k]);
      }
    }
  }

  /** `p` lists, without repetition, where each element of `ys` comes from in `xs`. */
  ghost predicate Rearranges(p: seq<nat>, xs: seq<nat>, ys: seq<nat>) {
    && |p| == |ys| == |xs|
    && (forall i :: 0 <= i < |p| ==> p[i] < |xs| && ys[i] == xs[p[i]])
    && (forall i, j :: 0 <= i < j < |p| ==> p[i] != p[j])
  }

  lemma FeasibleRearranged(tip: nat, xs: seq<nat>, ys: seq<nat>, p: seq<nat>)
    requires Rearranges(p, xs, ys) && Feasible(tip, xs)
    ensures Feasible(tip, ys)
  {
    var slots :| IsAssignment(tip, xs, slots);
    var moved := seq(|ys|, i requires 0 <= i < |ys| => slots[p[i]]);
    forall i, j | 0 <= i < j < |moved| ensures moved[i] != moved[j] {
      assert p[i] != p[j];
      assert p[i] < p[j] || p[j] < p[i];
    }
    assert IsAssignment(tip, ys, moved);
  }

  lemma {:induction false} InsertPosition(x: nat, xs: seq<nat>, key: nat -> int) returns (at: nat)
    requires SortedOn(xs, key)
    ensures at <= |xs| && InsertOn(x, xs, key) == xs[..at] + [x] + xs[at..]
  {
    if xs == [] || key(x) <= key(xs[0]) {
      at := 0;
    } else {
      var p := InsertPosition(x, xs[1..], key);
      at := p + 1;
      assert xs[..at] == [xs[0]] + xs[1..][..p];
      assert xs[at..] == xs[1..][p..];
    }
  }

  lemma InsertionRearranges(x: nat, xs: seq<nat>, ys: seq<nat>, f: seq<nat>, at: nat) returns (p: seq<nat>)
    requires Rearranges(f, xs, ys) && at <= |ys|
    ensures Rearranges(p, [x] + xs, ys[..at] + [x] + ys[at..])
  {
    var n := |xs| + 1;
    p := seq(n, i requires 0 <= i < n => if i < at then f[i] + 1 else if i == at then 0 else f[i - 1] + 1);
    var zs := ys[..at] + [x] + ys[at..];
    forall i | 0 <= i < n ensures p[i] < n && zs[i] == ([x] + xs)[p[i]] {
    }
  }

  lemma InsertionRearrangesBack(x: nat, xs: seq<nat>, ys: seq<nat>, t: seq<nat>, at: nat) returns (p: seq<nat>)
    requires Rearranges(t, ys, xs) && at <= |ys|
    ensures Rearranges(p, ys[..at] + [x] + ys[at..], [x] + xs)
  {
    var n := |xs| + 1;
    p := seq(n, i requires 0 <= i < n =>
               if i == 0 then at else if t[i - 1] < at then t[i - 1] else t[i - 1] + 1);
    var zs := ys[..at] + [x] + ys[at..];
    forall i | 0 <= i < n ensures p[i] < n && ([x] + xs)[i] == zs[p[i]] {
      if i > 0 { assert xs[i - 1] == ys[t[i - 1]]; }
    }
    forall i, j | 0 <= i < j < n ensures p[i] != p[j] {
      if i > 0 { assert t[i - 1] != t[j - 1]; }
    }
  }

  /** Sorting is a rearrangement, read in either direction. */
  lemma {:induction false} SortRearranges(xs: seq<nat>, key: nat -> int) returns (from: seq<nat>, to: seq<nat>)
    ensures Rearranges(from, xs, SortOn(xs, key))
    ensures Rearranges(to, SortOn(xs, key), xs)
  {
    if xs == [] {
      from, to := [], [];
    } else {
      var f, t := SortRearranges(xs[1..], key);
      var rest := SortOn(xs[1..], key);
      var at := InsertPosition(xs[0], rest, key);
      assert [xs[0]] + xs[1..] == xs;
      from := InsertionRearranges(xs[0], xs[1..], rest, f, at);
      to := InsertionRearrangesBack(xs[0], xs[1..], rest, t, at);
    }
  }

  /** The loop is an exact test: it passes if and only if some assignment of distinct
      heights above the tip and below each peer's expiry exists. */
  lemma FitsExactlyWhenFeasible(tip: nat, expiries: seq<nat>)
    requires U64s(expiries)
    ensures Fits(tip, SortHeights(expiries)) <==> Feasible(tip, expiries)
  {
    var sorted := SortHeights(expiries);
    var from, to := SortRearranges(expiries, Itself);
    SortedFeasibleFits(tip, sorted);
    if Feasible(tip, expiries) {
      FeasibleRearranged(tip, expiries, sorted, from);
    }
    if Feasible(tip, sorted) {
      FeasibleRearranged(tip, sorted, expiries, to);
    }
  }

  // ---------- re-spreading ----------

  /** One step of the walk: how far past the tip the next peer is placed, or that its
      expiry leaves no room for it and the `remaining` peers after it. */
  function Advance(tip: u64, maxBlocks: u64, expiry: u64, remaining: nat, draw: nat, elapsed: u64): Option<u64>
    requires maxBlocks > 0
  {
    if expiry <= remaining + 1 then None
    else
      var latest: u64 := expiry - remaining - 1;
      var current := SaturatingAdd(tip, elapsed);
      if latest <= current then None
      else
        var bounded: u64 := if maxBlocks < latest - current then maxBlocks else latest - current;
        Some(SaturatingAdd(elapsed, SampleDelay(draw, bounded)))
  }

  /** New heights for the overdue peers whose expiries, soonest first, are `expiry`; the
      walk has reached peer `k` and used `elapsed` blocks. */
  function Plan(tip: u64, maxBlocks: u64, expiry: seq<u64>, delays: nat -> nat, k: nat, elapsed: u64)
    : (r: Option<seq<u64>>)
    requires k <= |expiry| && maxBlocks > 0
    ensures r.Some? ==> |r.value| == |expiry| - k
    decreases |expiry| - k
  {
    if k == |expiry| then Some([])
    else
      var step := Advance(tip, maxBlocks, expiry[k], |expiry| - k - 1, delays(k), elapsed);
      if step.None? then None
      else
        var rest := Plan(tip, maxBlocks, expiry, delays, k + 1, step.value);
        if rest.None? then None else Some([SaturatingAdd(tip, step.value)] + rest.value)
  }

  ghost predicate Ascending(expiry: seq<u64>) {
    forall i, j :: 0 <= i < j < |expiry| ==> expiry[i] <= expiry[j]
  }

  /** The height before the k-th of a plan that starts above `start`. */
  function Before(start: nat, heights: seq<u64>, k: nat): nat
    requires k < |heights|
  {
    if k == 0 then start else heights[k - 1]
  }

  /** Strictly rising heights between the tip and each expiry, with steps of 1..maxBlocks. */
  ghost predicate GoodPlan(start: nat, maxBlocks: u64, expiry: seq<u64>, heights: seq<u64>) {
    && |heights| == |expiry|
    && (forall k :: 0 <= k < |heights| ==> heights[k] < expiry[k])
    && (forall k :: 0 <= k < |heights| ==>
          1 <= heights[k] - Before(start, heights, k) <= maxBlocks)
  }

  /** The same, read along the walk. */
  ghost predicate GoodFrom(start: nat, maxBlocks: u64, expiry: seq<u64>, k: nat, heights: seq<u64>)
    requires k <= |expiry|
    decreases |expiry| - k
  {
    if k == |expiry| then heights == []
    else
      && heights != []
      && 1 <= heights[0] - start <= maxBlocks && heights[0] < expiry[k]
      && GoodFrom(heights[0], maxBlocks, expiry, k + 1, heights[1..])
  }

  lemma {:induction false} GoodFromIsGoodPlan(start: nat, maxBlocks: u64, expiry: seq<u64>, k: nat, heights: seq<u64>)
    requires k <= |expiry| && GoodFrom(start, maxBlocks, expiry, k, heights)
    ensures GoodPlan(start, maxBlocks, expiry[k..], heights)
    decreases |expiry| - k
  {
    if k < |expiry| {
      var rest := heights[1..];
      GoodFromIsGoodPlan(heights[0], maxBlocks, expiry, k + 1, rest);
      forall j | 0 <= j < |heights|
        ensures heights[j] < expiry[k..][j]
        ensures 1 <= heights[j] - Before(start, heights, j) <= maxBlocks
      {
        if j > 0 {
          assert heights[j] == rest[j - 1] && expiry[k..][j] == expiry[k + 1..][j - 1];
          assert Before(start, heights, j) == Before(heights[0], rest, j - 1);
        }
      }
    }
  }

  /** Does the soonest remaining expiry leave a height for every remaining peer? */
  ghost predicate Room(current: nat, expiry: seq<u64>, k: nat) {
    k >= |expiry| || current + (|expiry| - k) < expiry[k]
  }

  lemma PlanNeedsRoom(tip: u64, maxBlocks: u64, expiry: seq<u64>, delays: nat -> nat, k: nat, elapsed: u64)
    requires k <= |expiry| && maxBlocks > 0 && tip + elapsed <= U64_MAX
    requires !Room(tip + elapsed, expiry, k)
    ensures Plan(tip, maxBlocks, expiry, delays, k, elapsed).None?
  {
  }

  /** One step of the walk, with room and hence without saturation. */
  lemma PlanUnfolds(tip: u64, maxBlocks: u64, expiry: seq<u64>, delays: nat -> nat, k: nat, elapsed: u64)
    returns (delay: u64)
    requires k < |expiry| && maxBlocks > 0 && tip + elapsed <= U64_MAX
    requires Room(tip + elapsed, expiry, k)
    ensures 1 <= delay <= maxBlocks
    ensures tip + elapsed + delay <= expiry[k] - (|expiry| - k)
    ensures var rest := Plan(tip, maxBlocks, expiry, delays, k + 1, elapsed + delay);
            Plan(tip, maxBlocks, expiry, delays, k, elapsed) ==
              if rest.None? then None else Some([tip + elapsed + delay] + rest.value)
  {
    var latest := expiry[k] - (|expiry| - k);
    var current := SaturatingAdd(tip, elapsed);
    var bounded: u64 := if maxBlocks < latest - current then maxBlocks else latest - current;
    delay := SampleDelay(delays(k), bounded);
  }

  lemma {:induction false} PlanStep(tip: u64, maxBlocks: u64, expiry: seq<u64>, delays: nat -> nat, k: nat, elapsed: u64)
    requires k <= |expiry| && maxBlocks > 0 && Ascending(expiry)
    requires tip + elapsed <= U64_MAX
    requires Room(tip + elapsed, expiry, k)
    ensures var r := Plan(tip, maxBlocks, expiry, delays, k, elapsed);
            r.Some? && GoodFrom(tip + elapsed, maxBlocks, expiry, k, r.value)
    decreases |expiry| - k
  {
    if k < |expiry| {
      var delay := PlanUnfolds(tip, maxBlocks, expiry, delays, k, elapsed);
      PlanStep(tip, maxBlocks, expiry, delays, k + 1, elapsed + delay);
      hide Plan;
      var rest := Plan(tip, maxBlocks, expiry, delays, k + 1, elapsed + delay);
      assert ([tip + elapsed + delay] + rest.value)[1..] == rest.value;
    }
  }

  /** Re-spreading fails exactly when the soonest expiry leaves fewer than n free heights;
      no draw matters. Otherwise the heights are as promised, and nothing saturates. */
  lemma PlanSucceedsExactly(tip: u64, maxBlocks: u64, expiry: seq<u64>, delays: nat -> nat)
    requires maxBlocks > 0 && Ascending(expiry)
    ensures var r := Plan(tip, maxBlocks, expiry, delays, 0, 0);
            && (r.None? <==> |expiry| > 0 && expiry[0] <= tip + |expiry|)
            && (r.Some? ==> GoodPlan(tip, maxBlocks, expiry, r.value))
  {
    if Room(tip, expiry, 0) {
      PlanStep(tip, maxBlocks, expiry, delays, 0, 0);
      GoodFromIsGoodPlan(tip, maxBlocks, expiry, 0, Plan(tip, maxBlocks, expiry, delays, 0, 0).value);
      assert expiry[0..] == expiry;
    } else {
      PlanNeedsRoom(tip, maxBlocks, expiry, delays, 0, 0);
    }
  }

  /** Feasibility alone does not make re-spreading succeed: at tip 200 the expiries 202
      and 300 are feasible, yet the walk reserves a height below 202 for the second peer. */
  lemma FeasibleIsNotEnough(delays: nat -> nat)
    ensures Fits(200, [202, 300])
    ensures Plan(200, 576, [202, 300], delays, 0, 0).None?
  {
    assert [202, 300][1..] == [300];
    PlanSucceedsExactly(200, 576, [202, 300], delays);
  }

  /** With one common expiry, passing the test is having room for everyone, which is what
      re-spreading needs. */
  lemma CommonExpiryFitsExactly(tip: u64, peers: seq<nat>, e: u64)
    requires forall i :: 0 <= i < |peers| ==> peers[i] == e
    ensures Fits(tip, SortHeights(peers)) <==> |peers| == 0 || tip + |peers| < e
  {
    var sorted := SortHeights(peers);
    var from, to := SortRearranges(peers, Itself);
    assert forall j :: 0 <= j < |sorted| ==> sorted[j] == e;
    FitsPointwise(tip, sorted);
    if |sorted| > 0 && Fits(tip, sorted) {
      assert tip + (|sorted| - 1) + 1 < sorted[|sorted| - 1];
    }
  }
}
