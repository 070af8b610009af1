/** Re-spreading of overdue peers inside a batch, and why an acceptance cannot fail once
    the bytes have left the device. */
module OutboxSchedule {
  import opened Common
  import opened Heights
  import opened OutboxModel
  import opened OutboxInvariants

  lemma DistinctIndexes(xs: seq<nat>, ys: seq<nat>)
    requires multiset(xs) == multiset(ys)
    requires forall i, j :: 0 <= i < j < |ys| ==> ys[i] < ys[j]
    ensures |xs| == |ys|
    ensures forall i, j :: 0 <= i < j < |xs| ==> xs[i] != xs[j]
  {
    assert |multiset(xs)| == |multiset(ys)|;
    forall i, j | 0 <= i < j < |xs| ensures xs[i] != xs[j] {
      if xs[i] == xs[j] {
        TwiceInBag(xs, i, j);
        OnceInBag(ys, xs[i]);
      }
    }
  }

  lemma TwiceInBag(xs: seq<nat>, i: nat, j: nat)
    requires i < j < |xs| && xs[i] == xs[j]
    ensures multiset(xs)[xs[i]] >= 2
  {
    assert xs == xs[..i] + [xs[i]] + xs[i + 1..j] + [xs[j]] + xs[j + 1..];
  }

  lemma {:induction false} OnceInBag(ys: seq<nat>, y: nat)
    requires forall i, j :: 0 <= i < j < |ys| ==> ys[i] < ys[j]
    ensures multiset(ys)[y] <= 1
  {
    if ys != [] {
      OnceInBag(ys[1..], y);
      assert ys == [ys[0]] + ys[1..];
      if y == ys[0] {
        assert y !in ys[1..];
        assert y !in multiset(ys[1..]);
      }
    }
  }

  /** The order visits every overdue peer once, soonest expiry first. */
  lemma OrderFacts(items: seq<Item>, accepted: string, tip: u64, random: Random)
    ensures var order := RescheduleOrder(items, accepted, tip, random);
            var overdue := OverdueIndexes(items, accepted, tip, 0);
            && |order| == |overdue|
            && (forall x :: x in order <==> x in overdue)
            && (forall i, j :: 0 <= i < j < |order| ==> order[i] != order[j])
            && Ascending(ExpiriesOf(items, order))
  {
    var order := RescheduleOrder(items, accepted, tip, random);
    var overdue := OverdueIndexes(items, accepted, tip, 0);
    SameBagSameMembers(order, overdue);
    DistinctIndexes(order, overdue);
    var shuffled := Shuffle(overdue, random.swaps, 0);
    var key := (k: nat) => ExpiryAt(items, k);
    assert SortedOn(SortOn(shuffled, key), key);
    assert order == SortOn(shuffled, key);
    var es := ExpiriesOf(items, order);
    forall i, j | 0 <= i < j < |es| ensures es[i] <= es[j] {
      assert key(order[i]) <= key(order[j]);
    }
  }

  /** Every overdue peer has room for all of them. */
  ghost predicate PeersHaveRoom(items: seq<Item>, itemId: string, tip: u64) {
    forall x :: 0 <= x < |items| && Overdue(items[x], itemId, tip) ==>
      tip + |OverdueIndexes(items, itemId, tip, 0)| < items[x].expiryHeight
  }

  /** With n overdue peers, re-spreading throws exactly when one of them expires at or
      below tip + n (or the batch's timing is invalid): no shuffle or delay matters. */
  lemma RescheduleSucceedsExactly(h: Hasher, items: seq<Item>, accepted: string, tip: u64, mean: u64, maxBlocks: u64,
                                  random: Random)
    ensures Reschedule(h, items, accepted, tip, mean, maxBlocks, random).Ok? <==>
              0 < mean <= maxBlocks && PeersHaveRoom(items, accepted, tip)
  {
    if 0 < mean <= maxBlocks {
      var order := RescheduleOrder(items, accepted, tip, random);
      var overdue := OverdueIndexes(items, accepted, tip, 0);
      var es := ExpiriesOf(items, order);
      OrderFacts(items, accepted, tip, random);
      PlanSucceedsExactly(tip, maxBlocks, es, random.delays);
      if |es| > 0 && es[0] > tip + |es| {
        forall x | 0 <= x < |items| && Overdue(items[x], accepted, tip) ensures tip + |es| < items[x].expiryHeight {
          assert x in overdue && x in order;
          var k :| 0 <= k < |order| && order[k] == x;
          assert k > 0 ==> es[0] <= es[k];
        }
      }
      if |es| > 0 {
        assert order[0] in overdue;
      }
    }
  }

  lemma {:induction false} RespreadPointwise(h: Hasher, items: seq<Item>, order: seq<nat>, heights: seq<u64>, tip: u64, n: nat)
    requires n <= |order| && n <= |heights|
    requires forall j :: 0 <= j < |order| ==> order[j] < |items|
    requires forall i, j :: 0 <= i < j < |order| ==> order[i] != order[j]
    ensures var r := Respread(h, items, order, heights, tip, n);
            && (forall x :: 0 <= x < |items| && x !in order[..n] ==> r[x] == items[x])
            && (forall j :: 0 <= j < n ==> r[order[j]] == ReplacingSchedule(h, items[order[j]], heights[j], tip))
  {
    hide ReplacingSchedule;
    if n > 0 {
      RespreadPointwise(h, items, order, heights, tip, n - 1);
      assert order[..n] == order[..n - 1] + [order[n - 1]];
      assert order[n - 1] !in order[..n - 1];
    }
  }

  /** On a well-formed armed record only the two schedule heights change. */
  lemma ReplacingScheduleChangesOnlyHeights(h: Hasher, i: Item, scheduled: u64, start: u64)
    requires ItemOk(h, i) && !i.status.Submitting?
    ensures ReplacingSchedule(h, i, scheduled, start) == i.(scheduledHeight := scheduled, scheduleStartHeight := start)
  {
  }

  /** Heights strictly rise from the tip in steps of 1..maxBlocks, soonest expiry first,
      each below its own record's expiry, and the receipt's updates say so. */
  ghost predicate SpreadHeights(items: seq<Item>, order: seq<nat>, updates: seq<ScheduleUpdate>, tip: u64, maxBlocks: u64)
    requires forall j :: 0 <= j < |order| ==> order[j] < |items|
  {
    && |updates| == |order|
    && Ascending(ExpiriesOf(items, order))
    && (forall j :: 0 <= j < |order| ==>
          && tip < updates[j].scheduledHeight < items[order[j]].expiryHeight
          && updates[j] == ScheduleUpdate(items[order[j]].itemId, updates[j].scheduledHeight, tip))
    && (forall j :: 0 <= j < |order| ==>
          1 <= updates[j].scheduledHeight - (if j == 0 then tip else updates[j - 1].scheduledHeight) <= maxBlocks)
  }

  /** The order lists the overdue records, and only their two schedule heights change. */
  ghost predicate SpreadItems(items: seq<Item>, order: seq<nat>, after: seq<Item>, updates: seq<ScheduleUpdate>,
                              accepted: string, tip: u64)
    requires |after| == |items| && |updates| == |order|
    requires forall j :: 0 <= j < |order| ==> order[j] < |items|
  {
    && (forall x :: 0 <= x < |items| ==> (Overdue(items[x], accepted, tip) <==> x in order))
    && (forall x :: 0 <= x < |items| && !Overdue(items[x], accepted, tip) ==> after[x] == items[x])
    && (forall j :: 0 <= j < |order| ==>
          after[order[j]] == items[order[j]].(scheduledHeight := updates[j].scheduledHeight, scheduleStartHeight := tip))
  }

  lemma PlannedHeights(items: seq<Item>, order: seq<nat>, tip: u64, maxBlocks: u64, delays: nat -> nat) returns (heights: seq<u64>)
    requires forall j :: 0 <= j < |order| ==> order[j] < |items|
    requires maxBlocks > 0 && Ascending(ExpiriesOf(items, order))
    requires Plan(tip, maxBlocks, ExpiriesOf(items, order), delays, 0, 0).Some?
    ensures Plan(tip, maxBlocks, ExpiriesOf(items, order), delays, 0, 0) == Some(heights) && |heights| == |order|
    ensures SpreadHeights(items, order, Updates(items, order, heights, tip), tip, maxBlocks)
  {
    var es := ExpiriesOf(items, order);
    heights := Plan(tip, maxBlocks, es, delays, 0, 0).value;
    PlanSucceedsExactly(tip, maxBlocks, es, delays);
    RisingAboveStart(tip, maxBlocks, es, heights);
    var updates := Updates(items, order, heights, tip);
    forall j | 0 <= j < |order|
      ensures tip < updates[j].scheduledHeight < items[order[j]].expiryHeight
      ensures 1 <= updates[j].scheduledHeight - (if j == 0 then tip else updates[j - 1].scheduledHeight) <= maxBlocks
    {
      assert 1 <= heights[j] - Before(tip, heights, j) <= maxBlocks;
      assert es[j] == items[order[j]].expiryHeight;
    }
  }

  lemma RespreadItems(h: Hasher, items: seq<Item>, accepted: string, tip: u64, order: seq<nat>, heights: seq<u64>)
    requires forall i :: i in items ==> ItemOk(h, i)
    requires |heights| == |order| && forall j :: 0 <= j < |order| ==> order[j] < |items|
    requires forall x :: x in order <==> x in OverdueIndexes(items, accepted, tip, 0)
    requires forall i, j :: 0 <= i < j < |order| ==> order[i] != order[j]
    ensures SpreadItems(items, order, Respread(h, items, order, heights, tip, |order|), Updates(items, order, heights, tip), accepted, tip)
  {
    var after := Respread(h, items, order, heights, tip, |order|);
    RespreadPointwise(h, items, order, heights, tip, |order|);
    assert order[..|order|] == order;
    forall j | 0 <= j < |order|
      ensures after[order[j]] == items[order[j]].(scheduledHeight := heights[j], scheduleStartHeight := tip)
    {
      assert order[j] in OverdueIndexes(items, accepted, tip, 0);
      assert items[order[j]] in items;
      ReplacingScheduleChangesOnlyHeights(h, items[order[j]], heights[j], tip);
    }
  }

  /** A successful re-spreading does exactly what it promises. */
  lemma RescheduleSpreads(h: Hasher, items: seq<Item>, accepted: string, tip: u64, mean: u64, maxBlocks: u64, random: Random)
    requires forall i :: i in items ==> ItemOk(h, i)
    requires Reschedule(h, items, accepted, tip, mean, maxBlocks, random).Ok?
    ensures var r := Reschedule(h, items, accepted, tip, mean, maxBlocks, random).value;
            var order := RescheduleOrder(items, accepted, tip, random);
            && SpreadHeights(items, order, r.updates, tip, maxBlocks)
            && SpreadItems(items, order, r.items, r.updates, accepted, tip)
  {
    var order := RescheduleOrder(items, accepted, tip, random);
    OrderFacts(items, accepted, tip, random);
    var heights := PlannedHeights(items, order, tip, maxBlocks, random.delays);
    RespreadItems(h, items, accepted, tip, order, heights);
  }

  lemma {:induction false} RisingAbove(start: nat, maxBlocks: u64, expiry: seq<u64>, heights: seq<u64>, k: nat)
    requires GoodPlan(start, maxBlocks, expiry, heights) && k < |heights|
    ensures start < heights[k]
  {
    assert 1 <= heights[k] - Before(start, heights, k);
    if k > 0 {
      RisingAbove(start, maxBlocks, expiry, heights, k - 1);
    }
  }

  lemma RisingAboveStart(start: nat, maxBlocks: u64, expiry: seq<u64>, heights: seq<u64>)
    requires GoodPlan(start, maxBlocks, expiry, heights)
    ensures forall k :: 0 <= k < |heights| ==> start < heights[k] < expiry[k]
  {
    forall k | 0 <= k < |heights| ensures start < heights[k] {
      RisingAbove(start, maxBlocks, expiry, heights, k);
    }
  }

  // ---------- acceptance ----------

  /** The shared part: which index set the validation and the acceptance look at. */
  lemma SameOverdueAfterAccepting(items: seq<Item>, m: nat, done: Item, tip: u64)
    requires m < |items| && done.itemId == items[m].itemId
    ensures OverdueIndexes(items[m := done], items[m].itemId, tip, 0) == OverdueIndexes(items, items[m].itemId, tip, 0)
  {
    SameOverdueFrom(items, m, done, tip, 0);
  }

  lemma {:induction false} SameOverdueFrom(items: seq<Item>, m: nat, done: Item, tip: u64, k: nat)
    requires m < |items| && done.itemId == items[m].itemId && k <= |items|
    ensures OverdueIndexes(items[m := done], items[m].itemId, tip, k) == OverdueIndexes(items, items[m].itemId, tip, k)
    decreases |items| - k
  {
    if k < |items| {
      SameOverdueFrom(items, m, done, tip, k + 1);
    }
  }

  function AcceptedForm(i: Item): Item {
    i.(status := AcceptedAwaiting, attemptId := None, attemptStartedAt := None, nextAttemptAt := None)
  }

  lemma AcceptanceReducesToRescheduling(h: Hasher, s: Snapshot, itemId: string, equivalent: bool, tip: u64,
                                        response: Response, now: Date, random: Random, p: Place)
    requires Locate(s.batches, itemId) == Some(p)
    ensures var b := s.batches[p.batch];
            RecordAccepted(h, s, itemId, equivalent, tip, response, now, random).Ok? <==>
              && b.items[p.item].status.Submitting?
              && Reschedule(h, b.items[p.item := AcceptedForm(b.items[p.item])], itemId, tip,
                            b.timingMeanBlocks, b.timingMaxBlocks, random).Ok?
  {
  }

  lemma AcceptingKeepsRoom(items: seq<Item>, m: nat, tip: u64)
    requires m < |items| && items[m].status.Submitting?
    ensures PeersHaveRoom(items[m := AcceptedForm(items[m])], items[m].itemId, tip)
            <==> PeersHaveRoom(items, items[m].itemId, tip)
  {
    var after := items[m := AcceptedForm(items[m])];
    SameOverdueAfterAccepting(items, m, AcceptedForm(items[m]), tip);
    assert forall x :: 0 <= x < |items| ==> after[x].expiryHeight == items[x].expiryHeight;
    assert forall x :: 0 <= x < |items| ==>
      (Overdue(after[x], items[m].itemId, tip) <==> Overdue(items[x], items[m].itemId, tip));
  }

  /** Recording an acceptance succeeds exactly when the item is being submitted and every
      overdue peer still has room: a condition on the snapshot alone. */
  lemma AcceptanceSucceedsExactly(h: Hasher, s: Snapshot, itemId: string, equivalent: bool, tip: u64,
                                  response: Response, now: Date, random: Random)
    requires forall b :: b in s.batches ==> TimingValid(b)
    ensures RecordAccepted(h, s, itemId, equivalent, tip, response, now, random).Ok? <==>
              && Locate(s.batches, itemId).Some?
              && var p := Locate(s.batches, itemId).value;
                 var items := s.batches[p.batch].items;
                 items[p.item].status.Submitting? && PeersHaveRoom(items, itemId, tip)
  {
    var place := Locate(s.batches, itemId);
    if place.Some? {
      var p := place.value;
      var b := s.batches[p.batch];
      assert TimingValid(b);
      AcceptanceReducesToRescheduling(h, s, itemId, equivalent, tip, response, now, random, p);
      if b.items[p.item].status.Submitting? {
        AcceptingKeepsRoom(b.items, p.item, tip);
        RescheduleSucceedsExactly(h, b.items[p.item := AcceptedForm(b.items[p.item])], itemId, tip,
                                  b.timingMeanBlocks, b.timingMaxBlocks, random);
      }
    }
  }

  /** Every due armed record of the batch carries the canonical expiry of this tip. */
  ghost predicate DueAreCanonical(items: seq<Item>, tip: u64) {
    && CanonicalExpiry(tip).Some?
    && forall i :: i in items && i.status.Armed? && i.scheduledHeight <= tip ==> i.expiryHeight == CanonicalExpiry(tip).value
  }

  /** What must hold of the stored batch between the send and the record of its outcome. */
  ghost predicate ReadyToAccept(s: Snapshot, itemId: string, tip: u64) {
    && Locate(s.batches, itemId).Some?
    && var p := Locate(s.batches, itemId).value;
       var items := s.batches[p.batch].items;
       && items[p.item].status.Submitting?
       && DueAreCanonical(items, tip)
       && ValidateRescheduling(s, itemId, tip).Ok?
  }

  /** The pre-broadcast test decides exactly whether the overdue peers can all still be
      given a height of their own, above the tip and below their expiry. */
  lemma ValidationDecidesFeasibility(s: Snapshot, itemId: string, tip: u64, p: Place)
    requires Locate(s.batches, itemId) == Some(p)
    ensures var items := s.batches[p.batch].items;
            ValidateRescheduling(s, itemId, tip).Ok?
            <==> Feasible(tip, ExpiriesOf(items, OverdueIndexes(items, itemId, tip, 0)))
  {
    var items := s.batches[p.batch].items;
    FitsExactlyWhenFeasible(tip, ExpiriesOf(items, OverdueIndexes(items, itemId, tip, 0)));
  }

  lemma CanonicalPeersThatFitHaveRoom(items: seq<Item>, itemId: string, tip: u64)
    requires DueAreCanonical(items, tip)
    requires Fits(tip, SortHeights(ExpiriesOf(items, OverdueIndexes(items, itemId, tip, 0))))
    ensures PeersHaveRoom(items, itemId, tip)
  {
    var overdue := OverdueIndexes(items, itemId, tip, 0);
    var e := CanonicalExpiry(tip).value;
    forall j | 0 <= j < |overdue| ensures ExpiriesOf(items, overdue)[j] == e {
      assert items[overdue[j]] in items;
    }
    CommonExpiryFitsExactly(tip, ExpiriesOf(items, overdue), e);
    forall x | 0 <= x < |items| && Overdue(items[x], itemId, tip) ensures tip + |overdue| < items[x].expiryHeight {
      assert x in overdue && items[x] in items;
    }
  }

  /** Once the due peers are canonical and the test has passed, no random draw can make
      the acceptance of the broadcast item fail. */
  lemma AcceptanceCannotFailAfterBroadcast(h: Hasher, s: Snapshot, itemId: string, equivalent: bool, tip: u64,
                                           response: Response, now: Date, random: Random)
    requires forall b :: b in s.batches ==> TimingValid(b)
    requires ReadyToAccept(s, itemId, tip)
    ensures RecordAccepted(h, s, itemId, equivalent, tip, response, now, random).Ok?
  {
    var p := Locate(s.batches, itemId).value;
    CanonicalPeersThatFitHaveRoom(s.batches[p.batch].items, itemId, tip);
    AcceptanceSucceedsExactly(h, s, itemId, equivalent, tip, response, now, random);
  }
}
