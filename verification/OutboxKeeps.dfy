/** Each mutation of the outbox, on the invariant and on the evidence of attempts. */
module OutboxKeeps {
  import opened Common
  import opened Heights
  import opened OutboxModel
  import opened OutboxInvariants
  import opened OutboxSchedule

  // ---------- one batch changed in place ----------

  ghost predicate FlagsOk(s: Snapshot, b: Batch) {
    BatchOk(b) && (b.completePendingAt.Some? ==> b.batchId !in s.announced)
  }

  /** `added` has one receipt for each record of the batch that becomes terminal. */
  ghost predicate SettlesBatch(b: Batch, c: Batch, added: seq<Receipt>)
    requires |b.items| == |c.items|
  {
    && (forall r :: r in added ==>
          exists m :: 0 <= m < |b.items| && !Terminal(b.items[m]) && Matches(r, c, c.items[m]))
    && (forall m :: 0 <= m < |b.items| && !Terminal(b.items[m]) && Terminal(c.items[m]) ==> HasReceipt(added, c, c.items[m]))
    && DistinctBy(added, ReceiptKey)
  }

  ghost predicate BatchCounted(b: Batch, c: Batch)
    requires |b.items| == |c.items|
  {
    forall m :: 0 <= m < |b.items| && Attempted(b.items[m]) ==> Attempted(c.items[m])
  }

  ghost predicate BatchCalm(b: Batch, c: Batch)
    requires |b.items| == |c.items|
  {
    forall m :: 0 <= m < |b.items| && c.items[m].status.Submitting? ==> b.items[m].status.Submitting?
  }

  ghost predicate ItemsOk(h: Hasher, items: seq<Item>) {
    forall i :: i in items ==> ItemOk(h, i)
  }

  function Changed(s: Snapshot, k: nat, c: Batch, added: seq<Receipt>): Snapshot
    requires k < |s.batches|
  {
    s.(batches := s.batches[k := c], receipts := s.receipts + added)
  }

  lemma ChangeIsInPlace(s: Snapshot, k: nat, c: Batch, added: seq<Receipt>)
    requires k < |s.batches| && SameBatch(s.batches[k], c)
    ensures InPlace(s, Changed(s, k, c, added))
    ensures BatchCounted(s.batches[k], c) ==> InPlaceCounted(s, Changed(s, k, c, added))
    ensures BatchCalm(s.batches[k], c) ==> InPlaceCalm(s, Changed(s, k, c, added))
  {
  }

  lemma ChangeKeepsRecords(h: Hasher, s: Snapshot, k: nat, c: Batch, added: seq<Receipt>)
    requires RecordsOk(h, s) && k < |s.batches| && ItemsOk(h, c.items) && FlagsOk(s, c)
    ensures RecordsOk(h, Changed(s, k, c, added))
  {
    var t := Changed(s, k, c, added);
    forall b | b in t.batches ensures b == c || b in s.batches {
    }
    forall b, i | Stored(t, b, i) ensures ItemOk(h, i) {
      assert b == c || Stored(s, b, i);
    }
  }

  lemma ChangeSettles(s: Snapshot, k: nat, c: Batch, added: seq<Receipt>)
    requires k < |s.batches| && SameBatch(s.batches[k], c) && SettlesBatch(s.batches[k], c, added)
    ensures Settles(s, Changed(s, k, c, added), added)
  {
    var t := Changed(s, k, c, added);
    forall r | r in added ensures exists x, m :: SettlesAt(s, t, r, x, m) {
      var m :| 0 <= m < |s.batches[k].items| && !Terminal(s.batches[k].items[m]) && Matches(r, c, c.items[m]);
      assert SettlesAt(s, t, r, k, m);
    }
  }

  /** The workhorse for every mutation of a single batch. */
  lemma ChangeKeepsValid(h: Hasher, s: Snapshot, k: nat, c: Batch, added: seq<Receipt>)
    requires Valid(h, s) && k < |s.batches| && SameBatch(s.batches[k], c)
    requires SettlesBatch(s.batches[k], c, added) && ItemsOk(h, c.items) && FlagsOk(s, c)
    ensures Valid(h, Changed(s, k, c, added)) && InPlace(s, Changed(s, k, c, added))
    ensures BatchCounted(s.batches[k], c) ==> InPlaceCounted(s, Changed(s, k, c, added))
    ensures BatchCalm(s.batches[k], c) ==> InPlaceCalm(s, Changed(s, k, c, added))
  {
    ChangeIsInPlace(s, k, c, added);
    ChangeKeepsRecords(h, s, k, c, added);
    ChangeSettles(s, k, c, added);
    InPlaceKeepsValid(h, s, Changed(s, k, c, added), added);
  }

  lemma ValidBatch(h: Hasher, s: Snapshot, k: nat)
    requires Valid(h, s) && k < |s.batches|
    ensures ItemsOk(h, s.batches[k].items) && FlagsOk(s, s.batches[k])
  {
    forall i | i in s.batches[k].items ensures ItemOk(h, i) {
      assert Stored(s, s.batches[k], i);
    }
  }

  /** Only flags and schedule policy of the batch change; the records stay. */
  lemma FlagChangeKeepsValid(h: Hasher, s: Snapshot, k: nat, c: Batch)
    requires Valid(h, s) && k < |s.batches| && FlagsOk(s, c)
    requires c.items == s.batches[k].items && c.batchId == s.batches[k].batchId && c.network == s.batches[k].network
    requires c.accountUuid == s.batches[k].accountUuid && c.runId == s.batches[k].runId && NoticesKept(s.batches[k], c)
    ensures Valid(h, s.(batches := s.batches[k := c]))
    ensures Advances(s, s.(batches := s.batches[k := c]))
  {
    ValidBatch(h, s, k);
    ChangeKeepsValid(h, s, k, c, []);
    assert s.receipts + [] == s.receipts;
  }

  /** The records are untouched altogether. */
  lemma CursorChangeKeepsValid(h: Hasher, s: Snapshot, t: Snapshot)
    requires Valid(h, s) && t.batches == s.batches && t.receipts == s.receipts && t.announced == s.announced
    ensures Valid(h, t) && Advances(s, t)
  {
    assert s.receipts == s.receipts + [];
    assert RecordsOk(h, t) by {
      forall b, i | Stored(t, b, i) ensures ItemOk(h, i) {
        assert Stored(s, b, i);
      }
    }
    InPlaceKeepsValid(h, s, t, []);
  }

  // ---------- one record changed ----------

  lemma PointChangeKeepsValid(h: Hasher, s: Snapshot, p: Place, i: Item)
    requires Valid(h, s) && p.batch < |s.batches| && p.item < |s.batches[p.batch].items|
    requires var old' := s.batches[p.batch].items[p.item];
             ItemEvolves(old', i) && ItemOk(h, i) && !Terminal(i) && !Terminal(old')
    ensures var t := s.(batches := WithItem(s.batches, p, i));
            && Valid(h, t) && InPlace(s, t)
            && ((Attempted(s.batches[p.batch].items[p.item]) ==> Attempted(i)) ==> InPlaceCounted(s, t))
            && ((i.status.Submitting? ==> s.batches[p.batch].items[p.item].status.Submitting?) ==> InPlaceCalm(s, t))
  {
    var b := s.batches[p.batch];
    var c := b.(items := b.items[p.item := i]);
    ValidBatch(h, s, p.batch);
    assert ItemsOk(h, c.items) by {
      forall x | x in c.items ensures ItemOk(h, x) {
        assert x == i || x in b.items;
      }
    }
    ChangeKeepsValid(h, s, p.batch, c, []);
    assert s.receipts + [] == s.receipts;
  }

  lemma BeginKeepsValid(h: Hasher, s: Snapshot, itemId: string, attemptId: string, now: Date)
    requires Valid(h, s) && BeginSubmission(s, itemId, attemptId, now).Ok?
    ensures var t := BeginSubmission(s, itemId, attemptId, now).value;
            Valid(h, t) && InPlace(s, t) && InPlaceCounted(s, t)
  {
    var p := Locate(s.batches, itemId).value;
    ValidBatch(h, s, p.batch);
    var i := s.batches[p.batch].items[p.item];
    assert i in s.batches[p.batch].items;
    PointChangeKeepsValid(h, s, p, i.(status := Submitting, attemptId := Some(attemptId), attemptStartedAt := Some(now)));
  }

  lemma UncertainKeepsValid(h: Hasher, s: Snapshot, itemId: string, error: string, now: Date)
    requires Valid(h, s) && RecordUncertain(s, itemId, error, now).Ok?
    ensures var t := RecordUncertain(s, itemId, error, now).value;
            Valid(h, t) && Advances(s, t)
  {
    var p := Locate(s.batches, itemId).value;
    ValidBatch(h, s, p.batch);
    var i := s.batches[p.batch].items[p.item];
    assert i in s.batches[p.batch].items;
    PointChangeKeepsValid(h, s, p, Requeued(i, now, error));
  }

  /** Cancelling before the transport is the one step that may drop an item from the
      attempt report, and only if it was never counted before. */
  lemma CancelledKeepsValid(h: Hasher, s: Snapshot, itemId: string, error: string)
    requires Valid(h, s) && RecordCancelled(s, itemId, error).Ok?
    ensures var t := RecordCancelled(s, itemId, error).value;
            Valid(h, t) && InPlace(s, t) && InPlaceCalm(s, t)
  {
    var p := Locate(s.batches, itemId).value;
    ValidBatch(h, s, p.batch);
    var i := s.batches[p.batch].items[p.item];
    assert i in s.batches[p.batch].items;
    PointChangeKeepsValid(h, s, p, i.(status := Armed, nextAttemptAt := None, lastError := Some(error), attemptId := None,
                                      attemptStartedAt := None));
  }

  lemma OneSettled(b: Batch, c: Batch, m: nat, r: Receipt)
    requires |b.items| == |c.items| && m < |b.items|
    requires !Terminal(b.items[m]) && Matches(r, c, c.items[m])
    requires forall x :: 0 <= x < |b.items| && x != m && Terminal(c.items[x]) ==> Terminal(b.items[x])
    ensures SettlesBatch(b, c, [r])
  {
    forall x | 0 <= x < |b.items| && !Terminal(b.items[x]) && Terminal(c.items[x]) ensures HasReceipt([r], c, c.items[x]) {
      assert r in [r];
    }
  }

  lemma SettleOneKeepsValid(h: Hasher, s: Snapshot, p: Place, c: Batch, r: Receipt)
    requires Valid(h, s) && p.batch < |s.batches| && p.item < |s.batches[p.batch].items|
    requires SameBatch(s.batches[p.batch], c) && ItemsOk(h, c.items) && FlagsOk(s, c)
    requires BatchCounted(s.batches[p.batch], c) && BatchCalm(s.batches[p.batch], c)
    requires !Terminal(s.batches[p.batch].items[p.item]) && Matches(r, c, c.items[p.item])
    requires forall x :: 0 <= x < |c.items| && x != p.item && Terminal(c.items[x]) ==> Terminal(s.batches[p.batch].items[x])
    ensures var t := Changed(s, p.batch, c, [r]);
            Valid(h, t) && Advances(s, t)
  {
    OneSettled(s.batches[p.batch], c, p.item, r);
    ChangeKeepsValid(h, s, p.batch, c, [r]);
  }

  function RejectedForm(i: Item): Item {
    i.(status := RejectedAwaiting, attemptId := None, attemptStartedAt := None, nextAttemptAt := None)
  }

  lemma ItemsOkUpdate(h: Hasher, items: seq<Item>, m: nat, i: Item)
    requires ItemsOk(h, items) && m < |items| && ItemOk(h, i)
    ensures ItemsOk(h, items[m := i])
  {
    forall x | x in items[m := i] ensures ItemOk(h, x) {
      assert x == i || x in items;
    }
  }

  lemma RejectedKeepsValid(h: Hasher, s: Snapshot, itemId: string, tip: u64, response: Response, now: Date)
    requires Valid(h, s) && RecordRejected(s, itemId, tip, response, now).Ok?
    ensures var t := RecordRejected(s, itemId, tip, response, now).value;
            Valid(h, t) && Advances(s, t)
  {
    var p := Locate(s.batches, itemId).value;
    ValidBatch(h, s, p.batch);
    var b := s.batches[p.batch];
    var done := RejectedForm(b.items[p.item]);
    var c := b.(items := b.items[p.item := done], armedAt := None, nextProofHeight := None);
    var r := MakeReceipt(c, done, WasRejected, tip, Some(response.code), Some(response.message), [], now);
    assert b.items[p.item] in b.items;
    ItemsOkUpdate(h, b.items, p.item, done);
    SettleOneKeepsValid(h, s, p, c, r);
  }

  /** The same record with, at most, another schedule. */
  ghost predicate Respreads(h: Hasher, i: Item, j: Item) {
    ItemOk(h, j) && ItemEvolves(i, j) && j.status == i.status && j.attemptCount == i.attemptCount
  }

  lemma SpreadRespreads(h: Hasher, items: seq<Item>, order: seq<nat>, after: seq<Item>, updates: seq<ScheduleUpdate>,
                        accepted: string, tip: u64, maxBlocks: u64, x: nat)
    requires |after| == |items| && |updates| == |order| && x < |items|
    requires forall j :: 0 <= j < |order| ==> order[j] < |items|
    requires SpreadHeights(items, order, updates, tip, maxBlocks) && SpreadItems(items, order, after, updates, accepted, tip)
    requires ItemOk(h, items[x])
    ensures Respreads(h, items[x], after[x])
    ensures items[x].itemId == accepted ==> after[x] == items[x]
  {
    if Overdue(items[x], accepted, tip) {
      var j :| 0 <= j < |order| && order[j] == x;
      assert updates[j].scheduledHeight < items[order[j]].expiryHeight;
      assert after[order[j]] == items[x].(scheduledHeight := updates[j].scheduledHeight, scheduleStartHeight := tip);
    }
  }

  lemma RescheduleRespreads(h: Hasher, items: seq<Item>, accepted: string, tip: u64, mean: u64, maxBlocks: u64, random: Random)
    requires ItemsOk(h, items) && Reschedule(h, items, accepted, tip, mean, maxBlocks, random).Ok?
    ensures var after := Reschedule(h, items, accepted, tip, mean, maxBlocks, random).value.items;
            && (forall x :: 0 <= x < |items| ==> Respreads(h, items[x], after[x]))
            && (forall x :: 0 <= x < |items| && items[x].itemId == accepted ==> after[x] == items[x])
  {
    RescheduleSpreads(h, items, accepted, tip, mean, maxBlocks, random);
    var order := RescheduleOrder(items, accepted, tip, random);
    var r := Reschedule(h, items, accepted, tip, mean, maxBlocks, random).value;
    forall x | 0 <= x < |items|
      ensures Respreads(h, items[x], r.items[x])
      ensures items[x].itemId == accepted ==> r.items[x] == items[x]
    {
      assert items[x] in items;
      SpreadRespreads(h, items, order, r.items, r.updates, accepted, tip, maxBlocks, x);
    }
  }

  /** After an acceptance: the accepted record, and peers whose schedule alone may change. */
  lemma AcceptedItems(h: Hasher, items: seq<Item>, m: nat, tip: u64, mean: u64, maxBlocks: u64, random: Random)
    requires ItemsOk(h, items) && m < |items| && items[m].status.Submitting?
    requires Reschedule(h, items[m := AcceptedForm(items[m])], items[m].itemId, tip, mean, maxBlocks, random).Ok?
    ensures var after := Reschedule(h, items[m := AcceptedForm(items[m])], items[m].itemId, tip, mean, maxBlocks, random).value.items;
            && |after| == |items| && after[m] == AcceptedForm(items[m]) && ItemsOk(h, after)
            && (forall x :: 0 <= x < |items| && x != m ==> Respreads(h, items[x], after[x]))
  {
    var done := items[m := AcceptedForm(items[m])];
    assert items[m] in items;
    ItemsOkUpdate(h, items, m, AcceptedForm(items[m]));
    RescheduleRespreads(h, done, items[m].itemId, tip, mean, maxBlocks, random);
  }

  lemma AcceptanceIsAChange(h: Hasher, s: Snapshot, itemId: string, equivalent: bool, tip: u64, response: Response,
                            now: Date, random: Random) returns (p: Place, c: Batch, r: Receipt)
    requires RecordAccepted(h, s, itemId, equivalent, tip, response, now, random).Ok?
    ensures Locate(s.batches, itemId) == Some(p)
    ensures var b := s.batches[p.batch];
            var done := b.items[p.item := AcceptedForm(b.items[p.item])];
            var respread := Reschedule(h, done, itemId, tip, b.timingMeanBlocks, b.timingMaxBlocks, random);
            && b.items[p.item].status.Submitting?
            && respread.Ok? && c == b.(items := respread.value.items)
            && r.scheduleUpdates == respread.value.updates
    ensures r == MakeReceipt(c, c.items[p.item], if equivalent then WasAcceptedEquivalent else WasAccepted, tip,
                             Some(response.code), Some(response.message), r.scheduleUpdates, now)
    ensures RecordAccepted(h, s, itemId, equivalent, tip, response, now, random) == Ok(Changed(s, p.batch, c, [r]))
  {
    p := Locate(s.batches, itemId).value;
    var b := s.batches[p.batch];
    var done := b.items[p.item := AcceptedForm(b.items[p.item])];
    var respread := Reschedule(h, done, itemId, tip, b.timingMeanBlocks, b.timingMaxBlocks, random).value;
    c := b.(items := respread.items);
    r := MakeReceipt(c, c.items[p.item], if equivalent then WasAcceptedEquivalent else WasAccepted, tip,
                     Some(response.code), Some(response.message), respread.updates, now);
  }

  lemma AcceptedBatch(h: Hasher, b: Batch, m: nat, c: Batch)
    requires ItemsOk(h, b.items) && m < |b.items| == |c.items| && b.items[m].status.Submitting?
    requires c == b.(items := c.items) && c.items[m] == AcceptedForm(b.items[m])
    requires forall x :: 0 <= x < |b.items| && x != m ==> Respreads(h, b.items[x], c.items[x])
    ensures SameBatch(b, c) && BatchCounted(b, c) && BatchCalm(b, c)
    ensures forall x :: 0 <= x < |c.items| && x != m && Terminal(c.items[x]) ==> Terminal(b.items[x])
  {
  }

  lemma AcceptedKeepsValid(h: Hasher, s: Snapshot, itemId: string, equivalent: bool, tip: u64, response: Response,
                           now: Date, random: Random)
    requires Valid(h, s) && RecordAccepted(h, s, itemId, equivalent, tip, response, now, random).Ok?
    ensures var t := RecordAccepted(h, s, itemId, equivalent, tip, response, now, random).value;
            Valid(h, t) && Advances(s, t)
  {
    var p, c, r := AcceptanceIsAChange(h, s, itemId, equivalent, tip, response, now, random);
    ValidBatch(h, s, p.batch);
    var b := s.batches[p.batch];
    AcceptedItems(h, b.items, p.item, tip, b.timingMeanBlocks, b.timingMaxBlocks, random);
    AcceptedBatch(h, b, p.item, c);
    SettleOneKeepsValid(h, s, p, c, r);
  }

  // ---------- recovery, arming ----------

  lemma InterruptedKeepsValid(h: Hasher, s: Snapshot, now: Date)
    requires Valid(h, s)
    ensures var t := RecoverInterrupted(s, now);
            && Valid(h, t) && Advances(s, t)
            && forall b, i :: Stored(t, b, i) ==> !i.status.Submitting?
  {
    var t := RecoverInterrupted(s, now);
    assert InPlace(s, t);
    assert t.receipts == s.receipts + [];
    forall b, i | Stored(t, b, i) ensures ItemOk(h, i) && !i.status.Submitting? {
      var k, m := Origin(s, t, b, i);
      assert i == UninterruptItem(s.batches[k].items[m], now);
    }
    forall b | b in t.batches ensures FlagsOk(t, b) {
      var k :| 0 <= k < |t.batches| && t.batches[k] == b;
      assert FlagsOk(s, s.batches[k]);
    }
    assert InPlaceCounted(s, t) && InPlaceCalm(s, t) && Settles(s, t, []);
    InPlaceKeepsValid(h, s, t, []);
  }

  lemma ArmedItems(h: Hasher, digests: map<string, string>, items: seq<Item>)
    requires ItemsOk(h, items)
    ensures var after := ArmItems(digests, items);
            && ItemsOk(h, after)
            && forall m :: 0 <= m < |items| ==>
                 ItemEvolves(items[m], after[m]) && (Attempted(items[m]) ==> Attempted(after[m]))
                 && (Terminal(after[m]) ==> Terminal(items[m]))
                 && (after[m].status.Submitting? ==> items[m].status.Submitting?)
  {
    forall i | i in ArmItems(digests, items) ensures ItemOk(h, i) {
      var m :| 0 <= m < |items| && ArmItem(digests, items[m]) == i;
      assert items[m] in items;
    }
  }

  lemma ArmKeepsValid(h: Hasher, s: Snapshot, batchId: string, digests: map<string, string>, now: Date)
    requires Valid(h, s) && ArmBatch(s, batchId, digests, now).Ok?
    ensures var t := ArmBatch(s, batchId, digests, now).value;
            Valid(h, t) && Advances(s, t)
  {
    var k := FindBatch(s.batches, batchId);
    ValidBatch(h, s, k);
    var b := s.batches[k];
    ArmedItems(h, digests, b.items);
    var c := b.(armedAt := OrElse(b.armedAt, now), items := ArmItems(digests, b.items));
    NothingSettles(b, c);
    ChangeKeepsValid(h, s, k, c, []);
    assert Changed(s, k, c, []) == ArmBatch(s, batchId, digests, now).value by {
      assert s.receipts + [] == s.receipts;
    }
  }

  lemma RecoveredItems(h: Hasher, items: seq<Item>, now: Date)
    requires ItemsOk(h, items)
    ensures var after := RecoverItems(items, now);
            && ItemsOk(h, after)
            && forall m :: 0 <= m < |items| ==>
                 ItemEvolves(items[m], after[m]) && (Attempted(items[m]) ==> Attempted(after[m]))
                 && (Terminal(after[m]) ==> Terminal(items[m]))
                 && (after[m].status.Submitting? ==> items[m].status.Submitting?)
  {
    forall i | i in RecoverItems(items, now) ensures ItemOk(h, i) {
      var m :| 0 <= m < |items| && RecoverItem(items[m], now) == i;
      assert items[m] in items;
    }
  }

  lemma RecoverBatchKeepsValid(h: Hasher, s: Snapshot, batchId: string, network: string, accountUuid: string,
                               runId: string, expectedTxids: set<string>, url: string, now: Date)
    requires Valid(h, s) && RecoverBatch(s, batchId, network, accountUuid, runId, expectedTxids, url, now).Ok?
    ensures var t := RecoverBatch(s, batchId, network, accountUuid, runId, expectedTxids, url, now).value.snapshot;
            Valid(h, t) && Advances(s, t)
  {
    var k := FindBatch(s.batches, batchId);
    if k == |s.batches| {
      CursorChangeKeepsValid(h, s, s);
    } else {
      ValidBatch(h, s, k);
      var b := s.batches[k];
      RecoveredItems(h, b.items, now);
      var items := RecoverItems(b.items, now);
      var c := b.(items := items, lightwalletdUrl := url,
                  armedAt := if HasArmed(items) then OrElse(b.armedAt, now) else b.armedAt);
      NothingSettles(b, c);
      ChangeKeepsValid(h, s, k, c, []);
      assert Changed(s, k, c, []) == RecoverBatch(s, batchId, network, accountUuid, runId, expectedTxids, url, now).value.snapshot by {
        assert s.receipts + [] == s.receipts;
      }
    }
  }

  lemma NothingSettles(b: Batch, c: Batch)
    requires |b.items| == |c.items|
    requires forall m :: 0 <= m < |b.items| && Terminal(c.items[m]) ==> Terminal(b.items[m])
    ensures SettlesBatch(b, c, [])
  {
  }

  // ---------- expiry and re-signing ----------

  lemma RetireItemFacts(h: Hasher, kind: Retirement, tip: u64, i: Item)
    requires ItemOk(h, i)
    ensures var j := RetireItem(kind, tip, i);
            && ItemOk(h, j) && ItemEvolves(i, j) && (Attempted(i) ==> Attempted(j))
            && (j.status.Submitting? ==> i.status.Submitting?)
            && (!Terminal(i) && Terminal(j) <==> Retires(kind, tip, i))
  {
  }

  lemma RetireBatchFacts(h: Hasher, s: Snapshot, kind: Retirement, tip: u64, endpoint: string, b: Batch)
    requires ItemsOk(h, b.items) && FlagsOk(s, b)
    ensures var c := RetireBatch(kind, tip, endpoint, b);
            && SameBatch(b, c) && BatchCounted(b, c) && BatchCalm(b, c) && ItemsOk(h, c.items) && FlagsOk(s, c)
  {
    var c := RetireBatch(kind, tip, endpoint, b);
    forall m | 0 <= m < |b.items|
      ensures ItemEvolves(b.items[m], c.items[m]) && ItemOk(h, c.items[m])
      ensures Attempted(b.items[m]) ==> Attempted(c.items[m])
      ensures c.items[m].status.Submitting? ==> b.items[m].status.Submitting?
    {
      assert b.items[m] in b.items;
      RetireItemFacts(h, kind, tip, b.items[m]);
    }
  }

  /** Membership in the receipts of an expiry or re-sign pass. */
  lemma BatchReceiptsMembers(kind: Retirement, tip: u64, endpoint: string, now: Date, bs: seq<Batch>, r: Receipt)
    ensures r in BatchReceipts(kind, tip, endpoint, now, bs) <==>
              exists k, m :: RetiredAt(kind, tip, endpoint, now, bs, r, k, m)
  {
    if r in BatchReceipts(kind, tip, endpoint, now, bs) {
      var k, m := ReceiptOrigin(kind, tip, endpoint, now, bs, r);
    }
    if k, m :| RetiredAt(kind, tip, endpoint, now, bs, r, k, m) {
      RetiredIsReceipted(kind, tip, endpoint, now, bs, r, k, m);
    }
  }

  lemma {:induction false} ReceiptOrigin(kind: Retirement, tip: u64, endpoint: string, now: Date, bs: seq<Batch>, r: Receipt)
    returns (k: int, m: int)
    requires r in BatchReceipts(kind, tip, endpoint, now, bs)
    ensures RetiredAt(kind, tip, endpoint, now, bs, r, k, m)
  {
    hide RetireReceipt, Retires;
    var head := if bs[0].lightwalletdUrl == endpoint then ItemReceipts(kind, tip, now, bs[0], bs[0].items) else [];
    if r in head {
      var i :| i in bs[0].items && Retires(kind, tip, i) && r == RetireReceipt(kind, tip, now, bs[0], i);
      m :| 0 <= m < |bs[0].items| && bs[0].items[m] == i;
      k := 0;
    } else {
      k, m := ReceiptOrigin(kind, tip, endpoint, now, bs[1..], r);
      k := k + 1;
    }
  }

  lemma {:induction false} RetiredIsReceipted(kind: Retirement, tip: u64, endpoint: string, now: Date, bs: seq<Batch>, r: Receipt,
      k: int, m: int)
    requires RetiredAt(kind, tip, endpoint, now, bs, r, k, m)
    ensures r in BatchReceipts(kind, tip, endpoint, now, bs)
    decreases |bs|
  {
    hide RetireReceipt, Retires;
    if k == 0 {
      assert bs[0].items[m] in bs[0].items;
    } else {
      RetiredIsReceipted(kind, tip, endpoint, now, bs[1..], r, k - 1, m);
    }
  }

  ghost predicate RetiredAt(kind: Retirement, tip: u64, endpoint: string, now: Date, bs: seq<Batch>, r: Receipt, k: int, m: int) {
    && 0 <= k < |bs| && 0 <= m < |bs[k].items| && bs[k].lightwalletdUrl == endpoint
    && Retires(kind, tip, bs[k].items[m]) && r == RetireReceipt(kind, tip, now, bs[k], bs[k].items[m])
  }

  lemma {:induction false} ItemReceiptsDistinct(kind: Retirement, tip: u64, now: Date, b: Batch, items: seq<Item>)
    requires DistinctBy(items, ItemKey)
    ensures DistinctBy(ItemReceipts(kind, tip, now, b, items), ReceiptKey)
    ensures forall r :: r in ItemReceipts(kind, tip, now, b, items) ==> r.itemId in Ids(items)
  {
    hide Retires, RetiredOutcome, RetiredMessage, OutcomeText;
    if items != [] {
      forall x, y | 0 <= x < y < |items[1..]| ensures ItemKey(items[1..][x]) != ItemKey(items[1..][y]) {
        assert ItemKey(items[x + 1]) != ItemKey(items[y + 1]);
      }
      ItemReceiptsDistinct(kind, tip, now, b, items[1..]);
      var rest := ItemReceipts(kind, tip, now, b, items[1..]);
      forall y | 0 <= y < |rest| ensures rest[y].itemId != items[0].itemId {
        assert rest[y] in rest && rest[y].itemId in Ids(items[1..]);
        var i :| i in items[1..] && i.itemId == rest[y].itemId;
        var x :| 0 <= x < |items[1..]| && items[1..][x] == i;
        assert ItemKey(items[0]) != ItemKey(items[x + 1]);
      }
    }
  }

  lemma {:induction false} BatchReceiptsDistinct(kind: Retirement, tip: u64, endpoint: string, now: Date, bs: seq<Batch>)
    requires Unique(bs)
    ensures DistinctBy(BatchReceipts(kind, tip, endpoint, now, bs), ReceiptKey)
  {
    if bs != [] {
      TailUnique(bs);
      BatchReceiptsDistinct(kind, tip, endpoint, now, bs[1..]);
      ItemReceiptsDistinct(kind, tip, now, bs[0], bs[0].items);
      var head := if bs[0].lightwalletdUrl == endpoint then ItemReceipts(kind, tip, now, bs[0], bs[0].items) else [];
      var rest := BatchReceipts(kind, tip, endpoint, now, bs[1..]);
      forall x, y | 0 <= x < |head| && 0 <= y < |rest| ensures ReceiptKey(head[x]) != ReceiptKey(rest[y]) {
        assert head[x] in head && head[x].itemId in Ids(bs[0].items);
        assert rest[y] in rest;
        BatchReceiptsMembers(kind, tip, endpoint, now, bs[1..], rest[y]);
        var k, m :| RetiredAt(kind, tip, endpoint, now, bs[1..], rest[y], k, m);
        assert bs[k + 1].items[m] in bs[k + 1].items && rest[y].itemId in Ids(bs[k + 1].items);
        assert NoSharedIds(bs[0], bs[k + 1]);
      }
      ConcatDistinct(head, rest);
    }
  }

  lemma ConcatDistinct(xs: seq<Receipt>, ys: seq<Receipt>)
    requires DistinctBy(xs, ReceiptKey) && DistinctBy(ys, ReceiptKey)
    requires forall x, y :: 0 <= x < |xs| && 0 <= y < |ys| ==> ReceiptKey(xs[x]) != ReceiptKey(ys[y])
    ensures DistinctBy(xs + ys, ReceiptKey)
  {
  }

  lemma TailUnique(bs: seq<Batch>)
    requires Unique(bs) && bs != []
    ensures Unique(bs[1..])
  {
    var rest := bs[1..];
    forall j, k | 0 <= j < k < |rest| ensures BatchKey(rest[j]) != BatchKey(rest[k]) && NoSharedIds(rest[j], rest[k]) {
      assert BatchKey(bs[j + 1]) != BatchKey(bs[k + 1]) && NoSharedIds(bs[j + 1], bs[k + 1]);
    }
    forall k | 0 <= k < |rest| ensures DistinctBy(rest[k].items, ItemKey) {
      assert rest[k] == bs[k + 1];
    }
  }

  lemma RetiredReceiptSettles(s: Snapshot, kind: Retirement, tip: u64, endpoint: string, now: Date, r: Receipt)
    requires r in BatchReceipts(kind, tip, endpoint, now, s.batches)
    ensures exists k, m :: SettlesAt(s, Retire(s, kind, tip, endpoint, now), r, k, m)
  {
    BatchReceiptsMembers(kind, tip, endpoint, now, s.batches, r);
    var k, m :| RetiredAt(kind, tip, endpoint, now, s.batches, r, k, m);
    assert SettlesAt(s, Retire(s, kind, tip, endpoint, now), r, k, m);
  }

  lemma RetiredItemHasReceipt(s: Snapshot, kind: Retirement, tip: u64, endpoint: string, now: Date, k: nat, m: nat)
    requires k < |s.batches| && m < |s.batches[k].items|
    requires !Terminal(s.batches[k].items[m])
    requires var c := RetireBatch(kind, tip, endpoint, s.batches[k]); Terminal(c.items[m])
    ensures var c := RetireBatch(kind, tip, endpoint, s.batches[k]);
            HasReceipt(BatchReceipts(kind, tip, endpoint, now, s.batches), c, c.items[m])
  {
    var c := RetireBatch(kind, tip, endpoint, s.batches[k]);
    var r := RetireReceipt(kind, tip, now, s.batches[k], s.batches[k].items[m]);
    assert RetiredAt(kind, tip, endpoint, now, s.batches, r, k, m);
    BatchReceiptsMembers(kind, tip, endpoint, now, s.batches, r);
    assert Matches(r, c, c.items[m]);
  }

  lemma RetireSettles(h: Hasher, s: Snapshot, kind: Retirement, tip: u64, endpoint: string, now: Date)
    requires Unique(s.batches)
    ensures Settles(s, Retire(s, kind, tip, endpoint, now), BatchReceipts(kind, tip, endpoint, now, s.batches))
  {
    var t := Retire(s, kind, tip, endpoint, now);
    var added := BatchReceipts(kind, tip, endpoint, now, s.batches);
    forall r | r in added ensures exists k, m :: SettlesAt(s, t, r, k, m) {
      RetiredReceiptSettles(s, kind, tip, endpoint, now, r);
    }
    forall k, m | 0 <= k < |s.batches| && 0 <= m < |s.batches[k].items|
                  && !Terminal(s.batches[k].items[m]) && Terminal(t.batches[k].items[m])
      ensures HasReceipt(added, t.batches[k], t.batches[k].items[m])
    {
      RetiredItemHasReceipt(s, kind, tip, endpoint, now, k, m);
    }
    BatchReceiptsDistinct(kind, tip, endpoint, now, s.batches);
  }

  lemma RetireKeepsValid(h: Hasher, s: Snapshot, kind: Retirement, tip: u64, endpoint: string, now: Date)
    requires Valid(h, s)
    ensures var t := Retire(s, kind, tip, endpoint, now);
            Valid(h, t) && Advances(s, t)
  {
    var t := Retire(s, kind, tip, endpoint, now);
    forall k | 0 <= k < |s.batches|
      ensures SameBatch(s.batches[k], t.batches[k]) && BatchCounted(s.batches[k], t.batches[k])
      ensures BatchCalm(s.batches[k], t.batches[k])
      ensures ItemsOk(h, t.batches[k].items) && FlagsOk(s, t.batches[k])
    {
      ValidBatch(h, s, k);
      RetireBatchFacts(h, s, kind, tip, endpoint, s.batches[k]);
    }
    RetireSettles(h, s, kind, tip, endpoint, now);
    assert InPlaceCounted(s, t) && InPlaceCalm(s, t);
    assert RecordsOk(h, t);
    InPlaceKeepsValid(h, s, t, BatchReceipts(kind, tip, endpoint, now, s.batches));
  }
}
