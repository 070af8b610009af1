/** A batch never stores one txid twice, and what that says of the attempt report. */
module OutboxTxids {
  import opened Common
  import opened OutboxModel
  import opened OutboxInvariants
  import opened OutboxKeeps
  import opened OutboxEdits
  import opened OutboxAnnouncements
  import opened OutboxSystem
  import opened OutboxSafety
  import opened OutboxReachable
  import opened OutboxTheorems

  function TxidKey(i: Item): string { i.txidHex }

  ghost predicate TxidsDistinct(s: Snapshot) {
    forall b :: b in s.batches ==> DistinctBy(b.items, TxidKey)
  }

  lemma InPlaceKeepsTxids(s: Snapshot, t: Snapshot)
    requires InPlace(s, t) && TxidsDistinct(s)
    ensures TxidsDistinct(t)
  {
    forall c | c in t.batches ensures DistinctBy(c.items, TxidKey) {
      var k :| 0 <= k < |t.batches| && t.batches[k] == c;
      var b := s.batches[k];
      assert b in s.batches && SameBatch(b, c);
      forall x, y | 0 <= x < y < |c.items| ensures TxidKey(c.items[x]) != TxidKey(c.items[y]) {
        assert ItemEvolves(b.items[x], c.items[x]) && ItemEvolves(b.items[y], c.items[y]);
        assert TxidKey(b.items[x]) != TxidKey(b.items[y]);
      }
    }
  }

  lemma SubsetKeepsTxids(s: Snapshot, t: Snapshot)
    requires TxidsDistinct(s) && forall c :: c in t.batches ==> c in s.batches
    ensures TxidsDistinct(t)
  {
  }

  lemma AcknowledgeKeepsTxids(s: Snapshot, ids: set<string>)
    requires TxidsDistinct(s)
    ensures TxidsDistinct(AcknowledgeReceipts(s, ids))
  {
    var gone := AcknowledgedItems(s.receipts, ids);
    var kept := WithoutBatches(s.batches, RemovableBatches(s.receipts, ids));
    var stripped := StripItems(kept, gone);
    forall c | c in AcknowledgeReceipts(s, ids).batches ensures DistinctBy(c.items, TxidKey) {
      var k :| 0 <= k < |stripped| && stripped[k] == c;
      assert kept[k] in s.batches;
      FilterKeepsDistinct(kept[k].items, (i: Item) => i.itemId !in gone, TxidKey);
    }
  }

  /** What `stage` accepts has txids of its own, and clashes with none already stored. */
  lemma StageKeepsTxids(h: Hasher, s: Snapshot, b: Batch)
    requires TxidsDistinct(s) && Stage(h, s, b).Ok?
    ensures TxidsDistinct(Stage(h, s, b).value)
  {
    var t := Stage(h, s, b).value;
    var k := FindBatch(s.batches, b.batchId);
    assert DistinctBy(b.items, TxidKey);
    if k < |s.batches| {
      MergedTxids(s.batches[k], b);
      forall c | c in t.batches ensures DistinctBy(c.items, TxidKey) {
        assert c in s.batches || c == Restaged(s.batches[k], b);
      }
    }
  }

  lemma MergedTxids(base: Batch, b: Batch)
    requires DistinctBy(base.items, TxidKey) && DistinctBy(b.items, TxidKey)
    requires forall i :: i in b.items ==> Mergeable(base.items, i)
    ensures DistinctBy(Restaged(base, b).items, TxidKey)
  {
    var added := NewItems(base.items, b.items);
    var items := Restaged(base, b).items;
    FilterKeepsDistinct(b.items, (i: Item) => !HasId(base.items, i.itemId), TxidKey);
    assert items == base.items + added;
    forall x, y | 0 <= x < y < |items| ensures TxidKey(items[x]) != TxidKey(items[y]) {
      if x < |base.items| <= y {
        assert items[y] in added && items[x] in base.items;
      } else if x >= |base.items| {
        assert items[x] == added[x - |base.items|] && items[y] == added[y - |base.items|];
      }
    }
  }

  lemma EditKeepsTxids(h: Hasher, sys: System, e: Edit)
    requires SystemOk(h, sys) && EditEnabled(h, sys, e) && TxidsDistinct(sys.store)
    ensures TxidsDistinct(EditStore(h, sys.store, e))
  {
    var s := sys.store;
    var t := EditStore(h, s, e);
    match e {
      case StageBatch(b) => if Stage(h, s, b).Ok? { StageKeepsTxids(h, s, b); }
      case Arm(x, digests, now) =>
        if ArmBatch(s, x, digests, now).Ok? { ArmKeepsValid(h, s, x, digests, now); InPlaceKeepsTxids(s, t); }
      case RecoverStored(x, n, a, r, txids, url, now) =>
        if RecoverBatch(s, x, n, a, r, txids, url, now).Ok? {
          RecoverBatchKeepsValid(h, s, x, n, a, r, txids, url, now); InPlaceKeepsTxids(s, t);
        }
      case Discard(x) => SubsetKeepsTxids(s, t);
      case VerifiedProof(n, a, r, now) => RecordVerifiedProofKeepsValid(h, s, n, a, r, now); InPlaceKeepsTxids(s, t);
      case ConfirmProof(x, now) =>
        if AcknowledgeProof(s, x, now).Ok? { AcknowledgeProofKeepsValid(h, s, x, now); InPlaceKeepsTxids(s, t); }
      case OweHeightNotice(x, now) => MarkHeightNoticeKeepsValid(h, s, x, now); InPlaceKeepsTxids(s, t);
      case ConfirmHeightNotice(x, now) =>
        if AcknowledgeHeightNotice(s, x, now).Ok? { AcknowledgeHeightNoticeKeepsValid(h, s, x, now); InPlaceKeepsTxids(s, t); }
      case ConfirmComplete(x, now) => ConfirmCompleteKeepsTxids(s, x, now);
      case Acknowledge(ids) => AcknowledgeKeepsTxids(s, ids);
      case RevokeAccount(_, n, a) => SubsetKeepsTxids(s, t);
      case RemoveAll(_) =>
    }
  }

  lemma ConfirmCompleteKeepsTxids(s: Snapshot, batchId: string, now: Date)
    requires TxidsDistinct(s)
    ensures TxidsDistinct(OrSame(s, AcknowledgeBroadcastComplete(s, batchId, now)))
  {
    var r := AcknowledgeBroadcastComplete(s, batchId, now);
    if r.Ok? {
      var k := FindBatch(s.batches, batchId);
      forall c | c in r.value.batches ensures DistinctBy(c.items, TxidKey) {
        assert c in s.batches || c.items == s.batches[k].items;
      }
    }
  }

  lemma {:induction false} ReachableTxidsAreDistinct(h: Hasher, actions: seq<Action>)
    ensures TxidsDistinct(After(h, INITIAL, actions).store)
  {
    if actions != [] {
      var before := actions[..|actions| - 1];
      var sys, a := After(h, INITIAL, before), actions[|actions| - 1];
      ReachableTxidsAreDistinct(h, before);
      ReachableIsOk(h, before);
      match a {
        case Run(step) => RunnerEvolves(h, sys, step); InPlaceKeepsTxids(sys.store, RunnerStep(h, sys, step).store);
        case Change(e) => if EditEnabled(h, sys, e) { EditKeepsTxids(h, sys, e); }
        case _ =>
      }
    }
  }

  /** When one batch holds the whole run, a cancelled record is plainly not reported. */
  lemma CancelledInOnlyBatchIsNotReported(h: Hasher, actions: seq<Action>, b: Batch, i: Item)
    requires var sys := After(h, INITIAL, actions);
             && sys.runner.Holding? && Stored(sys.store, b, i) && i.itemId == sys.runner.selection.item.itemId
             && i.status.Submitting? && i.attemptCount == 0
             && forall c :: c in sys.store.batches && OfRun(c, b.network, b.accountUuid, b.runId) ==> c.batchId == b.batchId
    ensures var s := Next(h, After(h, INITIAL, actions), Run(CancelBeforeSend(Committed))).store;
            i.txidHex !in ListAttemptedTxids(s, b.network, b.accountUuid, b.runId)
  {
    var sys := After(h, INITIAL, actions);
    var all := actions + [Run(CancelBeforeSend(Committed))];
    assert all[..|actions|] == actions;
    var t := After(h, INITIAL, all).store;
    CancelledIsNotReported(h, actions, b, i);
    ReachableIsOk(h, actions);
    ReachableIsOk(h, all);
    ReachableTxidsAreDistinct(h, all);
    RunnerEvolves(h, sys, CancelBeforeSend(Committed));
    OnlyInItsBatch(sys.store, t, b, i);
  }

  lemma OnlyInItsBatch(s: Snapshot, t: Snapshot, b: Batch, i: Item)
    requires Unique(s.batches) && Unique(t.batches) && TxidsDistinct(t) && InPlace(s, t) && Stored(s, b, i)
    requires forall c :: c in s.batches && OfRun(c, b.network, b.accountUuid, b.runId) ==> c.batchId == b.batchId
    ensures !AttemptedByAnother(t, b, i)
  {
    var k, m := Destination(s, t, b, i);
    forall c, j | Stored(t, c, j) && OfRun(c, b.network, b.accountUuid, b.runId) && j.txidHex == i.txidHex
      ensures j.itemId == i.itemId
    {
      var x, y := Origin(s, t, c, j);
      assert SameBatch(s.batches[x], t.batches[x]) && s.batches[x] in s.batches;
      DistinctByPosition(s.batches, BatchKey, x, k);
      assert t.batches[k] in t.batches;
      DistinctByPosition(t.batches[k].items, TxidKey, y, m);
    }
  }
}
