/** The window between a selection and the record of its outcome: what breaks into it, and
    which foreground edits do not. */
module OutboxWindow {
  import opened Common
  import opened Heights
  import opened OutboxModel
  import opened OutboxInvariants
  import opened OutboxKeeps
  import opened OutboxEdits
  import opened OutboxAnnouncements
  import opened OutboxSystem
  import opened OutboxSafety
  import opened OutboxReachable

  // ---------- what breaks in ----------

  /** The recovery at the start of a run took effect. */
  predicate Recovers(sys: System, a: Action) {
    a.Run? && a.step.Recover? && sys.runner.Admitted? && !a.step.commit.FailedBeforeWrite?
  }

  /** A selection is written: a submission begins. */
  predicate Begins(sys: System, a: Action) {
    && a.Run? && a.step.Select? && sys.runner.AtTip?
    && var r := SelectStep(sys.store, sys.runner.endpoint, sys.runner.tip, a.step.verify, a.step.attemptId, a.step.now);
       r.Ok? && r.value.selection.Some?
  }

  /** The outcome of the submission is being recorded. */
  predicate Settles(sys: System, a: Action) {
    a.Run? && ((a.step.CancelBeforeSend? && sys.runner.Holding?) || (a.step.RecordOutcome? && sys.runner.Answered?))
  }

  /** An action that may leave a submission behind: the run selected but did not learn that the
      write took effect, or selected at a tip without a canonical expiry; the outcome was not
      written; an edit changed the items of the batch being sent from; the process died. */
  ghost predicate BreaksIn(h: Hasher, sys: System, a: Action) {
    || (Begins(sys, a) && (a.step.commit.FailedAfterWrite? || CanonicalExpiry(sys.runner.tip).None?))
    || (Settles(sys, a) && a.step.commit.FailedBeforeWrite?)
    || (a.Change? && EditEnabled(h, sys, a.edit) && InWindow(sys.runner)
        && !SelectedBatchKept(sys.store, EditStore(h, sys.store, a.edit), sys.runner.selection.item.itemId))
    || (a.Crash? && InWindow(sys.runner))
  }

  /** Some action broke in, and no run has recovered since. */
  ghost predicate BrokenInto(h: Hasher, actions: seq<Action>) {
    actions != []
    && var before := actions[..|actions| - 1];
       var sys, a := After(h, INITIAL, before), actions[|actions| - 1];
       !Recovers(sys, a) && (BreaksIn(h, sys, a) || BrokenInto(h, before))
  }

  lemma StepDisturbs(h: Hasher, sys: System, a: Action)
    ensures Next(h, sys, a).disturbed <==> !Recovers(sys, a) && (BreaksIn(h, sys, a) || sys.disturbed)
  {
    hide SelectStep, RecordStep, RecoverStep, RecordCancelled, EditStore, StoredIds, SelectedBatchKept, Persist, CanonicalExpiry;
  }

  lemma {:induction false} DisturbedExactly(h: Hasher, actions: seq<Action>)
    ensures After(h, INITIAL, actions).disturbed <==> BrokenInto(h, actions)
  {
    if actions != [] {
      var before := actions[..|actions| - 1];
      DisturbedExactly(h, before);
      StepDisturbs(h, After(h, INITIAL, before), actions[|actions| - 1]);
      hide Next, BreaksIn;
    }
  }

  // ---------- which edits do not ----------

  /** The edit concerns another batch, a notice, or receipts of other batches. */
  ghost predicate Elsewhere(s: Snapshot, e: Edit, batchId: string) {
    match e
    case StageBatch(b) => b.batchId != batchId
    case Arm(id, _, _) => id != batchId
    case RecoverStored(id, _, _, _, _, _, _) => id != batchId
    case Discard(id) => id != batchId
    case Acknowledge(ids) => forall r :: r in s.receipts && r.receiptId in ids ==> r.batchId != batchId
    case RevokeAccount(_, _, _) => false
    case RemoveAll(_) => false
    case _ => true
  }

  /** A batch of `t` with the same id and items. */
  ghost predicate ItemsStand(t: Snapshot, b: Batch) {
    exists c :: c in t.batches && c.batchId == b.batchId && c.items == b.items
  }

  lemma StandingBatchIsKept(s: Snapshot, t: Snapshot, b: Batch, i: Item)
    requires Unique(s.batches) && Unique(t.batches) && Stored(s, b, i) && ItemsStand(t, b)
    ensures SelectedBatchKept(s, t, i.itemId) && i.itemId in StoredIds(t)
  {
    var c :| c in t.batches && c.batchId == b.batchId && c.items == b.items;
    assert Stored(t, c, i);
    var p := LocateFinds(s, b, i);
    var q := LocateFinds(t, c, i);
    DistinctByPosition(b.items, ItemKey, p.item, q.item);
    StoredIdsMembers(t, i.itemId);
  }

  lemma UpdatedElsewhere(s: Snapshot, t: Snapshot, k: nat, b: Batch)
    requires k < |s.batches| == |t.batches| && b in s.batches
    requires forall n :: 0 <= n < |s.batches| && n != k ==> t.batches[n] == s.batches[n]
    requires s.batches[k].batchId != b.batchId
             || (t.batches[k].batchId == s.batches[k].batchId && t.batches[k].items == s.batches[k].items)
    requires DistinctBy(s.batches, BatchKey)
    ensures ItemsStand(t, b)
  {
    var n :| 0 <= n < |s.batches| && s.batches[n] == b;
    assert t.batches[n] in t.batches;
  }

  lemma StagedElsewhere(h: Hasher, s: Snapshot, x: Batch, b: Batch)
    requires Unique(s.batches) && b in s.batches && x.batchId != b.batchId
    ensures ItemsStand(OrSame(s, Stage(h, s, x)), b)
  {
    var r := Stage(h, s, x);
    assert ItemsStand(s, b);
    if r.Ok? {
      var k := FindBatch(s.batches, x.batchId);
      if k < |s.batches| { UpdatedElsewhere(s, r.value, k, b); } else { assert b in r.value.batches; }
    }
  }

  lemma AcknowledgedElsewhere(h: Hasher, s: Snapshot, ids: set<string>, b: Batch)
    requires Valid(h, s) && b in s.batches && b.items != []
    requires forall r :: r in s.receipts && r.receiptId in ids ==> r.batchId != b.batchId
    ensures ItemsStand(AcknowledgeReceipts(s, ids), b)
  {
    var gone := AcknowledgedItems(s.receipts, ids);
    var kept := WithoutBatches(s.batches, RemovableBatches(s.receipts, ids));
    var stripped := StripItems(kept, gone);
    forall i | i in b.items ensures i.itemId !in gone {
      if i.itemId in gone {
        var r :| r in s.receipts && r.receiptId in ids && r.itemId == i.itemId;
        assert HasMatch(s, r);
        var c, j :| Stored(s, c, j) && Matches(r, c, j);
        SameIdSameItem(s, b, i, c, j);
      }
    }
    FilterAll(b.items, (i: Item) => i.itemId !in gone);
    var k :| 0 <= k < |kept| && kept[k] == b;
    assert stripped[k].items == b.items && stripped[k] in stripped && Retained(stripped[k]);
  }

  lemma ElsewhereStands(h: Hasher, s: Snapshot, e: Edit, b: Batch)
    requires Valid(h, s) && b in s.batches && b.items != [] && Elsewhere(s, e, b.batchId)
    ensures ItemsStand(EditStore(h, s, e), b)
  {
    assert ItemsStand(s, b);
    var t := EditStore(h, s, e);
    match e {
      case StageBatch(x) => StagedElsewhere(h, s, x, b);
      case Arm(id, digests, now) =>
        if ArmBatch(s, id, digests, now).Ok? { UpdatedElsewhere(s, t, FindBatch(s.batches, id), b); }
      case RecoverStored(id, n, a, r, txids, url, now) => RecoveredElsewhere(s, id, n, a, r, txids, url, now, b);
      case Discard(id) =>
        if DiscardBatch(s, id).Ok? { assert b in t.batches; }
      case ConfirmComplete(id, now) => ConfirmedElsewhere(s, id, now, b);
      case Acknowledge(ids) => AcknowledgedElsewhere(h, s, ids, b);
      case _ => NoticeStands(h, s, e, b);
    }
    hide Valid, ItemsStand, Stage, RecoverBatch, AcknowledgeReceipts, AcknowledgeBroadcastComplete;
  }

  lemma NoticeStands(h: Hasher, s: Snapshot, e: Edit, b: Batch)
    requires Unique(s.batches) && b in s.batches
    requires e.VerifiedProof? || e.ConfirmProof? || e.OweHeightNotice? || e.ConfirmHeightNotice?
    ensures ItemsStand(EditStore(h, s, e), b)
  {
    assert ItemsStand(s, b);
    var t := EditStore(h, s, e);
    match e {
      case VerifiedProof(n, a, r, now) =>
        var first := FirstMin(s.batches, (x: Batch) => RunBatch(x, n, a, r), ProofKey);
        if first.Some? { UpdatedElsewhere(s, t, first.value, b); }
      case ConfirmProof(id, now) =>
        if AcknowledgeProof(s, id, now).Ok? { UpdatedElsewhere(s, t, FindBatch(s.batches, id), b); }
      case OweHeightNotice(id, now) =>
        if FindBatch(s.batches, id) < |s.batches| { UpdatedElsewhere(s, t, FindBatch(s.batches, id), b); }
      case ConfirmHeightNotice(id, now) =>
        if AcknowledgeHeightNotice(s, id, now).Ok? { UpdatedElsewhere(s, t, FindBatch(s.batches, id), b); }
    }
  }

  lemma RecoveredElsewhere(s: Snapshot, id: string, n: string, a: string, r: string, txids: set<string>, url: string,
                           now: Date, b: Batch)
    requires Unique(s.batches) && b in s.batches && id != b.batchId
    ensures ItemsStand(OrSameRecovery(s, RecoverBatch(s, id, n, a, r, txids, url, now)), b)
  {
    assert ItemsStand(s, b);
    var x := RecoverBatch(s, id, n, a, r, txids, url, now);
    if x.Ok? && FindBatch(s.batches, id) < |s.batches| {
      UpdatedElsewhere(s, x.value.snapshot, FindBatch(s.batches, id), b);
    }
  }

  lemma ConfirmedElsewhere(s: Snapshot, id: string, now: Date, b: Batch)
    requires Unique(s.batches) && b in s.batches && b.items != []
    ensures ItemsStand(OrSame(s, AcknowledgeBroadcastComplete(s, id, now)), b)
  {
    assert ItemsStand(s, b);
    var r := AcknowledgeBroadcastComplete(s, id, now);
    if r.Ok? {
      var k := FindBatch(s.batches, id);
      if |r.value.batches| == |s.batches| {
        UpdatedElsewhere(s, r.value, k, b);
      } else {
        assert b != s.batches[k];
        var n :| 0 <= n < |s.batches| && s.batches[n] == b;
        assert r.value.batches[if n < k then n else n - 1] == b;
      }
    }
  }

  /** An edit of another batch, of a notice, or of other batches' receipts, at any moment,
      neither breaks into the window nor takes the selected record away. */
  lemma OtherEditsDoNotBreakIn(h: Hasher, sys: System, e: Edit)
    requires SystemOk(h, sys) && InWindow(sys.runner) && sys.kept && EditEnabled(h, sys, e)
    requires Elsewhere(sys.store, e, sys.runner.selection.batchId)
    ensures !BreaksIn(h, sys, Change(e)) && EditStep(h, sys, e).kept
  {
    var s, t := sys.store, EditStore(h, sys.store, e);
    EditStoreKeeps(h, sys, e);
    var b, i :| HeldAt(s, sys.runner.selection, b, i);
    assert Unique(s.batches) && Unique(t.batches);
    hide SystemOk, Valid, Elsewhere, EditStore, EditEnabled, SelectedBatchKept, StoredIds, ItemsStand, SelectStep;
    ElsewhereStands(h, s, e, b);
    StandingBatchIsKept(s, t, b, i);
  }

  // ---------- what takes the selected record away ----------

  /** Acknowledging receipts while a record is being sent takes it away exactly when its batch
      is removed: a failure receipt of the batch is acknowledged and none of it is left. Every
      other edit leaves the record stored. */
  lemma SelectedIsDroppedExactly(h: Hasher, sys: System, e: Edit)
    requires SystemOk(h, sys) && InWindow(sys.runner) && sys.kept && EditEnabled(h, sys, e)
    ensures !EditStep(h, sys, e).kept <==>
              e.Acknowledge? && sys.runner.selection.batchId in RemovableBatches(sys.store.receipts, e.receiptIds)
  {
    var s := sys.store;
    var sel := sys.runner.selection;
    EditStoreKeeps(h, sys, e);
    var b, i :| HeldAt(s, sel, b, i);
    if e.Acknowledge? {
      AcknowledgedExactlyRemoved(h, s, e.receiptIds, b, i);
    } else {
      assert i.itemId in StoredIds(EditStore(h, s, e));
    }
    hide EditStore, Valid, RemovableBatches;
  }

  lemma AcknowledgedExactlyRemoved(h: Hasher, s: Snapshot, ids: set<string>, b: Batch, i: Item)
    requires Valid(h, s) && Stored(s, b, i) && !Terminal(i)
    ensures i.itemId in StoredIds(AcknowledgeReceipts(s, ids)) <==> b.batchId !in RemovableBatches(s.receipts, ids)
  {
    var t := AcknowledgeReceipts(s, ids);
    AcknowledgedBatches(s, ids);
    PrunedIsKept(s, t);
    StoredIdsMembers(t, i.itemId);
    if i.itemId in AcknowledgedItems(s.receipts, ids) {
      var r :| r in s.receipts && r.receiptId in ids && r.itemId == i.itemId;
      assert HasMatch(s, r);
      var c, j :| Stored(s, c, j) && Matches(r, c, j);
      SameIdSameItem(s, b, i, c, j);
    }
    if b.batchId !in RemovableBatches(s.receipts, ids) {
      assert Spared(s, ids, b, i);
      var c :| Stored(t, c, i) && SameHeading(b, c);
    }
    if i.itemId in StoredIds(t) {
      var c, j :| Stored(t, c, j) && j.itemId == i.itemId;
      assert Spared(s, ids, c, j) && KeptFrom(s, c, j);
      var d :| Stored(s, d, j) && SameHeading(d, c);
      SameIdSameItem(s, b, i, d, j);
    }
  }
}
