/** The notification flags: which announcements are owed, and that none is made twice. */
module OutboxAnnouncements {
  import opened Common
  import opened Heights
  import opened OutboxModel
  import opened OutboxInvariants
  import opened OutboxKeeps
  import opened OutboxEdits

  lemma FlagChange(h: Hasher, s: Snapshot, k: nat, c: Batch)
    requires Valid(h, s) && k < |s.batches| && FlagsOk(s, c)
    requires c.items == s.batches[k].items && SameHeading(s.batches[k], c) && NoticesKept(s.batches[k], c)
    ensures var t := s.(batches := s.batches[k := c]); Valid(h, t) && Advances(s, t)
  {
    FlagChangeKeepsValid(h, s, k, c);
  }

  lemma MarkProofReadyKeepsValid(h: Hasher, s: Snapshot, tip: u64, endpoint: string, now: Date)
    requires Valid(h, s)
    ensures var t := MarkProofReady(s, tip, endpoint, now); Valid(h, t) && Advances(s, t)
  {
    var c := FirstMin(s.batches, (b: Batch) => ProofCandidate(b, tip, endpoint), ProofKey);
    if c.Some? {
      var k := FindBatch(s.batches, s.batches[c.value].batchId);
      DistinctByIdentifies(s.batches, BatchKey, s.batches[k], s.batches[c.value]);
      ValidBatch(h, s, k);
      FlagChange(h, s, k, s.batches[k].(proofPendingAt := OrElse(s.batches[k].proofPendingAt, now)));
    } else {
      CursorChangeKeepsValid(h, s, s);
    }
  }

  lemma RecordVerifiedProofKeepsValid(h: Hasher, s: Snapshot, network: string, accountUuid: string, runId: string, now: Date)
    requires Valid(h, s)
    ensures var t := RecordVerifiedProof(s, network, accountUuid, runId, now); Valid(h, t) && Advances(s, t)
  {
    var c := FirstMin(s.batches, (b: Batch) => RunBatch(b, network, accountUuid, runId), ProofKey);
    CursorChangeKeepsValid(h, s, s);
    if c.Some? {
      var b := s.batches[c.value];
      ValidBatch(h, s, c.value);
      if b.proofNotifiedAt.None? && b.proofPendingAt.None? {
        FlagChange(h, s, c.value, b.(proofPendingAt := Some(now)));
      }
    }
  }

  lemma AcknowledgeProofKeepsValid(h: Hasher, s: Snapshot, batchId: string, now: Date)
    requires Valid(h, s) && AcknowledgeProof(s, batchId, now).Ok?
    ensures var t := AcknowledgeProof(s, batchId, now).value; Valid(h, t) && Advances(s, t)
  {
    var k := FindBatch(s.batches, batchId);
    ValidBatch(h, s, k);
    FlagChange(h, s, k, s.batches[k].(proofPendingAt := None, proofNotifiedAt := Some(now)));
  }

  lemma MarkHeightNoticeKeepsValid(h: Hasher, s: Snapshot, batchId: string, now: Date)
    requires Valid(h, s)
    ensures var t := MarkHeightNotice(s, batchId, now); Valid(h, t) && Advances(s, t)
  {
    CursorChangeKeepsValid(h, s, s);
    var k := FindBatch(s.batches, batchId);
    if k < |s.batches| && MarkHeightNotice(s, batchId, now) != s {
      ValidBatch(h, s, k);
      FlagChange(h, s, k, s.batches[k].(heightNoticePendingAt := Some(now)));
    }
  }

  lemma AcknowledgeHeightNoticeKeepsValid(h: Hasher, s: Snapshot, batchId: string, now: Date)
    requires Valid(h, s) && AcknowledgeHeightNotice(s, batchId, now).Ok?
    ensures var t := AcknowledgeHeightNotice(s, batchId, now).value; Valid(h, t) && Advances(s, t)
  {
    var k := FindBatch(s.batches, batchId);
    ValidBatch(h, s, k);
    FlagChange(h, s, k, s.batches[k].(heightNoticePendingAt := None, heightNoticedAt := Some(now)));
  }

  lemma MarkBroadcastCompleteKeepsValid(h: Hasher, s: Snapshot, batchId: string, now: Date)
    requires Valid(h, s)
    ensures var t := MarkBroadcastComplete(s, batchId, now); Valid(h, t) && Advances(s, t)
  {
    CursorChangeKeepsValid(h, s, s);
    var k := FindBatch(s.batches, batchId);
    if k < |s.batches| && MarkBroadcastComplete(s, batchId, now) != s {
      ValidBatch(h, s, k);
      FlagChange(h, s, k, s.batches[k].(completePendingAt := OrElse(s.batches[k].completePendingAt, now)));
    }
  }

  lemma AnnouncingKeepsValid(h: Hasher, s: Snapshot, announced: seq<string>)
    requires Valid(h, s)
    requires forall b :: b in s.batches && b.completePendingAt.Some? ==> b.batchId !in announced
    ensures Valid(h, s.(announced := announced))
  {
    var t := s.(announced := announced);
    assert s.receipts + [] == t.receipts;
    assert InPlace(s, t);
    forall b, i | Stored(t, b, i) ensures ItemOk(h, i) {
      assert Stored(s, b, i);
    }
    InPlaceKeepsValid(h, s, t, []);
  }

  lemma EmptyBatchHasNoReceipts(s: Snapshot, k: nat, r: Receipt)
    requires ReceiptsMatched(s) && DistinctBy(s.batches, BatchKey) && k < |s.batches| && s.batches[k].items == []
    requires r in s.receipts
    ensures r.batchId != s.batches[k].batchId
  {
    var b, i :| Stored(s, b, i) && Matches(r, b, i);
    if r.batchId == s.batches[k].batchId {
      DistinctByIdentifies(s.batches, BatchKey, b, s.batches[k]);
    }
  }

  lemma SnapshotsCompose(s: Snapshot, t: Snapshot, u: Snapshot)
    requires Unique(s.batches) && Advances(s, t) && u.batches == t.batches
    ensures Steps(s, u)
  {
    assert Advances(s, u);
    AdvanceSteps(s, u);
  }

  lemma AcknowledgeBroadcastCompleteKeepsValid(h: Hasher, s: Snapshot, batchId: string, now: Date)
    requires Valid(h, s) && AcknowledgeBroadcastComplete(s, batchId, now).Ok?
    ensures var t := AcknowledgeBroadcastComplete(s, batchId, now).value;
            Valid(h, t) && Steps(s, t)
  {
    var k := FindBatch(s.batches, batchId);
    ValidBatch(h, s, k);
    var b := s.batches[k].(completePendingAt := None, completeNotifiedAt := Some(now));
    var s1 := s.(batches := s.batches[k := b]);
    FlagChange(h, s, k, b);
    var announced := if batchId in s.announced then s.announced else s.announced + [batchId];
    forall c | c in s1.batches && c.completePendingAt.Some? ensures c.batchId !in announced {
      var x :| 0 <= x < |s1.batches| && s1.batches[x] == c;
      assert FlagsOk(s, s.batches[x]);
      assert x < k ==> BatchKey(s.batches[x]) != BatchKey(s.batches[k]);
      assert x > k ==> BatchKey(s.batches[k]) != BatchKey(s.batches[x]);
    }
    AnnouncingKeepsValid(h, s1, announced);
    var s2 := s1.(announced := announced);
    SnapshotsCompose(s, s1, s2);
    if b.items == [] && b.nextProofHeight.None? {
      PruneAnnounced(h, s, k, announced);
    }
  }

  /** Dropping the announced, emptied record is the same whether or not its flag was set first. */
  lemma PruneAnnounced(h: Hasher, s: Snapshot, k: nat, announced: seq<string>)
    requires Valid(h, s) && k < |s.batches| && s.batches[k].items == []
    requires forall x :: 0 <= x < |s.batches| && x != k && s.batches[x].completePendingAt.Some? ==> s.batches[x].batchId !in announced
    ensures var t := s.(batches := s.batches[..k] + s.batches[k + 1..], announced := announced);
            Valid(h, t) && Steps(s, t)
  {
    var s1 := s.(batches := s.batches[..k] + s.batches[k + 1..]);
    CutBatch(s.batches, k);
    forall r | r in s.receipts ensures r.batchId != s.batches[k].batchId {
      EmptyBatchHasNoReceipts(s, k, r);
    }
    DroppingBatchesKeepsValid(h, s, s1, {s.batches[k].batchId});
    forall b | b in s1.batches && b.completePendingAt.Some? ensures b.batchId !in announced {
      var x :| 0 <= x < |s1.batches| && s1.batches[x] == b;
      assert b == s.batches[if x < k then x else x + 1];
    }
    AnnouncingKeepsValid(h, s1, announced);
    var t := s1.(announced := announced);
    assert forall c, j :: Stored(t, c, j) <==> Stored(s1, c, j);
    RecordsDecideEvolution(s, s1, t);
  }

  lemma RecordsDecideEvolution(s: Snapshot, t: Snapshot, u: Snapshot)
    requires Steps(s, t) && u.batches == t.batches
    ensures Steps(s, u)
  {
    forall c, j | Stored(u, c, j)
      ensures Descends(s, c, j) || (!HasItemId(s, j.itemId) && j.status.Staged? && j.attemptCount == 0)
    {
      assert Stored(t, c, j);
    }
    forall b, i, c, j | Stored(s, b, i) && Stored(u, c, j) && i.itemId == j.itemId && Attempted(i) ensures Attempted(j) {
      assert Stored(t, c, j);
    }
    forall c, j | Stored(u, c, j) && j.status.Submitting? ensures SubmittingIn(s, j.itemId) {
      assert Stored(t, c, j);
    }
  }
}
