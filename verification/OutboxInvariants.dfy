/** What every mutation of the outbox keeps: identity of records, conservation of
    terminal items and receipts, and the attempt evidence. */
module OutboxInvariants {
  import opened Common
  import opened Heights
  import opened OutboxModel

  // ---------- the invariant ----------

  ghost predicate Stored(s: Snapshot, b: Batch, i: Item) {
    b in s.batches && i in b.items
  }

  ghost function Ids(items: seq<Item>): set<string> {
    set i | i in items :: i.itemId
  }

  ghost predicate HasItemId(s: Snapshot, itemId: string) {
    exists b :: b in s.batches && itemId in Ids(b.items)
  }

  ghost predicate NoSharedIds(b: Batch, c: Batch) {
    Ids(b.items) !! Ids(c.items)
  }

  /** Batch ids are distinct, and an item id occurs once in the whole outbox. */
  ghost predicate Unique(bs: seq<Batch>) {
    && DistinctBy(bs, BatchKey)
    && (forall k :: 0 <= k < |bs| ==> DistinctBy(bs[k].items, ItemKey))
    && (forall j, k :: 0 <= j < k < |bs| ==> NoSharedIds(bs[j], bs[k]))
  }

  /** The receipt speaks about exactly this stored transaction and its outcome. */
  ghost predicate Matches(r: Receipt, b: Batch, i: Item) {
    && r.batchId == b.batchId && r.itemId == i.itemId && r.txidHex == i.txidHex
    && r.network == b.network && r.accountUuid == b.accountUuid && r.runId == b.runId
    && i.status == StatusOf(r.outcome)
  }

  ghost predicate HasMatch(s: Snapshot, r: Receipt) {
    exists b, i :: Stored(s, b, i) && Matches(r, b, i)
  }

  ghost predicate HasReceipt(rs: seq<Receipt>, b: Batch, i: Item) {
    exists r :: r in rs && Matches(r, b, i)
  }

  ghost predicate ReceiptsMatched(s: Snapshot) {
    forall r :: r in s.receipts ==> HasMatch(s, r)
  }

  ghost predicate TerminalsReceipted(s: Snapshot) {
    forall b, i :: Stored(s, b, i) && Terminal(i) ==> HasReceipt(s.receipts, b, i)
  }

  /** Receipts and terminal items correspond one to one, with the same outcome. */
  ghost predicate Conserved(s: Snapshot) {
    ReceiptsMatched(s) && TerminalsReceipted(s) && DistinctBy(s.receipts, ReceiptKey)
  }

  ghost predicate ItemOk(h: Hasher, i: Item) {
    && i.payloadDigest == h(i.rawTransaction)
    && i.txidHex == LowerAscii(i.txidHex)
    && i.scheduledHeight < i.expiryHeight
    && (!i.status.Submitting? ==> i.attemptId.None? && i.attemptStartedAt.None?)
  }

  ghost predicate BatchOk(b: Batch) {
    && TimingValid(b)
    && !(b.proofPendingAt.Some? && b.proofNotifiedAt.Some?)
    && !(b.heightNoticePendingAt.Some? && b.heightNoticedAt.Some?)
    && !(b.completePendingAt.Some? && b.completeNotifiedAt.Some?)
  }

  ghost predicate RecordsOk(h: Hasher, s: Snapshot) {
    && (forall b, i :: Stored(s, b, i) ==> ItemOk(h, i))
    && (forall b :: b in s.batches ==> BatchOk(b) && (b.completePendingAt.Some? ==> b.batchId !in s.announced))
  }

  ghost predicate Valid(h: Hasher, s: Snapshot) {
    Unique(s.batches) && Conserved(s) && RecordsOk(h, s)
  }

  lemma SameIdSameItem(s: Snapshot, b: Batch, i: Item, c: Batch, j: Item)
    requires Unique(s.batches) && Stored(s, b, i) && Stored(s, c, j) && i.itemId == j.itemId
    ensures b == c && i == j
  {
    var x :| 0 <= x < |s.batches| && s.batches[x] == b;
    var y :| 0 <= y < |s.batches| && s.batches[y] == c;
    assert i.itemId in Ids(b.items) && i.itemId in Ids(c.items);
    assert x < y ==> NoSharedIds(s.batches[x], s.batches[y]);
    assert y < x ==> NoSharedIds(s.batches[y], s.batches[x]);
    DistinctByIdentifies(b.items, ItemKey, i, j);
  }

  lemma OtherBatchesShareNothing(bs: seq<Batch>, b: Batch, c: Batch)
    requires Unique(bs) && b in bs && c in bs && b.batchId != c.batchId
    ensures NoSharedIds(b, c)
  {
    var x :| 0 <= x < |bs| && bs[x] == b;
    var y :| 0 <= y < |bs| && bs[y] == c;
    assert x < y ==> NoSharedIds(bs[x], bs[y]);
    assert y < x ==> NoSharedIds(bs[y], bs[x]);
  }

  // ---------- evolution ----------

  /** Bytes, digest, txid, part, anchor and expiry never change; a terminal record is final. */
  ghost predicate ItemEvolves(i: Item, j: Item) {
    && j.itemId == i.itemId && j.partIndex == i.partIndex && j.txidHex == i.txidHex
    && j.rawTransaction == i.rawTransaction && j.payloadDigest == i.payloadDigest
    && j.anchorBoundaryHeight == i.anchorBoundaryHeight && j.expiryHeight == i.expiryHeight
    && i.attemptCount <= j.attemptCount
    && (Terminal(i) ==> j == i)
  }

  /** A confirmed proof announcement or height notice stays confirmed. */
  ghost predicate NoticesKept(b: Batch, c: Batch) {
    && (b.proofNotifiedAt.Some? ==> c.proofNotifiedAt.Some?)
    && (b.heightNoticedAt.Some? ==> c.heightNoticedAt.Some?)
  }

  ghost predicate SameBatch(b: Batch, c: Batch) {
    && c.batchId == b.batchId && c.network == b.network && c.accountUuid == b.accountUuid && c.runId == b.runId
    && NoticesKept(b, c)
    && |c.items| == |b.items|
    && forall k :: 0 <= k < |b.items| ==> ItemEvolves(b.items[k], c.items[k])
  }

  /** The same records, each evolved where it stands. */
  ghost predicate InPlace(s: Snapshot, t: Snapshot) {
    && |t.batches| == |s.batches|
    && forall k :: 0 <= k < |s.batches| ==> SameBatch(s.batches[k], t.batches[k])
  }

  /** What the stop inspection reports as possibly delivered. */
  predicate Attempted(i: Item) {
    i.attemptCount > 0 || i.status in {Submitting, AcceptedAwaiting, RejectedAwaiting}
  }

  /** Evidence of an attempt is never lost by the step. */
  ghost predicate Counts(s: Snapshot, t: Snapshot) {
    forall b, i, c, j :: Stored(s, b, i) && Stored(t, c, j) && i.itemId == j.itemId && Attempted(i) ==> Attempted(j)
  }

  /** No record starts being submitted in the step. */
  ghost predicate Calms(s: Snapshot, t: Snapshot) {
    forall c, j :: Stored(t, c, j) && j.status.Submitting? ==> SubmittingIn(s, j.itemId)
  }

  ghost predicate SubmittingIn(s: Snapshot, itemId: string) {
    exists b, i :: Stored(s, b, i) && i.itemId == itemId && i.status.Submitting?
  }

  ghost predicate Descends(s: Snapshot, c: Batch, j: Item) {
    exists b, i :: Stored(s, b, i) && b.batchId == c.batchId && ItemEvolves(i, j)
  }

  /** Every record after the step descends from one before, or was just staged. */
  ghost predicate Evolves(s: Snapshot, t: Snapshot) {
    forall c, j :: Stored(t, c, j) ==>
      Descends(s, c, j) || (!HasItemId(s, j.itemId) && j.status.Staged? && j.attemptCount == 0)
  }

  /** Where a record stood before an in-place step. */
  lemma Origin(s: Snapshot, t: Snapshot, c: Batch, j: Item) returns (k: nat, m: nat)
    requires InPlace(s, t) && Stored(t, c, j)
    ensures k < |s.batches| && t.batches[k] == c && m < |s.batches[k].items| == |c.items| && c.items[m] == j
    ensures Stored(s, s.batches[k], s.batches[k].items[m])
    ensures s.batches[k].batchId == c.batchId && s.batches[k].network == c.network
    ensures s.batches[k].accountUuid == c.accountUuid && s.batches[k].runId == c.runId
    ensures ItemEvolves(s.batches[k].items[m], j)
  {
    k :| 0 <= k < |t.batches| && t.batches[k] == c;
    m :| 0 <= m < |c.items| && c.items[m] == j;
    assert SameBatch(s.batches[k], t.batches[k]);
  }

  /** Where a record stands after an in-place step. */
  lemma Destination(s: Snapshot, t: Snapshot, b: Batch, i: Item) returns (k: nat, m: nat)
    requires InPlace(s, t) && Stored(s, b, i)
    ensures k < |t.batches| == |s.batches| && s.batches[k] == b && m < |t.batches[k].items| == |b.items| && b.items[m] == i
    ensures Stored(t, t.batches[k], t.batches[k].items[m])
    ensures t.batches[k].batchId == b.batchId && t.batches[k].network == b.network
    ensures t.batches[k].accountUuid == b.accountUuid && t.batches[k].runId == b.runId
    ensures ItemEvolves(i, t.batches[k].items[m])
  {
    k :| 0 <= k < |s.batches| && s.batches[k] == b;
    m :| 0 <= m < |b.items| && b.items[m] == i;
    assert SameBatch(s.batches[k], t.batches[k]);
  }

  lemma InPlaceEvolves(s: Snapshot, t: Snapshot)
    requires InPlace(s, t)
    ensures Evolves(s, t)
  {
    forall c, j | Stored(t, c, j) ensures Descends(s, c, j) {
      var k, m := Origin(s, t, c, j);
    }
  }

  lemma SameBatchSameIds(b: Batch, c: Batch)
    requires SameBatch(b, c)
    ensures Ids(b.items) == Ids(c.items)
    ensures DistinctBy(b.items, ItemKey) ==> DistinctBy(c.items, ItemKey)
  {
    assert forall k :: 0 <= k < |b.items| ==> b.items[k].itemId == c.items[k].itemId;
    forall id ensures id in Ids(b.items) <==> id in Ids(c.items) {
      if id in Ids(b.items) {
        var k :| 0 <= k < |b.items| && b.items[k].itemId == id;
        assert c.items[k] in c.items;
      }
      if id in Ids(c.items) {
        var k :| 0 <= k < |c.items| && c.items[k].itemId == id;
        assert b.items[k] in b.items;
      }
    }
    if DistinctBy(b.items, ItemKey) {
      forall x, y | 0 <= x < y < |c.items| ensures ItemKey(c.items[x]) != ItemKey(c.items[y]) {
        assert ItemKey(b.items[x]) != ItemKey(b.items[y]);
      }
    }
  }

  lemma InPlaceKeepsUnique(s: Snapshot, t: Snapshot)
    requires InPlace(s, t) && Unique(s.batches)
    ensures Unique(t.batches)
  {
    forall k | 0 <= k < |t.batches|
      ensures t.batches[k].batchId == s.batches[k].batchId
      ensures Ids(t.batches[k].items) == Ids(s.batches[k].items)
      ensures DistinctBy(t.batches[k].items, ItemKey)
    {
      SameBatchSameIds(s.batches[k], t.batches[k]);
    }
    forall j, k | 0 <= j < k < |t.batches|
      ensures BatchKey(t.batches[j]) != BatchKey(t.batches[k])
      ensures NoSharedIds(t.batches[j], t.batches[k])
    {
      assert BatchKey(s.batches[j]) != BatchKey(s.batches[k]);
      assert NoSharedIds(s.batches[j], s.batches[k]);
    }
  }

  /** The receipt is about the record at (k, m), which was not terminal before the step. */
  ghost predicate SettlesAt(s: Snapshot, t: Snapshot, r: Receipt, k: int, m: int) {
    && 0 <= k < |s.batches| && k < |t.batches| && 0 <= m < |s.batches[k].items| && m < |t.batches[k].items|
    && !Terminal(s.batches[k].items[m]) && Matches(r, t.batches[k], t.batches[k].items[m])
  }

  /** `added` holds exactly one receipt for each record the step makes terminal. */
  ghost predicate Settles(s: Snapshot, t: Snapshot, added: seq<Receipt>) {
    && t.receipts == s.receipts + added
    && (forall r :: r in added ==> exists k, m :: SettlesAt(s, t, r, k, m))
    && (forall k, m :: 0 <= k < |s.batches| && 0 <= m < |s.batches[k].items| && k < |t.batches| && m < |t.batches[k].items|
          && !Terminal(s.batches[k].items[m]) && Terminal(t.batches[k].items[m])
          ==> HasReceipt(added, t.batches[k], t.batches[k].items[m]))
    && DistinctBy(added, ReceiptKey)
  }

  lemma OldReceiptStillMatches(s: Snapshot, t: Snapshot, r: Receipt)
    requires InPlace(s, t) && HasMatch(s, r)
    ensures HasMatch(t, r)
  {
    var b, i :| Stored(s, b, i) && Matches(r, b, i);
    var k, m := Destination(s, t, b, i);
    assert Matches(r, t.batches[k], t.batches[k].items[m]);
  }

  lemma EveryTerminalHasReceipt(s: Snapshot, t: Snapshot, added: seq<Receipt>, c: Batch, j: Item)
    requires Conserved(s) && InPlace(s, t) && Settles(s, t, added)
    requires Stored(t, c, j) && Terminal(j)
    ensures HasReceipt(t.receipts, c, j)
  {
    var k, m := Origin(s, t, c, j);
    var i := s.batches[k].items[m];
    if Terminal(i) {
      var r :| r in s.receipts && Matches(r, s.batches[k], i);
      assert r in t.receipts && Matches(r, c, j);
    } else {
      var r :| r in added && Matches(r, c, j);
      assert r in t.receipts;
    }
  }

  lemma NewReceiptIsForAnotherItem(s: Snapshot, t: Snapshot, old': Receipt, new': Receipt)
    requires Unique(s.batches) && InPlace(s, t) && HasMatch(s, old')
    requires exists k, m :: SettlesAt(s, t, new', k, m)
    ensures old'.itemId != new'.itemId
  {
    var b, i :| Stored(s, b, i) && Matches(old', b, i);
    var k, m :| SettlesAt(s, t, new', k, m);
    assert SameBatch(s.batches[k], t.batches[k]);
    assert Stored(s, s.batches[k], s.batches[k].items[m]);
    if old'.itemId == new'.itemId {
      SameIdSameItem(s, b, i, s.batches[k], s.batches[k].items[m]);
    }
  }

  lemma InPlaceKeepsConserved(s: Snapshot, t: Snapshot, added: seq<Receipt>)
    requires Unique(s.batches) && Conserved(s) && InPlace(s, t) && Settles(s, t, added)
    ensures Conserved(t)
  {
    forall r | r in t.receipts ensures HasMatch(t, r) {
      if r in s.receipts {
        OldReceiptStillMatches(s, t, r);
      } else {
        var k, m :| SettlesAt(s, t, r, k, m);
        assert Stored(t, t.batches[k], t.batches[k].items[m]);
      }
    }
    forall c, j | Stored(t, c, j) && Terminal(j) ensures HasReceipt(t.receipts, c, j) {
      EveryTerminalHasReceipt(s, t, added, c, j);
    }
    forall x, y | 0 <= x < y < |t.receipts| ensures ReceiptKey(t.receipts[x]) != ReceiptKey(t.receipts[y]) {
      if y < |s.receipts| {
        assert ReceiptKey(s.receipts[x]) != ReceiptKey(s.receipts[y]);
      } else if x >= |s.receipts| {
        assert ReceiptKey(added[x - |s.receipts|]) != ReceiptKey(added[y - |s.receipts|]);
      } else {
        assert t.receipts[x] in s.receipts && t.receipts[y] in added;
        NewReceiptIsForAnotherItem(s, t, t.receipts[x], t.receipts[y]);
      }
    }
  }

  /** Evidence of attempts, position by position. */
  ghost predicate InPlaceCounted(s: Snapshot, t: Snapshot) {
    forall k, m ::
      0 <= k < |s.batches| && k < |t.batches| && 0 <= m < |s.batches[k].items| && m < |t.batches[k].items|
      ==> (Attempted(s.batches[k].items[m]) ==> Attempted(t.batches[k].items[m]))
  }

  lemma InPlaceCounts(s: Snapshot, t: Snapshot)
    requires Unique(s.batches) && InPlace(s, t) && InPlaceCounted(s, t)
    ensures Counts(s, t)
  {
    forall b, i, c, j | Stored(s, b, i) && Stored(t, c, j) && i.itemId == j.itemId && Attempted(i)
      ensures Attempted(j)
    {
      var k, m := Origin(s, t, c, j);
      SameIdSameItem(s, b, i, s.batches[k], s.batches[k].items[m]);
    }
  }

  ghost predicate InPlaceCalm(s: Snapshot, t: Snapshot) {
    forall k, m ::
      0 <= k < |s.batches| && k < |t.batches| && 0 <= m < |s.batches[k].items| && m < |t.batches[k].items|
      ==> (t.batches[k].items[m].status.Submitting? ==> s.batches[k].items[m].status.Submitting?)
  }

  lemma InPlaceCalms(s: Snapshot, t: Snapshot)
    requires InPlace(s, t) && InPlaceCalm(s, t)
    ensures Calms(s, t)
  {
    forall c, j | Stored(t, c, j) && j.status.Submitting? ensures SubmittingIn(s, j.itemId) {
      var k, m := Origin(s, t, c, j);
    }
  }

  /** What every mutation but the start and the cancellation of a submission does. */
  ghost predicate Steps(s: Snapshot, t: Snapshot) {
    Evolves(s, t) && Counts(s, t) && Calms(s, t)
  }

  /** In place: identities, evidence and submissions, record by record. */
  ghost predicate Advances(s: Snapshot, t: Snapshot) {
    InPlace(s, t) && InPlaceCounted(s, t) && InPlaceCalm(s, t)
  }

  lemma AdvanceSteps(s: Snapshot, t: Snapshot)
    requires Unique(s.batches) && Advances(s, t)
    ensures Steps(s, t)
  {
    InPlaceEvolves(s, t);
    InPlaceCounts(s, t);
    InPlaceCalms(s, t);
  }

  lemma AdvancesCompose(s: Snapshot, t: Snapshot, u: Snapshot)
    requires Advances(s, t) && Advances(t, u)
    ensures Advances(s, u)
  {
    forall k | 0 <= k < |s.batches| ensures SameBatch(s.batches[k], u.batches[k]) {
      assert SameBatch(s.batches[k], t.batches[k]) && SameBatch(t.batches[k], u.batches[k]);
    }
  }

  /** A step in place that settles what it ends keeps the invariant. */
  lemma InPlaceKeepsValid(h: Hasher, s: Snapshot, t: Snapshot, added: seq<Receipt>)
    requires Valid(h, s) && InPlace(s, t) && Settles(s, t, added) && RecordsOk(h, t)
    ensures Valid(h, t)
  {
    InPlaceKeepsUnique(s, t);
    InPlaceKeepsConserved(s, t, added);
  }
}
