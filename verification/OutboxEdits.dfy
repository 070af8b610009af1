/** Mutations that add or remove records: staging, acknowledgement, discarding, revocation;
    and the announcement flags. */
module OutboxEdits {
  import opened Common
  import opened Heights
  import opened OutboxModel
  import opened OutboxInvariants
  import opened OutboxKeeps

  // ---------- staging ----------

  /** The records of a batch to stage come out of the initialiser. */
  ghost predicate Built(h: Hasher, b: Batch) {
    forall i :: i in b.items ==>
      i == NewItem(h, i.itemId, i.partIndex, i.txidHex, i.rawTransaction, i.anchorBoundaryHeight, i.scheduledHeight,
                   i.scheduleStartHeight, i.expiryHeight)
  }

  /** What the caller must guarantee of item ids: none is used by another batch. */
  ghost predicate FreshIds(s: Snapshot, b: Batch) {
    forall c :: c in s.batches && c.batchId != b.batchId ==> NoSharedIds(b, c)
  }

  lemma BuiltItemsOk(h: Hasher, b: Batch)
    requires Stageable(h, b) && Built(h, b)
    ensures ItemsOk(h, b.items)
    ensures forall i :: i in b.items ==> i.status.Staged? && i.attemptCount == 0
    ensures DistinctBy(b.items, ItemKey)
  {
    forall i | i in b.items ensures ItemOk(h, i) && i.attemptCount == 0 {
      LowerIsIdempotent(i.txidHex);
    }
  }

  lemma LowerIsIdempotent(s: string)
    ensures LowerAscii(LowerAscii(s)) == LowerAscii(s)
  {
  }

  /** Every record of `t` is a record of `s` under the same heading, or freshly staged. */
  ghost predicate Grown(s: Snapshot, t: Snapshot) {
    forall c, j :: Stored(t, c, j) ==>
      (j.status.Staged? && j.attemptCount == 0 && !HasItemId(s, j.itemId)) || KeptFrom(s, c, j)
  }

  ghost predicate Survives(t: Snapshot, b: Batch, i: Item) {
    exists c :: Stored(t, c, i) && SameHeading(b, c)
  }

  ghost predicate SameHeading(b: Batch, c: Batch) {
    c.batchId == b.batchId && c.network == b.network && c.accountUuid == b.accountUuid && c.runId == b.runId
  }

  ghost predicate KeptFrom(s: Snapshot, c: Batch, j: Item) {
    exists b :: Stored(s, b, j) && SameHeading(b, c)
  }

  lemma StoredHasItemId(s: Snapshot, b: Batch, i: Item)
    requires Stored(s, b, i)
    ensures HasItemId(s, i.itemId)
  {
    assert i.itemId in Ids(b.items);
  }

  lemma SurvivingMatch(s: Snapshot, t: Snapshot, r: Receipt)
    requires forall b, i :: Stored(s, b, i) && Matches(r, b, i) ==> Survives(t, b, i)
    requires HasMatch(s, r)
    ensures HasMatch(t, r)
  {
    var b, i :| Stored(s, b, i) && Matches(r, b, i);
    var c :| Stored(t, c, i) && SameHeading(b, c);
    assert Matches(r, c, i);
  }

  lemma KeptReceipt(s: Snapshot, rs: seq<Receipt>, c: Batch, j: Item)
    requires Conserved(s) && KeptFrom(s, c, j) && Terminal(j)
    requires forall r :: r in s.receipts && Matches(r, c, j) ==> r in rs
    ensures HasReceipt(rs, c, j)
  {
    var b :| Stored(s, b, j) && SameHeading(b, c);
    var r :| r in s.receipts && Matches(r, b, j);
    assert Matches(r, c, j);
  }

  lemma GrownEvolves(s: Snapshot, t: Snapshot)
    requires Grown(s, t)
    ensures Evolves(s, t)
  {
    forall c, j | Stored(t, c, j)
      ensures Descends(s, c, j) || (!HasItemId(s, j.itemId) && j.status.Staged? && j.attemptCount == 0)
    {
      if KeptFrom(s, c, j) {
        var b :| Stored(s, b, j) && SameHeading(b, c);
        assert ItemEvolves(j, j);
      }
    }
  }

  lemma GrownCounts(s: Snapshot, t: Snapshot)
    requires Unique(s.batches) && Grown(s, t)
    ensures Counts(s, t)
  {
    forall b, i, c, j | Stored(s, b, i) && Stored(t, c, j) && i.itemId == j.itemId && Attempted(i) ensures Attempted(j) {
      StoredHasItemId(s, b, i);
      assert KeptFrom(s, c, j);
      var b' :| Stored(s, b', j) && SameHeading(b', c);
      SameIdSameItem(s, b, i, b', j);
    }
  }

  lemma GrownCalms(s: Snapshot, t: Snapshot)
    requires Grown(s, t)
    ensures Calms(s, t)
  {
    forall c, j | Stored(t, c, j) && j.status.Submitting? ensures SubmittingIn(s, j.itemId) {
      assert KeptFrom(s, c, j);
    }
  }

  lemma SurvivorsKeepMatches(s: Snapshot, t: Snapshot)
    requires ReceiptsMatched(s) && t.receipts == s.receipts
    requires forall b, i :: Stored(s, b, i) ==> Survives(t, b, i)
    ensures ReceiptsMatched(t)
  {
    forall r | r in t.receipts ensures HasMatch(t, r) {
      SurvivingMatch(s, t, r);
    }
  }

  lemma GrownKeepsReceipts(s: Snapshot, t: Snapshot)
    requires Conserved(s) && Grown(s, t) && t.receipts == s.receipts
    ensures TerminalsReceipted(t)
  {
    forall c, j | Stored(t, c, j) && Terminal(j) ensures HasReceipt(t.receipts, c, j) {
      KeptReceipt(s, t.receipts, c, j);
    }
  }

  lemma GrownKeeps(s: Snapshot, t: Snapshot)
    requires Unique(s.batches) && Conserved(s) && Grown(s, t) && t.receipts == s.receipts
    requires forall b, i :: Stored(s, b, i) ==> Survives(t, b, i)
    ensures Conserved(t) && Steps(s, t)
  {
    SurvivorsKeepMatches(s, t);
    GrownKeepsReceipts(s, t);
    GrownEvolves(s, t);
    GrownCounts(s, t);
    GrownCalms(s, t);
  }

  lemma NewBatchKeepsValid(h: Hasher, s: Snapshot, b: Batch)
    requires Valid(h, s) && Stageable(h, b) && Built(h, b) && FreshIds(s, b)
    requires FindBatch(s.batches, b.batchId) == |s.batches|
    ensures var t := s.(batches := s.batches + [b]);
            Valid(h, t) && Steps(s, t)
  {
    var t := s.(batches := s.batches + [b]);
    BuiltItemsOk(h, b);
    forall j, k | 0 <= j < k < |t.batches|
      ensures BatchKey(t.batches[j]) != BatchKey(t.batches[k]) && NoSharedIds(t.batches[j], t.batches[k])
    {
      assert j < |s.batches| && t.batches[j] == s.batches[j];
      if k == |s.batches| {
        assert s.batches[j] in s.batches && NoSharedIds(b, s.batches[j]);
      } else {
        assert BatchKey(s.batches[j]) != BatchKey(s.batches[k]) && NoSharedIds(s.batches[j], s.batches[k]);
      }
    }
    assert Unique(t.batches);
    forall c, j | Stored(t, c, j)
      ensures (j.status.Staged? && j.attemptCount == 0 && !HasItemId(s, j.itemId)) || KeptFrom(s, c, j)
      ensures ItemOk(h, j)
    {
      if Stored(s, c, j) {
        assert SameHeading(c, c);
      } else {
        assert c == b && j.itemId in Ids(b.items);
        assert forall c' :: c' in s.batches ==> NoSharedIds(b, c');
      }
    }
    forall x, i | Stored(s, x, i) ensures Survives(t, x, i) {
      assert Stored(t, x, i) && SameHeading(x, x);
    }
    GrownKeeps(s, t);
  }

  /** What a restage adds: freshly staged records whose ids the batch did not have. */
  lemma AddedItems(h: Hasher, old': Batch, b: Batch)
    requires Stageable(h, b) && Built(h, b)
    ensures var added := NewItems(old'.items, b.items);
            && (forall j :: j in added ==> j in b.items && ItemOk(h, j) && j.status.Staged? && j.attemptCount == 0)
            && (forall j :: j in added ==> j.itemId !in Ids(old'.items))
            && DistinctBy(added, ItemKey)
  {
    BuiltItemsOk(h, b);
    var keep := (i: Item) => !HasId(old'.items, i.itemId);
    FilterKeepsDistinct(b.items, keep, ItemKey);
    assert NewItems(old'.items, b.items) == Filter(b.items, keep);
    forall j | j in NewItems(old'.items, b.items) ensures j.itemId !in Ids(old'.items) {
      assert forall i :: i in old'.items ==> i.itemId != j.itemId;
    }
  }

  lemma RestagedItemsDistinct(old': seq<Item>, added: seq<Item>)
    requires DistinctBy(old', ItemKey) && DistinctBy(added, ItemKey)
    requires forall j :: j in added ==> j.itemId !in Ids(old')
    ensures DistinctBy(old' + added, ItemKey)
    ensures Ids(old' + added) == Ids(old') + Ids(added)
  {
    forall x, y | 0 <= x < y < |old' + added| ensures ItemKey((old' + added)[x]) != ItemKey((old' + added)[y]) {
      if x < |old'| && y >= |old'| {
        assert (old' + added)[x] in old' && (old' + added)[y] in added;
      }
    }
  }

  lemma RestageKeepsValid(h: Hasher, s: Snapshot, b: Batch, k: nat)
    requires Valid(h, s) && Stageable(h, b) && Built(h, b) && FreshIds(s, b)
    requires k < |s.batches| && s.batches[k].batchId == b.batchId
    ensures var t := s.(batches := s.batches[k := Restaged(s.batches[k], b)]);
            Valid(h, t) && Steps(s, t)
  {
    var old' := s.batches[k];
    var c := Restaged(old', b);
    var added := NewItems(old'.items, b.items);
    var t := s.(batches := s.batches[k := c]);
    ValidBatch(h, s, k);
    AddedItems(h, old', b);
    RestagedItemsDistinct(old'.items, added);
    assert c.items == old'.items + added && SameHeading(old', c) && FlagsOk(s, c);
    RestageKeepsUnique(s, b, k, added, c);
    forall x, j | Stored(t, x, j)
      ensures (j.status.Staged? && j.attemptCount == 0 && !HasItemId(s, j.itemId)) || KeptFrom(s, x, j)
      ensures ItemOk(h, j)
    {
      if x == c {
        if j in old'.items {
          assert Stored(s, old', j);
        } else {
          NotElsewhere(s, b, k, j);
        }
      } else {
        assert Stored(s, x, j) && SameHeading(x, x);
      }
    }
    forall x, i | Stored(s, x, i) ensures Survives(t, x, i) {
      var n :| 0 <= n < |s.batches| && s.batches[n] == x;
      assert Stored(t, t.batches[n], i) && SameHeading(x, t.batches[n]);
    }
    GrownKeeps(s, t);
    forall x | x in t.batches ensures FlagsOk(t, x) {
      assert x == c || (x in s.batches && FlagsOk(s, x));
    }
  }

  lemma NotElsewhere(s: Snapshot, b: Batch, k: nat, j: Item)
    requires FreshIds(s, b) && k < |s.batches| && s.batches[k].batchId == b.batchId && DistinctBy(s.batches, BatchKey)
    requires j in b.items && j.itemId !in Ids(s.batches[k].items)
    ensures !HasItemId(s, j.itemId)
  {
    assert j.itemId in Ids(b.items);
    forall c | c in s.batches ensures j.itemId !in Ids(c.items) {
      if c.batchId == b.batchId {
        DistinctByIdentifies(s.batches, BatchKey, c, s.batches[k]);
      } else {
        assert NoSharedIds(b, c);
      }
    }
  }

  lemma RestageKeepsUnique(s: Snapshot, b: Batch, k: nat, added: seq<Item>, c: Batch)
    requires Unique(s.batches) && FreshIds(s, b) && k < |s.batches| && s.batches[k].batchId == b.batchId == c.batchId
    requires c.items == s.batches[k].items + added && DistinctBy(c.items, ItemKey)
    requires Ids(c.items) == Ids(s.batches[k].items) + Ids(added)
    requires forall j :: j in added ==> j in b.items
    ensures Unique(s.batches[k := c])
  {
    var bs := s.batches[k := c];
    forall x, y | 0 <= x < y < |bs| ensures BatchKey(bs[x]) != BatchKey(bs[y]) && NoSharedIds(bs[x], bs[y]) {
      assert BatchKey(s.batches[x]) != BatchKey(s.batches[y]) && NoSharedIds(s.batches[x], s.batches[y]);
      var other := if x == k then y else x;
      if x == k || y == k {
        assert s.batches[other] in s.batches && BatchKey(s.batches[other]) != BatchKey(s.batches[k]);
        assert NoSharedIds(b, s.batches[other]);
        assert Ids(added) <= Ids(b.items);
      }
    }
    forall x | 0 <= x < |bs| ensures DistinctBy(bs[x].items, ItemKey) {
      assert x != k ==> bs[x] == s.batches[x];
    }
  }

  lemma StageKeepsValid(h: Hasher, s: Snapshot, b: Batch)
    requires Valid(h, s) && Built(h, b) && FreshIds(s, b) && Stage(h, s, b).Ok?
    ensures var t := Stage(h, s, b).value;
            Valid(h, t) && Steps(s, t)
  {
    var k := FindBatch(s.batches, b.batchId);
    if k == |s.batches| {
      NewBatchKeepsValid(h, s, b);
    } else {
      RestageKeepsValid(h, s, b, k);
    }
  }

  /** Staging the same batch again changes nothing. */
  lemma RestagingIsIdempotent(h: Hasher, s: Snapshot, b: Batch)
    requires Stage(h, s, b).Ok?
    ensures Stage(h, Stage(h, s, b).value, b) == Ok(Stage(h, s, b).value)
  {
    var t := Stage(h, s, b).value;
    var k := FindBatch(s.batches, b.batchId);
    var c := if k == |s.batches| then b else Restaged(s.batches[k], b);
    StagedBatchFound(s.batches, b.batchId, c, k);
    assert FindBatch(t.batches, b.batchId) == k && t.batches[k] == c;
    var base := if k == |s.batches| then [] else s.batches[k].items;
    assert c.items == base + NewItems(base, b.items) by {
      if k == |s.batches| {
        FilterAll(b.items, (i: Item) => !HasId([], i.itemId));
        EveryItemIsNew(b.items);
      }
    }
    forall i | i in b.items ensures HasId(c.items, i.itemId) && Mergeable(c.items, i) {
      MergedItemFound(h, base, b, i);
    }
    EveryItemIsOld(c.items, b.items);
    assert c.items + [] == c.items;
    assert Restaged(c, b) == c;
    assert t.batches[k := c] == t.batches;
  }

  lemma StagedBatchFound(bs: seq<Batch>, batchId: string, c: Batch, k: nat)
    requires k == FindBatch(bs, batchId) && c.batchId == batchId
    ensures k == |bs| ==> FindBatch(bs + [c], batchId) == k
    ensures k < |bs| ==> FindBatch(bs[k := c], batchId) == k
  {
    var after := if k == |bs| then bs + [c] else bs[k := c];
    var f := FindBatch(after, batchId);
    assert after[k].batchId == batchId;
    assert forall x :: 0 <= x < k ==> after[x] == bs[x];
  }

  lemma {:induction false} EveryItemIsNew(items: seq<Item>)
    ensures NewItems([], items) == items
  {
    FilterAll(items, (i: Item) => !HasId([], i.itemId));
  }

  lemma EveryItemIsOld(existing: seq<Item>, items: seq<Item>)
    requires forall i :: i in items ==> HasId(existing, i.itemId)
    ensures NewItems(existing, items) == []
  {
    FilterNone(items, (i: Item) => !HasId(existing, i.itemId));
  }

  /** After the merge, the incoming record is found as it was accepted. */
  lemma MergedItemFound(h: Hasher, base: seq<Item>, b: Batch, i: Item)
    requires Stageable(h, b) && i in b.items && Mergeable(base, i)
    ensures var items := base + NewItems(base, b.items);
            HasId(items, i.itemId) && Mergeable(items, i)
  {
    var added := NewItems(base, b.items);
    var items := base + added;
    var at := FindItem(items, i.itemId);
    if HasId(base, i.itemId) {
      var k := FindItem(base, i.itemId);
      assert items[k] == base[k];
      assert at == k;
    } else {
      assert i in added && i in items;
      var n :| 0 <= n < |items| && items[n] == i;
      assert at <= n;
      assert forall x :: 0 <= x < |base| ==> items[x] == base[x] && base[x].itemId != i.itemId;
      assert items[at] in added && items[at] in b.items;
      DistinctByIdentifies(b.items, ItemKey, items[at], i);
    }
  }

  // ---------- removal ----------

  /** Every record of `t` stands in `s` under the same heading, and receipts are dropped
      exactly with their records. */
  ghost predicate Shrinks(s: Snapshot, t: Snapshot) {
    && (forall c, j :: Stored(t, c, j) ==> KeptFrom(s, c, j))
    && (forall r :: r in t.receipts ==> r in s.receipts)
    && DistinctBy(t.receipts, ReceiptKey)
    && (forall r, b, i :: r in t.receipts && Stored(s, b, i) && Matches(r, b, i) ==> Survives(t, b, i))
    && (forall r, c, j :: r in s.receipts && Stored(t, c, j) && Matches(r, c, j) ==> r in t.receipts)
  }

  lemma ShrinkConserves(s: Snapshot, t: Snapshot)
    requires Conserved(s) && Shrinks(s, t)
    ensures Conserved(t)
  {
    forall r | r in t.receipts ensures HasMatch(t, r) {
      SurvivingMatch(s, t, r);
    }
    forall c, j | Stored(t, c, j) && Terminal(j) ensures HasReceipt(t.receipts, c, j) {
      KeptReceipt(s, t.receipts, c, j);
    }
  }

  /** Batches of `t` are batches of `s`, possibly with fewer records. */
  ghost predicate Pruned(bs: seq<Batch>, cs: seq<Batch>) {
    && DistinctBy(cs, BatchKey)
    && forall c :: c in cs ==> exists b :: b in bs && PrunedFrom(b, c)
  }

  ghost predicate PrunedFrom(b: Batch, c: Batch) {
    && c == b.(items := c.items) && (forall i :: i in c.items ==> i in b.items)
    && (DistinctBy(b.items, ItemKey) ==> DistinctBy(c.items, ItemKey))
  }

  lemma PrunedKeepsUnique(bs: seq<Batch>, cs: seq<Batch>)
    requires Unique(bs) && Pruned(bs, cs)
    ensures Unique(cs)
  {
    forall k | 0 <= k < |cs| ensures DistinctBy(cs[k].items, ItemKey) {
      assert cs[k] in cs;
      var b :| b in bs && PrunedFrom(b, cs[k]);
    }
    forall j, k | 0 <= j < k < |cs| ensures NoSharedIds(cs[j], cs[k]) {
      assert cs[j] in cs && cs[k] in cs && BatchKey(cs[j]) != BatchKey(cs[k]);
      var b :| b in bs && PrunedFrom(b, cs[j]);
      var c :| c in bs && PrunedFrom(c, cs[k]);
      OtherBatchesShareNothing(bs, b, c);
      assert Ids(cs[j].items) <= Ids(b.items) && Ids(cs[k].items) <= Ids(c.items);
    }
  }

  lemma PrunedIsKept(s: Snapshot, t: Snapshot)
    requires Pruned(s.batches, t.batches)
    ensures forall c, j :: Stored(t, c, j) ==> KeptFrom(s, c, j)
  {
    forall c, j | Stored(t, c, j) ensures KeptFrom(s, c, j) {
      var b :| b in s.batches && PrunedFrom(b, c);
      assert Stored(s, b, j) && SameHeading(b, c);
    }
  }

  lemma PrunedRecordsOk(h: Hasher, s: Snapshot, t: Snapshot)
    requires RecordsOk(h, s) && Pruned(s.batches, t.batches)
    requires forall id :: id in t.announced ==> id in s.announced
    ensures RecordsOk(h, t)
  {
    forall c | c in t.batches ensures FlagsOk(t, c) {
      var b :| b in s.batches && PrunedFrom(b, c);
      assert FlagsOk(s, b);
    }
    forall c, j | Stored(t, c, j) ensures ItemOk(h, j) {
      var b :| b in s.batches && PrunedFrom(b, c);
      assert Stored(s, b, j);
    }
  }

  lemma RemovalKeepsValid(h: Hasher, s: Snapshot, t: Snapshot)
    requires Valid(h, s) && Pruned(s.batches, t.batches) && Shrinks(s, t)
    requires forall id :: id in t.announced ==> id in s.announced
    ensures Valid(h, t) && Steps(s, t)
  {
    PrunedKeepsUnique(s.batches, t.batches);
    PrunedRecordsOk(h, s, t);
    ShrinkConserves(s, t);
    GrownEvolves(s, t);
    GrownCounts(s, t);
    GrownCalms(s, t);
  }

  /** Whole batches go, each with all of its receipts. */
  ghost predicate Drops(s: Snapshot, t: Snapshot, gone: set<string>) {
    && DistinctBy(t.batches, BatchKey) && DistinctBy(t.receipts, ReceiptKey)
    && (forall b :: b in t.batches <==> b in s.batches && b.batchId !in gone)
    && (forall r :: r in t.receipts <==> r in s.receipts && r.batchId !in gone)
  }

  lemma DroppingPrunes(s: Snapshot, t: Snapshot, gone: set<string>)
    requires Drops(s, t, gone)
    ensures Pruned(s.batches, t.batches)
  {
    forall c | c in t.batches ensures exists b :: b in s.batches && PrunedFrom(b, c) {
      assert PrunedFrom(c, c);
    }
  }

  lemma DroppingShrinks(s: Snapshot, t: Snapshot, gone: set<string>)
    requires Drops(s, t, gone)
    ensures Shrinks(s, t)
  {
    forall c, j | Stored(t, c, j) ensures KeptFrom(s, c, j) {
      assert Stored(s, c, j) && SameHeading(c, c);
    }
    forall r, b, i | r in t.receipts && Stored(s, b, i) && Matches(r, b, i) ensures Survives(t, b, i) {
      assert Stored(t, b, i) && SameHeading(b, b);
    }
  }

  lemma DroppingBatchesKeepsValid(h: Hasher, s: Snapshot, t: Snapshot, gone: set<string>)
    requires Valid(h, s) && Drops(s, t, gone)
    requires forall id :: id in t.announced ==> id in s.announced
    ensures Valid(h, t) && Steps(s, t)
  {
    DroppingPrunes(s, t, gone);
    DroppingShrinks(s, t, gone);
    RemovalKeepsValid(h, s, t);
  }

  lemma RevokeKeepsValid(h: Hasher, s: Snapshot, network: string, accountUuid: string)
    requires Valid(h, s)
    ensures var t := Revoke(s, network, accountUuid);
            Valid(h, t) && Steps(s, t)
  {
    DroppingBatchesKeepsValid(h, s, Revoke(s, network, accountUuid), ScopeBatchIds(s.batches, network, accountUuid));
  }

  lemma CutBatch(bs: seq<Batch>, k: nat)
    requires DistinctBy(bs, BatchKey) && k < |bs|
    ensures var cs := bs[..k] + bs[k + 1..];
            DistinctBy(cs, BatchKey) && forall b :: b in cs <==> b in bs && b.batchId != bs[k].batchId
  {
    var cs := bs[..k] + bs[k + 1..];
    forall x, y | 0 <= x < y < |cs| ensures BatchKey(cs[x]) != BatchKey(cs[y]) {
      var x' := if x < k then x else x + 1;
      var y' := if y < k then y else y + 1;
      assert BatchKey(bs[x']) != BatchKey(bs[y']);
    }
    forall b ensures b in cs <==> b in bs && b.batchId != bs[k].batchId {
      if b in bs && b.batchId != bs[k].batchId {
        var x :| 0 <= x < |bs| && bs[x] == b;
        assert if x < k then cs[x] == b else cs[x - 1] == b;
      }
      if b in cs {
        var x :| 0 <= x < |cs| && cs[x] == b;
        var x' := if x < k then x else x + 1;
        assert BatchKey(bs[x']) != BatchKey(bs[k]);
      }
    }
  }

  lemma DiscardKeepsValid(h: Hasher, s: Snapshot, batchId: string)
    requires Valid(h, s) && DiscardBatch(s, batchId).Ok?
    ensures var t := DiscardBatch(s, batchId).value.snapshot;
            Valid(h, t) && Steps(s, t)
  {
    var k := FindBatch(s.batches, batchId);
    if k == |s.batches| {
      InPlaceUnchanged(s);
    } else {
      CutBatch(s.batches, k);
      DroppingBatchesKeepsValid(h, s, DiscardBatch(s, batchId).value.snapshot, {batchId});
    }
  }

  lemma InPlaceUnchanged(s: Snapshot)
    requires Unique(s.batches)
    ensures Steps(s, s)
  {
    assert Advances(s, s);
    AdvanceSteps(s, s);
  }

  // ---------- acknowledgement ----------

  /** The receipt of a record is dropped exactly when its item id is acknowledged, because
      no other receipt names that item. */
  lemma AcknowledgedExactly(s: Snapshot, ids: set<string>, r: Receipt)
    requires Conserved(s) && r in s.receipts
    ensures r.receiptId in ids <==> r.itemId in AcknowledgedItems(s.receipts, ids)
  {
    if r.itemId in AcknowledgedItems(s.receipts, ids) {
      var q :| q in s.receipts && q.receiptId in ids && q.itemId == r.itemId;
      DistinctByIdentifies(s.receipts, ReceiptKey, q, r);
    }
  }

  ghost predicate Spared(s: Snapshot, ids: set<string>, b: Batch, i: Item) {
    b.batchId !in RemovableBatches(s.receipts, ids) && i.itemId !in AcknowledgedItems(s.receipts, ids)
  }

  lemma AcknowledgedBatches(s: Snapshot, ids: set<string>)
    requires DistinctBy(s.batches, BatchKey)
    ensures var t := AcknowledgeReceipts(s, ids);
            && Pruned(s.batches, t.batches)
            && (forall b, i :: Stored(s, b, i) && Spared(s, ids, b, i) ==> Survives(t, b, i))
            && (forall c, j :: Stored(t, c, j) ==> Spared(s, ids, c, j))
  {
    var gone := AcknowledgedItems(s.receipts, ids);
    var removable := RemovableBatches(s.receipts, ids);
    var kept := WithoutBatches(s.batches, removable);
    var stripped := StripItems(kept, gone);
    var t := AcknowledgeReceipts(s, ids);
    forall x, y | 0 <= x < y < |stripped| ensures BatchKey(stripped[x]) != BatchKey(stripped[y]) {
      assert BatchKey(kept[x]) != BatchKey(kept[y]);
    }
    FilterKeepsDistinct(stripped, Retained, BatchKey);
    forall c | c in t.batches
      ensures exists b :: b in s.batches && PrunedFrom(b, c)
      ensures c.batchId !in removable && forall i :: i in c.items ==> i.itemId !in gone
    {
      var k :| 0 <= k < |stripped| && stripped[k] == c;
      assert kept[k] in kept && PrunedFrom(kept[k], c);
    }
    forall b, i | Stored(s, b, i) && Spared(s, ids, b, i) ensures Survives(t, b, i) {
      var k :| 0 <= k < |kept| && kept[k] == b;
      assert stripped[k] in stripped && i in stripped[k].items && Retained(stripped[k]);
      assert Stored(t, stripped[k], i) && SameHeading(b, stripped[k]);
    }
  }

  lemma AcknowledgeShrinks(s: Snapshot, ids: set<string>)
    requires Conserved(s) && Unique(s.batches)
    ensures Shrinks(s, AcknowledgeReceipts(s, ids))
  {
    var t := AcknowledgeReceipts(s, ids);
    AcknowledgedBatches(s, ids);
    PrunedIsKept(s, t);
    forall r, b, i | r in t.receipts && Stored(s, b, i) && Matches(r, b, i) ensures Survives(t, b, i) {
      AcknowledgedExactly(s, ids, r);
      assert Spared(s, ids, b, i);
    }
    forall r, c, j | r in s.receipts && Stored(t, c, j) && Matches(r, c, j) ensures r in t.receipts {
      assert Spared(s, ids, c, j);
      AcknowledgedExactly(s, ids, r);
    }
  }

  lemma AcknowledgeKeepsValid(h: Hasher, s: Snapshot, ids: set<string>)
    requires Valid(h, s)
    ensures var t := AcknowledgeReceipts(s, ids);
            Valid(h, t) && Steps(s, t)
  {
    AcknowledgeShrinks(s, ids);
    AcknowledgedBatches(s, ids);
    RemovalKeepsValid(h, s, AcknowledgeReceipts(s, ids));
  }

  /** Acknowledging never takes away a record whose own receipt was not acknowledged. */
  lemma UnacknowledgedRecordSurvives(h: Hasher, s: Snapshot, ids: set<string>, r: Receipt, b: Batch, i: Item)
    requires Valid(h, s) && r in s.receipts && Stored(s, b, i) && Matches(r, b, i)
    requires r.receiptId !in ids
    ensures var t := AcknowledgeReceipts(s, ids);
            r in t.receipts && exists c :: Stored(t, c, i) && Matches(r, c, i)
  {
    AcknowledgeShrinks(s, ids);
    var t := AcknowledgeReceipts(s, ids);
    assert r in t.receipts && Survives(t, b, i);
    var c :| Stored(t, c, i) && SameHeading(b, c);
    assert Matches(r, c, i);
  }
}
