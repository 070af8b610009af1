/** What holds in every reachable state of the outbox in operation. */
module OutboxSafety {
  import opened Common
  import opened Heights
  import opened OutboxModel
  import opened OutboxInvariants
  import opened OutboxSchedule
  import opened OutboxKeeps
  import opened OutboxEdits
  import opened OutboxAnnouncements
  import opened OutboxRotation
  import opened OutboxSystem

  // ---------- the system invariant ----------

  ghost predicate NoSubmitting(s: Snapshot) {
    forall b, i :: Stored(s, b, i) ==> !i.status.Submitting?
  }

  ghost predicate OnlySubmitting(s: Snapshot, itemId: string) {
    forall b, i :: Stored(s, b, i) && i.status.Submitting? ==> i.itemId == itemId
  }

  ghost predicate AtMostOneSubmitting(s: Snapshot) {
    exists id :: OnlySubmitting(s, id)
  }

  /** The selected record is still stored, not terminal, and counted as an attempt. */
  ghost predicate HeldAt(s: Snapshot, sel: Selection, b: Batch, i: Item) {
    Stored(s, b, i) && b.batchId == sel.batchId && ItemEvolves(sel.item, i) && !Terminal(i) && Attempted(i)
  }

  ghost predicate Held(s: Snapshot, sel: Selection) {
    exists b, i :: HeldAt(s, sel, b, i)
  }

  ghost predicate SafeSelection(sel: Selection, tip: u64) {
    && sel.item.scheduledHeight <= tip < sel.item.expiryHeight
    && (CanonicalExpiry(tip).Some? ==> sel.item.expiryHeight == CanonicalExpiry(tip).value)
  }

  ghost predicate GateOk(sys: System) {
    && (sys.running <==> !sys.runner.Idle?)
    && sys.drained <= sys.leases
    && (sys.drained != {} ==> !sys.running)
  }

  ghost predicate SubmittingOk(sys: System) {
    && AtMostOneSubmitting(sys.store)
    && (sys.runner.Inspecting? || sys.runner.AtTip? ==> NoSubmitting(sys.store))
    && (InWindow(sys.runner) ==> OnlySubmitting(sys.store, sys.runner.selection.item.itemId))
  }

  ghost predicate CountedBefore(s: Snapshot, itemId: string) {
    forall b, i :: Stored(s, b, i) && i.itemId == itemId ==> i.attemptCount > 0
  }

  ghost predicate WindowOk(sys: System) {
    InWindow(sys.runner) ==>
      var id := sys.runner.selection.item.itemId;
      && SafeSelection(sys.runner.selection, sys.runner.tip)
      && NotTerminal(sys.store, id)
      && (sys.kept ==> Held(sys.store, sys.runner.selection))
      && (sys.kept && sys.runner.Answered? ==> id in sys.sent)
      && (sys.runner.Holding? && id in sys.sent ==> CountedBefore(sys.store, id))
      && (!sys.kept ==> id !in sys.sent)
  }

  /** Whatever is stored under this id can still be delivered. */
  ghost predicate NotTerminal(s: Snapshot, itemId: string) {
    forall b, i :: Stored(s, b, i) && i.itemId == itemId ==> !Terminal(i)
  }

  /** Whatever was handed to the transport and is still stored counts as attempted. */
  ghost predicate SentAttempted(s: Snapshot, sent: set<string>) {
    && sent <= StoredIds(s)
    && forall b, i :: Stored(s, b, i) && i.itemId in sent ==> Attempted(i)
  }

  ghost predicate LogOk(sys: System) {
    && (forall k :: 0 <= k < |sys.sends| ==> SafeSelection(sys.sends[k].selection, sys.sends[k].tip) && sys.sends[k].run <= sys.run)
    && (forall j, k :: 0 <= j < k < |sys.sends| ==> sys.sends[j].run < sys.sends[k].run)
    && (sys.runner.Admitted? || sys.runner.Inspecting? || sys.runner.AtTip? || sys.runner.Holding? ==>
          forall k :: 0 <= k < |sys.sends| ==> sys.sends[k].run < sys.run)
  }

  ghost predicate CalmOk(sys: System) {
    !sys.disturbed ==>
      if InWindow(sys.runner) then ReadyToAccept(sys.store, sys.runner.selection.item.itemId, sys.runner.tip)
      else NoSubmitting(sys.store)
  }

  ghost predicate SystemOk(h: Hasher, sys: System) {
    && Valid(h, sys.store) && GateOk(sys) && SubmittingOk(sys) && WindowOk(sys)
    && SentAttempted(sys.store, sys.sent) && LogOk(sys) && CalmOk(sys)
  }

  // ---------- small facts ----------

  lemma StoredIdsMembers(s: Snapshot, itemId: string)
    ensures itemId in StoredIds(s) <==> HasItemId(s, itemId)
    ensures itemId in StoredIds(s) <==> exists b, i :: Stored(s, b, i) && i.itemId == itemId
  {
    if itemId in StoredIds(s) {
      var b, i :| b in s.batches && i in b.items && i.itemId == itemId;
      assert Stored(s, b, i) && itemId in Ids(b.items);
    }
    if HasItemId(s, itemId) {
      var b :| b in s.batches && itemId in Ids(b.items);
      var i :| i in b.items && i.itemId == itemId;
      assert Stored(s, b, i);
    }
    if b, i :| Stored(s, b, i) && i.itemId == itemId {
      assert itemId in Ids(b.items);
    }
  }

  lemma InPlaceSameIds(s: Snapshot, t: Snapshot)
    requires InPlace(s, t)
    ensures StoredIds(s) == StoredIds(t)
  {
    forall id ensures id in StoredIds(s) <==> id in StoredIds(t) {
      if id in StoredIds(s) {
        var b, i :| b in s.batches && i in b.items && i.itemId == id;
        var k, m := Destination(s, t, b, i);
      }
      if id in StoredIds(t) {
        var c, j :| c in t.batches && j in c.items && j.itemId == id;
        var k, m := Origin(s, t, c, j);
      }
    }
  }

  lemma {:induction false} LocateSameIds(bs: seq<Batch>, cs: seq<Batch>, itemId: string)
    requires |bs| == |cs| && forall k :: 0 <= k < |bs| ==> SameBatch(bs[k], cs[k])
    ensures Locate(bs, itemId) == Locate(cs, itemId)
  {
    if bs != [] {
      assert SameBatch(bs[0], cs[0]);
      FindSameIds(bs[0].items, cs[0].items, itemId);
      forall k | 0 <= k < |bs[1..]| ensures SameBatch(bs[1..][k], cs[1..][k]) {
        assert SameBatch(bs[k + 1], cs[k + 1]);
      }
      LocateSameIds(bs[1..], cs[1..], itemId);
    }
  }

  lemma FindSameIds(items: seq<Item>, others: seq<Item>, itemId: string)
    requires |items| == |others| && forall k :: 0 <= k < |items| ==> others[k].itemId == items[k].itemId
    ensures FindItem(items, itemId) == FindItem(others, itemId)
  {
    var x, y := FindItem(items, itemId), FindItem(others, itemId);
    assert forall k :: 0 <= k < x ==> others[k].itemId == items[k].itemId;
  }

  /** The record the code finds by id is the one stored under it. */
  lemma LocateFinds(s: Snapshot, b: Batch, i: Item) returns (p: Place)
    requires Unique(s.batches) && Stored(s, b, i)
    ensures Locate(s.batches, i.itemId) == Some(p)
    ensures s.batches[p.batch] == b && b.items[p.item] == i
  {
    assert Locate(s.batches, i.itemId).Some?;
    p := Locate(s.batches, i.itemId).value;
    var c := s.batches[p.batch];
    assert Stored(s, c, c.items[p.item]);
    SameIdSameItem(s, b, i, c, c.items[p.item]);
  }

  /** Evidence of a send survives a step. */
  lemma EvidenceSurvives(s: Snapshot, t: Snapshot, sent: set<string>)
    requires Steps(s, t) && SentAttempted(s, sent)
    ensures SentAttempted(t, sent * StoredIds(t))
  {
    forall c, j | Stored(t, c, j) && j.itemId in sent ensures Attempted(j) {
      StoredIdsMembers(s, j.itemId);
      assert Descends(s, c, j);
      var b, i :| Stored(s, b, i) && b.batchId == c.batchId && ItemEvolves(i, j);
    }
  }

  lemma CalmKeepsOnly(s: Snapshot, t: Snapshot, id: string)
    requires Calms(s, t) && OnlySubmitting(s, id)
    ensures OnlySubmitting(t, id)
  {
    forall c, j | Stored(t, c, j) && j.status.Submitting? ensures j.itemId == id {
      assert SubmittingIn(s, j.itemId);
    }
  }

  lemma CalmKeepsNone(s: Snapshot, t: Snapshot)
    requires Calms(s, t) && NoSubmitting(s)
    ensures NoSubmitting(t)
  {
    forall c, j | Stored(t, c, j) ensures !j.status.Submitting? {
      assert j.status.Submitting? ==> SubmittingIn(s, j.itemId);
    }
  }

  lemma NoneIsAtMostOne(s: Snapshot)
    requires NoSubmitting(s)
    ensures AtMostOneSubmitting(s)
  {
    assert OnlySubmitting(s, "");
  }

  lemma EvolvedIsEvolved(i: Item, j: Item, k: Item)
    requires ItemEvolves(i, j) && ItemEvolves(j, k)
    ensures ItemEvolves(i, k)
  {
  }

  /** A step without new receipts makes no record terminal. */
  lemma NoNewTerminal(h: Hasher, s: Snapshot, t: Snapshot, itemId: string)
    requires Valid(h, s) && Valid(h, t) && (forall r :: r in t.receipts ==> r in s.receipts) && NotTerminal(s, itemId)
    ensures NotTerminal(t, itemId)
  {
    forall c, j | Stored(t, c, j) && j.itemId == itemId ensures !Terminal(j) {
      if Terminal(j) { TerminalBefore(h, s, t, c, j); }
    }
  }

  lemma TerminalBefore(h: Hasher, s: Snapshot, t: Snapshot, c: Batch, j: Item)
    requires Valid(h, s) && Valid(h, t) && (forall r :: r in t.receipts ==> r in s.receipts) && Stored(t, c, j) && Terminal(j)
    ensures !NotTerminal(s, j.itemId)
  {
    assert HasReceipt(t.receipts, c, j);
    var r :| r in t.receipts && Matches(r, c, j);
    assert HasMatch(s, r);
    var b, i :| Stored(s, b, i) && Matches(r, b, i);
  }

  lemma HeldIsNotTerminal(s: Snapshot, sel: Selection)
    requires Unique(s.batches) && Held(s, sel)
    ensures NotTerminal(s, sel.item.itemId)
  {
    var b, i :| HeldAt(s, sel, b, i);
    forall c, j | Stored(s, c, j) && j.itemId == sel.item.itemId ensures !Terminal(j) {
      SameIdSameItem(s, b, i, c, j);
    }
  }

  lemma HeldSurvives(h: Hasher, s: Snapshot, t: Snapshot, sel: Selection)
    requires Valid(h, s) && Valid(h, t) && Steps(s, t) && (forall r :: r in t.receipts ==> r in s.receipts) && Held(s, sel)
    requires sel.item.itemId in StoredIds(t)
    ensures Held(t, sel)
  {
    var b, i :| HeldAt(s, sel, b, i);
    StoredIdsMembers(t, sel.item.itemId);
    StoredHasItemId(s, b, i);
    var c, j :| Stored(t, c, j) && j.itemId == sel.item.itemId;
    assert Descends(s, c, j);
    var b', i' :| Stored(s, b', i') && b'.batchId == c.batchId && ItemEvolves(i', j);
    SameIdSameItem(s, b, i, b', i');
    EvolvedIsEvolved(sel.item, i, j);
    HeldIsNotTerminal(s, sel);
    NoNewTerminal(h, s, t, sel.item.itemId);
    assert HeldAt(t, sel, c, j);
  }

  lemma CountedSurvives(s: Snapshot, t: Snapshot, id: string)
    requires Evolves(s, t) && id in StoredIds(s) && CountedBefore(s, id)
    ensures CountedBefore(t, id)
  {
    StoredIdsMembers(s, id);
    forall c, j | Stored(t, c, j) && j.itemId == id ensures j.attemptCount > 0 {
      assert Descends(s, c, j);
      var b, i :| Stored(s, b, i) && b.batchId == c.batchId && ItemEvolves(i, j);
    }
  }
}
