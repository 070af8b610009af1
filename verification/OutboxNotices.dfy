/** Announcements over whole runs: none is confirmed twice for the same occasion. */
module OutboxNotices {
  import opened Common
  import opened Heights
  import opened OutboxModel
  import opened OutboxInvariants
  import opened OutboxKeeps
  import opened OutboxEdits
  import opened OutboxAnnouncements
  import opened OutboxSystem
  import opened OutboxSafety
  import opened OutboxReachable
  import opened OutboxTheorems

  // ---------- "transfers sent" ----------

  ghost predicate ConfirmsComplete(sys: System, a: Action, id: string) {
    a.Change? && a.edit.ConfirmComplete? && a.edit.batchId == id
    && AcknowledgeBroadcastComplete(sys.store, id, a.edit.now).Ok?
  }

  /** The account's scope is revoked, or everything is removed. */
  ghost predicate ForgetsComplete(h: Hasher, sys: System, a: Action, id: string) {
    a.Change? && EditEnabled(h, sys, a.edit)
    && (a.edit.RemoveAll? || (a.edit.RevokeAccount? && (a.edit.network + ":" + a.edit.accountUuid + ":") <= id))
  }

  /** Confirmed "transfers sent" notifications of this batch id since it was last forgotten. */
  ghost function CompleteConfirmations(h: Hasher, actions: seq<Action>, id: string): nat {
    if actions == [] then 0
    else
      var before := actions[..|actions| - 1];
      var sys, a := After(h, INITIAL, before), actions[|actions| - 1];
      if ForgetsComplete(h, sys, a, id) then 0
      else CompleteConfirmations(h, before, id) + (if ConfirmsComplete(sys, a, id) then 1 else 0)
  }

  lemma PrepareKeepsAnnounced(s: Snapshot, endpoint: string, tip: u64, verify: bool, now: Date)
    ensures Prepare(s, endpoint, tip, verify, now).announced == s.announced
  {
  }

  lemma SelectKeepsAnnounced(s: Snapshot, endpoint: string, tip: u64, verify: bool, attemptId: string, now: Date)
    ensures var r := SelectStep(s, endpoint, tip, verify, attemptId, now);
            r.Ok? ==> r.value.snapshot.announced == s.announced
  {
    PrepareKeepsAnnounced(s, endpoint, tip, verify, now);
  }

  lemma RecordKeepsAnnounced(h: Hasher, s: Snapshot, sel: Selection, tip: u64, answer: Answer, now: Date, random: Random)
    ensures OrSame(s, RecordStep(h, s, sel, tip, answer, now, random)).announced == s.announced
  {
  }

  lemma RunnerKeepsAnnounced(h: Hasher, sys: System, a: RunnerAction)
    ensures RunnerStep(h, sys, a).store.announced == sys.store.announced
  {
    if a.Select? && sys.runner.AtTip? {
      SelectKeepsAnnounced(sys.store, sys.runner.endpoint, sys.runner.tip, a.verify, a.attemptId, a.now);
    } else if a.RecordOutcome? && sys.runner.Answered? {
      RecordKeepsAnnounced(h, sys.store, sys.runner.selection, sys.runner.tip, sys.runner.answer, a.now, a.random);
    }
  }

  lemma EditKeepsAnnounced(h: Hasher, sys: System, e: Edit, id: string)
    requires !ForgetsComplete(h, sys, Change(e), id) && EditEnabled(h, sys, e)
    requires id in sys.store.announced
    ensures id in EditStore(h, sys.store, e).announced
  {
  }

  lemma ConfirmationIsAnnounced(h: Hasher, sys: System, a: Action, id: string)
    requires SystemOk(h, sys) && ConfirmsComplete(sys, a, id)
    ensures id !in sys.store.announced && id in Next(h, sys, a).store.announced
  {
    var k := FindBatch(sys.store.batches, id);
    ValidBatch(h, sys.store, k);
  }

  /** Between two revocations of its account, "transfers sent" is confirmed at most once per
      batch id, even when the record was pruned and staged again in between. */
  lemma {:induction false} CompleteConfirmedOnce(h: Hasher, actions: seq<Action>, id: string)
    ensures CompleteConfirmations(h, actions, id) <= 1
    ensures CompleteConfirmations(h, actions, id) == 1 ==> id in After(h, INITIAL, actions).store.announced
  {
    if actions != [] {
      var before := actions[..|actions| - 1];
      var sys, a := After(h, INITIAL, before), actions[|actions| - 1];
      CompleteConfirmedOnce(h, before, id);
      ReachableIsOk(h, before);
      if !ForgetsComplete(h, sys, a, id) {
        if ConfirmsComplete(sys, a, id) {
          ConfirmationIsAnnounced(h, sys, a, id);
        } else if id in sys.store.announced {
          AnnouncedStays(h, sys, a, id);
        }
      }
    }
  }

  lemma AnnouncedStays(h: Hasher, sys: System, a: Action, id: string)
    requires !ForgetsComplete(h, sys, a, id) && id in sys.store.announced
    ensures id in Next(h, sys, a).store.announced
  {
    match a {
      case Run(step) => RunnerKeepsAnnounced(h, sys, step);
      case Change(e) => if EditEnabled(h, sys, e) { EditKeepsAnnounced(h, sys, e, id); }
      case _ =>
    }
  }

  // ---------- proof announcements ----------

  /** Staging that creates the record or changes the proof height it watches. */
  ghost predicate RestartsWatch(h: Hasher, sys: System, a: Action, id: string) {
    && a.Change? && a.edit.StageBatch? && a.edit.batch.batchId == id
    && EditEnabled(h, sys, a.edit) && Stage(h, sys.store, a.edit.batch).Ok?
    && var k := FindBatch(sys.store.batches, id);
       k == |sys.store.batches| || sys.store.batches[k].nextProofHeight != a.edit.batch.nextProofHeight
  }

  ghost predicate ConfirmsVerified(sys: System, a: Action, id: string) {
    a.Change? && a.edit.ConfirmProof? && a.edit.batchId == id && AcknowledgeProof(sys.store, id, a.edit.now).Ok?
  }

  ghost predicate ConfirmsNotice(sys: System, a: Action, id: string) {
    a.Change? && a.edit.ConfirmHeightNotice? && a.edit.batchId == id && AcknowledgeHeightNotice(sys.store, id, a.edit.now).Ok?
  }

  ghost function VerifiedConfirmations(h: Hasher, actions: seq<Action>, id: string): nat {
    if actions == [] then 0
    else
      var before := actions[..|actions| - 1];
      var sys, a := After(h, INITIAL, before), actions[|actions| - 1];
      if RestartsWatch(h, sys, a, id) then 0
      else VerifiedConfirmations(h, before, id) + (if ConfirmsVerified(sys, a, id) then 1 else 0)
  }

  ghost function NoticeConfirmations(h: Hasher, actions: seq<Action>, id: string): nat {
    if actions == [] then 0
    else
      var before := actions[..|actions| - 1];
      var sys, a := After(h, INITIAL, before), actions[|actions| - 1];
      if RestartsWatch(h, sys, a, id) then 0
      else NoticeConfirmations(h, before, id) + (if ConfirmsNotice(sys, a, id) then 1 else 0)
  }

  ghost predicate HasSource(s: Snapshot, c: Batch) {
    exists b :: b in s.batches && b.batchId == c.batchId && NoticesKept(b, c)
  }

  /** Every batch with this id comes from one before, its confirmations kept. */
  ghost predicate WatchKept(s: Snapshot, t: Snapshot, id: string) {
    forall c :: c in t.batches && c.batchId == id ==> HasSource(s, c)
  }

  lemma InPlaceKeepsWatch(s: Snapshot, t: Snapshot, id: string)
    requires InPlace(s, t)
    ensures WatchKept(s, t, id)
  {
    forall c | c in t.batches && c.batchId == id ensures HasSource(s, c) {
      var k :| 0 <= k < |t.batches| && t.batches[k] == c;
      assert SameBatch(s.batches[k], t.batches[k]);
      assert s.batches[k] in s.batches;
    }
  }

  lemma PrunedKeepsWatch(s: Snapshot, t: Snapshot, id: string)
    requires Pruned(s.batches, t.batches)
    ensures WatchKept(s, t, id)
  {
    forall c | c in t.batches && c.batchId == id ensures HasSource(s, c) {
      var b :| b in s.batches && PrunedFrom(b, c);
    }
  }

  lemma SubsetKeepsWatch(s: Snapshot, t: Snapshot, id: string)
    requires forall c :: c in t.batches ==> c in s.batches
    ensures WatchKept(s, t, id)
  {
    forall c | c in t.batches && c.batchId == id ensures HasSource(s, c) {
      assert NoticesKept(c, c);
    }
  }

  lemma StageKeepsWatch(h: Hasher, s: Snapshot, b: Batch, id: string)
    requires Stage(h, s, b).Ok?
    requires var k := FindBatch(s.batches, id);
             b.batchId == id ==> k < |s.batches| && s.batches[k].nextProofHeight == b.nextProofHeight
    ensures WatchKept(s, Stage(h, s, b).value, id)
  {
    var t := Stage(h, s, b).value;
    forall c | c in t.batches && c.batchId == id ensures HasSource(s, c) {
      if c in s.batches {
        assert NoticesKept(c, c);
      } else {
        var k := FindBatch(s.batches, id);
        assert c == Restaged(s.batches[k], b) && NoticesKept(s.batches[k], c);
      }
    }
  }

  lemma ConfirmCompleteKeepsWatch(s: Snapshot, batchId: string, now: Date, id: string)
    requires AcknowledgeBroadcastComplete(s, batchId, now).Ok?
    ensures WatchKept(s, AcknowledgeBroadcastComplete(s, batchId, now).value, id)
  {
    var t := AcknowledgeBroadcastComplete(s, batchId, now).value;
    var k := FindBatch(s.batches, batchId);
    forall c | c in t.batches && c.batchId == id ensures HasSource(s, c) {
      if c in s.batches {
        assert NoticesKept(c, c);
      } else {
        assert s.batches[k].batchId == c.batchId && NoticesKept(s.batches[k], c);
      }
    }
  }

  lemma EditKeepsWatch(h: Hasher, sys: System, e: Edit, id: string)
    requires SystemOk(h, sys) && EditEnabled(h, sys, e) && !RestartsWatch(h, sys, Change(e), id)
    ensures WatchKept(sys.store, EditStore(h, sys.store, e), id)
  {
    var s := sys.store;
    var t := EditStore(h, s, e);
    SubsetKeepsWatch(s, s, id);
    match e {
      case StageBatch(b) => if Stage(h, s, b).Ok? { StageKeepsWatch(h, s, b, id); }
      case Arm(x, digests, now) =>
        if ArmBatch(s, x, digests, now).Ok? { ArmKeepsValid(h, s, x, digests, now); InPlaceKeepsWatch(s, t, id); }
      case RecoverStored(x, n, a, r, txids, url, now) =>
        if RecoverBatch(s, x, n, a, r, txids, url, now).Ok? {
          RecoverBatchKeepsValid(h, s, x, n, a, r, txids, url, now); InPlaceKeepsWatch(s, t, id);
        }
      case Discard(x) => SubsetKeepsWatch(s, t, id);
      case VerifiedProof(n, a, r, now) => RecordVerifiedProofKeepsValid(h, s, n, a, r, now); InPlaceKeepsWatch(s, t, id);
      case ConfirmProof(x, now) =>
        if AcknowledgeProof(s, x, now).Ok? { AcknowledgeProofKeepsValid(h, s, x, now); InPlaceKeepsWatch(s, t, id); }
      case OweHeightNotice(x, now) => MarkHeightNoticeKeepsValid(h, s, x, now); InPlaceKeepsWatch(s, t, id);
      case ConfirmHeightNotice(x, now) =>
        if AcknowledgeHeightNotice(s, x, now).Ok? { AcknowledgeHeightNoticeKeepsValid(h, s, x, now); InPlaceKeepsWatch(s, t, id); }
      case ConfirmComplete(x, now) =>
        if AcknowledgeBroadcastComplete(s, x, now).Ok? { ConfirmCompleteKeepsWatch(s, x, now, id); }
      case Acknowledge(ids) => AcknowledgedBatches(s, ids); PrunedKeepsWatch(s, t, id);
      case RevokeAccount(_, n, a) => SubsetKeepsWatch(s, t, id);
      case RemoveAll(_) =>
    }
  }

  lemma NextKeepsWatch(h: Hasher, sys: System, a: Action, id: string)
    requires SystemOk(h, sys) && !RestartsWatch(h, sys, a, id)
    ensures WatchKept(sys.store, Next(h, sys, a).store, id)
  {
    SubsetKeepsWatch(sys.store, sys.store, id);
    match a {
      case Run(step) => RunnerEvolves(h, sys, step); InPlaceKeepsWatch(sys.store, RunnerStep(h, sys, step).store, id);
      case Change(e) => if EditEnabled(h, sys, e) { EditKeepsWatch(h, sys, e, id); }
      case _ =>
    }
  }

  ghost predicate VerifiedDone(s: Snapshot, id: string) {
    forall b :: b in s.batches && b.batchId == id ==> b.proofNotifiedAt.Some?
  }

  ghost predicate NoticeDone(s: Snapshot, id: string) {
    forall b :: b in s.batches && b.batchId == id ==> b.heightNoticedAt.Some?
  }

  lemma DoneStays(s: Snapshot, t: Snapshot, id: string)
    requires WatchKept(s, t, id)
    ensures VerifiedDone(s, id) ==> VerifiedDone(t, id)
    ensures NoticeDone(s, id) ==> NoticeDone(t, id)
  {
    forall c | c in t.batches && c.batchId == id
      ensures VerifiedDone(s, id) ==> c.proofNotifiedAt.Some?
      ensures NoticeDone(s, id) ==> c.heightNoticedAt.Some?
    {
      assert HasSource(s, c);
    }
  }

  lemma ConfirmingVerified(h: Hasher, sys: System, a: Action, id: string)
    requires SystemOk(h, sys) && ConfirmsVerified(sys, a, id)
    ensures !VerifiedDone(sys.store, id) && VerifiedDone(Next(h, sys, a).store, id)
  {
    var s := sys.store;
    var k := FindBatch(s.batches, id);
    assert BatchOk(s.batches[k]);
    OnlyBatchWithId(s, k, Next(h, sys, a).store);
  }

  lemma ConfirmingNotice(h: Hasher, sys: System, a: Action, id: string)
    requires SystemOk(h, sys) && ConfirmsNotice(sys, a, id)
    ensures !NoticeDone(sys.store, id) && NoticeDone(Next(h, sys, a).store, id)
  {
    var s := sys.store;
    var k := FindBatch(s.batches, id);
    assert BatchOk(s.batches[k]);
    OnlyBatchWithId(s, k, Next(h, sys, a).store);
  }

  lemma OnlyBatchWithId(s: Snapshot, k: nat, t: Snapshot)
    requires DistinctBy(s.batches, BatchKey) && k < |s.batches| && |t.batches| == |s.batches|
    requires forall x :: 0 <= x < |s.batches| ==> t.batches[x].batchId == s.batches[x].batchId
    ensures forall c :: c in t.batches && c.batchId == s.batches[k].batchId ==> c == t.batches[k]
  {
    forall c | c in t.batches && c.batchId == s.batches[k].batchId ensures c == t.batches[k] {
      var x :| 0 <= x < |t.batches| && t.batches[x] == c;
      DistinctByPosition(s.batches, BatchKey, x, k);
    }
  }

  /** For each proof height a batch watches, the verified announcement is confirmed at most
      once, and so is the height notice. */
  lemma {:induction false} ProofAnnouncedOnce(h: Hasher, actions: seq<Action>, id: string)
    ensures VerifiedConfirmations(h, actions, id) <= 1 && NoticeConfirmations(h, actions, id) <= 1
    ensures VerifiedConfirmations(h, actions, id) == 1 ==> VerifiedDone(After(h, INITIAL, actions).store, id)
    ensures NoticeConfirmations(h, actions, id) == 1 ==> NoticeDone(After(h, INITIAL, actions).store, id)
  {
    if actions != [] {
      var before := actions[..|actions| - 1];
      var sys, a := After(h, INITIAL, before), actions[|actions| - 1];
      ProofAnnouncedOnce(h, before, id);
      ReachableIsOk(h, before);
      if !RestartsWatch(h, sys, a, id) {
        NextKeepsWatch(h, sys, a, id);
        DoneStays(sys.store, Next(h, sys, a).store, id);
        if ConfirmsVerified(sys, a, id) { ConfirmingVerified(h, sys, a, id); }
        if ConfirmsNotice(sys, a, id) { ConfirmingNotice(h, sys, a, id); }
      }
    }
  }
}
