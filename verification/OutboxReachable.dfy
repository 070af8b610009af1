/** Every step of the system keeps the system invariant. */
module OutboxReachable {
  import opened Common
  import opened Heights
  import opened OutboxModel
  import opened OutboxInvariants
  import opened OutboxSchedule
  import opened OutboxKeeps
  import opened OutboxEdits
  import opened OutboxAnnouncements
  import opened OutboxRotation
  import opened OutboxSystem
  import opened OutboxSafety

  // ---------- the recovery step ----------

  lemma RecoverStepKeeps(h: Hasher, s: Snapshot, now: Date)
    requires Valid(h, s)
    ensures var t := RecoverStep(s, now).snapshot;
            Valid(h, t) && InPlace(s, t) && Steps(s, t) && StoredIds(t) == StoredIds(s) && NoSubmitting(t)
  {
    InterruptedKeepsValid(h, s, now);
    var s1 := RecoverInterrupted(s, now);
    var t := RecoverStep(s, now).snapshot;
    CursorChangeKeepsValid(h, s1, t);
    AdvancesCompose(s, s1, t);
    AdvanceSteps(s, t);
    InPlaceSameIds(s, t);
    forall b, i | Stored(t, b, i) ensures !i.status.Submitting? {
      assert Stored(s1, b, i);
    }
  }

  // ---------- the selection step ----------

  lemma PrepareKeeps(h: Hasher, s: Snapshot, endpoint: string, tip: u64, verify: bool, now: Date)
    requires Valid(h, s)
    ensures var t := Prepare(s, endpoint, tip, verify, now); Valid(h, t) && Advances(s, t)
  {
    var s1 := ExpireItems(s, tip, endpoint, now);
    RetireKeepsValid(h, s, Expiry, tip, endpoint, now);
    var s2 := MarkDueNeedingResign(s1, tip, endpoint, now);
    match CanonicalExpiry(tip) {
      case None => CursorChangeKeepsValid(h, s1, s2);
      case Some(c) => RetireKeepsValid(h, s1, Resign(c), tip, endpoint, now);
    }
    AdvancesCompose(s, s1, s2);
    if !verify {
      MarkProofReadyKeepsValid(h, s2, tip, endpoint, now);
      AdvancesCompose(s, s2, MarkProofReady(s2, tip, endpoint, now));
    }
  }

  /** After the marking, every due armed record at the endpoint carries the canonical expiry. */
  lemma MarkedAreCanonical(s: Snapshot, endpoint: string, tip: u64, now: Date, b: Batch)
    requires CanonicalExpiry(tip).Some?
    requires b in MarkDueNeedingResign(s, tip, endpoint, now).batches && b.lightwalletdUrl == endpoint
    ensures DueAreCanonical(b.items, tip)
  {
    var c := CanonicalExpiry(tip).value;
    var t := MarkDueNeedingResign(s, tip, endpoint, now);
    var k :| 0 <= k < |t.batches| && t.batches[k] == b;
    assert b == RetireBatch(Resign(c), tip, endpoint, s.batches[k]);
    forall i | i in b.items && i.status.Armed? && i.scheduledHeight <= tip ensures i.expiryHeight == c {
      var m :| 0 <= m < |b.items| && b.items[m] == i;
      assert i == RetireItem(Resign(c), tip, s.batches[k].items[m]);
    }
  }

  lemma PreparedAreCanonical(s: Snapshot, endpoint: string, tip: u64, verify: bool, now: Date, b: Batch)
    requires CanonicalExpiry(tip).Some?
    requires b in Prepare(s, endpoint, tip, verify, now).batches && b.lightwalletdUrl == endpoint
    ensures DueAreCanonical(b.items, tip)
  {
    var s1 := ExpireItems(s, tip, endpoint, now);
    var s2 := MarkDueNeedingResign(s1, tip, endpoint, now);
    var t := Prepare(s, endpoint, tip, verify, now);
    var k :| 0 <= k < |t.batches| && t.batches[k] == b;
    assert s2.batches[k].items == b.items && s2.batches[k].lightwalletdUrl == endpoint;
    MarkedAreCanonical(s1, endpoint, tip, now, s2.batches[k]);
  }

  /** Starting a submission keeps the validation's answer: it never looks at the item itself. */
  lemma BeginKeepsValidation(s: Snapshot, itemId: string, attemptId: string, now: Date, tip: u64)
    requires BeginSubmission(s, itemId, attemptId, now).Ok?
    requires InPlace(s, BeginSubmission(s, itemId, attemptId, now).value)
    ensures var t := BeginSubmission(s, itemId, attemptId, now).value;
            && Locate(t.batches, itemId) == Locate(s.batches, itemId)
            && ValidateRescheduling(t, itemId, tip) == ValidateRescheduling(s, itemId, tip)
  {
    var t := BeginSubmission(s, itemId, attemptId, now).value;
    var p := Locate(s.batches, itemId).value;
    LocateSameIds(s.batches, t.batches, itemId);
    var items := s.batches[p.batch].items;
    var begun := t.batches[p.batch].items;
    SameOverdueAfterAccepting(items, p.item, begun[p.item], tip);
    var overdue := OverdueIndexes(items, itemId, tip, 0);
    assert begun == items[p.item := begun[p.item]];
    assert ExpiriesOf(begun, overdue) == ExpiriesOf(items, overdue);
  }

  lemma BeginAffects(h: Hasher, s: Snapshot, sel: Selection, b: Batch, attemptId: string, now: Date)
    returns (p: Place)
    requires Valid(h, s) && NoSubmitting(s) && Stored(s, b, sel.item) && sel.batchId == b.batchId && sel.item.status.Armed?
    ensures BeginSubmission(s, sel.item.itemId, attemptId, now).Ok?
    ensures Locate(s.batches, sel.item.itemId) == Some(p) && s.batches[p.batch] == b && b.items[p.item] == sel.item
    ensures var t := BeginSubmission(s, sel.item.itemId, attemptId, now).value;
            && Valid(h, t) && InPlace(s, t) && InPlaceCounted(s, t)
            && OnlySubmitting(t, sel.item.itemId) && Held(t, sel)
            && t.batches[p.batch].items[p.item].status.Submitting?
            && t.batches[p.batch].items[p.item].attemptCount == sel.item.attemptCount
            && t.batches[p.batch].lightwalletdUrl == b.lightwalletdUrl
            && (forall m :: 0 <= m < |b.items| && m != p.item ==> t.batches[p.batch].items[m] == b.items[m])
  {
    var id := sel.item.itemId;
    p := LocateFinds(s, b, sel.item);
    BeginKeepsValid(h, s, id, attemptId, now);
    var t := BeginSubmission(s, id, attemptId, now).value;
    forall c, j | Stored(t, c, j) && j.status.Submitting? ensures j.itemId == id {
      var k, m := Origin(s, t, c, j);
    }
    assert Stored(t, t.batches[p.batch], t.batches[p.batch].items[p.item]);
    assert HeldAt(t, sel, t.batches[p.batch], t.batches[p.batch].items[p.item]);
  }

  /** What the selection step leaves behind when it chose an item. */
  ghost predicate Selected(h: Hasher, s: Snapshot, t: Snapshot, sel: Selection, tip: u64) {
    && Valid(h, t) && InPlace(s, t) && Evolves(s, t) && Counts(s, t) && StoredIds(t) == StoredIds(s)
    && OnlySubmitting(t, sel.item.itemId) && Held(t, sel) && SafeSelection(sel, tip)
    && (CanonicalExpiry(tip).Some? ==> ReadyToAccept(t, sel.item.itemId, tip))
  }

  lemma ChosenIsDue(s: Snapshot, endpoint: string, tip: u64, now: Date) returns (b: Batch)
    requires SelectDue(s, tip, Some(endpoint), now).selection.Some?
    ensures IsSelection(s, tip, Some(endpoint), now, SelectDue(s, tip, Some(endpoint), now).selection.value, b)
    ensures b.lightwalletdUrl == endpoint
  {
    SelectDueIsComplete(s, tip, Some(endpoint), now);
    b :| IsSelection(s, tip, Some(endpoint), now, SelectDue(s, tip, Some(endpoint), now).selection.value, b);
  }

  lemma SelectStepChooses(h: Hasher, s: Snapshot, endpoint: string, tip: u64, verify: bool, attemptId: string, now: Date)
    requires Valid(h, s) && NoSubmitting(s)
    requires SelectStep(s, endpoint, tip, verify, attemptId, now).Ok?
    requires SelectStep(s, endpoint, tip, verify, attemptId, now).value.selection.Some?
    ensures var c := SelectStep(s, endpoint, tip, verify, attemptId, now).value;
            Selected(h, s, c.snapshot, c.selection.value, tip)
  {
    var s1 := Prepare(s, endpoint, tip, verify, now);
    PrepareKeeps(h, s, endpoint, tip, verify, now);
    AdvanceSteps(s, s1);
    CalmKeepsNone(s, s1);
    var choice := SelectDue(s1, tip, Some(endpoint), now);
    var s2 := choice.snapshot;
    var sel := choice.selection.value;
    var b := ChosenIsDue(s1, endpoint, tip, now);
    SelectDueIsComplete(s1, tip, Some(endpoint), now);
    CursorChangeKeepsValid(h, s1, s2);
    AdvancesCompose(s, s1, s2);
    AdvanceSteps(s1, s2);
    CalmKeepsNone(s1, s2);
    if CanonicalExpiry(tip).Some? { PreparedAreCanonical(s, endpoint, tip, verify, now, b); }
    hide Prepare, SelectDue, BeginSubmission, ValidateRescheduling, Valid, NoSubmitting, Advances, Selected, DueAreCanonical;
    BegunChoice(h, s, s2, sel, b, attemptId, now, tip);
  }

  lemma BegunChoice(h: Hasher, s: Snapshot, s2: Snapshot, sel: Selection, b: Batch, attemptId: string, now: Date, tip: u64)
    requires Unique(s.batches) && Valid(h, s2) && NoSubmitting(s2) && Advances(s, s2)
    requires Stored(s2, b, sel.item) && sel.batchId == b.batchId
    requires sel.item.status.Armed? && SafeSelection(sel, tip)
    requires ValidateRescheduling(s2, sel.item.itemId, tip).Ok?
    requires CanonicalExpiry(tip).Some? ==> DueAreCanonical(b.items, tip)
    ensures BeginSubmission(s2, sel.item.itemId, attemptId, now).Ok?
    ensures Selected(h, s, BeginSubmission(s2, sel.item.itemId, attemptId, now).value, sel, tip)
  {
    var p := BeginAffects(h, s2, sel, b, attemptId, now);
    var t := BeginSubmission(s2, sel.item.itemId, attemptId, now).value;
    BeginKeepsValidation(s2, sel.item.itemId, attemptId, now, tip);
    if CanonicalExpiry(tip).Some? {
      BegunAreCanonical(b.items, t.batches[p.batch].items, p.item, tip);
    }
    hide BeginSubmission, ValidateRescheduling;
    assert CanonicalExpiry(tip).Some? ==> ReadyToAccept(t, sel.item.itemId, tip);
    BegunIsSelected(h, s, s2, t, sel, tip);
  }

  lemma BegunIsSelected(h: Hasher, s: Snapshot, s2: Snapshot, t: Snapshot, sel: Selection, tip: u64)
    requires Unique(s.batches) && Advances(s, s2) && InPlace(s2, t) && InPlaceCounted(s2, t) && Valid(h, t)
    requires OnlySubmitting(t, sel.item.itemId) && Held(t, sel) && SafeSelection(sel, tip)
    requires CanonicalExpiry(tip).Some? ==> ReadyToAccept(t, sel.item.itemId, tip)
    ensures Selected(h, s, t, sel, tip)
  {
    InPlaceComposes(s, s2, t);
    InPlaceEvolves(s, t);
    InPlaceCounts(s, t);
    InPlaceSameIds(s, t);
    hide Valid, InPlace, Evolves, Counts, StoredIds, OnlySubmitting, Held, SafeSelection, ReadyToAccept;
  }

  lemma BegunAreCanonical(items: seq<Item>, begun: seq<Item>, p: nat, tip: u64)
    requires DueAreCanonical(items, tip) && |begun| == |items| && p < |items| && begun[p].status.Submitting?
    requires forall m :: 0 <= m < |items| && m != p ==> begun[m] == items[m]
    ensures DueAreCanonical(begun, tip)
  {
    forall i | i in begun && i.status.Armed? && i.scheduledHeight <= tip ensures i.expiryHeight == CanonicalExpiry(tip).value {
      var m :| 0 <= m < |begun| && begun[m] == i;
      assert items[m] in items;
    }
  }

  lemma InPlaceComposes(s: Snapshot, t: Snapshot, u: Snapshot)
    requires Advances(s, t) && InPlace(t, u) && InPlaceCounted(t, u)
    ensures InPlace(s, u) && InPlaceCounted(s, u)
  {
    forall k | 0 <= k < |s.batches| ensures SameBatch(s.batches[k], u.batches[k]) {
      assert SameBatch(s.batches[k], t.batches[k]) && SameBatch(t.batches[k], u.batches[k]);
    }
  }

  lemma SelectStepIdle(h: Hasher, s: Snapshot, endpoint: string, tip: u64, verify: bool, attemptId: string, now: Date)
    requires Valid(h, s) && NoSubmitting(s)
    requires SelectStep(s, endpoint, tip, verify, attemptId, now).Ok?
    requires SelectStep(s, endpoint, tip, verify, attemptId, now).value.selection.None?
    ensures var t := SelectStep(s, endpoint, tip, verify, attemptId, now).value.snapshot;
            Valid(h, t) && InPlace(s, t) && Steps(s, t) && StoredIds(t) == StoredIds(s) && NoSubmitting(t)
  {
    var s1 := Prepare(s, endpoint, tip, verify, now);
    PrepareKeeps(h, s, endpoint, tip, verify, now);
    var t := SelectDue(s1, tip, Some(endpoint), now).snapshot;
    SelectDueIsComplete(s1, tip, Some(endpoint), now);
    CursorChangeKeepsValid(h, s1, t);
    AdvancesCompose(s, s1, t);
    AdvanceSteps(s, t);
    InPlaceSameIds(s, t);
    CalmKeepsNone(s, t);
  }

  // ---------- cancelling and recording ----------

  /** A definite non-attempt: only the held record changes, and its attempts stay as counted. */
  lemma CancelStepKeeps(h: Hasher, s: Snapshot, id: string, error: string)
    requires Valid(h, s) && OnlySubmitting(s, id) && RecordCancelled(s, id, error).Ok?
    ensures var t := RecordCancelled(s, id, error).value;
            && Valid(h, t) && InPlace(s, t) && Evolves(s, t) && StoredIds(t) == StoredIds(s) && NoSubmitting(t)
            && (forall c, j :: Stored(t, c, j) && j.itemId != id ==> exists b :: Stored(s, b, j))
            && (forall b, i, c, j :: Stored(s, b, i) && Stored(t, c, j) && i.itemId == j.itemId ==> i.attemptCount == j.attemptCount)
  {
    var t := RecordCancelled(s, id, error).value;
    var p := Locate(s.batches, id).value;
    CancelledKeepsValid(h, s, id, error);
    InPlaceEvolves(s, t);
    InPlaceSameIds(s, t);
    hide StoredIds, Conserved, RecordsOk, Evolves;
    CancelKeepsCounts(s, t, p);
    forall c, j | Stored(t, c, j)
      ensures !j.status.Submitting?
      ensures j.itemId != id ==> exists b :: Stored(s, b, j)
    {
      var k, m := Origin(s, t, c, j);
      if j.status.Submitting? {
        assert j == s.batches[k].items[m];
        assert Stored(s, s.batches[p.batch], s.batches[p.batch].items[p.item]);
        SameIdSameItem(s, s.batches[k], j, s.batches[p.batch], s.batches[p.batch].items[p.item]);
        SamePlace(s, k, m, p.batch, p.item);
      }
    }
  }

  lemma CancelKeepsCounts(s: Snapshot, t: Snapshot, p: Place)
    requires Unique(s.batches) && InPlace(s, t)
    requires forall k, m :: 0 <= k < |s.batches| && 0 <= m < |s.batches[k].items| && |t.batches[k].items| == |s.batches[k].items| ==>
      t.batches[k].items[m].attemptCount == s.batches[k].items[m].attemptCount
    ensures forall b, i, c, j :: Stored(s, b, i) && Stored(t, c, j) && i.itemId == j.itemId ==> i.attemptCount == j.attemptCount
  {
    forall b, i, c, j | Stored(s, b, i) && Stored(t, c, j) && i.itemId == j.itemId ensures i.attemptCount == j.attemptCount {
      var k, m := Origin(s, t, c, j);
      SameIdSameItem(s, b, i, s.batches[k], s.batches[k].items[m]);
    }
  }

  lemma CancelKeepsEvidence(h: Hasher, s: Snapshot, t: Snapshot, sent: set<string>, id: string)
    requires Unique(s.batches) && SentAttempted(s, sent) && StoredIds(t) == StoredIds(s)
    requires id in sent ==> CountedBefore(s, id)
    requires forall c, j :: Stored(t, c, j) && j.itemId != id ==> exists b :: Stored(s, b, j)
    requires forall b, i, c, j :: Stored(s, b, i) && Stored(t, c, j) && i.itemId == j.itemId ==> i.attemptCount == j.attemptCount
    ensures SentAttempted(t, sent)
  {
    forall c, j | Stored(t, c, j) && j.itemId in sent ensures Attempted(j) {
      if j.itemId == id {
        StoredIdsMembers(s, id);
        var b, i :| Stored(s, b, i) && i.itemId == id;
      } else {
        var b :| Stored(s, b, j);
      }
    }
  }

  /** What an outcome leaves: nothing is being submitted any more. */
  lemma RecordStepKeeps(h: Hasher, s: Snapshot, sel: Selection, tip: u64, answer: Answer, now: Date, random: Random)
    requires Valid(h, s) && OnlySubmitting(s, sel.item.itemId)
    requires RecordStep(h, s, sel, tip, answer, now, random).Ok?
    ensures var t := RecordStep(h, s, sel, tip, answer, now, random).value;
            Valid(h, t) && InPlace(s, t) && Steps(s, t) && StoredIds(t) == StoredIds(s) && NoSubmitting(t)
  {
    var id := sel.item.itemId;
    var p := Locate(s.batches, id).value;
    var t := RecordStep(h, s, sel, tip, answer, now, random).value;
    if answer.TransportFailed? {
      UncertainKeepsValid(h, s, id, answer.error, now);
      SettledIsNotSubmitting(h, s, t, id, p);
    } else if IsAccepted(answer) {
      AcceptedKeepsValid(h, s, id, answer.response.code != 0, tip, answer.response, now, random);
      var u := RecordAccepted(h, s, id, answer.response.code != 0, tip, answer.response, now, random).value;
      AcceptedIsNotSubmitting(h, s, id, answer.response.code != 0, tip, answer.response, now, random);
      SettledIsNotSubmitting(h, s, u, id, p);
      MarkBroadcastCompleteKeepsValid(h, u, sel.batchId, now);
      AdvancesCompose(s, u, t);
      AdvanceSteps(u, t);
      CalmKeepsNone(u, t);
    } else {
      RejectedKeepsValid(h, s, id, tip, answer.response, now);
      SettledIsNotSubmitting(h, s, t, id, p);
    }
    AdvanceSteps(s, t);
    InPlaceSameIds(s, t);
  }

  lemma AcceptedIsNotSubmitting(h: Hasher, s: Snapshot, id: string, equivalent: bool, tip: u64, response: Response,
                                now: Date, random: Random)
    requires Valid(h, s) && RecordAccepted(h, s, id, equivalent, tip, response, now, random).Ok?
    ensures var t := RecordAccepted(h, s, id, equivalent, tip, response, now, random).value;
            var p := Locate(s.batches, id).value;
            && |t.batches| == |s.batches| && p.item < |t.batches[p.batch].items|
            && t.batches[p.batch].items[p.item] == AcceptedForm(s.batches[p.batch].items[p.item])
  {
    var p, c, r := AcceptanceIsAChange(h, s, id, equivalent, tip, response, now, random);
    ValidBatch(h, s, p.batch);
    var b := s.batches[p.batch];
    AcceptedItems(h, b.items, p.item, tip, b.timingMeanBlocks, b.timingMaxBlocks, random);
  }

  lemma SettledIsNotSubmitting(h: Hasher, s: Snapshot, t: Snapshot, id: string, p: Place)
    requires Unique(s.batches) && Advances(s, t) && OnlySubmitting(s, id) && Locate(s.batches, id) == Some(p)
    requires !t.batches[p.batch].items[p.item].status.Submitting?
    ensures NoSubmitting(t)
  {
    forall c, j | Stored(t, c, j) ensures !j.status.Submitting? {
      var k, m := Origin(s, t, c, j);
      if s.batches[k].items[m].status.Submitting? {
        assert Stored(s, s.batches[p.batch], s.batches[p.batch].items[p.item]);
        SameIdSameItem(s, s.batches[k], s.batches[k].items[m], s.batches[p.batch], s.batches[p.batch].items[p.item]);
        SamePlace(s, k, m, p.batch, p.item);
      }
    }
  }

  lemma SamePlace(s: Snapshot, k: nat, m: nat, x: nat, y: nat)
    requires Unique(s.batches) && k < |s.batches| && x < |s.batches| && m < |s.batches[k].items| && y < |s.batches[x].items|
    requires s.batches[k] == s.batches[x] && s.batches[k].items[m] == s.batches[x].items[y]
    ensures k == x && m == y
  {
    DistinctByPosition(s.batches, BatchKey, k, x);
    DistinctByPosition(s.batches[x].items, ItemKey, m, y);
  }

  /** In an undisturbed window the outcome can always be recorded. */
  lemma UndisturbedRecordSucceeds(h: Hasher, s: Snapshot, sel: Selection, tip: u64, answer: Answer, now: Date, random: Random)
    requires Valid(h, s) && ReadyToAccept(s, sel.item.itemId, tip)
    ensures RecordStep(h, s, sel, tip, answer, now, random).Ok?
    ensures RecordCancelled(s, sel.item.itemId, NO_SUBMISSION).Ok?
  {
    if answer.Replied? && IsAccepted(answer) {
      forall b | b in s.batches ensures TimingValid(b) {
        assert BatchOk(b);
      }
      AcceptanceCannotFailAfterBroadcast(h, s, sel.item.itemId, answer.response.code != 0, tip, answer.response, now, random);
    }
  }

  // ---------- the runner ----------

  lemma BeginRunKeeps(h: Hasher, sys: System)
    requires SystemOk(h, sys)
    ensures SystemOk(h, RunnerStep(h, sys, TryBegin))
  {
  }

  lemma RecoverKeeps(h: Hasher, sys: System, now: Date, commit: Commit)
    requires SystemOk(h, sys)
    ensures SystemOk(h, RunnerStep(h, sys, Recover(now, commit)))
  {
    if sys.runner.Admitted? {
      RecoverStepKeeps(h, sys.store, now);
      var t := RecoverStep(sys.store, now).snapshot;
      EvidenceSurvives(sys.store, t, sys.sent);
      assert sys.sent * StoredIds(t) == sys.sent;
      NoneIsAtMostOne(t);
    }
  }

  lemma SelectKeeps(h: Hasher, sys: System, verify: bool, attemptId: string, now: Date, commit: Commit)
    requires SystemOk(h, sys)
    ensures SystemOk(h, RunnerStep(h, sys, Select(verify, attemptId, now, commit)))
  {
    hide SystemOk, SelectStep;
    if sys.runner.AtTip? {
      var r := SelectStep(sys.store, sys.runner.endpoint, sys.runner.tip, verify, attemptId, now);
      if r.Err? {
        SelectKeepsFailed(h, sys);
      } else if r.value.selection.Some? {
        SelectKeepsChosen(h, sys, verify, attemptId, now, commit);
      } else {
        SelectKeepsNone(h, sys, verify, attemptId, now, commit);
      }
    }
  }

  lemma SelectKeepsFailed(h: Hasher, sys: System)
    requires SystemOk(h, sys) && sys.runner.AtTip?
    ensures SystemOk(h, sys.(runner := Finishing))
  {
  }

  lemma SelectKeepsChosen(h: Hasher, sys: System, verify: bool, attemptId: string, now: Date, commit: Commit)
    requires SystemOk(h, sys) && sys.runner.AtTip?
    requires SelectStep(sys.store, sys.runner.endpoint, sys.runner.tip, verify, attemptId, now).Ok?
    requires SelectStep(sys.store, sys.runner.endpoint, sys.runner.tip, verify, attemptId, now).value.selection.Some?
    ensures var c := SelectStep(sys.store, sys.runner.endpoint, sys.runner.tip, verify, attemptId, now).value;
            SystemOk(h, sys.(store := Persist(sys.store, c.snapshot, commit),
                             runner := if commit.Committed? then Holding(c.selection.value, sys.runner.tip) else Finishing,
                             kept := true,
                             disturbed := sys.disturbed || commit.FailedAfterWrite? || CanonicalExpiry(sys.runner.tip).None?))
  {
    hide SelectStep, Selected, Valid, Conserved, RecordsOk;
    SelectStepChooses(h, sys.store, sys.runner.endpoint, sys.runner.tip, verify, attemptId, now);
    var c := SelectStep(sys.store, sys.runner.endpoint, sys.runner.tip, verify, attemptId, now).value;
    HoldingKeeps(h, sys, c.snapshot, c.selection.value, commit);
  }

  lemma SelectKeepsNone(h: Hasher, sys: System, verify: bool, attemptId: string, now: Date, commit: Commit)
    requires SystemOk(h, sys) && sys.runner.AtTip?
    requires SelectStep(sys.store, sys.runner.endpoint, sys.runner.tip, verify, attemptId, now).Ok?
    requires SelectStep(sys.store, sys.runner.endpoint, sys.runner.tip, verify, attemptId, now).value.selection.None?
    ensures var t := SelectStep(sys.store, sys.runner.endpoint, sys.runner.tip, verify, attemptId, now).value.snapshot;
            SystemOk(h, sys.(store := Persist(sys.store, t, commit), runner := Finishing))
  {
    hide SelectStep, Valid, Conserved, RecordsOk;
    SelectStepIdle(h, sys.store, sys.runner.endpoint, sys.runner.tip, verify, attemptId, now);
    var c := SelectStep(sys.store, sys.runner.endpoint, sys.runner.tip, verify, attemptId, now).value;
    SelectKeepsIdle(h, sys, c.snapshot, commit);
  }

  lemma SelectKeepsIdle(h: Hasher, sys: System, t: Snapshot, commit: Commit)
    requires SystemOk(h, sys) && sys.runner.AtTip?
    requires Valid(h, t) && Steps(sys.store, t) && StoredIds(t) == StoredIds(sys.store) && NoSubmitting(t)
    ensures SystemOk(h, sys.(store := Persist(sys.store, t, commit), runner := Finishing))
  {
    EvidenceSurvives(sys.store, t, sys.sent);
    assert sys.sent * StoredIds(t) == sys.sent;
    NoneIsAtMostOne(t);
    hide Valid, Steps, StoredIds, NoSubmitting, AtMostOneSubmitting, SentAttempted;
  }

  lemma HoldingKeeps(h: Hasher, sys: System, t: Snapshot, sel: Selection, commit: Commit)
    requires SystemOk(h, sys) && sys.runner.AtTip? && Selected(h, sys.store, t, sel, sys.runner.tip)
    ensures SystemOk(h, sys.(store := Persist(sys.store, t, commit),
                             runner := if commit.Committed? then Holding(sel, sys.runner.tip) else Finishing,
                             kept := true,
                             disturbed := sys.disturbed || commit.FailedAfterWrite? || CanonicalExpiry(sys.runner.tip).None?))
  {
    hide SystemOk, Selected, CanonicalExpiry;
    if commit.Committed? {
      HeldKeeps(h, sys, t, sel, sys.disturbed || CanonicalExpiry(sys.runner.tip).None?);
    } else if commit.FailedAfterWrite? {
      WrittenKeeps(h, sys, t, sel);
    } else {
      UnwrittenKeeps(h, sys, sys.disturbed || CanonicalExpiry(sys.runner.tip).None?);
    }
  }

  lemma HeldKeeps(h: Hasher, sys: System, t: Snapshot, sel: Selection, disturbed: bool)
    requires SystemOk(h, sys) && sys.runner.AtTip? && Selected(h, sys.store, t, sel, sys.runner.tip)
    requires disturbed <==> sys.disturbed || CanonicalExpiry(sys.runner.tip).None?
    ensures SystemOk(h, sys.(store := t, runner := Holding(sel, sys.runner.tip), kept := true, disturbed := disturbed))
  {
    var u := sys.(store := t, runner := Holding(sel, sys.runner.tip), kept := true, disturbed := disturbed);
    AttemptsSurvive(sys.store, t, sys.sent);
    HeldWindow(h, sys, t, sel);
    assert GateOk(u) && SentAttempted(u.store, u.sent);
    HeldLog(sys, u);
    assert CalmOk(u) by { hide ReadyToAccept, Valid, InPlace, Evolves, Counts, StoredIds, Held, OnlySubmitting, LogOk; }
    hide Valid, InPlace, Evolves, Counts, StoredIds, Held, OnlySubmitting, LogOk, CalmOk, WindowOk, SubmittingOk, GateOk;
  }

  lemma HeldLog(sys: System, u: System)
    requires LogOk(sys) && sys.runner.AtTip? && u.runner.Holding? && u.sends == sys.sends && u.run == sys.run
    ensures LogOk(u)
  {
    hide SafeSelection;
  }

  lemma HeldWindow(h: Hasher, sys: System, t: Snapshot, sel: Selection)
    requires SystemOk(h, sys) && sys.runner.AtTip? && Selected(h, sys.store, t, sel, sys.runner.tip)
    ensures forall disturbed ::
              var u := sys.(store := t, runner := Holding(sel, sys.runner.tip), kept := true, disturbed := disturbed);
              WindowOk(u) && SubmittingOk(u)
  {
    var id := sel.item.itemId;
    HeldIsNotTerminal(t, sel);
    if id in sys.sent {
      SentAndCalmIsCounted(sys.store, t, sys.sent, id);
    }
    OneIsAtMostOne(t, id);
    hide Valid, Evolves, InPlace, Counts, StoredIds, SentAttempted, NotTerminal, CountedBefore, Held, ReadyToAccept, SafeSelection;
    hide AtMostOneSubmitting, OnlySubmitting, NoSubmitting, CanonicalExpiry, LogOk, CalmOk, GateOk;
  }

  lemma WrittenKeeps(h: Hasher, sys: System, t: Snapshot, sel: Selection)
    requires SystemOk(h, sys) && sys.runner.AtTip? && Selected(h, sys.store, t, sel, sys.runner.tip)
    ensures SystemOk(h, sys.(store := t, runner := Finishing, kept := true, disturbed := true))
  {
    AttemptsSurvive(sys.store, t, sys.sent);
    OneIsAtMostOne(t, sel.item.itemId);
    hide Valid, Evolves, InPlace, Counts, StoredIds, SentAttempted, Held, ReadyToAccept, SafeSelection;
    hide AtMostOneSubmitting, OnlySubmitting, NoSubmitting, CanonicalExpiry;
  }

  lemma UnwrittenKeeps(h: Hasher, sys: System, disturbed: bool)
    requires SystemOk(h, sys) && sys.runner.AtTip? && (sys.disturbed ==> disturbed)
    ensures SystemOk(h, sys.(runner := Finishing, kept := true, disturbed := disturbed))
  {
    hide Valid, SentAttempted, Held, ReadyToAccept, SafeSelection, AtMostOneSubmitting, OnlySubmitting, NoSubmitting;
  }

  lemma OneIsAtMostOne(s: Snapshot, id: string)
    requires OnlySubmitting(s, id)
    ensures AtMostOneSubmitting(s)
  {
  }

  lemma AttemptsSurvive(s: Snapshot, t: Snapshot, sent: set<string>)
    requires Evolves(s, t) && Counts(s, t) && StoredIds(t) == StoredIds(s) && SentAttempted(s, sent)
    ensures SentAttempted(t, sent)
  {
    forall c, j | Stored(t, c, j) && j.itemId in sent ensures Attempted(j) {
      StoredIdsMembers(s, j.itemId);
      assert Descends(s, c, j);
      var b, i :| Stored(s, b, i) && b.batchId == c.batchId && ItemEvolves(i, j);
    }
  }

  /** A record sent before and selected again was armed, so its attempts were counted. */
  lemma SentAndCalmIsCounted(s: Snapshot, t: Snapshot, sent: set<string>, id: string)
    requires NoSubmitting(s) && SentAttempted(s, sent) && Evolves(s, t) && StoredIds(t) == StoredIds(s)
    requires id in sent && (forall c, j :: Stored(t, c, j) && j.itemId == id ==> !Terminal(j))
    ensures CountedBefore(t, id)
  {
    forall c, j | Stored(t, c, j) && j.itemId == id ensures j.attemptCount > 0 {
      StoredIdsMembers(s, id);
      assert Descends(s, c, j);
      var b, i :| Stored(s, b, i) && b.batchId == c.batchId && ItemEvolves(i, j);
      assert Attempted(i) && !i.status.Submitting? && !Terminal(i);
    }
  }

  lemma CancelKeeps(h: Hasher, sys: System, commit: Commit)
    requires SystemOk(h, sys)
    ensures SystemOk(h, RunnerStep(h, sys, CancelBeforeSend(commit)))
  {
    if sys.runner.Holding? {
      var s := sys.store;
      var id := sys.runner.selection.item.itemId;
      var r := RecordCancelled(s, id, NO_SUBMISSION);
      if r.Ok? {
        CancelStepKeeps(h, s, id, NO_SUBMISSION);
        CancelKeepsEvidence(h, s, r.value, sys.sent, id);
        NoneIsAtMostOne(r.value);
      } else if !sys.disturbed {
        UndisturbedRecordSucceeds(h, s, sys.runner.selection, sys.runner.tip, TransportFailed("", false), 0, Random(x => x, x => x));
      }
    }
  }

  lemma HeldIsAttempted(s: Snapshot, sel: Selection)
    requires Unique(s.batches) && Held(s, sel)
    ensures sel.item.itemId in StoredIds(s)
    ensures forall c, j :: Stored(s, c, j) && j.itemId == sel.item.itemId ==> Attempted(j)
  {
    var b, i :| HeldAt(s, sel, b, i);
    StoredIdsMembers(s, sel.item.itemId);
    forall c, j | Stored(s, c, j) && j.itemId == sel.item.itemId ensures Attempted(j) {
      SameIdSameItem(s, b, i, c, j);
    }
  }

  lemma SendingAddsEvidence(s: Snapshot, sent: set<string>, id: string)
    requires SentAttempted(s, sent) && id in StoredIds(s)
    requires forall c, j :: Stored(s, c, j) && j.itemId == id ==> Attempted(j)
    ensures SentAttempted(s, sent + {id})
  {
  }

  lemma HandOverLogs(sys: System, next: System)
    requires LogOk(sys) && sys.runner.Holding? && SafeSelection(sys.runner.selection, sys.runner.tip)
    requires next.runner.Answered? && next.run == sys.run
    requires next.sends == sys.sends + [Send(sys.run, sys.runner.selection, sys.runner.tip)]
    ensures LogOk(next)
  {
  }

  lemma HandOverKeeps(h: Hasher, sys: System, answer: Answer)
    requires SystemOk(h, sys)
    ensures SystemOk(h, RunnerStep(h, sys, HandOver(answer)))
  {
    if sys.runner.Holding? {
      var sel := sys.runner.selection;
      if sys.kept {
        HeldIsAttempted(sys.store, sel);
        SendingAddsEvidence(sys.store, sys.sent, sel.item.itemId);
      }
      var next := sys.(runner := Answered(sel, sys.runner.tip, answer),
                       sends := sys.sends + [Send(sys.run, sel, sys.runner.tip)],
                       sent := if sys.kept then sys.sent + {sel.item.itemId} else sys.sent);
      HandOverLogs(sys, next);
      assert RunnerStep(h, sys, HandOver(answer)) == next;
    }
  }

  lemma RecordKeeps(h: Hasher, sys: System, now: Date, random: Random, commit: Commit)
    requires SystemOk(h, sys)
    ensures SystemOk(h, RunnerStep(h, sys, RecordOutcome(now, random, commit)))
  {
    hide SystemOk, RecordStep;
    if sys.runner.Answered? {
      if RecordStep(h, sys.store, sys.runner.selection, sys.runner.tip, sys.runner.answer, now, random).Ok? {
        RecordKeepsOutcome(h, sys, now, random, commit);
      } else {
        RecordKeepsFailed(h, sys, now, random, commit);
      }
    }
  }

  lemma RecordKeepsOutcome(h: Hasher, sys: System, now: Date, random: Random, commit: Commit)
    requires SystemOk(h, sys) && sys.runner.Answered?
    requires RecordStep(h, sys.store, sys.runner.selection, sys.runner.tip, sys.runner.answer, now, random).Ok?
    ensures var t := RecordStep(h, sys.store, sys.runner.selection, sys.runner.tip, sys.runner.answer, now, random).value;
            SystemOk(h, sys.(store := Persist(sys.store, t, commit), runner := Finishing,
                             disturbed := sys.disturbed || commit.FailedBeforeWrite?))
  {
    var s := sys.store;
    RecordStepKeeps(h, s, sys.runner.selection, sys.runner.tip, sys.runner.answer, now, random);
    SettledKeeps(h, sys, RecordStep(h, s, sys.runner.selection, sys.runner.tip, sys.runner.answer, now, random).value, commit);
  }

  lemma SettledKeeps(h: Hasher, sys: System, t: Snapshot, commit: Commit)
    requires SystemOk(h, sys) && sys.runner.Answered?
    requires Valid(h, t) && Steps(sys.store, t) && StoredIds(t) == StoredIds(sys.store) && NoSubmitting(t)
    ensures SystemOk(h, sys.(store := Persist(sys.store, t, commit), runner := Finishing,
                             disturbed := sys.disturbed || commit.FailedBeforeWrite?))
  {
    var next := sys.(store := Persist(sys.store, t, commit), runner := Finishing,
                     disturbed := sys.disturbed || commit.FailedBeforeWrite?);
    EvidenceSurvives(sys.store, t, sys.sent);
    assert sys.sent * StoredIds(t) == sys.sent;
    NoneIsAtMostOne(t);
    assert next.store == sys.store || next.store == t;
    assert CalmOk(next) && LogOk(next) && GateOk(next);
    hide Valid, Steps, StoredIds, NoSubmitting, AtMostOneSubmitting, SentAttempted;
  }

  lemma RecordKeepsFailed(h: Hasher, sys: System, now: Date, random: Random, commit: Commit)
    requires SystemOk(h, sys) && sys.runner.Answered?
    requires RecordStep(h, sys.store, sys.runner.selection, sys.runner.tip, sys.runner.answer, now, random).Err?
    ensures SystemOk(h, sys.(store := Persist(sys.store, sys.store, commit), runner := Finishing,
                             disturbed := sys.disturbed || commit.FailedBeforeWrite?))
  {
    if !sys.disturbed {
      UndisturbedRecordSucceeds(h, sys.store, sys.runner.selection, sys.runner.tip, sys.runner.answer, now, random);
    }
  }

  lemma RunnerKeeps(h: Hasher, sys: System, a: RunnerAction)
    requires SystemOk(h, sys)
    ensures SystemOk(h, RunnerStep(h, sys, a))
  {
    match a {
      case TryBegin => BeginRunKeeps(h, sys);
      case ObserveCancellation =>
      case Recover(now, commit) => RecoverKeeps(h, sys, now, commit);
      case LearnTip(tip) =>
      case Select(verify, attemptId, now, commit) => SelectKeeps(h, sys, verify, attemptId, now, commit);
      case CancelBeforeSend(commit) => CancelKeeps(h, sys, commit);
      case HandOver(answer) => HandOverKeeps(h, sys, answer);
      case RecordOutcome(now, random, commit) => RecordKeeps(h, sys, now, random, commit);
      case FinishRun =>
    }
  }

  // ---------- edits ----------

  lemma AdvanceIsStep(h: Hasher, s: Snapshot, t: Snapshot)
    requires Unique(s.batches) && Advances(s, t)
    ensures Steps(s, t) && StoredIds(t) == StoredIds(s)
  {
    AdvanceSteps(s, t);
    InPlaceSameIds(s, t);
  }

  lemma UnchangedSteps(s: Snapshot)
    requires Unique(s.batches)
    ensures Steps(s, s)
  {
    InPlaceUnchanged(s);
  }

  /** Edits that leave receipts alone and drop no record with delivery state. */
  ghost predicate Gentle(s: Snapshot, t: Snapshot) {
    && t.receipts == s.receipts
    && forall b, i :: Stored(s, b, i) && !Terminal(i) && Attempted(i) ==> i.itemId in StoredIds(t)
  }

  lemma SameIdsGentle(s: Snapshot, t: Snapshot)
    requires t.receipts == s.receipts && StoredIds(s) <= StoredIds(t)
    ensures Gentle(s, t)
  {
    forall b, i | Stored(s, b, i) ensures i.itemId in StoredIds(t) {
      StoredIdsMembers(s, i.itemId);
    }
  }

  lemma StageIsGentle(h: Hasher, s: Snapshot, b: Batch)
    requires Stage(h, s, b).Ok?
    ensures Gentle(s, Stage(h, s, b).value)
  {
    var t := Stage(h, s, b).value;
    var k := FindBatch(s.batches, b.batchId);
    forall x, i | Stored(s, x, i) ensures i.itemId in StoredIds(t) {
      var n :| 0 <= n < |s.batches| && s.batches[n] == x;
      assert i in t.batches[n].items;
      assert Stored(t, t.batches[n], i);
    }
  }

  lemma DiscardIsGentle(h: Hasher, s: Snapshot, batchId: string)
    requires Unique(s.batches) && DiscardBatch(s, batchId).Ok?
    ensures Gentle(s, DiscardBatch(s, batchId).value.snapshot)
  {
    var t := DiscardBatch(s, batchId).value.snapshot;
    var k := FindBatch(s.batches, batchId);
    if k < |s.batches| {
      CutBatch(s.batches, k);
      forall b, i | Stored(s, b, i) && !Terminal(i) && Attempted(i) ensures i.itemId in StoredIds(t) {
        SameBatchId(s, k, b);
        assert Stored(t, b, i);
      }
    } else {
      SameIdsGentle(s, t);
    }
  }

  lemma SameBatchId(s: Snapshot, k: nat, b: Batch)
    requires Unique(s.batches) && k < |s.batches| && b in s.batches
    ensures b.batchId == s.batches[k].batchId ==> b == s.batches[k]
  {
    if b.batchId == s.batches[k].batchId {
      DistinctByIdentifies(s.batches, BatchKey, b, s.batches[k]);
    }
  }

  /** Every edit keeps the records' invariant and steps them soundly; those allowed during a
      run bring no receipts, and all but acknowledging are gentle. */
  lemma EditStoreKeeps(h: Hasher, sys: System, e: Edit)
    requires Valid(h, sys.store) && GateOk(sys) && EditEnabled(h, sys, e)
    ensures var t := EditStore(h, sys.store, e);
            && Valid(h, t) && Steps(sys.store, t)
            && (forall r :: r in t.receipts ==> r in sys.store.receipts)
            && (sys.runner.Idle? || e.Acknowledge? || Gentle(sys.store, t))
  {
    var s := sys.store;
    UnchangedSteps(s);
    SameIdsGentle(s, s);
    var t := EditStore(h, s, e);
    match e {
      case StageBatch(b) =>
        if Stage(h, s, b).Ok? { StageKeepsValid(h, s, b); StageIsGentle(h, s, b); }
      case Arm(id, digests, now) =>
        if ArmBatch(s, id, digests, now).Ok? { ArmKeepsValid(h, s, id, digests, now); InPlaceEdit(h, s, t); }
      case RecoverStored(id, n, a, r, txids, url, now) =>
        if RecoverBatch(s, id, n, a, r, txids, url, now).Ok? {
          RecoverBatchKeepsValid(h, s, id, n, a, r, txids, url, now); InPlaceEdit(h, s, t);
        }
      case Discard(id) =>
        if DiscardBatch(s, id).Ok? { DiscardKeepsValid(h, s, id); DiscardIsGentle(h, s, id); }
      case VerifiedProof(n, a, r, now) => RecordVerifiedProofKeepsValid(h, s, n, a, r, now); InPlaceEdit(h, s, t);
      case ConfirmProof(id, now) =>
        if AcknowledgeProof(s, id, now).Ok? { AcknowledgeProofKeepsValid(h, s, id, now); InPlaceEdit(h, s, t); }
      case OweHeightNotice(id, now) => MarkHeightNoticeKeepsValid(h, s, id, now); InPlaceEdit(h, s, t);
      case ConfirmHeightNotice(id, now) =>
        if AcknowledgeHeightNotice(s, id, now).Ok? { AcknowledgeHeightNoticeKeepsValid(h, s, id, now); InPlaceEdit(h, s, t); }
      case ConfirmComplete(id, now) =>
        if AcknowledgeBroadcastComplete(s, id, now).Ok? {
          AcknowledgeBroadcastCompleteKeepsValid(h, s, id, now); ConfirmCompleteIsGentle(s, id, now);
        }
      case Acknowledge(ids) => AcknowledgeKeepsValid(h, s, ids);
      case RevokeAccount(_, n, a) => RevokeKeepsValid(h, s, n, a);
      case RemoveAll(_) => EmptyIsValid(h, s);
    }
  }

  lemma InPlaceEdit(h: Hasher, s: Snapshot, t: Snapshot)
    requires Unique(s.batches) && Advances(s, t) && t.receipts == s.receipts
    ensures Steps(s, t) && Gentle(s, t)
  {
    AdvanceIsStep(h, s, t);
    SameIdsGentle(s, t);
  }

  lemma ConfirmCompleteIsGentle(s: Snapshot, batchId: string, now: Date)
    requires AcknowledgeBroadcastComplete(s, batchId, now).Ok?
    ensures Gentle(s, AcknowledgeBroadcastComplete(s, batchId, now).value)
  {
    var t := AcknowledgeBroadcastComplete(s, batchId, now).value;
    var k := FindBatch(s.batches, batchId);
    forall b, i | Stored(s, b, i) ensures i.itemId in StoredIds(t) {
      var n :| 0 <= n < |s.batches| && s.batches[n] == b;
      if |t.batches| == |s.batches| {
        assert Stored(t, t.batches[n], i);
      } else {
        assert n != k && b == t.batches[if n < k then n else n - 1];
        assert Stored(t, b, i);
      }
    }
  }

  lemma EmptyIsValid(h: Hasher, s: Snapshot)
    ensures Valid(h, EMPTY) && Steps(s, EMPTY)
  {
  }

  lemma EditKeepsSubmitting(sys: System, next: System)
    requires SubmittingOk(sys) && Calms(sys.store, next.store) && next.runner == sys.runner
    ensures SubmittingOk(next)
    ensures NoSubmitting(sys.store) ==> NoSubmitting(next.store)
  {
    var only :| OnlySubmitting(sys.store, only);
    CalmKeepsOnly(sys.store, next.store, only);
    if NoSubmitting(sys.store) { CalmKeepsNone(sys.store, next.store); }
    if InWindow(sys.runner) { CalmKeepsOnly(sys.store, next.store, sys.runner.selection.item.itemId); }
  }

  /** The window survives an edit: the record that is still stored is still the selected one. */
  lemma EditKeepsWindow(h: Hasher, sys: System, next: System)
    requires Valid(h, sys.store) && Valid(h, next.store) && Steps(sys.store, next.store) && WindowOk(sys)
    requires forall r :: r in next.store.receipts ==> r in sys.store.receipts
    requires next.runner == sys.runner && InWindow(sys.runner) && sys.sent <= StoredIds(sys.store)
    requires next.sent == sys.sent * StoredIds(next.store)
    requires next.kept == (sys.kept && sys.runner.selection.item.itemId in StoredIds(next.store))
    ensures WindowOk(next)
  {
    var id := sys.runner.selection.item.itemId;
    NoNewTerminal(h, sys.store, next.store, id);
    if next.kept { HeldSurvives(h, sys.store, next.store, sys.runner.selection); }
    if id in next.sent && CountedBefore(sys.store, id) { CountedSurvives(sys.store, next.store, id); }
  }

  /** The recording of the outcome looks at the items of the batch only. */
  lemma KeptBatchStaysReady(s: Snapshot, t: Snapshot, id: string, tip: u64)
    requires ReadyToAccept(s, id, tip) && SelectedBatchKept(s, t, id)
    ensures ReadyToAccept(t, id, tip)
  {
  }

  lemma EditKeeps(h: Hasher, sys: System, e: Edit)
    requires SystemOk(h, sys)
    ensures SystemOk(h, EditStep(h, sys, e))
  {
    if EditEnabled(h, sys, e) {
      EditStoreKeeps(h, sys, e);
      EditedOk(h, sys, EditStep(h, sys, e));
      hide EditStore, SystemOk, StoredIds, SelectedBatchKept;
    }
  }

  lemma EditedOk(h: Hasher, sys: System, next: System)
    requires SystemOk(h, sys) && Valid(h, next.store) && Steps(sys.store, next.store)
    requires forall r :: r in next.store.receipts ==> r in sys.store.receipts
    requires next == sys.(store := next.store, sent := sys.sent * StoredIds(next.store), kept := next.kept, disturbed := next.disturbed)
    requires InWindow(sys.runner) ==>
      var id := sys.runner.selection.item.itemId;
      && next.kept == (sys.kept && id in StoredIds(next.store))
      && (!next.disturbed ==> SelectedBatchKept(sys.store, next.store, id))
    requires !next.disturbed ==> !sys.disturbed
    ensures SystemOk(h, next)
  {
    EvidenceSurvives(sys.store, next.store, sys.sent);
    EditKeepsSubmitting(sys, next);
    if InWindow(sys.runner) {
      EditKeepsWindow(h, sys, next);
      if !next.disturbed {
        KeptBatchStaysReady(sys.store, next.store, sys.runner.selection.item.itemId, sys.runner.tip);
      }
    }
    assert CalmOk(next) && LogOk(next) && GateOk(next);
  }

  lemma GateKeeps(h: Hasher, sys: System, g: GateAction)
    requires SystemOk(h, sys)
    ensures SystemOk(h, GateStep(sys, g))
  {
  }

  lemma CrashKeeps(h: Hasher, sys: System)
    requires SystemOk(h, sys)
    ensures SystemOk(h, CrashStep(sys))
  {
  }

  lemma NextKeeps(h: Hasher, sys: System, a: Action)
    requires SystemOk(h, sys)
    ensures SystemOk(h, Next(h, sys, a))
  {
    match a {
      case Run(step) => RunnerKeeps(h, sys, step);
      case Change(e) => EditKeeps(h, sys, e);
      case Gate(g) => GateKeeps(h, sys, g);
      case Crash => CrashKeeps(h, sys);
    }
  }

  lemma InitialIsOk(h: Hasher)
    ensures SystemOk(h, INITIAL)
  {
    EmptyIsValid(h, EMPTY);
    NoneIsAtMostOne(EMPTY);
  }

  /** Every reachable state satisfies the system invariant. */
  lemma {:induction false} ReachableIsOk(h: Hasher, actions: seq<Action>)
    ensures SystemOk(h, After(h, INITIAL, actions))
  {
    if actions == [] {
      InitialIsOk(h);
    } else {
      ReachableIsOk(h, actions[..|actions| - 1]);
      NextKeeps(h, After(h, INITIAL, actions[..|actions| - 1]), actions[|actions| - 1]);
    }
  }
}
