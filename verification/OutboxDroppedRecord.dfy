/** A run of the outbox that sends a transaction nobody will report: while it was being sent,
    the receipt of an expired transaction of the same batch was acknowledged, and the batch
    went with it. */
module OutboxDroppedRecord {
  import opened Common
  import opened Text
  import opened Heights
  import opened OutboxModel
  import opened OutboxInvariants
  import opened OutboxEdits
  import opened OutboxRotation
  import opened OutboxSystem
  import opened OutboxTheorems
  import opened OutboxForgottenEndpoint

  const CANONICAL: u64 := 69120

  function First(h: Hasher, status: Status): Item {
    NewItem(h, "a", 0, "aa", [1], 0, 0, 0, 1).(status := status)
  }

  function Second(h: Hasher): Item {
    NewItem(h, "b", 1, "bb", [2], 0, 0, 0, CANONICAL)
  }

  function Both(h: Hasher, armedAt: Option<Date>, status: Status, second: Item): Batch {
    Batch("batch", "main", "account", "run", "url", 1, 1, armedAt, None, None, None, None, None, None, None,
          [First(h, status), second])
  }

  function StagedPair(h: Hasher): Batch {
    Both(h, None, Status.Staged, Second(h))
  }

  function ArmedPair(h: Hasher): Batch {
    Both(h, Some(0), Armed, Second(h).(status := Armed))
  }

  function ExpiredPair(h: Hasher, armedAt: Option<Date>): Batch {
    Both(h, armedAt, ExpiredAwaiting, Second(h).(status := Armed))
  }

  function SubmittingPair(h: Hasher): Batch {
    Both(h, Some(0), ExpiredAwaiting, Second(h).(status := Submitting, attemptId := Some("attempt"), attemptStartedAt := Some(0)))
  }

  function Expiration(h: Hasher): Receipt {
    RetireReceipt(Expiry, 1, 0, ArmedPair(h), First(h, Armed))
  }

  function Sel(h: Hasher): Selection {
    Selection("batch", "account", ArmedPair(h).ScopeKey(), "url", Second(h).(status := Armed))
  }

  /** Stage and arm two transactions; the first expires, which disarms the batch; arm again; the
      second is selected; the receipt of the first is acknowledged; the second is sent. */
  function TheScript(h: Hasher, answer: Answer): seq<Action> {
    [Change(StageBatch(StagedPair(h))), Change(Arm("batch", map["a" := h([1]), "b" := h([2])], 0)),
     Run(TryBegin), Run(Recover(0, Committed)), Run(LearnTip(Some(1))), Run(Select(true, "attempt", 0, Committed)), Run(FinishRun),
     Change(Arm("batch", map["b" := h([2])], 0)),
     Run(TryBegin), Run(Recover(0, Committed)), Run(LearnTip(Some(1))), Run(Select(true, "attempt", 0, Committed)),
     Change(Acknowledge({Expiration(h).receiptId})), Run(HandOver(answer))]
  }

  lemma StagingPair(h: Hasher)
    ensures Built(h, StagedPair(h)) && Stage(h, EMPTY, StagedPair(h)) == Ok(EMPTY.(batches := [StagedPair(h)]))
  {
    assert LowerAscii("aa") == "aa" && LowerAscii("bb") == "bb";
    assert "aa"[0] != "bb"[0] && "a"[0] != "b"[0];
    assert EMPTY.batches + [StagedPair(h)] == [StagedPair(h)];
  }

  lemma ArmingPair(s: Snapshot, b: Batch, digests: map<string, string>, c: Batch)
    requires s.batches == [b] && b.batchId == "batch" && digests != map[]
    requires forall id :: id in digests ==> HasDigest(b.items, id, digests[id])
    requires c == b.(armedAt := OrElse(b.armedAt, 0), items := ArmItems(digests, b.items))
    ensures ArmBatch(s, "batch", digests, 0) == Ok(s.(batches := [c]))
  {
    assert FindBatch(s.batches, "batch") == 0;
    assert s.batches[0 := c] == [c];
    var id :| id in digests;
  }

  lemma Arms(h: Hasher, s: Snapshot)
    ensures s.batches == [StagedPair(h)] ==>
              ArmBatch(s, "batch", map["a" := h([1]), "b" := h([2])], 0) == Ok(s.(batches := [ArmedPair(h)]))
    ensures s.batches == [ExpiredPair(h, None)] ==>
              ArmBatch(s, "batch", map["b" := h([2])], 0) == Ok(s.(batches := [ExpiredPair(h, Some(0))]))
  {
    var two, one := map["a" := h([1]), "b" := h([2])], map["b" := h([2])];
    var x, y := StagedPair(h), ExpiredPair(h, None);
    assert "a" in two && "b" in one;
    assert x.items[0] in x.items && x.items[1] in x.items && y.items[1] in y.items;
    assert ArmItems(two, x.items) == ArmedPair(h).items;
    assert ArmItems(one, y.items) == ExpiredPair(h, Some(0)).items;
    if s.batches == [x] { ArmingPair(s, x, two, ArmedPair(h)); }
    if s.batches == [y] { ArmingPair(s, y, one, ExpiredPair(h, Some(0))); }
  }

  /** From an idle runner and one batch in the rotation, three steps reach the tip. */
  lemma ReachTip(h: Hasher, sys: System, b: Batch)
    requires sys.runner.Idle? && !sys.running && sys.leases == {}
    requires sys.store.batches == [b] && InRotation(b) && b.lightwalletdUrl == "url" && !HasSubmitting(b.items)
    ensures var m := RunnerStep(h, RunnerStep(h, RunnerStep(h, sys, TryBegin), Recover(0, Committed)), LearnTip(Some(1)));
            && m.runner == AtTip("url", 1) && m.store.batches == [b] && m.store.receipts == sys.store.receipts
            && m.leases == {} && m.running && m.sends == sys.sends && m.run == sys.run + 1
  {
    var s := sys.store;
    var t := RecoverInterrupted(s, 0);
    assert UninterruptItems(b.items, 0) == b.items;
    assert t.batches == [b] && t.batches[0] in t.batches;
    EndpointsAreTheRotation(t, "url");
    forall u | u in Endpoints(t) ensures u == "url" {
      EndpointsAreTheRotation(t, u);
    }
    hide Endpoints, RecoverInterrupted, InRotation;
    assert RecoverStep(s, 0).endpoint == Some("url");
  }

  lemma FirstExpires(h: Hasher, s: Snapshot)
    requires s.batches == [ArmedPair(h)] && s.receipts == []
    ensures var t := ExpireItems(s, 1, "url", 0); t.batches == [ExpiredPair(h, None)] && t.receipts == [Expiration(h)]
  {
    var b := ArmedPair(h);
    assert b.items[0] in b.items && HasRetiring(Expiry, 1, b.items);
    assert RetireItems(Expiry, 1, b.items) == ExpiredPair(h, None).items;
    assert ItemReceipts(Expiry, 1, 0, b, b.items[1..][1..]) == [];
    assert ItemReceipts(Expiry, 1, 0, b, b.items[1..]) == [];
    assert ItemReceipts(Expiry, 1, 0, b, b.items) == [Expiration(h)];
    assert BatchReceipts(Expiry, 1, "url", 0, s.batches[1..]) == [];
  }

  /** Nothing more to retire in the batch. */
  lemma NoneRetires(h: Hasher, s: Snapshot, armedAt: Option<Date>, kind: Retirement)
    requires s.batches == [ExpiredPair(h, armedAt)] && (kind == Expiry || kind == Resign(CANONICAL))
    ensures var t := Retire(s, kind, 1, "url", 0); t.batches == s.batches && t.receipts == s.receipts
  {
    var b := ExpiredPair(h, armedAt);
    assert RetireItems(kind, 1, b.items) == b.items;
    assert !HasRetiring(kind, 1, b.items);
    assert ItemReceipts(kind, 1, 0, b, b.items[1..][1..]) == [];
    assert ItemReceipts(kind, 1, 0, b, b.items[1..]) == [];
    assert ItemReceipts(kind, 1, 0, b, b.items) == [];
    assert BatchReceipts(kind, 1, "url", 0, s.batches[1..]) == [];
  }

  lemma FirstSelection(h: Hasher, s: Snapshot)
    requires s.batches == [ArmedPair(h)] && s.receipts == []
    ensures var r := SelectStep(s, "url", 1, true, "attempt", 0);
            r.Ok? && r.value.selection.None? && r.value.snapshot.batches == [ExpiredPair(h, None)]
            && r.value.snapshot.receipts == [Expiration(h)]
  {
    FirstExpires(h, s);
    var s1 := ExpireItems(s, 1, "url", 0);
    NoneRetires(h, s1, None, Resign(CANONICAL));
    hide Retire;
    assert CanonicalExpiry(1) == Some(CANONICAL);
    var s2 := MarkDueNeedingResign(s1, 1, "url", 0);
    SelectDueIsComplete(s2, 1, Some("url"), 0);
    assert !Candidate(ExpiredPair(h, None), 1, Some("url"), 0);
    hide SelectDue;
  }

  lemma SecondSelection(h: Hasher, s: Snapshot)
    requires s.batches == [ExpiredPair(h, Some(0))]
    ensures var r := SelectStep(s, "url", 1, true, "attempt", 0);
            r.Ok? && r.value.selection == Some(Sel(h)) && r.value.snapshot.batches == [SubmittingPair(h)]
            && r.value.snapshot.receipts == s.receipts
  {
    var b := ExpiredPair(h, Some(0));
    NoneRetires(h, s, Some(0), Expiry);
    var s1 := ExpireItems(s, 1, "url", 0);
    NoneRetires(h, s1, Some(0), Resign(CANONICAL));
    assert CanonicalExpiry(1) == Some(CANONICAL);
    var s2 := MarkDueNeedingResign(s1, 1, "url", 0);
    hide Retire, ExpireItems, MarkDueNeedingResign;
    SelectDueIsComplete(s2, 1, Some("url"), 0);
    assert s2.batches[0] in s2.batches && b.items[1] in b.items && Candidate(b, 1, Some("url"), 0);
    var c := SelectDue(s2, 1, Some("url"), 0);
    hide SelectDue;
    SelectionIsSecond(h, s2, c.selection.value);
    Submitted(h, c.snapshot);
  }

  lemma SelectionIsSecond(h: Hasher, s: Snapshot, sel: Selection)
    requires s.batches == [ExpiredPair(h, Some(0))]
    requires exists b :: IsSelection(s, 1, Some("url"), 0, sel, b)
    ensures sel == Sel(h)
  {
    var b :| IsSelection(s, 1, Some("url"), 0, sel, b);
    assert sel.item == b.items[0] || sel.item == b.items[1];
  }

  lemma Submitted(h: Hasher, s: Snapshot)
    requires s.batches == [ExpiredPair(h, Some(0))]
    ensures ValidateRescheduling(s, "b", 1).Ok?
    ensures BeginSubmission(s, "b", "attempt", 0) == Ok(s.(batches := [SubmittingPair(h)]))
  {
    var b := ExpiredPair(h, Some(0));
    assert "a"[0] != "b"[0];
    assert b.items[1..][0] == b.items[1];
    assert FindItem(b.items, "b") == 1;
    assert Locate(s.batches, "b") == Some(Place(0, 1));
    HasMember(OverdueIndexes(b.items, "b", 1, 0));
    assert |SortHeights([])| == |multiset(SortHeights([]))| == 0;
    assert b.items[1 := SubmittingPair(h).items[1]] == SubmittingPair(h).items;
    assert s.batches[0 := SubmittingPair(h)] == [SubmittingPair(h)];
  }

  lemma AcknowledgedAway(h: Hasher, s: Snapshot)
    requires s.batches == [SubmittingPair(h)] && s.receipts == [Expiration(h)]
    ensures AcknowledgeReceipts(s, {Expiration(h).receiptId}).batches == []
  {
    var ids := {Expiration(h).receiptId};
    assert s.receipts[0] in s.receipts;
    assert "batch" in RemovableBatches(s.receipts, ids);
    var left := WithoutBatches(s.batches, RemovableBatches(s.receipts, ids));
    HasMember(left);
  }

  lemma HasMember<T>(xs: seq<T>)
    ensures xs != [] ==> exists k :: 0 <= k < |xs| && xs[k] in xs
  {
    if xs != [] { assert xs[0] in xs; }
  }

  lemma ScriptSteps(h: Hasher, answer: Answer)
    ensures var a := TheScript(h, answer);
            && |a| == 14 && a[0] == Change(StageBatch(StagedPair(h))) && a[1] == Change(Arm("batch", map["a" := h([1]), "b" := h([2])], 0))
            && a[2] == a[8] == Run(TryBegin) && a[3] == a[9] == Run(Recover(0, Committed)) && a[4] == a[10] == Run(LearnTip(Some(1)))
            && a[5] == a[11] == Run(Select(true, "attempt", 0, Committed)) && a[6] == Run(FinishRun)
            && a[7] == Change(Arm("batch", map["b" := h([2])], 0))
            && a[12] == Change(Acknowledge({Expiration(h).receiptId})) && a[13] == Run(HandOver(answer))
  {
  }

  lemma PairShapes(h: Hasher)
    ensures InRotation(ArmedPair(h)) && ArmedPair(h).lightwalletdUrl == "url" && !HasSubmitting(ArmedPair(h).items)
    ensures var b := ExpiredPair(h, Some(0)); InRotation(b) && b.lightwalletdUrl == "url" && !HasSubmitting(b.items)
  {
    assert ArmedPair(h).items[0] in ArmedPair(h).items;
    assert ExpiredPair(h, Some(0)).items[1] in ExpiredPair(h, Some(0)).items;
  }

  predicate Resting(sys: System, sends: seq<Send>) {
    sys.runner.Idle? && !sys.running && sys.leases == {} && sys.sends == sends
  }

  lemma Beginning(h: Hasher, answer: Answer)
    ensures var sys := After(h, INITIAL, TheScript(h, answer)[..2]);
            Resting(sys, []) && sys.run == 0 && sys.store.batches == [ArmedPair(h)] && sys.store.receipts == []
  {
    hide TheScript, StagedPair, ArmedPair, Stage, ArmBatch, StoredIds, Built;
    ScriptSteps(h, answer);
    var a := TheScript(h, answer);
    OneStep(h, INITIAL, a, 0);
    OneStep(h, INITIAL, a, 1);
    assert a[..0] == [];
    StagingPair(h);
    Arms(h, EMPTY.(batches := [StagedPair(h)]));
  }

  function ToTheTip(h: Hasher, sys: System): System {
    RunnerStep(h, RunnerStep(h, RunnerStep(h, sys, TryBegin), Recover(0, Committed)), LearnTip(Some(1)))
  }

  lemma FirstRun(h: Hasher, sys: System)
    requires Resting(sys, []) && sys.store.batches == [ArmedPair(h)] && sys.store.receipts == []
    ensures var u := RunnerStep(h, RunnerStep(h, ToTheTip(h, sys), Select(true, "attempt", 0, Committed)), FinishRun);
            Resting(u, []) && u.run == sys.run + 1 && u.store.batches == [ExpiredPair(h, None)] && u.store.receipts == [Expiration(h)]
  {
    hide ArmedPair, ExpiredPair, InRotation, HasSubmitting;
    PairShapes(h);
    ReachTip(h, sys, ArmedPair(h));
    var tip := ToTheTip(h, sys);
    hide ToTheTip, RunnerStep, RecoverStep, SelectStep;
    FirstSelection(h, tip.store);
    Finishes(h, tip);
  }

  lemma Finishes(h: Hasher, sys: System)
    requires sys.runner == AtTip("url", 1)
    requires var r := SelectStep(sys.store, "url", 1, true, "attempt", 0); r.Ok? && r.value.selection.None?
    ensures var t := RunnerStep(h, RunnerStep(h, sys, Select(true, "attempt", 0, Committed)), FinishRun);
            && t.runner.Idle? && !t.running && t.leases == sys.leases && t.sends == sys.sends && t.run == sys.run
            && t.store == SelectStep(sys.store, "url", 1, true, "attempt", 0).value.snapshot
  {
    hide SelectStep, RecoverStep, RecordStep, CanonicalExpiry;
  }

  lemma SecondRun(h: Hasher, sys: System)
    requires Resting(sys, []) && sys.store.batches == [ExpiredPair(h, Some(0))]
    ensures var t := RunnerStep(h, ToTheTip(h, sys), Select(true, "attempt", 0, Committed));
            && t.runner == Holding(Sel(h), 1) && t.sends == [] && t.run == sys.run + 1
            && t.store.batches == [SubmittingPair(h)] && t.store.receipts == sys.store.receipts
  {
    hide ExpiredPair, SubmittingPair, Sel, InRotation, HasSubmitting;
    PairShapes(h);
    ReachTip(h, sys, ExpiredPair(h, Some(0)));
    var tip := ToTheTip(h, sys);
    hide ToTheTip, RunnerStep, RecoverStep, SelectStep;
    SecondSelection(h, tip.store);
    Holds(h, tip);
  }

  lemma Holds(h: Hasher, sys: System)
    requires sys.runner == AtTip("url", 1)
    requires var r := SelectStep(sys.store, "url", 1, true, "attempt", 0); r.Ok? && r.value.selection.Some?
    ensures var c := SelectStep(sys.store, "url", 1, true, "attempt", 0).value;
            var t := RunnerStep(h, sys, Select(true, "attempt", 0, Committed));
            t.runner == Holding(c.selection.value, 1) && t.store == c.snapshot && t.sends == sys.sends && t.run == sys.run
  {
    hide SelectStep, RecoverStep, RecordStep, CanonicalExpiry;
  }

  lemma AcknowledgeAndSend(h: Hasher, sys: System, ids: set<string>, sel: Selection, answer: Answer)
    requires sys.runner == Holding(sel, 1)
    ensures var m := Next(h, sys, Change(Acknowledge(ids)));
            var t := Next(h, m, Run(HandOver(answer)));
            t.store == AcknowledgeReceipts(sys.store, ids) && t.sends == sys.sends + [Send(sys.run, sel, 1)]
  {
    hide AcknowledgeReceipts, StoredIds, SelectStep, RecoverStep, RecordStep, CanonicalExpiry;
  }

  lemma FourSteps(h: Hasher, a: seq<Action>, n: nat)
    requires n + 3 < |a| && a[n] == Run(TryBegin) && a[n + 1] == Run(Recover(0, Committed)) && a[n + 2] == Run(LearnTip(Some(1)))
    requires a[n + 3] == Run(Select(true, "attempt", 0, Committed))
    ensures var sys := After(h, INITIAL, a[..n]);
            After(h, INITIAL, a[..n + 4])
            == RunnerStep(h, ToTheTip(h, sys), Select(true, "attempt", 0, Committed))
  {
    hide After, RunnerStep;
    OneStep(h, INITIAL, a, n);
    OneStep(h, INITIAL, a, n + 1);
    OneStep(h, INITIAL, a, n + 2);
    OneStep(h, INITIAL, a, n + 3);
  }

  lemma Halfway(h: Hasher, answer: Answer)
    ensures var sys := After(h, INITIAL, TheScript(h, answer)[..8]);
            && Resting(sys, []) && sys.run == 1 && sys.store.batches == [ExpiredPair(h, Some(0))]
            && sys.store.receipts == [Expiration(h)]
  {
    hide TheScript, ArmedPair, ExpiredPair, After, RunnerStep, EditStep, ToTheTip, Expiration;
    ScriptSteps(h, answer);
    var a := TheScript(h, answer);
    Beginning(h, answer);
    FourSteps(h, a, 2);
    FirstRun(h, After(h, INITIAL, a[..2]));
    OneStep(h, INITIAL, a, 6);
    OneStep(h, INITIAL, a, 7);
    ArmedAgain(h, After(h, INITIAL, a[..7]));
  }

  lemma ArmedAgain(h: Hasher, sys: System)
    requires Resting(sys, []) && sys.store.batches == [ExpiredPair(h, None)]
    ensures var t := EditStep(h, sys, Arm("batch", map["b" := h([2])], 0));
            Resting(t, []) && t.run == sys.run && t.store.batches == [ExpiredPair(h, Some(0))] && t.store.receipts == sys.store.receipts
  {
    Arms(h, sys.store);
    hide ArmBatch, ExpiredPair, StoredIds;
  }

  lemma SecondIsSelected(h: Hasher, answer: Answer)
    ensures var sys := After(h, INITIAL, TheScript(h, answer)[..12]);
            && sys.runner == Holding(Sel(h), 1) && sys.sends == [] && sys.run == 2
            && sys.store.batches == [SubmittingPair(h)] && sys.store.receipts == [Expiration(h)]
  {
    hide TheScript, ExpiredPair, SubmittingPair, After, Sel, RunnerStep, ToTheTip;
    ScriptSteps(h, answer);
    Halfway(h, answer);
    FourSteps(h, TheScript(h, answer), 8);
    SecondRun(h, After(h, INITIAL, TheScript(h, answer)[..8]));
  }

  /** For every digest and answer: this run has handed the second transaction to the transport,
      and no record is left to report it. */
  lemma SentCanGoUnreported(h: Hasher, answer: Answer)
    ensures var sys := After(h, INITIAL, TheScript(h, answer));
            && sys.sends == [Send(2, Sel(h), 1)]
            && ListAttemptedTxids(sys.store, "main", "account", "run") == []
  {
    hide TheScript, SubmittingPair, After, Sel;
    ScriptSteps(h, answer);
    var a := TheScript(h, answer);
    SecondIsSelected(h, answer);
    var sys := After(h, INITIAL, a[..12]);
    OneStep(h, INITIAL, a, 12);
    OneStep(h, INITIAL, a, 13);
    assert a[..14] == a;
    AcknowledgedAway(h, sys.store);
    hide Next, AcknowledgeReceipts;
    AcknowledgeAndSend(h, sys, {Expiration(h).receiptId}, Sel(h), answer);
  }
}
