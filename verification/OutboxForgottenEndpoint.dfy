/** A run of the outbox after which a pending verified announcement waits at an endpoint that
    no run inspects: the transaction expired, and the batch was armed again. */
module OutboxForgottenEndpoint {
  import opened Common
  import opened Text
  import opened Heights
  import opened OutboxModel
  import opened OutboxInvariants
  import opened OutboxEdits
  import opened OutboxRotation
  import opened OutboxSystem

  function Tx(h: Hasher): Item {
    NewItem(h, "item", 0, "aa", [1], 0, 0, 0, 1)
  }

  function Staged0(h: Hasher): Batch {
    Batch("batch", "main", "account", "run", "url", 1, 1, None, Some(0), None, None, None, None, None, None, [Tx(h)])
  }

  function Armed0(h: Hasher): Batch {
    Staged0(h).(armedAt := Some(0), items := [Tx(h).(status := Armed)])
  }

  function Verified0(h: Hasher): Batch {
    Armed0(h).(proofPendingAt := Some(0))
  }

  function Expired0(h: Hasher): Batch {
    Verified0(h).(armedAt := None, nextProofHeight := None, items := [Tx(h).(status := ExpiredAwaiting)])
  }

  function Rearmed0(h: Hasher): Batch {
    Expired0(h).(armedAt := Some(0))
  }

  function Digests(h: Hasher): map<string, string> {
    map["item" := h([1])]
  }

  /** Stage and arm; the proof is verified; a run sees the transaction expired; arm again. */
  function TheRun(h: Hasher): seq<Action> {
    [Change(StageBatch(Staged0(h))), Change(Arm("batch", Digests(h), 0)), Change(VerifiedProof("main", "account", "run", 0)),
     Run(TryBegin), Run(Recover(0, Committed)), Run(LearnTip(Some(1))), Run(Select(true, "attempt", 0, Committed)),
     Run(FinishRun), Change(Arm("batch", Digests(h), 0))]
  }

  lemma OneStep(h: Hasher, sys: System, actions: seq<Action>, n: nat)
    requires n < |actions|
    ensures After(h, sys, actions[..n + 1]) == Next(h, After(h, sys, actions[..n]), actions[n])
  {
    assert actions[..n + 1][..n] == actions[..n];
  }

  lemma Script(h: Hasher)
    ensures |TheRun(h)| == 9
    ensures TheRun(h)[3] == Run(TryBegin) && TheRun(h)[4] == Run(Recover(0, Committed)) && TheRun(h)[5] == Run(LearnTip(Some(1)))
    ensures TheRun(h)[6] == Run(Select(true, "attempt", 0, Committed)) && TheRun(h)[7] == Run(FinishRun)
  {
  }

  lemma Staging(h: Hasher)
    ensures Built(h, Staged0(h)) && Stageable(h, Staged0(h))
    ensures Stage(h, EMPTY, Staged0(h)) == Ok(EMPTY.(batches := [Staged0(h)]))
  {
    assert LowerAscii("aa") == "aa";
    assert forall i :: i in Staged0(h).items ==> i == Tx(h);
    assert EMPTY.batches + [Staged0(h)] == [Staged0(h)];
  }

  lemma Arming(h: Hasher, s: Snapshot, b: Batch)
    requires s.batches == [b] && b.batchId == "batch" && HasDigest(b.items, "item", h([1]))
    ensures ArmBatch(s, "batch", Digests(h), 0)
         == Ok(s.(batches := [b.(armedAt := OrElse(b.armedAt, 0), items := ArmItems(Digests(h), b.items))]))
  {
    assert |Digests(h)| > 0 by { assert "item" in Digests(h); }
    assert FindBatch(s.batches, "batch") == 0;
    var c := b.(armedAt := OrElse(b.armedAt, 0), items := ArmItems(Digests(h), b.items));
    assert s.batches[0 := c] == [c];
  }

  lemma Verifying(h: Hasher, s: Snapshot)
    requires s.batches == [Armed0(h)]
    ensures RecordVerifiedProof(s, "main", "account", "run", 0) == s.(batches := [Verified0(h)])
  {
    assert RunBatch(s.batches[0], "main", "account", "run") && s.batches[0] in s.batches;
    assert s.batches[0 := Verified0(h)] == [Verified0(h)];
  }

  lemma Recovering(h: Hasher, s: Snapshot)
    requires s.batches == [Verified0(h)]
    ensures var r := RecoverStep(s, 0); r.endpoint == Some("url") && r.snapshot.batches == [Verified0(h)]
  {
    var t := RecoverInterrupted(s, 0);
    assert UninterruptItems(Verified0(h).items, 0) == Verified0(h).items;
    assert t.batches == [Verified0(h)];
    assert Verified0(h).items[0] in Verified0(h).items && InRotation(t.batches[0]) && t.batches[0] in t.batches;
    EndpointsAreTheRotation(t, "url");
    forall u | u in Endpoints(t) ensures u == "url" {
      EndpointsAreTheRotation(t, u);
    }
  }

  lemma Selecting(h: Hasher, s: Snapshot)
    requires s.batches == [Verified0(h)]
    ensures var r := SelectStep(s, "url", 1, true, "attempt", 0);
            r.Ok? && r.value.selection.None? && r.value.snapshot.batches == [Expired0(h)]
  {
    var s1, s2 := ExpireItems(s, 1, "url", 0), Prepare(s, "url", 1, true, 0);
    assert Verified0(h).items[0] in Verified0(h).items && HasRetiring(Expiry, 1, Verified0(h).items);
    assert RetireItems(Expiry, 1, Verified0(h).items) == Expired0(h).items;
    assert s1.batches == [Expired0(h)];
    var c := CanonicalExpiry(1).value;
    assert RetireItems(Resign(c), 1, Expired0(h).items) == Expired0(h).items;
    assert !HasRetiring(Resign(c), 1, Expired0(h).items);
    assert s2.batches == [Expired0(h)];
    SelectDueIsComplete(s2, 1, Some("url"), 0);
    assert !Candidate(Expired0(h), 1, Some("url"), 0);
  }

  lemma ForegroundSteps(h: Hasher)
    ensures var sys := After(h, INITIAL, TheRun(h)[..3]);
            sys == INITIAL.(store := sys.store) && sys.store.batches == [Verified0(h)]
  {
    var actions := TheRun(h);
    OneStep(h, INITIAL, actions, 0);
    OneStep(h, INITIAL, actions, 1);
    OneStep(h, INITIAL, actions, 2);
    assert actions[..0] == [];
    var staged := EMPTY.(batches := [Staged0(h)]);
    Staging(h);
    assert Tx(h) in Staged0(h).items;
    Arming(h, staged, Staged0(h));
    assert ArmItems(Digests(h), Staged0(h).items) == Armed0(h).items;
    Verifying(h, staged.(batches := [Armed0(h)]));
    hide Stage, ArmBatch, RecordVerifiedProof, StoredIds, Built;
  }

  lemma InspectionSteps(h: Hasher)
    ensures var sys := After(h, INITIAL, TheRun(h)[..6]);
            sys.runner == AtTip("url", 1) && sys.store.batches == [Verified0(h)]
  {
    hide TheRun, RunnerStep, After, Staged0, Verified0;
    Script(h);
    var actions := TheRun(h);
    ForegroundSteps(h);
    OneStep(h, INITIAL, actions, 3);
    OneStep(h, INITIAL, actions, 4);
    OneStep(h, INITIAL, actions, 5);
    Inspecting0(h, After(h, INITIAL, actions[..3]));
  }

  lemma Inspecting0(h: Hasher, sys: System)
    requires sys == INITIAL.(store := sys.store) && sys.store.batches == [Verified0(h)]
    ensures var admitted := RunnerStep(h, sys, TryBegin);
            var inspecting := RunnerStep(h, admitted, Recover(0, Committed));
            var next := RunnerStep(h, inspecting, LearnTip(Some(1)));
            next.runner == AtTip("url", 1) && next.store.batches == [Verified0(h)]
  {
    Recovering(h, sys.store);
    hide RecoverStep;
    var admitted := RunnerStep(h, sys, TryBegin);
    assert admitted.runner.Admitted? && admitted.store == sys.store;
    var inspecting := RunnerStep(h, admitted, Recover(0, Committed));
    assert inspecting.runner == Inspecting("url") && inspecting.store.batches == [Verified0(h)];
  }

  lemma RunnerSteps(h: Hasher)
    ensures var sys := After(h, INITIAL, TheRun(h)[..8]); sys.runner.Idle? && sys.store.batches == [Expired0(h)]
  {
    hide TheRun, After, Verified0, Expired0;
    Script(h);
    var actions := TheRun(h);
    InspectionSteps(h);
    OneStep(h, INITIAL, actions, 6);
    OneStep(h, INITIAL, actions, 7);
    hide RecoverStep, SelectStep, RecordStep, EditStore, StoredIds, CanonicalExpiry;
    var sys := After(h, INITIAL, actions[..6]);
    Selecting(h, sys.store);
    assert After(h, INITIAL, actions[..7]).runner.Finishing?;
  }

  /** For every digest: this run leaves an armed batch whose verified announcement is still
      pending at an endpoint that is not in the rotation. */
  lemma PendingVerifiedCanLoseItsEndpoint(h: Hasher)
    ensures var s := After(h, INITIAL, TheRun(h)).store;
            exists b :: b in s.batches && b.armedAt.Some? && b.proofPendingAt.Some? && b.lightwalletdUrl !in Endpoints(s)
  {
    var actions := TheRun(h);
    RunnerSteps(h);
    OneStep(h, INITIAL, actions, 8);
    assert actions[..9] == actions;
    var before := After(h, INITIAL, actions[..8]).store;
    assert Expired0(h).items[0] in Expired0(h).items;
    Arming(h, before, Expired0(h));
    assert ArmItems(Digests(h), Expired0(h).items) == Rearmed0(h).items;
    hide ArmBatch, After;
    var s := After(h, INITIAL, actions).store;
    assert s.batches == [Rearmed0(h)] && Rearmed0(h) in s.batches;
    EndpointsAreTheRotation(s, "url");
    assert !InRotation(Rearmed0(h));
  }
}
