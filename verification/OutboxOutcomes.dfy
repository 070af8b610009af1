/** What each outcome of a run says about the store and the network. */
module OutboxOutcomes {
  import opened Common
  import opened Heights
  import opened OutboxModel
  import opened OutboxInvariants
  import opened OutboxKeeps
  import opened OutboxRotation
  import opened OutboxSystem
  import opened OutboxSafety
  import opened OutboxSchedule
  import opened OutboxReachable
  import opened OutboxRunner

  // ---------- how far a run gets ----------

  /** The run inspects an endpoint and learns its tip. */
  predicate ReachesTip(s: Snapshot, input: RunInput) {
    && !input.cancelledAtStart && input.recoverCommit.Committed? && RecoverStep(s, input.now).endpoint.Some?
    && input.height.Height? && !input.cancelledAfterTip
  }

  function AtTheTip(sys: System, input: RunInput): System
    requires ReachesTip(sys.store, input)
  {
    var r := RecoverStep(sys.store, input.now);
    sys.(store := r.snapshot, runner := AtTip(r.endpoint.value, input.height.tip), running := true, run := sys.run + 1,
         disturbed := false)
  }

  predicate Admissible(sys: System) {
    sys.runner.Idle? && !sys.running && sys.leases == {}
  }

  lemma TipIsReached(h: Hasher, sys: System, input: RunInput)
    requires Admissible(sys) && ReachesTip(sys.store, input)
    ensures RunOnceSpec(h, sys, input) == Finish(h, Submit(h, Choose(h, AtTheTip(sys, input), input), input))
  {
    hide RecoverStep, Choose, Submit, Finish;
    var begun := Begin(h, sys, input);
    assert begun == sys.(runner := Admitted, running := true, run := sys.run + 1);
    var r := RecoverStep(sys.store, input.now);
    var inspected := Inspect(h, begun, input);
    assert inspected == begun.(store := r.snapshot, runner := Inspecting(r.endpoint.value), disturbed := false);
    assert Query(h, inspected, input) == AtTheTip(sys, input);
  }

  lemma TipIsNotReached(h: Hasher, sys: System, input: RunInput)
    requires Admissible(sys) && !ReachesTip(sys.store, input)
    ensures RunOnceSpec(h, sys, input).sends == sys.sends
  {
    hide RecoverStep, Choose, Submit, Finish;
    var begun := Begin(h, sys, input);
    BeginShape(h, sys, input);
    var inspected := Inspect(h, begun, input);
    InspectShape(h, begun, input);
    var queried := Query(h, inspected, input);
    QueryShape(h, inspected, input);
    assert queried.runner.Finishing?;
    EndedStaysEnded(h, queried, input);
    FinishShape(h, queried);
  }

  /** The run selects an item and the selection is written. */
  predicate Selects(s: Snapshot, input: RunInput) {
    && ReachesTip(s, input)
    && var r := RecoverStep(s, input.now);
       var c := SelectStep(r.snapshot, r.endpoint.value, input.height.tip, input.verify, input.attemptId, input.now);
       c.Ok? && c.value.selection.Some? && input.selectCommit.Committed?
  }

  function Chosen(s: Snapshot, input: RunInput): Choice
    requires Selects(s, input)
  {
    var r := RecoverStep(s, input.now);
    SelectStep(r.snapshot, r.endpoint.value, input.height.tip, input.verify, input.attemptId, input.now).value
  }

  lemma NothingSelectedSendsNothing(h: Hasher, sys: System, input: RunInput)
    requires Admissible(sys) && ReachesTip(sys.store, input) && !Selects(sys.store, input)
    ensures RunOnceSpec(h, sys, input).sends == sys.sends
    ensures var r := RecoverStep(sys.store, input.now);
            var c := SelectStep(r.snapshot, r.endpoint.value, input.height.tip, input.verify, input.attemptId, input.now);
            c.Ok? && input.selectCommit.Committed? ==> RunOnceSpec(h, sys, input).store == c.value.snapshot
  {
    TipIsReached(h, sys, input);
    NoChoiceIsHeld(h, sys, input);
    var chosen := Choose(h, AtTheTip(sys, input), input);
    EndedStaysEnded(h, chosen, input);
    FinishShape(h, chosen);
    hide RunOnceSpec, AtTheTip, Choose, Submit, Finish, RecoverStep, SelectStep;
  }

  lemma NoChoiceIsHeld(h: Hasher, sys: System, input: RunInput)
    requires ReachesTip(sys.store, input) && !Selects(sys.store, input)
    ensures var chosen := Choose(h, AtTheTip(sys, input), input);
            var r := RecoverStep(sys.store, input.now);
            var c := SelectStep(r.snapshot, r.endpoint.value, input.height.tip, input.verify, input.attemptId, input.now);
            && chosen.runner.Finishing? && chosen.sends == sys.sends
            && (c.Ok? && input.selectCommit.Committed? ==> chosen.store == c.value.snapshot)
  {
    hide RecoverStep, SelectStep, CanonicalExpiry;
  }

  lemma SelectedIsSubmitted(h: Hasher, sys: System, input: RunInput)
    requires Admissible(sys) && Selects(sys.store, input) && !input.cancelledBeforeSend
    ensures var c := Chosen(sys.store, input);
            var t := RunOnceSpec(h, sys, input);
            && t.sends == sys.sends + [Send(sys.run + 1, c.selection.value, input.height.tip)]
            && t.store == Persist(c.snapshot, OrSame(c.snapshot,
                 RecordStep(h, c.snapshot, c.selection.value, input.height.tip, input.answer, input.now, input.random)),
                 input.recordCommit)
  {
    TipIsReached(h, sys, input);
    ChoiceIsHeld(h, sys, input);
    var chosen := Choose(h, AtTheTip(sys, input), input);
    SubmissionRuns(h, chosen, input);
    FinishShape(h, Submit(h, chosen, input));
    hide RunOnceSpec, AtTheTip, Choose, Submit, Finish, Chosen, RecordStep, Persist;
  }

  /** After the selection: the choice is held, and stored. */
  lemma ChoiceIsHeld(h: Hasher, sys: System, input: RunInput)
    requires Selects(sys.store, input)
    ensures var c := Chosen(sys.store, input);
            var chosen := Choose(h, AtTheTip(sys, input), input);
            && chosen.runner == Holding(c.selection.value, input.height.tip) && chosen.store == c.snapshot
            && chosen.sends == sys.sends && chosen.run == sys.run + 1
  {
    hide RecoverStep, SelectStep, CanonicalExpiry;
  }

  lemma SubmissionRuns(h: Hasher, s: System, input: RunInput)
    requires s.runner.Holding? && !input.cancelledBeforeSend
    ensures var t := Submit(h, s, input);
            && t.runner.Finishing? && t.sends == s.sends + [Send(s.run, s.runner.selection, s.runner.tip)]
            && t.store == Persist(s.store, OrSame(s.store,
                 RecordStep(h, s.store, s.runner.selection, s.runner.tip, input.answer, input.now, input.random)), input.recordCommit)
  {
    hide RecordStep;
    var answered := RunnerStep(h, s, HandOver(input.answer));
    assert answered.runner == Answered(s.runner.selection, s.runner.tip, input.answer) && answered.store == s.store;
  }

  lemma CancelledBeforeSendSendsNothing(h: Hasher, sys: System, input: RunInput)
    requires Admissible(sys) && Selects(sys.store, input) && input.cancelledBeforeSend
    ensures RunOnceSpec(h, sys, input).sends == sys.sends
  {
    TipIsReached(h, sys, input);
    ChoiceIsHeld(h, sys, input);
    var chosen := Choose(h, AtTheTip(sys, input), input);
    CancellationRuns(h, chosen, input);
    FinishShape(h, Submit(h, chosen, input));
    hide RunOnceSpec, AtTheTip, Choose, Submit, Finish;
  }

  lemma CancellationRuns(h: Hasher, s: System, input: RunInput)
    requires s.runner.Holding? && input.cancelledBeforeSend
    ensures Submit(h, s, input).runner.Finishing? && Submit(h, s, input).sends == s.sends
  {
    hide RecordCancelled;
  }

  // ---------- a send is reported as what became of it ----------

  predicate Sends(s: Snapshot, input: RunInput) {
    Selects(s, input) && !input.cancelledBeforeSend
  }

  /** Exactly the runs that select and are not cancelled before the network send something,
      and they send one transaction. */
  lemma SendsExactly(h: Hasher, sys: System, input: RunInput)
    requires Admissible(sys)
    ensures var t := RunOnceSpec(h, sys, input);
            if Sends(sys.store, input)
            then t.sends == sys.sends + [Send(sys.run + 1, Chosen(sys.store, input).selection.value, input.height.tip)]
            else t.sends == sys.sends
  {
    if !ReachesTip(sys.store, input) {
      TipIsNotReached(h, sys, input);
    } else if !Selects(sys.store, input) {
      NothingSelectedSendsNothing(h, sys, input);
    } else if input.cancelledBeforeSend {
      CancelledBeforeSendSendsNothing(h, sys, input);
    } else {
      SelectedIsSubmitted(h, sys, input);
    }
    hide RunOnceSpec, RecoverStep, SelectStep;
  }

  /** The stored record of the transaction sent, with this status and its receipt. */
  ghost predicate RecordedAs(s: Snapshot, sel: Selection, status: Status) {
    exists b, i :: Stored(s, b, i) && i.itemId == sel.item.itemId && i.rawTransaction == sel.item.rawTransaction
      && i.status == status && HasReceipt(s.receipts, b, i)
  }

  /** Waiting or no work: nothing was sent, and this is the next height with something to do
      at the endpoint inspected, or there is none. */
  lemma WaitingMeans(h: Hasher, sys: System, input: RunInput)
    requires Admissible(sys) && (RunOutcome(h, sys.store, input).WaitingFor? || RunOutcome(h, sys.store, input).NoWork?)
    ensures var t := RunOnceSpec(h, sys, input);
            var o := RunOutcome(h, sys.store, input);
            var r := RecoverStep(sys.store, input.now);
            && t.sends == sys.sends
            && (o.WaitingFor? ==> r.endpoint.Some? && NextActionHeight(t.store, r.endpoint.value) == Some(o.nextHeight))
            && (o.NoWork? ==> r.endpoint.None? || NextActionHeight(t.store, r.endpoint.value).None?)
  {
    SendsExactly(h, sys, input);
    if ReachesTip(sys.store, input) && !Selects(sys.store, input) { NothingSelectedSendsNothing(h, sys, input); }
    IdleOutcomeIsFor(h, sys.store, input);
    hide RunOnceSpec, RecoverStep, SelectStep, RecordStep, NextActionHeight, RunOutcome, Selects, ReachesTip;
  }

  /** Where an outcome of waiting comes from. */
  lemma IdleOutcomeIsFor(h: Hasher, s: Snapshot, input: RunInput)
    ensures var o := RunOutcome(h, s, input);
            var r := RecoverStep(s, input.now);
            o.WaitingFor? || o.NoWork? ==>
              !Sends(s, input) && (r.endpoint.None? ==> o.NoWork?)
              && (r.endpoint.Some? ==>
                    && ReachesTip(s, input) && !Selects(s, input)
                    && var c := SelectStep(r.snapshot, r.endpoint.value, input.height.tip, input.verify, input.attemptId, input.now);
                       && c.Ok? && input.selectCommit.Committed?
                       && NextActionHeight(c.value.snapshot, r.endpoint.value) == if o.WaitingFor? then Some(o.nextHeight) else None)
  {
    hide RecoverStep, SelectStep, RecordStep, NextActionHeight;
  }

  /** Accepted: one transaction was sent, and its record is stored as accepted, with its receipt. */
  lemma AcceptedMeans(h: Hasher, sys: System, input: RunInput)
    requires SystemOk(h, sys) && Admissible(sys) && RunOutcome(h, sys.store, input).AcceptedSend?
    ensures var t := RunOnceSpec(h, sys, input);
            && |t.sends| == |sys.sends| + 1
            && RecordedAs(t.store, t.sends[|sys.sends|].selection, AcceptedAwaiting)
  {
    AcceptedOutcomeIsFor(h, sys.store, input);
    SelectedIsSubmitted(h, sys, input);
    SubmittedIsRecorded(h, sys, input);
    hide RunOnceSpec, SystemOk, SelectStep, RecoverStep, RecordStep, RunOutcome, Chosen, Sends, RecordedAs;
  }

  lemma AcceptedOutcomeIsFor(h: Hasher, s: Snapshot, input: RunInput)
    requires RunOutcome(h, s, input).AcceptedSend?
    ensures Sends(s, input) && IsAccepted(input.answer) && input.recordCommit.Committed?
    ensures var c := Chosen(s, input);
            RecordStep(h, c.snapshot, c.selection.value, input.height.tip, input.answer, input.now, input.random).Ok?
  {
    hide RecoverStep, SelectStep, RecordStep, NextActionHeight;
  }

  /** Asking for the user: the transaction sent was rejected, and is recorded so; or an item of
      this tip expired or needs a new signature, and nothing was sent; or a mutation threw; or
      the store failed for good. */
  lemma NeedsUserActionMeans(h: Hasher, sys: System, input: RunInput)
    requires SystemOk(h, sys) && Admissible(sys) && RunOutcome(h, sys.store, input).NeedsUserAction?
    ensures var t := RunOnceSpec(h, sys, input);
            || (|t.sends| == |sys.sends| + 1 && RecordedAs(t.store, t.sends[|sys.sends|].selection, RejectedAwaiting))
            || (t.sends == sys.sends && input.height.Height? && exists r :: r in t.store.receipts && GaveUp(r, input.height.tip))
            || Throws(h, sys.store, input)
            || (!input.failure.transient
                && !(input.recoverCommit.Committed? && input.selectCommit.Committed? && input.recordCommit.Committed?))
  {
    SendsExactly(h, sys, input);
    if Throws(h, sys.store, input)
       || (!input.failure.transient
           && !(input.recoverCommit.Committed? && input.selectCommit.Committed? && input.recordCommit.Committed?)) {
      return;
    }
    UserOutcomeIsFor(h, sys.store, input);
    if !Sends(sys.store, input) {
      if ReachesTip(sys.store, input) && !Selects(sys.store, input) { NothingSelectedSendsNothing(h, sys, input); }
    } else if !Throws(h, sys.store, input) && input.recordCommit.Committed? {
      SelectedIsSubmitted(h, sys, input);
      SubmittedIsRecorded(h, sys, input);
    }
    hide RunOnceSpec, SystemOk, RecoverStep, SelectStep, RecordStep, RecordedAs, RunOutcome, Chosen;
  }

  /** Where an outcome that asks for the user comes from. */
  lemma UserOutcomeIsFor(h: Hasher, s: Snapshot, input: RunInput)
    requires RunOutcome(h, s, input).NeedsUserAction? && !Throws(h, s, input)
    requires input.failure.transient
             || (input.recoverCommit.Committed? && input.selectCommit.Committed? && input.recordCommit.Committed?)
    ensures Sends(s, input) ==> input.recordCommit.Committed? && input.answer.Replied? && !IsAccepted(input.answer)
    ensures !Sends(s, input) ==>
              && ReachesTip(s, input) && !Selects(s, input)
              && var r := RecoverStep(s, input.now);
                 var c := SelectStep(r.snapshot, r.endpoint.value, input.height.tip, input.verify, input.attemptId, input.now);
                 && c.Ok? && input.selectCommit.Committed?
                 && exists x :: x in c.value.snapshot.receipts && GaveUp(x, input.height.tip)
  {
    hide RecoverStep, SelectStep, RecordStep, NextActionHeight;
  }

  /** The schedule does not fit, or the outcome cannot be recorded. */
  predicate Throws(h: Hasher, s: Snapshot, input: RunInput) {
    && ReachesTip(s, input)
    && var r := RecoverStep(s, input.now);
       var c := SelectStep(r.snapshot, r.endpoint.value, input.height.tip, input.verify, input.attemptId, input.now);
       || c.Err?
       || (c.value.selection.Some?
           && RecordStep(h, c.value.snapshot, c.value.selection.value, input.height.tip, input.answer, input.now, input.random).Err?)
  }

  /** Cancelled or unavailable: if anything was sent, its transport failed in just that way, or
      the store failed for now when the answer was being recorded. */
  lemma InconclusiveMeans(h: Hasher, sys: System, input: RunInput)
    requires Admissible(sys)
    requires RunOutcome(h, sys.store, input).WasCancelled? || RunOutcome(h, sys.store, input).TemporarilyUnavailable?
    ensures var t := RunOnceSpec(h, sys, input);
            var o := RunOutcome(h, sys.store, input);
            t.sends != sys.sends ==>
              || (input.answer.TransportFailed? && (o.WasCancelled? <==> input.answer.cancelled))
              || (o.TemporarilyUnavailable? && !input.recordCommit.Committed? && input.failure.transient)
  {
    SendsExactly(h, sys, input);
    hide RunOnceSpec, RecoverStep, SelectStep, RecordStep, NextActionHeight;
  }

  // ---------- the record ----------

  lemma SubmittedIsRecorded(h: Hasher, sys: System, input: RunInput)
    requires SystemOk(h, sys) && Admissible(sys) && Sends(sys.store, input) && input.answer.Replied?
    requires var c := Chosen(sys.store, input);
             RecordStep(h, c.snapshot, c.selection.value, input.height.tip, input.answer, input.now, input.random).Ok?
    ensures var c := Chosen(sys.store, input);
            var t := RecordStep(h, c.snapshot, c.selection.value, input.height.tip, input.answer, input.now, input.random).value;
            RecordedAs(t, c.selection.value, if IsAccepted(input.answer) then AcceptedAwaiting else RejectedAwaiting)
  {
    var r := RecoverStep(sys.store, input.now);
    RecoverStepKeeps(h, sys.store, input.now);
    hide RecoverStep;
    SelectStepChooses(h, r.snapshot, r.endpoint.value, input.height.tip, input.verify, input.attemptId, input.now);
    hide SelectStep;
    var c := Chosen(sys.store, input);
    RecordLeaves(h, c.snapshot, c.selection.value, input.height.tip, input.answer, input.now, input.random);
    hide RecordStep, RecordedAs;
  }

  lemma RecordLeaves(h: Hasher, s: Snapshot, sel: Selection, tip: u64, answer: Answer, now: Date, random: Random)
    requires Valid(h, s) && OnlySubmitting(s, sel.item.itemId) && Held(s, sel) && answer.Replied?
    requires RecordStep(h, s, sel, tip, answer, now, random).Ok?
    ensures var t := RecordStep(h, s, sel, tip, answer, now, random).value;
            RecordedAs(t, sel, if IsAccepted(answer) then AcceptedAwaiting else RejectedAwaiting)
  {
    var t := RecordStep(h, s, sel, tip, answer, now, random).value;
    var b, i :| HeldAt(s, sel, b, i);
    var p := LocateFinds(s, b, i);
    RecordStepKeeps(h, s, sel, tip, answer, now, random);
    SettledStatus(h, s, sel, p, tip, answer, now, random);
    hide RecordStep;
    var j := t.batches[p.batch].items[p.item];
    assert SameBatch(s.batches[p.batch], t.batches[p.batch]) && ItemEvolves(i, j);
    assert Stored(t, t.batches[p.batch], j) && Terminal(j);
    assert HasReceipt(t.receipts, t.batches[p.batch], j);
  }

  lemma SettledStatus(h: Hasher, s: Snapshot, sel: Selection, p: Place, tip: u64, answer: Answer, now: Date, random: Random)
    requires Valid(h, s) && answer.Replied? && Locate(s.batches, sel.item.itemId) == Some(p)
    requires RecordStep(h, s, sel, tip, answer, now, random).Ok?
    ensures var t := RecordStep(h, s, sel, tip, answer, now, random).value;
            && p.batch < |t.batches| && p.item < |t.batches[p.batch].items|
            && t.batches[p.batch].items[p.item].status == if IsAccepted(answer) then AcceptedAwaiting else RejectedAwaiting
  {
    if IsAccepted(answer) {
      var equivalent := answer.response.code != 0;
      AcceptedIsNotSubmitting(h, s, sel.item.itemId, equivalent, tip, answer.response, now, random);
      hide RecordAccepted;
      CompletionKeepsItems(RecordAccepted(h, s, sel.item.itemId, equivalent, tip, answer.response, now, random).value, sel.batchId, now);
      hide MarkBroadcastComplete;
    } else {
      RejectedStatus(s, sel.item.itemId, p, tip, answer.response, now);
      hide RecordRejected;
    }
  }

  lemma CompletionKeepsItems(s: Snapshot, batchId: string, now: Date)
    ensures var t := MarkBroadcastComplete(s, batchId, now);
            |t.batches| == |s.batches| && forall k :: 0 <= k < |s.batches| ==> t.batches[k].items == s.batches[k].items
  {
  }

  lemma RejectedStatus(s: Snapshot, itemId: string, p: Place, tip: u64, response: Response, now: Date)
    requires Locate(s.batches, itemId) == Some(p) && RecordRejected(s, itemId, tip, response, now).Ok?
    ensures var t := RecordRejected(s, itemId, tip, response, now).value;
            && p.batch < |t.batches| && p.item < |t.batches[p.batch].items|
            && t.batches[p.batch].items[p.item].status == RejectedAwaiting
  {
  }
}
