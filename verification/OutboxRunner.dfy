/** The gate, the store and the runner as the program has them: fields updated in place,
    and `RunOnce` as one admitted pass through the durable steps. */
module OutboxRunner {
  import opened Common
  import opened Heights
  import opened OutboxModel
  import opened OutboxInvariants
  import opened OutboxSnapshot
  import opened OutboxSystem
  import opened OutboxSafety
  import opened OutboxReachable
  import opened OutboxTheorems

  /** Admission of one run at a time, closed while any mutation holds a lease. */
  class ExecutionGate {
    var running: bool
    var mutationLeases: set<string>

    constructor ()
      ensures !running && mutationLeases == {}
    {
      running, mutationLeases := false, {};
    }

    method TryBeginRun() returns (admitted: bool)
      modifies this`running
      ensures admitted <==> !old(running) && mutationLeases == {}
      ensures running <==> old(running) || admitted
    {
      if running || mutationLeases != {} {
        return false;
      }
      running := true;
      return true;
    }

    method FinishRun()
      modifies this`running
      ensures !running
    {
      running := false;
    }

    method Pause(lease: string)
      modifies this`mutationLeases
      ensures mutationLeases == old(mutationLeases) + {lease}
    {
      mutationLeases := mutationLeases + {lease};
    }

    method DiscardStopLeases(scope: Option<(string, string)>)
      modifies this`mutationLeases
      ensures var prefix := if scope.Some? then scope.value.0 + ":" + scope.value.1 + ":" else "";
              mutationLeases == Unprefixed(old(mutationLeases), "stop:" + prefix)
    {
      var prefix := if scope.Some? then "stop:" + (scope.value.0 + ":" + scope.value.1 + ":") else "stop:" + "";
      mutationLeases := set l | l in mutationLeases && !(prefix <= l);
    }

    method Resume(lease: string) returns (allReleased: bool)
      modifies this`mutationLeases
      ensures mutationLeases == old(mutationLeases) - {lease}
      ensures allReleased <==> mutationLeases == {}
    {
      mutationLeases := mutationLeases - {lease};
      return mutationLeases == {};
    }
  }

  class OutboxStore {
    var persisted: Snapshot

    constructor ()
      ensures persisted == EMPTY
    {
      persisted := EMPTY;
    }

    /** The end of a successful mutation: writing may fail before or after the replacement. */
    method Write(value: Snapshot, commit: Commit) returns (ok: bool)
      modifies this
      ensures persisted == Persist(old(persisted), value, commit)
      ensures ok <==> commit.Committed?
    {
      if !commit.FailedBeforeWrite? {
        persisted := value;
      }
      return commit.Committed?;
    }
  }

  /** The network side of a send; it only remembers what was handed over. */
  class Transport {
    var payloads: seq<seq<byte>>
    ghost var sends: seq<Send>

    constructor ()
      ensures sends == [] && payloads == []
    {
      payloads, sends := [], [];
    }

    method SendTransaction(ghost run: nat, sel: Selection, ghost tip: u64)
      modifies this
      ensures sends == old(sends) + [Send(run, sel, tip)]
      ensures payloads == old(payloads) + [sel.item.rawTransaction]
    {
      payloads := payloads + [sel.item.rawTransaction];
      sends := sends + [Send(run, sel, tip)];
    }
  }

  datatype Height = Height(tip: u64) | HeightCancelled | HeightFailed

  /** Why an update did not commit: the store is unavailable for now, or for good; and whether
      that showed on reading, before the mutation could throw. */
  datatype Failure = Failure(transient: bool, onRead: bool)

  /** Everything the environment decides during one run. A failure only matters to the update
      that does not commit. */
  datatype RunInput = RunInput(
    now: Date, cancelledAtStart: bool, recoverCommit: Commit, height: Height, cancelledAfterTip: bool,
    verify: bool, attemptId: string, selectCommit: Commit, cancelledBeforeSend: bool,
    answer: Answer, random: Random, recordCommit: Commit, failure: Failure)

  datatype TransportOutcome =
    | NoWork | WaitingFor(nextHeight: u64) | AcceptedSend | NeedsUserAction | TemporarilyUnavailable | WasCancelled

  function TipOf(height: Height): Option<u64> {
    if height.Height? then Some(height.tip) else None
  }

  // ---------- one run, as steps of the state machine ----------

  function Begin(h: Hasher, sys: System, input: RunInput): System {
    var s := RunnerStep(h, sys, TryBegin);
    if input.cancelledAtStart then RunnerStep(h, s, ObserveCancellation) else s
  }

  function Inspect(h: Hasher, sys: System, input: RunInput): System {
    RunnerStep(h, sys, Recover(input.now, input.recoverCommit))
  }

  function Query(h: Hasher, sys: System, input: RunInput): System {
    var s := RunnerStep(h, sys, LearnTip(TipOf(input.height)));
    if input.cancelledAfterTip then RunnerStep(h, s, ObserveCancellation) else s
  }

  function Choose(h: Hasher, sys: System, input: RunInput): System {
    RunnerStep(h, sys, Select(input.verify, input.attemptId, input.now, input.selectCommit))
  }

  function Submit(h: Hasher, sys: System, input: RunInput): System {
    if input.cancelledBeforeSend then RunnerStep(h, sys, CancelBeforeSend(input.recordCommit))
    else
      RunnerStep(h, RunnerStep(h, sys, HandOver(input.answer)), RecordOutcome(input.now, input.random, input.recordCommit))
  }

  function Finish(h: Hasher, sys: System): System {
    RunnerStep(h, sys, FinishRun)
  }

  /** One call of the runner: refused outright, or all of its steps in order. */
  function RunOnceSpec(h: Hasher, sys: System, input: RunInput): System {
    if sys.running || sys.leases != {} then sys
    else
      Finish(h, Submit(h, Choose(h, Query(h, Inspect(h, Begin(h, sys, input), input), input), input), input))
  }

  // ---------- the outcome of one run ----------

  function FailureOutcome(failure: Failure): TransportOutcome {
    if failure.transient then TemporarilyUnavailable else NeedsUserAction
  }

  /** The update ends in an error of the store rather than of the mutation. */
  predicate StoreFails(commit: Commit, failure: Failure, thrown: bool) {
    !commit.Committed? && (failure.onRead || !thrown)
  }

  predicate GaveUp(r: Receipt, tip: u64) {
    r.outcome in {HasExpired, NeedsResign} && r.remoteHeight == tip
  }

  /** The outcome when nothing was selected: an item of this tip that expired or needs a new
      signature asks for the user; otherwise the next height to wake for, or no work. */
  function IdleOutcome(s: Snapshot, endpoint: string, tip: u64): TransportOutcome {
    if exists r :: r in s.receipts && GaveUp(r, tip) then NeedsUserAction
    else
      var next := NextActionHeight(s, endpoint);
      if next.Some? then WaitingFor(next.value) else NoWork
  }

  function SubmitOutcome(h: Hasher, s: Snapshot, sel: Selection, tip: u64, input: RunInput): TransportOutcome {
    if input.cancelledBeforeSend then WasCancelled
    else if input.answer.TransportFailed? then (if input.answer.cancelled then WasCancelled else TemporarilyUnavailable)
    else
      var r := RecordStep(h, s, sel, tip, input.answer, input.now, input.random);
      if StoreFails(input.recordCommit, input.failure, r.Err?) then FailureOutcome(input.failure)
      else if r.Err? then NeedsUserAction
      else if IsAccepted(input.answer) then AcceptedSend
      else NeedsUserAction
  }

  function ChooseOutcome(h: Hasher, s: Snapshot, endpoint: string, tip: u64, input: RunInput): TransportOutcome {
    var r := SelectStep(s, endpoint, tip, input.verify, input.attemptId, input.now);
    if StoreFails(input.selectCommit, input.failure, r.Err?) then FailureOutcome(input.failure)
    else if r.Err? then NeedsUserAction
    else if r.value.selection.None? then IdleOutcome(r.value.snapshot, endpoint, tip)
    else SubmitOutcome(h, r.value.snapshot, r.value.selection.value, tip, input)
  }

  /** What an admitted run tells the scheduler. */
  function RunOutcome(h: Hasher, s: Snapshot, input: RunInput): TransportOutcome {
    var r := RecoverStep(s, input.now);
    if input.cancelledAtStart then WasCancelled
    else if !input.recoverCommit.Committed? then FailureOutcome(input.failure)
    else if r.endpoint.None? then NoWork
    else if !input.height.Height? || input.cancelledAfterTip then
      if input.height.HeightFailed? then TemporarilyUnavailable else WasCancelled
    else ChooseOutcome(h, r.snapshot, r.endpoint.value, input.height.tip, input)
  }

  /** A run that has ended early skips the rest of its steps. */
  lemma EndedStaysEnded(h: Hasher, s: System, input: RunInput)
    requires s.runner.Finishing?
    ensures Inspect(h, s, input) == s && Query(h, s, input) == s && Choose(h, s, input) == s && Submit(h, s, input) == s
  {
  }

  /** The run gets to its first update, every write commits, and the tip has a canonical expiry. */
  predicate Undisturbed(input: RunInput) {
    && !input.cancelledAtStart
    && input.recoverCommit.Committed? && input.selectCommit.Committed? && input.recordCommit.Committed?
    && (input.height.Height? ==> CanonicalExpiry(input.height.tip).Some?)
  }

  /** The call as a whole keeps the system invariant; if nothing disturbs it (every write
      commits and the tip has a canonical expiry) it leaves no record being submitted. */
  lemma RunOnceIsSafe(h: Hasher, sys: System, input: RunInput)
    requires SystemOk(h, sys) && sys.runner.Idle?
    ensures SystemOk(h, RunOnceSpec(h, sys, input)) && RunOnceSpec(h, sys, input).runner.Idle?
    ensures |sys.sends| <= |RunOnceSpec(h, sys, input).sends| <= |sys.sends| + 1
    ensures sys.leases == {} && Undisturbed(input) ==> NoSubmitting(RunOnceSpec(h, sys, input).store)
  {
    if sys.leases == {} {
      RunnerKeeps(h, sys, TryBegin);
      var s1 := Begin(h, sys, input);
      RunnerKeeps(h, RunnerStep(h, sys, TryBegin), ObserveCancellation);
      RunnerKeeps(h, s1, Recover(input.now, input.recoverCommit));
      var s2 := Inspect(h, s1, input);
      RunnerKeeps(h, s2, LearnTip(TipOf(input.height)));
      RunnerKeeps(h, RunnerStep(h, s2, LearnTip(TipOf(input.height))), ObserveCancellation);
      var s3 := Query(h, s2, input);
      RunnerKeeps(h, s3, Select(input.verify, input.attemptId, input.now, input.selectCommit));
      var s4 := Choose(h, s3, input);
      SubmitKeeps(h, s4, input);
      RunnerKeeps(h, Submit(h, s4, input), FinishRun);
      CallShape(h, sys, input);
    }
  }

  lemma SubmitKeeps(h: Hasher, s: System, input: RunInput)
    requires SystemOk(h, s)
    ensures SystemOk(h, Submit(h, s, input))
  {
    RunnerKeeps(h, s, CancelBeforeSend(input.recordCommit));
    RunnerKeeps(h, s, HandOver(input.answer));
    RunnerKeeps(h, RunnerStep(h, s, HandOver(input.answer)), RecordOutcome(input.now, input.random, input.recordCommit));
  }

  lemma BeginShape(h: Hasher, sys: System, input: RunInput)
    requires sys.runner.Idle? && !sys.running && sys.leases == {}
    ensures var t := Begin(h, sys, input);
            t.sends == sys.sends && (if input.cancelledAtStart then t.runner.Finishing? else t.runner.Admitted?)
  {
  }

  lemma InspectShape(h: Hasher, s: System, input: RunInput)
    requires s.runner.Admitted? || s.runner.Finishing?
    ensures var t := Inspect(h, s, input);
            && t.sends == s.sends && (t.runner.Inspecting? || t.runner.Finishing?)
            && (s.runner.Admitted? && input.recoverCommit.Committed? ==> !t.disturbed)
  {
  }

  lemma QueryShape(h: Hasher, s: System, input: RunInput)
    requires s.runner.Inspecting? || s.runner.Finishing?
    ensures var t := Query(h, s, input);
            && t.sends == s.sends && t.disturbed == s.disturbed
            && ((t.runner.AtTip? && input.height.Height? && t.runner.tip == input.height.tip) || t.runner.Finishing?)
  {
  }

  lemma ChooseShape(h: Hasher, s: System, input: RunInput)
    requires s.runner.AtTip? || s.runner.Finishing?
    ensures var t := Choose(h, s, input);
            && t.sends == s.sends && (t.runner.Holding? || t.runner.Finishing?)
            && (input.selectCommit.Committed? && (s.runner.AtTip? ==> CanonicalExpiry(s.runner.tip).Some?) ==>
                  t.disturbed == s.disturbed)
  {
    hide SelectStep, CanonicalExpiry;
  }

  lemma SubmitShape(h: Hasher, s: System, input: RunInput)
    requires s.runner.Holding? || s.runner.Finishing?
    ensures var t := Submit(h, s, input);
            && t.runner.Finishing? && |s.sends| <= |t.sends| <= |s.sends| + 1
            && (input.recordCommit.Committed? ==> t.disturbed == s.disturbed)
  {
  }

  /** Where a call's steps lead, ignoring the records. */
  lemma CallShape(h: Hasher, sys: System, input: RunInput)
    requires sys.runner.Idle? && !sys.running && sys.leases == {}
    ensures var t := RunOnceSpec(h, sys, input);
            && t.runner.Idle? && |sys.sends| <= |t.sends| <= |sys.sends| + 1
            && (Undisturbed(input) ==> !t.disturbed)
  {
    BeginShape(h, sys, input);
    var s1 := Begin(h, sys, input);
    InspectShape(h, s1, input);
    var s2 := Inspect(h, s1, input);
    QueryShape(h, s2, input);
    var s3 := Query(h, s2, input);
    ChooseShape(h, s3, input);
    var s4 := Choose(h, s3, input);
    SubmitShape(h, s4, input);
    FinishShape(h, Submit(h, s4, input));
  }

  lemma FinishShape(h: Hasher, s: System)
    requires s.runner.Finishing?
    ensures Finish(h, s) == s.(runner := Idle, running := false)
  {
  }

  // ---------- the durable updates on the real fields ----------

  method RecoverUpdate(store: OutboxStore, now: Date, commit: Commit) returns (endpoint: Option<string>, ok: bool)
    modifies store
    ensures store.persisted == Persist(old(store.persisted), RecoverStep(old(store.persisted), now).snapshot, commit)
    ensures endpoint == RecoverStep(old(store.persisted), now).endpoint && (ok <==> commit.Committed?)
  {
    var records := new OutboxRecords(store.persisted);
    records.RecoverInterruptedSubmissions(now);
    endpoint := records.NextEndpointForInspection();
    ok := store.Write(records.Value(), commit);
  }

  method PrepareRecords(records: OutboxRecords, endpoint: string, tip: u64, verify: bool, now: Date)
    modifies records
    ensures records.Value() == Prepare(old(records.Value()), endpoint, tip, verify, now)
  {
    records.ExpireItems(tip, endpoint, now);
    records.MarkDueItemsNeedingResign(tip, endpoint, now);
    if !verify {
      records.MarkProofReadyIfNeeded(tip, endpoint, now);
    }
  }

  /** Marks, selects, tests and begins in one update; a throw leaves the store alone. */
  method SelectUpdate(store: OutboxStore, endpoint: string, tip: u64, verify: bool, attemptId: string, now: Date, commit: Commit)
    returns (selection: Option<Selection>, thrown: bool)
    modifies store
    ensures match SelectStep(old(store.persisted), endpoint, tip, verify, attemptId, now)
            case Err(_) => thrown && store.persisted == old(store.persisted)
            case Ok(c) => !thrown && selection == c.selection
                          && store.persisted == Persist(old(store.persisted), c.snapshot, commit)
  {
    var records := new OutboxRecords(store.persisted);
    PrepareRecords(records, endpoint, tip, verify, now);
    selection := records.SelectDue(tip, Some(endpoint), now);
    if selection.Some? {
      var error := records.ValidateReschedulingAfterAcceptance(selection.value.item.itemId, tip);
      if error.Some? { return selection, true; }
      error := records.BeginSubmission(selection.value.item.itemId, attemptId, now);
      if error.Some? { return selection, true; }
    }
    var _ := store.Write(records.Value(), commit);
    return selection, false;
  }

  method CancelUpdate(store: OutboxStore, itemId: string, commit: Commit)
    modifies store
    ensures store.persisted ==
            Persist(old(store.persisted), OrSame(old(store.persisted), RecordCancelled(old(store.persisted), itemId, NO_SUBMISSION)), commit)
  {
    var records := new OutboxRecords(store.persisted);
    var error := records.RecordCancelledBeforeSubmission(itemId, NO_SUBMISSION);
    if error.None? {
      var _ := store.Write(records.Value(), commit);
    }
  }

  method RecordUpdate(h: Hasher, store: OutboxStore, sel: Selection, tip: u64, answer: Answer, now: Date, random: Random, commit: Commit)
    returns (ok: bool, thrown: bool)
    modifies store
    ensures var r := RecordStep(h, old(store.persisted), sel, tip, answer, now, random);
            && store.persisted == Persist(old(store.persisted), OrSame(old(store.persisted), r), commit)
            && (ok <==> r.Ok? && commit.Committed?) && (thrown <==> r.Err?)
  {
    var records := new OutboxRecords(store.persisted);
    var error;
    if answer.TransportFailed? {
      error := records.RecordUncertain(sel.item.itemId, answer.error, now);
    } else if answer.response.code == 0 || answer.known {
      error := records.RecordAccepted(h, sel.item.itemId, answer.response.code != 0, tip, answer.response, now, random);
      if error.None? {
        records.MarkBroadcastCompleteIfNeeded(sel.batchId, now);
      }
    } else {
      error := records.RecordRejected(sel.item.itemId, tip, answer.response, now);
    }
    if error.Some? { return false, true; }
    ok := store.Write(records.Value(), commit);
    thrown := false;
  }

  // ---------- the run ----------

  ghost predicate Reflects(sys: System, gate: ExecutionGate, store: OutboxStore, transport: Transport)
    reads gate, store, transport
  {
    && sys.running == gate.running && sys.leases == gate.mutationLeases && sys.store == store.persisted
    && sys.sends == transport.sends && (sys.runner.Idle? <==> !sys.running)
  }

  /** A pass over the real fields takes exactly the state machine's steps. */
  method RunOnce(h: Hasher, gate: ExecutionGate, store: OutboxStore, transport: Transport, input: RunInput, ghost sys: System)
    returns (outcome: TransportOutcome)
    requires Reflects(sys, gate, store, transport)
    modifies gate`running, store, transport
    ensures Reflects(RunOnceSpec(h, sys, input), gate, store, transport)
    ensures outcome == if old(gate.running) || old(gate.mutationLeases) != {} then TemporarilyUnavailable
                       else RunOutcome(h, old(store.persisted), input)
  {
    hide Inspect, Query, Choose, Submit, RunOutcome;
    var admitted := gate.TryBeginRun();
    if !admitted {
      return TemporarilyUnavailable;
    }
    outcome := AdmittedRun(h, store, transport, input, RunnerStep(h, sys, TryBegin));
    gate.FinishRun();
  }

  /** The body of an admitted run; the gate is released by the caller, however it ends. */
  method AdmittedRun(h: Hasher, store: OutboxStore, transport: Transport, input: RunInput, ghost sys: System)
    returns (outcome: TransportOutcome)
    requires sys.runner.Admitted? && sys.store == store.persisted && sys.sends == transport.sends
    modifies store, transport
    ensures var s1 := if input.cancelledAtStart then RunnerStep(h, sys, ObserveCancellation) else sys;
            var t := Submit(h, Choose(h, Query(h, Inspect(h, s1, input), input), input), input);
            t.store == store.persisted && t.sends == transport.sends && t.runner.Finishing? && t.leases == sys.leases
    ensures outcome == RunOutcome(h, old(store.persisted), input)
  {
    hide ChooseOutcome;
    if input.cancelledAtStart {
      EndedStaysEnded(h, RunnerStep(h, sys, ObserveCancellation), input);
      return WasCancelled;
    }
    var endpoint, ok := RecoverUpdate(store, input.now, input.recoverCommit);
    ghost var s2 := Inspect(h, sys, input);
    if !ok || endpoint.None? {
      EndedStaysEnded(h, s2, input);
      return if ok then NoWork else FailureOutcome(input.failure);
    }
    ghost var s3 := Query(h, s2, input);
    if !input.height.Height? || input.cancelledAfterTip {
      EndedStaysEnded(h, s3, input);
      return if input.height.HeightFailed? then TemporarilyUnavailable else WasCancelled;
    }
    outcome := SelectAndSend(h, store, transport, input, endpoint.value, input.height.tip, s3);
  }

  method SelectAndSend(h: Hasher, store: OutboxStore, transport: Transport, input: RunInput, endpoint: string, tip: u64, ghost sys: System)
    returns (outcome: TransportOutcome)
    requires sys.runner == AtTip(endpoint, tip) && sys.store == store.persisted && sys.sends == transport.sends
    modifies store, transport
    ensures var t := Submit(h, Choose(h, sys, input), input);
            t.store == store.persisted && t.sends == transport.sends && t.runner.Finishing? && t.leases == sys.leases
    ensures outcome == ChooseOutcome(h, old(store.persisted), endpoint, tip, input)
  {
    hide SelectStep, RecordStep, RecordCancelled, NextActionHeight;
    var selection, thrown := SelectUpdate(store, endpoint, tip, input.verify, input.attemptId, input.now, input.selectCommit);
    ghost var s4 := Choose(h, sys, input);
    if StoreFails(input.selectCommit, input.failure, thrown) {
      EndedStaysEnded(h, s4, input);
      return FailureOutcome(input.failure);
    }
    if thrown {
      EndedStaysEnded(h, s4, input);
      return NeedsUserAction;
    }
    if selection.None? {
      EndedStaysEnded(h, s4, input);
      return IdleOutcome(store.persisted, endpoint, tip);
    }
    if input.cancelledBeforeSend {
      CancelUpdate(store, selection.value.item.itemId, input.recordCommit);
      return WasCancelled;
    }
    transport.SendTransaction(sys.run, selection.value, tip);
    var ok, failed := RecordUpdate(h, store, selection.value, tip, input.answer, input.now, input.random, input.recordCommit);
    if input.answer.TransportFailed? {
      return if input.answer.cancelled then WasCancelled else TemporarilyUnavailable;
    }
    if StoreFails(input.recordCommit, input.failure, failed) { return FailureOutcome(input.failure); }
    if failed { return NeedsUserAction; }
    return if IsAccepted(input.answer) then AcceptedSend else NeedsUserAction;
  }
}
