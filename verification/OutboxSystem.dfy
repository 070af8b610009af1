/** The outbox in operation: one runner in durable steps around two network calls, the
    execution gate, foreground edits at any moment, and crashes anywhere.

    Each `store.update` is one atomic step. It may fail before the file is replaced, and,
    because the file's attributes are set after the replacement, also after. */
module OutboxSystem {
  import opened Common
  import opened Heights
  import opened OutboxModel
  import opened OutboxInvariants
  import opened OutboxEdits

  // ---------- state ----------

  datatype Commit = Committed | FailedBeforeWrite | FailedAfterWrite

  /** The transport's answer; `known` is whether the message means "already known". */
  datatype Answer = TransportFailed(error: string, cancelled: bool) | Replied(response: Response, known: bool)

  datatype Runner =
    | Idle
    | Admitted
    | Inspecting(endpoint: string)
    | AtTip(endpoint: string, tip: u64)
    | Holding(selection: Selection, tip: u64)
    | Answered(selection: Selection, tip: u64, answer: Answer)
    | Finishing

  datatype Send = Send(run: nat, selection: Selection, tip: u64)

  /** `sends` logs every hand-over to the transport, `sent` the ids among them whose record
      has been stored from its selection until now, `kept` whether that holds of the record
      now selected, and `disturbed` whether the window between a selection and the record of
      its outcome was last broken into. */
  datatype System = System(
    store: Snapshot, runner: Runner, running: bool, leases: set<string>, drained: set<string>,
    run: nat, sends: seq<Send>, sent: set<string>, kept: bool, disturbed: bool)

  const INITIAL: System := System(EMPTY, Idle, false, {}, {}, 0, [], {}, false, false)

  ghost function StoredIds(s: Snapshot): set<string> {
    set b, i | b in s.batches && i in b.items :: i.itemId
  }

  // ---------- actions ----------

  datatype RunnerAction =
    | TryBegin
    | ObserveCancellation
    | Recover(now: Date, commit: Commit)
    | LearnTip(tip: Option<u64>)
    | Select(verify: bool, attemptId: string, now: Date, commit: Commit)
    | CancelBeforeSend(commit: Commit)
    | HandOver(answer: Answer)
    | RecordOutcome(now: Date, random: Random, commit: Commit)
    | FinishRun

  datatype Edit =
    | StageBatch(batch: Batch)
    | Arm(batchId: string, digests: map<string, string>, now: Date)
    | RecoverStored(batchId: string, network: string, accountUuid: string, runId: string,
                    expectedTxids: set<string>, url: string, now: Date)
    | Discard(batchId: string)
    | VerifiedProof(network: string, accountUuid: string, runId: string, now: Date)
    | ConfirmProof(batchId: string, now: Date)
    | OweHeightNotice(batchId: string, now: Date)
    | ConfirmHeightNotice(batchId: string, now: Date)
    | ConfirmComplete(batchId: string, now: Date)
    | Acknowledge(receiptIds: set<string>)
    | RevokeAccount(lease: string, network: string, accountUuid: string)
    | RemoveAll(lease: string)

  datatype GateAction =
    | Pause(lease: string)
    | DrainReturns(lease: string)
    | Resume(lease: string)
    | DiscardStopLeases(prefix: string)

  datatype Action = Run(step: RunnerAction) | Change(edit: Edit) | Gate(gate: GateAction) | Crash

  // ---------- the runner's durable steps ----------

  function Persist(old': Snapshot, new': Snapshot, commit: Commit): Snapshot {
    if commit.FailedBeforeWrite? then old' else new'
  }

  const NO_SUBMISSION: string := "Background execution expired before submission."

  function RecoverStep(s: Snapshot, now: Date): Inspection {
    NextEndpoint(RecoverInterrupted(s, now))
  }

  /** The part of the selection step before an item is chosen. */
  function Prepare(s: Snapshot, endpoint: string, tip: u64, verify: bool, now: Date): Snapshot {
    var s2 := MarkDueNeedingResign(ExpireItems(s, tip, endpoint, now), tip, endpoint, now);
    if verify then s2 else MarkProofReady(s2, tip, endpoint, now)
  }

  function SelectStep(s: Snapshot, endpoint: string, tip: u64, verify: bool, attemptId: string, now: Date)
    : Result<Choice, OutboxError>
  {
    var c := SelectDue(Prepare(s, endpoint, tip, verify, now), tip, Some(endpoint), now);
    if c.selection.None? then Ok(c)
    else
      var id := c.selection.value.item.itemId;
      match ValidateRescheduling(c.snapshot, id, tip)
      case Err(e) => Err(e)
      case Ok(_) =>
        match BeginSubmission(c.snapshot, id, attemptId, now)
        case Err(e) => Err(e)
        case Ok(begun) => Ok(Choice(c.selection, begun))
  }

  predicate IsAccepted(answer: Answer) {
    answer.Replied? && (answer.response.code == 0 || answer.known)
  }

  function RecordStep(h: Hasher, s: Snapshot, sel: Selection, tip: u64, answer: Answer, now: Date, random: Random)
    : Result<Snapshot, OutboxError>
  {
    var id := sel.item.itemId;
    if answer.TransportFailed? then RecordUncertain(s, id, answer.error, now)
    else if IsAccepted(answer) then
      match RecordAccepted(h, s, id, answer.response.code != 0, tip, answer.response, now, random)
      case Err(e) => Err(e)
      case Ok(t) => Ok(MarkBroadcastComplete(t, sel.batchId, now))
    else RecordRejected(s, id, tip, answer.response, now)
  }

  function OrSame(s: Snapshot, r: Result<Snapshot, OutboxError>): Snapshot {
    match r
    case Ok(t) => t
    case Err(_) => s
  }

  function RunnerStep(h: Hasher, sys: System, a: RunnerAction): System {
    match a
    case TryBegin =>
      if sys.running || sys.leases != {} then sys
      else sys.(runner := Admitted, running := true, run := sys.run + 1)
    case ObserveCancellation =>
      if sys.runner.Admitted? || sys.runner.AtTip? then sys.(runner := Finishing) else sys
    case Recover(now, commit) =>
      if !sys.runner.Admitted? then sys
      else
        var r := RecoverStep(sys.store, now);
        sys.(store := Persist(sys.store, r.snapshot, commit),
             runner := if commit.Committed? && r.endpoint.Some? then Inspecting(r.endpoint.value) else Finishing,
             disturbed := if commit.FailedBeforeWrite? then sys.disturbed else false)
    case LearnTip(tip) =>
      if !sys.runner.Inspecting? then sys
      else sys.(runner := if tip.Some? then AtTip(sys.runner.endpoint, tip.value) else Finishing)
    case Select(verify, attemptId, now, commit) =>
      if !sys.runner.AtTip? then sys
      else
        (match SelectStep(sys.store, sys.runner.endpoint, sys.runner.tip, verify, attemptId, now)
        case Err(_) => sys.(runner := Finishing)
        case Ok(c) =>
          if c.selection.None? then sys.(store := Persist(sys.store, c.snapshot, commit), runner := Finishing)
          else
            sys.(store := Persist(sys.store, c.snapshot, commit),
                 runner := if commit.Committed? then Holding(c.selection.value, sys.runner.tip) else Finishing,
                 kept := true,
                 disturbed := sys.disturbed || commit.FailedAfterWrite? || CanonicalExpiry(sys.runner.tip).None?))
    case CancelBeforeSend(commit) =>
      if !sys.runner.Holding? then sys
      else
        sys.(store := Persist(sys.store, OrSame(sys.store, RecordCancelled(sys.store, sys.runner.selection.item.itemId, NO_SUBMISSION)), commit),
             runner := Finishing,
             disturbed := sys.disturbed || commit.FailedBeforeWrite?)
    case HandOver(answer) =>
      if !sys.runner.Holding? then sys
      else
        sys.(runner := Answered(sys.runner.selection, sys.runner.tip, answer),
             sends := sys.sends + [Send(sys.run, sys.runner.selection, sys.runner.tip)],
             sent := if sys.kept then sys.sent + {sys.runner.selection.item.itemId} else sys.sent)
    case RecordOutcome(now, random, commit) =>
      if !sys.runner.Answered? then sys
      else
        var r := RecordStep(h, sys.store, sys.runner.selection, sys.runner.tip, sys.runner.answer, now, random);
        sys.(store := Persist(sys.store, OrSame(sys.store, r), commit), runner := Finishing,
             disturbed := sys.disturbed || commit.FailedBeforeWrite?)
    case FinishRun =>
      if !sys.runner.Finishing? then sys else sys.(runner := Idle, running := false)
  }

  // ---------- foreground edits, gate, crash ----------

  /** Stage carries the callers' contract on ids; revocation and removal wait for their
      drained lease. Everything else may come at any time. */
  ghost predicate EditEnabled(h: Hasher, sys: System, e: Edit) {
    match e
    case StageBatch(b) => Built(h, b) && FreshIds(sys.store, b)
    case RevokeAccount(lease, _, _) => lease in sys.drained
    case RemoveAll(lease) => lease in sys.drained
    case _ => true
  }

  function OrSameRecovery(s: Snapshot, r: Result<Recovery, OutboxError>): Snapshot {
    match r
    case Ok(t) => t.snapshot
    case Err(_) => s
  }

  function EditStore(h: Hasher, s: Snapshot, e: Edit): Snapshot {
    match e
    case StageBatch(b) => OrSame(s, Stage(h, s, b))
    case Arm(id, digests, now) => OrSame(s, ArmBatch(s, id, digests, now))
    case RecoverStored(id, n, a, r, txids, url, now) => OrSameRecovery(s, RecoverBatch(s, id, n, a, r, txids, url, now))
    case Discard(id) => OrSameRecovery(s, DiscardBatch(s, id))
    case VerifiedProof(n, a, r, now) => RecordVerifiedProof(s, n, a, r, now)
    case ConfirmProof(id, now) => OrSame(s, AcknowledgeProof(s, id, now))
    case OweHeightNotice(id, now) => MarkHeightNotice(s, id, now)
    case ConfirmHeightNotice(id, now) => OrSame(s, AcknowledgeHeightNotice(s, id, now))
    case ConfirmComplete(id, now) => OrSame(s, AcknowledgeBroadcastComplete(s, id, now))
    case Acknowledge(ids) => AcknowledgeReceipts(s, ids)
    case RevokeAccount(_, n, a) => Revoke(s, n, a)
    case RemoveAll(_) => EMPTY
  }

  predicate InWindow(r: Runner) {
    r.Holding? || r.Answered?
  }

  /** The item stands where it stood, among the same items of its batch. */
  predicate SelectedBatchKept(s: Snapshot, t: Snapshot, itemId: string) {
    var p, q := Locate(s.batches, itemId), Locate(t.batches, itemId);
    && p.Some? && q.Some? && q.value.item == p.value.item
    && t.batches[q.value.batch].items == s.batches[p.value.batch].items
  }

  /** An edit breaks into the window only when it changes the items of the batch that is being
      sent from. */
  ghost function EditStep(h: Hasher, sys: System, e: Edit): System {
    if !EditEnabled(h, sys, e) then sys
    else
      var t := EditStore(h, sys.store, e);
      sys.(store := t, sent := sys.sent * StoredIds(t),
           kept := sys.kept && (InWindow(sys.runner) ==> sys.runner.selection.item.itemId in StoredIds(t)),
           disturbed := sys.disturbed
             || (InWindow(sys.runner) && !SelectedBatchKept(sys.store, t, sys.runner.selection.item.itemId)))
  }

  function Unprefixed(leases: set<string>, prefix: string): set<string> {
    set l | l in leases && !(prefix <= l)
  }

  function GateStep(sys: System, g: GateAction): System {
    match g
    case Pause(lease) => sys.(leases := sys.leases + {lease})
    case DrainReturns(lease) =>
      if lease in sys.leases && !sys.running then sys.(drained := sys.drained + {lease}) else sys
    case Resume(lease) => sys.(leases := sys.leases - {lease}, drained := sys.drained - {lease})
    case DiscardStopLeases(prefix) =>
      sys.(leases := Unprefixed(sys.leases, "stop:" + prefix), drained := Unprefixed(sys.drained, "stop:" + prefix))
  }

  /** The process dies: everything in memory is gone, the file stays. */
  function CrashStep(sys: System): System {
    sys.(runner := Idle, running := false, leases := {}, drained := {},
         disturbed := sys.disturbed || InWindow(sys.runner))
  }

  ghost function Next(h: Hasher, sys: System, a: Action): System {
    match a
    case Run(step) => RunnerStep(h, sys, step)
    case Change(e) => EditStep(h, sys, e)
    case Gate(g) => GateStep(sys, g)
    case Crash => CrashStep(sys)
  }

  /** Any run of the system: the state after these actions. */
  ghost function After(h: Hasher, sys: System, actions: seq<Action>): System {
    if actions == [] then sys else Next(h, After(h, sys, actions[..|actions| - 1]), actions[|actions| - 1])
  }
}
