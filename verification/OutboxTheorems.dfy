/** The main results about every run of the outbox. */
module OutboxTheorems {
  import opened Common
  import opened Heights
  import opened OutboxModel
  import opened OutboxInvariants
  import opened OutboxKeeps
  import opened OutboxEdits
  import opened OutboxAnnouncements
  import opened OutboxRotation
  import opened OutboxSystem
  import opened OutboxSafety
  import opened OutboxReachable
  import opened OutboxWindow

  // ---------- read-side views ----------

  function FlatItems(bs: seq<Batch>): (r: seq<Item>)
    ensures forall i :: i in r <==> exists b :: b in bs && i in b.items
  {
    if bs == [] then [] else bs[0].items + FlatItems(bs[1..])
  }

  function Txids(items: seq<Item>): (r: seq<string>)
    ensures forall t :: t in r <==> exists i :: i in items && i.txidHex == t
  {
    if items == [] then [] else [items[0].txidHex] + Txids(items[1..])
  }

  predicate OfRun(b: Batch, network: string, accountUuid: string, runId: string) {
    b.network == network && b.accountUuid == accountUuid && b.runId == runId
  }

  /** What the stop inspection is told: the transactions that may have been delivered. */
  function ListAttemptedTxids(s: Snapshot, network: string, accountUuid: string, runId: string): seq<string> {
    Txids(Filter(FlatItems(Filter(s.batches, (b: Batch) => OfRun(b, network, accountUuid, runId))), Attempted))
  }

  /** The raw transaction shown with a receipt: first batch, then first item, with its ids. */
  function RawTransactionFor(s: Snapshot, r: Receipt): Option<seq<byte>> {
    var k := FindBatch(s.batches, r.batchId);
    if k == |s.batches| then None
    else
      var m := FindItem(s.batches[k].items, r.itemId);
      if m == |s.batches[k].items| then None else Some(s.batches[k].items[m].rawTransaction)
  }

  /** Another stored record of the run counts as attempted under this txid. */
  ghost predicate AttemptedByAnother(s: Snapshot, b: Batch, i: Item) {
    exists c, j :: Stored(s, c, j) && OfRun(c, b.network, b.accountUuid, b.runId) && Attempted(j)
      && j.txidHex == i.txidHex && j.itemId != i.itemId
  }

  /** A txid is listed exactly when some stored record of the run is attempted under it. */
  lemma ListedExactly(s: Snapshot, network: string, accountUuid: string, runId: string, txid: string)
    ensures txid in ListAttemptedTxids(s, network, accountUuid, runId) <==>
      exists c, j :: Stored(s, c, j) && OfRun(c, network, accountUuid, runId) && Attempted(j) && j.txidHex == txid
  {
    var ofRun := Filter(s.batches, (c: Batch) => OfRun(c, network, accountUuid, runId));
    var attempted := Filter(FlatItems(ofRun), Attempted);
    if txid in ListAttemptedTxids(s, network, accountUuid, runId) {
      var j :| j in attempted && j.txidHex == txid;
      var c :| c in ofRun && j in c.items;
      assert Stored(s, c, j);
    }
    if c, j :| Stored(s, c, j) && OfRun(c, network, accountUuid, runId) && Attempted(j) && j.txidHex == txid {
      assert c in ofRun && j in attempted;
    }
  }

  lemma AttemptedIsListed(s: Snapshot, b: Batch, i: Item)
    requires Stored(s, b, i) && Attempted(i)
    ensures i.txidHex in ListAttemptedTxids(s, b.network, b.accountUuid, b.runId)
  {
    var ofRun := Filter(s.batches, (c: Batch) => OfRun(c, b.network, b.accountUuid, b.runId));
    assert b in ofRun;
    assert i in FlatItems(ofRun);
    assert i in Filter(FlatItems(ofRun), Attempted);
  }

  /** In every reachable state each receipt finds the stored bytes it is about, whose digest
      is the stored digest and whose status is the receipt's outcome. */
  lemma ReceiptsFindTheirTransaction(h: Hasher, actions: seq<Action>, r: Receipt)
    requires r in After(h, INITIAL, actions).store.receipts
    ensures var s := After(h, INITIAL, actions).store;
            && RawTransactionFor(s, r).Some?
            && exists b, i :: Stored(s, b, i) && Matches(r, b, i)
                 && RawTransactionFor(s, r) == Some(i.rawTransaction) && i.payloadDigest == h(i.rawTransaction)
  {
    ReachableIsOk(h, actions);
    var s := After(h, INITIAL, actions).store;
    assert HasMatch(s, r);
    var b, i :| Stored(s, b, i) && Matches(r, b, i);
    FoundById(s, b, i);
    assert ItemOk(h, i);
  }

  lemma FoundById(s: Snapshot, b: Batch, i: Item)
    requires Unique(s.batches) && Stored(s, b, i)
    ensures var k := FindBatch(s.batches, b.batchId);
            && k < |s.batches| && s.batches[k] == b
            && FindItem(b.items, i.itemId) < |b.items| && b.items[FindItem(b.items, i.itemId)] == i
  {
    var k := FindBatch(s.batches, b.batchId);
    DistinctByIdentifies(s.batches, BatchKey, s.batches[k], b);
    var x :| 0 <= x < |s.batches| && s.batches[x] == b;
    assert DistinctBy(s.batches[x].items, ItemKey);
    DistinctByIdentifies(b.items, ItemKey, b.items[FindItem(b.items, i.itemId)], i);
  }

  /** Conservation over every run: receipts and terminal records, one to one. */
  lemma ConservationOverRuns(h: Hasher, actions: seq<Action>)
    ensures var s := After(h, INITIAL, actions).store;
            && (forall b, i :: Stored(s, b, i) ==> (Terminal(i) <==> HasReceipt(s.receipts, b, i)))
            && (forall r :: r in s.receipts ==> HasMatch(s, r))
            && (forall x, y :: 0 <= x < y < |s.receipts| ==> s.receipts[x].itemId != s.receipts[y].itemId)
  {
    ReachableIsOk(h, actions);
    var s := After(h, INITIAL, actions).store;
    forall x, y | 0 <= x < y < |s.receipts| ensures s.receipts[x].itemId != s.receipts[y].itemId {
      assert ReceiptKey(s.receipts[x]) != ReceiptKey(s.receipts[y]);
    }
  }

  // ---------- the attempt log ----------

  /** Whatever was handed to the transport and has stayed stored is reported as attempted. */
  lemma SentIsReported(h: Hasher, actions: seq<Action>, b: Batch, i: Item)
    requires var sys := After(h, INITIAL, actions); Stored(sys.store, b, i) && i.itemId in sys.sent
    ensures i.txidHex in ListAttemptedTxids(After(h, INITIAL, actions).store, b.network, b.accountUuid, b.runId)
  {
    ReachableIsOk(h, actions);
    AttemptedIsListed(After(h, INITIAL, actions).store, b, i);
  }

  /** The log of sends and the set used above agree: every logged send whose record was
      never removed since is in `sent`. */
  lemma {:induction false} SentWhileStored(h: Hasher, sys: System, actions: seq<Action>, id: string)
    requires id in sys.sent && StaysStored(h, sys, actions, id)
    ensures id in After(h, sys, actions).sent
  {
    if actions != [] {
      SentWhileStored(h, sys, actions[..|actions| - 1], id);
      SentStays(h, After(h, sys, actions[..|actions| - 1]), actions[|actions| - 1], id);
      hide Next, StoredIds;
    }
  }

  lemma SentStays(h: Hasher, sys: System, a: Action, id: string)
    requires id in sys.sent && id in StoredIds(Next(h, sys, a).store)
    ensures id in Next(h, sys, a).sent
  {
    hide SelectStep, RecordStep, RecoverStep, RecordCancelled, EditStore, StoredIds, SelectedBatchKept, Persist;
  }

  /** The id is stored after every prefix of the actions. */
  ghost predicate StaysStored(h: Hasher, sys: System, actions: seq<Action>, id: string) {
    && id in StoredIds(After(h, sys, actions).store)
    && (actions == [] || StaysStored(h, sys, actions[..|actions| - 1], id))
  }

  /** From the hand-over of a record that is still stored on, whatever happens next (crashes,
      edits, failed writes, further runs), while the record stays stored it is the record whose bytes were sent, and the
      stop inspection reports its transaction. */
  lemma HandedOverBytesAreReported(h: Hasher, sys: System, answer: Answer, rest: seq<Action>, b: Batch, i: Item)
    requires SystemOk(h, sys) && sys.runner.Holding? && sys.kept
    requires var sent := Next(h, sys, Run(HandOver(answer)));
             && i.itemId == sys.runner.selection.item.itemId
             && StaysStored(h, sent, rest, i.itemId) && Stored(After(h, sent, rest).store, b, i)
    ensures var s := After(h, Next(h, sys, Run(HandOver(answer))), rest).store;
            && i.rawTransaction == sys.runner.selection.item.rawTransaction
            && i.txidHex in ListAttemptedTxids(s, b.network, b.accountUuid, b.runId)
  {
    var sel := sys.runner.selection;
    var sent := Next(h, sys, Run(HandOver(answer)));
    NextKeeps(h, sys, Run(HandOver(answer)));
    OkAfter(h, sent, rest);
    SentWhileStored(h, sent, rest, i.itemId);
    var s := After(h, sent, rest).store;
    AttemptedIsListed(s, b, i);
    var c, j :| HeldAt(sys.store, sel, c, j);
    RecordIdentityOverRuns(h, sent, rest, c, j);
    var d, k :| Stored(s, d, k) && d.batchId == c.batchId && ItemEvolves(j, k);
    SameIdSameItem(s, d, k, b, i);
  }

  lemma CancelledIsNotAttempted(h: Hasher, s: Snapshot, b: Batch, i: Item, c: Batch, j: Item)
    requires Valid(h, s) && OnlySubmitting(s, i.itemId) && Stored(s, b, i) && i.status.Submitting? && i.attemptCount == 0
    requires var r := RecordCancelled(s, i.itemId, NO_SUBMISSION); r.Ok? && Stored(r.value, c, j) && j.itemId == i.itemId
    ensures j.status.Armed? && !Attempted(j)
  {
    var p := LocateFinds(s, b, i);
    CancelStepKeeps(h, s, i.itemId, NO_SUBMISSION);
    var t := RecordCancelled(s, i.itemId, NO_SUBMISSION).value;
    var k, m := Origin(s, t, c, j);
    SameIdSameItem(s, b, i, s.batches[k], s.batches[k].items[m]);
    SamePlace(s, k, m, p.batch, p.item);
  }

  /** A selected record, cancelled before the transport and never counted before, is armed
      again and not attempted: its txid is reported exactly when another record of the run is
      attempted under the same txid. */
  lemma CancelledIsNotReported(h: Hasher, actions: seq<Action>, b: Batch, i: Item)
    requires var sys := After(h, INITIAL, actions);
             && sys.runner.Holding? && Stored(sys.store, b, i) && i.itemId == sys.runner.selection.item.itemId
             && i.status.Submitting? && i.attemptCount == 0
    ensures var sys := Next(h, After(h, INITIAL, actions), Run(CancelBeforeSend(Committed)));
            && i.itemId !in sys.sent
            && (forall c, j :: Stored(sys.store, c, j) && j.itemId == i.itemId ==> j.status.Armed? && !Attempted(j))
            && (i.txidHex in ListAttemptedTxids(sys.store, b.network, b.accountUuid, b.runId)
                <==> AttemptedByAnother(sys.store, b, i))
  {
    ReachableIsOk(h, actions);
    var sys := After(h, INITIAL, actions);
    CancelledStore(h, sys.store, b, i);
    hide After, ListAttemptedTxids, Valid, RecordCancelled, AttemptedByAnother;
  }

  lemma CancelledStore(h: Hasher, s: Snapshot, b: Batch, i: Item)
    requires Valid(h, s) && OnlySubmitting(s, i.itemId) && Stored(s, b, i) && i.status.Submitting? && i.attemptCount == 0
    ensures RecordCancelled(s, i.itemId, NO_SUBMISSION).Ok?
    ensures var t := RecordCancelled(s, i.itemId, NO_SUBMISSION).value;
            && (forall c, j :: Stored(t, c, j) && j.itemId == i.itemId ==> j.status.Armed? && !Attempted(j))
            && (i.txidHex in ListAttemptedTxids(t, b.network, b.accountUuid, b.runId) <==> AttemptedByAnother(t, b, i))
  {
    var p := LocateFinds(s, b, i);
    var t := RecordCancelled(s, i.itemId, NO_SUBMISSION).value;
    forall c, j | Stored(t, c, j) && j.itemId == i.itemId ensures j.status.Armed? && !Attempted(j) {
      CancelledIsNotAttempted(h, s, b, i, c, j);
    }
    ListedExactly(t, b.network, b.accountUuid, b.runId, i.txidHex);
  }

  // ---------- sends ----------

  /** Each run sends at most once; every send was of a due, unexpired record whose expiry is
      the canonical one of the observed tip. */
  lemma EverySendIsSafe(h: Hasher, actions: seq<Action>, k: nat)
    requires k < |After(h, INITIAL, actions).sends|
    ensures var sends := After(h, INITIAL, actions).sends;
            && SafeSelection(sends[k].selection, sends[k].tip)
            && forall j :: 0 <= j < |sends| && j != k ==> sends[j].run != sends[k].run
  {
    ReachableIsOk(h, actions);
    var sends := After(h, INITIAL, actions).sends;
    forall j | 0 <= j < |sends| && j != k ensures sends[j].run != sends[k].run {
      assert j < k ==> sends[j].run < sends[k].run;
    }
  }

  /** At most one record is ever being submitted. */
  lemma OneSubmissionAtATime(h: Hasher, actions: seq<Action>, b: Batch, i: Item, c: Batch, j: Item)
    requires var s := After(h, INITIAL, actions).store;
             Stored(s, b, i) && Stored(s, c, j) && i.status.Submitting? && j.status.Submitting?
    ensures b == c && i == j
  {
    ReachableIsOk(h, actions);
    var s := After(h, INITIAL, actions).store;
    var id :| OnlySubmitting(s, id);
    SameIdSameItem(s, b, i, c, j);
  }

  /** Whatever happens in a step, stored records only evolve. */
  lemma NextEvolves(h: Hasher, sys: System, a: Action)
    requires SystemOk(h, sys)
    ensures Evolves(sys.store, Next(h, sys, a).store)
  {
    var s := sys.store;
    UnchangedSteps(s);
    match a {
      case Run(step) => RunnerEvolves(h, sys, step);
      case Change(e) => if EditEnabled(h, sys, e) { EditStoreKeeps(h, sys, e); }
      case Gate(_) =>
      case Crash =>
    }
  }

  lemma SelectEvolves(h: Hasher, s: Snapshot, endpoint: string, tip: u64, verify: bool, attemptId: string, now: Date)
    requires Valid(h, s) && NoSubmitting(s)
    requires SelectStep(s, endpoint, tip, verify, attemptId, now).Ok?
    ensures var t := SelectStep(s, endpoint, tip, verify, attemptId, now).value.snapshot; Evolves(s, t) && InPlace(s, t)
  {
    if SelectStep(s, endpoint, tip, verify, attemptId, now).value.selection.Some? {
      SelectStepChooses(h, s, endpoint, tip, verify, attemptId, now);
    } else {
      SelectStepIdle(h, s, endpoint, tip, verify, attemptId, now);
    }
  }

  lemma RunnerStores(h: Hasher, sys: System, a: RunnerAction) returns (t: Snapshot)
    requires SystemOk(h, sys)
    ensures Evolves(sys.store, t) && InPlace(sys.store, t)
    ensures RunnerStep(h, sys, a).store in {sys.store, t}
  {
    t := sys.store;
    UnchangedSteps(t);
    match a {
      case Recover(now, commit) =>
        RecoverStepKeeps(h, sys.store, now);
        t := RecoverStep(sys.store, now).snapshot;
      case Select(verify, attemptId, now, commit) =>
        if sys.runner.AtTip? {
          var r := SelectStep(sys.store, sys.runner.endpoint, sys.runner.tip, verify, attemptId, now);
          if r.Ok? {
            SelectEvolves(h, sys.store, sys.runner.endpoint, sys.runner.tip, verify, attemptId, now);
            t := r.value.snapshot;
          }
        }
      case CancelBeforeSend(commit) =>
        if sys.runner.Holding? && RecordCancelled(sys.store, sys.runner.selection.item.itemId, NO_SUBMISSION).Ok? {
          CancelStepKeeps(h, sys.store, sys.runner.selection.item.itemId, NO_SUBMISSION);
          t := RecordCancelled(sys.store, sys.runner.selection.item.itemId, NO_SUBMISSION).value;
        }
      case RecordOutcome(now, random, commit) =>
        if sys.runner.Answered? {
          var r := RecordStep(h, sys.store, sys.runner.selection, sys.runner.tip, sys.runner.answer, now, random);
          if r.Ok? {
            RecordStepKeeps(h, sys.store, sys.runner.selection, sys.runner.tip, sys.runner.answer, now, random);
            t := r.value;
          }
        }
      case _ =>
    }
  }

  lemma RunnerEvolves(h: Hasher, sys: System, a: RunnerAction)
    requires SystemOk(h, sys)
    ensures Evolves(sys.store, RunnerStep(h, sys, a).store)
    ensures InPlace(sys.store, RunnerStep(h, sys, a).store)
  {
    UnchangedSteps(sys.store);
    var t := RunnerStores(h, sys, a);
  }

  // ---------- identity and finality ----------

  /** The record under this id now, descended from `i`. */
  ghost predicate DescendantStored(s: Snapshot, batchId: string, i: Item) {
    exists c, j :: Stored(s, c, j) && c.batchId == batchId && ItemEvolves(i, j)
  }

  lemma DescendantStep(h: Hasher, sys: System, a: Action, batchId: string, i: Item)
    requires SystemOk(h, sys) && DescendantStored(sys.store, batchId, i)
    requires i.itemId in StoredIds(Next(h, sys, a).store)
    ensures DescendantStored(Next(h, sys, a).store, batchId, i)
  {
    NextEvolves(h, sys, a);
    DescendantKept(sys.store, Next(h, sys, a).store, batchId, i);
    hide Next;
  }

  lemma DescendantKept(s: Snapshot, t: Snapshot, batchId: string, i: Item)
    requires Unique(s.batches) && Evolves(s, t) && DescendantStored(s, batchId, i) && i.itemId in StoredIds(t)
    ensures DescendantStored(t, batchId, i)
  {
    var b, i1 :| Stored(s, b, i1) && b.batchId == batchId && ItemEvolves(i, i1);
    StoredIdsMembers(t, i.itemId);
    StoredHasItemId(s, b, i1);
    var c, j :| Stored(t, c, j) && j.itemId == i.itemId;
    assert Descends(s, c, j);
    var b2, i2 :| Stored(s, b2, i2) && b2.batchId == c.batchId && ItemEvolves(i2, j);
    SameIdSameItem(s, b, i1, b2, i2);
    EvolvedIsEvolved(i, i1, j);
  }

  lemma {:induction false} OkAfter(h: Hasher, sys: System, actions: seq<Action>)
    requires SystemOk(h, sys)
    ensures SystemOk(h, After(h, sys, actions))
  {
    if actions != [] {
      OkAfter(h, sys, actions[..|actions| - 1]);
      NextKeeps(h, After(h, sys, actions[..|actions| - 1]), actions[|actions| - 1]);
    }
  }

  /** From staging to removal a record keeps its bytes, digest, txid, part, anchor and expiry,
      under the same batch; and once terminal it never changes at all. */
  lemma {:induction false} RecordIdentityOverRuns(h: Hasher, sys: System, actions: seq<Action>, b: Batch, i: Item)
    requires SystemOk(h, sys) && Stored(sys.store, b, i) && StaysStored(h, sys, actions, i.itemId)
    ensures DescendantStored(After(h, sys, actions).store, b.batchId, i)
  {
    if actions == [] {
      assert ItemEvolves(i, i);
    } else {
      var before := actions[..|actions| - 1];
      RecordIdentityOverRuns(h, sys, before, b, i);
      OkAfter(h, sys, before);
      DescendantStep(h, After(h, sys, before), actions[|actions| - 1], b.batchId, i);
    }
  }

  lemma DescendantIsTerminal(s: Snapshot, batchId: string, i: Item)
    requires DescendantStored(s, batchId, i) && Terminal(i)
    ensures !NotTerminal(s, i.itemId)
  {
    var c, j :| Stored(s, c, j) && c.batchId == batchId && ItemEvolves(i, j);
  }

  lemma OnlyHandOverSends(h: Hasher, sys: System, a: Action)
    ensures var next := Next(h, sys, a);
            next.sends == sys.sends ||
              (InWindow(sys.runner) && next.sends == sys.sends + [Send(sys.run, sys.runner.selection, sys.runner.tip)])
  {
    hide SelectStep, RecordStep, RecoverStep, RecordCancelled, Persist;
  }

  lemma TerminalIsNotSent(h: Hasher, sys: System, a: Action, batchId: string, i: Item)
    requires SystemOk(h, sys) && DescendantStored(sys.store, batchId, i) && Terminal(i)
    ensures var next := Next(h, sys, a);
            && sys.sends <= next.sends
            && forall k :: |sys.sends| <= k < |next.sends| ==> next.sends[k].selection.item.itemId != i.itemId
  {
    OnlyHandOverSends(h, sys, a);
    DescendantIsTerminal(sys.store, batchId, i);
    hide Next, DescendantStored, NotTerminal;
  }

  /** A terminal record, in particular an accepted one, is never sent again while it stays. */
  lemma {:induction false} TerminalIsNeverResent(h: Hasher, sys: System, actions: seq<Action>, b: Batch, i: Item)
    requires SystemOk(h, sys) && Stored(sys.store, b, i) && Terminal(i) && StaysStored(h, sys, actions, i.itemId)
    ensures sys.sends <= After(h, sys, actions).sends
    ensures forall k :: |sys.sends| <= k < |After(h, sys, actions).sends| ==>
              After(h, sys, actions).sends[k].selection.item.itemId != i.itemId
  {
    if actions != [] {
      var before := actions[..|actions| - 1];
      TerminalIsNeverResent(h, sys, before, b, i);
      RecordIdentityOverRuns(h, sys, before, b, i);
      OkAfter(h, sys, before);
      TerminalIsNotSent(h, After(h, sys, before), actions[|actions| - 1], b.batchId, i);
    }
  }

  // ---------- drain ----------

  /** When the wait has returned to a lease holder and no action broke into a window since the
      last recovery, no run is in progress, nothing is being submitted, and every send ever made
      of a record stored since has a persisted outcome. */
  lemma DrainedIsSettled(h: Hasher, actions: seq<Action>)
    requires After(h, INITIAL, actions).drained != {} && !BrokenInto(h, actions)
    ensures var sys := After(h, INITIAL, actions);
            && sys.runner.Idle? && NoSubmitting(sys.store)
            && forall b, i :: Stored(sys.store, b, i) && i.itemId in sys.sent ==>
                 i.attemptCount > 0 || (i.status in {AcceptedAwaiting, RejectedAwaiting} && HasReceipt(sys.store.receipts, b, i))
  {
    ReachableIsOk(h, actions);
    DisturbedExactly(h, actions);
    var sys := After(h, INITIAL, actions);
    forall b, i | Stored(sys.store, b, i) && i.itemId in sys.sent
      ensures i.attemptCount > 0 || (i.status in {AcceptedAwaiting, RejectedAwaiting} && HasReceipt(sys.store.receipts, b, i))
    {
      assert Attempted(i) && !i.status.Submitting?;
    }
  }

  /** The lease keeps runs out: while it is drained and held, every action but its own release
      leaves the runner idle, and nothing is sent. */
  lemma LeaseExcludesRuns(h: Hasher, actions: seq<Action>, lease: string, a: Action)
    requires lease in After(h, INITIAL, actions).drained
    requires lease in Next(h, After(h, INITIAL, actions), a).leases
    ensures var sys := After(h, INITIAL, actions);
            Next(h, sys, a).runner.Idle? && lease in Next(h, sys, a).drained && Next(h, sys, a).sends == sys.sends
  {
    ReachableIsOk(h, actions);
  }

  /** Between windows nothing is being submitted, unless an action broke into one and no run
      has recovered since. */
  lemma UndisturbedRunSettles(h: Hasher, actions: seq<Action>)
    requires !InWindow(After(h, INITIAL, actions).runner) && !BrokenInto(h, actions)
    ensures NoSubmitting(After(h, INITIAL, actions).store)
  {
    ReachableIsOk(h, actions);
    DisturbedExactly(h, actions);
  }

  /** A batch can be discarded only while none of its records was ever handed over. */
  lemma DiscardedWasNeverSent(h: Hasher, actions: seq<Action>, batchId: string, b: Batch, i: Item)
    requires var sys := After(h, INITIAL, actions);
             && DiscardBatch(sys.store, batchId).Ok? && Stored(sys.store, b, i) && b.batchId == batchId
    ensures i.itemId !in After(h, INITIAL, actions).sent
  {
    ReachableIsOk(h, actions);
    var sys := After(h, INITIAL, actions);
    FoundById(sys.store, b, i);
    if i.itemId in sys.sent {
      assert Attempted(i) && Terminal(i);
      SettledBatchIsRefused(sys.store, b, i);
    }
  }

  lemma SettledBatchIsRefused(s: Snapshot, b: Batch, i: Item)
    requires TerminalsReceipted(s) && Stored(s, b, i) && Terminal(i)
    ensures DiscardBatch(s, b.batchId).Err?
  {
    var r :| r in s.receipts && Matches(r, b, i);
  }

  // ---------- work left ----------

  predicate Runnable(b: Batch) {
    || (b.armedAt.Some? && exists i :: i in b.items && (i.status.Armed? || i.status.Submitting?))
    || (b.nextProofHeight.Some? && b.AwaitsProofAnnouncement())
    || (b.completePendingAt.Some? && b.completeNotifiedAt.None?)
  }

  predicate HasRunnableWork(s: Snapshot) {
    exists b :: b in s.batches && Runnable(b)
  }

  /** When the manager sees no work, a run would find no endpoint to inspect. */
  lemma NoWorkMeansNoEndpoint(s: Snapshot, now: Date)
    requires !HasRunnableWork(s)
    ensures RecoverStep(s, now).endpoint.None?
  {
    var t := RecoverInterrupted(s, now);
    forall c | c in t.batches ensures !InRotation(c) {
      var k :| 0 <= k < |t.batches| && t.batches[k] == c;
      assert s.batches[k] in s.batches && !Runnable(s.batches[k]);
      forall j | j in c.items ensures s.batches[k].armedAt.Some? ==> !j.status.Armed? {
        var m :| 0 <= m < |c.items| && c.items[m] == j;
        assert s.batches[k].items[m] in s.batches[k].items;
      }
    }
    assert Filter(t.batches, InRotation) == [] by { FilterNone(t.batches, InRotation); }
  }
}
