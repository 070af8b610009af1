/** The migration outbox as a value: its records, and what each mutation does to them.

    A mutation that throws yields `Err`; the store then keeps the old snapshot. */
module OutboxModel {
  import opened Common
  import opened Text
  import opened Heights

  // ---------- records ----------

  datatype OutboxError =
    | InvalidBatch | ConflictingBatch | BatchNotFound | ItemNotFound
    | InvalidArmRequest | InvalidTransition | InvalidSchedule

  datatype Status =
    | Staged | Armed | Submitting
    | AcceptedAwaiting | RejectedAwaiting | ExpiredAwaiting | ResignAwaiting

  datatype Outcome = WasAccepted | WasAcceptedEquivalent | WasRejected | HasExpired | NeedsResign

  /** The payload digest (SHA-256, hex) stays a parameter: nothing depends on which it is. */
  type Hasher = seq<byte> -> string

  /** Source of the shuffle's swap distances and of the delay draws. */
  datatype Random = Random(swaps: nat -> nat, delays: nat -> nat)

  datatype Item = Item(
    itemId: string, partIndex: nat, txidHex: string, rawTransaction: seq<byte>, payloadDigest: string,
    anchorBoundaryHeight: u64, scheduledHeight: u64, scheduleStartHeight: u64, expiryHeight: u64,
    status: Status, attemptCount: nat, attemptId: Option<string>, attemptStartedAt: Option<Date>,
    nextAttemptAt: Option<Date>, lastError: Option<string>)

  datatype Batch = Batch(
    batchId: string, network: string, accountUuid: string, runId: string, lightwalletdUrl: string,
    timingMeanBlocks: u64, timingMaxBlocks: u64, armedAt: Option<Date>, nextProofHeight: Option<u64>,
    proofPendingAt: Option<Date>, proofNotifiedAt: Option<Date>,
    heightNoticePendingAt: Option<Date>, heightNoticedAt: Option<Date>,
    completePendingAt: Option<Date>, completeNotifiedAt: Option<Date>,
    items: seq<Item>)
  {
    function ScopeKey(): string { network + ":" + accountUuid }

    /** Whether the batch still owes the user a proof-ready announcement. */
    predicate AwaitsProofAnnouncement() {
      && proofNotifiedAt.None?
      && (proofPendingAt.Some? || heightNoticedAt.None? || heightNoticePendingAt.Some?)
    }
  }

  datatype ScheduleUpdate = ScheduleUpdate(itemId: string, scheduledHeight: u64, scheduleStartHeight: u64)

  datatype Receipt = Receipt(
    receiptId: string, batchId: string, itemId: string, network: string, accountUuid: string, runId: string,
    txidHex: string, outcome: Outcome, remoteHeight: u64, responseCode: Option<int>,
    responseMessage: Option<string>, recordedAt: Date, scheduleUpdates: seq<ScheduleUpdate>)

  datatype Selection = Selection(
    batchId: string, accountUuid: string, scopeKey: string, lightwalletdUrl: string, item: Item)

  datatype Snapshot = Snapshot(
    batches: seq<Batch>, receipts: seq<Receipt>,
    lastAttemptedScopeKey: Option<string>, lastInspectedEndpoint: Option<string>,
    announced: seq<string>)

  const EMPTY: Snapshot := Snapshot([], [], None, None, [])

  function BatchKey(b: Batch): string { b.batchId }

  function ItemKey(i: Item): string { i.itemId }

  function ReceiptKey(r: Receipt): string { r.itemId }

  predicate Terminal(i: Item) {
    i.status in {AcceptedAwaiting, RejectedAwaiting, ExpiredAwaiting, ResignAwaiting}
  }

  function StatusOf(outcome: Outcome): Status {
    match outcome
    case WasAccepted => AcceptedAwaiting
    case WasAcceptedEquivalent => AcceptedAwaiting
    case WasRejected => RejectedAwaiting
    case HasExpired => ExpiredAwaiting
    case NeedsResign => ResignAwaiting
  }

  function OutcomeText(outcome: Outcome): string {
    match outcome
    case WasAccepted => "accepted"
    case WasAcceptedEquivalent => "acceptedEquivalent"
    case WasRejected => "rejected"
    case HasExpired => "expired"
    case NeedsResign => "needsResign"
  }

  function MakeReceipt(b: Batch, i: Item, outcome: Outcome, tip: u64, code: Option<int>,
                       message: Option<string>, updates: seq<ScheduleUpdate>, now: Date): Receipt
  {
    Receipt(b.batchId + ":" + i.itemId + ":" + OutcomeText(outcome), b.batchId, i.itemId, b.network,
            b.accountUuid, b.runId, i.txidHex, outcome, tip, code, message, now, updates)
  }

  // ---------- lookup ----------

  /** First batch with this id (`firstIndex(where:)`), or the length. */
  function FindBatch(bs: seq<Batch>, batchId: string): (k: nat)
    ensures k <= |bs|
    ensures k < |bs| ==> bs[k].batchId == batchId
    ensures forall j :: 0 <= j < k ==> bs[j].batchId != batchId
  {
    if bs == [] then 0 else if bs[0].batchId == batchId then 0 else 1 + FindBatch(bs[1..], batchId)
  }

  /** First item with this id, or the length. */
  function FindItem(items: seq<Item>, itemId: string): (k: nat)
    ensures k <= |items|
    ensures k < |items| ==> items[k].itemId == itemId
    ensures forall j :: 0 <= j < k ==> items[j].itemId != itemId
  {
    if items == [] then 0 else if items[0].itemId == itemId then 0 else 1 + FindItem(items[1..], itemId)
  }

  datatype Place = Place(batch: nat, item: nat)

  /** First place, batch by batch, holding an item with this id (`itemLocation`). */
  function Locate(bs: seq<Batch>, itemId: string): (p: Option<Place>)
    ensures p.Some? ==> p.value.batch < |bs| && p.value.item < |bs[p.value.batch].items|
                        && bs[p.value.batch].items[p.value.item].itemId == itemId
    ensures p.None? ==> forall b, i :: b in bs && i in b.items ==> i.itemId != itemId
  {
    if bs == [] then None
    else
      var k := FindItem(bs[0].items, itemId);
      if k < |bs[0].items| then Some(Place(0, k))
      else
        var rest := Locate(bs[1..], itemId);
        if rest.None? then None else Some(Place(rest.value.batch + 1, rest.value.item))
  }

  function WithItem(bs: seq<Batch>, p: Place, i: Item): seq<Batch>
    requires p.batch < |bs| && p.item < |bs[p.batch].items|
  {
    bs[p.batch := bs[p.batch].(items := bs[p.batch].items[p.item := i])]
  }

  // ---------- staging ----------

  function LowerAscii(s: string): string {
    seq(|s|, i requires 0 <= i < |s| => if 'A' <= s[i] <= 'Z' then s[i] - 'A' + 'a' else s[i])
  }

  /** The initialiser of a transaction record. */
  function NewItem(h: Hasher, itemId: string, partIndex: nat, txidHex: string, raw: seq<byte>,
                   anchor: u64, scheduled: u64, start: u64, expiry: u64): Item
  {
    Item(itemId, partIndex, LowerAscii(txidHex), raw, h(raw), anchor, scheduled, start, expiry,
         Staged, 0, None, None, None, None)
  }

  predicate TimingValid(b: Batch) {
    0 < b.timingMeanBlocks <= b.timingMaxBlocks
  }

  predicate ItemStageable(h: Hasher, i: Item) {
    && i.itemId != "" && i.txidHex != "" && i.rawTransaction != []
    && i.payloadDigest == h(i.rawTransaction)
    && i.scheduledHeight < i.expiryHeight
    && i.status.Staged?
  }

  predicate NoFlags(b: Batch) {
    && b.proofPendingAt.None? && b.proofNotifiedAt.None?
    && b.heightNoticePendingAt.None? && b.heightNoticedAt.None?
    && b.completePendingAt.None? && b.completeNotifiedAt.None?
  }

  predicate Stageable(h: Hasher, b: Batch) {
    && b.batchId != "" && b.network != "" && b.accountUuid != "" && b.runId != "" && b.lightwalletdUrl != ""
    && TimingValid(b)
    && (b.items != [] || b.nextProofHeight.Some?)
    && NoFlags(b)
    && (forall i, j :: 0 <= i < j < |b.items| ==> b.items[i].itemId != b.items[j].itemId)
    && (forall i, j :: 0 <= i < j < |b.items| ==> b.items[i].txidHex != b.items[j].txidHex)
    && (forall i :: i in b.items ==> ItemStageable(h, i))
  }

  predicate HasSubmitting(items: seq<Item>) {
    exists i :: i in items && i.status.Submitting?
  }

  predicate HasId(items: seq<Item>, itemId: string) {
    FindItem(items, itemId) < |items|
  }

  /** A transaction already stored must be the same; a new one must not clash. */
  predicate Mergeable(existing: seq<Item>, incoming: Item) {
    if HasId(existing, incoming.itemId) then
      var old' := existing[FindItem(existing, incoming.itemId)];
      && old'.partIndex == incoming.partIndex && old'.txidHex == incoming.txidHex
      && old'.payloadDigest == incoming.payloadDigest
      && old'.anchorBoundaryHeight == incoming.anchorBoundaryHeight
      && old'.expiryHeight == incoming.expiryHeight
    else
      forall e :: e in existing ==> e.txidHex != incoming.txidHex && e.partIndex != incoming.partIndex
  }

  function NewItems(existing: seq<Item>, incoming: seq<Item>): seq<Item> {
    Filter(incoming, (i: Item) => !HasId(existing, i.itemId))
  }

  /** The stored batch after restaging `b` over it. */
  function Restaged(old': Batch, b: Batch): Batch {
    var added := NewItems(old'.items, b.items);
    var base := old'.(lightwalletdUrl := b.lightwalletdUrl, timingMeanBlocks := b.timingMeanBlocks,
                      timingMaxBlocks := b.timingMaxBlocks, items := old'.items + added);
    var proofChanged := old'.nextProofHeight != b.nextProofHeight;
    var reproof := if proofChanged
                   then base.(nextProofHeight := b.nextProofHeight, proofPendingAt := None, proofNotifiedAt := None,
                              heightNoticePendingAt := None, heightNoticedAt := None)
                   else base;
    if added != [] || proofChanged
    then reproof.(completePendingAt := None, completeNotifiedAt := None) else reproof
  }

  function Stage(h: Hasher, s: Snapshot, b: Batch): Result<Snapshot, OutboxError> {
    if !Stageable(h, b) then Err(InvalidBatch)
    else
      var k := FindBatch(s.batches, b.batchId);
      if k == |s.batches| then Ok(s.(batches := s.batches + [b]))
      else
        var old' := s.batches[k];
        if old'.network != b.network || old'.accountUuid != b.accountUuid || old'.runId != b.runId then
          Err(ConflictingBatch)
        else if HasSubmitting(old'.items)
                && (old'.lightwalletdUrl != b.lightwalletdUrl || old'.timingMeanBlocks != b.timingMeanBlocks
                    || old'.timingMaxBlocks != b.timingMaxBlocks) then
          Err(ConflictingBatch)
        else if exists i :: i in b.items && !Mergeable(old'.items, i) then
          Err(ConflictingBatch)
        else Ok(s.(batches := s.batches[k := Restaged(old', b)]))
  }

  // ---------- arming and recovery ----------

  function ArmItem(digests: map<string, string>, i: Item): Item {
    if i.itemId in digests && i.status.Staged? then i.(status := Armed) else i
  }

  function ArmItems(digests: map<string, string>, items: seq<Item>): seq<Item> {
    seq(|items|, k requires 0 <= k < |items| => ArmItem(digests, items[k]))
  }

  predicate HasDigest(items: seq<Item>, itemId: string, digest: string) {
    exists i :: i in items && i.itemId == itemId && i.payloadDigest == digest
  }

  function OrElse(d: Option<Date>, now: Date): Option<Date> {
    if d.None? then Some(now) else d
  }

  function ArmBatch(s: Snapshot, batchId: string, digests: map<string, string>, now: Date)
    : Result<Snapshot, OutboxError>
  {
    var k := FindBatch(s.batches, batchId);
    if k == |s.batches| then Err(BatchNotFound)
    else
      var b := s.batches[k];
      if !((|digests| > 0 || b.nextProofHeight.Some?)
           && forall id :: id in digests ==> HasDigest(b.items, id, digests[id])) then
        Err(InvalidArmRequest)
      else
        Ok(s.(batches := s.batches[k := b.(armedAt := OrElse(b.armedAt, now), items := ArmItems(digests, b.items))]))
  }

  function RetryDelay(attemptCount: nat): int {
    if attemptCount <= 1 then 60 else if attemptCount == 2 then 5 * 60
    else if attemptCount == 3 then 15 * 60 else 60 * 60
  }

  /** Back to armed with one more counted attempt and a back-off. */
  function Requeued(i: Item, now: Date, error: string): Item {
    i.(status := Armed, attemptCount := i.attemptCount + 1,
       nextAttemptAt := Some(now + RetryDelay(i.attemptCount + 1)), lastError := Some(error),
       attemptId := None, attemptStartedAt := None)
  }

  const UNKNOWN_OUTCOME: string := "The previous submission outcome is unknown."

  function RecoverItem(i: Item, now: Date): Item {
    if i.status.Submitting? then Requeued(i, now, UNKNOWN_OUTCOME)
    else if i.status.Staged? then i.(status := Armed) else i
  }

  function RecoverItems(items: seq<Item>, now: Date): seq<Item> {
    seq(|items|, k requires 0 <= k < |items| => RecoverItem(items[k], now))
  }

  predicate HasArmed(items: seq<Item>) {
    exists i :: i in items && i.status.Armed?
  }

  datatype Recovery = Recovery(found: bool, snapshot: Snapshot)

  function RecoverBatch(s: Snapshot, batchId: string, network: string, accountUuid: string, runId: string,
                        expectedTxids: set<string>, url: string, now: Date): Result<Recovery, OutboxError>
  {
    if expectedTxids == {} || url == "" then Err(InvalidArmRequest)
    else
      var k := FindBatch(s.batches, batchId);
      if k == |s.batches| then Ok(Recovery(false, s))
      else
        var b := s.batches[k];
        var expected := set t | t in expectedTxids :: LowerAscii(t);
        if !(b.network == network && b.accountUuid == accountUuid && b.runId == runId && b.items != []
             && forall i :: i in b.items ==> i.txidHex in expected) then
          Err(ConflictingBatch)
        else
          var items := RecoverItems(b.items, now);
          var armedAt := if HasArmed(items) then OrElse(b.armedAt, now) else b.armedAt;
          Ok(Recovery(true, s.(batches := s.batches[k := b.(items := items, lightwalletdUrl := url, armedAt := armedAt)])))
  }

  /** An interrupted submission becomes an uncertain attempt. */
  function UninterruptItem(i: Item, now: Date): Item {
    if i.status.Submitting? then Requeued(i, now, UNKNOWN_OUTCOME) else i
  }

  function UninterruptItems(items: seq<Item>, now: Date): seq<Item> {
    seq(|items|, k requires 0 <= k < |items| => UninterruptItem(items[k], now))
  }

  function UninterruptBatches(bs: seq<Batch>, now: Date): seq<Batch> {
    seq(|bs|, k requires 0 <= k < |bs| => bs[k].(items := UninterruptItems(bs[k].items, now)))
  }

  function RecoverInterrupted(s: Snapshot, now: Date): Snapshot {
    s.(batches := UninterruptBatches(s.batches, now))
  }

  // ---------- endpoint rotation ----------

  predicate InRotation(b: Batch) {
    && b.armedAt.Some?
    && (HasArmed(b.items) || (b.nextProofHeight.Some? && b.AwaitsProofAnnouncement()))
  }

  function Urls(bs: seq<Batch>): (r: seq<string>)
    ensures forall u :: u in r <==> exists b :: b in bs && b.lightwalletdUrl == u
  {
    if bs == [] then [] else [bs[0].lightwalletdUrl] + Urls(bs[1..])
  }

  function Endpoints(s: Snapshot): seq<string> {
    SortedSet(Urls(Filter(s.batches, InRotation)))
  }

  datatype Inspection = Inspection(endpoint: Option<string>, snapshot: Snapshot)

  function NextEndpoint(s: Snapshot): Inspection {
    var endpoints := Endpoints(s);
    if endpoints == [] then Inspection(None, s)
    else
      var chosen := NextInRotation(endpoints, s.lastInspectedEndpoint);
      Inspection(Some(chosen), s.(lastInspectedEndpoint := Some(chosen)))
  }

  // ---------- first minimum ----------

  datatype Key = Key(height: int, name: string)

  predicate KeyLess(a: Key, b: Key) {
    a.height < b.height || (a.height == b.height && Less(a.name, b.name))
  }

  lemma KeyLessNegativelyTransitive(a: Key, b: Key, c: Key)
    requires !KeyLess(a, b) && !KeyLess(b, c)
    ensures !KeyLess(a, c)
  {
    LessIsTotal(a.name, b.name);
    LessIsTotal(b.name, c.name);
    if a.height == c.height && Less(a.name, c.name) {
      if a.name != b.name && b.name != c.name {
        LessIsTransitive(c.name, b.name, a.name);
      }
      LessIsTotal(a.name, c.name);
    }
  }

  /** Position of the first eligible element with the least key (`filter.sorted.first`). */
  function FirstMin<T(!new)>(xs: seq<T>, eligible: T -> bool, key: T -> Key): (p: Option<nat>)
    ensures p.None? <==> forall x :: x in xs ==> !eligible(x)
    ensures p.Some? ==> p.value < |xs| && eligible(xs[p.value])
    ensures p.Some? ==> forall x :: x in xs && eligible(x) ==> !KeyLess(key(x), key(xs[p.value]))
  {
    if xs == [] then None
    else
      var rest := FirstMin(xs[1..], eligible, key);
      if !eligible(xs[0]) then
        if rest.None? then None else Some(rest.value + 1)
      else if rest.None? then
        LessIsTotal(key(xs[0]).name, key(xs[0]).name);
        Some(0)
      else
        var best := xs[rest.value + 1];
        LessIsTotal(key(xs[0]).name, key(xs[0]).name);
        LessIsTotal(key(xs[0]).name, key(best).name);
        if KeyLess(key(best), key(xs[0])) then Some(rest.value + 1)
        else
          assert forall x :: x in xs && eligible(x) ==> !KeyLess(key(x), key(xs[0])) by {
            forall x | x in xs && eligible(x) ensures !KeyLess(key(x), key(xs[0])) {
              if x in xs[1..] { KeyLessNegativelyTransitive(key(x), key(best), key(xs[0])); }
            }
          }
          Some(0)
  }

  // ---------- selection ----------

  predicate Due(i: Item, tip: u64, now: Date) {
    && i.status.Armed? && i.scheduledHeight <= tip < i.expiryHeight
    && (i.nextAttemptAt.None? || i.nextAttemptAt.value <= now)
  }

  predicate HasDue(items: seq<Item>, tip: u64, now: Date) {
    exists i :: i in items && Due(i, tip, now)
  }

  predicate Candidate(b: Batch, tip: u64, endpoint: Option<string>, now: Date) {
    && (endpoint.None? || b.lightwalletdUrl == endpoint.value)
    && b.armedAt.Some? && HasDue(b.items, tip, now)
  }

  function Candidates(s: Snapshot, tip: u64, endpoint: Option<string>, now: Date): seq<Batch> {
    Filter(s.batches, (b: Batch) => Candidate(b, tip, endpoint, now))
  }

  function ScopeKeys(bs: seq<Batch>): (r: seq<string>)
    ensures forall k :: k in r <==> exists b :: b in bs && b.ScopeKey() == k
  {
    if bs == [] then [] else [bs[0].ScopeKey()] + ScopeKeys(bs[1..])
  }

  function Scopes(s: Snapshot, tip: u64, endpoint: Option<string>, now: Date): seq<string> {
    SortedSet(ScopeKeys(Candidates(s, tip, endpoint, now)))
  }

  function DueKey(i: Item): Key { Key(i.scheduledHeight, i.txidHex) }

  function FirstDue(items: seq<Item>, tip: u64, now: Date): Option<nat> {
    FirstMin(items, (i: Item) => Due(i, tip, now), DueKey)
  }

  /** First batch of the scope; its length when there is none. */
  function FindScope(bs: seq<Batch>, scope: string): (k: nat)
    ensures k <= |bs|
    ensures k < |bs| ==> bs[k].ScopeKey() == scope
    ensures k == |bs| ==> forall b :: b in bs ==> b.ScopeKey() != scope
  {
    if bs == [] then 0 else if bs[0].ScopeKey() == scope then 0 else 1 + FindScope(bs[1..], scope)
  }

  datatype Choice = Choice(selection: Option<Selection>, snapshot: Snapshot)

  function SelectDue(s: Snapshot, tip: u64, endpoint: Option<string>, now: Date): Choice {
    var candidates := Candidates(s, tip, endpoint, now);
    var scopes := Scopes(s, tip, endpoint, now);
    if scopes == [] then Choice(None, s)
    else
      var scope := NextInRotation(scopes, s.lastAttemptedScopeKey);
      var k := FindScope(candidates, scope);
      assert k < |candidates|;
      var b := candidates[k];
      assert b in candidates;
      var at := FirstDue(b.items, tip, now);
      Choice(Some(Selection(b.batchId, b.accountUuid, b.ScopeKey(), b.lightwalletdUrl, b.items[at.value])),
             s.(lastAttemptedScopeKey := Some(scope)))
  }

  // ---------- expiry and re-signing ----------

  datatype Retirement = Expiry | Resign(canonical: u64)

  predicate Retires(kind: Retirement, tip: u64, i: Item) {
    && i.status.Armed?
    && match kind
       case Expiry => tip >= i.expiryHeight
       case Resign(c) => i.scheduledHeight <= tip && i.expiryHeight != c
  }

  function RetiredOutcome(kind: Retirement): Outcome {
    if kind.Expiry? then HasExpired else NeedsResign
  }

  function RetiredMessage(kind: Retirement): Option<string> {
    if kind.Expiry? then None else Some("Broadcast height crossed a ZIP 318 expiry boundary.")
  }

  function RetireItem(kind: Retirement, tip: u64, i: Item): Item {
    if Retires(kind, tip, i) then i.(status := StatusOf(RetiredOutcome(kind))) else i
  }

  function RetireItems(kind: Retirement, tip: u64, items: seq<Item>): seq<Item> {
    seq(|items|, k requires 0 <= k < |items| => RetireItem(kind, tip, items[k]))
  }

  predicate HasRetiring(kind: Retirement, tip: u64, items: seq<Item>) {
    exists i :: i in items && Retires(kind, tip, i)
  }

  function RetireBatch(kind: Retirement, tip: u64, endpoint: string, b: Batch): Batch {
    if b.lightwalletdUrl != endpoint then b
    else
      var items := RetireItems(kind, tip, b.items);
      if HasRetiring(kind, tip, b.items) then b.(items := items, armedAt := None, nextProofHeight := None)
      else b.(items := items)
  }

  function RetireBatches(kind: Retirement, tip: u64, endpoint: string, bs: seq<Batch>): seq<Batch> {
    seq(|bs|, k requires 0 <= k < |bs| => RetireBatch(kind, tip, endpoint, bs[k]))
  }

  function RetireReceipt(kind: Retirement, tip: u64, now: Date, b: Batch, i: Item): Receipt {
    MakeReceipt(b, i, RetiredOutcome(kind), tip, None, RetiredMessage(kind), [], now)
  }

  function ItemReceipts(kind: Retirement, tip: u64, now: Date, b: Batch, items: seq<Item>): (rs: seq<Receipt>)
    ensures forall r :: r in rs <==>
              exists i :: i in items && Retires(kind, tip, i) && r == RetireReceipt(kind, tip, now, b, i)
  {
    if items == [] then []
    else
      var rest := ItemReceipts(kind, tip, now, b, items[1..]);
      if Retires(kind, tip, items[0]) then [RetireReceipt(kind, tip, now, b, items[0])] + rest else rest
  }

  function BatchReceipts(kind: Retirement, tip: u64, endpoint: string, now: Date, bs: seq<Batch>): seq<Receipt> {
    if bs == [] then []
    else
      (if bs[0].lightwalletdUrl == endpoint then ItemReceipts(kind, tip, now, bs[0], bs[0].items) else [])
      + BatchReceipts(kind, tip, endpoint, now, bs[1..])
  }

  function Retire(s: Snapshot, kind: Retirement, tip: u64, endpoint: string, now: Date): Snapshot {
    s.(batches := RetireBatches(kind, tip, endpoint, s.batches),
       receipts := s.receipts + BatchReceipts(kind, tip, endpoint, now, s.batches))
  }

  function ExpireItems(s: Snapshot, tip: u64, endpoint: string, now: Date): Snapshot {
    Retire(s, Expiry, tip, endpoint, now)
  }

  function MarkDueNeedingResign(s: Snapshot, tip: u64, endpoint: string, now: Date): Snapshot {
    match CanonicalExpiry(tip)
    case None => s
    case Some(c) => Retire(s, Resign(c), tip, endpoint, now)
  }

  // ---------- submission ----------

  function BeginSubmission(s: Snapshot, itemId: string, attemptId: string, now: Date): Result<Snapshot, OutboxError> {
    match Locate(s.batches, itemId)
    case None => Err(ItemNotFound)
    case Some(p) =>
      var i := s.batches[p.batch].items[p.item];
      if !i.status.Armed? then Err(InvalidTransition)
      else Ok(s.(batches := WithItem(s.batches, p, i.(status := Submitting, attemptId := Some(attemptId),
                                                      attemptStartedAt := Some(now)))))
  }

  predicate Overdue(i: Item, accepted: string, tip: u64) {
    i.itemId != accepted && i.status.Armed? && i.scheduledHeight <= tip
  }

  /** Indexes, from `k` on, of the armed peers whose height has passed. */
  function OverdueIndexes(items: seq<Item>, accepted: string, tip: u64, k: nat): (r: seq<nat>)
    requires k <= |items|
    ensures forall j :: 0 <= j < |r| ==> k <= r[j] < |items| && Overdue(items[r[j]], accepted, tip)
    ensures forall x :: k <= x < |items| && Overdue(items[x], accepted, tip) ==> x in r
    ensures forall i, j :: 0 <= i < j < |r| ==> r[i] < r[j]
    decreases |items| - k
  {
    if k == |items| then []
    else
      var rest := OverdueIndexes(items, accepted, tip, k + 1);
      if Overdue(items[k], accepted, tip) then [k] + rest else rest
  }

  function ExpiryAt(items: seq<Item>, k: nat): int {
    if k < |items| then items[k].expiryHeight else 0
  }

  function ExpiriesOf(items: seq<Item>, order: seq<nat>): seq<u64>
    requires forall k :: 0 <= k < |order| ==> order[k] < |items|
  {
    seq(|order|, k requires 0 <= k < |order| => items[order[k]].expiryHeight)
  }

  /** The test that must pass before the bytes leave the device. */
  function ValidateRescheduling(s: Snapshot, itemId: string, tip: u64): Result<(), OutboxError> {
    match Locate(s.batches, itemId)
    case None => Err(ItemNotFound)
    case Some(p) =>
      var items := s.batches[p.batch].items;
      var peers := ExpiriesOf(items, OverdueIndexes(items, itemId, tip, 0));
      if Fits(tip, SortHeights(peers)) then Ok(()) else Err(InvalidSchedule)
  }

  function RecordUncertain(s: Snapshot, itemId: string, error: string, now: Date): Result<Snapshot, OutboxError> {
    match Locate(s.batches, itemId)
    case None => Err(ItemNotFound)
    case Some(p) =>
      var i := s.batches[p.batch].items[p.item];
      if !i.status.Submitting? then Err(InvalidTransition)
      else Ok(s.(batches := WithItem(s.batches, p, Requeued(i, now, error))))
  }

  function RecordCancelled(s: Snapshot, itemId: string, error: string): Result<Snapshot, OutboxError> {
    match Locate(s.batches, itemId)
    case None => Err(ItemNotFound)
    case Some(p) =>
      var i := s.batches[p.batch].items[p.item];
      if !i.status.Submitting? then Err(InvalidTransition)
      else Ok(s.(batches := WithItem(s.batches, p, i.(status := Armed, nextAttemptAt := None,
                                                      lastError := Some(error), attemptId := None,
                                                      attemptStartedAt := None))))
  }

  // ---------- acceptance and re-spreading ----------

  lemma SameBagSameMembers(xs: seq<nat>, ys: seq<nat>)
    requires multiset(xs) == multiset(ys)
    ensures forall x :: x in xs <==> x in ys
    ensures forall k :: 0 <= k < |xs| ==> xs[k] in ys
  {
    forall x ensures x in xs <==> x in ys {
      assert x in xs <==> x in multiset(xs);
    }
  }

  function RescheduleOrder(items: seq<Item>, accepted: string, tip: u64, random: Random): (r: seq<nat>)
    ensures multiset(r) == multiset(OverdueIndexes(items, accepted, tip, 0))
    ensures forall k :: 0 <= k < |r| ==> r[k] < |items|
  {
    var overdue := OverdueIndexes(items, accepted, tip, 0);
    var r := SortOn(Shuffle(overdue, random.swaps, 0), (k: nat) => ExpiryAt(items, k));
    SameBagSameMembers(r, overdue);
    r
  }

  /** Rebuilding the record with a new height drops the attempt's id and start. */
  function ReplacingSchedule(h: Hasher, i: Item, scheduled: u64, start: u64): Item {
    NewItem(h, i.itemId, i.partIndex, i.txidHex, i.rawTransaction, i.anchorBoundaryHeight, scheduled, start, i.expiryHeight)
      .(status := i.status, attemptCount := i.attemptCount, nextAttemptAt := i.nextAttemptAt, lastError := i.lastError)
  }

  /** The records after the first `n` steps of the walk along `order`. */
  function Respread(h: Hasher, items: seq<Item>, order: seq<nat>, heights: seq<u64>, tip: u64, n: nat): (r: seq<Item>)
    requires n <= |order| && n <= |heights|
    requires forall j :: 0 <= j < |order| ==> order[j] < |items|
    ensures |r| == |items|
  {
    if n == 0 then items
    else
      var r := Respread(h, items, order, heights, tip, n - 1);
      r[order[n - 1] := ReplacingSchedule(h, r[order[n - 1]], heights[n - 1], tip)]
  }

  function Updates(items: seq<Item>, order: seq<nat>, heights: seq<u64>, tip: u64): seq<ScheduleUpdate>
    requires |heights| == |order| && forall j :: 0 <= j < |order| ==> order[j] < |items|
  {
    seq(|order|, k requires 0 <= k < |order| => ScheduleUpdate(items[order[k]].itemId, heights[k], tip))
  }

  datatype Respreading = Respreading(items: seq<Item>, updates: seq<ScheduleUpdate>)

  function Reschedule(h: Hasher, items: seq<Item>, accepted: string, tip: u64, mean: u64, maxBlocks: u64, random: Random)
    : (r: Result<Respreading, OutboxError>)
    ensures r.Ok? ==> |r.value.items| == |items|
  {
    if !(0 < mean <= maxBlocks) then Err(InvalidSchedule)
    else
      var order := RescheduleOrder(items, accepted, tip, random);
      match Plan(tip, maxBlocks, ExpiriesOf(items, order), random.delays, 0, 0)
      case None => Err(InvalidSchedule)
      case Some(heights) =>
        Ok(Respreading(Respread(h, items, order, heights, tip, |order|), Updates(items, order, heights, tip)))
  }

  datatype Response = Response(code: int, message: string)

  function RecordAccepted(h: Hasher, s: Snapshot, itemId: string, equivalent: bool, tip: u64, response: Response,
                          now: Date, random: Random): Result<Snapshot, OutboxError>
  {
    match Locate(s.batches, itemId)
    case None => Err(ItemNotFound)
    case Some(p) =>
      var b := s.batches[p.batch];
      var i := b.items[p.item];
      if !i.status.Submitting? then Err(InvalidTransition)
      else
        var done := i.(status := AcceptedAwaiting, attemptId := None, attemptStartedAt := None, nextAttemptAt := None);
        match Reschedule(h, b.items[p.item := done], itemId, tip, b.timingMeanBlocks, b.timingMaxBlocks, random)
        case Err(e) => Err(e)
        case Ok(respread) =>
          var b' := b.(items := respread.items);
          var receipt := MakeReceipt(b', b'.items[p.item], if equivalent then WasAcceptedEquivalent else WasAccepted,
                                     tip, Some(response.code), Some(response.message), respread.updates, now);
          Ok(s.(batches := s.batches[p.batch := b'], receipts := s.receipts + [receipt]))
  }

  function RecordRejected(s: Snapshot, itemId: string, tip: u64, response: Response, now: Date): Result<Snapshot, OutboxError> {
    match Locate(s.batches, itemId)
    case None => Err(ItemNotFound)
    case Some(p) =>
      var b := s.batches[p.batch];
      var i := b.items[p.item];
      if !i.status.Submitting? then Err(InvalidTransition)
      else
        var done := i.(status := RejectedAwaiting, attemptId := None, attemptStartedAt := None, nextAttemptAt := None);
        var b' := b.(items := b.items[p.item := done], armedAt := None, nextProofHeight := None);
        var receipt := MakeReceipt(b', done, WasRejected, tip, Some(response.code), Some(response.message), [], now);
        Ok(s.(batches := s.batches[p.batch := b'], receipts := s.receipts + [receipt]))
  }

  // ---------- removal ----------

  function AcknowledgedItems(receipts: seq<Receipt>, ids: set<string>): set<string> {
    set r | r in receipts && r.receiptId in ids :: r.itemId
  }

  function RemovableBatches(receipts: seq<Receipt>, ids: set<string>): set<string> {
    set r | r in receipts && r.receiptId in ids && r.outcome in {WasRejected, HasExpired, NeedsResign}
            && !(exists q :: q in receipts && q.receiptId !in ids && q.batchId == r.batchId) :: r.batchId
  }

  /** `removeAll` of the batches with these ids. */
  function WithoutBatches(bs: seq<Batch>, gone: set<string>): (r: seq<Batch>)
    ensures forall b :: b in r <==> b in bs && b.batchId !in gone
    ensures DistinctBy(bs, BatchKey) ==> DistinctBy(r, BatchKey)
  {
    var keep := (b: Batch) => b.batchId !in gone;
    assert DistinctBy(bs, BatchKey) ==> DistinctBy(Filter(bs, keep), BatchKey) by {
      if DistinctBy(bs, BatchKey) { FilterKeepsDistinct(bs, keep, BatchKey); }
    }
    Filter(bs, keep)
  }

  /** `removeAll` of the items with these ids. */
  function WithoutItems(items: seq<Item>, gone: set<string>): (r: seq<Item>)
    ensures forall i :: i in r <==> i in items && i.itemId !in gone
    ensures DistinctBy(items, ItemKey) ==> DistinctBy(r, ItemKey)
  {
    var keep := (i: Item) => i.itemId !in gone;
    assert DistinctBy(items, ItemKey) ==> DistinctBy(Filter(items, keep), ItemKey) by {
      if DistinctBy(items, ItemKey) { FilterKeepsDistinct(items, keep, ItemKey); }
    }
    Filter(items, keep)
  }

  function StripItems(bs: seq<Batch>, gone: set<string>): (r: seq<Batch>)
  {
    seq(|bs|, k requires 0 <= k < |bs| => bs[k].(items := WithoutItems(bs[k].items, gone)))
  }

  /** `removeAll` of the receipts chosen by `drop`. */
  function WithoutReceipts(rs: seq<Receipt>, drop: Receipt -> bool): (r: seq<Receipt>)
    ensures forall x :: x in r <==> x in rs && !drop(x)
    ensures DistinctBy(rs, ReceiptKey) ==> DistinctBy(r, ReceiptKey)
  {
    var keep := (x: Receipt) => !drop(x);
    assert DistinctBy(rs, ReceiptKey) ==> DistinctBy(Filter(rs, keep), ReceiptKey) by {
      if DistinctBy(rs, ReceiptKey) { FilterKeepsDistinct(rs, keep, ReceiptKey); }
    }
    Filter(rs, keep)
  }

  predicate Retained(b: Batch) {
    !(b.items == [] && b.nextProofHeight.None? && b.completePendingAt.None?)
  }

  function UnacknowledgedReceipts(rs: seq<Receipt>, ids: set<string>): (r: seq<Receipt>)
    ensures forall x :: x in r <==> x in rs && x.receiptId !in ids
    ensures DistinctBy(rs, ReceiptKey) ==> DistinctBy(r, ReceiptKey)
  {
    WithoutReceipts(rs, (r: Receipt) => r.receiptId in ids)
  }

  function AcknowledgeReceipts(s: Snapshot, ids: set<string>): Snapshot {
    var removable := RemovableBatches(s.receipts, ids);
    var kept := WithoutBatches(s.batches, removable);
    var stripped := StripItems(kept, AcknowledgedItems(s.receipts, ids));
    s.(batches := Filter(stripped, Retained), receipts := UnacknowledgedReceipts(s.receipts, ids))
  }

  predicate HasDeliveryState(items: seq<Item>) {
    exists i :: i in items && (i.status.Submitting? || i.attemptCount > 0)
  }

  function DiscardBatch(s: Snapshot, batchId: string): Result<Recovery, OutboxError> {
    var k := FindBatch(s.batches, batchId);
    if k == |s.batches| then Ok(Recovery(false, s))
    else if HasDeliveryState(s.batches[k].items) || exists r :: r in s.receipts && r.batchId == batchId then
      Err(ConflictingBatch)
    else Ok(Recovery(true, s.(batches := s.batches[..k] + s.batches[k + 1..])))
  }

  function ScopeBatchIds(bs: seq<Batch>, network: string, accountUuid: string): set<string> {
    set b | b in bs && b.network == network && b.accountUuid == accountUuid :: b.batchId
  }

  function ReceiptsOfOthers(rs: seq<Receipt>, gone: set<string>): (r: seq<Receipt>)
    ensures forall x :: x in r <==> x in rs && x.batchId !in gone
    ensures DistinctBy(rs, ReceiptKey) ==> DistinctBy(r, ReceiptKey)
  {
    WithoutReceipts(rs, (r: Receipt) => r.batchId in gone)
  }

  function AnnouncedOfOthers(announced: seq<string>, prefix: string): (r: seq<string>)
    ensures forall id :: id in r <==> id in announced && !(prefix <= id)
  {
    Filter(announced, (id: string) => !(prefix <= id))
  }

  function Revoke(s: Snapshot, network: string, accountUuid: string): Snapshot {
    var gone := ScopeBatchIds(s.batches, network, accountUuid);
    var prefix := network + ":" + accountUuid + ":";
    s.(batches := WithoutBatches(s.batches, gone),
       receipts := ReceiptsOfOthers(s.receipts, gone),
       announced := AnnouncedOfOthers(s.announced, prefix),
       lastAttemptedScopeKey := if s.lastAttemptedScopeKey == Some(network + ":" + accountUuid) then None
                                else s.lastAttemptedScopeKey)
  }

  // ---------- announcements ----------

  function ProofKey(b: Batch): Key {
    Key(if b.nextProofHeight.Some? then b.nextProofHeight.value else 0, b.batchId)
  }

  predicate ProofCandidate(b: Batch, tip: u64, endpoint: string) {
    && b.nextProofHeight.Some? && b.lightwalletdUrl == endpoint && b.armedAt.Some?
    && b.AwaitsProofAnnouncement() && b.nextProofHeight.value <= tip
  }

  function MarkProofReady(s: Snapshot, tip: u64, endpoint: string, now: Date): Snapshot {
    match FirstMin(s.batches, (b: Batch) => ProofCandidate(b, tip, endpoint), ProofKey)
    case None => s
    case Some(c) =>
      var k := FindBatch(s.batches, s.batches[c].batchId);
      if k == |s.batches| then s
      else s.(batches := s.batches[k := s.batches[k].(proofPendingAt := OrElse(s.batches[k].proofPendingAt, now))])
  }

  predicate RunBatch(b: Batch, network: string, accountUuid: string, runId: string) {
    && b.network == network && b.accountUuid == accountUuid && b.runId == runId
    && b.armedAt.Some? && b.nextProofHeight.Some?
  }

  function RecordVerifiedProof(s: Snapshot, network: string, accountUuid: string, runId: string, now: Date): Snapshot {
    match FirstMin(s.batches, (b: Batch) => RunBatch(b, network, accountUuid, runId), ProofKey)
    case None => s
    case Some(k) =>
      var b := s.batches[k];
      if b.proofNotifiedAt.None? && b.proofPendingAt.None?
      then s.(batches := s.batches[k := b.(proofPendingAt := Some(now))]) else s
  }

  function AcknowledgeProof(s: Snapshot, batchId: string, now: Date): Result<Snapshot, OutboxError> {
    var k := FindBatch(s.batches, batchId);
    if k == |s.batches| then Err(BatchNotFound)
    else if s.batches[k].proofPendingAt.None? then Err(InvalidTransition)
    else Ok(s.(batches := s.batches[k := s.batches[k].(proofPendingAt := None, proofNotifiedAt := Some(now))]))
  }

  function MarkHeightNotice(s: Snapshot, batchId: string, now: Date): Snapshot {
    var k := FindBatch(s.batches, batchId);
    if k == |s.batches| then s
    else
      var b := s.batches[k];
      if b.armedAt.Some? && b.nextProofHeight.Some? && b.proofNotifiedAt.None? && b.proofPendingAt.None?
         && b.heightNoticePendingAt.None? && b.heightNoticedAt.None?
      then s.(batches := s.batches[k := b.(heightNoticePendingAt := Some(now))]) else s
  }

  function AcknowledgeHeightNotice(s: Snapshot, batchId: string, now: Date): Result<Snapshot, OutboxError> {
    var k := FindBatch(s.batches, batchId);
    if k == |s.batches| then Err(BatchNotFound)
    else if s.batches[k].heightNoticePendingAt.None? then Err(InvalidTransition)
    else Ok(s.(batches := s.batches[k := s.batches[k].(heightNoticePendingAt := None, heightNoticedAt := Some(now))]))
  }

  function MarkBroadcastComplete(s: Snapshot, batchId: string, now: Date): Snapshot {
    var k := FindBatch(s.batches, batchId);
    if k == |s.batches| then s
    else
      var b := s.batches[k];
      if b.nextProofHeight.None? && b.completeNotifiedAt.None? && batchId !in s.announced && b.items != []
         && forall i :: i in b.items ==> i.status.AcceptedAwaiting?
      then s.(batches := s.batches[k := b.(completePendingAt := OrElse(b.completePendingAt, now))]) else s
  }

  function AcknowledgeBroadcastComplete(s: Snapshot, batchId: string, now: Date): Result<Snapshot, OutboxError> {
    var k := FindBatch(s.batches, batchId);
    if k == |s.batches| then Err(BatchNotFound)
    else if s.batches[k].completePendingAt.None? then Err(InvalidTransition)
    else
      var b := s.batches[k].(completePendingAt := None, completeNotifiedAt := Some(now));
      var announced := if batchId in s.announced then s.announced else s.announced + [batchId];
      var batches := if b.items == [] && b.nextProofHeight.None? then s.batches[..k] + s.batches[k + 1..]
                     else s.batches[k := b];
      Ok(s.(batches := batches, announced := announced))
  }

  // ---------- the next height at which anything can happen ----------

  function Least(hs: seq<u64>): (m: Option<u64>)
    ensures m.None? <==> hs == []
    ensures m.Some? ==> m.value in hs && forall x :: x in hs ==> m.value <= x
  {
    if hs == [] then None
    else
      var rest := Least(hs[1..]);
      assert hs == [hs[0]] + hs[1..];
      if rest.None? || hs[0] <= rest.value then Some(hs[0]) else rest
  }

  function ArmedHeights(items: seq<Item>): (r: seq<u64>)
    ensures forall i :: i in items && i.status.Armed? ==> i.scheduledHeight in r
    ensures forall x :: x in r ==> exists i :: i in items && i.status.Armed? && i.scheduledHeight == x
  {
    if items == [] then []
    else (if items[0].status.Armed? then [items[0].scheduledHeight] else []) + ArmedHeights(items[1..])
  }

  predicate WatchesProof(b: Batch) {
    b.armedAt.Some? && b.AwaitsProofAnnouncement() && b.proofPendingAt.None? && b.nextProofHeight.Some?
  }

  /** Heights at which a batch of the endpoint has a transaction or a proof to look at. */
  function ActionHeights(bs: seq<Batch>, endpoint: string): (r: seq<u64>)
    ensures forall b, i :: b in bs && b.lightwalletdUrl == endpoint && i in b.items && i.status.Armed? ==> i.scheduledHeight in r
    ensures forall b :: b in bs && b.lightwalletdUrl == endpoint && WatchesProof(b) ==> b.nextProofHeight.value in r
  {
    if bs == [] then []
    else
      (if bs[0].lightwalletdUrl == endpoint
       then ArmedHeights(bs[0].items) + (if WatchesProof(bs[0]) then [bs[0].nextProofHeight.value] else [])
       else [])
      + ActionHeights(bs[1..], endpoint)
  }

  function NextActionHeight(s: Snapshot, endpoint: string): Option<u64> {
    Least(ActionHeights(s.batches, endpoint))
  }
}
