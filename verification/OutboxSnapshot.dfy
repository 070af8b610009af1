/** The outbox record set as the program edits it: fields updated in place by index loops,
    each method proved to do what the value-level mutation of `OutboxModel` says. */
module OutboxSnapshot {
  import opened Common
  import opened Text
  import opened Heights
  import M = OutboxModel
  import opened OutboxModel

  /** A throwing mutation: on success the new value, on failure the error (the copy is
      then dropped by the store, so its content is not promised). */
  ghost predicate Yields(r: Result<Snapshot, OutboxError>, error: Option<OutboxError>, value: Snapshot) {
    match r
    case Ok(t) => error.None? && value == t
    case Err(e) => error == Some(e)
  }

  class OutboxRecords {
    var batches: seq<Batch>
    var receipts: seq<Receipt>
    var lastAttemptedScopeKey: Option<string>
    var lastInspectedEndpoint: Option<string>
    var announced: seq<string>

    function Value(): Snapshot
      reads this
    {
      Snapshot(batches, receipts, lastAttemptedScopeKey, lastInspectedEndpoint, announced)
    }

    constructor (s: Snapshot)
      ensures Value() == s
    {
      batches, receipts := s.batches, s.receipts;
      lastAttemptedScopeKey, lastInspectedEndpoint := s.lastAttemptedScopeKey, s.lastInspectedEndpoint;
      announced := s.announced;
    }

    method SetItem(p: Place, i: Item)
      requires p.batch < |batches| && p.item < |batches[p.batch].items|
      modifies this`batches
      ensures batches == WithItem(old(batches), p, i)
    {
      batches := batches[p.batch := batches[p.batch].(items := batches[p.batch].items[p.item := i])];
    }

    // ---------- staging ----------

    method Stage(h: Hasher, b: Batch) returns (error: Option<OutboxError>)
      modifies this
      ensures Yields(M.Stage(h, old(Value()), b), error, Value())
    {
      if !Stageable(h, b) {
        return Some(InvalidBatch);
      }
      var k := FindBatch(batches, b.batchId);
      if k == |batches| {
        batches := batches + [b];
        return None;
      }
      var existing := batches[k];
      if existing.network != b.network || existing.accountUuid != b.accountUuid || existing.runId != b.runId {
        return Some(ConflictingBatch);
      }
      if existing.lightwalletdUrl != b.lightwalletdUrl {
        if HasSubmitting(existing.items) { return Some(ConflictingBatch); }
        batches := batches[k := batches[k].(lightwalletdUrl := b.lightwalletdUrl)];
      }
      if existing.timingMeanBlocks != b.timingMeanBlocks || existing.timingMaxBlocks != b.timingMaxBlocks {
        if HasSubmitting(existing.items) { return Some(ConflictingBatch); }
        batches := batches[k := batches[k].(timingMeanBlocks := b.timingMeanBlocks, timingMaxBlocks := b.timingMaxBlocks)];
      }
      var addedItem, clash := MergeLoop(k, existing.items, b);
      if clash { return Some(ConflictingBatch); }
      if existing.nextProofHeight != b.nextProofHeight {
        batches := batches[k := batches[k].(nextProofHeight := b.nextProofHeight, proofPendingAt := None,
                                            proofNotifiedAt := None, heightNoticePendingAt := None, heightNoticedAt := None)];
      }
      if addedItem || existing.nextProofHeight != b.nextProofHeight {
        batches := batches[k := batches[k].(completePendingAt := None, completeNotifiedAt := None)];
      }
      assert batches == old(batches)[k := Restaged(existing, b)];
      return None;
    }

    /** Appends the incoming records the batch does not have; stops at the first clash. */
    method MergeLoop(k: nat, existing: seq<Item>, b: Batch) returns (addedItem: bool, clash: bool)
      requires k < |batches| && batches[k].items == existing
      modifies this`batches
      ensures clash <==> exists i :: i in b.items && !Mergeable(existing, i)
      ensures !clash ==> batches == old(batches)[k := old(batches)[k].(items := existing + NewItems(existing, b.items))]
      ensures !clash ==> (addedItem <==> NewItems(existing, b.items) != [])
    {
      addedItem := false;
      ghost var base := batches[k];
      assert base.(items := existing + []) == base && existing + [] == existing;
      var n := 0;
      while n < |b.items|
        invariant n <= |b.items| && k < |batches|
        invariant forall i :: i in b.items[..n] ==> Mergeable(existing, i)
        invariant batches == old(batches)[k := base.(items := existing + NewItems(existing, b.items[..n]))]
        invariant addedItem <==> NewItems(existing, b.items[..n]) != []
      {
        var incoming := b.items[n];
        NewItemsGrow(existing, b.items, n);
        assert b.items[..n + 1] == b.items[..n] + [incoming];
        if !Mergeable(existing, incoming) {
          assert incoming in b.items;
          return addedItem, true;
        }
        if !HasId(existing, incoming.itemId) {
          ghost var have := NewItems(existing, b.items[..n]);
          assert batches[k].items == existing + have;
          assert (existing + have) + [incoming] == existing + (have + [incoming]);
          batches := batches[k := batches[k].(items := batches[k].items + [incoming])];
          addedItem := true;
        }
        n := n + 1;
      }
      assert b.items[..n] == b.items;
      return addedItem, false;
    }

    // ---------- arming and recovery ----------

    method ArmBatch(batchId: string, digests: map<string, string>, now: Date) returns (error: Option<OutboxError>)
      modifies this
      ensures Yields(M.ArmBatch(old(Value()), batchId, digests, now), error, Value())
    {
      var k := FindBatch(batches, batchId);
      if k == |batches| {
        return Some(BatchNotFound);
      }
      var hasProofWatch := batches[k].nextProofHeight.Some?;
      if !((|digests| > 0 || hasProofWatch) && forall id :: id in digests ==> HasDigest(batches[k].items, id, digests[id])) {
        return Some(InvalidArmRequest);
      }
      if batches[k].armedAt.None? {
        batches := batches[k := batches[k].(armedAt := Some(now))];
      }
      ArmLoop(k, digests);
      return None;
    }

    method ArmLoop(k: nat, digests: map<string, string>)
      requires k < |batches|
      modifies this`batches
      ensures batches == old(batches)[k := old(batches)[k].(items := ArmItems(digests, old(batches)[k].items))]
    {
      var b := batches[k];
      ghost var goal := ArmItems(digests, b.items);
      MixedEnds(goal, b.items);
      var m := 0;
      while m < |batches[k].items|
        invariant m <= |b.items| && k < |batches|
        invariant batches == old(batches)[k := b.(items := Mixed(goal, b.items, m))]
      {
        MixedStep(goal, b.items, m);
        var i := batches[k].items[m];
        if i.itemId in digests && i.status.Staged? {
          SetItem(Place(k, m), i.(status := Armed));
        }
        m := m + 1;
      }
    }

    method RecoverBatch(batchId: string, network: string, accountUuid: string, runId: string,
                        expectedTxids: set<string>, url: string, now: Date)
      returns (found: bool, error: Option<OutboxError>)
      modifies this
      ensures match M.RecoverBatch(old(Value()), batchId, network, accountUuid, runId, expectedTxids, url, now)
              case Ok(r) => error.None? && found == r.found && Value() == r.snapshot
              case Err(e) => error == Some(e)
    {
      found := false;
      if expectedTxids == {} || url == "" {
        return false, Some(InvalidArmRequest);
      }
      var k := FindBatch(batches, batchId);
      if k == |batches| {
        return false, None;
      }
      var expected := set t | t in expectedTxids :: LowerAscii(t);
      var b := batches[k];
      if !(b.network == network && b.accountUuid == accountUuid && b.runId == runId && b.items != []
           && forall i :: i in b.items ==> i.txidHex in expected) {
        return false, Some(ConflictingBatch);
      }
      RecoverLoop(k, now);
      batches := batches[k := batches[k].(lightwalletdUrl := url)];
      if HasArmed(batches[k].items) {
        batches := batches[k := batches[k].(armedAt := OrElse(batches[k].armedAt, now))];
      }
      return true, None;
    }

    method RecoverLoop(k: nat, now: Date)
      requires k < |batches|
      modifies this`batches
      ensures batches == old(batches)[k := old(batches)[k].(items := RecoverItems(old(batches)[k].items, now))]
    {
      var b := batches[k];
      ghost var goal := RecoverItems(b.items, now);
      MixedEnds(goal, b.items);
      var m := 0;
      while m < |batches[k].items|
        invariant m <= |b.items| && k < |batches|
        invariant batches == old(batches)[k := b.(items := Mixed(goal, b.items, m))]
      {
        MixedStep(goal, b.items, m);
        var i := batches[k].items[m];
        if i.status.Submitting? {
          i := i.(status := Armed, attemptCount := i.attemptCount + 1);
          i := i.(nextAttemptAt := Some(now + RetryDelay(i.attemptCount)), lastError := Some(UNKNOWN_OUTCOME),
                  attemptId := None, attemptStartedAt := None);
        } else if i.status.Staged? {
          i := i.(status := Armed);
        }
        SetItem(Place(k, m), i);
        m := m + 1;
      }
    }

    method RecoverInterruptedSubmissions(now: Date)
      modifies this
      ensures Value() == M.RecoverInterrupted(old(Value()), now)
    {
      ghost var goal := UninterruptBatches(batches, now);
      MixedEnds(goal, batches);
      var k := 0;
      while k < |batches|
        invariant k <= |old(batches)| == |batches|
        invariant batches == Mixed(goal, old(batches), k)
        invariant Value() == old(Value()).(batches := batches)
      {
        MixedStep(goal, old(batches), k);
        UninterruptLoop(k, now);
        k := k + 1;
      }
    }

    method UninterruptLoop(k: nat, now: Date)
      requires k < |batches|
      modifies this`batches
      ensures batches == old(batches)[k := old(batches)[k].(items := UninterruptItems(old(batches)[k].items, now))]
    {
      var b := batches[k];
      ghost var goal := UninterruptItems(b.items, now);
      MixedEnds(goal, b.items);
      var m := 0;
      while m < |batches[k].items|
        invariant m <= |b.items| && k < |batches|
        invariant batches == old(batches)[k := b.(items := Mixed(goal, b.items, m))]
      {
        MixedStep(goal, b.items, m);
        var i := batches[k].items[m];
        if i.status.Submitting? {
          i := i.(status := Armed, attemptCount := i.attemptCount + 1);
          SetItem(Place(k, m), i.(nextAttemptAt := Some(now + RetryDelay(i.attemptCount)),
                                  lastError := Some(UNKNOWN_OUTCOME), attemptId := None, attemptStartedAt := None));
        }
        m := m + 1;
      }
    }

    method NextEndpointForInspection() returns (endpoint: Option<string>)
      modifies this`lastInspectedEndpoint
      ensures endpoint == NextEndpoint(old(Value())).endpoint
      ensures Value() == NextEndpoint(old(Value())).snapshot
    {
      var endpoints := SortedSet(Urls(Filter(batches, InRotation)));
      if endpoints == [] {
        return None;
      }
      var chosen := NextInRotation(endpoints, lastInspectedEndpoint);
      lastInspectedEndpoint := Some(chosen);
      return Some(chosen);
    }

    // ---------- expiry and re-signing ----------

    /** The nested loop that expiry and re-signing share, record by record. */
    method RetireLoop(kind: Retirement, tip: u64, endpoint: string, now: Date)
      modifies this
      ensures Value() == M.Retire(old(Value()), kind, tip, endpoint, now)
    {
      ghost var start := batches;
      ghost var goal := RetireBatches(kind, tip, endpoint, batches);
      ghost var before := receipts;
      MixedEnds(goal, start);
      var k := 0;
      while k < |batches|
        invariant k <= |start| == |batches|
        invariant batches == Mixed(goal, start, k)
        invariant receipts + BatchReceipts(kind, tip, endpoint, now, start[k..]) ==
                  before + BatchReceipts(kind, tip, endpoint, now, start)
        invariant Value() == old(Value()).(batches := batches, receipts := receipts)
      {
        MixedStep(goal, start, k);
        assert start[k..][0] == start[k] && start[k..][1..] == start[k + 1..];
        if batches[k].lightwalletdUrl == endpoint {
          RetireOne(kind, tip, endpoint, now, k);
        }
        k := k + 1;
      }
      assert start[k..] == [];
    }

    method RetireOne(kind: Retirement, tip: u64, endpoint: string, now: Date, k: nat)
      requires k < |batches| && batches[k].lightwalletdUrl == endpoint
      modifies this`batches, this`receipts
      ensures batches == old(batches)[k := RetireBatch(kind, tip, endpoint, old(batches)[k])]
      ensures receipts == old(receipts) + ItemReceipts(kind, tip, now, old(batches)[k], old(batches)[k].items)
    {
      ghost var b := batches[k];
      var foundAny := RetireRecords(kind, tip, now, k);
      if foundAny {
        batches := batches[k := batches[k].(armedAt := None, nextProofHeight := None)];
      }
    }

    method RetireRecords(kind: Retirement, tip: u64, now: Date, k: nat) returns (foundAny: bool)
      requires k < |batches|
      modifies this`batches, this`receipts
      ensures batches == old(batches)[k := old(batches)[k].(items := RetireItems(kind, tip, old(batches)[k].items))]
      ensures receipts == old(receipts) + ItemReceipts(kind, tip, now, old(batches)[k], old(batches)[k].items)
      ensures foundAny <==> HasRetiring(kind, tip, old(batches)[k].items)
    {
      var b := batches[k];
      ghost var goal := RetireItems(kind, tip, b.items);
      ghost var made: seq<Receipt> := [];
      foundAny := false;
      MixedEnds(goal, b.items);
      assert b.items[0..] == b.items;
      var m := 0;
      while m < |batches[k].items|
        invariant m <= |b.items| && k < |batches|
        invariant batches == old(batches)[k := b.(items := Mixed(goal, b.items, m))]
        invariant receipts == old(receipts) + made
        invariant made + ItemReceipts(kind, tip, now, b, b.items[m..]) == ItemReceipts(kind, tip, now, b, b.items)
        invariant foundAny <==> made != []
      {
        MixedStep(goal, b.items, m);
        ItemReceiptsStep(kind, tip, now, b, b.items, m, made);
        var i := batches[k].items[m];
        if Retires(kind, tip, i) {
          foundAny := true;
          SetItem(Place(k, m), i.(status := StatusOf(RetiredOutcome(kind))));
          var r := MakeReceipt(batches[k], batches[k].items[m], RetiredOutcome(kind), tip, None, RetiredMessage(kind), [], now);
          assert r == RetireReceipt(kind, tip, now, b, i);
          receipts := receipts + [r];
          made := made + [r];
        }
        m := m + 1;
      }
      assert made + [] == made;
      ReceiptsMeanRetiring(kind, tip, now, b, b.items);
    }

    method ExpireItems(tip: u64, endpoint: string, now: Date)
      modifies this
      ensures Value() == M.ExpireItems(old(Value()), tip, endpoint, now)
    {
      RetireLoop(Expiry, tip, endpoint, now);
    }

    method MarkDueItemsNeedingResign(tip: u64, endpoint: string, now: Date)
      modifies this
      ensures Value() == M.MarkDueNeedingResign(old(Value()), tip, endpoint, now)
    {
      var canonical := CanonicalExpiry(tip);
      if canonical.None? {
        return;
      }
      RetireLoop(Resign(canonical.value), tip, endpoint, now);
    }

    // ---------- submission ----------

    method SelectDue(tip: u64, endpoint: Option<string>, now: Date) returns (selection: Option<Selection>)
      modifies this`lastAttemptedScopeKey
      ensures selection == M.SelectDue(old(Value()), tip, endpoint, now).selection
      ensures Value() == M.SelectDue(old(Value()), tip, endpoint, now).snapshot
    {
      var candidates := Candidates(Value(), tip, endpoint, now);
      if candidates == [] {
        assert M.Scopes(Value(), tip, endpoint, now) == [] by {
          var scopes := M.Scopes(Value(), tip, endpoint, now);
          assert forall x :: x in scopes ==> x in ScopeKeys([]);
          assert forall j :: 0 <= j < |scopes| ==> scopes[j] in ScopeKeys([]);
        }
        return None;
      }
      var scopes := SortedSet(ScopeKeys(candidates));
      assert candidates[0] in candidates && candidates[0].ScopeKey() in scopes;
      var scope := NextInRotation(scopes, lastAttemptedScopeKey);
      var k := FindScope(candidates, scope);
      var b := candidates[k];
      assert b in candidates;
      var at := FirstDue(b.items, tip, now);
      lastAttemptedScopeKey := Some(scope);
      return Some(Selection(b.batchId, b.accountUuid, b.ScopeKey(), b.lightwalletdUrl, b.items[at.value]));
    }

    method BeginSubmission(itemId: string, attemptId: string, now: Date) returns (error: Option<OutboxError>)
      modifies this
      ensures Yields(M.BeginSubmission(old(Value()), itemId, attemptId, now), error, Value())
    {
      var place := Locate(batches, itemId);
      if place.None? { return Some(ItemNotFound); }
      var p := place.value;
      var i := batches[p.batch].items[p.item];
      if !i.status.Armed? { return Some(InvalidTransition); }
      SetItem(p, i.(status := Submitting, attemptId := Some(attemptId), attemptStartedAt := Some(now)));
      return None;
    }

    /** The unit-slot walk over the overdue peers' expiries, soonest first. */
    method ValidateReschedulingAfterAcceptance(itemId: string, tip: u64) returns (error: Option<OutboxError>)
      ensures match M.ValidateRescheduling(Value(), itemId, tip)
              case Ok(_) => error.None?
              case Err(e) => error == Some(e)
    {
      var place := Locate(batches, itemId);
      if place.None? { return Some(ItemNotFound); }
      var items := batches[place.value.batch].items;
      var expiries := SortHeights(ExpiriesOf(items, OverdueIndexes(items, itemId, tip, 0)));
      var next: nat := tip;
      var k := 0;
      while k < |expiries|
        invariant k <= |expiries|
        invariant Fits(tip, expiries) <==> Fits(next, expiries[k..])
      {
        assert expiries[k..][1..] == expiries[k + 1..];
        var candidate := next + 1;
        if !(candidate <= U64_MAX && candidate < expiries[k]) {
          return Some(InvalidSchedule);
        }
        next := candidate;
        k := k + 1;
      }
      return None;
    }

    method RecordUncertain(itemId: string, message: string, now: Date) returns (error: Option<OutboxError>)
      modifies this
      ensures Yields(M.RecordUncertain(old(Value()), itemId, message, now), error, Value())
    {
      var place := Locate(batches, itemId);
      if place.None? { return Some(ItemNotFound); }
      var p := place.value;
      var i := batches[p.batch].items[p.item];
      if !i.status.Submitting? { return Some(InvalidTransition); }
      i := i.(status := Armed, attemptCount := i.attemptCount + 1);
      i := i.(nextAttemptAt := Some(now + RetryDelay(i.attemptCount)), lastError := Some(message),
              attemptId := None, attemptStartedAt := None);
      SetItem(p, i);
      return None;
    }

    method RecordCancelledBeforeSubmission(itemId: string, message: string) returns (error: Option<OutboxError>)
      modifies this
      ensures Yields(M.RecordCancelled(old(Value()), itemId, message), error, Value())
    {
      var place := Locate(batches, itemId);
      if place.None? { return Some(ItemNotFound); }
      var p := place.value;
      var i := batches[p.batch].items[p.item];
      if !i.status.Submitting? { return Some(InvalidTransition); }
      SetItem(p, i.(status := Armed, nextAttemptAt := None, lastError := Some(message), attemptId := None,
                    attemptStartedAt := None));
      return None;
    }

    /** Gives each overdue armed peer a new height, soonest expiry first. */
    method RescheduleOverdueItems(h: Hasher, k: nat, itemId: string, tip: u64, random: Random)
      returns (updates: seq<ScheduleUpdate>, error: Option<OutboxError>)
      requires k < |batches|
      modifies this`batches
      ensures var b := old(batches)[k];
              match M.Reschedule(h, b.items, itemId, tip, b.timingMeanBlocks, b.timingMaxBlocks, random)
              case Ok(r) => error.None? && updates == r.updates && batches == old(batches)[k := b.(items := r.items)]
              case Err(e) => error == Some(e)
    {
      updates := [];
      var b := batches[k];
      var mean, maxBlocks := b.timingMeanBlocks, b.timingMaxBlocks;
      if !(0 < mean <= maxBlocks) {
        return [], Some(InvalidSchedule);
      }
      var order := RescheduleOrder(b.items, itemId, tip, random);
      var failed;
      updates, failed := SpreadLoop(h, k, order, tip, maxBlocks, random);
      if failed { return updates, Some(InvalidSchedule); }
      return updates, None;
    }

    method NextElapsed(tip: u64, maxBlocks: u64, expiry: u64, remaining: nat, draw: nat, elapsed: u64) returns (r: Option<u64>)
      requires maxBlocks > 0
      ensures r == Advance(tip, maxBlocks, expiry, remaining, draw, elapsed)
    {
      if expiry <= remaining + 1 {
        return None;
      }
      var latest: u64 := expiry - remaining - 1;
      var current := SaturatingAdd(tip, elapsed);
      if latest <= current {
        return None;
      }
      var bounded: u64 := if maxBlocks < latest - current then maxBlocks else latest - current;
      return Some(SaturatingAdd(elapsed, SampleDelay(draw, bounded)));
    }

    method SpreadLoop(h: Hasher, k: nat, order: seq<nat>, tip: u64, maxBlocks: u64, random: Random)
      returns (updates: seq<ScheduleUpdate>, failed: bool)
      requires k < |batches| && maxBlocks > 0 && forall j :: 0 <= j < |order| ==> order[j] < |batches[k].items|
      modifies this`batches
      ensures var b := old(batches)[k];
              match Plan(tip, maxBlocks, ExpiriesOf(b.items, order), random.delays, 0, 0)
              case None => failed
              case Some(heights) =>
                && !failed && updates == Updates(b.items, order, heights, tip)
                && batches == old(batches)[k := b.(items := Respread(h, b.items, order, heights, tip, |order|))]
    {
      var b := batches[k];
      updates := [];
      ghost var es := ExpiriesOf(b.items, order);
      ghost var plan := Plan(tip, maxBlocks, es, random.delays, 0, 0);
      ghost var heights: seq<u64> := [];
      assert plan.Some? ==> heights + plan.value == plan.value;
      var elapsed: u64 := 0;
      var n := 0;
      while n < |order|
        invariant n <= |order| == |es| && |heights| == n
        invariant k < |batches| && batches == old(batches)[k := b.(items := Respread(h, b.items, order, heights, tip, n))]
        invariant OnPlan(plan, heights, Plan(tip, maxBlocks, es, random.delays, n, elapsed))
        invariant updates == PartialUpdates(b.items, order, heights, tip, n)
      {
        var at := order[n];
        var i := batches[k].items[at];
        RespreadKeepsIdentity(h, b.items, order, heights, tip, n, at);
        var step := NextElapsed(tip, maxBlocks, i.expiryHeight, |order| - n - 1, random.delays(n), elapsed);
        if step.None? {
          return updates, true;
        }
        var scheduled := SaturatingAdd(tip, step.value);
        PlanAdvances(plan, heights, tip, maxBlocks, es, random.delays, n, elapsed, step.value);
        elapsed := step.value;
        RespreadExtends(h, b.items, order, heights, scheduled, tip, n);
        UpdatesExtend(b.items, order, heights, scheduled, tip, n);
        SetItem(Place(k, at), ReplacingSchedule(h, i, scheduled, tip));
        updates := updates + [ScheduleUpdate(batches[k].items[at].itemId, scheduled, tip)];
        heights := heights + [scheduled];
        n := n + 1;
      }
      assert heights + [] == heights;
      AllUpdates(b.items, order, heights, tip);
      return updates, false;
    }

    method RecordAccepted(h: Hasher, itemId: string, equivalent: bool, tip: u64, response: Response, now: Date, random: Random)
      returns (error: Option<OutboxError>)
      modifies this
      ensures Yields(M.RecordAccepted(h, old(Value()), itemId, equivalent, tip, response, now, random), error, Value())
    {
      var place := Locate(batches, itemId);
      if place.None? { return Some(ItemNotFound); }
      var p := place.value;
      var i := batches[p.batch].items[p.item];
      if !i.status.Submitting? { return Some(InvalidTransition); }
      SetItem(p, i.(status := AcceptedAwaiting, attemptId := None, attemptStartedAt := None, nextAttemptAt := None));
      AcceptanceUnfolds(h, old(Value()), itemId, equivalent, tip, response, now, random, p, batches[p.batch]);
      error := FinishAccepted(h, p, itemId, equivalent, tip, response, now, random);
    }

    /** The rest of an acceptance, once the record itself is marked. */
    method FinishAccepted(h: Hasher, p: Place, itemId: string, equivalent: bool, tip: u64, response: Response, now: Date, random: Random)
      returns (error: Option<OutboxError>)
      requires p.batch < |batches| && p.item < |batches[p.batch].items|
      modifies this`batches, this`receipts
      ensures var done := old(batches)[p.batch];
              match M.Reschedule(h, done.items, itemId, tip, done.timingMeanBlocks, done.timingMaxBlocks, random)
              case Err(e) => error == Some(e)
              case Ok(r) =>
                var b := done.(items := r.items);
                && error.None? && batches == old(batches)[p.batch := b]
                && receipts == old(receipts) + [MakeReceipt(b, b.items[p.item],
                     if equivalent then WasAcceptedEquivalent else WasAccepted, tip, Some(response.code),
                     Some(response.message), r.updates, now)]
    {
      var updates, failed := RescheduleOverdueItems(h, p.batch, itemId, tip, random);
      if failed.Some? { return failed; }
      var b := batches[p.batch];
      receipts := receipts + [MakeReceipt(b, b.items[p.item], if equivalent then WasAcceptedEquivalent else WasAccepted,
                                          tip, Some(response.code), Some(response.message), updates, now)];
      return None;
    }

    method RecordRejected(itemId: string, tip: u64, response: Response, now: Date) returns (error: Option<OutboxError>)
      modifies this
      ensures Yields(M.RecordRejected(old(Value()), itemId, tip, response, now), error, Value())
    {
      var place := Locate(batches, itemId);
      if place.None? { return Some(ItemNotFound); }
      var p := place.value;
      var i := batches[p.batch].items[p.item];
      if !i.status.Submitting? { return Some(InvalidTransition); }
      SetItem(p, i.(status := RejectedAwaiting, attemptId := None, attemptStartedAt := None, nextAttemptAt := None));
      batches := batches[p.batch := batches[p.batch].(armedAt := None, nextProofHeight := None)];
      var b := batches[p.batch];
      receipts := receipts + [MakeReceipt(b, b.items[p.item], WasRejected, tip, Some(response.code),
                                          Some(response.message), [], now)];
      return None;
    }

    // ---------- removal ----------

    method AcknowledgeReceipts(ids: set<string>)
      modifies this
      ensures Value() == M.AcknowledgeReceipts(old(Value()), ids)
    {
      var removable := RemovableBatches(receipts, ids);
      var gone := AcknowledgedItems(receipts, ids);
      receipts := UnacknowledgedReceipts(receipts, ids);
      batches := WithoutBatches(batches, removable);
      StripLoop(gone);
      batches := Filter(batches, Retained);
    }

    method StripLoop(gone: set<string>)
      modifies this`batches
      ensures batches == StripItems(old(batches), gone)
    {
      ghost var goal := StripItems(batches, gone);
      MixedEnds(goal, batches);
      var k := 0;
      while k < |batches|
        invariant k <= |goal| == |batches| == |old(batches)|
        invariant batches == Mixed(goal, old(batches), k)
      {
        MixedStep(goal, old(batches), k);
        batches := batches[k := batches[k].(items := WithoutItems(batches[k].items, gone))];
        k := k + 1;
      }
    }

    method DiscardBatch(batchId: string) returns (found: bool, error: Option<OutboxError>)
      modifies this
      ensures match M.DiscardBatch(old(Value()), batchId)
              case Ok(r) => error.None? && found == r.found && Value() == r.snapshot
              case Err(e) => error == Some(e)
    {
      var k := FindBatch(batches, batchId);
      if k == |batches| { return false, None; }
      if HasDeliveryState(batches[k].items) || exists r :: r in receipts && r.batchId == batchId {
        return false, Some(ConflictingBatch);
      }
      batches := batches[..k] + batches[k + 1..];
      return true, None;
    }

    method Revoke(network: string, accountUuid: string)
      modifies this
      ensures Value() == M.Revoke(old(Value()), network, accountUuid)
    {
      var gone := ScopeBatchIds(batches, network, accountUuid);
      batches := WithoutBatches(batches, gone);
      receipts := ReceiptsOfOthers(receipts, gone);
      announced := AnnouncedOfOthers(announced, network + ":" + accountUuid + ":");
      if lastAttemptedScopeKey == Some(network + ":" + accountUuid) {
        lastAttemptedScopeKey := None;
      }
    }

    // ---------- announcements ----------

    method MarkProofReadyIfNeeded(tip: u64, endpoint: string, now: Date)
      modifies this`batches
      ensures Value() == M.MarkProofReady(old(Value()), tip, endpoint, now)
    {
      var c := FirstMin(batches, (b: Batch) => ProofCandidate(b, tip, endpoint), ProofKey);
      if c.None? { return; }
      var k := FindBatch(batches, batches[c.value].batchId);
      if k == |batches| { return; }
      batches := batches[k := batches[k].(proofPendingAt := OrElse(batches[k].proofPendingAt, now))];
    }

    method RecordVerifiedProofReadiness(network: string, accountUuid: string, runId: string, now: Date) returns (matched: bool)
      modifies this`batches
      ensures Value() == M.RecordVerifiedProof(old(Value()), network, accountUuid, runId, now)
      ensures matched <==> exists b :: b in old(batches) && RunBatch(b, network, accountUuid, runId)
    {
      var c := FirstMin(batches, (b: Batch) => RunBatch(b, network, accountUuid, runId), ProofKey);
      if c.None? { return false; }
      var b := batches[c.value];
      assert b in batches;
      if b.proofNotifiedAt.None? && b.proofPendingAt.None? {
        batches := batches[c.value := b.(proofPendingAt := Some(now))];
      }
      return true;
    }

    method AcknowledgeProofReadyNotification(batchId: string, now: Date) returns (error: Option<OutboxError>)
      modifies this`batches
      ensures Yields(M.AcknowledgeProof(old(Value()), batchId, now), error, Value())
    {
      var k := FindBatch(batches, batchId);
      if k == |batches| { return Some(BatchNotFound); }
      if batches[k].proofPendingAt.None? { return Some(InvalidTransition); }
      batches := batches[k := batches[k].(proofPendingAt := None, proofNotifiedAt := Some(now))];
      return None;
    }

    method MarkUnverifiedProofReadyNoticeIfNeeded(batchId: string, now: Date)
      modifies this`batches
      ensures Value() == M.MarkHeightNotice(old(Value()), batchId, now)
    {
      var k := FindBatch(batches, batchId);
      if k == |batches| { return; }
      var b := batches[k];
      if b.armedAt.None? || b.nextProofHeight.None? || b.proofNotifiedAt.Some? || b.proofPendingAt.Some?
         || b.heightNoticePendingAt.Some? || b.heightNoticedAt.Some? { return; }
      batches := batches[k := b.(heightNoticePendingAt := Some(now))];
    }

    method AcknowledgeUnverifiedProofReadyNotice(batchId: string, now: Date) returns (error: Option<OutboxError>)
      modifies this`batches
      ensures Yields(M.AcknowledgeHeightNotice(old(Value()), batchId, now), error, Value())
    {
      var k := FindBatch(batches, batchId);
      if k == |batches| { return Some(BatchNotFound); }
      if batches[k].heightNoticePendingAt.None? { return Some(InvalidTransition); }
      batches := batches[k := batches[k].(heightNoticePendingAt := None, heightNoticedAt := Some(now))];
      return None;
    }

    method MarkBroadcastCompleteIfNeeded(batchId: string, now: Date)
      modifies this`batches
      ensures Value() == M.MarkBroadcastComplete(old(Value()), batchId, now)
    {
      var k := FindBatch(batches, batchId);
      if k == |batches| { return; }
      var b := batches[k];
      if b.nextProofHeight.None? && b.completeNotifiedAt.None? && batchId !in announced && b.items != []
         && forall i :: i in b.items ==> i.status.AcceptedAwaiting?
      {
        batches := batches[k := b.(completePendingAt := OrElse(b.completePendingAt, now))];
      }
    }

    method AcknowledgeBroadcastCompleteNotification(batchId: string, now: Date) returns (error: Option<OutboxError>)
      modifies this
      ensures Yields(M.AcknowledgeBroadcastComplete(old(Value()), batchId, now), error, Value())
    {
      var k := FindBatch(batches, batchId);
      if k == |batches| { return Some(BatchNotFound); }
      if batches[k].completePendingAt.None? { return Some(InvalidTransition); }
      batches := batches[k := batches[k].(completePendingAt := None, completeNotifiedAt := Some(now))];
      if batchId !in announced {
        announced := announced + [batchId];
      }
      if batches[k].items == [] && batches[k].nextProofHeight.None? {
        batches := batches[..k] + batches[k + 1..];
        assert batches == old(batches)[..k] + old(batches)[k + 1..];
      }
      return None;
    }
  }

  /** `after` up to `m`, `before` from there: a list half-way through an in-place pass. */
  ghost function Mixed<T>(after: seq<T>, before: seq<T>, m: nat): seq<T>
    requires |after| == |before| && m <= |before|
  {
    after[..m] + before[m..]
  }

  lemma MixedEnds<T>(after: seq<T>, before: seq<T>)
    requires |after| == |before|
    ensures Mixed(after, before, 0) == before && Mixed(after, before, |before|) == after
  {
  }

  lemma MixedStep<T>(after: seq<T>, before: seq<T>, m: nat)
    requires |after| == |before| && m < |before|
    ensures |Mixed(after, before, m)| == |before| && Mixed(after, before, m)[m] == before[m]
    ensures Mixed(after, before, m)[m := after[m]] == Mixed(after, before, m + 1)
    ensures after[m] == before[m] ==> Mixed(after, before, m + 1) == Mixed(after, before, m)
  {
  }

  /** What is left of the plan continues the heights given so far. */
  ghost predicate OnPlan(plan: Option<seq<u64>>, heights: seq<u64>, rest: Option<seq<u64>>) {
    if rest.None? then plan.None? else plan == Some(heights + rest.value)
  }

  lemma PlanAdvances(plan: Option<seq<u64>>, heights: seq<u64>, tip: u64, maxBlocks: u64, es: seq<u64>, delays: nat -> nat,
                     n: nat, elapsed: u64, elapsed': u64)
    requires n < |es| && maxBlocks > 0
    requires OnPlan(plan, heights, Plan(tip, maxBlocks, es, delays, n, elapsed))
    requires Advance(tip, maxBlocks, es[n], |es| - n - 1, delays(n), elapsed) == Some(elapsed')
    ensures OnPlan(plan, heights + [SaturatingAdd(tip, elapsed')], Plan(tip, maxBlocks, es, delays, n + 1, elapsed'))
  {
    var rest := Plan(tip, maxBlocks, es, delays, n + 1, elapsed');
    if rest.Some? {
      assert heights + ([SaturatingAdd(tip, elapsed')] + rest.value) == heights + [SaturatingAdd(tip, elapsed')] + rest.value;
    }
  }

  ghost function PartialUpdates(items: seq<Item>, order: seq<nat>, heights: seq<u64>, tip: u64, n: nat): seq<ScheduleUpdate>
    requires n <= |order| && n <= |heights| && forall j :: 0 <= j < |order| ==> order[j] < |items|
  {
    seq(n, j requires 0 <= j < n => ScheduleUpdate(items[order[j]].itemId, heights[j], tip))
  }

  lemma UpdatesExtend(items: seq<Item>, order: seq<nat>, heights: seq<u64>, next: u64, tip: u64, n: nat)
    requires n < |order| && n == |heights| && forall j :: 0 <= j < |order| ==> order[j] < |items|
    ensures PartialUpdates(items, order, heights + [next], tip, n + 1) ==
            PartialUpdates(items, order, heights, tip, n) + [ScheduleUpdate(items[order[n]].itemId, next, tip)]
  {
  }

  lemma AllUpdates(items: seq<Item>, order: seq<nat>, heights: seq<u64>, tip: u64)
    requires |heights| == |order| && forall j :: 0 <= j < |order| ==> order[j] < |items|
    ensures PartialUpdates(items, order, heights, tip, |order|) == Updates(items, order, heights, tip)
  {
  }

  lemma {:induction false} RespreadKeepsIdentity(h: Hasher, items: seq<Item>, order: seq<nat>, heights: seq<u64>, tip: u64, n: nat, x: nat)
    requires n <= |order| && n <= |heights| && x < |items|
    requires forall j :: 0 <= j < |order| ==> order[j] < |items|
    ensures var r := Respread(h, items, order, heights, tip, n);
            r[x].expiryHeight == items[x].expiryHeight && r[x].itemId == items[x].itemId
  {
    if n > 0 {
      RespreadKeepsIdentity(h, items, order, heights, tip, n - 1, x);
    }
  }

  lemma {:induction false} RespreadIgnoresLater(h: Hasher, items: seq<Item>, order: seq<nat>, heights: seq<u64>, more: seq<u64>, tip: u64, n: nat)
    requires n <= |order| && n <= |heights|
    requires forall j :: 0 <= j < |order| ==> order[j] < |items|
    ensures Respread(h, items, order, heights + more, tip, n) == Respread(h, items, order, heights, tip, n)
  {
    if n > 0 {
      RespreadIgnoresLater(h, items, order, heights, more, tip, n - 1);
    }
  }

  lemma RespreadExtends(h: Hasher, items: seq<Item>, order: seq<nat>, heights: seq<u64>, next: u64, tip: u64, n: nat)
    requires n < |order| && n == |heights|
    requires forall j :: 0 <= j < |order| ==> order[j] < |items|
    ensures var r := Respread(h, items, order, heights, tip, n);
            Respread(h, items, order, heights + [next], tip, n + 1) ==
            r[order[n] := ReplacingSchedule(h, r[order[n]], next, tip)]
  {
    RespreadIgnoresLater(h, items, order, heights, [next], tip, n);
  }

  lemma ReceiptsMeanRetiring(kind: Retirement, tip: u64, now: Date, b: Batch, items: seq<Item>)
    ensures ItemReceipts(kind, tip, now, b, items) != [] <==> HasRetiring(kind, tip, items)
  {
    var rs := ItemReceipts(kind, tip, now, b, items);
    assert forall j :: 0 <= j < |rs| ==> rs[j] in rs;
    if HasRetiring(kind, tip, items) {
      var i :| i in items && Retires(kind, tip, i);
      assert RetireReceipt(kind, tip, now, b, i) in rs;
    }
  }

  lemma AcceptanceUnfolds(h: Hasher, s: Snapshot, itemId: string, equivalent: bool, tip: u64, response: Response,
                          now: Date, random: Random, p: Place, done: Batch)
    requires Locate(s.batches, itemId) == Some(p) && s.batches[p.batch].items[p.item].status.Submitting?
    requires var b := s.batches[p.batch];
             done == b.(items := b.items[p.item := b.items[p.item].(status := AcceptedAwaiting, attemptId := None,
                                                                    attemptStartedAt := None, nextAttemptAt := None)])
    ensures M.RecordAccepted(h, s, itemId, equivalent, tip, response, now, random) ==
              match M.Reschedule(h, done.items, itemId, tip, done.timingMeanBlocks, done.timingMaxBlocks, random)
              case Err(e) => Err(e)
              case Ok(r) =>
                var b' := done.(items := r.items);
                Ok(s.(batches := s.batches[p.batch := b'],
                      receipts := s.receipts + [MakeReceipt(b', b'.items[p.item],
                        if equivalent then WasAcceptedEquivalent else WasAccepted, tip, Some(response.code),
                        Some(response.message), r.updates, now)]))
  {
  }

  lemma ItemReceiptsStep(kind: Retirement, tip: u64, now: Date, b: Batch, items: seq<Item>, m: nat, made: seq<Receipt>)
    requires m < |items|
    ensures var here := if Retires(kind, tip, items[m]) then [RetireReceipt(kind, tip, now, b, items[m])] else [];
            made + ItemReceipts(kind, tip, now, b, items[m..]) == (made + here) + ItemReceipts(kind, tip, now, b, items[m + 1..])
  {
    assert items[m..][0] == items[m] && items[m..][1..] == items[m + 1..];
  }

  lemma NewItemsGrow(existing: seq<Item>, incoming: seq<Item>, n: nat)
    requires n < |incoming|
    ensures NewItems(existing, incoming[..n + 1]) ==
            if HasId(existing, incoming[n].itemId) then NewItems(existing, incoming[..n])
            else NewItems(existing, incoming[..n]) + [incoming[n]]
  {
    assert incoming[..n + 1] == incoming[..n] + [incoming[n]];
    FilterConcat(incoming[..n], incoming[n], (i: Item) => !HasId(existing, i.itemId));
  }

  lemma {:induction false} FilterConcat(xs: seq<Item>, x: Item, keep: Item -> bool)
    ensures Filter(xs + [x], keep) == Filter(xs, keep) + (if keep(x) then [x] else [])
  {
    if xs == [] {
      assert [] + [x] == [x];
    } else {
      assert (xs + [x])[1..] == xs[1..] + [x];
      FilterConcat(xs[1..], x, keep);
    }
  }
}
