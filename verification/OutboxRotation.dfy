/** Turn-taking: which endpoint is inspected and which account sends next. */
module OutboxRotation {
  import opened Common
  import opened Text
  import opened Heights
  import opened OutboxModel
  import opened OutboxInvariants

  // ---------- the endpoint rotation ----------

  /** Another batch at the same endpoint has work to do there. */
  ghost predicate SharedEndpoint(s: Snapshot, b: Batch) {
    exists c :: c in s.batches && c != b && c.lightwalletdUrl == b.lightwalletdUrl && InRotation(c)
  }

  /** The endpoint of an armed batch with a verified announcement still pending is in the
      rotation exactly when the batch watches a proof height, has an armed item, or shares the
      endpoint with a batch in the rotation. */
  lemma PendingVerifiedKeepsEndpoint(h: Hasher, s: Snapshot, b: Batch)
    requires Valid(h, s) && b in s.batches && b.armedAt.Some? && b.proofPendingAt.Some?
    ensures b.lightwalletdUrl in Endpoints(s) <==>
              b.nextProofHeight.Some? || HasArmed(b.items) || SharedEndpoint(s, b)
  {
    assert BatchOk(b);
    assert InRotation(b) <==> b.nextProofHeight.Some? || HasArmed(b.items);
    EndpointsAreTheRotation(s, b.lightwalletdUrl);
    if b.lightwalletdUrl in Endpoints(s) {
      var c :| c in s.batches && InRotation(c) && c.lightwalletdUrl == b.lightwalletdUrl;
    }
  }

  lemma EndpointsAreTheRotation(s: Snapshot, url: string)
    ensures url in Endpoints(s) <==> exists b :: b in s.batches && InRotation(b) && b.lightwalletdUrl == url
  {
  }

  /** Consecutive inspections, with any other changes between them that leave the set of
      endpoints and the cursor alone, visit every endpoint exactly once per round. */
  lemma EndpointRotationIsFair(ss: seq<Snapshot>, members: seq<string>)
    requires |ss| == |members| > 0
    requires forall k :: 0 <= k < |ss| ==> Endpoints(ss[k]) == members
    requires forall j, k :: 0 <= j < k < |ss| && k == j + 1 ==> ss[k].lastInspectedEndpoint == NextEndpoint(ss[j]).endpoint
    ensures forall j, k :: 0 <= j < k < |ss| ==> NextEndpoint(ss[j]).endpoint != NextEndpoint(ss[k]).endpoint
    ensures forall url :: url in members ==> exists k :: 0 <= k < |ss| && NextEndpoint(ss[k]).endpoint == Some(url)
  {
    var cursors := seq(|ss|, k requires 0 <= k < |ss| => ss[k].lastInspectedEndpoint);
    forall k | 0 <= k < |ss| ensures NextEndpoint(ss[k]).endpoint == Some(PickAt(members, cursors, k)) {
      assert Endpoints(ss[k]) == members;
    }
    assert StrictlySorted(Endpoints(ss[0]));
    CursorVisitsEachOnce(members, cursors);
    forall url | url in members ensures exists k :: 0 <= k < |ss| && NextEndpoint(ss[k]).endpoint == Some(url) {
      var k :| 0 <= k < |cursors| && PickAt(members, cursors, k) == url;
      assert NextEndpoint(ss[k]).endpoint == Some(url);
    }
  }

  /** The scope a selection would serve, when there is work. */
  function ScopeServed(s: Snapshot, tip: u64, endpoint: Option<string>, now: Date): Option<string> {
    var c := SelectDue(s, tip, endpoint, now);
    if c.selection.None? then None else Some(c.selection.value.scopeKey)
  }

  /** The same for the accounts that take turns in sending: `served` are the scopes of
      consecutive selections while the set of accounts with due work stays the same. */
  lemma ScopeRotationIsFair(ss: seq<Snapshot>, members: seq<string>, tip: u64, endpoint: Option<string>, now: seq<Date>,
                            served: seq<Option<string>>)
    requires |ss| == |members| == |now| == |served| > 0
    requires forall k :: 0 <= k < |ss| ==> Scopes(ss[k], tip, endpoint, now[k]) == members
    requires forall k :: 0 <= k < |ss| ==> served[k] == ScopeServed(ss[k], tip, endpoint, now[k])
    requires forall j, k :: 0 <= j < k < |ss| && k == j + 1 ==> ss[k].lastAttemptedScopeKey == served[j]
    ensures forall j, k :: 0 <= j < k < |served| ==> served[j] != served[k]
    ensures forall scope :: scope in members ==> Some(scope) in served
  {
    var cursors := seq(|ss|, k requires 0 <= k < |ss| => ss[k].lastAttemptedScopeKey);
    forall k | 0 <= k < |ss| ensures served[k] == Some(PickAt(members, cursors, k)) {
      ServesNextInRotation(ss[k], tip, endpoint, now[k]);
    }
    assert StrictlySorted(Scopes(ss[0], tip, endpoint, now[0]));
    CursorVisitsEachOnce(members, cursors);
    forall scope | scope in members ensures Some(scope) in served {
      var k :| 0 <= k < |cursors| && PickAt(members, cursors, k) == scope;
      assert served[k] == Some(scope);
    }
  }

  lemma ServesNextInRotation(s: Snapshot, tip: u64, endpoint: Option<string>, now: Date)
    requires Scopes(s, tip, endpoint, now) != []
    ensures ScopeServed(s, tip, endpoint, now) == Some(NextInRotation(Scopes(s, tip, endpoint, now), s.lastAttemptedScopeKey))
  {
    var scope := NextInRotation(Scopes(s, tip, endpoint, now), s.lastAttemptedScopeKey);
    var candidates := Candidates(s, tip, endpoint, now);
    assert candidates[FindScope(candidates, scope)].ScopeKey() == scope;
  }

  /** The selection: a due record of an armed batch at the endpoint, the soonest scheduled
      one of its batch; and there is none exactly when no armed batch has a due record. */
  ghost predicate IsSelection(s: Snapshot, tip: u64, endpoint: Option<string>, now: Date, sel: Selection, b: Batch) {
    && Stored(s, b, sel.item) && Candidate(b, tip, endpoint, now) && Due(sel.item, tip, now)
    && sel.batchId == b.batchId && sel.accountUuid == b.accountUuid && sel.scopeKey == b.ScopeKey()
    && sel.lightwalletdUrl == b.lightwalletdUrl
    && (forall i :: i in b.items && Due(i, tip, now) ==> !KeyLess(DueKey(i), DueKey(sel.item)))
  }

  lemma SelectDueIsComplete(s: Snapshot, tip: u64, endpoint: Option<string>, now: Date)
    ensures var c := SelectDue(s, tip, endpoint, now);
            && (c.selection.None? <==> forall b :: b in s.batches ==> !Candidate(b, tip, endpoint, now))
            && (c.selection.Some? ==> exists b :: IsSelection(s, tip, endpoint, now, c.selection.value, b))
            && c.snapshot == s.(lastAttemptedScopeKey := c.snapshot.lastAttemptedScopeKey)
  {
    var c := SelectDue(s, tip, endpoint, now);
    var candidates := Candidates(s, tip, endpoint, now);
    var scopes := Scopes(s, tip, endpoint, now);
    if scopes == [] {
      forall b | b in s.batches ensures !Candidate(b, tip, endpoint, now) {
        assert b in candidates ==> b.ScopeKey() in scopes;
      }
    } else {
      var scope := NextInRotation(scopes, s.lastAttemptedScopeKey);
      var b := candidates[FindScope(candidates, scope)];
      assert b in candidates;
      var at := FirstDue(b.items, tip, now).value;
      assert b.items[at] in b.items;
      assert IsSelection(s, tip, endpoint, now, c.selection.value, b);
    }
  }

  /** Below the announced next height a wake at this endpoint finds no transaction to send
      and no proof to announce; with none announced, it never does. */
  lemma NothingToDoBefore(s: Snapshot, endpoint: string, tip: u64, now: Date)
    requires NextActionHeight(s, endpoint).None? || tip < NextActionHeight(s, endpoint).value
    ensures SelectDue(s, tip, Some(endpoint), now).selection.None?
    ensures forall b :: b in s.batches && b.proofPendingAt.None? ==> !ProofCandidate(b, tip, endpoint)
  {
    var heights := ActionHeights(s.batches, endpoint);
    forall b | b in s.batches ensures !Candidate(b, tip, Some(endpoint), now) {
      if b.lightwalletdUrl == endpoint {
        forall i | i in b.items ensures !Due(i, tip, now) {
          assert i.status.Armed? ==> i.scheduledHeight in heights;
        }
      }
    }
    SelectDueIsComplete(s, tip, Some(endpoint), now);
    forall b | b in s.batches && b.proofPendingAt.None? ensures !ProofCandidate(b, tip, endpoint) {
      assert b.lightwalletdUrl == endpoint && WatchesProof(b) ==> b.nextProofHeight.value in heights;
    }
  }
}
