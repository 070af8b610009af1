/** Moving secrets to the this-device-only protection class through a staging service,
    one keychain call at a time, any of which may fail or be the last before a crash. */
module Keychain {
  import opened Common
  import opened Text

  datatype Protection = Target | Legacy | OtherClass(name: string)

  datatype KeyItem = KeyItem(account: string, data: seq<byte>, protection: Protection, attributes: map<string, string>)

  datatype Service = Canonical | Staging

  datatype KeyError =
    | DuplicateAccount(account: string) | ConflictingCopies(account: string)
    | UnexpectedAccessibility(account: string) | KeychainFailure

  /** How one keychain call ends: it may also take effect and still report an error. */
  datatype Fault = Works | FailsBefore | FailsAfter

  datatype Contents = Contents(canonical: seq<KeyItem>, staging: seq<KeyItem>)

  function In(st: Contents, service: Service): seq<KeyItem> {
    if service.Canonical? then st.canonical else st.staging
  }

  function With(st: Contents, service: Service, items: seq<KeyItem>): Contents {
    if service.Canonical? then st.(canonical := items) else st.(staging := items)
  }

  function OfAccount(items: seq<KeyItem>, account: string): seq<KeyItem> {
    Filter(items, (i: KeyItem) => i.account == account)
  }

  function NotOfAccount(items: seq<KeyItem>, account: string): seq<KeyItem> {
    Filter(items, (i: KeyItem) => i.account != account)
  }

  lemma {:induction false} OfAccountAppend(items: seq<KeyItem>, x: KeyItem, account: string)
    ensures OfAccount(items + [x], account) ==
            if x.account == account then OfAccount(items, account) + [x] else OfAccount(items, account)
  {
    var keep := (i: KeyItem) => i.account == account;
    FilterAppend(items, x, keep);
    assert OfAccount(items + [x], account) == Filter(items + [x], keep);
  }

  lemma {:induction false} FilterAppend(items: seq<KeyItem>, x: KeyItem, keep: KeyItem -> bool)
    ensures Filter(items + [x], keep) == if keep(x) then Filter(items, keep) + [x] else Filter(items, keep)
  {
    if items == [] {
      assert [] + [x] == [x];
    } else {
      assert (items + [x])[1..] == items[1..] + [x];
      FilterAppend(items[1..], x, keep);
    }
  }

  lemma {:induction false} OfAccountWithout(items: seq<KeyItem>, gone: string, account: string)
    ensures OfAccount(NotOfAccount(items, gone), account) == if account == gone then [] else OfAccount(items, account)
  {
    if items != [] {
      OfAccountWithout(items[1..], gone, account);
    }
  }

  function Added(st: Contents, service: Service, item: KeyItem): Contents {
    With(st, service, In(st, service) + [item.(protection := Target)])
  }

  function Removed(st: Contents, service: Service, account: string): Contents {
    With(st, service, NotOfAccount(In(st, service), account))
  }

  // ---------- what must hold ----------

  /** The bytes are stored under the account, in one service or the other. */
  ghost predicate Has(st: Contents, account: string, data: seq<byte>) {
    exists i :: (i in OfAccount(st.canonical, account) || i in OfAccount(st.staging, account)) && i.data == data
  }

  ghost predicate SameElsewhere(st0: Contents, st: Contents, account: string) {
    forall a :: a != account ==>
      OfAccount(st.canonical, a) == OfAccount(st0.canonical, a) && OfAccount(st.staging, a) == OfAccount(st0.staging, a)
  }

  /** An account as an interrupted migration may leave it: at most one copy per service, at
      least one in all, every copy with the original bytes, staged copies protected. */
  ghost predicate RecoverableAt(st: Contents, account: string, data: seq<byte>) {
    var c, s := OfAccount(st.canonical, account), OfAccount(st.staging, account);
    && |c| <= 1 && |s| <= 1 && |c| + |s| >= 1
    && (|c| == 1 ==> c[0].data == data && (c[0].protection.Target? || c[0].protection.Legacy?))
    && (|s| == 1 ==> s[0].data == data && s[0].protection.Target?)
  }

  /** The account is where the migration wants it. */
  ghost predicate SettledAt(st: Contents, account: string) {
    var c := OfAccount(st.canonical, account);
    |c| == 1 && c[0].protection.Target? && OfAccount(st.staging, account) == []
  }

  /** A step of one account's migration, seen from where it began. */
  ghost predicate SafeStep(st0: Contents, st: Contents, account: string) {
    && SameElsewhere(st0, st, account)
    && (forall d :: Has(st0, account, d) ==> Has(st, account, d))
    && (forall d :: RecoverableAt(st0, account, d) ==> RecoverableAt(st, account, d))
  }

  lemma AddAffects(st: Contents, service: Service, item: KeyItem)
    ensures var t := Added(st, service, item);
            && SameElsewhere(st, t, item.account)
            && OfAccount(In(t, service), item.account) == OfAccount(In(st, service), item.account) + [item.(protection := Target)]
            && (service.Canonical? ==> t.staging == st.staging) && (service.Staging? ==> t.canonical == st.canonical)
  {
    forall a {
      OfAccountAppend(In(st, service), item.(protection := Target), a);
    }
  }

  lemma RemoveAffects(st: Contents, service: Service, account: string)
    ensures var t := Removed(st, service, account);
            && SameElsewhere(st, t, account)
            && OfAccount(In(t, service), account) == []
            && (service.Canonical? ==> t.staging == st.staging) && (service.Staging? ==> t.canonical == st.canonical)
  {
    forall a {
      OfAccountWithout(In(st, service), account, a);
    }
  }

  /** The account is recoverable with these bytes and no other account was touched. */
  ghost predicate Tracks(st0: Contents, st: Contents, account: string, data: seq<byte>) {
    SameElsewhere(st0, st, account) && RecoverableAt(st, account, data)
  }

  lemma AddTracks(st0: Contents, st: Contents, service: Service, item: KeyItem, data: seq<byte>)
    requires Tracks(st0, st, item.account, data) && item.data == data
    requires OfAccount(In(st, service), item.account) == []
    ensures Tracks(st0, Added(st, service, item), item.account, data)
    ensures OfAccount(In(Added(st, service, item), service), item.account) == [item.(protection := Target)]
  {
    AddAffects(st, service, item);
    hide OfAccount, Added;
  }

  lemma RemoveTracks(st0: Contents, st: Contents, service: Service, account: string, data: seq<byte>)
    requires Tracks(st0, st, account, data)
    requires OfAccount(In(st, if service.Canonical? then Staging else Canonical), account) != []
    ensures Tracks(st0, Removed(st, service, account), account, data)
    ensures OfAccount(In(Removed(st, service, account), service), account) == []
  {
    RemoveAffects(st, service, account);
    hide OfAccount, Removed;
  }

  lemma TrackedIsSafe(st0: Contents, st: Contents, account: string, data: seq<byte>)
    requires Tracks(st0, st, account, data) && RecoverableAt(st0, account, data)
    ensures SafeStep(st0, st, account)
  {
    hide OfAccount;
    var c, s := OfAccount(st.canonical, account), OfAccount(st.staging, account);
    assert |c| == 1 ==> c[0] in c;
    assert |s| == 1 ==> s[0] in s;
    assert Has(st, account, data);
    forall d | Has(st0, account, d) ensures d == data {
    }
    forall d | RecoverableAt(st0, account, d) ensures d == data {
    }
  }

  // ---------- the keychain ----------

  class KeychainStore {
    var canonical: seq<KeyItem>
    var staging: seq<KeyItem>
    var calls: nat
    const faults: nat -> Fault
    ghost var history: seq<Contents>

    constructor (st: Contents, faults: nat -> Fault)
      ensures Now() == st && Wf() && history == [st] && this.faults == faults
    {
      canonical, staging, calls := st.canonical, st.staging, 0;
      this.faults := faults;
      history := [st];
    }

    function Now(): Contents
      reads this
    {
      Contents(canonical, staging)
    }

    /** `history` lists every state the services have been in; the last is the present one. */
    ghost predicate Wf()
      reads this
    {
      |history| > 0 && history[|history| - 1] == Now()
    }

    /** From here on no call fails. */
    ghost predicate Faultless()
      reads this
    {
      forall n :: n >= calls ==> faults(n).Works?
    }

    method Items(service: Service) returns (r: Result<seq<KeyItem>, KeyError>)
      requires Wf()
      modifies this`calls
      ensures Wf() && calls == old(calls) + 1
      ensures r == if faults(old(calls)).Works? then Ok(In(Now(), service)) else Err(KeychainFailure)
    {
      var fault := faults(calls);
      calls := calls + 1;
      return if fault.Works? then Ok(In(Now(), service)) else Err(KeychainFailure);
    }

    method Add(item: KeyItem, service: Service) returns (error: Option<KeyError>)
      requires Wf()
      modifies this`canonical, this`staging, this`calls, this`history
      ensures Wf() && calls == old(calls) + 1 && history == old(history) + [Now()]
      ensures Now() in {old(Now()), Added(old(Now()), service, item)}
      ensures error.None? ==> Now() == Added(old(Now()), service, item)
      ensures OfAccount(In(old(Now()), service), item.account) == [] && faults(old(calls)).Works? ==> error.None?
    {
      var fault := faults(calls);
      calls := calls + 1;
      var clash := OfAccount(In(Now(), service), item.account) != [];
      if !clash && !fault.FailsBefore? {
        if service.Canonical? {
          canonical := canonical + [item.(protection := Target)];
        } else {
          staging := staging + [item.(protection := Target)];
        }
      }
      history := history + [Now()];
      return if clash || !fault.Works? then Some(KeychainFailure) else None;
    }

    method Delete(service: Service, account: string) returns (error: Option<KeyError>)
      requires Wf()
      modifies this`canonical, this`staging, this`calls, this`history
      ensures Wf() && calls == old(calls) + 1 && history == old(history) + [Now()]
      ensures Now() in {old(Now()), Removed(old(Now()), service, account)}
      ensures error.None? ==> Now() == Removed(old(Now()), service, account)
      ensures faults(old(calls)).Works? ==> error.None?
    {
      var fault := faults(calls);
      calls := calls + 1;
      if !fault.FailsBefore? {
        if service.Canonical? {
          canonical := NotOfAccount(canonical, account);
        } else {
          staging := NotOfAccount(staging, account);
        }
      }
      history := history + [Now()];
      return if fault.Works? then None else Some(KeychainFailure);
    }
  }

  function RequireTarget(i: KeyItem): Option<KeyError> {
    if i.protection.Target? then None else Some(UnexpectedAccessibility(i.account))
  }

  function RequireMatchingData(a: KeyItem, b: KeyItem): Option<KeyError> {
    if a.data == b.data then None else Some(ConflictingCopies(a.account))
  }

  /** Exactly one protected copy with the expected bytes is in the service. */
  ghost predicate Verified(st: Contents, expected: KeyItem, service: Service) {
    var m := OfAccount(In(st, service), expected.account);
    |m| == 1 && m[0].protection.Target? && m[0].data == expected.data
  }

  method Verify(store: KeychainStore, expected: KeyItem, service: Service) returns (error: Option<KeyError>)
    requires store.Wf()
    modifies store`calls
    ensures store.Wf() && store.calls == old(store.calls) + 1
    ensures error.None? ==> Verified(store.Now(), expected, service)
    ensures Verified(store.Now(), expected, service) && store.faults(old(store.calls)).Works? ==> error.None?
  {
    var items := store.Items(service);
    if items.Err? { return Some(items.error); }
    var matches := OfAccount(items.value, expected.account);
    if |matches| != 1 { return Some(ConflictingCopies(expected.account)); }
    error := RequireTarget(matches[0]);
    if error.Some? { return; }
    return RequireMatchingData(expected, matches[0]);
  }

  /** The dictionary by account, or the first account that occurs twice. */
  method IndexedItems(items: seq<KeyItem>) returns (r: Result<map<string, KeyItem>, KeyError>)
    ensures r.Ok? <==> forall a :: |OfAccount(items, a)| <= 1
    ensures r.Ok? ==> forall a :: OfAccount(items, a) == if a in r.value then [r.value[a]] else []
  {
    var index: map<string, KeyItem> := map[];
    var k := 0;
    assert items[..0] == [];
    while k < |items|
      invariant k <= |items|
      invariant forall a :: OfAccount(items[..k], a) == if a in index then [index[a]] else []
    {
      assert items[..k + 1] == items[..k] + [items[k]];
      forall a {
        OfAccountAppend(items[..k], items[k], a);
      }
      if items[k].account in index {
        assert |OfAccount(items[..k + 1], items[k].account)| == 2;
        CountGrows(items, k + 1, items[k].account);
        return Err(DuplicateAccount(items[k].account));
      }
      index := index[items[k].account := items[k]];
      k := k + 1;
    }
    assert items[..k] == items;
    return Ok(index);
  }

  lemma {:induction false} CountGrows(items: seq<KeyItem>, k: nat, account: string)
    requires k <= |items|
    ensures |OfAccount(items[..k], account)| <= |OfAccount(items, account)|
    decreases |items| - k
  {
    if k == |items| {
      assert items[..k] == items;
    } else {
      assert items[..k + 1] == items[..k] + [items[k]];
      OfAccountAppend(items[..k], items[k], account);
      CountGrows(items, k + 1, account);
    }
  }

  /** One copy or none, as the index says. */
  function One(i: Option<KeyItem>): seq<KeyItem> {
    if i.Some? then [i.value] else []
  }

  /** Every state since `from` is tracked. */
  ghost predicate TrackedSince(history: seq<Contents>, from: nat, st0: Contents, account: string, data: seq<byte>) {
    forall k :: from <= k < |history| ==> Tracks(st0, history[k], account, data)
  }

  /** Every state since `from` is a safe step away from `st0`. */
  ghost predicate SafeSince(history: seq<Contents>, from: nat, st0: Contents, account: string) {
    forall k :: from <= k < |history| ==> SafeStep(st0, history[k], account)
  }

  method MigrateAccount(store: KeychainStore, account: string, canonical: Option<KeyItem>, staged: Option<KeyItem>)
    returns (r: Result<bool, KeyError>)
    requires store.Wf()
    requires OfAccount(store.canonical, account) == One(canonical) && OfAccount(store.staging, account) == One(staged)
    modifies store
    ensures store.Wf() && old(store.history) <= store.history && old(store.calls) <= store.calls
    ensures SafeSince(store.history, |old(store.history)|, old(store.Now()), account)
    ensures SafeStep(old(store.Now()), store.Now(), account)
    ensures r.Ok? && (canonical.Some? || staged.Some?) ==> SettledAt(store.Now(), account)
    ensures r.Ok? ==> (r.value <==> if canonical.Some? then canonical.value.protection.Legacy? else staged.Some?)
    ensures old(store.Faultless()) && (exists d :: RecoverableAt(old(store.Now()), account, d)) ==> r.Ok?
  {
    hide OfAccount, SafeStep, Tracks;
    ghost var st0 := store.Now();
    UntouchedIsSafe(st0, account);
    OneIsOfAccount(st0, account, canonical, staged);
    if staged.Some? {
      var wrong := RequireTarget(staged.value);
      if wrong.Some? { return Err(wrong.value); }
    }
    if canonical.None? && staged.None? { return Ok(false); }
    if canonical.Some? && !canonical.value.protection.Target? && !canonical.value.protection.Legacy? {
      return Err(UnexpectedAccessibility(account));
    }
    if canonical.Some? && canonical.value.protection.Target? && staged.None? { return Ok(false); }
    if canonical.Some? && staged.Some? {
      var conflict := RequireMatchingData(canonical.value, staged.value);
      if conflict.Some? { return Err(conflict.value); }
    }
    ghost var data := if canonical.Some? then canonical.value.data else staged.value.data;
    TracksFromStart(st0, account, data);
    if canonical.None? {
      r := RestoreFromStaging(store, account, staged.value, st0);
    } else if canonical.value.protection.Target? {
      r := RetireStaging(store, account, st0, data, false);
    } else {
      r := MoveThroughStaging(store, account, canonical.value, staged.Some?, st0);
    }
    forall k | |old(store.history)| <= k < |store.history| ensures SafeStep(st0, store.history[k], account) {
      TrackedIsSafe(st0, store.history[k], account, data);
    }
    TrackedIsSafe(st0, store.Now(), account, data);
  }

  lemma UntouchedIsSafe(st0: Contents, account: string)
    ensures SafeStep(st0, st0, account)
  {
  }

  lemma OneIsOfAccount(st0: Contents, account: string, canonical: Option<KeyItem>, staged: Option<KeyItem>)
    requires OfAccount(st0.canonical, account) == One(canonical) && OfAccount(st0.staging, account) == One(staged)
    ensures canonical.Some? ==> canonical.value.account == account
    ensures staged.Some? ==> staged.value.account == account
  {
    assert canonical.Some? ==> canonical.value in OfAccount(st0.canonical, account);
    assert staged.Some? ==> staged.value in OfAccount(st0.staging, account);
  }

  lemma TracksFromStart(st0: Contents, account: string, data: seq<byte>)
    requires RecoverableAt(st0, account, data)
    ensures Tracks(st0, st0, account, data)
  {
  }

  /** The last call of every path. */
  method RetireStaging(store: KeychainStore, account: string, ghost st0: Contents, ghost data: seq<byte>, moved: bool)
    returns (r: Result<bool, KeyError>)
    requires store.Wf() && Tracks(st0, store.Now(), account, data)
    requires var c := OfAccount(store.canonical, account); |c| == 1 && c[0].protection.Target?
    modifies store
    ensures store.Wf() && |store.history| == |old(store.history)| + 1 && old(store.history) <= store.history && old(store.calls) <= store.calls
    ensures TrackedSince(store.history, |old(store.history)|, st0, account, data) && Tracks(st0, store.Now(), account, data)
    ensures r.Ok? ==> r.value == moved && SettledAt(store.Now(), account)
    ensures old(store.Faultless()) ==> r.Ok?
  {
    RemoveTracks(st0, store.Now(), Staging, account, data);
    RemoveAffects(store.Now(), Staging, account);
    hide OfAccount, Tracks;
    var error := store.Delete(Staging, account);
    return if error.Some? then Err(error.value) else Ok(moved);
  }

  /** Writes the canonical copy, checks it, and retires the staged one. */
  method WriteCanonical(store: KeychainStore, account: string, item: KeyItem, ghost st0: Contents) returns (r: Result<bool, KeyError>)
    requires store.Wf() && item.account == account && Tracks(st0, store.Now(), account, item.data)
    requires OfAccount(store.canonical, account) == []
    modifies store
    ensures store.Wf() && old(store.history) <= store.history && old(store.calls) <= store.calls
    ensures TrackedSince(store.history, |old(store.history)|, st0, account, item.data) && Tracks(st0, store.Now(), account, item.data)
    ensures r.Ok? ==> r.value && SettledAt(store.Now(), account)
    ensures old(store.Faultless()) ==> r.Ok?
  {
    AddTracks(st0, store.Now(), Canonical, item, item.data);
    hide OfAccount, Tracks, Added;
    var error := store.Add(item, Canonical);
    if error.Some? { return Err(error.value); }
    error := Verify(store, item, Canonical);
    if error.Some? { return Err(error.value); }
    r := RetireStaging(store, account, st0, item.data, true);
  }

  /** Only a staged copy is left: put it back. */
  method RestoreFromStaging(store: KeychainStore, account: string, staged: KeyItem, ghost st0: Contents) returns (r: Result<bool, KeyError>)
    requires store.Wf() && staged.account == account && Tracks(st0, store.Now(), account, staged.data)
    requires OfAccount(store.canonical, account) == []
    modifies store
    ensures store.Wf() && old(store.history) <= store.history && old(store.calls) <= store.calls
    ensures TrackedSince(store.history, |old(store.history)|, st0, account, staged.data) && Tracks(st0, store.Now(), account, staged.data)
    ensures r.Ok? ==> r.value && SettledAt(store.Now(), account)
    ensures old(store.Faultless()) ==> r.Ok?
  {
    r := WriteCanonical(store, account, staged, st0);
  }

  /** A legacy copy: stage and verify it unless already staged, replace it, retire the staging. */
  method MoveThroughStaging(store: KeychainStore, account: string, c: KeyItem, isStaged: bool, ghost st0: Contents)
    returns (r: Result<bool, KeyError>)
    requires store.Wf() && c.account == account && Tracks(st0, store.Now(), account, c.data)
    requires OfAccount(store.canonical, account) == [c]
    requires if isStaged then OfAccount(store.staging, account) != [] else OfAccount(store.staging, account) == []
    modifies store
    ensures store.Wf() && old(store.history) <= store.history && old(store.calls) <= store.calls
    ensures TrackedSince(store.history, |old(store.history)|, st0, account, c.data) && Tracks(st0, store.Now(), account, c.data)
    ensures r.Ok? ==> r.value && SettledAt(store.Now(), account)
    ensures old(store.Faultless()) ==> r.Ok?
  {
    hide OfAccount, Tracks, Added, Removed;
    if !isStaged {
      AddTracks(st0, store.Now(), Staging, c, c.data);
      var failed := store.Add(c, Staging);
      if failed.Some? { return Err(failed.value); }
      failed := Verify(store, c, Staging);
      if failed.Some? { return Err(failed.value); }
    }
    RemoveTracks(st0, store.Now(), Canonical, account, c.data);
    var error := store.Delete(Canonical, account);
    if error.Some? { return Err(error.value); }
    r := WriteCanonical(store, account, c, st0);
  }

  // ---------- the migrator ----------

  /** All bytes that were stored are still stored, under their accounts. */
  ghost predicate NothingLost(st0: Contents, st: Contents) {
    forall a, d :: Has(st0, a, d) ==> Has(st, a, d)
  }

  /** The states an interrupted migration of these originals can be in. */
  ghost predicate Recoverable(st: Contents, originals: map<string, seq<byte>>) {
    && (forall a :: a in originals ==> RecoverableAt(st, a, originals[a]))
    && (forall a :: a !in originals ==> OfAccount(st.canonical, a) == [] && OfAccount(st.staging, a) == [])
  }

  ghost predicate AllSettled(st: Contents) {
    forall a :: OfAccount(st.canonical, a) != [] || OfAccount(st.staging, a) != [] ==> SettledAt(st, a)
  }

  /** Every state since `from` lost nothing and stayed recoverable. */
  ghost predicate KeptSince(history: seq<Contents>, from: nat, st0: Contents) {
    forall k :: from <= k < |history| ==> KeptState(st0, history[k])
  }

  ghost predicate KeptState(st0: Contents, st: Contents) {
    && NothingLost(st0, st)
    && forall originals :: Recoverable(st0, originals) ==> Recoverable(st, originals)
  }

  lemma SafeStepKeeps(st0: Contents, st1: Contents, st2: Contents, account: string)
    requires KeptState(st0, st1) && SafeStep(st1, st2, account)
    requires OfAccount(st1.canonical, account) != [] || OfAccount(st1.staging, account) != []
    ensures KeptState(st0, st2)
  {
    hide OfAccount;
    forall a, d | Has(st0, a, d) ensures Has(st2, a, d) {
      assert Has(st1, a, d);
    }
    forall originals | Recoverable(st0, originals) ensures Recoverable(st2, originals) {
      assert Recoverable(st1, originals);
      forall a | a in originals ensures RecoverableAt(st2, a, originals[a]) {
        assert RecoverableAt(st1, a, originals[a]);
      }
    }
  }

  function Accounts(items: seq<KeyItem>): (r: seq<string>)
    ensures forall a :: a in r <==> OfAccount(items, a) != []
  {
    if items == [] then [] else [items[0].account] + Accounts(items[1..])
  }

  class KeychainMigrator {
    var complete: bool

    constructor ()
      ensures !complete
    {
      complete := false;
    }

    method EnsureThisDeviceOnly(store: KeychainStore) returns (r: Result<nat, KeyError>)
      requires store.Wf()
      modifies this, store
      ensures store.Wf() && old(store.history) <= store.history
      ensures KeptSince(store.history, |old(store.history)|, old(store.Now())) && KeptState(old(store.Now()), store.Now())
      ensures complete && !old(complete) ==> r.Ok? && AllSettled(store.Now())
      ensures old(complete) ==> r == Ok(0) && complete && store.history == old(store.history)
      ensures !old(complete) && r.Ok? ==> complete
      ensures old(store.Faultless()) && (exists originals :: Recoverable(old(store.Now()), originals)) ==> r.Ok?
    {
      hide OfAccount, SafeStep;
      ghost var st0 := store.Now();
      if complete { return Ok(0); }
      var canonicalItems := store.Items(Canonical);
      if canonicalItems.Err? { return Err(canonicalItems.error); }
      var canonical := IndexedItems(canonicalItems.value);
      if canonical.Err? { return Err(canonical.error); }
      var stagedItems := store.Items(Staging);
      if stagedItems.Err? { return Err(stagedItems.error); }
      var staged := IndexedItems(stagedItems.value);
      if staged.Err? { return Err(staged.error); }
      var accounts := SortedSet(Accounts(canonicalItems.value) + Accounts(stagedItems.value));
      r := MigrateAll(store, accounts, canonical.value, staged.value);
      if r.Ok? {
        complete := true;
      }
    }
  }

  function Lookup(m: map<string, KeyItem>, a: string): Option<KeyItem> {
    if a in m then Some(m[a]) else None
  }

  /** Accounts among the first `n` that still had to be moved. */
  function Moves(accounts: seq<string>, canonical: map<string, KeyItem>, staged: map<string, KeyItem>, n: nat): nat
    requires n <= |accounts|
  {
    if n == 0 then 0
    else
      var c, s := Lookup(canonical, accounts[n - 1]), Lookup(staged, accounts[n - 1]);
      Moves(accounts, canonical, staged, n - 1)
      + (if (if c.Some? then c.value.protection.Legacy? else s.Some?) then 1 else 0)
  }

  method MigrateAll(store: KeychainStore, accounts: seq<string>, canonical: map<string, KeyItem>, staged: map<string, KeyItem>)
    returns (r: Result<nat, KeyError>)
    requires store.Wf() && StrictlySorted(accounts)
    requires forall a :: OfAccount(store.canonical, a) == One(Lookup(canonical, a))
    requires forall a :: OfAccount(store.staging, a) == One(Lookup(staged, a))
    requires forall a :: a in accounts <==> a in canonical || a in staged
    modifies store
    ensures store.Wf() && old(store.history) <= store.history
    ensures KeptSince(store.history, |old(store.history)|, old(store.Now())) && KeptState(old(store.Now()), store.Now())
    ensures r.Ok? ==> AllSettled(store.Now()) && r.value == Moves(accounts, canonical, staged, |accounts|)
    ensures old(store.Faultless()) && (exists originals :: Recoverable(old(store.Now()), originals)) ==> r.Ok?
  {
    hide OfAccount, SafeStep, KeptState, Recoverable, RecoverableAt, SettledAt, Moves;
    UntouchedIsKept(store.Now());
    var count := 0;
    var n := 0;
    NoMoves(accounts, canonical, staged);
    while n < |accounts|
      invariant n <= |accounts| && store.Wf() && old(store.history) <= store.history && old(store.calls) <= store.calls
      invariant KeptSince(store.history, |old(store.history)|, old(store.Now())) && KeptState(old(store.Now()), store.Now())
      invariant forall a :: a !in accounts[..n] ==>
                  OfAccount(store.canonical, a) == One(Lookup(canonical, a)) && OfAccount(store.staging, a) == One(Lookup(staged, a))
      invariant forall k :: 0 <= k < n ==> SettledAt(store.Now(), accounts[k])
      invariant count == Moves(accounts, canonical, staged, n)
    {
      var account := accounts[n];
      ghost var before, known := store.Now(), |store.history|;
      ghost var history0 := store.history;
      StrictlySortedIsNew(accounts, n);
      AccountIsRecoverable(old(store.Now()), before, account);
      var moved := MigrateAccount(store, account, Lookup(canonical, account), Lookup(staged, account));
      forall k | known <= k < |store.history| ensures KeptState(old(store.Now()), store.history[k]) {
        SafeStepKeeps(old(store.Now()), before, store.history[k], account);
      }
      SafeStepKeeps(old(store.Now()), before, store.Now(), account);
      assert forall k :: |old(store.history)| <= k < known ==> store.history[k] == history0[k];
      if moved.Err? { return Err(moved.error); }
      SafeStepElsewhere(before, store.Now(), account);
      MovesNext(accounts, canonical, staged, n);
      if moved.value {
        count := count + 1;
      }
      assert accounts[..n + 1] == accounts[..n] + [account];
      n := n + 1;
    }
    assert accounts[..n] == accounts;
    EveryAccountSettled(store.Now(), accounts);
    return Ok(count);
  }

  lemma UntouchedIsKept(st: Contents)
    ensures KeptState(st, st)
  {
  }

  lemma NoMoves(accounts: seq<string>, canonical: map<string, KeyItem>, staged: map<string, KeyItem>)
    ensures Moves(accounts, canonical, staged, 0) == 0
  {
  }

  lemma MovesNext(accounts: seq<string>, canonical: map<string, KeyItem>, staged: map<string, KeyItem>, n: nat)
    requires n < |accounts|
    ensures var c, s := Lookup(canonical, accounts[n]), Lookup(staged, accounts[n]);
            Moves(accounts, canonical, staged, n + 1) == Moves(accounts, canonical, staged, n)
              + (if (if c.Some? then c.value.protection.Legacy? else s.Some?) then 1 else 0)
  {
  }

  lemma EveryAccountSettled(st: Contents, accounts: seq<string>)
    requires forall k :: 0 <= k < |accounts| ==> SettledAt(st, accounts[k])
    requires forall a :: a !in accounts ==> OfAccount(st.canonical, a) == [] && OfAccount(st.staging, a) == []
    ensures AllSettled(st)
  {
    hide OfAccount;
  }

  lemma StrictlySortedIsNew(accounts: seq<string>, n: nat)
    requires StrictlySorted(accounts) && n < |accounts|
    ensures accounts[n] !in accounts[..n]
  {
    forall k | 0 <= k < n ensures accounts[k] != accounts[n] {
      LessIsTotal(accounts[k], accounts[n]);
    }
  }

  lemma SafeStepElsewhere(st0: Contents, st: Contents, account: string)
    requires SafeStep(st0, st, account)
    ensures SameElsewhere(st0, st, account)
    ensures forall a :: a != account && SettledAt(st0, a) ==> SettledAt(st, a)
  {
    hide OfAccount;
  }

  lemma AccountIsRecoverable(st0: Contents, st: Contents, account: string)
    requires KeptState(st0, st)
    requires OfAccount(st.canonical, account) != [] || OfAccount(st.staging, account) != []
    ensures (exists originals :: Recoverable(st0, originals)) ==> exists d :: RecoverableAt(st, account, d)
  {
    hide OfAccount;
    if originals :| Recoverable(st0, originals) {
      assert Recoverable(st, originals) && account in originals;
      assert RecoverableAt(st, account, originals[account]);
    }
  }

  // ---------- any number of interrupted attempts ----------

  /** What the device can look like after any sequence of attempts, each stopped anywhere. */
  ghost predicate ReachableFrom(st0: Contents, trail: seq<Contents>) {
    trail != [] && trail[0] == st0 && forall j, k :: 0 <= j < k < |trail| && k == j + 1 ==> KeptState(trail[j], trail[k])
  }

  /** Attempts compose: nothing is ever lost, and originals stay recoverable, over any number
      of attempts cut off after any call. */
  lemma {:induction false} AttemptsCompose(st0: Contents, trail: seq<Contents>, k: nat)
    requires ReachableFrom(st0, trail) && k < |trail|
    ensures KeptState(st0, trail[k])
  {
    hide OfAccount, Recoverable, Has;
    if k > 0 {
      AttemptsCompose(st0, trail, k - 1);
      assert KeptState(trail[k - 1], trail[k]);
    }
  }

  /** A settled, recoverable device holds exactly the original bytes, once each, in the
      canonical service. */
  lemma SettledMeansMigrated(st: Contents, originals: map<string, seq<byte>>)
    requires AllSettled(st) && Recoverable(st, originals)
    ensures forall a :: a in originals ==>
              var c := OfAccount(st.canonical, a);
              |c| == 1 && c[0].data == originals[a] && c[0].protection.Target? && OfAccount(st.staging, a) == []
    ensures forall a :: a !in originals ==> OfAccount(st.canonical, a) == [] && OfAccount(st.staging, a) == []
  {
    hide OfAccount;
    forall a | a in originals ensures SettledAt(st, a) {
      assert RecoverableAt(st, a, originals[a]);
    }
  }

  /** Wherever interrupted attempts left the device, one uninterrupted attempt completes. */
  method InterruptedThenComplete(st0: Contents, ghost trail: seq<Contents>, left: Contents, ghost originals: map<string, seq<byte>>)
    returns (final: Contents, completed: bool)
    requires ReachableFrom(st0, trail) && left == trail[|trail| - 1]
    requires Recoverable(st0, originals)
    ensures completed
    ensures Recoverable(final, originals) && AllSettled(final) && NothingLost(st0, final)
  {
    AttemptsCompose(st0, trail, |trail| - 1);
    hide OfAccount;
    var store := new KeychainStore(left, n => Works);
    var migrator := new KeychainMigrator();
    var r := migrator.EnsureThisDeviceOnly(store);
    assert Recoverable(left, originals);
    return store.Now(), migrator.complete;
  }
}
