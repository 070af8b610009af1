/** The coordinator that gathers preparation alerts into one notification: which events are
    pending and which were accepted, and who waits for the submission under way.

    Each function is one block of the coordinator's serial queue. A submission answers later,
    or never, and submissions may answer in any order. */
module Notifications {
  import opened Common

  datatype Kind = ConfirmedWaveReady | NeedsForegroundRecovery | TerminalFailure

  function RawValue(kind: Kind): string {
    match kind
    case ConfirmedWaveReady => "confirmedWaveReady"
    case NeedsForegroundRecovery => "needsForegroundRecovery"
    case TerminalFailure => "terminalFailure"
  }

  /** Dedupe identity: scope and kind, joined. */
  function KeyOf(scope: string, kind: Kind): string {
    scope + "|" + RawValue(kind)
  }

  datatype Event = Event(scope: string, kind: Kind, fingerprint: string) {
    function Key(): string { KeyOf(scope, kind) }
  }

  /** A request handed to the notification centre. */
  datatype Submission = Submission(generation: nat, events: map<string, Event>, delay: int)

  datatype Answer = Answer(caller: nat, registered: bool)

  /** `waiting` holds callers (nobody, when the coordinator resubmits on its own account);
      `submitted` the requests whose completion has not come yet. */
  datatype Coordinator = Coordinator(
    pending: map<string, Event>,
    accepted: map<string, string>,
    deadline: Option<Date>,
    generation: nat,
    waiting: seq<Option<nat>>,
    submitted: seq<Submission>,
    answers: seq<Answer>)

  const AGGREGATION_WINDOW := 30

  // ---------- the batch ----------

  predicate IsAccepted(c: Coordinator, e: Event) {
    e.Key() in c.accepted && c.accepted[e.Key()] == e.fingerprint
  }

  predicate IsPending(c: Coordinator, e: Event) {
    e.Key() in c.pending && c.pending[e.Key()] == e
  }

  /** Adds one event, unless it was accepted or is pending already. */
  function EnqueueEvent(c: Coordinator, e: Event): (Coordinator, bool) {
    if IsAccepted(c, e) || IsPending(c, e) then (c, false) else (c.(pending := c.pending[e.Key() := e]), true)
  }

  function EnqueueEvents(c: Coordinator, events: seq<Event>): (Coordinator, bool) {
    if events == [] then (c, false)
    else
      var (c1, before) := EnqueueEvents(c, events[..|events| - 1]);
      var (c2, last) := EnqueueEvent(c1, events[|events| - 1]);
      (c2, last || before)
  }

  function MarkAccepted(accepted: map<string, string>, events: map<string, Event>): map<string, string> {
    accepted + map k | k in events :: events[k].fingerprint
  }

  function OutsideScope(pending: map<string, Event>, scope: string): map<string, Event> {
    map k | k in pending && pending[k].scope != scope :: pending[k]
  }

  /** A key counts as the scope's when it is the scope or starts with it and a bar. */
  predicate BelongsTo(key: string, scope: string) {
    key == scope || scope + "|" <= key
  }

  predicate BelongsToSome(key: string, scopes: set<string>) {
    exists s :: s in scopes && BelongsTo(key, s)
  }

  function Expire(c: Coordinator, now: Date): Coordinator {
    if c.deadline.Some? && c.deadline.value <= now then c.(pending := map[], deadline := None) else c
  }

  // ---------- waiting callers ----------

  function Say(c: Coordinator, caller: Option<nat>, registered: bool): Coordinator {
    if caller.Some? then c.(answers := c.answers + [Answer(caller.value, registered)]) else c
  }

  function Replies(waiting: seq<Option<nat>>, registered: bool): seq<Answer> {
    if waiting == [] then []
    else
      var last := waiting[|waiting| - 1];
      Replies(waiting[..|waiting| - 1], registered) + if last.Some? then [Answer(last.value, registered)] else []
  }

  function Flush(c: Coordinator, registered: bool): Coordinator {
    c.(waiting := [], answers := c.answers + Replies(c.waiting, registered))
  }

  /** Submits what is pending; the new submission answers everyone who waits. */
  function Schedule(c: Coordinator, now: Date, caller: Option<nat>): Coordinator {
    if c.pending == map[] then Say(c, caller, true)
    else
      var deadline := if c.deadline.Some? then c.deadline.value else now + AGGREGATION_WINDOW;
      var generation := c.generation + 1;
      c.(deadline := Some(deadline), generation := generation, waiting := c.waiting + [caller],
         submitted := c.submitted + [Submission(generation, c.pending, if deadline - now > 1 then deadline - now else 1)])
  }

  // ---------- the operations ----------

  function Enqueue(c: Coordinator, events: seq<Event>, caller: nat, now: Date): Coordinator {
    if events == [] then Say(c, Some(caller), true)
    else
      var (c1, changed) := EnqueueEvents(Expire(c, now), events);
      if !changed then
        if forall e :: e in events ==> IsAccepted(c1, e) then Say(c1, Some(caller), true)
        else Schedule(c1, now, Some(caller))
      else Schedule(if c1.deadline.None? then c1.(deadline := Some(now + AGGREGATION_WINDOW)) else c1, now, Some(caller))
  }

  /** Keeps a deadline only while it is still ahead and something is pending. */
  function CarriedDeadline(c: Coordinator, existing: Option<Date>, now: Date): Option<Date> {
    if c.pending != map[] && existing.Some? && existing.value > now then existing else None
  }

  /** Nothing left to announce: the submission is withdrawn and its callers are content. */
  function WithdrawIfEmpty(c: Coordinator): Coordinator {
    if c.pending == map[] then Flush(c.(generation := c.generation + 1), true) else c
  }

  function Resolve(c: Coordinator, scope: string, now: Date): Coordinator {
    var accepted := map k | k in c.accepted && !BelongsTo(k, scope) :: c.accepted[k];
    var c1 := c.(pending := OutsideScope(c.pending, scope), accepted := accepted);
    WithdrawIfEmpty(c1.(deadline := CarriedDeadline(c1, c.deadline, now)))
  }

  function Retain(c: Coordinator, scopes: set<string>, now: Date): Coordinator {
    var pending := map k | k in c.pending && c.pending[k].scope in scopes :: c.pending[k];
    var accepted := map k | k in c.accepted && BelongsToSome(k, scopes) :: c.accepted[k];
    var c1 := c.(pending := pending, accepted := accepted);
    WithdrawIfEmpty(c1.(deadline := CarriedDeadline(c1, c.deadline, now)))
  }

  /** The centre lists its pending requests, after `Resolve` or `Retain` asked at `asked`. */
  function Listed(c: Coordinator, asked: Date, summaryIsPending: bool): Coordinator {
    if c.pending == map[] then c
    else if !summaryIsPending then c.(deadline := None)
    else Schedule(c, asked, None)
  }

  function ClearDelivered(c: Coordinator, now: Date): Coordinator {
    if c.pending == map[] then c else Schedule(c.(deadline := None), now, None)
  }

  function Suppress(c: Coordinator): Coordinator {
    Flush(c.(accepted := MarkAccepted(c.accepted, c.pending), pending := map[], deadline := None,
             generation := c.generation + 1), true)
  }

  function ClearAll(c: Coordinator): Coordinator {
    Flush(c.(generation := c.generation + 1, pending := map[], accepted := map[], deadline := None), false)
  }

  /** The centre completes a submission, once. A superseded one says nothing. */
  function Completed(c: Coordinator, k: nat, succeeded: bool): Coordinator
    requires k < |c.submitted|
  {
    var s := c.submitted[k];
    var c1 := c.(submitted := c.submitted[..k] + c.submitted[k + 1..]);
    if s.generation != c.generation then c1
    else Flush(if succeeded then c1.(accepted := MarkAccepted(c1.accepted, s.events)) else c1, succeeded)
  }

  // ---------- runs ----------

  datatype Step =
    | Enqueues(events: seq<Event>, now: Date)
    | Resolves(scope: string, now: Date)
    | Retains(scopes: set<string>, now: Date)
    | Lists(asked: Date, summaryIsPending: bool)
    | Clears(now: Date)
    | Suppresses
    | ClearsAll
    | Completes(k: nat, succeeded: bool)

  datatype World = World(c: Coordinator, next: nat)

  function Next(w: World, step: Step): World {
    match step
    case Enqueues(events, now) => World(Enqueue(w.c, events, w.next, now), w.next + 1)
    case Resolves(scope, now) => World(Resolve(w.c, scope, now), w.next)
    case Retains(scopes, now) => World(Retain(w.c, scopes, now), w.next)
    case Lists(asked, summaryIsPending) => World(Listed(w.c, asked, summaryIsPending), w.next)
    case Clears(now) => World(ClearDelivered(w.c, now), w.next)
    case Suppresses => World(Suppress(w.c), w.next)
    case ClearsAll => World(ClearAll(w.c), w.next)
    case Completes(k, succeeded) => World(if k < |w.c.submitted| then Completed(w.c, k, succeeded) else w.c, w.next)
  }

  /** A start from any persisted batch: nobody waits and nothing is submitted yet. */
  function Start(pending: map<string, Event>, accepted: map<string, string>, deadline: Option<Date>): World {
    World(Coordinator(pending, accepted, deadline, 0, [], [], []), 0)
  }

  function Run(start: World, steps: seq<Step>): World {
    if steps == [] then start else Next(Run(start, steps[..|steps| - 1]), steps[|steps| - 1])
  }

  // ---------- keys ----------

  /** The bar before the kind is the key's last. */
  lemma LastBar(scope: string, kind: Kind)
    ensures var key := KeyOf(scope, kind);
            |scope| < |key| && key[|scope|] == '|' && (forall i :: |scope| < i < |key| ==> key[i] != '|')
  {
    assert forall i :: 0 <= i < |RawValue(kind)| ==> RawValue(kind)[i] != '|';
  }

  lemma SameKeySameScope(a: string, j: Kind, b: string, k: Kind)
    requires KeyOf(a, j) == KeyOf(b, k)
    ensures a == b
  {
    LastBar(a, j);
    LastBar(b, k);
    hide RawValue;
    assert KeyOf(a, j)[..|a|] == a && KeyOf(b, k)[..|b|] == b;
  }

  /** Scopes may contain bars; kinds do not. So a healthy event's key is never an alert's. */
  lemma KeysIdentify(a: string, j: Kind, b: string, k: Kind)
    requires KeyOf(a, j) == KeyOf(b, k)
    ensures a == b && j == k
  {
    SameKeySameScope(a, j, b, k);
    assert RawValue(j) == KeyOf(a, j)[|a| + 1..] == RawValue(k);
    assert RawValue(j)[0] == RawValue(k)[0];
  }

  // ---------- what every step keeps ----------

  ghost predicate Keyed(events: map<string, Event>) {
    forall k :: k in events ==> events[k].Key() == k
  }

  ghost predicate Within(part: map<string, Event>, whole: map<string, Event>) {
    forall k :: k in part ==> k in whole && whole[k] == part[k]
  }

  /** The submission of the current generation, if its completion is still to come. */
  ghost predicate IsCurrent(c: Coordinator, k: nat) {
    k < |c.submitted| && c.submitted[k].generation == c.generation
  }

  ghost predicate HasCurrent(c: Coordinator) {
    exists k: nat :: IsCurrent(c, k)
  }

  ghost predicate Submissions(c: Coordinator) {
    && (forall i :: 0 <= i < |c.submitted| ==> c.submitted[i].generation <= c.generation && Keyed(c.submitted[i].events))
    && (forall i, j :: 0 <= i < j < |c.submitted| ==> c.submitted[i].generation < c.submitted[j].generation)
  }

  /** Whoever waits is served by an outstanding submission of the current generation, and
      that submission carries everything pending. */
  ghost predicate Served(c: Coordinator) {
    && (c.waiting != [] ==> HasCurrent(c))
    && (forall k: nat :: IsCurrent(c, k) ==> Within(c.pending, c.submitted[k].events))
  }

  ghost predicate CoordinatorOk(c: Coordinator) {
    Keyed(c.pending) && Submissions(c) && Served(c)
  }

  lemma ScheduleOk(c: Coordinator, now: Date, caller: Option<nat>)
    requires Keyed(c.pending) && Submissions(c) && (c.pending == map[] ==> Served(c))
    ensures CoordinatorOk(Schedule(c, now, caller))
  {
    var m := Schedule(c, now, caller);
    if c.pending != map[] {
      assert IsCurrent(m, |c.submitted|);
      assert forall k: nat :: IsCurrent(m, k) ==> k == |c.submitted|;
    } else {
      assert m.submitted == c.submitted && m.generation == c.generation;
      assert HasCurrent(c) ==> HasCurrent(m) by {
        if k: nat :| IsCurrent(c, k) { assert IsCurrent(m, k); }
      }
      assert forall k: nat :: IsCurrent(m, k) ==> IsCurrent(c, k);
    }
  }

  lemma {:induction false} EnqueueEventsOk(c: Coordinator, events: seq<Event>)
    requires Keyed(c.pending)
    ensures var (m, changed) := EnqueueEvents(c, events);
            && m == c.(pending := m.pending) && Keyed(m.pending) && (!changed ==> m == c)
            && (changed ==> m.pending != map[])
    decreases |events|
  {
    if events != [] {
      var before, last := events[..|events| - 1], events[|events| - 1];
      EnqueueEventsOk(c, before);
      var (c1, _) := EnqueueEvents(c, before);
      assert c1.pending[last.Key() := last] != map[] by { assert last.Key() in c1.pending[last.Key() := last]; }
    }
  }

  lemma SmallerOk(c: Coordinator, m: Coordinator)
    requires CoordinatorOk(c) && m.submitted == c.submitted && m.generation == c.generation && m.waiting == c.waiting
    requires Within(m.pending, c.pending)
    ensures CoordinatorOk(m)
  {
    if k: nat :| IsCurrent(c, k) { assert IsCurrent(m, k); }
    assert forall k: nat :: IsCurrent(m, k) ==> IsCurrent(c, k);
  }

  /** Withdrawing makes every submission a superseded one. */
  lemma WithdrawnOk(c: Coordinator, m: Coordinator)
    requires CoordinatorOk(c) && m.submitted == c.submitted && m.generation > c.generation && m.waiting == [] && m.pending == map[]
    ensures CoordinatorOk(m)
  {
    assert forall k: nat :: !IsCurrent(m, k);
  }

  lemma EnqueueOk(c: Coordinator, events: seq<Event>, caller: nat, now: Date)
    requires CoordinatorOk(c)
    ensures CoordinatorOk(Enqueue(c, events, caller, now))
  {
    var m := Enqueue(c, events, caller, now);
    if events == [] {
      SmallerOk(c, m);
    } else {
      var c0 := Expire(c, now);
      SmallerOk(c, c0);
      EnqueueEventsOk(c0, events);
      var (c1, changed) := EnqueueEvents(c0, events);
      var c2 := if c1.deadline.None? then c1.(deadline := Some(now + AGGREGATION_WINDOW)) else c1;
      if changed {
        ScheduleOk(c2, now, Some(caller));
      } else if forall e :: e in events ==> IsAccepted(c1, e) {
        SmallerOk(c0, m);
      } else {
        ScheduleOk(c1, now, Some(caller));
      }
    }
  }

  lemma ShrinkOk(c: Coordinator, c1: Coordinator)
    requires CoordinatorOk(c) && c1.submitted == c.submitted && c1.generation == c.generation && c1.waiting == c.waiting
    requires Within(c1.pending, c.pending)
    ensures CoordinatorOk(WithdrawIfEmpty(c1))
  {
    SmallerOk(c, c1);
    if c1.pending == map[] { WithdrawnOk(c1, WithdrawIfEmpty(c1)); }
  }

  lemma CompletedOk(c: Coordinator, k: nat, succeeded: bool)
    requires CoordinatorOk(c) && k < |c.submitted|
    ensures CoordinatorOk(Completed(c, k, succeeded))
  {
    var rest := c.submitted[..k] + c.submitted[k + 1..];
    var c1 := c.(submitted := rest);
    assert forall i :: 0 <= i < |rest| ==> rest[i] == if i < k then c.submitted[i] else c.submitted[i + 1];
    RemainingCover(c, k);
    if c.submitted[k].generation != c.generation && c.waiting != [] {
      OthersStayCurrent(c, k);
    }
    FlushedOk(c1, succeeded);
    if succeeded { FlushedOk(c1.(accepted := MarkAccepted(c1.accepted, c.submitted[k].events)), succeeded); }
  }

  lemma RemainingCover(c: Coordinator, k: nat)
    requires k < |c.submitted| && Served(c)
    ensures var c1 := c.(submitted := c.submitted[..k] + c.submitted[k + 1..]);
            forall i: nat :: IsCurrent(c1, i) ==> Within(c1.pending, c1.submitted[i].events)
  {
    var c1 := c.(submitted := c.submitted[..k] + c.submitted[k + 1..]);
    forall i: nat | IsCurrent(c1, i) ensures Within(c1.pending, c1.submitted[i].events) {
      assert IsCurrent(c, if i < k then i else i + 1);
    }
  }

  lemma OthersStayCurrent(c: Coordinator, k: nat)
    requires k < |c.submitted| && c.submitted[k].generation != c.generation && HasCurrent(c)
    ensures HasCurrent(c.(submitted := c.submitted[..k] + c.submitted[k + 1..]))
  {
    var m := c.(submitted := c.submitted[..k] + c.submitted[k + 1..]);
    var i: nat :| IsCurrent(c, i);
    assert m.submitted[if i < k then i else i - 1] == c.submitted[i];
    assert IsCurrent(m, if i < k then i else i - 1);
  }

  lemma FlushedOk(c: Coordinator, registered: bool)
    ensures Keyed(c.pending) && Submissions(c) && Served(c.(waiting := [])) ==> CoordinatorOk(Flush(c, registered))
  {
    var n, m := c.(waiting := []), Flush(c, registered);
    assert forall k: nat :: IsCurrent(m, k) ==> IsCurrent(n, k);
  }

  lemma StepOk(w: World, step: Step)
    requires CoordinatorOk(w.c)
    ensures CoordinatorOk(Next(w, step).c)
  {
    var c, m := w.c, Next(w, step).c;
    match step
    case Enqueues(events, now) => EnqueueOk(c, events, w.next, now);
    case Resolves(scope, now) =>
      var accepted := map k | k in c.accepted && !BelongsTo(k, scope) :: c.accepted[k];
      var c1 := c.(pending := OutsideScope(c.pending, scope), accepted := accepted);
      ShrinkOk(c, c1.(deadline := CarriedDeadline(c1, c.deadline, now)));
    case Retains(scopes, now) =>
      var pending := map k | k in c.pending && c.pending[k].scope in scopes :: c.pending[k];
      var accepted := map k | k in c.accepted && BelongsToSome(k, scopes) :: c.accepted[k];
      var c1 := c.(pending := pending, accepted := accepted);
      ShrinkOk(c, c1.(deadline := CarriedDeadline(c1, c.deadline, now)));
    case Lists(asked, summaryIsPending) =>
      if c.pending != map[] && summaryIsPending { ScheduleOk(c, asked, None); } else { SmallerOk(c, m); }
    case Clears(now) =>
      if c.pending != map[] { ScheduleOk(c.(deadline := None), now, None); }
    case Suppresses => WithdrawnOk(c, m);
    case ClearsAll => WithdrawnOk(c, m);
    case Completes(k, succeeded) => if k < |c.submitted| { CompletedOk(c, k, succeeded); }
  }

  lemma {:induction false} RunOk(start: World, steps: seq<Step>)
    requires CoordinatorOk(start.c)
    ensures CoordinatorOk(Run(start, steps).c)
    decreases |steps|
  {
    hide CoordinatorOk;
    if steps != [] {
      RunOk(start, steps[..|steps| - 1]);
      StepOk(Run(start, steps[..|steps| - 1]), steps[|steps| - 1]);
    }
  }

  // ---------- the theorems ----------

  /** However enqueues, resolutions, retentions, suppressions, teardowns and completions
      interleave: whoever waits is served by an outstanding submission of the current
      generation, that submission carries every pending event, and once nothing is
      outstanding nobody waits. Runs start from any batch that was persisted. */
  lemma NoWaiterIsLost(pending: map<string, Event>, accepted: map<string, string>, deadline: Option<Date>, steps: seq<Step>)
    requires Keyed(pending)
    ensures var c := Run(Start(pending, accepted, deadline), steps).c;
            c.waiting != [] ==>
              exists k: nat :: IsCurrent(c, k) && Within(c.pending, c.submitted[k].events)
    ensures var c := Run(Start(pending, accepted, deadline), steps).c; c.submitted == [] ==> c.waiting == []
  {
    var start := Start(pending, accepted, deadline);
    RunOk(start, steps);
    hide Run, Within;
    var c := Run(start, steps).c;
    if c.waiting != [] {
      var k: nat :| IsCurrent(c, k);
      assert Within(c.pending, c.submitted[k].events);
    }
  }

  function TimesWaiting(waiting: seq<Option<nat>>, caller: nat): nat {
    if waiting == [] then 0
    else TimesWaiting(waiting[..|waiting| - 1], caller) + if waiting[|waiting| - 1] == Some(caller) then 1 else 0
  }

  function TimesAnswered(answers: seq<Answer>, caller: nat): nat {
    if answers == [] then 0
    else TimesAnswered(answers[..|answers| - 1], caller) + if answers[|answers| - 1].caller == caller then 1 else 0
  }

  function Count(c: Coordinator, caller: nat): nat {
    TimesWaiting(c.waiting, caller) + TimesAnswered(c.answers, caller)
  }

  lemma {:induction false} AnsweredAdds(a: seq<Answer>, b: seq<Answer>, caller: nat)
    ensures TimesAnswered(a + b, caller) == TimesAnswered(a, caller) + TimesAnswered(b, caller)
    decreases |b|
  {
    if b == [] {
      assert a + b == a;
    } else {
      assert (a + b)[..|a + b| - 1] == a + b[..|b| - 1];
      AnsweredAdds(a, b[..|b| - 1], caller);
    }
  }

  lemma {:induction false} RepliesAnswerEachOnce(waiting: seq<Option<nat>>, registered: bool, caller: nat)
    ensures TimesAnswered(Replies(waiting, registered), caller) == TimesWaiting(waiting, caller)
    decreases |waiting|
  {
    if waiting != [] {
      var last := waiting[|waiting| - 1];
      var one := if last.Some? then [Answer(last.value, registered)] else [];
      RepliesAnswerEachOnce(waiting[..|waiting| - 1], registered, caller);
      AnsweredAdds(Replies(waiting[..|waiting| - 1], registered), one, caller);
      if last.Some? { assert one[..0] == []; }
    }
  }

  lemma FlushCounts(c: Coordinator, registered: bool, caller: nat)
    ensures Count(Flush(c, registered), caller) == Count(c, caller)
  {
    RepliesAnswerEachOnce(c.waiting, registered, caller);
    AnsweredAdds(c.answers, Replies(c.waiting, registered), caller);
  }

  function One(waiting: Option<nat>, caller: nat): nat {
    if waiting == Some(caller) then 1 else 0
  }

  lemma SayCounts(c: Coordinator, waiting: Option<nat>, registered: bool, caller: nat)
    ensures Count(Say(c, waiting, registered), caller) == Count(c, caller) + One(waiting, caller)
  {
    if waiting.Some? {
      AnsweredAdds(c.answers, [Answer(waiting.value, registered)], caller);
      assert [Answer(waiting.value, registered)][..0] == [];
    }
  }

  lemma ScheduleCounts(c: Coordinator, now: Date, waiting: Option<nat>, caller: nat)
    ensures Count(Schedule(c, now, waiting), caller) == Count(c, caller) + One(waiting, caller)
  {
    SayCounts(c, waiting, true, caller);
    assert (c.waiting + [waiting])[..|c.waiting|] == c.waiting;
  }

  lemma {:induction false} EnqueueEventsSilent(c: Coordinator, events: seq<Event>)
    ensures var m := EnqueueEvents(c, events).0; m.waiting == c.waiting && m.answers == c.answers
    decreases |events|
  {
    if events != [] { EnqueueEventsSilent(c, events[..|events| - 1]); }
  }

  lemma EnqueueCounts(c: Coordinator, events: seq<Event>, asking: nat, now: Date, caller: nat)
    ensures Count(Enqueue(c, events, asking, now), caller) == Count(c, caller) + One(Some(asking), caller)
  {
    if events == [] {
      SayCounts(c, Some(asking), true, caller);
    } else {
      var (c1, changed) := EnqueueEvents(Expire(c, now), events);
      EnqueueEventsSilent(Expire(c, now), events);
      var c2 := if c1.deadline.None? then c1.(deadline := Some(now + AGGREGATION_WINDOW)) else c1;
      SayCounts(c1, Some(asking), true, caller);
      ScheduleCounts(c1, now, Some(asking), caller);
      ScheduleCounts(c2, now, Some(asking), caller);
      hide EnqueueEvents, TimesWaiting, TimesAnswered, Schedule;
    }
  }

  lemma WithdrawCounts(c: Coordinator, caller: nat)
    ensures Count(WithdrawIfEmpty(c), caller) == Count(c, caller)
  {
    FlushCounts(c.(generation := c.generation + 1), true, caller);
  }

  lemma StepCounts(w: World, step: Step, caller: nat)
    ensures Count(Next(w, step).c, caller) == Count(w.c, caller) + if step.Enqueues? then One(Some(w.next), caller) else 0
  {
    var c := w.c;
    match step
    case Enqueues(events, now) => EnqueueCounts(c, events, w.next, now, caller);
    case Resolves(scope, now) =>
      var accepted := map k | k in c.accepted && !BelongsTo(k, scope) :: c.accepted[k];
      var c1 := c.(pending := OutsideScope(c.pending, scope), accepted := accepted);
      WithdrawCounts(c1.(deadline := CarriedDeadline(c1, c.deadline, now)), caller);
    case Retains(scopes, now) =>
      var pending := map k | k in c.pending && c.pending[k].scope in scopes :: c.pending[k];
      var accepted := map k | k in c.accepted && BelongsToSome(k, scopes) :: c.accepted[k];
      var c1 := c.(pending := pending, accepted := accepted);
      WithdrawCounts(c1.(deadline := CarriedDeadline(c1, c.deadline, now)), caller);
    case Lists(asked, summaryIsPending) => ScheduleCounts(c, asked, None, caller);
    case Clears(now) => ScheduleCounts(c.(deadline := None), now, None, caller);
    case Suppresses =>
      FlushCounts(c.(accepted := MarkAccepted(c.accepted, c.pending), pending := map[], deadline := None,
                     generation := c.generation + 1), true, caller);
    case ClearsAll =>
      FlushCounts(c.(generation := c.generation + 1, pending := map[], accepted := map[], deadline := None), false, caller);
    case Completes(k, succeeded) =>
      if k < |c.submitted| {
        var c1 := c.(submitted := c.submitted[..k] + c.submitted[k + 1..]);
        FlushCounts(c1, succeeded, caller);
        FlushCounts(c1.(accepted := MarkAccepted(c1.accepted, c.submitted[k].events)), succeeded, caller);
      }
  }

  /** A caller seen so far is answered once, or waits once; nobody else is either. */
  predicate AnsweredOrWaiting(w: World, caller: nat) {
    Count(w.c, caller) == if caller < w.next then 1 else 0
  }

  lemma {:induction false} RunCounts(start: World, steps: seq<Step>, caller: nat)
    requires AnsweredOrWaiting(start, caller)
    ensures AnsweredOrWaiting(Run(start, steps), caller)
    decreases |steps|
  {
    hide Count, Next;
    if steps != [] {
      var w, step := Run(start, steps[..|steps| - 1]), steps[|steps| - 1];
      RunCounts(start, steps[..|steps| - 1], caller);
      StepCounts(w, step, caller);
      StepNumbers(w, step);
      assert Run(start, steps) == Next(w, step);
    }
  }

  /** Every caller is answered exactly once or waits exactly once; nobody else is answered. */
  lemma EveryCallerIsAnsweredOnce(pending: map<string, Event>, accepted: map<string, string>, deadline: Option<Date>,
      steps: seq<Step>, caller: nat)
    ensures var w := Run(Start(pending, accepted, deadline), steps);
            TimesWaiting(w.c.waiting, caller) + TimesAnswered(w.c.answers, caller) == if caller < w.next then 1 else 0
  {
    RunCounts(Start(pending, accepted, deadline), steps, caller);
    hide Run, TimesWaiting, TimesAnswered;
  }

  lemma StepNumbers(w: World, step: Step)
    ensures Next(w, step).next == w.next + if step.Enqueues? then 1 else 0
  {
  }

  /** A successful submission leaves nothing pending that is not accepted, and answers
      everyone who waits, the superseded submissions' callers included. */
  lemma SuccessAcceptsAllPending(start: World, steps: seq<Step>, k: nat, e: Event)
    requires CoordinatorOk(start.c)
    requires var c := Run(start, steps).c; IsCurrent(c, k) && IsPending(c, e)
    ensures var c, m := Run(start, steps).c, Run(start, steps + [Completes(k, true)]).c;
            IsAccepted(m, e) && IsPending(m, e) && m.waiting == [] && m.answers == c.answers + Replies(c.waiting, true)
  {
    RunOk(start, steps);
    var all := steps + [Completes(k, true)];
    assert all[..|all| - 1] == steps;
    var c := Run(start, steps).c;
    assert Within(c.pending, c.submitted[k].events);
    hide Replies;
  }

  /** A superseded submission, failed or not, answers nobody and accepts nothing. */
  lemma SupersededIsSilent(c: Coordinator, k: nat, succeeded: bool)
    requires k < |c.submitted| && !IsCurrent(c, k)
    ensures var m := Completed(c, k, succeeded);
            m.answers == c.answers && m.accepted == c.accepted && m.pending == c.pending && m.waiting == c.waiting
  {
  }

  lemma {:induction false} AcceptedEventsChangeNothing(c: Coordinator, events: seq<Event>)
    requires forall e :: e in events ==> IsAccepted(c, e) || IsPending(c, e)
    ensures EnqueueEvents(c, events) == (c, false)
    decreases |events|
  {
    if events != [] {
      AcceptedEventsChangeNothing(c, events[..|events| - 1]);
    }
  }

  /** What was accepted is not announced again: the caller is answered at once, and no
      submission is made. */
  lemma AcceptedIsNotAnnouncedAgain(c: Coordinator, events: seq<Event>, caller: nat, now: Date)
    requires forall e :: e in events ==> IsAccepted(c, e)
    ensures var m := Enqueue(c, events, caller, now);
            && m.answers == c.answers + [Answer(caller, true)] && m.submitted == c.submitted
            && m.generation == c.generation && m.accepted == c.accepted && m.waiting == c.waiting
  {
    AcceptedEventsChangeNothing(Expire(c, now), events);
  }

  /** Nor is what a foreground launch suppressed. */
  lemma SuppressedIsNotAnnouncedAgain(c: Coordinator, events: seq<Event>, caller: nat, now: Date)
    requires Keyed(c.pending) && forall e :: e in events ==> IsPending(c, e)
    ensures var m := Enqueue(Suppress(c), events, caller, now);
            m.submitted == c.submitted && m.answers == Suppress(c).answers + [Answer(caller, true)]
  {
    forall e | e in events ensures IsAccepted(Suppress(c), e) {
      assert e.Key() in c.pending;
    }
    AcceptedIsNotAnnouncedAgain(Suppress(c), events, caller, now);
    hide Enqueue;
  }

  /** An event that is neither accepted nor already pending is submitted, with everything
      else pending: an accepted healthy event never keeps back an alert of the same scope. */
  lemma NewEventIsSubmitted(c: Coordinator, e: Event, caller: nat, now: Date)
    requires Keyed(c.pending) && !IsAccepted(c, e)
    ensures var m := Enqueue(c, [e], caller, now);
            && m.generation == c.generation + 1 && m.waiting == c.waiting + [Some(caller)]
            && |m.submitted| == |c.submitted| + 1 && m.submitted[|c.submitted|].generation == m.generation
            && IsPending(m, e) && m.submitted[|c.submitted|].events == m.pending
  {
    var c0 := Expire(c, now);
    assert [e][..0] == [];
    assert EnqueueEvents(c0, []) == (c0, false);
    assert EnqueueEvents(c0, [e]) == EnqueueEvent(c0, e);
    if IsPending(c0, e) {
      assert e in [e];
    }
  }

  /** Accepting events of one kind neither makes an alert of another kind look accepted, nor
      forgets one that was, even for the same scope. */
  lemma OtherKindIsStillNews(c: Coordinator, healthy: map<string, Event>, alert: Event)
    requires Keyed(healthy) && forall k :: k in healthy ==> healthy[k].kind != alert.kind
    ensures IsAccepted(c.(accepted := MarkAccepted(c.accepted, healthy)), alert) <==> IsAccepted(c, alert)
  {
    if alert.Key() in healthy {
      var e := healthy[alert.Key()];
      KeysIdentify(alert.scope, alert.kind, e.scope, e.kind);
    }
  }

  /** Resolving one scope leaves every other scope's pending event in place, and leaves no
      deadline that could expire it at once: the next enqueue keeps it too. */
  lemma ResolveKeepsTheOthers(c: Coordinator, scope: string, now: Date, e: Event, events: seq<Event>, caller: nat)
    requires Keyed(c.pending) && IsPending(c, e) && e.scope != scope
    requires forall x :: x in events ==> x.Key() != e.Key()
    ensures var m := Resolve(c, scope, now);
            && IsPending(m, e) && (m.deadline.Some? ==> m.deadline.value > now && m.deadline == c.deadline)
            && IsPending(Enqueue(m, events, caller, now), e)
  {
    var m := Resolve(c, scope, now);
    assert e.Key() in OutsideScope(c.pending, scope);
    OtherKeysStay(m, events, e);
    hide Resolve, EnqueueEvents;
    assert Expire(m, now) == m;
    var c1 := EnqueueEvents(m, events).0;
    ScheduleKeepsPending(c1, now, Some(caller));
    ScheduleKeepsPending(c1.(deadline := Some(now + AGGREGATION_WINDOW)), now, Some(caller));
    hide Schedule;
  }

  lemma ScheduleKeepsPending(c: Coordinator, now: Date, caller: Option<nat>)
    ensures Schedule(c, now, caller).pending == c.pending
  {
  }

  lemma {:induction false} OtherKeysStay(c: Coordinator, events: seq<Event>, e: Event)
    requires IsPending(c, e) && forall x :: x in events ==> x.Key() != e.Key()
    ensures IsPending(EnqueueEvents(c, events).0, e)
    decreases |events|
  {
    if events != [] {
      OtherKeysStay(c, events[..|events| - 1], e);
      assert events[|events| - 1] in events;
    }
  }

  /** Resolving a scope forgets it: nothing of it is pending or accepted. An accepted
      fingerprint of another scope goes too exactly when that scope's name continues this one's
      with a bar, or when this one's name is that very key. */
  lemma ResolveForgetsTheScope(c: Coordinator, scope: string, now: Date, e: Event)
    requires Keyed(c.pending) && IsAccepted(c, e)
    ensures var m := Resolve(c, scope, now);
            && (forall k :: k in m.pending ==> m.pending[k].scope != scope)
            && (IsAccepted(m, e) <==> e.scope != scope && !(scope + "|" <= e.scope) && scope != e.Key())
  {
    LastBar(e.scope, e.kind);
    BelongsExactly(e.scope, e.kind, scope);
    hide RawValue;
  }

  lemma BelongsExactly(own: string, kind: Kind, scope: string)
    ensures BelongsTo(KeyOf(own, kind), scope) <==> own == scope || scope + "|" <= own || scope == KeyOf(own, kind)
  {
    LastBar(own, kind);
    var key := KeyOf(own, kind);
    hide RawValue;
    assert key[..|own|] == own;
    if scope + "|" <= key {
      assert key[|scope|] == '|' && key[..|scope|] == scope;
      if |scope| < |own| {
        assert key[..|scope| + 1] == own[..|scope| + 1];
      }
    }
    if scope + "|" <= own { assert own <= key; }
    if own == scope { assert key[..|own| + 1] == scope + "|"; }
  }

  predicate NoBar(scope: string) {
    '|' !in scope
  }

  /** The scopes the app builds have no bar in them; for those, resolving one forgets exactly
      its own accepted fingerprints. */
  lemma BarlessResolveForgetsOnlyItsOwn(c: Coordinator, scope: string, now: Date, e: Event)
    requires Keyed(c.pending) && NoBar(scope) && NoBar(e.scope)
    ensures IsAccepted(Resolve(c, scope, now), e) <==> IsAccepted(c, e) && e.scope != scope
  {
    if IsAccepted(c, e) {
      ResolveForgetsTheScope(c, scope, now, e);
      LastBar(e.scope, e.kind);
      NoBarNoContinuation(scope, e.scope);
    }
  }

  lemma NoBarNoContinuation(scope: string, other: string)
    ensures scope + "|" <= other ==> !NoBar(other)
  {
    if scope + "|" <= other {
      assert other[|scope|] == (scope + "|")[|scope|];
    }
  }

  /** With a bar in a name it can forget another's: resolving "a" drops what was accepted for
      the scope "a|b". */
  lemma ResolvingForgetsAnother(now: Date)
    ensures var e := Event("a|b", TerminalFailure, "seen");
            var c := Coordinator(map[], map[e.Key() := e.fingerprint], None, 0, [], [], []);
            IsAccepted(c, e) && !IsAccepted(Resolve(c, "a", now), e)
  {
    var e := Event("a|b", TerminalFailure, "seen");
    var c := Coordinator(map[], map[e.Key() := e.fingerprint], None, 0, [], [], []);
    assert e.scope[..2] == "a" + "|";
    ResolveForgetsTheScope(c, "a", now, e);
  }
}
