/** The coordinator as the object it is: state changed in place, one block of its serial
    queue a method, each proved against the function of the same purpose. */
module NotificationCoordinator {
  import opened Common
  import opened Notifications

  class PreparationNotificationCoordinator {
    var pending: map<string, Event>
    var accepted: map<string, string>
    var deadline: Option<Date>
    var generation: nat
    var waiting: seq<Option<nat>>
    var submitted: seq<Submission>
    var answers: seq<Answer>

    constructor (pending: map<string, Event>, accepted: map<string, string>, deadline: Option<Date>)
      ensures Now() == Start(pending, accepted, deadline).c
    {
      this.pending, this.accepted, this.deadline := pending, accepted, deadline;
      generation, waiting, submitted, answers := 0, [], [], [];
    }

    function Now(): Coordinator
      reads this
    {
      Coordinator(pending, accepted, deadline, generation, waiting, submitted, answers)
    }

    // ---------- the batch ----------

    method EnqueueEvent(e: Event) returns (changed: bool)
      modifies this`pending
      ensures (Now(), changed) == Notifications.EnqueueEvent(old(Now()), e)
    {
      if e.Key() in accepted && accepted[e.Key()] == e.fingerprint { return false; }
      if e.Key() in pending && pending[e.Key()] == e { return false; }
      pending := pending[e.Key() := e];
      return true;
    }

    method EnqueueEvents(events: seq<Event>) returns (changed: bool)
      modifies this`pending
      ensures (Now(), changed) == Notifications.EnqueueEvents(old(Now()), events)
    {
      changed := false;
      var i := 0;
      while i < |events|
        invariant 0 <= i <= |events|
        invariant (Now(), changed) == Notifications.EnqueueEvents(old(Now()), events[..i])
      {
        assert events[..i + 1][..i] == events[..i] && events[..i + 1][i] == events[i];
        var last := EnqueueEvent(events[i]);
        changed := last || changed;
        i := i + 1;
      }
      assert events[..|events|] == events;
    }

    method MarkAccepted(events: map<string, Event>)
      modifies this`accepted
      ensures accepted == Notifications.MarkAccepted(old(accepted), events)
    {
      var left := events.Keys;
      while left != {}
        invariant left <= events.Keys
        invariant accepted.Keys == old(accepted).Keys + (events.Keys - left)
        invariant forall k :: k in accepted ==>
          accepted[k] == if k in events && k !in left then events[k].fingerprint else old(accepted)[k]
        decreases |left|
      {
        var k :| k in left;
        accepted := accepted[k := events[k].fingerprint];
        left := left - {k};
      }
    }

    method ExpireBatchIfNeeded(now: Date)
      modifies this`pending, this`deadline
      ensures Now() == Expire(old(Now()), now)
    {
      if deadline.Some? && deadline.value <= now {
        pending := map[];
        deadline := None;
      }
    }

    // ---------- waiting callers ----------

    method Answer(caller: Option<nat>, registered: bool)
      modifies this`answers
      ensures Now() == Say(old(Now()), caller, registered)
    {
      if caller.Some? { answers := answers + [Notifications.Answer(caller.value, registered)]; }
    }

    method FlushSubmissionCompletions(registered: bool)
      modifies this`waiting, this`answers
      ensures Now() == Flush(old(Now()), registered)
    {
      var completions := waiting;
      waiting := [];
      var i := 0;
      while i < |completions|
        invariant 0 <= i <= |completions| && waiting == []
        invariant answers == old(answers) + Replies(completions[..i], registered)
      {
        assert completions[..i + 1][..i] == completions[..i];
        Answer(completions[i], registered);
        i := i + 1;
      }
      assert completions[..|completions|] == completions;
    }

    method SchedulePendingSummary(now: Date, caller: Option<nat>)
      modifies this
      ensures Now() == Schedule(old(Now()), now, caller)
    {
      if pending == map[] {
        Answer(caller, true);
        return;
      }
      var due := if deadline.Some? then deadline.value else now + AGGREGATION_WINDOW;
      deadline := Some(due);
      generation := generation + 1;
      waiting := waiting + [caller];
      submitted := submitted + [Submission(generation, pending, if due - now > 1 then due - now else 1)];
    }

    // ---------- the operations ----------

    method Enqueue(events: seq<Event>, caller: nat, now: Date)
      modifies this
      ensures Now() == Notifications.Enqueue(old(Now()), events, caller, now)
    {
      if events == [] {
        Answer(Some(caller), true);
        return;
      }
      ExpireBatchIfNeeded(now);
      var changed := EnqueueEvents(events);
      hide Notifications.EnqueueEvents, Schedule;
      if !changed {
        var alreadySubmitted := forall e :: e in events ==> e.Key() in accepted && accepted[e.Key()] == e.fingerprint;
        assert alreadySubmitted == forall e :: e in events ==> IsAccepted(Now(), e);
        if alreadySubmitted {
          Answer(Some(caller), true);
        } else {
          SchedulePendingSummary(now, Some(caller));
        }
        return;
      }
      if deadline.None? { deadline := Some(now + AGGREGATION_WINDOW); }
      SchedulePendingSummary(now, Some(caller));
    }

    method WithdrawIfEmpty()
      modifies this
      ensures Now() == Notifications.WithdrawIfEmpty(old(Now()))
    {
      if pending == map[] {
        generation := generation + 1;
        FlushSubmissionCompletions(true);
      }
    }

    method Resolve(scope: string, now: Date)
      modifies this
      ensures Now() == Notifications.Resolve(old(Now()), scope, now)
    {
      var existing := deadline;
      pending := OutsideScope(pending, scope);
      accepted := map k | k in accepted && !BelongsTo(k, scope) :: accepted[k];
      deadline := None;
      if pending != map[] && existing.Some? && existing.value > now { deadline := existing; }
      WithdrawIfEmpty();
      hide Notifications.WithdrawIfEmpty;
    }

    method Retain(scopes: set<string>, now: Date)
      modifies this
      ensures Now() == Notifications.Retain(old(Now()), scopes, now)
    {
      var existing := deadline;
      pending := map k | k in pending && pending[k].scope in scopes :: pending[k];
      accepted := map k | k in accepted && BelongsToSome(k, scopes) :: accepted[k];
      deadline := if pending != map[] && existing.Some? && existing.value > now then existing else None;
      WithdrawIfEmpty();
      hide Notifications.WithdrawIfEmpty;
    }

    /** The second half of `Resolve` and `Retain`, once the centre has listed its requests. */
    method PendingListed(asked: Date, summaryIsPending: bool)
      modifies this
      ensures Now() == Listed(old(Now()), asked, summaryIsPending)
    {
      if pending == map[] { return; }
      if !summaryIsPending {
        deadline := None;
        return;
      }
      SchedulePendingSummary(asked, None);
    }

    method ClearDeliveredSummary(now: Date)
      modifies this
      ensures Now() == ClearDelivered(old(Now()), now)
    {
      if pending == map[] { return; }
      deadline := None;
      SchedulePendingSummary(now, None);
    }

    method SuppressCurrentBatch()
      modifies this
      ensures Now() == Suppress(old(Now()))
    {
      MarkAccepted(pending);
      pending := map[];
      deadline := None;
      generation := generation + 1;
      FlushSubmissionCompletions(true);
    }

    method ClearAll()
      modifies this
      ensures Now() == Notifications.ClearAll(old(Now()))
    {
      generation := generation + 1;
      pending, accepted, deadline := map[], map[], None;
      FlushSubmissionCompletions(false);
    }

    /** The centre completes the `k`th outstanding submission. */
    method SubmissionCompleted(k: nat, succeeded: bool)
      requires k < |submitted|
      modifies this
      ensures Now() == Completed(old(Now()), k, succeeded)
    {
      var s := submitted[k];
      submitted := submitted[..k] + submitted[k + 1..];
      if s.generation != generation { return; }
      if succeeded { MarkAccepted(s.events); }
      FlushSubmissionCompletions(succeeded);
    }
  }
}
