/** A closing handler gives the transport up: what it still waits for is bounded, and nobody
    can prolong it. */
module LedgerClosing {
  import opened Common
  import opened LedgerModel
  import opened LedgerSafety
  import opened LedgerTheorems

  /** How many of the things it waits for must still happen, at most. */
  function Rank(h: Handler): nat {
    if h.task.Some? then if h.task.value.awaits.Ready? then 3 else 4
    else if h.calls != [] then if h.calls[0].ConnectCall? then 2 else 1
    else if h.awaitsTask || h.retryScheduled then 2
    else 3
  }

  /** What the handler waits for: its task, its SDK call, the wait for the task or the retry it
      started; and with a used-up retry the nudge of whoever wants the transport next. */
  predicate IsDue(h: Handler, event: Event) {
    if h.task.Some? then if h.task.value.awaits.Ready? then event.EndsTask? else event.Resumes?
    else if h.calls != [] then event.CallsBack?
    else if h.awaitsTask || h.retryScheduled then (h.awaitsTask && event.TaskIsAwaited?) || (h.retryScheduled && event.Retries?)
    else event.Nudged?
  }

  predicate DisconnectFails(h: Handler, event: Event) {
    event == CallsBack(true) && h.calls != [] && !h.calls[0].ConnectCall?
  }

  predicate Holds(l: Local) {
    l.owner.Mine? && l.h.closing
  }

  /** From `l` to `m` the transport was given up, or nothing is prolonged. */
  predicate Nearer(l: Local, m: Local, due: bool) {
    m.owner.Free? || (Holds(m) && if due then Rank(m.h) < Rank(l.h) else Rank(m.h) <= Rank(l.h))
  }

  lemma FinishClosingIsNear(l: Local)
    requires Holds(l) && l.h.task.None? && l.h.calls == [] && !l.h.callbackPending && !l.h.closePending
    ensures var m := FinishClosing(l); m.owner.Free? || (Holds(m) && Rank(m.h) == 1)
    ensures l.link.None? ==> FinishClosing(l).owner.Free?
  {
    if l.link.Some? {
      assert FinishClosing(l) == l.(h := l.h.(closePending := true, calls := [CloseCall]));
    }
  }

  lemma FinishClosingWaits(l: Local)
    requires Holds(l) && (l.h.task.Some? || l.h.callbackPending || l.h.closePending)
    ensures FinishClosing(l) == l
  {
  }

  lemma AskedIsNear(l: Local, request: nat, ask: Ask)
    requires LocalOk(l) && Holds(l)
    ensures Nearer(l, Asked(l, request, ask), false)
  {
    assert l.h.permission.None? && l.h.result.None? && l.h.callbackResult.None?;
    hide LocalOk;
    match ask {
      case AskConnect(valid) => assert Connect(l, request, valid) == Say(l, request, Busy);
      case AskDisconnect => assert Disconnect(l, request) == Say(l, request, Busy);
      case AskExchange(kind, valid) => assert Exchange(l, request, kind, valid) == Say(l, request, Busy);
      case AskCancel => CancelIsNear(l, Cancelled, true);
      case AskPermissions(a) => assert RequestPermissions(l, request, a) == Say(l, request, Busy);
    }
  }

  /** Nothing waits any more, so cancelling only counts. */
  lemma CancelIsNear(l: Local, reply: Reply, cancelPreparation: bool)
    requires l.h.result.None? && l.h.callbackResult.None?
    ensures var m := Cancel(l, reply, cancelPreparation);
            m == l || m == l.(h := l.h.(preparation := l.h.preparation + 1))
  {
    assert CancelConnect(l, reply) == l.(h := l.h.(preparation := l.h.preparation + 1));
  }

  lemma CalledBackIsNear(l: Local, failed: bool)
    requires LocalOk(l) && Holds(l) && !DisconnectFails(l.h, CallsBack(failed))
    ensures Nearer(l, CalledBack(l, failed), IsDue(l.h, CallsBack(failed)))
  {
    assert Slots(l);
    hide LocalOk, FinishConnect, FinishDisconnect, DrainDone, CloseDone, FinishClosing;
    if l.h.calls != [] {
      var m := CallOver(l, failed);
      assert m.h.calls == [];
      match l.h.calls[0] {
        case ConnectCall(_) => ConnectIsNear(m, failed);
        case DisconnectCall => DisconnectIsNear(m, failed);
        case DrainCall => DrainIsNear(m, failed);
        case CloseCall => CloseIsNear(m, failed);
      }
    }
  }

  lemma ConnectIsNear(m: Local, failed: bool)
    requires Holds(m) && m.h.connectPending && m.h.task.None? && m.h.calls == [] && !m.h.closePending
    ensures var n := FinishConnect(m, failed); n.owner.Free? || (Holds(n) && Rank(n.h) == 1)
  {
    FinishClosingIsNear(m.(h := m.h.(connectPending := false, callbackPending := false, callbackResult := None)));
    hide FinishClosing;
  }

  lemma DisconnectIsNear(m: Local, failed: bool)
    requires Holds(m) && m.h.callbackPending && m.h.task.None? && m.h.calls == [] && !m.h.closePending && m.link.None?
    ensures FinishDisconnect(m, failed).owner.Free?
  {
    FinishClosingIsNear(m.(h := m.h.(callbackPending := false, callbackResult := None)));
    hide FinishClosing;
  }

  lemma DrainIsNear(m: Local, failed: bool)
    requires Holds(m) && m.h.callbackPending && m.h.task.None? && m.h.calls == [] && !m.h.closePending && m.link.None?
    ensures DrainDone(m, failed).owner.Free?
  {
    FinishClosingIsNear(m.(h := m.h.(callbackPending := false, needsDisconnect := false)));
    hide FinishClosing;
  }

  lemma CloseIsNear(m: Local, failed: bool)
    requires Holds(m) && m.link.None?
    ensures CloseDone(m, failed).owner.Free?
  {
  }

  lemma FinishesOrWaits(l: Local, m: Local)
    requires LocalOk(l) && Holds(l)
    requires m == l.(h := l.h.(awaitsTask := false)) || m == l.(h := l.h.(retryScheduled := false))
    ensures Nearer(l, FinishClosing(m), l.h.task.None? && l.h.calls == [] && (l.h.awaitsTask || l.h.retryScheduled))
  {
    assert Slots(l) && Closing(l);
    hide LocalOk;
    if l.h.task.None? && l.h.calls == [] {
      FinishClosingIsNear(m);
      hide FinishClosing;
    } else {
      FinishClosingWaits(m);
      hide FinishClosing;
    }
  }

  lemma TaskEndsIsNear(l: Local, outcome: Reply)
    requires LocalOk(l) && Holds(l)
    ensures Nearer(l, TaskEnds(l, outcome), IsDue(l.h, EndsTask(outcome)))
  {
    assert Slots(l) && Results(l) && Closing(l);
    hide LocalOk;
    if l.h.task.Some? && l.h.task.value.awaits.Ready? {
      var task := l.h.task.value;
      var back := task.kind.OpenZcashApp? && (if task.cancelled then Cancelled else outcome).Done?;
      var m := TaskGone(l, back);
      assert TaskAnswered(l, task, outcome) == m;
      RetireIsNear(m);
    }
  }

  lemma RetireIsNear(l: Local)
    requires Holds(l) && l.h.task.None? && l.h.calls == [] && !l.h.callbackPending && l.h.awaitsTask
    ensures var m := RetireLink(l); Holds(m) && Rank(m.h) <= 2
  {
    if l.h.queryRequiresDisconnect {
      var m := l.(h := l.h.(queryRequiresDisconnect := false, needsDisconnect := l.link.Some?));
      if m.link.None? {
        assert Drain(m) == m.(h := m.h.(needsDisconnect := false));
      } else {
        assert Drain(m) == m.(h := m.h.(callbackPending := true, calls := [DrainCall]));
      }
    }
  }

  /** Whatever happens to a closing owner short of a disconnect that fails brings the release
      nearer or changes nothing about it; what it waits for brings it nearer. */
  lemma HappenedIsNear(l: Local, event: Event)
    requires LocalOk(l) && Holds(l) && !DisconnectFails(l.h, event)
    ensures Nearer(l, Happened(l, event), IsDue(l.h, event))
  {
    assert l.h.permission.None? && l.h.result.None? && l.h.callbackResult.None? && (l.h.task.Some? ==> l.h.task.value.cancelled);
    hide Rank, IsDue, Slots, Results, LinkOk, NoRepeats, DisconnectFails, FinishClosing, CalledBack, TaskEnds, Cancel;
    match event {
      case Closes => assert Close(l) == l; SameIsNear(l, l);
      case TaskIsAwaited => FinishesOrWaits(l, l.(h := l.h.(awaitsTask := false)));
      case Retries => FinishesOrWaits(l, l.(h := l.h.(retryScheduled := false)));
      case CallsBack(failed) => CalledBackIsNear(l, failed);
      case LosesDevice(generation) => LossIsNear(l, generation);
      case EndsTask(outcome) => TaskEndsIsNear(l, outcome);
      case Nudged => NudgeIsNear(l);
      case Resumes(failed) => ResumeIsNear(l, failed);
      case _ => QuietKeeps(l, event); SameIsNear(l, Happened(l, event));
    }
    if IsDue(l.h, event) { DueKinds(l.h, event); }
    hide LocalOk, Close, TaskAwaited, RetryFires, HandleDisconnected, ScheduleCloseRetry, TaskResumes, SameWaiting, Holds;
    hide FinishPermission, TimerFires, QueryStarts, TaskSends, TaskReconnects, LinkUp;
  }

  lemma DueKinds(h: Handler, event: Event)
    requires IsDue(h, event)
    ensures event.EndsTask? || event.Resumes? || event.CallsBack? || event.TaskIsAwaited? || event.Retries? || event.Nudged?
  {
  }

  /** Nothing the handler waits for has changed. */
  predicate SameWaiting(l: Local, m: Local) {
    && m.owner == l.owner && m.h.closing == l.h.closing && m.h.task == l.h.task && m.h.calls == l.h.calls
    && m.h.awaitsTask == l.h.awaitsTask && m.h.retryScheduled == l.h.retryScheduled
  }

  lemma SameIsNear(l: Local, m: Local)
    requires Holds(l) && SameWaiting(l, m)
    ensures Nearer(l, m, false)
  {
  }

  lemma LossIsNear(l: Local, generation: nat)
    requires Holds(l) && l.h.result.None? && l.h.callbackResult.None?
    ensures Nearer(l, HandleDisconnected(l, generation), false)
  {
    var m := l.(h := l.h.(connected := false));
    CancelIsNear(m, Disconnected, false);
    hide Cancel;
    assert SameWaiting(l, HandleDisconnected(l, generation));
    hide HandleDisconnected;
    SameIsNear(l, HandleDisconnected(l, generation));
  }

  /** The events that touch neither results nor the transport. */
  lemma QuietKeeps(l: Local, event: Event)
    requires l.h.permission.None? && l.h.result.None?
    requires l.h.task.Some? ==> l.h.task.value.cancelled
    requires event.TimesOut? || event.DecidesPermission? || event.StartsQuery? || event.SendsApdu?
             || event.Reconnects? || event.LinkComesUp? || event.LinkGoesDown?
    ensures SameWaiting(l, Happened(l, event))
  {
    hide Close, TaskAwaited, RetryFires, ScheduleCloseRetry, CalledBack, HandleDisconnected, TaskResumes, TaskEnds, Cancel;
    hide FinishPermission, TimerFires, QueryStarts, TaskSends, TaskReconnects, LinkUp, SameWaiting;
    match event {
      case DecidesPermission => PermissionKeeps(l);
      case TimesOut(generation) => TimerKeeps(l, generation);
      case StartsQuery => QueryKeeps(l);
      case SendsApdu => SendKeeps(l);
      case Reconnects => ReconnectKeeps(l);
      case LinkComesUp => LinkKeeps(l);
      case LinkGoesDown => DownKeeps(l);
    }
  }

  lemma PermissionKeeps(l: Local)
    requires l.h.permission.None?
    ensures SameWaiting(l, FinishPermission(l))
  {
  }

  lemma TimerKeeps(l: Local, generation: nat)
    requires l.h.result.None?
    ensures SameWaiting(l, TimerFires(l, generation))
  {
    hide Cancel;
  }

  lemma QueryKeeps(l: Local)
    ensures SameWaiting(l, QueryStarts(l))
  {
  }

  lemma SendKeeps(l: Local)
    requires l.h.task.Some? ==> l.h.task.value.cancelled
    ensures SameWaiting(l, TaskSends(l))
  {
  }

  lemma ReconnectKeeps(l: Local)
    requires l.h.task.Some? ==> l.h.task.value.cancelled
    ensures SameWaiting(l, TaskReconnects(l))
  {
  }

  lemma LinkKeeps(l: Local)
    ensures SameWaiting(l, LinkUp(l))
  {
  }

  lemma DownKeeps(l: Local)
    ensures SameWaiting(l, l.(link := None))
  {
  }

  lemma NudgeIsNear(l: Local)
    requires Holds(l)
    ensures Nearer(l, ScheduleCloseRetry(l), IsDue(l.h, Nudged))
  {
  }

  lemma ResumeIsNear(l: Local, failed: bool)
    requires Holds(l)
    ensures Nearer(l, TaskResumes(l, failed), IsDue(l.h, Resumes(failed)))
  {
  }

  // ---------- over runs ----------

  /** Handler `i` is closing and still owns the transport. */
  predicate Holding(w: World, i: nat) {
    i < |w.handlers| && w.owner == Some(i) && w.handlers[i].closing
  }

  predicate DueStep(w: World, i: nat, step: (nat, Step))
    requires i < |w.handlers|
  {
    step.0 == i && step.1.Occurs? && IsDue(w.handlers[i], step.1.event)
  }

  predicate FailingStep(w: World, i: nat, step: (nat, Step))
    requires i < |w.handlers|
  {
    step.0 == i && step.1.Occurs? && DisconnectFails(w.handlers[i], step.1.event)
  }

  lemma StepIsNear(w: World, i: nat, j: nat, step: Step)
    requires WorldOk(w) && Holding(w, i) && j < |w.handlers| && !FailingStep(w, i, (j, step))
    requires Holding(Next(w, j, step), i)
    ensures var v := Next(w, j, step);
            if DueStep(w, i, (j, step)) then Rank(v.handlers[i]) < Rank(w.handlers[i])
            else Rank(v.handlers[i]) <= Rank(w.handlers[i])
  {
    hide HandlerOk, Conserved, Asked, Happened, Rank, IsDue, DisconnectFails, Count;
    if i == j {
      CountsAreBounded(w, i);
      match step
      case Request(ask) => AskedIsNear(View(w, i), w.next, ask);
      case Occurs(event) => HappenedIsNear(View(w, i), event);
    }
  }

  /** How many of the things that handler `i` waits for happen during `more`. */
  function DueSteps(count: nat, steps: seq<(nat, Step)>, more: seq<(nat, Step)>, i: nat): nat
    requires i < count
  {
    if more == [] then 0
    else
      var before := more[..|more| - 1];
      DueSteps(count, steps, before, i) + if DueStep(Run(count, steps + before), i, more[|more| - 1]) then 1 else 0
  }

  /** While a closing handler keeps the transport, and no disconnect fails, at most three of
      the things it waits for happen, whatever else anyone does: the next one releases it. */
  lemma {:induction false} ClosingEnds(count: nat, steps: seq<(nat, Step)>, more: seq<(nat, Step)>, i: nat)
    requires i < count
    requires forall n :: 0 <= n <= |more| ==> Holding(Run(count, steps + more[..n]), i)
    requires forall n :: 0 <= n < |more| ==> !FailingStep(Run(count, steps + more[..n]), i, more[n])
    ensures DueSteps(count, steps, more, i) + Rank(Run(count, steps + more).handlers[i]) <= Rank(Run(count, steps).handlers[i])
    ensures DueSteps(count, steps, more, i) <= 3
  {
    hide HandlerOk, Conserved, Next, IsDue, DisconnectFails, Rank, Run, FailingStep, DueStep;
    if more == [] {
      assert steps + more == steps;
    } else {
      var before := more[..|more| - 1];
      var (j, step) := more[|more| - 1];
      forall n | 0 <= n <= |before| ensures more[..n] == before[..n] {
      }
      ClosingEnds(count, steps, before, i);
      assert more[..|more|] == more;
      LastStep(count, steps, more);
      RunOk(count, steps + before);
      if j < count {
        StepIsNear(Run(count, steps + before), i, j, step);
      } else {
        NotDue(Run(count, steps + before), i, more[|more| - 1]);
      }
    }
    RankIsBounded(Run(count, steps).handlers[i]);
    RankIsBounded(Run(count, steps + more).handlers[i]);
  }

  lemma RankIsBounded(h: Handler)
    ensures 1 <= Rank(h) <= 4
  {
  }

  lemma NotDue(w: World, i: nat, step: (nat, Step))
    requires i < |w.handlers| <= step.0
    ensures !DueStep(w, i, step)
  {
  }

  lemma LastStep(count: nat, steps: seq<(nat, Step)>, more: seq<(nat, Step)>)
    requires more != []
    ensures var w := Run(count, steps + more[..|more| - 1]);
            var (j, step) := more[|more| - 1];
            Run(count, steps + more) == if j < count then Next(w, j, step) else w
  {
    hide Asked, Happened, View, Put;
    var all := steps + more;
    assert all[..|all| - 1] == steps + more[..|more| - 1];
    assert all[|all| - 1] == more[|more| - 1];
  }
}
