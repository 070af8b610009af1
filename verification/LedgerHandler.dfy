/** The Ledger handler as the object it is: fields updated in place, one transport shared by
    all handlers. Every method is proved against the protocol function of the same purpose. */
module LedgerHandler {
  import opened Common
  import Protocol = LedgerModel
  import opened LedgerModel

  /** The shared transport: its owner, its link, and everything answered and sent so far. */
  class Transport {
    var owner: LedgerMobileHandler?
    var link: Option<Link>
    var answers: seq<Answer>
    var sends: seq<Send>

    constructor ()
      ensures owner == null && link.None? && answers == [] && sends == []
    {
      owner, link, answers, sends := null, None, [], [];
    }

    method Answer(request: nat, reply: Reply)
      modifies this`answers
      ensures answers == old(answers) + [Protocol.Answer(request, reply)]
    {
      answers := answers + [Protocol.Answer(request, reply)];
    }
  }

  class LedgerMobileHandler {
    var h: Handler

    constructor ()
      ensures h == IDLE
    {
      h := IDLE;
    }

    function Now(t: Transport): Local
      reads this, t
    {
      Local(h, if t.owner == null then Free else if t.owner == this then Mine else Other, t.link, t.answers, t.sends)
    }

    /** A handler that does not own the transport leaves the owner alone. */
    twostate predicate OwnerKept(t: Transport)
      reads t
    {
      old(t.owner) != null && old(t.owner) != this ==> t.owner == old(t.owner)
    }

    /** A closing owner that was in the way has at most been nudged. */
    twostate predicate NudgedAtMost(t: Transport, other: LedgerMobileHandler?)
      reads other
    {
      other != null && other != this ==>
        other.h == old(other.h) || other.h == Protocol.ScheduleCloseRetry(old(other.Now(t))).h
    }

    method Settle(t: Transport, waiting: Option<nat>, reply: Reply)
      modifies t`answers
      ensures Now(t) == SayIfAny(old(Now(t)), waiting, reply)
    {
      if waiting.Some? { t.Answer(waiting.value, reply); }
    }

    // ---------- closing ----------

    method FinishClosing(t: Transport)
      modifies this, t
      ensures Now(t) == Protocol.FinishClosing(old(Now(t))) && OwnerKept(t)
    {
      if t.owner != this || h.task.Some? || h.callbackPending || h.closePending { return; }
      if t.link.None? {
        t.owner := null;
      } else {
        h := h.(closePending := true, calls := h.calls + [CloseCall]);
      }
    }

    method ScheduleCloseRetry(t: Transport)
      modifies this
      ensures Now(t) == Protocol.ScheduleCloseRetry(old(Now(t)))
    {
      if h.closing && !h.retryScheduled && t.owner == this { h := h.(retryScheduled := true); }
    }

    method RetryFires(t: Transport)
      modifies this, t
      ensures Now(t) == Protocol.RetryFires(old(Now(t))) && OwnerKept(t)
    {
      if h.retryScheduled {
        h := h.(retryScheduled := false);
        FinishClosing(t);
      }
    }

    method FinishPermissionRequest(t: Transport)
      modifies this, t`answers
      ensures Now(t) == FinishPermission(old(Now(t)))
    {
      var waiting := h.permission;
      h := h.(permission := None);
      Settle(t, waiting, Done);
    }

    method Close(t: Transport)
      modifies this, t
      ensures Now(t) == Protocol.Close(old(Now(t))) && OwnerKept(t)
    {
      if h.closing { return; }
      h := h.(closing := true);
      FinishPermissionRequest(t);
      if t.owner != this { return; }
      CancelExchangeOperation(t, Cancelled, true);
      var waiting := h.callbackResult;
      h := h.(callbackResult := None);
      Settle(t, waiting, Cancelled);
      h := h.(connected := false);
      if h.task.None? {
        FinishClosing(t);
      } else {
        h := h.(awaitsTask := true);
      }
    }

    /** The SDK's answer to the disconnect that `FinishClosing` asked for. */
    method CloseDone(t: Transport, failed: bool)
      modifies this, t
      ensures Now(t) == Protocol.CloseDone(old(Now(t)), failed) && OwnerKept(t)
    {
      h := h.(closePending := false);
      if failed && t.link.Some? {
        if !h.retryUsed {
          h := h.(retryUsed := true);
          ScheduleCloseRetry(t);
        }
        return;
      }
      if t.owner == this { t.owner := null; }
    }

    // ---------- the transport ----------

    /** Claims the transport for a request, or answers it. A closing owner that is in the way
        is nudged to try again. */
    method TransportForOperation(t: Transport, request: nat) returns (granted: bool)
      modifies this, t, if t.owner == null then {} else {t.owner}
      ensures (Now(t), granted) == TransportFor(old(Now(t)), request) && OwnerKept(t)
      ensures NudgedAtMost(t, old(t.owner))
      ensures var other := old(t.owner);
              other != null && other != this && !h.closing ==>
                other.h == Protocol.ScheduleCloseRetry(old(other.Now(t))).h
    {
      if h.closing {
        t.Answer(request, Busy);
        return false;
      }
      if t.owner != null && t.owner != this {
        var other := t.owner;
        other.ScheduleCloseRetry(t);
        t.Answer(request, Busy);
        return false;
      }
      t.owner := this;
      if h.needsDisconnect {
        DrainCancelledConnection(t);
        t.Answer(request, Busy);
        return false;
      }
      return true;
    }

    method DrainCancelledConnection(t: Transport)
      modifies this
      ensures Now(t) == Drain(old(Now(t)))
    {
      if h.callbackPending { return; }
      if t.link.None? {
        h := h.(needsDisconnect := false);
      } else {
        h := h.(callbackPending := true, calls := h.calls + [DrainCall]);
      }
    }

    method DrainDone(t: Transport, failed: bool)
      modifies this, t
      ensures Now(t) == Protocol.DrainDone(old(Now(t)), failed) && OwnerKept(t)
    {
      h := h.(callbackPending := false, needsDisconnect := failed && t.link.Some?);
      if h.closing { FinishClosing(t); }
    }

    method Connect(t: Transport, request: nat, valid: bool)
      modifies this, t, if t.owner == null then {} else {t.owner}
      ensures Now(t) == Protocol.Connect(old(Now(t)), request, valid) && OwnerKept(t) && NudgedAtMost(t, old(t.owner))
    {
      if h.permission.Some? || h.task.Some? || h.callbackPending {
        t.Answer(request, Busy);
        return;
      }
      var granted := TransportForOperation(t, request);
      if !granted { return; }
      if !valid {
        t.Answer(request, NotConnected);
        return;
      }
      h := h.(connectPending := true, callbackPending := true, callbackResult := Some(request),
              connectionGeneration := h.connectionGeneration + 1, calls := h.calls + [ConnectCall(request)]);
    }

    method FinishConnect(t: Transport, failed: bool)
      modifies this, t
      ensures Now(t) == Protocol.FinishConnect(old(Now(t)), failed) && OwnerKept(t)
    {
      if !h.connectPending { return; }
      var waiting := h.callbackResult;
      h := h.(connectPending := false, callbackPending := false, callbackResult := None);
      if h.closing {
        FinishClosing(t);
      } else if h.needsDisconnect {
        DrainCancelledConnection(t);
      } else if failed {
        Settle(t, waiting, Failed);
      } else {
        h := h.(connected := true);
        Settle(t, waiting, Done);
      }
    }

    method Disconnect(t: Transport, request: nat)
      modifies this, t, if t.owner == null then {} else {t.owner}
      ensures Now(t) == Protocol.Disconnect(old(Now(t)), request) && OwnerKept(t) && NudgedAtMost(t, old(t.owner))
    {
      var granted := TransportForOperation(t, request);
      if !granted { return; }
      CancelExchangeOperation(t, Disconnected, true);
      if h.task.Some? || h.callbackPending {
        t.Answer(request, Busy);
        return;
      }
      h := h.(connected := false);
      if t.link.None? {
        t.Answer(request, Done);
        return;
      }
      h := h.(callbackPending := true, callbackResult := Some(request), calls := h.calls + [DisconnectCall]);
    }

    method FinishDisconnect(t: Transport, failed: bool)
      modifies this, t
      ensures Now(t) == Protocol.FinishDisconnect(old(Now(t)), failed) && OwnerKept(t)
    {
      if !h.callbackPending { return; }
      var waiting := h.callbackResult;
      h := h.(callbackPending := false, callbackResult := None);
      if h.closing {
        FinishClosing(t);
      } else {
        Settle(t, waiting, if failed then Failed else Done);
      }
    }

    method HandleDisconnected(t: Transport, linkGeneration: nat)
      modifies this, t`answers
      ensures Now(t) == Protocol.HandleDisconnected(old(Now(t)), linkGeneration)
    {
      if linkGeneration != h.connectionGeneration { return; }
      h := h.(connected := false);
      if h.recovers { return; }
      CancelExchangeOperation(t, Disconnected, false);
    }

    // ---------- exchanges ----------

    method CancelExchangeOperation(t: Transport, reply: Reply, cancelPreparation: bool)
      modifies this, t`answers
      ensures Now(t) == Cancel(old(Now(t)), reply, cancelPreparation)
    {
      hide CancelConnect, CancelExchange;
      if cancelPreparation { CancelPreparation(t, reply); }
      CancelTask(t, reply);
    }

    method CancelTask(t: Transport, reply: Reply)
      modifies this, t`answers
      ensures Now(t) == CancelExchange(old(Now(t)), reply)
    {
      if h.result.None? { return; }
      var waiting := h.result.value;
      var task := if h.task.Some? then Some(h.task.value.(cancelled := true)) else None;
      h := h.(generation := h.generation + 1, result := None, task := task);
      t.Answer(waiting, reply);
    }

    method CancelPreparation(t: Transport, reply: Reply)
      modifies this, t`answers
      ensures Now(t) == CancelConnect(old(Now(t)), reply)
    {
      h := h.(preparation := h.preparation + 1);
      if h.connectPending && h.callbackResult.Some? {
        var waiting := h.callbackResult.value;
        h := h.(needsDisconnect := true, connectionGeneration := h.connectionGeneration + 1,
                connected := false, callbackResult := None);
        t.Answer(waiting, reply);
      }
    }

    method Exchange(t: Transport, request: nat, kind: Kind, valid: bool)
      modifies this, t, if t.owner == null then {} else {t.owner}
      ensures Now(t) == Protocol.Exchange(old(Now(t)), request, kind, valid) && OwnerKept(t) && NudgedAtMost(t, old(t.owner))
    {
      if h.permission.Some? || h.callbackPending {
        t.Answer(request, Busy);
        return;
      }
      var granted := TransportForOperation(t, request);
      if !granted { return; }
      if !h.connected || t.link.None? {
        t.Answer(request, NotConnected);
      } else if !valid {
        t.Answer(request, Invalid);
      } else {
        StartExchange(t, request, kind);
      }
    }

    method StartExchange(t: Transport, request: nat, kind: Kind)
      modifies this, t`answers
      ensures Now(t) == Protocol.StartExchange(old(Now(t)), request, kind)
    {
      if h.task.Some? {
        t.Answer(request, Busy);
        return;
      }
      var generation := h.generation + 1;
      h := h.(generation := generation, result := Some(request), recovers := kind.OpenZcashApp?,
              task := Some(Task(request, kind, generation, h.preparation, false, Ready)));
    }

    method FinishExchange(t: Transport, taskGeneration: nat, reply: Reply)
      modifies this, t`answers
      ensures Now(t) == Protocol.FinishExchange(old(Now(t)), taskGeneration, reply)
    {
      if taskGeneration == h.generation && h.result.Some? {
        var waiting := h.result.value;
        h := h.(result := None);
        t.Answer(waiting, reply);
      }
    }

    /** The device did not answer an app query in time. */
    method QueryTimesOut(t: Transport, queryGeneration: nat)
      modifies this, t`answers
      ensures Now(t) == TimerFires(old(Now(t)), queryGeneration)
    {
      if queryGeneration in h.timers && queryGeneration == h.generation && h.result.Some? {
        h := h.(queryRequiresDisconnect := true, connected := false);
        CancelExchangeOperation(t, Disconnected, true);
      }
    }

    /** The task returns or throws, and its slot is free again. */
    method TaskEnds(t: Transport, outcome: Reply)
      modifies this, t`answers
      ensures Now(t) == Protocol.TaskEnds(old(Now(t)), outcome)
    {
      if h.task.None? || !h.task.value.awaits.Ready? { return; }
      var ended := h.task.value;
      var reply := if ended.cancelled then Cancelled else outcome;
      FinishExchange(t, ended.generation, reply);
      FreeSlot(t, ended.kind.OpenZcashApp? && reply.Done?);
      RetireQueriedLink(t);
      hide Protocol.FinishExchange, TaskGone, RetireLink;
    }

    method FreeSlot(t: Transport, back: bool)
      modifies this
      ensures Now(t) == TaskGone(old(Now(t)), back)
    {
      h := h.(task := None, recovers := false, connected := h.connected || back);
    }

    method RetireQueriedLink(t: Transport)
      modifies this
      ensures Now(t) == RetireLink(old(Now(t)))
    {
      if h.queryRequiresDisconnect {
        h := h.(queryRequiresDisconnect := false, needsDisconnect := t.link.Some?);
        DrainCancelledConnection(t);
        hide Drain;
      }
    }

    /** The last thing before the device: look at the cancellation, then hand the APDU over. */
    method SendApdu(t: Transport)
      modifies this, t`sends
      ensures Now(t) == TaskSends(old(Now(t)))
    {
      if h.task.None? || !h.task.value.awaits.Ready? || h.task.value.cancelled { return; }
      h := h.(task := Some(h.task.value.(awaits := Apdu)));
      t.sends := t.sends + [Send(h.task.value.request, |t.answers|, t.link)];
    }

    method TaskAwaited(t: Transport)
      modifies this, t
      ensures Now(t) == Protocol.TaskAwaited(old(Now(t))) && OwnerKept(t)
    {
      if h.awaitsTask && h.task.None? {
        h := h.(awaitsTask := false);
        FinishClosing(t);
      }
    }

    method StartQuery(t: Transport)
      modifies this
      ensures Now(t) == QueryStarts(old(Now(t)))
    {
      if h.task.Some? && h.task.value.awaits.Ready? { h := h.(timers := h.timers + {h.generation}); }
    }

    method Reconnect(t: Transport)
      modifies this
      ensures Now(t) == TaskReconnects(old(Now(t)))
    {
      if h.task.None? || !h.task.value.awaits.Ready? || !h.task.value.kind.OpenZcashApp? { return; }
      if h.task.value.cancelled || h.preparation != h.task.value.preparation { return; }
      h := h.(connectionGeneration := h.connectionGeneration + 1, task := Some(h.task.value.(awaits := Await.Reconnect)));
    }

    method Resume(t: Transport, failed: bool)
      modifies this
      ensures Now(t) == TaskResumes(old(Now(t)), failed)
    {
      if h.task.None? || h.task.value.awaits.Ready? { return; }
      var connected := h.connected || (h.task.value.awaits.Reconnect? && !failed);
      h := h.(connected := connected, task := Some(h.task.value.(awaits := Ready)));
    }

    method RequestPermissions(t: Transport, request: nat, authorization: Authorization)
      modifies this, t, if t.owner == null then {} else {t.owner}
      ensures Now(t) == Protocol.RequestPermissions(old(Now(t)), request, authorization)
      ensures OwnerKept(t) && NudgedAtMost(t, old(t.owner))
    {
      if h.closing || h.permission.Some? || h.task.Some? || h.callbackPending {
        t.Answer(request, Busy);
        return;
      }
      if !authorization.NotDetermined? {
        t.Answer(request, Done);
        return;
      }
      var granted := TransportForOperation(t, request);
      if granted { h := h.(permission := Some(request)); }
    }

    method EndCall(t: Transport, failed: bool)
      requires h.calls != []
      modifies this, t`link
      ensures Now(t) == CallOver(old(Now(t)), failed)
    {
      if !failed && !h.calls[0].ConnectCall? { t.link := None; }
      h := h.(calls := h.calls[1..]);
    }

    method CallBack(t: Transport, failed: bool)
      modifies this, t
      ensures Now(t) == CalledBack(old(Now(t)), failed) && OwnerKept(t)
    {
      if h.calls == [] { return; }
      var call := h.calls[0];
      EndCall(t, failed);
      hide CallOver;
      match call {
        case ConnectCall(_) => FinishConnect(t, failed);
        case DisconnectCall => FinishDisconnect(t, failed);
        case DrainCall => DrainDone(t, failed);
        case CloseCall => CloseDone(t, failed);
      }
      hide Protocol.FinishConnect, Protocol.FinishDisconnect, Protocol.DrainDone, Protocol.CloseDone;
    }

    method LinkComesUp(t: Transport)
      modifies t`link
      ensures Now(t) == LinkUp(old(Now(t)))
    {
      if h.calls != [] && h.calls[0].ConnectCall? {
        t.link := Some(Link(h.calls[0].request, false));
      } else if h.task.Some? && h.task.value.awaits.Reconnect? {
        t.link := Some(Link(h.task.value.request, true));
      }
    }

    // ---------- everything that can reach a handler ----------

    method Handle(t: Transport, request: nat, ask: Ask)
      modifies this, t, if t.owner == null then {} else {t.owner}
      ensures Now(t) == Asked(old(Now(t)), request, ask) && OwnerKept(t) && NudgedAtMost(t, old(t.owner))
    {
      hide Protocol.Connect, Protocol.Disconnect, Protocol.Exchange, Protocol.RequestPermissions, Cancel;
      match ask {
        case AskConnect(valid) => Connect(t, request, valid);
        case AskDisconnect => Disconnect(t, request);
        case AskExchange(kind, valid) => Exchange(t, request, kind, valid);
        case AskCancel =>
          CancelExchangeOperation(t, Cancelled, true);
          t.Answer(request, Done);
        case AskPermissions(authorization) => RequestPermissions(t, request, authorization);
      }
    }

    method Occur(t: Transport, event: Event)
      modifies this, t
      ensures Now(t) == Happened(old(Now(t)), event) && OwnerKept(t)
    {
      hide Protocol.Close, Protocol.TaskAwaited, Protocol.RetryFires, Protocol.ScheduleCloseRetry, CalledBack;
      hide Protocol.HandleDisconnected, TimerFires, FinishPermission, QueryStarts, TaskSends, TaskReconnects, TaskResumes;
      hide Protocol.TaskEnds, LinkUp;
      match event {
        case Closes => Close(t);
        case TaskIsAwaited => TaskAwaited(t);
        case Retries => RetryFires(t);
        case Nudged => ScheduleCloseRetry(t);
        case CallsBack(failed) => CallBack(t, failed);
        case LosesDevice(generation) => HandleDisconnected(t, generation);
        case TimesOut(generation) => QueryTimesOut(t, generation);
        case DecidesPermission => FinishPermissionRequest(t);
        case StartsQuery => StartQuery(t);
        case SendsApdu => SendApdu(t);
        case Reconnects => Reconnect(t);
        case Resumes(failed) => Resume(t, failed);
        case EndsTask(outcome) => TaskEnds(t, outcome);
        case LinkComesUp => LinkComesUp(t);
        case LinkGoesDown => t.link := None;
      }
    }
  }
}
