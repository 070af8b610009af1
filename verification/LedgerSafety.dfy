/** The Ledger protocol's invariants, and what they give over every run of any number of
    handlers sharing one transport. */
module LedgerSafety {
  import opened Common
  import opened LedgerModel

  // ---------- requests ----------

  function Has(waiting: Option<nat>, request: nat): nat {
    if waiting == Some(request) then 1 else 0
  }

  /** How often this handler owes `request` an answer. */
  function Owing(h: Handler, request: nat): nat {
    Has(h.result, request) + Has(h.callbackResult, request) + Has(h.permission, request)
  }

  /** How often `request` was answered. */
  function Times(answers: seq<Answer>, request: nat): nat {
    if answers == [] then 0
    else
      var last := answers[|answers| - 1];
      Times(answers[..|answers| - 1], request) + if last.request == request then 1 else 0
  }

  function Count(l: Local, request: nat): nat {
    Owing(l.h, request) + Times(l.answers, request)
  }

  ghost predicate NoRepeats(l: Local) {
    forall r :: Count(l, r) <= 1
  }

  /** A request that was answered by calling it off. */
  ghost predicate WasCancelled(answers: seq<Answer>, request: nat) {
    exists a :: a in answers && a.request == request && (a.reply.Cancelled? || a.reply.Disconnected?)
  }

  // ---------- one handler ----------

  /** The connect call under way. */
  function Connecting(h: Handler): (request: Option<nat>) {
    if h.calls != [] && h.calls[0].ConnectCall? then Some(h.calls[0].request) else None
  }

  /** The flags say what is outstanding with the SDK: at most one call, and none while an
      exchange task lives. */
  predicate Slots(l: Local) {
    var h := l.h;
    && |h.calls| <= 1
    && (h.callbackPending <==> h.calls != [] && !h.calls[0].CloseCall?)
    && (h.connectPending <==> Connecting(h).Some?)
    && (h.closePending <==> h.calls != [] && h.calls[0].CloseCall?)
    && (h.task.Some? ==> h.calls == [])
    && (h.task.Some? || h.calls != [] ==> l.owner.Mine?)
  }

  /** Whose results the handler holds. */
  predicate Results(l: Local) {
    var h := l.h;
    && (h.callbackResult.Some? ==>
          h.callbackPending && !h.needsDisconnect && h.calls != [] && !h.calls[0].DrainCall?)
    && (h.connectPending ==>
          if h.callbackResult.Some? then h.callbackResult == Connecting(h)
          else h.needsDisconnect && Connecting(h).Some? && Times(l.answers, Connecting(h).value) > 0)
    && (h.result.Some? <==> h.task.Some? && !h.task.value.cancelled)
    && (h.result.Some? ==> h.result.value == h.task.value.request && h.generation == h.task.value.generation)
    && (h.needsDisconnect ==> h.task.None?)
  }

  /** A closing handler holds no results, and gives the transport up unless something will
      still make it, or the link could not be brought down twice. */
  predicate Closing(l: Local) {
    var h := l.h;
    && (h.closing ==> h.permission.None? && h.result.None? && h.callbackResult.None?)
    && (h.closing && l.owner.Mine? && h.task.Some? ==> h.awaitsTask)
    && (h.awaitsTask || h.retryScheduled || h.closePending ==> h.closing)
    && (h.closing && l.owner.Mine? && h.task.None? && h.calls == [] ==> h.awaitsTask || h.retryScheduled || h.retryUsed)
  }

  /** The link of a cancelled connect is marked for disconnection. */
  ghost predicate LinkOk(l: Local) {
    && (l.owner.Free? ==> l.link.None?)
    && (l.link.Some? && l.owner.Mine? && !l.link.value.reconnected ==>
          var r := l.link.value.source;
          && (Times(l.answers, r) > 0 || (l.h.connectPending && l.h.callbackResult == Some(r)))
          && (WasCancelled(l.answers, r) ==> l.h.needsDisconnect))
  }

  ghost predicate Core(l: Local) {
    Slots(l) && Results(l) && LinkOk(l)
  }

  ghost predicate HandlerOk(l: Local) {
    Core(l) && Closing(l)
  }

  ghost predicate LocalOk(l: Local) {
    HandlerOk(l) && NoRepeats(l)
  }

  // ---------- what a step may do ----------

  /** A waiting result stands where it stood, or has been answered. */
  ghost predicate Stands(before: Option<nat>, after: Option<nat>, answers: seq<Answer>) {
    before.Some? ==> after == before || Times(answers, before.value) > 0
  }

  ghost predicate ResultsStand(l: Local, m: Local) {
    && Stands(l.h.result, m.h.result, m.answers)
    && Stands(l.h.callbackResult, m.h.callbackResult, m.answers)
    && Stands(l.h.permission, m.h.permission, m.answers)
  }

  /** From `l` to `m`, with `asked` newly asked: nothing owed is forgotten, moved or answered
      twice, a handler without the transport leaves it alone, and one that gives it up leaves no
      link behind. */
  ghost predicate Moves(l: Local, m: Local, asked: Option<nat>) {
    && (forall r :: Count(m, r) == Count(l, r) + Has(asked, r))
    && l.answers <= m.answers
    && ResultsStand(l, m)
    && m.sends == l.sends
    && (l.owner.Other? <==> m.owner.Other?)
    && (m.link == l.link || m.link.None?)
    && (l.owner.Mine? && m.owner.Free? ==> m.link.None?)
  }

  /** What one more answer changes. */
  lemma AnswerAdded(answers: seq<Answer>, a: Answer)
    ensures forall r :: Times(answers + [a], r) == Times(answers, r) + Has(Some(a.request), r)
    ensures forall r :: WasCancelled(answers + [a], r) <==>
      WasCancelled(answers, r) || (a.request == r && (a.reply.Cancelled? || a.reply.Disconnected?))
  {
    assert (answers + [a])[..|answers|] == answers;
    assert forall b :: b in answers + [a] <==> b in answers || b == a;
    assert a in answers + [a];
  }

  lemma {:induction false} MoreAnswers(a: seq<Answer>, b: seq<Answer>, r: nat)
    requires a <= b
    ensures Times(a, r) <= Times(b, r)
    ensures WasCancelled(a, r) ==> WasCancelled(b, r)
    ensures WasCancelled(b, r) && !WasCancelled(a, r) ==> Times(a, r) < Times(b, r)
    decreases |b|
  {
    if a != b {
      var last, rest := b[|b| - 1], b[..|b| - 1];
      assert b == rest + [last];
      MoreAnswers(a, rest, r);
      AnswerAdded(rest, last);
      hide Times, WasCancelled;
    }
  }

  lemma CancelledWasAnswered(answers: seq<Answer>, request: nat)
    requires WasCancelled(answers, request)
    ensures Times(answers, request) > 0
  {
    if answers != [] {
      var last, rest := answers[|answers| - 1], answers[..|answers| - 1];
      assert answers == rest + [last];
      AnswerAdded(rest, last);
      if WasCancelled(rest, request) { CancelledWasAnswered(rest, request); }
    }
  }

  lemma MovesKeep(l: Local, m: Local, asked: Option<nat>)
    requires NoRepeats(l) && Moves(l, m, asked) && (asked.Some? ==> Count(l, asked.value) == 0)
    ensures NoRepeats(m)
  {
  }

  lemma MovesCompose(l: Local, m: Local, n: Local, asked: Option<nat>)
    requires Moves(l, m, None) && Moves(m, n, asked)
    ensures Moves(l, n, asked)
  {
    ResultsStandOn(l, m, n);
    hide Count, ResultsStand;
  }

  lemma ResultsStandOn(l: Local, m: Local, n: Local)
    requires ResultsStand(l, m) && ResultsStand(m, n) && m.answers <= n.answers
    ensures ResultsStand(l, n)
  {
    if l.h.result.Some? { MoreAnswers(m.answers, n.answers, l.h.result.value); }
    if l.h.callbackResult.Some? { MoreAnswers(m.answers, n.answers, l.h.callbackResult.value); }
    if l.h.permission.Some? { MoreAnswers(m.answers, n.answers, l.h.permission.value); }
    hide Times, WasCancelled;
  }

  // ---------- each entry point ----------

  lemma FinishClosingOk(l: Local)
    requires HandlerOk(l.(h := l.h.(awaitsTask := true))) && l.h.closing && (l.h.task.Some? ==> l.h.awaitsTask)
    ensures HandlerOk(FinishClosing(l)) && Moves(l, FinishClosing(l), None)
  {
    hide Times, WasCancelled;
  }

  lemma CancelConnectOk(l: Local, reply: Reply)
    requires Core(l) && NoRepeats(l)
    ensures Core(CancelConnect(l, reply)) && Moves(l, CancelConnect(l, reply), None)
    ensures Closing(l) ==> Closing(CancelConnect(l, reply))
  {
    var m := CancelConnect(l, reply);
    if l.h.connectPending && l.h.callbackResult.Some? {
      AnswerAdded(l.answers, Answer(l.h.callbackResult.value, reply));
      assert Count(l, l.h.callbackResult.value) <= 1;
    }
    hide Times, WasCancelled;
    assert forall r :: Count(m, r) == Count(l, r);
    assert Results(m) && LinkOk(m);
  }

  lemma CancelExchangeOk(l: Local, reply: Reply)
    requires Core(l) && NoRepeats(l)
    ensures Core(CancelExchange(l, reply)) && Moves(l, CancelExchange(l, reply), None)
    ensures Closing(l) ==> Closing(CancelExchange(l, reply))
  {
    var m := CancelExchange(l, reply);
    if l.h.result.Some? {
      AnswerAdded(l.answers, Answer(l.h.result.value, reply));
      assert Count(l, l.h.result.value) <= 1;
    }
    hide Times, WasCancelled;
    assert forall r :: Count(m, r) == Count(l, r);
    assert Results(m) && LinkOk(m);
  }

  lemma CancelOk(l: Local, reply: Reply, cancelPreparation: bool)
    requires Core(l) && NoRepeats(l)
    ensures Core(Cancel(l, reply, cancelPreparation)) && NoRepeats(Cancel(l, reply, cancelPreparation))
    ensures Moves(l, Cancel(l, reply, cancelPreparation), None)
    ensures Closing(l) ==> Closing(Cancel(l, reply, cancelPreparation))
  {
    hide Count, WasCancelled, Core, Closing, CancelConnect, CancelExchange, Moves, NoRepeats;
    var l1 := if cancelPreparation then CancelConnect(l, reply) else l;
    if cancelPreparation {
      CancelConnectOk(l, reply);
      MovesKeep(l, l1, None);
    } else {
      MovesRefl(l);
    }
    var m := CancelExchange(l1, reply);
    CancelExchangeOk(l1, reply);
    MovesKeep(l1, m, None);
    MovesCompose(l, l1, m, None);
  }

  lemma MovesRefl(l: Local)
    ensures Moves(l, l, None)
  {
    hide Count;
  }

  lemma FinishPermissionOk(l: Local)
    ensures Moves(l, FinishPermission(l), None) && FinishPermission(l).h == l.h.(permission := None)
    ensures FinishPermission(l).owner == l.owner
  {
    var m := FinishPermission(l);
    var h := l.h.(permission := None);
    assert m == if l.h.permission.Some? then Say(l.(h := h), l.h.permission.value, Done) else l.(h := h);
    if l.h.permission.Some? {
      AnswerAdded(l.answers, Answer(l.h.permission.value, Done));
    }
    hide Times, WasCancelled;
    assert forall r :: Count(m, r) == Count(l, r);
  }

  lemma FinishPermissionKeeps(l: Local)
    requires Core(l) && NoRepeats(l)
    ensures Core(FinishPermission(l)) && (Closing(l) ==> Closing(FinishPermission(l)))
  {
    var m := FinishPermission(l);
    if l.h.permission.Some? {
      AnswerAdded(l.answers, Answer(l.h.permission.value, Done));
    }
    hide Times, WasCancelled, Count, NoRepeats;
    assert Results(m) && LinkOk(m);
  }

  lemma DrainOk(l: Local)
    requires HandlerOk(l) && l.owner.Mine? && (l.h.calls == [] || l.h.callbackPending) && l.h.needsDisconnect
    ensures HandlerOk(Drain(l)) && Moves(l, Drain(l), None)
  {
    hide Times, WasCancelled;
  }

  // ---------- new requests ----------

  /** A new request is answered on the spot. */
  lemma SayOk(l: Local, request: nat, reply: Reply)
    requires HandlerOk(l) && Count(l, request) == 0
    ensures HandlerOk(Say(l, request, reply)) && Moves(l, Say(l, request, reply), Some(request))
  {
    var m := Say(l, request, reply);
    AnswerAdded(l.answers, Answer(request, reply));
    hide Times, WasCancelled;
    assert forall r :: Count(m, r) == Count(l, r) + Has(Some(request), r);
    assert Results(m) && LinkOk(m);
  }

  lemma ClaimOk(l: Local)
    requires HandlerOk(l) && l.owner.Free? && !l.h.closing
    ensures HandlerOk(l.(owner := Mine)) && Moves(l, l.(owner := Mine), None)
  {
    hide Times, WasCancelled;
  }

  lemma TransportForOk(l: Local, request: nat)
    requires LocalOk(l) && Count(l, request) == 0
    ensures var (m, granted) := TransportFor(l, request);
            && HandlerOk(m) && Moves(l, m, if granted then None else Some(request))
            && (granted ==> m == l.(owner := Mine) && !l.h.closing && !l.h.needsDisconnect)
  {
    var l1 := l.(owner := Mine);
    if l.h.closing || l.owner.Other? {
      SayOk(l, request, Busy);
    } else {
      if l.owner.Free? { ClaimOk(l); } else { MovesRefl(l); }
      if l1.h.needsDisconnect {
        assert l.h.calls == [] || l.h.callbackPending;
        DrainOk(l1);
        CountDepends(l1, Drain(l1));
        SayOk(Drain(l1), request, Busy);
        hide HandlerOk, Moves, Count, NoRepeats, Drain;
        MovesCompose(l, l1, Drain(l1), None);
        MovesCompose(l, Drain(l1), Say(Drain(l1), request, Busy), Some(request));
      }
    }
  }

  lemma CountDepends(l: Local, m: Local)
    requires Moves(l, m, None)
    ensures forall r :: Count(l, r) == Count(m, r)
  {
    hide Count;
  }

  lemma ConnectOk(l: Local, request: nat, valid: bool)
    requires LocalOk(l) && Count(l, request) == 0
    ensures HandlerOk(Connect(l, request, valid)) && Moves(l, Connect(l, request, valid), Some(request))
  {
    if l.h.permission.Some? || l.h.task.Some? || l.h.callbackPending {
      SayOk(l, request, Busy);
    } else {
      TransportForOk(l, request);
      var (l1, granted) := TransportFor(l, request);
      if granted {
        CountDepends(l, l1);
        var m := Connect(l, request, valid);
        if !valid {
          SayOk(l1, request, NotConnected);
        } else {
          hide Times, WasCancelled, TransportFor;
          assert forall r :: Count(m, r) == Count(l1, r) + Has(Some(request), r);
          assert Slots(m) && Results(m) && Closing(m) && LinkOk(m);
        }
        hide HandlerOk, Count, TransportFor;
        MovesCompose(l, l1, m, Some(request));
      }
    }
  }

  lemma DisconnectOk(l: Local, request: nat)
    requires LocalOk(l) && Count(l, request) == 0
    ensures HandlerOk(Disconnect(l, request)) && Moves(l, Disconnect(l, request), Some(request))
  {
    TransportForOk(l, request);
    var (l1, granted) := TransportFor(l, request);
    if granted {
      var l2 := Cancel(l1, Disconnected, true);
      var m := Disconnect(l, request);
      CountDepends(l, l1);
      MovesKeep(l, l1, None);
      CancelOk(l1, Disconnected, true);
      CancelShape(l1, Disconnected, true);
      CountDepends(l1, l2);
      DisconnectLinkOk(l2, request);
      hide TransportFor, Cancel, Count, HandlerOk, NoRepeats, Moves;
      MovesCompose(l, l1, l2, None);
      MovesCompose(l, l2, m, Some(request));
    }
  }

  lemma DisconnectLinkOk(l: Local, request: nat)
    requires LocalOk(l) && Count(l, request) == 0 && l.owner.Mine? && !l.h.closing && (l.h.needsDisconnect ==> l.h.callbackPending)
    ensures HandlerOk(DisconnectLink(l, request)) && Moves(l, DisconnectLink(l, request), Some(request))
  {
    var l1 := l.(h := l.h.(connected := false));
    if l.h.task.Some? || l.h.callbackPending {
      SayOk(l, request, Busy);
    } else {
      ConnectedIsFree(l);
      if l.link.None? {
        CountDepends(l, l1);
        SayOk(l1, request, Done);
        hide HandlerOk, Count, NoRepeats;
        MovesCompose(l, l1, Say(l1, request, Done), Some(request));
      } else {
        DisconnectCallOk(l, request);
      }
    }
  }

  /** The connected device plays no part in the protocol's invariants. */
  lemma ConnectedIsFree(l: Local)
    requires HandlerOk(l)
    ensures var m := l.(h := l.h.(connected := false)); HandlerOk(m) && Moves(l, m, None)
  {
    var m := l.(h := l.h.(connected := false));
    hide Times, WasCancelled;
    assert forall r :: Count(m, r) == Count(l, r);
  }

  lemma DisconnectCallOk(l: Local, request: nat)
    requires LocalOk(l) && Count(l, request) == 0 && l.owner.Mine? && !l.h.closing && !l.h.needsDisconnect
    requires l.h.task.None? && !l.h.callbackPending && l.link.Some?
    ensures HandlerOk(DisconnectLink(l, request)) && Moves(l, DisconnectLink(l, request), Some(request))
  {
    var m := DisconnectLink(l, request);
    hide Times, WasCancelled;
    assert forall r :: Count(m, r) == Count(l, r) + Has(Some(request), r);
    assert Slots(m) && Results(m) && Closing(m) && LinkOk(m);
  }

  lemma ExchangeOk(l: Local, request: nat, kind: Kind, valid: bool)
    requires LocalOk(l) && Count(l, request) == 0
    ensures HandlerOk(Exchange(l, request, kind, valid)) && Moves(l, Exchange(l, request, kind, valid), Some(request))
  {
    if l.h.permission.Some? || l.h.callbackPending {
      SayOk(l, request, Busy);
    } else {
      TransportForOk(l, request);
      var (l1, granted) := TransportFor(l, request);
      if granted {
        CountDepends(l, l1);
        var m := Exchange(l, request, kind, valid);
        if !l1.h.connected || l1.link.None? {
          SayOk(l1, request, NotConnected);
        } else if !valid {
          SayOk(l1, request, Invalid);
        } else {
          StartExchangeOk(l1, request, kind);
        }
        hide HandlerOk, Count, TransportFor, StartExchange;
        MovesCompose(l, l1, m, Some(request));
      }
    }
  }

  lemma StartExchangeOk(l: Local, request: nat, kind: Kind)
    requires HandlerOk(l) && Count(l, request) == 0 && l.owner.Mine? && !l.h.closing && !l.h.needsDisconnect
    requires !l.h.callbackPending
    ensures HandlerOk(StartExchange(l, request, kind)) && Moves(l, StartExchange(l, request, kind), Some(request))
  {
    if l.h.task.Some? {
      SayOk(l, request, Busy);
    } else {
      var m := StartExchange(l, request, kind);
      hide Times, WasCancelled;
      assert forall r :: Count(m, r) == Count(l, r) + Has(Some(request), r);
      assert Slots(m) && Results(m) && Closing(m) && LinkOk(m);
    }
  }

  lemma RequestPermissionsOk(l: Local, request: nat, authorization: Authorization)
    requires LocalOk(l) && Count(l, request) == 0
    ensures HandlerOk(RequestPermissions(l, request, authorization))
    ensures Moves(l, RequestPermissions(l, request, authorization), Some(request))
  {
    var m := RequestPermissions(l, request, authorization);
    if l.h.closing || l.h.permission.Some? || l.h.task.Some? || l.h.callbackPending {
      SayOk(l, request, Busy);
    } else if !authorization.NotDetermined? {
      SayOk(l, request, Done);
    } else {
      TransportForOk(l, request);
      var (l1, granted) := TransportFor(l, request);
      if granted {
        hide Times, WasCancelled, TransportFor;
        assert forall r :: Count(m, r) == Count(l1, r) + Has(Some(request), r);
        assert HandlerOk(m);
        hide HandlerOk, Count;
        MovesCompose(l, l1, m, Some(request));
      }
    }
  }

  lemma AskedOk(l: Local, request: nat, ask: Ask)
    requires LocalOk(l) && Count(l, request) == 0
    ensures LocalOk(Asked(l, request, ask)) && Moves(l, Asked(l, request, ask), Some(request))
  {
    var m := Asked(l, request, ask);
    match ask
    case AskConnect(valid) => ConnectOk(l, request, valid);
    case AskDisconnect => DisconnectOk(l, request);
    case AskExchange(kind, valid) => ExchangeOk(l, request, kind, valid);
    case AskPermissions(authorization) => RequestPermissionsOk(l, request, authorization);
    case AskCancel =>
      var l1 := Cancel(l, Cancelled, true);
      CancelOk(l, Cancelled, true);
      CountDepends(l, l1);
      SayOk(l1, request, Done);
      MovesCompose(l, l1, m, Some(request));
    hide HandlerOk, Connect, Disconnect, Exchange, RequestPermissions, Cancel, Count;
    MovesKeep(l, m, Some(request));
  }

  // ---------- the SDK calls back ----------

  /** What a callback finds: its call is over. */
  predicate Returned(l: Local, m: Local, call: Call) {
    && l.h.calls == [call] && m.h == l.h.(calls := []) && m.owner == l.owner && m.answers == l.answers && m.sends == l.sends
    && (m.link == l.link || m.link.None?)
  }

  lemma FinishConnectOk(l: Local, m: Local, request: nat, failed: bool)
    requires LocalOk(l) && Returned(l, m, ConnectCall(request))
    ensures HandlerOk(FinishConnect(m, failed)) && Moves(l, FinishConnect(m, failed), None)
  {
    var n := FinishConnect(m, failed);
    var m1 := m.(h := m.h.(connectPending := false, callbackPending := false, callbackResult := None));
    if m.h.callbackResult.None? {
      hide Times, WasCancelled;
      assert Moves(l, m1, None);
      if m.h.closing {
        assert HandlerOk(m1.(h := m1.h.(awaitsTask := true)));
        FinishClosingOk(m1);
      } else {
        assert HandlerOk(m1);
        DrainOk(m1);
      }
      hide Count, HandlerOk, FinishClosing, Drain;
      MovesCompose(l, m1, n, None);
    } else {
      ConnectAnswered(l, m, request, failed);
    }
  }

  lemma ConnectAnswered(l: Local, m: Local, request: nat, failed: bool)
    requires LocalOk(l) && Returned(l, m, ConnectCall(request)) && l.h.callbackResult.Some?
    ensures HandlerOk(FinishConnect(m, failed)) && Moves(l, FinishConnect(m, failed), None)
  {
    var n := FinishConnect(m, failed);
    var reply := if failed then Failed else Done;
    AnswerAdded(l.answers, Answer(request, reply));
    assert Count(l, request) <= 1;
    if WasCancelled(l.answers, request) { CancelledWasAnswered(l.answers, request); }
    hide Times, WasCancelled;
    assert n.answers == l.answers + [Answer(request, reply)];
    assert forall r :: Count(n, r) == Count(l, r);
    assert Slots(n) && Results(n) && Closing(n) && LinkOk(n);
  }

  lemma FinishDisconnectOk(l: Local, m: Local, failed: bool)
    requires LocalOk(l) && Returned(l, m, DisconnectCall)
    ensures HandlerOk(FinishDisconnect(m, failed)) && Moves(l, FinishDisconnect(m, failed), None)
  {
    var n := FinishDisconnect(m, failed);
    var m1 := m.(h := m.h.(callbackPending := false, callbackResult := None));
    if m.h.callbackResult.None? {
      hide Times, WasCancelled;
      assert Moves(l, m1, None);
      if m.h.closing {
        assert HandlerOk(m1.(h := m1.h.(awaitsTask := true)));
        FinishClosingOk(m1);
      } else {
        assert HandlerOk(m1);
        MovesRefl(m1);
      }
      hide Count, HandlerOk, FinishClosing;
      MovesCompose(l, m1, n, None);
    } else {
      DisconnectAnswered(l, m, failed);
    }
  }

  lemma DisconnectAnswered(l: Local, m: Local, failed: bool)
    requires LocalOk(l) && Returned(l, m, DisconnectCall) && l.h.callbackResult.Some?
    ensures HandlerOk(FinishDisconnect(m, failed)) && Moves(l, FinishDisconnect(m, failed), None)
  {
    var n := FinishDisconnect(m, failed);
    var request, reply := l.h.callbackResult.value, if failed then Failed else Done;
    AnswerAdded(l.answers, Answer(request, reply));
    hide Times, WasCancelled;
    assert n.answers == l.answers + [Answer(request, reply)];
    assert forall r :: Count(n, r) == Count(l, r);
    assert Slots(n) && Results(n) && Closing(n) && LinkOk(n);
  }

  lemma DrainDoneOk(l: Local, m: Local, failed: bool)
    requires LocalOk(l) && Returned(l, m, DrainCall) && (!failed ==> m.link.None?)
    ensures HandlerOk(DrainDone(m, failed)) && Moves(l, DrainDone(m, failed), None)
  {
    var n := DrainDone(m, failed);
    var m1 := m.(h := m.h.(callbackPending := false, needsDisconnect := failed && m.link.Some?));
    hide Times, WasCancelled;
    assert Moves(l, m1, None);
    if m.h.closing {
      assert HandlerOk(m1.(h := m1.h.(awaitsTask := true)));
      FinishClosingOk(m1);
      hide Count, HandlerOk, FinishClosing;
      MovesCompose(l, m1, n, None);
    }
  }

  lemma CloseDoneOk(l: Local, m: Local, failed: bool)
    requires LocalOk(l) && Returned(l, m, CloseCall) && (!failed ==> m.link.None?)
    ensures HandlerOk(CloseDone(m, failed)) && Moves(l, CloseDone(m, failed), None)
  {
    hide Times, WasCancelled;
  }

  lemma CalledBackOk(l: Local, failed: bool)
    requires LocalOk(l)
    ensures HandlerOk(CalledBack(l, failed)) && Moves(l, CalledBack(l, failed), None)
  {
    if l.h.calls == [] {
      MovesRefl(l);
    } else {
      var call := l.h.calls[0];
      var m := l.(h := l.h.(calls := l.h.calls[1..]), link := if failed || call.ConnectCall? then l.link else None);
      assert Returned(l, m, call);
      match call {
        case ConnectCall(request) => FinishConnectOk(l, m, request, failed);
        case DisconnectCall => FinishDisconnectOk(l, m, failed);
        case DrainCall => DrainDoneOk(l, m, failed);
        case CloseCall => CloseDoneOk(l, m, failed);
      }
    }
    hide HandlerOk, Moves, FinishConnect, FinishDisconnect, DrainDone, CloseDone, LocalOk;
  }

  // ---------- closing ----------

  /** After a cancellation, the result of a plain disconnect may still wait. */
  lemma DropOk(l: Local)
    requires Core(l) && NoRepeats(l) && (l.h.connectPending ==> l.h.callbackResult.None?)
    ensures Core(DropCallback(l, Cancelled)) && Moves(l, DropCallback(l, Cancelled), None)
    ensures DropCallback(l, Cancelled).h == l.h.(callbackResult := None) && DropCallback(l, Cancelled).owner == l.owner
  {
    var m := DropCallback(l, Cancelled);
    var h := l.h.(callbackResult := None);
    assert m == if l.h.callbackResult.Some? then Say(l.(h := h), l.h.callbackResult.value, Cancelled) else l.(h := h);
    if l.h.callbackResult.Some? {
      AnswerAdded(l.answers, Answer(l.h.callbackResult.value, Cancelled));
      assert Count(l, l.h.callbackResult.value) <= 1;
    }
    hide Times, WasCancelled;
    assert forall r :: Count(m, r) == Count(l, r);
    assert Slots(m) && Results(m) && LinkOk(m);
  }

  lemma CloseOk(l: Local)
    requires LocalOk(l)
    ensures HandlerOk(Close(l)) && Moves(l, Close(l), None)
  {
    if l.h.closing {
      MovesRefl(l);
    } else {
      var k := l.(h := l.h.(closing := true));
      FlagOk(l);
      FinishPermissionOk(k);
      FinishPermissionKeeps(k);
      MovesCompose(l, k, FinishPermission(k), None);
      MovesKeep(k, FinishPermission(k), None);
      if l.owner.Mine? {
        CloseOwner(l, FinishPermission(k));
      }
    }
  }

  lemma FlagOk(l: Local)
    requires LocalOk(l)
    ensures var k := l.(h := l.h.(closing := true)); Core(k) && NoRepeats(k) && Moves(l, k, None)
  {
    var k := l.(h := l.h.(closing := true));
    hide Times, WasCancelled;
    assert forall r :: Count(k, r) == Count(l, r);
  }

  /** Closing the handler that owns the transport: everything owed is answered first. */
  lemma CloseOwner(l: Local, p: Local)
    requires !l.h.closing && p == FinishPermission(l.(h := l.h.(closing := true)))
    requires Core(p) && NoRepeats(p) && Moves(l, p, None) && p.owner.Mine? && p.h.closing && p.h.permission.None?
    ensures HandlerOk(Close(l)) && Moves(l, Close(l), None)
  {
    hide Cancel, DropCallback, FinishPermission, Count, WasCancelled, Core, Moves, FinishClosing, NoRepeats;
    var c := Cancel(p, Cancelled, true);
    var d := DropCallback(c, Cancelled);
    CancelOk(p, Cancelled, true);
    CancelShape(p, Cancelled, true);
    MovesCompose(l, p, c, None);
    DropOk(c);
    MovesCompose(l, c, d, None);
    var e := d.(h := d.h.(connected := false));
    var f := if e.h.task.None? then FinishClosing(e) else e.(h := e.h.(awaitsTask := true));
    CloseEnds(d);
    MovesCompose(l, d, f, None);
  }

  lemma CloseEnds(d: Local)
    requires Core(d) && d.owner.Mine? && d.h.closing
    requires d.h.permission.None? && d.h.result.None? && d.h.callbackResult.None?
    ensures var e := d.(h := d.h.(connected := false));
            var f := if e.h.task.None? then FinishClosing(e) else e.(h := e.h.(awaitsTask := true));
            HandlerOk(f) && Moves(d, f, None)
  {
    var e := d.(h := d.h.(connected := false));
    hide Times, WasCancelled;
    assert HandlerOk(e.(h := e.h.(awaitsTask := true)));
    assert Moves(d, e, None);
    if e.h.task.None? {
      FinishClosingOk(e);
      hide HandlerOk, Count, FinishClosing;
      MovesCompose(d, e, FinishClosing(e), None);
    }
  }

  lemma TaskAwaitedOk(l: Local)
    requires LocalOk(l)
    ensures HandlerOk(TaskAwaited(l)) && Moves(l, TaskAwaited(l), None)
  {
    if l.h.awaitsTask && l.h.task.None? {
      var m := l.(h := l.h.(awaitsTask := false));
      hide Times, WasCancelled;
      assert m.(h := m.h.(awaitsTask := true)) == l;
      assert Moves(l, m, None);
      FinishClosingOk(m);
      hide HandlerOk, Count, FinishClosing;
      MovesCompose(l, m, FinishClosing(m), None);
    } else {
      MovesRefl(l);
    }
  }

  lemma RetryFiresOk(l: Local)
    requires LocalOk(l)
    ensures HandlerOk(RetryFires(l)) && Moves(l, RetryFires(l), None)
  {
    if l.h.retryScheduled {
      var m := l.(h := l.h.(retryScheduled := false));
      hide Times, WasCancelled;
      assert HandlerOk(m.(h := m.h.(awaitsTask := true)));
      assert Moves(l, m, None);
      if l.owner.Mine? {
        FinishClosingOk(m);
        hide HandlerOk, Count, FinishClosing;
        MovesCompose(l, m, FinishClosing(m), None);
      }
    } else {
      MovesRefl(l);
    }
  }

  lemma ScheduleCloseRetryOk(l: Local)
    requires LocalOk(l)
    ensures HandlerOk(ScheduleCloseRetry(l)) && Moves(l, ScheduleCloseRetry(l), None)
  {
    hide Times, WasCancelled;
  }

  // ---------- the exchange task ----------

  lemma HandleDisconnectedOk(l: Local, generation: nat)
    requires LocalOk(l)
    ensures HandlerOk(HandleDisconnected(l, generation)) && Moves(l, HandleDisconnected(l, generation), None)
  {
    var l1 := l.(h := l.h.(connected := false));
    ConnectedIsFree(l);
    MovesKeep(l, l1, None);
    MovesRefl(l);
    CancelOk(l1, Disconnected, false);
    hide Core, Closing, Count, Cancel;
    MovesCompose(l, l1, Cancel(l1, Disconnected, false), None);
  }

  lemma TimerFiresOk(l: Local, generation: nat)
    requires LocalOk(l)
    ensures HandlerOk(TimerFires(l, generation)) && Moves(l, TimerFires(l, generation), None)
  {
    var k := l.(h := l.h.(connected := false));
    var l1 := k.(h := k.h.(queryRequiresDisconnect := true));
    ConnectedIsFree(l);
    MovesRefl(l);
    QueryFlagOk(k);
    hide Core, Closing, Count, Cancel;
    MovesCompose(l, k, l1, None);
    MovesKeep(l, l1, None);
    CancelOk(l1, Disconnected, true);
    MovesCompose(l, l1, Cancel(l1, Disconnected, true), None);
    assert l1 == l.(h := l.h.(queryRequiresDisconnect := true, connected := false));
  }

  lemma QueryFlagOk(l: Local)
    requires HandlerOk(l)
    ensures var m := l.(h := l.h.(queryRequiresDisconnect := true)); HandlerOk(m) && Moves(l, m, None)
  {
    var m := l.(h := l.h.(queryRequiresDisconnect := true));
    hide Times, WasCancelled;
    assert forall r :: Count(m, r) == Count(l, r);
  }

  lemma QueryStartsOk(l: Local)
    requires LocalOk(l)
    ensures HandlerOk(QueryStarts(l)) && Moves(l, QueryStarts(l), None)
  {
    var m := QueryStarts(l);
    hide Times, WasCancelled;
    assert forall r :: Count(m, r) == Count(l, r);
  }

  lemma TaskReconnectsOk(l: Local)
    requires LocalOk(l)
    ensures HandlerOk(TaskReconnects(l)) && Moves(l, TaskReconnects(l), None)
  {
    var m := TaskReconnects(l);
    hide Times, WasCancelled;
    assert forall r :: Count(m, r) == Count(l, r);
    assert Slots(m) && Results(m);
  }

  lemma TaskResumesOk(l: Local, failed: bool)
    requires LocalOk(l)
    ensures HandlerOk(TaskResumes(l, failed)) && Moves(l, TaskResumes(l, failed), None)
  {
    var m := TaskResumes(l, failed);
    hide Times, WasCancelled;
    assert forall r :: Count(m, r) == Count(l, r);
    assert Slots(m) && Results(m);
  }

  /** The task answers its own request, if that still waits, and is gone. */
  lemma TaskEndsOk(l: Local, outcome: Reply)
    requires LocalOk(l)
    ensures HandlerOk(TaskEnds(l, outcome)) && Moves(l, TaskEnds(l, outcome), None)
  {
    if l.h.task.Some? && l.h.task.value.awaits.Ready? {
      var m := TaskAnswered(l, l.h.task.value, outcome);
      TaskAnsweredOk(l, outcome);
      RetireOk(m);
      hide TaskAnswered, RetireLink, HandlerOk, Moves;
      MovesCompose(l, m, RetireLink(m), None);
    } else {
      MovesRefl(l);
    }
  }

  lemma TaskAnsweredOk(l: Local, outcome: Reply)
    requires LocalOk(l) && l.h.task.Some?
    ensures var m := TaskAnswered(l, l.h.task.value, outcome);
            HandlerOk(m) && Moves(l, m, None) && m.owner.Mine? && m.h.calls == [] && m.h.callbackResult.None? && m.h.task.None?
  {
    var task := l.h.task.value;
    var reply := if task.cancelled then Cancelled else outcome;
    TaskRepliesOk(l, reply, task.kind.OpenZcashApp? && reply.Done?);
    hide FinishExchange, TaskGone, HandlerOk, Moves;
  }

  lemma TaskRepliesOk(l: Local, reply: Reply, back: bool)
    requires LocalOk(l) && l.h.task.Some?
    ensures var m := TaskGone(FinishExchange(l, l.h.task.value.generation, reply), back);
            && HandlerOk(m) && Moves(l, m, None) && m.owner.Mine? && m.h.calls == [] && m.h.callbackResult.None?
            && m.h.task.None?
  {
    var m := TaskGone(FinishExchange(l, l.h.task.value.generation, reply), back);
    if l.h.result.Some? {
      AnswerAdded(l.answers, Answer(l.h.result.value, reply));
      assert Count(l, l.h.result.value) <= 1;
    }
    hide Times, WasCancelled;
    assert forall r :: Count(m, r) == Count(l, r);
    assert Slots(m) && Results(m) && Closing(m) && LinkOk(m);
  }

  lemma RetireOk(l: Local)
    requires HandlerOk(l) && l.owner.Mine? && l.h.calls == [] && l.h.task.None? && l.h.callbackResult.None?
    ensures HandlerOk(RetireLink(l)) && Moves(l, RetireLink(l), None)
  {
    if l.h.queryRequiresDisconnect {
      var m := l.(h := l.h.(queryRequiresDisconnect := false, needsDisconnect := l.link.Some?));
      RetireMarkOk(l);
      if m.h.needsDisconnect {
        DrainOk(m);
        hide HandlerOk, Count, Drain;
        MovesCompose(l, m, Drain(m), None);
      } else {
        assert m.h.(needsDisconnect := false) == m.h;
        assert Drain(m) == m;
      }
    } else {
      MovesRefl(l);
    }
  }

  lemma RetireMarkOk(l: Local)
    requires HandlerOk(l) && l.owner.Mine? && l.h.calls == [] && l.h.task.None? && l.h.callbackResult.None?
    ensures var m := l.(h := l.h.(queryRequiresDisconnect := false, needsDisconnect := l.link.Some?));
            HandlerOk(m) && Moves(l, m, None)
  {
    var m := l.(h := l.h.(queryRequiresDisconnect := false, needsDisconnect := l.link.Some?));
    hide Times, WasCancelled;
    assert forall r :: Count(m, r) == Count(l, r);
    assert Slots(m) && Results(m) && Closing(m) && LinkOk(m);
  }

  // ---------- every event ----------

  /** An APDU is only sent for a request that still waits, and never over the link of a
      cancelled connect. */
  ghost predicate GoodSend(answers: seq<Answer>, s: Send) {
    && s.after <= |answers|
    && Times(answers[..s.after], s.request) == 0
    && (s.link.Some? && !s.link.value.reconnected ==> !WasCancelled(answers[..s.after], s.link.value.source))
  }

  /** Any step of one handler: as `Moves`, but the owner may also send and bring up a link. */
  ghost predicate Lifts(l: Local, m: Local, asked: Option<nat>) {
    && (forall r :: Count(m, r) == Count(l, r) + Has(asked, r))
    && l.answers <= m.answers
    && ResultsStand(l, m)
    && (m.sends == l.sends || (|m.sends| == |l.sends| + 1 && l.sends <= m.sends && GoodSend(m.answers, m.sends[|l.sends|])))
    && (l.owner.Other? <==> m.owner.Other?)
    && (m.link == l.link || m.link.None? || l.owner.Mine?)
    && (m.owner.Free? ==> m.link.None?)
  }

  lemma TaskSendsOk(l: Local)
    requires LocalOk(l)
    ensures HandlerOk(TaskSends(l)) && Lifts(l, TaskSends(l), None)
  {
    var m := TaskSends(l);
    assert l.answers[..|l.answers|] == l.answers;
    if m != l {
      assert Count(l, l.h.task.value.request) <= 1;
    }
    hide Times, WasCancelled;
    assert forall r :: Count(m, r) == Count(l, r);
    assert Slots(m) && Results(m);
  }

  lemma LinkUpOk(l: Local)
    requires LocalOk(l)
    ensures HandlerOk(LinkUp(l)) && Lifts(l, LinkUp(l), None)
  {
    var m := LinkUp(l);
    if Connecting(l.h).Some? {
      var r := Connecting(l.h).value;
      if l.h.callbackResult.Some? {
        assert Count(l, r) <= 1;
        if WasCancelled(l.answers, r) { CancelledWasAnswered(l.answers, r); }
      }
    }
    hide Times, WasCancelled;
    assert forall r :: Count(m, r) == Count(l, r);
    assert Slots(m) && Results(m) && Closing(m) && LinkOk(m);
  }

  lemma LinkDownOk(l: Local)
    requires LocalOk(l)
    ensures HandlerOk(l.(link := None)) && Moves(l, l.(link := None), None)
  {
    hide Times, WasCancelled;
  }

  lemma MovesLift(l: Local, m: Local, asked: Option<nat>)
    requires Moves(l, m, asked) && LinkOk(m)
    ensures Lifts(l, m, asked)
  {
    hide Count, WasCancelled, Times;
  }

  lemma HappenedOk(l: Local, event: Event)
    requires LocalOk(l)
    ensures HandlerOk(Happened(l, event)) && Lifts(l, Happened(l, event), None)
  {
    var m := Happened(l, event);
    match event {
      case Closes => CloseOk(l);
      case TaskIsAwaited => TaskAwaitedOk(l);
      case Retries => RetryFiresOk(l);
      case Nudged => ScheduleCloseRetryOk(l);
      case CallsBack(failed) => CalledBackOk(l, failed);
      case LosesDevice(generation) => HandleDisconnectedOk(l, generation);
      case TimesOut(generation) => TimerFiresOk(l, generation);
      case DecidesPermission => FinishPermissionKeeps(l); FinishPermissionOk(l);
      case StartsQuery => QueryStartsOk(l);
      case SendsApdu => TaskSendsOk(l);
      case Reconnects => TaskReconnectsOk(l);
      case Resumes(failed) => TaskResumesOk(l, failed);
      case EndsTask(outcome) => TaskEndsOk(l, outcome);
      case LinkComesUp => LinkUpOk(l);
      case LinkGoesDown => LinkDownOk(l);
    }
    hide Slots, Results, Closing, LinkOk, NoRepeats, Moves, Lifts;
    hide Close, TaskAwaited, RetryFires, ScheduleCloseRetry, CalledBack, HandleDisconnected, TimerFires, FinishPermission;
    hide QueryStarts, TaskSends, TaskReconnects, TaskResumes, TaskEnds, LinkUp;
    if !event.SendsApdu? && !event.LinkComesUp? {
      MovesLift(l, m, None);
    }
  }

  lemma AskedLifts(l: Local, request: nat, ask: Ask)
    requires LocalOk(l) && Count(l, request) == 0
    ensures HandlerOk(Asked(l, request, ask)) && Lifts(l, Asked(l, request, ask), Some(request))
  {
    AskedOk(l, request, ask);
    hide Asked, Slots, Results, Closing, LinkOk, Count, Lifts, Moves;
    MovesLift(l, Asked(l, request, ask), Some(request));
  }
}
