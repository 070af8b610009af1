/** What holds in every run of any number of handlers sharing one transport. */
module LedgerTheorems {
  import opened Common
  import opened LedgerModel
  import opened LedgerSafety

  // ---------- the whole system ----------

  /** How often anyone owes `request` an answer. */
  function TotalOwing(handlers: seq<Handler>, request: nat): nat {
    if handlers == [] then 0 else Owing(handlers[0], request) + TotalOwing(handlers[1..], request)
  }

  lemma {:induction false} TotalOwingAfter(handlers: seq<Handler>, i: nat, h: Handler, request: nat)
    requires i < |handlers|
    ensures TotalOwing(handlers[i := h], request) + Owing(handlers[i], request) == TotalOwing(handlers, request) + Owing(h, request)
    ensures Owing(handlers[i], request) <= TotalOwing(handlers, request)
  {
    hide Owing;
    if i == 0 {
      assert handlers[i := h][1..] == handlers[1..];
    } else {
      assert handlers[i := h][1..] == handlers[1..][i - 1 := h];
      TotalOwingAfter(handlers[1..], i - 1, h, request);
    }
  }

  lemma {:induction false} NothingOwed(count: nat, request: nat)
    ensures TotalOwing(seq(count, _ => IDLE), request) == 0
  {
    if count > 0 {
      assert seq(count, _ => IDLE)[1..] == seq(count - 1, _ => IDLE);
      NothingOwed(count - 1, request);
    }
  }

  /** Every request made so far is answered once, or waits in one place. */
  ghost predicate Conserved(w: World) {
    forall r: nat :: TotalOwing(w.handlers, r) + Times(w.answers, r) == if r < w.next then 1 else 0
  }

  ghost predicate WorldOk(w: World) {
    && (w.owner.Some? ==> w.owner.value < |w.handlers|)
    && (forall i: nat :: i < |w.handlers| ==> HandlerOk(View(w, i)))
    && Conserved(w)
    && (forall k :: 0 <= k < |w.sends| ==> GoodSend(w.answers, w.sends[k]))
  }

  // ---------- answers only grow ----------

  lemma GoodSendLasts(a: seq<Answer>, b: seq<Answer>, s: Send)
    requires a <= b && GoodSend(a, s)
    ensures GoodSend(b, s)
  {
    assert a[..s.after] == b[..s.after];
  }

  // ---------- one step ----------

  lemma CountsAreBounded(w: World, i: nat)
    requires WorldOk(w) && i < |w.handlers|
    ensures LocalOk(View(w, i)) && Count(View(w, i), w.next) == 0
  {
    forall r: nat ensures Count(View(w, i), r) <= if r < w.next then 1 else 0 {
      TotalOwingAfter(w.handlers, i, w.handlers[i], r);
    }
  }

  lemma ConservedNext(w: World, i: nat, m: Local, asked: Option<nat>, next: nat)
    requires Conserved(w) && i < |w.handlers| && Lifts(View(w, i), m, asked)
    requires if asked.Some? then asked.value == w.next && next == w.next + 1 else next == w.next
    ensures Conserved(Put(w, i, m, next))
  {
    var l := View(w, i);
    forall r: nat ensures TotalOwing(w.handlers[i := m.h], r) + Times(m.answers, r) == if r < next then 1 else 0 {
      TotalOwingAfter(w.handlers, i, m.h, r);
      assert Count(m, r) == Count(l, r) + Has(asked, r);
    }
  }

  /** What a handler sees after someone else's step. */
  ghost predicate Elsewhere(l: Local, m: Local) {
    && m.h == l.h && l.answers <= m.answers
    && (m.owner.Mine? <==> l.owner.Mine?)
    && (l.owner.Mine? ==> m.link == l.link || m.link.None?)
    && (m.owner.Free? ==> m.link.None?)
  }

  lemma ElsewhereKeeps(l: Local, m: Local)
    requires HandlerOk(l) && Elsewhere(l, m) && NoRepeats(m)
    ensures HandlerOk(m)
  {
    if Connecting(l.h).Some? { MoreAnswers(l.answers, m.answers, Connecting(l.h).value); }
    if m.link.Some? {
      MoreAnswers(l.answers, m.answers, m.link.value.source);
      assert Count(m, m.link.value.source) <= 1;
    }
    hide Times, WasCancelled;
    assert Slots(m) && Results(m) && Closing(m) && LinkOk(m);
  }

  lemma OthersSee(w: World, i: nat, j: nat, m: Local, asked: Option<nat>, next: nat)
    requires i < |w.handlers| && j < |w.handlers| && i != j
    requires Lifts(View(w, i), m, asked)
    ensures Elsewhere(View(w, j), View(Put(w, i, m, next), j))
  {
    hide Count, GoodSend;
  }

  lemma SeesItself(w: World, i: nat, m: Local, asked: Option<nat>, next: nat)
    requires i < |w.handlers| && Lifts(View(w, i), m, asked)
    ensures View(Put(w, i, m, next), i) == m
  {
    hide Count, GoodSend;
  }

  lemma LiftKeeps(w: World, i: nat, m: Local, asked: Option<nat>, next: nat)
    requires WorldOk(w) && i < |w.handlers| && Lifts(View(w, i), m, asked) && HandlerOk(m)
    requires if asked.Some? then asked.value == w.next && next == w.next + 1 else next == w.next
    ensures WorldOk(Put(w, i, m, next))
  {
    var v := Put(w, i, m, next);
    ConservedNext(w, i, m, asked, next);
    forall j: nat | j < |v.handlers| ensures HandlerOk(View(v, j)) {
      if j == i {
        SeesItself(w, i, m, asked, next);
      } else {
        OthersSee(w, i, j, m, asked, next);
        Bounded(v, j);
        ElsewhereKeeps(View(w, j), View(v, j));
      }
    }
    forall k | 0 <= k < |v.sends| ensures GoodSend(v.answers, v.sends[k]) {
      if k < |w.sends| { GoodSendLasts(w.answers, v.answers, w.sends[k]); }
    }
  }

  lemma Bounded(w: World, i: nat)
    requires Conserved(w) && i < |w.handlers|
    ensures NoRepeats(View(w, i))
  {
    forall r: nat ensures Count(View(w, i), r) <= 1 {
      TotalOwingAfter(w.handlers, i, w.handlers[i], r);
    }
  }

  lemma StepOk(w: World, i: nat, step: Step)
    requires WorldOk(w) && i < |w.handlers|
    ensures WorldOk(Next(w, i, step))
  {
    hide HandlerOk, Conserved, Count, Asked, Happened, Moves;
    var l := View(w, i);
    CountsAreBounded(w, i);
    match step
    case Request(ask) =>
      AskedLifts(l, w.next, ask);
      LiftKeeps(w, i, Asked(l, w.next, ask), Some(w.next), w.next + 1);
    case Occurs(event) =>
      HappenedOk(l, event);
      LiftKeeps(w, i, Happened(l, event), None, w.next);
  }

  lemma {:induction false} RunOk(count: nat, steps: seq<(nat, Step)>)
    ensures WorldOk(Run(count, steps))
  {
    hide HandlerOk, Conserved, Next;
    if steps == [] {
      StartOk(count);
    } else {
      var (i, step) := steps[|steps| - 1];
      RunOk(count, steps[..|steps| - 1]);
      if i < count { StepOk(Run(count, steps[..|steps| - 1]), i, step); }
    }
  }

  lemma StartOk(count: nat)
    ensures WorldOk(Start(count))
  {
    forall r: nat ensures TotalOwing(Start(count).handlers, r) == 0 {
      NothingOwed(count, r);
    }
  }

  // ---------- the theorems ----------

  /** However timeouts, cancellations, late responses, disconnects and closes interleave:
      every request made is answered exactly once, or waits in exactly one place; a request
      never made is not answered. */
  lemma EveryRequestIsAnsweredOnce(count: nat, steps: seq<(nat, Step)>, request: nat)
    ensures var w := Run(count, steps);
            && (request < w.next ==> Times(w.answers, request) + TotalOwing(w.handlers, request) == 1)
            && (request >= w.next ==> Times(w.answers, request) == 0 && TotalOwing(w.handlers, request) == 0)
  {
    RunOk(count, steps);
    hide HandlerOk, GoodSend, Run;
  }

  /** After the step the slot holds the same result, or that request has been answered, once. */
  ghost predicate Untouched(before: Option<nat>, after: Option<nat>, answers: seq<Answer>) {
    before.Some? ==> after == before || Times(answers, before.value) == 1
  }

  /** No step overwrites or moves a waiting result: in each of its handler's three slots it
      still waits afterwards, or its request has just been answered. */
  lemma NoResultIsOverwritten(count: nat, steps: seq<(nat, Step)>, i: nat, step: Step, j: nat)
    requires j < count
    ensures var w, v := Run(count, steps), Run(count, steps + [(i, step)]);
            && Untouched(w.handlers[j].result, v.handlers[j].result, v.answers)
            && Untouched(w.handlers[j].callbackResult, v.handlers[j].callbackResult, v.answers)
            && Untouched(w.handlers[j].permission, v.handlers[j].permission, v.answers)
  {
    var all := steps + [(i, step)];
    assert all[..|all| - 1] == steps;
    var w, v := Run(count, steps), Run(count, all);
    RunOk(count, steps);
    RunOk(count, all);
    if i == j {
      StepLifts(w, i, step);
      AfterIsSeen(w, i, step);
    } else {
      assert v.handlers[j] == w.handlers[j];
    }
    AnsweredAtMostOnce(v);
    hide Run, WorldOk, Next, After, Times, Lifts;
  }

  lemma AfterIsSeen(w: World, i: nat, step: Step)
    requires WorldOk(w) && i < |w.handlers|
    ensures Next(w, i, step).handlers[i] == After(w, i, step).h && Next(w, i, step).answers == After(w, i, step).answers
  {
    hide Asked, Happened, View, WorldOk;
  }

  lemma AnsweredAtMostOnce(w: World)
    requires WorldOk(w)
    ensures forall r :: Times(w.answers, r) <= 1
  {
    hide HandlerOk, GoodSend;
  }

  /** Every APDU that reaches the device serves a request that was still unanswered when it
      was sent, and never travels over the link of a cancelled connect. So once a request is
      cancelled or times out, its task sends nothing more. */
  lemma CancelledTasksSendNothing(count: nat, steps: seq<(nat, Step)>, k: nat)
    requires k < |Run(count, steps).sends|
    ensures var w := Run(count, steps); var s := w.sends[k];
            && s.after <= |w.answers|
            && (forall j :: 0 <= j < s.after ==> w.answers[j].request != s.request)
            && (s.link.Some? && !s.link.value.reconnected ==>
                  forall j :: 0 <= j < s.after ==>
                    w.answers[j].request != s.link.value.source || !(w.answers[j].reply.Cancelled? || w.answers[j].reply.Disconnected?))
  {
    RunOk(count, steps);
    hide HandlerOk, Conserved, Run;
    var w := Run(count, steps);
    var s := w.sends[k];
    assert GoodSend(w.answers, s);
    var before := w.answers[..s.after];
    forall j | 0 <= j < s.after ensures w.answers[j].request != s.request {
      NeverAnswered(before, s.request, j);
    }
    if s.link.Some? && !s.link.value.reconnected {
      forall j | 0 <= j < s.after ensures
        w.answers[j].request != s.link.value.source || !(w.answers[j].reply.Cancelled? || w.answers[j].reply.Disconnected?)
      {
        assert before[j] in before;
      }
    }
  }

  lemma {:induction false} NeverAnswered(answers: seq<Answer>, request: nat, j: nat)
    requires Times(answers, request) == 0 && j < |answers|
    ensures answers[j].request != request
    decreases |answers|
  {
    if j < |answers| - 1 {
      NeverAnswered(answers[..|answers| - 1], request, j);
    }
  }

  /** Something is outstanding: an exchange task, or an SDK call that has not called back. */
  predicate InUse(h: Handler) {
    h.task.Some? || h.calls != []
  }

  /** One slot: only the transport's owner has anything outstanding, so no two handlers do;
      and never both a task and an SDK call, nor two calls. */
  lemma OneUserAtATime(count: nat, steps: seq<(nat, Step)>, i: nat)
    requires i < count && InUse(Run(count, steps).handlers[i])
    ensures var w := Run(count, steps);
            && w.owner == Some(i)
            && (forall j :: 0 <= j < count && j != i ==> !InUse(w.handlers[j]))
            && (w.handlers[i].task.None? || w.handlers[i].calls == []) && |w.handlers[i].calls| <= 1
  {
    RunOk(count, steps);
    hide Run, Conserved, Results, Closing, LinkOk, GoodSend;
    var w := Run(count, steps);
    assert HandlerOk(View(w, i));
    forall j | 0 <= j < count && j != i ensures !InUse(w.handlers[j]) {
      assert HandlerOk(View(w, j));
    }
  }

  /** The transport is given up only with no exchange task, no outstanding SDK call and no
      link left; and nobody but the owner gives it up. */
  lemma ReleasedOnlyWhenIdle(count: nat, steps: seq<(nat, Step)>, i: nat, step: Step, owner: nat)
    requires Run(count, steps).owner == Some(owner)
    ensures var w := Run(count, steps + [(i, step)]);
            w.owner != Some(owner) ==>
              i == owner < count && w.owner.None? && w.link.None? && !InUse(w.handlers[owner])
  {
    var all := steps + [(i, step)];
    assert all[..|all| - 1] == steps;
    RunOk(count, steps);
    RunOk(count, all);
    var w, v := Run(count, steps), Run(count, all);
    if v.owner != Some(owner) {
      assert i < count && v == Next(w, i, step);
      CountsAreBounded(w, i);
      StepLifts(w, i, step);
      assert HandlerOk(View(v, i));
      hide Run, Conserved, Results, Closing, GoodSend, Count, NoRepeats, Asked, Happened;
    }
  }

  /** What a step of handler `i` makes of its view. */
  function After(w: World, i: nat, step: Step): Local
    requires i < |w.handlers|
  {
    match step
    case Request(ask) => Asked(View(w, i), w.next, ask)
    case Occurs(event) => Happened(View(w, i), event)
  }

  lemma StepLifts(w: World, i: nat, step: Step)
    requires WorldOk(w) && i < |w.handlers|
    ensures Lifts(View(w, i), After(w, i, step), if step.Request? then Some(w.next) else None)
  {
    hide Conserved, Asked, Happened;
    CountsAreBounded(w, i);
    match step
    case Request(ask) => AskedLifts(View(w, i), w.next, ask);
    case Occurs(event) => HappenedOk(View(w, i), event);
  }

  /** A closing owner with nothing outstanding is not stuck: something will still release the
      transport, unless bringing the link down failed twice. */
  lemma ClosingIsNotStuck(count: nat, steps: seq<(nat, Step)>, i: nat)
    requires var w := Run(count, steps); i < count && w.owner == Some(i) && w.handlers[i].closing && !InUse(w.handlers[i])
    ensures var h := Run(count, steps).handlers[i]; h.awaitsTask || h.retryScheduled || h.retryUsed
    ensures var h := Run(count, steps).handlers[i]; h.result.None? && h.callbackResult.None? && h.permission.None?
  {
    RunOk(count, steps);
    hide Run, Conserved, Results, Slots, LinkOk, GoodSend;
    assert HandlerOk(View(Run(count, steps), i));
  }

  /** The response to a request that is over, however late, answers nobody. */
  lemma LateResponseIsDropped(count: nat, steps: seq<(nat, Step)>, i: nat, outcome: Reply)
    requires i < count && Run(count, steps).handlers[i].task.Some?
    requires var w := Run(count, steps); Times(w.answers, w.handlers[i].task.value.request) > 0
    ensures var w := Run(count, steps); Next(w, i, Occurs(EndsTask(outcome))).answers == w.answers
  {
    RunOk(count, steps);
    var w := Run(count, steps);
    CountsAreBounded(w, i);
    hide Run, Conserved, LinkOk, Closing, GoodSend;
    var l := View(w, i);
    assert l.h.result.None? by {
      assert Count(l, l.h.task.value.request) <= 1;
    }
    NobodyWaits(l, outcome);
  }

  lemma NobodyWaits(l: Local, outcome: Reply)
    requires l.h.result.None?
    ensures TaskEnds(l, outcome).answers == l.answers
  {
    if l.h.task.Some? {
      var m := TaskAnswered(l, l.h.task.value, outcome);
      assert m.answers == l.answers;
      hide TaskAnswered;
      assert RetireLink(m).answers == m.answers;
    }
  }

  /** While the link of a cancelled connect may still be up, its handler has no task, and a
      request to connect or exchange is refused. */
  lemma CancelledLinkIsNotUsed(count: nat, steps: seq<(nat, Step)>, i: nat, ask: Ask)
    requires var w := Run(count, steps);
             && i < count && w.owner == Some(i) && w.link.Some? && !w.link.value.reconnected
             && WasCancelled(w.answers, w.link.value.source)
    requires ask.AskConnect? || ask.AskExchange? || ask.AskDisconnect?
    ensures var w := Run(count, steps);
            && w.handlers[i].task.None?
            && Next(w, i, Request(ask)).answers == w.answers + [Answer(w.next, Busy)]
            && Next(w, i, Request(ask)).handlers[i].task.None?
  {
    RunOk(count, steps);
    var w := Run(count, steps);
    assert HandlerOk(View(w, i));
    hide Run, Conserved, Times, Closing, GoodSend, WasCancelled;
    RefusedWhileDraining(View(w, i), w.next, ask);
  }

  lemma RefusedWhileDraining(l: Local, request: nat, ask: Ask)
    requires l.h.needsDisconnect && l.h.task.None?
    requires ask.AskConnect? || ask.AskExchange? || ask.AskDisconnect?
    ensures var m := Asked(l, request, ask); m.answers == l.answers + [Answer(request, Busy)] && m.h.task.None?
  {
    RefusedTransport(l, request);
    hide TransportFor, Cancel, StartExchange, DisconnectLink;
  }

  lemma RefusedTransport(l: Local, request: nat)
    requires l.h.needsDisconnect && l.h.task.None?
    ensures var (m, granted) := TransportFor(l, request);
            !granted && m.answers == l.answers + [Answer(request, Busy)] && m.h.task.None?
  {
    var l1 := l.(owner := Mine);
    DrainAnswersNobody(l1);
    hide Drain;
    if l.h.closing || l.owner.Other? {
      assert TransportFor(l, request) == (Say(l, request, Busy), false);
    } else {
      assert TransportFor(l, request) == (Say(Drain(l1), request, Busy), false);
    }
  }

  lemma DrainAnswersNobody(l: Local)
    ensures Drain(l).answers == l.answers && Drain(l).h.task == l.h.task
  {
    if l.h.callbackPending {
    } else if l.link.None? {
      assert Drain(l) == l.(h := l.h.(needsDisconnect := false));
    } else {
      assert Drain(l) == l.(h := l.h.(callbackPending := true, calls := l.h.calls + [DrainCall]));
    }
  }
}
