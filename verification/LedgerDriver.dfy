/** A heap of handlers on one transport takes exactly the steps of the protocol's world. */
module LedgerDriver {
  import opened Common
  import opened LedgerModel
  import opened LedgerSafety
  import opened LedgerTheorems
  import opened LedgerHandler

  predicate Distinct(handlers: seq<LedgerMobileHandler>) {
    forall i, j :: 0 <= i < j < |handlers| ==> handlers[i] != handlers[j]
  }

  /** The heap is this world: each handler's fields, who owns the transport, and what was
      answered and sent. */
  ghost predicate Reflects(w: World, handlers: seq<LedgerMobileHandler>, t: Transport)
    reads handlers, t
  {
    && Distinct(handlers) && |w.handlers| == |handlers|
    && (forall k :: 0 <= k < |handlers| ==> handlers[k].h == w.handlers[k])
    && (w.owner.None? <==> t.owner == null)
    && (w.owner.Some? ==> w.owner.value < |handlers| && t.owner == handlers[w.owner.value])
    && t.link == w.link && t.answers == w.answers && t.sends == w.sends
  }

  /** What a handler on the heap sees is its view of the world. */
  lemma SeesItsView(w: World, handlers: seq<LedgerMobileHandler>, t: Transport, i: nat)
    requires Reflects(w, handlers, t) && i < |handlers|
    ensures handlers[i].Now(t) == View(w, i)
  {
  }

  /** Handler `i` changed as its view did, and nobody else: the world after its step. */
  lemma StepReflects(w: World, handlers: seq<LedgerMobileHandler>, t: Transport, i: nat, m: Local, next: nat)
    requires Distinct(handlers) && |w.handlers| == |handlers| && i < |handlers|
    requires w.owner.Some? ==> w.owner.value < |handlers|
    requires handlers[i].Now(t) == m
    requires forall k :: 0 <= k < |handlers| && k != i ==> handlers[k].h == w.handlers[k]
    requires m.owner.Other? ==> w.owner.Some? && t.owner == handlers[w.owner.value]
    ensures Reflects(Put(w, i, m, next), handlers, t)
  {
  }

  /** One request or event of one handler. A refused request may have nudged the closing owner;
      then the world takes that step as well. */
  method Perform(handlers: seq<LedgerMobileHandler>, t: Transport, i: nat, step: Step, next: nat, ghost w: World)
    returns (ghost taken: seq<(nat, Step)>, ghost after: World)
    requires Reflects(w, handlers, t) && WorldOk(w) && i < |handlers| && next == w.next
    modifies handlers, t
    ensures Reflects(after, handlers, t) && WorldOk(after)
    ensures || (taken == [(i, step)] && after == Next(w, i, step))
            || exists k: nat :: k < |handlers| && taken == [(k, Occurs(Nudged)), (i, step)]
                 && after == Next(Next(w, k, Occurs(Nudged)), i, step)
  {
    hide Asked, Happened, WorldOk;
    SeesItsView(w, handlers, t, i);
    StepOk(w, i, step);
    match step {
      case Occurs(event) =>
        OwnerStaysOther(w, i, step);
        handlers[i].Occur(t, event);
        taken, after := [(i, step)], Next(w, i, step);
        StepReflects(w, handlers, t, i, Happened(View(w, i), event), w.next);
      case Request(ask) =>
        taken, after := Answer(handlers, t, i, ask, next, w);
    }
  }

  lemma OwnerStaysOther(w: World, i: nat, step: Step)
    requires WorldOk(w) && i < |w.handlers|
    ensures View(w, i).owner.Other? <==> After(w, i, step).owner.Other?
  {
    StepLifts(w, i, step);
    hide Asked, Happened, WorldOk, Count, GoodSend, ResultsStand;
  }

  lemma Nudging(w: World, k: nat)
    requires WorldOk(w) && k < |w.handlers| && w.owner == Some(k)
    ensures var v := Next(w, k, Occurs(Nudged));
            && v == w.(handlers := w.handlers[k := ScheduleCloseRetry(View(w, k)).h]) && WorldOk(v)
            && forall i :: 0 <= i < |w.handlers| && i != k ==> View(v, i) == View(w, i)
  {
    StepOk(w, k, Occurs(Nudged));
    hide WorldOk;
  }

  method Answer(handlers: seq<LedgerMobileHandler>, t: Transport, i: nat, ask: Ask, next: nat, ghost w: World)
    returns (ghost taken: seq<(nat, Step)>, ghost after: World)
    requires Reflects(w, handlers, t) && WorldOk(w) && i < |handlers| && next == w.next
    modifies handlers, t
    ensures Reflects(after, handlers, t) && WorldOk(after)
    ensures || (taken == [(i, Request(ask))] && after == Next(w, i, Request(ask)))
            || exists k: nat :: k < |handlers| && taken == [(k, Occurs(Nudged)), (i, Request(ask))]
                 && after == Next(Next(w, k, Occurs(Nudged)), i, Request(ask))
  {
    hide Asked, Happened, WorldOk;
    ghost var step := Request(ask);
    SeesItsView(w, handlers, t, i);
    StepOk(w, i, step);
    OwnerStaysOther(w, i, step);
    ghost var k: nat := if w.owner.Some? then w.owner.value else i;
    if k != i {
      SeesItsView(w, handlers, t, k);
      Nudging(w, k);
    }
    handlers[i].Handle(t, next, ask);
    if k != i && handlers[k].h != w.handlers[k] {
      ghost var v := Next(w, k, Occurs(Nudged));
      StepOk(v, i, step);
      taken, after := [(k, Occurs(Nudged)), (i, step)], Next(v, i, step);
      StepReflects(v, handlers, t, i, Asked(View(v, i), next, ask), next + 1);
    } else {
      taken, after := [(i, step)], Next(w, i, step);
      StepReflects(w, handlers, t, i, Asked(View(w, i), next, ask), next + 1);
    }
  }

  method Handlers(count: nat) returns (handlers: seq<LedgerMobileHandler>)
    ensures |handlers| == count && Distinct(handlers) && fresh(handlers)
    ensures forall k :: 0 <= k < count ==> handlers[k].h == IDLE
  {
    handlers := [];
    while |handlers| < count
      invariant |handlers| <= count && Distinct(handlers) && fresh(handlers)
      invariant forall k :: 0 <= k < |handlers| ==> handlers[k].h == IDLE
    {
      var one := new LedgerMobileHandler();
      handlers := handlers + [one];
    }
  }

  lemma RunExtends(count: nat, steps: seq<(nat, Step)>, i: nat, step: Step)
    requires i < count
    ensures Run(count, steps + [(i, step)]) == Next(Run(count, steps), i, step)
  {
    assert (steps + [(i, step)])[..|steps|] == steps;
  }

  lemma RunExtendsBy(count: nat, steps: seq<(nat, Step)>, taken: seq<(nat, Step)>, i: nat, step: Step, after: World)
    requires i < count
    requires var w := Run(count, steps);
             || (taken == [(i, step)] && after == Next(w, i, step))
             || exists k: nat :: k < count && taken == [(k, Occurs(Nudged)), (i, step)]
                  && after == Next(Next(w, k, Occurs(Nudged)), i, step)
    ensures after == Run(count, steps + taken)
  {
    hide Asked, Happened;
    if taken == [(i, step)] && after == Next(Run(count, steps), i, step) {
      RunExtends(count, steps, i, step);
    } else {
      var k: nat :| k < count && taken == [(k, Occurs(Nudged)), (i, step)]
                    && after == Next(Next(Run(count, steps), k, Occurs(Nudged)), i, step);
      RunExtends(count, steps, k, Occurs(Nudged));
      RunExtends(count, steps + [(k, Occurs(Nudged))], i, step);
      assert steps + taken == steps + [(k, Occurs(Nudged))] + [(i, step)];
    }
  }

  /** Any script of requests and events, driven through the objects: the heap ends as a run of
      the protocol, so everything proved of runs holds of it. */
  method Drive(count: nat, script: seq<(nat, Step)>)
    returns (handlers: seq<LedgerMobileHandler>, t: Transport, ghost taken: seq<(nat, Step)>)
    ensures |handlers| == count && Reflects(Run(count, taken), handlers, t)
  {
    t := new Transport();
    handlers := Handlers(count);
    taken := [];
    ghost var w := Start(count);
    var next := 0;
    StartOk(count);
    var n := 0;
    while n < |script|
      invariant 0 <= n <= |script| && |handlers| == count && fresh(handlers) && fresh(t)
      invariant w == Run(count, taken) && Reflects(w, handlers, t) && WorldOk(w) && next == w.next
    {
      var (i, step) := script[n];
      if i < count {
        ghost var before := w;
        ghost var more;
        more, w := Perform(handlers, t, i, step, next, w);
        RunExtendsBy(count, taken, more, i, step, w);
        taken := taken + more;
        if step.Request? { next := next + 1; }
      }
      n := n + 1;
    }
  }
}
