/** What the preparation tracker counts and shows: confirmations of the observed wave, and the
    progress bar that keeps moving between blocks. Fractions are exact here. */
module Preparation {
  import opened Common

  // ---------- confirmations ----------

  datatype Observation = Unmined | Mined(height: u64)

  function Min(a: int, b: int): int { if a < b then a else b }

  function Max(a: int, b: int): int { if a < b then b else a }

  function Clamp(x: int, low: int, high: int): int { Min(high, Max(low, x)) }

  function Confirmations(o: Observation, tip: u64, target: nat): (n: nat)
    ensures n <= target
  {
    if o.Mined? && tip >= o.height then Min(target, tip - o.height + 1) else 0
  }

  function Units(os: seq<Observation>, tip: u64, target: nat): nat {
    if os == [] then 0 else Units(os[..|os| - 1], tip, target) + Confirmations(os[|os| - 1], tip, target)
  }

  function Completed(os: seq<Observation>, tip: u64, target: nat): nat {
    if os == [] then 0
    else Completed(os[..|os| - 1], tip, target) + if Confirmations(os[|os| - 1], tip, target) >= target then 1 else 0
  }

  datatype Progress = Progress(confirmed: int, total: int, completed: nat, transactions: nat, isComplete: bool)

  method ConfirmationProgress(os: seq<Observation>, tip: u64, confirmationTarget: u64, stages: nat) returns (p: Progress)
    ensures p == ProgressOf(os, tip, confirmationTarget, stages)
  {
    var target := Max(1, confirmationTarget);
    var units, completed, i := 0, 0, 0;
    while i < |os|
      invariant 0 <= i <= |os|
      invariant units == Units(os[..i], tip, target) && completed == Completed(os[..i], tip, target)
    {
      assert os[..i + 1][..i] == os[..i];
      var n := Confirmations(os[i], tip, target);
      units := units + n;
      if n >= target { completed := completed + 1; }
      i := i + 1;
    }
    assert os[..|os|] == os;
    var transactions := Max(|os|, stages);
    return Progress(units, transactions * target, completed, transactions, os != [] && completed == |os|);
  }

  function ProgressOf(os: seq<Observation>, tip: u64, confirmationTarget: u64, stages: nat): Progress {
    var target := Max(1, confirmationTarget);
    var transactions := Max(|os|, stages);
    Progress(Units(os, tip, target), transactions * target, Completed(os, tip, target), transactions,
             os != [] && Completed(os, tip, target) == |os|)
  }

  /** Deep enough under this tip. */
  predicate Deep(o: Observation, tip: u64, target: nat) {
    o.Mined? && o.height + target <= tip + 1
  }

  lemma {:induction false} CountsGrow(os: seq<Observation>, tip: u64, later: u64, target: nat)
    requires tip <= later
    ensures Units(os, tip, target) <= Units(os, later, target)
    ensures Completed(os, tip, target) <= Completed(os, later, target) <= |os|
    decreases |os|
  {
    if os != [] { CountsGrow(os[..|os| - 1], tip, later, target); }
  }

  lemma {:induction false} CompletedMeansDeep(os: seq<Observation>, tip: u64, target: nat)
    requires target >= 1
    ensures Completed(os, tip, target) <= |os|
    ensures Completed(os, tip, target) == |os| <==> forall o :: o in os ==> Deep(o, tip, target)
    decreases |os|
  {
    if os != [] {
      var before, last := os[..|os| - 1], os[|os| - 1];
      CompletedMeansDeep(before, tip, target);
      assert os == before + [last];
      assert Deep(last, tip, target) <==> Confirmations(last, tip, target) >= target;
      assert forall o :: o in os <==> o in before || o == last;
    }
  }

  lemma {:induction false} UnitsAreBounded(os: seq<Observation>, tip: u64, target: nat)
    requires target >= 1
    ensures Units(os, tip, target) <= |os| * target
    ensures Completed(os, tip, target) <= |os|
    ensures Units(os, tip, target) == |os| * target <==> Completed(os, tip, target) == |os|
    decreases |os|
  {
    if os != [] {
      UnitsAreBounded(os[..|os| - 1], tip, target);
      OneMore(|os|, target);
      hide Confirmations;
    }
  }

  lemma OneMore(n: nat, k: nat)
    requires n >= 1
    ensures n * k == (n - 1) * k + k
  {
  }

  /** A wave is complete exactly when it is not empty and every transaction of it is deep
      enough; its units then fill the total exactly when no stage is still to come; and a
      later tip takes nothing back. */
  lemma ProgressIsFaithful(os: seq<Observation>, tip: u64, later: u64, confirmationTarget: u64, stages: nat)
    requires tip <= later
    ensures var target := Max(1, confirmationTarget);
            var p, q := ProgressOf(os, tip, confirmationTarget, stages), ProgressOf(os, later, confirmationTarget, stages);
            && (p.isComplete <==> os != [] && forall o :: o in os ==> Deep(o, tip, target))
            && 0 <= p.confirmed <= q.confirmed <= q.total == p.total
            && p.completed <= q.completed && (p.isComplete ==> q.isComplete)
            && (p.isComplete ==> (p.confirmed == p.total <==> stages <= |os|))
  {
    var target := Max(1, confirmationTarget);
    CountsGrow(os, tip, later, target);
    CompletedMeansDeep(os, tip, target);
    UnitsAreBounded(os, tip, target);
    UnitsAreBounded(os, later, target);
    hide Units, Completed;
    Scales(|os|, Max(|os|, stages), target);
  }

  lemma Scales(a: nat, b: nat, k: nat)
    requires a <= b && k >= 1
    ensures a * k <= b * k && (a < b ==> a * k < b * k)
  {
    assert b * k == a * k + (b - a) * k;
  }

  // ---------- the displayed bar ----------

  /** The nearest whole unit of `of` for `part` out of `whole`, halves up. */
  function Rounded(part: nat, whole: nat, of: nat): (r: nat)
    requires 0 < whole
  {
    (2 * part * of + whole) / (2 * whole)
  }

  function Bound(p: Progress, limit: nat): nat
    requires limit >= 1
  {
    if p.isComplete then limit else limit - 1
  }

  function Requested(p: Progress, limit: nat): nat
    requires limit >= 1
  {
    var total := Max(1, p.total);
    Clamp(Rounded(Clamp(p.confirmed, 0, total), total, limit), 0, Bound(p, limit))
  }

  /** Where the bar would stand after one more confirmation. */
  function NextBoundary(p: Progress, limit: nat): nat
    requires limit >= 1
  {
    var total := Max(1, p.total);
    var bounded := Clamp(p.confirmed, 0, total);
    (if bounded < total then bounded + 1 else total) * limit / total
  }

  /** How far the bar may drift between confirmations. */
  function HeartbeatBound(p: Progress, limit: nat): nat
    requires limit >= 1
  {
    Min(Bound(p, limit), Max(Requested(p, limit), NextBoundary(p, limit) - 1))
  }

  function Displayed(previous: int, p: Progress, displayUnits: int): nat {
    var limit := Max(1, displayUnits);
    var before := Clamp(previous, 0, Bound(p, limit));
    if p.isComplete then Max(before, Requested(p, limit))
    else Max(before, Max(Requested(p, limit), Min(HeartbeatBound(p, limit), before + 1)))
  }

  /** The bar goes back exactly when it was past what an incomplete wave may show. */
  lemma GoesBackExactly(previous: nat, p: Progress, displayUnits: int)
    ensures var limit := Max(1, displayUnits);
            && Displayed(previous, p, displayUnits) <= Bound(p, limit)
            && (Displayed(previous, p, displayUnits) < previous <==> previous > Bound(p, limit))
  {
  }

  function Beats(previous: int, p: Progress, displayUnits: int, n: nat): int {
    if n == 0 then previous else Displayed(Beats(previous, p, displayUnits, n - 1), p, displayUnits)
  }

  /** Any number of heartbeats between two reports: the bar jumps to the confirmed share, then
      climbs a unit a beat and stops short of the next confirmation. */
  lemma {:induction false} HeartbeatsClosedForm(previous: int, p: Progress, displayUnits: int, n: nat)
    requires !p.isComplete && n >= 1
    ensures var limit := Max(1, displayUnits);
            var before := Clamp(previous, 0, Bound(p, limit));
            Beats(previous, p, displayUnits, n)
              == Max(before, Min(HeartbeatBound(p, limit), Max(Requested(p, limit), before + 1) + n - 1))
  {
    if n > 1 {
      HeartbeatsClosedForm(previous, p, displayUnits, n - 1);
    }
    hide Requested, NextBoundary;
    assert Beats(previous, p, displayUnits, n) == Displayed(Beats(previous, p, displayUnits, n - 1), p, displayUnits);
  }
}
