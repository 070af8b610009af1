/** One run of the preparation tracker: passes over all accounts, each folded into one batch,
    with heartbeats between passes, until a batch asks for no further pass. */
module PreparationTracker {
  import opened Common
  import opened Preparation
  import Notifications

  // ---------- one pass ----------

  datatype Disposition =
    | InProgress(progress: Progress)
    | WaveConfirmed(progress: Progress)
    | Retry
    | NeedsRecovery(reason: string, taskFailed: bool)
    | Terminal(reason: string)
    | Inactive

  datatype ScopeResult = ScopeResult(scope: string, disposition: Disposition)

  datatype Fingerprint = Wave(completed: nat, units: int) | Reason(text: string)

  datatype Alert = Alert(scope: string, kind: Notifications.Kind, fingerprint: Fingerprint)

  type ProgressMap = map<string, Progress>

  datatype Batch = Batch(progress: Option<Progress>, ready: set<string>, confirmed: set<string>, alerts: seq<Alert>,
                         shouldContinue: bool, hasTaskFailure: bool)

  const I64_MAX: int := 0x7FFF_FFFF_FFFF_FFFF

  predicate Continues(d: Disposition) {
    d.InProgress? || d.Retry?
  }

  predicate Fails(d: Disposition) {
    (d.NeedsRecovery? && d.taskFailed) || d.Terminal?
  }

  predicate Readies(d: Disposition) {
    d.WaveConfirmed? || d.NeedsRecovery? || d.Terminal?
  }

  function AlertsOf(r: ScopeResult): seq<Alert> {
    match r.disposition
    case WaveConfirmed(p) => [Alert(r.scope, Notifications.ConfirmedWaveReady, Wave(p.completed, p.confirmed))]
    case NeedsRecovery(reason, _) => [Alert(r.scope, Notifications.NeedsForegroundRecovery, Reason(reason))]
    case Terminal(reason) => [Alert(r.scope, Notifications.TerminalFailure, Reason(reason))]
    case _ => []
  }

  function Absorb(seen: ProgressMap, r: ScopeResult): ProgressMap {
    if r.disposition.InProgress? || r.disposition.WaveConfirmed? then seen[r.scope := r.disposition.progress] else seen
  }

  /** What the results so far add up to, before the totals are taken. */
  datatype Tally = Tally(seen: ProgressMap, ready: set<string>, confirmed: set<string>, alerts: seq<Alert>,
                         shouldContinue: bool, hasTaskFailure: bool, blindRetries: nat)

  function Counted(t: Tally, r: ScopeResult): Tally {
    Tally(Absorb(t.seen, r),
          if Readies(r.disposition) then t.ready + {r.scope} else t.ready,
          if r.disposition.WaveConfirmed? then t.confirmed + {r.scope} else t.confirmed,
          t.alerts + AlertsOf(r),
          t.shouldContinue || Continues(r.disposition),
          t.hasTaskFailure || Fails(r.disposition),
          t.blindRetries + if r.disposition.Retry? && r.scope !in t.seen then 1 else 0)
  }

  function TallyOf(results: seq<ScopeResult>, seen: ProgressMap): Tally {
    if results == [] then Tally(seen, {}, {}, [], false, false, 0)
    else Counted(TallyOf(results[..|results| - 1], seen), results[|results| - 1])
  }

  /** A total over all scopes with progress, in whatever order the dictionary yields them. */
  ghost function Sum(seen: ProgressMap, f: Progress -> int): int
    decreases |seen|
  {
    if seen == map[] then 0
    else
      var k :| k in seen;
      f(seen[k]) + Sum(seen - {k}, f)
  }

  lemma {:induction false} SumRemoves(seen: ProgressMap, f: Progress -> int, k: string)
    requires k in seen
    ensures Sum(seen, f) == f(seen[k]) + Sum(seen - {k}, f)
    decreases |seen|
  {
    var j :| j in seen && Sum(seen, f) == f(seen[j]) + Sum(seen - {j}, f);
    if j != k {
      SumRemoves(seen - {j}, f, k);
      SumRemoves(seen - {k}, f, j);
      assert seen - {j} - {k} == seen - {k} - {j};
    }
  }

  function ConfirmedOf(p: Progress): int { p.confirmed }

  function TotalOf(p: Progress): int { p.total }

  function CompletedOf(p: Progress): int { p.completed }

  function TransactionsOf(p: Progress): int { p.transactions }

  lemma {:induction false} SumIsNatural(seen: ProgressMap, f: Progress -> int)
    requires forall k :: k in seen ==> f(seen[k]) >= 0
    ensures Sum(seen, f) >= 0
    decreases |seen|
  {
    if seen != map[] {
      var k :| k in seen;
      SumRemoves(seen, f, k);
      SumIsNatural(seen - {k}, f);
    }
  }

  ghost function Aggregate(t: Tally): Option<Progress> {
    var total := Min(I64_MAX, Sum(t.seen, TotalOf) + t.blindRetries);
    if total <= 0 then None
    else
      SumIsNatural(t.seen, CompletedOf);
      SumIsNatural(t.seen, TransactionsOf);
      Some(Progress(Sum(t.seen, ConfirmedOf), total, Sum(t.seen, CompletedOf), Sum(t.seen, TransactionsOf),
                    !t.shouldContinue && forall k :: k in t.seen ==> t.seen[k].isComplete))
  }

  ghost function BatchOf(results: seq<ScopeResult>, seen: ProgressMap): Batch {
    var t := TallyOf(results, seen);
    Batch(Aggregate(t), t.ready, t.confirmed, t.alerts, t.shouldContinue, t.hasTaskFailure)
  }

  // ---------- what a batch means ----------

  lemma {:induction false} TallyMeans(results: seq<ScopeResult>, seen: ProgressMap)
    ensures var t := TallyOf(results, seen);
            && (t.shouldContinue <==> exists r :: r in results && Continues(r.disposition))
            && (t.hasTaskFailure <==> exists r :: r in results && Fails(r.disposition))
            && (forall k :: k in seen ==> k in t.seen)
    decreases |results|
  {
    if results != [] {
      var before, last := results[..|results| - 1], results[|results| - 1];
      TallyMeans(before, seen);
      assert results == before + [last];
      assert forall r :: r in results <==> r in before || r == last;
    }
  }

  /** A batch that reports a complete wave asks for no further pass. */
  lemma CompleteBatchIsLast(results: seq<ScopeResult>, seen: ProgressMap)
    ensures var b := BatchOf(results, seen);
            b.progress.Some? && b.progress.value.isComplete ==>
              && !b.shouldContinue
              && (forall r :: r in results ==> !Continues(r.disposition))
              && forall k :: k in TallyOf(results, seen).seen ==> TallyOf(results, seen).seen[k].isComplete
  {
    TallyMeans(results, seen);
  }

  /** No account's result shows fewer confirmations than its last one. */
  ghost predicate NoneGoesBack(results: seq<ScopeResult>, seen: ProgressMap) {
    forall n :: 0 <= n < |results| ==>
      var d, before := results[n].disposition, TallyOf(results[..n], seen).seen;
      d.InProgress? || d.WaveConfirmed? ==>
        d.progress.confirmed >= if results[n].scope in before then before[results[n].scope].confirmed else 0
  }

  lemma SumAbsorbs(seen: ProgressMap, f: Progress -> int, scope: string, p: Progress)
    ensures Sum(seen[scope := p], f) == Sum(seen, f) - (if scope in seen then f(seen[scope]) else 0) + f(p)
  {
    SumRemoves(seen[scope := p], f, scope);
    if scope in seen {
      SumRemoves(seen, f, scope);
      assert seen[scope := p] - {scope} == seen - {scope};
    } else {
      assert seen[scope := p] - {scope} == seen;
    }
  }

  /** Over all accounts together, the confirmations counted never drop from pass to pass while
      no single account's do: accounts that are not observed this time keep their last count. */
  lemma {:induction false} ConfirmationsAccumulate(results: seq<ScopeResult>, seen: ProgressMap)
    requires NoneGoesBack(results, seen)
    ensures Sum(seen, ConfirmedOf) <= Sum(TallyOf(results, seen).seen, ConfirmedOf)
    decreases |results|
  {
    if results != [] {
      var n := |results| - 1;
      var before, r := results[..n], results[n];
      assert forall m :: 0 <= m < n ==> before[..m] == results[..m];
      ConfirmationsAccumulate(before, seen);
      if r.disposition.InProgress? || r.disposition.WaveConfirmed? {
        SumAbsorbs(TallyOf(before, seen).seen, ConfirmedOf, r.scope, r.disposition.progress);
      }
    }
  }

  // ---------- after a pass ----------

  datatype Next = ContinueTracking | FinishConfirmed | Finish

  function PostBatchAction(batch: Batch, failureObserved: bool, stop: bool): Next {
    if !failureObserved && !stop && !batch.hasTaskFailure && batch.confirmed != {} && !batch.shouldContinue then FinishConfirmed
    else if batch.shouldContinue && !stop then ContinueTracking
    else Finish
  }

  // ---------- a run ----------

  const EARLY_LIMIT := 50
  const PROGRESS_UNIT_LIMIT := 949

  /** `last` is what followed the last pass; nothing yet at the start of the task. */
  datatype Run = Run(seen: ProgressMap, latest: Option<Progress>, shown: nat, failed: bool, last: Option<Next>)

  /** A pass ends with a batch (its alerts submitted or not, the run asked to stop or not), the
      bar's heartbeat ticks while the next pass is awaited, or the run is called off. */
  datatype Step =
    | PassEnds(results: seq<ScopeResult>, quiesced: bool, submitted: bool, stop: bool)
    | Heartbeat
    | CalledOff

  const FIRST := Run(map[], None, 0, false, None)

  predicate Over(run: Run) {
    run.last.Some? && !run.last.value.ContinueTracking?
  }

  ghost function AfterPass(run: Run, results: seq<ScopeResult>, quiesced: bool, submitted: bool, stop: bool): Run {
    var batch := BatchOf(results, run.seen);
    var reported := !quiesced && batch.progress.Some?;
    var failed := run.failed || batch.hasTaskFailure || !(quiesced || batch.alerts == [] || submitted);
    Run(TallyOf(results, run.seen).seen,
        if reported then batch.progress else run.latest,
        if reported then Displayed(run.shown, batch.progress.value, PROGRESS_UNIT_LIMIT) else run.shown,
        failed,
        Some(PostBatchAction(batch, failed, stop)))
  }

  function AfterHeartbeat(run: Run): Run {
    run.(shown := if run.latest.Some? then Displayed(run.shown, run.latest.value, PROGRESS_UNIT_LIMIT)
                  else Min(EARLY_LIMIT, run.shown + 1))
  }

  /** The first thing a run does is a pass; heartbeats only come while another is awaited. */
  ghost function Stepped(run: Run, step: Step): Run {
    if Over(run) then run
    else
      match step
      case PassEnds(results, quiesced, submitted, stop) => AfterPass(run, results, quiesced, submitted, stop)
      case Heartbeat => if run.last.Some? then AfterHeartbeat(run) else run
      case CalledOff => run.(last := Some(Finish))
  }

  ghost function RunOf(steps: seq<Step>): Run {
    if steps == [] then FIRST else Stepped(RunOf(steps[..|steps| - 1]), steps[|steps| - 1])
  }

  /** While a run goes on, its last report was of an incomplete wave, so the bar is not full. */
  ghost predicate RunOk(run: Run) {
    && run.shown <= PROGRESS_UNIT_LIMIT
    && (run.latest.None? ==> run.shown <= EARLY_LIMIT)
    && (run.latest.Some? && !run.latest.value.isComplete ==> run.shown < PROGRESS_UNIT_LIMIT)
    && (!Over(run) && run.latest.Some? ==> !run.latest.value.isComplete)
  }

  lemma StepKeeps(run: Run, step: Step)
    requires RunOk(run)
    ensures RunOk(Stepped(run, step)) && run.shown <= Stepped(run, step).shown
  {
    hide Displayed, TallyOf, Aggregate;
    if !Over(run) {
      if step.PassEnds? {
        var batch := BatchOf(step.results, run.seen);
        CompleteBatchIsLast(step.results, run.seen);
        if batch.progress.Some? { GoesBackExactly(run.shown, batch.progress.value, PROGRESS_UNIT_LIMIT); }
      } else if step.Heartbeat? && run.latest.Some? {
        GoesBackExactly(run.shown, run.latest.value, PROGRESS_UNIT_LIMIT);
      }
    }
  }

  lemma {:induction false} RunIsOk(steps: seq<Step>)
    ensures RunOk(RunOf(steps))
    decreases |steps|
  {
    hide RunOk, Stepped;
    if steps == [] {
      FirstIsOk();
    } else {
      RunIsOk(steps[..|steps| - 1]);
      StepKeeps(RunOf(steps[..|steps| - 1]), steps[|steps| - 1]);
    }
  }

  lemma FirstIsOk()
    ensures RunOk(FIRST)
  {
  }

  /** Over every run, whatever the passes find and however heartbeats fall between them: the
      bar never goes back. */
  lemma {:induction false} BarNeverGoesBack(steps: seq<Step>, n: nat)
    requires n <= |steps|
    ensures RunOf(steps[..n]).shown <= RunOf(steps).shown
    decreases |steps|
  {
    if n == |steps| {
      assert steps[..n] == steps;
    } else {
      var before := steps[..|steps| - 1];
      assert before[..n] == steps[..n];
      BarNeverGoesBack(before, n);
      RunIsOk(before);
      StepKeeps(RunOf(before), steps[|steps| - 1]);
    }
  }

  /** The bar is full only once the run is over, under its last report, which was complete. */
  lemma FullBarIsTheLast(steps: seq<Step>)
    requires RunOf(steps).shown == PROGRESS_UNIT_LIMIT
    ensures var run := RunOf(steps);
            Over(run) && run.latest.Some? && run.latest.value.isComplete && forall step :: Stepped(run, step) == run
  {
    RunIsOk(steps);
    hide RunOf;
  }

  /** What a run that finished confirmed has behind it: every pass ran without a task failure,
      and every alert it raised was submitted, the confirmed wave's included. */
  lemma {:induction false} ConfirmedMeansNoFailure(steps: seq<Step>, n: nat)
    requires RunOf(steps).last == Some(FinishConfirmed)
    requires n < |steps| && steps[n].PassEnds? && !Over(RunOf(steps[..n]))
    ensures var b := BatchOf(steps[n].results, RunOf(steps[..n]).seen);
            !b.hasTaskFailure && (steps[n].quiesced || b.alerts == [] || steps[n].submitted)
  {
    assert steps[..n + 1][..n] == steps[..n];
    FailureSticks(steps, n + 1);
    ConfirmedIsClean(steps);
    hide BatchOf, Displayed;
  }

  lemma {:induction false} FailureSticks(steps: seq<Step>, n: nat)
    requires n <= |steps|
    ensures RunOf(steps[..n]).failed ==> RunOf(steps).failed
    decreases |steps|
  {
    hide BatchOf, Displayed;
    if n == |steps| {
      assert steps[..n] == steps;
    } else {
      assert steps[..|steps| - 1][..n] == steps[..n];
      FailureSticks(steps[..|steps| - 1], n);
    }
  }

  lemma {:induction false} ConfirmedIsClean(steps: seq<Step>)
    ensures RunOf(steps).last == Some(FinishConfirmed) ==> !RunOf(steps).failed
    decreases |steps|
  {
    hide BatchOf, Displayed;
    if steps != [] { ConfirmedIsClean(steps[..|steps| - 1]); }
  }

  // ---------- the loops ----------

  /** The totals of the dictionary's values, and whether all are complete. */
  method Totals(seen: ProgressMap) returns (confirmed: int, total: int, completed: nat, transactions: nat, allComplete: bool)
    ensures confirmed == Sum(seen, ConfirmedOf) && total == Sum(seen, TotalOf)
    ensures completed == Sum(seen, CompletedOf) && transactions == Sum(seen, TransactionsOf)
    ensures allComplete <==> forall k :: k in seen ==> seen[k].isComplete
  {
    confirmed, total, completed, transactions, allComplete := 0, 0, 0, 0, true;
    var left := seen;
    while left != map[]
      invariant forall k :: k in left ==> k in seen && left[k] == seen[k]
      invariant confirmed + Sum(left, ConfirmedOf) == Sum(seen, ConfirmedOf) && total + Sum(left, TotalOf) == Sum(seen, TotalOf)
      invariant completed + Sum(left, CompletedOf) == Sum(seen, CompletedOf)
      invariant transactions + Sum(left, TransactionsOf) == Sum(seen, TransactionsOf)
      invariant allComplete <==> forall k :: k in seen && k !in left ==> seen[k].isComplete
      decreases |left|
    {
      var k :| k in left;
      var p := left[k];
      SumRemoves(left, ConfirmedOf, k);
      SumRemoves(left, TotalOf, k);
      SumRemoves(left, CompletedOf, k);
      SumRemoves(left, TransactionsOf, k);
      confirmed, total := confirmed + p.confirmed, total + p.total;
      completed, transactions := completed + p.completed, transactions + p.transactions;
      allComplete := allComplete && p.isComplete;
      left := left - {k};
    }
  }

  class Tracker {
    var seen: ProgressMap
    var latest: Option<Progress>
    var shown: nat
    var failed: bool

    constructor ()
      ensures seen == map[] && latest.None? && shown == 0 && !failed
    {
      seen, latest, shown, failed := map[], None, 0, false;
    }

    method TrackingBatch(results: seq<ScopeResult>) returns (batch: Batch)
      modifies this`seen
      ensures batch == BatchOf(results, old(seen)) && seen == TallyOf(results, old(seen)).seen
    {
      var ready, confirmed, alerts := {}, {}, [];
      var shouldContinue, hasTaskFailure, blindRetries := false, false, 0;
      var i := 0;
      while i < |results|
        invariant 0 <= i <= |results|
        invariant TallyOf(results[..i], old(seen)) == Tally(seen, ready, confirmed, alerts, shouldContinue, hasTaskFailure, blindRetries)
      {
        assert results[..i + 1][..i] == results[..i];
        var r := results[i];
        match r.disposition {
          case InProgress(p) =>
            seen := seen[r.scope := p];
            shouldContinue := true;
          case Retry =>
            shouldContinue := true;
            if r.scope !in seen { blindRetries := blindRetries + 1; }
          case WaveConfirmed(p) =>
            seen := seen[r.scope := p];
            ready, confirmed := ready + {r.scope}, confirmed + {r.scope};
            alerts := alerts + AlertsOf(r);
          case NeedsRecovery(_, taskFailed) =>
            ready := ready + {r.scope};
            hasTaskFailure := hasTaskFailure || taskFailed;
            alerts := alerts + AlertsOf(r);
          case Terminal(_) =>
            ready := ready + {r.scope};
            hasTaskFailure := true;
            alerts := alerts + AlertsOf(r);
          case Inactive =>
        }
        i := i + 1;
      }
      assert results[..|results|] == results;
      var units, represented, completed, transactions, allComplete := Totals(seen);
      var total := Min(I64_MAX, represented + blindRetries);
      var progress := None;
      if total > 0 {
        progress := Some(Progress(units, total, completed, transactions, !shouldContinue && allComplete));
      }
      batch := Batch(progress, ready, confirmed, alerts, shouldContinue, hasTaskFailure);
    }

    ghost function Now(last: Option<Next>): Run
      reads this
    {
      Run(seen, latest, shown, failed, last)
    }

    method AdvanceHeartbeat()
      modifies this`shown
      ensures forall last :: Now(last) == AfterHeartbeat(Run(seen, latest, old(shown), failed, last))
    {
      if latest.Some? {
        shown := Displayed(shown, latest.value, PROGRESS_UNIT_LIMIT);
      } else {
        shown := Min(EARLY_LIMIT, shown + 1);
      }
    }

    /** One pass and what follows it. */
    method Pass(results: seq<ScopeResult>, quiesced: bool, submitted: bool, stop: bool) returns (next: Next)
      modifies this
      ensures Now(Some(next)) == AfterPass(old(Now(None)), results, quiesced, submitted, stop)
    {
      var batch := TrackingBatch(results);
      failed := failed || batch.hasTaskFailure;
      var notified := true;
      if !quiesced {
        if batch.progress.Some? {
          latest := batch.progress;
          shown := Displayed(shown, batch.progress.value, PROGRESS_UNIT_LIMIT);
        }
        notified := batch.alerts == [] || submitted;
      }
      failed := failed || !notified;
      next := PostBatchAction(batch, failed, stop);
      hide BatchOf, Displayed;
    }

    /** What happens next, unless the run is over. */
    method Take(step: Step, last: Option<Next>) returns (next: Option<Next>)
      modifies this
      ensures Now(next) == Stepped(old(Now(last)), step)
    {
      next := last;
      if last.Some? && !last.value.ContinueTracking? { return; }
      match step {
        case PassEnds(results, quiesced, submitted, stop) =>
          var after := Pass(results, quiesced, submitted, stop);
          next := Some(after);
        case Heartbeat =>
          if last.Some? { AdvanceHeartbeat(); }
        case CalledOff =>
          next := Some(Finish);
      }
      hide BatchOf, Displayed;
    }

    /** A whole task, from a fresh start, driven by what its surroundings do: it takes exactly a
        run's steps, and the bar ends no lower than it ever stood. */
    method TrackConfirmations(steps: seq<Step>) returns (last: Option<Next>)
      modifies this
      ensures Now(last) == RunOf(steps)
      ensures forall n :: 0 <= n <= |steps| ==> RunOf(steps[..n]).shown <= shown
    {
      seen, latest, shown, failed := map[], None, 0, false;
      last := None;
      var i := 0;
      while i < |steps|
        invariant 0 <= i <= |steps| && Now(last) == RunOf(steps[..i])
      {
        assert steps[..i + 1][..i] == steps[..i];
        last := Take(steps[i], last);
        i := i + 1;
      }
      hide Stepped;
      assert steps[..|steps|] == steps;
      forall n | 0 <= n <= |steps| ensures RunOf(steps[..n]).shown <= shown {
        BarNeverGoesBack(steps, n);
      }
    }
  }
}
