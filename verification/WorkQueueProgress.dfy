/** Termination of the drain, and of the shutdown, of the work queue. */
module WorkQueueProgress {
  import opened Circular
  import opened WorkQueueModel
  import opened WorkQueueInvariant
  import opened WorkQueueSafety

  // ---------------------------------------------------------------- the measure

  /** How many more steps the worker takes before it sleeps or exits, if it finds no more work. */
  function Weight(p: Phase): nat {
    match p
    case Starting => 1
    case Woken => 1
    case Executing(_) => 3
    case Deleting(_) => 2
    case Done(_) => 1
    case _ => 0
  }

  function TotalWeight(ws: seq<Phase>): nat {
    if ws == [] then 0 else TotalWeight(ws[..|ws| - 1]) + Weight(ws[|ws| - 1])
  }

  /** The number of worker steps left: three for each pending work, and what each worker has
      still to do. */
  function Measure<T>(q: Queue<T>): int {
    3 * (|q.works| - q.head) + TotalWeight(q.workers)
  }

  lemma {:induction false} WeightUpdate(ws: seq<Phase>, w: nat, p: Phase)
    requires w < |ws|
    ensures TotalWeight(ws[w := p]) == TotalWeight(ws) - Weight(ws[w]) + Weight(p)
  {
    var n := |ws| - 1;
    if w == n {
      assert ws[w := p][..n] == ws[..n];
    } else {
      assert ws[w := p][..n] == ws[..n][w := p];
      WeightUpdate(ws[..n], w, p);
    }
  }

  lemma {:induction false} WeightZero(ws: seq<Phase>)
    ensures TotalWeight(ws) == 0 <==> forall w :: 0 <= w < |ws| ==> !IsAwake(ws[w])
  {
    if ws != [] {
      var n := |ws| - 1;
      WeightZero(ws[..n]);
      if forall w :: 0 <= w < |ws| ==> !IsAwake(ws[w]) {
        assert forall w :: 0 <= w < n ==> ws[..n][w] == ws[w];
      } else {
        var w :| 0 <= w < |ws| && IsAwake(ws[w]);
        assert w < n ==> ws[..n][w] == ws[w];
      }
    }
  }

  lemma WaitForEventMeasure<T>(q: Queue<T>, w: nat)
    requires w < |q.workers| && Weight(q.workers[w]) == 1
    ensures Measure(WaitForEvent(q, w)) == Measure(q) - 1
  {
    hide TotalWeight, RouseDrainers;
    WeightUpdate(q.workers, w, WaitForEvent(q, w).workers[w]);
  }

  /** Every worker step uses up exactly one unit. */
  lemma WorkerStepMeasure<T>(q: Queue<T>, step: Step<T>)
    requires Enabled(q, step) && IsWorkerStep(step)
    ensures Measure(Apply(q, step)) == Measure(q) - 1
  {
    hide TotalWeight, WaitForEvent;
    match step
    case Start(w) => WaitForEventMeasure(q.(nrOnlineWorkers := q.nrOnlineWorkers + 1), w);
    case Resume(w) => WaitForEventMeasure(q.(nrSleepingWorkers := q.nrSleepingWorkers - 1), w);
    case RunFunc(w) => WeightUpdate(q.workers, w, Deleting(q.workers[w].id));
    case RunDeleter(w) => WeightUpdate(q.workers, w, Done(q.workers[w].id));
    case Finish(w, signal) =>
      WaitForEventMeasure(q.(nrRunningWorkers := q.nrRunningWorkers - 1,
                             queuers := RouseQueuers(q.queuers, signal)), w);
  }

  // ---------------------------------------------------------------- quiet runs

  /** A step that submits nothing, does not shut down, is no spurious wake-up and brings no new
      caller: the workers' steps, and the callers already inside retaking the lock. */
  predicate IsQuiet<T>(q: Queue<T>, step: Step<T>) {
    || IsWorkerStep(step)
    || step.Redrain?
    || (step.Resubmit? && !TryVerdict(q).Accepted?)
  }

  ghost predicate IsQuietRun<T(!new)>(states: seq<Queue<T>>, steps: seq<Step<T>>) {
    && IsRun(states, steps)
    && forall k {:trigger steps[k]} :: 0 <= k < |steps| ==> IsQuiet(states[k], steps[k])
  }

  function WorkerSteps<T>(steps: seq<Step<T>>): nat {
    if steps == [] then 0
    else WorkerSteps(steps[..|steps| - 1]) + Indicator(IsWorkerStep(steps[|steps| - 1]))
  }

  lemma CallerStepMeasure<T>(q: Queue<T>, step: Step<T>)
    requires Enabled(q, step) && IsQuiet(q, step) && !IsWorkerStep(step)
    ensures Measure(Apply(q, step)) == Measure(q)
  {
  }

  /** However a quiet run is scheduled, its worker steps are exactly what the measure loses. */
  lemma {:induction false} QuietRunMeasure<T(!new)>(states: seq<Queue<T>>, steps: seq<Step<T>>)
    requires IsQuietRun(states, steps)
    ensures WorkerSteps(steps) == Measure(states[0]) - Measure(states[|steps|])
  {
    if steps != [] {
      var n := |steps| - 1;
      RunPrefix(states, steps, n);
      QuietRunMeasure(states[..n + 1], steps[..n]);
      hide Measure, Enabled, Apply, IsQuiet, IsWorkerStep;
      var q, step := states[n], steps[n];
      if IsWorkerStep(step) { WorkerStepMeasure(q, step); } else { CallerStepMeasure(q, step); }
    }
  }

  lemma RunPrefix<T(!new)>(states: seq<Queue<T>>, steps: seq<Step<T>>, n: nat)
    requires IsQuietRun(states, steps) && n <= |steps|
    ensures IsQuietRun(states[..n + 1], steps[..n])
  {
    hide Enabled, Apply, IsQuiet;
    assert forall k :: 0 <= k < n ==> steps[..n][k] == steps[k];
  }

  /** No worker can move. */
  ghost predicate Settled<T(!new)>(q: Queue<T>) {
    forall step: Step<T> :: IsWorkerStep(step) ==> !Enabled(q, step)
  }

  lemma PickFinishSignal<T>(q: Queue<T>) returns (signal: set<nat>)
    ensures FinishSignal(q, signal)
  {
    if q.nrRunningWorkers == 1 || q.nrSleepingQueuers < 1 {
      signal := {};
    } else {
      signal := SleepingQueuers(q.queuers);
    }
  }

  lemma HeldInRange<T>(q: Queue<T>, w: nat)
    requires Core(q) && w < |q.workers|
    ensures |q.calls| == |q.works|
    ensures Is(q.workers[w], RunningClass) ==> q.workers[w].id < |q.works|
  {
  }

  /** An awake worker can always take its next step. */
  lemma AwakeWorkerMoves<T>(q: Queue<T>, w: nat) returns (step: Step<T>)
    requires Core(q) && w < |q.workers| && IsAwake(q.workers[w])
    ensures IsWorkerStep(step) && Enabled(q, step) && step.w == w
  {
    hide FinishSignal, Core;
    var signal := PickFinishSignal(q);
    HeldInRange(q, w);
    match q.workers[w]
    case Starting => step := Start(w);
    case Woken => step := Resume(w);
    case Executing(_) => step := RunFunc(w);
    case Deleting(_) => step := RunDeleter(w);
    case Done(_) => step := Finish(w, signal);
  }

  /** A settled queue has an empty list, no running worker and nothing left to measure. */
  lemma SettledMeansIdle<T(!new)>(q: Queue<T>)
    requires Inv(q) && Settled(q)
    ensures !Pending(q) && q.nrRunningWorkers == 0 && Measure(q) == 0
    ensures forall w :: 0 <= w < |q.workers| ==>
              q.workers[w].Free? || q.workers[w].Asleep? || q.workers[w].Exited?
    ensures forall id :: 0 <= id < |q.works| && id !in q.cancelled ==>
              q.calls[id] == FuncCalls(q.works[id]) + DeleterCalls(q.works[id])
  {
    forall w | 0 <= w < |q.workers| ensures !IsAwake(q.workers[w]) {
      if IsAwake(q.workers[w]) { var step := AwakeWorkerMoves(q, w); }
    }
    WeightZero(q.workers);
    assert Members(q.workers, RunningClass) == {} by {
      forall w: nat | w < |q.workers| ensures !Is(q.workers[w], RunningClass) {
        assert !IsAwake(q.workers[w]);
      }
    }
    forall id | 0 <= id < |q.works| && id !in q.cancelled
      ensures q.calls[id] == FuncCalls(q.works[id]) + DeleterCalls(q.works[id])
    {
      assert !IsHeld(q.workers, id) by {
        forall i | 0 <= i < |q.workers| ensures !Is(q.workers[i], RunningClass) {
          assert !IsAwake(q.workers[i]);
        }
      }
    }
  }

  lemma {:induction false} QuietRunKeepsInv<T(!new)>(states: seq<Queue<T>>, steps: seq<Step<T>>)
    requires IsRun(states, steps) && Inv(states[0])
    ensures Inv(states[|steps|])
  {
    RunKeepsInv(states, steps, |steps|);
  }

  /** No worker, and no caller inside that has been woken, can move. */
  ghost predicate Quiescent<T(!new)>(q: Queue<T>) {
    forall step: Step<T> :: IsQuiet(q, step) ==> !Enabled(q, step)
  }

  /** Then every `wait_all_work_done` has returned. */
  lemma QuiescentMeansDrained<T(!new)>(q: Queue<T>)
    requires Inv(q) && Quiescent(q)
    ensures Settled(q) && q.drainers == map[]
  {
    forall step: Step<T> | IsWorkerStep(step) ensures !Enabled(q, step) {
      assert IsQuiet(q, step);
    }
    SettledMeansIdle(q);
    forall c ensures c !in q.drainers {
      DrainerMoves(q, c);
    }
  }

  /** With nothing left to wait for, a drain caller inside has been woken. */
  lemma DrainerMoves<T>(q: Queue<T>, c: nat)
    requires Inv(q) && !Pending(q) && q.nrRunningWorkers == 0
    ensures IsQuiet(q, Redrain(c)) && (c in q.drainers ==> Enabled(q, Redrain(c)))
  {
  }

  /** Drain termination. Left to itself, the queue takes no more worker steps than the measure
      of its state; whenever no worker can move, after exactly that many, everything accepted
      has been executed and deleted; and when no caller can move either, no drain caller is
      left inside. */
  lemma DrainTerminates<T(!new)>(states: seq<Queue<T>>, steps: seq<Step<T>>)
    requires IsQuietRun(states, steps) && Reachable(states[0])
    ensures |states| == |steps| + 1 && WorkerSteps(steps) <= Measure(states[0])
    ensures Settled(states[|steps|]) ==>
              var q := states[|steps|];
              && WorkerSteps(steps) == Measure(states[0])
              && !Pending(q) && q.nrRunningWorkers == 0 && |q.calls| == |q.works|
              && forall id :: 0 <= id < |q.works| && id !in q.cancelled ==>
                   q.calls[id] == FuncCalls(q.works[id]) + DeleterCalls(q.works[id])
    ensures Quiescent(states[|steps|]) ==> Settled(states[|steps|]) && states[|steps|].drainers == map[]
  {
    ReachableHasInv(states[0]);
    QuietRunMeasure(states, steps);
    QuietRunKeepsInv(states, steps);
    hide Inv, Settled, Quiescent, IsQuietRun;
    if Settled(states[|steps|]) { SettledMeansIdle(states[|steps|]); }
    if Quiescent(states[|steps|]) { QuiescentMeansDrained(states[|steps|]); }
  }

  // ---------------------------------------------------------------- callers included

  function RousedCallers<T>(q: Queue<T>): nat {
    |RousedDrainers(q.drainers)| + |RousedQueuers(q.queuers)|
  }

  function RousedDrainers(drainers: map<nat, Waiter>): set<nat> {
    set c | c in drainers && drainers[c].Roused?
  }

  function RousedQueuers<T>(queuers: map<nat, Queuer<T>>): set<nat> {
    set c | c in queuers && queuers[c].wait.Roused?
  }

  function CallersInside<T>(q: Queue<T>): nat {
    |q.drainers.Keys| + |q.queuers.Keys|
  }

  lemma SubsetSize(a: set<nat>, b: set<nat>)
    requires a <= b
    ensures |a| <= |b|
  {
    assert b == a + (b - a);
  }

  lemma RousedBounded<T>(q: Queue<T>)
    ensures RousedCallers(q) <= CallersInside(q)
  {
    SubsetSize(RousedDrainers(q.drainers), q.drainers.Keys);
    SubsetSize(RousedQueuers(q.queuers), q.queuers.Keys);
  }

  lemma RedrainRoused<T>(q: Queue<T>, step: Step<T>)
    requires Enabled(q, step) && step.Redrain?
    ensures RousedCallers(Apply(q, step)) == RousedCallers(q) - 1
    ensures CallersInside(Apply(q, step)) <= CallersInside(q)
  {
    hide Full, Rouse;
    var q', c := Apply(q, step), step.caller;
    assert q'.queuers == q.queuers;
    assert RousedDrainers(q'.drainers) == RousedDrainers(q.drainers) - {c};
    assert c in RousedDrainers(q.drainers);
    SubsetSize(q'.drainers.Keys, q.drainers.Keys);
  }

  lemma ResubmitRoused<T>(q: Queue<T>, step: Step<T>)
    requires Enabled(q, step) && step.Resubmit? && !TryVerdict(q).Accepted?
    ensures RousedCallers(Apply(q, step)) == RousedCallers(q) - 1
    ensures CallersInside(Apply(q, step)) <= CallersInside(q)
  {
    hide Refuses, Rouse, ArmWorker;
    var q', c := Apply(q, step), step.caller;
    assert q'.drainers == q.drainers;
    assert RousedQueuers(q'.queuers) == RousedQueuers(q.queuers) - {c};
    assert c in RousedQueuers(q.queuers);
    SubsetSize(q'.queuers.Keys, q.queuers.Keys);
  }

  /** Quiet steps let no new caller in; a caller's step uses up its wake-up. */
  lemma CallerStepRoused<T>(q: Queue<T>, step: Step<T>)
    requires Enabled(q, step) && IsQuiet(q, step) && !IsWorkerStep(step)
    ensures RousedCallers(Apply(q, step)) == RousedCallers(q) - 1
    ensures CallersInside(Apply(q, step)) <= CallersInside(q)
  {
    hide Apply, Enabled, RousedCallers, CallersInside;
    if step.Redrain? { RedrainRoused(q, step); } else { ResubmitRoused(q, step); }
  }

  lemma WorkerStepCallers<T>(q: Queue<T>, step: Step<T>)
    requires Enabled(q, step) && IsWorkerStep(step)
    ensures CallersInside(Apply(q, step)) == CallersInside(q)
  {
    hide FinishSignal, FuncCalls, DeleterCalls, WaitForEvent;
    match step
    case Start(w) => WaitForEventCallers(q.(nrOnlineWorkers := q.nrOnlineWorkers + 1), w);
    case Resume(w) => WaitForEventCallers(q.(nrSleepingWorkers := q.nrSleepingWorkers - 1), w);
    case Finish(w, signal) =>
      WaitForEventCallers(q.(nrRunningWorkers := q.nrRunningWorkers - 1,
                             queuers := RouseQueuers(q.queuers, signal)), w);
    case _ =>
  }

  lemma WaitForEventCallers<T>(q: Queue<T>, w: nat)
    requires w < |q.workers|
    ensures CallersInside(WaitForEvent(q, w)) == CallersInside(q)
  {
  }

  /** What a quiet run can spend, with at most `n` callers inside. */
  function Potential<T>(q: Queue<T>, n: nat): int {
    Measure(q) * (n + 1) + RousedCallers(q)
  }

  lemma SpendOne(m: int, n: nat, r: nat, r': nat)
    requires r' <= n
    ensures (m - 1) * (n + 1) + r' < m * (n + 1) + r
  {
    assert (m - 1) * (n + 1) == m * (n + 1) - (n + 1);
  }

  lemma QuietStepPotential<T>(q: Queue<T>, step: Step<T>, n: nat)
    requires Enabled(q, step) && IsQuiet(q, step) && CallersInside(q) <= n
    ensures CallersInside(Apply(q, step)) <= n
    ensures Potential(Apply(q, step), n) < Potential(q, n)
  {
    hide Measure, Apply, Enabled, RousedCallers, CallersInside, IsQuiet, IsWorkerStep;
    var q' := Apply(q, step);
    if IsWorkerStep(step) {
      WorkerStepMeasure(q, step);
      WorkerStepCallers(q, step);
      RousedBounded(q');
      SpendOne(Measure(q), n, RousedCallers(q), RousedCallers(q'));
    } else {
      CallerStepMeasure(q, step);
      CallerStepRoused(q, step);
    }
  }

  lemma {:induction false} QuietRunPotential<T(!new)>(states: seq<Queue<T>>, steps: seq<Step<T>>, n: nat)
    requires IsQuietRun(states, steps) && CallersInside(states[0]) <= n
    ensures CallersInside(states[|steps|]) <= n
    ensures |steps| <= Potential(states[0], n) - Potential(states[|steps|], n)
  {
    if steps != [] {
      var k := |steps| - 1;
      RunPrefix(states, steps, k);
      QuietRunPotential(states[..k + 1], steps[..k], n);
      hide Potential, Enabled, Apply, IsQuiet, CallersInside;
      QuietStepPotential(states[k], steps[k], n);
    }
  }

  /** With the callers inside counted too, every quiet run is finite: each worker step can
      wake all of them, and each of their steps uses up one wake-up. */
  lemma QuietRunsAreFinite<T(!new)>(states: seq<Queue<T>>, steps: seq<Step<T>>)
    requires IsQuietRun(states, steps) && Reachable(states[0])
    ensures |steps| <= Measure(states[0]) * (CallersInside(states[0]) + 1) + CallersInside(states[0])
  {
    hide Measure, RousedCallers, CallersInside, Inv, Enabled, Apply;
    var n := CallersInside(states[0]);
    ReachableHasInv(states[0]);
    QuietRunKeepsInv(states, steps);
    QuietRunPotential(states, steps, n);
    RousedBounded(states[0]);
    MeasureNonNegative(states[|steps|]);
    ProductNonNegative(Measure(states[|steps|]), n + 1);
  }

  lemma ProductNonNegative(a: int, b: int)
    requires a >= 0 && b >= 0
    ensures a * b >= 0
  {
  }

  lemma MeasureNonNegative<T>(q: Queue<T>)
    requires Inv(q)
    ensures Measure(q) >= 0
  {
  }
}
