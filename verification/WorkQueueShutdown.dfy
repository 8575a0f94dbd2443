/** `destroy_workqueue`: which shutdowns complete, and what they leave behind. */
module WorkQueueShutdown {
  import opened WorkQueueModel
  import opened WorkQueueInvariant
  import opened WorkQueueSafety
  import opened WorkQueueProgress

  /** Stopping, with nobody left to wake. */
  ghost predicate Released<T>(q: Queue<T>) {
    && q.shouldStop && !q.queueIsBlocked
    && forall w :: 0 <= w < |q.workers| ==> !q.workers[w].Asleep?
  }

  /** `join_all_workers` returns: every thread ever created has exited. */
  ghost predicate AllJoined<T>(q: Queue<T>) {
    forall w :: 0 <= w < |q.workers| ==> q.workers[w].Free? || q.workers[w].Exited?
  }

  /** The calls made for every accepted work once nothing is left to do. */
  ghost predicate CallsFinal<T>(q: Queue<T>) {
    && |q.calls| == |q.works|
    && forall id :: 0 <= id < |q.works| ==>
         q.calls[id] == (if id in q.cancelled then [] else FuncCalls(q.works[id])) + DeleterCalls(q.works[id])
  }

  // ---------------------------------------------------------------- the wake-up at shutdown

  /** Signal-if-one, broadcast-if-many, on a counter that also counts woken threads, reaches
      every sleeping worker. */
  lemma DestroyWakesAll<T>(q: Queue<T>, signal: set<nat>)
    requires Inv(q) && WakesByCount(q.nrSleepingWorkers, Sleepers(q.workers), signal)
    ensures signal == Sleepers(q.workers)
  {
    SubsetSize(Sleepers(q.workers), Members(q.workers, SleepingClass));
    if q.nrSleepingWorkers == 1 && Sleepers(q.workers) != {} {
      var w :| w in signal;
      SingletonSubset(Sleepers(q.workers), w);
    }
  }

  lemma SingletonSubset(s: set<nat>, x: nat)
    requires x in s && |s| <= 1
    ensures s == {x}
  {
    assert |s - {x}| == 0;
  }

  lemma RouseAllWakes(ws: seq<Phase>)
    ensures forall w :: 0 <= w < |ws| ==> !Rouse(ws, Sleepers(ws))[w].Asleep?
    ensures |Rouse(ws, Sleepers(ws))| == |ws|
  {
  }

  lemma DestroyReleases<T>(q: Queue<T>, signal: set<nat>)
    requires Inv(q) && Enabled(q, Destroy(signal)) && !q.queueIsBlocked
    ensures Released(Apply(q, Destroy(signal)))
  {
    DestroyWakesAll(q, signal);
    RouseAllWakes(q.workers);
    hide Inv, Rouse, RouseDrainers, WakesByCount, DeleterCalls, PendingIds, Sleepers;
  }

  // ---------------------------------------------------------------- after the shutdown

  lemma WaitForEventReleased<T>(q: Queue<T>, w: nat)
    requires w < |q.workers| && Released(q)
    ensures
      var q' := WaitForEvent(q, w);
      && Released(q') && q'.workers == q.workers[w := Exited]
      && q'.works == q.works && q'.head == q.head
  {
  }

  /** Nothing that happens after the shutdown puts a worker to sleep, starts a thread, takes a
      work off the list or puts one on it. */
  lemma ReleasedStep<T>(q: Queue<T>, step: Step<T>)
    requires Released(q) && Enabled(q, step)
    ensures
      var q' := Apply(q, step);
      && Released(q') && q'.works == q.works && q'.head == q.head && |q'.workers| == |q.workers|
      && (forall w :: 0 <= w < |q.workers| && q.workers[w].Free? ==> q'.workers[w].Free?)
  {
    hide WaitForEvent;
    match step
    case Start(w) => WaitForEventReleased(q.(nrOnlineWorkers := q.nrOnlineWorkers + 1), w);
    case Resume(w) => WaitForEventReleased(q.(nrSleepingWorkers := q.nrSleepingWorkers - 1), w);
    case Finish(w, signal) =>
      WaitForEventReleased(q.(nrRunningWorkers := q.nrRunningWorkers - 1,
                              queuers := RouseQueuers(q.queuers, signal)), w);
    case _ =>
  }

  lemma ReleasedMeasure<T>(q: Queue<T>, step: Step<T>)
    requires Released(q) && Enabled(q, step)
    ensures Measure(Apply(q, step)) == Measure(q) - Indicator(IsWorkerStep(step))
  {
    if IsWorkerStep(step) {
      WorkerStepMeasure(q, step);
    } else {
      hide Measure;
      assert Apply(q, step).workers == q.workers && Apply(q, step).works == q.works
          && Apply(q, step).head == q.head;
      MeasureFrame(q, Apply(q, step));
    }
  }

  lemma MeasureFrame<T>(q: Queue<T>, q': Queue<T>)
    requires q'.workers == q.workers && q'.works == q.works && q'.head == q.head
    ensures Measure(q') == Measure(q)
  {
  }

  lemma {:induction false} ReleasedRun<T(!new)>(states: seq<Queue<T>>, steps: seq<Step<T>>)
    requires IsRun(states, steps) && Released(states[0])
    ensures Released(states[|steps|]) && states[|steps|].works == states[0].works
    ensures WorkerSteps(steps) == Measure(states[0]) - Measure(states[|steps|])
    ensures |states[|steps|].workers| == |states[0].workers|
  {
    if steps != [] {
      var n := |steps| - 1;
      hide Enabled, Apply, Measure, Released;
      assert IsRun(states[..n + 1], steps[..n]);
      ReleasedRun(states[..n + 1], steps[..n]);
      ReleasedStep(states[n], steps[n]);
      ReleasedMeasure(states[n], steps[n]);
    }
  }

  /** After a shutdown that released everybody, a settled queue has been joined. */
  lemma ReleasedSettles<T(!new)>(q: Queue<T>)
    requires Inv(q) && Released(q) && Settled(q)
    ensures AllJoined(q) && CallsFinal(q) && Measure(q) == 0
    ensures q.nrSleepingWorkers == 0 && q.nrRunningWorkers == 0 && q.nrOnlineWorkers == 0
  {
    SettledMeansIdle(q);
    assert Members(q.workers, SleepingClass) == {};
    assert Members(q.workers, OnlineClass) == {};
    NobodyHolds(q);
  }

  lemma NobodyHolds<T>(q: Queue<T>)
    requires Inv(q) && AllJoined(q)
    ensures forall id :: 0 <= id < |q.works| && id in q.cancelled ==> q.calls[id] == DeleterCalls(q.works[id])
  {
    forall id: nat ensures !IsHeld(q.workers, id) {
      assert forall i :: 0 <= i < |q.workers| ==> !Is(q.workers[i], RunningClass);
    }
  }

  /** Shutdown completes. If the queue is not blocked by a drain caller when
      `destroy_workqueue` takes the lock, then on every schedule no worker is asleep from then
      on, nothing more is accepted, the workers take at most the measure's number of steps, and
      once none can move all have exited, the counters are zero, and the deleter of every
      accepted work has run, `func` having been skipped for the cancelled works only. */
  lemma ShutdownCompletes<T(!new)>(states: seq<Queue<T>>, steps: seq<Step<T>>)
    requires IsRun(states, steps) && Reachable(states[0])
    requires steps != [] && steps[0].Destroy? && !states[0].queueIsBlocked
    ensures
      var q := states[|steps|];
      && Released(q) && q.works == states[0].works
      && WorkerSteps(steps[1..]) <= Measure(states[1])
      && (Settled(q) ==>
            && WorkerSteps(steps[1..]) == Measure(states[1])
            && AllJoined(q) && CallsFinal(q)
            && q.nrSleepingWorkers == 0 && q.nrRunningWorkers == 0 && q.nrOnlineWorkers == 0)
  {
    hide Inv, Released, Enabled, Apply, Measure, Settled, AllJoined, CallsFinal;
    var q := states[|steps|];
    ReachableHasInv(states[0]);
    RunKeepsInv(states, steps, |steps|);
    ShutdownStep(states[0], steps[0]);
    RunSuffix(states, steps);
    ReleasedRun(states[1..], steps[1..]);
    MeasureNonNegative(q);
    if Settled(q) { ReleasedSettles(q); }
  }

  lemma ShutdownStep<T>(q: Queue<T>, step: Step<T>)
    requires Inv(q) && Enabled(q, step) && step.Destroy? && !q.queueIsBlocked
    ensures Released(Apply(q, step)) && Apply(q, step).works == q.works
  {
    DestroyReleases(q, step.signal);
    hide Inv, Released;
  }

  lemma RunSuffix<T(!new)>(states: seq<Queue<T>>, steps: seq<Step<T>>)
    requires IsRun(states, steps) && steps != []
    ensures IsRun(states[1..], steps[1..])
  {
    hide Enabled, Apply;
    forall k | 0 <= k < |steps[1..]|
      ensures Enabled(states[1..][k], steps[1..][k])
      ensures states[1..][k + 1] == Apply(states[1..][k], steps[1..][k])
    {
      assert steps[1..][k] == steps[k + 1];
    }
  }

  // ---------------------------------------------------------------- shutdown during a drain

  /** A worker asleep after the shutdown is never woken again, except spuriously. */
  lemma AsleepAfterStop<T>(q: Queue<T>, step: Step<T>, w: nat)
    requires q.shouldStop && w < |q.workers| && q.workers[w].Asleep?
    requires Enabled(q, step) && step != SpuriousWorker(w)
    ensures
      var q' := Apply(q, step);
      q'.shouldStop && w < |q'.workers| && q'.workers[w].Asleep?
  {
    hide RouseDrainers, RouseQueuers;
  }

  /** The same slots are free, and the same threads have exited. */
  ghost predicate SameThreads<T>(q: Queue<T>, q': Queue<T>) {
    && |q'.workers| == |q.workers|
    && forall w :: 0 <= w < |q.workers| ==>
         (q'.workers[w].Free? <==> q.workers[w].Free?) && (q'.workers[w].Exited? <==> q.workers[w].Exited?)
  }

  /** A blocked worker does not exit: it takes work or sleeps. */
  lemma BlockedWorkerStep<T>(q: Queue<T>, step: Step<T>)
    requires q.shouldStop && q.queueIsBlocked && Enabled(q, step) && IsWorkerStep(step)
    ensures Apply(q, step).shouldStop && Apply(q, step).queueIsBlocked
    ensures SameThreads(q, Apply(q, step))
  {
    WorkerStepMovesSlots(q, step);
    hide RouseDrainers, RouseQueuers, SlotMoves;
    assert forall w :: 0 <= w < |q.workers| && w != step.w ==> Apply(q, step).workers[w] == q.workers[w];
  }

  lemma MovingMeansAwake<T(!new)>(q: Queue<T>)
    ensures forall step: Step<T> :: IsWorkerStep(step) && Enabled(q, step) ==>
              step.w < |q.workers| && IsAwake(q.workers[step.w])
  {
    hide FinishSignal;
  }

  lemma NobodyAwakeMeansSettled<T(!new)>(q: Queue<T>)
    requires forall w :: 0 <= w < |q.workers| ==> !IsAwake(q.workers[w])
    ensures Settled(q)
  {
    MovingMeansAwake(q);
    hide FinishSignal, IsAwake;
  }

  lemma PrependStep<T(!new)>(q: Queue<T>, step: Step<T>, states: seq<Queue<T>>, steps: seq<Step<T>>)
    requires IsRun(states, steps) && Enabled(q, step) && states[0] == Apply(q, step)
    ensures IsRun([q] + states, [step] + steps)
  {
    hide Enabled, Apply;
    var states', steps' := [q] + states, [step] + steps;
    forall k | 0 <= k < |steps'|
      ensures Enabled(states'[k], steps'[k]) && states'[k + 1] == Apply(states'[k], steps'[k])
    {
      if k > 0 { assert steps'[k] == steps[k - 1]; }
    }
  }

  predicate WorkersOnly<T>(steps: seq<Step<T>>) {
    forall k {:trigger steps[k]} :: 0 <= k < |steps| ==> IsWorkerStep(steps[k])
  }

  ghost predicate StoppedAndBlocked<T>(q: Queue<T>) {
    Inv(q) && q.shouldStop && q.queueIsBlocked
  }

  lemma AdvanceBlocked<T>(q: Queue<T>, w: nat) returns (step: Step<T>)
    requires StoppedAndBlocked(q) && w < |q.workers| && IsAwake(q.workers[w])
    ensures Enabled(q, step) && IsWorkerStep(step)
    ensures StoppedAndBlocked(Apply(q, step)) && SameThreads(q, Apply(q, step))
    ensures 0 <= Measure(Apply(q, step)) < Measure(q)
  {
    step := AwakeWorkerMoves(q, w);
    hide Inv, Enabled, Apply, IsAwake, Measure, IsWorkerStep, SameThreads;
    StepKeepsInv(q, step);
    BlockedWorkerStep(q, step);
    WorkerStepMeasure(q, step);
    MeasureNonNegative(Apply(q, step));
  }

  lemma SameThreadsTransitive<T>(q: Queue<T>, q': Queue<T>, q'': Queue<T>)
    requires SameThreads(q, q') && SameThreads(q', q'')
    ensures SameThreads(q, q'')
  {
  }

  /** A run of the workers from `q` until none can move. */
  ghost predicate RunsOut<T(!new)>(q: Queue<T>, states: seq<Queue<T>>, steps: seq<Step<T>>) {
    && IsRun(states, steps) && WorkersOnly(steps) && states[0] == q
    && StoppedAndBlocked(states[|steps|]) && Settled(states[|steps|]) && SameThreads(q, states[|steps|])
  }

  lemma ExtendRunsOut<T(!new)>(q: Queue<T>, step: Step<T>, states: seq<Queue<T>>, steps: seq<Step<T>>)
    requires Enabled(q, step) && IsWorkerStep(step) && SameThreads(q, Apply(q, step))
    requires RunsOut(Apply(q, step), states, steps)
    ensures RunsOut(q, [q] + states, [step] + steps)
  {
    hide StoppedAndBlocked, Settled, SameThreads, Enabled, Apply, IsWorkerStep;
    PrependStep(q, step, states, steps);
    SameThreadsTransitive(q, Apply(q, step), states[|steps|]);
    assert ([q] + states)[|steps| + 1] == states[|steps|];
    assert WorkersOnly([step] + steps);
  }

  /** The workers of a stopped and blocked queue can run until none can move. */
  lemma {:induction false} RunBlockedWorkers<T(!new)>(q: Queue<T>)
    returns (states: seq<Queue<T>>, steps: seq<Step<T>>)
    requires StoppedAndBlocked(q)
    ensures RunsOut(q, states, steps)
    decreases Measure(q)
  {
    if w: nat :| w < |q.workers| && IsAwake(q.workers[w]) {
      hide StoppedAndBlocked, Enabled, Apply, IsAwake, Measure, IsWorkerStep, SameThreads, RunsOut;
      var step := AdvanceBlocked(q, w);
      states, steps := RunBlockedWorkers(Apply(q, step));
      ExtendRunsOut(q, step, states, steps);
      states, steps := [q] + states, [step] + steps;
    } else {
      states, steps := [q], [];
      NobodyAwakeMeansSettled(q);
    }
  }

  /** On every schedule without spurious worker wake-ups, `join_all_workers` returns. */
  ghost predicate JoinAlwaysReturns<T(!new)>(q: Queue<T>) {
    forall states: seq<Queue<T>>, steps: seq<Step<T>> ::
      && IsRun(states, steps) && states[0] == q
      && (forall k :: 0 <= k < |steps| ==> !steps[k].SpuriousWorker?)
      && Settled(states[|steps|])
      ==> AllJoined(states[|steps|])
  }

  lemma {:induction false} StoppedPoolStaysEmpty<T(!new)>(states: seq<Queue<T>>, steps: seq<Step<T>>)
    requires IsRun(states, steps) && states[0].shouldStop
    requires forall w :: 0 <= w < |states[0].workers| ==> states[0].workers[w].Free?
    ensures states[|steps|].shouldStop
    ensures forall w :: 0 <= w < |states[|steps|].workers| ==> states[|steps|].workers[w].Free?
  {
    if steps != [] {
      var n := |steps| - 1;
      hide Enabled, Apply;
      assert IsRun(states[..n + 1], steps[..n]);
      StoppedPoolStaysEmpty(states[..n + 1], steps[..n]);
      EmptyPoolStep(states[n], steps[n]);
    }
  }

  lemma EmptyPoolStep<T>(q: Queue<T>, step: Step<T>)
    requires q.shouldStop && Enabled(q, step)
    requires forall w :: 0 <= w < |q.workers| ==> q.workers[w].Free?
    ensures Apply(q, step).shouldStop && Apply(q, step).workers == q.workers
  {
  }

  /** Exactly which shutdowns complete: those that find the queue not blocked by a drain
      caller, or without any worker thread. The exit test of `wait_for_event` also asks for
      `queue_is_blocked` to be clear, so a worker that looks while a drain caller is still
      inside goes back to sleep, and nobody is left to wake it. */
  lemma ShutdownExact<T(!new)>(q: Queue<T>, signal: set<nat>)
    requires Reachable(q) && Enabled(q, Destroy(signal))
    ensures JoinAlwaysReturns(Apply(q, Destroy(signal)))
       <==> !q.queueIsBlocked || forall w :: 0 <= w < |q.workers| ==> q.workers[w].Free?
  {
    hide Inv, Enabled, Apply, JoinAlwaysReturns;
    ReachableHasInv(q);
    StepKeepsInv(q, Destroy(signal));
    if q.queueIsBlocked {
      DestroyKeepsThreads(q, signal);
      BlockedShutdownExact(q, Apply(q, Destroy(signal)));
    } else {
      DestroyReleases(q, signal);
      ReleasedJoins(Apply(q, Destroy(signal)));
    }
  }

  lemma BlockedShutdownExact<T(!new)>(q: Queue<T>, q': Queue<T>)
    requires StoppedAndBlocked(q') && SameThreads(q, q')
    requires forall w :: 0 <= w < |q'.workers| ==> !q'.workers[w].Exited?
    ensures JoinAlwaysReturns(q') <==> forall w :: 0 <= w < |q.workers| ==> q.workers[w].Free?
  {
    hide Inv, JoinAlwaysReturns;
    if w: nat :| w < |q.workers| && !q.workers[w].Free? {
      BlockedStrands(q', w);
    } else {
      EmptyPoolJoins(q');
    }
  }

  lemma DestroyKeepsThreads<T>(q: Queue<T>, signal: set<nat>)
    requires Enabled(q, Destroy(signal)) && Inv(q)
    ensures
      var q' := Apply(q, Destroy(signal));
      && q'.shouldStop && q'.queueIsBlocked == q.queueIsBlocked && SameThreads(q, q')
      && forall w :: 0 <= w < |q'.workers| ==> !q'.workers[w].Exited?
  {
    NobodyHasExited(q);
    hide ClearPending, RouseDrainers, WakesByCount, Inv;
    ClearKeepsFlags(q);
  }

  lemma NobodyHasExited<T>(q: Queue<T>)
    requires Inv(q) && !q.shouldStop
    ensures forall w :: 0 <= w < |q.workers| ==> !q.workers[w].Exited?
  {
  }

  lemma ClearKeepsFlags<T>(q: Queue<T>)
    requires |q.calls| == |q.works|
    ensures ClearPending(q).queueIsBlocked == q.queueIsBlocked
  {
  }

  lemma ReleasedJoins<T(!new)>(q: Queue<T>)
    requires Inv(q) && Released(q)
    ensures JoinAlwaysReturns(q)
  {
    forall states: seq<Queue<T>>, steps: seq<Step<T>>
      | IsRun(states, steps) && states[0] == q && Settled(states[|steps|])
      ensures AllJoined(states[|steps|])
    {
      RunKeepsInv(states, steps, |steps|);
      ReleasedRun(states, steps);
      ReleasedSettles(states[|steps|]);
    }
  }

  lemma EmptyPoolJoins<T(!new)>(q: Queue<T>)
    requires q.shouldStop && forall w :: 0 <= w < |q.workers| ==> q.workers[w].Free?
    ensures JoinAlwaysReturns(q)
  {
    forall states: seq<Queue<T>>, steps: seq<Step<T>> | IsRun(states, steps) && states[0] == q
      ensures AllJoined(states[|steps|])
    {
      StoppedPoolStaysEmpty(states, steps);
    }
  }

  lemma BlockedStrands<T(!new)>(q: Queue<T>, w: nat)
    requires StoppedAndBlocked(q)
    requires w < |q.workers| && !q.workers[w].Free? && !q.workers[w].Exited?
    ensures !JoinAlwaysReturns(q)
  {
    var states, steps := RunBlockedWorkers(q);
    hide Settled, StoppedAndBlocked, Enabled, Apply;
    assert !AllJoined(states[|steps|]);
    forall k | 0 <= k < |steps| ensures !steps[k].SpuriousWorker? {
      assert IsWorkerStep(steps[k]);
    }
  }
}
