/** Safety of the work queue in every reachable state and over whole runs. */
module WorkQueueSafety {
  import opened WorkQueueModel
  import opened WorkQueueInvariant

  // ---------------------------------------------------------------- wake-ups

  /** A non-empty list is never left to threads that are all asleep. */
  lemma PendingWorkHasAwakeWorker<T(!new)>(q: Queue<T>)
    requires Reachable(q) && Pending(q)
    ensures exists w :: 0 <= w < |q.workers| && IsAwake(q.workers[w])
  {
    ReachableHasInv(q);
  }

  /** A drain caller is asleep only while announced and while work is pending or running. */
  lemma SleepingDrainerIsAnnounced<T(!new)>(q: Queue<T>, caller: nat)
    requires Reachable(q) && caller in q.drainers && q.drainers[caller].Sleeping?
    ensures q.waitAllIsWaiting && !q.shouldStop && (Pending(q) || q.nrRunningWorkers > 0)
  {
    ReachableHasInv(q);
  }

  // ---------------------------------------------------------------- the worker pool

  /** The counters agree with the threads, and no more threads exist than slots. */
  lemma CountersAgree<T(!new)>(q: Queue<T>)
    requires Reachable(q)
    ensures q.nrSleepingWorkers == |set w: nat | w < |q.workers| && (q.workers[w].Asleep? || q.workers[w].Woken?)|
    ensures q.nrRunningWorkers
         == |set w: nat | w < |q.workers| && (q.workers[w].Executing? || q.workers[w].Deleting? || q.workers[w].Done?)|
    ensures q.nrSleepingQueuers == |q.queuers|
    ensures q.nrSleepingWorkers + q.nrRunningWorkers == q.nrOnlineWorkers <= |q.workers|
  {
    hide Reachable, Inv, Members;
    ReachableHasInv(q);
    CountersAreMembers(q);
    MembersMean(q.workers);
    MembersBounded(q.workers, OnlineClass);
  }

  lemma MembersMean(ws: seq<Phase>)
    ensures Members(ws, SleepingClass) == set w: nat | w < |ws| && (ws[w].Asleep? || ws[w].Woken?)
    ensures Members(ws, RunningClass) == set w: nat | w < |ws| && (ws[w].Executing? || ws[w].Deleting? || ws[w].Done?)
    ensures Members(ws, OnlineClass) == Members(ws, SleepingClass) + Members(ws, RunningClass)
    ensures Members(ws, SleepingClass) !! Members(ws, RunningClass)
  {
  }

  lemma CountersAreMembers<T>(q: Queue<T>)
    requires Inv(q)
    ensures q.nrSleepingWorkers == |Members(q.workers, SleepingClass)|
    ensures q.nrRunningWorkers == |Members(q.workers, RunningClass)|
    ensures q.nrOnlineWorkers == |Members(q.workers, OnlineClass)| && q.nrSleepingQueuers == |q.queuers|
  {
  }

  lemma {:induction false} MembersBounded(ws: seq<Phase>, c: Class)
    ensures |Members(ws, c)| <= |ws|
  {
    if ws != [] {
      var n := |ws| - 1;
      MembersBounded(ws[..n], c);
      assert Members(ws, c) == if Is(ws[n], c) then Members(ws[..n], c) + {n} else Members(ws[..n], c);
    }
  }

  /** What a step can do to a worker slot: a slot is filled once, and its thread moves from
      `Starting` through the loop to `Exited`, never back. */
  predicate SlotMoves(p: Phase, p': Phase) {
    && (p'.Free? ==> p.Free?)
    && (p'.Starting? ==> p.Starting? || p.Free?)
    && (p.Exited? ==> p'.Exited?)
    && (p.Free? ==> p'.Free? || p'.Starting?)
  }

  predicate IsWorkerStep<T>(step: Step<T>) {
    step.Start? || step.Resume? || step.RunFunc? || step.RunDeleter? || step.Finish?
  }

  lemma WaitForEventMovesSlots<T>(q: Queue<T>, w: nat)
    requires w < |q.workers| && !q.workers[w].Free? && !q.workers[w].Exited?
    ensures |WaitForEvent(q, w).workers| == |q.workers|
    ensures forall i :: 0 <= i < |q.workers| ==> SlotMoves(q.workers[i], WaitForEvent(q, w).workers[i])
  {
    hide RouseDrainers;
    var ws' := WaitForEvent(q, w).workers;
    assert forall i :: 0 <= i < |q.workers| && i != w ==> ws'[i] == q.workers[i];
  }

  lemma WorkerStepMovesSlots<T>(q: Queue<T>, step: Step<T>)
    requires Enabled(q, step) && IsWorkerStep(step)
    ensures |Apply(q, step).workers| == |q.workers|
    ensures forall w :: 0 <= w < |q.workers| ==> SlotMoves(q.workers[w], Apply(q, step).workers[w])
  {
    match step
    case Start(w) => WaitForEventMovesSlots(q.(nrOnlineWorkers := q.nrOnlineWorkers + 1), w);
    case Resume(w) => WaitForEventMovesSlots(q.(nrSleepingWorkers := q.nrSleepingWorkers - 1), w);
    case Finish(w, signal) =>
      WaitForEventMovesSlots(q.(nrRunningWorkers := q.nrRunningWorkers - 1,
                                queuers := RouseQueuers(q.queuers, signal)), w);
    case _ =>
  }

  lemma ArmMovesSlots<T>(q: Queue<T>, signal: set<nat>)
    ensures |ArmWorker(q, signal).workers| == |q.workers|
    ensures forall w :: 0 <= w < |q.workers| ==> SlotMoves(q.workers[w], ArmWorker(q, signal).workers[w])
  {
  }

  lemma StepMovesSlots<T>(q: Queue<T>, step: Step<T>)
    requires Enabled(q, step)
    ensures |Apply(q, step).workers| == |q.workers|
    ensures forall w :: 0 <= w < |q.workers| ==> SlotMoves(q.workers[w], Apply(q, step).workers[w])
  {
    if IsWorkerStep(step) {
      WorkerStepMovesSlots(q, step);
    } else if step.Submit? || step.Resubmit? {
      ArmMovesSlots(q, step.signal);
      hide SlotMoves;
      assert Apply(q, step).workers == q.workers
          || Apply(q, step).workers == ArmWorker(q, step.signal).workers;
      NoMove(q.workers);
    }
  }

  lemma NoMove(ws: seq<Phase>)
    ensures forall w :: 0 <= w < |ws| ==> SlotMoves(ws[w], ws[w])
  {
  }

  /** Once a thread occupies a slot, no other thread ever does: after leaving `Starting` the
      slot is never `Starting` or `Free` again, and the number of slots is fixed. */
  lemma {:induction false} SlotsNeverReused<T(!new)>(
      states: seq<Queue<T>>, steps: seq<Step<T>>, i: nat, j: nat, w: nat)
    requires IsRun(states, steps) && i <= j <= |steps| && w < |states[i].workers|
    ensures |states[j].workers| == |states[i].workers|
    ensures !states[i].workers[w].Free? ==> !states[j].workers[w].Free?
    ensures !states[i].workers[w].Free? && !states[i].workers[w].Starting? ==> !states[j].workers[w].Starting?
    decreases j - i
  {
    if i < j {
      StepMovesSlots(states[i], steps[i]);
      SlotsNeverReused(states, steps, i + 1, j, w);
    }
  }

  // ---------------------------------------------------------------- the life of a work

  ghost predicate InExecution<T>(q: Queue<T>, id: nat) {
    exists w :: 0 <= w < |q.workers| && q.workers[w] == Executing(id)
  }

  ghost predicate InDeletion<T>(q: Queue<T>, id: nat) {
    exists w :: 0 <= w < |q.workers| && (q.workers[w] == Deleting(id) || q.workers[w] == Done(id))
  }

  predicate IsCancelled<T>(q: Queue<T>, id: nat) {
    id in q.cancelled
  }

  ghost predicate IsCompleted<T>(q: Queue<T>, id: nat) {
    id < q.head && !IsCancelled(q, id) && !IsHeld(q.workers, id)
  }

  /** Every accepted work is in one of five places, and in no two of them. */
  lemma AcceptedWorkIsInOnePlace<T(!new)>(q: Queue<T>, id: nat)
    requires Reachable(q) && id < |q.works|
    ensures IsPending(q, id) || InExecution(q, id) || InDeletion(q, id) || IsCompleted(q, id) || IsCancelled(q, id)
    ensures IsPending(q, id) ==> !InExecution(q, id) && !InDeletion(q, id) && !IsCompleted(q, id) && !IsCancelled(q, id)
    ensures InExecution(q, id) ==> !InDeletion(q, id) && !IsCompleted(q, id) && !IsCancelled(q, id)
    ensures InDeletion(q, id) ==> !IsCompleted(q, id) && !IsCancelled(q, id)
    ensures IsCompleted(q, id) ==> !IsCancelled(q, id)
  {
    hide Reachable;
    ReachableHasInv(q);
    HeldMeansInWorker(q, id);
    if InExecution(q, id) { HeldPhaseUnique(q, id); }
    assert IsHeld(q.workers, id) ==> id < q.head && id !in q.cancelled;
  }

  lemma HeldMeansInWorker<T>(q: Queue<T>, id: nat)
    ensures IsHeld(q.workers, id) <==> InExecution(q, id) || InDeletion(q, id)
  {
    if IsHeld(q.workers, id) {
      var i :| 0 <= i < |q.workers| && Is(q.workers[i], RunningClass) && q.workers[i].id == id;
      assert q.workers[i] == Executing(id) || q.workers[i] == Deleting(id) || q.workers[i] == Done(id);
    }
    if InExecution(q, id) {
      var i :| 0 <= i < |q.workers| && q.workers[i] == Executing(id);
      assert Is(q.workers[i], RunningClass);
    }
    if InDeletion(q, id) {
      var i :| 0 <= i < |q.workers| && (q.workers[i] == Deleting(id) || q.workers[i] == Done(id));
      assert Is(q.workers[i], RunningClass);
    }
  }

  lemma HeldPhaseUnique<T>(q: Queue<T>, id: nat)
    requires HeldOnce(q) && InExecution(q, id)
    ensures !InDeletion(q, id)
  {
    var i :| 0 <= i < |q.workers| && q.workers[i] == Executing(id);
    assert Is(q.workers[i], RunningClass);
    forall j | 0 <= j < |q.workers| ensures q.workers[j] != Deleting(id) && q.workers[j] != Done(id) {
      if Is(q.workers[j], RunningClass) && q.workers[j].id == id { assert i == j; }
    }
  }

  /** The calls made for a work, by its place: `func` at most once and before the deleter, the
      deleter at most once, `func` skipped for the cancelled works only. */
  lemma CallsByPlace<T(!new)>(q: Queue<T>, id: nat)
    requires Reachable(q) && id < |q.works|
    ensures |q.calls| == |q.works|
    ensures IsPending(q, id) || InExecution(q, id) ==> q.calls[id] == []
    ensures InDeletion(q, id) ==>
              q.calls[id] == FuncCalls(q.works[id])
              || q.calls[id] == FuncCalls(q.works[id]) + DeleterCalls(q.works[id])
    ensures IsCompleted(q, id) ==> q.calls[id] == FuncCalls(q.works[id]) + DeleterCalls(q.works[id])
    ensures IsCancelled(q, id) ==> q.calls[id] == DeleterCalls(q.works[id])
  {
    ReachableHasInv(q);
    if InExecution(q, id) {
      var w :| 0 <= w < |q.workers| && q.workers[w] == Executing(id);
      assert Is(q.workers[w], RunningClass);
    }
    if InDeletion(q, id) {
      var w :| 0 <= w < |q.workers| && (q.workers[w] == Deleting(id) || q.workers[w] == Done(id));
      assert Is(q.workers[w], RunningClass);
    }
    if IsCancelled(q, id) {
      assert !IsHeld(q.workers, id);
    }
  }

  lemma TryQueueRecord<T>(q: Queue<T>, caller: nat, work: Work<T>, signal: set<nat>)
    ensures var q' := TryQueue(q, caller, work, signal);
      if TryVerdict(q).Accepted? then q'.works == q.works + [work] && q'.calls == q.calls + [[]]
      else q'.works == q.works && q'.calls == q.calls
  {
    hide Rouse, FirstFree;
  }

  lemma WaitForEventRecord<T>(q: Queue<T>, w: nat)
    requires w < |q.workers|
    ensures WaitForEvent(q, w).works == q.works && WaitForEvent(q, w).calls == q.calls
  {
  }

  lemma DestroyRecord<T>(q: Queue<T>, signal: set<nat>)
    requires |q.calls| == |q.works|
    ensures var q' := DestroyQueue(q, signal);
      q'.works == q.works && |q'.calls| == |q.calls|
      && forall id :: 0 <= id < |q.works| ==> q.calls[id] <= q'.calls[id]
  {
    hide Rouse;
  }

  /** Works are appended; the calls made for a work are appended to. */
  ghost predicate Extends<T(!new)>(q: Queue<T>, q': Queue<T>) {
    && q.works <= q'.works && |q'.calls| == |q'.works|
    && forall id :: 0 <= id < |q.works| && id < |q.calls| && id < |q'.calls| ==> q.calls[id] <= q'.calls[id]
  }

  /** The record of accepted works and of the calls made for them only grows. */
  lemma StepExtendsRecord<T(!new)>(q: Queue<T>, step: Step<T>)
    requires Enabled(q, step)
    ensures Extends(q, Apply(q, step))
  {
    match step
    case Submit(c, work, signal) =>
      hide TryQueue;
      TryQueueRecord(q, c, work, signal);
    case Resubmit(c, signal) =>
      hide TryQueue;
      TryQueueRecord(Unqueue(q, c), c, q.queuers[c].work, signal);
    case Destroy(signal) =>
      hide DestroyQueue;
      DestroyRecord(q, signal);
    case RunFunc(w) => CallsExtend(q, step);
    case RunDeleter(w) => CallsExtend(q, step);
    case _ => OtherStepKeepsRecord(q, step);
  }

  lemma CallsExtend<T(!new)>(q: Queue<T>, step: Step<T>)
    requires Enabled(q, step) && (step.RunFunc? || step.RunDeleter?)
    ensures Extends(q, Apply(q, step))
  {
    hide FuncCalls, DeleterCalls;
  }

  lemma OtherStepKeepsRecord<T(!new)>(q: Queue<T>, step: Step<T>)
    requires Enabled(q, step) && !step.Submit? && !step.Resubmit? && !step.Destroy?
    requires !step.RunFunc? && !step.RunDeleter?
    ensures Extends(q, Apply(q, step))
  {
    hide WaitForEvent, FinishSignal;
    match step
    case Start(w) => WaitForEventRecord(q.(nrOnlineWorkers := q.nrOnlineWorkers + 1), w);
    case Resume(w) => WaitForEventRecord(q.(nrSleepingWorkers := q.nrSleepingWorkers - 1), w);
    case Finish(w, signal) =>
      WaitForEventRecord(q.(nrRunningWorkers := q.nrRunningWorkers - 1,
                            queuers := RouseQueuers(q.queuers, signal)), w);
    case _ =>
  }

  lemma {:induction false} RecordOnlyGrows<T(!new)>(
      states: seq<Queue<T>>, steps: seq<Step<T>>, i: nat, j: nat, id: nat)
    requires IsRun(states, steps) && i <= j <= |steps|
    requires |states[i].calls| == |states[i].works| && id < |states[i].works|
    ensures |states[j].calls| == |states[j].works| && id < |states[j].works|
    ensures states[j].works[id] == states[i].works[id] && states[i].calls[id] <= states[j].calls[id]
    decreases j - i
  {
    if i < j {
      StepExtendsRecord(states[i], steps[i]);
      RecordOnlyGrows(states, steps, i + 1, j, id);
    }
  }

  /** A submission that is refused, or has to wait, leaves no trace: nothing is accepted,
      nothing is called, no worker is disturbed. */
  lemma RefusedWorkUntouched<T>(q: Queue<T>, step: Step<T>)
    requires Enabled(q, step) && (step.Submit? || step.Resubmit?) && !TryVerdict(q).Accepted?
    ensures Apply(q, step).works == q.works && Apply(q, step).calls == q.calls
    ensures Apply(q, step).workers == q.workers && Apply(q, step).head == q.head
  {
  }

  // ---------------------------------------------------------------- drain

  /** A drain caller at its loop test. */
  predicate IsDrainStep<T>(step: Step<T>) {
    step.Drain? || step.Redrain?
  }

  predicate Returns<T>(q: Queue<T>, step: Step<T>)
    requires Enabled(q, step)
  {
    IsDrainStep(step) && step.caller !in Apply(q, step).drainers
  }

  /** When `wait_all_work_done` returns without a shutdown, every work ever accepted has been
      through `func` and `deleter`, and no worker holds any. */
  lemma DrainReturnsWhenDone<T(!new)>(q: Queue<T>, step: Step<T>)
    requires Reachable(q) && Enabled(q, step) && Returns(q, step) && !q.shouldStop
    ensures
      var q' := Apply(q, step);
      && !Pending(q') && (forall w :: 0 <= w < |q'.workers| ==> !Is(q'.workers[w], RunningClass))
      && forall id :: 0 <= id < |q'.works| ==>
           q'.calls[id] == FuncCalls(q'.works[id]) + DeleterCalls(q'.works[id])
  {
    ReachableHasInv(q);
    RunningCounted(q);
    DrainReturnCondition(q, step);
    forall id | 0 <= id < |q.works|
      ensures q.calls[id] == FuncCalls(q.works[id]) + DeleterCalls(q.works[id])
    {
      assert !IsHeld(q.workers, id);
    }
  }

  lemma DrainReturnCondition<T>(q: Queue<T>, step: Step<T>)
    requires Enabled(q, step) && Returns(q, step) && !q.shouldStop
    ensures !Pending(q) && q.nrRunningWorkers == 0
    ensures Apply(q, step).works == q.works && Apply(q, step).calls == q.calls
    ensures Apply(q, step).workers == q.workers && Apply(q, step).head == q.head
  {
  }

  /** With `caller` as the only drain caller, nothing is accepted until it leaves. */
  lemma {:induction false} SoleDrainerBlocksSubmission<T(!new)>(
      states: seq<Queue<T>>, steps: seq<Step<T>>, caller: nat, k: nat)
    requires IsRun(states, steps) && 1 <= k <= |steps|
    requires states[0].drainers == map[] && steps[0] == Drain(caller)
    requires forall j :: 1 <= j < k ==> !steps[j].Drain?
    requires forall j :: 1 <= j <= k ==> caller in states[j].drainers
    ensures states[k].queueIsBlocked && states[k].drainers.Keys == {caller}
    ensures states[k].works == states[0].works
  {
    if k > 1 {
      SoleDrainerBlocksSubmission(states, steps, caller, k - 1);
      SoleDrainerStep(states[k - 1], steps[k - 1], caller);
    }
  }

  lemma SoleDrainerStep<T>(q: Queue<T>, step: Step<T>, caller: nat)
    requires Enabled(q, step) && q.queueIsBlocked && !step.Drain?
    requires q.drainers.Keys == {caller} && caller in Apply(q, step).drainers
    ensures Apply(q, step).queueIsBlocked && Apply(q, step).works == q.works
    ensures Apply(q, step).drainers.Keys == {caller}
  {
    if step.Redrain? {
      assert step.caller in q.drainers.Keys;
    }
    if step.SpuriousDrainer? {
      assert step.caller in q.drainers.Keys;
    }
  }

  /** The loop test of `wait_all_work_done`: the caller goes to sleep. */
  predicate HasToWait<T>(q: Queue<T>) {
    (Pending(q) || q.nrRunningWorkers != 0) && !q.shouldStop
  }

  /** While the queue is blocked nothing is accepted. The flag falls exactly when a drain caller,
      whichever it is, finds that it does not have to wait; and only a new drain caller, not one
      that goes back to sleep, sets it. */
  lemma BlockedFlagStep<T>(q: Queue<T>, step: Step<T>)
    requires Enabled(q, step)
    ensures q.queueIsBlocked ==> Apply(q, step).works == q.works
    ensures Apply(q, step).queueIsBlocked
       <==> if IsDrainStep(step) then (step.Drain? || q.queueIsBlocked) && HasToWait(q) else q.queueIsBlocked
  {
    hide Rouse, RouseDrainers, RouseQueuers, WakesByCount, ArmSignal;
  }

  /** Since step `j`, the entry of a drain caller, every drain caller had to wait. */
  ghost predicate HeldSince<T(!new)>(states: seq<Queue<T>>, steps: seq<Step<T>>, j: nat, k: nat)
    requires |states| == |steps| + 1 && k <= |steps|
  {
    && j < k && steps[j].Drain?
    && forall l {:trigger steps[l]} :: j <= l < k && IsDrainStep(steps[l]) ==> HasToWait(states[l])
  }

  lemma HeldSinceStep<T(!new)>(states: seq<Queue<T>>, steps: seq<Step<T>>, j: nat, n: nat)
    requires |states| == |steps| + 1 && n < |steps|
    ensures HeldSince(states, steps, j, n + 1)
       <==> && (HeldSince(states, steps, j, n) || (j == n && steps[n].Drain?))
            && (IsDrainStep(steps[n]) ==> HasToWait(states[n]))
  {
    hide HasToWait;
    if HeldSince(states, steps, j, n + 1) && j < n {
      assert HeldSince(states, steps, j, n);
    }
  }

  /** Over a run, submissions are kept out at exactly those moments at which some drain caller
      has entered and, from then on, no drain caller was free to return. */
  lemma {:induction false} BlockedExactly<T(!new)>(states: seq<Queue<T>>, steps: seq<Step<T>>, k: nat)
    requires IsRun(states, steps) && !states[0].queueIsBlocked && k <= |steps|
    ensures states[k].queueIsBlocked <==> exists j: nat :: HeldSince(states, steps, j, k)
  {
    if k > 0 {
      var n := k - 1;
      hide Enabled, Apply, HasToWait, HeldSince, IsDrainStep;
      BlockedExactly(states, steps, n);
      BlockedFlagStep(states[n], steps[n]);
      forall j: nat
        ensures HeldSince(states, steps, j, k)
           <==> && (HeldSince(states, steps, j, n) || (j == n && steps[n].Drain?))
                && (IsDrainStep(steps[n]) ==> HasToWait(states[n]))
      {
        HeldSinceStep(states, steps, j, n);
      }
      DrainIsDrainStep(steps[n]);
      assert steps[n].Drain? && HasToWait(states[n]) ==> HeldSince(states, steps, n, k);
    } else {
      assert forall j: nat :: !HeldSince(states, steps, j, 0);
    }
  }

  lemma DrainIsDrainStep<T>(step: Step<T>)
    ensures step.Drain? ==> IsDrainStep(step)
  {
  }
}
