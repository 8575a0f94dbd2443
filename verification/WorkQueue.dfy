/** The work queue itself: the fields of `struct workqueue_struct`, updated in place, each
    critical section proved to be one step of the transition system. */
module WorkQueue {
  import opened Wrappers
  import opened Uint32
  import opened Circular
  import opened WorkQueueModel
  import opened WorkQueueInvariant
  import opened WorkQueueSafety
  import opened WorkQueueShutdown
  import opened WorkQueueSteps

  const DEFAULT_MAX_THREADS: uint32 := 4
  const LAZY_THREAD_CREATION: uint32 := 1

  datatype Attr = Attr(flags: uint32, maxThreads: uint32, minThreads: uint32, maxPendingWorks: uint32)

  datatype Validation = Invalid | Adjusted(attr: Attr)

  /** What `alloc_workqueue` relies on. */
  ghost predicate IsAdjusted(a: Attr) {
    && a.flags <= LAZY_THREAD_CREATION
    && 1 <= a.maxThreads && a.minThreads <= a.maxThreads
    && IsCapacity(a.maxPendingWorks)
  }

  /** `validate_and_adjust_workqueue_attr`. The bound on the request is the one for which the
      doubling loop ends (Uint32.DoublingStops). */
  method ValidateAndAdjust(attr: Attr) returns (r: Validation)
    requires attr.maxPendingWorks <= 0x8000_0000
    ensures r.Invalid? <==>
              attr.flags > LAZY_THREAD_CREATION
              || attr.minThreads > (if attr.maxThreads == 0 then DEFAULT_MAX_THREADS else attr.maxThreads)
    ensures r.Adjusted? ==>
              && IsAdjusted(r.attr) && IsRoundUp(r.attr.maxPendingWorks, attr.maxPendingWorks)
              && r.attr.flags == attr.flags && r.attr.minThreads == attr.minThreads
              && r.attr.maxThreads == if attr.maxThreads == 0 then DEFAULT_MAX_THREADS else attr.maxThreads
  {
    var a := attr;
    if a.flags > LAZY_THREAD_CREATION {
      return Invalid;
    }
    if a.maxThreads == 0 {
      a := a.(maxThreads := DEFAULT_MAX_THREADS);
    }
    if a.minThreads > a.maxThreads {
      return Invalid;
    }
    var max := RoundUp(a.maxPendingWorks);
    r := Adjusted(a.(maxPendingWorks := max));
  }

  predicate Fits(n: int) {
    0 <= n < MODULUS
  }

  /** The four counters can be held in `uint32_t` fields. */
  predicate CountersFit<T>(m: Queue<T>) {
    && Fits(m.nrSleepingWorkers) && Fits(m.nrSleepingQueuers)
    && Fits(m.nrOnlineWorkers) && Fits(m.nrRunningWorkers)
  }

  lemma InvCountersFit<T>(m: Queue<T>)
    requires Inv(m) && |m.workers| < MODULUS && |m.queuers| < MODULUS
    ensures CountersFit(m)
  {
    MembersBounded(m.workers, SleepingClass);
    MembersBounded(m.workers, RunningClass);
    MembersBounded(m.workers, OnlineClass);
  }

  lemma CountersWrap<T>(m: Queue<T>)
    requires CountersFit(m)
    ensures Wrap(m.nrSleepingWorkers) == m.nrSleepingWorkers && Wrap(m.nrOnlineWorkers) == m.nrOnlineWorkers
    ensures Wrap(m.nrRunningWorkers) == m.nrRunningWorkers
  {
  }

  /** What a worker leaves the lock with is the work it is then executing, if it is. */
  ghost predicate IsTaken<T>(m: Queue<T>, w: nat, taken: Option<Work<T>>) {
    && w < |m.workers| && (taken.Some? <==> m.workers[w].Executing?)
    && (taken.Some? ==> m.workers[w].id < |m.works| && taken.value == m.works[m.workers[w].id])
  }

  /** The answer of one round of `queue_work` that finds the queue in state `m`. */
  ghost predicate IsVerdict<T>(m: Queue<T>, verdict: Verdict) {
    && (verdict.OwnerDead? <==> m.shouldStop)
    && (verdict.Accepted? <==> !m.shouldStop && !m.queueIsBlocked && HasRoom(m))
  }

  class WorkQueue<T> {
    var shouldStop: bool
    var queueIsBlocked: bool
    var waitAllIsWaiting: bool
    var nrSleepingWorkers: uint32
    var nrSleepingQueuers: uint32
    var nrOnlineWorkers: uint32
    var nrRunningWorkers: uint32
    const maxThreads: uint32
    const maxPendingWorks: uint32
    const mask: uint32
    var head: uint32
    var tail: uint32
    const workList: array<Work<T>>
    /** Which worker slots have been given a thread (`worker->wq` is set). */
    const occupied: array<bool>
    /** The state of the transition system these fields stand for. */
    ghost var model: Queue<T>

    /** The fields hold the state `model`. */
    ghost predicate Represents()
      reads this, workList, occupied
    {
      && shouldStop == model.shouldStop
      && queueIsBlocked == model.queueIsBlocked
      && waitAllIsWaiting == model.waitAllIsWaiting
      && nrSleepingWorkers == model.nrSleepingWorkers
      && nrSleepingQueuers == model.nrSleepingQueuers
      && nrOnlineWorkers == model.nrOnlineWorkers
      && nrRunningWorkers == model.nrRunningWorkers
      && IsCapacity(maxPendingWorks) && mask == maxPendingWorks - 1
      && model.capacity == maxPendingWorks == workList.Length
      && model.head <= |model.works| <= model.head + model.capacity
      && |model.calls| == |model.works|
      && head == Wrap(model.head) && tail == Wrap(|model.works|)
      && Stored(workList[..], model.works, model.head)
      && occupied.Length == maxThreads == |model.workers|
      && forall i :: 0 <= i < occupied.Length ==> (occupied[i] <==> !model.workers[i].Free?)
    }

    ghost predicate Valid()
      reads this, workList, occupied
    {
      Represents() && Inv(model)
    }

    /** `alloc_workqueue` after validation; `blank` is what `calloc` leaves in the list. */
    constructor (attr: Attr, blank: Work<T>)
      requires IsAdjusted(attr)
      ensures Valid() && fresh(workList) && fresh(occupied)
      ensures model == Init(attr.maxThreads,
                            if attr.flags == LAZY_THREAD_CREATION then attr.minThreads else attr.maxThreads,
                            attr.maxPendingWorks)
      ensures |model.workers| == attr.maxThreads && occupied.Length == attr.maxThreads
      ensures forall i :: 0 <= i < |model.workers| ==>
                (model.workers[i].Starting?
                 <==> i < if attr.flags == LAZY_THREAD_CREATION then attr.minThreads else attr.maxThreads)
                && (occupied[i] <==> model.workers[i].Starting?)
    {
      CapacityRange(attr.maxPendingWorks);
      hide IsCapacity, And, Slot;
      var created: nat := if attr.flags == LAZY_THREAD_CREATION then attr.minThreads else attr.maxThreads;
      shouldStop, queueIsBlocked, waitAllIsWaiting := false, false, false;
      nrSleepingWorkers, nrSleepingQueuers, nrOnlineWorkers, nrRunningWorkers := 0, 0, 0, 0;
      maxThreads, maxPendingWorks := attr.maxThreads, attr.maxPendingWorks;
      mask := attr.maxPendingWorks - 1;
      head, tail := 0, 0;
      workList := new Work<T>[attr.maxPendingWorks](_ => blank);
      occupied := new bool[attr.maxThreads](_ => false);
      model := Init(attr.maxThreads, 0, attr.maxPendingWorks);
      new;
      hide Inv, Slot;
      var i: nat := 0;
      while i < created
        modifies occupied
        invariant i <= created <= occupied.Length
        invariant forall k :: 0 <= k < occupied.Length ==> (occupied[k] <==> k < i)
      {
        occupied[i] := true;
        i := i + 1;
      }
      model := Init(attr.maxThreads, created, attr.maxPendingWorks);
      InitSlots<T>(attr.maxThreads, created, attr.maxPendingWorks);
      hide Init;
      InitHasInv<T>(attr.maxThreads, created, attr.maxPendingWorks);
    }

    /** `count_pending_works`. */
    method CountPendingWorks() returns (n: uint32)
      requires Represents()
      ensures n > 0 <==> Pending(model)
      ensures n >= maxPendingWorks <==> Full(model)
    {
      CapacityRange(maxPendingWorks);
      EmptyExact(model.head, |model.works|);
      n := AbsDiff(tail, head);
    }

    /** The slot of the entry at `index`, one of the two free-running indices. */
    method SlotOf(index: uint32, ghost i: nat) returns (slot: nat)
      requires Represents() && index == Wrap(i)
      ensures slot == Slot(i, workList.Length) < workList.Length
    {
      SlotIsModulo(i, workList.Length);
      slot := And(index, mask);
    }

    method GetFreeWorkerSlot() returns (r: nat)
      requires Represents()
      ensures r == FirstFree(model.workers)
    {
      r := 0;
      while r < maxThreads
        invariant r <= occupied.Length
        invariant forall k :: 0 <= k < r ==> !model.workers[k].Free?
      {
        if !occupied[r] {
          return;
        }
        r := r + 1;
      }
    }

    /** `arm_worker`, with `thread_create` succeeding. */
    method ArmAWorker() returns (ghost signal: set<nat>)
      requires Represents()
      modifies this`model, occupied
      ensures Represents() && ArmSignal(old(model), signal)
      ensures model == ArmWorker(old(model), signal)
    {
      signal := {};
      if nrSleepingWorkers == 0 {
        var i := GetFreeWorkerSlot();
        if i < maxThreads {
          occupied[i] := true;
        }
      } else {
        assert Signals(Sleepers(model.workers), Sleepers(model.workers));
        signal :| Signals(Sleepers(model.workers), signal);
      }
      model := ArmWorker(model, signal);
    }

    /** `wq->work_list[wq->tail++ & wq->mask] = *work`. */
    method PutWork(work: Work<T>)
      requires Represents() && |model.works| < model.head + model.capacity
      modifies this`tail, this`model, workList
      ensures Represents()
      ensures model == old(model).(works := old(model).works + [work], calls := old(model).calls + [[]])
    {
      hide Stored, IsCapacity, Slot, Wrap;
      IndexMoves(|model.works|, 1);
      var slot := SlotOf(tail, |model.works|);
      InsertStored(workList[..], model.works, model.head, work);
      workList[slot] := work;
      tail := Wrap(tail + 1);
      model := model.(works := model.works + [work], calls := model.calls + [[]]);
    }

    /** `try_queue_work_locked`; on `Again` the caller goes on to sleep. */
    method TryQueueWorkLocked(work: Work<T>) returns (verdict: Verdict, ghost signal: set<nat>)
      requires Represents()
      modifies this`tail, this`model, workList, occupied
      ensures Represents()
      ensures verdict == TryVerdict(old(model)) && IsVerdict(old(model), verdict)
      ensures model.works == old(model.works) + if verdict.Accepted? then [work] else []
      ensures verdict.Accepted? ==> ArmSignal(old(model), signal) && model == Push(old(model), work, signal)
      ensures !verdict.Accepted? ==> model == old(model)
    {
      signal := {};
      if shouldStop {
        return OwnerDead, signal;
      }
      if queueIsBlocked {
        return Again, signal;
      }
      var pending := CountPendingWorks();
      if pending >= maxPendingWorks {
        return Again, signal;
      }
      verdict := Accepted;
      RefusalExact(model.head, |model.works|, model.capacity);
      PutWork(work);
      signal := ArmAWorker();
    }

    // -------------------------------------------------------------- the critical sections

    /** `queue_work`, from its `mutex_lock` to its return or its `cond_wait`. */
    method QueueWork(caller: nat, work: Work<T>) returns (verdict: Verdict, ghost signal: set<nat>)
      requires Valid() && Outside(model, caller) && |model.queuers| + 1 < MODULUS
      modifies this, workList, occupied
      ensures Valid()
      ensures verdict == TryVerdict(old(model)) && IsVerdict(old(model), verdict)
      ensures model.works == old(model.works) + if verdict.Accepted? then [work] else []
      ensures Enabled(old(model), Submit(caller, work, signal))
      ensures model == Apply(old(model), Submit(caller, work, signal))
    {
      hide Inv, Push, Stored, IsCapacity, ArmSignal, Full, Slot;
      ghost var m := model;
      QueuersCounted(m);
      verdict, signal := TryQueueWorkLocked(work);
      StepKeepsInv(m, Submit(caller, work, signal));
      if verdict.Again? {
        nrSleepingQueuers := Wrap(nrSleepingQueuers + 1);
      }
      model := Apply(m, Submit(caller, work, signal));
    }

    /** `queue_work` again, after a `cond_wait`. */
    method QueueWorkAgain(caller: nat, work: Work<T>) returns (verdict: Verdict, ghost signal: set<nat>)
      requires Valid() && |model.queuers| < MODULUS
      requires caller in model.queuers && model.queuers[caller] == Queuer(Roused, work)
      modifies this, workList, occupied
      ensures Valid()
      ensures verdict == TryVerdict(old(model)) && IsVerdict(old(model), verdict)
      ensures model.works == old(model.works) + if verdict.Accepted? then [work] else []
      ensures Enabled(old(model), Resubmit(caller, signal))
      ensures model == Apply(old(model), Resubmit(caller, signal))
    {
      hide Inv, Push, Stored, IsCapacity, ArmSignal, Full, Slot, Wrap;
      ghost var m := model;
      QueuersCounted(m);
      CountBack(|m.queuers|);
      UnqueueKeepsVerdict(m, caller);
      assert caller in m.queuers.Keys;
      nrSleepingQueuers := Wrap(nrSleepingQueuers - 1);
      model := Unqueue(m, caller);
      verdict, signal := TryQueueWorkLocked(work);
      StepKeepsInv(m, Resubmit(caller, signal));
      if verdict.Again? {
        nrSleepingQueuers := Wrap(nrSleepingQueuers + 1);
      }
      model := Apply(m, Resubmit(caller, signal));
    }

    /** The loop of `wait_all_work_done`, up to its return or its `cond_wait`. */
    method DrainLoop(caller: nat) returns (returned: bool)
      requires Represents()
      modifies this`queueIsBlocked, this`waitAllIsWaiting, this`model
      ensures Represents() && model == DrainCheck(old(model), caller)
      ensures returned <==> caller !in model.drainers
    {
      var pending := CountPendingWorks();
      if (pending > 0 || nrRunningWorkers != 0) && !shouldStop {
        waitAllIsWaiting := true;
        returned := false;
      } else {
        queueIsBlocked := false;
        returned := true;
      }
      model := DrainCheck(model, caller);
    }

    /** `wait_all_work_done`, from its `mutex_lock` to its return or its `cond_wait`. */
    method WaitAllWorkDone(caller: nat) returns (returned: bool)
      requires Valid() && Outside(model, caller)
      modifies this
      ensures Valid() && model == Apply(old(model), Drain(caller))
      ensures returned <==> caller !in model.drainers
    {
      StepKeepsInv(model, Drain(caller));
      queueIsBlocked := true;
      model := model.(queueIsBlocked := true);
      returned := DrainLoop(caller);
    }

    /** `wait_all_work_done` again, after a `cond_wait`. */
    method WaitAllWorkDoneAgain(caller: nat) returns (returned: bool)
      requires Valid() && caller in model.drainers && model.drainers[caller].Roused?
      modifies this
      ensures Valid() && model == Apply(old(model), Redrain(caller))
      ensures returned <==> caller !in model.drainers
    {
      StepKeepsInv(model, Redrain(caller));
      waitAllIsWaiting := false;
      model := model.(waitAllIsWaiting := false);
      returned := DrainLoop(caller);
    }

    /** `wq->work_list[wq->head++ & wq->mask]`: the oldest pending work. */
    method TakeWork() returns (work: Work<T>)
      requires Represents() && Pending(model)
      modifies this`head, this`model
      ensures Represents() && work == old(model.works[model.head])
      ensures model == old(model).(head := old(model).head + 1)
    {
      hide Stored, IsCapacity, Slot, Wrap;
      IndexMoves(model.head, 1);
      RemoveStored(workList[..], model.works, model.head);
      var slot := SlotOf(head, model.head);
      work := workList[slot];
      head := Wrap(head + 1);
      model := model.(head := model.head + 1);
    }

    /** `wait_for_event` on behalf of worker `w`, and `worker_func` from there to its next
        `mutex_unlock`. */
    method WaitForEvent(w: nat) returns (taken: Option<Work<T>>)
      requires Represents() && w < |model.workers| && !model.workers[w].Free?
      requires CountersFit(WorkQueueModel.WaitForEvent(model, w))
      modifies this
      ensures Represents() && model == WorkQueueModel.WaitForEvent(old(model), w)
      ensures IsTaken(model, w, taken)
    {
      hide RouseDrainers, IsCapacity, Stored, Pending, Wrap;
      StillPending();
      ghost var m := model;
      CountersWrap(WorkQueueModel.WaitForEvent(m, w));
      taken := None;
      if shouldStop && !queueIsBlocked {
        nrOnlineWorkers := Wrap(nrOnlineWorkers - 1);
        model := m.(nrOnlineWorkers := m.nrOnlineWorkers - 1, workers := m.workers[w := Exited]);
      } else if head != tail {
        var work := TakeWork();
        taken := Some(work);
        nrRunningWorkers := Wrap(nrRunningWorkers + 1);
        model := model.(nrRunningWorkers := m.nrRunningWorkers + 1, workers := m.workers[w := Executing(m.head)]);
      } else {
        nrSleepingWorkers := Wrap(nrSleepingWorkers + 1);
        model := m.(drainers := if waitAllIsWaiting then RouseDrainers(m.drainers) else m.drainers,
                    nrSleepingWorkers := m.nrSleepingWorkers + 1, workers := m.workers[w := Asleep]);
      }
      assert model == WorkQueueModel.WaitForEvent(m, w);
    }

    lemma StillPending()
      requires Represents()
      ensures head != tail <==> Pending(model)
    {
      CapacityRange(maxPendingWorks);
      EmptyExact(model.head, |model.works|);
    }

    /** `worker_func`, from the start of the thread. */
    method WorkerStart(w: nat) returns (taken: Option<Work<T>>)
      requires Valid() && Enabled(model, Start(w)) && |model.queuers| < MODULUS
      modifies this
      ensures Valid() && model == Apply(old(model), Start(w))
      ensures IsTaken(model, w, taken)
    {
      hide Inv, WorkQueueModel.WaitForEvent, Stored, IsCapacity;
      StepKeepsInv(model, Start(w));
      StepFits(model, Start(w), maxThreads);
      WorkerFits(model, w);
      nrOnlineWorkers := nrOnlineWorkers + 1;
      model := model.(nrOnlineWorkers := model.nrOnlineWorkers + 1);
      taken := WaitForEvent(w);
    }

    /** `wait_for_event` again, after a `cond_wait`. */
    method WorkerResume(w: nat) returns (taken: Option<Work<T>>)
      requires Valid() && Enabled(model, Resume(w)) && |model.queuers| < MODULUS
      modifies this
      ensures Valid() && model == Apply(old(model), Resume(w))
      ensures IsTaken(model, w, taken)
    {
      hide Inv, WorkQueueModel.WaitForEvent, Stored, IsCapacity;
      StepKeepsInv(model, Resume(w));
      StepFits(model, Resume(w), maxThreads);
      WokenCounted(model, w);
      nrSleepingWorkers := nrSleepingWorkers - 1;
      model := model.(nrSleepingWorkers := model.nrSleepingWorkers - 1);
      taken := WaitForEvent(w);
    }

    /** `wake_up_all_queue_work_callers`. */
    method WakeUpAllQueueWorkCallers() returns (ghost signal: set<nat>)
      requires Represents()
      modifies this`model
      ensures Represents()
      ensures if old(model).nrRunningWorkers == 0 then signal == {}
              else WakesByCount(old(model).nrSleepingQueuers, SleepingQueuers(old(model).queuers), signal)
      ensures model == old(model).(queuers := RouseQueuers(old(model).queuers, signal))
    {
      ghost var sleepers := SleepingQueuers(model.queuers);
      signal := {};
      if nrRunningWorkers != 0 {
        if nrSleepingQueuers == 1 {
          assert Signals(sleepers, sleepers);
          signal :| Signals(sleepers, signal);
        } else if nrSleepingQueuers > 1 {
          signal := sleepers;
        }
      }
      model := model.(queuers := RouseQueuers(model.queuers, signal));
    }

    /** `worker_func`, back from the deleter. */
    method WorkerFinish(w: nat) returns (taken: Option<Work<T>>, ghost signal: set<nat>)
      requires Valid() && w < |model.workers| && model.workers[w].Done? && |model.queuers| < MODULUS
      modifies this
      ensures Valid() && Enabled(old(model), Finish(w, signal))
      ensures model == Apply(old(model), Finish(w, signal))
      ensures IsTaken(model, w, taken)
    {
      hide Inv, WorkQueueModel.WaitForEvent, Stored, IsCapacity, WakesByCount, Wrap, RouseQueuers, SleepingQueuers;
      ghost var m := model;
      RunningCounted(m) by { hide Inv; InvAccounting(m); }
      nrRunningWorkers := nrRunningWorkers - 1;
      model := model.(nrRunningWorkers := model.nrRunningWorkers - 1);
      signal := WakeUpAllQueueWorkCallers();
      FinishIsStep(m, w, signal);
      hide Enabled, Apply, FinishSignal;
      StepKeepsInv(m, Finish(w, signal));
      StepFits(m, Finish(w, signal), maxThreads);
      taken := WaitForEvent(w);
    }

    // -------------------------------------------------------------- outside the lock

    /** The `func`, or the `deleter`, of worker `w`'s work has returned. */
    ghost method CallReturned(w: nat, step: Step<T>)
      requires Valid() && Enabled(model, step) && (step.RunFunc? || step.RunDeleter?)
      modifies this`model
      ensures Valid() && model == Apply(old(model), step)
    {
      hide Inv, Stored, IsCapacity;
      StepKeepsInv(model, step);
      model := Apply(model, step);
    }

    // -------------------------------------------------------------- shutdown

    /** `clear_pending_works`; `deleted` are the arguments the deleters were called with. */
    method ClearPendingWorks() returns (deleted: seq<T>)
      requires Represents()
      modifies this`head, this`model
      ensures Represents() && model == ClearPending(old(model))
      ensures deleted == DeleterArgs(old(model.works[model.head..]))
    {
      hide Stored, IsCapacity, DeleterArgs, Wrap, DeleterCalls, PendingIds;
      ghost var m, h := model, model.head;
      deleted := [];
      DeleterArgsOfNone(m.works[m.head..h]);
      while head != tail
        invariant m.head <= h <= |m.works| && model == m.(head := h) && Represents()
        invariant deleted == DeleterArgs(m.works[m.head..h])
        decreases |m.works| - h
      {
        StillPending();
        DeleterArgsOfOneMore(m.works, m.head, h);
        var work := TakeWork();
        if work.hasDeleter {
          deleted := deleted + [work.arg];
        }
        h := h + 1;
      }
      StillPending();
      assert m.works[m.head..h] == m.works[m.head..];
      model := ClearPending(m);
    }

    /** `wake_up_all_workers`. */
    method WakeUpAllWorkers() returns (ghost signal: set<nat>)
      requires Represents()
      modifies this`model
      ensures Represents()
      ensures WakesByCount(old(model).nrSleepingWorkers, Sleepers(old(model).workers), signal)
      ensures model == old(model).(
                workers := Rouse(old(model).workers, signal),
                drainers := if old(model).waitAllIsWaiting then RouseDrainers(old(model).drainers)
                            else old(model).drainers)
    {
      hide IsCapacity, Stored, RouseDrainers;
      ghost var m := model;
      ghost var sleepers := Sleepers(m.workers);
      signal := {};
      if nrSleepingWorkers == 1 {
        assert Signals(sleepers, sleepers);
        signal :| Signals(sleepers, signal);
      } else if nrSleepingWorkers > 1 {
        signal := sleepers;
      }
      model := m.(workers := Rouse(m.workers, signal),
                  drainers := if waitAllIsWaiting then RouseDrainers(m.drainers) else m.drainers);
    }

    /** `destroy_workqueue`, up to its `mutex_unlock`. */
    method Destroy() returns (deleted: seq<T>, ghost signal: set<nat>)
      requires Valid() && !shouldStop
      modifies this
      ensures Valid() && Enabled(old(model), WorkQueueModel.Destroy(signal))
      ensures model == Apply(old(model), WorkQueueModel.Destroy(signal))
      ensures deleted == DeleterArgs(old(model.works[model.head..]))
    {
      hide Inv, ClearPending, Rouse, RouseDrainers, WakesByCount, IsCapacity, Stored;
      ghost var m := model;
      shouldStop := true;
      model := m.(shouldStop := true);
      ClearIgnoresFlags(m);
      deleted := ClearPendingWorks();
      signal := WakeUpAllWorkers();
      StepKeepsInv(m, WorkQueueModel.Destroy(signal));
    }

    /** `join_all_workers`, once every thread has exited: each is joined once, in slot order. */
    method JoinAllWorkers() returns (joined: seq<nat>)
      requires Valid() && AllJoined(model)
      ensures forall w :: w in joined <==> 0 <= w < |model.workers| && model.workers[w].Exited?
      ensures forall i, j :: 0 <= i < j < |joined| ==> joined[i] < joined[j]
    {
      hide Inv;
      joined := [];
      var i: nat := 0;
      while i < maxThreads
        invariant i <= occupied.Length
        invariant forall w :: w in joined <==> 0 <= w < i && model.workers[w].Exited?
        invariant forall j :: 0 <= j < |joined| ==> joined[j] < i
        invariant forall i, j :: 0 <= i < j < |joined| ==> joined[i] < joined[j]
      {
        if occupied[i] {
          joined := joined + [i];
        }
        i := i + 1;
      }
    }
  }

  /** `DeleterArgs` goes through the works one by one, in order, and keeps the argument of each
      that has a deleter. */
  lemma {:induction false} DeleterArgsInOrder<T>(a: seq<Work<T>>, b: seq<Work<T>>)
    ensures DeleterArgs(a + b) == DeleterArgs(a) + DeleterArgs(b)
  {
    hide DeleterArgs;
    if b == [] {
      DeleterArgsOfNone(b);
      assert a + b == a;
    } else {
      var front, last := b[..|b| - 1], b[|b| - 1];
      DeleterArgsInOrder(a, front);
      DeleterArgsOfLast(front, last);
      DeleterArgsOfLast(a + front, last);
      assert front + [last] == b && (a + front) + [last] == a + b;
    }
  }

  lemma DeleterArgsOfLast<T>(works: seq<Work<T>>, work: Work<T>)
    ensures DeleterArgs(works + [work]) == DeleterArgs(works) + if work.hasDeleter then [work.arg] else []
  {
    assert (works + [work])[..|works|] == works;
  }

  lemma DeleterArgsOfOne<T>(work: Work<T>)
    ensures DeleterArgs([work]) == if work.hasDeleter then [work.arg] else []
  {
  }

  /** The arguments of the works that have a deleter, in order. */
  function DeleterArgs<T>(works: seq<Work<T>>): seq<T> {
    if works == [] then []
    else DeleterArgs(works[..|works| - 1])
         + if works[|works| - 1].hasDeleter then [works[|works| - 1].arg] else []
  }

  lemma DeleterArgsOfNone<T>(works: seq<Work<T>>)
    requires |works| == 0
    ensures DeleterArgs(works) == []
  {
  }

  lemma DeleterArgsOfOneMore<T>(works: seq<Work<T>>, from: nat, h: nat)
    requires from <= h < |works|
    ensures DeleterArgs(works[from..h + 1])
         == DeleterArgs(works[from..h]) + if works[h].hasDeleter then [works[h].arg] else []
  {
    assert works[from..h + 1][..h - from] == works[from..h];
  }

  lemma ClearIgnoresFlags<T>(m: Queue<T>)
    requires |m.calls| == |m.works|
    ensures
      var m', c := m.(shouldStop := true), ClearPending(m);
      && ClearPending(m') == c.(shouldStop := true)
      && c.nrSleepingWorkers == m.nrSleepingWorkers && c.workers == m.workers
      && c.waitAllIsWaiting == m.waitAllIsWaiting && c.drainers == m.drainers
  {
  }

  lemma StepFits<T>(m: Queue<T>, step: Step<T>, maxThreads: uint32)
    requires Inv(m) && Enabled(m, step) && IsWorkerStep(step)
    requires |m.workers| == maxThreads && |m.queuers| < MODULUS
    ensures CountersFit(Apply(m, step))
  {
    hide Inv, SlotMoves;
    StepKeepsInv(m, step);
    StepMovesSlots(m, step);
    assert |Apply(m, step).queuers.Keys| == |m.queuers.Keys| by {
      assert Apply(m, step).queuers.Keys == m.queuers.Keys;
    }
    hide Apply, Enabled;
    InvCountersFit(Apply(m, step));
  }

  lemma FinishIsStep<T>(m: Queue<T>, w: nat, signal: set<nat>)
    requires |m.calls| == |m.works| && w < |m.workers| && m.workers[w].Done?
    requires FinishSignal(m, signal)
    ensures Enabled(m, Finish(w, signal))
    ensures Apply(m, Finish(w, signal))
         == WorkQueueModel.WaitForEvent(m.(nrRunningWorkers := m.nrRunningWorkers - 1,
                                           queuers := RouseQueuers(m.queuers, signal)), w)
  {
  }

  lemma UnqueueKeepsVerdict<T>(m: Queue<T>, caller: nat)
    ensures TryVerdict(Unqueue(m, caller)) == TryVerdict(m)
    ensures forall signal :: ArmSignal(Unqueue(m, caller), signal) <==> ArmSignal(m, signal)
  {
  }

  lemma InvAccounting<T>(m: Queue<T>)
    requires Inv(m)
    ensures Accounting(m)
  {
  }

  lemma QueuersCounted<T>(m: Queue<T>)
    requires Inv(m)
    ensures m.nrSleepingQueuers == |m.queuers|
  {
  }

  lemma CountBack(n: int)
    ensures 1 <= n < MODULUS ==> Wrap(n - 1) == n - 1 && Wrap(n) == n
  {
  }

  lemma WokenCounted<T>(m: Queue<T>, w: nat)
    requires Inv(m) && w < |m.workers| && m.workers[w].Woken?
    ensures m.nrSleepingWorkers >= 1
  {
    assert w in Members(m.workers, SleepingClass);
  }

  lemma WorkerFits<T>(m: Queue<T>, w: nat)
    requires Inv(m) && w < |m.workers| && m.workers[w].Starting?
    ensures m.nrOnlineWorkers + 1 <= |m.workers|
  {
    MembersUpdate(m.workers, w, Asleep, OnlineClass);
    MembersBounded(m.workers[w := Asleep], OnlineClass);
  }
}
