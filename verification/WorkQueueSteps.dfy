/** What each step of the work queue comes to, in terms of its fields before and after. */
module WorkQueueSteps {
  import opened Uint32
  import opened Circular
  import opened WorkQueueModel
  import opened WorkQueueInvariant
  import opened WorkQueueSafety

  // ---------------------------------------------------------------- alloc_workqueue

  /** The slots that are given a thread at once are the first `created`; no other is. */
  lemma InitSlots<T>(maxThreads: nat, created: nat, capacity: nat)
    requires created <= maxThreads
    ensures
      var q := Init<T>(maxThreads, created, capacity);
      && |q.workers| == maxThreads
      && (forall i :: 0 <= i < maxThreads ==> if i < created then q.workers[i].Starting? else q.workers[i].Free?)
      && q.works == [] && q.calls == [] && q.head == 0 && q.capacity == capacity
      && !q.shouldStop && !q.queueIsBlocked && !q.waitAllIsWaiting
      && q.nrSleepingWorkers == q.nrSleepingQueuers == q.nrOnlineWorkers == q.nrRunningWorkers == 0
  {
  }

  // ---------------------------------------------------------------- queue_work

  /** The list takes another work. */
  predicate HasRoom<T>(q: Queue<T>) {
    HasSpace(q.head, |q.works|, q.capacity)
  }

  /** A submission is refused for good if and only if the queue is stopped, and accepted if and
      only if it is neither stopped nor blocked and has room; it waits otherwise. */
  lemma VerdictExact<T>(q: Queue<T>)
    requires IsCapacity(q.capacity) && q.head <= |q.works| <= q.head + q.capacity
    ensures TryVerdict(q).OwnerDead? <==> q.shouldStop
    ensures TryVerdict(q).Accepted? <==> !q.shouldStop && !q.queueIsBlocked && HasRoom(q)
  {
    SpaceExact(q.head, |q.works|, q.capacity);
  }

  predicate IsSubmission<T>(step: Step<T>) {
    step.Submit? || step.Resubmit?
  }

  /** The work a submission is about. */
  function Submitted<T>(q: Queue<T>, step: Step<T>): Work<T>
    requires Enabled(q, step) && IsSubmission(step)
  {
    if step.Submit? then step.work else q.queuers[step.caller].work
  }

  /** In every reachable state: a submission that is accepted appends its work, and its caller is
      outside again; one that is refused changes nothing, and its caller is outside; any other
      leaves the list alone, and its caller asleep with the work in hand. */
  lemma SubmissionOutcome<T(!new)>(q: Queue<T>, step: Step<T>)
    requires Reachable(q) && Enabled(q, step) && IsSubmission(step)
    ensures
      var q' := Apply(q, step);
      if q.shouldStop then
        q'.works == q.works && step.caller !in q'.queuers
      else if !q.queueIsBlocked && HasRoom(q) then
        q'.works == q.works + [Submitted(q, step)] && q'.calls == q.calls + [[]] && step.caller !in q'.queuers
      else
        && q'.works == q.works && step.caller in q'.queuers
        && q'.queuers[step.caller].wait.Sleeping? && q'.queuers[step.caller].work == Submitted(q, step)
    ensures Apply(q, step).head == q.head && Apply(q, step).drainers == q.drainers
  {
    hide Reachable, Inv;
    ReachableHasInv(q);
    InvShape(q);
    VerdictExact(q);
    hide HasRoom, Full, IsCapacity, ArmSignal, FirstFree, Rouse;
    if step.Submit? {
      TryQueueOutcome(q, step.caller, step.work, step.signal);
    } else {
      var mid := Unqueue(q, step.caller);
      TryQueueOutcome(mid, step.caller, q.queuers[step.caller].work, step.signal);
      assert TryVerdict(mid) == TryVerdict(q) by { SameVerdict(q, mid); }
    }
  }

  lemma InvShape<T>(q: Queue<T>)
    requires Inv(q)
    ensures IsCapacity(q.capacity) && q.head <= |q.works| <= q.head + q.capacity
  {
  }

  lemma SameVerdict<T>(q: Queue<T>, q': Queue<T>)
    requires q'.shouldStop == q.shouldStop && q'.queueIsBlocked == q.queueIsBlocked
    requires q'.head == q.head && q'.works == q.works && q'.capacity == q.capacity
    ensures TryVerdict(q') == TryVerdict(q)
  {
  }

  lemma TryQueueOutcome<T>(q: Queue<T>, caller: nat, work: Work<T>, signal: set<nat>)
    requires caller !in q.queuers
    ensures
      var q' := TryQueue(q, caller, work, signal);
      && q'.head == q.head && q'.drainers == q.drainers
      && match TryVerdict(q)
         case Accepted => q'.works == q.works + [work] && q'.calls == q.calls + [[]] && caller !in q'.queuers
         case OwnerDead => q'.works == q.works && caller !in q'.queuers
         case Again =>
           && q'.works == q.works && caller in q'.queuers
           && q'.queuers[caller].wait.Sleeping? && q'.queuers[caller].work == work
  {
    hide TryVerdict, FirstFree, Rouse;
  }

  // ---------------------------------------------------------------- arm_worker

  /** With nobody counted as sleeping, the first free slot, if there is one, is given a thread. */
  lemma SpawnOutcome<T>(q: Queue<T>, signal: set<nat>)
    requires q.nrSleepingWorkers == 0
    ensures
      var ws, ws' := q.workers, ArmWorker(q, signal).workers;
      && (forall f :: 0 <= f < |ws| && ws[f].Free? && (forall i :: 0 <= i < f ==> !ws[i].Free?) ==>
            ws' == ws[f := Starting])
      && ((forall i :: 0 <= i < |ws| ==> !ws[i].Free?) ==> ws' == ws)
  {
  }

  /** Otherwise at least one of those truly asleep is woken, if there are any, and nothing else
      happens to the threads. */
  lemma SignalOutcome<T>(q: Queue<T>, signal: set<nat>)
    requires ArmSignal(q, signal) && q.nrSleepingWorkers != 0
    ensures
      var ws, ws' := q.workers, ArmWorker(q, signal).workers;
      && |ws'| == |ws|
      && (forall w :: 0 <= w < |ws| ==> ws'[w] == ws[w] || (ws[w].Asleep? && ws'[w].Woken?))
      && ((exists w :: 0 <= w < |ws| && ws[w].Asleep?) ==>
            exists w :: 0 <= w < |ws| && ws[w].Asleep? && ws'[w].Woken?)
  {
    var ws := q.workers;
    if w: nat :| w < |ws| && ws[w].Asleep? {
      assert w in Sleepers(ws);
      var woken :| woken in signal;
      assert ws[woken].Asleep? && ArmWorker(q, signal).workers[woken].Woken?;
    }
  }

  // ---------------------------------------------------------------- worker_func

  /** A worker's section ends in one of three ways: it exits if the queue is stopped and not
      blocked; it leaves with the oldest pending work if there is one; it goes to sleep
      otherwise. No other thread is touched. */
  lemma SectionOutcome<T>(q: Queue<T>, step: Step<T>)
    requires Enabled(q, step) && (step.Start? || step.Resume? || step.Finish?)
    ensures
      var q', w := Apply(q, step), step.w;
      && q'.workers == q.workers[w := q'.workers[w]] && q'.works == q.works && q'.calls == q.calls
      && (if q.shouldStop && !q.queueIsBlocked then q'.workers[w].Exited? && q'.head == q.head
          else if q.head < |q.works| then q'.workers[w] == Executing(q.head) && q'.head == q.head + 1
          else q'.workers[w].Asleep? && q'.head == q.head)
  {
    hide WaitForEvent, FinishSignal, RouseQueuers;
    match step
    case Start(w) => WaitForEventOutcome(q.(nrOnlineWorkers := q.nrOnlineWorkers + 1), w);
    case Resume(w) => WaitForEventOutcome(q.(nrSleepingWorkers := q.nrSleepingWorkers - 1), w);
    case Finish(w, signal) =>
      WaitForEventOutcome(q.(nrRunningWorkers := q.nrRunningWorkers - 1,
                             queuers := RouseQueuers(q.queuers, signal)), w);
  }

  lemma WaitForEventOutcome<T>(q: Queue<T>, w: nat)
    requires w < |q.workers|
    ensures
      var q' := WaitForEvent(q, w);
      && q'.workers == q.workers[w := q'.workers[w]] && q'.works == q.works && q'.calls == q.calls
      && (if q.shouldStop && !q.queueIsBlocked then q'.workers[w].Exited? && q'.head == q.head
          else if q.head < |q.works| then q'.workers[w] == Executing(q.head) && q'.head == q.head + 1
          else q'.workers[w].Asleep? && q'.head == q.head)
  {
    hide RouseDrainers;
  }

  /** Drain callers are woken, all of them, by a worker that goes to sleep while they are
      announced; nobody else wakes them. */
  lemma SectionWakesDrainers<T>(q: Queue<T>, step: Step<T>)
    requires Enabled(q, step) && (step.Start? || step.Resume? || step.Finish?)
    ensures
      var q' := Apply(q, step);
      && q'.drainers.Keys == q.drainers.Keys
      && (if q'.workers[step.w].Asleep? && q.waitAllIsWaiting then
            forall c :: c in q.drainers ==> q'.drainers[c].Roused?
          else q'.drainers == q.drainers)
  {
    hide FinishSignal, RouseQueuers;
  }

  /** `wake_up_all_queue_work_callers`. With no other worker running nobody is woken; with one
      submitter counted, at least one of those asleep is; with more, all of them are. */
  lemma FinishWakesQueuers<T>(q: Queue<T>, w: nat, signal: set<nat>)
    requires Enabled(q, Finish(w, signal))
    ensures
      var q' := Apply(q, Finish(w, signal));
      && q'.queuers.Keys == q.queuers.Keys
      && (forall c :: c in q.queuers ==>
            q'.queuers[c].work == q.queuers[c].work && (q.queuers[c].wait.Roused? ==> q'.queuers[c].wait.Roused?))
      && (q.nrRunningWorkers == 1 ==> q'.queuers == q.queuers)
      && (q.nrRunningWorkers != 1 && q.nrSleepingQueuers == 1
            && (exists c :: c in q.queuers && q.queuers[c].wait.Sleeping?) ==>
            exists c :: c in q.queuers && q.queuers[c].wait.Sleeping? && q'.queuers[c].wait.Roused?)
      && (q.nrRunningWorkers != 1 && q.nrSleepingQueuers > 1 ==>
            forall c :: c in q.queuers ==> q'.queuers[c].wait.Roused?)
  {
    var q' := Apply(q, Finish(w, signal));
    assert q'.queuers == RouseQueuers(q.queuers, signal) by { hide RouseQueuers, FinishSignal; }
    hide Apply, WaitForEvent;
    RouseMeans(q.queuers, signal);
    hide RouseQueuers;
    if c: nat :| c in q.queuers && q.queuers[c].wait.Sleeping? {
      assert c in SleepingQueuers(q.queuers);
    }
  }

  lemma RouseMeans<T>(queuers: map<nat, Queuer<T>>, signal: set<nat>)
    ensures
      var r := RouseQueuers(queuers, signal);
      && r.Keys == queuers.Keys
      && forall c :: c in queuers ==>
           r[c].work == queuers[c].work && (r[c].wait.Roused? <==> c in signal || queuers[c].wait.Roused?)
    ensures signal == {} ==> RouseQueuers(queuers, signal) == queuers
  {
  }

  /** The calls of `func` and `deleter`: made if and only if the work has one, and recorded for
      that work alone. */
  lemma CallOutcome<T>(q: Queue<T>, step: Step<T>)
    requires Enabled(q, step) && (step.RunFunc? || step.RunDeleter?)
    ensures
      var q', id := Apply(q, step), q.workers[step.w].id;
      && q'.works == q.works && |q'.calls| == |q.calls|
      && (forall j :: 0 <= j < |q.calls| && j != id ==> q'.calls[j] == q.calls[j])
      && q'.calls[id] == q.calls[id] + (if step.RunFunc? && q.works[id].hasFunc then [Func]
                                        else if step.RunDeleter? && q.works[id].hasDeleter then [Deleter] else [])
      && q'.workers == q.workers[step.w := if step.RunFunc? then Deleting(id) else Done(id)]
  {
  }

  // ---------------------------------------------------------------- wait_all_work_done

  /** A drain caller goes to sleep, announced, if works are pending or running and the queue is
      not stopped; it returns otherwise. It touches neither the list nor a worker. */
  lemma DrainOutcome<T>(q: Queue<T>, step: Step<T>)
    requires Enabled(q, step) && IsDrainStep(step)
    ensures
      var q' := Apply(q, step);
      && (if (q.head < |q.works| || q.nrRunningWorkers != 0) && !q.shouldStop then
            step.caller in q'.drainers && q'.drainers[step.caller].Sleeping? && q'.waitAllIsWaiting
          else step.caller !in q'.drainers && !q'.queueIsBlocked)
      && (forall c :: c != step.caller ==>
            (c in q'.drainers <==> c in q.drainers) && (c in q.drainers ==> q'.drainers[c] == q.drainers[c]))
      && q'.works == q.works && q'.head == q.head && q'.workers == q.workers && q'.queuers == q.queuers
  {
  }

  // ---------------------------------------------------------------- destroy_workqueue

  /** The queue is stopped, its list empty; the deleter has been called for each pending work that
      has one, and for no other; drain callers are woken if announced, submitters are not. */
  lemma DestroyOutcome<T>(q: Queue<T>, signal: set<nat>)
    requires Enabled(q, Destroy(signal)) && q.head <= |q.works|
    ensures
      var q' := Apply(q, Destroy(signal));
      && q'.shouldStop && q'.works == q.works && q'.head == |q.works| == |q'.calls|
      && (forall id :: 0 <= id < |q.works| ==>
            q'.calls[id] == if id >= q.head && q.works[id].hasDeleter then q.calls[id] + [Deleter] else q.calls[id])
      && (forall id: nat :: id in q'.cancelled <==> id in q.cancelled || q.head <= id < |q.works|)
      && q'.queuers == q.queuers && q'.drainers.Keys == q.drainers.Keys
      && (if q.waitAllIsWaiting then forall c :: c in q.drainers ==> q'.drainers[c].Roused?
          else q'.drainers == q.drainers)
  {
    hide Rouse, WakesByCount;
  }
}
