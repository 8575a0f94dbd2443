/** The work queue as a transition system.

    One step is one critical section of `work_list_lock`: from `mutex_lock`, or from the
    return of `cond_wait`, to `mutex_unlock` or the next `cond_wait`. The calls of a work's
    `func` and `deleter` are steps of their own, taken outside the lock. Any number of
    workers, submitters and drain callers, any schedule, and spurious wake-ups. */
module WorkQueueModel {
  import opened Uint32
  import opened Circular

  datatype Work<T> = Work(hasFunc: bool, arg: T, hasDeleter: bool)

  /** A call the queue makes on behalf of a work. */
  datatype Call = Func | Deleter

  /** Where a worker slot stands. `Woken` has been signalled but has not retaken the lock, so
      `nr_sleeping_workers` still counts it; `Done` has returned from the deleter but has not
      retaken the lock, so `nr_running_workers` still counts it. */
  datatype Phase =
    | Free
    | Starting
    | Asleep
    | Woken
    | Executing(id: nat)
    | Deleting(id: nat)
    | Done(id: nat)
    | Exited

  /** A caller inside `cond_wait`: truly waiting, or signalled and yet to retake the lock. */
  datatype Waiter = Sleeping | Roused

  datatype Queuer<T> = Queuer(wait: Waiter, work: Work<T>)

  /** `head` and `|works|` are the free-running indices; the program keeps them modulo 2^32.
      `works` is every work accepted so far, so the number of a work is its rank in
      acceptance order; `calls[id]` is the sequence of calls made for work `id`, and
      `cancelled` are the works removed by `clear_pending_works`. */
  datatype Queue<T> = Queue(
    shouldStop: bool,
    queueIsBlocked: bool,
    waitAllIsWaiting: bool,
    nrSleepingWorkers: int,
    nrSleepingQueuers: int,
    nrOnlineWorkers: int,
    nrRunningWorkers: int,
    capacity: nat,
    head: nat,
    works: seq<Work<T>>,
    calls: seq<seq<Call>>,
    cancelled: set<nat>,
    workers: seq<Phase>,
    drainers: map<nat, Waiter>,
    queuers: map<nat, Queuer<T>>)

  datatype Verdict = Accepted | OwnerDead | Again

  datatype Step<T> =
    | Submit(caller: nat, work: Work<T>, signal: set<nat>)
    | Resubmit(caller: nat, signal: set<nat>)
    | Drain(caller: nat)
    | Redrain(caller: nat)
    | Start(w: nat)
    | Resume(w: nat)
    | RunFunc(w: nat)
    | RunDeleter(w: nat)
    | Finish(w: nat, signal: set<nat>)
    | Destroy(signal: set<nat>)
    | SpuriousWorker(w: nat)
    | SpuriousDrainer(caller: nat)
    | SpuriousQueuer(caller: nat)

  // ---------------------------------------------------------------- initial states

  /** `alloc_workqueue` with `max_threads` slots of which `created` get a thread at once. */
  function Init<T>(maxThreads: nat, created: nat, capacity: nat): Queue<T> {
    Queue(false, false, false, 0, 0, 0, 0, capacity, 0, [], [], {},
          seq(maxThreads, i => if i < created then Starting else Free), map[], map[])
  }

  ghost predicate IsInit<T>(q: Queue<T>) {
    exists maxThreads: nat, created: nat, capacity: nat ::
      && 1 <= maxThreads && created <= maxThreads && IsCapacity(capacity)
      && q == Init(maxThreads, created, capacity)
  }

  // ---------------------------------------------------------------- condition variables

  function Sleepers(ws: seq<Phase>): set<nat> {
    set i: nat | i < |ws| && ws[i].Asleep?
  }

  function Rouse(ws: seq<Phase>, signal: set<nat>): seq<Phase> {
    seq(|ws|, i requires 0 <= i < |ws| =>
      if i in signal && ws[i].Asleep? then Woken else ws[i])
  }

  function SleepingQueuers<T>(queuers: map<nat, Queuer<T>>): set<nat> {
    set c | c in queuers && queuers[c].wait.Sleeping?
  }

  function RouseQueuers<T>(queuers: map<nat, Queuer<T>>, signal: set<nat>): (r: map<nat, Queuer<T>>)
    ensures r.Keys == queuers.Keys
  {
    map c | c in queuers :: if c in signal then queuers[c].(wait := Roused) else queuers[c]
  }

  function RouseDrainers(drainers: map<nat, Waiter>): (r: map<nat, Waiter>)
    ensures r.Keys == drainers.Keys
  {
    map c | c in drainers :: Roused
  }

  /** `cond_signal`: wakes at least one of the waiting threads, if there are any. */
  predicate Signals(sleepers: set<nat>, signal: set<nat>) {
    signal <= sleepers && (sleepers != {} ==> signal != {})
  }

  /** Signal one, broadcast to many, by a counter that may lag behind the truth. */
  predicate WakesByCount(count: int, sleepers: set<nat>, signal: set<nat>) {
    if count == 1 then Signals(sleepers, signal)
    else if count > 1 then signal == sleepers
    else signal == {}
  }

  // ---------------------------------------------------------------- submission

  predicate Full<T>(q: Queue<T>) {
    Refuses(q.head, |q.works|, q.capacity)
  }

  predicate Pending<T>(q: Queue<T>) {
    q.head < |q.works|
  }

  /** `get_free_worker_slot`: the first free slot, or the number of slots. */
  function FirstFree(ws: seq<Phase>): (r: nat)
    ensures r <= |ws|
    ensures r < |ws| ==> ws[r].Free?
    ensures forall i :: 0 <= i < r ==> !ws[i].Free?
  {
    if ws == [] then 0
    else
      var r := FirstFree(ws[..|ws| - 1]);
      if r < |ws| - 1 then r else if ws[|ws| - 1].Free? then |ws| - 1 else |ws|
  }

  predicate ArmSignal<T>(q: Queue<T>, signal: set<nat>) {
    if q.nrSleepingWorkers == 0 then signal == {} else Signals(Sleepers(q.workers), signal)
  }

  /** `arm_worker`: spawn when the sleep counter is zero, otherwise signal. */
  function ArmWorker<T>(q: Queue<T>, signal: set<nat>): Queue<T> {
    if q.nrSleepingWorkers == 0 then
      var i := FirstFree(q.workers);
      if i < |q.workers| then q.(workers := q.workers[i := Starting]) else q
    else
      q.(workers := Rouse(q.workers, signal))
  }

  function TryVerdict<T>(q: Queue<T>): Verdict {
    if q.shouldStop then OwnerDead
    else if q.queueIsBlocked || Full(q) then Again
    else Accepted
  }

  function Push<T>(q: Queue<T>, work: Work<T>, signal: set<nat>): Queue<T> {
    ArmWorker(q.(works := q.works + [work], calls := q.calls + [[]]), signal)
  }

  /** One round of `queue_work`'s loop, up to its return or its `cond_wait`. */
  function TryQueue<T>(q: Queue<T>, caller: nat, work: Work<T>, signal: set<nat>): Queue<T> {
    match TryVerdict(q)
    case OwnerDead => q
    case Accepted => Push(q, work, signal)
    case Again =>
      q.(nrSleepingQueuers := q.nrSleepingQueuers + 1,
         queuers := q.queuers[caller := Queuer(Sleeping, work)])
  }

  /** A roused submitter, back from `cond_wait`. */
  function Unqueue<T>(q: Queue<T>, caller: nat): Queue<T> {
    q.(nrSleepingQueuers := q.nrSleepingQueuers - 1, queuers := q.queuers - {caller})
  }

  // ---------------------------------------------------------------- drain

  /** The loop test of `wait_all_work_done` and what follows, up to its return or wait. */
  function DrainCheck<T>(q: Queue<T>, caller: nat): Queue<T> {
    if (Pending(q) || q.nrRunningWorkers != 0) && !q.shouldStop then
      q.(waitAllIsWaiting := true, drainers := q.drainers[caller := Sleeping])
    else
      q.(queueIsBlocked := false, drainers := q.drainers - {caller})
  }

  // ---------------------------------------------------------------- workers

  /** `wait_for_event`, from the top of its loop up to its return or its `cond_wait`, and on
      return the lines of `worker_func` up to the next `mutex_unlock`. */
  function WaitForEvent<T>(q: Queue<T>, w: nat): Queue<T>
    requires w < |q.workers|
  {
    if q.shouldStop && !q.queueIsBlocked then
      q.(nrOnlineWorkers := q.nrOnlineWorkers - 1, workers := q.workers[w := Exited])
    else if Pending(q) then
      q.(head := q.head + 1, nrRunningWorkers := q.nrRunningWorkers + 1,
         workers := q.workers[w := Executing(q.head)])
    else
      q.(drainers := if q.waitAllIsWaiting then RouseDrainers(q.drainers) else q.drainers,
         nrSleepingWorkers := q.nrSleepingWorkers + 1,
         workers := q.workers[w := Asleep])
  }

  function FuncCalls<T>(work: Work<T>): seq<Call> {
    if work.hasFunc then [Func] else []
  }

  function DeleterCalls<T>(work: Work<T>): seq<Call> {
    if work.hasDeleter then [Deleter] else []
  }

  predicate FinishSignal<T>(q: Queue<T>, signal: set<nat>) {
    if q.nrRunningWorkers == 1 then signal == {}
    else WakesByCount(q.nrSleepingQueuers, SleepingQueuers(q.queuers), signal)
  }

  // ---------------------------------------------------------------- shutdown

  predicate IsPending<T>(q: Queue<T>, id: nat) {
    q.head <= id < |q.works|
  }

  function PendingIds<T>(q: Queue<T>): set<nat> {
    set id: nat | id < |q.works| && IsPending(q, id)
  }

  /** `clear_pending_works`: every pending work is handed to its deleter, in order. */
  function ClearPending<T>(q: Queue<T>): Queue<T>
    requires |q.calls| == |q.works|
  {
    q.(calls := seq(|q.works|, id requires 0 <= id < |q.works| =>
         q.calls[id] + if q.head <= id then DeleterCalls(q.works[id]) else []),
       cancelled := q.cancelled + PendingIds(q),
       head := |q.works|)
  }

  function DestroyQueue<T>(q: Queue<T>, signal: set<nat>): Queue<T>
    requires |q.calls| == |q.works|
  {
    ClearPending(q).(
      shouldStop := true,
      workers := Rouse(q.workers, signal),
      drainers := if q.waitAllIsWaiting then RouseDrainers(q.drainers) else q.drainers)
  }

  // ---------------------------------------------------------------- the transition system

  predicate IsWorker<T>(q: Queue<T>, w: nat) {
    w < |q.workers|
  }

  predicate Outside<T>(q: Queue<T>, caller: nat) {
    caller !in q.drainers && caller !in q.queuers
  }

  predicate Enabled<T>(q: Queue<T>, step: Step<T>) {
    && |q.calls| == |q.works|
    && match step
       case Submit(c, work, signal) =>
         Outside(q, c) && (TryVerdict(q).Accepted? ==> ArmSignal(q, signal))
       case Resubmit(c, signal) =>
         && c in q.queuers && q.queuers[c].wait.Roused?
         && (TryVerdict(q).Accepted? ==> ArmSignal(q, signal))
       case Drain(c) => Outside(q, c)
       case Redrain(c) => c in q.drainers && q.drainers[c].Roused?
       case Start(w) => IsWorker(q, w) && q.workers[w].Starting?
       case Resume(w) => IsWorker(q, w) && q.workers[w].Woken?
       case RunFunc(w) => IsWorker(q, w) && q.workers[w].Executing? && q.workers[w].id < |q.works|
       case RunDeleter(w) => IsWorker(q, w) && q.workers[w].Deleting? && q.workers[w].id < |q.works|
       case Finish(w, signal) => IsWorker(q, w) && q.workers[w].Done? && FinishSignal(q, signal)
       case Destroy(signal) =>
         !q.shouldStop && WakesByCount(q.nrSleepingWorkers, Sleepers(q.workers), signal)
       case SpuriousWorker(w) => IsWorker(q, w) && q.workers[w].Asleep?
       case SpuriousDrainer(c) => c in q.drainers && q.drainers[c].Sleeping?
       case SpuriousQueuer(c) => c in q.queuers && q.queuers[c].wait.Sleeping?
  }

  function Apply<T>(q: Queue<T>, step: Step<T>): Queue<T>
    requires Enabled(q, step)
  {
    match step
    case Submit(c, work, signal) => TryQueue(q, c, work, signal)
    case Resubmit(c, signal) => TryQueue(Unqueue(q, c), c, q.queuers[c].work, signal)
    case Drain(c) => DrainCheck(q.(queueIsBlocked := true), c)
    case Redrain(c) => DrainCheck(q.(waitAllIsWaiting := false), c)
    case Start(w) => WaitForEvent(q.(nrOnlineWorkers := q.nrOnlineWorkers + 1), w)
    case Resume(w) => WaitForEvent(q.(nrSleepingWorkers := q.nrSleepingWorkers - 1), w)
    case RunFunc(w) =>
      var id := q.workers[w].id;
      q.(workers := q.workers[w := Deleting(id)],
         calls := q.calls[id := q.calls[id] + FuncCalls(q.works[id])])
    case RunDeleter(w) =>
      var id := q.workers[w].id;
      q.(workers := q.workers[w := Done(id)],
         calls := q.calls[id := q.calls[id] + DeleterCalls(q.works[id])])
    case Finish(w, signal) =>
      WaitForEvent(q.(nrRunningWorkers := q.nrRunningWorkers - 1,
                      queuers := RouseQueuers(q.queuers, signal)), w)
    case Destroy(signal) => DestroyQueue(q, signal)
    case SpuriousWorker(w) => q.(workers := q.workers[w := Woken])
    case SpuriousDrainer(c) => q.(drainers := q.drainers[c := Roused])
    case SpuriousQueuer(c) => q.(queuers := q.queuers[c := q.queuers[c].(wait := Roused)])
  }

  // ---------------------------------------------------------------- runs

  /** `states` are the queue's states between the steps of `steps`. */
  ghost predicate IsRun<T(!new)>(states: seq<Queue<T>>, steps: seq<Step<T>>) {
    && |states| == |steps| + 1
    && forall k {:trigger steps[k]} :: 0 <= k < |steps| ==>
         Enabled(states[k], steps[k]) && states[k + 1] == Apply(states[k], steps[k])
  }

  ghost predicate Reachable<T(!new)>(q: Queue<T>) {
    exists states: seq<Queue<T>>, steps: seq<Step<T>> ::
      IsRun(states, steps) && IsInit(states[0]) && states[|steps|] == q
  }
}
