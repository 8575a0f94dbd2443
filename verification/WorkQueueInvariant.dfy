/** What every step of the work queue keeps. */
module WorkQueueInvariant {
  import opened Uint32
  import opened Circular
  import opened WorkQueueModel

  // ---------------------------------------------------------------- counting phases

  datatype Class = SleepingClass | RunningClass | OnlineClass

  predicate Is(p: Phase, c: Class) {
    match c
    case SleepingClass => p.Asleep? || p.Woken?
    case RunningClass => p.Executing? || p.Deleting? || p.Done?
    case OnlineClass => p.Asleep? || p.Woken? || p.Executing? || p.Deleting? || p.Done?
  }

  function Members(ws: seq<Phase>, c: Class): set<nat> {
    set i: nat | i < |ws| && Is(ws[i], c)
  }

  function Indicator(b: bool): int {
    if b then 1 else 0
  }

  lemma MembersAt(ws: seq<Phase>, w: nat, p: Phase, c: Class)
    requires w < |ws|
    ensures w in Members(ws, c) <==> Is(ws[w], c)
    ensures Members(ws[w := p], c) == if Is(p, c) then Members(ws, c) + {w} else Members(ws, c) - {w}
  {
    hide Is;
    var ws', m := ws[w := p], if Is(p, c) then Members(ws, c) + {w} else Members(ws, c) - {w};
    forall i: nat ensures i in Members(ws', c) <==> i in m {
      if i < |ws| && i != w { assert ws'[i] == ws[i]; }
    }
  }

  lemma MembersUpdate(ws: seq<Phase>, w: nat, p: Phase, c: Class)
    requires w < |ws|
    ensures |Members(ws[w := p], c)|
         == |Members(ws, c)| - Indicator(Is(ws[w], c)) + Indicator(Is(p, c))
  {
    MembersAt(ws, w, p, c);
    hide Is, Members;
    var m := Members(ws, c);
    assert w in m ==> m + {w} == m;
    assert w !in m ==> m - {w} == m;
  }

  lemma MembersRouse(ws: seq<Phase>, signal: set<nat>, c: Class)
    ensures Members(Rouse(ws, signal), c) == Members(ws, c)
  {
  }

  // ---------------------------------------------------------------- the invariant

  ghost predicate Shape<T>(q: Queue<T>) {
    && IsCapacity(q.capacity)
    && |q.workers| >= 1
    && |q.calls| == |q.works|
    && q.head <= |q.works| <= q.head + q.capacity
  }

  /** The four counters are the sizes of the matching sets of threads. */
  ghost predicate Accounting<T>(q: Queue<T>) {
    && q.nrSleepingWorkers == |Members(q.workers, SleepingClass)|
    && q.nrRunningWorkers == |Members(q.workers, RunningClass)|
    && q.nrOnlineWorkers == |Members(q.workers, OnlineClass)|
    && q.nrSleepingQueuers == |q.queuers|
  }

  /** Threads fill the slots from the front. */
  ghost predicate Slots<T>(q: Queue<T>) {
    forall i, j :: 0 <= i < j < |q.workers| && q.workers[i].Free? ==> q.workers[j].Free?
  }

  ghost predicate Stopping<T>(q: Queue<T>) {
    && (q.shouldStop ==> !Pending(q))
    && (q.cancelled != {} ==> q.shouldStop)
    && (forall i :: 0 <= i < |q.workers| && q.workers[i].Exited? ==> q.shouldStop)
    && (q.queueIsBlocked ==> q.drainers.Keys != {})
  }

  /** A thread that has yet to look at the list before it can sleep. */
  predicate IsAwake(p: Phase) {
    p.Starting? || p.Woken? || p.Executing? || p.Deleting? || p.Done?
  }

  /** Pending work is never left to threads that are all asleep. */
  ghost predicate NoStrandedWork<T>(q: Queue<T>) {
    Pending(q) ==> exists i :: 0 <= i < |q.workers| && IsAwake(q.workers[i])
  }

  /** What a sleeping drain caller can rely on while a worker is inside the lock. */
  ghost predicate DrainersAnnounced<T>(q: Queue<T>) {
    forall c :: c in q.drainers && q.drainers[c].Sleeping? ==> q.waitAllIsWaiting && !q.shouldStop
  }

  /** A sleeping drain caller is announced, and something is still to happen. */
  ghost predicate NoLostDrainer<T>(q: Queue<T>) {
    && DrainersAnnounced(q)
    && forall c :: c in q.drainers && q.drainers[c].Sleeping? ==> Pending(q) || q.nrRunningWorkers > 0
  }

  ghost predicate IsHeld(ws: seq<Phase>, id: nat) {
    exists i :: 0 <= i < |ws| && Is(ws[i], RunningClass) && ws[i].id == id
  }

  /** Each held work is in one worker only, already taken off the list and not cancelled. */
  ghost predicate HeldOnce<T>(q: Queue<T>) {
    && (forall i :: 0 <= i < |q.workers| && Is(q.workers[i], RunningClass) ==>
          q.workers[i].id < q.head && q.workers[i].id !in q.cancelled)
    && (forall i, j | 0 <= i < |q.workers| && 0 <= j < |q.workers|
            && Is(q.workers[i], RunningClass) && Is(q.workers[j], RunningClass) ::
          q.workers[i].id == q.workers[j].id ==> i == j)
    && (forall id :: id in q.cancelled ==> id < q.head)
  }

  function CallsInPhase<T>(p: Phase, work: Work<T>): seq<Call> {
    if p.Executing? then []
    else if p.Deleting? then FuncCalls(work)
    else FuncCalls(work) + DeleterCalls(work)
  }

  /** The calls made for a work are determined by where it is. */
  ghost predicate CallsMade<T>(q: Queue<T>) {
    && |q.calls| == |q.works|
    && (forall id {:trigger q.calls[id]} :: 0 <= id < |q.works| && q.head <= id ==> q.calls[id] == [])
    && (forall i | 0 <= i < |q.workers| && Is(q.workers[i], RunningClass) ::
          q.workers[i].id < |q.works| ==>
          q.calls[q.workers[i].id] == CallsInPhase(q.workers[i], q.works[q.workers[i].id]))
    && (forall id {:trigger q.calls[id]} :: 0 <= id < |q.works| && id < q.head && !IsHeld(q.workers, id) ==>
          q.calls[id] == (if id in q.cancelled then [] else FuncCalls(q.works[id]))
                         + DeleterCalls(q.works[id]))
  }

  ghost predicate Core<T>(q: Queue<T>) {
    && Shape(q) && Accounting(q) && Slots(q) && Stopping(q) && NoStrandedWork(q)
    && HeldOnce(q) && CallsMade(q)
  }

  ghost predicate Inv<T>(q: Queue<T>) {
    Core(q) && NoLostDrainer(q)
  }

  // ---------------------------------------------------------------- workers

  /** A worker that has retaken the lock: `Woken`, and no longer counted as sleeping. */
  lemma ResumeKeepsCore<T>(q: Queue<T>, w: nat)
    requires Core(q) && w < |q.workers| && q.workers[w].Woken?
    ensures Core(WaitForEvent(q.(nrSleepingWorkers := q.nrSleepingWorkers - 1), w))
  {
    ResumeKeepsAccounting(q, w);
    ResumeKeepsAwake(q, w);
    ResumeKeepsHeldOnce(q, w);
    ResumeKeepsCalls(q, w);
  }

  lemma ResumeKeepsAccounting<T>(q: Queue<T>, w: nat)
    requires Accounting(q) && w < |q.workers| && q.workers[w].Woken?
    ensures Accounting(WaitForEvent(q.(nrSleepingWorkers := q.nrSleepingWorkers - 1), w))
  {
    hide WaitForEvent, Is;
    var q1 := q.(nrSleepingWorkers := q.nrSleepingWorkers - 1);
    var q' := WaitForEvent(q1, w);
    WaitForEventCounts(q1, w);
    CountUpdate(q.workers, w, q'.workers[w], SleepingClass, q.nrSleepingWorkers, q'.nrSleepingWorkers);
    CountUpdate(q.workers, w, q'.workers[w], RunningClass, q.nrRunningWorkers, q'.nrRunningWorkers);
    CountUpdate(q.workers, w, q'.workers[w], OnlineClass, q.nrOnlineWorkers, q'.nrOnlineWorkers);
  }

  lemma WaitForEventCounts<T>(q: Queue<T>, w: nat)
    requires w < |q.workers| && q.workers[w].Woken?
    ensures
      var q' := WaitForEvent(q, w);
      && |q'.workers| == |q.workers| && q'.workers == q.workers[w := q'.workers[w]]
      && Counts(q.nrSleepingWorkers + 1, q'.nrSleepingWorkers, Woken, q'.workers[w], SleepingClass)
      && Counts(q.nrRunningWorkers, q'.nrRunningWorkers, Woken, q'.workers[w], RunningClass)
      && Counts(q.nrOnlineWorkers, q'.nrOnlineWorkers, Woken, q'.workers[w], OnlineClass)
      && q'.queuers == q.queuers && q'.nrSleepingQueuers == q.nrSleepingQueuers
  {
    hide RouseDrainers, Pending;
  }

  predicate Counts(n: int, n': int, p: Phase, p': Phase, c: Class) {
    n' == n - Indicator(Is(p, c)) + Indicator(Is(p', c))
  }

  lemma CountUpdate(ws: seq<Phase>, w: nat, p: Phase, c: Class, n: int, n': int)
    requires w < |ws| && n == |Members(ws, c)| && Counts(n, n', ws[w], p, c)
    ensures n' == |Members(ws[w := p], c)|
  {
    MembersUpdate(ws, w, p, c);
  }

  lemma ResumeKeepsAwake<T>(q: Queue<T>, w: nat)
    requires Shape(q) && Slots(q) && Stopping(q) && NoStrandedWork(q)
    requires w < |q.workers| && q.workers[w].Woken?
    ensures
      var q' := WaitForEvent(q.(nrSleepingWorkers := q.nrSleepingWorkers - 1), w);
      Shape(q') && Slots(q') && Stopping(q') && NoStrandedWork(q')
  {
    var q' := WaitForEvent(q.(nrSleepingWorkers := q.nrSleepingWorkers - 1), w);
    assert forall i :: 0 <= i < |q.workers| && i != w ==> q'.workers[i] == q.workers[i];
    if Pending(q') { assert IsAwake(q'.workers[w]); }
  }

  lemma ResumeKeepsHeldOnce<T>(q: Queue<T>, w: nat)
    requires Shape(q) && HeldOnce(q) && w < |q.workers| && q.workers[w].Woken?
    ensures HeldOnce(WaitForEvent(q.(nrSleepingWorkers := q.nrSleepingWorkers - 1), w))
  {
    hide RouseDrainers;
    var q' := WaitForEvent(q.(nrSleepingWorkers := q.nrSleepingWorkers - 1), w);
    assert forall i :: 0 <= i < |q.workers| && i != w ==> q'.workers[i] == q.workers[i];
  }

  lemma ResumeKeepsCalls<T>(q: Queue<T>, w: nat)
    requires Shape(q) && HeldOnce(q) && CallsMade(q) && w < |q.workers| && q.workers[w].Woken?
    ensures CallsMade(WaitForEvent(q.(nrSleepingWorkers := q.nrSleepingWorkers - 1), w))
  {
    var q' := WaitForEvent(q.(nrSleepingWorkers := q.nrSleepingWorkers - 1), w);
    assert q'.head > q.head ==> IsHeld(q'.workers, q.head) by {
      if q'.head > q.head { assert Is(q'.workers[w], RunningClass) && q'.workers[w].id == q.head; }
    }
    HeldStays(q.workers, w, q'.workers[w]);
  }

  /** Works held elsewhere stay held when worker `w`, holding none, moves on. */
  lemma HeldStays(ws: seq<Phase>, w: nat, p: Phase)
    requires w < |ws| && !Is(ws[w], RunningClass)
    ensures forall id: nat :: IsHeld(ws, id) ==> IsHeld(ws[w := p], id)
  {
    forall id: nat | IsHeld(ws, id) ensures IsHeld(ws[w := p], id) {
      var i :| 0 <= i < |ws| && Is(ws[i], RunningClass) && ws[i].id == id;
      assert ws[w := p][i] == ws[i];
    }
  }

  /** `q` just before `WaitForEvent` on behalf of a thread that has just started. */
  function Started<T>(q: Queue<T>, w: nat): Queue<T>
    requires w < |q.workers|
  {
    q.(nrOnlineWorkers := q.nrOnlineWorkers + 1, nrSleepingWorkers := q.nrSleepingWorkers + 1,
       workers := q.workers[w := Woken])
  }

  lemma StartKeepsCore<T>(q: Queue<T>, w: nat)
    requires Core(q) && w < |q.workers| && q.workers[w].Starting?
    ensures Core(WaitForEvent(q.(nrOnlineWorkers := q.nrOnlineWorkers + 1), w))
  {
    hide Core;
    var mid := Started(q, w);
    StartedHasCore(q, w);
    ResumeKeepsCore(mid, w);
    WaitForEventOverwrites(q.workers, mid.workers, w);
  }

  lemma StartedHasCore<T>(q: Queue<T>, w: nat)
    requires Core(q) && w < |q.workers| && q.workers[w].Starting?
    ensures Core(Started(q, w))
  {
    LifecycleFrame(q, Started(q, w));
    SlotChangeKeepsCore(q, Started(q, w), w);
  }

  /** `q'` is `q` but for the phase of worker `w`, the counters and the calls. */
  ghost predicate SlotChange<T>(q: Queue<T>, q': Queue<T>, w: nat) {
    && w < |q.workers| == |q'.workers|
    && q'.workers == q.workers[w := q'.workers[w]]
    && q' == q.(workers := q'.workers, calls := q'.calls, queuers := q'.queuers,
                nrSleepingWorkers := q'.nrSleepingWorkers, nrRunningWorkers := q'.nrRunningWorkers,
                nrOnlineWorkers := q'.nrOnlineWorkers)
    && |q'.calls| == |q.calls| && q'.queuers.Keys == q.queuers.Keys
  }

  lemma SlotChangeKeepsCore<T>(q: Queue<T>, q': Queue<T>, w: nat)
    requires Core(q) && SlotChange(q, q', w) && HeldOnce(q') && CallsMade(q')
    requires !q.workers[w].Free? && IsAwake(q'.workers[w])
    requires Counts(q.nrSleepingWorkers, q'.nrSleepingWorkers, q.workers[w], q'.workers[w], SleepingClass)
    requires Counts(q.nrRunningWorkers, q'.nrRunningWorkers, q.workers[w], q'.workers[w], RunningClass)
    requires Counts(q.nrOnlineWorkers, q'.nrOnlineWorkers, q.workers[w], q'.workers[w], OnlineClass)
    ensures Core(q')
  {
    SlotChangeKeepsAccounting(q, q', w);
    SlotChangeKeepsSlots(q, q', w);
  }

  lemma SlotChangeKeepsAccounting<T>(q: Queue<T>, q': Queue<T>, w: nat)
    requires Accounting(q) && SlotChange(q, q', w)
    requires Counts(q.nrSleepingWorkers, q'.nrSleepingWorkers, q.workers[w], q'.workers[w], SleepingClass)
    requires Counts(q.nrRunningWorkers, q'.nrRunningWorkers, q.workers[w], q'.workers[w], RunningClass)
    requires Counts(q.nrOnlineWorkers, q'.nrOnlineWorkers, q.workers[w], q'.workers[w], OnlineClass)
    ensures Accounting(q')
  {
    CountUpdate(q.workers, w, q'.workers[w], SleepingClass, q.nrSleepingWorkers, q'.nrSleepingWorkers);
    CountUpdate(q.workers, w, q'.workers[w], RunningClass, q.nrRunningWorkers, q'.nrRunningWorkers);
    CountUpdate(q.workers, w, q'.workers[w], OnlineClass, q.nrOnlineWorkers, q'.nrOnlineWorkers);
    assert |q'.queuers.Keys| == |q.queuers.Keys|;
    hide Members;
  }

  lemma SlotChangeKeepsSlots<T>(q: Queue<T>, q': Queue<T>, w: nat)
    requires Slots(q) && Stopping(q) && SlotChange(q, q', w)
    requires !q.workers[w].Free? && IsAwake(q'.workers[w])
    ensures Slots(q') && Stopping(q') && NoStrandedWork(q')
  {
    assert forall i :: 0 <= i < |q.workers| && i != w ==> q'.workers[i] == q.workers[i];
  }

  /** `WaitForEvent` settles the phase of its worker whatever it was before. */
  lemma WaitForEventOverwrites(ws: seq<Phase>, ws': seq<Phase>, w: nat)
    requires w < |ws| && ws' == ws[w := Woken]
    ensures forall p: Phase {:trigger ws'[w := p]} {:trigger ws[w := p]} :: ws'[w := p] == ws[w := p]
  {
  }

  /** `q` just before `WaitForEvent` on behalf of a thread that has finished its work. */
  function Finished<T>(q: Queue<T>, w: nat, signal: set<nat>): Queue<T>
    requires w < |q.workers|
  {
    q.(nrRunningWorkers := q.nrRunningWorkers - 1, nrSleepingWorkers := q.nrSleepingWorkers + 1,
       workers := q.workers[w := Woken], queuers := RouseQueuers(q.queuers, signal))
  }

  lemma FinishKeepsCore<T>(q: Queue<T>, w: nat, signal: set<nat>)
    requires Core(q) && w < |q.workers| && q.workers[w].Done?
    ensures Core(WaitForEvent(q.(nrRunningWorkers := q.nrRunningWorkers - 1,
                                 queuers := RouseQueuers(q.queuers, signal)), w))
  {
    hide Core;
    var mid := Finished(q, w, signal);
    FinishedHasCore(q, w, signal);
    ResumeKeepsCore(mid, w);
    WaitForEventOverwrites(q.workers, mid.workers, w);
  }

  lemma FinishedHasCore<T>(q: Queue<T>, w: nat, signal: set<nat>)
    requires Core(q) && w < |q.workers| && q.workers[w].Done?
    ensures Core(Finished(q, w, signal))
  {
    FinishedHasLifecycle(q, w, signal);
    SlotChangeKeepsCore(q, Finished(q, w, signal), w);
  }

  lemma FinishedHasLifecycle<T>(q: Queue<T>, w: nat, signal: set<nat>)
    requires Shape(q) && HeldOnce(q) && CallsMade(q) && w < |q.workers| && q.workers[w].Done?
    ensures HeldOnce(Finished(q, w, signal)) && CallsMade(Finished(q, w, signal))
  {
    var mid := Finished(q, w, signal);
    assert Is(q.workers[w], RunningClass);
    forall id: nat | id != q.workers[w].id && IsHeld(q.workers, id) ensures IsHeld(mid.workers, id) {
      var i :| 0 <= i < |q.workers| && Is(q.workers[i], RunningClass) && q.workers[i].id == id;
      assert mid.workers[i] == q.workers[i];
    }
  }

  // ---------------------------------------------------------------- frames

  /** The same workers hold the same works. */
  ghost predicate SameHolders(ws: seq<Phase>, ws': seq<Phase>) {
    && |ws| == |ws'|
    && forall i :: 0 <= i < |ws| && (Is(ws[i], RunningClass) || Is(ws'[i], RunningClass)) ==>
         ws[i] == ws'[i]
  }

  lemma HeldFrame(ws: seq<Phase>, ws': seq<Phase>, id: nat)
    requires SameHolders(ws, ws')
    ensures IsHeld(ws, id) <==> IsHeld(ws', id)
  {
    if IsHeld(ws, id) {
      var i :| 0 <= i < |ws| && Is(ws[i], RunningClass) && ws[i].id == id;
      assert Is(ws'[i], RunningClass);
    }
    if IsHeld(ws', id) {
      var i :| 0 <= i < |ws'| && Is(ws'[i], RunningClass) && ws'[i].id == id;
      assert Is(ws[i], RunningClass);
    }
  }

  lemma LifecycleFrame<T>(q: Queue<T>, q': Queue<T>)
    requires HeldOnce(q) && CallsMade(q) && SameHolders(q.workers, q'.workers)
    requires q'.head == q.head && q'.works == q.works && q'.calls == q.calls && q'.cancelled == q.cancelled
    ensures HeldOnce(q') && CallsMade(q')
  {
    forall id: nat ensures IsHeld(q.workers, id) <==> IsHeld(q'.workers, id) {
      HeldFrame(q.workers, q'.workers, id);
    }
  }

  // ---------------------------------------------------------------- calling func and deleter

  lemma RunKeepsCore<T>(q: Queue<T>, step: Step<T>)
    requires Core(q) && Enabled(q, step) && (step.RunFunc? || step.RunDeleter?)
    ensures Core(Apply(q, step))
  {
    RunKeepsLifecycle(q, step);
    SlotChangeKeepsCore(q, Apply(q, step), step.w);
  }

  lemma RunKeepsLifecycle<T>(q: Queue<T>, step: Step<T>)
    requires Shape(q) && HeldOnce(q) && CallsMade(q)
    requires Enabled(q, step) && (step.RunFunc? || step.RunDeleter?)
    ensures HeldOnce(Apply(q, step)) && CallsMade(Apply(q, step))
  {
    var q', w := Apply(q, step), step.w;
    var own := q.workers[w].id;
    assert Is(q.workers[w], RunningClass);
    forall id: nat ensures IsHeld(q.workers, id) <==> IsHeld(q'.workers, id) {
      HeldMoves(q.workers, w, q'.workers[w], id);
    }
    forall i | 0 <= i < |q'.workers| && Is(q'.workers[i], RunningClass) && i != w
      ensures q'.workers[i].id != own
    {
      assert q'.workers[i] == q.workers[i];
    }
    assert IsHeld(q.workers, own);
  }

  lemma HeldMoves(ws: seq<Phase>, w: nat, p: Phase, id: nat)
    requires w < |ws| && Is(ws[w], RunningClass) && Is(p, RunningClass) && p.id == ws[w].id
    ensures IsHeld(ws, id) <==> IsHeld(ws[w := p], id)
  {
    if IsHeld(ws, id) {
      var i :| 0 <= i < |ws| && Is(ws[i], RunningClass) && ws[i].id == id;
      assert Is(ws[w := p][i], RunningClass) && ws[w := p][i].id == id;
    }
    if IsHeld(ws[w := p], id) {
      var i :| 0 <= i < |ws| && Is(ws[w := p][i], RunningClass) && ws[w := p][i].id == id;
      assert Is(ws[i], RunningClass) && ws[i].id == id;
    }
  }

  // ---------------------------------------------------------------- submission

  lemma PushKeepsCore<T>(q: Queue<T>, work: Work<T>, signal: set<nat>)
    requires Core(q) && TryVerdict(q).Accepted? && ArmSignal(q, signal)
    ensures Core(Push(q, work, signal))
  {
    var q' := Push(q, work, signal);
    assert HeldOnce(q') && CallsMade(q') by { PushKeepsLifecycle(q, work, signal); }
    assert Accounting(q') by {
      ArmKeepsAccounting(q, signal);
      AccountingFrame(ArmWorker(q, signal), q');
    }
    hide Accounting, HeldOnce, CallsMade;
    assert Shape(q') by { RefusalExact(q.head, |q.works|, q.capacity); }
    assert Slots(q') && Stopping(q') by { PushKeepsSlots(q, work, signal); }
    assert NoStrandedWork(q') by { PushLeavesAwake(q, work, signal); }
  }

  lemma PushKeepsSlots<T>(q: Queue<T>, work: Work<T>, signal: set<nat>)
    requires Slots(q) && Stopping(q) && TryVerdict(q).Accepted?
    ensures Slots(Push(q, work, signal)) && Stopping(Push(q, work, signal))
  {
  }

  lemma PushLeavesAwake<T>(q: Queue<T>, work: Work<T>, signal: set<nat>)
    requires Core(q) && TryVerdict(q).Accepted? && ArmSignal(q, signal)
    ensures NoStrandedWork(Push(q, work, signal))
  {
    ArmedWorkerIsAwake(q, signal);
    hide Core;
    assert Push(q, work, signal).workers == ArmWorker(q, signal).workers;
  }

  lemma PushKeepsLifecycle<T>(q: Queue<T>, work: Work<T>, signal: set<nat>)
    requires Shape(q) && HeldOnce(q) && CallsMade(q)
    ensures HeldOnce(Push(q, work, signal)) && CallsMade(Push(q, work, signal))
  {
    hide HeldOnce, CallsMade, Shape, ArmWorker;
    AppendKeepsLifecycle(q, work);
    ArmKeepsHolders(Append(q, work), signal);
    LifecycleFrame(Append(q, work), Push(q, work, signal));
  }

  function Append<T>(q: Queue<T>, work: Work<T>): Queue<T> {
    q.(works := q.works + [work], calls := q.calls + [[]])
  }

  lemma AppendKeepsLifecycle<T>(q: Queue<T>, work: Work<T>)
    requires Shape(q) && HeldOnce(q) && CallsMade(q)
    ensures HeldOnce(Append(q, work)) && CallsMade(Append(q, work))
  {
  }

  lemma ArmKeepsHolders<T>(q: Queue<T>, signal: set<nat>)
    ensures SameHolders(q.workers, ArmWorker(q, signal).workers)
    ensures ArmWorker(q, signal) == q.(workers := ArmWorker(q, signal).workers)
  {
  }

  lemma AccountingFrame<T>(q: Queue<T>, q': Queue<T>)
    requires Accounting(q) && q' == q.(works := q'.works, calls := q'.calls)
    ensures Accounting(q')
  {
  }

  lemma ArmKeepsAccounting<T>(q: Queue<T>, signal: set<nat>)
    requires Accounting(q)
    ensures Accounting(ArmWorker(q, signal))
  {
    if q.nrSleepingWorkers != 0 {
      MembersRouse(q.workers, signal, SleepingClass);
      MembersRouse(q.workers, signal, RunningClass);
      MembersRouse(q.workers, signal, OnlineClass);
    } else if FirstFree(q.workers) < |q.workers| {
      var i := FirstFree(q.workers);
      MembersUpdate(q.workers, i, Starting, SleepingClass);
      MembersUpdate(q.workers, i, Starting, RunningClass);
      MembersUpdate(q.workers, i, Starting, OnlineClass);
    }
  }

  /** However the lagging sleep counter decides, somebody is awake after `arm_worker`. */
  lemma ArmedWorkerIsAwake<T>(q: Queue<T>, signal: set<nat>)
    requires Shape(q) && Accounting(q) && Stopping(q) && !q.shouldStop && ArmSignal(q, signal)
    ensures exists i :: 0 <= i < |q.workers| && IsAwake(ArmWorker(q, signal).workers[i])
  {
    var q' := ArmWorker(q, signal);
    if q.nrSleepingWorkers == 0 {
      var i := FirstFree(q.workers);
      if i < |q.workers| {
        assert IsAwake(q'.workers[i]);
      } else {
        assert Members(q.workers, SleepingClass) == {};
        assert 0 !in Members(q.workers, SleepingClass);
        assert IsAwake(q'.workers[0]);
      }
    } else {
      assert Members(q.workers, SleepingClass) != {};
      var i :| i in Members(q.workers, SleepingClass);
      if q.workers[i].Woken? {
        assert IsAwake(q'.workers[i]);
      } else {
        assert i in Sleepers(q.workers);
        var j :| j in signal;
        assert j in Sleepers(q.workers);
        assert IsAwake(q'.workers[j]);
      }
    }
  }

  // ---------------------------------------------------------------- shutdown

  lemma DestroyKeepsCore<T>(q: Queue<T>, signal: set<nat>)
    requires Core(q)
    ensures Core(DestroyQueue(q, signal))
  {
    MembersRouse(q.workers, signal, SleepingClass);
    MembersRouse(q.workers, signal, RunningClass);
    MembersRouse(q.workers, signal, OnlineClass);
    ClearKeepsLifecycle(q);
    LifecycleFrame(ClearPending(q), DestroyQueue(q, signal));
  }

  lemma ClearKeepsLifecycle<T>(q: Queue<T>)
    requires Shape(q) && HeldOnce(q) && CallsMade(q)
    ensures HeldOnce(ClearPending(q)) && CallsMade(ClearPending(q))
  {
    var q' := ClearPending(q);
    forall id | 0 <= id < |q.works| && q.head <= id ensures id in q'.cancelled && !IsHeld(q.workers, id) {
      assert IsPending(q, id);
    }
    forall id | 0 <= id < |q.works| && id < q.head
      ensures q'.calls[id] == q.calls[id] && (id in q'.cancelled <==> id in q.cancelled)
    {
      assert !IsPending(q, id);
    }
  }

  // ---------------------------------------------------------------- drain callers

  /** Whatever a worker decides in `WaitForEvent`, no drain caller is left behind. */
  lemma WaitForEventServesDrainers<T>(q: Queue<T>, w: nat)
    requires DrainersAnnounced(q) && w < |q.workers| && q.nrRunningWorkers >= 0
    ensures NoLostDrainer(WaitForEvent(q, w))
  {
  }

  lemma DrainCheckServesDrainers<T>(q: Queue<T>, caller: nat)
    requires q.nrRunningWorkers >= 0
    requires forall c :: c in q.drainers && q.drainers[c].Sleeping? && c != caller ==>
               !q.shouldStop && (Pending(q) || q.nrRunningWorkers > 0)
    ensures NoLostDrainer(DrainCheck(q, caller))
  {
  }

  // ---------------------------------------------------------------- every step

  lemma StepKeepsCore<T>(q: Queue<T>, step: Step<T>)
    requires Core(q) && Enabled(q, step)
    ensures Core(Apply(q, step))
  {
    hide Core;
    match step
    case Submit(c, work, signal) => TryQueueKeepsCore(q, c, work, signal);
    case Resubmit(c, signal) =>
      UnqueueKeepsCore(q, c);
      TryQueueKeepsCore(Unqueue(q, c), c, q.queuers[c].work, signal);
    case Start(w) => StartKeepsCore(q, w);
    case Resume(w) => ResumeKeepsCore(q, w);
    case RunFunc(w) => RunKeepsCore(q, step);
    case RunDeleter(w) => RunKeepsCore(q, step);
    case Finish(w, signal) => FinishKeepsCore(q, w, signal);
    case Destroy(signal) => DestroyKeepsCore(q, signal);
    case SpuriousWorker(w) => SpuriousKeepsCore(q, w);
    case _ => CallerKeepsCore(q, step);
  }

  lemma TryQueueKeepsCore<T>(q: Queue<T>, c: nat, work: Work<T>, signal: set<nat>)
    requires Core(q) && c !in q.queuers && (TryVerdict(q).Accepted? ==> ArmSignal(q, signal))
    ensures Core(TryQueue(q, c, work, signal))
  {
    if TryVerdict(q).Accepted? {
      PushKeepsCore(q, work, signal);
    } else {
      LifecycleFrame(q, TryQueue(q, c, work, signal));
    }
  }

  lemma CallerKeepsCore<T>(q: Queue<T>, step: Step<T>)
    requires Core(q) && Enabled(q, step)
    requires step.Drain? || step.Redrain? || step.SpuriousDrainer? || step.SpuriousQueuer?
    ensures Core(Apply(q, step))
  {
    hide Core, DrainCheck;
    BlockedMeansDrained(q);
    var q' := Apply(q, step);
    match step
    case Drain(c) => DrainCheckKeepsCore(q, q.(queueIsBlocked := true), c);
    case Redrain(c) => DrainCheckKeepsCore(q, q.(waitAllIsWaiting := false), c);
    case SpuriousDrainer(c) =>
      assert c in q'.drainers.Keys;
      CallersFrame(q, q');
    case SpuriousQueuer(c) =>
      assert |q'.queuers.Keys| == |q.queuers.Keys| by { assert q'.queuers.Keys == q.queuers.Keys; }
      CallersFrame(q, q');
  }

  lemma DrainCheckKeepsCore<T>(q: Queue<T>, q1: Queue<T>, c: nat)
    requires Core(q)
    requires q1 == q.(queueIsBlocked := q1.queueIsBlocked, waitAllIsWaiting := q1.waitAllIsWaiting)
    ensures Core(DrainCheck(q1, c))
  {
    hide Core;
    var q' := DrainCheck(q1, c);
    if q'.queueIsBlocked { assert c in q'.drainers.Keys; }
    CallersFrame(q, q');
  }

  lemma BlockedMeansDrained<T>(q: Queue<T>)
    requires Core(q)
    ensures q.queueIsBlocked ==> q.drainers.Keys != {}
  {
  }

  lemma CallersFrame<T>(q: Queue<T>, q': Queue<T>)
    requires Core(q)
    requires q' == q.(queueIsBlocked := q'.queueIsBlocked, waitAllIsWaiting := q'.waitAllIsWaiting,
                      drainers := q'.drainers, queuers := q'.queuers)
    requires |q'.queuers| == |q.queuers| && (q'.queueIsBlocked ==> q'.drainers.Keys != {})
    ensures Core(q')
  {
    LifecycleFrame(q, q');
    hide HeldOnce, CallsMade, Members;
  }

  lemma UnqueueKeepsCore<T>(q: Queue<T>, c: nat)
    requires Core(q) && c in q.queuers
    ensures Core(Unqueue(q, c))
  {
    assert Unqueue(q, c).queuers.Keys == q.queuers.Keys - {c};
    LifecycleFrame(q, Unqueue(q, c));
  }

  lemma SpuriousKeepsCore<T>(q: Queue<T>, w: nat)
    requires Core(q) && w < |q.workers| && q.workers[w].Asleep?
    ensures Core(q.(workers := q.workers[w := Woken]))
  {
    var q' := q.(workers := q.workers[w := Woken]);
    LifecycleFrame(q, q');
    SlotChangeKeepsCore(q, q', w);
  }

  lemma StepKeepsDrainers<T>(q: Queue<T>, step: Step<T>)
    requires Inv(q) && Enabled(q, step)
    ensures NoLostDrainer(Apply(q, step))
  {
    RunningCounted(q);
    hide Core, NoLostDrainer, Enabled, Apply, Is;
    match step
    case Submit(_, _, _) => SubmitKeepsDrainers(q, step);
    case Resubmit(_, _) => SubmitKeepsDrainers(q, step);
    case Start(_) => WorkerKeepsDrainers(q, step);
    case Resume(_) => WorkerKeepsDrainers(q, step);
    case Finish(_, _) => WorkerKeepsDrainers(q, step);
    case Destroy(signal) => DestroyKeepsDrainers(q, signal);
    case _ => CallerKeepsDrainers(q, step);
  }

  lemma SubmitKeepsDrainers<T>(q: Queue<T>, step: Step<T>)
    requires NoLostDrainer(q) && Enabled(q, step) && (step.Submit? || step.Resubmit?)
    ensures NoLostDrainer(Apply(q, step))
  {
    hide TryQueue;
    if step.Submit? {
      TryQueueKeepsDrainers(q, step.caller, step.work, step.signal);
    } else {
      TryQueueKeepsDrainers(Unqueue(q, step.caller), step.caller, q.queuers[step.caller].work, step.signal);
    }
  }

  lemma WorkerKeepsDrainers<T>(q: Queue<T>, step: Step<T>)
    requires NoLostDrainer(q) && q.nrRunningWorkers >= 0
    requires forall w :: 0 <= w < |q.workers| && Is(q.workers[w], RunningClass) ==> q.nrRunningWorkers >= 1
    requires Enabled(q, step) && (step.Start? || step.Resume? || step.Finish?)
    ensures NoLostDrainer(Apply(q, step))
  {
    hide WaitForEvent, RouseQueuers, FinishSignal;
    match step
    case Start(w) => WaitForEventServesDrainers(q.(nrOnlineWorkers := q.nrOnlineWorkers + 1), w);
    case Resume(w) => WaitForEventServesDrainers(q.(nrSleepingWorkers := q.nrSleepingWorkers - 1), w);
    case Finish(w, signal) =>
      assert Is(q.workers[w], RunningClass);
      WaitForEventServesDrainers(q.(nrRunningWorkers := q.nrRunningWorkers - 1,
                                    queuers := RouseQueuers(q.queuers, signal)), w);
  }

  lemma DestroyKeepsDrainers<T>(q: Queue<T>, signal: set<nat>)
    requires NoLostDrainer(q) && Enabled(q, Destroy(signal))
    ensures NoLostDrainer(Apply(q, Destroy(signal)))
  {
    hide DestroyQueue;
    DestroyServesDrainers(q, signal);
  }

  lemma CallerKeepsDrainers<T>(q: Queue<T>, step: Step<T>)
    requires NoLostDrainer(q) && q.nrRunningWorkers >= 0 && Enabled(q, step)
    requires !step.Submit? && !step.Resubmit? && !step.Start? && !step.Resume? && !step.Finish? && !step.Destroy?
    ensures NoLostDrainer(Apply(q, step))
  {
    match step
    case Drain(c) =>
      hide DrainCheck;
      DrainCheckServesDrainers(q.(queueIsBlocked := true), c);
    case Redrain(c) =>
      hide DrainCheck;
      DrainCheckServesDrainers(q.(waitAllIsWaiting := false), c);
    case _ =>
  }

  lemma TryQueueKeepsDrainers<T>(q: Queue<T>, c: nat, work: Work<T>, signal: set<nat>)
    requires NoLostDrainer(q)
    ensures NoLostDrainer(TryQueue(q, c, work, signal))
  {
  }

  lemma DestroyServesDrainers<T>(q: Queue<T>, signal: set<nat>)
    requires NoLostDrainer(q) && |q.calls| == |q.works|
    ensures NoLostDrainer(DestroyQueue(q, signal))
  {
  }

  lemma RunningCounted<T>(q: Queue<T>)
    requires Accounting(q)
    ensures q.nrRunningWorkers >= 0
    ensures forall w :: 0 <= w < |q.workers| && Is(q.workers[w], RunningClass) ==> q.nrRunningWorkers >= 1
  {
    forall w | 0 <= w < |q.workers| && Is(q.workers[w], RunningClass) ensures q.nrRunningWorkers >= 1 {
      assert w in Members(q.workers, RunningClass);
    }
  }

  /** Every step keeps the invariant. */
  lemma StepKeepsInv<T>(q: Queue<T>, step: Step<T>)
    requires Inv(q) && Enabled(q, step)
    ensures Inv(Apply(q, step))
  {
    StepKeepsCore(q, step);
    StepKeepsDrainers(q, step);
  }

  lemma InitHasInv<T>(maxThreads: nat, created: nat, capacity: nat)
    requires 1 <= maxThreads && created <= maxThreads && IsCapacity(capacity)
    ensures Inv(Init<T>(maxThreads, created, capacity))
  {
    var q := Init<T>(maxThreads, created, capacity);
    assert Members(q.workers, SleepingClass) == {};
    assert Members(q.workers, RunningClass) == {};
    assert Members(q.workers, OnlineClass) == {};
  }

  lemma {:induction false} RunKeepsInv<T(!new)>(states: seq<Queue<T>>, steps: seq<Step<T>>, k: nat)
    requires IsRun(states, steps) && Inv(states[0]) && k <= |steps|
    ensures Inv(states[k])
  {
    hide Inv, Enabled, Apply;
    if k > 0 {
      RunKeepsInv(states, steps, k - 1);
      StepKeepsInv(states[k - 1], steps[k - 1]);
    }
  }

  /** The invariant holds in every reachable state. */
  lemma ReachableHasInv<T(!new)>(q: Queue<T>)
    requires Reachable(q)
    ensures Inv(q)
  {
    var states: seq<Queue<T>>, steps: seq<Step<T>> :|
      IsRun(states, steps) && IsInit(states[0]) && states[|steps|] == q;
    var maxThreads: nat, created: nat, capacity: nat :|
      && 1 <= maxThreads && created <= maxThreads && IsCapacity(capacity)
      && states[0] == Init(maxThreads, created, capacity);
    InitHasInv<T>(maxThreads, created, capacity);
    RunKeepsInv(states, steps, |steps|);
  }
}
