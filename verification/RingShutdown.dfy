/** The heap copies of the requests, and what the teardown of ring and queue leaves behind. */
module RingShutdown {
  import opened Uint32
  import opened WorkQueueModel
  import WI = WorkQueueInvariant
  import WP = WorkQueueProgress
  import WS = WorkQueueShutdown
  import opened RingModel
  import opened RingInvariant
  import opened RingSafety

  // ---------------------------------------------------------------- heap copies

  /** `punt_to_io_wq` has allocated a heap copy of request `k`. */
  predicate IsCopied(s: System, k: nat) {
    || (k < |s.exits| && (s.exits[k].Punted? || s.exits[k] == PuntFailed))
    || (s.client.Blocked? && k == |s.exits|)
  }

  /** The copy has been released: by `punt_to_io_wq` when the queue refused it, or by the
      deleter. */
  predicate IsReleased(s: System, k: nat) {
    && k < |s.exits|
    && (s.exits[k] == PuntFailed || (s.exits[k].Punted? && DeleterRan(s.wq, s.exits[k].id)))
  }

  /** Each copy is allocated once and released once. */
  ghost predicate CopiesOk(s: System) {
    forall k: nat ::
      && s.mallocs[k] == WI.Indicator(IsCopied(s, k))
      && s.dataFrees[k] == WI.Indicator(IsReleased(s, k))
  }

  /** The queue stops after the ring; from then on nobody in it is left to wake, and the client
      is not waiting in it. */
  ghost predicate StopReleases(s: System) {
    s.wq.shouldStop ==> WS.Released(s.wq) && !s.client.Blocked? && s.ring.shouldStop
  }

  ghost predicate CopyInv(s: System) {
    SysInv(s) && CopiesOk(s) && StopReleases(s)
  }

  // ---------------------------------------------------------------- the queue's part

  /** Every step of the ring is a step of the queue, or leaves it alone. */
  lemma QueueFollows(s: System, e: Event)
    requires Possible(s, e) && ClientOk(s)
    ensures Next(s, e).wq == s.wq
         || exists step: Step<Data> :: Enabled(s.wq, step) && step.Destroy? == e.DestroyWq?
              && Next(s, e).wq == Apply(s.wq, step)
  {
    hide Enabled, Push, CqFull, CqReady, ArmSignal, Unqueue;
    var wq' := Next(s, e).wq;
    match e
    case Punt(signal) => PuntFollows(s, e, Submit(CLIENT, PuntWork(s), signal));
    case PuntAgain(signal) => PuntFollows(s, e, Resubmit(CLIENT, signal));
    case Worker(step) => assert wq' == Apply(s.wq, step);
    case Exec(w, res) => assert wq' == Apply(s.wq, RunFunc(w));
    case DestroyWq(signal) => assert wq' == Apply(s.wq, Destroy(signal));
    case _ =>
  }

  lemma PuntFollows(s: System, e: Event, step: Step<Data>)
    requires Possible(s, e) && ClientOk(s)
    requires e.Punt? || e.PuntAgain?
    requires step == if e.Punt? then Submit(CLIENT, PuntWork(s), e.signal) else Resubmit(CLIENT, e.signal)
    ensures Enabled(s.wq, step) && Next(s, e).wq == Apply(s.wq, step)
  {
    hide Push, CqFull, CqReady, ArmSignal, Unqueue, Full, IsCapacity;
    if e.PuntAgain? { assert CLIENT in s.wq.queuers.Keys; }
  }

  lemma OnlyDestroyStops(q: Queue<Data>, step: Step<Data>)
    requires Enabled(q, step) && !step.Destroy?
    ensures Apply(q, step).shouldStop == q.shouldStop
  {
    hide FirstFree, Rouse, RouseQueuers, RouseDrainers;
  }

  /** A stopped queue refuses, so that nobody waits in it. */
  lemma NoWaitAfterStop(s: System, e: Event)
    requires ClientOk(s) && Possible(s, e)
    requires s.wq.shouldStop ==> !s.client.Blocked? && s.ring.shouldStop
    ensures Next(s, e).wq.shouldStop ==> !Next(s, e).client.Blocked? && Next(s, e).ring.shouldStop
  {
    if e.Worker? {
      OnlyDestroyStops(s.wq, e.step);
      hide Enabled, Apply;
    } else if e.Punt? || e.PuntAgain? {
      hide Enabled, PuntRound, Possible, Next;
      PuntIsRound(s, e);
      PuntAfterStop(s, if e.Punt? then s.wq else Unqueue(s.wq, CLIENT), e.signal);
    } else {
      hide Enabled, CqFull, CqReady, IsCapacity, PuntRound;
    }
  }

  lemma PuntAfterStop(s: System, wq: Queue<Data>, signal: set<nat>)
    requires s.ring.sqHead < |s.ring.requests|
    ensures
      var s' := PuntRound(s, wq, signal);
      s'.wq.shouldStop == wq.shouldStop && s'.ring.shouldStop == s.ring.shouldStop
      && (wq.shouldStop ==> !s'.client.Blocked?)
  {
    hide FirstFree, Rouse, Full;
  }

  lemma NotBlocked(s: System)
    requires SysInv(s)
    ensures !s.wq.queueIsBlocked
  {
    WI.BlockedMeansDrained(s.wq);
  }

  lemma StepKeepsStopReleases(s: System, e: Event)
    requires SysInv(s) && StopReleases(s) && Possible(s, e)
    ensures StopReleases(Next(s, e))
  {
    QueueFollows(s, e);
    NotBlocked(s);
    NoWaitAfterStop(s, e);
    hide SysInv, Enabled, Apply, WS.Released;
    if step: Step<Data> :| Enabled(s.wq, step) && step.Destroy? == e.DestroyWq? && Next(s, e).wq == Apply(s.wq, step) {
      if step.Destroy? {
        QueueHasInv(s);
        WS.DestroyReleases(s.wq, step.signal);
      } else {
        OnlyDestroyStops(s.wq, step);
        if s.wq.shouldStop { WS.ReleasedStep(s.wq, step); }
      }
    }
  }

  lemma QueueHasInv(s: System)
    requires SysInv(s)
    ensures WI.Inv(s.wq)
  {
  }

  // ---------------------------------------------------------------- the copies, step by step

  /** Nothing was copied or released. */
  lemma CopiesFrame(s: System, s': System)
    requires CopiesOk(s) && s'.mallocs == s.mallocs && s'.dataFrees == s.dataFrees
    requires forall k: nat :: IsCopied(s', k) == IsCopied(s, k) && IsReleased(s', k) == IsReleased(s, k)
    ensures CopiesOk(s')
  {
    hide IsCopied, IsReleased;
  }

  /** A client step that hands nothing to the queue. */
  lemma ClientStepKeepsCopies(s: System, e: Event)
    requires SysInv(s) && CopiesOk(s) && Possible(s, e)
    requires IsClientOnly(e) || e.IssueNop? || e.IssueUnknown? || e.PuntNoMemory?
    ensures CopiesOk(Next(s, e))
  {
    hide WI.Inv, Requests, CopiesOk, CqFull, CqReady, IsCapacity;
    CopiesFrame(s, Next(s, e));
  }

  /** A step of a worker other than the deleter. */
  lemma WorkerStepKeepsCopies(s: System, step: Step<Data>)
    requires SysInv(s) && CopiesOk(s) && Possible(s, Worker(step)) && !step.RunDeleter?
    ensures CopiesOk(Next(s, Worker(step)))
  {
    var s' := Next(s, Worker(step));
    NoDrainers(s);
    WorkerStepEffect(s.wq, step);
    SameCalls(s.wq, s'.wq);
    hide SysInv, CopiesOk, Apply, Enabled, DeleterRan;
    CopiesFrame(s, s');
  }

  lemma ExecStepKeepsCopies(s: System, w: nat, res: int)
    requires SysInv(s) && CopiesOk(s) && Possible(s, Exec(w, res))
    requires w < |s.wq.workers| && s.wq.workers[w].Executing?
    ensures CopiesOk(Next(s, Exec(w, res)))
  {
    hide SysInv, CopiesOk, CqFull, Apply, Enabled, DeleterRan, ExecutedWork, Possible, Next, IsCopied, IsReleased;
    hide PostCqe;
    var s', id := Next(s, Exec(w, res)), s.wq.workers[w].id;
    ExecIsExecutedWork(s, w, res);
    ExecKeepsDeleters(s, s', id, res);
    ExecCopies(s, s'.wq, s.wq.works[id].arg, res);
    CopiesFrame(s, s');
  }

  lemma ExecKeepsDeleters(s: System, s': System, id: nat, res: int)
    requires ExecutedWork(s, s', id, res)
    ensures forall j: nat :: DeleterRan(s'.wq, j) == DeleterRan(s.wq, j)
  {
    ExecutedByCalls(s.wq, s'.wq, id);
  }

  /** Posting a completion is nothing to the copies. */
  lemma ExecCopies(s: System, wq': Queue<Data>, d: Data, res: int)
    requires forall id: nat :: DeleterRan(wq', id) == DeleterRan(s.wq, id)
    ensures
      var s' := PostCqe(s.(wq := wq'), d.request, d.sqe, res);
      && s'.mallocs == s.mallocs && s'.dataFrees == s.dataFrees
      && forall k: nat :: IsCopied(s', k) == IsCopied(s, k) && IsReleased(s', k) == IsReleased(s, k)
  {
    hide CqFull, DeleterRan;
  }

  lemma DeleterStepKeepsCopies(s: System, w: nat)
    requires SysInv(s) && CopiesOk(s) && Possible(s, Worker(RunDeleter(w)))
    ensures CopiesOk(Next(s, Worker(RunDeleter(w))))
  {
    var s', id := Next(s, Worker(RunDeleter(w))), s.wq.workers[w].id;
    assert WorkOf(s, id);
    RunDeleterEffect(s.wq, w);
    DeletedByCalls(s.wq, s'.wq, id);
    var r := s.wq.works[id].arg.request;
    assert s'.dataFrees == s.dataFrees + multiset{r} && s'.mallocs == s.mallocs;
    assert s'.exits == s.exits && s'.client == s.client;
    forall k: nat ensures k < |s.exits| && s.exits[k] == Punted(id) ==> k == r {
      if k < |s.exits| { assert ExitOf(s, k); }
    }
    hide SysInv, Possible, Next, DeleterRan;
    forall k: nat
      ensures s'.mallocs[k] == WI.Indicator(IsCopied(s', k))
      ensures s'.dataFrees[k] == WI.Indicator(IsReleased(s', k))
    {
      assert s.mallocs[k] == WI.Indicator(IsCopied(s, k));
    }
  }

  /** What one round of `queue_work` comes to: the queue takes the copy, refuses it, or keeps
      the client waiting with the copy in hand. */
  ghost predicate PuntOutcome(s: System, s': System, first: bool) {
    var n := |s.exits|;
    && s.client.Blocked? == !first
    && s'.mallocs == s.mallocs + (if first then multiset{n} else multiset{})
    && ((s'.exits == s.exits + [Punted(|s.wq.calls|)] && s'.client.Submitting?
         && s'.dataFrees == s.dataFrees && s'.wq.calls == s.wq.calls + [[]])
        || (s'.exits == s.exits + [PuntFailed] && s'.client.Submitting?
            && s'.dataFrees == s.dataFrees + multiset{n} && s'.wq.calls == s.wq.calls)
        || (s'.exits == s.exits && s'.client.Blocked?
            && s'.dataFrees == s.dataFrees && s'.wq.calls == s.wq.calls))
  }

  lemma PuntRoundOutcome(s: System, wq: Queue<Data>, signal: set<nat>, first: bool)
    requires s.ring.sqHead == |s.exits| < |s.ring.requests| && s.client.Blocked? == !first
    requires wq.calls == s.wq.calls && |wq.works| == |wq.calls|
    ensures
      var s' := PuntRound(s, wq, signal);
      PuntOutcome(s, s'.(mallocs := s.mallocs + if first then multiset{|s.exits|} else multiset{}), first)
  {
    hide Push, TryVerdict;
    PushRecord(wq, PuntWork(s), signal);
  }

  /** A punt is a round of `queue_work`, for the copy just allocated or for the one the client
      went to sleep with. */
  lemma PuntIsRound(s: System, e: Event)
    requires Possible(s, e) && (e.Punt? || e.PuntAgain?)
    ensures s.ring.sqHead < |s.ring.requests| && s.client.Blocked? == e.PuntAgain?
    ensures e.Punt? ==>
              Next(s, e) == PuntRound(s, s.wq, e.signal).(mallocs := s.mallocs + multiset{s.ring.sqHead})
    ensures e.PuntAgain? ==> Next(s, e) == PuntRound(s, Unqueue(s.wq, CLIENT), e.signal)
  {
    hide PuntRound, Unqueue, Enabled;
  }

  lemma PuntHasOutcome(s: System, e: Event)
    requires SysInv(s) && Possible(s, e) && (e.Punt? || e.PuntAgain?)
    ensures PuntOutcome(s, Next(s, e), e.Punt?)
  {
    hide SysInv, PuntRound, PuntOutcome, Enabled, Unqueue, Possible, Next;
    RingCounts(s);
    PuntIsRound(s, e);
    if e.Punt? {
      PuntRoundOutcome(s, s.wq, e.signal, true);
    } else {
      var wq := Unqueue(s.wq, CLIENT);
      UnqueueKeepsRecord(s.wq);
      PuntRoundOutcome(s, wq, e.signal, false);
      MallocsStay(s, wq, e.signal);
      assert s.mallocs + multiset{} == s.mallocs;
      assert PuntRound(s, wq, e.signal).(mallocs := s.mallocs) == PuntRound(s, wq, e.signal);
    }
  }

  lemma RingCounts(s: System)
    requires SysInv(s)
    ensures |s.wq.calls| == |s.wq.works| && |s.exits| == s.ring.sqHead
  {
  }

  lemma UnqueueKeepsRecord(wq: Queue<Data>)
    ensures Unqueue(wq, CLIENT).calls == wq.calls && Unqueue(wq, CLIENT).works == wq.works
  {
  }

  lemma MallocsStay(s: System, wq: Queue<Data>, signal: set<nat>)
    requires s.ring.sqHead < |s.ring.requests|
    ensures PuntRound(s, wq, signal).mallocs == s.mallocs
  {
  }

  lemma PushRecord(wq: Queue<Data>, work: Work<Data>, signal: set<nat>)
    ensures Push(wq, work, signal).calls == wq.calls + [[]]
  {
    hide FirstFree, Rouse;
  }

  lemma PuntKeepsCopies(s: System, s': System, first: bool)
    requires CopiesOk(s) && PuntOutcome(s, s', first)
    ensures CopiesOk(s')
  {
    CallsAppended(s.wq, s'.wq);
    hide DeleterRan, CopiesOk;
    assert CopiesOk(s') by {
      forall k: nat
        ensures s'.mallocs[k] == WI.Indicator(IsCopied(s', k))
        ensures s'.dataFrees[k] == WI.Indicator(IsReleased(s', k))
      {
        CopiesAt(s, k);
      }
      CopiesFrom(s');
    }
  }

  lemma CallsAppended(wq: Queue<Data>, wq': Queue<Data>)
    ensures wq'.calls == wq.calls + [[]] || wq'.calls == wq.calls ==>
              forall id: nat :: DeleterRan(wq', id) == DeleterRan(wq, id)
    ensures !DeleterRan(wq, |wq.calls|)
  {
    assert Deleter !in [];
  }

  lemma CopiesAt(s: System, k: nat)
    requires CopiesOk(s)
    ensures s.mallocs[k] == WI.Indicator(IsCopied(s, k)) && s.dataFrees[k] == WI.Indicator(IsReleased(s, k))
  {
  }

  lemma CopiesFrom(s: System)
    requires forall k: nat ::
      s.mallocs[k] == WI.Indicator(IsCopied(s, k)) && s.dataFrees[k] == WI.Indicator(IsReleased(s, k))
    ensures CopiesOk(s)
  {
  }

  // ---------------------------------------------------------------- the copies at the shutdown

  /** The pending works have different requests, so `clear_pending_works` releases different
      copies. */
  lemma {:induction false} CountPending(s: System, works: seq<Work<Data>>, k: nat)
    requires WorksOk(s) && ExitsOk(s) && s.wq.head + |works| <= |s.wq.works|
    requires works == s.wq.works[s.wq.head..s.wq.head + |works|]
    ensures RequestsOf(works)[k]
         == WI.Indicator(k < |s.exits| && s.exits[k].Punted?
                         && s.wq.head <= s.exits[k].id < s.wq.head + |works|)
  {
    if works != [] {
      var n := |works| - 1;
      CountPending(s, works[..n], k);
      assert works[n] == s.wq.works[s.wq.head + n];
      assert WorkOf(s, s.wq.head + n);
      if k < |s.exits| { assert ExitOf(s, k); }
      hide WorksOk, ExitsOk;
    }
  }

  lemma DestroyKeepsCopies(s: System, signal: set<nat>)
    requires SysInv(s) && CopiesOk(s) && Possible(s, DestroyWq(signal))
    ensures CopiesOk(Next(s, DestroyWq(signal)))
  {
    var s' := Next(s, DestroyWq(signal));
    DestroyIsClearedWorks(s, signal, s');
    ClearedByCalls(s, s');
    HeadInRange(s);
    DestroyFields(s, signal);
    hide SysInv, Possible, Next, CopiesOk, ClearedWorks, DeleterRan, PendingData, IsPending, Requests;
    ClearedKeepsCopies(s, s');
  }

  lemma DestroyFields(s: System, signal: set<nat>)
    requires Possible(s, DestroyWq(signal))
    ensures
      var s' := Next(s, DestroyWq(signal));
      && s'.mallocs == s.mallocs && s'.client == s.client && s'.exits == s.exits
      && s'.dataFrees == s.dataFrees + PendingData(s.wq)
  {
    hide Enabled, Apply, PendingData, PendingRequests, PendingHandles;
  }

  lemma ClearedKeepsCopies(s: System, s': System)
    requires SysInv(s) && CopiesOk(s) && s.wq.head <= |s.wq.works|
    requires s'.mallocs == s.mallocs && s'.client == s.client && s'.exits == s.exits
    requires s'.dataFrees == s.dataFrees + PendingData(s.wq)
    requires forall j: nat :: DeleterRan(s'.wq, j) == (DeleterRan(s.wq, j) || (j < |s.wq.works| && IsPending(s.wq, j)))
    requires forall j: nat :: j < |s.wq.works| && IsPending(s.wq, j) ==> !DeleterRan(s.wq, j)
    ensures CopiesOk(s')
  {
    hide DeleterRan, CopiesOk, WI.Inv, RingsOk, ClientOk, CompletionsOk, DroppedOk, FinishedOk, FreesOk;
    forall k: nat
      ensures s'.mallocs[k] == WI.Indicator(IsCopied(s', k))
      ensures s'.dataFrees[k] == WI.Indicator(IsReleased(s', k))
    {
      CopiesAt(s, k);
      CountPending(s, s.wq.works[s.wq.head..], k);
      if k < |s.exits| && s.exits[k].Punted? {
        assert ExitOf(s, k);
        assert s.exits[k].id < |s.wq.works|;
      }
    }
    CopiesFrom(s');
  }

  lemma HeadInRange(s: System)
    requires SysInv(s)
    ensures s.wq.head <= |s.wq.works|
  {
  }

  // ---------------------------------------------------------------- every step

  lemma StepKeepsCopies(s: System, e: Event)
    requires SysInv(s) && CopiesOk(s) && Possible(s, e)
    ensures CopiesOk(Next(s, e))
  {
    if e.Punt? || e.PuntAgain? {
      PuntHasOutcome(s, e);
      PuntKeepsCopies(s, Next(s, e), e.Punt?);
    } else if e.DestroyWq? {
      DestroyKeepsCopies(s, e.signal);
    } else if e.Exec? {
      ExecStepKeepsCopies(s, e.w, e.res);
    } else if e.Worker? && e.step.RunDeleter? {
      DeleterStepKeepsCopies(s, e.step.w);
    } else if e.Worker? {
      WorkerStepKeepsCopies(s, e.step);
    } else {
      ClientStepKeepsCopies(s, e);
    }
    hide SysInv, CopiesOk, Possible, Next, PuntOutcome;
  }

  lemma StepKeepsCopyInv(s: System, e: Event)
    requires CopyInv(s) && Possible(s, e)
    ensures CopyInv(Next(s, e))
  {
    hide SysInv, CopiesOk, StopReleases, Possible, Next;
    StepKeepsSysInv(s, e);
    StepKeepsCopies(s, e);
    StepKeepsStopReleases(s, e);
  }

  lemma {:induction false} RunKeepsCopyInv(states: seq<System>, events: seq<Event>, k: nat)
    requires IsSystemRun(states, events) && CopyInv(states[0]) && k <= |events|
    ensures CopyInv(states[k])
  {
    hide CopyInv, Possible, Next;
    if k > 0 {
      RunKeepsCopyInv(states, events, k - 1);
      StepKeepsCopyInv(states[k - 1], events[k - 1]);
    }
  }

  lemma InitHasCopyInv(s: System)
    requires IsInitSystem(s)
    ensures CopyInv(s)
  {
    var capacity: nat, wq: Queue<Data> :|
      IsCapacity(capacity) && capacity >= 2 && WorkQueueModel.IsInit(wq) && s == InitSystem(capacity, wq);
    InitHasSysInv(capacity, wq);
    hide SysInv;
  }

  lemma ReachableHasCopyInv(s: System)
    requires ReachableSystem(s)
    ensures CopyInv(s)
  {
    hide CopyInv, Possible, Next;
    var states: seq<System>, events: seq<Event> :|
      IsSystemRun(states, events) && IsInitSystem(states[0]) && states[|events|] == s;
    InitHasCopyInv(states[0]);
    RunKeepsCopyInv(states, events, |events|);
  }

  // ---------------------------------------------------------------- what holds in every state

  /** Every heap copy is allocated once and released at most once; those not yet released are
      with a client waiting in `queue_work`, or with a work whose deleter is still to come. */
  lemma CopiesReleasedOnce(s: System, k: nat)
    requires ReachableSystem(s)
    ensures s.dataFrees[k] <= s.mallocs[k] <= 1
    ensures s.mallocs[k] != s.dataFrees[k] <==>
              || (s.client.Blocked? && k == s.ring.sqHead)
              || (k < |s.exits| && s.exits[k].Punted? && !DeleterRan(s.wq, s.exits[k].id))
  {
    ReachableHasCopyInv(s);
    CopiesAt(s, k);
    assert |s.exits| == s.ring.sqHead;
    hide SysInv, CopiesOk, DeleterRan, StopReleases;
  }

  /** The teardown. In every reachable state in which the queue has been destroyed and no
      worker can move, every thread has exited and can be joined, the counters are zero, each
      work's calls are final, and every heap copy ever allocated has been released, once. */
  lemma TeardownCompletes(s: System)
    requires ReachableSystem(s) && s.wq.shouldStop && WP.Settled(s.wq)
    ensures s.ring.shouldStop && !s.client.Blocked?
    ensures WS.AllJoined(s.wq) && WS.CallsFinal(s.wq)
    ensures s.wq.nrSleepingWorkers == 0 && s.wq.nrRunningWorkers == 0 && s.wq.nrOnlineWorkers == 0
    ensures s.dataFrees == s.mallocs && forall k: nat :: s.dataFrees[k] <= 1
    ensures forall k: nat :: k < |s.ring.requests| ==>
              !InWorkList(s, k) && !InWorker(s, k)
  {
    ReachableHasCopyInv(s);
    QueueHasInv(s);
    WS.ReleasedSettles(s.wq);
    AllDeletersRan(s);
    NothingHeld(s);
    assert !s.client.Blocked?;
    hide SysInv, CopiesOk, WS.AllJoined, WS.CallsFinal, StopReleases, DeleterRan, InWorkList, InWorker;
    hide WP.Settled;
    forall k: nat ensures s.mallocs[k] == s.dataFrees[k] <= 1 {
      CopiesReleasedOnce(s, k);
      ExitHasWork(s, k);
    }
  }

  lemma ExitHasWork(s: System, k: nat)
    requires ReachableSystem(s)
    ensures k < |s.exits| && s.exits[k].Punted? ==> s.exits[k].id < |s.wq.works|
    ensures |s.exits| == s.ring.sqHead
  {
    ReachableHasSysInv(s);
    if k < |s.exits| { assert ExitOf(s, k); }
  }

  lemma AllDeletersRan(s: System)
    requires SysInv(s) && WS.CallsFinal(s.wq)
    ensures forall id: nat :: id < |s.wq.works| ==> DeleterRan(s.wq, id)
  {
    AllHaveDeleters(s);
    hide SysInv;
    forall id: nat | id < |s.wq.works| ensures DeleterRan(s.wq, id) {
      var calls := s.wq.calls[id];
      assert calls[|calls| - 1] == Deleter;
    }
  }

  lemma NothingHeld(s: System)
    requires WS.AllJoined(s.wq) && SysInv(s) && s.wq.shouldStop
    ensures forall k: nat :: !InWorkList(s, k) && !InWorker(s, k)
  {
    assert forall id: nat :: id < |s.wq.works| ==> !IsPending(s.wq, id);
    hide SysInv;
  }
}
