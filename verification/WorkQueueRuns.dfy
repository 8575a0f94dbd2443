/** Runs of the work queue in which a caller could have expected more. */
module WorkQueueRuns {
  import opened Uint32
  import opened WorkQueueModel
  import opened WorkQueueShutdown

  lemma InitIsReachable<T(!new)>(q: Queue<T>)
    requires IsInit(q)
    ensures Reachable(q)
  {
    var states: seq<Queue<T>>, steps: seq<Step<T>> := [q], [];
    assert IsRun(states, steps);
  }

  lemma StepIsReachable<T(!new)>(q: Queue<T>, step: Step<T>)
    requires Reachable(q) && Enabled(q, step)
    ensures Reachable(Apply(q, step))
  {
    hide Enabled, Apply, IsInit;
    var states: seq<Queue<T>>, steps: seq<Step<T>> :|
      IsRun(states, steps) && IsInit(states[0]) && states[|steps|] == q;
    var states', steps' := states + [Apply(q, step)], steps + [step];
    forall k {:trigger steps'[k]} | 0 <= k < |steps'|
      ensures Enabled(states'[k], steps'[k]) && states'[k + 1] == Apply(states'[k], steps'[k])
    {
      if k < |steps| { assert steps'[k] == steps[k]; }
    }
    assert IsRun(states', steps');
  }

  const FIRST: nat := 0
  const SECOND: nat := 1
  const SUBMITTER: nat := 2

  function SmallInit<T>(): Queue<T> {
    Queue(false, false, false, 0, 0, 0, 0, 2, 0, [], [], {}, [Free], map[], map[])
  }

  lemma SmallInitIsReachable<T(!new)>()
    ensures Reachable(SmallInit<T>())
  {
    assert 2 == Pow2(1);
    assert SmallInit<T>() == Init(1, 0, 2);
    InitIsReachable(SmallInit<T>());
  }

  /** A work is submitted, and a worker created for it, while a drain caller sleeps. */
  function Draining<T>(work: Work<T>): Queue<T> {
    Queue(false, true, true, 0, 0, 0, 0, 2, 0, [work], [[]], {}, [Starting], map[FIRST := Sleeping], map[])
  }

  lemma DrainingIsReachable<T(!new)>(work: Work<T>)
    ensures Reachable(Draining(work))
  {
    SmallInitIsReachable<T>();
    var q0, submit, drain := SmallInit<T>(), Submit(SUBMITTER, work, {}), Drain(FIRST);
    assert FirstFree(q0.workers) == 0;
    StepIsReachable(q0, submit);
    var q1 := Apply(q0, submit);
    assert q1 == Queue(false, false, false, 0, 0, 0, 0, 2, 0, [work], [[]], {}, [Starting], map[], map[]);
    StepIsReachable(q1, drain);
    assert Apply(q1, drain) == Draining(work);
  }

  /** The worker has been through the work and sleeps; the drain caller has been woken. */
  function Drained<T>(work: Work<T>): Queue<T> {
    Queue(false, true, true, 1, 0, 1, 0, 2, 1, [work], [FuncCalls(work) + DeleterCalls(work)], {},
          [Asleep], map[FIRST := Roused], map[])
  }

  lemma DrainedIsReachable<T(!new)>(work: Work<T>)
    ensures Reachable(Drained(work))
  {
    DrainingIsReachable(work);
    var q0 := Draining(work);
    var calls := FuncCalls(work) + DeleterCalls(work);
    var q1 := q0.(nrOnlineWorkers := 1, head := 1, nrRunningWorkers := 1, workers := [Executing(0)]);
    var q2 := q1.(workers := [Deleting(0)], calls := [FuncCalls(work)]);
    var q3 := q2.(workers := [Done(0)], calls := [calls]);
    StepIsReachable(q0, Start(0));
    assert q1 == Apply(q0, Start(0));
    StepIsReachable(q1, RunFunc(0));
    assert q2 == Apply(q1, RunFunc(0)) by { assert [] + FuncCalls(work) == FuncCalls(work); }
    StepIsReachable(q2, RunDeleter(0));
    assert q3 == Apply(q2, RunDeleter(0));
    StepIsReachable(q3, Finish(0, {}));
    assert RouseDrainers(q3.drainers) == map[FIRST := Roused];
    assert RouseQueuers(q3.queuers, {}) == map[];
    assert Drained(work) == Apply(q3, Finish(0, {}));
  }

  /** `wait_all_work_done` with two callers does not keep submissions out until both have
      left: here the second returns while the first, woken but not yet back, is inside, and the
      next submission is accepted. */
  lemma SecondDrainerUnblocks<T(!new)>(work: Work<T>) returns (q: Queue<T>, q': Queue<T>)
    ensures Reachable(q) && q.queueIsBlocked && FIRST in q.drainers && Outside(q, SECOND) && Outside(q, SUBMITTER)
    ensures Enabled(q, Drain(SECOND)) && q' == Apply(q, Drain(SECOND)) && SECOND !in q'.drainers
    ensures Enabled(q', Submit(SUBMITTER, work, {0})) && FIRST in Apply(q', Submit(SUBMITTER, work, {0})).drainers
    ensures Apply(q', Submit(SUBMITTER, work, {0})).works == q.works + [work]
  {
    DrainedIsReachable(work);
    q := Drained(work);
    q' := Apply(q, Drain(SECOND));
    assert Sleepers(q'.workers) == {0};
    assert !Full(q');
  }

  /** `destroy_workqueue` during a drain can leave a thread that never exits. */
  lemma ShutdownCanStrand<T(!new)>(work: Work<T>) returns (q: Queue<T>)
    ensures Reachable(q) && Enabled(q, Destroy({})) && !JoinAlwaysReturns(Apply(q, Destroy({})))
  {
    DrainingIsReachable(work);
    q := Draining(work);
    assert !q.workers[0].Free?;
    ShutdownExact(q, {});
  }
}
