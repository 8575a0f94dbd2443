/** Progress of ring and queue together: every request that is submitted is served. */
module RingProgress {
  import opened WorkQueueModel
  import WI = WorkQueueInvariant
  import WQ = WorkQueueSafety
  import WP = WorkQueueProgress
  import opened RingModel
  import opened RingSafety

  /** A step of a worker towards its next sleep. */
  predicate IsProgress(e: Event) {
    e.Exec? || (e.Worker? && WQ.IsWorkerStep(e.step))
  }

  /** An event that hands nothing to the queue, does not destroy it, and is no spurious wake-up of
      a worker. The client may wait, advance, fill in requests, complete NOPs. */
  predicate IsUndisturbed(e: Event) {
    !e.Punt? && !e.PuntAgain? && !e.DestroyWq? && !(e.Worker? && e.step.SpuriousWorker?)
  }

  function ProgressCount(events: seq<Event>): nat {
    if events == [] then 0
    else ProgressCount(events[..|events| - 1]) + WI.Indicator(IsProgress(events[|events| - 1]))
  }

  // ---------------------------------------------------------------- the measure

  lemma WorkerEventFollows(s: System, e: Event)
    requires Possible(s, e) && (e.Exec? || e.Worker?)
    ensures
      var step: Step<Data> := if e.Exec? then RunFunc(e.w) else e.step;
      Enabled(s.wq, step) && Next(s, e).wq == Apply(s.wq, step)
  {
    hide CqFull, Apply;
  }

  lemma OtherEventKeepsQueue(s: System, e: Event)
    requires Possible(s, e) && IsUndisturbed(e) && !e.Exec? && !e.Worker?
    ensures Next(s, e).wq == s.wq
  {
    hide CqFull, CqReady, SqFull;
  }

  /** Every step of a worker uses up exactly one unit of the queue's measure, before a shutdown
      and after it; no other event, undisturbed, changes it. */
  lemma EventMeasure(s: System, e: Event)
    requires Possible(s, e) && IsUndisturbed(e)
    ensures WP.Measure(Next(s, e).wq) == WP.Measure(s.wq) - WI.Indicator(IsProgress(e))
  {
    hide Possible, Next, Enabled, Apply, WP.Measure;
    if e.Exec? || e.Worker? {
      WorkerEventFollows(s, e);
      var step: Step<Data> := if e.Exec? then RunFunc(e.w) else e.step;
      if WQ.IsWorkerStep(step) {
        WP.WorkerStepMeasure(s.wq, step);
      } else {
        WorkerEventKind(s, e);
        SpuriousQueuerMeasure(s.wq, step);
      }
    } else {
      OtherEventKeepsQueue(s, e);
    }
  }

  lemma WorkerEventKind(s: System, e: Event)
    requires Possible(s, e) && e.Worker?
    ensures IsWorkerEvent(e.step)
  {
    hide Enabled;
  }

  lemma SpuriousQueuerMeasure(wq: Queue<Data>, step: Step<Data>)
    requires Enabled(wq, step) && step.SpuriousQueuer?
    ensures WP.Measure(Apply(wq, step)) == WP.Measure(wq)
  {
  }

  lemma {:induction false} RunMeasure(states: seq<System>, events: seq<Event>)
    requires IsSystemRun(states, events)
    requires forall k :: 0 <= k < |events| ==> IsUndisturbed(events[k])
    ensures ProgressCount(events) == WP.Measure(states[0].wq) - WP.Measure(states[|events|].wq)
  {
    if events != [] {
      hide Possible, Next, WP.Measure, IsProgress, IsUndisturbed;
      var n := |events| - 1;
      assert IsSystemRun(states[..n + 1], events[..n]);
      RunMeasure(states[..n + 1], events[..n]);
      EventMeasure(states[n], events[n]);
    }
  }

  /** As long as a worker of the queue can move, one of the ring can. */
  lemma UnsettledMoves(s: System) returns (e: Event)
    requires !WP.Settled(s.wq)
    ensures IsProgress(e) && Possible(s, e)
  {
    var step: Step<Data> :| WQ.IsWorkerStep(step) && Enabled(s.wq, step);
    if step.RunFunc? {
      var sqe := s.wq.works[s.wq.workers[step.w].id].arg.sqe;
      e := Exec(step.w, if sqe.op == OP_TG_API_CALL then -EOPNOTSUPP else 0);
    } else {
      e := Worker(step);
    }
  }

  // ---------------------------------------------------------------- what is left at the end

  lemma QueueHasInv(s: System)
    requires ReachableSystem(s)
    ensures WI.Inv(s.wq)
  {
    ReachableHasSysInv(s);
  }

  /** When no worker can move, every request is in one of four places: the submission ring, the
      completion ring, consumed, or recorded as dropped. */
  lemma SettledMeansServed(s: System, k: nat)
    requires ReachableSystem(s) && WP.Settled(s.wq) && k < |s.ring.requests|
    ensures !InWorkList(s, k) && !InWorker(s, k)
    ensures k >= s.ring.sqHead || InCompletionRing(s, k) || IsConsumed(s, k) || IsDropped(s, k)
  {
    QueueHasInv(s);
    RequestsConserved(s, k);
    SettledHoldsNothing(s, k);
    var b := Places(s, k);
    hide ReachableSystem, WP.Settled, InWorkList, InWorker, InCompletionRing, IsConsumed;
    assert b[0] || b[1] || b[2] || b[3] || b[4] || b[5];
  }

  lemma SettledHoldsNothing(s: System, k: nat)
    requires WI.Inv(s.wq) && WP.Settled(s.wq)
    ensures !InWorkList(s, k) && !InWorker(s, k)
  {
    hide WI.Inv, WP.Settled;
    WP.SettledMeansIdle(s.wq);
  }

  /** Progress, end to end. From any reachable state, while nothing more is handed to the queue,
      the workers take at most the measure's number of steps, whatever the client does besides;
      and when none can move, after exactly that many, every request that has left the
      submission ring has been completed or recorded as dropped. */
  lemma SubmittedRequestsAreServed(states: seq<System>, events: seq<Event>)
    requires IsSystemRun(states, events) && ReachableSystem(states[0])
    requires forall k :: 0 <= k < |events| ==> IsUndisturbed(events[k])
    ensures ProgressCount(events) <= WP.Measure(states[0].wq)
    ensures
      var s := states[|events|];
      WP.Settled(s.wq) ==>
        && ProgressCount(events) == WP.Measure(states[0].wq)
        && forall k: nat :: k < s.ring.sqHead && k < |s.ring.requests| ==>
             InCompletionRing(s, k) || IsConsumed(s, k) || IsDropped(s, k)
  {
    var s := states[|events|];
    RunMeasure(states, events);
    RunStaysReachable(states, events, |events|);
    QueueHasInv(s);
    WP.MeasureNonNegative(s.wq);
    hide ReachableSystem, Possible, Next, WP.Measure, WP.Settled, InCompletionRing, IsConsumed, WI.Inv;
    if WP.Settled(s.wq) {
      SettledQueue(s.wq);
      forall k: nat | k < s.ring.sqHead && k < |s.ring.requests|
        ensures InCompletionRing(s, k) || IsConsumed(s, k) || IsDropped(s, k)
      {
        SettledMeansServed(s, k);
      }
    }
  }

  lemma SettledQueue(wq: Queue<Data>)
    requires WI.Inv(wq) && WP.Settled(wq)
    ensures WP.Measure(wq) == 0
  {
    WP.SettledMeansIdle(wq);
  }

  lemma {:induction false} RunStaysReachable(states: seq<System>, events: seq<Event>, k: nat)
    requires IsSystemRun(states, events) && ReachableSystem(states[0]) && k <= |events|
    ensures ReachableSystem(states[k])
  {
    hide ReachableSystem, Possible, Next;
    if k > 0 {
      RunStaysReachable(states, events, k - 1);
      NextIsReachable(states[k - 1], events[k - 1]);
    }
  }
}
