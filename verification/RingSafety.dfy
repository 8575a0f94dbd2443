/** Conservation of requests, the completion stream and the client's waits, in every reachable
    state of the ring. */
module RingSafety {
  import opened Uint32
  import opened Circular
  import opened WorkQueueModel
  import WI = WorkQueueInvariant
  import WQ = WorkQueueSafety
  import opened RingModel
  import opened RingInvariant

  // ---------------------------------------------------------------- runs

  ghost predicate IsSystemRun(states: seq<System>, events: seq<Event>) {
    && |states| == |events| + 1
    && forall k {:trigger events[k]} :: 0 <= k < |events| ==>
         Possible(states[k], events[k]) && states[k + 1] == Next(states[k], events[k])
  }

  ghost predicate ReachableSystem(s: System) {
    exists states: seq<System>, events: seq<Event> ::
      IsSystemRun(states, events) && IsInitSystem(states[0]) && states[|events|] == s
  }

  lemma {:induction false} SystemRunKeepsInv(states: seq<System>, events: seq<Event>, k: nat)
    requires IsSystemRun(states, events) && SysInv(states[0]) && k <= |events|
    ensures SysInv(states[k])
  {
    hide SysInv, Possible, Next;
    if k > 0 {
      SystemRunKeepsInv(states, events, k - 1);
      StepKeepsSysInv(states[k - 1], events[k - 1]);
    }
  }

  lemma ReachableHasSysInv(s: System)
    requires ReachableSystem(s)
    ensures SysInv(s)
  {
    hide SysInv, Possible, Next;
    var states: seq<System>, events: seq<Event> :|
      IsSystemRun(states, events) && IsInitSystem(states[0]) && states[|events|] == s;
    var capacity: nat, wq: Queue<Data> :|
      IsCapacity(capacity) && capacity >= 2 && WorkQueueModel.IsInit(wq) && states[0] == InitSystem(capacity, wq);
    InitHasSysInv(capacity, wq);
    SystemRunKeepsInv(states, events, |events|);
  }

  lemma InitIsReachable(s: System)
    requires IsInitSystem(s)
    ensures ReachableSystem(s)
  {
    var states: seq<System>, events: seq<Event> := [s], [];
    assert IsSystemRun(states, events);
  }

  lemma NextIsReachable(s: System, e: Event)
    requires ReachableSystem(s) && Possible(s, e)
    ensures ReachableSystem(Next(s, e))
  {
    hide Possible, Next, IsInitSystem;
    var states: seq<System>, events: seq<Event> :|
      IsSystemRun(states, events) && IsInitSystem(states[0]) && states[|events|] == s;
    var states', events' := states + [Next(s, e)], events + [e];
    forall k {:trigger events'[k]} | 0 <= k < |events'|
      ensures Possible(states'[k], events'[k]) && states'[k + 1] == Next(states'[k], events'[k])
    {
      if k < |events| { assert events'[k] == events[k]; }
    }
    assert IsSystemRun(states', events');
  }

  // ---------------------------------------------------------------- where a request is

  predicate InSubmissionRing(s: System, k: nat) {
    s.ring.sqHead <= k < |s.ring.requests|
  }

  ghost predicate InWorkList(s: System, k: nat) {
    exists id: nat :: id < |s.wq.works| && IsPending(s.wq, id) && s.wq.works[id].arg.request == k
  }

  /** A worker is executing the request, and has yet to post its completion. */
  ghost predicate InWorker(s: System, k: nat) {
    exists w: nat :: w < |s.wq.workers| && s.wq.workers[w].Executing?
      && s.wq.workers[w].id < |s.wq.works| && s.wq.works[s.wq.workers[w].id].arg.request == k
  }

  ghost predicate InCompletionRing(s: System, k: nat) {
    exists i: nat :: s.ring.cqHead <= i < |s.origin| && s.origin[i] == k
  }

  ghost predicate IsConsumed(s: System, k: nat) {
    exists i: nat :: i < s.ring.cqHead && i < |s.origin| && s.origin[i] == k
  }

  predicate IsDropped(s: System, k: nat) {
    k in s.dropped
  }

  ghost function Places(s: System, k: nat): seq<bool> {
    [InSubmissionRing(s, k), InWorkList(s, k), InWorker(s, k), InCompletionRing(s, k), IsConsumed(s, k),
     IsDropped(s, k)]
  }

  /** Exactly one of six. */
  predicate ExactlyOne(b: seq<bool>)
    requires |b| == 6
  {
    && (b[0] || b[1] || b[2] || b[3] || b[4] || b[5])
    && forall i, j :: 0 <= i < j < 6 ==> !(b[i] && b[j])
  }

  lemma PostedOrNot(s: System, k: nat)
    requires CompletionsOk(s)
    ensures k in s.origin <==> InCompletionRing(s, k) || IsConsumed(s, k)
    ensures !(InCompletionRing(s, k) && IsConsumed(s, k))
  {
    if k in s.origin {
      var i :| 0 <= i < |s.origin| && s.origin[i] == k;
      if s.ring.cqHead <= i { assert InCompletionRing(s, k); } else { assert IsConsumed(s, k); }
    }
  }

  /** For a request that was handed to the queue as work `id`, the queue's places decide. */
  lemma PuntedPlace(s: System, k: nat, id: nat)
    requires SysInv(s) && k < |s.exits| && s.exits[k] == Punted(id)
    ensures id < |s.wq.works|
    ensures InWorkList(s, k) <==> IsPending(s.wq, id)
    ensures InWorker(s, k) <==> WQ.InExecution(s.wq, id)
  {
    hide WI.Inv, IsPending, FreesOk, CompletionsOk, DroppedOk, FinishedOk;
    assert ExitOf(s, k);
    if InWorkList(s, k) {
      var j: nat :| j < |s.wq.works| && IsPending(s.wq, j) && s.wq.works[j].arg.request == k;
      assert WorkOf(s, j);
    }
    if InWorker(s, k) {
      var w: nat :| w < |s.wq.workers| && s.wq.workers[w].Executing?
        && s.wq.workers[w].id < |s.wq.works| && s.wq.works[s.wq.workers[w].id].arg.request == k;
      assert WorkOf(s, s.wq.workers[w].id);
      assert s.wq.workers[w] == Executing(id);
    }
    if w: nat :| w < |s.wq.workers| && s.wq.workers[w] == Executing(id) {
      assert InWorker(s, k);
    }
  }

  /** What the queue has done for a work, by its place. */
  lemma QueuePlace(wq: Queue<Data>, id: nat)
    requires WI.Inv(wq) && id < |wq.works| && wq.works[id].hasFunc
    ensures id in wq.cancelled ==> !Executed(wq, id) && !IsPending(wq, id)
    ensures IsPending(wq, id) || WQ.InExecution(wq, id) ==> !Executed(wq, id) && id !in wq.cancelled
    ensures !(IsPending(wq, id) && WQ.InExecution(wq, id))
    ensures Executed(wq, id) || id in wq.cancelled || IsPending(wq, id) || WQ.InExecution(wq, id)
  {
    hide WI.Accounting, WI.Slots, WI.NoStrandedWork, WI.NoLostDrainer;
    if w: nat :| w < |wq.workers| && wq.workers[w] == Executing(id) {
      assert WI.Is(wq.workers[w], WI.RunningClass);
    }
    if id in wq.cancelled {
      assert !WI.IsHeld(wq.workers, id);
    }
  }

  /** Conservation. Every request ever filled in is in exactly one place: the submission ring,
      the work list, a worker, the completion ring, among the consumed completions, or recorded
      as dropped. */
  lemma RequestsConserved(s: System, k: nat)
    requires ReachableSystem(s) && k < |s.ring.requests|
    ensures ExactlyOne(Places(s, k))
  {
    ReachableHasSysInv(s);
    InvConserves(s, k);
  }

  lemma InvConserves(s: System, k: nat)
    requires SysInv(s) && k < |s.ring.requests|
    ensures ExactlyOne(Places(s, k))
  {
    if k < |s.exits| {
      match s.exits[k] {
        case Punted(id) => PuntedConserved(s, k, id);
        case _ => DirectConserved(s, k);
      }
    } else {
      UnsubmittedConserved(s, k);
    }
  }

  lemma UnsubmittedConserved(s: System, k: nat)
    requires SysInv(s) && |s.exits| <= k < |s.ring.requests|
    ensures ExactlyOne(Places(s, k))
  {
    hide WI.Inv, FreesOk, FinishedOk, IsPending;
    PostedOrNot(s, k);
    forall i: nat | i < |s.origin| ensures s.origin[i] != k { assert CompletionOf(s, i); }
    forall id: nat | id < |s.wq.works| ensures s.wq.works[id].arg.request != k { assert WorkOf(s, id); }
  }

  /** Requests that left the submission ring without reaching the work queue. */
  lemma DirectConserved(s: System, k: nat)
    requires SysInv(s) && k < |s.exits| && !s.exits[k].Punted?
    ensures ExactlyOne(Places(s, k))
  {
    hide WI.Inv, FreesOk, FinishedOk, IsPending;
    PostedOrNot(s, k);
    assert ExitOf(s, k);
    forall id: nat | id < |s.wq.works| ensures s.wq.works[id].arg.request != k { assert WorkOf(s, id); }
    if k in s.origin {
      var i :| 0 <= i < |s.origin| && s.origin[i] == k;
      assert CompletionOf(s, i);
    }
    if s.exits[k].PostedAt? { assert s.origin[s.exits[k].index] == k; }
  }

  lemma PuntedConserved(s: System, k: nat, id: nat)
    requires SysInv(s) && k < |s.exits| && s.exits[k] == Punted(id)
    ensures ExactlyOne(Places(s, k))
  {
    assert |s.exits| == s.ring.sqHead && CompletionsOk(s);
    hide SysInv, InWorkList, InWorker, InCompletionRing, IsConsumed, IsPending, WQ.InExecution, ExactlyOne, CompletionsOk;
    PostedOrNot(s, k);
    PuntedPlace(s, k, id);
    PuntedFate(s, k, id);
    OneOfFive(Places(s, k));
  }

  lemma OneOfFive(b: seq<bool>)
    requires |b| == 6 && !b[0] && (b[1] || b[2] || b[3] || b[4] || b[5])
    requires b[1] ==> !b[2] && !b[3] && !b[4] && !b[5]
    requires b[2] ==> !b[3] && !b[4] && !b[5]
    requires b[3] ==> !b[4] && !b[5]
    requires b[4] ==> !b[5]
    ensures ExactlyOne(b)
  {
  }

  /** For a request handed to the queue as work `id`: exactly one of pending, executing, posted
      and dropped. */
  lemma PuntedFate(s: System, k: nat, id: nat)
    requires SysInv(s) && k < |s.exits| && s.exits[k] == Punted(id) && id < |s.wq.works|
    ensures !(k in s.origin && k in s.dropped)
    ensures IsPending(s.wq, id) || WQ.InExecution(s.wq, id) ==> k !in s.origin && k !in s.dropped
    ensures !(IsPending(s.wq, id) && WQ.InExecution(s.wq, id))
    ensures IsPending(s.wq, id) || WQ.InExecution(s.wq, id) || k in s.origin || k in s.dropped
  {
    AllHaveDeleters(s);
    QueuePlace(s.wq, id);
    hide WI.Inv, FreesOk, IsPending, WQ.InExecution, Executed;
    assert ExitOf(s, k) && WorkOf(s, id) && FinishOf(s, id);
    if k in s.origin {
      var i :| 0 <= i < |s.origin| && s.origin[i] == k;
      assert CompletionOf(s, i);
    }
  }

  /** A request yields at most one completion, and that completion carries the `op` and the
      `user_data` the request was submitted with. */
  lemma CompletionsFaithful(s: System, i: nat)
    requires ReachableSystem(s) && i < |s.ring.posted|
    ensures i < |s.origin| && s.origin[i] < |s.ring.requests|
    ensures
      var cqe, sqe := s.ring.posted[i], s.ring.requests[s.origin[i]];
      cqe.op == sqe.op && cqe.userData == sqe.userData && cqe.flags == 0
    ensures forall j: nat :: j < |s.origin| && s.origin[j] == s.origin[i] ==> j == i
  {
    ReachableHasSysInv(s);
    assert CompletionOf(s, i);
    forall j: nat | j < |s.origin| && s.origin[j] == s.origin[i] ensures j == i {
      if j < i || i < j { assert false; }
    }
  }

  // ---------------------------------------------------------------- waiting for completions

  /** No lost wake-up: a client truly asleep in `gw_ring_wait_cqe` is announced, the ring is
      not stopping, and the ring holds nothing, unless the tail has wrapped past 2^32 and the
      head has not, or exactly 2^31 completions are waiting. */
  lemma SleepingClientIsAnnounced(s: System)
    requires ReachableSystem(s) && s.client == CqWait(Sleeping)
    ensures s.ring.waitFlag && !s.ring.shouldStop
    ensures s.ring.cqHead == |s.ring.posted|
         || Wrap(|s.ring.posted|) < Wrap(s.ring.cqHead)
         || |s.ring.posted| - s.ring.cqHead == 0x8000_0000
  {
    hide SysInv, ReachableSystem;
    ReachableHasSysInv(s);
    SleeperFacts(s);
    CompletionBounds(s);
    if s.ring.cqHead < |s.ring.posted| { ReadyCountExact(s.ring.cqHead, |s.ring.posted|); }
  }

  lemma SleeperFacts(s: System)
    requires SysInv(s) && s.client == CqWait(Sleeping)
    ensures s.ring.waitFlag && !s.ring.shouldStop && !CqReady(s.ring)
  {
  }

  /** With a submission ring of at most 2^29 entries and fewer than 2^32 completions posted,
      the client sleeps only on an empty ring. */
  lemma SleepingClientSeesNothing(s: System)
    requires ReachableSystem(s) && s.client == CqWait(Sleeping)
    requires s.ring.sqCapacity <= 0x2000_0000 && |s.ring.posted| < MODULUS
    ensures s.ring.cqHead == |s.ring.posted|
  {
    hide SysInv, ReachableSystem;
    ReachableHasSysInv(s);
    SleepingClientIsAnnounced(s);
    CompletionBounds(s);
  }

  lemma CompletionBounds(s: System)
    requires SysInv(s)
    ensures s.ring.cqHead <= |s.ring.posted| <= s.ring.cqHead + 2 * s.ring.sqCapacity
    ensures |s.ring.posted| <= s.ring.cqHead + 0x8000_0000
  {
    hide WI.Inv, Requests;
    CqLimitIsCapacity(s.ring.sqCapacity);
  }

  /** On every round of its loop, `gw_ring_wait_cqe` returns exactly when the ring is stopping, or
      a completion is waiting, the tail has not wrapped past the head, and fewer than 2^31 are
      waiting; unless stopped, the count it returns is then the number of entries ready. */
  lemma WaitReturnsReadyCount(s: System, e: Event)
    requires ReachableSystem(s) && Possible(s, e) && (e.WaitCqe? || e.WaitCqeAgain?)
    ensures Next(s, e).client.Idle?
       <==> || s.ring.shouldStop
            || (s.ring.cqHead < |s.ring.posted| && Wrap(s.ring.cqHead) < Wrap(|s.ring.posted|)
                && |s.ring.posted| - s.ring.cqHead < 0x8000_0000)
    ensures Next(s, e).client.Idle? && !s.ring.shouldStop ==>
              ReadyCount(s.ring.cqHead, |s.ring.posted|) == |s.ring.posted| - s.ring.cqHead > 0
    ensures Next(s, e).ring.waitFlag <==>
              !Next(s, e).client.Idle? || (e.WaitCqe? && s.ring.waitFlag)
  {
    hide SysInv, ReachableSystem;
    ReachableHasSysInv(s);
    CompletionBounds(s);
    if s.ring.cqHead < |s.ring.posted| { ReadyCountExact(s.ring.cqHead, |s.ring.posted|); }
  }

  // ---------------------------------------------------------------- updates held

  /** The MODULE_HANDLE requests ever filled in. */
  function HandleRequests(s: System): set<nat> {
    set k: nat | k < |s.ring.requests| && s.ring.requests[k].op == OP_MODULE_HANDLE
  }

  /** The MODULE_HANDLE requests in the submission ring, or in the work list or a worker with
      the deleter still to come. */
  ghost predicate HoldsUpdate(s: System, k: nat) {
    && k < |s.ring.requests| && s.ring.requests[k].op == OP_MODULE_HANDLE
    && (InSubmissionRing(s, k)
        || exists id: nat :: id < |s.wq.works| && s.wq.works[id].arg.request == k && !DeleterRan(s.wq, id))
  }

  ghost function UpdatesHeld(s: System): set<nat> {
    set k: nat | k < |s.ring.requests| && HoldsUpdate(s, k)
  }

  /** `tgapi_free_update` has been called once for each MODULE_HANDLE request that is neither
      in the submission ring nor with the queue. */
  lemma FreesBalance(s: System)
    requires SysInv(s)
    ensures s.nrFrees == |HandleRequests(s)| - |UpdatesHeld(s)|
    ensures s.freed == HandleRequests(s) - UpdatesHeld(s)
  {
    hide WI.Inv, DroppedOk, FinishedOk, CompletionsOk, DeleterRan;
    forall k: nat | k < |s.ring.requests| && s.ring.requests[k].op == OP_MODULE_HANDLE
      ensures k in s.freed <==> !HoldsUpdate(s, k)
    {
      FreedOrHeld(s, k);
    }
    forall k: nat | k in s.freed ensures k in HandleRequests(s) {
      assert IsFreed(s, k);
    }
    assert UpdatesHeld(s) <= HandleRequests(s);
    assert s.freed == HandleRequests(s) - UpdatesHeld(s);
    assert HandleRequests(s) == s.freed + UpdatesHeld(s);
    assert s.freed !! UpdatesHeld(s);
  }

  lemma FreedOrHeld(s: System, k: nat)
    requires SysInv(s) && k < |s.ring.requests| && s.ring.requests[k].op == OP_MODULE_HANDLE
    ensures k in s.freed <==> !HoldsUpdate(s, k)
  {
    hide WI.Inv, DroppedOk, FinishedOk, DeleterRan;
    assert k in s.freed <==> IsFreed(s, k);
    if k < |s.exits| {
      assert ExitOf(s, k);
      forall id: nat | id < |s.wq.works| && s.wq.works[id].arg.request == k ensures s.exits[k] == Punted(id) {
        assert WorkOf(s, id);
      }
    }
  }
}
