/** What every step of the ring keeps: where each request is, and what has been done for it. */
module RingInvariant {
  import opened Uint32
  import opened Circular
  import opened WorkQueueModel
  import WI = WorkQueueInvariant
  import opened RingModel

  // ---------------------------------------------------------------- the invariant

  /** The queue has called `gw_ring_wq_sqe_exec` for work `id`. */
  predicate Executed(wq: Queue<Data>, id: nat) {
    id < |wq.calls| && wq.calls[id] != [] && wq.calls[id][0].Func?
  }

  /** The queue has called `gw_ring_wq_sqe_delete` for work `id`. */
  predicate DeleterRan(wq: Queue<Data>, id: nat) {
    id < |wq.calls| && Deleter in wq.calls[id]
  }

  ghost predicate RingsOk(s: System) {
    && IsCapacity(s.ring.sqCapacity)
    && s.ring.cqLimit == Wrap(2 * s.ring.sqCapacity)
    && |s.exits| == s.ring.sqHead <= |s.ring.requests| <= s.ring.sqHead + s.ring.sqCapacity
    && |s.origin| == |s.ring.posted|
    && s.ring.cqHead <= |s.ring.posted| <= s.ring.cqHead + s.ring.cqLimit
  }

  /** Only the client submits, nobody drains, and a blocked client is about to hand over the
      entry at the head of the ring. */
  ghost predicate ClientOk(s: System) {
    && s.wq.drainers == map[]
    && (if s.client.Blocked? then
          && s.ring.sqHead < |s.ring.requests|
          && IsAsync(s.ring.requests[s.ring.sqHead].op)
          && s.wq.queuers.Keys == {CLIENT}
          && s.wq.queuers[CLIENT].work == PuntWork(s)
        else s.wq.queuers == map[])
    && (s.client == CqWait(Sleeping) ==>
          s.ring.waitFlag && !s.ring.shouldStop && !CqReady(s.ring))
  }

  ghost predicate WorkOf(s: System, id: nat)
    requires id < |s.wq.works|
  {
    var k := s.wq.works[id].arg.request;
    && k < |s.exits| && k < |s.ring.requests|
    && s.exits[k] == Punted(id)
    && s.wq.works[id] == Work(true, Data(k, s.ring.requests[k]), true)
    && IsAsync(s.ring.requests[k].op)
  }

  ghost predicate WorksOk(s: System) {
    forall id: nat :: id < |s.wq.works| ==> WorkOf(s, id)
  }

  /** Which operations leave the submission ring which way. */
  predicate ExitMatches(exit: Exit, op: nat) {
    match exit
    case PostedAt(_) => op == OP_NOP
    case NopDropped => op == OP_NOP
    case UnknownOp => op > OP_MODULE_HANDLE
    case _ => IsAsync(op)
  }

  ghost predicate ExitOf(s: System, k: nat)
    requires k < |s.exits|
  {
    && k < |s.ring.requests| && ExitMatches(s.exits[k], s.ring.requests[k].op)
    && match s.exits[k]
       case PostedAt(i) => i < |s.origin| && s.origin[i] == k
       case Punted(id) => id < |s.wq.works| && s.wq.works[id].arg.request == k
       case _ => k in s.dropped
  }

  ghost predicate ExitsOk(s: System) {
    forall k: nat :: k < |s.exits| ==> ExitOf(s, k)
  }

  ghost predicate CompletionOf(s: System, i: nat)
    requires i < |s.origin|
  {
    var k := s.origin[i];
    && k < |s.exits| && k < |s.ring.requests| && i < |s.ring.posted|
    && s.ring.posted[i] == CqeFor(s.ring.requests[k], s.ring.posted[i].res)
    && k !in s.dropped
    && (s.exits[k] == PostedAt(i) || (s.exits[k].Punted? && Executed(s.wq, s.exits[k].id)))
  }

  ghost predicate CompletionsOk(s: System) {
    && (forall i: nat :: i < |s.origin| ==> CompletionOf(s, i))
    && (forall i: nat, j: nat :: i < j < |s.origin| ==> s.origin[i] != s.origin[j])
  }

  ghost predicate DroppedOk(s: System) {
    forall k :: k in s.dropped ==>
      && k < |s.exits| && !s.exits[k].PostedAt?
      && (s.exits[k].Punted? ==> Executed(s.wq, s.exits[k].id) || s.exits[k].id in s.wq.cancelled)
  }

  ghost predicate FinishOf(s: System, id: nat)
    requires id < |s.wq.works|
  {
    && (Executed(s.wq, id) ==> s.wq.works[id].arg.request in s.origin || s.wq.works[id].arg.request in s.dropped)
    && (id in s.wq.cancelled ==> s.wq.works[id].arg.request in s.dropped)
  }

  ghost predicate FinishedOk(s: System) {
    forall id: nat :: id < |s.wq.works| ==> FinishOf(s, id)
  }

  ghost predicate IsFreed(s: System, k: nat) {
    && k < |s.exits| && k < |s.ring.requests| && s.ring.requests[k].op == OP_MODULE_HANDLE
    && (s.exits[k] == PuntFailed || s.exits[k] == NoMemory
        || (s.exits[k].Punted? && DeleterRan(s.wq, s.exits[k].id)))
  }

  ghost predicate FreesOk(s: System) {
    && s.nrFrees == |s.freed|
    && forall k: nat :: k in s.freed <==> IsFreed(s, k)
  }

  ghost predicate Requests(s: System) {
    WorksOk(s) && ExitsOk(s) && CompletionsOk(s) && DroppedOk(s) && FinishedOk(s) && FreesOk(s)
  }

  ghost predicate SysInv(s: System) {
    RingsOk(s) && ClientOk(s) && WI.Inv(s.wq) && Requests(s)
  }

  // ---------------------------------------------------------------- frames

  /** `s'` records the same fates as `s`; new requests may have been filled in. */
  ghost predicate SameFates(s: System, s': System) {
    && s.ring.requests <= s'.ring.requests && |s.exits| <= |s.ring.requests|
    && s'.ring.posted == s.ring.posted && s'.origin == s.origin && s'.exits == s.exits
    && s'.dropped == s.dropped && s'.freed == s.freed && s'.nrFrees == s.nrFrees
    && s'.wq.works == s.wq.works && s'.wq.calls == s.wq.calls && s'.wq.cancelled == s.wq.cancelled
  }

  lemma SameCalls(wq: Queue<Data>, wq': Queue<Data>)
    requires wq'.calls == wq.calls
    ensures forall id: nat :: DeleterRan(wq', id) == DeleterRan(wq, id) && Executed(wq', id) == Executed(wq, id)
  {
  }

  lemma SameFatesKeepRequests(s: System, s': System)
    requires Requests(s) && SameFates(s, s')
    ensures Requests(s')
  {
    forall id: nat | id < |s'.wq.works| ensures WorkOf(s', id) && FinishOf(s', id) {
      assert WorkOf(s, id) && FinishOf(s, id);
    }
    forall k: nat | k < |s'.exits| ensures ExitOf(s', k) { assert ExitOf(s, k); }
    forall i: nat | i < |s'.origin| ensures CompletionOf(s', i) { assert CompletionOf(s, i); }
    forall k: nat ensures k in s'.freed <==> IsFreed(s', k) { assert k in s.freed <==> IsFreed(s, k); }
  }

  // ---------------------------------------------------------------- leaving the submission ring

  /** The entry at the head of the submission ring is accounted for nowhere yet. */
  lemma HeadIsFresh(s: System)
    requires Requests(s)
    ensures |s.exits| !in s.dropped && |s.exits| !in s.origin && |s.exits| !in s.freed
    ensures forall id: nat :: id < |s.wq.works| ==> s.wq.works[id].arg.request < |s.exits|
  {
    var k := |s.exits|;
    forall i: nat | i < |s.origin| ensures s.origin[i] != k { assert CompletionOf(s, i); }
    forall id: nat | id < |s.wq.works| ensures s.wq.works[id].arg.request < |s.exits| { assert WorkOf(s, id); }
    assert k in s.freed <==> IsFreed(s, k);
  }

  /** `s'` is `s` after the head entry left without reaching the work queue, dropped or posted
      as completion `|s.origin|`. */
  ghost predicate LeftDirectly(s: System, s': System, exit: Exit) {
    && s.ring.sqHead == |s.exits| < |s.ring.requests|
    && ExitMatches(exit, s.ring.requests[s.ring.sqHead].op)
    && s'.exits == s.exits + [exit] && s'.ring.requests == s.ring.requests
    && s'.wq.works == s.wq.works && s'.wq.calls == s.wq.calls && s'.wq.cancelled == s.wq.cancelled
    && var k := |s.exits|;
       && (if exit.PostedAt? then
             && exit.index == |s.origin|
             && s'.dropped == s.dropped && s'.origin == s.origin + [k]
             && s'.ring.posted == s.ring.posted + [CqeFor(s.ring.requests[k], 0)]
           else
             && !exit.Punted?
             && s'.dropped == s.dropped + {k} && s'.origin == s.origin && s'.ring.posted == s.ring.posted)
       && (if (exit == PuntFailed || exit == NoMemory) && s.ring.requests[k].op == OP_MODULE_HANDLE then
             s'.freed == s.freed + {k} && s'.nrFrees == s.nrFrees + 1
           else s'.freed == s.freed && s'.nrFrees == s.nrFrees)
  }

  lemma LeftDirectlyKeepsRequests(s: System, s': System, exit: Exit)
    requires Requests(s) && LeftDirectly(s, s', exit) && |s.origin| == |s.ring.posted|
    ensures Requests(s')
  {
    LeftDirectlyKeepsWorks(s, s', exit);
    LeftDirectlyKeepsExits(s, s', exit);
    LeftDirectlyKeepsCompletions(s, s', exit);
    LeftDirectlyKeepsFrees(s, s', exit);
    hide LeftDirectly, WorksOk, ExitsOk, CompletionsOk, DroppedOk, FinishedOk, FreesOk;
  }

  lemma LeftDirectlyKeepsWorks(s: System, s': System, exit: Exit)
    requires WorksOk(s) && FinishedOk(s) && LeftDirectly(s, s', exit)
    ensures WorksOk(s') && FinishedOk(s')
  {
    SameCalls(s.wq, s'.wq);
    hide Executed, DeleterRan;
    forall id: nat | id < |s'.wq.works| ensures WorkOf(s', id) && FinishOf(s', id) {
      assert WorkOf(s, id) && FinishOf(s, id);
      if s'.origin != s.origin { InAppended(s.origin, |s.exits|, s.wq.works[id].arg.request); }
    }
  }

  lemma LeftDirectlyKeepsExits(s: System, s': System, exit: Exit)
    requires ExitsOk(s) && LeftDirectly(s, s', exit)
    ensures ExitsOk(s')
  {
    forall k: nat | k < |s'.exits| ensures ExitOf(s', k) {
      if k < |s.exits| { assert ExitOf(s, k); }
    }
  }

  lemma LeftDirectlyKeepsFrees(s: System, s': System, exit: Exit)
    requires Requests(s) && LeftDirectly(s, s', exit)
    ensures FreesOk(s')
  {
    hide WorksOk, ExitsOk, CompletionsOk, DroppedOk, FinishedOk, DeleterRan, Executed;
    HeadIsFresh(s);
    SameCalls(s.wq, s'.wq);
    forall k: nat ensures k in s'.freed <==> IsFreed(s', k) {
      assert k in s.freed <==> IsFreed(s, k);
    }
  }

  lemma InAppended(a: seq<nat>, x: nat, y: nat)
    ensures y in a + [x] <==> y in a || y == x
  {
  }

  lemma LeftDirectlyKeepsCompletions(s: System, s': System, exit: Exit)
    requires Requests(s) && LeftDirectly(s, s', exit) && |s.origin| == |s.ring.posted|
    ensures CompletionsOk(s') && DroppedOk(s')
  {
    HeadIsFresh(s);
    forall i: nat | i < |s'.origin| ensures CompletionOf(s', i) {
      if i < |s.origin| { assert CompletionOf(s, i); }
    }
    forall i: nat, j: nat | i < j < |s'.origin| ensures s'.origin[i] != s'.origin[j] {
      if j == |s.origin| { assert s.origin[i] in s.origin; }
    }
  }

  /** `s'` is `s` after the work queue accepted the head entry. */
  ghost predicate LeftToQueue(s: System, s': System) {
    && s.ring.sqHead == |s.exits| < |s.ring.requests|
    && IsAsync(s.ring.requests[s.ring.sqHead].op)
    && |s.wq.calls| == |s.wq.works|
    && s'.exits == s.exits + [Punted(|s.wq.works|)] && s'.ring.requests == s.ring.requests
    && s'.wq.works == s.wq.works + [PuntWork(s)] && s'.wq.calls == s.wq.calls + [[]]
    && s'.wq.cancelled == s.wq.cancelled && |s.wq.works| !in s.wq.cancelled
    && s'.origin == s.origin && s'.ring.posted == s.ring.posted
    && s'.dropped == s.dropped && s'.freed == s.freed && s'.nrFrees == s.nrFrees
  }

  lemma LeftToQueueKeepsRequests(s: System, s': System)
    requires Requests(s) && LeftToQueue(s, s')
    ensures Requests(s')
  {
    HeadIsFresh(s);
    var n, m := |s.exits|, |s.wq.works|;
    forall id: nat ensures Executed(s'.wq, id) == Executed(s.wq, id) && DeleterRan(s'.wq, id) == DeleterRan(s.wq, id) {
    }
    forall id: nat | id < |s'.wq.works| ensures WorkOf(s', id) && FinishOf(s', id) {
      if id < m { assert WorkOf(s, id) && FinishOf(s, id); }
    }
    forall k: nat | k < |s'.exits| ensures ExitOf(s', k) {
      if k < n { assert ExitOf(s, k); }
    }
    forall i: nat | i < |s'.origin| ensures CompletionOf(s', i) { assert CompletionOf(s, i); }
    forall k: nat ensures k in s'.freed <==> IsFreed(s', k) {
      assert k in s.freed <==> IsFreed(s, k);
    }
  }

  // ---------------------------------------------------------------- executing and deleting

  /** `s'` is `s` after the queue called `gw_ring_wq_sqe_exec` for work `id`. */
  ghost predicate ExecutedWork(s: System, s': System, id: nat, res: int) {
    && id < |s.wq.works| == |s.wq.calls| && s.wq.calls[id] == [] && id !in s.wq.cancelled
    && s'.wq.works == s.wq.works && s'.wq.calls == s.wq.calls[id := [Func]]
    && s'.wq.cancelled == s.wq.cancelled
    && s'.exits == s.exits && s'.ring.requests == s.ring.requests
    && s'.freed == s.freed && s'.nrFrees == s.nrFrees
    && var d := s.wq.works[id].arg;
       || (s'.dropped == s.dropped + {d.request} && s'.origin == s.origin && s'.ring.posted == s.ring.posted)
       || (s'.dropped == s.dropped && s'.origin == s.origin + [d.request]
           && s'.ring.posted == s.ring.posted + [CqeFor(d.sqe, res)])
  }

  lemma ExecutedByCalls(wq: Queue<Data>, wq': Queue<Data>, id: nat)
    requires id < |wq.calls| && wq.calls[id] == [] && wq'.calls == wq.calls[id := [Func]]
    ensures forall j: nat :: Executed(wq', j) == (j == id || Executed(wq, j))
    ensures forall j: nat :: DeleterRan(wq', j) == DeleterRan(wq, j)
  {
    assert Deleter !in wq'.calls[id];
  }

  /** A work not yet executed nor cancelled has a request that is accounted for nowhere else. */
  lemma OutstandingRequest(s: System, id: nat)
    requires Requests(s) && id < |s.wq.works| && !Executed(s.wq, id) && id !in s.wq.cancelled
    ensures s.wq.works[id].arg.request !in s.dropped && s.wq.works[id].arg.request !in s.origin
  {
    var k := s.wq.works[id].arg.request;
    assert WorkOf(s, id);
    forall i: nat | i < |s.origin| ensures s.origin[i] != k { assert CompletionOf(s, i); }
  }

  lemma ExecutedWorkKeepsRequests(s: System, s': System, id: nat, res: int)
    requires Requests(s) && ExecutedWork(s, s', id, res) && |s.origin| == |s.ring.posted|
    ensures Requests(s')
  {
    OutstandingRequest(s, id);
    ExecutedByCalls(s.wq, s'.wq, id);
    hide Executed, DeleterRan;
    var r := s.wq.works[id].arg.request;
    assert WorkOf(s, id);
    forall j: nat | j < |s'.wq.works| ensures WorkOf(s', j) && FinishOf(s', j) {
      assert WorkOf(s, j) && FinishOf(s, j);
      if s'.origin != s.origin { InAppended(s.origin, r, s.wq.works[j].arg.request); }
    }
    forall k: nat | k < |s'.exits| ensures ExitOf(s', k) { assert ExitOf(s, k); }
    ExecutedWorkKeepsCompletions(s, s', id, res);
    forall k: nat ensures k in s'.freed <==> IsFreed(s', k) { assert k in s.freed <==> IsFreed(s, k); }
  }

  lemma ExecutedWorkKeepsCompletions(s: System, s': System, id: nat, res: int)
    requires Requests(s) && ExecutedWork(s, s', id, res) && |s.origin| == |s.ring.posted|
    ensures CompletionsOk(s') && DroppedOk(s')
  {
    OutstandingRequest(s, id);
    ExecutedByCalls(s.wq, s'.wq, id);
    hide Executed, DeleterRan;
    assert WorkOf(s, id);
    forall i: nat | i < |s'.origin| ensures CompletionOf(s', i) {
      if i < |s.origin| { assert CompletionOf(s, i); }
    }
    forall i: nat, j: nat | i < j < |s'.origin| ensures s'.origin[i] != s'.origin[j] {
      if j == |s.origin| { assert s.origin[i] in s.origin; }
    }
  }

  /** `s'` is `s` after the queue called `gw_ring_wq_sqe_delete` for work `id`. */
  ghost predicate DeletedWork(s: System, s': System, id: nat) {
    && id < |s.wq.works| == |s.wq.calls| && s.wq.calls[id] == [Func]
    && s'.wq.works == s.wq.works && s'.wq.calls == s.wq.calls[id := [Func, Deleter]]
    && s'.wq.cancelled == s.wq.cancelled
    && s'.exits == s.exits && s'.ring.requests == s.ring.requests
    && s'.dropped == s.dropped && s'.origin == s.origin && s'.ring.posted == s.ring.posted
    && var d := s.wq.works[id].arg;
       if d.sqe.op == OP_MODULE_HANDLE then s'.freed == s.freed + {d.request} && s'.nrFrees == s.nrFrees + 1
       else s'.freed == s.freed && s'.nrFrees == s.nrFrees
  }

  lemma DeletedByCalls(wq: Queue<Data>, wq': Queue<Data>, id: nat)
    requires id < |wq.calls| && wq.calls[id] == [Func] && wq'.calls == wq.calls[id := [Func, Deleter]]
    ensures forall j: nat :: Executed(wq', j) == Executed(wq, j)
    ensures forall j: nat :: DeleterRan(wq', j) == (j == id || DeleterRan(wq, j))
    ensures !DeleterRan(wq, id)
  {
    assert Deleter == wq'.calls[id][1];
  }

  lemma DeletedWorkKeepsRequests(s: System, s': System, id: nat)
    requires Requests(s) && DeletedWork(s, s', id)
    ensures Requests(s')
  {
    DeletedByCalls(s.wq, s'.wq, id);
    hide Executed, DeleterRan;
    var r := s.wq.works[id].arg.request;
    assert WorkOf(s, id);
    forall j: nat | j < |s'.wq.works| ensures WorkOf(s', j) && FinishOf(s', j) {
      assert WorkOf(s, j) && FinishOf(s, j);
    }
    forall k: nat | k < |s'.exits| ensures ExitOf(s', k) { assert ExitOf(s, k); }
    forall i: nat | i < |s'.origin| ensures CompletionOf(s', i) { assert CompletionOf(s, i); }
    assert r in s.freed <==> IsFreed(s, r);
    forall k: nat ensures k in s'.freed <==> IsFreed(s', k) {
      assert k in s.freed <==> IsFreed(s, k);
      if k < |s.exits| { assert ExitOf(s, k); }
    }
  }

  // ---------------------------------------------------------------- shutdown

  /** The ring's side of `destroy_workqueue`. */
  ghost predicate SystemCleared(s: System, s': System) {
    && s'.exits == s.exits && s'.ring.requests == s.ring.requests
    && s'.origin == s.origin && s'.ring.posted == s.ring.posted
    && s'.dropped == s.dropped + PendingRequests(s.wq)
    && s'.freed == s.freed + PendingHandles(s.wq)
    && s'.nrFrees == s.nrFrees + |PendingHandles(s.wq)|
  }

  /** The queue's side of it. */
  ghost predicate QueueCleared(wq: Queue<Data>, wq': Queue<Data>) {
    && |wq.works| == |wq.calls| == |wq'.calls| && wq'.works == wq.works
    && (forall id: nat :: id < |wq.works| ==>
          if IsPending(wq, id) then wq.calls[id] == [] && wq'.calls[id] == [Deleter]
          else wq'.calls[id] == wq.calls[id])
    && wq'.cancelled == wq.cancelled + PendingIds(wq)
  }

  /** `s'` is `s` after `destroy_workqueue` handed the pending works to their deleters. */
  ghost predicate ClearedWorks(s: System, s': System) {
    QueueCleared(s.wq, s'.wq) && SystemCleared(s, s')
  }

  lemma ClearedByCalls(s: System, s': System)
    requires ClearedWorks(s, s')
    ensures forall j: nat :: Executed(s'.wq, j) == Executed(s.wq, j)
    ensures forall j: nat :: DeleterRan(s'.wq, j)
              == (DeleterRan(s.wq, j) || (j < |s.wq.works| && IsPending(s.wq, j)))
    ensures forall j: nat :: j < |s.wq.works| && IsPending(s.wq, j) ==> !Executed(s.wq, j) && !DeleterRan(s.wq, j)
  {
    hide IsPending;
    forall j: nat
      ensures Executed(s'.wq, j) == Executed(s.wq, j)
      ensures DeleterRan(s'.wq, j) == (DeleterRan(s.wq, j) || (j < |s.wq.works| && IsPending(s.wq, j)))
      ensures j < |s.wq.works| && IsPending(s.wq, j) ==> !Executed(s.wq, j) && !DeleterRan(s.wq, j)
    {
      if j < |s.wq.works| && IsPending(s.wq, j) { assert s'.wq.calls[j][0] == Deleter; }
    }
  }

  lemma ClearedWorksKeepsRequests(s: System, s': System)
    requires Requests(s) && ClearedWorks(s, s')
    requires forall id: nat :: id in s.wq.cancelled ==> !IsPending(s.wq, id)
    ensures Requests(s')
  {
    ClearedByCalls(s, s');
    hide Executed, DeleterRan;
    forall j: nat | j < |s'.wq.works| ensures WorkOf(s', j) && FinishOf(s', j) {
      assert WorkOf(s, j) && FinishOf(s, j);
    }
    forall k: nat | k < |s'.exits| ensures ExitOf(s', k) { assert ExitOf(s, k); }
    ClearedWorksKeepsCompletions(s, s');
    ClearedWorksKeepsFrees(s, s');
  }

  lemma ClearedWorksKeepsCompletions(s: System, s': System)
    requires Requests(s) && ClearedWorks(s, s')
    requires forall id: nat :: id in s.wq.cancelled ==> !IsPending(s.wq, id)
    ensures CompletionsOk(s') && DroppedOk(s')
  {
    ClearedByCalls(s, s');
    hide Executed, DeleterRan;
    forall k | k in PendingRequests(s.wq)
      ensures k !in s.origin && k < |s.exits| && s.exits[k].Punted? && s.exits[k].id in s'.wq.cancelled
    {
      var id: nat :| id < |s.wq.works| && IsPending(s.wq, id) && s.wq.works[id].arg.request == k;
      assert WorkOf(s, id);
      OutstandingRequest(s, id);
    }
    forall i: nat | i < |s'.origin| ensures CompletionOf(s', i) {
      assert CompletionOf(s, i);
      assert s.origin[i] in s.origin;
    }
  }

  lemma ClearedWorksKeepsFrees(s: System, s': System)
    requires Requests(s) && ClearedWorks(s, s')
    ensures FreesOk(s')
  {
    ClearedByCalls(s, s');
    hide Executed, DeleterRan;
    var handles := PendingHandles(s.wq);
    forall k | k in handles
      ensures k < |s.exits| && s.exits[k].Punted? && k < |s.ring.requests|
      ensures s.ring.requests[k].op == OP_MODULE_HANDLE && IsPending(s.wq, s.exits[k].id)
      ensures s.exits[k].id < |s.wq.works| && k !in s.freed
    {
      var id: nat :| id < |s.wq.works| && IsPending(s.wq, id)
        && s.wq.works[id].arg.sqe.op == OP_MODULE_HANDLE && s.wq.works[id].arg.request == k;
      assert WorkOf(s, id);
      assert k in s.freed <==> IsFreed(s, k);
    }
    assert s.freed !! handles;
    forall k: nat ensures k in s'.freed <==> IsFreed(s', k) {
      assert k in s.freed <==> IsFreed(s, k);
      if k < |s.exits| && s.exits[k].Punted? {
        assert ExitOf(s, k);
        assert WorkOf(s, s.exits[k].id);
      }
    }
  }

  // ---------------------------------------------------------------- the queue's part of each step

  lemma QueueStepKeepsInv(wq: Queue<Data>, step: Step<Data>)
    requires WI.Inv(wq) && Enabled(wq, step)
    ensures WI.Inv(Apply(wq, step))
  {
    WI.StepKeepsInv(wq, step);
  }

  /** What a step leaves alone: the record of works, and who is inside. */
  ghost predicate LeavesRecord(wq: Queue<Data>, wq': Queue<Data>) {
    && wq'.works == wq.works && wq'.cancelled == wq.cancelled
    && wq'.drainers == map[] && wq'.queuers.Keys == wq.queuers.Keys
    && (forall c :: c in wq.queuers ==> wq'.queuers[c].work == wq.queuers[c].work)
  }

  lemma WaitForEventEffect(wq: Queue<Data>, w: nat)
    requires w < |wq.workers| && wq.drainers == map[]
    ensures LeavesRecord(wq, WaitForEvent(wq, w)) && WaitForEvent(wq, w).calls == wq.calls
  {
  }

  /** The steps of a worker other than calling `func`. */
  lemma WorkerStepEffect(wq: Queue<Data>, step: Step<Data>)
    requires Enabled(wq, step) && IsWorkerEvent(step) && wq.drainers == map[]
    ensures LeavesRecord(wq, Apply(wq, step))
    ensures !step.RunDeleter? ==> Apply(wq, step).calls == wq.calls
  {
    hide FinishSignal, WaitForEvent;
    match step
    case Start(w) => WaitForEventEffect(wq.(nrOnlineWorkers := wq.nrOnlineWorkers + 1), w);
    case Resume(w) => WaitForEventEffect(wq.(nrSleepingWorkers := wq.nrSleepingWorkers - 1), w);
    case Finish(w, signal) =>
      WaitForEventEffect(wq.(nrRunningWorkers := wq.nrRunningWorkers - 1,
                             queuers := RouseQueuers(wq.queuers, signal)), w);
    case _ =>
  }

  lemma RunFuncEffect(wq: Queue<Data>, w: nat)
    requires WI.Inv(wq) && Enabled(wq, RunFunc(w)) && wq.works[wq.workers[w].id].hasFunc
    ensures
      var wq', id := Apply(wq, RunFunc(w)), wq.workers[w].id;
      && wq.calls[id] == [] && id !in wq.cancelled
      && wq' == wq.(workers := wq'.workers, calls := wq.calls[id := [Func]])
  {
    assert [] + FuncCalls(wq.works[wq.workers[w].id]) == [Func];
    assert WI.Is(wq.workers[w], WI.RunningClass);
  }

  lemma RunDeleterEffect(wq: Queue<Data>, w: nat)
    requires WI.Inv(wq) && Enabled(wq, RunDeleter(w))
    requires wq.works[wq.workers[w].id].hasFunc && wq.works[wq.workers[w].id].hasDeleter
    ensures
      var wq', id := Apply(wq, RunDeleter(w)), wq.workers[w].id;
      && wq.calls[id] == [Func]
      && wq' == wq.(workers := wq'.workers, calls := wq.calls[id := [Func, Deleter]])
  {
    assert [Func] + DeleterCalls(wq.works[wq.workers[w].id]) == [Func, Deleter];
    assert WI.Is(wq.workers[w], WI.RunningClass);
  }

  lemma PushEffect(wq: Queue<Data>, work: Work<Data>, signal: set<nat>)
    requires WI.Inv(wq)
    ensures
      var wq' := Push(wq, work, signal);
      && wq' == wq.(works := wq.works + [work], calls := wq.calls + [[]], workers := wq'.workers)
      && |wq.works| !in wq.cancelled && |wq.calls| == |wq.works|
  {
    hide Rouse, FirstFree;
  }

  lemma DestroyEffect(wq: Queue<Data>, signal: set<nat>)
    requires WI.Inv(wq) && Enabled(wq, Destroy(signal)) && wq.drainers == map[]
    requires forall id: nat :: id < |wq.works| ==> wq.works[id].hasDeleter
    ensures
      var wq' := Apply(wq, Destroy(signal));
      && QueueCleared(wq, wq')
      && wq'.drainers == map[] && wq'.queuers == wq.queuers
      && (forall id: nat :: id in wq.cancelled ==> !IsPending(wq, id))
  {
    CallsOfPending(wq);
    CancelledNotPending(wq);
    hide WI.Inv, Rouse, WakesByCount, ClearPending, QueueCleared;
    ClearPendingEffect(wq, Apply(wq, Destroy(signal)));
  }

  lemma ClearPendingEffect(wq: Queue<Data>, wq': Queue<Data>)
    requires |wq.calls| == |wq.works|
    requires forall id: nat :: id < |wq.works| ==> wq.works[id].hasDeleter
    requires forall id: nat :: id < |wq.works| && IsPending(wq, id) ==> wq.calls[id] == []
    requires wq'.works == ClearPending(wq).works && wq'.calls == ClearPending(wq).calls
    requires wq'.cancelled == ClearPending(wq).cancelled
    ensures QueueCleared(wq, wq')
    ensures ClearPending(wq).drainers == wq.drainers && ClearPending(wq).queuers == wq.queuers
    ensures ClearPending(wq).waitAllIsWaiting == wq.waitAllIsWaiting
  {
    hide PendingIds;
  }

  lemma CancelledNotPending(wq: Queue<Data>)
    requires WI.Inv(wq)
    ensures |wq.calls| == |wq.works|
    ensures forall id: nat :: id in wq.cancelled ==> !IsPending(wq, id)
  {
  }

  lemma CallsOfPending(wq: Queue<Data>)
    requires WI.Inv(wq)
    ensures forall id: nat :: id < |wq.works| && IsPending(wq, id) ==> wq.calls[id] == []
  {
  }

  // ---------------------------------------------------------------- every step

  predicate IsClientOnly(e: Event) {
    e.FillSqe? || e.BeginSubmit? || e.EndSubmit? || e.WaitCqe? || e.WaitCqeAgain? || e.SpuriousClient?
    || e.Advance? || e.StopRing?
  }

  lemma ClientStepFates(s: System, e: Event)
    requires RingsOk(s) && Possible(s, e) && IsClientOnly(e)
    ensures SameFates(s, Next(s, e))
  {
    hide IsCapacity, SqFull, CqReady;
  }

  lemma SubmissionRoom(r: Rings)
    requires IsCapacity(r.sqCapacity) && r.sqHead <= |r.requests| <= r.sqHead + r.sqCapacity && !SqFull(r)
    ensures |r.requests| < r.sqHead + r.sqCapacity
  {
    RefusalExact(r.sqHead, |r.requests|, r.sqCapacity);
  }

  lemma ClientStepKeepsInv(s: System, e: Event)
    requires SysInv(s) && Possible(s, e) && IsClientOnly(e)
    ensures SysInv(Next(s, e))
  {
    hide RingsOk, ClientOk, Requests, WI.Inv, SameFates, Possible, Next;
    ClientStepFates(s, e);
    SameFatesKeepRequests(s, Next(s, e));
    ClientStepKeepsRings(s, e);
  }

  lemma ClientStepKeepsRings(s: System, e: Event)
    requires RingsOk(s) && ClientOk(s) && Possible(s, e) && IsClientOnly(e)
    ensures RingsOk(Next(s, e)) && ClientOk(Next(s, e)) && Next(s, e).wq == s.wq
  {
    if e.FillSqe? {
      SubmissionRoom(s.ring);
      hide IsCapacity, SqFull, CqReady;
    } else if e.WaitCqe? || e.WaitCqeAgain? {
      hide IsCapacity, WaitLoop;
      WaitLoopKeepsRings(s.(ring := s.ring.(waitFlag := e.WaitCqe? && s.ring.waitFlag), client := Idle));
    } else {
      hide IsCapacity, CqReady, WaitLoop;
    }
  }

  lemma WaitLoopKeepsRings(s: System)
    requires RingsOk(s) && ClientOk(s) && s.client.Idle?
    ensures RingsOk(WaitLoop(s)) && ClientOk(WaitLoop(s)) && WaitLoop(s).wq == s.wq
  {
    hide IsCapacity;
  }

  lemma CompletionRoom(r: Rings)
    requires IsCapacity(r.sqCapacity) && r.cqLimit == Wrap(2 * r.sqCapacity)
    requires r.cqHead <= |r.posted| <= r.cqHead + r.cqLimit && !CqFull(r)
    ensures |r.posted| < r.cqHead + r.cqLimit
  {
    CqLimitIsCapacity(r.sqCapacity);
    if r.cqLimit > 0 { RefusalExact(r.cqHead, |r.posted|, r.cqLimit); }
  }

  /** The completion ring has a power-of-two limit, unless the doubling wrapped it to zero. */
  lemma CqLimitIsCapacity(capacity: nat)
    requires IsCapacity(capacity)
    ensures Wrap(2 * capacity) == if capacity <= 0x4000_0000 then 2 * capacity else 0
    ensures capacity <= 0x4000_0000 ==> IsCapacity(2 * capacity)
  {
    CapacityRange(capacity);
    var k: nat :| k <= 31 && capacity == Pow2(k);
    Pow2At31();
    if k <= 30 {
      Pow2Monotone(k, 30);
      assert 2 * capacity == Pow2(k + 1);
    }
  }

  /** The client's wait, after a completion was posted or not. */
  lemma PostKeepsRings(s: System, k: nat, sqe: Sqe, res: int)
    requires RingsOk(s) && ClientOk(s)
    ensures RingsOk(PostCqe(s, k, sqe, res)) && ClientOk(PostCqe(s, k, sqe, res))
  {
    if !CqFull(s.ring) { CompletionRoom(s.ring); }
    hide CqFull, CqReady, IsCapacity;
  }

  lemma LeaveKeepsRings(s: System, exit: Exit, counted: bool)
    requires RingsOk(s) && ClientOk(s) && AtEntry(s)
    ensures RingsOk(Leave(s, exit, counted)) && ClientOk(Leave(s, exit, counted))
  {
    hide IsCapacity;
  }

  lemma NopStepKeepsInv(s: System)
    requires SysInv(s) && Possible(s, IssueNop)
    ensures SysInv(Next(s, IssueNop))
  {
    var k := s.ring.sqHead;
    var exit := if CqFull(s.ring) then NopDropped else PostedAt(|s.ring.posted|);
    hide Requests, WI.Inv, IsCapacity, CqFull;
    PostKeepsRings(s, k, s.ring.requests[k], 0);
    LeaveKeepsRings(PostCqe(s, k, s.ring.requests[k], 0), exit, !CqFull(s.ring));
    LeftDirectlyKeepsRequests(s, Next(s, IssueNop), exit);
  }

  lemma UnknownStepKeepsInv(s: System)
    requires SysInv(s) && Possible(s, IssueUnknown)
    ensures SysInv(Next(s, IssueUnknown))
  {
    hide Requests, WI.Inv, IsCapacity, CqFull, CqReady;
    LeftDirectlyKeepsRequests(s, Next(s, IssueUnknown), UnknownOp);
  }

  lemma FailPuntKeepsInv(s: System, exit: Exit)
    requires exit == PuntFailed || exit == NoMemory
    requires RingsOk(s) && Requests(s) && WI.Inv(s.wq) && s.ring.sqHead < |s.ring.requests|
    requires IsAsync(s.ring.requests[s.ring.sqHead].op)
    requires s.wq.drainers == map[] && s.wq.queuers == map[]
    ensures SysInv(FailPunt(s, exit))
  {
    hide Requests, WI.Inv, IsCapacity, CqFull, CqReady;
    LeftDirectlyKeepsRequests(s, FailPunt(s, exit), exit);
  }

  /** One round of `queue_work`, `wq` being the queue without the client in it. */
  lemma PuntRoundKeepsInv(s: System, wq: Queue<Data>, signal: set<nat>)
    requires s.ring.sqHead < |s.ring.requests| && IsAsync(s.ring.requests[s.ring.sqHead].op)
    requires RingsOk(s) && Requests(s) && WI.Inv(wq) && WI.Inv(TryQueue(wq, CLIENT, PuntWork(s), signal))
    requires wq.drainers == map[] && wq.queuers == map[]
    requires wq.works == s.wq.works && wq.calls == s.wq.calls && wq.cancelled == s.wq.cancelled
    ensures SysInv(PuntRound(s, wq, signal))
  {
    hide Requests, WI.Inv, Push, IsCapacity, Full, CqReady, FailPunt;
    match TryVerdict(wq)
    case Accepted =>
      PushEffect(wq, PuntWork(s), signal);
      LeftToQueueKeepsRequests(s, PuntRound(s, wq, signal));
    case OwnerDead =>
      var s' := FreeData(s.(wq := wq), s.ring.sqHead);
      SameFatesKeepRequests(s, s');
      FailPuntKeepsInv(s', PuntFailed);
    case Again =>
      SameFatesKeepRequests(s, PuntRound(s, wq, signal));
  }

  lemma MallocsIrrelevant(s: System, mallocs: multiset<nat>)
    requires SysInv(s)
    ensures SysInv(s.(mallocs := mallocs))
  {
    hide Requests, WI.Inv, IsCapacity, CqReady;
    SameFatesKeepRequests(s, s.(mallocs := mallocs));
  }

  lemma PuntStepKeepsInv(s: System, e: Event)
    requires SysInv(s) && Possible(s, e) && (e.Punt? || e.PuntAgain?)
    ensures SysInv(Next(s, e))
  {
    hide Requests, WI.Inv, PuntRound, RingsOk, IsCapacity, ArmSignal, TryQueue;
    if e.Punt? {
      QueueStepKeepsInv(s.wq, Submit(CLIENT, PuntWork(s), e.signal));
      PuntRoundKeepsInv(s, s.wq, e.signal);
      MallocsIrrelevant(PuntRound(s, s.wq, e.signal), Next(s, e).mallocs);
    } else {
      QueueStepKeepsInv(s.wq, Resubmit(CLIENT, e.signal));
      UnqueueKeepsInv(s.wq, CLIENT);
      assert Unqueue(s.wq, CLIENT).queuers.Keys == {};
      assert Unqueue(s.wq, CLIENT).queuers == map[];
      PuntRoundKeepsInv(s, Unqueue(s.wq, CLIENT), e.signal);
    }
  }

  lemma UnqueueKeepsInv(wq: Queue<Data>, c: nat)
    requires WI.Inv(wq) && c in wq.queuers
    ensures WI.Inv(Unqueue(wq, c))
  {
    WI.UnqueueKeepsCore(wq, c);
    hide WI.Core;
  }

  lemma QueueMovedKeepsRings(s: System, s': System)
    requires RingsOk(s) && ClientOk(s) && LeavesRecord(s.wq, s'.wq)
    requires s'.ring == s.ring && s'.client == s.client && s'.exits == s.exits && s'.origin == s.origin
    ensures RingsOk(s') && ClientOk(s')
  {
    hide IsCapacity, CqReady;
    assert s.wq.queuers.Keys == {} ==> s'.wq.queuers == map[];
  }

  lemma WorkerStepKeepsRings(s: System, step: Step<Data>)
    requires SysInv(s) && Possible(s, Worker(step))
    ensures RingsOk(Next(s, Worker(step))) && ClientOk(Next(s, Worker(step)))
    ensures WI.Inv(Next(s, Worker(step)).wq)
  {
    NoDrainers(s);
    hide Requests, WI.Inv, Apply, Enabled, RingsOk, ClientOk, LeavesRecord, Possible, Next, IsWorkerEvent;
    WorkerNextFields(s, step);
    QueueStepKeepsInv(s.wq, step);
    WorkerStepEffect(s.wq, step);
    QueueMovedKeepsRings(s, Next(s, Worker(step)));
  }

  lemma WorkerNextFields(s: System, step: Step<Data>)
    requires Possible(s, Worker(step))
    ensures Enabled(s.wq, step) && IsWorkerEvent(step)
    ensures
      var s' := Next(s, Worker(step));
      && s'.wq == Apply(s.wq, step) && s'.ring == s.ring && s'.client == s.client
      && s'.exits == s.exits && s'.origin == s.origin
  {
    hide Apply, Enabled;
  }

  lemma NoDrainers(s: System)
    requires SysInv(s)
    ensures s.wq.drainers == map[]
  {
  }

  lemma DeleterStepKeepsRequests(s: System, step: Step<Data>)
    requires SysInv(s) && Possible(s, Worker(step)) && step.RunDeleter?
    ensures Requests(Next(s, Worker(step)))
  {
    DeleterEventEffect(s, step);
    hide Requests, WI.Inv, Possible, Next, RingsOk, ClientOk, DeletedWork;
    DeletedWorkKeepsRequests(s, Next(s, Worker(step)), s.wq.workers[step.w].id);
  }

  lemma DeleterEventEffect(s: System, step: Step<Data>)
    requires SysInv(s) && Possible(s, Worker(step)) && step.RunDeleter?
    ensures step.w < |s.wq.workers| && s.wq.workers[step.w].Deleting?
    ensures DeletedWork(s, Next(s, Worker(step)), s.wq.workers[step.w].id)
  {
    assert WorkOf(s, s.wq.workers[step.w].id);
    RunDeleterEffect(s.wq, step.w);
    hide SysInv, Apply;
  }

  lemma OtherStepFates(s: System, step: Step<Data>)
    requires RingsOk(s) && s.wq.drainers == map[] && Possible(s, Worker(step)) && !step.RunDeleter?
    ensures SameFates(s, Next(s, Worker(step)))
  {
    WorkerStepEffect(s.wq, step);
    hide Apply, IsCapacity, Enabled;
  }

  lemma OtherStepKeepsRequests(s: System, step: Step<Data>)
    requires SysInv(s) && Possible(s, Worker(step)) && !step.RunDeleter?
    ensures Requests(Next(s, Worker(step)))
  {
    OtherStepFates(s, step);
    hide WorksOk, ExitsOk, CompletionsOk, DroppedOk, FinishedOk, FreesOk;
    hide WI.Inv, RingsOk, ClientOk, Possible, Next, SameFates;
    SameFatesKeepRequests(s, Next(s, Worker(step)));
  }

  lemma WorkerStepKeepsInv(s: System, step: Step<Data>)
    requires SysInv(s) && Possible(s, Worker(step))
    ensures SysInv(Next(s, Worker(step)))
  {
    WorkerStepKeepsRings(s, step);
    if step.RunDeleter? { DeleterStepKeepsRequests(s, step); } else { OtherStepKeepsRequests(s, step); }
    hide Requests, WI.Inv, ClientOk, RingsOk, Possible, Next;
  }

  lemma ExecIsExecutedWork(s: System, w: nat, res: int)
    requires SysInv(s) && Possible(s, Exec(w, res))
    ensures
      var s', id := Next(s, Exec(w, res)), s.wq.workers[w].id;
      && ExecutedWork(s, s', id, res) && id < |s.wq.works|
      && s'.wq == Apply(s.wq, RunFunc(w))
      && s'.wq.drainers == s.wq.drainers && s'.wq.queuers == s.wq.queuers
      && var d := s.wq.works[id].arg;
         s' == PostCqe(s.(wq := s'.wq), d.request, d.sqe, res)
  {
    assert WorkOf(s, s.wq.workers[w].id);
    RunFuncEffect(s.wq, w);
    hide Requests, WI.Inv, IsCapacity, Apply, CqFull, CqReady;
  }

  lemma ExecStepKeepsInv(s: System, w: nat, res: int)
    requires SysInv(s) && Possible(s, Exec(w, res))
    ensures SysInv(Next(s, Exec(w, res)))
  {
    var s', id := Next(s, Exec(w, res)), s.wq.workers[w].id;
    hide Requests, WI.Inv, IsCapacity, Apply, CqFull, CqReady, Enabled, ExecutedWork, PostCqe;
    QueueStepKeepsInv(s.wq, RunFunc(w));
    ExecIsExecutedWork(s, w, res);
    ExecutedWorkKeepsRequests(s, s', id, res);
    var d := s.wq.works[id].arg;
    PostKeepsRings(s.(wq := s'.wq), d.request, d.sqe, res);
  }

  lemma DestroyIsClearedWorks(s: System, signal: set<nat>, s': System)
    requires SysInv(s) && Possible(s, DestroyWq(signal)) && s' == Next(s, DestroyWq(signal))
    ensures ClearedWorks(s, s') && s'.wq.drainers == map[] && s'.wq.queuers == s.wq.queuers
    ensures forall id: nat :: id in s.wq.cancelled ==> !IsPending(s.wq, id)
  {
    AllHaveDeleters(s);
    NoDrainers(s);
    hide SysInv, Apply, Enabled, Possible, Next, QueueCleared, SystemCleared, IsPending;
    DestroyNextFields(s, signal);
    DestroyEffect(s.wq, signal);
  }

  lemma DestroyNextFields(s: System, signal: set<nat>)
    requires Possible(s, DestroyWq(signal))
    ensures Enabled(s.wq, Destroy(signal)) && SystemCleared(s, Next(s, DestroyWq(signal)))
    ensures Next(s, DestroyWq(signal)).wq == Apply(s.wq, Destroy(signal))
  {
    hide Apply, Enabled, PendingRequests, PendingHandles, PendingData;
  }

  lemma DestroyStepKeepsInv(s: System, signal: set<nat>)
    requires SysInv(s) && Possible(s, DestroyWq(signal))
    ensures SysInv(Next(s, DestroyWq(signal)))
  {
    hide Requests, WI.Inv, IsCapacity, Apply, CqFull, CqReady, Enabled, ClearedWorks;
    var s' := Next(s, DestroyWq(signal));
    QueueStepKeepsInv(s.wq, Destroy(signal));
    DestroyIsClearedWorks(s, signal, s');
    ClearedWorksKeepsRequests(s, s');
  }

  lemma AllHaveDeleters(s: System)
    requires WorksOk(s)
    ensures forall id: nat :: id < |s.wq.works| ==> s.wq.works[id].hasFunc && s.wq.works[id].hasDeleter
  {
    forall id: nat | id < |s.wq.works| ensures s.wq.works[id].hasFunc && s.wq.works[id].hasDeleter {
      assert WorkOf(s, id);
    }
  }

  lemma NoMemoryStepKeepsInv(s: System)
    requires SysInv(s) && Possible(s, PuntNoMemory)
    ensures SysInv(Next(s, PuntNoMemory))
  {
    hide Requests, WI.Inv, IsCapacity, FailPunt;
    FailPuntKeepsInv(s, NoMemory);
  }

  /** Every step keeps the invariant of the ring. */
  lemma StepKeepsSysInv(s: System, e: Event)
    requires SysInv(s) && Possible(s, e)
    ensures SysInv(Next(s, e))
  {
    hide SysInv;
    match e
    case IssueNop => NopStepKeepsInv(s);
    case IssueUnknown => UnknownStepKeepsInv(s);
    case PuntNoMemory => NoMemoryStepKeepsInv(s);
    case Punt(_) => PuntStepKeepsInv(s, e);
    case PuntAgain(_) => PuntStepKeepsInv(s, e);
    case Worker(step) => WorkerStepKeepsInv(s, step);
    case Exec(w, res) => ExecStepKeepsInv(s, w, res);
    case DestroyWq(signal) => DestroyStepKeepsInv(s, signal);
    case _ => ClientStepKeepsInv(s, e);
  }

  lemma InitHasSysInv(capacity: nat, wq: Queue<Data>)
    requires IsCapacity(capacity) && WorkQueueModel.IsInit(wq)
    ensures SysInv(InitSystem(capacity, wq))
  {
    var maxThreads: nat, created: nat, pending: nat :|
      && 1 <= maxThreads && created <= maxThreads && IsCapacity(pending)
      && wq == Init(maxThreads, created, pending);
    WI.InitHasInv<Data>(maxThreads, created, pending);
  }
}
