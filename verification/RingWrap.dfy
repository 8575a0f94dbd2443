/** What becomes of a client that waits for completions when the tail of the completion ring wraps
    past 2^32. */
module RingWrap {
  import opened Uint32
  import opened Circular
  import opened WorkQueueModel
  import WI = WorkQueueInvariant
  import opened RingModel
  import opened RingInvariant
  import opened RingSafety

  // ---------------------------------------------------------------- the client is stuck

  /** A client asleep over a ring that is not empty finds it refusing every completion. */
  lemma SleepingOverCompletionsMeansFull(s: System)
    requires ReachableSystem(s) && s.client == CqWait(Sleeping) && s.ring.cqHead < |s.ring.posted|
    ensures CqFull(s.ring) && s.ring.waitFlag
  {
    hide SysInv, ReachableSystem;
    SleepingClientIsAnnounced(s);
    ReachableHasSysInv(s);
    FullWhenWrapped(s);
  }

  lemma FullWhenWrapped(s: System)
    requires SysInv(s) && s.ring.cqHead < |s.ring.posted|
    requires Wrap(|s.ring.posted|) < Wrap(s.ring.cqHead) || |s.ring.posted| - s.ring.cqHead == 0x8000_0000
    ensures CqFull(s.ring)
  {
    hide Requests, WI.Inv, ClientOk;
    CqLimitIsCapacity(s.ring.sqCapacity);
    CapacityRange(s.ring.cqLimit);
    RefusalExact(s.ring.cqHead, |s.ring.posted|, s.ring.cqLimit);
  }

  /** So every further completion is dropped, and nothing but a spurious wake-up or the end of
      the ring ever wakes the client. */
  lemma StuckOverCompletions(s: System, e: Event)
    requires ReachableSystem(s) && s.client == CqWait(Sleeping) && s.ring.cqHead < |s.ring.posted|
    requires Possible(s, e) && !e.SpuriousClient? && !e.StopRing?
    ensures
      var s' := Next(s, e);
      && s'.client == CqWait(Sleeping) && s'.ring == s.ring
      && (e.Exec? && IsAsync(s.wq.works[s.wq.workers[e.w].id].arg.sqe.op) ==>
            s.wq.works[s.wq.workers[e.w].id].arg.request in s'.dropped)
  {
    SleepingOverCompletionsMeansFull(s);
    hide ReachableSystem, CqFull, CqReady, Enabled, Apply, TryQueue;
  }

  // ---------------------------------------------------------------- how it gets there

  /** A system whose client has had `n` NOPs completed, one at a time. */
  ghost predicate CountedTo(s: System, n: nat) {
    && ReachableSystem(s) && s.client.Idle? && !s.ring.shouldStop && s.ring.sqCapacity == 2
    && s.ring.sqHead == |s.ring.requests| && s.ring.cqHead == |s.ring.posted| == n
  }

  const NOP: Sqe := Sqe(OP_NOP, 0, NoPayload)

  /** One NOP filled in, submitted and completed, the client idle again. */
  lemma CompleteNop(s: System, n: nat) returns (s': System)
    requires CountedTo(s, n)
    ensures ReachableSystem(s') && s'.client.Idle? && !s'.ring.shouldStop && s'.ring.sqCapacity == 2
    ensures s'.ring.sqHead == |s'.ring.requests| && s'.ring.cqHead == n && |s'.ring.posted| == n + 1
  {
    hide ReachableSystem;
    RoomForNop(s);
    var s1 := Next(s, FillSqe(NOP));
    NextIsReachable(s, FillSqe(NOP));
    var s2 := Next(s1, BeginSubmit);
    NextIsReachable(s1, BeginSubmit);
    var s3 := Next(s2, IssueNop);
    NextIsReachable(s2, IssueNop);
    s' := Next(s3, EndSubmit);
    NextIsReachable(s3, EndSubmit);
  }

  lemma RoomForNop(s: System)
    requires ReachableSystem(s) && s.ring.sqCapacity == 2
    requires s.ring.sqHead == |s.ring.requests| && s.ring.cqHead == |s.ring.posted|
    ensures !SqFull(s.ring) && !CqFull(s.ring)
  {
    ReachableHasSysInv(s);
    assert s.ring.cqLimit == 4;
  }

  lemma {:induction false} CountTo(wq: Queue<Data>, n: nat) returns (s: System)
    requires WorkQueueModel.IsInit(wq)
    ensures CountedTo(s, n)
  {
    if n == 0 {
      assert 2 == Pow2(1);
      s := InitSystem(2, wq);
      InitIsReachable(s);
    } else {
      var before := CountTo(wq, n - 1);
      s := CompleteNop(before, n - 1);
      NextIsReachable(s, Advance(1));
      s := Next(s, Advance(1));
    }
  }

  /** The bound on the number of completions is needed: with one completion waiting at the
      wrap, `gw_ring_wait_cqe` goes to sleep, and is stuck. */
  lemma WaitSleepsAtWrap(wq: Queue<Data>) returns (s: System)
    requires WorkQueueModel.IsInit(wq)
    ensures ReachableSystem(s) && s.client == CqWait(Sleeping)
    ensures s.ring.cqHead == 0xFFFF_FFFF && |s.ring.posted| == 0x1_0000_0000
  {
    var before := CountTo(wq, 0xFFFF_FFFF);
    s := CompleteNop(before, 0xFFFF_FFFF);
    hide ReachableSystem;
    NextIsReachable(s, WaitCqe);
    s := Next(s, WaitCqe);
  }
}
