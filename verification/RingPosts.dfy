/** Which completions the events of the ring post, and what they carry. */
module RingPosts {
  import opened Uint32
  import opened Circular
  import opened WorkQueueModel
  import WI = WorkQueueInvariant
  import opened RingModel
  import opened RingInvariant
  import opened RingSafety
  import RP = RingProgress

  /** In every reachable state, the two rings refuse an entry if and only if they are full or the
      tail alone has wrapped. */
  lemma FullExact(s: System)
    requires ReachableSystem(s)
    ensures SqFull(s.ring) <==> !HasSpace(s.ring.sqHead, |s.ring.requests|, s.ring.sqCapacity)
    ensures CqFull(s.ring) <==> !HasSpace(s.ring.cqHead, |s.ring.posted|, s.ring.cqLimit)
  {
    hide SysInv, ReachableSystem;
    ReachableHasSysInv(s);
    RingsFullExact(s);
  }

  lemma RingsFullExact(s: System)
    requires SysInv(s)
    ensures SqFull(s.ring) <==> !HasSpace(s.ring.sqHead, |s.ring.requests|, s.ring.sqCapacity)
    ensures CqFull(s.ring) <==> !HasSpace(s.ring.cqHead, |s.ring.posted|, s.ring.cqLimit)
  {
    CqLimitIsCapacity(s.ring.sqCapacity);
    hide WI.Inv, Requests, ClientOk, HasSpace, Refuses;
    SpaceExact(s.ring.sqHead, |s.ring.requests|, s.ring.sqCapacity);
    SpaceExact(s.ring.cqHead, |s.ring.posted|, s.ring.cqLimit);
  }

  /** The request a worker is executing. */
  function Executed(s: System, w: nat): Sqe
    requires w < |s.wq.workers| && s.wq.workers[w].Executing? && s.wq.workers[w].id < |s.wq.works|
  {
    s.wq.works[s.wq.workers[w].id].arg.sqe
  }

  /** The completion an event has to offer: that of the NOP the client issues, or of the request a
      worker has executed, with the result of the execution. */
  function Offers(s: System, e: Event): seq<Cqe>
    requires Possible(s, e)
  {
    match e
    case IssueNop => [Cqe(OP_NOP, 0, 0, s.ring.requests[s.ring.sqHead].userData)]
    case Exec(w, res) => [Cqe(Executed(s, w).op, res, 0, Executed(s, w).userData)]
    case _ => []
  }

  /** An event posts what it has to offer, if the completion ring has room for it. */
  lemma EventPosts(s: System, e: Event)
    requires ReachableSystem(s) && Possible(s, e)
    ensures Next(s, e).ring.posted
         == s.ring.posted + if HasSpace(s.ring.cqHead, |s.ring.posted|, s.ring.cqLimit) then Offers(s, e) else []
  {
    FullExact(s);
    hide ReachableSystem, HasSpace;
    assert s.ring.posted + [] == s.ring.posted;
    if e.Exec? {
      ExecutedIsAsync(s, e.w);
      hide CqFull, Apply, Enabled;
    } else if e.Punt? || e.PuntAgain? {
      PuntPostsNothing(s, e);
    } else {
      hide CqFull, CqReady, SqFull, Apply, Enabled, TryQueue;
    }
  }

  /** What a worker executes is the request as it was filled in. */
  lemma ExecutedIsAsync(s: System, w: nat)
    requires ReachableSystem(s) && Enabled(s.wq, RunFunc(w))
    ensures IsAsync(Executed(s, w).op)
    ensures
      var k := s.wq.works[s.wq.workers[w].id].arg.request;
      k < |s.ring.requests| && Executed(s, w) == s.ring.requests[k] && s.wq.works[s.wq.workers[w].id].hasFunc
  {
    ReachableHasSysInv(s);
    assert WorkOf(s, s.wq.workers[w].id);
  }

  lemma PuntPostsNothing(s: System, e: Event)
    requires Possible(s, e) && (e.Punt? || e.PuntAgain?)
    ensures Next(s, e).ring.posted == s.ring.posted
  {
    hide TryQueue, TryVerdict, Unqueue, Enabled;
  }

  /** Event `k` of the run posted completion `i`. */
  ghost predicate PostedBy(states: seq<System>, events: seq<Event>, k: nat, i: nat)
    requires IsSystemRun(states, events) && k < |events|
  {
    && |states[k].ring.posted| == i < |states[k + 1].ring.posted|
    && Offers(states[k], events[k]) == [states[k + 1].ring.posted[i]]
  }

  /** Over a run, every completion in the ring was offered by some event: its `op`, `res` and
      `user_data` are those of a NOP the client issued, with 0, or of a request a worker executed,
      with the result of that execution. */
  lemma {:induction false} CompletionsAreOffers(states: seq<System>, events: seq<Event>, n: nat, i: nat)
    requires IsSystemRun(states, events) && IsInitSystem(states[0])
    requires n <= |events| && i < |states[n].ring.posted|
    ensures exists k: nat :: k < n && PostedBy(states, events, k, i)
              && i < |states[k + 1].ring.posted| && states[n].ring.posted[i] == states[k + 1].ring.posted[i]
  {
    hide Possible, Next, HasSpace, Offers, ReachableSystem;
    NothingPosted(states[0]);
    if n > 0 {
      InitIsReachable(states[0]);
      RP.RunStaysReachable(states, events, n - 1);
      EventPosts(states[n - 1], events[n - 1]);
      if i < |states[n - 1].ring.posted| {
        CompletionsAreOffers(states, events, n - 1, i);
        var k: nat :| k < n - 1 && PostedBy(states, events, k, i)
          && i < |states[k + 1].ring.posted| && states[n - 1].ring.posted[i] == states[k + 1].ring.posted[i];
      } else {
        OffersOne(states[n - 1], events[n - 1]);
        assert PostedBy(states, events, n - 1, i);
      }
    }
  }

  lemma OffersOne(s: System, e: Event)
    requires Possible(s, e)
    ensures |Offers(s, e)| <= 1
  {
    hide Enabled;
  }

  lemma NothingPosted(s: System)
    requires IsInitSystem(s)
    ensures s.ring.posted == []
  {
  }

  /** A getUpdates request can complete with any result; any other API call completes with
      `-EOPNOTSUPP`. */
  lemma UnsupportedCalls(s: System, w: nat, res: int)
    requires Possible(s, Exec(w, res)) && Executed(s, w).op == OP_TG_API_CALL
    requires Executed(s, w).payload.ApiCall? && Executed(s, w).payload.callOp != API_GET_UPDATES
    ensures res == -95
  {
    hide Enabled;
  }
}
