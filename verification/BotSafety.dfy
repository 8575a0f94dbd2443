/** The bot over whole runs: one getUpdates request, every completion processed once and in
    order, every update dispatched at most once, every reference accounted for. */
module BotSafety {
  import opened Uint32
  import opened WorkQueueModel
  import WI = WorkQueueInvariant
  import WP = WorkQueueProgress
  import WS = WorkQueueShutdown
  import opened RingModel
  import opened RingInvariant
  import opened RingSafety
  import opened RingSubmit
  import RS = RingShutdown
  import opened BotModel
  import opened BotInvariant

  // ---------------------------------------------------------------- the getUpdates token

  /** The request is somewhere between `gw_ring_get_sqe` and `process_cqe`. */
  ghost predicate InFlight(b: Bot, k: nat) {
    || InSubmissionRing(b.sys, k) || InWorkList(b.sys, k) || InWorker(b.sys, k)
    || exists i: nat :: |b.visited| <= i < |b.sys.origin| && b.sys.origin[i] == k
  }

  predicate IsUpdatesRequest(b: Bot, k: nat) {
    k < |b.sys.ring.requests| && b.sys.ring.requests[k].op == OP_TG_API_CALL
  }

  lemma InFlightIsLive(b: Bot, k: nat)
    requires BotInv(b) && IsUpdatesRequest(b, k) && InFlight(b, k)
    ensures LiveUpdates(b, k)
  {
    VisitedBounded(b);
    InvConserves(b.sys, k);
    var places := Places(b.sys, k);
    InFlightNotDropped(b, k);
    hide SysInv, StreamOk, TokenOk, OffsetOk, SeenOk, BatchOk, RefsOk, RequestsOk, PlaceOk;
  }

  lemma InFlightNotDropped(b: Bot, k: nat)
    requires SysInv(b.sys) && IsUpdatesRequest(b, k) && InFlight(b, k) && |b.visited| <= |b.sys.origin|
    ensures k !in b.sys.dropped && k !in b.sys.origin[..|b.visited|]
  {
    InvConserves(b.sys, k);
    PostedOrNot(b.sys, k);
    if i: nat :| |b.visited| <= i < |b.sys.origin| && b.sys.origin[i] == k {
      PostedNotDropped(b.sys, i);
    } else {
      hide SysInv, InWorkList, InWorker, InCompletionRing, IsConsumed;
      var p := Places(b.sys, k);
      assert p[0] || p[1] || p[2];
      assert !p[3] && !p[4] && !p[5];
      PrefixExcludes(b.sys.origin, |b.visited|, k);
    }
  }

  lemma PostedNotDropped(s: System, i: nat)
    requires SysInv(s) && i < |s.origin|
    ensures s.origin[i] !in s.dropped
    ensures forall n: nat :: n <= i ==> s.origin[i] !in s.origin[..n]
  {
    hide WI.Inv, ClientOk, WorksOk, ExitsOk, DroppedOk, FinishedOk, FreesOk;
    assert CompletionOf(s, i);
  }

  /** At most one getUpdates request exists across the submission ring, the work list, the
      workers and the completion ring, and none while the main thread is between taking its
      completion off the ring and arming the next one. */
  lemma SingleUpdatesRequest(b: Bot, k: nat)
    requires ReachableBot(b) && IsUpdatesRequest(b, k) && InFlight(b, k)
    ensures !HoldsToken(b.pc) && b.token == At(k)
    ensures forall l: nat :: IsUpdatesRequest(b, l) && InFlight(b, l) ==> l == k
  {
    ReachableHasBotInv(b);
    InFlightIsToken(b, k);
    forall l: nat | IsUpdatesRequest(b, l) && InFlight(b, l) ensures l == k {
      InFlightIsToken(b, l);
    }
  }

  lemma InFlightIsToken(b: Bot, k: nat)
    requires BotInv(b) && IsUpdatesRequest(b, k) && InFlight(b, k)
    ensures !HoldsToken(b.pc) && b.token == At(k)
  {
    InFlightIsLive(b, k);
    hide SysInv, InFlight;
  }

  /** As long as nothing has been dropped, the request is not lost: the main thread holds it,
      or it is in flight. */
  lemma UpdatesRequestExists(b: Bot)
    requires ReachableBot(b) && b.sys.dropped == {}
    ensures HoldsToken(b.pc) || exists k: nat :: IsUpdatesRequest(b, k) && InFlight(b, k)
  {
    ReachableHasBotInv(b);
    if !HoldsToken(b.pc) {
      var k := b.token.k;
      LiveIsInFlight(b, k);
    }
  }

  lemma LiveIsInFlight(b: Bot, k: nat)
    requires BotInv(b) && b.token == At(k)
    ensures IsUpdatesRequest(b, k) && InFlight(b, k)
  {
    assert LiveUpdates(b, k);
    InvConserves(b.sys, k);
    PostedOrNot(b.sys, k);
    VisitedBounded(b);
    hide SysInv, InWorkList, InWorker, InCompletionRing, IsConsumed;
    var p := Places(b.sys, k);
    if !p[0] && !p[1] && !p[2] {
      assert k in b.sys.origin;
      var i: nat :| i < |b.sys.origin| && b.sys.origin[i] == k;
      PrefixHas(b.sys.origin, |b.visited|, i);
    }
  }

  lemma PrefixHas(a: seq<nat>, n: nat, i: nat)
    requires n <= |a| && i < |a|
    ensures i < n ==> a[i] in a[..n]
  {
    if i < n { assert a[..n][i] == a[i]; }
  }

  /** The main thread touches `ctx->updates` only while it holds the token, and then no worker
      is executing a getUpdates request. */
  lemma UpdatesNotShared(b: Bot, w: nat)
    requires ReachableBot(b) && HoldsToken(b.pc)
    requires w < |b.sys.wq.workers| && b.sys.wq.workers[w].Executing?
    requires b.sys.wq.workers[w].id < |b.sys.wq.works|
    ensures b.sys.wq.works[b.sys.wq.workers[w].id].arg.sqe.op != OP_TG_API_CALL
  {
    ReachableHasBotInv(b);
    if b.sys.wq.works[b.sys.wq.workers[w].id].arg.sqe.op == OP_TG_API_CALL {
      ExecutingIsToken(b, w);
      assert false;
    }
  }

  // ---------------------------------------------------------------- the completion stream

  /** The completions processed over a whole run are a prefix of those posted, in post order;
      only processed ones have been released to be overwritten. */
  lemma CompletionsVisitedInOrder(b: Bot)
    requires ReachableBot(b)
    ensures b.visited <= b.sys.ring.posted && b.sys.ring.cqHead <= |b.visited|
    ensures b.pc.Visit? ==> b.head == |b.visited|
    ensures !b.pc.Visit? && !b.pc.AdvanceCq? && !(HoldsToken(b.pc) && !AtBoot(b.pc)) ==>
              b.sys.ring.cqHead == |b.visited|
  {
    ReachableHasBotInv(b);
    hide SysInv, TokenOk, OffsetOk, SeenOk, BatchOk, RefsOk, RequestsOk, PlaceOk;
  }

  /** `gw_ring_cq_advance` releases exactly what the loop has processed, also after an early
      exit of the loop. */
  lemma AdvanceReleasesVisited(b: Bot)
    requires ReachableBot(b) && CanMove(b, AdvanceNow)
    ensures Moved(b, AdvanceNow).sys.ring.cqHead == |b.visited|
  {
    ReachableHasBotInv(b);
    hide SysInv, TokenOk, OffsetOk, SeenOk, BatchOk, RefsOk, RequestsOk, PlaceOk;
  }

  /** The second `gw_ring_get_sqe`, after the nested `gw_ring_submit`, never finds the ring
      full, so the entry is never null. */
  lemma RetryFindsRoom(b: Bot)
    requires ReachableBot(b)
    requires (b.pc.Arm? && b.pc.retry) || (b.pc.HandleOne? && b.pc.retry)
    ensures !SqFull(b.sys.ring) && b.sys.client.Idle?
  {
    ReachableHasBotInv(b);
    EmptySubmissionRing(b.sys);
    hide SysInv, TokenOk, OffsetOk, SeenOk, BatchOk, RefsOk, RequestsOk, StreamOk, SqFull;
  }

  // ---------------------------------------------------------------- dispatching updates

  /** The offset armed exceeds every id dispatched before, as `int64_t`. It is an `int64_t`
      itself, and exceeds the ids themselves, if and only if all of them are below 2^63 - 1: an id
      of 2^63 - 1 makes the addition overflow, and a larger one is negative to the comparison. */
  lemma ArmedOffsetExceedsDispatched(b: Bot)
    requires ReachableBot(b) && b.pc.Arm? && CanMove(b, Fill)
    ensures
      var offset := b.maxUpdateId + 1;
      && Moved(b, Fill).sys.ring.requests
         == b.sys.ring.requests + [Sqe(OP_TG_API_CALL, API_GET_UPDATES, ApiCall(API_GET_UPDATES, offset))]
      && (forall i :: 0 <= i < |b.dispatched| ==> AsInt64(b.dispatched[i]) < offset)
      && (offset <= INT64_MAX && (forall i :: 0 <= i < |b.dispatched| ==> b.dispatched[i] < offset)
          <==> forall i :: 0 <= i < |b.dispatched| ==> b.dispatched[i] < INT64_MAX)
  {
    hide SysInv, TokenOk, OffsetOk, StreamOk, BatchOk, RefsOk, RequestsOk, PlaceOk, SqFull, ReachableBot, Possible;
    ReachableHasBotInv(b);
    OffsetExact(b);
  }

  lemma OffsetExact(b: Bot)
    requires SeenOk(b) && !HasUpdateInHand(b.pc)
    ensures
      var offset := b.maxUpdateId + 1;
      offset <= INT64_MAX && (forall i :: 0 <= i < |b.dispatched| ==> b.dispatched[i] < offset)
      <==> forall i :: 0 <= i < |b.dispatched| ==> b.dispatched[i] < INT64_MAX
  {
    if forall i :: 0 <= i < |b.dispatched| ==> b.dispatched[i] < INT64_MAX {
      forall i | 0 <= i < |b.dispatched| ensures b.dispatched[i] <= b.maxUpdateId {
        assert AsInt64(b.dispatched[i]) == b.dispatched[i];
      }
    }
  }

  lemma MaxUpdateIdGrows(b: Bot, m: Move)
    requires CanMove(b, m)
    ensures Moved(b, m).maxUpdateId >= b.maxUpdateId && b.dispatched <= Moved(b, m).dispatched
  {
    hide Next, Possible;
  }

  // ---------------------------------------------------------------- references to updates

  /** At every step boundary, the calls of `tgapi_inc_ref_update` exceed those of
      `tgapi_free_update` by the number of updates in the submission ring, the work list or a
      worker, and the one in the main thread's hands. */
  lemma ReferencesBalance(b: Bot)
    requires ReachableBot(b)
    ensures b.incRefs - b.sys.nrFrees == |UpdatesHeld(b.sys)| + WI.Indicator(HasUpdateInHand(b.pc))
  {
    ReachableHasBotInv(b);
    FreesBalance(b.sys);
    hide SysInv, TokenOk, OffsetOk, SeenOk, BatchOk, StreamOk, RequestsOk, PlaceOk, HandleRequests, UpdatesHeld;
  }

  /** Every move is a step of the ring, or leaves it alone. */
  lemma MoveFollowsRing(b: Bot, m: Move)
    requires CanMove(b, m)
    ensures Moved(b, m).sys == b.sys
         || exists e: Event :: Possible(b.sys, e) && Moved(b, m).sys == Next(b.sys, e)
  {
    hide Enabled, Apply, CqFull, CqReady, SqFull, PuntRound, FailPunt;
    match m
    case Fill =>
      var sqe := if b.pc.Arm? then UpdatesSqe(b.maxUpdateId + 1) else HandleSqe(b.updates.value[b.i]);
      assert Moved(b, m).sys == Next(b.sys, FillSqe(sqe));
    case NestedSubmit => assert Moved(b, m).sys == Next(b.sys, BeginSubmit);
    case TopBegin => assert Moved(b, m).sys == Next(b.sys, BeginSubmit);
    case InRing(e) => assert Moved(b, m).sys == Next(b.sys, e) by { hide Next; }
    case AdvanceNow => assert Moved(b, m).sys == Next(b.sys, Advance(b.count));
    case Background(e) => assert Moved(b, m).sys == Next(b.sys, e) by { hide Next; }
    case Teardown(e) => assert Moved(b, m).sys == Next(b.sys, e) by { hide Next; }
    case _ =>
  }

  lemma {:induction false} BotRunReachesSystems(states: seq<Bot>, moves: seq<Move>, k: nat)
    requires IsBotRun(states, moves) && IsInitBot(states[0]) && k <= |moves|
    ensures ReachableSystem(states[k].sys)
  {
    hide CanMove, Moved, Possible, Next, ReachableSystem;
    if k == 0 {
      InitIsReachable(states[0].sys);
    } else {
      BotRunReachesSystems(states, moves, k - 1);
      MoveFollowsRing(states[k - 1], moves[k - 1]);
      var sys := states[k - 1].sys;
      if e: Event :| Possible(sys, e) && states[k].sys == Next(sys, e) {
        NextIsReachable(sys, e);
      }
    }
  }

  /** What holds of every reachable system holds of the bot's. */
  lemma BotSystemIsReachable(b: Bot)
    requires ReachableBot(b)
    ensures ReachableSystem(b.sys)
  {
    hide CanMove, Moved, ReachableSystem;
    var states: seq<Bot>, moves: seq<Move> :|
      IsBotRun(states, moves) && IsInitBot(states[0]) && states[|moves|] == b;
    BotRunReachesSystems(states, moves, |moves|);
  }

  /** When the queue has been destroyed, the main thread has left its loop. */
  lemma TeardownComesLast(b: Bot)
    requires ReachableBot(b) && b.sys.wq.shouldStop
    ensures b.pc.Stopped?
  {
    BotSystemIsReachable(b);
    RS.ReachableHasCopyInv(b.sys);
    ReachableHasBotInv(b);
    hide SysInv, TokenOk, OffsetOk, SeenOk, StreamOk, RefsOk, RequestsOk, BatchOk, WS.Released, RS.CopiesOk;
  }

  /** The teardown. Once the queue has been destroyed and no worker can move, the threads can be
      joined, every heap copy has been released, and the balance of the references is the
      number of MODULE_HANDLE requests left in the submission ring. */
  lemma BalanceAfterTeardown(b: Bot)
    requires ReachableBot(b) && b.sys.wq.shouldStop && WP.Settled(b.sys.wq)
    ensures WS.AllJoined(b.sys.wq) && b.sys.dataFrees == b.sys.mallocs
    ensures b.incRefs - b.sys.nrFrees
         == |set k: nat | k < |b.sys.ring.requests| && InSubmissionRing(b.sys, k)
                          && b.sys.ring.requests[k].op == OP_MODULE_HANDLE|
  {
    BotSystemIsReachable(b);
    RS.TeardownCompletes(b.sys);
    TeardownComesLast(b);
    ReferencesBalance(b);
    HeldAfterTeardown(b.sys);
    hide SysInv, WS.CallsFinal, WS.AllJoined, WP.Settled, ReachableBot, ReachableSystem, UpdatesHeld;
  }

  lemma HeldAfterTeardown(s: System)
    requires ReachableSystem(s) && WS.CallsFinal(s.wq)
    ensures UpdatesHeld(s)
         == set k: nat | k < |s.ring.requests| && InSubmissionRing(s, k) && s.ring.requests[k].op == OP_MODULE_HANDLE
  {
    ReachableHasSysInv(s);
    RS.AllDeletersRan(s);
    hide SysInv, DeleterRan, WS.CallsFinal, ReachableSystem;
  }
}
